/** The gallery section: a horizontally laid-out strip of cards that is pinned while the page
    scrolls and slides left as the reader scrolls down, plus the archive modal. */
module Gallery {

  /** `calculateWidth`: how far the strip has to slide left for its right end to reach the
      viewport's right edge, and nothing when the strip already fits. */
  function TravelDistance(scrollWidth: int, innerWidth: int): (d: int)
    ensures d >= 0 && d >= scrollWidth - innerWidth
    ensures d == 0 || d == scrollWidth - innerWidth
  {
    if scrollWidth - innerWidth > 0 then scrollWidth - innerWidth else 0
  }

  /** The tween's end value for `x`. */
  function TargetX(scrollWidth: int, innerWidth: int): int {
    -TravelDistance(scrollWidth, innerWidth)
  }

  /** At the end of the tween the strip never slides right, it stays put exactly when it fits,
      otherwise its right end lines up with the viewport's right edge, and it never travels
      further than its own width. */
  lemma TargetXLandsRightEdge(scrollWidth: int, innerWidth: int)
    ensures TargetX(scrollWidth, innerWidth) <= 0
    ensures TargetX(scrollWidth, innerWidth) == 0 <==> scrollWidth <= innerWidth
    ensures scrollWidth > innerWidth ==> scrollWidth + TargetX(scrollWidth, innerWidth) == innerWidth
    ensures 0 <= innerWidth && 0 <= scrollWidth ==> -scrollWidth <= TargetX(scrollWidth, innerWidth)
  {
  }

  /** A 2000 px strip in an 800 px window travels 1200 px; a 600 px strip does not move. */
  lemma TravelExamples()
    ensures TravelDistance(2000, 800) == 1200 && TargetX(2000, 800) == -1200
    ensures TravelDistance(600, 800) == 0 && TargetX(600, 800) == 0
  {
  }

  /** The pinned stretch, `end: "+=" + scrollWidth`: the section stays pinned for as many
      pixels of vertical scroll as the strip is wide, whatever the viewport's width. */
  function PinDistance(scrollWidth: nat): nat {
    scrollWidth
  }

  /** The pinned stretch is always long enough for the whole travel, whatever the viewport,
      so the tween ends exactly as the pin is released. */
  lemma PinCoversTravel(scrollWidth: nat, innerWidth: int)
    requires innerWidth >= 0
    ensures TravelDistance(scrollWidth, innerWidth) <= PinDistance(scrollWidth)
  {
  }

  /** Progress through the pinned stretch for a scroll offset measured from the point where
      the section's top meets the viewport's top, clamped to [0, 1]. */
  function Progress(offset: real, pin: nat): (p: real)
    requires pin > 0
    ensures 0.0 <= p <= 1.0
    ensures 0.0 <= offset <= pin as real ==> p * (pin as real) == offset
  {
    if offset <= 0.0 then 0.0
    else if offset >= pin as real then 1.0
    else offset / pin as real
  }

  /** With `ease: "none"` the strip's position is linear in progress. */
  function XAt(p: real, scrollWidth: int, innerWidth: int): real
    requires 0.0 <= p <= 1.0
  {
    p * TargetX(scrollWidth, innerWidth) as real
  }

  /** The strip starts in place, ends at the tween's target and moves monotonically left. */
  lemma XIsLinearAndMonotone(p1: real, p2: real, scrollWidth: int, innerWidth: int)
    requires 0.0 <= p1 <= p2 <= 1.0
    ensures XAt(0.0, scrollWidth, innerWidth) == 0.0
    ensures XAt(1.0, scrollWidth, innerWidth) == TargetX(scrollWidth, innerWidth) as real
    ensures TargetX(scrollWidth, innerWidth) as real <= XAt(p2, scrollWidth, innerWidth) <= XAt(p1, scrollWidth, innerWidth) <= 0.0
  {
    var t := TargetX(scrollWidth, innerWidth) as real;
    assert t <= 0.0;
    assert (p2 - p1) * t <= 0.0 by {
      NonNegTimesNonPos(p2 - p1, t);
    }
    assert (1.0 - p2) * t <= 0.0 by {
      NonNegTimesNonPos(1.0 - p2, t);
    }
    NonNegTimesNonPos(p1, t);
  }

  lemma NonNegTimesNonPos(a: real, b: real)
    requires a >= 0.0 && b <= 0.0
    ensures a * b <= 0.0
  {
  }

  /** Inside the pinned stretch the strip moves sideways no faster than the page scrolls: the
      travel is never longer than the pinned distance. */
  lemma SidewaysNoFasterThanScroll(o1: real, o2: real, scrollWidth: nat, innerWidth: nat)
    requires scrollWidth > 0
    requires 0.0 <= o1 <= o2 <= scrollWidth as real
    ensures var pin := PinDistance(scrollWidth);
      XAt(Progress(o1, pin), scrollWidth, innerWidth) - XAt(Progress(o2, pin), scrollWidth, innerWidth) <= o2 - o1
  {
    var w := scrollWidth as real;
    var p1, p2 := Progress(o1, scrollWidth), Progress(o2, scrollWidth);
    var d := TravelDistance(scrollWidth, innerWidth) as real;
    assert PinDistance(scrollWidth) == scrollWidth;
    assert d <= w;
    ProgressAdvances(o1, o2, scrollWidth);
    ScaleBelow(p2 - p1, d, w);
    var x1, x2 := XAt(p1, scrollWidth, innerWidth), XAt(p2, scrollWidth, innerWidth);
    assert x1 - x2 == (p2 - p1) * d;
    assert (p2 - p1) * d <= o2 - o1;
  }

  /** Inside the pinned stretch progress advances by the scrolled distance over the pin. */
  lemma ProgressAdvances(o1: real, o2: real, pin: nat)
    requires pin > 0
    requires 0.0 <= o1 <= o2 <= pin as real
    ensures 0.0 <= Progress(o2, pin) - Progress(o1, pin)
    ensures (Progress(o2, pin) - Progress(o1, pin)) * (pin as real) == o2 - o1
  {
    var w := pin as real;
    var q := Progress(o2, pin) - Progress(o1, pin);
    assert q * w == o2 - o1;
  }

  lemma ScaleBelow(q: real, d: real, w: real)
    requires 0.0 <= q && d <= w
    ensures q * d <= q * w
  {
    assert q * w - q * d == q * (w - d);
  }

  class Gallery {
    /** Whether the archive modal is open. */
    var modalOpen: bool
    /** Whether the animation context (the tween and its pinned trigger) exists. */
    var ctxLive: bool
    /** The tween's current end value and pin distance, as measured at the last refresh. */
    var x: int
    var pin: nat
    /** The 500 ms refresh timer is scheduled and not yet fired or cleared. */
    var refreshPending: bool
    /** Refreshes this component itself triggered. */
    var refreshes: nat

    /** The component makes at most one refresh of its own, and only while its context exists. */
    predicate Valid()
      reads this
    {
      && (refreshPending ==> ctxLive && refreshes == 0)
      && refreshes <= 1
    }

    /** Mount. Without the section or the strip in the DOM the effect returns early: no tween,
        no timer, and nothing to tear down. */
    constructor (refsPresent: bool, scrollWidth: nat, innerWidth: int)
      ensures Valid()
      ensures !modalOpen && refreshes == 0
      ensures ctxLive == refsPresent && refreshPending == refsPresent
      ensures refsPresent ==> x == TargetX(scrollWidth, innerWidth) && pin == PinDistance(scrollWidth)
    {
      modalOpen := false;
      refreshes := 0;
      ctxLive := refsPresent;
      refreshPending := refsPresent;
      x := if refsPresent then TargetX(scrollWidth, innerWidth) else 0;
      pin := if refsPresent then PinDistance(scrollWidth) else 0;
    }

    /** A refresh, from any source: with `invalidateOnRefresh` the end value and the pin
        distance are measured again. */
    method Refresh(scrollWidth: nat, innerWidth: int)
      modifies this`x, this`pin
      ensures ctxLive ==> x == TargetX(scrollWidth, innerWidth) && pin == PinDistance(scrollWidth)
      ensures !ctxLive ==> x == old(x) && pin == old(pin)
    {
      if ctxLive {
        x := TargetX(scrollWidth, innerWidth);
        pin := PinDistance(scrollWidth);
      }
    }

    /** The deferred refresh fires, once, and only if it was not cleared. */
    method FireRefreshTimer(scrollWidth: nat, innerWidth: int)
      requires Valid()
      modifies this`refreshPending, this`refreshes, this`x, this`pin
      ensures Valid()
      ensures !refreshPending
      ensures refreshes == old(refreshes) + if old(refreshPending) then 1 else 0
      ensures old(refreshPending) ==> x == TargetX(scrollWidth, innerWidth) && pin == PinDistance(scrollWidth)
      ensures !old(refreshPending) ==> x == old(x) && pin == old(pin)
    {
      if refreshPending {
        refreshPending := false;
        refreshes := refreshes + 1;
        Refresh(scrollWidth, innerWidth);
      }
    }

    /** Unmount: the context is reverted and the timer cleared, so no refresh comes later. */
    method Unmount()
      requires Valid()
      modifies this`ctxLive, this`refreshPending
      ensures Valid()
      ensures !ctxLive && !refreshPending
    {
      ctxLive := false;
      refreshPending := false;
    }

    /** The archive card. */
    method OpenArchive()
      modifies this`modalOpen
      ensures modalOpen
    {
      modalOpen := true;
    }

    /** The backdrop and the close button. */
    method CloseArchive()
      modifies this`modalOpen
      ensures !modalOpen
    {
      modalOpen := false;
    }
  }
}
