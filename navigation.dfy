/** The fixed navigation overlay: logo and studio links that switch the page's view, an apply
    link to the footer, and a bottom-left hint that turns into a back-to-top button once the
    page is scrolled to within 50 px of its end. */
module Navigation {
  import Content

  /** The two views the page can show. */
  datatype View = Home | About

  /** What a click asks for, in the order it asks: a view change through the parent's
      `onViewChange`, a smooth scroll to the top, or a smooth scroll to the footer. */
  datatype Action = ChangeView(view: View) | SmoothScrollTop | ScrollToFooter

  /** `docHeight - (scrollY + innerHeight) < 50`: less than 50 px of page left below the
      viewport. Scroll offsets can be fractional, so the measures are reals. */
  predicate AtBottom(docHeight: real, scrollY: real, innerHeight: real) {
    docHeight - (scrollY + innerHeight) < 50.0
  }

  /** Scrolling further down never leaves the bottom zone. */
  lemma AtBottomIsUpwardClosed(docHeight: real, y1: real, y2: real, innerHeight: real)
    requires y1 <= y2 && AtBottom(docHeight, y1, innerHeight)
    ensures AtBottom(docHeight, y2, innerHeight)
  {
  }

  /** A page no taller than the viewport plus 50 px is at the bottom without any scrolling. */
  lemma ShortPageIsAtBottom(docHeight: real, innerHeight: real)
    requires docHeight < innerHeight + 50.0
    ensures AtBottom(docHeight, 0.0, innerHeight)
  {
  }

  /** The logo: go home, then scroll to the top, whatever the current view. */
  function LogoClick(current: View): seq<Action> {
    [ChangeView(Home), SmoothScrollTop]
  }

  function Other(v: View): (w: View)
    ensures w != v
  {
    if v == Home then About else Home
  }

  /** The studio link: from home it goes to about, from about it goes home; either way it
      then scrolls to the top. */
  function StudioClick(current: View): (actions: seq<Action>)
  {
    if current == Home then [ChangeView(About), SmoothScrollTop]
    else [ChangeView(Home), SmoothScrollTop]
  }

  /** The view a parent that follows `onViewChange` ends on after the actions run. */
  function ViewAfter(current: View, actions: seq<Action>): View
    decreases |actions|
  {
    if actions == [] then current
    else ViewAfter(if actions[0].ChangeView? then actions[0].view else current, actions[1..])
  }

  /** The studio link always changes the view, ends with a scroll to the top, and two clicks
      bring the page back where it was. */
  lemma StudioToggles(v: View)
    ensures ViewAfter(v, StudioClick(v)) == Other(v)
    ensures StudioClick(v)[|StudioClick(v)| - 1] == SmoothScrollTop
    ensures var w := ViewAfter(v, StudioClick(v)); ViewAfter(w, StudioClick(w)) == v
  {
    ChangeThenScroll(v, Other(v));
    ChangeThenScroll(Other(v), v);
  }

  lemma ChangeThenScroll(v: View, w: View)
    ensures ViewAfter(v, [ChangeView(w), SmoothScrollTop]) == w
  {
    var a := [ChangeView(w), SmoothScrollTop];
    assert a[1..] == [SmoothScrollTop] && a[1..][1..] == [];
    assert ViewAfter(v, a) == ViewAfter(w, a[1..]);
    assert ViewAfter(w, a[1..]) == ViewAfter(w, a[1..][1..]);
  }

  /** The logo lands on home from either view. */
  lemma LogoGoesHome(v: View)
    ensures ViewAfter(v, LogoClick(v)) == Home
    ensures LogoClick(v)[|LogoClick(v)| - 1] == SmoothScrollTop
  {
    ChangeThenScroll(v, Home);
  }

  /** The apply link: the footer is looked up by id and scrolled to only when it exists. */
  function ApplyClick(footerPresent: bool): seq<Action> {
    if footerPresent then [ScrollToFooter] else []
  }

  /** The apply link never changes the view and never scrolls to the top; it scrolls to the
      footer exactly when the footer exists. */
  lemma ApplyKeepsView(v: View, footerPresent: bool)
    ensures ViewAfter(v, ApplyClick(footerPresent)) == v
    ensures ScrollToFooter in ApplyClick(footerPresent) <==> footerPresent
    ensures SmoothScrollTop !in ApplyClick(footerPresent)
  {
    var a := ApplyClick(footerPresent);
    if footerPresent {
      assert a[1..] == [];
      assert ViewAfter(v, a) == ViewAfter(v, a[1..]);
    }
  }

  /** The bottom-left hint: clickable only at the bottom, where it scrolls to the top. */
  function BottomLeftClick(isAtBottom: bool): seq<Action> {
    if isAtBottom then [SmoothScrollTop] else []
  }

  function BottomLeftLabel(isAtBottom: bool): string {
    if isAtBottom then Content.BACK_TO_TOP else Content.SCROLL_DOWN
  }

  /** The hint reads "back to top" exactly when clicking it scrolls to the top, and otherwise
      reads "scroll" and does nothing. */
  lemma BottomLeftAgrees(isAtBottom: bool)
    ensures BottomLeftLabel(isAtBottom) == Content.BACK_TO_TOP <==> BottomLeftClick(isAtBottom) == [SmoothScrollTop]
    ensures BottomLeftLabel(isAtBottom) == Content.SCROLL_DOWN <==> BottomLeftClick(isAtBottom) == []
  {
    assert Content.BACK_TO_TOP[0] != Content.SCROLL_DOWN[0];
  }

  class Navigation {
    var isAtBottom: bool
    /** Whether the scroll listener is attached. */
    var listening: bool

    /** Mount: the listener is attached and the position checked once straight away. */
    constructor (docHeight: real, scrollY: real, innerHeight: real)
      ensures listening
      ensures isAtBottom == AtBottom(docHeight, scrollY, innerHeight)
    {
      listening := true;
      new;
      HandleScroll(docHeight, scrollY, innerHeight);
    }

    /** `handleScroll`, with the measures read at the time of the event. */
    method HandleScroll(docHeight: real, scrollY: real, innerHeight: real)
      requires listening
      modifies this`isAtBottom
      ensures isAtBottom == AtBottom(docHeight, scrollY, innerHeight)
    {
      var scrollPosition := scrollY + innerHeight;
      if docHeight - scrollPosition < 50.0 {
        isAtBottom := true;
      } else {
        isAtBottom := false;
      }
    }

    /** Unmount: the listener is removed. */
    method Unmount()
      modifies this`listening
      ensures !listening
    {
      listening := false;
    }

    function BottomLeft(): (actions: seq<Action>)
      reads this
    {
      BottomLeftClick(isAtBottom)
    }
  }
}
