/** The page shell: it owns the smooth-scroll instance (Lenis), keeps it stopped while the
    preloader runs, stops and starts it around the legal overlay, and resets the scroll
    position when the view changes. Calls into Lenis, ScrollTrigger and the window are
    recorded in order in a log, so each property is a statement about what was called. */
module App {
  import opened Navigation

  /** `lenisRef.current`: empty before the mount effect, then the instance, which stays in
      the ref after it is destroyed. */
  datatype LenisRef = NoLenis | Live | Destroyed

  datatype Call =
    | Stop            // lenis.stop()
    | Start           // lenis.start()
    | Resize          // lenis.resize()
    | Refresh         // ScrollTrigger.refresh()
    | ScrollTop       // window.scrollTo(0, 0)
    | SyncScroll      // lenis.on('scroll', ScrollTrigger.update)
    | TickerAdd       // gsap.ticker.add(update)
    | LagSmoothingOff // gsap.ticker.lagSmoothing(0)
    | TickerRemove    // gsap.ticker.remove(update)
    | Destroy         // lenis.destroy()

  /** `running` is whether the live instance is scrolling (started and not stopped);
      `loadTimers` and `viewTimers` count the 100 ms timers scheduled and not yet fired. */
  datatype AppState = AppState(
    isLoading: bool,
    isLegalOpen: bool,
    view: View,
    lenis: LenisRef,
    running: bool,
    loadTimers: nat,
    viewTimers: nat,
    log: seq<Call>)

  const INITIAL: AppState := AppState(true, false, Home, NoLenis, false, 0, 0, [])

  function Invoke(s: AppState, c: Call): AppState {
    var t := s.(log := s.log + [c]);
    match c
    case Stop => if s.lenis.Live? then t.(running := false) else t
    case Start => if s.lenis.Live? then t.(running := true) else t
    case Destroy => t.(lenis := Destroyed, running := false)
    case _ => t
  }

  /** The mount effect: a new instance (which starts out scrolling) is stopped at once, wired
      to ScrollTrigger and driven from the GSAP ticker. */
  function MountEffect(s: AppState): AppState {
    var t := s.(lenis := Live, running := true);
    Invoke(Invoke(Invoke(Invoke(t, Stop), SyncScroll), TickerAdd), LagSmoothingOff)
  }

  /** The loading effect: schedules the settle timer once loading is over. */
  function LoadingEffect(s: AppState): AppState {
    if !s.isLoading then s.(loadTimers := s.loadTimers + 1) else s
  }

  /** The legal effect: stop while the overlay is open, otherwise start unless still loading. */
  function LegalEffect(s: AppState): AppState {
    if s.isLegalOpen then Invoke(s, Stop)
    else if !s.isLoading then Invoke(s, Start)
    else s
  }

  /** The view effect: once loaded, jump to the top and schedule the view-settle timer. */
  function ViewEffect(s: AppState): AppState {
    if !s.isLoading then Invoke(s, ScrollTop).(viewTimers := s.viewTimers + 1) else s
  }

  /** The settle timers. They are never cleared, so they can also fire after unmount. */
  function LoadSettle(s: AppState): AppState {
    if s.loadTimers == 0 then s
    else
      var t := s.(loadTimers := s.loadTimers - 1);
      Invoke(Invoke(Invoke(Invoke(t, ScrollTop), Start), Resize), Refresh)
  }

  function ViewSettle(s: AppState): AppState {
    if s.viewTimers == 0 then s
    else Invoke(Invoke(s.(viewTimers := s.viewTimers - 1), Refresh), Resize)
  }

  /** The mount effect's cleanup. */
  function UnmountEffect(s: AppState): AppState {
    Invoke(Invoke(s, TickerRemove), Destroy)
  }

  datatype Event =
    | Mount
    | PreloaderDone      // the preloader's onComplete
    | OpenLegal          // a footer's onOpenLegal
    | CloseLegal         // the overlay's onClose
    | SetView(v: View)
    | LoadTimer
    | ViewTimer
    | Unmount

  /** One event. State setters only re-run the effects that depend on a value that changed,
      in declaration order; nothing but the timers acts on an unmounted page. */
  function Step(s: AppState, e: Event): AppState {
    match e
    case Mount => if s.lenis.NoLenis? then MountEffect(s) else s
    case PreloaderDone =>
      if !s.lenis.Live? || !s.isLoading then s
      else ViewEffect(LegalEffect(LoadingEffect(s.(isLoading := false))))
    case OpenLegal => if !s.lenis.Live? || s.isLegalOpen then s else LegalEffect(s.(isLegalOpen := true))
    case CloseLegal => if !s.lenis.Live? || !s.isLegalOpen then s else LegalEffect(s.(isLegalOpen := false))
    case SetView(v) => if !s.lenis.Live? || s.view == v then s else ViewEffect(s.(view := v))
    case LoadTimer => LoadSettle(s)
    case ViewTimer => ViewSettle(s)
    case Unmount => if s.lenis.Live? then UnmountEffect(s) else s
  }

  function Run(s: AppState, events: seq<Event>): AppState
    decreases |events|
  {
    if events == [] then s else Run(Step(s, events[0]), events[1..])
  }

  // ---------------------------------------------------------------------------------------
  // What every run keeps

  /** While loading, no start was ever issued, no settle timer is pending and nothing scrolls;
      only a live instance scrolls; the ticker callback is added once at mount and removed once
      at unmount, when the instance is destroyed once; nothing is called before mount. */
  predicate Inv(s: AppState) {
    && (s.isLoading ==> Start !in s.log && s.loadTimers == 0 && s.viewTimers == 0 && !s.running)
    && (s.running ==> s.lenis.Live?)
    && multiset(s.log)[TickerAdd] == (if s.lenis.NoLenis? then 0 else 1)
    && multiset(s.log)[TickerRemove] == (if s.lenis.Destroyed? then 1 else 0)
    && multiset(s.log)[Destroy] == (if s.lenis.Destroyed? then 1 else 0)
    && (s.lenis.NoLenis? ==> s.log == [] && s.isLoading && !s.isLegalOpen)
  }

  /** One call appends itself to the log and touches nothing but the instance's state. */
  lemma InvokeFacts(s: AppState, c: Call)
    ensures Invoke(s, c).log == s.log + [c]
    ensures multiset(Invoke(s, c).log) == multiset(s.log) + multiset{c}
    ensures Invoke(s, c).isLoading == s.isLoading && Invoke(s, c).isLegalOpen == s.isLegalOpen
    ensures Invoke(s, c).view == s.view
    ensures Invoke(s, c).loadTimers == s.loadTimers && Invoke(s, c).viewTimers == s.viewTimers
    ensures Invoke(s, c).lenis == if c == Destroy then Destroyed else s.lenis
  {
  }

  lemma InitialInv()
    ensures Inv(INITIAL)
  {
  }

  lemma MountKeepsInv(s: AppState)
    requires Inv(s)
    ensures Inv(Step(s, Mount))
    ensures OverlayFreezes(s) ==> OverlayFreezes(Step(s, Mount))
  {
    if s.lenis.NoLenis? {
      var t := s.(lenis := Live, running := true);
      var t1 := Invoke(t, Stop);
      var t2 := Invoke(t1, SyncScroll);
      var t3 := Invoke(t2, TickerAdd);
      InvokeFacts(t, Stop);
      InvokeFacts(t1, SyncScroll);
      InvokeFacts(t2, TickerAdd);
      InvokeFacts(t3, LagSmoothingOff);
      assert MountEffect(s).log == [Stop, SyncScroll, TickerAdd, LagSmoothingOff];
    }
  }

  lemma PreloaderDoneKeepsInv(s: AppState)
    requires Inv(s)
    ensures Inv(Step(s, PreloaderDone))
    ensures OverlayFreezes(s) ==> OverlayFreezes(Step(s, PreloaderDone))
  {
    if s.lenis.Live? && s.isLoading {
      var a := LoadingEffect(s.(isLoading := false));
      var b := LegalEffect(a);
      InvokeFacts(a, if s.isLegalOpen then Stop else Start);
      InvokeFacts(b, ScrollTop);
    }
  }

  lemma LegalKeepsInv(s: AppState, e: Event)
    requires Inv(s) && (e == OpenLegal || e == CloseLegal)
    ensures Inv(Step(s, e))
    ensures OverlayFreezes(s) ==> OverlayFreezes(Step(s, e))
  {
    var open := e == OpenLegal;
    if s.lenis.Live? && s.isLegalOpen != open {
      var a := s.(isLegalOpen := open);
      if open || !s.isLoading {
        InvokeFacts(a, if open then Stop else Start);
      }
    }
  }

  lemma SetViewKeepsInv(s: AppState, v: View)
    requires Inv(s)
    ensures Inv(Step(s, SetView(v)))
    ensures OverlayFreezes(s) ==> OverlayFreezes(Step(s, SetView(v)))
  {
    if s.lenis.Live? && s.view != v && !s.isLoading {
      InvokeFacts(s.(view := v), ScrollTop);
    }
  }

  lemma LoadTimerKeepsInv(s: AppState)
    requires Inv(s)
    ensures Inv(Step(s, LoadTimer))
  {
    if s.loadTimers > 0 {
      var t := s.(loadTimers := s.loadTimers - 1);
      var t1 := Invoke(t, ScrollTop);
      var t2 := Invoke(t1, Start);
      var t3 := Invoke(t2, Resize);
      InvokeFacts(t, ScrollTop);
      InvokeFacts(t1, Start);
      InvokeFacts(t2, Resize);
      InvokeFacts(t3, Refresh);
    }
  }

  lemma ViewTimerKeepsInv(s: AppState)
    requires Inv(s)
    ensures Inv(Step(s, ViewTimer))
    ensures OverlayFreezes(s) ==> OverlayFreezes(Step(s, ViewTimer))
  {
    if s.viewTimers > 0 {
      var t := s.(viewTimers := s.viewTimers - 1);
      InvokeFacts(t, Refresh);
      InvokeFacts(Invoke(t, Refresh), Resize);
    }
  }

  lemma UnmountKeepsInv(s: AppState)
    requires Inv(s)
    ensures Inv(Step(s, Unmount))
    ensures OverlayFreezes(s) ==> OverlayFreezes(Step(s, Unmount))
  {
    if s.lenis.Live? {
      InvokeFacts(s, TickerRemove);
      InvokeFacts(Invoke(s, TickerRemove), Destroy);
    }
  }

  lemma StepKeepsInv(s: AppState, e: Event)
    requires Inv(s)
    ensures Inv(Step(s, e))
  {
    match e
    case Mount => MountKeepsInv(s);
    case PreloaderDone => PreloaderDoneKeepsInv(s);
    case OpenLegal => LegalKeepsInv(s, e);
    case CloseLegal => LegalKeepsInv(s, e);
    case SetView(v) => SetViewKeepsInv(s, v);
    case LoadTimer => LoadTimerKeepsInv(s);
    case ViewTimer => ViewTimerKeepsInv(s);
    case Unmount => UnmountKeepsInv(s);
  }

  lemma {:induction false} RunKeepsInv(s: AppState, events: seq<Event>)
    requires Inv(s)
    ensures Inv(Run(s, events))
    decreases |events|
  {
    if events != [] {
      StepKeepsInv(s, events[0]);
      RunKeepsInv(Step(s, events[0]), events[1..]);
    }
  }

  /** Nothing scrolls and no start is issued until the preloader completes. */
  lemma LoadingKeepsScrollStopped(events: seq<Event>)
    requires Run(INITIAL, events).isLoading
    ensures Start !in Run(INITIAL, events).log && !Run(INITIAL, events).running
  {
    InitialInv();
    RunKeepsInv(INITIAL, events);
  }

  /** Once unmounted, the ticker callback added at mount has been removed again and the
      instance destroyed, each exactly once. */
  lemma UnmountBalancesTicker(events: seq<Event>)
    requires Run(INITIAL, events).lenis.Destroyed?
    ensures multiset(Run(INITIAL, events).log)[TickerAdd] == 1
    ensures multiset(Run(INITIAL, events).log)[TickerRemove] == 1
    ensures multiset(Run(INITIAL, events).log)[Destroy] == 1
  {
    InitialInv();
    RunKeepsInv(INITIAL, events);
  }

  lemma StepLoading(s: AppState, e: Event)
    ensures !s.isLoading ==> !Step(s, e).isLoading
    ensures e != PreloaderDone ==> Step(s, e).isLoading == s.isLoading
  {
  }

  /** `isLoading` only ever goes from true to false, and only on the preloader's completion. */
  lemma {:induction false} LoadingOnlyEnds(s: AppState, events: seq<Event>)
    ensures !s.isLoading ==> !Run(s, events).isLoading
    ensures (forall k | 0 <= k < |events| :: events[k] != PreloaderDone) ==> Run(s, events).isLoading == s.isLoading
    decreases |events|
  {
    if events != [] {
      StepLoading(s, events[0]);
      LoadingOnlyEnds(Step(s, events[0]), events[1..]);
    }
  }

  // ---------------------------------------------------------------------------------------
  // Single events

  /** The preloader completing starts scrolling at once, through the legal effect, unless the
      overlay is open; it also jumps to the top and schedules both settle timers. */
  lemma PreloaderDoneStartsAtOnce(s: AppState)
    requires s.lenis.Live? && s.isLoading
    ensures var t := Step(s, PreloaderDone);
      && !t.isLoading
      && t.running == !s.isLegalOpen
      && t.log == s.log + [if s.isLegalOpen then Stop else Start, ScrollTop]
      && t.loadTimers == s.loadTimers + 1 && t.viewTimers == s.viewTimers + 1
  {
  }

  /** Opening the overlay stops scrolling. */
  lemma OpenLegalStops(s: AppState)
    requires s.lenis.Live? && !s.isLegalOpen
    ensures Step(s, OpenLegal) == s.(isLegalOpen := true, running := false, log := s.log + [Stop])
  {
  }

  /** Closing it resumes scrolling once loaded, and leaves it stopped while loading. */
  lemma CloseLegalResumes(s: AppState)
    requires s.lenis.Live? && s.isLegalOpen
    ensures !s.isLoading ==> Step(s, CloseLegal) == s.(isLegalOpen := false, running := true, log := s.log + [Start])
    ensures s.isLoading ==> Step(s, CloseLegal) == s.(isLegalOpen := false)
  {
  }

  /** A view change after loading jumps to the top and, 100 ms later, refreshes the triggers
      and then the instance's measurements; during loading it calls nothing. */
  lemma ViewChangeResetsScroll(s: AppState, v: View)
    requires s.lenis.Live? && s.view != v
    ensures !s.isLoading ==> Step(s, SetView(v)).log == s.log + [ScrollTop]
    ensures !s.isLoading ==> Run(s, [SetView(v), ViewTimer]).log == s.log + [ScrollTop, Refresh, Resize]
    ensures s.isLoading ==> Step(s, SetView(v)).log == s.log
  {
    if !s.isLoading {
      var t := Step(s, SetView(v));
      var u := Step(t, ViewTimer);
      assert u.log == s.log + [ScrollTop] + [Refresh] + [Resize];
      var events := [SetView(v), ViewTimer];
      assert events[1..] == [ViewTimer] && events[1..][1..] == [];
      assert Run(s, events) == Run(t, [ViewTimer]) == u;
    }
  }

  /** The load-settle timer jumps to the top, starts, re-measures and refreshes, in that
      order, and leaves the instance scrolling if it is live. */
  lemma LoadSettleOrder(s: AppState)
    requires s.loadTimers > 0
    ensures Step(s, LoadTimer).log == s.log + [ScrollTop, Start, Resize, Refresh]
    ensures Step(s, LoadTimer).running == (s.lenis.Live? || s.running)
    ensures Step(s, LoadTimer).loadTimers == s.loadTimers - 1
  {
    assert s.log + [ScrollTop] + [Start] + [Resize] + [Refresh] == s.log + [ScrollTop, Start, Resize, Refresh];
  }

  // ---------------------------------------------------------------------------------------
  // The load-settle timer and the legal overlay

  /** The overlay is meant to freeze the page behind it: whenever the live instance scrolls,
      the overlay is closed and loading is over. */
  predicate OverlayFreezes(s: AppState) {
    s.running ==> !s.isLegalOpen && !s.isLoading
  }

  /** As written, the load-settle timer starts the instance without looking at the overlay:
      an overlay opened while the preloader runs stays open over a scrolling page once the
      timer fires. */
  lemma SettleTimerScrollsBehindOverlay()
    ensures var s := Run(INITIAL, [Mount, OpenLegal, PreloaderDone, LoadTimer]);
      s.isLegalOpen && s.running && !OverlayFreezes(s)
  {
    var s1 := Step(INITIAL, Mount);
    var s2 := Step(s1, OpenLegal);
    var s3 := Step(s2, PreloaderDone);
    assert s3.isLegalOpen && !s3.running && s3.loadTimers == 1 && s3.lenis.Live?;
    var s4 := Step(s3, LoadTimer);
    assert s4.isLegalOpen && s4.running;
    var events := [Mount, OpenLegal, PreloaderDone, LoadTimer];
    assert events[1..] == [OpenLegal, PreloaderDone, LoadTimer];
    assert events[1..][1..] == [PreloaderDone, LoadTimer];
    assert events[1..][1..][1..] == [LoadTimer];
    assert events[1..][1..][1..][1..] == [];
    assert Run(INITIAL, events) == Run(s1, events[1..]) == Run(s2, events[1..][1..]);
    assert Run(s2, events[1..][1..]) == Run(s3, [LoadTimer]) == s4;
  }

  /** The same without any click under the preloader: the overlay is opened within 100 ms of
      the preloader completing, before the settle timer fires. */
  lemma SettleTimerScrollsAfterQuickOpen()
    ensures var s := Run(INITIAL, [Mount, PreloaderDone, OpenLegal, LoadTimer]);
      s.isLegalOpen && s.running && !OverlayFreezes(s)
  {
    var s1 := Step(INITIAL, Mount);
    var s2 := Step(s1, PreloaderDone);
    var s3 := Step(s2, OpenLegal);
    assert s3.isLegalOpen && !s3.running && s3.loadTimers == 1 && s3.lenis.Live?;
    var s4 := Step(s3, LoadTimer);
    assert s4.isLegalOpen && s4.running;
    var events := [Mount, PreloaderDone, OpenLegal, LoadTimer];
    assert events[1..] == [PreloaderDone, OpenLegal, LoadTimer];
    assert events[1..][1..] == [OpenLegal, LoadTimer];
    assert events[1..][1..][1..] == [LoadTimer];
    assert events[1..][1..][1..][1..] == [];
    assert Run(INITIAL, events) == Run(s1, events[1..]) == Run(s2, events[1..][1..]);
    assert Run(s2, events[1..][1..]) == Run(s3, [LoadTimer]) == s4;
  }

  /** The settle timer as evidently intended: it starts the instance only when the overlay
      is closed. */
  function LoadSettleGuarded(s: AppState): AppState {
    if s.loadTimers == 0 then s
    else
      var t := Invoke(s.(loadTimers := s.loadTimers - 1), ScrollTop);
      var u := if s.isLegalOpen then t else Invoke(t, Start);
      Invoke(Invoke(u, Resize), Refresh)
  }

  function StepGuarded(s: AppState, e: Event): AppState {
    if e == LoadTimer then LoadSettleGuarded(s) else Step(s, e)
  }

  function RunGuarded(s: AppState, events: seq<Event>): AppState
    decreases |events|
  {
    if events == [] then s else RunGuarded(StepGuarded(s, events[0]), events[1..])
  }

  lemma GuardedSettleFreezes(s: AppState)
    requires Inv(s) && OverlayFreezes(s)
    ensures Inv(LoadSettleGuarded(s)) && OverlayFreezes(LoadSettleGuarded(s))
  {
    if s.loadTimers > 0 {
      var t0 := s.(loadTimers := s.loadTimers - 1);
      var t := Invoke(t0, ScrollTop);
      InvokeFacts(t0, ScrollTop);
      if s.isLegalOpen {
        SettleTail(t);
      } else {
        InvokeFacts(t, Start);
        SettleTail(Invoke(t, Start));
      }
    }
  }

  /** The last two calls of the settle timer change nothing the invariants look at. */
  lemma SettleTail(u: AppState)
    ensures var w := Invoke(Invoke(u, Resize), Refresh);
      && w == u.(log := u.log + [Resize, Refresh])
      && multiset(w.log) == multiset(u.log) + multiset{Resize, Refresh}
  {
    assert u.log + [Resize] + [Refresh] == u.log + [Resize, Refresh];
  }

  lemma StepGuardedFreezes(s: AppState, e: Event)
    requires Inv(s) && OverlayFreezes(s)
    ensures Inv(StepGuarded(s, e)) && OverlayFreezes(StepGuarded(s, e))
  {
    match e
    case LoadTimer => GuardedSettleFreezes(s);
    case Mount => MountKeepsInv(s);
    case PreloaderDone => PreloaderDoneKeepsInv(s);
    case OpenLegal => LegalKeepsInv(s, e);
    case CloseLegal => LegalKeepsInv(s, e);
    case SetView(v) => SetViewKeepsInv(s, v);
    case ViewTimer => ViewTimerKeepsInv(s);
    case Unmount => UnmountKeepsInv(s);
  }

  /** With the guarded timer, the page behind the overlay never scrolls, on any run. */
  lemma {:induction false} GuardedOverlayAlwaysFreezes(s: AppState, events: seq<Event>)
    requires Inv(s) && OverlayFreezes(s)
    ensures OverlayFreezes(RunGuarded(s, events))
    decreases |events|
  {
    if events != [] {
      StepGuardedFreezes(s, events[0]);
      GuardedOverlayAlwaysFreezes(StepGuarded(s, events[0]), events[1..]);
    }
  }

  lemma GuardedFromStart(events: seq<Event>)
    ensures OverlayFreezes(RunGuarded(INITIAL, events))
  {
    InitialInv();
    GuardedOverlayAlwaysFreezes(INITIAL, events);
  }

  // ---------------------------------------------------------------------------------------
  // The component

  class App {
    var isLoading: bool
    var isLegalOpen: bool
    var currentView: View
    var lenis: LenisRef
    var running: bool
    var loadTimers: nat
    var viewTimers: nat
    var log: seq<Call>

    function Model(): AppState
      reads this
    {
      AppState(isLoading, isLegalOpen, currentView, lenis, running, loadTimers, viewTimers, log)
    }

    constructor ()
      ensures Model() == INITIAL
    {
      isLoading, isLegalOpen, currentView := true, false, Home;
      lenis, running := NoLenis, false;
      loadTimers, viewTimers, log := 0, 0, [];
    }

    /** One call through the ref, or into ScrollTrigger or the window. */
    method Call(c: Call)
      modifies this`log, this`running, this`lenis
      ensures Model() == Invoke(old(Model()), c)
    {
      log := log + [c];
      if c == Stop && lenis == Live {
        running := false;
      } else if c == Start && lenis == Live {
        running := true;
      } else if c == Destroy {
        lenis := Destroyed;
        running := false;
      }
    }

    /** The legal effect, run after a change of `isLegalOpen` or `isLoading`. */
    method RunLegalEffect()
      modifies this`log, this`running, this`lenis
      ensures Model() == LegalEffect(old(Model()))
    {
      if isLegalOpen {
        Call(Stop);
      } else if !isLoading {
        Call(Start);
      }
    }

    /** The view effect, run after a change of `currentView` or `isLoading`. */
    method RunViewEffect()
      modifies this`log, this`running, this`lenis, this`viewTimers
      ensures Model() == ViewEffect(old(Model()))
    {
      if !isLoading {
        Call(ScrollTop);
        viewTimers := viewTimers + 1;
      }
    }

    method Mount()
      modifies this
      ensures Model() == Step(old(Model()), Event.Mount)
    {
      if lenis == NoLenis {
        lenis, running := Live, true;
        Call(Stop);
        Call(SyncScroll);
        Call(TickerAdd);
        Call(LagSmoothingOff);
      }
    }

    /** The preloader's `onComplete`: the effects that read `isLoading` run in order. */
    method CompletePreloader()
      modifies this
      ensures Model() == Step(old(Model()), PreloaderDone)
    {
      if lenis == Live && isLoading {
        isLoading := false;
        loadTimers := loadTimers + 1;
        RunLegalEffect();
        RunViewEffect();
      }
    }

    method SetLegalOpen(open: bool)
      modifies this
      ensures Model() == Step(old(Model()), if open then OpenLegal else CloseLegal)
    {
      if lenis == Live && isLegalOpen != open {
        isLegalOpen := open;
        RunLegalEffect();
      }
    }

    /** The navigation's `onViewChange`. */
    method SetCurrentView(v: View)
      modifies this
      ensures Model() == Step(old(Model()), SetView(v))
    {
      if lenis == Live && currentView != v {
        currentView := v;
        RunViewEffect();
      }
    }

    /** The 100 ms load-settle timer as written: it starts the instance unconditionally. */
    method FireLoadTimer()
      modifies this
      ensures Model() == Step(old(Model()), LoadTimer)
    {
      if loadTimers > 0 {
        loadTimers := loadTimers - 1;
        Call(ScrollTop);
        Call(Start);
        Call(Resize);
        Call(Refresh);
      }
    }

    /** The settle timer as evidently intended, with the overlay check the legal effect makes. */
    method FireLoadTimerGuarded()
      modifies this
      ensures Model() == StepGuarded(old(Model()), LoadTimer)
    {
      if loadTimers > 0 {
        loadTimers := loadTimers - 1;
        Call(ScrollTop);
        if !isLegalOpen {
          Call(Start);
        }
        Call(Resize);
        Call(Refresh);
      }
    }

    method FireViewTimer()
      modifies this
      ensures Model() == Step(old(Model()), ViewTimer)
    {
      if viewTimers > 0 {
        viewTimers := viewTimers - 1;
        Call(Refresh);
        Call(Resize);
      }
    }

    method Unmount()
      modifies this
      ensures Model() == Step(old(Model()), Event.Unmount)
    {
      if lenis == Live {
        Call(TickerRemove);
        Call(Destroy);
      }
    }
  }
}
