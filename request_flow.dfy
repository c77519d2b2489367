/** The "request audit" flow shared by the page footer, the about overlay and the FAQ overlay:
    a handle field, a request button that either opens the verification modal or flashes an
    error placeholder for 1500 ms, and the `requested` lock-out once the modal reports success. */
module RequestFlow {
  import opened Text
  import opened Content
  import VerificationModal

  /** The state cells of one host component. `verifying` is whether its verification modal is
      open; `pendingReverts` counts the 1500 ms placeholder timers not yet fired. */
  datatype Flow = Flow(
    handle: string,
    requested: bool,
    placeholder: string,
    inputError: bool,
    verifying: bool,
    pendingReverts: nat)

  const INITIAL: Flow := Flow("", false, HANDLE_PLACEHOLDER, false, false, 0)

  /** `handleRequestClick`: a handle that is not blank after trimming opens the modal; a blank
      one shows the error placeholder and starts a revert timer. `handle.trim() !== ""` is
      written as "some character is not whitespace", which `TrimEmptyIffAllSpace` shows to be
      the same test. */
  function RequestClick(f: Flow): Flow {
    if !AllSpace(f.handle) then f.(verifying := true)
    else f.(placeholder := HANDLE_ERROR, inputError := true, pendingReverts := f.pendingReverts + 1)
  }

  /** One revert timer fires: the default placeholder comes back and the error flag clears. */
  function InputRevert(f: Flow): Flow {
    if f.pendingReverts == 0 then f
    else f.(placeholder := HANDLE_PLACEHOLDER, inputError := false, pendingReverts := f.pendingReverts - 1)
  }

  /** `handleVerificationSuccess`. */
  function VerificationSuccess(f: Flow): Flow {
    f.(requested := true, verifying := false)
  }

  /** The `onClose` the host hands to the modal. */
  function CloseVerification(f: Flow): Flow {
    f.(verifying := false)
  }

  /** The close branch of the overlays' `isOpen` effect: handle and lock-out are reset; the
      placeholder, the error flag and the modal flag are left as they are. */
  function ResetOnClose(f: Flow): Flow {
    f.(handle := "", requested := false)
  }

  /** What the host does when the modal calls one of its callbacks. */
  function OnCallback(f: Flow, cb: VerificationModal.Callback): Flow {
    match cb
    case OnSuccess => VerificationSuccess(f)
    case OnClose => CloseVerification(f)
  }

  function ApplyCallbacks(f: Flow, cbs: seq<VerificationModal.Callback>): Flow
    decreases |cbs|
  {
    if cbs == [] then f else ApplyCallbacks(OnCallback(f, cbs[0]), cbs[1..])
  }

  /** What the user or the page can do to a host. The input and the button carry
      `disabled={requested}`, so typing and clicking do nothing once requested. */
  datatype Event =
    | Type(text: string)
    | Click
    | RevertTimer
    | Modal(cb: VerificationModal.Callback)
    | ParentClosed

  function Step(f: Flow, e: Event): Flow {
    match e
    case Type(text) => if f.requested then f else f.(handle := text)
    case Click => if f.requested then f else RequestClick(f)
    case RevertTimer => InputRevert(f)
    case Modal(cb) => OnCallback(f, cb)
    case ParentClosed => ResetOnClose(f)
  }

  function Run(f: Flow, events: seq<Event>): Flow
    decreases |events|
  {
    if events == [] then f else Run(Step(f, events[0]), events[1..])
  }

  /** The request button's text. */
  function ButtonLabel(f: Flow): string {
    if f.requested then REQUEST_BUTTON_ACTIVE else REQUEST_BUTTON_DEFAULT
  }

  /** The placeholder shows the error text exactly while the error flag is up, and the flag is
      only up while a revert timer is still pending. */
  predicate Consistent(f: Flow) {
    && f.placeholder == (if f.inputError then HANDLE_ERROR else HANDLE_PLACEHOLDER)
    && (f.inputError ==> f.pendingReverts > 0)
  }

  /** A click on an unlocked host opens the modal exactly when the handle has a character that
      is not whitespace; otherwise it changes only the placeholder, the error flag and the timers. */
  lemma ClickOpensIffHandleNotBlank(f: Flow)
    requires !f.requested && !f.verifying
    ensures Step(f, Click).verifying <==> Trim(f.handle) != []
    ensures Trim(f.handle) == [] ==> Step(f, Click) == f.(placeholder := HANDLE_ERROR, inputError := true, pendingReverts := f.pendingReverts + 1)
    ensures Trim(f.handle) != [] ==> Step(f, Click) == f.(verifying := true)
  {
    TrimEmptyIffAllSpace(f.handle);
    assert Step(f, Click) == RequestClick(f);
  }

  /** A blank click followed by its timer leaves the host exactly as it was. */
  lemma BlankClickIsUndone(f: Flow)
    requires Consistent(f) && f.pendingReverts == 0 && !f.requested
    requires Trim(f.handle) == []
    ensures Run(f, [Click, RevertTimer]) == f
  {
    TrimEmptyIffAllSpace(f.handle);
    assert [Click, RevertTimer][1..] == [RevertTimer];
  }

  lemma InitialConsistent()
    ensures Consistent(INITIAL)
  {
  }

  lemma StepKeepsConsistent(f: Flow, e: Event)
    requires Consistent(f)
    ensures Consistent(Step(f, e))
  {
  }

  /** Every run keeps the placeholder and the error flag in step. */
  lemma {:induction false} RunKeepsConsistent(f: Flow, events: seq<Event>)
    requires Consistent(f)
    ensures Consistent(Run(f, events))
    decreases |events|
  {
    if events != [] {
      StepKeepsConsistent(f, events[0]);
      RunKeepsConsistent(Step(f, events[0]), events[1..]);
    }
  }

  function Reverts(n: nat): (events: seq<Event>)
    ensures |events| == n
    ensures forall k | 0 <= k < n :: events[k] == RevertTimer
  {
    seq(n, _ => RevertTimer)
  }

  /** Once every pending timer has fired, the error placeholder is gone and nothing else moved. */
  lemma {:induction false} ErrorAlwaysReverts(f: Flow)
    requires Consistent(f)
    ensures Run(f, Reverts(f.pendingReverts)) == f.(placeholder := HANDLE_PLACEHOLDER, inputError := false, pendingReverts := 0)
    decreases f.pendingReverts
  {
    if f.pendingReverts > 0 {
      var g := InputRevert(f);
      assert Reverts(f.pendingReverts)[1..] == Reverts(g.pendingReverts);
      ErrorAlwaysReverts(g);
    }
  }

  /** The modal's success timer calls `onSuccess` then `onClose`: the host ends requested with
      its modal closed, and nothing else changes. */
  lemma SuccessThenClose(f: Flow)
    ensures ApplyCallbacks(f, [VerificationModal.OnSuccess, VerificationModal.OnClose]) == f.(requested := true, verifying := false)
  {
    var cbs := [VerificationModal.OnSuccess, VerificationModal.OnClose];
    assert cbs[1..][1..] == [];
  }

  /** Until the parent closes, a requested host stays requested: its handle cannot be edited and
      its modal cannot be reopened. */
  lemma {:induction false} RequestedLocksOut(f: Flow, events: seq<Event>)
    requires f.requested && !f.verifying
    requires forall k | 0 <= k < |events| :: events[k] != ParentClosed
    ensures Run(f, events).requested
    ensures Run(f, events).handle == f.handle
    ensures !Run(f, events).verifying
    decreases |events|
  {
    if events != [] {
      assert events[0] != ParentClosed;
      RequestedLocksOut(Step(f, events[0]), events[1..]);
    }
  }

  /** A verified host shows the active label on every run until its parent closes it. */
  lemma LabelActiveUntilClosed(f: Flow, events: seq<Event>)
    requires f.requested && !f.verifying
    requires forall k | 0 <= k < |events| :: events[k] != ParentClosed
    ensures ButtonLabel(Run(f, events)) == REQUEST_BUTTON_ACTIVE
  {
    RequestedLocksOut(f, events);
  }

  /** The modal's success timer switches the label to the active text, whatever it showed;
      the close button alone keeps the label and only closes the modal. */
  lemma LabelFollowsCallbacks(f: Flow)
    ensures ButtonLabel(ApplyCallbacks(f, [VerificationModal.OnSuccess, VerificationModal.OnClose])) == REQUEST_BUTTON_ACTIVE
    ensures ApplyCallbacks(f, [VerificationModal.OnClose]) == f.(verifying := false)
    ensures ButtonLabel(ApplyCallbacks(f, [VerificationModal.OnClose])) == ButtonLabel(f)
  {
    SuccessThenClose(f);
    assert [VerificationModal.OnClose][1..] == [];
  }

  /** Closing an overlay brings back the default label. */
  lemma LabelResetOnClose(f: Flow)
    ensures ButtonLabel(Step(f, ParentClosed)) == REQUEST_BUTTON_DEFAULT
  {
  }

  /** Closing an overlay reopens its form: the lock is off and a click asks for a handle. */
  lemma CloseUnlocks(f: Flow)
    requires !f.verifying
    ensures !Step(f, ParentClosed).requested && Step(f, ParentClosed).handle == ""
    ensures Step(Step(f, ParentClosed), Click).inputError
    ensures !Step(Step(f, ParentClosed), Click).verifying
  {
  }
}
