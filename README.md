# Studio landing page: lead capture, request flow and scroll gating

This project models the decision-making part of a single-page studio site written in React with
GSAP/ScrollTrigger and the Lenis smooth-scroll library, and proves properties of that model in
Dafny. The site's logic lives in event handlers and effects; the animation and scroll engines it
drives are foreign code. The model covers:

- **Lead capture.** The contact-details check in `handleFinalSubmit` is used by both the
  footer section's inline form and the reusable verification modal. It has an e-mail pattern, a
  phone pattern applied after whitespace is stripped, a required country code and a required
  consent box. The form data it posts, the country search filter and the country picker are
  also modelled (modules `LeadForm`, `Countries`, `VerificationModal`, `SectionFooter`).
- **The request flow.** A handle field plus a request button appear in the footer, the about
  overlay, the FAQ overlay and the footer section.
  - A non-blank handle opens the verification modal.
  - A blank one shows an error placeholder that reverts after 1500 ms.
  - A verified request locks the form.
  - The two overlays unlock it again when they close.

  The flow is one pure state machine (`RequestFlow`) that the four component classes
  (`Footer`, `AboutModal`, `FAQModal`, `SectionFooter`) are proved to follow.
- **Scroll gating** in the page shell (`App`). Lenis is stopped while the preloader runs and
  while the legal overlay is open. The scroll position is reset on a view change. Settle timers
  call `resize`/`refresh`. The GSAP ticker callback is added at mount and removed at unmount.
  Every call into Lenis, ScrollTrigger or the window is recorded in a log, so each property is a
  statement about which calls were made, in which order.
- **The pinned gallery** (`Gallery`). It covers the travel distance, the tween's target and its
  pinned stretch, the linear (`ease: "none"`) position, the cancellable deferred refresh and the
  archive modal flag.
- **Navigation** (`Navigation`): the at-bottom test, the logo and studio links, the apply link
  and the bottom-left control.

Timers are modelled as counts of pending callbacks plus an explicit "timer fires" operation. The
outcome of the network send is a boolean parameter (`sendSucceeds`). DOM measurements
(`scrollWidth`, `innerWidth`, `scrollY`, `innerHeight`, the document height) are parameters
of the operations that read them. Shared text constants from `data/content.tsx` are in
module `Content`. The JavaScript string primitives the handlers use are in module `Text`:
- `trim` and the `\s` whitespace class;
- ASCII `toLowerCase` and `includes`;
- `replace(/\s/g, '')`.

Some behaviour of the code that the model keeps as it is:

- When the preloader completes, the legal-overlay effect (whose dependencies include
  `isLoading`) calls `lenis.start()` at once. The 100 ms settle timer does not delay scrolling;
  it only calls `start` a second time (`App.PreloaderDoneStartsAtOnce`).
- The overlays' close effect resets only `handle` and `requested`. The placeholder, the error
  flag and the verification flag are left as they are (`RequestFlow.ResetOnClose`).
- The page shell's 100 ms timers are never cleared, so they can still fire after unmount.

## Model

| member | source | states |
|---|---|---|
| Text.StripSpaces | components/Sections/Footer.tsx:112 | removing whitespace leaves a string with no whitespace and no longer than the input |
| Text.StripSpacesConcat | components/Sections/Footer.tsx:112 | removing whitespace from a concatenation removes it from each part and keeps their order |
| Text.StripSpacesFrom | components/Sections/Footer.tsx:112 | every character that survives whitespace removal is a character of the input |
| Text.TrimStart | components/Footer.tsx:22 | the result is a suffix of the input, what was cut is all whitespace, and the result does not start with whitespace |
| Text.TrimEnd | components/Footer.tsx:22 | the result is a prefix of the input, what was cut is all whitespace, and the result does not end with whitespace |
| Text.TrimEmptyIffAllSpace | components/Footer.tsx:22 | `handle.trim()` is empty exactly when every character of the handle is whitespace |
| Text.Lower | components/Sections/Footer.tsx:36 | lower-casing keeps the length, leaves no ASCII capital in the result and leaves every non-letter where it was |
| Text.LowerIdempotent | components/Sections/Footer.tsx:36 | lower-casing an already lower-cased query changes nothing |
| Text.LowerKeepsLetters | components/Sections/Footer.tsx:36 | a character of the result is a letter exactly when the input character was one |
| Text.LowerOfNoLetters | components/Sections/Footer.tsx:37 | a string without ASCII letters, such as a dialling code, is its own lower-case form |
| Text.CountOfConcat | components/Sections/Footer.tsx:100 | occurrences of a character in a concatenation add up |
| Text.IndexOf | components/Sections/Footer.tsx:100 | the first index of a character: it holds that character, no earlier position does, and it is the length exactly when the character is absent |
| LeadForm.EmailOkIffPattern | components/Sections/Footer.tsx:100-104 | the explicit e-mail check accepts exactly the strings of `^[^\s@]+@[^\s@]+\.[^\s@]+$` (both directions) |
| LeadForm.PatternIsEmailOk | components/VerificationModal.tsx:82-86 | every `local@host.rest` built from non-empty runs of `[^\s@]` passes the explicit check |
| LeadForm.EmailOkMatches | components/VerificationModal.tsx:82-86 | every string that passes the explicit check splits as the pattern demands |
| LeadForm.PhoneOkIffDigitsAndSpaces | components/Sections/Footer.tsx:107-115 | a number passes exactly when each character is whitespace or an ASCII digit and there are 6 to 14 digits |
| LeadForm.PhoneOkIgnoresSpaces | components/Sections/Footer.tsx:112 | inserting whitespace anywhere in a number never changes whether it passes |
| LeadForm.Validate | components/Sections/Footer.tsx:96-123 | the error map has an e-mail entry exactly when the pattern fails, "SELECT CODE" exactly when the code is empty, "INVALID NUMBER" exactly when a code is present and the number fails, and an authorisation entry exactly when the box is unticked |
| LeadForm.CheckSubmission | components/VerificationModal.tsx:78-102 | building the map field by field from empty gives exactly the map of `Validate`, and `isValid` holds exactly when the map is empty, so both forms agree |
| LeadForm.ValidIffAllFour | components/Sections/Footer.tsx:96-125 | a submission passes exactly when the e-mail matches, a code is present, the number passes and the box is ticked |
| LeadForm.MissingCodeHidesNumber | components/VerificationModal.tsx:89-95 | with no code the phone entry is "SELECT CODE" whatever the number, so "INVALID NUMBER" needs a code |
| LeadForm.ErrorsAreFieldwise | components/Sections/Footer.tsx:96-123 | each entry depends only on its own field, and a field that passes carries no error whatever the other fields are |
| LeadForm.ValidExample | components/Sections/Footer.tsx:100-121 | "a@b.co", "+91", "98765 43210" and a ticked box give no error |
| LeadForm.InvalidExamples | components/Sections/Footer.tsx:100-121 | "a@b", a five-digit number and an unticked box give all three errors |
| LeadForm.SampleNumberDigits | components/Sections/Footer.tsx:112 | stripping "98765 43210" gives "9876543210" |
| LeadForm.PayloadRoundTrip | components/Sections/Footer.tsx:135-138 | the form data holds exactly handle, e-mail and mobile under three distinct keys, in that order; each key gives its field back; the mobile entry splits back into the code and the number |
| LeadForm.MobileKeepsSpaces | components/VerificationModal.tsx:112-115 | the mobile entry carries the number as typed, whitespace included, although the check ignored that whitespace |
| LeadForm.EmailOk | components/Sections/Footer.tsx:100-104 | the e-mail test written out: no whitespace, exactly one `@` with text before it, and a domain with a dot inside it; shown equal to the pattern by `EmailOkIffPattern` |
| LeadForm.PhoneOk | components/VerificationModal.tsx:88-95 | the number with every whitespace character removed is 6 to 14 ASCII digits; read on the number as typed by `PhoneOkIffDigitsAndSpaces` |
| LeadForm.BuildPayload | components/VerificationModal.tsx:112-115 | the three form-data entries, handle, e-mail and code-space-number, in append order; `PayloadRoundTrip` reads them back |
| Countries.Filter | components/Sections/Footer.tsx:34-39 | the result keeps exactly the countries that match (lower-cased name contains lower-cased query, or code contains query) and is no longer than the list |
| Countries.Matches | components/Sections/Footer.tsx:36-37 | the search test: lower-cased name contains the lower-cased query, or the code contains the query as typed; `MatchesIgnoresCase` relates queries that differ in case |
| Countries.FilterIsSubsequence | components/VerificationModal.tsx:28-33 | the result is a subsequence of the list: order is preserved |
| Countries.FilterConcat | components/Sections/Footer.tsx:34-39 | filtering two parts of a list filters each part, in order |
| Countries.FilterKeepsAllMatching | components/Sections/Footer.tsx:34-39 | a list whose every entry matches is returned unchanged |
| Countries.EmptyQueryKeepsAll | components/Sections/Footer.tsx:34-39 | an empty search lists every country in order |
| Countries.MatchesIgnoresCase | components/Sections/Footer.tsx:36-37 | for a code without letters, two queries that agree after lower-casing match the same country |
| Countries.FilterIgnoresCase | components/VerificationModal.tsx:29-32 | when no code has a letter, the letter case of the query never changes the list |
| Countries.CodesAreNotUnique | data/content.tsx:3-55 | "+1" belongs to two countries with different iso values, and India's code is the default "+91" |
| VerificationModal.VerificationModal.constructor | components/VerificationModal.tsx:13-21 | the form starts empty with "+91" selected, no errors, the dropdown closed and no timers pending |
| VerificationModal.VerificationModal.SetProps | components/VerificationModal.tsx:45-70 | opening or closing changes only the props: typed fields, code, tick box and errors survive |
| VerificationModal.VerificationModal.EditEmail | components/VerificationModal.tsx:170 | the e-mail field holds what was typed |
| VerificationModal.VerificationModal.EditPhone | components/VerificationModal.tsx:235 | the phone field holds what was typed |
| VerificationModal.VerificationModal.ToggleDropdown | components/VerificationModal.tsx:188 | the dropdown flips |
| VerificationModal.VerificationModal.ClickOutsideDropdown | components/VerificationModal.tsx:35-43 | a click outside closes the dropdown |
| VerificationModal.VerificationModal.EditSearch | components/VerificationModal.tsx:205 | the query holds what was typed |
| VerificationModal.VerificationModal.ToggleAuthorized | components/VerificationModal.tsx:249 | the consent box flips |
| VerificationModal.VerificationModal.SelectCountry | components/VerificationModal.tsx:72-76 | the code is set, the dropdown closes, the query clears, and nothing else changes |
| VerificationModal.VerificationModal.HandleFinalSubmit | components/VerificationModal.tsx:78-138 | the error map is replaced by `Validate`'s; the form data is posted exactly when it is empty; the button shows the success or retry text; one success timer or one retry timer is started |
| VerificationModal.VerificationModal.FireSuccessTimer | components/VerificationModal.tsx:125-128 | a pending success timer calls `onSuccess` and then `onClose`; with none pending nothing is called |
| VerificationModal.VerificationModal.FireRetryReset | components/VerificationModal.tsx:133-135 | a pending retry timer restores the submit text |
| RequestFlow.ClickOpensIffHandleNotBlank | components/Footer.tsx:21-31 | an unlocked click opens the modal exactly when `handle.trim()` is non-empty; otherwise it only raises the error placeholder and starts one revert timer |
| RequestFlow.BlankClickIsUndone | components/AboutModal.tsx:57-63 | a blank click followed by its 1500 ms timer leaves the form exactly as before |
| RequestFlow.RunKeepsConsistent | components/FAQModal.tsx:54-70 | on every run the placeholder shows the error text exactly while the error flag is up, and the flag is up only while a revert is pending |
| RequestFlow.ErrorAlwaysReverts | components/Footer.tsx:24-31 | once every pending revert fires, the default placeholder is back, the flag is down, and nothing else changed |
| RequestFlow.SuccessThenClose | components/VerificationModal.tsx:125-128 | `onSuccess` then `onClose` leave the host requested with its modal closed and nothing else changed |
| RequestFlow.RequestedLocksOut | components/Footer.tsx:53-64 | with the input and button disabled, a requested host stays requested, keeps its handle and never reopens the modal until its parent closes it |
| RequestFlow.CloseUnlocks | components/AboutModal.tsx:40-43 | closing the overlay clears the handle and the lock, so the next click asks for a handle again |
| RequestFlow.RequestClick | components/Footer.tsx:21-31 | the request click of all four hosts; characterised by `ClickOpensIffHandleNotBlank` |
| RequestFlow.InputRevert | components/Footer.tsx:27-30 | one 1500 ms revert; `ErrorAlwaysReverts` shows the pending reverts restore the default placeholder |
| RequestFlow.ResetOnClose | components/AboutModal.tsx:40-43 | the overlays' close reset of handle and lock; `CloseUnlocks` shows a later click asks for a handle again |
| RequestFlow.Step | components/Footer.tsx:21-64 | one event on a host: typing and clicking are ignored while requested, as the disabled input and button are; `RunKeepsConsistent` and `RequestedLocksOut` hold over every run of it |
| RequestFlow.LabelActiveUntilClosed | components/Footer.tsx:64-77 | a verified host shows "REQUESTED" after every run of events until its parent closes it |
| RequestFlow.LabelFollowsCallbacks | components/VerificationModal.tsx:125-150 | the success timer's `onSuccess`, `onClose` switches the label to "REQUESTED" from any state; the close button's lone `onClose` only hides the modal and keeps the label |
| RequestFlow.LabelResetOnClose | components/AboutModal.tsx:40-43 | closing an overlay brings back "REQUEST AUDIT" |
| RequestFlow.ButtonLabel | components/Footer.tsx:77 | the request button's text; `LabelActiveUntilClosed`, `LabelFollowsCallbacks` and `LabelResetOnClose` say when it reads which |
| Footer.Footer.constructor | components/Footer.tsx:11-19 | the form starts unlocked, empty, with the default placeholder and the modal closed |
| Footer.Footer.EditHandle | components/Footer.tsx:53 | typing changes only the handle |
| Footer.Footer.HandleRequestClick | components/Footer.tsx:21-31 | the new state is the flow's request click |
| Footer.Footer.FireInputRevert | components/Footer.tsx:27-30 | the new state is the flow's revert |
| Footer.Footer.HandleVerificationSuccess | components/Footer.tsx:34-37 | the new state is requested with the modal closed |
| Footer.Footer.CloseModal | components/Footer.tsx:130 | closing the modal clears only the modal flag |
| AboutModal.AboutModal.constructor | components/AboutModal.tsx:17-21 | the form starts in the flow's initial state |
| AboutModal.AboutModal.SetIsOpen | components/AboutModal.tsx:23-52 | an open-to-closed change resets the handle and the lock; any other change leaves the form alone |
| AboutModal.AboutModal.EditHandle | components/AboutModal.tsx:141 | typing changes only the handle |
| AboutModal.AboutModal.HandleRequestClick | components/AboutModal.tsx:54-65 | the new state is the flow's request click |
| AboutModal.AboutModal.FireInputRevert | components/AboutModal.tsx:60-63 | the new state is the flow's revert |
| AboutModal.AboutModal.HandleVerificationSuccess | components/AboutModal.tsx:67-72 | the new state is requested with verification hidden |
| AboutModal.AboutModal.CloseVerification | components/AboutModal.tsx:183 | the modal's `onClose` hides verification only |
| FAQModal.FAQModal.constructor | components/FAQModal.tsx:17-21 | the form starts in the flow's initial state |
| FAQModal.FAQModal.SetIsOpen | components/FAQModal.tsx:23-52 | an open-to-closed change resets the handle and the lock; any other change leaves the form alone |
| FAQModal.FAQModal.EditHandle | components/FAQModal.tsx:138 | typing changes only the handle |
| FAQModal.FAQModal.HandleRequestClick | components/FAQModal.tsx:54-65 | the new state is the flow's request click |
| FAQModal.FAQModal.FireInputRevert | components/FAQModal.tsx:60-63 | the new state is the flow's revert |
| FAQModal.FAQModal.HandleVerificationSuccess | components/FAQModal.tsx:67-70 | the new state is requested with verification hidden |
| FAQModal.FAQModal.CloseVerification | components/FAQModal.tsx:180 | the modal's `onClose` hides verification only |
| SectionFooter.SectionFooter.constructor | components/Sections/Footer.tsx:10-27 | both the request flow and the inline form start empty, with "+91" selected and no timers |
| SectionFooter.SectionFooter.EditHandle | components/Sections/Footer.tsx:189 | typing changes only the handle |
| SectionFooter.SectionFooter.HandleRequestClick | components/Sections/Footer.tsx:78-93 | the flow takes its request click; a non-blank handle also clears the errors, the query and the dropdown, and a blank one leaves them alone |
| SectionFooter.SectionFooter.FireInputRevert | components/Sections/Footer.tsx:88-91 | the new state is the flow's revert |
| SectionFooter.SectionFooter.EditEmail | components/Sections/Footer.tsx:293 | the e-mail field holds what was typed |
| SectionFooter.SectionFooter.EditPhone | components/Sections/Footer.tsx:358 | the phone field holds what was typed |
| SectionFooter.SectionFooter.ToggleAuthorized | components/Sections/Footer.tsx:372 | the consent box flips |
| SectionFooter.SectionFooter.ToggleDropdown | components/Sections/Footer.tsx:311 | the dropdown flips |
| SectionFooter.SectionFooter.ClickOutsideDropdown | components/Sections/Footer.tsx:42-50 | a click outside closes the dropdown |
| SectionFooter.SectionFooter.EditSearch | components/Sections/Footer.tsx:328 | the query holds what was typed |
| SectionFooter.SectionFooter.SelectCountry | components/Sections/Footer.tsx:169-173 | the code is set, the dropdown closes, the query clears, and nothing else changes |
| SectionFooter.SectionFooter.HandleFinalSubmit | components/Sections/Footer.tsx:95-163 | the same contract as the modal's: errors replaced by `Validate`'s, data posted exactly when there are none, button text, one timer started |
| SectionFooter.SectionFooter.FireSuccessTimer | components/Sections/Footer.tsx:150-153 | a pending success timer closes the modal and locks the form, as the flow's verification success |
| SectionFooter.SectionFooter.FireRetryReset | components/Sections/Footer.tsx:158-160 | a pending retry timer restores the submit text |
| SectionFooter.SectionFooter.CloseModal | components/Sections/Footer.tsx:165-167 | closing clears only the modal flag; the typed form survives |
| Navigation.AtBottomIsUpwardClosed | components/Navigation.tsx:23-33 | scrolling further down never leaves the 50 px bottom zone |
| Navigation.ShortPageIsAtBottom | components/Navigation.tsx:28 | a page less than 50 px taller than the viewport is at the bottom without scrolling |
| Navigation.LogoGoesHome | components/Navigation.tsx:45-48 | after a logo click the page is on home from either view, and the click ends with a scroll to the top |
| Navigation.LogoClick | components/Navigation.tsx:45-48 | the logo's actions; characterised by `LogoGoesHome` |
| Navigation.StudioToggles | components/Navigation.tsx:56-64 | the studio link switches to the other view, ends with a scroll to the top, and two clicks restore the view |
| Navigation.ApplyKeepsView | components/Navigation.tsx:17-20 | the apply link never changes the view and never scrolls to the top; it scrolls to the footer exactly when the footer exists |
| Navigation.ApplyClick | components/Navigation.tsx:17-20 | the apply link's action; characterised by `ApplyKeepsView` |
| Navigation.AtBottom | components/Navigation.tsx:23-33 | the bottom test `docHeight - (scrollY + innerHeight) < 50`; `AtBottomIsUpwardClosed` shows it is kept by scrolling down |
| Navigation.StudioClick | components/Navigation.tsx:56-64 | the studio link's actions; characterised by `StudioToggles` |
| Navigation.BottomLeftClick | components/Navigation.tsx:80-83 | the bottom-left control's action; `BottomLeftAgrees` ties it to the label |
| Navigation.BottomLeftLabel | components/Navigation.tsx:80-83 | the bottom-left control's text; `BottomLeftAgrees` ties it to the action |
| Navigation.Navigation.BottomLeft | components/Navigation.tsx:80-83 | the action of the bottom-left control for the stored `isAtBottom`; `BottomLeftAgrees` ties it to the label |
| Navigation.BottomLeftAgrees | components/Navigation.tsx:80-83 | the bottom-left control reads "back to top" exactly when clicking it scrolls to the top, and otherwise does nothing |
| Navigation.Navigation.constructor | components/Navigation.tsx:35-36 | the listener is attached and the position is checked once at mount |
| Navigation.Navigation.HandleScroll | components/Navigation.tsx:23-33 | `isAtBottom` is set exactly to `docHeight - (scrollY + innerHeight) < 50` |
| Navigation.Navigation.Unmount | components/Navigation.tsx:38 | the listener is removed |
| Gallery.TravelDistance | components/Sections/Gallery.tsx:107-110 | the travel is never negative, never less than `scrollWidth - innerWidth`, and is one of those two values |
| Gallery.TargetXLandsRightEdge | components/Sections/Gallery.tsx:114 | the target never slides right, is 0 exactly when the strip fits, otherwise puts the strip's right end on the viewport's right edge, and lies within the strip's width |
| Gallery.TravelExamples | components/Sections/Gallery.tsx:107-110 | 2000 px in an 800 px window travels 1200 px; 600 px does not move |
| Gallery.PinCoversTravel | components/Sections/Gallery.tsx:107-121 | with any viewport width the pinned stretch is at least the travel, so the strip finishes its slide while still pinned |
| Gallery.PinDistance | components/Sections/Gallery.tsx:121 | the pinned stretch, `"+=" + scrollWidth`; `PinCoversTravel` shows it covers the travel |
| Gallery.TargetX | components/Sections/Gallery.tsx:114 | the tween's end value; characterised by `TargetXLandsRightEdge` |
| Gallery.XAt | components/Sections/Gallery.tsx:115 | the linear position at a progress; characterised by `XIsLinearAndMonotone` |
| Gallery.Progress | components/Sections/Gallery.tsx:116-121 | progress lies in [0, 1] and, inside the stretch, times the pin distance gives the offset |
| Gallery.XIsLinearAndMonotone | components/Sections/Gallery.tsx:115 | with `ease: "none"` the strip starts in place, ends at the target and only moves left as progress grows |
| Gallery.SidewaysNoFasterThanScroll | components/Sections/Gallery.tsx:114-121 | inside the pinned stretch the strip moves sideways no more than the page scrolls |
| Gallery.Gallery.constructor | components/Sections/Gallery.tsx:103-130 | with both elements present the tween is created with its target and pin, and one refresh is scheduled; otherwise the effect does nothing |
| Gallery.Gallery.Refresh | components/Sections/Gallery.tsx:122 | while the context exists a refresh re-measures the target and the pin |
| Gallery.Gallery.FireRefreshTimer | components/Sections/Gallery.tsx:128-130 | the deferred refresh fires at most once, and only if it was not cleared |
| Gallery.Gallery.Unmount | components/Sections/Gallery.tsx:132-135 | teardown reverts the context and clears the timer, so no refresh follows |
| Gallery.Gallery.OpenArchive | components/Sections/Gallery.tsx:153 | the archive card opens the modal |
| Gallery.Gallery.CloseArchive | components/Sections/Gallery.tsx:161-171 | the backdrop and the close button close it |
| App.InvokeFacts | App.tsx:44-59 | one call appends itself to the log and changes nothing but the instance's state |
| App.RunKeepsInv | App.tsx:30-97 | on every run: while loading, no start was issued, no timer is pending and nothing scrolls; only a live instance scrolls; the ticker callback is added once and removed once, when the instance is destroyed once |
| App.LoadingKeepsScrollStopped | App.tsx:44 | until the preloader completes, no start is ever issued and nothing scrolls |
| App.UnmountBalancesTicker | App.tsx:54-59 | after unmount the ticker callback was added exactly once, removed exactly once, and the instance destroyed exactly once |
| App.LoadingOnlyEnds | App.tsx:23-104 | `isLoading` only goes from true to false, and only on the preloader's completion |
| App.PreloaderDoneStartsAtOnce | App.tsx:77-85 | completion starts scrolling at once unless the overlay is open, jumps to the top and schedules both settle timers |
| App.OpenLegalStops | App.tsx:79-80 | opening the overlay stops scrolling, loading or not |
| App.CloseLegalResumes | App.tsx:81-82 | closing it resumes scrolling once loaded and leaves it stopped while loading |
| App.ViewChangeResetsScroll | App.tsx:88-97 | after loading, a view change jumps to the top at once and, 100 ms later, refreshes and then re-measures; during loading it calls nothing |
| App.LoadSettleOrder | App.tsx:67-72 | the load-settle timer jumps to the top, starts, re-measures and refreshes, in that order |
| App.SettleTimerScrollsAfterQuickOpen | App.tsx:67-72 | as written, mount, preloader done, overlay opened within 100 ms, timer fires leaves the page scrolling behind the open overlay |
| App.LegalEffect | App.tsx:77-85 | the legal effect: stop while the overlay is open, start once loaded; `OpenLegalStops` and `CloseLegalResumes` state both branches |
| App.ViewEffect | App.tsx:88-97 | the view effect: once loaded, jump to the top and schedule the view timer; stated by `ViewChangeResetsScroll` |
| App.LoadSettle | App.tsx:67-72 | the load-settle timer as written, starting the instance without looking at the overlay; stated by `LoadSettleOrder` |
| App.Step | App.tsx:29-104 | one event on the page shell; `RunKeepsInv` holds over every run of it |
| App.SettleTimerScrollsBehindOverlay | App.tsx:67-72 | as written, mount, overlay opened, preloader done, timer fires leaves the page scrolling behind the open overlay |
| App.GuardedSettleFreezes | App.tsx:67-72 | the guarded settle timer keeps the invariant and never scrolls behind the overlay |
| App.LoadSettleGuarded | App.tsx:67-85 | the settle timer as evidently intended, starting only with the overlay closed; characterised by `GuardedSettleFreezes` |
| App.StepGuarded | App.tsx:29-104 | one event with the corrected settle timer; characterised by `StepGuardedFreezes` |
| App.StepGuardedFreezes | App.tsx:29-104 | with the corrected settle timer, every event keeps the invariant and never leaves the page scrolling under the overlay or the preloader |
| App.RunGuarded | App.tsx:29-104 | a run of events with the corrected settle timer; characterised by `GuardedOverlayAlwaysFreezes` and `GuardedFromStart` |
| App.GuardedOverlayAlwaysFreezes | App.tsx:30-97 | with the guarded timer, from any invariant state, the page never scrolls while the overlay is open or the preloader runs |
| App.GuardedFromStart | App.tsx:30-97 | the same from the initial state, on every run |
| App.App.constructor | App.tsx:23-26 | the component starts loading, overlay closed, on home, with no instance and an empty log |
| App.App.Call | App.tsx:44-59 | one recorded call, as `Invoke` |
| App.App.RunLegalEffect | App.tsx:77-85 | stop when the overlay is open, else start once loaded |
| App.App.RunViewEffect | App.tsx:88-97 | once loaded, jump to the top and schedule the view timer |
| App.App.Mount | App.tsx:30-55 | the new instance is stopped at once, wired to ScrollTrigger and added to the ticker |
| App.App.CompletePreloader | App.tsx:64-97 | the effects that read `isLoading` run in declaration order |
| App.App.SetLegalOpen | App.tsx:77-85 | the overlay flag changes and the legal effect runs |
| App.App.SetCurrentView | App.tsx:88-97 | the view changes and the view effect runs |
| App.App.FireLoadTimer | App.tsx:67-72 | the settle timer as written: the new state is `Step` on the timer event |
| App.App.FireLoadTimerGuarded | App.tsx:67-85 | the settle timer as evidently intended: the new state is `StepGuarded` on the timer event, which starts only when the overlay is closed |
| App.App.FireViewTimer | App.tsx:92-95 | the view timer refreshes and then re-measures |
| App.App.Unmount | App.tsx:57-60 | the ticker callback is removed and the instance destroyed |

## Left out

- Lenis and GSAP/ScrollTrigger internals are foreign code and are not modelled: smoothing, the
  ticker loop, trigger evaluation, `scrub` lag, `lagSmoothing`. Only the calls the components
  make are recorded.
- Every tween, timeline, duration and easing curve is left out, and so are the preloader,
  cursor, hero and other presentational components. They are visual configuration with
  floating-point timing.
- The network send is a parameter. Its request body is modelled as the form-data entries, and
  the URL is a constant.
- The "TRANSMITTING..." text shown during the await is not separately observable, because the
  send is a single step. `console.error` is I/O and is left out.
- `document.body.style.overflow` writes, smooth-scroll behaviour and `scrollIntoView` are DOM
  effects and are left out. DOM `contains` in the outside-click handler is a parameter-free
  event (`ClickOutsideDropdown`).
- The submit button's `innerText` is modelled as a field. The `if (btn)` checks assume the
  button exists, which holds whenever its form is rendered.
- React's batching, StrictMode double effects and asynchronous interleaving are not modelled.
  Each handler or timer is one atomic step.
- Text.Lower: only ASCII letters are lower-cased. Unicode case mapping is not modelled, so
  non-ASCII names compare by code point.
- Text.IsSpace is the ECMAScript whitespace set; no Unicode normalisation is modelled.
- Countries.FilterIgnoresCase: stated for lists whose codes have no letters, which holds for
  every code in the list. The code test is case-sensitive, so a query with letters in it could
  otherwise match differently.
- Gallery reals: scroll offsets and progress are exact reals, not IEEE doubles. `scrub: 1`
  smoothing is not modelled, so `XAt` is the position the scrubbed tween converges to.
- The Gallery card tilt is floating-point arithmetic on mouse coordinates and is left out.
- App's 100 ms timers are counts of pending callbacks. Nothing clears them, as in the code.

## Findings

| source | as written | input that shows it | evidently intended | confidence | as-written member | corrected member |
|---|---|---|---|---|---|---|
| App.tsx:67-72 | the settle timer calls `lenis.start()` without checking `isLegalOpen` | mount, the preloader completes, the legal overlay is opened within 100 ms, the settle timer fires: the overlay is open and the page behind it scrolls (also reached by opening the overlay while the preloader runs, `App.SettleTimerScrollsBehindOverlay`) | start only when the overlay is closed, as the legal effect at App.tsx:77-85 already does (`App.App.FireLoadTimerGuarded`) | medium: needs a click on a footer legal link in the first 100 ms after the preloader; not executed | App.SettleTimerScrollsAfterQuickOpen | App.GuardedFromStart |
