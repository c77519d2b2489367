/** The about overlay's request form. Unlike the footer, it is shown and hidden by its parent
    through the `isOpen` prop, and hiding it resets the handle and the lock-out. */
module AboutModal {
  import opened RequestFlow
  import Content
  import Text

  class AboutModal {
    /** Prop, owned by the parent. */
    var isOpen: bool

    var handle: string
    var requested: bool
    var inputPlaceholder: string
    var inputError: bool
    var showVerification: bool
    var pendingReverts: nat

    function Model(): Flow
      reads this
    {
      Flow(handle, requested, inputPlaceholder, inputError, showVerification, pendingReverts)
    }

    /** First render with the prop as given; the effect's close branch, run at mount when
        `isOpen` is false, resets cells that already hold their initial values. */
    constructor (isOpen: bool)
      ensures this.isOpen == isOpen
      ensures Model() == INITIAL
    {
      this.isOpen := isOpen;
      handle, requested := "", false;
      inputPlaceholder, inputError := Content.HANDLE_PLACEHOLDER, false;
      showVerification, pendingReverts := false, 0;
    }

    /** The parent re-renders with a new `isOpen`. The effect only runs when the value changes;
        its close branch clears the handle and the lock-out and nothing else. */
    method SetIsOpen(open: bool)
      modifies this`isOpen, this`handle, this`requested
      ensures isOpen == open
      ensures Model() == if old(isOpen) && !open then ResetOnClose(old(Model())) else old(Model())
    {
      if isOpen != open && !open {
        handle := "";
        requested := false;
      }
      isOpen := open;
    }

    method EditHandle(text: string)
      modifies this`handle
      ensures Model() == old(Model()).(handle := text)
    {
      handle := text;
    }

    method HandleRequestClick()
      modifies this`showVerification, this`inputPlaceholder, this`inputError, this`pendingReverts
      ensures Model() == RequestClick(old(Model()))
    {
      if !Text.AllSpace(handle) {
        showVerification := true;
      } else {
        inputPlaceholder := Content.HANDLE_ERROR;
        inputError := true;
        pendingReverts := pendingReverts + 1;
      }
    }

    method FireInputRevert()
      modifies this`inputPlaceholder, this`inputError, this`pendingReverts
      ensures Model() == InputRevert(old(Model()))
    {
      if pendingReverts > 0 {
        inputPlaceholder := Content.HANDLE_PLACEHOLDER;
        inputError := false;
        pendingReverts := pendingReverts - 1;
      }
    }

    method HandleVerificationSuccess()
      modifies this`requested, this`showVerification
      ensures Model() == VerificationSuccess(old(Model()))
    {
      requested := true;
      showVerification := false;
    }

    method CloseVerification()
      modifies this`showVerification
      ensures Model() == RequestFlow.CloseVerification(old(Model()))
    {
      showVerification := false;
    }
  }
}
