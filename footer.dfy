/** The page footer's request form: state cells held as fields, each handler proved to move
    them exactly as the request flow says. */
module Footer {
  import opened RequestFlow
  import Content
  import Text

  class Footer {
    var requested: bool
    var handle: string
    var inputPlaceholder: string
    var inputError: bool
    var isModalOpen: bool
    /** Revert timers started and not yet fired. */
    var pendingReverts: nat

    function Model(): Flow
      reads this
    {
      Flow(handle, requested, inputPlaceholder, inputError, isModalOpen, pendingReverts)
    }

    constructor ()
      ensures Model() == INITIAL
    {
      requested, handle := false, "";
      inputPlaceholder, inputError := Content.HANDLE_PLACEHOLDER, false;
      isModalOpen, pendingReverts := false, 0;
    }

    /** The input's `onChange`. */
    method EditHandle(text: string)
      modifies this`handle
      ensures Model() == old(Model()).(handle := text)
    {
      handle := text;
    }

    method HandleRequestClick()
      modifies this`isModalOpen, this`inputPlaceholder, this`inputError, this`pendingReverts
      ensures Model() == RequestClick(old(Model()))
    {
      if !Text.AllSpace(handle) {
        isModalOpen := true;
      } else {
        inputPlaceholder := Content.HANDLE_ERROR;
        inputError := true;
        pendingReverts := pendingReverts + 1;
      }
    }

    /** A 1500 ms timer started by a blank click fires. */
    method FireInputRevert()
      modifies this`inputPlaceholder, this`inputError, this`pendingReverts
      ensures Model() == InputRevert(old(Model()))
    {
      if pendingReverts > 0 {
        inputPlaceholder := Content.HANDLE_PLACEHOLDER;
        inputError := false;
        pendingReverts := pendingReverts - 1;
      }
    }

    method HandleVerificationSuccess()
      modifies this`requested, this`isModalOpen
      ensures Model() == VerificationSuccess(old(Model()))
    {
      requested := true;
      isModalOpen := false;
    }

    /** The `onClose` passed to the modal. */
    method CloseModal()
      modifies this`isModalOpen
      ensures Model() == CloseVerification(old(Model()))
    {
      isModalOpen := false;
    }
  }
}
