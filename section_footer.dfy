/** The landing page's closing section: the handle field and request button, and an inline
    lead-capture modal (not the shared verification modal) holding the contact form. */
module SectionFooter {
  import opened LeadForm
  import opened RequestFlow
  import Countries
  import Content
  import Text

  class SectionFooter {
    var requested: bool
    var handle: string
    var inputPlaceholder: string
    var inputError: bool
    var isModalOpen: bool

    var email: string
    var countryCode: string
    var phone: string
    var authorized: bool
    var errors: Errors
    var isDropdownOpen: bool
    var searchQuery: string
    var submitText: string

    var pendingReverts: nat
    var pendingSuccess: nat
    var pendingRetryResets: nat

    /** The handle-and-button part, which follows the shared request flow. */
    function Flow(): RequestFlow.Flow
      reads this`handle, this`requested, this`inputPlaceholder, this`inputError
      reads this`isModalOpen, this`pendingReverts
    {
      RequestFlow.Flow(handle, requested, inputPlaceholder, inputError, isModalOpen, pendingReverts)
    }

    constructor ()
      ensures Flow() == INITIAL
      ensures email == "" && countryCode == Countries.DEFAULT_CODE && phone == "" && !authorized
      ensures errors == NO_ERRORS && !isDropdownOpen && searchQuery == "" && submitText == Content.SUBMIT_TEXT
      ensures pendingSuccess == 0 && pendingRetryResets == 0
    {
      requested, handle := false, "";
      inputPlaceholder, inputError := Content.HANDLE_PLACEHOLDER, false;
      isModalOpen, pendingReverts := false, 0;
      email, countryCode, phone, authorized := "", Countries.DEFAULT_CODE, "", false;
      errors, isDropdownOpen, searchQuery, submitText := NO_ERRORS, false, "", Content.SUBMIT_TEXT;
      pendingSuccess, pendingRetryResets := 0, 0;
    }

    method EditHandle(text: string)
      modifies this`handle
      ensures Flow() == old(Flow()).(handle := text)
    {
      handle := text;
    }

    /** `handleRequestClick`: as in the shared flow, and opening the modal also clears the
        error map, the country search and the dropdown. */
    method HandleRequestClick()
      modifies this`isModalOpen, this`inputPlaceholder, this`inputError, this`pendingReverts
      modifies this`errors, this`searchQuery, this`isDropdownOpen
      ensures Flow() == RequestClick(old(Flow()))
      ensures !Text.AllSpace(handle) ==> errors == NO_ERRORS && searchQuery == "" && !isDropdownOpen
      ensures Text.AllSpace(handle) ==> errors == old(errors) && searchQuery == old(searchQuery) && isDropdownOpen == old(isDropdownOpen)
    {
      ghost var before := Flow();
      if !Text.AllSpace(handle) {
        isModalOpen := true;
        errors := NO_ERRORS;
        searchQuery := "";
        isDropdownOpen := false;
        assert Flow() == before.(verifying := true);
      } else {
        inputPlaceholder := Content.HANDLE_ERROR;
        inputError := true;
        pendingReverts := pendingReverts + 1;
        assert Flow() == before.(placeholder := Content.HANDLE_ERROR, inputError := true, pendingReverts := before.pendingReverts + 1);
      }
    }

    method FireInputRevert()
      modifies this`inputPlaceholder, this`inputError, this`pendingReverts
      ensures Flow() == InputRevert(old(Flow()))
    {
      if pendingReverts > 0 {
        inputPlaceholder := Content.HANDLE_PLACEHOLDER;
        inputError := false;
        pendingReverts := pendingReverts - 1;
      }
    }

    method EditEmail(text: string)
      modifies this`email
      ensures email == text
    {
      email := text;
    }

    method EditPhone(text: string)
      modifies this`phone
      ensures phone == text
    {
      phone := text;
    }

    method ToggleAuthorized()
      modifies this`authorized
      ensures authorized == !old(authorized)
    {
      authorized := !authorized;
    }

    method ToggleDropdown()
      modifies this`isDropdownOpen
      ensures isDropdownOpen == !old(isDropdownOpen)
    {
      isDropdownOpen := !isDropdownOpen;
    }

    method ClickOutsideDropdown()
      modifies this`isDropdownOpen
      ensures !isDropdownOpen
    {
      isDropdownOpen := false;
    }

    method EditSearch(query: string)
      modifies this`searchQuery
      ensures searchQuery == query
    {
      searchQuery := query;
    }

    /** `filteredCountries`, recomputed from the search text. */
    function FilteredCountries(): seq<Countries.Country>
      reads this
    {
      Countries.Filter(Countries.COUNTRIES, searchQuery)
    }

    method SelectCountry(code: string)
      modifies this`countryCode, this`isDropdownOpen, this`searchQuery
      ensures countryCode == code && !isDropdownOpen && searchQuery == ""
    {
      countryCode := code;
      isDropdownOpen := false;
      searchQuery := "";
    }

    /** `handleFinalSubmit`, with the same checks, payload and button texts as the shared
        modal's; only its success timer differs. */
    method HandleFinalSubmit(sendSucceeds: bool) returns (posted: Option<Payload>)
      modifies this`errors, this`submitText, this`pendingSuccess, this`pendingRetryResets
      ensures errors == Validate(email, countryCode, phone, authorized)
      ensures posted.Some? <==> errors == NO_ERRORS
      ensures posted.Some? ==> posted.value == BuildPayload(handle, email, countryCode, phone)
      ensures submitText == if posted.None? then old(submitText) else if sendSucceeds then Content.SUCCESS_TEXT else ERROR_RETRY
      ensures pendingSuccess == old(pendingSuccess) + if posted.Some? && sendSucceeds then 1 else 0
      ensures pendingRetryResets == old(pendingRetryResets) + if posted.Some? && !sendSucceeds then 1 else 0
    {
      var newErrors, isValid := CheckSubmission(email, countryCode, phone, authorized);
      errors := newErrors;
      if isValid {
        posted := Some(BuildPayload(handle, email, countryCode, phone));
        submitText := TRANSMITTING;
        if sendSucceeds {
          submitText := Content.SUCCESS_TEXT;
          pendingSuccess := pendingSuccess + 1;
        } else {
          submitText := ERROR_RETRY;
          pendingRetryResets := pendingRetryResets + 1;
        }
      } else {
        posted := None;
      }
    }

    /** The 600 ms success timer: the modal closes and the request button locks. */
    method FireSuccessTimer()
      modifies this`isModalOpen, this`requested, this`pendingSuccess
      ensures old(pendingSuccess) > 0 ==> Flow() == VerificationSuccess(old(Flow())) && pendingSuccess == old(pendingSuccess) - 1
      ensures old(pendingSuccess) == 0 ==> Flow() == old(Flow()) && pendingSuccess == 0
    {
      if pendingSuccess > 0 {
        isModalOpen := false;
        requested := true;
        pendingSuccess := pendingSuccess - 1;
      }
    }

    method FireRetryReset()
      modifies this`submitText, this`pendingRetryResets
      ensures old(pendingRetryResets) > 0 ==> submitText == Content.SUBMIT_TEXT && pendingRetryResets == old(pendingRetryResets) - 1
      ensures old(pendingRetryResets) == 0 ==> submitText == old(submitText) && pendingRetryResets == 0
    {
      if pendingRetryResets > 0 {
        submitText := Content.SUBMIT_TEXT;
        pendingRetryResets := pendingRetryResets - 1;
      }
    }

    /** `closeModal`: the modal's close button. The form keeps what was typed. */
    method CloseModal()
      modifies this`isModalOpen
      ensures Flow() == CloseVerification(old(Flow()))
    {
      isModalOpen := false;
    }
  }
}
