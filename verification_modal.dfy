/** The reusable contact-details modal that the footer, the about overlay and the FAQ overlay
    open after a handle has been entered. */
module VerificationModal {
  import opened LeadForm
  import Countries
  import Content

  /** The two callbacks the parent hands to the modal. */
  datatype Callback = OnSuccess | OnClose

  class VerificationModal {
    /** Props, owned by the parent. */
    var isOpen: bool
    var handle: string

    /** The modal's own state cells. */
    var email: string
    var countryCode: string
    var phone: string
    var authorized: bool
    var errors: Errors
    var isDropdownOpen: bool
    var searchQuery: string

    /** The submit button's text, which the submit handler overwrites directly. */
    var submitText: string

    /** 600 ms timers started by sends that went through and have not fired yet. */
    var pendingSuccess: nat
    /** 2000 ms timers started by sends that threw and have not fired yet. */
    var pendingRetryResets: nat

    constructor (isOpen: bool, handle: string)
      ensures this.isOpen == isOpen && this.handle == handle
      ensures email == "" && countryCode == Countries.DEFAULT_CODE && phone == "" && !authorized
      ensures errors == NO_ERRORS && !isDropdownOpen && searchQuery == ""
      ensures submitText == Content.SUBMIT_TEXT && pendingSuccess == 0 && pendingRetryResets == 0
    {
      this.isOpen, this.handle := isOpen, handle;
      email, countryCode, phone, authorized := "", Countries.DEFAULT_CODE, "", false;
      errors, isDropdownOpen, searchQuery := NO_ERRORS, false, "";
      submitText, pendingSuccess, pendingRetryResets := Content.SUBMIT_TEXT, 0, 0;
    }

    /** The parent re-renders with new props. Opening or closing touches no field of the
        form: what was typed, the selected code, the tick box and the errors all survive. */
    method SetProps(isOpen: bool, handle: string)
      modifies this`isOpen, this`handle
      ensures this.isOpen == isOpen && this.handle == handle
    {
      this.isOpen, this.handle := isOpen, handle;
    }

    method EditEmail(text: string)
      modifies this`email
      ensures email == text
    {
      email := text;
    }

    method EditPhone(text: string)
      modifies this`phone
      ensures phone == text
    {
      phone := text;
    }

    method ToggleAuthorized()
      modifies this`authorized
      ensures authorized == !old(authorized)
    {
      authorized := !authorized;
    }

    method ToggleDropdown()
      modifies this`isDropdownOpen
      ensures isDropdownOpen == !old(isDropdownOpen)
    {
      isDropdownOpen := !isDropdownOpen;
    }

    /** A mouse-down outside the dropdown closes it. */
    method ClickOutsideDropdown()
      modifies this`isDropdownOpen
      ensures !isDropdownOpen
    {
      isDropdownOpen := false;
    }

    method EditSearch(query: string)
      modifies this`searchQuery
      ensures searchQuery == query
    {
      searchQuery := query;
    }

    /** The dropdown's list for the current search. */
    function FilteredCountries(): seq<Countries.Country>
      reads this
    {
      Countries.Filter(Countries.COUNTRIES, searchQuery)
    }

    /** Picking a country sets the code, closes the dropdown and clears the search. */
    method SelectCountry(code: string)
      modifies this`countryCode, this`isDropdownOpen, this`searchQuery
      ensures countryCode == code && !isDropdownOpen && searchQuery == ""
    {
      countryCode := code;
      isDropdownOpen := false;
      searchQuery := "";
    }

    /** `handleFinalSubmit`. The error map is replaced by the one built from the current fields,
        and the form data is posted exactly when that map is empty. A send that does not throw
        shows the success text and starts the 600 ms success timer; a send that throws shows the
        retry text and starts the 2000 ms timer that restores the button. */
    method HandleFinalSubmit(sendSucceeds: bool) returns (posted: Option<Payload>)
      modifies this`errors, this`submitText, this`pendingSuccess, this`pendingRetryResets
      ensures errors == Validate(email, countryCode, phone, authorized)
      ensures posted.Some? <==> errors == NO_ERRORS
      ensures posted.Some? ==> posted.value == BuildPayload(handle, email, countryCode, phone)
      ensures submitText == if posted.None? then old(submitText) else if sendSucceeds then Content.SUCCESS_TEXT else ERROR_RETRY
      ensures pendingSuccess == old(pendingSuccess) + if posted.Some? && sendSucceeds then 1 else 0
      ensures pendingRetryResets == old(pendingRetryResets) + if posted.Some? && !sendSucceeds then 1 else 0
    {
      var newErrors, isValid := CheckSubmission(email, countryCode, phone, authorized);
      errors := newErrors;
      if isValid {
        posted := Some(BuildPayload(handle, email, countryCode, phone));
        submitText := TRANSMITTING;
        if sendSucceeds {
          submitText := Content.SUCCESS_TEXT;
          pendingSuccess := pendingSuccess + 1;
        } else {
          submitText := ERROR_RETRY;
          pendingRetryResets := pendingRetryResets + 1;
        }
      } else {
        posted := None;
      }
    }

    /** The retry timer fires and the button reads its usual text again. */
    method FireRetryReset()
      modifies this`submitText, this`pendingRetryResets
      ensures old(pendingRetryResets) > 0 ==> submitText == Content.SUBMIT_TEXT && pendingRetryResets == old(pendingRetryResets) - 1
      ensures old(pendingRetryResets) == 0 ==> submitText == old(submitText) && pendingRetryResets == 0
    {
      if pendingRetryResets > 0 {
        submitText := Content.SUBMIT_TEXT;
        pendingRetryResets := pendingRetryResets - 1;
      }
    }

    /** The success timer fires: `onSuccess` is called, then `onClose`. */
    method FireSuccessTimer() returns (calls: seq<Callback>)
      modifies this`pendingSuccess
      ensures old(pendingSuccess) > 0 ==> calls == [OnSuccess, OnClose] && pendingSuccess == old(pendingSuccess) - 1
      ensures old(pendingSuccess) == 0 ==> calls == [] && pendingSuccess == 0
    {
      if pendingSuccess > 0 {
        pendingSuccess := pendingSuccess - 1;
        calls := [OnSuccess, OnClose];
      } else {
        calls := [];
      }
    }
  }
}
