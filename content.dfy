/** The fixed copy that the components' logic compares against or writes into their state. */
module Content {
  const HANDLE_PLACEHOLDER: string := "@INSTAGRAM_HANDLE"
  const HANDLE_ERROR: string := "PLEASE ENTER HANDLE"
  const REQUEST_BUTTON_DEFAULT: string := "REQUEST AUDIT"
  const REQUEST_BUTTON_ACTIVE: string := "REQUESTED"
  const SUBMIT_TEXT: string := "SUBMIT REQUEST"
  const SUCCESS_TEXT: string := "VERIFIED"
  const SCROLL_DOWN: string := "SCROLL ↓"
  const BACK_TO_TOP: string := "BACK TO TOP ↑"
}
