/** The enumerations of packages/react-aad-msal/src/enums. */
module Enums {

  /** Exactly one of these is the provider's current state. */
  datatype AuthenticationState = Unauthenticated | InProgress | Authenticated

  /** Whether interactive flows use a popup window or a full-page redirect. */
  datatype LoginType = Popup | Redirect

  /** The `tokenType` tag of a response: an ID token, an access token, or
      anything else (the provider ignores a response of any other kind). */
  datatype TokenType = IdToken | AccessToken | OtherToken
}
