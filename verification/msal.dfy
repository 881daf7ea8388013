/** The values exchanged with the external authentication client (MSAL).
    The client itself is not modelled: each of its calls is represented by
    the outcome it delivers, and the calls the provider makes are logged. */
module Msal {
  import opened Wrappers
  import opened Enums

  /** The error classes the provider distinguishes. The last two are not
      client errors: `InvalidTokenKind` is the `Error` a token response
      constructor throws on a mismatched `tokenType`, and `MissingResponse`
      the `TypeError` raised when a constructor is handed no response. */
  datatype ErrorKind =
    | InteractionRequired
    | ClientAuth
    | OtherAuth
    | InvalidTokenKind
    | MissingResponse

  /** An error with its class and its `errorCode` ("" when the error has none). */
  datatype AuthError = AuthError(kind: ErrorKind, errorCode: string)

  /** The signed-in account as the client describes it. */
  datatype Account = Account(userName: string, homeAccountId: string)

  /** A decoded ID token: its raw text and its claims. */
  datatype IdTokenClaims = IdTokenClaims(rawIdToken: string, claims: map<string, string>)

  /** A successful response of the client (`AuthResponse`); `expiresOn` is in
      milliseconds since the epoch. */
  datatype AuthResponse = AuthResponse(
    tokenType: TokenType,
    idToken: IdTokenClaims,
    accessToken: string,
    scopes: seq<string>,
    expiresOn: int,
    account: Account,
    accountState: string)

  /** The authentication parameters the provider passes to the client. */
  datatype AuthParams = AuthParams(
    scopes: seq<string>,
    redirectUri: Option<string>,
    loginHint: Option<string>)

  /** What one asynchronous client call delivers: a response or an error. */
  datatype Outcome = Succeeded(response: AuthResponse) | Failed(error: AuthError)

  /** A call the provider makes on the client, as recorded in its log. */
  datatype MsalCall =
    | LoginPopup(params: AuthParams)
    | LoginRedirect(params: AuthParams)
    | AcquireTokenSilent(params: AuthParams)
    | AcquireTokenPopup(params: AuthParams)
    | AcquireTokenRedirect(params: AuthParams)
    | Logout
    | HandleRedirectCallback
}
