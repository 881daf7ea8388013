/** The types of the legacy component (src/Interfaces.ts, repeated in
    src/index.tsx). */
module LegacyInterfaces {
  import opened Wrappers

  /** The legacy states: `Authenticating` plays the role of `InProgress`. */
  datatype LegacyState = Unauthenticated | Authenticating | Authenticated

  datatype LegacyLoginType = Popup | Redirect

  /** The client's user (`Msal.User`); of its ID token only the `exp` claim,
      in seconds, is read. */
  datatype User = User(displayableId: string, name: string, idTokenExp: Option<int>)

  /** The signed-in identity handed to callbacks and the store (`IUserInfo`). */
  datatype UserInfo = UserInfo(jwtAccessToken: string, jwtIdToken: string, user: User)

  /** How a promise of the legacy client settles: with a token string, or
      rejected. */
  datatype TokenOutcome = Resolved(token: string) | Rejected(reason: string)

  /** The legacy client's calls, as a log; the client itself is not part of
      this model. */
  datatype LegacyCall =
    | AcquireTokenSilent(scopes: seq<string>)
    | AcquireTokenPopup(scopes: seq<string>)
    | LoginPopup(scopes: seq<string>)
    | LoginRedirect(scopes: seq<string>)
    | ClientLogout
}
