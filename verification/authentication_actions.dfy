/** The action tags of packages/react-aad-msal/src/enums/AuthenticationActions.ts. */
module AuthenticationActions {
  import opened Wrappers

  datatype ActionKind =
    | Initializing
    | Initialized
    | LoginSuccess
    | LoginFailed
    | LoginError
    | ClearError
    | LogoutSuccess
    | AcquiredIdTokenSuccess
    | AcquiredIdTokenError
    | AcquiredAccessTokenSuccess
    | AcquiredAccessTokenError
    | AuthenticatedStateChanged

  /** The string value of each tag. */
  function Tag(k: ActionKind): (s: string)
    ensures |s| > 4 && s[..4] == "AAD_"
  {
    match k
    case Initializing => "AAD_INITIALIZING"
    case Initialized => "AAD_INITIALIZED"
    case LoginSuccess => "AAD_LOGIN_SUCCESS"
    case LoginFailed => "AAD_LOGIN_FAILED"
    case LoginError => "AAD_LOGIN_ERROR"
    case ClearError => "AAD_CLEAR_ERROR"
    case LogoutSuccess => "AAD_LOGOUT_SUCCESS"
    case AcquiredIdTokenSuccess => "AAD_ACQUIRED_ID_TOKEN_SUCCESS"
    case AcquiredIdTokenError => "AAD_ACQUIRED_ID_TOKEN_ERROR"
    case AcquiredAccessTokenSuccess => "AAD_ACQUIRED_ACCESS_TOKEN_SUCCESS"
    case AcquiredAccessTokenError => "AAD_ACQUIRED_ACCESS_TOKEN_ERROR"
    case AuthenticatedStateChanged => "AAD_AUTHENTICATED_STATE_CHANGED"
  }

  /** Reads a type string back as a tag, the way a reducer's `switch` does. */
  function KindOf(s: string): Option<ActionKind>
  {
    if s == "AAD_INITIALIZING" then Some(Initializing)
    else if s == "AAD_INITIALIZED" then Some(Initialized)
    else if s == "AAD_LOGIN_SUCCESS" then Some(LoginSuccess)
    else if s == "AAD_LOGIN_FAILED" then Some(LoginFailed)
    else if s == "AAD_LOGIN_ERROR" then Some(LoginError)
    else if s == "AAD_CLEAR_ERROR" then Some(ClearError)
    else if s == "AAD_LOGOUT_SUCCESS" then Some(LogoutSuccess)
    else if s == "AAD_ACQUIRED_ID_TOKEN_SUCCESS" then Some(AcquiredIdTokenSuccess)
    else if s == "AAD_ACQUIRED_ID_TOKEN_ERROR" then Some(AcquiredIdTokenError)
    else if s == "AAD_ACQUIRED_ACCESS_TOKEN_SUCCESS" then Some(AcquiredAccessTokenSuccess)
    else if s == "AAD_ACQUIRED_ACCESS_TOKEN_ERROR" then Some(AcquiredAccessTokenError)
    else if s == "AAD_AUTHENTICATED_STATE_CHANGED" then Some(AuthenticatedStateChanged)
    else None
  }

  /** Reading a tag's string gives back that tag. */
  lemma KindOfTag(k: ActionKind)
    ensures KindOf(Tag(k)) == Some(k)
  {
  }

  /** The twelve tag strings are pairwise distinct. */
  lemma TagInjective(a: ActionKind, b: ActionKind)
    ensures Tag(a) == Tag(b) <==> a == b
  {
    KindOfTag(a);
    KindOfTag(b);
  }
}
