/** src/actions.ts: the legacy eight-tag enumeration, with refreshed-token
    tags in place of the per-kind acquired-token tags, and its creators.
    The `IAccountInfo` that file imports is not part of the legacy interfaces
    file; the legacy `UserInfo` stands for it. */
module LegacyActions {
  import opened Wrappers
  import opened Msal
  import opened Redux
  import opened LegacyInterfaces

  datatype ActionKind =
    | Initializing
    | Initialized
    | LoginSuccess
    | LoginError
    | LogoutSuccess
    | RefreshedTokenSuccess
    | RefreshedTokenError
    | AuthenticatedStateChanged

  function Tag(k: ActionKind): (s: string)
    ensures |s| > 4 && s[..4] == "AAD_"
  {
    match k
    case Initializing => "AAD_INITIALIZING"
    case Initialized => "AAD_INITIALIZED"
    case LoginSuccess => "AAD_LOGIN_SUCCESS"
    case LoginError => "AAD_LOGIN_ERROR"
    case LogoutSuccess => "AAD_LOGOUT_SUCCESS"
    case RefreshedTokenSuccess => "AAD_REFRESHED_TOKEN_SUCCESS"
    case RefreshedTokenError => "AAD_REFRESHED_TOKEN_ERROR"
    case AuthenticatedStateChanged => "AAD_AUTHENTICATED_STATE_CHANGED"
  }

  /** The eight tag strings are pairwise distinct. */
  lemma TagInjective(a: ActionKind, b: ActionKind)
    ensures Tag(a) == Tag(b) <==> a == b
  {
  }

  datatype LegacyPayload =
    | UserInfoPayload(info: UserInfo)
    | ErrorPayload(error: AuthError)
    | StatePayload(state: LegacyState)

  type LegacyAction = Action<LegacyPayload>

  function Make(k: ActionKind, payload: Option<LegacyPayload>): (a: LegacyAction)
    ensures a.actionType == Tag(k) && a.payload == payload
  {
    Action(Tag(k), payload)
  }

  function Initializing(): (a: LegacyAction)
    ensures a.actionType == "AAD_INITIALIZING" && a.payload == None
  { Make(ActionKind.Initializing, None) }

  function Initialized(): (a: LegacyAction)
    ensures a.actionType == "AAD_INITIALIZED" && a.payload == None
  { Make(ActionKind.Initialized, None) }

  function LoginSuccessful(data: UserInfo): (a: LegacyAction)
    ensures a.actionType == "AAD_LOGIN_SUCCESS" && a.payload == Some(UserInfoPayload(data))
  { Make(ActionKind.LoginSuccess, Some(UserInfoPayload(data))) }

  function LoginError(error: AuthError): (a: LegacyAction)
    ensures a.actionType == "AAD_LOGIN_ERROR" && a.payload == Some(ErrorPayload(error))
  { Make(ActionKind.LoginError, Some(ErrorPayload(error))) }

  function LogoutSuccessful(): (a: LegacyAction)
    ensures a.actionType == "AAD_LOGOUT_SUCCESS" && a.payload == None
  { Make(ActionKind.LogoutSuccess, None) }

  /** Tagged as a refreshed token, not as an acquired access token. */
  function AcquireTokenSuccess(response: UserInfo): (a: LegacyAction)
    ensures a.actionType == "AAD_REFRESHED_TOKEN_SUCCESS" && a.payload == Some(UserInfoPayload(response))
  { Make(ActionKind.RefreshedTokenSuccess, Some(UserInfoPayload(response))) }

  function AcquireTokenError(error: AuthError): (a: LegacyAction)
    ensures a.actionType == "AAD_REFRESHED_TOKEN_ERROR" && a.payload == Some(ErrorPayload(error))
  { Make(ActionKind.RefreshedTokenError, Some(ErrorPayload(error))) }

  function AuthenticatedStateChanged(state: LegacyState): (a: LegacyAction)
    ensures a.actionType == "AAD_AUTHENTICATED_STATE_CHANGED" && a.payload == Some(StatePayload(state))
  { Make(ActionKind.AuthenticatedStateChanged, Some(StatePayload(state))) }
}
