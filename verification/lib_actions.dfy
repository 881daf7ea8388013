/** packages/lib/src/actions.ts: the earlier eleven-tag enumeration (it has
    no clear-error tag) and its creators. Its payload types are those of the
    current package. */
module LibActions {
  import opened Wrappers
  import opened Enums
  import opened Msal
  import opened Interfaces
  import opened Redux
  import opened TokenResponses
  import AA = AuthenticationActions
  import ActionCreators = AuthenticationActionCreators

  datatype ActionKind =
    | Initializing
    | Initialized
    | LoginSuccess
    | LoginFailed
    | LoginError
    | LogoutSuccess
    | AcquiredIdTokenSuccess
    | AcquiredIdTokenError
    | AcquiredAccessTokenSuccess
    | AcquiredAccessTokenError
    | AuthenticatedStateChanged

  function Tag(k: ActionKind): (s: string)
    ensures |s| > 4 && s[..4] == "AAD_"
  {
    match k
    case Initializing => "AAD_INITIALIZING"
    case Initialized => "AAD_INITIALIZED"
    case LoginSuccess => "AAD_LOGIN_SUCCESS"
    case LoginFailed => "AAD_LOGIN_FAILED"
    case LoginError => "AAD_LOGIN_ERROR"
    case LogoutSuccess => "AAD_LOGOUT_SUCCESS"
    case AcquiredIdTokenSuccess => "AAD_ACQUIRED_ID_TOKEN_SUCCESS"
    case AcquiredIdTokenError => "AAD_ACQUIRED_ID_TOKEN_ERROR"
    case AcquiredAccessTokenSuccess => "AAD_ACQUIRED_ACCESS_TOKEN_SUCCESS"
    case AcquiredAccessTokenError => "AAD_ACQUIRED_ACCESS_TOKEN_ERROR"
    case AuthenticatedStateChanged => "AAD_AUTHENTICATED_STATE_CHANGED"
  }

  /** The tag of the same name in the current package's enumeration. */
  function ToCurrent(k: ActionKind): (c: AA.ActionKind)
    ensures c != AA.ClearError
    ensures AA.Tag(c) == Tag(k)
  {
    match k
    case Initializing => AA.Initializing
    case Initialized => AA.Initialized
    case LoginSuccess => AA.LoginSuccess
    case LoginFailed => AA.LoginFailed
    case LoginError => AA.LoginError
    case LogoutSuccess => AA.LogoutSuccess
    case AcquiredIdTokenSuccess => AA.AcquiredIdTokenSuccess
    case AcquiredIdTokenError => AA.AcquiredIdTokenError
    case AcquiredAccessTokenSuccess => AA.AcquiredAccessTokenSuccess
    case AcquiredAccessTokenError => AA.AcquiredAccessTokenError
    case AuthenticatedStateChanged => AA.AuthenticatedStateChanged
  }

  /** The eleven tags are pairwise distinct, and none of them is the current
      package's clear-error tag: the current enumeration is this one plus
      `ClearError`. */
  lemma {:induction false} TagsDistinctWithoutClearError(a: ActionKind, b: ActionKind)
    ensures Tag(a) == Tag(b) <==> a == b
    ensures Tag(a) != AA.Tag(AA.ClearError)
  {
    AA.TagInjective(ToCurrent(a), ToCurrent(b));
    AA.TagInjective(ToCurrent(a), AA.ClearError);
  }

  type LibAction = Action<ActionCreators.Payload>

  function Make(k: ActionKind, payload: Option<ActionCreators.Payload>): (a: LibAction)
    ensures a.actionType == Tag(k) && a.payload == payload
  {
    Action(Tag(k), payload)
  }

  function Initializing(): (a: LibAction)
    ensures a.actionType == Tag(ActionKind.Initializing) && a.payload == None
  { Make(ActionKind.Initializing, None) }

  function Initialized(): (a: LibAction)
    ensures a.actionType == Tag(ActionKind.Initialized) && a.payload == None
  { Make(ActionKind.Initialized, None) }

  function LoginSuccessful(data: AccountInfo): (a: LibAction)
    ensures a.actionType == Tag(ActionKind.LoginSuccess) && a.payload == Some(ActionCreators.AccountInfoPayload(data))
  { Make(ActionKind.LoginSuccess, Some(ActionCreators.AccountInfoPayload(data))) }

  function LoginFailed(): (a: LibAction)
    ensures a.actionType == Tag(ActionKind.LoginFailed) && a.payload == None
  { Make(ActionKind.LoginFailed, None) }

  function LoginError(error: AuthError): (a: LibAction)
    ensures a.actionType == Tag(ActionKind.LoginError) && a.payload == Some(ActionCreators.ErrorPayload(error))
  { Make(ActionKind.LoginError, Some(ActionCreators.ErrorPayload(error))) }

  function LogoutSuccessful(): (a: LibAction)
    ensures a.actionType == Tag(ActionKind.LogoutSuccess) && a.payload == None
  { Make(ActionKind.LogoutSuccess, None) }

  function AcquireIdTokenSuccess(token: IdTokenResponse): (a: LibAction)
    ensures a.actionType == Tag(ActionKind.AcquiredIdTokenSuccess) && a.payload == Some(ActionCreators.IdTokenPayload(token))
  { Make(ActionKind.AcquiredIdTokenSuccess, Some(ActionCreators.IdTokenPayload(token))) }

  function AcquireIdTokenError(error: AuthError): (a: LibAction)
    ensures a.actionType == Tag(ActionKind.AcquiredIdTokenError) && a.payload == Some(ActionCreators.ErrorPayload(error))
  { Make(ActionKind.AcquiredIdTokenError, Some(ActionCreators.ErrorPayload(error))) }

  function AcquireAccessTokenSuccess(token: AccessTokenResponse): (a: LibAction)
    ensures a.actionType == Tag(ActionKind.AcquiredAccessTokenSuccess) && a.payload == Some(ActionCreators.AccessTokenPayload(token))
  { Make(ActionKind.AcquiredAccessTokenSuccess, Some(ActionCreators.AccessTokenPayload(token))) }

  function AcquireAccessTokenError(error: AuthError): (a: LibAction)
    ensures a.actionType == Tag(ActionKind.AcquiredAccessTokenError) && a.payload == Some(ActionCreators.ErrorPayload(error))
  { Make(ActionKind.AcquiredAccessTokenError, Some(ActionCreators.ErrorPayload(error))) }

  function AuthenticatedStateChanged(state: AuthenticationState): (a: LibAction)
    ensures a.actionType == Tag(ActionKind.AuthenticatedStateChanged) && a.payload == Some(ActionCreators.StatePayload(state))
  { Make(ActionKind.AuthenticatedStateChanged, Some(ActionCreators.StatePayload(state))) }

  /** An action of this file is exactly the action the current package
      makes for the tag of the same name with the same payload: the two
      versions of the creators agree. */
  lemma MakeAgreesWithCurrent(k: ActionKind, payload: Option<ActionCreators.Payload>)
    ensures Make(k, payload) == ActionCreators.Make(ToCurrent(k), payload)
  {
  }
}
