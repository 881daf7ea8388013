/** The action creators of
    packages/react-aad-msal/src/AuthenticationActionCreators.ts: total
    functions from a lifecycle event to the action the store receives. */
module AuthenticationActionCreators {
  import opened Wrappers
  import opened Enums
  import opened Msal
  import opened Interfaces
  import opened Redux
  import opened TokenResponses
  import AA = AuthenticationActions

  /** Everything a creator of this package can put into `payload`. */
  datatype Payload =
    | AccountInfoPayload(info: AccountInfo)
    | ErrorPayload(error: AuthError)
    | IdTokenPayload(idToken: IdTokenResponse)
    | AccessTokenPayload(accessToken: AccessTokenResponse)
    | StatePayload(state: AuthenticationState)

  type AuthAction = Action<Payload>

  /** The action of kind `k` carrying `payload`. */
  function Make(k: AA.ActionKind, payload: Option<Payload>): (a: AuthAction)
    ensures AA.KindOf(a.actionType) == Some(k)
    ensures a.payload == payload
  {
    AA.KindOfTag(k);
    Action(AA.Tag(k), payload)
  }

  function Initializing(): (a: AuthAction)
    ensures AA.KindOf(a.actionType) == Some(AA.Initializing) && a.payload == None
  {
    Make(AA.Initializing, None)
  }

  function Initialized(): (a: AuthAction)
    ensures AA.KindOf(a.actionType) == Some(AA.Initialized) && a.payload == None
  {
    Make(AA.Initialized, None)
  }

  function LoginSuccessful(data: AccountInfo): (a: AuthAction)
    ensures AA.KindOf(a.actionType) == Some(AA.LoginSuccess) && a.payload == Some(AccountInfoPayload(data))
  {
    Make(AA.LoginSuccess, Some(AccountInfoPayload(data)))
  }

  function LoginFailed(): (a: AuthAction)
    ensures AA.KindOf(a.actionType) == Some(AA.LoginFailed) && a.payload == None
  {
    Make(AA.LoginFailed, None)
  }

  function LoginError(error: AuthError): (a: AuthAction)
    ensures AA.KindOf(a.actionType) == Some(AA.LoginError) && a.payload == Some(ErrorPayload(error))
  {
    Make(AA.LoginError, Some(ErrorPayload(error)))
  }

  function ClearError(): (a: AuthAction)
    ensures AA.KindOf(a.actionType) == Some(AA.ClearError) && a.payload == None
  {
    Make(AA.ClearError, None)
  }

  function LogoutSuccessful(): (a: AuthAction)
    ensures AA.KindOf(a.actionType) == Some(AA.LogoutSuccess) && a.payload == None
  {
    Make(AA.LogoutSuccess, None)
  }

  function AcquireIdTokenSuccess(token: IdTokenResponse): (a: AuthAction)
    ensures AA.KindOf(a.actionType) == Some(AA.AcquiredIdTokenSuccess) && a.payload == Some(IdTokenPayload(token))
  {
    Make(AA.AcquiredIdTokenSuccess, Some(IdTokenPayload(token)))
  }

  function AcquireIdTokenError(error: AuthError): (a: AuthAction)
    ensures AA.KindOf(a.actionType) == Some(AA.AcquiredIdTokenError) && a.payload == Some(ErrorPayload(error))
  {
    Make(AA.AcquiredIdTokenError, Some(ErrorPayload(error)))
  }

  function AcquireAccessTokenSuccess(token: AccessTokenResponse): (a: AuthAction)
    ensures AA.KindOf(a.actionType) == Some(AA.AcquiredAccessTokenSuccess) && a.payload == Some(AccessTokenPayload(token))
  {
    Make(AA.AcquiredAccessTokenSuccess, Some(AccessTokenPayload(token)))
  }

  function AcquireAccessTokenError(error: AuthError): (a: AuthAction)
    ensures AA.KindOf(a.actionType) == Some(AA.AcquiredAccessTokenError) && a.payload == Some(ErrorPayload(error))
  {
    Make(AA.AcquiredAccessTokenError, Some(ErrorPayload(error)))
  }

  function AuthenticatedStateChanged(state: AuthenticationState): (a: AuthAction)
    ensures AA.KindOf(a.actionType) == Some(AA.AuthenticatedStateChanged) && a.payload == Some(StatePayload(state))
  {
    Make(AA.AuthenticatedStateChanged, Some(StatePayload(state)))
  }

  /** The creator of each kind, applied to the given arguments: every kind
      of the enumeration has exactly one creator. */
  function CreatorOf(k: AA.ActionKind, info: AccountInfo, error: AuthError, idToken: IdTokenResponse,
                     accessToken: AccessTokenResponse, state: AuthenticationState): (a: AuthAction)
    ensures AA.KindOf(a.actionType) == Some(k)
  {
    match k
    case Initializing => Initializing()
    case Initialized => Initialized()
    case LoginSuccess => LoginSuccessful(info)
    case LoginFailed => LoginFailed()
    case LoginError => LoginError(error)
    case ClearError => ClearError()
    case LogoutSuccess => LogoutSuccessful()
    case AcquiredIdTokenSuccess => AcquireIdTokenSuccess(idToken)
    case AcquiredIdTokenError => AcquireIdTokenError(error)
    case AcquiredAccessTokenSuccess => AcquireAccessTokenSuccess(accessToken)
    case AcquiredAccessTokenError => AcquireAccessTokenError(error)
    case AuthenticatedStateChanged => AuthenticatedStateChanged(state)
  }

  /** Distinct creators yield distinct `type` tags, whatever their arguments. */
  lemma CreatorsDistinct(k1: AA.ActionKind, k2: AA.ActionKind, info1: AccountInfo, info2: AccountInfo,
                         e1: AuthError, e2: AuthError, idt1: IdTokenResponse, idt2: IdTokenResponse,
                         at1: AccessTokenResponse, at2: AccessTokenResponse,
                         s1: AuthenticationState, s2: AuthenticationState)
    ensures CreatorOf(k1, info1, e1, idt1, at1, s1).actionType == CreatorOf(k2, info2, e2, idt2, at2, s2).actionType
            <==> k1 == k2
  {
  }
}
