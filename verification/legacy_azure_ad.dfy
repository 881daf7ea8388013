/** The legacy `AzureAD` component of src/AzureAD.tsx. It talks to a provider
    whose interface (account info, store registration) is not the legacy
    provider's, so its requests to the provider are logged rather than
    carried out. */
module LegacyBinding {
  import opened Wrappers
  import opened LegacyInterfaces
  import opened Binding

  /** The render `switch`: the authenticated function's element or else the
      children when authenticated, the unauthenticated function's element
      when unauthenticated, and nothing otherwise. */
  function Render(state: LegacyState, authFn: FnProp, unauthFn: FnProp, hasChildren: bool): (r: Rendered)
    ensures !r.ChildrenFnResult?
  {
    match state
    case Authenticated =>
      if authFn == ReturnsElement then AuthFnResult
      else if hasChildren then StaticChildrenShown
      else Nothing
    case Unauthenticated =>
      if unauthFn == ReturnsElement then UnauthFnResult else Nothing
    case Authenticating => Nothing
  }

  /** Each callback's element is shown exactly in its own state, and the
      children exactly when authenticated without an element from the
      authenticated function. */
  lemma RenderSelection(state: LegacyState, authFn: FnProp, unauthFn: FnProp, hasChildren: bool)
    ensures Render(state, authFn, unauthFn, hasChildren) == AuthFnResult <==>
      state == Authenticated && authFn == ReturnsElement
    ensures Render(state, authFn, unauthFn, hasChildren) == UnauthFnResult <==>
      state == Unauthenticated && unauthFn == ReturnsElement
    ensures Render(state, authFn, unauthFn, hasChildren) == StaticChildrenShown <==>
      state == Authenticated && authFn != ReturnsElement && hasChildren
    ensures state == Authenticating ==> Render(state, authFn, unauthFn, hasChildren) == Nothing
  {
  }

  /** What the component asks of its provider. */
  datatype ProviderRequest = InstallHandlers | RegisterStore | LoginRequest | LogoutRequest

  /** The requests the constructor makes: install its two handlers, register
      the store when one is given, and log in when forced to while
      unauthenticated. */
  function ConstructorRequests(state: LegacyState, forceLogin: bool, hasStore: bool): (rs: seq<ProviderRequest>)
    ensures |rs| >= 1 && rs[0] == InstallHandlers
    ensures RegisterStore in rs <==> hasStore
    ensures LoginRequest in rs <==> state == Unauthenticated && forceLogin
    ensures LogoutRequest !in rs
  {
    [InstallHandlers] + (if hasStore then [RegisterStore] else []) +
    (if state == Unauthenticated && forceLogin then [LoginRequest] else [])
  }

  class LegacyAzureAD {
    const forceLogin: bool
    const hasStore: bool
    const hasAccountInfoCallback: bool
    var authenticationState: LegacyState
    var requests: seq<ProviderRequest>
    var accountInfoCallbackCalls: seq<UserInfo>

    /** The account callback is invoked only when one is given, and the
        store is registered only when one is given. */
    ghost predicate Valid()
      reads this
    {
      (!hasAccountInfoCallback ==> accountInfoCallbackCalls == []) &&
      (RegisterStore in requests ==> hasStore)
    }

    /** The component starts from the provider's state; an authenticated
        provider's account info goes to the callback at once. */
    constructor (providerState: LegacyState, accountInfo: Option<UserInfo>, forceLogin: bool, hasStore: bool,
                 hasAccountInfoCallback: bool)
      ensures Valid()
      ensures authenticationState == providerState
      ensures requests == ConstructorRequests(providerState, forceLogin, hasStore)
      ensures accountInfoCallbackCalls ==
        if providerState == Authenticated && accountInfo.Some? && hasAccountInfoCallback then [accountInfo.value] else []
      ensures this.forceLogin == forceLogin && this.hasStore == hasStore
      ensures this.hasAccountInfoCallback == hasAccountInfoCallback
    {
      this.forceLogin := forceLogin;
      this.hasStore := hasStore;
      this.hasAccountInfoCallback := hasAccountInfoCallback;
      authenticationState := providerState;
      requests := [InstallHandlers];
      accountInfoCallbackCalls := [];
      new;
      if hasStore {
        requests := requests + [RegisterStore];
      }
      if providerState == Authenticated {
        if accountInfo.Some? && hasAccountInfoCallback {
          OnAccountInfoChanged(accountInfo.value);
        }
      } else if providerState == Unauthenticated {
        if forceLogin {
          Login();
        }
      }
    }

    /** The state handler: equal states are ignored; a change to
        unauthenticated logs in again when forced to. */
    method SetAuthenticationState(newState: LegacyState)
      requires Valid()
      modifies this
      ensures Valid()
      ensures authenticationState == newState
      ensures requests == old(requests) +
        if newState != old(authenticationState) && newState == Unauthenticated && forceLogin then [LoginRequest] else []
      ensures accountInfoCallbackCalls == old(accountInfoCallbackCalls)
    {
      if newState != authenticationState {
        authenticationState := newState;
        if newState == Unauthenticated && forceLogin {
          Login();
        }
      }
    }

    /** The account handler forwards to the callback only when one is
        given. */
    method OnAccountInfoChanged(newAccountInfo: UserInfo)
      requires Valid()
      modifies this
      ensures Valid()
      ensures accountInfoCallbackCalls ==
        old(accountInfoCallbackCalls) + if hasAccountInfoCallback then [newAccountInfo] else []
      ensures authenticationState == old(authenticationState) && requests == old(requests)
    {
      if hasAccountInfoCallback {
        accountInfoCallbackCalls := accountInfoCallbackCalls + [newAccountInfo];
      }
    }

    /** The `login` handed to the unauthenticated function. */
    method Login()
      requires Valid()
      modifies this
      ensures Valid()
      ensures requests == old(requests) + [LoginRequest]
      ensures authenticationState == old(authenticationState) && accountInfoCallbackCalls == old(accountInfoCallbackCalls)
    {
      requests := requests + [LoginRequest];
    }

    /** The `logout` handed to the authenticated function: only an
        authenticated user is logged out. */
    method Logout()
      requires Valid()
      modifies this
      ensures Valid()
      ensures requests == old(requests) + if authenticationState == Authenticated then [LogoutRequest] else []
      ensures authenticationState == old(authenticationState) && accountInfoCallbackCalls == old(accountInfoCallbackCalls)
    {
      if authenticationState != Authenticated {
        return;
      }
      requests := requests + [LogoutRequest];
    }
  }
}
