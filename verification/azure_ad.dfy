/** The `AzureAD` component of
    packages/react-aad-msal/src/components/AzureAD.tsx. The render selection
    is a pure function from the component's state and props to what it
    renders; the hook state and the effect are a class that holds the
    provider it is bound to and calls its methods. */
module Binding {
  import opened Wrappers
  import opened Enums
  import opened Msal
  import opened Interfaces
  import opened ProviderModel
  import Provider
  import ProviderProperties

  /** A render callback prop: absent, present and returning nothing
      renderable (a falsy value), or present and returning an element. */
  datatype FnProp = Absent | ReturnsNothing | ReturnsElement

  /** The `children` prop: missing (or falsy), a function of the component's
      props, or static content. */
  datatype Children = NoChildren | FunctionChildren | StaticChildren

  /** What a children function receives besides `login` and `logout`. */
  datatype FunctionProps = FunctionProps(accountInfo: Option<AccountInfo>, state: AuthenticationState,
                                         error: Option<AuthError>)

  /** What the component renders. */
  datatype Rendered =
    | AuthFnResult
    | UnauthFnResult
    | ChildrenFnResult(props: FunctionProps)
    | StaticChildrenShown
    | Nothing

  predicate IsChildrenFunction(children: Children)
  {
    children == FunctionChildren
  }

  /** `getChildrenOrFunction`: nothing for missing children, the function
      applied to the props, or the static children unchanged. */
  function GetChildrenOrFunction(children: Children, props: FunctionProps): (r: Rendered)
    ensures r == Nothing <==> children == NoChildren
    ensures r.ChildrenFnResult? <==> IsChildrenFunction(children)
    ensures r.ChildrenFnResult? ==> r.props == props
  {
    match children
    case NoChildren => Nothing
    case FunctionChildren => ChildrenFnResult(props)
    case StaticChildren => StaticChildrenShown
  }

  /** The render `switch`. */
  function Render(state: AuthenticationState, authFn: FnProp, unauthFn: FnProp, children: Children,
                  props: FunctionProps): (r: Rendered)
    ensures r != StaticChildrenShown || state == Authenticated
    ensures r.ChildrenFnResult? ==> r.props == props
  {
    match state
    case Authenticated =>
      if authFn == ReturnsElement then AuthFnResult else GetChildrenOrFunction(children, props)
    case Unauthenticated =>
      if unauthFn != Absent then
        (if unauthFn == ReturnsElement then UnauthFnResult else Nothing)
      else if IsChildrenFunction(children) then GetChildrenOrFunction(children, props)
      else Nothing
    case InProgress =>
      if IsChildrenFunction(children) then GetChildrenOrFunction(children, props) else Nothing
  }

  /** The authenticated function's element is rendered exactly when the user
      is authenticated and the function returns one. */
  lemma RenderAuthFn(state: AuthenticationState, authFn: FnProp, unauthFn: FnProp, children: Children, props: FunctionProps)
    ensures Render(state, authFn, unauthFn, children, props) == AuthFnResult <==>
      state == Authenticated && authFn == ReturnsElement
  {
  }

  /** The unauthenticated function's element is rendered exactly when the
      user is unauthenticated and the function returns one. */
  lemma RenderUnauthFn(state: AuthenticationState, authFn: FnProp, unauthFn: FnProp, children: Children, props: FunctionProps)
    ensures Render(state, authFn, unauthFn, children, props) == UnauthFnResult <==>
      state == Unauthenticated && unauthFn == ReturnsElement
  {
  }

  /** A children function is applied, to the component's props, exactly when
      the children are a function and no callback prop takes precedence:
      authenticated without an element from the authenticated function,
      unauthenticated without an unauthenticated function, or in progress. */
  lemma RenderChildrenFunction(state: AuthenticationState, authFn: FnProp, unauthFn: FnProp, children: Children,
                               props: FunctionProps)
    ensures Render(state, authFn, unauthFn, children, props).ChildrenFnResult? <==>
      children == FunctionChildren &&
      ((state == Authenticated && authFn != ReturnsElement) ||
       (state == Unauthenticated && unauthFn == Absent) ||
       state == InProgress)
    ensures Render(state, authFn, unauthFn, children, props).ChildrenFnResult? ==>
      Render(state, authFn, unauthFn, children, props).props == props
  {
  }

  /** Static children are rendered only when authenticated, and then exactly
      when the authenticated function does not supply an element. */
  lemma RenderStaticChildren(state: AuthenticationState, authFn: FnProp, unauthFn: FnProp, children: Children,
                             props: FunctionProps)
    ensures Render(state, authFn, unauthFn, children, props) == StaticChildrenShown <==>
      state == Authenticated && authFn != ReturnsElement && children == StaticChildren
  {
  }

  /** Whether the mount effect asks the provider to log in. */
  predicate LoginOnMount(forceLogin: bool, state: AuthenticationState, error: Option<AuthError>)
  {
    forceLogin && state == Unauthenticated && error.None?
  }

  /** Whether the state handler asks the provider to log in. */
  predicate LoginOnChange(current: AuthenticationState, newState: AuthenticationState, forceLogin: bool,
                          error: Option<AuthError>)
  {
    newState != current && newState == Unauthenticated && forceLogin && error.None?
  }

  /** The answers of the authentication client to one login request. */
  datatype LoginOutcomes = LoginOutcomes(loginFailure: Option<AuthError>, account: Option<Account>,
                                         loginInProgress: bool, silent: Outcome, popup: Outcome)

  /** The provider's state after the component's `login` callback. */
  function LoginEffect(s: Snapshot, o: LoginOutcomes): (r: Snapshot)
    ensures Preserves(s, r)
  {
    ProviderModel.Login(s, None, o.loginFailure, o.account, o.loginInProgress, o.silent, o.popup)
  }

  /** The provider's state after the mount effect. */
  function MountEffect(s: Snapshot, stateId: HandlerId, accountId: HandlerId, errorId: HandlerId, hasStore: bool,
                       requestLogin: bool, o: LoginOutcomes): (r: Snapshot)
    requires s.state.Some?
    ensures r.stateHandlers == Add(s.stateHandlers, stateId)
    ensures r.accountHandlers == Add(s.accountHandlers, accountId)
    ensures r.errorHandlers == Add(s.errorHandlers, errorId)
    ensures r.storeRegistered == (s.storeRegistered || hasStore)
  {
    var s1 := RegisterErrorHandler(RegisterAccountInfoHandler(RegisterStateHandler(s, stateId), accountId), errorId);
    var s2 := if hasStore then RegisterStore(s1) else s1;
    if requestLogin then LoginEffect(s2, o) else s2
  }

  /** The provider's state after the effect's cleanup. */
  function CleanupEffect(s: Snapshot, stateId: HandlerId, accountId: HandlerId, errorId: HandlerId): (r: Snapshot)
    ensures r.stateHandlers == Remove(s.stateHandlers, stateId)
    ensures r.accountHandlers == Remove(s.accountHandlers, accountId)
    ensures r.errorHandlers == Remove(s.errorHandlers, errorId)
  {
    UnregisterErrorHandler(UnregisterAccountInfoHandler(UnregisterStateHandler(s, stateId), accountId), errorId)
  }

  /** The cleanup removes exactly the three handlers the effect added: a
      mount followed by a cleanup leaves the provider's handler sets as they
      were. */
  lemma CleanupUndoesMount(s: Snapshot, stateId: HandlerId, accountId: HandlerId, errorId: HandlerId, hasStore: bool,
                           requestLogin: bool, o: LoginOutcomes)
    requires s.state.Some?
    requires stateId !in s.stateHandlers && accountId !in s.accountHandlers && errorId !in s.errorHandlers
    ensures var r := CleanupEffect(MountEffect(s, stateId, accountId, errorId, hasStore, requestLogin, o),
                                   stateId, accountId, errorId);
      r.stateHandlers == s.stateHandlers && r.accountHandlers == s.accountHandlers && r.errorHandlers == s.errorHandlers
  {
    ProviderProperties.RemoveAdded(s.stateHandlers, stateId);
    ProviderProperties.RemoveAdded(s.accountHandlers, accountId);
    ProviderProperties.RemoveAdded(s.errorHandlers, errorId);
  }

  /** The component's hook state and its bound provider. The provider
      invokes the component's three handlers, `stateId`, `accountId` and
      `errorId`; here the environment calls the corresponding methods.
      `accountInfoCallbackCalls` logs the deprecated account-info callback. */
  class AzureAD {
    const provider: Provider.MsalAuthProvider
    const forceLogin: bool
    const hasStore: bool
    const hasAccountInfoCallback: bool
    const stateId: HandlerId
    const accountId: HandlerId
    const errorId: HandlerId
    var authenticationState: AuthenticationState
    var accountInfo: Option<AccountInfo>
    var error: Option<AuthError>
    var accountInfoCallbackCalls: seq<Option<AccountInfo>>
    /** How many times the component has asked the provider to log in. */
    var loginRequests: nat

    predicate Valid()
      reads this, provider
    {
      provider.Valid()
    }

    /** The hook state starts from the provider's current values. */
    constructor (provider: Provider.MsalAuthProvider, forceLogin: bool, hasStore: bool, hasAccountInfoCallback: bool,
                 stateId: HandlerId, accountId: HandlerId, errorId: HandlerId)
      requires provider.Valid()
      ensures Valid()
      ensures authenticationState == provider.authenticationState.value
      ensures accountInfo == provider.accountInfo && error == provider.error
      ensures accountInfoCallbackCalls == [] && loginRequests == 0
    {
      this.provider := provider;
      this.forceLogin := forceLogin;
      this.hasStore := hasStore;
      this.hasAccountInfoCallback := hasAccountInfoCallback;
      this.stateId := stateId;
      this.accountId := accountId;
      this.errorId := errorId;
      authenticationState := provider.authenticationState.value;
      accountInfo := provider.accountInfo;
      error := provider.error;
      accountInfoCallbackCalls := [];
      loginRequests := 0;
    }

    /** The mount effect: register the three handlers, the store when one
        is given, and log in when forced to while unauthenticated without an
        error. */
    method Mount(o: LoginOutcomes)
      requires Valid()
      modifies this, provider
      ensures Valid()
      ensures provider.Snap() == MountEffect(old(provider.Snap()), stateId, accountId, errorId, hasStore,
                                             LoginOnMount(forceLogin, authenticationState, error), o)
      ensures loginRequests == old(loginRequests) + if LoginOnMount(forceLogin, authenticationState, error) then 1 else 0
      ensures authenticationState == old(authenticationState) && error == old(error) && accountInfo == old(accountInfo)
    {
      provider.RegisterAuthenticationStateHandler(stateId);
      provider.RegisterAccountInfoHandler(accountId);
      provider.RegisterErrorHandler(errorId);
      if hasStore {
        provider.RegisterReduxStore();
      }
      if forceLogin && authenticationState == Unauthenticated && error.None? {
        Login(o);
      }
    }

    /** The effect's cleanup. */
    method Cleanup()
      requires Valid()
      modifies provider
      ensures Valid()
      ensures provider.Snap() == CleanupEffect(old(provider.Snap()), stateId, accountId, errorId)
    {
      provider.UnregisterAuthenticationStateHandler(stateId);
      provider.UnregisterAccountInfoHandler(accountId);
      provider.UnregisterErrorHandler(errorId);
    }

    method Login(o: LoginOutcomes)
      requires Valid()
      modifies this, provider
      ensures Valid()
      ensures provider.Snap() == LoginEffect(old(provider.Snap()), o)
      ensures loginRequests == old(loginRequests) + 1
      ensures authenticationState == old(authenticationState) && error == old(error) && accountInfo == old(accountInfo)
    {
      loginRequests := loginRequests + 1;
      provider.Login(None, o.loginFailure, o.account, o.loginInProgress, o.silent, o.popup);
    }

    /** The exposed `logout`: only an authenticated user is logged out. */
    method Logout()
      requires Valid()
      modifies provider
      ensures Valid()
      ensures provider.Snap() == if authenticationState == Authenticated then ProviderModel.Logout(old(provider.Snap()))
                                 else old(provider.Snap())
    {
      if authenticationState != Authenticated {
        return;
      }
      provider.Logout();
    }

    /** The state handler: a new value is stored, and a change to
        unauthenticated logs in again when forced to and there is no error. */
    method SetAuthenticationState(newState: AuthenticationState, o: LoginOutcomes)
      requires Valid()
      modifies this, provider
      ensures Valid()
      ensures authenticationState == newState && error == old(error) && accountInfo == old(accountInfo)
      ensures provider.Snap() == if LoginOnChange(old(authenticationState), newState, forceLogin, error)
                                 then LoginEffect(old(provider.Snap()), o) else old(provider.Snap())
      ensures loginRequests == old(loginRequests) +
        if LoginOnChange(old(authenticationState), newState, forceLogin, error) then 1 else 0
    {
      if newState != authenticationState {
        authenticationState := newState;
        if newState == Unauthenticated && forceLogin && error.None? {
          Login(o);
        }
      }
    }

    /** The error handler: only a different error is stored. */
    method SetError(newError: Option<AuthError>)
      modifies this
      ensures error == newError
      ensures authenticationState == old(authenticationState) && accountInfo == old(accountInfo)
      ensures loginRequests == old(loginRequests) && accountInfoCallbackCalls == old(accountInfoCallbackCalls)
    {
      if newError != error {
        error := newError;
      }
    }

    /** The account handler: store the record and forward it to the
        deprecated callback when one is given. */
    method OnAccountInfoChanged(newAccountInfo: Option<AccountInfo>)
      modifies this
      ensures accountInfo == newAccountInfo
      ensures accountInfoCallbackCalls ==
        old(accountInfoCallbackCalls) + if hasAccountInfoCallback then [newAccountInfo] else []
      ensures authenticationState == old(authenticationState) && error == old(error) && loginRequests == old(loginRequests)
    {
      accountInfo := newAccountInfo;
      if hasAccountInfoCallback {
        accountInfoCallbackCalls := accountInfoCallbackCalls + [newAccountInfo];
      }
    }

    /** What the component renders now. */
    function View(authFn: FnProp, unauthFn: FnProp, children: Children): (r: Rendered)
      reads this
      ensures r.ChildrenFnResult? ==> r.props == FunctionProps(accountInfo, authenticationState, error)
      ensures r == StaticChildrenShown ==> authenticationState == Authenticated
      ensures r == AuthFnResult <==> authenticationState == Authenticated && authFn == ReturnsElement
      ensures r == UnauthFnResult <==> authenticationState == Unauthenticated && unauthFn == ReturnsElement
    {
      Render(authenticationState, authFn, unauthFn, children, FunctionProps(accountInfo, authenticationState, error))
    }
  }
}
