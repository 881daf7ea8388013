/** The provider object of packages/react-aad-msal/src/MsalAuthProvider.ts.
    Its fields are the provider's own; each method updates them as the
    source's member does and is proved to leave exactly the state the
    corresponding function of `ProviderModel` describes. The client calls it
    would make are appended to `calls`, and what the client answers is passed
    in as `Outcome` parameters (`silent` for a silent token acquisition,
    `popup` for an interactive one). */
module Provider {
  import opened Wrappers
  import opened Enums
  import opened Msal
  import opened Interfaces
  import opened TokenResponses
  import opened ProviderModel
  import AC = AuthenticationActionCreators

  class MsalAuthProvider {
    var authenticationState: Option<AuthenticationState>
    var accountInfo: Option<AccountInfo>
    var error: Option<AuthError>
    var storeRegistered: bool
    /** The actions the registered store has received. */
    var delivered: seq<AuthAction>
    var actionQueue: seq<AuthAction>
    var stateHandlers: seq<HandlerId>
    var accountHandlers: seq<HandlerId>
    var errorHandlers: seq<HandlerId>
    /** The handler invocations so far, in order. */
    var notifications: seq<Notification>
    /** The calls made to the authentication client so far, in order. */
    var calls: seq<MsalCall>
    var parameters: AuthParams
    var options: ProviderOptions
    const clientId: string

    /** The provider's whole state as a value. */
    function Snap(): Snapshot
      reads this
    {
      Snapshot(authenticationState, accountInfo, error, storeRegistered, delivered, actionQueue,
               stateHandlers, accountHandlers, errorHandlers, notifications, calls, parameters, options, clientId)
    }

    /** A constructed provider: the model's invariant holds and the state is defined. */
    predicate Valid()
      reads this
    {
      Inv(Snap()) && authenticationState.Some?
    }

    /** The constructor: store the parameters and the options (the default
        ones when none are given, `origin` being the page's origin), then
        initialize with what the client reports about a cached account and a
        login in progress. */
    constructor (clientId: string, parameters: AuthParams, options: Option<ProviderOptions>, origin: string,
                 account: Option<Account>, loginInProgress: bool, silent: Outcome, popup: Outcome)
      ensures Valid()
      ensures Snap() == Construct(clientId, parameters, options, origin, account, loginInProgress, silent, popup)
    {
      var chosen := OptionsOrDefault(options, origin);
      this.clientId := clientId;
      this.parameters := parameters;
      this.options := chosen;
      authenticationState := None;
      accountInfo := None;
      error := None;
      storeRegistered := false;
      delivered := [];
      actionQueue := [];
      stateHandlers := [];
      accountHandlers := [];
      errorHandlers := [];
      notifications := [];
      calls := [];
      new;
      SetProviderOptions(chosen);
      InitializeProvider(account, loginInProgress, silent, popup);
    }

    // -------------------------------------------------------------------------
    // Public members

    method Login(arg: Option<AuthParams>, loginFailure: Option<AuthError>, account: Option<Account>,
                 loginInProgress: bool, silent: Outcome, popup: Outcome)
      requires Valid()
      modifies this
      ensures Valid()
      ensures Snap() == ProviderModel.Login(old(Snap()), arg, loginFailure, account, loginInProgress, silent, popup)
    {
      PreservesKeepsInv(Snap(), ProviderModel.Login(Snap(), arg, loginFailure, account, loginInProgress, silent, popup));
      var params := if arg.Some? then arg.value else parameters;
      if IsStaleError(error) {
        SetError(None);
      }
      if options.loginType == Redirect {
        StartLogin(LoginRedirect(params), loginFailure);
      } else {
        StartLogin(LoginPopup(params), loginFailure);
        ProcessLogin(account, loginInProgress, silent, popup);
      }
    }

    method Logout()
      requires Valid()
      modifies this
      ensures Valid()
      ensures Snap() == ProviderModel.Logout(old(Snap()))
    {
      calls := calls + [Msal.Logout];
      DispatchAction(AC.LogoutSuccessful());
      PreservesKeepsInv(old(Snap()), Snap());
    }

    method GetAccessToken(arg: Option<AuthParams>, silent: Outcome, popup: Outcome)
      returns (result: Result<AccessTokenResponse, AuthError>)
      modifies this
      ensures old(Valid()) ==> Valid()
      ensures (Snap(), result) == ProviderModel.GetAccessToken(old(Snap()), arg, silent, popup)
    {
      ghost var s0 := Snap();
      PreservesKeepsInv(s0, ProviderModel.GetAccessToken(s0, arg, silent, popup).0);
      var params := if arg.Some? then arg.value else parameters;
      params := params.(redirectUri := if arg.Some? && Truthy(arg.value.redirectUri) then arg.value.redirectUri
                                       else options.tokenRefreshUri);
      assert params == AccessTokenParams(s0, arg);
      if arg.None? {
        parameters := params;
      }
      calls := calls + [AcquireTokenSilent(params)];
      ghost var s1 := Snap();
      match silent {
        case Succeeded(response) =>
          result := AcceptAccessToken(response, params, popup);
        case Failed(e) =>
          result := RecoverAccessToken(e, params, popup);
      }
    }

    /** `account` is what the client reports as its cached account. */
    method GetIdToken(arg: Option<AuthParams>, account: Option<Account>, silent: Outcome, popup: Outcome)
      returns (result: Result<IdTokenResponse, AuthError>)
      modifies this
      ensures old(Valid()) ==> Valid()
      ensures (Snap(), result) == ProviderModel.GetIdToken(old(Snap()), arg, account, silent, popup)
    {
      PreservesKeepsInv(Snap(), ProviderModel.GetIdToken(Snap(), arg, account, silent, popup).0);
      var params := if arg.Some? then arg.value else parameters;
      params := params.(redirectUri := if arg.Some? && Truthy(arg.value.redirectUri) then arg.value.redirectUri
                                       else options.tokenRefreshUri,
                        scopes := [clientId]);
      if account.Some? && (arg.None? || !Truthy(arg.value.loginHint)) {
        params := params.(loginHint := Some(account.value.userName));
      }
      assert params == IdTokenParams(old(Snap()), arg, account);
      calls := calls + [AcquireTokenSilent(params)];
      ghost var s1 := Snap();
      match silent {
        case Succeeded(response) =>
          result := AcceptIdToken(response, popup);
        case Failed(e) =>
          result := RecoverIdToken(e, popup);
      }
    }

    method SetAuthenticationParameters(p: AuthParams)
      requires Valid()
      modifies this
      ensures Valid()
      ensures Snap() == old(Snap()).(parameters := p)
    {
      parameters := p;
    }

    method SetProviderOptions(options: ProviderOptions)
      modifies this
      ensures Snap() == ProviderModel.SetProviderOptions(old(Snap()), options)
      ensures old(Valid()) ==> Valid()
    {
      this.options := options;
      if options.loginType == Redirect {
        calls := calls + [HandleRedirectCallback];
      }
    }

    /** Registering the store hands it the queued actions, oldest first. */
    method RegisterReduxStore()
      requires Valid()
      modifies this
      ensures Valid()
      ensures Snap() == RegisterStore(old(Snap()))
    {
      storeRegistered := true;
      while |actionQueue| > 0
        invariant storeRegistered
        invariant delivered + actionQueue == old(delivered) + old(actionQueue)
        invariant Snap() == old(Snap()).(storeRegistered := true, delivered := delivered, queue := actionQueue)
        decreases |actionQueue|
      {
        var action := actionQueue[0];
        actionQueue := actionQueue[1..];
        DispatchAction(action);
      }
    }

    method RegisterAuthenticationStateHandler(h: HandlerId)
      requires Valid()
      modifies this
      ensures Valid()
      ensures Snap() == RegisterStateHandler(old(Snap()), h)
    {
      stateHandlers := Add(stateHandlers, h);
      notifications := notifications + [Notification(h, StateEvent(authenticationState.value))];
    }

    method UnregisterAuthenticationStateHandler(h: HandlerId)
      requires Valid()
      modifies this
      ensures Valid()
      ensures Snap() == UnregisterStateHandler(old(Snap()), h)
    {
      stateHandlers := Remove(stateHandlers, h);
    }

    method RegisterAccountInfoHandler(h: HandlerId)
      requires Valid()
      modifies this
      ensures Valid()
      ensures Snap() == ProviderModel.RegisterAccountInfoHandler(old(Snap()), h)
    {
      accountHandlers := Add(accountHandlers, h);
      notifications := notifications + [Notification(h, AccountEvent(accountInfo))];
    }

    method UnregisterAccountInfoHandler(h: HandlerId)
      requires Valid()
      modifies this
      ensures Valid()
      ensures Snap() == ProviderModel.UnregisterAccountInfoHandler(old(Snap()), h)
    {
      accountHandlers := Remove(accountHandlers, h);
    }

    method RegisterErrorHandler(h: HandlerId)
      requires Valid()
      modifies this
      ensures Valid()
      ensures Snap() == ProviderModel.RegisterErrorHandler(old(Snap()), h)
    {
      errorHandlers := Add(errorHandlers, h);
      notifications := notifications + [Notification(h, ErrorEvent(error))];
    }

    method UnregisterErrorHandler(h: HandlerId)
      requires Valid()
      modifies this
      ensures Valid()
      ensures Snap() == ProviderModel.UnregisterErrorHandler(old(Snap()), h)
    {
      errorHandlers := Remove(errorHandlers, h);
    }

    /** Invoked by the client when a redirect flow comes back. */
    method AuthenticationRedirectCallback(e: Option<AuthError>, account: Option<Account>, loginInProgress: bool,
                                          silent: Outcome, popup: Outcome)
      requires Valid()
      modifies this
      ensures Valid()
      ensures Snap() == RedirectCallback(old(Snap()), e, account, loginInProgress, silent, popup)
    {
      if e.Some? {
        SetError(e);
      }
      ProcessLogin(account, loginInProgress, silent, popup);
      PreservesKeepsInv(old(Snap()), Snap());
    }

    // -------------------------------------------------------------------------
    // Private members

    /** Invoke every handler in `hs`, in order, with `e`. */
    method Notify(hs: seq<HandlerId>, e: Event)
      modifies this
      ensures Snap() == old(Snap()).(notifications := old(notifications) + Fanout(hs, e))
    {
      var i := 0;
      while i < |hs|
        invariant 0 <= i <= |hs|
        invariant Snap() == old(Snap()).(notifications := old(notifications) + Fanout(hs[..i], e))
      {
        assert Fanout(hs[..i + 1], e) == Fanout(hs[..i], e) + [Notification(hs[i], e)];
        notifications := notifications + [Notification(hs[i], e)];
        i := i + 1;
      }
      assert hs[..|hs|] == hs;
    }

    method DispatchAction(a: AuthAction)
      modifies this
      ensures Snap() == Dispatch(old(Snap()), a)
    {
      if storeRegistered {
        delivered := delivered + [a];
      } else {
        actionQueue := actionQueue + [a];
      }
    }

    method SetAuthenticationState(x: AuthenticationState)
      modifies this
      ensures Snap() == SetState(old(Snap()), x)
    {
      if authenticationState != Some(x) {
        authenticationState := Some(x);
        DispatchAction(AC.AuthenticatedStateChanged(x));
        Notify(stateHandlers, StateEvent(x));
      }
    }

    method SetError(e: Option<AuthError>)
      modifies this
      ensures Snap() == ProviderModel.SetError(old(Snap()), e)
    {
      error := e;
      if e.Some? {
        DispatchAction(AC.LoginError(e.value));
      }
      Notify(errorHandlers, ErrorEvent(e));
    }

    method SetAccountInfo(response: AuthResponse)
      modifies this
      ensures Snap() == ProviderModel.SetAccountInfo(old(Snap()), response)
    {
      var info := if accountInfo.Some? then accountInfo.value else AccountInfo(response.account, None, None);
      if response.tokenType == IdToken {
        info := info.(jwtIdToken := Some(response.idToken.rawIdToken));
      } else if response.tokenType == AccessToken {
        info := info.(jwtAccessToken := Some(response.accessToken));
      }
      accountInfo := Some(info);
      Notify(accountHandlers, AccountEvent(Some(info)));
    }

    method HandleAcquireTokenSuccess(response: AuthResponse)
      modifies this
      ensures Snap() == ProviderModel.HandleAcquireTokenSuccess(old(Snap()), response)
    {
      SetAccountInfo(response);
      if response.tokenType == IdToken {
        var token := NewIdTokenResponse(response);
        DispatchAction(AC.AcquireIdTokenSuccess(token.value));
      } else if response.tokenType == AccessToken {
        var token := NewAccessTokenResponse(response);
        DispatchAction(AC.AcquireAccessTokenSuccess(token.value));
      }
    }

    /** The `catch` block of `getAccessToken`. */
    method RecoverAccessToken(failure: AuthError, params: AuthParams, popup: Outcome)
      returns (result: Result<AccessTokenResponse, AuthError>)
      modifies this
      ensures (Snap(), result) == ProviderModel.RecoverAccessToken(old(Snap()), failure, params, popup)
    {
      DispatchAction(AC.AcquireAccessTokenError(failure));
      var refreshed := LoginToRefreshToken(failure, params, popup);
      match refreshed {
        case Failure(e) =>
          result := Failure(e);
        case Success(None) =>
          result := Failure(MissingResponseError);
        case Success(Some(response)) =>
          var token := NewAccessTokenResponse(response);
          result := if token.Success? then Success(token.value) else Failure(InvalidTokenKindError);
      }
    }

    /** The silent acquisition of `getAccessToken` resolved. */
    method AcceptAccessToken(response: AuthResponse, params: AuthParams, popup: Outcome)
      returns (result: Result<AccessTokenResponse, AuthError>)
      modifies this
      ensures (Snap(), result) == ProviderModel.AcceptAccessToken(old(Snap()), response, params, popup)
    {
      HandleAcquireTokenSuccess(response);
      SetAuthenticationState(Authenticated);
      var token := NewAccessTokenResponse(response);
      if token.Success? {
        result := Success(token.value);
      } else {
        result := RecoverAccessToken(InvalidTokenKindError, params, popup);
      }
    }

    /** The silent acquisition of `getIdToken` resolved. */
    method AcceptIdToken(response: AuthResponse, popup: Outcome)
      returns (result: Result<IdTokenResponse, AuthError>)
      modifies this
      ensures (Snap(), result) == ProviderModel.AcceptIdToken(old(Snap()), response, popup)
    {
      HandleAcquireTokenSuccess(response);
      SetAuthenticationState(Authenticated);
      var token := NewIdTokenResponse(response);
      if token.Success? {
        result := Success(token.value);
      } else {
        result := RecoverIdToken(InvalidTokenKindError, popup);
      }
    }

    /** The `catch` block of `getIdToken`. */
    method RecoverIdToken(failure: AuthError, popup: Outcome)
      returns (result: Result<IdTokenResponse, AuthError>)
      modifies this
      ensures (Snap(), result) == ProviderModel.RecoverIdToken(old(Snap()), failure, popup)
    {
      DispatchAction(AC.AcquireIdTokenError(failure));
      var refreshed := LoginToRefreshToken(failure, parameters, popup);
      match refreshed {
        case Failure(e) =>
          result := Failure(e);
        case Success(None) =>
          result := Failure(MissingResponseError);
        case Success(Some(response)) =>
          var token := NewIdTokenResponse(response);
          result := if token.Success? then Success(token.value) else Failure(InvalidTokenKindError);
      }
    }

    /** The part both flows of `login` share: become in progress, call the
        client, and record the failure it raised, if any. */
    method StartLogin(call: MsalCall, loginFailure: Option<AuthError>)
      modifies this
      ensures Snap() == ProviderModel.StartLogin(old(Snap()), call, loginFailure)
    {
      SetAuthenticationState(InProgress);
      calls := calls + [call];
      if loginFailure.Some? {
        SetError(loginFailure);
        SetAuthenticationState(Unauthenticated);
      }
    }

    method LoginToRefreshToken(failure: AuthError, params: AuthParams, popup: Outcome)
      returns (refreshed: Result<Option<AuthResponse>, AuthError>)
      modifies this
      ensures (Snap(), refreshed) == ProviderModel.LoginToRefreshToken(old(Snap()), failure, params, popup)
    {
      if failure.kind == InteractionRequired {
        if options.loginType == Redirect {
          calls := calls + [AcquireTokenRedirect(params)];
          return Success(None);
        }
        calls := calls + [AcquireTokenPopup(params)];
        match popup {
          case Succeeded(response) =>
            HandleAcquireTokenSuccess(response);
            SetAuthenticationState(Authenticated);
            refreshed := Success(Some(response));
          case Failed(e) =>
            SetError(Some(e));
            SetAuthenticationState(Unauthenticated);
            refreshed := Failure(e);
        }
      } else {
        SetError(Some(failure));
        SetAuthenticationState(Unauthenticated);
        refreshed := Failure(failure);
      }
    }

    method InitializeProvider(account: Option<Account>, loginInProgress: bool, silent: Outcome, popup: Outcome)
      modifies this
      ensures Snap() == Initialize(old(Snap()), account, loginInProgress, silent, popup)
    {
      DispatchAction(AC.Initializing());
      ProcessLogin(account, loginInProgress, silent, popup);
      DispatchAction(AC.Initialized());
    }

    method ProcessLogin(account: Option<Account>, loginInProgress: bool, silent: Outcome, popup: Outcome)
      modifies this
      ensures Snap() == ProviderModel.ProcessLogin(old(Snap()), account, loginInProgress, silent, popup)
    {
      if error.Some? {
        HandleLoginFailed();
        SetAuthenticationState(Unauthenticated);
      } else if account.Some? {
        var token := GetIdToken(None, account, silent, popup);
        if token.Success? {
          HandleLoginSuccess();
        } else {
          if !IsUserLoginError(token.error) {
            SetError(Some(token.error));
          }
          SetAuthenticationState(Unauthenticated);
        }
      } else if loginInProgress {
        SetAuthenticationState(InProgress);
      } else {
        SetAuthenticationState(Unauthenticated);
      }
    }

    method HandleLoginFailed()
      modifies this
      ensures Snap() == ProviderModel.HandleLoginFailed(old(Snap()))
    {
      if error.Some? {
        DispatchAction(AC.LoginFailed());
      }
    }

    method HandleLoginSuccess()
      modifies this
      ensures Snap() == ProviderModel.HandleLoginSuccess(old(Snap()))
    {
      if accountInfo.Some? {
        DispatchAction(AC.LoginSuccessful(accountInfo.value));
      }
    }
  }
}
