/** What the authentication provider promises, stated about the transition
    functions of `ProviderModel`. */
module ProviderProperties {
  import opened Wrappers
  import opened Enums
  import opened Msal
  import opened Interfaces
  import opened TokenResponses
  import opened ProviderModel
  import AC = AuthenticationActionCreators

  // ---------------------------------------------------------------------------
  // Dispatch and the action queue

  /** Before a store exists an action waits at the end of the queue; after,
      the store receives it and the queue stays empty. */
  lemma DispatchRouting(s: Snapshot, a: AuthAction)
    ensures !s.storeRegistered ==> Dispatch(s, a).queue == s.queue + [a] && Dispatch(s, a).delivered == s.delivered
    ensures s.storeRegistered ==> Dispatch(s, a).delivered == s.delivered + [a] && Dispatch(s, a).queue == s.queue
  {
  }

  /** Dispatching a sequence of actions one after the other. */
  function DispatchAll(s: Snapshot, actions: seq<AuthAction>): (r: Snapshot)
    ensures r.storeRegistered == s.storeRegistered
    decreases |actions|
  {
    if actions == [] then s else DispatchAll(Dispatch(s, actions[0]), actions[1..])
  }

  /** Before a store exists, dispatched actions queue up in dispatch order. */
  lemma {:induction false} DispatchAllQueues(s: Snapshot, actions: seq<AuthAction>)
    requires !s.storeRegistered
    ensures DispatchAll(s, actions).queue == s.queue + actions
    ensures DispatchAll(s, actions).delivered == s.delivered
    decreases |actions|
  {
    if actions != [] {
      var s1 := Dispatch(s, actions[0]);
      assert s1.queue == s.queue + [actions[0]] && s1.delivered == s.delivered && !s1.storeRegistered;
      assert DispatchAll(s, actions) == DispatchAll(s1, actions[1..]);
      DispatchAllQueues(s1, actions[1..]);
      assert s.queue + actions == s1.queue + actions[1..] by {
        assert actions == [actions[0]] + actions[1..];
      }
    }
  }

  /** Actions dispatched before the store is registered reach it, once
      registered, in dispatch order, and later ones follow them. */
  lemma QueuedActionsReachStoreInOrder(s: Snapshot, actions: seq<AuthAction>, later: AuthAction)
    requires !s.storeRegistered
    ensures RegisterStore(DispatchAll(s, actions)).delivered == s.delivered + s.queue + actions
    ensures Dispatch(RegisterStore(DispatchAll(s, actions)), later).delivered == s.delivered + s.queue + actions + [later]
  {
    DispatchAllQueues(s, actions);
  }

  /** Registering the store leaves it with every queued action and an empty queue. */
  lemma RegisterStoreDrains(s: Snapshot)
    ensures RegisterStore(s).delivered == s.delivered + s.queue
    ensures RegisterStore(s).queue == [] && RegisterStore(s).storeRegistered
  {
  }

  // ---------------------------------------------------------------------------
  // Authentication state

  /** Setting the current state again changes nothing. */
  lemma SetStateUnchanged(s: Snapshot, x: AuthenticationState)
    requires s.state == Some(x)
    ensures SetState(s, x) == s
  {
  }

  /** A change of state dispatches exactly one state-changed action and
      invokes every state handler once, in registration order, with the new
      state; nothing else changes. */
  lemma SetStateChanged(s: Snapshot, x: AuthenticationState)
    requires s.state != Some(x)
    ensures Emitted(SetState(s, x)) == Emitted(s) + [AC.AuthenticatedStateChanged(x)]
    ensures SetState(s, x).notifications == s.notifications + Fanout(s.stateHandlers, StateEvent(x))
    ensures SetState(s, x).accountInfo == s.accountInfo && SetState(s, x).error == s.error
    ensures SetState(s, x).calls == s.calls && SetState(s, x).parameters == s.parameters
  {
  }

  /** Setting the same state twice has the effect of setting it once. */
  lemma SetStateIdempotent(s: Snapshot, x: AuthenticationState)
    ensures SetState(SetState(s, x), x) == SetState(s, x)
  {
  }

  /** A handler registered before a change is told the new state. */
  lemma RegisteredStateHandlerNotified(s: Snapshot, h: HandlerId, x: AuthenticationState)
    requires s.state.Some? && s.state != Some(x)
    ensures Notification(h, StateEvent(x)) in SetState(RegisterStateHandler(s, h), x).notifications
  {
    var s1 := RegisterStateHandler(s, h);
    var i :| 0 <= i < |s1.stateHandlers| && s1.stateHandlers[i] == h;
    var fan := Fanout(s1.stateHandlers, StateEvent(x));
    assert fan[i] == Notification(h, StateEvent(x));
    SetStateChanged(s1, x);
    var ns := SetState(s1, x).notifications;
    assert ns == s1.notifications + fan;
    assert ns[|s1.notifications| + i] == fan[i];
  }

  // ---------------------------------------------------------------------------
  // Errors and account information

  /** `setError` stores the error, dispatches a login error exactly when one
      is given, and invokes every error handler with it, cleared or not. */
  lemma SetErrorEffects(s: Snapshot, e: Option<AuthError>)
    ensures Emitted(SetError(s, e)) == Emitted(s) + (if e.Some? then [AC.LoginError(e.value)] else [])
    ensures SetError(s, e).notifications == s.notifications + Fanout(s.errorHandlers, ErrorEvent(e))
    ensures SetError(s, e).accountInfo == s.accountInfo && SetError(s, e).calls == s.calls
  {
  }

  /** The state-changed action a move to unauthenticated dispatches, if any. */
  function LeftAuthenticated(state: Option<AuthenticationState>): (r: seq<AuthAction>)
    ensures |r| <= 1
    ensures r == [] <==> state == Some(Unauthenticated)
  {
    if state == Some(Unauthenticated) then [] else [AC.AuthenticatedStateChanged(Unauthenticated)]
  }

  /** Recording a failure dispatches the login error, then the change to
      unauthenticated if the state was another. */
  lemma RecordFailureEmits(s: Snapshot, e: AuthError)
    ensures Emitted(RecordFailure(s, e)) == Emitted(s) + [AC.LoginError(e)] + LeftAuthenticated(s.state)
  {
    SetErrorEffects(s, Some(e));
    if s.state != Some(Unauthenticated) {
      SetStateChanged(SetError(s, Some(e)), Unauthenticated);
    }
  }

  /** The stored account record: the existing one or one for the response's
      account, with the token of the response's kind replaced and the other
      token kept. */
  lemma MergeAccountInfoFields(prev: Option<AccountInfo>, response: AuthResponse)
    ensures MergeAccountInfo(prev, response).account == (if prev.Some? then prev.value.account else response.account)
    ensures MergeAccountInfo(prev, response).jwtIdToken ==
      (if response.tokenType == IdToken then Some(response.idToken.rawIdToken)
       else if prev.Some? then prev.value.jwtIdToken else None)
    ensures MergeAccountInfo(prev, response).jwtAccessToken ==
      (if response.tokenType == AccessToken then Some(response.accessToken)
       else if prev.Some? then prev.value.jwtAccessToken else None)
  {
  }

  /** Storing the same response twice has the effect of storing it once. */
  lemma MergeAccountInfoIdempotent(prev: Option<AccountInfo>, response: AuthResponse)
    ensures MergeAccountInfo(Some(MergeAccountInfo(prev, response)), response) == MergeAccountInfo(prev, response)
  {
  }

  /** An ID token followed by an access token leaves both in the record. */
  lemma MergeAccountInfoAccumulates(prev: Option<AccountInfo>, idResponse: AuthResponse, accessResponse: AuthResponse)
    requires idResponse.tokenType == IdToken && accessResponse.tokenType == AccessToken
    ensures var info := MergeAccountInfo(Some(MergeAccountInfo(prev, idResponse)), accessResponse);
      info.jwtIdToken == Some(idResponse.idToken.rawIdToken) && info.jwtAccessToken == Some(accessResponse.accessToken)
  {
  }

  /** A token acquisition stores the merged record, tells every account
      handler, and dispatches the success action for the token's kind. */
  lemma HandleAcquireTokenSuccessEffects(s: Snapshot, response: AuthResponse)
    ensures var r := HandleAcquireTokenSuccess(s, response);
      var info := MergeAccountInfo(s.accountInfo, response);
      r.accountInfo == Some(info) &&
      r.notifications == s.notifications + Fanout(s.accountHandlers, AccountEvent(Some(info))) &&
      Emitted(r) == Emitted(s) +
        match response.tokenType
        case IdToken => [AC.AcquireIdTokenSuccess(IdTokenResponse(response.idToken, response.accountState))]
        case AccessToken => [AC.AcquireAccessTokenSuccess(AccessTokenResponse(response.accessToken, response.scopes,
                                                                              response.expiresOn, response.accountState))]
        case OtherToken => []
  {
  }

  // ---------------------------------------------------------------------------
  // Token acquisition

  /** The silent acquisition is always tried first, with the parameters the
      caller gave (or the shared ones) and the redirect URI rule applied; only
      an interaction-required failure is followed by one interactive
      acquisition, of the configured flow, with the same parameters. */
  lemma GetAccessTokenCalls(s: Snapshot, arg: Option<AuthParams>, silent: Outcome, popup: Outcome)
    ensures var params := AccessTokenParams(s, arg);
      GetAccessToken(s, arg, silent, popup).0.calls == s.calls + [AcquireTokenSilent(params)] +
        (if silent.Failed? && silent.error.kind == InteractionRequired then
           [if s.options.loginType == Redirect then AcquireTokenRedirect(params) else AcquireTokenPopup(params)]
         else [])
  {
  }

  /** A silent access-token success yields the token, verbatim, and leaves
      the provider authenticated with its error untouched. */
  lemma GetAccessTokenSilentSuccess(s: Snapshot, arg: Option<AuthParams>, response: AuthResponse, popup: Outcome)
    requires response.tokenType == AccessToken
    ensures var p := GetAccessToken(s, arg, Succeeded(response), popup);
      p.1 == Success(AccessTokenResponse(response.accessToken, response.scopes, response.expiresOn, response.accountState)) &&
      p.0.state == Some(Authenticated) && p.0.error == s.error &&
      p.0.accountInfo == Some(MergeAccountInfo(s.accountInfo, response))
  {
  }

  /** A silent failure that needs no interaction is dispatched, recorded as
      the error, leaves the provider unauthenticated and is returned. */
  lemma GetAccessTokenPlainFailure(s: Snapshot, arg: Option<AuthParams>, e: AuthError, popup: Outcome)
    requires e.kind != InteractionRequired
    ensures var p := GetAccessToken(s, arg, Failed(e), popup);
      p.1 == Failure(e) && p.0.state == Some(Unauthenticated) && p.0.error == Some(e) &&
      Emitted(p.0) == Emitted(s) + [AC.AcquireAccessTokenError(e), AC.LoginError(e)] + LeftAuthenticated(s.state)
  {
    var params := AccessTokenParams(s, arg);
    var s0 := if arg.None? then s.(parameters := params) else s;
    var s1 := s0.(calls := s0.calls + [AcquireTokenSilent(params)]);
    RecordFailureEmits(Dispatch(s1, AC.AcquireAccessTokenError(e)), e);
  }

  /** In the redirect flow an interaction-required failure starts the
      redirect and the call then fails for want of a response, with the
      provider's state and error untouched. */
  lemma GetAccessTokenRedirectEscalation(s: Snapshot, arg: Option<AuthParams>, e: AuthError, popup: Outcome)
    requires e.kind == InteractionRequired && s.options.loginType == Redirect
    ensures var p := GetAccessToken(s, arg, Failed(e), popup);
      p.1 == Failure(MissingResponseError) && p.0.state == s.state && p.0.error == s.error &&
      Emitted(p.0) == Emitted(s) + [AC.AcquireAccessTokenError(e)]
  {
  }

  /** In the popup flow an interaction-required failure is resolved by the
      popup: its access token is returned and the provider is authenticated;
      if the popup fails, its error is recorded and returned. */
  lemma GetAccessTokenPopupEscalation(s: Snapshot, arg: Option<AuthParams>, e: AuthError, popup: Outcome)
    requires e.kind == InteractionRequired && s.options.loginType == Popup
    ensures var p := GetAccessToken(s, arg, Failed(e), popup);
      (popup.Succeeded? && popup.response.tokenType == AccessToken ==>
         p.1 == Success(AccessTokenResponse(popup.response.accessToken, popup.response.scopes,
                                            popup.response.expiresOn, popup.response.accountState)) &&
         p.0.state == Some(Authenticated)) &&
      (popup.Failed? ==>
         p.1 == Failure(popup.error) && p.0.state == Some(Unauthenticated) && p.0.error == Some(popup.error))
  {
  }

  /** A silent success of another token kind is stored and briefly
      authenticates, but the token constructor then rejects it inside the
      same `try`, so it ends as a recorded failure. */
  lemma GetAccessTokenWrongKind(s: Snapshot, arg: Option<AuthParams>, response: AuthResponse, popup: Outcome)
    requires response.tokenType != AccessToken
    ensures var p := GetAccessToken(s, arg, Succeeded(response), popup);
      p.1 == Failure(InvalidTokenKindError) && p.0.state == Some(Unauthenticated) &&
      p.0.error == Some(InvalidTokenKindError) && p.0.accountInfo == Some(MergeAccountInfo(s.accountInfo, response))
  {
  }

  /** Called without parameters, `getAccessToken` writes the redirect URI
      into the provider's shared parameters; with parameters, it leaves them. */
  lemma GetAccessTokenSharedParameters(s: Snapshot, arg: Option<AuthParams>, silent: Outcome, popup: Outcome)
    ensures arg.None? ==>
      GetAccessToken(s, arg, silent, popup).0.parameters == s.parameters.(redirectUri := s.options.tokenRefreshUri)
    ensures arg.Some? ==> GetAccessToken(s, arg, silent, popup).0.parameters == s.parameters
  {
  }

  /** The redirect URI rule: the caller's own URI when it is non-empty, the
      configured token refresh URI otherwise; nothing else is changed. */
  lemma AccessTokenParamsRedirectUri(s: Snapshot, arg: AuthParams)
    ensures AccessTokenParams(s, Some(arg)).redirectUri ==
      (if arg.redirectUri.Some? && arg.redirectUri.value != "" then arg.redirectUri else s.options.tokenRefreshUri)
    ensures AccessTokenParams(s, Some(arg)).scopes == arg.scopes
    ensures AccessTokenParams(s, Some(arg)).loginHint == arg.loginHint
  {
  }

  /** ID tokens are requested for the client id alone, with the cached
      account's user name as login hint unless the caller gave one. */
  lemma IdTokenParamsShape(s: Snapshot, arg: Option<AuthParams>, account: Option<Account>)
    ensures IdTokenParams(s, arg, account).scopes == [s.clientId]
    ensures IdTokenParams(s, arg, account).loginHint ==
      (if arg.Some? && arg.value.loginHint.Some? && arg.value.loginHint.value != "" then arg.value.loginHint
       else if account.Some? then Some(account.value.userName)
       else if arg.Some? then arg.value.loginHint
       else s.parameters.loginHint)
  {
  }

  /** The interactive fallback of `getIdToken` receives the shared
      parameters, not the client-id-scoped ones of the silent attempt. */
  lemma GetIdTokenFallbackParameters(s: Snapshot, arg: Option<AuthParams>, account: Option<Account>, e: AuthError,
                                     popup: Outcome)
    requires e.kind == InteractionRequired && s.options.loginType == Popup
    ensures GetIdToken(s, arg, account, Failed(e), popup).0.calls ==
      s.calls + [AcquireTokenSilent(IdTokenParams(s, arg, account)), AcquireTokenPopup(s.parameters)]
  {
  }

  /** A silent ID-token success yields the token and authenticates. */
  lemma GetIdTokenSilentSuccess(s: Snapshot, arg: Option<AuthParams>, account: Option<Account>, response: AuthResponse,
                                popup: Outcome)
    requires response.tokenType == IdToken
    ensures var p := GetIdToken(s, arg, account, Succeeded(response), popup);
      p.1 == Success(IdTokenResponse(response.idToken, response.accountState)) &&
      p.0.state == Some(Authenticated) && p.0.error == s.error
  {
  }

  /** A silent ID-token failure that needs no interaction is dispatched,
      recorded as the error, leaves the provider unauthenticated and is
      returned; the client is not called again. */
  lemma GetIdTokenPlainFailure(s: Snapshot, arg: Option<AuthParams>, account: Option<Account>, e: AuthError,
                               popup: Outcome)
    requires e.kind != InteractionRequired
    ensures var p := GetIdToken(s, arg, account, Failed(e), popup);
      p.1 == Failure(e) && p.0.state == Some(Unauthenticated) && p.0.error == Some(e) &&
      p.0.calls == s.calls + [AcquireTokenSilent(IdTokenParams(s, arg, account))] &&
      Emitted(p.0) == Emitted(s) + [AC.AcquireIdTokenError(e), AC.LoginError(e)] + LeftAuthenticated(s.state)
  {
    var s1 := s.(calls := s.calls + [AcquireTokenSilent(IdTokenParams(s, arg, account))]);
    RecordFailureEmits(Dispatch(s1, AC.AcquireIdTokenError(e)), e);
  }

  /** In the redirect flow an interaction-required ID-token failure starts
      the redirect with the shared parameters, and the call then fails for
      want of a response, with the provider's state and error untouched. */
  lemma GetIdTokenRedirectEscalation(s: Snapshot, arg: Option<AuthParams>, account: Option<Account>, e: AuthError,
                                     popup: Outcome)
    requires e.kind == InteractionRequired && s.options.loginType == Redirect
    ensures var p := GetIdToken(s, arg, account, Failed(e), popup);
      p.1 == Failure(MissingResponseError) && p.0.state == s.state && p.0.error == s.error &&
      p.0.calls == s.calls + [AcquireTokenSilent(IdTokenParams(s, arg, account)), AcquireTokenRedirect(s.parameters)] &&
      Emitted(p.0) == Emitted(s) + [AC.AcquireIdTokenError(e)]
  {
  }

  /** In the popup flow an interaction-required ID-token failure is resolved
      by the popup: its ID token is returned and the provider is
      authenticated; if the popup fails, its error is recorded and returned. */
  lemma GetIdTokenPopupEscalation(s: Snapshot, arg: Option<AuthParams>, account: Option<Account>, e: AuthError,
                                  popup: Outcome)
    requires e.kind == InteractionRequired && s.options.loginType == Popup
    ensures var p := GetIdToken(s, arg, account, Failed(e), popup);
      (popup.Succeeded? && popup.response.tokenType == IdToken ==>
         p.1 == Success(IdTokenResponse(popup.response.idToken, popup.response.accountState)) &&
         p.0.state == Some(Authenticated) && p.0.error == s.error &&
         p.0.accountInfo == Some(MergeAccountInfo(s.accountInfo, popup.response))) &&
      (popup.Succeeded? && popup.response.tokenType != IdToken ==>
         p.1 == Failure(InvalidTokenKindError) && p.0.state == Some(Authenticated)) &&
      (popup.Failed? ==>
         p.1 == Failure(popup.error) && p.0.state == Some(Unauthenticated) && p.0.error == Some(popup.error))
  {
  }

  /** A silent success of another token kind is stored and briefly
      authenticates, but the ID-token constructor rejects it inside the same
      `try`, so it ends as a recorded failure. */
  lemma GetIdTokenWrongKind(s: Snapshot, arg: Option<AuthParams>, account: Option<Account>, response: AuthResponse,
                            popup: Outcome)
    requires response.tokenType != IdToken
    ensures var p := GetIdToken(s, arg, account, Succeeded(response), popup);
      p.1 == Failure(InvalidTokenKindError) && p.0.state == Some(Unauthenticated) &&
      p.0.error == Some(InvalidTokenKindError) && p.0.accountInfo == Some(MergeAccountInfo(s.accountInfo, response))
  {
  }

  // ---------------------------------------------------------------------------
  // Initialization and login

  // The action stream is append-only: each transition below keeps what was
  // dispatched before it as a prefix.

  lemma SetStateAppends(s: Snapshot, x: AuthenticationState)
    ensures Emitted(s) <= Emitted(SetState(s, x))
  {
  }

  lemma RecordFailureAppends(s: Snapshot, e: AuthError)
    ensures Emitted(s) <= Emitted(RecordFailure(s, e))
  {
    SetStateAppends(SetError(s, Some(e)), Unauthenticated);
  }

  lemma AcceptResponseAppends(s: Snapshot, response: AuthResponse)
    ensures Emitted(s) <= Emitted(SetState(HandleAcquireTokenSuccess(s, response), Authenticated))
  {
    SetStateAppends(HandleAcquireTokenSuccess(s, response), Authenticated);
  }

  lemma LoginToRefreshTokenAppends(s: Snapshot, error: AuthError, params: AuthParams, popup: Outcome)
    ensures Emitted(s) <= Emitted(LoginToRefreshToken(s, error, params, popup).0)
  {
    var s1 := s.(calls := s.calls + [AcquireTokenPopup(params)]);
    if error.kind != InteractionRequired {
      RecordFailureAppends(s, error);
    } else if s.options.loginType == Popup {
      match popup
      case Succeeded(response) => AcceptResponseAppends(s1, response);
      case Failed(e) => RecordFailureAppends(s1, e);
    }
  }

  lemma RecoverIdTokenAppends(s: Snapshot, error: AuthError, popup: Outcome)
    ensures Emitted(s) <= Emitted(RecoverIdToken(s, error, popup).0)
  {
    var s1 := Dispatch(s, AC.AcquireIdTokenError(error));
    LoginToRefreshTokenAppends(s1, error, s1.parameters, popup);
  }

  lemma GetIdTokenAppends(s: Snapshot, arg: Option<AuthParams>, account: Option<Account>, silent: Outcome, popup: Outcome)
    ensures Emitted(s) <= Emitted(GetIdToken(s, arg, account, silent, popup).0)
  {
    var s1 := s.(calls := s.calls + [AcquireTokenSilent(IdTokenParams(s, arg, account))]);
    match silent
    case Succeeded(response) =>
      var s2 := SetState(HandleAcquireTokenSuccess(s1, response), Authenticated);
      AcceptResponseAppends(s1, response);
      RecoverIdTokenAppends(s2, InvalidTokenKindError, popup);
    case Failed(e) =>
      RecoverIdTokenAppends(s1, e, popup);
  }

  /** `processLogin` only appends to the action stream. */
  lemma ProcessLoginAppends(s: Snapshot, account: Option<Account>, loginInProgress: bool, silent: Outcome, popup: Outcome)
    ensures Emitted(s) <= Emitted(ProcessLogin(s, account, loginInProgress, silent, popup))
  {
    if s.error.Some? {
      SetStateAppends(HandleLoginFailed(s), Unauthenticated);
    } else if account.Some? {
      var p := GetIdToken(s, None, account, silent, popup);
      GetIdTokenAppends(s, None, account, silent, popup);
      if p.1.Failure? {
        var s1 := if !IsUserLoginError(p.1.error) then SetError(p.0, Some(p.1.error)) else p.0;
        SetStateAppends(s1, Unauthenticated);
      }
    } else {
      SetStateAppends(s, if loginInProgress then InProgress else Unauthenticated);
    }
  }

  /** Initialization is bracketed by the initializing and initialized actions. */
  lemma InitializeBracketed(s: Snapshot, account: Option<Account>, loginInProgress: bool, silent: Outcome, popup: Outcome)
    ensures var r := Initialize(s, account, loginInProgress, silent, popup);
      Emitted(s) + [AC.Initializing()] <= Emitted(r) && |Emitted(r)| >= |Emitted(s)| + 2 &&
      Emitted(r)[|Emitted(r)| - 1] == AC.Initialized()
  {
    var s1 := Dispatch(s, AC.Initializing());
    var s2 := ProcessLogin(s1, account, loginInProgress, silent, popup);
    ProcessLoginAppends(s1, account, loginInProgress, silent, popup);
  }

  /** A recorded error makes the login fail without touching the client. */
  lemma ProcessLoginWithError(s: Snapshot, account: Option<Account>, loginInProgress: bool, silent: Outcome, popup: Outcome)
    requires s.error.Some?
    ensures var r := ProcessLogin(s, account, loginInProgress, silent, popup);
      r.state == Some(Unauthenticated) && r.error == s.error && r.calls == s.calls &&
      Emitted(r) == Emitted(s) + [AC.LoginFailed()] + LeftAuthenticated(s.state)
  {
    if s.state != Some(Unauthenticated) {
      SetStateChanged(HandleLoginFailed(s), Unauthenticated);
    }
  }

  /** Without an error or a cached account the state is in progress exactly
      when the client reports a login in progress, and the client is not called. */
  lemma ProcessLoginWithoutAccount(s: Snapshot, loginInProgress: bool, silent: Outcome, popup: Outcome)
    requires s.error.None?
    ensures var r := ProcessLogin(s, None, loginInProgress, silent, popup);
      r.state == Some(if loginInProgress then InProgress else Unauthenticated) && r.calls == s.calls &&
      r.error == None && Emitted(r) <= Emitted(s) + [AC.AuthenticatedStateChanged(r.state.value)]
  {
  }

  /** A cached account whose ID token renews silently logs the user in: the
      provider is authenticated and the store receives the account record. */
  lemma ProcessLoginSilentSuccess(s: Snapshot, account: Account, loginInProgress: bool, response: AuthResponse, popup: Outcome)
    requires s.error.None? && response.tokenType == IdToken
    ensures var r := ProcessLogin(s, Some(account), loginInProgress, Succeeded(response), popup);
      var info := MergeAccountInfo(s.accountInfo, response);
      r.state == Some(Authenticated) && r.accountInfo == Some(info) && r.error == None &&
      Emitted(r) == Emitted(s) + [AC.AcquireIdTokenSuccess(IdTokenResponse(response.idToken, response.accountState))] +
        (if s.state == Some(Authenticated) then [] else [AC.AuthenticatedStateChanged(Authenticated)]) +
        [AC.LoginSuccessful(info)]
  {
    var c := s.(calls := s.calls + [AcquireTokenSilent(IdTokenParams(s, None, Some(account)))]);
    var h := HandleAcquireTokenSuccess(c, response);
    HandleAcquireTokenSuccessEffects(c, response);
    if s.state != Some(Authenticated) {
      SetStateChanged(h, Authenticated);
    }
    assert GetIdToken(s, None, Some(account), Succeeded(response), popup).0 == SetState(h, Authenticated);
  }

  /** A cached account whose silent renewal fails without needing interaction
      leaves the provider unauthenticated with that error recorded. The
      exemption `processLogin` makes for the user-login error does not take
      effect: the renewal path has recorded the error before it reaches that
      check. */
  lemma ProcessLoginRenewalFailure(s: Snapshot, account: Account, loginInProgress: bool, e: AuthError, popup: Outcome)
    requires s.error.None? && e.kind != InteractionRequired
    ensures var r := ProcessLogin(s, Some(account), loginInProgress, Failed(e), popup);
      r.state == Some(Unauthenticated) && r.error == Some(e)
  {
  }

  /** The redirect flow's callback with an error records it and fails the login. */
  lemma RedirectCallbackWithError(s: Snapshot, e: AuthError, account: Option<Account>, loginInProgress: bool,
                                  silent: Outcome, popup: Outcome)
    ensures var r := RedirectCallback(s, Some(e), account, loginInProgress, silent, popup);
      r.state == Some(Unauthenticated) && r.error == Some(e) && r.calls == s.calls &&
      Emitted(r) == Emitted(s) + [AC.LoginError(e), AC.LoginFailed()] + LeftAuthenticated(s.state)
  {
    var s1 := SetError(s, Some(e));
    SetErrorEffects(s, Some(e));
    ProcessLoginWithError(s1, account, loginInProgress, silent, popup);
  }

  /** `login` clears a stale error and keeps the one raised inside the
      renewal frame. */
  lemma ClearStaleErrorEffects(s: Snapshot)
    ensures IsStaleError(s.error) ==> ClearStaleError(s).error == None
    ensures !IsStaleError(s.error) ==> ClearStaleError(s) == s
    ensures Emitted(ClearStaleError(s)) == Emitted(s)
  {
  }

  /** In the redirect flow `login` only starts the redirect: the provider
      stays in progress unless the client's call throws. */
  lemma LoginRedirectFlow(s: Snapshot, arg: Option<AuthParams>, loginFailure: Option<AuthError>, account: Option<Account>,
                          loginInProgress: bool, silent: Outcome, popup: Outcome)
    requires s.options.loginType == Redirect
    ensures var r := Login(s, arg, loginFailure, account, loginInProgress, silent, popup);
      r.calls == s.calls + [LoginRedirect(if arg.Some? then arg.value else s.parameters)] &&
      r.state == Some(if loginFailure.Some? then Unauthenticated else InProgress) &&
      (loginFailure.Some? ==> r.error == loginFailure)
  {
  }

  /** In the popup flow a failed popup is recorded, and the login is then
      processed, which fails it. */
  lemma LoginPopupFailure(s: Snapshot, arg: Option<AuthParams>, e: AuthError, account: Option<Account>,
                          loginInProgress: bool, silent: Outcome, popup: Outcome)
    requires s.options.loginType == Popup
    ensures var r := Login(s, arg, Some(e), account, loginInProgress, silent, popup);
      r.state == Some(Unauthenticated) && r.error == Some(e) &&
      r.calls == s.calls + [LoginPopup(if arg.Some? then arg.value else s.parameters)]
  {
    var s2 := StartLogin(ClearStaleError(s), LoginPopup(if arg.Some? then arg.value else s.parameters), Some(e));
    ProcessLoginWithError(s2, account, loginInProgress, silent, popup);
  }

  /** A popup login whose popup succeeds, with no error kept from before,
      ends authenticated: the login is processed with the account the popup
      left in the client's cache, whose ID token renews silently. */
  lemma LoginPopupSuccess(s: Snapshot, arg: Option<AuthParams>, account: Account, loginInProgress: bool,
                          response: AuthResponse, popup: Outcome)
    requires s.options.loginType == Popup && !(s.error.Some? && !IsStaleError(s.error))
    requires response.tokenType == IdToken
    ensures var r := Login(s, arg, None, Some(account), loginInProgress, Succeeded(response), popup);
      var info := MergeAccountInfo(s.accountInfo, response);
      r.state == Some(Authenticated) && r.error == None && r.accountInfo == Some(info) &&
      r.calls == s.calls + [LoginPopup(if arg.Some? then arg.value else s.parameters),
                            AcquireTokenSilent(IdTokenParams(s, None, Some(account)))] &&
      Emitted(r)[|Emitted(r)| - 1] == AC.LoginSuccessful(info)
  {
    var s1 := ClearStaleError(s);
    var s2 := StartLogin(s1, LoginPopup(if arg.Some? then arg.value else s.parameters), None);
    assert s2.accountInfo == s.accountInfo by {
      if s.state != Some(InProgress) {
        SetStateChanged(s1, InProgress);
      }
    }
    ProcessLoginSilentSuccess(s2, account, loginInProgress, response, popup);
  }

  /** An error kept by `login` (the renewal-frame one) makes a popup login fail. */
  lemma LoginPopupKeptError(s: Snapshot, arg: Option<AuthParams>, account: Option<Account>,
                            loginInProgress: bool, silent: Outcome, popup: Outcome)
    requires s.options.loginType == Popup && s.error.Some? && !IsStaleError(s.error)
    ensures var r := Login(s, arg, None, account, loginInProgress, silent, popup);
      r.state == Some(Unauthenticated) && r.error == s.error && AC.LoginFailed() in Emitted(r)
  {
    var s2 := StartLogin(s, LoginPopup(if arg.Some? then arg.value else s.parameters), None);
    ProcessLoginWithError(s2, account, loginInProgress, silent, popup);
    var r := ProcessLogin(s2, account, loginInProgress, silent, popup);
    assert Emitted(r)[|Emitted(s2)|] == AC.LoginFailed();
  }

  /** `logout` calls the client and dispatches the logout action, leaving the
      state, the account record and the error as they were. */
  lemma LogoutEffects(s: Snapshot)
    ensures ProviderModel.Logout(s).calls == s.calls + [Msal.Logout]
    ensures Emitted(ProviderModel.Logout(s)) == Emitted(s) + [AC.LogoutSuccessful()]
    ensures ProviderModel.Logout(s).state == s.state && ProviderModel.Logout(s).accountInfo == s.accountInfo && ProviderModel.Logout(s).error == s.error
  {
  }

  // ---------------------------------------------------------------------------
  // Handlers

  /** A handler is invoked at once with the current value when registered. */
  lemma RegisterNotifiesAtOnce(s: Snapshot, h: HandlerId)
    requires s.state.Some?
    ensures RegisterStateHandler(s, h).notifications == s.notifications + [Notification(h, StateEvent(s.state.value))]
    ensures RegisterAccountInfoHandler(s, h).notifications == s.notifications + [Notification(h, AccountEvent(s.accountInfo))]
    ensures RegisterErrorHandler(s, h).notifications == s.notifications + [Notification(h, ErrorEvent(s.error))]
    ensures h in RegisterStateHandler(s, h).stateHandlers && h in RegisterAccountInfoHandler(s, h).accountHandlers &&
            h in RegisterErrorHandler(s, h).errorHandlers
  {
  }

  /** Removing a handler that was just added restores the collection. */
  lemma {:induction false} RemoveAdded(hs: seq<HandlerId>, h: HandlerId)
    requires h !in hs
    ensures Remove(hs + [h], h) == hs
  {
    if hs != [] {
      assert (hs + [h])[1..] == hs[1..] + [h];
      RemoveAdded(hs[1..], h);
    }
  }

  /** Unregistering a handler right after registering it restores the
      handler collections. */
  lemma RegisterUnregisterRoundTrip(s: Snapshot, h: HandlerId)
    requires s.state.Some? && h !in s.stateHandlers && h !in s.accountHandlers && h !in s.errorHandlers
    ensures UnregisterStateHandler(RegisterStateHandler(s, h), h).stateHandlers == s.stateHandlers
    ensures UnregisterAccountInfoHandler(RegisterAccountInfoHandler(s, h), h).accountHandlers == s.accountHandlers
    ensures UnregisterErrorHandler(RegisterErrorHandler(s, h), h).errorHandlers == s.errorHandlers
  {
    RemoveAdded(s.stateHandlers, h);
    RemoveAdded(s.accountHandlers, h);
    RemoveAdded(s.errorHandlers, h);
  }

  // ---------------------------------------------------------------------------
  // Whole provider

  /** Every internal transition keeps the invariant. */
  lemma TransitionsKeepInv(s: Snapshot, arg: Option<AuthParams>, loginFailure: Option<AuthError>, error: Option<AuthError>,
                           account: Option<Account>, loginInProgress: bool, silent: Outcome, popup: Outcome)
    requires Inv(s)
    ensures Inv(Login(s, arg, loginFailure, account, loginInProgress, silent, popup))
    ensures Inv(ProviderModel.Logout(s))
    ensures Inv(GetAccessToken(s, arg, silent, popup).0)
    ensures Inv(GetIdToken(s, arg, account, silent, popup).0)
    ensures Inv(RedirectCallback(s, error, account, loginInProgress, silent, popup))
  {
    PreservesKeepsInv(s, Login(s, arg, loginFailure, account, loginInProgress, silent, popup));
    PreservesKeepsInv(s, ProviderModel.Logout(s));
    PreservesKeepsInv(s, GetAccessToken(s, arg, silent, popup).0);
    PreservesKeepsInv(s, GetIdToken(s, arg, account, silent, popup).0);
    PreservesKeepsInv(s, RedirectCallback(s, error, account, loginInProgress, silent, popup));
  }

  /** A new provider given no options uses the popup flow with the page's
      origin as token refresh URI. */
  lemma DefaultOptions(clientId: string, parameters: AuthParams, origin: string, account: Option<Account>,
                       loginInProgress: bool, silent: Outcome, popup: Outcome)
    ensures Construct(clientId, parameters, None, origin, account, loginInProgress, silent, popup).options ==
      ProviderOptions(Popup, Some(origin))
  {
  }

  /** A new popup-flow provider (the default) with no cached account and no
      login in progress ends unauthenticated, having queued exactly the
      initializing, state-changed and initialized actions, and without
      calling the client. */
  lemma FreshProviderUnauthenticated(clientId: string, parameters: AuthParams, options: Option<ProviderOptions>,
                                     origin: string, silent: Outcome, popup: Outcome)
    requires options.None? || options.value.loginType == Popup
    ensures var r := Construct(clientId, parameters, options, origin, None, false, silent, popup);
      r.state == Some(Unauthenticated) && r.calls == [] && r.queue == Emitted(r) &&
      Emitted(r) == [AC.Initializing(), AC.AuthenticatedStateChanged(Unauthenticated), AC.Initialized()]
  {
  }

  /** A new provider whose cached account renews its ID token silently ends
      authenticated; it queues the token success, the state change and one
      login success carrying the new account record, between the
      initializing and initialized actions. */
  lemma CachedAccountAuthenticated(clientId: string, parameters: AuthParams, options: Option<ProviderOptions>,
                                   origin: string, account: Account, response: AuthResponse, popup: Outcome)
    requires response.tokenType == IdToken
    ensures var r := Construct(clientId, parameters, options, origin, Some(account), false, Succeeded(response), popup);
      var info := AccountInfo(response.account, Some(response.idToken.rawIdToken), None);
      r.state == Some(Authenticated) && r.accountInfo == Some(info) &&
      Emitted(r) == [AC.Initializing(),
                     AC.AcquireIdTokenSuccess(IdTokenResponse(response.idToken, response.accountState)),
                     AC.AuthenticatedStateChanged(Authenticated),
                     AC.LoginSuccessful(info),
                     AC.Initialized()]
  {
    var o := OptionsOrDefault(options, origin);
    var s0 := SetProviderOptions(Fresh(clientId, parameters, o), o);
    var s1 := Dispatch(s0, AC.Initializing());
    assert Emitted(s1) == [AC.Initializing()] && s1.state.None? && s1.accountInfo.None?;
    var s2 := ProcessLogin(s1, Some(account), false, Succeeded(response), popup);
    ProcessLoginSilentSuccess(s1, account, false, response, popup);
    assert Construct(clientId, parameters, options, origin, Some(account), false, Succeeded(response), popup) ==
      Dispatch(s2, AC.Initialized());
  }
}
