/** The authentication provider of
    packages/react-aad-msal/src/MsalAuthProvider.ts, as a state machine on
    values: `Snapshot` is the whole state of one provider object, and each
    function below is one of its members, taking the state before the call
    and the outcomes the authentication client delivers, and giving the state
    after it. The class `Provider.MsalAuthProvider` is proved against these
    functions; the lemmas at the end state what the source promises. */
module ProviderModel {
  import opened Wrappers
  import opened Enums
  import opened Msal
  import opened Interfaces
  import opened Redux
  import opened TokenResponses
  import AC = AuthenticationActionCreators

  /** The identity of a registered callback. */
  type HandlerId = nat

  type AuthAction = AC.AuthAction

  /** The value a callback is invoked with. */
  datatype Event =
    | StateEvent(state: AuthenticationState)
    | AccountEvent(info: Option<AccountInfo>)
    | ErrorEvent(error: Option<AuthError>)

  /** One invocation of one callback. */
  datatype Notification = Notification(handler: HandlerId, event: Event)

  /** The state of a provider. `state` is `None` until the first transition
      (the field starts out undefined). A store receives `delivered`; while no
      store is registered, actions wait in `queue`. Each handler collection is
      a JavaScript `Set`, kept in insertion order without duplicates.
      `notifications` and `calls` log the callback invocations and the client
      calls, in order. */
  datatype Snapshot = Snapshot(
    state: Option<AuthenticationState>,
    accountInfo: Option<AccountInfo>,
    error: Option<AuthError>,
    storeRegistered: bool,
    delivered: seq<AuthAction>,
    queue: seq<AuthAction>,
    stateHandlers: seq<HandlerId>,
    accountHandlers: seq<HandlerId>,
    errorHandlers: seq<HandlerId>,
    notifications: seq<Notification>,
    calls: seq<MsalCall>,
    parameters: AuthParams,
    options: ProviderOptions,
    clientId: string)

  /** Every action dispatched so far, in dispatch order, delivered or not.
      Once a store is registered nothing is queued any more. */
  function Emitted(s: Snapshot): seq<AuthAction>
  {
    if s.storeRegistered then s.delivered else s.delivered + s.queue
  }

  predicate NoDuplicates(hs: seq<HandlerId>)
  {
    forall i, j :: 0 <= i < j < |hs| ==> hs[i] != hs[j]
  }

  /** The provider's invariant: handler collections are sets, and actions
      wait in the queue only while no store is registered. */
  predicate Inv(s: Snapshot)
  {
    NoDuplicates(s.stateHandlers) && NoDuplicates(s.accountHandlers) && NoDuplicates(s.errorHandlers) &&
    (s.storeRegistered ==> s.queue == [])
  }

  /** What every internal transition respects: a defined state stays
      defined; the store, the handlers, the options and the client id are left
      alone, and so is the queue once a store is registered. */
  predicate Preserves(s: Snapshot, r: Snapshot)
  {
    (s.state.Some? ==> r.state.Some?) &&
    r.storeRegistered == s.storeRegistered && (s.storeRegistered ==> r.queue == s.queue) &&
    r.stateHandlers == s.stateHandlers && r.accountHandlers == s.accountHandlers &&
    r.errorHandlers == s.errorHandlers && r.options == s.options && r.clientId == s.clientId
  }

  lemma PreservesTransitive(a: Snapshot, b: Snapshot, c: Snapshot)
    requires Preserves(a, b) && Preserves(b, c)
    ensures Preserves(a, c)
  {
  }

  lemma PreservesKeepsInv(s: Snapshot, r: Snapshot)
    requires Preserves(s, r)
    ensures Inv(s) ==> Inv(r)
  {
  }

  /** The invocations of every handler in `hs`, in order, with `e`. */
  function Fanout(hs: seq<HandlerId>, e: Event): (ns: seq<Notification>)
    ensures |ns| == |hs|
  {
    seq(|hs|, i requires 0 <= i < |hs| => Notification(hs[i], e))
  }

  /** A fan-out over a set of handlers invokes each member once and nobody else. */
  lemma FanoutOncePerHandler(hs: seq<HandlerId>, e: Event, i: nat, j: nat)
    requires NoDuplicates(hs)
    requires i < |hs| && j < |hs|
    ensures Fanout(hs, e)[i] == Notification(hs[i], e)
    ensures Fanout(hs, e)[i].handler == Fanout(hs, e)[j].handler ==> i == j
  {
  }

  // ---------------------------------------------------------------------------
  // Handler collections

  function Add(hs: seq<HandlerId>, h: HandlerId): (r: seq<HandlerId>)
    ensures NoDuplicates(hs) ==> NoDuplicates(r)
    ensures forall x :: x in r <==> x in hs || x == h
  {
    if h in hs then hs else hs + [h]
  }

  function {:induction false} Remove(hs: seq<HandlerId>, h: HandlerId): (r: seq<HandlerId>)
    ensures NoDuplicates(hs) ==> NoDuplicates(r)
    ensures forall x :: x in r <==> x in hs && x != h
    ensures h !in hs ==> r == hs
  {
    if hs == [] then []
    else if hs[0] == h then Remove(hs[1..], h)
    else
      var rest := Remove(hs[1..], h);
      assert NoDuplicates(hs) ==> hs[0] !in hs[1..] && NoDuplicates(hs[1..]);
      assert forall x :: x in [hs[0]] + rest <==> x == hs[0] || x in rest;
      [hs[0]] + rest
  }

  // ---------------------------------------------------------------------------
  // Internal transitions

  /** `dispatchAction`: to the store if one is registered, else to the queue. */
  function Dispatch(s: Snapshot, a: AuthAction): (r: Snapshot)
    ensures Emitted(r) == Emitted(s) + [a]
    ensures Preserves(s, r)
    ensures r.calls == s.calls && r.parameters == s.parameters
  {
    if s.storeRegistered then s.(delivered := s.delivered + [a]) else s.(queue := s.queue + [a])
  }

  /** `setAuthenticationState`. */
  function SetState(s: Snapshot, x: AuthenticationState): (r: Snapshot)
    ensures Preserves(s, r)
    ensures r.state == Some(x)
    ensures r.calls == s.calls && r.parameters == s.parameters
  {
    if s.state == Some(x) then s
    else
      var s1 := Dispatch(s.(state := Some(x)), AC.AuthenticatedStateChanged(x));
      s1.(notifications := s1.notifications + Fanout(s1.stateHandlers, StateEvent(x)))
  }

  /** `setError`. */
  function SetError(s: Snapshot, e: Option<AuthError>): (r: Snapshot)
    ensures Preserves(s, r)
    ensures r.error == e && r.state == s.state
    ensures r.calls == s.calls && r.parameters == s.parameters
  {
    var s1 := s.(error := e);
    var s2 := if e.Some? then Dispatch(s1, AC.LoginError(e.value)) else s1;
    s2.(notifications := s2.notifications + Fanout(s2.errorHandlers, ErrorEvent(e)))
  }

  /** The account record `setAccountInfo` stores: the previous one, or a new
      one holding the response's account, with the token of the response's
      kind replaced. */
  function MergeAccountInfo(prev: Option<AccountInfo>, response: AuthResponse): AccountInfo
  {
    var base := if prev.Some? then prev.value else AccountInfo(response.account, None, None);
    match response.tokenType
    case IdToken => base.(jwtIdToken := Some(response.idToken.rawIdToken))
    case AccessToken => base.(jwtAccessToken := Some(response.accessToken))
    case OtherToken => base
  }

  /** `setAccountInfo`. */
  function SetAccountInfo(s: Snapshot, response: AuthResponse): (r: Snapshot)
    ensures Preserves(s, r)
    ensures r.accountInfo.Some? && r.state == s.state && r.error == s.error
    ensures r.calls == s.calls && r.parameters == s.parameters
  {
    var info := MergeAccountInfo(s.accountInfo, response);
    s.(accountInfo := Some(info),
       notifications := s.notifications + Fanout(s.accountHandlers, AccountEvent(Some(info))))
  }

  /** `handleAcquireTokenSuccess`. */
  function HandleAcquireTokenSuccess(s: Snapshot, response: AuthResponse): (r: Snapshot)
    ensures Preserves(s, r)
    ensures r.accountInfo.Some? && r.state == s.state && r.error == s.error
    ensures r.calls == s.calls && r.parameters == s.parameters
  {
    var s1 := SetAccountInfo(s, response);
    match response.tokenType
    case IdToken => Dispatch(s1, AC.AcquireIdTokenSuccess(NewIdTokenResponse(response).value))
    case AccessToken => Dispatch(s1, AC.AcquireAccessTokenSuccess(NewAccessTokenResponse(response).value))
    case OtherToken => s1
  }

  /** The failure path shared by `login`, `loginToRefreshToken` and
      `processLogin`: record the error, then become unauthenticated. */
  function RecordFailure(s: Snapshot, e: AuthError): (r: Snapshot)
    ensures Preserves(s, r)
    ensures r.state == Some(Unauthenticated) && r.error == Some(e)
    ensures r.calls == s.calls && r.parameters == s.parameters
  {
    SetState(SetError(s, Some(e)), Unauthenticated)
  }

  /** The `Error` a token response constructor throws. */
  const InvalidTokenKindError := AuthError(InvalidTokenKind, "")

  /** The `TypeError` a token response constructor raises when given no response. */
  const MissingResponseError := AuthError(MissingResponse, "")

  /** `loginToRefreshToken`: after a failed silent acquisition, only an
      interaction-required error escalates to an interactive acquisition. The
      redirect flow resolves at once with no response. */
  function LoginToRefreshToken(s: Snapshot, error: AuthError, params: AuthParams, popup: Outcome)
    : (p: (Snapshot, Result<Option<AuthResponse>, AuthError>))
    ensures Preserves(s, p.0)
    ensures p.0.parameters == s.parameters
    ensures p.0.calls == s.calls +
      if error.kind != InteractionRequired then []
      else if s.options.loginType == Redirect then [AcquireTokenRedirect(params)]
      else [AcquireTokenPopup(params)]
    ensures error.kind != InteractionRequired ==>
      p.1 == Failure(error) && p.0.state == Some(Unauthenticated) && p.0.error == Some(error)
    ensures error.kind == InteractionRequired && s.options.loginType == Redirect ==>
      p.1 == Success(None) && p.0.state == s.state && p.0.error == s.error && p.0.accountInfo == s.accountInfo
    ensures error.kind == InteractionRequired && s.options.loginType != Redirect && popup.Succeeded? ==>
      p.1 == Success(Some(popup.response)) && p.0.state == Some(Authenticated) && p.0.error == s.error &&
      p.0.accountInfo == Some(MergeAccountInfo(s.accountInfo, popup.response))
    ensures error.kind == InteractionRequired && s.options.loginType != Redirect && popup.Failed? ==>
      p.1 == Failure(popup.error) && p.0.state == Some(Unauthenticated) && p.0.error == Some(popup.error)
  {
    if error.kind == InteractionRequired then
      if s.options.loginType == Redirect then
        (s.(calls := s.calls + [AcquireTokenRedirect(params)]), Success(None))
      else
        var s1 := s.(calls := s.calls + [AcquireTokenPopup(params)]);
        match popup
        case Succeeded(response) =>
          (SetState(HandleAcquireTokenSuccess(s1, response), Authenticated), Success(Some(response)))
        case Failed(e) =>
          (RecordFailure(s1, e), Failure(e))
    else
      (RecordFailure(s, error), Failure(error))
  }

  /** The parameters `getAccessToken` passes to the client: the caller's, or
      the provider's shared ones, with the caller's redirect URI if it has a
      non-empty one and the configured token refresh URI otherwise. */
  function AccessTokenParams(s: Snapshot, arg: Option<AuthParams>): AuthParams
  {
    var base := if arg.Some? then arg.value else s.parameters;
    base.(redirectUri := if arg.Some? && Truthy(arg.value.redirectUri) then arg.value.redirectUri
                         else s.options.tokenRefreshUri)
  }

  /** `getAccessToken`. Without an argument the shared parameters object itself
      receives the redirect URI. A successful response of another kind is
      handled first and then rejected by the constructor inside the `try`, so
      it takes the failure path. */
  function GetAccessToken(s: Snapshot, arg: Option<AuthParams>, silent: Outcome, popup: Outcome)
    : (p: (Snapshot, Result<AccessTokenResponse, AuthError>))
    ensures Preserves(s, p.0)
  {
    var params := AccessTokenParams(s, arg);
    var s0 := if arg.None? then s.(parameters := params) else s;
    var s1 := s0.(calls := s0.calls + [AcquireTokenSilent(params)]);
    match silent
    case Succeeded(response) => AcceptAccessToken(s1, response, params, popup)
    case Failed(e) => RecoverAccessToken(s1, e, params, popup)
  }

  /** The silent acquisition of `getAccessToken` resolved: store the
      response and become authenticated, then build the token; a response of
      another kind goes to the `catch` block. */
  function AcceptAccessToken(s: Snapshot, response: AuthResponse, params: AuthParams, popup: Outcome)
    : (p: (Snapshot, Result<AccessTokenResponse, AuthError>))
    ensures Preserves(s, p.0)
    ensures response.tokenType == AccessToken ==>
      p.1 == Success(AccessTokenResponse(response.accessToken, response.scopes, response.expiresOn, response.accountState)) &&
      p.0.state == Some(Authenticated) && p.0.error == s.error
    ensures response.tokenType != AccessToken ==>
      p.1 == Failure(InvalidTokenKindError) && p.0.state == Some(Unauthenticated) &&
      p.0.error == Some(InvalidTokenKindError)
    ensures p.0.accountInfo == Some(MergeAccountInfo(s.accountInfo, response))
  {
    var s1 := SetState(HandleAcquireTokenSuccess(s, response), Authenticated);
    match NewAccessTokenResponse(response)
    case Success(token) => (s1, Success(token))
    case Failure(_) => RecoverAccessToken(s1, InvalidTokenKindError, params, popup)
  }

  /** The `catch` block of `getAccessToken`. */
  function RecoverAccessToken(s: Snapshot, error: AuthError, params: AuthParams, popup: Outcome)
    : (p: (Snapshot, Result<AccessTokenResponse, AuthError>))
    ensures Preserves(s, p.0)
    ensures p.0.parameters == s.parameters
    ensures p.0.calls == s.calls +
      if error.kind != InteractionRequired then []
      else if s.options.loginType == Redirect then [AcquireTokenRedirect(params)]
      else [AcquireTokenPopup(params)]
    ensures error.kind != InteractionRequired ==>
      p.1 == Failure(error) && p.0.state == Some(Unauthenticated) && p.0.error == Some(error)
    ensures error.kind == InteractionRequired && s.options.loginType == Redirect ==>
      p.1 == Failure(MissingResponseError) && p.0.state == s.state && p.0.error == s.error
    ensures error.kind == InteractionRequired && s.options.loginType != Redirect && popup.Succeeded? ==>
      p.0.state == Some(Authenticated) && p.0.error == s.error &&
      p.1 == (if popup.response.tokenType == AccessToken
              then Success(AccessTokenResponse(popup.response.accessToken, popup.response.scopes,
                                               popup.response.expiresOn, popup.response.accountState))
              else Failure(InvalidTokenKindError))
    ensures error.kind == InteractionRequired && s.options.loginType != Redirect && popup.Failed? ==>
      p.1 == Failure(popup.error) && p.0.state == Some(Unauthenticated) && p.0.error == Some(popup.error)
  {
    var s1 := Dispatch(s, AC.AcquireAccessTokenError(error));
    var refreshed := LoginToRefreshToken(s1, error, params, popup);
    (refreshed.0,
     match refreshed.1
     case Failure(e) => Failure(e)
     case Success(None) => Failure(MissingResponseError)
     case Success(Some(response)) =>
       (match NewAccessTokenResponse(response)
        case Success(token) => Success(token)
        case Failure(_) => Failure(InvalidTokenKindError)))
  }

  /** The parameters `getIdToken` passes to the silent acquisition: a copy
      whose only scope is the client id, with the redirect URI chosen as for
      access tokens, and the cached account's user name as login hint when
      the caller gave no non-empty hint. */
  function IdTokenParams(s: Snapshot, arg: Option<AuthParams>, account: Option<Account>): AuthParams
  {
    var base := if arg.Some? then arg.value else s.parameters;
    var params := base.(redirectUri := if arg.Some? && Truthy(arg.value.redirectUri) then arg.value.redirectUri
                                       else s.options.tokenRefreshUri,
                        scopes := [s.clientId]);
    if account.Some? && (arg.None? || !Truthy(arg.value.loginHint)) then
      params.(loginHint := Some(account.value.userName))
    else params
  }

  /** `getIdToken`; `account` is what the client reports as its cached account. */
  function GetIdToken(s: Snapshot, arg: Option<AuthParams>, account: Option<Account>, silent: Outcome, popup: Outcome)
    : (p: (Snapshot, Result<IdTokenResponse, AuthError>))
    ensures Preserves(s, p.0)
  {
    var params := IdTokenParams(s, arg, account);
    var s1 := s.(calls := s.calls + [AcquireTokenSilent(params)]);
    match silent
    case Succeeded(response) => AcceptIdToken(s1, response, popup)
    case Failed(e) => RecoverIdToken(s1, e, popup)
  }

  /** The silent acquisition of `getIdToken` resolved, as for access
      tokens. */
  function AcceptIdToken(s: Snapshot, response: AuthResponse, popup: Outcome)
    : (p: (Snapshot, Result<IdTokenResponse, AuthError>))
    ensures Preserves(s, p.0)
    ensures response.tokenType == IdToken ==>
      p.1 == Success(IdTokenResponse(response.idToken, response.accountState)) &&
      p.0.state == Some(Authenticated) && p.0.error == s.error
    ensures response.tokenType != IdToken ==>
      p.1 == Failure(InvalidTokenKindError) && p.0.state == Some(Unauthenticated) &&
      p.0.error == Some(InvalidTokenKindError)
    ensures p.0.accountInfo == Some(MergeAccountInfo(s.accountInfo, response))
  {
    var s1 := SetState(HandleAcquireTokenSuccess(s, response), Authenticated);
    match NewIdTokenResponse(response)
    case Success(token) => (s1, Success(token))
    case Failure(_) => RecoverIdToken(s1, InvalidTokenKindError, popup)
  }

  /** The `catch` block of `getIdToken`: the fallback gets the shared
      parameters, not the client-id-scoped copy. */
  function RecoverIdToken(s: Snapshot, error: AuthError, popup: Outcome)
    : (p: (Snapshot, Result<IdTokenResponse, AuthError>))
    ensures Preserves(s, p.0)
    ensures p.0.parameters == s.parameters
    ensures p.0.calls == s.calls +
      if error.kind != InteractionRequired then []
      else if s.options.loginType == Redirect then [AcquireTokenRedirect(s.parameters)]
      else [AcquireTokenPopup(s.parameters)]
    ensures error.kind != InteractionRequired ==>
      p.1 == Failure(error) && p.0.state == Some(Unauthenticated) && p.0.error == Some(error)
    ensures error.kind == InteractionRequired && s.options.loginType == Redirect ==>
      p.1 == Failure(MissingResponseError) && p.0.state == s.state && p.0.error == s.error
    ensures error.kind == InteractionRequired && s.options.loginType != Redirect && popup.Succeeded? ==>
      p.0.state == Some(Authenticated) && p.0.error == s.error &&
      p.1 == (if popup.response.tokenType == IdToken
              then Success(IdTokenResponse(popup.response.idToken, popup.response.accountState))
              else Failure(InvalidTokenKindError))
    ensures error.kind == InteractionRequired && s.options.loginType != Redirect && popup.Failed? ==>
      p.1 == Failure(popup.error) && p.0.state == Some(Unauthenticated) && p.0.error == Some(popup.error)
  {
    var s1 := Dispatch(s, AC.AcquireIdTokenError(error));
    var refreshed := LoginToRefreshToken(s1, error, s1.parameters, popup);
    (refreshed.0,
     match refreshed.1
     case Failure(e) => Failure(e)
     case Success(None) => Failure(MissingResponseError)
     case Success(Some(response)) =>
       (match NewIdTokenResponse(response)
        case Success(token) => Success(token)
        case Failure(_) => Failure(InvalidTokenKindError)))
  }

  /** `handleLoginFailed`. */
  function HandleLoginFailed(s: Snapshot): (r: Snapshot)
    ensures Preserves(s, r)
    ensures Emitted(r) == Emitted(s) + (if s.error.Some? then [AC.LoginFailed()] else [])
  {
    if s.error.Some? then Dispatch(s, AC.LoginFailed()) else s
  }

  /** `handleLoginSuccess`. */
  function HandleLoginSuccess(s: Snapshot): (r: Snapshot)
    ensures Preserves(s, r)
    ensures Emitted(r) == Emitted(s) + (if s.accountInfo.Some? then [AC.LoginSuccessful(s.accountInfo.value)] else [])
  {
    if s.accountInfo.Some? then Dispatch(s, AC.LoginSuccessful(s.accountInfo.value)) else s
  }

  /** The error `processLogin` does not record itself. */
  predicate IsUserLoginError(e: AuthError)
  {
    e.kind == ClientAuth && e.errorCode == "user_login_error"
  }

  /** `processLogin`: the first matching branch of error present, cached
      account, login in progress, otherwise. */
  function ProcessLogin(s: Snapshot, account: Option<Account>, loginInProgress: bool, silent: Outcome, popup: Outcome)
    : (r: Snapshot)
    ensures Preserves(s, r)
    ensures r.state.Some?
  {
    if s.error.Some? then
      SetState(HandleLoginFailed(s), Unauthenticated)
    else if account.Some? then
      var p := GetIdToken(s, None, account, silent, popup);
      (match p.1
       case Success(_) => HandleLoginSuccess(p.0)
       case Failure(e) =>
         var s1 := if !IsUserLoginError(e) then SetError(p.0, Some(e)) else p.0;
         SetState(s1, Unauthenticated))
    else if loginInProgress then
      SetState(s, InProgress)
    else
      SetState(s, Unauthenticated)
  }

  /** `initializeProvider`. */
  function Initialize(s: Snapshot, account: Option<Account>, loginInProgress: bool, silent: Outcome, popup: Outcome)
    : (r: Snapshot)
    ensures Preserves(s, r)
    ensures r.state.Some?
  {
    Dispatch(ProcessLogin(Dispatch(s, AC.Initializing()), account, loginInProgress, silent, popup), AC.Initialized())
  }

  /** `authenticationRedirectCallback`, which the client invokes when a
      redirect flow comes back. */
  function RedirectCallback(s: Snapshot, error: Option<AuthError>, account: Option<Account>, loginInProgress: bool,
                            silent: Outcome, popup: Outcome): (r: Snapshot)
    ensures Preserves(s, r)
    ensures r.state.Some?
  {
    ProcessLogin(if error.Some? then SetError(s, error) else s, account, loginInProgress, silent, popup)
  }

  /** An error `login` clears before starting: any but the one raised
      inside the token renewal frame. */
  predicate IsStaleError(e: Option<AuthError>)
  {
    e.Some? && e.value.errorCode != "block_token_requests"
  }

  /** The first step of `login`: clear a stale error. */
  function ClearStaleError(s: Snapshot): (r: Snapshot)
    ensures Preserves(s, r)
    ensures r.error == (if IsStaleError(s.error) then None else s.error)
    ensures r.state == s.state && r.calls == s.calls && r.parameters == s.parameters
  {
    if IsStaleError(s.error) then SetError(s, None) else s
  }

  /** The step both flows of `login` share: become in progress, make the
      client's login call, and, if that call fails, record the failure and
      become unauthenticated. */
  function StartLogin(s: Snapshot, call: MsalCall, loginFailure: Option<AuthError>): (r: Snapshot)
    ensures Preserves(s, r)
    ensures r.calls == s.calls + [call]
    ensures r.state == Some(if loginFailure.Some? then Unauthenticated else InProgress)
    ensures r.error == (if loginFailure.Some? then loginFailure else s.error)
  {
    var s1 := SetState(s, InProgress);
    var s2 := s1.(calls := s1.calls + [call]);
    if loginFailure.Some? then RecordFailure(s2, loginFailure.value) else s2
  }

  /** `login`. `loginFailure` is the error the client's login call raised,
      if any; in popup mode `processLogin` always runs afterwards. */
  function Login(s: Snapshot, arg: Option<AuthParams>, loginFailure: Option<AuthError>, account: Option<Account>,
                 loginInProgress: bool, silent: Outcome, popup: Outcome): (r: Snapshot)
    ensures Preserves(s, r)
    ensures r.state.Some?
  {
    var params := if arg.Some? then arg.value else s.parameters;
    var s1 := ClearStaleError(s);
    if s.options.loginType == Redirect then
      PreservesTransitive(s, s1, StartLogin(s1, LoginRedirect(params), loginFailure));
      StartLogin(s1, LoginRedirect(params), loginFailure)
    else
      var s2 := StartLogin(s1, LoginPopup(params), loginFailure);
      PreservesTransitive(s, s1, s2);
      PreservesTransitive(s, s2, ProcessLogin(s2, account, loginInProgress, silent, popup));
      ProcessLogin(s2, account, loginInProgress, silent, popup)
  }

  /** `logout`. */
  function Logout(s: Snapshot): (r: Snapshot)
    ensures Preserves(s, r)
    ensures r.state == s.state
  {
    Dispatch(s.(calls := s.calls + [Msal.Logout]), AC.LogoutSuccessful())
  }

  // ---------------------------------------------------------------------------
  // Public operations that change the store or the handlers

  /** `registerReduxStore`: the queued actions go to the store, oldest first. */
  function RegisterStore(s: Snapshot): (r: Snapshot)
    ensures Inv(s) ==> Inv(r) && Emitted(r) == Emitted(s)
  {
    s.(storeRegistered := true, delivered := s.delivered + s.queue, queue := [])
  }

  function RegisterStateHandler(s: Snapshot, h: HandlerId): (r: Snapshot)
    requires s.state.Some?
    ensures Inv(s) ==> Inv(r)
  {
    s.(stateHandlers := Add(s.stateHandlers, h),
       notifications := s.notifications + [Notification(h, StateEvent(s.state.value))])
  }

  function UnregisterStateHandler(s: Snapshot, h: HandlerId): (r: Snapshot)
    ensures Inv(s) ==> Inv(r)
  {
    s.(stateHandlers := Remove(s.stateHandlers, h))
  }

  function RegisterAccountInfoHandler(s: Snapshot, h: HandlerId): (r: Snapshot)
    ensures Inv(s) ==> Inv(r)
  {
    s.(accountHandlers := Add(s.accountHandlers, h),
       notifications := s.notifications + [Notification(h, AccountEvent(s.accountInfo))])
  }

  function UnregisterAccountInfoHandler(s: Snapshot, h: HandlerId): (r: Snapshot)
    ensures Inv(s) ==> Inv(r)
  {
    s.(accountHandlers := Remove(s.accountHandlers, h))
  }

  function RegisterErrorHandler(s: Snapshot, h: HandlerId): (r: Snapshot)
    ensures Inv(s) ==> Inv(r)
  {
    s.(errorHandlers := Add(s.errorHandlers, h),
       notifications := s.notifications + [Notification(h, ErrorEvent(s.error))])
  }

  function UnregisterErrorHandler(s: Snapshot, h: HandlerId): (r: Snapshot)
    ensures Inv(s) ==> Inv(r)
  {
    s.(errorHandlers := Remove(s.errorHandlers, h))
  }

  /** `setProviderOptions`: choosing the redirect flow registers the redirect
      callback with the client. */
  function SetProviderOptions(s: Snapshot, options: ProviderOptions): (r: Snapshot)
    ensures Inv(s) ==> Inv(r)
    ensures r.calls == s.calls + (if options.loginType == Redirect then [HandleRedirectCallback] else [])
  {
    s.(options := options,
       calls := s.calls + if options.loginType == Redirect then [HandleRedirectCallback] else [])
  }

  /** A provider before its constructor has run any member. */
  function Fresh(clientId: string, parameters: AuthParams, options: ProviderOptions): (s: Snapshot)
    ensures Inv(s) && Emitted(s) == []
  {
    Snapshot(None, None, None, false, [], [], [], [], [], [], [], parameters, options, clientId)
  }

  /** The options the constructor uses: those it is given, or by default the
      popup flow with the page's origin (`window.location.origin`, here the
      parameter `origin`) as token refresh URI. */
  function OptionsOrDefault(options: Option<ProviderOptions>, origin: string): (r: ProviderOptions)
    ensures options.Some? ==> r == options.value
    ensures options.None? ==> r.loginType == Popup && r.tokenRefreshUri == Some(origin)
  {
    match options
    case Some(o) => o
    case None => ProviderOptions(Popup, Some(origin))
  }

  /** The constructor: store the parameters and options, then initialize. */
  function Construct(clientId: string, parameters: AuthParams, options: Option<ProviderOptions>, origin: string,
                     account: Option<Account>, loginInProgress: bool, silent: Outcome, popup: Outcome): (r: Snapshot)
    ensures Inv(r) && r.state.Some?
    ensures r.options == OptionsOrDefault(options, origin)
  {
    var o := OptionsOrDefault(options, origin);
    var s := SetProviderOptions(Fresh(clientId, parameters, o), o);
    PreservesKeepsInv(s, Initialize(s, account, loginInProgress, silent, popup));
    Initialize(s, account, loginInProgress, silent, popup)
  }
}
