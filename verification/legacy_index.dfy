/** The oldest `AzureAD` component, src/index.tsx: it owns the client itself,
    hands the signed-in record to a callback and, when a store is given,
    dispatches the two actions of src/actions.tsx. */
module LegacyIndex {
  import opened Wrappers
  import opened Redux
  import opened LegacyInterfaces
  import opened LegacyLoginActions
  import opened Binding

  /** What the client's redirect callback reports (`IRedirectLogin`). */
  datatype RedirectLogin = RedirectLogin(error: Option<string>, errorDesc: Option<string>, idToken: Option<string>,
                                         tokenType: Option<string>)

  /** The constructor's state: Authenticating exactly when the client's
      redirect callback fired while the client was being built. */
  function InitialState(redirect: Option<RedirectLogin>): (s: LegacyState)
    ensures s == Authenticating <==> redirect.Some?
    ensures s == Unauthenticated <==> redirect.None?
  {
    if redirect.Some? then Authenticating else Unauthenticated
  }

  /** The render `switch`: the authenticated function, nothing while
      authenticating, and the unauthenticated function otherwise. */
  function Render(state: LegacyState): (r: Rendered)
    ensures r == AuthFnResult <==> state == Authenticated
    ensures r == Nothing <==> state == Authenticating
    ensures r == UnauthFnResult <==> state == Unauthenticated
  {
    match state
    case Authenticated => AuthFnResult
    case Authenticating => Nothing
    case Unauthenticated => UnauthFnResult
  }

  /** The client call `login` makes: a popup exactly when the configured
      type is Popup, a redirect for any other or a missing type. */
  function LoginCall(loginType: Option<LegacyLoginType>, scopes: seq<string>): (c: LegacyCall)
    ensures c.LoginPopup? <==> loginType == Some(Popup)
    ensures c.LoginRedirect? <==> loginType != Some(Popup)
    ensures c.scopes == scopes
  {
    if loginType == Some(Popup) then LoginPopup(scopes) else LoginRedirect(scopes)
  }

  /** The record `acquireTokens` builds: from the silent token, else from
      the popup token, else none. */
  function AcquiredUserInfo(idToken: string, user: User, silent: TokenOutcome, popup: TokenOutcome): (u: Option<UserInfo>)
    ensures u.Some? <==> silent.Resolved? || popup.Resolved?
    ensures u.Some? ==> u.value.jwtIdToken == idToken && u.value.user == user
    ensures u.Some? ==> u.value.jwtAccessToken == if silent.Resolved? then silent.token else popup.token
  {
    if silent.Resolved? then Some(UserInfo(silent.token, idToken, user))
    else if popup.Resolved? then Some(UserInfo(popup.token, idToken, user))
    else None
  }

  function AsSeq<T>(o: Option<T>): seq<T>
  {
    if o.Some? then [o.value] else []
  }

  /** The records carried by the login actions of a dispatch log, in order. */
  function LoggedIn(actions: seq<Action<UserInfo>>): seq<UserInfo>
  {
    if actions == [] then []
    else
      (if actions[0].actionType == AAD_LOGIN_SUCCESS && actions[0].payload.Some? then [actions[0].payload.value] else []) +
      LoggedIn(actions[1..])
  }

  lemma {:induction false} LoggedInAppend(a: seq<Action<UserInfo>>, b: seq<Action<UserInfo>>)
    ensures LoggedIn(a + b) == LoggedIn(a) + LoggedIn(b)
    decreases |a|
  {
    if a != [] {
      assert (a + b)[0] == a[0];
      assert (a + b)[1..] == a[1..] + b;
      LoggedInAppend(a[1..], b);
    } else {
      assert a + b == b;
    }
  }

  /** A login action carries its record; a logout action carries none. */
  lemma LoggedInSingles(u: UserInfo)
    ensures LoggedIn([LoginSuccessful(u)]) == [u]
    ensures LoggedIn([LogoutSuccessful()]) == []
  {
    assert [LoginSuccessful(u)][1..] == [];
    assert [LogoutSuccessful()][1..] == [];
  }

  /** Every login action of a dispatch log carries a record. */
  predicate LoginsCarryRecords(actions: seq<Action<UserInfo>>)
  {
    forall i :: 0 <= i < |actions| && actions[i].actionType == AAD_LOGIN_SUCCESS ==> actions[i].payload.Some?
  }

  class LegacyIndexAzureAD {
    const scopes: seq<string>
    const hasStore: bool
    const loginType: Option<LegacyLoginType>
    var authenticationState: LegacyState
    var redirectLoginInfo: Option<RedirectLogin>
    var userInfoCallbackCalls: seq<UserInfo>
    var dispatched: seq<Action<UserInfo>>
    var calls: seq<LegacyCall>

    /** Nothing is dispatched without a store; with one, the store is told
        of exactly the records the callback received, in the same order, and
        every login action carries its record. */
    ghost predicate Valid()
      reads this
    {
      (!hasStore ==> dispatched == []) &&
      LoginsCarryRecords(dispatched) &&
      LoggedIn(dispatched) == (if hasStore then userInfoCallbackCalls else [])
    }

    constructor (scopes: seq<string>, hasStore: bool, loginType: Option<LegacyLoginType>, redirect: Option<RedirectLogin>)
      ensures Valid()
      ensures authenticationState == InitialState(redirect) && redirectLoginInfo == redirect
      ensures userInfoCallbackCalls == [] && dispatched == [] && calls == []
      ensures this.scopes == scopes && this.hasStore == hasStore && this.loginType == loginType
    {
      this.scopes := scopes;
      this.hasStore := hasStore;
      this.loginType := loginType;
      authenticationState := if redirect.Some? then Authenticating else Unauthenticated;
      redirectLoginInfo := redirect;
      userInfoCallbackCalls := [];
      dispatched := [];
      calls := [];
    }

    /** `componentDidMount`: a redirect that brought an ID token goes on to
        acquire tokens; a redirect error is only logged. */
    method ComponentDidMount(user: User, silent: TokenOutcome, popup: TokenOutcome)
      requires Valid()
      modifies this
      ensures Valid()
      ensures var go := redirectLoginInfo.Some? && Truthy(redirectLoginInfo.value.idToken);
        calls == old(calls) +
          (if go then [AcquireTokenSilent(scopes)] + (if silent.Rejected? then [AcquireTokenPopup(scopes)] else [])
           else []) &&
        userInfoCallbackCalls == old(userInfoCallbackCalls) +
          (if go then AsSeq(AcquiredUserInfo(redirectLoginInfo.value.idToken.value, user, silent, popup)) else []) &&
        authenticationState == if go && silent.Resolved? then Authenticated else old(authenticationState)
      ensures redirectLoginInfo == old(redirectLoginInfo)
    {
      if redirectLoginInfo.Some? {
        if Truthy(redirectLoginInfo.value.idToken) {
          AcquireTokens(redirectLoginInfo.value.idToken.value, user, silent, popup);
        }
      }
    }

    /** `createUserInfo`: the record goes to the callback and, when a store
        is given, to the store as a login action. */
    method CreateUserInfo(accessToken: string, idToken: string, user: User)
      requires Valid()
      modifies this
      ensures Valid()
      ensures userInfoCallbackCalls == old(userInfoCallbackCalls) + [UserInfo(accessToken, idToken, user)]
      ensures dispatched == old(dispatched) + if hasStore then [LoginSuccessful(UserInfo(accessToken, idToken, user))] else []
      ensures authenticationState == old(authenticationState) && calls == old(calls)
      ensures redirectLoginInfo == old(redirectLoginInfo)
    {
      var info := UserInfo(accessToken, idToken, user);
      userInfoCallbackCalls := userInfoCallbackCalls + [info];
      if hasStore {
        LoggedInAppend(dispatched, [LoginSuccessful(info)]);
        LoggedInSingles(info);
        dispatched := dispatched + [LoginSuccessful(info)];
      }
    }

    /** `resetUserInfo`: always Unauthenticated; a logout action only when
        a store is given. */
    method ResetUserInfo()
      requires Valid()
      modifies this
      ensures Valid()
      ensures authenticationState == Unauthenticated
      ensures dispatched == old(dispatched) + if hasStore then [LogoutSuccessful()] else []
      ensures userInfoCallbackCalls == old(userInfoCallbackCalls) && calls == old(calls)
      ensures redirectLoginInfo == old(redirectLoginInfo)
    {
      if hasStore {
        LoggedInAppend(dispatched, [LogoutSuccessful()]);
        LoggedInSingles(UserInfo("", "", User("", "", None)));
        dispatched := dispatched + [LogoutSuccessful()];
      }
      authenticationState := Unauthenticated;
    }

    /** `acquireTokens`: a silently acquired token yields the record and
        Authenticated; after a silent failure a popup token yields the record
        but leaves the state as it was. */
    method AcquireTokens(idToken: string, user: User, silent: TokenOutcome, popup: TokenOutcome)
      requires Valid()
      modifies this
      ensures Valid()
      ensures calls == old(calls) + [AcquireTokenSilent(scopes)] + if silent.Rejected? then [AcquireTokenPopup(scopes)] else []
      ensures userInfoCallbackCalls == old(userInfoCallbackCalls) + AsSeq(AcquiredUserInfo(idToken, user, silent, popup))
      ensures authenticationState == if silent.Resolved? then Authenticated else old(authenticationState)
      ensures redirectLoginInfo == old(redirectLoginInfo)
    {
      calls := calls + [AcquireTokenSilent(scopes)];
      match silent
      case Resolved(accessToken) =>
        CreateUserInfo(accessToken, idToken, user);
        authenticationState := Authenticated;
      case Rejected(_) =>
        calls := calls + [AcquireTokenPopup(scopes)];
        match popup
        case Resolved(accessToken) =>
          CreateUserInfo(accessToken, idToken, user);
        case Rejected(_) =>
    }

    /** `login`: a popup whose ID token goes on to acquire tokens, or a
        redirect that leaves the page. */
    method Login(loginPopup: TokenOutcome, user: User, silent: TokenOutcome, popup: TokenOutcome)
      requires Valid()
      modifies this
      ensures Valid()
      ensures var acquire := loginType == Some(Popup) && loginPopup.Resolved?;
        calls == old(calls) + [LoginCall(loginType, scopes)] +
          (if acquire then [AcquireTokenSilent(scopes)] + (if silent.Rejected? then [AcquireTokenPopup(scopes)] else [])
           else []) &&
        userInfoCallbackCalls == old(userInfoCallbackCalls) +
          (if acquire then AsSeq(AcquiredUserInfo(loginPopup.token, user, silent, popup)) else []) &&
        authenticationState == if acquire && silent.Resolved? then Authenticated else old(authenticationState)
      ensures redirectLoginInfo == old(redirectLoginInfo)
    {
      if loginType == Some(Popup) {
        calls := calls + [LoginPopup(scopes)];
        match loginPopup
        case Resolved(idToken) =>
          AcquireTokens(idToken, user, silent, popup);
        case Rejected(_) =>
      } else {
        calls := calls + [LoginRedirect(scopes)];
      }
    }

    /** `logout`: only an authenticated user is reset and logged out of the
        client. */
    method Logout()
      requires Valid()
      modifies this
      ensures Valid()
      ensures old(authenticationState) != Authenticated ==>
        authenticationState == old(authenticationState) && dispatched == old(dispatched) && calls == old(calls)
      ensures old(authenticationState) == Authenticated ==>
        authenticationState == Unauthenticated && calls == old(calls) + [ClientLogout] &&
        dispatched == old(dispatched) + if hasStore then [LogoutSuccessful()] else []
      ensures userInfoCallbackCalls == old(userInfoCallbackCalls)
    {
      if authenticationState != Authenticated {
        return;
      }
      ResetUserInfo();
      calls := calls + [ClientLogout];
    }
  }
}
