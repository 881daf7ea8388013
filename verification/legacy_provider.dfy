/** The legacy provider base class of src/MsalAuthProvider.ts. Browser storage,
    the clock, the client's current user and whether a login is in progress
    are parameters; the client's calls are logged and their promises are
    given as outcomes. As for the current provider, the transitions are pure
    functions over a `Snapshot` and the class's methods are proved against
    them. */
module LegacyProviderModel {
  import opened Wrappers
  import opened LegacyInterfaces

  const IdTokenKey: string := "msal.idtoken"
  const LocalStorage: string := "localStorage"
  const SessionStorage: string := "sessionStorage"

  /** The client's cache location: local storage exactly when the login is
      to persist past the session. */
  function CacheLocation(persistLoginPastSession: bool): (location: string)
    ensures location == LocalStorage <==> persistLoginPastSession
    ensures location == SessionStorage <==> !persistLoginPastSession
  {
    if persistLoginPastSession then LocalStorage else SessionStorage
  }

  /** The browser's two key-value stores. */
  datatype Storage = Storage(local: map<string, string>, session: map<string, string>)

  datatype StorageError = UnrecognizedStorageLocation

  function Lookup(m: map<string, string>, key: string): Option<string>
  {
    if key in m then Some(m[key]) else None
  }

  /** `getCacheItem`: read from the store the location names; any other
      location name is an error. */
  function GetCacheItem(storage: Storage, location: string, key: string): (r: Result<Option<string>, StorageError>)
    ensures r.Failure? <==> location != LocalStorage && location != SessionStorage
    ensures location == LocalStorage ==> r == Success(Lookup(storage.local, key))
    ensures location == SessionStorage ==> r == Success(Lookup(storage.session, key))
  {
    if location == LocalStorage then Success(Lookup(storage.local, key))
    else if location == SessionStorage then Success(Lookup(storage.session, key))
    else Failure(UnrecognizedStorageLocation)
  }

  /** The cached ID token at the configured location, which is always one
      of the two known names. */
  function CachedIdToken(storage: Storage, persistLoginPastSession: bool): (t: Option<string>)
    ensures t == Lookup(if persistLoginPastSession then storage.local else storage.session, IdTokenKey)
  {
    var r := GetCacheItem(storage, CacheLocation(persistLoginPastSession), IdTokenKey);
    assert r.Success?;
    r.value
  }

  /** `isTokenExpired`: `exp` is in seconds and `now` in milliseconds; a
      missing or zero `exp` counts as expired. */
  function IsTokenExpired(exp: Option<int>, now: int): (expired: bool)
    ensures exp.None? ==> expired
    ensures exp == Some(0) ==> expired
    ensures exp.Some? && exp.value != 0 ==> (expired <==> now >= exp.value * 1000)
  {
    if exp.Some? && exp.value != 0 && now < exp.value * 1000 then false else true
  }

  /** An expired token stays expired as time goes on. */
  lemma ExpiryIsPermanent(exp: Option<int>, now: int, later: int)
    requires now <= later
    requires IsTokenExpired(exp, now)
    ensures IsTokenExpired(exp, later)
  {
  }

  /** A token with a non-zero `exp` expires exactly at `exp` seconds: valid
      one millisecond before, expired from that instant on. */
  lemma ExpiryInstant(exp: int)
    requires exp != 0
    ensures !IsTokenExpired(Some(exp), exp * 1000 - 1)
    ensures IsTokenExpired(Some(exp), exp * 1000)
  {
  }

  /** `isLoggedIn`: a current user, a non-empty cached ID token, and an
      unexpired ID token on that user. */
  function IsLoggedIn(user: Option<User>, storage: Storage, persistLoginPastSession: bool, now: int): (b: bool)
    ensures b <==>
      user.Some? &&
      Truthy(Lookup(if persistLoginPastSession then storage.local else storage.session, IdTokenKey)) &&
      !IsTokenExpired(user.value.idTokenExp, now)
  {
    if user.Some? then
      Truthy(CachedIdToken(storage, persistLoginPastSession)) && !IsTokenExpired(user.value.idTokenExp, now)
    else
      false
  }

  /** What `checkIfUserAuthenticated` does next. */
  datatype StartupStep = AcquireTokensWith(idToken: string) | Settle(state: LegacyState)

  /** `checkIfUserAuthenticated`: acquire tokens with the cached ID token
      when logged in, else wait for a login in progress, else settle
      unauthenticated. */
  function StartupDecision(user: Option<User>, storage: Storage, persistLoginPastSession: bool, loginInProgress: bool,
                           now: int): (d: StartupStep)
    ensures d.AcquireTokensWith? <==> IsLoggedIn(user, storage, persistLoginPastSession, now)
    ensures d.AcquireTokensWith? ==> Some(d.idToken) == CachedIdToken(storage, persistLoginPastSession) && d.idToken != ""
    ensures d == Settle(Authenticating) <==> !IsLoggedIn(user, storage, persistLoginPastSession, now) && loginInProgress
    ensures d == Settle(Unauthenticated) <==> !IsLoggedIn(user, storage, persistLoginPastSession, now) && !loginInProgress
  {
    if IsLoggedIn(user, storage, persistLoginPastSession, now) then
      AcquireTokensWith(CachedIdToken(storage, persistLoginPastSession).value)
    else if loginInProgress then
      Settle(Authenticating)
    else
      Settle(Unauthenticated)
  }

  /** One invocation of `onAuthenticationStateChanged`. */
  datatype Notice = Notice(state: LegacyState, userInfo: Option<UserInfo>)

  /** The provider's fields; `state` is `None` until the first transition. */
  datatype Snapshot = Snapshot(state: Option<LegacyState>, userInfo: Option<UserInfo>, hasCallback: bool,
                               notices: seq<Notice>, calls: seq<LegacyCall>)

  /** The callback sees user information only together with Authenticated,
      never the same state twice in a row, and its last notice is the
      current state. Notices exist only once a callback is set. */
  ghost predicate Inv(s: Snapshot)
  {
    (forall i :: 0 <= i < |s.notices| ==> s.notices[i].userInfo.Some? ==> s.notices[i].state == Authenticated) &&
    (forall i :: 0 < i < |s.notices| ==> s.notices[i - 1].state != s.notices[i].state) &&
    (|s.notices| > 0 ==> s.hasCallback && s.state == Some(s.notices[|s.notices| - 1].state))
  }

  /** `setAuthenticationState`. */
  function SetState(s: Snapshot, x: LegacyState): (r: Snapshot)
    ensures r.state == Some(x)
    ensures r.userInfo == s.userInfo && r.hasCallback == s.hasCallback && r.calls == s.calls
  {
    if s.state == Some(x) then s
    else
      s.(state := Some(x),
         notices := s.notices +
           if s.hasCallback then [Notice(x, if x == Authenticated then s.userInfo else None)] else [])
  }

  /** Setting the current state does nothing. */
  lemma SetStateUnchanged(s: Snapshot, x: LegacyState)
    requires s.state == Some(x)
    ensures SetState(s, x) == s
  {
  }

  /** A new state is stored and notified once, when a callback is set, with
      the user information exactly when the new state is Authenticated. */
  lemma SetStateChanged(s: Snapshot, x: LegacyState)
    requires s.state != Some(x)
    ensures SetState(s, x).notices ==
      s.notices + if s.hasCallback then [Notice(x, if x == Authenticated then s.userInfo else None)] else []
  {
  }

  lemma {:induction false} SetStateKeepsInv(s: Snapshot, x: LegacyState)
    requires Inv(s)
    ensures Inv(SetState(s, x))
  {
    var r := SetState(s, x);
    if s.state != Some(x) && s.hasCallback {
      var n := |s.notices|;
      assert r.notices[n] == Notice(x, if x == Authenticated then s.userInfo else None);
      assert forall i :: 0 <= i < n ==> r.notices[i] == s.notices[i];
      assert n > 0 ==> r.notices[n - 1].state == s.state.value;
    }
  }

  /** `saveUserInfo`. */
  function SaveUserInfo(s: Snapshot, accessToken: string, idToken: string, user: User): (r: Snapshot)
    ensures r.userInfo == Some(UserInfo(accessToken, idToken, user))
    ensures r.state == Some(Authenticated)
    ensures r.calls == s.calls
  {
    SetState(s.(userInfo := Some(UserInfo(accessToken, idToken, user))), Authenticated)
  }

  /** A notice sent while saving carries exactly the saved record. */
  lemma SaveUserInfoNotifies(s: Snapshot, accessToken: string, idToken: string, user: User)
    requires s.state != Some(Authenticated) && s.hasCallback
    ensures SaveUserInfo(s, accessToken, idToken, user).notices ==
      s.notices + [Notice(Authenticated, Some(UserInfo(accessToken, idToken, user)))]
  {
  }

  /** `acquireTokens`: a silent acquisition, and after its failure an
      unauthenticated state and a popup acquisition; a token from either is
      saved with the given ID token and user. */
  function AcquireTokens(s: Snapshot, scopes: seq<string>, idToken: string, user: User, silent: TokenOutcome,
                         popup: TokenOutcome): (r: Snapshot)
    ensures r.calls == s.calls + [AcquireTokenSilent(scopes)] + if silent.Rejected? then [AcquireTokenPopup(scopes)] else []
    ensures r.hasCallback == s.hasCallback
  {
    var s1 := s.(calls := s.calls + [AcquireTokenSilent(scopes)]);
    match silent
    case Resolved(accessToken) => SaveUserInfo(s1, accessToken, idToken, user)
    case Rejected(_) =>
      var s2 := SetState(s1, Unauthenticated).(calls := s1.calls + [AcquireTokenPopup(scopes)]);
      match popup
      case Resolved(accessToken) => SaveUserInfo(s2, accessToken, idToken, user)
      case Rejected(_) => SetState(s2, Unauthenticated)
  }

  /** Whichever acquisition succeeds, its token is saved with the ID token
      and the provider is Authenticated; when both fail the provider is
      Unauthenticated, its user information is untouched and the callback
      hears of it at most once. */
  lemma AcquireTokensOutcome(s: Snapshot, scopes: seq<string>, idToken: string, user: User, silent: TokenOutcome,
                             popup: TokenOutcome)
    ensures var r := AcquireTokens(s, scopes, idToken, user, silent, popup);
      if silent.Resolved? then
        r.state == Some(Authenticated) && r.userInfo == Some(UserInfo(silent.token, idToken, user))
      else if popup.Resolved? then
        r.state == Some(Authenticated) && r.userInfo == Some(UserInfo(popup.token, idToken, user))
      else
        r.state == Some(Unauthenticated) && r.userInfo == s.userInfo &&
        r.notices == s.notices +
          if s.state != Some(Unauthenticated) && s.hasCallback then [Notice(Unauthenticated, None)] else []
  {
  }

  lemma AcquireTokensKeepsInv(s: Snapshot, scopes: seq<string>, idToken: string, user: User, silent: TokenOutcome,
                              popup: TokenOutcome)
    requires Inv(s)
    ensures Inv(AcquireTokens(s, scopes, idToken, user, silent, popup))
  {
    var s1 := s.(calls := s.calls + [AcquireTokenSilent(scopes)]);
    match silent
    case Resolved(accessToken) =>
      SetStateKeepsInv(s1.(userInfo := Some(UserInfo(accessToken, idToken, user))), Authenticated);
    case Rejected(_) =>
      SetStateKeepsInv(s1, Unauthenticated);
      var s2 := SetState(s1, Unauthenticated).(calls := s1.calls + [AcquireTokenPopup(scopes)]);
      match popup
      case Resolved(accessToken) =>
        SetStateKeepsInv(s2.(userInfo := Some(UserInfo(accessToken, idToken, user))), Authenticated);
      case Rejected(_) =>
        SetStateKeepsInv(s2, Unauthenticated);
  }

  /** The environment the constructor meets: the client's current user,
      browser storage, whether a login is in progress, and the time. */
  datatype Environment = Environment(user: Option<User>, storage: Storage, loginInProgress: bool, now: int)

  /** `checkIfUserAuthenticated`. */
  function CheckIfUserAuthenticated(s: Snapshot, persistLoginPastSession: bool, scopes: seq<string>, env: Environment,
                                    silent: TokenOutcome, popup: TokenOutcome): (r: Snapshot)
    ensures r.state.Some?
  {
    match StartupDecision(env.user, env.storage, persistLoginPastSession, env.loginInProgress, env.now)
    case AcquireTokensWith(idToken) =>
      var r := AcquireTokens(s, scopes, idToken, env.user.value, silent, popup);
      AcquireTokensOutcome(s, scopes, idToken, env.user.value, silent, popup);
      r
    case Settle(x) => SetState(s, x)
  }

  /** A provider just constructed: no state, no user, no callback. */
  function Fresh(): (r: Snapshot)
    ensures Inv(r) && r.state.None? && r.notices == []
  {
    Snapshot(None, None, false, [], [])
  }

  /** The constructor: the startup decision on a fresh provider. No
      callback can be set yet, so it notifies nobody. */
  function Construct(persistLoginPastSession: bool, scopes: seq<string>, env: Environment, silent: TokenOutcome,
                     popup: TokenOutcome): (r: Snapshot)
    ensures Inv(r) && r.state.Some? && r.notices == [] && !r.hasCallback
  {
    var s := Fresh();
    var r := CheckIfUserAuthenticated(s, persistLoginPastSession, scopes, env, silent, popup);
    match StartupDecision(env.user, env.storage, persistLoginPastSession, env.loginInProgress, env.now)
    case AcquireTokensWith(idToken) =>
      AcquireTokensKeepsInv(s, scopes, idToken, env.user.value, silent, popup);
      r
    case Settle(x) =>
      SetStateKeepsInv(s, x);
      r
  }

  /** A logged-in start saves the silently acquired token with the cached
      ID token and ends Authenticated. */
  lemma StartupLoggedIn(persistLoginPastSession: bool, scopes: seq<string>, env: Environment, accessToken: string,
                        popup: TokenOutcome)
    requires IsLoggedIn(env.user, env.storage, persistLoginPastSession, env.now)
    ensures var r := Construct(persistLoginPastSession, scopes, env, Resolved(accessToken), popup);
      r.state == Some(Authenticated) &&
      r.userInfo == Some(UserInfo(accessToken, CachedIdToken(env.storage, persistLoginPastSession).value, env.user.value)) &&
      r.calls == [AcquireTokenSilent(scopes)]
  {
    var d := StartupDecision(env.user, env.storage, persistLoginPastSession, env.loginInProgress, env.now);
    AcquireTokensOutcome(Fresh(), scopes, d.idToken, env.user.value, Resolved(accessToken), popup);
  }

  /** A start that is not logged in calls nobody and settles on
      Authenticating or Unauthenticated as a login is or is not in
      progress. */
  lemma StartupNotLoggedIn(persistLoginPastSession: bool, scopes: seq<string>, env: Environment, silent: TokenOutcome,
                           popup: TokenOutcome)
    requires !IsLoggedIn(env.user, env.storage, persistLoginPastSession, env.now)
    ensures var r := Construct(persistLoginPastSession, scopes, env, silent, popup);
      r.state == Some(if env.loginInProgress then Authenticating else Unauthenticated) &&
      r.calls == [] && r.userInfo.None?
  {
  }
}

/** The legacy provider class, proved against the transitions above. */
module LegacyProvider {
  import opened Wrappers
  import opened LegacyInterfaces
  import opened LegacyProviderModel

  /** The legacy provider. `hasCallback` records whether
      `onAuthenticationStateChanged` has been assigned; its invocations are
      logged in `notices`. */
  class LegacyMsalAuthProvider {
    const persistLoginPastSession: bool
    const scopes: seq<string>
    var authenticationState: Option<LegacyState>
    var userInfo: Option<UserInfo>
    var hasCallback: bool
    var notices: seq<Notice>
    var calls: seq<LegacyCall>

    function Snap(): Snapshot
      reads this
    {
      Snapshot(authenticationState, userInfo, hasCallback, notices, calls)
    }

    ghost predicate Valid()
      reads this
    {
      Inv(Snap()) && authenticationState.Some?
    }

    constructor (persistLoginPastSession: bool, scopes: seq<string>, env: Environment, silent: TokenOutcome,
                 popup: TokenOutcome)
      ensures Valid()
      ensures Snap() == Construct(persistLoginPastSession, scopes, env, silent, popup)
      ensures this.persistLoginPastSession == persistLoginPastSession && this.scopes == scopes
    {
      this.persistLoginPastSession := persistLoginPastSession;
      this.scopes := scopes;
      authenticationState := None;
      userInfo := None;
      hasCallback := false;
      notices := [];
      calls := [];
      new;
      CheckIfUserAuthenticated(env, silent, popup);
    }

    /** The assignment of `onAuthenticationStateChanged`. */
    method SetAuthenticationStateChangedCallback()
      requires Valid()
      modifies this
      ensures Valid()
      ensures Snap() == old(Snap()).(hasCallback := true)
    {
      hasCallback := true;
    }

    method Logout()
      requires Valid()
      modifies this
      ensures Valid()
      ensures Snap() == old(Snap()).(calls := old(calls) + [ClientLogout])
    {
      calls := calls + [ClientLogout];
    }

    method SetAuthenticationState(x: LegacyState)
      modifies this
      ensures Snap() == SetState(old(Snap()), x)
    {
      if authenticationState != Some(x) {
        authenticationState := Some(x);
        if hasCallback {
          notices := notices + [Notice(x, if x == Authenticated then userInfo else None)];
        }
      }
    }

    method SaveUserInfo(accessToken: string, idToken: string, user: User)
      modifies this
      ensures Snap() == LegacyProviderModel.SaveUserInfo(old(Snap()), accessToken, idToken, user)
    {
      userInfo := Some(UserInfo(accessToken, idToken, user));
      SetAuthenticationState(Authenticated);
    }

    method AcquireTokens(idToken: string, user: User, silent: TokenOutcome, popup: TokenOutcome)
      modifies this
      ensures Snap() == LegacyProviderModel.AcquireTokens(old(Snap()), scopes, idToken, user, silent, popup)
    {
      calls := calls + [AcquireTokenSilent(scopes)];
      match silent
      case Resolved(accessToken) =>
        SaveUserInfo(accessToken, idToken, user);
      case Rejected(_) =>
        SetAuthenticationState(Unauthenticated);
        calls := calls + [AcquireTokenPopup(scopes)];
        match popup
        case Resolved(accessToken) =>
          SaveUserInfo(accessToken, idToken, user);
        case Rejected(_) =>
          SetAuthenticationState(Unauthenticated);
    }

    method CheckIfUserAuthenticated(env: Environment, silent: TokenOutcome, popup: TokenOutcome)
      modifies this
      ensures Snap() == LegacyProviderModel.CheckIfUserAuthenticated(old(Snap()), persistLoginPastSession, scopes, env, silent,
                                                                popup)
    {
      var d := StartupDecision(env.user, env.storage, persistLoginPastSession, env.loginInProgress, env.now);
      match d
      case AcquireTokensWith(idToken) =>
        AcquireTokens(idToken, env.user.value, silent, popup);
      case Settle(x) =>
        SetAuthenticationState(x);
    }
  }
}
