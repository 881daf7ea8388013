/** The root reducer of samples/react-typescript/src/reduxStore.ts, which
    consumes the current provider's action stream. Its `any`-typed state is
    a record of the fields it names; `null` and a missing field are both
    `None`. */
module SampleReducer {
  import opened Wrappers
  import opened Enums
  import opened Msal
  import opened Interfaces
  import opened Redux
  import opened TokenResponses
  import opened AA = AuthenticationActions
  import AC = AuthenticationActionCreators
  import ProviderModel
  import ProviderProperties

  datatype StoreState = StoreState(
    initializing: bool,
    initialized: bool,
    idToken: Option<AC.Payload>,
    accessToken: Option<AC.Payload>,
    account: Option<Account>,
    state: Option<AuthenticationState>)

  /** Reading `payload.account` of an action without a payload throws. */
  datatype ReducerError = MissingPayload

  const InitialState: StoreState := StoreState(false, false, None, None, None, Some(Unauthenticated))

  /** `payload.account`: the account of an account-info payload, missing
      for any other payload. */
  function AccountOf(p: AC.Payload): (a: Option<Account>)
    ensures a.Some? <==> p.AccountInfoPayload?
  {
    if p.AccountInfoPayload? then Some(p.info.account) else None
  }

  function StateOf(p: Option<AC.Payload>): (x: Option<AuthenticationState>)
    ensures x.Some? <==> p.Some? && p.value.StatePayload?
  {
    if p.Some? && p.value.StatePayload? then Some(p.value.state) else None
  }

  /** `rootReducer`. */
  function RootReducer(st: StoreState, a: AC.AuthAction): (r: Result<StoreState, ReducerError>)
    ensures r.Failure? <==> AA.KindOf(a.actionType) == Some(AA.LoginSuccess) && a.payload.None?
  {
    match AA.KindOf(a.actionType)
    case Some(Initializing) => Success(st.(initializing := true, initialized := false))
    case Some(Initialized) => Success(st.(initializing := false, initialized := true))
    case Some(AcquiredIdTokenSuccess) => Success(st.(idToken := a.payload))
    case Some(AcquiredAccessTokenSuccess) => Success(st.(accessToken := a.payload))
    case Some(AcquiredAccessTokenError) => Success(st.(accessToken := None))
    case Some(LoginSuccess) =>
      if a.payload.None? then Failure(MissingPayload) else Success(st.(account := AccountOf(a.payload.value)))
    case Some(LoginError) => Success(st.(idToken := None, accessToken := None, account := None))
    case Some(AcquiredIdTokenError) => Success(st.(idToken := None, accessToken := None, account := None))
    case Some(LogoutSuccess) => Success(st.(idToken := None, accessToken := None, account := None))
    case Some(AuthenticatedStateChanged) => Success(st.(state := StateOf(a.payload)))
    case _ => Success(st)
  }

  /** The two lifecycle flags are set in opposition. */
  lemma ReduceLifecycle(st: StoreState)
    ensures RootReducer(st, AC.Initializing()) == Success(st.(initializing := true, initialized := false))
    ensures RootReducer(st, AC.Initialized()) == Success(st.(initializing := false, initialized := true))
  {
  }

  /** A token success sets only its own field, to the whole response. */
  lemma ReduceTokenSuccess(st: StoreState, id: IdTokenResponse, access: AccessTokenResponse)
    ensures RootReducer(st, AC.AcquireIdTokenSuccess(id)) == Success(st.(idToken := Some(AC.IdTokenPayload(id))))
    ensures RootReducer(st, AC.AcquireAccessTokenSuccess(access)) ==
      Success(st.(accessToken := Some(AC.AccessTokenPayload(access))))
  {
  }

  /** An access-token error clears only the access token; a login error, an
      ID-token error and a logout clear both tokens and the account and
      nothing else. */
  lemma ReduceClears(st: StoreState, e: AuthError)
    ensures RootReducer(st, AC.AcquireAccessTokenError(e)) == Success(st.(accessToken := None))
    ensures RootReducer(st, AC.LoginError(e)) == Success(st.(idToken := None, accessToken := None, account := None))
    ensures RootReducer(st, AC.AcquireIdTokenError(e)) == Success(st.(idToken := None, accessToken := None, account := None))
    ensures RootReducer(st, AC.LogoutSuccessful()) == Success(st.(idToken := None, accessToken := None, account := None))
  {
  }

  /** A login success records the account of its account info; a state
      change records its state. */
  lemma ReduceLoginAndState(st: StoreState, info: AccountInfo, x: AuthenticationState)
    ensures RootReducer(st, AC.LoginSuccessful(info)) == Success(st.(account := Some(info.account)))
    ensures RootReducer(st, AC.AuthenticatedStateChanged(x)) == Success(st.(state := Some(x)))
  {
  }

  /** An action the `switch` does not name, including the failed-login and
      clear-error tags, leaves the state as it is. */
  lemma ReduceUnknown(st: StoreState, a: AC.AuthAction)
    requires AA.KindOf(a.actionType) in {None, Some(AA.LoginFailed), Some(AA.ClearError)}
    ensures RootReducer(st, a) == Success(st)
  {
  }

  /** The store after a stream of actions, stopping at the first failure. */
  function ReduceAll(st: StoreState, actions: seq<AC.AuthAction>): Result<StoreState, ReducerError>
    decreases |actions|
  {
    if actions == [] then Success(st)
    else
      match RootReducer(st, actions[0])
      case Failure(e) => Failure(e)
      case Success(st1) => ReduceAll(st1, actions[1..])
  }

  lemma {:induction false} ReduceAllAppend(st: StoreState, a: seq<AC.AuthAction>, b: seq<AC.AuthAction>)
    ensures ReduceAll(st, a + b) ==
      match ReduceAll(st, a)
      case Failure(e) => Failure(e)
      case Success(mid) => ReduceAll(mid, b)
    decreases |a|
  {
    if a == [] {
      assert a + b == b;
    } else {
      assert (a + b)[0] == a[0];
      assert (a + b)[1..] == a[1..] + b;
      match RootReducer(st, a[0])
      case Failure(_) =>
      case Success(st1) => ReduceAllAppend(st1, a[1..], b);
    }
  }

  /** Every action the provider's creators make is accepted. */
  lemma CreatorsAccepted(st: StoreState, k: AA.ActionKind, info: AccountInfo, error: AuthError,
                         idToken: IdTokenResponse, accessToken: AccessTokenResponse, x: AuthenticationState)
    ensures RootReducer(st, AC.CreatorOf(k, info, error, idToken, accessToken, x)).Success?
  {
  }

  /** A store that has taken in everything the provider emitted up to the
      end of an initialization reports it initialized and no longer
      initializing. */
  lemma StoreInitializedAfterInitialize(st: StoreState, s: ProviderModel.Snapshot, account: Option<Account>,
                                        loginInProgress: bool, silent: Outcome, popup: Outcome)
    requires ReduceAll(st, ProviderModel.Emitted(ProviderModel.Initialize(s, account, loginInProgress, silent, popup))).Success?
    ensures var done := ReduceAll(st, ProviderModel.Emitted(ProviderModel.Initialize(s, account, loginInProgress, silent, popup))).value;
      done.initialized && !done.initializing
  {
    var e := ProviderModel.Emitted(ProviderModel.Initialize(s, account, loginInProgress, silent, popup));
    ProviderProperties.InitializeBracketed(s, account, loginInProgress, silent, popup);
    var n := |e|;
    assert e == e[..n - 1] + [AC.Initialized()];
    ReduceAllAppend(st, e[..n - 1], [AC.Initialized()]);
    assert [AC.Initialized()][1..] == [];
  }
}

/** The root reducer of sample/src/reduxStore.js, which consumes the oldest
    component's actions. `rest` stands for any other fields a store keeps
    beside `aadResponse`. */
module LegacySampleReducer {
  import opened Wrappers
  import opened Redux
  import opened LegacyInterfaces
  import opened LegacyLoginActions
  import LegacyIndex

  datatype StoreState<Rest> = StoreState(aadResponse: Option<UserInfo>, rest: Rest)

  function InitialState<Rest>(rest: Rest): (st: StoreState<Rest>)
    ensures st.aadResponse.None?
  {
    StoreState(None, rest)
  }

  /** `rootReducer`: a login success stores its payload; any other action
      returns the state it was given. */
  function RootReducer<Rest>(st: StoreState<Rest>, a: Action<UserInfo>): (r: StoreState<Rest>)
    ensures r.rest == st.rest
    ensures a.actionType != AAD_LOGIN_SUCCESS ==> r == st
    ensures a.actionType == AAD_LOGIN_SUCCESS ==> r.aadResponse == a.payload
  {
    if a.actionType == AAD_LOGIN_SUCCESS then st.(aadResponse := a.payload) else st
  }

  function ReduceAll<Rest>(st: StoreState<Rest>, actions: seq<Action<UserInfo>>): StoreState<Rest>
    decreases |actions|
  {
    if actions == [] then st else ReduceAll(RootReducer(st, actions[0]), actions[1..])
  }

  /** A logout leaves the last response in place. */
  lemma LogoutKeepsResponse<Rest>(st: StoreState<Rest>)
    ensures RootReducer(st, LogoutSuccessful()) == st
  {
  }

  /** After a dispatch log whose login actions all carry a record, the
      store holds the record of the last of them, or what it held before
      when there is none; the other fields are untouched. */
  lemma {:induction false} ReduceAllKeepsLast<Rest>(st: StoreState<Rest>, actions: seq<Action<UserInfo>>)
    requires forall i :: 0 <= i < |actions| ==> actions[i].actionType == AAD_LOGIN_SUCCESS ==> actions[i].payload.Some?
    ensures var r := ReduceAll(st, actions);
      var logged := LegacyIndex.LoggedIn(actions);
      r.rest == st.rest &&
      (logged == [] ==> r.aadResponse == st.aadResponse) &&
      (logged != [] ==> r.aadResponse == Some(logged[|logged| - 1]))
    decreases |actions|
  {
    if actions != [] {
      assert forall i :: 0 <= i < |actions[1..]| ==> actions[1..][i] == actions[i + 1];
      ReduceAllKeepsLast(RootReducer(st, actions[0]), actions[1..]);
    }
  }

  /** The oldest component's store, reduced by this sample, holds the last
      record the component's callback received. */
  lemma StoreHoldsLastUserInfo<Rest>(c: LegacyIndex.LegacyIndexAzureAD, rest: Rest)
    requires c.Valid() && c.hasStore && c.userInfoCallbackCalls != []
    ensures ReduceAll(InitialState(rest), c.dispatched).aadResponse ==
      Some(c.userInfoCallbackCalls[|c.userInfoCallbackCalls| - 1])
  {
    ReduceAllKeepsLast(InitialState(rest), c.dispatched);
  }
}
