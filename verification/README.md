# react-aad-msal, modelled in Dafny

react-aad-msal connects a React application to Azure Active Directory
through the MSAL authentication client. This project models its core:

- **The authentication provider** (`MsalAuthProvider`). It tracks an
  authentication state, the signed-in account record and the last error.
  It reports changes to registered handlers. It dispatches Redux actions,
  queueing them until a store is registered. It logs users in, renews
  tokens silently, and falls back to an interactive popup or redirect when
  the directory demands interaction.
- **The `AzureAD` component** that binds the provider to a React tree. It
  mirrors the provider's state, registers and unregisters its handlers,
  logs in when forced to, and chooses what to render.
- **The Redux action vocabulary.** This covers the action tags, the
  creators of the current package and of the earlier `lib` package, and
  the token response records.
- **The legacy generation.** This is the storage-backed provider of
  `src/MsalAuthProvider.ts`, the `AzureAD` component of `src/AzureAD.tsx`,
  the oldest self-contained component of `src/index.tsx`, and their
  actions.
- **The sample applications' root reducers**, which consume the provider's
  action stream.

## How it is modelled

`ProviderModel` gives every provider operation as a function from a
`Snapshot` of the provider's fields to the snapshot after the call. The
MSAL client's answers (a silent acquisition, a popup, whether a login is in
progress, the cached account) are parameters of type `Outcome`. The
page's origin, which the constructor's default options use, is a string
parameter `origin`. Calls made
to the client are logged in `calls`. Handler invocations are logged in
`notifications`. Actions are split into those `delivered` to a store and
those waiting in `queue`.

`Provider.MsalAuthProvider` is a class with the source's mutable fields.
Each of its methods updates them in place and is proved to end in the
snapshot the matching `ProviderModel` function gives. `ProviderProperties`
states, as lemmas over those functions, what the provider promises.

The legacy provider follows the same pattern: `LegacyProviderModel` holds
the functions and `LegacyProvider.LegacyMsalAuthProvider` is the class. The
React components are classes whose fields are the component state. Their
effects on the provider are either calls into the provider class or, where
the component was written against a provider interface that is not
modelled, a log of requests.

JavaScript `null` and `undefined` are both `None`. JavaScript truthiness of
an optional string is `Wrappers.Truthy`.

## Model

| member | source | states |
|---|---|---|
| AuthenticationActions.Tag | packages/react-aad-msal/src/enums/AuthenticationActions.ts:1-14 | every action tag carries the `AAD_` prefix |
| AuthenticationActions.KindOfTag | packages/react-aad-msal/src/enums/AuthenticationActions.ts:1-14 | reading a tag back gives the kind it was written for |
| AuthenticationActions.TagInjective | packages/react-aad-msal/src/enums/AuthenticationActions.ts:1-14 | two kinds share a tag only if they are the same kind |
| AuthenticationActionCreators.Make | packages/react-aad-msal/src/AuthenticationActionCreators.ts:9-62 | a creator's action reads back as its kind and carries exactly the given payload |
| AuthenticationActionCreators.Initializing | packages/react-aad-msal/src/AuthenticationActionCreators.ts:9-11 | the initializing action, with no payload |
| AuthenticationActionCreators.Initialized | packages/react-aad-msal/src/AuthenticationActionCreators.ts:13-15 | the initialized action, with no payload |
| AuthenticationActionCreators.LoginSuccessful | packages/react-aad-msal/src/AuthenticationActionCreators.ts:17-20 | the login-success action, carrying the account record |
| AuthenticationActionCreators.LoginFailed | packages/react-aad-msal/src/AuthenticationActionCreators.ts:22-24 | the login-failed action, with no payload |
| AuthenticationActionCreators.LoginError | packages/react-aad-msal/src/AuthenticationActionCreators.ts:26-29 | the login-error action, carrying the error |
| AuthenticationActionCreators.ClearError | packages/react-aad-msal/src/AuthenticationActionCreators.ts:31-33 | the clear-error action, with no payload |
| AuthenticationActionCreators.LogoutSuccessful | packages/react-aad-msal/src/AuthenticationActionCreators.ts:35-37 | the logout action, with no payload |
| AuthenticationActionCreators.AcquireIdTokenSuccess | packages/react-aad-msal/src/AuthenticationActionCreators.ts:39-42 | the ID-token success action, carrying the token response |
| AuthenticationActionCreators.AcquireIdTokenError | packages/react-aad-msal/src/AuthenticationActionCreators.ts:44-47 | the ID-token error action, carrying the error |
| AuthenticationActionCreators.AcquireAccessTokenSuccess | packages/react-aad-msal/src/AuthenticationActionCreators.ts:49-52 | the access-token success action, carrying the token response |
| AuthenticationActionCreators.AcquireAccessTokenError | packages/react-aad-msal/src/AuthenticationActionCreators.ts:54-57 | the access-token error action, carrying the error |
| AuthenticationActionCreators.AuthenticatedStateChanged | packages/react-aad-msal/src/AuthenticationActionCreators.ts:59-62 | the state-changed action, carrying the new state |
| AuthenticationActionCreators.CreatorOf | packages/react-aad-msal/src/AuthenticationActionCreators.ts:9-62 | each kind has a creator that makes an action of that kind |
| AuthenticationActionCreators.CreatorsDistinct | packages/react-aad-msal/src/AuthenticationActionCreators.ts:9-62 | two creators make actions with the same tag exactly when they are the same creator, whatever their payloads |
| LibActions.Tag | packages/lib/src/actions.ts:32-44 | every tag of the earlier enumeration carries the `AAD_` prefix |
| LibActions.ToCurrent | packages/lib/src/actions.ts:32-44 | each earlier tag is the tag of a current kind other than clear-error |
| LibActions.TagsDistinctWithoutClearError | packages/lib/src/actions.ts:32-44 | the earlier tags are pairwise distinct and none of them is the clear-error tag |
| LibActions.Make | packages/lib/src/actions.ts:47-96 | an earlier creator's action has the kind's tag and exactly the given payload |
| LibActions.MakeAgreesWithCurrent | packages/lib/src/actions.ts:47-96 | every earlier creator makes the same action as the current package's creator of that kind |
| LibActions.Initializing | packages/lib/src/actions.ts:47-49 | the initializing action, with no payload |
| LibActions.Initialized | packages/lib/src/actions.ts:51-53 | the initialized action, with no payload |
| LibActions.LoginSuccessful | packages/lib/src/actions.ts:55-58 | the login-success action, carrying the account record |
| LibActions.LoginFailed | packages/lib/src/actions.ts:60-62 | the login-failed action, with no payload |
| LibActions.LoginError | packages/lib/src/actions.ts:64-67 | the login-error action, carrying the error |
| LibActions.LogoutSuccessful | packages/lib/src/actions.ts:69-71 | the logout action, with no payload |
| LibActions.AcquireIdTokenSuccess | packages/lib/src/actions.ts:73-76 | the ID-token success action, carrying the token response |
| LibActions.AcquireIdTokenError | packages/lib/src/actions.ts:78-81 | the ID-token error action, carrying the error |
| LibActions.AcquireAccessTokenSuccess | packages/lib/src/actions.ts:83-86 | the access-token success action, carrying the token response |
| LibActions.AcquireAccessTokenError | packages/lib/src/actions.ts:88-91 | the access-token error action, carrying the error |
| LibActions.AuthenticatedStateChanged | packages/lib/src/actions.ts:93-96 | the state-changed action, carrying the new state |
| LegacyActions.Tag | src/actions.ts:30-39 | every legacy tag carries the `AAD_` prefix |
| LegacyActions.TagInjective | src/actions.ts:30-39 | two legacy kinds share a tag only if they are the same kind |
| LegacyActions.Make | src/actions.ts:42-77 | a legacy creator's action has the kind's tag and exactly the given payload |
| LegacyActions.Initializing | src/actions.ts:42-44 | the `AAD_INITIALIZING` action, with no payload |
| LegacyActions.Initialized | src/actions.ts:46-48 | the `AAD_INITIALIZED` action, with no payload |
| LegacyActions.LoginSuccessful | src/actions.ts:50-53 | the `AAD_LOGIN_SUCCESS` action, carrying the user record |
| LegacyActions.LoginError | src/actions.ts:55-58 | the `AAD_LOGIN_ERROR` action, carrying the error |
| LegacyActions.LogoutSuccessful | src/actions.ts:60-62 | the `AAD_LOGOUT_SUCCESS` action, with no payload |
| LegacyActions.AcquireTokenSuccess | src/actions.ts:64-67 | the `AAD_REFRESHED_TOKEN_SUCCESS` action, carrying the user record |
| LegacyActions.AcquireTokenError | src/actions.ts:69-72 | the `AAD_REFRESHED_TOKEN_ERROR` action, carrying the error |
| LegacyActions.AuthenticatedStateChanged | src/actions.ts:74-77 | the `AAD_AUTHENTICATED_STATE_CHANGED` action, carrying the state |
| LegacyLoginActions.LoginSuccessful | src/actions.tsx:8-13 | the login action has the login tag and carries the user record |
| LegacyLoginActions.LogoutSuccessful | src/actions.tsx:15-19 | the logout action has the logout tag and no payload |
| LegacyLoginActions.LoginLogoutDistinguishable | src/actions.tsx:5-19 | the two tags differ, a login is never a logout, and two logins are equal exactly when their records are |
| TokenResponses.NewAccessTokenResponse | packages/react-aad-msal/src/AccessTokenResponse.ts:11-22 | construction fails exactly when the response is not an access token, with an error naming the kind |
| TokenResponses.AccessTokenResponseExact | packages/react-aad-msal/src/AccessTokenResponse.ts:11-22 | a constructed access-token response holds exactly the response's token, expiry, scopes and state, and only an access-token response yields one |
| TokenResponses.NewIdTokenResponse | src/IdTokenResponse.ts:9-18 | construction fails exactly when the response is not an ID token, with an error naming the kind |
| TokenResponses.IdTokenResponseExact | src/IdTokenResponse.ts:9-18 | a constructed ID-token response holds exactly the response's ID token and state, and only an ID-token response yields one |
| TokenResponses.TokenKindsExclusive | src/AccessTokenResponse.ts:10-21 | no response can be turned into both an access-token and an ID-token response |
| ProviderModel.PreservesTransitive | packages/react-aad-msal/src/MsalAuthProvider.ts:213-364 | the frame that every internal step keeps (store, handlers, options, a defined state) is kept by any sequence of them |
| ProviderModel.PreservesKeepsInv | packages/react-aad-msal/src/MsalAuthProvider.ts:39-42 | a step that keeps the frame keeps the invariant: handler collections stay sets and the queue stays empty once a store exists |
| ProviderModel.Fanout | packages/react-aad-msal/src/MsalAuthProvider.ts:305-314 | notifying a handler collection invokes as many handlers as it holds |
| ProviderModel.FanoutOncePerHandler | packages/react-aad-msal/src/MsalAuthProvider.ts:305-314 | the i-th invocation goes to the i-th registered handler, so each handler of a set is invoked exactly once |
| ProviderModel.Add | packages/react-aad-msal/src/MsalAuthProvider.ts:186-199 | `Set.add`: the collection gains the handler, loses nothing and stays duplicate-free |
| ProviderModel.Remove | packages/react-aad-msal/src/MsalAuthProvider.ts:191-193 | `Set.delete`: the collection loses exactly the handler, stays duplicate-free, and is unchanged when the handler was absent |
| ProviderModel.Dispatch | packages/react-aad-msal/src/MsalAuthProvider.ts:332-338 | the action is appended to everything emitted so far; nothing but the action log changes |
| ProviderModel.SetState | packages/react-aad-msal/src/MsalAuthProvider.ts:305-314 | the state becomes the given one; client calls and parameters are untouched |
| ProviderModel.SetError | packages/react-aad-msal/src/MsalAuthProvider.ts:213-223 | the error becomes the given one (or none) and the state is untouched |
| ProviderModel.SetAccountInfo | packages/react-aad-msal/src/MsalAuthProvider.ts:316-330 | an account record is stored; state and error are untouched |
| ProviderModel.HandleAcquireTokenSuccess | packages/react-aad-msal/src/MsalAuthProvider.ts:340-350 | an account record is stored; state and error are untouched |
| ProviderModel.RecordFailure | packages/react-aad-msal/src/MsalAuthProvider.ts:245-259 | after a failure the error is recorded and the provider is unauthenticated |
| ProviderModel.LoginToRefreshToken | packages/react-aad-msal/src/MsalAuthProvider.ts:225-261 | only an interaction-required error leads to exactly one interactive acquisition, a redirect or a popup as configured; any other error calls nothing more, is recorded, leaves the provider unauthenticated and is the rejection; the redirect flow resolves with no response and leaves state, error and record alone; a successful popup resolves with its response, authenticates and stores the merged record; a failed popup's error is recorded, unauthenticates and is the rejection |
| ProviderModel.GetAccessToken | packages/react-aad-msal/src/MsalAuthProvider.ts:106-124 | acquiring an access token keeps the frame (store, handlers, options, a defined state) |
| ProviderModel.AcceptAccessToken | packages/react-aad-msal/src/MsalAuthProvider.ts:113-123 | the merged record is stored; an access-token response is returned verbatim and authenticates with the error untouched; a response of another kind ends as the constructor's error, recorded, with the provider unauthenticated |
| ProviderModel.RecoverAccessToken | packages/react-aad-msal/src/MsalAuthProvider.ts:119-123 | after a failed access-token acquisition, only an interaction-required error makes one interactive acquisition with the same parameters; any other error is recorded, unauthenticates and is the rejection; the redirect flow rejects for want of a response with state and error untouched; a popup's access token is returned and authenticates, another kind of popup response is rejected; a failed popup's error is recorded and is the rejection |
| ProviderModel.GetIdToken | packages/react-aad-msal/src/MsalAuthProvider.ts:126-157 | acquiring an ID token keeps the frame |
| ProviderModel.AcceptIdToken | packages/react-aad-msal/src/MsalAuthProvider.ts:145-155 | the merged record is stored; an ID-token response is returned and authenticates with the error untouched; a response of another kind ends as the constructor's error, recorded, with the provider unauthenticated |
| ProviderModel.RecoverIdToken | packages/react-aad-msal/src/MsalAuthProvider.ts:151-155 | after a failed ID-token acquisition, only an interaction-required error makes one interactive acquisition, with the shared parameters; any other error is recorded, unauthenticates and is the rejection; the redirect flow rejects for want of a response with state and error untouched; a popup's ID token is returned and authenticates, another kind of popup response is rejected; a failed popup's error is recorded and is the rejection |
| ProviderModel.HandleLoginFailed | packages/react-aad-msal/src/MsalAuthProvider.ts:352-357 | a login-failed action is emitted exactly when an error is recorded, and nothing else is emitted |
| ProviderModel.HandleLoginSuccess | packages/react-aad-msal/src/MsalAuthProvider.ts:359-364 | a login-success action carrying the stored record is emitted exactly when a record is stored |
| ProviderModel.ProcessLogin | packages/react-aad-msal/src/MsalAuthProvider.ts:278-303 | processing a login always ends in a defined state and keeps the frame |
| ProviderModel.Initialize | packages/react-aad-msal/src/MsalAuthProvider.ts:270-276 | initialization always ends in a defined state and keeps the frame |
| ProviderModel.RedirectCallback | packages/react-aad-msal/src/MsalAuthProvider.ts:263-268 | the redirect callback always ends in a defined state and keeps the frame |
| ProviderModel.ClearStaleError | packages/react-aad-msal/src/MsalAuthProvider.ts:66-71 | a recorded error is cleared unless it is the renewal-frame `block_token_requests` error; nothing else changes |
| ProviderModel.StartLogin | packages/react-aad-msal/src/MsalAuthProvider.ts:73-92 | the interactive login call is made once; the state is in progress, or unauthenticated with the call's error recorded when it fails |
| ProviderModel.Login | packages/react-aad-msal/src/MsalAuthProvider.ts:63-96 | a login always ends in a defined state and keeps the frame |
| ProviderModel.Logout | packages/react-aad-msal/src/MsalAuthProvider.ts:98-102 | logging out keeps the frame and leaves the state as it was |
| ProviderModel.RegisterStore | packages/react-aad-msal/src/MsalAuthProvider.ts:176-184 | registering a store keeps the invariant and loses no emitted action |
| ProviderModel.RegisterStateHandler | packages/react-aad-msal/src/MsalAuthProvider.ts:186-189 | registering keeps the handler collections duplicate-free |
| ProviderModel.UnregisterStateHandler | packages/react-aad-msal/src/MsalAuthProvider.ts:191-193 | unregistering keeps the handler collections duplicate-free |
| ProviderModel.RegisterAccountInfoHandler | packages/react-aad-msal/src/MsalAuthProvider.ts:195-198 | registering keeps the handler collections duplicate-free |
| ProviderModel.UnregisterAccountInfoHandler | packages/react-aad-msal/src/MsalAuthProvider.ts:200-202 | unregistering keeps the handler collections duplicate-free |
| ProviderModel.RegisterErrorHandler | packages/react-aad-msal/src/MsalAuthProvider.ts:204-207 | registering keeps the handler collections duplicate-free |
| ProviderModel.UnregisterErrorHandler | packages/react-aad-msal/src/MsalAuthProvider.ts:209-211 | unregistering keeps the handler collections duplicate-free |
| ProviderModel.SetProviderOptions | packages/react-aad-msal/src/MsalAuthProvider.ts:169-174 | the redirect flow installs the redirect callback with the client exactly once; the popup flow calls nothing |
| ProviderModel.Fresh | packages/react-aad-msal/src/MsalAuthProvider.ts:39-42 | a new provider satisfies the invariant and has emitted nothing |
| ProviderModel.OptionsOrDefault | packages/react-aad-msal/src/MsalAuthProvider.ts:47-50 | the given options are used as they are; without them, the popup flow with the page's origin as token refresh URI |
| ProviderModel.Construct | packages/react-aad-msal/src/MsalAuthProvider.ts:44-61 | a constructed provider satisfies the invariant, has a defined state and holds the given or the default options |
| ProviderProperties.DispatchRouting | packages/react-aad-msal/src/MsalAuthProvider.ts:332-338 | without a store an action waits at the end of the queue; with one the store receives it and the queue is untouched |
| ProviderProperties.DispatchAll | packages/react-aad-msal/src/MsalAuthProvider.ts:332-338 | dispatching never registers or drops the store |
| ProviderProperties.DispatchAllQueues | packages/react-aad-msal/src/MsalAuthProvider.ts:332-338 | before a store exists, dispatched actions queue up in dispatch order and nothing is delivered |
| ProviderProperties.QueuedActionsReachStoreInOrder | packages/react-aad-msal/src/MsalAuthProvider.ts:176-184 | once registered, the store receives every earlier action in dispatch order, followed by later ones |
| ProviderProperties.RegisterStoreDrains | packages/react-aad-msal/src/MsalAuthProvider.ts:176-184 | registering the store delivers the whole queue and empties it |
| ProviderProperties.SetStateUnchanged | packages/react-aad-msal/src/MsalAuthProvider.ts:305-314 | setting the current state again changes nothing: no action, no notification |
| ProviderProperties.SetStateChanged | packages/react-aad-msal/src/MsalAuthProvider.ts:305-314 | a change emits exactly one state-changed action and invokes every state handler once, in registration order; nothing else changes |
| ProviderProperties.SetStateIdempotent | packages/react-aad-msal/src/MsalAuthProvider.ts:305-314 | setting a state twice has the effect of setting it once |
| ProviderProperties.RegisteredStateHandlerNotified | packages/react-aad-msal/src/MsalAuthProvider.ts:186-189 | a handler registered before a state change is told the new state |
| ProviderProperties.SetErrorEffects | packages/react-aad-msal/src/MsalAuthProvider.ts:213-223 | a login-error action is emitted exactly when an error is given, and every error handler is told the new error, cleared or not |
| ProviderProperties.MergeAccountInfoFields | packages/react-aad-msal/src/MsalAuthProvider.ts:316-330 | the stored record keeps the previous account (or takes the response's), replaces the token of the response's kind and keeps the other token |
| ProviderProperties.MergeAccountInfoIdempotent | packages/react-aad-msal/src/MsalAuthProvider.ts:316-330 | storing the same response twice has the effect of storing it once |
| ProviderProperties.MergeAccountInfoAccumulates | packages/react-aad-msal/src/MsalAuthProvider.ts:316-330 | an ID token followed by an access token leaves both tokens in the record |
| ProviderProperties.HandleAcquireTokenSuccessEffects | packages/react-aad-msal/src/MsalAuthProvider.ts:340-350 | a token success stores the merged record, tells every account handler, and emits the success action of the token's kind (none for another kind) |
| ProviderProperties.GetAccessTokenCalls | packages/react-aad-msal/src/MsalAuthProvider.ts:106-124 | the silent acquisition is always tried first; only an interaction-required failure adds one interactive acquisition of the configured flow, with the same parameters |
| ProviderProperties.GetAccessTokenSilentSuccess | packages/react-aad-msal/src/MsalAuthProvider.ts:113-118 | a silent access-token success returns that token verbatim and leaves the provider authenticated, with its error untouched |
| ProviderProperties.GetAccessTokenPlainFailure | packages/react-aad-msal/src/MsalAuthProvider.ts:119-123 | a failure needing no interaction emits exactly the token error, the login error and, unless already unauthenticated, the state change; records the error, leaves the provider unauthenticated, and rejects with it |
| ProviderProperties.GetAccessTokenRedirectEscalation | packages/react-aad-msal/src/MsalAuthProvider.ts:225-261 | in the redirect flow an interaction-required failure starts the redirect and then rejects for want of a response, with state and error untouched |
| ProviderProperties.GetAccessTokenPopupEscalation | packages/react-aad-msal/src/MsalAuthProvider.ts:225-261 | in the popup flow the popup's access token is returned and authenticates; a failed popup's error is recorded and returned |
| ProviderProperties.RecordFailureEmits | packages/react-aad-msal/src/MsalAuthProvider.ts:213-223 | recording a failure emits exactly the login error and, unless already unauthenticated, the state change |
| ProviderProperties.GetAccessTokenWrongKind | packages/react-aad-msal/src/MsalAuthProvider.ts:113-123 | a silent success of another token kind is stored but then rejected, leaving the provider unauthenticated with the constructor's error recorded |
| ProviderProperties.GetAccessTokenSharedParameters | packages/react-aad-msal/src/MsalAuthProvider.ts:107-110 | called without parameters, the call writes the redirect URI into the shared parameters; called with parameters that are a separate object, it leaves them alone (see `ProviderModel.GetAccessToken` under Left out for the aliased case) |
| ProviderProperties.AccessTokenParamsRedirectUri | packages/react-aad-msal/src/MsalAuthProvider.ts:107-110 | the redirect URI is the caller's when non-empty, else the configured token refresh URI; scopes and login hint are the caller's |
| ProviderProperties.IdTokenParamsShape | packages/react-aad-msal/src/MsalAuthProvider.ts:127-143 | ID tokens are requested for the client id alone, with the cached account's user name as login hint unless the caller gave one |
| ProviderProperties.GetIdTokenFallbackParameters | packages/react-aad-msal/src/MsalAuthProvider.ts:151-155 | the popup fallback of an ID-token request receives the shared parameters, not those of the silent attempt |
| ProviderProperties.GetIdTokenSilentSuccess | packages/react-aad-msal/src/MsalAuthProvider.ts:145-150 | a silent ID-token success returns that token and authenticates, with the error untouched |
| ProviderProperties.GetIdTokenPlainFailure | packages/react-aad-msal/src/MsalAuthProvider.ts:151-155 | a failure needing no interaction calls nothing more, emits exactly the token error, the login error and, unless already unauthenticated, the state change; records the error, leaves the provider unauthenticated, and rejects with it |
| ProviderProperties.GetIdTokenRedirectEscalation | packages/react-aad-msal/src/MsalAuthProvider.ts:151-155 | in the redirect flow an interaction-required failure starts the redirect with the shared parameters and rejects for want of a response; only the token error is emitted and state and error are untouched |
| ProviderProperties.GetIdTokenPopupEscalation | packages/react-aad-msal/src/MsalAuthProvider.ts:151-155 | in the popup flow the popup's ID token is returned, authenticates and is merged into the record; a popup response of another kind is rejected after authenticating; a failed popup's error is recorded and returned |
| ProviderProperties.GetIdTokenWrongKind | packages/react-aad-msal/src/MsalAuthProvider.ts:145-155 | a silent success of another token kind is stored but then rejected, leaving the provider unauthenticated with the constructor's error recorded |
| ProviderProperties.ProcessLoginAppends | packages/react-aad-msal/src/MsalAuthProvider.ts:278-303 | processing a login only appends to the emitted actions |
| ProviderProperties.InitializeBracketed | packages/react-aad-msal/src/MsalAuthProvider.ts:270-276 | initialization emits the initializing action first and the initialized action last |
| ProviderProperties.ProcessLoginWithError | packages/react-aad-msal/src/MsalAuthProvider.ts:278-303 | a recorded error fails the login without calling the client: unauthenticated, error kept, exactly login-failed and, unless already unauthenticated, the state change emitted |
| ProviderProperties.ProcessLoginWithoutAccount | packages/react-aad-msal/src/MsalAuthProvider.ts:278-303 | without an error or cached account the state is in progress exactly when the client reports a login in progress, and the client is not called |
| ProviderProperties.ProcessLoginSilentSuccess | packages/react-aad-msal/src/MsalAuthProvider.ts:278-303 | a cached account whose ID token renews silently authenticates and emits the token success, the state change (if any) and one login success carrying the record |
| ProviderProperties.ProcessLoginRenewalFailure | packages/react-aad-msal/src/MsalAuthProvider.ts:284-296 | a renewal failure needing no interaction leaves the provider unauthenticated with that error recorded, whatever its code |
| ProviderProperties.RedirectCallbackWithError | packages/react-aad-msal/src/MsalAuthProvider.ts:263-268 | an error from the redirect records it, emits exactly the login error, login-failed and, unless already unauthenticated, the state change, and leaves the provider unauthenticated without calling the client |
| ProviderProperties.ClearStaleErrorEffects | packages/react-aad-msal/src/MsalAuthProvider.ts:66-71 | a stale error is cleared, the renewal-frame error is kept unchanged, and no action is emitted |
| ProviderProperties.LoginRedirectFlow | packages/react-aad-msal/src/MsalAuthProvider.ts:73-82 | in the redirect flow a login only starts the redirect, with the caller's or the shared parameters; in progress unless the call throws |
| ProviderProperties.LoginPopupFailure | packages/react-aad-msal/src/MsalAuthProvider.ts:83-95 | a failed popup login records the popup's error and leaves the provider unauthenticated |
| ProviderProperties.LoginPopupSuccess | packages/react-aad-msal/src/MsalAuthProvider.ts:83-95 | a successful popup login with no kept error, whose cached account renews its ID token silently, ends authenticated with no error, the merged record stored, the popup and silent calls made, and a login success carrying the record as the last action |
| ProviderProperties.LoginPopupKeptError | packages/react-aad-msal/src/MsalAuthProvider.ts:63-96 | a kept renewal-frame error makes a popup login fail: unauthenticated, error kept, login-failed emitted |
| ProviderProperties.LogoutEffects | packages/react-aad-msal/src/MsalAuthProvider.ts:98-102 | logging out calls the client once and emits exactly the logout action, leaving state, record and error as they were |
| ProviderProperties.RegisterNotifiesAtOnce | packages/react-aad-msal/src/MsalAuthProvider.ts:186-207 | each kind of handler, once registered, is invoked at once with the current value and belongs to its collection |
| ProviderProperties.RemoveAdded | packages/react-aad-msal/src/MsalAuthProvider.ts:186-211 | removing a handler just added to a collection without it restores the collection |
| ProviderProperties.RegisterUnregisterRoundTrip | packages/react-aad-msal/src/MsalAuthProvider.ts:186-211 | unregistering a handler just registered restores each handler collection |
| ProviderProperties.TransitionsKeepInv | packages/react-aad-msal/src/MsalAuthProvider.ts:63-157 | login, logout, both token acquisitions and the redirect callback keep the invariant |
| ProviderProperties.DefaultOptions | packages/react-aad-msal/src/MsalAuthProvider.ts:44-61 | a provider built without options uses the popup flow with the page's origin as token refresh URI |
| ProviderProperties.FreshProviderUnauthenticated | packages/react-aad-msal/src/MsalAuthProvider.ts:44-61 | a new popup-flow provider (the default) with no cached account ends unauthenticated, having queued exactly initializing, state-changed and initialized, and without calling the client |
| ProviderProperties.CachedAccountAuthenticated | packages/react-aad-msal/src/MsalAuthProvider.ts:44-61 | a new provider whose cached account renews silently ends authenticated, queuing exactly initializing, token success, state change, login success and initialized |
| Provider.MsalAuthProvider.constructor | packages/react-aad-msal/src/MsalAuthProvider.ts:44-61 | the fields end as the construction function gives, with the given or default options, with the invariant established |
| Provider.MsalAuthProvider.Login | packages/react-aad-msal/src/MsalAuthProvider.ts:63-96 | the fields end as `ProviderModel.Login` gives, invariant kept |
| Provider.MsalAuthProvider.Logout | packages/react-aad-msal/src/MsalAuthProvider.ts:98-102 | the fields end as `ProviderModel.Logout` gives, invariant kept |
| Provider.MsalAuthProvider.GetAccessToken | packages/react-aad-msal/src/MsalAuthProvider.ts:106-124 | the fields and the result are those of `ProviderModel.GetAccessToken` |
| Provider.MsalAuthProvider.GetIdToken | packages/react-aad-msal/src/MsalAuthProvider.ts:126-157 | the fields and the result are those of `ProviderModel.GetIdToken` |
| Provider.MsalAuthProvider.SetAuthenticationParameters | packages/react-aad-msal/src/MsalAuthProvider.ts:163-165 | only the shared parameters change, invariant kept |
| Provider.MsalAuthProvider.SetProviderOptions | packages/react-aad-msal/src/MsalAuthProvider.ts:169-174 | the fields end as `ProviderModel.SetProviderOptions` gives, invariant kept |
| Provider.MsalAuthProvider.RegisterReduxStore | packages/react-aad-msal/src/MsalAuthProvider.ts:176-184 | the fields end as `ProviderModel.RegisterStore` gives, invariant kept |
| Provider.MsalAuthProvider.RegisterAuthenticationStateHandler | packages/react-aad-msal/src/MsalAuthProvider.ts:186-189 | the fields end as the registration function gives, invariant kept |
| Provider.MsalAuthProvider.UnregisterAuthenticationStateHandler | packages/react-aad-msal/src/MsalAuthProvider.ts:191-193 | the fields end as the unregistration function gives, invariant kept |
| Provider.MsalAuthProvider.RegisterAccountInfoHandler | packages/react-aad-msal/src/MsalAuthProvider.ts:195-198 | the fields end as the registration function gives, invariant kept |
| Provider.MsalAuthProvider.UnregisterAccountInfoHandler | packages/react-aad-msal/src/MsalAuthProvider.ts:200-202 | the fields end as the unregistration function gives, invariant kept |
| Provider.MsalAuthProvider.RegisterErrorHandler | packages/react-aad-msal/src/MsalAuthProvider.ts:204-207 | the fields end as the registration function gives, invariant kept |
| Provider.MsalAuthProvider.UnregisterErrorHandler | packages/react-aad-msal/src/MsalAuthProvider.ts:209-211 | the fields end as the unregistration function gives, invariant kept |
| Provider.MsalAuthProvider.AuthenticationRedirectCallback | packages/react-aad-msal/src/MsalAuthProvider.ts:263-268 | the fields end as `ProviderModel.RedirectCallback` gives, invariant kept |
| Provider.MsalAuthProvider.Notify | packages/react-aad-msal/src/MsalAuthProvider.ts:305-314 | each handler of the collection is invoked once, in order; nothing else changes |
| Provider.MsalAuthProvider.DispatchAction | packages/react-aad-msal/src/MsalAuthProvider.ts:332-338 | the fields end as `ProviderModel.Dispatch` gives |
| Provider.MsalAuthProvider.SetAuthenticationState | packages/react-aad-msal/src/MsalAuthProvider.ts:305-314 | the fields end as `ProviderModel.SetState` gives |
| Provider.MsalAuthProvider.SetError | packages/react-aad-msal/src/MsalAuthProvider.ts:213-223 | the fields end as `ProviderModel.SetError` gives |
| Provider.MsalAuthProvider.SetAccountInfo | packages/react-aad-msal/src/MsalAuthProvider.ts:316-330 | the fields end as `ProviderModel.SetAccountInfo` gives |
| Provider.MsalAuthProvider.HandleAcquireTokenSuccess | packages/react-aad-msal/src/MsalAuthProvider.ts:340-350 | the fields end as `ProviderModel.HandleAcquireTokenSuccess` gives |
| Provider.MsalAuthProvider.RecoverAccessToken | packages/react-aad-msal/src/MsalAuthProvider.ts:119-123 | the fields and the result are those of `ProviderModel.RecoverAccessToken` |
| Provider.MsalAuthProvider.AcceptAccessToken | packages/react-aad-msal/src/MsalAuthProvider.ts:113-118 | the fields and the result are those of `ProviderModel.AcceptAccessToken` |
| Provider.MsalAuthProvider.AcceptIdToken | packages/react-aad-msal/src/MsalAuthProvider.ts:145-150 | the fields and the result are those of `ProviderModel.AcceptIdToken` |
| Provider.MsalAuthProvider.RecoverIdToken | packages/react-aad-msal/src/MsalAuthProvider.ts:151-155 | the fields and the result are those of `ProviderModel.RecoverIdToken` |
| Provider.MsalAuthProvider.StartLogin | packages/react-aad-msal/src/MsalAuthProvider.ts:73-92 | the fields end as `ProviderModel.StartLogin` gives |
| Provider.MsalAuthProvider.LoginToRefreshToken | packages/react-aad-msal/src/MsalAuthProvider.ts:225-261 | the fields and the result are those of `ProviderModel.LoginToRefreshToken` |
| Provider.MsalAuthProvider.InitializeProvider | packages/react-aad-msal/src/MsalAuthProvider.ts:270-276 | the fields end as `ProviderModel.Initialize` gives |
| Provider.MsalAuthProvider.ProcessLogin | packages/react-aad-msal/src/MsalAuthProvider.ts:278-303 | the fields end as `ProviderModel.ProcessLogin` gives |
| Provider.MsalAuthProvider.HandleLoginFailed | packages/react-aad-msal/src/MsalAuthProvider.ts:352-357 | the fields end as `ProviderModel.HandleLoginFailed` gives |
| Provider.MsalAuthProvider.HandleLoginSuccess | packages/react-aad-msal/src/MsalAuthProvider.ts:359-364 | the fields end as `ProviderModel.HandleLoginSuccess` gives |
| Binding.GetChildrenOrFunction | packages/react-aad-msal/src/components/AzureAD.tsx:124-135 | nothing is rendered exactly when there are no children; a children function is called exactly when the children are one, with the function props |
| Binding.Render | packages/react-aad-msal/src/components/AzureAD.tsx:145-181 | static children are shown only to an authenticated user; a children function receives the given props |
| Binding.RenderAuthFn | packages/react-aad-msal/src/components/AzureAD.tsx:145-181 | the authenticated function's element is shown exactly when authenticated and it returns one |
| Binding.RenderUnauthFn | packages/react-aad-msal/src/components/AzureAD.tsx:145-181 | the unauthenticated function's element is shown exactly when unauthenticated and it returns one |
| Binding.RenderChildrenFunction | packages/react-aad-msal/src/components/AzureAD.tsx:145-181 | a children function is called exactly when authenticated without an authenticated element, unauthenticated without an unauthenticated function, or in progress; it receives the function props |
| Binding.RenderStaticChildren | packages/react-aad-msal/src/components/AzureAD.tsx:145-181 | static children are shown exactly when authenticated without an authenticated element |
| Binding.LoginEffect | packages/react-aad-msal/src/components/AzureAD.tsx:60-62 | the component's login request keeps the provider's frame |
| Binding.MountEffect | packages/react-aad-msal/src/components/AzureAD.tsx:39-50 | mounting adds the three handlers to the provider's collections and registers the store when one is given |
| Binding.CleanupEffect | packages/react-aad-msal/src/components/AzureAD.tsx:52-57 | cleanup removes the three handlers from the provider's collections |
| Binding.CleanupUndoesMount | packages/react-aad-msal/src/components/AzureAD.tsx:39-58 | cleanup after mount restores the provider's handler collections |
| Binding.AzureAD.constructor | packages/react-aad-msal/src/components/AzureAD.tsx:33-36 | the component starts from the provider's state, account record and error |
| Binding.AzureAD.Mount | packages/react-aad-msal/src/components/AzureAD.tsx:39-58 | the provider ends as the mount effect gives; a login is requested exactly when forced, unauthenticated and error-free |
| Binding.AzureAD.Cleanup | packages/react-aad-msal/src/components/AzureAD.tsx:52-57 | the provider ends as the cleanup effect gives |
| Binding.AzureAD.Login | packages/react-aad-msal/src/components/AzureAD.tsx:60-62 | one login request, with the provider as the login effect gives |
| Binding.AzureAD.Logout | packages/react-aad-msal/src/components/AzureAD.tsx:64-69 | the provider logs out exactly when the component is authenticated; otherwise nothing changes |
| Binding.AzureAD.SetAuthenticationState | packages/react-aad-msal/src/components/AzureAD.tsx:71-82 | the state is taken over; a login is requested exactly on a change to unauthenticated while forced and error-free |
| Binding.AzureAD.SetError | packages/react-aad-msal/src/components/AzureAD.tsx:84-91 | the error is taken over and nothing else changes |
| Binding.AzureAD.OnAccountInfoChanged | packages/react-aad-msal/src/components/AzureAD.tsx:93-106 | the record is taken over and passed to the callback exactly when one is given |
| Binding.AzureAD.View | packages/react-aad-msal/src/components/AzureAD.tsx:108-181 | a children function receives the component's own record, state and error; static children only when authenticated; the authenticated (unauthenticated) function's element exactly when authenticated (unauthenticated) and it returns one |
| LegacyProviderModel.CacheLocation | src/MsalAuthProvider.ts:53-55 | local storage exactly when the login is to persist past the session, session storage otherwise |
| LegacyProviderModel.GetCacheItem | src/MsalAuthProvider.ts:154-162 | reading fails exactly for an unknown storage location; otherwise it reads the named storage |
| LegacyProviderModel.CachedIdToken | src/MsalAuthProvider.ts:120-129 | the ID token is read from the storage the configuration chooses |
| LegacyProviderModel.IsTokenExpired | src/MsalAuthProvider.ts:131-141 | a missing or zero expiry counts as expired; otherwise expired exactly once the clock reaches the expiry in milliseconds |
| LegacyProviderModel.ExpiryIsPermanent | src/MsalAuthProvider.ts:131-141 | a token that has expired stays expired later |
| LegacyProviderModel.ExpiryInstant | src/MsalAuthProvider.ts:131-141 | a token expires at the expiry instant and not a millisecond before |
| LegacyProviderModel.IsLoggedIn | src/MsalAuthProvider.ts:120-129 | logged in exactly when there is a user, a cached ID token and the token has not expired |
| LegacyProviderModel.StartupDecision | src/MsalAuthProvider.ts:108-117 | tokens are acquired exactly when logged in, with the cached ID token; otherwise authenticating exactly when a login is in progress, unauthenticated otherwise |
| LegacyProviderModel.SetState | src/MsalAuthProvider.ts:164-176 | the state becomes the given one; the record, the callback and the client calls are untouched |
| LegacyProviderModel.SetStateUnchanged | src/MsalAuthProvider.ts:164-176 | setting the current state again changes nothing |
| LegacyProviderModel.SetStateChanged | src/MsalAuthProvider.ts:164-176 | a change notifies the callback, when set, once with the new state, and with the record only when authenticated |
| LegacyProviderModel.SetStateKeepsInv | src/MsalAuthProvider.ts:164-176 | state changes keep the invariant: a record only when authenticated, no notice repeated, and the last notice matches the state |
| LegacyProviderModel.SaveUserInfo | src/MsalAuthProvider.ts:143-152 | the record is stored and the provider is authenticated, without calling the client |
| LegacyProviderModel.SaveUserInfoNotifies | src/MsalAuthProvider.ts:143-152 | becoming authenticated tells the callback the new record |
| LegacyProviderModel.AcquireTokens | src/MsalAuthProvider.ts:87-106 | a silent acquisition is always tried, and a popup only after it fails |
| LegacyProviderModel.AcquireTokensOutcome | src/MsalAuthProvider.ts:87-106 | a silent token, else a popup token, authenticates with that token's record; if both fail the provider is unauthenticated and the record is kept |
| LegacyProviderModel.AcquireTokensKeepsInv | src/MsalAuthProvider.ts:87-106 | acquiring tokens keeps the invariant |
| LegacyProviderModel.CheckIfUserAuthenticated | src/MsalAuthProvider.ts:108-117 | the startup check always ends in a defined state |
| LegacyProviderModel.Fresh | src/MsalAuthProvider.ts:38-39 | a new provider satisfies the invariant, has no state yet and has notified nobody |
| LegacyProviderModel.Construct | src/MsalAuthProvider.ts:45-71 | a constructed provider satisfies the invariant, has a state, and notified nobody since no callback is set yet |
| LegacyProviderModel.StartupLoggedIn | src/MsalAuthProvider.ts:45-71 | a logged-in user whose silent acquisition succeeds starts authenticated with the cached ID token's record, after one silent call |
| LegacyProviderModel.StartupNotLoggedIn | src/MsalAuthProvider.ts:45-71 | otherwise the provider starts authenticating or unauthenticated by the login-in-progress flag, with no record and no client call |
| LegacyProvider.LegacyMsalAuthProvider.constructor | src/MsalAuthProvider.ts:45-71 | the fields end as `LegacyProviderModel.Construct` gives, invariant established |
| LegacyProvider.LegacyMsalAuthProvider.SetAuthenticationStateChangedCallback | src/MsalAuthProvider.ts:38 | only the callback is set, invariant kept |
| LegacyProvider.LegacyMsalAuthProvider.Logout | src/MsalAuthProvider.ts:75-77 | only the client's logout is called, invariant kept |
| LegacyProvider.LegacyMsalAuthProvider.SetAuthenticationState | src/MsalAuthProvider.ts:164-176 | the fields end as `LegacyProviderModel.SetState` gives |
| LegacyProvider.LegacyMsalAuthProvider.SaveUserInfo | src/MsalAuthProvider.ts:143-152 | the fields end as `LegacyProviderModel.SaveUserInfo` gives |
| LegacyProvider.LegacyMsalAuthProvider.AcquireTokens | src/MsalAuthProvider.ts:87-106 | the fields end as `LegacyProviderModel.AcquireTokens` gives |
| LegacyProvider.LegacyMsalAuthProvider.CheckIfUserAuthenticated | src/MsalAuthProvider.ts:108-117 | the fields end as `LegacyProviderModel.CheckIfUserAuthenticated` gives |
| LegacyBinding.Render | src/AzureAD.tsx:81-100 | this component never calls its children as a function |
| LegacyBinding.RenderSelection | src/AzureAD.tsx:81-100 | each function's element is shown exactly in its own state, children exactly when authenticated without an element, nothing while authenticating |
| LegacyBinding.ConstructorRequests | src/AzureAD.tsx:58-79 | handlers are installed first; the store is registered exactly when given; a login is requested exactly when forced while unauthenticated; never a logout |
| LegacyBinding.LegacyAzureAD.constructor | src/AzureAD.tsx:58-79 | starts from the provider's state with the constructor's requests; an authenticated provider's record goes to the callback at once |
| LegacyBinding.LegacyAzureAD.SetAuthenticationState | src/AzureAD.tsx:102-110 | the state is taken over; a login is requested exactly on a change to unauthenticated while forced |
| LegacyBinding.LegacyAzureAD.OnAccountInfoChanged | src/AzureAD.tsx:112-118 | the record goes to the callback exactly when one is given |
| LegacyBinding.LegacyAzureAD.Login | src/AzureAD.tsx:120-122 | exactly one login request |
| LegacyBinding.LegacyAzureAD.Logout | src/AzureAD.tsx:124-130 | a logout request exactly when authenticated |
| LegacyIndex.InitialState | src/index.tsx:86-105 | authenticating exactly when the redirect callback fired during construction, unauthenticated otherwise |
| LegacyIndex.Render | src/index.tsx:107-118 | the authenticated function when authenticated, nothing while authenticating, the unauthenticated function otherwise |
| LegacyIndex.LoginCall | src/index.tsx:170-181 | a popup login exactly when the configured type is popup, a redirect otherwise, with the configured scopes |
| LegacyIndex.AcquiredUserInfo | src/index.tsx:151-168 | a record exists exactly when a token was acquired, silently or by popup, holding that token, the ID token and the user |
| LegacyIndex.LoggedInSingles | src/actions.tsx:8-19 | a login action carries its record and a logout action carries none |
| LegacyIndex.LegacyIndexAzureAD.constructor | src/index.tsx:86-105 | the state is the initial state for the redirect outcome; nothing dispatched or called |
| LegacyIndex.LegacyIndexAzureAD.ComponentDidMount | src/index.tsx:120-129 | tokens are acquired exactly when the redirect brought an ID token; the store keeps seeing exactly the callback's records |
| LegacyIndex.LegacyIndexAzureAD.CreateUserInfo | src/index.tsx:131-139 | the record goes to the callback and, when a store is given, to the store as a login action |
| LegacyIndex.LegacyIndexAzureAD.ResetUserInfo | src/index.tsx:141-149 | always unauthenticated; a logout action only when a store is given |
| LegacyIndex.LegacyIndexAzureAD.AcquireTokens | src/index.tsx:151-168 | a silent acquisition, then a popup after a failure; the record of the acquired token goes to the callback; only a silent token authenticates |
| LegacyIndex.LegacyIndexAzureAD.Login | src/index.tsx:170-181 | one login call of the configured type; a successful popup goes on to acquire tokens with its ID token |
| LegacyIndex.LegacyIndexAzureAD.Logout | src/index.tsx:183-190 | only an authenticated user is reset and logged out of the client |
| SampleReducer.AccountOf | samples/react-typescript/src/reduxStore.ts:51-55 | an account is read exactly from an account-record payload |
| SampleReducer.StateOf | samples/react-typescript/src/reduxStore.ts:60-64 | a state is read exactly from a state payload |
| SampleReducer.RootReducer | samples/react-typescript/src/reduxStore.ts:19-68 | the reducer throws exactly on a login-success action without a payload |
| SampleReducer.ReduceLifecycle | samples/react-typescript/src/reduxStore.ts:24-35 | initializing and initialized set the two lifecycle flags in opposition |
| SampleReducer.ReduceTokenSuccess | samples/react-typescript/src/reduxStore.ts:36-45 | a token success stores the whole response in its own field only |
| SampleReducer.ReduceClears | samples/react-typescript/src/reduxStore.ts:46-59 | an access-token error clears only the access token; a login error, ID-token error or logout clears both tokens and the account |
| SampleReducer.ReduceLoginAndState | samples/react-typescript/src/reduxStore.ts:51-64 | a login success records its account; a state change records its state |
| SampleReducer.ReduceUnknown | samples/react-typescript/src/reduxStore.ts:65-66 | an action the reducer does not name, including login-failed and clear-error, leaves the state as it is |
| SampleReducer.CreatorsAccepted | samples/react-typescript/src/reduxStore.ts:19-68 | every action the provider's creators make is reduced without error |
| SampleReducer.StoreInitializedAfterInitialize | samples/react-typescript/src/reduxStore.ts:24-35 | a store that took in everything an initialization emitted reports initialized and not initializing |
| LegacySampleReducer.InitialState | sample/src/reduxStore.js:4-6 | the store starts with no response |
| LegacySampleReducer.RootReducer | sample/src/reduxStore.js:8-15 | a login success stores its payload; any other action returns the state unchanged; other fields are never touched |
| LegacySampleReducer.LogoutKeepsResponse | sample/src/reduxStore.js:8-15 | a logout leaves the last response in the store |
| LegacySampleReducer.ReduceAllKeepsLast | sample/src/reduxStore.js:8-15 | after a stream of actions the store holds the record of the last login, or what it held before if there was none |
| LegacySampleReducer.StoreHoldsLastUserInfo | sample/src/reduxStore.js:8-15 | the sample store of the oldest component holds the last record that component's callback received |

## Left out

- The MSAL client itself (`UserAgentApplication`): its answers are parameters, and its calls are logged rather than carried out.
- Asynchrony: every `await` is taken to complete before the next statement, so two operations never interleave.
- React mechanics: hooks re-running, stale closures, batched state updates and JSX. A component's state is a set of class fields, and effects run when their method is called.
- Handler invocations are logged rather than run, so a handler that calls back into the provider is not modelled.
- The loggers (packages/react-aad-msal/src/Logger.ts, src/logger.ts) and the deprecation warning of the account callback.
- Browser storage and the clock: the legacy provider receives the storage contents and the current time as parameters.
- `withAuthentication`, `MsalPopupAuthProvider`, `MsalRedirectAuthProvider` and `MsalAuthProviderFactory`: they are thin wrappers around the modelled provider and components.
- The module barrels and interface files, which only re-export names or declare types; their types appear as datatypes.
- The sample applications' UI, `createStore` and developer-tools wiring; only their root reducers are modelled.
- Build configuration and the test files.
- The text of error messages: an error is its kind and code.
- The getters (`getAccountInfo`, `getError`, `getAuthenticationParameters`, `getProviderOptions`, `getUserInfo`): they return a field, and the model reads the field directly.
- `ProviderModel.SetAccountInfo`: the source mutates the previous record in place, so earlier holders of it see the change; the model builds a new record and does not capture that aliasing.
- `Binding.AzureAD.SetError`: the source compares error objects by identity; the model compares them by value, so setting an equal error is a no-op here.
- `LegacyProviderModel.IsTokenExpired`: a non-numeric `exp`, which makes the source's comparison false, is not modelled.
- `LegacyBinding.LegacyAzureAD`: this component calls a provider interface (account info, store registration) that src/MsalAuthProvider.ts does not offer, so its requests are logged rather than carried out.
- `ProviderModel.GetAccessToken`: the source writes the redirect URI into whichever parameters object it uses, including one the caller passed in. The model works on values: a caller's object is not changed, and a caller that passes the provider's own shared parameters object (the one `getAuthenticationParameters` returns) sees the shared parameters keep their old redirect URI in the model, while the source updates them through the alias.
- `ProviderModel.GetAccessToken`, `ProviderModel.GetIdToken`, `ProviderModel.ProcessLogin`, `ProviderModel.Initialize`, `ProviderModel.RedirectCallback`, `ProviderModel.Login` and `ProviderModel.Logout`: their own contracts state only the frame they keep. What each one does is stated by the lemmas of `ProviderProperties` above.
- packages/react-aad-msal/src/IdTokenResponse.ts is not part of this model; the ID-token response follows src/IdTokenResponse.ts, which declares the same constructor.

## Notes on behaviour as written

- `processLogin` exempts the `user_login_error` code from its error check, but the exemption does not take effect. The silent-renewal path has already recorded the error and made the provider unauthenticated before the check is reached (`ProviderProperties.ProcessLoginRenewalFailure`).
- In `src/index.tsx`, `acquireTokens` authenticates only after a silent token. A token obtained through the popup fallback yields the user record but leaves the state as it was. The model keeps this.
- The sample store of `sample/src/reduxStore.js` keeps the last response after a logout (`LegacySampleReducer.LogoutKeepsResponse`).
