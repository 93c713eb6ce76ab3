# Authentication session state machine and request router, in Dafny

This project models the client-side authentication core of an iOS app that
talks to an OAuth 2.0 style commerce API:

- **`AppAuthenticator`** owns the published authentication state (`empty`,
  `client(session)`, `signedIn(session)`). It keeps its session, profile, account kind and
  login-provider kind in the user-defaults store, and its access and refresh tokens in the
  keychain. It runs password, guest and external-provider logins, logout, and token
  refresh against an asynchronous transport.
- **`AuthenticationRouter`** is the table that turns each API call into a base URL, a path
  with its query, an HTTP method, a body and headers.

## Layout

| file | module | what it holds |
|---|---|---|
| `wrappers.dfy` | `Wrappers` | `Option` (Swift's `T?`) and `Result` |
| `url_query.dfy` | `UrlQuery` | how a server reads a URL query: split at `&`, cut at `#`, `%XX` and `+` decoded; raw rendering and percent-encoding of items, with their round-trip lemmas |
| `routing.dfy` | `Routing` | the router enum and its five computed properties, plus an independent statement of each path's intended endpoint and query items |
| `session.dfy` | `Session` | session, profile, account kind, provider kind, published state, errors |
| `stores.dfy` | `Stores` | the user-defaults store and the keychain as maps; typed getters, and setters where `nil` deletes |
| `auth_machine.dfy` | `AuthMachine` | the authenticator as values: one transition function per operation, command runs, and the lemmas |
| `app_authenticator.dfy` | `Authenticator` | class `AppAuthenticator`: the same operations as sequences of field and property writes, each proved to give the snapshot its transition function describes |

### How the model is built

**External calls.** The transport and the external providers are oracles. An asynchronous
operation is modelled in two parts:

- an *issue* operation appends the call to the effect log `trace`, as a
  `Request(route)`, `ProviderLogin` or `ProviderLogout` entry;
- a *completion* operation takes the callback's `Result` and returns what the caller's
  completion receives.

The delegate's `didLogin` and `didLogout` go into the same log, so their order relative to
the calls is kept. Routes are the `Routing.AuthenticationRouter` values that
`AuthenticationAPIClient.swift` sends for each call: `login`, `guest` and `refreshToken`.
That file is not part of this model.

**Central invariant.** The published state always equals the state the stores describe
(`AuthMachine.Consistent`):

- start-up establishes it;
- every operation keeps it, including a write of the profile property and the internal
  token calls;
- therefore a restart rehydrates to the state the authenticator had
  (`AuthMachine.RestartRehydratesSameState`).

### What the code does that a reader may not expect

The model follows the code in each of these cases.

- **Tokens and session are not written together.**
  - The guest bootstrap stores tokens while no session is stored; it runs at start-up and
    after every logout (`AuthMachine.BootstrapTokensWithoutSession`).
  - A refresh writes only the keychain. The stored session keeps the tokens it was saved
    with.
- **The bound provider can stop matching the persisted provider kind.** A failed provider
  login leaves the new provider bound (`AuthMachine.ProviderLoginFailureRebinds`).
- **A guest login also sends the delegate a login notification.** `handleLogin` sends it
  for every account kind (`AuthMachine.LoginClientSucceeds`).
- **Failures are not always reported.**
  - A failed guest login and a failed provider login are only printed; no caller receives
    them.
  - A refresh with no stored account kind returns without ever calling its completion.

## Model

| member | source | states |
|---|---|---|
| Routing.SameHost | AuthenticationRouter.swift:34-39 | every route has the same base URL, and it is an `https://` URL |
| Routing.Method | AuthenticationRouter.swift:74-100 | GET exactly for getProfile; PUT exactly for updateProfile, changePassword and uploadProfilePicture; DELETE exactly for DeleteAccount and DeleteProfilePicture; POST exactly for the other six |
| Routing.Task | AuthenticationRouter.swift:102-133 | no body exactly for login, refreshToken, guest, getProfile, changePassword, DeleteAccount and DeleteProfilePicture; multipart exactly for uploadMedia, as a single `file` part holding the image with no other parameters; updateProfile and verifyAnonymous pass the caller's parameters through unchanged, JSON-encoded; uploadProfilePicture sends exactly `{url: image, format: format}`, JSON-encoded |
| Routing.Headers | AuthenticationRouter.swift:135-162 | no route sets headers |
| Routing.TokenRequests | AuthenticationRouter.swift:44-49 | the routes whose endpoint is the OAuth token endpoint are exactly login, guest and refreshToken; each is a POST with no body and no headers |
| Routing.BodylessMethods | AuthenticationRouter.swift:74-125 | every GET and DELETE route has no body |
| Routing.ProfileReadWriteSamePath | AuthenticationRouter.swift:52-55 | getProfile and updateProfile have identical paths in every language, read with GET and written with PUT |
| Routing.PathRendersQuery | AuthenticationRouter.swift:42-72 | every path except DeleteProfilePicture's is its endpoint, then `?`, then its intended query items written raw |
| Routing.PathCarriesQuery | AuthenticationRouter.swift:42-72 | when no interpolated value holds `&`, `#`, `%` or `+`, the query the server parses from every path except DeleteProfilePicture's is exactly the intended items, the same as from the corrected path |
| Routing.LoginGrant | AuthenticationRouter.swift:44-45 | for every username and password, the server reads grant type `password` and client `occ_mobile` |
| Routing.RefreshGrant | AuthenticationRouter.swift:48-49 | for every refresh token, the server reads grant type `refresh_token` and client `occ_mobile` |
| Routing.GuestGrant | AuthenticationRouter.swift:46-47 | for a verbatim client id and secret, the server reads that client id, that secret and grant type `client_credentials` |
| Routing.PasswordCutAtAmpersand | AuthenticationRouter.swift:44-45 | a password `kept&lost` reaches the server as `kept`, while the corrected path delivers it whole |
| Routing.DeleteProfilePictureDropsLanguage | AuthenticationRouter.swift:65-66 | the DeleteProfilePicture path has no query at all, so the language is lost; the corrected path carries it |
| Routing.CorrectedPath | AuthenticationRouter.swift:42-72 | for every route, the query the server parses is exactly the intended items, whatever the interpolated values hold |
| Session.StateFor | AppAuthenticator.swift:101 | a committed guest session is published as `client(session)`, any other as `signedIn(session)` |
| Stores.Saved | AppAuthenticator.swift:18-29 | a setter saves the value under its key, or deletes the key on `nil`, and leaves every other key as it was |
| Stores.WriteSession | AppAuthenticator.swift:18-29 | after the session setter, the session getter reads back what was set; the other three records read as before |
| Stores.WriteProfile | AppAuthenticator.swift:31-42 | the profile getter reads back what was set; the other records read as before |
| Stores.WriteUserType | AppAuthenticator.swift:45-56 | the user-type getter reads back what was set; the other records read as before |
| Stores.WriteProviderKind | AppAuthenticator.swift:67-78 | the provider-kind getter reads back what was set; the other records read as before |
| Stores.WriteToken | AppAuthenticator.swift:354-380 | the token getter of a keychain service reads back what was set; the other service's token is unchanged |
| Stores.DeletingAllRecordsEmpties | AppAuthenticator.swift:151-156 | deleting the session, profile, user type and provider kind leaves the user-defaults store holding none of the four authentication records |
| Stores.DeletingBothTokensEmpties | AppAuthenticator.swift:154-155 | deleting both tokens leaves the keychain empty |
| AuthMachine.Rehydrate | AppAuthenticator.swift:100-104 | the stores describe `empty` exactly when the session or the user type is missing, `client(session)` exactly for a stored guest, and `signedIn(session)` exactly for a stored signed-in user |
| AuthMachine.ProviderFor | AppAuthenticator.swift:114-131 | no provider exactly for `password`; for every other kind, a provider of exactly that kind |
| AuthMachine.SetToken | AppAuthenticator.swift:143-146 | both tokens read back as the session's tokens; nothing else changes |
| AuthMachine.HandleLogin | AppAuthenticator.swift:135-142 | stores the session and user type, and stores the session's tokens; profile, provider kind and bound provider are unchanged; logs `didLogin`; publishes `client(user)` for a guest and `signedIn(user)` otherwise, which is the state the stores now describe |
| AuthMachine.ClearData | AppAuthenticator.swift:149-161 | the user-defaults store holds none of the four authentication records and the keychain holds neither token, and no provider is bound; the state is `empty`; the log gains one guest client-credentials call, then `didLogout` |
| AuthMachine.LoginReply | AppAuthenticator.swift:181-187 | the login completion receives no error exactly on success, and the transport's error on failure |
| AuthMachine.TokenReply | AppAuthenticator.swift:404-411 | both token calls pass success or the transport's error through to their completion |
| AuthMachine.BootWithSession | AppAuthenticator.swift:100-101 | with a session and a user type stored, start-up publishes `client` for a guest and `signedIn` otherwise, makes no call, and leaves the stores untouched |
| AuthMachine.BootWithoutSession | AppAuthenticator.swift:103-106 | with either one missing, start-up publishes `empty` and issues exactly one guest client-credentials call |
| AuthMachine.BootBindsPersistedProvider | AppAuthenticator.swift:91-93 | start-up binds the provider of the persisted kind, and none when no kind is persisted |
| AuthMachine.BootIsConsistent | AppAuthenticator.swift:90-106 | start-up publishes the state its stores describe, whatever they hold |
| AuthMachine.LoginSucceeds | AppAuthenticator.swift:178-184 | a successful password login publishes `signedIn(user)`, stores the session and kind `signedIn`, and its tokens read back unchanged from the keychain |
| AuthMachine.LoginFailureChangesNothing | AppAuthenticator.swift:185-186 | a failed password login hands its error to the caller and changes no store, token, state, provider or log |
| AuthMachine.LoginClientSucceeds | AppAuthenticator.swift:200-205 | a successful guest login publishes `client(user)`, stores kind `guest`, and logs `didLogin` |
| AuthMachine.LogoutClearsEverything | AppAuthenticator.swift:225-229 | logout first logs out the bound provider, if any; afterwards session, profile, user type, provider kind and both tokens are absent, no provider is bound, the state is `empty`, and the log gains exactly one guest call and `didLogout` |
| AuthMachine.ProviderDidLogoutClearsWithoutProviderCall | AppAuthenticator.swift:342-347 | a provider that reports its own logout is unbound first, so the result is exactly `clearData`, with no provider logout call |
| AuthMachine.ProviderLoginIssued | AppAuthenticator.swift:283-286 | a provider login binds the provider of that kind and calls its login, except for `password`, which binds and calls nothing; stores and state are unchanged |
| AuthMachine.ProviderLoginSucceeds | AppAuthenticator.swift:288-291 | a successful provider login persists the provider kind and user type `signedIn`, and publishes `signedIn(user)` |
| AuthMachine.ProviderLoginFailureRebinds | AppAuthenticator.swift:283-296 | a failed provider login keeps stores and state, but the newly bound provider stays bound, even where its kind differs from the persisted kind |
| AuthMachine.RefreshWithoutUserType | AppAuthenticator.swift:384 | without a stored user type, a refresh changes nothing and calls nothing |
| AuthMachine.RefreshSignedIn | AppAuthenticator.swift:387-390 | a signed-in refresh issues the refresh-token call with the stored refresh token, or with `""` when none is stored, and changes nothing else |
| AuthMachine.RefreshGuest | AppAuthenticator.swift:391-394 | a guest refresh issues exactly the call a guest login issues |
| AuthMachine.TokenCompletedChangesOnlyTokens | AppAuthenticator.swift:404-411 | a successful token call changes only the two tokens, which read back as returned; session, profile, user type, state, provider and log stay the same; a failed call changes nothing |
| AuthMachine.GuestRefreshIsLoginClientForTokens | AppAuthenticator.swift:391-394 | for tokens, a guest's refresh is a guest login: the same call, and the same keychain for the same answer |
| AuthMachine.BootstrapTokensWithoutSession | AppAuthenticator.swift:103-106 | after a cold start and an answered bootstrap, the keychain holds a token while no session is stored and the state is `empty` |
| AuthMachine.StepKeepsConsistent | AppAuthenticator.swift:135-161 | every operation (each public call and completion, a write of the profile property, and the internal guest-token and refresh-token calls) keeps the published state equal to the state the stores describe |
| AuthMachine.StepExtendsTrace | AppAuthenticator.swift:174-234 | every operation only appends to the effect log |
| AuthMachine.RunKeepsConsistent | AppAuthenticator.swift:135-161 | every sequence of operations keeps the published state equal to the state the stores describe |
| AuthMachine.RunExtendsTrace | AppAuthenticator.swift:174-234 | the effect log is append-only over every sequence of operations |
| AuthMachine.RestartRehydratesSameState | AppAuthenticator.swift:83-106 | after any run, a restart over the stores publishes the same state, and calls nothing unless that state is `empty` |
| AuthMachine.ProviderLoginSurvivesRestart | AppAuthenticator.swift:283-291 | after a successful provider login, a restart publishes `signedIn(user)` without any call and rebinds that provider |
| Authenticator.AppAuthenticator.constructor | AppAuthenticator.swift:83-85 | start-up over the persisted stores gives the start-up snapshot, which is consistent |
| Authenticator.AppAuthenticator.SetSessionData | AppAuthenticator.swift:18-29 | the session property reads back what was set; only the user-defaults store changes |
| Authenticator.AppAuthenticator.SetProfileData | AppAuthenticator.swift:31-42 | the profile property reads back what was set; only the user-defaults store changes |
| Authenticator.AppAuthenticator.SetAccountType | AppAuthenticator.swift:45-56 | the user-type property reads back what was set; only the user-defaults store changes |
| Authenticator.AppAuthenticator.SetProviderKind | AppAuthenticator.swift:67-78 | the provider-kind property reads back what was set; only the user-defaults store changes |
| Authenticator.AppAuthenticator.SetAccessToken | AppAuthenticator.swift:354-366 | the access-token property reads back what was set; only the keychain changes |
| Authenticator.AppAuthenticator.SetRefreshToken | AppAuthenticator.swift:368-380 | the refresh-token property reads back what was set; only the keychain changes |
| Authenticator.AppAuthenticator.GetCurrentLoginState | AppAuthenticator.swift:90-111 | the object reaches the start-up snapshot of its stores |
| Authenticator.AppAuthenticator.InitializeLoginProvider | AppAuthenticator.swift:114-132 | only the bound provider changes, to the one its kind binds |
| Authenticator.AppAuthenticator.HandleLogin | AppAuthenticator.swift:135-142 | the object reaches the snapshot `AuthMachine.HandleLogin` describes |
| Authenticator.AppAuthenticator.SetToken | AppAuthenticator.swift:143-146 | the object reaches the snapshot `AuthMachine.SetToken` describes |
| Authenticator.AppAuthenticator.ClearData | AppAuthenticator.swift:149-161 | the object reaches the snapshot `AuthMachine.ClearData` describes |
| Authenticator.AppAuthenticator.GetClientToken | AppAuthenticator.swift:415-418 | only the log changes: it gains the guest client-credentials call |
| Authenticator.AppAuthenticator.RefreshTokenRequestLogin | AppAuthenticator.swift:400-401 | only the log changes: it gains the refresh-token call with the stored refresh token, or `""` |
| Authenticator.AppAuthenticator.Login | AppAuthenticator.swift:174-178 | only the log changes: it gains the password-grant call; consistency is kept |
| Authenticator.AppAuthenticator.LoginCompleted | AppAuthenticator.swift:178-189 | on success the login is committed as signed in and no error is returned; on failure nothing changes and the error is returned; consistency is kept |
| Authenticator.AppAuthenticator.LoginClient | AppAuthenticator.swift:197-200 | only the log changes: it gains the guest client-credentials call |
| Authenticator.AppAuthenticator.LoginClientCompleted | AppAuthenticator.swift:200-210 | on success the login is committed as a guest; on failure nothing changes; consistency is kept |
| Authenticator.AppAuthenticator.Logout | AppAuthenticator.swift:225-234 | the object reaches the snapshot `AuthMachine.Logout` describes, which is always consistent |
| Authenticator.AppAuthenticator.LoginWithProvider | AppAuthenticator.swift:283-286 | the provider for the kind is bound, and its login is called when there is one |
| Authenticator.AppAuthenticator.ProviderLoginCompleted | AppAuthenticator.swift:286-297 | on success the kind is persisted and the login is committed as signed in; on failure nothing changes; consistency is kept |
| Authenticator.AppAuthenticator.ProviderDidLogout | AppAuthenticator.swift:342-349 | the provider is dropped, then a full logout follows; the result is always consistent |
| Authenticator.AppAuthenticator.RefreshTokenRequest | AppAuthenticator.swift:382-398 | branches on the stored user type as `AuthMachine.RefreshTokenRequest` describes; consistency is kept |
| Authenticator.AppAuthenticator.TokenCompleted | AppAuthenticator.swift:401-435 | on success only the tokens change and success is returned; on failure nothing changes and the error is returned; consistency is kept |

## Findings

| source | as written | input that shows it | evidently intended | confidence | as-written member | corrected member |
|---|---|---|---|---|---|---|
| AuthenticationRouter.swift:45 | username and password are interpolated into the query unescaped | password `a&b`: the server reads password `a` and an extra item `b` | every value percent-encoded, so the server reads the password as typed | medium; not executed | Routing.PasswordCutAtAmpersand | Routing.CorrectedPath |
| AuthenticationRouter.swift:66 | the path joins the language with `&lang=` after the endpoint, with no `?` | any language, e.g. `en`: the URL has no query, and the server reads no `lang` item | `?lang=` as in every other route | medium; not executed | Routing.DeleteProfilePictureDropsLanguage | Routing.CorrectedPath |

Both corrections are stated by `Routing.CorrectedPath`. It renders each route's intended
query items percent-encoded after a `?`, and its contract proves that the server parses
back exactly those items, for every input (`UrlQuery.DecodeEncode` is the underlying round
trip). The raw path as written is kept as `Routing.Path`. `Routing.PathCarriesQuery` shows
the two paths agree whenever no interpolated value holds a delimiter.

## Left out

- Transport, provider SDKs and delegate:
  - the transport is an oracle whose answers the completion operations receive;
  - the concrete Google, Facebook, Twitter and Apple authenticators are reduced to their kind;
  - the delegate is assumed present, so every notification lands in the log (a `nil` delegate would drop it).
- Threads and Combine:
  - `[weak self]` captures, Combine publishing of the state, and races between in-flight completions and `logout` are not modelled;
  - completions are sequential calls, and a completion may be applied whether or not its call is outstanding.
- Debug printing of failures (`print`, `debugPrint`): it has no effect on the state.
- Pass-through operations do nothing but forward one call to the transport, so they have no state to model: `getProfile`, `verifyAnonymous`, `changePassword`, `updateProfile`, `deleteAccount`, `deleteProfilePicture`, `uploadMedia` and `uploadProfilePicture`.
- The stubbed `register`, OTP and forget-password operations return constants.
- The app lifecycle hooks only call into third-party SDKs.
- The JSON coding of user-defaults records is reduced to typed records; a record of the wrong type reads as `nil`.
- The keychain's service and account keys are reduced to one entry per token service.
- The user-defaults store is reduced to the four authentication records; any other keys the app keeps there are not modelled, so "empty" in `Stores.DeletingAllRecordsEmpties` and `AuthMachine.ClearData` means none of those four records is left.
- `UserSessionData`, `UserProfileData`, `NetworkError` and the app's client-credential constants are not part of this model:
  - the session is modelled as optional access and refresh tokens plus an opaque payload;
  - the profile and the errors are opaque payloads;
  - the client id and secret are a constructor parameter.
- Request parameter values of type `Any` are modelled as text.
- The image is modelled as PNG bytes.
- `Routing.Path`: the language is a parameter rather than the localization singleton's current value.
- `Routing.GuestGrant`: the guarantee requires client id and secret without `&`, `#`, `%` or `+`, because those characters are written raw into the query.
- `AuthMachine.TokenCompleted`: one completion models both the refresh-grant callback and the client-credentials callback of `getClientToken`. The two act identically on the state. Whether the caller's optional completion is absent is not modelled; the reply is what it would receive.
