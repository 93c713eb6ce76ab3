/**
 * The authenticator's behaviour as values: a snapshot of everything it owns
 * (both persisted stores, the published state, the bound login provider and
 * the log of outward effects), and one transition function per operation.
 *
 * Asynchronous operations are split in two: the function that issues the
 * transport or provider call, which only appends the call to the log, and
 * the function that applies the callback's result. The transport and the
 * providers are oracles: a call's result is whatever the completion is
 * given.
 */
module AuthMachine {
  import opened Wrappers
  import opened Session
  import opened Stores
  import Routing

  /** A bound external login provider; the password kind binds none. */
  datatype LoginProvider = GoogleAuthenticator | FacebookAuthenticator | TwitterAuthenticator | AppleAuthenticator
  {
    function Kind(): LoginProviderType {
      match this
      case GoogleAuthenticator => Google
      case FacebookAuthenticator => Facebook
      case TwitterAuthenticator => Twitter
      case AppleAuthenticator => Apple
    }
  }

  /** What the authenticator does outside itself, in order. */
  datatype Effect =
    | Request(route: Routing.AuthenticationRouter)  // a transport call
    | ProviderLogin(provider: LoginProvider)        // the bound provider's login
    | ProviderLogout(provider: LoginProvider)       // the bound provider's logout
    | DidLogin                                      // the delegate's login notification
    | DidLogout                                     // the delegate's logout notification

  /** The app's own client id and secret, used for the guest client-credentials grant. */
  datatype ClientCredentials = ClientCredentials(clientId: string, clientSecret: string)

  datatype Snapshot = Snapshot(
    defaults: Defaults,
    keychain: Keychain,
    state: AuthState,
    provider: Option<LoginProvider>,
    trace: seq<Effect>)

  /** The guest client-credentials call. */
  function GuestRequest(c: ClientCredentials): Effect {
    Request(Routing.Guest(c.clientId, c.clientSecret))
  }

  /** The state the stores describe: a session and an account kind, or nothing usable. */
  function Rehydrate(d: Defaults): (s: AuthState)
    ensures s.Empty? <==> ReadSession(d).None? || ReadUserType(d).None?
    ensures s.Client? <==> ReadSession(d).Some? && ReadUserType(d) == Some(GuestUser)
    ensures s.SignedIn? <==> ReadSession(d).Some? && ReadUserType(d) == Some(SignedInUser)
    ensures !s.Empty? ==> s.session == ReadSession(d).value
  {
    match (ReadSession(d), ReadUserType(d))
    case (Some(session), Some(userType)) => StateFor(session, userType)
    case _ => Empty
  }

  /** The published state is the one the stores describe. */
  predicate Consistent(m: Snapshot) {
    m.state == Rehydrate(m.defaults)
  }

  // ---------------------------------------------------------------------------
  // Private operations

  /** The provider a kind binds: none for a password, one of exactly that kind otherwise. */
  function ProviderFor(kind: LoginProviderType): (p: Option<LoginProvider>)
    ensures p.None? <==> kind == Password
    ensures p.Some? ==> p.value.Kind() == kind
  {
    match kind
    case Password => None
    case Google => Some(GoogleAuthenticator)
    case Facebook => Some(FacebookAuthenticator)
    case Twitter => Some(TwitterAuthenticator)
    case Apple => Some(AppleAuthenticator)
  }

  function InitializeLoginProvider(m: Snapshot, kind: LoginProviderType): Snapshot {
    m.(provider := ProviderFor(kind))
  }

  /** The guest client-credentials call that bootstraps a bearer token. */
  function GetClientToken(m: Snapshot, c: ClientCredentials): Snapshot {
    m.(trace := m.trace + [GuestRequest(c)])
  }

  /** Start-up: bind the persisted provider kind, then publish the persisted session or bootstrap a guest token. */
  function GetCurrentLoginState(m: Snapshot, c: ClientCredentials): Snapshot {
    var bound :=
      if ReadProviderKind(m.defaults).Some? then InitializeLoginProvider(m, ReadProviderKind(m.defaults).value)
      else m;
    match (ReadSession(bound.defaults), ReadUserType(bound.defaults))
    case (Some(session), Some(userType)) => bound.(state := StateFor(session, userType))
    case _ => GetClientToken(bound.(state := Empty), c)
  }

  /** A fresh authenticator over persisted stores: nothing published, no provider, nothing done yet. */
  function Boot(d: Defaults, k: Keychain, c: ClientCredentials): Snapshot {
    GetCurrentLoginState(Snapshot(d, k, Empty, None, []), c)
  }

  /** Copy a session's tokens into the keychain; a missing token deletes the stored one. */
  function SetToken(m: Snapshot, user: UserSessionData): (r: Snapshot)
    ensures ReadToken(r.keychain, AccessTokenService) == user.accessToken
    ensures ReadToken(r.keychain, RefreshTokenService) == user.refreshToken
    ensures r.(keychain := m.keychain) == m
  {
    m.(keychain := WriteToken(WriteToken(m.keychain, AccessTokenService, user.accessToken),
                              RefreshTokenService, user.refreshToken))
  }

  /** Commit a successful login: session, account kind, tokens, notification, then the new state. */
  function HandleLogin(m: Snapshot, user: UserSessionData, userType: UserType): (r: Snapshot)
    ensures ReadSession(r.defaults) == Some(user) && ReadUserType(r.defaults) == Some(userType)
    ensures ReadProfile(r.defaults) == ReadProfile(m.defaults)
    ensures ReadProviderKind(r.defaults) == ReadProviderKind(m.defaults)
    ensures ReadToken(r.keychain, AccessTokenService) == user.accessToken
    ensures ReadToken(r.keychain, RefreshTokenService) == user.refreshToken
    ensures r.state == StateFor(user, userType) && r.state == Rehydrate(r.defaults)
    ensures r.provider == m.provider && r.trace == m.trace + [DidLogin]
  {
    var stored := m.(defaults := WriteUserType(WriteSession(m.defaults, Some(user)), Some(userType)));
    var withTokens := SetToken(stored, user);
    withTokens.(trace := withTokens.trace + [DidLogin], state := StateFor(user, userType))
  }

  /** Wipe every record, token and provider, publish `Empty`, bootstrap a guest token, notify. */
  function ClearData(m: Snapshot, c: ClientCredentials): (r: Snapshot)
    ensures r.defaults == map[] && r.keychain == map[]
    ensures r.provider == None && r.state == Empty
    ensures r.trace == m.trace + [GuestRequest(c), DidLogout]
  {
    var defaults := WriteUserType(WriteProfile(WriteSession(m.defaults, None), None), None);
    var keychain := WriteToken(WriteToken(m.keychain, AccessTokenService, None), RefreshTokenService, None);
    var cleared := Snapshot(WriteProviderKind(defaults, None), keychain, Empty, None, m.trace);
    DeletingAllRecordsEmpties(m.defaults);
    DeletingBothTokensEmpties(m.keychain);
    var bootstrapped := GetClientToken(cleared, c);
    bootstrapped.(trace := bootstrapped.trace + [DidLogout])
  }

  // ---------------------------------------------------------------------------
  // Public operations

  function Login(m: Snapshot, userName: string, password: string): Snapshot {
    m.(trace := m.trace + [Request(Routing.Login(userName, password))])
  }

  function LoginCompleted(m: Snapshot, result: Result<UserSessionData, NetworkError>): Snapshot {
    match result
    case Success(user) => HandleLogin(m, user, SignedInUser)
    case Failure(_) => m
  }

  /** What `login` hands its caller: no error on success, the transport's error otherwise. */
  function LoginReply(result: Result<UserSessionData, NetworkError>): (error: Option<NetworkError>)
    ensures error.None? <==> result.Success?
    ensures result.Failure? ==> error == Some(result.error)
  {
    match result
    case Success(_) => None
    case Failure(e) => Some(e)
  }

  function LoginClient(m: Snapshot, c: ClientCredentials): Snapshot {
    m.(trace := m.trace + [GuestRequest(c)])
  }

  /** A failed guest login is only printed. */
  function LoginClientCompleted(m: Snapshot, result: Result<UserSessionData, NetworkError>): Snapshot {
    match result
    case Success(user) => HandleLogin(m, user, GuestUser)
    case Failure(_) => m
  }

  function Logout(m: Snapshot, c: ClientCredentials): Snapshot {
    var notified :=
      if m.provider.Some? then m.(trace := m.trace + [ProviderLogout(m.provider.value)]) else m;
    ClearData(notified, c)
  }

  function LoginWithProvider(m: Snapshot, kind: LoginProviderType): Snapshot {
    var bound := InitializeLoginProvider(m, kind);
    if bound.provider.Some? then bound.(trace := bound.trace + [ProviderLogin(bound.provider.value)]) else bound
  }

  /** A failed provider login is only printed. */
  function ProviderLoginCompleted(m: Snapshot, kind: LoginProviderType, result: Result<UserSessionData, ProviderError>)
    : Snapshot
  {
    match result
    case Success(user) => HandleLogin(m.(defaults := WriteProviderKind(m.defaults, Some(kind))), user, SignedInUser)
    case Failure(_) => m
  }

  /** A provider reports that it was logged out elsewhere: forget it, then log out. */
  function ProviderDidLogout(m: Snapshot, c: ClientCredentials): Snapshot {
    Logout(m.(provider := None), c)
  }

  function RefreshTokenRequestLogin(m: Snapshot): Snapshot {
    var token := ReadToken(m.keychain, RefreshTokenService).GetOr("");
    m.(trace := m.trace + [Request(Routing.RefreshToken(token))])
  }

  /** Refresh by account kind; without a stored kind nothing happens and no completion ever runs. */
  function RefreshTokenRequest(m: Snapshot, c: ClientCredentials): Snapshot {
    match ReadUserType(m.defaults)
    case None => m
    case Some(SignedInUser) => RefreshTokenRequestLogin(m)
    case Some(GuestUser) => GetClientToken(m, c)
  }

  /** The callback of both token calls, the refresh grant's and the client-credentials grant's. */
  function TokenCompleted(m: Snapshot, result: Result<UserSessionData, NetworkError>): Snapshot {
    match result
    case Success(user) => SetToken(m, user)
    case Failure(_) => m
  }

  /** What both token calls hand their caller's completion. */
  function TokenReply(result: Result<UserSessionData, NetworkError>): (reply: Result<(), NetworkError>)
    ensures reply.Success? <==> result.Success?
    ensures result.Failure? ==> reply == Failure(result.error)
  {
    match result
    case Success(_) => Success(())
    case Failure(e) => Failure(e)
  }

  // ---------------------------------------------------------------------------
  // Sequences of commands

  /**
   * Every operation a caller, the transport or a provider can trigger after
   * start-up, including a write of the profile property and the two internal
   * token calls.
   */
  datatype Command =
    | IssueLogin(userName: string, password: string)
    | CompleteLogin(loginResult: Result<UserSessionData, NetworkError>)
    | IssueLoginClient
    | CompleteLoginClient(clientResult: Result<UserSessionData, NetworkError>)
    | IssueLogout
    | IssueProviderLogin(kind: LoginProviderType)
    | CompleteProviderLogin(providerKind: LoginProviderType, providerResult: Result<UserSessionData, ProviderError>)
    | ReportProviderLogout
    | IssueRefresh
    | CompleteToken(tokenResult: Result<UserSessionData, NetworkError>)
    | SetProfile(profile: Option<UserProfileData>)
    | IssueClientToken
    | IssueRefreshLogin

  function Step(m: Snapshot, c: ClientCredentials, cmd: Command): Snapshot {
    match cmd
    case IssueLogin(userName, password) => Login(m, userName, password)
    case CompleteLogin(result) => LoginCompleted(m, result)
    case IssueLoginClient => LoginClient(m, c)
    case CompleteLoginClient(result) => LoginClientCompleted(m, result)
    case IssueLogout => Logout(m, c)
    case IssueProviderLogin(kind) => LoginWithProvider(m, kind)
    case CompleteProviderLogin(kind, result) => ProviderLoginCompleted(m, kind, result)
    case ReportProviderLogout => ProviderDidLogout(m, c)
    case IssueRefresh => RefreshTokenRequest(m, c)
    case CompleteToken(result) => TokenCompleted(m, result)
    case SetProfile(profile) => m.(defaults := WriteProfile(m.defaults, profile))
    case IssueClientToken => GetClientToken(m, c)
    case IssueRefreshLogin => RefreshTokenRequestLogin(m)
  }

  function Run(m: Snapshot, c: ClientCredentials, cmds: seq<Command>): Snapshot
    decreases |cmds|
  {
    if cmds == [] then m else Run(Step(m, c, cmds[0]), c, cmds[1..])
  }

  // ---------------------------------------------------------------------------
  // Start-up

  /** With a session and an account kind persisted, start-up publishes them and calls nothing. */
  lemma BootWithSession(d: Defaults, k: Keychain, c: ClientCredentials)
    requires ReadSession(d).Some? && ReadUserType(d).Some?
    ensures Boot(d, k, c).state == StateFor(ReadSession(d).value, ReadUserType(d).value)
    ensures Boot(d, k, c).trace == []
    ensures Boot(d, k, c).defaults == d && Boot(d, k, c).keychain == k
  {
  }

  /** Missing either, start-up publishes `Empty` and issues exactly one guest client-credentials call. */
  lemma BootWithoutSession(d: Defaults, k: Keychain, c: ClientCredentials)
    requires ReadSession(d).None? || ReadUserType(d).None?
    ensures Boot(d, k, c).state == Empty
    ensures Boot(d, k, c).trace == [GuestRequest(c)]
    ensures Boot(d, k, c).defaults == d && Boot(d, k, c).keychain == k
  {
  }

  /** Start-up binds the provider of the persisted kind, and none without one. */
  lemma BootBindsPersistedProvider(d: Defaults, k: Keychain, c: ClientCredentials)
    ensures ReadProviderKind(d).None? ==> Boot(d, k, c).provider.None?
    ensures ReadProviderKind(d).Some? ==> Boot(d, k, c).provider == ProviderFor(ReadProviderKind(d).value)
  {
  }

  /** Start-up always publishes the state its stores describe. */
  lemma BootIsConsistent(d: Defaults, k: Keychain, c: ClientCredentials)
    ensures Consistent(Boot(d, k, c))
  {
  }

  // ---------------------------------------------------------------------------
  // Logging in and out

  /** A successful password login signs in with the session the transport returned, and its tokens read back unchanged. */
  lemma LoginSucceeds(m: Snapshot, user: UserSessionData)
    ensures LoginCompleted(m, Success(user)).state == SignedIn(user)
    ensures ReadSession(LoginCompleted(m, Success(user)).defaults) == Some(user)
    ensures ReadUserType(LoginCompleted(m, Success(user)).defaults) == Some(SignedInUser)
    ensures ReadToken(LoginCompleted(m, Success(user)).keychain, AccessTokenService) == user.accessToken
    ensures ReadToken(LoginCompleted(m, Success(user)).keychain, RefreshTokenService) == user.refreshToken
    ensures LoginReply(Success(user)) == None
  {
  }

  /** A failed password login hands the error to the caller and changes nothing. */
  lemma LoginFailureChangesNothing(m: Snapshot, e: NetworkError)
    ensures LoginCompleted(m, Failure(e)) == m
    ensures LoginReply(Failure(e)) == Some(e)
  {
  }

  /** A guest login commits a guest session, and notifies the delegate of a login as well. */
  lemma LoginClientSucceeds(m: Snapshot, user: UserSessionData)
    ensures LoginClientCompleted(m, Success(user)).state == Client(user)
    ensures ReadUserType(LoginClientCompleted(m, Success(user)).defaults) == Some(GuestUser)
    ensures LoginClientCompleted(m, Success(user)).trace == m.trace + [DidLogin]
  {
  }

  /**
   * Logging out logs the bound provider out, then leaves both stores empty,
   * no provider, state `Empty`, one guest bootstrap call and a logout
   * notification.
   */
  lemma LogoutClearsEverything(m: Snapshot, c: ClientCredentials)
    ensures Logout(m, c).defaults == map[] && Logout(m, c).keychain == map[]
    ensures ReadSession(Logout(m, c).defaults).None? && ReadProfile(Logout(m, c).defaults).None?
    ensures ReadUserType(Logout(m, c).defaults).None? && ReadProviderKind(Logout(m, c).defaults).None?
    ensures ReadToken(Logout(m, c).keychain, AccessTokenService).None?
    ensures ReadToken(Logout(m, c).keychain, RefreshTokenService).None?
    ensures Logout(m, c).provider.None? && Logout(m, c).state == Empty
    ensures m.provider.Some? ==>
      Logout(m, c).trace == m.trace + [ProviderLogout(m.provider.value), GuestRequest(c), DidLogout]
    ensures m.provider.None? ==> Logout(m, c).trace == m.trace + [GuestRequest(c), DidLogout]
  {
    var notified :=
      if m.provider.Some? then m.(trace := m.trace + [ProviderLogout(m.provider.value)]) else m;
    assert Logout(m, c) == ClearData(notified, c);
  }

  /** A provider that reports its own logout is not asked to log out again; the rest is a full logout. */
  lemma ProviderDidLogoutClearsWithoutProviderCall(m: Snapshot, c: ClientCredentials)
    ensures ProviderDidLogout(m, c) == ClearData(m, c)
    ensures ProviderDidLogout(m, c).trace == m.trace + [GuestRequest(c), DidLogout]
  {
    assert Logout(m.(provider := None), c) == ClearData(m.(provider := None), c);
  }

  // ---------------------------------------------------------------------------
  // External providers

  /** Issuing a provider login binds the provider of that kind and, unless the kind is a password, calls its login. */
  lemma ProviderLoginIssued(m: Snapshot, kind: LoginProviderType)
    ensures LoginWithProvider(m, kind).provider == ProviderFor(kind)
    ensures kind == Password ==> LoginWithProvider(m, kind).trace == m.trace
    ensures kind != Password ==>
      LoginWithProvider(m, kind).trace == m.trace + [ProviderLogin(ProviderFor(kind).value)]
    ensures LoginWithProvider(m, kind).(provider := m.provider, trace := m.trace) == m
  {
  }

  /** A successful provider login persists the provider kind and signs in as a signed-in user. */
  lemma ProviderLoginSucceeds(m: Snapshot, kind: LoginProviderType, user: UserSessionData)
    ensures ReadProviderKind(ProviderLoginCompleted(m, kind, Success(user)).defaults) == Some(kind)
    ensures ReadUserType(ProviderLoginCompleted(m, kind, Success(user)).defaults) == Some(SignedInUser)
    ensures ProviderLoginCompleted(m, kind, Success(user)).state == SignedIn(user)
  {
  }

  /**
   * A failed provider login keeps the persisted kind, session and state, but
   * the provider it bound stays bound: after a failed Facebook login over a
   * Google sign-in, the bound provider no longer matches the persisted kind.
   */
  lemma ProviderLoginFailureRebinds(m: Snapshot, kind: LoginProviderType, e: ProviderError)
    ensures var r := ProviderLoginCompleted(LoginWithProvider(m, kind), kind, Failure(e));
      && r.defaults == m.defaults && r.keychain == m.keychain && r.state == m.state
      && r.provider == ProviderFor(kind)
    ensures ReadProviderKind(m.defaults) == Some(Google) && m.provider == Some(GoogleAuthenticator) ==>
      ProviderLoginCompleted(LoginWithProvider(m, Facebook), Facebook, Failure(e)).provider.value.Kind()
      != ReadProviderKind(m.defaults).value
  {
  }

  // ---------------------------------------------------------------------------
  // Refreshing tokens

  /** Without a stored account kind, a refresh does nothing. */
  lemma RefreshWithoutUserType(m: Snapshot, c: ClientCredentials)
    requires ReadUserType(m.defaults).None?
    ensures RefreshTokenRequest(m, c) == m
  {
  }

  /** A signed-in user refreshes with the stored refresh token, or the empty string when none is stored. */
  lemma RefreshSignedIn(m: Snapshot, c: ClientCredentials)
    requires ReadUserType(m.defaults) == Some(SignedInUser)
    ensures ReadToken(m.keychain, RefreshTokenService).Some? ==>
      RefreshTokenRequest(m, c).trace
      == m.trace + [Request(Routing.RefreshToken(ReadToken(m.keychain, RefreshTokenService).value))]
    ensures ReadToken(m.keychain, RefreshTokenService).None? ==>
      RefreshTokenRequest(m, c).trace == m.trace + [Request(Routing.RefreshToken(""))]
    ensures RefreshTokenRequest(m, c).(trace := m.trace) == m
  {
  }

  /** A guest refreshes by issuing the same client-credentials call as a guest login. */
  lemma RefreshGuest(m: Snapshot, c: ClientCredentials)
    requires ReadUserType(m.defaults) == Some(GuestUser)
    ensures RefreshTokenRequest(m, c) == LoginClient(m, c)
    ensures RefreshTokenRequest(m, c).trace == m.trace + [GuestRequest(c)]
  {
  }

  /** A successful token call changes the two tokens and nothing else; a failed one changes nothing. */
  lemma TokenCompletedChangesOnlyTokens(m: Snapshot, result: Result<UserSessionData, NetworkError>)
    ensures TokenCompleted(m, result).(keychain := m.keychain) == m
    ensures result.Failure? ==> TokenCompleted(m, result) == m
    ensures result.Success? ==>
      && ReadToken(TokenCompleted(m, result).keychain, AccessTokenService) == result.value.accessToken
      && ReadToken(TokenCompleted(m, result).keychain, RefreshTokenService) == result.value.refreshToken
    ensures ReadSession(TokenCompleted(m, result).defaults) == ReadSession(m.defaults)
    ensures ReadProfile(TokenCompleted(m, result).defaults) == ReadProfile(m.defaults)
  {
  }

  /** For the tokens, a guest's refresh is a guest login: same call, and the same keychain on the same answer. */
  lemma GuestRefreshIsLoginClientForTokens(m: Snapshot, c: ClientCredentials, user: UserSessionData)
    requires ReadUserType(m.defaults) == Some(GuestUser)
    ensures RefreshTokenRequest(m, c).trace == LoginClient(m, c).trace
    ensures TokenCompleted(m, Success(user)).keychain == LoginClientCompleted(m, Success(user)).keychain
  {
  }

  /**
   * The guest bootstrap stores tokens while no session is stored: on a
   * cold start, once the bootstrap call answers, the keychain holds a token
   * and the user-defaults store still holds no session.
   */
  lemma BootstrapTokensWithoutSession(k: Keychain, c: ClientCredentials, user: UserSessionData)
    requires user.accessToken.Some?
    ensures var r := TokenCompleted(Boot(map[], k, c), Success(user));
      && ReadSession(r.defaults).None? && ReadToken(r.keychain, AccessTokenService) == user.accessToken
      && r.state == Empty
  {
  }

  // ---------------------------------------------------------------------------
  // Whole runs

  /** Every operation keeps the published state equal to the one the stores describe. */
  lemma StepKeepsConsistent(m: Snapshot, c: ClientCredentials, cmd: Command)
    requires Consistent(m)
    ensures Consistent(Step(m, c, cmd))
  {
    match cmd
    case IssueLogout => LogoutClearsEverything(m, c);
    case ReportProviderLogout => ProviderDidLogoutClearsWithoutProviderCall(m, c);
    case CompleteToken(result) => TokenCompletedChangesOnlyTokens(m, result);
    case _ =>
  }

  /** Every operation only appends to the log of effects. */
  lemma StepExtendsTrace(m: Snapshot, c: ClientCredentials, cmd: Command)
    ensures m.trace <= Step(m, c, cmd).trace
  {
    match cmd
    case IssueLogout => LogoutClearsEverything(m, c);
    case ReportProviderLogout => ProviderDidLogoutClearsWithoutProviderCall(m, c);
    case _ =>
  }

  /** After start-up and any sequence of commands, the published state is the one the stores describe. */
  lemma {:induction false} RunKeepsConsistent(m: Snapshot, c: ClientCredentials, cmds: seq<Command>)
    requires Consistent(m)
    ensures Consistent(Run(m, c, cmds))
    decreases |cmds|
  {
    if cmds != [] {
      StepKeepsConsistent(m, c, cmds[0]);
      RunKeepsConsistent(Step(m, c, cmds[0]), c, cmds[1..]);
    }
  }

  /** The log of effects is append-only over any sequence of commands. */
  lemma {:induction false} RunExtendsTrace(m: Snapshot, c: ClientCredentials, cmds: seq<Command>)
    ensures m.trace <= Run(m, c, cmds).trace
    decreases |cmds|
  {
    if cmds != [] {
      StepExtendsTrace(m, c, cmds[0]);
      RunExtendsTrace(Step(m, c, cmds[0]), c, cmds[1..]);
    }
  }

  /**
   * A restart publishes the state the authenticator had when it stopped,
   * after any run from any start-up; it calls the transport only when that
   * state is `Empty`.
   */
  lemma RestartRehydratesSameState(d: Defaults, k: Keychain, c: ClientCredentials, cmds: seq<Command>)
    ensures var m := Run(Boot(d, k, c), c, cmds);
      && Boot(m.defaults, m.keychain, c).state == m.state
      && (m.state != Empty ==> Boot(m.defaults, m.keychain, c).trace == [])
  {
    BootIsConsistent(d, k, c);
    RunKeepsConsistent(Boot(d, k, c), c, cmds);
  }

  /** After a successful provider login, a restart signs in directly, calls nothing, and rebinds that provider. */
  lemma ProviderLoginSurvivesRestart(m: Snapshot, kind: LoginProviderType, user: UserSessionData, c: ClientCredentials)
    ensures var r := ProviderLoginCompleted(m, kind, Success(user));
      && Boot(r.defaults, r.keychain, c).state == SignedIn(user)
      && Boot(r.defaults, r.keychain, c).trace == []
      && Boot(r.defaults, r.keychain, c).provider == ProviderFor(kind)
  {
    ProviderLoginSucceeds(m, kind, user);
  }
}
