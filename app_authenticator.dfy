/**
 * The authenticator object. Its persisted properties are the two store
 * fields, read through getter functions and written through setter methods
 * that save a value or delete the entry on `nil`; the published state and
 * the bound provider are plain fields; transport calls, provider calls and
 * delegate notifications are appended to `trace`. Each operation is the
 * same sequence of property writes as the Swift method, and is proved
 * to produce the snapshot the matching transition function describes.
 */
module Authenticator {
  import opened Wrappers
  import opened Session
  import opened Stores
  import opened AuthMachine
  import Routing

  class AppAuthenticator {
    var authenticationState: AuthState
    var defaults: Defaults
    var keychain: Keychain
    var provider: Option<LoginProvider>
    var trace: seq<Effect>
    const credentials: ClientCredentials

    /** Everything the authenticator owns, as one value. */
    function Model(): Snapshot
      reads this
    {
      Snapshot(defaults, keychain, authenticationState, provider, trace)
    }

    /** The published state is the one its stores describe. */
    predicate Valid()
      reads this
    {
      Consistent(Model())
    }

    /** Start-up over the given persisted stores. */
    constructor(storedDefaults: Defaults, storedKeychain: Keychain, clientCredentials: ClientCredentials)
      ensures Model() == Boot(storedDefaults, storedKeychain, clientCredentials)
      ensures credentials == clientCredentials
      ensures Valid()
    {
      defaults := storedDefaults;
      keychain := storedKeychain;
      authenticationState := Empty;
      provider := None;
      trace := [];
      credentials := clientCredentials;
      new;
      GetCurrentLoginState();
      BootIsConsistent(storedDefaults, storedKeychain, clientCredentials);
    }

    // -------------------------------------------------------------------------
    // Persisted properties

    function SessionData(): Option<UserSessionData>
      reads this
    {
      ReadSession(defaults)
    }

    function ProfileData(): Option<UserProfileData>
      reads this
    {
      ReadProfile(defaults)
    }

    function AccountType(): Option<UserType>
      reads this
    {
      ReadUserType(defaults)
    }

    function ProviderKind(): Option<LoginProviderType>
      reads this
    {
      ReadProviderKind(defaults)
    }

    function AccessToken(): Option<string>
      reads this
    {
      ReadToken(keychain, AccessTokenService)
    }

    function RefreshToken(): Option<string>
      reads this
    {
      ReadToken(keychain, RefreshTokenService)
    }

    method SetSessionData(v: Option<UserSessionData>)
      modifies this
      ensures SessionData() == v
      ensures Model() == old(Model()).(defaults := WriteSession(old(defaults), v))
    {
      defaults := WriteSession(defaults, v);
    }

    method SetProfileData(v: Option<UserProfileData>)
      modifies this
      ensures ProfileData() == v
      ensures Model() == old(Model()).(defaults := WriteProfile(old(defaults), v))
    {
      defaults := WriteProfile(defaults, v);
    }

    method SetAccountType(v: Option<UserType>)
      modifies this
      ensures AccountType() == v
      ensures Model() == old(Model()).(defaults := WriteUserType(old(defaults), v))
    {
      defaults := WriteUserType(defaults, v);
    }

    method SetProviderKind(v: Option<LoginProviderType>)
      modifies this
      ensures ProviderKind() == v
      ensures Model() == old(Model()).(defaults := WriteProviderKind(old(defaults), v))
    {
      defaults := WriteProviderKind(defaults, v);
    }

    method SetAccessToken(v: Option<string>)
      modifies this
      ensures AccessToken() == v
      ensures Model() == old(Model()).(keychain := WriteToken(old(keychain), AccessTokenService, v))
    {
      keychain := WriteToken(keychain, AccessTokenService, v);
    }

    method SetRefreshToken(v: Option<string>)
      modifies this
      ensures RefreshToken() == v
      ensures Model() == old(Model()).(keychain := WriteToken(old(keychain), RefreshTokenService, v))
    {
      keychain := WriteToken(keychain, RefreshTokenService, v);
    }

    // -------------------------------------------------------------------------
    // Private operations

    method GetCurrentLoginState()
      modifies this
      ensures Model() == AuthMachine.GetCurrentLoginState(old(Model()), credentials)
    {
      var kind := ProviderKind();
      if kind.Some? {
        InitializeLoginProvider(kind.value);
      }
      var session := SessionData();
      var userType := AccountType();
      if session.Some? && userType.Some? {
        authenticationState := StateFor(session.value, userType.value);
      } else {
        authenticationState := Empty;
        GetClientToken();
      }
    }

    method InitializeLoginProvider(kind: LoginProviderType)
      modifies this
      ensures Model() == AuthMachine.InitializeLoginProvider(old(Model()), kind)
    {
      match kind
      case Password => provider := None;
      case Google => provider := Some(GoogleAuthenticator);
      case Facebook => provider := Some(FacebookAuthenticator);
      case Twitter => provider := Some(TwitterAuthenticator);
      case Apple => provider := Some(AppleAuthenticator);
    }

    method HandleLogin(user: UserSessionData, userType: UserType)
      modifies this
      ensures Model() == AuthMachine.HandleLogin(old(Model()), user, userType)
    {
      SetSessionData(Some(user));
      SetAccountType(Some(userType));
      SetToken(user);
      trace := trace + [DidLogin];
      authenticationState := StateFor(user, userType);
    }

    method SetToken(user: UserSessionData)
      modifies this
      ensures Model() == AuthMachine.SetToken(old(Model()), user)
    {
      SetAccessToken(user.accessToken);
      SetRefreshToken(user.refreshToken);
    }

    method ClearData()
      modifies this
      ensures Model() == AuthMachine.ClearData(old(Model()), credentials)
    {
      SetSessionData(None);
      SetProfileData(None);
      SetAccountType(None);
      SetAccessToken(None);
      SetRefreshToken(None);
      SetProviderKind(None);
      provider := None;
      authenticationState := Empty;
      GetClientToken();
      trace := trace + [DidLogout];
    }

    method GetClientToken()
      modifies this
      ensures Model() == AuthMachine.GetClientToken(old(Model()), credentials)
    {
      trace := trace + [GuestRequest(credentials)];
    }

    method RefreshTokenRequestLogin()
      modifies this
      ensures Model() == AuthMachine.RefreshTokenRequestLogin(old(Model()))
    {
      var token := RefreshToken().GetOr("");
      trace := trace + [Request(Routing.RefreshToken(token))];
    }

    // -------------------------------------------------------------------------
    // Public operations

    method Login(userName: string, password: string)
      modifies this
      ensures Model() == AuthMachine.Login(old(Model()), userName, password)
      ensures old(Valid()) ==> Valid()
    {
      trace := trace + [Request(Routing.Login(userName, password))];
    }

    method LoginCompleted(result: Result<UserSessionData, NetworkError>) returns (error: Option<NetworkError>)
      modifies this
      ensures Model() == AuthMachine.LoginCompleted(old(Model()), result)
      ensures error == LoginReply(result)
      ensures old(Valid()) ==> Valid()
    {
      match result
      case Success(user) =>
        HandleLogin(user, SignedInUser);
        error := None;
      case Failure(e) =>
        error := Some(e);
    }

    method LoginClient()
      modifies this
      ensures Model() == AuthMachine.LoginClient(old(Model()), credentials)
      ensures old(Valid()) ==> Valid()
    {
      trace := trace + [GuestRequest(credentials)];
    }

    method LoginClientCompleted(result: Result<UserSessionData, NetworkError>)
      modifies this
      ensures Model() == AuthMachine.LoginClientCompleted(old(Model()), result)
      ensures old(Valid()) ==> Valid()
    {
      match result
      case Success(user) => HandleLogin(user, GuestUser);
      case Failure(_) =>
    }

    method Logout()
      modifies this
      ensures Model() == AuthMachine.Logout(old(Model()), credentials)
      ensures Valid()
    {
      if provider.Some? {
        trace := trace + [ProviderLogout(provider.value)];
      }
      ClearData();
    }

    method LoginWithProvider(kind: LoginProviderType)
      modifies this
      ensures Model() == AuthMachine.LoginWithProvider(old(Model()), kind)
      ensures old(Valid()) ==> Valid()
    {
      InitializeLoginProvider(kind);
      if provider.Some? {
        trace := trace + [ProviderLogin(provider.value)];
      }
    }

    method ProviderLoginCompleted(kind: LoginProviderType, result: Result<UserSessionData, ProviderError>)
      modifies this
      ensures Model() == AuthMachine.ProviderLoginCompleted(old(Model()), kind, result)
      ensures old(Valid()) ==> Valid()
    {
      match result
      case Success(user) =>
        SetProviderKind(Some(kind));
        HandleLogin(user, SignedInUser);
      case Failure(_) =>
    }

    method ProviderDidLogout()
      modifies this
      ensures Model() == AuthMachine.ProviderDidLogout(old(Model()), credentials)
      ensures Valid()
    {
      provider := None;
      Logout();
    }

    method RefreshTokenRequest()
      modifies this
      ensures Model() == AuthMachine.RefreshTokenRequest(old(Model()), credentials)
      ensures old(Valid()) ==> Valid()
    {
      var userType := AccountType();
      if userType.None? {
        return;
      }
      match userType.value
      case SignedInUser => RefreshTokenRequestLogin();
      case GuestUser => GetClientToken();
    }

    /** The callback of a refresh-grant call and of a client-credentials call issued by `GetClientToken`. */
    method TokenCompleted(result: Result<UserSessionData, NetworkError>) returns (reply: Result<(), NetworkError>)
      modifies this
      ensures Model() == AuthMachine.TokenCompleted(old(Model()), result)
      ensures reply == TokenReply(result)
      ensures old(Valid()) ==> Valid()
    {
      match result
      case Success(user) =>
        SetToken(user);
        reply := Success(());
      case Failure(e) =>
        reply := Failure(e);
    }
  }
}
