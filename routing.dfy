/**
 * The request-routing table of the authentication API: every endpoint the
 * authenticator can call, with its base URL, path, HTTP method, body and
 * headers. Each function is a total `match` over the route, as the Swift
 * computed properties are a `switch self`. The current network language
 * (read from a localization singleton in the app) is a parameter `lang`.
 */
module Routing {
  import opened Wrappers
  import opened UrlQuery

  /** Picked image data, sent as the single part of a multipart body. */
  datatype Image = Image(pngData: seq<bv8>)

  /** A request body dictionary; its values are modelled as text. */
  type Parameters = map<string, string>

  type HttpHeaders = map<string, string>

  datatype HttpMethod = Get | Post | Put | Delete

  datatype ParameterEncoding = JsonEncoding

  datatype MultipartParameters = Single(key: string, image: Image)

  /** What the request carries besides its URL. */
  datatype RouterTask =
    | RequestNoParameters
    | RequestParameters(parameters: Parameters, encoding: ParameterEncoding)
    | RequestWithMultipart(parameters: Parameters, multipart: MultipartParameters)

  /**
   * The endpoints. `UploadProfilePicture`'s image is the URL of an already
   * uploaded picture (a string), so its field is named `imageUrl` here.
   */
  datatype AuthenticationRouter =
    | Login(username: string, password: string)
    | Guest(username: string, key: string)
    | RefreshToken(refreshToken: string)
    | LoginWithApple(username: string, jwtToken: string)
    | GetProfile
    | UpdateProfile(parameters: Parameters)
    | VerifyAnonymous(parameters: Parameters)
    | ChangePassword(oldPassword: string, newPassword: string)
    | DeleteAccount(password: string)
    | DeleteProfilePicture
    | UploadMedia(image: Image)
    | UploadProfilePicture(format: string, imageUrl: string)

  const Host: string := "https://stg-api.dwademo.com/"

  /** The OAuth 2.0 token endpoint (section 3.2 of RFC 6749). */
  const TokenEndpoint: string := "authorizationserver/oauth/token"

  function BaseUrl(r: AuthenticationRouter): string {
    match r
    case _ => Host
  }

  /**
   * The path after the base URL. Each source literal is written as the
   * pieces it is made of, split before every `?` and `&`, with the
   * interpolated values appended to the piece that names them.
   */
  function Path(r: AuthenticationRouter, lang: string): string {
    Interpolate(PathPieces(r, lang))
  }

  function PathPieces(r: AuthenticationRouter, lang: string): seq<string> {
    match r
    case Login(username, password) =>
      [TokenEndpoint, "?client_id=occ_mobile", "&client_secret=Erabia@123", "&grant_type=password",
       "&username=" + username, "&password=" + password]
    case Guest(username, key) =>
      [TokenEndpoint, "?client_id=" + username, "&client_secret=" + key, "&grant_type=client_credentials"]
    case RefreshToken(refreshToken) =>
      [TokenEndpoint, "?client_id=occ_mobile", "&client_secret=Erabia@123", "&grant_type=refresh_token",
       "&refresh_token=" + refreshToken]
    case LoginWithApple(_, _) => [""]
    case GetProfile => ["occ/v2/aldawaa/users/current", "?fields=FULL", "&lang=" + lang]
    case UpdateProfile(_) => ["occ/v2/aldawaa/users/current", "?fields=FULL", "&lang=" + lang]
    case VerifyAnonymous(_) =>
      ["/occ/v2/aldawaa/users/anonymous/verification", "?fields=DEFAULT", "&lang=" + lang]
    case ChangePassword(oldPassword, newPassword) =>
      ["occ/v2/aldawaa/users/current/password", "?new=" + newPassword, "&old=" + oldPassword, "&lang=" + lang]
    case DeleteAccount(password) => ["occ/v2/aldawaa/users/current", "?password=" + password, "&lang=" + lang]
    case DeleteProfilePicture => ["occ/v2/aldawaa/users/current/avatar", "&lang=" + lang]
    case UploadMedia(_) =>
      ["occ/v2/aldawaa/media", "?folder=images", "&mediaType=USERAVATAR", "&mime=png", "&lang=" + lang]
    case UploadProfilePicture(_, _) => ["occ/v2/aldawaa/users/current/avatar"]
  }

  function Method(r: AuthenticationRouter): (m: HttpMethod)
    ensures m == Get <==> r.GetProfile?
    ensures m == Put <==> r.UpdateProfile? || r.ChangePassword? || r.UploadProfilePicture?
    ensures m == Delete <==> r.DeleteAccount? || r.DeleteProfilePicture?
    ensures m == Post <==>
      r.Login? || r.RefreshToken? || r.LoginWithApple? || r.Guest? || r.VerifyAnonymous? || r.UploadMedia?
  {
    match r
    case Login(_, _) => Post
    case RefreshToken(_) => Post
    case LoginWithApple(_, _) => Post
    case Guest(_, _) => Post
    case GetProfile => Get
    case UpdateProfile(_) => Put
    case VerifyAnonymous(_) => Post
    case ChangePassword(_, _) => Put
    case DeleteAccount(_) => Delete
    case DeleteProfilePicture => Delete
    case UploadMedia(_) => Post
    case UploadProfilePicture(_, _) => Put
  }

  function Task(r: AuthenticationRouter): (t: RouterTask)
    ensures t.RequestNoParameters? <==>
      r.Login? || r.RefreshToken? || r.Guest? || r.GetProfile? || r.ChangePassword?
      || r.DeleteAccount? || r.DeleteProfilePicture?
    ensures t.RequestWithMultipart? <==> r.UploadMedia?
    ensures r.UploadMedia? ==> t == RequestWithMultipart(map[], Single("file", r.image))
    ensures r.UpdateProfile? || r.VerifyAnonymous? ==> t == RequestParameters(r.parameters, JsonEncoding)
    ensures r.UploadProfilePicture? ==>
      && t.RequestParameters? && t.encoding == JsonEncoding
      && t.parameters.Keys == {"url", "format"}
      && t.parameters["url"] == r.imageUrl && t.parameters["format"] == r.format
  {
    match r
    case Login(_, _) => RequestNoParameters
    case RefreshToken(_) => RequestNoParameters
    case LoginWithApple(username, jwtToken) =>
      RequestParameters(map["ADD_KEY_HERE" := username, "ADD_KEY_HEREE" := jwtToken], JsonEncoding)
    case Guest(_, _) => RequestNoParameters
    case GetProfile => RequestNoParameters
    case UpdateProfile(parameters) => RequestParameters(parameters, JsonEncoding)
    case VerifyAnonymous(parameters) => RequestParameters(parameters, JsonEncoding)
    case ChangePassword(_, _) => RequestNoParameters
    case DeleteAccount(_) => RequestNoParameters
    case DeleteProfilePicture => RequestNoParameters
    case UploadMedia(image) => RequestWithMultipart(map[], Single("file", image))
    case UploadProfilePicture(format, imageUrl) =>
      RequestParameters(map["url" := imageUrl, "format" := format], JsonEncoding)
  }

  function Headers(r: AuthenticationRouter): (h: Option<HttpHeaders>)
    ensures h == None
  {
    match r
    case _ => None
  }

  // ---------------------------------------------------------------------------
  // What each path is meant to say: the resource it names and the query items
  // it carries. This is an independent statement of the table above, against
  // which the interpolated paths are checked.

  function Endpoint(r: AuthenticationRouter): (e: string)
    ensures '?' !in e
  {
    match r
    case Login(_, _) => TokenEndpointPlain(); TokenEndpoint
    case Guest(_, _) => TokenEndpointPlain(); TokenEndpoint
    case RefreshToken(_) => TokenEndpointPlain(); TokenEndpoint
    case LoginWithApple(_, _) => ""
    case GetProfile => UsersCurrentPlain(); "occ/v2/aldawaa/users/current"
    case UpdateProfile(_) => UsersCurrentPlain(); "occ/v2/aldawaa/users/current"
    case VerifyAnonymous(_) => VerificationPlain(); "/occ/v2/aldawaa/users/anonymous/verification"
    case ChangePassword(_, _) => PasswordResourcePlain(); "occ/v2/aldawaa/users/current/password"
    case DeleteAccount(_) => UsersCurrentPlain(); "occ/v2/aldawaa/users/current"
    case DeleteProfilePicture => AvatarPlain(); "occ/v2/aldawaa/users/current/avatar"
    case UploadMedia(_) => MediaPlain(); "occ/v2/aldawaa/media"
    case UploadProfilePicture(_, _) => AvatarPlain(); "occ/v2/aldawaa/users/current/avatar"
  }

  // No endpoint literal holds a `?`.

  lemma TokenEndpointPlain()
    ensures '?' !in TokenEndpoint
  {
  }

  lemma UsersCurrentPlain()
    ensures '?' !in "occ/v2/aldawaa/users/current"
  {
  }

  lemma VerificationPlain()
    ensures '?' !in "/occ/v2/aldawaa/users/anonymous/verification"
  {
  }

  lemma PasswordResourcePlain()
    ensures '?' !in "occ/v2/aldawaa/users/current/password"
  {
  }

  lemma AvatarPlain()
    ensures '?' !in "occ/v2/aldawaa/users/current/avatar"
  {
  }

  lemma MediaPlain()
    ensures '?' !in "occ/v2/aldawaa/media"
  {
  }

  /** The fixed client that password and refresh grants authenticate as. */
  const AppClient: seq<QueryItem> := [("client_id", "occ_mobile"), ("client_secret", "Erabia@123")]

  function IntendedQuery(r: AuthenticationRouter, lang: string): seq<QueryItem> {
    match r
    case Login(username, password) =>
      AppClient + [("grant_type", "password"), ("username", username), ("password", password)]
    case Guest(username, key) =>
      [("client_id", username), ("client_secret", key), ("grant_type", "client_credentials")]
    case RefreshToken(refreshToken) =>
      AppClient + [("grant_type", "refresh_token"), ("refresh_token", refreshToken)]
    case LoginWithApple(_, _) => []
    case GetProfile => [("fields", "FULL"), ("lang", lang)]
    case UpdateProfile(_) => [("fields", "FULL"), ("lang", lang)]
    case VerifyAnonymous(_) => [("fields", "DEFAULT"), ("lang", lang)]
    case ChangePassword(oldPassword, newPassword) =>
      [("new", newPassword), ("old", oldPassword), ("lang", lang)]
    case DeleteAccount(password) => [("password", password), ("lang", lang)]
    case DeleteProfilePicture => [("lang", lang)]
    case UploadMedia(_) =>
      [("folder", "images"), ("mediaType", "USERAVATAR"), ("mime", "png"), ("lang", lang)]
    case UploadProfilePicture(_, _) => []
  }

  /**
   * The path as it is evidently meant: the endpoint, then `?` and the
   * intended items with every name and value percent-encoded.
   */
  function CorrectedPath(r: AuthenticationRouter, lang: string): (p: string)
    ensures UrlItems(p) == IntendedQuery(r, lang)
  {
    var items := IntendedQuery(r, lang);
    if items == [] then
      assert QueryOf(Endpoint(r)) == "";
      Endpoint(r)
    else
      DecodeEncodeItems(items);
      UrlItemsOfRender(Endpoint(r), EncodeItems(items));
      Endpoint(r) + "?" + Render(EncodeItems(items))
  }

  // ---------------------------------------------------------------------------
  // Properties of the table

  /** Every route talks to the same host, over HTTPS. */
  lemma SameHost(r1: AuthenticationRouter, r2: AuthenticationRouter)
    ensures BaseUrl(r1) == BaseUrl(r2)
    ensures BaseUrl(r1)[..8] == "https://"
  {
  }

  /**
   * The token routes are exactly the three OAuth 2.0 grants, and each is a
   * POST without body or headers (section 3.2 of RFC 6749 requires POST).
   */
  lemma TokenRequests(r: AuthenticationRouter)
    ensures Endpoint(r) == TokenEndpoint <==> r.Login? || r.Guest? || r.RefreshToken?
    ensures Endpoint(r) == TokenEndpoint ==>
      Method(r) == Post && Task(r) == RequestNoParameters && Headers(r) == None
  {
  }

  /** GET and DELETE requests never carry a body. */
  lemma BodylessMethods(r: AuthenticationRouter)
    ensures Method(r) == Get || Method(r) == Delete ==> Task(r) == RequestNoParameters
  {
  }

  /** Reading and updating the profile address the same resource, in every language. */
  lemma ProfileReadWriteSamePath(parameters: Parameters, lang: string)
    ensures Path(GetProfile, lang) == Path(UpdateProfile(parameters), lang)
    ensures Method(GetProfile) == Get && Method(UpdateProfile(parameters)) == Put
  {
  }

  /** The pieces of every path with a query but `DeleteProfilePicture`'s are the endpoint and the pieces of the intended query. */
  lemma PathPiecesOfQuery(r: AuthenticationRouter, lang: string)
    requires !r.DeleteProfilePicture? && IntendedQuery(r, lang) != []
    ensures PathPieces(r, lang) == [Endpoint(r)] + QueryPieces(IntendedQuery(r, lang))
  {
    match r
    case Login(username, password) => LoginPieces(username, password, lang);
    case Guest(username, key) => GuestPieces(username, key, lang);
    case RefreshToken(refreshToken) => RefreshPieces(refreshToken, lang);
    case GetProfile => GetProfilePieces(lang);
    case UpdateProfile(parameters) => UpdateProfilePieces(parameters, lang);
    case VerifyAnonymous(parameters) => VerifyAnonymousPieces(parameters, lang);
    case ChangePassword(oldPassword, newPassword) => ChangePasswordPieces(oldPassword, newPassword, lang);
    case DeleteAccount(password) => DeleteAccountPieces(password, lang);
    case UploadMedia(image) => UploadMediaPieces(image, lang);
  }

  lemma LoginPieces(username: string, password: string, lang: string)
    ensures PathPieces(Login(username, password), lang) == [Endpoint(Login(username, password))] + QueryPieces(IntendedQuery(Login(username, password), lang))
  {
    var items := IntendedQuery(Login(username, password), lang);
    assert items == [("client_id", "occ_mobile"), ("client_secret", "Erabia@123"), ("grant_type", "password"), ("username", username), ("password", password)];
    QueryPiecesAt(items);
    var q := QueryPieces(items);
    ClientIdPiece();
    assert q[0] == "?client_id=occ_mobile";
    ClientSecretPiece();
    assert q[1] == "&client_secret=Erabia@123";
    PasswordGrantPiece();
    assert q[2] == "&grant_type=password";
    assert q[3] == "&username=" + username;
    assert q[4] == "&password=" + password;
  }

  lemma GuestPieces(username: string, key: string, lang: string)
    ensures PathPieces(Guest(username, key), lang) == [Endpoint(Guest(username, key))] + QueryPieces(IntendedQuery(Guest(username, key), lang))
  {
    var items := IntendedQuery(Guest(username, key), lang);
    QueryPiecesAt(items);
    var q := QueryPieces(items);
    assert q[0] == "?client_id=" + username;
    assert q[1] == "&client_secret=" + key;
    ClientCredentialsGrantPiece();
    assert q[2] == "&grant_type=client_credentials";
  }

  lemma RefreshPieces(refreshToken: string, lang: string)
    ensures PathPieces(RefreshToken(refreshToken), lang) == [Endpoint(RefreshToken(refreshToken))] + QueryPieces(IntendedQuery(RefreshToken(refreshToken), lang))
  {
    var items := IntendedQuery(RefreshToken(refreshToken), lang);
    assert items == [("client_id", "occ_mobile"), ("client_secret", "Erabia@123"), ("grant_type", "refresh_token"), ("refresh_token", refreshToken)];
    QueryPiecesAt(items);
    var q := QueryPieces(items);
    ClientIdPiece();
    assert q[0] == "?client_id=occ_mobile";
    ClientSecretPiece();
    assert q[1] == "&client_secret=Erabia@123";
    RefreshGrantPiece();
    assert q[2] == "&grant_type=refresh_token";
    assert q[3] == "&refresh_token=" + refreshToken;
  }

  lemma GetProfilePieces(lang: string)
    ensures PathPieces(GetProfile, lang) == [Endpoint(GetProfile)] + QueryPieces(IntendedQuery(GetProfile, lang))
  {
    var items := IntendedQuery(GetProfile, lang);
    QueryPiecesAt(items);
    var q := QueryPieces(items);
    FullFieldsPiece();
    assert q[0] == "?fields=FULL";
    assert q[1] == "&lang=" + lang;
  }

  lemma UpdateProfilePieces(parameters: Parameters, lang: string)
    ensures PathPieces(UpdateProfile(parameters), lang) == [Endpoint(UpdateProfile(parameters))] + QueryPieces(IntendedQuery(UpdateProfile(parameters), lang))
  {
    var items := IntendedQuery(UpdateProfile(parameters), lang);
    QueryPiecesAt(items);
    var q := QueryPieces(items);
    FullFieldsPiece();
    assert q[0] == "?fields=FULL";
    assert q[1] == "&lang=" + lang;
  }

  lemma VerifyAnonymousPieces(parameters: Parameters, lang: string)
    ensures PathPieces(VerifyAnonymous(parameters), lang) == [Endpoint(VerifyAnonymous(parameters))] + QueryPieces(IntendedQuery(VerifyAnonymous(parameters), lang))
  {
    var items := IntendedQuery(VerifyAnonymous(parameters), lang);
    QueryPiecesAt(items);
    var q := QueryPieces(items);
    DefaultFieldsPiece();
    assert q[0] == "?fields=DEFAULT";
    assert q[1] == "&lang=" + lang;
  }

  lemma ChangePasswordPieces(oldPassword: string, newPassword: string, lang: string)
    ensures PathPieces(ChangePassword(oldPassword, newPassword), lang) == [Endpoint(ChangePassword(oldPassword, newPassword))] + QueryPieces(IntendedQuery(ChangePassword(oldPassword, newPassword), lang))
  {
    var items := IntendedQuery(ChangePassword(oldPassword, newPassword), lang);
    QueryPiecesAt(items);
    var q := QueryPieces(items);
    assert q[0] == "?new=" + newPassword;
    assert q[1] == "&old=" + oldPassword;
    assert q[2] == "&lang=" + lang;
  }

  lemma DeleteAccountPieces(password: string, lang: string)
    ensures PathPieces(DeleteAccount(password), lang) == [Endpoint(DeleteAccount(password))] + QueryPieces(IntendedQuery(DeleteAccount(password), lang))
  {
    var items := IntendedQuery(DeleteAccount(password), lang);
    QueryPiecesAt(items);
    var q := QueryPieces(items);
    assert q[0] == "?password=" + password;
    assert q[1] == "&lang=" + lang;
  }

  lemma UploadMediaPieces(image: Image, lang: string)
    ensures PathPieces(UploadMedia(image), lang) == [Endpoint(UploadMedia(image))] + QueryPieces(IntendedQuery(UploadMedia(image), lang))
  {
    var items := IntendedQuery(UploadMedia(image), lang);
    QueryPiecesAt(items);
    var q := QueryPieces(items);
    FolderPiece();
    assert q[0] == "?folder=images";
    MediaTypePiece();
    assert q[1] == "&mediaType=USERAVATAR";
    MimePiece();
    assert q[2] == "&mime=png";
    assert q[3] == "&lang=" + lang;
  }

  // Each fixed piece of a source literal is the text of the item it names.

  lemma ClientIdPiece()
    ensures "?" + ItemText(("client_id", "occ_mobile")) == "?client_id=occ_mobile"
  {
  }

  lemma ClientSecretPiece()
    ensures "&" + ItemText(("client_secret", "Erabia@123")) == "&client_secret=Erabia@123"
  {
  }

  lemma PasswordGrantPiece()
    ensures "&" + ItemText(("grant_type", "password")) == "&grant_type=password"
  {
  }

  lemma RefreshGrantPiece()
    ensures "&" + ItemText(("grant_type", "refresh_token")) == "&grant_type=refresh_token"
  {
  }

  lemma ClientCredentialsGrantPiece()
    ensures "&" + ItemText(("grant_type", "client_credentials")) == "&grant_type=client_credentials"
  {
  }

  lemma FullFieldsPiece()
    ensures "?" + ItemText(("fields", "FULL")) == "?fields=FULL"
  {
  }

  lemma DefaultFieldsPiece()
    ensures "?" + ItemText(("fields", "DEFAULT")) == "?fields=DEFAULT"
  {
  }

  lemma FolderPiece()
    ensures "?" + ItemText(("folder", "images")) == "?folder=images"
  {
  }

  lemma MediaTypePiece()
    ensures "&" + ItemText(("mediaType", "USERAVATAR")) == "&mediaType=USERAVATAR"
  {
  }

  lemma MimePiece()
    ensures "&" + ItemText(("mime", "png")) == "&mime=png"
  {
  }

  /** The query pieces of some items, one by one. */
  lemma QueryPiecesAt(items: seq<QueryItem>)
    requires items != []
    ensures QueryPieces(items)[0] == "?" + ItemText(items[0])
    ensures forall i :: 1 <= i < |items| ==> QueryPieces(items)[i] == "&" + ItemText(items[i])
  {
    forall i | 1 <= i < |items| ensures QueryPieces(items)[i] == "&" + ItemText(items[i]) {
      ItemPiecesAt(items[1..], i - 1);
    }
  }

  lemma {:induction false} ItemPiecesAt(items: seq<QueryItem>, i: nat)
    requires i < |items|
    ensures ItemPieces(items)[i] == "&" + ItemText(items[i])
    decreases i
  {
    if i > 0 {
      assert ItemPieces(items) == ["&" + ItemText(items[0])] + ItemPieces(items[1..]);
      ItemPiecesAt(items[1..], i - 1);
    }
  }

  /** The interpolated path is the endpoint, then `?` and the intended items rendered raw. */
  lemma PathRendersQuery(r: AuthenticationRouter, lang: string)
    requires !r.DeleteProfilePicture?
    ensures IntendedQuery(r, lang) == [] ==> Path(r, lang) == Endpoint(r)
    ensures IntendedQuery(r, lang) != [] ==>
      Path(r, lang) == Endpoint(r) + "?" + Render(IntendedQuery(r, lang))
  {
    var items := IntendedQuery(r, lang);
    if items == [] {
      assert PathPieces(r, lang) == [Endpoint(r)];
      assert Interpolate([Endpoint(r)]) == Endpoint(r) + Interpolate([]);
    } else {
      PathPiecesOfQuery(r, lang);
      InterpolateQuery(Endpoint(r), items);
    }
  }

  /**
   * As written, a path carries its intended query whenever no name or value
   * holds a character that delimits an item or that form-decoding rewrites;
   * the one exception is `DeleteProfilePicture`.
   */
  lemma PathCarriesQuery(r: AuthenticationRouter, lang: string)
    requires !r.DeleteProfilePicture?
    requires ItemsVerbatim(IntendedQuery(r, lang))
    ensures UrlItems(Path(r, lang)) == IntendedQuery(r, lang)
    ensures UrlItems(Path(r, lang)) == UrlItems(CorrectedPath(r, lang))
  {
    var items := IntendedQuery(r, lang);
    PathRendersQuery(r, lang);
    DecodeItemsVerbatim(items);
    if items == [] {
      assert QueryOf(Endpoint(r)) == "";
    } else {
      UrlItemsOfRender(Endpoint(r), items);
    }
  }

  /** The query the server reads from `endpoint?first&rest` starts with `first`, whatever `rest` holds. */
  lemma LookupInFirst(endpoint: string, first: seq<QueryItem>, rest: string, name: string)
    requires '?' !in endpoint && first != [] && ItemsVerbatim(first)
    requires Lookup(first, name).Some?
    ensures Lookup(UrlItems(endpoint + "?" + Render(first) + "&" + rest), name) == Lookup(first, name)
  {
    DecodeItemsVerbatim(first);
    QueryPrefix(endpoint, first, rest);
    LookupPrefix(first, ParseItems(Split(Before(rest, '#'), '&')), name);
  }

  /** The leading items of a password or refresh grant: the app client and the grant type. */
  lemma AppGrantItems(grant: string)
    requires Verbatim(grant)
    ensures ItemsVerbatim(AppClient + [("grant_type", grant)])
    ensures Lookup(AppClient + [("grant_type", grant)], "grant_type") == Some(grant)
    ensures Lookup(AppClient + [("grant_type", grant)], "client_id") == Some("occ_mobile")
  {
    var items := AppClient + [("grant_type", grant)];
    AppClientVerbatim();
    GrantTypeVerbatim();
    ItemsVerbatimJoin(AppClient, [("grant_type", grant)]);
    assert items[1..] == [("client_secret", "Erabia@123"), ("grant_type", grant)];
    assert items[1..][1..] == [("grant_type", grant)];
    assert "client_id" != "grant_type" && "client_secret" != "grant_type";
    assert Lookup(items[1..][1..], "grant_type") == Some(grant);
    assert Lookup(items[1..], "grant_type") == Some(grant);
  }

  // The fixed names and values of the token queries are written verbatim.

  lemma AppClientVerbatim()
    ensures ItemsVerbatim(AppClient)
  {
    ClientIdVerbatim();
    ClientSecretVerbatim();
  }

  lemma ClientIdVerbatim()
    ensures Verbatim("client_id") && '=' !in "client_id" && Verbatim("occ_mobile")
  {
  }

  lemma ClientSecretVerbatim()
    ensures Verbatim("client_secret") && '=' !in "client_secret" && Verbatim("Erabia@123")
  {
  }

  lemma GrantTypeVerbatim()
    ensures Verbatim("grant_type") && '=' !in "grant_type"
  {
  }

  lemma PasswordGrantVerbatim()
    ensures Verbatim("password")
  {
  }

  lemma RefreshGrantVerbatim()
    ensures Verbatim("refresh_token")
  {
  }

  lemma ClientCredentialsVerbatim()
    ensures Verbatim("client_credentials")
  {
  }

  lemma UserNamesVerbatim()
    ensures Verbatim("username") && '=' !in "username"
    ensures Verbatim("password") && '=' !in "password"
  {
  }

  /**
   * A password grant (section 4.3 of RFC 6749) always asks for grant type
   * `password` on behalf of the app client, whatever the username and
   * password hold: those items come first in the query.
   */
  lemma LoginGrant(username: string, password: string, lang: string)
    ensures Lookup(UrlItems(Path(Login(username, password), lang)), "grant_type") == Some("password")
    ensures Lookup(UrlItems(Path(Login(username, password), lang)), "client_id") == Some("occ_mobile")
  {
    var first := AppClient + [("grant_type", "password")];
    var more := [("username", username), ("password", password)];
    assert IntendedQuery(Login(username, password), lang) == first + more;
    LoginPieces(username, password, lang);
    InterpolateQuerySplit(TokenEndpoint, first, more);
    PasswordGrantVerbatim();
    AppGrantItems("password");
    TokenEndpointPlain();
    LookupInFirst(TokenEndpoint, first, Render(more), "grant_type");
    LookupInFirst(TokenEndpoint, first, Render(more), "client_id");
  }

  /** A refresh grant (section 6 of RFC 6749) always asks for grant type `refresh_token`, whatever the token holds. */
  lemma RefreshGrant(refreshToken: string, lang: string)
    ensures Lookup(UrlItems(Path(RefreshToken(refreshToken), lang)), "grant_type") == Some("refresh_token")
    ensures Lookup(UrlItems(Path(RefreshToken(refreshToken), lang)), "client_id") == Some("occ_mobile")
  {
    var first := AppClient + [("grant_type", "refresh_token")];
    var more := [("refresh_token", refreshToken)];
    assert IntendedQuery(RefreshToken(refreshToken), lang) == first + more;
    RefreshPieces(refreshToken, lang);
    InterpolateQuerySplit(TokenEndpoint, first, more);
    RefreshGrantVerbatim();
    AppGrantItems("refresh_token");
    TokenEndpointPlain();
    LookupInFirst(TokenEndpoint, first, Render(more), "grant_type");
    LookupInFirst(TokenEndpoint, first, Render(more), "client_id");
  }

  /** The items of a client-credentials grant name the given client, its secret and the grant type. */
  lemma GuestItems(username: string, key: string)
    requires Verbatim(username) && Verbatim(key)
    ensures ItemsVerbatim([("client_id", username), ("client_secret", key), ("grant_type", "client_credentials")])
    ensures Lookup([("client_id", username), ("client_secret", key), ("grant_type", "client_credentials")], "client_id")
         == Some(username)
    ensures Lookup([("client_id", username), ("client_secret", key), ("grant_type", "client_credentials")], "client_secret")
         == Some(key)
    ensures Lookup([("client_id", username), ("client_secret", key), ("grant_type", "client_credentials")], "grant_type")
         == Some("client_credentials")
  {
    var items := [("client_id", username), ("client_secret", key), ("grant_type", "client_credentials")];
    assert items[1..] == [("client_secret", key), ("grant_type", "client_credentials")];
    assert items[1..][1..] == [("grant_type", "client_credentials")];
    assert "client_id" != "grant_type" && "client_secret" != "grant_type" && "client_id" != "client_secret";
    ClientIdVerbatim();
    ClientSecretVerbatim();
    GrantTypeVerbatim();
    ClientCredentialsVerbatim();
    assert Lookup(items[1..][1..], "grant_type") == Some("client_credentials");
    assert Lookup(items[1..], "grant_type") == Some("client_credentials");
  }

  /**
   * A client-credentials grant (section 4.4 of RFC 6749) presents the given
   * client id and secret and asks for grant type `client_credentials`, as
   * long as id and secret are written verbatim.
   */
  lemma GuestGrant(username: string, key: string, lang: string)
    requires Verbatim(username) && Verbatim(key)
    ensures Lookup(UrlItems(Path(Guest(username, key), lang)), "grant_type") == Some("client_credentials")
    ensures Lookup(UrlItems(Path(Guest(username, key), lang)), "client_id") == Some(username)
    ensures Lookup(UrlItems(Path(Guest(username, key), lang)), "client_secret") == Some(key)
  {
    GuestItems(username, key);
    PathCarriesQuery(Guest(username, key), lang);
  }

  // ---------------------------------------------------------------------------
  // Where the path as written departs from what it is meant to say

  /**
   * A password holding `&` reaches the server cut short at the `&`, while
   * the corrected path delivers it whole.
   */
  lemma PasswordCutAtAmpersand(username: string, kept: string, lost: string, lang: string)
    requires Verbatim(username) && Verbatim(kept)
    ensures Lookup(UrlItems(Path(Login(username, kept + "&" + lost), lang)), "password") == Some(kept)
    ensures Lookup(UrlItems(CorrectedPath(Login(username, kept + "&" + lost), lang)), "password")
         == Some(kept + "&" + lost)
  {
    var password := kept + "&" + lost;
    var first := AppClient + [("grant_type", "password"), ("username", username), ("password", kept)];
    PathWithCutPassword(username, kept, lost, lang);
    PasswordItems(username, kept);
    TokenEndpointPlain();
    LookupInFirst(TokenEndpoint, first, lost, "password");
    assert Lookup(IntendedQuery(Login(username, password), lang), "password") == Some(password) by {
      PasswordItems(username, password);
    }
  }

  /** The path of a password grant whose password holds `&`, read as a query whose last item ends at that `&`. */
  lemma PathWithCutPassword(username: string, kept: string, lost: string, lang: string)
    ensures Path(Login(username, kept + "&" + lost), lang)
         == TokenEndpoint + "?" + Render(AppClient + [("grant_type", "password"), ("username", username), ("password", kept)])
            + "&" + lost
  {
    var password := kept + "&" + lost;
    var lead := AppClient + [("grant_type", "password"), ("username", username)];
    var cut := ("password", kept);
    var start := TokenEndpoint + "?";
    assert lead + [cut] == AppClient + [("grant_type", "password"), ("username", username), cut];
    calc {
      Path(Login(username, password), lang);
      { LoginPathSplit(username, password, lang); }
      start + Render(lead) + "&" + Render([("password", password)]);
      { assert Render([("password", password)]) == ItemText(cut) + "&" + lost; }
      start + Render(lead) + "&" + (ItemText(cut) + "&" + lost);
      { JoinRegroup(start + Render(lead), ItemText(cut), lost); }
      start + Render(lead) + "&" + ItemText(cut) + "&" + lost;
      { JoinRegroup(start, Render(lead), ItemText(cut));
        RenderSnoc(lead, cut); }
      start + Render(lead + [cut]) + "&" + lost;
    }
  }

  /** Joining with `&` regroups freely. */
  lemma JoinRegroup(head: string, middle: string, tail: string)
    ensures head + middle + "&" + tail == head + (middle + "&" + tail)
  {
  }

  /** The path of a password grant, read as its leading items, then `&`, then the password item. */
  lemma LoginPathSplit(username: string, password: string, lang: string)
    ensures Path(Login(username, password), lang)
         == TokenEndpoint + "?" + Render(AppClient + [("grant_type", "password"), ("username", username)])
            + "&" + Render([("password", password)])
  {
    var lead := AppClient + [("grant_type", "password"), ("username", username)];
    var last := [("password", password)];
    assert IntendedQuery(Login(username, password), lang) == lead + last;
    LoginPieces(username, password, lang);
    InterpolateQuerySplit(TokenEndpoint, lead, last);
  }

  /** The items of a password grant are verbatim when username and password are, and name the password last. */
  lemma PasswordItems(username: string, password: string)
    ensures Verbatim(username) && Verbatim(password) ==>
      ItemsVerbatim(AppClient + [("grant_type", "password"), ("username", username), ("password", password)])
    ensures Lookup(AppClient + [("grant_type", "password"), ("username", username), ("password", password)], "password")
         == Some(password)
  {
    var head := AppClient + [("grant_type", "password")];
    var tail := [("username", username), ("password", password)];
    assert head + tail == AppClient + [("grant_type", "password"), ("username", username), ("password", password)];
    PasswordGrantVerbatim();
    AppGrantItems("password");
    assert "client_id" != "password" && "client_secret" != "password" && "grant_type" != "password";
    assert Lookup(head, "password") == None;
    assert "username" != "password";
    assert Lookup(tail[1..], "password") == Some(password);
    LookupSkip(head, tail, "password");
    if Verbatim(username) && Verbatim(password) {
      UserNamesVerbatim();
      ItemsVerbatimJoin(head, tail);
    }
  }

  lemma {:induction false} RenderSnoc(items: seq<QueryItem>, item: QueryItem)
    requires items != []
    ensures Render(items + [item]) == Render(items) + "&" + ItemText(item)
    decreases |items|
  {
    if |items| == 1 {
      assert items + [item] == [items[0], item];
    } else {
      assert (items + [item])[1..] == items[1..] + [item];
      RenderSnoc(items[1..], item);
    }
  }

  /** `DeleteProfilePicture` joins the language with `&` but no `?`, so no query reaches the server. */
  lemma DeleteProfilePictureDropsLanguage(lang: string)
    requires '?' !in lang
    ensures UrlItems(Path(DeleteProfilePicture, lang)) == []
    ensures Lookup(UrlItems(CorrectedPath(DeleteProfilePicture, lang)), "lang") == Some(lang)
  {
    var endpoint := "occ/v2/aldawaa/users/current/avatar";
    var tail := "&lang=" + lang;
    assert Path(DeleteProfilePicture, lang) == endpoint + tail by {
      assert Interpolate([endpoint, tail]) == endpoint + Interpolate([tail]);
      assert Interpolate([tail]) == tail + Interpolate([]);
    }
    AvatarPlain();
    assert '?' !in tail;
  }
}
