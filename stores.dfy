/**
 * The two persisted key-value stores behind the authenticator's properties:
 * the user-defaults store, holding the session, profile, account kind and
 * provider kind as typed records, and the keychain, holding the access and
 * refresh tokens under one account. Every property setter saves its value,
 * or deletes the entry when given `nil`; every getter reads the entry back
 * and yields `nil` when it is missing or holds a record of another type.
 */
module Stores {
  import opened Wrappers
  import opened Session

  /** The user-defaults keys of the authentication records. */
  datatype DefaultsKey = SessionKey | ProfileKey | UserTypeKey | LoginProviderKey

  /** A decoded user-defaults record. */
  datatype StoredValue =
    | SessionRecord(session: UserSessionData)
    | ProfileRecord(profile: UserProfileData)
    | UserTypeRecord(userType: UserType)
    | ProviderRecord(kind: LoginProviderType)

  type Defaults = map<DefaultsKey, StoredValue>

  /** The keychain services of the two tokens; both live under the same account. */
  datatype TokenService = AccessTokenService | RefreshTokenService

  type Keychain = map<TokenService, string>

  /** A setter: save `v` under `k`, or delete `k` when `v` is `nil`. Other keys keep their entries. */
  function Saved<K(!new), V>(m: map<K, V>, k: K, v: Option<V>): (r: map<K, V>)
    ensures v.Some? ==> k in r && r[k] == v.value
    ensures v.None? ==> k !in r
    ensures forall j :: j != k ==> (j in r <==> j in m)
    ensures forall j :: j != k && j in m ==> r[j] == m[j]
  {
    match v
    case Some(x) => m[k := x]
    case None => m - {k}
  }

  // ---------------------------------------------------------------------------
  // Typed getters

  function ReadSession(d: Defaults): Option<UserSessionData> {
    if SessionKey in d && d[SessionKey].SessionRecord? then Some(d[SessionKey].session) else None
  }

  function ReadProfile(d: Defaults): Option<UserProfileData> {
    if ProfileKey in d && d[ProfileKey].ProfileRecord? then Some(d[ProfileKey].profile) else None
  }

  function ReadUserType(d: Defaults): Option<UserType> {
    if UserTypeKey in d && d[UserTypeKey].UserTypeRecord? then Some(d[UserTypeKey].userType) else None
  }

  function ReadProviderKind(d: Defaults): Option<LoginProviderType> {
    if LoginProviderKey in d && d[LoginProviderKey].ProviderRecord? then Some(d[LoginProviderKey].kind) else None
  }

  function ReadToken(k: Keychain, service: TokenService): Option<string> {
    if service in k then Some(k[service]) else None
  }

  // ---------------------------------------------------------------------------
  // Typed setters

  function WriteSession(d: Defaults, v: Option<UserSessionData>): (r: Defaults)
    ensures ReadSession(r) == v
    ensures ReadProfile(r) == ReadProfile(d) && ReadUserType(r) == ReadUserType(d)
    ensures ReadProviderKind(r) == ReadProviderKind(d)
  {
    Saved(d, SessionKey, if v.Some? then Some(SessionRecord(v.value)) else None)
  }

  function WriteProfile(d: Defaults, v: Option<UserProfileData>): (r: Defaults)
    ensures ReadProfile(r) == v
    ensures ReadSession(r) == ReadSession(d) && ReadUserType(r) == ReadUserType(d)
    ensures ReadProviderKind(r) == ReadProviderKind(d)
  {
    Saved(d, ProfileKey, if v.Some? then Some(ProfileRecord(v.value)) else None)
  }

  function WriteUserType(d: Defaults, v: Option<UserType>): (r: Defaults)
    ensures ReadUserType(r) == v
    ensures ReadSession(r) == ReadSession(d) && ReadProfile(r) == ReadProfile(d)
    ensures ReadProviderKind(r) == ReadProviderKind(d)
  {
    Saved(d, UserTypeKey, if v.Some? then Some(UserTypeRecord(v.value)) else None)
  }

  function WriteProviderKind(d: Defaults, v: Option<LoginProviderType>): (r: Defaults)
    ensures ReadProviderKind(r) == v
    ensures ReadSession(r) == ReadSession(d) && ReadProfile(r) == ReadProfile(d)
    ensures ReadUserType(r) == ReadUserType(d)
  {
    Saved(d, LoginProviderKey, if v.Some? then Some(ProviderRecord(v.value)) else None)
  }

  function WriteToken(k: Keychain, service: TokenService, v: Option<string>): (r: Keychain)
    ensures ReadToken(r, service) == v
    ensures forall other :: other != service ==> ReadToken(r, other) == ReadToken(k, other)
  {
    Saved(k, service, v)
  }

  // ---------------------------------------------------------------------------
  // Properties of the stores

  /** Deleting all four records empties the user-defaults store, whatever it held. */
  lemma DeletingAllRecordsEmpties(d: Defaults)
    ensures WriteProviderKind(WriteUserType(WriteProfile(WriteSession(d, None), None), None), None) == map[]
  {
    var r := WriteProviderKind(WriteUserType(WriteProfile(WriteSession(d, None), None), None), None);
    forall key | key in r ensures false {
      match key
      case SessionKey =>
      case ProfileKey =>
      case UserTypeKey =>
      case LoginProviderKey =>
    }
  }

  /** Deleting both tokens empties the keychain, whatever it held. */
  lemma DeletingBothTokensEmpties(k: Keychain)
    ensures WriteToken(WriteToken(k, AccessTokenService, None), RefreshTokenService, None) == map[]
  {
    var r := WriteToken(WriteToken(k, AccessTokenService, None), RefreshTokenService, None);
    forall service | service in r ensures false {
      match service
      case AccessTokenService =>
      case RefreshTokenService =>
    }
  }
}
