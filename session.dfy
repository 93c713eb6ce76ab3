/**
 * The values the authenticator keeps and publishes: the session returned by
 * every successful authentication call, the cached profile, the account
 * kind, the kind of external login provider, and the published
 * authentication state.
 */
module Session {
  import opened Wrappers

  /**
   * Tokens and the raw identity payload of a successful authentication.
   * Both tokens are optional, as the keychain properties they are copied
   * into are.
   */
  datatype UserSessionData = UserSessionData(accessToken: Option<string>, refreshToken: Option<string>, payload: string)

  /** The user profile payload, cached beside the session. */
  datatype UserProfileData = UserProfileData(payload: string)

  /** The account kind: signed in with credentials or a provider, or an anonymous guest. */
  datatype UserType = SignedInUser | GuestUser

  /** How the user signed in: with a password, or through one of four external providers. */
  datatype LoginProviderType = Password | Google | Facebook | Twitter | Apple

  /** The published state: no usable session, a guest session, or a signed-in session. */
  datatype AuthState = Empty | Client(session: UserSessionData) | SignedIn(session: UserSessionData)

  /** A transport failure; its payload is opaque to the authenticator. */
  datatype NetworkError = NetworkError(description: string)

  /** A failure reported by an external identity provider. */
  datatype ProviderError = ProviderError(description: string)

  /** The state a committed login of kind `userType` publishes. */
  function StateFor(session: UserSessionData, userType: UserType): (s: AuthState)
    ensures s.Client? <==> userType == GuestUser
    ensures s.SignedIn? <==> userType == SignedInUser
    ensures !s.Empty? && s.session == session
  {
    match userType
    case GuestUser => Client(session)
    case SignedInUser => SignedIn(session)
  }
}
