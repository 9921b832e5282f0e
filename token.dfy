/** Access and refresh tokens (auth/token.rs): their claims, their lifetimes,
    and the issue of a fresh access token from a valid refresh token. */
module Token {
  import opened Wrappers
  import opened Jwt

  /** The role vocabulary of access tokens; it has Public instead of Author. */
  datatype AccessTokenClaimsRole = SuperAdmin | Admin | User | Public

  datatype AccessTokenClaims = AccessTokenClaims(sub: string, exp: nat, role: AccessTokenClaimsRole)
  datatype RefreshTokenClaims = RefreshTokenClaims(sub: string, exp: nat)

  /** Fifteen minutes, in seconds. */
  const AccessTokenLifetime: nat := 15 * 60

  /** Seven days, in seconds. */
  const RefreshTokenLifetime: nat := 7 * 24 * 60 * 60

  /** The last second the calendar can represent (262143-12-31T23:59:59Z);
      adding past it makes `checked_add_signed` fail. */
  const MaxTimestamp: nat := 8210298412799

  /** `AccessTokenClaims::new` at time `now`. */
  function NewAccessTokenClaims(userId: string, role: AccessTokenClaimsRole, now: nat): (c: AccessTokenClaims)
    requires now + AccessTokenLifetime <= MaxTimestamp
    ensures c.sub == userId && c.role == role && c.exp == now + 900
  {
    AccessTokenClaims(userId, now + AccessTokenLifetime, role)
  }

  /** `RefreshTokenClaims::new` at time `now`. */
  function NewRefreshTokenClaims(userId: string, now: nat): (c: RefreshTokenClaims)
    requires now + RefreshTokenLifetime <= MaxTimestamp
    ensures c.sub == userId && c.exp == now + 604800
  {
    RefreshTokenClaims(userId, now + RefreshTokenLifetime)
  }

  /** Issued at the same moment, a refresh token outlives an access token. */
  lemma RefreshOutlivesAccess(userId: string, role: AccessTokenClaimsRole, now: nat)
    requires now + RefreshTokenLifetime <= MaxTimestamp
    ensures NewRefreshTokenClaims(userId, now).exp > NewAccessTokenClaims(userId, role, now).exp
  {
  }

  /** `generate_access_token` */
  function GenerateAccessToken(userId: string, role: AccessTokenClaimsRole, secret: Secret, now: nat,
                               encode: Encoder<AccessTokenClaims>): (r: Result<Token, JwtError>)
    requires now + AccessTokenLifetime <= MaxTimestamp
    ensures r == encode(AccessTokenClaims(userId, now + 900, role), secret)
  {
    encode(NewAccessTokenClaims(userId, role, now), secret)
  }

  /** `generate_refresh_token` */
  function GenerateRefreshToken(userId: string, secret: Secret, now: nat,
                                encode: Encoder<RefreshTokenClaims>): (r: Result<Token, JwtError>)
    requires now + RefreshTokenLifetime <= MaxTimestamp
    ensures r == encode(RefreshTokenClaims(userId, now + 604800), secret)
  {
    encode(NewRefreshTokenClaims(userId, now), secret)
  }

  /** `refresh_access_token`: a valid refresh token yields an access token
      for its subject with the role given by the caller; an invalid one
      yields its validation error. */
  function RefreshAccessToken(refreshToken: Token, secret: Secret, userRole: AccessTokenClaimsRole, now: nat,
                              validate: Decoder<RefreshTokenClaims>,
                              encode: Encoder<AccessTokenClaims>): (r: Result<Token, JwtError>)
    requires validate(refreshToken, secret).Success? ==> now + AccessTokenLifetime <= MaxTimestamp
    ensures validate(refreshToken, secret).Success? ==>
      r == encode(AccessTokenClaims(validate(refreshToken, secret).value.sub, now + 900, userRole), secret)
    ensures validate(refreshToken, secret).Failure? ==>
      r == Failure(validate(refreshToken, secret).error)
  {
    match validate(refreshToken, secret)
    case Success(claims) => GenerateAccessToken(claims.sub, userRole, secret, now, encode)
    case Failure(e) => Failure(e)
  }

  /** An invalid refresh token issues nothing: the encoder is never
      consulted, so any two encoders give the same answer. */
  lemma InvalidRefreshIssuesNothing(refreshToken: Token, secret: Secret, userRole: AccessTokenClaimsRole, now: nat,
                                    validate: Decoder<RefreshTokenClaims>,
                                    e1: Encoder<AccessTokenClaims>, e2: Encoder<AccessTokenClaims>)
    requires validate(refreshToken, secret).Failure?
    ensures RefreshAccessToken(refreshToken, secret, userRole, now, validate, e1)
         == RefreshAccessToken(refreshToken, secret, userRole, now, validate, e2)
  {
  }
}
