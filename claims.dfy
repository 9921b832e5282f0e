/** The JWT claims carried by a request and the checks made on them
    (extractors/claims.rs): the role and permission vocabulary, the two
    validation predicates, claim issuance with a one-hour lifetime, and the
    extraction of a bearer token from the `Authorization` header. */
module JwtClaims {
  import opened Wrappers
  import opened Jwt

  /** The role vocabulary of the claims; this one includes Author. */
  datatype Role = SuperAdmin | Admin | Author | User

  /** A capability on a resource class; equality is structural. */
  datatype Permission = Read(scope: string) | Write(scope: string) | Delete(scope: string)

  /** The authenticated principal: subject (user id), role, optional
      permission set and expiry (unix seconds). */
  datatype Claims = Claims(sub: string, role: Role, permissions: Option<set<Permission>>, exp: nat)

  /** The lifetime, in seconds, of a token issued by `GenerateToken`. */
  const TokenLifetime: nat := 3600

  /** The expiry is computed in 64-bit unsigned seconds. */
  const SecondsLimit: nat := 0x1_0000_0000_0000_0000

  /** `validate_roles`: the role occurs in the allowed list. */
  function ValidateRoles(claims: Claims, allowed: seq<Role>): (r: bool)
    ensures r <==> exists i :: 0 <= i < |allowed| && allowed[i] == claims.role
  {
    claims.role in allowed
  }

  /** `validate_permissions`: an absent permission set never validates; a
      present one validates when it holds every required permission. */
  function ValidatePermissions(claims: Claims, required: set<Permission>): (r: bool)
    ensures claims.permissions.None? ==> !r
    ensures claims.permissions.Some? ==>
      (r <==> forall p :: p in required ==> p in claims.permissions.value)
  {
    match claims.permissions
    case None => false
    case Some(granted) => required <= granted
  }

  /** With nothing required, only the presence of a permission set matters. */
  lemma EmptyRequirement(claims: Claims)
    ensures ValidatePermissions(claims, {}) <==> claims.permissions.Some?
  {
  }

  /** Permissions compare by variant and scope. */
  lemma PermissionEquality(s: string, t: string)
    ensures Read(s) != Write(s) && Read(s) != Delete(s) && Write(s) != Delete(s)
    ensures Read(s) == Read(t) <==> s == t
    ensures Write(s) == Write(t) <==> s == t
    ensures Delete(s) == Delete(t) <==> s == t
  {
  }

  /** The claims `generate_token` signs, issued at `now`. */
  function IssueClaims(userId: string, role: Role, permissions: Option<set<Permission>>, now: nat): (c: Claims)
    requires now + TokenLifetime < SecondsLimit
    ensures c.sub == userId && c.role == role && c.permissions == permissions
    ensures c.exp == now + 3600 && c.exp > now
  {
    Claims(userId, role, permissions, now + TokenLifetime)
  }

  /** `generate_token`: signs the claims issued at `now`. */
  function GenerateToken(secret: Secret, userId: string, role: Role, permissions: Option<set<Permission>>,
                         now: nat, encode: Encoder<Claims>): (r: Result<Token, JwtError>)
    requires now + TokenLifetime < SecondsLimit
    ensures r == encode(Claims(userId, role, permissions, now + 3600), secret)
  {
    var c := IssueClaims(userId, role, permissions, now);
    encode(c, secret)
  }

  /** The authentication failures of the extractor. */
  datatype AlgorithmParameters = AlgorithmParameters(description: string)
  datatype ClientError =
    | Authentication
    | Decode(cause: JwtError)
    | NotFound(message: string)
    | UnsupportedAlgortithm(algorithm: AlgorithmParameters)

  /** `validate_token`: decoding failures become `Decode`. */
  function ValidateToken(token: Token, secret: Secret, decode: Decoder<Claims>): (r: Result<Claims, ClientError>)
    ensures r.Success? <==> decode(token, secret).Success?
    ensures r.Success? ==> r.value == decode(token, secret).value
    ensures r.Failure? ==> r.error == Decode(decode(token, secret).error)
  {
    match decode(token, secret)
    case Success(claims) => Success(claims)
    case Failure(e) => Failure(Decode(e))
  }

  const BearerPrefix: string := "Bearer "

  /** `str::strip_prefix`. */
  function StripPrefix(s: string, prefix: string): (r: Option<string>)
    ensures r.Some? <==> |prefix| <= |s| && s[..|prefix|] == prefix
    ensures r.Some? ==> s == prefix + r.value
  {
    if |prefix| <= |s| && s[..|prefix|] == prefix then
      assert s == prefix + s[|prefix|..];
      Some(s[|prefix|..])
    else
      None
  }

  /** The token in an `Authorization` header value: the text after the exact
      prefix "Bearer ". `header` is the header as text, None when the header
      is absent or is not valid text. */
  function BearerToken(header: Option<string>): (r: Option<Token>)
    ensures r.Some? <==> header.Some? && |header.value| >= 7 && header.value[..7] == "Bearer "
    ensures r.Some? ==> header.value == "Bearer " + r.value
  {
    match header
    case None => None
    case Some(h) => StripPrefix(h, BearerPrefix)
  }

  /** `from_request`: a request without a bearer token fails with
      `Authentication`; otherwise the token is validated. */
  function FromRequest(header: Option<string>, secret: Secret, decode: Decoder<Claims>): (r: Result<Claims, ClientError>)
    ensures BearerToken(header).None? ==> r == Failure(Authentication)
    ensures BearerToken(header).Some? ==> r == ValidateToken(BearerToken(header).value, secret, decode)
  {
    match BearerToken(header)
    case None => Failure(Authentication)
    case Some(token) => ValidateToken(token, secret, decode)
  }

  /** A well-formed header hands exactly its token to the decoder. */
  lemma {:induction false} BearerHeaderIsDecoded(token: Token, secret: Secret, decode: Decoder<Claims>)
    ensures BearerToken(Some("Bearer " + token)) == Some(token)
    ensures FromRequest(Some("Bearer " + token), secret, decode) == ValidateToken(token, secret, decode)
  {
    var h := "Bearer " + token;
    assert h[..7] == "Bearer ";
    assert h[7..] == token;
  }

  /** Without a bearer token the decoder is never consulted: the outcome is the
      same whatever decoder is supplied. */
  lemma NoBearerNoDecode(header: Option<string>, secret: Secret, d1: Decoder<Claims>, d2: Decoder<Claims>)
    requires header.None? || |header.value| < 7 || header.value[..7] != "Bearer "
    ensures FromRequest(header, secret, d1) == FromRequest(header, secret, d2) == Failure(Authentication)
  {
  }
}
