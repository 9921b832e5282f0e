# Authorization core of rust_task_tracker, in Dafny

This project models the authorization logic of a task-tracker REST backend
written in Rust with actix-web. The model covers:

- the JWT claims a request carries: subject, role, an optional permission set and an expiry;
- the two checks made on those claims, one on the role and one on the permissions;
- the cumulative "read ladder" of permission sets and the four role gates built on it;
- the static role/resource/action table and the middleware decision built on it;
- the mapping from errors to HTTP responses;
- the role vocabulary of user payloads;
- the lifetimes of access and refresh tokens, and how a refresh token yields a new access token.

There are one Dafny module per source file and two support modules:

| module | file | source |
|---|---|---|
| `Wrappers` | wrappers.dfy | Rust's `Option` and `Result` |
| `Jwt` | jwt.dfy | opaque tokens, secrets, errors, and encoder/decoder function types |
| `JwtClaims` | claims.dfy | src/application/utils/access_control/extractors/claims.rs |
| `AuthUseCase` | auth_usecase.dfy | src/application/utils/access_control/auth_usecase.rs |
| `Rbac` | access_control.dfy | src/application/utils/auth/access_control.rs |
| `ErrorPresenter` | error_presenter.dfy | src/adapters/api/shared/error_presenter.rs |
| `UsersPayloads` | users_payloads.dfy | src/adapters/api/users/users_payloads.rs |
| `Token` | token.dfy | src/application/utils/auth/token.rs |

The repository uses three role vocabularies. They are kept as separate datatypes:

- `JwtClaims.Role` has SuperAdmin, Admin, Author and User.
- `Rbac.Role` and `Token.AccessTokenClaimsRole` have Public instead of Author.
- `UsersPayloads.UserRolePayload` has SuperAdmin, Admin and User only.

Some inputs come from outside the core. Each one is a parameter of the operations that use it:

- The clock is a parameter `now`, in unix seconds.
- The signing secret is a parameter `secret`.
- `jsonwebtoken::encode` and `decode` are function-typed parameters (`Jwt.Encoder`, `Jwt.Decoder`). Nothing is assumed about them.
- The `Authorization` header text is a parameter.
- `Role::from_str` is a parameter of type `AuthUseCase.RoleParser`, because its definition is not part of this model.

The read ladder has a reference definition, `AuthUseCase.ReadLadder`. It is defined by recursion over the rank User < Author < Admin < SuperAdmin. Its contract says that the ladder of `r` holds `Read(scope of q)` exactly for the roles `q` at or below `r`. The imperative `all_read_down_to_*` builders are methods that insert one permission at a time. Each one is proved equal to the reference.
`define_permissions` is a method that inserts one role at a time. It is proved equal to `Rbac.Table()`, and the per-role lemmas state what that table grants.

Three points where the model follows the code rather than a stricter reading:

- `generate_token` in auth_usecase.rs falls back to `Role::User` when the role string does not parse. A stricter parser would reject unknown roles; the code falls back, and so does the model (`AuthUseCase.RoleOrUser`).
- No role promotion or demotion code exists in the repository, so none is modelled.
- Each gate names a fixed ladder set, the ladder of the lowest role it admits. The model uses the same fixed sets.

## Model

| member | source | states |
|---|---|---|
| `JwtClaims.ValidateRoles` | src/application/utils/access_control/extractors/claims.rs:46-48 | true exactly when some position of the allowed list holds the claims' role |
| `JwtClaims.ValidatePermissions` | src/application/utils/access_control/extractors/claims.rs:51-53 | false whenever the permission set is absent, whatever is required; when present, true iff every required permission is in it |
| `JwtClaims.EmptyRequirement` | src/application/utils/access_control/extractors/claims.rs:52 | with nothing required, validation succeeds iff a permission set is present |
| `JwtClaims.PermissionEquality` | src/application/utils/access_control/extractors/claims.rs:25-30 | permissions are equal only with the same variant and the same scope |
| `JwtClaims.IssueClaims` | src/application/utils/access_control/extractors/claims.rs:100-108 | issued claims keep the user id, role and permissions unchanged and expire at now + 3600, strictly after now; needs the sum to fit in 64 bits |
| `JwtClaims.GenerateToken` | src/application/utils/access_control/extractors/claims.rs:100-111 | the token is the encoder's output for exactly those claims |
| `JwtClaims.ValidateToken` | src/application/utils/access_control/extractors/claims.rs:114-119 | succeeds exactly when decoding does, with the decoded claims; a decoding error becomes `Decode` of that error |
| `JwtClaims.StripPrefix` | src/application/utils/access_control/extractors/claims.rs:131 | yields a value iff the text starts with the prefix, and then prefix + value is the text |
| `JwtClaims.BearerToken` | src/application/utils/access_control/extractors/claims.rs:127-132 | a token exists iff the header is present and starts with the exact 7 characters "Bearer "; header = "Bearer " + token |
| `JwtClaims.FromRequest` | src/application/utils/access_control/extractors/claims.rs:126-148 | without a bearer token the result is an `Authentication` error; with one, it is the validation of that token |
| `JwtClaims.BearerHeaderIsDecoded` | src/application/utils/access_control/extractors/claims.rs:127-141 | the header "Bearer " + t gives exactly t to the decoder |
| `JwtClaims.NoBearerNoDecode` | src/application/utils/access_control/extractors/claims.rs:135-146 | a missing header or a missing prefix gives the `Authentication` error for every decoder, so validation is not attempted |
| `AuthUseCase.ReadLadder` | src/application/utils/access_control/auth_usecase.rs:45-73 | `Read(scope of q)` is in the ladder of r iff q ranks at or below r; nothing but such `Read` permissions is in it |
| `AuthUseCase.LadderSize` | src/application/utils/access_control/auth_usecase.rs:45-73 | the ladders of User, Author, Admin and SuperAdmin have 1, 2, 3 and 4 permissions |
| `AuthUseCase.LadderNested` | src/application/utils/access_control/auth_usecase.rs:45-73 | the ladders are nested: user ⊆ author ⊆ admin ⊆ superadmin |
| `AuthUseCase.LadderReadsTasks` | src/application/utils/access_control/auth_usecase.rs:45-73 | every ladder permission is a `Read` whose scope ends in "-tasks" |
| `AuthUseCase.AllReadDownToSuperAdmin` | src/application/utils/access_control/auth_usecase.rs:45-52 | the four inserts build the SuperAdmin ladder |
| `AuthUseCase.AllReadDownToAdmin` | src/application/utils/access_control/auth_usecase.rs:54-60 | the three inserts build the Admin ladder |
| `AuthUseCase.AllReadDownToAuthor` | src/application/utils/access_control/auth_usecase.rs:62-67 | the two inserts build the Author ladder |
| `AuthUseCase.AllReadDownToUser` | src/application/utils/access_control/auth_usecase.rs:69-73 | the insert builds the User ladder |
| `AuthUseCase.No` | src/application/utils/access_control/auth_usecase.rs:82-85 | the empty permission set |
| `AuthUseCase.CheckRole` | src/application/utils/access_control/auth_usecase.rs:21-43 | the ladder of the parsed role, and the empty set (`no()`) when the role string does not parse |
| `AuthUseCase.RoleOrUser` | src/application/utils/access_control/auth_usecase.rs:92-95 | the parsed role, or User when parsing fails |
| `AuthUseCase.IssueClaims` | src/application/utils/access_control/auth_usecase.rs:88-101 | issued claims keep the user id and permissions, take the parsed role or User, and expire at now + expiration; needs the u64 `Duration` sum not to overflow |
| `AuthUseCase.UnparseableRoleIsUser` | src/application/utils/access_control/auth_usecase.rs:92-95 | an unparseable role string is signed as User |
| `AuthUseCase.GenerateToken` | src/application/utils/access_control/auth_usecase.rs:88-104 | the token is the encoder's output for exactly those claims |
| `AuthUseCase.Gate` | src/application/utils/access_control/auth_usecase.rs:117-130 | passes iff the role is allowed, the permission set is present, and the set contains everything required |
| `AuthUseCase.CheckPermissionUpToUser` | src/application/utils/access_control/auth_usecase.rs:117-130 | passes iff a permission set is present and holds `Read("user-tasks")`, for any role |
| `AuthUseCase.CheckPermissionUpToAuthor` | src/application/utils/access_control/auth_usecase.rs:132-145 | passes iff the role is Author or higher and the permissions are present and hold the Author ladder |
| `AuthUseCase.CheckPermissionUpToAdmin` | src/application/utils/access_control/auth_usecase.rs:147-160 | passes iff the role is Admin or higher and the permissions are present and hold the Admin ladder |
| `AuthUseCase.CheckPermissionUpToSuperAdmin` | src/application/utils/access_control/auth_usecase.rs:162-175 | passes iff the role is SuperAdmin and the permissions are present and hold the whole ladder |
| `AuthUseCase.GatesMonotone` | src/application/utils/access_control/auth_usecase.rs:117-175 | passing the superadmin gate implies passing admin, which implies author, which implies user |
| `AuthUseCase.AbsentPermissionsFailAllGates` | src/application/utils/access_control/auth_usecase.rs:124-175 | claims without a permission set fail all four gates |
| `AuthUseCase.RoleCheckIndependent` | src/application/utils/access_control/auth_usecase.rs:132-175 | a User holding the full ladder fails the author, admin and superadmin gates and passes the user gate |
| `AuthUseCase.IssuedUserClaims` | src/application/utils/access_control/auth_usecase.rs:117-175 | claims issued to a User with the User ladder pass only the user gate; claims issued with no permission set fail it |
| `Rbac.DefinePermissions` | src/application/utils/auth/access_control.rs:34-69 | the four inserts build exactly the table, keyed by all four roles |
| `Rbac.IsAuthorized` | src/application/utils/auth/access_control.rs:83-90 | true iff the table has the role, the role has the resource, and the action occurs in its list; false whenever either lookup misses |
| `Rbac.PublicReadsOnlyUsers` | src/application/utils/auth/access_control.rs:61-66 | Public is authorized iff the action is ReadAny on User; every Task action is refused |
| `Rbac.SuperAdminGrants` | src/application/utils/auth/access_control.rs:37-43 | SuperAdmin is authorized for every action except ReadOwn, on both resources |
| `Rbac.AdminGrants` | src/application/utils/auth/access_control.rs:45-51 | Admin is authorized for only ReadAny on User, and for every `*Any` action on Task |
| `Rbac.UserGrants` | src/application/utils/auth/access_control.rs:53-59 | User is authorized for only ReadOwn on User, and for ReadOwn, CreateAny and UpdateAny on Task; ReadAny and DeleteAny on Task are refused |
| `Rbac.Call` | src/application/utils/auth/access_control.rs:144-161 | the request is forwarded iff it is authorized under the attached role, or Public if none is attached; otherwise the answer is 401 "Insufficient permissions" |
| `Rbac.MissingRoleIsPublic` | src/application/utils/auth/access_control.rs:146 | a request with no role is decided exactly as one with Public |
| `Rbac.AnonymousRequests` | src/application/utils/auth/access_control.rs:146-160 | with the defined table, a request with no role is forwarded iff it reads any user; every Task request is answered 401 |
| `ErrorPresenter.StatusCodeOf` | src/adapters/api/shared/error_presenter.rs:33-35 | the status is the response's own code |
| `ErrorPresenter.RenderErrorResponse` | src/adapters/api/shared/error_presenter.rs:37-45 | the response status is `status_code()`, the body's code equals it, the message is kept and no data is sent |
| `ErrorPresenter.MapIoError` | src/adapters/api/shared/error_presenter.rs:49-77 | codes 400, 401, 403 and 404 keep their status and message; any other code gives 500 with "Error: an unknown error occured"; data is always absent |
| `ErrorPresenter.MapIoErrorIdempotent` | src/adapters/api/shared/error_presenter.rs:49-77 | mapping a mapped error again changes nothing |
| `ErrorPresenter.MapIoErrorDefault` | src/adapters/api/shared/error_presenter.rs:79-85 | 400 with the given message unchanged |
| `ErrorPresenter.AuthDefault` | src/adapters/api/shared/error_presenter.rs:87-93 | 401 with "Permission denied" |
| `ErrorPresenter.ClientErrorStatus` | src/adapters/api/shared/error_presenter.rs:122-124 | every `ClientError` has status 401 |
| `ErrorPresenter.ClientErrorResponse` | src/adapters/api/shared/error_presenter.rs:96-120 | a 401 whose body repeats the status; Decode and UnsupportedAlgortithm say "Bad credentials", Authentication says "Requires authentication", NotFound passes its message through |
| `ErrorPresenter.ExtractorFailuresAre401` | src/adapters/api/shared/error_presenter.rs:96-124 | a request the extractor refuses is answered 401: "Requires authentication" without a bearer token, "Bad credentials" otherwise |
| `UsersPayloads.DefaultRole` | src/adapters/api/users/users_payloads.rs:14-18 | the default role is User |
| `UsersPayloads.Display` | src/adapters/api/users/users_payloads.rs:20-28 | SuperAdmin renders as "super_admin", Admin as "admin", User as "user" |
| `UsersPayloads.DisplayInjective` | src/adapters/api/users/users_payloads.rs:22-26 | distinct roles render differently |
| `UsersPayloads.NewUserRegisterPayload` | src/adapters/api/users/users_payloads.rs:39-51 | all four arguments are stored unchanged |
| `UsersPayloads.NewUserLoginPayload` | src/adapters/api/users/users_payloads.rs:61-69 | both credentials are stored unchanged |
| `UsersPayloads.NewUserUpdatePayload` | src/adapters/api/users/users_payloads.rs:83-98 | the user id and every optional field are stored unchanged |
| `Token.NewAccessTokenClaims` | src/application/utils/auth/token.rs:22-33 | subject and role are the arguments and the expiry is now + 900; needs the date to stay within the calendar |
| `Token.NewRefreshTokenClaims` | src/application/utils/auth/token.rs:43-50 | subject is the argument and the expiry is now + 604800 (7 days) |
| `Token.RefreshOutlivesAccess` | src/application/utils/auth/token.rs:22-50 | for the same now, a refresh token expires strictly later than an access token |
| `Token.GenerateAccessToken` | src/application/utils/auth/token.rs:53-56 | the token is the encoder's output for the access claims issued at now |
| `Token.GenerateRefreshToken` | src/application/utils/auth/token.rs:58-61 | the token is the encoder's output for the refresh claims issued at now |
| `Token.RefreshAccessToken` | src/application/utils/auth/token.rs:75-83 | a valid refresh token yields the encoding of access claims with the refresh subject and the caller's role; an invalid one yields its validation error, for any clock |
| `Token.InvalidRefreshIssuesNothing` | src/application/utils/auth/token.rs:75-83 | on an invalid refresh token the result is the same for every encoder: nothing is issued |

## Left out

- JWT signing and verification (`jsonwebtoken::encode`/`decode`, HS256 validation, the expiry check) belong to a library. They are opaque function parameters, and no round-trip or expiry property is claimed for them. For the same reason, `validate_access_token` and `validate_refresh_token` in token.rs are the decoder parameter itself.
- `Role::from_str` is not part of this model. It is a parameter, and no string table is assumed.
- The clock (`SystemTime::now`, `Utc::now`) and `JWT_SECRET` from the environment are parameters. A clock before 1970 is not modelled: `now` is a `nat`. So the wrap of chrono's negative `timestamp() as usize` is left out.
- `JwtClaims.IssueClaims`: `as_secs() + 3600` is a plain u64 addition. It panics on overflow in a build with overflow checks and wraps to an expiry in the past in a release build. The precondition (sum under 2^64) excludes both cases, so the wrapped expiry is not modelled.
- `AuthUseCase.IssueClaims`: the expiry is a `Duration + Duration`, which panics when the u64 seconds overflow. The precondition keeps the sum under 2^64.
- `Token.NewAccessTokenClaims` and `Token.NewRefreshTokenClaims`: `checked_add_signed(...).expect` panics past chrono's last timestamp, 8210298412799. The precondition keeps the expiry at or below it. `Token.RefreshAccessToken` needs this only when the refresh token is valid, because only then is the clock read.
- `usize` is taken to be 64 bits wide, so the casts `expiration as usize` (claims.rs:107), `expiration as u64` (auth_usecase.rs:90) and `as_secs() as usize` (auth_usecase.rs:100) never truncate. The truncation on a 32-bit target is not modelled.
- `HeaderValue::to_str`: the header parameter is the header's text, and None covers both a missing header and one that is not valid text.
- The actix plumbing is left out: futures, the `Transform`/`Service` wiring (`GrantAccessMiddleware::new`, `new_transform`, `AccessControl::new`), and building the `HttpResponse`. Only the decisions are modelled.
- The gates return `ErrorResponse::default()`, which the repository's code never defines. The model's denial is the payload-free `AuthUseCase.Denied`.
- Duplicates are modelled once. `FromRequest` for `Claims` and `validate_token` are modelled from claims.rs; auth_usecase.rs:107-113 and 179-204 repeat them with the secret read inside. `ClientError`'s response is modelled from error_presenter.rs. The differing claims.rs:68-92 version, with `error` and `error_description` fields, is left out.
- The `Display` of `ErrorResponse` is debug formatting and is left out.
- The `println!` logging in `check_role` and the gates is output only.
- The ApiError type (domain/error.rs) is not part of this model. Only its code and its message are used.
