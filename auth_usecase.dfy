/** The permission-check use case (access_control/auth_usecase.rs): the
    cumulative read ladder of permission sets, the role-to-permissions lookup,
    token issuance with a caller-chosen lifetime, and the four role gates. */
module AuthUseCase {
  import opened Wrappers
  import opened Jwt
  import opened JwtClaims

  /** `Role::from_str`, whose definition is not part of this model: every
      operation that parses a role takes the parser as a parameter. */
  type RoleParser = string -> Option<Role>

  /** Position on the privilege ladder User < Author < Admin < SuperAdmin. */
  function Rank(r: Role): (n: nat)
    ensures 1 <= n <= 4
  {
    match r
    case User => 1
    case Author => 2
    case Admin => 3
    case SuperAdmin => 4
  }

  /** The role one step down the ladder. */
  function Below(r: Role): (b: Role)
    requires r != User
    ensures Rank(b) == Rank(r) - 1
  {
    match r
    case SuperAdmin => Admin
    case Admin => Author
    case Author => User
  }

  /** The resource scope read by each rung of the ladder. */
  function Scope(r: Role): string
  {
    match r
    case SuperAdmin => "superadmin-tasks"
    case Admin => "admin-tasks"
    case Author => "author-tasks"
    case User => "user-tasks"
  }

  predicate IsLadderScope(s: string)
  {
    s == Scope(SuperAdmin) || s == Scope(Admin) || s == Scope(Author) || s == Scope(User)
  }

  predicate IsTasksScope(s: string)
  {
    |s| >= 6 && s[|s| - 6..] == "-tasks"
  }

  /** Reference definition of the read ladder: the role's own `Read` scope
      together with the ladder of the role beneath it. */
  function ReadLadder(r: Role): (s: set<Permission>)
    ensures forall q :: Read(Scope(q)) in s <==> Rank(q) <= Rank(r)
    ensures forall p :: p in s ==> p.Read? && IsLadderScope(p.scope)
    decreases Rank(r)
  {
    if r == User then {Read(Scope(User))}
    else {Read(Scope(r))} + ReadLadder(Below(r))
  }

  /** The ladder of a role holds one permission per rung at or below it:
      sizes 1, 2, 3 and 4. */
  lemma {:induction false} LadderSize(r: Role)
    ensures |ReadLadder(r)| == Rank(r)
    decreases Rank(r)
  {
    if r != User {
      LadderSize(Below(r));
      var own := Read(Scope(r));
      assert own !in ReadLadder(Below(r));
      assert ReadLadder(r) == {own} + ReadLadder(Below(r));
    }
  }

  /** The ladder is nested: a higher role's set contains a lower role's. */
  lemma LadderNested(lo: Role, hi: Role)
    requires Rank(lo) <= Rank(hi)
    ensures ReadLadder(lo) <= ReadLadder(hi)
  {
    forall p | p in ReadLadder(lo) ensures p in ReadLadder(hi) {
      assert IsLadderScope(p.scope);
    }
  }

  /** Every permission of the ladder is a `Read` of a "*-tasks" scope. */
  lemma LadderReadsTasks(r: Role)
    ensures forall p :: p in ReadLadder(r) ==> p.Read? && IsTasksScope(p.scope)
  {
  }

  /** `all_read_down_to_superadmin` */
  method AllReadDownToSuperAdmin() returns (permissions: set<Permission>)
    ensures permissions == ReadLadder(SuperAdmin)
  {
    permissions := {};
    permissions := permissions + {Read("superadmin-tasks")};
    permissions := permissions + {Read("admin-tasks")};
    permissions := permissions + {Read("author-tasks")};
    permissions := permissions + {Read("user-tasks")};
  }

  /** `all_read_down_to_admin` */
  method AllReadDownToAdmin() returns (permissions: set<Permission>)
    ensures permissions == ReadLadder(Admin)
  {
    permissions := {};
    permissions := permissions + {Read("admin-tasks")};
    permissions := permissions + {Read("author-tasks")};
    permissions := permissions + {Read("user-tasks")};
  }

  /** `all_read_down_to_author` */
  method AllReadDownToAuthor() returns (permissions: set<Permission>)
    ensures permissions == ReadLadder(Author)
  {
    permissions := {};
    permissions := permissions + {Read("author-tasks")};
    permissions := permissions + {Read("user-tasks")};
  }

  /** `all_read_down_to_user` */
  method AllReadDownToUser() returns (permissions: set<Permission>)
    ensures permissions == ReadLadder(User)
  {
    permissions := {};
    permissions := permissions + {Read("user-tasks")};
  }

  /** `no`: the empty permission set. */
  function No(): (r: set<Permission>)
    ensures r == {}
  {
    {}
  }

  /** `check_role`: the ladder of the parsed role, and nothing when the role
      string does not parse. */
  method CheckRole(role: string, fromStr: RoleParser) returns (permissions: set<Permission>)
    ensures fromStr(role).None? ==> permissions == {}
    ensures fromStr(role).Some? ==> permissions == ReadLadder(fromStr(role).value)
  {
    permissions := No();
    match fromStr(role) {
      case Some(SuperAdmin) =>
        permissions := AllReadDownToSuperAdmin();
      case Some(Admin) =>
        permissions := AllReadDownToAdmin();
      case Some(Author) =>
        permissions := AllReadDownToAuthor();
      case Some(User) =>
        permissions := AllReadDownToUser();
      case None =>
    }
  }

  /** The expiry is the sum of two `Duration`s, whose seconds are u64;
      a sum past that panics. */
  const InstantLimit: nat := 0x1_0000_0000_0000_0000

  /** `expiration` is a `usize`, taken to be 64 bits wide. */
  const UsizeLimit: nat := 0x1_0000_0000_0000_0000

  /** The role `generate_token` signs: the parsed role, or User when the
      string does not parse. */
  function RoleOrUser(roleStr: string, fromStr: RoleParser): (r: Role)
    ensures fromStr(roleStr).Some? ==> r == fromStr(roleStr).value
    ensures fromStr(roleStr).None? ==> r == User
  {
    match fromStr(roleStr)
    case Some(role) => role
    case None => User
  }

  /** The claims `generate_token` signs, issued at `now` for `expiration`
      seconds. */
  function IssueClaims(userId: string, roleStr: string, expiration: nat, permissions: Option<set<Permission>>,
                       now: nat, fromStr: RoleParser): (c: Claims)
    requires expiration < UsizeLimit && now + expiration < InstantLimit
    ensures c.sub == userId && c.permissions == permissions && c.exp == now + expiration
    ensures c.role == RoleOrUser(roleStr, fromStr)
  {
    Claims(userId, RoleOrUser(roleStr, fromStr), permissions, now + expiration)
  }

  /** An unparseable role string is signed as User. */
  lemma UnparseableRoleIsUser(userId: string, roleStr: string, expiration: nat,
                              permissions: Option<set<Permission>>, now: nat, fromStr: RoleParser)
    requires expiration < UsizeLimit && now + expiration < InstantLimit
    requires fromStr(roleStr).None?
    ensures IssueClaims(userId, roleStr, expiration, permissions, now, fromStr).role == User
  {
  }

  /** `generate_token` of the use case: signs the claims issued at `now`. */
  function GenerateToken(userId: string, roleStr: string, expiration: nat, permissions: Option<set<Permission>>,
                         now: nat, secret: Secret, fromStr: RoleParser, encode: Encoder<Claims>): (r: Result<Token, JwtError>)
    requires expiration < UsizeLimit && now + expiration < InstantLimit
    ensures r == encode(Claims(userId, RoleOrUser(roleStr, fromStr), permissions, now + expiration), secret)
  {
    encode(IssueClaims(userId, roleStr, expiration, permissions, now, fromStr), secret)
  }

  /** The error of a failed gate, `ErrorResponse::default()`; its contents are
      not defined by the gates. */
  datatype Denial = Denied

  /** A gate: the role must be in the allowed list, then the permission set
      must be present and hold every required permission. */
  function Gate(claims: Claims, allowed: seq<Role>, required: set<Permission>): (r: Outcome<Denial>)
    ensures r.Pass? <==> claims.role in allowed && claims.permissions.Some? && required <= claims.permissions.value
  {
    if !ValidateRoles(claims, allowed) then Fail(Denied)
    else if !ValidatePermissions(claims, required) then Fail(Denied)
    else Pass
  }

  /** `check_permission_up_to_user`: every role, with the User ladder. */
  function CheckPermissionUpToUser(claims: Claims): (r: Outcome<Denial>)
    ensures r.Pass? <==> claims.permissions.Some? && Read("user-tasks") in claims.permissions.value
  {
    assert ReadLadder(User) == {Read("user-tasks")};
    assert claims.role == SuperAdmin || claims.role == Admin || claims.role == Author || claims.role == User;
    Gate(claims, [SuperAdmin, Admin, Author, User], ReadLadder(User))
  }

  /** `check_permission_up_to_author`: Author and above, with the Author ladder. */
  function CheckPermissionUpToAuthor(claims: Claims): (r: Outcome<Denial>)
    ensures r.Pass? <==> Rank(claims.role) >= Rank(Author) && claims.permissions.Some?
                         && ReadLadder(Author) <= claims.permissions.value
  {
    Gate(claims, [SuperAdmin, Admin, Author], ReadLadder(Author))
  }

  /** `check_permission_up_to_admin`: Admin and above, with the Admin ladder. */
  function CheckPermissionUpToAdmin(claims: Claims): (r: Outcome<Denial>)
    ensures r.Pass? <==> Rank(claims.role) >= Rank(Admin) && claims.permissions.Some?
                         && ReadLadder(Admin) <= claims.permissions.value
  {
    Gate(claims, [SuperAdmin, Admin], ReadLadder(Admin))
  }

  /** `check_permission_up_to_superadmin`: SuperAdmin only, with the full ladder. */
  function CheckPermissionUpToSuperAdmin(claims: Claims): (r: Outcome<Denial>)
    ensures r.Pass? <==> claims.role == SuperAdmin && claims.permissions.Some?
                         && ReadLadder(SuperAdmin) <= claims.permissions.value
  {
    Gate(claims, [SuperAdmin], ReadLadder(SuperAdmin))
  }

  /** The gates are monotone: each one passed implies every lower one passes. */
  lemma GatesMonotone(claims: Claims)
    ensures CheckPermissionUpToSuperAdmin(claims).Pass? ==> CheckPermissionUpToAdmin(claims).Pass?
    ensures CheckPermissionUpToAdmin(claims).Pass? ==> CheckPermissionUpToAuthor(claims).Pass?
    ensures CheckPermissionUpToAuthor(claims).Pass? ==> CheckPermissionUpToUser(claims).Pass?
  {
    LadderNested(Admin, SuperAdmin);
    LadderNested(Author, Admin);
    LadderNested(User, Author);
  }

  /** Claims without a permission set fail every gate, whatever their role. */
  lemma AbsentPermissionsFailAllGates(claims: Claims)
    requires claims.permissions.None?
    ensures CheckPermissionUpToUser(claims).Fail?
    ensures CheckPermissionUpToAuthor(claims).Fail?
    ensures CheckPermissionUpToAdmin(claims).Fail?
    ensures CheckPermissionUpToSuperAdmin(claims).Fail?
  {
  }

  /** The role check is independent of the permissions: a User is refused by
      the Admin gate even when holding the whole ladder. */
  lemma RoleCheckIndependent(claims: Claims)
    requires claims.role == User
    requires claims.permissions == Some(ReadLadder(SuperAdmin))
    ensures CheckPermissionUpToAdmin(claims).Fail?
    ensures CheckPermissionUpToAuthor(claims).Fail?
    ensures CheckPermissionUpToSuperAdmin(claims).Fail?
    ensures CheckPermissionUpToUser(claims).Pass?
  {
  }

  /** A user issued the User ladder passes the User gate and no other; one
      issued no permission set passes none. */
  lemma IssuedUserClaims(userId: string, now: nat)
    requires now + TokenLifetime < SecondsLimit
    ensures var c := JwtClaims.IssueClaims(userId, User, Some(ReadLadder(User)), now);
      CheckPermissionUpToUser(c).Pass? && CheckPermissionUpToAuthor(c).Fail? && CheckPermissionUpToAdmin(c).Fail?
      && CheckPermissionUpToSuperAdmin(c).Fail?
    ensures CheckPermissionUpToUser(JwtClaims.IssueClaims(userId, User, None, now)).Fail?
  {
  }
}
