/** The user payloads of the API (api/users/users_payloads.rs): the role
    vocabulary stored with a user, its default and its rendering, and the
    register and update payload constructors. */
module UsersPayloads {
  import opened Wrappers

  /** The role vocabulary of user payloads; it has no Author. */
  datatype UserRolePayload = SuperAdmin | Admin | User

  /** `Default`: a user without a stated role is a User. */
  function DefaultRole(): (r: UserRolePayload)
    ensures r == User
  {
    User
  }

  /** `Display`: the snake-case text stored for the role. */
  function Display(r: UserRolePayload): (s: string)
    ensures r == SuperAdmin ==> s == "super_admin"
    ensures r == Admin ==> s == "admin"
    ensures r == User ==> s == "user"
  {
    match r
    case SuperAdmin => "super_admin"
    case Admin => "admin"
    case User => "user"
  }

  /** Distinct roles render to distinct text, so the stored role determines
      the payload role. */
  lemma DisplayInjective(a: UserRolePayload, b: UserRolePayload)
    ensures Display(a) == Display(b) ==> a == b
  {
  }

  datatype UserRegisterPayload = UserRegisterPayload(
    username: string, email: string, password: string, role: Option<UserRolePayload>)

  /** `UserRegisterPayload::new`: every argument is stored as given. */
  function NewUserRegisterPayload(username: string, email: string, password: string,
                                  role: Option<UserRolePayload>): (p: UserRegisterPayload)
    ensures p.username == username && p.email == email && p.password == password && p.role == role
  {
    UserRegisterPayload(username, email, password, role)
  }

  datatype UserLoginPayload = UserLoginPayload(email: string, password: string)

  /** `UserLoginPayload::new`: both credentials are stored as given. */
  function NewUserLoginPayload(email: string, password: string): (p: UserLoginPayload)
    ensures p.email == email && p.password == password
  {
    UserLoginPayload(email, password)
  }

  datatype UserUpdatePayload = UserUpdatePayload(
    userId: string, username: Option<string>, email: Option<string>,
    password: Option<string>, role: Option<UserRolePayload>)

  /** `UserUpdatePayload::new`: the id and every optional field are stored as
      given; an absent field stays absent. */
  function NewUserUpdatePayload(userId: string, username: Option<string>, email: Option<string>,
                                password: Option<string>, role: Option<UserRolePayload>): (p: UserUpdatePayload)
    ensures p.userId == userId && p.username == username && p.email == email
    ensures p.password == password && p.role == role
  {
    UserUpdatePayload(userId, username, email, password, role)
  }
}
