/** The static role-based access-control table and the middleware decision
    built on it (auth/access_control.rs). */
module Rbac {
  import opened Wrappers

  /** The role vocabulary of the table; this one has Public instead of Author. */
  datatype Role = SuperAdmin | Admin | User | Public

  /** What a role may do to a resource. */
  datatype Action = ReadOwn | ReadAny | CreateAny | UpdateAny | DeleteAny

  /** The resources under access control. */
  datatype Resource = User | Task

  /** Role to resource to the list of permitted actions. */
  type PermissionTable = map<Role, map<Resource, seq<Action>>>

  /** The table as `define_permissions` leaves it. */
  function Table(): PermissionTable
  {
    map[
      Role.SuperAdmin := map[Resource.User := [ReadAny, CreateAny, UpdateAny, DeleteAny],
                             Resource.Task := [ReadAny, CreateAny, UpdateAny, DeleteAny]],
      Role.Admin := map[Resource.User := [ReadAny],
                        Resource.Task := [ReadAny, CreateAny, UpdateAny, DeleteAny]],
      Role.User := map[Resource.User := [ReadOwn],
                       Resource.Task := [ReadOwn, CreateAny, UpdateAny]],
      Role.Public := map[Resource.User := [ReadAny]]
    ]
  }

  /** `define_permissions`: one insertion per role into an empty table. */
  method DefinePermissions() returns (permissions: PermissionTable)
    ensures permissions == Table()
    ensures permissions.Keys == {Role.SuperAdmin, Role.Admin, Role.User, Role.Public}
  {
    permissions := map[];
    permissions := permissions[Role.SuperAdmin :=
      map[Resource.User := [ReadAny, CreateAny, UpdateAny, DeleteAny],
          Resource.Task := [ReadAny, CreateAny, UpdateAny, DeleteAny]]];
    permissions := permissions[Role.Admin :=
      map[Resource.User := [ReadAny],
          Resource.Task := [ReadAny, CreateAny, UpdateAny, DeleteAny]]];
    permissions := permissions[Role.User :=
      map[Resource.User := [ReadOwn],
          Resource.Task := [ReadOwn, CreateAny, UpdateAny]]];
    permissions := permissions[Role.Public :=
      map[Resource.User := [ReadAny]]];
  }

  /** A request for one action of one role on one resource. */
  datatype AccessControl = AccessControl(role: Role, action: Action, resource: Resource)

  /** `is_authorized`: the table lists the role, the role lists the resource,
      and the resource's action list contains the action; false otherwise. */
  function IsAuthorized(ac: AccessControl, permissions: PermissionTable): (r: bool)
    ensures r <==> ac.role in permissions && ac.resource in permissions[ac.role]
                   && exists i :: 0 <= i < |permissions[ac.role][ac.resource]|
                                  && permissions[ac.role][ac.resource][i] == ac.action
    ensures ac.role !in permissions ==> !r
    ensures ac.role in permissions && ac.resource !in permissions[ac.role] ==> !r
  {
    if ac.role in permissions && ac.resource in permissions[ac.role] then
      ac.action in permissions[ac.role][ac.resource]
    else
      false
  }

  /** Public may read any user and do nothing else. */
  lemma PublicReadsOnlyUsers(action: Action, resource: Resource)
    ensures IsAuthorized(AccessControl(Role.Public, action, resource), Table())
            <==> action == ReadAny && resource == Resource.User
    ensures !IsAuthorized(AccessControl(Role.Public, action, Resource.Task), Table())
  {
  }

  /** SuperAdmin may do every `*Any` action on both resources, never `ReadOwn`. */
  lemma SuperAdminGrants(action: Action, resource: Resource)
    ensures IsAuthorized(AccessControl(Role.SuperAdmin, action, resource), Table()) <==> action != ReadOwn
  {
  }

  /** Admin may only read any user, and do every `*Any` action on tasks. */
  lemma AdminGrants(action: Action, resource: Resource)
    ensures IsAuthorized(AccessControl(Role.Admin, action, resource), Table())
            <==> ((resource == Resource.User && action == ReadAny)
                 || (resource == Resource.Task && action != ReadOwn))
  {
  }

  /** User may read its own user record, and read its own, create and update
      tasks; reading any and deleting any task are refused. */
  lemma UserGrants(action: Action, resource: Resource)
    ensures IsAuthorized(AccessControl(Role.User, action, resource), Table())
            <==> ((resource == Resource.User && action == ReadOwn)
                 || (resource == Resource.Task && action in {ReadOwn, CreateAny, UpdateAny}))
    ensures !IsAuthorized(AccessControl(Role.User, ReadAny, Resource.Task), Table())
    ensures !IsAuthorized(AccessControl(Role.User, DeleteAny, Resource.Task), Table())
  {
  }

  /** What the middleware does with a request. */
  datatype Decision = Forward | Reject(status: nat, body: string)

  const Unauthorized: nat := 401

  /** The decision of `GrantAccessMiddlewareService::call`: a request without
      a role is judged as Public; an authorized request goes on to the inner
      service, any other is answered 401 "Insufficient permissions". */
  function Call(attached: Option<Role>, action: Action, resource: Resource, permissions: PermissionTable): (d: Decision)
    ensures d.Forward? <==> IsAuthorized(AccessControl(attached.UnwrapOr(Role.Public), action, resource), permissions)
    ensures d.Reject? ==> d.status == 401 && d.body == "Insufficient permissions"
  {
    var role := attached.UnwrapOr(Role.Public);
    if IsAuthorized(AccessControl(role, action, resource), permissions) then Forward
    else Reject(Unauthorized, "Insufficient permissions")
  }

  /** A request without a role is treated exactly as one with Public. */
  lemma MissingRoleIsPublic(action: Action, resource: Resource, permissions: PermissionTable)
    ensures Call(None, action, resource, permissions) == Call(Some(Role.Public), action, resource, permissions)
  {
  }

  /** With the defined table, an anonymous request reaches the inner service
      only to read any user. */
  lemma AnonymousRequests(action: Action, resource: Resource)
    ensures Call(None, action, resource, Table()).Forward? <==> action == ReadAny && resource == Resource.User
    ensures Call(None, action, Resource.Task, Table()) == Reject(401, "Insufficient permissions")
  {
    PublicReadsOnlyUsers(action, resource);
    PublicReadsOnlyUsers(action, Resource.Task);
  }
}
