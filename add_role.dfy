/** addRoleReducer: appends `action.role` unless the user already has it.
    The reducer never looks at `action.type`. */
module AddRole {
  import opened UserModel

  function AddRoleReducer(user: User, action: Action): (r: User)
    ensures action.role in r.roles
    ensures r.id == user.id && r.name == user.name && r.active == user.active
    ensures action.role in user.roles ==> r == user
    ensures action.role !in user.roles ==>
      && |r.roles| == |user.roles| + 1
      && r.roles[..|user.roles|] == user.roles
      && r.roles[|user.roles|] == action.role
  {
    if action.role !in user.roles then user.(roles := user.roles + [action.role]) else user
  }

  /** Adding the same role a second time changes nothing. */
  lemma AddRoleIdempotent(user: User, action: Action)
    ensures AddRoleReducer(AddRoleReducer(user, action), action) == AddRoleReducer(user, action)
  {
  }

  /** A role list without duplicates keeps that property. */
  lemma AddRoleKeepsRolesDistinct(user: User, action: Action)
    requires DistinctRoles(user.roles)
    ensures DistinctRoles(AddRoleReducer(user, action).roles)
  {
  }

  /** The result depends on the action only through its role. */
  lemma AddRoleReadsOnlyRole(user: User, a: Action, b: Action)
    requires a.role == b.role
    ensures AddRoleReducer(user, a) == AddRoleReducer(user, b)
  {
  }
}
