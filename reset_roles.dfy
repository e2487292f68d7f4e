/** resetRolesReducer: empties `roles` on a RESET_ROLES action. */
module ResetRoles {
  import opened UserModel

  function ResetRolesReducer(user: User, action: Action): (r: User)
    ensures r.id == user.id && r.name == user.name && r.active == user.active
    ensures action.kind == ResetRolesType ==> r.roles == []
    ensures action.kind != ResetRolesType ==> r == user
  {
    if action.kind == ResetRolesType then user.(roles := []) else user
  }

  /** Resetting twice is resetting once. */
  lemma ResetIdempotent(user: User, action: Action)
    ensures ResetRolesReducer(ResetRolesReducer(user, action), action) == ResetRolesReducer(user, action)
  {
  }
}
