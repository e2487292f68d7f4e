/** reducerMap: the table from action type to reducer. */
module UserReducers {
  import opened UserModel
  import ToggleActive
  import AddRole
  import ResetRoles
  import RenameUser

  /** Each of the four types finds its own reducer, and no other type has an entry. */
  function ReducerMap(): (m: map<string, Reducer>)
    ensures m.Keys == {ToggleActiveType, AddRoleType, ResetRolesType, RenameUserType}
    ensures m[ToggleActiveType] == ToggleActive.ToggleActiveReducer
    ensures m[AddRoleType] == AddRole.AddRoleReducer
    ensures m[ResetRolesType] == ResetRoles.ResetRolesReducer
    ensures m[RenameUserType] == RenameUser.RenameUserReducer
    ensures "REMOVE_ROLE" !in m
  {
    map[
      ToggleActiveType := ToggleActive.ToggleActiveReducer,
      AddRoleType := AddRole.AddRoleReducer,
      ResetRolesType := ResetRoles.ResetRolesReducer,
      RenameUserType := RenameUser.RenameUserReducer
    ]
  }
}
