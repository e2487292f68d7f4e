/** The records the reducer pipeline works on: users, actions, and the
    action-type strings the reducers test against. */
module UserModel {

  /** The JavaScript `undefined` of an optional field. */
  datatype Option<+T> = None | Some(value: T)

  /** A user record `{id, name, active, roles}`. */
  datatype User = User(id: int, name: string, active: bool, roles: seq<string>)

  /** An action `{type, id?, role?, newName?}`. `kind` is the JavaScript
      `type`; `id` is `None` when the action is global. `role` and `newName`
      are read only by the reducers that use them. */
  datatype Action = Action(kind: string, id: Option<int>, role: string, newName: string)

  const ToggleActiveType: string := "TOGGLE_ACTIVE"
  const AddRoleType: string := "ADD_ROLE"
  const ResetRolesType: string := "RESET_ROLES"
  const RenameUserType: string := "RENAME_USER"

  /** A reducer rebuilds one user from the user and the action. */
  type Reducer = (User, Action) -> User

  /** No role occurs twice. */
  predicate DistinctRoles(roles: seq<string>) {
    forall i, j | 0 <= i < j < |roles| :: roles[i] != roles[j]
  }
}
