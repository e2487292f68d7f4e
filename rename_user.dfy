/** renameUserReducer: replaces `name` on a RENAME_USER action. */
module RenameUser {
  import opened UserModel

  function RenameUserReducer(user: User, action: Action): (r: User)
    ensures r.id == user.id && r.active == user.active && r.roles == user.roles
    ensures action.kind == RenameUserType ==> r.name == action.newName
    ensures action.kind != RenameUserType ==> r == user
  {
    if action.kind == RenameUserType then user.(name := action.newName) else user
  }

  /** Renaming twice to the same name is renaming once. */
  lemma RenameIdempotent(user: User, action: Action)
    ensures RenameUserReducer(RenameUserReducer(user, action), action) == RenameUserReducer(user, action)
  {
  }
}
