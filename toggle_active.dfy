/** toggleActiveReducer: flips `active` on a TOGGLE_ACTIVE action. */
module ToggleActive {
  import opened UserModel

  function ToggleActiveReducer(user: User, action: Action): (r: User)
    ensures r.id == user.id && r.name == user.name && r.roles == user.roles
    ensures r.active != user.active <==> action.kind == ToggleActiveType
    ensures action.kind != ToggleActiveType ==> r == user
  {
    if action.kind == ToggleActiveType then user.(active := !user.active) else user
  }

  /** Toggling twice with the same action gives back the original user. */
  lemma ToggleTwiceRestores(user: User, action: Action)
    ensures ToggleActiveReducer(ToggleActiveReducer(user, action), action) == user
  {
  }
}
