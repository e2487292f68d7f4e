/** The targeted toggle of the task list: a `map` over a copy of the state
    that flips `done` on the task whose id the action names. */
module TaskToggle {

  datatype Task = Task(id: int, title: string, done: bool)

  /** `{type, id}`; the toggle reads only `id`. */
  datatype TaskAction = TaskAction(kind: string, id: int)

  function ToggleTask(state: seq<Task>, action: TaskAction): (r: seq<Task>)
    ensures |r| == |state|
    ensures forall i | 0 <= i < |state| :: r[i].id == state[i].id && r[i].title == state[i].title
    ensures forall i | 0 <= i < |state| :: r[i].done != state[i].done <==> state[i].id == action.id
    ensures forall i | 0 <= i < |state| && state[i].id != action.id :: r[i] == state[i]
  {
    seq(|state|, i requires 0 <= i < |state| =>
      if state[i].id == action.id then state[i].(done := !state[i].done) else state[i])
  }

  /** When no task has the action's id the result equals the input. */
  lemma ToggleTaskNoMatch(state: seq<Task>, action: TaskAction)
    requires forall i | 0 <= i < |state| :: state[i].id != action.id
    ensures ToggleTask(state, action) == state
  {
  }

  /** Toggling the same id twice gives back the original list. */
  lemma ToggleTaskTwice(state: seq<Task>, action: TaskAction)
    ensures ToggleTask(ToggleTask(state, action), action) == state
  {
  }
}
