/** createUserPipeline: folds a list of actions over a list of users, looking
    up one reducer per action type and applying it to every user (global
    action) or to the user whose id the action names. */
module UserPipeline {
  import opened UserModel

  type Registry = map<string, Reducer>

  /** Whether an action reaches a user: it names no id, or the user's id. */
  predicate Selects(action: Action, user: User) {
    action.id.None? || action.id.value == user.id
  }

  /** Every reducer of the registry keeps the user's id. */
  ghost predicate KeepsIds(reducerMap: Registry) {
    forall kind, user, action | kind in reducerMap :: reducerMap[kind](user, action).id == user.id
  }

  /** One step of the fold: the `acc.map` for one action. An action whose type
      has no reducer leaves the list as it is. */
  function Step(reducerMap: Registry, users: seq<User>, action: Action): (r: seq<User>)
    ensures |r| == |users|
  {
    if action.kind !in reducerMap then users
    else
      var reducer := reducerMap[action.kind];
      seq(|users|, i requires 0 <= i < |users| =>
        if Selects(action, users[i]) then reducer(users[i], action) else users[i])
  }

  /** userReducerDispatch for the pipeline built from `reducerMap`: the actions
      are applied left to right, starting from `users`. */
  function Dispatch(reducerMap: Registry, users: seq<User>, actions: seq<Action>): (r: seq<User>)
    ensures |r| == |users|
    ensures actions == [] ==> r == users
    decreases |actions|
  {
    if actions == [] then users
    else Dispatch(reducerMap, Step(reducerMap, users, actions[0]), actions[1..])
  }

  // ----- one step -----

  /** An action whose type is not registered changes nothing. */
  lemma StepSkipsUnregistered(reducerMap: Registry, users: seq<User>, action: Action)
    requires action.kind !in reducerMap
    ensures Step(reducerMap, users, action) == users
  {
  }

  /** A selected user becomes exactly what the reducer returns for it; the
      trace printed around the call plays no part in the value. */
  lemma StepAppliesReducer(reducerMap: Registry, users: seq<User>, action: Action, i: int)
    requires action.kind in reducerMap
    requires 0 <= i < |users| && Selects(action, users[i])
    ensures Step(reducerMap, users, action)[i] == reducerMap[action.kind](users[i], action)
  {
  }

  /** A targeted action returns every user with another id as it was. */
  lemma StepKeepsUntargeted(reducerMap: Registry, users: seq<User>, action: Action)
    requires action.id.Some?
    ensures forall i | 0 <= i < |users| && users[i].id != action.id.value ::
      Step(reducerMap, users, action)[i] == users[i]
  {
    forall i | 0 <= i < |users| && users[i].id != action.id.value
      ensures Step(reducerMap, users, action)[i] == users[i]
    {
      assert !Selects(action, users[i]);
    }
  }

  /** A targeted action whose id names no user returns the list unchanged. */
  lemma StepMissingTargetIsIdentity(reducerMap: Registry, users: seq<User>, action: Action)
    requires action.id.Some?
    requires forall i | 0 <= i < |users| :: users[i].id != action.id.value
    ensures Step(reducerMap, users, action) == users
  {
    StepKeepsUntargeted(reducerMap, users, action);
  }

  /** A global action applies the reducer to every user. */
  lemma StepGlobalAppliesToAll(reducerMap: Registry, users: seq<User>, action: Action)
    requires action.id.None? && action.kind in reducerMap
    ensures forall i | 0 <= i < |users| ::
      Step(reducerMap, users, action)[i] == reducerMap[action.kind](users[i], action)
  {
  }

  /** With id-preserving reducers a step keeps every user's id in place. */
  lemma StepKeepsIds(reducerMap: Registry, users: seq<User>, action: Action)
    requires KeepsIds(reducerMap)
    ensures forall i | 0 <= i < |users| :: Step(reducerMap, users, action)[i].id == users[i].id
  {
  }

  // ----- the fold -----

  /** A single action is a single step. */
  lemma DispatchSingle(reducerMap: Registry, users: seq<User>, action: Action)
    ensures Dispatch(reducerMap, users, [action]) == Step(reducerMap, users, action)
  {
  }

  /** Folding a concatenation is folding the first part, then the second. */
  lemma {:induction false} DispatchAppend(reducerMap: Registry, users: seq<User>, first: seq<Action>, second: seq<Action>)
    ensures Dispatch(reducerMap, users, first + second)
         == Dispatch(reducerMap, Dispatch(reducerMap, users, first), second)
    decreases |first|
  {
    if first == [] {
      assert first + second == second;
    } else {
      assert (first + second)[0] == first[0];
      assert (first + second)[1..] == first[1..] + second;
      DispatchAppend(reducerMap, Step(reducerMap, users, first[0]), first[1..], second);
    }
  }

  /** An unregistered action anywhere in the list can be dropped. */
  lemma DispatchSkipsUnregistered(reducerMap: Registry, users: seq<User>,
                                  before: seq<Action>, action: Action, after: seq<Action>)
    requires action.kind !in reducerMap
    ensures Dispatch(reducerMap, users, before + [action] + after)
         == Dispatch(reducerMap, users, before + after)
  {
    var mid := Dispatch(reducerMap, users, before);
    DispatchAppend(reducerMap, users, before + [action], after);
    DispatchAppend(reducerMap, users, before, [action]);
    DispatchSingle(reducerMap, mid, action);
    DispatchAppend(reducerMap, users, before, after);
  }

  /** With id-preserving reducers the whole fold keeps ids and their order. */
  lemma {:induction false} DispatchKeepsIds(reducerMap: Registry, users: seq<User>, actions: seq<Action>)
    requires KeepsIds(reducerMap)
    ensures forall i | 0 <= i < |users| :: Dispatch(reducerMap, users, actions)[i].id == users[i].id
    decreases |actions|
  {
    if actions != [] {
      var next := Step(reducerMap, users, actions[0]);
      StepKeepsIds(reducerMap, users, actions[0]);
      DispatchKeepsIds(reducerMap, next, actions[1..]);
    }
  }
}
