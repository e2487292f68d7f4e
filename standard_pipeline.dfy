/** The pipeline built from the standard reducer table, as wired by
    `createUserPipeline(reducerMap)`. */
module StandardPipeline {
  import opened UserModel
  import opened UserPipeline
  import opened UserReducers
  import ToggleActive
  import AddRole
  import ResetRoles
  import RenameUser

  /** Every user's roles are free of duplicates. */
  predicate AllRolesDistinct(users: seq<User>) {
    forall i | 0 <= i < |users| :: DistinctRoles(users[i].roles)
  }

  /** None of the four standard reducers changes an id. */
  lemma ReducerMapKeepsIds()
    ensures KeepsIds(ReducerMap())
  {
  }

  /** Any other action type, REMOVE_ROLE among them, is a no-op for the pipeline. */
  lemma UnknownTypeIsNoOp(users: seq<User>, action: Action)
    requires action.kind !in {ToggleActiveType, AddRoleType, ResetRolesType, RenameUserType}
    ensures Dispatch(ReducerMap(), users, [action]) == users
  {
  }

  /** A global ADD_ROLE gives every user the role exactly once: users who had
      it are unchanged, the others get it appended. */
  lemma GlobalAddRole(users: seq<User>, role: string, newName: string)
    ensures var r := Dispatch(ReducerMap(), users, [Action(AddRoleType, None, role, newName)]);
      forall i | 0 <= i < |users| ::
        && role in r[i].roles
        && (role in users[i].roles ==> r[i] == users[i])
        && (role !in users[i].roles ==> r[i] == users[i].(roles := users[i].roles + [role]))
  {
    var action := Action(AddRoleType, None, role, newName);
    DispatchSingle(ReducerMap(), users, action);
    StepGlobalAppliesToAll(ReducerMap(), users, action);
    forall i | 0 <= i < |users|
      ensures ReducerMap()[AddRoleType](users[i], action) == AddRole.AddRoleReducer(users[i], action)
    {
    }
  }

  /** One step of the standard pipeline never creates a duplicate role. */
  lemma StepKeepsRolesDistinct(users: seq<User>, action: Action)
    requires AllRolesDistinct(users)
    ensures AllRolesDistinct(Step(ReducerMap(), users, action))
  {
    var r := Step(ReducerMap(), users, action);
    if action.kind in ReducerMap() {
      forall i | 0 <= i < |users| ensures DistinctRoles(r[i].roles) {
        if Selects(action, users[i]) {
          var u := users[i];
          if action.kind == AddRoleType {
            assert r[i] == AddRole.AddRoleReducer(u, action);
            AddRole.AddRoleKeepsRolesDistinct(u, action);
          } else if action.kind == ToggleActiveType {
            assert r[i] == ToggleActive.ToggleActiveReducer(u, action);
          } else if action.kind == ResetRolesType {
            assert r[i] == ResetRoles.ResetRolesReducer(u, action);
          } else {
            assert r[i] == RenameUser.RenameUserReducer(u, action);
          }
        }
      }
    }
  }

  /** Role lists stay free of duplicates through any sequence of actions. */
  lemma {:induction false} DispatchKeepsRolesDistinct(users: seq<User>, actions: seq<Action>)
    requires AllRolesDistinct(users)
    ensures AllRolesDistinct(Dispatch(ReducerMap(), users, actions))
    decreases |actions|
  {
    if actions != [] {
      StepKeepsRolesDistinct(users, actions[0]);
      DispatchKeepsRolesDistinct(Step(ReducerMap(), users, actions[0]), actions[1..]);
    }
  }

  /** Toggling user 2 and then giving user 3 the admin role changes exactly
      those two fields of the sample users. */
  lemma SampleRun()
    ensures Dispatch(ReducerMap(),
        [User(1, "Alice", true, ["admin"]), User(2, "Bob", false, ["user"]),
         User(3, "Charlie", true, ["user", "moderator"])],
        [Action(ToggleActiveType, Some(2), "", ""), Action(AddRoleType, Some(3), "admin", "")])
      == [User(1, "Alice", true, ["admin"]), User(2, "Bob", true, ["user"]),
          User(3, "Charlie", true, ["user", "moderator", "admin"])]
  {
    var us := [User(1, "Alice", true, ["admin"]), User(2, "Bob", false, ["user"]),
               User(3, "Charlie", true, ["user", "moderator"])];
    var a1 := Action(ToggleActiveType, Some(2), "", "");
    var a2 := Action(AddRoleType, Some(3), "admin", "");
    var mid := [User(1, "Alice", true, ["admin"]), User(2, "Bob", true, ["user"]),
                User(3, "Charlie", true, ["user", "moderator"])];
    var last := [User(1, "Alice", true, ["admin"]), User(2, "Bob", true, ["user"]),
                 User(3, "Charlie", true, ["user", "moderator", "admin"])];
    assert [a1, a2] == [a1] + [a2];
    DispatchAppend(ReducerMap(), us, [a1], [a2]);
    DispatchSingle(ReducerMap(), us, a1);
    DispatchSingle(ReducerMap(), mid, a2);
    StepKeepsUntargeted(ReducerMap(), us, a1);
    StepKeepsUntargeted(ReducerMap(), mid, a2);
    StepAppliesReducer(ReducerMap(), us, a1, 1);
    StepAppliesReducer(ReducerMap(), mid, a2, 2);
    assert ["user", "moderator"] + ["admin"] == ["user", "moderator", "admin"];
    assert Step(ReducerMap(), us, a1) == mid;
    assert Step(ReducerMap(), mid, a2) == last;
  }
}
