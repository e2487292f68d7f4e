# User reducer pipeline in Dafny

This project models the reducer pipeline of the state-management exercises.
A list of user records `{id, name, active, roles}` is transformed by a list of
actions `{type, id?, role?, newName?}`:

- `createUserPipeline(reducerMap)` returns a dispatcher that folds the actions
  left to right over the users. Each action looks up its reducer by type. An
  unknown type is skipped. The reducer is applied to every user when the
  action has no `id`, otherwise only to the user with that id.
- `reducerMap` maps `TOGGLE_ACTIVE`, `ADD_ROLE`, `RESET_ROLES` and
  `RENAME_USER` to four reducers. Each reducer rebuilds one field of the user.
- The first snippet of `script.js` toggles `done` on one task of a task list
  with a `map`.

Everything in the core is pure, so every operation is a Dafny function over
datatypes and sequences, with lemmas for the properties.

Files, one module each:

- `user_model.dfy` (`UserModel`): `User`, `Action`, the type strings and `DistinctRoles`.
- `toggle_active.dfy`, `add_role.dfy`, `rename_user.dfy`, `reset_roles.dfy`: the four reducers.
- `user_reducers.dfy` (`UserReducers`): the `ReducerMap` table.
- `user_pipeline.dfy` (`UserPipeline`): `Step` (one `acc.map`) and `Dispatch` (the `reduce`) over any registry.
- `standard_pipeline.dfy` (`StandardPipeline`): properties of the pipeline built from `ReducerMap`.
- `task_toggle.dfy` (`TaskToggle`): the task-list toggle.

The JavaScript `type` field is called `kind`, because `type` is a Dafny keyword.
`createUserPipeline(reducerMap)(users, actions)` is written
`Dispatch(reducerMap, users, actions)`: the curried closure becomes the first parameter.

Two points about the table and the reducers:

- `addRole.js:2` never reads `action.type`, so `AddRoleReducer` does not either
  (`AddRoleReadsOnlyRole`). The pipeline reaches it only through the `ADD_ROLE` entry.
- `index.js:6-11` registers only four types. `REMOVE_ROLE` and every other type
  therefore has no reducer, and the pipeline treats it as a no-op (`UnknownTypeIsNoOp`).

## Model

| member | source | states |
|---|---|---|
| ToggleActive.ToggleActiveReducer | modular-version/userReducers/toggleActive.js:1-6 | `active` flips exactly when the type is TOGGLE_ACTIVE; `id`, `name`, `roles` never change; any other type returns the user unchanged |
| ToggleActive.ToggleTwiceRestores | modular-version/userReducers/toggleActive.js:3 | toggling twice with the same action gives back the original user |
| AddRole.AddRoleReducer | modular-version/userReducers/addRole.js:1-6 | afterwards the role is always present; `id`, `name`, `active` never change; an existing role leaves the user unchanged; a missing role is appended at the end, so the list grows by one and the old roles stay as its prefix |
| AddRole.AddRoleIdempotent | modular-version/userReducers/addRole.js:2-5 | adding the same role twice is adding it once |
| AddRole.AddRoleKeepsRolesDistinct | modular-version/userReducers/addRole.js:2-3 | a role list without duplicates has none after the call |
| AddRole.AddRoleReadsOnlyRole | modular-version/userReducers/addRole.js:1-2 | two actions with the same role give the same result, whatever their type |
| RenameUser.RenameUserReducer | modular-version/userReducers/renameUser.js:1-6 | on RENAME_USER the name becomes `newName`, whatever it was; `id`, `active`, `roles` never change; any other type returns the user unchanged |
| RenameUser.RenameIdempotent | modular-version/userReducers/renameUser.js:3 | renaming twice to the same name is renaming once |
| ResetRoles.ResetRolesReducer | modular-version/userReducers/resetRoles.js:1-6 | on RESET_ROLES the roles become empty; `id`, `name`, `active` never change; any other type returns the user unchanged |
| ResetRoles.ResetIdempotent | modular-version/userReducers/resetRoles.js:3 | resetting twice is resetting once |
| UserReducers.ReducerMap | modular-version/userReducers/index.js:6-11 | the table has exactly the keys TOGGLE_ACTIVE, ADD_ROLE, RESET_ROLES and RENAME_USER, mapped to the toggle-active, add-role, reset-roles and rename reducers respectively; REMOVE_ROLE has no entry |
| UserPipeline.Step | modular-version/pipeline/createUserPipeline.js:4-20 | one action step returns a list of the same length as its input |
| UserPipeline.Dispatch | modular-version/pipeline/createUserPipeline.js:2-21 | the fold returns a list of the same length as the users; with no actions it returns the users unchanged |
| UserPipeline.StepSkipsUnregistered | modular-version/pipeline/createUserPipeline.js:4-5 | an action whose type has no reducer leaves the whole list unchanged |
| UserPipeline.StepAppliesReducer | modular-version/pipeline/createUserPipeline.js:8-19 | a selected user becomes exactly `reducer(user, action)`; the tracing around the call does not affect the value |
| UserPipeline.StepKeepsUntargeted | modular-version/pipeline/createUserPipeline.js:8 | for a targeted action every user with another id is returned unchanged |
| UserPipeline.StepMissingTargetIsIdentity | modular-version/pipeline/createUserPipeline.js:7-8 | a targeted action whose id matches no user returns the list unchanged |
| UserPipeline.StepGlobalAppliesToAll | modular-version/pipeline/createUserPipeline.js:7-11 | an action without id applies the reducer to every user |
| UserPipeline.StepKeepsIds | modular-version/pipeline/createUserPipeline.js:7-19 | with id-preserving reducers a step keeps every id in its place |
| UserPipeline.DispatchSingle | modular-version/pipeline/createUserPipeline.js:3-21 | folding one action is one step |
| UserPipeline.DispatchAppend | modular-version/pipeline/createUserPipeline.js:3-21 | folding `first + second` equals folding `first`, then folding `second` over the result |
| UserPipeline.DispatchSkipsUnregistered | modular-version/pipeline/createUserPipeline.js:3-5 | an unregistered action anywhere in the list can be dropped without changing the result |
| UserPipeline.DispatchKeepsIds | modular-version/pipeline/createUserPipeline.js:3-21 | with id-preserving reducers the whole fold keeps ids and their order |
| StandardPipeline.ReducerMapKeepsIds | modular-version/userReducers/index.js:6-11 | none of the four registered reducers changes an id |
| StandardPipeline.UnknownTypeIsNoOp | modular-version/userReducers/index.js:6-11 | through the standard table, any type other than the four keys leaves the users unchanged |
| StandardPipeline.GlobalAddRole | modular-version/pipeline/createUserPipeline.js:7-11 | a global ADD_ROLE gives every user the role exactly once: users that had it are unchanged, the others get it appended with `id`, `name` and `active` kept |
| StandardPipeline.StepKeepsRolesDistinct | modular-version/userReducers/addRole.js:2-3 | one step of the standard pipeline never creates a duplicate role |
| StandardPipeline.DispatchKeepsRolesDistinct | modular-version/pipeline/createUserPipeline.js:3-21 | role lists stay free of duplicates through any sequence of actions of the standard pipeline |
| StandardPipeline.SampleRun | script.js:31-40 | on the sample users, toggling user 2 and then adding `admin` to user 3 changes exactly those two fields |
| TaskToggle.ToggleTask | script.js:21-25 | the result has the same length; every `id` and `title` is kept; `done` flips exactly on the tasks whose id is the action's id; other tasks are returned unchanged |
| TaskToggle.ToggleTaskNoMatch | script.js:23-25 | when no task has the action's id the result equals the input |
| TaskToggle.ToggleTaskTwice | script.js:24 | toggling the same id twice gives back the original list |

## Left out

- Console tracing (`JSON.stringify` and `console.log` in `createUserPipeline.js`): output only. `Step` returns `reducer(object, action)` directly.
- `modular-version/main.js`: wiring plus `console.log`. The data files it imports are not part of this model. `StandardPipeline` states properties of the same wiring.
- `updateUsers` and its driver in `script.js` (lines 48-65). Its `map` callback returns nothing, it pushes into the input's roles, and it ignores the action id, so a model would only restate that defect. Its sample data is reused in `SampleRun`.
- JavaScript dynamic typing: prototype keys found by `reducerMap[action.type]`, missing payload fields and non-numeric ids. Payloads are typed fields, ids are integers and the registry is a finite map.
- Non-mutation of the input. Dafny sequences and datatypes are values, so no operation here can change its input. This covers the `structuredClone` copy in `script.js` too. Aliasing is not modelled.
- Object identity: when a reducer returns `user` unchanged, JavaScript keeps the same object. The model only has value equality.
