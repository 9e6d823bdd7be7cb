# Table-top environment, hook-reach task generation and batch utilities, in Dafny

This project models three pieces of a robot-manipulation research code base.
It also proves what each piece promises.

- **`TableEnv` bookkeeping** (`table_env.dfy`, module `Table`). This is the
  PyBullet table-top environment with the physics, the robot, the predicates,
  the primitives and the video recorders taken out. They become oracles: the
  arrow-typed fields of the `Engine` and `RecorderOps` datatypes, over opaque
  world, robot-state and recorder types. What is left is modelled:
  - the observation-row permutation of `get_arg_indices`;
  - the ordered `object_states` dictionary and the `get_observation` matrix;
  - the snapshot cache that `get_state` fills, `set_state` reads and `reset`
    drains;
  - the `reset` retry loop, with its bounded per-proposition sampling;
  - the `wait_until_stable` loop;
  - the reward and termination mapping of `step`;
  - the recording-mode dispatch;
  - `get_primitive_info`.

  The simulator's snapshot store is the class `PhysicsClient`. The
  environment is the class `TableEnv`. Its methods update their fields in
  place and are proved against specification functions (`ArgIndices`,
  `ObjectStatesOf`, `ObservationOf`, `Settle`, `SampleAll`, `Attempt`). The
  lemmas beside those functions prove what the source promises about them.
- **Hook-reach task generation** (`hook_reach.dfy`, module `HookReach`).
  `hook_reach_task_phase` and `hook_reach_task` build a lifted task's plan
  skeleton and predicate list by appending strings. The methods keep the
  source's appending loops. Each is proved equal to a recursive definition,
  and the lemmas give the exact lengths and contents.
- **Nested-batch utilities** (`batches.dfy`, module `Batches`).
  - `to_device`, `to_tensor`, `to_np`, `unsqueeze`, `squeeze` and
    `get_from_batch` are one structure-preserving leaf map over a
    dict/list/tuple tree.
  - `contains_tensors` is characterised by reachability.
  - `fetch_from_dict` resolves dotted keys in a loop.

Three supporting modules hold shared pieces. `Seqs` (`seqs.dfy`) holds the associativity of concatenation. `Strings` (`strings.dfy`) holds
Python's `join` and `split`, and the action-call syntax `name(a, b)` with its
injectivity. `Wrappers` (`wrappers.dfy`) holds `Option` and `Result`.
Exceptions the source raises are `Err` values, except those listed under "## Left out", which are preconditions.

## Model

| member | source | states |
|---|---|---|
| Table.PyIndex | temporal_policies/envs/pybullet/table_env.py:230 | A Python list index `i` into a list of length `n` is valid exactly when `-n <= i < n`. It then selects a position below `n` congruent to `i` modulo `n`. |
| Table.RowsExcept | temporal_policies/envs/pybullet/table_env.py:225-229 | `[i for i in range(n) if i != skip]` has one element fewer when `skip < n`, and element `j` is `j` before `skip` and `j + 1` from it on. |
| Table.ObjectIndices | temporal_policies/envs/pybullet/table_env.py:225-229 | The object rows are the four rows after the end-effector row: element `j` is `j + 1`. |
| Table.ArgRows | temporal_policies/envs/pybullet/table_env.py:230 | The argument rows exist exactly when every argument's `idx_object` is a valid index into the object rows. Row `k` is then the row of argument `k`. |
| Table.ArgIndices | temporal_policies/envs/pybullet/table_env.py:220-236 | The argument indices: row 0, then the row of each argument, then the rows not yet used in ascending order. An out-of-range argument index is an IndexError. |
| Table.Unused | temporal_policies/envs/pybullet/table_env.py:232-236 | The rows below `n` not among the used ones: all of them, only them, in ascending order. |
| Table.PresentUnused | temporal_policies/envs/pybullet/table_env.py:232-236 | Striking out the used rows of `list(range(n))` with None and filtering out None leaves exactly the unused rows in ascending order. |
| Table.ArgIndicesPermutation | temporal_policies/envs/pybullet/table_env.py:220-236 | With distinct `idx_object` values below 4, `get_arg_indices` succeeds and has five rows. It is a permutation of rows 0 to 4: no repeats, every row present, row 0 first, then `idx_object + 1` per argument in order, then the other rows ascending. |
| Table.StrikeOut | temporal_policies/envs/pybullet/table_env.py:232-234 | The marking loop leaves slot `i` of a fresh five-slot array None exactly when row `i` is used, and `i` otherwise. |
| Table.UsedThenUnused | temporal_policies/envs/pybullet/table_env.py:236 | Repeat-free used rows below `n` followed by the unused rows are a permutation of the rows below `n`: no repeats, all present, length `n`. |
| Table.TableEnv.GetArgIndices | temporal_policies/envs/pybullet/table_env.py:220-236 | The method, with its marking loop over a five-slot array, returns `ArgIndices` of the arguments, and IndexError when an argument's index is out of range. |
| Table.AssignAppends | temporal_policies/envs/pybullet/table_env.py:336-338 | Assigning to an ordered dict under a new key appends the entry. |
| Table.AssignKeepsKeys | temporal_policies/envs/pybullet/table_env.py:336-338 | Assigning to an ordered dict under an existing key keeps the keys and their order. |
| Table.ObjectEntries | temporal_policies/envs/pybullet/table_env.py:332-338 | Each object's entry is filed under its own name with its own state, one per object, in order. |
| Table.StatesAfter | temporal_policies/envs/pybullet/table_env.py:331-338 | The dict the `object_states` loop has built after `n` objects: the end-effector entry is assigned just before object 0, and each object is assigned under its name. |
| Table.StatesAfterStep | temporal_policies/envs/pybullet/table_env.py:337 | Visiting one more object whose name is new appends its entry to the dict. |
| Table.ObjectStatesOf | temporal_policies/envs/pybullet/table_env.py:326-340 | The dict `object_states` returns: the loop run over all the objects. |
| Table.StatesAfterPrefix | temporal_policies/envs/pybullet/table_env.py:331-338 | After the first `n` iterations of the `object_states` loop, with distinct names none equal to the end-effector key, the dict is the end-effector entry followed by the first `n` objects' entries. |
| Table.ObjectStatesLayout | temporal_policies/envs/pybullet/table_env.py:326-340 | `object_states` puts the end-effector entry first and immediately before the first object, only when there is an object, and then every object under its own name in order. |
| Table.ObservationOf | temporal_policies/envs/pybullet/table_env.py:288-305 | `get_observation`: an IndexError when the dict has more than five values, otherwise a five-row matrix of zeros whose row `i` is the `i`-th value of the dict. |
| Table.TableEnv.ObjectStates | temporal_policies/envs/pybullet/table_env.py:326-340 | The loop over the objects builds exactly `ObjectStatesOf` of the current world. |
| Table.ObservationLayout | temporal_policies/envs/pybullet/table_env.py:288-305 | The observation is defined exactly when fewer than five objects exist (otherwise IndexError). It then has five rows: row 0 is the end-effector state when there is an object, row `k + 1` is object `k`'s state, and every later row is zero. |
| Table.TableEnv.GetObservation | temporal_policies/envs/pybullet/table_env.py:288-305 | An image request raises NotImplementedError. Otherwise the five-row array filled in the loop is `ObservationOf` the current world. |
| Table.PhysicsClient.SaveState | temporal_policies/envs/pybullet/table_env.py:277 | The returned id is not currently stored. It is at least every id handed out before, and the next id moves past it, so no id is handed out twice. The current world is stored under it, and nothing else changes. |
| Table.PhysicsClient.RestoreState | temporal_policies/envs/pybullet/table_env.py:284 | A known id restores its snapshot. An unknown id is an error that leaves the world as it was. |
| Table.PhysicsClient.RemoveState | temporal_policies/envs/pybullet/table_env.py:351 | The snapshot under the id is dropped from the store, and every other snapshot is kept. |
| Table.TableEnv.constructor | temporal_policies/envs/pybullet/table_env.py:143-186 | The environment starts on the first task with its first skeleton step as the primitive. The current world is saved as the initial snapshot under a fresh id. The cache is empty, the two recorders are the given ones, and the recording text is empty. |
| Table.TableEnv.GetState | temporal_policies/envs/pybullet/table_env.py:276-279 | Exactly one new snapshot id is added to the cache, mapped to the current robot state, and to the simulator's store, mapped to the current world. |
| Table.TableEnv.SetState | temporal_policies/envs/pybullet/table_env.py:281-286 | The grasp is released and the snapshot restored, then the cached robot state. The result is always True when it succeeds. An id the simulator does not know, or one not in the cache, is an error. |
| Table.TableEnv.ClearStates | temporal_policies/envs/pybullet/table_env.py:350-352 | Every cached snapshot is removed from the simulator's store, and the cache is left empty. |
| Table.AnyObjectBelowTable | temporal_policies/envs/pybullet/table_env.py:430-434 | Some non-static object is below the table. |
| Table.AnyObjectTouchingBase | temporal_policies/envs/pybullet/table_env.py:436-444 | Some non-static object touches the robot base. |
| Table.AnyObjectMoving | temporal_policies/envs/pybullet/table_env.py:449-453 | Some non-static object is moving. |
| Table.KeepStepping | temporal_policies/envs/pybullet/table_env.py:457-463 | The loop condition of `wait_until_stable`: the first step is always taken, and later ones while under budget, below the minimum or with something moving, nothing below the table and nothing touching the base. |
| Table.Settle | temporal_policies/envs/pybullet/table_env.py:445-468 | The number of steps `wait_until_stable` takes: the first count at which the loop condition fails. |
| Table.SettleBounds | temporal_policies/envs/pybullet/table_env.py:445-468 | `wait_until_stable` takes between 1 and `max(1, max_iters)` steps. It stopped because the budget was spent, the minimum was met and nothing moved, an object is below the table, or an object touches the base. The loop condition held at every earlier count. |
| Table.TableEnv.WaitUntilStable | temporal_policies/envs/pybullet/table_env.py:445-468 | The loop takes `Settle` steps and leaves the world stepped that many times. |
| Table.SampleOne | temporal_policies/envs/pybullet/table_env.py:384-387 | One proposition is sampled at most `max_attempts` times. On success the count is between 1 and `max_attempts`; on failure it is exactly `max_attempts`. |
| Table.SampleAll | temporal_policies/envs/pybullet/table_env.py:383-391 | The `all` over the propositions, stopping at the first that fails, with the sample calls each used. |
| Table.SampleAllTrials | temporal_policies/envs/pybullet/table_env.py:383-391 | When sampling succeeds, every proposition was sampled, each within 1 to `max_attempts` calls. When it fails, the last proposition sampled used all its attempts, each one before it took 1 to `max_attempts` calls, and those after it were never sampled. |
| Table.SampleAllStopsAtFirstFailure | temporal_policies/envs/pybullet/table_env.py:383-391 | Sampling stops at the first proposition that exhausts its attempts. On failure, sampling only the propositions before that one, from the same world, succeeds with the same counts. |
| Table.TableEnv.SampleProposition | temporal_policies/envs/pybullet/table_env.py:384-387 | The `any` over `range(max_attempts)`, as a loop that stops at the first success, is `SampleOne`. |
| Table.TableEnv.SampleInitialState | temporal_policies/envs/pybullet/table_env.py:383-391 | The `all` over the propositions, as a loop that stops at the first failure, is `SampleAll`. |
| Table.Attempt | temporal_policies/envs/pybullet/table_env.py:369-404 | One attempt after the object reset: the Null-argument check, the sampling, settling with at least one step, the below-table and touching-base checks, and the final check of every proposition. |
| Table.AttemptAccepted | temporal_policies/envs/pybullet/table_env.py:369-404 | An attempt of `reset` is accepted exactly when no skeleton argument is Null, every proposition was sampled successfully, and after settling no non-static object is below the table or touches the base and every proposition's value holds. Each proposition then took 1 to `max_attempts` sample calls. |
| Table.TableEnv.TryInitialState | temporal_policies/envs/pybullet/table_env.py:369-404 | One attempt, from the object reset to the final proposition check, is `Attempt` of the reset world. |
| Table.Pass | temporal_policies/envs/pybullet/table_env.py:357-404 | One pass of the `while True` loop off the real-tracker path, from the world it starts in: robot reset, restore of the initial snapshot, object reset, then `Attempt`. |
| Table.Retried | temporal_policies/envs/pybullet/table_env.py:356-404 | The world after `k` passes, each starting where the previous one ended. |
| Table.Rejected | temporal_policies/envs/pybullet/table_env.py:356-404 | None of the first `n` passes was accepted, so the loop went on after each. |
| Table.RetryOutcome | temporal_policies/envs/pybullet/table_env.py:356-404 | How the loop ended: the last pass was accepted and all before it were rejected, or all `fuel` passes were rejected. |
| Table.RejectedStep | temporal_policies/envs/pybullet/table_env.py:356-404 | One further rejected pass extends `Rejected` by one. |
| Table.TableEnv.StartPass | temporal_policies/envs/pybullet/table_env.py:357-360 | A pass starts with a robot reset followed by a restore of the initial snapshot, which is kept. |
| Table.TableEnv.OnePass | temporal_policies/envs/pybullet/table_env.py:357-404 | A pass off the real-tracker path leaves the world and the acceptance that `Pass` gives for the world it started in. |
| Table.TableEnv.RetryPasses | temporal_policies/envs/pybullet/table_env.py:356-404 | The loop without a real tracker ends in the `RetryOutcome` of its first world: it stops at the first accepted pass, having tried again after every rejected one, or runs out after `fuel` rejected passes. |
| Table.TableEnv.Passes | temporal_policies/envs/pybullet/table_env.py:356-404 | With a real tracker and positive fuel, the first pass ends the loop: robot reset, restore, tracked-pose update. Otherwise the loop behaves as `RetryPasses`. At most `fuel` passes are made. |
| Table.TableEnv.Reset | temporal_policies/envs/pybullet/table_env.py:342-406 | The snapshot cache is emptied and its snapshots removed. The task becomes the chosen one. An empty skeleton is an IndexError that leaves the primitive and the world as they were and makes no pass. Otherwise the primitive is the first skeleton step. With a real tracker and positive fuel, one pass is made and accepted, and the world is the tracked update of the restored world. With zero fuel no pass is made and the result is `OutOfFuel`, with or without a tracker. Without one, the loop's `RetryOutcome` holds: every pass before the last was rejected, and either the last was accepted or all `fuel` were rejected (`OutOfFuel`). On acceptance the observation of the final world is returned. |
| Table.StepOutcome | temporal_policies/envs/pybullet/table_env.py:426-428 | The reward is 1.0 exactly when the primitive succeeded and 0.0 exactly when it did not. `terminated` is always the negation of `truncated`, which is passed through. |
| Table.TableEnv.Step | temporal_policies/envs/pybullet/table_env.py:408-428 | While a recorder records, the recording text becomes the formatted action; otherwise it is unchanged. The primitive is executed, and the observation of the new world is returned with `StepOutcome` of the result. |
| Table.PolicyActionCall | temporal_policies/envs/pybullet/table_env.py:266-267 | An action call is built exactly when the policy index is a valid Python index into the primitive names. |
| Table.PolicyActionCallInjective | temporal_policies/envs/pybullet/table_env.py:266-267 | Two equal action calls name the same primitive and the same argument names. This holds when primitive names contain no '(' and argument names are non-empty and contain no ','. |
| Table.PrimitiveInfo | temporal_policies/envs/pybullet/table_env.py:255-274 | A given action call is parsed. Otherwise the index and arguments are written as `name(a, b)` and parsed, and an out-of-range index is an IndexError. With neither input the result is a ValueError. |
| Table.TableEnv.SetPrimitive | temporal_policies/envs/pybullet/table_env.py:241-253 | A given primitive is installed as is. Otherwise the one `PrimitiveInfo` yields is installed; on an error the primitive is unchanged. |
| Table.TableEnv.RecordStart | temporal_policies/envs/pybullet/table_env.py:534-541 | "timelapse" starts the timelapse recorder without a frequency, and "default" starts the default recorder. The result is True exactly for these two modes; any other mode starts nothing and returns False. |
| Table.TableEnv.RecordStop | temporal_policies/envs/pybullet/table_env.py:559-564 | The recorder the mode names is stopped and its answer returned. Any other mode stops nothing and returns False. |
| Table.TableEnv.RecordSave | temporal_policies/envs/pybullet/table_env.py:581-587 | With no mode both recorders are saved, the second even when the first already saved. The result is the OR of their answers. A named mode saves only its own recorder. |
| HookReach.PhaseSkeleton | scripts/eval/task_gen/hook_reach.py:40-55 | A phase skeleton has 4 steps when it is phase 0 without a target location, and 5 in every other case. |
| HookReach.PhaseSkeletonShape | scripts/eval/task_gen/hook_reach.py:41-55 | The fixed core, in order, is pick(hook, loc), pull(box, hook), place(hook, table), pick(box, table). `loc` is `init_location_hook` in phase 0 and "table" after it. It is preceded by place(box, table) in later phases without a target, and followed by place(box, target) when there is a target. |
| HookReach.PhasePredicates | scripts/eval/task_gen/hook_reach.py:57-63 | A phase adds 4 predicates with the rack on the table and 3 without it. |
| HookReach.PhasePredicatesShape | scripts/eval/task_gen/hook_reach.py:57-63 | A phase's predicates start with free, beyondworkspace and on(box, table). nonblocking(box, rack) is among them exactly when the rack is on the table. |
| HookReach.HookReachTaskPhase | scripts/eval/task_gen/hook_reach.py:18-65 | The appending method yields `PhaseSkeleton` and `PhasePredicates` of the box `objects[phase]`. |
| HookReach.RackPredicates | scripts/eval/task_gen/hook_reach.py:100-111 | The rack predicates in order, at most three: on(rack, table) when requested or forced, inworkspace(rack) when forced, poslimit(rack) when requested. |
| HookReach.RackPredicatesMembership | scripts/eval/task_gen/hook_reach.py:100-111 | on(rack, table) is present exactly when the rack is requested or forced by the hook or the target being "rack". inworkspace(rack) is present exactly when it is forced, and poslimit(rack) exactly when requested. |
| HookReach.BasePredicates | scripts/eval/task_gen/hook_reach.py:105-111 | The predicates before any box number between 3 and 6. |
| HookReach.HookAndRackPredicates | scripts/eval/task_gen/hook_reach.py:105-111 | The appending block yields the hook predicates followed by the rack predicates in their fixed order. |
| HookReach.PlanSkeleton | scripts/eval/task_gen/hook_reach.py:114-124 | The skeleton of `n` phases has `5n - 1` steps without a target and `5n` with one. |
| HookReach.PlanSkeletonPrefix | scripts/eval/task_gen/hook_reach.py:114-124 | The skeleton of fewer phases is a prefix of the skeleton of more phases. |
| HookReach.PlanSkeletonPhase | scripts/eval/task_gen/hook_reach.py:114-124 | The plan skeleton is the phase skeletons for phases 0 to n-1, each at its place, in order. |
| HookReach.ArgPredicates | scripts/eval/task_gen/hook_reach.py:114-124 | The argument boxes add 3 or 4 predicates each. |
| HookReach.AppendArgPhases | scripts/eval/task_gen/hook_reach.py:114-124 | The loop over argument boxes yields `PlanSkeleton` and appends `ArgPredicates`. |
| HookReach.NonblockingAt | scripts/eval/task_gen/hook_reach.py:135-138 | The `i`-th nonblocking predicate of a non-argument box names the `i`-th argument box. |
| HookReach.NonArgBlockShape | scripts/eval/task_gen/hook_reach.py:134-138 | A non-argument box adds on(box, location), then one nonblocking(arg, box) per argument box in order exactly when the location is "table", and nothing more. |
| HookReach.NonArgPredicates | scripts/eval/task_gen/hook_reach.py:127-138 | The blocks of the non-argument boxes in order, each box on the location its draw picks. |
| HookReach.NonArgPredicatesWithoutRack | scripts/eval/task_gen/hook_reach.py:127-138 | Without a rack every non-argument box goes on the table, so `m` of them add `m * (1 + num_arg)` predicates. |
| HookReach.AppendNonArgBox | scripts/eval/task_gen/hook_reach.py:134-138 | The inner loop appends exactly one non-argument box's block. |
| HookReach.AppendNonArgBoxes | scripts/eval/task_gen/hook_reach.py:127-138 | The loop over non-argument boxes appends `NonArgPredicates`. |
| HookReach.HookReachTask | scripts/eval/task_gen/hook_reach.py:68-146 | Under its preconditions, the call fails, with the source's message, exactly when poslimit is asked for without a rack. Otherwise the plan skeleton is `PlanSkeleton` of the argument boxes, and the predicates are base, then argument, then non-argument predicates. `num_tasks` is passed through and `num_lifted_objects` is `num_arg + num_non_arg`. |
| Batches.MapLeaves | temporal_policies/utils/utils.py:8-55 | A leaf map keeps dict key sets and sequence lengths, turns tuples into lists, and maps every leaf. |
| Batches.MapLeavesAt | temporal_policies/utils/utils.py:8-55 | A path reaches something in the mapped batch exactly when it does in the original, and a leaf reached is the leaf function applied to the original leaf. |
| Batches.ToDevice | temporal_policies/utils/utils.py:8-15 | `to_device` keeps the shape of the batch, and a batch with a tensor still has one. |
| Batches.ToDeviceAt | temporal_policies/utils/utils.py:8-15 | Each tensor leaf is moved to the device, and every other leaf is kept. |
| Batches.ToTensor | temporal_policies/utils/utils.py:17-24 | `to_tensor` keeps the shape of the batch, and a batch with a tensor still has one. |
| Batches.ToTensorAt | temporal_policies/utils/utils.py:17-24 | Each array leaf becomes a tensor, and every other leaf is kept. |
| Batches.ToNp | temporal_policies/utils/utils.py:26-33 | `to_np` keeps the shape of the batch and leaves no tensor in it. |
| Batches.ToNpAt | temporal_policies/utils/utils.py:26-33 | Each tensor leaf becomes an array, and every other leaf is kept. |
| Batches.Unsqueeze | temporal_policies/utils/utils.py:35-44 | `unsqueeze` keeps the shape of the batch, and a batch with a tensor still has one. |
| Batches.UnsqueezeAt | temporal_policies/utils/utils.py:35-44 | Each array gets `expand_dims` and each tensor `unsqueeze` at `dim`, and other leaves are kept. |
| Batches.Squeeze | temporal_policies/utils/utils.py:46-55 | `squeeze` keeps the shape of the batch, and a batch with a tensor still has one. |
| Batches.SqueezeAt | temporal_policies/utils/utils.py:46-55 | Each array and each tensor is squeezed at `dim`, and other leaves are kept. |
| Batches.GetFromBatch | temporal_policies/utils/utils.py:57-67 | `get_from_batch` keeps the shape of the batch, and a batch with a tensor still has one. |
| Batches.GetFromBatchAt | temporal_policies/utils/utils.py:57-67 | Each array or tensor leaf is indexed at `start` when `end` is None and sliced `[start:end]` otherwise. Other leaves are unchanged. |
| Batches.ContainsTensors | temporal_policies/utils/utils.py:69-77 | `contains_tensors`: a dict or list holds a tensor when one of its elements does, a tensor leaf is one, and any other leaf or a tuple is not. |
| Batches.ContainsTensorsIffReachable | temporal_policies/utils/utils.py:69-77 | `contains_tensors` is true exactly when a tensor leaf is reachable through dicts and lists only. Tuples are never entered. |
| Batches.ReachableTensor | temporal_policies/utils/utils.py:69-77 | A batch for which `contains_tensors` holds has a tensor at the end of some dict/list path. |
| Batches.TensorAtContains | temporal_policies/utils/utils.py:69-77 | A tensor at the end of a dict/list path makes `contains_tensors` true. |
| Batches.KeepsTensors | temporal_policies/utils/utils.py:8-24 | A leaf map that keeps tensors tensors keeps `contains_tensors` true. |
| Batches.DropsTensors | temporal_policies/utils/utils.py:26-33 | A leaf map that never yields a tensor makes `contains_tensors` false. |
| Batches.Lookup | temporal_policies/utils/utils.py:101-104 | One step of the dotted-key walk: a dict with the key yields its value. A dict without it is a KeyError naming the key, and a non-dict is a lookup error naming the key. |
| Batches.Resolve | temporal_policies/utils/utils.py:99-104 | A dotted key resolves by walking its components from the top-level dict, failing at the first missing one. |
| Batches.KeyPath | temporal_policies/utils/utils.py:99-104 | The path of a dotted key is one dict step per component, in order. |
| Batches.ResolveAt | temporal_policies/utils/utils.py:99-104 | A dotted key "a.b.c" resolves exactly when the path `["a"]["b"]["c"]` exists, and then to what is found there. |
| Batches.FetchFromDict | temporal_policies/utils/utils.py:89-107 | The fetch succeeds exactly when every key resolves. A single key, or a one-element list, gives the bare value; otherwise the values come in key order. A failure reports the first key that does not resolve. |
| Strings.Join | temporal_policies/envs/pybullet/table_env.py:266 | `sep.join(pieces)`: the pieces with `sep` between neighbours. |
| Strings.Call | temporal_policies/envs/pybullet/table_env.py:266-267 | The action-call string `name(a, b)`. |
| Strings.Split | temporal_policies/utils/utils.py:99 | `s.split(c)` has at least one piece, and no piece contains `c`. |
| Strings.JoinSplit | temporal_policies/utils/utils.py:99 | Joining the pieces of `s.split(c)` with `c` gives back `s`. |
| Strings.SplitJoin | temporal_policies/utils/utils.py:99 | Splitting a join of one or more pieces free of `c` gives back the pieces. |
| Strings.JoinInjective | temporal_policies/envs/pybullet/table_env.py:266 | A ", "-join of non-empty, comma-free names determines the names. |
| Strings.CallInjective | temporal_policies/envs/pybullet/table_env.py:266-267 | `name(args)` with a name free of '(' and non-empty, comma-free arguments determines the name and the arguments. |

## Left out

- Physics, robot control, object poses and twists, contact queries and the primitives' and propositions' own logic. These are foreign calls; they are oracles in `Engine` and are not modelled.
- `render`, the camera views, the text overlay, `add_frame` and the internals of the recorders. These are rendering and video I/O; the recorders are the `RecorderOps` oracles.
- `step_simulation`'s object-tracker and Redis pose broadcast. This is external I/O. A step is the `Engine.step` oracle, which covers the arm and gripper torque updates and `stepSimulation`.
- `set_observation`, `load_config`, `render`, `get_primitive`, `Task.create`, `VariantTableEnv` and hook_reach's `main`. These are I/O, file reading or plain delegation.
- `Table.TableEnv.constructor`: only the bookkeeping of `__init__` is modelled (tasks, first task and primitive, initial snapshot, empty cache, recorders). It requires a first task with a non-empty skeleton, where the source would raise IndexError.
- `Table.TableEnv.Reset`: the retry loop has no bound in the source. Here it runs at most `fuel` times, and running out is the `OutOfFuel` error. This holds on the real-tracker path too: with `fuel` 0 no pass is made and the result is `OutOfFuel`, where the source always makes one pass. `random.choice` is the parameter `taskIdx`. Whether the last pass was accepted and how many passes were made are ghost out-parameters.
- `Table.TableEnv.Reset`: `max_attempts` below zero samples nothing, as `range` does, and is read as 0.
- `math.PYBULLET_TIMESTEP` is not part of this model, so the default `max_iters` of `wait_until_stable` is the field `defaultMaxIters`.
- `Table.ObservationLayout`, `Table.ObjectStatesLayout` and `Table.StatesAfterPrefix` assume distinct object names, none equal to the end-effector key. Distinct names hold in the source, because its objects come from a dict keyed by name. Excluding the end-effector key is an assumption of this model only: nothing in the source stops an object from being named `TableEnv.robot.arm.ee_pose` (table_env.py:336). `Table.TableEnv.ObjectStates` and `Table.TableEnv.GetObservation` need no such assumption.
- Dicts are ordered `seq<Entry>` values, or `map`s where order does not matter (the snapshot cache, `Batches.Batch` dicts).
- The `str()` conversion of numpy ids in `record_start` and `record_stop`, and the `.2f` formatting of actions in `step`, are part of the oracles (`formatAction`, the recorder functions).
- `get_arg_indices`' `idx_policy` argument is unused in the source and is ignored here too.
- `Table.TableEnv.SetState`: the state argument is the snapshot id itself, not a one-element array.
- `HookReach.HookReachTask`: `random.randint` results are the parameter `draws`, one per non-argument box, required to be valid indices into `locations`. The ValueError that `randint` raises for an empty `locations` is therefore not modelled. `LOCATIONS` is the parameter `knownLocations`. The assertions of hook_reach.py:96-97 (a known hook location, at least one argument box, and no more boxes than objects) raise AssertionError in the source; here they are preconditions.
- `Batches.FetchFromDict`: a failing lookup is an `Err` naming the key, not a raised `KeyError`/`TypeError`. Dict iteration order is not modelled.
- The leaf operations of the batch maps (`torch.from_numpy`, `.to(device)`, numpy and torch indexing) are function parameters.
