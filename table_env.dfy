/**
 * The bookkeeping and control flow of the table-top manipulation environment
 * (temporal_policies/envs/pybullet/table_env.py).
 *
 * The physics simulation, the robot controller, the predicates, the
 * primitives and the video recorders are oracles: the `Engine` and
 * `RecorderOps` datatypes hold them as total functions over opaque states.
 * What is modelled is the logic around them: the observation layout, the
 * argument-row permutation, the saved-state cache, the `reset` retry loop
 * with its bounded sampling, the `wait_until_stable` loop, the result of
 * `step` and the recording-mode dispatch.
 */
module Table {
  import opened Wrappers
  import opened Strings
  import opened Seqs

  /** Number of rows of the observation matrix. */
  const MAX_NUM_OBJECTS: nat := 5
  /** Row of the end-effector in the observation matrix. */
  const EE_OBSERVATION_IDX: nat := 0
  /** The key under which `object_states` files the end-effector pose. */
  const EE_KEY: string := "TableEnv.robot.arm.ee_pose"

  /** Everything the simulation and the robot controller hold at one time. */
  type World
  /** What `robot.get_state()` returns. */
  type RobotState
  /** The low-dimensional state of one object: one row of the observation. */
  type StateVector
  /** An initial-state proposition of a task. */
  type Proposition
  /** A policy action handed to `step`. */
  type Action
  /** The state of one video recorder. */
  type RecorderState

  /** A scene object: its name, its position among the objects and whether it is fixed. */
  datatype Object = Object(name: string, idxObject: int, isStatic: bool)

  /** A primitive of the action skeleton and the objects it acts on. */
  datatype Primitive = Primitive(idxPolicy: int, policyArgs: seq<Object>)

  /** A task: its action skeleton and its initial-state propositions. */
  datatype Task = Task(actionSkeleton: seq<Primitive>, initialState: seq<Proposition>)

  /** What executing a primitive reports. */
  datatype ExecResult = ExecResult(success: bool, truncated: bool)

  /** The exceptions the modelled code can raise, and running out of fuel. */
  datatype EnvError =
    | IndexError
    | KeyError
    | ValueError
    | NotImplementedError
    | UnknownStateId
    | OutOfFuel

  /** One entry of the ordered dictionary `object_states` returns. */
  datatype Entry = Entry(key: string, state: StateVector)

  /**
   * The simulation and robot oracles. `step` is one control step
   * (arm and gripper torque updates, then `stepSimulation`); `restore`
   * puts a saved simulation state under the current controller state;
   * `sample` may move objects and reports whether it succeeded.
   */
  datatype Engine = Engine(
    step: World -> World,
    restore: (World, World) -> World,
    robotState: World -> RobotState,
    setRobotState: (World, RobotState) -> World,
    releaseGrasp: World -> World,
    resetRobot: World -> World,
    resetObjects: World -> World,
    updateTrackedPoses: World -> World,
    isNull: (World, Object) -> bool,
    sample: (World, Proposition, seq<Proposition>) -> (bool, World),
    value: (World, Proposition, seq<Proposition>) -> bool,
    isBelowTable: (World, Object) -> bool,
    isTouchingBase: (World, Object) -> bool,
    isMoving: (World, Object) -> bool,
    eeState: World -> StateVector,
    objectState: (World, Object) -> StateVector,
    zeroRow: StateVector,
    execute: (World, Primitive, Action) -> (ExecResult, World),
    formatAction: (Primitive, Action) -> seq<string>,
    fromActionCall: (string, seq<string>, seq<Object>) -> Result<Primitive, EnvError>)

  /** The recorder oracles: `start(state, prependId, frequency)`, `stop(state, saveId)`, `save(state, path, reset)`. */
  datatype RecorderOps = RecorderOps(
    isRecording: RecorderState -> bool,
    start: (RecorderState, Option<string>, Option<int>) -> RecorderState,
    stop: (RecorderState, Option<string>) -> (bool, RecorderState),
    save: (RecorderState, string, bool) -> (bool, RecorderState))

  function Max(a: int, b: int): int
  {
    if a < b then b else a
  }

  // ---------------------------------------------------------------------
  // Python list indexing
  // ---------------------------------------------------------------------

  /** The position `xs[i]` reads in a list of length `n`; a negative `i` counts from the end. */
  function PyIndex(i: int, n: nat): (r: Option<nat>)
    ensures r.Some? <==> 0 <= i + n && i < n
    ensures r.Some? ==> r.value < n && r.value % n == i % n
  {
    if 0 <= i < n then Some(i) else if 0 <= i + n && i < 0 then Some(i + n) else None
  }

  // ---------------------------------------------------------------------
  // get_arg_indices
  // ---------------------------------------------------------------------

  /** `[i for i in range(n) if i != skip]`. */
  function RowsExcept(n: nat, skip: nat): (r: seq<nat>)
    ensures |r| == if skip < n then n - 1 else n
    ensures forall j :: 0 <= j < |r| ==> r[j] == if j < skip then j else j + 1
  {
    if n == 0 then []
    else if n - 1 == skip then RowsExcept(n - 1, skip)
    else RowsExcept(n - 1, skip) + [n - 1]
  }

  /** The observation rows of the objects: every row but the end-effector's. */
  function ObjectIndices(): (r: seq<nat>)
    ensures |r| == MAX_NUM_OBJECTS - 1
    ensures forall j :: 0 <= j < |r| ==> r[j] == j + 1
  {
    RowsExcept(MAX_NUM_OBJECTS, EE_OBSERVATION_IDX)
  }

  /** The row of a policy argument: `object_indices[obj.idx_object]`. */
  function ArgRow(obj: Object): (r: Option<nat>)
    ensures r.Some? ==> EE_OBSERVATION_IDX < r.value < MAX_NUM_OBJECTS
  {
    match PyIndex(obj.idxObject, |ObjectIndices()|)
    case None => None
    case Some(j) => Some(ObjectIndices()[j])
  }

  /** The rows of all policy arguments, in order; `None` when one of them is out of range. */
  function ArgRows(args: seq<Object>): (r: Option<seq<nat>>)
    ensures r.Some? <==> forall k :: 0 <= k < |args| ==> ArgRow(args[k]).Some?
    ensures r.Some? ==> |r.value| == |args| && forall k :: 0 <= k < |args| ==> r.value[k] == ArgRow(args[k]).value
  {
    if args == [] then Some([])
    else
      match ArgRows(args[..|args| - 1])
      case None => None
      case Some(rows) =>
        match ArgRow(args[|args| - 1])
        case None => None
        case Some(row) => Some(rows + [row])
  }

  /** The rows below `n` that `used` does not mention, in ascending order. */
  function Unused(used: seq<nat>, n: nat): (r: seq<nat>)
    ensures forall j :: 0 <= j < |r| ==> r[j] < n && r[j] !in used
    ensures forall i :: 0 <= i < n && i !in used ==> i in r
    ensures forall j, k :: 0 <= j < k < |r| ==> r[j] < r[k]
  {
    if n == 0 then [] else Unused(used, n - 1) + (if n - 1 in used then [] else [n - 1])
  }

  /** `[i for i in xs if i is not None]`. */
  function Present(xs: seq<Option<nat>>): seq<nat>
  {
    if xs == [] then []
    else Present(xs[..|xs| - 1]) + (if xs[|xs| - 1].Some? then [xs[|xs| - 1].value] else [])
  }

  /** Rows struck out exactly where `used` mentions them leave the unused rows in ascending order. */
  lemma {:induction false} PresentUnused(xs: seq<Option<nat>>, used: seq<nat>, n: nat)
    requires n <= |xs|
    requires forall i :: 0 <= i < |xs| ==> xs[i] == if i in used then None else Some(i)
    ensures Present(xs[..n]) == Unused(used, n)
  {
    if n > 0 {
      PresentUnused(xs, used, n - 1);
      assert xs[..n][..n - 1] == xs[..n - 1];
    }
  }

  /**
   * `get_arg_indices`: the end-effector row, then the row of each policy
   * argument, then every other row in ascending order.
   */
  function ArgIndices(args: seq<Object>): Result<seq<nat>, EnvError>
  {
    match ArgRows(args)
    case None => Err(IndexError)
    case Some(rows) => Ok([EE_OBSERVATION_IDX] + rows + Unused([EE_OBSERVATION_IDX] + rows, MAX_NUM_OBJECTS))
  }

  /**
   * `list(range(MAX_NUM_OBJECTS))` with every row of `used` set to None, as
   * the marking loop of `get_arg_indices` leaves it.
   */
  method StrikeOut(used: seq<nat>) returns (others: array<Option<nat>>)
    requires forall k :: 0 <= k < |used| ==> used[k] < MAX_NUM_OBJECTS
    ensures fresh(others) && others.Length == MAX_NUM_OBJECTS
    ensures forall i :: 0 <= i < MAX_NUM_OBJECTS ==> others[i] == if i in used then None else Some(i)
  {
    others := new Option<nat>[MAX_NUM_OBJECTS](i => Some(i));
    for k := 0 to |used|
      invariant forall i :: 0 <= i < MAX_NUM_OBJECTS ==> others[i] == if i in used[..k] then None else Some(i)
    {
      assert used[..k + 1] == used[..k] + [used[k]];
      others[used[k]] := None;
    }
    assert used[..|used|] == used;
  }

  predicate Distinct<T(==)>(s: seq<T>)
  {
    forall i, j :: 0 <= i < j < |s| ==> s[i] != s[j]
  }

  /** The elements of a sequence. */
  function Elems<T(!new)>(s: seq<T>): (r: set<T>)
    ensures forall x :: x in r <==> x in s
  {
    if s == [] then {} else Elems(s[..|s| - 1]) + {s[|s| - 1]}
  }

  /** The naturals below `n`. */
  function Below(n: nat): (r: set<nat>)
    ensures forall i :: i in r <==> 0 <= i < n
  {
    if n == 0 then {} else Below(n - 1) + {n - 1}
  }

  /** A sequence without repeats has as many elements as its set. */
  lemma {:induction false} DistinctCard<T(!new)>(s: seq<T>)
    requires Distinct(s)
    ensures |Elems(s)| == |s|
  {
    if s != [] {
      var init := s[..|s| - 1];
      DistinctCard(init);
      assert s[|s| - 1] !in init;
    }
  }

  /** There are `n` naturals below `n`. */
  lemma {:induction false} BelowCard(n: nat)
    ensures |Below(n)| == n
  {
    if n > 0 {
      BelowCard(n - 1);
      var b := Below(n - 1);
      assert n - 1 !in b;
      assert |b + {n - 1}| == |b| + 1;
    }
  }

  /** A repeat-free sequence of naturals that are exactly those below `n` has length `n`. */
  lemma {:induction false} DistinctRangeLength(s: seq<nat>, n: nat)
    requires Distinct(s)
    requires forall j :: 0 <= j < |s| ==> s[j] < n
    requires forall i :: 0 <= i < n ==> i in s
    ensures |s| == n
  {
    DistinctCard(s);
    BelowCard(n);
    assert Elems(s) == Below(n);
  }

  /**
   * With distinct in-range object indices, `get_arg_indices` is a
   * permutation of the observation rows: the end-effector row first, then
   * `idx_object + 1` for each argument in order, then the unused rows in
   * ascending order.
   */
  lemma {:induction false} ArgIndicesPermutation(args: seq<Object>)
    requires forall k :: 0 <= k < |args| ==> 0 <= args[k].idxObject < MAX_NUM_OBJECTS - 1
    requires forall k, l :: 0 <= k < l < |args| ==> args[k].idxObject != args[l].idxObject
    ensures ArgIndices(args).Ok?
    ensures var r := ArgIndices(args).value;
      && |r| == MAX_NUM_OBJECTS
      && r[0] == EE_OBSERVATION_IDX
      && (forall k :: 0 <= k < |args| ==> r[1 + k] == args[k].idxObject + 1)
      && (forall j, k :: 1 + |args| <= j < k < |r| ==> r[j] < r[k])
      && Distinct(r)
      && (forall i :: 0 <= i < MAX_NUM_OBJECTS ==> i in r)
  {
    ArgRowsShift(args);
    var rows := ArgRows(args).value;
    ShiftedRows(rows, args);
    UsedThenUnused([EE_OBSERVATION_IDX] + rows, MAX_NUM_OBJECTS);
  }

  /** An in-range object index selects the row after the end-effector's. */
  lemma ArgRowShift(obj: Object)
    requires 0 <= obj.idxObject < MAX_NUM_OBJECTS - 1
    ensures ArgRow(obj) == Some(obj.idxObject + 1)
  {
    assert PyIndex(obj.idxObject, |ObjectIndices()|) == Some(obj.idxObject);
  }

  /** In-range object indices select the rows after the end-effector's, in order. */
  lemma {:induction false} ArgRowsShift(args: seq<Object>)
    requires forall k :: 0 <= k < |args| ==> 0 <= args[k].idxObject < MAX_NUM_OBJECTS - 1
    requires forall k, l :: 0 <= k < l < |args| ==> args[k].idxObject != args[l].idxObject
    ensures ArgRows(args).Some?
    ensures |ArgRows(args).value| == |args|
    ensures forall k :: 0 <= k < |args| ==> ArgRows(args).value[k] == args[k].idxObject + 1
  {
    forall k | 0 <= k < |args|
      ensures ArgRow(args[k]) == Some(args[k].idxObject + 1)
    {
      ArgRowShift(args[k]);
    }
  }

  /** Rows one past distinct in-range object indices, after the end-effector row, are in range and have no repeats. */
  lemma ShiftedRows(rows: seq<nat>, args: seq<Object>)
    requires |rows| == |args|
    requires forall k :: 0 <= k < |args| ==> rows[k] == args[k].idxObject + 1
    requires forall k :: 0 <= k < |args| ==> 0 <= args[k].idxObject < MAX_NUM_OBJECTS - 1
    requires forall k, l :: 0 <= k < l < |args| ==> args[k].idxObject != args[l].idxObject
    ensures var used := [EE_OBSERVATION_IDX] + rows;
      && Distinct(used)
      && (forall j :: 0 <= j < |used| ==> used[j] < MAX_NUM_OBJECTS)
      && (forall k :: 0 <= k < |args| ==> used[1 + k] == args[k].idxObject + 1)
  {
    var used := [EE_OBSERVATION_IDX] + rows;
    forall i, j | 0 <= i < j < |used|
      ensures used[i] != used[j]
    {
      assert used[j] == rows[j - 1];
      if i > 0 {
        assert used[i] == rows[i - 1];
      }
    }
  }

  /**
   * Repeat-free rows below `n` followed by the unused rows below `n` are
   * the rows below `n` without repeats: a permutation of them.
   */
  lemma {:induction false} UsedThenUnused(used: seq<nat>, n: nat)
    requires Distinct(used)
    requires forall j :: 0 <= j < |used| ==> used[j] < n
    ensures var r := used + Unused(used, n);
      && Distinct(r)
      && (forall i :: 0 <= i < n ==> i in r)
      && |r| == n
  {
    var others := Unused(used, n);
    var r := used + others;
    DistinctConcat(used, others);
    forall i | 0 <= i < n
      ensures i in r
    {
      if i !in used {
        assert i in others;
      }
    }
    DistinctRangeLength(r, n);
  }

  /** Two repeat-free sequences with no common element concatenate to a repeat-free one. */
  lemma {:induction false} DistinctConcat(a: seq<nat>, b: seq<nat>)
    requires Distinct(a)
    requires forall j, k :: 0 <= j < k < |b| ==> b[j] < b[k]
    requires forall j :: 0 <= j < |b| ==> b[j] !in a
    ensures Distinct(a + b)
  {
    forall i, j | 0 <= i < j < |a + b|
      ensures (a + b)[i] != (a + b)[j]
    {
      if i < |a| && j >= |a| {
        assert (a + b)[j] == b[j - |a|];
      }
    }
  }

  // ---------------------------------------------------------------------
  // object_states and get_observation
  // ---------------------------------------------------------------------

  /** The keys of an ordered dictionary, in order. */
  function Keys(d: seq<Entry>): seq<string>
  {
    seq(|d|, i requires 0 <= i < |d| => d[i].key)
  }

  /** The values of an ordered dictionary, in order. */
  function Values(d: seq<Entry>): seq<StateVector>
  {
    seq(|d|, i requires 0 <= i < |d| => d[i].state)
  }

  /** `d[key] = value`: an existing key keeps its place and takes the value, a new one goes last. */
  function Assign(d: seq<Entry>, key: string, value: StateVector): seq<Entry>
  {
    if d == [] then [Entry(key, value)]
    else if d[0].key == key then [Entry(key, value)] + d[1..]
    else [d[0]] + Assign(d[1..], key, value)
  }

  /** Assigning under a key the dictionary does not have appends the entry. */
  lemma {:induction false} AssignAppends(d: seq<Entry>, key: string, value: StateVector)
    requires key !in Keys(d)
    ensures Assign(d, key, value) == d + [Entry(key, value)]
  {
    if d != [] {
      assert Keys(d)[0] == d[0].key;
      assert Keys(d[1..]) == Keys(d)[1..];
      AssignAppends(d[1..], key, value);
      assert [d[0]] + (d[1..] + [Entry(key, value)]) == d + [Entry(key, value)];
    }
  }

  /** Assigning under a key the dictionary has keeps its keys as they are. */
  lemma {:induction false} AssignKeepsKeys(d: seq<Entry>, key: string, value: StateVector)
    requires key in Keys(d)
    ensures Keys(Assign(d, key, value)) == Keys(d)
  {
    assert Keys(d)[0] == d[0].key;
    if d[0].key != key {
      assert Keys(d[1..]) == Keys(d)[1..];
      AssignKeepsKeys(d[1..], key, value);
      assert Keys(Assign(d, key, value)) == [d[0].key] + Keys(Assign(d[1..], key, value));
    }
  }

  /** The objects are filed under distinct names, as the keys of a dictionary are. */
  predicate DistinctNames(objects: seq<Object>)
  {
    Distinct(Names(objects))
  }

  /** No object is filed under the end-effector key. */
  predicate NoObjectNamedEE(objects: seq<Object>)
  {
    forall i :: 0 <= i < |objects| ==> objects[i].name != EE_KEY
  }

  /**
   * The dictionary `object_states` has built after visiting the first `n`
   * objects: before the first object it files the end-effector pose, and
   * each object is assigned under its name.
   */
  function StatesAfter(engine: Engine, objects: seq<Object>, w: World, n: nat): seq<Entry>
    requires n <= |objects|
  {
    if n == 0 then []
    else
      var prev := StatesAfter(engine, objects, w, n - 1);
      var withEE := if n - 1 == EE_OBSERVATION_IDX then Assign(prev, EE_KEY, engine.eeState(w)) else prev;
      Assign(withEE, objects[n - 1].name, engine.objectState(w, objects[n - 1]))
  }

  /** The ordered dictionary `object_states` returns. */
  function ObjectStatesOf(engine: Engine, objects: seq<Object>, w: World): seq<Entry>
  {
    StatesAfter(engine, objects, w, |objects|)
  }

  /**
   * The layout of the object states for distinct names none of which is
   * the end-effector key: the end-effector entry first, then every object
   * in order; nothing at all when there are no objects.
   */
  function StateEntries(engine: Engine, objects: seq<Object>, w: World): (r: seq<Entry>)
    ensures |r| == if objects == [] then 0 else |objects| + 1
  {
    if objects == [] then [] else [Entry(EE_KEY, engine.eeState(w))] + ObjectEntries(engine, objects, w)
  }

  /** Each object under its own name, in order. */
  function ObjectEntries(engine: Engine, objects: seq<Object>, w: World): (r: seq<Entry>)
    ensures |r| == |objects|
    ensures forall k :: 0 <= k < |objects| ==> r[k] == Entry(objects[k].name, engine.objectState(w, objects[k]))
  {
    if objects == [] then []
    else
      var last := objects[|objects| - 1];
      ObjectEntries(engine, objects[..|objects| - 1], w) + [Entry(last.name, engine.objectState(w, last))]
  }

  /**
   * `object_states` puts the end-effector entry first, immediately before
   * the first object, and only when there is at least one object; every
   * object follows under its own name, in order.
   */
  lemma ObjectStatesLayout(engine: Engine, objects: seq<Object>, w: World)
    requires DistinctNames(objects) && NoObjectNamedEE(objects)
    ensures ObjectStatesOf(engine, objects, w) == StateEntries(engine, objects, w)
  {
    StatesAfterPrefix(engine, objects, w, |objects|);
    assert objects[..|objects|] == objects;
  }

  lemma {:induction false} StatesAfterPrefix(engine: Engine, objects: seq<Object>, w: World, n: nat)
    requires n <= |objects|
    requires DistinctNames(objects) && NoObjectNamedEE(objects)
    ensures StatesAfter(engine, objects, w, n) == StateEntries(engine, objects[..n], w)
  {
    if n == 1 {
      var withEE := Assign([], EE_KEY, engine.eeState(w));
      assert Keys(withEE) == [EE_KEY];
      AssignAppends(withEE, objects[0].name, engine.objectState(w, objects[0]));
    } else if n > 1 {
      StatesAfterPrefix(engine, objects, w, n - 1);
      NameNotBefore(objects, n - 1);
      StatesAfterStep(engine, objects, w, n);
    }
  }

  /** Visiting one more object, whose name is new, appends its entry. */
  lemma StatesAfterStep(engine: Engine, objects: seq<Object>, w: World, n: nat)
    requires 1 < n <= |objects|
    requires objects[n - 1].name !in [EE_KEY] + Names(objects[..n - 1])
    requires StatesAfter(engine, objects, w, n - 1) == StateEntries(engine, objects[..n - 1], w)
    ensures StatesAfter(engine, objects, w, n) == StateEntries(engine, objects[..n], w)
  {
    var prev := StatesAfter(engine, objects, w, n - 1);
    var last := objects[n - 1];
    StateEntriesSnoc(engine, objects[..n], w);
    assert objects[..n][..n - 1] == objects[..n - 1];
    StateEntriesKeys(engine, objects[..n - 1], w);
    AssignAppends(prev, last.name, engine.objectState(w, last));
  }

  /** The keys of the layout are the end-effector key and then the object names. */
  lemma StateEntriesKeys(engine: Engine, objects: seq<Object>, w: World)
    requires objects != []
    ensures Keys(StateEntries(engine, objects, w)) == [EE_KEY] + Names(objects)
  {
  }

  /** With distinct names, none of which is the end-effector key, an object's name is not among the keys before it. */
  lemma NameNotBefore(objects: seq<Object>, k: nat)
    requires k < |objects|
    requires DistinctNames(objects) && NoObjectNamedEE(objects)
    ensures objects[k].name !in [EE_KEY] + Names(objects[..k])
  {
    assert Names(objects)[k] == objects[k].name;
    forall i | 0 <= i < k
      ensures Names(objects[..k])[i] != objects[k].name
    {
      assert Names(objects[..k])[i] == Names(objects)[i];
    }
  }

  /** One more object adds its entry at the end of the layout. */
  lemma StateEntriesSnoc(engine: Engine, objects: seq<Object>, w: World)
    requires |objects| >= 2
    ensures var last := objects[|objects| - 1];
      StateEntries(engine, objects, w)
      == StateEntries(engine, objects[..|objects| - 1], w) + [Entry(last.name, engine.objectState(w, last))]
  {
    var last := objects[|objects| - 1];
    var ee := [Entry(EE_KEY, engine.eeState(w))];
    var init := ObjectEntries(engine, objects[..|objects| - 1], w);
    AppendAssoc(ee, init, [Entry(last.name, engine.objectState(w, last))]);
  }

  /**
   * `get_observation` on given entries: entry `i` in row `i` of a
   * `MAX_NUM_OBJECTS`-row matrix, later rows zero; writing a row past the
   * last raises `IndexError`.
   */
  function Observation(rows: seq<StateVector>, zero: StateVector): Result<seq<StateVector>, EnvError>
  {
    if |rows| > MAX_NUM_OBJECTS then Err(IndexError)
    else Ok(seq(MAX_NUM_OBJECTS, i requires 0 <= i < MAX_NUM_OBJECTS => if i < |rows| then rows[i] else zero))
  }

  /** What `get_observation` returns for a world. */
  function ObservationOf(engine: Engine, objects: seq<Object>, w: World): Result<seq<StateVector>, EnvError>
  {
    Observation(Values(ObjectStatesOf(engine, objects, w)), engine.zeroRow)
  }

  /**
   * The observation of a world: the end-effector in row 0 and object `k`
   * in row `k + 1`, when there are objects, and zero rows after them; too
   * many objects for the matrix is an `IndexError`.
   */
  lemma ObservationLayout(engine: Engine, objects: seq<Object>, w: World)
    requires DistinctNames(objects) && NoObjectNamedEE(objects)
    ensures var r := ObservationOf(engine, objects, w);
      && (r.Ok? <==> |objects| < MAX_NUM_OBJECTS)
      && (r.Ok? ==> |r.value| == MAX_NUM_OBJECTS)
      && (r.Ok? && objects != [] ==> r.value[EE_OBSERVATION_IDX] == engine.eeState(w))
      && (r.Ok? ==> forall k :: 0 <= k < |objects| ==> r.value[k + 1] == engine.objectState(w, objects[k]))
      && (r.Ok? ==> forall i :: (if objects == [] then 0 else |objects| + 1) <= i < MAX_NUM_OBJECTS ==> r.value[i] == engine.zeroRow)
  {
    ObjectStatesLayout(engine, objects, w);
  }

  // ---------------------------------------------------------------------
  // Checks over all objects
  // ---------------------------------------------------------------------

  /** `_is_any_object_below_table`. */
  predicate AnyObjectBelowTable(engine: Engine, objects: seq<Object>, w: World)
  {
    exists k :: 0 <= k < |objects| && !objects[k].isStatic && engine.isBelowTable(w, objects[k])
  }

  /** `_is_any_object_touching_base`. */
  predicate AnyObjectTouchingBase(engine: Engine, objects: seq<Object>, w: World)
  {
    exists k :: 0 <= k < |objects| && !objects[k].isStatic && engine.isTouchingBase(w, objects[k])
  }

  /** `is_any_object_moving` inside `wait_until_stable`. */
  predicate AnyObjectMoving(engine: Engine, objects: seq<Object>, w: World)
  {
    exists k :: 0 <= k < |objects| && !objects[k].isStatic && engine.isMoving(w, objects[k])
  }

  /** Whether some argument of some skeleton primitive is a `Null` object. */
  predicate AnySkeletonArgNull(engine: Engine, task: Task, w: World)
  {
    exists i, j :: 0 <= i < |task.actionSkeleton| && 0 <= j < |task.actionSkeleton[i].policyArgs|
      && engine.isNull(w, task.actionSkeleton[i].policyArgs[j])
  }

  /** Whether every initial-state proposition of the task holds. */
  predicate AllPropositionsHold(engine: Engine, task: Task, w: World)
  {
    forall i :: 0 <= i < |task.initialState| ==> engine.value(w, task.initialState[i], task.initialState)
  }

  // ---------------------------------------------------------------------
  // wait_until_stable
  // ---------------------------------------------------------------------

  /** The world after `n` control steps. */
  function Stepped(engine: Engine, w: World, n: nat): World
  {
    if n == 0 then w else engine.step(Stepped(engine, w, n - 1))
  }

  /** The loop condition of `wait_until_stable` after `n` steps. */
  predicate KeepStepping(engine: Engine, objects: seq<Object>, w: World, n: nat, minIters: int, maxIters: int)
  {
    n == 0
    || (n < maxIters
        && (n < minIters || AnyObjectMoving(engine, objects, w))
        && !AnyObjectBelowTable(engine, objects, w)
        && !AnyObjectTouchingBase(engine, objects, w))
  }

  /** How many steps `wait_until_stable` takes from `w`, counting on from `n` steps already taken. */
  function Settle(engine: Engine, objects: seq<Object>, w: World, n: nat, minIters: int, maxIters: int): nat
    requires n <= Max(1, maxIters)
    decreases Max(1, maxIters) - n
  {
    if KeepStepping(engine, objects, Stepped(engine, w, n), n, minIters, maxIters)
    then Settle(engine, objects, w, n + 1, minIters, maxIters)
    else n
  }

  /**
   * `wait_until_stable` takes between one and `max(1, max_iters)` steps; it
   * stops at the first count where stepping on is not called for, that is
   * when the budget is spent, when the minimum is met and nothing moves,
   * or when an object is below the table or touches the robot base.
   */
  lemma SettleBounds(engine: Engine, objects: seq<Object>, w: World, minIters: int, maxIters: int)
    ensures var n := Settle(engine, objects, w, 0, minIters, maxIters);
      var final := Stepped(engine, w, n);
      && 1 <= n <= Max(1, maxIters)
      && (|| n >= maxIters
          || (n >= minIters && !AnyObjectMoving(engine, objects, final))
          || AnyObjectBelowTable(engine, objects, final)
          || AnyObjectTouchingBase(engine, objects, final))
      && forall k :: 0 <= k < n ==> KeepStepping(engine, objects, Stepped(engine, w, k), k, minIters, maxIters)
  {
    SettleFrom(engine, objects, w, 0, minIters, maxIters);
  }

  lemma {:induction false} SettleFrom(engine: Engine, objects: seq<Object>, w: World, n: nat, minIters: int, maxIters: int)
    requires n <= Max(1, maxIters)
    ensures var r := Settle(engine, objects, w, n, minIters, maxIters);
      && n <= r <= Max(1, maxIters)
      && !KeepStepping(engine, objects, Stepped(engine, w, r), r, minIters, maxIters)
      && forall k :: n <= k < r ==> KeepStepping(engine, objects, Stepped(engine, w, k), k, minIters, maxIters)
    decreases Max(1, maxIters) - n
  {
    if KeepStepping(engine, objects, Stepped(engine, w, n), n, minIters, maxIters) {
      SettleFrom(engine, objects, w, n + 1, minIters, maxIters);
    }
  }

  /** Whether an attempt of `reset` was accepted, and the world it ends in. */
  datatype Attempted = Attempted(accepted: bool, world: World)

  /**
   * One pass of the `reset` loop after the robot, the simulation and the
   * objects have been reset to `w`: give up on a Null skeleton argument,
   * sample the initial state, let the objects settle for at least one step,
   * give up if an object fell below the table or touches the robot base,
   * and accept when every proposition holds.
   */
  function Attempt(engine: Engine, objects: seq<Object>, task: Task, w: World, maxAttempts: nat, maxIters: int): Attempted
  {
    if AnySkeletonArgNull(engine, task, w) then Attempted(false, w)
    else
      var s := SampleAll(engine, w, task.initialState, task.initialState, maxAttempts);
      if !s.ok then Attempted(false, s.world)
      else
        var settled := Stepped(engine, s.world, Settle(engine, objects, s.world, 0, 1, maxIters));
        if AnyObjectBelowTable(engine, objects, settled) || AnyObjectTouchingBase(engine, objects, settled)
        then Attempted(false, settled)
        else Attempted(AllPropositionsHold(engine, task, settled), settled)
  }

  /**
   * An attempt is accepted exactly when no skeleton argument is Null,
   * every proposition was sampled within its attempts, and after settling
   * no non-static object is below the table or touches the base and every
   * proposition holds.
   */
  lemma AttemptAccepted(engine: Engine, objects: seq<Object>, task: Task, w: World, maxAttempts: nat, maxIters: int)
    ensures var a := Attempt(engine, objects, task, w, maxAttempts, maxIters);
      var s := SampleAll(engine, w, task.initialState, task.initialState, maxAttempts);
      a.accepted <==>
        && !AnySkeletonArgNull(engine, task, w)
        && s.ok
        && a.world == Stepped(engine, s.world, Settle(engine, objects, s.world, 0, 1, maxIters))
        && !AnyObjectBelowTable(engine, objects, a.world)
        && !AnyObjectTouchingBase(engine, objects, a.world)
        && AllPropositionsHold(engine, task, a.world)
    ensures var a := Attempt(engine, objects, task, w, maxAttempts, maxIters);
      var s := SampleAll(engine, w, task.initialState, task.initialState, maxAttempts);
      a.accepted ==> |s.trials| == |task.initialState| && forall k :: 0 <= k < |s.trials| ==> 1 <= s.trials[k] <= maxAttempts
  {
    SampleAllTrials(engine, w, task.initialState, task.initialState, maxAttempts);
  }

  /**
   * One pass of the `reset` loop outside the real-tracker path, from the
   * world `w` it starts in: reset the robot, restore the initial snapshot
   * `initial`, reset the objects, then `Attempt`.
   */
  function Pass(engine: Engine, objects: seq<Object>, task: Task, w: World, initial: World, maxAttempts: nat, maxIters: int): Attempted
  {
    Attempt(engine, objects, task, engine.resetObjects(engine.restore(engine.resetRobot(w), initial)), maxAttempts, maxIters)
  }

  /** The world after `k` passes of the `reset` loop from `w`, each of them rejected. */
  function Retried(engine: Engine, objects: seq<Object>, task: Task, w: World, initial: World, maxAttempts: nat, maxIters: int, k: nat): World
  {
    if k == 0 then w
    else Pass(engine, objects, task, Retried(engine, objects, task, w, initial, maxAttempts, maxIters, k - 1), initial, maxAttempts, maxIters).world
  }

  /** None of the first `n` passes from `w` was accepted. */
  ghost predicate Rejected(engine: Engine, objects: seq<Object>, task: Task, w: World, initial: World, maxAttempts: nat, maxIters: int, n: nat)
  {
    forall k :: 0 <= k < n ==>
      !Pass(engine, objects, task, Retried(engine, objects, task, w, initial, maxAttempts, maxIters, k), initial, maxAttempts, maxIters).accepted
  }

  /**
   * How the retry loop of `reset` ended after `tries` of at most `fuel`
   * passes from `w`, in world `final`: either the last pass was accepted
   * and all before it rejected, or all `fuel` passes were rejected.
   */
  ghost predicate RetryOutcome(engine: Engine, objects: seq<Object>, task: Task, w: World, initial: World, maxAttempts: nat, maxIters: int,
                               fuel: nat, accepted: bool, tries: nat, final: World)
  {
    && tries <= fuel
    && (accepted ==>
          && 1 <= tries
          && Rejected(engine, objects, task, w, initial, maxAttempts, maxIters, tries - 1)
          && Pass(engine, objects, task, Retried(engine, objects, task, w, initial, maxAttempts, maxIters, tries - 1), initial, maxAttempts, maxIters)
             == Attempted(true, final))
    && (!accepted ==>
          && tries == fuel
          && Rejected(engine, objects, task, w, initial, maxAttempts, maxIters, fuel)
          && final == Retried(engine, objects, task, w, initial, maxAttempts, maxIters, fuel))
  }

  /** A further rejected pass extends `Rejected` by one. */
  lemma RejectedStep(engine: Engine, objects: seq<Object>, task: Task, w: World, initial: World, maxAttempts: nat, maxIters: int, n: nat)
    requires Rejected(engine, objects, task, w, initial, maxAttempts, maxIters, n)
    requires !Pass(engine, objects, task, Retried(engine, objects, task, w, initial, maxAttempts, maxIters, n), initial, maxAttempts, maxIters).accepted
    ensures Rejected(engine, objects, task, w, initial, maxAttempts, maxIters, n + 1)
  {
  }

  // ---------------------------------------------------------------------
  // Sampling the initial state
  // ---------------------------------------------------------------------

  /** The outcome of sampling: success, the world afterwards, and how many `sample` calls each proposition took. */
  datatype Sampling = Sampling(ok: bool, world: World, trials: seq<nat>)

  /** A sampling result with `trials` counted before its own. */
  function Prepend(trials: seq<nat>, s: Sampling): Sampling
  {
    Sampling(s.ok, s.world, trials + s.trials)
  }

  /** A one-proposition sampling result with `k` more calls counted. */
  function AddTrials(s: Sampling, k: nat): Sampling
    requires |s.trials| == 1
  {
    Sampling(s.ok, s.world, [s.trials[0] + k])
  }

  /** Sampling one proposition: up to `attempts` calls of `sample`, stopping at the first success. */
  function SampleOne(engine: Engine, w: World, prop: Proposition, props: seq<Proposition>, attempts: nat): (r: Sampling)
    ensures |r.trials| == 1
    ensures r.ok ==> 1 <= r.trials[0] <= attempts
    ensures !r.ok ==> r.trials[0] == attempts
    decreases attempts
  {
    if attempts == 0 then Sampling(false, w, [0])
    else
      var (ok, w1) := engine.sample(w, prop, props);
      if ok then Sampling(true, w1, [1])
      else
        var rest := SampleOne(engine, w1, prop, props, attempts - 1);
        Sampling(rest.ok, rest.world, [rest.trials[0] + 1])
  }

  /**
   * `all(any(prop.sample(...) for _ in range(max_attempts)) for prop in props)`:
   * the propositions in order, each sampled until its first success; the
   * first proposition that exhausts its attempts ends the sampling.
   */
  function SampleAll(engine: Engine, w: World, props: seq<Proposition>, all: seq<Proposition>, attempts: nat): Sampling
    decreases |props|
  {
    if props == [] then Sampling(true, w, [])
    else
      var first := SampleOne(engine, w, props[0], all, attempts);
      if !first.ok then first
      else
        var rest := SampleAll(engine, first.world, props[1..], all, attempts);
        Sampling(rest.ok, rest.world, first.trials + rest.trials)
  }

  /**
   * Sampling succeeds exactly when every proposition succeeded within its
   * attempts; on failure the last proposition sampled used all its
   * attempts and the ones after it were not sampled (those before it
   * succeeded: `SampleAllStopsAtFirstFailure`).
   */
  lemma {:induction false} SampleAllTrials(engine: Engine, w: World, props: seq<Proposition>, all: seq<Proposition>, attempts: nat)
    ensures var s := SampleAll(engine, w, props, all, attempts);
      && (s.ok ==> |s.trials| == |props| && forall k :: 0 <= k < |props| ==> 1 <= s.trials[k] <= attempts)
      && (!s.ok ==> 1 <= |s.trials| <= |props| && s.trials[|s.trials| - 1] == attempts
                    && forall k :: 0 <= k < |s.trials| - 1 ==> 1 <= s.trials[k] <= attempts)
  {
    if props != [] {
      var first := SampleOne(engine, w, props[0], all, attempts);
      if first.ok {
        SampleAllTrials(engine, first.world, props[1..], all, attempts);
        var rest := SampleAll(engine, first.world, props[1..], all, attempts);
        var s := SampleAll(engine, w, props, all, attempts);
        assert s.trials == first.trials + rest.trials;
      }
    }
  }

  /**
   * A failed sampling stopped at the first proposition that exhausted its
   * attempts: sampling only the propositions before it, from the same
   * world, succeeds with the same counts.
   */
  lemma {:induction false} SampleAllStopsAtFirstFailure(engine: Engine, w: World, props: seq<Proposition>, all: seq<Proposition>, attempts: nat)
    ensures var s := SampleAll(engine, w, props, all, attempts);
      !s.ok ==>
        && 1 <= |s.trials| <= |props|
        && var before := SampleAll(engine, w, props[..|s.trials| - 1], all, attempts);
           before.ok && before.trials == s.trials[..|s.trials| - 1]
  {
    SampleAllTrials(engine, w, props, all, attempts);
    if props != [] {
      var first := SampleOne(engine, w, props[0], all, attempts);
      if first.ok {
        var rest := SampleAll(engine, first.world, props[1..], all, attempts);
        if !rest.ok {
          SampleAllStopsAtFirstFailure(engine, first.world, props[1..], all, attempts);
          var m := |rest.trials|;
          var s := SampleAll(engine, w, props, all, attempts);
          assert s.trials == first.trials + rest.trials;
          assert props[..m][0] == props[0];
          assert props[..m][1..] == props[1..][..m - 1];
          assert s.trials[..m] == first.trials + rest.trials[..m - 1];
        }
      } else {
        assert props[..0] == [];
      }
    }
  }

  // ---------------------------------------------------------------------
  // get_primitive_info
  // ---------------------------------------------------------------------

  /** The names of the policy arguments, in order. */
  function Names(args: seq<Object>): seq<string>
  {
    seq(|args|, k requires 0 <= k < |args| => args[k].name)
  }

  /** The action call `get_primitive_info` builds from a policy index and its arguments. */
  function PolicyActionCall(primitives: seq<string>, idxPolicy: int, args: seq<Object>): (r: Option<string>)
    ensures r.Some? <==> -|primitives| <= idxPolicy < |primitives|
  {
    match PyIndex(idxPolicy, |primitives|)
    case None => None
    case Some(i) => Some(Call(primitives[i], Names(args)))
  }

  /**
   * The action call names its primitive and its arguments unambiguously:
   * for primitive names without '(' and argument names that are non-empty
   * and free of ',', two calls are equal only for the same primitive and
   * the same argument names.
   */
  lemma PolicyActionCallInjective(primitives: seq<string>, i1: int, a1: seq<Object>, i2: int, a2: seq<Object>)
    requires forall k :: 0 <= k < |primitives| ==> '(' !in primitives[k]
    requires forall k :: 0 <= k < |a1| ==> a1[k].name != "" && ',' !in a1[k].name
    requires forall k :: 0 <= k < |a2| ==> a2[k].name != "" && ',' !in a2[k].name
    requires PolicyActionCall(primitives, i1, a1).Some?
    requires PolicyActionCall(primitives, i1, a1) == PolicyActionCall(primitives, i2, a2)
    ensures primitives[PyIndex(i1, |primitives|).value] == primitives[PyIndex(i2, |primitives|).value]
    ensures Names(a1) == Names(a2)
  {
    var p1 := primitives[PyIndex(i1, |primitives|).value];
    var p2 := primitives[PyIndex(i2, |primitives|).value];
    CallInjective(p1, Names(a1), p2, Names(a2));
  }

  /**
   * `get_primitive_info`: an action call is parsed as given; otherwise the
   * policy index and arguments are first written as an action call; with
   * neither there is nothing to parse.
   */
  function PrimitiveInfo(engine: Engine, primitives: seq<string>, objects: seq<Object>,
                         actionCall: Option<string>, idxPolicy: Option<int>, policyArgs: Option<seq<Object>>): (r: Result<Primitive, EnvError>)
    ensures actionCall.Some? ==> r == engine.fromActionCall(actionCall.value, primitives, objects)
    ensures actionCall.None? && (idxPolicy.None? || policyArgs.None?) ==> r == Err(ValueError)
    ensures actionCall.None? && idxPolicy.Some? && policyArgs.Some? ==>
      match PolicyActionCall(primitives, idxPolicy.value, policyArgs.value)
      case None => r == Err(IndexError)
      case Some(call) => r == engine.fromActionCall(call, primitives, objects)
  {
    if actionCall.Some? then engine.fromActionCall(actionCall.value, primitives, objects)
    else if idxPolicy.Some? && policyArgs.Some? then
      match PolicyActionCall(primitives, idxPolicy.value, policyArgs.value)
      case None => Err(IndexError)
      case Some(call) => engine.fromActionCall(call, primitives, objects)
    else Err(ValueError)
  }

  /** The result tuple of `step`, without the observation. */
  datatype StepResult = StepResult(reward: real, terminated: bool, truncated: bool)

  /** `float(result.success)`, `not result.truncated` and `result.truncated`. */
  function StepOutcome(res: ExecResult): (r: StepResult)
    ensures r.reward == 1.0 <==> res.success
    ensures r.reward == 0.0 <==> !res.success
    ensures r.terminated <==> !r.truncated
    ensures r.truncated == res.truncated
  {
    StepResult(if res.success then 1.0 else 0.0, !res.truncated, res.truncated)
  }

  /**
   * The simulation as the environment sees it through its client id: the
   * current world, the snapshots `saveState` has taken under their ids,
   * and the id the next snapshot gets.
   */
  class PhysicsClient {
    const engine: Engine
    var world: World
    var saved: map<int, World>
    var nextId: int

    /** Every snapshot id was handed out before the next one. */
    ghost predicate Valid()
      reads this`saved, this`nextId
    {
      forall id :: id in saved ==> id < nextId
    }

    constructor(engine: Engine, world: World)
      ensures Valid()
      ensures this.engine == engine && this.world == world && saved == map[]
    {
      this.engine := engine;
      this.world := world;
      saved := map[];
      nextId := 0;
    }

    /** `p.saveState`: a snapshot of the current world under a new id. */
    method SaveState() returns (id: int)
      requires Valid()
      modifies this`saved, this`nextId
      ensures Valid()
      ensures id !in old(saved)
      ensures old(nextId) <= id < nextId
      ensures saved == old(saved)[id := world]
    {
      id := nextId;
      saved := saved[id := world];
      nextId := nextId + 1;
    }

    /** `p.restoreState`: an unknown id is an error and leaves the world as it is. */
    method RestoreState(id: int) returns (r: Result<(), EnvError>)
      modifies this`world
      ensures id in saved ==> r.Ok? && world == engine.restore(old(world), saved[id])
      ensures id !in saved ==> r == Err(UnknownStateId) && world == old(world)
    {
      if id !in saved {
        return Err(UnknownStateId);
      }
      world := engine.restore(world, saved[id]);
      r := Ok(());
    }

    /** `p.removeState`. */
    method RemoveState(id: int)
      requires Valid()
      modifies this`saved
      ensures Valid()
      ensures saved == old(saved) - {id}
    {
      saved := saved - {id};
    }

    /** One control step: the arm and gripper torque updates and `stepSimulation`. */
    method Step()
      modifies this`world
      ensures world == engine.step(old(world))
    {
      world := engine.step(world);
    }
  }

  /**
   * The environment. The objects, tasks and primitive names are fixed at
   * construction; the snapshot cache `states`, the current task and
   * primitive, the two recorders and the overlay text change.
   */
  class TableEnv {
    const primitives: seq<string>
    /** The objects in the insertion order of the name-indexed dictionary. */
    const objects: seq<Object>
    const tasks: seq<Task>
    const client: PhysicsClient
    const ops: RecorderOps
    /** Whether an object tracker is configured and the arm is the real one. */
    const realTracker: bool
    /** The default `max_iters` of `wait_until_stable`: three seconds of simulation steps. */
    const defaultMaxIters: int
    const initialStateId: int

    /** The robot states stored beside the simulation snapshots, by snapshot id. */
    var states: map<int, RobotState>
    /** The ids of `states` in the order they were added, the order the dictionary iterates in. */
    var stateIds: seq<int>
    var task: Task
    var primitive: Primitive
    var recorder: RecorderState
    var timelapse: RecorderState
    var recordingText: string

    /**
     * The snapshot taken at construction is never dropped, every cached
     * robot state has its simulation snapshot, the current task is one of
     * the tasks, and objects are keyed by distinct names.
     */
    ghost predicate Valid()
      reads this`task, this`states, this`stateIds, client`saved, client`nextId
    {
      && client.Valid()
      && task in tasks
      && initialStateId in client.saved
      && initialStateId !in states
      && states.Keys <= client.saved.Keys
      && (forall id :: id in states <==> id in stateIds)
      && DistinctNames(objects)
    }

    constructor(primitives: seq<string>, objects: seq<Object>, tasks: seq<Task>, client: PhysicsClient,
                ops: RecorderOps, realTracker: bool, defaultMaxIters: int,
                recorder: RecorderState, timelapse: RecorderState)
      requires client.Valid()
      requires |tasks| > 0 && |tasks[0].actionSkeleton| > 0
      requires DistinctNames(objects)
      modifies client`saved, client`nextId
      ensures Valid()
      ensures this.primitives == primitives && this.objects == objects && this.tasks == tasks
      ensures this.client == client && this.ops == ops && this.realTracker == realTracker
      ensures this.defaultMaxIters == defaultMaxIters
      ensures task == tasks[0] && primitive == tasks[0].actionSkeleton[0]
      ensures initialStateId !in old(client.saved)
      ensures client.saved == old(client.saved)[initialStateId := client.world]
      ensures states == map[]
      ensures this.recorder == recorder && this.timelapse == timelapse && recordingText == ""
    {
      this.primitives := primitives;
      this.objects := objects;
      this.tasks := tasks;
      this.client := client;
      this.ops := ops;
      this.realTracker := realTracker;
      this.defaultMaxIters := defaultMaxIters;
      task := tasks[0];
      primitive := tasks[0].actionSkeleton[0];
      var id := client.SaveState();
      initialStateId := id;
      states := map[];
      stateIds := [];
      this.recorder := recorder;
      this.timelapse := timelapse;
      recordingText := "";
    }

    /** `get_arg_indices`; the policy index plays no part. */
    method GetArgIndices(idxPolicy: int, policyArgs: seq<Object>) returns (r: Result<seq<nat>, EnvError>)
      ensures r == ArgIndices(policyArgs)
    {
      var rows := ArgRows(policyArgs);
      if rows.None? {
        return Err(IndexError);
      }
      var argIndices: seq<nat> := [EE_OBSERVATION_IDX] + rows.value;
      var otherIndices := StrikeOut(argIndices);
      ghost var xs := otherIndices[..];
      assert xs[..MAX_NUM_OBJECTS] == xs;
      PresentUnused(xs, argIndices, MAX_NUM_OBJECTS);
      return Ok(argIndices + Present(otherIndices[..]));
    }

    /**
     * `set_primitive`: a given primitive is taken as it is, otherwise the
     * one `get_primitive_info` builds; a failure leaves the current one.
     */
    method SetPrimitive(given: Option<Primitive>, actionCall: Option<string>, idxPolicy: Option<int>,
                        policyArgs: Option<seq<Object>>) returns (r: Result<(), EnvError>)
      modifies this`primitive
      ensures given.Some? ==> r.Ok? && primitive == given.value
      ensures given.None? ==>
        match PrimitiveInfo(client.engine, primitives, objects, actionCall, idxPolicy, policyArgs)
        case Ok(q) => r.Ok? && primitive == q
        case Err(e) => r == Err(e) && primitive == old(primitive)
    {
      if given.Some? {
        primitive := given.value;
        return Ok(());
      }
      var info := PrimitiveInfo(client.engine, primitives, objects, actionCall, idxPolicy, policyArgs);
      if info.Err? {
        return Err(info.error);
      }
      primitive := info.value;
      r := Ok(());
    }

    /** `get_state`: a new snapshot id, under which the current robot state is cached. */
    method GetState() returns (id: int)
      requires Valid()
      modifies this`states, this`stateIds, client`saved, client`nextId
      ensures Valid()
      ensures id !in old(client.saved) && id !in old(states)
      ensures client.saved == old(client.saved)[id := client.world]
      ensures states == old(states)[id := client.engine.robotState(client.world)]
    {
      id := client.SaveState();
      states := states[id := client.engine.robotState(client.world)];
      stateIds := stateIds + [id];
    }

    /**
     * `set_state`: release any grasp, restore the simulation snapshot, then
     * the cached robot state; an id the simulation does not know fails at
     * the restore, an id without a cached robot state fails after it.
     */
    method SetState(id: int) returns (r: Result<bool, EnvError>)
      requires Valid()
      modifies client`world
      ensures Valid()
      ensures var released := client.engine.releaseGrasp(old(client.world));
        && (id !in client.saved ==> r == Err(UnknownStateId) && client.world == released)
        && (id in client.saved && id !in states ==>
              r == Err(KeyError) && client.world == client.engine.restore(released, client.saved[id]))
        && (id in states ==>
              r == Ok(true)
              && client.world == client.engine.setRobotState(client.engine.restore(released, client.saved[id]), states[id]))
    {
      client.world := client.engine.releaseGrasp(client.world);
      var restored := client.RestoreState(id);
      if restored.Err? {
        return Err(restored.error);
      }
      if id !in states {
        return Err(KeyError);
      }
      client.world := client.engine.setRobotState(client.world, states[id]);
      r := Ok(true);
    }

    /** `object_states`. */
    method ObjectStates() returns (r: seq<Entry>)
      ensures r == ObjectStatesOf(client.engine, objects, client.world)
    {
      var engine, objs, w := client.engine, objects, client.world;
      r := [];
      for i := 0 to |objs|
        invariant r == StatesAfter(engine, objs, w, i)
      {
        if i == EE_OBSERVATION_IDX {
          r := Assign(r, EE_KEY, engine.eeState(w));
        }
        r := Assign(r, objs[i].name, engine.objectState(w, objs[i]));
      }
    }

    /** `get_observation`: entry `i` of the object states in row `i` of a zero matrix. */
    method GetObservation(image: bool) returns (r: Result<seq<StateVector>, EnvError>)
      ensures image ==> r == Err(NotImplementedError)
      ensures !image ==> r == ObservationOf(client.engine, objects, client.world)
    {
      if image {
        return Err(NotImplementedError);
      }
      var entries := ObjectStates();
      var values := Values(entries);
      var zero := client.engine.zeroRow;
      var observation := new StateVector[MAX_NUM_OBJECTS](_ => zero);
      for i := 0 to |values|
        invariant i <= MAX_NUM_OBJECTS
        invariant forall j :: 0 <= j < MAX_NUM_OBJECTS ==> observation[j] == if j < i then values[j] else zero
      {
        if i >= MAX_NUM_OBJECTS {
          return Err(IndexError);
        }
        observation[i] := values[i];
      }
      assert observation[..] == Observation(values, zero).value;
      r := Ok(observation[..]);
    }

    /** `wait_until_stable`: step until `KeepStepping` no longer holds and return the number of steps. */
    method WaitUntilStable(minIters: int, maxIters: int) returns (n: nat)
      modifies client`world
      ensures n == Settle(client.engine, objects, old(client.world), 0, minIters, maxIters)
      ensures client.world == Stepped(client.engine, old(client.world), n)
    {
      var engine := client.engine;
      ghost var w0 := client.world;
      n := 0;
      while KeepStepping(engine, objects, client.world, n, minIters, maxIters)
        invariant n <= Max(1, maxIters)
        invariant client.world == Stepped(engine, w0, n)
        invariant Settle(engine, objects, w0, 0, minIters, maxIters) == Settle(engine, objects, w0, n, minIters, maxIters)
        decreases Max(1, maxIters) - n
      {
        client.Step();
        n := n + 1;
      }
    }

    /** `any(prop.sample(...) for _ in range(attempts))`, with the number of `sample` calls made. */
    method SampleProposition(prop: Proposition, props: seq<Proposition>, attempts: nat) returns (ok: bool, ghost count: nat)
      modifies client`world
      ensures Sampling(ok, client.world, [count]) == SampleOne(client.engine, old(client.world), prop, props, attempts)
    {
      var engine := client.engine;
      ghost var w0 := client.world;
      ok := false;
      count := 0;
      var k := 0;
      while k < attempts && !ok
        invariant k == count <= attempts
        invariant ok ==> SampleOne(engine, w0, prop, props, attempts) == Sampling(true, client.world, [count])
        invariant !ok ==> SampleOne(engine, w0, prop, props, attempts)
                          == AddTrials(SampleOne(engine, client.world, prop, props, attempts - count), count)
        decreases attempts - k
      {
        var sampled := engine.sample(client.world, prop, props);
        client.world := sampled.1;
        ok := sampled.0;
        k := k + 1;
        count := count + 1;
      }
    }

    /**
     * The sampling of `reset`: each initial-state proposition in order,
     * stopping at the first that fails.
     */
    method SampleInitialState(maxAttempts: nat) returns (ok: bool, ghost trials: seq<nat>)
      modifies client`world
      ensures Sampling(ok, client.world, trials)
              == SampleAll(client.engine, old(client.world), task.initialState, task.initialState, maxAttempts)
    {
      var engine := client.engine;
      var props := task.initialState;
      ghost var w0 := client.world;
      ok := true;
      trials := [];
      var i := 0;
      while i < |props| && ok
        invariant i <= |props|
        invariant ok ==> SampleAll(engine, w0, props, props, maxAttempts)
                         == Prepend(trials, SampleAll(engine, client.world, props[i..], props, maxAttempts))
        invariant !ok ==> SampleAll(engine, w0, props, props, maxAttempts) == Sampling(false, client.world, trials)
      {
        assert props[i..][1..] == props[i + 1..];
        var sampled, count := SampleProposition(props[i], props, maxAttempts);
        AppendAssoc(trials, [count], SampleAll(engine, client.world, props[i + 1..], props, maxAttempts).trials);
        trials := trials + [count];
        ok := sampled;
        i := i + 1;
      }
    }

    /** One attempt of `reset` from the world the resets leave. */
    method TryInitialState(maxAttempts: nat) returns (accepted: bool)
      modifies client`world
      ensures Attempted(accepted, client.world)
              == Attempt(client.engine, objects, task, old(client.world), maxAttempts, defaultMaxIters)
    {
      var engine := client.engine;
      if AnySkeletonArgNull(engine, task, client.world) {
        return false;
      }
      var ok, trials := SampleInitialState(maxAttempts);
      if !ok {
        return false;
      }
      var n := WaitUntilStable(1, defaultMaxIters);
      if AnyObjectBelowTable(engine, objects, client.world) || AnyObjectTouchingBase(engine, objects, client.world) {
        return false;
      }
      accepted := AllPropositionsHold(engine, task, client.world);
    }

    /** The first step of `reset`: drop every cached snapshot, in the simulation and in the cache. */
    method ClearStates()
      requires Valid()
      modifies this`states, this`stateIds, client`saved
      ensures Valid()
      ensures states == map[]
      ensures client.saved == old(client.saved) - old(states).Keys
    {
      var ids := stateIds;
      ghost var keys := states.Keys;
      assert forall id :: id in keys <==> id in ids;
      for k := 0 to |ids|
        invariant states == old(states) && stateIds == ids
        invariant client.Valid()
        invariant client.saved == old(client.saved) - Elems(ids[..k])
      {
        assert ids[..k + 1][..k] == ids[..k];
        client.RemoveState(ids[k]);
      }
      assert ids[..|ids|] == ids;
      assert Elems(ids) == keys;
      states, stateIds := map[], [];
    }

    /** The opening of every pass of `reset`: reset the robot, then restore the initial snapshot. */
    method StartPass()
      requires Valid()
      modifies client`world
      ensures Valid()
      ensures client.world == client.engine.restore(client.engine.resetRobot(old(client.world)), client.saved[initialStateId])
    {
      client.world := client.engine.resetRobot(client.world);
      var restored := client.RestoreState(initialStateId);
    }

    /** One pass of the `reset` loop outside the real-tracker path. */
    method OnePass(attempts: nat) returns (done: bool)
      requires Valid()
      modifies client`world
      ensures Valid()
      ensures Attempted(done, client.world)
              == Pass(client.engine, objects, task, old(client.world), client.saved[initialStateId], attempts, defaultMaxIters)
    {
      StartPass();
      client.world := client.engine.resetObjects(client.world);
      done := TryInitialState(attempts);
    }

    /**
     * The `while True` loop of `reset` without a real tracker, at most
     * `fuel` passes: every pass before the last was rejected.
     */
    method RetryPasses(attempts: nat, fuel: nat) returns (done: bool, ghost tries: nat)
      requires Valid() && !realTracker
      modifies client`world
      ensures Valid()
      ensures RetryOutcome(client.engine, objects, task, old(client.world), client.saved[initialStateId], attempts, defaultMaxIters,
                           fuel, done, tries, client.world)
    {
      ghost var engine := client.engine;
      ghost var initial := client.saved[initialStateId];
      ghost var w0 := client.world;
      done, tries := false, 0;
      var passes := 0;
      while passes < fuel
        invariant Valid()
        invariant client.engine == engine && client.saved[initialStateId] == initial
        invariant tries == passes <= fuel && !done
        invariant client.world == Retried(engine, objects, task, w0, initial, attempts, defaultMaxIters, tries)
        invariant Rejected(engine, objects, task, w0, initial, attempts, defaultMaxIters, tries)
      {
        ghost var outcome := Pass(engine, objects, task, client.world, initial, attempts, defaultMaxIters);
        assert outcome.world == Retried(engine, objects, task, w0, initial, attempts, defaultMaxIters, tries + 1);
        done := OnePass(attempts);
        assert Attempted(done, client.world) == outcome;
        if done {
          passes, tries := passes + 1, tries + 1;
          break;
        }
        RejectedStep(engine, objects, task, w0, initial, attempts, defaultMaxIters, tries);
        passes, tries := passes + 1, tries + 1;
      }
    }

    /**
     * The passes of `reset`: with a real tracker the first pass ends the
     * loop; otherwise those of `RetryPasses`.
     */
    method Passes(attempts: nat, fuel: nat) returns (done: bool, ghost tries: nat)
      requires Valid()
      modifies client`world
      ensures Valid()
      ensures tries <= fuel
      ensures done ==> 1 <= tries
      ensures !done ==> tries == fuel
      ensures realTracker && fuel > 0 ==>
        && done && tries == 1
        && client.world == client.engine.updateTrackedPoses(
             client.engine.restore(client.engine.resetRobot(old(client.world)), client.saved[initialStateId]))
      ensures !realTracker ==>
        RetryOutcome(client.engine, objects, task, old(client.world), client.saved[initialStateId], attempts, defaultMaxIters,
                     fuel, done, tries, client.world)
    {
      if !realTracker {
        done, tries := RetryPasses(attempts, fuel);
      } else if fuel == 0 {
        done, tries := false, 0;
      } else {
        StartPass();
        client.world := client.engine.updateTrackedPoses(client.world);
        done, tries := true, 1;
      }
    }

    /**
     * `reset`: drop the snapshot cache, take task `taskIdx` (the random
     * choice) and its first skeleton step as the primitive, then run the
     * passes of `Passes`; `fuel` bounds them and `tries` counts them.
     */
    method Reset(taskIdx: nat, maxAttempts: int, fuel: nat)
      returns (r: Result<seq<StateVector>, EnvError>, ghost accepted: bool, ghost tries: nat)
      requires Valid()
      requires taskIdx < |tasks|
      modifies this`states, this`stateIds, this`task, this`primitive, client`saved, client`world
      ensures Valid()
      ensures states == map[]
      ensures client.saved == old(client.saved) - old(states).Keys
      ensures task == tasks[taskIdx]
      ensures task.actionSkeleton == [] ==>
        && r == Err(IndexError) && !accepted && tries == 0
        && primitive == old(primitive) && client.world == old(client.world)
      ensures task.actionSkeleton != [] ==> primitive == task.actionSkeleton[0]
      ensures tries <= fuel
      ensures accepted ==> 1 <= tries && r == ObservationOf(client.engine, objects, client.world)
      ensures task.actionSkeleton != [] && !accepted ==> r == Err(OutOfFuel) && tries == fuel
      ensures task.actionSkeleton != [] && realTracker && fuel > 0 ==>
        && accepted && tries == 1
        && client.world == client.engine.updateTrackedPoses(
             client.engine.restore(client.engine.resetRobot(old(client.world)), client.saved[initialStateId]))
      ensures task.actionSkeleton != [] && !realTracker ==>
        RetryOutcome(client.engine, objects, task, old(client.world), client.saved[initialStateId], Max(0, maxAttempts), defaultMaxIters,
                     fuel, accepted, tries, client.world)
    {
      accepted, tries := false, 0;
      ClearStates();
      task := tasks[taskIdx];
      if task.actionSkeleton == [] {
        return Err(IndexError), false, 0;
      }
      primitive := task.actionSkeleton[0];
      var done;
      done, tries := Passes(Max(0, maxAttempts), fuel);
      accepted := done;
      if !done {
        return Err(OutOfFuel), accepted, tries;
      }
      r := GetObservation(false);
    }

    /**
     * `step`: write the scaled action into the overlay text while a
     * recorder runs, execute the primitive, and report the observation,
     * the reward and whether the episode ended.
     */
    method Step(action: Action) returns (obs: Result<seq<StateVector>, EnvError>, result: StepResult)
      modifies this`recordingText, client`world
      ensures var recording := ops.isRecording(recorder) || ops.isRecording(timelapse);
        && (recording ==> recordingText == "Action: [" + Join(client.engine.formatAction(primitive, action), ", ") + "]")
        && (!recording ==> recordingText == old(recordingText))
      ensures var executed := client.engine.execute(old(client.world), primitive, action);
        && client.world == executed.1
        && result == StepOutcome(executed.0)
        && obs == ObservationOf(client.engine, objects, client.world)
    {
      var engine := client.engine;
      if ops.isRecording(recorder) || ops.isRecording(timelapse) {
        recordingText := "Action: [" + Join(engine.formatAction(primitive, action), ", ") + "]";
      }
      var executed := engine.execute(client.world, primitive, action);
      client.world := executed.1;
      obs := GetObservation(false);
      result := StepOutcome(executed.0);
    }

    /** `record_start`: "timelapse" and "default" start their recorder, any other mode starts nothing. */
    method RecordStart(prependId: Option<string>, frequency: Option<int>, mode: string) returns (started: bool)
      modifies this`recorder, this`timelapse
      ensures started <==> mode == "timelapse" || mode == "default"
      ensures mode == "timelapse" ==> timelapse == ops.start(old(timelapse), prependId, None) && recorder == old(recorder)
      ensures mode == "default" ==> recorder == ops.start(old(recorder), prependId, frequency) && timelapse == old(timelapse)
      ensures !started ==> recorder == old(recorder) && timelapse == old(timelapse)
    {
      if mode == "timelapse" {
        timelapse := ops.start(timelapse, prependId, None);
      } else if mode == "default" {
        recorder := ops.start(recorder, prependId, frequency);
      } else {
        return false;
      }
      started := true;
    }

    /** `record_stop`: stop the recorder the mode names and report what it reports; any other mode stops nothing. */
    method RecordStop(saveId: Option<string>, mode: string) returns (stopped: bool)
      modifies this`recorder, this`timelapse
      ensures mode == "timelapse" ==>
        (stopped, timelapse) == ops.stop(old(timelapse), saveId) && recorder == old(recorder)
      ensures mode == "default" ==>
        (stopped, recorder) == ops.stop(old(recorder), saveId) && timelapse == old(timelapse)
      ensures mode != "timelapse" && mode != "default" ==>
        !stopped && recorder == old(recorder) && timelapse == old(timelapse)
    {
      if mode == "timelapse" {
        var res := ops.stop(timelapse, saveId);
        stopped, timelapse := res.0, res.1;
      } else if mode == "default" {
        var res := ops.stop(recorder, saveId);
        stopped, recorder := res.0, res.1;
      } else {
        stopped := false;
      }
    }

    /**
     * `record_save`: save the timelapse when the mode is absent or
     * "timelapse", the default recorder when it is absent or "default",
     * and report whether either saved; both are saved even when the first
     * already did.
     */
    method RecordSave(path: string, reset: bool, mode: Option<string>) returns (isSaved: bool)
      modifies this`recorder, this`timelapse
      ensures var saveTimelapse := mode.None? || mode == Some("timelapse");
        var saveDefault := mode.None? || mode == Some("default");
        var t := ops.save(old(timelapse), path, reset);
        var d := ops.save(old(recorder), path, reset);
        && timelapse == (if saveTimelapse then t.1 else old(timelapse))
        && recorder == (if saveDefault then d.1 else old(recorder))
        && isSaved == ((saveTimelapse && t.0) || (saveDefault && d.0))
    {
      isSaved := false;
      if mode.None? || mode == Some("timelapse") {
        var res := ops.save(timelapse, path, reset);
        isSaved, timelapse := isSaved || res.0, res.1;
      }
      if mode.None? || mode == Some("default") {
        var res := ops.save(recorder, path, reset);
        isSaved, recorder := isSaved || res.0, res.1;
      }
    }
  }
}
