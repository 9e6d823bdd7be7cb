/**
 * Lifted hook-reach task generation (scripts/eval/task_gen/hook_reach.py):
 * the plan skeleton and the initial-state predicates of a task in which a
 * hook is used to pull boxes from beyond the workspace.
 *
 * Every skeleton step and predicate is an action-call string
 * `name(arg1, arg2, ...)` built with `Strings.Call`.
 */
module HookReach {
  import opened Wrappers
  import opened Strings
  import opened Seqs

  // ---------------------------------------------------------------------
  // One phase: hook_reach_task_phase
  // ---------------------------------------------------------------------

  /** Where the hook is picked from: phase 0 from its initial location, later phases from the table. */
  function HookLocation(phase: nat, initLocationHook: string): string
  {
    if phase > 0 then "table" else initLocationHook
  }

  /** The four steps every phase performs on its box, in order. */
  function CoreSteps(box: string, hookLocation: string): seq<string>
  {
    [ Call("pick", ["hook", hookLocation]),
      Call("pull", [box, "hook"]),
      Call("place", ["hook", "table"]),
      Call("pick", [box, "table"]) ]
  }

  /** Where the core steps start within a phase skeleton. */
  function PhaseOffset(phase: nat, targetLocationBox: Option<string>): nat
  {
    if phase > 0 && targetLocationBox.None? then 1 else 0
  }

  /**
   * The skeleton of one phase: a later phase without a target first places
   * the phase's own box `objects[phase]` on the table, and a phase with a
   * target ends by placing that box there.
   */
  function PhaseSkeleton(phase: nat, box: string, initLocationHook: string, targetLocationBox: Option<string>): (r: seq<string>)
    ensures |r| == if phase == 0 && targetLocationBox.None? then 4 else 5
  {
    var before := if phase > 0 && targetLocationBox.None? then [Call("place", [box, "table"])] else [];
    var after := if targetLocationBox.Some? then [Call("place", [box, targetLocationBox.value])] else [];
    before + CoreSteps(box, HookLocation(phase, initLocationHook)) + after
  }

  /**
   * A phase skeleton is the four core steps, preceded by putting the box on
   * the table exactly when `PhaseOffset` is 1 and followed by placing it on
   * the target exactly when there is one.
   */
  lemma {:induction false} PhaseSkeletonShape(phase: nat, box: string, initLocationHook: string, targetLocationBox: Option<string>)
    ensures var r := PhaseSkeleton(phase, box, initLocationHook, targetLocationBox);
      var k := PhaseOffset(phase, targetLocationBox);
      && r[k] == Call("pick", ["hook", if phase > 0 then "table" else initLocationHook])
      && r[k + 1] == Call("pull", [box, "hook"])
      && r[k + 2] == Call("place", ["hook", "table"])
      && r[k + 3] == Call("pick", [box, "table"])
      && (k == 1 ==> r[0] == Call("place", [box, "table"]))
      && (targetLocationBox.Some? ==> r[|r| - 1] == Call("place", [box, targetLocationBox.value]))
  {
    var r := PhaseSkeleton(phase, box, initLocationHook, targetLocationBox);
    var k := PhaseOffset(phase, targetLocationBox);
    var before := if phase > 0 && targetLocationBox.None? then [Call("place", [box, "table"])] else [];
    var core := CoreSteps(box, HookLocation(phase, initLocationHook));
    var after := if targetLocationBox.Some? then [Call("place", [box, targetLocationBox.value])] else [];
    assert r == before + core + after;
    assert |before| == k;
    forall i | 0 <= i < 4
      ensures r[k + i] == core[i]
    {
    }
  }

  /** The predicates one phase adds: its box is free, beyond the workspace and on the table, and, with a rack, not blocked by it. */
  function PhasePredicates(box: string, onRackTable: bool): (r: seq<string>)
    ensures |r| == if onRackTable then 4 else 3
  {
    var base := [Call("free", [box]), Call("beyondworkspace", [box]), Call("on", [box, "table"])];
    if onRackTable then base + [Call("nonblocking", [box, "rack"])] else base
  }

  /** `hook_reach_task_phase`: builds the phase skeleton and predicates by appending. */
  method HookReachTaskPhase(phase: nat, objects: seq<string>, initLocationHook: string,
                            targetLocationBox: Option<string>, onRackTable: bool)
    returns (phaseSkeleton: seq<string>, phasePredicates: seq<string>)
    requires phase < |objects|
    ensures phaseSkeleton == PhaseSkeleton(phase, objects[phase], initLocationHook, targetLocationBox)
    ensures phasePredicates == PhasePredicates(objects[phase], onRackTable)
  {
    var argObject := objects[phase];
    var hookLocation := initLocationHook;
    phaseSkeleton := [];
    if phase > 0 {
      hookLocation := "table";
      if targetLocationBox.None? {
        phaseSkeleton := phaseSkeleton + [Call("place", [argObject, "table"])];
      }
    }
    phaseSkeleton := phaseSkeleton + [
      Call("pick", ["hook", hookLocation]),
      Call("pull", [argObject, "hook"]),
      Call("place", ["hook", "table"]),
      Call("pick", [argObject, "table"])];
    if targetLocationBox.Some? {
      phaseSkeleton := phaseSkeleton + [Call("place", [argObject, targetLocationBox.value])];
    }
    phasePredicates := [Call("free", [argObject]), Call("beyondworkspace", [argObject]), Call("on", [argObject, "table"])];
    if onRackTable {
      phasePredicates := phasePredicates + [Call("nonblocking", [argObject, "rack"])];
    }
  }

  // ---------------------------------------------------------------------
  // The whole task: hook_reach_task
  // ---------------------------------------------------------------------

  /** A lifted task: skeleton, predicates and the number of lifted objects. */
  datatype LiftedTask = LiftedTask(
    numTasks: int,
    planSkeleton: seq<string>,
    predicates: seq<string>,
    numLiftedObjects: int)

  /** The rack must be in the workspace when the hook starts on it or boxes go to it. */
  predicate InWorkspaceRack(initLocationHook: string, targetLocationBox: Option<string>)
  {
    initLocationHook == "rack" || targetLocationBox == Some("rack")
  }

  /** Whether the rack is on the table: requested, or forced by `InWorkspaceRack`. */
  predicate RackPresent(initLocationHook: string, targetLocationBox: Option<string>, onRackTable: bool)
  {
    onRackTable || InWorkspaceRack(initLocationHook, targetLocationBox)
  }

  /** The rack predicates, in their fixed order. */
  function RackPredicates(initLocationHook: string, targetLocationBox: Option<string>, onRackTable: bool, poslimitRack: bool): (r: seq<string>)
    ensures |r| <= 3
  {
    (if RackPresent(initLocationHook, targetLocationBox, onRackTable) then [Call("on", ["rack", "table"])] else [])
    + (if InWorkspaceRack(initLocationHook, targetLocationBox) then [Call("inworkspace", ["rack"])] else [])
    + (if poslimitRack then [Call("poslimit", ["rack"])] else [])
  }

  /** Each rack predicate is present exactly when its condition holds. */
  lemma {:induction false} RackPredicatesMembership(initLocationHook: string, targetLocationBox: Option<string>, onRackTable: bool, poslimitRack: bool)
    ensures var r := RackPredicates(initLocationHook, targetLocationBox, onRackTable, poslimitRack);
      && (Call("on", ["rack", "table"]) in r <==> RackPresent(initLocationHook, targetLocationBox, onRackTable))
      && (Call("inworkspace", ["rack"]) in r <==> InWorkspaceRack(initLocationHook, targetLocationBox))
      && (Call("poslimit", ["rack"]) in r <==> poslimitRack)
  {
    assert Call("on", ["rack", "table"]) == "on(rack, table)";
    assert Call("inworkspace", ["rack"]) == "inworkspace(rack)";
    assert Call("poslimit", ["rack"]) == "poslimit(rack)";
  }

  /** The task predicates that come before any box: the hook's, then the rack's. */
  function BasePredicates(initLocationHook: string, targetLocationBox: Option<string>, onRackTable: bool, poslimitRack: bool): (r: seq<string>)
    ensures 3 <= |r| <= 6
  {
    [Call("free", ["hook"]), Call("inworkspace", ["hook"]), Call("on", ["hook", initLocationHook])]
    + RackPredicates(initLocationHook, targetLocationBox, onRackTable, poslimitRack)
  }

  /**
   * The plan skeleton of the first `n` phases: phase 0 has four steps unless a
   * target is given, every other phase five.
   */
  function PlanSkeleton(n: nat, objects: seq<string>, initLocationHook: string, targetLocationBox: Option<string>): (r: seq<string>)
    requires n <= |objects|
    ensures |r| == if n == 0 then 0 else if targetLocationBox.None? then 5 * n - 1 else 5 * n
  {
    if n == 0 then [] else
      PlanSkeleton(n - 1, objects, initLocationHook, targetLocationBox)
      + PhaseSkeleton(n - 1, objects[n - 1], initLocationHook, targetLocationBox)
  }

  /** The skeleton of fewer phases is a prefix of the skeleton of more. */
  lemma {:induction false} PlanSkeletonPrefix(i: nat, n: nat, objects: seq<string>, initLocationHook: string, targetLocationBox: Option<string>)
    requires i <= n <= |objects|
    ensures var whole := PlanSkeleton(n, objects, initLocationHook, targetLocationBox);
      var part := PlanSkeleton(i, objects, initLocationHook, targetLocationBox);
      |part| <= |whole| && whole[..|part|] == part
  {
    var part := PlanSkeleton(i, objects, initLocationHook, targetLocationBox);
    if i < n {
      PlanSkeletonPrefix(i, n - 1, objects, initLocationHook, targetLocationBox);
      var prev := PlanSkeleton(n - 1, objects, initLocationHook, targetLocationBox);
      var phase := PhaseSkeleton(n - 1, objects[n - 1], initLocationHook, targetLocationBox);
      assert PlanSkeleton(n, objects, initLocationHook, targetLocationBox) == prev + phase;
      PrefixOfAppend(prev, phase, part);
    } else {
      WholePrefix(part);
    }
  }

  /** The plan skeleton is the phase skeletons for phases 0, 1, ..., n-1, in order. */
  lemma {:induction false} PlanSkeletonPhase(i: nat, n: nat, objects: seq<string>, initLocationHook: string, targetLocationBox: Option<string>)
    requires i < n <= |objects|
    ensures var whole := PlanSkeleton(n, objects, initLocationHook, targetLocationBox);
      var start := |PlanSkeleton(i, objects, initLocationHook, targetLocationBox)|;
      var phase := PhaseSkeleton(i, objects[i], initLocationHook, targetLocationBox);
      start + |phase| <= |whole| && whole[start..start + |phase|] == phase
  {
    var whole := PlanSkeleton(n, objects, initLocationHook, targetLocationBox);
    var upto := PlanSkeleton(i + 1, objects, initLocationHook, targetLocationBox);
    var part := PlanSkeleton(i, objects, initLocationHook, targetLocationBox);
    var phase := PhaseSkeleton(i, objects[i], initLocationHook, targetLocationBox);
    PlanSkeletonPrefix(i + 1, n, objects, initLocationHook, targetLocationBox);
    assert upto == part + phase;
    SliceOfPrefix(whole, part, phase);
  }

  /** A prefix of `a` is a prefix of `a + b`. */
  lemma PrefixOfAppend<T>(a: seq<T>, b: seq<T>, part: seq<T>)
    requires |part| <= |a| && a[..|part|] == part
    ensures |part| <= |a + b| && (a + b)[..|part|] == part
  {
    assert (a + b)[..|part|] == a[..|part|];
  }

  /** A sequence is a prefix of itself. */
  lemma WholePrefix<T>(s: seq<T>)
    ensures s[..|s|] == s
  {
  }

  /** A prefix `a + b` of `whole` has `b` right after `a`. */
  lemma {:induction false} SliceOfPrefix<T>(whole: seq<T>, a: seq<T>, b: seq<T>)
    requires |a + b| <= |whole| && whole[..|a + b|] == a + b
    ensures whole[|a|..|a| + |b|] == b
  {
    assert forall k :: 0 <= k < |b| ==> whole[|a| + k] == (a + b)[|a| + k] == b[k];
  }

  /**
   * A phase's predicates are free, beyondworkspace and on-table for its box,
   * and `nonblocking(box, rack)` is among them exactly when the rack is on the table.
   */
  lemma {:induction false} PhasePredicatesShape(box: string, onRackTable: bool)
    ensures var r := PhasePredicates(box, onRackTable);
      && r[..3] == [Call("free", [box]), Call("beyondworkspace", [box]), Call("on", [box, "table"])]
      && (Call("nonblocking", [box, "rack"]) in r <==> onRackTable)
  {
    var nonblocking := Call("nonblocking", [box, "rack"]);
    CallStartsWithName("nonblocking", [box, "rack"]);
    CallStartsWithName("free", [box]);
    CallStartsWithName("beyondworkspace", [box]);
    CallStartsWithName("on", [box, "table"]);
    assert nonblocking[0] == 'n';
  }

  /** The predicates of the first `n` phases, concatenated. */
  function ArgPredicates(n: nat, objects: seq<string>, onRackTable: bool): (r: seq<string>)
    requires n <= |objects|
    ensures |r| == n * (if onRackTable then 4 else 3)
  {
    if n == 0 then []
    else ArgPredicates(n - 1, objects, onRackTable) + PhasePredicates(objects[n - 1], onRackTable)
  }

  /** Where the `j`-th non-argument box is placed: a drawn location with a rack, else the table. */
  function NonArgLocation(j: nat, rack: bool, locations: seq<string>, draws: seq<nat>): string
    requires j < |draws|
    requires rack ==> draws[j] < |locations|
  {
    if rack then locations[draws[j]] else "table"
  }

  /** `nonblocking(arg, box)` for the first `n` argument boxes, in order. */
  function Nonblocking(n: nat, objects: seq<string>, box: string): (r: seq<string>)
    requires n <= |objects|
    ensures |r| == n
  {
    if n == 0 then [] else Nonblocking(n - 1, objects, box) + [Call("nonblocking", [objects[n - 1], box])]
  }

  /** The `i`-th `nonblocking` predicate names the `i`-th argument box. */
  lemma {:induction false} NonblockingAt(n: nat, objects: seq<string>, box: string, i: nat)
    requires i < n <= |objects|
    ensures Nonblocking(n, objects, box)[i] == Call("nonblocking", [objects[i], box])
  {
    if i < n - 1 {
      NonblockingAt(n - 1, objects, box, i);
    }
  }

  /**
   * The predicates of one non-argument box: where it is, and, exactly when
   * it is on the table, that it blocks none of the `numArg` argument boxes.
   */
  function NonArgBlock(numArg: nat, objects: seq<string>, box: string, location: string): (r: seq<string>)
    requires numArg <= |objects|
    ensures |r| == 1 + (if location == "table" then numArg else 0)
  {
    [Call("on", [box, location])] + (if location == "table" then Nonblocking(numArg, objects, box) else [])
  }

  /**
   * A non-argument box is located by `on(box, location)`, followed by one
   * `nonblocking(arg, box)` per argument box, in order, when the location is
   * the table and by nothing otherwise.
   */
  lemma {:induction false} NonArgBlockShape(numArg: nat, objects: seq<string>, box: string, location: string)
    requires numArg <= |objects|
    ensures var r := NonArgBlock(numArg, objects, box, location);
      && r[0] == Call("on", [box, location])
      && (location != "table" ==> r == [Call("on", [box, location])])
      && (location == "table" ==> forall i :: 0 <= i < numArg ==> r[1 + i] == Call("nonblocking", [objects[i], box]))
  {
    var r := NonArgBlock(numArg, objects, box, location);
    if location == "table" {
      forall i | 0 <= i < numArg
        ensures r[1 + i] == Call("nonblocking", [objects[i], box])
      {
        NonblockingAt(numArg, objects, box, i);
      }
    }
  }

  /** The predicates of the first `m` non-argument boxes, which follow the `numArg` argument boxes in `objects`. */
  function NonArgPredicates(m: nat, numArg: nat, objects: seq<string>, rack: bool, locations: seq<string>, draws: seq<nat>): seq<string>
    requires numArg + m <= |objects| && m <= |draws|
    requires rack ==> forall j :: 0 <= j < |draws| ==> draws[j] < |locations|
  {
    if m == 0 then [] else
      NonArgPredicates(m - 1, numArg, objects, rack, locations, draws)
      + NonArgBlock(numArg, objects, objects[numArg + m - 1], NonArgLocation(m - 1, rack, locations, draws))
  }

  /**
   * Without a rack every non-argument box goes on the table, so each adds
   * its `on` predicate and one `nonblocking` predicate per argument box.
   */
  lemma {:induction false} NonArgPredicatesWithoutRack(m: nat, numArg: nat, objects: seq<string>, locations: seq<string>, draws: seq<nat>)
    requires numArg + m <= |objects| && m <= |draws|
    ensures |NonArgPredicates(m, numArg, objects, false, locations, draws)| == m * (1 + numArg)
  {
    if m > 0 {
      NonArgPredicatesWithoutRack(m - 1, numArg, objects, locations, draws);
      NonArgStepWithoutRack(m, numArg, objects, locations, draws);
      assert m * (1 + numArg) == (m - 1) * (1 + numArg) + (1 + numArg);
    }
  }

  /** Without a rack one more non-argument box adds `1 + numArg` predicates. */
  lemma {:induction false} NonArgStepWithoutRack(m: nat, numArg: nat, objects: seq<string>, locations: seq<string>, draws: seq<nat>)
    requires 0 < m && numArg + m <= |objects| && m <= |draws|
    ensures |NonArgPredicates(m, numArg, objects, false, locations, draws)|
      == |NonArgPredicates(m - 1, numArg, objects, false, locations, draws)| + 1 + numArg
  {
    var block := NonArgBlock(numArg, objects, objects[numArg + m - 1], "table");
    assert |block| == 1 + numArg;
    var prev := NonArgPredicates(m - 1, numArg, objects, false, locations, draws);
    assert NonArgPredicates(m, numArg, objects, false, locations, draws) == prev + block;
  }

  /**
   * The opening block of `hook_reach_task`: the hook predicates, then each
   * rack predicate whose flag is set, appended in order.
   */
  method HookAndRackPredicates(initLocationHook: string, targetLocationBox: Option<string>, onRackTable: bool, poslimitRack: bool)
    returns (predicates: seq<string>)
    ensures predicates == BasePredicates(initLocationHook, targetLocationBox, onRackTable, poslimitRack)
  {
    var inworkspaceRack := initLocationHook == "rack" || targetLocationBox == Some("rack");
    var rack := onRackTable || inworkspaceRack;
    predicates := [Call("free", ["hook"]), Call("inworkspace", ["hook"]), Call("on", ["hook", initLocationHook])];
    ghost var hookPredicates := predicates;
    ghost var onRack := if rack then [Call("on", ["rack", "table"])] else [];
    ghost var inworkspace := if inworkspaceRack then [Call("inworkspace", ["rack"])] else [];
    ghost var poslimit := if poslimitRack then [Call("poslimit", ["rack"])] else [];
    if rack {
      predicates := predicates + [Call("on", ["rack", "table"])];
    }
    assert predicates == hookPredicates + onRack;
    if inworkspaceRack {
      predicates := predicates + [Call("inworkspace", ["rack"])];
    }
    assert predicates == hookPredicates + onRack + inworkspace;
    if poslimitRack {
      predicates := predicates + [Call("poslimit", ["rack"])];
    }
    assert predicates == hookPredicates + onRack + inworkspace + poslimit;
    AppendAssoc(hookPredicates, onRack, inworkspace);
    AppendAssoc(hookPredicates, onRack + inworkspace, poslimit);
  }

  /** One more non-argument box adds its block after those of the boxes before it. */
  lemma {:induction false} NonArgPredicatesStep(j: nat, numArg: nat, objects: seq<string>, rack: bool, locations: seq<string>, draws: seq<nat>)
    requires numArg + j < |objects| && j < |draws|
    requires rack ==> forall i :: 0 <= i < |draws| ==> draws[i] < |locations|
    ensures NonArgPredicates(j + 1, numArg, objects, rack, locations, draws)
      == NonArgPredicates(j, numArg, objects, rack, locations, draws)
         + NonArgBlock(numArg, objects, objects[numArg + j], NonArgLocation(j, rack, locations, draws))
  {
  }

  /**
   * The body of the loop over non-argument boxes in `hook_reach_task`:
   * appends `on(box, location)` and, when the box is on the table, one
   * `nonblocking(arg, box)` per argument box.
   */
  method AppendNonArgBox(predicates: seq<string>, numArg: nat, objects: seq<string>, box: string, location: string)
    returns (r: seq<string>)
    requires numArg <= |objects|
    ensures r == predicates + NonArgBlock(numArg, objects, box, location)
  {
    r := predicates + [Call("on", [box, location])];
    ghost var located := r;
    var k := 0;
    while k < numArg
      invariant k <= numArg
      invariant r == located + (if location == "table" then Nonblocking(k, objects, box) else [])
    {
      var argObject := objects[k];
      if location == "table" {
        AppendAssoc(located, Nonblocking(k, objects, box), [Call("nonblocking", [argObject, box])]);
        r := r + [Call("nonblocking", [argObject, box])];
      }
      k := k + 1;
    }
    AppendAssoc(predicates, [Call("on", [box, location])], if location == "table" then Nonblocking(numArg, objects, box) else []);
  }

  /** The loop over argument boxes in `hook_reach_task`: appends each phase's skeleton and predicates. */
  method AppendArgPhases(predicates: seq<string>, numArg: nat, objects: seq<string>, initLocationHook: string,
                         targetLocationBox: Option<string>, rack: bool)
    returns (planSkeleton: seq<string>, r: seq<string>)
    requires numArg <= |objects|
    ensures planSkeleton == PlanSkeleton(numArg, objects, initLocationHook, targetLocationBox)
    ensures r == predicates + ArgPredicates(numArg, objects, rack)
  {
    planSkeleton := [];
    r := predicates;
    var argIdx := 0;
    while argIdx < numArg
      invariant argIdx <= numArg
      invariant planSkeleton == PlanSkeleton(argIdx, objects, initLocationHook, targetLocationBox)
      invariant r == predicates + ArgPredicates(argIdx, objects, rack)
    {
      var phaseSkeleton, phasePredicates := HookReachTaskPhase(argIdx, objects, initLocationHook, targetLocationBox, rack);
      AppendAssoc(predicates, ArgPredicates(argIdx, objects, rack), phasePredicates);
      planSkeleton := planSkeleton + phaseSkeleton;
      r := r + phasePredicates;
      argIdx := argIdx + 1;
    }
  }

  /** The loop over non-argument boxes in `hook_reach_task`. */
  method AppendNonArgBoxes(predicates: seq<string>, numArg: nat, numNonArg: nat, objects: seq<string>, rack: bool,
                           locations: seq<string>, draws: seq<nat>)
    returns (r: seq<string>)
    requires numArg + numNonArg <= |objects| && |draws| == numNonArg
    requires rack ==> forall j :: 0 <= j < |draws| ==> draws[j] < |locations|
    ensures r == predicates + NonArgPredicates(numNonArg, numArg, objects, rack, locations, draws)
  {
    r := predicates;
    var nonArgIdx := 0;
    while nonArgIdx < numNonArg
      invariant nonArgIdx <= numNonArg
      invariant r == predicates + NonArgPredicates(nonArgIdx, numArg, objects, rack, locations, draws)
    {
      var nonArgObject := objects[numArg + nonArgIdx];
      var nonArgLocation := NonArgLocation(nonArgIdx, rack, locations, draws);
      ghost var done := NonArgPredicates(nonArgIdx, numArg, objects, rack, locations, draws);
      ghost var block := NonArgBlock(numArg, objects, nonArgObject, nonArgLocation);
      r := AppendNonArgBox(r, numArg, objects, nonArgObject, nonArgLocation);
      NonArgPredicatesStep(nonArgIdx, numArg, objects, rack, locations, draws);
      AppendAssoc(predicates, done, block);
      nonArgIdx := nonArgIdx + 1;
    }
  }

  /**
   * `hook_reach_task`: the lifted task for `numArg` boxes to pull and
   * `numNonArg` other boxes. `draws[j]` is the value `random.randint` returns
   * for the `j`-th other box; `knownLocations` stands for `LOCATIONS`.
   */
  method HookReachTask(numTasks: int, objects: seq<string>, locations: seq<string>, knownLocations: set<string>,
                       numArg: nat, numNonArg: nat, initLocationHook: string, targetLocationBox: Option<string>,
                       onRackTable: bool, poslimitRack: bool, draws: seq<nat>)
    returns (r: Result<LiftedTask, string>)
    requires initLocationHook in knownLocations && numArg >= 1
    requires numArg + numNonArg <= |objects|
    requires |draws| == numNonArg
    requires RackPresent(initLocationHook, targetLocationBox, onRackTable) ==>
      forall j :: 0 <= j < |draws| ==> draws[j] < |locations|
    ensures r.Err? <==> poslimitRack && !RackPresent(initLocationHook, targetLocationBox, onRackTable)
    ensures r.Err? ==> r.error == "Cannot apply poslimit(rack) without rack"
    ensures r.Ok? ==> r.value.numTasks == numTasks && r.value.numLiftedObjects == numArg + numNonArg
    ensures r.Ok? ==> r.value.planSkeleton == PlanSkeleton(numArg, objects, initLocationHook, targetLocationBox)
    ensures r.Ok? ==>
      var rack := RackPresent(initLocationHook, targetLocationBox, onRackTable);
      r.value.predicates ==
        BasePredicates(initLocationHook, targetLocationBox, onRackTable, poslimitRack)
        + ArgPredicates(numArg, objects, rack)
        + NonArgPredicates(numNonArg, numArg, objects, rack, locations, draws)
  {
    var inworkspaceRack := initLocationHook == "rack" || targetLocationBox == Some("rack");
    var rack := onRackTable || inworkspaceRack;
    if poslimitRack && !rack {
      return Err("Cannot apply poslimit(rack) without rack");
    }

    var predicates := HookAndRackPredicates(initLocationHook, targetLocationBox, onRackTable, poslimitRack);
    var planSkeleton;
    planSkeleton, predicates := AppendArgPhases(predicates, numArg, objects, initLocationHook, targetLocationBox, rack);
    predicates := AppendNonArgBoxes(predicates, numArg, numNonArg, objects, rack, locations, draws);
    r := Ok(LiftedTask(numTasks, planSkeleton, predicates, numArg + numNonArg));
  }
}
