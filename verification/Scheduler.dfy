/**
 * The level-by-level scheduler of a job run. Its coroutines are steps of a state machine, taken in any
 * order the event loop may choose; what a task computes is an oracle.
 */
module Scheduler {
  import opened Text
  import opened TaskGraph

  datatype LifeCycle =
    | Pending | Running | Terminating | Terminated | Skipped | InternalError | Blocked | Queued | WaitingForRetry

  datatype ResultState = Success | Failed | TimedOut | Canceled | UpstreamFailed

  datatype TaskState = TaskState(lifeCycle: LifeCycle, result: Option<ResultState>)

  datatype TaskResult = TaskResult(state: Option<TaskState>)

  const SKIPPED := TaskResult(Some(TaskState(Skipped, None)))
  const CANCELED := TaskResult(Some(TaskState(Terminated, Some(Canceled))))

  // ---------------------------------------------------------------- run_if

  predicate Succeeded(r: TaskResult) { r.state.Some? && r.state.value.result == Some(Success) }

  predicate HasFailed(r: TaskResult) { r.state.Some? && r.state.value.result in {Some(Failed), Some(TimedOut)} }

  predicate IsDone(r: TaskResult) { r.state.Some? && r.state.value.lifeCycle in {Terminated, Skipped} }

  function Count(results: seq<TaskResult>, p: TaskResult -> bool): nat {
    if results == [] then 0 else (if p(results[0]) then 1 else 0) + Count(results[1..], p)
  }

  /** `_run_if_satisfied`: the condition on the results of the direct dependencies. */
  function RunIfSatisfied(runIf: RunIf, deps: seq<TaskResult>): bool {
    if deps == [] then true
    else
      var total := |deps|;
      var succeeded, failed, done := Count(deps, Succeeded), Count(deps, HasFailed), Count(deps, IsDone);
      match runIf
      case AllDone => done == total
      case AtLeastOneSuccess => succeeded >= 1
      case AllFailed => failed == total
      case AtLeastOneFailed => failed >= 1
      case NoneFailed => failed == 0
      case AllSuccess => succeeded == total
  }

  lemma {:induction false} CountMeaning(results: seq<TaskResult>, p: TaskResult -> bool)
    ensures Count(results, p) <= |results|
    ensures Count(results, p) == |results| <==> forall r | r in results :: p(r)
    ensures Count(results, p) >= 1 <==> exists r :: r in results && p(r)
  {
    if results != [] {
      CountMeaning(results[1..], p);
      assert results == [results[0]] + results[1..];
    }
  }

  /** The task came to one of these result states. */
  predicate EndedIn(r: TaskResult, states: set<ResultState>) {
    r.state.Some? && r.state.value.result.Some? && r.state.value.result.value in states
  }

  predicate LivesIn(r: TaskResult, states: set<LifeCycle>) { r.state.Some? && r.state.value.lifeCycle in states }

  /** What each condition says about the states of the dependencies; a task without any always runs. */
  lemma RunIfMeaning(deps: seq<TaskResult>)
    ensures RunIfSatisfied(AllSuccess, deps) <==> forall r | r in deps :: EndedIn(r, {Success})
    ensures RunIfSatisfied(AllDone, deps) <==> forall r | r in deps :: LivesIn(r, {Terminated, Skipped})
    ensures RunIfSatisfied(AllFailed, deps) <==> forall r | r in deps :: EndedIn(r, {Failed, TimedOut})
    ensures RunIfSatisfied(NoneFailed, deps) <==> forall r | r in deps :: !EndedIn(r, {Failed, TimedOut})
    ensures RunIfSatisfied(AtLeastOneSuccess, deps) <==> deps == [] || exists r :: r in deps && EndedIn(r, {Success})
    ensures RunIfSatisfied(AtLeastOneFailed, deps) <==>
      deps == [] || exists r :: r in deps && EndedIn(r, {Failed, TimedOut})
  {
    CountMeaning(deps, Succeeded);
    CountMeaning(deps, HasFailed);
    CountMeaning(deps, IsDone);
  }

  // ---------------------------------------------------------------- depth

  function TaskOf(tasks: seq<Task>, key: string): (t: Task)
    requires key in Keys(tasks)
    ensures t in tasks && t.key == key
  {
    if tasks[0].key == key then tasks[0] else
      assert tasks == [tasks[0]] + tasks[1..];
      TaskOf(tasks[1..], key)
  }

  lemma TaskOfUnique(tasks: seq<Task>, t: Task)
    requires UniqueKeys(tasks) && t in tasks
    ensures t.key in Keys(tasks) && TaskOf(tasks, t.key) == t
  {
    var u := TaskOf(tasks, t.key);
    var i :| 0 <= i < |tasks| && tasks[i] == t;
    var j :| 0 <= j < |tasks| && tasks[j] == u;
  }

  /** One less than the length of the longest chain of dependencies behind each task. */
  ghost predicate IsDepth(tasks: seq<Task>, depth: map<string, nat>) {
    && UniqueKeys(tasks) && KnownDependencies(tasks) && depth.Keys == Keys(tasks)
    && forall t | t in tasks ::
         && (forall d | d in t.dependsOn :: d in depth && depth[d] < depth[t.key])
         && (depth[t.key] > 0 ==> exists d :: d in t.dependsOn && d in depth && depth[d] == depth[t.key] - 1)
  }

  function Deepest(deps: seq<string>, depth: map<string, nat>): nat
    requires forall d | d in deps :: d in depth
  {
    if deps == [] then 0
    else
      var rest := Deepest(deps[1..], depth);
      if depth[deps[0]] + 1 > rest then depth[deps[0]] + 1 else rest
  }

  lemma {:induction false} DeepestIs(deps: seq<string>, depth: map<string, nat>)
    requires forall d | d in deps :: d in depth
    ensures forall d | d in deps :: depth[d] < Deepest(deps, depth)
    ensures Deepest(deps, depth) > 0 ==> exists d :: d in deps && d in depth && depth[d] == Deepest(deps, depth) - 1
  {
    if deps != [] {
      DeepestIs(deps[1..], depth);
      assert deps == [deps[0]] + deps[1..];
    }
  }

  /** Depths of the first `n` tasks of a topological order. */
  ghost predicate IsDepthOf(tasks: seq<Task>, order: seq<string>, n: nat, depth: map<string, nat>) {
    && n <= |order| && depth.Keys == Elements(order[..n])
    && forall t | t in tasks && t.key in depth ::
         && (forall d | d in t.dependsOn :: d in depth && depth[d] < depth[t.key])
         && (depth[t.key] > 0 ==> exists d :: d in t.dependsOn && d in depth && depth[d] == depth[t.key] - 1)
  }

  lemma {:induction false} DepthUpTo(tasks: seq<Task>, order: seq<string>, n: nat) returns (depth: map<string, nat>)
    requires UniqueKeys(tasks) && TopologicalOrder(tasks, order) && n <= |order|
    ensures IsDepthOf(tasks, order, n, depth)
  {
    depth := map[];
    if n > 0 {
      var before := DepthUpTo(tasks, order, n - 1);
      var k := order[n - 1];
      assert k in Elements(order);
      var t := TaskOf(tasks, k);
      assert Elements(t.dependsOn) <= Elements(order[..n - 1]);
      forall d | d in t.dependsOn ensures d in before {
        assert d in Elements(t.dependsOn);
      }
      DeepestIs(t.dependsOn, before);
      depth := before[k := Deepest(t.dependsOn, before)];
      DepthExtend(tasks, order, n, before, t);
    }
  }

  lemma DepthExtend(tasks: seq<Task>, order: seq<string>, n: nat, before: map<string, nat>, t: Task)
    requires UniqueKeys(tasks) && TopologicalOrder(tasks, order) && 0 < n <= |order|
    requires IsDepthOf(tasks, order, n - 1, before) && t in tasks && t.key == order[n - 1]
    requires forall d | d in t.dependsOn :: d in before
    ensures IsDepthOf(tasks, order, n, before[t.key := Deepest(t.dependsOn, before)])
  {
    hide TopologicalOrder;
    var depth := before[t.key := Deepest(t.dependsOn, before)];
    assert order[..n] == order[..n - 1] + [t.key];
    DeepestIs(t.dependsOn, before);
    KeyNotBefore(tasks, order, n - 1);
    forall u | u in tasks && u.key in depth
      ensures forall d | d in u.dependsOn :: d in depth && depth[d] < depth[u.key]
      ensures depth[u.key] > 0 ==> exists d :: d in u.dependsOn && d in depth && depth[d] == depth[u.key] - 1
    {
      if u.key == t.key {
        TaskOfUnique(tasks, u);
        TaskOfUnique(tasks, t);
        forall d | d in u.dependsOn ensures d in depth && depth[d] < depth[u.key] {
          assert d != t.key;
        }
        if depth[u.key] > 0 {
          var d :| d in t.dependsOn && d in before && before[d] == depth[u.key] - 1;
          assert d != t.key && depth[d] == before[d];
        }
      } else {
        assert u.key in before;
        forall d | d in u.dependsOn ensures d in depth && depth[d] < depth[u.key] {
          assert d in before && d != t.key;
        }
        if depth[u.key] > 0 {
          var d :| d in u.dependsOn && d in before && before[d] == before[u.key] - 1;
          assert d != t.key && depth[d] == before[d];
        }
      }
    }
  }

  lemma KeyNotBefore(tasks: seq<Task>, order: seq<string>, n: nat)
    requires TopologicalOrder(tasks, order) && n < |order|
    ensures order[n] !in Elements(order[..n])
  {
    forall i | 0 <= i < n ensures order[..n][i] != order[n] {
      assert order[..n][i] == order[i];
    }
  }

  /** Every accepted graph has depths. */
  lemma DepthExists(tasks: seq<Task>) returns (depth: map<string, nat>)
    requires Schedulable(tasks)
    ensures IsDepth(tasks, depth)
  {
    var order :| TopologicalOrder(tasks, order);
    depth := DepthUpTo(tasks, order, |order|);
    assert order[..|order|] == order;
  }

  // ---------------------------------------------------------------- the state machine

  /** What running a task yields; nothing when it raises. */
  type Oracle = string -> Option<TaskResult>

  /**
   * The scheduler between two steps: `round` is the level being gathered, of which `waiting` have not
   * begun, `running` are being awaited and `raised` have raised; `started` lists the executions begun.
   */
  datatype Sched = Sched(
    results: map<string, TaskResult>, pending: set<string>,
    round: set<string>, waiting: set<string>, running: set<string>, raised: set<string>,
    rounds: nat, started: seq<string>, unschedulable: bool)

  function Initial(tasks: seq<Task>): Sched { Sched(map[], Keys(tasks), {}, {}, {}, {}, 0, [], false) }

  datatype Action = StartRound | Begin(key: string) | Complete(key: string) | EndRound

  /** `[k for k in pending if all(d in results for d in deps_by_key[k])]`. */
  function Ready(tasks: seq<Task>, st: Sched): (ready: set<string>)
    requires st.pending <= Keys(tasks)
    ensures ready <= st.pending
  {
    set k | k in st.pending && forall d | d in TaskOf(tasks, k).dependsOn :: d in st.results
  }

  /** `[results[d] for d in deps_by_key[k] if d in results]`. */
  function DependencyResults(deps: seq<string>, results: map<string, TaskResult>): seq<TaskResult> {
    if deps == [] then []
    else (if deps[0] in results then [results[deps[0]]] else []) + DependencyResults(deps[1..], results)
  }

  function RunIfOf(t: Task): RunIf { match t.runIf case Some(r) => r case None => AllSuccess }

  predicate Runs(tasks: seq<Task>, key: string, results: map<string, TaskResult>)
    requires key in Keys(tasks)
  {
    var t := TaskOf(tasks, key);
    RunIfSatisfied(RunIfOf(t), DependencyResults(t.dependsOn, results))
  }

  predicate WellKeyed(tasks: seq<Task>, st: Sched) {
    st.pending <= Keys(tasks) && st.waiting <= Keys(tasks)
  }

  predicate Enabled(tasks: seq<Task>, st: Sched, a: Action) {
    match a
    case StartRound => st.round == {} && st.pending != {}
    case Begin(k) => k in st.waiting
    case Complete(k) => k in st.running
    case EndRound => st.round != {} && st.waiting == {} && st.running == {} && st.raised == {}
  }

  /** One step of the scheduler; `cancel` is the run's cancellation flag at that moment. */
  function Next(tasks: seq<Task>, oracle: Oracle, cancel: bool, st: Sched, a: Action): Sched
    requires WellKeyed(tasks, st) && Enabled(tasks, st, a)
  {
    match a
    case StartRound =>
      var ready := Ready(tasks, st);
      if ready == {} then
        st.(results := st.results + (map k | k in st.pending :: SKIPPED), pending := {}, unschedulable := true)
      else st.(round := ready, waiting := ready, rounds := st.rounds + 1)
    case Begin(k) =>
      if cancel then st.(waiting := st.waiting - {k}, results := st.results[k := CANCELED])
      else if !Runs(tasks, k, st.results) then st.(waiting := st.waiting - {k}, results := st.results[k := SKIPPED])
      else st.(waiting := st.waiting - {k}, running := st.running + {k}, started := st.started + [k])
    case Complete(k) =>
      (match oracle(k)
       case Some(r) => st.(running := st.running - {k}, results := st.results[k := r])
       case None => st.(running := st.running - {k}, raised := st.raised + {k}))
    case EndRound => st.(pending := st.pending - st.round, round := {})
  }

  /** The loop is over. */
  predicate Finished(st: Sched) { st.pending == {} }

  /** The gathered level is over and one of its tasks raised. */
  predicate HasRaised(st: Sched) { st.round != {} && st.waiting == {} && st.running == {} && st.raised != {} }

  // ---------------------------------------------------------------- the invariant

  ghost predicate Level(tasks: seq<Task>, depth: map<string, nat>, keys: set<string>, n: nat) {
    forall k :: k in keys <==> k in depth && depth[k] == n
  }

  /**
   * Round `n` gathers exactly the tasks of depth `n`: those below have a result, those above are pending,
   * and within the level the tasks that no longer wait, run or raised have theirs.
   */
  ghost predicate Inv(tasks: seq<Task>, depth: map<string, nat>, st: Sched) {
    && IsDepth(tasks, depth) && !st.unschedulable
    && (st.round != {} ==> st.rounds > 0)
    && (var n := if st.round == {} then st.rounds else st.rounds - 1;
        && (forall k :: k in st.pending <==> k in depth && depth[k] >= n)
        && (st.round != {} ==> Level(tasks, depth, st.round, n))
        && (forall k :: k in st.results <==>
              k in depth && (depth[k] < n || (k in st.round && k !in st.waiting && k !in st.running && k !in st.raised))))
    && st.waiting <= st.round && st.running <= st.round && st.raised <= st.round
    && st.waiting !! st.running && st.waiting !! st.raised && st.running !! st.raised
  }

  lemma InvWellKeyed(tasks: seq<Task>, depth: map<string, nat>, st: Sched)
    requires Inv(tasks, depth, st)
    ensures WellKeyed(tasks, st)
  {
    forall k | k in st.waiting ensures k in Keys(tasks) {
      assert k in st.round;
    }
  }

  lemma InitialInv(tasks: seq<Task>, depth: map<string, nat>)
    requires IsDepth(tasks, depth)
    ensures Inv(tasks, depth, Initial(tasks))
  {
  }

  /** The tasks that can start are exactly those of the next depth. */
  lemma ReadyIsLevel(tasks: seq<Task>, depth: map<string, nat>, st: Sched)
    requires Inv(tasks, depth, st) && st.round == {}
    ensures WellKeyed(tasks, st) && Level(tasks, depth, Ready(tasks, st), st.rounds)
  {
    InvWellKeyed(tasks, depth, st);
    var ready := Ready(tasks, st);
    forall k ensures k in ready <==> k in depth && depth[k] == st.rounds {
      if k in st.pending {
        var t := TaskOf(tasks, k);
        assert depth[k] >= st.rounds;
        if depth[k] == st.rounds {
          forall d | d in t.dependsOn ensures d in st.results {
            assert depth[d] < depth[k];
          }
        } else {
          var d :| d in t.dependsOn && d in depth && depth[d] == depth[k] - 1;
          assert d !in st.results;
        }
      }
    }
  }

  /** Some task sits at every depth up to the largest. */
  lemma {:induction false} LevelsFilled(tasks: seq<Task>, depth: map<string, nat>, k: string, n: nat) returns (j: string)
    requires IsDepth(tasks, depth) && k in depth && n <= depth[k]
    ensures j in depth && depth[j] == n
    decreases depth[k]
  {
    if depth[k] == n {
      j := k;
    } else {
      var t := TaskOf(tasks, k);
      var d :| d in t.dependsOn && d in depth && depth[d] == depth[k] - 1;
      j := LevelsFilled(tasks, depth, d, n);
    }
  }

  /** The fallback for an unschedulable remainder is never taken. */
  lemma NeverStalls(tasks: seq<Task>, depth: map<string, nat>, st: Sched)
    requires Inv(tasks, depth, st) && st.round == {} && st.pending != {}
    ensures WellKeyed(tasks, st) && Ready(tasks, st) != {}
  {
    ReadyIsLevel(tasks, depth, st);
    var k :| k in st.pending;
    var j := LevelsFilled(tasks, depth, k, st.rounds);
    assert j in Ready(tasks, st);
  }

  /** Every step keeps the invariant, in whatever order the steps of a round are taken. */
  lemma NextInv(tasks: seq<Task>, depth: map<string, nat>, oracle: Oracle, cancel: bool, st: Sched, a: Action)
    requires Inv(tasks, depth, st) && Enabled(tasks, st, a)
    ensures WellKeyed(tasks, st) && Inv(tasks, depth, Next(tasks, oracle, cancel, st, a))
  {
    hide Runs, IsDepth;
    InvWellKeyed(tasks, depth, st) by {
      assert Inv(tasks, depth, st);
    }
    match a
    case StartRound =>
      NeverStalls(tasks, depth, st);
      ReadyIsLevel(tasks, depth, st);
    case Begin(k) =>
      assert k in st.round;
    case Complete(k) =>
      assert k in st.round;
    case EndRound =>
  }

  /** Everything a gathered task depends on has its result. */
  ghost predicate DependenciesDone(tasks: seq<Task>, keys: set<string>, results: map<string, TaskResult>)
    requires keys <= Keys(tasks)
  {
    forall k, d | k in keys && d in TaskOf(tasks, k).dependsOn :: d in results
  }

  lemma RoundDependenciesDone(tasks: seq<Task>, depth: map<string, nat>, st: Sched)
    requires Inv(tasks, depth, st)
    ensures st.round <= Keys(tasks) && DependenciesDone(tasks, st.round, st.results)
    ensures WellKeyed(tasks, st) && st.waiting <= st.round && st.running <= st.round
    ensures forall k | k in st.waiting || k in st.running :: k !in st.results
  {
    InvWellKeyed(tasks, depth, st);
    forall k | k in st.round ensures k in Keys(tasks) {
    }
    forall k, d | k in st.round && d in TaskOf(tasks, k).dependsOn ensures d in st.results {
      assert depth[d] < depth[k];
    }
  }

  /** Results are given once, to a task all of whose dependencies have theirs, and never changed. */
  lemma NextKeepsResults(tasks: seq<Task>, depth: map<string, nat>, oracle: Oracle, cancel: bool, st: Sched, a: Action)
    requires Inv(tasks, depth, st) && Enabled(tasks, st, a)
    ensures
      WellKeyed(tasks, st) &&
      var next := Next(tasks, oracle, cancel, st, a);
      && (forall k | k in st.results :: k in next.results && next.results[k] == st.results[k])
      && (forall k | k in next.results && k !in st.results :: (a == Begin(k) || a == Complete(k)) && k in st.round)
      && st.round <= Keys(tasks) && DependenciesDone(tasks, st.round, st.results)
      && next.running <= st.round
  {
    hide Runs, Inv, DependenciesDone, Ready, IsDepth, TaskOf, WellKeyed, Keys;
    RoundDependenciesDone(tasks, depth, st);
    if a.StartRound? {
      NeverStalls(tasks, depth, st);
    }
  }

  // ---------------------------------------------------------------- the recursive specification

  /** What a task comes to, given the results of its dependencies. */
  function Outcome(tasks: seq<Task>, oracle: Oracle, key: string, results: map<string, TaskResult>): TaskResult
    requires key in Keys(tasks)
  {
    if !Runs(tasks, key, results) then SKIPPED
    else match oracle(key) case Some(r) => r case None => SKIPPED
  }

  /** The result of a task by recursion over its direct dependencies alone. */
  ghost function SpecResult(tasks: seq<Task>, depth: map<string, nat>, oracle: Oracle, key: string): TaskResult
    requires IsDepth(tasks, depth) && key in depth
    decreases depth[key], 1
  {
    Outcome(tasks, oracle, key, SpecResults(tasks, depth, oracle, key))
  }

  /** The results of the direct dependencies of a task. */
  ghost function SpecResults(tasks: seq<Task>, depth: map<string, nat>, oracle: Oracle, key: string): map<string, TaskResult>
    requires IsDepth(tasks, depth) && key in depth
    decreases depth[key], 0
  {
    map d | d in TaskOf(tasks, key).dependsOn :: SpecResult(tasks, depth, oracle, d)
  }

  lemma {:induction false} SameDependencyResults(deps: seq<string>, a: map<string, TaskResult>, b: map<string, TaskResult>)
    requires forall d | d in deps :: (d in a <==> d in b) && (d in a ==> a[d] == b[d])
    ensures DependencyResults(deps, a) == DependencyResults(deps, b)
  {
    if deps != [] {
      assert deps == [deps[0]] + deps[1..];
      SameDependencyResults(deps[1..], a, b);
    }
  }

  /** Every result so far is the specified one. */
  ghost predicate AsSpecified(tasks: seq<Task>, depth: map<string, nat>, oracle: Oracle, st: Sched)
    requires IsDepth(tasks, depth)
  {
    && (forall k | k in st.results :: k in depth && st.results[k] == SpecResult(tasks, depth, oracle, k))
    && (forall k | k in st.running :: k in depth && Runs(tasks, k, SpecResults(tasks, depth, oracle, k)))
  }

  /** A dependency's condition reads only direct dependencies, so it may be evaluated on the specification. */
  lemma RunsAsSpecified(tasks: seq<Task>, depth: map<string, nat>, oracle: Oracle, st: Sched, k: string)
    requires IsDepth(tasks, depth) && AsSpecified(tasks, depth, oracle, st) && k in depth
    requires forall d | d in TaskOf(tasks, k).dependsOn :: d in st.results
    ensures Runs(tasks, k, st.results) == Runs(tasks, k, SpecResults(tasks, depth, oracle, k))
  {
    SameDependencyResults(TaskOf(tasks, k).dependsOn, st.results, SpecResults(tasks, depth, oracle, k));
  }

  lemma SpecUnfold(tasks: seq<Task>, depth: map<string, nat>, oracle: Oracle, k: string)
    requires IsDepth(tasks, depth) && k in depth
    ensures k in Keys(tasks)
    ensures !Runs(tasks, k, SpecResults(tasks, depth, oracle, k)) ==> SpecResult(tasks, depth, oracle, k) == SKIPPED
    ensures Runs(tasks, k, SpecResults(tasks, depth, oracle, k)) && oracle(k).Some? ==>
              SpecResult(tasks, depth, oracle, k) == oracle(k).value
  {
    hide Runs;
  }

  lemma RoundInDepth(tasks: seq<Task>, depth: map<string, nat>, st: Sched)
    requires Inv(tasks, depth, st)
    ensures IsDepth(tasks, depth) && forall k | k in st.round :: k in depth
  {
  }

  lemma BeginAsSpecified(tasks: seq<Task>, depth: map<string, nat>, oracle: Oracle, st: Sched, k: string)
    requires Inv(tasks, depth, st) && k in st.waiting && AsSpecified(tasks, depth, oracle, st)
    ensures WellKeyed(tasks, st) && AsSpecified(tasks, depth, oracle, Next(tasks, oracle, false, st, Begin(k)))
  {
    hide Runs, Inv, IsDepth, SpecResult, SpecResults, TaskOf, DependenciesDone;
    RoundDependenciesDone(tasks, depth, st);
    RoundInDepth(tasks, depth, st);
    assert k in st.round;
    DependenciesDoneFor(tasks, st.round, st.results, k);
    RunsAsSpecified(tasks, depth, oracle, st, k);
    SpecUnfold(tasks, depth, oracle, k);
  }

  lemma DependenciesDoneFor(tasks: seq<Task>, keys: set<string>, results: map<string, TaskResult>, k: string)
    requires keys <= Keys(tasks) && DependenciesDone(tasks, keys, results) && k in keys
    ensures forall d | d in TaskOf(tasks, k).dependsOn :: d in results
  {
  }

  lemma CompleteAsSpecified(tasks: seq<Task>, depth: map<string, nat>, oracle: Oracle, st: Sched, k: string)
    requires Inv(tasks, depth, st) && k in st.running && AsSpecified(tasks, depth, oracle, st)
    ensures WellKeyed(tasks, st) && AsSpecified(tasks, depth, oracle, Next(tasks, oracle, false, st, Complete(k)))
  {
    hide Runs, Inv, IsDepth, SpecResult, SpecResults, TaskOf;
    RoundDependenciesDone(tasks, depth, st);
    RoundInDepth(tasks, depth, st);
    SpecUnfold(tasks, depth, oracle, k);
  }

  /** Without cancellation every step, in any order, gives the specified result. */
  lemma NextAsSpecified(tasks: seq<Task>, depth: map<string, nat>, oracle: Oracle, st: Sched, a: Action)
    requires Inv(tasks, depth, st) && Enabled(tasks, st, a) && AsSpecified(tasks, depth, oracle, st)
    ensures WellKeyed(tasks, st) && AsSpecified(tasks, depth, oracle, Next(tasks, oracle, false, st, a))
  {
    hide Runs, Inv, IsDepth, SpecResult, SpecResults, TaskOf;
    match a
    case StartRound =>
      NeverStalls(tasks, depth, st);
    case Begin(k) =>
      BeginAsSpecified(tasks, depth, oracle, st, k);
    case Complete(k) =>
      CompleteAsSpecified(tasks, depth, oracle, st, k);
    case EndRound =>
      InvWellKeyed(tasks, depth, st);
  }

  // ---------------------------------------------------------------- which tasks are executed

  /** The specification executes the task. */
  ghost predicate Executes(tasks: seq<Task>, depth: map<string, nat>, oracle: Oracle, k: string)
    requires IsDepth(tasks, depth) && k in depth
  {
    Runs(tasks, k, SpecResults(tasks, depth, oracle, k))
  }

  predicate Begun(st: Sched, k: string) { k in st.results || k in st.running || k in st.raised }

  /** Of the tasks that were reached, exactly those the specification executes were started, each once. */
  ghost predicate StartedAsSpecified(tasks: seq<Task>, depth: map<string, nat>, oracle: Oracle, st: Sched)
    requires IsDepth(tasks, depth)
  {
    && Distinct(st.started)
    && (forall k | k in st.started :: Begun(st, k))
    && (forall k | Begun(st, k) && k in depth :: k in st.started <==> Executes(tasks, depth, oracle, k))
  }

  lemma StartAsSpecified(tasks: seq<Task>, depth: map<string, nat>, oracle: Oracle, st: Sched, k: string)
    requires Inv(tasks, depth, st) && k in st.waiting
    requires AsSpecified(tasks, depth, oracle, st) && StartedAsSpecified(tasks, depth, oracle, st)
    ensures WellKeyed(tasks, st) && StartedAsSpecified(tasks, depth, oracle, Next(tasks, oracle, false, st, Begin(k)))
  {
    hide Runs, Inv, IsDepth, SpecResult, SpecResults, TaskOf, DependenciesDone;
    RoundDependenciesDone(tasks, depth, st);
    RoundInDepth(tasks, depth, st);
    WaitingNotBegun(tasks, depth, st, k);
    assert k in st.round;
    DependenciesDoneFor(tasks, st.round, st.results, k);
    RunsAsSpecified(tasks, depth, oracle, st, k);
    if Runs(tasks, k, st.results) {
      AppendDistinct(st.started, k);
    }
  }

  lemma WaitingNotBegun(tasks: seq<Task>, depth: map<string, nat>, st: Sched, k: string)
    requires Inv(tasks, depth, st) && k in st.waiting
    ensures !Begun(st, k)
  {
  }

  lemma NextStarted(tasks: seq<Task>, depth: map<string, nat>, oracle: Oracle, st: Sched, a: Action)
    requires Inv(tasks, depth, st) && Enabled(tasks, st, a)
    requires AsSpecified(tasks, depth, oracle, st) && StartedAsSpecified(tasks, depth, oracle, st)
    ensures WellKeyed(tasks, st) && StartedAsSpecified(tasks, depth, oracle, Next(tasks, oracle, false, st, a))
  {
    hide Runs, Inv, IsDepth, SpecResult, SpecResults, TaskOf, Executes, Ready;
    match a
    case StartRound =>
      NeverStalls(tasks, depth, st);
    case Begin(k) =>
      StartAsSpecified(tasks, depth, oracle, st, k);
    case Complete(k) =>
      RoundDependenciesDone(tasks, depth, st);
      var next := Next(tasks, oracle, false, st, a);
      assert forall j :: Begun(next, j) <==> Begun(st, j);
    case EndRound =>
      InvWellKeyed(tasks, depth, st);
      EndRoundBegun(tasks, oracle, st);
  }

  lemma EndRoundBegun(tasks: seq<Task>, oracle: Oracle, st: Sched)
    requires WellKeyed(tasks, st) && Enabled(tasks, st, EndRound)
    ensures forall k :: Begun(Next(tasks, oracle, false, st, EndRound), k) <==> Begun(st, k)
  {
  }

  /** The specification executes the task and it raises. */
  ghost predicate Raises(tasks: seq<Task>, depth: map<string, nat>, oracle: Oracle, k: string)
    requires IsDepth(tasks, depth) && k in depth
  {
    Executes(tasks, depth, oracle, k) && oracle(k).None?
  }

  /** What has raised was to raise, and what has a result was not. */
  ghost predicate RaisedAsSpecified(tasks: seq<Task>, depth: map<string, nat>, oracle: Oracle, st: Sched)
    requires IsDepth(tasks, depth)
  {
    && (forall k | k in st.raised :: k in depth && Raises(tasks, depth, oracle, k))
    && (forall k | k in st.results :: k in depth && !Raises(tasks, depth, oracle, k))
  }

  lemma NextRaised(tasks: seq<Task>, depth: map<string, nat>, oracle: Oracle, st: Sched, a: Action)
    requires Inv(tasks, depth, st) && Enabled(tasks, st, a)
    requires AsSpecified(tasks, depth, oracle, st) && RaisedAsSpecified(tasks, depth, oracle, st)
    ensures WellKeyed(tasks, st) && RaisedAsSpecified(tasks, depth, oracle, Next(tasks, oracle, false, st, a))
  {
    hide Runs, Inv, IsDepth, SpecResult, SpecResults, TaskOf, DependenciesDone, Ready;
    RoundDependenciesDone(tasks, depth, st);
    RoundInDepth(tasks, depth, st);
    match a
    case StartRound =>
      hide AsSpecified, Raises;
      NeverStalls(tasks, depth, st);
    case Begin(k) =>
      assert k in st.round;
      DependenciesDoneFor(tasks, st.round, st.results, k);
      BeginRaised(tasks, depth, oracle, st, k);
    case Complete(k) =>
      assert k in st.round;
    case EndRound =>
      hide AsSpecified, Raises;
  }

  lemma BeginRaised(tasks: seq<Task>, depth: map<string, nat>, oracle: Oracle, st: Sched, k: string)
    requires IsDepth(tasks, depth) && WellKeyed(tasks, st) && k in st.waiting && k in depth && k !in st.results
    requires AsSpecified(tasks, depth, oracle, st) && RaisedAsSpecified(tasks, depth, oracle, st)
    requires forall d | d in TaskOf(tasks, k).dependsOn :: d in st.results
    ensures RaisedAsSpecified(tasks, depth, oracle, Next(tasks, oracle, false, st, Begin(k)))
  {
    hide Next, Runs, IsDepth, SpecResult, SpecResults, TaskOf, AsSpecified;
    RunsAsSpecified(tasks, depth, oracle, st, k);
    BeginNext(tasks, oracle, false, st, k);
  }

  ghost predicate IsAncestor(tasks: seq<Task>, depth: map<string, nat>, a: string, k: string)
    requires IsDepth(tasks, depth) && k in depth
    decreases depth[k]
  {
    exists d :: d in TaskOf(tasks, k).dependsOn && (d == a || IsAncestor(tasks, depth, a, d))
  }

  lemma {:induction false} DependencyResultsAre(deps: seq<string>, results: map<string, TaskResult>)
    requires forall d | d in deps :: d in results
    ensures forall d | d in deps :: results[d] in DependencyResults(deps, results)
    ensures forall r | r in DependencyResults(deps, results) :: exists d :: d in deps && d in results && results[d] == r
  {
    if deps != [] {
      assert deps == [deps[0]] + deps[1..];
      DependencyResultsAre(deps[1..], results);
      forall r | r in DependencyResults(deps, results)
        ensures exists d :: d in deps && d in results && results[d] == r
      {
        if r == results[deps[0]] {
          assert deps[0] in deps;
        } else {
          assert r in DependencyResults(deps[1..], results);
          var d :| d in deps[1..] && d in results && results[d] == r;
          assert d in deps;
        }
      }
    }
  }

  /** When a task whose dependencies have results is executed; ALL_SUCCESS is the default. */
  lemma RunsIff(tasks: seq<Task>, key: string, results: map<string, TaskResult>)
    requires key in Keys(tasks) && forall d | d in TaskOf(tasks, key).dependsOn :: d in results
    ensures
      var deps := TaskOf(tasks, key).dependsOn;
      Runs(tasks, key, results) <==>
        match TaskOf(tasks, key).runIf
        case None => forall d | d in deps :: EndedIn(results[d], {Success})
        case Some(AllSuccess) => forall d | d in deps :: EndedIn(results[d], {Success})
        case Some(AllDone) => forall d | d in deps :: LivesIn(results[d], {Terminated, Skipped})
        case Some(AllFailed) => forall d | d in deps :: EndedIn(results[d], {Failed, TimedOut})
        case Some(NoneFailed) => forall d | d in deps :: !EndedIn(results[d], {Failed, TimedOut})
        case Some(AtLeastOneSuccess) => deps == [] || exists d :: d in deps && EndedIn(results[d], {Success})
        case Some(AtLeastOneFailed) => deps == [] || exists d :: d in deps && EndedIn(results[d], {Failed, TimedOut})
  {
    var t := TaskOf(tasks, key);
    var rs := DependencyResults(t.dependsOn, results);
    DependencyResultsAre(t.dependsOn, results);
    RunIfMeaning(rs);
    if t.dependsOn != [] {
      assert t.dependsOn[0] in t.dependsOn;
    }
    hide RunIfSatisfied, DependencyResults, TaskOf, Keys;
  }

  /** The specified result of a task: what running it yields, or SKIPPED without a result state. */
  lemma SpecMeaning(tasks: seq<Task>, depth: map<string, nat>, oracle: Oracle, key: string)
    requires IsDepth(tasks, depth) && key in depth
    ensures
      var results := SpecResults(tasks, depth, oracle, key);
      && (forall d :: d in results <==> d in TaskOf(tasks, key).dependsOn)
      && (forall d | d in results :: d in depth && results[d] == SpecResult(tasks, depth, oracle, d))
      && (!Runs(tasks, key, results) ==> SpecResult(tasks, depth, oracle, key) == TaskResult(Some(TaskState(Skipped, None))))
      && (Runs(tasks, key, results) && oracle(key).Some? ==> SpecResult(tasks, depth, oracle, key) == oracle(key).value)
  {
    SpecUnfold(tasks, depth, oracle, key);
    hide Runs;
  }

  /** Under ALL_SUCCESS a task executes when its direct dependencies succeeded. */
  lemma ExecutesWhenDependenciesSucceed(tasks: seq<Task>, depth: map<string, nat>, oracle: Oracle, k: string)
    requires IsDepth(tasks, depth) && k in depth && RunIfOf(TaskOf(tasks, k)) == AllSuccess
    ensures Executes(tasks, depth, oracle, k) <==>
            forall d | d in TaskOf(tasks, k).dependsOn :: Succeeded(SpecResult(tasks, depth, oracle, d))
  {
    SpecMeaning(tasks, depth, oracle, k);
    hide SpecResult, SpecResults, Runs, TaskOf, IsDepth;
    RunsIff(tasks, k, SpecResults(tasks, depth, oracle, k));
  }

  lemma SuccessMeansExecuted(tasks: seq<Task>, depth: map<string, nat>, oracle: Oracle, k: string)
    requires IsDepth(tasks, depth) && k in depth && Succeeded(SpecResult(tasks, depth, oracle, k))
    ensures Executes(tasks, depth, oracle, k)
  {
    hide Runs;
  }

  /** If every task has the default condition, a task executes iff all its ancestors executed and succeeded. */
  lemma {:induction false} AllSuccessAncestors(tasks: seq<Task>, depth: map<string, nat>, oracle: Oracle, k: string)
    requires IsDepth(tasks, depth) && k in depth
    requires forall t | t in tasks :: RunIfOf(t) == AllSuccess
    ensures Executes(tasks, depth, oracle, k) <==>
            forall a | a in depth && IsAncestor(tasks, depth, a, k) ::
              Executes(tasks, depth, oracle, a) && Succeeded(SpecResult(tasks, depth, oracle, a))
    decreases depth[k]
  {
    hide Executes, SpecResult;
    ExecutesWhenDependenciesSucceed(tasks, depth, oracle, k);
    var deps := TaskOf(tasks, k).dependsOn;
    if Executes(tasks, depth, oracle, k) {
      forall a | a in depth && IsAncestor(tasks, depth, a, k)
        ensures Executes(tasks, depth, oracle, a) && Succeeded(SpecResult(tasks, depth, oracle, a))
      {
        var d :| d in deps && (d == a || IsAncestor(tasks, depth, a, d));
        SuccessMeansExecuted(tasks, depth, oracle, d);
        AllSuccessAncestors(tasks, depth, oracle, d);
      }
    } else {
      var d :| d in deps && !Succeeded(SpecResult(tasks, depth, oracle, d));
      assert d in depth && IsAncestor(tasks, depth, d, k);
    }
  }

  // ---------------------------------------------------------------- whole runs

  /** A step of a run: the action and the cancellation flag when it happens; a disabled action does nothing. */
  datatype RunStep = RunStep(action: Action, cancel: bool)

  function Do(tasks: seq<Task>, oracle: Oracle, st: Sched, s: RunStep): Sched {
    if WellKeyed(tasks, st) && Enabled(tasks, st, s.action) then Next(tasks, oracle, s.cancel, st, s.action) else st
  }

  function After(tasks: seq<Task>, oracle: Oracle, st: Sched, steps: seq<RunStep>): Sched
    decreases |steps|
  {
    if steps == [] then st else After(tasks, oracle, Do(tasks, oracle, st, steps[0]), steps[1..])
  }

  /** Whatever the order of the steps, and cancelled or not, the invariant holds at every moment of a run. */
  lemma {:induction false} RunKeepsInv(tasks: seq<Task>, depth: map<string, nat>, oracle: Oracle, st: Sched, steps: seq<RunStep>)
    requires Inv(tasks, depth, st)
    ensures Inv(tasks, depth, After(tasks, oracle, st, steps))
    decreases |steps|
  {
    hide Inv, Next, Enabled;
    if steps != [] {
      InvWellKeyed(tasks, depth, st);
      if Enabled(tasks, st, steps[0].action) {
        NextInv(tasks, depth, oracle, steps[0].cancel, st, steps[0].action);
      }
      RunKeepsInv(tasks, depth, oracle, Do(tasks, oracle, st, steps[0]), steps[1..]);
    }
  }

  /** The results, the starts and the exceptions so far are those of the specification. */
  ghost predicate OnSpec(tasks: seq<Task>, depth: map<string, nat>, oracle: Oracle, st: Sched)
    requires IsDepth(tasks, depth)
  {
    && AsSpecified(tasks, depth, oracle, st) && StartedAsSpecified(tasks, depth, oracle, st)
    && RaisedAsSpecified(tasks, depth, oracle, st)
  }

  lemma NextOnSpec(tasks: seq<Task>, depth: map<string, nat>, oracle: Oracle, st: Sched, a: Action)
    requires Inv(tasks, depth, st) && Enabled(tasks, st, a) && IsDepth(tasks, depth) && OnSpec(tasks, depth, oracle, st)
    ensures WellKeyed(tasks, st) && OnSpec(tasks, depth, oracle, Next(tasks, oracle, false, st, a))
  {
    hide Inv, Next, Enabled, AsSpecified, StartedAsSpecified, RaisedAsSpecified, IsDepth;
    NextAsSpecified(tasks, depth, oracle, st, a);
    NextStarted(tasks, depth, oracle, st, a);
    NextRaised(tasks, depth, oracle, st, a);
  }

  lemma InitialOnSpec(tasks: seq<Task>, depth: map<string, nat>, oracle: Oracle)
    requires IsDepth(tasks, depth)
    ensures Inv(tasks, depth, Initial(tasks)) && OnSpec(tasks, depth, oracle, Initial(tasks))
  {
    InitialInv(tasks, depth);
    hide IsDepth, Executes, SpecResult, Raises, Inv;
  }

  lemma {:induction false} RunKeepsSpec(tasks: seq<Task>, depth: map<string, nat>, oracle: Oracle, st: Sched, steps: seq<RunStep>)
    requires Inv(tasks, depth, st) && IsDepth(tasks, depth)
    requires OnSpec(tasks, depth, oracle, st)
    requires forall s | s in steps :: !s.cancel
    ensures OnSpec(tasks, depth, oracle, After(tasks, oracle, st, steps))
    decreases |steps|
  {
    hide Inv, Next, Enabled, OnSpec, IsDepth;
    if steps != [] {
      InvWellKeyed(tasks, depth, st);
      var s := steps[0];
      assert !s.cancel;
      if Enabled(tasks, st, s.action) {
        NextInv(tasks, depth, oracle, false, st, s.action);
        NextOnSpec(tasks, depth, oracle, st, s.action);
      }
      assert steps == [s] + steps[1..];
      RunKeepsSpec(tasks, depth, oracle, Do(tasks, oracle, st, s), steps[1..]);
    }
  }

  /**
   * A run without cancellation that comes to its end gives every task the result of the recursive
   * specification, and has started exactly the tasks the specification executes, in any interleaving.
   */
  lemma SchedulerRefinesSpec(tasks: seq<Task>, depth: map<string, nat>, oracle: Oracle, steps: seq<RunStep>)
    requires IsDepth(tasks, depth) && forall s | s in steps :: !s.cancel
    requires Finished(After(tasks, oracle, Initial(tasks), steps))
    ensures
      var r := After(tasks, oracle, Initial(tasks), steps);
      && !r.unschedulable
      && r.results.Keys == Keys(tasks)
      && (forall k | k in r.results :: r.results[k] == SpecResult(tasks, depth, oracle, k))
      && (forall k :: k in r.started <==> k in depth && Executes(tasks, depth, oracle, k))
      && (forall k | k in depth :: !Raises(tasks, depth, oracle, k))
  {
    hide Inv, OnSpec, After, IsDepth, StoppedByRaise, HasRaised, Executes, SpecResult, Raises;
    InitialOnSpec(tasks, depth, oracle);
    RunKeepsInv(tasks, depth, oracle, Initial(tasks), steps);
    RunKeepsSpec(tasks, depth, oracle, Initial(tasks), steps);
    FinishedOnSpec(tasks, depth, oracle, After(tasks, oracle, Initial(tasks), steps));
  }

  lemma FinishedOnSpec(tasks: seq<Task>, depth: map<string, nat>, oracle: Oracle, st: Sched)
    requires Inv(tasks, depth, st) && Finished(st) && IsDepth(tasks, depth) && OnSpec(tasks, depth, oracle, st)
    ensures !st.unschedulable && st.results.Keys == Keys(tasks)
    ensures forall k | k in st.results :: k in depth && st.results[k] == SpecResult(tasks, depth, oracle, k)
    ensures forall k :: k in st.started <==> k in depth && Executes(tasks, depth, oracle, k)
    ensures forall k | k in depth :: !Raises(tasks, depth, oracle, k)
  {
    FinishedHasAll(tasks, depth, st);
    hide Executes, SpecResult;
  }

  /**
   * A run that ends because tasks raised: these are all the tasks of its last level that the specification
   * executes and that raise, none below that level raises, and everything else up to that level, and nothing
   * above it, has its specified result.
   */
  ghost predicate StoppedByRaise(tasks: seq<Task>, depth: map<string, nat>, oracle: Oracle, n: nat,
                                 results: map<string, TaskResult>, raised: set<string>, started: seq<string>)
    requires IsDepth(tasks, depth)
  {
    && (exists k :: k in depth && depth[k] == n && Raises(tasks, depth, oracle, k))
    && (forall k | k in depth && depth[k] < n :: !Raises(tasks, depth, oracle, k))
    && (forall k :: k in raised <==> k in depth && depth[k] == n && Raises(tasks, depth, oracle, k))
    && (forall k :: k in results <==>
          k in depth && depth[k] <= n && (depth[k] == n ==> !Raises(tasks, depth, oracle, k)))
    && (forall k | k in results :: results[k] == SpecResult(tasks, depth, oracle, k))
    && (forall k :: k in started <==> k in depth && depth[k] <= n && Executes(tasks, depth, oracle, k))
  }

  lemma RaisedOnSpec(tasks: seq<Task>, depth: map<string, nat>, oracle: Oracle, st: Sched)
    requires Inv(tasks, depth, st) && HasRaised(st) && IsDepth(tasks, depth) && OnSpec(tasks, depth, oracle, st)
    ensures st.rounds > 0 && StoppedByRaise(tasks, depth, oracle, st.rounds - 1, st.results, st.raised, st.started)
  {
    hide IsDepth, SpecResult;
    var n: nat := st.rounds - 1;
    assert forall k :: k in st.round <==> k in depth && depth[k] == n;
    forall k ensures Begun(st, k) <==> k in depth && depth[k] <= n {
    }
    var k :| k in st.raised;
    assert k in st.round && Raises(tasks, depth, oracle, k);
    hide Executes;
  }

  /**
   * In any interleaving, a run without cancellation that ends by an exception ends at the lowest level on which
   * a task that is executed raises, with the specified results up to there.
   */
  lemma RaisingRun(tasks: seq<Task>, depth: map<string, nat>, oracle: Oracle, steps: seq<RunStep>)
    requires IsDepth(tasks, depth) && forall s | s in steps :: !s.cancel
    requires HasRaised(After(tasks, oracle, Initial(tasks), steps))
    ensures var r := After(tasks, oracle, Initial(tasks), steps);
      r.rounds > 0 && StoppedByRaise(tasks, depth, oracle, r.rounds - 1, r.results, r.raised, r.started)
  {
    hide Inv, OnSpec, After, IsDepth, StoppedByRaise, HasRaised, Executes, SpecResult, Raises;
    InitialOnSpec(tasks, depth, oracle);
    RunKeepsInv(tasks, depth, oracle, Initial(tasks), steps);
    RunKeepsSpec(tasks, depth, oracle, Initial(tasks), steps);
    RaisedOnSpec(tasks, depth, oracle, After(tasks, oracle, Initial(tasks), steps));
  }

  lemma FinishedHasAll(tasks: seq<Task>, depth: map<string, nat>, st: Sched)
    requires Inv(tasks, depth, st) && Finished(st)
    ensures !st.unschedulable && st.results.Keys == Keys(tasks)
    ensures st.running == {} && st.raised == {} && forall k :: Begun(st, k) <==> k in depth
  {
    assert st.round == {} by {
      if k :| k in st.round {
        assert k in st.pending;
      }
    }
  }

  /** Once the flag is set no further task is started. */
  lemma {:induction false} CancelStopsStarts(tasks: seq<Task>, oracle: Oracle, st: Sched, steps: seq<RunStep>)
    requires forall s | s in steps :: s.cancel
    ensures After(tasks, oracle, st, steps).started == st.started
    decreases |steps|
  {
    if steps != [] {
      assert steps == [steps[0]] + steps[1..];
      CancelStopsStarts(tasks, oracle, Do(tasks, oracle, st, steps[0]), steps[1..]);
    }
  }

  // ---------------------------------------------------------------- runs that are cancelled

  /** The tasks whose turn came when the flag was set. */
  function FlaggedBegins(tasks: seq<Task>, oracle: Oracle, st: Sched, steps: seq<RunStep>): set<string>
    decreases |steps|
  {
    if steps == [] then {}
    else
      var s := steps[0];
      (if s.action.Begin? && s.cancel && WellKeyed(tasks, st) && Enabled(tasks, st, s.action) then {s.action.key} else {})
      + FlaggedBegins(tasks, oracle, Do(tasks, oracle, st, s), steps[1..])
  }

  /**
   * Each result is CANCELED for the tasks that began under the flag, and for the others what the results of
   * their dependencies and the oracle give; executed were exactly those of the others whose condition held.
   */
  ghost predicate AsActual(tasks: seq<Task>, oracle: Oracle, st: Sched, flagged: set<string>) {
    && (forall k | Begun(st, k) :: k in Keys(tasks) && forall d | d in TaskOf(tasks, k).dependsOn :: d in st.results)
    && (forall k | k in flagged :: k in st.results && st.results[k] == CANCELED)
    && (forall k | k in st.results && k !in flagged ::
          if Runs(tasks, k, st.results) then oracle(k) == Some(st.results[k]) else st.results[k] == SKIPPED)
    && (forall k | k in st.running || k in st.raised :: k !in flagged && Runs(tasks, k, st.results))
    && (forall k | k in st.raised :: oracle(k) == None)
    && (forall k :: k in st.started <==> Begun(st, k) && k !in flagged && Runs(tasks, k, st.results))
  }

  /** A condition reads the results of direct dependencies, which never change. */
  lemma RunsKept(tasks: seq<Task>, k: string, a: map<string, TaskResult>, b: map<string, TaskResult>)
    requires k in Keys(tasks) && forall d | d in TaskOf(tasks, k).dependsOn :: d in a
    requires forall d | d in a :: d in b && b[d] == a[d]
    ensures Runs(tasks, k, b) == Runs(tasks, k, a)
  {
    SameDependencyResults(TaskOf(tasks, k).dependsOn, a, b);
    hide RunIfSatisfied;
  }

  lemma NextActual(tasks: seq<Task>, depth: map<string, nat>, oracle: Oracle, cancel: bool, st: Sched, a: Action,
                   flagged: set<string>)
    requires Inv(tasks, depth, st) && Enabled(tasks, st, a) && AsActual(tasks, oracle, st, flagged)
    ensures WellKeyed(tasks, st)
    ensures AsActual(tasks, oracle, Next(tasks, oracle, cancel, st, a),
                     flagged + (if a.Begin? && cancel then {a.key} else {}))
  {
    hide Runs, Inv, TaskOf, DependenciesDone, Ready, AsActual, Begun;
    RoundDependenciesDone(tasks, depth, st);
    var next := Next(tasks, oracle, cancel, st, a);
    match a
    case Begin(k) =>
      WaitingNotBegun(tasks, depth, st, k);
      DependenciesDoneFor(tasks, st.round, st.results, k);
      BeginActual(tasks, oracle, cancel, st, k, flagged);
    case Complete(k) =>
      CompleteActual(tasks, oracle, st, k, flagged);
      assert next == Next(tasks, oracle, false, st, a) && flagged + {} == flagged;
    case _ =>
      if a.StartRound? {
        NeverStalls(tasks, depth, st);
      }
      SameActual(tasks, oracle, st, next, flagged);
      assert flagged + {} == flagged;
  }

  lemma SameActual(tasks: seq<Task>, oracle: Oracle, st: Sched, next: Sched, flagged: set<string>)
    requires AsActual(tasks, oracle, st, flagged)
    requires next.results == st.results && next.running == st.running && next.raised == st.raised && next.started == st.started
    ensures AsActual(tasks, oracle, next, flagged)
  {
    hide Runs, TaskOf;
    assert forall k :: Begun(next, k) == Begun(st, k);
  }

  lemma BeginActual(tasks: seq<Task>, oracle: Oracle, cancel: bool, st: Sched, k: string, flagged: set<string>)
    requires WellKeyed(tasks, st) && k in st.waiting && !Begun(st, k) && AsActual(tasks, oracle, st, flagged)
    requires forall d | d in TaskOf(tasks, k).dependsOn :: d in st.results
    ensures AsActual(tasks, oracle, Next(tasks, oracle, cancel, st, Begin(k)), flagged + (if cancel then {k} else {}))
  {
    var next := Next(tasks, oracle, cancel, st, Begin(k));
    BeginNext(tasks, oracle, cancel, st, k);
    hide Runs, TaskOf, Next, AsActual;
    assert flagged + {} == flagged;
    if cancel {
      ResultAdded(tasks, oracle, st, next, k, flagged, flagged + {k});
    } else if Runs(tasks, k, st.results) {
      TaskStarted(tasks, oracle, st, next, k, flagged);
    } else {
      ResultAdded(tasks, oracle, st, next, k, flagged, flagged);
    }
  }

  lemma ResultAdded(tasks: seq<Task>, oracle: Oracle, st: Sched, next: Sched, k: string, flagged: set<string>,
                    after: set<string>)
    requires AsActual(tasks, oracle, st, flagged) && !Begun(st, k) && k in Keys(tasks)
    requires forall d | d in TaskOf(tasks, k).dependsOn :: d in st.results
    requires after == flagged + {k} || (after == flagged && !Runs(tasks, k, st.results))
    requires next.results == st.results[k := if k in after then CANCELED else SKIPPED]
    requires next.running == st.running && next.raised == st.raised && next.started == st.started
    ensures AsActual(tasks, oracle, next, after)
  {
    hide Runs, TaskOf;
    StepActual(tasks, st, next, k);
    assert k !in flagged && k !in st.started;
    assert forall j :: Begun(next, j) <==> Begun(st, j) || j == k;
    assert forall j | j != k :: j in after <==> j in flagged;
  }

  lemma TaskStarted(tasks: seq<Task>, oracle: Oracle, st: Sched, next: Sched, k: string, flagged: set<string>)
    requires AsActual(tasks, oracle, st, flagged) && !Begun(st, k) && k in Keys(tasks)
    requires Runs(tasks, k, st.results) && forall d | d in TaskOf(tasks, k).dependsOn :: d in st.results
    requires next.results == st.results && next.raised == st.raised
    requires next.running == st.running + {k} && next.started == st.started + [k]
    ensures AsActual(tasks, oracle, next, flagged)
  {
    hide Runs, TaskOf;
    assert k !in flagged;
    assert forall j :: Begun(next, j) <==> Begun(st, j) || j == k;
  }

  /** What the turn of a task changes. */
  lemma BeginNext(tasks: seq<Task>, oracle: Oracle, cancel: bool, st: Sched, k: string)
    requires WellKeyed(tasks, st) && k in st.waiting && k !in st.results
    ensures var next := Next(tasks, oracle, cancel, st, Begin(k)); var runs := !cancel && Runs(tasks, k, st.results);
      && next.raised == st.raised && next.running == st.running + (if runs then {k} else {})
      && next.started == st.started + (if runs then [k] else [])
      && next.results == if cancel then st.results[k := CANCELED] else if runs then st.results else st.results[k := SKIPPED]
  {
    hide Runs;
  }

  lemma CompleteActual(tasks: seq<Task>, oracle: Oracle, st: Sched, k: string, flagged: set<string>)
    requires WellKeyed(tasks, st) && k in st.running && k !in st.results && AsActual(tasks, oracle, st, flagged)
    ensures AsActual(tasks, oracle, Next(tasks, oracle, false, st, Complete(k)), flagged)
  {
    hide Runs, TaskOf;
    var next := Next(tasks, oracle, false, st, Complete(k));
    StepActual(tasks, st, next, k);
    assert forall j :: Begun(next, j) <==> Begun(st, j);
  }

  /** One more result: the conditions of all tasks that have begun stay as they were. */
  lemma StepActual(tasks: seq<Task>, st: Sched, next: Sched, k: string)
    requires forall j | Begun(st, j) || j == k :: j in Keys(tasks) && forall d | d in TaskOf(tasks, j).dependsOn :: d in st.results
    requires k !in st.results && next.results.Keys <= st.results.Keys + {k}
    requires forall d | d in st.results :: d in next.results && next.results[d] == st.results[d]
    ensures forall j | Begun(st, j) || j == k ::
      Runs(tasks, j, next.results) == Runs(tasks, j, st.results)
  {
    hide Runs, TaskOf;
    forall j | Begun(st, j) || j == k ensures Runs(tasks, j, next.results) == Runs(tasks, j, st.results) {
      RunsKept(tasks, j, st.results, next.results);
    }
  }

  lemma {:induction false} RunActual(tasks: seq<Task>, depth: map<string, nat>, oracle: Oracle, st: Sched,
                                     steps: seq<RunStep>, flagged: set<string>)
    requires Inv(tasks, depth, st) && AsActual(tasks, oracle, st, flagged)
    ensures AsActual(tasks, oracle, After(tasks, oracle, st, steps), flagged + FlaggedBegins(tasks, oracle, st, steps))
    decreases |steps|
  {
    hide Inv, Next, Enabled, AsActual;
    if steps == [] {
      assert flagged + {} == flagged;
    } else {
      var s := steps[0];
      InvWellKeyed(tasks, depth, st);
      var more := if s.action.Begin? && s.cancel && Enabled(tasks, st, s.action) then {s.action.key} else {};
      if Enabled(tasks, st, s.action) {
        NextInv(tasks, depth, oracle, s.cancel, st, s.action);
        NextActual(tasks, depth, oracle, s.cancel, st, s.action, flagged);
      } else {
        assert flagged + more == flagged;
      }
      var next := Do(tasks, oracle, st, s);
      RunActual(tasks, depth, oracle, next, steps[1..], flagged + more);
      assert flagged + FlaggedBegins(tasks, oracle, st, steps) == flagged + more + FlaggedBegins(tasks, oracle, next, steps[1..]);
    }
  }

  /**
   * Whenever the flag is set in the course of a run, and in any interleaving: at every moment the tasks that
   * began under it are CANCELED, and every other result and start is what its dependencies' results and the
   * oracle give. At the end of the loop every task has its result.
   */
  lemma CancelledRun(tasks: seq<Task>, depth: map<string, nat>, oracle: Oracle, steps: seq<RunStep>)
    requires IsDepth(tasks, depth)
    ensures var r := After(tasks, oracle, Initial(tasks), steps);
      && AsActual(tasks, oracle, r, FlaggedBegins(tasks, oracle, Initial(tasks), steps))
      && (forall k | k in FlaggedBegins(tasks, oracle, Initial(tasks), steps) ::
            k in r.results && r.results[k] == TaskResult(Some(TaskState(Terminated, Some(Canceled)))))
      && (Finished(r) ==> r.results.Keys == Keys(tasks))
  {
    InitialInv(tasks, depth);
    assert AsActual(tasks, oracle, Initial(tasks), {}) by {
      hide Runs;
    }
    hide Inv, AsActual, IsDepth;
    RunActual(tasks, depth, oracle, Initial(tasks), steps, {});
    RunKeepsInv(tasks, depth, oracle, Initial(tasks), steps);
    var r := After(tasks, oracle, Initial(tasks), steps);
    if Finished(r) {
      FinishedHasAll(tasks, depth, r);
    }
    assert {} + FlaggedBegins(tasks, oracle, Initial(tasks), steps) == FlaggedBegins(tasks, oracle, Initial(tasks), steps);
  }

  // ---------------------------------------------------------------- progress

  /** Until it is over or an exception is due, some step can be taken. */
  lemma SomeStepEnabled(tasks: seq<Task>, st: Sched)
    requires !Finished(st) && !HasRaised(st)
    ensures exists a :: Enabled(tasks, st, a)
  {
    if st.round == {} {
      assert Enabled(tasks, st, StartRound);
    } else if k :| k in st.waiting {
      assert Enabled(tasks, st, Begin(k));
    } else if k :| k in st.running {
      assert Enabled(tasks, st, Complete(k));
    } else {
      assert Enabled(tasks, st, EndRound);
    }
  }

  /** The steps left: four for a task not yet gathered, three when it waits, two when it runs, one until its round ends. */
  function StepsLeft(st: Sched): nat {
    4 * |st.pending - st.round| + 3 * |st.waiting| + 2 * |st.running| + |st.round - st.waiting - st.running|
  }

  lemma RemoveOne<T>(s: set<T>, x: T)
    requires x in s
    ensures |s - {x}| == |s| - 1
  {
  }

  /** Every step leaves fewer steps, so a run is over after at most four steps a task. */
  lemma StepsDecrease(tasks: seq<Task>, depth: map<string, nat>, oracle: Oracle, cancel: bool, st: Sched, a: Action)
    requires Inv(tasks, depth, st) && Enabled(tasks, st, a)
    ensures WellKeyed(tasks, st) && StepsLeft(Next(tasks, oracle, cancel, st, a)) < StepsLeft(st)
  {
    hide Runs, IsDepth, Inv, TaskOf, StepsLeft, Ready;
    RoundDependenciesDone(tasks, depth, st);
    DisjointParts(tasks, depth, st);
    var next := Next(tasks, oracle, cancel, st, a);
    match a
    case StartRound =>
      NeverStalls(tasks, depth, st);
      RoundsEmpty(tasks, depth, st);
      StartLeaves(st, next, Ready(tasks, st));
    case Begin(k) =>
      BeginLeaves(st, next, k);
    case Complete(k) =>
      CompleteLeaves(st, next, k);
    case EndRound =>
      EndLeaves(st, next);
  }

  lemma StartLeaves(st: Sched, next: Sched, ready: set<string>)
    requires st.round == {} && st.waiting == {} && st.running == {} && ready <= st.pending && ready != {}
    requires next.pending == st.pending && next.round == ready && next.waiting == ready && next.running == {}
    ensures StepsLeft(next) < StepsLeft(st)
  {
    StartCount(st.pending, ready);
    assert next.round - next.waiting - next.running == {};
    assert st.round - st.waiting - st.running == {};
  }

  lemma BeginLeaves(st: Sched, next: Sched, k: string)
    requires st.waiting !! st.running && st.waiting <= st.round && k in st.waiting
    requires next.pending == st.pending && next.round == st.round && next.waiting == st.waiting - {k}
    requires next.running == st.running || next.running == st.running + {k}
    ensures StepsLeft(next) < StepsLeft(st)
  {
    RemoveOne(st.waiting, k);
    if k in next.running {
      assert st.round - next.waiting - next.running == st.round - st.waiting - st.running;
    } else {
      assert st.round - next.waiting - next.running == (st.round - st.waiting - st.running) + {k};
    }
  }

  lemma CompleteLeaves(st: Sched, next: Sched, k: string)
    requires st.waiting !! st.running && st.running <= st.round && k in st.running
    requires next.pending == st.pending && next.round == st.round && next.waiting == st.waiting
    requires next.running == st.running - {k}
    ensures StepsLeft(next) < StepsLeft(st)
  {
    RemoveOne(st.running, k);
    assert st.round - next.waiting - next.running == (st.round - st.waiting - st.running) + {k};
  }

  lemma EndLeaves(st: Sched, next: Sched)
    requires st.round != {} && st.waiting == {} && st.running == {}
    requires next.pending == st.pending - st.round && next.round == {} && next.waiting == {} && next.running == {}
    ensures StepsLeft(next) < StepsLeft(st)
  {
    assert next.pending - next.round == st.pending - st.round;
    assert st.round - st.waiting - st.running == st.round;
  }

  lemma RoundsEmpty(tasks: seq<Task>, depth: map<string, nat>, st: Sched)
    requires Inv(tasks, depth, st) && st.round == {}
    ensures st.waiting == {} && st.running == {}
  {
  }

  lemma DisjointParts(tasks: seq<Task>, depth: map<string, nat>, st: Sched)
    requires Inv(tasks, depth, st)
    ensures st.waiting !! st.running && st.waiting <= st.round && st.running <= st.round
  {
  }

  lemma StartCount(pending: set<string>, ready: set<string>)
    requires ready <= pending && ready != {}
    ensures 4 * |pending - ready| + 3 * |ready| < 4 * |pending|
    ensures pending - {} == pending && ready - ready == {}
  {
    assert pending == (pending - ready) + ready;
    assert |pending| == |pending - ready| + |ready|;
  }

  // ---------------------------------------------------------------- the loop

  /** The step the loop takes next keeps what is known. */
  lemma LoopStep(tasks: seq<Task>, depth: map<string, nat>, oracle: Oracle, cancel: bool, clean: bool, st: Sched, a: Action)
    requires Inv(tasks, depth, st) && IsDepth(tasks, depth) && Enabled(tasks, st, a) && (clean ==> !cancel)
    requires clean ==> OnSpec(tasks, depth, oracle, st)
    ensures WellKeyed(tasks, st)
    ensures var next := Next(tasks, oracle, cancel, st, a);
      Inv(tasks, depth, next) && (clean ==> OnSpec(tasks, depth, oracle, next))
  {
    hide Inv, IsDepth, OnSpec, Next, Enabled, WellKeyed;
    NextInv(tasks, depth, oracle, cancel, st, a);
    if clean {
      NextOnSpec(tasks, depth, oracle, st, a);
    }
  }

  /**
   * The loop with the tasks of a level run one after another; `flag` says of each of them whether the run is
   * flagged when its turn comes. An exception leaves the loop with the level's `raised` tasks. There is no
   * branch for a remainder in which no task is ready: `NeverStalls` shows it dead.
   */
  method ExecuteRunTasks(tasks: seq<Task>, oracle: Oracle, flag: nat -> bool, ghost depth: map<string, nat>)
    returns (results: map<string, TaskResult>, started: seq<string>, raised: set<string>)
    requires IsDepth(tasks, depth)
    ensures raised == {} ==> results.Keys == Keys(tasks)
    ensures (forall n :: flag(n)) ==> started == []
    ensures (forall n :: !flag(n)) && raised == {} ==>
      && (forall k | k in results :: k in depth && results[k] == SpecResult(tasks, depth, oracle, k))
      && (forall k :: k in started <==> k in depth && Executes(tasks, depth, oracle, k))
      && (forall k | k in depth :: !Raises(tasks, depth, oracle, k))
    ensures (forall n :: !flag(n)) && raised != {} ==>
      exists n :: StoppedByRaise(tasks, depth, oracle, n, results, raised, started)
  {
    hide Inv, IsDepth, OnSpec, Executes, SpecResult, Raises, StoppedByRaise, Ready, Runs;
    ghost var clean := forall n :: !flag(n);
    ghost var st := Initial(tasks);
    InitialOnSpec(tasks, depth, oracle);
    var pending, turn := Keys(tasks), 0;
    results, started, raised := map[], [], {};
    while pending != {}
      invariant Inv(tasks, depth, st) && (clean ==> OnSpec(tasks, depth, oracle, st)) && raised == {}
      invariant (results, started, pending) == (st.results, st.started, st.pending)
      invariant st.round == {} && st.waiting == {} && st.running == {} && st.raised == {}
      invariant (forall n :: flag(n)) ==> started == []
      decreases |pending|
    {
      NeverStalls(tasks, depth, st);
      var ready := Ready(tasks, Sched(results, pending, {}, {}, {}, {}, 0, [], false));
      assert ready == Ready(tasks, st) by { ReadyReads(tasks, st); }
      LoopStep(tasks, depth, oracle, false, clean, st, StartRound);
      st := Next(tasks, oracle, false, st, StartRound);
      var waiting := ready;
      while waiting != {}
        invariant Inv(tasks, depth, st) && (clean ==> OnSpec(tasks, depth, oracle, st))
        invariant (results, started, pending) == (st.results, st.started, st.pending)
        invariant st.round == ready && st.waiting == waiting && st.running == {} && st.raised == raised
        invariant (forall n :: flag(n)) ==> started == []
        decreases waiting
      {
        var k :| k in waiting;
        LoopStep(tasks, depth, oracle, flag(turn), clean, st, Begin(k));
        st := Next(tasks, oracle, flag(turn), st, Begin(k));
        waiting := waiting - {k};
        if flag(turn) {
          results := results[k := CANCELED];
        } else if !Runs(tasks, k, results) {
          results := results[k := SKIPPED];
        } else {
          LoopStep(tasks, depth, oracle, false, clean, st, Complete(k));
          st := Next(tasks, oracle, false, st, Complete(k));
          started := started + [k];
          match oracle(k)
          case Some(r) => results := results[k := r];
          case None => raised := raised + {k};
        }
        turn := turn + 1;
      }
      if raised != {} {
        if clean {
          RaisedOnSpec(tasks, depth, oracle, st);
        }
        return;
      }
      LoopStep(tasks, depth, oracle, false, clean, st, EndRound);
      st := Next(tasks, oracle, false, st, EndRound);
      pending := pending - ready;
    }
    FinishedHasAll(tasks, depth, st);
    if clean {
      FinishedOnSpec(tasks, depth, oracle, st);
    }
  }

  /** Which tasks can start depends on the results and on what is pending. */
  lemma ReadyReads(tasks: seq<Task>, st: Sched)
    requires st.pending <= Keys(tasks)
    ensures Ready(tasks, st) == Ready(tasks, Sched(st.results, st.pending, {}, {}, {}, {}, 0, [], false))
  {
  }
}
