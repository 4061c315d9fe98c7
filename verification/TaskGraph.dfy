/** Validation of a job's task graph. */
module TaskGraph {
  import opened Text

  datatype RunIf = AllSuccess | AllDone | AtLeastOneSuccess | AllFailed | AtLeastOneFailed | NoneFailed

  datatype Task = Task(key: string, dependsOn: seq<string>, runIf: Option<RunIf>)

  datatype GraphError = NotUnique(key: string) | UnknownDependency(key: string, dependency: string) | Cycle

  // ---------------------------------------------------------------- what a graph should be

  function Elements<T>(s: seq<T>): set<T> { set x | x in s }

  predicate Distinct<T(==)>(s: seq<T>) { forall i, j | 0 <= i < j < |s| :: s[i] != s[j] }

  predicate UniqueKeys(tasks: seq<Task>) { forall i, j | 0 <= i < j < |tasks| :: tasks[i].key != tasks[j].key }

  function Keys(tasks: seq<Task>): set<string> { set t | t in tasks :: t.key }

  predicate KnownDependencies(tasks: seq<Task>) {
    forall t, d | t in tasks && d in t.dependsOn :: d in Keys(tasks)
  }

  /** Every task comes after everything it depends on. */
  ghost predicate TopologicalOrder(tasks: seq<Task>, order: seq<string>) {
    && Distinct(order) && Elements(order) == Keys(tasks)
    && forall i, t | 0 <= i < |order| && t in tasks && t.key == order[i] :: Elements(t.dependsOn) <= Elements(order[..i])
  }

  ghost predicate WaitsOn(t: Task, keys: set<string>) { exists d :: d in t.dependsOn && d in keys }

  /** A set of tasks none of which can be the first to run. */
  ghost predicate Stuck(tasks: seq<Task>, keys: set<string>) {
    && keys != {} && keys <= Keys(tasks)
    && forall t | t in tasks && t.key in keys :: WaitsOn(t, keys)
  }

  /** A graph cannot both be ordered and hold a stuck set. */
  lemma OrderedIsNotStuck(tasks: seq<Task>, order: seq<string>, keys: set<string>)
    requires TopologicalOrder(tasks, order)
    ensures !Stuck(tasks, keys)
  {
    if Stuck(tasks, keys) {
      var k :| k in keys;
      assert k in Elements(order);
      var n :| 0 <= n < |order| && order[n] == k;
      NoneStuckBefore(tasks, order, keys, n + 1);
    }
  }

  lemma StuckNeedsStuck(tasks: seq<Task>, keys: set<string>, k: string) returns (t: Task, d: string)
    requires Stuck(tasks, keys) && k in keys
    ensures t in tasks && t.key == k && d in t.dependsOn && d in keys
  {
    hide WaitsOn;
    assert k in Keys(tasks);
    t :| t in tasks && t.key == k;
    d := WaitedFor(t, keys);
  }

  lemma WaitedFor(t: Task, keys: set<string>) returns (d: string)
    requires WaitsOn(t, keys)
    ensures d in t.dependsOn && d in keys
  {
    d :| d in t.dependsOn && d in keys;
  }

  lemma DependenciesEarlier(tasks: seq<Task>, order: seq<string>, n: nat, t: Task, d: string)
    returns (m: nat)
    requires TopologicalOrder(tasks, order) && n < |order| && t in tasks && t.key == order[n] && d in t.dependsOn
    ensures m < n && order[m] == d
  {
    hide Distinct, Keys;
    assert d in Elements(t.dependsOn) && d in Elements(order[..n]);
    m :| 0 <= m < n && order[m] == d;
  }

  lemma {:induction false} NoneStuckBefore(tasks: seq<Task>, order: seq<string>, keys: set<string>, n: nat)
    requires TopologicalOrder(tasks, order) && Stuck(tasks, keys) && n <= |order|
    ensures forall i | 0 <= i < n :: order[i] !in keys
  {
    hide TopologicalOrder, Stuck;
    if n > 0 {
      NoneStuckBefore(tasks, order, keys, n - 1);
      if order[n - 1] in keys {
        var t, d := StuckNeedsStuck(tasks, keys, order[n - 1]);
        var m := DependenciesEarlier(tasks, order, n - 1, t, d);
      }
    }
  }

  // ---------------------------------------------------------------- the two dictionaries

  /** `dependencies_by_key`. */
  ghost predicate IsDependencyMap(tasks: seq<Task>, graph: map<string, set<string>>) {
    && graph.Keys == Keys(tasks)
    && forall t | t in tasks :: t.key in graph && graph[t.key] == Elements(t.dependsOn)
  }

  function Listed(dependents: map<string, seq<string>>, key: string): seq<string> {
    if key in dependents then dependents[key] else []
  }

  /** `dependents_by_key`: each key lists, once, the tasks that depend on it. */
  ghost predicate IsDependentMap(graph: map<string, set<string>>, dependents: map<string, seq<string>>) {
    forall d :: Distinct(Listed(dependents, d))
                && forall k :: k in Listed(dependents, d) <==> k in graph && d in graph[k]
  }

  lemma AppendDistinct<T>(s: seq<T>, x: T)
    requires Distinct(s) && x !in s
    ensures Distinct(s + [x])
  {
  }

  lemma KeysAppend(tasks: seq<Task>, n: nat)
    requires n < |tasks|
    ensures Keys(tasks[..n + 1]) == Keys(tasks[..n]) + {tasks[n].key}
    ensures forall t | t in tasks[..n + 1] :: t in tasks[..n] || t == tasks[n]
  {
    assert tasks[..n + 1] == tasks[..n] + [tasks[n]];
  }

  lemma FreshKey(tasks: seq<Task>, n: nat)
    requires UniqueKeys(tasks) && n < |tasks|
    ensures tasks[n].key !in Keys(tasks[..n])
  {
    forall t | t in tasks[..n] ensures t.key != tasks[n].key {
    }
  }

  /** The first pass: are the keys unique? */
  method FindDuplicate(tasks: seq<Task>) returns (duplicate: Option<string>, keys: set<string>)
    ensures duplicate.None? <==> UniqueKeys(tasks)
    ensures duplicate.None? ==> keys == Keys(tasks)
    ensures duplicate.Some? ==>
              exists i, j :: 0 <= i < j < |tasks| && tasks[i].key == tasks[j].key == duplicate.value
  {
    keys := {};
    var n := 0;
    while n < |tasks|
      invariant 0 <= n <= |tasks| && keys == Keys(tasks[..n]) && UniqueKeys(tasks[..n])
    {
      if tasks[n].key in keys {
        var t :| t in tasks[..n] && t.key == tasks[n].key;
        ghost var i :| 0 <= i < n && tasks[i] == t;
        return Some(tasks[n].key), keys;
      }
      KeysAppend(tasks, n);
      forall i | 0 <= i < n ensures tasks[i].key != tasks[n].key {
        assert tasks[i] in tasks[..n];
      }
      keys := keys + {tasks[n].key};
      n := n + 1;
    }
    assert tasks[..n] == tasks;
    duplicate := None;
  }

  /** The second pass: the two dictionaries, or a dependency on a task that does not exist. */
  method IndexDependencies(tasks: seq<Task>, keys: set<string>)
    returns (unknown: Option<(string, string)>, graph: map<string, set<string>>, dependents: map<string, seq<string>>)
    requires UniqueKeys(tasks) && keys == Keys(tasks)
    ensures unknown.None? <==> KnownDependencies(tasks)
    ensures unknown.None? ==> IsDependencyMap(tasks, graph) && IsDependentMap(graph, dependents)
    ensures unknown.Some? ==>
              exists t :: t in tasks && t.key == unknown.value.0 && unknown.value.1 in t.dependsOn
                          && unknown.value.1 !in keys
  {
    graph, dependents := map[], map[];
    var n := 0;
    while n < |tasks|
      invariant 0 <= n <= |tasks|
      invariant IsDependencyMap(tasks[..n], graph) && IsDependentMap(graph, dependents)
      invariant forall t, d | t in tasks[..n] && d in t.dependsOn :: d in keys
    {
      var task := tasks[n];
      var dependencies := Elements(task.dependsOn);
      FreshKey(tasks, n);
      KeysAppend(tasks, n);
      var missing;
      missing, dependents := AddDependents(graph, dependents, task.key, dependencies, keys);
      if missing.Some? {
        assert task in tasks;
        return Some((task.key, missing.value)), graph, dependents;
      }
      graph := graph[task.key := dependencies];
      n := n + 1;
    }
    assert tasks[..n] == tasks;
    unknown := None;
  }

  /** One task of the second pass: enter it under each of its dependencies. */
  method AddDependents(graph: map<string, set<string>>, before: map<string, seq<string>>, key: string,
                       dependencies: set<string>, keys: set<string>)
    returns (missing: Option<string>, dependents: map<string, seq<string>>)
    requires key !in graph && IsDependentMap(graph, before)
    ensures missing.None? <==> dependencies <= keys
    ensures missing.Some? ==> missing.value in dependencies && missing.value !in keys
    ensures missing.None? ==> IsDependentMap(graph[key := dependencies], dependents)
  {
    dependents := before;
    var rest := dependencies;
    while rest != {}
      invariant rest <= dependencies && dependencies - rest <= keys
      invariant IsDependentMap(graph[key := dependencies - rest], dependents)
      decreases rest
    {
      var d :| d in rest;
      if d !in keys {
        return Some(d), dependents;
      }
      ghost var g := graph[key := dependencies - rest];
      assert key !in Listed(dependents, d) by {
        assert d !in g[key];
      }
      AppendDistinct(Listed(dependents, d), key);
      ghost var old_ := dependents;
      dependents := dependents[d := Listed(dependents, d) + [key]];
      rest := rest - {d};
      ghost var g' := graph[key := dependencies - rest];
      assert dependencies - rest == g[key] + {d};
      forall e ensures Distinct(Listed(dependents, e))
                       && forall k :: k in Listed(dependents, e) <==> k in g' && e in g'[k] {
        if e != d {
          assert Listed(dependents, e) == Listed(old_, e);
        }
      }
    }
    assert dependencies - rest == dependencies;
    missing := None;
  }

  // ---------------------------------------------------------------- Kahn's algorithm

  /** The queue's invariant: `done` are the tasks popped so far, in order. */
  ghost predicate QueueOk(graph: map<string, set<string>>, remaining: map<string, set<string>>,
                          done: seq<string>, ready: seq<string>) {
    && remaining.Keys == graph.Keys
    && (forall k | k in graph :: remaining[k] == graph[k] - Elements(done))
    && Distinct(done + ready)
    && (forall k | k in done + ready :: k in graph)
    && (forall k | k in graph :: k in done + ready <==> remaining[k] == {})
    && (forall i | 0 <= i < |done| :: graph[done[i]] <= Elements(done[..i]))
  }

  /** Halfway through the dependents of `key`: the first `n` have had `key` removed. */
  ghost predicate PoppingOk(graph: map<string, set<string>>, remaining: map<string, set<string>>,
                            done: seq<string>, ready: seq<string>, key: string, dependents: seq<string>, n: nat) {
    && n <= |dependents|
    && remaining.Keys == graph.Keys
    && key !in done && key in graph
    && (forall k | k in graph ::
          remaining[k] == graph[k] - Elements(done) - (if k in dependents[..n] then {key} else {}))
    && Distinct(done + [key] + ready)
    && (forall k | k in done + [key] + ready :: k in graph)
    && (forall k | k in graph :: k in done + [key] + ready <==> remaining[k] == {})
  }

  lemma DependentHasKey(graph: map<string, set<string>>, remaining: map<string, set<string>>,
                        done: seq<string>, ready: seq<string>, key: string, dependents: seq<string>, n: nat)
    requires PoppingOk(graph, remaining, done, ready, key, dependents, n) && n < |dependents|
    requires Distinct(dependents) && forall k | k in dependents :: k in graph && key in graph[k]
    ensures dependents[n] in graph && dependents[n] in remaining && key in remaining[dependents[n]]
    ensures dependents[n] !in dependents[..n]
  {
    assert dependents[n] in dependents;
  }

  lemma PopOne(graph: map<string, set<string>>, remaining: map<string, set<string>>, done: seq<string>,
               ready: seq<string>, key: string, dependents: seq<string>, n: nat,
               remaining': map<string, set<string>>, ready': seq<string>)
    requires PoppingOk(graph, remaining, done, ready, key, dependents, n) && n < |dependents|
    requires Distinct(dependents) && forall k | k in dependents :: k in graph && key in graph[k]
    requires dependents[n] in remaining
    requires remaining' == remaining[dependents[n] := remaining[dependents[n]] - {key}]
    requires ready' == if remaining'[dependents[n]] == {} then ready + [dependents[n]] else ready
    ensures PoppingOk(graph, remaining', done, ready', key, dependents, n + 1)
  {
    DependentHasKey(graph, remaining, done, ready, key, dependents, n);
    var d := dependents[n];
    assert dependents[..n + 1] == dependents[..n] + [d];
    assert d !in done + [key] + ready;
    if ready' != ready {
      AppendDistinct(done + [key] + ready, d);
      assert done + [key] + ready' == done + [key] + ready + [d];
    }
  }

  lemma PopStart(graph: map<string, set<string>>, remaining: map<string, set<string>>, done: seq<string>,
                 ready: seq<string>, dependents: seq<string>)
    requires QueueOk(graph, remaining, done, ready) && ready != []
    ensures PoppingOk(graph, remaining, done, ready[1..], ready[0], dependents, 0)
    ensures ready[0] in graph && graph[ready[0]] <= Elements(done)
    ensures forall i | 0 <= i < |done| :: done[i] in graph && graph[done[i]] <= Elements(done[..i])
  {
    var key := ready[0];
    var all := done + ready;
    assert all == done + [key] + ready[1..];
    assert all[|done|] == key;
    assert key in all && remaining[key] == {};
    forall d | d in graph[key] ensures d in Elements(done) {
      assert d !in graph[key] - Elements(done);
    }
    forall i | 0 <= i < |done| ensures done[i] != key {
      assert all[i] == done[i];
    }
  }

  lemma PopEnd(graph: map<string, set<string>>, remaining: map<string, set<string>>, done: seq<string>,
               ready: seq<string>, key: string, dependents: seq<string>)
    requires PoppingOk(graph, remaining, done, ready, key, dependents, |dependents|)
    requires forall k :: k in dependents <==> k in graph && key in graph[k]
    requires forall i | 0 <= i < |done| :: done[i] in graph && graph[done[i]] <= Elements(done[..i])
    requires key in graph && graph[key] <= Elements(done)
    ensures QueueOk(graph, remaining, done + [key], ready)
  {
    var done' := done + [key];
    assert dependents[..|dependents|] == dependents;
    assert Elements(done') == Elements(done) + {key};
    forall i | 0 <= i < |done'| ensures graph[done'[i]] <= Elements(done'[..i]) {
      if i < |done| {
        assert done'[..i] == done[..i];
      } else {
        assert done'[..i] == done;
      }
    }
  }

  lemma {:induction false} DistinctSize<T>(s: seq<T>)
    requires Distinct(s)
    ensures |Elements(s)| == |s|
  {
    if s != [] {
      var n := |s| - 1;
      DistinctSize(s[..n]);
      assert Elements(s) == Elements(s[..n]) + {s[n]};
    }
  }

  lemma SubsetSize<T>(a: set<T>, b: set<T>)
    requires a <= b
    ensures |a| <= |b| && (|a| == |b| ==> a == b)
  {
    assert b == a + (b - a);
    assert |b| == |a| + |b - a|;
  }

  lemma QueueBound(graph: map<string, set<string>>, remaining: map<string, set<string>>, done: seq<string>,
                   ready: seq<string>)
    requires QueueOk(graph, remaining, done, ready)
    ensures |done| + |ready| <= |graph.Keys|
    ensures Distinct(done) && Elements(done) <= graph.Keys && |Elements(done)| == |done|
  {
    var all := done + ready;
    DistinctSize(all);
    SubsetSize(Elements(all), graph.Keys);
    forall i, j | 0 <= i < j < |done| ensures done[i] != done[j] {
      assert all[i] == done[i] && all[j] == done[j];
    }
    forall k | k in done ensures k in graph.Keys {
      assert k in all;
    }
    DistinctSize(done);
  }

  /** The loop over the queue; the popped tasks are returned for the proof. */
  method PopReady(graph: map<string, set<string>>, dependents: map<string, seq<string>>, initial: seq<string>)
    returns (visited: nat, ghost done: seq<string>, ghost remaining: map<string, set<string>>)
    requires IsDependentMap(graph, dependents) && QueueOk(graph, graph, [], initial)
    ensures visited == |done| && QueueOk(graph, remaining, done, [])
  {
    hide QueueOk, PoppingOk;
    var rest := graph;
    var ready := initial;
    visited, done := 0, [];
    while ready != []
      invariant QueueOk(graph, rest, done, ready) && visited == |done|
      decreases |graph.Keys| - |done|
    {
      QueueBound(graph, rest, done, ready);
      var key := ready[0];
      var list := Listed(dependents, key);
      PopStart(graph, rest, done, ready, list);
      ready := ready[1..];
      visited := visited + 1;
      var n := 0;
      while n < |list|
        invariant n <= |list| && PoppingOk(graph, rest, done, ready, key, list, n)
      {
        DependentHasKey(graph, rest, done, ready, key, list, n);
        ghost var rest0, ready0 := rest, ready;
        rest := rest[list[n] := rest[list[n]] - {key}];
        if rest[list[n]] == {} {
          ready := ready + [list[n]];
        }
        PopOne(graph, rest0, done, ready0, key, list, n, rest, ready);
        n := n + 1;
      }
      PopEnd(graph, rest, done, ready, key, list);
      done := done + [key];
    }
    remaining := rest;
  }

  /** The tasks without dependencies, in the order of the task list. */
  method InitiallyReady(tasks: seq<Task>, graph: map<string, set<string>>) returns (ready: seq<string>)
    requires UniqueKeys(tasks) && IsDependencyMap(tasks, graph)
    ensures QueueOk(graph, graph, [], ready)
  {
    ready := [];
    var n := 0;
    while n < |tasks|
      invariant 0 <= n <= |tasks| && Distinct(ready)
      invariant forall k :: k in ready <==> k in Keys(tasks[..n]) && k in graph && graph[k] == {}
    {
      FreshKey(tasks, n);
      KeysAppend(tasks, n);
      var key := tasks[n].key;
      if graph[key] == {} {
        AppendDistinct(ready, key);
        ready := ready + [key];
      }
      n := n + 1;
    }
    assert tasks[..n] == tasks;
    assert [] + ready == ready;
  }

  lemma {:induction false} KeyCount(tasks: seq<Task>)
    requires UniqueKeys(tasks)
    ensures |Keys(tasks)| == |tasks|
  {
    if tasks != [] {
      var n := |tasks| - 1;
      KeyCount(tasks[..n]);
      FreshKey(tasks, n);
      KeysAppend(tasks, n);
      assert tasks[..n + 1] == tasks;
    }
  }

  /** When every task was popped, the pop order is a topological order. */
  lemma AllPopped(tasks: seq<Task>, graph: map<string, set<string>>, remaining: map<string, set<string>>, done: seq<string>)
    requires UniqueKeys(tasks) && IsDependencyMap(tasks, graph)
    requires QueueOk(graph, remaining, done, []) && |done| == |tasks|
    ensures TopologicalOrder(tasks, done)
  {
    QueueBound(graph, remaining, done, []);
    KeyCount(tasks);
    SubsetSize(Elements(done), graph.Keys);
  }

  lemma LeftOver<T>(a: set<T>, b: set<T>)
    requires a <= b && |a| != |b|
    ensures b - a != {}
  {
    assert b == a + (b - a);
    assert |b| == |a| + |b - a|;
  }

  /** When some task was not popped, the tasks left over are a stuck set. */
  lemma SomeLeft(tasks: seq<Task>, graph: map<string, set<string>>, remaining: map<string, set<string>>, done: seq<string>)
    requires UniqueKeys(tasks) && KnownDependencies(tasks) && IsDependencyMap(tasks, graph)
    requires QueueOk(graph, remaining, done, []) && |done| != |tasks|
    ensures Stuck(tasks, graph.Keys - Elements(done))
  {
    QueueBound(graph, remaining, done, []);
    KeyCount(tasks);
    var left := graph.Keys - Elements(done);
    LeftOver(Elements(done), graph.Keys);
    assert done + [] == done;
    forall t | t in tasks && t.key in left ensures WaitsOn(t, left) {
      assert remaining[t.key] != {};
      var d :| d in remaining[t.key];
      assert d in graph[t.key] && d in t.dependsOn && d in left;
    }
  }

  /**
   * `_task_graph_error`: no error exactly when the keys are unique, every dependency is a task and a
   * topological order exists; the cycle error exactly when, the first two being right, some set of
   * tasks waits on itself.
   */
  method TaskGraphError(tasks: seq<Task>) returns (error: Option<GraphError>)
    ensures error.None? <==>
              UniqueKeys(tasks) && KnownDependencies(tasks) && exists order :: TopologicalOrder(tasks, order)
    ensures error.Some? && error.value.NotUnique? <==> !UniqueKeys(tasks)
    ensures error.Some? && error.value.NotUnique? ==>
              exists i, j :: 0 <= i < j < |tasks| && tasks[i].key == tasks[j].key == error.value.key
    ensures error.Some? && error.value.UnknownDependency? <==> UniqueKeys(tasks) && !KnownDependencies(tasks)
    ensures error.Some? && error.value.UnknownDependency? ==>
              exists t :: t in tasks && t.key == error.value.key && error.value.dependency in t.dependsOn
                          && error.value.dependency !in Keys(tasks)
    ensures error == Some(Cycle) <==>
              UniqueKeys(tasks) && KnownDependencies(tasks) && exists keys :: Stuck(tasks, keys)
  {
    hide UniqueKeys, KnownDependencies, TopologicalOrder, Stuck, QueueOk, IsDependencyMap, IsDependentMap;
    var duplicate, keys := FindDuplicate(tasks);
    if duplicate.Some? {
      return Some(NotUnique(duplicate.value));
    }
    var unknown, graph, dependents := IndexDependencies(tasks, keys);
    if unknown.Some? {
      return Some(UnknownDependency(unknown.value.0, unknown.value.1));
    }
    var ready := InitiallyReady(tasks, graph);
    var visited, done, remaining := PopReady(graph, dependents, ready);
    if visited != |tasks| {
      SomeLeft(tasks, graph, remaining, done);
      forall order | TopologicalOrder(tasks, order) ensures false {
        OrderedIsNotStuck(tasks, order, graph.Keys - Elements(done));
      }
      return Some(Cycle);
    }
    AllPopped(tasks, graph, remaining, done);
    forall left ensures !Stuck(tasks, left) {
      OrderedIsNotStuck(tasks, done, left);
    }
    error := None;
  }

  /** A graph with unique keys and known dependencies is ordered or stuck, and never both. */
  ghost predicate Schedulable(tasks: seq<Task>) {
    UniqueKeys(tasks) && KnownDependencies(tasks) && exists order :: TopologicalOrder(tasks, order)
  }

  /** A task that depends on itself is the smallest cycle. */
  lemma SelfDependencyIsStuck(tasks: seq<Task>, t: Task)
    requires UniqueKeys(tasks) && t in tasks && t.key in t.dependsOn
    ensures Stuck(tasks, {t.key}) && !Schedulable(tasks)
  {
    forall u | u in tasks && u.key in {t.key} ensures WaitsOn(u, {t.key}) {
      var i :| 0 <= i < |tasks| && tasks[i] == u;
      var j :| 0 <= j < |tasks| && tasks[j] == t;
      assert i == j;
    }
    forall order ensures !TopologicalOrder(tasks, order) {
      if TopologicalOrder(tasks, order) {
        OrderedIsNotStuck(tasks, order, {t.key});
      }
    }
  }
}
