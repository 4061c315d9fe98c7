/** Cluster lifecycles: operations that answer at once, and timers that fire later unless superseded. */
module Clusters {
  import opened Text

  const PENDING := "PENDING"
  const RUNNING := "RUNNING"
  const TERMINATING := "TERMINATING"
  const TERMINATED := "TERMINATED"
  const RESTARTING := "RESTARTING"
  const RESIZING := "RESIZING"

  // ---------------------------------------------------------------- state

  /** A cluster's record; `fields` holds everything but the state and its message, values as text. */
  datatype Cluster = Cluster(state: string, message: string, fields: map<string, string>)

  /** A delayed transition: asleep, or about to look whether it still holds the cluster's token. */
  datatype Timer = Timer(clusterId: string, token: nat, target: string)

  datatype State = State(
    clusters: map<string, Cluster>, tokens: map<string, nat>, timers: set<Timer>, nextToken: nat)

  const EMPTY := State(map[], map[], {}, 0)

  datatype Event =
    | Create(id: string, fields: map<string, string>, referencesExist: bool)
    | Edit(id: string, fields: map<string, string>, referencesExist: bool)
    | Update(id: string, mask: Option<seq<string>>, payload: map<string, string>)
    | Pin(id: string)
    | Unpin(id: string)
    | Start(id: string)
    | Terminate(id: string)
    | PermanentDelete(id: string)
    | Restart(id: string)
    | Resize(id: string, fields: map<string, string>)
    | ChangeOwner(id: string, owner: string)
    | Fire(timer: Timer)
    | Reset

  datatype Response = Done | NotFound | BadReference | MaskRequired | UnknownField

  const UPDATABLE: set<string> := {
    "cluster_name", "spark_version", "node_type_id", "driver_node_type_id", "num_workers",
    "autotermination_minutes", "spark_conf", "spark_env_vars", "custom_tags", "autoscale", "policy_id",
    "instance_pool_id", "driver_instance_pool_id", "single_user_name", "data_security_mode", "runtime_engine"
  }

  // ---------------------------------------------------------------- what each event does

  /** A new token supersedes the cluster's old one; the old timer is left asleep. */
  function Schedule(s: State, id: string, target: string): State {
    s.(tokens := s.tokens[id := s.nextToken], timers := s.timers + {Timer(id, s.nextToken, target)},
       nextToken := s.nextToken + 1)
  }

  /** `cluster.update(updates)`, where two keys of the dictionary are the state and its message. */
  function Overwrite(c: Cluster, updates: map<string, string>): Cluster {
    Cluster(if "state" in updates then updates["state"] else c.state,
            if "state_message" in updates then updates["state_message"] else c.message,
            c.fields + (updates - {"state", "state_message"}))
  }

  /** What an update writes: everything under `*`, else the masked part of the payload. */
  function Updates(mask: seq<string>, payload: map<string, string>): map<string, string> {
    if "*" in mask then payload else map k | k in payload && k in mask :: payload[k]
  }

  predicate KnownMask(mask: seq<string>) { forall f | f in mask :: f in UPDATABLE || f == "*" }

  function Put(s: State, id: string, c: Cluster): State { s.(clusters := s.clusters[id := c]) }

  function FireTimer(s: State, t: Timer): State {
    var rest := s.(timers := s.timers - {t});
    if t !in s.timers || t.clusterId !in s.tokens || s.tokens[t.clusterId] != t.token then rest
    else
      var freed := rest.(tokens := s.tokens - {t.clusterId});
      if t.clusterId !in s.clusters then freed
      else Put(freed, t.clusterId, s.clusters[t.clusterId].(state := t.target, message := ""))
  }

  function Handle(s: State, e: Event): (State, Response) {
    match e
    case Create(id, fields, ok) =>
      if !ok then (s, BadReference)
      else (Schedule(Put(s, id, Cluster(PENDING, "Starting cluster", fields)), id, RUNNING), Done)
    case Edit(id, fields, ok) =>
      if id !in s.clusters then (s, NotFound)
      else if !ok then (s, BadReference)
      else (Put(s, id, s.clusters[id].(fields := s.clusters[id].fields + fields)), Done)
    case Update(id, mask, payload) =>
      if id !in s.clusters then (s, NotFound)
      else if mask.None? then (s, MaskRequired)
      else if !KnownMask(mask.value) then (s, UnknownField)
      else (Put(s, id, Overwrite(s.clusters[id], Updates(mask.value, payload))), Done)
    case Pin(id) =>
      if id !in s.clusters then (s, NotFound)
      else
        var c := s.clusters[id];
        (Put(s, id, c.(fields := c.fields["pinned_by_user_name" := "minilake-user"])), Done)
    case Unpin(id) =>
      if id !in s.clusters then (s, NotFound)
      else
        var c := s.clusters[id];
        (Put(s, id, c.(fields := c.fields - {"pinned_by_user_name"})), Done)
    case Start(id) =>
      if id !in s.clusters then (s, NotFound)
      else
        var c := s.clusters[id];
        if c.state in {RUNNING, PENDING} then (s, Done)
        else (Schedule(Put(s, id, c.(state := PENDING, message := "Starting cluster")), id, RUNNING), Done)
    case Terminate(id) =>
      if id !in s.clusters then (s, NotFound)
      else
        var c := s.clusters[id];
        if c.state in {TERMINATED, TERMINATING} then (s, Done)
        else (Schedule(Put(s, id, c.(state := TERMINATING, message := "Terminating cluster")), id, TERMINATED), Done)
    case PermanentDelete(id) =>
      if id !in s.clusters then (s, NotFound)
      else (s.(clusters := s.clusters - {id}, tokens := s.tokens - {id}), Done)
    case Restart(id) =>
      if id !in s.clusters then (s, NotFound)
      else
        var c := s.clusters[id].(state := RESTARTING, message := "Restarting cluster");
        (Schedule(Put(s, id, c), id, RUNNING), Done)
    case Resize(id, fields) =>
      if id !in s.clusters then (s, NotFound)
      else
        var c := s.clusters[id];
        (Schedule(Put(s, id, Cluster(RESIZING, "Resizing cluster", c.fields + fields)), id, RUNNING), Done)
    case ChangeOwner(id, owner) =>
      if id !in s.clusters then (s, NotFound)
      else
        var c := s.clusters[id];
        (Put(s, id, c.(fields := c.fields["creator_user_name" := owner])), Done)
    case Fire(t) => (FireTimer(s, t), Done)
    case Reset => (s.(clusters := map[], tokens := map[]), Done)
  }

  function Run(s: State, events: seq<Event>): State
    decreases |events|
  {
    if events == [] then s else Run(Handle(s, events[0]).0, events[1..])
  }

  // ---------------------------------------------------------------- what is written to a record

  /** Every field sent has its new value, every other one its old. */
  ghost predicate Merged(was: map<string, string>, sent: map<string, string>, now: map<string, string>) {
    forall f ::
      && (f in now <==> f in sent || f in was)
      && (f in sent ==> now[f] == sent[f])
      && (f in was && f !in sent ==> now[f] == was[f])
  }

  /**
   * An update is accepted exactly when its mask names known fields or `*`; it then writes the masked fields of
   * the payload, under `*` all of it with the state and its message, keeps every other field, and touches no
   * other cluster, token or timer.
   */
  lemma UpdateWrites(s: State, id: string, mask: seq<string>, payload: map<string, string>)
    requires id in s.clusters
    ensures
      var (s', r) := Handle(s, Update(id, Some(mask), payload));
      var written := f => f in payload && ("*" in mask || f in mask);
      && (r == Done <==> forall f | f in mask ::
            f in {"*", "cluster_name", "spark_version", "node_type_id", "driver_node_type_id", "num_workers",
                  "autotermination_minutes", "spark_conf", "spark_env_vars", "custom_tags", "autoscale", "policy_id",
                  "instance_pool_id", "driver_instance_pool_id", "single_user_name", "data_security_mode",
                  "runtime_engine"})
      && (r != Done ==> s' == s)
      && (r == Done ==>
            var was, now := s.clusters[id], s'.clusters[id];
            && s' == s.(clusters := s.clusters[id := now])
            && now.state == (if "*" in mask && "state" in payload then payload["state"] else was.state)
            && now.message == (if "*" in mask && "state_message" in payload then payload["state_message"] else was.message)
            && forall f | f !in {"state", "state_message"} ::
                 && (f in now.fields <==> written(f) || f in was.fields)
                 && (f in now.fields ==> now.fields[f] == if written(f) then payload[f] else was.fields[f]))
  {
    StateNotUpdatable();
  }

  lemma StateNotUpdatable()
    ensures "state" !in UPDATABLE && "state_message" !in UPDATABLE && "state" != "*" && "state_message" != "*"
  {
  }

  /** Editing and resizing write the fields that are sent; pinning and a new owner write one field each. */
  lemma FieldsWritten(s: State, id: string, sent: map<string, string>, owner: string)
    requires id in s.clusters
    ensures
      var was := s.clusters[id];
      var edited, resized := Handle(s, Edit(id, sent, true)).0.clusters[id], Handle(s, Resize(id, sent)).0.clusters[id];
      var pinned, owned := Handle(s, Pin(id)).0.clusters[id], Handle(s, ChangeOwner(id, owner)).0.clusters[id];
      var unpinned := Handle(s, Unpin(id)).0.clusters[id];
      && Merged(was.fields, sent, edited.fields) && edited.state == was.state
      && Merged(was.fields, sent, resized.fields) && resized.state == "RESIZING"
      && Merged(was.fields, map["pinned_by_user_name" := "minilake-user"], pinned.fields) && pinned.state == was.state
      && Merged(was.fields, map["creator_user_name" := owner], owned.fields) && owned.state == was.state
      && "pinned_by_user_name" !in unpinned.fields && unpinned.state == was.state
      && (forall f | f in was.fields && f != "pinned_by_user_name" ::
            f in unpinned.fields && unpinned.fields[f] == was.fields[f])
  {
  }

  // ---------------------------------------------------------------- the invariant

  predicate Transient(state: string) { state in {PENDING, TERMINATING, RESTARTING, RESIZING} }

  predicate Settled(state: string) { state in {RUNNING, TERMINATED} }

  /** Where a cluster in this state is, or is heading. */
  function Goal(state: string): string {
    if state in {TERMINATING, TERMINATED} then TERMINATED else RUNNING
  }

  /** The timer that holds the cluster's token, bound for the goal of its state, is asleep. */
  predicate Live(s: State, id: string) {
    && id in s.clusters && id in s.tokens
    && Timer(id, s.tokens[id], Goal(s.clusters[id].state)) in s.timers
  }

  /**
   * A cluster is in a transient state exactly when it holds a token, the token is held by one sleeping
   * timer, and that timer's target is the goal of the state. No token is given out twice.
   */
  predicate Consistent(s: State) {
    && s.tokens.Keys <= s.clusters.Keys
    && (forall id | id in s.clusters ::
          if id in s.tokens then Transient(s.clusters[id].state) && Live(s, id) else Settled(s.clusters[id].state))
    && (forall t | t in s.timers :: t.token < s.nextToken)
    && (forall t, u | t in s.timers && u in s.timers && t.token == u.token :: t == u)
    && (forall id | id in s.tokens :: s.tokens[id] < s.nextToken)
  }

  /** An update that writes the state of a cluster. */
  predicate WritesState(e: Event) {
    e.Update? && e.mask.Some? && "*" in e.mask.value && "state" in e.payload
  }

  lemma {:induction false} PutKeeps(s: State, id: string, c: Cluster)
    requires Consistent(s) && id in s.clusters && c.state == s.clusters[id].state
    ensures Consistent(Put(s, id, c))
  {
    var r := Put(s, id, c);
    forall i | i in r.clusters
      ensures if i in r.tokens then Transient(r.clusters[i].state) && Live(r, i) else Settled(r.clusters[i].state)
    {
      assert i in s.clusters && r.clusters[i].state == s.clusters[i].state;
      assert i in s.tokens ==> Live(s, i);
    }
  }

  lemma ScheduleKeeps(s: State, id: string, c: Cluster, target: string)
    requires Consistent(s) && Transient(c.state) && target == Goal(c.state)
    ensures Consistent(Schedule(Put(s, id, c), id, target))
  {
    var r := Schedule(Put(s, id, c), id, target);
    forall i | i in r.clusters
      ensures if i in r.tokens then Transient(r.clusters[i].state) && Live(r, i) else Settled(r.clusters[i].state)
    {
      if i != id {
        assert i in s.clusters && r.clusters[i] == s.clusters[i];
        assert i in s.tokens ==> Live(s, i);
      }
    }
  }

  lemma FireKeeps(s: State, t: Timer)
    requires Consistent(s)
    ensures Consistent(FireTimer(s, t))
  {
    var r := FireTimer(s, t);
    forall i | i in r.clusters
      ensures if i in r.tokens then Transient(r.clusters[i].state) && Live(r, i) else Settled(r.clusters[i].state)
    {
      assert i in s.clusters;
      if i in s.tokens {
        assert Live(s, i);
        var own := Timer(i, s.tokens[i], Goal(s.clusters[i].state));
        assert t in s.timers && t.token == own.token ==> t == own;
      }
    }
  }

  /** Every event keeps the machine consistent, an update that writes the state aside. */
  lemma HandleKeeps(s: State, e: Event)
    requires Consistent(s) && !WritesState(e)
    ensures Consistent(Handle(s, e).0)
  {
    hide Consistent, Schedule, FireTimer, Transient, Goal;
    match e
    case Create(id, fields, ok) =>
      CreatedState();
      ScheduleKeeps(s, id, Cluster(PENDING, "Starting cluster", fields), RUNNING);
    case Fire(t) => FireKeeps(s, t);
    case Reset => ResetKeeps(s);
    case PermanentDelete(id) => if id in s.clusters { DeleteKeeps(s, id); }
    case Edit(id, fields, ok) =>
      if id in s.clusters { PutKeeps(s, id, s.clusters[id].(fields := s.clusters[id].fields + fields)); }
    case Update(id, mask, payload) =>
      if id in s.clusters && mask.Some? && KnownMask(mask.value) {
        PutKeeps(s, id, Overwrite(s.clusters[id], Updates(mask.value, payload)));
      }
    case Pin(id) =>
      if id in s.clusters {
        PutKeeps(s, id, s.clusters[id].(fields := s.clusters[id].fields["pinned_by_user_name" := "minilake-user"]));
      }
    case Unpin(id) =>
      if id in s.clusters {
        PutKeeps(s, id, s.clusters[id].(fields := s.clusters[id].fields - {"pinned_by_user_name"}));
      }
    case ChangeOwner(id, owner) =>
      if id in s.clusters {
        PutKeeps(s, id, s.clusters[id].(fields := s.clusters[id].fields["creator_user_name" := owner]));
      }
    case Start(id) =>
      CreatedState();
      if id in s.clusters {
        ScheduleKeeps(s, id, s.clusters[id].(state := PENDING, message := "Starting cluster"), RUNNING);
      }
    case Terminate(id) =>
      CreatedState();
      if id in s.clusters {
        ScheduleKeeps(s, id, s.clusters[id].(state := TERMINATING, message := "Terminating cluster"), TERMINATED);
      }
    case Restart(id) =>
      CreatedState();
      if id in s.clusters {
        ScheduleKeeps(s, id, s.clusters[id].(state := RESTARTING, message := "Restarting cluster"), RUNNING);
      }
    case Resize(id, fields) =>
      CreatedState();
      if id in s.clusters {
        ScheduleKeeps(s, id, Cluster(RESIZING, "Resizing cluster", s.clusters[id].fields + fields), RUNNING);
      }
  }

  lemma CreatedState()
    ensures Transient(PENDING) && Transient(TERMINATING) && Transient(RESTARTING) && Transient(RESIZING)
    ensures Goal(PENDING) == RUNNING && Goal(TERMINATING) == TERMINATED
    ensures Goal(RESTARTING) == RUNNING && Goal(RESIZING) == RUNNING
    ensures Goal(RUNNING) == RUNNING && Goal(TERMINATED) == TERMINATED
  {
  }

  lemma ResetKeeps(s: State)
    requires Consistent(s)
    ensures Consistent(s.(clusters := map[], tokens := map[]))
  {
  }

  lemma DeleteKeeps(s: State, id: string)
    requires Consistent(s)
    ensures Consistent(s.(clusters := s.clusters - {id}, tokens := s.tokens - {id}))
  {
    var r := s.(clusters := s.clusters - {id}, tokens := s.tokens - {id});
    forall i | i in r.clusters
      ensures if i in r.tokens then Transient(r.clusters[i].state) && Live(r, i) else Settled(r.clusters[i].state)
    {
      assert i in s.tokens ==> Live(s, i);
    }
  }

  predicate NoStateWrites(events: seq<Event>) { forall e | e in events :: !WritesState(e) }

  /** From a consistent state, a fresh one for instance, every run is consistent. */
  lemma {:induction false} RunConsistent(s: State, events: seq<Event>)
    requires Consistent(s) && NoStateWrites(events)
    ensures Consistent(Run(s, events))
    decreases |events|
  {
    hide Consistent, Handle;
    if events != [] {
      assert events[0] in events;
      HandleKeeps(s, events[0]);
      RunConsistent(Handle(s, events[0]).0, events[1..]);
    }
  }

  /**
   * Exactly when an update that writes the state keeps the machine consistent: a cluster with a token must
   * stay in a transient state bound for the same goal, one without must be put in a settled state.
   */
  lemma StateWriteKeeps(s: State, e: Event)
    requires Consistent(s) && WritesState(e) && e.id in s.clusters && KnownMask(e.mask.value)
    ensures Consistent(Handle(s, e).0) <==>
      if e.id in s.tokens then
        Transient(e.payload["state"]) && Goal(e.payload["state"]) == Goal(s.clusters[e.id].state)
      else Settled(e.payload["state"])
  {
    hide Transient, Settled, Goal, UPDATABLE;
    var id := e.id;
    var c := Overwrite(s.clusters[id], Updates(e.mask.value, e.payload));
    var r := Put(s, id, c);
    assert Handle(s, e).0 == r && c.state == e.payload["state"];
    StateWriteKeepsPut(s, id, c);
  }

  lemma StateWriteKeepsPut(s: State, id: string, c: Cluster)
    requires Consistent(s) && id in s.clusters
    ensures Consistent(Put(s, id, c)) <==>
      if id in s.tokens then Transient(c.state) && Goal(c.state) == Goal(s.clusters[id].state) else Settled(c.state)
  {
    hide Transient, Settled, Goal;
    var r := Put(s, id, c);
    if id in s.tokens {
      assert Live(s, id);
      var own := Timer(id, s.tokens[id], Goal(s.clusters[id].state));
      if Live(r, id) {
        assert Timer(id, r.tokens[id], Goal(c.state)) == own;
      }
    }
    forall i | i in r.clusters && i != id
      ensures if i in r.tokens then Transient(r.clusters[i].state) && Live(r, i) else Settled(r.clusters[i].state)
    {
      assert i in s.tokens ==> Live(s, i);
    }
    if Consistent(r) {
      assert id in r.clusters;
    }
  }

  // ---------------------------------------------------------------- superseded timers

  predicate Holds(s: State, t: Timer) { t.clusterId in s.tokens && s.tokens[t.clusterId] == t.token }

  /** A timer that has lost its token never gets it back, whatever happens. */
  lemma {:induction false} StaleForever(s: State, events: seq<Event>, t: Timer)
    requires t.token < s.nextToken && !Holds(s, t)
    ensures !Holds(Run(s, events), t)
    decreases |events|
  {
    if events != [] {
      StaleAfter(s, events[0], t);
      StaleForever(Handle(s, events[0]).0, events[1..], t);
    }
  }

  lemma StaleAfter(s: State, e: Event, t: Timer)
    requires t.token < s.nextToken && !Holds(s, t)
    ensures t.token < Handle(s, e).0.nextToken && !Holds(Handle(s, e).0, t)
  {
    hide Overwrite, KnownMask, Updates, UPDATABLE;
  }

  /** An operation that takes the token of the timer's cluster: it schedules anew, deletes, or resets. */
  predicate Supersedes(s: State, e: Event, id: string) {
    match e
    case Create(i, _, ok) => i == id && ok
    case Start(i) => i == id && id in s.clusters && s.clusters[id].state !in {RUNNING, PENDING}
    case Terminate(i) => i == id && id in s.clusters && s.clusters[id].state !in {TERMINATED, TERMINATING}
    case Restart(i) => i == id && id in s.clusters
    case Resize(i, _) => i == id && id in s.clusters
    case PermanentDelete(i) => i == id && id in s.clusters
    case Reset => true
    case _ => false
  }

  /** Once an operation has superseded a timer, its firing changes no cluster and no token, ever. */
  lemma SupersededTimerIsIdle(s: State, e: Event, events: seq<Event>, t: Timer)
    requires Consistent(s) && t in s.timers && Supersedes(s, e, t.clusterId)
    ensures var later := Run(Handle(s, e).0, events);
      FireTimer(later, t) == later.(timers := later.timers - {t})
  {
    assert t.token < s.nextToken;
    SupersededAt(s, e, t);
    StaleForever(Handle(s, e).0, events, t);
    hide Run, Handle;
  }

  lemma SupersededAt(s: State, e: Event, t: Timer)
    requires t.token < s.nextToken && Supersedes(s, e, t.clusterId)
    ensures t.token < Handle(s, e).0.nextToken && !Holds(Handle(s, e).0, t)
  {
  }

  /** A cluster in a transient state has a timer asleep that brings it to its goal. */
  lemma TimerSettles(s: State, id: string) returns (t: Timer)
    requires Consistent(s) && id in s.clusters && Transient(s.clusters[id].state)
    ensures t in s.timers && t.clusterId == id
    ensures var c := s.clusters[id];
      FireTimer(s, t).clusters == s.clusters[id := c.(state := Goal(c.state), message := "")]
  {
    assert id in s.tokens;
    assert Live(s, id);
    t := Timer(id, s.tokens[id], Goal(s.clusters[id].state));
  }

  // ---------------------------------------------------------------- one pending target per cluster

  /** The abstract machine: cluster states only. A transient state is its own pending transition. */
  datatype Move =
    | Begin(id: string, state: string)
    | Arrive(id: string)
    | Remove(id: string)
    | Clear
    | Idle

  predicate Enabled(a: map<string, string>, m: Move) {
    m.Arrive? ==> m.id in a && Transient(a[m.id])
  }

  function Step(a: map<string, string>, m: Move): map<string, string> {
    match m
    case Begin(id, state) => a[id := state]
    case Arrive(id) => if id in a then a[id := Goal(a[id])] else a
    case Remove(id) => a - {id}
    case Clear => map[]
    case Idle => a
  }

  function Steps(a: map<string, string>, moves: seq<Move>): map<string, string>
    decreases |moves|
  {
    if moves == [] then a else Steps(Step(a, moves[0]), moves[1..])
  }

  ghost predicate Enableds(a: map<string, string>, moves: seq<Move>)
    decreases |moves|
  {
    moves != [] ==> Enabled(a, moves[0]) && Enableds(Step(a, moves[0]), moves[1..])
  }

  function States(s: State): map<string, string> { map id | id in s.clusters :: s.clusters[id].state }

  /** The abstract move an event makes; a timer without its token makes none. */
  function MoveOf(s: State, e: Event): Move {
    match e
    case Create(id, _, ok) => if ok then Begin(id, PENDING) else Idle
    case Start(id) => if Supersedes(s, e, id) then Begin(id, PENDING) else Idle
    case Terminate(id) => if Supersedes(s, e, id) then Begin(id, TERMINATING) else Idle
    case Restart(id) => if id in s.clusters then Begin(id, RESTARTING) else Idle
    case Resize(id, _) => if id in s.clusters then Begin(id, RESIZING) else Idle
    case PermanentDelete(id) => if id in s.clusters then Remove(id) else Idle
    case Reset => Clear
    case Fire(t) => if t in s.timers && Holds(s, t) then Arrive(t.clusterId) else Idle
    case _ => Idle
  }

  function Moves(s: State, events: seq<Event>): seq<Move>
    decreases |events|
  {
    if events == [] then [] else [MoveOf(s, events[0])] + Moves(Handle(s, events[0]).0, events[1..])
  }

  /** One event is one enabled move of the abstract machine, or none. */
  lemma StepRefines(s: State, e: Event)
    requires Consistent(s) && !WritesState(e)
    ensures Enabled(States(s), MoveOf(s, e))
    ensures States(Handle(s, e).0) == Step(States(s), MoveOf(s, e))
  {
    hide Consistent, Transient, Goal, FireTimer, Put, Schedule, States, Overwrite;
    match e
    case Fire(t) => FireRefines(s, t);
    case Create(id, fields, ok) => BeginStates(s, id, Cluster(PENDING, "Starting cluster", fields), RUNNING);
    case Start(id) =>
      if id in s.clusters {
        BeginStates(s, id, s.clusters[id].(state := PENDING, message := "Starting cluster"), RUNNING);
      }
    case Terminate(id) =>
      if id in s.clusters {
        BeginStates(s, id, s.clusters[id].(state := TERMINATING, message := "Terminating cluster"), TERMINATED);
      }
    case Restart(id) =>
      if id in s.clusters {
        BeginStates(s, id, s.clusters[id].(state := RESTARTING, message := "Restarting cluster"), RUNNING);
      }
    case Resize(id, fields) =>
      if id in s.clusters {
        BeginStates(s, id, Cluster(RESIZING, "Resizing cluster", s.clusters[id].fields + fields), RUNNING);
      }
    case PermanentDelete(id) => RemoveStates(s, id);
    case Reset => RemoveStates(s, "");
    case Update(id, mask, payload) =>
      if id in s.clusters && mask.Some? && KnownMask(mask.value) {
        KnownState(mask.value);
        var updates := Updates(mask.value, payload);
        assert "state" !in updates;
        OverwriteState(s.clusters[id], updates);
        SameStates(s, id, Overwrite(s.clusters[id], updates));
      }
    case Edit(id, fields, _) => SameFields(s, id);
    case Pin(id) => SameFields(s, id);
    case Unpin(id) => SameFields(s, id);
    case ChangeOwner(id, _) => SameFields(s, id);
  }

  lemma OverwriteState(c: Cluster, updates: map<string, string>)
    requires "state" !in updates
    ensures Overwrite(c, updates).state == c.state
  {
  }

  lemma BeginStates(s: State, id: string, c: Cluster, target: string)
    ensures States(Schedule(Put(s, id, c), id, target)) == States(s)[id := c.state]
  {
  }

  lemma RemoveStates(s: State, id: string)
    ensures States(s.(clusters := s.clusters - {id}, tokens := s.tokens - {id})) == States(s) - {id}
    ensures States(s.(clusters := map[], tokens := map[])) == map[]
  {
  }

  lemma SameStates(s: State, id: string, c: Cluster)
    requires id in s.clusters && c.state == s.clusters[id].state
    ensures States(Put(s, id, c)) == States(s)
  {
  }

  lemma SameFields(s: State, id: string)
    ensures id in s.clusters ==> forall f :: States(Put(s, id, s.clusters[id].(fields := f))) == States(s)
  {
    if id in s.clusters {
      forall f ensures States(Put(s, id, s.clusters[id].(fields := f))) == States(s) {
        SameStates(s, id, s.clusters[id].(fields := f));
      }
    }
  }

  lemma KnownState(mask: seq<string>)
    ensures KnownMask(mask) && "*" !in mask ==> "state" !in mask
  {
    if KnownMask(mask) && "state" in mask {
      assert "state" in UPDATABLE || "state" == "*";
    }
  }

  lemma FireRefines(s: State, t: Timer)
    requires Consistent(s)
    ensures Enabled(States(s), MoveOf(s, Fire(t)))
    ensures States(FireTimer(s, t)) == Step(States(s), MoveOf(s, Fire(t)))
  {
    hide Transient, Goal;
    var id := t.clusterId;
    if t in s.timers && Holds(s, t) {
      assert id in s.clusters;
      assert Live(s, id);
      assert t == Timer(id, s.tokens[id], Goal(s.clusters[id].state));
    }
  }

  /** Whole runs refine the abstract machine, timers firing in any order. */
  lemma {:induction false} RunRefines(s: State, events: seq<Event>)
    requires Consistent(s) && NoStateWrites(events)
    ensures States(Run(s, events)) == Steps(States(s), Moves(s, events))
    ensures Enableds(States(s), Moves(s, events))
    decreases |events|
  {
    hide Consistent, Handle, MoveOf, Step, States, Enabled;
    if events != [] {
      assert events[0] in events;
      StepRefines(s, events[0]);
      HandleKeeps(s, events[0]);
      RunRefines(Handle(s, events[0]).0, events[1..]);
      assert Moves(s, events)[1..] == Moves(Handle(s, events[0]).0, events[1..]);
    }
  }

  // ---------------------------------------------------------------- the last operation wins

  /** Where the operations alone send each cluster; timers play no part. */
  function Aim(aims: map<string, string>, e: Event): map<string, string> {
    match e
    case Create(id, _, ok) => if ok then aims[id := RUNNING] else aims
    case Start(id) => if id in aims then aims[id := RUNNING] else aims
    case Terminate(id) => if id in aims then aims[id := TERMINATED] else aims
    case Restart(id) => if id in aims then aims[id := RUNNING] else aims
    case Resize(id, _) => if id in aims then aims[id := RUNNING] else aims
    case PermanentDelete(id) => aims - {id}
    case Reset => map[]
    case _ => aims
  }

  function Aims(aims: map<string, string>, events: seq<Event>): map<string, string>
    decreases |events|
  {
    if events == [] then aims else Aims(Aim(aims, events[0]), events[1..])
  }

  function Goals(s: State): map<string, string> { map id | id in s.clusters :: Goal(s.clusters[id].state) }

  lemma StepAims(s: State, e: Event)
    requires Consistent(s) && !WritesState(e)
    ensures Goals(Handle(s, e).0) == Aim(Goals(s), e)
  {
    hide Consistent, Transient, Goal, Handle;
    CreatedState();
    StepRefines(s, e);
    StatesGoals(s);
    StatesGoals(Handle(s, e).0);
    MoveAims(s, e);
  }

  function GoalsOf(a: map<string, string>): map<string, string> { map id | id in a :: Goal(a[id]) }

  lemma StatesGoals(s: State)
    ensures Goals(s) == GoalsOf(States(s))
  {
  }

  lemma MoveAims(s: State, e: Event)
    requires Enabled(States(s), MoveOf(s, e)) && Consistent(s)
    ensures GoalsOf(Step(States(s), MoveOf(s, e))) == Aim(GoalsOf(States(s)), e)
  {
    hide Transient, Settled, FireTimer, Consistent, Goal, States, GoalsOf, PENDING, RUNNING, TERMINATING, TERMINATED;
    CreatedState();
    GoalOfGoal();
    var a := States(s);
    match e
    case Fire(t) => if t.clusterId in a { GoalsPut(a, t.clusterId, Goal(a[t.clusterId])); GoalsSame(a, t.clusterId); }
    case Create(id, _, _) => GoalsPut(a, id, PENDING);
    case Start(id) =>
      ClusterKeys(s, id);
      GoalsPut(a, id, PENDING);
      if id in s.clusters && !Supersedes(s, e, id) { StartAims(s, id); }
    case Terminate(id) =>
      ClusterKeys(s, id);
      GoalsPut(a, id, TERMINATING);
      if id in s.clusters && !Supersedes(s, e, id) { TerminateAims(s, id); }
    case Restart(id) => ClusterKeys(s, id); GoalsPut(a, id, RESTARTING);
    case Resize(id, _) => ClusterKeys(s, id); GoalsPut(a, id, RESIZING);
    case PermanentDelete(id) => ClusterKeys(s, id); GoalsDrop(a, id);
    case Reset => GoalsDrop(a, "");
    case _ =>
  }

  lemma ClusterKeys(s: State, id: string)
    ensures id in GoalsOf(States(s)) <==> id in s.clusters
    ensures id !in s.clusters ==> GoalsOf(States(s)) - {id} == GoalsOf(States(s))
  {
  }

  lemma GoalsPut(a: map<string, string>, id: string, state: string)
    ensures GoalsOf(a[id := state]) == GoalsOf(a)[id := Goal(state)]
  {
    hide Goal;
  }

  lemma GoalsSame(a: map<string, string>, id: string)
    requires id in a
    ensures GoalsOf(a)[id := Goal(a[id])] == GoalsOf(a)
  {
    hide Goal;
  }

  lemma GoalsDrop(a: map<string, string>, id: string)
    ensures GoalsOf(a - {id}) == GoalsOf(a) - {id} && GoalsOf(map[]) == map[]
  {
    hide Goal;
  }

  /** A start that does nothing finds the cluster running or about to run. */
  lemma StartAims(s: State, id: string)
    requires id in s.clusters && !Supersedes(s, Start(id), id)
    ensures GoalsOf(States(s))[id := RUNNING] == GoalsOf(States(s))
  {
  }

  lemma TerminateAims(s: State, id: string)
    requires id in s.clusters && !Supersedes(s, Terminate(id), id)
    ensures GoalsOf(States(s))[id := TERMINATED] == GoalsOf(States(s))
  {
  }

  lemma GoalOfGoal()
    ensures forall x :: Goal(Goal(x)) == Goal(x)
  {
  }

  /**
   * In every reachable state each cluster is in, or bound for, the target of its last operation,
   * so once every timer has fired it is there.
   */
  lemma {:induction false} LastOperationWins(s: State, events: seq<Event>)
    requires Consistent(s) && NoStateWrites(events)
    ensures Goals(Run(s, events)) == Aims(Goals(s), events)
    ensures Run(s, events).timers == {} ==> States(Run(s, events)) == Aims(Goals(s), events)
    decreases |events|
  {
    hide Consistent, Handle, Goals, Aim, States;
    if events == [] {
      if s.timers == {} {
        QuietStates(s);
      }
    } else {
      assert events[0] in events;
      StepAims(s, events[0]);
      HandleKeeps(s, events[0]);
      LastOperationWins(Handle(s, events[0]).0, events[1..]);
    }
  }

  lemma QuietStates(s: State)
    requires Consistent(s) && s.timers == {}
    ensures States(s) == Goals(s)
  {
    forall id | id in s.clusters ensures s.clusters[id].state == Goal(s.clusters[id].state) {
      assert id in s.tokens ==> Live(s, id);
    }
  }

  /** The operations of a run, without the firing timers. */
  function Operations(events: seq<Event>): seq<Event> {
    if events == [] then []
    else if events[0].Fire? then Operations(events[1..])
    else [events[0]] + Operations(events[1..])
  }

  lemma {:induction false} AimsOfOperations(aims: map<string, string>, events: seq<Event>)
    ensures Aims(aims, events) == Aims(aims, Operations(events))
    decreases |events|
  {
    hide Aim;
    if events != [] {
      AimsOfOperations(Aim(aims, events[0]), events[1..]);
      if events[0].Fire? {
        assert Aim(aims, events[0]) == aims by { FireAims(aims, events[0]); }
      } else {
        var ops := Operations(events);
        assert ops[0] == events[0] && ops[1..] == Operations(events[1..]);
      }
    }
  }

  lemma FireAims(aims: map<string, string>, e: Event)
    requires e.Fire?
    ensures Aim(aims, e) == aims
  {
  }

  /** Two runs of the same operations end in the same cluster states once quiet, however their timers interleave. */
  lemma TimingDoesNotMatter(s: State, a: seq<Event>, b: seq<Event>)
    requires Consistent(s) && NoStateWrites(a) && NoStateWrites(b) && Operations(a) == Operations(b)
    requires Run(s, a).timers == {} && Run(s, b).timers == {}
    ensures States(Run(s, a)) == States(Run(s, b))
  {
    LastOperationWins(s, a);
    LastOperationWins(s, b);
    AimsOfOperations(Goals(s), a);
    AimsOfOperations(Goals(s), b);
  }

  // ---------------------------------------------------------------- what a written state breaks

  /** A cluster put in PENDING by an update, without a timer: starting it and waiting leave it there for good. */
  lemma {:induction false} StuckPending(s: State, events: seq<Event>, id: string)
    requires id in s.clusters && s.clusters[id].state == PENDING && id !in s.tokens
    requires forall e | e in events :: e.Fire? || e == Start(id)
    ensures var r := Run(s, events); id in r.clusters && r.clusters[id].state == PENDING && id !in r.tokens
    decreases |events|
  {
    if events != [] {
      assert events[0] in events;
      StuckPending(Handle(s, events[0]).0, events[1..], id);
    }
  }

  /** Such a state is one update away from a running cluster. */
  lemma WritePendingStrands(s: State, id: string)
    requires Consistent(s) && id in s.clusters && s.clusters[id].state == RUNNING
    ensures var r := Handle(s, Update(id, Some(["*"]), map["state" := PENDING])).0;
      r.clusters[id].state == PENDING && id !in r.tokens && !Consistent(r)
  {
    var e := Update(id, Some(["*"]), map["state" := PENDING]);
    assert KnownMask(["*"]);
    assert !Transient(RUNNING) && !Settled(PENDING);
    assert id !in s.tokens;
    StateWriteKeeps(s, e);
    hide Consistent, UPDATABLE;
  }

  // ---------------------------------------------------------------- the service

  // ---------------------------------------------------------------- what one request leaves alone

  /** Only this cluster and its token can differ, and no sleeping timer is lost. */
  ghost predicate OthersKept(s: State, after: State, id: string) {
    && (forall i | i != id :: (i in after.clusters <==> i in s.clusters) && (i in after.tokens <==> i in s.tokens))
    && (forall i | i != id && i in s.clusters :: after.clusters[i] == s.clusters[i])
    && (forall i | i != id && i in s.tokens :: after.tokens[i] == s.tokens[i])
    && s.timers <= after.timers
  }

  /** The cluster is in a state whose goal is the target, or on its way there with a live timer. */
  predicate Bound(s: State, id: string, target: string) {
    id in s.clusters && Goal(s.clusters[id].state) == target && (s.clusters[id].state == target || Live(s, id))
  }

  /** A request about one cluster. */
  function Concerns(e: Event): Option<string> {
    match e
    case Create(id, _, _) => Some(id)
    case Edit(id, _, _) => Some(id)
    case Start(id) => Some(id)
    case Terminate(id) => Some(id)
    case PermanentDelete(id) => Some(id)
    case Restart(id) => Some(id)
    case Resize(id, _) => Some(id)
    case _ => None
  }

  /** Such a request keeps the machine consistent, other clusters as they are, and sends the cluster on its way. */
  lemma RequestFrame(s: State, e: Event)
    requires Concerns(e).Some?
    ensures var (after, r) := Handle(s, e); var id := Concerns(e).value;
      && OthersKept(s, after, id) && (Consistent(s) ==> Consistent(after))
      && (r == Done && Consistent(s) && (e.Create? || e.Start? || e.Restart? || e.Resize?) ==> Bound(after, id, RUNNING))
      && (r == Done && Consistent(s) && e.Terminate? ==> Bound(after, id, TERMINATED))
      && (r == Done && e.PermanentDelete? ==> id !in after.clusters && id !in after.tokens)
  {
    if Consistent(s) {
      HandleKeeps(s, e);
      var after := Handle(s, e).0;
      var id := Concerns(e).value;
      if id in s.clusters && id in s.tokens {
        assert Live(s, id);
      }
    }
  }

  class Service {
    var clusters: map<string, Cluster>
    var tokens: map<string, nat>
    var timers: set<Timer>
    var nextToken: nat

    ghost function View(): State
      reads this
    {
      State(clusters, tokens, timers, nextToken)
    }

    constructor ()
      ensures View() == EMPTY && Consistent(View())
    {
      clusters, tokens, timers, nextToken := map[], map[], {}, 0;
    }

    method ScheduleTransition(id: string, target: string)
      modifies this
      ensures View() == Schedule(old(View()), id, target)
    {
      var token := nextToken;
      nextToken := nextToken + 1;
      tokens := tokens[id := token];
      timers := timers + {Timer(id, token, target)};
    }

    /** The timer's task, once its delay is over. */
    method Transition(t: Timer)
      requires t in timers
      modifies this
      ensures (View(), Done) == Handle(old(View()), Fire(t))
    {
      timers := timers - {t};
      if t.clusterId !in tokens || tokens[t.clusterId] != t.token {
        return;
      }
      tokens := tokens - {t.clusterId};
      if t.clusterId !in clusters {
        return;
      }
      clusters := clusters[t.clusterId := clusters[t.clusterId].(state := t.target, message := "")];
    }

    method CreateCluster(id: string, fields: map<string, string>, referencesExist: bool) returns (r: Response)
      modifies this
      ensures (View(), r) == Handle(old(View()), Create(id, fields, referencesExist))
      ensures OthersKept(old(View()), View(), id) && (Consistent(old(View())) ==> Consistent(View()))
      ensures r == Done && Consistent(old(View())) ==> Bound(View(), id, RUNNING)
    {
      RequestFrame(View(), Create(id, fields, referencesExist));
      hide OthersKept, Consistent, Bound;
      if !referencesExist {
        return BadReference;
      }
      clusters := clusters[id := Cluster(PENDING, "Starting cluster", fields)];
      ScheduleTransition(id, RUNNING);
      r := Done;
    }

    method EditCluster(id: string, fields: map<string, string>, referencesExist: bool) returns (r: Response)
      modifies this
      ensures (View(), r) == Handle(old(View()), Edit(id, fields, referencesExist))
      ensures OthersKept(old(View()), View(), id) && (Consistent(old(View())) ==> Consistent(View()))
    {
      RequestFrame(View(), Edit(id, fields, referencesExist));
      hide OthersKept, Consistent, Bound;
      if id !in clusters {
        return NotFound;
      }
      if !referencesExist {
        return BadReference;
      }
      clusters := clusters[id := clusters[id].(fields := clusters[id].fields + fields)];
      r := Done;
    }

    method UpdateCluster(id: string, mask: Option<seq<string>>, payload: map<string, string>) returns (r: Response)
      modifies this
      ensures (View(), r) == Handle(old(View()), Update(id, mask, payload))
    {
      hide UPDATABLE;
      if id !in clusters {
        return NotFound;
      }
      if mask.None? {
        return MaskRequired;
      }
      if !KnownMask(mask.value) {
        return UnknownField;
      }
      clusters := clusters[id := Overwrite(clusters[id], Updates(mask.value, payload))];
      r := Done;
    }

    method StartCluster(id: string) returns (r: Response)
      modifies this
      ensures (View(), r) == Handle(old(View()), Start(id))
      ensures OthersKept(old(View()), View(), id) && (Consistent(old(View())) ==> Consistent(View()))
      ensures r == Done && Consistent(old(View())) ==> Bound(View(), id, RUNNING)
    {
      RequestFrame(View(), Start(id));
      hide OthersKept, Consistent, Bound;
      if id !in clusters {
        return NotFound;
      }
      if clusters[id].state == RUNNING || clusters[id].state == PENDING {
        return Done;
      }
      clusters := clusters[id := clusters[id].(state := PENDING, message := "Starting cluster")];
      ScheduleTransition(id, RUNNING);
      r := Done;
    }

    method TerminateCluster(id: string) returns (r: Response)
      modifies this
      ensures (View(), r) == Handle(old(View()), Terminate(id))
      ensures OthersKept(old(View()), View(), id) && (Consistent(old(View())) ==> Consistent(View()))
      ensures r == Done && Consistent(old(View())) ==> Bound(View(), id, TERMINATED)
    {
      RequestFrame(View(), Terminate(id));
      hide OthersKept, Consistent, Bound;
      if id !in clusters {
        return NotFound;
      }
      if clusters[id].state == TERMINATED || clusters[id].state == TERMINATING {
        return Done;
      }
      clusters := clusters[id := clusters[id].(state := TERMINATING, message := "Terminating cluster")];
      ScheduleTransition(id, TERMINATED);
      r := Done;
    }

    method PermanentDeleteCluster(id: string) returns (r: Response)
      modifies this
      ensures (View(), r) == Handle(old(View()), PermanentDelete(id))
      ensures OthersKept(old(View()), View(), id) && (Consistent(old(View())) ==> Consistent(View()))
      ensures r == Done ==> id !in clusters && id !in tokens
    {
      RequestFrame(View(), PermanentDelete(id));
      hide OthersKept, Consistent, Bound;
      if id !in clusters {
        return NotFound;
      }
      clusters := clusters - {id};
      tokens := tokens - {id};
      r := Done;
    }

    method RestartCluster(id: string) returns (r: Response)
      modifies this
      ensures (View(), r) == Handle(old(View()), Restart(id))
      ensures OthersKept(old(View()), View(), id) && (Consistent(old(View())) ==> Consistent(View()))
      ensures r == Done && Consistent(old(View())) ==> Bound(View(), id, RUNNING)
    {
      RequestFrame(View(), Restart(id));
      hide OthersKept, Consistent, Bound;
      if id !in clusters {
        return NotFound;
      }
      clusters := clusters[id := clusters[id].(state := RESTARTING, message := "Restarting cluster")];
      ScheduleTransition(id, RUNNING);
      r := Done;
    }

    method ResizeCluster(id: string, fields: map<string, string>) returns (r: Response)
      modifies this
      ensures (View(), r) == Handle(old(View()), Resize(id, fields))
      ensures OthersKept(old(View()), View(), id) && (Consistent(old(View())) ==> Consistent(View()))
      ensures r == Done && Consistent(old(View())) ==> Bound(View(), id, RUNNING)
    {
      RequestFrame(View(), Resize(id, fields));
      hide OthersKept, Consistent, Bound;
      if id !in clusters {
        return NotFound;
      }
      clusters := clusters[id := Cluster(RESIZING, "Resizing cluster", clusters[id].fields + fields)];
      ScheduleTransition(id, RUNNING);
      r := Done;
    }

    method ResetAll()
      modifies this
      ensures (View(), Done) == Handle(old(View()), Reset)
      ensures clusters == map[] && tokens == map[] && timers == old(timers)
      ensures Consistent(old(View())) ==> Consistent(View())
    {
      if Consistent(View()) {
        ResetKeeps(View());
      }
      clusters := map[];
      tokens := map[];
    }
  }
}
