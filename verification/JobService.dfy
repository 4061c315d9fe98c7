/** The jobs API: job settings, runs and the background execution of a run, as one state in place. */
module JobService {
  import opened Text
  import opened TaskGraph
  import opened Scheduler

  // ---------------------------------------------------------------- state

  /** A job's settings, of which only the task list matters here. */
  datatype Settings = Settings(tasks: Option<seq<Task>>)

  function TasksOf(s: Settings): seq<Task> { match s.tasks case Some(ts) => ts case None => [] }

  /** Where the run's coroutine stands. */
  datatype Execution = NotStarted | Gathering(tasks: seq<Task>, sched: Sched) | Over

  datatype Run = Run(
    jobId: Option<nat>, ownTasks: Option<seq<Task>>,
    life: LifeCycle, result: Option<ResultState>, cancelRequested: bool,
    taskResults: seq<TaskResult>, execution: Execution)

  datatype State = State(
    jobs: map<nat, Settings>, runs: map<nat, Run>,
    submitTokens: map<string, nat>, runNowTokens: map<string, nat>,
    nextJobId: nat, nextRunId: nat)

  const EMPTY := State(map[], map[], map[], map[], 1, 1)

  datatype Event =
    | CreateJob(tasks: Option<seq<Task>>)
    | UpdateJob(jobId: nat, sent: Option<seq<Task>>, removeTasks: bool)
    | ResetJob(jobId: nat, tasks: Option<seq<Task>>)
    | DeleteJob(jobId: nat)
    | RunNow(jobId: nat, token: Option<string>)
    | SubmitRun(ownTasks: seq<Task>, submitToken: Option<string>)
    | CancelRun(runId: nat)
    | DeleteRun(runId: nat)
    | StartRun(runId: nat)
    | StepRun(runId: nat, action: Action, outcome: Option<TaskResult>)
    | EndRun(runId: nat)

  datatype Response =
    | Done
    | Created(id: nat)
    | NotFound
    | InvalidTaskGraph
    | EmptyTasks
    | TokenRunDeleted
    | StillActive

  // ---------------------------------------------------------------- what each event does

  function NewRun(jobId: Option<nat>, ownTasks: Option<seq<Task>>): Run {
    Run(jobId, ownTasks, Pending, None, false, [], NotStarted)
  }

  /** The settings an update leaves: the sent task list replaces the stored one, then fields are removed. */
  function UpdatedSettings(old_: Settings, sent: Option<seq<Task>>, removeTasks: bool): Settings {
    if removeTasks then Settings(None) else if sent.Some? then Settings(sent) else old_
  }

  /** The tasks a run executes: its own, else its job's at the moment it starts, else none. */
  function SourceTasks(s: State, run: Run): seq<Task> {
    if run.ownTasks.Some? then run.ownTasks.value
    else if run.jobId.Some? && run.jobId.value in s.jobs then TasksOf(s.jobs[run.jobId.value])
    else []
  }

  predicate IsActive(run: Run) { run.life in {Pending, Running, Terminating} }

  /** `[results[t.task_key] for t in tasks]`. */
  function ResultList(tasks: seq<Task>, results: map<string, TaskResult>): seq<TaskResult> {
    if tasks == [] then []
    else (if tasks[0].key in results then [results[tasks[0].key]] else []) + ResultList(tasks[1..], results)
  }

  /** The result a finished loop gives its run. */
  function FinalResult(cancelRequested: bool, results: seq<TaskResult>, unschedulable: bool): ResultState {
    if cancelRequested then Canceled
    else if (exists r :: r in results && HasFailed(r)) || unschedulable then Failed
    else Success
  }

  /** One event, atomic between two awaits. */
  ghost function Handle(s: State, e: Event): (State, Response) {
    match e
    case CreateJob(tasks) =>
      if !Schedulable(TasksOf(Settings(tasks))) then (s, InvalidTaskGraph)
      else (s.(jobs := s.jobs[s.nextJobId := Settings(tasks)], nextJobId := s.nextJobId + 1), Created(s.nextJobId))
    case UpdateJob(id, sent, removeTasks) =>
      if id !in s.jobs then (s, NotFound)
      else
        var settings := UpdatedSettings(s.jobs[id], sent, removeTasks);
        if !Schedulable(TasksOf(settings)) then (s, InvalidTaskGraph)
        else (s.(jobs := s.jobs[id := settings]), Done)
    case ResetJob(id, tasks) =>
      if id !in s.jobs then (s, NotFound)
      else if !Schedulable(TasksOf(Settings(tasks))) then (s, InvalidTaskGraph)
      else (s.(jobs := s.jobs[id := Settings(tasks)]), Done)
    case DeleteJob(id) =>
      if id !in s.jobs then (s, NotFound) else (s.(jobs := s.jobs - {id}), Done)
    case RunNow(id, token) =>
      if token.Some? && token.value in s.runNowTokens then
        var existing := s.runNowTokens[token.value];
        (s, if existing in s.runs then Created(existing) else TokenRunDeleted)
      else if id !in s.jobs then (s, NotFound)
      else if !Schedulable(TasksOf(s.jobs[id])) then (s, InvalidTaskGraph)
      else
        (s.(runs := s.runs[s.nextRunId := NewRun(Some(id), None)], nextRunId := s.nextRunId + 1,
            runNowTokens := if token.Some? then s.runNowTokens[token.value := s.nextRunId] else s.runNowTokens),
         Created(s.nextRunId))
    case SubmitRun(tasks, token) =>
      if tasks == [] then (s, EmptyTasks)
      else if token.Some? && token.value != "" && token.value in s.submitTokens then
        (s, Created(s.submitTokens[token.value]))
      else if !Schedulable(tasks) then (s, InvalidTaskGraph)
      else
        (s.(runs := s.runs[s.nextRunId := NewRun(None, Some(tasks))], nextRunId := s.nextRunId + 1,
            submitTokens := if token.Some? && token.value != "" then s.submitTokens[token.value := s.nextRunId]
                            else s.submitTokens),
         Created(s.nextRunId))
    case CancelRun(id) =>
      if id !in s.runs then (s, NotFound)
      else (s.(runs := s.runs[id := s.runs[id].(cancelRequested := true)]), Done)
    case DeleteRun(id) =>
      if id !in s.runs then (s, NotFound)
      else if IsActive(s.runs[id]) then (s, StillActive)
      else (s.(runs := s.runs - {id}), Done)
    case StartRun(id) =>
      if id !in s.runs || !s.runs[id].execution.NotStarted? then (s, NotFound)
      else (s.(runs := s.runs[id := Started(s.runs[id], SourceTasks(s, s.runs[id]))]), Done)
    case StepRun(id, action, outcome) =>
      if id !in s.runs || !s.runs[id].execution.Gathering? then (s, NotFound)
      else (s.(runs := s.runs[id := Stepped(s.runs[id], action, outcome)]), Done)
    case EndRun(id) =>
      if id !in s.runs || !s.runs[id].execution.Gathering? then (s, NotFound)
      else (s.(runs := s.runs[id := Ended(s.runs[id])]), Done)
  }

  /** The first segment of the run's coroutine. */
  ghost function Started(run: Run, tasks: seq<Task>): Run {
    if Schedulable(tasks) then run.(life := Running, execution := Gathering(tasks, Initial(tasks)))
    else run.(life := Terminated, result := Some(Failed), execution := Over,
              taskResults := seq(|tasks|, _ => SKIPPED))
  }

  /** A scheduler step under the run's present cancellation flag; what is not enabled does nothing. */
  function Stepped(run: Run, action: Action, outcome: Option<TaskResult>): Run
    requires run.execution.Gathering?
  {
    run.(execution := run.execution.(
           sched := Do(run.execution.tasks, _ => outcome, run.execution.sched, RunStep(action, run.cancelRequested))))
  }

  /** The last segment: the loop is over, or a task of the gathered level raised. */
  function Ended(run: Run): Run
    requires run.execution.Gathering?
  {
    var sched := run.execution.sched;
    if Finished(sched) then
      var results := ResultList(run.execution.tasks, sched.results);
      run.(life := Terminated, taskResults := results, execution := Over,
           result := Some(FinalResult(run.cancelRequested, results, sched.unschedulable)))
    else if HasRaised(sched) then
      run.(life := Terminated, result := Some(Failed), execution := Over)
    else run
  }

  // ---------------------------------------------------------------- the invariant

  /** The scheduler of a started run is where Scheduler's invariant says, for some depths. */
  ghost predicate OnSchedule(tasks: seq<Task>, sched: Sched) { exists depth :: Inv(tasks, depth, sched) }

  ghost predicate RunOk(run: Run) {
    && (run.ownTasks.Some? ==> Schedulable(run.ownTasks.value))
    && (match run.execution
        case NotStarted => run.life == Pending && run.result == None && run.taskResults == []
        case Gathering(tasks, sched) =>
          run.life == Running && run.result == None && run.taskResults == [] && OnSchedule(tasks, sched)
        case Over => run.life == Terminated && run.result.Some?)
  }

  ghost predicate ServiceOk(s: State) {
    && (forall id | id in s.jobs :: id < s.nextJobId && Schedulable(TasksOf(s.jobs[id])))
    && (forall id | id in s.runs :: id < s.nextRunId && RunOk(s.runs[id]))
    && (forall t | t in s.submitTokens :: s.submitTokens[t] < s.nextRunId)
    && (forall t | t in s.runNowTokens :: s.runNowTokens[t] < s.nextRunId)
  }

  lemma EmptyIsSchedulable()
    ensures Schedulable([])
  {
    assert TopologicalOrder([], []);
  }

  /** The graph check at the start of a run never fails: the branch for an invalid graph is dead. */
  lemma GraphErrorUnreachable(s: State, id: nat)
    requires ServiceOk(s) && id in s.runs
    ensures Schedulable(SourceTasks(s, s.runs[id]))
    ensures s.runs[id].execution.NotStarted? ==>
              Handle(s, StartRun(id)).0.runs[id].execution.Gathering?
  {
    EmptyIsSchedulable();
  }

  lemma StartedOk(run: Run, tasks: seq<Task>)
    requires RunOk(run) && run.execution.NotStarted? && Schedulable(tasks)
    ensures RunOk(Started(run, tasks))
  {
    var depth := DepthExists(tasks);
    InitialInv(tasks, depth);
  }

  lemma SteppedOk(run: Run, action: Action, outcome: Option<TaskResult>)
    requires RunOk(run) && run.execution.Gathering?
    ensures RunOk(Stepped(run, action, outcome))
  {
    hide Inv, Next, Enabled;
    var Gathering(tasks, sched) := run.execution;
    var depth :| Inv(tasks, depth, sched);
    InvWellKeyed(tasks, depth, sched);
    if Enabled(tasks, sched, action) {
      NextInv(tasks, depth, _ => outcome, run.cancelRequested, sched, action);
    }
    assert Inv(tasks, depth, Stepped(run, action, outcome).execution.sched);
  }

  /** Every event, by a caller or by the event loop, keeps the service consistent. */
  lemma HandleOk(s: State, e: Event)
    requires ServiceOk(s)
    ensures ServiceOk(Handle(s, e).0)
  {
    hide Schedulable, OnSchedule, Started, Stepped, Finished, HasRaised, FinalResult, ResultList;
    match e
    case StartRun(id) =>
      if id in s.runs && s.runs[id].execution.NotStarted? {
        GraphErrorUnreachable(s, id);
        StartedOk(s.runs[id], SourceTasks(s, s.runs[id]));
      }
    case StepRun(id, action, outcome) =>
      if id in s.runs && s.runs[id].execution.Gathering? {
        SteppedOk(s.runs[id], action, outcome);
      }
    case _ =>
  }

  // ---------------------------------------------------------------- one event on one run

  /** A run only moves from PENDING to RUNNING to TERMINATED. */
  predicate Moves(before: LifeCycle, after: LifeCycle) {
    before == after || (before == Pending && after == Running) || (before == Running && after == Terminated)
  }

  function StartedTasks(run: Run): seq<string> {
    if run.execution.Gathering? then run.execution.sched.started else []
  }

  lemma HandleMovesRuns(s: State, e: Event, id: nat)
    requires ServiceOk(s)
    ensures
      var s' := Handle(s, e).0;
      && (id in s.runs && id in s'.runs ==>
            && Moves(s.runs[id].life, s'.runs[id].life)
            && (s.runs[id].result.Some? ==> s'.runs[id].result == s.runs[id].result)
            && (s.runs[id].cancelRequested ==> s'.runs[id].cancelRequested)
            && (s.runs[id].cancelRequested ==>
                  s'.runs[id].execution.Over? || StartedTasks(s'.runs[id]) == StartedTasks(s.runs[id]))
            && (s.runs[id].execution.Over? ==> s'.runs[id].execution.Over?))
      && (id in s.runs && id !in s'.runs ==> s.runs[id].life == Terminated)
      && (id !in s.runs && id in s'.runs ==> id == s.nextRunId && s'.runs[id].life == Pending)
      && s.nextRunId <= s'.nextRunId
  {
    hide Schedulable, OnSchedule, Stepped, Ended, SourceTasks;
    match e
    case StartRun(i) =>
      if i in s.runs {
        GraphErrorUnreachable(s, i);
      }
    case EndRun(i) =>
      if i in s.runs && s.runs[i].execution.Gathering? {
        EndedRun(s.runs[i]);
      }
    case StepRun(i, action, outcome) =>
      if i in s.runs && s.runs[i].execution.Gathering? {
        SteppedRun(s.runs[i], action, outcome);
      }
    case _ =>
  }

  lemma EndedRun(run: Run)
    requires run.execution.Gathering? && run.life == Running
    ensures var r := Ended(run);
      && Moves(run.life, r.life) && r.cancelRequested == run.cancelRequested && (r.execution.Over? || r == run)
  {
    hide Finished, HasRaised, FinalResult, ResultList;
  }

  lemma SteppedRun(run: Run, action: Action, outcome: Option<TaskResult>)
    requires run.execution.Gathering?
    ensures
      var r := Stepped(run, action, outcome);
      && r.life == run.life && r.result == run.result && r.cancelRequested == run.cancelRequested
      && r.execution.Gathering?
      && (run.cancelRequested ==> StartedTasks(r) == StartedTasks(run))
  {
    hide Runs, Ready;
  }

  /** A step gives results, and never changes one. */
  lemma SteppedKeepsResults(run: Run, action: Action, outcome: Option<TaskResult>)
    requires RunOk(run) && run.execution.Gathering?
    ensures var was, now := run.execution.sched.results, Stepped(run, action, outcome).execution.sched.results;
      forall k | k in was :: k in now && now[k] == was[k]
  {
    hide Inv, Next, Enabled;
    var Gathering(tasks, sched) := run.execution;
    var depth :| Inv(tasks, depth, sched);
    if WellKeyed(tasks, sched) && Enabled(tasks, sched, action) {
      NextKeepsResults(tasks, depth, _ => outcome, run.cancelRequested, sched, action);
    }
  }

  /**
   * A run whose loop ends without an exception is CANCELED iff its flag is set at the end, else FAILED iff
   * one of its tasks failed or timed out, else SUCCESS; and every task has its one result.
   */
  lemma EndedResult(run: Run)
    requires RunOk(run) && run.execution.Gathering? && Finished(run.execution.sched)
    ensures
      var r := Ended(run);
      var results := run.execution.sched.results;
      && results.Keys == Keys(run.execution.tasks)
      && r.life == Terminated
      && (r.result == Some(Canceled) <==> run.cancelRequested)
      && (r.result == Some(Failed) <==>
            !run.cancelRequested && exists k :: k in results && EndedIn(results[k], {Failed, TimedOut}))
      && (r.result == Some(Success) <==>
            !run.cancelRequested && forall k | k in results :: !EndedIn(results[k], {Failed, TimedOut}))
      && |r.taskResults| == |run.execution.tasks|
      && forall i | 0 <= i < |run.execution.tasks| :: r.taskResults[i] == results[run.execution.tasks[i].key]
  {
    hide Inv;
    var Gathering(tasks, sched) := run.execution;
    var depth :| Inv(tasks, depth, sched);
    FinishedHasAll(tasks, depth, sched);
    ResultListIs(tasks, sched.results);
    var list := ResultList(tasks, sched.results);
    assert forall r :: HasFailed(r) <==> EndedIn(r, {Failed, TimedOut});
    if k :| k in sched.results && HasFailed(sched.results[k]) {
      var t := TaskOf(tasks, k);
      var i :| 0 <= i < |tasks| && tasks[i] == t;
      assert list[i] == sched.results[k];
    }
    if r :| r in list && HasFailed(r) {
      var i :| 0 <= i < |list| && list[i] == r;
      assert tasks[i].key in sched.results;
    }
  }

  lemma {:induction false} ResultListIs(tasks: seq<Task>, results: map<string, TaskResult>)
    requires forall t | t in tasks :: t.key in results
    ensures |ResultList(tasks, results)| == |tasks|
    ensures forall i | 0 <= i < |tasks| :: tasks[i].key in results && ResultList(tasks, results)[i] == results[tasks[i].key]
  {
    if tasks != [] {
      assert tasks == [tasks[0]] + tasks[1..];
      ResultListIs(tasks[1..], results);
    }
  }

  // ---------------------------------------------------------------- whole runs of the API

  ghost function AfterEvents(s: State, events: seq<Event>): State
    decreases |events|
  {
    if events == [] then s else AfterEvents(Handle(s, events[0]).0, events[1..])
  }

  /** From the empty service every sequence of events stays consistent. */
  lemma {:induction false} EventsOk(s: State, events: seq<Event>)
    requires ServiceOk(s)
    ensures ServiceOk(AfterEvents(s, events))
    decreases |events|
  {
    hide ServiceOk, Handle;
    if events != [] {
      HandleOk(s, events[0]);
      EventsOk(Handle(s, events[0]).0, events[1..]);
    }
  }

  /** How far a run has come. */
  function Stage(life: LifeCycle): nat { match life case Pending => 0 case Running => 1 case _ => 2 }

  /**
   * Over any sequence of events: a run never moves back, a result once given stays, the cancellation flag
   * stays set, and an id is not given to a second run.
   */
  lemma {:induction false} RunsOnlyMoveOn(s: State, events: seq<Event>, id: nat)
    requires ServiceOk(s)
    ensures
      var s' := AfterEvents(s, events);
      && (id in s.runs && id in s'.runs ==>
            && Stage(s.runs[id].life) <= Stage(s'.runs[id].life)
            && (s.runs[id].result.Some? ==> s'.runs[id].result == s.runs[id].result)
            && (s.runs[id].cancelRequested ==> s'.runs[id].cancelRequested))
      && (id !in s.runs && id in s'.runs ==> s.nextRunId <= id)
      && (id in s'.runs ==> s'.runs[id].life in {Pending, Running, Terminated}
                            && (s'.runs[id].result.Some? <==> s'.runs[id].life == Terminated))
      && s.nextRunId <= s'.nextRunId
    decreases |events|
  {
    hide Handle, OnSchedule, Schedulable;
    EventsOk(s, events);
    if events != [] {
      var s1 := Handle(s, events[0]).0;
      HandleOk(s, events[0]);
      HandleMovesRuns(s, events[0], id);
      RunsOnlyMoveOn(s1, events[1..], id);
    }
  }

  /** After a cancellation request a run starts no further task, whatever happens next. */
  lemma {:induction false} NoStartAfterCancel(s: State, events: seq<Event>, id: nat)
    requires ServiceOk(s) && id in s.runs && s.runs[id].cancelRequested
    ensures
      var s' := AfterEvents(s, events);
      id in s'.runs ==> s'.runs[id].execution.Over? || StartedTasks(s'.runs[id]) == StartedTasks(s.runs[id])
    decreases |events|
  {
    hide Handle, OnSchedule, Schedulable, StartedTasks;
    if events != [] {
      var s1 := Handle(s, events[0]).0;
      HandleOk(s, events[0]);
      HandleMovesRuns(s, events[0], id);
      if id in s1.runs {
        NoStartAfterCancel(s1, events[1..], id);
        if s1.runs[id].execution.Over? {
          OverStays(s1, events[1..], id);
        }
      } else {
        RunsOnlyMoveOn(s1, events[1..], id);
      }
    }
  }

  lemma {:induction false} OverStays(s: State, events: seq<Event>, id: nat)
    requires ServiceOk(s) && id in s.runs && s.runs[id].execution.Over?
    ensures var s' := AfterEvents(s, events);
            id in s'.runs ==> s'.runs[id].execution.Over?
    decreases |events|
  {
    hide Handle, OnSchedule, Schedulable, StartedTasks;
    if events != [] {
      var s1 := Handle(s, events[0]).0;
      HandleOk(s, events[0]);
      HandleMovesRuns(s, events[0], id);
      if id in s1.runs {
        OverStays(s1, events[1..], id);
      } else {
        RunsOnlyMoveOn(s1, events[1..], id);
      }
    }
  }

  /** Tokens are remembered: a retried run-now starts nothing and names the first run for as long as it exists. */
  lemma {:induction false} RunNowIsIdempotent(s: State, events: seq<Event>, jobId: nat, retryJobId: nat, token: string)
    requires Handle(s, RunNow(jobId, Some(token))).1.Created?
    ensures
      var (first, response) := Handle(s, RunNow(jobId, Some(token)));
      var later := AfterEvents(first, events);
      var (final, retry) := Handle(later, RunNow(retryJobId, Some(token)));
      && final == later
      && retry == if response.id in later.runs then response else TokenRunDeleted
  {
    var (first, response) := Handle(s, RunNow(jobId, Some(token)));
    TokenStays(first, events, token);
  }

  lemma {:induction false} TokenStays(s: State, events: seq<Event>, token: string)
    requires token in s.runNowTokens
    ensures var s' := AfterEvents(s, events);
            token in s'.runNowTokens && s'.runNowTokens[token] == s.runNowTokens[token]
    decreases |events|
  {
    if events != [] {
      HandleKeepsToken(s, events[0], token);
      hide Handle;
      TokenStays(Handle(s, events[0]).0, events[1..], token);
    }
  }

  lemma HandleKeepsToken(s: State, e: Event, token: string)
    requires token in s.runNowTokens
    ensures var s' := Handle(s, e).0;
            token in s'.runNowTokens && s'.runNowTokens[token] == s.runNowTokens[token]
  {
    hide Schedulable, Started, Stepped, Ended;
  }

  /** The same for submitted runs, whose empty token counts as none; here the first run is named even when deleted. */
  lemma {:induction false} SubmitIsIdempotent(s: State, events: seq<Event>, tasks: seq<Task>, retried: seq<Task>, token: string)
    requires Handle(s, SubmitRun(tasks, Some(token))).1.Created? && retried != []
    ensures
      var (first, response) := Handle(s, SubmitRun(tasks, Some(token)));
      var later := AfterEvents(first, events);
      var (final, retry) := Handle(later, SubmitRun(retried, Some(token)));
      if token == "" then final == later || retry == Created(later.nextRunId) else final == later && retry == response
  {
    var (first, response) := Handle(s, SubmitRun(tasks, Some(token)));
    if token != "" {
      SubmitTokenStays(first, events, token);
    }
    hide AfterEvents;
  }

  lemma {:induction false} SubmitTokenStays(s: State, events: seq<Event>, token: string)
    requires token in s.submitTokens
    ensures var s' := AfterEvents(s, events);
            token in s'.submitTokens && s'.submitTokens[token] == s.submitTokens[token]
    decreases |events|
  {
    if events != [] {
      HandleKeepsSubmitToken(s, events[0], token);
      hide Handle;
      SubmitTokenStays(Handle(s, events[0]).0, events[1..], token);
    }
  }

  lemma HandleKeepsSubmitToken(s: State, e: Event, token: string)
    requires token in s.submitTokens
    ensures var s' := Handle(s, e).0;
            token in s'.submitTokens && s'.submitTokens[token] == s.submitTokens[token]
  {
    hide Schedulable, Started, Stepped, Ended;
  }

  // ---------------------------------------------------------------- runs of the API against the specification

  /** A task of the run completes as the oracle says, and nobody cancels the run. */
  predicate Follows(e: Event, id: nat, oracle: Oracle) {
    && e != CancelRun(id)
    && (e.StepRun? && e.runId == id && e.action.Complete? ==> e.outcome == oracle(e.action.key))
  }

  /** How the run must end: as failed when a task that is executed raises, else with the specified results. */
  ghost predicate EndsAsSpecified(run: Run, tasks: seq<Task>, depth: map<string, nat>, oracle: Oracle)
    requires IsDepth(tasks, depth)
  {
    if exists k :: k in depth && Raises(tasks, depth, oracle, k) then
      run.result == Some(Failed) && run.taskResults == []
    else
      && |run.taskResults| == |tasks|
      && (forall i | 0 <= i < |tasks| ::
            tasks[i].key in depth && run.taskResults[i] == SpecResult(tasks, depth, oracle, tasks[i].key))
      && run.result == Some(if exists k :: k in depth && EndedIn(SpecResult(tasks, depth, oracle, k), {Failed, TimedOut})
                            then Failed else Success)
  }

  ghost predicate Underway(run: Run, tasks: seq<Task>, depth: map<string, nat>, oracle: Oracle)
    requires IsDepth(tasks, depth)
  {
    && !run.cancelRequested
    && match run.execution
       case NotStarted => false
       case Gathering(ts, sched) =>
         ts == tasks && run.taskResults == [] && Inv(tasks, depth, sched) && OnSpec(tasks, depth, oracle, sched)
       case Over => EndsAsSpecified(run, tasks, depth, oracle)
  }

  lemma NextLocal(tasks: seq<Task>, oracle: Oracle, other: Oracle, st: Sched, a: Action)
    requires WellKeyed(tasks, st) && Enabled(tasks, st, a) && (a.Complete? ==> oracle(a.key) == other(a.key))
    ensures Next(tasks, oracle, false, st, a) == Next(tasks, other, false, st, a)
  {
    hide Ready, Runs;
  }

  lemma SteppedUnderway(run: Run, action: Action, outcome: Option<TaskResult>,
                        tasks: seq<Task>, depth: map<string, nat>, oracle: Oracle)
    requires IsDepth(tasks, depth) && Underway(run, tasks, depth, oracle) && run.execution.Gathering?
    requires action.Complete? ==> outcome == oracle(action.key)
    ensures Underway(Stepped(run, action, outcome), tasks, depth, oracle)
  {
    hide Inv, OnSpec, Next, Enabled, IsDepth;
    var st := run.execution.sched;
    InvWellKeyed(tasks, depth, st);
    if Enabled(tasks, st, action) {
      NextLocal(tasks, _ => outcome, oracle, st, action);
      NextInv(tasks, depth, oracle, false, st, action);
      NextOnSpec(tasks, depth, oracle, st, action);
    }
  }

  lemma EndedUnderway(run: Run, tasks: seq<Task>, depth: map<string, nat>, oracle: Oracle)
    requires IsDepth(tasks, depth) && Underway(run, tasks, depth, oracle) && RunOk(run) && run.execution.Gathering?
    ensures Underway(Ended(run), tasks, depth, oracle)
  {
    hide Inv, OnSpec, IsDepth, OnSchedule, EndsAsSpecified, ResultList, FinalResult, Finished, HasRaised, RunOk;
    var st := run.execution.sched;
    if Finished(st) {
      FinishedAsSpecified(run, tasks, depth, oracle);
    } else if HasRaised(st) {
      RaisedAsFailed(run, tasks, depth, oracle);
    }
  }

  lemma FinishedAsSpecified(run: Run, tasks: seq<Task>, depth: map<string, nat>, oracle: Oracle)
    requires IsDepth(tasks, depth) && Underway(run, tasks, depth, oracle) && RunOk(run) && run.execution.Gathering?
    requires Finished(run.execution.sched)
    ensures EndsAsSpecified(Ended(run), tasks, depth, oracle)
  {
    hide Inv, OnSpec, IsDepth, Raises, SpecResult, OnSchedule, ResultList, Ended, RunOk, EndedIn, Finished;
    var st := run.execution.sched;
    FinishedOnSpec(tasks, depth, oracle, st);
    EndedResult(run);
    KeysIn(tasks);
    DepthKeys(tasks, depth);
  }

  lemma RaisedAsFailed(run: Run, tasks: seq<Task>, depth: map<string, nat>, oracle: Oracle)
    requires IsDepth(tasks, depth) && Underway(run, tasks, depth, oracle) && run.execution.Gathering?
    requires HasRaised(run.execution.sched) && !Finished(run.execution.sched)
    ensures EndsAsSpecified(Ended(run), tasks, depth, oracle)
  {
    hide Inv, OnSpec, IsDepth, Raises, SpecResult, ResultList, HasRaised, FinalResult, EndedIn;
    RaisedOnSpec(tasks, depth, oracle, run.execution.sched);
  }

  lemma KeysIn(tasks: seq<Task>)
    ensures forall i | 0 <= i < |tasks| :: tasks[i].key in Keys(tasks)
  {
  }

  lemma DepthKeys(tasks: seq<Task>, depth: map<string, nat>)
    requires IsDepth(tasks, depth)
    ensures depth.Keys == Keys(tasks)
  {
  }

  lemma HandleUnderway(s: State, e: Event, id: nat, tasks: seq<Task>, depth: map<string, nat>, oracle: Oracle)
    requires ServiceOk(s) && IsDepth(tasks, depth) && Follows(e, id, oracle)
    requires id in s.runs && Underway(s.runs[id], tasks, depth, oracle)
    ensures var s' := Handle(s, e).0; id in s'.runs ==> Underway(s'.runs[id], tasks, depth, oracle)
  {
    hide Schedulable, OnSchedule, Started, Stepped, Ended, EndsAsSpecified, Inv, OnSpec, IsDepth;
    assert s.runs[id].execution.Over? || s.runs[id].execution.Gathering?;
    assert RunOk(s.runs[id]) && id < s.nextRunId;
    match e
    case StepRun(i, action, outcome) =>
      if i == id && s.runs[id].execution.Gathering? {
        SteppedUnderway(s.runs[id], action, outcome, tasks, depth, oracle);
      }
    case EndRun(i) =>
      if i == id && s.runs[id].execution.Gathering? {
        EndedUnderway(s.runs[id], tasks, depth, oracle);
      }
    case _ => hide Underway, RunOk;
  }

  lemma {:induction false} StaysUnderway(s: State, events: seq<Event>, id: nat,
                                         tasks: seq<Task>, depth: map<string, nat>, oracle: Oracle)
    requires ServiceOk(s) && IsDepth(tasks, depth) && forall e | e in events :: Follows(e, id, oracle)
    requires id in s.runs && Underway(s.runs[id], tasks, depth, oracle)
    ensures var s' := AfterEvents(s, events); id in s'.runs ==> Underway(s'.runs[id], tasks, depth, oracle)
    decreases |events|
  {
    hide Handle, OnSchedule, Schedulable, Underway, IsDepth, RunOk, Follows;
    if events != [] {
      var s1 := Handle(s, events[0]).0;
      assert events[0] in events;
      HandleOk(s, events[0]);
      HandleMovesRuns(s, events[0], id);
      HandleUnderway(s, events[0], id, tasks, depth, oracle);
      if id in s1.runs {
        StaysUnderway(s1, events[1..], id, tasks, depth, oracle);
      } else {
        RunsOnlyMoveOn(s1, events[1..], id);
      }
    }
  }

  lemma SourceRunRefinesSpec(s: State, id: nat, events: seq<Event>, depth: map<string, nat>, oracle: Oracle)
    requires ServiceOk(s) && id in s.runs && s.runs[id].execution.NotStarted? && !s.runs[id].cancelRequested
    requires IsDepth(SourceTasks(s, s.runs[id]), depth) && forall e | e in events :: Follows(e, id, oracle)
    ensures var s' := AfterEvents(Handle(s, StartRun(id)).0, events);
      id in s'.runs && s'.runs[id].life == Terminated ==>
        EndsAsSpecified(s'.runs[id], SourceTasks(s, s.runs[id]), depth, oracle)
  {
    var tasks := SourceTasks(s, s.runs[id]);
    var s1 := Handle(s, StartRun(id)).0;
    HandleOk(s, StartRun(id));
    GraphErrorUnreachable(s, id);
    InitialOnSpec(tasks, depth, oracle);
    assert Underway(s1.runs[id], tasks, depth, oracle) by {
      hide Inv, OnSpec, IsDepth, Schedulable;
    }
    hide Handle, OnSchedule, Schedulable, IsDepth, Inv, OnSpec, EndsAsSpecified, SourceTasks;
    StaysUnderway(s1, events, id, tasks, depth, oracle);
    EventsOk(s1, events);
  }

  // ---------------------------------------------------------------- which tasks a run gathers

  /** The answer to the last of the events, from the empty service on. */
  ghost function LastResponse(events: seq<Event>): Response
    requires events != []
  {
    Handle(AfterEvents(EMPTY, events[..|events| - 1]), events[|events| - 1]).1
  }

  function Given(tasks: Option<seq<Task>>): seq<Task> { if tasks.Some? then tasks.value else [] }

  /** What the answer to a request makes of a job's task list: only accepted requests count. */
  function TasksAfter(before: Option<seq<Task>>, e: Event, r: Response, id: nat): Option<seq<Task>> {
    match e
    case CreateJob(tasks) => if r == Created(id) then Some(Given(tasks)) else before
    case UpdateJob(j, sent, removeTasks) =>
      if j != id || r != Done then before
      else if removeTasks then Some([])
      else if sent.Some? then Some(sent.value)
      else before
    case ResetJob(j, tasks) => if j == id && r == Done then Some(Given(tasks)) else before
    case DeleteJob(j) => if j == id then None else before
    case _ => before
  }

  /** The task list that the accepted requests last gave a job, if the job exists after them. */
  ghost function JobTasks(events: seq<Event>, id: nat): Option<seq<Task>>
    decreases |events|
  {
    if events == [] then None
    else TasksAfter(JobTasks(events[..|events| - 1], id), events[|events| - 1], LastResponse(events), id)
  }

  /** The request that brought a run about: the first to be answered with its id. */
  ghost function Origin(events: seq<Event>, id: nat): Option<Event>
    decreases |events|
  {
    if events == [] then None
    else
      var last, before := events[|events| - 1], Origin(events[..|events| - 1], id);
      if before.None? && (last.RunNow? || last.SubmitRun?) && LastResponse(events) == Created(id) then Some(last) else before
  }

  /** The tasks a run gathers when it starts now: those submitted with it, or its job's present ones. */
  ghost function Gathered(events: seq<Event>, id: nat): seq<Task> {
    match Origin(events, id)
    case Some(SubmitRun(tasks, _)) => tasks
    case Some(RunNow(jobId, _)) => Given(JobTasks(events, jobId))
    case _ => []
  }

  ghost predicate JobsAsRequested(s: State, events: seq<Event>) {
    forall id ::
      JobTasks(events, id) == if id in s.jobs then Some(Given(s.jobs[id].tasks)) else None
  }

  ghost predicate RunsAsRequested(s: State, events: seq<Event>) {
    && (forall id | id in s.runs ::
          match Origin(events, id)
          case Some(SubmitRun(tasks, _)) => s.runs[id].ownTasks == Some(tasks)
          case Some(RunNow(jobId, _)) => s.runs[id].ownTasks == None && s.runs[id].jobId == Some(jobId)
          case _ => false)
    && (forall id | s.nextRunId <= id :: Origin(events, id) == None)
    && (forall t | t in s.submitTokens :: Origin(events, s.submitTokens[t]).Some?)
    && (forall t | t in s.runNowTokens :: Origin(events, s.runNowTokens[t]).Some?)
  }

  lemma {:induction false} AfterLast(s: State, events: seq<Event>)
    requires events != []
    ensures AfterEvents(s, events) == Handle(AfterEvents(s, events[..|events| - 1]), events[|events| - 1]).0
    decreases |events|
  {
    hide Handle;
    if |events| > 1 {
      AfterLast(Handle(s, events[0]).0, events[1..]);
      assert events[1..][..|events| - 2] == events[..|events| - 1][1..];
    }
  }

  lemma JobsNext(s: State, events: seq<Event>)
    requires events != [] && s == AfterEvents(EMPTY, events[..|events| - 1])
    requires ServiceOk(s) && JobsAsRequested(s, events[..|events| - 1])
    ensures JobsAsRequested(Handle(s, events[|events| - 1]).0, events)
  {
    hide Handle, AfterEvents, TasksAfter;
    var e, before := events[|events| - 1], events[..|events| - 1];
    var s' := Handle(s, e).0;
    forall id ensures JobTasks(events, id) == if id in s'.jobs then Some(Given(s'.jobs[id].tasks)) else None {
      JobAfter(s, e, id);
      assert JobTasks(before, id) == if id in s.jobs then Some(Given(s.jobs[id].tasks)) else None;
    }
  }

  lemma JobAfter(s: State, e: Event, id: nat)
    requires ServiceOk(s)
    ensures
      var (s', r) := Handle(s, e);
      var before := if id in s.jobs then Some(Given(s.jobs[id].tasks)) else None;
      TasksAfter(before, e, r, id) == if id in s'.jobs then Some(Given(s'.jobs[id].tasks)) else None
  {
    hide Schedulable, Started, Stepped, Ended, SourceTasks, RunOk;
  }

  lemma RunsNext(s: State, events: seq<Event>)
    requires events != [] && s == AfterEvents(EMPTY, events[..|events| - 1])
    requires ServiceOk(s) && RunsAsRequested(s, events[..|events| - 1])
    ensures RunsAsRequested(Handle(s, events[|events| - 1]).0, events)
  {
    hide Schedulable, AfterEvents, OnSchedule, Started, Stepped, Ended, SourceTasks, RunOk;
    var before, e := events[..|events| - 1], events[|events| - 1];
    var s' := Handle(s, e).0;
    RequestsKept(s, e);
    forall id ensures Origin(events, id) ==
      if Origin(before, id).None? && (e.RunNow? || e.SubmitRun?) && Handle(s, e).1 == Created(id) then Some(e)
      else Origin(before, id)
    {
    }
    hide Handle;
  }

  /** An event keeps what runs were created with, but for the run that it creates. */
  lemma RequestsKept(s: State, e: Event)
    requires s.nextRunId !in s.runs
    ensures
      var (s', response) := Handle(s, e);
      var created := s.nextRunId;
      && (forall id | id in s'.runs ::
            if id in s.runs then s'.runs[id].ownTasks == s.runs[id].ownTasks && s'.runs[id].jobId == s.runs[id].jobId
            else id == created)
      && (created in s'.runs && created !in s.runs ==>
            && response == Created(created) && s'.nextRunId == created + 1 && (e.RunNow? || e.SubmitRun?)
            && s'.runs[created].ownTasks == (if e.SubmitRun? then Some(e.ownTasks) else None)
            && (e.RunNow? ==> s'.runs[created].jobId == Some(e.jobId)))
      && (created !in s'.runs ==> s'.nextRunId == created)
      && (forall t | t in s'.submitTokens ::
            (t in s.submitTokens && s'.submitTokens[t] == s.submitTokens[t])
            || (s'.submitTokens[t] == created && created in s'.runs))
      && (forall t | t in s'.runNowTokens ::
            (t in s.runNowTokens && s'.runNowTokens[t] == s.runNowTokens[t])
            || (s'.runNowTokens[t] == created && created in s'.runs))
      && ((e.RunNow? || e.SubmitRun?) && response.Created? ==>
            || (response.id == created && created in s'.runs)
            || (exists t :: t in s.submitTokens && s.submitTokens[t] == response.id)
            || (exists t :: t in s.runNowTokens && s.runNowTokens[t] == response.id))
  {
    hide Schedulable, Finished, HasRaised, ResultList, FinalResult;
  }

  /** After any events from the empty service, jobs and runs hold what the accepted requests gave them. */
  lemma {:induction false} AsRequested(events: seq<Event>)
    ensures
      var s := AfterEvents(EMPTY, events);
      ServiceOk(s) && JobsAsRequested(s, events) && RunsAsRequested(s, events)
    decreases |events|
  {
    hide Handle, JobsAsRequested, RunsAsRequested, AfterEvents;
    if events == [] {
      NothingRequested();
    } else {
      AsRequested(events[..|events| - 1]);
      AfterLast(EMPTY, events);
      EventsOk(EMPTY, events);
      JobsNext(AfterEvents(EMPTY, events[..|events| - 1]), events);
      RunsNext(AfterEvents(EMPTY, events[..|events| - 1]), events);
    }
  }

  lemma NothingRequested()
    ensures AfterEvents(EMPTY, []) == EMPTY && ServiceOk(EMPTY)
    ensures JobsAsRequested(EMPTY, []) && RunsAsRequested(EMPTY, [])
  {
  }

  /** What the scheduler reads at the start of a run is what the accepted requests gave the run or its job. */
  lemma SourceIsGathered(events: seq<Event>, id: nat)
    ensures
      var s := AfterEvents(EMPTY, events);
      id in s.runs ==> SourceTasks(s, s.runs[id]) == Gathered(events, id)
  {
    AsRequested(events);
    hide AfterEvents, Origin, JobTasks, ServiceOk;
  }

  /**
   * Whatever else the service does before and meanwhile, and in any interleaving, a run that is not cancelled
   * gathers the tasks last accepted for its job, or those submitted with it, and ends with the recursively
   * specified result for each of them; or, when a task that is executed raises, as FAILED.
   */
  lemma ApiRunRefinesSpec(before: seq<Event>, id: nat, events: seq<Event>, depth: map<string, nat>, oracle: Oracle)
    requires
      var s := AfterEvents(EMPTY, before);
      id in s.runs && s.runs[id].execution.NotStarted? && !s.runs[id].cancelRequested
    requires IsDepth(Gathered(before, id), depth) && forall e | e in events :: Follows(e, id, oracle)
    ensures
      var s' := AfterEvents(Handle(AfterEvents(EMPTY, before), StartRun(id)).0, events);
      id in s'.runs && s'.runs[id].life == Terminated ==>
        EndsAsSpecified(s'.runs[id], Gathered(before, id), depth, oracle)
  {
    hide *;
    AsRequested(before);
    SourceIsGathered(before, id);
    SourceRunRefinesSpec(AfterEvents(EMPTY, before), id, events, depth, oracle);
  }

  // ---------------------------------------------------------------- the handlers

  class Jobs {
    var jobs: map<nat, Settings>
    var runs: map<nat, Run>
    var submitTokens: map<string, nat>
    var runNowTokens: map<string, nat>
    var nextJobId: nat
    var nextRunId: nat

    ghost function View(): State
      reads this
    {
      State(jobs, runs, submitTokens, runNowTokens, nextJobId, nextRunId)
    }

    constructor ()
      ensures View() == EMPTY
    {
      jobs, runs, submitTokens, runNowTokens, nextJobId, nextRunId := map[], map[], map[], map[], 1, 1;
    }

    method CreateJobHandler(tasks: Option<seq<Task>>) returns (r: Response)
      modifies this
      ensures (View(), r) == Handle(old(View()), CreateJob(tasks))
    {
      var error := TaskGraphError(TasksOf(Settings(tasks)));
      if error.Some? {
        return InvalidTaskGraph;
      }
      jobs := jobs[nextJobId := Settings(tasks)];
      r := Created(nextJobId);
      nextJobId := nextJobId + 1;
    }

    method UpdateJobHandler(jobId: nat, sent: Option<seq<Task>>, removeTasks: bool) returns (r: Response)
      modifies this
      ensures (View(), r) == Handle(old(View()), UpdateJob(jobId, sent, removeTasks))
    {
      if jobId !in jobs {
        return NotFound;
      }
      var settings := jobs[jobId];
      if sent.Some? {
        settings := Settings(sent);
      }
      if removeTasks {
        settings := Settings(None);
      }
      var error := TaskGraphError(TasksOf(settings));
      if error.Some? {
        return InvalidTaskGraph;
      }
      jobs := jobs[jobId := settings];
      r := Done;
    }

    method ResetJobHandler(jobId: nat, tasks: Option<seq<Task>>) returns (r: Response)
      modifies this
      ensures (View(), r) == Handle(old(View()), ResetJob(jobId, tasks))
    {
      if jobId !in jobs {
        return NotFound;
      }
      var error := TaskGraphError(TasksOf(Settings(tasks)));
      if error.Some? {
        return InvalidTaskGraph;
      }
      jobs := jobs[jobId := Settings(tasks)];
      r := Done;
    }

    method DeleteJobHandler(jobId: nat) returns (r: Response)
      modifies this
      ensures (View(), r) == Handle(old(View()), DeleteJob(jobId))
      ensures ServiceOk(old(View())) ==> ServiceOk(View())
      ensures View() == old(View()).(jobs := jobs) && (r == Done <==> jobId in old(jobs)) && jobs == old(jobs) - {jobId}
    {
      if ServiceOk(View()) {
        HandleOk(View(), DeleteJob(jobId));
      }
      if jobId !in jobs {
        return NotFound;
      }
      jobs := jobs - {jobId};
      r := Done;
    }

    method RunNowHandler(jobId: nat, token: Option<string>) returns (r: Response)
      modifies this
      ensures (View(), r) == Handle(old(View()), RunNow(jobId, token))
    {
      if token.Some? && token.value in runNowTokens {
        var existing := runNowTokens[token.value];
        return if existing in runs then Created(existing) else TokenRunDeleted;
      }
      if jobId !in jobs {
        return NotFound;
      }
      var error := TaskGraphError(TasksOf(jobs[jobId]));
      if error.Some? {
        return InvalidTaskGraph;
      }
      var runId := nextRunId;
      nextRunId := nextRunId + 1;
      runs := runs[runId := NewRun(Some(jobId), None)];
      if token.Some? {
        runNowTokens := runNowTokens[token.value := runId];
      }
      r := Created(runId);
    }

    method SubmitRunHandler(tasks: seq<Task>, token: Option<string>) returns (r: Response)
      modifies this
      ensures (View(), r) == Handle(old(View()), SubmitRun(tasks, token))
    {
      if tasks == [] {
        return EmptyTasks;
      }
      if token.Some? && token.value != "" && token.value in submitTokens {
        return Created(submitTokens[token.value]);
      }
      var error := TaskGraphError(tasks);
      if error.Some? {
        return InvalidTaskGraph;
      }
      var runId := nextRunId;
      nextRunId := nextRunId + 1;
      runs := runs[runId := NewRun(None, Some(tasks))];
      if token.Some? && token.value != "" {
        submitTokens := submitTokens[token.value := runId];
      }
      r := Created(runId);
    }

    method CancelRunHandler(runId: nat) returns (r: Response)
      modifies this
      ensures (View(), r) == Handle(old(View()), CancelRun(runId))
      ensures ServiceOk(old(View())) ==> ServiceOk(View())
      ensures View() == old(View()).(runs := runs) && runs.Keys == old(runs).Keys && (r == Done <==> runId in runs)
      ensures forall id | id in runs :: runs[id] == old(runs)[id].(cancelRequested := old(runs)[id].cancelRequested || id == runId)
    {
      if ServiceOk(View()) {
        HandleOk(View(), CancelRun(runId));
      }
      if runId !in runs {
        return NotFound;
      }
      runs := runs[runId := runs[runId].(cancelRequested := true)];
      r := Done;
    }

    method DeleteRunHandler(runId: nat) returns (r: Response)
      modifies this
      ensures (View(), r) == Handle(old(View()), DeleteRun(runId))
      ensures ServiceOk(old(View())) ==> ServiceOk(View())
      ensures View() == old(View()).(runs := runs)
      ensures r == Done <==> runId in old(runs) && !IsActive(old(runs)[runId])
      ensures runs == if r == Done then old(runs) - {runId} else old(runs)
      ensures ServiceOk(old(View())) ==> (r == Done <==> runId in old(runs) && old(runs)[runId].life == Terminated)
    {
      if ServiceOk(View()) {
        HandleOk(View(), DeleteRun(runId));
      }
      if runId !in runs {
        return NotFound;
      }
      if IsActive(runs[runId]) {
        return StillActive;
      }
      runs := runs - {runId};
      r := Done;
    }

    /** The first segment of `_execute_run`: the run goes to RUNNING, its task list is read and checked. */
    method ExecuteRun(runId: nat) returns (r: Response)
      modifies this
      ensures (View(), r) == Handle(old(View()), StartRun(runId))
    {
      if runId !in runs || !runs[runId].execution.NotStarted? {
        return NotFound;
      }
      var run := runs[runId].(life := Running);
      var tasks := [];
      if run.ownTasks.Some? {
        tasks := run.ownTasks.value;
      } else if run.jobId.Some? && run.jobId.value in jobs {
        tasks := TasksOf(jobs[run.jobId.value]);
      }
      var error := TaskGraphError(tasks);
      if error.Some? {
        run := run.(life := Terminated, result := Some(Failed), execution := Over,
                    taskResults := seq(|tasks|, _ => SKIPPED));
      } else {
        run := run.(execution := Gathering(tasks, Initial(tasks)));
      }
      runs := runs[runId := run];
      r := Done;
    }

    /**
     * A step of the gathered coroutines. Only the run's results and starts move: a result given stays, and a
     * flagged run starts no task.
     */
    method StepRunTasks(runId: nat, action: Action, outcome: Option<TaskResult>) returns (r: Response)
      requires ServiceOk(View())
      modifies this
      ensures (View(), r) == Handle(old(View()), StepRun(runId, action, outcome)) && ServiceOk(View())
      ensures r == Done <==> runId in old(runs) && old(runs)[runId].execution.Gathering?
      ensures View() == old(View()).(runs := runs) && runs.Keys == old(runs).Keys
      ensures forall id | id in runs && id != runId :: runs[id] == old(runs)[id]
      ensures r == Done ==>
        var was, now := old(runs)[runId], runs[runId];
        && now == was.(execution := now.execution) && now.execution.Gathering?
        && (was.cancelRequested ==> StartedTasks(now) == StartedTasks(was))
        && forall k | k in was.execution.sched.results ::
             k in now.execution.sched.results && now.execution.sched.results[k] == was.execution.sched.results[k]
    {
      HandleOk(View(), StepRun(runId, action, outcome));
      if runId !in runs || !runs[runId].execution.Gathering? {
        return NotFound;
      }
      SteppedRun(runs[runId], action, outcome);
      SteppedKeepsResults(runs[runId], action, outcome);
      runs := runs[runId := Stepped(runs[runId], action, outcome)];
      r := Done;
      hide ServiceOk;
    }

    /** The last segment: the results are listed and the final state is set. */
    method FinishRun(runId: nat) returns (r: Response)
      modifies this
      ensures (View(), r) == Handle(old(View()), EndRun(runId))
    {
      if runId !in runs || !runs[runId].execution.Gathering? {
        return NotFound;
      }
      var run := runs[runId];
      var sched := run.execution.sched;
      if Finished(sched) {
        var results := ResultList(run.execution.tasks, sched.results);
        var anyFailed := exists t :: t in results && HasFailed(t);
        var result := Success;
        if run.cancelRequested {
          result := Canceled;
        } else if anyFailed || sched.unschedulable {
          result := Failed;
        }
        run := run.(life := Terminated, taskResults := results, execution := Over, result := Some(result));
      } else if HasRaised(sched) {
        run := run.(life := Terminated, result := Some(Failed), execution := Over);
      }
      runs := runs[runId := run];
      r := Done;
    }
  }
}
