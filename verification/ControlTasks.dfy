/**
 Tasks and runs under concurrent requests: Update and Precheck of controlplane/tasks/service.go, and
 Start, Archive and the run transitions behind engine/manager.go.

 Update, Precheck and Start each read a task in one store call and write in another; anything may
 happen in between. Each Action is one store call.
 */
module ControlTasks {
  import opened Bytes
  import opened ControlStore

  /** A request between its read and its write, with the task as it was read. */
  datatype Call = Updating(id: Id, copy: Task) | Prechecking(id: Id, copy: Task) | Launching(id: Id, copy: Task)

  datatype State = State(
    db: Db,
    calls: map<nat, Call>,
    history: map<(Id, int), Spec>)   // the spec every revision was created with

  datatype Action =
    | Create(id: Id, spec: Spec)
    | BeginUpdate(c: nat, id: Id, expected: int) | EndUpdate(c: nat, spec: Spec)
    | BeginPrecheck(c: nat, id: Id, expected: int) | EndPrecheck(c: nat, checks: seq<CheckState>, acknowledged: bool)
    | BeginStart(c: nat, id: Id, expected: int) | EndStart(c: nat, run: Id)
    | GiveUp(c: nat)
    | Archive(id: Id)
    | Running(run: Id) | Stop(run: Id) | Finalize(run: Id, state: RunState, exitCode: int) | Status(run: Id, healthy: bool)
    | Restart

  function Init(): State { State(Db(map[], map[]), map[], map[]) }

  /** The checks of the three calls on what they have read. */
  predicate Enabled(s: State, a: Action) {
    match a
    case BeginUpdate(c, id, expected) =>
      && c !in s.calls && expected > 0 && id in s.db.tasks && !s.db.tasks[id].state.Archived?
      && s.db.tasks[id].revision == expected
    case BeginPrecheck(c, id, expected) =>
      && c !in s.calls && id in s.db.tasks && !s.db.tasks[id].state.Archived?
      && s.db.tasks[id].revision == expected
    case BeginStart(c, id, expected) =>
      && c !in s.calls && expected > 0 && id in s.db.tasks && s.db.tasks[id].state.Ready?
      && s.db.tasks[id].revision == expected
    case EndUpdate(c, _) => c in s.calls && s.calls[c].Updating?
    case EndPrecheck(c, _, _) => c in s.calls && s.calls[c].Prechecking?
    case EndStart(c, _) => c in s.calls && s.calls[c].Launching?
    case GiveUp(c) => c in s.calls
    case _ => true
  }

  /** The run a Start inserts: its snapshot is the spec that was read. */
  function NewRun(id: Id, copy: Task): Run {
    Run(id, copy.revision, copy.spec, Starting, false, false, None)
  }

  function Next(s: State, a: Action, maxConcurrent: int): State
    requires Enabled(s, a)
  {
    match a
    case Create(id, spec) =>
      var (db, r) := CreateTask(s.db, id, spec);
      s.(db := db, history := if r.Done? then s.history[(id, 1) := spec] else s.history)
    case BeginUpdate(c, id, _) => s.(calls := s.calls[c := Updating(id, s.db.tasks[id])])
    case BeginPrecheck(c, id, _) => s.(calls := s.calls[c := Prechecking(id, s.db.tasks[id])])
    case BeginStart(c, id, _) => s.(calls := s.calls[c := Launching(id, s.db.tasks[id])])
    case EndUpdate(c, spec) =>
      var call := s.calls[c];
      var (db, r) := UpdateTask(s.db, call.id, spec, call.copy.revision);
      State(db, s.calls - {c},
            if r.Done? then s.history[(call.id, call.copy.revision + 1) := spec] else s.history)
    case EndPrecheck(c, checks, acknowledged) =>
      var call := s.calls[c];
      var p := Precheck(call.copy.revision, checks, acknowledged);
      var (db, _) := SavePrecheck(s.db, call.id, call.copy.revision, p, if Passed(p) then Ready else Draft);
      s.(db := db, calls := s.calls - {c})
    case EndStart(c, run) =>
      var call := s.calls[c];
      s.(db := CreateRunIfNoActive(s.db, run, NewRun(call.id, call.copy), maxConcurrent).0, calls := s.calls - {c})
    case GiveUp(c) => s.(calls := s.calls - {c})
    case Archive(id) => s.(db := ArchiveTask(s.db, id).0)
    case Running(run) => s.(db := MarkRunRunning(s.db, run).0)
    case Stop(run) => s.(db := RequestRunStop(s.db, run).0)
    case Finalize(run, state, exitCode) => s.(db := FinalizeRun(s.db, run, state, exitCode).0)
    case Status(run, healthy) => s.(db := MarkRunStatus(s.db, run, healthy).0)
    case Restart => s.(db := MarkActiveRunsUnknown(s.db))
  }

  ghost predicate Runs(s: State, actions: seq<Action>, t: State, maxConcurrent: int)
    decreases actions
  {
    if actions == [] then s == t
    else Enabled(s, actions[0]) && Runs(Next(s, actions[0], maxConcurrent), actions[1..], t, maxConcurrent)
  }

  ghost predicate Reachable(s: State, maxConcurrent: int) {
    exists actions :: Runs(Init(), actions, s, maxConcurrent)
  }

  // ---- Invariant -----------------------------------------------------------------------------

  /** This revision of this task was made with this spec. */
  predicate Recorded(s: State, id: Id, revision: int, spec: Spec) {
    (id, revision) in s.history && s.history[(id, revision)] == spec
  }

  /** A READY task carries a precheck that passed, and was made for its current revision. */
  predicate TaskOk(s: State, id: Id)
    requires id in s.db.tasks
  {
    var t := s.db.tasks[id];
    && t.revision >= 1 && Recorded(s, id, t.revision, t.spec)
    && (t.precheck.Some? ==> t.precheck.value.revision == t.revision)
    && (t.state.Ready? ==> t.precheck.Some? && Passed(t.precheck.value))
  }

  /** A request holds a revision that exists or has been replaced since. */
  predicate CallOk(s: State, c: nat)
    requires c in s.calls
  {
    var call := s.calls[c];
    && call.id in s.db.tasks && 1 <= call.copy.revision <= s.db.tasks[call.id].revision
    && Recorded(s, call.id, call.copy.revision, call.copy.spec)
  }

  predicate RunOk(s: State, r: Id)
    requires r in s.db.runs
  {
    var run := s.db.runs[r];
    && run.task in s.db.tasks && Recorded(s, run.task, run.revision, run.snapshot)
    && (IsActive(run.state) ==> !s.db.tasks[run.task].state.Archived?)
  }

  ghost predicate TasksOk(s: State) { forall id {:trigger TaskOk(s, id)} :: id in s.db.tasks ==> TaskOk(s, id) }

  ghost predicate CallsOk(s: State) { forall c {:trigger CallOk(s, c)} :: c in s.calls ==> CallOk(s, c) }

  ghost predicate RunsOk(s: State) { forall r {:trigger RunOk(s, r)} :: r in s.db.runs ==> RunOk(s, r) }

  predicate PastOk(s: State, key: (Id, int)) { key.0 in s.db.tasks && 1 <= key.1 <= s.db.tasks[key.0].revision }

  ghost predicate HistoryOk(s: State) {
    forall key {:trigger PastOk(s, key)} :: key in s.history ==> PastOk(s, key)
  }

  predicate Clash(runs: map<Id, Run>, a: Id, b: Id)
    requires a in runs && b in runs
  {
    a != b && runs[a].task == runs[b].task && IsActive(runs[a].state) && IsActive(runs[b].state)
  }

  ghost predicate Exclusive(runs: map<Id, Run>) {
    forall a, b {:trigger Clash(runs, a, b)} :: a in runs && b in runs ==> !Clash(runs, a, b)
  }

  predicate Bounded(runs: map<Id, Run>, maxConcurrent: int) {
    maxConcurrent > 0 ==> |ActiveRuns(runs)| <= maxConcurrent
  }

  ghost predicate Inv(s: State, maxConcurrent: int) {
    TasksOk(s) && CallsOk(s) && RunsOk(s) && HistoryOk(s) && Exclusive(s.db.runs) && Bounded(s.db.runs, maxConcurrent)
  }

  // ---- What one step can change --------------------------------------------------------------

  /** Tasks stay; a revision stays with its spec, or is raised by one as a draft without a precheck. */
  predicate TaskStep(t: Task, u: Task) {
    || (u.revision == t.revision && u.spec == t.spec)
    || (u.revision == t.revision + 1 && u.state.Draft? && u.precheck.None?)
  }

  ghost predicate TasksKept(s: State, t: State) {
    forall id {:trigger id in t.db.tasks} :: id in s.db.tasks ==>
      id in t.db.tasks && TaskStep(s.db.tasks[id], t.db.tasks[id])
      && (s.db.tasks[id].state.Archived? ==> t.db.tasks[id] == s.db.tasks[id])
  }

  /** Runs stay with what they were started from, and a finished run does not change its state again. */
  predicate RunStep(r: Run, u: Run) {
    && u.task == r.task && u.revision == r.revision && u.snapshot == r.snapshot
    && (IsTerminal(r.state) ==> u.state == r.state && u.exitCode == r.exitCode)
    && (IsActive(u.state) ==> IsActive(r.state))
  }

  ghost predicate RunsKept(runs: map<Id, Run>, next: map<Id, Run>) {
    forall r {:trigger r in next} :: r in runs ==> r in next && RunStep(runs[r], next[r])
  }

  /** Specs of past revisions never change. */
  ghost predicate HistoryKept(s: State, t: State) {
    forall key {:trigger key in t.history} :: key in s.history ==> key in t.history && t.history[key] == s.history[key]
  }

  lemma TasksStep(s: State, a: Action, maxConcurrent: int)
    requires Enabled(s, a)
    ensures TasksKept(s, Next(s, a, maxConcurrent))
  {
  }

  lemma OneRun(runs: map<Id, Run>, id: Id, next: Run)
    requires id in runs ==> RunStep(runs[id], next)
    ensures RunsKept(runs, runs[id := next])
  {
  }

  lemma SameRuns(runs: map<Id, Run>)
    ensures RunsKept(runs, runs)
  {
  }

  lemma OrphansKept(runs: map<Id, Run>)
    ensures RunsKept(runs, map r | r in runs :: Orphaned(runs[r]))
  {
  }

  lemma RunsStep(s: State, a: Action, maxConcurrent: int)
    requires Enabled(s, a)
    ensures RunsKept(s.db.runs, Next(s, a, maxConcurrent).db.runs)
  {
    hide RunsKept, ActiveOf, ActiveRuns;
    var runs := s.db.runs;
    SameRuns(runs);
    match a
    case EndStart(c, run) =>
      if run !in runs { OneRun(runs, run, NewRun(s.calls[c].id, s.calls[c].copy)); }
    case Running(run) =>
      if run in runs && runs[run].state.Starting? {
        OneRun(runs, run, runs[run].(state := RunState.Running, healthy := true));
      }
    case Stop(run) =>
      if run in runs && IsActive(runs[run].state) {
        OneRun(runs, run, runs[run].(state := Stopping, stopRequested := true));
      }
    case Finalize(run, state, code) =>
      if run in runs && IsActive(runs[run].state) {
        OneRun(runs, run, runs[run].(state := state, healthy := false, exitCode := Some(code)));
      }
    case Status(run, healthy) =>
      if run in runs { OneRun(runs, run, runs[run].(healthy := healthy)); }
    case Restart => OrphansKept(runs);
    case _ =>
  }

  lemma Past(s: State, key: (Id, int))
    requires HistoryOk(s)
    ensures key in s.history ==> PastOk(s, key)
  {
  }

  lemma HistoryStep(s: State, a: Action, maxConcurrent: int)
    requires Enabled(s, a) && HistoryOk(s) && CallsOk(s)
    ensures HistoryKept(s, Next(s, a, maxConcurrent))
  {
    match a
    case Create(id, spec) =>
      Past(s, (id, 1));
    case EndUpdate(c, spec) =>
      var call := s.calls[c];
      Past(s, (call.id, call.copy.revision + 1));
    case _ =>
  }

  // ---- Preservation --------------------------------------------------------------------------

  lemma TaskOkStep(s: State, a: Action, maxConcurrent: int)
    requires Enabled(s, a) && TasksOk(s) && HistoryKept(s, Next(s, a, maxConcurrent))
    ensures TasksOk(Next(s, a, maxConcurrent))
  {
    hide ActiveOf, ActiveRuns, HistoryKept;
    var t := Next(s, a, maxConcurrent);
    forall id | id in t.db.tasks ensures TaskOk(t, id) {
      if id in s.db.tasks {
        assert TaskOk(s, id);
        Kept(s, t, (id, s.db.tasks[id].revision));
      }
    }
  }

  lemma Kept(s: State, t: State, key: (Id, int))
    requires HistoryKept(s, t) && key in s.history
    ensures key in t.history && t.history[key] == s.history[key]
  {
  }

  lemma CallOkStep(s: State, a: Action, maxConcurrent: int)
    requires Enabled(s, a) && TasksOk(s) && CallsOk(s)
    requires HistoryKept(s, Next(s, a, maxConcurrent)) && TasksKept(s, Next(s, a, maxConcurrent))
    ensures CallsOk(Next(s, a, maxConcurrent))
  {
    hide ActiveOf, ActiveRuns, HistoryKept, TasksKept, SavePrecheck, UpdateTask, CreateTask, ArchiveTask,
      CreateRunIfNoActive, MarkRunRunning, RequestRunStop, FinalizeRun, MarkRunStatus, MarkActiveRunsUnknown;
    var t := Next(s, a, maxConcurrent);
    forall c | c in t.calls ensures CallOk(t, c) {
      if c in s.calls {
        assert CallOk(s, c);
        var call := s.calls[c];
        Kept(s, t, (call.id, call.copy.revision));
        TaskKept(s, t, call.id);
      } else {
        var id := t.calls[c].id;
        assert TaskOk(s, id);
        Kept(s, t, (id, s.db.tasks[id].revision));
        TaskKept(s, t, id);
      }
    }
  }

  lemma TaskKept(s: State, t: State, id: Id)
    requires TasksKept(s, t) && id in s.db.tasks
    ensures id in t.db.tasks && s.db.tasks[id].revision <= t.db.tasks[id].revision
    ensures s.db.tasks[id].state.Archived? ==> t.db.tasks[id] == s.db.tasks[id]
  {
  }

  lemma RunKept(runs: map<Id, Run>, next: map<Id, Run>, r: Id)
    requires RunsKept(runs, next) && r in runs
    ensures r in next && RunStep(runs[r], next[r])
  {
  }

  /** A task with an active run is not archived. */
  lemma NoArchive(s: State, a: Action, maxConcurrent: int, r: Id)
    requires Enabled(s, a) && r in s.db.runs && IsActive(s.db.runs[r].state)
    requires s.db.runs[r].task in s.db.tasks && !s.db.tasks[s.db.runs[r].task].state.Archived?
    ensures var t := Next(s, a, maxConcurrent);
            s.db.runs[r].task in t.db.tasks && !t.db.tasks[s.db.runs[r].task].state.Archived?
  {
    if a.Archive? && a.id == s.db.runs[r].task { assert r in ActiveOf(s.db.runs, a.id); }
  }

  lemma RunOkStep(s: State, a: Action, maxConcurrent: int)
    requires Enabled(s, a) && CallsOk(s) && RunsOk(s)
    requires HistoryKept(s, Next(s, a, maxConcurrent)) && TasksKept(s, Next(s, a, maxConcurrent))
    requires RunsKept(s.db.runs, Next(s, a, maxConcurrent).db.runs)
    ensures RunsOk(Next(s, a, maxConcurrent))
  {
    hide HistoryKept, TasksKept, RunsKept;
    var t := Next(s, a, maxConcurrent);
    forall r | r in t.db.runs ensures RunOk(t, r) {
      if r in s.db.runs {
        OldRunOk(s, a, maxConcurrent, r);
      } else {
        NewRunOk(s, a, maxConcurrent, r);
      }
    }
  }

  lemma OldRunOk(s: State, a: Action, maxConcurrent: int, r: Id)
    requires Enabled(s, a) && RunsOk(s) && r in s.db.runs
    requires HistoryKept(s, Next(s, a, maxConcurrent)) && TasksKept(s, Next(s, a, maxConcurrent))
    requires RunsKept(s.db.runs, Next(s, a, maxConcurrent).db.runs)
    ensures r in Next(s, a, maxConcurrent).db.runs && RunOk(Next(s, a, maxConcurrent), r)
  {
    hide HistoryKept, TasksKept, RunsKept, Next;
    var t := Next(s, a, maxConcurrent);
    assert RunOk(s, r);
    var run := s.db.runs[r];
    RunKept(s.db.runs, t.db.runs, r);
    Kept(s, t, (run.task, run.revision));
    TaskKept(s, t, run.task);
    if IsActive(run.state) { NoArchive(s, a, maxConcurrent, r); }
  }

  /** Only a Start inserts a run, and only from what it read of a task that is still READY at that revision. */
  lemma NewRunOk(s: State, a: Action, maxConcurrent: int, r: Id)
    requires Enabled(s, a) && CallsOk(s) && r !in s.db.runs && r in Next(s, a, maxConcurrent).db.runs
    ensures a.EndStart? && a.run == r && Next(s, a, maxConcurrent).db.runs[r] == NewRun(s.calls[a.c].id, s.calls[a.c].copy)
    ensures var call := s.calls[a.c];
            call.id in s.db.tasks && s.db.tasks[call.id].state.Ready? && s.db.tasks[call.id].revision == call.copy.revision
            && ActiveOf(s.db.runs, call.id) == {}
    ensures RunOk(Next(s, a, maxConcurrent), r)
  {
    assert CallOk(s, a.c);
  }

  lemma HistoryOkStep(s: State, a: Action, maxConcurrent: int)
    requires Enabled(s, a) && HistoryOk(s) && CallsOk(s) && TasksKept(s, Next(s, a, maxConcurrent))
    ensures HistoryOk(Next(s, a, maxConcurrent))
  {
    hide ActiveOf, ActiveRuns, TasksKept;
    var t := Next(s, a, maxConcurrent);
    forall key | key in t.history ensures PastOk(t, key) {
      if key in s.history {
        assert PastOk(s, key);
        TaskKept(s, t, key.0);
      } else if a.EndUpdate? {
        assert CallOk(s, a.c);
      }
    }
  }

  lemma ExclusiveStep(s: State, a: Action, maxConcurrent: int)
    requires Enabled(s, a) && CallsOk(s) && Exclusive(s.db.runs)
    requires RunsKept(s.db.runs, Next(s, a, maxConcurrent).db.runs)
    ensures Exclusive(Next(s, a, maxConcurrent).db.runs)
  {
    hide RunsKept, Next;
    var t := Next(s, a, maxConcurrent);
    forall p, q | p in t.db.runs && q in t.db.runs ensures !Clash(t.db.runs, p, q) {
      if p in s.db.runs && q in s.db.runs {
        assert !Clash(s.db.runs, p, q);
        RunKept(s.db.runs, t.db.runs, p);
        RunKept(s.db.runs, t.db.runs, q);
      } else if p in s.db.runs {
        RunKept(s.db.runs, t.db.runs, p);
        NewRunOk(s, a, maxConcurrent, q);
        assert p !in ActiveOf(s.db.runs, t.db.runs[q].task);
      } else {
        NewRunOk(s, a, maxConcurrent, p);
        if q in s.db.runs {
          RunKept(s.db.runs, t.db.runs, q);
          assert q !in ActiveOf(s.db.runs, t.db.runs[p].task);
        } else {
          NewRunOk(s, a, maxConcurrent, q);
        }
      }
    }
  }

  lemma Fewer(a: set<Id>, b: set<Id>)
    requires a <= b
    ensures |a| <= |b|
  {
    assert b == a + (b - a);
  }

  lemma BoundedStep(s: State, a: Action, maxConcurrent: int)
    requires Enabled(s, a) && CallsOk(s) && Bounded(s.db.runs, maxConcurrent)
    requires RunsKept(s.db.runs, Next(s, a, maxConcurrent).db.runs)
    ensures Bounded(Next(s, a, maxConcurrent).db.runs, maxConcurrent)
  {
    hide RunsKept, Next;
    var t := Next(s, a, maxConcurrent);
    var old', now := ActiveRuns(s.db.runs), ActiveRuns(t.db.runs);
    if exists r :: r in t.db.runs && r !in s.db.runs {
      var r :| r in t.db.runs && r !in s.db.runs;
      NewRunOk(s, a, maxConcurrent, r);
      Inserted(s, a, maxConcurrent);
    } else {
      forall r | r in now ensures r in old' { RunKept(s.db.runs, t.db.runs, r); }
      Fewer(now, old');
    }
  }

  /** An insertion happens below the limit and adds one run. */
  lemma Inserted(s: State, a: Action, maxConcurrent: int)
    requires Enabled(s, a) && a.EndStart? && a.run !in s.db.runs && a.run in Next(s, a, maxConcurrent).db.runs
    ensures maxConcurrent > 0 ==> |ActiveRuns(s.db.runs)| < maxConcurrent
    ensures |ActiveRuns(Next(s, a, maxConcurrent).db.runs)| == |ActiveRuns(s.db.runs)| + 1
  {
    assert ActiveRuns(Next(s, a, maxConcurrent).db.runs) == ActiveRuns(s.db.runs) + {a.run};
  }

  lemma InvStep(s: State, a: Action, maxConcurrent: int)
    requires Inv(s, maxConcurrent) && Enabled(s, a)
    ensures Inv(Next(s, a, maxConcurrent), maxConcurrent)
  {
    hide TasksOk, CallsOk, RunsOk, HistoryOk, Exclusive, Bounded, TasksKept, RunsKept, HistoryKept, Next, Enabled;
    TasksStep(s, a, maxConcurrent);
    RunsStep(s, a, maxConcurrent);
    HistoryStep(s, a, maxConcurrent);
    TaskOkStep(s, a, maxConcurrent);
    CallOkStep(s, a, maxConcurrent);
    RunOkStep(s, a, maxConcurrent);
    HistoryOkStep(s, a, maxConcurrent);
    ExclusiveStep(s, a, maxConcurrent);
    BoundedStep(s, a, maxConcurrent);
  }

  lemma {:induction false} InvRun(s: State, actions: seq<Action>, t: State, maxConcurrent: int)
    requires Inv(s, maxConcurrent) && Runs(s, actions, t, maxConcurrent)
    ensures Inv(t, maxConcurrent)
    decreases actions
  {
    hide Inv, Next, Enabled;
    if actions != [] {
      InvStep(s, actions[0], maxConcurrent);
      InvRun(Next(s, actions[0], maxConcurrent), actions[1..], t, maxConcurrent);
    }
  }

  lemma InvReachable(s: State, maxConcurrent: int)
    requires Reachable(s, maxConcurrent)
    ensures Inv(s, maxConcurrent)
  {
    var actions :| Runs(Init(), actions, s, maxConcurrent);
    assert ActiveRuns(Init().db.runs) == {};
    InvRun(Init(), actions, s, maxConcurrent);
  }

  // ---- Theorems ------------------------------------------------------------------------------

  /** In every interleaving a READY task's stored precheck was made for exactly the revision the task has now,
      found no failure, and found a warning only if that was acknowledged. */
  lemma ReadyIsChecked(s: State, maxConcurrent: int, id: Id)
    requires Reachable(s, maxConcurrent) && id in s.db.tasks && s.db.tasks[id].state.Ready?
    ensures s.db.tasks[id].precheck.Some?
    ensures s.db.tasks[id].precheck.value.revision == s.db.tasks[id].revision
    ensures Clean(s.db.tasks[id].precheck.value.checks, s.db.tasks[id].precheck.value.acknowledged)
  {
    InvReachable(s, maxConcurrent);
    assert TaskOk(s, id);
    CleanPassed(s.db.tasks[id].precheck.value);
  }

  /** Every run's snapshot is the spec its revision was made with; at most one run of a task is active, at
      most maxConcurrent in all, and none of an archived task. */
  lemma RunSafety(s: State, maxConcurrent: int)
    requires Reachable(s, maxConcurrent)
    ensures forall r {:trigger s.db.runs[r]} :: r in s.db.runs ==>
              Recorded(s, s.db.runs[r].task, s.db.runs[r].revision, s.db.runs[r].snapshot)
    ensures forall p, q :: p in s.db.runs && q in s.db.runs ==> !Clash(s.db.runs, p, q)
    ensures maxConcurrent > 0 ==> |ActiveRuns(s.db.runs)| <= maxConcurrent
    ensures forall r {:trigger s.db.runs[r]} :: r in s.db.runs && IsActive(s.db.runs[r].state) ==>
              s.db.runs[r].task in s.db.tasks && !s.db.tasks[s.db.runs[r].task].state.Archived?
  {
    hide ActiveRuns, Recorded;
    InvReachable(s, maxConcurrent);
    forall r | r in s.db.runs ensures RunOk(s, r) {}
    forall p, q | p in s.db.runs && q in s.db.runs ensures !Clash(s.db.runs, p, q) {}
  }

  /** A run is inserted only by a Start whose task, at that moment, is READY at the revision that was read,
      unchanged since and checked; and the run starts from that revision's spec. */
  lemma InsertedWhenReady(s: State, a: Action, maxConcurrent: int, r: Id)
    requires Reachable(s, maxConcurrent) && Enabled(s, a)
    requires r !in s.db.runs && r in Next(s, a, maxConcurrent).db.runs
    ensures var run := Next(s, a, maxConcurrent).db.runs[r];
            && run.task in s.db.tasks
            && var task := s.db.tasks[run.task];
               && task.state.Ready? && task.revision == run.revision && task.spec == run.snapshot
               && task.precheck.Some? && task.precheck.value.revision == run.revision
               && Clean(task.precheck.value.checks, task.precheck.value.acknowledged)
  {
    InvReachable(s, maxConcurrent);
    NewRunOk(s, a, maxConcurrent, r);
    var call := s.calls[a.c];
    assert CallOk(s, a.c) && TaskOk(s, call.id);
    CleanPassed(s.db.tasks[call.id].precheck.value);
  }

  /** Every step raises a revision by one or leaves it with its spec; archived tasks, finished runs and the
      specs of past revisions never change. */
  lemma StepSafety(s: State, a: Action, maxConcurrent: int)
    requires Reachable(s, maxConcurrent) && Enabled(s, a)
    ensures TasksKept(s, Next(s, a, maxConcurrent))
    ensures RunsKept(s.db.runs, Next(s, a, maxConcurrent).db.runs)
    ensures HistoryKept(s, Next(s, a, maxConcurrent))
  {
    hide TasksKept, RunsKept, HistoryKept, Next, TasksOk, RunsOk, Exclusive, Bounded;
    InvReachable(s, maxConcurrent);
    TasksStep(s, a, maxConcurrent);
    RunsStep(s, a, maxConcurrent);
    HistoryStep(s, a, maxConcurrent);
  }

  // ---- When a row changes, and to what -------------------------------------------------------

  /** No check failed, and every warning was acknowledged. */
  predicate Clean(checks: seq<CheckState>, acknowledged: bool) {
    forall k :: 0 <= k < |checks| ==> !checks[k].Fail? && (checks[k].Warning? ==> acknowledged)
  }

  lemma CleanPassed(p: Precheck)
    ensures Clean(p.checks, p.acknowledged) <==> Passed(p)
  {
  }

  /** The step ends a request on this task at the revision the task still has. */
  predicate Hits(s: State, c: nat, id: Id)
    requires c in s.calls && id in s.db.tasks
  {
    s.calls[c].id == id && s.calls[c].copy.revision == s.db.tasks[id].revision && !s.db.tasks[id].state.Archived?
  }

  predicate Occupies(state: RunState) { !state.Stopped? && !state.Succeeded? && !state.Failed? }

  /** A run of this task is starting, running, stopping or of unknown state. */
  ghost predicate Occupied(s: State, id: Id) {
    exists r :: r in s.db.runs && s.db.runs[r].task == id && Occupies(s.db.runs[r].state)
  }

  lemma OccupiedIs(s: State, id: Id)
    ensures Occupied(s, id) <==> ActiveOf(s.db.runs, id) != {}
  {
    if Occupied(s, id) {
      var r :| r in s.db.runs && s.db.runs[r].task == id && Occupies(s.db.runs[r].state);
      assert r in ActiveOf(s.db.runs, id);
    }
  }

  /**
   What each step makes of a task. An update that hits replaces the spec and raises the revision, and makes
   the task a draft without a precheck; a precheck that hits stores what it found, and the task is READY after
   it if and only if the result is clean, a draft otherwise; archiving works if and only if no run occupies the
   task; and no other step changes the task at all.
   */
  lemma TaskLaw(s: State, a: Action, maxConcurrent: int, id: Id)
    requires Enabled(s, a) && id in s.db.tasks
    ensures var was, t := s.db.tasks[id], Next(s, a, maxConcurrent).db.tasks;
            && id in t
            && t[id] ==
               if a.EndUpdate? && Hits(s, a.c, id) then Task(a.spec, Draft, was.revision + 1, None)
               else if a.EndPrecheck? && Hits(s, a.c, id) then
                 Task(was.spec, if Clean(a.checks, a.acknowledged) then Ready else Draft, was.revision,
                      Some(Precheck(was.revision, a.checks, a.acknowledged)))
               else if a == Archive(id) && !Occupied(s, id) then was.(state := Archived)
               else was
  {
    hide ActiveOf, ActiveRuns, CreateRunIfNoActive, MarkRunRunning, RequestRunStop, FinalizeRun, MarkRunStatus,
      MarkActiveRunsUnknown, Clean;
    OccupiedIs(s, id);
    if a.EndPrecheck? { CleanPassed(Precheck(s.calls[a.c].copy.revision, a.checks, a.acknowledged)); }
    OnlyRuns(s, a, maxConcurrent);
  }

  /** The steps of a run leave every task alone. */
  lemma OnlyRuns(s: State, a: Action, maxConcurrent: int)
    requires Enabled(s, a)
    ensures a.EndStart? || a.Running? || a.Stop? || a.Finalize? || a.Status? || a.Restart? ==>
              Next(s, a, maxConcurrent).db.tasks == s.db.tasks
  {
    hide ActiveOf, ActiveRuns;
  }

  /** A task appears by Create alone, as a draft of revision 1. */
  lemma CreateLaw(s: State, a: Action, maxConcurrent: int, id: Id)
    requires Enabled(s, a) && id !in s.db.tasks
    ensures id in Next(s, a, maxConcurrent).db.tasks <==> a.Create? && a.id == id
    ensures a.Create? && a.id == id ==> Next(s, a, maxConcurrent).db.tasks[id] == Task(a.spec, Draft, 1, None)
  {
    hide ActiveOf, ActiveRuns, CreateRunIfNoActive, MarkRunRunning, RequestRunStop, FinalizeRun, MarkRunStatus,
      MarkActiveRunsUnknown;
    OnlyRuns(s, a, maxConcurrent);
  }

  /** How many runs occupy their tasks. */
  function HowMany(s: State): nat { |set r | r in s.db.runs && Occupies(s.db.runs[r].state)| }

  lemma HowManyIs(s: State)
    ensures HowMany(s) == |ActiveRuns(s.db.runs)|
  {
    assert (set r | r in s.db.runs && Occupies(s.db.runs[r].state)) == ActiveRuns(s.db.runs);
  }

  /** A Start inserts its run if and only if the task is READY at the revision that was read, no run occupies it,
      and the limit, if there is one, is not reached; and then as STARTING, with the spec that was read. */
  lemma StartLaw(s: State, a: Action, maxConcurrent: int, r: Id)
    requires Enabled(s, a) && r !in s.db.runs
    ensures r in Next(s, a, maxConcurrent).db.runs <==>
              && a.EndStart? && a.run == r
              && var call := s.calls[a.c];
                 && call.id in s.db.tasks && s.db.tasks[call.id].state.Ready?
                 && s.db.tasks[call.id].revision == call.copy.revision
                 && !Occupied(s, call.id) && (maxConcurrent > 0 ==> HowMany(s) < maxConcurrent)
    ensures r in Next(s, a, maxConcurrent).db.runs ==>
              Next(s, a, maxConcurrent).db.runs[r] ==
              Run(s.calls[a.c].id, s.calls[a.c].copy.revision, s.calls[a.c].copy.spec, Starting, false, false, None)
  {
    hide ActiveOf, ActiveRuns, HowMany, Occupied;
    if a.EndStart? {
      OccupiedIs(s, s.calls[a.c].id);
      HowManyIs(s);
    }
  }

  /**
   What each step makes of a run. It goes from STARTING to RUNNING when it is marked; from these two to
   STOPPING, with the request stored, when it is asked to stop; from any state but the final ones to the final
   state it is finalized with, exit code and all; and to UNKNOWN on a restart, unless it is final. Its health
   is set by a status while it runs or stops, and, if bad, while it starts. Nothing else changes.
   */
  lemma RunLaw(s: State, a: Action, maxConcurrent: int, r: Id)
    requires Enabled(s, a) && r in s.db.runs
    ensures var was, t := s.db.runs[r], Next(s, a, maxConcurrent).db.runs;
            && r in t
            && t[r] ==
               if a == Action.Running(r) && was.state.Starting? then was.(state := RunState.Running, healthy := true)
               else if a == Stop(r) && (was.state.Starting? || was.state.Running?) then
                 was.(state := Stopping, stopRequested := true)
               else if a.Finalize? && a.run == r && !Occupies(a.state) && Occupies(was.state) then
                 was.(state := a.state, healthy := false, exitCode := Some(a.exitCode))
               else if a.Restart? && (was.state.Starting? || was.state.Running? || was.state.Stopping?) then
                 was.(state := Unknown, healthy := false)
               else if a.Status? && a.run == r
                       && (was.state.Running? || was.state.Stopping? || (was.state.Starting? && !a.healthy)) then
                 was.(healthy := a.healthy)
               else was
  {
    hide ActiveOf, ActiveRuns, SavePrecheck, UpdateTask, CreateTask, ArchiveTask;
    OnlyTasks(s, a, maxConcurrent);
  }

  /** When a request may go on from its read: the task exists at the expected revision, a Start needs it READY,
      the other two not archived, and Update and Start a positive revision. */
  lemma BeginLaw(s: State, c: nat, id: Id, expected: int)
    requires c !in s.calls
    ensures var found := id in s.db.tasks && s.db.tasks[id].revision == expected;
            && (Enabled(s, BeginUpdate(c, id, expected)) <==> expected > 0 && found && !s.db.tasks[id].state.Archived?)
            && (Enabled(s, BeginPrecheck(c, id, expected)) <==> found && !s.db.tasks[id].state.Archived?)
            && (Enabled(s, BeginStart(c, id, expected)) <==> expected > 0 && found && s.db.tasks[id].state.Ready?)
  {
  }

  /** What the guarded writes on a task answer. */
  lemma TaskAnswers(s: State, id: Id, spec: Spec, revision: int, p: Precheck, state: TaskState)
    ensures var answer := UpdateTask(s.db, id, spec, revision).1;
            && answer == SavePrecheck(s.db, id, revision, p, state).1
            && (answer == NotFound <==> id !in s.db.tasks)
            && (answer == RevisionConflict <==> id in s.db.tasks && s.db.tasks[id].revision != revision)
            && (answer == Conflict <==>
                  id in s.db.tasks && s.db.tasks[id].revision == revision && s.db.tasks[id].state.Archived?)
            && (answer == Done <==>
                  id in s.db.tasks && s.db.tasks[id].revision == revision && !s.db.tasks[id].state.Archived?)
    ensures var answer := ArchiveTask(s.db, id).1;
            && (answer == NotFound <==> id !in s.db.tasks)
            && (answer == InUse <==> id in s.db.tasks && !s.db.tasks[id].state.Archived? && Occupied(s, id))
            && (answer == Done <==> id in s.db.tasks && (s.db.tasks[id].state.Archived? || !Occupied(s, id)))
  {
    hide ActiveOf, Occupied;
    OccupiedIs(s, id);
  }

  /** What inserting a run answers, the first reason first. */
  lemma StartAnswers(s: State, r: Id, run: Run, maxConcurrent: int)
    ensures CreateRunIfNoActive(s.db, r, run, maxConcurrent).1 ==
            if run.task !in s.db.tasks then NotFound
            else if !s.db.tasks[run.task].state.Ready? || s.db.tasks[run.task].revision != run.revision then TaskNotReady
            else if Occupied(s, run.task) then ActiveRun
            else if 0 < maxConcurrent <= HowMany(s) then ConcurrencyLimit
            else if r in s.db.runs then Conflict
            else Done
  {
    hide ActiveOf, ActiveRuns, Occupied, HowMany;
    OccupiedIs(s, run.task);
    HowManyIs(s);
  }

  /** What the guarded writes on a run answer: a stop is accepted while the run starts, runs or stops already;
      an end, while it is not final, and only with a final state. */
  lemma RunAnswers(s: State, r: Id, state: RunState, code: int)
    ensures var answer := RequestRunStop(s.db, r).1;
            && (answer == NotFound <==> r !in s.db.runs)
            && (answer == Done <==>
                  r in s.db.runs && (s.db.runs[r].state.Starting? || s.db.runs[r].state.Running? || s.db.runs[r].state.Stopping?))
            && (answer == NotFound || answer == Done || answer == Conflict)
    ensures var answer := FinalizeRun(s.db, r, state, code).1;
            && (answer == InvalidState <==> Occupies(state))
            && (answer == Done <==> !Occupies(state) && r in s.db.runs && Occupies(s.db.runs[r].state))
            && (answer == InvalidState || answer == Done || answer == Conflict)
    ensures MarkRunRunning(s.db, r).1 == if r in s.db.runs && s.db.runs[r].state.Starting? then Done else Conflict
    ensures UpdateRunStarted(s.db, r) == (s.db, if r in s.db.runs && s.db.runs[r].state.Starting? then Done else Conflict)
  {
    if r in s.db.runs { assert s.db.runs[r := s.db.runs[r]] == s.db.runs; }
  }

  /** The steps of a task leave every run alone. */
  lemma OnlyTasks(s: State, a: Action, maxConcurrent: int)
    requires Enabled(s, a)
    ensures !a.EndStart? && !a.Running? && !a.Stop? && !a.Finalize? && !a.Status? && !a.Restart? ==>
              Next(s, a, maxConcurrent).db.runs == s.db.runs
  {
    hide ActiveOf, ActiveRuns;
  }

  // ---- Two writers of one revision -----------------------------------------------------------

  lemma SameHistory(s: State)
    ensures HistoryKept(s, s)
  {
  }

  lemma HistoryChain(s: State, t: State, u: State)
    requires HistoryKept(s, t) && HistoryKept(t, u)
    ensures HistoryKept(s, u)
  {
    forall key | key in s.history ensures key in u.history && u.history[key] == s.history[key] {
      Kept(s, t, key);
      Kept(t, u, key);
    }
  }

  /** A run never removes a task, lowers a revision, or rewrites the spec of a past one. */
  lemma {:induction false} RunKeeps(s: State, actions: seq<Action>, t: State, maxConcurrent: int, id: Id)
    requires Inv(s, maxConcurrent) && Runs(s, actions, t, maxConcurrent) && id in s.db.tasks
    ensures Inv(t, maxConcurrent)
    ensures id in t.db.tasks && s.db.tasks[id].revision <= t.db.tasks[id].revision
    ensures HistoryKept(s, t)
    decreases actions
  {
    hide Next, Enabled, TasksKept, HistoryKept, TasksOk, CallsOk, RunsOk, HistoryOk, Exclusive, Bounded;
    if actions != [] {
      var u := Next(s, actions[0], maxConcurrent);
      InvStep(s, actions[0], maxConcurrent);
      TasksStep(s, actions[0], maxConcurrent);
      HistoryStep(s, actions[0], maxConcurrent);
      TaskKept(s, u, id);
      RunKeeps(u, actions[1..], t, maxConcurrent, id);
      HistoryChain(s, u, t);
    } else {
      SameHistory(s);
    }
  }

  /** The store call by which a request ends. */
  predicate Writes(a: Action) { a.EndUpdate? || a.EndPrecheck? || a.EndStart? }

  /** What a stale request's own write does, and what taskWriteMiss then finds. */
  lemma StaleMisses(t: State, b: Action, maxConcurrent: int)
    requires Enabled(t, b) && Writes(b) && t.calls[b.c].id in t.db.tasks
    requires t.calls[b.c].copy.revision < t.db.tasks[t.calls[b.c].id].revision
    ensures Next(t, b, maxConcurrent).db == t.db
  {
  }

  /**
   No update is lost. Once an update of revision r of a task has succeeded, then after any further steps of
   any requests: what it wrote is still the spec of revision r + 1; and a request that holds revision r or
   an older one of this task, be it an Update, a Precheck or a Start, writes nothing when it ends. Whenever
   the query that asks why comes to be made, it finds a revision conflict, archived or not.
   */
  lemma NoLostUpdate(s: State, a: Action, actions: seq<Action>, t: State, b: Action, later: seq<Action>, u: State,
                     maxConcurrent: int)
    requires Reachable(s, maxConcurrent) && Enabled(s, a) && a.EndUpdate?
    requires UpdateTask(s.db, s.calls[a.c].id, a.spec, s.calls[a.c].copy.revision).1.Done?
    requires Runs(Next(s, a, maxConcurrent), actions, t, maxConcurrent)
    requires Enabled(t, b) && Writes(b) && t.calls[b.c].id == s.calls[a.c].id
    requires Runs(Next(t, b, maxConcurrent), later, u, maxConcurrent)
    ensures Recorded(t, s.calls[a.c].id, s.calls[a.c].copy.revision + 1, a.spec)
    ensures t.calls[b.c].copy.revision <= s.calls[a.c].copy.revision ==>
              && Next(t, b, maxConcurrent).db == t.db
              && WriteMiss(u.db, t.calls[b.c].id, t.calls[b.c].copy.revision) == RevisionConflict
  {
    hide Inv, Runs, ActiveOf, ActiveRuns;
    var id := s.calls[a.c].id;
    var after := Next(s, a, maxConcurrent);
    InvReachable(s, maxConcurrent);
    InvStep(s, a, maxConcurrent);
    RunKeeps(after, actions, t, maxConcurrent, id);
    Kept(after, t, (id, s.calls[a.c].copy.revision + 1));
    if t.calls[b.c].copy.revision <= s.calls[a.c].copy.revision {
      StaleMisses(t, b, maxConcurrent);
      InvStep(t, b, maxConcurrent);
      RunKeeps(Next(t, b, maxConcurrent), later, u, maxConcurrent, id);
    }
  }

  /** So of two updates that read the same revision, however they and others interleave, at most one succeeds. */
  lemma AtMostOneUpdate(s: State, a: Action, actions: seq<Action>, t: State, b: Action, maxConcurrent: int)
    requires Reachable(s, maxConcurrent) && Enabled(s, a) && a.EndUpdate?
    requires Runs(Next(s, a, maxConcurrent), actions, t, maxConcurrent) && Enabled(t, b) && b.EndUpdate?
    requires t.calls[b.c].id == s.calls[a.c].id && t.calls[b.c].copy.revision == s.calls[a.c].copy.revision
    ensures !(UpdateTask(s.db, s.calls[a.c].id, a.spec, s.calls[a.c].copy.revision).1.Done?
              && UpdateTask(t.db, t.calls[b.c].id, b.spec, t.calls[b.c].copy.revision).1.Done?)
  {
    hide ActiveOf, ActiveRuns, Inv;
    if UpdateTask(s.db, s.calls[a.c].id, a.spec, s.calls[a.c].copy.revision).1.Done? {
      NoLostUpdate(s, a, actions, t, b, [], Next(t, b, maxConcurrent), maxConcurrent);
    }
  }
}
