/** controlplane/store/repositories.go: tasks and runs, and the guarded writes on them. Each write is one
 statement or transaction on the only connection, so it is one atomic step. A guarded UPDATE that changed
 nothing is followed by a query that says why; the query is a second statement, and here part of the same
 step. It changes no row, and ControlTasks.NoLostUpdate says what it finds when it is made later. */
module ControlStore {
  import opened Bytes

  type Id = bytes

  datatype Mode = Sync | Scan

  /** What a task does; everything but the mode is opaque here. */
  datatype Spec = Spec(mode: Mode, options: bytes)

  datatype TaskState = Draft | Ready | Archived

  datatype CheckState = Pass | Warning | Fail

  /** A stored precheck result: the revision it was made for, and what it found. */
  datatype Precheck = Precheck(revision: int, checks: seq<CheckState>, acknowledged: bool)

  /** Ready of PrecheckResult. */
  predicate Passed(p: Precheck) {
    Fail !in p.checks && (Warning !in p.checks || p.acknowledged)
  }

  datatype Task = Task(spec: Spec, state: TaskState, revision: int, precheck: Option<Precheck>)

  datatype RunState = Starting | Running | Stopping | Stopped | Succeeded | Failed | Unknown

  predicate IsActive(s: RunState) { s.Starting? || s.Running? || s.Stopping? || s.Unknown? }

  predicate IsTerminal(s: RunState) { s.Stopped? || s.Succeeded? || s.Failed? }

  datatype Run = Run(task: Id, revision: int, snapshot: Spec, state: RunState, stopRequested: bool, healthy: bool,
                     exitCode: Option<int>)

  datatype Db = Db(tasks: map<Id, Task>, runs: map<Id, Run>)

  datatype Outcome = Done | NotFound | Conflict | InUse | RevisionConflict | TaskNotReady | ActiveRun | ConcurrencyLimit
                     | InvalidState

  // ---- Tasks ---------------------------------------------------------------------------------

  function CreateTask(db: Db, id: Id, spec: Spec): (Db, Outcome) {
    if id in db.tasks then (db, Conflict)
    else (db.(tasks := db.tasks[id := Task(spec, Draft, 1, None)]), Done)
  }

  /** The WHERE clause shared by the three revision-guarded task writes. */
  predicate Writable(db: Db, id: Id, revision: int) {
    id in db.tasks && db.tasks[id].revision == revision && !db.tasks[id].state.Archived?
  }

  /** taskWriteMiss: why such a write changed nothing, asked in a second statement. */
  function WriteMiss(db: Db, id: Id, revision: int): Outcome {
    if id !in db.tasks then NotFound
    else if db.tasks[id].revision != revision then RevisionConflict
    else Conflict
  }

  function UpdateTask(db: Db, id: Id, spec: Spec, expected: int): (Db, Outcome) {
    if Writable(db, id, expected) then (db.(tasks := db.tasks[id := Task(spec, Draft, expected + 1, None)]), Done)
    else (db, WriteMiss(db, id, expected))
  }

  /** MarkTaskReady and SaveTaskPrecheckResult. */
  function SavePrecheck(db: Db, id: Id, revision: int, p: Precheck, state: TaskState): (Db, Outcome) {
    if Writable(db, id, revision) then
      (db.(tasks := db.tasks[id := db.tasks[id].(state := state, precheck := Some(p))]), Done)
    else (db, WriteMiss(db, id, revision))
  }

  function ActiveRuns(runs: map<Id, Run>): set<Id> {
    set r | r in runs && IsActive(runs[r].state)
  }

  function ActiveOf(runs: map<Id, Run>, task: Id): set<Id> {
    set r | r in runs && runs[r].task == task && IsActive(runs[r].state)
  }

  function ArchiveTask(db: Db, id: Id): (Db, Outcome) {
    if id !in db.tasks then (db, NotFound)
    else if db.tasks[id].state.Archived? then (db, Done)
    else if ActiveOf(db.runs, id) != {} then (db, InUse)
    else (db.(tasks := db.tasks[id := db.tasks[id].(state := Archived)]), Done)
  }

  // ---- Runs ----------------------------------------------------------------------------------

  function CreateRunIfNoActive(db: Db, id: Id, run: Run, maxConcurrent: int): (Db, Outcome) {
    if run.task !in db.tasks then (db, NotFound)
    else if !db.tasks[run.task].state.Ready? || db.tasks[run.task].revision != run.revision then (db, TaskNotReady)
    else if ActiveOf(db.runs, run.task) != {} then (db, ActiveRun)
    else if maxConcurrent > 0 && |ActiveRuns(db.runs)| >= maxConcurrent then (db, ConcurrencyLimit)
    else if id in db.runs then (db, Conflict)
    else (db.(runs := db.runs[id := run]), Done)
  }

  /** An update of one run that is guarded by its state. */
  function GuardedRun(db: Db, id: Id, allowed: bool, next: Run): (Db, Outcome) {
    if id in db.runs && allowed then (db.(runs := db.runs[id := next]), Done) else (db, Conflict)
  }

  function UpdateRunStarted(db: Db, id: Id): (Db, Outcome) {
    if id in db.runs then GuardedRun(db, id, db.runs[id].state.Starting?, db.runs[id]) else (db, Conflict)
  }

  function MarkRunRunning(db: Db, id: Id): (Db, Outcome) {
    if id in db.runs then
      GuardedRun(db, id, db.runs[id].state.Starting?, db.runs[id].(state := Running, healthy := true))
    else (db, Conflict)
  }

  function MarkRunStatus(db: Db, id: Id, healthy: bool): (Db, Outcome) {
    if id in db.runs then
      var s := db.runs[id].state;
      GuardedRun(db, id, s.Running? || s.Stopping? || (!healthy && s.Starting?), db.runs[id].(healthy := healthy))
    else (db, Conflict)
  }

  function RequestRunStop(db: Db, id: Id): (Db, Outcome) {
    if id !in db.runs then (db, NotFound)
    else
      var s := db.runs[id].state;
      if s.Starting? || s.Running? then
        (db.(runs := db.runs[id := db.runs[id].(state := Stopping, stopRequested := true)]), Done)
      else if s.Stopping? then (db, Done)
      else (db, Conflict)
  }

  function FinalizeRun(db: Db, id: Id, state: RunState, exitCode: int): (Db, Outcome) {
    if !IsTerminal(state) then (db, InvalidState)
    else if id in db.runs then
      GuardedRun(db, id, IsActive(db.runs[id].state),
                 db.runs[id].(state := state, healthy := false, exitCode := Some(exitCode)))
    else (db, Conflict)
  }

  function MarkActiveRunsUnknown(db: Db): Db {
    db.(runs := map r | r in db.runs :: Orphaned(db.runs[r]))
  }

  function Orphaned(run: Run): Run {
    if IsActive(run.state) && !run.state.Unknown? then run.(state := Unknown, healthy := false) else run
  }

  // ---- The store in its own form -------------------------------------------------------------

  /** Two tables; every method is one transaction on the rows. */
  class Store {
    var tasks: map<Id, Task>
    var runs: map<Id, Run>

    constructor ()
      ensures View() == Db(map[], map[])
    {
      tasks, runs := map[], map[];
    }

    function View(): Db
      reads this
    {
      Db(tasks, runs)
    }

    method TaskWriteMiss(id: Id, expectedRevision: int) returns (r: Outcome)
      ensures r == WriteMiss(View(), id, expectedRevision)
    {
      if id !in tasks { return NotFound; }
      if tasks[id].revision != expectedRevision { return RevisionConflict; }
      return Conflict;
    }

    method Update(id: Id, spec: Spec, expectedRevision: int) returns (r: Outcome, newRevision: int)
      modifies this
      ensures (View(), r) == UpdateTask(old(View()), id, spec, expectedRevision)
      ensures r.Done? ==> newRevision == expectedRevision + 1
    {
      newRevision := expectedRevision + 1;
      if id in tasks && tasks[id].revision == expectedRevision && !tasks[id].state.Archived? {
        tasks := tasks[id := Task(spec, Draft, newRevision, None)];
        return Done, newRevision;
      }
      r := TaskWriteMiss(id, expectedRevision);
    }

    method MarkTaskReady(id: Id, revision: int, result: Precheck) returns (r: Outcome)
      modifies this
      ensures (View(), r) == SavePrecheck(old(View()), id, revision, result, Ready)
    {
      if id in tasks && tasks[id].revision == revision && !tasks[id].state.Archived? {
        tasks := tasks[id := tasks[id].(state := Ready, precheck := Some(result))];
        return Done;
      }
      r := TaskWriteMiss(id, revision);
    }

    method SaveTaskPrecheckResult(id: Id, revision: int, result: Precheck) returns (r: Outcome)
      modifies this
      ensures (View(), r) == SavePrecheck(old(View()), id, revision, result, Draft)
    {
      if id in tasks && tasks[id].revision == revision && !tasks[id].state.Archived? {
        tasks := tasks[id := tasks[id].(state := Draft, precheck := Some(result))];
        return Done;
      }
      r := TaskWriteMiss(id, revision);
    }

    method Archive(id: Id) returns (r: Outcome)
      modifies this
      ensures (View(), r) == ArchiveTask(old(View()), id)
    {
      if id in tasks && !tasks[id].state.Archived? && ActiveOf(runs, id) == {} {
        tasks := tasks[id := tasks[id].(state := Archived)];
        return Done;
      }
      if id !in tasks { return NotFound; }
      if tasks[id].state.Archived? { return Done; }
      return InUse;
    }

    method CreateRun(id: Id, run: Run, maxConcurrent: int) returns (r: Outcome)
      modifies this
      ensures (View(), r) == CreateRunIfNoActive(old(View()), id, run, maxConcurrent)
    {
      if run.task !in tasks { return NotFound; }
      var task := tasks[run.task];
      if !task.state.Ready? || task.revision != run.revision { return TaskNotReady; }
      if ActiveOf(runs, run.task) != {} { return ActiveRun; }
      if maxConcurrent > 0 {
        var activeCount := |ActiveRuns(runs)|;
        if activeCount >= maxConcurrent { return ConcurrencyLimit; }
      }
      if id in runs { return Conflict; }
      runs := runs[id := run];
      return Done;
    }

    method RequestStop(id: Id) returns (r: Outcome)
      modifies this
      ensures (View(), r) == RequestRunStop(old(View()), id)
    {
      if id in runs && (runs[id].state.Starting? || runs[id].state.Running?) {
        runs := runs[id := runs[id].(state := Stopping, stopRequested := true)];
        return Done;
      }
      if id !in runs { return NotFound; }
      return if runs[id].state.Stopping? then Done else Conflict;
    }

    method Finalize(id: Id, state: RunState, exitCode: int) returns (r: Outcome)
      modifies this
      ensures (View(), r) == FinalizeRun(old(View()), id, state, exitCode)
    {
      if !state.Stopped? && !state.Succeeded? && !state.Failed? { return InvalidState; }
      if id in runs && IsActive(runs[id].state) {
        runs := runs[id := runs[id].(state := state, healthy := false, exitCode := Some(exitCode))];
        return Done;
      }
      return Conflict;
    }
  }
}
