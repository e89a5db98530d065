/**
 One worker process under controlplane/engine/manager.go, from the creation of its run on.

 Start, waitForProcess, waitUntilStarted, monitor, handleExit, Stop, ForceStop and Shutdown run
 concurrently; each Action is one store call, one critical section or one channel operation of them.
 */
module Worker {
  import opened Bytes
  import opened ControlStore

  /** The run, and the mode of its task. */
  datatype Setup = Setup(id: Id, mode: Mode)

  /** Where the goroutine that called Start is. */
  datatype StartPc = Created | Spawned | Persisted | Waiting | Exiting | Returned

  datatype Process = NotStarted | Alive | Dead(code: int)

  /** Where the body of handleExit is. */
  datatype HandlePc =
    | Idle
    | Got(code: int)
    | Noted(code: int, expected: bool, startup: bool)
    | Decided(code: int, state: RunState)
    | Recorded
    | Over

  /** Stop calls that have found the process, or have also written the request; likewise Shutdown. */
  datatype Calls = Calls(stopsFound: nat, stopsRequested: nat, shutFound: nat, shutRequested: nat) {
    predicate Any() { stopsRequested > 0 || shutFound > 0 || shutRequested > 0 }
  }

  /** Whether the worker became ready, a stop was announced, and Start itself received the exit; and what
      handleExit found: a failed start, an announced stop, a stored request. */
  datatype Past = Past(ready: bool, announced: bool, byStart: bool, failure: bool, stop: bool, request: bool)

  datatype State = State(
    db: Db,
    start: StartPc, monitors: nat,      // the Start call, and monitor goroutines still running
    process: Process, reported: bool,   // the worker, and whether waitForProcess has sent
    done: Option<int>,                  // the channel for its exit
    handle: HandlePc,
    managed: bool,                      // whether processes holds it
    expectedStop: bool, startupFailure: bool,
    calls: Calls,                       // stop calls under way
    // history
    received: nat, finals: nat, askedToStop: bool, past: Past)

  function Init(db: Db): State {
    State(db, Created, 0, NotStarted, false, None, Idle, false, false, false, Calls(0, 0, 0, 0), 0, 0, false,
          Past(false, false, false, false, false, false))
  }

  datatype Action =
    | StartFails | Spawn | Persist(broken: bool) | WriteMetadata(broken: bool)
    | Ready | Timeout | Cancel | StartReceives
    | MonitorReceives | MonitorStatus(healthy: bool)
    | Exit(code: int) | Report
    | Note | Decide | Record | Remove
    | StopFind | StopRequest | StopExpect
    | ShutFind | ShutRequest | ShutExpect

  predicate Enabled(x: Setup, s: State, a: Action) {
    match a
    case StartFails => s.start.Created?
    case Spawn => s.start.Created?
    case Persist(_) => s.start.Spawned?
    case WriteMetadata(_) => s.start.Persisted?
    case Ready => s.start.Waiting?
    case Timeout => s.start.Waiting?
    case Cancel => s.start.Waiting?
    case StartReceives => s.start.Waiting? && s.done.Some?
    case MonitorReceives => s.monitors > 0 && s.done.Some?
    case MonitorStatus(_) => s.monitors > 0
    case Exit(_) => s.process.Alive?
    case Report => s.process.Dead? && !s.reported
    case Note => s.handle.Got?
    case Decide => s.handle.Noted? && x.id in s.db.runs
    case Record => s.handle.Decided?
    case Remove => s.handle.Recorded?
    case StopFind => s.managed
    case StopRequest => s.calls.stopsFound > 0
    case StopExpect => s.calls.stopsRequested > 0
    case ShutFind => s.managed
    case ShutRequest => s.calls.shutFound > 0
    case ShutExpect => s.calls.shutRequested > 0
  }

  /** The final state handleExit chooses. */
  function FinalState(mode: Mode, code: int, expected: bool, startup: bool): RunState {
    if startup then Failed
    else if expected then Stopped
    else if mode.Scan? && code == 0 then Succeeded
    else Failed
  }

  /** Start gives up its claim on the exit to a new monitor. */
  function HandOver(s: State): State { s.(start := Returned, monitors := s.monitors + 1) }

  /** The body of finalOnce runs for the first receiver only. */
  function Receive(s: State): State
    requires s.done.Some?
  {
    s.(done := None, received := s.received + 1, handle := if s.handle.Idle? then Got(s.done.value) else s.handle)
  }

  function Next(x: Setup, s: State, a: Action): State
    requires Enabled(x, s, a)
  {
    match a
    case StartFails => s.(db := FinalizeRun(s.db, x.id, Failed, -1).0, finals := s.finals + 1, start := Returned)
    case Spawn => s.(process := Alive, managed := true, start := Spawned)
    case Persist(broken) =>
      if !broken && UpdateRunStarted(s.db, x.id).1.Done? then s.(start := Persisted)
      else HandOver(s.(startupFailure := true))
    case WriteMetadata(broken) => if broken then HandOver(s.(startupFailure := true)) else s.(start := Waiting)
    case Ready => HandOver(s.(db := MarkRunRunning(s.db, x.id).0, past := s.past.(ready := true)))
    case Timeout => HandOver(s.(startupFailure := true, db := MarkRunStatus(s.db, x.id, false).0))
    case Cancel => HandOver(s.(startupFailure := true))
    case StartReceives => Receive(s).(start := Exiting, past := s.past.(byStart := true))
    case MonitorReceives => Receive(s).(monitors := s.monitors - 1)
    case MonitorStatus(healthy) => s.(db := MarkRunStatus(s.db, x.id, healthy).0)
    case Exit(code) => s.(process := Dead(code))
    case Report => s.(done := Some(s.process.code), reported := true)
    case Note =>
      s.(handle := Noted(s.handle.code, s.expectedStop, s.startupFailure),
         past := s.past.(stop := s.expectedStop, failure := s.startupFailure))
    case Decide =>
      var expected := s.handle.expected || s.db.runs[x.id].stopRequested;
      s.(handle := Decided(s.handle.code, FinalState(x.mode, s.handle.code, expected, s.handle.startup)),
         past := s.past.(request := s.db.runs[x.id].stopRequested))
    case Record =>
      s.(db := FinalizeRun(s.db, x.id, s.handle.state, s.handle.code).0, finals := s.finals + 1, handle := Recorded)
    case Remove => s.(managed := false, handle := Over, start := Returned)
    case StopFind => s.(calls := s.calls.(stopsFound := s.calls.stopsFound + 1))
    case StopRequest =>
      var (db, r) := RequestRunStop(s.db, x.id);
      var left := s.calls.(stopsFound := s.calls.stopsFound - 1);
      if r.Done? then s.(db := db, askedToStop := true, calls := left.(stopsRequested := left.stopsRequested + 1))
      else s.(calls := left)
    case StopExpect =>
      s.(expectedStop := true, past := s.past.(announced := true), calls := s.calls.(stopsRequested := s.calls.stopsRequested - 1))
    case ShutFind => s.(calls := s.calls.(shutFound := s.calls.shutFound + 1), askedToStop := true)
    case ShutRequest =>
      s.(db := RequestRunStop(s.db, x.id).0,
         calls := s.calls.(shutFound := s.calls.shutFound - 1, shutRequested := s.calls.shutRequested + 1))
    case ShutExpect =>
      s.(expectedStop := true, past := s.past.(announced := true), calls := s.calls.(shutRequested := s.calls.shutRequested - 1))
  }

  ghost predicate Runs(x: Setup, s: State, actions: seq<Action>, t: State)
    decreases actions
  {
    if actions == [] then s == t
    else Enabled(x, s, actions[0]) && Runs(x, Next(x, s, actions[0]), actions[1..], t)
  }

  /** The run as CreateRunIfNoActive inserted it. */
  predicate Fresh(x: Setup, db: Db) {
    x.id in db.runs && db.runs[x.id].state.Starting? && !db.runs[x.id].stopRequested
  }

  ghost predicate Reachable(x: Setup, s: State) {
    exists db, actions :: Fresh(x, db) && Runs(x, Init(db), actions, s)
  }

  // ---- Invariants ----------------------------------------------------------------------------

  predicate StartWaits(s: State) { s.start.Spawned? || s.start.Persisted? || s.start.Waiting? }

  /** How many parties will still receive the exit or have received it. */
  function Claims(s: State): int {
    (if StartWaits(s) then 1 else 0) + s.monitors + s.received
  }

  /** Once the worker is spawned there is exactly one claim on its exit, and one exit to receive. */
  predicate Claimed(s: State) {
    && (s.process.NotStarted? <==> !s.managed && s.handle.Idle?)
    && (s.process.NotStarted? ==> Claims(s) == 0 && !s.reported && (s.start.Created? || s.start.Returned?))
    && (!s.process.NotStarted? ==> Claims(s) == 1 && !s.start.Created?)
    && (s.reported ==> s.process.Dead?)
    && (if s.done.Some? then 1 else 0) + s.received == (if s.reported then 1 else 0)
    && (s.handle.Idle? <==> s.received == 0)
    && (s.managed <==> !s.process.NotStarted? && !s.handle.Over?)
    && (s.start.Exiting? ==> !s.handle.Idle? && !s.handle.Over?)
  }

  /** The run is finalized by the one exit, or by the one failed start. */
  predicate Finalized(x: Setup, s: State) {
    && x.id in s.db.runs
    && s.finals == (if s.handle.Recorded? || s.handle.Over? || (s.process.NotStarted? && s.start.Returned?) then 1 else 0)
    && (IsActive(s.db.runs[x.id].state) <==> s.finals == 0)
    && (s.handle.Decided? ==> IsTerminal(s.handle.state))
  }

  predicate StopFlags(x: Setup, s: State) {
    && x.id in s.db.runs
    && ((s.expectedStop || s.calls.Any() || s.db.runs[x.id].stopRequested) ==> s.askedToStop)
    && (s.handle.Noted? && s.handle.expected ==> s.askedToStop)
    && (s.handle.Noted? && !s.handle.startup ==> !s.startupFailure)
  }

  /** What led to a final state. */
  predicate Justified(x: Setup, s: State, state: RunState, code: int) {
    && (state.Stopped? ==> s.askedToStop && !s.startupFailure)
    && (state.Succeeded? ==> x.mode.Scan? && code == 0 && !s.startupFailure)
  }

  predicate Explained(x: Setup, s: State) {
    && x.id in s.db.runs
    && (s.handle.Decided? ==> Justified(x, s, s.handle.state, s.handle.code))
    && (IsTerminal(s.db.runs[x.id].state) ==>
          s.db.runs[x.id].exitCode.Some? && Justified(x, s, s.db.runs[x.id].state, s.db.runs[x.id].exitCode.value))
  }

  predicate Inv(x: Setup, s: State) {
    Claimed(s) && Finalized(x, s) && StopFlags(x, s) && Explained(x, s)
  }

  /** The steps of Start, of the worker's exit, and of stop requests. */
  predicate InStart(a: Action) {
    a.StartFails? || a.Spawn? || a.Persist? || a.WriteMetadata? || a.Ready? || a.Timeout? || a.Cancel? || a.StartReceives?
  }

  predicate InExit(a: Action) {
    a.MonitorReceives? || a.MonitorStatus? || a.Exit? || a.Report? || a.Note? || a.Decide? || a.Record? || a.Remove?
  }

  predicate InStop(a: Action) {
    a.StopFind? || a.StopRequest? || a.StopExpect? || a.ShutFind? || a.ShutRequest? || a.ShutExpect?
  }

  /** What a stop call can change: the flags, and the row of a run that is still active. */
  predicate StopOnly(x: Setup, s: State, t: State) {
    && x.id in s.db.runs && x.id in t.db.runs
    && t == s.(db := t.db, expectedStop := t.expectedStop, calls := t.calls, askedToStop := t.askedToStop,
              past := s.past.(announced := t.past.announced))
    && (s.askedToStop ==> t.askedToStop)
    && ((t.expectedStop == s.expectedStop && t.past.announced == s.past.announced) || (t.expectedStop && t.past.announced))
    && (IsTerminal(s.db.runs[x.id].state) ==> t.db.runs[x.id] == s.db.runs[x.id])
    && (IsActive(s.db.runs[x.id].state) ==> IsActive(t.db.runs[x.id].state))
  }

  lemma RequestFrame(db: Db, id: Id)
    requires id in db.runs
    ensures var next := RequestRunStop(db, id).0;
            && id in next.runs
            && (IsTerminal(db.runs[id].state) ==> next.runs[id] == db.runs[id] && !RequestRunStop(db, id).1.Done?)
            && (IsActive(db.runs[id].state) ==> IsActive(next.runs[id].state))
            && (!RequestRunStop(db, id).1.Done? ==> next == db)
  {
  }

  lemma StopFrame(x: Setup, s: State, a: Action)
    requires Enabled(x, s, a) && InStop(a) && x.id in s.db.runs
    ensures StopOnly(x, s, Next(x, s, a))
  {
    hide StopOnly, Next, Enabled;
    if a.StopRequest? || a.ShutRequest? { RequestStep(x, s, a); } else { MarkStep(x, s, a); }
  }

  lemma RequestStep(x: Setup, s: State, a: Action)
    requires Enabled(x, s, a) && (a.StopRequest? || a.ShutRequest?) && x.id in s.db.runs
    ensures StopOnly(x, s, Next(x, s, a))
  {
    hide RequestRunStop;
    RequestFrame(s.db, x.id);
  }

  lemma MarkStep(x: Setup, s: State, a: Action)
    requires Enabled(x, s, a) && InStop(a) && !a.StopRequest? && !a.ShutRequest? && x.id in s.db.runs
    ensures StopOnly(x, s, Next(x, s, a))
  {
  }

  lemma ClaimedStart(x: Setup, s: State, a: Action)
    requires Claimed(s) && Enabled(x, s, a) && InStart(a)
    ensures Claimed(Next(x, s, a))
  {
    hide UpdateRunStarted, MarkRunRunning, MarkRunStatus, RequestRunStop, FinalizeRun;
  }

  lemma ClaimedExit(x: Setup, s: State, a: Action)
    requires Claimed(s) && Enabled(x, s, a) && InExit(a)
    ensures Claimed(Next(x, s, a))
  {
    hide UpdateRunStarted, MarkRunRunning, MarkRunStatus, RequestRunStop, FinalizeRun;
  }

  lemma ClaimedStop(x: Setup, s: State, a: Action)
    requires Claimed(s) && x.id in s.db.runs && Enabled(x, s, a) && InStop(a)
    ensures Claimed(Next(x, s, a))
  {
    hide Next, Enabled, RequestRunStop;
    StopFrame(x, s, a);
  }

  lemma ClaimedStep(x: Setup, s: State, a: Action)
    requires Claimed(s) && x.id in s.db.runs && Enabled(x, s, a)
    ensures Claimed(Next(x, s, a))
  {
    hide Claimed, Finalized, StopFlags, Explained, Next, Enabled;
    if InStart(a) {
      ClaimedStart(x, s, a);
    } else if InExit(a) {
      ClaimedExit(x, s, a);
    } else {
      ClaimedStop(x, s, a);
    }
  }

  lemma FinalizedStart(x: Setup, s: State, a: Action)
    requires Claimed(s) && Finalized(x, s) && Enabled(x, s, a) && InStart(a)
    ensures Finalized(x, Next(x, s, a))
  {
  }

  lemma FinalizedExit(x: Setup, s: State, a: Action)
    requires Claimed(s) && Finalized(x, s) && Enabled(x, s, a) && InExit(a)
    ensures Finalized(x, Next(x, s, a))
  {
  }

  lemma FinalizedStop(x: Setup, s: State, a: Action)
    requires Claimed(s) && Finalized(x, s) && Enabled(x, s, a) && InStop(a)
    ensures Finalized(x, Next(x, s, a))
  {
    hide Next, Enabled, RequestRunStop;
    StopFrame(x, s, a);
  }

  lemma FinalizedStep(x: Setup, s: State, a: Action)
    requires Claimed(s) && Finalized(x, s) && Enabled(x, s, a)
    ensures Finalized(x, Next(x, s, a))
  {
    hide Claimed, Finalized, StopFlags, Explained, Next, Enabled;
    if InStart(a) {
      FinalizedStart(x, s, a);
    } else if InExit(a) {
      FinalizedExit(x, s, a);
    } else {
      FinalizedStop(x, s, a);
    }
  }

  lemma StopFlagsStart(x: Setup, s: State, a: Action)
    requires Claimed(s) && StopFlags(x, s) && Enabled(x, s, a) && InStart(a)
    ensures StopFlags(x, Next(x, s, a))
  {
  }

  lemma StopFlagsExit(x: Setup, s: State, a: Action)
    requires Claimed(s) && StopFlags(x, s) && Enabled(x, s, a) && InExit(a)
    ensures StopFlags(x, Next(x, s, a))
  {
  }

  lemma StopFlagsStop(x: Setup, s: State, a: Action)
    requires Claimed(s) && StopFlags(x, s) && Enabled(x, s, a) && InStop(a)
    ensures StopFlags(x, Next(x, s, a))
  {
  }

  lemma StopFlagsStep(x: Setup, s: State, a: Action)
    requires Claimed(s) && StopFlags(x, s) && Enabled(x, s, a)
    ensures StopFlags(x, Next(x, s, a))
  {
    hide Claimed, Finalized, StopFlags, Explained, Next, Enabled;
    if InStart(a) {
      StopFlagsStart(x, s, a);
    } else if InExit(a) {
      StopFlagsExit(x, s, a);
    } else {
      StopFlagsStop(x, s, a);
    }
  }

  lemma ExplainedStart(x: Setup, s: State, a: Action)
    requires Claimed(s) && Finalized(x, s) && StopFlags(x, s) && Explained(x, s) && Enabled(x, s, a) && InStart(a)
    ensures Explained(x, Next(x, s, a))
  {
  }

  lemma ExplainedExit(x: Setup, s: State, a: Action)
    requires Claimed(s) && Finalized(x, s) && StopFlags(x, s) && Explained(x, s) && Enabled(x, s, a) && InExit(a)
    ensures Explained(x, Next(x, s, a))
  {
  }

  lemma ExplainedStop(x: Setup, s: State, a: Action)
    requires Claimed(s) && Finalized(x, s) && StopFlags(x, s) && Explained(x, s) && Enabled(x, s, a) && InStop(a)
    ensures Explained(x, Next(x, s, a))
  {
    hide Next, Enabled, RequestRunStop;
    StopFrame(x, s, a);
  }

  lemma ExplainedStep(x: Setup, s: State, a: Action)
    requires Claimed(s) && Finalized(x, s) && StopFlags(x, s) && Explained(x, s) && Enabled(x, s, a)
    ensures Explained(x, Next(x, s, a))
  {
    hide Claimed, Finalized, StopFlags, Explained, Next, Enabled;
    if InStart(a) {
      ExplainedStart(x, s, a);
    } else if InExit(a) {
      ExplainedExit(x, s, a);
    } else {
      ExplainedStop(x, s, a);
    }
  }

  lemma {:induction false} InvRun(x: Setup, s: State, actions: seq<Action>, t: State)
    requires Inv(x, s) && Runs(x, s, actions, t)
    ensures Inv(x, t)
    decreases actions
  {
    hide Claimed, StopFlags, Explained, Next, Enabled;
    if actions != [] {
      ClaimedStep(x, s, actions[0]);
      FinalizedStep(x, s, actions[0]);
      StopFlagsStep(x, s, actions[0]);
      ExplainedStep(x, s, actions[0]);
      InvRun(x, Next(x, s, actions[0]), actions[1..], t);
    }
  }

  lemma InvReachable(x: Setup, s: State)
    requires Reachable(x, s)
    ensures Inv(x, s)
  {
    var db, actions :| Fresh(x, db) && Runs(x, Init(db), actions, s);
    InvRun(x, Init(db), actions, s);
  }

  // ---- Theorems ------------------------------------------------------------------------------

  /** In every interleaving: from the spawn on, exactly one of Start and the monitors holds the claim on the
      worker's exit until one of them has received it; the run is finalized at most once, and is active
      exactly until then; the process is in the table exactly from its spawn to the end of handleExit. */
  lemma OneExit(x: Setup, s: State)
    requires Reachable(x, s)
    ensures !s.process.NotStarted? ==> Claims(s) == 1
    ensures s.received <= 1 && s.finals <= 1
    ensures x.id in s.db.runs && (IsActive(s.db.runs[x.id].state) <==> s.finals == 0)
    ensures s.managed <==> !s.process.NotStarted? && !s.handle.Over?
    ensures s.handle.Over? ==> s.finals == 1
  {
    InvReachable(x, s);
  }

  /** STOPPED occurs only after a stop request or a shutdown, SUCCEEDED only in scan mode with exit code 0,
      and neither after a startup failure. */
  lemma FinalStateJustified(x: Setup, s: State)
    requires Reachable(x, s)
    ensures x.id in s.db.runs
    ensures s.db.runs[x.id].state.Stopped? ==> s.askedToStop && !s.startupFailure
    ensures s.db.runs[x.id].state.Succeeded? ==>
              x.mode.Scan? && s.db.runs[x.id].exitCode == Some(0) && !s.startupFailure
  {
    InvReachable(x, s);
  }

  /** Steps of the manager itself, as opposed to the worker's exit and new stop requests. */
  predicate Internal(a: Action) {
    InStart(a) || (InExit(a) && !a.Exit? && !a.MonitorStatus?)
  }

  /** Steps left on the way to the end, once the worker has exited. */
  function Remaining(s: State): nat {
    (match s.start
     case Created => 4
     case Spawned => 3
     case Persisted => 2
     case Waiting => 1
     case _ => 0)
    + (if s.reported then 0 else 1)
    + (if s.done.Some? then 5 else if s.received > 0 then 0 else 5)
    + (match s.handle
       case Idle => 0
       case Got(_) => 4
       case Noted(_, _, _) => 3
       case Decided(_, _) => 2
       case Recorded => 1
       case Over => 0)
  }

  /** No exit is forgotten: once the worker is dead, unless handleExit is over, the manager can take a step,
      and each of its steps brings the end nearer. */
  lemma ExitIsHandled(x: Setup, s: State)
    requires Reachable(x, s) && s.process.Dead?
    ensures !s.handle.Over? ==> exists a :: Internal(a) && Enabled(x, s, a)
    ensures forall a :: Internal(a) && Enabled(x, s, a) ==> Remaining(Next(x, s, a)) < Remaining(s)
  {
    InvReachable(x, s);
    if !s.handle.Over? { ExitStep(x, s); }
    forall a | Internal(a) && Enabled(x, s, a) ensures Remaining(Next(x, s, a)) < Remaining(s) {
      ExitNearer(x, s, a);
    }
  }

  lemma ExitStep(x: Setup, s: State)
    requires Claimed(s) && Finalized(x, s) && s.process.Dead? && !s.handle.Over?
    ensures exists a :: Internal(a) && Enabled(x, s, a)
  {
    match s.handle
    case Got(_) => assert Enabled(x, s, Note);
    case Noted(_, _, _) => assert Enabled(x, s, Decide);
    case Decided(_, _) => assert Enabled(x, s, Record);
    case Recorded => assert Enabled(x, s, Remove);
    case Idle =>
      if !s.reported {
        assert Enabled(x, s, Report);
      } else if s.monitors > 0 {
        assert Enabled(x, s, MonitorReceives);
      } else if s.start.Spawned? {
        assert Enabled(x, s, Persist(false));
      } else if s.start.Persisted? {
        assert Enabled(x, s, WriteMetadata(false));
      } else {
        assert Enabled(x, s, StartReceives);
      }
  }

  lemma ExitNearer(x: Setup, s: State, a: Action)
    requires Claimed(s) && s.process.Dead? && Internal(a) && Enabled(x, s, a)
    ensures Remaining(Next(x, s, a)) < Remaining(s)
  {
    hide UpdateRunStarted, MarkRunRunning, MarkRunStatus, RequestRunStop, FinalizeRun;
  }

  // ---- Exactly which final state -------------------------------------------------------------

  /** A stop had been announced when handleExit read the flags, or was stored when it read the run. */
  predicate FoundStop(s: State) { s.past.stop || s.past.request }

  /** handleExit has read the flags. */
  predicate HasNoted(s: State) { s.handle.Noted? || s.handle.Decided? || s.handle.Recorded? || s.handle.Over? }

  /** The final state that mode, exit code and what was found call for. */
  predicate Fitting(x: Setup, s: State, state: RunState, code: int) {
    && (state.Succeeded? <==> x.mode.Scan? && code == 0 && !s.past.failure && !FoundStop(s))
    && (state.Stopped? <==> !s.past.failure && FoundStop(s))
    && (state.Failed? <==> s.past.failure || (!FoundStop(s) && !(x.mode.Scan? && code == 0)))
  }

  predicate CodeKept(s: State) {
    && (s.done.Some? ==> s.process == Dead(s.done.value))
    && (s.handle.Got? || s.handle.Noted? || s.handle.Decided? ==> s.process == Dead(s.handle.code))
    && (s.handle.Recorded? || s.handle.Over? ==> s.process.Dead?)
  }

  /** What handleExit has read is what was there, and what it decides and records fits. */
  predicate Chosen(x: Setup, s: State) {
    && x.id in s.db.runs && CodeKept(s)
    && (s.handle.Noted? ==> s.handle.expected == s.past.stop && s.handle.startup == s.past.failure)
    && (s.handle.Decided? ==> Fitting(x, s, s.handle.state, s.handle.code))
    && (s.handle.Recorded? || s.handle.Over? ==>
          && Fitting(x, s, s.db.runs[x.id].state, s.process.code)
          && s.db.runs[x.id].exitCode == Some(s.process.code))
  }

  /** The flags are exactly what happened: a stop was announced; Start gave up without a ready worker. */
  predicate Flagged(s: State) {
    && s.expectedStop == s.past.announced
    && (StartWaits(s) || s.start.Created? || s.process.NotStarted? ==> !s.past.ready && !s.startupFailure && !s.past.byStart)
    && (s.start.Exiting? ==> s.past.byStart)
    && (!StartWaits(s) && !s.process.NotStarted? ==> (s.startupFailure <==> !s.past.ready && !s.past.byStart))
    && (HasNoted(s) ==> s.past.failure == s.startupFailure)
    && (HasNoted(s) && s.past.stop ==> s.past.announced)
  }

  lemma FlaggedStart(x: Setup, s: State, a: Action)
    requires Claimed(s) && Flagged(s) && Enabled(x, s, a) && InStart(a)
    ensures Flagged(Next(x, s, a))
  {
    hide UpdateRunStarted, MarkRunRunning, MarkRunStatus, RequestRunStop, FinalizeRun, FinalState;
  }

  lemma FlaggedExit(x: Setup, s: State, a: Action)
    requires Claimed(s) && Flagged(s) && Enabled(x, s, a) && InExit(a)
    ensures Flagged(Next(x, s, a))
  {
    hide UpdateRunStarted, MarkRunRunning, MarkRunStatus, RequestRunStop, FinalizeRun, FinalState;
  }

  lemma FlaggedStop(x: Setup, s: State, a: Action)
    requires Claimed(s) && Flagged(s) && x.id in s.db.runs && Enabled(x, s, a) && InStop(a)
    ensures Flagged(Next(x, s, a))
  {
    hide Next, Enabled, Claimed;
    StopFrame(x, s, a);
  }

  lemma FlaggedStep(x: Setup, s: State, a: Action)
    requires Claimed(s) && Flagged(s) && x.id in s.db.runs && Enabled(x, s, a)
    ensures Flagged(Next(x, s, a))
  {
    hide Claimed, Flagged, Next, Enabled;
    if InStart(a) { FlaggedStart(x, s, a); } else if InExit(a) { FlaggedExit(x, s, a); } else { FlaggedStop(x, s, a); }
  }

  lemma ChosenStart(x: Setup, s: State, a: Action)
    requires Claimed(s) && Finalized(x, s) && Chosen(x, s) && Enabled(x, s, a) && InStart(a)
    ensures Chosen(x, Next(x, s, a))
  {
  }

  lemma ChosenExit(x: Setup, s: State, a: Action)
    requires Claimed(s) && Finalized(x, s) && Chosen(x, s) && Enabled(x, s, a) && InExit(a)
    ensures Chosen(x, Next(x, s, a))
  {
  }

  lemma ChosenStop(x: Setup, s: State, a: Action)
    requires Claimed(s) && Finalized(x, s) && Chosen(x, s) && Enabled(x, s, a) && InStop(a)
    ensures Chosen(x, Next(x, s, a))
  {
    hide Next, Enabled, RequestRunStop;
    StopFrame(x, s, a);
  }

  lemma {:induction false} ChosenRun(x: Setup, s: State, actions: seq<Action>, t: State)
    requires Inv(x, s) && Chosen(x, s) && Flagged(s) && Runs(x, s, actions, t)
    ensures Inv(x, t) && Chosen(x, t) && Flagged(t)
    decreases actions
  {
    hide Claimed, Finalized, StopFlags, Explained, Chosen, Flagged, Next, Enabled;
    if actions != [] {
      var a := actions[0];
      ClaimedFacts(x, s);
      ClaimedStep(x, s, a);
      FinalizedStep(x, s, a);
      StopFlagsStep(x, s, a);
      ExplainedStep(x, s, a);
      FlaggedStep(x, s, a);
      if InStart(a) { ChosenStart(x, s, a); } else if InExit(a) { ChosenExit(x, s, a); } else { ChosenStop(x, s, a); }
      ChosenRun(x, Next(x, s, a), actions[1..], t);
    }
  }

  lemma ClaimedFacts(x: Setup, s: State)
    requires Finalized(x, s)
    ensures x.id in s.db.runs
  {
  }

  /**
   Once the exit is recorded: the run carries the worker's exit code; it is SUCCEEDED if and only if the mode is
   scan, the code is 0, Start did not give up on a worker that was not ready, and handleExit found no stop
   announced or stored; STOPPED if and only if it found one and Start did not give up; and FAILED otherwise. A
   stop it found announced had been announced.
   */
  lemma FinalStateExactly(x: Setup, s: State)
    requires Reachable(x, s) && (s.handle.Recorded? || s.handle.Over?)
    ensures s.process.Dead? && x.id in s.db.runs && s.db.runs[x.id].exitCode == Some(s.process.code)
    ensures var gaveUp, run := !s.past.ready && !s.past.byStart, s.db.runs[x.id];
            && (run.state.Succeeded? <==> x.mode.Scan? && s.process.code == 0 && !gaveUp && !FoundStop(s))
            && (run.state.Stopped? <==> !gaveUp && FoundStop(s))
            && (run.state.Failed? <==> gaveUp || (!FoundStop(s) && !(x.mode.Scan? && s.process.code == 0)))
    ensures s.past.stop ==> s.past.announced && s.askedToStop
  {
    var db, actions :| Fresh(x, db) && Runs(x, Init(db), actions, s);
    ChosenRun(x, Init(db), actions, s);
    FinalFacts(x, s);
  }

  lemma FinalFacts(x: Setup, s: State)
    requires Claimed(s) && StopFlags(x, s) && Flagged(s) && (s.handle.Recorded? || s.handle.Over?)
    ensures s.past.failure <==> !s.past.ready && !s.past.byStart
    ensures s.past.announced ==> s.askedToStop
  {
  }

  /** A start that failed before the worker existed is FAILED with code -1. */
  predicate Stillborn(x: Setup, s: State) {
    x.id in s.db.runs
    && (s.process.NotStarted? && s.start.Returned? ==> s.db.runs[x.id].state.Failed? && s.db.runs[x.id].exitCode == Some(-1))
  }

  /**
   What each step makes of the run's row: the failed start and the recorded exit finalize it, readiness makes
   STARTING RUNNING, a stop request makes both STOPPING and is stored, the health follows the status, and no
   other step touches it.
   */
  lemma RowLaw(x: Setup, s: State, a: Action)
    requires Enabled(x, s, a) && x.id in s.db.runs
    ensures var was, t := s.db.runs[x.id], Next(x, s, a).db.runs;
            var occupied := !was.state.Stopped? && !was.state.Succeeded? && !was.state.Failed?;
            && x.id in t
            && t[x.id] ==
               if a.StartFails? && occupied then was.(state := Failed, healthy := false, exitCode := Some(-1))
               else if a.Ready? && was.state.Starting? then was.(state := Running, healthy := true)
               else if a.Timeout? && (was.state.Running? || was.state.Stopping? || was.state.Starting?) then
                 was.(healthy := false)
               else if a.MonitorStatus?
                       && (was.state.Running? || was.state.Stopping? || (was.state.Starting? && !a.healthy)) then
                 was.(healthy := a.healthy)
               else if (a.StopRequest? || a.ShutRequest?) && (was.state.Starting? || was.state.Running?) then
                 was.(state := Stopping, stopRequested := true)
               else if a.Record? && occupied && IsTerminal(s.handle.state) then
                 was.(state := s.handle.state, healthy := false, exitCode := Some(s.handle.code))
               else was
  {
    if InStart(a) {} else if InExit(a) {}
  }

  lemma StillbornStep(x: Setup, s: State, a: Action)
    requires Claimed(s) && Finalized(x, s) && Stillborn(x, s) && Enabled(x, s, a)
    ensures Stillborn(x, Next(x, s, a))
  {
    hide UpdateRunStarted, MarkRunRunning, MarkRunStatus, RequestRunStop, FinalizeRun, FinalState;
    RowLaw(x, s, a);
  }

  /** A start that failed before there was a worker leaves the run FAILED, with code -1. */
  lemma FailedStart(x: Setup, s: State)
    requires Reachable(x, s) && s.process.NotStarted? && s.start.Returned?
    ensures x.id in s.db.runs && s.db.runs[x.id].state.Failed? && s.db.runs[x.id].exitCode == Some(-1)
  {
    var db, actions :| Fresh(x, db) && Runs(x, Init(db), actions, s);
    StillbornRun(x, Init(db), actions, s);
  }

  lemma {:induction false} StillbornRun(x: Setup, s: State, actions: seq<Action>, t: State)
    requires Inv(x, s) && Stillborn(x, s) && Runs(x, s, actions, t)
    ensures Stillborn(x, t)
    decreases actions
  {
    hide Claimed, Finalized, StopFlags, Explained, Stillborn, Next, Enabled;
    if actions != [] {
      var a := actions[0];
      ClaimedFacts(x, s);
      ClaimedStep(x, s, a);
      FinalizedStep(x, s, a);
      StopFlagsStep(x, s, a);
      ExplainedStep(x, s, a);
      StillbornStep(x, s, a);
      StillbornRun(x, Next(x, s, a), actions[1..], t);
    }
  }

  // ---- The manager in its own form -----------------------------------------------------------

  /** managedProcess: the flags that Stop, Shutdown and a failing Start set. */
  class Managed {
    const runId: Id
    const mode: Mode
    var expectedStop: bool
    var startupFailure: bool

    constructor (runId: Id, mode: Mode)
      ensures this.runId == runId && this.mode == mode && !expectedStop && !startupFailure
    {
      this.runId, this.mode, expectedStop, startupFailure := runId, mode, false, false;
    }

    method SetExpectedStop()
      modifies this`expectedStop
      ensures expectedStop
    {
      expectedStop := true;
    }

    method SetStartupFailure()
      modifies this`startupFailure
      ensures startupFailure
    {
      startupFailure := true;
    }
  }

  class Manager {
    const store: Store
    var processes: map<Id, Managed>

    constructor (store: Store)
      ensures this.store == store && processes == map[]
    {
      this.store, processes := store, map[];
    }

    /** handleExit, when no other goroutine takes a step in between. */
    method HandleExit(process: Managed, code: int)
      modifies this, store
      ensures var db := old(store.View());
              var asked := process.runId in db.runs && db.runs[process.runId].stopRequested;
              store.View() == FinalizeRun(db, process.runId,
                                          if process.startupFailure then Failed
                                          else if process.expectedStop || asked then Stopped
                                          else if process.mode.Scan? && code == 0 then Succeeded
                                          else Failed, code).0
      ensures processes == old(processes) - {process.runId}
    {
      var expectedStop, startupFailure := process.expectedStop, process.startupFailure;
      if process.runId in store.runs && store.runs[process.runId].stopRequested {
        expectedStop := true;
      }
      var state := Failed;
      if startupFailure {
      } else if expectedStop {
        state := Stopped;
      } else if process.mode.Scan? && code == 0 {
        state := Succeeded;
      }
      var _ := store.Finalize(process.runId, state, code);
      processes := processes - {process.runId};
    }

    /** Stop and ForceStop up to the signal; false is an error, which leaves the flag alone. */
    method Stop(id: Id) returns (ok: bool)
      requires forall r :: r in processes ==> processes[r].runId == r
      modifies store, processes.Values
      ensures ok <==> id in old(processes) && RequestRunStop(old(store.View()), id).1.Done?
      ensures store.View() == if id in old(processes) then RequestRunStop(old(store.View()), id).0 else old(store.View())
      ensures ok ==> processes[id].expectedStop
      ensures forall r :: r in processes && (r != id || !ok) ==> processes[r].expectedStop == old(processes[r].expectedStop)
    {
      if id !in processes { return false; }
      var r := store.RequestStop(id);
      if !r.Done? { return false; }
      processes[id].SetExpectedStop();
      return true;
    }
  }
}
