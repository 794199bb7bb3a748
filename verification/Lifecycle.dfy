/** The deployment lifecycle as a step machine.

    One lock serialises the commands, so at most one command is under way; `get_deployment` reads the
    rows outside that lock, so any number of readers run between any two steps.  Each step is one
    store transaction, one engine call or one SDK call with its persist callback.  The engine's
    answers are part of the action: it may answer anything.  A crash may fall between any two steps;
    it drops the command and the readers, and recovery hands the broker the store's active tasks.

    Contract of the activity SDK: an admission may be refused before anything is persisted; a
    transition takes effect before its callback runs (the launch completes its task from inside it);
    a completion takes effect after its callback. */
module Lifecycle {
  import opened Options
  import opened Domain
  import opened ProductStore

  /** What the command holding the lock does next. */
  datatype Stage =
    | Admit(key: Option<string>, digest: string)
    | Queue
    | Dispatch
    | Load
    | Prepare
    | Start
    | Mismatch(handle: EngineHandle)
    | Probe(handle: EngineHandle)
    | Verify(handle: EngineHandle)
    | Cleanup(refs: Option<EngineHandle>)
    | Fail(refs: Option<EngineHandle>)
    | FailEvent
    | Finish(handle: EngineHandle)
    | FinishEvent
    | Stop
    | StopEvent
    | EngineStop
    | Retire
    | ReleaseEvent
    | Relaunch(node: NodeRef)

  /** `row` is the command's own copy of the deployment, `relaunch` the node of a restart. */
  datatype Command =
    | Idle
    | Busy(id: DeploymentId, row: Deployment, stage: Stage, relaunch: Option<NodeRef>)

  /** A `get_deployment` call that has read the row, then the endpoint, then the evidence. */
  datatype Reader =
    | SawRow(id: DeploymentId, row: Deployment)
    | SawEndpoint(id: DeploymentId, row: Deployment, endpoint: Endpoint)
    | Inspecting(id: DeploymentId, row: Deployment, endpoint: Endpoint)

  /** `live` holds the deployments whose engine start has not since had a successful engine stop.
      The last five fields only watch the run. */
  datatype State = State(
    tables: Tables,
    broker: map<DeploymentId, TaskState>,
    command: Command,
    readers: map<nat, Reader>,
    live: set<DeploymentId>,
    unprepared: set<DeploymentId>,
    blindStarts: set<DeploymentId>,
    doubleStarts: set<DeploymentId>,
    brokerFault: bool,
    crashed: bool)

  const INITIAL := State(EMPTY, map[], Idle, map[], {}, {}, {}, {}, false, false)

  /** An engine's answer.  `Failure` is a serving failure with the references it may carry, `Raise`
      any other exception, `Wrong` a composed start that echoed another model version, `Unsupported`
      an engine rejected before its start was called. */
  datatype Answer =
    | Handed(handle: EngineHandle)
    | NoHandle
    | Done
    | Failure(refs: Option<EngineHandle>)
    | Raise
    | Wrong(handle: EngineHandle)
    | Unsupported

  datatype Action =
    | BeginCreate(id: DeploymentId, key: Option<string>, digest: string, node: NodeRef)
    | BeginStop(id: DeploymentId)
    | BeginRestart(id: DeploymentId, version: nat, node: NodeRef)
    | Proceed(newId: EndpointId)
    | Refuse
    | Engine(answer: Answer, newId: EndpointId)
    | ReadRow(reader: nat, id: DeploymentId)
    | ReadEndpoint(reader: nat)
    | ReadEvidence(reader: nat)
    | Commit(reader: nat, ready: bool)
    | Crash

  // ----- rows a command writes

  function Drafted(node: NodeRef): Deployment {
    Deployment(Active, Starting, node, None, None, 1)
  }

  function StoppingRow(row: Deployment): Deployment {
    row.(desired := StopRequested, observed := Stopping, version := row.version + 1)
  }

  function StoppedRow(row: Deployment): Deployment {
    row.(observed := Stopped, version := row.version + 1)
  }

  function StartingRow(row: Deployment, node: NodeRef): Deployment {
    row.(desired := Active, observed := Starting, node := node, failure := None, version := row.version + 1)
  }

  function ReadyRow(row: Deployment, key: EndpointId): Deployment {
    row.(observed := Ready, endpointId := Some(key), failure := None, version := row.version + 1)
  }

  function FailedRow(row: Deployment): Deployment {
    row.(observed := Failed, failure := Some(StartFailed), version := row.version + 1)
  }

  function ObservedRow(row: Deployment, ready: bool): Deployment {
    row.(observed := if ready then Ready else Degraded,
         failure := if ready then None else Some(ExecutionUnavailable),
         version := row.version + 1)
  }

  function ObservedEndpoint(endpoint: Endpoint, ready: bool): Endpoint {
    endpoint.(state := if ready then Serving else Unhealthy, version := endpoint.version + 1)
  }

  function EndpointKey(row: Deployment, newId: EndpointId): EndpointId {
    if row.endpointId.Some? then row.endpointId.value else newId
  }

  /** The endpoint a launch writes: the next version of the old one, or a first one. */
  function NextEndpoint(t: Tables, id: DeploymentId, row: Deployment, state: EndpointState, url: Url): Endpoint {
    if row.endpointId.Some? && row.endpointId.value in t.endpoints then
      Endpoint(id, state, url, t.endpoints[row.endpointId.value].version + 1)
    else
      Endpoint(id, state, url, 1)
  }

  // ----- which actions a state allows

  predicate FreshEndpoint(s: State, row: Deployment, newId: EndpointId) {
    row.endpointId.None? ==> newId !in s.tables.endpoints
  }

  /** The row's endpoint is read with `_require_endpoint`, which raises when it is missing. */
  predicate EndpointKnown(s: State, row: Deployment) {
    row.endpointId.Some? ==> row.endpointId.value in s.tables.endpoints
  }

  predicate HasExecution(s: State, id: DeploymentId, row: Deployment) {
    id in s.tables.evidence && row.endpointId.Some?
  }

  /** Admission is asked for by a create, by a relaunch and by a stop of a task that is not open. */
  predicate AsksAdmission(c: Command) {
    c.Busy? && (c.stage.Admit? || c.stage.Relaunch?
                || (c.stage.Stop? && !c.row.observed.Starting? && !c.row.observed.Stopping?))
  }

  predicate CanProceed(s: State, newId: EndpointId) {
    s.command.Busy?
    && match s.command.stage
       case Prepare => false
       case Start => false
       case Mismatch(_) => false
       case Verify(_) => false
       case Cleanup(_) => false
       case EngineStop => !HasExecution(s, s.command.id, s.command.row)
       case Fail(_) => FreshEndpoint(s, s.command.row, newId) && EndpointKnown(s, s.command.row)
       case Finish(_) => FreshEndpoint(s, s.command.row, newId) && EndpointKnown(s, s.command.row)
       case Retire => EndpointKnown(s, s.command.row)
       case _ => true
  }

  predicate CanAnswer(s: State, answer: Answer, newId: EndpointId) {
    s.command.Busy?
    && match s.command.stage
       case Prepare => (answer.Handed? ==> FreshEndpoint(s, s.command.row, newId) && EndpointKnown(s, s.command.row))
                       && (answer.Handed? || answer.NoHandle? || answer.Raise?)
       case Start => answer.Handed? || answer.Wrong? || answer.Failure? || answer.Raise? || answer.Unsupported?
       case Mismatch(_) => answer.Done? || answer.Failure? || answer.Raise?
       case Verify(_) => answer.Done? || answer.Failure? || answer.Raise?
       case Cleanup(_) => answer.Done? || answer.Failure? || answer.Raise?
       case EngineStop => HasExecution(s, s.command.id, s.command.row)
                          && EndpointKnown(s, s.command.row)
                          && (answer.Done? || answer.Failure? || answer.Raise?)
       case _ => false
  }

  predicate Enabled(s: State, a: Action) {
    match a
    case BeginCreate(id, _, _, _) => s.command.Idle? && id !in s.tables.deployments
    case BeginStop(id) => s.command.Idle? && id in s.tables.deployments
    case BeginRestart(id, _, _) => s.command.Idle? && id in s.tables.deployments
    case Proceed(newId) => CanProceed(s, newId)
    case Refuse => AsksAdmission(s.command)
    case Engine(answer, newId) => CanAnswer(s, answer, newId)
    case ReadRow(reader, id) => reader !in s.readers && id in s.tables.deployments
    case ReadEndpoint(reader) => reader in s.readers && s.readers[reader].SawRow?
    case ReadEvidence(reader) => reader in s.readers && s.readers[reader].SawEndpoint?
    case Commit(reader, _) => s.command.Idle? && reader in s.readers && s.readers[reader].Inspecting?
    case Crash => true
  }

  // ----- what an action does

  function Admitted(s: State, id: DeploymentId, mark: TaskState): State {
    if id in s.broker then s.(brokerFault := true) else s.(broker := s.broker[id := mark])
  }

  function Transitioned(s: State, id: DeploymentId, mark: TaskState): State {
    if id in s.broker then s.(broker := s.broker[id := mark]) else s.(brokerFault := true)
  }

  function Completed(s: State, id: DeploymentId): State {
    if id in s.broker then s.(broker := s.broker - {id}) else s.(brokerFault := true)
  }

  function At(s: State, stage: Stage): State
    requires s.command.Busy?
  {
    s.(command := s.command.(stage := stage))
  }

  function Write(s: State, row: Deployment): State
    requires s.command.Busy?
  {
    s.(tables := SaveDeployment(s.tables, s.command.id, row), command := s.command.(row := row))
  }

  function WriteWith(s: State, row: Deployment, key: EndpointId, endpoint: Endpoint, ref: Option<ExecutionRef>): State
    requires s.command.Busy?
  {
    s.(tables := SavePair(s.tables, s.command.id, row, key, endpoint, ref), command := s.command.(row := row))
  }

  function Release(s: State): State {
    s.(command := Idle)
  }

  /** Saving rows leaves the watch, the readers, the events and the ledger alone. */
  ghost predicate Framed(s: State, s': State) {
    && s'.readers == s.readers && s'.crashed == s.crashed
    && s'.live == s.live && s'.unprepared == s.unprepared
    && s'.blindStarts == s.blindStarts && s'.doubleStarts == s.doubleStarts
    && s'.tables.events == s.tables.events && s'.tables.ledger == s.tables.ledger
  }

  function AdmitIntent(s: State, id: DeploymentId, row: Deployment, key: Option<string>, digest: string): State
    requires s.command.Busy?
  {
    At(Admitted(s, id, Accepted).(tables := CreateIntent(s.tables, id, row, key, digest)), Queue)
  }

  function PersistFailure(s: State, id: DeploymentId, row: Deployment, refs: Option<EngineHandle>, newId: EndpointId): (s': State)
    requires s.command.Busy? && s.command.id == id
    ensures Framed(s, s')
  {
    var s := if refs.Some? then
               var key := EndpointKey(row, newId);
               WriteWith(s, FailedRow(row).(endpointId := Some(key)), key,
                         NextEndpoint(s.tables, id, row, Unhealthy, refs.value.url), Some(refs.value.ref))
             else
               Write(s, FailedRow(row));
    At(Completed(s, id), FailEvent)
  }

  function PersistReady(s: State, id: DeploymentId, row: Deployment, handle: EngineHandle, newId: EndpointId): (s': State)
    requires s.command.Busy? && s.command.id == id
    ensures Framed(s, s')
  {
    var key := EndpointKey(row, newId);
    var s := WriteWith(s, ReadyRow(row, key), key, NextEndpoint(s.tables, id, row, Serving, handle.url), Some(handle.ref));
    At(Completed(s, id), FinishEvent)
  }

  function PersistStopping(s: State, id: DeploymentId, row: Deployment): (s': State)
    requires s.command.Busy? && s.command.id == id
    ensures Framed(s, s')
  {
    var s := if row.observed.Starting? || row.observed.Stopping? then Transitioned(s, id, Canceling)
             else Admitted(s, id, Canceling);
    At(Write(s, StoppingRow(row)), StopEvent)
  }

  function RetiredEndpoint(endpoint: Endpoint): Endpoint {
    endpoint.(state := Retired, version := endpoint.version + 1)
  }

  function PersistStopped(s: State, id: DeploymentId, row: Deployment): (s': State)
    requires s.command.Busy? && s.command.id == id && EndpointKnown(s, row)
    ensures Framed(s, s')
  {
    var s := if row.endpointId.Some? then
               var key := row.endpointId.value;
               WriteWith(s, StoppedRow(row), key, RetiredEndpoint(s.tables.endpoints[key]), None)
             else
               Write(s, StoppedRow(row));
    At(Completed(s, id), ReleaseEvent)
  }

  function PersistStarting(s: State, id: DeploymentId, row: Deployment, node: NodeRef): (s': State)
    requires s.command.Busy? && s.command.id == id
    ensures Framed(s, s')
  {
    At(Write(Admitted(s, id, Accepted), StartingRow(row, node)), Queue)
  }

  /** The event a stage appends, if appending is all it does. */
  function StageEvent(stage: Stage): Option<Phase> {
    match stage
    case Queue => Some(QUEUED)
    case Load => Some(LOADING)
    case Probe(_) => Some(PROBING)
    case FailEvent => Some(FAILED)
    case FinishEvent => Some(READY)
    case StopEvent => Some(STOPPING)
    case ReleaseEvent => Some(RELEASED)
    case _ => None
  }

  function AfterEvent(c: Command): Command
    requires c.Busy?
  {
    match c.stage
    case Queue => c.(stage := Dispatch)
    case Load => c.(stage := Prepare)
    case Probe(handle) => c.(stage := Verify(handle))
    case StopEvent => c.(stage := EngineStop)
    case ReleaseEvent => if c.relaunch.Some? then c.(stage := Relaunch(c.relaunch.value)) else Idle
    case _ => Idle
  }

  function AppendPhase(s: State, id: DeploymentId, phase: Phase): State
    requires s.command.Busy?
  {
    s.(tables := AppendEvent(s.tables, id, phase), command := AfterEvent(s.command))
  }

  /** The steps whose effect does not depend on an outside answer. */
  function Advance(s: State, newId: EndpointId): State
    requires CanProceed(s, newId)
  {
    var Busy(id, row, stage, _) := s.command;
    if StageEvent(stage).Some? then AppendPhase(s, id, StageEvent(stage).value)
    else
      match stage
      case Admit(key, digest) => AdmitIntent(s, id, row, key, digest)
      case Dispatch => At(Transitioned(s, id, Dispatching), Load)
      case Fail(refs) => PersistFailure(s, id, row, refs, newId)
      case Finish(handle) => PersistReady(s, id, row, handle, newId)
      case Stop => PersistStopping(s, id, row)
      case Retire => PersistStopped(s, id, row)
      case Relaunch(node) => PersistStarting(s, id, row, node)
      case _ => At(s, Retire)
  }

  function PersistPrepared(s: State, id: DeploymentId, row: Deployment, handle: EngineHandle, newId: EndpointId): (s': State)
    requires s.command.Busy? && s.command.id == id
    ensures Framed(s, s')
  {
    var key := EndpointKey(row, newId);
    At(WriteWith(s, row.(endpointId := Some(key)), key,
                 NextEndpoint(s.tables, id, row, Provisioning, handle.url), Some(handle.ref)), Start)
  }

  /** Any call of `engine.start` may have started an execution, whatever it answers. */
  function Started(s: State, id: DeploymentId, row: Deployment): State {
    s.(live := s.live + {id},
       doubleStarts := if id in s.live then s.doubleStarts + {id} else s.doubleStarts,
       blindStarts := if HasExecution(s, id, row) then s.blindStarts else s.blindStarts + {id})
  }

  function StopConfirmed(s: State, id: DeploymentId): State {
    s.(live := s.live - {id})
  }

  function AnsweredStart(s: State, id: DeploymentId, row: Deployment, answer: Answer): State
    requires s.command.Busy?
  {
    if answer.Unsupported? then At(s, Fail(None))
    else
      var s := Started(s, id, row);
      if answer.Handed? then At(s, Probe(answer.handle))
      else if answer.Wrong? then At(s, Mismatch(answer.handle))
      else if answer.Failure? then At(s, Fail(answer.refs))
      else Release(s)
  }

  /** A cleanup stop: success or a serving failure leads on, anything else ends the command. */
  function AnsweredCleanup(s: State, id: DeploymentId, answer: Answer, refs: Option<EngineHandle>): State
    requires s.command.Busy?
  {
    if answer.Done? then At(StopConfirmed(s, id), Fail(refs))
    else if answer.Failure? then At(s, Fail(refs))
    else Release(s)
  }

  /** The steps that call an engine. */
  function Answered(s: State, answer: Answer, newId: EndpointId): State
    requires CanAnswer(s, answer, newId)
  {
    var Busy(id, row, stage, _) := s.command;
    match stage
    case Prepare =>
      if answer.Handed? then PersistPrepared(s, id, row, answer.handle, newId)
      else if answer.NoHandle? then At(s.(unprepared := s.unprepared + {id}), Start)
      else Release(s)
    case Start => AnsweredStart(s, id, row, answer)
    case Mismatch(handle) => AnsweredCleanup(s, id, answer, Some(handle))
    case Cleanup(refs) => AnsweredCleanup(s, id, answer, refs)
    case Verify(handle) =>
      if answer.Done? then At(s, Finish(handle))
      else if answer.Failure? then At(s, Cleanup(answer.refs))
      else Release(s)
    case EngineStop =>
      if answer.Done? then At(StopConfirmed(s, id), Retire)
      else Release(s)
  }

  function DropReader(s: State, reader: nat): State {
    s.(readers := s.readers - {reader})
  }

  /** The compare-and-set at the end of `get_deployment`. */
  function Committed(s: State, reader: nat, ready: bool): State
    requires reader in s.readers && s.readers[reader].Inspecting?
  {
    var Inspecting(id, row, endpoint) := s.readers[reader];
    var newRow, newEndpoint := ObservedRow(row, ready), ObservedEndpoint(endpoint, ready);
    var s := DropReader(s, reader);
    if newRow.observed == row.observed && newEndpoint.state == endpoint.state then s
    else if id !in s.tables.deployments || s.tables.deployments[id].version != row.version || row.endpointId.None? then s
    else s.(tables := SavePair(s.tables, id, newRow, row.endpointId.value, newEndpoint, None))
  }

  function Apply(s: State, a: Action): State
    requires Enabled(s, a)
  {
    match a
    case BeginCreate(id, key, digest, node) =>
      if ResolveIdempotency(s.tables, key, digest).Fresh? then
        s.(command := Busy(id, Drafted(node), Admit(key, digest), None))
      else s
    case BeginStop(id) =>
      var row := s.tables.deployments[id];
      if row.observed.Stopped? then s else s.(command := Busy(id, row, Stop, None))
    case BeginRestart(id, version, node) =>
      var row := s.tables.deployments[id];
      if row.version != version then s
      else if row.observed.Stopped? then s.(command := Busy(id, row, Relaunch(node), Some(node)))
      else s.(command := Busy(id, row, Stop, Some(node)))
    case Proceed(newId) => Advance(s, newId)
    case Refuse => Release(s)
    case Engine(answer, newId) => Answered(s, answer, newId)
    case ReadRow(reader, id) =>
      var row := s.tables.deployments[id];
      if (row.observed.Ready? || row.observed.Degraded?) && row.endpointId.Some? then
        s.(readers := s.readers[reader := SawRow(id, row)])
      else s
    case ReadEndpoint(reader) =>
      var SawRow(id, row) := s.readers[reader];
      if row.endpointId.Some? && row.endpointId.value in s.tables.endpoints then
        s.(readers := s.readers[reader := SawEndpoint(id, row, s.tables.endpoints[row.endpointId.value])])
      else DropReader(s, reader)
    case ReadEvidence(reader) =>
      var SawEndpoint(id, row, endpoint) := s.readers[reader];
      if id in s.tables.evidence then s.(readers := s.readers[reader := Inspecting(id, row, endpoint)])
      else DropReader(s, reader)
    case Commit(reader, ready) => Committed(s, reader, ready)
    case Crash => s.(command := Idle, readers := map[], broker := ActiveTasks(s.tables), crashed := true)
  }

  // ----- runs

  ghost predicate Legal(s: State, run: seq<Action>)
    decreases |run|
  {
    run == [] || (Enabled(s, run[0]) && Legal(Apply(s, run[0]), run[1..]))
  }

  ghost function Exec(s: State, run: seq<Action>): State
    requires Legal(s, run)
    decreases |run|
  {
    if run == [] then s else Exec(Apply(s, run[0]), run[1..])
  }

  lemma {:induction false} ExecAppend(s: State, run: seq<Action>, a: Action)
    requires Legal(s, run) && Enabled(Exec(s, run), a)
    ensures Legal(s, run + [a]) && Exec(s, run + [a]) == Apply(Exec(s, run), a)
    decreases |run|
  {
    if run == [] {
      assert (run + [a])[1..] == [];
    } else {
      assert (run + [a])[1..] == run[1..] + [a];
      ExecAppend(Apply(s, run[0]), run[1..], a);
    }
  }
}
