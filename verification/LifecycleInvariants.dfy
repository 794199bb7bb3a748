/** What every step of the lifecycle keeps. */
module LifecycleInvariants {
  import opened Options
  import opened Domain
  import opened ProductStore
  import opened Lifecycle

  function Lookup<K, V>(m: map<K, V>, key: K): Option<V> {
    if key in m then Some(m[key]) else None
  }

  // ----- what holds of the rows of one deployment

  function EndpointOf(t: Tables, row: Deployment): Option<Endpoint> {
    if row.endpointId.Some? then Lookup(t.endpoints, row.endpointId.value) else None
  }

  ghost predicate StateAgrees(row: Deployment, endpoint: Option<Endpoint>) {
    match row.observed
    case Ready => endpoint.Some? && endpoint.value.state.Serving? && row.failure.None?
    case Degraded => endpoint.Some? && endpoint.value.state.Unhealthy? && row.failure == Some(ExecutionUnavailable)
    case Stopped => endpoint.None? || endpoint.value.state.Retired?
    case Starting => (endpoint.None? || endpoint.value.state.Provisioning? || endpoint.value.state.Retired?) && row.failure.None?
    case Failed => (endpoint.Some? ==> !endpoint.value.state.Serving?) && row.failure == Some(StartFailed)
    case Stopping => true
  }

  ghost predicate RowInv(t: Tables, id: DeploymentId)
    requires id in t.deployments
  {
    var row := t.deployments[id];
    && row.version >= 1
    && (row.desired.StopRequested? <==> row.observed.Stopping? || row.observed.Stopped?)
    && (row.endpointId.Some? <==> id in t.evidence)
    && (row.endpointId.Some? ==> row.endpointId.value in t.endpoints && t.endpoints[row.endpointId.value].owner == id)
    && StateAgrees(row, EndpointOf(t, row))
  }

  ghost predicate TablesInv(t: Tables) {
    && (forall id | id in t.deployments :: RowInv(t, id))
    && (forall id | id in t.evidence :: id in t.deployments)
    && (forall e | e in t.endpoints ::
          t.endpoints[e].owner in t.deployments && t.deployments[t.endpoints[e].owner].endpointId == Some(e))
    && (forall id | id in t.events :: Dense(t.events[id]))
  }

  // ----- what the command under way knows

  ghost predicate StageRow(stage: Stage, row: Deployment) {
    match stage
    case Stop => !row.observed.Stopped?
    case StopEvent => row.observed.Stopping?
    case EngineStop => row.observed.Stopping?
    case Retire => row.observed.Stopping?
    case ReleaseEvent => row.observed.Stopped?
    case Relaunch(_) => row.observed.Stopped?
    case FailEvent => row.observed.Failed?
    case FinishEvent => row.observed.Ready?
    case _ => row.observed.Starting?
  }

  ghost predicate CommandInv(s: State) {
    s.command.Busy? ==>
      var Busy(id, row, stage, _) := s.command;
      && StageRow(stage, row)
      && if stage.Admit? then
           id !in s.tables.deployments && row == Drafted(row.node)
           && ResolveIdempotency(s.tables, stage.key, stage.digest).Fresh?
         else
           id in s.tables.deployments && s.tables.deployments[id] == row
  }

  // ----- broker

  function StageMark(stage: Stage, row: Deployment): Option<TaskState> {
    match stage
    case Admit(_, _) => None
    case Queue => Some(Accepted)
    case Dispatch => Some(Accepted)
    case FailEvent => None
    case FinishEvent => None
    case Stop => TaskMark(row.observed)
    case StopEvent => Some(Canceling)
    case EngineStop => Some(Canceling)
    case Retire => Some(Canceling)
    case ReleaseEvent => None
    case Relaunch(_) => None
    case _ => Some(Dispatching)
  }

  /** What the broker should have on record for a deployment: away from the command under way,
      exactly what `list_active_activity_tasks` would report. */
  function ExpectedMark(s: State, id: DeploymentId): Option<TaskState> {
    if s.command.Busy? && s.command.id == id then StageMark(s.command.stage, s.command.row)
    else if id in s.tables.deployments then TaskMark(s.tables.deployments[id].observed)
    else None
  }

  ghost predicate BrokerInv(s: State) {
    && !s.brokerFault
    && forall id :: Lookup(s.broker, id) == ExpectedMark(s, id)
  }

  // ----- engine starts

  predicate BeforeStart(stage: Stage) {
    stage.Admit? || stage.Queue? || stage.Dispatch? || stage.Load? || stage.Prepare? || stage.Start?
    || stage.Retire? || stage.ReleaseEvent? || stage.Relaunch?
  }

  ghost predicate LiveInv(s: State, id: DeploymentId) {
    id in s.live ==>
      && id in s.tables.deployments
      && (id !in s.blindStarts ==>
            && id in s.tables.evidence
            && !s.tables.deployments[id].observed.Stopped?
            && !(s.command.Busy? && s.command.id == id && BeforeStart(s.command.stage)))
  }

  ghost predicate EngineInv(s: State) {
    && (forall id :: LiveInv(s, id))
    && s.doubleStarts <= s.blindStarts <= s.unprepared
    && (s.command.Busy? && s.command.stage.Start? && s.command.id !in s.tables.evidence ==> s.command.id in s.unprepared)
  }

  // ----- event log

  /** The phase that may follow another in a run without a crash. */
  predicate Follows(next: Phase, last: Option<Phase>) {
    match next
    case QUEUED => last.None? || last.value.RELEASED?
    case LOADING => last == Some(QUEUED)
    case PROBING => last == Some(LOADING)
    case READY => last == Some(PROBING)
    case FAILED => last == Some(LOADING) || last == Some(PROBING)
    case STOPPING => last.Some? && (last.value.LOADING? || last.value.PROBING? || last.value.READY? || last.value.FAILED? || last.value.STOPPING?)
    case RELEASED => last == Some(STOPPING)
  }

  function LastPhase(log: seq<Event>): Option<Phase> {
    if log == [] then None else Some(log[|log| - 1].phase)
  }

  /** The log is accepted by the phase automaton. */
  ghost predicate InOrder(log: seq<Event>) {
    forall i | 0 <= i < |log| :: Follows(log[i].phase, LastPhase(log[..i]))
  }

  /** The observed state the last phase stands for. */
  predicate PhaseTells(last: Option<Phase>, observed: ObservedState) {
    match last
    case None => false
    case Some(phase) => (
      match phase
      case QUEUED => false
      case LOADING => observed.Starting?
      case PROBING => observed.Starting?
      case READY => observed.Ready? || observed.Degraded?
      case FAILED => observed.Failed?
      case STOPPING => observed.Stopping?
      case RELEASED => observed.Stopped?)
  }

  predicate StagePhase(stage: Stage, row: Deployment, last: Option<Phase>) {
    match stage
    case Admit(_, _) => last.None?
    case Queue => last.None? || last.value.RELEASED?
    case Dispatch => last == Some(QUEUED)
    case Load => last == Some(QUEUED)
    case Prepare => last == Some(LOADING)
    case Start => last == Some(LOADING)
    case Mismatch(_) => last == Some(LOADING)
    case Probe(_) => last == Some(LOADING)
    case Verify(_) => last == Some(PROBING)
    case Cleanup(_) => last == Some(PROBING)
    case Finish(_) => last == Some(PROBING)
    case FinishEvent => last == Some(PROBING)
    case Fail(_) => last == Some(LOADING) || last == Some(PROBING)
    case FailEvent => last == Some(LOADING) || last == Some(PROBING)
    case Stop => PhaseTells(last, row.observed)
    case StopEvent => Follows(STOPPING, last)
    case EngineStop => last == Some(STOPPING)
    case Retire => last == Some(STOPPING)
    case ReleaseEvent => last == Some(STOPPING)
    case Relaunch(_) => last == Some(RELEASED)
  }

  ghost predicate LogInv(s: State, id: DeploymentId) {
    var log := EventsOf(s.tables, id);
    && InOrder(log)
    && if s.command.Busy? && s.command.id == id then StagePhase(s.command.stage, s.command.row, LastPhase(log))
       else if id in s.tables.deployments then PhaseTells(LastPhase(log), s.tables.deployments[id].observed)
       else log == []
  }

  // ----- readers outside the lock

  ghost predicate ReaderInv(t: Tables, r: Reader) {
    && r.id in t.deployments
    && (r.row.observed.Ready? || r.row.observed.Degraded?)
    && r.row.endpointId.Some?
    && t.deployments[r.id].endpointId == r.row.endpointId
    && r.row.version <= t.deployments[r.id].version
    && (r.row.version == t.deployments[r.id].version ==>
          && t.deployments[r.id] == r.row
          && (!r.SawRow? ==> Lookup(t.endpoints, r.row.endpointId.value) == Some(r.endpoint)))
    && (!r.SawRow? ==> r.endpoint.owner == r.id)
  }

  ghost predicate Inv(s: State) {
    && TablesInv(s.tables)
    && CommandInv(s)
    && BrokerInv(s)
    && EngineInv(s)
    && (!s.crashed ==> forall id :: LogInv(s, id))
    && (forall r | r in s.readers :: ReaderInv(s.tables, s.readers[r]))
  }

  lemma InitialInv()
    ensures Inv(INITIAL)
  {
  }

  // ----- store transactions

  lemma SaveDeploymentKeeps(t: Tables, id: DeploymentId, row: Deployment)
    requires TablesInv(t) && id in t.deployments
    requires row.endpointId == t.deployments[id].endpointId && RowInv(SaveDeployment(t, id, row), id)
    ensures TablesInv(SaveDeployment(t, id, row))
  {
  }

  /** A pair is written under the deployment's own endpoint id, or under a new one if it has none:
      so the replacement deletes no other row. */
  ghost predicate OwnKey(t: Tables, id: DeploymentId, key: EndpointId) {
    id in t.deployments && (t.deployments[id].endpointId == Some(key) || (t.deployments[id].endpointId.None? && key !in t.endpoints))
  }

  lemma ReplaceIsUpdate(t: Tables, id: DeploymentId, key: EndpointId, endpoint: Endpoint)
    requires TablesInv(t) && OwnKey(t, id, key) && endpoint.owner == id
    ensures ReplaceEndpoint(t.endpoints, key, endpoint) == t.endpoints[key := endpoint]
  {
    forall e | e in t.endpoints && e != key
      ensures t.endpoints[e].owner != id
    {
    }
  }

  lemma SavePairKeeps(t: Tables, id: DeploymentId, row: Deployment, key: EndpointId, endpoint: Endpoint, ref: Option<ExecutionRef>)
    requires TablesInv(t) && OwnKey(t, id, key) && endpoint.owner == id
    requires row.endpointId == Some(key) && RowInv(SavePair(t, id, row, key, endpoint, ref), id)
    ensures TablesInv(SavePair(t, id, row, key, endpoint, ref))
    ensures SavePair(t, id, row, key, endpoint, ref).endpoints == t.endpoints[key := endpoint]
  {
    ReplaceIsUpdate(t, id, key, endpoint);
    var t' := SavePair(t, id, row, key, endpoint, ref);
    forall o | o in t'.deployments
      ensures RowInv(t', o)
    {
      if o != id {
        assert RowInv(t, o);
      }
    }
  }

  lemma AppendEventKeeps(t: Tables, id: DeploymentId, phase: Phase)
    requires TablesInv(t)
    ensures TablesInv(AppendEvent(t, id, phase))
    ensures EventsOf(AppendEvent(t, id, phase), id) == EventsOf(t, id) + [Event(|EventsOf(t, id)| + 1, phase)]
  {
    MaxOfDense(EventsOf(t, id));
    var t' := AppendEvent(t, id, phase);
    forall o | o in t'.deployments
      ensures RowInv(t', o)
    {
      assert RowInv(t, o);
    }
  }

  // ----- the two-state guarantee

  /** How the rows of one deployment may change in a step.  A version grows by at most one; it grows
      with every change of the row except the prepare write, which happens in STARTING and sets
      nothing but the endpoint id; an endpoint id, once set, stays; an endpoint row never vanishes and
      each write of it adds one to its version, together with the deployment's unless that is
      STARTING. */
  ghost predicate Moves(t: Tables, t': Tables, id: DeploymentId) {
    id in t.deployments ==>
      && id in t'.deployments
      && var r, r' := t.deployments[id], t'.deployments[id];
      && (r' == r || r'.version == r.version + 1
          || (r.observed.Starting? && r' == r.(endpointId := r'.endpointId)))
      && (r'.observed != r.observed ==> r'.version == r.version + 1)
      && (r.endpointId.Some? ==> r'.endpointId == r.endpointId)
      && (r.endpointId.Some? && r.endpointId.value in t.endpoints ==>
            && r.endpointId.value in t'.endpoints
            && var e, e' := t.endpoints[r.endpointId.value], t'.endpoints[r.endpointId.value];
            && (e' == e || (e'.version == e.version + 1 && (r'.version == r.version + 1 || r.observed.Starting?))))
  }
}
