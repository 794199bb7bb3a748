/** Every step of the lifecycle keeps the invariant. */
module LifecycleSteps {
  import opened Options
  import opened Domain
  import opened ProductStore
  import opened Lifecycle
  import opened LifecycleInvariants

  // ----- one step

  lemma TablesStep(s: State, a: Action)
    requires Inv(s) && Enabled(s, a)
    ensures TablesInv(Apply(s, a).tables)
  {
    hide TablesInv, BrokerInv, EngineInv, LogInv, CommandInv, ReaderInv, Advance, Answered, Committed;
    match a
    case Proceed(newId) => TablesAdvance(s, newId);
    case Engine(answer, newId) => TablesAnswer(s, answer, newId);
    case Commit(reader, ready) => TablesCommit(s, reader, ready);
    case _ =>
  }

  lemma TablesCommit(s: State, reader: nat, ready: bool)
    requires TablesInv(s.tables) && reader in s.readers && s.readers[reader].Inspecting?
    requires ReaderInv(s.tables, s.readers[reader])
    ensures TablesInv(Committed(s, reader, ready).tables)
  {
    var r := s.readers[reader];
    var s' := Committed(s, reader, ready);
    if s'.tables != s.tables {
      SavePairKeeps(s.tables, r.id, ObservedRow(r.row, ready), r.row.endpointId.value, ObservedEndpoint(r.endpoint, ready), None);
    }
  }

  lemma TablesAdvance(s: State, newId: EndpointId)
    requires TablesInv(s.tables) && CommandInv(s) && CanProceed(s, newId)
    ensures TablesInv(Advance(s, newId).tables)
  {
    hide TablesInv;
    var Busy(id, row, stage, _) := s.command;
    if StageEvent(stage).Some? {
      AppendEventKeeps(s.tables, id, StageEvent(stage).value);
    } else {
      match stage
      case Admit(key, digest) => TablesAdmit(s.tables, id, row, key, digest);
      case Fail(refs) => TablesFailure(s, id, row, refs, newId);
      case Finish(handle) => TablesReady(s, id, row, handle, newId);
      case Retire => TablesStopped(s, id, row);
      case Stop => TablesRewritten(s.tables, id, StoppingRow(row));
      case Relaunch(node) => TablesRewritten(s.tables, id, StartingRow(row, node));
      case _ =>
    }
  }

  lemma TablesRewritten(t: Tables, id: DeploymentId, row: Deployment)
    requires TablesInv(t) && id in t.deployments
    requires var old_ := t.deployments[id];
             || row == StoppingRow(old_)
             || (old_.observed.Stopped? && row == StartingRow(old_, row.node))
             || (old_.observed.Starting? && row == FailedRow(old_))
             || (old_.observed.Stopping? && old_.endpointId.None? && row == StoppedRow(old_))
    ensures TablesInv(SaveDeployment(t, id, row))
  {
    SaveDeploymentKeeps(t, id, row);
  }

  lemma TablesFailure(s: State, id: DeploymentId, row: Deployment, refs: Option<EngineHandle>, newId: EndpointId)
    requires TablesInv(s.tables) && CommandInv(s) && CanProceed(s, newId) && s.command.stage == Fail(refs)
    requires s.command.id == id && s.command.row == row
    ensures TablesInv(PersistFailure(s, id, row, refs, newId).tables)
  {
    if refs.Some? {
      var key := EndpointKey(row, newId);
      SavePairKeeps(s.tables, id, FailedRow(row).(endpointId := Some(key)), key,
                    NextEndpoint(s.tables, id, row, Unhealthy, refs.value.url), Some(refs.value.ref));
    } else {
      TablesRewritten(s.tables, id, FailedRow(row));
    }
  }

  lemma TablesReady(s: State, id: DeploymentId, row: Deployment, handle: EngineHandle, newId: EndpointId)
    requires TablesInv(s.tables) && CommandInv(s) && CanProceed(s, newId) && s.command.stage == Finish(handle)
    requires s.command.id == id && s.command.row == row
    ensures TablesInv(PersistReady(s, id, row, handle, newId).tables)
  {
    var key := EndpointKey(row, newId);
    SavePairKeeps(s.tables, id, ReadyRow(row, key), key,
                  NextEndpoint(s.tables, id, row, Serving, handle.url), Some(handle.ref));
  }

  lemma TablesStopped(s: State, id: DeploymentId, row: Deployment)
    requires TablesInv(s.tables) && CommandInv(s) && s.command.Busy? && s.command.stage.Retire?
    requires s.command.id == id && s.command.row == row && EndpointKnown(s, row)
    ensures TablesInv(PersistStopped(s, id, row).tables)
  {
    if row.endpointId.Some? {
      var key := row.endpointId.value;
      SavePairKeeps(s.tables, id, StoppedRow(row), key, RetiredEndpoint(s.tables.endpoints[key]), None);
    } else {
      TablesRewritten(s.tables, id, StoppedRow(row));
    }
  }

  lemma TablesAdmit(t: Tables, id: DeploymentId, row: Deployment, key: Option<string>, digest: string)
    requires TablesInv(t) && id !in t.deployments && row == Drafted(row.node)
    ensures TablesInv(CreateIntent(t, id, row, key, digest))
  {
    var t' := CreateIntent(t, id, row, key, digest);
    forall o | o in t'.deployments
      ensures RowInv(t', o)
    {
      if o != id {
        assert RowInv(t, o);
      }
    }
  }

  lemma TablesAnswer(s: State, answer: Answer, newId: EndpointId)
    requires Inv(s) && CanAnswer(s, answer, newId)
    ensures TablesInv(Answered(s, answer, newId).tables)
  {
    var Busy(id, row, stage, _) := s.command;
    if stage.Prepare? && answer.Handed? {
      var key := EndpointKey(row, newId);
      SavePairKeeps(s.tables, id, row.(endpointId := Some(key)), key,
                    NextEndpoint(s.tables, id, row, Provisioning, answer.handle.url), Some(answer.handle.ref));
    }
  }

  lemma SavePairMoves(t: Tables, id: DeploymentId, row: Deployment, key: EndpointId, endpoint: Endpoint, ref: Option<ExecutionRef>)
    requires TablesInv(t) && OwnKey(t, id, key) && endpoint.owner == id && row.endpointId == Some(key)
    requires var r := t.deployments[id];
             || row.version == r.version + 1
             || (r.observed.Starting? && row == r.(endpointId := row.endpointId))
    requires key in t.endpoints ==> endpoint.version == t.endpoints[key].version + 1
    ensures forall o :: Moves(t, SavePair(t, id, row, key, endpoint, ref), o)
  {
    ReplaceIsUpdate(t, id, key, endpoint);
    var t' := SavePair(t, id, row, key, endpoint, ref);
    forall o
      ensures Moves(t, t', o)
    {
      if o != id && o in t.deployments {
        assert RowInv(t, o);
      }
    }
  }

  lemma StepMoves(s: State, a: Action)
    requires Inv(s) && Enabled(s, a)
    ensures forall id :: Moves(s.tables, Apply(s, a).tables, id)
  {
    hide TablesInv, Moves;
    match a
    case Proceed(newId) => AdvanceMoves(s, newId);
    case Engine(answer, newId) => AnswerMoves(s, answer, newId);
    case Commit(reader, ready) => CommitMoves(s, reader, ready);
    case _ => SameMoves(s.tables);
  }

  lemma SameMoves(t: Tables)
    ensures forall id :: Moves(t, t, id)
  {
  }

  lemma RowMoves(t: Tables, id: DeploymentId, row: Deployment)
    requires TablesInv(t) && id in t.deployments
    requires row.version == t.deployments[id].version + 1 && row.endpointId == t.deployments[id].endpointId
    ensures forall o :: Moves(t, SaveDeployment(t, id, row), o)
  {
  }

  lemma IntentMoves(t: Tables, id: DeploymentId, row: Deployment, key: Option<string>, digest: string)
    requires id !in t.deployments
    ensures forall o :: Moves(t, CreateIntent(t, id, row, key, digest), o)
  {
  }

  lemma EventMoves(t: Tables, id: DeploymentId, phase: Phase)
    ensures forall o :: Moves(t, AppendEvent(t, id, phase), o)
  {
  }

  lemma AdvanceMoves(s: State, newId: EndpointId)
    requires TablesInv(s.tables) && CommandInv(s) && CanProceed(s, newId)
    ensures forall id :: Moves(s.tables, Advance(s, newId).tables, id)
  {
    hide TablesInv, Moves;
    var Busy(id, row, stage, _) := s.command;
    if StageEvent(stage).Some? {
      EventMoves(s.tables, id, StageEvent(stage).value);
    } else {
      match stage
      case Admit(key, digest) => IntentMoves(s.tables, id, row, key, digest);
      case Fail(refs) => FailureMoves(s, id, row, refs, newId);
      case Finish(handle) => ReadyMoves(s, id, row, handle, newId);
      case Retire => StoppedMoves(s, id, row);
      case Stop => RowMoves(s.tables, id, StoppingRow(row));
      case Relaunch(node) => RowMoves(s.tables, id, StartingRow(row, node));
      case _ => SameMoves(s.tables);
    }
  }

  lemma FailureMoves(s: State, id: DeploymentId, row: Deployment, refs: Option<EngineHandle>, newId: EndpointId)
    requires TablesInv(s.tables) && CommandInv(s) && CanProceed(s, newId) && s.command.stage == Fail(refs)
    requires s.command.id == id && s.command.row == row
    ensures forall o :: Moves(s.tables, PersistFailure(s, id, row, refs, newId).tables, o)
  {
    hide TablesInv, Moves;
    if refs.Some? {
      SavePairMoves(s.tables, id, FailedRow(row).(endpointId := Some(EndpointKey(row, newId))), EndpointKey(row, newId),
                    NextEndpoint(s.tables, id, row, Unhealthy, refs.value.url), Some(refs.value.ref));
    } else {
      RowMoves(s.tables, id, FailedRow(row));
    }
  }

  lemma ReadyMoves(s: State, id: DeploymentId, row: Deployment, handle: EngineHandle, newId: EndpointId)
    requires TablesInv(s.tables) && CommandInv(s) && CanProceed(s, newId) && s.command.stage == Finish(handle)
    requires s.command.id == id && s.command.row == row
    ensures forall o :: Moves(s.tables, PersistReady(s, id, row, handle, newId).tables, o)
  {
    hide TablesInv, Moves;
    var key := EndpointKey(row, newId);
    SavePairMoves(s.tables, id, ReadyRow(row, key), key, NextEndpoint(s.tables, id, row, Serving, handle.url), Some(handle.ref));
  }

  lemma StoppedMoves(s: State, id: DeploymentId, row: Deployment)
    requires TablesInv(s.tables) && CommandInv(s) && s.command.Busy? && s.command.stage.Retire?
    requires s.command.id == id && s.command.row == row && EndpointKnown(s, row)
    ensures forall o :: Moves(s.tables, PersistStopped(s, id, row).tables, o)
  {
    if row.endpointId.Some? {
      var key := row.endpointId.value;
      assert RowInv(s.tables, id);
      SavePairMoves(s.tables, id, StoppedRow(row), key, RetiredEndpoint(s.tables.endpoints[key]), None);
    } else {
      RowMoves(s.tables, id, StoppedRow(row));
    }
  }

  lemma AnswerMoves(s: State, answer: Answer, newId: EndpointId)
    requires TablesInv(s.tables) && CommandInv(s) && CanAnswer(s, answer, newId)
    ensures forall id :: Moves(s.tables, Answered(s, answer, newId).tables, id)
  {
    hide TablesInv, Moves;
    var Busy(id, row, stage, _) := s.command;
    if stage.Prepare? && answer.Handed? {
      var key := EndpointKey(row, newId);
      SavePairMoves(s.tables, id, row.(endpointId := Some(key)), key,
                    NextEndpoint(s.tables, id, row, Provisioning, answer.handle.url), Some(answer.handle.ref));
    } else {
      SameMoves(s.tables);
    }
  }

  lemma CommitMoves(s: State, reader: nat, ready: bool)
    requires TablesInv(s.tables) && reader in s.readers && s.readers[reader].Inspecting?
    requires ReaderInv(s.tables, s.readers[reader])
    ensures forall id :: Moves(s.tables, Committed(s, reader, ready).tables, id)
  {
    hide TablesInv, Moves;
    var r := s.readers[reader];
    if Committed(s, reader, ready).tables == s.tables {
      SameMoves(s.tables);
    } else {
      SavePairMoves(s.tables, r.id, ObservedRow(r.row, ready), r.row.endpointId.value, ObservedEndpoint(r.endpoint, ready), None);
    }
  }

  lemma ReadersStep(s: State, a: Action)
    requires Inv(s) && Enabled(s, a)
    ensures var s' := Apply(s, a); forall r | r in s'.readers :: ReaderInv(s'.tables, s'.readers[r])
  {
    StepMoves(s, a);
    var s' := Apply(s, a);
    forall r | r in s'.readers
      ensures ReaderInv(s'.tables, s'.readers[r])
    {
      if r in s.readers && s'.readers[r] == s.readers[r] {
        ReaderKept(s.tables, s'.tables, s.readers[r]);
      } else {
        ReaderReads(s, a, r);
      }
    }
  }

  /** The heart of the compare-and-set: a row read as READY or DEGRADED can only be at the version
      it was read with if neither it nor its endpoint has been written since. */
  lemma ReaderKept(t: Tables, t': Tables, r: Reader)
    requires TablesInv(t) && ReaderInv(t, r) && Moves(t, t', r.id)
    ensures ReaderInv(t', r)
  {
    assert RowInv(t, r.id);
  }

  lemma ReaderReads(s: State, a: Action, r: nat)
    requires Inv(s) && Enabled(s, a) && r in Apply(s, a).readers
    requires r in s.readers ==> Apply(s, a).readers[r] != s.readers[r]
    ensures ReaderInv(Apply(s, a).tables, Apply(s, a).readers[r])
  {
    hide TablesInv, CommandInv, BrokerInv, EngineInv, LogInv, ReaderInv, Advance, Answered, Committed;
    match a
    case Proceed(newId) => AdvanceReaders(s, newId);
    case Engine(answer, newId) => AnswerReaders(s, answer, newId);
    case ReadRow(_, id) => EndpointKept(s.tables, id); FirstRead(s, r, id);
    case ReadEndpoint(_) => LaterRead(s, a, r);
    case ReadEvidence(_) => LaterRead(s, a, r);
    case Commit(reader, ready) => CommitReaders(s, reader, ready);
    case _ =>
  }

  lemma FirstRead(s: State, reader: nat, id: DeploymentId)
    requires reader !in s.readers && id in s.tables.deployments && reader in Apply(s, ReadRow(reader, id)).readers
    ensures ReaderInv(s.tables, Apply(s, ReadRow(reader, id)).readers[reader])
  {
  }

  lemma LaterRead(s: State, a: Action, reader: nat)
    requires Enabled(s, a) && ((a.ReadEndpoint? && a.reader == reader) || (a.ReadEvidence? && a.reader == reader))
    requires TablesInv(s.tables) && ReaderInv(s.tables, s.readers[reader]) && reader in Apply(s, a).readers
    ensures ReaderInv(s.tables, Apply(s, a).readers[reader])
  {
    hide TablesInv, Advance, Answered, Committed;
    EndpointKept(s.tables, s.readers[reader].id);
  }

  lemma CommitReaders(s: State, reader: nat, ready: bool)
    requires reader in s.readers && s.readers[reader].Inspecting?
    ensures Committed(s, reader, ready).readers == s.readers - {reader}
  {
    hide SavePair;
  }

  lemma EndpointKept(t: Tables, id: DeploymentId)
    requires TablesInv(t) && id in t.deployments
    ensures var row := t.deployments[id];
            row.endpointId.Some? ==> row.endpointId.value in t.endpoints && t.endpoints[row.endpointId.value].owner == id
  {
    assert RowInv(t, id);
  }

  lemma AdvanceReaders(s: State, newId: EndpointId)
    requires CanProceed(s, newId)
    ensures Advance(s, newId).readers == s.readers
  {
    hide PersistFailure, PersistReady, PersistStopping, PersistStopped, PersistStarting;
  }

  lemma AnswerReaders(s: State, answer: Answer, newId: EndpointId)
    requires CanAnswer(s, answer, newId)
    ensures Answered(s, answer, newId).readers == s.readers
  {
    hide PersistPrepared;
  }

  // ----- a command's step touches one deployment only

  /** Everything but the rows, the broker entry and the watch entries of `id` is as before. */
  ghost predicate Local(s: State, s': State, id: DeploymentId) {
    && s'.crashed == s.crashed
    && (s'.command.Busy? ==> s'.command.id == id)
    && forall o | o != id ::
         && Lookup(s'.tables.deployments, o) == Lookup(s.tables.deployments, o)
         && Lookup(s'.tables.evidence, o) == Lookup(s.tables.evidence, o)
         && EventsOf(s'.tables, o) == EventsOf(s.tables, o)
         && Lookup(s'.broker, o) == Lookup(s.broker, o)
         && (o in s'.live <==> o in s.live)
         && (o in s'.blindStarts <==> o in s.blindStarts)
  }

  /** What holds of the deployment the command works on, seen from every side. */
  ghost predicate Own(s: State, id: DeploymentId) {
    && CommandInv(s)
    && !s.brokerFault
    && Lookup(s.broker, id) == ExpectedMark(s, id)
    && LiveInv(s, id)
    && s.doubleStarts <= s.blindStarts <= s.unprepared
    && (s.command.Busy? && s.command.stage.Start? && id !in s.tables.evidence ==> id in s.unprepared)
    && (!s.crashed ==> LogInv(s, id))
  }

  ghost predicate Others(s: State, id: DeploymentId) {
    forall o | o != id ::
      && Lookup(s.broker, o) == ExpectedMark(s, o)
      && LiveInv(s, o)
      && (!s.crashed ==> LogInv(s, o))
  }

  ghost predicate Running(s: State, id: DeploymentId) {
    s.command.Busy? && s.command.id == id && TablesInv(s.tables) && Own(s, id)
  }

  lemma InOrderAppend(log: seq<Event>, event: Event)
    requires InOrder(log) && Follows(event.phase, LastPhase(log))
    ensures InOrder(log + [event]) && LastPhase(log + [event]) == Some(event.phase)
  {
    var log' := log + [event];
    forall i | 0 <= i < |log'|
      ensures Follows(log'[i].phase, LastPhase(log'[..i]))
    {
      if i < |log| {
        assert log'[..i] == log[..i];
      } else {
        assert log'[..i] == log;
      }
    }
  }

  lemma AppendPhaseOwn(s: State, id: DeploymentId)
    requires Running(s, id) && StageEvent(s.command.stage).Some?
    ensures var s' := AppendPhase(s, id, StageEvent(s.command.stage).value); Local(s, s', id) && Own(s', id)
  {
    hide TablesInv, InOrder, MaxSequence, LogInv, Follows;
    var phase := StageEvent(s.command.stage).value;
    AppendPhaseLog(s, id);
    AfterEventFits(s, s.command);
    EventsOnly(s.tables, id, phase);
    hide AppendEvent, AfterEvent, StageEvent, StageRow, StageMark, EventsOf, TaskMark, BeforeStart;
  }

  /** The next stage rests on the same row and the same open task, and comes no nearer to a start. */
  lemma AfterEventFits(s: State, c: Command)
    requires c.Busy? && StageEvent(c.stage).Some? && StageRow(c.stage, c.row)
    ensures !c.stage.Admit? && !c.stage.Start?
    ensures var after := AfterEvent(c);
      if after.Busy? then
        && after.id == c.id && after.row == c.row && StageRow(after.stage, c.row) && !after.stage.Admit? && !after.stage.Start?
        && StageMark(after.stage, c.row) == StageMark(c.stage, c.row)
        && (BeforeStart(after.stage) ==> BeforeStart(c.stage) || !c.row.observed.Starting?)
      else StageMark(c.stage, c.row) == TaskMark(c.row.observed)
  {
  }

  /** The event of a stage may follow, and leaves the log where the next stage expects it. */
  lemma PhaseFits(c: Command, last: Option<Phase>)
    requires c.Busy? && StageEvent(c.stage).Some? && StageRow(c.stage, c.row) && StagePhase(c.stage, c.row, last)
    ensures var phase, after := StageEvent(c.stage).value, AfterEvent(c);
      && Follows(phase, last) && !c.stage.Admit?
      && if after.Busy? then after.id == c.id && StagePhase(after.stage, after.row, Some(phase))
         else PhaseTells(Some(phase), c.row.observed)
  {
    match c.stage
    case Queue =>
    case Load =>
    case Probe(_) =>
    case FailEvent =>
    case FinishEvent =>
    case StopEvent =>
    case _ =>
  }

  lemma AppendPhaseLog(s: State, id: DeploymentId)
    requires Running(s, id) && StageEvent(s.command.stage).Some?
    ensures !s.crashed ==> LogInv(AppendPhase(s, id, StageEvent(s.command.stage).value), id)
  {
    hide TablesInv, InOrder, MaxSequence, AppendEvent, StagePhase, PhaseTells, Follows, AfterEvent, StageEvent, StageRow;
    var phase := StageEvent(s.command.stage).value;
    AppendEventKeeps(s.tables, id, phase);
    if !s.crashed {
      var log := EventsOf(s.tables, id);
      PhaseFits(s.command, LastPhase(log));
      InOrderAppend(log, Event(|log| + 1, phase));
      EventsOnly(s.tables, id, phase);
    }
  }

  lemma EventsOnly(t: Tables, id: DeploymentId, phase: Phase)
    ensures var t' := AppendEvent(t, id, phase);
      && t'.deployments == t.deployments && t'.endpoints == t.endpoints && t'.evidence == t.evidence && t'.ledger == t.ledger
      && forall o | o != id :: EventsOf(t', o) == EventsOf(t, o)
  {
    hide MaxSequence;
  }

  lemma AdmitOwn(s: State, id: DeploymentId, row: Deployment, key: Option<string>, digest: string)
    requires Running(s, id) && s.command.stage == Admit(key, digest) && s.command.row == row
    ensures var s' := AdmitIntent(s, id, row, key, digest); Local(s, s', id) && Own(s', id)
  {
    hide InOrder, ReplaceEndpoint, NextEndpoint;
  }

  lemma FailureOwn(s: State, id: DeploymentId, row: Deployment, refs: Option<EngineHandle>, newId: EndpointId)
    requires Running(s, id) && s.command.stage == Fail(refs) && s.command.row == row
    ensures var s' := PersistFailure(s, id, row, refs, newId); Local(s, s', id) && Own(s', id)
  {
    hide InOrder, ReplaceEndpoint, NextEndpoint, TablesInv;
  }

  lemma ReadyOwn(s: State, id: DeploymentId, row: Deployment, handle: EngineHandle, newId: EndpointId)
    requires Running(s, id) && s.command.stage == Finish(handle) && s.command.row == row
    ensures var s' := PersistReady(s, id, row, handle, newId); Local(s, s', id) && Own(s', id)
  {
    hide InOrder, ReplaceEndpoint, NextEndpoint, TablesInv;
  }

  lemma StoppingOwn(s: State, id: DeploymentId, row: Deployment)
    requires Running(s, id) && s.command.stage.Stop? && s.command.row == row
    ensures var s' := PersistStopping(s, id, row); Local(s, s', id) && Own(s', id)
  {
    hide InOrder, ReplaceEndpoint, NextEndpoint, TablesInv;
  }

  lemma StoppedOwn(s: State, id: DeploymentId, row: Deployment)
    requires Running(s, id) && s.command.stage.Retire? && s.command.row == row && EndpointKnown(s, row)
    ensures var s' := PersistStopped(s, id, row); Local(s, s', id) && Own(s', id)
  {
    hide InOrder, ReplaceEndpoint, NextEndpoint, TablesInv;
  }

  lemma StartingOwn(s: State, id: DeploymentId, row: Deployment, node: NodeRef)
    requires Running(s, id) && s.command.stage == Relaunch(node) && s.command.row == row
    ensures var s' := PersistStarting(s, id, row, node); Local(s, s', id) && Own(s', id)
  {
    hide InOrder, ReplaceEndpoint, NextEndpoint, TablesInv;
  }

  /** The steps that write no row: the transition to DISPATCHING, and a stop that has no execution. */
  lemma DispatchOwn(s: State, id: DeploymentId)
    requires Running(s, id) && s.command.stage.Dispatch?
    ensures var s' := At(Transitioned(s, id, Dispatching), Load); Local(s, s', id) && Own(s', id)
  {
    hide InOrder, TablesInv, EventsOf;
  }

  lemma NothingToStop(s: State, id: DeploymentId)
    requires Running(s, id) && s.command.stage.EngineStop? && !HasExecution(s, id, s.command.row)
    ensures var s' := At(s, Retire); Local(s, s', id) && Own(s', id)
  {
    EvidenceKnown(s.tables, id);
    hide InOrder, TablesInv, EventsOf;
  }

  lemma AdvanceOwn(s: State, newId: EndpointId)
    requires CanProceed(s, newId) && Running(s, s.command.id)
    ensures Local(s, Advance(s, newId), s.command.id) && Own(Advance(s, newId), s.command.id)
  {
    hide Running, Own, Local, AppendPhase, AdmitIntent, PersistFailure, PersistReady, PersistStopped, PersistStopping, PersistStarting;
    hide Transitioned;
    var Busy(id, row, stage, _) := s.command;
    if StageEvent(stage).Some? {
      AppendPhaseOwn(s, id);
    } else {
      match stage
      case Admit(key, digest) => AdmitOwn(s, id, row, key, digest);
      case Fail(refs) => FailureOwn(s, id, row, refs, newId);
      case Finish(handle) => ReadyOwn(s, id, row, handle, newId);
      case Retire => StoppedOwn(s, id, row);
      case Stop => StoppingOwn(s, id, row);
      case Relaunch(node) => StartingOwn(s, id, row, node);
      case Dispatch => DispatchOwn(s, id);
      case _ => NothingToStop(s, id);
    }
  }

  lemma PreparedOwn(s: State, id: DeploymentId, row: Deployment, handle: EngineHandle, newId: EndpointId)
    requires Running(s, id) && s.command.stage.Prepare? && s.command.row == row
    ensures var s' := PersistPrepared(s, id, row, handle, newId); Local(s, s', id) && Own(s', id)
  {
    hide InOrder, ReplaceEndpoint, NextEndpoint, TablesInv;
  }

  lemma EvidenceKnown(t: Tables, id: DeploymentId)
    requires TablesInv(t) && id in t.deployments
    ensures id in t.evidence <==> t.deployments[id].endpointId.Some?
  {
    assert RowInv(t, id);
  }

  lemma StartLocal(s: State, id: DeploymentId, answer: Answer)
    requires s.command.Busy? && s.command.id == id
    ensures Local(s, AnsweredStart(s, id, s.command.row, answer), id)
  {
  }

  lemma StartOwn(s: State, id: DeploymentId, answer: Answer)
    requires Running(s, id) && s.command.stage.Start?
    ensures Own(AnsweredStart(s, id, s.command.row, answer), id)
  {
    hide TablesInv, InOrder, EventsOf;
    EvidenceKnown(s.tables, id);
  }

  /** Cleaning up a start that failed its identity check. */
  lemma CleanupOwn(s: State, id: DeploymentId, answer: Answer, refs: Option<EngineHandle>)
    requires Running(s, id) && (s.command.stage.Mismatch? || s.command.stage.Cleanup?)
    ensures var s' := AnsweredCleanup(s, id, answer, refs); Local(s, s', id) && Own(s', id)
  {
    hide TablesInv, InOrder, EventsOf;
  }

  /** The identity check itself. */
  lemma VerifyOwn(s: State, answer: Answer, newId: EndpointId)
    requires CanAnswer(s, answer, newId) && Running(s, s.command.id) && s.command.stage.Verify?
    ensures Local(s, Answered(s, answer, newId), s.command.id) && Own(Answered(s, answer, newId), s.command.id)
  {
    hide TablesInv, InOrder, EventsOf, PersistPrepared, AnsweredStart, AnsweredCleanup;
  }

  /** The stop of a running deployment. */
  lemma EngineStopOwn(s: State, answer: Answer, newId: EndpointId)
    requires CanAnswer(s, answer, newId) && Running(s, s.command.id) && s.command.stage.EngineStop?
    ensures Local(s, Answered(s, answer, newId), s.command.id) && Own(Answered(s, answer, newId), s.command.id)
  {
    hide TablesInv, InOrder, EventsOf, PersistPrepared, AnsweredStart, AnsweredCleanup;
  }

  /** A launch without a handle. */
  lemma UnpreparedOwn(s: State, answer: Answer, newId: EndpointId)
    requires CanAnswer(s, answer, newId) && Running(s, s.command.id) && s.command.stage.Prepare? && !answer.Handed?
    ensures Local(s, Answered(s, answer, newId), s.command.id) && Own(Answered(s, answer, newId), s.command.id)
  {
    hide TablesInv, InOrder, EventsOf, PersistPrepared, AnsweredStart, AnsweredCleanup;
  }

  lemma AnswerOwn(s: State, answer: Answer, newId: EndpointId)
    requires CanAnswer(s, answer, newId) && Running(s, s.command.id)
    ensures Local(s, Answered(s, answer, newId), s.command.id) && Own(Answered(s, answer, newId), s.command.id)
  {
    hide Own, Local, AnsweredStart, AnsweredCleanup, PersistPrepared;
    var Busy(id, row, stage, _) := s.command;
    if stage.Start? {
      StartLocal(s, id, answer);
      StartOwn(s, id, answer);
    } else if stage.Mismatch? {
      CleanupOwn(s, id, answer, Some(stage.handle));
    } else if stage.Cleanup? {
      CleanupOwn(s, id, answer, stage.refs);
    } else if stage.Prepare? && answer.Handed? {
      PreparedOwn(s, id, row, answer.handle, newId);
    } else if stage.Prepare? {
      UnpreparedOwn(s, answer, newId);
    } else if stage.Verify? {
      VerifyOwn(s, answer, newId);
    } else {
      EngineStopOwn(s, answer, newId);
    }
  }

  // ----- the other deployments

  lemma OthersKept(s: State, s': State, id: DeploymentId)
    requires Others(s, id) && Local(s, s', id) && (s.command.Busy? ==> s.command.id == id)
    ensures Others(s', id)
  {
    hide InOrder;
    forall o | o != id
      ensures Lookup(s'.broker, o) == ExpectedMark(s', o) && LiveInv(s', o) && (!s'.crashed ==> LogInv(s', o))
    {
      assert Lookup(s'.tables.deployments, o) == Lookup(s.tables.deployments, o);
    }
  }

  lemma LocalCommand(s: State, s': State, id: DeploymentId)
    requires Local(s, s', id)
    ensures s'.command.Busy? ==> s'.command.id == id
  {
  }

  lemma HolderRuns(s: State)
    requires Inv(s) && s.command.Busy?
    ensures Running(s, s.command.id) && Others(s, s.command.id)
  {
    hide TablesInv, InOrder;
    assert Lookup(s.broker, s.command.id) == ExpectedMark(s, s.command.id) && LiveInv(s, s.command.id);
  }

  lemma CommandKeeps(s: State, a: Action)
    requires Inv(s) && Enabled(s, a) && (a.Proceed? || a.Engine?)
    ensures Others(Apply(s, a), s.command.id) && Own(Apply(s, a), s.command.id)
    ensures Apply(s, a).command.Busy? ==> Apply(s, a).command.id == s.command.id
  {
    var id := s.command.id;
    HolderRuns(s);
    hide Own, Local, Advance, Answered;
    if a.Proceed? {
      AdvanceOwn(s, a.newId);
    } else {
      AnswerOwn(s, a.answer, a.newId);
    }
    OthersKept(s, Apply(s, a), id);
    LocalCommand(s, Apply(s, a), id);
  }

  // ----- the steps that are not a command's

  lemma Assembled(s: State, id: DeploymentId)
    requires Own(s, id) && Others(s, id) && (s.command.Busy? ==> s.command.id == id)
    ensures CommandInv(s) && BrokerInv(s) && EngineInv(s) && (!s.crashed ==> forall o :: LogInv(s, o))
  {
    hide InOrder;
    forall o
      ensures Lookup(s.broker, o) == ExpectedMark(s, o) && LiveInv(s, o) && (!s.crashed ==> LogInv(s, o))
    {
      if o != id {
        assert Lookup(s.broker, o) == ExpectedMark(s, o);
      }
    }
  }

  /** Taking the lock: the command's copy of the row is the stored one. */
  lemma BeginKeeps(s: State, a: Action)
    requires Inv(s) && Enabled(s, a) && (a.BeginCreate? || a.BeginStop? || a.BeginRestart?)
    ensures Inv(Apply(s, a))
  {
    BeginTakes(s, a);
    hide InOrder, TablesInv, ReaderInv, Apply, LiveInv, LogInv, ExpectedMark, CommandInv;
    var s' := Apply(s, a);
    forall o
      ensures Lookup(s'.broker, o) == ExpectedMark(s', o) && LiveInv(s', o) && (!s'.crashed ==> LogInv(s', o))
    {
      assert Lookup(s.broker, o) == ExpectedMark(s, o) && LiveInv(s, o) && (!s.crashed ==> LogInv(s, o));
      BeginLeaves(s, a, o);
      BeginLogs(s, a, o);
    }
  }

  lemma BeginTakes(s: State, a: Action)
    requires Enabled(s, a) && (a.BeginCreate? || a.BeginStop? || a.BeginRestart?)
    ensures var s' := Apply(s, a);
      s' == s.(command := s'.command) && CommandInv(s') && (s'.command.Busy? ==> !s'.command.stage.Start?)
  {
    hide Advance, Answered, Committed, ResolveIdempotency, ActiveTasks;
  }

  lemma BeginLeaves(s: State, a: Action, o: DeploymentId)
    requires Enabled(s, a) && (a.BeginCreate? || a.BeginStop? || a.BeginRestart?)
    requires Lookup(s.broker, o) == ExpectedMark(s, o) && LiveInv(s, o)
    ensures var s' := Apply(s, a); Lookup(s'.broker, o) == ExpectedMark(s', o) && LiveInv(s', o)
  {
    hide ResolveIdempotency, Advance, Answered, Committed, ActiveTasks;
  }

  lemma BeginLogs(s: State, a: Action, o: DeploymentId)
    requires TablesInv(s.tables) && Enabled(s, a) && (a.BeginCreate? || a.BeginStop? || a.BeginRestart?)
    requires !s.crashed ==> LogInv(s, o)
    ensures !Apply(s, a).crashed ==> LogInv(Apply(s, a), o)
  {
    hide InOrder, TablesInv, EventsOf, ResolveIdempotency, Advance, Answered, Committed, ActiveTasks;
    if a.BeginCreate? && o == a.id {
      NotYetStored(s.tables, a.id);
    }
  }

  lemma NotYetStored(t: Tables, id: DeploymentId)
    requires TablesInv(t) && id !in t.deployments
    ensures id !in t.evidence
  {
  }

  lemma RefuseKeeps(s: State)
    requires Inv(s) && Enabled(s, Refuse)
    ensures Inv(Apply(s, Refuse))
  {
    hide InOrder, TablesInv, ReaderInv;
    var s' := Apply(s, Refuse);
    forall o
      ensures Lookup(s'.broker, o) == ExpectedMark(s', o) && LiveInv(s', o) && (!s'.crashed ==> LogInv(s', o))
    {
      assert Lookup(s.broker, o) == ExpectedMark(s, o) && LiveInv(s, o) && (!s.crashed ==> LogInv(s, o));
    }
  }

  lemma CrashKeeps(s: State)
    requires Inv(s)
    ensures Inv(Apply(s, Crash))
  {
    hide InOrder, TablesInv;
    var s' := Apply(s, Crash);
    forall o
      ensures LiveInv(s', o)
    {
      assert LiveInv(s, o);
    }
  }

  lemma ReadKeeps(s: State, a: Action)
    requires Inv(s) && Enabled(s, a) && (a.ReadRow? || a.ReadEndpoint? || a.ReadEvidence?)
    ensures Inv(Apply(s, a))
  {
    hide InOrder, TablesInv, ReaderInv, StagePhase, PhaseTells, StageMark, EventsOf;
    ReadersStep(s, a);
    var s' := Apply(s, a);
    forall o
      ensures Lookup(s'.broker, o) == ExpectedMark(s', o) && LiveInv(s', o) && (!s'.crashed ==> LogInv(s', o))
    {
      assert Lookup(s.broker, o) == ExpectedMark(s, o) && LiveInv(s, o) && (!s.crashed ==> LogInv(s, o));
    }
  }

  lemma CommitKeeps(s: State, reader: nat, ready: bool)
    requires Inv(s) && Enabled(s, Commit(reader, ready))
    ensures Inv(Apply(s, Commit(reader, ready)))
  {
    ReadersStep(s, Commit(reader, ready));
    TablesStep(s, Commit(reader, ready));
    CommitLeaves(s, reader, ready);
    hide TablesInv, CommandInv, BrokerInv, EngineInv, LogInv, ReaderInv, Committed;
    LeftKeeps(s, Committed(s, reader, ready), reader);
  }

  ghost predicate Leaves(s: State, s': State, reader: nat) {
    && s' == s.(tables := s'.tables, readers := s.readers - {reader})
    && s'.tables == s.tables.(deployments := s'.tables.deployments, endpoints := s'.tables.endpoints)
    && s'.tables.deployments.Keys == s.tables.deployments.Keys
    && forall o | o in s.tables.deployments ::
         || s'.tables.deployments[o] == s.tables.deployments[o]
         || ((s.tables.deployments[o].observed.Ready? || s.tables.deployments[o].observed.Degraded?)
             && (s'.tables.deployments[o].observed.Ready? || s'.tables.deployments[o].observed.Degraded?))
  }

  lemma LeftKeeps(s: State, s': State, reader: nat)
    requires CommandInv(s) && BrokerInv(s) && EngineInv(s) && (!s.crashed ==> forall o :: LogInv(s, o))
    requires s.command.Idle? && Leaves(s, s', reader)
    ensures CommandInv(s') && BrokerInv(s') && EngineInv(s') && (!s'.crashed ==> forall o :: LogInv(s', o))
  {
    hide InOrder;
    forall o
      ensures Lookup(s'.broker, o) == ExpectedMark(s', o) && LiveInv(s', o) && (!s'.crashed ==> LogInv(s', o))
    {
      assert Lookup(s.broker, o) == ExpectedMark(s, o) && LiveInv(s, o) && (!s.crashed ==> LogInv(s, o));
    }
  }

  /** A commit writes one row, of a deployment that was and stays READY or DEGRADED. */
  lemma CommitLeaves(s: State, reader: nat, ready: bool)
    requires Inv(s) && Enabled(s, Commit(reader, ready))
    ensures Leaves(s, Committed(s, reader, ready), reader)
  {
    hide InOrder, TablesInv;
    assert ReaderInv(s.tables, s.readers[reader]);
  }

  lemma StepKeeps(s: State, a: Action)
    requires Inv(s) && Enabled(s, a)
    ensures Inv(Apply(s, a))
  {
    match a
    case BeginCreate(_, _, _, _) => BeginKeeps(s, a);
    case BeginStop(_) => BeginKeeps(s, a);
    case BeginRestart(_, _, _) => BeginKeeps(s, a);
    case Refuse => RefuseKeeps(s);
    case Crash => CrashKeeps(s);
    case Commit(reader, ready) => CommitKeeps(s, reader, ready);
    case ReadRow(_, _) => ReadKeeps(s, a);
    case ReadEndpoint(_) => ReadKeeps(s, a);
    case ReadEvidence(_) => ReadKeeps(s, a);
    case _ => WorkKeeps(s, a);
  }

  lemma WorkKeeps(s: State, a: Action)
    requires Inv(s) && Enabled(s, a) && (a.Proceed? || a.Engine?)
    ensures Inv(Apply(s, a))
  {
    hide TablesInv, CommandInv, BrokerInv, EngineInv, LogInv, ReaderInv, Own, Others, Apply;
    TablesStep(s, a);
    ReadersStep(s, a);
    CommandKeeps(s, a);
    Assembled(Apply(s, a), s.command.id);
  }
}
