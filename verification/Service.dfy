/** The service object.  Its methods follow the source statement by statement over the store's tables
    and the broker; `model` and `trace` shadow every store transaction, SDK call and engine call with
    the machine step it is, so the object's history is a run of the machine and what is proved of all
    runs holds of it.  What an engine answers is a parameter. */
module Service {
  import opened Options
  import opened Domain
  import opened ProductStore
  import opened Lifecycle
  import opened LifecycleInvariants
  import opened LifecycleSteps

  /** The activity source of the maintenance SDK: admission needs a closed task, transition and
      completion an open one. */
  class ActivityBroker {
    var open: map<DeploymentId, TaskState>

    constructor ()
      ensures open == map[]
    {
      open := map[];
    }

    method Admit(id: DeploymentId, mark: TaskState)
      requires id !in open
      modifies this
      ensures open == old(open)[id := mark]
    {
      open := open[id := mark];
    }

    method Transition(id: DeploymentId, mark: TaskState)
      requires id in open
      modifies this
      ensures open == old(open)[id := mark]
    {
      open := open[id := mark];
    }

    method Complete(id: DeploymentId)
      requires id in open
      modifies this
      ensures open == old(open) - {id}
    {
      open := open - {id};
    }
  }

  /** What an engine answers during one launch. */
  datatype LaunchAnswers = LaunchAnswers(prepare: Answer, start: Answer, verify: Answer, cleanup: Answer)

  predicate PossibleAnswers(answers: LaunchAnswers) {
    && (answers.prepare.Handed? || answers.prepare.NoHandle? || answers.prepare.Raise?)
    && (answers.start.Handed? || answers.start.Wrong? || answers.start.Failure? || answers.start.Raise? || answers.start.Unsupported?)
    && PossibleStop(answers.verify)
    && PossibleStop(answers.cleanup)
  }

  predicate PossibleStop(answer: Answer) {
    answer.Done? || answer.Failure? || answer.Raise?
  }

  /** How a launch ends. */
  function Verdict(answers: LaunchAnswers): (v: ObservedState)
    ensures v.Ready? <==> !answers.prepare.Raise? && answers.start.Handed? && answers.verify.Done?
  {
    if answers.prepare.Raise? || answers.start.Raise? then Starting
    else if answers.start.Wrong? then if answers.cleanup.Raise? then Starting else Failed
    else if !answers.start.Handed? then Failed
    else if answers.verify.Done? then Ready
    else if answers.verify.Raise? || answers.cleanup.Raise? then Starting
    else Failed
  }

  lemma PrepareSteps(s: State, id: DeploymentId, row: Deployment, answer: Answer, newId: EndpointId)
    requires Inv(s) && About(s, id, row, Prepare) && FreshEndpoint(s, row, newId)
    requires answer.Handed? || answer.NoHandle? || answer.Raise?
    ensures Enabled(s, Engine(answer, newId))
    ensures var s' := Apply(s, Engine(answer, newId));
            var key := EndpointKey(row, newId);
            && s'.broker == s.broker && s'.readers == s.readers
            && (if answer.Raise? then s'.command.Idle?
                else About(s', id, if answer.Handed? then row.(endpointId := Some(key)) else row, Start))
            && s'.tables == (if !answer.Handed? then s.tables
                             else SavePair(s.tables, id, row.(endpointId := Some(key)), key,
                                           NextEndpoint(s.tables, id, row, Provisioning, answer.handle.url), Some(answer.handle.ref)))
    ensures var s' := Apply(s, Engine(answer, newId));
            answer.Handed? ==>
              && Lookup(s'.tables.deployments, id) == Some(row.(endpointId := Some(EndpointKey(row, newId))))
              && Lookup(s'.tables.evidence, id) == Some(answer.handle.ref)
  {
    Holding(s);
    hide Inv, NextEndpoint, ReplaceEndpoint;
  }

  lemma FailProceeds(s: State, id: DeploymentId, row: Deployment, refs: Option<EngineHandle>, newId: EndpointId)
    requires Inv(s) && About(s, id, row, Fail(refs)) && FreshEndpoint(s, row, newId)
    ensures Enabled(s, Proceed(newId)) && id in s.broker
    ensures var s', key := PersistFailure(s, id, row, refs, newId), EndpointKey(row, newId);
            && Apply(s, Proceed(newId)) == s' && s'.broker == s.broker - {id}
            && s'.tables == (if refs.None? then SaveDeployment(s.tables, id, FailedRow(row))
                             else SavePair(s.tables, id, FailedRow(row).(endpointId := Some(key)), key,
                                           NextEndpoint(s.tables, id, row, Unhealthy, refs.value.url), Some(refs.value.ref)))
  {
    Holding(s);
    hide Inv, NextEndpoint, ReplaceEndpoint;
  }

  /** What a failed launch leaves. */
  lemma FailureLeaves(s: State, id: DeploymentId, row: Deployment, refs: Option<EngineHandle>, newId: EndpointId)
    requires About(s, id, row, Fail(refs))
    ensures var s' := PersistFailure(s, id, row, refs, newId);
            && s'.readers == s.readers && Closing(s', id, FailEvent)
            && Lookup(s'.tables.deployments, id).Some? && s'.tables.deployments[id].observed.Failed?
            && (refs.Some? ==> Lookup(s'.tables.evidence, id) == Some(refs.value.ref))
  {
    hide NextEndpoint, ReplaceEndpoint;
  }

  lemma FinishProceeds(s: State, id: DeploymentId, row: Deployment, handle: EngineHandle, newId: EndpointId)
    requires Inv(s) && About(s, id, row, Finish(handle)) && FreshEndpoint(s, row, newId)
    ensures Enabled(s, Proceed(newId)) && id in s.broker
    ensures var s' := Apply(s, Proceed(newId));
            var key := EndpointKey(row, newId);
            && s'.broker == s.broker - {id} && s'.readers == s.readers && Closing(s', id, FinishEvent)
            && s'.tables == SavePair(s.tables, id, ReadyRow(row, key), key,
                                     NextEndpoint(s.tables, id, row, Serving, handle.url), Some(handle.ref))
            && Lookup(s'.tables.deployments, id) == Some(ReadyRow(row, key))
            && Lookup(s'.tables.evidence, id) == Some(handle.ref)
            && Lookup(s'.tables.endpoints, key) == Some(NextEndpoint(s.tables, id, row, Serving, handle.url))
    ensures var endpoint := NextEndpoint(s.tables, id, row, Serving, handle.url);
            endpoint.state.Serving? && endpoint.url == handle.url
  {
    Holding(s);
    hide Inv;
  }

  lemma BeginsCreate(s: State, id: DeploymentId, key: Option<string>, digest: string, node: NodeRef)
    requires s.command.Idle? && id !in s.tables.deployments && ResolveIdempotency(s.tables, key, digest).Fresh?
    ensures var a := BeginCreate(id, key, digest, node);
            && Enabled(s, a)
            && Apply(s, a) == s.(command := Busy(id, Drafted(node), Admit(key, digest), None))
            && AsksAdmission(Apply(s, a).command)
  {
  }

  lemma AdmitHolds(s: State, id: DeploymentId, row: Deployment, key: Option<string>, digest: string)
    requires Inv(s) && About(s, id, row, Admit(key, digest))
    ensures id !in s.broker && ResolveIdempotency(s.tables, key, digest).Fresh?
    ensures Enabled(s, Proceed(0)) && Apply(s, Proceed(0)) == AdmitIntent(s, id, row, key, digest)
  {
    Holding(s);
  }

  lemma IntentEndpoints(t: Tables, id: DeploymentId, row: Deployment, key: Option<string>, digest: string)
    ensures CreateIntent(t, id, row, key, digest).endpoints == t.endpoints
  {
  }

  lemma RefuseEnds(s: State)
    requires AsksAdmission(s.command)
    ensures Enabled(s, Refuse) && Apply(s, Refuse) == s.(command := Idle)
  {
  }

  lemma DispatchProceeds(s: State, id: DeploymentId, row: Deployment)
    requires Inv(s) && About(s, id, row, Dispatch)
    ensures Enabled(s, Proceed(0)) && id in s.broker
    ensures Apply(s, Proceed(0)) == s.(broker := s.broker[id := Dispatching], command := s.command.(stage := Load))
  {
    Holding(s);
    hide Inv;
  }

  lemma StopProceeds(s: State, id: DeploymentId, row: Deployment)
    requires Inv(s) && About(s, id, row, Stop)
    ensures id in s.broker <==> row.observed.Starting? || row.observed.Stopping?
    ensures Enabled(s, Proceed(0)) && Apply(s, Proceed(0)) == PersistStopping(s, id, row)
  {
    Holding(s);
    hide Inv;
  }

  lemma StoppingLeaves(s: State, id: DeploymentId, row: Deployment)
    requires About(s, id, row, Stop)
    ensures var s' := PersistStopping(s, id, row);
            && s'.readers == s.readers && s'.tables.endpoints == s.tables.endpoints
            && s'.command == s.command.(row := StoppingRow(row), stage := StopEvent)
            && Lookup(s'.tables.deployments, id) == Some(StoppingRow(row))
  {
  }

  lemma RetireProceeds(s: State, id: DeploymentId, row: Deployment)
    requires Inv(s) && About(s, id, row, Retire)
    ensures Enabled(s, Proceed(0)) && id in s.broker && EndpointKnown(s, row)
    ensures var s' := PersistStopped(s, id, row);
            && Apply(s, Proceed(0)) == s' && s'.broker == s.broker - {id}
            && s'.tables == (if row.endpointId.None? then SaveDeployment(s.tables, id, StoppedRow(row))
                             else SavePair(s.tables, id, StoppedRow(row), row.endpointId.value,
                                           RetiredEndpoint(s.tables.endpoints[row.endpointId.value]), None))
  {
    Holding(s);
    hide Inv, ReplaceEndpoint;
  }

  /** What a confirmed stop leaves. */
  lemma StoppedLeaves(s: State, id: DeploymentId, row: Deployment)
    requires Inv(s) && About(s, id, row, Retire) && EndpointKnown(s, row)
    ensures var s' := PersistStopped(s, id, row);
            && s'.readers == s.readers && s'.command == s.command.(row := StoppedRow(row), stage := ReleaseEvent)
            && Lookup(s'.tables.deployments, id) == Some(StoppedRow(row))
            && s'.tables.endpoints.Keys == s.tables.endpoints.Keys
            && (row.endpointId.Some? ==> Lookup(s'.tables.endpoints, row.endpointId.value)
                                         == Some(RetiredEndpoint(s.tables.endpoints[row.endpointId.value])))
  {
    Holding(s);
    if row.endpointId.Some? {
      assert RowInv(s.tables, id);
      ReplaceIsUpdate(s.tables, id, row.endpointId.value, RetiredEndpoint(s.tables.endpoints[row.endpointId.value]));
    }
    hide Inv, ReplaceEndpoint;
  }

  lemma RelaunchProceeds(s: State, id: DeploymentId, row: Deployment, node: NodeRef)
    requires Inv(s) && About(s, id, row, Relaunch(node))
    ensures id !in s.broker && AsksAdmission(s.command)
    ensures Enabled(s, Proceed(0)) && Apply(s, Proceed(0)) == PersistStarting(s, id, row, node)
  {
    Holding(s);
    hide Inv;
  }

  lemma BeginsStop(s: State, id: DeploymentId)
    requires s.command.Idle? && id in s.tables.deployments && !s.tables.deployments[id].observed.Stopped?
    ensures Enabled(s, BeginStop(id))
    ensures Apply(s, BeginStop(id)) == s.(command := Busy(id, s.tables.deployments[id], Stop, None))
  {
  }

  lemma BeginsRestart(s: State, id: DeploymentId, version: nat, node: NodeRef)
    requires s.command.Idle? && id in s.tables.deployments && s.tables.deployments[id].version == version
    ensures var row := s.tables.deployments[id];
            var a := BeginRestart(id, version, node);
            && Enabled(s, a)
            && Apply(s, a) == s.(command := Busy(id, row, if row.observed.Stopped? then Relaunch(node) else Stop, Some(node)))
  {
  }

  lemma ReadRowSteps(s: State, reader: nat, id: DeploymentId)
    requires reader !in s.readers && id in s.tables.deployments
    ensures var row := s.tables.deployments[id];
            && Enabled(s, ReadRow(reader, id))
            && Apply(s, ReadRow(reader, id))
               == (if (row.observed.Ready? || row.observed.Degraded?) && row.endpointId.Some?
                   then s.(readers := s.readers[reader := SawRow(id, row)]) else s)
  {
  }

  /** A reader's second and third reads never fail: endpoint rows and evidence never go away. */
  lemma ReaderFinds(s: State, reader: nat)
    requires Inv(s) && reader in s.readers
    ensures var r := s.readers[reader];
            r.row.endpointId.Some? && r.row.endpointId.value in s.tables.endpoints && r.id in s.tables.evidence
  {
    var r := s.readers[reader];
    assert ReaderInv(s.tables, r);
    assert RowInv(s.tables, r.id);
  }

  lemma CommitSteps(s: State, reader: nat, ready: bool)
    requires Inv(s) && s.command.Idle? && reader in s.readers && s.readers[reader].Inspecting?
    ensures Enabled(s, Commit(reader, ready))
    ensures var Inspecting(id, row, endpoint) := s.readers[reader];
            var s' := Apply(s, Commit(reader, ready));
            var newRow, newEndpoint := ObservedRow(row, ready), ObservedEndpoint(endpoint, ready);
            && id in s.tables.deployments && row.endpointId.Some?
            && s'.command == s.command && s'.broker == s.broker
            && (if newRow.observed == row.observed && newEndpoint.state == endpoint.state then s'.tables == s.tables
                else if s.tables.deployments[id].version != row.version then s'.tables == s.tables
                else s'.tables == SavePair(s.tables, id, newRow, row.endpointId.value, newEndpoint, None)
                     && s'.tables.deployments == s.tables.deployments[id := newRow])
            && (s.tables.deployments[id].version == row.version ==> s.tables.deployments[id] == row)
  {
    assert ReaderInv(s.tables, s.readers[reader]);
    hide Inv, ReplaceEndpoint;
  }

  /** How a launch leaves the row. */
  ghost predicate LaunchResult(answers: LaunchAnswers, outcome: Outcome, row: Deployment) {
    match Verdict(answers)
    case Ready => outcome == Ok(row) && row.observed.Ready?
    case Failed => outcome == StartupFailed && row.observed.Failed?
    case _ => outcome == Unexpected && row.observed.Starting?
  }

  lemma Unpacked(answers: LaunchAnswers)
    requires PossibleAnswers(answers)
    ensures answers.prepare.Handed? || answers.prepare.NoHandle? || answers.prepare.Raise?
    ensures Verdict(answers).Ready? || Verdict(answers).Failed? || Verdict(answers).Starting?
    ensures answers.prepare.Raise? ==> Verdict(answers).Starting?
  {
  }

  datatype Outcome =
    | Ok(row: Deployment)
    | StartupFailed
    | StopFailed
    | VersionConflict
    | KeyConflict
    | Refused
    | Unexpected

  /** The broker may refuse the admission of a stop whose task is not open. */
  predicate StopRefused(row: Deployment, admitted: bool) {
    !row.observed.Starting? && !row.observed.Stopping? && !admitted
  }

  /** A deployment with an execution is stopped only by its engine. */
  predicate StopFails(row: Deployment, answer: Answer) {
    row.endpointId.Some? && !answer.Done?
  }

  /** A command that has just logged LOADING or is about to: what `Launch` is called with. */
  ghost predicate About(s: State, id: DeploymentId, row: Deployment, stage: Stage) {
    s.command.Busy? && s.command.id == id && s.command.row == row && s.command.stage == stage
  }

  /** The lock is given up, or kept for the second half of a restart. */
  ghost predicate Kept(s: State, id: DeploymentId, row: Deployment, relaunch: Option<NodeRef>) {
    if relaunch.None? then s.command.Idle?
    else About(s, id, row, Relaunch(relaunch.value)) && s.command.relaunch == relaunch
  }

  /** A command with nothing left to do but log its last event. */
  ghost predicate Closing(s: State, id: DeploymentId, stage: Stage) {
    s.command.Busy? && s.command.id == id && s.command.stage == stage
  }

  /** What the lock holder may rely on. */
  lemma Holding(s: State)
    requires Inv(s) && s.command.Busy?
    ensures Lookup(s.broker, s.command.id) == StageMark(s.command.stage, s.command.row)
    ensures !s.command.stage.Admit? ==>
              && Lookup(s.tables.deployments, s.command.id) == Some(s.command.row)
              && EndpointKnown(s, s.command.row)
              && StageRow(s.command.stage, s.command.row)
              && (s.command.id in s.tables.evidence <==> s.command.row.endpointId.Some?)
  {
    assert Lookup(s.broker, s.command.id) == ExpectedMark(s, s.command.id);
    if !s.command.stage.Admit? {
      assert RowInv(s.tables, s.command.id);
    }
  }

  class ReactorService {
    const store: ReactorStore
    const broker: ActivityBroker
    ghost var model: State
    ghost var trace: seq<Action>

    ghost predicate Coupled()
      reads this, store, broker
    {
      && store.Contents() == model.tables
      && broker.open == model.broker
    }

    /** The object's history is a run of the machine. */
    ghost predicate Tracked()
      reads this
    {
      Legal(INITIAL, trace) && Exec(INITIAL, trace) == model && Inv(model)
    }

    ghost predicate Valid()
      reads this, store, broker
    {
      Coupled() && Tracked() && model.command.Idle?
    }

    lemma Sound()
      requires Tracked()
      ensures Inv(model)
    {
      hide Inv, Legal, Exec;
    }

    lemma InStep()
      requires Coupled()
      ensures store.Contents() == model.tables && broker.open == model.broker
    {
    }

    constructor ()
      ensures Valid() && fresh(store) && fresh(broker) && trace == []
    {
      store := new ReactorStore();
      broker := new ActivityBroker();
      model := INITIAL;
      trace := [];
      new;
      InitialInv();
    }

    ghost method Step(a: Action)
      requires Tracked() && Enabled(model, a)
      modifies this`model, this`trace
      ensures Tracked() && model == Apply(old(model), a) && trace == old(trace) + [a]
    {
      ExecAppend(INITIAL, trace, a);
      StepKeeps(model, a);
      model := Apply(model, a);
      trace := trace + [a];
    }

    /** `_append_deployment_event` in the middle of a command. */
    method LogPhase(id: DeploymentId, phase: Phase)
      requires Coupled() && Tracked() && model.command.Busy? && model.command.id == id
      requires StageEvent(model.command.stage) == Some(phase)
      modifies this`model, this`trace, store
      ensures Coupled() && Tracked() && model == AppendPhase(old(model), id, phase)
    {
      var _ := store.RecordEvent(id, phase);
      Step(Proceed(0));
    }

    /** `complete_after_persist`, or just a save, of a deployment and its endpoint. */
    method SaveBoth(id: DeploymentId, row: Deployment, key: EndpointId, endpoint: Endpoint, ref: Option<ExecutionRef>,
                    completes: bool, ghost a: Action)
      requires Coupled() && Tracked() && Enabled(model, a)
      requires Apply(model, a).tables == SavePair(model.tables, id, row, key, endpoint, ref)
      requires completes ==> id in model.broker
      requires Apply(model, a).broker == if completes then model.broker - {id} else model.broker
      modifies this`model, this`trace, store, broker
      ensures Coupled() && Tracked() && model == Apply(old(model), a)
    {
      hide Inv, Legal, Exec, SavePair, Apply, Enabled;
      store.WritePair(id, row, key, endpoint, ref);
      if completes {
        broker.Complete(id);
      }
      Step(a);
    }

    /** `complete_after_persist` of a deployment alone. */
    method SaveAndComplete(id: DeploymentId, row: Deployment, ghost a: Action)
      requires Coupled() && Tracked() && Enabled(model, a) && id in model.broker
      requires Apply(model, a).tables == SaveDeployment(model.tables, id, row)
      requires Apply(model, a).broker == model.broker - {id}
      modifies this`model, this`trace, store, broker
      ensures Coupled() && Tracked() && model == Apply(old(model), a)
    {
      hide Inv, Legal, Exec, Apply, Enabled;
      store.WriteDeployment(id, row);
      broker.Complete(id);
      Step(a);
    }

    /** The endpoint row a launch writes: the old one's next version, or a first version. */
    method DraftEndpoint(id: DeploymentId, row: Deployment, state: EndpointState, url: Url) returns (endpoint: Endpoint)
      requires row.endpointId.Some? ==> row.endpointId.value in store.endpoints
      ensures endpoint == NextEndpoint(store.Contents(), id, row, state, url)
    {
      if row.endpointId.Some? {
        var previous := store.endpoints[row.endpointId.value];
        return Endpoint(id, state, url, previous.version + 1);
      }
      return Endpoint(id, state, url, 1);
    }

    /** Recovery evidence is saved before anything is started. */
    method PrepareExecution(id: DeploymentId, row: Deployment, answer: Answer, newId: EndpointId)
      returns (prepared: Deployment)
      requires Coupled() && Tracked() && About(model, id, row, Prepare)
      requires answer.Handed? || answer.NoHandle? || answer.Raise?
      requires row.endpointId.None? ==> newId !in model.tables.endpoints
      modifies this`model, this`trace, store, broker
      ensures Coupled() && Tracked() && model.readers == old(model.readers)
      ensures if answer.Raise? then model.command.Idle? else About(model, id, prepared, Start)
      ensures prepared.endpointId.None? ==> newId !in model.tables.endpoints
      ensures Lookup(model.tables.deployments, id) == Some(prepared) && prepared.observed.Starting?
      ensures answer.Handed? ==> prepared.endpointId.Some? && Lookup(model.tables.evidence, id) == Some(answer.handle.ref)
    {
      hide Inv, Legal, Exec, SavePair, NextEndpoint, Apply, Enabled;
      prepared := row;
      Holding(model);
      PrepareSteps(model, id, row, answer, newId);
      if answer.Handed? {
        var pending := DraftEndpoint(id, row, Provisioning, answer.handle.url);
        var key := if row.endpointId.Some? then row.endpointId.value else newId;
        prepared := row.(endpointId := Some(key));
        SaveBoth(id, prepared, key, pending, Some(answer.handle.ref), false, Engine(answer, newId));
      } else {
        Step(Engine(answer, newId));
      }
    }

    /** Starting, and the identity checks with their cleanup.  `refs` are the references a failure
        leaves behind. */
    method StartExecution(id: DeploymentId, row: Deployment, answers: LaunchAnswers)
      returns (handle: Option<EngineHandle>, refs: Option<EngineHandle>)
      requires Coupled() && Tracked() && About(model, id, row, Start)
      requires PossibleAnswers(answers) && !answers.prepare.Raise?
      modifies this`model, this`trace, store
      ensures Coupled() && Tracked() && model.readers == old(model.readers)
      ensures model.tables.endpoints == old(model.tables.endpoints) && model.tables.deployments == old(model.tables.deployments)
      ensures match Verdict(answers)
              case Ready => handle.Some? && About(model, id, row, Finish(handle.value))
              case Failed => handle.None? && About(model, id, row, Fail(refs))
              case _ => handle.None? && model.command.Idle?
    {
      hide Inv, Legal, Exec;
      handle, refs := None, None;
      Step(Engine(answers.start, 0));
      if answers.start.Wrong? {
        refs := Some(answers.start.handle);
        Step(Engine(answers.cleanup, 0));
      } else if answers.start.Failure? {
        refs := answers.start.refs;
      } else if answers.start.Handed? {
        handle, refs := VerifyExecution(id, row, answers.start.handle, answers.verify, answers.cleanup);
      }
    }

    /** The PROBING event and the engine's verification, with the cleanup of an execution that fails it. */
    method VerifyExecution(id: DeploymentId, row: Deployment, started: EngineHandle, verify: Answer, cleanup: Answer)
      returns (handle: Option<EngineHandle>, refs: Option<EngineHandle>)
      requires Coupled() && Tracked() && About(model, id, row, Probe(started)) && PossibleStop(verify) && PossibleStop(cleanup)
      modifies this`model, this`trace, store
      ensures Coupled() && Tracked() && model.readers == old(model.readers)
      ensures model.tables.endpoints == old(model.tables.endpoints) && model.tables.deployments == old(model.tables.deployments)
      ensures if verify.Done? then handle == Some(started) && About(model, id, row, Finish(started))
              else if verify.Raise? || cleanup.Raise? then handle.None? && model.command.Idle?
              else handle.None? && About(model, id, row, Fail(refs))
    {
      hide Inv, Legal, Exec;
      handle, refs := None, None;
      LogPhase(id, PROBING);
      Step(Engine(verify, 0));
      if verify.Done? {
        handle := Some(started);
      } else if verify.Failure? {
        refs := verify.refs;
        Step(Engine(cleanup, 0));
      }
    }

    method PersistFailed(id: DeploymentId, row: Deployment, refs: Option<EngineHandle>, newId: EndpointId)
      requires Coupled() && Tracked() && About(model, id, row, Fail(refs))
      requires row.endpointId.None? ==> newId !in model.tables.endpoints
      modifies this`model, this`trace, store, broker
      ensures Coupled() && Tracked() && model == PersistFailure(old(model), id, row, refs, newId)
    {
      hide Inv, Legal, Exec, SavePair, NextEndpoint, Apply, Enabled, PersistFailure;
      Holding(model);
      FailProceeds(model, id, row, refs, newId);
      var failed := row.(observed := ObservedState.Failed, failure := Some(StartFailed), version := row.version + 1);
      if refs.Some? {
        var endpoint := DraftEndpoint(id, row, Unhealthy, refs.value.url);
        var key := if row.endpointId.Some? then row.endpointId.value else newId;
        SaveBoth(id, failed.(endpointId := Some(key)), key, endpoint, Some(refs.value.ref), true, Proceed(newId));
      } else {
        SaveAndComplete(id, failed, Proceed(newId));
      }
    }

    method PersistReadyPair(id: DeploymentId, row: Deployment, handle: EngineHandle, newId: EndpointId)
      returns (ready: Deployment)
      requires Coupled() && Tracked() && About(model, id, row, Finish(handle))
      requires row.endpointId.None? ==> newId !in model.tables.endpoints
      modifies this`model, this`trace, store, broker
      ensures Coupled() && Tracked() && model.readers == old(model.readers) && Closing(model, id, FinishEvent)
      ensures Lookup(model.tables.deployments, id) == Some(ready) && ready.observed.Ready?
      ensures ready.version == row.version + 1 && Lookup(model.tables.evidence, id) == Some(handle.ref)
      ensures var endpoint := EndpointOf(model.tables, ready);
              endpoint.Some? && endpoint.value.state.Serving? && endpoint.value.url == handle.url
    {
      hide Inv, Legal, Exec, SavePair, NextEndpoint, Apply, Enabled;
      Holding(model);
      FinishProceeds(model, id, row, handle, newId);
      var endpoint := DraftEndpoint(id, row, Serving, handle.url);
      var key := if row.endpointId.Some? then row.endpointId.value else newId;
      ready := row.(observed := ObservedState.Ready, endpointId := Some(key), failure := None, version := row.version + 1);
      SaveBoth(id, ready, key, endpoint, Some(handle.ref), true, Proceed(newId));
    }

    /** `_launch`, from the LOADING event on. */
    method Launch(id: DeploymentId, row: Deployment, answers: LaunchAnswers, newId: EndpointId) returns (outcome: Outcome)
      requires Coupled() && Tracked() && About(model, id, row, Load) && PossibleAnswers(answers)
      requires newId !in model.tables.endpoints
      modifies this`model, this`trace, store, broker
      ensures Coupled() && Tracked() && model.command.Idle? && model.readers == old(model.readers)
      ensures Lookup(model.tables.deployments, id).Some?
      ensures LaunchResult(answers, outcome, model.tables.deployments[id])
    {
      hide Inv, Legal, Exec, Coupled, Tracked, Verdict, PossibleAnswers;
      LogPhase(id, LOADING);
      Unpacked(answers);
      var prepared := PrepareExecution(id, row, answers.prepare, newId);
      if answers.prepare.Raise? {
        return Unexpected;
      }
      outcome := StartAndRecord(id, prepared, answers, newId);
    }

    method StartAndRecord(id: DeploymentId, row: Deployment, answers: LaunchAnswers, newId: EndpointId) returns (outcome: Outcome)
      requires Coupled() && Tracked() && About(model, id, row, Start)
      requires PossibleAnswers(answers) && !answers.prepare.Raise?
      requires row.endpointId.None? ==> newId !in model.tables.endpoints
      requires Lookup(model.tables.deployments, id) == Some(row) && row.observed.Starting?
      modifies this`model, this`trace, store, broker
      ensures Coupled() && Tracked() && model.command.Idle? && model.readers == old(model.readers)
      ensures Lookup(model.tables.deployments, id).Some?
      ensures LaunchResult(answers, outcome, model.tables.deployments[id])
    {
      hide Inv, Legal, Exec, Coupled, Tracked, Verdict, PossibleAnswers;
      Unpacked(answers);
      var handle, refs := StartExecution(id, row, answers);
      if handle.Some? {
        var ready := PersistReadyPair(id, row, handle.value, newId);
        LogPhase(id, READY);
        outcome := Ok(ready);
      } else if Verdict(answers).Failed? {
        RecordFailure(id, row, refs, newId);
        outcome := StartupFailed;
      } else {
        outcome := Unexpected;
      }
    }

    /** The failed row, and its event. */
    method RecordFailure(id: DeploymentId, row: Deployment, refs: Option<EngineHandle>, newId: EndpointId)
      requires Coupled() && Tracked() && About(model, id, row, Fail(refs))
      requires row.endpointId.None? ==> newId !in model.tables.endpoints
      modifies this`model, this`trace, store, broker
      ensures Coupled() && Tracked() && model.command.Idle? && model.readers == old(model.readers)
      ensures Lookup(model.tables.deployments, id).Some? && model.tables.deployments[id].observed.Failed?
      ensures refs.Some? ==> Lookup(model.tables.evidence, id) == Some(refs.value.ref)
    {
      hide Inv, Legal, Exec, Coupled, Tracked, PersistFailure;
      FailureLeaves(model, id, row, refs, newId);
      PersistFailed(id, row, refs, newId);
      LogPhase(id, FAILED);
    }

    /** `admit_and_persist` of a new deployment. */
    method AdmitDraft(id: DeploymentId, drafted: Deployment, key: Option<string>, digest: string)
      requires Coupled() && Tracked() && About(model, id, drafted, Admit(key, digest))
      modifies this`model, this`trace, store, broker
      ensures Coupled() && Tracked() && model == AdmitIntent(old(model), id, drafted, key, digest)
      ensures About(model, id, drafted, Queue)
    {
      hide Inv, Legal, Exec, Apply, Enabled, CreateIntent;
      Holding(model);
      AdmitHolds(model, id, drafted, key, digest);
      broker.Admit(id, TaskState.Accepted);
      store.PersistIntent(id, drafted, key, digest);
      Step(Proceed(0));
    }

    /** `_create_deployment`, for an id never used before. */
    method CreateDeployment(id: DeploymentId, key: Option<string>, digest: string, node: NodeRef, admitted: bool,
                            answers: LaunchAnswers, newId: EndpointId)
      returns (outcome: Outcome, replay: Option<DeploymentId>)
      requires Valid() && PossibleAnswers(answers) && id !in model.tables.deployments && newId !in model.tables.endpoints
      modifies this`model, this`trace, store, broker
      ensures Valid() && model.readers == old(model.readers)
      ensures match ResolveIdempotency(old(model.tables), key, digest)
              case Conflict => outcome == KeyConflict && model == old(model)
              case Replay(resource) => replay == Some(resource) && model == old(model)
              case Fresh =>
                if !admitted then outcome == Refused && model.tables == old(model.tables)
                else Lookup(model.tables.deployments, id).Some? && LaunchResult(answers, outcome, model.tables.deployments[id])
    {
      hide Inv, Legal, Exec, Coupled, Tracked, PossibleAnswers, LaunchResult;
      InStep();
      replay := None;
      outcome := Refused;
      var found := store.Resolve(key, digest);
      if found.Conflict? {
        return KeyConflict, None;
      }
      if found.Replay? {
        return Refused, Some(found.resource);
      }
      outcome := CreateNew(id, key, digest, node, admitted, answers, newId);
    }

    method CreateNew(id: DeploymentId, key: Option<string>, digest: string, node: NodeRef, admitted: bool,
                     answers: LaunchAnswers, newId: EndpointId)
      returns (outcome: Outcome)
      requires Valid() && PossibleAnswers(answers) && id !in model.tables.deployments && newId !in model.tables.endpoints
      requires ResolveIdempotency(model.tables, key, digest).Fresh?
      modifies this`model, this`trace, store, broker
      ensures Valid() && model.readers == old(model.readers)
      ensures !admitted ==> outcome == Refused && model.tables == old(model.tables)
      ensures admitted ==>
                Lookup(model.tables.deployments, id).Some? && LaunchResult(answers, outcome, model.tables.deployments[id])
    {
      hide Inv, Legal, Exec, Tracked, Apply, Enabled, CreateIntent, PossibleAnswers, LaunchResult;
      BeginsCreate(model, id, key, digest, node);
      Step(BeginCreate(id, key, digest, node));
      if !admitted {
        RefuseEnds(model);
        Step(Refuse);
        return Refused;
      }
      outcome := CreateAdmitted(id, Deployment(Active, Starting, node, None, None, 1), key, digest, answers, newId);
    }

    method CreateAdmitted(id: DeploymentId, drafted: Deployment, key: Option<string>, digest: string,
                          answers: LaunchAnswers, newId: EndpointId)
      returns (outcome: Outcome)
      requires Coupled() && Tracked() && About(model, id, drafted, Admit(key, digest)) && PossibleAnswers(answers)
      requires newId !in model.tables.endpoints
      modifies this`model, this`trace, store, broker
      ensures Coupled() && Tracked() && model.command.Idle? && model.readers == old(model.readers)
      ensures Lookup(model.tables.deployments, id).Some?
      ensures LaunchResult(answers, outcome, model.tables.deployments[id])
    {
      hide Inv, Legal, Exec, Coupled, Tracked, CreateIntent, PossibleAnswers, LaunchResult;
      AdmitDraft(id, drafted, key, digest);
      IntentEndpoints(old(model).tables, id, drafted, key, digest);
      outcome := QueueAndLaunch(id, drafted, answers, newId);
    }

    /** The QUEUED event and the launch, which runs as the callback of the transition to DISPATCHING. */
    method QueueAndLaunch(id: DeploymentId, row: Deployment, answers: LaunchAnswers, newId: EndpointId) returns (outcome: Outcome)
      requires Coupled() && Tracked() && About(model, id, row, Queue) && PossibleAnswers(answers)
      requires newId !in model.tables.endpoints
      modifies this`model, this`trace, store, broker
      ensures Coupled() && Tracked() && model.command.Idle? && model.readers == old(model.readers)
      ensures Lookup(model.tables.deployments, id).Some?
      ensures LaunchResult(answers, outcome, model.tables.deployments[id])
    {
      hide Inv, Legal, Exec, Apply, Enabled, PossibleAnswers, LaunchResult;
      LogPhase(id, QUEUED);
      DispatchProceeds(model, id, row);
      broker.Transition(id, Dispatching);
      Step(Proceed(0));
      outcome := Launch(id, row, answers, newId);
    }

    /** `persist_stopping`: a transition of an open task, an admission of a closed one. */
    method PersistStop(id: DeploymentId, row: Deployment)
      requires Coupled() && Tracked() && About(model, id, row, Stop)
      modifies this`model, this`trace, store, broker
      ensures Coupled() && Tracked() && model == PersistStopping(old(model), id, row)
    {
      hide Inv, Legal, Exec, Apply, Enabled;
      StopProceeds(model, id, row);
      if row.observed.Starting? || row.observed.Stopping? {
        broker.Transition(id, Canceling);
      } else {
        broker.Admit(id, Canceling);
      }
      store.WriteDeployment(id, row.(desired := StopRequested, observed := Stopping, version := row.version + 1));
      Step(Proceed(0));
    }

    /** `persist_stopped`. */
    method PersistRelease(id: DeploymentId, row: Deployment) returns (stopped: Deployment)
      requires Coupled() && Tracked() && About(model, id, row, Retire)
      modifies this`model, this`trace, store, broker
      ensures Coupled() && Tracked() && EndpointKnown(old(model), row)
      ensures model == PersistStopped(old(model), id, row) && stopped == StoppedRow(row)
    {
      hide Inv, Legal, Exec, SavePair, Apply, Enabled, PersistStopped;
      RetireProceeds(model, id, row);
      stopped := row.(observed := ObservedState.Stopped, version := row.version + 1);
      if row.endpointId.Some? {
        var endpoint := store.endpoints[row.endpointId.value];
        var retired := endpoint.(state := Retired, version := endpoint.version + 1);
        SaveBoth(id, stopped, row.endpointId.value, retired, None, true, Proceed(0));
      } else {
        SaveAndComplete(id, stopped, Proceed(0));
      }
    }

    /** The engine is asked to stop exactly when there is evidence of an execution. */
    method StopExecution(id: DeploymentId, row: Deployment, answer: Answer) returns (released: bool)
      requires Coupled() && Tracked() && About(model, id, row, EngineStop) && PossibleStop(answer)
      modifies this`model, this`trace
      ensures Coupled() && Tracked() && model.readers == old(model.readers) && model.tables == old(model.tables)
      ensures released <==> row.endpointId.None? || answer.Done?
      ensures if released then About(model, id, row, Retire) && model.command.relaunch == old(model.command.relaunch)
              else model.command.Idle?
    {
      hide Inv, Legal, Exec;
      Holding(model);
      if id in store.evidence && row.endpointId.Some? {
        Step(Engine(answer, 0));
        released := answer.Done?;
      } else {
        Step(Proceed(0));
        released := true;
      }
    }

    /** `_stop_deployment` of a deployment that is not stopped; for a restart the lock is kept. */
    method StopRunning(id: DeploymentId, row: Deployment, admitted: bool, answer: Answer) returns (outcome: Outcome)
      requires Coupled() && Tracked() && About(model, id, row, Stop) && PossibleStop(answer)
      modifies this`model, this`trace, store, broker
      ensures Coupled() && Tracked() && model.readers == old(model.readers)
      ensures model.tables.endpoints.Keys == old(model.tables.endpoints.Keys)
      ensures if StopRefused(row, admitted) then outcome == Refused && model == old(model).(command := Idle)
              else if StopFails(row, answer) then
                outcome == StopFailed && model.command.Idle? && Lookup(model.tables.deployments, id) == Some(StoppingRow(row))
              else
                && outcome == Ok(StoppedRow(StoppingRow(row)))
                && Lookup(model.tables.deployments, id) == Some(outcome.row)
                && Kept(model, id, outcome.row, old(model.command.relaunch))
    {
      hide Inv, Legal, Exec, Apply, Enabled, Kept, PersistStopping;
      if !row.observed.Starting? && !row.observed.Stopping? && !admitted {
        RefuseEnds(model);
        Step(Refuse);
        return Refused;
      }
      StoppingLeaves(model, id, row);
      PersistStop(id, row);
      outcome := StopPersisted(id, row.(desired := StopRequested, observed := Stopping, version := row.version + 1), answer);
    }

    method StopPersisted(id: DeploymentId, stopping: Deployment, answer: Answer) returns (outcome: Outcome)
      requires Coupled() && Tracked() && About(model, id, stopping, StopEvent) && PossibleStop(answer)
      requires Lookup(model.tables.deployments, id) == Some(stopping)
      modifies this`model, this`trace, store, broker
      ensures Coupled() && Tracked() && model.readers == old(model.readers)
      ensures model.tables.endpoints.Keys == old(model.tables.endpoints.Keys)
      ensures if StopFails(stopping, answer) then
                outcome == StopFailed && model.command.Idle? && Lookup(model.tables.deployments, id) == Some(stopping)
              else
                && outcome == Ok(StoppedRow(stopping))
                && Lookup(model.tables.deployments, id) == Some(outcome.row)
                && Kept(model, id, outcome.row, old(model.command.relaunch))
    {
      hide Inv, Legal, Exec, Coupled, Tracked, Apply, Enabled;
      LogPhase(id, STOPPING);
      var released := StopExecution(id, stopping, answer);
      if !released {
        return StopFailed;
      }
      var stopped := Released(id, stopping);
      outcome := Ok(stopped);
    }

    /** The stopped row, and its event. */
    method Released(id: DeploymentId, row: Deployment) returns (stopped: Deployment)
      requires Coupled() && Tracked() && About(model, id, row, Retire)
      modifies this`model, this`trace, store, broker
      ensures Coupled() && Tracked() && model.readers == old(model.readers)
      ensures model.tables.endpoints.Keys == old(model.tables.endpoints.Keys)
      ensures stopped == StoppedRow(row) && Lookup(model.tables.deployments, id) == Some(stopped)
      ensures Kept(model, id, stopped, old(model.command.relaunch))
    {
      hide Inv, Legal, Exec, Coupled, Tracked, Apply, Enabled, PersistStopped;
      Sound();
      RetireProceeds(model, id, row);
      StoppedLeaves(model, id, row);
      stopped := PersistRelease(id, row);
      LogPhase(id, RELEASED);
    }

    /** `stop_deployment`: stopping a stopped deployment changes nothing. */
    method StopDeployment(id: DeploymentId, admitted: bool, answer: Answer) returns (outcome: Outcome)
      requires Valid() && id in model.tables.deployments && PossibleStop(answer)
      modifies this`model, this`trace, store, broker
      ensures Valid() && model.readers == old(model.readers)
      ensures var row := old(model.tables.deployments)[id];
              if row.observed.Stopped? then outcome == Ok(row) && model.tables == old(model.tables)
              else if StopRefused(row, admitted) then outcome == Refused && model.tables == old(model.tables)
              else if StopFails(row, answer) then
                outcome == StopFailed && Lookup(model.tables.deployments, id) == Some(StoppingRow(row))
              else
                outcome == Ok(StoppedRow(StoppingRow(row))) && Lookup(model.tables.deployments, id) == Some(outcome.row)
    {
      hide Inv, Legal, Exec, Apply, Enabled;
      var row := store.deployments[id];
      if row.observed.Stopped? {
        return Ok(row);
      }
      BeginsStop(model, id);
      Step(BeginStop(id));
      outcome := StopRunning(id, row, admitted, answer);
    }

    /** `restart_deployment`: stops first unless stopped, then launches on the new node. */
    method RestartDeployment(id: DeploymentId, version: nat, node: NodeRef, stopAdmitted: bool, stopAnswer: Answer,
                             admitted: bool, answers: LaunchAnswers, newId: EndpointId)
      returns (outcome: Outcome)
      requires Valid() && id in model.tables.deployments
      requires PossibleStop(stopAnswer) && PossibleAnswers(answers) && newId !in model.tables.endpoints
      modifies this`model, this`trace, store, broker
      ensures Valid() && model.readers == old(model.readers)
      ensures old(model.tables.deployments)[id].version != version ==> outcome == VersionConflict && model == old(model)
      ensures var row := old(model.tables.deployments)[id];
              row.version == version ==>
                if row.observed.Stopped? then Relaunched(id, row, admitted, answers, outcome)
                else if StopRefused(row, stopAdmitted) then outcome == Refused && model.tables == old(model.tables)
                else if StopFails(row, stopAnswer) then
                  outcome == StopFailed && Lookup(model.tables.deployments, id) == Some(StoppingRow(row))
                else Relaunched(id, StoppedRow(StoppingRow(row)), admitted, answers, outcome)
      ensures old(model.tables.deployments)[id].observed.Stopped? && !admitted ==> model.tables == old(model.tables)
    {
      hide Inv, Legal, Exec, Tracked, Apply, Enabled, PossibleAnswers, LaunchResult, StopRefused, StopFails;
      var row := store.deployments[id];
      if row.version != version {
        return VersionConflict;
      }
      BeginsRestart(model, id, version, node);
      Step(BeginRestart(id, version, node));
      outcome := Ok(row);
      if !row.observed.Stopped? {
        outcome := StopRunning(id, row, stopAdmitted, stopAnswer);
        if !outcome.Ok? {
          return outcome;
        }
      }
      outcome := Restarted(id, outcome.row, node, admitted, answers, newId);
    }

    /** How the second half of a restart leaves a deployment stopped with this row. */
    ghost predicate Relaunched(id: DeploymentId, stopped: Deployment, admitted: bool, answers: LaunchAnswers, outcome: Outcome)
      reads this
    {
      if !admitted then outcome == Refused && Lookup(model.tables.deployments, id) == Some(stopped)
      else Lookup(model.tables.deployments, id).Some? && LaunchResult(answers, outcome, model.tables.deployments[id])
    }

    /** The second half of a restart: admission, `persist_starting`, and the launch. */
    method Restarted(id: DeploymentId, row: Deployment, node: NodeRef, admitted: bool, answers: LaunchAnswers, newId: EndpointId)
      returns (outcome: Outcome)
      requires Coupled() && Tracked() && About(model, id, row, Relaunch(node))
      requires PossibleAnswers(answers) && newId !in model.tables.endpoints
      modifies this`model, this`trace, store, broker
      ensures Coupled() && Tracked() && model.command.Idle? && model.readers == old(model.readers)
      ensures !admitted ==> outcome == Refused && model == old(model).(command := Idle)
      ensures admitted ==>
                Lookup(model.tables.deployments, id).Some? && LaunchResult(answers, outcome, model.tables.deployments[id])
    {
      hide Inv, Legal, Exec, Tracked, Apply, Enabled, PossibleAnswers, LaunchResult;
      Sound();
      RelaunchProceeds(model, id, row, node);
      if !admitted {
        RefuseEnds(model);
        Step(Refuse);
        return Refused;
      }
      var starting := PersistStart(id, row, node);
      outcome := QueueAndLaunch(id, starting, answers, newId);
    }

    /** `persist_starting`. */
    method PersistStart(id: DeploymentId, row: Deployment, node: NodeRef) returns (starting: Deployment)
      requires Coupled() && Tracked() && About(model, id, row, Relaunch(node))
      modifies this`model, this`trace, store, broker
      ensures Coupled() && Tracked() && model == PersistStarting(old(model), id, row, node)
      ensures About(model, id, starting, Queue)
    {
      hide Inv, Legal, Exec, Apply, Enabled;
      RelaunchProceeds(model, id, row, node);
      starting := row.(desired := Active, observed := Starting, node := node, failure := None, version := row.version + 1);
      broker.Admit(id, TaskState.Accepted);
      store.WriteDeployment(id, starting);
      Step(Proceed(0));
    }

    // ----- `get_deployment`, outside the lock

    /** First read: the row, if it is worth inspecting. */
    method ReadRow(ghost reader: nat, id: DeploymentId) returns (row: Deployment, more: bool)
      requires Coupled() && Tracked() && reader !in model.readers && id in model.tables.deployments
      modifies this`model, this`trace
      ensures Coupled() && Tracked() && model == Apply(old(model), Action.ReadRow(reader, id))
      ensures row == model.tables.deployments[id]
      ensures more <==> (row.observed.Ready? || row.observed.Degraded?) && row.endpointId.Some?
      ensures more ==> model.readers == old(model.readers)[reader := SawRow(id, row)]
      ensures !more ==> model == old(model)
    {
      hide Inv, Legal, Exec, Apply, Enabled;
      ReadRowSteps(model, reader, id);
      row := store.deployments[id];
      more := (row.observed.Ready? || row.observed.Degraded?) && row.endpointId.Some?;
      Step(Action.ReadRow(reader, id));
    }

    /** Second read: whatever commands have run since, the endpoint row is there. */
    method ReadEndpoint(ghost reader: nat, id: DeploymentId, row: Deployment) returns (endpoint: Endpoint)
      requires Coupled() && Tracked() && Lookup(model.readers, reader) == Some(SawRow(id, row))
      modifies this`model, this`trace
      ensures Coupled() && Tracked() && row.endpointId.Some?
      ensures Lookup(model.tables.endpoints, row.endpointId.value) == Some(endpoint)
      ensures model == old(model).(readers := old(model.readers)[reader := SawEndpoint(id, row, endpoint)])
    {
      hide Inv, Legal, Exec;
      ReaderFinds(model, reader);
      endpoint := store.endpoints[row.endpointId.value];
      Step(Action.ReadEndpoint(reader));
    }

    /** Third read: there is evidence of the execution to inspect. */
    method ReadEvidence(ghost reader: nat, id: DeploymentId, row: Deployment, endpoint: Endpoint) returns (ref: ExecutionRef)
      requires Coupled() && Tracked() && Lookup(model.readers, reader) == Some(SawEndpoint(id, row, endpoint))
      modifies this`model, this`trace
      ensures Coupled() && Tracked() && Lookup(model.tables.evidence, id) == Some(ref)
      ensures model == old(model).(readers := old(model.readers)[reader := Inspecting(id, row, endpoint)])
    {
      hide Inv, Legal, Exec;
      ReaderFinds(model, reader);
      ref := store.evidence[id];
      Step(Action.ReadEvidence(reader));
    }

    /** The end of `get_deployment`, under the lock: the observation is written only over the version
        it was made of. */
    method CommitObservation(ghost reader: nat, id: DeploymentId, row: Deployment, endpoint: Endpoint, ready: bool)
      returns (result: Deployment)
      requires Valid() && Lookup(model.readers, reader) == Some(Inspecting(id, row, endpoint))
      modifies this`model, this`trace, store
      ensures Valid() && model == Apply(old(model), Commit(reader, ready))
      ensures id in old(model.tables.deployments) && id in model.tables.deployments
      ensures result == model.tables.deployments[id] || (result == row && model.tables == old(model.tables))
      ensures old(model.tables.deployments)[id].version == row.version ==> result == model.tables.deployments[id]
    {
      hide Inv, Legal, Exec, SavePair, Apply, Enabled;
      CommitSteps(model, reader, ready);
      var observed := if ready then ObservedState.Ready else Degraded;
      var state := if ready then Serving else Unhealthy;
      if observed == row.observed && state == endpoint.state {
        Step(Commit(reader, ready));
        return row;
      }
      var current := store.deployments[id];
      if current.version != row.version {
        Step(Commit(reader, ready));
        return current;
      }
      result := row.(observed := observed, failure := if ready then None else Some(ExecutionUnavailable), version := row.version + 1);
      WriteObservation(reader, id, result, row.endpointId.value,
                       endpoint.(state := state, version := endpoint.version + 1), ready);
    }

    method WriteObservation(ghost reader: nat, id: DeploymentId, row: Deployment, key: EndpointId, endpoint: Endpoint, ghost ready: bool)
      requires Valid() && Enabled(model, Commit(reader, ready))
      requires var s' := Apply(model, Commit(reader, ready));
               s'.tables == SavePair(model.tables, id, row, key, endpoint, None) && s'.command.Idle? && s'.broker == model.broker
      modifies this`model, this`trace, store
      ensures Valid() && model == Apply(old(model), Commit(reader, ready))
    {
      hide Inv, Legal, Exec, SavePair, Apply, Enabled;
      store.WritePair(id, row, key, endpoint, None);
      Step(Commit(reader, ready));
    }
  }
}
