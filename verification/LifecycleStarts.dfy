/** When an engine start can be repeated: a deployment is started a second time although its earlier start
    has not since had a successful engine stop. */
module LifecycleStarts {
  import opened Options
  import opened Domain
  import opened ProductStore
  import opened Lifecycle
  import opened LifecycleInvariants
  import opened LifecycleSteps
  import opened LifecycleTheorems

  // ----- engines that always prepare

  ghost predicate AlwaysPrepares(run: seq<Action>) {
    forall i | 0 <= i < |run| :: !(run[i].Engine? && run[i].answer.NoHandle?)
  }

  lemma {:induction false} PreparedRun(s: State, run: seq<Action>)
    requires Legal(s, run) && AlwaysPrepares(run) && s.unprepared == {}
    ensures Exec(s, run).unprepared == {}
    decreases |run|
  {
    if run != [] {
      assert !(run[0].Engine? && run[0].answer.NoHandle?);
      PreparedStep(s, run[0]);
      assert forall i | 0 <= i < |run[1..]| :: run[1..][i] == run[i + 1];
      hide Apply, Enabled;
      PreparedRun(Apply(s, run[0]), run[1..]);
    }
  }

  lemma PreparedStep(s: State, a: Action)
    requires Enabled(s, a) && !(a.Engine? && a.answer.NoHandle?)
    ensures Apply(s, a).unprepared == s.unprepared
  {
    hide Advance, Answered, Committed, ActiveTasks, ResolveIdempotency;
    match a
    case Proceed(newId) => PreparedAdvance(s, newId);
    case Engine(answer, newId) => PreparedAnswer(s, answer, newId);
    case Commit(reader, ready) => PreparedCommit(s, reader, ready);
    case _ =>
  }

  lemma PreparedAdvance(s: State, newId: EndpointId)
    requires CanProceed(s, newId)
    ensures Advance(s, newId).unprepared == s.unprepared
  {
    hide PersistFailure, PersistReady, PersistStopping, PersistStopped, PersistStarting, CreateIntent, AppendEvent;
  }

  lemma PreparedAnswer(s: State, answer: Answer, newId: EndpointId)
    requires CanAnswer(s, answer, newId) && !answer.NoHandle?
    ensures Answered(s, answer, newId).unprepared == s.unprepared
  {
    hide PersistPrepared;
  }

  lemma PreparedCommit(s: State, reader: nat, ready: bool)
    requires reader in s.readers && s.readers[reader].Inspecting?
    ensures Committed(s, reader, ready).unprepared == s.unprepared
  {
    hide SavePair;
  }

  /** With engines whose `prepare` returns a handle, every engine start is called with its execution
      reference and endpoint already durable, and never on a deployment whose earlier start has not
      since had a successful engine stop. */
  lemma StartsOnceWhenPrepared(run: seq<Action>)
    requires Legal(INITIAL, run) && AlwaysPrepares(run)
    ensures var s := Exec(INITIAL, run); s.blindStarts == {} && s.doubleStarts == {}
  {
    InitialInv();
    RunKeeps(INITIAL, run);
    PreparedRun(INITIAL, run);
  }

  // ----- a deployment with a durable reference

  predicate Referenced(s: State, id: DeploymentId) {
    id in s.tables.deployments && s.tables.deployments[id].endpointId.Some?
  }

  predicate AtStart(s: State, id: DeploymentId) {
    s.command.Busy? && s.command.id == id && s.command.stage.Start?
  }

  /** A deployment with a reference is not stopped while it may be running, and the way to its next start
      leads through a confirmed stop; the start itself may already have been reached when it got one. */
  ghost predicate Guarded(s: State, id: DeploymentId) {
    Referenced(s, id) && id in s.live ==>
      && !s.tables.deployments[id].observed.Stopped?
      && (s.command.Busy? && s.command.id == id ==> s.command.stage.Start? || !BeforeStart(s.command.stage))
  }

  lemma OthersGuarded(s: State, s': State, c: DeploymentId, id: DeploymentId)
    requires Local(s, s', c) && id != c && Guarded(s, id)
    ensures Guarded(s', id) && (Referenced(s, id) <==> Referenced(s', id)) && (id in s'.live <==> id in s.live)
  {
    hide EventsOf;
    assert Lookup(s'.tables.deployments, id) == Lookup(s.tables.deployments, id);
  }

  lemma EventGuards(s: State, id: DeploymentId)
    requires Running(s, id) && Guarded(s, id) && StageEvent(s.command.stage).Some?
    ensures var s' := AppendPhase(s, id, StageEvent(s.command.stage).value);
      Guarded(s', id) && s'.live == s.live && !AtStart(s', id)
  {
    hide Own, TablesInv, AppendEvent;
    EventsOnly(s.tables, id, StageEvent(s.command.stage).value);
  }

  /** A deployment whose reference does not come from the step, and whose command was on the way to a start. */
  lemma StillGuarded(s: State, s': State, id: DeploymentId)
    requires Guarded(s, id) && s.command.Busy? && s.command.id == id
    requires BeforeStart(s.command.stage) && !s.command.stage.Start?
    requires s'.live == s.live && (Referenced(s', id) ==> Referenced(s, id))
    ensures Guarded(s', id)
  {
  }

  /** The rows of a stop, a failure and a success are those of a command far from a start. */
  ghost predicate FarFromStart(s: State, s': State, id: DeploymentId) {
    && s'.live == s.live && s'.command.Busy? && !BeforeStart(s'.command.stage)
    && (id in s'.tables.deployments ==> !s'.tables.deployments[id].observed.Stopped?)
  }

  lemma StopGuards(s: State, id: DeploymentId, row: Deployment)
    requires s.command.Busy? && s.command.id == id
    ensures FarFromStart(s, PersistStopping(s, id, row), id)
  {
  }

  lemma FailureGuards(s: State, id: DeploymentId, row: Deployment, refs: Option<EngineHandle>, newId: EndpointId)
    requires s.command.Busy? && s.command.id == id
    ensures FarFromStart(s, PersistFailure(s, id, row, refs, newId), id)
  {
    hide ReplaceEndpoint, NextEndpoint;
  }

  lemma ReadyGuards(s: State, id: DeploymentId, row: Deployment, handle: EngineHandle, newId: EndpointId)
    requires s.command.Busy? && s.command.id == id
    ensures FarFromStart(s, PersistReady(s, id, row, handle, newId), id)
  {
    hide ReplaceEndpoint, NextEndpoint;
  }

  lemma WriteGuards(s: State, newId: EndpointId)
    requires CanProceed(s, newId) && (s.command.stage.Stop? || s.command.stage.Fail? || s.command.stage.Finish?)
    ensures var s' := Advance(s, newId);
      Guarded(s', s.command.id) && s'.live == s.live && !AtStart(s', s.command.id)
  {
    hide AppendPhase, PersistStopping, PersistFailure, PersistReady;
    var Busy(id, row, stage, _) := s.command;
    match stage
    case Stop => StopGuards(s, id, row);
    case Fail(refs) => FailureGuards(s, id, row, refs, newId);
    case Finish(handle) => ReadyGuards(s, id, row, handle, newId);
  }

  lemma KeptReference(s: State, newId: EndpointId)
    requires CanProceed(s, newId) && CommandInv(s)
    requires s.command.stage.Admit? || s.command.stage.Dispatch? || s.command.stage.Retire? || s.command.stage.Relaunch?
    ensures var s' := Advance(s, newId);
      s'.live == s.live && !AtStart(s', s.command.id) && (Referenced(s', s.command.id) ==> Referenced(s, s.command.id))
  {
    hide ReplaceEndpoint, NextEndpoint, AppendPhase, PersistFailure, PersistReady, PersistStopping;
  }

  lemma PersistGuards(s: State, newId: EndpointId)
    requires CanProceed(s, newId) && CommandInv(s) && Guarded(s, s.command.id)
    requires StageEvent(s.command.stage).None? && !s.command.stage.EngineStop?
    ensures var s' := Advance(s, newId);
      Guarded(s', s.command.id) && s'.live == s.live && !AtStart(s', s.command.id)
  {
    hide Guarded, AtStart, Referenced, Advance, CommandInv;
    if s.command.stage.Stop? || s.command.stage.Fail? || s.command.stage.Finish? {
      WriteGuards(s, newId);
    } else {
      KeptReference(s, newId);
      StillGuarded(s, Advance(s, newId), s.command.id);
    }
  }

  lemma AdvanceGuards(s: State, newId: EndpointId)
    requires CanProceed(s, newId) && Running(s, s.command.id) && Guarded(s, s.command.id)
    ensures var s' := Advance(s, newId);
      Guarded(s', s.command.id) && s'.live == s.live && !AtStart(s', s.command.id)
  {
    var id := s.command.id;
    if StageEvent(s.command.stage).Some? {
      hide Guarded, AtStart, Running, AppendPhase, CanProceed;
      EventGuards(s, id);
    } else if s.command.stage.EngineStop? {
      NoStopGuards(s, id);
      hide Guarded, AtStart, Running, AppendPhase;
    } else {
      RunningFits(s);
      hide Guarded, AtStart, Running, Advance, CommandInv;
      PersistGuards(s, newId);
    }
  }

  lemma RunningFits(s: State)
    requires s.command.Busy? && Running(s, s.command.id)
    ensures CommandInv(s)
  {
    hide TablesInv, CommandInv;
  }

  lemma NoStopGuards(s: State, id: DeploymentId)
    requires Running(s, id) && s.command.stage.EngineStop? && !HasExecution(s, id, s.command.row)
    ensures Guarded(At(s, Retire), id) && !AtStart(At(s, Retire), id)
  {
    EvidenceKnown(s.tables, id);
    hide TablesInv, InOrder, LogInv, LiveInv, ExpectedMark;
  }

  lemma PrepareGuards(s: State, answer: Answer, newId: EndpointId)
    requires CanAnswer(s, answer, newId) && Running(s, s.command.id) && Guarded(s, s.command.id) && s.command.stage.Prepare?
    ensures var s' := Answered(s, answer, newId);
      Guarded(s', s.command.id) && s'.live == s.live
      && (s.command.id in s'.live ==> !Referenced(s, s.command.id))
  {
    hide TablesInv, InOrder, ReplaceEndpoint, NextEndpoint, LogInv, AnsweredStart, AnsweredCleanup;
  }

  /** Only `prepare` leads to a start. */
  lemma StartGuards(s: State, id: DeploymentId, answer: Answer)
    requires s.command.Busy? && s.command.id == id && s.command.stage.Start? && CommandInv(s)
    ensures var s' := AnsweredStart(s, id, s.command.row, answer); Guarded(s', id) && !AtStart(s', id)
  {
  }

  lemma CleanupGuards(s: State, id: DeploymentId, answer: Answer, refs: Option<EngineHandle>)
    requires s.command.Busy? && s.command.id == id && (s.command.stage.Mismatch? || s.command.stage.Cleanup?) && Guarded(s, id)
    ensures var s' := AnsweredCleanup(s, id, answer, refs); Guarded(s', id) && !AtStart(s', id)
  {
  }

  lemma LaterAnswerGuards(s: State, answer: Answer, newId: EndpointId)
    requires CanAnswer(s, answer, newId) && !s.command.stage.Prepare? && CommandInv(s) && Guarded(s, s.command.id)
    ensures var s' := Answered(s, answer, newId); Guarded(s', s.command.id) && !AtStart(s', s.command.id)
  {
    var id := s.command.id;
    if s.command.stage.Start? {
      hide Guarded, AtStart, AnsweredStart, CommandInv;
      StartGuards(s, id, answer);
    } else if s.command.stage.Mismatch? {
      hide Guarded, AtStart, AnsweredCleanup, CommandInv;
      CleanupGuards(s, id, answer, Some(s.command.stage.handle));
    } else if s.command.stage.Cleanup? {
      hide Guarded, AtStart, AnsweredCleanup, CommandInv;
      CleanupGuards(s, id, answer, s.command.stage.refs);
    } else {
      hide PersistPrepared, AnsweredStart, AnsweredCleanup, CommandInv;
    }
  }

  lemma AnswerGuards(s: State, answer: Answer, newId: EndpointId)
    requires CanAnswer(s, answer, newId) && Running(s, s.command.id) && Guarded(s, s.command.id)
    ensures var s' := Answered(s, answer, newId);
      Guarded(s', s.command.id)
      && (AtStart(s', s.command.id) && s.command.id in s'.live ==> !Referenced(s, s.command.id))
  {
    RunningFits(s);
    hide Running, Guarded, Answered, Referenced, AtStart, CommandInv;
    if s.command.stage.Prepare? {
      PrepareGuards(s, answer, newId);
    } else {
      LaterAnswerGuards(s, answer, newId);
    }
  }

  /** Taking the lock: the command starts far from a start, unless it stops first or nothing may be running. */
  lemma BeginGuards(s: State, a: Action, id: DeploymentId)
    requires Enabled(s, a) && (a.BeginCreate? || a.BeginStop? || a.BeginRestart?) && Guarded(s, id)
    ensures var s' := Apply(s, a);
      Guarded(s', id) && s'.live == s.live && s'.doubleStarts == s.doubleStarts && (AtStart(s', id) ==> AtStart(s, id))
  {
    hide Advance, Answered, Committed, ResolveIdempotency, ActiveTasks;
  }

  lemma CommitGuards(s: State, reader: nat, ready: bool, id: DeploymentId)
    requires Inv(s) && Enabled(s, Commit(reader, ready)) && Guarded(s, id)
    ensures var s' := Committed(s, reader, ready);
      Guarded(s', id) && s'.live == s.live && s'.doubleStarts == s.doubleStarts && s'.command == s.command
  {
    hide Inv, Committed;
    CommitLeaves(s, reader, ready);
    CommitWatches(s, reader, ready);
    if Referenced(Committed(s, reader, ready), id) {
      CommitReferences(s, reader, ready, id);
    }
  }

  /** A commit gives no deployment its reference. */
  lemma CommitReferences(s: State, reader: nat, ready: bool, id: DeploymentId)
    requires Inv(s) && Enabled(s, Commit(reader, ready)) && Referenced(Committed(s, reader, ready), id)
    ensures Referenced(s, id)
  {
    assert ReaderInv(s.tables, s.readers[reader]);
    hide Inv, ReplaceEndpoint;
  }

  /** What a step that is not a command's does to this. */
  lemma QuietGuards(s: State, a: Action, id: DeploymentId)
    requires Inv(s) && Enabled(s, a) && !a.Proceed? && !a.Engine? && Guarded(s, id)
    ensures var s' := Apply(s, a);
      Guarded(s', id) && s'.live == s.live && s'.doubleStarts == s.doubleStarts && (AtStart(s', id) ==> AtStart(s, id))
  {
    hide Inv, Guarded, AtStart, Advance, Answered, Committed, ResolveIdempotency, ActiveTasks;
    match a
    case BeginCreate(_, _, _, _) => BeginGuards(s, a, id);
    case BeginStop(_) => BeginGuards(s, a, id);
    case BeginRestart(_, _, _) => BeginGuards(s, a, id);
    case Commit(reader, ready) =>
      CommitGuards(s, reader, ready, id);
      SameStart(s, Apply(s, a), id);
    case _ => OutsideGuards(s, a, id);
  }

  lemma SameStart(s: State, s': State, id: DeploymentId)
    requires s'.command == s.command
    ensures AtStart(s', id) <==> AtStart(s, id)
  {
  }

  lemma OutsideGuards(s: State, a: Action, id: DeploymentId)
    requires Enabled(s, a) && (a.Refuse? || a.ReadRow? || a.ReadEndpoint? || a.ReadEvidence? || a.Crash?) && Guarded(s, id)
    ensures var s' := Apply(s, a);
      Guarded(s', id) && s'.live == s.live && s'.doubleStarts == s.doubleStarts && (AtStart(s', id) ==> AtStart(s, id))
  {
    hide Advance, Answered, Committed, ResolveIdempotency, ActiveTasks;
  }

  lemma CommitWatches(s: State, reader: nat, ready: bool)
    requires reader in s.readers && s.readers[reader].Inspecting?
    ensures var s' := Committed(s, reader, ready); s'.live == s.live && s'.doubleStarts == s.doubleStarts
  {
    hide SavePair;
  }

  /** A command's step, for the deployment it works on or any other. */
  lemma WorkGuards(s: State, a: Action, id: DeploymentId)
    requires Inv(s) && Enabled(s, a) && (a.Proceed? || a.Engine?) && Guarded(s, id)
    ensures var s' := Apply(s, a);
      Guarded(s', id) && (AtStart(s', id) && id in s'.live && Referenced(s, id) ==> AtStart(s, id) && id in s.live)
  {
    hide Inv, Guarded, Running, Own, Others, Local, Advance, Answered;
    HolderRuns(s);
    var c := s.command.id;
    if a.Proceed? {
      AdvanceOwn(s, a.newId);
      if id == c {
        AdvanceGuards(s, a.newId);
      }
    } else {
      AnswerOwn(s, a.answer, a.newId);
      if id == c {
        AnswerGuards(s, a.answer, a.newId);
      }
    }
    if id != c {
      LocalCommand(s, Apply(s, a), c);
      OthersGuarded(s, Apply(s, a), c, id);
    }
  }

  lemma DoubledStep(s: State, a: Action, id: DeploymentId)
    requires Enabled(s, a)
    ensures id in Apply(s, a).doubleStarts ==> id in s.doubleStarts || (id in s.live && AtStart(s, id))
  {
    hide Advance, Committed, Answered, ActiveTasks, ResolveIdempotency;
    match a
    case Proceed(newId) => DoubledAdvance(s, newId);
    case Engine(answer, newId) => DoubledAnswer(s, answer, newId, id);
    case Commit(reader, ready) => CommitWatches(s, reader, ready);
    case _ =>
  }

  lemma DoubledAdvance(s: State, newId: EndpointId)
    requires CanProceed(s, newId)
    ensures Advance(s, newId).doubleStarts == s.doubleStarts
  {
    hide PersistFailure, PersistReady, PersistStopping, PersistStopped, PersistStarting, CreateIntent, AppendEvent;
  }

  lemma DoubledAnswer(s: State, answer: Answer, newId: EndpointId, id: DeploymentId)
    requires CanAnswer(s, answer, newId)
    ensures id in Answered(s, answer, newId).doubleStarts ==> id in s.doubleStarts || (id in s.live && AtStart(s, id))
  {
    hide PersistPrepared;
  }

  /** Nothing that may happen from here on repeats a start of this deployment. */
  ghost predicate Settled(s: State, id: DeploymentId) {
    Referenced(s, id) && Guarded(s, id) && id !in s.doubleStarts && !(id in s.live && AtStart(s, id))
  }

  lemma ReferenceStays(s: State, a: Action, id: DeploymentId)
    requires Inv(s) && Enabled(s, a) && Referenced(s, id)
    ensures Referenced(Apply(s, a), id)
  {
    hide Inv, Apply, Enabled;
    StepMoves(s, a);
    assert Moves(s.tables, Apply(s, a).tables, id);
  }

  lemma SettledStep(s: State, a: Action, id: DeploymentId)
    requires Inv(s) && Enabled(s, a) && Settled(s, id)
    ensures Settled(Apply(s, a), id)
  {
    hide Inv, Apply, Enabled, Guarded, Referenced, AtStart;
    ReferenceStays(s, a, id);
    DoubledStep(s, a, id);
    if a.Proceed? || a.Engine? {
      WorkGuards(s, a, id);
    } else {
      QuietGuards(s, a, id);
    }
  }

  lemma {:induction false} SettledForever(s: State, run: seq<Action>, id: DeploymentId)
    requires Inv(s) && Legal(s, run) && Settled(s, id)
    ensures Settled(Exec(s, run), id)
    decreases |run|
  {
    hide Inv, Apply, Enabled, Settled;
    if run != [] {
      StepKeeps(s, run[0]);
      SettledStep(s, run[0], id);
      SettledForever(Apply(s, run[0]), run[1..], id);
    }
  }

  lemma {:induction false} GuardedRun(s: State, run: seq<Action>, id: DeploymentId)
    requires Inv(s) && Legal(s, run) && Guarded(s, id)
    ensures Guarded(Exec(s, run), id)
    decreases |run|
  {
    hide Inv, Apply, Enabled, Guarded;
    if run != [] {
      StepKeeps(s, run[0]);
      if run[0].Proceed? || run[0].Engine? {
        WorkGuards(s, run[0], id);
      } else {
        QuietGuards(s, run[0], id);
      }
      GuardedRun(Apply(s, run[0]), run[1..], id);
    }
  }

  lemma ReachableGuarded(s: State, id: DeploymentId)
    requires Reachable(s)
    ensures Guarded(s, id)
  {
    var run :| Legal(INITIAL, run) && Exec(INITIAL, run) == s;
    InitialInv();
    hide Inv, Legal, Exec;
    GuardedRun(INITIAL, run, id);
  }

  /** Whatever the engines answer, also for other deployments: one that has a durable reference, and was never
      started without one, is never started again without a successful engine stop between. */
  lemma {:induction false} ReferencedStartsOnce(s: State, run: seq<Action>, id: DeploymentId)
    requires Inv(s) && Legal(s, run) && Referenced(s, id) && id !in s.blindStarts
    ensures id !in Exec(s, run).doubleStarts && Referenced(Exec(s, run), id)
  {
    ReferencedSettled(s, id);
    hide Inv, Legal, Exec, Guarded;
    SettledForever(s, run, id);
  }

  lemma ReferencedSettled(s: State, id: DeploymentId)
    requires Inv(s) && Referenced(s, id) && id !in s.blindStarts
    ensures Settled(s, id)
  {
    hide TablesInv, CommandInv, BrokerInv, LogInv, ReaderInv;
    assert LiveInv(s, id);
  }

  // ----- a deployment without one

  /** A run that leads from one state to another. */
  ghost predicate Reached(s: State, run: seq<Action>, s': State) {
    Legal(s, run) && Exec(s, run) == s'
  }

  lemma Then(s: State, run: seq<Action>, s1: State, a: Action) returns (run': seq<Action>, s': State)
    requires Reached(s, run, s1) && Enabled(s1, a)
    ensures run' == run + [a] && s' == Apply(s1, a) && Reached(s, run', s')
  {
    hide Apply, Enabled;
    ExecAppend(s, run, a);
    run', s' := run + [a], Apply(s1, a);
  }

  /** The deployment is stored without a reference, and there is no evidence of an execution. */
  ghost predicate Bare(s: State, id: DeploymentId) {
    id in s.tables.deployments && s.tables.deployments[id].endpointId.None? && id !in s.tables.evidence
  }

  /** A restart of it is under way, somewhere before the call of `prepare`. */
  ghost predicate Restarting(s: State, id: DeploymentId) {
    && Bare(s, id) && s.command.Busy? && s.command.id == id && s.command.row.endpointId.None? && s.command.relaunch.Some?
    && (ToPrepare(s.command.stage) > 0 || s.command.stage.Prepare?)
  }

  function ToPrepare(stage: Stage): nat {
    match stage
    case Stop => 9
    case StopEvent => 8
    case EngineStop => 7
    case Retire => 6
    case ReleaseEvent => 5
    case Relaunch(_) => 4
    case Queue => 3
    case Dispatch => 2
    case Load => 1
    case _ => 0
  }

  lemma RestartLogs(s: State, id: DeploymentId)
    requires Restarting(s, id) && StageEvent(s.command.stage).Some?
    ensures var s' := AppendPhase(s, id, StageEvent(s.command.stage).value);
      Restarting(s', id) && ToPrepare(s'.command.stage) < ToPrepare(s.command.stage) && s'.live == s.live
  {
    EventsOnly(s.tables, id, StageEvent(s.command.stage).value);
    hide AppendEvent;
  }

  lemma RestartWrites(s: State, id: DeploymentId)
    requires Restarting(s, id) && (s.command.stage.Stop? || s.command.stage.Retire? || s.command.stage.Relaunch?)
    ensures var s' := Advance(s, 0);
      Restarting(s', id) && ToPrepare(s'.command.stage) < ToPrepare(s.command.stage) && s'.live == s.live
  {
    hide AppendPhase, AdmitIntent, PersistFailure, PersistReady;
  }

  /** No reference, no engine call: a stop succeeds and leaves what runs. */
  lemma RestartProceeds(s: State, id: DeploymentId)
    requires Restarting(s, id) && !s.command.stage.Prepare?
    ensures Enabled(s, Proceed(0))
    ensures var s' := Apply(s, Proceed(0));
      Restarting(s', id) && ToPrepare(s'.command.stage) < ToPrepare(s.command.stage) && s'.live == s.live
  {
    hide AppendPhase, AdmitIntent, PersistFailure, PersistReady, PersistStopping, PersistStopped, PersistStarting, Answered, Committed;
    if StageEvent(s.command.stage).Some? {
      RestartLogs(s, id);
    } else if s.command.stage.Stop? || s.command.stage.Retire? || s.command.stage.Relaunch? {
      RestartWrites(s, id);
    }
  }

  lemma {:induction false} RestartPrepares(start: State, run: seq<Action>, s: State, id: DeploymentId)
    returns (run': seq<Action>, s': State)
    requires Reached(start, run, s) && Restarting(s, id)
    ensures Reached(start, run', s') && Restarting(s', id) && s'.command.stage.Prepare? && s'.live == s.live
    decreases ToPrepare(s.command.stage)
  {
    run', s' := run, s;
    if !s.command.stage.Prepare? {
      RestartProceeds(s, id);
      hide Apply, Enabled, Reached, ToPrepare, Bare;
      run', s' := Then(start, run, s, Proceed(0));
      run', s' := RestartPrepares(start, run', s', id);
    }
  }

  /** `prepare` returns no handle, and the answer to the start is lost. */
  lemma StartLost(start: State, run: seq<Action>, s: State, id: DeploymentId) returns (run': seq<Action>, s': State)
    requires Reached(start, run, s) && Restarting(s, id) && s.command.stage.Prepare?
    ensures Reached(start, run', s') && s'.command.Idle? && Bare(s', id) && id in s'.live
    ensures id in s.live ==> id in s'.doubleStarts
  {
    hide Reached;
    run', s' := Then(start, run, s, Engine(NoHandle, 0));
    run', s' := Then(start, run', s', Engine(Raise, 0));
  }

  lemma StartsAgain(start: State, run: seq<Action>, s: State, id: DeploymentId) returns (run': seq<Action>, s': State)
    requires Reached(start, run, s) && s.command.Idle? && Bare(s, id)
    ensures Reached(start, run', s') && s'.command.Idle? && Bare(s', id) && id in s'.live
    ensures id in s.live ==> id in s'.doubleStarts
  {
    var restart := BeginRestart(id, s.tables.deployments[id].version, 0);
    assert Enabled(s, restart) && Restarting(Apply(s, restart), id);
    hide Apply, Enabled, Reached, Restarting, Bare, ToPrepare;
    run', s' := Then(start, run, s, restart);
    run', s' := RestartPrepares(start, run', s', id);
    run', s' := StartLost(start, run', s', id);
  }

  /** Not yet stored, it can be created; a crash ends whatever is under way. */
  lemma BecomesBare(s: State, id: DeploymentId) returns (run: seq<Action>, s': State)
    requires Inv(s) && !Referenced(s, id)
    ensures Reached(s, run, s') && s'.command.Idle? && Bare(s', id)
  {
    NoEvidence(s.tables, id);
    hide Inv, Legal, Exec;
    assert Reached(s, [], s) by { RunsNowhere(s); }
    hide Reached;
    run, s' := Then(s, [], s, Crash);
    if id !in s.tables.deployments {
      run, s' := Then(s, run, s', BeginCreate(id, None, "", 0));
      run, s' := Then(s, run, s', Proceed(0));
      run, s' := Then(s, run, s', Crash);
    }
  }

  lemma RunsNowhere(s: State)
    ensures Legal(s, []) && Exec(s, []) == s
  {
  }

  lemma NoEvidence(t: Tables, id: DeploymentId)
    requires TablesInv(t) && (id in t.deployments ==> t.deployments[id].endpointId.None?)
    ensures id !in t.evidence
  {
    if id in t.deployments {
      assert RowInv(t, id);
    }
  }

  /** From any reachable state a start of a deployment without a reference can be lost and repeated. */
  lemma UnreferencedRepeats(s: State, id: DeploymentId) returns (run: seq<Action>)
    requires Inv(s) && !Referenced(s, id)
    ensures Legal(s, run) && id in Exec(s, run).doubleStarts
  {
    hide Inv, Bare, Referenced, Legal, Exec, Apply, Enabled;
    var s': State;
    run, s' := BecomesBare(s, id);
    run, s' := StartsAgain(s, run, s', id);
    run, s' := StartsAgain(s, run, s', id);
  }

  // ----- exactly

  ghost predicate CanRepeat(s: State, id: DeploymentId) {
    exists run :: Legal(s, run) && id in Exec(s, run).doubleStarts
  }

  /** In every reachable state, for every deployment, stored or not: some run starts it twice without a
      successful engine stop between exactly if it has no durable reference, has been started so already, or
      the start that would be the second is the command's next step. */
  lemma RepeatsExactly(s: State, id: DeploymentId)
    requires Reachable(s)
    ensures CanRepeat(s, id) <==>
      !Referenced(s, id) || id in s.doubleStarts || (id in s.live && AtStart(s, id))
  {
    ReachableInv(s);
    ReachableGuarded(s, id);
    hide Inv, Reachable, Guarded, Referenced;
    if !Referenced(s, id) {
      var run := UnreferencedRepeats(s, id);
    } else if id in s.doubleStarts {
      RunsNowhere(s);
    } else if id in s.live && AtStart(s, id) {
      StartRepeats(s, id);
    } else if CanRepeat(s, id) {
      var run :| Legal(s, run) && id in Exec(s, run).doubleStarts;
      hide Legal, Exec;
      SettledForever(s, run, id);
    }
  }

  lemma StartRepeats(s: State, id: DeploymentId)
    requires id in s.live && AtStart(s, id)
    ensures CanRepeat(s, id)
  {
    var a := Engine(Raise, 0);
    assert Enabled(s, a) && id in Apply(s, a).doubleStarts;
    hide Apply, Enabled;
    RunsNowhere(s);
    var run, s' := Then(s, [], s, a);
    hide Legal, Exec;
    assert Legal(s, run) && id in Exec(s, run).doubleStarts;
  }

  /** At a start of a deployment that was never started without a durable reference: it can be repeated exactly
      if it finds none now. */
  lemma BlindStartRepeatsExactly(s: State)
    requires Reachable(s) && s.command.Busy? && s.command.stage.Start? && s.command.id !in s.blindStarts
    ensures CanRepeat(s, s.command.id) <==> !HasExecution(s, s.command.id, s.command.row)
  {
    var id := s.command.id;
    ReachableInv(s);
    StartFinds(s);
    RepeatsExactly(s, id);
  }

  lemma StartFinds(s: State)
    requires Inv(s) && s.command.Busy? && s.command.stage.Start?
    ensures HasExecution(s, s.command.id, s.command.row) <==> Referenced(s, s.command.id)
    ensures s.command.id !in s.blindStarts ==> s.command.id !in s.doubleStarts && s.command.id !in s.live
  {
    hide BrokerInv, LogInv, ReaderInv;
    assert LiveInv(s, s.command.id);
    assert RowInv(s.tables, s.command.id);
  }

  /** And whatever came before: from any start without a durable reference. */
  lemma BlindStartRepeats(s: State) returns (run: seq<Action>)
    requires Reachable(s) && s.command.Busy? && s.command.stage.Start?
    requires !HasExecution(s, s.command.id, s.command.row)
    ensures Legal(s, run) && s.command.id in Exec(s, run).doubleStarts
  {
    ReachableInv(s);
    StartFinds(s);
    hide Inv;
    run := UnreferencedRepeats(s, s.command.id);
  }
}
