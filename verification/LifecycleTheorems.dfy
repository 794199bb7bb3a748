/** What holds over every run of the lifecycle: any interleaving of commands with unlocked readers,
    any engine answers, any refused admissions, and crashes between any two steps. */
module LifecycleTheorems {
  import opened Options
  import opened Domain
  import opened ProductStore
  import opened Lifecycle
  import opened LifecycleInvariants
  import opened LifecycleSteps

  lemma {:induction false} RunKeeps(s: State, run: seq<Action>)
    requires Inv(s) && Legal(s, run)
    ensures Inv(Exec(s, run))
    decreases |run|
  {
    hide Inv, Apply, Enabled;
    if run != [] {
      StepKeeps(s, run[0]);
      RunKeeps(Apply(s, run[0]), run[1..]);
    }
  }

  ghost predicate Reachable(s: State) {
    exists run :: Legal(INITIAL, run) && Exec(INITIAL, run) == s
  }

  lemma ReachableInv(s: State)
    requires Reachable(s)
    ensures Inv(s)
  {
    var run :| Legal(INITIAL, run) && Exec(INITIAL, run) == s;
    InitialInv();
    RunKeeps(INITIAL, run);
  }

  // ----- deployment and endpoint agree

  lemma StatesAgree(s: State, id: DeploymentId)
    requires Reachable(s) && id in s.tables.deployments
    ensures var row := s.tables.deployments[id];
            var endpoint := EndpointOf(s.tables, row);
            && (row.endpointId.Some? ==> endpoint.Some? && endpoint.value.owner == id)
            && (row.observed.Ready? ==> endpoint.Some? && endpoint.value.state.Serving? && row.failure.None?)
            && (row.observed.Degraded? ==> endpoint.Some? && endpoint.value.state.Unhealthy?)
            && (row.observed.Stopped? ==> endpoint.None? || endpoint.value.state.Retired?)
            && (row.desired.StopRequested? <==> row.observed.Stopping? || row.observed.Stopped?)
  {
    ReachableInv(s);
    assert RowInv(s.tables, id);
  }

  // ----- versions

  /** `Moves`, over any number of steps. */
  ghost predicate Grown(t: Tables, t': Tables, id: DeploymentId) {
    id in t.deployments ==>
      && id in t'.deployments
      && var r, r' := t.deployments[id], t'.deployments[id];
      && r.version <= r'.version
      && (r.endpointId.Some? ==> r'.endpointId == r.endpointId)
      && (r.endpointId.Some? && r.endpointId.value in t.endpoints ==>
            && r.endpointId.value in t'.endpoints
            && t.endpoints[r.endpointId.value].version <= t'.endpoints[r.endpointId.value].version)
      && (r.version == r'.version && !r.observed.Starting? ==>
            && r' == r
            && (r.endpointId.Some? && r.endpointId.value in t.endpoints ==>
                  t'.endpoints[r.endpointId.value] == t.endpoints[r.endpointId.value]))
  }

  /** Over any run, versions never fall, an endpoint id once set stays, and a version that has not
      moved (outside STARTING) stands for the very same deployment row and endpoint row. */
  lemma {:induction false} VersionsGrow(s: State, run: seq<Action>, id: DeploymentId)
    requires Inv(s) && Legal(s, run)
    ensures Grown(s.tables, Exec(s, run).tables, id)
    decreases |run|
  {
    hide Inv, Apply, Enabled;
    if run != [] {
      var s' := Apply(s, run[0]);
      StepKeeps(s, run[0]);
      StepMoves(s, run[0]);
      VersionsGrow(s', run[1..], id);
      GrownAfter(s.tables, s'.tables, Exec(s, run).tables, id);
    }
  }

  lemma GrownAfter(t: Tables, t1: Tables, t2: Tables, id: DeploymentId)
    requires Moves(t, t1, id) && Grown(t1, t2, id)
    ensures Grown(t, t2, id)
  {
  }

  /** A reader's commit that writes anything writes over exactly the two rows the reader saw, however
      long ago and in whatever order it read them; and it does write whenever the version it read is
      still current and the observation differs. */
  lemma NoStaleObservation(s: State, reader: nat, ready: bool)
    requires Reachable(s) && Enabled(s, Commit(reader, ready))
    ensures var Inspecting(id, row, endpoint) := s.readers[reader];
            var s' := Apply(s, Commit(reader, ready));
            && id in s.tables.deployments && row.endpointId.Some?
            && (s'.tables != s.tables <==>
                  s.tables.deployments[id].version == row.version
                  && !(row.observed.Ready? <==> ready))
            && (s'.tables != s.tables ==>
                  && s.tables.deployments[id] == row
                  && EndpointOf(s.tables, row) == Some(endpoint)
                  && s'.tables.deployments == s.tables.deployments[id := ObservedRow(row, ready)]
                  && s'.tables.endpoints == s.tables.endpoints[row.endpointId.value := ObservedEndpoint(endpoint, ready)])
  {
    ReachableInv(s);
    var r := s.readers[reader];
    assert ReaderInv(s.tables, r);
    var current := s.tables.deployments[r.id];
    if current.version == r.row.version {
      assert RowInv(s.tables, r.id);
      ReplaceIsUpdate(s.tables, r.id, r.row.endpointId.value, ObservedEndpoint(r.endpoint, ready));
      var t' := SavePair(s.tables, r.id, ObservedRow(r.row, ready), r.row.endpointId.value, ObservedEndpoint(r.endpoint, ready), None);
      assert t'.deployments[r.id] != current;
    } else {
      StaleObservation(s, reader, ready);
    }
  }

  lemma StaleObservation(s: State, reader: nat, ready: bool)
    requires reader in s.readers && s.readers[reader].Inspecting?
    requires s.readers[reader].id in s.tables.deployments
    requires s.tables.deployments[s.readers[reader].id].version != s.readers[reader].row.version
    ensures Committed(s, reader, ready).tables == s.tables
  {
  }

  // ----- the activity broker

  /** Admit is only ever called on a closed task, transition and complete only on an open one; away
      from commands the broker's open tasks are the store's active tasks, so recovery after a crash
      hands the broker back exactly what it had. */
  lemma BrokerAgrees(s: State)
    requires Reachable(s)
    ensures !s.brokerFault
    ensures s.command.Idle? ==> s.broker == ActiveTasks(s.tables) && Apply(s, Crash).broker == s.broker
  {
    ReachableInv(s);
    hide TablesInv, EngineInv, LogInv, ReaderInv;
    if s.command.Idle? {
      var active := ActiveTasks(s.tables);
      forall id
        ensures Lookup(s.broker, id) == Lookup(active, id)
      {
        assert Lookup(s.broker, id) == ExpectedMark(s, id);
      }
      assert s.broker.Keys == active.Keys by {
        forall id
          ensures id in s.broker <==> id in active
        {
          assert Lookup(s.broker, id) == Lookup(active, id);
        }
      }
      assert forall id | id in s.broker :: Lookup(s.broker, id) == Lookup(active, id);
    }
  }

  // ----- the event log

  ghost predicate CrashFree(run: seq<Action>) {
    forall i | 0 <= i < |run| :: !run[i].Crash?
  }

  lemma {:induction false} CrashFreeRun(s: State, run: seq<Action>)
    requires Legal(s, run) && CrashFree(run)
    ensures Exec(s, run).crashed == s.crashed
    decreases |run|
  {
    if run != [] {
      assert !run[0].Crash?;
      CrashFreeStep(s, run[0]);
      assert forall i | 0 <= i < |run[1..]| :: run[1..][i] == run[i + 1];
      hide Apply, Enabled;
      CrashFreeRun(Apply(s, run[0]), run[1..]);
    }
  }

  lemma CrashFreeStep(s: State, a: Action)
    requires Enabled(s, a) && !a.Crash?
    ensures Apply(s, a).crashed == s.crashed
  {
    match a
    case Proceed(newId) => CrashFreeAdvance(s, newId);
    case Engine(answer, newId) => CrashFreeAnswer(s, answer, newId);
    case _ =>
  }

  lemma CrashFreeAdvance(s: State, newId: EndpointId)
    requires CanProceed(s, newId)
    ensures Advance(s, newId).crashed == s.crashed
  {
    hide PersistFailure, PersistReady, PersistStopping, PersistStopped, PersistStarting;
  }

  lemma CrashFreeAnswer(s: State, answer: Answer, newId: EndpointId)
    requires CanAnswer(s, answer, newId)
    ensures Answered(s, answer, newId).crashed == s.crashed
  {
  }

  /** Crashes or not, a deployment's events are numbered 1..n without gaps. */
  lemma EventsNumbered(s: State, id: DeploymentId)
    requires Reachable(s)
    ensures var log := EventsOf(s.tables, id); forall i | 0 <= i < |log| :: log[i].sequence == i + 1
  {
    ReachableInv(s);
  }

  /** In a crash-free run the phases are accepted by the automaton, and away from commands the last
      one tells the observed state, up to READY or DEGRADED. */
  lemma EventsTellState(run: seq<Action>, id: DeploymentId)
    requires Legal(INITIAL, run) && CrashFree(run)
    ensures var s := Exec(INITIAL, run);
            var log := EventsOf(s.tables, id);
            && InOrder(log)
            && (s.command.Idle? ==>
                  if id in s.tables.deployments then PhaseTells(LastPhase(log), s.tables.deployments[id].observed)
                  else log == [])
  {
    InitialInv();
    RunKeeps(INITIAL, run);
    CrashFreeRun(INITIAL, run);
    assert LogInv(Exec(INITIAL, run), id);
  }

  lemma {:induction false} EventsOnlyAppended(s: State, run: seq<Action>, id: DeploymentId)
    requires Legal(s, run)
    ensures EventsOf(s.tables, id) <= EventsOf(Exec(s, run).tables, id)
    decreases |run|
  {
    if run != [] {
      EventsStep(s, run[0], id);
      hide Apply, Enabled;
      EventsOnlyAppended(Apply(s, run[0]), run[1..], id);
    }
  }

  lemma EventsStep(s: State, a: Action, id: DeploymentId)
    requires Enabled(s, a)
    ensures EventsOf(s.tables, id) <= EventsOf(Apply(s, a).tables, id)
  {
    hide Advance, Answered, EventsOf, Committed;
    match a
    case Proceed(newId) => EventsAdvance(s, newId, id);
    case Engine(answer, newId) => AnswerKeeps(s, answer, newId); SameEvents(s.tables, Answered(s, answer, newId).tables, id);
    case Commit(reader, ready) => CommitKeepsLogs(s, reader, ready); SameEvents(s.tables, Committed(s, reader, ready).tables, id);
    case _ =>
  }

  lemma SameEvents(t: Tables, t': Tables, id: DeploymentId)
    requires t'.events == t.events
    ensures EventsOf(t', id) == EventsOf(t, id)
  {
  }

  /** Engines and readers write neither events nor keys. */
  lemma AnswerKeeps(s: State, answer: Answer, newId: EndpointId)
    requires CanAnswer(s, answer, newId)
    ensures var t := Answered(s, answer, newId).tables; t.events == s.tables.events && t.ledger == s.tables.ledger
  {
    var Busy(id, row, stage, _) := s.command;
    AnsweredStartKeeps(s, id, row, answer);
    AnsweredCleanupKeeps(s, id, answer);
    hide PersistPrepared, AnsweredStart, AnsweredCleanup;
  }

  lemma AnsweredStartKeeps(s: State, id: DeploymentId, row: Deployment, answer: Answer)
    requires s.command.Busy?
    ensures AnsweredStart(s, id, row, answer).tables == s.tables
  {
  }

  lemma AnsweredCleanupKeeps(s: State, id: DeploymentId, answer: Answer)
    requires s.command.Busy?
    ensures forall refs :: AnsweredCleanup(s, id, answer, refs).tables == s.tables
  {
  }

  lemma CommitKeepsLogs(s: State, reader: nat, ready: bool)
    requires reader in s.readers && s.readers[reader].Inspecting?
    ensures var t := Committed(s, reader, ready).tables; t.events == s.tables.events && t.ledger == s.tables.ledger
  {
    hide ReplaceEndpoint;
  }

  lemma EventsAdvance(s: State, newId: EndpointId, id: DeploymentId)
    requires CanProceed(s, newId)
    ensures EventsOf(s.tables, id) <= EventsOf(Advance(s, newId).tables, id)
  {
    hide MaxSequence, PersistFailure, PersistReady, PersistStopping, PersistStopped, PersistStarting;
    if StageEvent(s.command.stage).None? {
      assert Advance(s, newId).tables.events == s.tables.events;
    }
  }

  // ----- the idempotency ledger

  ghost predicate LedgerGrows(t: Tables, t': Tables) {
    forall key | key in t.ledger :: key in t'.ledger && t'.ledger[key] == t.ledger[key]
  }

  lemma LedgerStep(s: State, a: Action)
    requires CommandInv(s) && Enabled(s, a)
    ensures LedgerGrows(s.tables, Apply(s, a).tables)
  {
    hide Advance, Answered, CommandInv, Committed;
    match a
    case Proceed(newId) => LedgerAdvance(s, newId);
    case Engine(answer, newId) => AnswerKeeps(s, answer, newId);
    case Commit(reader, ready) => CommitKeepsLogs(s, reader, ready);
    case _ =>
  }

  lemma LedgerAdvance(s: State, newId: EndpointId)
    requires CommandInv(s) && CanProceed(s, newId)
    ensures LedgerGrows(s.tables, Advance(s, newId).tables)
  {
    hide MaxSequence, PersistFailure, PersistReady, PersistStopping, PersistStopped, PersistStarting;
    if !s.command.stage.Admit? {
      assert Advance(s, newId).tables.ledger == s.tables.ledger;
    }
  }

  lemma {:induction false} LedgerStays(s: State, run: seq<Action>)
    requires Inv(s) && Legal(s, run)
    ensures LedgerGrows(s.tables, Exec(s, run).tables)
    decreases |run|
  {
    hide TablesInv, EngineInv, LogInv, ReaderInv, BrokerInv, CommandInv, Apply, Enabled;
    if run != [] {
      LedgerStep(s, run[0]);
      StepKeeps(s, run[0]);
      LedgerStays(Apply(s, run[0]), run[1..]);
    }
  }

  /** Once a key has been recorded, every later create with it and the same body resolves to the same
      deployment, any other body is a conflict, and neither changes anything. */
  lemma ReplayIsStable(s: State, run: seq<Action>, key: string, digest: string, id: DeploymentId, node: NodeRef)
    requires Reachable(s) && Legal(s, run) && key in s.tables.ledger
    ensures var s' := Exec(s, run);
            && ResolveIdempotency(s'.tables, Some(key), digest)
               == (if digest == s.tables.ledger[key].digest then Replay(s.tables.ledger[key].resource) else Conflict)
            && (Enabled(s', BeginCreate(id, Some(key), digest, node)) ==>
                  Apply(s', BeginCreate(id, Some(key), digest, node)) == s')
  {
    ReachableInv(s);
    LedgerStays(s, run);
  }
}
