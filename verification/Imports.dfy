/** `create_model_import` as a step machine.  Calls may interleave freely: the command lock of one process
    only makes fewer runs, and other processes may share the store.  Each step is one store transaction,
    one engine call, or one call of the activity broker with its callback.  A crash ends every call and
    hands the broker the store's active tasks.

    Contract of the broker, besides that of the lifecycle: an admission whose callback raises leaves no
    task, and a completion takes effect after its callback. */
module Imports {
  import opened Options
  import opened ImportStore

  datatype Request = Request(
    scope: Option<Workspace>, key: Option<string>, digest: string, binding: Binding, trustRemoteCode: bool)

  datatype Mark = ACCEPTED | RUNNING

  datatype Stage =
    | Checking
    | Admitting(id: ImportId)
    | Outrun(id: ImportId, replay: ImportId)
    | Dispatching(id: ImportId)
    | Importing(id: ImportId)
    | Saving(id: ImportId, row: ModelImport)
    | Returned(id: ImportId)
    | Refused

  datatype Call = Call(request: Request, stage: Stage)

  /** `invoked` records every call of `engine.import_model` with the request it served. */
  datatype State = State(
    tables: Tables,
    broker: map<ImportId, Mark>,
    calls: seq<Call>,
    invoked: seq<(ImportId, Request)>)

  const INITIAL := State(EMPTY, map[], [], [])

  datatype Outcome = Succeeds | Fails | Raises

  datatype Step =
    | Begin(request: Request)
    | Check(c: nat, id: ImportId, configured: bool)
    | AdmissionRefused(c: nat)
    | Admit(c: nat)
    | Withdraw(c: nat)
    | Dispatch(c: nat)
    | Import(c: nat, outcome: Outcome)
    | Save(c: nat)
    | Crash

  predicate Ended(stage: Stage) {
    stage.Returned? || stage.Refused?
  }

  /** The stages of a call that owns an import of its own. */
  predicate Owns(stage: Stage, id: ImportId) {
    (stage.Admitting? || stage.Outrun? || stage.Dispatching? || stage.Importing? || stage.Saving?) && stage.id == id
  }

  /** A new identity has not been used before. */
  ghost predicate Unused(s: State, id: ImportId) {
    && id !in s.tables.imports && id !in s.tables.scopes && id !in s.broker
    && (forall c | 0 <= c < |s.calls| :: !Owns(s.calls[c].stage, id))
    && forall e | e in s.invoked :: e.0 != id
  }

  ghost predicate Enabled(s: State, step: Step) {
    match step
    case Begin(_) => true
    case Check(c, id, _) => c < |s.calls| && s.calls[c].stage.Checking? && Unused(s, id)
    case AdmissionRefused(c) => c < |s.calls| && s.calls[c].stage.Admitting?
    case Admit(c) => c < |s.calls| && s.calls[c].stage.Admitting?
    case Withdraw(c) => c < |s.calls| && s.calls[c].stage.Outrun?
    case Dispatch(c) => c < |s.calls| && s.calls[c].stage.Dispatching?
    case Import(c, _) => c < |s.calls| && s.calls[c].stage.Importing?
    case Save(c) => c < |s.calls| && s.calls[c].stage.Saving?
    case Crash => true
  }

  function At(s: State, c: nat, stage: Stage): State
    requires c < |s.calls|
  {
    s.(calls := s.calls[c := s.calls[c].(stage := stage)])
  }

  /** The checks before a new import is drafted, in the order of the source. */
  function Checked(t: Tables, grants: Grants, r: Request, id: ImportId, configured: bool): Stage {
    if r.trustRemoteCode || !Granted(grants, r.scope, r.binding) then Refused
    else
      match Resolve(t, r.scope, r.key, r.digest)
      case Fresh => if configured then Admitting(id) else Refused
      case Replay(known) => Answered(t, r, known)
      case _ => Refused
  }

  /** A replay is returned only through the caller's own view. */
  function Answered(t: Tables, r: Request, known: ImportId): Stage {
    if known in View(t, r.scope) then Returned(known) else Refused
  }

  function Draft(r: Request): ModelImport {
    ModelImport(r.binding, Validating, 1)
  }

  function Admitted(s: State, grants: Grants, c: nat): State
    requires c < |s.calls| && s.calls[c].stage.Admitting?
  {
    var r, id := s.calls[c].request, s.calls[c].stage.id;
    var outcome := CommitOutcome(s.tables, grants, r.scope, r.key, r.digest, r.binding);
    match outcome
    case Fresh =>
      At(s, c, Dispatching(id))
      .(tables := Inserted(s.tables, id, Draft(r), r.scope, r.key, r.digest), broker := s.broker[id := ACCEPTED])
    case Replay(known) => At(s, c, Outrun(id, known)).(broker := s.broker[id := ACCEPTED])
    case _ => At(s, c, Refused)
  }

  ghost function Apply(grants: Grants, s: State, step: Step): State
    requires Enabled(s, step)
  {
    match step
    case Begin(r) => s.(calls := s.calls + [Call(r, Checking)])
    case Check(c, id, configured) => At(s, c, Checked(s.tables, grants, s.calls[c].request, id, configured))
    case AdmissionRefused(c) => At(s, c, Refused)
    case Admit(c) => Admitted(s, grants, c)
    case Withdraw(c) =>
      At(s, c, Answered(s.tables, s.calls[c].request, s.calls[c].stage.replay)).(broker := s.broker - {s.calls[c].stage.id})
    case Dispatch(c) =>
      At(s, c, Importing(s.calls[c].stage.id)).(broker := s.broker[s.calls[c].stage.id := RUNNING])
    case Import(c, outcome) =>
      var id, r := s.calls[c].stage.id, s.calls[c].request;
      At(s, c, if outcome.Raises? then Refused
               else Saving(id, ModelImport(r.binding, if outcome.Succeeds? then Imported else Rejected, 2)))
      .(invoked := s.invoked + [(id, r)])
    case Save(c) =>
      var id, row := s.calls[c].stage.id, s.calls[c].stage.row;
      At(s, c, if row.state == Imported then Returned(id) else Refused)
      .(tables := Saved(s.tables, id, row), broker := s.broker - {id})
    case Crash =>
      s.(calls := seq(|s.calls|, c requires 0 <= c < |s.calls| =>
                        if Ended(s.calls[c].stage) then s.calls[c] else s.calls[c].(stage := Refused)),
         broker := map id | id in ActiveTasks(s.tables) :: RUNNING)
  }

  ghost predicate Legal(grants: Grants, s: State, run: seq<Step>)
    decreases |run|
  {
    run == [] || (Enabled(s, run[0]) && Legal(grants, Apply(grants, s, run[0]), run[1..]))
  }

  ghost function Exec(grants: Grants, s: State, run: seq<Step>): State
    requires Legal(grants, s, run)
    decreases |run|
  {
    if run == [] then s else Exec(grants, Apply(grants, s, run[0]), run[1..])
  }

  // ----- invariant

  ghost predicate LedgerFits(s: State) {
    forall k | k in s.tables.ledger ::
      s.tables.ledger[k].resource in s.tables.imports && ScopeOf(s.tables, s.tables.ledger[k].resource) == k.scope
  }

  ghost predicate ScopesFit(s: State) {
    forall id | id in s.tables.scopes :: id in s.tables.imports
  }

  /** The import is in the tables as the request asked, and the ledger leads back to it. */
  ghost predicate Committed(t: Tables, r: Request, id: ImportId) {
    && id in t.imports && ScopeOf(t, id) == r.scope
    && (r.key.Some? ==>
          LedgerKey(r.scope, r.key.value) in t.ledger && t.ledger[LedgerKey(r.scope, r.key.value)] == LedgerRow(r.digest, id))
  }

  ghost predicate Invoked(s: State, id: ImportId) {
    exists e | e in s.invoked :: e.0 == id
  }

  ghost predicate CallFits(s: State, call: Call) {
    match call.stage
    case Admitting(id) => id !in s.tables.imports && id !in s.tables.scopes && id !in s.broker && !Invoked(s, id)
    case Outrun(id, replay) =>
      && id !in s.tables.imports && id !in s.tables.scopes && id in s.broker && !Invoked(s, id)
      && call.request.key.Some? && Committed(s.tables, call.request, replay)
    case Dispatching(id) =>
      && Committed(s.tables, call.request, id) && s.tables.imports[id].state == Validating
      && id in s.broker && !Invoked(s, id)
    case Importing(id) =>
      && Committed(s.tables, call.request, id) && s.tables.imports[id].state == Validating
      && id in s.broker && s.broker[id] == RUNNING && !Invoked(s, id)
    case Saving(id, row) =>
      && row.state != Validating && Committed(s.tables, call.request, id) && s.tables.imports[id].state == Validating
      && id in s.broker && s.broker[id] == RUNNING
    case Returned(id) =>
      && id in View(s.tables, call.request.scope)
      && (call.request.key.Some? ==> Committed(s.tables, call.request, id))
    case _ => true
  }

  ghost predicate CallsFit(s: State) {
    forall c | 0 <= c < |s.calls| :: CallFits(s, s.calls[c])
  }

  ghost predicate OwnedOnce(s: State) {
    forall c, d, id: ImportId | 0 <= c < |s.calls| && 0 <= d < |s.calls| && Owns(s.calls[c].stage, id) && Owns(s.calls[d].stage, id) ::
      c == d
  }

  ghost predicate Owned(s: State, id: ImportId) {
    exists c | 0 <= c < |s.calls| :: Owns(s.calls[c].stage, id)
  }

  /** An open task belongs to a call under way or to an import being validated, and the other way round. */
  ghost predicate BrokerFits(s: State) {
    && (forall id | id in s.broker :: Owned(s, id) || (id in ActiveTasks(s.tables) && s.broker[id] == RUNNING))
    && (forall id | id in ActiveTasks(s.tables) :: id in s.broker)
  }

  ghost predicate InvokedFit(s: State) {
    && (forall e | e in s.invoked :: Committed(s.tables, e.1, e.0))
    && forall i, j | 0 <= i < j < |s.invoked| :: s.invoked[i].0 != s.invoked[j].0
  }

  ghost predicate Inv(s: State) {
    LedgerFits(s) && ScopesFit(s) && CallsFit(s) && OwnedOnce(s) && BrokerFits(s) && InvokedFit(s)
  }

  lemma InitialInv()
    ensures Inv(INITIAL)
  {
  }

  // ----- what a step leaves alone

  /** Imports stay, their scopes stay what they were, and the ledger keeps its rows. */
  ghost predicate Grows(t: Tables, t': Tables) {
    && (forall id | id in t.imports :: id in t'.imports && ScopeOf(t', id) == ScopeOf(t, id))
    && (forall k | k in t.ledger :: k in t'.ledger && t'.ledger[k] == t.ledger[k])
  }

  lemma CommittedStays(t: Tables, t': Tables, r: Request, id: ImportId)
    requires Grows(t, t') && Committed(t, r, id)
    ensures Committed(t', r, id)
  {
  }

  /** Nothing that concerns this identity alone has changed. */
  ghost predicate Untouched(s: State, s': State, id: ImportId) {
    && (id in s'.tables.imports <==> id in s.tables.imports) && (id in s'.tables.scopes <==> id in s.tables.scopes)
    && (id in s.tables.imports ==> s'.tables.imports[id] == s.tables.imports[id])
    && (id in s'.broker <==> id in s.broker) && (id in s.broker ==> s'.broker[id] == s.broker[id])
    && (Invoked(s', id) <==> Invoked(s, id))
  }

  lemma CallStaysFit(s: State, s': State, call: Call)
    requires CallFits(s, call) && Grows(s.tables, s'.tables)
    requires forall id | Owns(call.stage, id) :: Untouched(s, s', id)
    ensures CallFits(s', call)
  {
    var r := call.request;
    match call.stage
    case Admitting(id) => assert Owns(call.stage, id);
    case Outrun(id, replay) => assert Owns(call.stage, id); CommittedStays(s.tables, s'.tables, r, replay);
    case Dispatching(id) => assert Owns(call.stage, id); CommittedStays(s.tables, s'.tables, r, id);
    case Importing(id) => assert Owns(call.stage, id); CommittedStays(s.tables, s'.tables, r, id);
    case Saving(id, _) => assert Owns(call.stage, id); CommittedStays(s.tables, s'.tables, r, id);
    case Returned(id) =>
      if r.key.Some? { CommittedStays(s.tables, s'.tables, r, id); }
    case _ =>
  }

  /** Only call `c` has moved, from owning `id` to owning it or nothing; the broker and the import of `id`
      may have changed, and nothing else of any other identity. */
  ghost predicate OneMoved(s: State, s': State, c: nat, id: ImportId) {
    && c < |s.calls| && |s'.calls| == |s.calls|
    && (forall d | 0 <= d < |s.calls| && d != c :: s'.calls[d] == s.calls[d])
    && s'.calls[c].request == s.calls[c].request
    && (forall k | Owns(s'.calls[c].stage, k) :: k == id)
    && Grows(s.tables, s'.tables)
    && (forall k | k != id :: Untouched(s, s', k))
    && (Owns(s.calls[c].stage, id) || forall d | 0 <= d < |s.calls| :: !Owns(s.calls[d].stage, id))
  }

  lemma OthersFit(s: State, s': State, c: nat, id: ImportId)
    requires CallsFit(s) && OwnedOnce(s) && OneMoved(s, s', c, id) && CallFits(s', s'.calls[c])
    ensures CallsFit(s') && OwnedOnce(s')
  {
    hide Grows, Untouched, CallFits;
    forall d | 0 <= d < |s'.calls| && d != c
      ensures CallFits(s', s'.calls[d])
    {
      assert !Owns(s.calls[d].stage, id);
      CallStaysFit(s, s', s.calls[d]);
    }
  }

  lemma BrokerStaysFit(s: State, s': State, c: nat, id: ImportId)
    requires BrokerFits(s) && OneMoved(s, s', c, id)
    requires forall k | Owns(s.calls[c].stage, k) :: k == id
    requires id in s'.broker ==> Owns(s'.calls[c].stage, id) || (id in ActiveTasks(s'.tables) && s'.broker[id] == RUNNING)
    requires id in ActiveTasks(s'.tables) ==> id in s'.broker
    ensures BrokerFits(s')
  {
    hide Grows, Invoked;
    forall k | k in s'.broker ensures Owned(s', k) || (k in ActiveTasks(s'.tables) && s'.broker[k] == RUNNING) {
      if k == id {
        if Owns(s'.calls[c].stage, id) {
          assert Owned(s', id);
        }
      } else {
        assert Untouched(s, s', k);
        if Owned(s, k) {
          var d :| 0 <= d < |s.calls| && Owns(s.calls[d].stage, k);
          assert d != c && Owns(s'.calls[d].stage, k);
        }
      }
    }
    forall k | k in ActiveTasks(s'.tables) && k != id ensures k in s'.broker {
      assert Untouched(s, s', k);
    }
  }

  lemma LedgerStaysFit(s: State, s': State)
    requires LedgerFits(s) && ScopesFit(s) && Grows(s.tables, s'.tables)
    requires s'.tables.ledger == s.tables.ledger && s'.tables.scopes == s.tables.scopes
    ensures LedgerFits(s') && ScopesFit(s')
  {
  }

  lemma InvokedStaysFit(s: State, s': State)
    requires InvokedFit(s) && Grows(s.tables, s'.tables) && s'.invoked == s.invoked
    ensures InvokedFit(s')
  {
    hide Grows;
    forall e | e in s'.invoked ensures Committed(s'.tables, e.1, e.0) {
      CommittedStays(s.tables, s'.tables, e.1, e.0);
    }
  }
}
