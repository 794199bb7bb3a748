/** Every step keeps the invariant, and what follows for all runs. */
module ImportTheorems {
  import opened ImportStore
  import opened Imports

  /** A step that leaves the tables and the record of engine calls alone. */
  lemma QuietStepKeeps(s: State, s': State, c: nat, id: ImportId)
    requires Inv(s) && OneMoved(s, s', c, id)
    requires s'.tables == s.tables && s'.invoked == s.invoked
    requires forall k | Owns(s.calls[c].stage, k) :: k == id
    requires CallFits(s', s'.calls[c])
    requires id in s'.broker ==> Owns(s'.calls[c].stage, id) || (id in ActiveTasks(s.tables) && s'.broker[id] == RUNNING)
    requires id in ActiveTasks(s.tables) ==> id in s'.broker
    ensures Inv(s')
  {
    OthersFit(s, s', c, id);
    BrokerStaysFit(s, s', c, id);
    LedgerStaysFit(s, s');
    InvokedStaysFit(s, s');
    hide CallsFit, OwnedOnce, BrokerFits, InvokedFit, LedgerFits, ScopesFit, OneMoved, CallFits;
  }

  lemma CheckKeeps(grants: Grants, s: State, c: nat, id: ImportId, configured: bool)
    requires Inv(s) && Enabled(s, Check(c, id, configured))
    ensures Inv(Apply(grants, s, Check(c, id, configured)))
  {
    var r := s.calls[c].request;
    var s' := Apply(grants, s, Check(c, id, configured));
    assert !Invoked(s, id);
    var resolution := Resolve(s.tables, r.scope, r.key, r.digest);
    if s'.calls[c].stage.Returned? {
      assert Committed(s.tables, r, resolution.resource);
    }
    assert s'.tables == s.tables && s'.broker == s.broker && s'.invoked == s.invoked;
    assert OneMoved(s, s', c, id);
    hide OneMoved, BrokerFits, OwnedOnce, InvokedFit, LedgerFits, ScopesFit;
    assert CallFits(s', s'.calls[c]);
    UnusedIdle(s, id);
    hide Inv, CallsFit, CallFits, Apply, Enabled;
    QuietStepKeeps(s, s', c, id);
  }

  lemma UnusedIdle(s: State, id: ImportId)
    requires Unused(s, id)
    ensures id !in s.broker && id !in ActiveTasks(s.tables)
  {
  }

  lemma StageFits(s: State, c: nat)
    requires Inv(s) && c < |s.calls|
    ensures CallFits(s, s.calls[c])
  {
  }

  /** The steps of a call that write nothing durable and call no engine. */
  lemma BrokerStepKeeps(grants: Grants, s: State, step: Step)
    requires Inv(s) && Enabled(s, step) && (step.AdmissionRefused? || step.Withdraw? || step.Dispatch?)
    ensures Inv(Apply(grants, s, step))
  {
    hide Inv;
    var c := step.c;
    var id := s.calls[c].stage.id;
    var s' := Apply(grants, s, step);
    StageFits(s, c);
    assert s'.tables == s.tables && s'.invoked == s.invoked;
    assert OneMoved(s, s', c, id);
    assert id !in ActiveTasks(s.tables) || step.Dispatch?;
    assert CallFits(s', s'.calls[c]);
    hide Grows, Untouched, OneMoved, Enabled, CallFits;
    QuietStepKeeps(s, s', c, id);
  }

  lemma CommitOpens(s: State, grants: Grants, c: nat)
    requires Inv(s) && c < |s.calls| && s.calls[c].stage.Admitting?
    requires var r := s.calls[c].request; CommitOutcome(s.tables, grants, r.scope, r.key, r.digest, r.binding).Fresh?
    ensures var s', r, id := Admitted(s, grants, c), s.calls[c].request, s.calls[c].stage.id;
      && OneMoved(s, s', c, id) && Committed(s'.tables, r, id) && LedgerFits(s') && ScopesFit(s')
      && CallFits(s', s'.calls[c])
  {
    var s', r, id := Admitted(s, grants, c), s.calls[c].request, s.calls[c].stage.id;
    StageFits(s, c);
    assert LedgerFits(s) && ScopesFit(s);
    hide Inv;
    assert Grows(s.tables, s'.tables);
    assert forall k | k != id :: Untouched(s, s', k);
  }

  lemma AdmitKeeps(grants: Grants, s: State, c: nat)
    requires Inv(s) && Enabled(s, Admit(c))
    ensures Inv(Apply(grants, s, Admit(c)))
  {
    var r, id := s.calls[c].request, s.calls[c].stage.id;
    var outcome := CommitOutcome(s.tables, grants, r.scope, r.key, r.digest, r.binding);
    var s' := Admitted(s, grants, c);
    StageFits(s, c);
    if outcome.Fresh? {
      CommitOpens(s, grants, c);
      hide Grows, Untouched, LedgerFits, ScopesFit, Committed, CommitOutcome;
      OthersFit(s, s', c, id);
      BrokerStaysFit(s, s', c, id);
      InvokedStaysFit(s, s');
      hide CallsFit, OwnedOnce, BrokerFits, InvokedFit, OneMoved, CallFits;
    } else {
      assert outcome.Replay? ==> Committed(s.tables, r, outcome.resource);
      assert s'.tables == s.tables && s'.invoked == s.invoked;
      assert OneMoved(s, s', c, id);
      hide Inv, Grows, Untouched, OneMoved, Enabled, CommitOutcome;
      QuietStepKeeps(s, s', c, id);
    }
  }

  lemma ImportKeeps(grants: Grants, s: State, c: nat, outcome: Outcome)
    requires Inv(s) && Enabled(s, Import(c, outcome))
    ensures Inv(Apply(grants, s, Import(c, outcome)))
  {
    var r, id := s.calls[c].request, s.calls[c].stage.id;
    var s' := Apply(grants, s, Import(c, outcome));
    StageFits(s, c);
    InvokedMore(s, s', id, r);
    assert OneMoved(s, s', c, id);
    assert CallFits(s', s'.calls[c]);
    assert id in ActiveTasks(s'.tables) && id in s'.broker && s'.broker[id] == RUNNING;
    hide Grows, Untouched, Committed, CallFits, Apply, Enabled, ActiveTasks;
    OthersFit(s, s', c, id);
    BrokerStaysFit(s, s', c, id);
    LedgerStaysFit(s, s');
    hide CallsFit, OwnedOnce, BrokerFits, LedgerFits, ScopesFit, InvokedFit, OneMoved;
  }

  lemma InvokedMore(s: State, s': State, id: ImportId, r: Request)
    requires InvokedFit(s) && s'.tables == s.tables && s'.invoked == s.invoked + [(id, r)]
    requires !Invoked(s, id) && Committed(s.tables, r, id)
    ensures InvokedFit(s') && forall k | k != id :: Invoked(s', k) <==> Invoked(s, k)
  {
    hide Committed;
    forall k | k != id && Invoked(s, k) ensures Invoked(s', k) {
      var e :| e in s.invoked && e.0 == k;
      assert e in s'.invoked;
    }
  }

  lemma SaveKeeps(grants: Grants, s: State, c: nat)
    requires Inv(s) && Enabled(s, Save(c))
    ensures Inv(Apply(grants, s, Save(c)))
  {
    var r, id := s.calls[c].request, s.calls[c].stage.id;
    var s' := Apply(grants, s, Save(c));
    StageFits(s, c);
    assert Grows(s.tables, s'.tables) && Committed(s'.tables, r, id);
    assert OneMoved(s, s', c, id);
    assert CallFits(s', s'.calls[c]);
    assert id !in s'.broker;
    assert id !in ActiveTasks(s'.tables);
    hide Grows, Untouched, Committed, CallFits, Enabled, ActiveTasks, Invoked;
    OthersFit(s, s', c, id);
    BrokerStaysFit(s, s', c, id);
    LedgerStaysFit(s, s');
    InvokedStaysFit(s, s');
    hide CallsFit, OwnedOnce, BrokerFits, LedgerFits, ScopesFit, InvokedFit, OneMoved;
  }

  lemma CrashKeeps(grants: Grants, s: State)
    requires Inv(s)
    ensures Inv(Apply(grants, s, Crash))
  {
    var s' := Apply(grants, s, Crash);
    assert forall c, id: ImportId | 0 <= c < |s'.calls| :: !Owns(s'.calls[c].stage, id);
    forall c | 0 <= c < |s'.calls| ensures CallFits(s', s'.calls[c]) {
      StageFits(s, c);
    }
    hide ActiveTasks, Committed, CallFits;
  }

  lemma BeginKeeps(grants: Grants, s: State, r: Request)
    requires Inv(s)
    ensures Inv(Apply(grants, s, Begin(r)))
  {
    var s' := Apply(grants, s, Begin(r));
    forall c | 0 <= c < |s'.calls| ensures CallFits(s', s'.calls[c]) {
      if c < |s.calls| {
        StageFits(s, c);
        CallStaysFit(s, s', s.calls[c]);
      }
    }
    hide ActiveTasks, Committed, CallFits, InvokedFit, LedgerFits;
    forall id | Owned(s, id) ensures Owned(s', id) {
      var c :| 0 <= c < |s.calls| && Owns(s.calls[c].stage, id);
      assert Owns(s'.calls[c].stage, id);
    }
    assert OwnedOnce(s');
  }

  lemma StepKeeps(grants: Grants, s: State, step: Step)
    requires Inv(s) && Enabled(s, step)
    ensures Inv(Apply(grants, s, step))
  {
    hide Inv, Apply;
    match step
    case Begin(r) => BeginKeeps(grants, s, r);
    case Check(c, id, configured) => CheckKeeps(grants, s, c, id, configured);
    case Admit(c) => AdmitKeeps(grants, s, c);
    case Import(c, outcome) => ImportKeeps(grants, s, c, outcome);
    case Save(c) => SaveKeeps(grants, s, c);
    case Crash => CrashKeeps(grants, s);
    case _ => BrokerStepKeeps(grants, s, step);
  }

  lemma StepGrows(grants: Grants, s: State, step: Step)
    requires Inv(s) && Enabled(s, step)
    ensures Grows(s.tables, Apply(grants, s, step).tables)
  {
    hide Inv;
    if step.Admit? || step.Save? {
      StageFits(s, step.c);
    }
  }

  lemma {:induction false} RunKeeps(grants: Grants, s: State, run: seq<Step>)
    requires Inv(s) && Legal(grants, s, run)
    ensures Inv(Exec(grants, s, run)) && Grows(s.tables, Exec(grants, s, run).tables)
    decreases |run|
  {
    if run != [] {
      StepKeeps(grants, s, run[0]);
      StepGrows(grants, s, run[0]);
      hide Inv, Apply, Enabled;
      RunKeeps(grants, Apply(grants, s, run[0]), run[1..]);
    }
  }

  // ----- theorems

  /** An import is in exactly one view, and stays in that one over every later run. */
  lemma {:induction false} VisibleInOneViewForever(grants: Grants, before: seq<Step>, run: seq<Step>, id: ImportId)
    requires Legal(grants, INITIAL, before) && Legal(grants, Exec(grants, INITIAL, before), run)
    requires id in Exec(grants, INITIAL, before).tables.imports
    ensures var s, s' := Exec(grants, INITIAL, before), Exec(grants, Exec(grants, INITIAL, before), run);
      && (exists scope :: id in View(s.tables, scope))
      && forall scope, other | id in View(s.tables, scope) && id in View(s'.tables, other) :: other == scope
    ensures id in Exec(grants, Exec(grants, INITIAL, before), run).tables.imports
  {
    InitialInv();
    RunKeeps(grants, INITIAL, before);
    var s := Exec(grants, INITIAL, before);
    RunKeeps(grants, s, run);
    assert id in View(s.tables, ScopeOf(s.tables, id));
  }

  /** Two calls with the same scope and key that return, return the same import, and their bodies were
      equal; the engine imports at most once for one scope and key. */
  lemma {:induction false} OneImportPerKey(grants: Grants, run: seq<Step>)
    requires Legal(grants, INITIAL, run)
    ensures var s := Exec(grants, INITIAL, run);
      && (forall c, d | 0 <= c < |s.calls| && 0 <= d < |s.calls| && SameKey(s.calls[c].request, s.calls[d].request)
            && s.calls[c].stage.Returned? && s.calls[d].stage.Returned? ::
            s.calls[c].stage == s.calls[d].stage && s.calls[c].request.digest == s.calls[d].request.digest)
      && (forall i, j | 0 <= i < j < |s.invoked| ::
            s.invoked[i].0 != s.invoked[j].0 && !SameKey(s.invoked[i].1, s.invoked[j].1))
  {
    InitialInv();
    RunKeeps(grants, INITIAL, run);
    var s := Exec(grants, INITIAL, run);
    hide Exec, Legal;
    forall c, d | 0 <= c < |s.calls| && 0 <= d < |s.calls| && SameKey(s.calls[c].request, s.calls[d].request)
        && s.calls[c].stage.Returned? && s.calls[d].stage.Returned?
      ensures s.calls[c].stage == s.calls[d].stage && s.calls[c].request.digest == s.calls[d].request.digest
    {
      StageFits(s, c);
      StageFits(s, d);
    }
    forall i, j | 0 <= i < j < |s.invoked| ensures s.invoked[i].0 != s.invoked[j].0 && !SameKey(s.invoked[i].1, s.invoked[j].1) {
      assert s.invoked[i] in s.invoked && s.invoked[j] in s.invoked;
    }
  }

  predicate SameKey(a: Request, b: Request) {
    a.key.Some? && b.key == a.key && b.scope == a.scope
  }

  /** A call whose key is in the ledger with another body writes nothing and is never answered.  One whose
      body is equal is answered with the ledger's import if its binding is granted: at its check, or, when
      the key came into the ledger behind its check, by the withdrawal that its admission turns to; and it
      writes nothing either. */
  lemma {:induction false} KnownKey(grants: Grants, run: seq<Step>, c: nat, step: Step)
    requires Legal(grants, INITIAL, run) && c < |Exec(grants, INITIAL, run).calls|
    requires Enabled(Exec(grants, INITIAL, run), step)
      && (step.Check? || step.Admit? || step.Withdraw? || step.Dispatch? || step.Import? || step.Save?) && step.c == c
    requires var s := Exec(grants, INITIAL, run);
      var r := s.calls[c].request;
      r.key.Some? && LedgerKey(r.scope, r.key.value) in s.tables.ledger
    ensures var s := Exec(grants, INITIAL, run);
      var r, s' := s.calls[c].request, Apply(grants, s, step);
      var row := s.tables.ledger[LedgerKey(r.scope, r.key.value)];
      && (row.digest != r.digest ==>
            s'.tables == s.tables && s'.broker == s.broker && s'.invoked == s.invoked && s'.calls[c].stage == Refused)
      && (row.digest == r.digest && step.Check? && !r.trustRemoteCode && Granted(grants, r.scope, r.binding) ==>
            s'.calls[c].stage == Returned(row.resource))
      && (row.digest == r.digest && step.Admit? && Granted(grants, r.scope, r.binding) ==>
            s'.calls[c].stage == Outrun(s.calls[c].stage.id, row.resource))
      && (row.digest == r.digest && step.Withdraw? ==>
            s'.calls[c].stage == Returned(row.resource) && s'.broker == s.broker - {s.calls[c].stage.id})
      && (step.Check? || step.Admit? || step.Withdraw? ==> s'.tables == s.tables && s'.invoked == s.invoked)
  {
    InitialInv();
    RunKeeps(grants, INITIAL, run);
    var s := Exec(grants, INITIAL, run);
    StageFits(s, c);
    assert LedgerFits(s);
    hide Exec, Legal, Inv;
  }

  /** Whenever no call is under way, also right after a crash, the broker's open tasks are exactly the
      store's imports that are being validated, all of them running. */
  lemma {:induction false} BrokerAgrees(grants: Grants, run: seq<Step>)
    requires Legal(grants, INITIAL, run)
    requires forall c | 0 <= c < |Exec(grants, INITIAL, run).calls| :: Ended(Exec(grants, INITIAL, run).calls[c].stage)
    ensures var s := Exec(grants, INITIAL, run);
      s.broker == map id | id in ActiveTasks(s.tables) :: RUNNING
  {
    InitialInv();
    RunKeeps(grants, INITIAL, run);
    var s := Exec(grants, INITIAL, run);
    hide Exec, Legal, ActiveTasks;
    assert forall c, id: ImportId | 0 <= c < |s.calls| :: !Owns(s.calls[c].stage, id);
  }
}
