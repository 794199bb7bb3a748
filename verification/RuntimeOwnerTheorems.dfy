/** What holds over every run of the package-runtime owner. */
module RuntimeOwnerTheorems {
  import opened Options
  import opened ConnectionRef
  import opened RuntimeOperations
  import opened RuntimeOwner

  // ----- one step

  /** Nothing but the call changed: what the others rely on stands. */
  lemma SameTable(s: State, s': State)
    requires Inv(s) && s'.table == s.table && s'.dispatches == s.dispatches
    requires s'.binding == s.binding && s'.reconciles == s.reconciles && CallInv(s')
    ensures Inv(s')
  {
    hide TableInv, CallInv;
  }

  /** A forward move of the table keeps what dispatches and reconciles rely on. */
  lemma OtherParts(s: State, s': State)
    requires SentInv(s) && (forall c | c in s.reconciles :: ReconcileInv(s, s.reconciles[c]))
    requires Forward(s.table, s'.table) && s'.dispatches == s.dispatches && s'.binding == s.binding
    ensures SentInv(s')
    ensures forall c | c in s.reconciles :: ReconcileInv(s', s.reconciles[c])
  {
  }

  lemma ForwardSelf(t: Operations)
    ensures Forward(t, t)
  {
  }

  /** The activation under way is undisturbed by steps of `status` and `reconcile`, which can write
      its record only by marking it UNKNOWN while it has no receipt. */
  lemma CallUndisturbed(s: State, s': State)
    requires CallInv(s) && s'.call == s.call && s'.dispatches == s.dispatches && s'.binding == s.binding
    requires Forward(s.table, s'.table) && s'.table.Keys == s.table.Keys
    requires forall r | r in s.table && s.table[r].receipt.None? :: s'.table[r].receipt.None?
    ensures CallInv(s')
  {
  }

  lemma ActivateKeeps(s: State, a: Action)
    requires Inv(s) && Enabled(s, a)
    requires a.BeginActivate? || a.Look? || a.ClientRaises? || a.ClientReturns? || a.ReadBack?
    ensures Inv(Apply(s, a)) && Apply(s, a).table == s.table
  {
    if s.call.Failing? && s.call.request in s.table {
      assert Evidence(s.call.request, s.table[s.call.request]);
    }
    hide TableInv, SentInv, ReconcileInv, Evidence, BindingPending, ActivationScope;
    ActivateCall(s, a);
    hide CallInv, Begun, Reread;
    SameTable(s, Apply(s, a));
  }

  lemma ActivateCall(s: State, a: Action)
    requires CallInv(s) && Enabled(s, a)
    requires a.BeginActivate? || a.Look? || a.ClientRaises? || a.ClientReturns? || a.ReadBack?
    requires s.call.Failing? && s.call.request in s.table && s.table[s.call.request].phase.INTENT? ==> s.table[s.call.request].receipt.None?
    ensures CallInv(Apply(s, a))
    ensures Apply(s, a) == s.(call := Apply(s, a).call)
  {
    hide BindingPending, ActivationScope, NotSent;
  }

  lemma IntentStep(s: State, actual: string, scope: Scope, wraps: bool)
    requires Inv(s) && s.call.Calling?
    ensures var s' := IntentPersisted(s, actual, scope, wraps); Inv(s') && Forward(s.table, s'.table)
  {
    var s' := IntentPersisted(s, actual, scope, wraps);
    ForwardSelf(s.table);
    IntentKeeps(s.table, s.call.request, s.binding, s.call.installation);
    hide TableInv, Forward, ReconcileInv;
    IntentCall(s, actual, scope, wraps);
    hide CallInv, SentInv;
    OtherParts(s, s');
  }

  lemma IntentCall(s: State, actual: string, scope: Scope, wraps: bool)
    requires CallInv(s) && SentInv(s) && s.call.Calling?
    ensures CallInv(IntentPersisted(s, actual, scope, wraps))
  {
    hide BindingPending, ActivationScope;
  }

  lemma SendStep(s: State)
    requires Inv(s) && s.call.Intended?
    ensures Inv(Apply(s, SendActivation))
  {
    hide TableInv;
  }

  lemma OutcomeStep(s: State, status: RuntimeStatus, receipt: Receipt, wraps: bool)
    requires Inv(s) && s.call.Dispatched?
    ensures var s' := OutcomePersisted(s, status, receipt, wraps); Inv(s') && Forward(s.table, s'.table)
  {
    var s' := OutcomePersisted(s, status, receipt, wraps);
    ForwardSelf(s.table);
    hide TableInv, Forward, ReconcileInv, SentInv, ActualState;
    if ActualState(status, s.binding, s.call.installation) {
      OutcomeKeeps(s.table, s.call.request, status, receipt);
    }
    OutcomeCall(s, status, receipt, wraps);
    hide CallInv;
    OtherParts(s, s');
  }

  lemma OutcomeCall(s: State, status: RuntimeStatus, receipt: Receipt, wraps: bool)
    requires CallInv(s) && s.call.Dispatched?
    ensures CallInv(OutcomePersisted(s, status, receipt, wraps))
  {
    hide ActualState, ActivationScope;
  }

  lemma CompleteStep(s: State)
    requires Inv(s) && s.call.Returned?
    ensures var s' := CallCompleted(s); Inv(s') && Forward(s.table, s'.table)
  {
    hide ActivationScope, ActualState, PendingReceipt, BindingPending;
    var s' := CallCompleted(s);
    ForwardSelf(s.table);
    CompleteKeeps(s.table, s.call.request);
    hide TableInv;
    OtherParts(s, s');
  }

  lemma HandleStep(s: State)
    requires Inv(s) && s.call.Handling?
    ensures var s' := Handled(s); Inv(s') && Forward(s.table, s'.table)
  {
    ForwardSelf(s.table);
    hide TableInv, Forward, ReconcileInv, SentInv, PendingReceipt;
    UnknownKeeps(s.table, s.call.request);
    if s.call.carried.Some? && PendingReceipt(s.call.carried.value, s.call.request, s.binding, s.call.installation) {
      ReceiptKeeps(s.table, s.call.request, s.call.carried.value);
    }
    OtherParts(s, Handled(s));
  }

  lemma MarkStep(s: State)
    requires Inv(s) && s.call.MarkExisting?
    ensures var s' := Apply(s, MarkFound); Inv(s') && Forward(s.table, s'.table)
  {
    UnknownKeeps(s.table, s.call.request);
    hide TableInv;
    OtherParts(s, Apply(s, MarkFound));
  }

  lemma StatusKeeps(s: State, a: Action)
    requires Inv(s) && Enabled(s, a) && (a.BeginStatus? || a.EndStatus?)
    ensures Inv(Apply(s, a)) && Forward(s.table, Apply(s, a).table)
  {
    hide ActivationScope, ActualState, PendingReceipt, TableInv;
    var s' := Apply(s, a);
    ForwardSelf(s.table);
    if a.EndStatus? {
      UnknownKeeps(s.table, s.marks[a.caller]);
    }
    OtherParts(s, s');
    CallUndisturbed(s, s');
  }

  lemma ReconcileBegins(s: State, caller: nat, request: string)
    requires Inv(s) && Enabled(s, BeginReconcile(caller, request))
    ensures Inv(Apply(s, BeginReconcile(caller, request)))
  {
    hide TableInv, SentInv, CallInv;
    var s' := Apply(s, BeginReconcile(caller, request));
    assert CallInv(s') by {
      CallFramed(s, s');
    }
    assert SentInv(s') by {
      SentFramed(s, s');
    }
  }

  lemma CallFramed(s: State, s': State)
    requires CallInv(s) && s'.call == s.call && s'.dispatches == s.dispatches && s'.binding == s.binding && s'.table == s.table
    ensures CallInv(s')
  {
  }

  lemma SentFramed(s: State, s': State)
    requires SentInv(s) && s'.dispatches == s.dispatches && s'.table == s.table
    ensures SentInv(s')
  {
  }

  /** What a reconcile's commit does to the table. */
  lemma ReconcileWrites(s: State, caller: nat, status: RuntimeStatus, receipt: Receipt)
    requires Inv(s) && caller in s.reconciles && s.reconciles[caller].Asking?
    requires ActualState(status, s.binding, s.reconciles[caller].record.scope.installation)
    ensures var r := s.reconciles[caller].request;
      var a := CommitOutcome(s.table, r, status, receipt);
      && r in s.table && s.table[r].receipt.Some?
      && (a.Written? ==>
            && TableInv(a.table) && Forward(s.table, a.table) && a.table.Keys == s.table.Keys
            && a.table == s.table[r := a.table[r]]
            && a.table[r].status.Some? && a.table[r].receipt.Some?)
  {
    var c := s.reconciles[caller];
    assert ReconcileInv(s, c);
    hide ActualState, PendingReceipt, CallInv, SentInv;
    assert s.table[c.request].scope == c.record.scope;
    OutcomeKeeps(s.table, c.request, status, receipt);
    hide TableInv, Forward;
    OutcomeHasStatus(s.table, c.request, status, receipt);
  }

  lemma ReconcileStep(s: State, caller: nat, status: RuntimeStatus, installed: bool, receipt: Receipt)
    requires Inv(s) && Enabled(s, ReconcileOutcome(caller, status, installed, receipt))
    ensures var s' := Reconciled(s, caller, status, installed, receipt); Inv(s') && Forward(s.table, s'.table)
  {
    hide Inv, ActivationScope, ActualState, CommitOutcome, Forward;
    var c := s.reconciles[caller];
    ForwardSelf(s.table);
    if ReconcileChecks(s, c, status, installed, receipt) {
      ReconcileWrites(s, caller, status, receipt);
      var a := CommitOutcome(s.table, c.request, status, receipt);
      if a.Written? {
        ReconcileKeeps(s, s.(table := a.table, reconciles := s.reconciles[caller := Committed(c.request)]), caller);
      } else {
        ReconcileKeeps(s, s.(reconciles := s.reconciles - {caller}), caller);
      }
    } else {
      ReconcileKeeps(s, s.(reconciles := s.reconciles - {caller}), caller);
    }
  }

  /** A reconcile that ends, or whose outcome is stored, leaves everything else as the invariant wants it. */
  lemma ReconcileKeeps(s: State, s': State, caller: nat)
    requires Inv(s) && caller in s.reconciles
    requires s' == s.(table := s'.table, reconciles := s'.reconciles)
    requires TableInv(s'.table) || s'.table == s.table
    requires Forward(s.table, s'.table) && s'.table.Keys == s.table.Keys
    requires forall r | r in s.table && s.table[r].receipt.None? :: s'.table[r].receipt.None?
    requires s'.reconciles == s.reconciles - {caller}
      || (var r := s.reconciles[caller].request;
          s'.reconciles == s.reconciles[caller := Committed(r)]
          && r in s'.table && s'.table[r].receipt.Some? && s'.table[r].status.Some?)
    ensures Inv(s')
  {
    hide TableInv, SentInv, Forward, CallInv;
    OtherParts(s, s');
    CallUndisturbed(s, s');
  }

  lemma OutcomeHasStatus(t: Operations, request: string, status: RuntimeStatus, receipt: Receipt)
    ensures var a := CommitOutcome(t, request, status, receipt);
            a.Written? ==> request in a.table && a.table[request].status.Some? && a.table[request].receipt.Some?
                           && a.table.Keys == t.Keys && a.table == t[request := a.table[request]]
  {
  }

  lemma ReconcileEnds(s: State, caller: nat, returned: bool)
    requires Inv(s) && Enabled(s, EndReconcile(caller, returned))
    ensures var s' := ReconcileEnded(s, caller, returned); Inv(s') && Forward(s.table, s'.table)
  {
    hide ActivationScope, ActualState, PendingReceipt, BindingPending;
    var s' := ReconcileEnded(s, caller, returned);
    ForwardSelf(s.table);
    assert ReconcileInv(s, s.reconciles[caller]);
    if returned {
      CompleteKeeps(s.table, s.reconciles[caller].request);
    }
    hide TableInv, CallInv;
    OtherParts(s, s');
    CallUndisturbed(s, s');
  }

  lemma CrashStep(s: State, binding: string)
    requires Inv(s)
    ensures Inv(Apply(s, Crash(binding)))
  {
    hide TableInv;
  }

  lemma StepKeeps(s: State, a: Action)
    requires Inv(s) && Enabled(s, a)
    ensures Inv(Apply(s, a)) && Forward(s.table, Apply(s, a).table)
  {
    hide Inv, Forward;
    ForwardSelf(s.table);
    match a
    case PersistIntent(actual, scope, wraps) => IntentStep(s, actual, scope, wraps);
    case SendActivation => SendStep(s);
    case PersistOutcome(status, receipt, wraps) => OutcomeStep(s, status, receipt, wraps);
    case CompleteCall => CompleteStep(s);
    case Handle => HandleStep(s);
    case MarkFound => MarkStep(s);
    case BeginStatus(_, _) => StatusKeeps(s, a);
    case EndStatus(_) => StatusKeeps(s, a);
    case BeginReconcile(caller, request) => ReconcileBegins(s, caller, request);
    case ReconcileOutcome(caller, status, installed, receipt) => ReconcileStep(s, caller, status, installed, receipt);
    case EndReconcile(caller, returned) => ReconcileEnds(s, caller, returned);
    case Crash(binding) => CrashStep(s, binding);
    case _ => ActivateKeeps(s, a);
  }

  // ----- runs

  ghost predicate Reachable(s: State) {
    exists binding, run :: Legal(Initial(binding), run) && Exec(Initial(binding), run) == s
  }

  lemma {:induction false} RunKeeps(s: State, run: seq<Action>)
    requires Inv(s) && Legal(s, run)
    ensures Inv(Exec(s, run)) && Forward(s.table, Exec(s, run).table)
    decreases |run|
  {
    hide Inv, Apply, Enabled, Evidence;
    ForwardSelf(s.table);
    if run != [] {
      StepKeeps(s, run[0]);
      RunKeeps(Apply(s, run[0]), run[1..]);
    }
  }

  lemma ReachableInv(s: State)
    requires Reachable(s)
    ensures Inv(s)
  {
    var binding, run :| Legal(Initial(binding), run) && Exec(Initial(binding), run) == s;
    RunKeeps(Initial(binding), run);
  }

  /** Over any run with client failures, lost replies, interleaved reads and crashes, a request id is
      dispatched at most once, and what was dispatched is exactly what the table has on record. */
  lemma DispatchedAtMostOnce(s: State)
    requires Reachable(s)
    ensures forall i, j | 0 <= i < j < |s.dispatches| :: s.dispatches[i].request != s.dispatches[j].request
    ensures forall i | 0 <= i < |s.dispatches| ::
              s.dispatches[i].request in s.table && s.table[s.dispatches[i].request].scope == s.dispatches[i].scope
  {
    ReachableInv(s);
  }

  /** When an activation is sent, its exact scope is durable without an outcome, it was never sent
      before, and no other operation of the binding is unfinished. */
  lemma IntentBeforeDispatch(s: State)
    requires Reachable(s) && Enabled(s, SendActivation)
    ensures var sent := Apply(s, SendActivation).dispatches[|s.dispatches|];
            && sent.request in s.table && s.table[sent.request].scope == sent.scope
            && (s.table[sent.request].phase.INTENT? || s.table[sent.request].phase.UNKNOWN?)
            && NotSent(s, sent.request)
            && forall r | r in s.table && r != sent.request && s.table[r].scope.binding == sent.scope.binding :: s.table[r].phase.COMPLETED?
  {
    ReachableInv(s);
    assert Evidence(s.call.request, s.table[s.call.request]);
  }

  /** Records are never dropped, scopes never change, phases only move forward, and a completed record
      never changes at all. */
  lemma RecordsOnlyMoveForward(s: State, run: seq<Action>, r: string)
    requires Reachable(s) && Legal(s, run) && r in s.table
    ensures var t' := Exec(s, run).table;
            && r in t' && t'[r].scope == s.table[r].scope
            && Rank(s.table[r].phase) <= Rank(t'[r].phase)
            && (s.table[r].phase.COMPLETED? ==> t'[r] == s.table[r])
  {
    ReachableInv(s);
    RunKeeps(s, run);
  }

  /** Evidence: a receipt is there exactly in the last two phases; every stored status, so every
      completed record's, is RUNNING for the record's own binding and installation, with a reference
      that spells one port in 1..65535. */
  lemma StoredEvidence(s: State, r: string)
    requires Reachable(s) && r in s.table
    ensures var op := s.table[r];
            && (op.receipt.Some? <==> op.phase.RECEIPT_PENDING? || op.phase.COMPLETED?)
            && (op.phase.COMPLETED? ==> op.status.Some?)
            && (op.status.Some? ==>
                  && op.status.value.binding == op.scope.binding && op.status.value.installation == op.scope.installation
                  && op.status.value.state == "RUNNING"
                  && exists port: nat :: 1 <= port <= 65535 && op.status.value.connectionRef == Reference(port))
  {
    ReachableInv(s);
    var op := s.table[r];
    assert Evidence(r, op);
    if op.status.Some? {
      AcceptedExactly(op.status.value.connectionRef);
    }
  }

  // ----- the fail-closed latch

  ghost predicate Latched(s: State, r: string) {
    && Inv(s) && r in s.table && s.table[r].phase.UNKNOWN?
    && (s.call.Intended? || s.call.Dispatched? || s.call.Persisted? || s.call.Returned? || s.call.Failing? || s.call.Handling? ==>
          s.call.request != r)
  }

  /** While latched, no dispatch goes out on the record's binding. */
  ghost predicate Silent(s: State, s': State, binding: string) {
    && |s.dispatches| <= |s'.dispatches|
    && (forall i | 0 <= i < |s.dispatches| :: s'.dispatches[i] == s.dispatches[i])
    && (forall i | |s.dispatches| <= i < |s'.dispatches| :: s'.dispatches[i].scope.binding != binding)
  }

  lemma LatchStep(s: State, a: Action, r: string)
    requires Latched(s, r) && Enabled(s, a)
    ensures Latched(Apply(s, a), r)
    ensures Apply(s, a).table[r] == s.table[r]
    ensures Silent(s, Apply(s, a), s.table[r].scope.binding)
  {
    StepKeeps(s, a);
    assert Evidence(r, s.table[r]);
    LatchRecord(s, a, r);
    hide Inv, Forward;
    LatchCall(s, a, r);
    LatchDispatch(s, a, r);
  }

  /** A latched record has no receipt, so no reconcile in flight can be about it. */
  lemma LatchRecord(s: State, a: Action, r: string)
    requires Latched(s, r) && Enabled(s, a) && s.table[r].receipt.None?
    ensures r in Apply(s, a).table && Apply(s, a).table[r] == s.table[r]
  {
    if a.ReconcileOutcome? || a.EndReconcile? {
      assert ReconcileInv(s, s.reconciles[a.caller]);
    }
    hide Inv, ReconcileInv, ActivationScope, BindingPending, PendingReceipt, ActualState;
    UnknownUntouched(s, a, r);
  }

  lemma UnknownUntouched(s: State, a: Action, r: string)
    requires Enabled(s, a) && r in s.table && s.table[r].phase.UNKNOWN?
    requires a.ReconcileOutcome? || a.EndReconcile? ==> s.reconciles[a.caller].request != r
    requires a.PersistOutcome? || a.CompleteCall? || a.Handle? ==> s.call.request != r
    ensures r in Apply(s, a).table && Apply(s, a).table[r] == s.table[r]
  {
    hide ActivationScope, BindingPending, PendingReceipt, ActualState, ReconcileChecks;
    match a
    case PersistIntent(actual, scope, wraps) => OthersAfterIntent(s, actual, scope, wraps, r);
    case _ =>
  }

  lemma OthersAfterIntent(s: State, actual: string, scope: Scope, wraps: bool, r: string)
    requires s.call.Calling? && r in s.table
    ensures var t' := IntentPersisted(s, actual, scope, wraps).table; r in t' && t'[r] == s.table[r]
  {
  }

  lemma LatchCall(s: State, a: Action, r: string)
    requires r in s.table && s.table[r].phase.UNKNOWN? && CallInv(s) && Enabled(s, a)
    requires s.call.Intended? || s.call.Dispatched? || s.call.Persisted? || s.call.Returned? || s.call.Failing? || s.call.Handling? ==> s.call.request != r
    ensures var c := Apply(s, a).call;
            c.Intended? || c.Dispatched? || c.Persisted? || c.Returned? || c.Failing? || c.Handling? ==> c.request != r
  {
  }

  lemma DispatchesGrow(s: State, a: Action)
    requires Enabled(s, a)
    ensures Apply(s, a).dispatches ==
            if a.SendActivation? then s.dispatches + [Dispatch(s.call.request, ActivationScope(s.binding, s.call.installation))]
            else s.dispatches
  {
    hide ActivationScope, BindingPending, PendingReceipt, ActualState, ReconcileChecks;
    hide CommitOutcome, CreateIntent, Complete, PersistReceipt, MarkUnknown;
  }

  /** A binding with a latched operation has no other unfinished one, so nothing to send. */
  lemma SendsElsewhere(s: State, r: string)
    requires Latched(s, r) && s.call.Intended?
    ensures s.table[r].scope.binding != s.binding
  {
    var q := s.call.request;
    assert Owned(s, q, s.call.installation) && s.table[q].receipt.None? && q != r;
    assert Evidence(q, s.table[q]);
    assert s.table[q].scope.binding == s.binding;
    hide ActivationScope, ActualState, PendingReceipt, CallInv, SentInv, Evidence;
    assert TableInv(s.table);
  }

  lemma LatchDispatch(s: State, a: Action, r: string)
    requires Latched(s, r) && Enabled(s, a)
    ensures Silent(s, Apply(s, a), s.table[r].scope.binding)
  {
    DispatchesGrow(s, a);
    if a.SendActivation? {
      SendsElsewhere(s, r);
    }
    hide Inv, Apply;
  }

  /** Once an operation is UNKNOWN and no activation call is working on it, no later run of activate,
      reconcile, status or crash ever changes its record or sends another activation on its binding. */
  lemma {:induction false} UnknownIsFinal(s: State, run: seq<Action>, r: string)
    requires Latched(s, r) && Legal(s, run)
    ensures var s' := Exec(s, run);
            r in s'.table && s'.table[r] == s.table[r] && Silent(s, s', s.table[r].scope.binding)
    decreases |run|
  {
    hide Latched, Apply, Enabled;
    LatchedRecord(s, r);
    if run != [] {
      LatchStep(s, run[0], r);
      UnknownIsFinal(Apply(s, run[0]), run[1..], r);
    }
  }

  lemma LatchedRecord(s: State, r: string)
    requires Latched(s, r)
    ensures r in s.table
  {
  }

  // ----- the recorded reference

  predicate RefChanged(t: Operations, t': Operations, r: string) {
    r in t && t[r].status.Some? && r in t' && t'[r].status.Some?
    && t[r].status.value.connectionRef != t'[r].status.value.connectionRef
  }

  /** A recorded reference can change in one way only: a reconcile that began before there was a
      status commits after another one has stored one. */
  lemma RefChangesOnlyByOverlap(s: State, a: Action, r: string)
    requires Inv(s) && Enabled(s, a) && RefChanged(s.table, Apply(s, a).table, r)
    ensures a.ReconcileOutcome? && s.reconciles[a.caller].request == r
    ensures s.reconciles[a.caller].record.status.None? ||
            s.reconciles[a.caller].record.status.value.connectionRef != s.table[r].status.value.connectionRef
  {
    if a.ReconcileOutcome? {
      hide Inv;
      OutcomeChangesRef(s, a.caller, a.status, a.installed, a.receipt, r);
    } else {
      if a.PersistOutcome? {
        DispatchedHasNoStatus(s);
      }
      hide Inv, Apply;
      StatusKept(s, a, r);
    }
  }

  lemma DispatchedHasNoStatus(s: State)
    requires Inv(s) && s.call.Dispatched?
    ensures s.call.request in s.table && s.table[s.call.request].status.None?
  {
    assert Evidence(s.call.request, s.table[s.call.request]);
  }

  lemma OutcomeChangesRef(s: State, caller: nat, status: RuntimeStatus, installed: bool, receipt: Receipt, r: string)
    requires caller in s.reconciles && s.reconciles[caller].Asking?
    requires RefChanged(s.table, Reconciled(s, caller, status, installed, receipt).table, r)
    ensures s.reconciles[caller].request == r
    ensures s.reconciles[caller].record.status.None? ||
            s.reconciles[caller].record.status.value.connectionRef != s.table[r].status.value.connectionRef
  {
    hide ActivationScope, ActualState;
  }

  /** Every other step leaves a recorded status as it is. */
  lemma StatusKept(s: State, a: Action, r: string)
    requires Enabled(s, a) && r in s.table && s.table[r].status.Some? && !a.ReconcileOutcome?
    requires a.PersistOutcome? ==> s.call.request in s.table && s.table[s.call.request].status.None?
    ensures r in Apply(s, a).table && Apply(s, a).table[r].status == s.table[r].status
  {
    hide ActivationScope, BindingPending, PendingReceipt, ActualState;
    match a
    case PersistIntent(actual, scope, wraps) => OthersAfterIntent(s, actual, scope, wraps, r);
    case _ =>
  }

  /** No reconcile begins while another is under way. */
  ghost predicate OneAtATime(s: State, run: seq<Action>)
    requires Legal(s, run)
    decreases |run|
  {
    run == [] ||
    ((run[0].BeginReconcile? ==> s.reconciles == map[]) && OneAtATime(Apply(s, run[0]), run[1..]))
  }

  /** The one reconcile under way knows the status on record. */
  ghost predicate Alone(s: State) {
    && (forall c, d | c in s.reconciles && d in s.reconciles :: c == d)
    && (forall c | c in s.reconciles ::
          s.reconciles[c].request in s.table && s.table[s.reconciles[c].request].receipt.Some?
          && (s.reconciles[c].Asking? ==> s.reconciles[c].record.status == s.table[s.reconciles[c].request].status))
  }

  lemma AloneStep(s: State, a: Action)
    requires Inv(s) && Alone(s) && Enabled(s, a) && (a.BeginReconcile? ==> s.reconciles == map[])
    ensures Alone(Apply(s, a))
  {
    StepKeeps(s, a);
    if a.PersistOutcome? {
      assert Evidence(s.call.request, s.table[s.call.request]);
    }
    hide TableInv, SentInv, CallInv, ReconcileInv, Evidence;
    if a.BeginReconcile? || a.ReconcileOutcome? || a.EndReconcile? || a.Crash? {
      AloneReconcile(s, a);
    } else {
      AloneKept(s, a);
    }
  }

  lemma AloneReconcile(s: State, a: Action)
    requires Alone(s) && Enabled(s, a) && (a.BeginReconcile? ==> s.reconciles == map[])
    requires a.BeginReconcile? || a.ReconcileOutcome? || a.EndReconcile? || a.Crash?
    ensures Alone(Apply(s, a))
  {
    hide ActivationScope, ReconcileChecks;
  }

  lemma AloneKept(s: State, a: Action)
    requires Alone(s) && Enabled(s, a) && Forward(s.table, Apply(s, a).table)
    requires !(a.BeginReconcile? || a.ReconcileOutcome? || a.EndReconcile? || a.Crash?)
    requires a.PersistOutcome? ==> s.call.request in s.table && s.table[s.call.request].receipt.None? && s.table[s.call.request].status.None?
    ensures Alone(Apply(s, a))
  {
    SameReconciles(s, a);
    forall c | c in s.reconciles && s.reconciles[c].Asking?
      ensures Apply(s, a).table[s.reconciles[c].request].status == s.table[s.reconciles[c].request].status
    {
      StatusStays(s, a, s.reconciles[c].request);
    }
    hide Apply, Enabled;
  }

  lemma SameReconciles(s: State, a: Action)
    requires Enabled(s, a) && !(a.BeginReconcile? || a.ReconcileOutcome? || a.EndReconcile? || a.Crash?)
    ensures Apply(s, a).reconciles == s.reconciles
  {
    hide ActivationScope, BindingPending, PendingReceipt, ActualState, CommitOutcome, CreateIntent, Complete, PersistReceipt, MarkUnknown;
  }

  /** A record with a receipt gets a status from nobody but a reconcile. */
  lemma StatusStays(s: State, a: Action, r: string)
    requires Enabled(s, a) && r in s.table && s.table[r].receipt.Some?
    requires !(a.BeginReconcile? || a.ReconcileOutcome? || a.EndReconcile? || a.Crash?)
    requires a.PersistOutcome? ==> s.call.request in s.table && s.table[s.call.request].receipt.None?
    ensures r in Apply(s, a).table && Apply(s, a).table[r].status == s.table[r].status
  {
    hide ActivationScope, BindingPending, PendingReceipt, ActualState;
    match a
    case PersistIntent(actual, scope, wraps) => OthersAfterIntent(s, actual, scope, wraps, r);
    case _ =>
  }

  /** When reconciles do not overlap, a recorded reference never changes. */
  lemma {:induction false} RefStableWithoutOverlap(s: State, run: seq<Action>, r: string)
    requires Inv(s) && Alone(s) && Legal(s, run) && OneAtATime(s, run)
    requires r in s.table && s.table[r].status.Some?
    ensures var t' := Exec(s, run).table;
            r in t' && t'[r].status.Some? && t'[r].status.value.connectionRef == s.table[r].status.value.connectionRef
    decreases |run|
  {
    if run != [] {
      var a := run[0];
      StepKeeps(s, a);
      AloneStep(s, a);
      RefStableStep(s, a, r);
      hide Inv, Alone, Apply, Enabled, Forward;
      RefStableWithoutOverlap(Apply(s, a), run[1..], r);
    }
  }

  lemma RefStableStep(s: State, a: Action, r: string)
    requires Inv(s) && Alone(s) && Enabled(s, a) && r in s.table && s.table[r].status.Some?
    ensures var t' := Apply(s, a).table;
            r in t' && t'[r].status.Some? && t'[r].status.value.connectionRef == s.table[r].status.value.connectionRef
  {
    StepKeeps(s, a);
    hide Inv, Apply, Enabled;
    if RefChanged(s.table, Apply(s, a).table, r) {
      RefChangesOnlyByOverlap(s, a, r);
    }
  }

  lemma TwoReferences()
    ensures ControlUrl(Reference(1)).Some? && ControlUrl(Reference(2)).Some? && Reference(1) != Reference(2)
  {
    AcceptedExactly(Reference(1));
    AcceptedExactly(Reference(2));
  }

  lemma OutcomeApplies(s: State, c: nat, status: RuntimeStatus, receipt: Receipt)
    requires c in s.reconciles && s.reconciles[c].Asking? && ReconcileChecks(s, s.reconciles[c], status, true, receipt)
    requires s.reconciles[c].request in s.table && Unfinished(s.table[s.reconciles[c].request])
    ensures Enabled(s, ReconcileOutcome(c, status, true, receipt))
    ensures var r := s.reconciles[c].request;
            Apply(s, ReconcileOutcome(c, status, true, receipt))
            == s.(table := s.table[r := s.table[r].(phase := RECEIPT_PENDING, status := Some(status), receipt := Some(receipt))],
                  reconciles := s.reconciles[c := Committed(r)])
  {
    hide ReconcileChecks;
  }

  lemma ChecksPass(s: State, c: Reconcile, status: RuntimeStatus, receipt: Receipt)
    requires c.Asking? && c.record.status.None? && ActualState(status, s.binding, c.record.scope.installation)
    requires receipt.requestId == c.request && receipt.scope == ActivationScope(s.binding, c.record.scope.installation)
    ensures ReconcileChecks(s, c, status, true, receipt)
  {
  }

  /** And overlap does break it: two reconciles of one request that both began before any status was
      stored can leave one reference and then another. */
  lemma OverlapChangesRef(s: State, c: nat, d: nat, receipt: Receipt)
    returns (run: seq<Action>, middle: State)
    requires Inv(s) && c != d && c in s.reconciles && d in s.reconciles
    requires s.reconciles[c].Asking? && s.reconciles[d].Asking? && s.reconciles[c].request == s.reconciles[d].request
    requires s.reconciles[c].record.status.None? && s.reconciles[d].record.status.None?
    requires s.reconciles[c].request in s.table && Unfinished(s.table[s.reconciles[c].request])
    requires receipt.requestId == s.reconciles[c].request && receipt.scope == s.reconciles[c].record.scope
    ensures |run| == 2 && Legal(s, run) && middle == Apply(s, run[0])
    ensures RefChanged(middle.table, Exec(s, run).table, s.reconciles[c].request)
  {
    assert ReconcileInv(s, s.reconciles[c]) && ReconcileInv(s, s.reconciles[d]);
    hide Inv, ControlUrl, Reference, Apply, Enabled, ReconcileChecks;
    var installation := s.reconciles[c].record.scope.installation;
    TwoReferences();
    var first := RuntimeStatus(s.binding, installation, "RUNNING", Reference(1));
    var second := RuntimeStatus(s.binding, installation, "RUNNING", Reference(2));
    ChecksPass(s, s.reconciles[c], first, receipt);
    OutcomeApplies(s, c, first, receipt);
    middle := Apply(s, ReconcileOutcome(c, first, true, receipt));
    ChecksPass(middle, middle.reconciles[d], second, receipt);
    OutcomeApplies(middle, d, second, receipt);
    run := [ReconcileOutcome(c, first, true, receipt), ReconcileOutcome(d, second, true, receipt)];
    TwoSteps(s, run);
  }

  lemma TwoSteps(s: State, run: seq<Action>)
    requires |run| == 2 && Enabled(s, run[0]) && Enabled(Apply(s, run[0]), run[1])
    ensures Legal(s, run) && Exec(s, run) == Apply(Apply(s, run[0]), run[1])
  {
    hide Apply, Enabled;
    var middle, tail := Apply(s, run[0]), run[1..];
    assert tail[0] == run[1] && tail[1..] == [];
    assert Legal(middle, tail) && Exec(middle, tail) == Apply(middle, run[1]);
  }

  // ----- an overlap from the start

  /** A run and where it has led. */
  ghost predicate Reached(start: State, run: seq<Action>, s: State) {
    Legal(start, run) && Exec(start, run) == s
  }

  lemma Then(start: State, run: seq<Action>, s: State, a: Action) returns (run': seq<Action>, s': State)
    requires Reached(start, run, s) && Enabled(s, a)
    ensures run' == run + [a] && s' == Apply(s, a) && Reached(start, run', s')
  {
    hide Apply, Enabled;
    ExecAppend(start, run, a);
    run', s' := run + [a], Apply(s, a);
  }

  /** The receipt of an activation that the SDK could not confirm. */
  function Unconfirmed(binding: string, request: string, installation: string): (receipt: Receipt)
    ensures PendingReceipt(receipt, request, binding, installation)
  {
    Receipt(request, SOURCE_ID, ActivationScope(binding, installation), "token", true, false, 1, 1, RECEIPT_PROTOCOL)
  }

  lemma SentFromStart(binding: string, request: string, installation: string) returns (run: seq<Action>, s: State)
    ensures Reached(Initial(binding), run, s)
    ensures var scope := ActivationScope(binding, installation);
      s == State(binding, map[request := Operation(scope, INTENT, None, None)], Dispatched(request, installation), map[], map[],
                 [Dispatch(request, scope)])
  {
    var start, scope := Initial(binding), ActivationScope(binding, installation);
    assert Reached(start, [], start);
    hide Reached, ActivationScope, ActualState, PendingReceipt;
    run, s := Then(start, [], start, BeginActivate(request, installation));
    run, s := Then(start, run, s, Look);
    run, s := Then(start, run, s, PersistIntent(request, scope, false));
    assert s.table == map[request := Operation(scope, INTENT, None, None)];
    run, s := Then(start, run, s, SendActivation);
  }

  lemma PendingFromStart(binding: string, request: string, installation: string) returns (run: seq<Action>, s: State)
    ensures Reached(Initial(binding), run, s)
    ensures var scope, receipt := ActivationScope(binding, installation), Unconfirmed(binding, request, installation);
      s == State(binding, map[request := Operation(scope, RECEIPT_PENDING, None, Some(receipt))], NoCall, map[], map[],
                 [Dispatch(request, scope)])
  {
    var start, receipt := Initial(binding), Unconfirmed(binding, request, installation);
    hide Reached, ActivationScope, ActualState, PendingReceipt, Unconfirmed, BindingPending;
    run, s := SentFromStart(binding, request, installation);
    run, s := Then(start, run, s, ClientRaises(Some(receipt)));
    run, s := Then(start, run, s, ReadBack);
    run, s := Then(start, run, s, Handle);
    assert s.table == map[request := Operation(ActivationScope(binding, installation), RECEIPT_PENDING, None, Some(receipt))];
  }

  /** Every binding, request and installation has such a run: an activation whose client raises with its pending
      receipt, and two reconciles of it that overlap.  Their second outcome changes the recorded reference. */
  lemma {:induction false} OverlapFromStart(binding: string, request: string, installation: string)
    returns (run: seq<Action>, last: Action)
    ensures Legal(Initial(binding), run + [last]) && Legal(Initial(binding), run)
    ensures RefChanged(Exec(Initial(binding), run).table, Exec(Initial(binding), run + [last]).table, request)
  {
    var start, receipt := Initial(binding), Unconfirmed(binding, request, installation);
    var s: State;
    hide Reached, ActivationScope, ActualState, PendingReceipt, Unconfirmed, BindingPending, Inv, RefChanged;
    run, s := PendingFromStart(binding, request, installation);
    ScopeOfActivation(binding, installation);
    PendingFits(binding, request, installation);
    run, s := Then(start, run, s, BeginReconcile(0, request));
    run, s := Then(start, run, s, BeginReconcile(1, request));
    ReachedInv(binding, run, s);
    hide Apply;
    var two, middle := OverlapChangesRef(s, 0, 1, receipt);
    hide Enabled;
    var s1, s2: State;
    TwoSplit(s, two);
    last := two[1];
    run, s1 := Then(start, run, s, two[0]);
    var all;
    all, s2 := Then(start, run, s1, last);
    ReachedIs(start, run, s1);
    ReachedIs(start, all, s2);
  }

  lemma ScopeOfActivation(binding: string, installation: string)
    ensures ActivationScope(binding, installation).installation == installation
  {
  }

  lemma PendingFits(binding: string, request: string, installation: string)
    ensures var receipt := Unconfirmed(binding, request, installation);
      receipt.requestId == request && receipt.scope == ActivationScope(binding, installation)
  {
  }

  lemma ReachedInv(binding: string, run: seq<Action>, s: State)
    requires Reached(Initial(binding), run, s)
    ensures Inv(s)
  {
    RunKeeps(Initial(binding), run);
  }

  lemma ReachedIs(start: State, run: seq<Action>, s: State)
    requires Reached(start, run, s)
    ensures Legal(start, run) && Exec(start, run) == s
  {
  }

  lemma TwoSplit(s: State, run: seq<Action>)
    requires |run| == 2 && Legal(s, run)
    ensures Enabled(s, run[0]) && Enabled(Apply(s, run[0]), run[1])
    ensures Exec(s, run) == Apply(Apply(s, run[0]), run[1])
  {
    hide Apply, Enabled;
    var tail := run[1..];
    assert tail[0] == run[1] && tail[1..] == [];
    assert Legal(Apply(s, run[0]), tail);
    assert Exec(Apply(s, run[0]), tail) == Apply(Apply(s, run[0]), run[1]);
  }
}
