/** The owner object over its table.  The SDK call in the middle of an activation hands control to the
    outside, so an activation is a method for each stretch of the owner's own code: up to the SDK
    call, the two callbacks, and what follows a failure or a return.  Status and reconcile may be
    called in between.  `model` and `trace` shadow every transaction with its machine step. */
module RuntimeOwnerObject {
  import opened Options
  import opened RuntimeOperations
  import opened RuntimeOwner
  import opened RuntimeOwnerTheorems

  /** The table, one transaction per method. */
  class RuntimeStore {
    var rows: Operations

    constructor ()
      ensures rows == map[]
    {
      rows := map[];
    }

    method InsertIntent(request: string, scope: Scope) returns (ok: bool)
      modifies this
      ensures ok == CreateIntent(old(rows), request, scope).Written?
      ensures rows == if ok then CreateIntent(old(rows), request, scope).table else old(rows)
    {
      if request in rows {
        return rows[request].scope == scope;
      }
      if exists r | r in rows :: rows[r].scope.binding == scope.binding && Unfinished(rows[r]) {
        return false;
      }
      rows := rows[request := Operation(scope, INTENT, None, None)];
      return true;
    }

    method SetUnknown(request: string)
      modifies this
      ensures rows == MarkUnknown(old(rows), request)
    {
      if request in rows && rows[request].phase == INTENT && rows[request].receipt == None {
        rows := rows[request := rows[request].(phase := UNKNOWN)];
      }
    }

    method SaveReceipt(request: string, receipt: Receipt) returns (ok: bool)
      modifies this
      ensures ok == PersistReceipt(old(rows), request, receipt).Written?
      ensures rows == if ok then PersistReceipt(old(rows), request, receipt).table else old(rows)
    {
      ok := request in rows && (rows[request].phase == INTENT || rows[request].phase == UNKNOWN) && rows[request].receipt == None;
      if ok {
        rows := rows[request := rows[request].(phase := RECEIPT_PENDING, receipt := Some(receipt))];
      }
    }

    method SaveOutcome(request: string, status: RuntimeStatus, receipt: Receipt) returns (ok: bool)
      modifies this
      ensures ok == CommitOutcome(old(rows), request, status, receipt).Written?
      ensures rows == if ok then CommitOutcome(old(rows), request, status, receipt).table else old(rows)
    {
      ok := request in rows && rows[request].phase != COMPLETED;
      if ok {
        rows := rows[request := rows[request].(phase := RECEIPT_PENDING, status := Some(status), receipt := Some(receipt))];
      }
    }

    method SetCompleted(request: string) returns (ok: bool)
      modifies this
      ensures ok == Complete(old(rows), request).Written?
      ensures rows == if ok then Complete(old(rows), request).table else old(rows)
    {
      ok := request in rows && rows[request].phase == RECEIPT_PENDING && rows[request].receipt != None;
      if ok {
        rows := rows[request := rows[request].(phase := COMPLETED)];
      }
    }
  }

  datatype Reply =
    | CallTheClient
    | AlreadyCompleted(record: Operation)
    | ScopeConflict
    | ReconcileRequired
    | OutcomeUnknown
    | BindingOperationPending

  /** What `activate` does with a request before it calls the SDK. */
  function Precheck(t: Operations, binding: string, request: string, installation: string): Reply {
    if request in t then
      var existing := t[request];
      if existing.scope != ActivationScope(binding, installation) then ScopeConflict
      else if existing.phase.COMPLETED? then AlreadyCompleted(existing)
      else if existing.receipt.Some? then ReconcileRequired
      else OutcomeUnknown
    else if BindingPending(t, binding) then BindingOperationPending
    else CallTheClient
  }

  class PackageRuntimeOwner {
    const store: RuntimeStore
    const binding: string
    ghost var model: RuntimeOwner.State
    ghost var trace: seq<Action>

    ghost predicate Valid()
      reads this, store
    {
      && store.rows == model.table
      && binding == model.binding
      && Legal(Initial(binding), trace) && Exec(Initial(binding), trace) == model && Inv(model)
    }

    constructor (binding: string)
      ensures Valid() && fresh(store) && this.binding == binding && trace == []
    {
      store := new RuntimeStore();
      this.binding := binding;
      model := Initial(binding);
      trace := [];
    }

    /** Book a step whose effect on the table has already been written. */
    ghost method Step(a: Action)
      requires Legal(Initial(binding), trace) && Exec(Initial(binding), trace) == model && Inv(model) && binding == model.binding
      requires Enabled(model, a) && !a.Crash? && store.rows == Apply(model, a).table
      modifies this`model, this`trace
      ensures Valid() && model == Apply(old(model), a) && trace == old(trace) + [a]
      ensures Forward(old(model.table), model.table)
    {
      ExecAppend(Initial(binding), trace, a);
      StepKeeps(model, a);
      SameBinding(model, a);
      hide Inv, Apply, Enabled, Legal, Exec, Forward;
      model := Apply(model, a);
      trace := trace + [a];
    }

    /** `activate`, up to the SDK call. */
    method BeginActivation(request: string, installation: string) returns (reply: Reply)
      requires Valid() && model.call.NoCall?
      modifies this`model, this`trace, store
      ensures Valid() && reply == Precheck(old(model.table), binding, request, installation)
      ensures model.call == if reply.CallTheClient? then Calling(request, installation) else NoCall
      ensures model.table == if reply.OutcomeUnknown? then MarkUnknown(old(model.table), request) else old(model.table)
      ensures model.dispatches == old(model.dispatches)
    {
      hide Inv, Legal, Exec;
      reply := Precheck(store.rows, binding, request, installation);
      BeginEffect(model, request, installation);
      if reply.OutcomeUnknown? && store.rows[request].phase == INTENT {
        Step(BeginActivate(request, installation));
        store.SetUnknown(request);
        Step(MarkFound);
      } else {
        Step(BeginActivate(request, installation));
        if reply.CallTheClient? || reply.BindingOperationPending? {
          Step(Look);
        }
      }
    }

    /** The SDK's `persist_intent` callback. */
    method IntentCallback(request: string, installation: string, actual: string, scope: Scope, ghost wraps: bool) returns (ok: bool)
      requires Valid() && model.call == Calling(request, installation)
      modifies this`model, this`trace, store
      ensures Valid() && model == IntentPersisted(old(model), actual, scope, wraps)
      ensures ok ==> model.call == Intended(request, installation)
                     && model.table == old(model.table)[request := Operation(ActivationScope(binding, installation), INTENT, None, None)]
      ensures !ok ==> model.table == old(model.table)
    {
      hide Inv, Legal, Exec, BindingPending;
      NotStored(model);
      if actual != request || scope != ActivationScope(binding, installation) {
        ok := false;
      } else {
        ok := store.InsertIntent(request, scope);
      }
      Step(Action.PersistIntent(actual, scope, wraps));
    }

    /** The SDK's `persist` callback: only an actual RUNNING state of this very installation is kept. */
    method OutcomeCallback(request: string, installation: string, status: RuntimeStatus, receipt: Receipt, ghost wraps: bool)
      returns (ok: bool)
      requires Valid() && model.call == Dispatched(request, installation)
      modifies this`model, this`trace, store
      ensures Valid() && model == OutcomePersisted(old(model), status, receipt, wraps)
      ensures ok ==> ActualState(status, binding, installation) && model.call == Persisted(request, installation)
                     && request in model.table && model.table[request].status == Some(status)
      ensures !ok ==> model.table == old(model.table)
    {
      hide Inv, Legal, Exec, ActualState;
      ok := false;
      if ActualState(status, binding, installation) {
        ok := store.SaveOutcome(request, status, receipt);
      }
      Step(Action.PersistOutcome(status, receipt, wraps));
    }

    /** After a normal return of the SDK: the outcome is on record, so the operation completes unless a
        reconcile completed it first. */
    method ClientReturned(request: string, installation: string) returns (completed: bool)
      requires Valid() && model.call == Persisted(request, installation)
      modifies this`model, this`trace, store
      ensures Valid() && model.call.NoCall? && request in model.table && model.table[request].phase.COMPLETED?
      ensures model.table[request].status.Some? && model.dispatches == old(model.dispatches)
    {
      hide Inv, Legal, Exec;
      OutcomeOnRecord(model);
      Step(ClientReturns);
      completed := FinishCall(request, installation);
    }

    method FinishCall(request: string, installation: string) returns (completed: bool)
      requires Valid() && model.call == Returned(request, installation)
      requires request in model.table && model.table[request].status.Some? && model.table[request].receipt.Some?
      requires model.table[request].phase.RECEIPT_PENDING? || model.table[request].phase.COMPLETED?
      modifies this`model, this`trace, store
      ensures Valid() && model.call.NoCall? && model.dispatches == old(model.dispatches)
      ensures model.table == old(model.table)[request := old(model.table)[request].(phase := COMPLETED)]
    {
      hide Inv, Legal, Exec;
      completed := store.SetCompleted(request);
      Step(CompleteCall);
      if !completed {
        Step(ReadBack);
      }
    }

    /** The handler of any other exception: a record still INTENT gets the receipt the exception
        carries, if it is exactly this operation's pending receipt, and becomes UNKNOWN otherwise. */
    method ClientFailed(request: string, installation: string, carried: Option<Receipt>)
      requires Valid() && InClient(model.call) && model.call.request == request && model.call.installation == installation
      modifies this`model, this`trace, store
      ensures Valid() && model.call.NoCall? && model.dispatches == old(model.dispatches)
      ensures var t := old(model.table);
              if request in t && t[request].phase.INTENT? then
                if carried.Some? && PendingReceipt(carried.value, request, binding, installation) then
                  model.table == t[request := t[request].(phase := RECEIPT_PENDING, receipt := carried)]
                else
                  model.table == t[request := t[request].(phase := UNKNOWN)]
              else
                model.table == t
    {
      hide Inv, Legal, Exec, PendingReceipt;
      NoReceiptYet(model);
      Step(ClientRaises(carried));
      var intent := request in store.rows && store.rows[request].phase == INTENT;
      Step(ReadBack);
      if intent {
        HandleRecord(request, installation, carried);
      }
    }

    method HandleRecord(request: string, installation: string, carried: Option<Receipt>)
      requires Valid() && model.call == Handling(request, installation, carried)
      requires request in model.table && model.table[request].phase.INTENT? && model.table[request].receipt.None?
      modifies this`model, this`trace, store
      ensures Valid() && model.call.NoCall? && model.dispatches == old(model.dispatches)
      ensures model.table == old(model.table)[request := old(model.table)[request].(
                phase := if carried.Some? && PendingReceipt(carried.value, request, binding, installation) then RECEIPT_PENDING else UNKNOWN,
                receipt := if carried.Some? && PendingReceipt(carried.value, request, binding, installation) then carried else None)]
    {
      hide Inv, Legal, Exec, PendingReceipt;
      if carried.Some? && PendingReceipt(carried.value, request, binding, installation) {
        var _ := store.SaveReceipt(request, carried.value);
      } else {
        store.SetUnknown(request);
      }
      Step(Handle);
    }

    /** `status`: an INTENT without a receipt that anyone looks at is not to be trusted any more. */
    method ReadStatus(ghost caller: nat) returns (pending: Option<string>)
      requires Valid() && caller !in model.marks
      modifies this`model, this`trace, store
      ensures Valid() && model.call == old(model.call) && model.dispatches == old(model.dispatches)
      ensures pending.None? <==> !BindingPending(old(model.table), binding)
      ensures pending.None? ==> model.table == old(model.table)
      ensures pending.Some? ==>
                && pending.value in old(model.table) && Unfinished(old(model.table)[pending.value])
                && old(model.table)[pending.value].scope.binding == binding
                && model.table == MarkUnknown(old(model.table), pending.value)
                && !model.table[pending.value].phase.INTENT?
    {
      if !(exists r | r in store.rows :: store.rows[r].scope.binding == binding && Unfinished(store.rows[r])) {
        return None;
      }
      var r :| r in store.rows && store.rows[r].scope.binding == binding && Unfinished(store.rows[r]);
      hide Inv, Legal, Exec, BindingPending;
      MarkPending(caller, r);
      return Some(r);
    }

    method MarkPending(ghost caller: nat, r: string)
      requires Valid() && caller !in model.marks
      requires r in model.table && model.table[r].scope.binding == binding && Unfinished(model.table[r])
      modifies this`model, this`trace, store
      ensures Valid() && model.call == old(model.call) && model.dispatches == old(model.dispatches)
      ensures model.table == MarkUnknown(old(model.table), r) && !model.table[r].phase.INTENT?
    {
      hide Inv, Legal, Exec;
      IntentHasNoReceipt(model, r);
      Step(BeginStatus(caller, r));
      if store.rows[r].phase == INTENT && store.rows[r].receipt == None {
        store.SetUnknown(r);
        Step(EndStatus(caller));
      }
    }

    /** `reconcile`, up to the SDK call: the record as it is now is what the callback will compare with. */
    method BeginReconciling(ghost caller: nat, request: string) returns (record: Option<Operation>)
      requires Valid() && caller !in model.reconciles
      modifies this`model, this`trace
      ensures Valid() && model.table == old(model.table) && model.call == old(model.call)
      ensures record.Some? <==> request in model.table && model.table[request].receipt.Some?
                                && model.table[request].scope == ActivationScope(binding, model.table[request].scope.installation)
      ensures record.Some? ==> record.value == model.table[request]
      ensures model.reconciles == if record.Some? then old(model.reconciles)[caller := Asking(request, record.value)] else old(model.reconciles)
    {
      hide Inv, Legal, Exec;
      record := None;
      if request in store.rows && store.rows[request].receipt.Some?
         && store.rows[request].scope == ActivationScope(binding, store.rows[request].scope.installation) {
        record := Some(store.rows[request]);
      }
      Step(BeginReconcile(caller, request));
    }

    /** The SDK's reconcile callback. */
    method ReconcileCallback(ghost caller: nat, request: string, record: Operation, status: RuntimeStatus, installed: bool, receipt: Receipt)
      returns (ok: bool)
      requires Valid() && caller in model.reconciles && model.reconciles[caller] == Asking(request, record)
      modifies this`model, this`trace, store
      ensures Valid() && model == Reconciled(old(model), caller, status, installed, receipt)
      ensures ok ==> request in model.table && model.table[request].status == Some(status) && model.table[request].phase.RECEIPT_PENDING?
                     && ActualState(status, binding, record.scope.installation)
      ensures !ok ==> model.table == old(model.table)
    {
      hide Inv, Legal, Exec, ActualState;
      ok := false;
      var installation := record.scope.installation;
      if receipt.requestId == request && receipt.scope == ActivationScope(binding, installation)
         && ActualState(status, binding, installation)
         && (record.status.Some? ==> status.connectionRef == record.status.value.connectionRef)
         && installed {
        ok := store.SaveOutcome(request, status, receipt);
      }
      Step(ReconcileOutcome(caller, status, installed, receipt));
    }

    /** After a normal return of the SDK's reconcile. */
    method ReconcileReturned(ghost caller: nat, request: string) returns (completed: bool)
      requires Valid() && caller in model.reconciles && model.reconciles[caller] == Committed(request)
      modifies this`model, this`trace, store
      ensures Valid() && model == ReconcileEnded(old(model), caller, true)
      ensures request in model.table && model.table[request].phase.COMPLETED?
    {
      hide Inv, Legal, Exec;
      ReconcileOnRecord(model, caller);
      completed := store.SetCompleted(request);
      Step(EndReconcile(caller, true));
    }
  }

  // ----- what the methods read off the invariant

  lemma SameBinding(s: RuntimeOwner.State, a: Action)
    requires Enabled(s, a) && !a.Crash?
    ensures Apply(s, a).binding == s.binding
  {
    hide ActivationScope, BindingPending, PendingReceipt, ActualState, ReconcileChecks, CommitOutcome, CreateIntent, Complete, PersistReceipt, MarkUnknown;
  }

  lemma BeginEffect(s: RuntimeOwner.State, request: string, installation: string)
    requires Inv(s) && s.call.NoCall?
    ensures request in s.table && s.table[request].phase.INTENT? ==> s.table[request].receipt.None?
    ensures request in s.table && !s.table[request].phase.COMPLETED? && s.table[request].receipt.None? ==>
              s.table[request].phase.INTENT? || s.table[request].phase.UNKNOWN?
  {
    if request in s.table {
      assert Evidence(request, s.table[request]);
    }
  }

  lemma NotStored(s: RuntimeOwner.State)
    requires Inv(s) && s.call.Calling?
    ensures s.call.request !in s.table
  {
  }

  lemma OutcomeOnRecord(s: RuntimeOwner.State)
    requires Inv(s) && s.call.Persisted?
    ensures var r := s.call.request;
            r in s.table && s.table[r].status.Some? && s.table[r].receipt.Some? && (s.table[r].phase.RECEIPT_PENDING? || s.table[r].phase.COMPLETED?)
  {
    assert Evidence(s.call.request, s.table[s.call.request]);
  }

  lemma NoReceiptYet(s: RuntimeOwner.State)
    requires Inv(s) && InClient(s.call)
    ensures var r := s.call.request; r in s.table && s.table[r].phase.INTENT? ==> s.table[r].receipt.None?
  {
    var r := s.call.request;
    if r in s.table {
      assert Evidence(r, s.table[r]);
    }
  }

  lemma IntentHasNoReceipt(s: RuntimeOwner.State, r: string)
    requires Inv(s) && r in s.table
    ensures s.table[r].phase.INTENT? ==> s.table[r].receipt.None?
  {
    assert Evidence(r, s.table[r]);
  }

  lemma ReconcileOnRecord(s: RuntimeOwner.State, caller: nat)
    requires Inv(s) && caller in s.reconciles && s.reconciles[caller].Committed?
    ensures var r := s.reconciles[caller].request;
            r in s.table && s.table[r].receipt.Some? && (s.table[r].phase.RECEIPT_PENDING? || s.table[r].phase.COMPLETED?)
  {
    assert ReconcileInv(s, s.reconciles[caller]);
    assert Evidence(s.reconciles[caller].request, s.table[s.reconciles[caller].request]);
  }
}
