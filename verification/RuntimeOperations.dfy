/** The package-runtime operations table of the Product store.  Each function is one transaction. */
module RuntimeOperations {
  import opened Options
  import opened ConnectionRef

  const PACKAGE_ID := "cyrene.serving.vllm-runtime"
  const SOURCE_ID := "cyrene-reactor"
  const ACTIVATE := "activate"
  const RECEIPT_PROTOCOL := "cyrene.runtime-maintenance.binding-operations.v1"

  datatype Scope = Scope(binding: string, package: string, installation: string, operation: string)

  datatype RuntimeStatus = RuntimeStatus(binding: string, installation: string, state: string, connectionRef: string)

  datatype Receipt = Receipt(
    requestId: string,
    sourceId: string,
    scope: Scope,
    token: string,
    inFlight: bool,
    completed: bool,
    catalogGeneration: int,
    gateGeneration: int,
    protocol: string)

  datatype OperationPhase = INTENT | UNKNOWN | RECEIPT_PENDING | COMPLETED

  datatype Operation = Operation(
    scope: Scope,
    phase: OperationPhase,
    status: Option<RuntimeStatus>,
    receipt: Option<Receipt>)

  /** The table, by request id. */
  type Operations = map<string, Operation>

  /** A transaction either fails, with the table unchanged, or leaves a new table. */
  datatype Attempt = Rejected | Written(table: Operations)

  predicate Unfinished(op: Operation) {
    !op.phase.COMPLETED?
  }

  predicate BindingPending(t: Operations, binding: string) {
    exists r | r in t :: t[r].scope.binding == binding && Unfinished(t[r])
  }

  function CreateIntent(t: Operations, request: string, scope: Scope): Attempt {
    if request in t then
      if t[request].scope == scope then Written(t) else Rejected
    else if BindingPending(t, scope.binding) then Rejected
    else Written(t[request := Operation(scope, INTENT, None, None)])
  }

  /** An update that matches no row changes nothing. */
  function MarkUnknown(t: Operations, request: string): Operations {
    if request in t && t[request].phase.INTENT? && t[request].receipt.None? then
      t[request := t[request].(phase := UNKNOWN)]
    else t
  }

  function PersistReceipt(t: Operations, request: string, receipt: Receipt): Attempt {
    if request in t && (t[request].phase.INTENT? || t[request].phase.UNKNOWN?) && t[request].receipt.None? then
      Written(t[request := t[request].(phase := RECEIPT_PENDING, receipt := Some(receipt))])
    else Rejected
  }

  function CommitOutcome(t: Operations, request: string, status: RuntimeStatus, receipt: Receipt): Attempt {
    if request in t && Unfinished(t[request]) then
      Written(t[request := t[request].(phase := RECEIPT_PENDING, status := Some(status), receipt := Some(receipt))])
    else Rejected
  }

  function Complete(t: Operations, request: string): Attempt {
    if request in t && t[request].phase.RECEIPT_PENDING? && t[request].receipt.Some? then
      Written(t[request := t[request].(phase := COMPLETED)])
    else Rejected
  }

  // ----- the owner's checks

  function ActivationScope(binding: string, installation: string): Scope {
    Scope(binding, PACKAGE_ID, installation, ACTIVATE)
  }

  /** `_validate_actual`. */
  predicate ActualState(status: RuntimeStatus, binding: string, installation: string) {
    && status.binding == binding
    && status.installation == installation
    && status.state == "RUNNING"
    && ControlUrl(status.connectionRef).Some?
  }

  /** `_pending_receipt_document`: which receipts carried by an error are accepted. */
  predicate PendingReceipt(receipt: Receipt, request: string, binding: string, installation: string) {
    && receipt.requestId == request
    && receipt.sourceId == SOURCE_ID
    && receipt.scope == ActivationScope(binding, installation)
    && receipt.token != ""
    && !receipt.completed
    && receipt.catalogGeneration > 0
    && receipt.gateGeneration > 0
    && receipt.protocol == RECEIPT_PROTOCOL
  }

  // ----- what the table keeps

  ghost predicate Evidence(r: string, op: Operation) {
    && op.scope == ActivationScope(op.scope.binding, op.scope.installation)
    && (op.receipt.Some? <==> op.phase.RECEIPT_PENDING? || op.phase.COMPLETED?)
    && (op.status.Some? ==> op.receipt.Some? && ActualState(op.status.value, op.scope.binding, op.scope.installation))
    && (op.receipt.Some? && op.status.None? ==> PendingReceipt(op.receipt.value, r, op.scope.binding, op.scope.installation))
    && (op.phase.COMPLETED? ==> op.status.Some?)
  }

  ghost predicate TableInv(t: Operations) {
    && (forall r | r in t :: Evidence(r, t[r]))
    && (forall r, q | r in t && q in t && r != q && t[r].scope.binding == t[q].scope.binding ::
          !(Unfinished(t[r]) && Unfinished(t[q])))
  }

  function Rank(phase: OperationPhase): nat {
    match phase
    case INTENT => 0
    case UNKNOWN => 1
    case RECEIPT_PENDING => 2
    case COMPLETED => 3
  }

  /** A record's scope never changes, its phase only moves forward, evidence is never dropped, and an
      UNKNOWN record moves only when a receipt for it is stored. */
  ghost predicate Forward(t: Operations, t': Operations) {
    forall r | r in t ::
      && r in t'
      && t'[r].scope == t[r].scope
      && Rank(t[r].phase) <= Rank(t'[r].phase)
      && (t[r].receipt.Some? ==> t'[r].receipt.Some?)
      && (t[r].status.Some? ==> t'[r].status.Some?)
      && (t[r].phase.COMPLETED? ==> t'[r] == t[r])
  }

  lemma IntentKeeps(t: Operations, request: string, binding: string, installation: string)
    requires TableInv(t)
    ensures var a := CreateIntent(t, request, ActivationScope(binding, installation));
            a.Written? ==> TableInv(a.table) && Forward(t, a.table)
  {
    hide ActualState, PendingReceipt;
  }

  lemma UnknownKeeps(t: Operations, request: string)
    requires TableInv(t)
    ensures TableInv(MarkUnknown(t, request)) && Forward(t, MarkUnknown(t, request))
  {
    hide ActualState, PendingReceipt, ActivationScope;
  }

  lemma ReceiptKeeps(t: Operations, request: string, receipt: Receipt)
    requires TableInv(t)
    requires request in t ==> PendingReceipt(receipt, request, t[request].scope.binding, t[request].scope.installation)
    ensures var a := PersistReceipt(t, request, receipt); a.Written? ==> TableInv(a.table) && Forward(t, a.table)
  {
    hide ActualState, PendingReceipt, ActivationScope;
  }

  lemma OutcomeKeeps(t: Operations, request: string, status: RuntimeStatus, receipt: Receipt)
    requires TableInv(t)
    requires request in t ==> ActualState(status, t[request].scope.binding, t[request].scope.installation)
    ensures var a := CommitOutcome(t, request, status, receipt); a.Written? ==> TableInv(a.table) && Forward(t, a.table)
  {
    hide ActualState, PendingReceipt, ActivationScope;
  }

  lemma CompleteKeeps(t: Operations, request: string)
    requires TableInv(t) && (request in t ==> t[request].status.Some?)
    ensures var a := Complete(t, request); a.Written? ==> TableInv(a.table) && Forward(t, a.table)
  {
    hide ActualState, PendingReceipt, ActivationScope;
  }
}
