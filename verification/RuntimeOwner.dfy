/** The package-runtime owner as a step machine.

    `activate` holds the operation lock, so at most one activation is under way; `reconcile` and
    `status` take no lock and run between any of its steps, any number at a time.  A step is one store
    transaction or one event on the SDK side.  A crash loses everything but the table, and the next
    process may be configured with another binding.

    Contract of the PackageRuntime SDK: within one `activate_and_persist` it calls `persist_intent`
    first, dispatches at most one activation and only after `persist_intent` returned, calls `persist`
    only after the dispatch, and returns normally only if `persist` did; at any point it may raise
    instead, with or without a pending receipt, and a callback's own failure may reach the owner
    unchanged or wrapped.  `reconcile_binding_operation_and_persist` dispatches no activation and
    returns normally only if the reconcile callback did. */
module RuntimeOwner {
  import opened Options
  import opened RuntimeOperations

  datatype Call =
    | NoCall
    | MarkExisting(request: string)
    | Looked(request: string, installation: string)
    | Calling(request: string, installation: string)
    | Intended(request: string, installation: string)
    | Dispatched(request: string, installation: string)
    | Persisted(request: string, installation: string)
    | Returned(request: string, installation: string)
    | Failing(request: string, installation: string, carried: Option<Receipt>)
    | Handling(request: string, installation: string, carried: Option<Receipt>)

  /** A reconcile works on the record as it was when the call began. */
  datatype Reconcile = Asking(request: string, record: Operation) | Committed(request: string)

  datatype Dispatch = Dispatch(request: string, scope: Scope)

  /** `dispatches` lists the activations the SDK has sent. */
  datatype State = State(
    binding: string,
    table: Operations,
    call: Call,
    reconciles: map<nat, Reconcile>,
    marks: map<nat, string>,
    dispatches: seq<Dispatch>)

  function Initial(binding: string): State {
    State(binding, map[], NoCall, map[], map[], [])
  }

  datatype Action =
    | BeginActivate(request: string, installation: string)
    | Look
    | MarkFound
    | PersistIntent(actual: string, scope: Scope, wraps: bool)
    | SendActivation
    | PersistOutcome(status: RuntimeStatus, receipt: Receipt, wraps: bool)
    | ClientRaises(carried: Option<Receipt>)
    | ClientReturns
    | CompleteCall
    | ReadBack
    | Handle
    | BeginReconcile(caller: nat, request: string)
    | ReconcileOutcome(caller: nat, status: RuntimeStatus, installed: bool, receipt: Receipt)
    | EndReconcile(caller: nat, returned: bool)
    | BeginStatus(caller: nat, request: string)
    | EndStatus(caller: nat)
    | Crash(binding: string)

  predicate InClient(c: Call) {
    c.Calling? || c.Intended? || c.Dispatched? || c.Persisted?
  }

  predicate Enabled(s: State, a: Action) {
    match a
    case BeginActivate(_, _) => s.call.NoCall?
    case Look => s.call.Looked?
    case MarkFound => s.call.MarkExisting?
    case PersistIntent(_, _, _) => s.call.Calling?
    case SendActivation => s.call.Intended?
    case PersistOutcome(_, _, _) => s.call.Dispatched?
    case ClientRaises(_) => InClient(s.call)
    case ClientReturns => s.call.Persisted?
    case CompleteCall => s.call.Returned?
    case ReadBack => s.call.Failing?
    case Handle => s.call.Handling?
    case BeginReconcile(caller, _) => caller !in s.reconciles
    case ReconcileOutcome(caller, _, _, _) => caller in s.reconciles && s.reconciles[caller].Asking?
    case EndReconcile(caller, returned) => caller in s.reconciles && (returned ==> s.reconciles[caller].Committed?)
    case BeginStatus(caller, request) =>
      caller !in s.marks && request in s.table && s.table[request].scope.binding == s.binding && Unfinished(s.table[request])
    case EndStatus(caller) => caller in s.marks
    case Crash(_) => true
  }

  /** A callback that raises the owner's own failure: it reaches the caller as it is, or wrapped. */
  function CallbackFails(s: State, request: string, installation: string, wraps: bool): State {
    s.(call := if wraps then Failing(request, installation, None) else NoCall)
  }

  function Begun(s: State, request: string, installation: string): State {
    if request !in s.table then s.(call := Looked(request, installation))
    else
      var existing := s.table[request];
      if existing.scope == ActivationScope(s.binding, installation) && existing.phase.INTENT? && existing.receipt.None? then
        s.(call := MarkExisting(request))
      else s
  }

  function IntentPersisted(s: State, actual: string, scope: Scope, wraps: bool): State
    requires s.call.Calling?
  {
    var Calling(request, installation) := s.call;
    if actual != request || scope != ActivationScope(s.binding, installation) then
      CallbackFails(s, request, installation, wraps)
    else
      match CreateIntent(s.table, request, scope)
      case Rejected => s.(call := Failing(request, installation, None))
      case Written(table) => s.(table := table, call := Intended(request, installation))
  }

  function OutcomePersisted(s: State, status: RuntimeStatus, receipt: Receipt, wraps: bool): State
    requires s.call.Dispatched?
  {
    var Dispatched(request, installation) := s.call;
    if !ActualState(status, s.binding, installation) then CallbackFails(s, request, installation, wraps)
    else
      match CommitOutcome(s.table, request, status, receipt)
      case Rejected => s.(call := Failing(request, installation, None))
      case Written(table) => s.(table := table, call := Persisted(request, installation))
  }

  function CallCompleted(s: State): State
    requires s.call.Returned?
  {
    match Complete(s.table, s.call.request)
    case Rejected => s.(call := Failing(s.call.request, s.call.installation, None))
    case Written(table) => s.(table := table, call := NoCall)
  }

  /** The handler reads the record back and acts on it only if it is still INTENT. */
  function Reread(s: State): State
    requires s.call.Failing?
  {
    var Failing(request, installation, carried) := s.call;
    if request in s.table && s.table[request].phase.INTENT? then s.(call := Handling(request, installation, carried))
    else s.(call := NoCall)
  }

  function Handled(s: State): State
    requires s.call.Handling?
  {
    var Handling(request, installation, carried) := s.call;
    if carried.Some? && PendingReceipt(carried.value, request, s.binding, installation) then
      match PersistReceipt(s.table, request, carried.value)
      case Rejected => s.(call := NoCall)
      case Written(table) => s.(table := table, call := NoCall)
    else s.(table := MarkUnknown(s.table, request), call := NoCall)
  }

  predicate ReconcileChecks(s: State, c: Reconcile, status: RuntimeStatus, installed: bool, receipt: Receipt)
    requires c.Asking?
  {
    var installation := c.record.scope.installation;
    && receipt.requestId == c.request
    && receipt.scope == ActivationScope(s.binding, installation)
    && ActualState(status, s.binding, installation)
    && (c.record.status.Some? ==> status.connectionRef == c.record.status.value.connectionRef)
    && installed
  }

  function Reconciled(s: State, caller: nat, status: RuntimeStatus, installed: bool, receipt: Receipt): State
    requires caller in s.reconciles && s.reconciles[caller].Asking?
  {
    var c := s.reconciles[caller];
    var dropped := s.(reconciles := s.reconciles - {caller});
    if !ReconcileChecks(s, c, status, installed, receipt) then dropped
    else
      match CommitOutcome(s.table, c.request, status, receipt)
      case Rejected => dropped
      case Written(table) => s.(table := table, reconciles := s.reconciles[caller := Committed(c.request)])
  }

  function ReconcileEnded(s: State, caller: nat, returned: bool): State
    requires caller in s.reconciles
  {
    var s' := s.(reconciles := s.reconciles - {caller});
    if !returned then s'
    else
      match Complete(s.table, s.reconciles[caller].request)
      case Rejected => s'
      case Written(table) => s'.(table := table)
  }

  function Apply(s: State, a: Action): State
    requires Enabled(s, a)
  {
    match a
    case BeginActivate(request, installation) => Begun(s, request, installation)
    case Look =>
      if BindingPending(s.table, s.binding) then s.(call := NoCall)
      else s.(call := Calling(s.call.request, s.call.installation))
    case MarkFound => s.(table := MarkUnknown(s.table, s.call.request), call := NoCall)
    case PersistIntent(actual, scope, wraps) => IntentPersisted(s, actual, scope, wraps)
    case SendActivation =>
      s.(call := Dispatched(s.call.request, s.call.installation),
         dispatches := s.dispatches + [Dispatch(s.call.request, ActivationScope(s.binding, s.call.installation))])
    case PersistOutcome(status, receipt, wraps) => OutcomePersisted(s, status, receipt, wraps)
    case ClientRaises(carried) => s.(call := Failing(s.call.request, s.call.installation, carried))
    case ClientReturns => s.(call := Returned(s.call.request, s.call.installation))
    case CompleteCall => CallCompleted(s)
    case ReadBack => Reread(s)
    case Handle => Handled(s)
    case BeginReconcile(caller, request) =>
      if request in s.table && s.table[request].receipt.Some?
         && s.table[request].scope == ActivationScope(s.binding, s.table[request].scope.installation) then
        s.(reconciles := s.reconciles[caller := Asking(request, s.table[request])])
      else s
    case ReconcileOutcome(caller, status, installed, receipt) => Reconciled(s, caller, status, installed, receipt)
    case EndReconcile(caller, returned) => ReconcileEnded(s, caller, returned)
    case BeginStatus(caller, request) =>
      if s.table[request].phase.INTENT? && s.table[request].receipt.None? then s.(marks := s.marks[caller := request]) else s
    case EndStatus(caller) => s.(table := MarkUnknown(s.table, s.marks[caller]), marks := s.marks - {caller})
    case Crash(binding) => s.(binding := binding, call := NoCall, reconciles := map[], marks := map[])
  }

  ghost predicate Legal(s: State, run: seq<Action>)
    decreases |run|
  {
    run == [] || (Enabled(s, run[0]) && Legal(Apply(s, run[0]), run[1..]))
  }

  ghost function Exec(s: State, run: seq<Action>): State
    requires Legal(s, run)
    decreases |run|
  {
    if run == [] then s else Exec(Apply(s, run[0]), run[1..])
  }

  lemma {:induction false} ExecAppend(s: State, run: seq<Action>, a: Action)
    requires Legal(s, run) && Enabled(Exec(s, run), a)
    ensures Legal(s, run + [a]) && Exec(s, run + [a]) == Apply(Exec(s, run), a)
    decreases |run|
  {
    hide Apply, Enabled;
    if run == [] {
      assert (run + [a])[1..] == [];
    } else {
      assert (run + [a])[1..] == run[1..] + [a];
      ExecAppend(Apply(s, run[0]), run[1..], a);
    }
  }

  // ----- invariant

  /** What the activation under way may rely on, whatever `status` and `reconcile` did meanwhile. */
  ghost predicate CallInv(s: State) {
    match s.call
    case NoCall => true
    case MarkExisting(_) => true
    case Looked(r, _) => r !in s.table
    case Calling(r, _) => r !in s.table
    case Intended(r, i) => Owned(s, r, i) && s.table[r].receipt.None? && NotSent(s, r)
    case Dispatched(r, i) => Owned(s, r, i) && s.table[r].receipt.None?
    case Persisted(r, i) => Owned(s, r, i) && s.table[r].status.Some?
    case Returned(r, i) => Owned(s, r, i) && s.table[r].status.Some?
    case Failing(r, i, _) => r in s.table ==> Owned(s, r, i)
    case Handling(r, i, _) => Owned(s, r, i) && s.table[r].receipt.None?
  }

  ghost predicate Owned(s: State, request: string, installation: string) {
    request in s.table && s.table[request].scope == ActivationScope(s.binding, installation)
  }

  ghost predicate NotSent(s: State, request: string) {
    forall i | 0 <= i < |s.dispatches| :: s.dispatches[i].request != request
  }

  /** Each request id was sent at most once, and its exact scope is on record. */
  ghost predicate SentInv(s: State) {
    && (forall i | 0 <= i < |s.dispatches| ::
          s.dispatches[i].request in s.table && s.table[s.dispatches[i].request].scope == s.dispatches[i].scope)
    && (forall i, j | 0 <= i < j < |s.dispatches| :: s.dispatches[i].request != s.dispatches[j].request)
  }

  ghost predicate ReconcileInv(s: State, c: Reconcile) {
    && c.request in s.table
    && s.table[c.request].receipt.Some?
    && (c.Committed? ==> s.table[c.request].status.Some?)
    && (c.Asking? ==>
          && c.record.scope == s.table[c.request].scope
          && c.record.scope == ActivationScope(s.binding, c.record.scope.installation)
          && (c.record.status.Some? ==> s.table[c.request].status.Some?))
  }

  ghost predicate Inv(s: State) {
    && TableInv(s.table)
    && CallInv(s)
    && SentInv(s)
    && (forall c | c in s.reconciles :: ReconcileInv(s, s.reconciles[c]))
  }
}
