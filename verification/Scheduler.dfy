/** The bounded priority queue, its submitters and its workers, as a machine whose steps are the points
    at which another thread may come between.  A submit is numbered by the order of its stop check. */
module Scheduler {
  /** Tasks compare by priority and then by creation time; the sequence number does not take part. */
  datatype Task = Task(priority: int, createdAt: int, sequence: nat)

  predicate Before(a: Task, b: Task) {
    a.priority < b.priority || (a.priority == b.priority && a.createdAt < b.createdAt)
  }

  datatype Future = Pending | Running | Resolved | Cancelled | Notified

  /** One call of `submit`: refused by the stop flag, between its check and its put, turned away by a
      full queue, or accepted. */
  datatype Call = Refused | Passed | Numbered(sequence: nat) | Busy | Accepted(task: Task, future: Future)

  datatype Worker =
    | Looping | Getting | Took(id: nat) | Executing(id: nat)
    | Draining | DrainGet | DrainTook(id: nat)
    | Exited | Died(id: nat)

  /** `started`, `resolved` and `late` record whose function was called, whose future was given a result
      or an exception, and which workers called a function after the stop. */
  datatype State = State(
    stop: bool,
    sequence: nat,
    calls: seq<Call>,
    queue: set<nat>,
    workers: seq<Worker>,
    started: seq<nat>,
    resolved: seq<nat>,
    late: seq<nat>)

  function Initial(maxWorkers: nat): State {
    State(false, 0, [], {}, seq(maxWorkers, _ => Looping), [], [], [])
  }

  datatype Step =
    | Submit
    | Number(id: nat)
    | Put(id: nat, priority: int, createdAt: int)
    | PutFull(id: nat)
    | Cancel(id: nat)
    | Stop
    | LoopCheck(w: nat)
    | Get(w: nat, id: nat)
    | GetEmpty(w: nat)
    | Begin(w: nat)
    | Finish(w: nat)
    | Die(w: nat)
    | DrainCheck(w: nat)
    | DrainTake(w: nat, id: nat)
    | DrainFail(w: nat)

  /** A queue size of zero means no bound. */
  predicate Full(s: State, size: nat) {
    size > 0 && |s.queue| >= size
  }

  predicate IsAccepted(s: State, id: nat) {
    id < |s.calls| && s.calls[id].Accepted?
  }

  predicate First(s: State, id: nat) {
    && id in s.queue && IsAccepted(s, id)
    && forall k | k in s.queue :: IsAccepted(s, k) ==> !Before(s.calls[k].task, s.calls[id].task)
  }

  predicate IsWorker(s: State, step: Step) {
    match step
    case Submit | Number(_) | Put(_, _, _) | PutFull(_) | Cancel(_) | Stop => false
    case _ => true
  }

  predicate CallEnabled(size: nat, s: State, step: Step)
    requires !IsWorker(s, step)
  {
    match step
    case Submit | Stop => true
    case Number(id) => id < |s.calls| && s.calls[id].Passed?
    case Put(id, _, _) => id < |s.calls| && s.calls[id].Numbered? && !Full(s, size)
    case PutFull(id) => id < |s.calls| && s.calls[id].Numbered? && Full(s, size)
    case Cancel(id) => IsAccepted(s, id) && s.calls[id].future.Pending?
  }

  predicate WorkerEnabled(s: State, step: Step)
    requires IsWorker(s, step)
  {
    && step.w < |s.workers|
    && var worker := s.workers[step.w];
       match step
       case LoopCheck(_) => worker.Looping?
       case Get(_, id) => worker.Getting? && First(s, id)
       case GetEmpty(_) => worker.Getting? && s.queue == {}
       case Begin(_) => worker.Took? && IsAccepted(s, worker.id)
       case Finish(_) => worker.Executing? && IsAccepted(s, worker.id)
       case Die(_) => worker.Executing?
       case DrainCheck(_) => worker.Draining?
       case DrainTake(_, id) => worker.DrainGet? && First(s, id)
       case DrainFail(_) => worker.DrainTook? && IsAccepted(s, worker.id)
  }

  predicate Enabled(size: nat, s: State, step: Step) {
    if IsWorker(s, step) then WorkerEnabled(s, step) else CallEnabled(size, s, step)
  }

  function WithFuture(s: State, id: nat, future: Future): State
    requires IsAccepted(s, id)
  {
    s.(calls := s.calls[id := s.calls[id].(future := future)])
  }

  function Moved(s: State, w: nat, worker: Worker): State
    requires w < |s.workers|
  {
    s.(workers := s.workers[w := worker])
  }

  function ApplyCall(size: nat, s: State, step: Step): State
    requires !IsWorker(s, step) && CallEnabled(size, s, step)
  {
    match step
    case Submit => s.(calls := s.calls + [if s.stop then Refused else Passed])
    case Number(id) => s.(sequence := s.sequence + 1, calls := s.calls[id := Numbered(s.sequence + 1)])
    case Put(id, priority, createdAt) =>
      var task := Task(priority, createdAt, s.calls[id].sequence);
      s.(calls := s.calls[id := Accepted(task, Pending)], queue := s.queue + {id})
    case PutFull(id) => s.(calls := s.calls[id := Busy])
    case Cancel(id) => WithFuture(s, id, Cancelled)
    case Stop => s.(stop := true)
  }

  /** `set_running_or_notify_cancel` lets a pending task run and skips a cancelled one. */
  function ApplyWorker(s: State, step: Step): State
    requires IsWorker(s, step) && WorkerEnabled(s, step)
  {
    var worker := s.workers[step.w];
    match step
    case LoopCheck(w) => Moved(s, w, if s.stop then Draining else Getting)
    case Get(w, id) => Moved(s, w, Took(id)).(queue := s.queue - {id})
    case GetEmpty(w) => Moved(s, w, Looping)
    case Begin(w) =>
      if s.calls[worker.id].future.Cancelled? then Moved(WithFuture(s, worker.id, Notified), w, Looping)
      else
        Moved(WithFuture(s, worker.id, Running), w, Executing(worker.id))
        .(started := s.started + [worker.id], late := if s.stop then s.late + [w] else s.late)
    case Finish(w) =>
      Moved(WithFuture(s, worker.id, Resolved), w, Looping).(resolved := s.resolved + [worker.id])
    case Die(w) => Moved(s, w, Died(worker.id))
    case DrainCheck(w) => Moved(s, w, if s.queue == {} then Exited else DrainGet)
    case DrainTake(w, id) => Moved(s, w, DrainTook(id)).(queue := s.queue - {id})
    case DrainFail(w) =>
      if s.calls[worker.id].future.Cancelled? then Moved(WithFuture(s, worker.id, Notified), w, Draining)
      else Moved(WithFuture(s, worker.id, Resolved), w, Draining).(resolved := s.resolved + [worker.id])
  }

  function Apply(size: nat, s: State, step: Step): State
    requires Enabled(size, s, step)
  {
    if IsWorker(s, step) then ApplyWorker(s, step) else ApplyCall(size, s, step)
  }

  ghost predicate Legal(size: nat, s: State, run: seq<Step>)
    decreases |run|
  {
    run == [] || (Enabled(size, s, run[0]) && Legal(size, Apply(size, s, run[0]), run[1..]))
  }

  ghost function Exec(size: nat, s: State, run: seq<Step>): State
    requires Legal(size, s, run)
    decreases |run|
  {
    if run == [] then s else Exec(size, Apply(size, s, run[0]), run[1..])
  }

  // ----- invariant

  predicate Holds(worker: Worker, id: nat) {
    (worker.Took? || worker.DrainTook? || worker.Executing? || worker.Died?) && worker.id == id
  }

  /** A worker that has taken a task but not yet asked whether it may run. */
  predicate Fetched(worker: Worker) {
    worker.Took? || worker.DrainTook?
  }

  predicate Waiting(future: Future) {
    future.Pending? || future.Cancelled?
  }

  ghost predicate Bounded(size: nat, s: State) {
    size > 0 ==> |s.queue| <= size
  }

  ghost predicate QueuedWait(s: State) {
    forall id: nat | id in s.queue :: IsAccepted(s, id) && Waiting(s.calls[id].future)
  }

  ghost predicate HeldFit(s: State) {
    forall w, id: nat | 0 <= w < |s.workers| && Holds(s.workers[w], id) ::
      && id !in s.queue && IsAccepted(s, id)
      && if Fetched(s.workers[w]) then Waiting(s.calls[id].future) else s.calls[id].future.Running?
  }

  ghost predicate HeldOnce(s: State) {
    forall v, w, id: nat | 0 <= v < |s.workers| && 0 <= w < |s.workers| && Holds(s.workers[v], id) && Holds(s.workers[w], id) ::
      v == w
  }

  ghost predicate HeldBySome(s: State, id: nat) {
    exists w | 0 <= w < |s.workers| :: Holds(s.workers[w], id)
  }

  ghost predicate AllAccounted(s: State) {
    forall id: nat | IsAccepted(s, id) && !s.calls[id].future.Resolved? && !s.calls[id].future.Notified? ::
      id in s.queue || HeldBySome(s, id)
  }

  ghost predicate Distinct(ids: seq<nat>) {
    forall i, j | 0 <= i < j < |ids| :: ids[i] != ids[j]
  }

  ghost predicate Recorded(s: State) {
    && Distinct(s.started) && Distinct(s.resolved)
    && (forall id | id in s.started :: IsAccepted(s, id) && (s.calls[id].future.Running? || s.calls[id].future.Resolved?))
    && (forall id | id in s.resolved :: IsAccepted(s, id) && s.calls[id].future.Resolved?)
    && (forall id: nat | IsAccepted(s, id) && s.calls[id].future.Resolved? :: id in s.resolved)
  }

  ghost predicate LateOnce(s: State) {
    && (!s.stop ==> s.late == [])
    && Distinct(s.late)
    && forall w | w in s.late :: w < |s.workers| && !s.workers[w].Getting? && !s.workers[w].Took?
  }

  ghost predicate DrainsAfterStop(s: State) {
    forall w | 0 <= w < |s.workers| ::
      s.workers[w].Draining? || s.workers[w].DrainGet? || s.workers[w].DrainTook? || s.workers[w].Exited? ==> s.stop
  }

  ghost predicate Inv(size: nat, s: State) {
    && Bounded(size, s) && QueuedWait(s) && HeldFit(s) && HeldOnce(s) && AllAccounted(s)
    && Recorded(s) && LateOnce(s) && DrainsAfterStop(s)
  }

  lemma InitialInv(size: nat, maxWorkers: nat)
    ensures Inv(size, Initial(maxWorkers))
  {
  }

  // ----- every step keeps it

  /** Calls that have not been accepted may move, a pending future may be cancelled, the stop may be set. */
  ghost predicate CallsMoved(s: State, s': State) {
    && s'.queue == s.queue && s'.workers == s.workers && (s.stop ==> s'.stop)
    && s'.started == s.started && s'.resolved == s.resolved && s'.late == s.late
    && (forall id: nat :: IsAccepted(s', id) <==> IsAccepted(s, id))
    && (forall id: nat | IsAccepted(s, id) ::
          s'.calls[id].future == s.calls[id].future || (s.calls[id].future.Pending? && s'.calls[id].future.Cancelled?))
  }

  lemma CallsMovedKeep(size: nat, s: State, s': State)
    requires Inv(size, s) && CallsMoved(s, s')
    ensures Inv(size, s')
  {
    hide Distinct;
    assert AllAccounted(s') by {
      forall id: nat | IsAccepted(s', id) && !s'.calls[id].future.Resolved? && !s'.calls[id].future.Notified?
        ensures id in s'.queue || HeldBySome(s', id)
      {
        assert id in s.queue || HeldBySome(s, id);
      }
    }
  }

  lemma CallStepMoves(size: nat, s: State, step: Step)
    requires !IsWorker(s, step) && CallEnabled(size, s, step) && !step.Put?
    ensures CallsMoved(s, ApplyCall(size, s, step))
  {
  }

  lemma PutKeeps(size: nat, s: State, id: nat, task: Task)
    requires Inv(size, s) && id < |s.calls| && s.calls[id].Numbered? && !Full(s, size)
    ensures Inv(size, s.(calls := s.calls[id := Accepted(task, Pending)], queue := s.queue + {id}))
  {
    var s' := s.(calls := s.calls[id := Accepted(task, Pending)], queue := s.queue + {id});
    hide Distinct;
    assert id !in s.queue;
    assert |s'.queue| == |s.queue| + 1;
    assert forall k: nat :: IsAccepted(s', k) <==> IsAccepted(s, k) || k == id;
    assert forall k: nat | IsAccepted(s, k) :: s'.calls[k] == s.calls[k];
    assert HeldFit(s') && HeldOnce(s') && Recorded(s') && LateOnce(s') && QueuedWait(s');
    assert AllAccounted(s') by {
      hide Recorded, HeldFit, HeldOnce, QueuedWait;
      forall k: nat | HeldBySome(s, k) ensures HeldBySome(s', k) {}
    }
  }

  /** Worker `w` moves and nothing else does; it holds what it held. */
  lemma WorkerMovedKeeps(size: nat, s: State, w: nat, worker: Worker)
    requires Inv(size, s) && w < |s.workers|
    requires forall id: nat :: Holds(worker, id) <==> Holds(s.workers[w], id)
    requires Fetched(worker) <==> Fetched(s.workers[w])
    requires worker.Getting? || worker.Took? ==> !s.stop
    requires worker.Draining? || worker.DrainGet? || worker.DrainTook? || worker.Exited? ==> s.stop
    ensures Inv(size, Moved(s, w, worker))
  {
    var s' := Moved(s, w, worker);
    hide Distinct;
    assert forall k: nat :: IsAccepted(s', k) <==> IsAccepted(s, k);
    assert HeldFit(s') && HeldOnce(s') && Recorded(s') && LateOnce(s');
    assert AllAccounted(s') by {
      hide Recorded, HeldFit, HeldOnce, QueuedWait;
      forall k: nat | HeldBySome(s, k) ensures HeldBySome(s', k) {
        var v :| 0 <= v < |s.workers| && Holds(s.workers[v], k);
        assert Holds(s'.workers[v], k);
      }
    }
  }

  /** A worker's step on what it holds changes that one future only; what is settled is let go. */
  ghost predicate WorkerActs(s: State, s': State, w: nat, id: nat) {
    && w < |s.workers| && Holds(s.workers[w], id) && IsAccepted(s, id)
    && |s'.workers| == |s.workers| && |s'.calls| == |s.calls|
    && (forall v | 0 <= v < |s.workers| && v != w :: s'.workers[v] == s.workers[v])
    && (forall k: nat | k < |s.calls| && k != id :: s'.calls[k] == s.calls[k])
    && s'.queue == s.queue && s'.stop == s.stop && IsAccepted(s', id)
    && var future := s'.calls[id].future;
       if future.Running? then s'.workers[w] == Executing(id)
       else (s'.workers[w].Looping? || (s'.workers[w].Draining? && s.stop)) && (future.Resolved? || future.Notified?)
  }

  lemma ActsHeld(size: nat, s: State, s': State, w: nat, id: nat)
    requires Inv(size, s) && WorkerActs(s, s', w, id)
    ensures HeldFit(s') && HeldOnce(s') && QueuedWait(s')
  {
    hide Recorded, LateOnce, AllAccounted, Distinct;
    forall v, k: nat | 0 <= v < |s'.workers| && Holds(s'.workers[v], k)
      ensures Holds(s.workers[v], k) && (v == w <==> k == id)
    {
    }
    assert id !in s.queue;
    assert forall k: nat | IsAccepted(s, k) && k != id :: IsAccepted(s', k) && s'.calls[k] == s.calls[k];
    forall v, k: nat | 0 <= v < |s'.workers| && Holds(s'.workers[v], k)
      ensures k !in s'.queue && IsAccepted(s', k)
      ensures if Fetched(s'.workers[v]) then Waiting(s'.calls[k].future) else s'.calls[k].future.Running?
    {
      assert Holds(s.workers[v], k);
      if v != w {
        assert s'.workers[v] == s.workers[v];
      }
    }
  }

  lemma ActsAccounted(size: nat, s: State, s': State, w: nat, id: nat)
    requires Inv(size, s) && WorkerActs(s, s', w, id)
    ensures AllAccounted(s')
  {
    hide Recorded, LateOnce, Distinct, QueuedWait, HeldFit;
    forall k: nat | IsAccepted(s', k) && !s'.calls[k].future.Resolved? && !s'.calls[k].future.Notified?
      ensures k in s'.queue || HeldBySome(s', k)
    {
      if k == id {
        assert Holds(s'.workers[w], k);
      } else if k !in s.queue {
        assert HeldBySome(s, k);
        var v :| 0 <= v < |s.workers| && Holds(s.workers[v], k);
        assert v != w && Holds(s'.workers[v], k);
      }
    }
  }

  lemma DistinctMore(ids: seq<nat>, id: nat)
    requires Distinct(ids) && id !in ids
    ensures Distinct(ids + [id])
  {
  }

  lemma StartKeeps(size: nat, s: State, w: nat, id: nat)
    requires Inv(size, s) && w < |s.workers| && s.workers[w] == Took(id) && IsAccepted(s, id)
    requires !s.calls[id].future.Cancelled?
    ensures Inv(size, ApplyWorker(s, Begin(w)))
  {
    var s' := ApplyWorker(s, Begin(w));
    assert s.calls[id].future.Pending? && id !in s.started;
    DistinctMore(s.started, id);
    if s.stop {
      assert w !in s.late;
      DistinctMore(s.late, w);
    }
    ActsHeld(size, s, s', w, id);
    ActsAccounted(size, s, s', w, id);
    hide Distinct, HeldFit, HeldOnce, AllAccounted, QueuedWait;
    assert Recorded(s') && LateOnce(s');
  }

  lemma SettleKeeps(size: nat, s: State, s': State, w: nat, id: nat)
    requires Inv(size, s) && WorkerActs(s, s', w, id)
    requires !s'.calls[id].future.Running? && s'.started == s.started && s'.late == s.late
    requires Fetched(s.workers[w]) ==> id !in s.started
    requires s'.resolved == if s'.calls[id].future.Resolved? then s.resolved + [id] else s.resolved
    requires !Fetched(s.workers[w]) ==> s'.calls[id].future.Resolved?
    ensures Inv(size, s')
  {
    assert id !in s.resolved;
    DistinctMore(s.resolved, id);
    ActsHeld(size, s, s', w, id);
    ActsAccounted(size, s, s', w, id);
    hide Distinct, HeldFit, HeldOnce, AllAccounted, QueuedWait;
    assert Recorded(s') && LateOnce(s');
  }

  lemma FetchedNotStarted(size: nat, s: State, w: nat, id: nat)
    requires Inv(size, s) && w < |s.workers| && Holds(s.workers[w], id)
    ensures IsAccepted(s, id)
    ensures Fetched(s.workers[w]) ==> id !in s.started && Waiting(s.calls[id].future)
    ensures !Fetched(s.workers[w]) ==> s.calls[id].future.Running?
  {
  }

  lemma HoldingStepKeeps(size: nat, s: State, step: Step)
    requires Inv(size, s) && (step.Begin? || step.Finish? || step.DrainFail?) && WorkerEnabled(s, step)
    ensures Inv(size, ApplyWorker(s, step))
  {
    var w, id := step.w, s.workers[step.w].id;
    FetchedNotStarted(size, s, w, id);
    if step.Begin? && !s.calls[id].future.Cancelled? {
      StartKeeps(size, s, w, id);
    } else {
      assert s.workers[w].DrainTook? ==> s.stop;
      hide Inv, Distinct;
      SettleKeeps(size, s, ApplyWorker(s, step), w, id);
    }
  }

  lemma TakeKeeps(size: nat, s: State, w: nat, id: nat, worker: Worker)
    requires Inv(size, s) && w < |s.workers| && First(s, id)
    requires (s.workers[w].Getting? && worker == Took(id)) || (s.workers[w].DrainGet? && worker == DrainTook(id))
    ensures Inv(size, Moved(s, w, worker).(queue := s.queue - {id}))
  {
    var s' := Moved(s, w, worker).(queue := s.queue - {id});
    hide Distinct;
    assert |s'.queue| == |s.queue| - 1;
    assert forall k: nat :: IsAccepted(s', k) <==> IsAccepted(s, k);
    assert HeldFit(s') && HeldOnce(s') && Recorded(s') && LateOnce(s');
    assert AllAccounted(s') by {
      hide Recorded, HeldFit, HeldOnce, QueuedWait;
      assert Holds(s'.workers[w], id);
      forall k: nat | HeldBySome(s, k) ensures HeldBySome(s', k) {
        var v :| 0 <= v < |s.workers| && Holds(s.workers[v], k);
        assert Holds(s'.workers[v], k);
      }
    }
  }

  lemma WorkerStepKeeps(size: nat, s: State, step: Step)
    requires Inv(size, s) && IsWorker(s, step) && WorkerEnabled(s, step)
    ensures Inv(size, ApplyWorker(s, step))
  {
    if step.Begin? || step.Finish? || step.DrainFail? {
      HoldingStepKeeps(size, s, step);
    } else if step.Get? || step.DrainTake? {
      var worker := if step.Get? then Took(step.id) else DrainTook(step.id);
      TakeKeeps(size, s, step.w, step.id, worker);
    } else {
      if step.DrainCheck? {
        DrainStopped(size, s, step.w);
      }
      hide Inv;
      WorkerMovedKeeps(size, s, step.w, ApplyWorker(s, step).workers[step.w]);
    }
  }

  lemma DrainStopped(size: nat, s: State, w: nat)
    requires Inv(size, s) && w < |s.workers| && s.workers[w].Draining?
    ensures s.stop
  {
  }

  lemma StepKeeps(size: nat, s: State, step: Step)
    requires Inv(size, s) && Enabled(size, s, step)
    ensures Inv(size, Apply(size, s, step))
  {
    hide Inv;
    if IsWorker(s, step) {
      hide ApplyWorker, WorkerEnabled;
      WorkerStepKeeps(size, s, step);
    } else if step.Put? {
      PutKeeps(size, s, step.id, Task(step.priority, step.createdAt, s.calls[step.id].sequence));
    } else {
      CallStepMoves(size, s, step);
      CallsMovedKeep(size, s, ApplyCall(size, s, step));
    }
  }

  lemma {:induction false} RunKeeps(size: nat, s: State, run: seq<Step>)
    requires Inv(size, s) && Legal(size, s, run)
    ensures Inv(size, Exec(size, s, run))
    decreases |run|
  {
    if run != [] {
      StepKeeps(size, s, run[0]);
      hide Inv, Apply, Enabled;
      RunKeeps(size, Apply(size, s, run[0]), run[1..]);
    }
  }
}
