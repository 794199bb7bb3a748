/** The scheduler object: `submit`, one turn of a worker and the drain, each as one thread runs it when no
    other comes between.  Every method leaves the object in a state that the machine reaches by steps of
    that thread. */
module SchedulerObject {
  import opened Scheduler
  import opened SchedulerTheorems

  datatype Answer = AlreadyShutdown | QueueFull | Queued(id: nat)

  /** The steps that a method has taken since it began. */
  ghost predicate Reached(size: nat, start: State, run: seq<Step>, s: State) {
    Legal(size, start, run) && Exec(size, start, run) == s
  }

  lemma Step1(size: nat, start: State, run: seq<Step>, s: State, step: Step)
    requires Reached(size, start, run, s) && Enabled(size, s, step)
    ensures Reached(size, start, run + [step], Apply(size, s, step))
  {
    hide Apply, Enabled, Legal, Exec;
    Extended(size, start, run, step);
  }

  /** A queue with something in it has a first task. */
  lemma {:induction false} FirstExists(s: State, among: set<nat>) returns (id: nat)
    requires among != {} && forall k | k in among :: IsAccepted(s, k)
    ensures id in among && IsAccepted(s, id)
    ensures forall k | k in among :: IsAccepted(s, k) && !Before(s.calls[k].task, s.calls[id].task)
    decreases |among|
  {
    var one :| one in among;
    assert IsAccepted(s, one);
    var rest := among - {one};
    id := one;
    if rest != {} {
      var other := FirstExists(s, rest);
      if Before(s.calls[other].task, s.calls[one].task) {
        id := other;
      }
    }
    assert forall k | k in among :: k == one || k in rest;
  }

  predicate Settled(calls: seq<Call>, id: nat) {
    id < |calls| && calls[id].Accepted? && (calls[id].future.Resolved? || calls[id].future.Notified?)
  }

  class TaskScheduler {
    const queueSize: nat
    const maxWorkers: nat
    var stop: bool
    var sequence: nat
    var calls: seq<Call>
    var queue: set<nat>

    constructor (maxWorkers: nat, queueSize: nat)
      ensures this.maxWorkers == maxWorkers && this.queueSize == queueSize && Shows(Initial(maxWorkers))
    {
      this.maxWorkers, this.queueSize := maxWorkers, queueSize;
      stop, sequence, calls, queue := false, 0, [], {};
    }

    ghost predicate Shows(s: State)
      reads this
    {
      s.stop == stop && s.sequence == sequence && s.calls == calls && s.queue == queue
    }

    method Submit(priority: int, now: int, ghost s: State) returns (answer: Answer, ghost run: seq<Step>, ghost s': State)
      requires Shows(s)
      modifies this
      ensures Shows(s') && Reached(queueSize, s, run, s') && s'.workers == s.workers
      ensures answer.AlreadyShutdown? <==> old(stop)
      ensures answer.QueueFull? <==> !old(stop) && queueSize > 0 && |old(queue)| >= queueSize
      ensures if answer.Queued?
        then queue == old(queue) + {answer.id} && answer.id == |old(calls)|
             && calls == old(calls) + [Accepted(Task(priority, now, sequence), Pending)]
        else queue == old(queue)
    {
      var id := |calls|;
      run, s' := [], s;
      Step1(queueSize, s, run, s', Step.Submit);
      run, s' := run + [Step.Submit], Apply(queueSize, s', Step.Submit);
      if stop {
        calls := calls + [Refused];
        return AlreadyShutdown, run, s';
      }
      calls := calls + [Passed];
      Step1(queueSize, s, run, s', Number(id));
      run, s' := run + [Number(id)], Apply(queueSize, s', Number(id));
      sequence := sequence + 1;
      calls := calls[id := Numbered(sequence)];
      hide Legal, Exec;
      if queueSize > 0 && |queue| >= queueSize {
        Step1(queueSize, s, run, s', PutFull(id));
        run, s' := run + [PutFull(id)], Apply(queueSize, s', PutFull(id));
        calls := calls[id := Busy];
        return QueueFull, run, s';
      }
      Step1(queueSize, s, run, s', Put(id, priority, now));
      run, s' := run + [Put(id, priority, now)], Apply(queueSize, s', Put(id, priority, now));
      calls := calls[id := Accepted(Task(priority, now, sequence), Pending)];
      queue := queue + {id};
      return Queued(id), run, s';
    }

    /** `PriorityQueue.get`: some first task of a queue that is not empty. */
    method Pop(ghost s: State) returns (id: nat)
      requires Shows(s) && queue != {} && forall k | k in queue :: IsAccepted(s, k)
      modifies this`queue
      ensures First(s, id) && queue == old(queue) - {id}
    {
      ghost var first := FirstExists(s, queue);
      id :| id in queue && forall k | k in queue :: !Before(calls[k].task, calls[id].task);
      queue := queue - {id};
    }

    /** The drain of a worker whom no other disturbs: it empties the queue and settles every future in it,
        the cancelled ones as notified and the others with the stop error. */
    method Drain(w: nat, ghost s: State) returns (ghost run: seq<Step>, ghost s': State)
      requires Shows(s) && Inv(queueSize, s) && w < |s.workers| && s.workers[w].Draining?
      modifies this`queue, this`calls
      ensures Shows(s') && Reached(queueSize, s, run, s') && Inv(queueSize, s')
      ensures queue == {} && w < |s'.workers| && s'.workers[w].Exited?
      ensures |calls| == |old(calls)|
      ensures forall k | k in old(queue) :: Settled(calls, k)
    {
      run, s' := [], s;
      while queue != {}
        invariant Shows(s') && Reached(queueSize, s, run, s') && Inv(queueSize, s')
        invariant w < |s'.workers| && s'.workers[w].Draining? && |calls| == |old(calls)| && queue <= old(queue)
        invariant forall k | k in old(queue) :: k in queue || Settled(calls, k)
        decreases queue
      {
        run, s' := DrainOne(w, s, run, s');
      }
      Step1(queueSize, s, run, s', DrainCheck(w));
      StepKeeps(queueSize, s', DrainCheck(w));
      run, s' := run + [DrainCheck(w)], Apply(queueSize, s', DrainCheck(w));
    }

    method DrainOne(w: nat, ghost start: State, ghost before: seq<Step>, ghost s: State)
      returns (ghost run: seq<Step>, ghost s': State)
      requires Shows(s) && Inv(queueSize, s) && Reached(queueSize, start, before, s)
      requires w < |s.workers| && s.workers[w].Draining? && queue != {}
      modifies this`queue, this`calls
      ensures Shows(s') && Reached(queueSize, start, run, s') && Inv(queueSize, s')
      ensures w < |s'.workers| && s'.workers[w].Draining? && |calls| == |old(calls)|
      ensures queue < old(queue)
      ensures forall k: nat | k < |calls| :: if k in old(queue) && k !in queue then Settled(calls, k) else calls[k] == old(calls)[k]
    {
      assert forall k | k in queue :: IsAccepted(s, k);
      ghost var s1 := Apply(queueSize, s, DrainCheck(w));
      hide Inv, Reached, Apply;
      assert Shows(s1) by { Checked(queueSize, s, w); }
      var id := Pop(s1);
      run, s' := DrainSteps(queueSize, start, before, s, w, id);
      calls := calls[id := calls[id].(future := if calls[id].future.Cancelled? then Notified else Resolved)];
    }
  }

  lemma Checked(size: nat, s: State, w: nat)
    requires w < |s.workers| && s.workers[w].Draining? && s.queue != {}
    ensures Enabled(size, s, DrainCheck(w)) && Apply(size, s, DrainCheck(w)) == Moved(s, w, DrainGet)
  {
  }

  /** The three steps of one turn of the drain. */
  lemma DrainSteps(size: nat, start: State, before: seq<Step>, s: State, w: nat, id: nat)
    returns (run: seq<Step>, s': State)
    requires Inv(size, s) && Reached(size, start, before, s)
    requires w < |s.workers| && s.workers[w].Draining? && s.queue != {} && First(s, id)
    ensures Reached(size, start, run, s') && Inv(size, s')
    ensures w < |s'.workers| && s'.workers[w].Draining? && s'.stop == s.stop && s'.sequence == s.sequence
    ensures s'.queue == s.queue - {id}
    ensures s'.calls == s.calls[id := s.calls[id].(future := if s.calls[id].future.Cancelled? then Notified else Resolved)]
  {
    hide Reached, Inv;
    Checked(size, s, w);
    Step1(size, start, before, s, DrainCheck(w));
    StepKeeps(size, s, DrainCheck(w));
    var s1 := Moved(s, w, DrainGet);
    assert First(s1, id);
    Step1(size, start, before + [DrainCheck(w)], s1, DrainTake(w, id));
    StepKeeps(size, s1, DrainTake(w, id));
    var s2 := Apply(size, s1, DrainTake(w, id));
    Step1(size, start, before + [DrainCheck(w)] + [DrainTake(w, id)], s2, DrainFail(w));
    StepKeeps(size, s2, DrainFail(w));
    run, s' := before + [DrainCheck(w)] + [DrainTake(w, id)] + [DrainFail(w)], Apply(size, s2, DrainFail(w));
  }
}
