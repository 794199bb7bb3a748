/** A submit that passed its stop check before the stop: exactly when its future, or another, can be left in
    the queue after the last worker has gone. */
module SchedulerLateSubmit {
  import opened Scheduler
  import opened SchedulerTheorems

  /** The submits between their stop check and their put. */
  function InFlight(s: State): set<nat> {
    set id: nat | id < |s.calls| && (s.calls[id].Passed? || s.calls[id].Numbered?)
  }

  /** The workers that have seen a task in the drain and wait for one. */
  function AtGet(s: State): set<nat> {
    set w: nat | w < |s.workers| && s.workers[w].DrainGet?
  }

  /** Tasks there are or may still come, less those that the waiting workers will take. */
  function Surplus(s: State): int {
    |InFlight(s)| + |s.queue| - |AtGet(s)|
  }

  // ----- after the stop the surplus never grows

  lemma CallSurplus(size: nat, s: State, step: Step)
    requires s.stop && !IsWorker(s, step) && CallEnabled(size, s, step)
    ensures Surplus(ApplyCall(size, s, step)) <= Surplus(s)
  {
    var s' := ApplyCall(size, s, step);
    assert AtGet(s') == AtGet(s);
    if step.Put? || step.PutFull? {
      assert InFlight(s') == InFlight(s) - {step.id} && step.id in InFlight(s);
    } else {
      assert InFlight(s') == InFlight(s);
    }
  }

  lemma WorkerInFlight(s: State, step: Step)
    requires IsWorker(s, step) && WorkerEnabled(s, step)
    ensures InFlight(ApplyWorker(s, step)) == InFlight(s)
  {
    assert |ApplyWorker(s, step).calls| == |s.calls|;
  }

  lemma WorkerAtGet(s: State, step: Step)
    requires IsWorker(s, step) && WorkerEnabled(s, step)
    ensures var s' := ApplyWorker(s, step);
      && AtGet(s') == (if step.DrainTake? then AtGet(s) - {step.w}
                       else if step.DrainCheck? && s.queue != {} then AtGet(s) + {step.w} else AtGet(s))
      && (step.DrainTake? ==> step.w in AtGet(s)) && (step.DrainCheck? ==> step.w !in AtGet(s))
  {
    var s' := ApplyWorker(s, step);
    OneMoved(s, step);
    hide ApplyWorker;
    var w := step.w;
    if s'.workers[w].DrainGet? {
      assert AtGet(s') == AtGet(s) + {w};
    } else {
      assert AtGet(s') == AtGet(s) - {w};
    }
  }

  lemma OneMoved(s: State, step: Step)
    requires IsWorker(s, step) && WorkerEnabled(s, step)
    ensures var s' := ApplyWorker(s, step);
      && |s'.workers| == |s.workers|
      && (forall v | 0 <= v < |s.workers| && v != step.w :: s'.workers[v] == s.workers[v])
      && (s'.workers[step.w].DrainGet? <==> step.DrainCheck? && s.queue != {})
  {
  }

  lemma WorkerQueue(s: State, step: Step)
    requires IsWorker(s, step) && WorkerEnabled(s, step)
    ensures var s' := ApplyWorker(s, step);
      && s'.queue <= s.queue && s'.stop == s.stop
      && |s'.queue| == if step.Get? || step.DrainTake? then |s.queue| - 1 else |s.queue|
  {
  }

  lemma WorkerSurplus(s: State, step: Step)
    requires IsWorker(s, step) && WorkerEnabled(s, step)
    ensures Surplus(ApplyWorker(s, step)) <= Surplus(s)
  {
    WorkerInFlight(s, step);
    WorkerAtGet(s, step);
    WorkerQueue(s, step);
    hide InFlight, AtGet, ApplyWorker, WorkerEnabled;
  }

  lemma {:induction false} RunSurplus(size: nat, s: State, run: seq<Step>)
    requires s.stop && Legal(size, s, run)
    ensures Surplus(Exec(size, s, run)) <= Surplus(s)
    decreases |run|
  {
    if run != [] {
      var s1 := Apply(size, s, run[0]);
      assert s1.stop;
      if IsWorker(s, run[0]) {
        WorkerSurplus(s, run[0]);
      } else {
        CallSurplus(size, s, run[0]);
      }
      hide Apply, Enabled, Surplus;
      RunSurplus(size, s1, run[1..]);
    }
  }

  // ----- building a run

  lemma {:induction false} Joined(size: nat, s: State, first: seq<Step>, second: seq<Step>)
    requires Legal(size, s, first) && Legal(size, Exec(size, s, first), second)
    ensures Legal(size, s, first + second)
    ensures Exec(size, s, first + second) == Exec(size, Exec(size, s, first), second)
    decreases |first|
  {
    hide Enabled, Apply;
    if first == [] {
      assert first + second == second;
    } else {
      assert (first + second)[1..] == first[1..] + second;
      Joined(size, Apply(size, s, first[0]), first[1..], second);
    }
  }

  lemma One(size: nat, s: State, step: Step)
    requires Enabled(size, s, step)
    ensures Legal(size, s, [step]) && Exec(size, s, [step]) == Apply(size, s, step)
  {
    hide Enabled, Apply;
    assert [step][1..] == [];
  }

  /** One of a set of accepted tasks comes before none later than itself. */
  lemma {:induction false} Least(s: State, ids: set<nat>) returns (id: nat)
    requires ids != {} && forall k | k in ids :: IsAccepted(s, k)
    ensures id in ids && IsAccepted(s, id)
    ensures forall k | k in ids :: IsAccepted(s, k) && !Before(s.calls[k].task, s.calls[id].task)
    decreases |ids|
  {
    var x :| x in ids;
    var rest := ids - {x};
    assert forall k | k in ids :: k == x || k in rest;
    if rest == {} {
      return x;
    }
    var y := Least(s, rest);
    if Before(s.calls[x].task, s.calls[y].task) {
      id := x;
      forall k | k in rest ensures !Before(s.calls[k].task, s.calls[x].task) {
        assert !Before(s.calls[k].task, s.calls[y].task);
      }
    } else {
      id := y;
    }
  }

  lemma SomeFirst(size: nat, s: State) returns (id: nat)
    requires Inv(size, s) && s.queue != {}
    ensures First(s, id)
  {
    assert QueuedWait(s);
    hide Inv, Before, Waiting;
    assert forall k | k in s.queue :: IsAccepted(s, k);
    id := Least(s, s.queue);
  }

  // ----- the waiting workers are served

  /** The stop is set and this submit is on its way. */
  ghost predicate Late(size: nat, s: State, u: nat) {
    Inv(size, s) && s.stop && u in InFlight(s)
  }

  /** Another submit's task goes into the empty queue. */
  lemma OtherPuts(size: nat, s: State, u: nat) returns (run: seq<Step>, s': State)
    requires Late(size, s, u) && s.queue == {} && |InFlight(s)| > 1
    ensures Legal(size, s, run) && s' == Exec(size, s, run) && Late(size, s', u) && |s'.queue| == 1
    ensures Surplus(s') == Surplus(s) && AtGet(s') == AtGet(s)
  {
    var id := Other(InFlight(s), u);
    if s.calls[id].Passed? {
      var s1 := Apply(size, s, Number(id));
      assert InFlight(s1) == InFlight(s);
      StepKeeps(size, s, Number(id));
      var s2 := Puts(size, s1, u, id);
      hide Apply, Enabled, Inv, InFlight;
      One(size, s, Number(id));
      One(size, s1, Put(id, 0, 0));
      Joined(size, s, [Number(id)], [Put(id, 0, 0)]);
      run, s' := [Number(id)] + [Put(id, 0, 0)], s2;
    } else {
      s' := Puts(size, s, u, id);
      hide Apply, Enabled, Inv, InFlight;
      One(size, s, Put(id, 0, 0));
      run := [Put(id, 0, 0)];
    }
  }

  lemma Puts(size: nat, s: State, u: nat, id: nat) returns (s': State)
    requires Late(size, s, u) && s.queue == {} && id < |s.calls| && s.calls[id].Numbered? && id != u
    ensures Enabled(size, s, Put(id, 0, 0)) && s' == Apply(size, s, Put(id, 0, 0)) && Late(size, s', u)
    ensures |s'.queue| == 1 && Surplus(s') == Surplus(s) && AtGet(s') == AtGet(s)
  {
    s' := Apply(size, s, Put(id, 0, 0));
    StepKeeps(size, s, Put(id, 0, 0));
    hide Inv;
    assert InFlight(s') == InFlight(s) - {id} && id in InFlight(s);
    assert AtGet(s') == AtGet(s);
    assert s'.queue == {id};
  }

  lemma Other(ids: set<nat>, u: nat) returns (id: nat)
    requires u in ids && |ids| > 1
    ensures id in ids && id != u
  {
    var rest := ids - {u};
    assert ids == rest + {u};
    assert rest != {};
    id :| id in rest;
  }

  /** A waiting worker takes a task. */
  lemma Takes(size: nat, s: State, u: nat, w: nat) returns (step: Step, s': State)
    requires Late(size, s, u) && s.queue != {} && w in AtGet(s)
    ensures Enabled(size, s, step) && s' == Apply(size, s, step) && Late(size, s', u)
    ensures Surplus(s') == Surplus(s) && |AtGet(s')| < |AtGet(s)|
  {
    var id := SomeFirst(size, s);
    step := DrainTake(w, id);
    s' := Apply(size, s, step);
    StepKeeps(size, s, step);
    hide Inv, First;
    assert InFlight(s') == InFlight(s);
    assert AtGet(s') == AtGet(s) - {w};
  }

  /** While there is a surplus every waiting worker can be served without the put of `u`. */
  lemma {:induction false} AllServed(size: nat, s: State, u: nat) returns (run: seq<Step>, s': State)
    requires Late(size, s, u) && Surplus(s) > 0
    ensures Legal(size, s, run) && s' == Exec(size, s, run) && Late(size, s', u) && AtGet(s') == {}
    decreases |AtGet(s)|
  {
    if AtGet(s) == {} {
      return [], s;
    }
    var first, s1 := [], s;
    if s.queue == {} {
      first, s1 := OtherPuts(size, s, u);
    }
    var w :| w in AtGet(s);
    var step, s2 := Takes(size, s1, u, w);
    hide Apply, Enabled, Late, InFlight, Surplus, AtGet;
    var rest;
    rest, s' := AllServed(size, s2, u);
    One(size, s1, step);
    Joined(size, s1, [step], rest);
    Joined(size, s, first, [step] + rest);
    run := first + ([step] + rest);
  }

  // ----- the workers leave

  function ToLeave(worker: Worker): nat {
    match worker
    case Took(_) => 6
    case Getting => 5
    case Executing(_) => 5
    case Looping => 4
    case DrainTook(_) => 4
    case Draining => 3
    case DrainGet => 2
    case Exited => 0
    case Died(_) => 0
  }

  predicate Gone(worker: Worker) {
    worker.Exited? || worker.Died?
  }

  /** Worker `w` moved, no submit did, and the queue did not grow. */
  ghost predicate OnlyWorker(s: State, s': State, w: nat) {
    && |s'.workers| == |s.workers|
    && (forall v | 0 <= v < |s.workers| && v != w :: s'.workers[v] == s.workers[v])
    && s'.stop == s.stop && InFlight(s') == InFlight(s) && s'.queue <= s.queue
  }

  /** The next step of a worker after the stop; it waits only where there is a task. */
  lemma WorkerStep(size: nat, s: State, w: nat) returns (step: Step)
    requires Inv(size, s) && s.stop && w < |s.workers| && !Gone(s.workers[w])
    requires s.workers[w].DrainGet? ==> s.queue != {}
    ensures IsWorker(s, step) && step.w == w && WorkerEnabled(s, step) && !step.Die?
  {
    var worker := s.workers[w];
    match worker
    case Looping => step := LoopCheck(w);
    case Getting =>
      if s.queue == {} {
        step := GetEmpty(w);
      } else {
        var id := SomeFirst(size, s);
        step := Get(w, id);
      }
    case Took(id) =>
      assert Holds(worker, id);
      step := Begin(w);
    case Executing(id) =>
      assert Holds(worker, id);
      step := Finish(w);
    case Draining => step := DrainCheck(w);
    case DrainGet =>
      var id := SomeFirst(size, s);
      step := DrainTake(w, id);
    case DrainTook(id) =>
      assert Holds(worker, id);
      step := DrainFail(w);
  }

  lemma WorkerStepMoves(s: State, w: nat, step: Step)
    requires s.stop && IsWorker(s, step) && step.w == w && WorkerEnabled(s, step) && !step.Die?
    ensures var s' := ApplyWorker(s, step);
      && OnlyWorker(s, s', w) && (s'.workers[w].DrainGet? ==> s'.queue != {})
      && (|s'.queue| < |s.queue| || (s'.queue == s.queue && ToLeave(s'.workers[w]) < ToLeave(s.workers[w])))
  {
    WorkerInFlight(s, step);
    WorkerQueue(s, step);
    OneMoved(s, step);
    if !step.Get? && !step.DrainTake? {
      NearerLeaving(s, step);
    }
    hide InFlight, ApplyWorker, WorkerEnabled, ToLeave;
  }

  lemma NearerLeaving(s: State, step: Step)
    requires s.stop && IsWorker(s, step) && WorkerEnabled(s, step) && !step.Die? && !step.Get? && !step.DrainTake?
    ensures ApplyWorker(s, step).queue == s.queue && step.w < |ApplyWorker(s, step).workers|
    ensures ToLeave(ApplyWorker(s, step).workers[step.w]) < ToLeave(s.workers[step.w])
  {
  }

  lemma LeavesOnce(size: nat, s: State, u: nat, w: nat) returns (step: Step, s': State)
    requires Late(size, s, u) && w < |s.workers| && !Gone(s.workers[w])
    requires s.workers[w].DrainGet? ==> s.queue != {}
    ensures Enabled(size, s, step) && s' == Apply(size, s, step) && Late(size, s', u) && OnlyWorker(s, s', w)
    ensures s'.workers[w].DrainGet? ==> s'.queue != {}
    ensures |s'.queue| < |s.queue| || (s'.queue == s.queue && ToLeave(s'.workers[w]) < ToLeave(s.workers[w]))
  {
    hide Inv, InFlight, ToLeave;
    step := WorkerStep(size, s, w);
    WorkerStepMoves(s, w, step);
    StepKeeps(size, s, step);
    hide WorkerEnabled, ApplyWorker;
    s' := Apply(size, s, step);
  }

  /** Worker `w` alone leaves. */
  lemma {:induction false} Leaves(size: nat, s: State, u: nat, w: nat) returns (run: seq<Step>, s': State)
    requires Late(size, s, u) && w < |s.workers| && (s.workers[w].DrainGet? ==> s.queue != {})
    ensures Legal(size, s, run) && s' == Exec(size, s, run) && Late(size, s', u)
    ensures OnlyWorker(s, s', w) && Gone(s'.workers[w])
    decreases |s.queue|, ToLeave(s.workers[w])
  {
    if Gone(s.workers[w]) {
      return [], s;
    }
    var step, s1 := LeavesOnce(size, s, u, w);
    hide Apply, Enabled, Late, InFlight, ToLeave, Gone;
    var rest;
    rest, s' := Leaves(size, s1, u, w);
    One(size, s, step);
    Joined(size, s, [step], rest);
    run := [step] + rest;
  }

  /** With no worker waiting, the workers from `k` on leave one after the other. */
  lemma {:induction false} AllLeave(size: nat, s: State, u: nat, k: nat) returns (run: seq<Step>, s': State)
    requires Late(size, s, u) && AtGet(s) == {} && k <= |s.workers|
    requires forall w | 0 <= w < k :: Gone(s.workers[w])
    ensures Legal(size, s, run) && s' == Exec(size, s, run) && Late(size, s', u)
    ensures forall w | 0 <= w < |s'.workers| :: Gone(s'.workers[w])
    decreases |s.workers| - k
  {
    hide Late, Gone;
    if k == |s.workers| {
      return [], s;
    }
    assert s.workers[k].DrainGet? ==> k in AtGet(s);
    var first, s1 := Leaves(size, s, u, k);
    NoneWaits(s, s1, k);
    hide Legal, Exec, AtGet;
    var rest;
    rest, s' := AllLeave(size, s1, u, k + 1);
    Joined(size, s, first, rest);
    run := first + rest;
  }

  lemma NoneWaits(s: State, s': State, w: nat)
    requires AtGet(s) == {} && w < |s.workers| && OnlyWorker(s, s', w) && Gone(s'.workers[w])
    ensures AtGet(s') == {}
  {
    forall v | v in AtGet(s') ensures v in AtGet(s) {
      assert v != w;
    }
  }

  // ----- theorem

  /** From here the workers may all leave with an accepted future in the queue. */
  ghost predicate CanDangle(size: nat, s: State) {
    exists run: seq<Step> :: Legal(size, s, run) && Dangling(Exec(size, s, run))
  }

  ghost predicate Dangling(s: State) {
    AllGone(s) && exists id: nat :: id in s.queue && IsAccepted(s, id) && Waiting(s.calls[id].future)
  }

  lemma SurplusDangles(size: nat, s: State, u: nat)
    requires Late(size, s, u) && Surplus(s) > 0
    ensures CanDangle(size, s)
  {
    hide Late, Surplus, Legal, Exec;
    var first, s1 := AllServed(size, s, u);
    var second, s2 := AllLeave(size, s1, u, 0);
    assert AllGone(s2);
    Joined(size, s, first, second);
    var third, s3 := LastPut(size, s2, u);
    Joined(size, s, first + second, third);
    assert Legal(size, s, first + second + third) && Dangling(Exec(size, s, first + second + third));
  }

  /** If the queue is empty then, the submit's own put is what is left in it. */
  lemma LastPut(size: nat, s: State, u: nat) returns (run: seq<Step>, s': State)
    requires Late(size, s, u) && AllGone(s)
    ensures Legal(size, s, run) && s' == Exec(size, s, run) && Dangling(s')
  {
    if s.queue == {} {
      run, s' := [], s;
      if s.calls[u].Passed? {
        One(size, s, Number(u));
        run, s' := [Number(u)], Apply(size, s, Number(u));
      }
      var s1 := s';
      One(size, s1, Put(u, 0, 0));
      Joined(size, s, run, [Put(u, 0, 0)]);
      run, s' := run + [Put(u, 0, 0)], Apply(size, s1, Put(u, 0, 0));
      assert u in s'.queue && IsAccepted(s', u) && Waiting(s'.calls[u].future);
    } else {
      run, s' := [], s;
      var id :| id in s.queue;
      hide HeldFit, HeldOnce, AllAccounted, Recorded, LateOnce;
      assert IsAccepted(s, id) && Waiting(s.calls[id].future);
    }
  }

  lemma NoSurplusSettles(size: nat, s: State, run: seq<Step>)
    requires s.stop && Legal(size, s, run) && Dangling(Exec(size, s, run))
    ensures Surplus(s) > 0
  {
    var end := Exec(size, s, run);
    RunSurplus(size, s, run);
    hide Legal, Exec, IsAccepted, Waiting;
    assert AtGet(end) == {};
    var id :| id in end.queue;
    assert |end.queue| > 0;
  }

  /** In every run: when the stop is set and a submit is past its check, the workers can all leave with a
      future in the queue, where it is never settled, exactly if there is a surplus. */
  lemma LateSubmitDangles(size: nat, maxWorkers: nat, before: seq<Step>, u: nat)
    requires Legal(size, Initial(maxWorkers), before)
    requires Exec(size, Initial(maxWorkers), before).stop && u in InFlight(Exec(size, Initial(maxWorkers), before))
    ensures var s := Exec(size, Initial(maxWorkers), before);
      CanDangle(size, s) <==> |InFlight(s)| + |s.queue| > |AtGet(s)|
  {
    InitialInv(size, maxWorkers);
    RunKeeps(size, Initial(maxWorkers), before);
    var s := Exec(size, Initial(maxWorkers), before);
    assert Late(size, s, u);
    hide Legal, Exec, Inv, Late, Dangling;
    if Surplus(s) > 0 {
      SurplusDangles(size, s, u);
    }
    if CanDangle(size, s) {
      var run: seq<Step> :| Legal(size, s, run) && Dangling(Exec(size, s, run));
      NoSurplusSettles(size, s, run);
    }
  }

  /** So it can whatever the number of workers: the submit is checked, and then the stop is set. */
  lemma LateSubmitReached(size: nat, maxWorkers: nat)
    ensures var run := [Submit, Stop];
      Legal(size, Initial(maxWorkers), run) && CanDangle(size, Exec(size, Initial(maxWorkers), run))
  {
    var start, run := Initial(maxWorkers), [Submit, Stop];
    var s1 := Apply(size, start, Submit);
    var s2 := Apply(size, s1, Stop);
    assert run[1..] == [Stop] && run[1..][1..] == [];
    assert Legal(size, s1, [Stop]) && Exec(size, s1, [Stop]) == s2;
    assert Legal(size, start, run) && Exec(size, start, run) == s2;
    assert InFlight(s2) == {0} && AtGet(s2) == {};
    LateSubmitDangles(size, maxWorkers, run, 0);
  }
}
