/** What holds over every interleaving of submitters and workers, from the scheduler's creation. */
module SchedulerTheorems {
  import opened Scheduler

  // ----- bounds and once-only

  lemma {:induction false} WorkersStay(size: nat, s: State, run: seq<Step>)
    requires Legal(size, s, run)
    ensures |Exec(size, s, run).workers| == |s.workers|
    decreases |run|
  {
    if run != [] {
      WorkersStep(size, s, run[0]);
      hide Apply, Enabled;
      WorkersStay(size, Apply(size, s, run[0]), run[1..]);
    }
  }

  lemma WorkersStep(size: nat, s: State, step: Step)
    requires Enabled(size, s, step)
    ensures |Apply(size, s, step).workers| == |s.workers|
  {
  }

  ghost function Below(n: nat): (s: set<nat>)
    ensures |s| == n && forall i: nat :: i in s <==> i < n
  {
    if n == 0 then {} else Below(n - 1) + {n - 1}
  }

  lemma {:induction false} DistinctFew(ids: seq<nat>, n: nat)
    requires Distinct(ids) && forall id | id in ids :: id < n
    ensures |ids| <= n
  {
    CountDistinct(ids);
    var seen := set i: nat | i < |ids| :: ids[i];
    assert forall id | id in seen :: id in ids;
    Smaller(seen, Below(n));
  }

  lemma {:induction false} Smaller(a: set<nat>, b: set<nat>)
    requires a <= b
    ensures |a| <= |b|
    decreases |a|
  {
    if a != {} {
      var x :| x in a;
      Smaller(a - {x}, b - {x});
    }
  }

  lemma {:induction false} CountDistinct(ids: seq<nat>)
    requires Distinct(ids)
    ensures |set i: nat | i < |ids| :: ids[i]| == |ids|
  {
    if ids != [] {
      var before, last := ids[..|ids| - 1], ids[|ids| - 1];
      CountDistinct(before);
      assert (set i: nat | i < |ids| :: ids[i]) == (set i: nat | i < |before| :: before[i]) + {last};
    }
  }

  /** In every run the queue keeps its bound, no function is called and no future settled twice or without
      having been accepted, and at most one function per worker is called after the stop. */
  lemma {:induction false} EveryRun(size: nat, maxWorkers: nat, run: seq<Step>)
    requires Legal(size, Initial(maxWorkers), run)
    ensures var s := Exec(size, Initial(maxWorkers), run);
      && (size > 0 ==> |s.queue| <= size)
      && Distinct(s.started) && Distinct(s.resolved)
      && (forall id | id in s.started || id in s.resolved :: IsAccepted(s, id))
      && |s.late| <= maxWorkers
  {
    InitialInv(size, maxWorkers);
    RunKeeps(size, Initial(maxWorkers), run);
    WorkersStay(size, Initial(maxWorkers), run);
    var s := Exec(size, Initial(maxWorkers), run);
    hide Exec, Legal;
    DistinctFew(s.late, maxWorkers);
  }

  // ----- order

  lemma TaskStays(size: nat, s: State, step: Step, id: nat)
    requires Enabled(size, s, step) && IsAccepted(s, id)
    ensures var s' := Apply(size, s, step);
      IsAccepted(s', id) && s'.calls[id].task == s.calls[id].task && (id !in s.queue ==> id !in s'.queue)
  {
  }

  lemma OvertakingStep(size: nat, s: State, step: Step, a: nat, b: nat)
    requires Enabled(size, s, step) && a in s.queue && b in s.queue && IsAccepted(s, a) && IsAccepted(s, b)
    requires Before(s.calls[a].task, s.calls[b].task)
    ensures b !in Apply(size, s, step).queue ==> a !in Apply(size, s, step).queue
  {
  }

  lemma {:induction false} GoneStays(size: nat, s: State, run: seq<Step>, id: nat)
    requires Legal(size, s, run) && IsAccepted(s, id) && id !in s.queue
    ensures id !in Exec(size, s, run).queue
    decreases |run|
  {
    if run != [] {
      TaskStays(size, s, run[0], id);
      hide Apply, Enabled;
      GoneStays(size, Apply(size, s, run[0]), run[1..], id);
    }
  }

  /** Of two waiting tasks the one with the lower priority number, or with the same and created earlier,
      is never left in the queue when the other has been taken. */
  lemma {:induction false} NoOvertaking(size: nat, s: State, run: seq<Step>, a: nat, b: nat)
    requires Legal(size, s, run) && a in s.queue && b in s.queue && IsAccepted(s, a) && IsAccepted(s, b)
    requires Before(s.calls[a].task, s.calls[b].task)
    ensures b !in Exec(size, s, run).queue ==> a !in Exec(size, s, run).queue
    decreases |run|
  {
    if run != [] {
      var s' := Apply(size, s, run[0]);
      OvertakingStep(size, s, run[0], a, b);
      TaskStays(size, s, run[0], a);
      TaskStays(size, s, run[0], b);
      hide Apply, Enabled, Before;
      if a !in s'.queue {
        GoneStays(size, s', run[1..], a);
      } else {
        NoOvertaking(size, s', run[1..], a, b);
      }
    }
  }

  // ----- after the stop

  /** The stop is set and no submit is between its stop check and its put. */
  ghost predicate Quiet(s: State) {
    s.stop && forall id: nat | id < |s.calls| :: !s.calls[id].Passed? && !s.calls[id].Numbered?
  }

  lemma QuietStep(size: nat, s: State, step: Step)
    requires Quiet(s) && Enabled(size, s, step)
    ensures Quiet(Apply(size, s, step)) && Apply(size, s, step).queue <= s.queue
  {
  }

  lemma ExitStep(size: nat, s: State, step: Step, w: nat)
    requires Enabled(size, s, step) && w < |s.workers| && !s.workers[w].Exited?
    ensures var s' := Apply(size, s, step);
      w < |s'.workers| && (s'.workers[w].Exited? ==> s'.queue == {})
  {
  }

  lemma {:induction false} QuietEmptyStays(size: nat, s: State, run: seq<Step>)
    requires Quiet(s) && s.queue == {} && Legal(size, s, run)
    ensures Exec(size, s, run).queue == {}
    decreases |run|
  {
    if run != [] {
      QuietStep(size, s, run[0]);
      hide Apply, Enabled, Quiet;
      QuietEmptyStays(size, Apply(size, s, run[0]), run[1..]);
    }
  }

  lemma {:induction false} ExitEmpties(size: nat, s: State, run: seq<Step>, w: nat)
    requires Quiet(s) && w < |s.workers| && !s.workers[w].Exited? && Legal(size, s, run)
    ensures w < |Exec(size, s, run).workers|
    ensures Exec(size, s, run).workers[w].Exited? ==> Exec(size, s, run).queue == {}
    decreases |run|
  {
    if run != [] {
      var s' := Apply(size, s, run[0]);
      QuietStep(size, s, run[0]);
      ExitStep(size, s, run[0], w);
      hide Apply, Enabled, Quiet;
      if s'.workers[w].Exited? {
        QuietEmptyStays(size, s', run[1..]);
        WorkersStay(size, s', run[1..]);
      } else {
        ExitEmpties(size, s', run[1..], w);
      }
    }
  }

  ghost predicate AllGone(s: State) {
    forall w | 0 <= w < |s.workers| :: s.workers[w].Exited? || s.workers[w].Died?
  }

  /** If some worker is still at work when the stop is set and no submit is on its way, then once the
      workers are gone and that one has left through the drain, the queue is empty and every accepted
      future is settled, save those of functions that took their worker with them. */
  lemma {:induction false} DrainSettlesAll(size: nat, maxWorkers: nat, before: seq<Step>, run: seq<Step>, w: nat)
    requires Legal(size, Initial(maxWorkers), before)
    requires Quiet(Exec(size, Initial(maxWorkers), before))
    requires w < maxWorkers && |Exec(size, Initial(maxWorkers), before).workers| == maxWorkers
    requires !Exec(size, Initial(maxWorkers), before).workers[w].Exited?
    requires Legal(size, Exec(size, Initial(maxWorkers), before), run)
    requires AllGone(Exec(size, Exec(size, Initial(maxWorkers), before), run))
    ensures var s := Exec(size, Exec(size, Initial(maxWorkers), before), run);
      w < |s.workers| && (s.workers[w].Exited? ==>
        s.queue == {} &&
        forall id: nat | IsAccepted(s, id) ::
          s.calls[id].future.Resolved? || s.calls[id].future.Notified? || (s.calls[id].future.Running? && HeldBySome(s, id)))
  {
    InitialInv(size, maxWorkers);
    RunKeeps(size, Initial(maxWorkers), before);
    var middle := Exec(size, Initial(maxWorkers), before);
    hide Initial;
    RunKeeps(size, middle, run);
    ExitEmpties(size, middle, run, w);
    var s := Exec(size, middle, run);
    hide Exec, Legal, Quiet;
    if s.workers[w].Exited? {
      GoneSettled(size, s);
    }
  }

  lemma GoneSettled(size: nat, s: State)
    requires Inv(size, s) && AllGone(s) && s.queue == {}
    ensures forall id: nat | IsAccepted(s, id) ::
      s.calls[id].future.Resolved? || s.calls[id].future.Notified? || (s.calls[id].future.Running? && HeldBySome(s, id))
  {
    hide Recorded, LateOnce, HeldOnce, QueuedWait;
    forall id: nat | IsAccepted(s, id) && !s.calls[id].future.Resolved? && !s.calls[id].future.Notified?
      ensures s.calls[id].future.Running? && HeldBySome(s, id)
    {
      assert HeldBySome(s, id);
      var w :| 0 <= w < |s.workers| && Holds(s.workers[w], id);
    }
  }

  // ----- what can go wrong

  lemma {:induction false} Extended(size: nat, s: State, run: seq<Step>, step: Step)
    requires Legal(size, s, run) && Enabled(size, Exec(size, s, run), step)
    ensures Legal(size, s, run + [step]) && Exec(size, s, run + [step]) == Apply(size, Exec(size, s, run), step)
    decreases |run|
  {
    hide Apply, Enabled;
    if run == [] {
      assert [step][1..] == [];
    } else {
      Extended(size, Apply(size, s, run[0]), run[1..], step);
      assert (run + [step])[1..] == run[1..] + [step];
    }
  }

  /** With no worker left nothing leaves the queue, so a future queued then is never settled. */
  lemma {:induction false} DanglesForever(size: nat, s: State, run: seq<Step>, id: nat)
    requires Inv(size, s) && AllGone(s) && id in s.queue && Legal(size, s, run)
    ensures id in Exec(size, s, run).queue && IsAccepted(Exec(size, s, run), id)
    ensures Waiting(Exec(size, s, run).calls[id].future)
    decreases |run|
  {
    if run != [] {
      StepKeeps(size, s, run[0]);
      GoneStep(size, s, run[0]);
      hide Apply, Enabled, Inv, AllGone;
      DanglesForever(size, Apply(size, s, run[0]), run[1..], id);
    } else {
      hide HeldFit, HeldOnce, AllAccounted, Recorded, LateOnce;
    }
  }

  lemma GoneStep(size: nat, s: State, step: Step)
    requires AllGone(s) && Enabled(size, s, step)
    ensures AllGone(Apply(size, s, step)) && s.queue <= Apply(size, s, step).queue
  {
  }

  /** A worker waiting in the drain on an empty queue waits for ever. */
  lemma {:induction false} BlockedForever(size: nat, s: State, run: seq<Step>, w: nat)
    requires Quiet(s) && s.queue == {} && w < |s.workers| && s.workers[w].DrainGet? && Legal(size, s, run)
    ensures w < |Exec(size, s, run).workers| && Exec(size, s, run).workers[w].DrainGet?
    decreases |run|
  {
    if run != [] {
      QuietStep(size, s, run[0]);
      BlockedStep(size, s, run[0], w);
      hide Apply, Enabled, Quiet;
      BlockedForever(size, Apply(size, s, run[0]), run[1..], w);
    }
  }

  lemma BlockedStep(size: nat, s: State, step: Step, w: nat)
    requires Quiet(s) && s.queue == {} && w < |s.workers| && s.workers[w].DrainGet? && Enabled(size, s, step)
    ensures w < |Apply(size, s, step).workers| && Apply(size, s, step).workers[w].DrainGet?
  {
  }

  /** With two workers or more, two can see the last task waiting in the drain: one takes it and the other
      waits on an empty queue. */
  lemma {:induction false} DrainCanBlock(size: nat, maxWorkers: nat) returns (run: seq<Step>)
    requires maxWorkers >= 2
    ensures Legal(size, Initial(maxWorkers), run)
    ensures var s := Exec(size, Initial(maxWorkers), run);
      Quiet(s) && s.queue == {} && |s.workers| == maxWorkers && s.workers[0].DrainGet?
  {
    var start := Initial(maxWorkers);
    var s: State;
    run, s := OneQueued(size, maxWorkers);
    assert |s.workers| == maxWorkers && s.workers[0].Looping? && s.workers[1].Looping?;
    hide Initial, Exec, Legal;
    run, s := Next(size, start, run, s, LoopCheck(0));
    run, s := Next(size, start, run, s, LoopCheck(1));
    run, s := Next(size, start, run, s, DrainCheck(0));
    run, s := Next(size, start, run, s, DrainCheck(1));
    assert First(s, 0);
    run, s := Next(size, start, run, s, DrainTake(1, 0));
  }

  lemma {:induction false} OneQueued(size: nat, maxWorkers: nat) returns (run: seq<Step>, s: State)
    ensures Legal(size, Initial(maxWorkers), run) && s == Exec(size, Initial(maxWorkers), run)
    ensures s.stop && s.queue == {0} && s.calls == [Accepted(Task(0, 0, 1), Pending)]
    ensures s.workers == Initial(maxWorkers).workers
  {
    var start := Initial(maxWorkers);
    run, s := [], start;
    run, s := Next(size, start, run, s, Submit);
    run, s := Next(size, start, run, s, Number(0));
    run, s := Next(size, start, run, s, Put(0, 0, 0));
    run, s := Next(size, start, run, s, Stop);
  }

  lemma Next(size: nat, start: State, run: seq<Step>, s: State, step: Step) returns (run': seq<Step>, s': State)
    requires Legal(size, start, run) && s == Exec(size, start, run) && Enabled(size, s, step)
    ensures run' == run + [step] && s' == Apply(size, s, step)
    ensures Legal(size, start, run') && s' == Exec(size, start, run')
  {
    Extended(size, start, run, step);
    run', s' := run + [step], Apply(size, s, step);
  }

  /** A worker alone takes from the drain only what it has seen there: it never waits on an empty queue. */
  lemma {:induction false} DrainAloneNeverBlocks(size: nat, run: seq<Step>)
    requires Legal(size, Initial(1), run)
    ensures var s := Exec(size, Initial(1), run);
      |s.workers| == 1 && (s.workers[0].DrainGet? ==> s.queue != {})
  {
    AloneRun(size, Initial(1), run);
  }

  lemma {:induction false} AloneRun(size: nat, s: State, run: seq<Step>)
    requires |s.workers| == 1 && (s.workers[0].DrainGet? ==> s.queue != {}) && Legal(size, s, run)
    ensures var s' := Exec(size, s, run);
      |s'.workers| == 1 && (s'.workers[0].DrainGet? ==> s'.queue != {})
    decreases |run|
  {
    if run != [] {
      AloneStep(size, s, run[0]);
      hide Apply, Enabled;
      AloneRun(size, Apply(size, s, run[0]), run[1..]);
    }
  }

  lemma AloneStep(size: nat, s: State, step: Step)
    requires |s.workers| == 1 && (s.workers[0].DrainGet? ==> s.queue != {}) && Enabled(size, s, step)
    ensures var s' := Apply(size, s, step);
      |s'.workers| == 1 && (s'.workers[0].DrainGet? ==> s'.queue != {})
  {
  }
}
