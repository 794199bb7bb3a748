/** Shutting a server down while loads may be in progress. */
module ResidencyShutdown {
  import opened Residency

  /** The thread can still make a new engine resident: it is past its check, and has not found the model
      there, failed, or ended. */
  predicate MayBring(s: State, thread: Thread) {
    || thread.EnsureLook? || thread.EnsureLock? || (thread.EnsureLookAgain? && thread.model !in s.engines)
    || Bringing(thread)
  }

  predicate Bringing(thread: Thread) {
    thread.Creating? || thread.Loading? || thread.Reporting? || thread.Registering?
  }

  /** The server is shutting down and no load is in progress. */
  ghost predicate NoLoad(s: State) {
    s.shutting && forall t | 0 <= t < |s.threads| :: !MayBring(s, s.threads[t])
  }

  /** What a shutdown's sweep has still to look at. */
  function Ahead(thread: Thread): set<Model> {
    match thread
    case Sweeping(todo) => set m | m in todo
    case UnloadLock(m, sweep) => if sweep.Some? then {m} + set k | k in sweep.value else {}
    case UnloadLook(m, sweep) => if sweep.Some? then {m} + set k | k in sweep.value else {}
    case Unloading(m, _, sweep) => if sweep.Some? then {m} + set k | k in sweep.value else {}
    case Unregistering(m, _, sweep) => if sweep.Some? then {m} + set k | k in sweep.value else {}
    case UnloadRelease(_, sweep) => if sweep.Some? then set k | k in sweep.value else {}
    case _ => {}
  }

  /** Thread `t` is in the sweep of a shutdown. */
  predicate InSweep(thread: Thread) {
    match thread
    case Sweeping(_) => true
    case UnloadLock(_, sweep) => sweep.Some?
    case UnloadLook(_, sweep) => sweep.Some?
    case Unloading(_, _, sweep) => sweep.Some?
    case Unregistering(_, _, sweep) => sweep.Some?
    case UnloadRelease(_, sweep) => sweep.Some?
    case Done => true
    case _ => false
  }

  ghost predicate Swept(s: State, t: nat) {
    && t < |s.threads| && InSweep(s.threads[t])
    && forall m | m in s.engines :: s.engines[m] in s.raised || m in Ahead(s.threads[t])
  }

  /** Without a load in progress the registry only loses models, and no load begins. */
  lemma NoLoadStep(s: State, step: Step)
    requires Inv(s) && NoLoad(s) && Enabled(s, step)
    ensures var s' := Apply(s, step);
      NoLoad(s') && s'.raised >= s.raised && |s'.threads| >= |s.threads|
      && forall m | m in s'.engines :: m in s.engines && s'.engines[m] == s.engines[m]
  {
    match step
    case Move(t, ok, order) => NoLoadMove(s, t, ok, order);
    case _ => hide Inv;
  }

  lemma NoLoadMove(s: State, t: nat, ok: bool, order: seq<Model>)
    requires Inv(s) && NoLoad(s) && Enabled(s, Move(t, ok, order))
    ensures var s' := Next(s, t, ok, order);
      NoLoad(s') && s'.raised >= s.raised && |s'.threads| == |s.threads|
      && forall m | m in s'.engines :: m in s.engines && s'.engines[m] == s.engines[m]
  {
    var s', was := Next(s, t, ok, order), s.threads[t];
    assert !MayBring(s, was) && LocksHeld(s);
    OthersStay(s, t, ok, order);
    MoverTouches(s, t, ok, order);
    OwnMove(s, t, ok, order);
    hide Inv, Next, Enabled, LocksHeld;
    forall v | 0 <= v < |s.threads| && v != t ensures !MayBring(s', s'.threads[v]) {
      assert !MayBring(s, s.threads[v]);
      if was.Unregistering? && s.threads[v].EnsureLookAgain? && s.threads[v].model == was.model {
        AloneInLock(s, t, v, was.model);
      }
    }
  }

  lemma OwnMove(s: State, t: nat, ok: bool, order: seq<Model>)
    requires Enabled(s, Move(t, ok, order)) && s.shutting && !MayBring(s, s.threads[t])
    ensures var s' := Next(s, t, ok, order);
      t < |s'.threads| && !MayBring(s', s'.threads[t]) && s.raised <= s'.raised
  {
  }

  /** One move of a sweep: what leaves the models ahead is gone from the registry, or its unload raised. */
  lemma SweepMoves(s: State, t: nat, ok: bool, order: seq<Model>)
    requires t < |s.threads| && InSweep(s.threads[t]) && ThreadFits(s, s.threads[t])
    requires Enabled(s, Move(t, ok, order))
    ensures var s' := Next(s, t, ok, order);
      && t < |s'.threads| && InSweep(s'.threads[t]) && s.raised <= s'.raised
      && (forall m | m in s'.engines :: m in s.engines && s'.engines[m] == s.engines[m])
      && forall m | m in Ahead(s.threads[t]) && m in s'.engines :: m in Ahead(s'.threads[t]) || s'.engines[m] in s'.raised
  {
    match s.threads[t]
    case Sweeping(todo) =>
      if todo != [] {
        assert todo == [todo[0]] + todo[1..];
      }
    case _ =>
  }

  lemma OwnSweepStep(s: State, t: nat, ok: bool, order: seq<Model>)
    requires Inv(s) && NoLoad(s) && Swept(s, t) && Enabled(s, Move(t, ok, order))
    ensures Swept(Next(s, t, ok, order), t)
  {
    assert ThreadFits(s, s.threads[t]);
    SweepMoves(s, t, ok, order);
    hide Inv, NoLoad, Next, Ahead, InSweep, ThreadFits, Enabled;
  }

  lemma OtherSweepStep(s: State, t: nat, step: Step)
    requires Inv(s) && NoLoad(s) && Swept(s, t) && Enabled(s, step) && !(step.Move? && step.t == t)
    ensures Swept(Apply(s, step), t)
  {
    NoLoadStep(s, step);
    if step.Move? {
      OthersStay(s, step.t, step.ok, step.order);
    }
    hide LocksHeld, HoldersReal, EnginesHome, ThreadsFit, HandlesSomewhere, GoneAsked, NoLoad, Next, Enabled, Ahead, InSweep;
  }

  lemma {:induction false} SweepRun(s: State, t: nat, run: seq<Step>)
    requires Inv(s) && NoLoad(s) && Swept(s, t) && Legal(s, run)
    ensures Swept(Exec(s, run), t) && Inv(Exec(s, run))
    decreases |run|
  {
    if run != [] {
      StepKeeps(s, run[0]);
      NoLoadStep(s, run[0]);
      if run[0].Move? && run[0].t == t {
        OwnSweepStep(s, t, run[0].ok, run[0].order);
      } else {
        OtherSweepStep(s, t, run[0]);
      }
      hide Inv, Next, Enabled, NoLoad, Swept;
      SweepRun(Apply(s, run[0]), t, run[1..]);
    }
  }

  /** If no load is in progress when a shutdown lists the models, then whatever else runs meanwhile, once
      the shutdown is over only engines whose unload raised are resident. */
  lemma {:induction false} ShutdownLeavesOnlyRaised(before: seq<Step>, t: nat, order: seq<Model>, run: seq<Step>)
    requires Legal(INITIAL, before) && NoLoad(Exec(INITIAL, before))
    requires t < |Exec(INITIAL, before).threads| && Exec(INITIAL, before).threads[t].ShutdownList?
    requires Enabled(Exec(INITIAL, before), Move(t, true, order))
    requires Legal(Apply(Exec(INITIAL, before), Move(t, true, order)), run)
    ensures var s := Exec(Apply(Exec(INITIAL, before), Move(t, true, order)), run);
      t < |s.threads| && (s.threads[t].Done? ==> forall m | m in s.engines :: s.engines[m] in s.raised)
  {
    InitialInv();
    RunKeeps(INITIAL, before);
    var s := Exec(INITIAL, before);
    StepKeeps(s, Move(t, true, order));
    NoLoadStep(s, Move(t, true, order));
    var s' := Apply(s, Move(t, true, order));
    assert s'.threads[t] == Sweeping(order) && s'.engines == s.engines;
    hide Inv, Exec, Legal, NoLoad;
    assert Swept(s', t);
    SweepRun(s', t, run);
  }
}
