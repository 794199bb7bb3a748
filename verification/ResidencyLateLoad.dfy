/** A load that is past its check when a shutdown lists the models can outlast it: the other half of the
    condition under which a shutdown leaves only engines whose unload raised. */
module ResidencyLateLoad {
  import opened Residency
  import opened ResidencyShutdown

  /** One step at the head of a run. */
  lemma Then(s: State, step: Step, rest: seq<Step>)
    requires Enabled(s, step) && Legal(Apply(s, step), rest)
    ensures Legal(s, [step] + rest) && Exec(s, [step] + rest) == Exec(Apply(s, step), rest)
  {
    hide Enabled, Apply;
    assert ([step] + rest)[1..] == rest;
  }

  lemma {:induction false} Joined(s: State, first: seq<Step>, second: seq<Step>)
    requires Legal(s, first) && Legal(Exec(s, first), second)
    ensures Legal(s, first + second) && Exec(s, first + second) == Exec(Exec(s, first), second)
    decreases |first|
  {
    hide Enabled, Apply;
    if first == [] {
      assert first + second == second;
    } else {
      assert (first + second)[1..] == first[1..] + second;
      Joined(Apply(s, first[0]), first[1..], second);
    }
  }

  // ----- threads leave their locks

  predicate Locked(thread: Thread) {
    || thread.EnsureLookAgain? || Absent(thread) || thread.EnsureRelease?
    || thread.UnloadLook? || Removes(thread) || thread.UnloadRelease?
  }

  lemma LockedAt(thread: Thread, m: Model)
    ensures InLock(thread, m) <==> Locked(thread) && thread.model == m
  {
  }

  /** How many moves a thread is at most from the end of its lock. */
  function ToRelease(thread: Thread): nat {
    match thread
    case EnsureLookAgain(_) => 5
    case UnloadLook(_, _) => 5
    case Creating(_) => 4
    case Loading(_, _) => 4
    case Unloading(_, _, _) => 4
    case Cleaning(_, _) => 3
    case Reporting(_, _) => 3
    case Registering(_, _) => 3
    case Unregistering(_, _, _) => 3
    case EnsureRelease(_, _) => 1
    case UnloadRelease(_, _) => 1
    case _ => 0
  }

  /** The thread holds its model's lock and can still make it resident. */
  predicate BringsLocked(s: State, thread: Thread) {
    Bringing(thread) || (thread.EnsureLookAgain? && thread.model !in s.engines)
  }

  /** No load is under way inside a lock. */
  ghost predicate Quiet(s: State) {
    forall v | 0 <= v < |s.threads| :: !BringsLocked(s, s.threads[v])
  }

  lemma LockedMove(s: State, v: nat, ok: bool)
    requires v < |s.threads| && Locked(s.threads[v])
    requires ok == s.threads[v].Unloading?
    ensures Enabled(s, Move(v, ok, [])) && ToRelease(After(s, s.threads[v], ok, [])) < ToRelease(s.threads[v])
    ensures !BringsLocked(s, s.threads[v]) ==>
      !BringsLocked(Next(s, v, ok, []), After(s, s.threads[v], ok, []))
  {
  }

  lemma NotLockedExactly(thread: Thread)
    ensures ToRelease(thread) == 0 <==> !Locked(thread)
  {
  }

  /** What `v` does there leaves the others' models alone. */
  lemma LockedMoveApart(s: State, v: nat, ok: bool, u: nat)
    requires Inv(s) && v < |s.threads| && u < |s.threads| && u != v && Locked(s.threads[v]) && Locked(s.threads[u])
    requires Enabled(s, Move(v, ok, []))
    ensures var m := s.threads[u].model;
      m in Next(s, v, ok, []).engines <==> m in s.engines
  {
    var was, m := s.threads[v], s.threads[u].model;
    assert LocksHeld(s);
    MoverTouches(s, v, ok, []);
    LockedAt(was, m);
    LockedAt(s.threads[u], m);
    hide Inv, Next, Enabled, LocksHeld, InLock, Locked;
    if was.model == m {
      AloneInLock(s, u, v, m);
    }
  }

  lemma QuietKept(s: State, v: nat, ok: bool)
    requires Inv(s) && Quiet(s) && v < |s.threads| && Locked(s.threads[v]) && ok == s.threads[v].Unloading?
    requires Enabled(s, Move(v, ok, []))
    ensures Quiet(Next(s, v, ok, [])) && Next(s, v, ok, []).engines.Keys <= s.engines.Keys
  {
    var s' := Next(s, v, ok, []);
    LockedMove(s, v, ok);
    OthersStay(s, v, ok, []);
    MoverTouches(s, v, ok, []);
    assert !BringsLocked(s, s.threads[v]);
    hide Next, Enabled, Inv;
    forall w | 0 <= w < |s'.threads| && w != v ensures !BringsLocked(s', s'.threads[w]) {
      assert !BringsLocked(s, s.threads[w]);
      if s.threads[w].EnsureLookAgain? {
        LockedMoveApart(s, v, ok, w);
      }
    }
  }

  /** Thread `v` alone runs to the release of its lock. */
  lemma {:induction false} Leaves(s: State, v: nat) returns (run: seq<Step>)
    requires Inv(s) && v < |s.threads|
    ensures Legal(s, run) && Inv(Exec(s, run)) && OnlyMoved(s, Exec(s, run), v) && !Locked(Exec(s, run).threads[v])
    ensures Quiet(s) ==> Quiet(Exec(s, run)) && Exec(s, run).engines.Keys <= s.engines.Keys
    ensures !Locked(s.threads[v]) ==> Exec(s, run) == s
    ensures forall u | 0 <= u < |s.threads| && u != v && Locked(s.threads[u]) ::
      s.threads[u].model in Exec(s, run).engines <==> s.threads[u].model in s.engines
    decreases ToRelease(s.threads[v])
  {
    NotLockedExactly(s.threads[v]);
    if !Locked(s.threads[v]) {
      return [];
    }
    var ok := s.threads[v].Unloading?;
    var s1 := LeavesOnce(s, v, ok);
    hide Next, Enabled, Inv, Quiet, Locked, ToRelease;
    var rest := Leaves(s1, v);
    Then(s, Move(v, ok, []), rest);
    run := [Move(v, ok, [])] + rest;
  }

  lemma LeavesOnce(s: State, v: nat, ok: bool) returns (s1: State)
    requires Inv(s) && v < |s.threads| && Locked(s.threads[v]) && ok == s.threads[v].Unloading?
    ensures Enabled(s, Move(v, ok, [])) && s1 == Apply(s, Move(v, ok, [])) && Inv(s1) && OnlyMoved(s, s1, v)
    ensures ToRelease(s1.threads[v]) < ToRelease(s.threads[v])
    ensures Quiet(s) ==> Quiet(s1) && s1.engines.Keys <= s.engines.Keys
    ensures forall u | 0 <= u < |s.threads| && u != v && Locked(s.threads[u]) ::
      s.threads[u].model in s1.engines <==> s.threads[u].model in s.engines
  {
    LockedMove(s, v, ok);
    StepKeeps(s, Move(v, ok, []));
    s1 := Apply(s, Move(v, ok, []));
    assert s1 == Next(s, v, ok, []);
    OthersStay(s, v, ok, []);
    hide Next, Enabled, Inv, Locked, ToRelease, Quiet, After;
    if Quiet(s) {
      QuietKept(s, v, ok);
    }
    forall u | 0 <= u < |s.threads| && u != v && Locked(s.threads[u])
      ensures s.threads[u].model in s1.engines <==> s.threads[u].model in s.engines
    {
      LockedMoveApart(s, v, ok, u);
    }
  }

  /** All threads from `k` on but `u` leave their locks. */
  lemma {:induction false} AllLeave(s: State, t: nat, u: nat, k: nat) returns (run: seq<Step>)
    requires Inv(s) && t < |s.threads| && u < |s.threads| && k <= |s.threads| && !Locked(s.threads[t])
    requires forall v | 0 <= v < k && v != u :: !Locked(s.threads[v])
    ensures Legal(s, run) && Inv(Exec(s, run)) && |Exec(s, run).threads| == |s.threads|
    ensures Exec(s, run).threads[t] == s.threads[t] && Exec(s, run).threads[u] == s.threads[u]
    ensures forall v | 0 <= v < |s.threads| && v != u :: !Locked(Exec(s, run).threads[v])
    ensures Quiet(s) ==> Quiet(Exec(s, run)) && Exec(s, run).engines.Keys <= s.engines.Keys
    ensures Locked(s.threads[u]) ==> (s.threads[u].model in Exec(s, run).engines <==> s.threads[u].model in s.engines)
    decreases |s.threads| - k
  {
    hide Inv, Quiet, Locked;
    if k == |s.threads| {
      return [];
    }
    if k == u {
      run := AllLeave(s, t, u, k + 1);
    } else {
      var first := Leaves(s, k);
      var s1 := Exec(s, first);
      hide Legal, Exec;
      var rest := AllLeave(s1, t, u, k + 1);
      Joined(s, first, rest);
      run := first + rest;
    }
  }

  // ----- the sweep, alone

  /** Moves left to a sweep whose unloads return. */
  function Left(thread: Thread): nat {
    match thread
    case Sweeping(todo) => 6 * |todo| + 1
    case UnloadLock(_, sweep) => if sweep.Some? then 6 * |sweep.value| + 6 else 0
    case UnloadLook(_, sweep) => if sweep.Some? then 6 * |sweep.value| + 5 else 0
    case Unloading(_, _, sweep) => if sweep.Some? then 6 * |sweep.value| + 4 else 0
    case Unregistering(_, _, sweep) => if sweep.Some? then 6 * |sweep.value| + 3 else 0
    case UnloadRelease(_, sweep) => if sweep.Some? then 6 * |sweep.value| + 2 else 0
    case _ => 0
  }

  /** No other thread holds the lock of a model that the sweep still looks at. */
  ghost predicate Clear(s: State, t: nat)
    requires t < |s.threads|
  {
    forall v, m | 0 <= v < |s.threads| && v != t && m in Ahead(s.threads[t]) :: !InLock(s.threads[v], m)
  }

  lemma HolderInLock(s: State, m: Model)
    requires LocksHeld(s) && HoldersReal(s) && m in s.locks
    ensures exists w :: 0 <= w < |s.threads| && InLock(s.threads[w], m)
  {
    hide InLock;
    assert InLock(s.threads[s.locks[m]], m);
  }

  lemma LockFree(s: State, t: nat, m: Model)
    requires LocksHeld(s) && HoldersReal(s) && t < |s.threads| && !InLock(s.threads[t], m)
    requires forall v | 0 <= v < |s.threads| && v != t :: !InLock(s.threads[v], m)
    ensures m !in s.locks
  {
    hide InLock, LocksHeld, HoldersReal;
    if m in s.locks {
      HolderInLock(s, m);
    }
  }

  lemma SweepEnabled(s: State, t: nat)
    requires Inv(s) && t < |s.threads| && InSweep(s.threads[t]) && !s.threads[t].Done? && Clear(s, t)
    ensures Enabled(s, Move(t, true, []))
  {
    var thread := s.threads[t];
    assert LocksHeld(s) && HoldersReal(s);
    if thread.UnloadLock? {
      assert thread.model in Ahead(thread);
      LockFree(s, t, thread.model);
    }
  }

  lemma SweepMove(s: State, t: nat)
    requires t < |s.threads| && InSweep(s.threads[t]) && !s.threads[t].Done? && Enabled(s, Move(t, true, []))
    ensures var s', now := Next(s, t, true, []), After(s, s.threads[t], true, []);
      && InSweep(now) && Left(now) < Left(s.threads[t]) && Ahead(now) <= Ahead(s.threads[t])
      && s'.engines.Keys <= s.engines.Keys
      && (s.engines.Keys <= Ahead(s.threads[t]) ==> s'.engines.Keys <= Ahead(now))
  {
    match s.threads[t]
    case Sweeping(todo) =>
      if todo != [] {
        assert todo == [todo[0]] + todo[1..];
      }
    case _ =>
  }

  lemma SweepOnce(s: State, t: nat) returns (s1: State)
    requires Inv(s) && t < |s.threads| && InSweep(s.threads[t]) && !s.threads[t].Done? && Clear(s, t)
    ensures Enabled(s, Move(t, true, [])) && s1 == Apply(s, Move(t, true, [])) && Inv(s1) && OnlyMoved(s, s1, t)
    ensures InSweep(s1.threads[t]) && Left(s1.threads[t]) < Left(s.threads[t]) && Clear(s1, t)
    ensures s1.engines.Keys <= s.engines.Keys
    ensures s.engines.Keys <= Ahead(s.threads[t]) ==> s1.engines.Keys <= Ahead(s1.threads[t])
  {
    SweepEnabled(s, t);
    SweepMove(s, t);
    StepKeeps(s, Move(t, true, []));
    s1 := Apply(s, Move(t, true, []));
    OthersStay(s, t, true, []);
    hide Inv, Next, After, Enabled, InSweep, Left, Ahead, InLock;
  }

  /** A sweep that finds its locks free ends, having unloaded what was ahead of it. */
  lemma {:induction false} SweepEnds(s: State, t: nat) returns (run: seq<Step>)
    requires Inv(s) && t < |s.threads| && InSweep(s.threads[t]) && Clear(s, t)
    ensures Legal(s, run) && Inv(Exec(s, run)) && OnlyMoved(s, Exec(s, run), t) && Exec(s, run).threads[t].Done?
    ensures Exec(s, run).engines.Keys <= s.engines.Keys
    ensures s.engines.Keys <= Ahead(s.threads[t]) ==> Exec(s, run).engines.Keys == {}
    decreases Left(s.threads[t])
  {
    if s.threads[t].Done? {
      return [];
    }
    var s1 := SweepOnce(s, t);
    hide Inv, Next, Enabled, Left, Clear, Ahead, InSweep;
    var rest := SweepEnds(s1, t);
    Then(s, Move(t, true, []), rest);
    run := [Move(t, true, [])] + rest;
  }

  // ----- a load, alone

  /** Nothing keeps this load from making its model resident. */
  ghost predicate Ready(s: State, u: nat) {
    && u < |s.threads| && MayBring(s, s.threads[u]) && s.threads[u].model !in s.engines
    && forall v | 0 <= v < |s.threads| && v != u :: !InLock(s.threads[v], s.threads[u].model)
  }

  function ToRegister(thread: Thread): nat {
    match thread
    case EnsureLook(_) => 7
    case EnsureLock(_) => 6
    case EnsureLookAgain(_) => 5
    case Creating(_) => 4
    case Loading(_, _) => 3
    case Reporting(_, _) => 2
    case Registering(_, _) => 1
    case _ => 0
  }

  lemma LoadEnabled(s: State, u: nat)
    requires Inv(s) && Ready(s, u)
    ensures Enabled(s, Move(u, true, []))
  {
    var thread := s.threads[u];
    assert LocksHeld(s) && HoldersReal(s);
    if thread.EnsureLock? {
      LockFree(s, u, thread.model);
    }
  }

  lemma LoadMove(s: State, u: nat)
    requires u < |s.threads| && MayBring(s, s.threads[u]) && s.threads[u].model !in s.engines
    requires ThreadFits(s, s.threads[u]) && Enabled(s, Move(u, true, []))
    ensures var was, s', now := s.threads[u], Next(s, u, true, []), After(s, s.threads[u], true, []);
      if was.Registering? then
        was.model in s'.engines && s'.engines[was.model] !in s'.asked
      else
        && MayBring(s', now) && now.model == was.model && ToRegister(now) < ToRegister(was)
        && s'.engines == s.engines
  {
  }

  lemma LoadOnce(s: State, u: nat) returns (s1: State)
    requires Inv(s) && Ready(s, u)
    ensures Enabled(s, Move(u, true, [])) && s1 == Apply(s, Move(u, true, [])) && Inv(s1) && OnlyMoved(s, s1, u)
    ensures if s.threads[u].Registering? then Unasked(s1)
            else Ready(s1, u) && ToRegister(s1.threads[u]) < ToRegister(s.threads[u])
  {
    LoadEnabled(s, u);
    assert ThreadFits(s, s.threads[u]);
    LoadMove(s, u);
    StepKeeps(s, Move(u, true, []));
    s1 := Apply(s, Move(u, true, []));
    OthersStay(s, u, true, []);
    hide Inv, Next, After, Enabled, InLock, ToRegister;
  }

  /** Some resident engine was never asked to unload. */
  ghost predicate Unasked(s: State) {
    exists m :: m in s.engines && s.engines[m] !in s.asked
  }

  lemma {:induction false} LoadEnds(s: State, u: nat) returns (run: seq<Step>)
    requires Inv(s) && Ready(s, u)
    ensures Legal(s, run) && OnlyMoved(s, Exec(s, run), u) && Unasked(Exec(s, run))
    decreases ToRegister(s.threads[u])
  {
    var s1 := LoadOnce(s, u);
    if s.threads[u].Registering? {
      hide Inv, Next, Enabled, Unasked;
      run := [];
    } else {
      hide Inv, Next, Enabled, Ready, ToRegister, Unasked;
      run := LoadEnds(s1, u);
    }
    Then(s, Move(u, true, []), run);
    run := [Move(u, true, [])] + run;
  }

  // ----- theorem

  /** A load that is to outlast the sweep: one inside its lock if there is one. */
  lemma Choose(s: State) returns (u: nat)
    requires exists v :: 0 <= v < |s.threads| && MayBring(s, s.threads[v])
    ensures u < |s.threads| && MayBring(s, s.threads[u])
    ensures BringsLocked(s, s.threads[u]) || Quiet(s)
  {
    if Quiet(s) {
      u :| u < |s.threads| && MayBring(s, s.threads[u]);
    } else {
      u :| u < |s.threads| && BringsLocked(s, s.threads[u]);
    }
  }

  lemma AloneReady(s: State, u: nat)
    requires Inv(s) && u < |s.threads| && BringsLocked(s, s.threads[u])
    ensures Ready(s, u) && Locked(s.threads[u]) && InLock(s.threads[u], s.threads[u].model)
  {
    var m := s.threads[u].model;
    assert LocksHeld(s) && ThreadFits(s, s.threads[u]);
    hide LocksHeld;
    forall v | 0 <= v < |s.threads| && v != u ensures !InLock(s.threads[v], m) {
      if InLock(s.threads[v], m) {
        AloneInLock(s, u, v, m);
      }
    }
  }

  /** From `s` to `s1` every thread but `u` has left its lock. */
  ghost predicate Vacated(s: State, s1: State, t: nat, u: nat)
    requires t < |s.threads| && u < |s.threads|
  {
    && Inv(s1) && |s1.threads| == |s.threads| && s1.threads[t] == s.threads[t] && s1.threads[u] == s.threads[u]
    && (forall v | 0 <= v < |s.threads| && v != u :: !Locked(s1.threads[v]))
    && (Quiet(s) ==> s1.engines.Keys <= s.engines.Keys)
    && (Locked(s.threads[u]) ==> (s.threads[u].model in s1.engines <==> s.threads[u].model in s.engines))
  }

  lemma SweepIsClear(s: State, s1: State, t: nat, u: nat)
    requires t < |s.threads| && u < |s.threads| && Vacated(s, s1, t, u)
    requires s.threads[t].Sweeping? && MayBring(s, s.threads[u])
    requires Locked(s.threads[u]) ==> s.threads[u].model !in Ahead(s.threads[t])
    ensures Clear(s1, t)
  {
    hide Inv, Ahead, Quiet;
    forall v, m | 0 <= v < |s1.threads| && v != t && m in Ahead(s1.threads[t]) ensures !InLock(s1.threads[v], m) {
      LockedAt(s1.threads[v], m);
    }
  }

  lemma ReadyAfter(s: State, s1: State, s2: State, t: nat, u: nat)
    requires t < |s.threads| && u < |s.threads| && u != t && Vacated(s, s1, t, u)
    requires MayBring(s, s.threads[u]) && (BringsLocked(s, s.threads[u]) || Quiet(s))
    requires BringsLocked(s, s.threads[u]) ==> s.threads[u].model !in s.engines
    requires OnlyMoved(s1, s2, t) && s2.threads[t].Done? && s2.engines.Keys <= s1.engines.Keys
    requires Quiet(s) ==> s2.engines.Keys == {}
    ensures Ready(s2, u)
  {
    hide Inv, Quiet;
    var m := s.threads[u].model;
    assert s2.threads[u] == s.threads[u];
    assert m !in s2.engines by {
      if !BringsLocked(s, s.threads[u]) {
        assert m !in s2.engines.Keys;
      }
    }
    forall v | 0 <= v < |s2.threads| && v != u ensures !InLock(s2.threads[v], m) {
      LockedAt(s2.threads[v], m);
    }
  }

  /** Once the shutdown has listed the models, a load past its check has a way to outlast it. */
  lemma Outlasts(s: State, t: nat, u: nat) returns (run: seq<Step>)
    requires Inv(s) && t < |s.threads| && s.threads[t].Sweeping? && s.engines.Keys == Ahead(s.threads[t])
    requires u < |s.threads| && MayBring(s, s.threads[u]) && (BringsLocked(s, s.threads[u]) || Quiet(s))
    ensures Legal(s, run) && t < |Exec(s, run).threads| && Exec(s, run).threads[t].Done? && Unasked(Exec(s, run))
  {
    assert u != t;
    if BringsLocked(s, s.threads[u]) {
      AloneReady(s, u);
    }
    var first := AllLeave(s, t, u, 0);
    var s1 := Exec(s, first);
    assert Vacated(s, s1, t, u);
    SweepIsClear(s, s1, t, u);
    hide Inv, Legal, Exec, Quiet, Clear, Ready;
    var second := SweepEnds(s1, t);
    var s2 := Exec(s1, second);
    ReadyAfter(s, s1, s2, t, u);
    var third := LoadEnds(s2, u);
    hide Vacated, MayBring, BringsLocked, Unasked, OnlyMoved;
    assert u != t && u < |s2.threads| && s2.threads[t].Done?;
    assert Exec(s2, third).threads[t].Done? by {
      assert OnlyMoved(s2, Exec(s2, third), u);
    }
    Joined(s1, second, third);
    Joined(s, first, second + third);
    run := first + (second + third);
  }

  /** Thread `t` may end its shutdown, from here, only with engines resident whose unload raised. */
  ghost predicate LeavesOnlyRaised(s: State, t: nat) {
    forall run | Legal(s, run) && t < |Exec(s, run).threads| && Exec(s, run).threads[t].Done? :: OnlyRaised(Exec(s, run))
  }

  ghost predicate OnlyRaised(s: State) {
    forall m | m in s.engines :: s.engines[m] in s.raised
  }

  /** Whatever runs until then, a shutdown is sure to leave only engines whose unload raised exactly if no
      load is past its check when it lists the models. */
  lemma ShutdownExactly(before: seq<Step>, t: nat, order: seq<Model>)
    requires Legal(INITIAL, before)
    requires t < |Exec(INITIAL, before).threads| && Exec(INITIAL, before).threads[t].ShutdownList?
    requires Enabled(Exec(INITIAL, before), Move(t, true, order))
    ensures var s := Exec(INITIAL, before);
      LeavesOnlyRaised(Apply(s, Move(t, true, order)), t) <==> NoLoad(s)
  {
    var s := Exec(INITIAL, before);
    var s' := Apply(s, Move(t, true, order));
    if NoLoad(s) {
      forall run | Legal(s', run) && t < |Exec(s', run).threads| && Exec(s', run).threads[t].Done?
        ensures OnlyRaised(Exec(s', run))
      {
        ShutdownLeavesOnlyRaised(before, t, order, run);
      }
    } else {
      var run := LateLoadStays(before, t, order);
      assert !OnlyRaised(Exec(s', run));
    }
  }

  /** A load past its check when the models are listed: some run ends the shutdown with an engine resident
      that nothing asked to unload. */
  lemma LateLoadStays(before: seq<Step>, t: nat, order: seq<Model>) returns (run: seq<Step>)
    requires Legal(INITIAL, before) && !NoLoad(Exec(INITIAL, before))
    requires t < |Exec(INITIAL, before).threads| && Exec(INITIAL, before).threads[t].ShutdownList?
    requires Enabled(Exec(INITIAL, before), Move(t, true, order))
    ensures var s := Apply(Exec(INITIAL, before), Move(t, true, order));
      Legal(s, run) && t < |Exec(s, run).threads| && Exec(s, run).threads[t].Done?
      && Unasked(Exec(s, run)) && exists m :: m in Exec(s, run).engines && Exec(s, run).engines[m] !in Exec(s, run).raised
  {
    InitialInv();
    RunKeeps(INITIAL, before);
    var s := Exec(INITIAL, before);
    StepKeeps(s, Move(t, true, order));
    var s' := Listed(s, t, order);
    var u := Choose(s');
    hide NoLoad, MayBring, Quiet, Enabled, Next, BringsLocked;
    run := Outlasts(s', t, u);
    RunKeeps(s', run);
    var end := Exec(s', run);
    assert Inv(end);
    hide Exec, Legal, LocksHeld, HoldersReal, EnginesHome, ThreadsFit, HandlesSomewhere;
    var m :| m in end.engines && end.engines[m] !in end.asked;
    assert end.engines[m] !in end.raised;
  }

  lemma Listed(s: State, t: nat, order: seq<Model>) returns (s': State)
    requires Inv(s) && !NoLoad(s) && t < |s.threads| && s.threads[t].ShutdownList?
    requires Enabled(s, Move(t, true, order))
    ensures s' == Apply(s, Move(t, true, order)) && t < |s'.threads| && s'.threads[t].Sweeping?
    ensures s'.engines.Keys == Ahead(s'.threads[t])
    ensures exists v :: 0 <= v < |s'.threads| && MayBring(s', s'.threads[v])
  {
    s' := Next(s, t, true, order);
    assert ThreadFits(s, s.threads[t]);
    hide Inv;
    assert s'.threads[t] == Sweeping(order) && s'.engines == s.engines;
    var v :| 0 <= v < |s.threads| && MayBring(s, s.threads[v]);
    assert v != t && s'.threads[v] == s.threads[v];
  }

  /** There is such a state: one load past its check when a shutdown is about to list the models. */
  lemma LateLoadReached() returns (before: seq<Step>)
    ensures Legal(INITIAL, before) && |Exec(INITIAL, before).threads| == 2
    ensures Exec(INITIAL, before).threads[1].ShutdownList? && !NoLoad(Exec(INITIAL, before))
    ensures Enabled(Exec(INITIAL, before), Move(1, true, []))
  {
    var s1 := Apply(INITIAL, Ensure(0));
    var s2 := Apply(s1, Move(0, true, []));
    var s3 := Apply(s2, Shutdown);
    var s4 := Apply(s3, Move(1, true, []));
    assert s4.threads == [EnsureLook(0), ShutdownList];
    assert MayBring(s4, s4.threads[0]);
    Then(s3, Move(1, true, []), []);
    Then(s2, Shutdown, [Move(1, true, [])] + []);
    Then(s1, Move(0, true, []), [Shutdown] + ([Move(1, true, [])] + []));
    Then(INITIAL, Ensure(0), [Move(0, true, [])] + ([Shutdown] + ([Move(1, true, [])] + [])));
    before := [Ensure(0)] + ([Move(0, true, [])] + ([Shutdown] + ([Move(1, true, [])] + [])));
  }
}
