/** Engines loaded and unloaded by several threads: a look without the lock, a second look under the
    model's lock, and a registry that is itself locked for each access.  A step is what one thread does
    between two points where another may come in. */
module Residency {
  import opened Options

  type Model = nat

  /** Handles are numbered in the order the factory makes them. */
  type Handle = nat

  /** Where a thread stands in `ensure_model`, `unload_model` or `shutdown`; `sweep` holds what a shutdown
      has still to unload after this model. */
  datatype Thread =
    | EnsureCheck(model: Model) | EnsureLook(model: Model) | EnsureLock(model: Model) | EnsureLookAgain(model: Model)
    | Creating(model: Model) | Loading(model: Model, handle: Handle) | Cleaning(model: Model, handle: Handle)
    | Reporting(model: Model, handle: Handle) | Registering(model: Model, handle: Handle)
    | EnsureRelease(model: Model, got: Option<Handle>)
    | Served(model: Model, handle: Handle) | Refused
    | UnloadLock(model: Model, sweep: Option<seq<Model>>) | UnloadLook(model: Model, sweep: Option<seq<Model>>)
    | Unloading(model: Model, handle: Handle, sweep: Option<seq<Model>>)
    | Unregistering(model: Model, handle: Handle, sweep: Option<seq<Model>>)
    | UnloadRelease(model: Model, sweep: Option<seq<Model>>)
    | ShutdownFlag | ShutdownList | Sweeping(todo: seq<Model>) | Done

  /** `home` gives each handle made the model it was made for; `asked` the handles whose unload has been
      called, `raised` those for which a call under the registry raised, `gone` those given up, and `lost`
      those dropped after their load because the progress callback raised. */
  datatype State = State(
    shutting: bool,
    engines: map<Model, Handle>,
    locks: map<Model, nat>,
    threads: seq<Thread>,
    home: seq<Model>,
    asked: set<Handle>,
    raised: set<Handle>,
    gone: set<Handle>,
    lost: set<Handle>)

  const INITIAL := State(false, map[], map[], [], [], {}, {}, {}, {})

  /** A call arrives, or thread `t` moves: `ok` says that the engine, the factory or the progress callback that
      it calls does not raise, and `order` is the order in which a shutdown lists the models. */
  datatype Step = Ensure(model: Model) | Unload(model: Model) | Shutdown | Move(t: nat, ok: bool, order: seq<Model>)

  predicate Ended(thread: Thread) {
    thread.Served? || thread.Refused? || thread.Done?
  }

  predicate Enabled(s: State, step: Step) {
    step.Move? ==>
      && step.t < |s.threads| && !Ended(s.threads[step.t])
      && match s.threads[step.t]
         case EnsureLock(m) => m !in s.locks
         case UnloadLock(m, _) => m !in s.locks
         case ShutdownList =>
           (forall m | m in s.engines :: m in step.order) && forall m | m in step.order :: m in s.engines
         case _ => true
  }

  function At(s: State, t: nat, thread: Thread): State
    requires t < |s.threads|
  {
    s.(threads := s.threads[t := thread])
  }

  /** The thread found the model absent and has not registered it since. */
  predicate Absent(thread: Thread) {
    thread.Creating? || thread.Loading? || thread.Cleaning? || thread.Reporting? || thread.Registering?
  }

  /** Where a thread stands after its move. */
  function After(s: State, thread: Thread, ok: bool, order: seq<Model>): Thread {
    match thread
    case EnsureCheck(m) => if s.shutting then Refused else EnsureLook(m)
    case EnsureLook(m) => if m in s.engines then Served(m, s.engines[m]) else EnsureLock(m)
    case EnsureLock(m) => EnsureLookAgain(m)
    case EnsureLookAgain(m) => if m in s.engines then EnsureRelease(m, Some(s.engines[m])) else Creating(m)
    case Creating(m) => if ok then Loading(m, |s.home|) else EnsureRelease(m, None)
    case Loading(m, h) => if ok then Reporting(m, h) else Cleaning(m, h)
    case Reporting(m, h) => if ok then Registering(m, h) else EnsureRelease(m, None)
    case Cleaning(m, h) => EnsureRelease(m, None)
    case Registering(m, h) => EnsureRelease(m, Some(h))
    case EnsureRelease(m, got) => if got.Some? then Served(m, got.value) else Refused
    case UnloadLock(m, sweep) => UnloadLook(m, sweep)
    case UnloadLook(m, sweep) => if m in s.engines then Unloading(m, s.engines[m], sweep) else UnloadRelease(m, sweep)
    case Unloading(m, h, sweep) => if ok then Unregistering(m, h, sweep) else UnloadRelease(m, sweep)
    case Unregistering(m, h, sweep) => UnloadRelease(m, sweep)
    case UnloadRelease(m, sweep) => if sweep.Some? then Sweeping(sweep.value) else Done
    case ShutdownFlag => ShutdownList
    case ShutdownList => Sweeping(order)
    case Sweeping(todo) => if todo == [] then Done else UnloadLock(todo[0], Some(todo[1..]))
    case _ => thread
  }

  /** What the move of a thread changes besides. */
  function Effect(s: State, t: nat, thread: Thread, ok: bool): State {
    match thread
    case EnsureLock(m) => s.(locks := s.locks[m := t])
    case Creating(m) => if ok then s.(home := s.home + [m]) else s
    case Reporting(m, h) => if ok then s else s.(lost := s.lost + {h})
    case Cleaning(m, h) => s.(asked := s.asked + {h}, gone := s.gone + {h})
    case Registering(m, h) => s.(engines := s.engines[m := h])
    case EnsureRelease(m, _) => s.(locks := s.locks - {m})
    case UnloadLock(m, _) => s.(locks := s.locks[m := t])
    case Unloading(m, h, _) => if ok then s.(asked := s.asked + {h}) else s.(asked := s.asked + {h}, raised := s.raised + {h})
    case Unregistering(m, h, _) => s.(engines := s.engines - {m}, gone := s.gone + {h})
    case UnloadRelease(m, _) => s.(locks := s.locks - {m})
    case ShutdownFlag => s.(shutting := true)
    case _ => s
  }

  function Next(s: State, t: nat, ok: bool, order: seq<Model>): State
    requires Enabled(s, Move(t, ok, order))
  {
    Effect(s, t, s.threads[t], ok).(threads := s.threads[t := After(s, s.threads[t], ok, order)])
  }

  function Apply(s: State, step: Step): State
    requires Enabled(s, step)
  {
    match step
    case Ensure(m) => s.(threads := s.threads + [EnsureCheck(m)])
    case Unload(m) => s.(threads := s.threads + [UnloadLock(m, None)])
    case Shutdown => s.(threads := s.threads + [ShutdownFlag])
    case Move(t, ok, order) => Next(s, t, ok, order)
  }

  ghost predicate Legal(s: State, run: seq<Step>)
    decreases |run|
  {
    run == [] || (Enabled(s, run[0]) && Legal(Apply(s, run[0]), run[1..]))
  }

  ghost function Exec(s: State, run: seq<Step>): State
    requires Legal(s, run)
    decreases |run|
  {
    if run == [] then s else Exec(Apply(s, run[0]), run[1..])
  }

  // ----- invariant

  /** The thread is inside the `with lock` of this model. */
  predicate InLock(thread: Thread, m: Model) {
    match thread
    case EnsureLookAgain(k) => k == m
    case Creating(k) => k == m
    case Loading(k, _) => k == m
    case Cleaning(k, _) => k == m
    case Reporting(k, _) => k == m
    case Registering(k, _) => k == m
    case EnsureRelease(k, _) => k == m
    case UnloadLook(k, _) => k == m
    case Unloading(k, _, _) => k == m
    case Unregistering(k, _, _) => k == m
    case UnloadRelease(k, _) => k == m
    case _ => false
  }

  /** The thread has had this handle made and has neither registered it nor given it up nor lost it. */
  predicate Brings(thread: Thread, h: Handle) {
    match thread
    case Loading(_, k) => k == h
    case Cleaning(_, k) => k == h
    case Reporting(_, k) => k == h
    case Registering(_, k) => k == h
    case _ => false
  }

  predicate Removes(thread: Thread) {
    thread.Unloading? || thread.Unregistering?
  }

  ghost predicate LocksHeld(s: State) {
    forall t, m: Model | 0 <= t < |s.threads| :: InLock(s.threads[t], m) <==> m in s.locks && s.locks[m] == t
  }

  ghost predicate HoldersReal(s: State) {
    forall m | m in s.locks :: s.locks[m] < |s.threads|
  }

  ghost predicate EnginesHome(s: State) {
    forall m | m in s.engines :: s.engines[m] < |s.home| && s.home[s.engines[m]] == m
      && s.engines[m] !in s.gone && s.engines[m] !in s.lost
  }

  ghost predicate ThreadFits(s: State, thread: Thread) {
    && (Absent(thread) ==> thread.model !in s.engines)
    && (Removes(thread) ==> thread.model in s.engines && s.engines[thread.model] == thread.handle)
    && (thread.Unregistering? ==> thread.handle in s.asked)
    && (Absent(thread) && !thread.Creating? ==>
          thread.handle < |s.home| && s.home[thread.handle] == thread.model
          && thread.handle !in s.asked && thread.handle !in s.lost)
    && (thread.ShutdownList? ==> s.shutting)
  }

  ghost predicate ThreadsFit(s: State) {
    forall t | 0 <= t < |s.threads| :: ThreadFits(s, s.threads[t])
  }

  ghost predicate BroughtBySome(s: State, h: Handle) {
    exists t | 0 <= t < |s.threads| :: Brings(s.threads[t], h)
  }

  predicate Resident(s: State, h: Handle) {
    h < |s.home| && s.home[h] in s.engines && s.engines[s.home[h]] == h
  }

  ghost predicate HandlesSomewhere(s: State) {
    forall h: Handle | h < |s.home| :: h in s.gone || h in s.lost || Resident(s, h) || BroughtBySome(s, h)
  }

  ghost predicate GoneAsked(s: State) {
    && s.gone <= s.asked && s.raised <= s.asked && s.lost !! s.asked
    && (forall h | h in s.asked :: h < |s.home|) && forall h | h in s.lost :: h < |s.home|
  }

  ghost predicate Inv(s: State) {
    LocksHeld(s) && HoldersReal(s) && EnginesHome(s) && ThreadsFit(s) && HandlesSomewhere(s) && GoneAsked(s)
  }

  lemma InitialInv()
    ensures Inv(INITIAL)
  {
  }

  // ----- every step keeps it

  /** Only thread `t` is elsewhere. */
  ghost predicate OnlyMoved(s: State, s': State, t: nat) {
    && |s'.threads| == |s.threads|
    && forall v | 0 <= v < |s.threads| && v != t :: s'.threads[v] == s.threads[v]
  }

  lemma OthersStay(s: State, t: nat, ok: bool, order: seq<Model>)
    requires Enabled(s, Move(t, ok, order))
    ensures OnlyMoved(s, Next(s, t, ok, order), t)
    ensures Next(s, t, ok, order).threads[t] == After(s, s.threads[t], ok, order)
  {
    hide After, Effect;
  }

  /** A move takes the lock of its model, releases it, or leaves the locks and its hold on them alone. */
  ghost predicate LocksMoved(s: State, s': State, t: nat)
    requires t < |s.threads| && t < |s'.threads|
  {
    var was, now := s.threads[t], s'.threads[t];
    if was.EnsureLock? || was.UnloadLock? then
      s'.locks == s.locks[was.model := t] && forall m: Model :: !InLock(was, m) && (InLock(now, m) <==> m == was.model)
    else if was.EnsureRelease? || was.UnloadRelease? then
      s'.locks == s.locks - {was.model} && forall m: Model :: !InLock(now, m) && (InLock(was, m) <==> m == was.model)
    else s'.locks == s.locks && forall m: Model :: InLock(now, m) <==> InLock(was, m)
  }

  lemma AfterLocks(s: State, was: Thread, ok: bool, order: seq<Model>, m: Model)
    requires !Ended(was)
    ensures InLock(After(s, was, ok, order), m) <==>
      if was.EnsureLock? || was.UnloadLock? then m == was.model
      else if was.EnsureRelease? || was.UnloadRelease? then false
      else InLock(was, m)
  {
  }

  lemma EffectLocks(s: State, t: nat, was: Thread, ok: bool)
    ensures Effect(s, t, was, ok).locks ==
      if was.EnsureLock? || was.UnloadLock? then s.locks[was.model := t]
      else if was.EnsureRelease? || was.UnloadRelease? then s.locks - {was.model}
      else s.locks
  {
  }

  lemma MoverLocks(s: State, t: nat, ok: bool, order: seq<Model>)
    requires Enabled(s, Move(t, ok, order)) && t < |Next(s, t, ok, order).threads|
    ensures LocksMoved(s, Next(s, t, ok, order), t)
    ensures s.threads[t].EnsureLock? || s.threads[t].UnloadLock? ==> s.threads[t].model !in s.locks
  {
    var was := s.threads[t];
    EffectLocks(s, t, was, ok);
    forall m: Model
      ensures InLock(After(s, was, ok, order), m) <==>
        if was.EnsureLock? || was.UnloadLock? then m == was.model
        else if was.EnsureRelease? || was.UnloadRelease? then false
        else InLock(was, m)
    {
      AfterLocks(s, was, ok, order, m);
    }
    hide After, Effect;
  }

  lemma LocksKept(s: State, t: nat, ok: bool, order: seq<Model>)
    requires Inv(s) && Enabled(s, Move(t, ok, order))
    ensures LocksHeld(Next(s, t, ok, order)) && HoldersReal(Next(s, t, ok, order))
  {
    OthersStay(s, t, ok, order);
    MoverLocks(s, t, ok, order);
    assert LocksHeld(s) && HoldersReal(s);
    hide Inv, Next, InLock, Enabled, HoldersReal;
    var s', was := Next(s, t, ok, order), s.threads[t];
    forall v, m: Model | 0 <= v < |s'.threads|
      ensures InLock(s'.threads[v], m) <==> m in s'.locks && s'.locks[m] == v
    {
      assert InLock(was, m) <==> m in s.locks && s.locks[m] == t;
      assert InLock(s.threads[v], m) <==> m in s.locks && s.locks[m] == v;
    }
    assert HoldersReal(s') by {
      assert HoldersReal(s);
    }
  }

  /** No other thread is inside the lock that this one is in. */
  lemma AloneInLock(s: State, t: nat, v: nat, m: Model)
    requires LocksHeld(s) && t < |s.threads| && v < |s.threads| && InLock(s.threads[t], m) && InLock(s.threads[v], m)
    ensures v == t
  {
    hide InLock;
    assert s.locks[m] == t && s.locks[m] == v;
  }

  /** What a move may do to what other threads rely on. */
  ghost predicate Touches(s: State, s': State, was: Thread) {
    && s.home <= s'.home && (s.shutting ==> s'.shutting)
    && (s'.asked == s.asked || ((was.Cleaning? || was.Unloading?) && s'.asked == s.asked + {was.handle}))
    && (s'.lost == s.lost || (was.Reporting? && s'.lost == s.lost + {was.handle}))
    && (s'.engines == s.engines
        || (was.Registering? && s'.engines == s.engines[was.model := was.handle])
        || (was.Unregistering? && s'.engines == s.engines - {was.model}))
    && (s'.gone == s.gone || ((was.Cleaning? || was.Unregistering?) && s'.gone == s.gone + {was.handle}))
  }

  lemma EffectTouches(s: State, t: nat, was: Thread, ok: bool)
    ensures Touches(s, Effect(s, t, was, ok), was)
  {
  }

  lemma MoverTouches(s: State, t: nat, ok: bool, order: seq<Model>)
    requires Enabled(s, Move(t, ok, order))
    ensures Touches(s, Next(s, t, ok, order), s.threads[t])
  {
    EffectTouches(s, t, s.threads[t], ok);
    hide After, Effect, Enabled;
  }

  lemma EnginesKept(s: State, t: nat, ok: bool, order: seq<Model>)
    requires Inv(s) && Enabled(s, Move(t, ok, order))
    ensures EnginesHome(Next(s, t, ok, order))
  {
    assert ThreadFits(s, s.threads[t]) && EnginesHome(s) && GoneAsked(s);
    MoverTouches(s, t, ok, order);
    hide Inv, Next, Enabled;
  }

  lemma AskedKept(s: State, t: nat, ok: bool, order: seq<Model>)
    requires Inv(s) && Enabled(s, Move(t, ok, order))
    ensures GoneAsked(Next(s, t, ok, order))
  {
    assert ThreadFits(s, s.threads[t]) && EnginesHome(s) && GoneAsked(s);
    EffectAsks(s, t, s.threads[t], ok);
    hide Inv, ThreadFits, EnginesHome, After, Effect;
  }

  lemma EffectAsks(s: State, t: nat, was: Thread, ok: bool)
    requires ThreadFits(s, was) && EnginesHome(s) && GoneAsked(s)
    ensures GoneAsked(Effect(s, t, was, ok))
  {
  }

  lemma OthersFit(s: State, t: nat, ok: bool, order: seq<Model>, v: nat)
    requires Inv(s) && Enabled(s, Move(t, ok, order)) && v < |s.threads| && v != t
    ensures ThreadFits(Next(s, t, ok, order), s.threads[v])
  {
    var mover, thread := s.threads[t], s.threads[v];
    assert ThreadFits(s, mover) && ThreadFits(s, thread) && EnginesHome(s) && LocksHeld(s);
    hide Inv, LocksHeld;
    MoverTouches(s, t, ok, order);
    hide Next, Enabled;
    if (Absent(thread) || Removes(thread)) && (Absent(mover) || Removes(mover)) {
      assert InLock(mover, mover.model) && InLock(thread, thread.model);
      if mover.model == thread.model {
        AloneInLock(s, t, v, mover.model);
      }
    }
  }

  /** Where the mover stands next fits what it has changed. */
  lemma AfterFits(s: State, t: nat, was: Thread, ok: bool, order: seq<Model>)
    requires ThreadFits(s, was) && GoneAsked(s)
    ensures ThreadFits(Effect(s, t, was, ok), After(s, was, ok, order))
  {
    assert |s.home| !in s.asked && |s.home| !in s.lost;
    hide GoneAsked;
  }

  lemma MoverFits(s: State, t: nat, ok: bool, order: seq<Model>)
    requires t < |s.threads| && ThreadFits(s, s.threads[t]) && GoneAsked(s)
    requires Enabled(s, Move(t, ok, order)) && t < |Next(s, t, ok, order).threads|
    ensures ThreadFits(Next(s, t, ok, order), Next(s, t, ok, order).threads[t])
  {
    AfterFits(s, t, s.threads[t], ok, order);
    hide After, Effect, Enabled, GoneAsked;
  }

  lemma ThreadsKept(s: State, t: nat, ok: bool, order: seq<Model>)
    requires Inv(s) && Enabled(s, Move(t, ok, order))
    ensures ThreadsFit(Next(s, t, ok, order))
  {
    OthersStay(s, t, ok, order);
    MoverFits(s, t, ok, order);
    var s' := Next(s, t, ok, order);
    forall v: nat | v < |s.threads| && v != t ensures ThreadFits(s', s'.threads[v]) {
      OthersFit(s, t, ok, order, v);
    }
    hide Next, Inv, ThreadFits;
  }

  lemma HandlesKept(s: State, t: nat, ok: bool, order: seq<Model>)
    requires Inv(s) && Enabled(s, Move(t, ok, order))
    ensures HandlesSomewhere(Next(s, t, ok, order))
  {
    var s' := Next(s, t, ok, order);
    HomeMoves(s, t, ok, order);
    OthersStay(s, t, ok, order);
    hide LocksHeld, HoldersReal, GoneAsked, EnginesHome, Next, Enabled;
    forall h: Handle | h < |s'.home| ensures h in s'.gone || h in s'.lost || Resident(s', h) || BroughtBySome(s', h) {
      if h == |s.home| {
        assert Brings(s'.threads[t], h);
      } else if BroughtBySome(s, h) {
        var v :| 0 <= v < |s.threads| && Brings(s.threads[v], h);
        if v == t {
          BringerMoves(s, t, ok, order, h);
        } else {
          assert Brings(s'.threads[v], h);
        }
      } else {
        assert h in s.gone || h in s.lost || Resident(s, h);
        ResidentMoves(s, t, ok, order, h);
      }
    }
  }

  lemma HomeMoves(s: State, t: nat, ok: bool, order: seq<Model>)
    requires Enabled(s, Move(t, ok, order))
    ensures var s' := Next(s, t, ok, order);
      |s'.home| <= |s.home| + 1 && (|s'.home| == |s.home| + 1 ==> t < |s'.threads| && Brings(s'.threads[t], |s.home|))
  {
  }

  lemma BringerMoves(s: State, t: nat, ok: bool, order: seq<Model>, h: Handle)
    requires ThreadsFit(s) && Enabled(s, Move(t, ok, order)) && Brings(s.threads[t], h)
    ensures var s' := Next(s, t, ok, order); h in s'.gone || h in s'.lost || Resident(s', h) || Brings(s'.threads[t], h)
  {
  }

  lemma ResidentMoves(s: State, t: nat, ok: bool, order: seq<Model>, h: Handle)
    requires ThreadsFit(s) && Enabled(s, Move(t, ok, order)) && (h in s.gone || h in s.lost || Resident(s, h))
    ensures var s' := Next(s, t, ok, order); h in s'.gone || h in s'.lost || Resident(s', h)
  {
    assert ThreadFits(s, s.threads[t]);
    if s.threads[t].Unregistering? {
    } else {
      MoverTouches(s, t, ok, order);
      hide Next, Enabled, ThreadsFit;
    }
  }

  lemma StepKeeps(s: State, step: Step)
    requires Inv(s) && Enabled(s, step)
    ensures Inv(Apply(s, step))
  {
    match step
    case Move(t, ok, order) =>
      LocksKept(s, t, ok, order);
      EnginesKept(s, t, ok, order);
      AskedKept(s, t, ok, order);
      ThreadsKept(s, t, ok, order);
      HandlesKept(s, t, ok, order);
      hide Next, Enabled, LocksHeld, HoldersReal, EnginesHome, ThreadsFit, HandlesSomewhere, GoneAsked;
    case Ensure(m) => ArrivalKeeps(s, EnsureCheck(m));
    case Unload(m) => ArrivalKeeps(s, UnloadLock(m, None));
    case Shutdown => ArrivalKeeps(s, ShutdownFlag);
  }

  lemma ArrivalKeeps(s: State, thread: Thread)
    requires Inv(s) && (thread.EnsureCheck? || thread.UnloadLock? || thread.ShutdownFlag?)
    ensures Inv(s.(threads := s.threads + [thread]))
  {
    var s' := s.(threads := s.threads + [thread]);
    forall h: Handle | BroughtBySome(s, h) ensures BroughtBySome(s', h) {
      var t :| 0 <= t < |s.threads| && Brings(s.threads[t], h);
      assert Brings(s'.threads[t], h);
    }
    assert LocksHeld(s');
  }

  lemma {:induction false} RunKeeps(s: State, run: seq<Step>)
    requires Inv(s) && Legal(s, run)
    ensures Inv(Exec(s, run))
    decreases |run|
  {
    if run != [] {
      StepKeeps(s, run[0]);
      hide Inv, Apply, Enabled;
      RunKeeps(Apply(s, run[0]), run[1..]);
    }
  }

  // ----- theorems

  /** Over every run each handle the factory made is exactly one of: brought by exactly one thread that is
      inside the lock of its model, resident, given up after its unload was called, or lost; and a model never
      has two handles that are brought or resident.  So the first three account for a handle exactly if it
      is not lost, and it is lost only when a progress callback raised between its load and its
      registration. */
  lemma {:induction false} HandlesConserved(run: seq<Step>, h: Handle, k: Handle)
    requires Legal(INITIAL, run) && h < |Exec(INITIAL, run).home| && k < |Exec(INITIAL, run).home|
    ensures var s := Exec(INITIAL, run);
      && (h in s.gone || Resident(s, h) || BroughtBySome(s, h) <==> h !in s.lost)
      && !(h in s.gone && Resident(s, h)) && !(h in s.gone && BroughtBySome(s, h)) && !(Resident(s, h) && BroughtBySome(s, h))
      && (h in s.gone ==> h in s.asked) && (h in s.lost ==> h !in s.asked)
      && (s.home[h] == s.home[k] && Live(s, h) && Live(s, k) ==> h == k)
  {
    InitialInv();
    RunKeeps(INITIAL, run);
    var s := Exec(INITIAL, run);
    hide Exec, Legal;
    assert h in s.gone ==> h in s.asked;
    assert h in s.lost ==> h !in s.asked;
    Exclusive(s, h);
    if s.home[h] == s.home[k] && Live(s, h) && Live(s, k) {
      OneLive(s, h, k);
    }
  }

  ghost predicate Live(s: State, h: Handle) {
    Resident(s, h) || BroughtBySome(s, h)
  }

  lemma Bringer(s: State, h: Handle) returns (t: nat)
    requires ThreadsFit(s) && BroughtBySome(s, h)
    ensures t < |s.threads| && Brings(s.threads[t], h) && h < |s.home| && h !in s.asked && h !in s.lost
    ensures InLock(s.threads[t], s.home[h]) && s.home[h] !in s.engines
  {
    t :| 0 <= t < |s.threads| && Brings(s.threads[t], h);
    assert ThreadFits(s, s.threads[t]);
  }

  lemma Exclusive(s: State, h: Handle)
    requires Inv(s) && h < |s.home|
    ensures !(h in s.gone && Resident(s, h)) && !(h in s.gone && BroughtBySome(s, h)) && !(Resident(s, h) && BroughtBySome(s, h))
    ensures h in s.gone || Resident(s, h) || BroughtBySome(s, h) <==> h !in s.lost
  {
    if BroughtBySome(s, h) {
      var t := Bringer(s, h);
    }
    assert h in s.gone ==> h in s.asked;
  }

  lemma OneLive(s: State, h: Handle, k: Handle)
    requires Inv(s) && h < |s.home| && k < |s.home| && s.home[h] == s.home[k] && Live(s, h) && Live(s, k)
    ensures h == k
  {
    if BroughtBySome(s, h) {
      var t := Bringer(s, h);
      if BroughtBySome(s, k) {
        var v := Bringer(s, k);
        AloneInLock(s, t, v, s.home[h]);
      }
    } else if BroughtBySome(s, k) {
      var v := Bringer(s, k);
    }
  }

  /** Where no progress callback raises there, no handle is lost. */
  lemma {:induction false} NothingLost(s: State, run: seq<Step>)
    requires s.lost == {} && Legal(s, run) && CallbacksReturn(s, run)
    ensures Exec(s, run).lost == {}
    decreases |run|
  {
    if run != [] {
      LostStep(s, run[0]);
      hide Apply, Enabled;
      NothingLost(Apply(s, run[0]), run[1..]);
    }
  }

  ghost predicate CallbacksReturn(s: State, run: seq<Step>)
    requires Legal(s, run)
    decreases |run|
  {
    run == [] || (
      (run[0].Move? && run[0].t < |s.threads| && s.threads[run[0].t].Reporting? ==> run[0].ok)
      && CallbacksReturn(Apply(s, run[0]), run[1..]))
  }

  lemma LostStep(s: State, step: Step)
    requires Enabled(s, step) && (step.Move? && s.threads[step.t].Reporting? ==> step.ok)
    ensures Apply(s, step).lost == s.lost
  {
  }
}
