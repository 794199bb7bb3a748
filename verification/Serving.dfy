/** The server object and its registry: what `ensure_model` and `unload_model` do while they hold a model's
    lock, where no other thread touches that model. */
module Serving {
  import opened Options
  import opened Residency

  class ModelResidencyRegistry {
    var engines: map<Model, Handle>

    constructor ()
      ensures engines == map[]
    {
      engines := map[];
    }

    method RegisterModel(model: Model, engine: Handle)
      modifies this
      ensures engines == old(engines)[model := engine]
    {
      engines := engines[model := engine];
    }

    /** `dict.pop(model_id, None)`: an absent model is no error. */
    method UnregisterModel(model: Model)
      modifies this
      ensures engines == old(engines) - {model}
    {
      engines := engines - {model};
    }

    method GetLoadedModel(model: Model) returns (engine: Option<Handle>)
      ensures engine == if model in engines then Some(engines[model]) else None
    {
      return if model in engines then Some(engines[model]) else None;
    }
  }

  /** The moves of thread `t` from its second look to the release of the lock. */
  function LockedEnsure(s: State, t: nat, makes: bool, loads: bool, reports: bool): seq<Step>
    requires t < |s.threads| && s.threads[t].EnsureLookAgain?
  {
    if s.threads[t].model in s.engines then [Move(t, true, [])]
    else [Move(t, true, []), Move(t, makes, [])] + (if makes then LockedLoad(t, loads, reports) else [])
  }

  function LockedLoad(t: nat, loads: bool, reports: bool): seq<Step> {
    if !loads then [Move(t, false, []), Move(t, true, [])]
    else if !reports then [Move(t, true, []), Move(t, false, [])]
    else [Move(t, true, []), Move(t, true, []), Move(t, true, [])]
  }

  function LockedUnload(s: State, t: nat, unloads: bool): seq<Step>
    requires t < |s.threads| && s.threads[t].UnloadLook?
  {
    if s.threads[t].model in s.engines
    then [Move(t, true, []), Move(t, unloads, [])] + (if unloads then [Move(t, true, [])] else [])
    else [Move(t, true, [])]
  }

  /** The state after those moves, in one piece. */
  function Ensured(s: State, t: nat, makes: bool, loads: bool, reports: bool): State
    requires t < |s.threads| && s.threads[t].EnsureLookAgain?
  {
    var m, h := s.threads[t].model, |s.home|;
    if m in s.engines then At(s, t, EnsureRelease(m, Some(s.engines[m])))
    else if !makes then At(s, t, EnsureRelease(m, None))
    else Loaded(s.(home := s.home + [m]), t, m, h, loads, reports)
  }

  function Loaded(s: State, t: nat, m: Model, h: Handle, loads: bool, reports: bool): State
    requires t < |s.threads|
  {
    if !loads then At(s, t, EnsureRelease(m, None)).(asked := s.asked + {h}, gone := s.gone + {h})
    else if !reports then At(s, t, EnsureRelease(m, None)).(lost := s.lost + {h})
    else At(s, t, EnsureRelease(m, Some(h))).(engines := s.engines[m := h])
  }

  function Unloaded(s: State, t: nat, unloads: bool): State
    requires t < |s.threads| && s.threads[t].UnloadLook?
  {
    var m, sweep := s.threads[t].model, s.threads[t].sweep;
    var after := At(s, t, UnloadRelease(m, sweep));
    if m !in s.engines then after
    else
      var h := s.engines[m];
      if unloads then after.(asked := s.asked + {h}, engines := s.engines - {m}, gone := s.gone + {h})
      else after.(asked := s.asked + {h}, raised := s.raised + {h})
  }

  lemma AtTwice(s: State, t: nat, a: Thread, b: Thread)
    requires t < |s.threads|
    ensures At(At(s, t, a), t, b) == At(s, t, b)
  {
    assert s.threads[t := a][t := b] == s.threads[t := b];
  }

  lemma OneMove(s: State, t: nat, ok: bool, rest: seq<Step>)
    requires Enabled(s, Move(t, ok, [])) && Legal(Next(s, t, ok, []), rest)
    ensures Legal(s, [Move(t, ok, [])] + rest)
    ensures Exec(s, [Move(t, ok, [])] + rest) == Exec(Next(s, t, ok, []), rest)
  {
    hide Next, Enabled;
    var run := [Move(t, ok, [])] + rest;
    assert run[1..] == rest;
  }

  /** What the locked block does in one piece is what its moves do one by one. */
  lemma EnsuredByMoves(s: State, t: nat, makes: bool, loads: bool, reports: bool)
    requires t < |s.threads| && s.threads[t].EnsureLookAgain?
    ensures Legal(s, LockedEnsure(s, t, makes, loads, reports))
    ensures Exec(s, LockedEnsure(s, t, makes, loads, reports)) == Ensured(s, t, makes, loads, reports)
  {
    var m := s.threads[t].model;
    if m in s.engines {
      OneMove(s, t, true, []);
    } else {
      var s1 := At(s, t, Creating(m));
      assert Next(s, t, true, []) == s1;
      CreatedByMoves(s, t, makes, loads, reports);
      hide Next, Legal, Exec, Enabled, LockedLoad;
      var rest := [Move(t, makes, [])] + (if makes then LockedLoad(t, loads, reports) else []);
      OneMove(s, t, true, rest);
      assert [Move(t, true, [])] + rest == LockedEnsure(s, t, makes, loads, reports);
    }
  }

  lemma CreatedByMoves(s: State, t: nat, makes: bool, loads: bool, reports: bool)
    requires t < |s.threads| && s.threads[t].EnsureLookAgain? && s.threads[t].model !in s.engines
    ensures Enabled(s, Move(t, true, []))
    ensures var s1, rest := At(s, t, Creating(s.threads[t].model)),
        [Move(t, makes, [])] + (if makes then LockedLoad(t, loads, reports) else []);
      Legal(s1, rest) && Exec(s1, rest) == Ensured(s, t, makes, loads, reports)
  {
    var m, h := s.threads[t].model, |s.home|;
    var s1 := At(s, t, Creating(m));
    if !makes {
      OneMove(s1, t, false, []);
      AtTwice(s, t, Creating(m), EnsureRelease(m, None));
    } else {
      var s2 := Next(s1, t, true, []);
      AtTwice(s, t, Creating(m), Loading(m, h));
      assert s2 == At(s, t, Loading(m, h)).(home := s.home + [m]);
      LoadedByMoves(s2, t, loads, reports);
      hide LockedLoad;
      OneMove(s1, t, true, LockedLoad(t, loads, reports));
      hide Next, Legal, Exec, Enabled;
      assert s2.threads[t := EnsureRelease(m, None)] == s.threads[t := EnsureRelease(m, None)];
      assert s2.threads[t := EnsureRelease(m, Some(h))] == s.threads[t := EnsureRelease(m, Some(h))];
    }
  }

  lemma LoadedByMoves(s: State, t: nat, loads: bool, reports: bool)
    requires t < |s.threads| && s.threads[t].Loading?
    ensures Legal(s, LockedLoad(t, loads, reports))
    ensures Exec(s, LockedLoad(t, loads, reports)) == Loaded(s, t, s.threads[t].model, s.threads[t].handle, loads, reports)
  {
    var m, h := s.threads[t].model, s.threads[t].handle;
    if !loads {
      CleanedByMoves(s, t);
    } else {
      var s1 := At(s, t, Reporting(m, h));
      assert Next(s, t, true, []) == s1 && Enabled(s, Move(t, true, []));
      ReportedByMoves(s1, t, reports);
      hide Next, Enabled, Legal, Exec;
      var rest := if reports then [Move(t, true, []), Move(t, true, [])] else [Move(t, false, [])];
      OneMove(s, t, true, rest);
      assert [Move(t, true, [])] + rest == LockedLoad(t, loads, reports);
      AtTwice(s, t, Reporting(m, h), EnsureRelease(m, None));
      AtTwice(s, t, Reporting(m, h), EnsureRelease(m, Some(h)));
    }
  }

  lemma CleanedByMoves(s: State, t: nat)
    requires t < |s.threads| && s.threads[t].Loading?
    ensures var m, h, run := s.threads[t].model, s.threads[t].handle, [Move(t, false, []), Move(t, true, [])];
      Legal(s, run) && Exec(s, run) == Loaded(s, t, m, h, false, true)
  {
    var m, h := s.threads[t].model, s.threads[t].handle;
    var s1 := Next(s, t, false, []);
    OneMove(s1, t, true, []);
    OneMove(s, t, false, [Move(t, true, [])]);
    assert [Move(t, false, [])] + [Move(t, true, [])] == [Move(t, false, []), Move(t, true, [])];
    AtTwice(s, t, Cleaning(m, h), EnsureRelease(m, None));
  }

  lemma ReportedByMoves(s: State, t: nat, reports: bool)
    requires t < |s.threads| && s.threads[t].Reporting?
    ensures var m, h := s.threads[t].model, s.threads[t].handle;
      var run := if reports then [Move(t, true, []), Move(t, true, [])] else [Move(t, false, [])];
      Legal(s, run) && Exec(s, run) == Loaded(s, t, m, h, true, reports)
  {
    var m, h := s.threads[t].model, s.threads[t].handle;
    if reports {
      var s1 := Next(s, t, true, []);
      OneMove(s1, t, true, []);
      OneMove(s, t, true, [Move(t, true, [])]);
      assert [Move(t, true, [])] + [Move(t, true, [])] == [Move(t, true, []), Move(t, true, [])];
      AtTwice(s, t, Registering(m, h), EnsureRelease(m, Some(h)));
    } else {
      OneMove(s, t, false, []);
    }
  }

  lemma UnloadedByMoves(s: State, t: nat, unloads: bool)
    requires t < |s.threads| && s.threads[t].UnloadLook?
    ensures Legal(s, LockedUnload(s, t, unloads))
    ensures Exec(s, LockedUnload(s, t, unloads)) == Unloaded(s, t, unloads)
  {
    var m, sweep := s.threads[t].model, s.threads[t].sweep;
    if m !in s.engines {
      OneMove(s, t, true, []);
    } else {
      var h := s.engines[m];
      var s1 := Next(s, t, true, []);
      assert s1 == At(s, t, Unloading(m, h, sweep));
      UnloadingByMoves(s1, t, unloads);
      var rest := [Move(t, unloads, [])] + (if unloads then [Move(t, true, [])] else []);
      OneMove(s, t, true, rest);
      AtTwice(s, t, s1.threads[t], UnloadRelease(m, sweep));
      hide Next, Legal, Exec, Enabled;
      assert [Move(t, true, [])] + rest == LockedUnload(s, t, unloads);
    }
  }

  lemma UnloadingByMoves(s: State, t: nat, unloads: bool)
    requires t < |s.threads| && s.threads[t].Unloading?
    ensures var m, h, sweep := s.threads[t].model, s.threads[t].handle, s.threads[t].sweep;
      var run := [Move(t, unloads, [])] + (if unloads then [Move(t, true, [])] else []);
      var after := At(s, t, UnloadRelease(m, sweep));
      && Legal(s, run)
      && Exec(s, run) == if unloads then after.(asked := s.asked + {h}, engines := s.engines - {m}, gone := s.gone + {h})
                         else after.(asked := s.asked + {h}, raised := s.raised + {h})
  {
    var m, h, sweep := s.threads[t].model, s.threads[t].handle, s.threads[t].sweep;
    if unloads {
      var s1 := At(s, t, Unregistering(m, h, sweep)).(asked := s.asked + {h});
      assert Next(s, t, true, []) == s1 && Enabled(s, Move(t, true, []));
      UnregisteredByMove(s1, t);
      hide Next, Enabled, Legal, Exec;
      OneMove(s, t, true, [Move(t, true, [])]);
      AtTwice(s, t, Unregistering(m, h, sweep), UnloadRelease(m, sweep));
    } else {
      OneMove(s, t, false, []);
    }
  }

  lemma UnregisteredByMove(s: State, t: nat)
    requires t < |s.threads| && s.threads[t].Unregistering?
    ensures var m, h, sweep := s.threads[t].model, s.threads[t].handle, s.threads[t].sweep;
      && Legal(s, [Move(t, true, [])])
      && Exec(s, [Move(t, true, [])]) == At(s, t, UnloadRelease(m, sweep)).(engines := s.engines - {m}, gone := s.gone + {h})
  {
    var m, h, sweep := s.threads[t].model, s.threads[t].handle, s.threads[t].sweep;
    var s1 := At(s, t, UnloadRelease(m, sweep)).(engines := s.engines - {m}, gone := s.gone + {h});
    assert Next(s, t, true, []) == s1 && Enabled(s, Move(t, true, []));
    LastMove(s, t, true, s1);
  }

  lemma LastMove(s: State, t: nat, ok: bool, s': State)
    requires Enabled(s, Move(t, ok, [])) && s' == Next(s, t, ok, [])
    ensures Legal(s, [Move(t, ok, [])]) && Exec(s, [Move(t, ok, [])]) == s'
  {
    hide Next, Enabled;
    OneMove(s, t, ok, []);
    assert [Move(t, ok, [])] + [] == [Move(t, ok, [])];
  }

  /** The locked blocks as code.  `home`, `asked`, `raised`, `gone` and `lost` record the calls of the factory
      and of the engines' unload, and what a raising callback drops. */
  class InferenceServer {
    const residency: ModelResidencyRegistry
    var home: seq<Model>
    var asked: set<Handle>
    var raised: set<Handle>
    var gone: set<Handle>
    var lost: set<Handle>

    constructor (residency: ModelResidencyRegistry)
      requires residency.engines == map[]
      ensures this.residency == residency && Shows(INITIAL)
    {
      this.residency := residency;
      home, asked, raised, gone, lost := [], {}, {}, {}, {};
    }

    /** What this object shows of a machine state. */
    ghost predicate Shows(s: State)
      reads this, residency
    {
      && s.engines == residency.engines && s.home == home && s.asked == asked && s.raised == raised
      && s.gone == gone && s.lost == lost
    }

    /** `makes` says whether the factory returns a handle, `loads` whether its load succeeds, and `reports`
        whether the progress callback after it returns. */
    method EnsureLocked(model: Model, makes: bool, loads: bool, reports: bool, ghost s: State, ghost t: nat)
      returns (got: Option<Handle>)
      requires Shows(s) && t < |s.threads| && s.threads[t] == EnsureLookAgain(model)
      modifies this, residency
      ensures Shows(Ensured(s, t, makes, loads, reports))
      ensures Ensured(s, t, makes, loads, reports).threads[t] == EnsureRelease(model, got)
    {
      got := residency.GetLoadedModel(model);
      if got.Some? {
        return;
      }
      if !makes {
        return None;
      }
      var engine := |home|;
      home := home + [model];
      if !loads {
        asked, gone := asked + {engine}, gone + {engine};
        return None;
      }
      if !reports {
        lost := lost + {engine};
        return None;
      }
      residency.RegisterModel(model, engine);
      return Some(engine);
    }

    /** `unloads` says whether the engine's unload returns; if it raises the model stays registered. */
    method UnloadLocked(model: Model, unloads: bool, ghost s: State, ghost t: nat) returns (ok: bool)
      requires Shows(s) && t < |s.threads| && s.threads[t].UnloadLook? && s.threads[t].model == model
      modifies this, residency
      ensures Shows(Unloaded(s, t, unloads))
      ensures ok <==> unloads || model !in old(residency.engines)
    {
      var engine := residency.GetLoadedModel(model);
      if engine == None {
        return true;
      }
      asked := asked + {engine.value};
      if !unloads {
        raised := raised + {engine.value};
        return false;
      }
      residency.UnregisterModel(model);
      gone := gone + {engine.value};
      return true;
    }
  }
}
