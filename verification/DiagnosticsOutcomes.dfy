/** What consoles get in the end: everything, once, if nothing interferes, and exactly what stops that. */
module DiagnosticsOutcomes {
  import opened Diagnostics
  import opened DiagnosticsPaging
  import opened DiagnosticsPolling
  import opened DiagnosticsTheorems

  lemma {:induction false} OfPrefix(log: seq<Record>, k: nat, source: Source)
    requires k <= |log|
    ensures Of(log[..k], source) <= Of(log, source)
  {
    assert log == log[..k] + log[k..];
    OfAdd(log[..k], log[k..], source);
  }

  lemma KeptPrefix(remote: seq<Item>, k: nat)
    requires k <= |remote|
    ensures Kept(remote[..k]) <= Kept(remote)
  {
    assert remote == remote[..k] + remote[k..];
    KeptAdd(remote[..k], remote[k..]);
  }

  /** However requests, writes and failures interleave and whatever limits are asked for, a console has been
      given the beginning of the log without a gap, its Product records are the first that the Product
      logged, each once and in order, and the log has every runtime record below the cursor in order. */
  lemma {:induction false} PollingSeesThePrefix(consoles: nat, run: seq<Step>, k: nat)
    requires Legal(Initial(consoles), run) && k < |Exec(Initial(consoles), run).consoles|
    ensures var s := Exec(Initial(consoles), run);
      var c := s.consoles[k];
      && c.next <= |s.log| && c.seen == s.log[..c.next]
      && (forall i | 0 <= i < |c.seen| :: c.seen[i].sequence == i + 1 && Good(c.seen[i]))
      && Of(c.seen, FromProduct) <= s.product && Of(s.log, FromProduct) == s.product
      && s.cursor <= |s.remote| && Within(Kept(s.remote[..s.cursor]), Of(s.log, FromRuntime))
  {
    InitialInv(consoles);
    RunKeeps(Initial(consoles), run);
    var s := Exec(Initial(consoles), run);
    hide Exec, Legal, Good;
    CallFitsHere(s, k);
    OfPrefix(s.log, s.consoles[k].next, FromProduct);
  }

  // ----- runtime records once

  predicate Harvesting(call: Call) {
    call.Asking? || call.Holding? || call.Stored?
  }

  /** No request opens while another harvests, and none fails between its append and its cursor. */
  predicate OrderlyStep(s: State, step: Step) {
    && (step.Open? ==> forall k | 0 <= k < |s.consoles| :: !Harvesting(s.consoles[k].call))
    && (step.Fail? && step.k < |s.consoles| ==> !s.consoles[step.k].call.Stored?)
  }

  ghost predicate Orderly(s: State, run: seq<Step>)
    requires Legal(s, run)
    decreases |run|
  {
    run == [] || (OrderlyStep(s, run[0]) && Orderly(Apply(s, run[0]), run[1..]))
  }

  ghost predicate OneHarvest(s: State) {
    && (forall j, k | 0 <= j < |s.consoles| && 0 <= k < |s.consoles|
          && Harvesting(s.consoles[j].call) && Harvesting(s.consoles[k].call) :: j == k)
    && forall k | 0 <= k < |s.consoles| && Harvesting(s.consoles[k].call) :: s.consoles[k].call.cursor == s.cursor
  }

  ghost predicate NoneStored(s: State) {
    forall k | 0 <= k < |s.consoles| :: !s.consoles[k].call.Stored?
  }

  ghost predicate UpTo(s: State, cursor: nat) {
    cursor <= |s.remote| && Of(s.log, FromRuntime) == Kept(s.remote[..cursor])
  }

  /** The runtime's records in the log are those below the cursor, or below the end that an append is about
      to store as the cursor. */
  ghost predicate Once(s: State) {
    && OneHarvest(s)
    && (NoneStored(s) ==> UpTo(s, s.cursor))
    && forall k | 0 <= k < |s.consoles| && s.consoles[k].call.Stored? :: UpTo(s, s.consoles[k].call.end)
  }

  lemma InitialOnce(consoles: nat)
    ensures Once(Initial(consoles))
  {
  }

  /** Steps that leave the log, the runtime and the cursor alone. */
  lemma OnceCalls(s: State, k: nat, console: Console)
    requires Once(s) && k < |s.consoles| && !s.consoles[k].call.Stored? && !console.call.Stored?
    requires Harvesting(console.call) ==> console.call.cursor == s.cursor
    requires Harvesting(console.call) ==>
      Harvesting(s.consoles[k].call) || forall j | 0 <= j < |s.consoles| :: !Harvesting(s.consoles[j].call)
    ensures Once(s.(consoles := s.consoles[k := console]))
  {
    var s' := s.(consoles := s.consoles[k := console]);
    hide Of, Kept;
    assert OneHarvest(s');
    assert NoneStored(s') ==> NoneStored(s) by {
      if NoneStored(s') {
        forall j | 0 <= j < |s.consoles| ensures !s.consoles[j].call.Stored? {
          assert !s'.consoles[j].call.Stored?;
        }
      }
    }
    assert UpTo(s, s.cursor) ==> UpTo(s', s'.cursor);
    forall j | 0 <= j < |s'.consoles| && s'.consoles[j].call.Stored?
      ensures UpTo(s', s'.consoles[j].call.end)
    {
      assert UpTo(s, s.consoles[j].call.end);
    }
  }

  /** Product records and new runtime output leave what is below a cursor alone. */
  lemma OnceGrows(s: State, s': State)
    requires Once(s) && s'.consoles == s.consoles && s'.cursor == s.cursor && s.remote <= s'.remote
    requires Of(s'.log, FromRuntime) == Of(s.log, FromRuntime)
    ensures Once(s')
  {
    hide Of, Kept;
    forall cursor: nat | UpTo(s, cursor) ensures UpTo(s', cursor) {
      assert s'.remote[..cursor] == s.remote[..cursor];
    }
    assert NoneStored(s') ==> NoneStored(s);
    assert OneHarvest(s');
  }

  lemma OnceAppends(s: State, k: nat)
    requires Inv(s) && Once(s) && Enabled(s, Append(k))
    ensures Once(Apply(s, Append(k)))
  {
    var Holding(c, documents, end) := s.consoles[k].call;
    CallFitsHere(s, k);
    var s' := Apply(s, Append(k));
    AppendAdds(s, c, documents, end);
    assert c == s.cursor && NoneStored(s) by {
      assert Harvesting(s.consoles[k].call);
      assert forall j | 0 <= j < |s.consoles| && j != k :: !Harvesting(s.consoles[j].call);
    }
    hide Of, Kept, Inv, Appended, Covered, Marked;
    assert UpTo(s', end) by {
      assert s.remote[..end] == s.remote[..c] + s.remote[c..end];
      KeptAdd(s.remote[..c], s.remote[c..end]);
    }
    assert forall j | 0 <= j < |s'.consoles| && j != k :: s'.consoles[j] == s.consoles[j];
    assert s'.consoles[k].call == Stored(c, end);
    assert OneHarvest(s') && !NoneStored(s');
  }

  lemma AppendAdds(s: State, c: nat, documents: seq<Document>, end: nat)
    requires CallFits(s.log, s.remote, Holding(c, documents, end))
    ensures c <= end <= |s.remote|
    ensures Of(Appended(s.log, documents), FromRuntime) == Of(s.log, FromRuntime) + Kept(s.remote[c..end])
  {
    var kept := Kept(s.remote[c..end]);
    var marks := documents[|kept|..];
    assert documents == kept + marks;
    assert forall d | d in marks :: d.source == Marker by {
      assert forall i | 0 <= i < |marks| :: marks[i] == documents[|kept| + i];
    }
    AnswerSources(s.log, s.remote[c..end], marks);
  }

  lemma OnceSets(s: State, k: nat)
    requires Once(s) && Enabled(s, SetCursor(k))
    ensures Once(Apply(s, SetCursor(k)))
  {
    var s' := Apply(s, SetCursor(k));
    hide Of, Kept;
    assert Harvesting(s.consoles[k].call);
    assert forall j | 0 <= j < |s.consoles| && j != k :: !Harvesting(s.consoles[j].call);
    assert forall j | 0 <= j < |s'.consoles| :: !Harvesting(s'.consoles[j].call);
    assert UpTo(s, s.consoles[k].call.end);
    assert UpTo(s', s'.cursor);
  }

  lemma HarvestsHere(s: State, k: nat)
    requires Once(s) && k < |s.consoles| && Harvesting(s.consoles[k].call)
    ensures s.consoles[k].call.cursor == s.cursor
  {
  }

  lemma OnceStep(s: State, step: Step)
    requires Inv(s) && Once(s) && Enabled(s, step) && OrderlyStep(s, step)
    ensures Once(Apply(s, step))
  {
    match step
    case Log(documents) =>
      ProductSources(s.log, documents);
      hide Inv, Once, Of, Appended;
      OnceGrows(s, Apply(s, step));
    case Write(items) =>
      hide Inv, Once, Of;
      OnceGrows(s, Apply(s, step));
    case Append(k) => OnceAppends(s, k);
    case SetCursor(k) => OnceSets(s, k);
    case _ =>
      var k := step.k;
      if Harvesting(s.consoles[k].call) {
        HarvestsHere(s, k);
      }
      hide Inv, Once, Answered, PageFor;
      OnceCalls(s, k, Apply(s, step).consoles[k]);
  }

  lemma {:induction false} OrderlyRun(s: State, run: seq<Step>)
    requires Inv(s) && Once(s) && Legal(s, run) && Orderly(s, run)
    ensures Inv(Exec(s, run)) && Once(Exec(s, run))
    decreases |run|
  {
    if run != [] {
      StepKeeps(s, run[0]);
      OnceStep(s, run[0]);
      hide Inv, Once, Apply, Enabled, OrderlyStep;
      OrderlyRun(Apply(s, run[0]), run[1..]);
    }
  }

  /** If harvests do not overlap and none fails between its append and its cursor, the runtime's records
      that a console has been given are the first that the runtime wrote, each once and in order. */
  lemma {:induction false} RuntimeRecordsOnce(consoles: nat, run: seq<Step>, k: nat)
    requires Legal(Initial(consoles), run) && Orderly(Initial(consoles), run)
    requires k < |Exec(Initial(consoles), run).consoles|
    ensures var s := Exec(Initial(consoles), run);
      && s.cursor <= |s.remote| && Of(s.consoles[k].seen, FromRuntime) <= Kept(s.remote)
      && (NoneStored(s) ==> Of(s.log, FromRuntime) == Kept(s.remote[..s.cursor]))
  {
    InitialInv(consoles);
    InitialOnce(consoles);
    OrderlyRun(Initial(consoles), run);
    var s := Exec(Initial(consoles), run);
    hide Exec, Legal, Orderly;
    CallFitsHere(s, k);
    assert s.cursor <= |s.remote|;
    OfPrefix(s.log, s.consoles[k].next, FromRuntime);
    hide Of, Kept, Inv;
    if NoneStored(s) {
      KeptPrefix(s.remote, s.cursor);
    } else {
      var j :| 0 <= j < |s.consoles| && s.consoles[j].call.Stored?;
      KeptPrefix(s.remote, s.consoles[j].call.end);
    }
  }

  // ----- runtime records twice

  lemma {:induction false} Extended(s: State, run: seq<Step>, step: Step)
    requires Legal(s, run) && Enabled(Exec(s, run), step)
    ensures Legal(s, run + [step]) && Exec(s, run + [step]) == Apply(Exec(s, run), step)
    decreases |run|
  {
    hide Apply, Enabled;
    if run == [] {
      assert [step][1..] == [];
    } else {
      Extended(Apply(s, run[0]), run[1..], step);
      assert (run + [step])[1..] == run[1..] + [step];
    }
  }

  /** A run and where it has led. */
  ghost predicate Reached(start: State, run: seq<Step>, s: State) {
    Legal(start, run) && Exec(start, run) == s
  }

  lemma Then(start: State, run: seq<Step>, s: State, step: Step) returns (run': seq<Step>, s': State)
    requires Reached(start, run, s) && Enabled(s, step)
    ensures run' == run + [step] && s' == Apply(s, step) && Reached(start, run', s')
  {
    hide Apply, Enabled;
    Extended(start, run, step);
    run', s' := run + [step], Apply(s, step);
  }

  /** The harvest of one request, from its look at the cursor to its write. */
  function Harvest(k: nat, count: nat, degraded: bool, warningBytes: nat): seq<Step> {
    [Open(k), Answer(k, count, degraded, warningBytes), Append(k), SetCursor(k)]
  }

  function AfterHarvest(s: State, k: nat, count: nat, degraded: bool, warningBytes: nat): State
    requires k < |s.consoles| && s.cursor + count <= |s.remote|
  {
    Calling(s, k, Listing)
    .(log := Appended(s.log, Answered(s, s.cursor, count, degraded, warningBytes)), cursor := s.cursor + count)
  }

  lemma CallingTwice(s: State, k: nat, a: Call, b: Call)
    requires k < |s.consoles|
    ensures Calling(Calling(s, k, a), k, b) == Calling(s, k, b)
  {
    assert s.consoles[k := s.consoles[k].(call := a)][k := s.consoles[k].(call := b)]
        == s.consoles[k := s.consoles[k].(call := b)];
  }

  lemma HarvestReaches(start: State, run: seq<Step>, s: State, k: nat, count: nat, degraded: bool, warningBytes: nat)
    requires Reached(start, run, s) && k < |s.consoles| && s.consoles[k].call.Idle?
    requires count <= HARVEST_LIMIT && s.cursor + count <= |s.remote|
    ensures Reached(start, run + Harvest(k, count, degraded, warningBytes), AfterHarvest(s, k, count, degraded, warningBytes))
  {
    hide Reached, Answered, Appended;
    var end, documents := s.cursor + count, Answered(s, s.cursor, count, degraded, warningBytes);
    var r1, s1 := Then(start, run, s, Open(k));
    var r2, s2 := Then(start, r1, s1, Answer(k, count, degraded, warningBytes));
    SameAnswer(s, s1, s.cursor, count, degraded, warningBytes);
    CallingTwice(s, k, Asking(s.cursor), Holding(s.cursor, documents, end));
    assert s2 == Calling(s, k, Holding(s.cursor, documents, end));
    HarvestEnds(start, r2, s, s2, k, documents, end);
    assert run + Harvest(k, count, degraded, warningBytes) == r2 + [Append(k)] + [SetCursor(k)];
  }

  lemma SameAnswer(s: State, s': State, cursor: nat, count: nat, degraded: bool, warningBytes: nat)
    requires s'.remote == s.remote && cursor + count <= |s.remote|
    ensures Answered(s', cursor, count, degraded, warningBytes) == Answered(s, cursor, count, degraded, warningBytes)
  {
  }

  lemma HarvestEnds(start: State, run: seq<Step>, s: State, s2: State, k: nat, documents: seq<Document>, end: nat)
    requires k < |s.consoles| && s2 == Calling(s, k, Holding(s.cursor, documents, end)) && Reached(start, run, s2)
    ensures Reached(start, run + [Append(k)] + [SetCursor(k)],
                    Calling(s, k, Listing).(log := Appended(s.log, documents), cursor := end))
  {
    hide Reached, Appended;
    var r3, s3 := Then(start, run, s2, Append(k));
    CallingTwice(s, k, Holding(s.cursor, documents, end), Stored(s.cursor, end));
    var r4, s4 := Then(start, r3, s3, SetCursor(k));
    CallingTwice(s, k, Stored(s.cursor, end), Listing);
  }

  lemma RepeatedExactly(a: seq<Document>, b: seq<Document>, c: seq<Document>)
    ensures a + b + c == a + c <==> b == []
  {
    if b == [] {
      assert a + b == a;
    } else {
      assert |a + b + c| != |a + c|;
    }
  }

  lemma HarvestAdds(s: State, c: nat, end: nat, count: nat, degraded: bool, warningBytes: nat)
    requires c <= end <= |s.remote| && UpTo(s, end) && c + count <= |s.remote|
    ensures Of(Appended(s.log, Answered(s, c, count, degraded, warningBytes)), FromRuntime) ==
            Kept(s.remote[..c]) + Kept(s.remote[c..end]) + Kept(s.remote[c..c + count])
    ensures Kept(s.remote[..c + count]) == Kept(s.remote[..c]) + Kept(s.remote[c..c + count])
  {
    assert s.remote[..end] == s.remote[..c] + s.remote[c..end];
    KeptAdd(s.remote[..c], s.remote[c..end]);
    assert s.remote[..c + count] == s.remote[..c] + s.remote[c..c + count];
    KeptAdd(s.remote[..c], s.remote[c..c + count]);
    AnswerAdds(s, c, count, degraded, warningBytes);
  }

  lemma AnswerAdds(s: State, c: nat, count: nat, degraded: bool, warningBytes: nat)
    requires c + count <= |s.remote|
    ensures Of(Appended(s.log, Answered(s, c, count, degraded, warningBytes)), FromRuntime) ==
            Of(s.log, FromRuntime) + Kept(s.remote[c..c + count])
  {
    AnswerSources(s.log, s.remote[c..c + count], if degraded then [Warning(warningBytes)] else []);
    hide Of, Kept, Appended;
    assert Kept(s.remote[c..c + count]) + [] == Kept(s.remote[c..c + count]);
  }

  /** A request that fails between its append and its cursor: the next harvest, whatever it is answered,
      leaves the log with the records below the cursor exactly if the failed one had kept nothing. */
  lemma {:induction false} FailureRepeatsExactly(s: State, k: nat, j: nat, count: nat, degraded: bool, warningBytes: nat)
    requires Inv(s) && Once(s) && k < |s.consoles| && s.consoles[k].call.Stored?
    requires j < |s.consoles| && (j == k || s.consoles[j].call.Idle?)
    requires count <= HARVEST_LIMIT && s.cursor + count <= |s.remote|
    ensures var run := [Fail(k)] + Harvest(j, count, degraded, warningBytes);
      var Stored(c, end) := s.consoles[k].call;
      && Legal(s, run) && c <= end <= |s.remote|
      && (UpTo(Exec(s, run), Exec(s, run).cursor) <==> Kept(s.remote[c..end]) == [])
  {
    hide Of, Kept, Answered, Appended, UpTo, Inv, OneHarvest, NoneStored, Reached;
    var Stored(c, end) := s.consoles[k].call;
    StoredHere(s, k);
    hide Once;
    ReachedStart(s);
    var run, s1 := Then(s, [], s, Fail(k));
    HarvestReaches(s, run, s1, j, count, degraded, warningBytes);
    assert [] + [Fail(k)] == [Fail(k)];
    var s' := AfterHarvest(s1, j, count, degraded, warningBytes);
    SameAnswer(s, s1, c, count, degraded, warningBytes);
    RepeatsExactly(s, s', c, end, count, degraded, warningBytes);
    ReachedIs(s, [Fail(k)] + Harvest(j, count, degraded, warningBytes), s');
  }

  lemma ReachedStart(s: State)
    ensures Reached(s, [], s)
  {
  }

  lemma StoredHere(s: State, k: nat)
    requires Inv(s) && Once(s) && k < |s.consoles| && s.consoles[k].call.Stored?
    ensures var Stored(c, end) := s.consoles[k].call; c <= end <= |s.remote| && c == s.cursor && UpTo(s, end)
  {
    HarvestsHere(s, k);
    CallFitsHere(s, k);
  }

  /** A harvest from below what the log has repeats what lies between. */
  lemma RepeatsExactly(s: State, s': State, c: nat, end: nat, count: nat, degraded: bool, warningBytes: nat)
    requires c <= end <= |s.remote| && UpTo(s, end) && c + count <= |s.remote|
    requires s'.remote == s.remote && s'.log == Appended(s.log, Answered(s, c, count, degraded, warningBytes))
    ensures UpTo(s', c + count) <==> Kept(s.remote[c..end]) == []
  {
    HarvestAdds(s, c, end, count, degraded, warningBytes);
    hide Of, Kept, Answered, Appended;
    RepeatedExactly(Kept(s.remote[..c]), Kept(s.remote[c..end]), Kept(s.remote[c..c + count]));
  }

  /** Two requests that read the same cursor: once both have stored theirs, the log has the records below the
      cursor exactly if the answer of the first had nothing to keep. */
  lemma {:induction false} OverlapRepeatsExactly(s: State, i: nat, j: nat, first: nat, second: nat)
    requires Inv(s) && Once(s) && i < |s.consoles| && j < |s.consoles| && i != j
    requires forall k | 0 <= k < |s.consoles| :: !Harvesting(s.consoles[k].call)
    requires s.consoles[i].call.Idle? && s.consoles[j].call.Idle?
    requires first <= HARVEST_LIMIT && second <= HARVEST_LIMIT && s.cursor + first <= |s.remote| && s.cursor + second <= |s.remote|
    ensures var run := [Open(j)] + Harvest(i, first, false, 0) + [Answer(j, second, false, 0), Append(j), SetCursor(j)];
      && Legal(s, run) && s.cursor + first <= |s.remote|
      && (UpTo(Exec(s, run), Exec(s, run).cursor) <==> Kept(s.remote[s.cursor..s.cursor + first]) == [])
  {
    hide Of, Kept, Answered, Appended, UpTo, Inv, OneHarvest, Reached;
    var c := s.cursor;
    NoHarvestHere(s);
    hide Once;
    ReachedStart(s);
    var r1, s1 := Then(s, [], s, Open(j));
    HarvestReaches(s, r1, s1, i, first, false, 0);
    var s2 := AfterHarvest(s1, i, first, false, 0);
    var r2 := r1 + Harvest(i, first, false, 0);
    SameAnswer(s, s1, c, first, false, 0);
    UpToHarvest(s, s2, c, first);
    var s3 := SecondHarvest(s, r2, s2, j, c, second);
    var run := [Open(j)] + Harvest(i, first, false, 0) + [Answer(j, second, false, 0), Append(j), SetCursor(j)];
    assert run == r2 + [Answer(j, second, false, 0)] + [Append(j)] + [SetCursor(j)];
    RepeatsExactly(s2, s3, c, c + first, second, false, 0);
    ReachedIs(s, run, s3);
  }

  lemma NoHarvestHere(s: State)
    requires Once(s) && forall k | 0 <= k < |s.consoles| :: !Harvesting(s.consoles[k].call)
    ensures UpTo(s, s.cursor)
  {
    assert NoneStored(s);
  }

  lemma UpToHarvest(s: State, s': State, c: nat, count: nat)
    requires UpTo(s, c) && c + count <= |s.remote| && s'.remote == s.remote
    requires s'.log == Appended(s.log, Answered(s, c, count, false, 0))
    ensures UpTo(s', c + count)
  {
    NothingKept(s.remote, c);
    RepeatsExactly(s, s', c, c, count, false, 0);
  }

  lemma ReachedIs(start: State, run: seq<Step>, s: State)
    requires Reached(start, run, s)
    ensures Legal(start, run) && Exec(start, run) == s
  {
  }

  lemma NothingKept(remote: seq<Item>, c: nat)
    requires c <= |remote|
    ensures Kept(remote[c..c]) == []
  {
    assert remote[c..c] == [];
  }

  lemma SecondHarvest(start: State, run: seq<Step>, s: State, j: nat, c: nat, count: nat) returns (s': State)
    requires Reached(start, run, s) && j < |s.consoles| && s.consoles[j].call == Asking(c)
    requires count <= HARVEST_LIMIT && c + count <= |s.remote|
    ensures Reached(start, run + [Answer(j, count, false, 0)] + [Append(j)] + [SetCursor(j)], s')
    ensures s'.log == Appended(s.log, Answered(s, c, count, false, 0)) && s'.cursor == c + count && s'.remote == s.remote
  {
    hide Reached, Answered, Appended;
    var r1, s1 := Then(start, run, s, Answer(j, count, false, 0));
    var r2, s2 := Then(start, r1, s1, Append(j));
    var r3;
    r3, s' := Then(start, r2, s2, SetCursor(j));
  }
}
