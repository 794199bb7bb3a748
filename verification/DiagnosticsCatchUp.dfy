/** How far a console gets, and what stops it. */
module DiagnosticsCatchUp {
  import opened Diagnostics
  import opened DiagnosticsPaging
  import opened DiagnosticsPolling
  import opened DiagnosticsTheorems
  import opened DiagnosticsOutcomes

  // ----- what stops a console

  /** A listing gives nothing although there is more exactly if the next record alone is over the byte budget
      or some listed record is not accepted. */
  lemma StuckExactly(s: State, k: nat, limit: int)
    requires Enabled(s, List(k, limit)) && s.consoles[k].next < |s.log|
    ensures var next := s.consoles[k].next;
      Apply(s, List(k, limit)).consoles[k].next == next
      <==> !Fits([s.log[next]]) || !AllAccepted(Listed(s.log, next, limit))
  {
    PageGives(s.log, s.consoles[k].next, limit);
    hide PageFor, Fits, AllAccepted, Listed;
  }

  lemma BadGivesNothing(log: seq<Record>, next: nat, limit: int)
    requires next < |log| && !Good(log[next])
    ensures PageFor(log, next, limit) == []
  {
    PageGives(log, next, limit);
    var listed := Listed(log, next, limit);
    assert listed[0] == log[next] && listed[0] in listed;
    hide PageFor, Fits;
  }

  lemma StuckStep(s: State, k: nat, step: Step)
    requires k < |s.consoles| && s.consoles[k].next < |s.log| && !Good(s.log[s.consoles[k].next]) && Enabled(s, step)
    ensures var s' := Apply(s, step);
      k < |s'.consoles| && s'.consoles[k].next == s.consoles[k].next && s.log <= s'.log
  {
    if step.List? && step.k == k {
      BadGivesNothing(s.log, s.consoles[k].next, step.limit);
    }
    hide Good, Answered, PageFor;
  }

  /** A console before a record that no page can hold never gets further, whatever limits it asks for. */
  lemma {:induction false} StuckForever(s: State, k: nat, run: seq<Step>)
    requires k < |s.consoles| && s.consoles[k].next < |s.log| && !Good(s.log[s.consoles[k].next]) && Legal(s, run)
    ensures k < |Exec(s, run).consoles| && Exec(s, run).consoles[k].next == s.consoles[k].next
    decreases |run|
  {
    if run != [] {
      StuckStep(s, k, run[0]);
      var s' := Apply(s, run[0]);
      assert s'.log[s.consoles[k].next] == s.log[s.consoles[k].next];
      hide Apply, Enabled, Good;
      StuckForever(s', k, run[1..]);
    }
  }

  // ----- two inputs that do it

  /** A runtime record whose code has 201 characters. */
  function LongCode(bytes: nat): Item {
    Line(0, bytes, false, Checked("info", "stdout", 10, Chars(201), Absent, Absent, true))
  }

  /** The Product's record of a failed start, whose text has 8193 characters. */
  function LongFailure(bytes: nat): Document {
    Document(FromProduct, 0, bytes, false, Checked("error", "combined", 8193, Chars(28), Absent, Absent, true))
  }

  lemma SmallFits(record: Record)
    requires record.sequence < 10 && record.document.bytes <= 20000
    ensures Fits([record])
  {
    assert [record][..0] == [];
    assert InnerLength([record]) == InnerLength([]) + 0 + Bytes(record);
  }

  /** The failed start is stored, is within the byte budget, and no console ever gets anything. */
  lemma {:induction false} LongFailureBlocks(consoles: nat, bytes: nat, run: seq<Step>, k: nat)
    requires bytes <= 20000 && k < consoles
    requires Legal(Initial(consoles), [Log([LongFailure(bytes)])] + run)
    ensures Fits([Record(1, LongFailure(bytes))])
    ensures k < |Exec(Initial(consoles), [Log([LongFailure(bytes)])] + run).consoles|
    ensures Exec(Initial(consoles), [Log([LongFailure(bytes)])] + run).consoles[k].seen == []
  {
    var document, start := LongFailure(bytes), Initial(consoles);
    SmallFits(Record(1, document));
    var all := [Log([document])] + run;
    assert all[1..] == run;
    var s := Apply(start, Log([document]));
    assert s.log == [Record(1, document)] && s.consoles[k].next == 0;
    assert !Good(s.log[0]);
    InitialInv(consoles);
    hide Good, Apply, Enabled, Inv;
    StuckForever(s, k, run);
    SeenCounts(start, all, k);
  }

  lemma SeenCounts(start: State, run: seq<Step>, k: nat)
    requires Inv(start) && Legal(start, run) && k < |Exec(start, run).consoles|
    ensures Exec(start, run).consoles[k].next == |Exec(start, run).consoles[k].seen|
  {
    RunKeeps(start, run);
    CallFitsHere(Exec(start, run), k);
    hide Legal, Exec, Good;
  }

  /** The same for a code that the runtime sends, once it is harvested. */
  lemma {:induction false} LongCodeBlocks(consoles: nat, bytes: nat, run: seq<Step>, k: nat)
    requires bytes <= 20000 && k < consoles
    requires Legal(Initial(consoles), [Write([LongCode(bytes)])] + Harvest(0, 1, false, 0) + run)
    ensures var document := Harvested(LongCode(bytes));
      Fits([Record(1, document)])
    ensures var s := Exec(Initial(consoles), [Write([LongCode(bytes)])] + Harvest(0, 1, false, 0) + run);
      k < |s.consoles| && s.consoles[k].seen == []
  {
    var line, start := LongCode(bytes), Initial(consoles);
    var document, before := Harvested(line), [Write([line])] + Harvest(0, 1, false, 0);
    SmallFits(Record(1, document));
    InitialInv(consoles);
    var s := LongCodeStored(consoles, bytes);
    hide Inv;
    Split(start, before, run);
    hide Good, Apply, Enabled, Legal, Exec, Harvest;
    StuckForever(s, k, run);
    SeenCounts(start, before + run, k);
  }

  lemma LongCodeStored(consoles: nat, bytes: nat) returns (s: State)
    requires consoles > 0
    ensures Reached(Initial(consoles), [Write([LongCode(bytes)])] + Harvest(0, 1, false, 0), s)
    ensures s.log == [Record(1, Harvested(LongCode(bytes)))] && !Good(s.log[0])
    ensures |s.consoles| == consoles && forall k | 0 <= k < consoles :: s.consoles[k].next == 0
  {
    var line, start := LongCode(bytes), Initial(consoles);
    assert !Good(Record(1, Harvested(line)));
    assert line.Line?;
    hide LongCode, Good, Reached, Harvest, Harvested;
    ReachedStart(start);
    var run, s1 := Then(start, [], start, Write([line]));
    assert [] + [Write([line])] == [Write([line])];
    assert s1.remote == [line];
    OneAnswer(s1, line);
    hide Kept, Answered;
    HarvestReaches(start, run, s1, 0, 1, false, 0);
    s := AfterHarvest(s1, 0, 1, false, 0);
    assert s.log == [Record(1, Harvested(line))];
  }

  lemma OneAnswer(s: State, line: Item)
    requires s.remote == [line] && line.Line?
    ensures Answered(s, 0, 1, false, 0) == [Harvested(line)]
  {
    hide Harvested;
    assert s.remote[0..1] == [line] && [line][..0] == [];
    assert Kept([line]) == [Harvested(line)];
  }

  lemma {:induction false} Split(s: State, a: seq<Step>, b: seq<Step>)
    requires Legal(s, a + b)
    ensures Legal(s, a) && Legal(Exec(s, a), b) && Exec(s, a + b) == Exec(Exec(s, a), b)
    decreases |a|
  {
    hide Apply, Enabled;
    if a == [] {
      assert a + b == b;
    } else {
      assert (a + b)[1..] == a[1..] + b;
      Split(Apply(s, a[0]), a[1..], b);
    }
  }

  lemma {:induction false} Joined(s: State, a: seq<Step>, b: seq<Step>)
    requires Legal(s, a) && Legal(Exec(s, a), b)
    ensures Legal(s, a + b) && Exec(s, a + b) == Exec(Exec(s, a), b)
    decreases |a|
  {
    hide Apply, Enabled;
    if a == [] {
      assert a + b == b;
    } else {
      assert (a + b)[1..] == a[1..] + b;
      Joined(Apply(s, a[0]), a[1..], b);
    }
  }

  // ----- whole requests of one console

  /** A request that the runtime answers with so many items, having lost nothing. */
  datatype Ask = Ask(count: nat, limit: int)

  function Request(k: nat, ask: Ask): seq<Step> {
    Harvest(k, ask.count, false, 0) + [List(k, ask.limit)]
  }

  function Requests(k: nat, asks: seq<Ask>): seq<Step> {
    if asks == [] then [] else Request(k, asks[0]) + Requests(k, asks[1..])
  }

  /** The runtime returns something whenever it has something. */
  predicate Prompt(s: State, k: nat, ask: Ask) {
    && k < |s.consoles| && s.consoles[k].call.Idle?
    && ask.count <= HARVEST_LIMIT && s.cursor + ask.count <= |s.remote| && (s.cursor < |s.remote| ==> ask.count > 0)
  }

  function Polled(s: State, k: nat, ask: Ask): State
    requires Prompt(s, k, ask)
  {
    var log := Appended(s.log, Answered(s, s.cursor, ask.count, false, 0));
    var c := s.consoles[k];
    s.(log := log, cursor := s.cursor + ask.count,
       consoles := s.consoles[k := Given(c, PageFor(log, c.next, ask.limit))])
  }

  ghost predicate AllPrompt(s: State, k: nat, asks: seq<Ask>)
    decreases |asks|
  {
    asks == [] || (Prompt(s, k, asks[0]) && AllPrompt(Polled(s, k, asks[0]), k, asks[1..]))
  }

  lemma RequestPolls(s: State, k: nat, ask: Ask)
    requires Prompt(s, k, ask)
    ensures Legal(s, Request(k, ask)) && Exec(s, Request(k, ask)) == Polled(s, k, ask)
  {
    hide Answered, Appended, PageFor, Reached, Harvest;
    ReachedStart(s);
    HarvestReaches(s, [], s, k, ask.count, false, 0);
    var s1 := AfterHarvest(s, k, ask.count, false, 0);
    var run, s2 := Then(s, [] + Harvest(k, ask.count, false, 0), s1, List(k, ask.limit));
    assert run == Request(k, ask);
    var page := PageFor(s1.log, s.consoles[k].next, ask.limit);
    assert s.consoles[k := s.consoles[k].(call := Listing)][k := Given(s.consoles[k], page)]
        == s.consoles[k := Given(s.consoles[k], page)];
    ReachedIs(s, run, s2);
  }

  // ----- the first bad record

  /** How many records stand before the first that no page can hold. */
  ghost function FirstBad(log: seq<Record>): (n: nat)
    ensures n <= |log| && (forall i | 0 <= i < n :: Good(log[i])) && (n < |log| ==> !Good(log[n]))
  {
    if log == [] then 0
    else
      var init := log[..|log| - 1];
      var n := FirstBad(init);
      if n < |init| then n else if Good(log[|log| - 1]) then |log| else |init|
  }

  lemma FirstBadGrows(log: seq<Record>, more: seq<Record>)
    ensures FirstBad(log) <= FirstBad(log + more) <= FirstBad(log) + |more|
  {
    var a, b, all := FirstBad(log), FirstBad(log + more), log + more;
    hide Good, FirstBad;
    assert forall i | 0 <= i < |log| :: all[i] == log[i];
    assert a < |log| ==> all[a] == log[a];
    assert b < |log| ==> all[b] == log[b];
  }

  /** What is still to be harvested counts twice: once for the harvest and once for the reading. */
  ghost function Left(s: State, k: nat): int
    requires k < |s.consoles|
  {
    2 * (|s.remote| - s.cursor) + (FirstBad(s.log) - s.consoles[k].next)
  }

  lemma SeenAreGood(log: seq<Record>, c: Console)
    requires ConsoleFits(log, c)
    ensures c.next <= FirstBad(log)
  {
    var n := FirstBad(log);
    hide Good, FirstBad;
    assert forall i | 0 <= i < |c.seen| :: c.seen[i] in c.seen && log[i] == c.seen[i];
  }

  lemma AnswerLength(s: State, cursor: nat, count: nat)
    requires cursor + count <= |s.remote|
    ensures |Answered(s, cursor, count, false, 0)| <= count && (count == 0 ==> Answered(s, cursor, count, false, 0) == [])
  {
    KeptFromRuntime(s.remote[cursor..cursor + count]);
  }

  /** A page of one record, or any page of a log of good ones, brings a console nearer the first bad one. */
  lemma PageMoves(log: seq<Record>, c: Console, limit: int)
    requires ConsoleFits(log, c) && (limit == 1 || FirstBad(log) == |log|)
    ensures var page := PageFor(log, c.next, limit);
      c.next + |page| <= FirstBad(log) && (c.next < FirstBad(log) ==> page != [])
  {
    SeenAreGood(log, c);
    PageGives(log, c.next, limit);
    hide PageFor, FirstBad, Fits, ConsoleFits, Listed, AllAccepted;
    PageStops(log, c.next, PageFor(log, c.next, limit));
    if c.next < FirstBad(log) {
      WindowAccepted(log, c.next, limit);
      GoodFits(log[c.next]);
    }
  }

  lemma GoodFits(r: Record)
    requires Good(r)
    ensures Fits([r])
  {
  }

  lemma PageStops(log: seq<Record>, next: nat, page: seq<Record>)
    requires next <= FirstBad(log) && |page| <= |log| - next && page == log[next..next + |page|]
    requires forall r | r in page :: Good(r)
    ensures next + |page| <= FirstBad(log)
  {
    hide Good, FirstBad;
    forall i | next <= i < next + |page| ensures Good(log[i]) {
      assert page[i - next] in page && page[i - next] == log[i];
    }
  }

  lemma WindowAccepted(log: seq<Record>, next: nat, limit: int)
    requires next < FirstBad(log) && (limit == 1 || FirstBad(log) == |log|)
    ensures AllAccepted(Listed(log, next, limit))
  {
    hide FirstBad;
    var listed := Listed(log, next, limit);
    forall r | r in listed ensures Accepted(r.document) {
      var i :| 0 <= i < |listed| && listed[i] == r;
      assert listed[i] == log[next + i] && Good(log[next + i]);
    }
  }

  lemma PolledMoves(s: State, k: nat, ask: Ask)
    requires Inv(s) && Prompt(s, k, ask)
    requires ask.limit == 1 || FirstBad(Polled(s, k, ask).log) == |Polled(s, k, ask).log|
    ensures var s' := Polled(s, k, ask);
      && k < |s'.consoles| && s'.consoles[k].call.Idle? && s'.cursor <= |s'.remote| && s.log <= s'.log
      && 0 <= Left(s', k) <= (if Left(s, k) == 0 then 0 else Left(s, k) - 1)
      && s'.remote == s.remote && s'.product == s.product
  {
    CallFitsHere(s, k);
    AnswerLength(s, s.cursor, ask.count);
    var documents, c := Answered(s, s.cursor, ask.count, false, 0), s.consoles[k];
    var more := Numbered(documents, |s.log|);
    hide Inv, Answered, Good;
    FirstBadGrows(s.log, more);
    ConsoleGrows(s.log, more, c);
    SeenAreGood(s.log, c);
    PageMoves(s.log + more, c, ask.limit);
    if documents == [] {
      assert s.log + more == s.log;
    }
    hide PageFor, FirstBad, ConsoleFits;
  }

  /** What a sequence of whole requests has led to. */
  ghost function After(s: State, k: nat, asks: seq<Ask>): State
    requires AllPrompt(s, k, asks)
    decreases |asks|
  {
    if asks == [] then s else After(Polled(s, k, asks[0]), k, asks[1..])
  }

  lemma {:induction false} RequestsReach(s: State, k: nat, asks: seq<Ask>)
    requires AllPrompt(s, k, asks)
    ensures Legal(s, Requests(k, asks)) && Exec(s, Requests(k, asks)) == After(s, k, asks)
    decreases |asks|
  {
    if asks != [] {
      RequestPolls(s, k, asks[0]);
      hide Polled, Prompt, Request;
      RequestsReach(Polled(s, k, asks[0]), k, asks[1..]);
      hide Legal, Exec;
      Joined(s, Request(k, asks[0]), Requests(k, asks[1..]));
    }
  }

  lemma PolledKeeps(s: State, k: nat, ask: Ask)
    requires Inv(s) && Prompt(s, k, ask)
    ensures Inv(Polled(s, k, ask))
  {
    RequestPolls(s, k, ask);
    hide Inv, Polled, Prompt, Request;
    RunKeeps(s, Request(k, ask));
  }

  lemma {:induction false} LogGrows(s: State, k: nat, asks: seq<Ask>)
    requires AllPrompt(s, k, asks)
    ensures s.log <= After(s, k, asks).log
    decreases |asks|
  {
    if asks != [] {
      assert s.log <= Polled(s, k, asks[0]).log by {
        hide Answered, PageFor;
      }
      hide Polled, Prompt;
      LogGrows(Polled(s, k, asks[0]), k, asks[1..]);
    }
  }

  lemma GoodPrefix(log: seq<Record>, longer: seq<Record>)
    requires log <= longer && FirstBad(longer) == |longer|
    ensures FirstBad(log) == |log|
  {
    hide Good, FirstBad;
    assert forall i | 0 <= i < |log| :: log[i] == longer[i] && Good(longer[i]);
  }

  lemma {:induction false} RequestsMove(s: State, k: nat, asks: seq<Ask>)
    requires Inv(s) && k < |s.consoles| && AllPrompt(s, k, asks)
    requires (forall ask | ask in asks :: ask.limit == 1) || FirstBad(After(s, k, asks).log) == |After(s, k, asks).log|
    ensures var s' := After(s, k, asks);
      && Inv(s') && k < |s'.consoles| && s'.remote == s.remote && s'.product == s.product && s'.cursor <= |s'.remote|
      && 0 <= Left(s', k) <= (if |asks| < Left(s, k) then Left(s, k) - |asks| else 0)
    decreases |asks|
  {
    if asks == [] {
      CallFitsHere(s, k);
      SeenAreGood(s.log, s.consoles[k]);
      assert s.cursor <= |s.remote|;
      hide Inv, FirstBad;
    } else {
      var ask, s1 := asks[0], Polled(s, k, asks[0]);
      LogGrows(s1, k, asks[1..]);
      if ask.limit != 1 {
        GoodPrefix(s1.log, After(s1, k, asks[1..]).log);
      }
      PolledMoves(s, k, ask);
      PolledKeeps(s, k, ask);
      hide Polled, Prompt, Inv, FirstBad, Left;
      RequestsMove(s1, k, asks[1..]);
    }
  }

  lemma NothingLeft(s: State, k: nat)
    requires Inv(s) && k < |s.consoles| && s.cursor <= |s.remote| && Left(s, k) <= 0
    ensures s.cursor == |s.remote| && s.consoles[k].next == FirstBad(s.log) && s.consoles[k].seen == s.log[..FirstBad(s.log)]
    ensures Of(s.log, FromProduct) == s.product && Within(Kept(s.remote), Of(s.log, FromRuntime))
  {
    CallFitsHere(s, k);
    SeenAreGood(s.log, s.consoles[k]);
    hide FirstBad, ConsolesFit, Dense;
    assert s.remote[..s.cursor] == s.remote;
  }

  /** From any reachable state, once nothing more is written and if every record of the log can be on a page, as
      many requests as there is left give a console the whole log, with every Product and every runtime
      record, whatever limits it asks for. */
  lemma {:induction false} ConsoleCatchesUp(consoles: nat, before: seq<Step>, k: nat, asks: seq<Ask>)
    requires Legal(Initial(consoles), before) && k < |Exec(Initial(consoles), before).consoles|
    requires AllPrompt(Exec(Initial(consoles), before), k, asks)
    requires |asks| >= Left(Exec(Initial(consoles), before), k)
    requires var log := After(Exec(Initial(consoles), before), k, asks).log; forall r | r in log :: Good(r)
    ensures var s, s' := Exec(Initial(consoles), before), After(Exec(Initial(consoles), before), k, asks);
      && Legal(s, Requests(k, asks)) && Exec(s, Requests(k, asks)) == s'
      && k < |s'.consoles| && s'.consoles[k].seen == s'.log
      && Of(s'.log, FromProduct) == s.product && Within(Kept(s.remote), Of(s'.log, FromRuntime))
  {
    InitialInv(consoles);
    RunKeeps(Initial(consoles), before);
    var s := Exec(Initial(consoles), before);
    hide Exec, Legal, Inv;
    RequestsReach(s, k, asks);
    AllGood(After(s, k, asks).log);
    RequestsMove(s, k, asks);
    var s' := After(s, k, asks);
    hide AllPrompt, After, FirstBad, Left;
    NothingLeft(s', k);
    assert s'.log[..|s'.log|] == s'.log;
  }

  /** No request is between its reading of the cursor and its storing of it. */
  ghost predicate NoHarvest(s: State) {
    forall j | 0 <= j < |s.consoles| :: !Harvesting(s.consoles[j].call)
  }

  lemma {:induction false} RequestsAddOnce(s: State, k: nat, asks: seq<Ask>)
    requires UpTo(s, s.cursor) && AllPrompt(s, k, asks)
    ensures var s' := After(s, k, asks); UpTo(s', s'.cursor)
    decreases |asks|
  {
    if asks != [] {
      PolledAddsOnce(s, k, asks[0]);
      hide UpTo, Polled, Prompt;
      RequestsAddOnce(Polled(s, k, asks[0]), k, asks[1..]);
    }
  }

  lemma PolledAddsOnce(s: State, k: nat, ask: Ask)
    requires UpTo(s, s.cursor) && Prompt(s, k, ask)
    ensures UpTo(Polled(s, k, ask), Polled(s, k, ask).cursor)
  {
    hide UpTo, Answered, Appended, PageFor;
    UpToHarvest(s, Polled(s, k, ask), s.cursor, ask.count);
  }

  /** If until then harvests did not overlap, none failed between its append and its cursor, and none is under
      way, the console has then seen what the Product logged and what the runtime wrote, all of it, each
      record once and in order. */
  lemma {:induction false} ConsoleSeesAllOnce(consoles: nat, before: seq<Step>, k: nat, asks: seq<Ask>)
    requires Legal(Initial(consoles), before) && k < |Exec(Initial(consoles), before).consoles|
    requires Orderly(Initial(consoles), before) && NoHarvest(Exec(Initial(consoles), before))
    requires AllPrompt(Exec(Initial(consoles), before), k, asks)
    requires |asks| >= Left(Exec(Initial(consoles), before), k)
    requires var log := After(Exec(Initial(consoles), before), k, asks).log; forall r | r in log :: Good(r)
    ensures var s, s' := Exec(Initial(consoles), before), After(Exec(Initial(consoles), before), k, asks);
      && Legal(s, Requests(k, asks)) && Exec(s, Requests(k, asks)) == s'
      && k < |s'.consoles| && s'.consoles[k].seen == s'.log
      && Of(s'.consoles[k].seen, FromProduct) == s.product && Of(s'.consoles[k].seen, FromRuntime) == Kept(s.remote)
  {
    InitialInv(consoles);
    InitialOnce(consoles);
    OrderlyRun(Initial(consoles), before);
    var s := Exec(Initial(consoles), before);
    NoHarvestHere(s);
    ConsoleCatchesUp(consoles, before, k, asks);
    hide Exec, Legal, Orderly, Inv, UpTo;
    RequestsAddOnce(s, k, asks);
    AllGood(After(s, k, asks).log);
    RequestsMove(s, k, asks);
    var s' := After(s, k, asks);
    hide AllPrompt, After, FirstBad, Left;
    NothingLeft(s', k);
    EverythingOnce(s');
  }

  lemma EverythingOnce(s: State)
    requires UpTo(s, s.cursor) && s.cursor == |s.remote|
    ensures Of(s.log, FromRuntime) == Kept(s.remote)
  {
    assert s.remote[..s.cursor] == s.remote;
  }

  lemma AllGood(log: seq<Record>)
    requires forall r | r in log :: Good(r)
    ensures FirstBad(log) == |log|
  {
    hide Good;
    assert forall i | 0 <= i < |log| :: log[i] in log;
  }

  /** One record at a time a console gets exactly the records before the first that no page can hold. */
  lemma {:induction false} OneByOneReachesFirstBad(consoles: nat, before: seq<Step>, k: nat, asks: seq<Ask>)
    requires Legal(Initial(consoles), before) && k < |Exec(Initial(consoles), before).consoles|
    requires AllPrompt(Exec(Initial(consoles), before), k, asks) && forall ask | ask in asks :: ask.limit == 1
    requires |asks| >= Left(Exec(Initial(consoles), before), k)
    ensures var s, s' := Exec(Initial(consoles), before), After(Exec(Initial(consoles), before), k, asks);
      && Legal(s, Requests(k, asks)) && Exec(s, Requests(k, asks)) == s'
      && k < |s'.consoles| && s'.consoles[k].seen == s'.log[..FirstBad(s'.log)]
      && s'.cursor == |s.remote|
  {
    InitialInv(consoles);
    RunKeeps(Initial(consoles), before);
    var s := Exec(Initial(consoles), before);
    hide Exec, Legal, Inv;
    RequestsReach(s, k, asks);
    RequestsMove(s, k, asks);
    hide AllPrompt, After, FirstBad, Left;
    NothingLeft(After(s, k, asks), k);
  }

  /** A console that has everything stays where it is, unless the runtime goes on saying that it lost
      output: then every request brings one more record. */
  lemma CaughtUpStaysExactly(s: State, k: nat, degraded: bool, warningBytes: nat)
    requires k < |s.consoles| && s.cursor == |s.remote| && s.consoles[k].next == |s.log| && s.consoles[k].call.Idle?
    ensures Legal(s, Harvest(k, 0, degraded, warningBytes))
    ensures Exec(s, Harvest(k, 0, degraded, warningBytes)) == Calling(s, k, Listing) <==> !degraded
  {
    hide Reached, Harvest;
    ReachedStart(s);
    HarvestReaches(s, [], s, k, 0, degraded, warningBytes);
    assert [] + Harvest(k, 0, degraded, warningBytes) == Harvest(k, 0, degraded, warningBytes);
    ReachedIs(s, Harvest(k, 0, degraded, warningBytes), AfterHarvest(s, k, 0, degraded, warningBytes));
    assert s.remote[s.cursor..s.cursor + 0] == [];
    var s' := AfterHarvest(s, k, 0, degraded, warningBytes);
    assert if degraded then |s'.log| == |s.log| + 1 else s'.log == s.log;
  }
}
