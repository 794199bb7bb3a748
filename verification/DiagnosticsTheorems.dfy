/** What polling consoles see, over every interleaving and failure. */
module DiagnosticsTheorems {
  import opened Diagnostics
  import opened DiagnosticsPaging
  import opened DiagnosticsPolling

  // ----- what holds in every run

  /** A record that some page can hold. */
  ghost predicate Good(record: Record) {
    Accepted(record.document) && Fits([record])
  }

  ghost predicate ConsoleFits(log: seq<Record>, c: Console) {
    c.next <= |log| && c.seen == log[..c.next] && forall r | r in c.seen :: Good(r)
  }

  /** The documents are those kept of an answer, with marks behind them. */
  ghost predicate Marked(documents: seq<Document>, kept: seq<Document>) {
    kept <= documents && forall i | |kept| <= i < |documents| :: documents[i].source == Marker
  }

  /** The first runtime records, up to a cursor, are all in the log, in order. */
  ghost predicate Covered(log: seq<Record>, remote: seq<Item>, cursor: nat) {
    cursor <= |remote| && Within(Kept(remote[..cursor]), Of(log, FromRuntime))
  }

  ghost predicate CallFits(log: seq<Record>, remote: seq<Item>, call: Call) {
    match call
    case Idle => true
    case Listing => true
    case Asking(c) => Covered(log, remote, c)
    case Holding(c, documents, end) =>
      Covered(log, remote, c) && c <= end <= |remote| && Marked(documents, Kept(remote[c..end]))
    case Stored(c, end) => c <= end && Covered(log, remote, end)
  }

  ghost predicate ConsolesFit(s: State) {
    forall k | 0 <= k < |s.consoles| :: ConsoleFits(s.log, s.consoles[k]) && CallFits(s.log, s.remote, s.consoles[k].call)
  }

  ghost predicate LogFits(s: State) {
    Dense(s.log) && Of(s.log, FromProduct) == s.product && Covered(s.log, s.remote, s.cursor)
  }

  ghost predicate Inv(s: State) {
    LogFits(s) && ConsolesFit(s)
  }

  lemma InitialInv(consoles: nat)
    ensures Inv(Initial(consoles))
  {
  }

  lemma CoveredGrows(log: seq<Record>, more: seq<Record>, remote: seq<Item>, written: seq<Item>, cursor: nat)
    requires Covered(log, remote, cursor)
    ensures Covered(log + more, remote + written, cursor)
  {
    assert (remote + written)[..cursor] == remote[..cursor];
    OfAdd(log, more, FromRuntime);
    WithinMore(Kept(remote[..cursor]), Of(log, FromRuntime), Of(more, FromRuntime));
  }

  lemma CallGrows(log: seq<Record>, more: seq<Record>, remote: seq<Item>, written: seq<Item>, call: Call)
    requires CallFits(log, remote, call)
    ensures CallFits(log + more, remote + written, call)
  {
    hide Covered;
    match call
    case Asking(c) => CoveredGrows(log, more, remote, written, c);
    case Holding(c, documents, end) =>
      CoveredGrows(log, more, remote, written, c);
      assert (remote + written)[c..end] == remote[c..end];
    case Stored(c, end) => CoveredGrows(log, more, remote, written, end);
    case _ =>
  }

  lemma ConsoleGrows(log: seq<Record>, more: seq<Record>, c: Console)
    requires ConsoleFits(log, c)
    ensures ConsoleFits(log + more, c)
  {
    hide Good;
    assert (log + more)[..c.next] == log[..c.next];
  }

  /** A log and a runtime that only grow leave every console as it was. */
  lemma ConsolesGrow(s: State, more: seq<Record>, written: seq<Item>)
    requires ConsolesFit(s)
    ensures ConsolesFit(s.(log := s.log + more, remote := s.remote + written))
  {
    hide ConsoleFits, CallFits;
    forall k | 0 <= k < |s.consoles|
      ensures ConsoleFits(s.log + more, s.consoles[k]) && CallFits(s.log + more, s.remote + written, s.consoles[k].call)
    {
      ConsoleGrows(s.log, more, s.consoles[k]);
      CallGrows(s.log, more, s.remote, written, s.consoles[k].call);
    }
  }

  lemma LogKeeps(s: State, documents: seq<Document>)
    requires Inv(s) && forall d | d in documents :: IsProductRecord(d)
    ensures Inv(s.(log := Appended(s.log, documents), product := s.product + documents))
  {
    var more := Numbered(documents, |s.log|);
    ConsolesGrow(s, more, []);
    CoveredGrows(s.log, more, s.remote, [], s.cursor);
    assert s.remote + [] == s.remote;
    ProductSources(s.log, documents);
    DenseMore(s.log, documents);
    hide ConsolesFit, Covered, Of, Numbered, Dense;
  }

  lemma WriteKeeps(s: State, items: seq<Item>)
    requires Inv(s)
    ensures Inv(s.(remote := s.remote + items))
  {
    ConsolesGrow(s, [], items);
    CoveredGrows(s.log, [], s.remote, items, s.cursor);
    hide ConsolesFit, Covered, Of, Dense;
    assert s.log + [] == s.log;
  }

  /** One console moves, and fits as it does. */
  lemma ConsoleKeeps(s: State, k: nat, console: Console)
    requires Inv(s) && k < |s.consoles| && ConsoleFits(s.log, console) && CallFits(s.log, s.remote, console.call)
    ensures Inv(s.(consoles := s.consoles[k := console]))
  {
    hide Covered, Dense, Of, CallFits, ConsoleFits;
  }

  /** One console's request moves on, and its cursor and what it has seen stay. */
  lemma CallKeeps(s: State, k: nat, call: Call)
    requires Inv(s) && k < |s.consoles| && CallFits(s.log, s.remote, call)
    ensures Inv(Calling(s, k, call))
  {
    CallFitsHere(s, k);
    hide Inv, CallFits, Good;
    ConsoleKeeps(s, k, s.consoles[k].(call := call));
  }

  lemma AnswerMarks(s: State, cursor: nat, count: nat, degraded: bool, warningBytes: nat)
    requires cursor + count <= |s.remote|
    ensures Marked(Answered(s, cursor, count, degraded, warningBytes), Kept(s.remote[cursor..cursor + count]))
  {
    hide Kept;
  }

  lemma AppendKeeps(s: State, k: nat)
    requires Inv(s) && Enabled(s, Append(k))
    ensures Inv(Apply(s, Append(k)))
  {
    var Holding(c, documents, end) := s.consoles[k].call;
    assert CallFits(s.log, s.remote, s.consoles[k].call);
    var kept := Kept(s.remote[c..end]);
    var marks := documents[|kept|..];
    assert documents == kept + marks;
    assert forall d | d in marks :: d.source == Marker by {
      assert forall i | 0 <= i < |marks| :: marks[i] == documents[|kept| + i];
    }
    AnswerSources(s.log, s.remote[c..end], marks);
    StoredCovers(s, c, end, documents);
    CoveredGrows(s.log, Numbered(documents, |s.log|), s.remote, [], s.cursor);
    assert s.remote + [] == s.remote;
    DenseMore(s.log, documents);
    ConsolesGrow(s, Numbered(documents, |s.log|), []);
    hide Of, Kept, Numbered, Dense, Covered, ConsoleFits, Marked;
    var grown := s.(log := Appended(s.log, documents));
    assert grown == s.(log := s.log + Numbered(documents, |s.log|), remote := s.remote + []);
    CallKeeps(grown, k, Stored(c, end));
  }

  lemma StoredCovers(s: State, c: nat, end: nat, documents: seq<Document>)
    requires Covered(s.log, s.remote, c) && c <= end <= |s.remote|
    requires Of(Appended(s.log, documents), FromRuntime) == Of(s.log, FromRuntime) + Kept(s.remote[c..end])
    ensures Covered(Appended(s.log, documents), s.remote, end)
  {
    assert s.remote[..end] == s.remote[..c] + s.remote[c..end];
    KeptAdd(s.remote[..c], s.remote[c..end]);
    WithinBoth(Kept(s.remote[..c]), Of(s.log, FromRuntime), Kept(s.remote[c..end]));
    hide Within, Of, Kept, Appended;
  }

  lemma SetCursorKeeps(s: State, k: nat)
    requires Inv(s) && Enabled(s, SetCursor(k))
    ensures Inv(Apply(s, SetCursor(k)))
  {
    assert CallFits(s.log, s.remote, s.consoles[k].call);
    CallKeeps(s, k, Listing);
    hide Covered, Of, Dense, ConsoleFits;
  }

  // ----- what a page gives

  lemma FitsAlone(items: seq<Record>, i: nat)
    requires i < |items|
    ensures JsonLength([items[i]]) <= JsonLength(items)
    decreases |items|
  {
    var init := items[..|items| - 1];
    assert [items[i]][..0] == [] && InnerLength([]) == 0;
    assert InnerLength([items[i]]) == Bytes(items[i]);
    hide Bytes;
    if i < |init| {
      assert items[i] == init[i];
      FitsAlone(init, i);
    }
  }

  /** A page is the next records of the log, each of which can be on a page; it is empty exactly if there
      is no next record, or the next alone is over the budget, or a listed record is not accepted. */
  lemma PageGives(log: seq<Record>, after: nat, limit: int)
    requires after <= |log|
    ensures var page, listed := PageFor(log, after, limit), Listed(log, after, limit);
      && |page| <= |log| - after && page == log[after..after + |page|] && |page| <= Clamp(limit)
      && (forall r | r in page :: Good(r))
      && (page == [] <==> after == |log| || !Fits([log[after]]) || !AllAccepted(listed))
  {
    var listed, page := Listed(log, after, limit), PageFor(log, after, limit);
    if after < |log| && AllAccepted(listed) {
      assert listed[..1] == [log[after]];
      assert page == Cut(listed) && page == listed[..|page|];
      EmptyExactly(listed, page);
      hide Fits, Accepted, Cut;
      forall r | r in page ensures Good(r) {
        var i :| 0 <= i < |page| && page[i] == r;
        assert r == listed[i];
        GoodOnPage(page, i);
      }
    } else {
      assert Cut([]) == [];
    }
  }

  lemma GoodOnPage(page: seq<Record>, i: nat)
    requires i < |page| && Fits(page) && Accepted(page[i].document)
    ensures Good(page[i])
  {
    FitsAlone(page, i);
  }

  lemma ListKeeps(s: State, k: nat, limit: int)
    requires Inv(s) && Enabled(s, List(k, limit))
    ensures Inv(Apply(s, List(k, limit)))
  {
    var c := s.consoles[k];
    var page := PageFor(s.log, c.next, limit);
    hide Inv, Good, PageFor;
    CallFitsHere(s, k);
    PageGives(s.log, c.next, limit);
    GivenFits(s.log, c, page);
    GivenIdle(c, page);
    IdleFits(s.log, s.remote);
    hide ConsoleFits, CallFits, Given;
    ConsoleKeeps(s, k, Given(c, page));
  }

  lemma GivenIdle(c: Console, page: seq<Record>)
    ensures Given(c, page).call == Idle
  {
  }

  lemma IdleFits(log: seq<Record>, remote: seq<Item>)
    ensures CallFits(log, remote, Idle)
  {
  }

  lemma GivenFits(log: seq<Record>, c: Console, page: seq<Record>)
    requires ConsoleFits(log, c) && |page| <= |log| - c.next && page == log[c.next..c.next + |page|]
    requires forall r | r in page :: Good(r)
    ensures ConsoleFits(log, Given(c, page))
  {
    hide Good;
    assert log[..c.next] + page == log[..c.next + |page|];
  }

  lemma StepKeeps(s: State, step: Step)
    requires Inv(s) && Enabled(s, step)
    ensures Inv(Apply(s, step))
  {
    match step
    case Log(documents) => LogKeeps(s, documents);
    case Write(items) => WriteKeeps(s, items);
    case Append(k) => AppendKeeps(s, k);
    case SetCursor(k) => SetCursorKeeps(s, k);
    case List(k, limit) => ListKeeps(s, k, limit);
    case Answer(k, count, degraded, warningBytes) =>
      var c := s.consoles[k].call.cursor;
      AnswerMarks(s, c, count, degraded, warningBytes);
      CallFitsHere(s, k);
      hide Inv, Covered, Marked, Answered;
      CallKeeps(s, k, Holding(c, Answered(s, c, count, degraded, warningBytes), c + count));
    case Open(k) => CallKeeps(s, k, Asking(s.cursor));
    case Skip(k) => CallKeeps(s, k, Listing);
    case NoAnswer(k) => CallKeeps(s, k, Listing);
    case Fail(k) => CallKeeps(s, k, Idle);
  }

  lemma CallFitsHere(s: State, k: nat)
    requires Inv(s) && k < |s.consoles|
    ensures CallFits(s.log, s.remote, s.consoles[k].call) && ConsoleFits(s.log, s.consoles[k])
  {
  }

  lemma {:induction false} RunKeeps(s: State, run: seq<Step>)
    requires Inv(s) && Legal(s, run)
    ensures Inv(Exec(s, run))
    decreases |run|
  {
    if run != [] {
      StepKeeps(s, run[0]);
      hide Inv, Apply, Enabled;
      RunKeeps(Apply(s, run[0]), run[1..]);
    }
  }
}
