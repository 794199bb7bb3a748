/** Consoles that poll while the Product and the runtime go on writing.  `deployment_diagnostics` holds no
    lock, so a request is a chain of steps: it reads the runtime cursor, asks the runtime, appends what
    came, stores the cursor, and lists.  Anything may come between two of them, other requests included,
    and a request may fail after any of them, because something raises or the process dies. */
module DiagnosticsPolling {
  import opened Options
  import opened Diagnostics
  import opened DiagnosticsPaging

  /** Where a console's request stands.  The runtime honours its cursor: what it answers follows it. */
  datatype Call =
    | Idle
    | Asking(cursor: nat)
    | Holding(cursor: nat, documents: seq<Document>, end: nat)
    | Stored(cursor: nat, end: nat)
    | Listing

  /** `seen` is all that the console has been given and `next` the cursor it sends. */
  datatype Console = Console(seen: seq<Record>, next: nat, call: Call)

  /** `remote` is the runtime's own log and `product` all that the Product has logged. */
  datatype State = State(
    log: seq<Record>,
    cursor: nat,
    remote: seq<Item>,
    product: seq<Document>,
    consoles: seq<Console>)

  function Initial(consoles: nat): State {
    State([], 0, [], [], seq(consoles, _ => Console([], 0, Idle)))
  }

  datatype Step =
    | Log(documents: seq<Document>)
    | Write(items: seq<Item>)
    | Open(k: nat)
    | Skip(k: nat)
    | Answer(k: nat, count: nat, degraded: bool, warningBytes: nat)
    | NoAnswer(k: nat)
    | Append(k: nat)
    | SetCursor(k: nat)
    | List(k: nat, limit: int)
    | Fail(k: nat)

  predicate Enabled(s: State, step: Step) {
    match step
    case Log(documents) => forall d | d in documents :: IsProductRecord(d)
    case Write(_) => true
    case _ =>
      && step.k < |s.consoles|
      && var call := s.consoles[step.k].call;
         match step
         case Open(_) => call.Idle?
         case Skip(_) => call.Idle?
         case Answer(_, count, _, _) => call.Asking? && count <= HARVEST_LIMIT && call.cursor + count <= |s.remote|
         case NoAnswer(_) => call.Asking?
         case Append(_) => call.Holding?
         case SetCursor(_) => call.Stored?
         case List(_, _) => call.Listing?
         case Fail(_) => !call.Idle?
  }

  /** The longest fitting prefix, counted down as the source pops. */
  function Cut(items: seq<Record>): (kept: seq<Record>)
    ensures LongestFitting(items, kept)
    decreases |items|
  {
    if items == [] || Fits(items) then
      assert items[..|items|] == items;
      items
    else
      var shorter := items[..|items| - 1];
      assert forall k: nat | k <= |shorter| :: shorter[..k] == items[..k];
      assert items[..|items|] == items;
      Cut(shorter)
  }

  /** What a listing gives: nothing if some listed record is not accepted, for then the request raises. */
  function PageFor(log: seq<Record>, after: nat, limit: int): seq<Record> {
    var listed := Listed(log, after, limit);
    if AllAccepted(listed) then Cut(listed) else []
  }

  function Calling(s: State, k: nat, call: Call): State
    requires k < |s.consoles|
  {
    s.(consoles := s.consoles[k := s.consoles[k].(call := call)])
  }

  function Appended(log: seq<Record>, documents: seq<Document>): seq<Record> {
    log + Numbered(documents, |log|)
  }

  function Answered(s: State, cursor: nat, count: nat, degraded: bool, warningBytes: nat): seq<Document>
    requires cursor + count <= |s.remote|
  {
    HarvestedDocuments(Page(s.remote[cursor..cursor + count], degraded, Some(cursor + count)), warningBytes)
  }

  function Given(c: Console, page: seq<Record>): Console {
    Console(c.seen + page, c.next + |page|, Idle)
  }

  function Apply(s: State, step: Step): State
    requires Enabled(s, step)
  {
    match step
    case Log(documents) => s.(log := Appended(s.log, documents), product := s.product + documents)
    case Write(items) => s.(remote := s.remote + items)
    case Open(k) => Calling(s, k, Asking(s.cursor))
    case Skip(k) => Calling(s, k, Listing)
    case Answer(k, count, degraded, warningBytes) =>
      var c := s.consoles[k].call.cursor;
      Calling(s, k, Holding(c, Answered(s, c, count, degraded, warningBytes), c + count))
    case NoAnswer(k) => Calling(s, k, Listing)
    case Append(k) =>
      var call := s.consoles[k].call;
      Calling(s, k, Stored(call.cursor, call.end)).(log := Appended(s.log, call.documents))
    case SetCursor(k) => Calling(s, k, Listing).(cursor := s.consoles[k].call.end)
    case List(k, limit) =>
      var c := s.consoles[k];
      s.(consoles := s.consoles[k := Given(c, PageFor(s.log, c.next, limit))])
    case Fail(k) => Calling(s, k, Idle)
  }

  ghost predicate Legal(s: State, run: seq<Step>)
    decreases |run|
  {
    run == [] || (Enabled(s, run[0]) && Legal(Apply(s, run[0]), run[1..]))
  }

  ghost function Exec(s: State, run: seq<Step>): State
    requires Legal(s, run)
    decreases |run|
  {
    if run == [] then s else Exec(Apply(s, run[0]), run[1..])
  }

  /** The machine's page is the one that the service method promises. */
  lemma PageIsCut(items: seq<Record>, page: seq<Record>)
    requires LongestFitting(items, page)
    ensures page == Cut(items)
  {
    LongestIsOne(items, page, Cut(items));
  }

  // ----- the records of one source

  /** The documents of one source among some records, in order. */
  function Of(records: seq<Record>, source: Source): seq<Document> {
    if records == [] then []
    else
      var last := records[|records| - 1].document;
      Of(records[..|records| - 1], source) + (if last.source == source then [last] else [])
  }

  lemma {:induction false} OfAdd(a: seq<Record>, b: seq<Record>, source: Source)
    ensures Of(a + b, source) == Of(a, source) + Of(b, source)
    decreases |b|
  {
    if b == [] {
      assert a + b == a;
    } else {
      OfAdd(a, b[..|b| - 1], source);
      assert (a + b)[..|a + b| - 1] == a + b[..|b| - 1];
    }
  }

  lemma {:induction false} OfNumbered(documents: seq<Document>, start: nat, source: Source)
    requires forall d | d in documents :: d.source == source
    ensures Of(Numbered(documents, start), source) == documents
    ensures forall other: Source | other != source :: Of(Numbered(documents, start), other) == []
  {
    if documents != [] {
      var init := documents[..|documents| - 1];
      OfNumbered(init, start, source);
      assert Numbered(documents, start)[..|documents| - 1] == Numbered(init, start);
      assert documents == init + [documents[|documents| - 1]];
    }
  }

  lemma {:induction false} KeptAdd(a: seq<Item>, b: seq<Item>)
    ensures Kept(a + b) == Kept(a) + Kept(b)
    decreases |b|
  {
    if b == [] {
      assert a + b == a;
    } else {
      KeptAdd(a, b[..|b| - 1]);
      assert (a + b)[..|a + b| - 1] == a + b[..|b| - 1];
    }
  }

  lemma {:induction false} KeptFromRuntime(items: seq<Item>)
    ensures forall d | d in Kept(items) :: d.source == FromRuntime
    ensures |Kept(items)| <= |items|
  {
    if items != [] {
      KeptFromRuntime(items[..|items| - 1]);
    }
  }

  lemma NumberedAdd(a: seq<Document>, b: seq<Document>, start: nat)
    ensures Numbered(a + b, start) == Numbered(a, start) + Numbered(b, start + |a|)
  {
  }

  /** What one answer adds to the records of each source. */
  lemma AnswerSources(log: seq<Record>, items: seq<Item>, marks: seq<Document>)
    requires forall d | d in marks :: d.source == Marker
    ensures var after := Appended(log, Kept(items) + marks);
      Of(after, FromProduct) == Of(log, FromProduct) && Of(after, FromRuntime) == Of(log, FromRuntime) + Kept(items)
  {
    var documents, start := Kept(items), |log|;
    KeptFromRuntime(items);
    OfNumbered(documents, start, FromRuntime);
    OfNumbered(marks, start + |documents|, Marker);
    NumberedAdd(documents, marks, start);
    hide Of, Kept, Numbered;
    var a, b := Numbered(documents, start), Numbered(marks, start + |documents|);
    OfAdd(a, b, FromProduct);
    OfAdd(a, b, FromRuntime);
    OfAdd(log, a + b, FromProduct);
    OfAdd(log, a + b, FromRuntime);
  }

  lemma ProductSources(log: seq<Record>, documents: seq<Document>)
    requires forall d | d in documents :: d.source == FromProduct
    ensures var after := Appended(log, documents);
      Of(after, FromProduct) == Of(log, FromProduct) + documents && Of(after, FromRuntime) == Of(log, FromRuntime)
  {
    OfNumbered(documents, |log|, FromProduct);
    OfAdd(log, Numbered(documents, |log|), FromProduct);
    OfAdd(log, Numbered(documents, |log|), FromRuntime);
    hide Of, Numbered;
  }

  lemma DenseMore(log: seq<Record>, documents: seq<Document>)
    requires Dense(log)
    ensures Dense(Appended(log, documents))
  {
  }

  // ----- subsequences

  /** All of `a` in order among `b`, matched from the end. */
  predicate Within(a: seq<Document>, b: seq<Document>)
    decreases |b|
  {
    if a == [] then true
    else if b == [] then false
    else
      var shorter := b[..|b| - 1];
      if a[|a| - 1] == b[|b| - 1] then Within(a[..|a| - 1], shorter) else Within(a, shorter)
  }

  lemma {:induction false} WithinDrop(a: seq<Document>, b: seq<Document>)
    requires a != [] && Within(a, b)
    ensures Within(a[..|a| - 1], b)
    decreases |b|
  {
    var shorter, init := b[..|b| - 1], a[..|a| - 1];
    if init != [] {
      if a[|a| - 1] == b[|b| - 1] {
        if init[|init| - 1] == b[|b| - 1] {
          WithinDrop(init, shorter);
        }
      } else {
        WithinDrop(a, shorter);
        if init[|init| - 1] == b[|b| - 1] {
          WithinDrop(init, shorter);
        }
      }
    }
  }

  lemma {:induction false} WithinMore(a: seq<Document>, b: seq<Document>, c: seq<Document>)
    requires Within(a, b)
    ensures Within(a, b + c)
    decreases |c|
  {
    if c == [] {
      assert b + c == b;
    } else if a != [] {
      var init := c[..|c| - 1];
      assert (b + c)[..|b + c| - 1] == b + init;
      WithinMore(a, b, init);
      WithinDrop(a, b + init);
    }
  }

  lemma {:induction false} WithinBoth(a: seq<Document>, b: seq<Document>, c: seq<Document>)
    requires Within(a, b)
    ensures Within(a + c, b + c)
    decreases |c|
  {
    if c == [] {
      assert a + c == a && b + c == b;
    } else {
      var init := c[..|c| - 1];
      WithinBoth(a, b, init);
      assert (a + c)[..|a + c| - 1] == a + init && (b + c)[..|b + c| - 1] == b + init;
    }
  }
}
