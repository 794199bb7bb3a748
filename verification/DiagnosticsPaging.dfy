/** The console's page: harvest the runtime, read a page of the table, and cut it to the byte budget. */
module DiagnosticsPaging {
  import opened Options
  import opened Diagnostics

  /** What the runtime sends back: entries that are not records are skipped. */
  datatype Item = NotARecord | Line(text: nat, bytes: nat, mentions: bool, checked: Checked)

  /** No execution, a binding without the method, a binding that answers nothing, or a page. */
  datatype Reply =
    | NoExecution | NoReader | NoPage
    | Page(items: seq<Item>, degraded: bool, next: Option<int>)

  function Kept(items: seq<Item>): seq<Document> {
    if items == [] then []
    else
      var last := items[|items| - 1];
      Kept(items[..|items| - 1]) + (if last.Line? then [Harvested(last)] else [])
  }

  /** The message is cut; the other texts are stored as they came. */
  function Harvested(line: Item): Document
    requires line.Line?
  {
    Document(FromRuntime, line.text, line.bytes, line.mentions,
             line.checked.(message := Shorter(line.checked.message, MESSAGE_MAX)))
  }

  /** The record that tells the console that output was lost; its own text and length do not matter. */
  function Warning(bytes: nat): (warning: Document)
    ensures Accepted(warning)
  {
    Document(Marker, 0, bytes, true, Checked("warn", "combined", 53, Chars(28), Absent, Absent, true))
  }

  /** `record_deployment_diagnostic`: the message is stored at its full length. */
  predicate IsProductRecord(document: Document) {
    var c := document.checked;
    document.source.FromProduct? && c.level in LEVELS && c.stream == "combined" && c.request.Absent? && c.operation.Absent?
  }

  function HarvestedDocuments(reply: Reply, warningBytes: nat): seq<Document> {
    if !reply.Page? then []
    else Kept(reply.items) + (if reply.degraded then [Warning(warningBytes)] else [])
  }

  function HarvestedCursor(cursor: Option<int>, reply: Reply): Option<int> {
    if reply.Page? && reply.next.Some? then reply.next else cursor
  }

  function HarvestFlag(reply: Reply): bool {
    reply.NoReader? || reply.NoPage? || (reply.Page? && reply.degraded)
  }

  // ----- the byte budget

  lemma {:induction false} LongerIsLonger(items: seq<Record>, j: nat, k: nat)
    requires j <= k <= |items|
    ensures JsonLength(items[..j]) <= JsonLength(items[..k])
    decreases k
  {
    if j < k {
      LongerIsLonger(items, j, k - 1);
      assert items[..k][..k - 1] == items[..k - 1];
    }
  }

  /** A prefix that fits, or is empty, and that no longer prefix that fits extends. */
  ghost predicate LongestFitting(items: seq<Record>, page: seq<Record>) {
    && page <= items && (page == [] || Fits(page))
    && forall k: nat | |page| < k <= |items| :: !Fits(items[..k])
  }

  lemma LongestIsOne(items: seq<Record>, a: seq<Record>, b: seq<Record>)
    requires LongestFitting(items, a) && LongestFitting(items, b)
    ensures a == b
  {
    assert a == items[..|a|] && b == items[..|b|];
  }

  /** `_bound_diagnostics`: pop from the end while the page is too long. */
  method Bound(items: seq<Record>) returns (kept: seq<Record>)
    ensures LongestFitting(items, kept)
  {
    kept := items;
    while kept != [] && !Fits(kept)
      invariant kept <= items
      invariant forall k: nat | |kept| < k <= |items| :: !Fits(items[..k])
      decreases |kept|
    {
      assert kept == items[..|kept|];
      kept := kept[..|kept| - 1];
    }
  }

  /** The page is empty although there are items exactly if the first item alone is too long. */
  lemma EmptyExactly(items: seq<Record>, page: seq<Record>)
    requires LongestFitting(items, page) && items != []
    ensures page == [] <==> !Fits(items[..1])
  {
    if page != [] {
      assert page == items[..|page|];
      LongerIsLonger(items, 1, |page|);
    }
  }

  method Documents(items: seq<Item>) returns (documents: seq<Document>)
    ensures documents == Kept(items)
  {
    documents := [];
    for i := 0 to |items|
      invariant documents == Kept(items[..i])
    {
      assert items[..i + 1][..i] == items[..i];
      match items[i] {
        case NotARecord =>
        case Line(_, _, _, _) => documents := documents + [Harvested(items[i])];
      }
    }
    assert items[..|items|] == items;
  }

  // ----- the service

  /** `model_validate` on every listed record. */
  method Validate(items: seq<Record>) returns (ok: bool)
    ensures ok == AllAccepted(items)
  {
    ok := true;
    for i := 0 to |items|
      invariant ok == AllAccepted(items[..i])
    {
      assert items[..i + 1] == items[..i] + [items[i]];
      ok := ok && Accepted(items[i].document);
    }
    assert items[..|items|] == items;
  }

  /** A listed record that is not accepted makes the request raise. */
  datatype Answer = SequenceInvalid | RecordRejected | PageOf(items: seq<Record>, next: int, degraded: bool)

  class DiagnosticsService {
    const store: DiagnosticsStore

    constructor (store: DiagnosticsStore)
      ensures this.store == store
    {
      this.store := store;
    }

    method Harvest(reply: Reply, warningBytes: nat) returns (degraded: bool)
      requires store.Valid()
      modifies store
      ensures store.Valid() && degraded == HarvestFlag(reply)
      ensures store.Log() ==
              old(store.Log()) + Numbered(HarvestedDocuments(reply, warningBytes), |old(store.Log())|)
      ensures store.cursor == HarvestedCursor(old(store.cursor), reply)
      ensures forall i | i in old(store.rows) :: i in store.rows && store.rows[i] == old(store.rows)[i]
    {
      match reply {
        case NoExecution => return false;
        case NoReader => return true;
        case NoPage => return true;
        case Page(items, lost, next) =>
          var documents := Documents(items);
          if lost {
            documents := documents + [Warning(warningBytes)];
          }
          if documents != [] {
            store.Append(documents);
          }
          if next.Some? {
            store.cursor := next;
          }
          return lost;
      }
    }

    /** One request of a console: `next` is the number of the last record given, or the cursor it sent. */
    method DeploymentDiagnostics(after: int, limit: int, reply: Reply, warningBytes: nat) returns (answer: Answer)
      requires store.Valid()
      modifies store
      ensures store.Valid()
      ensures after < 0 ==> answer == SequenceInvalid && store.Log() == old(store.Log()) && store.cursor == old(store.cursor)
      ensures after >= 0 ==> store.cursor == HarvestedCursor(old(store.cursor), reply)
      ensures after >= 0 ==>
        store.Log() == old(store.Log()) + Numbered(HarvestedDocuments(reply, warningBytes), |old(store.Log())|)
      ensures after >= 0 ==>
        var listed := Listed(store.Log(), after, limit);
        if !AllAccepted(listed) then answer == RecordRejected
        else
          && answer.PageOf? && LongestFitting(listed, answer.items)
          && answer.next == (if answer.items == [] then after else after + |answer.items|)
          && (answer.degraded <==> HarvestFlag(reply) || exists r | r in store.Log() :: r.document.mentions)
    {
      if after < 0 {
        return SequenceInvalid;
      }
      var degraded := Harvest(reply, warningBytes);
      var records := store.List(after, limit);
      var valid := Validate(records);
      if !valid {
        return RecordRejected;
      }
      var items := Bound(records);
      var mentioned := store.MentionsDegraded();
      var next := if items == [] then after else items[|items| - 1].sequence;
      ListedNumbers(store.Log(), after, limit);
      answer := PageOf(items, next, degraded || mentioned);
    }
  }

  lemma ListedNumbers(log: seq<Record>, after: nat, limit: int)
    requires Dense(log)
    ensures forall i | 0 <= i < |Listed(log, after, limit)| :: Listed(log, after, limit)[i].sequence == after + i + 1
  {
  }
}
