/** The diagnostics of one Deployment: a table numbered by the Product, the cursor into the runtime's own
    log, and the page a console reads. */
module Diagnostics {
  import opened Options
  import Decimals

  /** A marker says that the runtime could not keep all of its output. */
  datatype Source = FromProduct | FromRuntime | Marker

  /** An optional text of a record: not there, something else than a text, or so many characters. */
  datatype Text = Absent | NotText | Chars(length: nat)

  /** What the reading of a stored record checks; nothing checks it when the record is stored.  `unicode`
      says that every text of the record can be encoded. */
  datatype Checked = Checked(
    level: string, stream: string, message: nat, code: Text, request: Text, operation: Text, unicode: bool)

  /** `bytes` is the length of the serialized record without its number, and `mentions` says whether the
      text holds the code of a marker. */
  datatype Document = Document(source: Source, text: nat, bytes: nat, mentions: bool, checked: Checked)

  const LEVELS := {"debug", "info", "warn", "error"}
  const STREAMS := {"stdout", "stderr", "combined"}
  const MESSAGE_MAX := 8192
  const LABEL_MAX := 200

  predicate Short(text: Text) {
    text.Absent? || (text.Chars? && text.length <= LABEL_MAX)
  }

  /** `DiagnosticRecord.model_validate` accepts the record. */
  predicate Accepted(document: Document) {
    var c := document.checked;
    && c.level in LEVELS && c.stream in STREAMS && c.message <= MESSAGE_MAX
    && Short(c.code) && Short(c.request) && Short(c.operation) && c.unicode
  }

  predicate AllAccepted(items: seq<Record>) {
    forall r | r in items :: Accepted(r.document)
  }

  datatype Record = Record(sequence: nat, document: Document)

  const PAGE_MAX_BYTES := 1024 * 1024
  const HARVEST_LIMIT := 500

  function Bytes(record: Record): nat {
    record.document.bytes + |Decimals.Print(record.sequence)|
  }

  /** The records and a comma before each but the first. */
  function InnerLength(items: seq<Record>): nat {
    if items == [] then 0
    else InnerLength(items[..|items| - 1]) + (if |items| == 1 then 0 else 1) + Bytes(items[|items| - 1])
  }

  function JsonLength(items: seq<Record>): nat {
    2 + InnerLength(items)
  }

  predicate Fits(items: seq<Record>) {
    JsonLength(items) <= PAGE_MAX_BYTES
  }

  /** Numbered 1..n in order. */
  ghost predicate Dense(log: seq<Record>) {
    forall i | 0 <= i < |log| :: log[i].sequence == i + 1
  }

  function Numbered(documents: seq<Document>, start: nat): (records: seq<Record>)
    ensures |records| == |documents|
  {
    seq(|documents|, i requires 0 <= i < |documents| => Record(start + i + 1, documents[i]))
  }

  lemma NumberedMore(documents: seq<Document>, k: nat, start: nat)
    requires k < |documents|
    ensures Numbered(documents[..k + 1], start) ==
            Numbered(documents[..k], start) + [Record(start + k + 1, documents[k])]
  {
  }

  function Clamp(limit: int): (bounded: nat)
    ensures 1 <= bounded <= 500 && (1 <= limit <= 500 ==> bounded == limit)
  {
    if limit < 1 then 1 else if limit > 500 then 500 else limit
  }

  function Shorter(a: nat, b: nat): nat {
    if a < b then a else b
  }

  /** The records after a position, at most so many. */
  function Listed(log: seq<Record>, after: nat, limit: int): seq<Record> {
    if after >= |log| then [] else log[after..after + Shorter(Clamp(limit), |log| - after)]
  }

  lemma ListedMore(log: seq<Record>, i: nat, after: nat, limit: int)
    requires i < |log|
    ensures Listed(log[..i + 1], after, limit) ==
            if i >= after && |Listed(log[..i], after, limit)| < Clamp(limit) then Listed(log[..i], after, limit) + [log[i]]
            else Listed(log[..i], after, limit)
  {
    var bound := Clamp(limit);
    hide Clamp;
    if i >= after {
      var k := Shorter(bound, i - after);
      assert Listed(log[..i], after, limit) == log[after..after + k];
      if k == i - after && k < bound {
        assert log[after..i + 1] == log[after..i] + [log[i]];
      }
    }
  }

  /** The table and the cursor.  A row's key is its record index. */
  class DiagnosticsStore {
    var rows: map<nat, Record>
    var cursor: Option<int>

    ghost predicate Valid()
      reads this`rows
    {
      && (forall i: nat :: i in rows <==> i < |rows|)
      && forall i: nat | i < |rows| :: rows[i].sequence == i + 1
    }

    ghost function Log(): (log: seq<Record>)
      requires Valid()
      reads this`rows
      ensures |log| == |rows| && Dense(log)
    {
      var table := rows;
      seq(|table|, i requires 0 <= i < |table| && i in table => table[i])
    }

    constructor ()
      ensures Valid() && Log() == [] && cursor == None
    {
      rows, cursor := map[], None;
    }

    /** The next number comes from MAX, the next row from COUNT; no row that is there is replaced. */
    method Append(documents: seq<Document>)
      requires Valid()
      modifies this
      ensures Valid() && cursor == old(cursor)
      ensures Log() == old(Log()) + Numbered(documents, |old(Log())|)
      ensures forall i | i in old(rows) :: i in rows && rows[i] == old(rows)[i]
    {
      if documents == [] {
        return;
      }
      var sequence := Highest();
      var index := |rows|;
      for offset := 0 to |documents|
        invariant Valid() && cursor == old(cursor)
        invariant index == |old(Log())| && sequence == index + offset == |rows|
        invariant Log() == old(Log()) + Numbered(documents[..offset], index)
        invariant forall i | i in old(rows) :: i in rows && rows[i] == old(rows)[i]
      {
        sequence := sequence + 1;
        NumberedMore(documents, offset, index);
        Insert(index + offset, Record(sequence, documents[offset]));
      }
      assert documents[..|documents|] == documents;
    }

    /** `INSERT OR REPLACE`, at the first free index. */
    method Insert(index: nat, record: Record)
      requires Valid() && index == |rows| && record.sequence == index + 1
      modifies this`rows
      ensures Valid() && Log() == old(Log()) + [record]
      ensures forall i | i in old(rows) :: i in rows && rows[i] == old(rows)[i]
    {
      assert index !in rows;
      rows := rows[index := record];
      assert Log() == old(Log()) + [record];
    }

    /** `COALESCE(MAX(sequence), 0)`. */
    method Highest() returns (highest: nat)
      requires Valid()
      ensures highest == |rows|
    {
      highest := 0;
      for i := 0 to |rows|
        invariant highest == i
      {
        if rows[i].sequence > highest {
          highest := rows[i].sequence;
        }
      }
    }

    /** `WHERE sequence > ? ORDER BY sequence LIMIT ?`. */
    method List(after: nat, limit: int) returns (records: seq<Record>)
      requires Valid()
      ensures records == Listed(Log(), after, limit)
    {
      var bounded := Clamp(limit);
      records := [];
      for i := 0 to |rows|
        invariant records == Listed(Log()[..i], after, limit)
      {
        ListedMore(Log(), i, after, limit);
        if rows[i].sequence > after && |records| < bounded {
          records := records + [rows[i]];
        }
      }
      assert Log()[..|rows|] == Log();
    }

    method MentionsDegraded() returns (found: bool)
      requires Valid()
      ensures found <==> exists r | r in Log() :: r.document.mentions
    {
      found := false;
      for i := 0 to |rows|
        invariant found <==> exists r | r in Log()[..i] :: r.document.mentions
      {
        assert Log()[..i + 1] == Log()[..i] + [rows[i]];
        found := found || rows[i].document.mentions;
      }
      assert Log()[..|rows|] == Log();
    }
  }
}
