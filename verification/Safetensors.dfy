/** The tensors of the LoRA fixture: their names, where their bytes lie, and the file around them. */
module Safetensors {
  import opened Options
  import Decimals

  type Byte = n: nat | n < 256

  const RANK := 8

  /** `data_offsets`, with the shape. */
  datatype Entry = Entry(rows: nat, cols: nat, begin: nat, end: nat)

  datatype Layout = Layout(tensors: map<string, Entry>, data: seq<Byte>)

  datatype Dims = Dims(hidden: nat, layers: nat, heads: nat, kvHeads: nat) {
    predicate Valid() {
      hidden >= 1 && layers >= 1 && heads >= 1 && kvHeads >= 1 && hidden % heads == 0
    }

    function KvWidth(): nat
      requires heads >= 1
    {
      kvHeads * hidden / heads
    }
  }

  const HEAD := "base_model.model.model.layers."

  /** The header's other key. */
  const METADATA := "__metadata__"

  function Tail(modul: nat, matrix: nat): string {
    ".self_attn." + (if modul == 0 then "q" else "v") + "_proj.lora_" + (if matrix == 0 then "A" else "B") + ".weight"
  }

  function Name(layer: nat, modul: nat, matrix: nat): string {
    HEAD + (Decimals.Print(layer) + Tail(modul, matrix))
  }

  lemma DotIsNoDigit(a: string, x: string, y: string)
    requires a != [] && forall c | c in a :: Decimals.IsDigit(c)
    ensures ['.'] + x != a + y
  {
    assert (['.'] + x)[0] == '.' && (a + y)[0] == a[0] && a[0] in a;
  }

  /** Digits end at the first dot. */
  lemma {:induction false} DigitsEnd(a: string, b: string, x: string, y: string)
    requires forall c | c in a || c in b :: Decimals.IsDigit(c)
    requires a + (['.'] + x) == b + (['.'] + y)
    ensures a == b && x == y
    decreases |a|
  {
    var s, t := a + (['.'] + x), b + (['.'] + y);
    if a == [] && b == [] {
      assert s[1..] == x && t[1..] == y;
    } else if a == [] {
      DotIsNoDigit(b, x, ['.'] + y);
    } else if b == [] {
      DotIsNoDigit(a, y, ['.'] + x);
    } else {
      assert s[1..] == a[1..] + (['.'] + x) && t[1..] == b[1..] + (['.'] + y);
      DigitsEnd(a[1..], b[1..], x, y);
      assert a == [s[0]] + a[1..] && b == [t[0]] + b[1..];
    }
  }

  /** No two tensors share a name, and none is called like the metadata. */
  lemma NamesDistinct(layer: nat, modul: nat, matrix: nat, layer2: nat, module2: nat, matrix2: nat)
    requires modul < 2 && matrix < 2 && module2 < 2 && matrix2 < 2
    requires Name(layer, modul, matrix) == Name(layer2, module2, matrix2)
    ensures layer == layer2 && modul == module2 && matrix == matrix2
    ensures Name(layer, modul, matrix) != METADATA
  {
    NoMetadata(Decimals.Print(layer) + Tail(modul, matrix));
    hide HEAD, METADATA;
    var p, q := Decimals.Print(layer), Decimals.Print(layer2);
    var t, u := Tail(modul, matrix), Tail(module2, matrix2);
    Dotted(modul, matrix);
    Dotted(module2, matrix2);
    hide Tail, Decimals.Print;
    BehindHead(HEAD, p + t, q + u);
    DigitsEnd(p, q, t[1..], u[1..]);
    Decimals.PrintInjective(layer, layer2);
    TailsDistinct(modul, matrix, module2, matrix2);
  }

  lemma NoMetadata(rest: string)
    ensures HEAD + rest != METADATA
  {
    assert (HEAD + rest)[0] == HEAD[0] == 'b' && METADATA[0] == '_';
  }

  lemma Dotted(modul: nat, matrix: nat)
    ensures Tail(modul, matrix) == ['.'] + Tail(modul, matrix)[1..]
  {
  }

  lemma BehindHead(head: string, x: string, y: string)
    requires head + x == head + y
    ensures x == y
  {
    assert (head + x)[|head|..] == x && (head + y)[|head|..] == y;
  }

  lemma TailsDistinct(modul: nat, matrix: nat, module2: nat, matrix2: nat)
    requires modul < 2 && matrix < 2 && module2 < 2 && matrix2 < 2
    requires Tail(modul, matrix)[1..] == Tail(module2, matrix2)[1..]
    ensures modul == module2 && matrix == matrix2
  {
    var t, u := Tail(modul, matrix), Tail(module2, matrix2);
    assert t[11] == t[1..][10] && u[11] == u[1..][10];
    assert t[23] == t[1..][22] && u[23] == u[1..][22];
  }

  // ----- the slots, in the order the loops visit them

  function Rows(d: Dims, modul: nat, matrix: nat): nat
    requires d.heads >= 1
  {
    if matrix == 0 then RANK else if modul == 0 then d.hidden else d.KvWidth()
  }

  function Cols(d: Dims, matrix: nat): nat {
    if matrix == 0 then d.hidden else RANK
  }

  /** Four bytes for each value. */
  function Size(d: Dims, modul: nat, matrix: nat): nat
    requires d.heads >= 1
  {
    4 * (Rows(d, modul, matrix) * Cols(d, matrix))
  }

  /** Slot `k` is matrix `k % 2` of module `k / 2 % 2` of layer `k / 4`. */
  function SlotName(k: nat): string {
    Name(k / 4, k / 2 % 2, k % 2)
  }

  function SlotSize(d: Dims, k: nat): nat
    requires d.heads >= 1
  {
    Size(d, k / 2 % 2, k % 2)
  }

  function Offset(d: Dims, k: nat): nat
    requires d.heads >= 1
  {
    if k == 0 then 0 else Offset(d, k - 1) + SlotSize(d, k - 1)
  }

  function SlotEntry(d: Dims, k: nat): Entry
    requires d.heads >= 1
  {
    Entry(Rows(d, k / 2 % 2, k % 2), Cols(d, k % 2), Offset(d, k), Offset(d, k + 1))
  }

  lemma SlotsDistinct(j: nat, k: nat)
    requires SlotName(j) == SlotName(k)
    ensures j == k
  {
    hide Name;
    NamesDistinct(j / 4, j / 2 % 2, j % 2, k / 4, k / 2 % 2, k % 2);
    hide SlotName;
    Parts(j);
    Parts(k);
  }

  lemma SlotsNamed(k: nat)
    ensures SlotName(k) != METADATA
  {
    hide Name, METADATA;
    NamesDistinct(k / 4, k / 2 % 2, k % 2, k / 4, k / 2 % 2, k % 2);
  }

  lemma Half(n: nat)
    ensures n == 2 * (n / 2) + n % 2 && n / 4 == n / 2 / 2
  {
  }

  lemma Doubled(q: nat, r: nat)
    requires r < 2
    ensures (2 * q + r) / 2 == q && (2 * q + r) % 2 == r
  {
  }

  lemma Parts(k: nat)
    ensures k == 4 * (k / 4) + 2 * (k / 2 % 2) + k % 2
  {
    Half(k);
    Half(k / 2);
  }

  lemma {:induction false} OffsetsGrow(d: Dims, j: nat, k: nat)
    requires d.heads >= 1 && j <= k
    ensures Offset(d, j) <= Offset(d, k)
    decreases k
  {
    if j < k {
      OffsetsGrow(d, j, k - 1);
    }
  }

  function LayerBytes(d: Dims): nat
    requires d.heads >= 1
  {
    32 * (3 * d.hidden + d.KvWidth())
  }

  lemma LayerSize(d: Dims, layer: nat)
    requires d.heads >= 1
    ensures Offset(d, 4 * layer + 4) == Offset(d, 4 * layer) + LayerBytes(d)
  {
    var k := 4 * layer;
    assert SlotSize(d, k) == 32 * d.hidden && SlotSize(d, k + 1) == 32 * d.hidden;
    assert SlotSize(d, k + 2) == 32 * d.hidden && SlotSize(d, k + 3) == 32 * d.KvWidth();
    assert Offset(d, k + 1) == Offset(d, k) + SlotSize(d, k);
    assert Offset(d, k + 2) == Offset(d, k + 1) + SlotSize(d, k + 1);
    assert Offset(d, k + 3) == Offset(d, k + 2) + SlotSize(d, k + 2);
  }

  lemma OneMore(n: nat, each: nat)
    requires n > 0
    ensures n * each == (n - 1) * each + each
  {
  }

  lemma {:induction false} LayersSize(d: Dims, layers: nat)
    requires d.heads >= 1
    ensures Offset(d, 4 * layers) == layers * LayerBytes(d)
  {
    if layers > 0 {
      LayersSize(d, layers - 1);
      LayerSize(d, layers - 1);
      hide Offset, LayerBytes;
      OneMore(layers, LayerBytes(d));
    }
  }

  lemma TotalSize(d: Dims, layers: nat)
    requires d.heads >= 1
    ensures Offset(d, 4 * layers) == 32 * layers * (3 * d.hidden + d.KvWidth())
  {
    LayersSize(d, layers);
    hide Offset;
    Regroup(layers, 3 * d.hidden + d.KvWidth());
  }

  lemma Regroup(a: nat, b: nat)
    ensures a * (32 * b) == 32 * a * b
  {
  }

  /** The slot that a byte of the data belongs to. */
  lemma {:induction false} SlotOf(d: Dims, n: nat, at: nat) returns (k: nat)
    requires d.heads >= 1 && at < Offset(d, n)
    ensures k < n && Offset(d, k) <= at < Offset(d, k + 1)
  {
    if at >= Offset(d, n - 1) {
      k := n - 1;
    } else {
      k := SlotOf(d, n - 1, at);
    }
  }

  // ----- the loops

  ghost predicate InTable(d: Dims, tensors: map<string, Entry>, k: nat)
    requires d.heads >= 1
  {
    SlotName(k) in tensors && tensors[SlotName(k)] == SlotEntry(d, k)
  }

  ghost predicate InData(d: Dims, draw: (string, nat) -> seq<Byte>, data: seq<Byte>, k: nat)
    requires d.heads >= 1
  {
    && Offset(d, k) <= Offset(d, k + 1) <= |data|
    && data[Offset(d, k)..Offset(d, k + 1)] == draw(SlotName(k), SlotSize(d, k))
  }

  /** The first `n` slots are in the table, at their places, with their data, and nothing else is. */
  ghost predicate Holds(d: Dims, draw: (string, nat) -> seq<Byte>, n: nat, l: Layout)
    requires d.heads >= 1
  {
    && |l.tensors| == n && |l.data| == Offset(d, n)
    && (forall k: nat | k < n :: InTable(d, l.tensors, k) && InData(d, draw, l.data, k))
    && (forall name | name in l.tensors :: exists k: nat :: k < n && SlotName(k) == name)
  }

  lemma TableMore(d: Dims, n: nat, tensors: map<string, Entry>)
    requires d.heads >= 1 && |tensors| == n
    requires forall k: nat | k < n :: InTable(d, tensors, k)
    requires forall name | name in tensors :: exists k: nat :: k < n && SlotName(k) == name
    ensures var more := tensors[SlotName(n) := SlotEntry(d, n)];
      && |more| == n + 1
      && (forall k: nat | k < n + 1 :: InTable(d, more, k))
      && (forall name | name in more :: exists k: nat :: k < n + 1 && SlotName(k) == name)
  {
    hide SlotName, SlotEntry;
    forall k: nat | k < n ensures SlotName(k) != SlotName(n) {
      if SlotName(k) == SlotName(n) {
        SlotsDistinct(k, n);
      }
    }
    assert SlotName(n) !in tensors;
    var more := tensors[SlotName(n) := SlotEntry(d, n)];
    forall k: nat | k < n + 1 ensures InTable(d, more, k) {
      assert k < n ==> InTable(d, tensors, k);
    }
  }

  lemma DataMore(d: Dims, draw: (string, nat) -> seq<Byte>, n: nat, data: seq<Byte>)
    requires d.heads >= 1 && |data| == Offset(d, n) && |draw(SlotName(n), SlotSize(d, n))| == SlotSize(d, n)
    requires forall k: nat | k < n :: InData(d, draw, data, k)
    ensures var more := data + draw(SlotName(n), SlotSize(d, n));
      |more| == Offset(d, n + 1) && forall k: nat | k < n + 1 :: InData(d, draw, more, k)
  {
    var chunk := draw(SlotName(n), SlotSize(d, n));
    var more := data + chunk;
    assert Offset(d, n + 1) == Offset(d, n) + SlotSize(d, n);
    hide Offset, SlotName, SlotSize;
    forall k: nat | k < n ensures InData(d, draw, more, k) {
      assert InData(d, draw, data, k);
      assert more[Offset(d, k)..Offset(d, k + 1)] == data[Offset(d, k)..Offset(d, k + 1)];
    }
    assert more[Offset(d, n)..Offset(d, n + 1)] == chunk;
    assert InData(d, draw, more, n);
  }

  /** `struct.pack` gives four bytes for each value drawn. */
  ghost predicate Packs(draw: (string, nat) -> seq<Byte>) {
    forall name, size :: |draw(name, size)| == size
  }

  /** The values of one tensor, packed. */
  function Pack(draw: (string, nat) -> seq<Byte>, name: string, rows: nat, cols: nat): seq<Byte> {
    draw(name, 4 * (rows * cols))
  }

  /** A configuration with dimensions below one, or with heads that do not divide the hidden size, is
      refused. */
  method MakeLayout(hidden: int, layers: int, heads: int, kvHeads: int, draw: (string, nat) -> seq<Byte>)
    returns (r: Option<Layout>)
    requires Packs(draw)
    ensures r == None <==> hidden < 1 || layers < 1 || heads < 1 || kvHeads < 1 || hidden % heads != 0
    ensures r.Some? ==> Holds(Dims(hidden, layers, heads, kvHeads), draw, 4 * layers, r.value)
  {
    if hidden < 1 || layers < 1 || heads < 1 || kvHeads < 1 || hidden % heads != 0 {
      return None;
    }
    hide Holds;
    var layout := Fill(Dims(hidden, layers, heads, kvHeads), draw);
    return Some(layout);
  }

  /** The outer two of the three nested loops. */
  method Fill(d: Dims, draw: (string, nat) -> seq<Byte>) returns (layout: Layout)
    requires d.heads >= 1 && Packs(draw)
    ensures Holds(d, draw, 4 * d.layers, layout)
  {
    HoldsNone(d, draw);
    hide Holds, Packs;
    layout := Layout(map[], []);
    ghost var n := 0;
    for layer := 0 to d.layers
      invariant n == 4 * layer && Holds(d, draw, n, layout)
    {
      for modul := 0 to 2
        invariant n == 4 * layer + 2 * modul && Holds(d, draw, n, layout)
      {
        layout := FillModule(d, draw, layer, modul, layout);
        n := n + 2;
      }
    }
  }

  /** The innermost loop: the two matrices of one module, from where the data ends. */
  method FillModule(d: Dims, draw: (string, nat) -> seq<Byte>, layer: nat, modul: nat, before: Layout)
    returns (after: Layout)
    requires d.heads >= 1 && Packs(draw) && modul < 2 && Holds(d, draw, 4 * layer + 2 * modul, before)
    ensures Holds(d, draw, 4 * layer + 2 * modul + 2, after)
  {
    hide Holds, Name, Rows, Cols, Pack, Dims.KvWidth, Packs;
    var width := if modul == 0 then d.hidden else d.KvWidth();
    after := before;
    for matrix := 0 to 2
      invariant Holds(d, draw, 4 * layer + 2 * modul + matrix, after)
    {
      ghost var was := after;
      var name, offset := Name(layer, modul, matrix), |after.data|;
      var rows, cols := if matrix == 0 then RANK else width, if matrix == 0 then d.hidden else RANK;
      var chunk := Pack(draw, name, rows, cols);
      after := Layout(after.tensors[name := Entry(rows, cols, offset, offset + |chunk|)], after.data + chunk);
      Shape(d, modul, matrix);
      Turn(d, draw, layer, modul, matrix, was, after);
    }
  }

  lemma HoldsNone(d: Dims, draw: (string, nat) -> seq<Byte>)
    requires d.heads >= 1
    ensures Holds(d, draw, 0, Layout(map[], []))
  {
  }

  lemma Shape(d: Dims, modul: nat, matrix: nat)
    requires d.heads >= 1
    ensures Rows(d, modul, matrix) == if matrix == 0 then RANK else if modul == 0 then d.hidden else d.KvWidth()
    ensures Cols(d, matrix) == if matrix == 0 then d.hidden else RANK
  {
  }

  /** One turn of the innermost loop. */
  lemma Turn(d: Dims, draw: (string, nat) -> seq<Byte>, layer: nat, modul: nat, matrix: nat, before: Layout, after: Layout)
    requires d.heads >= 1 && Packs(draw) && modul < 2 && matrix < 2
    requires Holds(d, draw, 4 * layer + 2 * modul + matrix, before)
    requires var name, rows, cols := Name(layer, modul, matrix), Rows(d, modul, matrix), Cols(d, matrix);
      var chunk, offset := Pack(draw, name, rows, cols), |before.data|;
      after == Layout(before.tensors[name := Entry(rows, cols, offset, offset + |chunk|)], before.data + chunk)
    ensures Holds(d, draw, 4 * layer + 2 * modul + matrix + 1, after)
  {
    hide SlotName, SlotSize, SlotEntry, Offset, Rows, Cols, Name, InTable, InData;
    var n := 4 * layer + 2 * modul + matrix;
    SlotAt(d, layer, modul, matrix);
    TableMore(d, n, before.tensors);
    DataMore(d, draw, n, before.data);
  }

  lemma SlotAt(d: Dims, layer: nat, modul: nat, matrix: nat)
    requires d.heads >= 1 && modul < 2 && matrix < 2
    ensures var n, size := 4 * layer + 2 * modul + matrix, 4 * (Rows(d, modul, matrix) * Cols(d, matrix));
      && SlotName(n) == Name(layer, modul, matrix) && SlotSize(d, n) == size
      && SlotEntry(d, n) == Entry(Rows(d, modul, matrix), Cols(d, matrix), Offset(d, n), Offset(d, n) + size)
  {
    var n := 4 * layer + 2 * modul + matrix;
    PartsOf(layer, modul, matrix);
    hide Rows, Cols, Name;
    assert SlotSize(d, n) == Size(d, modul, matrix);
    assert Offset(d, n + 1) == Offset(d, n) + SlotSize(d, n);
  }

  lemma PartsOf(layer: nat, modul: nat, matrix: nat)
    requires modul < 2 && matrix < 2
    ensures var n := 4 * layer + 2 * modul + matrix; n / 4 == layer && n / 2 % 2 == modul && n % 2 == matrix
  {
    var n, h := 4 * layer + 2 * modul + matrix, 2 * layer + modul;
    assert n == 2 * h + matrix;
    Doubled(h, matrix);
    Doubled(layer, modul);
    Half(n);
  }

  // ----- what the layout is for

  /** The tensors are `4 * layers`, and the header has one key more; each range is four bytes a value, and
      every byte of the data lies in exactly one range. */
  lemma {:induction false} RangesTile(d: Dims, draw: (string, nat) -> seq<Byte>, l: Layout)
    requires d.Valid() && Holds(d, draw, 4 * d.layers, l)
    ensures METADATA !in l.tensors && |l.tensors.Keys + {METADATA}| == 4 * d.layers + 1
    ensures |l.tensors| == 4 * d.layers && |l.data| == 32 * d.layers * (3 * d.hidden + d.kvHeads * d.hidden / d.heads)
    ensures forall name | name in l.tensors ::
      l.tensors[name].end - l.tensors[name].begin == 4 * (l.tensors[name].rows * l.tensors[name].cols)
    ensures forall at: nat | at < |l.data| :: Covered(l, at)
    ensures forall a, b, at: nat | a in l.tensors && b in l.tensors && Covers(l.tensors[a], at) && Covers(l.tensors[b], at) ::
      a == b
  {
    TotalSize(d, d.layers);
    HeaderKeys(d, draw, l);
    hide SlotName, Offset, InTable, InData, Covers, METADATA;
    assert |l.tensors| == 4 * d.layers && |l.data| == Offset(d, 4 * d.layers);
    hide Holds;
    forall name | name in l.tensors
      ensures l.tensors[name].end - l.tensors[name].begin == 4 * (l.tensors[name].rows * l.tensors[name].cols)
    {
      var k := SlotNamed(d, draw, l, name);
    }
    forall at: nat | at < |l.data| ensures Covered(l, at) {
      EveryByte(d, draw, l, at);
    }
    forall a, b, at: nat | a in l.tensors && b in l.tensors && Covers(l.tensors[a], at) && Covers(l.tensors[b], at)
      ensures a == b
    {
      var j := SlotNamed(d, draw, l, a);
      var k := SlotNamed(d, draw, l, b);
      OneSlot(d, j, k, at);
    }
  }

  lemma HeaderKeys(d: Dims, draw: (string, nat) -> seq<Byte>, l: Layout)
    requires d.heads >= 1 && Holds(d, draw, 4 * d.layers, l)
    ensures METADATA !in l.tensors && |l.tensors.Keys + {METADATA}| == 4 * d.layers + 1
  {
    assert |l.tensors.Keys| == 4 * d.layers;
    hide Holds, SlotName, METADATA;
    if METADATA in l.tensors {
      var k := SlotNamed(d, draw, l, METADATA);
      SlotsNamed(k);
    }
  }

  ghost predicate Covered(l: Layout, at: nat) {
    exists name :: name in l.tensors && Covers(l.tensors[name], at)
  }

  lemma EveryByte(d: Dims, draw: (string, nat) -> seq<Byte>, l: Layout, at: nat)
    requires d.heads >= 1 && Holds(d, draw, 4 * d.layers, l) && at < |l.data|
    ensures Covered(l, at)
  {
    hide SlotName, InData;
    var k := SlotOf(d, 4 * d.layers, at);
    assert InTable(d, l.tensors, k);
    assert Covers(l.tensors[SlotName(k)], at);
  }

  predicate Covers(entry: Entry, at: nat) {
    entry.begin <= at < entry.end
  }

  lemma SlotNamed(d: Dims, draw: (string, nat) -> seq<Byte>, l: Layout, name: string) returns (k: nat)
    requires d.heads >= 1 && Holds(d, draw, 4 * d.layers, l) && name in l.tensors
    ensures SlotName(k) == name && l.tensors[name] == SlotEntry(d, k)
    ensures l.tensors[name].end - l.tensors[name].begin == 4 * (l.tensors[name].rows * l.tensors[name].cols)
    ensures InData(d, draw, l.data, k)
  {
    k :| k < 4 * d.layers && SlotName(k) == name;
    assert InTable(d, l.tensors, k);
  }

  lemma OneSlot(d: Dims, j: nat, k: nat, at: nat)
    requires d.heads >= 1 && Covers(SlotEntry(d, j), at) && Covers(SlotEntry(d, k), at)
    ensures j == k
  {
    if j < k {
      OffsetsGrow(d, j + 1, k);
    } else if k < j {
      OffsetsGrow(d, k + 1, j);
    }
  }

  // ----- the file

  /** `-n % 8` with Python's remainder. */
  function Padding(n: nat): (p: nat)
    ensures p < 8 && (n + p) % 8 == 0
  {
    (8 - n % 8) % 8
  }

  /** `count` little-endian bytes; `struct.pack("<Q", n)` for eight. */
  function LittleEndian(n: nat, count: nat): (bytes: seq<Byte>)
    ensures |bytes| == count
  {
    if count == 0 then [] else [n % 256] + LittleEndian(n / 256, count - 1)
  }

  function Value(bytes: seq<Byte>): nat {
    if bytes == [] then 0 else bytes[0] + 256 * Value(bytes[1..])
  }

  function Power(count: nat): nat {
    if count == 0 then 1 else 256 * Power(count - 1)
  }

  lemma {:induction false} LittleEndianReads(n: nat, count: nat)
    requires n < Power(count)
    ensures Value(LittleEndian(n, count)) == n
  {
    if count > 0 {
      LittleEndianReads(n / 256, count - 1);
      assert LittleEndian(n, count)[1..] == LittleEndian(n / 256, count - 1);
    }
  }

  /** The length, the header padded with blanks, and the data. */
  function File(header: seq<Byte>, data: seq<Byte>): seq<Byte> {
    var padded := header + seq(Padding(|header|), _ => 32);
    LittleEndian(|padded|, 8) + padded + data
  }

  /** A reader of the format finds a tensor's bytes behind the header, whose length it reads first. */
  function TensorBytes(file: seq<Byte>, entry: Entry): Option<seq<Byte>> {
    if |file| < 8 then None
    else
      var start := 8 + Value(file[..8]);
      if start + entry.begin <= start + entry.end <= |file| then Some(file[start + entry.begin..start + entry.end]) else None
  }

  /** Each tensor read back from the file has the values drawn for it. */
  lemma {:induction false} TensorsReadBack(d: Dims, draw: (string, nat) -> seq<Byte>, l: Layout, header: seq<Byte>, name: string)
    requires d.Valid() && Holds(d, draw, 4 * d.layers, l) && name in l.tensors && |header| + 8 < Power(8)
    ensures TensorBytes(File(header, l.data), l.tensors[name]) ==
            Some(draw(name, 4 * (l.tensors[name].rows * l.tensors[name].cols)))
  {
    hide Power, Holds, File, TensorBytes;
    NamedData(d, draw, l, name);
    ReadsBack(header, l.data, l.tensors[name]);
  }

  lemma NamedData(d: Dims, draw: (string, nat) -> seq<Byte>, l: Layout, name: string)
    requires d.heads >= 1 && Holds(d, draw, 4 * d.layers, l) && name in l.tensors
    ensures var e := l.tensors[name];
      e.begin <= e.end <= |l.data| && l.data[e.begin..e.end] == draw(name, 4 * (e.rows * e.cols))
  {
    var k := SlotNamed(d, draw, l, name);
    hide Holds, Rows, Cols, SlotName;
  }

  lemma ReadsBack(header: seq<Byte>, data: seq<Byte>, e: Entry)
    requires |header| + 8 < Power(8) && e.begin <= e.end <= |data|
    ensures TensorBytes(File(header, data), e) == Some(data[e.begin..e.end])
  {
    hide Power, Value, LittleEndian;
    var padded := header + seq(Padding(|header|), _ => 32);
    var file, start := File(header, data), 8 + |padded|;
    FileParts(padded, data);
    assert |file| == start + |data|;
    assert file[start + e.begin..start + e.end] == file[start..][e.begin..e.end];
  }

  lemma FileParts(padded: seq<Byte>, data: seq<Byte>)
    requires |padded| < Power(8)
    ensures var file := LittleEndian(|padded|, 8) + padded + data;
      Value(file[..8]) == |padded| && file[8 + |padded|..] == data
  {
    hide Power, Value, LittleEndian;
    LittleEndianReads(|padded|, 8);
    var file := LittleEndian(|padded|, 8) + padded + data;
    assert file[..8] == LittleEndian(|padded|, 8);
  }
}
