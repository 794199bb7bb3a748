/** Latency percentiles, over the reals. */
module Percentile {
  /** `sorted_data`. */
  ghost predicate Sorted(data: seq<real>) {
    forall i, j | 0 <= i <= j < |data| :: data[i] <= data[j]
  }

  function Position(n: nat, percentile: real): real {
    (n - 1) as real * percentile / 100.0
  }

  /** `_percentile`: `int(position)` truncates, and positions are not negative. */
  function Interpolated(data: seq<real>, percentile: real): real
    requires 0.0 <= percentile <= 100.0
  {
    if data == [] then 0.0
    else
      InRange(|data|, percentile);
      Between(data, Position(|data|, percentile))
  }

  /** The point a fraction of the way from `low` to `high`. */
  function Along(low: real, high: real, fraction: real): real {
    low + fraction * (high - low)
  }

  /** The value at a position between two indices. */
  function Between(data: seq<real>, position: real): real
    requires data != [] && 0.0 <= position <= (|data| - 1) as real
  {
    var lower := position.Floor;
    var upper := if lower + 1 < |data| - 1 then lower + 1 else |data| - 1;
    Along(data[lower], data[upper], position - lower as real)
  }

  lemma NonNegative(a: real, b: real)
    requires 0.0 <= a && 0.0 <= b
    ensures 0.0 <= a * b
  {
  }

  lemma Scaled(a: real, p: real, q: real)
    requires 0.0 <= a && 0.0 <= p <= q
    ensures 0.0 <= a * p <= a * q
  {
    var d := q - p;
    NonNegative(a, p);
    NonNegative(a, d);
    assert a * q == a * p + a * d by {
      assert q == p + d;
    }
  }

  lemma InRange(n: nat, percentile: real)
    requires n > 0 && 0.0 <= percentile <= 100.0
    ensures 0.0 <= Position(n, percentile) <= (n - 1) as real
  {
    var a := (n - 1) as real;
    Scaled(a, percentile, 100.0);
    Hundredth(a * percentile, a * 100.0);
    assert Position(n, percentile) == a * percentile / 100.0;
  }

  lemma Hundredth(x: real, y: real)
    requires 0.0 <= x <= y
    ensures 0.0 <= x / 100.0 <= y / 100.0
  {
  }

  lemma PositionMonotone(n: nat, p: real, q: real)
    requires n > 0 && 0.0 <= p <= q
    ensures Position(n, p) <= Position(n, q)
  {
    var a := (n - 1) as real;
    Scaled(a, p, q);
    Hundredth(a * p, a * q);
  }

  /** Within one cell the value grows with the position and stays between the ends. */
  lemma AlongIs(low: real, high: real, fraction: real, width: real)
    requires width == high - low
    ensures Along(low, high, fraction) == low + width * fraction
  {
    assert fraction * width == width * fraction;
  }

  lemma WithinCell(low: real, high: real, f: real, g: real)
    requires low <= high && 0.0 <= f <= g <= 1.0
    ensures low <= Along(low, high, f) <= Along(low, high, g) <= high
  {
    hide Along;
    var w := high - low;
    AlongIs(low, high, f, w);
    AlongIs(low, high, g, w);
    Scaled(w, f, g);
    Scaled(w, g, 1.0);
    Whole(w);
  }

  lemma Whole(w: real)
    ensures w * 1.0 == w
  {
  }

  lemma BetweenBounds(data: seq<real>, position: real)
    requires Sorted(data) && data != [] && 0.0 <= position <= (|data| - 1) as real
    ensures var lower := position.Floor;
      data[lower] <= Between(data, position) && (lower + 1 < |data| ==> Between(data, position) <= data[lower + 1])
    ensures data[0] <= Between(data, position) <= data[|data| - 1]
  {
    var lower := position.Floor;
    var upper := if lower + 1 < |data| - 1 then lower + 1 else |data| - 1;
    var low, high, f := data[lower], data[upper], position - lower as real;
    assert data[0] <= low <= high <= data[|data| - 1];
    WithinCell(low, high, f, 1.0);
    hide Along;
    assert Between(data, position) == Along(low, high, f);
    assert lower + 1 < |data| ==> upper == lower + 1;
  }

  lemma FloorGrows(p: real, q: real)
    requires p <= q
    ensures p.Floor <= q.Floor
  {
    var a, b := p.Floor, q.Floor;
    assert a as real <= p && q < b as real + 1.0;
    assert a as real < (b + 1) as real;
  }

  lemma BetweenMonotone(data: seq<real>, p: real, q: real)
    requires Sorted(data) && data != [] && 0.0 <= p <= q <= (|data| - 1) as real
    ensures Between(data, p) <= Between(data, q)
  {
    hide Along;
    var a, b := p.Floor, q.Floor;
    if a == b {
      var upper := if a + 1 < |data| - 1 then a + 1 else |data| - 1;
      WithinCell(data[a], data[upper], p - a as real, q - a as real);
    } else {
      BetweenBounds(data, p);
      BetweenBounds(data, q);
      FloorGrows(p, q);
      assert b as real <= (|data| - 1) as real;
      assert a + 1 <= b < |data|;
      assert data[a + 1] <= data[b];
    }
  }

  /** A percentile lies between the smallest and the largest latency, the 0th is the smallest and the
      100th the largest. */
  lemma PercentileInRange(data: seq<real>, percentile: real)
    requires Sorted(data) && data != [] && 0.0 <= percentile <= 100.0
    ensures data[0] <= Interpolated(data, percentile) <= data[|data| - 1]
    ensures percentile == 0.0 ==> Interpolated(data, percentile) == data[0]
    ensures percentile == 100.0 ==> Interpolated(data, percentile) == data[|data| - 1]
  {
    InRange(|data|, percentile);
    BetweenBounds(data, Position(|data|, percentile));
  }

  lemma PercentileMonotone(data: seq<real>, p: real, q: real)
    requires Sorted(data) && 0.0 <= p <= q <= 100.0
    ensures Interpolated(data, p) <= Interpolated(data, q)
  {
    if data != [] {
      InRange(|data|, p);
      InRange(|data|, q);
      PositionMonotone(|data|, p, q);
      hide Position, Between;
      BetweenMonotone(data, Position(|data|, p), Position(|data|, q));
    }
  }

  // ----- the collector

  const MAX_LATENCIES := 512

  datatype Snapshot = Snapshot(p50: real, p95: real, p99: real)

  /** `sorted`, by insertion. */
  function Insert(x: real, data: seq<real>): seq<real> {
    if data == [] || x <= data[0] then [x] + data else [data[0]] + Insert(x, data[1..])
  }

  function SortedCopy(data: seq<real>): seq<real> {
    if data == [] then [] else Insert(data[0], SortedCopy(data[1..]))
  }

  lemma {:induction false} InsertKeeps(x: real, data: seq<real>)
    ensures multiset(Insert(x, data)) == multiset(data) + multiset{x}
  {
    if data != [] && !(x <= data[0]) {
      InsertKeeps(x, data[1..]);
      assert data == [data[0]] + data[1..];
    }
  }

  lemma {:induction false} InsertSorts(x: real, data: seq<real>)
    requires Sorted(data)
    ensures Sorted(Insert(x, data))
  {
    if data != [] && !(x <= data[0]) {
      InsertSorts(x, data[1..]);
      InsertKeeps(x, data[1..]);
      var rest, tail := Insert(x, data[1..]), data[1..];
      forall i | 0 <= i < |rest| ensures data[0] <= rest[i] {
        assert rest[i] in multiset(rest);
        assert rest[i] == x || rest[i] in tail;
      }
      ConsSorted(data[0], rest);
    }
  }

  lemma ConsSorted(x: real, rest: seq<real>)
    requires Sorted(rest) && forall i | 0 <= i < |rest| :: x <= rest[i]
    ensures Sorted([x] + rest)
  {
  }

  lemma {:induction false} CopySorts(data: seq<real>)
    ensures Sorted(SortedCopy(data)) && multiset(SortedCopy(data)) == multiset(data)
  {
    if data != [] {
      CopySorts(data[1..]);
      InsertSorts(data[0], SortedCopy(data[1..]));
      InsertKeeps(data[0], SortedCopy(data[1..]));
      assert data == [data[0]] + data[1..];
    }
  }

  class Telemetry {
    var inflight: nat
    var success: nat
    var failed: nat
    var latencies: seq<real>

    constructor ()
      ensures inflight == 0 && success == 0 && failed == 0 && latencies == []
    {
      inflight, success, failed, latencies := 0, 0, 0, [];
    }

    method TrackRequestStart()
      modifies this`inflight
      ensures inflight == old(inflight) + 1
    {
      inflight := inflight + 1;
    }

    /** The deque keeps the last 512 latencies. */
    method TrackRequestEnd(latency: real, ok: bool)
      requires |latencies| <= MAX_LATENCIES
      modifies this
      ensures inflight == if old(inflight) == 0 then 0 else old(inflight) - 1
      ensures success == old(success) + (if ok then 1 else 0) && failed == old(failed) + (if ok then 0 else 1)
      ensures |latencies| <= MAX_LATENCIES
      ensures latencies ==
              if |old(latencies)| == MAX_LATENCIES then old(latencies)[1..] + [latency] else old(latencies) + [latency]
    {
      inflight := if inflight == 0 then 0 else inflight - 1;
      if ok {
        success := success + 1;
      } else {
        failed := failed + 1;
      }
      latencies := (if |latencies| == MAX_LATENCIES then latencies[1..] else latencies) + [latency];
    }

    /** Every snapshot's percentiles are in order, and lie among the latencies kept. */
    method Percentiles() returns (s: Snapshot)
      ensures s == Snapshot(Interpolated(SortedCopy(latencies), 50.0), Interpolated(SortedCopy(latencies), 95.0),
                            Interpolated(SortedCopy(latencies), 99.0))
      ensures s.p50 <= s.p95 <= s.p99
      ensures latencies != [] ==>
        exists low, high :: low in latencies && high in latencies && low <= s.p50 && s.p99 <= high
    {
      var data := SortedCopy(latencies);
      CopySorts(latencies);
      hide SortedCopy, Interpolated;
      PercentileMonotone(data, 50.0, 95.0);
      PercentileMonotone(data, 95.0, 99.0);
      s := Snapshot(Interpolated(data, 50.0), Interpolated(data, 95.0), Interpolated(data, 99.0));
      if latencies != [] {
        EndsAmong(data, latencies);
        PercentileInRange(data, 50.0);
        PercentileInRange(data, 99.0);
      }
    }
  }

  lemma EndsAmong(data: seq<real>, latencies: seq<real>)
    requires latencies != [] && multiset(data) == multiset(latencies)
    ensures data != [] && data[0] in latencies && data[|data| - 1] in latencies
  {
    assert |data| == |multiset(data)| && |latencies| == |multiset(latencies)|;
    assert data[0] in multiset(data) && data[|data| - 1] in multiset(data);
  }
}
