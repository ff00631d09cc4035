/** Aggregation of raw metric rows over time windows. Averages are exact. */
module Aggregation {
  import opened Options
  import opened Windows

  /** A raw row. System rows have no container and use all three columns; docker
      rows name a container and use `cpu` and `memory` (usage in MB). */
  datatype Row = Row(server: int, container: Option<string>, at: Time, cpu: real, memory: real, disk: real)

  datatype Column = Cpu | Memory | Disk

  function Value(r: Row, col: Column): real {
    match col
    case Cpu => r.cpu
    case Memory => r.memory
    case Disk => r.disk
  }

  /** WHERE server_id = .. AND container_name = .. AND collected_at in [from, to). */
  predicate In(r: Row, server: int, container: Option<string>, from: Time, to: Time) {
    r.server == server && r.container == container && from <= r.at < to
  }

  // ----- count, sum, min and max in one pass

  datatype Stats = Nothing | Stats(count: nat, sum: real, min: real, max: real)

  function Min(a: real, b: real): real { if a <= b then a else b }
  function Max(a: real, b: real): real { if a <= b then b else a }

  function Combine(a: Stats, b: Stats): Stats {
    if a.Nothing? then b
    else if b.Nothing? then a
    else Stats(a.count + b.count, a.sum + b.sum, Min(a.min, b.min), Max(a.max, b.max))
  }

  function StatsOf(rows: seq<Row>, server: int, container: Option<string>, from: Time, to: Time, col: Column): Stats {
    if rows == [] then Nothing
    else
      var r := rows[|rows| - 1];
      var rest := StatsOf(rows[..|rows| - 1], server, container, from, to, col);
      if In(r, server, container, from, to) then
        Combine(rest, Stats(1, Value(r, col), Value(r, col), Value(r, col)))
      else rest
  }

  // ----- aggregate rows

  datatype Cell = Cell(avg: real, min: real, max: real)

  datatype Aggregate = Aggregate(count: nat, cpu: Cell, memory: Cell, disk: Cell)

  function CellOf(s: Stats): Cell
    requires s.Stats? && s.count > 0
  {
    Cell(s.sum / s.count as real, s.min, s.max)
  }

  /** The aggregate of a window, or nothing when it has no rows. */
  function AggregateOf(rows: seq<Row>, server: int, container: Option<string>, from: Time, to: Time):
    (r: Option<Aggregate>)
    ensures r.Some? ==> r.value.count > 0
  {
    StatsAgree(rows, server, container, from, to);
    var cpu := StatsOf(rows, server, container, from, to, Cpu);
    var memory := StatsOf(rows, server, container, from, to, Memory);
    var disk := StatsOf(rows, server, container, from, to, Disk);
    if cpu.Nothing? then None
    else Some(Aggregate(cpu.count, CellOf(cpu), CellOf(memory), CellOf(disk)))
  }

  lemma {:induction false} StatsAgree(rows: seq<Row>, server: int, container: Option<string>, from: Time, to: Time)
    ensures var s := (col: Column) => StatsOf(rows, server, container, from, to, col);
            && (s(Cpu).Nothing? <==> s(Memory).Nothing?) && (s(Cpu).Nothing? <==> s(Disk).Nothing?)
            && (s(Cpu).Stats? ==> s(Cpu).count == s(Memory).count == s(Disk).count > 0)
  {
    if rows != [] {
      StatsAgree(rows[..|rows| - 1], server, container, from, to);
    }
  }

  // ----- the statistics mean what SQL means by them

  function Count(rows: seq<Row>, server: int, container: Option<string>, from: Time, to: Time): nat {
    if rows == [] then 0
    else
      Count(rows[..|rows| - 1], server, container, from, to) +
      if In(rows[|rows| - 1], server, container, from, to) then 1 else 0
  }

  function Sum(rows: seq<Row>, server: int, container: Option<string>, from: Time, to: Time, col: Column): real {
    if rows == [] then 0.0
    else
      Sum(rows[..|rows| - 1], server, container, from, to, col) +
      if In(rows[|rows| - 1], server, container, from, to) then Value(rows[|rows| - 1], col) else 0.0
  }

  ghost predicate Extremes(rows: seq<Row>, server: int, container: Option<string>, from: Time, to: Time, col: Column,
                           lo: real, hi: real) {
    && (forall r | r in rows && In(r, server, container, from, to) :: lo <= Value(r, col) <= hi)
    && (exists r :: r in rows && In(r, server, container, from, to) && Value(r, col) == lo)
    && (exists r :: r in rows && In(r, server, container, from, to) && Value(r, col) == hi)
  }

  /** The statistics are absent exactly when no row is selected, and otherwise
      hold the count and the sum of the selected rows. */
  lemma {:induction false} StatsCount(
    rows: seq<Row>, server: int, container: Option<string>, from: Time, to: Time, col: Column)
    ensures var s := StatsOf(rows, server, container, from, to, col);
            && (s.Nothing? <==> Count(rows, server, container, from, to) == 0)
            && (s.Stats? ==> s.count == Count(rows, server, container, from, to))
            && (if s.Stats? then s.sum else 0.0) == Sum(rows, server, container, from, to, col)
  {
    if rows != [] {
      StatsCount(rows[..|rows| - 1], server, container, from, to, col);
    }
  }

  /** They also hold the least and the greatest selected value. */
  lemma {:induction false} StatsExtremes(
    rows: seq<Row>, server: int, container: Option<string>, from: Time, to: Time, col: Column)
    ensures var s := StatsOf(rows, server, container, from, to, col);
            if s.Stats? then Extremes(rows, server, container, from, to, col, s.min, s.max)
            else forall r | r in rows :: !In(r, server, container, from, to)
  {
    if rows != [] {
      var n := |rows| - 1;
      var front, r := rows[..n], rows[n];
      assert rows == front + [r];
      StatsExtremes(front, server, container, from, to, col);
      var rest := StatsOf(front, server, container, from, to, col);
      if rest.Stats? {
        ExtremesGrow(front, r, server, container, from, to, col, rest.min, rest.max);
      } else if In(r, server, container, from, to) {
        ExtremesStart(front, r, server, container, from, to, col);
      }
    }
  }

  lemma ExtremesStart(rows: seq<Row>, r: Row, server: int, container: Option<string>, from: Time, to: Time, col: Column)
    requires In(r, server, container, from, to) && forall x | x in rows :: !In(x, server, container, from, to)
    ensures Extremes(rows + [r], server, container, from, to, col, Value(r, col), Value(r, col))
  {
    assert r in rows + [r];
  }

  lemma ExtremesGrow(rows: seq<Row>, r: Row, server: int, container: Option<string>, from: Time, to: Time, col: Column,
                     lo: real, hi: real)
    requires Extremes(rows, server, container, from, to, col, lo, hi)
    ensures var v := Value(r, col);
            if In(r, server, container, from, to)
            then Extremes(rows + [r], server, container, from, to, col, Min(lo, v), Max(hi, v))
            else Extremes(rows + [r], server, container, from, to, col, lo, hi)
  {
    var a :| a in rows && In(a, server, container, from, to) && Value(a, col) == lo;
    var b :| b in rows && In(b, server, container, from, to) && Value(b, col) == hi;
    assert r in rows + [r] && a in rows + [r] && b in rows + [r];
  }

  lemma {:induction false} SumBetween(
    rows: seq<Row>, server: int, container: Option<string>, from: Time, to: Time, col: Column)
    ensures var s := StatsOf(rows, server, container, from, to, col);
            s.Stats? ==> s.count > 0 && s.min * s.count as real <= s.sum <= s.max * s.count as real
  {
    if rows != [] {
      var n := |rows| - 1;
      SumBetween(rows[..n], server, container, from, to, col);
      var rest := StatsOf(rows[..n], server, container, from, to, col);
      if rest.Stats? {
        OneMore(rest.min, rest.sum, rest.max, rest.count as real, Value(rows[n], col));
        assert (rest.count + 1) as real == rest.count as real + 1.0;
      }
    }
  }

  lemma ScaleUp(a: real, b: real, c: real)
    requires a <= b && c >= 0.0
    ensures a * c <= b * c
  {
  }

  lemma Spread(a: real, c: real)
    ensures a * (c + 1.0) == a * c + a
  {
  }

  lemma OneMore(lo: real, sum: real, hi: real, c: real, v: real)
    requires c >= 0.0 && lo * c <= sum <= hi * c
    ensures Min(lo, v) * (c + 1.0) <= sum + v <= Max(hi, v) * (c + 1.0)
  {
    ScaleUp(Min(lo, v), lo, c);
    ScaleUp(hi, Max(hi, v), c);
    Spread(Min(lo, v), c);
    Spread(Max(hi, v), c);
  }

  lemma QuotientBetween(lo: real, sum: real, hi: real, c: real)
    requires c > 0.0 && lo * c <= sum <= hi * c
    ensures lo <= sum / c <= hi
  {
  }

  predicate Ordered(c: Cell) { c.min <= c.avg <= c.max }

  /** In every aggregate row min <= avg <= max. */
  lemma AverageBetween(rows: seq<Row>, server: int, container: Option<string>, from: Time, to: Time)
    ensures var a := AggregateOf(rows, server, container, from, to);
            a.Some? ==> Ordered(a.value.cpu) && Ordered(a.value.memory) && Ordered(a.value.disk)
  {
    StatsAgree(rows, server, container, from, to);
    forall col
      ensures var s := StatsOf(rows, server, container, from, to, col);
              s.Stats? && s.count > 0 ==> Ordered(CellOf(s))
    {
      SumBetween(rows, server, container, from, to, col);
      var s := StatsOf(rows, server, container, from, to, col);
      if s.Stats? && s.count > 0 {
        QuotientBetween(s.min, s.sum, s.max, s.count as real);
      }
    }
  }

  // ----- granularities agree

  lemma CombineSwap(a: Stats, b: Stats, v: real)
    ensures var one := Stats(1, v, v, v);
            && Combine(Combine(a, b), one) == Combine(Combine(a, one), b)
            && Combine(Combine(a, b), one) == Combine(a, Combine(b, one))
  {
  }

  /** The statistics of two adjacent windows combine to those of their union. */
  lemma {:induction false} SplitWindow(
    rows: seq<Row>, server: int, container: Option<string>, from: Time, mid: Time, to: Time, col: Column)
    requires from <= mid <= to
    ensures StatsOf(rows, server, container, from, to, col) ==
            Combine(StatsOf(rows, server, container, from, mid, col), StatsOf(rows, server, container, mid, to, col))
  {
    if rows != [] {
      var n := |rows| - 1;
      SplitWindow(rows[..n], server, container, from, mid, to, col);
      CombineSwap(StatsOf(rows[..n], server, container, from, mid, col),
                  StatsOf(rows[..n], server, container, mid, to, col), Value(rows[n], col));
    }
  }

  /** Count-weighted merge of two aggregate rows. */
  function MergeCells(a: Cell, m: nat, b: Cell, n: nat): Cell
    requires m > 0 && n > 0
  {
    Cell((a.avg * m as real + b.avg * n as real) / (m + n) as real, Min(a.min, b.min), Max(a.max, b.max))
  }

  function Merge(a: Option<Aggregate>, b: Option<Aggregate>): (r: Option<Aggregate>)
    requires (a.Some? ==> a.value.count > 0) && (b.Some? ==> b.value.count > 0)
    ensures r.Some? <==> a.Some? || b.Some?
    ensures r.Some? ==> r.value.count > 0
  {
    if a.None? then b
    else if b.None? then a
    else
      var x, y := a.value, b.value;
      Some(Aggregate(x.count + y.count,
                     MergeCells(x.cpu, x.count, y.cpu, y.count),
                     MergeCells(x.memory, x.count, y.memory, y.count),
                     MergeCells(x.disk, x.count, y.disk, y.count)))
  }

  lemma WeightedAverage(s: real, m: real, t: real, n: real)
    requires m > 0.0 && n > 0.0
    ensures (s / m * m + t / n * n) / (m + n) == (s + t) / (m + n)
  {
  }

  lemma CellsMerge(a: Stats, b: Stats)
    requires a.Stats? && b.Stats? && a.count > 0 && b.count > 0
    ensures CellOf(Combine(a, b)) == MergeCells(CellOf(a), a.count, CellOf(b), b.count)
  {
    WeightedAverage(a.sum, a.count as real, b.sum, b.count as real);
  }

  lemma MergeIsUnion(rows: seq<Row>, server: int, container: Option<string>, from: Time, mid: Time, to: Time)
    requires from <= mid <= to
    ensures AggregateOf(rows, server, container, from, to) ==
            Merge(AggregateOf(rows, server, container, from, mid), AggregateOf(rows, server, container, mid, to))
  {
    StatsAgree(rows, server, container, from, mid);
    StatsAgree(rows, server, container, mid, to);
    forall col
      ensures var a := StatsOf(rows, server, container, from, mid, col);
              var b := StatsOf(rows, server, container, mid, to, col);
              && StatsOf(rows, server, container, from, to, col) == Combine(a, b)
              && (a.Stats? && b.Stats? && a.count > 0 && b.count > 0 ==>
                    CellOf(Combine(a, b)) == MergeCells(CellOf(a), a.count, CellOf(b), b.count))
    {
      SplitWindow(rows, server, container, from, mid, to, col);
      var a := StatsOf(rows, server, container, from, mid, col);
      var b := StatsOf(rows, server, container, mid, to, col);
      if a.Stats? && b.Stats? && a.count > 0 && b.count > 0 {
        CellsMerge(a, b);
      }
    }
  }

  predicate AllPositive(parts: seq<Option<Aggregate>>) {
    forall a | a in parts :: a.Some? ==> a.value.count > 0
  }

  function MergeAll(parts: seq<Option<Aggregate>>): (r: Option<Aggregate>)
    requires AllPositive(parts)
    ensures r.Some? ==> r.value.count > 0
  {
    if parts == [] then None
    else
      var n := |parts| - 1;
      Merge(MergeAll(parts[..n]), parts[n])
  }

  lemma {:induction false} MergeAllExists(parts: seq<Option<Aggregate>>)
    requires AllPositive(parts)
    ensures MergeAll(parts).Some? <==> exists a :: a in parts && a.Some?
  {
    if parts != [] {
      var n := |parts| - 1;
      MergeAllExists(parts[..n]);
      assert parts == parts[..n] + [parts[n]];
    }
  }

  /** The start of the i-th window of a tiling. */
  function Edge(from: Time, length: Time, i: nat): Time {
    if i == 0 then from else Edge(from, length, i - 1) + length
  }

  lemma {:induction false} EdgeIs(from: Time, length: Time, i: nat)
    ensures Edge(from, length, i) == from + i * length
  {
    if i > 0 {
      EdgeIs(from, length, i - 1);
      assert i * length == (i - 1) * length + length;
    }
  }

  lemma {:induction false} EdgesAscend(from: Time, length: Time, i: nat)
    requires length > 0
    ensures from <= Edge(from, length, i)
  {
    if i > 0 {
      EdgesAscend(from, length, i - 1);
    }
  }

  /** The aggregates of n consecutive windows of equal length. */
  function Parts(rows: seq<Row>, server: int, container: Option<string>, from: Time, length: Time, n: nat):
    (parts: seq<Option<Aggregate>>)
    ensures |parts| == n && AllPositive(parts)
  {
    if n == 0 then []
    else
      Parts(rows, server, container, from, length, n - 1) +
      [AggregateOf(rows, server, container, Edge(from, length, n - 1), Edge(from, length, n))]
  }

  lemma {:induction false} PartsAt(
    rows: seq<Row>, server: int, container: Option<string>, from: Time, length: Time, n: nat, i: nat)
    requires i < n
    ensures Parts(rows, server, container, from, length, n)[i] ==
            AggregateOf(rows, server, container, from + i * length, from + (i + 1) * length)
  {
    if i == n - 1 {
      EdgeIs(from, length, i);
      EdgeIs(from, length, i + 1);
    } else {
      PartsAt(rows, server, container, from, length, n - 1, i);
    }
  }

  lemma {:induction false} EmptyWindow(rows: seq<Row>, server: int, container: Option<string>, t: Time, col: Column)
    ensures StatsOf(rows, server, container, t, t, col) == Nothing
  {
    if rows != [] {
      EmptyWindow(rows[..|rows| - 1], server, container, t, col);
    }
  }

  /** The aggregate of a window is the count-weighted merge of the aggregates of
      the windows that tile it, and exists exactly when one of them does. */
  lemma {:induction false} GranularitiesAgree(
    rows: seq<Row>, server: int, container: Option<string>, from: Time, length: Time, n: nat)
    requires length > 0
    ensures var whole := AggregateOf(rows, server, container, from, from + n * length);
            var parts := Parts(rows, server, container, from, length, n);
            whole == MergeAll(parts) && (whole.Some? <==> exists a :: a in parts && a.Some?)
  {
    EdgeIs(from, length, n);
    TilesMerge(rows, server, container, from, length, n);
    MergeAllExists(Parts(rows, server, container, from, length, n));
  }

  lemma {:induction false} TilesMerge(
    rows: seq<Row>, server: int, container: Option<string>, from: Time, length: Time, n: nat)
    requires length > 0
    ensures AggregateOf(rows, server, container, from, Edge(from, length, n)) ==
            MergeAll(Parts(rows, server, container, from, length, n))
  {
    if n == 0 {
      NoTiles(rows, server, container, from, length);
    } else {
      TilesMerge(rows, server, container, from, length, n - 1);
      var parts := Parts(rows, server, container, from, length, n);
      PartsGrow(rows, server, container, from, length, n);
      EdgesAscend(from, length, n - 1);
      assert Edge(from, length, n - 1) <= Edge(from, length, n);
      ExtendTiles(rows, server, container, from, Edge(from, length, n - 1), Edge(from, length, n), parts);
    }
  }

  lemma NoTiles(rows: seq<Row>, server: int, container: Option<string>, from: Time, length: Time)
    ensures AggregateOf(rows, server, container, from, Edge(from, length, 0)) ==
            MergeAll(Parts(rows, server, container, from, length, 0))
  {
    EmptyWindow(rows, server, container, from, Cpu);
  }

  lemma PartsGrow(rows: seq<Row>, server: int, container: Option<string>, from: Time, length: Time, n: nat)
    requires n > 0
    ensures var parts := Parts(rows, server, container, from, length, n);
            && parts[..n - 1] == Parts(rows, server, container, from, length, n - 1)
            && parts[n - 1] == AggregateOf(rows, server, container, Edge(from, length, n - 1), Edge(from, length, n))
  {
  }

  lemma ExtendTiles(rows: seq<Row>, server: int, container: Option<string>, from: Time, mid: Time, to: Time,
                    parts: seq<Option<Aggregate>>)
    requires from <= mid <= to && AllPositive(parts) && parts != []
    requires AggregateOf(rows, server, container, from, mid) == MergeAll(parts[..|parts| - 1])
    requires AggregateOf(rows, server, container, mid, to) == parts[|parts| - 1]
    ensures AggregateOf(rows, server, container, from, to) == MergeAll(parts)
  {
    MergeIsUnion(rows, server, container, from, mid, to);
  }

  // ----- aggregate rows in plain terms

  /** The rows of the server and container in the half-open window, in order. */
  function Picked(rows: seq<Row>, server: int, container: Option<string>, from: Time, to: Time): seq<Row> {
    if rows == [] then []
    else
      var r := rows[|rows| - 1];
      Picked(rows[..|rows| - 1], server, container, from, to) +
      if r.server == server && r.container == container && r.at >= from && r.at < to then [r] else []
  }

  /** They are all of those rows. */
  lemma {:induction false} PickedHas(
    rows: seq<Row>, server: int, container: Option<string>, from: Time, to: Time, r: Row)
    ensures multiset(Picked(rows, server, container, from, to))[r] ==
            if r.server == server && r.container == container && r.at >= from && r.at < to then multiset(rows)[r] else 0
  {
    if rows != [] {
      var n := |rows| - 1;
      PickedHas(rows[..n], server, container, from, to, r);
      assert rows == rows[..n] + [rows[n]];
    }
  }

  function SumBy(rows: seq<Row>, f: Row -> real): real {
    if rows == [] then 0.0 else SumBy(rows[..|rows| - 1], f) + f(rows[|rows| - 1])
  }

  /** An average of n values with this sum. */
  predicate Averages(avg: real, n: nat, sum: real) {
    avg * n as real == sum
  }

  /** Average, least and greatest value of one field over the rows. */
  ghost predicate Summarises(c: Cell, rows: seq<Row>, f: Row -> real) {
    && Averages(c.avg, |rows|, SumBy(rows, f))
    && (forall r | r in rows :: c.min <= f(r) <= c.max)
    && (exists r :: r in rows && f(r) == c.min)
    && (exists r :: r in rows && f(r) == c.max)
  }

  function FieldOf(col: Column): Row -> real {
    (r: Row) => Value(r, col)
  }

  lemma {:induction false} PickedSums(
    rows: seq<Row>, server: int, container: Option<string>, from: Time, to: Time, col: Column)
    ensures var picked := Picked(rows, server, container, from, to);
            && |picked| == Count(rows, server, container, from, to)
            && SumBy(picked, FieldOf(col)) == Sum(rows, server, container, from, to, col)
  {
    if rows != [] {
      var n := |rows| - 1;
      PickedSums(rows[..n], server, container, from, to, col);
      SumBySnoc(Picked(rows[..n], server, container, from, to), rows[n], FieldOf(col));
      assert FieldOf(col)(rows[n]) == Value(rows[n], col);
      assert !In(rows[n], server, container, from, to) ==>
          Picked(rows, server, container, from, to) == Picked(rows[..n], server, container, from, to);
    }
  }

  lemma SumBySnoc(rows: seq<Row>, r: Row, f: Row -> real)
    ensures SumBy(rows + [r], f) == SumBy(rows, f) + f(r)
  {
    assert (rows + [r])[..|rows|] == rows;
  }

  lemma {:induction false} PickedIn(
    rows: seq<Row>, server: int, container: Option<string>, from: Time, to: Time, r: Row)
    ensures r in Picked(rows, server, container, from, to) <==> r in rows && In(r, server, container, from, to)
  {
    if rows != [] {
      var n := |rows| - 1;
      PickedIn(rows[..n], server, container, from, to, r);
      assert rows == rows[..n] + [rows[n]];
    }
  }

  lemma Divides(sum: real, c: real)
    requires c > 0.0
    ensures sum / c * c == sum
  {
  }

  lemma AverageSummarises(
    rows: seq<Row>, server: int, container: Option<string>, from: Time, to: Time, col: Column)
    ensures var s, picked := StatsOf(rows, server, container, from, to, col), Picked(rows, server, container, from, to);
            && (s.Nothing? <==> |picked| == 0)
            && (s.Stats? ==> s.count == |picked| > 0 && Averages(CellOf(s).avg, |picked|, SumBy(picked, FieldOf(col))))
  {
    var s := StatsOf(rows, server, container, from, to, col);
    StatsCount(rows, server, container, from, to, col);
    PickedSums(rows, server, container, from, to, col);
    if s.Stats? {
      CellAverages(s);
    }
  }

  lemma CellAverages(s: Stats)
    requires s.Stats? && s.count > 0
    ensures Averages(CellOf(s).avg, s.count, s.sum)
  {
    Divides(s.sum, s.count as real);
  }

  lemma RangeSummarises(
    rows: seq<Row>, server: int, container: Option<string>, from: Time, to: Time, col: Column)
    ensures var s, picked := StatsOf(rows, server, container, from, to, col), Picked(rows, server, container, from, to);
            s.Stats? ==>
              && (forall r | r in picked :: s.min <= FieldOf(col)(r) <= s.max)
              && (exists r :: r in picked && FieldOf(col)(r) == s.min)
              && (exists r :: r in picked && FieldOf(col)(r) == s.max)
  {
    var s, picked := StatsOf(rows, server, container, from, to, col), Picked(rows, server, container, from, to);
    StatsExtremes(rows, server, container, from, to, col);
    if s.Stats? {
      forall r ensures r in picked <==> r in rows && In(r, server, container, from, to) {
        PickedIn(rows, server, container, from, to, r);
      }
      ExtremesSummarise(rows, server, container, from, to, col, s.min, s.max, picked);
    }
  }

  lemma CellSummarises(
    rows: seq<Row>, server: int, container: Option<string>, from: Time, to: Time, col: Column)
    ensures var s, picked := StatsOf(rows, server, container, from, to, col), Picked(rows, server, container, from, to);
            && (s.Nothing? <==> |picked| == 0)
            && (s.Stats? ==> s.count == |picked| > 0 && Summarises(CellOf(s), picked, FieldOf(col)))
  {
    AverageSummarises(rows, server, container, from, to, col);
    RangeSummarises(rows, server, container, from, to, col);
  }

  lemma ExtremesSummarise(
    rows: seq<Row>, server: int, container: Option<string>, from: Time, to: Time, col: Column,
    lo: real, hi: real, picked: seq<Row>)
    requires Extremes(rows, server, container, from, to, col, lo, hi)
    requires forall r :: r in picked <==> r in rows && In(r, server, container, from, to)
    ensures forall r | r in picked :: lo <= FieldOf(col)(r) <= hi
    ensures exists r :: r in picked && FieldOf(col)(r) == lo
    ensures exists r :: r in picked && FieldOf(col)(r) == hi
  {
    var a :| a in rows && In(a, server, container, from, to) && Value(a, col) == lo;
    var b :| b in rows && In(b, server, container, from, to) && Value(b, col) == hi;
    assert a in picked && b in picked;
  }

  lemma SameField(c: Cell, rows: seq<Row>, f: Row -> real, g: Row -> real)
    requires Summarises(c, rows, f) && forall r :: f(r) == g(r)
    ensures Summarises(c, rows, g)
  {
    SameSum(rows, f, g);
  }

  lemma {:induction false} SameSum(rows: seq<Row>, f: Row -> real, g: Row -> real)
    requires forall r :: f(r) == g(r)
    ensures SumBy(rows, f) == SumBy(rows, g)
  {
    if rows != [] {
      SameSum(rows[..|rows| - 1], f, g);
    }
  }

  /** An aggregate row describes the rows it was picked from. */
  ghost predicate Describes(a: Option<Aggregate>, rows: seq<Row>) {
    if rows == [] then a == None
    else
      && a.Some? && a.value.count == |rows|
      && Summarises(a.value.cpu, rows, (r: Row) => r.cpu)
      && Summarises(a.value.memory, rows, (r: Row) => r.memory)
      && Summarises(a.value.disk, rows, (r: Row) => r.disk)
  }

  /** The aggregate of a window has the number of its rows, and each cell the
      average, least and greatest value of its own column; without rows there is
      none. */
  lemma AggregateDescribes(rows: seq<Row>, server: int, container: Option<string>, from: Time, to: Time)
    ensures Describes(AggregateOf(rows, server, container, from, to), Picked(rows, server, container, from, to))
  {
    var a, picked := AggregateOf(rows, server, container, from, to), Picked(rows, server, container, from, to);
    StatsAgree(rows, server, container, from, to);
    CellSummarises(rows, server, container, from, to, Cpu);
    CellSummarises(rows, server, container, from, to, Memory);
    CellSummarises(rows, server, container, from, to, Disk);
    if picked != [] {
      SameField(a.value.cpu, picked, FieldOf(Cpu), (r: Row) => r.cpu);
      SameField(a.value.memory, picked, FieldOf(Memory), (r: Row) => r.memory);
      SameField(a.value.disk, picked, FieldOf(Disk), (r: Row) => r.disk);
    }
  }
}
