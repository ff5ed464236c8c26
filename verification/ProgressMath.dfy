/** The cumulative spend of a budget period, as the points of a chart. */
module ProgressMath {
  import opened Rounding

  /** A ledger row: when it was created and what it cost. */
  datatype Row = Row(at: int, micros: nat)

  datatype Point = Point(at: int, spent: nat)

  /** Bucket `n` holds the rows created in [start + n*width, start + (n+1)*width). */
  function BucketOf(at: int, start: int, width: nat): nat
    requires width > 0 && at >= start
  {
    (at - start) / width
  }

  /** The database's sums: one per bucket that has rows. */
  function SumsOf(rows: seq<Row>, start: int, width: nat): map<nat, nat>
    requires width > 0 && forall i :: 0 <= i < |rows| ==> rows[i].at >= start
  {
    if rows == [] then map[]
    else
      var sums, last := SumsOf(rows[..|rows| - 1], start, width), rows[|rows| - 1];
      var b := BucketOf(last.at, start, width);
      sums[b := SumIn(sums, b) + last.micros]
  }

  function SumIn(sums: map<nat, nat>, n: nat): nat { if n in sums then sums[n] else 0 }

  /** What the rows created before an instant cost. */
  function SpentBefore(rows: seq<Row>, t: int): nat {
    if rows == [] then 0
    else SpentBefore(rows[..|rows| - 1], t) + (if rows[|rows| - 1].at < t then rows[|rows| - 1].micros else 0)
  }

  predicate InPeriod(rows: seq<Row>, start: int, asOf: int) {
    forall i :: 0 <= i < |rows| ==> start <= rows[i].at < asOf
  }

  function Prefix(sums: map<nat, nat>, n: nat): nat { if n == 0 then 0 else Prefix(sums, n - 1) + SumIn(sums, n - 1) }

  function MinInt(a: int, b: int): int { if a < b then a else b }

  /** A point at the start, and one per bucket begun before `asOf`, at the bucket's end or at `asOf`. */
  predicate ArePoints(points: seq<Point>, start: int, asOf: int, width: nat, sums: map<nat, nat>)
    requires width > 0
  {
    && |points| == 1 + (if asOf <= start then 0 else CeilDiv(asOf - start, width))
    && points[0] == Point(start, 0)
    && (forall n :: 1 <= n < |points| ==> points[n] == Point(MinInt(start + n * width, asOf), Prefix(sums, n)))
  }

  /** One point at the start, then one at the end of every bucket begun before `asOf`, the last cut off there. */
  method CumulativeProgress(start: int, asOf: int, width: nat, sums: map<nat, nat>) returns (points: seq<Point>)
    requires width > 0
    ensures ArePoints(points, start, asOf, width, sums)
  {
    points := [Point(start, 0)];
    var total, n := 0, 0;
    Buckets(start, asOf, width, n);
    while start + n * width < asOf
      invariant |points| == n + 1 && points[0] == Point(start, 0) && total == Prefix(sums, n)
      invariant n > 0 ==> start + (n - 1) * width < asOf
      invariant forall k :: 1 <= k < |points| ==> points[k] == Point(MinInt(start + k * width, asOf), Prefix(sums, k))
      decreases asOf - (start + n * width)
    {
      total := total + SumIn(sums, n);
      points := points + [Point(MinInt(start + (n + 1) * width, asOf), total)];
      n := n + 1;
      Product(n, width);
    }
    Buckets(start, asOf, width, n);
  }

  lemma {:induction false} Product(n: nat, width: nat)
    requires n >= 1
    ensures n * width == (n - 1) * width + width
  {
  }

  /** How many buckets begin before `asOf`. */
  lemma {:induction false} Buckets(start: int, asOf: int, width: nat, n: nat)
    requires width > 0
    ensures start + n * width >= asOf && (n > 0 ==> start + (n - 1) * width < asOf)
            ==> n == if asOf <= start then 0 else CeilDiv(asOf - start, width)
  {
    if n > 0 {
      Product(n, width);
      NotNegative(n - 1, width);
    }
    if asOf > start && start + n * width >= asOf && (n > 0 ==> start + (n - 1) * width < asOf) {
      Between(n, CeilDiv(asOf - start, width), width, asOf - start);
    }
  }

  lemma {:induction false} NotNegative(a: nat, b: nat)
    ensures a * b >= 0
  {
  }

  lemma {:induction false} Between(n: nat, c: nat, width: nat, span: nat)
    requires width > 0 && span > 0 && span <= width * c < span + width
    requires n * width >= span && (n > 0 ==> n * width < span + width)
    ensures n == c
  {
    if n < c {
      Gap(n, c, width);
    } else if c < n {
      Gap(c, n, width);
    }
  }

  lemma {:induction false} Gap(a: nat, b: nat, width: nat)
    requires a < b
    ensures b * width >= a * width + width
  {
    Product(b, width);
    if a + 1 < b {
      Gap(a, b - 1, width);
    }
  }

  // ---- what the points mean ----

  lemma {:induction false} Before(at: int, start: int, width: nat, n: nat)
    requires width > 0 && at >= start
    ensures at < start + n * width <==> BucketOf(at, start, width) < n
  {
    var b := BucketOf(at, start, width);
    assert at - start == width * b + (at - start) % width;
    if b < n {
      Gap(b, n, width);
    } else if n < b {
      Gap(n, b, width);
    }
  }

  lemma {:induction false} PrefixAdds(sums: map<nat, nat>, b: nat, micros: nat, n: nat)
    ensures Prefix(sums[b := SumIn(sums, b) + micros], n) == Prefix(sums, n) + (if b < n then micros else 0)
  {
    if n > 0 {
      PrefixAdds(sums, b, micros, n - 1);
    }
  }

  /** The first `n` buckets hold exactly what the rows created before their end cost. */
  lemma {:induction false} PrefixIsSpent(rows: seq<Row>, start: int, width: nat, n: nat)
    requires width > 0 && forall i :: 0 <= i < |rows| ==> rows[i].at >= start
    ensures Prefix(SumsOf(rows, start, width), n) == SpentBefore(rows, start + n * width)
  {
    if rows == [] {
      EmptyPrefix(n);
    } else {
      var front, last := rows[..|rows| - 1], rows[|rows| - 1];
      PrefixIsSpent(front, start, width, n);
      PrefixAdds(SumsOf(front, start, width), BucketOf(last.at, start, width), last.micros, n);
      Before(last.at, start, width, n);
    }
  }

  lemma {:induction false} EmptyPrefix(n: nat)
    ensures Prefix(map[], n) == 0
  {
    if n > 0 {
      EmptyPrefix(n - 1);
    }
  }

  lemma {:induction false} NoneAfter(rows: seq<Row>, start: int, asOf: int, t: int)
    requires InPeriod(rows, start, asOf) && t >= asOf
    ensures SpentBefore(rows, t) == SpentBefore(rows, asOf)
  {
    if rows != [] {
      NoneAfter(rows[..|rows| - 1], start, asOf, t);
    }
  }

  /** For any rows of the period so far, every point is the exact spend of the rows created before it, the times increase
      strictly and end at `asOf`, and the last point is the period's total: no bucket is lost or counted twice. */
  lemma {:induction false} PointsExact(rows: seq<Row>, points: seq<Point>, start: int, asOf: int, width: nat)
    requires width > 0 && InPeriod(rows, start, asOf) && ArePoints(points, start, asOf, width, SumsOf(rows, start, width))
    ensures forall n :: 0 <= n < |points| ==> points[n].spent == SpentBefore(rows, points[n].at)
    ensures forall n :: 1 <= n < |points| ==> points[n - 1].at < points[n].at
    ensures asOf > start ==> points[|points| - 1].at == asOf && points[|points| - 1].spent == SpentBefore(rows, asOf)
  {
    forall n | 0 <= n < |points|
      ensures points[n].spent == SpentBefore(rows, points[n].at)
    {
      PointExact(rows, start, asOf, width, n);
    }
    forall n | 1 <= n < |points|
      ensures points[n - 1].at < points[n].at
    {
      TimesIncrease(start, asOf, width, n);
    }
    if asOf > start {
      LastBucket(asOf - start, width);
    }
  }

  lemma {:induction false} PointExact(rows: seq<Row>, start: int, asOf: int, width: nat, n: nat)
    requires width > 0 && InPeriod(rows, start, asOf)
    ensures n > 0 ==> Prefix(SumsOf(rows, start, width), n) == SpentBefore(rows, MinInt(start + n * width, asOf))
    ensures SpentBefore(rows, start) == 0
  {
    PrefixIsSpent(rows, start, width, n);
    PrefixIsSpent(rows, start, width, 0);
    if start + n * width >= asOf {
      NoneAfter(rows, start, asOf, start + n * width);
    }
  }

  lemma {:induction false} LastBucket(span: nat, width: nat)
    requires width > 0 && span > 0
    ensures CeilDiv(span, width) >= 1 && CeilDiv(span, width) * width >= span
  {
  }

  lemma {:induction false} TimesIncrease(start: int, asOf: int, width: nat, n: nat)
    requires width > 0 && asOf > start && 1 <= n <= CeilDiv(asOf - start, width)
    ensures MinInt(start + (n - 1) * width, asOf) < MinInt(start + n * width, asOf)
    ensures n == 1 ==> start < MinInt(start + width, asOf)
  {
    var c := CeilDiv(asOf - start, width);
    Product(n, width);
    if n < c {
      Gap(n, c, width);
    }
  }
}
