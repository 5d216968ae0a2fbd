/**
 * A latency histogram of fixed size (tester/metrics/histogram.go), durations in
 * microseconds. A bucket's bounds are compared by their 16th powers, which are
 * powers of two: int(log2(us) * 16) is the largest k with 2^k <= us^16.
 */
module LatencyHistogram {
  import B = Basics

  const NumBuckets := 641

  function Pow2(k: nat): (p: real)
    ensures p >= 1.0
  {
    if k == 0 then 1.0 else 2.0 * Pow2(k - 1)
  }

  function Square(x: real): real { x * x }

  /** x to the 16th. */
  function Pow16(x: real): real { Square(Square(Square(Square(x)))) }

  lemma SquareGrows(x: real, y: real)
    requires 0.0 <= x <= y
    ensures 0.0 <= Square(x) <= Square(y) && (x < y ==> Square(x) < Square(y))
  {
    var d, e := y - x, y + x;
    assert y * y - x * x == d * e;
    assert d >= 0.0 && e >= 0.0 ==> d * e >= 0.0;
    assert d > 0.0 && e > 0.0 ==> d * e > 0.0;
  }

  lemma Pow16Grows(x: real, y: real)
    requires 0.0 <= x && 0.0 <= y
    ensures (x <= y <==> Pow16(x) <= Pow16(y)) && (x < y <==> Pow16(x) < Pow16(y)) && 0.0 <= Pow16(x)
  {
    if x <= y {
      SquareGrows(x, y);
      SquareGrows(Square(x), Square(y));
      SquareGrows(Square(Square(x)), Square(Square(y)));
      SquareGrows(Square(Square(Square(x))), Square(Square(Square(y))));
    }
    if y <= x {
      SquareGrows(y, x);
      SquareGrows(Square(y), Square(x));
      SquareGrows(Square(Square(y)), Square(Square(x)));
      SquareGrows(Square(Square(Square(y))), Square(Square(Square(x))));
    }
    hide Square;
  }

  lemma {:induction false} Pow2Grows(j: nat, k: nat)
    requires j <= k
    ensures Pow2(j) <= Pow2(k) && (j < k ==> Pow2(j) < Pow2(k))
    decreases k
  {
    if j < k {
      Pow2Grows(j, k - 1);
    }
  }

  /** The largest k up to the last bucket with 2^k <= v, from k on. */
  function Octaves(v: real, k: nat): (r: nat)
    requires k < NumBuckets
    ensures k <= r < NumBuckets
    decreases NumBuckets - k
  {
    if k == NumBuckets - 1 || v < Pow2(k + 1) then k else Octaves(v, k + 1)
  }

  /** bucketOf. */
  function Bucket(us: real): (i: nat)
    ensures i < NumBuckets
  {
    if us < 1.0 then 0
    else
      var i := Octaves(Pow16(us), 0) + 1;
      if i < NumBuckets then i else NumBuckets - 1
  }

  lemma {:induction false} OctavesIs(v: real, k: nat)
    requires k < NumBuckets && Pow2(k) <= v
    ensures var r := Octaves(v, k); Pow2(r) <= v && (r < NumBuckets - 1 ==> v < Pow2(r + 1))
    decreases NumBuckets - k
  {
    if k < NumBuckets - 1 && v >= Pow2(k + 1) {
      OctavesIs(v, k + 1);
    }
  }

  lemma One()
    ensures Pow16(1.0) == 1.0 == Pow2(0)
  {
  }

  /**
   * What lands in a bucket: below 2^(i/16) us, and for i > 0 at least 2^((i-1)/16) us; the last one
   * also takes all above.
   */
  lemma BucketHolds(us: real)
    requires 0.0 <= us
    ensures var i := Bucket(us);
            (i == 0 <==> us < 1.0) && (i > 0 ==> Pow2(i - 1) <= Pow16(us))
                && (i < NumBuckets - 1 ==> Pow16(us) < Pow2(i))
  {
    One();
    Pow16Grows(1.0, us);
    if us >= 1.0 {
      OctavesIs(Pow16(us), 0);
      var k := Octaves(Pow16(us), 0);
      if k == NumBuckets - 1 {
        Pow2Grows(k - 1, k);
      }
    }
    hide Pow16, Octaves;
  }

  lemma BucketGrows(x: real, y: real)
    requires 0.0 <= x <= y
    ensures Bucket(x) <= Bucket(y)
  {
    BucketHolds(x);
    BucketHolds(y);
    Pow16Grows(x, y);
    var i, j := Bucket(x), Bucket(y);
    hide Bucket, Pow16;
    if j < i {
      Pow2Grows(j, i - 1);
    }
  }

  // ------------------------------------------------------------- counting

  function CountIn(s: seq<real>, i: int): nat {
    if s == [] then 0 else CountIn(s[..|s| - 1], i) + (if Bucket(s[|s| - 1]) == i then 1 else 0)
  }

  /** Samples in buckets up to i. */
  function CountTo(s: seq<real>, i: int): nat {
    if s == [] then 0 else CountTo(s[..|s| - 1], i) + (if Bucket(s[|s| - 1]) <= i then 1 else 0)
  }

  function CountBelow(s: seq<real>, x: real): nat {
    if s == [] then 0 else CountBelow(s[..|s| - 1], x) + (if s[|s| - 1] < x then 1 else 0)
  }

  function CountAtMost(s: seq<real>, x: real): nat {
    if s == [] then 0 else CountAtMost(s[..|s| - 1], x) + (if s[|s| - 1] <= x then 1 else 0)
  }

  lemma {:induction false} CountToMore(s: seq<real>, i: int)
    ensures CountTo(s, i) == CountTo(s, i - 1) + CountIn(s, i)
  {
    hide Bucket;
    if s != [] {
      CountToMore(s[..|s| - 1], i);
    }
  }

  lemma {:induction false} CountToAll(s: seq<real>)
    ensures CountTo(s, -1) == 0 && CountTo(s, NumBuckets - 1) == |s|
  {
    hide Bucket;
    if s != [] {
      CountToAll(s[..|s| - 1]);
    }
  }

  lemma {:induction false} CountToGrows(s: seq<real>, i: int, j: int)
    requires i <= j
    ensures CountTo(s, i) <= CountTo(s, j)
  {
    hide Bucket;
    if s != [] {
      CountToGrows(s[..|s| - 1], i, j);
    }
  }

  /** A time.Duration holds whole nanoseconds. */
  predicate Whole(us: real) { (us * 1000.0).Floor as real == us * 1000.0 }

  /** What time.Duration makes of a float. */
  function Truncated(us: real): (d: real)
    ensures Whole(d) && d <= us < d + 0.001 && (us >= 0.0 ==> d >= 0.0)
  {
    var d := (us * 1000.0).Floor as real / 1000.0;
    assert d * 1000.0 == (us * 1000.0).Floor as real;
    d
  }

  ghost predicate Durations(s: seq<real>) { forall k :: 0 <= k < |s| ==> 0.0 <= s[k] && Whole(s[k]) }

  /** Samples at most x are in buckets up to x's; samples in lower buckets are below x. */
  lemma {:induction false} CountsByBucket(s: seq<real>, x: real, i: int)
    requires Durations(s) && 0.0 <= x
    ensures CountAtMost(s, x) <= CountTo(s, Bucket(x))
    ensures i < Bucket(x) ==> CountTo(s, i) <= CountBelow(s, x)
  {
    if s != [] {
      var y := s[|s| - 1];
      CountsByBucket(s[..|s| - 1], x, i);
      if y <= x {
        BucketGrows(y, x);
      } else {
        BucketGrows(x, y);
      }
      hide Bucket;
    }
  }

  lemma {:induction false} CountParts(s: seq<real>, t: seq<real>, i: int)
    ensures CountIn(s + t, i) == CountIn(s, i) + CountIn(t, i)
    decreases |t|
  {
    hide Bucket;
    if t == [] {
      assert s + t == s;
    } else {
      CountParts(s, t[..|t| - 1], i);
      assert (s + t)[..|s + t| - 1] == s + t[..|t| - 1];
    }
  }

  function Sum(s: seq<real>): real { if s == [] then 0.0 else Sum(s[..|s| - 1]) + s[|s| - 1] }

  function Max(s: seq<real>): real {
    if s == [] then 0.0
    else
      var m := Max(s[..|s| - 1]);
      if s[|s| - 1] > m then s[|s| - 1] else m
  }

  lemma {:induction false} SumParts(s: seq<real>, t: seq<real>)
    ensures Sum(s + t) == Sum(s) + Sum(t)
    ensures Max(s + t) == if Max(t) > Max(s) then Max(t) else Max(s)
    decreases |t|
  {
    if t == [] {
      assert s + t == s;
      MaxLeast(s);
    } else {
      SumParts(s, t[..|t| - 1]);
      assert (s + t)[..|s + t| - 1] == s + t[..|t| - 1];
    }
  }

  lemma {:induction false} MaxLeast(s: seq<real>)
    ensures 0.0 <= Max(s) && forall k :: 0 <= k < |s| ==> s[k] <= Max(s)
    ensures Max(s) > 0.0 ==> exists k :: 0 <= k < |s| && s[k] == Max(s)
  {
    if s != [] {
      MaxLeast(s[..|s| - 1]);
    }
  }

  // ------------------------------------------------------------- quantiles

  /** upperBound of bucket i: 2^(i/16) us, in whole nanoseconds. */
  ghost predicate BoundOf(u: real, i: nat) { exists e: real :: e >= 0.0 && Pow16(e) == Pow2(i) && u == Truncated(e) }

  ghost predicate Bounds(upper: seq<real>) {
    |upper| == NumBuckets && forall i: nat :: i < NumBuckets ==> BoundOf(upper[i], i)
  }

  /** Truncation takes nothing from the bound that a duration could reach. */
  lemma BoundHolds(u: real, i: nat, x: real)
    requires BoundOf(u, i) && x >= 0.0 && Whole(x)
    ensures u >= 0.0 && Pow16(u) <= Pow2(i) && (Pow16(x) <= Pow2(i) <==> x <= u)
  {
    var e: real :| e >= 0.0 && Pow16(e) == Pow2(i) && u == Truncated(e);
    Pow16Grows(u, e);
    Pow16Grows(x, e);
    if x <= e {
      WholeBelow(x, e);
    } else {
      Pow16Grows(e, x);
    }
  }

  lemma WholeBelow(x: real, e: real)
    requires Whole(x) && x <= e
    ensures x <= Truncated(e)
  {
    assert (x * 1000.0).Floor <= (e * 1000.0).Floor;
    assert x * 1000.0 <= Truncated(e) * 1000.0;
  }

  lemma BoundsGrow(u: real, i: nat, v: real, j: nat)
    requires BoundOf(u, i) && BoundOf(v, j) && i <= j
    ensures u <= v
  {
    BoundHolds(u, i, u);
    BoundHolds(v, j, u);
    Pow2Grows(i, j);
  }

  /** The bucket a scan for rank stops at. */
  ghost predicate StopsAt(s: seq<real>, rank: nat, i: nat) {
    i < NumBuckets && CountTo(s, i - 1) < rank <= CountTo(s, i)
  }

  /** x is the sample of this rank, counted from the smallest. */
  ghost predicate RankOf(s: seq<real>, rank: nat, x: real) {
    x in s && CountBelow(s, x) < rank <= CountAtMost(s, x)
  }

  lemma RankInBucket(s: seq<real>, rank: nat, i: nat, x: real)
    requires Durations(s) && StopsAt(s, rank, i) && RankOf(s, rank, x)
    ensures Bucket(x) == i
  {
    CountsByBucket(s, x, i);
    if Bucket(x) < i {
      CountToGrows(s, Bucket(x), i - 1);
    }
  }

  lemma {:induction false} PowSquare(k: nat)
    ensures Square(Pow2(k)) == Pow2(2 * k)
  {
    if k > 0 {
      PowSquare(k - 1);
      var p := Pow2(k - 1);
      assert (2.0 * p) * (2.0 * p) == 4.0 * (p * p);
    }
  }

  /** The last bucket's bound is 2^40 us. */
  lemma LastBound(x: real)
    requires x >= 0.0
    ensures Pow16(x) <= Pow2(NumBuckets - 1) <==> x <= Pow2(40)
  {
    var t := Pow2(40);
    PowSquare(40);
    PowSquare(80);
    PowSquare(160);
    PowSquare(320);
    assert Pow16(t) == Pow2(640);
    Pow16Grows(x, t);
    Pow16Grows(t, x);
  }

  /**
   * The quantile of a rank is the bucket's upper bound capped at the maximum: never below the sample of that rank,
   * and at most 2^(1/16) times it, for samples from 1 us to 2^40 us.
   */
  lemma QuantileIsClose(s: seq<real>, upper: seq<real>, rank: nat, i: nat, x: real)
    requires Durations(s) && Bounds(upper) && StopsAt(s, rank, i) && RankOf(s, rank, x)
    requires x <= Pow2(40)
    ensures var r := B.RealMin(upper[i], Max(s));
            x <= r && (x >= 1.0 ==> Pow16(r) <= 2.0 * Pow16(x)) && (x < 1.0 ==> r <= 1.0)
  {
    RankInBucket(s, rank, i, x);
    var k :| 0 <= k < |s| && s[k] == x;
    MaxLeast(s);
    LastBound(x);
    BucketHolds(x);
    BoundHolds(upper[i], i, x);
    One();
    Pow16Grows(upper[i], 1.0);
    var r := B.RealMin(upper[i], Max(s));
    Pow16Grows(r, upper[i]);
    hide Bucket, Pow16, BoundOf;
  }

  /** A higher rank never has a lower quantile. */
  lemma QuantileGrows(s: seq<real>, upper: seq<real>, rank: nat, i: nat, rank2: nat, j: nat)
    requires Bounds(upper) && StopsAt(s, rank, i) && StopsAt(s, rank2, j) && rank <= rank2
    ensures i <= j && B.RealMin(upper[i], Max(s)) <= B.RealMin(upper[j], Max(s))
  {
    if j < i {
      CountToGrows(s, j, i - 1);
    } else {
      BoundsGrow(upper[i], i, upper[j], j);
    }
  }

  /** The last rank's quantile is the true maximum if and only if that is at most 2^40 us. */
  lemma LastQuantile(s: seq<real>, upper: seq<real>, i: nat)
    requires s != [] && Durations(s) && Bounds(upper) && StopsAt(s, |s|, i)
    ensures B.RealMin(upper[i], Max(s)) == Max(s) <==> Max(s) <= Pow2(40)
  {
    MaxLeast(s);
    LastBound(Max(s));
    var m := Max(s);
    MaxIsLast(s);
    RankInBucket(s, |s|, i, m);
    BucketHolds(m);
    BoundHolds(upper[i], i, m);
    if i < NumBuckets - 1 {
      Pow2Grows(i, NumBuckets - 1);
    }
    hide Bucket, Pow16, BoundOf;
  }

  /** One sample of a microsecond more than that: its last quantile is below it. */
  lemma LongSample(upper: seq<real>)
    requires Bounds(upper)
    ensures var s, i := [1_099_511_627_777.0], NumBuckets - 1;
            Durations(s) && StopsAt(s, 1, i) && B.RealMin(upper[i], Max(s)) < Max(s)
  {
    var x := 1_099_511_627_777.0;
    TwoTo40();
    LastBound(x);
    BucketHolds(x);
    if Bucket(x) < NumBuckets - 1 {
      Pow2Grows(Bucket(x), NumBuckets - 1);
    }
    OneSample(x, NumBuckets - 1);
    LastQuantile([x], upper, NumBuckets - 1);
  }

  lemma TwoTo40()
    ensures Pow2(40) == 1_099_511_627_776.0
  {
    assert Pow2(5) == 32.0;
    PowSquare(5);
    PowSquare(10);
    PowSquare(20);
  }

  lemma OneSample(x: real, i: nat)
    requires Bucket(x) == i && x >= 0.0
    ensures StopsAt([x], 1, i) && Max([x]) == x
  {
    hide Bucket;
    assert [x][..0] == [];
    assert CountTo([], i) == CountTo([], i - 1) == 0;
  }

  lemma {:induction false} AllAtMost(s: seq<real>, x: real)
    requires forall k :: 0 <= k < |s| ==> s[k] <= x
    ensures CountAtMost(s, x) == |s|
  {
    if s != [] {
      AllAtMost(s[..|s| - 1], x);
    }
  }

  lemma {:induction false} NotAllBelow(s: seq<real>, k: nat)
    requires k < |s|
    ensures CountBelow(s, s[k]) < |s|
  {
    var n := |s| - 1;
    if k < n {
      NotAllBelow(s[..n], k);
    } else {
      BelowAtMost(s[..n], s[k]);
    }
  }

  lemma {:induction false} BelowAtMost(s: seq<real>, x: real)
    ensures CountBelow(s, x) <= |s|
  {
    if s != [] {
      BelowAtMost(s[..|s| - 1], x);
    }
  }

  lemma MaxIsLast(s: seq<real>)
    requires s != [] && Durations(s)
    ensures RankOf(s, |s|, Max(s))
  {
    MaxLeast(s);
    AllAtMost(s, Max(s));
    if Max(s) > 0.0 {
      var k :| 0 <= k < |s| && s[k] == Max(s);
      NotAllBelow(s, k);
    } else {
      assert s[0] == Max(s);
      NotAllBelow(s, 0);
    }
  }

  /** The least rank that is not below the share q of n samples, and at least 1. */
  predicate IsRank(q: real, n: nat, rank: nat) {
    rank >= 1 && rank as real >= q * n as real && (rank == 1 || (rank - 1) as real < q * n as real)
  }

  /** So quantiles grow with q. */
  lemma RankGrows(q: real, p: real, n: nat, rank: nat, rank2: nat)
    requires q <= p && IsRank(q, n, rank) && IsRank(p, n, rank2)
    ensures rank <= rank2
  {
    var x, y := q * n as real, p * n as real;
    assert (p - q) * n as real >= 0.0;
    assert x <= y;
  }

  // ----------------------------------------------------------- the histogram

  class Histogram {
    const counts: array<nat>
    var total: nat
    var sum: real
    var max: real
    ghost var samples: seq<real>

    /** It is the histogram of the samples recorded, in whatever order and by whomever. */
    ghost predicate Valid()
      reads this, counts
    {
      && counts.Length == NumBuckets && Durations(samples)
      && (forall i :: 0 <= i < NumBuckets ==> counts[i] == CountIn(samples, i))
      && total == |samples| && sum == Sum(samples) && max == Max(samples)
    }

    constructor ()
      ensures Valid() && samples == [] && fresh(counts)
    {
      counts := new nat[NumBuckets](i => 0);
      total, sum, max := 0, 0.0, 0.0;
      samples := [];
    }

    method Record(d: real)
      requires Valid() && d >= 0.0 && Whole(d)
      modifies this, counts
      ensures Valid() && samples == old(samples) + [d]
    {
      ghost var was := samples;
      assert (was + [d])[..|was|] == was;
      var i := Bucket(d);
      hide Bucket;
      counts[i] := counts[i] + 1;
      total := total + 1;
      sum := sum + d;
      max := if d > max then d else max;
      samples := samples + [d];
    }

    /** Merging gives the histogram of all samples: it does not matter how they were split among recorders. */
    method Merge(o: Histogram)
      requires Valid() && o.Valid() && o != this && o.counts != counts
      modifies this, counts
      ensures Valid() && samples == old(samples) + o.samples
    {
      ghost var was := samples;
      SumParts(was, o.samples);
      for i := 0 to NumBuckets
        invariant forall j :: 0 <= j < i ==> counts[j] == CountIn(was + o.samples, j)
        invariant forall j :: i <= j < NumBuckets ==> counts[j] == CountIn(was, j)
        invariant forall j :: 0 <= j < NumBuckets ==> o.counts[j] == CountIn(o.samples, j)
        invariant total == |was| && sum == Sum(was) && max == Max(was) && samples == was
      {
        CountParts(was, o.samples, i);
        counts[i] := counts[i] + o.counts[i];
      }
      total := total + o.total;
      sum := sum + o.sum;
      max := if o.max > max then o.max else max;
      samples := samples + o.samples;
    }

    /** rank is max(ceil(q * total), 1). */
    method Quantile(upper: seq<real>, q: real) returns (r: real, ghost rank: nat, ghost i: nat)
      requires Valid() && Bounds(upper) && 0.0 <= q <= 1.0
      ensures total == 0 ==> r == 0.0
      ensures total > 0 ==>
                IsRank(q, total, rank) && StopsAt(samples, rank, i) && r == B.RealMin(upper[i], Max(samples))
    {
      assert |upper| == NumBuckets;
      hide IsRank, Bounds, Bucket, Pow16;
      rank, i := 0, 0;
      if total == 0 {
        return 0.0, 0, 0;
      }
      var want := RankFor(q, total);
      rank := want;
      var seen := 0;
      CountToAll(samples);
      var k := 0;
      while k < NumBuckets
        invariant 0 <= k <= NumBuckets && seen == CountTo(samples, k - 1) < want
      {
        CountToMore(samples, k);
        seen := seen + counts[k];
        if seen >= want {
          i := k;
          r := B.RealMin(upper[k], max);
          return;
        }
        k := k + 1;
      }
      assert false;
    }
  }

  /** max(ceil(q * n), 1). */
  function RankFor(q: real, n: nat): (rank: nat)
    requires 0.0 <= q <= 1.0 && n > 0
    ensures 1 <= rank <= n && IsRank(q, n, rank)
  {
    ShareWithin(q, n as real);
    AtLeastOne(q * n as real, n)
  }

  lemma ShareWithin(q: real, n: real)
    requires 0.0 <= q <= 1.0 && n >= 0.0
    ensures 0.0 <= q * n <= n
  {
    var rest := 1.0 - q;
    assert rest * n >= 0.0;
    assert rest * n == n - q * n;
  }

  /** max(ceil(x), 1). */
  function AtLeastOne(x: real, n: nat): (rank: nat)
    requires 0.0 <= x <= n as real && n > 0
    ensures 1 <= rank <= n && rank as real >= x && (rank == 1 || (rank - 1) as real < x)
  {
    var c := if x.Floor as real == x then x.Floor else x.Floor + 1;
    if c < 1 then 1 else c
  }
}
