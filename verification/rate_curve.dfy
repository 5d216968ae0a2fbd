/**
 * A whole run's per-second curve in at most max points, halved in place each
 * time it fills up (tester/dataplane/history.go, tester/run/ratecurve.go).
 */
module RateCurve {

  /** One second's rates; T is its time. */
  datatype Point = Point(t: real, ulTx: real, ulRx: real, dlTx: real, dlRx: real) {
    /** Rates add up, the later time stays. */
    function Plus(o: Point): Point { Point(o.t, ulTx + o.ulTx, ulRx + o.ulRx, dlTx + o.dlTx, dlRx + o.dlRx) }

    function Div(n: real): Point
      requires n != 0.0
    {
      Point(t, ulTx / n, ulRx / n, dlTx / n, dlRx / n)
    }
  }

  function Origin(): Point { Point(0.0, 0.0, 0.0, 0.0, 0.0) }

  /** The sum of samples, with the last one's time. */
  function SumOf(s: seq<Point>): Point {
    if s == [] then Origin() else SumOf(s[..|s| - 1]).Plus(s[|s| - 1])
  }

  function Average(s: seq<Point>): Point
    requires s != []
  {
    SumOf(s).Div(|s| as real)
  }

  /** Samples i * width to (i + 1) * width - 1. */
  function Block(s: seq<Point>, width: nat, i: nat): (b: seq<Point>)
    requires i * width + width <= |s|
    ensures |b| == width
  {
    s[i * width..i * width + width]
  }

  ghost predicate PowerOfTwo(n: nat) { n == 1 || (n > 1 && n % 2 == 0 && PowerOfTwo(n / 2)) }

  lemma {:induction false} SumParts(a: seq<Point>, b: seq<Point>)
    requires b != []
    ensures SumOf(a + b) == SumOf(a).Plus(SumOf(b))
  {
    var n := |b| - 1;
    assert (a + b)[..|a| + n] == a + b[..n];
    if n > 0 {
      SumParts(a, b[..n]);
    } else {
      assert b[..n] == [] && a + [] == a;
    }
  }

  lemma Halves(x: real, y: real, w: real)
    requires w > 0.0
    ensures (x / w + y / w) / 2.0 == (x + y) / (2.0 * w)
  {
    assert x / w + y / w == (x + y) / w;
  }

  /** The mean of two averages over equally many samples is the average over all of them. */
  lemma AverageOfAverages(a: seq<Point>, b: seq<Point>)
    requires |a| == |b| > 0
    ensures Average(a).Plus(Average(b)).Div(2.0) == Average(a + b)
  {
    var w := |a| as real;
    SumParts(a, b);
    assert |a + b| as real == 2.0 * w;
    var x, y := SumOf(a), SumOf(b);
    hide SumOf;
    Halves(x.ulTx, y.ulTx, w);
    Halves(x.ulRx, y.ulRx, w);
    Halves(x.dlTx, y.dlTx, w);
    Halves(x.dlRx, y.dlRx, w);
  }

  /** The curve stands for the samples: every point is the exact average of its block. */
  ghost predicate Stands(samples: seq<Point>, width: nat, points: seq<Point>) {
    width > 0 && forall i: nat :: i < |points| ==>
           i * width + width <= |samples|
           && points[i] == Average(Block(samples, width, i))
  }

  /** One more sample leaves the finished points as they are. */
  lemma StandsStill(samples: seq<Point>, width: nat, points: seq<Point>, p: Point)
    requires Stands(samples, width, points)
    ensures Stands(samples + [p], width, points)
  {
    forall i: nat | i < |points| ensures i * width + width <= |samples + [p]|
        && points[i] == Average(Block(samples + [p], width, i)) {
      BlockStays(samples, width, i, p);
    }
  }

  lemma BlockStays(samples: seq<Point>, width: nat, i: nat, p: Point)
    requires i * width + width <= |samples|
    ensures Block(samples + [p], width, i) == Block(samples, width, i)
  {
  }

  /** A filled block becomes a point. */
  lemma StandsMore(samples: seq<Point>, width: nat, points: seq<Point>)
    requires Stands(samples, width, points) && |samples| == |points| * width + width
    ensures Stands(samples, width, points + [Average(samples[|points| * width..])])
  {
    var n := |points|;
    assert Block(samples, width, n) == samples[n * width..];
  }

  lemma PairOfBlocks(samples: seq<Point>, width: nat, i: nat)
    requires (2 * i + 1) * width + width <= |samples|
    ensures 0 <= 2 * i * width && 2 * i * width + width <= |samples| && i * (2 * width) + 2 * width <= |samples|
    ensures Block(samples, 2 * width, i) == Block(samples, width, 2 * i) + Block(samples, width, 2 * i + 1)
  {
    TwiceAt(width, i);
    var at := i * (2 * width);
    assert Block(samples, 2 * width, i) == samples[at..at + width] + samples[at + width..at + width + width];
  }

  lemma TwiceAt(width: nat, i: nat)
    ensures 2 * i * width == i * (2 * width) >= 0 && (2 * i + 1) * width == i * (2 * width) + width
  {
  }

  /** Pairs of neighbours averaged: every point stands for twice as many samples. */
  lemma StandsHalved(samples: seq<Point>, width: nat, points: seq<Point>, halved: seq<Point>)
    requires Stands(samples, width, points) && |points| == 2 * |halved|
    requires forall i :: 0 <= i < |halved| ==> halved[i] == points[2 * i].Plus(points[2 * i + 1]).Div(2.0)
    ensures Stands(samples, 2 * width, halved)
  {
    forall i: nat | i < |halved|
      ensures i * (2 * width) + 2 * width <= |samples| && halved[i] == Average(Block(samples, 2 * width, i))
    {
      PairHalved(samples, width, points, i);
    }
  }

  lemma PairHalved(samples: seq<Point>, width: nat, points: seq<Point>, i: nat)
    requires Stands(samples, width, points) && 2 * i + 1 < |points|
    ensures i * (2 * width) + 2 * width <= |samples|
    ensures points[2 * i].Plus(points[2 * i + 1]).Div(2.0) == Average(Block(samples, 2 * width, i))
  {
    var j: nat, k: nat := 2 * i, 2 * i + 1;
    assert k * width + width <= |samples| && points[k] == Average(Block(samples, width, k));
    assert j * width + width <= |samples| && points[j] == Average(Block(samples, width, j));
    PairOfBlocks(samples, width, i);
    hide Average, Block, Stands;
    AverageOfAverages(Block(samples, width, j), Block(samples, width, k));
  }

  lemma OpenSum(samples: seq<Point>, from: nat, p: Point)
    requires from <= |samples|
    ensures SumOf((samples + [p])[from..]) == SumOf(samples[from..]).Plus(p)
  {
    var open := samples[from..];
    assert (samples + [p])[from..] == open + [p];
    assert (open + [p])[..|open|] == open;
  }

  lemma Doubled(width: nat, len: nat)
    requires len % 2 == 0 && width > 0
    ensures len * width == len / 2 * (2 * width) && 0 <= len / 2 * (2 * width)
            && (PowerOfTwo(width) ==> PowerOfTwo(2 * width))
  {
    assert 2 * width / 2 == width;
  }

  class Curve {
    const max: nat
    var done: array<Point>
    var len: nat
    var width: nat
    var sum: Point
    var filled: nat
    ghost var samples: seq<Point>

    ghost predicate Valid()
      reads this, done
    {
      && max > 0 && max % 2 == 0 && done.Length == max && len < max
      && PowerOfTwo(width) && width > 0 && filled < width && |samples| == len * width + filled && 0 <= len * width
      && Stands(samples, width, done[..len]) && sum == SumOf(samples[len * width..])
    }

    constructor (max: nat)
      requires max > 0 && max % 2 == 0
      ensures Valid() && fresh(done) && samples == [] && this.max == max
    {
      this.max := max;
      done := new Point[max](i => Origin());
      len, width, sum, filled, samples := 0, 1, Origin(), 0, [];
    }

    /** add. The points stay exact averages of all samples so far, however often the curve has been halved. */
    method Add(p: Point)
      requires Valid()
      modifies this, done
      ensures Valid() && done == old(done) && samples == old(samples) + [p]
    {
      OpenSum(samples, len * width, p);
      StandsStill(samples, width, done[..len], p);
      hide Stands, SumOf, PowerOfTwo;
      sum := sum.Plus(p);
      filled := filled + 1;
      samples := samples + [p];
      if filled < width {
        return;
      }
      CloseBlock();
      if len == max {
        Halve();
      }
    }

    /** The filled block becomes the next point. */
    method CloseBlock()
      requires max > 0 && done.Length == max && len < max && width > 0 && filled == width
      requires 0 <= len * width && |samples| == len * width + width && sum == SumOf(samples[len * width..])
      requires Stands(samples, width, done[..len])
      modifies this`len, this`sum, this`filled, done
      ensures len == old(len) + 1 && sum == Origin() && filled == 0
      ensures 0 <= len * width && |samples| == len * width && Stands(samples, width, done[..len])
    {
      StandsMore(samples, width, done[..len]);
      hide Stands, SumOf;
      ghost var before, open := done[..len], samples[len * width..];
      assert len * width + width == (len + 1) * width;
      done[len] := sum.Div(filled as real);
      assert done[..len + 1] == before + [Average(open)];
      len := len + 1;
      sum, filled := Origin(), 0;
    }

    /** Neighbours are averaged in pairs, in place. */
    method Halve()
      requires max > 0 && max % 2 == 0 && done.Length == max == len && width > 0 && PowerOfTwo(width)
      requires 0 <= len * width && |samples| == len * width && Stands(samples, width, done[..len])
      modifies this`len, this`width, done
      ensures len == max / 2 && width == 2 * old(width) && PowerOfTwo(width)
      ensures 0 <= len * width && |samples| == len * width && Stands(samples, width, done[..len])
    {
      hide Stands, PowerOfTwo;
      ghost var before := done[..len];
      PairUp();
      StandsHalved(samples, width, before, done[..len / 2]);
      Doubled(width, len);
      len := len / 2;
      width := width * 2;
    }

    /** halve's loop. */
    method PairUp()
      requires done.Length == max == len && max % 2 == 0
      modifies done
      ensures forall j :: 0 <= j < len / 2 ==> done[j] == old(done[2 * j]).Plus(old(done[2 * j + 1])).Div(2.0)
    {
      hide Point.Plus, Point.Div;
      ghost var before := done[..];
      for i := 0 to len / 2
        invariant forall j :: 0 <= j < i ==> done[j] == before[2 * j].Plus(before[2 * j + 1]).Div(2.0)
        invariant forall j :: i <= j < len ==> done[j] == before[j]
      {
        done[i] := done[2 * i].Plus(done[2 * i + 1]).Div(2.0);
      }
    }

    /** The curve so far, at most max points; a partly filled last point is the average of what it has. */
    method Points() returns (points: seq<Point>)
      requires Valid()
      ensures |points| <= max && |points| == len + (if filled > 0 then 1 else 0)
      ensures Stands(samples, width, points[..len])
      ensures filled > 0 ==> points[len] == Average(samples[len * width..])
    {
      points := done[..len];
      if filled > 0 {
        points := points + [sum.Div(filled as real)];
      }
      assert points[..len] == done[..len];
    }
  }
}
