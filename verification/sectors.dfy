/**
 * The sector layout of the pie chart: how an ordered sequence of magnitudes
 * is cut into consecutive sectors of the unit circle.
 *
 * Slice `k` gets the share `data[k] / total` of the circle. Its boundaries
 * are given here in closed form, as the angle `2π · (data[0] + … + data[k-1])
 * / total` before it and `2π · (data[0] + … + data[k]) / total` after it;
 * the drawing loop in module `PieChart` accumulates the same angles one share
 * at a time and is proved to agree with this layout.
 */
module Sectors {
  import opened Geometry

  /** Why a chart cannot be laid out. */
  datatype ChartError =
    | ZeroTotal  // the magnitudes add up to 0: every share would divide by zero

  datatype Result<T> = Ok(value: T) | Err(error: ChartError)

  /** Left-to-right sum, the order of `data.reduce((acc, v) => acc + v, 0)`. */
  function Sum(s: seq<real>): real
  {
    if |s| == 0 then 0.0 else Sum(s[..|s| - 1]) + s[|s| - 1]
  }

  predicate NonNegative(s: seq<real>)
  {
    forall i :: 0 <= i < |s| ==> s[i] >= 0.0
  }

  /** One sector: its share of the circle, its boundary angles and points,
      and whether its arc is drawn with the large-arc flag. */
  datatype Slice = Slice(ratio: real, startAngle: real, endAngle: real,
                         large: bool, start: Point, end: Point)

  /** Each element of `s` divided by `t`. */
  function Scale(s: seq<real>, t: real): (r: seq<real>)
    requires t != 0.0
    ensures |r| == |s|
  {
    seq(|s|, k requires 0 <= k < |s| => s[k] / t)
  }

  /** The shares of a laid-out chart, in slice order. */
  function Ratios(slices: seq<Slice>): (r: seq<real>)
    ensures |r| == |slices|
  {
    seq(|slices|, k requires 0 <= k < |slices| => slices[k].ratio)
  }

  /** A prefix one longer adds the next element. */
  lemma PrefixStep(s: seq<real>, k: nat)
    requires k < |s|
    ensures Sum(s[..k + 1]) == Sum(s[..k]) + s[k]
  {
    assert s[..k + 1][..k] == s[..k];
  }

  /** `c·a/t − c·b/t` is `c` times the share `(a − b)/t`. */
  lemma ShareDifference(c: real, a: real, b: real, t: real)
    requires t != 0.0
    ensures c * a / t - c * b / t == c * ((a - b) / t)
  {
    assert c * a / t - c * b / t == c * (a / t) - c * (b / t);
    assert a / t - b / t == (a - b) / t;
  }

  /** The whole is a share of one. */
  lemma WholeShare(t: real)
    requires t != 0.0
    ensures t / t == 1.0
  {
  }

  /** A part of a non-negative whole is a share between 0 and 1. */
  lemma ShareBounds(a: real, t: real)
    requires 0.0 <= a <= t && t != 0.0
    ensures 0.0 <= a / t <= 1.0
  {
    assert a / t * t == a;
  }

  /** Two parts of one whole cannot both exceed half of it. */
  lemma HalfSharesExclusive(a: real, b: real, t: real)
    requires 0.0 <= a && 0.0 <= b && a + b <= t && t != 0.0
    ensures !(a / t > 0.5 && b / t > 0.5)
  {
    ShareBounds(a + b, t);
    assert a / t + b / t == (a + b) / t;
  }

  /** The sweep between prefix angles `a` and `b = a + d` is `2π` times the
      share `d / t`, and exceeds half a turn exactly when the share exceeds 1/2. */
  lemma SpanOfShare(a: real, b: real, d: real, t: real)
    requires b == a + d && t != 0.0
    ensures 2.0 * Pi * b / t - 2.0 * Pi * a / t == 2.0 * Pi * (d / t)
    ensures d / t > 0.5 <==> 2.0 * Pi * b / t - 2.0 * Pi * a / t > Pi
  {
    ShareDifference(2.0 * Pi, b, a, t);
  }

  /** The angle after the first `j` slices: `2π` times their joint share. */
  function Angle(data: seq<real>, j: nat): real
    requires j <= |data| && Sum(data) != 0.0
  {
    2.0 * Pi * Sum(data[..j]) / Sum(data)
  }

  /** Slice `k` of `data`, its boundaries in closed form. */
  function SliceAt(data: seq<real>, k: nat, trig: Trig): Slice
    requires k < |data| && Sum(data) != 0.0
  {
    var ratio := data[k] / Sum(data);
    Slice(ratio, Angle(data, k), Angle(data, k + 1), ratio > 0.5,
          if k == 0 then StartPoint else FromAngle(Angle(data, k), trig),
          FromAngle(Angle(data, k + 1), trig))
  }

  /** Each slice spans `2π` times its share, and it carries the large-arc
      flag exactly when that span exceeds half a turn. */
  lemma SliceSpan(data: seq<real>, k: nat, trig: Trig)
    requires k < |data| && Sum(data) != 0.0
    ensures SliceAt(data, k, trig).endAngle - SliceAt(data, k, trig).startAngle
            == 2.0 * Pi * SliceAt(data, k, trig).ratio
    ensures SliceAt(data, k, trig).large
            <==> SliceAt(data, k, trig).endAngle - SliceAt(data, k, trig).startAngle > Pi
  {
    PrefixStep(data, k);
    SpanOfShare(Sum(data[..k]), Sum(data[..k + 1]), data[k], Sum(data));
    assert Angle(data, k + 1) - Angle(data, k) == 2.0 * Pi * (data[k] / Sum(data));
  }

  /** The first slice starts at angle 0, on the point (1, 0). */
  lemma FirstSlice(data: seq<real>, trig: Trig)
    requires 0 < |data| && Sum(data) != 0.0
    ensures SliceAt(data, 0, trig).startAngle == 0.0
    ensures SliceAt(data, 0, trig).start == StartPoint
  {
    assert data[..0] == [];
    assert Angle(data, 0) == 2.0 * Pi * 0.0 / Sum(data);
  }

  /** `SliceSpan` for every index at once. */
  lemma SliceSpans(data: seq<real>, trig: Trig)
    requires Sum(data) != 0.0
    ensures forall k :: 0 <= k < |data| ==>
              SliceAt(data, k, trig).endAngle - SliceAt(data, k, trig).startAngle
              == 2.0 * Pi * SliceAt(data, k, trig).ratio &&
              (SliceAt(data, k, trig).large
               <==> SliceAt(data, k, trig).endAngle - SliceAt(data, k, trig).startAngle > Pi)
  {
    forall k | 0 <= k < |data| {
      SliceSpan(data, k, trig);
    }
  }

  /**
   * The sectors of the chart of `data`, one per magnitude and in order.
   * Slice `k` takes the share `data[k] / total` and lies between the angles
   * of the prefixes of length `k` and `k + 1`. The slices start at angle 0 on
   * the point (1, 0), each starts where the previous one ends, each spans
   * `2π` times its share, the large-arc flag is set exactly on those
   * spanning more than half a turn, and the last one ends at angle `2π`.
   * Magnitudes adding up to 0 are refused; no magnitudes at all make no
   * slices.
   */
  function Layout(data: seq<real>, trig: Trig): (r: Result<seq<Slice>>)
    ensures r.Err? <==> |data| > 0 && Sum(data) == 0.0
    ensures r.Ok? ==> |r.value| == |data|
    ensures r.Ok? ==> forall k :: 0 <= k < |data| ==>
              r.value[k].ratio == data[k] / Sum(data) &&
              r.value[k].startAngle == Angle(data, k) &&
              r.value[k].endAngle == Angle(data, k + 1)
    ensures r.Ok? ==> forall k :: 0 <= k < |data| ==>
              r.value[k].end == FromAngle(r.value[k].endAngle, trig) &&
              (k > 0 ==> r.value[k].start == FromAngle(r.value[k].startAngle, trig))
    ensures r.Ok? && |data| > 0 ==>
              r.value[0].startAngle == 0.0 && r.value[0].start == StartPoint
    ensures r.Ok? ==> forall k :: 0 <= k < |data| - 1 ==>
              r.value[k + 1].startAngle == r.value[k].endAngle &&
              r.value[k + 1].start == r.value[k].end
    ensures r.Ok? && |data| > 0 ==> r.value[|data| - 1].endAngle == 2.0 * Pi
    ensures r.Ok? ==> forall k :: 0 <= k < |data| ==>
              r.value[k].endAngle - r.value[k].startAngle == 2.0 * Pi * r.value[k].ratio &&
              (r.value[k].large <==> r.value[k].endAngle - r.value[k].startAngle > Pi)
  {
    if |data| == 0 then Ok([])
    else if Sum(data) == 0.0 then Err(ZeroTotal)
    else
      SlicesChain(data, trig);
      SliceSpans(data, trig);
      SlicePoints(data, trig);
      Ok(Slices(data, trig))
  }

  /** Every boundary point of `Slices` is the unit point of its boundary
      angle, except the fixed start point (1, 0) of the first slice. */
  lemma SlicePoints(data: seq<real>, trig: Trig)
    requires Sum(data) != 0.0
    ensures forall k :: 0 <= k < |data| ==>
              Slices(data, trig)[k].end == FromAngle(Slices(data, trig)[k].endAngle, trig) &&
              (k > 0 ==> Slices(data, trig)[k].start
                         == FromAngle(Slices(data, trig)[k].startAngle, trig))
  {
  }

  /** The slices of `Slices` follow each other around the whole turn: the
      first starts at angle 0 on (1, 0), each starts where the previous one
      ends, and the last ends at `2π`. */
  lemma SlicesChain(data: seq<real>, trig: Trig)
    requires 0 < |data| && Sum(data) != 0.0
    ensures Slices(data, trig)[0].startAngle == 0.0
    ensures Slices(data, trig)[0].start == StartPoint
    ensures forall k :: 0 <= k < |data| - 1 ==>
              Slices(data, trig)[k + 1].startAngle == Slices(data, trig)[k].endAngle &&
              Slices(data, trig)[k + 1].start == Slices(data, trig)[k].end
    ensures Slices(data, trig)[|data| - 1].endAngle == 2.0 * Pi
  {
    var slices := Slices(data, trig);
    FirstSlice(data, trig);
    LastSlice(data, trig);
    assert slices[0] == SliceAt(data, 0, trig);
    assert slices[|data| - 1] == SliceAt(data, |data| - 1, trig);
    forall k | 0 <= k < |data| - 1
      ensures slices[k + 1].startAngle == slices[k].endAngle &&
              slices[k + 1].start == slices[k].end
    {
      assert slices[k] == SliceAt(data, k, trig);
      assert slices[k + 1] == SliceAt(data, k + 1, trig);
    }
  }

  /** The last slice ends at one full turn. */
  lemma LastSlice(data: seq<real>, trig: Trig)
    requires 0 < |data| && Sum(data) != 0.0
    ensures SliceAt(data, |data| - 1, trig).endAngle == 2.0 * Pi
  {
    assert data[..|data|] == data;
    FullTurn(Sum(data));
  }

  /** The whole of a total, turned into an angle, is one full turn. */
  lemma FullTurn(t: real)
    requires t != 0.0
    ensures 2.0 * Pi * t / t == 2.0 * Pi
  {
    assert 2.0 * Pi * t / t == 2.0 * Pi * (t / t);
  }

  /** The sectors of `data`, one `SliceAt` per index. */
  function Slices(data: seq<real>, trig: Trig): (r: seq<Slice>)
    requires Sum(data) != 0.0
    ensures |r| == |data|
  {
    seq(|data|, k requires 0 <= k < |data| => SliceAt(data, k, trig))
  }

  /** Dividing every element by `t` divides the sum by `t`. */
  lemma {:induction false} ScaleSum(s: seq<real>, t: real)
    requires t != 0.0
    ensures Sum(Scale(s, t)) == Sum(s) / t
    decreases |s|
  {
    if |s| > 0 {
      var n := |s| - 1;
      assert Scale(s, t)[..n] == Scale(s[..n], t);
      ScaleSum(s[..n], t);
      assert Sum(s[..n]) / t + s[n] / t == (Sum(s[..n]) + s[n]) / t;
    }
  }

  /** The shares of all slices add up to exactly one whole circle. */
  lemma RatiosSumToOne(data: seq<real>, trig: Trig)
    requires Sum(data) != 0.0
    ensures Sum(Ratios(Slices(data, trig))) == 1.0
  {
    var total := Sum(data);
    var slices := Slices(data, trig);
    forall k | 0 <= k < |data|
      ensures Ratios(slices)[k] == Scale(data, total)[k]
    {
      assert slices[k] == SliceAt(data, k, trig);
    }
    assert Ratios(slices) == Scale(data, total);
    ScaleSum(data, total);
    WholeShare(total);
  }

  /** A sum of non-negative numbers is non-negative. */
  lemma {:induction false} SumNonNegative(s: seq<real>)
    requires NonNegative(s)
    ensures Sum(s) >= 0.0
    decreases |s|
  {
    if |s| > 0 {
      SumNonNegative(s[..|s| - 1]);
    }
  }

  /** With non-negative magnitudes, the prefix sums only grow. */
  lemma {:induction false} PrefixMonotone(s: seq<real>, i: nat, j: nat)
    requires NonNegative(s) && i <= j <= |s|
    ensures 0.0 <= Sum(s[..i]) <= Sum(s[..j])
    decreases j - i
  {
    if i == j {
      assert NonNegative(s[..i]);
      SumNonNegative(s[..i]);
    } else {
      PrefixMonotone(s, i, j - 1);
      PrefixStep(s, j - 1);
    }
  }

  /** With non-negative magnitudes, two distinct ones fit inside the total. */
  lemma {:induction false} PairBelowSum(s: seq<real>, i: nat, j: nat)
    requires NonNegative(s) && i < j < |s|
    ensures s[i] + s[j] <= Sum(s)
    decreases |s|
  {
    var n := |s| - 1;
    assert NonNegative(s[..n]);
    if j < n {
      PairBelowSum(s[..n], i, j);
    } else {
      PrefixMonotone(s[..n], i, i + 1);
      PrefixMonotone(s[..n], i + 1, n);
      PrefixStep(s[..n], i);
      assert s[..n][..n] == s[..n];
    }
  }

  /** With non-negative magnitudes, one magnitude fits inside the total. */
  lemma ElementBelowSum(s: seq<real>, i: nat)
    requires NonNegative(s) && i < |s|
    ensures 0.0 <= s[i] <= Sum(s)
  {
    PrefixMonotone(s, i, i + 1);
    PrefixMonotone(s, i + 1, |s|);
    PrefixStep(s, i);
    assert s[..|s|] == s;
  }

  /** With non-negative magnitudes and a non-zero total, every share lies
      in [0, 1]. */
  lemma RatioBounds(data: seq<real>, trig: Trig)
    requires NonNegative(data) && Sum(data) != 0.0
    ensures forall k :: 0 <= k < |data| ==>
              0.0 <= Slices(data, trig)[k].ratio <= 1.0
  {
    var total := Sum(data);
    forall k | 0 <= k < |data|
      ensures 0.0 <= data[k] / total <= 1.0
    {
      ElementBelowSum(data, k);
      ShareBounds(data[k], total);
    }
  }

  /** Turning prefix sums `a <= b` of a total `t` into angles keeps them
      ordered within one turn. */
  lemma AngleBounds(a: real, b: real, t: real)
    requires 0.0 <= a <= b <= t && t != 0.0
    ensures 0.0 <= 2.0 * Pi * a / t <= 2.0 * Pi * b / t <= 2.0 * Pi
  {
    ShareBounds(a, t);
    ShareBounds(b, t);
    assert a / t <= b / t by {
      assert b / t - a / t == (b - a) / t;
      ShareBounds(b - a, t);
    }
    assert 2.0 * Pi * a / t == 2.0 * Pi * (a / t);
    assert 2.0 * Pi * b / t == 2.0 * Pi * (b / t);
  }

  /** With non-negative magnitudes, the boundary angles never go backwards
      and stay within one turn from 0 to 2π. */
  lemma AnglesWithinTurn(data: seq<real>, trig: Trig)
    requires NonNegative(data) && Sum(data) != 0.0
    ensures forall k :: 0 <= k < |data| ==>
              0.0 <= Slices(data, trig)[k].startAngle
                  <= Slices(data, trig)[k].endAngle <= 2.0 * Pi
  {
    var total := Sum(data);
    var slices := Slices(data, trig);
    forall k | 0 <= k < |data|
      ensures 0.0 <= slices[k].startAngle <= slices[k].endAngle <= 2.0 * Pi
    {
      assert slices[k] == SliceAt(data, k, trig);
      PrefixMonotone(data, k, k + 1);
      PrefixMonotone(data, k + 1, |data|);
      assert data[..|data|] == data;
      AngleBounds(Sum(data[..k]), Sum(data[..k + 1]), total);
    }
  }

  /** With non-negative magnitudes, at most one slice needs the large-arc
      flag. */
  lemma AtMostOneLargeArc(data: seq<real>, trig: Trig)
    requires NonNegative(data) && Sum(data) != 0.0
    ensures forall i, j ::
              0 <= i < |data| && 0 <= j < |data| &&
              Slices(data, trig)[i].large && Slices(data, trig)[j].large
              ==> i == j
  {
    var total := Sum(data);
    var slices := Slices(data, trig);
    forall i, j | 0 <= i < j < |data|
      ensures !(slices[i].large && slices[j].large)
    {
      assert slices[i].large <==> data[i] / total > 0.5;
      assert slices[j].large <==> data[j] / total > 0.5;
      PairBelowSum(data, i, j);
      HalfSharesExclusive(data[i], data[j], total);
    }
  }

  /** When the host's cosine and sine take the values 1 and 0 at angle 0,
      every boundary point is the unit point of its boundary angle: the
      fixed start point (1, 0) of the first slice agrees with angle 0. */
  lemma BoundariesAtTheirAngles(data: seq<real>, trig: Trig)
    requires trig.cos(0.0) == 1.0 && trig.sin(0.0) == 0.0 && Sum(data) != 0.0
    ensures forall k :: 0 <= k < |data| ==>
              Slices(data, trig)[k].start == FromAngle(Slices(data, trig)[k].startAngle, trig) &&
              Slices(data, trig)[k].end == FromAngle(Slices(data, trig)[k].endAngle, trig)
  {
    if |data| > 0 {
      FirstSlice(data, trig);
    }
  }

  /** The running angle after `k` slices when each slice's sweep
      `ratio · 2 · π` is added in turn, starting from 0. */
  function AccumulatedAngle(data: seq<real>, k: nat): real
    requires k <= |data| && Sum(data) != 0.0
  {
    if k == 0 then 0.0
    else AccumulatedAngle(data, k - 1) + data[k - 1] / Sum(data) * 2.0 * Pi
  }

  /** Adding the sweeps one by one reaches the closed-form angle of the
      prefix, `2π · (data[0] + … + data[k-1]) / total`; after the last slice
      this is exactly one full turn. */
  lemma {:induction false} AccumulatedAngleIsPrefixShare(data: seq<real>, k: nat)
    requires k <= |data| && Sum(data) != 0.0
    ensures AccumulatedAngle(data, k) == Angle(data, k)
    ensures k == |data| ==> AccumulatedAngle(data, k) == 2.0 * Pi
  {
    if k > 0 {
      AccumulatedAngleIsPrefixShare(data, k - 1);
      PrefixStep(data, k - 1);
      AddShare(Sum(data[..k - 1]), data[k - 1], Sum(data));
    }
    if k == |data| {
      assert data[..k] == data;
      WholeShare(Sum(data));
      assert Angle(data, k) == 2.0 * Pi * (Sum(data) / Sum(data));
    }
  }

  /** Slice `k` in terms of the running angle: it starts at the unit point
      of the angle reached after `k` slices (at (1, 0) for the first), ends
      at the unit point of the angle reached after `k + 1`, and takes the
      large arc exactly when its share exceeds one half. */
  lemma AccumulatedSlice(data: seq<real>, k: nat, trig: Trig)
    requires k < |data| && Sum(data) != 0.0
    ensures SliceAt(data, k, trig).start
            == if k == 0 then StartPoint else FromAngle(AccumulatedAngle(data, k), trig)
    ensures SliceAt(data, k, trig).end == FromAngle(AccumulatedAngle(data, k + 1), trig)
    ensures SliceAt(data, k, trig).large <==> data[k] / Sum(data) > 0.5
  {
    AccumulatedAngleIsPrefixShare(data, k);
    AccumulatedAngleIsPrefixShare(data, k + 1);
  }

  /** Adding one share's sweep to the angle of a prefix gives the angle of
      the longer prefix. */
  lemma AddShare(a: real, d: real, t: real)
    requires t != 0.0
    ensures 2.0 * Pi * a / t + d / t * 2.0 * Pi == 2.0 * Pi * (a + d) / t
  {
    assert 2.0 * Pi * a / t == 2.0 * Pi * (a / t);
    assert 2.0 * Pi * (a + d) / t == 2.0 * Pi * ((a + d) / t);
    assert (a + d) / t == a / t + d / t;
  }

  /** Magnitudes 3 and 1: the first slice (share 3/4) takes the large arc,
      the second (share 1/4) does not. */
  lemma ThreeToOneFlags(trig: Trig)
    ensures Layout([3.0, 1.0], trig).Ok?
    ensures Layout([3.0, 1.0], trig).value[0].large
    ensures !Layout([3.0, 1.0], trig).value[1].large
  {
    var data := [3.0, 1.0];
    assert data[..1] == [3.0];
    assert Sum(data) == 4.0;
  }

  /** Four equal non-zero magnitudes: every slice sweeps a quarter turn. */
  lemma EqualQuarters(a: real, trig: Trig)
    requires a != 0.0
    ensures Layout([a, a, a, a], trig).Ok?
    ensures forall k :: 0 <= k < 4 ==>
              Layout([a, a, a, a], trig).value[k].endAngle
              - Layout([a, a, a, a], trig).value[k].startAngle == Pi / 2.0
  {
    var data := [a, a, a, a];
    assert data[..3] == [a, a, a];
    assert data[..3][..2] == [a, a];
    assert data[..3][..2][..1] == [a];
    assert Sum([a]) == a;
    assert Sum([a, a]) == 2.0 * a;
    assert Sum([a, a, a]) == 3.0 * a;
    assert Sum(data) == 4.0 * a;
    assert a / (4.0 * a) == 0.25 by {
      assert 0.25 * (4.0 * a) == a;
    }
    var r := Layout(data, trig);
    forall k | 0 <= k < 4
      ensures r.value[k].endAngle - r.value[k].startAngle == Pi / 2.0
    {
      assert r.value[k].ratio == 0.25;
    }
  }

  /** Magnitudes 0 and 5: the first slice is degenerate (it starts and ends
      at angle 0), the second sweeps the whole turn with the large arc. */
  lemma ZeroThenFive(trig: Trig)
    ensures Layout([0.0, 5.0], trig).Ok?
    ensures Layout([0.0, 5.0], trig).value[0].startAngle == 0.0
    ensures Layout([0.0, 5.0], trig).value[0].endAngle == 0.0
    ensures Layout([0.0, 5.0], trig).value[1].endAngle - Layout([0.0, 5.0], trig).value[1].startAngle
            == 2.0 * Pi
    ensures Layout([0.0, 5.0], trig).value[1].large
  {
    var data := [0.0, 5.0];
    assert data[..1] == [0.0];
    assert Sum(data) == 5.0;
    assert Slices(data, trig)[1] == SliceAt(data, 1, trig);
  }
}
