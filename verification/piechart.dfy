/**
 * The `<pie-chart>` element: its construction from the `data` attribute
 * (one magnitude and one filled path per `;`-separated field, coloured from a
 * fixed palette) and its `draw` pass, which walks the magnitudes once,
 * accumulating the sweep angle, and writes one sector path description per
 * magnitude.
 */
module PieChart {
  import opened Text
  import opened Geometry
  import opened Sectors
  import opened SvgPath

  /** The fill colours, in the order the chart hands them out. */
  const Palette: seq<string> :=
    ["#FAAA32", "#3EFA7D", "#FA6A25", "#0C94FA", "#FA1F19", "#0CFAE2", "#AB6D23"]

  /** The palette index of slice `k`: `k` modulo one less than the palette
      size, so the first six slices get distinct colours and the last entry
      of the palette is never chosen. */
  function ColorIndex(k: nat): (i: nat)
    ensures 0 <= i <= 5 && i < |Palette| - 1
    ensures k < |Palette| - 1 ==> i == k
  {
    k % (|Palette| - 1)
  }

  /** The fill colour of slice `k`. */
  function FillOf(k: nat): (c: string)
    ensures c in Palette[..|Palette| - 1]
    ensures c != Palette[|Palette| - 1]
  {
    Palette[ColorIndex(k)]
  }

  /** The colours repeat every six slices; slice 6 gets the first colour. */
  lemma FillCycle(k: nat)
    ensures FillOf(k + 6) == FillOf(k)
    ensures FillOf(6) == Palette[0]
  {
  }

  lemma FillsRepeat(n: nat)
    ensures forall k :: 6 <= k < n ==> FillOf(k) == FillOf(k - 6)
  {
    forall k | 6 <= k < n
      ensures FillOf(k) == FillOf(k - 6)
    {
      FillCycle(k - 6);
    }
  }

  /** The state a constructed chart holds: the magnitudes and the fill of
      the one path made for each of them. */
  datatype Chart = Chart(data: seq<real>, fills: seq<string>)

  /** The magnitudes of a `data` attribute: one per `;`-separated field, in
      order, each converted by the host's number parser `parse`. */
  function ParseData(attr: string, parse: string -> real): (data: seq<real>)
    ensures |data| == Count(attr, ';') + 1
  {
    var fields := Split(attr, ';');
    seq(|fields|, i requires 0 <= i < |fields| => parse(fields[i]))
  }

  /** An attribute written as `;`-separated texts parses back to those texts'
      values, in order. */
  lemma ParseJoinedData(texts: seq<string>, parse: string -> real)
    requires |texts| > 0
    requires forall i :: 0 <= i < |texts| ==> ';' !in texts[i]
    ensures |ParseData(Join(texts, ';'), parse)| == |texts|
    ensures forall i :: 0 <= i < |texts| ==> ParseData(Join(texts, ';'), parse)[i] == parse(texts[i])
  {
    SplitJoin(texts, ';');
  }

  /** The chart built from a `data` attribute: one magnitude and one path
      fill per field; fills cycle through the first six palette colours. */
  function NewChart(attr: string, parse: string -> real): (c: Chart)
    ensures |c.data| == |c.fills| == Count(attr, ';') + 1
    ensures c.data == ParseData(attr, parse)
    ensures forall k :: 0 <= k < |c.fills| ==> c.fills[k] == Palette[k % (|Palette| - 1)]
    ensures forall k :: 0 <= k < |c.fills| ==> c.fills[k] != Palette[|Palette| - 1]
    ensures forall k :: 6 <= k < |c.fills| ==> c.fills[k] == c.fills[k - 6]
  {
    var data := ParseData(attr, parse);
    FillsRepeat(|data|);
    Chart(data, seq(|data|, k requires 0 <= k < |data| => FillOf(k)))
  }

  /** The path description of one laid-out sector. */
  function SectorPath(s: Slice, fmt: real -> string): string
  {
    PathString(s.start, LargeArcFlag(s.large), s.end, fmt)
  }

  /** The path descriptions `draw` writes, one per magnitude and in order
      (none for no magnitudes), or the zero-total error: the paths of the
      sectors of `Layout`. */
  function Render(data: seq<real>, trig: Trig, fmt: real -> string): (r: Result<seq<string>>)
    ensures r.Err? <==> |data| > 0 && Sum(data) == 0.0
    ensures r.Ok? ==> |r.value| == |data|
  {
    if |data| == 0 then Ok([])
    else if Sum(data) == 0.0 then Err(ZeroTotal)
    else
      var slices := Slices(data, trig);
      Ok(seq(|slices|, k requires 0 <= k < |slices| => SectorPath(slices[k], fmt)))
  }

  /** With a non-zero total, rendered path `k` is that of `SliceAt`. */
  lemma RenderedPath(data: seq<real>, trig: Trig, fmt: real -> string)
    requires Sum(data) != 0.0
    ensures forall k :: 0 <= k < |data| ==>
              Render(data, trig, fmt).value[k] == SectorPath(SliceAt(data, k, trig), fmt)
  {
  }

  /** The rendered paths are those of the sectors of `Layout`: drawing fails
      exactly when the layout does, and path `k` is the path description of
      slice `k`. */
  lemma RenderFollowsLayout(data: seq<real>, trig: Trig, fmt: real -> string)
    ensures Render(data, trig, fmt).Ok? <==> Layout(data, trig).Ok?
    ensures Render(data, trig, fmt).Ok? ==> forall k :: 0 <= k < |data| ==>
              Render(data, trig, fmt).value[k] == SectorPath(Layout(data, trig).value[k], fmt)
  {
  }

  /** The running sum `draw` starts with, from 0 and left to right. */
  method Total(data: seq<real>) returns (total: real)
    ensures total == Sum(data)
  {
    total := 0.0;
    for k := 0 to |data|
      invariant total == Sum(data[..k])
    {
      PrefixStep(data, k);
      total := total + data[k];
    }
    assert data[..|data|] == data;
  }

  /**
   * The drawing pass: sum the magnitudes, then walk them once, keeping a
   * running angle from 0 and a start point from (1, 0); each slice advances
   * the angle by its share of a full turn, ends at the unit point of the new
   * angle, and hands that end point on as the next slice's start. The result
   * is the closed-form layout: the running angle after `k` slices is the
   * sum of their sweeps, `AccumulatedAngle(data, k)`, which equals
   * `2π · (data[0] + … + data[k-1]) / total`.
   */
  method Draw(data: seq<real>, trig: Trig, fmt: real -> string) returns (r: Result<seq<string>>)
    ensures r == Render(data, trig, fmt)
  {
    var total := Total(data);
    if total == 0.0 {
      return if |data| == 0 then Ok([]) else Err(ZeroTotal);
    }
    var angle := 0.0;
    var start := StartPoint;
    var paths: seq<string> := [];
    for k := 0 to |data|
      invariant |paths| == k
      invariant angle == AccumulatedAngle(data, k)
      invariant start == if k == 0 then StartPoint else FromAngle(angle, trig)
      invariant forall i :: 0 <= i < k ==> paths[i] == SectorPath(SliceAt(data, i, trig), fmt)
    {
      var ratio := data[k] / total;
      AccumulatedSlice(data, k, trig);
      angle := angle + ratio * 2.0 * Pi;
      var end := FromAngle(angle, trig);
      var largeFlag := if ratio > 0.5 then "1" else "0";
      ghost var slice := SliceAt(data, k, trig);
      assert slice.start == start && slice.end == end;
      assert LargeArcFlag(slice.large) == largeFlag;
      var d := PathString(start, largeFlag, end, fmt);
      assert d == SectorPath(slice, fmt);
      paths := paths + [d];
      start := end;
    }
    RenderedPath(data, trig, fmt);
    assert paths == Render(data, trig, fmt).value;
    r := Ok(paths);
  }

  /** Every number the host's formatter writes is a single path token. */
  ghost predicate TokenFormatter(fmt: real -> string)
  {
    forall x :: IsToken(fmt(x))
  }

  /** Rendered path `k` reads back as seventeen tokens: the start point of
      slice `k` at positions 4 and 5, its flag at 10, its end point at 12 and
      13. */
  lemma RenderedPathFields(data: seq<real>, trig: Trig, fmt: real -> string, k: nat)
    requires TokenFormatter(fmt) && Sum(data) != 0.0 && k < |data|
    ensures |Split(Render(data, trig, fmt).value[k], ' ')| == 17
    ensures Split(Render(data, trig, fmt).value[k], ' ')[4..6]
            == [fmt(SliceAt(data, k, trig).start.x), fmt(SliceAt(data, k, trig).start.y)]
    ensures Split(Render(data, trig, fmt).value[k], ' ')[10] == LargeArcFlag(SliceAt(data, k, trig).large)
    ensures Split(Render(data, trig, fmt).value[k], ' ')[12..14]
            == [fmt(SliceAt(data, k, trig).end.x), fmt(SliceAt(data, k, trig).end.y)]
  {
    var s := SliceAt(data, k, trig);
    var f := PathFields(s.start, LargeArcFlag(s.large), s.end, fmt);
    RenderedPath(data, trig, fmt);
    PathStringFields(s.start, LargeArcFlag(s.large), s.end, fmt);
    assert f[4..6] == [fmt(s.start.x), fmt(s.start.y)];
    assert f[12..14] == [fmt(s.end.x), fmt(s.end.y)];
  }

  /** Read back token by token, every drawn path has the template's
      seventeen tokens, and its large-arc flag token is "1" exactly when the
      slice's share of the total exceeds one half. */
  lemma RenderedFlags(data: seq<real>, trig: Trig, fmt: real -> string)
    requires TokenFormatter(fmt) && Sum(data) != 0.0
    ensures forall k :: 0 <= k < |data| ==> |Split(Render(data, trig, fmt).value[k], ' ')| == 17
    ensures forall k :: 0 <= k < |data| ==>
              Split(Render(data, trig, fmt).value[k], ' ')[10]
              == if data[k] / Sum(data) > 0.5 then "1" else "0"
  {
    forall k | 0 <= k < |data| {
      RenderedPathFields(data, trig, fmt, k);
    }
  }

  /** Path `k + 1` starts at the coordinates path `k` ends at. */
  lemma PathJoinsNext(data: seq<real>, trig: Trig, fmt: real -> string, k: nat)
    requires TokenFormatter(fmt) && Sum(data) != 0.0 && k + 1 < |data|
    ensures |Split(Render(data, trig, fmt).value[k], ' ')| == 17
    ensures |Split(Render(data, trig, fmt).value[k + 1], ' ')| == 17
    ensures Split(Render(data, trig, fmt).value[k + 1], ' ')[4..6]
            == Split(Render(data, trig, fmt).value[k], ' ')[12..14]
  {
    RenderedPathFields(data, trig, fmt, k);
    RenderedPathFields(data, trig, fmt, k + 1);
  }

  /** The first drawn path starts at the text of the point (1, 0). */
  lemma FirstPathStartsAtAngleZero(data: seq<real>, trig: Trig, fmt: real -> string)
    requires TokenFormatter(fmt) && Sum(data) != 0.0 && |data| > 0
    ensures |Split(Render(data, trig, fmt).value[0], ' ')| == 17
    ensures Split(Render(data, trig, fmt).value[0], ' ')[4..6] == [fmt(1.0), fmt(0.0)]
  {
    RenderedPathFields(data, trig, fmt, 0);
  }
}
