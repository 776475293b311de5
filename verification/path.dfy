/**
 * The path description of one sector: move to the centre, line to the start
 * boundary point, elliptical arc of radius 1 to the end boundary point, line
 * back to the centre. The arc command and its flags are those of section
 * 8.3.8 of SVG 1.1 ("A rx ry x-axis-rotation large-arc-flag sweep-flag x y").
 */
module SvgPath {
  import opened Text
  import opened Geometry

  /** The large-arc-flag token: "1" selects the arc longer than half a turn. */
  function LargeArcFlag(large: bool): string
  {
    if large then "1" else "0"
  }

  /** The `d` attribute of one sector, following the chart's template. */
  function PathString(start: Point, flag: string, end: Point, fmt: real -> string): string
  {
    "M 0 0 L " + ToSVGPath(start, fmt) + " A 1 1 0 " + flag + " 1 " + ToSVGPath(end, fmt) + " L 0 0"
  }

  /** The tokens a path description is made of, in order: the move and line
      to the start point, then the arc with radii 1 1, rotation 0, the
      large-arc flag, sweep flag 1 and the end point, then the closing line. */
  function PathFields(start: Point, flag: string, end: Point, fmt: real -> string): seq<string>
  {
    ["M", "0", "0", "L", fmt(start.x), fmt(start.y),
     "A", "1", "1", "0", flag, "1", fmt(end.x), fmt(end.y),
     "L", "0", "0"]
  }

  /** The template regrouped from the right, as joining builds it. */
  lemma TemplateRegroup(sp: string, flag: string, ep: string)
    ensures "M 0 0 L " + sp + " A 1 1 0 " + flag + " 1 " + ep + " L 0 0"
         == "M 0 0 L" + " " + (sp + " " + (("A 1 1 0" + " " + (flag + " 1")) + " " + (ep + " " + "L 0 0")))
  {
  }

  /** The arc command and the closing line, joined with single spaces. */
  lemma ArcJoin(flag: string, end: Point, fmt: real -> string)
    ensures Join(["A", "1", "1", "0", flag, "1", fmt(end.x), fmt(end.y), "L", "0", "0"], ' ')
         == ("A 1 1 0" + " " + (flag + " 1")) + " " + (ToSVGPath(end, fmt) + " " + "L 0 0")
  {
    var b0: seq<string> := ["A", "1", "1", "0"];
    var f: seq<string> := [flag, "1"];
    var q: seq<string> := [fmt(end.x), fmt(end.y)];
    var c: seq<string> := ["L", "0", "0"];
    assert Join(q + c, ' ') == ToSVGPath(end, fmt) + " " + "L 0 0" by {
      JoinConcat(q, c, ' ');
    }
    assert Join(b0 + f, ' ') == "A 1 1 0" + " " + (flag + " 1") by {
      JoinConcat(b0, f, ' ');
    }
    JoinConcat(b0 + f, q + c, ' ');
    assert ["A", "1", "1", "0", flag, "1", fmt(end.x), fmt(end.y), "L", "0", "0"]
        == (b0 + f) + (q + c);
  }

  /** The path description is its fields separated by single spaces. */
  lemma PathStringIsJoin(start: Point, flag: string, end: Point, fmt: real -> string)
    ensures PathString(start, flag, end, fmt) == Join(PathFields(start, flag, end, fmt), ' ')
  {
    var a: seq<string> := ["M", "0", "0", "L"];
    var p: seq<string> := [fmt(start.x), fmt(start.y)];
    var t: seq<string> := ["A", "1", "1", "0", flag, "1", fmt(end.x), fmt(end.y), "L", "0", "0"];
    var sp, ep := ToSVGPath(start, fmt), ToSVGPath(end, fmt);
    ArcJoin(flag, end, fmt);
    assert Join(p + t, ' ') == sp + " " + Join(t, ' ') by {
      JoinConcat(p, t, ' ');
    }
    assert Join(a + (p + t), ' ') == "M 0 0 L" + " " + Join(p + t, ' ') by {
      JoinConcat(a, p + t, ' ');
    }
    assert PathFields(start, flag, end, fmt) == a + (p + t);
    TemplateRegroup(sp, flag, ep);
  }

  /**
   * Read back token by token, a path description yields exactly the template's
   * fields, provided the numbers and the flag are single tokens: the start point,
   * the flag and the end point sit where the arc command expects them.
   */
  lemma PathStringFields(start: Point, flag: string, end: Point, fmt: real -> string)
    requires IsToken(fmt(start.x)) && IsToken(fmt(start.y))
    requires IsToken(fmt(end.x)) && IsToken(fmt(end.y))
    requires IsToken(flag)
    ensures Split(PathString(start, flag, end, fmt), ' ') == PathFields(start, flag, end, fmt)
  {
    PathStringIsJoin(start, flag, end, fmt);
    SplitJoin(PathFields(start, flag, end, fmt), ' ');
  }
}
