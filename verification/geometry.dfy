/**
 * The `Point` value type of the chart: a point of the plane, built either
 * from explicit coordinates or as the unit-circle point at an angle, and
 * rendered as the two space-separated numbers a path command embeds.
 *
 * Cosine, sine and the number-to-text conversion are foreign to the model:
 * they are passed in as plain functions (`Trig`, `fmt`), so every result
 * below holds whatever those functions compute.
 */
module Geometry {
  import opened Text

  /** `Math.PI` written as a decimal. The statements need only that it is
      positive; the proofs use the numeral, which keeps `2π·a/t` linear. */
  const Pi: real := 3.141592653589793

  datatype Point = Point(x: real, y: real)

  /** The trigonometric functions the host supplies (`Math.cos`, `Math.sin`). */
  datatype Trig = Trig(cos: real -> real, sin: real -> real)

  /** The first boundary of the first sector, angle 0 on the unit circle. */
  const StartPoint: Point := Point(1.0, 0.0)

  /** The unit-circle point at `angle` radians. */
  function FromAngle(angle: real, trig: Trig): Point
  {
    Point(trig.cos(angle), trig.sin(angle))
  }

  /** A number's text is one path token: non-empty and free of spaces. */
  predicate IsToken(s: string)
  {
    |s| > 0 && ' ' !in s
  }

  /** The point as "x y", each coordinate converted to text by `fmt`. */
  function ToSVGPath(p: Point, fmt: real -> string): string
  {
    fmt(p.x) + " " + fmt(p.y)
  }

  /** The rendered point reads back as exactly its two coordinates. */
  lemma ToSVGPathFields(p: Point, fmt: real -> string)
    requires IsToken(fmt(p.x)) && IsToken(fmt(p.y))
    ensures Split(ToSVGPath(p, fmt), ' ') == [fmt(p.x), fmt(p.y)]
  {
    SplitConcat(fmt(p.x), fmt(p.y), ' ');
    SplitField(fmt(p.x), ' ');
    SplitField(fmt(p.y), ' ');
  }
}
