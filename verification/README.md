# Pie chart sector layout, in Dafny

This project models the `<pie-chart>` custom element of `app.js`. The element
reads a `;`-separated `data` attribute. It creates one filled SVG `path` per
magnitude, coloured from a fixed seven-entry palette. Its `draw` pass then
turns the magnitudes into consecutive circular sectors of the unit circle.

The `draw` pass sums the magnitudes. It then walks them once, keeping a
running angle that starts at 0 and a start point that starts at (1, 0). For
each slice it:

- takes the share `ratio = data[k] / total`;
- advances the angle by `ratio · 2 · π`;
- ends at the unit point of the new angle;
- sets the large-arc flag to "1" exactly when `ratio > 0.5`;
- writes the path `M 0 0 L <start> A 1 1 0 <flag> 1 <end> L 0 0`;
- passes its end point on as the next slice's start.

The arc command and its flags are those of section 8.3.8 of SVG 1.1.

The modules follow the structure of the program:

- `Text` (text.dfy) models `String.prototype.split` on a one-character
  separator, plus its inverse `Join`.
- `Geometry` (geometry.dfy) models the `Point` class: `fromAngle` and
  `toSVGPath`.
- `Sectors` (sectors.dfy) is the closed-form sector layout. Slice `k` spans
  from `2π·(data[0]+…+data[k-1])/total` to `2π·(data[0]+…+data[k])/total`.
  The layout returns the error `ZeroTotal` when there are magnitudes and
  they add up to zero. No magnitudes at all give no slices.
- `SvgPath` (path.dfy) builds the path description template of one sector.
- `PieChart` (piechart.dfy) holds:
  - the palette and the colour rule;
  - the parsing of the `data` attribute;
  - the imperative `Draw` loop, which accumulates the angle additively and
    is proved to produce exactly the paths of the closed-form layout.

Numbers are Dafny `real`s. Cosine and sine are a `Trig` value the host
supplies. Number-to-text conversion is a `fmt` function, and `parseFloat` is
a `parse` function. Every result holds whatever those functions compute. The
only properties assumed of them are the ones named in a lemma's `requires`:
numbers format as space-free tokens, or cos 0 = 1 and sin 0 = 0.

## Model

| member | source | states |
|---|---|---|
| Text.Split | app.js:38-40 | splitting the `data` attribute on `;` gives exactly one more field than there are `;` characters, and no field contains `;` |
| Text.JoinSplit | app.js:38-40 | the split fields, rejoined with the separator, give back the original attribute text: fields keep source order and nothing is lost |
| Text.SplitJoin | app.js:38-40 | separator-free fields joined with the separator split back into exactly those fields |
| Geometry.ToSVGPathFields | app.js:11-13 | a point renders as two space-separated tokens: its x text, then its y text |
| SvgPath.PathStringIsJoin | app.js:74 | the path template is the 17 fields `M 0 0 L sx sy A 1 1 0 flag 1 ex ey L 0 0`, separated by single spaces |
| SvgPath.PathStringFields | app.js:74 | read back token by token, a path description gives the start point, the flag and the end point at the positions the arc command defines |
| Sectors.Layout | app.js:63-78 | the layout fails exactly when there are magnitudes and their total is 0. Otherwise: one slice per magnitude; slice `k` has the share `data[k] / total` and runs from the angle `2π·(data[0]+…+data[k-1])/total` to `2π·(data[0]+…+data[k])/total`; slice 0 starts at angle 0 on (1, 0); each slice starts at the angle and point where the previous one ends; each spans 2π times its share; the flag is set exactly on spans over half a turn; the last slice ends at 2π; every end point, and every start point after the first, is the unit point of its boundary angle |
| Sectors.SlicesChain | app.js:65-76 | the slices form a chain around the circle: the first starts at angle 0 on (1, 0), each starts at the angle and point where the previous one ends, and the last ends at 2π |
| Sectors.SliceSpan | app.js:68-71 | slice `k` sweeps `2π · ratio`, and its large-arc flag holds exactly when that sweep exceeds π |
| Sectors.RatiosSumToOne | app.js:64-68 | with a non-zero total, the shares of all slices add up to exactly 1 |
| Sectors.RatioBounds | app.js:64-68 | with non-negative magnitudes, every share lies in [0, 1] |
| Sectors.AnglesWithinTurn | app.js:65-69 | with non-negative magnitudes, boundary angles never decrease and stay within [0, 2π] |
| Sectors.AtMostOneLargeArc | app.js:71 | with non-negative magnitudes, at most one slice carries the large-arc flag |
| Sectors.AccumulatedAngleIsPrefixShare | app.js:65-69 | adding the sweeps `ratio · 2 · π` one at a time from 0 gives `2π·(data[0]+…+data[k-1])/total` after `k` slices, and exactly 2π after the last |
| Sectors.BoundariesAtTheirAngles | app.js:66-70 | if cos 0 = 1 and sin 0 = 0, every slice's start and end points are the unit points of its start and end angles; in particular the fixed start point (1, 0) is the point of angle 0 |
| Sectors.AccumulatedSlice | app.js:66-71 | slice `k` starts at the point of the running angle after `k` sweeps (at (1, 0) for the first), ends at the point of the running angle after `k + 1` sweeps, and takes the large arc exactly when `data[k] / total > 0.5` |
| Sectors.ThreeToOneFlags | app.js:68-71 | for magnitudes 3 and 1, slice 0 takes the large arc and slice 1 does not |
| Sectors.EqualQuarters | app.js:68-69 | for any four equal non-zero magnitudes `a, a, a, a`, every slice sweeps π/2 |
| Sectors.ZeroThenFive | app.js:64-71 | for magnitudes 0 and 5, slice 0 is degenerate at angle 0, and slice 1 sweeps the full turn with the large-arc flag |
| PieChart.ColorIndex | app.js:47 | the palette index `k mod 6` lies in [0, 5], so the seventh colour is never chosen, and the first six slices get their own index |
| PieChart.FillOf | app.js:28-47 | a slice's fill is one of the first six palette colours, never `#AB6D23` |
| PieChart.FillCycle | app.js:47 | fills repeat every six slices, and slice 6 gets the first colour |
| PieChart.ParseData | app.js:38-40 | the attribute yields one magnitude per `;`-separated field |
| PieChart.ParseJoinedData | app.js:38-40 | an attribute written as `;`-separated texts parses to those texts' values, one each and in order |
| PieChart.NewChart | app.js:38-55 | construction makes one magnitude and one path fill per field. The magnitudes are the parsed fields in order, path `k` gets palette colour `k mod 6`, no fill is the last palette colour, and fills repeat with period six |
| PieChart.Render | app.js:63-78 | drawing fails exactly when there are magnitudes and their total is 0; otherwise it writes one path description per magnitude, none for no magnitudes |
| PieChart.RenderFollowsLayout | app.js:63-78 | drawing fails exactly when the layout does, and drawn path `k` is the path description of layout slice `k` |
| PieChart.Total | app.js:64 | the running sum from 0 equals the left-to-right sum of the magnitudes |
| PieChart.Draw | app.js:63-78 | the loop, whose running angle is the sum of the sweeps so far (`AccumulatedAngle`) and whose start point is the previous end point, writes exactly the paths of the closed-form layout, or fails with the zero-total error |
| PieChart.RenderedPathFields | app.js:70-75 | drawn path `k` has 17 tokens: slice `k`'s start point at positions 4-5, its flag at 10 and its end point at 12-13 |
| PieChart.RenderedFlags | app.js:68-74 | in every drawn path, the flag token is "1" exactly when `data[k] / total > 0.5` |
| PieChart.PathJoinsNext | app.js:70-76 | the start point written in path `k + 1` is the end point written in path `k` |
| PieChart.FirstPathStartsAtAngleZero | app.js:66-74 | the first path starts at the text of the point (1, 0) |

## Left out

- DOM and component plumbing are browser side effects with no behaviour to
  state. This covers `stringToDom`, `attachShadow`, `createElementNS`,
  `setAttribute`, `appendChild`, `connectedCallback` and
  `customElements.define` (app.js:1-4, 27, 42, 48-56, 59-61, 81). The model
  returns the fills and the path descriptions instead of writing them into
  elements.
- `parseFloat` (app.js:40) is a foreign conversion from decimal text. It is
  the parameter `parse`, and only the `;` split is modelled. A missing
  `data` attribute makes `getAttribute` return null and the constructor
  throw; the model takes the attribute as a string.
- `Math.cos`, `Math.sin` and JavaScript's number-to-text conversion are
  foreign. They are the parameters `trig` and `fmt`.
- `Math.PI` is the decimal 3.141592653589793. The statements need only
  π > 0. The proofs use its decimal value, which keeps terms such as
  `2π·a/t` linear for the solver.
- IEEE double rounding is not modelled. Arithmetic is exact over the reals,
  so the accumulated angle reaches exactly 2π. In the running program it
  may fall short of 2π by rounding error.
- Geometry.ToSVGPathFields: holds only for formatters whose outputs are
  non-empty and space-free. JavaScript number text always is, but the model
  does not prove that.
- SvgPath.PathStringFields, PieChart.RenderedPathFields,
  PieChart.RenderedFlags, PieChart.PathJoinsNext and
  PieChart.FirstPathStartsAtAngleZero: same formatter assumption as above.
- Sectors.RatioBounds, Sectors.AnglesWithinTurn and
  Sectors.AtMostOneLargeArc: stated only for non-negative magnitudes. The
  code accepts negative ones and then these properties can fail.
- Sectors.BoundariesAtTheirAngles: holds only when the supplied cosine and
  sine give the point (1, 0) at angle 0.
- Magnitudes that add up to zero (app.js:64, 68) are reported as the error
  `ZeroTotal`, because exact reals have no `NaN` or infinities. The code
  divides by the zero total instead. When every magnitude is 0, each ratio
  is `NaN` and the paths hold `NaN` coordinates. When the magnitudes are
  non-zero but cancel, as in `1;-1`, the ratios are ±Infinity and slice 0
  gets the flag "1"; the model does not describe those paths.
- No magnitudes at all give an empty layout and no paths, as the code's
  loop does not run. The constructor never produces this case, since
  splitting any attribute yields at least one field (Text.Split).
- `parseFloat` gives `NaN` for an empty or non-numeric field, such as the
  trailing empty field of `3;1;`. The parameter `parse` returns a real, so
  `NaN` magnitudes and the `NaN` total and paths they cause are not
  modelled.
