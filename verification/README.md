# Smooth rounded rectangles and preload script conversion, in Dafny

This project models two pieces of Electron's native shell.

**`CalculateSmoothRoundRect`** builds the outline of a "smooth" rounded
rectangle, the squircle-style corner used for `-electron-corner-smoothing`.
It takes `(x, y, width, height, smoothness, radius)`. From the smoothness and
the radius it derives five scalar offsets once:

- the edge connecting offset;
- the arc connecting angle;
- the arc connecting vector;
- the arc curve offset;
- the edge curve offset.

It then emits a closed path of 17 commands. Each corner is a cubic
shoulder, a circular arc and a mirrored cubic shoulder. Straight edges join
the corners. The corners are drawn clockwise from the top-left, and each
one applies the same offsets with its own axis swap and sign flip.

**The `PreloadScript` converters** turn a preload script record (id, script
type, file path, deprecated flag) into a script object and back. The script
type is written as `"frame"` or `"service-worker"`.

Modules:

- `Geometry` (`geometry.dfy`): points, axis directions and the path commands
  `MoveTo`, `LineTo`, `CubicTo`, `ArcTo` and `Close`.
- `SmoothRoundRect` (`smooth_round_rect.dfy`) holds two definitions of the
  outline. `CalculateSmoothRoundRect` copies the source's point arithmetic
  corner by corner. `CornerOutline` is built from one corner builder,
  `CornerCurve`, called with four `CornerFrame`s. A frame is a corner's
  position plus the direction the outline travels as it arrives there.
- `SmoothRoundRectProperties` (`smooth_round_rect_properties.dfy`): lemmas
  about the offsets and the outline.
- `PreloadScripts` (`preload_script.dfy`): the record, an abstract script
  value, typed dictionary reads and the four converters.
- `PreloadScriptProperties` (`preload_script_properties.dfy`): the table
  inverses, partial writes and round trips.

Arithmetic is over `real`. The source's `sin`, `cos` and `tan` are passed in
as a `Trig` record of functions, so nothing is assumed about them. The offset
bounds in `ComputeOffsets` and the `Containment` lemma need facts about
them. They take those facts as a hypothesis, `TrigInRange`: the sine and
cosine of the hand-off angle, and the tangent of half of it, lie in [0, 1].

The C++ `FromV8` writes through an out-pointer and returns a flag. The model
takes the record's previous contents and returns a `Conversion(ok, out)`, so
the writes a failed conversion leaves behind are part of the result.

Two facts about the code shape how the outline's ends and its size
assumption are stated:

- The last explicit point is `(x, y + height - edge_connecting_offset)`, the
  end of the bottom-left corner (`electron_smooth_round_rect.cc:158-160`). The
  `close()` at line 165 supplies the left edge back to the start at
  `(x, y + edge_connecting_offset)`, and `StraightEdges` states exactly that.
- The comment at line 28 asks only that the size fits the full corners, so
  `FitsCorners` allows a side exactly twice the edge connecting offset.

## Model

| member | source | states |
|---|---|---|
| SmoothRoundRect.ComputeOffsets | shell/renderer/electron_smooth_round_rect.cc:60-91 | the rounding length is the radius; the edge connecting offset equals the smoothing length and lies in (R, 2R], reaching 2R exactly at smoothness 1; the arc angle lies in (0, PI_DIV_4] and equals PI_DIV_4 exactly at smoothness 1; three times the edge curve offset is the edge connecting offset plus twice the arc curve offset, so it lies between the two; when sin and cos at the hand-off angle, and tan at half of it, lie in [0, 1], both arc vector components and the curve offset from the connecting point lie in [0, R], and the arc curve and edge curve offsets lie in [0, 2R], so every offset vanishes with the radius |
| SmoothRoundRect.ArcConnectingVector | shell/renderer/electron_smooth_round_rect.cc:73-77 | when sin and cos at the hand-off angle lie in [0, 1], both components of the arc connecting vector lie in [0, R] |
| SmoothRoundRect.CurveOffsetFromConnecting | shell/renderer/electron_smooth_round_rect.cc:79-80 | when cos at the hand-off angle and tan at half of it lie in [0, 1], the control point's distance beyond the arc connecting point lies in [0, R] |
| SmoothRoundRect.CalculateSmoothRoundRect | shell/renderer/electron_smooth_round_rect.cc:29-166 | under the debug-checked preconditions the path has 17 commands; it starts at (x, y + edge connecting offset); its last explicit point is (x, y + height - edge connecting offset); every arc has radii (R, R), rotation 0, small size and clockwise winding |
| SmoothRoundRectProperties.SmoothnessGrowsShoulder | shell/renderer/electron_smooth_round_rect.cc:64-71 | with the radius fixed, strictly larger smoothness gives a strictly larger edge connecting offset and arc connecting angle |
| SmoothRoundRectProperties.ConcreteScenario | shell/renderer/electron_smooth_round_rect.cc:60-102 | for (0, 0, 200, 100, 0.6, 20) the rounding length is 20, the smoothing length and edge connecting offset are 32, the arc angle is 0.471238911151885986328125 (0.6 times PI_DIV_4), and the path starts with a move to (0, 32) |
| SmoothRoundRectProperties.CommandSequence | shell/renderer/electron_smooth_round_rect.cc:96-166 | the command kinds are move, then cubic/arc/cubic, then line plus cubic/arc/cubic three times, then close |
| SmoothRoundRectProperties.CommandCounts | shell/renderer/electron_smooth_round_rect.cc:102-165 | the path holds exactly 1 move, 3 lines, 8 cubics, 4 arcs and 1 close |
| SmoothRoundRectProperties.BuilderIsCornerOutline | shell/renderer/electron_smooth_round_rect.cc:96-166 | the four hand-written corners equal one corner builder applied to the four corner frames: every corner uses the same offsets, and only the axis swap and sign flip differ |
| SmoothRoundRectProperties.FramesGoClockwise | shell/renderer/electron_smooth_round_rect.cc:101-148 | visiting the corners in drawing order turns a quarter turn clockwise each time, and each corner is one side length (width, height, width, height) beyond the previous one in the direction of travel |
| SmoothRoundRectProperties.EdgeJoinsCorners | shell/renderer/electron_smooth_round_rect.cc:111-117 | when one corner follows another a quarter turn clockwise and one side length on, the next corner's entry point is straight ahead of this corner's exit, at the side length minus two edge connecting offsets |
| SmoothRoundRectProperties.OutlineEdgesJoinCorners | shell/renderer/electron_smooth_round_rect.cc:101-165 | around the whole outline, each corner's exit leads straight, in the next corner's direction of travel, to that corner's entry, over the side length (width, height, width, height) less two edge connecting offsets |
| SmoothRoundRectProperties.StraightEdges | shell/renderer/electron_smooth_round_rect.cc:111-165 | the three line commands and the closing edge run along y, x + width, y + height and x respectively; when both sides fit two edge connecting offsets, each of them has non-negative length in the clockwise direction |
| SmoothRoundRectProperties.ArcEndpoints | shell/renderer/electron_smooth_round_rect.cc:103-157 | at each corner the arc is a regular arc that starts at the arc connecting vector measured inward from the corner (along the arriving edge, then along the leaving edge) and ends at its component-swapped copy |
| SmoothRoundRectProperties.CornerIsSymmetric | shell/renderer/electron_smooth_round_rect.cc:102-111 | reflecting a corner across its bisector exchanges entry and exit, the two ends of the arc, and the shoulders' control points in reverse order |
| SmoothRoundRectProperties.SquareCornersAreRotations | shell/renderer/electron_smooth_round_rect.cc:99-160 | for a square, a quarter turn about the center maps each corner's entry point and all three of its commands onto the next corner's |
| SmoothRoundRectProperties.Containment | shell/renderer/electron_smooth_round_rect.cc:26-166 | when the sides fit the corners and sin and cos at the hand-off angle, and tan at half of it, lie in [0, 1], every point the path mentions, control points included, lies in [x, x + width] x [y, y + height] |
| PreloadScripts.ScriptTypeToV8 | shell/browser/preload_script.h:36-46 | a script type is written as a string that the read table maps back to the same type |
| PreloadScripts.ScriptTypeFromV8 | shell/browser/preload_script.h:48-58 | a value reads as a script type exactly when it is the string "frame" or "service-worker", and the value is then what writing that type produces |
| PreloadScripts.ToV8 | shell/browser/preload_script.h:63-70 | the written object has exactly the keys filePath, id and type, with no _deprecated key, holding the script's file path, id and a value that reads back as its type |
| PreloadScripts.FromV8 | shell/browser/preload_script.h:72-98 | the read succeeds exactly when the value is an object whose type, filePath and id all read; a non-object leaves the record untouched; on success the three fields hold what was read, and the deprecated flag is the _deprecated value when that reads and otherwise stays as it was |
| PreloadScriptProperties.TypeTablesAreInverse | shell/browser/preload_script.h:40-57 | the read table's keys are exactly "frame" and "service-worker", and the two tables undo each other in both directions |
| PreloadScriptProperties.ScriptTypeRoundTrip | shell/browser/preload_script.h:36-58 | reading back a written script type gives the same type |
| PreloadScriptProperties.TypeNameInjective | shell/browser/preload_script.h:40-44 | distinct script types are written as distinct names |
| PreloadScriptProperties.FailureKeepsEarlierWrites | shell/browser/preload_script.h:75-93 | a failed read has written exactly the fields read before the first failure, in the order type, filePath, id, and changed nothing else |
| PreloadScriptProperties.AbsentDeprecatedKeepsDefault | shell/browser/preload_script.h:94-96 | reading an object whose type, filePath and id read, and that has no _deprecated key, into a default-constructed record succeeds and leaves it not deprecated |
| PreloadScriptProperties.RoundTrip | shell/browser/preload_script.h:63-98 | writing a script and reading it back succeeds and restores id, type and file path, while the deprecated flag stays whatever the target record held |
| PreloadScriptProperties.ReadThenWrite | shell/browser/preload_script.h:63-98 | after a successful read, writing the result reproduces the type, filePath and id entries of the object that was read |
| PreloadScriptProperties.FromV8Idempotent | shell/browser/preload_script.h:72-98 | reading the same value again into the record the first read produced returns the same flag and record |

## Left out

- Floating point: the source computes in single precision. The model uses exact reals, with `PI_DIV_4` as the single-precision value of pi/4 and the 2/3 ratio as an exact 2/3. Rounding is not modelled.
- The values of `sin`, `cos` and `tan` are not modelled. They are caller-supplied functions, and only `TrigInRange` is ever assumed about them.
- How Skia turns `arcTo` into conics, and how it rasterises the path, are not modelled. A path is the list of commands with their arguments.
- Release-build behaviour when a `DCHECK` fails or the size assumption is broken is undefined in the source. The DCHECKs are preconditions (`ValidRequest`), and the size assumption is a hypothesis (`FitsCorners`) of the lemmas that need it.
- SmoothRoundRect.ComputeOffsets: the "path tends to the plain rectangle as the radius goes to 0" property is stated as every offset lying in [0, 2R], not as a limit.
- That the outline never intersects itself is not proved. Proving it would need the geometry of the Bezier curves and arcs, not just their control points.
- `shell/renderer/electron_smooth_round_rect.h` only declares the function, so it has no behaviour to model.
- V8 and gin are abstracted away: isolates, handles, `StringToV8`, `FromV8WithLookup` and `base::FilePath::AsUTF8Unsafe`. A script value is a string, a boolean, an object (a map from key to value) or something else. A file path is its UTF-8 string.
- Typed dictionary reads: a read fails on a missing key. Otherwise it succeeds only when the value has the matching kind. gin's own coercion rules, such as how a non-boolean converts to `bool`, are not part of this model.
- The script type's read table in the source is consulted through `FromV8WithLookup`, which first converts the value to a string. Here only a string value can match.
