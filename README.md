# Callout composite mark normalisation

This project models the normalisation pass for the `callout` composite mark of
a declarative visualisation grammar, and proves properties of that model. A callout is an annotation: a text
label joined to a data point by a leader line. The pass `normalizeCallout`
rewrites a unit spec whose mark is a callout definition into a layer spec with
exactly two layers. The first is a `text` mark styled `callout-label`. The
second is a `rule` mark styled `callout-rule`. Both are placed by pixel offsets
from the data point.

The pass works in four steps:

- Each of four numbers (`calloutAngle`, `calloutOffset`, `calloutLength`,
  `labelOffset`) is resolved as "the mark's override if truthy, otherwise the
  `callout` configuration default". An explicit `0` therefore falls back to the default.
- Three offset points come from the one resolved angle and three cumulative
  lengths: the rule start (`offset`), the rule end (`offset + length`) and the
  label (`offset + length + labelOffset`).
- The encoding is split around `text`. The label keeps the whole encoding. The
  rule gets `x2`/`y2` bound to the input `x`/`y`, then every other channel except
  `text`; an input `x2`/`y2` wins because it is spread afterwards.
- One warning is logged when there is no `text` channel. The two-layer spec is
  still returned.

A bare `'callout'` tag (a mark with no `type` property) makes the pass return null.

`getCoordinateFromAngleAndLength` reduces the angle with JavaScript's `%`,
which truncates toward zero. It returns exact points on the four axis angles and
otherwise the two trigonometric magnitudes as its components, each with a sign
fixed by the sector.
The model follows this code as written. A negative angle stays negative after
`% 360`. Unless it is a multiple of 360, it then skips every axis and sector
test and takes the last branch. A negative multiple of 360 reduces to `-0`,
which equals `0`, so it takes the first branch. The sector signs do
not all match the usual `(length·cos a, −length·sin a)` direction: the
(180, 270) sector returns a negative `y`.

Modules:

- `Wrappers` (`wrappers.dfy`): `Option`.
- `JsNumber` (`js_number.dfy`): JavaScript's truncating `%` on exact reals and
  the truthiness of an optional number. `JsRem` is defined for any positive
  divisor. Its bounds are proved for the two divisors the source uses, in
  `Callout.ReducedAngle` (360) and `Callout.AcuteAngle` (90).
- `Callout` (`callout.dfy`): the data model and the operations of
  `src/compositemark/callout.ts`.
- `CalloutProperties` (`callout_properties.dfy`): lemmas relating several calls.

In the model:

- The mark is `Bare | Def(...)` with four `Option<real>` overrides.
- The configuration is its `callout` section, four reals.
- An encoding is a `map<string, Binding>`.
- The other top-level fields are a `map<string, Value>`.
- The result is a `Normalized` value: the `Option<LayerSpec>` the source
  returns, and the list of warnings it would log.
- The trigonometric magnitudes `x` and `y` of lines 112-113 are a parameter
  `mag`, a function of the acute angle and the length.

The model follows the code as written, which means:

- The code uses the quadrant dispatch, not a direct cos/sin formula.
- The code does not normalise negative angles into [0, 360).
- The code does not drop the `size` channel from the rule layer.
- The style tags are hyphenated.

## Model

| member | source | states |
|---|---|---|
| `Callout.IsCalloutDef` | src/compositemark/callout.ts:21-23 | a mark is a callout definition exactly when it is not the bare tag (the tag string has no truthy `type` property) |
| `Callout.Resolve` | src/compositemark/callout.ts:57-60 | the result is the override when it is present and non-zero, and otherwise the default; it is always one of the two |
| `Callout.ResolveParams` | src/compositemark/callout.ts:57-60 | each of the four parameters is the mark's truthy override or else the `config.callout` default, independently |
| `Callout.ReducedAngle` | src/compositemark/callout.ts:108 | `angle % 360` lies in [0, 360) for a non-negative angle and in (-360, 0] for a negative one, differs from the angle by a whole number of turns, and is the angle itself inside (-360, 360) |
| `Callout.AcuteAngle` | src/compositemark/callout.ts:109 | the acute angle lies in [0, 90) for a non-negative angle and in (-90, 0] for a negative one, and differs from `angle % 360` by a whole number of quarter turns |
| `Callout.CoordinateFromAngleAndLength` | src/compositemark/callout.ts:105-131 | reduced angles 0, 90, 180 and 270 give `(length, 0)`, `(0, -length)`, `(-length, 0)` and `(0, length)`; any other reduced angle gives components whose sizes are the two magnitudes |
| `Callout.RuleEncoding` | src/compositemark/callout.ts:66-98 | the rule encoding never binds `text`, keeps every other input channel with its binding, binds `x2`/`y2` to the input `x`/`y` unless the input binds `x2`/`y2`, and binds nothing else |
| `Callout.OuterSpec` | src/compositemark/callout.ts:52-75 | the passed-through fields are exactly the input fields other than `mark`, `selection`, `projection`, `encoding` and the replaced `layer`, with their values unchanged |
| `Callout.NormalizeCallout` | src/compositemark/callout.ts:50-103 | null exactly for a bare mark; one warning exactly when a callout definition has no `text` channel, none otherwise; the spec has the passed-through fields and exactly two layers, label (`text`, `callout-label`, the whole encoding) then rule (`rule`, `callout-rule`, the rule encoding); the rule runs from the offset at `offset` to the offset at `offset + length` and the label sits at `offset + length + labelOffset`, all at the one resolved angle |
| `JsNumber.Trunc` | src/compositemark/callout.ts:108 | truncation toward zero: the integer brackets the value from below when it is non-negative and from above when it is negative |
| `CalloutProperties.ReducedAngleUnique` | src/compositemark/callout.ts:108 | any number with the sign range of `angle % 360` that is a whole number of turns from `angle` equals `angle % 360`, so the contract of `ReducedAngle` determines its value |
| `CalloutProperties.AxisAngles` | src/compositemark/callout.ts:114-127 | angles 0, 90, 180 and 270 give `(length, 0)`, `(0, -length)`, `(-length, 0)` and `(0, length)` |
| `CalloutProperties.DependsOnlyOnReducedAngle` | src/compositemark/callout.ts:108-130 | the offset for `angle` equals the offset for `angle % 360` |
| `CalloutProperties.FullTurn` | src/compositemark/callout.ts:108-130 | adding 360 degrees leaves the offset unchanged for every angle ≥ 0, and for every angle ≤ -360 |
| `CalloutProperties.SectorSigns` | src/compositemark/callout.ts:116-130 | with non-negative magnitudes the signs are (+,−) in (0,90), (−,−) in (90,180) and in (180,270), and (+,+) above 270 and for negative reduced angles |
| `CalloutProperties.KeepsLength` | src/compositemark/callout.ts:112-130 | if the magnitudes satisfy `x² + y² = length²` then the returned offset does too |
| `CalloutProperties.NegativeAngleTakesLastBranch` | src/compositemark/callout.ts:108-130 | a negative angle that is not a multiple of 360 returns the two magnitudes unsigned, from the last branch |
| `CalloutProperties.NegativeQuarterTurn` | src/compositemark/callout.ts:108-130 | -90 gives `(length, 0)` when the magnitudes at acute angle 0 are `(length, 0)`, so for a non-zero length it differs from 270's `(0, length)` |
| `CalloutProperties.ParamsDetermineResult` | src/compositemark/callout.ts:57-103 | two callout specs with the same encoding, the same other fields and the same resolved parameters normalise to the same result |
| `CalloutProperties.ZeroOverrideIsAbsent` | src/compositemark/callout.ts:57-60 | replacing any one of the four overrides by `0` gives the same result as leaving it out |
| `CalloutProperties.OverridesIgnoreConfig` | src/compositemark/callout.ts:57-60 | when all four overrides are truthy the result is the same under every configuration |
| `CalloutProperties.TextOnlyReachesLabel` | src/compositemark/callout.ts:66-98 | removing the `text` binding leaves the passed-through fields, the rule layer and the label mark unchanged, removes `text` from the label encoding only, and adds exactly the one warning |
| `CalloutProperties.NoGapLabelAtRuleEnd` | src/compositemark/callout.ts:60-92 | with no label gap (override falsy, default 0) the label offset equals the rule's end offset |
| `CalloutProperties.WorkedExample` | src/compositemark/callout.ts:50-103 | overrides angle 0, offset 5, length 20, label gap 3 with zero defaults and channels `x`, `y`, `text`: the rule runs (5,0)→(25,0), the label is at (28,0), the rule encoding is `{x2: x, y2: y, x, y}`, and nothing is logged |

## Left out

- The floating-point trigonometry of lines 110-113 (`Math.PI`, `Math.tan`, `Math.sqrt`, `Math.pow`). The two magnitudes are the parameter `mag`, so nothing is claimed about rounding or about their values.
- `CalloutProperties.KeepsLength`: takes `x² + y² = length²` of the magnitudes as a hypothesis instead of proving it, because the trigonometry is not modelled.
- `CalloutProperties.SectorSigns`: takes the non-negativity of the magnitudes as a hypothesis. For a negative angle the source's `y = x * tan` is non-positive, and the lemma then says nothing.
- JavaScript numbers beyond exact reals: NaN, infinities, the sign of `-0`, and the double-precision rounding of the sums `offset + length` and `offset + length + labelOffset` at lines 63-64. Only "absent or 0 falls back to the default" is modelled of number truthiness.
- Configuration defaults that are undefined, and an absent `config.callout` record. With an undefined default the source's results mix `undefined` and NaN: at angle 0, an undefined `calloutOffset` default gives `{x: undefined, y: 0}`. An absent record throws a TypeError at lines 57-60 when any override is falsy; when all four are truthy the record is never read. The `callout` configuration is modelled as four reals.
- The `log.warn` sink. The warning is returned in the `warnings` list.
- The external `Config`, `MarkConfig`, `MarkDef`, `Encoding` and `GenericUnitSpec` types. Channel definitions and other field values are opaque `Binding` and `Value` records.
- A key bound to `undefined`. `x2: encoding.x` with no input `x` is modelled as leaving `x2` unbound.
- A unit spec without an encoding. For a callout definition the destructuring of `encoding` at line 66 throws a TypeError; a bare mark returns null at line 54 before `encoding` is read. In the model the encoding is always a map, possibly empty.
- Falsy channel definitions such as `text: null`. Every `Binding` counts as present.
- The order of the result object's properties, and sharing: the label layer's `encoding` is the input object itself (line 84), while the model copies it as a map value. Maps are unordered values.
- The `callout` and `label` sub-mark fields of the callout definition (lines 17-18), which the pass never reads.
- The constant tables `CALLOUT_STYLES` and `VL_ONLY_CALLOUT_CONFIG_PROPERTY_INDEX` (lines 27 and 44-48), which carry no behaviour.
- Downstream composite-mark dispatch, scale and axis inference, and rendering. These are not part of this model.
