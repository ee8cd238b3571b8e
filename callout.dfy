/**
 * The callout composite mark and its normalisation into a two-layer spec: a
 * `text` label and a `rule` leader line, both placed by pixel offsets computed
 * from one angle and three cumulative lengths.
 */
module Callout {
  import opened Wrappers
  import opened JsNumber

  /** The mark type tag of a callout. */
  const CALLOUT := "callout"

  /** The style tags of the two generated marks. */
  const LabelStyle := "callout-label"
  const RuleStyle := "callout-rule"

  /** The one diagnostic the pass can emit. */
  const MissingTextWarning := "Should have a text encoding in composite mark callout"

  /** The top-level fields taken apart by destructuring; none is passed through. */
  const Destructured: set<string> := {"mark", "selection", "projection", "encoding"}

  /** A channel definition (a field or value definition), kept opaque. */
  datatype Binding = Binding(definition: string)

  /** Any other top-level field of a unit spec, kept opaque. */
  datatype Value = Value(json: string)

  /** An encoding: visual channel name to channel definition. */
  type Encoding = map<string, Binding>

  /**
   * The `mark` of a callout unit spec: the bare tag 'callout', or a callout
   * definition whose four optional numbers override the configured defaults.
   */
  datatype Mark =
    | Bare
    | Def(calloutAngle: Option<real>, calloutOffset: Option<real>,
          calloutLength: Option<real>, labelOffset: Option<real>)

  /**
   * A unit spec whose mark is a callout. `fields` holds every other top-level
   * field (selection, projection, axes, data, ...).
   */
  datatype UnitSpec = UnitSpec(mark: Mark, encoding: Encoding, fields: map<string, Value>)

  /** The `callout` section of the configuration: the four defaults. */
  datatype CalloutConfig =
    CalloutConfig(calloutAngle: real, calloutOffset: real, calloutLength: real, labelOffset: real)

  /** The four resolved parameters. */
  datatype Params = Params(angle: real, offset: real, length: real, labelOffset: real)

  /** A pixel offset `{x, y}`. */
  datatype Point = Point(x: real, y: real)

  /**
   * The two trigonometric magnitudes, as a function of the acute angle and the
   * length: `x = sqrt(length^2 / (1 + tan^2))` and `y = x * tan`.
   */
  type Magnitudes = (real, real) -> Point

  /** The primitive marks of the generated layers. */
  datatype PrimitiveMark =
    | TextMark(style: string, xOffset: real, yOffset: real)
    | RuleMark(style: string, xOffset: real, yOffset: real, x2Offset: real, y2Offset: real)
  {
    /** The primary offset `(xOffset, yOffset)`. */
    function Offset(): Point {
      Point(xOffset, yOffset)
    }
  }

  /** One layer of the result: a mark and its encoding. */
  datatype Layer = Layer(mark: PrimitiveMark, encoding: Encoding)

  /**
   * A layer spec: the passed-through top-level fields and the `layer` list.
   * `outer` never holds a key `layer`, since the list replaces it.
   */
  datatype LayerSpec = LayerSpec(outer: map<string, Value>, layer: seq<Layer>)

  /** The result of the pass (null when it does not apply) and the warnings logged. */
  datatype Normalized = Normalized(spec: Option<LayerSpec>, warnings: seq<string>)

  /** `mark['type']`: the bare string tag has no `type` property. */
  function TypeProperty(m: Mark): Option<string> {
    match m
    case Bare => None
    case Def(_, _, _, _) => Some(CALLOUT)
  }

  /** `isCalloutDef`: the mark's `type` property is truthy. */
  function IsCalloutDef(m: Mark): (r: bool)
    ensures r <==> m.Def?
  {
    TypeProperty(m).Some? && TypeProperty(m).value != ""
  }

  /** `override ? override : default`, with JavaScript truthiness. */
  function Resolve(override: Option<real>, default: real): (r: real)
    ensures Truthy(override) ==> r == override.value
    ensures !Truthy(override) ==> r == default
    ensures r == default || (override.Some? && r == override.value)
  {
    if Truthy(override) then override.value else default
  }

  /** The four effective parameters of a callout definition. */
  function ResolveParams(m: Mark, config: CalloutConfig): (p: Params)
    requires m.Def?
    ensures Truthy(m.calloutAngle) ==> p.angle == m.calloutAngle.value
    ensures !Truthy(m.calloutAngle) ==> p.angle == config.calloutAngle
    ensures Truthy(m.calloutOffset) ==> p.offset == m.calloutOffset.value
    ensures !Truthy(m.calloutOffset) ==> p.offset == config.calloutOffset
    ensures Truthy(m.calloutLength) ==> p.length == m.calloutLength.value
    ensures !Truthy(m.calloutLength) ==> p.length == config.calloutLength
    ensures Truthy(m.labelOffset) ==> p.labelOffset == m.labelOffset.value
    ensures !Truthy(m.labelOffset) ==> p.labelOffset == config.labelOffset
  {
    Params(
      Resolve(m.calloutAngle, config.calloutAngle),
      Resolve(m.calloutOffset, config.calloutOffset),
      Resolve(m.calloutLength, config.calloutLength),
      Resolve(m.labelOffset, config.labelOffset))
  }

  /**
   * `angle % 360`: keeps the sign of `angle` and differs from it by a whole
   * number of turns.
   */
  function ReducedAngle(angle: real): (a: real)
    ensures 0.0 <= angle ==> 0.0 <= a < 360.0
    ensures angle < 0.0 ==> -360.0 < a <= 0.0
    ensures -360.0 < angle < 360.0 ==> a == angle
    ensures exists k: int :: MultiplesApart(angle, a, 360.0, k)
  {
    var a := JsRem(angle, 360.0);
    assert MultiplesApart(angle, a, 360.0, Trunc(angle / 360.0));
    a
  }

  /**
   * `(angle % 360) % 90`, the angle the two magnitudes are taken at: it keeps
   * the sign of the reduced angle and differs from it by whole quarter turns.
   */
  function AcuteAngle(angle: real): (b: real)
    ensures 0.0 <= angle ==> 0.0 <= b < 90.0
    ensures angle < 0.0 ==> -90.0 < b <= 0.0
    ensures exists k: int :: MultiplesApart(ReducedAngle(angle), b, 90.0, k)
  {
    var a := ReducedAngle(angle);
    var b := JsRem(a, 90.0);
    assert MultiplesApart(a, b, 90.0, Trunc(a / 90.0));
    b
  }

  function Abs(v: real): real {
    if v < 0.0 then -v else v
  }

  /**
   * `getCoordinateFromAngleAndLength`: exact points on the four axis angles,
   * and otherwise the two magnitudes with a fixed sign per sector of the
   * reduced angle.
   */
  function CoordinateFromAngleAndLength(angle: real, length: real, mag: Magnitudes): (p: Point)
    ensures ReducedAngle(angle) == 0.0 ==> p == Point(length, 0.0)
    ensures ReducedAngle(angle) == 90.0 ==> p == Point(0.0, -length)
    ensures ReducedAngle(angle) == 180.0 ==> p == Point(-length, 0.0)
    ensures ReducedAngle(angle) == 270.0 ==> p == Point(0.0, length)
    ensures ReducedAngle(angle) !in {0.0, 90.0, 180.0, 270.0} ==>
      Abs(p.x) == Abs(mag(AcuteAngle(angle), length).x) &&
      Abs(p.y) == Abs(mag(AcuteAngle(angle), length).y)
  {
    var a := ReducedAngle(angle);
    var m := mag(AcuteAngle(angle), length);
    if a == 0.0 then Point(length, 0.0)
    else if 0.0 < a < 90.0 then Point(m.x, -m.y)
    else if a == 90.0 then Point(0.0, -length)
    else if 90.0 < a < 180.0 then Point(-m.x, -m.y)
    else if a == 180.0 then Point(-length, 0.0)
    else if 180.0 < a < 270.0 then Point(-m.x, -m.y)
    else if a == 270.0 then Point(0.0, length)
    else Point(m.x, m.y)
  }

  /**
   * The rule layer's encoding `{x2: encoding.x, y2: encoding.y, ...rest}`,
   * where `rest` is the encoding without `text`. A missing `x` or `y` leaves
   * `x2` or `y2` unbound.
   */
  function RuleEncoding(enc: Encoding): (r: Encoding)
    ensures "text" !in r
    ensures forall c :: c in enc && c != "text" ==> c in r && r[c] == enc[c]
    ensures "x" in enc && "x2" !in enc ==> "x2" in r && r["x2"] == enc["x"]
    ensures "y" in enc && "y2" !in enc ==> "y2" in r && r["y2"] == enc["y"]
    ensures forall c :: c in r ==>
      (c in enc && c != "text") || (c == "x2" && "x" in enc) || (c == "y2" && "y" in enc)
  {
    var anchor :=
      (if "x" in enc then map["x2" := enc["x"]] else map[]) +
      (if "y" in enc then map["y2" := enc["y"]] else map[]);
    anchor + (enc - {"text"})
  }

  /**
   * The fields of `{...outerSpec, layer}` other than `layer`: every input field
   * except the destructured ones and a `layer` the list replaces.
   */
  function OuterSpec(fields: map<string, Value>): (outer: map<string, Value>)
    ensures forall k :: k in outer <==> k in fields && k !in Destructured && k != "layer"
    ensures forall k :: k in outer ==> outer[k] == fields[k]
  {
    fields - Destructured - {"layer"}
  }

  /** `normalizeCallout`. */
  function NormalizeCallout(spec: UnitSpec, config: CalloutConfig, mag: Magnitudes): (r: Normalized)
    ensures r.spec.None? <==> !IsCalloutDef(spec.mark)
    ensures r.warnings == if spec.mark.Def? && "text" !in spec.encoding then [MissingTextWarning] else []
    ensures r.spec.Some? ==>
      var s := r.spec.value;
      && s.outer == OuterSpec(spec.fields)
      && |s.layer| == 2
      && s.layer[0].mark.TextMark? && s.layer[0].mark.style == LabelStyle
      && s.layer[1].mark.RuleMark? && s.layer[1].mark.style == RuleStyle
      && s.layer[0].encoding == spec.encoding
      && s.layer[1].encoding == RuleEncoding(spec.encoding)
    ensures r.spec.Some? ==>
      var s := r.spec.value;
      var p := ResolveParams(spec.mark, config);
      && s.layer[1].mark.Offset() == CoordinateFromAngleAndLength(p.angle, p.offset, mag)
      && Point(s.layer[1].mark.x2Offset, s.layer[1].mark.y2Offset)
         == CoordinateFromAngleAndLength(p.angle, p.offset + p.length, mag)
      && s.layer[0].mark.Offset()
         == CoordinateFromAngleAndLength(p.angle, p.offset + p.length + p.labelOffset, mag)
  {
    if !IsCalloutDef(spec.mark) then Normalized(None, [])
    else
      var p := ResolveParams(spec.mark, config);
      var ruleStart := CoordinateFromAngleAndLength(p.angle, p.offset, mag);
      var ruleEnd := CoordinateFromAngleAndLength(p.angle, p.offset + p.length, mag);
      var labelPoint := CoordinateFromAngleAndLength(p.angle, p.offset + p.length + p.labelOffset, mag);
      var enc := spec.encoding;
      var warnings := if "text" !in enc then [MissingTextWarning] else [];
      var labelLayer := Layer(TextMark(LabelStyle, labelPoint.x, labelPoint.y), enc);
      var ruleLayer := Layer(RuleMark(RuleStyle, ruleStart.x, ruleStart.y, ruleEnd.x, ruleEnd.y), RuleEncoding(enc));
      Normalized(Some(LayerSpec(OuterSpec(spec.fields), [labelLayer, ruleLayer])), warnings)
  }
}
