/**
 * Properties of the callout pass that relate several calls: how the offset
 * geometry behaves across angles, and how the normalised spec depends on the
 * mark's overrides, the configuration and the encoding.
 */
module CalloutProperties {
  import opened Wrappers
  import opened JsNumber
  import opened Callout

  /** The four axis angles give exact points. */
  lemma AxisAngles(length: real, mag: Magnitudes)
    ensures CoordinateFromAngleAndLength(0.0, length, mag) == Point(length, 0.0)
    ensures CoordinateFromAngleAndLength(90.0, length, mag) == Point(0.0, -length)
    ensures CoordinateFromAngleAndLength(180.0, length, mag) == Point(-length, 0.0)
    ensures CoordinateFromAngleAndLength(270.0, length, mag) == Point(0.0, length)
  {
  }

  /**
   * The contract of `ReducedAngle` fixes its value: a number with the sign
   * range of `angle % 360` that is a whole number of turns away from `angle`
   * is `angle % 360`.
   */
  lemma ReducedAngleUnique(angle: real, a: real, k: int)
    requires 0.0 <= angle ==> 0.0 <= a < 360.0
    requires angle < 0.0 ==> -360.0 < a <= 0.0
    requires MultiplesApart(angle, a, 360.0, k)
    ensures a == ReducedAngle(angle)
  {
    var r := ReducedAngle(angle);
    var j :| MultiplesApart(angle, r, 360.0, j);
    assert -360.0 < a - r < 360.0;
    assert a - r == 360.0 * (j - k) as real;
    assert j - k == 0;
  }

  /** The offset depends on the angle only through `angle % 360`. */
  lemma DependsOnlyOnReducedAngle(angle: real, length: real, mag: Magnitudes)
    ensures CoordinateFromAngleAndLength(angle, length, mag)
         == CoordinateFromAngleAndLength(ReducedAngle(angle), length, mag)
  {
  }

  /**
   * A full turn changes nothing as long as it does not carry the angle across
   * zero: the truncating `%` reduces negative and non-negative angles apart.
   */
  lemma FullTurn(angle: real, length: real, mag: Magnitudes)
    requires 0.0 <= angle || angle <= -360.0
    ensures CoordinateFromAngleAndLength(angle + 360.0, length, mag)
         == CoordinateFromAngleAndLength(angle, length, mag)
  {
    assert (angle + 360.0) / 360.0 == angle / 360.0 + 1.0;
    TruncStep(angle / 360.0);
  }

  /** The magnitudes taken at an angle are both non-negative. */
  predicate NonNegativeAt(angle: real, length: real, mag: Magnitudes) {
    var m := mag(AcuteAngle(angle), length);
    0.0 <= m.x && 0.0 <= m.y
  }

  /**
   * The sign of each component is fixed by the open sector the reduced angle
   * lies in: (+,-) in (0,90), (-,-) in (90,180) and in (180,270), and (+,+)
   * everywhere else off the axes, negative reduced angles included.
   */
  lemma SectorSigns(angle: real, length: real, mag: Magnitudes)
    requires NonNegativeAt(angle, length, mag)
    ensures var a, p := ReducedAngle(angle), CoordinateFromAngleAndLength(angle, length, mag);
      && (0.0 < a < 90.0 ==> 0.0 <= p.x && p.y <= 0.0)
      && (90.0 < a < 180.0 ==> p.x <= 0.0 && p.y <= 0.0)
      && (180.0 < a < 270.0 ==> p.x <= 0.0 && p.y <= 0.0)
      && (270.0 < a || a < 0.0 ==> 0.0 <= p.x && 0.0 <= p.y)
  {
  }

  /**
   * Whenever the two magnitudes satisfy `x^2 + y^2 = length^2`, so does the
   * offset: the dispatch only flips signs or returns an axis point.
   */
  lemma KeepsLength(angle: real, length: real, mag: Magnitudes)
    requires var m := mag(AcuteAngle(angle), length); m.x * m.x + m.y * m.y == length * length
    ensures var p := CoordinateFromAngleAndLength(angle, length, mag);
      p.x * p.x + p.y * p.y == length * length
  {
    // The squares are related through `Abs` so that the proof needs no
    // nonlinear reasoning; without these calls it is unstable across seeds.
    var m := mag(AcuteAngle(angle), length);
    var p := CoordinateFromAngleAndLength(angle, length, mag);
    if ReducedAngle(angle) !in {0.0, 90.0, 180.0, 270.0} {
      SquareOfAbs(p.x);
      SquareOfAbs(p.y);
      SquareOfAbs(m.x);
      SquareOfAbs(m.y);
    } else {
      SquareOfAbs(length);
    }
  }

  /** A square depends only on the absolute value. */
  lemma SquareOfAbs(v: real)
    ensures v * v == Abs(v) * Abs(v)
  {
  }

  /**
   * A negative angle is not wrapped into [0, 360): unless it is a multiple of
   * 360 it bypasses every axis and sector case and takes the last branch.
   */
  lemma NegativeAngleTakesLastBranch(angle: real, length: real, mag: Magnitudes)
    requires angle < 0.0 && ReducedAngle(angle) != 0.0
    ensures CoordinateFromAngleAndLength(angle, length, mag) == mag(AcuteAngle(angle), length)
  {
  }

  /**
   * So -90 and 270 name the same direction yet give different offsets: -90
   * gives the magnitudes at acute angle 0, which for the trigonometry the
   * source uses are `(|length|, 0)`, hence `(length, 0)` when `length >= 0`,
   * while 270 gives `(0, length)`.
   */
  lemma NegativeQuarterTurn(length: real, mag: Magnitudes)
    requires mag(0.0, length) == Point(length, 0.0)
    ensures CoordinateFromAngleAndLength(-90.0, length, mag) == Point(length, 0.0)
    ensures length != 0.0 ==>
      CoordinateFromAngleAndLength(-90.0, length, mag) != CoordinateFromAngleAndLength(270.0, length, mag)
  {
  }

  /** The mark with one override replaced. */
  function WithAngle(m: Mark, o: Option<real>): Mark requires m.Def? { m.(calloutAngle := o) }
  function WithOffset(m: Mark, o: Option<real>): Mark requires m.Def? { m.(calloutOffset := o) }
  function WithLength(m: Mark, o: Option<real>): Mark requires m.Def? { m.(calloutLength := o) }
  function WithLabelOffset(m: Mark, o: Option<real>): Mark requires m.Def? { m.(labelOffset := o) }

  /**
   * The result depends on the mark and the configuration only through the
   * four resolved parameters.
   */
  lemma ParamsDetermineResult(s1: UnitSpec, c1: CalloutConfig, s2: UnitSpec, c2: CalloutConfig, mag: Magnitudes)
    requires s1.mark.Def? && s2.mark.Def?
    requires s1.encoding == s2.encoding && s1.fields == s2.fields
    requires ResolveParams(s1.mark, c1) == ResolveParams(s2.mark, c2)
    ensures NormalizeCallout(s1, c1, mag) == NormalizeCallout(s2, c2, mag)
  {
  }

  /** An explicit `0` override is the same as no override: the default is used. */
  lemma ZeroOverrideIsAbsent(spec: UnitSpec, config: CalloutConfig, mag: Magnitudes)
    requires spec.mark.Def?
    ensures NormalizeCallout(spec.(mark := WithAngle(spec.mark, Some(0.0))), config, mag)
         == NormalizeCallout(spec.(mark := WithAngle(spec.mark, None)), config, mag)
    ensures NormalizeCallout(spec.(mark := WithOffset(spec.mark, Some(0.0))), config, mag)
         == NormalizeCallout(spec.(mark := WithOffset(spec.mark, None)), config, mag)
    ensures NormalizeCallout(spec.(mark := WithLength(spec.mark, Some(0.0))), config, mag)
         == NormalizeCallout(spec.(mark := WithLength(spec.mark, None)), config, mag)
    ensures NormalizeCallout(spec.(mark := WithLabelOffset(spec.mark, Some(0.0))), config, mag)
         == NormalizeCallout(spec.(mark := WithLabelOffset(spec.mark, None)), config, mag)
  {
    var m := spec.mark;
    ParamsDetermineResult(spec.(mark := WithAngle(m, Some(0.0))), config,
                          spec.(mark := WithAngle(m, None)), config, mag);
    ParamsDetermineResult(spec.(mark := WithOffset(m, Some(0.0))), config,
                          spec.(mark := WithOffset(m, None)), config, mag);
    ParamsDetermineResult(spec.(mark := WithLength(m, Some(0.0))), config,
                          spec.(mark := WithLength(m, None)), config, mag);
    ParamsDetermineResult(spec.(mark := WithLabelOffset(m, Some(0.0))), config,
                          spec.(mark := WithLabelOffset(m, None)), config, mag);
  }

  /** With all four overrides truthy the configuration is never consulted. */
  lemma OverridesIgnoreConfig(spec: UnitSpec, c1: CalloutConfig, c2: CalloutConfig, mag: Magnitudes)
    requires spec.mark.Def?
    requires Truthy(spec.mark.calloutAngle) && Truthy(spec.mark.calloutOffset)
    requires Truthy(spec.mark.calloutLength) && Truthy(spec.mark.labelOffset)
    ensures NormalizeCallout(spec, c1, mag) == NormalizeCallout(spec, c2, mag)
  {
    ParamsDetermineResult(spec, c1, spec, c2, mag);
  }

  /**
   * The `text` binding reaches the label layer only: removing it changes
   * neither the rule layer nor the passed-through fields, and only adds the
   * warning.
   */
  lemma TextOnlyReachesLabel(spec: UnitSpec, config: CalloutConfig, mag: Magnitudes)
    requires spec.mark.Def? && "text" in spec.encoding
    ensures var with, without :=
        NormalizeCallout(spec, config, mag),
        NormalizeCallout(spec.(encoding := spec.encoding - {"text"}), config, mag);
      && with.spec.Some? && without.spec.Some?
      && with.spec.value.outer == without.spec.value.outer
      && with.spec.value.layer[1] == without.spec.value.layer[1]
      && with.spec.value.layer[0].mark == without.spec.value.layer[0].mark
      && "text" in with.spec.value.layer[0].encoding
      && "text" !in without.spec.value.layer[0].encoding
      && with.warnings == [] && without.warnings == [MissingTextWarning]
  {
    var enc := spec.encoding;
    var spec' := spec.(encoding := enc - {"text"});
    assert spec'.mark == spec.mark && spec'.fields == spec.fields;
    assert RuleEncoding(enc) == RuleEncoding(enc - {"text"}) by {
      assert (enc - {"text"}) - {"text"} == enc - {"text"};
    }
    var with, without := NormalizeCallout(spec, config, mag), NormalizeCallout(spec', config, mag);
    assert with.spec.value.layer[1].encoding == without.spec.value.layer[1].encoding;
    assert with.spec.value.layer[1].mark == without.spec.value.layer[1].mark;
    assert with.spec.value.layer[0].mark == without.spec.value.layer[0].mark;
  }

  /** Without a label gap the label sits exactly at the end of the rule. */
  lemma NoGapLabelAtRuleEnd(spec: UnitSpec, config: CalloutConfig, mag: Magnitudes)
    requires spec.mark.Def? && !Truthy(spec.mark.labelOffset) && config.labelOffset == 0.0
    ensures var s := NormalizeCallout(spec, config, mag).spec.value;
      s.layer[0].mark.Offset() == Point(s.layer[1].mark.x2Offset, s.layer[1].mark.y2Offset)
  {
  }

  /**
   * A worked example: angle override 0 (falsy, so the default 0 is used),
   * offset 5, length 20, label gap 3, defaults all zero, and channels x, y
   * and text. The rule runs from (5, 0) to (25, 0), the label sits at (28, 0),
   * the rule is anchored at the data point, and nothing is logged.
   */
  lemma WorkedExample(mag: Magnitudes)
    ensures
      var a, b, c := Binding("a"), Binding("b"), Binding("c");
      var spec := UnitSpec(Def(Some(0.0), Some(5.0), Some(20.0), Some(3.0)),
                           map["x" := a, "y" := b, "text" := c], map[]);
      var r := NormalizeCallout(spec, CalloutConfig(0.0, 0.0, 0.0, 0.0), mag);
      && r.warnings == []
      && r.spec == Some(LayerSpec(map[], [
           Layer(TextMark(LabelStyle, 28.0, 0.0), map["x" := a, "y" := b, "text" := c]),
           Layer(RuleMark(RuleStyle, 5.0, 0.0, 25.0, 0.0),
                 map["x2" := a, "y2" := b, "x" := a, "y" := b])]))
  {
    var a, b, c := Binding("a"), Binding("b"), Binding("c");
    var enc := map["x" := a, "y" := b, "text" := c];
    assert RuleEncoding(enc) == map["x2" := a, "y2" := b, "x" := a, "y" := b];
    var noFields: map<string, Value> := map[];
    assert OuterSpec(noFields) == map[];
  }
}
