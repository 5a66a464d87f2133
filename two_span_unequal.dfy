/** The two-span analyzer: spans L1 and L2, continuous over a middle support, under
    a uniform load w (js/beam-analysis.js, BeamAnalysis.analyzer.twoSpanUnequal).
    Positions x ≤ L1 use the first-span formulas in x; positions beyond L1 use the
    second-span formulas in x2 = x − L1. The formulas are modelled exactly as the
    code writes them. */
module TwoSpanUnequal {
  import opened Wrappers
  import opened Beams
  import SimplySupported

  /** L1 in millimetres. */
  function FirstSpan(beam: Beam): real {
    beam.primarySpan * 1000.0
  }

  /** L2 in millimetres; the analyzer has no default for an absent secondary span. */
  function SecondSpan(beam: Beam): real
    requires beam.secondarySpan.Some?
  {
    beam.secondarySpan.value * 1000.0
  }

  /** The whole beam, L1 + L2, in millimetres. */
  function Span(beam: Beam): real
    requires beam.secondarySpan.Some?
  {
    FirstSpan(beam) + SecondSpan(beam)
  }

  predicate InDomain(beam: Beam, x: real)
    requires beam.secondarySpan.Some?
  {
    0.0 <= x <= Span(beam)
  }

  /** Moment and shear divide by 2·(L1 + L2) at positions on the beam. */
  predicate Defined(beam: Beam, x: real) {
    beam.secondarySpan.Some? && (InDomain(beam, x) ==> Span(beam) != 0.0)
  }

  /** Deflection additionally divides by EI at positions on the beam. */
  predicate DeflectionDefined(beam: Beam, x: real) {
    Defined(beam, x) && (InDomain(beam, x) ==> beam.material.properties.EI != 0.0)
  }

  /** The correction moment at the middle support, M = w·L1·L2 / (2·(L1 + L2)). */
  function CorrectionMoment(w: real, l1: real, l2: real): real
    requires l1 + l2 != 0.0
  {
    (w * l1 * l2) / (2.0 * (l1 + l2))
  }

  /** R1 = w·L1·(2·L1 + L2) / (2·(L1 + L2)). */
  function LeftReaction(w: real, l1: real, l2: real): real
    requires l1 + l2 != 0.0
  {
    (w * l1 * (2.0 * l1 + l2)) / (2.0 * (l1 + l2))
  }

  /** R2 = w·L2·(L1 + 2·L2) / (2·(L1 + L2)). */
  function RightReaction(w: real, l1: real, l2: real): real
    requires l1 + l2 != 0.0
  {
    (w * l2 * (l1 + 2.0 * l2)) / (2.0 * (l1 + l2))
  }

  /** The deflection formula shared by both spans, in the local coordinate t of a span of length l. */
  function SpanDeflection(w: real, EI: real, l: real, M: real, t: real): real
    requires EI != 0.0
  {
    (w * t / (24.0 * EI)) * (l * l * l - 2.0 * l * (t * t) + t * t * t) - (M * (t * t)) / (2.0 * EI)
  }

  /** Deflection, unscaled. */
  function Deflection(beam: Beam, load: real, x: real): (p: Point)
    requires DeflectionDefined(beam, x)
    ensures p.x == Position(x)
    ensures !InDomain(beam, x) ==> p.y == 0.0
    ensures x == 0.0 && beam.primarySpan >= 0.0 ==> p.y == 0.0
  {
    var L1, L2 := FirstSpan(beam), SecondSpan(beam);
    var EI := beam.material.properties.EI;
    var w := NormalizeLoad(load);
    if x < 0.0 || x > L1 + L2 then Point(Position(x), 0.0)
    else if x <= L1 then
      var M := CorrectionMoment(w, L1, L2);
      Point(Position(x), SpanDeflection(w, EI, L1, M, x))
    else
      var x2 := x - L1;
      var M := CorrectionMoment(w, L1, L2);
      Point(Position(x), SpanDeflection(w, EI, L2, M, x2))
  }

  /** Bending moment R·t − w·t²/2 in each span, reported in kN·m. */
  function BendingMoment(beam: Beam, load: real, x: real): (p: Point)
    requires Defined(beam, x)
    ensures p.x == Position(x)
    ensures !InDomain(beam, x) ==> p.y == 0.0
    ensures x == 0.0 && beam.primarySpan >= 0.0 ==> p.y == 0.0
  {
    var L1, L2 := FirstSpan(beam), SecondSpan(beam);
    var w := NormalizeLoad(load);
    if x < 0.0 || x > L1 + L2 then Point(Position(x), 0.0)
    else if x <= L1 then
      var R1 := LeftReaction(w, L1, L2);
      Point(Position(x), (R1 * x - (w * x * x) / 2.0) / 1000000.0)
    else
      var x2 := x - L1;
      var R2 := RightReaction(w, L1, L2);
      Point(Position(x), (R2 * x2 - (w * x2 * x2) / 2.0) / 1000000.0)
  }

  /** Shear force R − w·t in each span, reported in kN. */
  function ShearForce(beam: Beam, load: real, x: real): (p: Point)
    requires Defined(beam, x)
    ensures p.x == Position(x)
    ensures !InDomain(beam, x) ==> p.y == 0.0
    ensures x == 0.0 && InDomain(beam, x) && beam.primarySpan >= 0.0
      ==> p.y == LeftReaction(load, FirstSpan(beam), SecondSpan(beam)) / 1000.0
  {
    var L1, L2 := FirstSpan(beam), SecondSpan(beam);
    var w := NormalizeLoad(load);
    if x < 0.0 || x > L1 + L2 then Point(Position(x), 0.0)
    else if x <= L1 then
      var R1 := LeftReaction(w, L1, L2);
      Point(Position(x), (R1 - w * x) / 1000.0)
    else
      var x2 := x - L1;
      var R2 := RightReaction(w, L1, L2);
      Point(Position(x), (R2 - w * x2) / 1000.0)
  }

  /** The same beam with its two spans exchanged. */
  function Mirrored(beam: Beam): Beam
    requires beam.secondarySpan.Some?
  {
    beam.(primarySpan := beam.secondarySpan.value, secondarySpan := Some(beam.primarySpan))
  }

  /** Exchanging the spans exchanges the reactions and keeps the correction moment. */
  lemma ReactionsMirror(w: real, l1: real, l2: real)
    requires l1 + l2 != 0.0
    ensures RightReaction(w, l1, l2) == LeftReaction(w, l2, l1)
    ensures CorrectionMoment(w, l1, l2) == CorrectionMoment(w, l2, l1)
  {
  }

  /** On the first span the deflection is the simply supported deflection of span L1
      minus the correction term M·x²/(2·EI). */
  lemma FirstSpanSuperposition(beam: Beam, load: real, x: real)
    requires beam.secondarySpan.Some? && beam.secondarySpan.value >= 0.0
    requires Span(beam) != 0.0 && beam.material.properties.EI != 0.0
    requires 0.0 <= x <= FirstSpan(beam)
    ensures var EI := beam.material.properties.EI;
      Deflection(beam, load, x).y
        == SimplySupported.Deflection(beam, load, x).y
           - CorrectionMoment(load, FirstSpan(beam), SecondSpan(beam)) * (x * x) / (2.0 * EI)
  {
    assert SimplySupported.Span(beam) == FirstSpan(beam);
    assert NormalizeLoad(load) == load;
  }

  /** With a zero secondary span the correction moment vanishes and the two-span
      deflection is the simply supported deflection at every position. */
  lemma ZeroSecondSpanIsSimplySupported(beam: Beam, load: real, x: real)
    requires beam.secondarySpan == Some(0.0)
    requires beam.primarySpan != 0.0 && beam.material.properties.EI != 0.0
    ensures Deflection(beam, load, x) == SimplySupported.Deflection(beam, load, x)
  {
  }

  /** A position on the second span is computed as the same local position on the
      first span of the mirrored beam. */
  lemma SecondSpanMirrorsFirst(beam: Beam, load: real, x: real)
    requires beam.secondarySpan.Some? && beam.primarySpan >= 0.0
    requires Span(beam) != 0.0 && beam.material.properties.EI != 0.0
    requires FirstSpan(beam) < x <= Span(beam)
    ensures var x2 := x - FirstSpan(beam);
      && Deflection(beam, load, x).y == Deflection(Mirrored(beam), load, x2).y
      && BendingMoment(beam, load, x).y == BendingMoment(Mirrored(beam), load, x2).y
      && ShearForce(beam, load, x).y == ShearForce(Mirrored(beam), load, x2).y
  {
    var L1, L2 := FirstSpan(beam), SecondSpan(beam);
    var m := Mirrored(beam);
    assert FirstSpan(m) == L2 && SecondSpan(m) == L1;
    ReactionsMirror(load, L1, L2);
  }

  /** With equal spans the second span repeats the first: every response at x + L
      equals the response at x. */
  lemma EqualSpansRepeat(beam: Beam, load: real, x: real)
    requires beam.secondarySpan == Some(beam.primarySpan) && beam.primarySpan > 0.0
    requires beam.material.properties.EI != 0.0
    requires 0.0 < x <= FirstSpan(beam)
    ensures var L := FirstSpan(beam);
      && Deflection(beam, load, x + L).y == Deflection(beam, load, x).y
      && BendingMoment(beam, load, x + L).y == BendingMoment(beam, load, x).y
      && ShearForce(beam, load, x + L).y == ShearForce(beam, load, x).y
  {
    assert Mirrored(beam) == beam;
    SecondSpanMirrorsFirst(beam, load, x + FirstSpan(beam));
  }

  /** The first-span moment reaches w·L1³/(2·(L1 + L2)) at the middle support. */
  lemma MomentAtMiddleSupport(beam: Beam, load: real)
    requires beam.secondarySpan.Some? && beam.primarySpan >= 0.0 && beam.secondarySpan.value >= 0.0
    requires Span(beam) != 0.0
    ensures var L1, L2 := FirstSpan(beam), SecondSpan(beam);
      BendingMoment(beam, load, L1).y == (load * (L1 * L1 * L1) / (2.0 * (L1 + L2))) / 1000000.0
  {
  }

  /** Beyond the middle support the moment is x2·(R2 − w·x2/2) at x2 = x − L1, which
      shrinks to 0 with x2: together with MomentAtMiddleSupport, the code's moment is
      not continuous at L1 unless L1 = 0 or w = 0. */
  lemma MomentBeyondMiddleSupport(beam: Beam, load: real, x: real)
    requires beam.secondarySpan.Some? && beam.primarySpan >= 0.0 && Span(beam) != 0.0
    requires FirstSpan(beam) < x <= Span(beam)
    ensures var L1, L2 := FirstSpan(beam), SecondSpan(beam);
      BendingMoment(beam, load, x).y * 1000000.0 == (x - L1) * (RightReaction(load, L1, L2) - load * (x - L1) / 2.0)
  {
    var L1, L2 := FirstSpan(beam), SecondSpan(beam);
    var x2, R2 := x - L1, RightReaction(load, L1, L2);
    assert BendingMoment(beam, load, x).y == (R2 * x2 - (load * x2 * x2) / 2.0) / 1000000.0;
    assert R2 * x2 - (load * x2 * x2) / 2.0 == x2 * (R2 - load * x2 / 2.0);
  }

  /** At the middle support the first-span formula gives a deflection of
      −w·L1³·L2/(4·EI·(L1 + L2)), not 0. */
  lemma DeflectionAtMiddleSupport(beam: Beam, load: real)
    requires beam.secondarySpan.Some? && beam.primarySpan >= 0.0 && beam.secondarySpan.value >= 0.0
    requires Span(beam) != 0.0 && beam.material.properties.EI != 0.0
    ensures var L1, L2, EI := FirstSpan(beam), SecondSpan(beam), beam.material.properties.EI;
      Deflection(beam, load, L1).y == -(load * (L1 * L1 * L1) * L2) / (4.0 * EI * (L1 + L2))
  {
  }

  /** Beyond the middle support the deflection is x2 times a polynomial in x2, at
      x2 = x − L1, so it shrinks to 0 with x2: together with
      DeflectionAtMiddleSupport, the code's deflection jumps at L1 unless w·L1·L2 = 0. */
  lemma DeflectionBeyondMiddleSupport(beam: Beam, load: real, x: real)
    requires beam.secondarySpan.Some? && beam.primarySpan >= 0.0
    requires Span(beam) != 0.0 && beam.material.properties.EI != 0.0
    requires FirstSpan(beam) < x <= Span(beam)
    ensures var L1, L2, EI := FirstSpan(beam), SecondSpan(beam), beam.material.properties.EI;
      var x2 := x - L1;
      Deflection(beam, load, x).y
        == x2 * ((load / (24.0 * EI)) * (L2 * L2 * L2 - 2.0 * L2 * (x2 * x2) + x2 * x2 * x2)
                 - CorrectionMoment(load, L1, L2) * x2 / (2.0 * EI))
  {
    var L1, L2, EI := FirstSpan(beam), SecondSpan(beam), beam.material.properties.EI;
    var x2, M := x - L1, CorrectionMoment(load, L1, L2);
    assert Deflection(beam, load, x).y == SpanDeflection(load, EI, L2, M, x2);
    SpanDeflectionFactor(load, EI, L2, M, x2);
  }

  /** The span deflection formula has the local coordinate t as a factor. */
  lemma SpanDeflectionFactor(w: real, EI: real, l: real, M: real, t: real)
    requires EI != 0.0
    ensures SpanDeflection(w, EI, l, M, t)
         == t * ((w / (24.0 * EI)) * (l * l * l - 2.0 * l * (t * t) + t * t * t) - M * t / (2.0 * EI))
  {
    var P := l * l * l - 2.0 * l * (t * t) + t * t * t;
    var c := w / (24.0 * EI);
    assert w * t / (24.0 * EI) == t * c;
    assert (M * (t * t)) / (2.0 * EI) == t * (M * t / (2.0 * EI));
  }

  /** At the right support x = L1 + L2 the deflection is −M·L2²/(2·EI), not 0. */
  lemma DeflectionAtRightSupport(beam: Beam, load: real)
    requires beam.secondarySpan.Some? && beam.primarySpan >= 0.0 && beam.secondarySpan.value > 0.0
    requires Span(beam) != 0.0 && beam.material.properties.EI != 0.0
    ensures var L1, L2, EI := FirstSpan(beam), SecondSpan(beam), beam.material.properties.EI;
      Deflection(beam, load, L1 + L2).y == -(CorrectionMoment(load, L1, L2) * (L2 * L2)) / (2.0 * EI)
  {
    var L1, L2, EI := FirstSpan(beam), SecondSpan(beam), beam.material.properties.EI;
    var M := CorrectionMoment(load, L1, L2);
    assert Deflection(beam, load, L1 + L2).y == SpanDeflection(load, EI, L2, M, L2);
    assert L2 * L2 * L2 - 2.0 * L2 * (L2 * L2) + L2 * L2 * L2 == 0.0;
  }

  /** The reactions fall short of the total load w·(L1 + L2) by w·L1·L2/(L1 + L2). */
  lemma ReactionsSum(w: real, l1: real, l2: real)
    requires l1 + l2 != 0.0
    ensures LeftReaction(w, l1, l2) + RightReaction(w, l1, l2) == w * (l1 + l2) - w * l1 * l2 / (l1 + l2)
  {
  }

  /** At the right support x = L1 + L2 the moment is w·L2³/(2·(L1 + L2)), not 0. */
  lemma MomentAtRightSupport(beam: Beam, load: real)
    requires beam.secondarySpan.Some? && beam.primarySpan >= 0.0 && beam.secondarySpan.value > 0.0
    ensures var L1, L2 := FirstSpan(beam), SecondSpan(beam);
      BendingMoment(beam, load, L1 + L2).y == (load * (L2 * L2 * L2) / (2.0 * (L1 + L2))) / 1000000.0
  {
  }

  /** At the middle support the first-span shear is R1 − w·L1 = −M, in kN. */
  lemma ShearAtMiddleSupport(beam: Beam, load: real)
    requires beam.secondarySpan.Some? && beam.primarySpan >= 0.0 && beam.secondarySpan.value >= 0.0
    requires Span(beam) != 0.0
    ensures var L1, L2 := FirstSpan(beam), SecondSpan(beam);
      ShearForce(beam, load, L1).y == -CorrectionMoment(load, L1, L2) / 1000.0
  {
  }

  /** Beyond the middle support the shear is R2 − w·x2 at x2 = x − L1, so it jumps from
      −M at L1 to values that tend to R2. */
  lemma ShearBeyondMiddleSupport(beam: Beam, load: real, x: real)
    requires beam.secondarySpan.Some? && beam.primarySpan >= 0.0 && Span(beam) != 0.0
    requires FirstSpan(beam) < x <= Span(beam)
    ensures var L1, L2 := FirstSpan(beam), SecondSpan(beam);
      ShearForce(beam, load, x).y * 1000.0 == RightReaction(load, L1, L2) - load * (x - L1)
  {
  }
}
