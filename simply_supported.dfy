/** The simply supported analyzer: one span of length L under a uniform load w
    (js/beam-analysis.js, BeamAnalysis.analyzer.simplySupported). Each response
    function is the body of the closure its builder returns, parameterised by the
    beam, the load and the position x in millimetres. */
module SimplySupported {
  import opened Beams

  /** The span L in millimetres. */
  function Span(beam: Beam): real {
    beam.primarySpan * 1000.0
  }

  /** Positions the formulas apply to; every other position is reported as 0. */
  predicate InDomain(beam: Beam, x: real) {
    0.0 <= x <= Span(beam)
  }

  /** The deflection formula divides by EI; outside the span nothing is divided. */
  predicate DeflectionDefined(beam: Beam, x: real) {
    InDomain(beam, x) ==> beam.material.properties.EI != 0.0
  }

  /** Deflection y(x) = w·x/(24·EI)·(L³ − 2·L·x² + x³), unscaled. */
  function Deflection(beam: Beam, load: real, x: real): (p: Point)
    requires DeflectionDefined(beam, x)
    ensures p.x == Position(x)
    ensures !InDomain(beam, x) ==> p.y == 0.0
    ensures x == 0.0 || x == Span(beam) ==> p.y == 0.0
  {
    var L := Span(beam);
    var EI := beam.material.properties.EI;
    var w := NormalizeLoad(load);
    if x < 0.0 || x > L then Point(Position(x), 0.0)
    else
      var y := (w * x / (24.0 * EI)) * (L * L * L - 2.0 * L * (x * x) + x * x * x);
      Point(Position(x), y)
  }

  /** Bending moment M(x) = w·x·(L − x)/2, reported in kN·m (divided by 1,000,000). */
  function BendingMoment(beam: Beam, load: real, x: real): (p: Point)
    ensures p.x == Position(x)
    ensures !InDomain(beam, x) ==> p.y == 0.0
    ensures x == 0.0 || x == Span(beam) ==> p.y == 0.0
  {
    var L := Span(beam);
    var w := NormalizeLoad(load);
    if x < 0.0 || x > L then Point(Position(x), 0.0)
    else
      var y := (w * x * (L - x)) / 2.0;
      Point(Position(x), y / 1000000.0)
  }

  /** Shear force V(x) = w·(L/2 − x), reported in kN (divided by 1,000). */
  function ShearForce(beam: Beam, load: real, x: real): (p: Point)
    ensures p.x == Position(x)
    ensures !InDomain(beam, x) ==> p.y == 0.0
    ensures x == 0.0 && InDomain(beam, x) ==> p.y == (load * Span(beam) / 2.0) / 1000.0
  {
    var L := Span(beam);
    var w := NormalizeLoad(load);
    if x < 0.0 || x > L then Point(Position(x), 0.0)
    else
      var y := w * (L / 2.0 - x);
      Point(Position(x), y / 1000.0)
  }

  /** The deflected shape is symmetric about midspan: y(x) = y(L − x) at every position. */
  lemma DeflectionSymmetric(beam: Beam, load: real, x: real)
    requires beam.material.properties.EI != 0.0
    ensures Deflection(beam, load, x).y == Deflection(beam, load, Span(beam) - x).y
  {
  }

  /** Midspan deflection is the closed form 5·w·L⁴/(384·EI). */
  lemma DeflectionAtMidspan(beam: Beam, load: real)
    requires beam.primarySpan >= 0.0
    requires beam.material.properties.EI != 0.0
    ensures var L, EI := Span(beam), beam.material.properties.EI;
      Deflection(beam, load, L / 2.0).y == 5.0 * load * (L * L * L * L) / (384.0 * EI)
  {
  }

  /** The moment diagram is symmetric about midspan: M(x) = M(L − x). */
  lemma MomentSymmetric(beam: Beam, load: real, x: real)
    ensures BendingMoment(beam, load, x).y == BendingMoment(beam, load, Span(beam) - x).y
  {
  }

  /** The midspan moment is w·L²/8, reported in kN·m. */
  lemma MomentAtMidspan(beam: Beam, load: real)
    requires beam.primarySpan >= 0.0
    ensures var L := Span(beam);
      BendingMoment(beam, load, L / 2.0).y == (load * (L * L) / 8.0) / 1000000.0
  {
  }

  /** Under a non-negative load no position carries more moment than midspan. */
  lemma MomentPeaksAtMidspan(beam: Beam, load: real, x: real)
    requires beam.primarySpan >= 0.0
    requires load >= 0.0
    ensures BendingMoment(beam, load, x).y <= BendingMoment(beam, load, Span(beam) / 2.0).y
  {
    var L := Span(beam);
    MomentAtMidspan(beam, load);
    assert 0.0 <= load * (L * L);
    if InDomain(beam, x) {
      var d := L / 2.0 - x;
      assert x * (L - x) == L * L / 4.0 - d * d;
      assert load * x * (L - x) <= load * (L * L) / 4.0 by {
        assert load * (d * d) >= 0.0;
      }
    }
  }

  /** The shear diagram is antisymmetric about midspan: V(x) = −V(L − x). */
  lemma ShearAntisymmetric(beam: Beam, load: real, x: real)
    ensures ShearForce(beam, load, x).y == -ShearForce(beam, load, Span(beam) - x).y
  {
  }

  /** Shear is +w·L/2 at the left support, 0 at midspan and −w·L/2 at the right support (kN). */
  lemma ShearAtSupportsAndMidspan(beam: Beam, load: real)
    requires beam.primarySpan >= 0.0
    ensures var L := Span(beam);
      && ShearForce(beam, load, 0.0).y == (load * L / 2.0) / 1000.0
      && ShearForce(beam, load, L / 2.0).y == 0.0
      && ShearForce(beam, load, L).y == -(load * L / 2.0) / 1000.0
  {
  }
}
