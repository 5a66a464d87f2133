/** The sampling step of the plotter (js/analysis-plotter.js, AnalysisPlotter.generatePoints):
    a response function is evaluated at 101 evenly spaced positions from the left end
    of the beam to the end of its last span. */
module AnalysisPlotter {
  import opened Wrappers
  import opened Beams
  import SimplySupported
  import TwoSpanUnequal
  import BeamAnalysis

  /** The number of intervals; the loop takes one more sample than this. */
  const NumPoints: nat := 100

  /** The sampled length in millimetres; an absent secondary span counts as 0. */
  function TotalSpan(beam: Beam): real {
    (beam.primarySpan + beam.secondarySpan.GetOr(0.0)) * 1000.0
  }

  /** The i-th sampling position, (i / 100) · totalSpan. */
  function SamplePosition(i: nat, totalSpan: real): real {
    (i as real / NumPoints as real) * totalSpan
  }

  /** The bundle's response function can be evaluated at every sampling position. */
  ghost predicate Sampleable(data: BeamAnalysis.Bundle) {
    forall i: nat :: i <= NumPoints ==> data.equation.requires(SamplePosition(i, TotalSpan(data.beam)))
  }

  /** Evaluates the bundle's response function at each sampling position, in order,
      and keeps the position and value it reports. */
  method GeneratePoints(data: BeamAnalysis.Bundle) returns (points: seq<Point>)
    requires Sampleable(data)
    ensures |points| == NumPoints + 1
    ensures forall i: nat :: i <= NumPoints ==>
      points[i] == data.equation(SamplePosition(i, TotalSpan(data.beam)))
  {
    points := [];
    var numPoints := NumPoints;
    var totalSpan := (data.beam.primarySpan + data.beam.secondarySpan.GetOr(0.0)) * 1000.0;
    var i: nat := 0;
    while i <= numPoints
      invariant i <= numPoints + 1
      invariant |points| == i
      invariant forall k: nat :: k < i ==> points[k] == data.equation(SamplePosition(k, TotalSpan(data.beam)))
    {
      var x := (i as real / numPoints as real) * totalSpan;
      assert x == SamplePosition(i, TotalSpan(data.beam));
      var result := data.equation(x);
      points := points + [Point(result.x, result.y)];
      i := i + 1;
    }
  }

  /** The samples start at the left end and finish at the total span. */
  lemma SamplesSpanTheBeam(totalSpan: real)
    ensures SamplePosition(0, totalSpan) == 0.0
    ensures SamplePosition(NumPoints, totalSpan) == totalSpan
  {
  }

  /** Over a non-negative span the samples never move left. */
  lemma SamplesNondecreasing(i: nat, j: nat, totalSpan: real)
    requires i <= j
    requires totalSpan >= 0.0
    ensures SamplePosition(i, totalSpan) <= SamplePosition(j, totalSpan)
  {
  }

  /** Over a non-negative span every sample lies on [0, totalSpan]. */
  lemma SamplesWithinSpan(i: nat, totalSpan: real)
    requires i <= NumPoints
    requires totalSpan >= 0.0
    ensures 0.0 <= SamplePosition(i, totalSpan) <= totalSpan
  {
    SamplesSpanTheBeam(totalSpan);
    SamplesNondecreasing(0, i, totalSpan);
    SamplesNondecreasing(i, NumPoints, totalSpan);
  }

  /** For a two-span beam the sampled length is exactly L1 + L2, so no sample takes
      the out-of-domain branch. */
  lemma TwoSpanSamplesInDomain(beam: Beam, i: nat)
    requires beam.secondarySpan.Some?
    requires beam.primarySpan + beam.secondarySpan.value >= 0.0
    requires i <= NumPoints
    ensures TwoSpanUnequal.InDomain(beam, SamplePosition(i, TotalSpan(beam)))
  {
    assert TotalSpan(beam) == TwoSpanUnequal.Span(beam);
    SamplesWithinSpan(i, TotalSpan(beam));
  }

  /** For a single-span beam (no secondary span, or a zero one) the sampled length is
      exactly L, so no sample takes the out-of-domain branch. */
  lemma SingleSpanSamplesInDomain(beam: Beam, i: nat)
    requires beam.secondarySpan.GetOr(0.0) == 0.0
    requires beam.primarySpan >= 0.0
    requires i <= NumPoints
    ensures SimplySupported.InDomain(beam, SamplePosition(i, TotalSpan(beam)))
  {
    assert TotalSpan(beam) == SimplySupported.Span(beam);
    SamplesWithinSpan(i, TotalSpan(beam));
  }

  /** The bundle can be sampled, and the i-th sample reports the position
      i·(primarySpan + secondarySpan)/100 in metres. */
  ghost predicate PlotsAcrossBeam(data: BeamAnalysis.Bundle) {
    && Sampleable(data)
    && forall i: nat :: i <= NumPoints ==>
         data.equation(SamplePosition(i, TotalSpan(data.beam))).x
           == (i as real / NumPoints as real) * (data.beam.primarySpan + data.beam.secondarySpan.GetOr(0.0))
  }

  /** A sample position in millimetres reported in metres. */
  lemma SampleInMetres(beam: Beam, i: nat)
    ensures Position(SamplePosition(i, TotalSpan(beam)))
         == (i as real / NumPoints as real) * (beam.primarySpan + beam.secondarySpan.GetOr(0.0))
  {
  }

  /** A bundle whose response function is defined at every sample and reports
      each position it is given, in metres, plots across the beam. */
  lemma PlotsAcrossBeamIntro(data: BeamAnalysis.Bundle)
    requires Sampleable(data)
    requires forall i: nat :: i <= NumPoints ==>
      data.equation(SamplePosition(i, TotalSpan(data.beam))).x == Position(SamplePosition(i, TotalSpan(data.beam)))
    ensures PlotsAcrossBeam(data)
  {
  }

  /** The span conditions under which the facade's bundles can be sampled: a registered
      tag and, for two spans, a present secondary span and a non-zero total length.
      Deflection additionally needs a non-zero EI; moment and shear never read EI. */
  predicate Analysable(beam: Beam, condition: string) {
    && (condition == BeamAnalysis.SimplySupportedTag || condition == BeamAnalysis.TwoSpanUnequalTag)
    && (condition == BeamAnalysis.TwoSpanUnequalTag ==>
          beam.secondarySpan.Some? && beam.primarySpan + beam.secondarySpan.value != 0.0)
  }

  /** Every deflection bundle the facade hands out for an analysable beam with a non-zero EI
      plots across it. */
  lemma DeflectionBundlePlots(beam: Beam, load: real, condition: string)
    requires Analysable(beam, condition)
    requires beam.material.properties.EI != 0.0
    ensures PlotsAcrossBeam(BeamAnalysis.GetDeflection(beam, load, condition).value)
  {
    var data := BeamAnalysis.GetDeflection(beam, load, condition).value;
    forall i: nat | i <= NumPoints
      ensures data.equation.requires(SamplePosition(i, TotalSpan(beam)))
      ensures data.equation(SamplePosition(i, TotalSpan(beam))).x == Position(SamplePosition(i, TotalSpan(beam)))
    {
      var x := SamplePosition(i, TotalSpan(beam));
      if condition == BeamAnalysis.TwoSpanUnequalTag {
        assert TwoSpanUnequal.Span(beam) != 0.0;
        assert TwoSpanUnequal.DeflectionDefined(beam, x);
      } else {
        assert SimplySupported.DeflectionDefined(beam, x);
      }
    }
    PlotsAcrossBeamIntro(data);
  }

  /** Every bending-moment bundle the facade hands out for an analysable beam plots across it,
      whatever its EI. */
  lemma BendingMomentBundlePlots(beam: Beam, load: real, condition: string)
    requires Analysable(beam, condition)
    ensures PlotsAcrossBeam(BeamAnalysis.GetBendingMoment(beam, load, condition).value)
  {
    var data := BeamAnalysis.GetBendingMoment(beam, load, condition).value;
    forall i: nat | i <= NumPoints
      ensures data.equation.requires(SamplePosition(i, TotalSpan(beam)))
      ensures data.equation(SamplePosition(i, TotalSpan(beam))).x == Position(SamplePosition(i, TotalSpan(beam)))
    {
      var x := SamplePosition(i, TotalSpan(beam));
      if condition == BeamAnalysis.TwoSpanUnequalTag {
        assert TwoSpanUnequal.Span(beam) != 0.0;
        assert TwoSpanUnequal.Defined(beam, x);
      }
    }
    PlotsAcrossBeamIntro(data);
  }

  /** Every shear-force bundle the facade hands out for an analysable beam plots across it,
      whatever its EI. */
  lemma ShearForceBundlePlots(beam: Beam, load: real, condition: string)
    requires Analysable(beam, condition)
    ensures PlotsAcrossBeam(BeamAnalysis.GetShearForce(beam, load, condition).value)
  {
    var data := BeamAnalysis.GetShearForce(beam, load, condition).value;
    forall i: nat | i <= NumPoints
      ensures data.equation.requires(SamplePosition(i, TotalSpan(beam)))
      ensures data.equation(SamplePosition(i, TotalSpan(beam))).x == Position(SamplePosition(i, TotalSpan(beam)))
    {
      var x := SamplePosition(i, TotalSpan(beam));
      if condition == BeamAnalysis.TwoSpanUnequalTag {
        assert TwoSpanUnequal.Span(beam) != 0.0;
        assert TwoSpanUnequal.Defined(beam, x);
      }
    }
    PlotsAcrossBeamIntro(data);
  }

  /** On a single-span beam the plotted simply supported deflection starts and ends
      at zero: the first and last samples fall on the supports. */
  lemma SimplySupportedDeflectionPlotEndsAtZero(beam: Beam, load: real)
    requires beam.secondarySpan.GetOr(0.0) == 0.0
    requires beam.material.properties.EI != 0.0
    ensures var data := BeamAnalysis.GetDeflection(beam, load, BeamAnalysis.SimplySupportedTag).value;
      && data.equation.requires(SamplePosition(0, TotalSpan(beam)))
      && data.equation.requires(SamplePosition(NumPoints, TotalSpan(beam)))
      && data.equation(SamplePosition(0, TotalSpan(beam))).y == 0.0
      && data.equation(SamplePosition(NumPoints, TotalSpan(beam))).y == 0.0
  {
  }
}
