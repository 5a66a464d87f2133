/** The BeamAnalysis facade (js/beam-analysis.js): a registry of the two analyzers
    keyed by condition tag, and three dispatch operations that either wrap the chosen
    analyzer's response function in a bundle or fail with an invalid condition. */
module BeamAnalysis {
  import opened Wrappers
  import opened Beams
  import SimplySupported
  import TwoSpanUnequal

  const SimplySupportedTag: string := "simply-supported"
  const TwoSpanUnequalTag: string := "two-span-unequal"

  /** The two analyzer classes. Each builder returns the response function as a
      closure over the beam and the load; the closure is defined wherever the
      formula it evaluates is. */
  datatype Analyzer = SimplySupportedAnalyzer | TwoSpanUnequalAnalyzer {

    function DeflectionEquation(beam: Beam, load: real): real --> Point {
      match this
      case SimplySupportedAnalyzer =>
        x requires SimplySupported.DeflectionDefined(beam, x) => SimplySupported.Deflection(beam, load, x)
      case TwoSpanUnequalAnalyzer =>
        x requires TwoSpanUnequal.DeflectionDefined(beam, x) => TwoSpanUnequal.Deflection(beam, load, x)
    }

    function BendingMomentEquation(beam: Beam, load: real): real --> Point {
      match this
      case SimplySupportedAnalyzer =>
        x => SimplySupported.BendingMoment(beam, load, x)
      case TwoSpanUnequalAnalyzer =>
        x requires TwoSpanUnequal.Defined(beam, x) => TwoSpanUnequal.BendingMoment(beam, load, x)
    }

    function ShearForceEquation(beam: Beam, load: real): real --> Point {
      match this
      case SimplySupportedAnalyzer =>
        x => SimplySupported.ShearForce(beam, load, x)
      case TwoSpanUnequalAnalyzer =>
        x requires TwoSpanUnequal.Defined(beam, x) => TwoSpanUnequal.ShearForce(beam, load, x)
    }
  }

  /** The registry the constructor builds: exactly two condition tags. */
  const Analyzers: map<string, Analyzer> :=
    map[SimplySupportedTag := SimplySupportedAnalyzer, TwoSpanUnequalTag := TwoSpanUnequalAnalyzer]

  datatype Error = InvalidCondition

  /** What a dispatch operation returns: the inputs and the response function. */
  datatype Bundle = Bundle(beam: Beam, load: real, equation: real --> Point)

  function GetDeflection(beam: Beam, load: real, condition: string): (r: Result<Bundle, Error>)
    ensures r.Success? <==> condition == SimplySupportedTag || condition == TwoSpanUnequalTag
    ensures r.Failure? ==> r.error == InvalidCondition
    ensures r.Success? ==> r.value.beam == beam && r.value.load == load
    ensures condition == SimplySupportedTag ==>
      && r.Success?
      && forall x :: SimplySupported.DeflectionDefined(beam, x) ==>
        r.value.equation.requires(x) && r.value.equation(x) == SimplySupported.Deflection(beam, load, x)
    ensures condition == TwoSpanUnequalTag ==>
      && r.Success?
      && forall x :: TwoSpanUnequal.DeflectionDefined(beam, x) ==>
        r.value.equation.requires(x) && r.value.equation(x) == TwoSpanUnequal.Deflection(beam, load, x)
  {
    if condition in Analyzers then
      Success(Bundle(beam, load, Analyzers[condition].DeflectionEquation(beam, load)))
    else
      Failure(InvalidCondition)
  }

  function GetBendingMoment(beam: Beam, load: real, condition: string): (r: Result<Bundle, Error>)
    ensures r.Success? <==> condition == SimplySupportedTag || condition == TwoSpanUnequalTag
    ensures r.Failure? ==> r.error == InvalidCondition
    ensures r.Success? ==> r.value.beam == beam && r.value.load == load
    ensures condition == SimplySupportedTag ==>
      && r.Success?
      && forall x :: r.value.equation.requires(x) && r.value.equation(x) == SimplySupported.BendingMoment(beam, load, x)
    ensures condition == TwoSpanUnequalTag ==>
      && r.Success?
      && forall x :: TwoSpanUnequal.Defined(beam, x) ==>
        r.value.equation.requires(x) && r.value.equation(x) == TwoSpanUnequal.BendingMoment(beam, load, x)
  {
    if condition in Analyzers then
      Success(Bundle(beam, load, Analyzers[condition].BendingMomentEquation(beam, load)))
    else
      Failure(InvalidCondition)
  }

  function GetShearForce(beam: Beam, load: real, condition: string): (r: Result<Bundle, Error>)
    ensures r.Success? <==> condition == SimplySupportedTag || condition == TwoSpanUnequalTag
    ensures r.Failure? ==> r.error == InvalidCondition
    ensures r.Success? ==> r.value.beam == beam && r.value.load == load
    ensures condition == SimplySupportedTag ==>
      && r.Success?
      && forall x :: r.value.equation.requires(x) && r.value.equation(x) == SimplySupported.ShearForce(beam, load, x)
    ensures condition == TwoSpanUnequalTag ==>
      && r.Success?
      && forall x :: TwoSpanUnequal.Defined(beam, x) ==>
        r.value.equation.requires(x) && r.value.equation(x) == TwoSpanUnequal.ShearForce(beam, load, x)
  {
    if condition in Analyzers then
      Success(Bundle(beam, load, Analyzers[condition].ShearForceEquation(beam, load)))
    else
      Failure(InvalidCondition)
  }
}
