/** The entities the engine computes over: a material, a beam, and the point a
    response function reports (js/beam-analysis.js, classes Material and Beam). */
module Beams {
  import opened Wrappers

  /** The material properties the engine reads: the flexural rigidity EI, in N·mm². */
  datatype Properties = Properties(EI: real)

  datatype Material = Material(name: string, properties: Properties)

  /** Spans are in metres. A single-span beam has no secondary span. */
  datatype Beam = Beam(primarySpan: real, secondarySpan: Option<real>, material: Material)

  /** One sample of a response function: the position in metres and the value. */
  datatype Point = Point(x: real, y: real)

  /** The load normalisation `load * 1000 / 1000` every equation builder applies;
      over the reals it changes nothing. */
  function NormalizeLoad(load: real): (w: real)
    ensures w == load
  {
    load * 1000.0 / 1000.0
  }

  /** Converts a position in millimetres to the metres a response function reports. */
  function Position(x: real): (m: real)
    ensures m * 1000.0 == x
  {
    x / 1000.0
  }
}
