/** The red/yellow/green banding of an SEO score that both score displays
    colour by: below 60 is red, 60 up to 80 is yellow, 80 and above is green. */
module Bands {

  datatype Band = Red | Yellow | Green

  function BandOf(score: int): (b: Band)
    ensures b == Red <==> score < 60
    ensures b == Yellow <==> 60 <= score < 80
    ensures b == Green <==> 80 <= score
  {
    if score < 60 then Red else if score < 80 then Yellow else Green
  }

  /** The Tailwind colour name of a band. */
  function Hue(b: Band): string {
    match b
    case Red => "red"
    case Yellow => "yellow"
    case Green => "green"
  }

  /** A higher score never falls into a lower band. */
  lemma BandMonotone(s1: int, s2: int)
    requires s1 <= s2
    ensures BandOf(s1) == Green ==> BandOf(s2) == Green
    ensures BandOf(s2) == Red ==> BandOf(s1) == Red
  {
  }
}
