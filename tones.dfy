/**
 * The three-way colour banding used for a signed change: above 0.01 is shown green (with an up arrow where
 * an arrow is shown), below -0.01 red (down arrow), and anything in between gray (flat arrow).
 */
module Tones {

  datatype Tone = Positive | Neutral | Negative

  function ToneOf(change: real): (t: Tone)
    ensures t == Positive <==> change > 0.01
    ensures t == Negative <==> change < -0.01
    ensures t == Neutral <==> -0.01 <= change <= 0.01
  {
    if change > 0.01 then Positive
    else if change < -0.01 then Negative
    else Neutral
  }

  /** Position of a tone from the bottom: Negative 0, Neutral 1, Positive 2. */
  function ToneRank(t: Tone): nat
  {
    match t
    case Negative => 0
    case Neutral => 1
    case Positive => 2
  }

  /** A larger change never gets a lower tone. */
  lemma ToneMonotone(a: real, b: real)
    requires a <= b
    ensures ToneRank(ToneOf(a)) <= ToneRank(ToneOf(b))
  {
  }
}
