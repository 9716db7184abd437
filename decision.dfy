/**
 * The decision mapping of app/main.py: a confidence becomes a label with an
 * inclusive 0.5 threshold, and one of four explanation sentences chosen by
 * the thresholds 0.75, 0.5 and 0.25.
 */
module Decision {

  datatype Label = AiGenerated | Human

  /** The label as the response spells it. */
  function LabelName(l: Label): string {
    match l
    case AiGenerated => "ai_generated"
    case Human => "human"
  }

  /** The label for a confidence: synthetic from 0.5 upwards, inclusive. */
  function LabelFor(confidence: real): (l: Label)
    ensures l == AiGenerated <==> confidence >= 0.5
  {
    if confidence >= 0.5 then AiGenerated else Human
  }

  /** The four explanation bands, strongest synthetic evidence first. */
  datatype Band = Strong | Mixed | MostlyHuman | Natural

  /**
   * The first threshold, tested top-down, that the confidence reaches picks
   * the band; equivalently, the band's rank counts the thresholds 0.25, 0.5
   * and 0.75 that the confidence reaches.
   */
  function BandFor(confidence: real): (b: Band)
    ensures Rank(b) == (if confidence >= 0.25 then 1 else 0)
                     + (if confidence >= 0.5 then 1 else 0)
                     + (if confidence >= 0.75 then 1 else 0)
  {
    if confidence >= 0.75 then Strong
    else if confidence >= 0.5 then Mixed
    else if confidence >= 0.25 then MostlyHuman
    else Natural
  }

  /** Position of a band on the confidence axis: 3 for the top band, 0 for the bottom one. */
  function Rank(b: Band): nat {
    match b
    case Strong => 3
    case Mixed => 2
    case MostlyHuman => 1
    case Natural => 0
  }

  const StrongSentence: string :=
    "The audio exhibits strong indicators of synthetic speech, such as uniform pitch patterns and spectral artifacts commonly found in AI-generated voices."
  const MixedSentence: string :=
    "Some characteristics associated with AI-generated speech were detected, though certain natural variations are still present."
  const MostlyHumanSentence: string :=
    "The audio mostly resembles natural human speech with minor irregularities that do not strongly indicate AI generation."
  const NaturalSentence: string :=
    "The audio exhibits natural variations in pitch, tone, and timing, which are consistent with human speech patterns."

  /** The fixed sentence of each band; each has a length of its own (150, 124, 118, 114 characters). */
  function Sentence(b: Band): (s: string)
    ensures |s| == match b
      case Strong => 150
      case Mixed => 124
      case MostlyHuman => 118
      case Natural => 114
  {
    match b
    case Strong => StrongSentence
    case Mixed => MixedSentence
    case MostlyHuman => MostlyHumanSentence
    case Natural => NaturalSentence
  }

  /** The explanation for a confidence: exactly one of the four sentences, picked by interval. */
  function Explanation(confidence: real): (e: string)
    ensures e == StrongSentence <==> 0.75 <= confidence
    ensures e == MixedSentence <==> 0.5 <= confidence < 0.75
    ensures e == MostlyHumanSentence <==> 0.25 <= confidence < 0.5
    ensures e == NaturalSentence <==> confidence < 0.25
  {
    Sentence(BandFor(confidence))
  }

  /** `ai_generated` exactly from 0.5 upwards: 0.5 itself is synthetic, 0.4999 is human. */
  lemma LabelThreshold(confidence: real)
    ensures LabelFor(confidence) == AiGenerated <==> confidence >= 0.5
    ensures LabelFor(0.5) == AiGenerated && LabelFor(0.4999) == Human
  {
  }

  /** The four bands partition the confidence axis into [0.75, ..), [0.5, 0.75), [0.25, 0.5) and (.., 0.25). */
  lemma BandIntervals(confidence: real)
    ensures BandFor(confidence) == Strong <==> 0.75 <= confidence
    ensures BandFor(confidence) == Mixed <==> 0.5 <= confidence < 0.75
    ensures BandFor(confidence) == MostlyHuman <==> 0.25 <= confidence < 0.5
    ensures BandFor(confidence) == Natural <==> confidence < 0.25
  {
  }

  /** The band boundaries fall on the thresholds themselves. */
  lemma BandBoundaries()
    ensures BandFor(0.75) == Strong && BandFor(0.7499) == Mixed
    ensures BandFor(0.5) == Mixed && BandFor(0.4999) == MostlyHuman
    ensures BandFor(0.25) == MostlyHuman && BandFor(0.2499) == Natural
  {
  }

  /** Distinct bands have distinct sentences, so the explanation names exactly one band. */
  lemma SentencesDistinct(a: Band, b: Band)
    ensures Sentence(a) == Sentence(b) <==> a == b
  {
    if a != b {
      assert |Sentence(a)| != |Sentence(b)|;
    }
  }

  /** Label and explanation agree: the top two bands go with `ai_generated`, the bottom two with `human`. */
  lemma LabelAgreesWithBand(confidence: real)
    ensures LabelFor(confidence) == AiGenerated <==> Rank(BandFor(confidence)) >= 2
  {
  }

  /** Raising the confidence never moves the explanation to a lower band. */
  lemma BandMonotone(low: real, high: real)
    requires low <= high
    ensures Rank(BandFor(low)) <= Rank(BandFor(high))
  {
  }

  /** Raising the confidence never turns `ai_generated` into `human`. */
  lemma LabelMonotone(low: real, high: real)
    requires low <= high
    ensures LabelFor(low) == AiGenerated ==> LabelFor(high) == AiGenerated
  {
  }
}
