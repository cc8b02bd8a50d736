/** Score banding of the circular score gauge (client/components/ScoreCircle.tsx). */
module ScoreCircle {
  import opened Wrappers
  import opened Theme

  datatype Band = Excellent | Good | Average | Poor

  /** The bands as intervals of the score line. */
  predicate InBand(score: int, band: Band) {
    match band
    case Excellent => 80 <= score
    case Good => 60 <= score < 80
    case Average => 40 <= score < 60
    case Poor => score < 40
  }

  /** Position of a band from the bottom. */
  function Rank(band: Band): nat {
    match band
    case Poor => 0
    case Average => 1
    case Good => 2
    case Excellent => 3
  }

  /** The thresholds 80, 60 and 40 tried from the top: every score lies in exactly one band. */
  function BandOf(score: int): (band: Band)
    ensures forall b :: InBand(score, b) <==> b == band
  {
    if score >= 80 then Excellent
    else if score >= 60 then Good
    else if score >= 40 then Average
    else Poor
  }

  /** A higher score never lands in a lower band. */
  lemma BandMonotone(lower: int, higher: int)
    requires lower <= higher
    ensures Rank(BandOf(lower)) <= Rank(BandOf(higher))
  {
  }

  function BandColor(band: Band): ThemeColor {
    match band
    case Excellent => ScoreExcellent
    case Good => ScoreGood
    case Average => ScoreAverage
    case Poor => ScorePoor
  }

  function BandMessage(band: Band): string {
    match band
    case Excellent => "Excellent!"
    case Good => "Good progress"
    case Average => "Needs work"
    case Poor => "Keep improving"
  }

  /** `getScoreColor`: the colour of the band the score lies in. */
  function ScoreColor(score: int): (color: ThemeColor)
    ensures color == BandColor(BandOf(score))
    ensures InBand(score, Excellent) <==> color == ScoreExcellent
    ensures InBand(score, Poor) <==> color == ScorePoor
  {
    if score >= 80 then ScoreExcellent
    else if score >= 60 then ScoreGood
    else if score >= 40 then ScoreAverage
    else ScorePoor
  }

  /** `getScoreMessage`: the message of the same band as `ScoreColor`. */
  function ScoreMessage(score: int): (message: string)
    ensures message == BandMessage(BandOf(score))
  {
    if score >= 80 then "Excellent!"
    else if score >= 60 then "Good progress"
    else if score >= 40 then "Needs work"
    else "Keep improving"
  }

  /** The text under the gauge: a truthy label, else the band message. */
  function Caption(score: int, labelText: Option<string>): (caption: string)
    ensures labelText.Some? && labelText.value != "" ==> caption == labelText.value
    ensures labelText.None? || labelText.value == "" ==> caption == BandMessage(BandOf(score))
  {
    if labelText.Some? && labelText.value != "" then labelText.value else ScoreMessage(score)
  }
}
