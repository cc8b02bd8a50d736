/** Score colour of a history list entry (client/components/HistoryCard.tsx). */
module HistoryCard {
  import opened Theme
  import ScoreCircle

  /** `getScoreColor`, written out again in this component: it picks the colour of the
      gauge's band, so the two components agree on every score. */
  function ScoreColor(score: int): (color: ThemeColor)
    ensures color == ScoreCircle.BandColor(ScoreCircle.BandOf(score))
    ensures color == ScoreCircle.ScoreColor(score)
  {
    if score >= 80 then ScoreExcellent
    else if score >= 60 then ScoreGood
    else if score >= 40 then ScoreAverage
    else ScorePoor
  }

  /** A higher score never gets the colour of a lower band. */
  lemma ScoreColorMonotone(lower: int, higher: int)
    requires lower <= higher
    ensures ScoreCircle.Rank(ScoreCircle.BandOf(lower)) <= ScoreCircle.Rank(ScoreCircle.BandOf(higher))
    ensures ScoreColor(lower) == ScoreColor(higher) <==> ScoreCircle.BandOf(lower) == ScoreCircle.BandOf(higher)
  {
    ScoreCircle.BandMonotone(lower, higher);
  }
}
