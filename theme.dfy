/** The theme colour tokens the classification helpers choose between. The palette
    values themselves (constants/theme) are not part of this model. */
module Theme {
  datatype ThemeColor =
    | ScoreExcellent | ScoreGood | ScoreAverage | ScorePoor
    | Success | Primary | Warning | Error
}
