/** The status row of one résumé section (client/components/SectionStatus.tsx). */
module SectionStatus {
  import opened Wrappers
  import opened Text
  import opened Theme

  /** A JavaScript number in a condition: 0 is falsy, an absent score is falsy. */
  predicate ScoreTruthy(score: Option<int>) {
    score.Some? && score.value != 0
  }

  /** `getStatusColor`. The `score &&` guards make a score of 0 fall through to error,
      which is where 0 would land anyway since 0 < 40. */
  function StatusColor(present: bool, score: Option<int>): (color: ThemeColor)
    ensures !present ==> color == Error
    ensures present && score.Some? && score.value >= 80 ==> color == Success
    ensures present && score.Some? && 60 <= score.value < 80 ==> color == Primary
    ensures present && score.Some? && 40 <= score.value < 60 ==> color == Warning
    ensures present && (score.None? || score.value < 40) ==> color == Error
  {
    if !present then Error
    else if ScoreTruthy(score) && score.value >= 80 then Success
    else if ScoreTruthy(score) && score.value >= 60 then Primary
    else if ScoreTruthy(score) && score.value >= 40 then Warning
    else Error
  }

  /** The issues listed under the row: `issues` defaults to `[]`, and only its first two are shown, in order. */
  function VisibleIssues(issues: Option<seq<string>>): (shown: seq<string>)
    ensures |shown| == Min(2, |issues.GetOr([])|)
    ensures shown == issues.GetOr([])[..|shown|]
    ensures issues.None? ==> shown == []
  {
    var all := issues.GetOr([]);
    if |all| > 0 then all[..Min(2, |all|)] else []
  }

  /** The icon: a check exactly when the section is present. */
  function StatusIcon(present: bool): (icon: string)
    ensures icon == "check-circle" <==> present
    ensures !present ==> icon == "x-circle"
  {
    if present then "check-circle" else "x-circle"
  }

  /** The score text appears exactly when a score is defined, a zero included. */
  function ScoreText(score: Option<int>): (text: Option<string>)
    ensures text.Some? <==> score.Some?
    ensures score.Some? ==> IsPrefix(Decimal(score.value), text.value) && text.value[|text.value| - 1] == '%'
    ensures score.Some? ==> |text.value| == |Decimal(score.value)| + 1
  {
    if score.Some? then Some(Decimal(score.value) + "%") else None
  }

  /** A present section scored 0 shows "0%" in the error colour. */
  lemma ZeroScore()
    ensures ScoreText(Some(0)) == Some("0%")
    ensures StatusColor(true, Some(0)) == Error
  {
    assert DigitChar(0) == '0';
    assert Decimal(0) == "0";
    assert Decimal(0) + "%" == "0%";
  }
}
