/** The statistics on the home screen (client/screens/HomeScreen.tsx). */
module HomeScreen {
  import opened Wrappers
  import opened Text
  import opened ResumeTypes

  /** `history.reduce((sum, h) => sum + h.score, 0)`. */
  function TotalScore(history: seq<ScanHistoryItem>): (total: int)
    ensures (forall i :: 0 <= i < |history| ==> history[i].score >= 0) ==> total >= 0
    decreases |history|
  {
    if history == [] then 0 else TotalScore(history[..|history| - 1]) + history[|history| - 1].score
  }

  function MinScore(history: seq<ScanHistoryItem>): int
    requires history != []
    decreases |history|
  {
    if |history| == 1 then history[0].score else Min(MinScore(history[..|history| - 1]), history[|history| - 1].score)
  }

  function MaxScore(history: seq<ScanHistoryItem>): int
    requires history != []
    decreases |history|
  {
    if |history| == 1 then history[0].score
    else
      var m := MaxScore(history[..|history| - 1]);
      if m >= history[|history| - 1].score then m else history[|history| - 1].score
  }

  /** `Math.round(num / den)`: the nearest integer, a half rounding up. */
  function RoundHalfUp(num: int, den: int): (r: int)
    requires den > 0
    ensures den * (2 * r - 1) <= 2 * num < den * (2 * r + 1)
  {
    var q := (2 * num + den) / (2 * den);
    var m := (2 * num + den) % (2 * den);
    assert 2 * num + den == 2 * den * q + m;
    assert den * (2 * q - 1) == 2 * den * q - den;
    assert den * (2 * q + 1) == 2 * den * q + den;
    q
  }

  /** `avgScore`: 0 for an empty history, otherwise the mean score rounded half up. */
  function AvgScore(history: seq<ScanHistoryItem>): (avg: int)
    ensures history == [] ==> avg == 0
    ensures history != [] ==>
      |history| * (2 * avg - 1) <= 2 * TotalScore(history) < |history| * (2 * avg + 1)
  {
    if |history| > 0 then RoundHalfUp(TotalScore(history), |history|) else 0
  }

  lemma TotalBetween(history: seq<ScanHistoryItem>)
    requires history != []
    ensures |history| * MinScore(history) <= TotalScore(history) <= |history| * MaxScore(history)
  {
    TotalAtLeast(history);
    TotalAtMost(history);
  }

  lemma {:induction false} TotalAtLeast(history: seq<ScanHistoryItem>)
    requires history != []
    ensures |history| * MinScore(history) <= TotalScore(history)
    decreases |history|
  {
    if |history| > 1 {
      var init, least := history[..|history| - 1], MinScore(history);
      TotalAtLeast(init);
      MulMonotone(|init|, least, MinScore(init));
      MulSucc(|init|, least);
    } else {
      assert history[..0] == [];
    }
  }

  lemma {:induction false} TotalAtMost(history: seq<ScanHistoryItem>)
    requires history != []
    ensures TotalScore(history) <= |history| * MaxScore(history)
    decreases |history|
  {
    if |history| > 1 {
      var init, most := history[..|history| - 1], MaxScore(history);
      TotalAtMost(init);
      MulMonotone(|init|, MaxScore(init), most);
      MulSucc(|init|, most);
    } else {
      assert history[..0] == [];
    }
  }

  lemma MulSucc(k: nat, m: int)
    ensures (k + 1) * m == k * m + m
  {
  }

  lemma MulMonotone(n: nat, a: int, b: int)
    requires a <= b
    ensures n * a <= n * b
  {
    assert n * b - n * a == n * (b - a);
  }

  lemma RoundedNotAbove(n: int, total: int, most: int, avg: int)
    requires n > 0 && n * (2 * avg - 1) <= 2 * total && total <= n * most
    ensures avg <= most
  {
    if avg > most {
      assert n * (2 * most + 1) == 2 * (n * most) + n;
      MulMonotone(n, 2 * most + 1, 2 * avg - 1);
    }
  }

  lemma RoundedNotBelow(n: int, total: int, least: int, avg: int)
    requires n > 0 && 2 * total < n * (2 * avg + 1) && n * least <= total
    ensures least <= avg
  {
    if avg < least {
      assert n * (2 * least) == 2 * (n * least);
      MulMonotone(n, 2 * avg + 1, 2 * least);
    }
  }

  /** The rounded average lies between the lowest and the highest score in the history. */
  lemma AvgBetweenMinAndMax(history: seq<ScanHistoryItem>)
    requires history != []
    ensures MinScore(history) <= AvgScore(history) <= MaxScore(history)
  {
    TotalBetween(history);
    RoundedNotAbove(|history|, TotalScore(history), MaxScore(history), AvgScore(history));
    RoundedNotBelow(|history|, TotalScore(history), MinScore(history), AvgScore(history));
  }

  /** The "Avg Score" stat: `<avg>%` for a positive average, otherwise `--`. */
  function AvgLabel(avg: int): (shown: string)
    ensures shown == "--" <==> avg <= 0
    ensures avg > 0 ==> IsPrefix(Decimal(avg), shown) && |shown| == |Decimal(avg)| + 1 && shown[|shown| - 1] == '%'
  {
    if avg > 0 then
      var shown := Decimal(avg) + "%";
      assert shown[|shown| - 1] == '%';
      shown
    else "--"
  }

  /** A non-empty history whose scores are all 0 averages 0 and so shows `--`. */
  lemma ZeroHistoryShowsDash(history: seq<ScanHistoryItem>)
    requires history != []
    requires forall i :: 0 <= i < |history| ==> history[i].score == 0
    ensures AvgScore(history) == 0 && AvgLabel(AvgScore(history)) == "--"
  {
    ZeroTotal(history);
    var n, avg := |history|, AvgScore(history);
    if avg > 0 {
      MulMonotone(n, 1, 2 * avg - 1);
    } else if avg < 0 {
      MulMonotone(n, 2 * avg + 1, -1);
    }
  }

  lemma {:induction false} ZeroTotal(history: seq<ScanHistoryItem>)
    requires forall i :: 0 <= i < |history| ==> history[i].score == 0
    ensures TotalScore(history) == 0
    decreases |history|
  {
    if history != [] {
      ZeroTotal(history[..|history| - 1]);
    }
  }

  /** The "Recent Scans" block: absent for an empty history, else its first three entries in order. */
  function RecentScans(history: seq<ScanHistoryItem>): (recent: Option<seq<ScanHistoryItem>>)
    ensures recent.None? <==> history == []
    ensures recent.Some? ==> 1 <= |recent.value| <= 3 && |recent.value| == Min(3, |history|)
    ensures recent.Some? ==> forall i :: 0 <= i < |recent.value| ==> recent.value[i] == history[i]
  {
    if |history| > 0 then Some(history[..Min(3, |history|)]) else None
  }
}
