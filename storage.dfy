/** On-device persistence (client/lib/storage.ts): four keys of a key-value store holding
    the scan history, the subscription, the current analysis and the last job
    description. JSON (de)serialisation is taken to round-trip, so the store holds typed
    values; the storage calls themselves are taken not to fail. */
module Storage {
  import opened Wrappers
  import opened Text
  import opened ResumeTypes

  datatype Key = ScanHistoryKey | SubscriptionKey | CurrentResumeKey | LastJdKey {
    /** The key under which the value is stored on the device. */
    function Name(): (name: string)
      ensures IsPrefix("ats_", name)
    {
      match this
      case ScanHistoryKey => "ats_scan_history"
      case SubscriptionKey => "ats_subscription"
      case CurrentResumeKey => "ats_current_resume"
      case LastJdKey => "ats_last_jd"
    }
  }

  /** The four keys are stored under four different names, so no write clobbers another key. */
  lemma KeyNamesDistinct(a: Key, b: Key)
    requires a != b
    ensures a.Name() != b.Name()
  {
    assert a.Name()[4] != b.Name()[4] || a.Name()[5] != b.Name()[5];
  }

  const AllKeys: set<Key> := {ScanHistoryKey, SubscriptionKey, CurrentResumeKey, LastJdKey}

  const MaxHistory := 50

  const DefaultSubscription := UserSubscription(Free, 3, 0, 3)

  datatype Stored =
    | HistoryValue(items: seq<ScanHistoryItem>)
    | SubscriptionValue(subscription: UserSubscription)
    | ResumeValue(analysis: ResumeAnalysis)
    | JdValue(text: string)

  /** Each key holds the kind of value its getter parses. */
  predicate Fits(key: Key, value: Stored) {
    match key
    case ScanHistoryKey => value.HistoryValue?
    case SubscriptionKey => value.SubscriptionValue?
    case CurrentResumeKey => value.ResumeValue?
    case LastJdKey => value.JdValue?
  }

  /** A `Partial<UserSubscription>`: an absent field is `None`. */
  datatype SubscriptionPatch = SubscriptionPatch(
    tier: Option<Tier>, scansRemaining: Option<int>, scansUsed: Option<int>, maxFreeScans: Option<int>)

  const NoChange := SubscriptionPatch(None, None, None, None)

  /** `{ ...current, ...patch }`: a supplied field takes its new value, every other field keeps the old one. */
  function Merged(current: UserSubscription, patch: SubscriptionPatch): (updated: UserSubscription)
    ensures patch.tier.Some? ==> updated.tier == patch.tier.value
    ensures patch.tier.None? ==> updated.tier == current.tier
    ensures patch.scansRemaining.Some? ==> updated.scansRemaining == patch.scansRemaining.value
    ensures patch.scansRemaining.None? ==> updated.scansRemaining == current.scansRemaining
    ensures patch.scansUsed.Some? ==> updated.scansUsed == patch.scansUsed.value
    ensures patch.scansUsed.None? ==> updated.scansUsed == current.scansUsed
    ensures patch.maxFreeScans.Some? ==> updated.maxFreeScans == patch.maxFreeScans.value
    ensures patch.maxFreeScans.None? ==> updated.maxFreeScans == current.maxFreeScans
  {
    UserSubscription(
      patch.tier.GetOr(current.tier),
      patch.scansRemaining.GetOr(current.scansRemaining),
      patch.scansUsed.GetOr(current.scansUsed),
      patch.maxFreeScans.GetOr(current.maxFreeScans))
  }

  /** Merging the same patch again changes nothing, and the empty patch is the identity. */
  lemma MergeIdempotent(current: UserSubscription, patch: SubscriptionPatch)
    ensures Merged(Merged(current, patch), patch) == Merged(current, patch)
    ensures Merged(current, NoChange) == current
  {
  }

  /** `history.unshift(scan)` then `slice(0, 50)`: the new scan first, then the old
      history in order, cut to the 50 most recent; duplicate ids are kept. */
  function Prepended(history: seq<ScanHistoryItem>, scan: ScanHistoryItem): (updated: seq<ScanHistoryItem>)
    ensures |updated| == Min(|history| + 1, MaxHistory)
    ensures updated[0] == scan
    ensures forall i :: 1 <= i < |updated| ==> updated[i] == history[i - 1]
  {
    ([scan] + history)[..Min(|history| + 1, MaxHistory)]
  }

  /** A history kept by `Prepended` alone never grows past the cap. */
  lemma {:induction false} HistoryStaysCapped(history: seq<ScanHistoryItem>, scans: seq<ScanHistoryItem>)
    requires |history| <= MaxHistory
    ensures |PrependedAll(history, scans)| <= MaxHistory
    ensures |scans| > 0 ==> PrependedAll(history, scans)[0] == scans[|scans| - 1]
    decreases |scans|
  {
    if |scans| > 0 {
      HistoryStaysCapped(history, scans[..|scans| - 1]);
    }
  }

  /** The history after adding `scans` one after the other. */
  function PrependedAll(history: seq<ScanHistoryItem>, scans: seq<ScanHistoryItem>): seq<ScanHistoryItem>
    decreases |scans|
  {
    if scans == [] then history else Prepended(PrependedAll(history, scans[..|scans| - 1]), scans[|scans| - 1])
  }

  /** What `useFreeScan` decides and the subscription it leaves behind. */
  datatype QuotaDecision = QuotaDecision(granted: bool, after: UserSubscription)

  /** A premium tier always passes unchanged; a free tier with no scans left is refused
      unchanged; otherwise one scan moves from remaining to used. */
  function FreeScanDecision(s: UserSubscription): (d: QuotaDecision)
    ensures s.tier == Premium ==> d == QuotaDecision(true, s)
    ensures s.tier == Free && s.scansRemaining <= 0 ==> d == QuotaDecision(false, s)
    ensures s.tier == Free && s.scansRemaining > 0 ==>
      d.granted && d.after.scansRemaining == s.scansRemaining - 1 && d.after.scansUsed == s.scansUsed + 1
    ensures d.after.tier == s.tier && d.after.maxFreeScans == s.maxFreeScans
    ensures d.after.scansRemaining + d.after.scansUsed == s.scansRemaining + s.scansUsed
    ensures d.granted <==> s.tier == Premium || s.scansRemaining > 0
  {
    if s.tier == Premium then QuotaDecision(true, s)
    else if s.scansRemaining <= 0 then QuotaDecision(false, s)
    else QuotaDecision(true, Merged(s, SubscriptionPatch(None, Some(s.scansRemaining - 1), Some(s.scansUsed + 1), None)))
  }

  /** The number of scans granted in `attempts` calls of `useFreeScan`, and the subscription after them. */
  function ScanRun(s: UserSubscription, attempts: nat): (nat, UserSubscription)
    decreases attempts
  {
    if attempts == 0 then (0, s)
    else
      var d := FreeScanDecision(s);
      var (granted, after) := ScanRun(d.after, attempts - 1);
      (granted + (if d.granted then 1 else 0), after)
  }

  /** On the free tier, any number of attempts is granted exactly as many scans as remained,
      and the counters move together. */
  lemma {:induction false} FreeQuotaIsExact(s: UserSubscription, attempts: nat)
    requires s.tier == Free && s.scansRemaining >= 0
    ensures ScanRun(s, attempts).0 == Min(attempts, s.scansRemaining)
    ensures ScanRun(s, attempts).1 ==
      s.(scansRemaining := s.scansRemaining - Min(attempts, s.scansRemaining),
         scansUsed := s.scansUsed + Min(attempts, s.scansRemaining))
    decreases attempts
  {
    if attempts > 0 {
      FreeQuotaIsExact(FreeScanDecision(s).after, attempts - 1);
    }
  }

  /** A fresh install gets three scans, then the fourth attempt is refused. */
  lemma DefaultQuota()
    ensures ScanRun(DefaultSubscription, 3).0 == 3
    ensures ScanRun(DefaultSubscription, 4).0 == 3
    ensures ScanRun(DefaultSubscription, 4).1 == UserSubscription(Free, 0, 3, 3)
  {
    FreeQuotaIsExact(DefaultSubscription, 3);
    FreeQuotaIsExact(DefaultSubscription, 4);
  }

  class Store {
    var entries: map<Key, Stored>

    ghost predicate Valid()
      reads this
    {
      forall k | k in entries :: Fits(k, entries[k])
    }

    /** An empty device store. */
    constructor ()
      ensures Valid() && entries == map[]
      ensures ScanHistory() == [] && Subscription() == DefaultSubscription
      ensures CurrentResume() == None && LastJd() == ""
    {
      entries := map[];
    }

    /** `getScanHistory`: the stored list, or `[]` when nothing is stored. */
    function ScanHistory(): (history: seq<ScanHistoryItem>)
      reads this
      requires Valid()
      ensures ScanHistoryKey !in entries ==> history == []
    {
      if ScanHistoryKey in entries then entries[ScanHistoryKey].items else []
    }

    /** `getSubscription`: the stored record, or the default free tier with 3 of 3 scans left. */
    function Subscription(): (subscription: UserSubscription)
      reads this
      requires Valid()
      ensures SubscriptionKey !in entries ==> subscription == DefaultSubscription
    {
      if SubscriptionKey in entries then entries[SubscriptionKey].subscription else DefaultSubscription
    }

    /** `getCurrentResume`: the stored analysis, or `null`. */
    function CurrentResume(): (analysis: Option<ResumeAnalysis>)
      reads this
      requires Valid()
      ensures analysis.None? <==> CurrentResumeKey !in entries
    {
      if CurrentResumeKey in entries then Some(entries[CurrentResumeKey].analysis) else None
    }

    /** `getLastJD`: the stored text, or `''`. */
    function LastJd(): (jd: string)
      reads this
      requires Valid()
      ensures LastJdKey !in entries ==> jd == ""
    {
      if LastJdKey in entries then entries[LastJdKey].text else ""
    }

    method AddScanToHistory(scan: ScanHistoryItem)
      requires Valid()
      modifies this
      ensures Valid()
      ensures entries == old(entries)[ScanHistoryKey := HistoryValue(ScanHistory())]
      ensures ScanHistory() == Prepended(old(ScanHistory()), scan)
    {
      var history := ScanHistory();
      history := [scan] + history;
      entries := entries[ScanHistoryKey := HistoryValue(history[..Min(|history|, MaxHistory)])];
    }

    method ClearScanHistory()
      requires Valid()
      modifies this
      ensures Valid()
      ensures entries == old(entries) - {ScanHistoryKey}
      ensures ScanHistory() == []
    {
      entries := entries - {ScanHistoryKey};
    }

    /** `updateSubscription`: merges the patch into what is stored and returns what it stored. */
    method UpdateSubscription(patch: SubscriptionPatch) returns (updated: UserSubscription)
      requires Valid()
      modifies this
      ensures Valid()
      ensures updated == Merged(old(Subscription()), patch)
      ensures entries == old(entries)[SubscriptionKey := SubscriptionValue(updated)]
      ensures Subscription() == updated
    {
      var current := Subscription();
      updated := Merged(current, patch);
      entries := entries[SubscriptionKey := SubscriptionValue(updated)];
    }

    /** `useFreeScan`: the store is written only when a free-tier scan is consumed. */
    method UseFreeScan() returns (granted: bool)
      requires Valid()
      modifies this
      ensures Valid()
      ensures granted == FreeScanDecision(old(Subscription())).granted
      ensures Subscription() == FreeScanDecision(old(Subscription())).after
      ensures old(Subscription()).tier == Free && granted ==>
        entries == old(entries)[SubscriptionKey := SubscriptionValue(Subscription())]
      ensures old(Subscription()).tier == Premium || !granted ==> entries == old(entries)
    {
      var subscription := Subscription();
      if subscription.tier == Premium {
        return true;
      }
      if subscription.scansRemaining <= 0 {
        return false;
      }
      var _ := UpdateSubscription(SubscriptionPatch(None, Some(subscription.scansRemaining - 1), Some(subscription.scansUsed + 1), None));
      return true;
    }

    method SaveCurrentResume(analysis: ResumeAnalysis)
      requires Valid()
      modifies this
      ensures Valid()
      ensures entries == old(entries)[CurrentResumeKey := ResumeValue(analysis)]
      ensures CurrentResume() == Some(analysis)
    {
      entries := entries[CurrentResumeKey := ResumeValue(analysis)];
    }

    method SaveLastJd(jd: string)
      requires Valid()
      modifies this
      ensures Valid()
      ensures entries == old(entries)[LastJdKey := JdValue(jd)]
      ensures LastJd() == jd
    {
      entries := entries[LastJdKey := JdValue(jd)];
    }

    /** `resetAllData`: all four keys are removed, so every getter gives its default again. */
    method ResetAllData()
      requires Valid()
      modifies this
      ensures Valid()
      ensures entries == map[]
      ensures ScanHistory() == [] && Subscription() == DefaultSubscription
      ensures CurrentResume() == None && LastJd() == ""
    {
      entries := entries - AllKeys;
      forall k: Key
        ensures k !in entries
      {
        match k
        case ScanHistoryKey =>
        case SubscriptionKey =>
        case CurrentResumeKey =>
        case LastJdKey =>
      }
    }
  }

  /** Two `useFreeScan` calls whose first `await`s (the reads of the subscription) both
      complete before either writes. Each reads one scan left, each is granted, and each
      writes the same decremented counters, so two scans are granted while the stored
      count drops by one. */
  method InterleavedUseFreeScan(store: Store) returns (first: bool, second: bool)
    requires store.Valid() && store.Subscription() == UserSubscription(Free, 1, 2, 3)
    modifies store
    ensures first && second
    ensures store.Valid() && store.Subscription() == UserSubscription(Free, 0, 3, 3)
  {
    var seenByFirst := store.Subscription();
    var seenBySecond := store.Subscription();
    first := seenByFirst.tier == Premium || seenByFirst.scansRemaining > 0;
    if seenByFirst.tier == Free && first {
      var _ := store.UpdateSubscription(
        SubscriptionPatch(None, Some(seenByFirst.scansRemaining - 1), Some(seenByFirst.scansUsed + 1), None));
    }
    second := seenBySecond.tier == Premium || seenBySecond.scansRemaining > 0;
    if seenBySecond.tier == Free && second {
      var _ := store.UpdateSubscription(
        SubscriptionPatch(None, Some(seenBySecond.scansRemaining - 1), Some(seenBySecond.scansUsed + 1), None));
    }
  }
}
