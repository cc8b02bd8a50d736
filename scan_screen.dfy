/** The scan screen (client/screens/ScanScreen.tsx): picking a file and `handleAnalyze`,
    which checks the quota, consumes a scan, uploads the file and records the result. */
module ScanScreen {
  import opened Wrappers
  import opened ResumeTypes
  import opened Storage

  const OctetStream := "application/octet-stream"

  /** One asset as the document picker reports it; size and MIME type may be missing. */
  datatype PickedAsset = PickedAsset(name: string, size: Option<int>, uri: string, mimeType: Option<string>)

  datatype PickerResult = PickerResult(canceled: bool, assets: Option<seq<PickedAsset>>)

  datatype SelectedFile = SelectedFile(name: string, size: int, uri: string, mimeType: string)

  /** The file record kept for a picked asset: `size || 0` and `mimeType || 'application/octet-stream'`. */
  function SelectionOf(asset: PickedAsset): (file: SelectedFile)
    ensures file.name == asset.name && file.uri == asset.uri
    ensures asset.size.None? ==> file.size == 0
    ensures asset.size.Some? ==> file.size == asset.size.value
    ensures file.mimeType != ""
    ensures asset.mimeType.None? || asset.mimeType.value == "" ==> file.mimeType == OctetStream
    ensures asset.mimeType.Some? && asset.mimeType.value != "" ==> file.mimeType == asset.mimeType.value
  {
    var size := if asset.size.Some? && asset.size.value != 0 then asset.size.value else 0;
    var mimeType := if asset.mimeType.Some? && asset.mimeType.value != "" then asset.mimeType.value else OctetStream;
    SelectedFile(asset.name, size, asset.uri, mimeType)
  }

  /** The file a picker result selects: the first asset of a result that was not cancelled and has one. */
  function PickedFile(result: PickerResult): (picked: Option<SelectedFile>)
    ensures picked.Some? <==> !result.canceled && result.assets.Some? && |result.assets.value| > 0
    ensures picked.Some? ==> picked.value == SelectionOf(result.assets.value[0])
  {
    if !result.canceled && result.assets.Some? && |result.assets.value| > 0
    then Some(SelectionOf(result.assets.value[0]))
    else None
  }

  /** The history entry written after a successful analysis. */
  function HistoryEntry(analysis: ResumeAnalysis): (item: ScanHistoryItem)
    ensures item.id == analysis.id && item.fileName == analysis.fileName
    ensures item.score == analysis.atsScore && item.scannedAt == analysis.uploadedAt
    ensures item.resumeContent == Some(analysis.resumeContent)
  {
    ScanHistoryItem(analysis.id, analysis.fileName, analysis.atsScore, analysis.uploadedAt, Some(analysis.resumeContent))
  }

  /** A free tier with no scans left, which the screen sends to the upgrade page before trying. */
  predicate OutOfScans(subscription: UserSubscription) {
    subscription.tier == Free && subscription.scansRemaining <= 0
  }

  /** How `handleAnalyze` gets past its first `await`: it ignores the tap, sends the user to
      upgrade, or goes on with the selected file. */
  datatype GateOutcome = Ignored | GateUpgrade | Proceed(file: SelectedFile)

  /** What `fetch` of the analyze endpoint gives: a failure (network error or non-2xx
      status) or the analysis in the response body. */
  datatype UploadResult = UploadFailed | Uploaded(analysis: ResumeAnalysis)

  /** Where a tap of the analyze button ends. */
  datatype AnalyzeOutcome = NothingSelected | UpgradeRequired | AnalysisFailed | ReportShown(analysisId: string)

  class ScanScreen {
    var selectedFile: Option<SelectedFile>
    var isAnalyzing: bool

    constructor ()
      ensures selectedFile.None? && !isAnalyzing
    {
      selectedFile, isAnalyzing := None, false;
    }

    /** `handlePickDocument`: a usable pick replaces the selection, anything else keeps it. */
    method HandlePickDocument(result: PickerResult)
      modifies this
      ensures PickedFile(result).Some? ==> selectedFile == PickedFile(result)
      ensures PickedFile(result).None? ==> selectedFile == old(selectedFile)
      ensures isAnalyzing == old(isAnalyzing)
    {
      if !result.canceled && result.assets.Some? && |result.assets.value| > 0 {
        var file := result.assets.value[0];
        selectedFile := Some(SelectionOf(file));
      }
    }

    method HandleRemoveFile()
      modifies this
      ensures selectedFile.None? && isAnalyzing == old(isAnalyzing)
    {
      selectedFile := None;
    }

    /** `handleAnalyze` up to its first `await`'s continuation (lines 76-84): nothing
        selected does nothing; a free tier with no scans left goes to upgrade; otherwise
        the spinner starts. The store is only read. */
    method StartAnalyze(store: Store) returns (gate: GateOutcome)
      requires store.Valid()
      modifies this
      ensures selectedFile == old(selectedFile)
      ensures old(selectedFile).None? ==> gate == Ignored && isAnalyzing == old(isAnalyzing)
      ensures old(selectedFile).Some? && OutOfScans(store.Subscription()) ==>
        gate == GateUpgrade && isAnalyzing == old(isAnalyzing)
      ensures old(selectedFile).Some? && !OutOfScans(store.Subscription()) ==>
        gate == Proceed(old(selectedFile).value) && isAnalyzing
    {
      if selectedFile.None? {
        return Ignored;
      }
      var subscription := store.Subscription();
      if subscription.tier == Free && subscription.scansRemaining <= 0 {
        return GateUpgrade;
      }
      isAnalyzing := true;
      gate := Proceed(selectedFile.value);
    }

    /** The rest of `handleAnalyze` (lines 85-131). A scan is consumed first; a refusal goes
        to upgrade without uploading. A failed upload keeps the consumed scan and the
        selection. A successful one stores the analysis as the current résumé, puts its
        entry at the head of the history and clears the selection. The spinner stops on
        every path. `sent` is the file uploaded, if any. */
    method FinishAnalyze(store: Store, file: SelectedFile, upload: UploadResult)
      returns (outcome: AnalyzeOutcome, sent: Option<SelectedFile>)
      requires store.Valid()
      modifies this, store
      ensures store.Valid() && !isAnalyzing
      ensures store.Subscription() == FreeScanDecision(old(store.Subscription())).after
      ensures store.LastJd() == old(store.LastJd())
      ensures !FreeScanDecision(old(store.Subscription())).granted ==>
        && outcome == UpgradeRequired && sent.None?
        && store.entries == old(store.entries) && selectedFile == old(selectedFile)
      ensures FreeScanDecision(old(store.Subscription())).granted ==> sent == Some(file)
      ensures FreeScanDecision(old(store.Subscription())).granted && upload.UploadFailed? ==>
        && outcome == AnalysisFailed && selectedFile == old(selectedFile)
        && store.ScanHistory() == old(store.ScanHistory()) && store.CurrentResume() == old(store.CurrentResume())
      ensures FreeScanDecision(old(store.Subscription())).granted && upload.Uploaded? ==>
        && outcome == ReportShown(upload.analysis.id) && selectedFile.None?
        && store.CurrentResume() == Some(upload.analysis)
        && store.ScanHistory() == Prepended(old(store.ScanHistory()), HistoryEntry(upload.analysis))
    {
      var canScan := store.UseFreeScan();
      if !canScan {
        outcome, sent := UpgradeRequired, None;
        isAnalyzing := false;
        return;
      }
      sent := Some(file);
      if upload.UploadFailed? {
        outcome := AnalysisFailed;
        isAnalyzing := false;
        return;
      }
      var analysis := upload.analysis;
      store.SaveCurrentResume(analysis);
      store.AddScanToHistory(HistoryEntry(analysis));
      selectedFile := None;
      outcome := ReportShown(analysis.id);
      isAnalyzing := false;
    }

    /** `handleAnalyze` run to completion with no other tap in between. A tap that passes
        the gate always gets its scan, so the upload is sent; on the free tier the scan is
        spent even when the upload fails. */
    method HandleAnalyze(store: Store, upload: UploadResult) returns (outcome: AnalyzeOutcome, sent: Option<SelectedFile>)
      requires store.Valid()
      modifies this, store
      ensures store.Valid()
      ensures store.LastJd() == old(store.LastJd())
      ensures old(selectedFile).None? ==>
        && outcome == NothingSelected && sent.None? && store.entries == old(store.entries)
        && selectedFile == old(selectedFile) && isAnalyzing == old(isAnalyzing)
      ensures old(selectedFile).Some? && OutOfScans(old(store.Subscription())) ==>
        && outcome == UpgradeRequired && sent.None? && store.entries == old(store.entries)
        && selectedFile == old(selectedFile) && isAnalyzing == old(isAnalyzing)
      ensures old(selectedFile).Some? && !OutOfScans(old(store.Subscription())) ==>
        && sent == old(selectedFile) && !isAnalyzing
        && store.Subscription() == FreeScanDecision(old(store.Subscription())).after
        && (old(store.Subscription()).tier == Free ==>
              store.Subscription().scansRemaining == old(store.Subscription()).scansRemaining - 1)
        && (upload.UploadFailed? ==>
              && outcome == AnalysisFailed && selectedFile == old(selectedFile)
              && store.ScanHistory() == old(store.ScanHistory()) && store.CurrentResume() == old(store.CurrentResume()))
        && (upload.Uploaded? ==>
              && outcome == ReportShown(upload.analysis.id) && selectedFile.None?
              && store.CurrentResume() == Some(upload.analysis)
              && store.ScanHistory() == Prepended(old(store.ScanHistory()), HistoryEntry(upload.analysis)))
    {
      var gate := StartAnalyze(store);
      match gate
      case Ignored =>
        outcome, sent := NothingSelected, None;
      case GateUpgrade =>
        outcome, sent := UpgradeRequired, None;
      case Proceed(file) =>
        outcome, sent := FinishAnalyze(store, file, upload);
    }
  }

  /** Two taps whose gates both run before either consumes a scan (the button is disabled
      only once `isAnalyzing` is rendered), after which the first tap runs to the end
      before the second goes on. With one free scan left, both pass the gate, the first
      gets the scan and its report, and the second is refused by `useFreeScan` and sent
      to upgrade. */
  method InterleavedTaps(screen: ScanScreen, store: Store, upload: UploadResult)
    returns (first: AnalyzeOutcome, second: AnalyzeOutcome)
    requires store.Valid() && screen.selectedFile.Some?
    requires store.Subscription() == UserSubscription(Free, 1, 2, 3)
    requires upload.Uploaded?
    modifies screen, store
    ensures first == ReportShown(upload.analysis.id) && second == UpgradeRequired
    ensures store.Valid() && store.Subscription() == UserSubscription(Free, 0, 3, 3)
  {
    var firstGate := screen.StartAnalyze(store);
    var secondGate := screen.StartAnalyze(store);
    var firstSent, secondSent;
    first, firstSent := screen.FinishAnalyze(store, firstGate.file, upload);
    second, secondSent := screen.FinishAnalyze(store, secondGate.file, upload);
  }
}
