/** Which parts of the editor page are shown, as functions of the report
    (none, or the part received so far), whether a stream is running and
    whether premium access is unlocked. */
module Gating {
  import opened Types
  import opened ReportMerge
  import opened AppModel

  /** Truthiness of a report property's value: an empty string and null are
      falsy, any list or record is truthy. */
  predicate Truthy(v: Value) {
    match v
    case Text(s) => |s| > 0
    case Structured(_) => true
    case Null => false
  }

  /** The report carries a truthy executive summary, the sign that the
      analysis has produced its main content. */
  predicate SummaryPresent(r: Report) {
    ExecutiveSummary in r && Truthy(r[ExecutiveSummary])
  }

  /** The editor page is the one rendered: the landing, pricing and admin
      screens replace it entirely. */
  predicate EditorPageShown(screen: AppState) {
    screen != Landing && screen != Pricing && screen != AdminPanel
  }

  /** The paywall over the finished report. Any report counts, even an empty
      one. */
  function LockOverlayShown(report: Option<Report>, streaming: bool, unlocked: bool): (shown: bool)
    ensures unlocked ==> !shown
    ensures streaming ==> !shown
    ensures report.None? ==> !shown
    ensures report.Some? && !streaming && !unlocked ==> shown
  {
    report.Some? && !streaming && !unlocked
  }

  /** The button that starts an analysis (and, under the same condition, the
      reset button). */
  function GenerateButtonShown(report: Option<Report>, streaming: bool): (shown: bool)
    ensures report.Some? ==> !shown
    ensures streaming ==> !shown
    ensures report.None? && !streaming ==> shown
  {
    report.None? && !streaming
  }

  /** The processing view with its cancel button. */
  function ProcessingViewShown(report: Option<Report>, streaming: bool): (shown: bool)
    ensures !streaming ==> !shown
    ensures report.Some? && SummaryPresent(report.value) ==> !shown
    ensures streaming && report.None? ==> shown
    ensures streaming && report.Some? && !SummaryPresent(report.value) ==> shown
  {
    streaming && !(report.Some? && SummaryPresent(report.value))
  }

  /** The analysis view over the report. */
  function AnalysisViewShown(report: Option<Report>, streaming: bool): (shown: bool)
    ensures report.None? ==> !shown
    ensures report.Some? && SummaryPresent(report.value) ==> shown
    ensures report.Some? && streaming ==> shown
    ensures report.Some? && !SummaryPresent(report.value) && !streaming ==> !shown
  {
    report.Some? && (SummaryPresent(report.value) || streaming)
  }

  // ---------------------------------------------------------------------
  // Lemmas

  /** The generate button excludes every other element: it is shown only
      when there is nothing to gate or watch. */
  lemma GenerateButtonExclusive(report: Option<Report>, streaming: bool, unlocked: bool)
    ensures GenerateButtonShown(report, streaming) ==>
      && !LockOverlayShown(report, streaming, unlocked)
      && !ProcessingViewShown(report, streaming)
      && !AnalysisViewShown(report, streaming)
  {
  }

  /** Unlocked access never shows the paywall, whatever the report. */
  lemma OverlayNeverWhenUnlocked(report: Option<Report>, streaming: bool)
    ensures !LockOverlayShown(report, streaming, true)
  {
  }

  /** While fragments arrive, the paywall and the generate button are hidden
      and the analysis view is shown from the first instant; the processing
      view is shown beside it until a summary has arrived. */
  lemma ViewsWhileStreaming(m: App, fs: seq<Report>)
    ensures var s := DeliverAll(StartAnalysis(m), fs);
            && !LockOverlayShown(s.report, s.streaming, s.unlocked)
            && !GenerateButtonShown(s.report, s.streaming)
            && AnalysisViewShown(s.report, s.streaming)
            && (ProcessingViewShown(s.report, s.streaming) <==> !SummaryPresent(Assemble(fs)))
  {
    DeliverAllAfterStart(m, fs);
  }

  /** Once the stream has ended, the paywall is shown exactly when premium
      access is locked, and the analysis view exactly when a summary
      arrived. A stream that ended without a summary on an unlocked app thus
      leaves none of the four elements on the page. */
  lemma ViewsAfterStream(m: App, fs: seq<Report>)
    ensures var s := FinishStream(DeliverAll(StartAnalysis(m), fs));
            && (LockOverlayShown(s.report, s.streaming, s.unlocked) <==> !m.unlocked)
            && !GenerateButtonShown(s.report, s.streaming)
            && !ProcessingViewShown(s.report, s.streaming)
            && (AnalysisViewShown(s.report, s.streaming) <==> SummaryPresent(Assemble(fs)))
  {
    DeliverAllAfterStart(m, fs);
  }

  /** After the report is discarded only the generate button is shown. */
  lemma ViewsAfterDiscard(m: App)
    ensures var s := DiscardReport(m);
            && GenerateButtonShown(s.report, s.streaming)
            && !LockOverlayShown(s.report, s.streaming, s.unlocked)
            && !ProcessingViewShown(s.report, s.streaming)
            && !AnalysisViewShown(s.report, s.streaming)
  {
  }

  /** A successful payment return with a saved tree opens the editor page,
      and the paywall can no longer be shown on it. */
  lemma PaymentReturnOpensEditor(storage: Storage, report: Option<Report>, streaming: bool)
    requires storage.pendingNode.Some?
    ensures var back := Load(storage, Query(Some(SuccessStatus), Some(SecretToken)));
            EditorPageShown(back.screen) && !LockOverlayShown(report, streaming, back.unlocked)
  {
  }

  /** A cancel does not stop a fragment the service still delivers after the
      abort: the fragment is spread over the discarded report, and once the
      stream finishes the report holds just that fragment, so a locked app
      shows the paywall over a run the user cancelled. */
  lemma LateFragmentAfterCancel(m: App, fs: seq<Report>, partial: Report)
    ensures var s := FinishStream(Deliver(DiscardReport(DeliverAll(StartAnalysis(m), fs)), partial));
            && s.report == Some(partial) && !s.streaming
            && (LockOverlayShown(s.report, s.streaming, s.unlocked) <==> !m.unlocked)
            && !GenerateButtonShown(s.report, s.streaming)
  {
    LateFragmentAfterDiscard(DeliverAll(StartAnalysis(m), fs), partial);
  }

  /** Refining discards the report without aborting the stream, so a new
      run can start while the old one is still open. When the old run's
      stream then finishes, it clears the streaming flag of the new run:
      the new run's empty report is left with no stream, and a locked app
      shows the paywall over it. */
  lemma StaleFinishAfterRestart(m: App, fs: seq<Report>)
    ensures var s := FinishStream(StartAnalysis(DiscardReport(DeliverAll(StartAnalysis(m), fs))));
            && s.report == Some(Empty) && !s.streaming
            && (LockOverlayShown(s.report, s.streaming, s.unlocked) <==> !m.unlocked)
            && !GenerateButtonShown(s.report, s.streaming)
            && !ProcessingViewShown(s.report, s.streaming)
            && !AnalysisViewShown(s.report, s.streaming)
  {
  }
}
