/** The state held by the top-level controller and the transitions it makes
    on its own: the payment-return unlock check run on load, and the
    analysis run that streams fragments into the report. The browser's
    key-value store is part of the state; the URL's query string is an
    input that the unlock check consumes. */
module AppModel {
  import opened Types
  import opened ReportMerge

  /** The tree the editor starts from. */
  const InitialNode := OrgNode(
    "root-ceo", "Liderança", "DIRETOR GERAL", "Direcionamento estratégico e visão de futuro.",
    [Kpi("Crescimento", 0.0, 100.0, "%")], [], Some(false))

  /** The shared secret the payment provider puts in the return URL. */
  const SecretToken := "SPOON_SUCCESS_2025"

  /** The status marker of a successful checkout. */
  const SuccessStatus := "success"

  /** The stored strings of the boolean flags. */
  const StoredTrue := "true"
  const StoredFalse := "false"

  /** The stored list of dossier requests: no entry (or an empty one), a
      list that parses, or text the request creation cannot extend (malformed
      text, or a JSON number, boolean, null or object, none of which can be
      spread into a list). */
  datatype StoredRequests = NoRequests | Stored(list: seq<DossierRequest>) | Unparsable

  /** The browser's key-value store. The pending tree is the tree saved when
      an analysis starts; `None` stands for no entry, an empty entry and an
      entry that fails to parse, which the unlock check treats alike. */
  datatype Storage = Storage(
    adminMode: Option<string>,
    premiumUnlocked: Option<string>,
    pendingNode: Option<OrgNode>,
    requests: StoredRequests)

  /** The two query parameters of the page URL the unlock check reads. */
  datatype Query = Query(status: Option<string>, token: Option<string>)

  /** The query string once it has been stripped from the URL. */
  const NoQuery := Query(None, None)

  /** The whole application state: the tree being edited, the screen, the
      (partial) report or none, whether a stream is running, the admin and
      premium flags, the page URL's query and the key-value store. */
  datatype App = App(
    root: OrgNode,
    screen: AppState,
    report: Option<Report>,
    streaming: bool,
    adminMode: bool,
    unlocked: bool,
    query: Query,
    storage: Storage)

  /** The URL carries the success marker and the secret token. */
  predicate PaymentConfirmed(q: Query) {
    q.status == Some(SuccessStatus) && q.token == Some(SecretToken)
  }

  /** The state before any effect has run: both flags read from storage. */
  function Initial(storage: Storage, query: Query): (m: App)
    ensures m.unlocked <==> storage.premiumUnlocked == Some(StoredTrue)
    ensures m.adminMode <==> storage.adminMode == Some(StoredTrue)
    ensures m.report == None && !m.streaming && m.screen == Landing && m.root == InitialNode
    ensures m.query == query && m.storage == storage
  {
    App(InitialNode, Landing, None, false, storage.adminMode == Some(StoredTrue),
        storage.premiumUnlocked == Some(StoredTrue), query, storage)
  }

  /** The payment-return check. With a confirmed payment the premium flag is
      set and stored, a saved pending tree becomes the edited tree and the
      editor opens, and the query is stripped from the URL; otherwise
      nothing changes. */
  function CheckUnlock(m: App): (r: App)
    ensures !PaymentConfirmed(m.query) ==> r == m
    ensures PaymentConfirmed(m.query) ==>
      && r.unlocked && r.storage.premiumUnlocked == Some(StoredTrue) && r.query == NoQuery
      && (m.storage.pendingNode.Some? ==> r.root == m.storage.pendingNode.value && r.screen == Editing)
      && (m.storage.pendingNode.None? ==> r.root == m.root && r.screen == m.screen)
    ensures r.report == m.report && r.streaming == m.streaming && r.adminMode == m.adminMode
    ensures r.storage.pendingNode == m.storage.pendingNode && r.storage.requests == m.storage.requests
    ensures r.storage.(premiumUnlocked := m.storage.premiumUnlocked) == m.storage
  {
    if PaymentConfirmed(m.query) then
      var u := m.(unlocked := true, storage := m.storage.(premiumUnlocked := Some(StoredTrue)), query := NoQuery);
      match m.storage.pendingNode
      case Some(saved) => u.(root := saved, screen := Editing)
      case None => u
    else
      m
  }

  /** The admin flag is written back to storage as "true" or "false". */
  function PersistAdminMode(m: App): (r: App)
    ensures r.storage.adminMode == Some(if m.adminMode then StoredTrue else StoredFalse)
    ensures r.(storage := m.storage) == m
    ensures r.storage.(adminMode := m.storage.adminMode) == m.storage
  {
    m.(storage := m.storage.(adminMode := Some(if m.adminMode then StoredTrue else StoredFalse)))
  }

  /** Page load: initial state, then the unlock check, then the admin flag
      written back. */
  function Load(storage: Storage, query: Query): (m: App)
    ensures m.report == None && !m.streaming
    ensures m.unlocked <==> storage.premiumUnlocked == Some(StoredTrue) || PaymentConfirmed(query)
    ensures m.adminMode <==> storage.adminMode == Some(StoredTrue)
    ensures m.storage.adminMode == Some(if storage.adminMode == Some(StoredTrue) then StoredTrue else StoredFalse)
    ensures PaymentConfirmed(query) ==> m.storage.premiumUnlocked == Some(StoredTrue) && m.query == NoQuery
    ensures !PaymentConfirmed(query) ==> m.storage.premiumUnlocked == storage.premiumUnlocked && m.query == query
    ensures PaymentConfirmed(query) && storage.pendingNode.Some? ==>
              m.root == storage.pendingNode.value && m.screen == Editing
    ensures !(PaymentConfirmed(query) && storage.pendingNode.Some?) ==> m.root == InitialNode && m.screen == Landing
    ensures m.storage.pendingNode == storage.pendingNode && m.storage.requests == storage.requests
  {
    PersistAdminMode(CheckUnlock(Initial(storage, query)))
  }

  /** Starting an analysis saves the tree for resumption after payment,
      marks the stream running and shows an empty report at once. */
  function StartAnalysis(m: App): (r: App)
    ensures r.streaming && r.report == Some(Empty)
    ensures r.storage.pendingNode == Some(m.root)
    ensures r.(streaming := m.streaming, report := m.report, storage := m.storage) == m
    ensures r.storage.(pendingNode := m.storage.pendingNode) == m.storage
  {
    m.(storage := m.storage.(pendingNode := Some(m.root)), streaming := true, report := Some(Empty))
  }

  /** One fragment arrives and is spread over the current report; a report
      that has been discarded counts as empty, so the fragment brings it
      back. */
  function Deliver(m: App, partial: Report): (r: App)
    ensures r.report.Some?
    ensures r.report.value.Keys == m.report.GetOr(Empty).Keys + partial.Keys
    ensures forall k :: k in partial ==> r.report.value[k] == partial[k]
    ensures forall k :: k in m.report.GetOr(Empty) && k !in partial ==> r.report.value[k] == m.report.GetOr(Empty)[k]
    ensures r.(report := m.report) == m
  {
    m.(report := Some(Merge(m.report.GetOr(Empty), partial)))
  }

  /** Fragments `fs` arrive one after the other. */
  function DeliverAll(m: App, fs: seq<Report>): (r: App)
    ensures |fs| == 0 ==> r == m
    ensures |fs| > 0 ==> r.report == Some(Merge(m.report.GetOr(Empty), Assemble(fs)))
    ensures r.(report := m.report) == m
    decreases |fs|
  {
    if |fs| == 0 then m
    else
      var n := |fs| - 1;
      MergeEmpty(fs[n]);
      MergeAssociative(m.report.GetOr(Empty), Assemble(fs[..n]), fs[n]);
      Deliver(DeliverAll(m, fs[..n]), fs[n])
  }

  /** The stream has ended, normally, by an error, or by cancellation. */
  function FinishStream(m: App): (r: App)
    ensures !r.streaming
    ensures r.(streaming := m.streaming) == m
  {
    m.(streaming := false)
  }

  /** The report is thrown away and streaming stops: cancelling a running
      analysis, going back to edit from the lock overlay, or asking to
      refine the analysis. */
  function DiscardReport(m: App): (r: App)
    ensures r.report == None && !r.streaming
    ensures r.(report := m.report, streaming := m.streaming) == m
  {
    m.(report := None, streaming := false)
  }

  /** The reset button: back to the initial tree, and the saved pending
      tree removed. */
  function Reset(m: App): (r: App)
    ensures r.root == InitialNode && r.storage.pendingNode == None
    ensures r.(root := m.root, storage := m.storage) == m
    ensures r.storage.(pendingNode := m.storage.pendingNode) == m.storage
  {
    m.(root := InitialNode, storage := m.storage.(pendingNode := None))
  }

  /** A whole analysis run over the fragments the service delivered before
      its stream ended, normally or by an error (a failed stream delivers a
      prefix of what it would have): the report ends as the assembly of the
      fragments, the stream is no longer running, and the tree is saved for
      resumption. A cancelled run is not of this shape: cancelling discards
      the report first (`DiscardReport`) and the stream then finishes, so it
      ends with no report (`CancelledRunEndsWithoutReport`). */
  method RunAnalysis(m: App, fs: seq<Report>) returns (r: App)
    ensures r.report == Some(Assemble(fs))
    ensures !r.streaming
    ensures r.storage.pendingNode == Some(m.root)
    ensures r.root == m.root && r.screen == m.screen && r.unlocked == m.unlocked
    ensures r.adminMode == m.adminMode && r.query == m.query
    ensures r.storage == m.storage.(pendingNode := Some(m.root))
  {
    r := StartAnalysis(m);
    var i := 0;
    while i < |fs|
      invariant 0 <= i <= |fs|
      invariant r.report == Some(Assemble(fs[..i]))
      invariant r == StartAnalysis(m).(report := r.report)
    {
      assert fs[..i + 1][..i] == fs[..i];
      r := Deliver(r, fs[i]);
      i := i + 1;
    }
    assert fs[..i] == fs;
    r := FinishStream(r);
  }

  // ---------------------------------------------------------------------
  // Lemmas

  /** The unlock check changes the state exactly when the URL confirms the
      payment. */
  lemma CheckUnlockChangesOnlyOnPayment(m: App)
    ensures CheckUnlock(m) != m <==> PaymentConfirmed(m.query)
  {
    if PaymentConfirmed(m.query) {
      assert CheckUnlock(m).query != m.query;
    }
  }

  /** Running the unlock check a second time changes nothing: the first run
      stripped the query it reads. */
  lemma CheckUnlockIdempotent(m: App)
    ensures CheckUnlock(CheckUnlock(m)) == CheckUnlock(m)
  {
  }

  /** The stream assembled over a run from the empty report is the
      assembly of the fragments. */
  lemma DeliverAllAfterStart(m: App, fs: seq<Report>)
    ensures DeliverAll(StartAnalysis(m), fs).report == Some(Assemble(fs))
    ensures DeliverAll(StartAnalysis(m), fs).streaming
  {
    if |fs| > 0 {
      MergeEmpty(Assemble(fs));
    }
  }

  /** Resumption after payment: the tree saved when an analysis started is
      the tree edited after the provider's redirect brings the user back
      with the secret token, whatever fragments arrived in between, and the
      premium flag is then stored. */
  lemma ResumeAfterPayment(m: App, fs: seq<Report>)
    ensures var saved := FinishStream(DeliverAll(StartAnalysis(m), fs)).storage;
            var back := Load(saved, Query(Some(SuccessStatus), Some(SecretToken)));
            back.root == m.root && back.screen == Editing && back.unlocked
            && back.storage.premiumUnlocked == Some(StoredTrue) && back.query == NoQuery
  {
  }

  /** Without the secret token the load leaves the tree, the screen and the
      premium flag as storage says. */
  lemma LoadWithoutToken(storage: Storage, status: Option<string>, token: Option<string>)
    requires token != Some(SecretToken)
    ensures Load(storage, Query(status, token)).root == InitialNode
    ensures Load(storage, Query(status, token)).screen == Landing
    ensures Load(storage, Query(status, token)).unlocked <==> storage.premiumUnlocked == Some(StoredTrue)
    ensures Load(storage, Query(status, token)).query == Query(status, token)
  {
  }

  /** A fragment that arrives after the report was discarded is not
      dropped: the report comes back holding exactly that fragment. */
  lemma LateFragmentAfterDiscard(m: App, partial: Report)
    ensures Deliver(DiscardReport(m), partial).report == Some(partial)
    ensures !Deliver(DiscardReport(m), partial).streaming
  {
    MergeEmpty(partial);
  }

  /** The reset button defeats resumption: after it, a payment return
      unlocks premium but finds no saved tree, so the initial tree and the
      landing screen remain. */
  lemma ResetCancelsResume(m: App)
    ensures var back := Load(Reset(m).storage, Query(Some(SuccessStatus), Some(SecretToken)));
            back.root == InitialNode && back.screen == Landing && back.unlocked
  {
  }

  /** Premium access, once unlocked by a payment return, stays unlocked on
      every later load, whatever its URL. */
  lemma UnlockPersistsAcrossReloads(storage: Storage, later: Query)
    ensures var first := Load(storage, Query(Some(SuccessStatus), Some(SecretToken)));
            first.unlocked && Load(first.storage, later).unlocked
  {
  }

  /** The admin flag read on load is the one the next load reads. */
  lemma AdminModeSurvivesReload(storage: Storage, q1: Query, q2: Query)
    ensures Load(Load(storage, q1).storage, q2).adminMode == Load(storage, q1).adminMode
  {
  }

  /** Cancelling a running analysis discards the report and the stream then
      finishes: whatever fragments arrived before, the run ends with no
      report and no stream, and the tree stays saved for resumption. */
  lemma CancelledRunEndsWithoutReport(m: App, fs: seq<Report>)
    ensures var s := FinishStream(DiscardReport(DeliverAll(StartAnalysis(m), fs)));
            s.report == None && !s.streaming && s.storage.pendingNode == Some(m.root) && s.root == m.root
  {
  }
}
