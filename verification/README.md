# Spoonlab org-chart editor: a Dafny model of the controller's logic

The Spoonlab editor lets a user draw a company hierarchy, send it to an
external analysis service that streams back a strategic report in
fragments, and unlock the full report after an external checkout. The
top-level controller (`App.tsx`) holds the only logic of its own. This
project models that logic over immutable datatypes and proves its
properties:

- the two whole-tree edits: marking the user's own position and adding a
  new parent above the root (`org_tree.dfy`);
- the assembly of the report from streamed fragments, a last-write-wins
  spread of optional properties folded from the empty report
  (`report_merge.dfy`);
- the application state around them: the payment-return unlock check run
  on load, starting, feeding, finishing and discarding an analysis, and the
  reset button (`app_state.dfy`);
- the conditions that show the paywall, the generate button, the
  processing view and the analysis view (`gating.dfy`);
- creating a dossier request with a four-digit access code
  (`requests.dfy`).

`types.dfy` holds the records of `types.ts`. The browser's key-value store is
a `Storage` value inside the state. The URL's query is a `Query` value that
the unlock check consumes. The random id, the random access code and the
clock are parameters. The analysis service is a finite sequence of
fragments.

Behaviour worth knowing, as the code has it:

- Cancelling a running analysis discards the report and stops streaming
  (App.tsx:178). The assembly itself never drops a property once merged
  (`ReportMerge.AssemblePrefixMonotone`). A fragment that is still delivered
  after the discard is spread over an empty report, so the report reappears
  holding just that fragment (`AppModel.LateFragmentAfterDiscard`).
- Refining an analysis (App.tsx:188) discards the report but does not abort
  the stream. The old run keeps delivering fragments, and when it finishes it
  clears the streaming flag even if a new run has started since
  (`Gating.StaleFinishAfterRestart`).
- Creating a request parses the stored list without catching a parse
  failure (App.tsx:106). A stored list that does not parse, or parses to
  a number, boolean, null or object that the spread at App.tsx:107 cannot
  extend, makes creation fail and appends nothing (`Requests.Outcome.StoredListUnparsable`). The
  other stored values fall back to their defaults instead.
- A stream that ends without a truthy executive summary, on an unlocked
  app, leaves none of the four page elements shown. There is no generate
  button, no processing view, no analysis view and no paywall
  (`Gating.ViewsAfterStream`).
- Any report hides the generate button, even an empty one. JavaScript
  treats `{}` as truthy.

## Model

| member | source | states |
|---|---|---|
| OrgTree.SetUserPosition | App.tsx:59-65 | every node of the result has `isUserPosition` set to whether its id is the target, and the result has the original's shape: same ids, names, roles, functions, KPIs and children in the same order |
| OrgTree.SetUserPositionSingleSelection | App.tsx:59-65 | the number of marked nodes equals the number of nodes with the target id, so with unique ids exactly one node is marked when the target occurs and none when it does not; size, depth and id uniqueness are kept |
| OrgTree.SetUserPositionFixpoint | App.tsx:60-64 | a tree whose marks already follow the target is returned unchanged |
| OrgTree.SetUserPositionIdempotent | App.tsx:60-64 | setting the same position twice equals setting it once |
| OrgTree.SetUserPositionCharacterised | App.tsx:60-64 | any tree of the original's shape whose marks follow the target is the result, so nothing but the marks changes |
| OrgTree.AddParent | App.tsx:68-78 | the new root has the given id, the fixed name, role and functions, no KPIs, is unmarked and has exactly the old root as its only child; node count and depth grow by one, marks are unchanged, and the new id is counted once more |
| OrgTree.AddParentUniqueIds | App.tsx:68-78 | ids stay unique after adding a parent exactly when they were unique and the fresh id did not occur in the tree |
| OrgTree.AddParentThenSetUserPosition | App.tsx:59-78 | below a new parent whose id differs from the target, setting the position marks the old tree as it would have been marked alone, and leaves the new parent unmarked |
| ReportMerge.Merge | App.tsx:91 | the merged report has the properties of both; a property the fragment carries takes the fragment's value, any other keeps the previous value |
| ReportMerge.MergeIdempotent | App.tsx:91 | spreading the same fragment twice equals spreading it once |
| ReportMerge.MergeAssociative | App.tsx:91 | two fragments in a row equal the second spread over the first, spread over the report |
| ReportMerge.MergeEmpty | App.tsx:84-91 | the empty report is a left and right identity of the merge |
| ReportMerge.MergeOrderMatters | App.tsx:91 | a summary "1" then "2" gives "2", the reverse gives "1": the merge is not commutative |
| ReportMerge.Assemble | App.tsx:84-92 | the report after a stream, folded from the empty report: every fragment's properties are in it, the last fragment's values win, and no fragments give the empty report |
| ReportMerge.AssembleKeys | App.tsx:84-92 | a property is in the assembled report exactly when some fragment of the stream carried it |
| ReportMerge.AssembleIsLastWriteWins | App.tsx:84-92 | the assembled value of a property is the one given by the last fragment that carries it |
| ReportMerge.LastWriteUnique | App.tsx:90-92 | the last-write value of a property is unique, so the assembled report is determined by the stream |
| ReportMerge.AssembleAppend | App.tsx:90-92 | assembling a stream in two parts and merging the two results equals assembling it whole |
| ReportMerge.AssemblePrefixMonotone | App.tsx:90-92 | every property present after a prefix of the stream is present after any longer prefix, with the same value unless a fragment in between carried it; merged fragments are never removed |
| AppModel.Initial | App.tsx:27-32 | the premium and admin flags are on exactly when storage holds "true"; no report, not streaming, landing screen, initial tree; the state carries the given storage and query unchanged |
| AppModel.CheckUnlock | App.tsx:42-54 | without the success status and the secret token nothing changes; with them premium is unlocked and stored, the query is stripped, a saved tree becomes the root with the editor screen, and without one root and screen stay; the report, the stream, the admin flag and every stored key but the premium flag are untouched |
| AppModel.CheckUnlockChangesOnlyOnPayment | App.tsx:42-54 | the unlock check changes the state if and only if the status is "success" and the token is the secret |
| AppModel.CheckUnlockIdempotent | App.tsx:42-54 | a second unlock check changes nothing |
| AppModel.PersistAdminMode | App.tsx:57 | the admin flag is stored as "true" or "false" and nothing else changes |
| AppModel.Load | App.tsx:27-57 | a load has no report and no stream; it is unlocked exactly when storage holds "true" or the URL confirms payment; the admin flag is read from storage and written back as "true" or "false"; a confirmed payment stores the premium flag and strips the query, otherwise both stay; with a confirmed payment and a saved tree the saved tree is edited on the editor screen, otherwise the initial tree on the landing screen; the pending tree and the request list stay |
| AppModel.StartAnalysis | App.tsx:80-84 | the current tree is saved as the pending tree, streaming starts and the report is the empty report; nothing else changes |
| AppModel.Deliver | App.tsx:91 | the report afterwards holds the fragment's properties with the fragment's values and keeps every other property of the previous report, an absent report counting as empty |
| AppModel.DeliverAll | App.tsx:90-92 | after a non-empty stream the report is the assembly of the stream spread over the previous report; only the report changes |
| AppModel.DeliverAllAfterStart | App.tsx:84-92 | after starting an analysis and receiving fragments, the report is exactly their assembly and streaming is on |
| AppModel.FinishStream | App.tsx:95-97 | streaming is off afterwards, whether the stream ended, failed or was cancelled; nothing else changes |
| AppModel.DiscardReport | App.tsx:178 | cancelling (and likewise going back from the paywall, App.tsx:157, or refining, App.tsx:188) leaves no report and no stream; nothing else changes |
| AppModel.Reset | App.tsx:141 | the tree is the initial tree and the pending tree is removed from storage; nothing else changes |
| AppModel.RunAnalysis | App.tsx:80-98 | a run whose stream ends normally or by an error (App.tsx:88-97) ends with the report equal to the assembly of the delivered fragments, not streaming, storage equal to the old storage with the tree saved as pending, and tree, screen, flags and query unchanged |
| AppModel.ResumeAfterPayment | App.tsx:42-54 | the tree saved when an analysis started is the edited tree, on the editor screen and unlocked, after a return with the secret token, whatever fragments arrived |
| AppModel.LoadWithoutToken | App.tsx:32-42 | without the secret token the load keeps the initial tree, the landing screen, the stored premium flag and the query |
| AppModel.LateFragmentAfterDiscard | App.tsx:91 | a fragment delivered after the report was discarded brings the report back holding exactly that fragment |
| AppModel.CancelledRunEndsWithoutReport | App.tsx:178 | a run cancelled after any fragments (the report discarded at App.tsx:178, then the stream finished at App.tsx:95-97) ends with no report and no stream, with the tree still saved as pending |
| AppModel.ResetCancelsResume | App.tsx:141 | after a reset, a payment return unlocks premium but restores no tree: the initial tree and the landing screen remain |
| AppModel.UnlockPersistsAcrossReloads | App.tsx:32-44 | once a payment return has unlocked premium, every later load is unlocked whatever its URL |
| AppModel.AdminModeSurvivesReload | App.tsx:31-57 | the admin flag a load reads is the one the next load reads |
| Gating.GenerateButtonExclusive | App.tsx:147-182 | when the generate button shows, the paywall, the processing view and the analysis view do not |
| Gating.OverlayNeverWhenUnlocked | App.tsx:147 | the paywall is never shown once premium is unlocked |
| Gating.ViewsWhileStreaming | App.tsx:147-182 | while fragments arrive the paywall and generate button are hidden, the analysis view is shown, and the processing view is shown exactly when the report assembled so far has no truthy summary |
| Gating.ViewsAfterStream | App.tsx:147-182 | after the stream ends the paywall shows exactly when premium is locked, the generate button and processing view are hidden, and the analysis view shows exactly when a truthy summary arrived |
| Gating.ViewsAfterDiscard | App.tsx:147-182 | after a discard only the generate button is shown |
| Gating.LateFragmentAfterCancel | App.tsx:176-178 | a fragment the loop at App.tsx:90-97 still receives after the cancel aborted it brings the report back as exactly that fragment once the stream finishes, so the paywall shows over the cancelled run exactly when premium is locked |
| Gating.StaleFinishAfterRestart | App.tsx:80-97 | when the run left open by a refine (App.tsx:188, which does not abort) finishes after a new run started, the new run's empty report is left without a stream: the paywall shows exactly when premium is locked, and the generate button, processing view and analysis view are hidden |
| Gating.PaymentReturnOpensEditor | App.tsx:111-113 | a successful return with a saved tree lands on the editor page, where the paywall can then not be shown |
| Gating.LockOverlayShown | App.tsx:147 | the paywall is hidden when premium is unlocked, while streaming, or without a report, and shown when there is a report, no stream and no unlock |
| Gating.GenerateButtonShown | App.tsx:168 | the generate button (and the reset button, App.tsx:141) is hidden when there is a report or a stream, and shown when there is neither |
| Gating.ProcessingViewShown | App.tsx:176 | the processing view is hidden when not streaming or when the report has a truthy executive summary, and shown while streaming with no report or a report without one |
| Gating.AnalysisViewShown | App.tsx:182 | the analysis view is hidden without a report, shown with a report that has a truthy executive summary or while streaming, and hidden for a report without one once streaming stops |
| Requests.DecimalString | App.tsx:102 | the access code text is a non-empty string of decimal digits without a leading zero |
| Requests.DecimalRoundTrip | App.tsx:102 | reading the access code text back gives the drawn number |
| Requests.DecimalLength | App.tsx:102 | a number is written with at most k digits exactly when it is below ten to the k |
| Requests.FourDigitCodes | App.tsx:102 | the code text has four digits exactly when the number is from 1000 to 9999 |
| Requests.CreateRequest | App.tsx:100-109 | an unparsable stored list fails; otherwise exactly one request is appended after the stored ones, with the given id, timestamp and user data, the report or an empty one, no receipt, status pending payment and a four-digit code reading back as the drawn number; the receipt returns the same id and code, and nothing else changes |
| Requests.CreateRequestKeepsEarlier | App.tsx:106-107 | two requests in a row grow the list by two and keep the first request list as a prefix |
| Requests.RequestSnapshotsPartialReport | App.tsx:104 | a request made during a stream carries the report assembled so far |

## Left out

- Rendering, hooks and JSX are left out, and so are the navigation handlers between the landing, pricing, admin and editor screens and the admin toggle (App.tsx:111-198). They are presentation; only the element conditions at App.tsx:141-182 are modelled.
- `Analyzing` and `ViewingReport` exist in the screen enumeration but no modelled code sets them.
- The key-value store, the URL and `window.open` are I/O. Storage is a value in the state, and the query string is a two-parameter value. Stripping the URL resets that value; other URL parameters are not modelled.
- JSON serialisation and parsing are left out. The saved tree is taken to read back as the tree that was saved. An absent, empty or unparsable saved tree is `None`. A saved entry that parses to null, which the code would install as the root, is not modelled.
- The analysis service, the abort controller and the asynchronous loop are left out. The service is the finite sequence of fragments it delivered before it ended. A failed stream is a shorter sequence followed by `FinishStream`. A cancelled stream is `DiscardReport` (App.tsx:178) followed by `FinishStream` (App.tsx:95-97). It ends with no report unless the service still delivers a fragment after the abort (`AppModel.LateFragmentAfterDiscard`, `Gating.LateFragmentAfterCancel`). Refining (App.tsx:188) discards the report without aborting the stream, so the old run keeps delivering and its `finally` (App.tsx:95-97) can clear the streaming flag of a run started after it (`Gating.StaleFinishAfterRestart`). Runs that overlap this way are modelled only as the sequences of these transitions that the two lemmas state, not as interleavings of two asynchronous loops.
- The scroll timer (App.tsx:86) and the error log (App.tsx:94) have no effect on state.
- Random ids, random access codes and the clock are parameters. The code is assumed from 1000 to 9999, which is the range the source's draw produces. The id's base-36 shape is not constrained.
- Proposed org chart, agents, dossier sections, bottlenecks and crown gems are opaque `Structured` values. Their inner fields are not read by the modelled code.
- KPI values are reals, not floating-point numbers; no modelled code computes with them.
- The fallback to an empty child list for a node without `children` (App.tsx:63) is left out: children are always a sequence in the model.
- React's batching of state updates is left out: each handler is one transition of the whole state.
- A stored request list that is malformed text, or parses to a JSON number, boolean, null or object, is `Unparsable`. Each makes `JSON.parse` or `[...requests, …]` throw at App.tsx:106-107.
- A stored request list that parses to a JSON string is not modelled. The spread at App.tsx:107 splits the string into its characters and appends the request after them, so creation succeeds; the model has no stored value of that kind.
