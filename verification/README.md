# Proofs about an AWS terminal toolkit

The program is a set of terminal screens and reports over AWS accounts. This
project models the parts of it whose behaviour is hardest to see from one
function, and proves what they promise:

- **Log streaming** (`LogMerge`, `MergeTails`, `MergeTies`, `LogFetch`, `LogViewer`,
  `ViewerProtocol`). Pages are trimmed to a tail as they arrive, the results of
  several patterns are merged, and a long-lived viewer polls a growing log with
  several replies in flight. The merge, the page loops, the download and the
  viewer's methods are imperative and proved equal to short functions; the
  theorems are about those functions and about every interleaving of publish,
  issue, answer, fail and deliver steps.
- **Key order of JSON objects** (`JsonKeyOrder`). The two-variable token machine
  on every JSON value and every trailing text, and the column list built from
  many events.
- **The bill** (`Billing`, `BillRefresh`). Aggregation over pages, the display
  order, deltas between two bills, and the refresh loop as a protocol of
  fetches, timers and key presses.
- **Concurrent enrichment** (`Enrichment`). Semaphore, wait group and
  lock-guarded merge as interleaved steps of goroutines, for one region and for
  all of them.
- **Algorithms with a specification unlike their code**: inventory diff
  (`SnapshotDiff`), ring buffer (`DebugSink`), greedy wrapping by words and by
  cells (`WordWrap`, `LineWrap`), tile layout (`PanelGrid`), panning
  (`EventPanning`), explorer navigation (`Explorer`), resource names (`Arn`) and
  decimal numbers (`Decimal`).

`Sequences`, `Ordering`, `Arithmetic` and `Options` hold shared vocabulary:
tails, flattening, stable sorting by a comparison, Go's string order, remainders.

Replies, failures, clock readings and deadlines are parameters: a log query or a
cost query is a function from page number to reply, and every such function is
covered.

## Where the code and its documentation differ

The model follows the code. Where a comment promises more, the exact condition
under which the promise holds is proved.

- `GetLogEventsSince` reads oldest first and stops after 20 pages, so it keeps
  the most recent events exactly when nothing lies beyond page 20
  (`LogFetch.NewestIffPagesSuffice`, `LogFetch.LongFeedMissesNewest`).
- The viewer polls over a moving lookback window until it has shown an event.
  Two such polls can be out at once, and if their windows differ by an event and
  the second one's reply arrives first, the older event is appended below the
  newer one (`ViewerProtocol.OvertakenBackfillBreaksOrder`). A run shows
  consecutive log events throughout exactly when every reply with events that
  reaches a non-empty screen starts within what was shown or right behind it
  (`ViewerProtocol.SessionConsecutiveIff`). When no log event falls between the
  lookback windows and no pages read hold more than the fetch limit, that is always
  so, and every event of the window is shown once (`ViewerProtocol.ExactlyOnce`).
- A poll asks from the newest shown instant on and stops after 20 pages. When these
  hold nothing beyond the events of that instant already shown, the view and so
  every later poll stay as they are, however far the log has grown
  (`ViewerProtocol.ViewerStalls`); a poll within the fetch limit changes the view
  exactly when its pages get past those events (`ViewerProtocol.PollAdvancesIff`).
- `jsonKeyOrder` is described as exact. Brackets do not change its depth, so it is
  exact when no member but the last holds an array and that one has no string
  right after a non-array item. Otherwise it is wrong, unless from the first array
  on a string that is a top-level value, or stands in a top-level array, repeats a
  member name and is taken for it (`JsonKeyOrder.KeyOrderIff`,
  `JsonKeyOrder.EchoHidesLoss`, `JsonKeyOrder.ValueHidesLoss`).
- The comment on `panEventsTable` says the two directions retrace each other. They
  take equally many presses, and stop at the same offsets exactly when the longest
  message has a multiple of 40 runes or at most 80 (`EventPanning.RetraceIff`).
- `Sink.dropped` is commented as counted since the last snapshot; the code counts
  since the last reset, as the comment on `Dropped` has it.
- Closing the per-resource overlay while its fetch is out leaves `resFetching` set
  for good (`BillRefresh.DrillDownCanDie`): the drill-down comes back exactly when
  the reply finds its overlay open, or belongs to a service without a name
  (`BillRefresh.DrillDownRecoversIff`).
- The explorer drops late stream lists so that the streams shown belong to the
  selected group. Filtering the groups moves the selection without clearing the
  streams, so another group's can stay listed (`Explorer.FilteringMisleads`); the
  two match exactly as long as no filtering moves the cursor while streams are
  listed (`Explorer.StreamsMatchGroupIff`).
- `wrapLine` drops text in widths below two cells only; the viewer never goes below
  twenty (`LineWrap.LosslessIffTwoCells`).
- `atoi64` reads a negative number as 0, and `itoa` prints the smallest 64-bit
  number as a bare minus sign (`Decimal.RoundTripIffNonNegative`).
- `ParseARN` recovers what `EC2ARN` and `SQSARNFromURL` were given exactly when
  no needed part is empty and none holds a delimiter that matters
  (`Arn.EC2RoundTripIff`, `Arn.QueueRoundTripIff`).

## Model

| member | source | states |
|---|---|---|
| `LogMerge.MergeDedupeSort` | internal/cwtui/cw.go:238-263 | the loops, the sort and the cap produce the merge that the theorems below are about |
| `LogMerge.UnseenMembers` | internal/cwtui/cw.go:242-254 | with identified, consistent events, deduplication keeps every event whose id is new, loses none, and lists no id twice |
| `LogMerge.SortSorts` | internal/cwtui/cw.go:255-257 | the merged timeline is in timestamp order and a permutation of what was merged |
| `LogMerge.SortIsStable` | internal/cwtui/cw.go:255-257 | events of one timestamp keep the order they were merged in |
| `MergeTails.MergedSet` | internal/cwtui/cw.go:236-263 | the uncapped merge is sorted and has, from any instant on, exactly as many events as there are distinct ones in the batches |
| `MergeTails.MergedMembers` | internal/cwtui/cw.go:236-263 | the uncapped merge holds an event if and only if some batch does; a capped one invents none |
| `MergeTails.TailOfMergeTimes` | internal/cwtui/cw.go:259-290 | trimming each pattern to its newest `limit` before merging shows the same timestamps as merging everything, ties or not |
| `MergeTies.TailOfMergeWhole` | internal/cwtui/cw.go:259-290 | unless the cap splits a group of equal timestamps, the trimmed merge is the same events in the same order |
| `MergeTies.TailOfMerge` | internal/cwtui/cw.go:259-290 | in particular when all timestamps differ |
| `MergeTies.TailOfMergeWithTies` | internal/cwtui/cw.go:259-290 | when the cap does split one, everything newer than the oldest kept instant is still identical |
| `MergeTies.TailOfMergeIff` | internal/cwtui/cw.go:259-290 | exactly when trimming first does not show: with m events kept of the oldest kept instant, if and only if the last m events of that instant are the same among the batches as among their tails |
| `MergeTies.TiesCanDiffer` | internal/cwtui/cw.go:259-290 | at the oldest kept instant itself the two may show different events |
| `LogFetch.FetchPages` | internal/cwtui/cw.go:400-415 | trimming page by page gives the newest `limit` of all pages read; a failed page fails the fetch |
| `LogFetch.GetLogEventsSince` | internal/cwtui/cw.go:378-416 | the newest `limit` events of the first twenty pages |
| `LogFetch.WindowMeansPages` | internal/cwtui/cw.go:378-416 | a fetch fails if and only if one of the pages it comes to does; otherwise it holds exactly the events on them |
| `LogFetch.WindowJoinsPages` | internal/cwtui/cw.go:400-415 | page after page |
| `LogFetch.NewestIffPagesSuffice` | internal/cwtui/cw.go:378-416 | these are the newest of the whole window if and only if nothing lies beyond the twentieth page |
| `LogFetch.LongFeedMissesNewest` | internal/cwtui/cw.go:378-416 | for feeds of more than twenty pages of one event each, whatever the limit, the newest events are missed |
| `LogFetch.GetLogEventsSinceMulti` | internal/cwtui/cw.go:265-290 | merge of the per-pattern tails; every event returned is on one of the first twenty pages of a pattern asked for, no pattern meaning the empty one; a pattern is named as failed if and only if one of its pages fails |
| `LogFetch.ShortResultIsComplete` | internal/cwtui/cw.go:265-290 | when fewer than `limit` events come back, every event on the pages read is among them |
| `LogFetch.UnionInOrder` | internal/cwtui/cw.go:259-290 | all patterns' windows merged hold exactly the events on the first twenty pages of those that do not fail, in time order, each once |
| `LogFetch.MultiFetchIsTailOfAll` | internal/cwtui/cw.go:265-290 | the result is the newest `limit` of that, unless the limit splits a group of equal timestamps |
| `LogFetch.MergeOfOne` | internal/cwtui/cw.go:265-290 | a single pattern's events come back as they were fetched |
| `LogFetch.DownloadPattern` | internal/cwtui/cw.go:345-376 | pages are collected until the feed ends, the cap is reached or the deadline has passed |
| `LogFetch.CollectMeans` | internal/cwtui/cw.go:340-376 | not truncated means the complete window; truncated means its first 50000, and is reported whenever anything is missing |
| `LogFetch.CollectMeansPages` | internal/cwtui/cw.go:345-376 | told by the pages: a download fails if and only if a page it comes to fails or the deadline has passed first, and is flagged if and only if a page takes it past 50000, or to 50000 with more to come |
| `LogFetch.CollectHoldsPages` | internal/cwtui/cw.go:345-376 | it holds nothing but what is on its pages, and, unflagged, all of it up to the last page |
| `LogFetch.DownloadLogEvents` | internal/cwtui/cw.go:298-338 | fails if and only if the pages of a pattern asked for make it fail; otherwise holds only events on their pages, the newest 50000 of the merge, flagged if and only if a pattern or the merge was cut; unflagged, the merge of the complete windows |
| `LogFetch.UntruncatedDownloadIsComplete` | internal/cwtui/cw.go:298-338 | an unflagged download read every pattern to its last page and has each event on their pages once, in time order, and nothing else |
| `LogViewer.Viewer.Open` | internal/cwtui/logviewer.go:110-139 | opening forgets every event, every id and the last timestamp |
| `LogViewer.Viewer.Append` | internal/cwtui/logviewer.go:141-168 | a batch adds its unseen events at the end, remembers their ids, raises the last timestamp, and the oldest fall off past 10000 |
| `LogViewer.NewestIsLargest` | internal/cwtui/logviewer.go:143-156 | the last timestamp is the largest of those seen, whatever their order |
| `LogViewer.Viewer.HandleEvents` | internal/cwtui/logviewer.go:531-551 | a reply for a closed or re-targeted viewer changes nothing; any other is appended, the first one ends loading |
| `LogViewer.Viewer.PollStart` | internal/cwtui/logviewer.go:512-519 | a poll starts at the newest event seen, or at the lookback window when it is the first or nothing was seen |
| `ViewerProtocol.AnswerIsFetched` | internal/cwtui/logviewer.go:512-523 | the answer used in the protocol is what fetching the viewer's pattern returns when the pages read, twenty at most, hold the first so many matches |
| `ViewerProtocol.DeliveryKeepsRunIff` | internal/cwtui/logviewer.go:143-168 | appending a reply leaves consecutive log events on screen if and only if it starts within the shown run or right behind it |
| `ViewerProtocol.TimelyReplyJoins` | internal/cwtui/logviewer.go:512-551 | the matches of a poll issued at a shown instant never start behind the shown run, and they start within it if and only if the event before the run is older than that instant |
| `ViewerProtocol.SessionConsecutiveIff` | internal/cwtui/logviewer.go:110-551 | for any interleaving from opening on, replies cut by the page cap or the fetch limit included: the screen shows consecutive log events throughout if and only if every non-empty reply that reaches a non-empty screen starts within what was shown or right behind it |
| `ViewerProtocol.ExactlyOnce` | internal/cwtui/logviewer.go:110-551 | for any interleaving of overlapping polls, failures and growth of the log in which no pages hold more than the fetch limit and no log event falls between the lookback windows: the view is that of the log from the start of the window to the last event delivered, each event once, in log order, the newest 10000 kept |
| `ViewerProtocol.WindowOnlyGrows` | internal/cwtui/logviewer.go:143-551 | from any point of such a run the end of what is shown never moves back |
| `ViewerProtocol.SessionShowsLogRun` | internal/cwtui/logviewer.go:110-551 | also when answers are cut and windows move: under the very condition of `ViewerProtocol.SessionConsecutiveIff` the view is that of exactly the delivered events, consecutive in the log and each shown once |
| `ViewerProtocol.PollInThreeSteps` | internal/cwtui/logviewer.go:512-551 | a poll issued, answered and delivered with nothing in between adds the stretch of the log that the next rows are about |
| `ViewerProtocol.PollReaches` | internal/cwtui/logviewer.go:512-551 | such a poll whose pages hold some event shows the run up to where the pages ended if its reply starts within the run or right behind it, and no run of the log at all otherwise |
| `ViewerProtocol.PollCatchesUp` | internal/cwtui/model.go:335-339 | a poll within the fetch limit whose pages hold all matches brings the view up to the end of the log, unless the event before the run shares the newest shown timestamp: then the screen shows no run of the log any more |
| `ViewerProtocol.ViewerStalls` | internal/cwtui/cw.go:400-415 | a poll whose pages hold nothing but events already shown leaves the view and the start of the next poll as they are, however the log grows |
| `ViewerProtocol.PollAdvancesIff` | internal/cwtui/cw.go:400-415 | a poll within the fetch limit changes the view if and only if its pages get past the shown events it asks for again |
| `ViewerProtocol.OvertakenBackfillBreaksOrder` | internal/cwtui/logviewer.go:512-551 | a run of two backfill polls whose replies cross ends out of time order |
| `JsonKeyOrder.KeyOrder` | internal/cwtui/events_json.go:63-105 | the loop over depth and expectKey computes the scan that the next rows characterise |
| `JsonKeyOrder.KeyOrderIff` | internal/cwtui/events_json.go:60-105 | on every object, whatever follows it, the scan returns the member names in order if only the last member may be an array, and a quiet one; and only if, unless from the first array on a string that is a top-level value or in a top-level array repeats a member name |
| `JsonKeyOrder.FlatObjectsKeepKeyOrder` | internal/cwtui/events_json.go:60-105 | in particular for objects whose top-level values are scalars and objects, arrays allowed below |
| `JsonKeyOrder.ArrayBreaksKeyOrder` | internal/cwtui/events_json.go:86-88 | `{"a":["x","y"],"b":1}` yields a, y |
| `JsonKeyOrder.EchoHidesLoss` | internal/cwtui/events_json.go:86-88 | `{"a":["x","b"],"b":1}` yields the right names for the wrong reason |
| `JsonKeyOrder.ValueHidesLoss` | internal/cwtui/events_json.go:86-97 | `{"a":[],"c":"c"}` yields the right names, the second from a value |
| `JsonKeyOrder.AnalyzeEvents` | internal/cwtui/events_json.go:143-163 | one view per event with its fields and text; the column list is the first-appearance union over all JSON events; the flags tell whether any event had JSON or other text |
| `JsonKeyOrder.KeysFollowEvents` | internal/cwtui/events_json.go:143-163 | the keys come from the events with an object, in the order of the events |
| `JsonKeyOrder.UnionInFirstAppearanceOrder` | internal/cwtui/events_json.go:139-163 | that union holds exactly the keys that occur, in the order of their first occurrence |
| `JsonKeyOrder.ColumnsFollowDocuments` | internal/cwtui/events_json.go:139-163 | for documents whose key order is recovered, the columns come from the documents' own members in document order |
| `WordWrap.WrapText` | internal/emrdoctor/render.go:107-126 | the loop joins the words of the greedy split; splitting the lines returned at their blanks gives the words back in order, and each line fits or is one word |
| `WordWrap.WordStandsAt` | internal/emrdoctor/render.go:116-125 | in a line each word stands behind the words before it, one blank between neighbours |
| `WordWrap.WrapIsOptimal` | internal/emrdoctor/render.go:107-126 | the greedy split keeps the words, each line fits or is one word, and no split into such lines has fewer |
| `WordWrap.GreedyStaysAhead` | internal/emrdoctor/render.go:116-123 | the exchange argument: with more words in front of the current line no split gets by with fewer lines |
| `LineWrap.WrapLine` | internal/cwtui/logviewer.go:358-392 | the loop over runes builds the indented segments that the next rows are about |
| `LineWrap.WrapLineKeepsText` | internal/cwtui/logviewer.go:354-392 | dropping the indents and joining the rows gives the line back in every width of two cells or more |
| `LineWrap.LosslessIffTwoCells` | internal/cwtui/logviewer.go:354-392 | and in no smaller width, once there are wide and zero-width runes |
| `LineWrap.SegmentsAreTight` | internal/cwtui/logviewer.go:380-391 | segments are not empty, fit their limit, and each break was forced by the next rune |
| `LineWrap.RowsAreTight` | internal/cwtui/logviewer.go:354-392 | for every line the rows are such segments, continuation rows having what the indent leaves of the width, and ten cells at least |
| `LineWrap.RowsFit` | internal/cwtui/logviewer.go:354-392 | with room for the indent and ten cells, every row fits the width and could not have taken its next rune |
| `Billing.Fetch` | internal/billing/billing.go:89-156 | fails if and only if a page fails; otherwise the bill has one line per key with its groups' cost, usage, first unit and names, drops lines that accrued nothing, lists the dearest first, and its total is the sum of its lines and of all groups |
| `Billing.FinishBill` | internal/billing/billing.go:147-155 | sorting the collected lines loses nothing and leaves the strict display order |
| `Billing.SortedForDisplay` | internal/billing/billing.go:269-281 | lines with distinct keys come out by falling amount, equal amounts by rising service, equal services by rising usage type, with the same lines |
| `Ordering.BeforeMeans` | internal/billing/billing.go:275-280 | a string comes before another if where they first differ it ends or has the smaller character |
| `Billing.BillIsDetermined` | internal/billing/billing.go:89-156 | two bills over the same groups are equal: neither paging nor map order shows |
| `Billing.LinesArePairTotals` | internal/billing/billing.go:59-60 | with NUL-free names a key is one service and usage type, and its line carries exactly that pair's cost, usage and first unit |
| `Billing.ListedIffAccrued` | internal/billing/billing.go:147-151 | a service and usage type has a line if and only if its cost or its usage is not zero |
| `Billing.BillReadsPages` | internal/billing/billing.go:109-145 | the bill is estimated if and only if a period on some page is; its groups are those of all pages; the last group to name a currency decides it |
| `Billing.DiffBills` | internal/billtui/model.go:475-493 | the two loops compute the per-key changes; without a previous bill there are none |
| `Billing.ChangesPerKey` | internal/billtui/model.go:475-493 | a key has a change if and only if the next bill has it at another amount, and the change is the difference, newcomers counting in full |
| `Billing.DeltasPerLine` | internal/billtui/model.go:475-493 | a line shows what it costs more than the line of its key before, all of it when there was none, and nothing when that is zero |
| `Billing.ChangesConserveMoney` | internal/billtui/model.go:475-493 | changes plus the previous amounts of surviving keys add up to the next bill's lines |
| `Billing.DeltasExplainTotal` | internal/billtui/model.go:475-493 | and, for a fetched bill, to its total |
| `BillRefresh.Model.Update` | internal/billtui/model.go:199-263 | new state and at most one command for each message, stale timers and stale drill-down replies changing nothing |
| `BillRefresh.Model.HandleKey` | internal/billtui/model.go:265-380 | which key does what in the debug pane, the filter, an overlay and the bare table |
| `BillRefresh.Model.ScheduleTick` | internal/billtui/model.go:179-184 | a new timer number supersedes the pending one |
| `BillRefresh.AlwaysHealthy` | internal/billtui/model.go:159-342 | what every message keeps: one fetch out exactly while fetching, one timer number per answered fetch, and the current timer armed while idle |
| `BillRefresh.RefreshNeverDies` | internal/billtui/model.go:159-342 | after any run from start-up: never two fetches, stale timers do nothing, and either a reply is due that will arm a timer or the armed timer will fetch |
| `BillRefresh.RefreshKeyWorks` | internal/billtui/model.go:323-327 | wherever a run from start-up may lead, u on the bare table starts one fetch if none is out and does nothing otherwise |
| `BillRefresh.EscThenRefresh` | internal/billtui/model.go:265-327 | and from anywhere Esc and u leave a fetch out |
| `BillRefresh.LookupKeyWorks` | internal/billtui/model.go:328-335 | x looks up the service under the cursor and opens its overlay, unless a lookup is thought to be out |
| `BillRefresh.KeysCover` | internal/billtui/model.go:312-376 | which key covers the bare table with what, which ones quit, and that the others change nothing |
| `BillRefresh.CoveredKeysOnlyUncover` | internal/billtui/model.go:199-310 | under a cover no key starts anything, and exactly the keys named take it away |
| `BillRefresh.ScreenShowsLastBill` | internal/billtui/model.go:223-236 | the screen shows the last bill delivered, compared with the one before it, failures leaving both |
| `BillRefresh.AlwaysLookupOk` | internal/billtui/model.go:244-357 | at most one drill-down fetch is out; while its overlay is open the service on screen is its own, and otherwise none is |
| `BillRefresh.DrillDownRecoversIff` | internal/billtui/model.go:244-301 | wherever a run from start-up may lead, the reply frees the drill-down if and only if its overlay is open or its service has no name |
| `BillRefresh.DrillDownStaysDead` | internal/billtui/model.go:244-335 | otherwise no continuation frees it or starts another lookup |
| `BillRefresh.DrillDownCanDie` | internal/billtui/model.go:244-301 | bill, drill-down, close, reply: for every service with a name this run from start-up leaves it dead |
| `BillRefresh.StuckForever` | internal/billtui/model.go:244-301 | once the flag is orphaned no message clears it and no new lookup starts |
| `SnapshotDiff.EntryDeltas` | internal/acctsnap/acctsnap.go:175-206 | one note per differing field, then per differing tag in key order |
| `SnapshotDiff.NotesTell` | internal/acctsnap/acctsnap.go:175-206 | the notes tell each change of name, state and tags as `field: old → new`, nothing reading as (none), and nothing else |
| `SnapshotDiff.NotesInOrder` | internal/acctsnap/acctsnap.go:175-206 | name first, then state, then the tags in the order of their keys |
| `SnapshotDiff.NoNotesIffAlike` | internal/acctsnap/acctsnap.go:175-206 | no notes if and only if name, state and tags are equal |
| `SnapshotDiff.Diff` | internal/acctsnap/acctsnap.go:117-166 | the maps, the sorted keys and the stable sort give the list the next rows describe |
| `SnapshotDiff.DiffIsExact` | internal/acctsnap/acctsnap.go:117-166 | exactly one change of the right kind per key that differs in presence, name, state or tags, none for any other, strictly ordered by type, kind and key |
| `SnapshotDiff.DiffSays` | internal/acctsnap/acctsnap.go:117-158 | told by the entries: added are the new ones whose key the old ones lack, removed the old ones whose key the new ones lack, modified the new ones that differ from the old one of their key |
| `SnapshotDiff.DiffIsRanked` | internal/acctsnap/acctsnap.go:157-165 | by type; in each additions, then modifications, then removals; each of these by key |
| `SnapshotDiff.LastEntryCounts` | internal/acctsnap/acctsnap.go:118-125 | of several entries with one key the last counts |
| `SnapshotDiff.SwapMirrorsKinds` | internal/acctsnap/acctsnap.go:147-158 | every change of one diff has a change of the same key and of the mirrored kind in the diff of the swapped snapshots, both ways round |
| `SnapshotDiff.EntryOrderDoesNotMatter` | internal/acctsnap/acctsnap.go:117-166 | with unique keys the order of the entries does not show |
| `SnapshotDiff.Counts` | internal/acctsnap/acctsnap.go:215-228 | each change is counted under its kind and the three counts add up to all changes |
| `SnapshotDiff.CountsBalanceSizes` | internal/acctsnap/acctsnap.go:117-228 | additions minus removals is the growth of the inventory |
| `Enrichment.EverySchedule` | internal/emrtui/client.go:288-321 | at most eight calls at once, each cluster with an id described exactly once, the clusters and the failure count as after a sequential pass |
| `Enrichment.EveryScheduleReturns` | internal/emrtui/client.go:299-320 | no schedule runs for ever or blocks: it is over exactly when the call has returned |
| `Enrichment.ReturnedIsSequential` | internal/emrtui/client.go:288-321 | the failure count is the number of clusters with an id whose detail stayed unknown |
| `Enrichment.SequentialFillsIn` | internal/emrtui/client.go:288-321 | a sequential pass fills in the details that were answered and touches nothing else |
| `Enrichment.LoadMatchesSequential` | internal/emrtui/client.go:207-261 | the load fails if and only if there are regions and each failed to list; otherwise it has, as a multiset, the clusters of the regions enriched one after the other, and counts those whose detail stayed unknown |
| `Enrichment.FirstErrorIsKept` | internal/emrtui/client.go:217-242 | the error reported is that of the region merged first of those that failed |
| `Enrichment.LoadNeverBlocks` | internal/emrtui/client.go:221-242 | until every region is merged some goroutine can move |
| `Enrichment.EveryLoadFinishes` | internal/emrtui/client.go:207-261 | no schedule of all regions takes more than five steps a cluster and three a region, and it can stop only with every region merged |
| `DebugSink.Sink.constructor` | internal/debuglog/debuglog.go:48-55 | an empty sink with room for at least one entry |
| `DebugSink.Sink.Add` | internal/debuglog/debuglog.go:62-74 | a free slot is filled; a full ring overwrites its oldest entry and counts it |
| `DebugSink.Sink.Entries` | internal/debuglog/debuglog.go:76-87 | a copy of what is retained, oldest first |
| `DebugSink.Sink.Reset` | internal/debuglog/debuglog.go:104-112 | forgets entries and the count of dropped ones |
| `DebugSink.RingIsTailOfHistory` | internal/debuglog/debuglog.go:62-112 | after any adds and resets the ring holds the newest `cap` entries since the last reset, in order, and `dropped` is the number of the others |
| `PanelGrid.Distribute` | internal/emrtui/describe_panels.go:277-291 | parts that differ by at most one, the larger first, and add up to the total |
| `PanelGrid.SplitColumns` | internal/emrtui/describe_panels.go:259-275 | the columns joined are 0..n-1 in order, sizes as distributed |
| `PanelGrid.RenderColumn` | internal/emrtui/describe_panels.go:131-141 | a column's tiles are at least four rows high, evenly so, and fill the height exactly |
| `PanelGrid.RenderGrid` | internal/emrtui/describe_panels.go:111-144 | the tiles cover the sections in order, every column fills the height, columns of even width and gaps of two fill the width, and no minimum size is undercut |
| `PanelGrid.SinglePaneIff` | internal/emrtui/describe_panels.go:57-82 | the single pane is chosen if and only if there is no section or some column would not fit at minimum height |
| `PanelGrid.ColumnCount` | internal/emrtui/describe_panels.go:240-257 | two columns from 110 cells on, three from 170 on, never more than there are sections |
| `PanelGrid.GridHeight` | internal/emrtui/describe_panels.go:61-82 | the grid has all rows but two, or three with the badge line, and four at least |
| `EventPanning.EventsTable.Pan` | internal/cwtui/events_table.go:223-245 | right reveals columns before it pans the message, left pans back before it hides columns |
| `EventPanning.EveryRuneIsReachable` | internal/cwtui/events_table.go:115-160 | no cell exceeds 160 runes and every rune of every message comes into view on the way right |
| `EventPanning.CellIsWindow` | internal/cwtui/events_table.go:115-136 | a cell shows the message from the offset on, with an ellipsis on each side where runes are left out, and stops short of the end only when it is 160 wide |
| `EventPanning.SamePressesBothWays` | internal/cwtui/events_table.go:223-245 | as many effective presses to the far end as back |
| `EventPanning.RetraceIff` | internal/cwtui/events_table.go:223-245 | the directions stop at the same offsets if and only if the longest message is a multiple of 40 runes or at most 80 |
| `Explorer.Model.Update` | internal/cwtui/model.go:271-317 | loaded groups, streams and events replace the lists and move selections back into range; stale streams change nothing; failures put up the error screen and keep the lists |
| `Explorer.Model.HandleKey` | internal/cwtui/model.go:340-566 | the error screen takes all keys; then the focused search input while it is active; otherwise keys navigate, select, go back, search, change the period or clear |
| `Explorer.Model.NavigateList` | internal/cwtui/model.go:619-652 | stepping wraps around; another group empties streams and events |
| `Explorer.Model.ClearAllFilters` | internal/cwtui/model.go:740-789 | drops all three filters and points the selections at the same entries |
| `Explorer.Model.FilterGroups` | internal/cwtui/model.go:935-953 | the list is the matching groups in order, the selection moved into it |
| `Explorer.Model.FilterStreams` | internal/cwtui/model.go:955-972 | the same for streams |
| `Explorer.ExplorerIsSound` | internal/cwtui/model.go:271-972 | in every reachable state each selection is in its list, each list is what its filter lets through, and the focus is on a panel the view shows |
| `Explorer.ArrowsInGroups` | internal/cwtui/model.go:457-460 | down moves to the next group and from the last to the first, up the other way, and the streams and events go |
| `Explorer.ArrowsInStreams` | internal/cwtui/model.go:457-460 | the same among the streams, nothing else changing |
| `Explorer.ArrowsInEvents` | internal/cwtui/model.go:457-460 | the same among the events |
| `Explorer.UpUndoesDown` | internal/cwtui/model.go:619-652 | the up and down keys undo each other in the streams and events lists, wrap-around included |
| `Explorer.TabKeys` | internal/cwtui/model.go:452-455 | Tab and Shift-Tab go between the groups and the panel beside them and undo each other |
| `Explorer.EnterAndEsc` | internal/cwtui/model.go:465-469 | Enter goes from a group to its streams and from a stream to its events, which it loads; Esc returns |
| `Explorer.EscLeadsToGroups` | internal/cwtui/model.go:468-469 | where Esc leads from each panel, and that two lead to the groups |
| `Explorer.SearchInGroups` | internal/cwtui/model.go:385-401 | what is typed filters the groups at once, Enter leaves them so, Esc shows all again |
| `Explorer.SearchInStreams` | internal/cwtui/model.go:403-419 | the same for streams |
| `Explorer.SearchInEvents` | internal/cwtui/model.go:421-445 | a term for the events is queried on Enter and dropped on Esc, which backs out when no query ran |
| `Explorer.GroupSearchKey` | internal/cwtui/model.go:518-538 | searching the whole group asks for a term over an empty list if there is none, and otherwise loads |
| `Explorer.ErrorAndPeriodKeys` | internal/cwtui/model.go:340-566 | the error screen takes every key and goes on Enter and Esc; another period reloads the events in view |
| `Explorer.LoadsAreShown` | internal/cwtui/model.go:271-317 | what is loaded is listed, filtered as before, the selection staying while it can; failures keep the lists; streams of another group change nothing |
| `Explorer.MatchesMean` | internal/cwtui/model.go:935-972 | a term finds the groups with a stretch like it in the name, in whatever case, or in the region, and the streams with one in the name |
| `Explorer.FilterMembers` | internal/cwtui/model.go:935-972 | the filter lets through exactly the entries that match |
| `Explorer.FilterInOrder` | internal/cwtui/model.go:935-972 | in the order they were loaded |
| `Explorer.ClearKeepsSelection` | internal/cwtui/model.go:740-789 | clearing the filters shows everything and keeps the selected group and named stream selected |
| `Explorer.MatchedIff` | internal/cwtui/model.go:271-972 | streams listed for the selected group stay so over a message if and only if it does not filter the groups so that the cursor moves |
| `Explorer.StreamsMatchGroupIff` | internal/cwtui/model.go:271-972 | in every run from opening the listed streams are the selected group's throughout if and only if no filtering of the groups moves the cursor while streams are listed |
| `Explorer.FilteringMisleads` | internal/cwtui/model.go:385-401 | a filter that only another group passes leaves the first group's streams listed under the other |
| `Explorer.WindowShowsSelection` | internal/cwtui/model.go:1627-1642 | the visible window lies in the list, has the size it can have, and contains the selection of every reachable state |
| `Explorer.WindowIsCentred` | internal/cwtui/model.go:1627-1642 | half the window lies above the selection, less only at the top of the list and more only at its end |
| `Arn.EC2RoundTripIff` | internal/awsutil/arn.go:8-17 | parsing an EC2 ARN gives its parts back if and only if account and id are not empty, region and account have no colon, and type and id can be told apart |
| `Arn.EC2Text` | internal/awsutil/arn.go:12-17 | the text of an EC2 ARN, none without account or id |
| `Arn.AnyARNParses` | internal/awsutil/arn.go:79-107 | six parts joined by colons, only the last of which may hold one, parse into those parts |
| `Arn.ResourceForms` | internal/awsutil/arn.go:90-107 | what the resources `id`, `type/id`, `/type/id` and `type:id` parse into, and exactly when the last one does |
| `Arn.QueueRoundTripIff` | internal/awsutil/arn.go:38-60 | the ARN made from a queue URL gives region, account and name back if and only if none is empty or holds a delimiter |
| `Arn.QueueTexts` | internal/awsutil/arn.go:34-60 | the text of a queue URL and of the ARN made from it |
| `Arn.SplitJoined` | internal/awsutil/arn.go:79-83 | splitting into n pieces undoes joining n pieces of which only the last may hold the separator |
| `Decimal.WriteDigits` | internal/emrtui/rows.go:110-116 | the digits stand at the end of the 20-byte buffer and its front is never overrun |
| `Decimal.Itoa` | internal/emrtui/rows.go:102-122 | prints every 64-bit number in decimal, the smallest one as a bare minus |
| `Decimal.PrintedReads` | internal/emrtui/rows.go:102-122 | what is printed reads as the number, without a zero in front, behind a minus if negative |
| `Decimal.Atoi64` | internal/audit/messaging_collect.go:98-107 | accumulates digits with 64-bit wrap-around; any other character makes it 0 |
| `Decimal.ReadingIsModular` | internal/audit/messaging_collect.go:98-107 | reading digits gives the number they stand for wrapped around at 64 bits, and any other text gives 0 |
| `Decimal.RoundTripIffNonNegative` | internal/audit/messaging_collect.go:98-107 | reading what was printed gives the number back if and only if it is not negative |

## Left out

- Calls to AWS, HTTP, files, the clock and randomness: their replies, failures and readings are parameters.
- Rendering, colours, widths of table columns, toasts, the spinner, mouse input, the debug pane's own contents, watch mode, exports and the clipboard.
- Viewer re-opened on the same key while an old reply is in flight: the key carries no generation, so the old reply is taken for a new one; the protocol covers one opening.
- Viewer polls over several patterns of which some fail: in the protocol a poll fails or is answered from the first pages of all that matches; what a partial answer holds is stated by `LogFetch.GetLogEventsSinceMulti`.
- Log events without an id: the methods handle them as the code does; the theorems about merged sets and runs ask for identified events, and the viewer's also for positive timestamps.
- Goroutines of a multi-pattern fetch or download: modelled one after the other, since each writes its own slot only.
- 32-bit lengths in `mergeDedupeSort` and `GetLogEventsSince`: sequences are shorter than 2^31 and `limit` is not negative.
- Splitting a pattern input at semicolons, the cap on the number of field columns, and `splitEventJSON`'s search for the JSON part of a message.
- `encoding/json`: the machine is given the token stream of a valid value; after the object's closing brace any tokens may follow.
- `strings.Fields`, replacing of line breaks in cells, and `runewidth`: words, one-line messages and a rune-width function are given, and a string is as wide as its runes together.
- Strings are sequences of characters and lengths count them; lower-casing is ASCII only; bytes of multi-byte characters are not modelled.
- Floating-point rounding: amounts are exact real numbers. Parsing of the metric strings is left out, a missing metric being 0 and "".
- `FetchResources`, the bill table's own sorting and filtering, and what the drill-down overlay shows.
- Billing.Fetch: does not model a feed that never ends, on which the source's loop does not return.
- JsonKeyOrder.KeyOrderIff: the "only if" half is not claimed for objects in which, from the first array on, a string that is a top-level value or in a top-level array repeats a member name, because there a wrong scan can give the right list (`JsonKeyOrder.EchoHidesLoss`, `JsonKeyOrder.ValueHidesLoss`).
- ViewerProtocol.ExactlyOnce: asks that no pages hold more than the fetch limit and that no log event falls between the lookback windows, because the order or the start of the window is lost otherwise (`ViewerProtocol.OvertakenBackfillBreaksOrder`); `ViewerProtocol.SessionConsecutiveIff` has no such condition.
- MergeTies.TailOfMergeWhole: where the cap splits a group of equal timestamps the merges may be equal or not; the exact condition is `MergeTies.TailOfMergeIff`.
- Explorer.Model.HandleKey: leaves out the keys that quit, open the log viewer or the record view, toggle watch mode, the table or its JSON columns, pan the table, and copy, export, download or open a browser; they do not touch the lists, selections, view or focus. Help and about overlays are left out too.
- `summary.Dedupe` and snapshot creation: snapshots are given as entry lists.
- The order of clusters in the inventory: they are compared as a multiset. The dashboard's progressive load and the paginated listing of a region, which either gives clusters or fails.
- `Enrichment` models one outcome of DescribeCluster per cluster and the detail fields as one value.
- `sort.Slice` and `sort.SliceStable` are modelled by a stable insertion sort; wherever the source's sort need not be stable the order is strict, so the result is the only sorted one.
- Locks of the ring buffer: each method is one atomic step.
- Focus and scrolling of the description panels, and the contents of the single pane.
