# Archive migration loop

This project models the `run` function of immich-go's `archive` command
(`app/cmd/archive/run.go`) and proves what it promises.

`run` moves assets from a source reader to a destination writer. The source
delivers the assets as a stream of groups. First, when the destination is a
local folder writer, the destination is scanned once. The scan gives an index
of the paths that already exist. A failed scan ends the run before the stream
is opened. Then the loop waits on a `select` between the context's
cancellation and the next group. For every asset of a group, in order:

- an asset whose path the index marks present is recorded as a server
  duplicate and counted as skipped, and nothing is written;
- otherwise the asset goes to `WriteAsset`. When the write reports that the
  file exists, the asset is recorded as a server duplicate and counted as
  skipped. Any other error is logged and counted as an error, and the run
  aborts with "too many errors" once more than five writes have failed. On
  success the asset is closed, recorded as written and counted.

When the stream is closed, the run logs the written and skipped counts and
ends without error.

The model has four parts:

- `wrappers.dfy`: `Option` and `Result`.
- `archive_model.dfy` (module `ArchiveModel`): the data and the loop as pure
  functions. `Step` handles one asset, `Group` handles one group, and `Drain`
  runs the outer loop from its `k`-th select. `Setup` does the scan, and
  `Migrate` is a whole run. A run yields its `RunResult` and a trace of
  `Event`s: the writes called, the records made, the errors logged and the
  closes. The views `Processed`, `Attempts` and `Tally` read that trace back.
  `Classify` gives one asset's verdict (written, skipped or failed) from the
  index and the write's answer alone, and `Verdicts` adds those verdicts up
  over a sequence of assets.
- `archive_run.dfy` (module `Archive`): `Run`, the loop as the program runs
  it. It has the three counters, the nested loops, the `continue`s and the
  early returns. It is proved to compute exactly `Migrate`.
- `archive_proofs.dfy` (module `ArchiveProofs`) and `archive_scenarios.dfy`
  (module `ArchiveScenarios`): what a run promises, and two runs worked
  through event by event.

The environment is passed in as parameters:

- The destination is a `Destination`. Its `write` gives `WriteAsset`'s answer
  for each asset. Its optional `LocalWriter` gives the scan's answer and
  `MakePathOfAsset`.
- The source is the sequence of groups it delivers.
- The context is an oracle `cancelled: nat -> bool`. `cancelled(k)` says
  whether the select reached after `k` groups takes the cancellation branch.
  This covers the select that would see the closed stream. Go picks at random
  when both branches are ready, and the oracle allows either choice, so
  cancellation has no precedence over a ready group.

A run that ends normally returns `Done` with the three counters. The Go
function returns `nil` and only logs the written and skipped counts.
Returning the counts makes them available to the proofs.

## Model

| member | source | states |
|---|---|---|
| Archive.Run | app/cmd/archive/run.go:14-75 | The imperative loop, with its counters, `continue`s and early returns, returns exactly the result and trace that `Migrate` specifies. |
| ArchiveProofs.IndexHitSkips | app/cmd/archive/run.go:44-51 | An asset whose path the index marks present is skipped: skipped goes up by one, exactly one server-duplicate event is recorded, and no write is called. |
| ArchiveProofs.ExistingFileSkips | app/cmd/archive/run.go:55-59 | A write that reports the file exists is called once. The asset is then counted as skipped and recorded as one server duplicate, and the error count is unchanged. |
| ArchiveProofs.FailedWriteCounts | app/cmd/archive/run.go:60-66 | Any other write error is logged and counts one error. The run aborts exactly when the error count becomes greater than 5. |
| ArchiveProofs.SuccessfulWriteCounts | app/cmd/archive/run.go:69-71 | A successful write is followed by a close and a written record, in that order, and written goes up by one. |
| ArchiveProofs.StepRecords | app/cmd/archive/run.go:43-72 | Each asset moves exactly one counter, the one matching its event. It reaches `WriteAsset` exactly when the index does not know it. An abort is recorded as that asset's failed write. |
| ArchiveProofs.StepKeepsAccounted | app/cmd/archive/run.go:43-72 | One asset keeps the loop invariant: the counters equal the trace's tally, and the writes are the processed assets the index does not know. It also keeps errors within the budget unless it aborts. |
| ArchiveProofs.TallyCountsProcessed | app/cmd/archive/run.go:43-72 | The three counts of any trace add up to the number of assets the trace processed. |
| ArchiveProofs.GroupKeepsAccounted | app/cmd/archive/run.go:43-72 | A group keeps the loop invariant. It ends within the error budget, or it aborts with exactly 6 errors right after logging the last one. |
| ArchiveProofs.GroupInOrder | app/cmd/archive/run.go:43-72 | A group's assets are processed in order: all of them when the loop goes on, or a non-empty prefix when it aborts. |
| ArchiveProofs.GroupExtends | app/cmd/archive/run.go:43-72 | A group only appends events and never lowers a counter. |
| ArchiveProofs.DrainExtends | app/cmd/archive/run.go:33-74 | The outer loop only appends events and never ends with a scan failure. A normal end has counters no lower than at its start. |
| ArchiveProofs.DrainKeepsAccounted | app/cmd/archive/run.go:33-74 | The outer loop keeps the invariant. It aborts exactly when the trace holds more than 5 errors, and a normal end returns the trace's tally. |
| ArchiveProofs.DrainInOrder | app/cmd/archive/run.go:33-74 | The outer loop processes whole groups in order up to the select that ends it, and stops only at a cancelled select, at the closed stream, or inside the group that aborts. |
| ArchiveProofs.ScanFailureComesFirst | app/cmd/archive/run.go:15-26 | A run fails with the scan's error exactly when the destination is a local writer whose scan fails, and then nothing is recorded. |
| ArchiveProofs.CountersMatchEvents | app/cmd/archive/run.go:29-72 | On a normal end, the returned counters are the tally of recorded events. They account for every asset of the stream and hold at most 5 errors. |
| ArchiveProofs.GroupFollowsVerdicts | app/cmd/archive/run.go:43-72 | Over a group, the tally of the trace stays equal to the verdicts of the assets processed so far. |
| ArchiveProofs.DrainFollowsVerdicts | app/cmd/archive/run.go:33-74 | Over the outer loop, the tally of the trace stays equal to the verdicts of the assets processed so far. |
| ArchiveProofs.RunFollowsVerdicts | app/cmd/archive/run.go:29-72 | For every run, the written, skipped and failed events add up to the verdicts of the assets it processed. |
| ArchiveProofs.CountersFollowVerdicts | app/cmd/archive/run.go:29-72 | On a normal end, each returned counter is the number of stream assets with that verdict: written, skipped (indexed or already existing) or failed. |
| ArchiveProofs.StreamErrorBudget | app/cmd/archive/run.go:60-66 | With no cancellation, a stream with at most 5 failing assets ends normally with exactly that many errors, and one with more ends with "too many errors". |
| ArchiveProofs.StreamOrderKept | app/cmd/archive/run.go:33-43 | The processed assets are a prefix of the flattened stream. On a normal end they are the whole stream. |
| ArchiveProofs.WritesFollowIndex | app/cmd/archive/run.go:44-55 | `WriteAsset` is called exactly for the processed assets the index does not know, in order and once each. |
| ArchiveProofs.IndexedAssetsNeverWritten | app/cmd/archive/run.go:44-55 | No asset whose path the index marks present is ever handed to `WriteAsset`. |
| ArchiveProofs.NoIndexWritesEveryAsset | app/cmd/archive/run.go:44-55 | Without an index, because the destination is not local or its scan returned a nil map, every processed asset is written. |
| ArchiveProofs.ErrorBudgetAborts | app/cmd/archive/run.go:60-66 | The run ends with "too many errors" exactly when more than 5 writes failed. It then has exactly 6 errors, and a failed write is the last thing recorded. |
| ArchiveProofs.CancellationBetweenGroups | app/cmd/archive/run.go:33-41 | A cancelled run processed whole groups, up to the first select that took the cancellation. A normal end met no cancelled select. |
| ArchiveProofs.RerunSkipsEverything | app/cmd/archive/run.go:44-51 | When the index knows every asset and nothing cancels, the run writes nothing and ends with every asset counted as skipped. |
| ArchiveScenarios.IndexHitAndExistingFile | app/cmd/archive/run.go:43-72 | Groups {A, B} and {C}, with A indexed, B written and C already existing, give written 1, skipped 2 and errors 0, with exactly the expected events. |
| ArchiveScenarios.FailingWritesAbort | app/cmd/archive/run.go:60-66 | When every write fails and there is no index, a group of more than 5 assets aborts right after its sixth failure. |
| ArchiveScenarios.SixthFailureAborts | app/cmd/archive/run.go:60-66 | Seven assets whose writes all fail end with "too many errors" after six errors. Only the first six assets are attempted. |

## Left out

- Info logs: the "Scanning existing files in destination" and "Found existing files" messages (app/cmd/archive/run.go:19 and :25) and the "Summary" message (app/cmd/archive/run.go:39) have no event. A normal end returns the summary's counts in `Done` instead. Of the logged messages, only the write error (app/cmd/archive/run.go:61) is kept, as `WriteError`, and the "too many errors, aborting" text is the `TooManyErrors` result. The context error becomes the single `Cancelled` result, so `Canceled` and `DeadlineExceeded` are not told apart.
- `ScanExistingFiles`, `MakePathOfAsset`, `WriteAsset` and `Browse` are not part of this model. They appear as the scan's answer, a path function, a per-asset write answer and the delivered groups.
- Run: `WriteAsset`'s answer depends only on the asset. Assets are told apart by an `id` as well as a name, so same-named assets may get different paths and answers. A write whose answer changes with earlier writes, such as a later duplicate within the same run, is not modelled.
- Concurrency: the producer goroutine behind `Browse` and the timing of the `select` are replaced by the cancellation oracle. Cancellation that `WriteAsset` itself observes shows up only as that write's error.
- Run: the counters are unbounded integers. Go's `int` cannot overflow at these counts.
- The `*app.Application` parameter is unused by `run` and is not modelled.
- `a.Close()`'s own error is ignored by the source, so it is modelled only as the `Closed` event.
- Run: a normal end returns `Done` with all three counters. The source returns `nil` and logs only the written and skipped counts.
