# Verification of the ingestion core

This project models six parts of ingestr and proves properties of the models with Dafny 4.11.
`dafny verify dfyconfig.toml` verifies all of it.

1. **CDC truncate boundaries** (`CdcTruncate.dfy`, `CdcTruncateProofs.dfy`,
   `CdcTruncateCalls.dfy`, `CdcTruncateLiveness.dfy`). The main loop, the forwarder goroutine, the
   destination writer, the producer and the caller's context are one step relation: a step is one
   channel operation, one cancellation, one call into the destination or one release. All results
   hold in every state of every run, so for every interleaving. The writer is any writer that
   returns without error only after it has consumed its segment to the close and made it durable;
   it may return an error at any time.
2. **Schema evolution** (`SchemaTypes.dfy`, `Widening.dfy`, `WideningFamilies.dfy`,
   `SchemaCompare.dfy`, `EvolutionPlan.dfy`, `Convergence.dfy`, `SchemaConvergence.dfy`,
   `SchemaFit.dfy`, `Migration.dfy`, `MigrationProofs.dfy`, `MigrationRendering.dfy`,
   `MigrationImage.dfy`, `EvolutionRuns.dfy`, `DecimalFold.dfy`, `DecimalValues.dfy`). `Compare`
   diffs a source schema with a destination schema, `BuildFinalSchema` predicts the result and
   `BuildMigration` compiles the diff to statements. Methods with loops and an in-place array are
   proved against specification functions; the theorems are about those: convergence in one step,
   the predicted columns holding every value of the source and of the destination, the DDL
   reaching the prediction, batching being invisible, ranks over any number of runs, and when the
   order in which integers and decimals are merged matters.
3. **Job logs** (`LogSink.dfy`, `LogConservation.dfy`, `LogStream.dfy`, `JobLogs.dfy`,
   `JobLogsProofs.dfy`, `JobSinks.dfy`). The sink is a class over a slice with a moving head. The
   fan-out is a state machine in which the holder of the log mutex works one channel operation at
   a time while readers receive and the job table changes. `LogStream.dfy` gives the channel of a
   single subscriber, which the state machine uses; `JobSinks.dfy` puts the state machine and the
   sinks of its jobs together.
4. **The incremental runner** (`Runner.dfy`, `RunnerProofs.dfy`, `RunnerProgress.dfy`). Any number
   of runner processes over one clock, one state file and one lock file, with failing fetches,
   failing saves, crashes at any step, lock files left behind, and state that was read before the
   lock was taken.
5. **Exact text and naming kernels** (`DecimalText.dfy`, `SnakeCase.dfy`, `SnakeCaseProofs.dfy`,
   `SnakeCaseLetters.dfy`, `Utf8.dfy`, `Shorten.dfy`, `TargetKey.dfy`, `ColumnRename.dfy`,
   `ColumnMerge.dfy`).
6. **Variable-size lists** (`ListFlatten.dfy`).

`Wrappers.dfy`, `Powers.dfy` and `Sequences.dfy` hold what several of them use.

## Properties that fail, and exactly when

- Evolution does not always converge. An override that turns a new or non-decimal column into a
  decimal wider than 76 digits is accepted once and rejected by every later comparison, because
  only the branch for two decimals calls the precision limit. `EvolutionConverges` proves that the
  second comparison succeeds if and only if no override does this; `TooWideOverrideFailsLater` is
  a family of inputs that do.
- A comparison can fail for a column that already holds the source. An integer source and a
  decimal destination are merged even if the destination is wide enough, so above 76 digits they
  are rejected. `LeftAloneExactly` gives the condition, in both directions; `WideEnoughIsRejected`
  is a family of inputs.
- A migration does not always reach the predicted nullability. The ingestr bookkeeping columns are
  never relaxed, but a widening of such a column predicts it nullable.
  `MigrationReachesPrediction` proves that the table equals the prediction if and only if no such
  column drifts; `RunIdDrifts` is an input where one does.
- A cancelled truncate write does not always return. The main loop's own receive does not look at
  the context, so the call hangs there for as long as its producer neither sends nor closes, and
  nowhere else (`CancelledHangsExactly`; `CancelledCanHang` is such a run). In every other
  cancelled state, and after every failed write, it can return without the producer's help
  (`CanAlwaysReturn`), unless it is on its way through a truncate, after which the main loop goes
  on to that receive.
- A persisted watermark can be taken back, because the runner loads its state before it takes the
  lock. `StaleRunnerRegresses` is such a run. A runner whose loaded state is behind the file for
  no table when it locks never does it (`UpToDateNeverRegresses`), and every other runner can
  (`BehindCanRegress`). `WatermarksAreCovered` shows that nothing is skipped even then.
- Folding decimals can depend on their order. One order fails where the other succeeds if and only
  if every source is a decimal, the largest integer part and the largest scale exceed 76 digits
  together, and just one of the orders starts with a source that has both (`OrderMattersExactly`).
- Widening is not transitive: it fails for Float32 to Float64 to Decimal and for no other chain
  (`CanWidenTransitiveExactly`). The common type is not associative either: it depends on the
  grouping of three types exactly when they are both floats and a third kind of number, except for
  Float64 between Float32 and an integer and for Decimal between the floats
  (`WidenedAssociativeExactly`).
- Merging columns of one name does not always give a kind that takes in theirs: Float32, Float64
  and Decimal merge to Decimal, which Float32 does not widen to. It fails for a Float32 column
  that has become Decimal and for no other (`MergedColumnExactly`; `FloatsBecomeDecimal` are those
  inputs).

## What the results rely on

- Nothing is broadcast for a job after its logs were closed. Only `StartJob`, before it starts
  `runJob`, and `runJob` broadcast, and `runJob` closes the logs last, after its readers have
  finished. Then no ended job ever has or gets a subscriber (`NothingIsLate`, `EndedStaysClosed`),
  a closed channel was offered everything from its replay on (`ClosedInOrder`), and a drained file
  explains the whole job, its sink having been attached before the first entry
  (`DrainedJobIsWhole`). Without that order a subscriber is registered if and only if an entry was
  broadcast since the clean-up (`RegistrationOnceEnded`), and nobody would close it
  (`LateBroadcastReopens`).
- A naming convention leaves its own results alone. Both conventions of the program do: snake case
  because it is idempotent (`SnakeCaseSettles`), the direct one because it renames nothing
  (`DirectIsShortening`). For any two maps the composed entry of a name is right if and only if
  the second map agrees on it with the first followed by the second (`ComposedAt`); with a
  convention that renames its own results it need not (`IdempotenceIsNeeded`).

## Assumptions

- Column names are ASCII. Those of a schema that is compared are distinct without regard to case,
  and the column normaliser of a comparison is the identity.
- The name of a physical type does not depend on nullability. A dialect's additions, and its
  batches of at least one column, never come out as empty SQL; altering and relaxing may.
- The clock does not go backwards, the overlap is not negative, and the seed file of a table does
  not change (reading it may fail).
- The lower-casing of letters beyond ASCII gives letters, is idempotent and gives no A to Z.
- The precision of a decimal is not negative where a text is parsed for it.
- Within one table the shortening of a column name is a function of that name.
- Casting an Arrow array casts its values one by one.
- Timestamps equal to the zero time mean "no time", as in the program.

## Model

| member | source | states |
|---|---|---|
| CdcTruncateProofs.SuccessIsReplay | pkg/destination/cdc_truncate.go:43-168 | In every interleaving a nil return leaves the table equal to replaying the whole input item by item, the input held no error, and the returned flag is true exactly when it held a truncate. |
| CdcTruncateCalls.SuccessMadeEveryCall | pkg/destination/cdc_truncate.go:53-123 | In every interleaving a nil return has made exactly the planned calls into the destination, all with success: one write per run of data items, one truncate per truncate item, and an empty write if the input is empty or starts with a truncate. |
| CdcTruncateCalls.WrittenBeforeTruncated | pkg/destination/cdc_truncate.go:71-91 | Before any truncate call something was written, and every call until then succeeded. |
| CdcTruncateCalls.ErrorIsTheOneMet | pkg/destination/cdc_truncate.go:53-168 | A failed call is the last one and decides the error; an input error or a cancellation is returned only if no call failed, and an input error after exactly the calls for the items before it. |
| CdcTruncateProofs.InputErrorIsReplayBefore | pkg/destination/cdc_truncate.go:65-69 | An input error is returned only for the first failing item, with the table equal to the replay of the items before it. |
| CdcTruncateProofs.NoRowCrossesATruncate | pkg/destination/cdc_truncate.go:91-118 | At every moment the table lies between two replays of prefixes that no truncate separates, except after a truncate call that failed but emptied the table. |
| CdcTruncateProofs.ReturnedOwnsNothing | pkg/destination/cdc_truncate.go:170-197 | After the return every batch taken from the input was handed to the writer or released, exactly once, no other batch was touched, without a drain timeout all offered batches were taken, and after a failure the owner of the input was cancelled. |
| CdcTruncateProofs.OneReader | pkg/destination/cdc_truncate.go:53-104 | While the main loop reads or drains the input the forwarder holds no item and does not read. |
| CdcTruncateLiveness.NoDeadlock | pkg/destination/cdc_truncate.go:53-191 | In every state of the invariant before the return some step that needs no failure is enabled, unless the producer is idle and open and either the main loop receives or the forwarder does with nothing cancelled. |
| CdcTruncateLiveness.QuietExactly | pkg/destination/cdc_truncate.go:53-191 | A call that has not returned stands still if and only if it waits for its producer that way and the writer has flushed what it took. |
| CdcTruncateLiveness.CancelledHangsExactly | pkg/destination/cdc_truncate.go:53-168 | After the caller cancelled, the call stands still if and only if the main loop receives from an idle, open producer. |
| CdcTruncateLiveness.RunIsBounded | pkg/destination/cdc_truncate.go:43-191 | No livelock: a run has at most 21 times as many states as the input has items, plus 7. |
| CdcTruncateLiveness.CanAlwaysReturn | pkg/destination/cdc_truncate.go:43-191 | From every reachable state on the way out - input closed, write failed, error met, or cancelled before a truncate was met - the call can be led to its return by its own steps alone, the producer left as it is. |
| CdcTruncateProofs.InvNext | pkg/destination/cdc_truncate.go:43-191 | Every step of every party keeps the invariant: placement of segments, single ownership of items, and what each control point knows about the table. |
| Widening.WidenedAbsorbs | pkg/schemaevolution/widen.go:79-112 | Widening with the same source type again changes nothing. |
| Widening.WidenedClimbs | pkg/schemaevolution/widen.go:11-112 | A widening either keeps the destination type or strictly raises its rank, up to 13. |
| Widening.WidenedIsUpperBound | pkg/schemaevolution/widen.go:34-112 | For known types both the source and the destination type can widen to the result. |
| WideningFamilies.CanWidenTransitiveExactly | pkg/schemaevolution/widen.go:34-75 | Two widenings in a row are a widening if and only if the chain is not Float32, Float64, Decimal. |
| WideningFamilies.WidenedAssociativeExactly | pkg/schemaevolution/widen.go:79-112 | The common type of three types does not depend on the grouping if and only if they are not both floats and a third kind of number, Float64 between Float32 and an integer and Decimal between the floats excepted. |
| Widening.MergeKeepsBothParts | pkg/schemaevolution/widen.go:117-143 | A decimal merge keeps the larger integer part and the larger scale. |
| Widening.MergeAbsorbs | pkg/schemaevolution/widen.go:117-143 | Merging the same shape in again changes nothing. |
| SchemaCompare.Compare | pkg/schemaevolution/compare.go:23-189 | The two-map, two-pass comparison equals the column-by-column specification, including which error is reported; what that specification means is stated by the rows on predicted columns below. |
| SchemaFit.SameNameExactly | pkg/schemaevolution/compare.go:27-49 | Two column names are the same to a comparison if and only if they differ in the case of letters at most. |
| EvolutionPlan.ApplyColumnChange | pkg/schemaevolution/plan.go:68-77 | In place, exactly the first column of that name is edited, and the result tells whether there was one. |
| EvolutionPlan.BuildFinalSchema | pkg/schemaevolution/plan.go:33-66 | The copy-and-edit loop yields the changes applied in order, on a fresh slice. |
| EvolutionPlan.ByNameEdit | pkg/schemaevolution/plan.go:68-77 | Seen as a map from lower-case name to column, an edit changes that one entry and nothing else. |
| Convergence.WidenedSettles | pkg/schemaevolution/compare.go:191-339 | A source column fits the type it was widened into, for scalars, decimals, sized strings and arrays of them. |
| Convergence.PlainColumnSettles | pkg/schemaevolution/compare.go:128-164 | A column without an override asks for nothing once it has been evolved. |
| Convergence.OverriddenColumnSettles | pkg/schemaevolution/compare.go:59-126 | An overridden column asks for nothing once evolved, unless its new decimal exceeds the merge limit, and then the comparison fails. |
| SchemaConvergence.FinalSchemaMap | pkg/schemaevolution/plan.go:46-65 | The predicted schema key by key: each source column evolved by its own changes, removed columns made nullable, all else untouched. |
| SchemaConvergence.EvolutionConverges | pkg/schemaevolution/compare.go:23-250 | Comparing the source with its own prediction succeeds if and only if every override fits; then only removals remain and the prediction is a fixpoint. |
| SchemaConvergence.TooWideOverrideFailsLater | pkg/schemaevolution/compare.go:78-107 | For every precision above 76 the override is accepted for a new column and rejected by the next comparison. |
| SchemaFit.WidenedHoldsBoth | pkg/schemaevolution/compare.go:191-250 | A widened type, or the element type of widened arrays, holds every value of both types and no more digits than they need; text is bounded only if both are texts of bounded length, and then by the longer; it fails exactly above 76 digits. |
| SchemaFit.LeftAloneExactly | pkg/schemaevolution/compare.go:148-285 | A type is left alone exactly when it holds the source already; the comparison fails exactly when the merged decimal would exceed 76 digits and the kinds differ or the source does not fit. |
| SchemaFit.PredictionHoldsBoth | pkg/schemaevolution/compare.go:51-164 | The predicted column of a source column: a new one is the source's, nullable; one that was there keeps its name, holds what it held and what comes, and allows null exactly as its key, the source and its former state say; an override decides the kind but never narrows a column of that kind. |
| SchemaFit.OtherColumnsStay | pkg/schemaevolution/compare.go:166-189 | Columns the source does not have stay, nullable unless they are bookkeeping columns, and there are no others. |
| Migration.BuildMigration | pkg/destination/schema_evolution.go:64-130 | The statements and warnings are those of the planning specification, batches last. |
| Migration.RenderEvolution | pkg/destination/schema_evolution.go:147-174 | It succeeds if and only if every change is supported, and then renders the whole migration; otherwise it reports the first change that is not. |
| MigrationRendering.RenderingFailsExactly | pkg/destination/schema_evolution.go:147-171 | Some change is unsupported if and only if a change of physical type meets a dialect that cannot alter or renders no SQL for it, or a relaxation or removal of a required column one that cannot relax or renders none. |
| MigrationRendering.AdditionsRender | pkg/destination/schema_evolution.go:147-171 | Additions alone always render. |
| MigrationRendering.StatementsExactly | pkg/destination/schema_evolution.go:64-130 | The statements add exactly the added columns, alter exactly those whose physical type changes, and relax exactly those that must allow null. |
| MigrationRendering.WarnsExactly | pkg/destination/schema_evolution.go:82-143 | The warnings are exactly those of type changes skipped, of widenings to text or JSON, and of relaxations skipped. |
| MigrationProofs.BatchingIsInvisible | pkg/destination/schema_evolution.go:74-127 | Executing the rendered statements has the effect of the changes taken one at a time in their own order, although batches are moved to the end. |
| MigrationImage.ComparisonOrderly | pkg/schemaevolution/compare.go:51-183 | A comparison relaxes a column before retyping it, adds only missing columns and edits only present ones. |
| MigrationImage.MigrationReachesPrediction | pkg/destination/schema_evolution.go:64-174 | The executed migration has the predicted names and type names, and equals the predicted table if and only if no bookkeeping column drifts. |
| MigrationImage.DialectsAgree | pkg/destination/schema_evolution.go:69-127 | Dialects that differ only in what they batch reach the same table from the same comparison. |
| MigrationImage.RunIdDrifts | pkg/schemaevolution/compare.go:138-162 | A required run id column of any bounded size, widened by the unbounded text column every run adds, stays required in the table though predicted nullable, where ALTER does not state nullability. |
| EvolutionRuns.RankNeverFalls | pkg/schemaevolution/compare.go:191-250 | Over any sequence of runs without overrides the rank of a column never falls and rises at each change of its data type. |
| EvolutionRuns.KindChangesBounded | pkg/schemaevolution/widen.go:11-112 | A column changes its data type at most 13 times in any number of runs, and never once it is JSON. |
| DecimalFold.AbsorbIsEvolve | pkg/schemaevolution/compare.go:148-163 | One step of the fold is what a run does to a column without an override. |
| DecimalFold.FoldExactly | pkg/schemaevolution/compare.go:287-339 | Folding integers and decimals of any precision gives the largest integer part and scale; it fails if and only if they exceed 76 digits together and the first is not a decimal that has both already with only decimals after it. |
| DecimalFold.OrderMattersExactly | pkg/schemaevolution/widen.go:117-155 | Two orders of the same types that both succeed give the same digits and scale; just one fails if and only if all are decimals, together above the limit, and just one order starts with a decimal that holds the rest. |
| DecimalFold.OrderDoesNotMatter | pkg/schemaevolution/widen.go:117-155 | The same types, each within the limit, in any order and with any repetitions, give the same digits and scale, or all orders fail. |
| DecimalValues.NoValueLost | pkg/schemaevolution/compare.go:302-339 | Every integer or decimal value that fits one of the inputs fits the result of a successful fold exactly. |
| LogSinks.LogSink.constructor | internal/server/jobs.go:272-279 | A new sink is empty and open. |
| LogSinks.LogSink.Enqueue | internal/server/jobs.go:311-325 | An entry is appended, the oldest dropped and counted when 10,000 are pending, and nothing happens once closed. |
| LogSinks.LogSink.Next | internal/server/jobs.go:327-356 | One attempt to take: first the warning for dropped entries, then the oldest entry, then the end; blocked only when empty and open. |
| LogSinks.LogSink.DropOldest | internal/server/jobs.go:362-369 | Exactly the oldest pending entry goes. |
| LogSinks.LogSink.Compact | internal/server/jobs.go:371-377 | Compaction keeps the pending entries and restores the bound on the slice. |
| LogSinks.LogSink.Close | internal/server/jobs.go:379-385 | Closing changes nothing but the mark. |
| LogSinks.LogSink.StaysSmall | internal/server/jobs.go:358-377 | In every valid state the backing slice has fewer than 20,000 entries although 10,000 may be pending. |
| LogSinks.LogSink.Drain | internal/server/jobs.go:281-309 | After the close the persisting loop ends and writes exactly what was left, the gap warning first. |
| LogConservation.RunConserves | internal/server/jobs.go:311-377 | In every interleaving what was written, with each warning read as a gap of its count, followed by what is still held, is exactly what was accepted, in order. |
| LogConservation.LogsAreConserved | internal/server/jobs.go:281-385 | Lines written, counts in warnings, entries dropped but not yet reported and entries pending add up to the entries accepted. |
| LogConservation.PersistedInOrder | internal/server/jobs.go:281-309 | Each written line is the accepted entry at the position given by the lines and gaps before it. |
| LogConservation.PositionsIncrease | internal/server/jobs.go:327-349 | Those positions strictly increase, so the file is a subsequence. |
| LogConservation.DrainedIsComplete | internal/server/jobs.go:290-294 | When the reader is told the sink is done, the file explains every accepted entry. |
| LogConservation.AcceptedUntilClose | internal/server/jobs.go:311-317 | The accepted entries are those enqueued before the first close. |
| LogConservation.LossIsBounded | internal/server/jobs.go:311-325 | Entries are lost only beyond 10,000 accepted ones, and never more than the excess. |
| LogStream.NoWarningNoLoss | internal/server/jobs.go:591-621 | A stream without warnings is exactly the sequence of entries offered. |
| LogStream.DropKeeps | internal/server/jobs.go:607-611 | Dropping the oldest message keeps the order and makes room for the warning. |
| LogStream.WarnKeeps | internal/server/jobs.go:613-620 | The warning accounts for every entry offered so far. |
| JobLogsProofs.InvNext | internal/server/jobs.go:521-658 | Every step keeps the invariant of buffers, subscriber lists, channels and finished marks. |
| JobLogsProofs.NoClosedChannelIsUsed | internal/server/jobs.go:521-641 | In every reachable state the next channel operation is on an open channel; replayed entries and warnings always find room. |
| JobLogsProofs.HolderNeverBlocks | internal/server/jobs.go:521-641 | The holder of the mutex always has an enabled step. |
| JobLogsProofs.HolderFinishes | internal/server/jobs.go:521-641 | Each of its steps brings it closer to giving the mutex back, and no other step sets it back. |
| JobLogsProofs.FinishedHasNoSubscribers | internal/server/jobs.go:623-658 | A finished job, or one whose logs were closed and not broadcast to since its clean-up, has no subscribers, before, during and after the clean-up. |
| JobLogsProofs.RegistrationOnceEnded | internal/server/jobs.go:530-571 | A subscriber of a job whose logs were closed is registered if and only if an entry was broadcast for it since its clean-up. |
| JobLogsProofs.EndedStaysClosed | internal/server/jobs.go:136-150 | With no broadcast after a close, as the one broadcaster orders its calls, a job whose logs were closed has no subscriber and gets none. |
| JobLogsProofs.LateBroadcastReopens | internal/server/jobs.go:576-605 | Out of that order: a run in which a broadcast after the clean-up leaves a subscriber that is never closed. |
| JobLogsProofs.ReaderIsToldTheTruth | internal/server/jobs.go:545-641 | What a reader gets is in order; without warnings it is exactly the entries offered; every lost entry is followed by a warning still in its stream; a channel never full gets no warning, and each time it was full cost at most two entries; a closed channel was offered all entries from its replay up to its close. |
| JobLogsProofs.ReaderOfTheEnd | internal/server/jobs.go:530-641 | A reader that has seen the end of its channel and no warning has received exactly the buffer at subscription and every entry broadcast from then until the close. |
| JobLogsProofs.ClosedInOrder | internal/server/jobs.go:523-641 | With no broadcast after a close, a closed channel was offered every entry of its job from its replay on, unless nobody knew the job when it subscribed, and then none. |
| JobLogsProofs.SubscriberMissesNothing | internal/server/jobs.go:545-605 | A registered subscriber has been offered its replay and every entry broadcast since, without a gap, and is refused none of the first 100. |
| JobLogsProofs.BufferIsRecent | internal/server/jobs.go:576-587 | The buffer is everything broadcast for the job since its clean-up, or the last 10,000 entries of it. |
| JobLogsProofs.WholeJobIsOffered | internal/server/jobs.go:521-571 | A subscriber of a job that was not cleaned up lacks only entries more than 10,000 back, so it is offered a job of at most that many entries from its first. |
| JobLogsProofs.UnsubscribeExactly | internal/server/jobs.go:590-605 | Unsubscribing takes that channel out of its job's list and no other, and touches no channel. |
| JobSinks.BroadcastsAreConserved | internal/server/jobs.go:576-641 | With sinks attached to jobs of the log manager, the entries broadcast while a sink is attached are, in order, those its file explains and those it still holds; the counts add up, in every interleaving. |
| JobSinks.DrainedJobIsComplete | internal/server/jobs.go:290-385 | The persisting goroutine is told the sink is done only after the sink was detached; then lines and counted gaps of the file explain every entry broadcast between attaching and detaching, to the last, and their number is lines plus counts. |
| JobSinks.DrainedJobIsWhole | internal/server/jobs.go:87-150 | With no broadcast after the close, they explain every entry from the attaching on, and every entry of the job if the sink was attached before the first. |
| RunnerProofs.InvNext | fabric/runner/main.go:110-180 | Every step of every runner, the clock and the operator keeps the invariant. |
| RunnerProofs.MutualExclusion | fabric/runner/lock.go:16-36 | At most one runner is inside the lock, and the lock file is its own. |
| RunnerProofs.WatermarksAreCovered | fabric/runner/main.go:236-240 | Every watermark in the file or in any runner's memory has a gap-free union of successfully fetched windows behind it, down to the seed or the beginning. |
| RunnerProofs.NextWindowContinues | fabric/runner/plan.go:15-75 | The next window, with both bounds floored to seconds, leaves no gap after what is covered. |
| RunnerProgress.WindowIsExact | fabric/runner/plan.go:15-75 | In every reachable state a fetch asks from the watermark less the overlap, else from the seed that was found less the overlap, rounded down by less than a second, and from the beginning only without either or when not incremental; it ends at most a second before the start of the run and never past the clock. |
| RunnerProgress.MarksExactly | fabric/runner/main.go:133-166 | A runner that has been through its entities has moved exactly the watermarks of the tables that were due and did not fail, to the start of the run, and no other. |
| RunnerProofs.UpToDateNeverRegresses | fabric/runner/main.go:110-172 | A runner whose state was behind the file for no table when it locked never holds, nor saves, a watermark earlier than the persisted one. |
| RunnerProofs.LatestIsUpToDate | fabric/runner/state.go:33-53 | A runner that read the state after the last save is such a runner. |
| RunnerProofs.BehindCanRegress | fabric/runner/main.go:110-172 | Any other runner has a continuation in which it takes a persisted watermark back. |
| RunnerProofs.StaleRunnerRegresses | fabric/runner/main.go:110-121 | A run in which a runner with older state takes a persisted watermark back. |
| DecimalText.ReadPrint | pkg/arrowconv/convert.go:805-808 | Reading a printed literal gives the literal back. |
| DecimalText.PrintRead | pkg/arrowconv/convert.go:805-808 | Printing what was read gives the text back. |
| DecimalText.AcceptsExactlyTheLiterals | pkg/arrowconv/convert.go:805-885 | A text is acceptable exactly when it prints a literal that fits, and then it prints no other. |
| DecimalText.ScanDigits | pkg/arrowconv/convert.go:830-863 | The 64-bit loop equals the specification scan, and no step overflows. |
| DecimalText.ScanFromSound | pkg/arrowconv/convert.go:830-866 | The scan accepts exactly the literals with few enough fractional digits and a value below 10^18, and finds their value. |
| DecimalText.Pad | pkg/arrowconv/convert.go:868-884 | Padding, precision limit and sign are exact and reject exactly what reaches 10^18 or the precision. |
| DecimalText.WithinPrecision | pkg/arrowconv/convert.go:878-880 | The table lookup compares with ten to the precision. |
| DecimalText.ParseDecimal128Text | pkg/arrowconv/convert.go:819-885 | The fast path succeeds if and only if the text is a literal that fits, and returns its value times ten to the scale. |
| SnakeCaseNaming.ReplaceSymbols | pkg/naming/snake_case.go:73-90 | The replacement loop maps each character by the symbol table. |
| SnakeCaseLetters.SymbolTable | pkg/naming/snake_case.go:73-90 | Plus and star become x, at a, bar l, hyphen and all else but letters and digits an underscore. |
| SnakeCaseNaming.ToSnakeCase | pkg/naming/snake_case.go:40-65 | The loop over the parts equals the specification. |
| SnakeCaseProofs.AcronymsSplitAtBreaks | pkg/naming/snake_case.go:21-22 | The leftmost greedy matcher inserts underscores exactly before capitals that follow a capital and precede a small letter. |
| SnakeCaseProofs.HumpsSplitAtBreaks | pkg/naming/snake_case.go:22-23 | The second matcher inserts them exactly before capitals that follow a small letter or digit. |
| SnakeCaseProofs.NormalizedIsGood | pkg/naming/snake_case.go:72-97 | A normalised segment is not empty, holds settled word characters only, no double and no trailing underscore. |
| SnakeCaseProofs.SplitOfJoin | pkg/naming/snake_case.go:47-59 | Re-splitting joined segments gives the same segments. |
| SnakeCaseProofs.OutputIsClean | pkg/naming/snake_case.go:24-65 | The result of a non-empty name is not empty, has no capital, no leading digit and no trailing underscore. |
| SnakeCaseLetters.LettersAreKept | pkg/naming/snake_case.go:40-97 | Underscores apart, the result spells exactly what the name spelled, in small letters, unless a separator ends the name or stands before an underscore. |
| SnakeCaseLetters.TrailingExactly | pkg/naming/snake_case.go:67-70 | Exactly the underscores at the end become an x each. |
| SnakeCaseProofs.SnakeCaseIsIdempotent | pkg/naming/snake_case.go:40-65 | Normalising twice is normalising once. |
| Utf8.BoundaryIsStart | pkg/destination/shorten.go:166-180 | In valid UTF-8 a position separates characters exactly when it holds no continuation byte. |
| Utf8.PiecesValid | pkg/destination/shorten.go:163 | A prefix and a suffix cut at boundaries with ASCII between them are valid UTF-8. |
| Shorten.Utf8PrefixBoundary | pkg/destination/shorten.go:166-172 | The prefix ends at the last start byte within its budget, or at an end of the name. |
| Shorten.Utf8SuffixBoundary | pkg/destination/shorten.go:174-180 | The suffix starts at the first start byte within its budget, or at the end. |
| Shorten.Widen | pkg/destination/shorten.go:142-161 | Spare bytes go to whole neighbouring characters; at most three stay unused, none for ASCII. |
| Shorten.ShortenIdentifier | pkg/destination/shorten.go:125-164 | Prefix, tag and suffix from non-overlapping pieces, never above the limit; each side reaches at least the last character boundary in its half, the prefix having the odd byte; for valid UTF-8 whole characters, at least the limit less three, for ASCII exactly the halves. |
| TargetKey.CDCTargetKey | pkg/destination/destination.go:360-371 | The builder loop concatenates the encoded components. |
| TargetKey.DecodeKey | pkg/destination/destination.go:360-371 | A decoder recovers the components from their key, whatever bytes they hold. |
| TargetKey.KeyIsInjective | pkg/destination/destination.go:360-371 | No two lists of components share a key. |
| ColumnRename.ComposeColumnMappings | pkg/pipeline/pipeline.go:2358-2371 | The two map loops give the same composed map in every iteration order. |
| ColumnRename.DedupePreservingOrder | pkg/pipeline/pipeline.go:2542-2557 | Writing over its own slice, it keeps the first occurrences in order. |
| ColumnRename.MapColumnNames | pkg/pipeline/pipeline.go:2373-2381 | Names are mapped and then deduplicated. |
| ColumnRename.DedupeMappedColumns | pkg/pipeline/pipeline.go:2486-2503 | The index map finds the one place of each name, so the loop equals merging column by column. |
| ColumnRename.TableSchema.ApplyColumnMapping | pkg/pipeline/pipeline.go:2383-2400 | In place: columns renamed and merged, primary keys mapped and deduplicated, incremental and partition keys mapped; an empty map changes nothing. |
| ColumnRename.TableSchema.MarkPrimaryKeyColumns | pkg/pipeline/pipeline.go:2121-2133 | In place: the marks become those of the primary key list, compared without case; an empty list leaves them. |
| ColumnMerge.MarkedExactly | pkg/pipeline/pipeline.go:2121-2133 | With any keys at all a column is marked if and only if a key has its name, case apart. |
| ColumnRename.BuildNamingMapping | pkg/pipeline/pipeline.go:2312-2322 | It fails exactly when a column would become a reserved one, and otherwise holds every column that the convention renames, reserved ones apart. |
| ColumnRename.BuildShorteningMapping | pkg/destination/shorten.go:186-216 | It holds every column that shortening changes, reserved ones apart. |
| ColumnRename.NormalizeTable | pkg/pipeline/pipeline.go:2296-2343 | Both passes on a fresh copy of the schema: the composed map, the keys with their fallback to those of the schema, the marked columns; an error exactly for a reserved name under a convention that renames. |
| ColumnRename.MapsAreDisjoint | pkg/pipeline/pipeline.go:2312-2336 | With an idempotent convention the second map has no entry of the first. |
| ColumnRename.ComposedAt | pkg/pipeline/pipeline.go:2358-2371 | For any two maps the composed entry of a name is the first map followed by the second if and only if the overwrite of the second loop agrees with that. |
| ColumnRename.ComposedIsBoth | pkg/pipeline/pipeline.go:2358-2371 | The composed map is naming followed by shortening on every original column. |
| ColumnRename.MergedIsDeduped | pkg/pipeline/pipeline.go:2486-2503 | One column per name in the order of first occurrence, each the merge of all columns of its name. |
| ColumnMerge.MergedColumnExactly | pkg/pipeline/pipeline.go:2505-2540 | A merged column is nullable, or a key, exactly when one of its columns is; its kind takes in each known one if and only if that is not Float32 become Decimal; its length is the longest, or unbounded if one is. |
| ColumnMerge.MergedSizes | pkg/pipeline/pipeline.go:2505-2540 | Decimals of stated precision merge to the most digits before and after the point; arrays to an element type that takes in theirs, with the same exception. |
| ColumnRename.RenamedSchemaIsImage | pkg/pipeline/pipeline.go:2312-2337 | For every schema, repeated names included, the two passes give the composed map applied to the names, deduplicated in order, and to both single keys; names are distinct if and only if something is renamed or they were distinct. |
| ColumnRename.RenamedNamesAreFinal | pkg/pipeline/pipeline.go:2312-2337 | The resulting names are the normalised and shortened names of the original columns and no others. |
| ColumnMerge.KeysAreImages | pkg/pipeline/pipeline.go:2334-2339 | The keys are the composed map's images of the keys given for the table, or of its schema's if none are given. |
| ColumnRename.DedupeOrder | pkg/pipeline/pipeline.go:2542-2557 | The order of the result is the order of the first occurrences. |
| ColumnRename.SnakeCaseSettles | pkg/naming/snake_case.go:40-65 | Snake case leaves its own results alone, whatever the shortening. |
| ColumnRename.DirectIsShortening | pkg/naming/naming.go:35-49 | The direct convention renames nothing, so the composed map is the shortening alone. |
| ColumnRename.IdempotenceIsNeeded | pkg/pipeline/pipeline.go:2367-2369 | What a convention that renamed its own results would do to the composed map. |
| ListFlatten.LayOut | pkg/databuffer/file.go:351-386 | The loop over the rows: offsets each made from the one before, validity, the null count, and which of the two errors is reported, for the first row that has one. |
| ListFlatten.CastVariableListToList | pkg/databuffer/file.go:351-409 | It succeeds if and only if all rows are in range, the total fits in 32 bits and every value can be cast; a row error is that of the first row that cannot be laid out, with its exact total if that is the cause. |
| ListFlatten.RowsReadBack | pkg/databuffer/file.go:398-409 | The rebuilt offsets are monotone, fit and end at the number of values, and every row reads back as the original row cast value by value, nulls kept. |

## Left out

- The in-place form of the CDC loops and of the log manager: their goroutines are modelled as step relations over values, which is what their interleavings need; local variables appear as fields of the state.
- Pre-staged load files of the truncate writer: modelled as absent.
- The table of a failed write: only that it lies between the last boundary and everything handed over since.
- Row order in a table: parallel writers give none, so a table is a bag of rows.
- Absent schemas, a column normaliser other than the identity, and the primary key list of a schema, which evolution copies.
- The text of SQL statements and warnings; the three conditional evolution interfaces; contracts.
- Log entries that read like a lag warning: warnings are a constructor of their own.
- Unsubscribing does not close a channel, so nothing is said about a reader that unsubscribes and keeps reading.
- Token rotation, subscription cursors, call counts and the exit code of the runner.
- The system that a fetch command reads: a window counts as fetched when the command succeeds.
- ShortenIdentifier: the tag is any byte string; the hash that makes it is not modelled, so nothing is said about two names sharing a result.
- ToSnakeCase: regular expressions are modelled by their leftmost greedy matches for the three patterns used, and input is a string of characters, not of bytes.
- ParseDecimal128Text: the general parser that takes over when the fast path declines.
- DedupeMappedColumns: nothing is said about the size of a decimal merged from columns of which one is an integer or states no precision, nor of decimal array elements; the merge takes their sizes as written.
- The composition of a new mapping with an existing renamer, whose result can depend on map iteration order.
- Arrow reference counts, buffers and compute kernels: a cast is a function of each value.
- Connectors, HTTP clients, command line, telemetry, storage and the web interface.
