# Verified model of the calculation server and its load generator

The server receives numbers over HTTP and keeps two totals: `Sum`, to which a C library adds each
number, and `Sub`, from which a Rust library subtracts it. It does so in one of three modes. In
`sync` mode the HTTP handler calculates itself, under a lock. In `async` mode handlers push into a
bounded queue and one goroutine does both operations. In `parallel` mode a handler pushes each
number into two queues, one after the other, and two goroutines fold them independently.
Durations go in recycled batches to a metrics aggregator, which rotates request counters into a
60-slot window and answers scrapes from a cached snapshot, in front of which there is a second
cache with the report text. The load generator sums up what its workers saw and logs failures
through a deduplicating logger.

The project models these parts and proves what holds of every interleaving of their goroutines.

| module | what it is |
|---|---|
| Word64, Counting | wrapping 64-bit totals; logs as multisets |
| Calculators | one calculator goroutine with queue, totals, open batch and flush timer |
| ServeLoops | its `serve` loop as a class with loops, proved against Calculators and against folds |
| ServerSystem | step system: any number of handlers, calculators, printer, aggregator, snapshot getter, shutdown |
| ServerInvariant, ServerOffers, ServerTheorems, ServerChannels, ServerProgress | invariant, safety over whole runs, when operations wait or are refused, no deadlock and termination |
| SyncMode, SyncProgress | the same for `sync` mode |
| ParallelAgreement | exactly when reports of `parallel` mode are consistent |
| BatchFlows, BatchProgress | metric batches from recorders to aggregator, step by step, as if each were freshly allocated |
| Slices, Batches, Flows | the same steps over recycled heap arrays: pool, recorders, channel, aggregator |
| Deques, RequestWindows, Histograms, Aggregators | ring buffer, windows, and the aggregator's state updated in place |
| AggregatorRuns | any life of the aggregator, as a function of its events |
| Reports | the report's lines and the text cache |
| SnapshotCache, SnapshotProgress, SnapshotStaleness | the snapshot and report caches as a step system with a clock |
| ReportRuns | from what handlers counted to the lines of every text served |
| Dedups, DedupRuns | the deduplicating logger: its methods, and whole timed runs |
| LogStats, Workers | the logarithmic overflow estimate; worker loop and merging |
| Sequences, Options | lists of lists; Option |

Code that updates fields in place is a class whose methods are proved against functions on values.
Goroutines that interleave are step systems: `Enabled` says which event can happen, `Apply` what it
does, `IsRun` which sequences of events are runs. A random choice of `select` is the choice of the
next event. Results about runs hold for every list of events that is a run.

Three results differ from what one might expect of the code:

- `ParallelAgreement.AgreeIffOneHandler`: in `parallel` mode a report may show a sum and a sub that
  do not belong together even when both sides have applied equally many numbers, because the two
  queues may hold them in different orders. This is excluded if and only if at most one handler can
  be inside Calculate, whatever the queue and batch sizes. `ServerTheorems.ParallelReports` says
  what each report does show, and `TotalsAtRest` and `ShutdownIsSafe` when the totals are exact.
- `DedupRuns.FullSpacingNeedsNoLag`: two lines for one message can be closer than the suppression
  window. The window of a "(+n more)" line counts from the clock reading at the start of the tick,
  not from its printing, so a late line shortens the distance to the next by just its lag. A full
  window is guaranteed if and only if no line lags.
- `SnapshotStaleness.StalenessIsExact`: a served report text is not always less than 510 ms old,
  since the 500 ms deadline is set after the refresh. Its age is less than 510 ms plus the duration
  of the refresh, and comes as close to that as the clock's nanoseconds allow.

## Model

| member | source | states |
|---|---|---|
| Word64.FoldIsWrappedSum | internal/calculators/calculators.go:42-52 | adding and subtracting with wrap-around at every step gives the true sum and its negation, wrapped once |
| Word64.FoldOfPermutation | internal/calculators/calculators.go:300-304 | totals do not depend on the order in which numbers were applied |
| Word64.FoldIsBalanced | internal/calculators/calculators.go:54-59 | after any log sub is the negated sum modulo 2^64 |
| Calculators.ComputeIsSound | internal/calculators/calculators.go:112-143 | an operator call keeps totals, batches, timer and queue sound, torn only between the two calls of one number; it loses no number |
| Calculators.HandOverIsSound | internal/calculators/calculators.go:135-143 | after a flush every sample is still in exactly one batch of 1..size samples, in order |
| Calculators.MoveIsSound | internal/calculators/calculators.go:306-333 | every move of the goroutine, in any state: totals are the fold of the applied numbers, the timer is armed exactly while a batch is open at the loop head, the loop is left only drained; a stopped one never moves |
| Calculators.BatchGoesWhenDue | internal/calculators/calculators.go:119-143 | in the loop a batch goes to recordFn if and only if the timer expires or a sample makes it full |
| Calculators.OfferIsSound | internal/calculators/calculators.go:336-348 | a send, buffered or rendezvous, appends its number to what the goroutine carries and nothing else |
| ServeLoops.ServeLoop.Serve | internal/calculators/calculators.go:306-333 | for every sequence of select choices: final total is the fold of all numbers, answers are those of AnswersAreFolds, the batches concatenate to all samples in order, everything recorded before an expiry of the timer is handed over by it, a batch is shorter than the batch size only if the timer or the stop ended it, and no batch or timer is left |
| ServeLoops.AnswersAreFolds | internal/calculators/calculators.go:330-330 | one answer for each question of Values, each the fold of exactly the numbers before it |
| ServeLoops.BatchesLeaveWhenDue | internal/calculators/calculators.go:119-143 | the same of the batches as a function of the choices |
| ServeLoops.ServeLoop.OnNumber | internal/calculators/calculators.go:216-217 | one number: exactly it is applied and exactly its sample recorded, in a sound state |
| ServeLoops.ServeLoop.Flush | internal/calculators/calculators.go:135-143 | the open batch, if any, is handed over and the timer is off |
| ServerInvariant.RunKeepsInv | internal/servers/server.go:107-117 | the whole invariant holds after every run from a state where it holds |
| ServerInvariant.ServersKept | internal/calculators/calculators.go:195-222 | every event of any goroutine keeps every calculator sound and undoes no application; all but the close of a number channel only let calculators move on |
| ServerInvariant.FlowKept | internal/calculators/calculators.go:405-413 | every event keeps, for each calculator, numbers carried plus numbers parked in front of it equal to the numbers accepted |
| ServerInvariant.PushedFlow | internal/calculators/calculators.go:405-413 | the bookkeeping of one of the two sends of a Parallel handler, seen from both calculators |
| ServerInvariant.OrderKept | internal/servers/server.go:107-117 | every event keeps the shutdown order: calculators, then printer, then aggregator, and nothing is closed or sent on twice |
| ServerInvariant.DeliveredKept | internal/metrics/aggregator.go:205-217 | every event keeps: batches recorded or queued at the aggregator are exactly those each calculator handed over, in order |
| ServerInvariant.ReportsKept | internal/servers/printer.go:23-39 | every event keeps: reports show the totals after some number of applications, in order, and the final one is last and complete |
| ServerOffers.OfferedIsDecided | internal/calculators/calculators.go:335-348 | in every run, for every number: offered equals accepted plus rejected plus still undecided |
| ServerChannels.OverloadedIffFull | internal/calculators/calculators.go:335-348 | in every state of every run: Calculate is refused if and only if the first queue is full, and taken if and only if it has room; without a buffer never refused |
| ServerChannels.SecondSendWaits | internal/calculators/calculators.go:405-413 | the second send of Parallel is never refused; it waits exactly while Sub's queue is full |
| ServerChannels.NoQueueNoOverload | internal/calculators/calculators.go:336-340 | with queue size 0 no run rejects a number |
| ServerChannels.SelectChoices | internal/calculators/calculators.go:318-332 | a calculator receives if and only if it is at its select with a number queued, its timer fires if and only if a batch is open there, it leaves if and only if the channel is closed and drained there |
| ServerChannels.HandOverWaitsIffFull | internal/metrics/aggregator.go:237-245 | in every run at most 100 batches wait for the aggregator, and a hand-over waits exactly while there are 100 |
| ServerChannels.StopsAreHeard | internal/servers/server.go:107-117 | the printer hears its stop only after all calculators stopped, the aggregator only after the printer finished, then whatever is still queued |
| ServerTheorems.AcceptedIsConserved | internal/calculators/calculators.go:386-413 | in every run, for every number: applied, in hand or queued, plus parked between the sends, equals accepted, and adding those rejected or undecided gives the offered ones; so a rejected offer is in no calculator; Sum keeps acceptance order |
| ServerTheorems.TotalsAtRest | internal/calculators/calculators.go:364-369 | with nothing in flight Sum is the wrapped sum of all accepted numbers and Sub its negation, whatever the two orders |
| ServerTheorems.BoundedLag | internal/calculators/calculators.go:386-413 | at every moment Sum is ahead of Sub by at most capacity + 1 + parked handlers, Sub ahead of Sum by at most capacity + 1 |
| ServerTheorems.AsyncLinearises | internal/calculators/calculators.go:238-244 | every Values pair is the totals after a prefix of the accepted numbers in acceptance order, never torn, with later prefixes later |
| ServerTheorems.ParallelReports | internal/calculators/calculators.go:415-420 | every Parallel report pairs sums of a prefix of the accepted numbers and a prefix of what Sub applied, monotone in both, exact once both cover everything |
| ServerTheorems.ShutdownIsSafe | internal/servers/server.go:107-117 | no run sends on or closes a closed channel; when Run returns, every accepted number is applied, every sample handed over and delivered in order, and the only final report, the last one, is exact |
| ServerTheorems.FinalReport | internal/servers/printer.go:23-35 | with the calculators at rest and the printer finished, the last report is the wrapped sum and its negation |
| ServerProgress.InternalDecreases | internal/calculators/calculators.go:318-348 | every step that needs no new input decreases a measure of parked, queued and held numbers, open batches, batches on the way and shutdown steps |
| ServerProgress.WorkBoundsRuns | internal/calculators/calculators.go:318-348 | in every run the internal events are at most the measure and a constant for each external event; without new input, at most the measure |
| ServerProgress.Progress | internal/calculators/calculators.go:405-413 | while anything is pending some step is enabled: no wait cycle from handler over calculator and aggregator to snapshot getter |
| ServerProgress.Settles | internal/metrics/aggregator.go:194-229 | from every good state internal steps alone lead to one with nothing pending |
| ServerProgress.ShutdownCompletes | internal/servers/server.go:107-117 | after the HTTP server returned, every continuation, scrapes and ticks included, has boundedly many internal events and can come to a stand only with Run returned cleanly |
| SyncMode.HandlerKeepsLock | internal/calculators/calculators.go:88-94 | each step of a handler keeps mutual exclusion and totals that are the fold of the calculated numbers except between its two calls |
| SyncMode.HandlerWaits | internal/calculators/calculators.go:88-94 | a handler waits for the lock exactly while somebody calculates or the printer copies the totals, and with its sample exactly while the aggregator's channel is full |
| SyncMode.PrinterWaits | internal/calculators/calculators.go:96-101 | Values waits for the lock exactly while somebody calculates |
| SyncMode.SyncIsConsistent | internal/calculators/calculators.go:88-101 | in every run each reported pair is the fold of a prefix of the calculated numbers, so sub is the negated sum |
| SyncMode.SyncStopsCleanly | internal/calculators/calculators.go:82-101 | no send on a closed channel; when Run returns the last report is final and exact and every sample was sent |
| SyncProgress.Progress | internal/calculators/calculators.go:88-101 | while anything is pending some internal step is enabled: the lock and the aggregator's channel never block for ever |
| SyncProgress.WorkBoundsRuns | internal/calculators/calculators.go:88-101 | in every run the internal events are bounded by the work there is and the number of external events |
| SyncProgress.ShutdownCompletes | internal/servers/server.go:107-117 | after the HTTP server returned the internal events are bounded, and when none is possible any more Run has returned |
| ParallelAgreement.AgreeIffOneHandler | internal/calculators/calculators.go:405-420 | for every queue and batch size: all reports of all runs that saw equally many applications on both sides are consistent if and only if there is at most one handler |
| ParallelAgreement.OneHandlerAgrees | internal/calculators/calculators.go:405-420 | with one handler Sub applies the accepted numbers in acceptance order, so such reports are consistent |
| ParallelAgreement.Disagreement | internal/calculators/calculators.go:405-420 | with two or more, for every queue and batch size, a reachable report with one application on each side shows sum 1 and sub -2 |
| Deques.Deque.constructor | internal/queue/queue.go:4-8 | the zero deque is empty |
| Deques.Deque.From | internal/queue/queue.go:172-179 | takes over the array, whose elements become the contents |
| Deques.Deque.Front | internal/queue/queue.go:14-19 | the first element, or a panic exactly when empty |
| Deques.Deque.Back | internal/queue/queue.go:21-30 | the last element, or a panic exactly when empty |
| Deques.Deque.PushBack | internal/queue/queue.go:32-42 | contents grow at the end; no reallocation while there is room; zero outside the window and amortised growth kept |
| Deques.Deque.PushFront | internal/queue/queue.go:44-55 | contents grow at the front, likewise |
| Deques.Deque.PopFront | internal/queue/queue.go:57-67 | removes and returns the first element, clearing its slot; a panic changes nothing |
| Deques.Deque.PopBack | internal/queue/queue.go:69-79 | removes and returns the last element, clearing its slot; a panic changes nothing |
| Deques.Deque.At | internal/queue/queue.go:81-90 | the element at an index, or a panic exactly when out of range |
| Deques.Deque.Set | internal/queue/queue.go:92-101 | replaces one element and no other, or panics |
| Deques.Deque.ToSlice | internal/queue/queue.go:104-124 | a copy of the contents, in the caller's array exactly when that is large enough |
| Deques.Deque.Reset | internal/queue/queue.go:126-138 | empties, zeroing every slot, and keeps the buffer |
| Deques.Deque.Grow | internal/queue/queue.go:140-147 | makes room for n more and keeps the contents; a negative n panics |
| Deques.Deque.Regrow | internal/queue/queue.go:152-170 | a new buffer of twice the length or more with the same contents, zero outside |
| Deques.RunFromZero | internal/queue/queue.go:14-170 | any run of operations from the zero deque gives the answers, panics and snapshots included, and the contents of the run on a mathematical sequence; without calls of Grow growth copies fewer than 2 elements a push and capacity is at most max(16, 2 pushes) |
| Deques.ExtendLeft | internal/queue/queue.go:44-55 | writing before the window, across the seam, prepends and leaves zero outside |
| Deques.Shrink | internal/queue/queue.go:57-67 | zeroing and dropping the first slot, across the seam, is the tail and leaves zero outside |
| Deques.LivePieces | internal/queue/queue.go:114-123 | the window is one slice of the buffer or two with the seam at its end |
| Batches.BatchPool.Get | internal/pools/batch_pool.go:27-33 | an empty batch over a pooled or new array that is no longer in the pool |
| Batches.BatchPool.Put | internal/pools/batch_pool.go:35-39 | only arrays of the right capacity come back |
| Batches.MetricRecorder.MakeBatch | internal/calculators/calculators.go:124-127 | an array taken out of the pool, or a new one, and the timer armed |
| Batches.MetricRecorder.Add | internal/calculators/calculators.go:129-132 | the sample is appended in the same array, never reallocated, because the batch goes out exactly at the batch size |
| Batches.MetricRecorder.Clear | internal/calculators/calculators.go:141-142 | after recordFn the batch is nil and the timer off |
| Flows.Flow.Open | internal/calculators/calculators.go:124-127 | a recycled or new array gets into this recorder's hands and is nowhere else; seen from outside a fresh batch |
| Flows.Flow.Append | internal/calculators/calculators.go:129-132 | writing into the recorder's array changes nothing that anybody else holds, queues or reads |
| Flows.Flow.Send | internal/calculators/calculators.go:140-140 | the array moves from recorder to channel; the recorder's stale pointer does not matter |
| Flows.Flow.Receive | internal/metrics/aggregator.go:205-212 | the oldest batch gets into the aggregator's hands |
| Flows.Flow.ReadOne | internal/metrics/aggregator.go:155-166 | the next sample read is that of the batch as it was sent |
| Flows.Flow.PutBack | internal/metrics/aggregator.go:206-216 | only after the last sample is read the array goes to the pool, in which it is not yet |
| Flows.Flow.Collect | internal/pools/batch_pool.go:27-33 | garbage collection of pooled arrays is not noticed |
| Flows.Flow.Run | internal/calculators/calculators.go:112-143 | any interleaving of recorders, aggregator and collector over recycled arrays, each at every step in exactly one place, shows what fresh arrays would |
| Flows.RunFromStart | internal/metrics/aggregator.go:205-217 | from an empty pool on, the aggregator reads of every recorder exactly a prefix of what that one recorded |
| Flows.NobodyElses | internal/pools/batch_pool.go:27-39 | an array that a recorder owns is in no other recorder, channel slot or the aggregator's hands |
| Flows.GivenBack | internal/pools/batch_pool.go:35-39 | putting back an array that was in one place leaves it in one place; it was not in the pool |
| BatchFlows.StreamKept | internal/calculators/calculators.go:112-143 | no step of any goroutine loses, doubles, reorders or mixes samples |
| BatchFlows.StreamsAreExact | internal/metrics/aggregator.go:205-217 | in every run, for every recorder: the samples recorded are, in order, those in batches out of its hands and in its open one; the aggregator has read exactly a prefix; batches have 1..size samples |
| BatchFlows.AllReadAtRest | internal/metrics/aggregator.go:205-217 | with nothing on its way the aggregator has read everything |
| BatchFlows.BatchGoesWhenDue | internal/calculators/calculators.go:129-143 | a recorder sends if and only if its flush was called for or a sample makes the batch full |
| BatchFlows.SendWaitsIffFull | internal/metrics/aggregator.go:237-245 | a send waits exactly while the aggregator's channel is full |
| BatchProgress.Drains | internal/metrics/aggregator.go:194-217 | from every state between two appends the flow comes to rest in a bounded number of steps, with nothing recorded anew: pool and channel never jam |
| RequestWindows.NothingUncounted | internal/metrics/aggregator.go:135-147 | evicted buckets plus window plus live counter account for every addition modulo 2^64 |
| RequestWindows.WindowShowsRecent | internal/metrics/aggregator.go:140-143 | slot 60 - i holds the i-th most recent completed interval, zero before the start |
| RequestWindows.WindowAdvances | internal/metrics/aggregator.go:140-143 | dropping the oldest slot and appending the new count is the window of one interval more |
| RequestWindows.RequestWindow.Count | internal/metrics/aggregator.go:247-250 | the addition belongs to the running interval, modulo 2^64 |
| RequestWindows.RequestWindow.Rotate | internal/metrics/aggregator.go:140-143 | the running interval is completed; pop before push never grows the buffer |
| RequestWindows.RequestWindow.Shoot | internal/metrics/aggregator.go:180-183 | the window is copied in place into the snapshot's array |
| Histograms.WindowedHistogram.Rotate | internal/metrics/aggregator.go:144-146 | the last 60 spans are kept, each as the multiset of its durations |
| Histograms.WindowedHistogram.Merge | internal/metrics/aggregator.go:177-179 | the accepted durations of the last 60 spans |
| Histograms.KeptExactly | internal/metrics/aggregator.go:149-153 | a histogram holds each accepted duration as often as it was recorded, and no other |
| Histograms.SlotJoins | internal/metrics/aggregator.go:177-179 | joining the next older histogram is joining the next older span |
| Aggregators.RotationCountsOnce | internal/metrics/aggregator.go:135-147 | with handlers counting between the kinds of a rotation, every addition lands in exactly one interval, the one running for its kind |
| Aggregators.NewAggregator | internal/metrics/aggregator.go:110-133 | a valid aggregator over objects that no kinds share, with empty history |
| Aggregators.MeasuredAllIsAccounted | internal/metrics/aggregator.go:149-166 | every duration recorded since the last rotation, as often as it was, is in exactly one of current histogram and overflow, according to whether a histogram takes it |
| Aggregators.RotatedIsAccounted | internal/metrics/aggregator.go:135-147 | that account starts afresh with a rotation |
| Aggregators.Aggregator.CountRequests | internal/metrics/aggregator.go:247-250 | exactly one kind's running interval gets the addition; snapshot and present content stay |
| Aggregators.Aggregator.OnTick | internal/metrics/aggregator.go:196-198 | a rotation interleaved with counting handlers; the stored snapshot is untouched and no longer valid |
| Aggregators.Aggregator.OnSample | internal/metrics/aggregator.go:200-203 | both durations of the sample are recorded; the snapshot is no longer valid |
| Aggregators.Aggregator.OnSamples | internal/metrics/aggregator.go:205-210 | the batch is recorded sample by sample, each duration once |
| Aggregators.Aggregator.OnDurations | internal/metrics/aggregator.go:212-217 | the batch is recorded under its kind, each duration once |
| Aggregators.Aggregator.MakeSnapshot | internal/metrics/aggregator.go:175-186 | the stored snapshot, rewritten in place, shows the present state under a new version; nothing else changes |
| Aggregators.Aggregator.OnSnapshotRequest | internal/metrics/aggregator.go:219-224 | remade exactly when neither valid nor younger than 10 ms; otherwise contents and version stay; a valid snapshot equals recomputation |
| Aggregators.Aggregator.AfterStop | internal/metrics/aggregator.go:263-267 | after Stop the getter sees the present state; counters stay |
| AggregatorRuns.HistoryHasAll | internal/metrics/aggregator.go:135-147 | after any events every count ever made of a kind is in exactly one interval, in order, with one completed interval for each tick |
| AggregatorRuns.MeasuresHaveAll | internal/metrics/aggregator.go:149-166 | after any events the spans of each kind, one more than ticks, are the durations the events brought for that kind, in order: add durations under kind 0, sub durations under kind 1 |
| AggregatorRuns.NothingIsLost | internal/metrics/aggregator.go:135-147 | after any events: all counts of a kind equal evicted buckets plus window plus live counter, modulo 2^64 |
| AggregatorRuns.MeasuresAreAccounted | internal/metrics/aggregator.go:149-166 | after any events every duration since the last tick is in exactly one of histogram and overflow |
| AggregatorRuns.RunAggregator | internal/metrics/aggregator.go:188-230 | any life of an aggregator: counters, histograms and overflow are those its events determine, and the snapshot is coherent |
| Reports.PrintReport | internal/metrics/report.go:76-106 | the loops write the lines of Render |
| Reports.LinesTellTruth | internal/metrics/report.go:85-103 | a line is in the report if and only if it is true: for a request kind and k in 1..60 second -k with the count of the k-th most recent completed interval, or for a duration kind the 95th or 99th percentile of what its last 60 histograms hold |
| Reports.LineCount | internal/metrics/report.go:85-103 | there are as many lines as kinds, seconds and percentiles, so each is there once |
| Reports.Printer.GetReportText | internal/metrics/report.go:36-54 | before the deadline the same text; after it the rendering of the stored snapshot, also when an equal version skips the rendering; that is the present state if the snapshot was valid, past its deadline, or the aggregator stopped, and the old snapshot otherwise |
| Reports.Printer.Print | internal/metrics/report.go:31-34 | past the deadlines the lines written are exactly the true ones of the aggregator's past |
| Reports.NowTellsTruth | internal/metrics/report.go:85-103 | the same of the rendering of the aggregator's present state |
| SnapshotCache.RunKeepsInv | internal/metrics/aggregator.go:219-224 | locks, handshake, snapshot coherence, cache coherence and freshness hold after every run |
| SnapshotCache.ReaderKeepsHandshake | internal/metrics/aggregator.go:256-270 | request and answer on the one unbuffered channel never cross; a getter builds a snapshot itself only after the aggregator is gone |
| SnapshotCache.AggKeepsSnapshot | internal/metrics/aggregator.go:175-229 | a valid snapshot is the present content; one under construction is not valid; a finished one was the state when it was made |
| SnapshotCache.ReaderKeepsCached | internal/metrics/report.go:36-54 | the cached text belongs to its version, equal versions have equal contents, and it is missing only before the first refresh |
| SnapshotCache.ReportsAreFresh | internal/metrics/report.go:36-54 | in every run every served text exists and was the aggregator's state less than 510 ms plus the refresh's duration before |
| SnapshotStaleness.StalenessIsExact | internal/metrics/report.go:36-54 | all texts of all runs whose refreshes take at most a bound are at most a limit old if and only if the limit is at least the bound plus 510 ms less 2 ns, one for each of the two deadlines |
| SnapshotStaleness.StaleRun | internal/metrics/report.go:36-54 | for every refresh duration a run with a text of just that age |
| ReportRuns.ServedTextsAreTruthful | internal/metrics/report.go:36-54 | end to end, with any number of interleaved printers: the lines of every text served, before or after a deadline, are exactly those that were true of the aggregator's events up to some moment less than 510 ms plus a refresh before |
| ReportRuns.LastReport | internal/metrics/report.go:31-54 | the lines printed after Stop are exactly those that are true of all events of the aggregator's life |
| ReportRuns.PartsAreNow | internal/metrics/aggregator.go:175-186 | the content that the caches pass on is what the aggregator shows after its events |
| ReportRuns.RenderedIsTruthful | internal/metrics/report.go:85-103 | the rendering of that content has exactly the true lines |
| SnapshotCache.CallbacksAreUntorn | internal/metrics/aggregator.go:252-270 | a callback reads one moment's state, less than 10 ms before its request was looked at, and nobody builds a snapshot meanwhile |
| SnapshotCache.NobodyIsStuck | internal/metrics/aggregator.go:256-277 | while any goroutine is inside, before or after Stop, a step towards serving it is enabled |
| SnapshotProgress.ServingDecreases | internal/metrics/aggregator.go:256-270 | every such step decreases a measure |
| SnapshotProgress.WorkBoundsServing | internal/metrics/aggregator.go:256-270 | in every run, with new data, stop and passing time in between, serving steps are bounded by the work there is and the number of new callers |
| SnapshotProgress.ServingEndsWithAllOut | internal/metrics/aggregator.go:256-277 | in every run serving is bounded so, and when no step is possible any more every caller is out, also after Stop |
| Dedups.Dedup.Log | internal/generator/loggers/dedup.go:105-123 | a remembered message is counted and not printed; another is printed and its window counts from after the printing |
| Dedups.Dedup.MaybeFlush | internal/generator/loggers/dedup.go:134-147 | for every iteration order, updating and deleting on the way: one pointwise update of the map, each due message with suppressed copies printed exactly once, and an entry forgotten if and only if it is due and has none |
| Dedups.TickKeeps | internal/generator/loggers/dedup.go:134-147 | for every entry what the update does: kept as it was, reported with a new window, or forgotten |
| Dedups.Dedup.ForceFlush | internal/generator/loggers/dedup.go:125-132 | every suppressed remainder is printed once and the map is empty |
| DedupRuns.ConservedKept | internal/generator/loggers/dedup.go:62-84 | every event keeps, for every message: received equals reported plus suppressed |
| DedupRuns.NothingUnreported | internal/generator/loggers/dedup.go:105-132 | in every run: received equals plain lines plus the counts of "(+n more)" lines plus the suppressed count |
| DedupRuns.PrintedIffExpired | internal/generator/loggers/dedup.go:105-147 | in every run a message that is taken is printed plainly if and only if every window one of its lines opened has been ended by a tick |
| DedupRuns.DroppedOnlyAfterClose | internal/generator/loggers/dedup.go:86-91 | no message is dropped by its sender before the logger is done |
| DedupRuns.CloseAccountsForAll | internal/generator/loggers/dedup.go:86-96 | when Close returns, lines account for exactly the messages sent before the first close command |
| DedupRuns.LinesAreSpaced | internal/generator/loggers/dedup.go:105-147 | any two lines of a message before the closing flush are a window apart less the lag of the first, which is none for a plain line |
| DedupRuns.SpacingIsTight | internal/generator/loggers/dedup.go:134-147 | for every window, queue and lag up to the window there is a run that attains that distance |
| DedupRuns.FullSpacingNeedsNoLag | internal/generator/loggers/dedup.go:134-147 | all runs whose lines lag at most a bound keep a full window between lines if and only if the bound is zero |
| DedupRuns.TickLeavesNothingDue | internal/generator/loggers/dedup.go:134-147 | after a tick at time t every remembered entry has flushAt > t |
| LogStats.Log2Brackets | internal/metrics/aggregator.go:69-72 | 2^log2u(x) <= x < 2^(log2u(x) + 1) |
| LogStats.EstimateBrackets | internal/metrics/aggregator.go:74-91 | for durations of at least 1: 2^sumLog2 <= their product < 2^(sumLog2 + count) |
| LogStats.SummaryConcat | internal/generator/workers/stat.go:60-68 | adding up two estimates is the estimate of both lists |
| LogStats.MaxIsUpperBound | internal/metrics/aggregator.go:74-82 | for durations of at least 1 the kept maximum is one of them and bounds all |
| Workers.Run | internal/generator/workers/worker.go:22-69 | every request up to the end of input or cancellation counts once, as ok or as an error, errors being the failed ones, and every ok one is in histogram or overflow |
| Workers.CompletedIsExact | internal/generator/workers/worker.go:52-67 | a worker without an interval completes all its input, another ends with the first request in whose pause it is cancelled and with no other |
| Workers.SuccessesAndFailures | internal/generator/workers/worker.go:40-50 | every request is a success, with its latency, or a failure |
| Workers.Stat.Merge | internal/generator/workers/stat.go:60-68 | as if one worker had made the requests of both; nil changes nothing |
| Workers.FiguresOfPermutation | internal/generator/workers/stat.go:60-68 | histogram and estimate depend only on which latencies there were |
| Workers.MergeOrderIsFree | internal/generator/workers/stat.go:60-68 | any number of workers merged in any order give the same figures |
| Workers.WaitWorkers | cmd/generator/runner.go:71-90 | the result is that of one worker with all latencies of the workers that came in before the timeout, and its successes and errors are the sums of theirs |
| Workers.KeptOrMissed | internal/generator/workers/worker.go:45-50 | every latency of a successful request, as often as it was measured, is in histogram or overflow |
| Workers.MissedExactly | internal/generator/workers/worker.go:47-49 | overflow counts each latency the histogram refuses as often as it was measured, and no other |
| Workers.EstimateHolds | internal/generator/workers/stat.go:25-41 | after any recording and merging, if the overflowed latencies are at least 1, 2^sumLog2 and their product differ by less than a factor 2^count |

## Left out

Assumptions:

- Signed overflow wraps. It is undefined in C, and a debug build of the Rust library panics.
- No handler is inside Calculate when the HTTP server returns; otherwise the code panics, as its comments say. The event that ends serving requires idle handlers.
- Clocks are monotone and count nanoseconds, as Go's do; `sync.Pool` may drop items at any time; a stopped or reset timer delivers no stale tick.
- The dedup window is positive, as the ticker requires. A window of 0 is replaced by a default there.
- Number channels carry `int` values that the operators wrap; the range of the input is not needed.

Not modelled:

- HTTP servers, routing, request parsing, status codes, pprof, flag parsing and all of the generator's HTTP client: library plumbing.
- Loading of the C and Rust libraries, and their busy loops: durations are arbitrary values.
- HdrHistogram internals: a histogram is the multiset of the durations it accepts; percentiles are shown with the multiset they are taken of.
- Floating-point rounding of the geometric mean: the integer bounds on the product stand for it.
- HELP and TYPE lines of the report, and number formatting.
- Log lines: the overflow message of a rotation, and those of failed requests.
- Recorders without recordFn or without a pool, which only tests construct.
- Samples still queued when the aggregator stops: the code drops them, so they are at most once recorded. CleanStop says that they reached the queue.
- The aggregator's reaction to a tick or a batch is one event of SnapshotCache; class Aggregators.Aggregator proves what such an event does to the state. Changes of the content that do not reach the snapshot (running counters) are none of its events.
- A scrape is served by one goroutine at a time in ServerSystem, the holder of snapMu; SnapshotCache has any number.
- Fairness and wall-clock latency of the flush timer: only order and enabledness are stated.
- Wrap-around of the snapshot version after 2^64 snapshots, and of the statistics counters.
- The aggregator of SyncMode has no snapshot requests; those are in ServerSystem and SnapshotCache.
- Arrays dropped with samples still queued when the aggregator stops: Flows ends before that.

Contracts narrower than the code:

- Workers.WaitWorkers: which results arrive before the timeout, and in which order, is a parameter.
- Reports.Printer.GetReportText: one call at a time, with `look >= deadline` for the first snapshot because the zero time lies in the past; interleaved callers are in SnapshotCache and ReportRuns.
- RequestWindows.RequestWindow.Rotate: bundles the counter, window and snapshot array of one kind, which are three arrays indexed by kind in the code.
- Workers.Stat.Merge: requires that both sides use the same histogram bounds, as NewStat gives them.
- Aggregators.Aggregator.OnSamples: one event, ending before the batch goes back to its pool; that recorders run between its reads is in Flows.
- ServeLoops.ServeLoop.Serve: one goroutine's choices as a list, the send inside recordFn always succeeding; waiting for it is part of ServerSystem.
