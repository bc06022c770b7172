# Verification of the Launcher plugin runtime

A Dafny model of the concurrent core of the Launcher Go SDK, with proofs. The SDK lets a plugin
talk to the Launcher over length-prefixed messages and gives it a job cache with status
subscriptions. The model covers

- the **job cache** as interleaved goroutines: writers under the store lock, the 64-slot queue, the
  service goroutine, three families of subscriber lists with one-slot channels, context
  cancellation, `RunningJobContext` watchers and `Close`;
- **Communicator.Serve**: reader, dispatching loop, handlers and writer over bounded channels, and
  the shutdown;
- the **in-memory store**: the restricted merge, queries, projection, pruning;
- the **wire framing**: encoder and decoder, with reads split anywhere and streams cut anywhere;
- **stream numbering, response IDs and the metrics histogram** under interleaving;
- the **example plugin's job life cycle** on top of the cache;
- the **textual codecs** of ports, environment variables and mounts.

`dafny verify dfyconfig.toml` checks the whole project.

## How it is organised

A concurrent component is a state datatype, an event per atomic action with a guard (`Enabled`) and
an effect (`Apply`), and schedules of events (`Exec`). A theorem about every run is stated for every
`Reachable` state, or for every schedule. Fields called histories record what has happened; no guard
depends on them (the cache's log is not one: it also holds the updates that the queue refers to).
Operations that update an object in place are classes whose methods are proved against functions of
the old state; those functions are also the ones that the machines use.

| file | content |
|---|---|
| `Wrappers.dfy`, `IdOrder.dfy`, `Decimal.dfy` | options, sequences, the order of IDs, decimal integers |
| `Jobs.dfy`, `Store.dfy`, `Cache.dfy` | job record, filter and projection; the store; single cache operations |
| `PubSub.dfy` | the cache as a machine |
| `PubSubStore.dfy`, `PubSubClose.dfy`, `PubSubDelivery.dfy`, `PubSubWatch.dfy` | its invariants, part by part |
| `PubSubTheorems.dfy` | what they give for every reachable state |
| `PubSubOrder.dfy`, `PubSubShutdown.dfy` | the order of the lists; progress: the queue drains, `Close` returns, and nobody subscribes any more |
| `PubSubWakeup.dfy`, `PubSubSlow.dfy` | when the end of a job reaches its watcher, and a run in which it does not |
| `SubManagers.dfy` | the `Notify` and `Close` loops, and an uninterrupted `processUpdate` |
| `Serve.dfy`, `ServeTheorems.dfy` | `Communicator.Serve` |
| `Framing.dfy` | encoder and decoder |
| `ServeBytes.dfy` | `Serve` on the bytes that the decoder reads |
| `Streams.dfy`, `Responses.dfy`, `Histograms.dfy` | stream store, response writers, histogram |
| `Lifecycle.dfy` | the example plugin |
| `Codecs.dfy` | `String`/`Set` pairs |

## Findings

Each property that the code does not have comes with an input at which it fails and the exact
condition under which it holds.

- An update can reach a subscriber before the store shows it, because the callback publishes inside
  the store lock and the service goroutine takes only `r.mu` (`DeliveryMayPrecedeCommit`). That is so
  exactly for the newest update while its writer has not stored it yet (`DeliveredIsStored`).
- The context of `RunningJobContext` may outlive its job: an earlier update fills the watcher's one
  slot, and the terminal one is dropped (`SlowWatcherMisses`). A terminal update that the service
  goroutine is done with waits in the slot, and ends the context, exactly if its callback kept the
  watched ID, the queue had room when it was published and the slot was free when it was delivered
  (`WakeupExactly`, `ContextEndsExactly`, `JobEndExactly`). The second lookup itself leaves no gap
  (`NoLostWakeup`).
- `Serve` can hang in two ways, both after a failed encode. A read error has filled the one-slot error
  channel and the loop was left by a cancel, so that the writer cannot report (`TwoErrorsHang`). Or the
  writer has stopped and handlers still have more responses than fit into `respCh`, for which neither a
  read error nor a cancel is needed (`ManyResponsesHang`). `StuckExactly` says in which states `Serve`
  is stuck; without a failed encode it never is (`NeverStuck`).
- A stream cut right after a header passes for a clean end (`CleanEndIff`), and `Serve` returns nil
  without the message (`LostAfterHeader`).
- docs/API.md calls response IDs monotonically increasing; allocation and send are separate, so they
  may cross on the wire (`IdsMayCross`). They rise exactly if no message is sent after one that drew its
  ID later (`IdsRiseExactly`), as under a lock around both (`OneAtATimeRises`). In any case they are
  unique and without gaps (`ResponseIds`).
- `Update` does not refresh `LastUpdated` once it is set, because the callback's snapshot carries it into
  the merge: a job that has just finished can be stale for `Prune` (`FinishedYetStale`). A change moves
  the timestamp exactly if the callback's result carries none (`RefreshedExactly`), so callbacks that
  leave it alone freeze it at the first change (`TimestampSticks`).

## Model

| member | source | states |
|---|---|---|
| `PubSubTheorems.NoLostWakeup` | cache/cache.go:242-283 | while a returned context is live and subscribed, every terminal update since the second lookup under the watched ID is on its way, in the watcher's channel, or counted as dropped; and a job that is terminal in the store became so by a commit since then, which is one of those if its callback kept the ID |
| `PubSubTheorems.PendingExactly` | cache/cache.go:256-281 | a terminal commit of the watched job is queued or in the channel, so not dropped so far, exactly if its callback kept the ID, the queue took the update and the channel has not refused it |
| `PubSubWakeup.DroppedExactly` | cache/cache.go:470-478 | in every run an update is dropped for a subscriber exactly if its writer found the queue full or the cache discarding, or the service goroutine came to the live subscriber and found its slot taken |
| `PubSubWakeup.WakeupExactly` | cache/cache.go:256-281 | in every run, a terminal update since the subscription that the service goroutine is done with is in the slot of a live watcher, where receiving it ends the context, exactly if it was published under the watched ID and the queue and the slot had room when it came |
| `PubSubWakeup.ContextEndsExactly` | cache/cache.go:268-281 | with nothing on its way, the next receive ends a live context exactly if some terminal update under its ID had room all along |
| `PubSubWakeup.JobEndExactly` | cache/cache.go:239-283 | for a job that is terminal in the store, its last commit ends the context exactly if its callback kept the ID and it had room |
| `PubSubSlow.SlowWatcherMisses` | cache/cache.go:268-281 | a reachable state in which the job is finished, nothing is queued and the watcher waits on, because its slot was full |
| `PubSubTheorems.MarkCountsCommits` | cache/cache.go:260-267 | the second lookup runs with no writer in the store, so commits after it are exactly the positions from its mark on |
| `PubSubTheorems.LookupsExactly` | cache/cache.go:141-159 | both lookups of `RunningJobContext` go on exactly for a stored job that the user may see and whose status is none of the four terminal ones; otherwise the call ends with its context cancelled |
| `PubSubTheorems.ContextWasGranted` | cache/cache.go:242-283 | in every run, each returned context goes back to a second lookup at which its user saw the job running |
| `PubSubTheorems.EndedIsCancelled` | cache/cache.go:263-281 | in every reachable state a call that has ended, also by a terminal update, has cancelled its context |
| `PubSubTheorems.WatcherGoesExactly` | cache/cache.go:268-281 | a live watcher can receive exactly if its channel has an update, and can end exactly if its context is cancelled or its drained channel is closed |
| `PubSubTheorems.UnlistedWatcherEnds` | cache/cache.go:268-281 | a watcher that was removed from its list can always receive or see its channel closed |
| `PubSubTheorems.AttemptsAreCommits` | cache/cache.go:163-210 | publish attempts and status commits correspond one to one in order, but for one writer still inside the store lock; every job stays under its own ID |
| `PubSubTheorems.PublishExactly` | cache/cache.go:163-198 | a write publishes exactly a new job or a changed status or message, with ID, user, name, status, code and message of the callback's result |
| `PubSubTheorems.WritersExactly` | cache/store.go:74-100 | writers wait for each other only: the lock admits a write exactly if it is free, an update exactly by a user who may see the job, and a write inside it can always finish |
| `PubSubTheorems.FanOutInOrder` | cache/cache.go:75-101 | what a subscriber is sent is an in-order, duplicate-free subsequence of the attempts that match its ID, its user or all; its consumer sees it in that order |
| `PubSubTheorems.RunGrowsSub` | cache/cache.go:455-503 | in every run a subscriber's histories only grow, a closed channel is never sent to or reopened, and a cancelled subscriber is sent nothing more |
| `PubSubTheorems.ClientsExactly` | cache/cache.go:354-395 | a context can be cancelled at any time, a consumer can receive exactly what is in its slot, and a subscription can start exactly when `r.mu` is free |
| `PubSubTheorems.ReceiveExactly` | cache/cache.go:268-281 | a receive takes what is in the slot and frees it |
| `PubSubOrder.ListsInOrder` | cache/cache.go:448-482 | in every reachable state each list, and so each round of notifications, is in subscription order |
| `PubSubTheorems.CancelExactly` | cache/cache.go:263-281 | a cancel marks one subscriber and changes nothing else |
| `PubSubTheorems.CancelledIsDropped` | cache/cache.go:462-469 | the next visit closes a cancelled subscriber's channel, sends nothing and takes it off its list |
| `PubSubTheorems.ExactAccounting` | cache/cache.go:455-482 | the matching attempts since a live subscriber's cut split exactly, as sets and in number, into sent, lost at its channel, still queued and refused by the queue |
| `PubSubTheorems.DropsOnlyWhenFull` | cache/cache.go:470-478 | an action loses an update only at a full channel, a full queue or a closing cache |
| `PubSubTheorems.QuiescentAgreement` | cache/cache.go:520-536 | with no drops and nothing under way, the last update sent about a stored job carries its stored status and message |
| `PubSubTheorems.QuiescentAgreementById` | cache/cache.go:354-369 | for a subscriber to one job the very last update is the job's latest commit, exactly if that commit and nothing after it was published under the job's ID; callbacks that keep IDs ensure this |
| `PubSubTheorems.CloseProtocol` | cache/cache.go:106-138 | no channel is closed twice or sent to after closing; nothing in a list is marked closed; once `Close` has returned, every channel ever subscribed is closed and all lists are empty |
| `PubSubTheorems.ChannelsUsedOpen` | cache/cache.go:455-503 | no action of any run sends on a closed channel or closes one again, and the `Close` loop never meets a subscriber marked closed |
| `PubSubShutdown.SubscribeAfterStop` | cache/cache.go:354-395 | in every run after the stop, a channel that is subscribed is closed at once, joins no list and is never sent anything |
| `PubSubShutdown.CloseReturns` | cache/cache.go:119-138 | in every run after the stop the steps towards the return of `Close` are bounded, by the work at the stop and the updates still taken from the queue, and until it returns one of them is possible |
| `PubSubShutdown.CloseCompletes` | cache/cache.go:119-138 | from every reachable state `Close` can be called and return without any help from subscribers |
| `PubSubShutdown.QueueDrains` | cache/cache.go:60-68 | before the stop, the service goroutine can empty the queue from every reachable state |
| `PubSubShutdown.StepRunsDown` | cache/cache.go:56-68 | after the stop each step of the shutdown brings the return nearer, and no writer, subscriber or watcher puts it off |
| `PubSubTheorems.ClosedForGood` | cache/cache.go:119-138 | a returned `Close` stays returned in every continuation, so `CloseProtocol` keeps applying |
| `PubSubTheorems.DeliveryMayPrecedeCommit` | cache/cache.go:163-181 | a reachable state in which a subscriber has an update of a job that the store does not hold |
| `PubSubTheorems.DeliveredIsStored` | cache/cache.go:163-181 | in every reachable state a delivered update is in the store, except exactly for the newest one while its writer is between callback and write |
| `PubSubTheorems.StepKeeps` | cache/cache.go:45-101 | every action of every goroutine keeps the cache's invariant |
| `PubSubStore.CommitKeepsStore` | cache/store.go:74-100 | storing a callback's result keeps log, commits and stored statuses in agreement |
| `PubSubStore.AnnouncedIffCommitted` | cache/cache.go:185-198 | a write changes the stored status or message exactly when its callback published, and stores what it published |
| `PubSubStore.WriteIsTwoSteps` | cache/store.go:74-100 | publishing and storing without interference is the store update as one call |
| `PubSubClose.CloseKeepsHub` | cache/cache.go:486-503 | the front of a list has an open channel, so the guard of the `Close` loop always holds |
| `PubSubClose.AudienceOk` | cache/cache.go:80-90 | the three lists visited for an update hold every subscriber it concerns, each once, and nobody else |
| `PubSubClose.AudienceInOrder` | cache/cache.go:80-90 | subscribers to everything are visited first, then those to the job, then those to the user |
| `PubSubDelivery.AddKeepsNewSub` | cache/cache.go:363-368 | a new subscriber misses nothing from the oldest update that the service goroutine has not finished |
| `PubSubDelivery.VisitKeepsSub` | cache/cache.go:462-479 | one round of `Notify` keeps order, disjointness and completeness of what was sent and lost |
| `PubSubWatch.CommitKeepsSeen` | cache/cache.go:260-262 | a job seen running stays so in the store until a status commit after the mark |
| `SubManagers.SubManager.Notify` | cache/cache.go:455-482 | the list keeps its live subscribers in order, each channel in it is visited once, and the two counts are those with and without room |
| `SubManagers.SubManager.Close` | cache/cache.go:486-503 | the list is emptied, each channel in it closed exactly once, and all are counted |
| `SubManagers.SubManager.Subscribe` | cache/cache.go:448-450 | the subscriber joins at the back and the list stays valid |
| `SubManagers.CountsAddUp` | cache/cache.go:452-454 | notified and dropped together are the live subscribers |
| `SubManagers.CountsExactly` | cache/cache.go:452-480 | notified and dropped are the numbers of subscribers that were sent the update and that lost it |
| `SubManagers.ProcessUpdateRun` | cache/cache.go:75-101 | a `processUpdate` that nobody interrupts visits the whole audience once and leaves the survivors of each list concerned, in order |
| `Cache.JobCache.AddOrUpdate` | cache/cache.go:163-181 | the store after it, and that it publishes exactly for a new job or a changed status or message |
| `Cache.JobCache.Update` | cache/cache.go:185-210 | the store after it; a missing or foreign job changes and publishes nothing; a changed status or message is queued unless the queue is full or the cache is closing, and nothing else ever is |
| `Cache.JobCache.Lookup` | cache/cache.go:141-159 | the job if it exists and the user may see it, else not found |
| `Cache.JobCache.Notify` | cache/cache.go:525-536 | an update is queued, or dropped only if the queue is full or the cache is closing |
| `Cache.JobCache.Prune` | cache/cache.go:402-429 | exactly the accepted jobs are deleted, each stale; a declined job ends the scan; if none is declined, no stale job is left |
| `Cache.StaleJobs` | cache/cache.go:411-421 | the scan offers stale jobs only, each once, in any order, and all of them unless one is declined |
| `Cache.StaleExactly` | cache/cache.go:402-417 | stale is exactly a job of one of the four terminal statuses whose timestamp is at or before the cutoff |
| `Cache.KeysStayMatched` | cache/cache.go:163-210 | the cache keeps every job under its own ID, whatever a callback returns |
| `Cache.TimestampSticks` | cache/store.go:189-194 | after any run of updates whose callbacks leave the timestamp alone, it is the one from before the run, or else the time of the first change; later changes never move it |
| `Cache.RefreshedExactly` | cache/store.go:189-200 | an update that changes a field takes the time of the update exactly if the callback's result carries no timestamp, that is, for a callback that keeps the snapshot's, exactly if there was none; it is reported as a change either way |
| `Cache.FinishedYetStale` | cache/store.go:190-193 | a running job that finishes at 100 keeps its timestamp 0, although the update is reported, and is stale at a cutoff of 50 |
| `Store.SyncJob` | cache/store.go:159-201 | the field-by-field merge equals the declarative one, and reports a change exactly when a field or a given timestamp changed it |
| `Store.RestrictedMerge` | cache/store.go:156-201 | in every run of writes, from insertion to deletion, all fields but the eight updatable ones keep their value and nothing set becomes unset |
| `Store.LastWriteWins` | cache/store.go:156-188 | in every run of writes, from insertion to deletion, pid, host, exit code and submission time are those of the last write that sets them, and the three status fields those of the last write |
| `Store.MergeTimestamp` | cache/store.go:189-200 | a given timestamp is stored, the clock is taken exactly for a change without one, and the flag says exactly whether one was given or a field changed |
| `Store.InsertedAsGiven` | cache/store.go:90-96 | a new job is stored as given and stays so under writes to other keys |
| `Store.RemovedIsGone` | cache/store.go:149-154 | a deleted job is gone until it is stored again |
| `Store.OtherKeysUntouched` | cache/store.go:74-100 | in every run of writes to other keys a job stays as it is |
| `Store.MergeIdempotent` | cache/store.go:159-201 | merging the same input again changes nothing |
| `Store.MergeSelf` | cache/store.go:79-97 | writing a snapshot back changes nothing |
| `Store.InMemoryStore.Update` | cache/store.go:74-100 | nil leaves the store alone, a missing job is inserted, a present one merged; reports a change exactly if a present job got a timestamp or a changed field |
| `Store.InMemoryStore.Delete` | cache/store.go:149-154 | exactly that key is removed |
| `Store.InMemoryStore.JobsForUser` | cache/store.go:121-147 | the result is the ID-sorted list of exactly the jobs matching user and filter, projected; the second loop never misses |
| `Store.CollectIds` | cache/store.go:124-134 | the first loop finds exactly the wanted IDs, each once, in any map order |
| `Store.AnswerUnique` | cache/store.go:135-144 | a query has one answer, whatever the map order |
| `IdOrder.SortIds` | cache/store.go:136-136 | distinct IDs are sorted strictly and kept as a set |
| `IdOrder.BeforeExactly` | cache/store.go:136-136 | the order is ascending: at the first difference the smaller character, or the end of the text, comes first |
| `IdOrder.SortedUnique` | cache/store.go:135-136 | a set of IDs has one sorted listing |
| `Jobs.WithFields` | api/types.go:520-531 | the loop over field names computes the projection to the named fields, all fields for no names |
| `Jobs.ProjectedByName` | api/types.go:350-531 | which wire name keeps which field, for every field of the job |
| `Jobs.ProjectionsCompose` | api/types.go:514-531 | two projections are one to the intersection of their field sets |
| `Jobs.Includes` | api/types.go:199-229 | true exactly if time, status and tag conditions all hold |
| `Jobs.FilterAlgebra` | api/types.go:199-229 | time bounds are inclusive, every tag narrows the filter, every further status widens it, and the empty filter accepts all |
| `Jobs.TerminalExactly` | api/types.go:169-175 | exactly Canceled, Failed, Finished and Killed are terminal |
| `ServeTheorems.NeverHidesFailure` | internal/protocol/communicator.go:70-99 | a nil result means that no encode failed and every response was written once in channel order; after an ended request stream also that the decoder had no error and every request was dispatched |
| `ServeTheorems.WrittenIsPrefix` | internal/protocol/communicator.go:37-47 | what is written is always a prefix of what was sent; nothing is sent on the closed channel, which is closed once, after the last handler |
| `ServeTheorems.ChannelUsedOpen` | internal/protocol/communicator.go:80-89 | no action of any run sends on the closed response channel or closes it again |
| `ServeTheorems.NeverStuck` | internal/protocol/communicator.go:37-99 | in every reachable state without a failed encode, before `Serve` returns, some goroutine can go on |
| `ServeTheorems.StuckExactly` | internal/protocol/communicator.go:35-90 | in every reachable state before the return, no goroutine can go on exactly if an encode failed, the reader is stopped, and either the writer cannot report to a full error channel while `Serve` waits for it, or `Serve` waits for handlers that are all blocked on a full response channel that the writer has left |
| `ServeTheorems.HungForGood` | internal/protocol/communicator.go:86-90 | a hung `Serve` never returns, not even after a cancel |
| `ServeTheorems.VerdictExactly` | internal/protocol/communicator.go:70-99 | unless it is cancelled, `Serve` returns nil exactly if neither the decoder nor an encode failed, and then every request was dispatched and every response written |
| `ServeTheorems.ReturnsFirstError` | internal/protocol/communicator.go:70-99 | in every run, cancelled or not, the result is the first error that reader or writer reported before the end, or nil; without cancel and failed encode it is the decoder's error |
| `ServeTheorems.ErrorIsReal` | internal/protocol/communicator.go:40-66 | a returned error is the decoder's or one that an encode failed with |
| `ServeTheorems.ReportsCounted` | internal/protocol/communicator.go:35-73 | every reported error is in the channel, but for the one that the loop received |
| `ServeTheorems.StepDecreases` | internal/protocol/communicator.go:37-99 | every action decreases a measure, so every run ends |
| `ServeTheorems.LoopResponds` | internal/protocol/communicator.go:68-88 | the loop can take exactly the branches that are ready: a cancel, an error, a request, the end |
| `ServeTheorems.HandlersRespond` | internal/protocol/communicator.go:78-84 | any handler can send exactly if it has a response and there is room |
| `ServeTheorems.CleanEnd` | internal/protocol/communicator.go:30-100 | a clean input without cancel or failed encode ends in nil through the ended stream, with every request handled once in order and every response written once |
| `ServeTheorems.TwoErrorsHang` | internal/protocol/communicator.go:35-66 | a reachable hung state, after a read error, a cancel and a failed encode, in which nothing at all can happen |
| `ServeTheorems.ManyResponsesHang` | internal/protocol/communicator.go:38-47 | for every handler with at least 102 responses, a reachable hung state after one failed encode, without read error or cancel |
| `ServeTheorems.StepKeeps` | internal/protocol/communicator.go:30-100 | every action keeps the invariant of requests, responses, errors and shutdown |
| `Framing.RoundTrip` | internal/protocol/stream.go:49-100 | an encoded stream decodes to exactly its messages and a clean end |
| `Framing.DecodeFrames` | internal/protocol/stream.go:83-100 | frames that fit come out as they went in, whatever follows them |
| `Framing.OversizeStops` | internal/protocol/stream.go:92-95 | a message over the decoder's limit ends the stream with an error after those before it |
| `Framing.DecodeIsExact` | internal/protocol/stream.go:83-100 | for arbitrary bytes, what the decoder yields re-encodes to the bytes it consumed |
| `Framing.FaultEndsStream` | internal/protocol/stream.go:83-100 | a reader's own error ends the stream with that error, unless an oversize header came first |
| `Framing.Truncation` | internal/protocol/stream.go:83-100 | every cut yields exactly the messages wholly before it, and the error the cut ends on |
| `Framing.CleanEndIff` | internal/protocol/stream.go:136-141 | a cut stream ends cleanly exactly at a frame boundary or between a header and its non-empty body |
| `Framing.HeaderRoundTrip` | internal/protocol/stream.go:56-59 | the four-byte header gives back every length below 2^32 |
| `Framing.HeaderValue` | internal/protocol/stream.go:91-91 | the length is big-endian |
| `Framing.Encoder.Write` | internal/protocol/stream.go:49-64 | one frame is appended; an oversize message is refused and nothing is written; or the writer fails, its error is returned and a part of the frame is written |
| `Framing.Encoder.WriteAll` | internal/protocol/communicator.go:38-44 | the writer loop appends the frames of all messages, or of those before the first that fails and a part of that one |
| `Framing.Transfer` | internal/protocol/stream.go:49-100 | messages written and read back come out as they went in; after a refusal exactly those before it, after a failing writer at most the failed one besides |
| `Framing.Reader.ReadFull` | internal/protocol/stream.go:88-98 | the requested bytes or the right error, for every way the reader splits its data, with empty reads in between, whether it ends or fails |
| `Framing.Decoder.More` | internal/protocol/stream.go:83-100 | the next frame of the stream, or its error, which is final |
| `Framing.Decoder.Request` | internal/protocol/stream.go:103-112 | the parsed message, or none with the parse error kept as the decoder's final one |
| `ServeBytes.ReadRequests` | internal/protocol/communicator.go:54-66 | the read loop yields exactly the requests that the stream decodes and parses to, up to the first that does not, and its error |
| `ServeBytes.BytesVerdict` | internal/protocol/communicator.go:30-100 | on arbitrary bytes an uncancelled `Serve` returns nil exactly if the stream ends cleanly, every message parses and no encode failed; then the dispatched requests are the messages in order |
| `ServeBytes.CutVerdict` | internal/protocol/stream.go:83-100 | on a cut stream of good messages it returns nil exactly if the cut looks complete, and has handled exactly the messages before it |
| `ServeBytes.LostAfterHeader` | internal/protocol/stream.go:96-98 | cut between a header and its body, the message is lost and the result is nil |
| `Streams.OneLife` | launcher/launcher.go:754-787 | within any interleaving a stream is numbered 1, 2, ..., n until its cancel and 0 afterwards |
| `Streams.CountsUp` | launcher/launcher.go:779-787 | a live stream keeps its context and counts on without gap or repeat, whatever other streams do |
| `Streams.ZeroWhenStopped` | launcher/launcher.go:782-786 | a request without a live stream gets zeros until it is started |
| `Streams.CancelIsLocal` | launcher/launcher.go:754-776 | a second start changes nothing; a cancel ends its own context and leaves every other stream's context and counter |
| `Streams.StreamStore.Start` | launcher/launcher.go:754-765 | a live stream keeps its record, another gets a new context and counter |
| `Streams.StreamStore.Cancel` | launcher/launcher.go:769-776 | the stream is removed and its context cancelled |
| `Streams.StreamStore.SequenceID` | launcher/launcher.go:779-787 | the next number of a live stream, else 0 |
| `Responses.ResponseIds` | launcher/launcher.go:583-590 | without wrap-around the IDs drawn are 0 to n-1, each on exactly one message or in one draft; messages that draw none carry 0 |
| `Responses.NoSharedIds` | launcher/launcher.go:606-734 | no two numbered messages on the wire share an ID |
| `Responses.WireKeepsOrder` | launcher/launcher.go:630-693 | a stream's numbers appear on the wire in the order they were issued, but for one in a draft |
| `Responses.CallsExactly` | launcher/launcher.go:630-693 | in every run streams are opened, stopped and numbered exactly where the run says so |
| `Responses.AuthorsRespond` | launcher/launcher.go:583-693 | a writer has one message at a time and can always go on with it, whatever the others do |
| `Responses.NumberedExactly` | launcher/launcher.go:583-693 | on the wire exactly the messages of streams that draw an ID carry a sequence number |
| `Responses.IdsMayCross` | launcher/launcher.go:587-590 | a reachable state whose wire carries ID 1 before ID 0 |
| `Responses.IdsRiseExactly` | launcher/launcher.go:583-590 | in every run without wrap-around the IDs rise along the wire exactly if every numbered message is sent while nothing drawn later is on the wire |
| `Responses.OneAtATimeRises` | launcher/launcher.go:583-590 | if IDs are drawn only while no other message is under construction, they rise |
| `Histograms.Conservation` | launcher/metrics.go:98-143 | in every interleaving each accepted observation is in exactly one of the current histogram, one swapped-out one and one drained batch, once; each sample counts exactly its batch and is nil exactly for an empty one |
| `Histograms.AcceptedExactly` | launcher/metrics.go:98-105 | in every run exactly the non-negative observations are accepted, in order |
| `Histograms.Collect` | launcher/metrics.go:116-142 | bucket i counts the values above the previous bound and up to its own; no difference underflows; the buckets add up to the count at or below the top bound |
| `Histograms.CountsExactly` | launcher/metrics.go:124-137 | the counts are the numbers of observations at or below a bound, and above the one before |
| `Histograms.TotalConcat` | launcher/metrics.go:124-142 | the sum counts every observation once |
| `Histograms.CheckBounds` | launcher/metrics.go:69-80 | accepted exactly if non-empty, positive and strictly increasing throughout |
| `Histograms.Histogram.Observe` | launcher/metrics.go:98-105 | negative values are ignored, others recorded |
| `Histograms.Histogram.Drain` | launcher/metrics.go:110-143 | the snapshot of everything observed since the last drain, which is reset |
| `Lifecycle.TerminalAbsorbs` | examples/inmemory/main.go:94-121 | whatever runs on, a terminal job is untouched or deleted for good |
| `Lifecycle.StatusMoves` | examples/inmemory/main.go:251-302 | a job moves only from Pending to Running or Canceled and from Running to Finished or Killed |
| `Lifecycle.ControlExactly` | examples/inmemory/main.go:251-302 | what each operation makes of a job in each status, field by field, for a user who may see it, and nothing for anyone else |
| `Lifecycle.MarksExactly` | examples/inmemory/main.go:94-121 | the job's goroutine takes a pending job to running and a running one to finished with exit code 0 |
| `Lifecycle.RoutineEnds` | examples/inmemory/main.go:94-121 | in every run a job whose goroutine is done has ended unless it is long-running, and a long-running job is finished only by a control |
| `Lifecycle.SubmitExactly` | examples/inmemory/main.go:45-61 | a submitted job is stored as given, pending, under the drawn ID, for the user and with both times set |
| `Lifecycle.Bookkeeping` | examples/inmemory/main.go:251-302 | every job has at most three publish attempts and one successful control; Finished means exit code 0 or 143, Killed 137, Canceled none |
| `Lifecycle.PruneDeletesTerminal` | cache/cache.go:410-428 | interleaved with the plugin's updates, every job that `Prune` deletes is still terminal at its deletion |
| `Lifecycle.ScanExactly` | cache/cache.go:410-421 | a scan picks jobs that are stale at that moment, and deletes nothing yet |
| `Lifecycle.JobIdsDiffer` | examples/inmemory/main.go:46-47 | IDs do not repeat within the range of the int32 counter |
| `Lifecycle.JobIdText` | examples/inmemory/main.go:46-47 | up to the first wrap-around the k-th ID is `job-k` |
| `Codecs.PortRoundTrip` | api/types.go:761-809 | every port is read back up to normal form, and its text is a fixed point |
| `Codecs.PortForms` | api/types.go:776-809 | what each of the four text forms of a port means |
| `Codecs.ParsePortExactly` | api/types.go:778-809 | the parser accepts one or two numbers and an optional protocol, and nothing else |
| `Codecs.ParsedPortIsNormal` | api/types.go:778-809 | printing and parsing a parsed port is the identity unless its protocol is empty |
| `Codecs.PortFlag.Set` | api/types.go:778-809 | overwrites the port with the parsed one, or leaves it alone on an error |
| `Codecs.EnvRoundTrip` | api/types.go:327-346 | a variable is read back exactly when neither part contains the separator |
| `Codecs.ParseEnvExactly` | api/types.go:336-346 | exactly the texts with one separator are read, as what is around it |
| `Codecs.EnvFlag.Set` | api/types.go:336-346 | overwrites the variable, or leaves it alone on an error |
| `Codecs.MountRoundTrip` | api/types.go:627-686 | a host mount is read back, without its name, exactly when both paths are absolute and free of colons |
| `Codecs.MountForms` | api/types.go:642-686 | what each text form of a host mount means |
| `Codecs.ParseMountExactly` | api/types.go:644-686 | the parser accepts the four forms with absolute colon-free paths, and nothing else |
| `Codecs.ForeignMountRefused` | api/types.go:627-649 | a mount of another kind prints as the empty text, which is refused |
| `Codecs.MountFlag.Set` | api/types.go:644-686 | overwrites the mount, or leaves it alone on an error |
| `Decimal.AtoiItoa` | api/types.go:773-797 | every 64-bit integer is read back as printed, and its text has no separator |
| `Decimal.AtoiForms` | api/types.go:788-797 | digits with leading zeros and an optional sign are read, within the range of an int |
| `Decimal.AtoiAccepts` | api/types.go:788-797 | nothing else is read |

## Left out

- JSON: message bodies are opaque bytes, and parsing is a parameter.
- Framing.Reader.ReadFull: a reader that makes empty reads for ever, on which the code does not return, and one that reports an error once with its last bytes and then goes on, are not modelled.
- ServeBytes.ReadRequests: parsing is a parameter.
- StreamJobStatus and StreamJobStatuses: only their subscriptions are modelled; they do not look again after subscribing and promise less than `RunningJobContext`.
- PubSubTheorems.NoLostWakeup: is about safety; that the service goroutine and the watcher are eventually scheduled is assumed, not modelled.
- PubSubShutdown.CloseReturns: Go's select picks at random between the queue and the stop; that it picks the stop in the end is not modelled, the bound counts the updates taken instead.
- SubManagers.SubManager.Notify: nobody cancels a context or receives while this method runs; that interleaving is in the machine, whose `NotifyOne` is one round of the loop.
- SubManagers.SubManager.Subscribe: keeps the list valid for a new open channel only, which is what the cache passes.
- The recover in the service goroutine: no panic is reachable, which is what `CloseProtocol` shows.
- ServeTheorems.CleanEnd: handlers are assumed to finish their sends before they return; the metrics goroutine and the example's output goroutine outlive their handlers and are not modelled; `StuckExactly` and `VerdictExactly` share the assumption.
- Responses.WireKeepsOrder: assumes one writer per stream; the cancellation of the parent context of all streams is not modelled.
- Histograms.Conservation: floats are reals, so NaN, infinities and rounding are absent, Prometheus is a list of observations, and sending a drained sample is not modelled.
- Lifecycle.StatusMoves: jobs are submitted without an exit code, control operations are the five that the request handler lets through, and at most 2^32 jobs are submitted, after which the int32 counter repeats.
- Jobs.Includes: requires the submission time for a filter with time bounds; the code dereferences it.
- Job fields that the cache only copies: kept as opaque values by wire name.
- createHandler beyond starting and cancelling streams, option parsing, logging, the test helpers and the example's canned answers: they would only add easy members.
- Wall-clock time: timestamps and ticks are parameters.
