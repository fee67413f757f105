# Firstrun, modelled in Dafny

Firstrun collects log entries in client libraries and a browser tag, delivers them to an edge that stores and meters
them, and answers questions about them on boards. This project models the parts of it where something has to hold over
every run or every input, and proves that it does, or states exactly when it does not.

`dafny verify dfyconfig.toml` checks everything.

## What is modelled

**Delivery, end to end.** `BoundedQueue`, `Breaker`, `Grouping` and `Wire` are the Node client's parts. `Delivery` is the
client between two awaits: `sendBatch` is the only suspension point of a drain, so a life of the client is a sequence of
atomic segments (record, a timer firing, flush, a reply with one of the transport's three outcomes, the microtask in which
`pump` resumes, restore, the three parts of close) in any order its callers, timers and replies produce. `NodeClient` is the
object with its fields, each method proved equal to its segment. `DeliveryRuns` proves what every run keeps;
`DeliveryProgress` says what a wakeup comes to,
`DeliveryBounds` exactly what a drain's limits decide, and `DeliveryWitnesses` exactly when the stronger statement one
would like is false, with a run of each. `Edge` is the handler, the
normaliser and the table, with the primary key as the only deduplication, and `ExactlyOnce` puts client, network and edge
together: a request may be lost, applied without its reply arriving, applied late, or applied twice.

**The query compiler.** `Filters` says what a filter tree means over a row, in three-valued logic, without any SQL.
`Compiler` and `Statements` emit what `db/query.ts` emits, as tokens, threading the parameter list. `Sql` reads tokens back
with PostgreSQL's precedences (section 4.1.6 of its manual) and evaluates them with the parameters bound; `Json` has the
path walk and jsonb containment (section 8.14.3), `Like` the pattern match. `CompilerProof` proves the two agree for every
tree and row.

`Answers` says what a whole query asks of a table, again without any SQL: which rows, in which groups, what of each group
(`Aggregates`), in which order and how many of them. `Select` reads a statement's tokens by their own words and says what a
database makes of it: rows kept, grouped, folded, joined with the generated series, sorted and cut (sections 7.2 to 7.6,
9.9.2 and 9.21 of the manual). `FoldProof`, `SelectProof`, `GroupProof`, `AnswerProof` and `FillProof` carry the one over to
the other, and `StatementProof` has the result: what may come back for a compiled statement, decoded, is exactly what may
answer the query.

`RunQueries` shares statements and files answers, `Fill` is the left join onto generated buckets in whatever zone, `Splice`
renumbers text at the level of characters, which `Spelling` reads back as tokens, and `Fragments` does so to a compiled
filter. `Boards` plans what a board fetches; `QueryKeys`, `QueryJson` and `JsonText` key it.

**The Go sender.** `DiskQueue` is the mirror file as its characters, with every failure its calls can meet; `GoSender` is
the sender goroutine over it, with a ghost ledger of where each entry went; `Backoff` is the wait between tries.

**The browser tag** (`WebTag`) is one class, with ghost fields that remember everything recorded, sent, stored and derived.

**The canvas** (`Canvas`) places cards.

## What does not hold, and when it does

- A wakeup can be lost in three ways and no other: giving up with the breaker open; a flush that lands between the end of
  a drain and its pump, which clears the retry timer; and, in immediate mode, an entry recorded in that same window. For
  each, `DeliveryWitnesses` has the condition on the client under which it strands.
- First in, first out holds per resource group. Of everything it holds exactly where no slice can hold three entries; a
  requeued slice comes back grouped, which is its own order exactly where each group already stood together.
- `maxRequestsPerFlush` is asked between slices, so a drain can exceed it by almost a slice of requests; no drain does
  exactly where a slice can hold only one entry.
- `close` promises that nothing is left running. That is so exactly where its flush had drained when it released the
  client: otherwise a request that fails later, or a flush while the store is awaited, can leave a drain or a retry.
- One probe per cooldown is a property of the Node client. The Go client's `attempt` does not ask the breaker between
  tries, and keeps to it exactly where failures and retries together stay below the threshold.
- A wakeup the Go client refuses starts its wait again, so an immediate client kept busier than `RetryBase` makes no
  further request after one failed pass, for as long as it stays that busy.
- What the last rewrite of the Go client's file drops at shutdown for want of room is in no counter.
- A body between 4097 and 16384 characters is queued and sent, and its entry is thrown away at the edge.
- Resource and entry attributes that are each valid can add up to more than 64 keys, and the request then fails, for
  every entry in it and on every retry.
- A resource whose named values push it past 64 keys, or of which one is longer than 4096, is dropped whole at the edge.
- A Go queue file that ends in a torn line merges the next record into it; one record of a mebibyte or more hides every
  record behind it. A mebibyte is within the attribute bounds (64 keys of nested arrays of 4096-character strings).
- `withConditions` does not look at the depth of the conditions it adds, so it can build a filter the schema refuses.
- Filled counts add up exactly where each instant's bucket is generated once: not across a skipped hour with hourly
  buckets, and not across a repeated hour with buckets shorter than it.
- With consent, outside manual mode, the tag drops an entry exactly when a `session_start` lands on a 49-deep buffer.
  Identity is attached when the buffer goes out, so entries buffered before `user()` travel under the new user.

Where a comment and the code disagree the code is modelled: `close` says nothing new is queued behind its final flush, but
`enqueue` looks at `enabled`, which is still true; `deliver` says the leftover stays oldest first, which it does per group;
a nested object's number of keys is not bounded by the edge, although the constant's comment says one may hold 128.

## Model

| member | source | states |
|---|---|---|
| ExactlyOnce.StoredExactlyOnce | clients/node/src/client.ts:1035-1119 | Over every run of client, network and edge, with requests lost, applied late, applied twice or answered into the void: no key is stored twice; every entry counted `sent` that parses at the edge is stored; every row holds the name, severity, time and id of an entry this client took in, and under each key the source's id, else what the entry says, else what a resource of that entry's own group says, and no other key; the meter never exceeds the table and equals it when no meter write failed |
| ExactlyOnce.HappenedInv | packages/ingest/src/pipeline.ts:53-72 | The invariant behind it survives every client segment and every arrival, in any interleaving |
| DeliveryRuns.Conservation | clients/node/src/client.ts:1035-1119 | At every point of every run, recorded plus restored equals in flight plus queued plus sent plus abandoned plus dropped plus left on disk, as multisets and in the public counters, and the queue is within capacity |
| DeliveryRuns.PerGroupFifo | clients/node/src/client.ts:1052-1144 | With a memory store, per resource group, what was sent, then is in flight, then queued, is a subsequence of the order recorded, across slicing, chunking, requeue and overflow |
| DeliveryRuns.OneGroupFifo | clients/node/src/client.ts:1052-1144 | Where everything recorded is of one resource, that is the order of all of it |
| DeliveryBounds.FifoIff | clients/node/src/client.ts:1052-1144 | With a memory store, everything any run sends is in the order recorded exactly where no slice can hold three entries (`maxQueueEntries` or `maxEntriesPerFlush` at most 2); otherwise there is a run in which one overtakes another |
| DeliveryBounds.RequeueIsGrouped | clients/node/src/client.ts:1075-1116 | A slice that is flushed and fails comes back in grouped order, which leaves the queue as it was exactly where each group of the slice stood together |
| DeliveryBounds.BudgetIsExact | clients/node/src/client.ts:1035-1056 | `n` bounds the requests of every drain of every run exactly when it is at least `maxRequestsPerFlush - 1` plus the most entries a slice can hold |
| DeliveryBounds.BudgetKeptIff | clients/node/src/client.ts:1035-1056 | So no run's drain exceeds `maxRequestsPerFlush` exactly where `maxQueueEntries` or `maxEntriesPerFlush` is 1 |
| DeliveryRuns.RequestBudget | clients/node/src/client.ts:1035-1056 | A drain never exceeds `maxRequestsPerFlush - 1` requests and then a slice of them, whatever arrives meanwhile, and every body it sends is non-empty, within `maxBatch` and of one resource |
| DeliveryRuns.DrainAdvances | clients/node/src/client.ts:1056-1119 | Only a reply moves a drain, and each reply uses up one request of that budget or ends it: every drain terminates |
| DeliveryRuns.OneProbePerCooldown | clients/node/src/client.ts:1003-1062 | A request made while the breaker is open comes at least `resetMs` after the failure before it and, with a monotone clock, `resetMs` after any other such request; `probing` implies a drain is waiting for its answer |
| DeliveryRuns.GivesUpOnSchedule | clients/node/src/client.ts:1093-1116 | A slice is given up on every `maxRetries + 1`-th failure in a row and on no other; a permanent refusal neither counts nor clears |
| DeliveryRuns.UrgentGoesOut | clients/node/src/client.ts:911-935 | On an idle client the breaker lets send, recording puts a request out at once exactly for a severe entry or a full queue, and a flush of a non-empty queue always does |
| DeliveryRuns.RestoreGoesOut | clients/node/src/client.ts:391-430 | On an idle, open client the breaker lets send, what a durable queue gives back stands in front of what was queued, up to the bound, and is on its way at once exactly in startup mode, or in interval mode with the queue at `flushAt`; elsewhere nothing moves but the window of immediate mode |
| DeliveryRuns.FailuresCounted | clients/node/src/client.ts:1063-1119 | Over every run the counter of failed requests is the number of replies that were anything but a yes |
| DeliveryRuns.NoLostWakeup | clients/node/src/client.ts:441-475 | An idle live client has its timer exactly when the breaker is closed, and otherwise a retry, except after a give-up or the two named window events |
| DeliveryProgress.WakeupProgresses | clients/node/src/client.ts:1003-1119 | An armed timer that fires on an idle client with something queued and a breaker that lets it send puts a request out, and is spent unless it is the interval; and if the requests are answered, then however the run goes on, that drain ends within the bound with the queue empty, or with the budget used up and a retry armed |
| DeliveryProgress.DrainEnds | clients/node/src/client.ts:1035-1119 | The same of a drain started in any way and watched from any point |
| DeliveryRuns.FlushesSettle | clients/node/src/client.ts:1178-1210 | No flush is left waiting on an idle client with an empty queue |
| DeliveryRuns.RunInv | clients/node/src/client.ts:743-1210 | One invariant (places, order, counters, shape, probes, wakeups) holds after every sequence of events |
| DeliveryWitnesses.GiveUpStrandsIff | clients/node/src/client.ts:1075-1104 | Giving up leaves a live client without a timer of any kind exactly when none was pending and, in interval mode, the failure leaves the breaker open |
| DeliveryWitnesses.FlushInWindowStrandsIff | clients/node/src/client.ts:652-663 | A flush that lands between a drain's end and its pump leaves it without one exactly when no window is open and, in interval mode, the breaker is |
| DeliveryWitnesses.RecordInWindowUnarmedIff | clients/node/src/client.ts:911-935 | An entry recorded there arms nothing in any mode at any severity: it is left without a timer exactly when none was pending and, in interval mode, the breaker is open |
| DeliveryWitnesses.GiveUpStrands | clients/node/src/client.ts:1091-1104 | A run of the first: a give-up with the breaker open leaves a waiting entry with no timer |
| DeliveryWitnesses.FlushInWindowStrands | clients/node/src/client.ts:652-663 | A run of the second: the requeued entry is left with no timer |
| DeliveryWitnesses.RecordInWindowUnarmed | clients/node/src/client.ts:468-475 | A run of the third: in immediate mode, with the breaker closed |
| DeliveryWitnesses.BudgetOverrun | clients/node/src/client.ts:1039-1056 | A run in which a drain makes 2 requests with `maxRequestsPerFlush` at 1 |
| DeliveryWitnesses.CloseStopsIff | clients/node/src/client.ts:664-718 | Of any run up to where `close` releases the client: whatever happens while the store is awaited, nothing of the client is left running when `close` resolves, exactly where its flush had drained, that is with no drain out and nothing queued at the release |
| DeliveryWitnesses.ClosedIsFinal | clients/node/src/client.ts:664-718 | Once closed, empty and quiet, nothing ever runs again, whatever is called |
| DeliveryWitnesses.CloseLeavesRunning | clients/node/src/client.ts:664-718 | A run of the other case: a request that fails after `close` resolved requeues its entries and arms a retry |
| DeliveryWitnesses.ClosingStillQueues | clients/node/src/client.ts:671-681 | Whatever the state, an entry recorded before `close` releases the client is queued or sent: `enqueue` looks at `enabled` only |
| NodeClient.Firstrun.constructor | clients/node/src/client.ts:343-360 | Starts as the initial state of the model, or disabled and without a timer |
| DeliveryRuns.DisabledIsInert | clients/node/src/client.ts:343-352 | A disabled client stays as it is, whatever is called: only how far `close` has got changes |
| NodeClient.Firstrun.SyncTimer | clients/node/src/client.ts:441-457 | The interval timer exists exactly when enabled, open, in interval mode and the breaker is closed |
| NodeClient.Firstrun.ScheduleCoalesced | clients/node/src/client.ts:468-475 | Arms the window unless armed or pumping; equals the model step |
| NodeClient.Firstrun.DrainLoop | clients/node/src/client.ts:1035-1056 | From the loop head to the next request or the end of the drain; equals `Delivery.Drain`, whose runs the theorems are about |
| NodeClient.Firstrun.Pump | clients/node/src/client.ts:1003-1033 | One sender at a time; equals `Delivery.Pump` |
| NodeClient.Firstrun.OnReply | clients/node/src/client.ts:1056-1119 | What each of the three outcomes does to queue, breaker, counters and loop; equals `Delivery.OnReply` |
| NodeClient.Firstrun.Count | clients/node/src/client.ts:1063-1085 | The counters and breaker after a batch that was answered |
| NodeClient.Firstrun.GiveUpOrRequeue | clients/node/src/client.ts:1075-1116 | The failed batch and the rest of its slice are abandoned or put back at the front |
| NodeClient.Firstrun.Resume | clients/node/src/client.ts:1018-1033 | The microtask after a drain: flag down, timer in step, waiters settled |
| NodeClient.Firstrun.SettleWaiters | clients/node/src/client.ts:1178-1184 | Waiters are released only on an idle client with an empty queue |
| NodeClient.Firstrun.Enqueue | clients/node/src/client.ts:887-935 | Once an entry is built: queue, bound and schedule it, unless the client is disabled; equals the model step |
| NodeClient.Firstrun.Run | clients/node/src/client.ts:652-1205 | Any run of calls, callbacks and replies takes the object where the run takes the model, so what is proved of every run is true of the object |
| NodeClient.Firstrun.Step | clients/node/src/client.ts:441-475 | Each event is one method: the timer callbacks, the calls, the replies and the microtask |
| NodeClient.Firstrun.Flush | clients/node/src/client.ts:652-663 | Clears the retry, pumps, and waits; equals the model step |
| NodeClient.Firstrun.Restore | clients/node/src/client.ts:391-430 | What a durable queue gives back goes in front, and is sent as the mode says |
| NodeClient.Firstrun.CloseRelease | clients/node/src/client.ts:685-697 | Timers released, the client disabled, what is left handed to the store |
| NodeClient.Firstrun.CloseEnd | clients/node/src/client.ts:698-717 | Once the store is done: queue emptied, what is left counted or left to the disk, waiters settled |
| Grouping.GroupIntoBatches | clients/node/src/client.ts:1125-1144 | The two loops compute `Batches` of the slice |
| Grouping.BatchesKeepContents | clients/node/src/client.ts:1125-1144 | Batching neither loses nor duplicates an entry |
| Grouping.BatchesKeepGroupOrder | clients/node/src/client.ts:1125-1144 | Inside one resource group the order of the slice is the order sent |
| Grouping.BatchesProper | clients/node/src/client.ts:1125-1144 | Every body is non-empty, within the cap, of one group, and there are no more bodies than entries |
| Grouping.FewestBodies | clients/node/src/client.ts:1125-1144 | The bodies number each group's size over the cap, rounded up and summed, and no other way to send the same entries in proper bodies makes do with fewer |
| Grouping.BatchesKeepOrderIff | clients/node/src/client.ts:1125-1144 | Batching keeps the order of the slice exactly when the items of each group already stand next to each other |
| Grouping.ChunkLoop | clients/go/firstrun.go:1249-1270 | Cutting a group into chunks front to back |
| Queues.BoundedQueue.Push | clients/node/src/queue.ts:30-34 | Contents become the newest `capacity` of the old contents and the item; `dropped` counts exactly the lost prefix |
| Queues.BoundedQueue.TakeFront | clients/node/src/queue.ts:47-53 | Hands out the oldest n and keeps the rest, compaction or not |
| Queues.BoundedQueue.Unshift | clients/node/src/queue.ts:62-71 | In place or by concatenation, the run goes in front and the oldest overflow is dropped and counted |
| Queues.BoundedQueue.Snapshot | clients/node/src/queue.ts:42-44 | Reads the contents without consuming them |
| Queues.BoundedQueue.Clear | clients/node/src/queue.ts:73-78 | Empties and reports how many were waiting |
| Queues.BoundedQueue.Trim | clients/node/src/queue.ts:81-86 | The trim loop keeps the newest `capacity` |
| Queues.BoundedQueue.Compact | clients/node/src/queue.ts:89-94 | Reclaiming the consumed prefix changes nothing that waits |
| Queues.TakePushUnshift | clients/node/src/queue.ts:47-71 | Handing a slice out, pushing meanwhile and putting it back ends where pushing alone would, and drops exactly as many |
| Breakers.Breaker.Ask | clients/node/src/retry.ts:45-58 | Whether a request may go and the state after asking |
| Breakers.Breaker.Wait | clients/node/src/retry.ts:60-67 | How long until it could |
| Breakers.Breaker.Succeed | clients/node/src/retry.ts:69-75 | Closes, and says whether it had been open |
| Breakers.Breaker.Fail | clients/node/src/retry.ts:77-85 | Counts, restarts the cooldown, and says whether this failure opened it |
| Breakers.WaitIsZeroIffAllowed | clients/node/src/retry.ts:45-67 | A zero wait is exactly a licence to send, so `pump` and `drain` agree |
| Breakers.WaitIsLeast | clients/node/src/retry.ts:45-67 | The wait is the least one after which a request may go, when no probe is out; while one is, it is a whole cooldown and no waiting helps |
| Breakers.FailureRestartsCooldown | clients/node/src/retry.ts:77-85 | After any failure that leaves it open, the next licence comes exactly one cooldown later |
| Backoff.CeilingLoop | clients/go/retry.go:16-29 | The doubling loop computes the same ceiling as the Node client's expression |
| Backoff.CeilingRises | clients/node/src/retry.ts:14-22 | The ceiling is the base at first, capped; it never shrinks, doubles until capped, and never exceeds the cap |
| Wire.ClampedIsAccepted | clients/node/src/wire.ts:375-388 | Whatever value a caller passes, the attributes queued pass the edge's depth, key, string and count bounds |
| Wire.Clamp | clients/node/src/wire.ts:320-367 | What survives clamping is accepted by the validator at that depth |
| Wire.ClampCuts | clients/node/src/wire.ts:320-344 | A string is cut to its first 4096 characters; nothing is left of a number that is not finite or of what JSON does not have; everything else plain stays |
| Wire.ArrayCuts | clients/node/src/wire.ts:345-355 | An array is cut to its first 128 items, each clamped, with null for one of which nothing is left |
| Wire.ObjectCuts | clients/node/src/wire.ts:356-366 | An object is cut to the first 128 of its fields with a legal key and something left of their value, the last of a key standing |
| Wire.AttributesCut | clients/node/src/wire.ts:375-388 | A map of attributes is cut to the first 64 of its surviving fields, and is none at all exactly if none survives |
| Wire.ClampKeepsWhatFits | clients/node/src/wire.ts:320-367 | A value already within every bound comes through unchanged |
| Wire.MergedIsAccepted | clients/node/src/wire.ts:391-406 | Merging two accepted maps gives an accepted one |
| Wire.MergeInto | clients/node/src/wire.ts:391-406 | Later keys win, nothing of the first is lost, and the bound on keys holds |
| Wire.MergeWithinBound | clients/node/src/wire.ts:391-406 | Where both fit together every key of the second lands |
| Wire.FinalAcceptedIff | clients/node/src/client.ts:858-871 | The edge takes the queued entry exactly when every spec attribute that landed is at most 4096 long |
| Wire.EntryAcceptedIff | clients/node/src/wire.ts:409-413 | With room for all three: exactly when body, trace id and span id are each at most 4096, though the client itself cuts a body only at 16384 |
| Wire.EntryHolds | clients/node/src/client.ts:856-883 | With room for all three, an entry goes out with body, trace id and span id each under its own name, the body cut to its first 16384 characters, and under every other key what its layers say |
| Wire.ResourceHolds | clients/node/src/client.ts:956-981 | The resource is the base under what is named under the test mark, and none exactly if there is nothing to say and no base |
| Wire.ResourceAcceptedIff | clients/node/src/client.ts:956-981 | The edge keeps the resource exactly when base, named values and test mark number at most 64 keys together and every named value is at most 4096 long; otherwise it stores the batch without any of it |
| Wire.ResourceLoop | clients/node/src/client.ts:966-980 | The loop over the resource keys computes `ResourceFor` |
| Wire.ClampValueLoop | clients/node/src/wire.ts:320-367 | The counted loops compute `Clamp` |
| Wire.ClampItemsLoop | clients/node/src/wire.ts:345-355 | Array items in order, a null where one did not survive, at most 128 |
| Wire.ClampFieldsLoop | clients/node/src/wire.ts:356-366 | Object keys in order until the bound has landed |
| Wire.MergeLoop | clients/node/src/wire.ts:391-406 | The merge loop computes `MergeInto` |
| Edge.HandleKeeps | packages/ingest/src/handlers.ts:105-173 | One request, whatever it carries: rows kept, keys distinct, and every row gained made of an entry of this body that parses, under the body's resource where that is acceptable of itself; each metered at most once; a 202 means every parsable entry is stored, and says how many were new, known and unparsable |
| Edge.HandleAcceptsIff | packages/ingest/src/handlers.ts:130-171 | Which answer each request gets: 202 exactly when the key is known and either nothing parses or at most 500 entries do and each fits 64 keys with the resource it goes in under; one that does not refuses all beside it |
| Edge.Store.HandleEntries | packages/ingest/src/handlers.ts:130-171 | From the key's lookup on, the sequence of early returns equals `Handle` |
| Edge.Store.IngestEntries | packages/ingest/src/pipeline.ts:53-72 | Rows first, then the meter by the accepted count, a failing meter swallowed |
| Edge.Store.InsertLogEntries | db/log-entries.ts:113-142 | The chunk loop inserts what one statement would and counts what was new |
| Edge.Store.InsertStatement | db/log-entries.ts:131-138 | `ON CONFLICT DO NOTHING` against the table and against earlier tuples |
| Edge.InsertAllConcat | db/log-entries.ts:113-142 | Splitting a batch into statements changes neither table nor count |
| Edge.InsertAllStores | db/log-entries.ts:131-138 | Exactly the old keys and the batch's are stored, each once |
| Edge.ReplayIsFree | db/log-entries.ts:131-138 | Replaying a stored batch writes nothing and counts nothing |
| Edge.KeepParsableMembers | packages/ingest/src/handlers.ts:88-92 | Kept are exactly the entries that parse |
| Edge.NormaliseSucceedsIff | packages/schema/src/log.ts:208-228 | Parts that are each valid normalise exactly when resource, entry and source-id keys number at most 64 together |
| Edge.LayeringOrder | packages/schema/src/log.ts:213-217 | A stored row has the entry's name, severity, time and id and the time of ingestion; under each key the edge's source id, else the entry's value, else the resource's; and no other key |
| Json.ContainmentIsWalk | db/query.ts:460-468 | The containment form agrees with the plain path walk for every containable path, scalar and document |
| Json.ArrayIndexNotContained | db/query.ts:460-461 | On a path with a later digit segment they differ: an array answers the walk and never the containment |
| Json.NestLoop | db/query.ts:464-468 | The loop from the leaf outwards builds the nested document |
| Like.ContainsPattern | db/query.ts:537-552 | `%` + escaped text + `%` matches exactly the texts that contain it, whatever metacharacters it holds |
| Like.StartsPattern | db/query.ts:537-552 | Likewise a prefix |
| Like.EndsPattern | db/query.ts:537-552 | Likewise a suffix |
| Sql.ParseRender | db/query.ts:477-563 | Text concatenated from well-bound operands re-parses, with SQL's precedences and whatever follows it, to the expression it was concatenated from |
| CompilerProof.FilterFaithful | db/query.ts:477-563 | Every filter tree that compiles reads as one operand and, on every row and in three-valued logic, as the tree's meaning |
| CompilerProof.EqReads | db/query.ts:575-587 | Equality per field shape: containment for text attributes with object keys, extraction otherwise, NULL where the row has no value |
| CompilerProof.InMeans | db/query.ts:596-601 | `in` over a column and over an attribute |
| CompilerProof.CompareMeans | db/query.ts:520-535 | Ordering per field shape |
| CompilerProof.MatchMeans | db/query.ts:537-552 | The three text matches |
| CompilerProof.ExistsMeans | db/query.ts:617-625 | `is set` per field shape; a JSON null counts as set |
| CompilerProof.WhereMeans | db/query.ts:765-799 | The emitted WHERE, re-parsed whole, is the scope AND the filter's meaning, with the filter's text unparenthesised after it |
| CompilerProof.NoFilterWidens | db/query.ts:741-799 | A row is selected exactly when it is in the project, in the window, and meets the filter |
| RunQueries.StatementReads | db/query.ts:741-816 | The same for the clause of every compiled statement, filled or not, with all its parameters bound |
| RunQueries.FilledOnOneGrid | db/query.ts:841-880 | The generated series and the measured buckets truncate by one unit and zone over the window's own ends |
| Statements.SameTextSameShape | db/query.ts:741-816 | Two queries that compile to the same tokens have answers with the same columns |
| Statements.TextNames | db/query.ts:770-799 | The output columns named in the text are exactly the query's bucket, groups, aggregates and total |
| Statements.SeriesResolved | db/query.ts:848-870 | Each placeholder of the series stands for the value it should |
| Statements.BucketResolved | db/query.ts:716-727 | Likewise the bucket expression |
| RunQueries.SharedAnswer | db/query.ts:1003-1008 | Two queries with one statement have one answer, so sharing the round trip is invisible |
| RunQueries.Run | db/query.ts:1016-1044 | Fails exactly when a request does not compile; otherwise every key is filed, under the answer of a request that asked for it |
| RunQueries.File | db/query.ts:1039-1044 | The nested loops file each job's answer under every key it holds |
| RunQueries.FiledIsOwn | db/query.ts:1016-1044 | Where a key stands for one query, its answer is the one that query alone would be given |
| StatementProof.StatementAnswers | db/query.ts:741-885 | For every query, scope and table: the compiled statement, read back by its own words, worked on by a database and decoded, is answered with exactly what may answer the query: one line a group, or a bucket of the window where it is filled, of each aggregation over the rows in scope that meet the filter, in the order asked and cut off at the limit |
| StatementProof.FiledAnswers | db/query.ts:1016-1044 | What a round of queries files under a key that stands for one query is an answer to that query in that sense |
| FoldProof.FoldRead | db/query.ts:643-691 | Each aggregate's text is read as the fold it names: min as min, a percentile at the fraction bound for it |
| FoldProof.FoldMeans | db/query.ts:643-691 | Over any rows that fold is what the aggregation means of them: how many, how many different texts, the sum, average, least or most of the numbers read, or the interpolated percentile; null where there is none |
| FoldProof.TotalRead | db/query.ts:694-699 | The total's text is read as that fold summed over every group |
| FoldProof.BucketMeans | db/query.ts:716-727 | The bucket's text gives each row the start of its unit by the zone's own clock |
| SelectProof.ItemMeans | db/query.ts:771-789 | Each item of the select list stands under the name, and has the meaning, of the bucket, group, aggregation or total it was pushed for |
| SelectProof.CoreReads | db/query.ts:765-799 | The measured query is read as those items in order, over the rows in scope that meet the filter, grouped by the bucket and the groups by their ordinals |
| GroupProof.GroupsMean | db/query.ts:799 | Grouping by the ordinals gives the groups of the query, each once; without any, the one group of all rows |
| GroupProof.ItemIs | db/query.ts:771-799 | For each group each item is what the query wants of it, and never an error |
| AnswerProof.FinishRead | db/query.ts:805-935 | ORDER BY and LIMIT are read as the query's orders with their directions, nulls last, chronological by default, and its limit |
| AnswerProof.AgreesDecodes | db/query.ts:942-955 | Decoding a line gives each column its place in the answer |
| FillProof.FilledRead | db/query.ts:841-885 | The filled statement is read as its series, the measured query, a column for each aggregation with zero for a missing count or sum, its order and its limit |
| FillProof.SeriesMeans | db/query.ts:848-870 | The generated instants are the starts of the window's units, first to last |
| FillProof.JoinedAgrees | db/query.ts:874-884 | A joined line has what the rows of its bucket have, or zero or null where there are none |
| Aggregates.QuantileIs | db/query.ts:672-686 | A percentile is the least at 0 and the most at 1 and never falls in between |
| Fill.ConservesIff | db/query.ts:841-885 | Filled counts add up for all rows exactly when every instant of the window has its bucket generated once |
| Fill.FilledCountsCopies | db/query.ts:841-885 | In any zone they are the rows, each as often as its bucket was generated |
| Fill.SteadyZoneIff | db/query.ts:841-885 | A zone conserves counts in every window exactly where the unit of an instant never goes back and no unit some window generates stands at the same instant as another that something falls in |
| Fill.SteadyZoneConserves | db/query.ts:716-727 | They add up where boundaries convert to different instants and local time does not go back |
| Fill.FixedOffsetConserves | db/query.ts:841-885 | In a fixed-offset zone they add up, buckets strictly increase and none is missing |
| Fill.SpringForwardDoubles | db/query.ts:841-885 | Hourly buckets over a skipped hour count a row twice |
| Fill.FallBackLoses | db/query.ts:841-885 | Minute buckets over a repeated hour can leave a row in no bucket |
| Splice.Spliced | db/feed.ts:130-141 | The loop's chunks instantiate exactly as the database reads the text, and leave no dollar sign or adjacent digit behind when every dollar sign is a placeholder |
| Splice.TextReads | db/query.ts:971-974 | The compiler's text is read as meant: no stray dollar sign, no digit after a placeholder |
| Spelling.TextIsTokens | db/query.ts:477-625 | Read by the words and signs of SQL alone, the compiler's characters are the tokens it means, in order, with nothing left over |
| Fragments.FilterSound | db/query.ts:477-563 | Every placeholder a filter compiles to has a value bound for it |
| Splice.ReboundReads | db/feed.ts:130-141 | Any renumbering, with a twice-used placeholder bound twice, instantiates to the same text |
| Fragments.Fragment | db/feed.ts:200 | A whole fragment, spliced after any prior parameters, instantiates as it was compiled |
| Boards.FramesPartition | packages/schema/src/board.ts:239-246 | Test and production frames are never NULL and divide all rows |
| Boards.EffectiveMeans | packages/schema/src/board.ts:263-269 | A card shows a row exactly when it is in the board's world and meets the board's filter and its own |
| Boards.CardSeesOneWorld | packages/schema/src/board.ts:263-269 | The same of the statement the card compiles to |
| Boards.CompilesIff | db/query.ts:477-480 | A filter compiles exactly when its leaves are well formed and it nests at most nine levels from there |
| Boards.QueryCompilesIff | db/query.ts:741-816 | A whole query has a statement exactly when it has one to eight aggregations and at most four groups, each well formed, a zone of at most 64 characters, orders that exist, a limit from 1 to 10000, a fill that is bucketed, ungrouped and untotalled, and a filter that compiles |
| Boards.AcceptedFits | packages/schema/src/query.ts:264-277 | What the depth-bounded schema accepts is no deeper than it allows |
| Boards.BoardCompiles | packages/schema/src/query.ts:489-541 | Every query and board filter the schema accepts compiles, one level further down, and so does its sparkline |
| Boards.WithConditionsMeans | packages/schema/src/query.ts:345-361 | Adding conditions selects exactly the rows meeting the filter and all of them, or changes nothing, by a test a caller can make |
| Boards.WithConditionsBounds | packages/schema/src/query.ts:345-361 | It keeps the width bound; the depth bound it keeps exactly when every added condition is one level short of it |
| Boards.BoardRequests | packages/schema/src/board.ts:342-362 | Every looked-up key is requested exactly once, under the key of its own query, with `compare` the OR of its askers, and nothing else is requested |
| Boards.Want | packages/schema/src/board.ts:345-350 | One more asker keeps that plan |
| Boards.AsksCover | packages/schema/src/board.ts:352-359 | Everything any card looks up is in the plan's demand, and nothing more |
| Boards.FetchMeetsRender | packages/schema/src/board.ts:365-373 | What is filed under a card's key is what its own question would have been answered |
| Boards.CardShowsAnswer | packages/schema/src/board.ts:365-373 | So what a card shows is an answer to its own question, by what the question means |
| Boards.CardAsks | packages/schema/src/board.ts:352-359 | A card asks its own question under its board's frame, and a series besides exactly if it is an ungrouped number that wants one |
| Boards.SparklineShows | packages/schema/src/board.ts:306-309 | The series has every UTC day of the window once, oldest first, and of each day what the card's own aggregations have of the very rows the number is drawn from |
| JsonText.KeyTextIff | packages/schema/src/query.ts:627-643 | Two values have one key, character for character, exactly when they are the same up to key order and undefined properties |
| QueryKeys.CanonicalIff | packages/schema/src/query.ts:631-643 | The canonical form is the same exactly for the same values |
| JsonText.TextOneWay | packages/schema/src/query.ts:628 | JSON text, with its quoting and escapes, is the text of one value only |
| JsonText.QueryTextDecides | packages/schema/src/query.ts:627-629 | Two queries filed under one key text are one query, down to whether a reading is spelled out; and equal key texts are equal key tokens, on which boards are planned |
| DiskQueues.DiskQueue.Load | clients/go/diskqueue.go:62-116 | Yields the newest `max` readable records and leaves the file as it is |
| DiskQueues.DiskQueue.Scan | clients/go/diskqueue.go:76-97 | The scanner's loop: unreadable lines cost themselves, a line too long ends the scan |
| DiskQueues.DiskQueue.Append | clients/go/diskqueue.go:121-145 | The file gains the records' lines, or on failure a prefix of them and the disk is given up |
| DiskQueues.DiskQueue.Sync | clients/go/diskqueue.go:157-220 | The path holds the old content or exactly the kept records, within the bound, dropping as few of the oldest as that takes; a failure anywhere leaves the old |
| DiskQueues.DiskQueue.Fitting | clients/go/diskqueue.go:162-174 | The least number of oldest records to drop |
| DiskQueues.DiskQueue.OpenAppend | clients/go/diskqueue.go:231-250 | Opens with the file's own size, or gives the disk up |
| DiskQueues.ReadEncoded | clients/go/diskqueue.go:62-97 | Reading back what was written gives exactly what was written |
| DiskQueues.AppendReads | clients/go/diskqueue.go:121-145 | Appending to a newline-terminated file adds exactly what was appended |
| DiskQueues.TornAppend | clients/go/diskqueue.go:84-89 | A crash inside an append keeps everything before it and a prefix of what it added |
| DiskQueues.TornTailLosesNext | clients/go/diskqueue.go:112-140 | Onto a torn last line the next record is written unterminated: it reads back exactly when the two halves decode to it |
| DiskQueues.MergedAppend | clients/go/diskqueue.go:121-145 | And every later record still reads back, unless the merged line is too long |
| DiskQueues.OversizeHidesTheRest | clients/go/diskqueue.go:38-40 | One record of a mebibyte or more hides itself and every record after it |
| GoSender.Sender.constructor | clients/go/firstrun.go:470-478 | The run starts from what the file gave back, mirrored |
| GoSender.Sender.Admit | clients/go/firstrun.go:1103-1115 | New entries mirrored, the backlog bounded, the file rewritten where that shrank it or it outgrew its bound: everything pending reads back |
| GoSender.Sender.Send | clients/go/firstrun.go:1118-1127 | Delivery keeps the mirror: every entry still pending reads back |
| GoSender.Sender.Mirror | clients/go/diskqueue.go:157-220 | Every content a rewrite can leave behind reads back every entry still owed; after it, exactly those, within the bound |
| GoSender.Sender.Deliver | clients/go/firstrun.go:1142-1179 | Refused, nothing goes out, nothing but what is over the bound is lost, and the wait starts again from now; let through, the batches pass as `SendBatches` says |
| GoSender.Sender.SendBatches | clients/go/firstrun.go:1157-1178 | A batch is sent exactly if its last request was answered with a yes, lost exactly if with a no for good, and from the first that was not answered on they come back, bounded; the wait is over exactly if all were answered |
| GoSender.Sender.PassedWhole | clients/go/firstrun.go:1157-1178 | With a server that says yes throughout everything is sent, in order, and nothing is lost or left |
| GoSender.AttemptAnswer | clients/go/firstrun.go:1275-1335 | A batch ends as the last reply to it says, every reply before that one was no answer, and the next batch meets the replies that follow |
| GoSender.Sender.Trim | clients/go/firstrun.go:1194-1201 | Keeps the newest and counts the rest |
| GoSender.Sender.HoldOff | clients/go/firstrun.go:1185-1191 | The next attempt waits the longer of the base delay and the cooldown |
| GoSender.Sender.Attempt | clients/go/firstrun.go:1275-1335 | The retry loop equals `Attempted` |
| GoSender.AttemptBound | clients/go/firstrun.go:1275-1335 | A batch costs at most `MaxRetries + 1` requests, each unanswered one counted, and is given back only if none was answered |
| GoSender.ProbeOpenIff | clients/go/firstrun.go:1275-1335 | The i-th try of a batch goes out under an open breaker exactly when the failures before the batch and i make up the threshold |
| GoSender.RetriesKeepToBreakerIff | clients/go/firstrun.go:1275-1335 | Whatever the network does, no try from the first-named on goes out under an open breaker, exactly where failures and retries together stay below the threshold |
| GoSender.RetriesIgnoreBreaker | clients/go/firstrun.go:1275-1335 | A run of the other case: a request one millisecond after the failure that opened the breaker |
| GoSender.StarvesIff | clients/go/firstrun.go:1142-1191 | A run of wakeups is refused throughout exactly when the first is and each later one comes within the base delay of the one before or meets the breaker |
| GoSender.Sender.Busy | clients/go/firstrun.go:1007-1020 | Over a busy stretch of an immediate client, with or without a queue file, no request is made exactly in that case |
| GoSender.Sender.OnArrivals | clients/go/firstrun.go:1007-1020 | A pass that took entries in: conservation, per-group order and durability hold after it, and the backlog, bounded, is sent if an arrival is urgent, the schedule is immediate, or it is interval and there is a batch of it, and is otherwise left alone |
| GoSender.Sender.OnTimer | clients/go/firstrun.go:1022-1027 | Likewise a tick or a retry |
| GoSender.Sender.OnFlush | clients/go/firstrun.go:1029-1036 | Likewise a flush, which sends under every schedule |
| GoSender.Sender.OnQuit | clients/go/firstrun.go:1038-1061 | Likewise shutdown, after which a working disk reads back exactly what is left, within the bound; what its last rewrite drops is in no counter, and it drops something exactly when the rewrite works and what was left does not fit |
| GoSender.Sender.Begin | clients/go/firstrun.go:995-997 | Likewise the first pass over a restored backlog, which sends it unless the schedule is manual |
| GoSender.Enqueue | clients/go/firstrun.go:826-845 | Never blocks, counts every entry it displaces or gives up on, and alone is a push that drops the oldest |
| WebTag.Tag.Visit | packages/web-tag/src/core.ts:772-785 | Over any sequence of commands: every send was made while the tag had consent, of entries recorded since the last withdrawal before it; recorded equals sent plus dropped plus discarded plus buffered; and the entries recorded are those the commands name, in order |
| WebTag.Tag.Call | packages/web-tag/src/core.ts:553-785 | Command by command: an event, an error and a named log entry record exactly one entry with that name, severity, data and time, after a `session_start` exactly if the visit had ended, and send at once on severity or a full buffer; a flush empties the buffer in one send; each identity and the answer are as given; and while the answer is no nothing is sent, stored or derived, only a yes changes that, and a withdrawal stands until then |
| WebTag.Tag.Recall | packages/web-tag/src/core.ts:414-431 | A stored answer counts; the stored clock and referrer are taken over, and the stored visit goes on exactly while that clock says so |
| WebTag.Tag.SetConsent | packages/web-tag/src/core.ts:701-724 | A withdrawal empties buffer, device and both keys and sends nothing; a grant stores, derives and sends what waited in one send |
| WebTag.Tag.Push | packages/web-tag/src/core.ts:434-440 | A bounded buffer that counts what it drops |
| WebTag.Tag.FlushBuffer | packages/web-tag/src/core.ts:472-477 | All of the buffer or nothing, only with consent, under the user of that moment |
| WebTag.Tag.Emit | packages/web-tag/src/core.ts:486-509 | Out at once on severity or a full batch; otherwise, in immediate mode, never without a scheduled flush |
| WebTag.Tag.Bump | packages/web-tag/src/core.ts:521-535 | A new session exactly on idleness or a new referrer, announced by one entry that says when; the clock stored with consent |
| WebTag.Tag.Record | packages/web-tag/src/core.ts:553-589 | Exactly the entry it is given, after a `session_start` exactly if the visit had ended; with consent outside manual mode an entry is dropped exactly when that lands on a 49-deep buffer |
| WebTag.Tag.SaveSession | packages/web-tag/src/core.ts:537-539 | Stores only with consent |
| WebTag.Tag.DeriveDevice | packages/web-tag/src/core.ts:696-699 | Derives exactly with the flag, consent and no id there |
| WebTag.Tag.SetUser | packages/web-tag/src/core.ts:738-743 | A different person starts a new session, the same one changes nothing |
| WebTag.Tag.SetSession | packages/web-tag/src/core.ts:766-770 | Replaces the id and restarts the idle clock |
| WebTag.Tag.Page | packages/web-tag/src/core.ts:593-608 | A page view, with a leave due |
| WebTag.Tag.Navigated | packages/web-tag/src/core.ts:618-626 | Fires exactly when the path moved |
| WebTag.Tag.Leave | packages/web-tag/src/core.ts:635-642 | Once a page view, and never the cause of a dropped entry |
| WebTag.Tag.Vital | packages/web-tag/src/core.ts:652-663 | One of five metrics, once a document |
| WebTag.Tag.WindowCloses | packages/web-tag/src/core.ts:503-507 | The coalescing callback empties the buffer if there is consent |
| Canvas.FindFreeSlot | packages/schema/src/canvas.ts:97-110 | The first free grid position in row-major order whenever the card is no wider than the canvas; a wider one goes below everything, overlapping nothing |
| Canvas.RowBelow | packages/schema/src/canvas.ts:101-110 | The fallback is unreachable for a card no wider than the canvas |
| Canvas.NormaliseIsLegal | packages/schema/src/canvas.ts:69-78 | Any rectangle becomes legal, legal ones are fixed points and only they, what is in range moves by at most half a cell, and what is out of it comes to the end it is beyond |

## Left out

- HTTP, fetch, beacons, sockets and the text of diagnostics: a request is its outcome, a timer a flag that may fire.
- Durations: a retry timer is armed or not; how long it waits is bounded by `Backoff` and otherwise free.
- `ref`/`unref` of timers and the shutdown hooks.
- Resolving an entry's severity, identity and ambient attributes before it is queued; `Wire` covers clamping and merging.
- The Node client's `DiskStore` file format and its durability: what it gives back is any sequence of entries.
- PostgreSQL itself: partitions, indexes, numeric formatting and timezone tables. `Env` stands for its conversions, its
  collation and its calendar, and no theorem depends on what they are.
- Binary floating point: `numeric` and `double precision` are reals, so a sum or an average has no rounding to lose.
- StatementProof.StatementAnswers: a statement's fixed wording is one token for each run of words, so spacing inside it is not read;
  an instant is a whole number of milliseconds, which is what the driver binds and what `epoch` times 1000 gives back.
- Errors the database raises at run time on a value it cannot cast: conversions are total.
- Table qualification in `Params` appears only in `Splice`, where the text is characters; elsewhere a column is a token.
- `Params` is threaded as the list of values bound so far rather than as an object: what it adds is only the order of binding.
- UUID, source-key and regular-expression shapes of ids; the request size limit and the 400s for a body that is not an object.
- NodeClient.Firstrun.constructor: whether the options disable the client is a parameter; a disabled one reads no disk.
- NodeClient.Firstrun.Enqueue: starts from a built entry; validation, the severity floor and the building of attributes are before it.
- NodeClient.Firstrun.CloseEnd: what a reply requeues after `CloseRelease` is cleared and counted as left to the disk, although
  the store was handed the queue as it was before.
- Statements.SameTextSameShape: the text is tokens, each of which stands for its spelling.
- RunQueries.SharedAnswer: compares parameter values where the source compares their JSON text; numbers are reals, so NaN and
  Infinity, which JSON writes as null, do not occur.
- RunQueries.Run: shares statements on the same comparison of values.
- GoSender.Sender.Busy: for passes whose last entry alone fits a queue file, if there is one; a pass whose entries all fall to the
  file's bound has nothing to send and restarts no wait.
- JsonText.KeyTextIff: how a number is written is a parameter, taken to give each number the program can hold a text of its own in
  the characters of numbers; a lone surrogate cannot be a character here.
- `parseBoard`'s fallbacks, labels, templates, and everything in `apps/web`.
- The Go client's channels and select: a pass of the loop takes any arrivals; timers in its loop are not modelled.
- In-place slices in Go (`append(pending[:0], ...)`) and the shifting they cause under a subslice: values here.
- Two resources with one Go group key: equal keys are taken to mean equal resources.
- Attributes of the tag's entries, URL parsing, link and form helpers, which only call `event`.
- Canvas gestures and rendering.
- ExactlyOnce.StoredExactlyOnce: an entry is its key (project, time, id) at the edge; that ids are fresh is not assumed and not needed.
- DeliveryRuns.PerGroupFifo: for a memory store only, because a restored backlog goes in front of what was recorded before it was read.
- Queues.BoundedQueue.Push: the JavaScript array and head index are a sequence and an index; reallocation is not modelled.
- Edge.Store.HandleEntries: starts from a body that is an object with a string key and within the size limit; a failing
  database is not modelled.
- DiskQueues.DiskQueue.Sync: a crash keeps whatever content the path had; a rename is atomic and `stat` does not fail.
- GoSender.Sender.Admit: entries are assumed to encode to a line shorter than a mebibyte that decodes back to them and of
  which no proper prefix decodes; `DiskQueues.OversizeHidesTheRest` is what happens otherwise.
- Fill.ConservesIff: for counts; an average over an empty bucket is NULL and has nothing to add up.
