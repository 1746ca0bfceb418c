# baml-rest in Dafny

baml-rest serves BAML functions from a pool of worker processes. This project models
the parts of it where many things happen at once or where data is rewritten, and proves
what they promise.

- **Shared round-robin store** (`SharedStore*.dfy`, `RoundRobin.dfy`). FetchAdd, DropScope
  and sweepOnce as a step system: one step is one atomic or sync.Map operation, one mutex
  acquisition, or the entry of a sync.Once. Theorems are about every interleaving.
- **Worker restart and Close** (`Restart*.dfy`). restartWorker, finishRestart, awaitRestart,
  dispatchRestart, Close and the start task as a step system over handles, slots and
  channels.
- **Admission and drain** (`Drain.dfy`). beginLogicalRequest and Shutdown as a step system.
- **Streaming with retries** (`Call*.dfy`). The CallStream loop runs
  over an arbitrary script of worker attempts and an arbitrary cancellation; Call drains it.
- **Schema-guided JSON rewriting** (`Json*.dfy`, `KeyOrder.dfy`, `KeySort.dfy`). The inject,
  reorder and sort passes over a decoded tree, as functions and as the loops that compute them,
  and what stands at every position of their output.
- **Client stream** (`DynStream.dfy`), **stderr ring buffer** (`StderrTail.dfy`), **broker
  dialing** (`BrokerDial*.dfy`), **configuration encoding** (`TrustedConfig.dfy`) and
  **direct parse** (`DirectParse.dfy`).

In the step systems a few fields record what happened (who owns an entry, where a worker
stands, the log of additions). They are marked as history where they are declared; no step
reads them to decide what the program does.

`dafny verify dfyconfig.toml` checks the whole project.

## Where the code and its comments differ

- The comment at workerplugin/sharedstate.go:261 says an idempotency entry implies a published
  scope. That holds between calls (`EntryImpliesScope`), not in the middle of one: DropScope
  unpublishes before it locks. sweepOnce deletes by operation id and not by scope, so it can
  also unpublish the scope of a later request. `SweepOrphansIff` says exactly which entries that
  leaves without a scope, `OrphanIsReachable` is a run that ends so.
- The stale check before the swap (pool/pool.go:760) never fires (`SwapFindsItsOwnSlot`): the
  compare-and-swap guard already rules out a second replacement of the same handle.
- The comment on dynclient's Next says that calls after an error return the same value. An
  error that wraps io.EOF is returned once and is io.EOF from then on (`ReadPastEnd`,
  `ReplacedByEof`).
- Call returns a plan and an outcome as if of one attempt. They are so on every run exactly
  when each attempt that is reached plans before its outcome (`RoutingIsOneAttemptIff`).
- Rotation is fair on every window of every run exactly when the child count divides 2^64
  (`RunsAreFairIff`); windows that do not cross the wrap always are (`RotationIsFair`).
- Matching reads a spec's ref before its type, injection its type before its ref. For a spec
  with both, which validation rejects, `StrayRefIff` says when the object still matches after
  injection, and `StrayRefBreaksIt` is an input where it does not.

## Model

| member | source | states |
|---|---|---|
| `SharedStoreScopes.StepKeeps` | workerplugin/sharedstate.go:199-285 | every step of FetchAdd and DropScope, and every sweep step whose victim is still published, keeps each entry owned by a scope that a deletion will reach |
| `SharedStoreScopes.EveryEntryIsOwned` | workerplugin/sharedstate.go:199-285 | in every reachable state each entry (key, op) has a scope of op that lists key and is published, taken by a DropScope about to mark it, or being cleared by a loop that has still to reach key |
| `SharedStoreScopes.EntryImpliesScope` | workerplugin/sharedstate.go:246-266 | with no call in progress an entry implies that its operation id's published scope lists its key and is not deleted |
| `SharedStoreScopes.SweepGuardIsExact` | workerplugin/sharedstate.go:356-389 | the sweep's delete keeps every scope reachable if and only if the published scope is its victim, already marked, or absent |
| `SharedStoreScopes.SweepOrphansIff` | workerplugin/sharedstate.go:356-389 | an entry is left without a scope that a deletion will reach if and only if its only such owner was the published, unmarked scope of a later request |
| `SharedStoreOrphan.OrphanIsReachable` | workerplugin/sharedstate.go:356-389 | a run of two FetchAdds, a DropScope and a sweep ends quiet with an entry whose operation id has no scope |
| `SharedStoreSweep.FreshScopeIsSpared` | workerplugin/sharedstate.go:356-389 | on every run a sweep's visit that finds the scope used since its cutoff when it looks under the lock unpublishes no scope, marks none and deletes no entry |
| `SharedStoreSweep.FreshScopeIsNotTouched` | workerplugin/sharedstate.go:356-365 | a visit whose scope is fresh all the time changes nothing at all, not even the scope's mutex |
| `SharedStoreSweep.StaleScopeIsEvicted` | workerplugin/sharedstate.go:356-389 | a visit that returns, and whose scope was stale all the time, has marked it, unpublished its operation id and deleted every entry it listed |
| `SharedStoreSweep.DropScopeDrops` | workerplugin/sharedstate.go:267-285 | a DropScope that finds a scope unpublishes it, marks it and deletes every entry it lists before it returns |
| `SharedStoreSweep.EntryStays` | workerplugin/sharedstate.go:199-389 | an entry lives until a DropScope of its operation id or a sweep that finds a scope of it stale |
| `SharedStoreSweep.RetriesAgreeUnlessEvicted` | workerplugin/sharedstate.go:156-389 | so two calls on one (key, op) return the same value, from one addition, unless one of these comes between their registrations |
| `SharedStoreFresh.StepKeeps` | workerplugin/sharedstate.go:199-389 | if every FetchAdd of an operation id is at or after a time and no sweep visits it with a later cutoff, every scope of it that lists a key was touched since, whatever else runs |
| `SharedStoreFresh.RetriesAgreeWhileUsed` | workerplugin/sharedstate.go:156-389 | and then two calls on one (key, op) agree unless a DropScope of the id is in progress or begins between them: a condition on the calls alone |
| `SharedStoreCounters.StepKeeps` | workerplugin/sharedstate.go:156-244 | every step keeps counters, entries, results and the log of additions in agreement |
| `SharedStoreCounters.RetriesAgree` | workerplugin/sharedstate.go:156-244 | two calls on one (key, op) whose entry is not deleted between their registrations return the same value; the log holds exactly one addition for both, and that value is the one it was given, however they overlap |
| `SharedStoreCounters.CountersAreConserved` | workerplugin/sharedstate.go:156-171 | in every run a counter is its first published value plus all deltas logged for it, modulo 2^64 |
| `SharedStoreCounters.LogIsALinearization` | workerplugin/sharedstate.go:156-171 | each addition, the first included, is given the first value plus the sum of what was added before it |
| `SharedStoreCounters.EveryAdditionIsACalls` | workerplugin/sharedstate.go:156-244 | each logged delta is that of a call on its key, the plain call itself or one registered with the entry; no entry and no plain call is logged twice |
| `SharedStoreCounters.PlainCallAdvancesOnce` | workerplugin/sharedstate.go:156-171 | a finished call without an operation id added its own delta and returned the value before it |
| `SharedStoreCounters.PublishedCounts` | workerplugin/sharedstate.go:287-295 | a counter that is published, by whichever thread wins, starts with nothing logged for it |
| `RoundRobin.Advance` | worker/sharedstate.go:67-78 | the index is in range; it fails only when children exist and there is no store |
| `RoundRobin.PlainCount` | workerplugin/remote_advancer.go:86-111 | how often a child comes up in a rotation, exactly |
| `RoundRobin.WindowIsFair` | worker/sharedstate.go:67-78 | over a window that does not cross 2^64 no two children's counts differ by more than one |
| `RoundRobin.WrapIsUnfair` | worker/sharedstate.go:67-78 | for a child count that does not divide 2^64 the values across the wrap pick one child twice and another never |
| `RoundRobin.AlwaysFairIff` | worker/sharedstate.go:67-78 | as arithmetic: all windows of consecutive values are fair if and only if the child count divides 2^64 |
| `RoundRobin.RotationIsFair` | workerplugin/remote_advancer.go:86-111 | in any run of the store whose calls on a key ask for one, the children of a window that does not cross 2^64, or of any window if the child count divides 2^64, are fair, and every finished call's own result gives it the child of its place in that window |
| `RoundRobin.UnfairRun` | pool/pool.go:220-226 | for every child count that does not divide 2^64 a run of plain FetchAdds, its counter published with the last value before the wrap, hands out an unfair window |
| `RoundRobin.RunsAreFairIff` | workerplugin/remote_advancer.go:86-111 | all windows of all runs of the store are fair if and only if the child count divides 2^64 |
| `RoundRobin.RetriesShareATurn` | workerplugin/sharedstate.go:199-244 | two calls of one entry stand for the same place in the rotation and get the same child |
| `RestartPlaces.StepKeeps` | pool/pool.go:674-771 | every step keeps each started worker in its slot, with one holder, or killed |
| `RestartPlaces.NoWorkerOutlivesClose` | pool/pool.go:2038-2085 | once Close has returned and every restart and start task has ended, every worker ever started is killed |
| `RestartPlaces.ReplacedForGood` | pool/pool.go:674-771 | a worker is replaced at most once and a replaced worker is never in a slot again |
| `RestartPlaces.TakeKeeps` | pool/worker_start_inprocess.go:22-97 | the caller that takes a start's result becomes the worker's only holder |
| `RestartPlaces.ReapKeeps` | pool/worker_start_common.go:25-30 | an abandoned start's worker is killed by the reaper |
| `RestartCustody.EveryWorkerAccounted` | pool/pool.go:674-771 | each worker is killed, in a slot or held; holders are unique and hold none that is in a slot |
| `RestartCustody.SwapFindsItsOwnSlot` | pool/pool.go:741-771 | a thread about to swap finds its failed handle still in the slot |
| `RestartOutcome.TriedIfCurrent` | pool/pool.go:674-684 | a restart is tried if and only if the slot still holds the worker it was called for |
| `RestartOutcome.ReturnsSettled` | pool/pool.go:674-771 | a restartWorker call that is tried, by the winner or by one that waits for it, returns only when the worker is replaced or killed or the pool is closed |
| `RestartOutcome.StartedWorkerIsSwappedIn` | pool/pool.go:717-771 | a restart that takes the result of a successful start has, before it returns, put that worker into the slot and killed the old one, unless the pool is closed |
| `RestartOutcome.AwaitReturns` | pool/pool.go:856-871 | awaitRestart returns only when no restart is published, its channel is closed, or its context is done |
| `RestartOutcome.DispatchRefusesIff` | pool/pool.go:566-581 | dispatchRestart refuses if and only if it reads the pool as closed |
| `RestartOutcome.DispatchSpawns` | pool/pool.go:566-581 | and otherwise starts a restart of the worker it was called for |
| `RestartSignals.StepKeeps` | pool/pool.go:393-402 | every step keeps ownership, mutex and channel of each handle's restart in agreement |
| `RestartSignals.OneOwner` | pool/pool.go:686-708 | at most one thread owns a handle's restart |
| `RestartSignals.NeverOverwritten` | pool/pool.go:686-708 | a restartDone channel is not replaced while it is open |
| `RestartSignals.ClosedOnceByCreator` | pool/pool.go:393-402 | a channel is closed at most once |
| `RestartSignals.OnlyCreatorCloses` | pool/pool.go:393-402 | and by the thread that made it |
| `RestartSignals.ParkedWillBeWoken` | pool/pool.go:686-708 | a thread parked on the Cond has an owner, or a thread between Store(false) and Broadcast |
| `RestartSignals.AwaitingWillBeWoken` | pool/pool.go:856-871 | a thread waiting on an open channel has a thread on its way to close it |
| `RestartWaitGroup.CloseDrainsRestarts` | pool/pool.go:2038-2085 | after Close has returned no dispatched restart runs, and none starts later |
| `Drain.StepKeeps` | pool/pool.go:791-806 | every step of admission, done, Shutdown and Close keeps the count |
| `Drain.CountIsExact` | pool/pool.go:791-806 | logicalInFlight is the number of admitted requests whose done has not fired |
| `Drain.NothingAdmittedAfterDraining` | pool/pool.go:1976-1978 | from Shutdown's store on no step admits a request: who is live after a step was live before it and at the store |
| `Drain.PollLeavesIff` | pool/pool.go:1988-1993 | Shutdown's poll leaves the wait loop for Close if and only if no admitted request is live |
| `Drain.SelectLeavesOnTimeOut` | pool/pool.go:1995-2001 | its select leaves for Close if and only if its context is done, and polls again otherwise |
| `Drain.DrainedForGood` | pool/pool.go:1976-2004 | once Shutdown has left its poll for Close no admitted request is live, then or later |
| `Drain.RefusedOnlyIf` | pool/pool.go:791-800 | a request that is not admitted found the pool closed or draining |
| `Drain.NothingAdmittedAfterClose` | pool/pool.go:791-796 | once the pool is closed no request is admitted that has not read the flag before |
| `CallStream.ForwardAttempt` | pool/pool.go:1527-1662 | under any cancellation the inner loop sends exactly the specified frames of an attempt and ends it as specified; it gives up early only if the caller cancels |
| `CallStream.Forward` | pool/pool.go:1438-1734 | under any cancellation the goroutine sends exactly the specified run, with at most MaxRetries + 1 worker calls and exactly one when retries are suppressed |
| `CallStream.RunIsCut` | pool/pool.go:1438-1734 | a run is a cut of the uncancelled stream, up to the reason in a pool error, and all of it without a cancellation |
| `CallStream.CutIsARun` | pool/pool.go:1527-1662 | every prefix of the stream made of workers' frames is what the goroutine sends for some moment of cancellation |
| `CallStream.Open` | pool/pool.go:1345-1382 | without a first worker the caller gets an error and no stream |
| `CallDelivery.EveryAttemptIsDelivered` | pool/pool.go:1527-1662 | an uncancelled request delivers of every attempt it reaches all frames up to the one that ends or retries it, heartbeats apart, in order with kind and payload, and nothing of any other attempt |
| `CallDelivery.RequestEnds` | pool/pool.go:1438-1734 | it ends with the last attempt's own final or error frame, or with the pool's error: no worker, an error it does not retry, or retries exhausted with the latest error |
| `CallDelivery.SomeAttemptIsLast` | pool/pool.go:1438-1452 | every request that may call a worker has such a last attempt |
| `CallStreamClient.ClientHoldsOneAttempt` | pool/pool.go:1527-1662 | a client that discards on Reset holds only real frames of the latest attempt that sent any; all of them unless a worker reset itself |
| `CallStreamClient.TerminalIsLast` | pool/pool.go:1640-1662 | a Final or Error frame is the last frame |
| `CallStreamClient.StreamEnds` | pool/pool.go:1664-1734 | an uncancelled stream ends with one |
| `CallStreamClient.SuppressedIsUnmarked` | pool/pool.go:1438-1444 | with retries suppressed the client gets the one attempt's frames with no reset added |
| `CallRouting.Call` | pool/pool.go:1257-1339 | Call returns the latest planned payload, the latest outcome after it, and the terminal frame's data or error |
| `CallRouting.AttemptsNeverDecrease` | pool/pool.go:1575-1583 | metadata carries the attempt it came from, and attempt numbers never go down |
| `CallRouting.RoutingIsOneAttempt` | pool/pool.go:1263-1339 | if each attempt that is reached plans before its outcome, the two payloads Call returns are of one attempt |
| `CallRouting.RoutingIsOneAttemptIff` | pool/pool.go:1263-1339 | they are so on every run, whenever the caller cancels, if and only if each reached attempt's frames, up to the one that ends or retries it, plan before an outcome |
| `CallRouting.UnplannedIsMispaired` | pool/pool.go:1263-1339 | whichever reached attempt gives an outcome without a plan, a run whose caller cancels right after it makes Call pair it with an older plan or none |
| `CallRouting.MispairedWithoutPlan` | pool/pool.go:1257-1339 | a CallStream and Call over a script whose attempt 0 plans and closes and whose attempt 1 only gives an outcome return the plan of 0 with the outcome of 1 |
| `JsonTree.FirstMatch` | bamlutils/dynamic_order.go:453-461 | the first variant that matches, and none before it does |
| `JsonTree.MatchIgnoresOrder` | bamlutils/dynamic_order.go:471-589 | matching is the same for trees that are equal up to key order at any depth |
| `JsonTree.ScalarsMatch` | bamlutils/dynamic_order.go:471-567 | which scalars each type name accepts: those of its kind, float also integers, integer the numbers without fraction or exponent, a literal the nodes that denote its value |
| `JsonTree.CompositesMatch` | bamlutils/dynamic_order.go:471-567 | an optional also accepts null, a list is judged by its first item, a map by all its values, a union by any variant |
| `JsonTree.ClassesMatch` | bamlutils/dynamic_order.go:569-589 | an object matches a class if it has every declared property, leniently every one that is not optional |
| `JsonTree.StrictIsLenient` | bamlutils/dynamic_order.go:471-589 | what matches strictly matches leniently |
| `JsonReorder.TypeKeepsValue` | bamlutils/dynamic_order.go:395-466 | reordering keeps the JSON value, for every schema, recursive ones included |
| `JsonReorder.ClassKeepsValue` | bamlutils/dynamic_order.go:343-390 | the same at a class position |
| `JsonReorder.TypeTwice` | bamlutils/dynamic_order.go:395-466 | reordering is idempotent, through unions too |
| `JsonReorder.ClassTwice` | bamlutils/dynamic_order.go:343-390 | the same at a class position |
| `JsonReorderAt.OrderedEverywhere` | bamlutils/dynamic_order.go:343-466 | at every position of the tree: an object that is a class's instance, through optionals, lists, maps and the union's variant, has its declared keys first in schema order and the others in input order; any other object keeps its key order |
| `JsonReorderAt.KnownIff` | bamlutils/dynamic_order.go:395-405 | the pass meets only known refs if and only if the schema refers to an unknown type at no position of the tree |
| `JsonReorderLoops.ReorderClass` | bamlutils/dynamic_order.go:343-390 | the loops give the specified node, ordered at every position, and an error exactly when a ref they meet is unknown |
| `JsonReorderLoops.ReorderType` | bamlutils/dynamic_order.go:395-466 | the same by type, for optionals, lists, maps and unions; it fails if and only if the schema refers to an unknown type at some position |
| `KeyOrder.ArrangePermutes` | bamlutils/dynamic_order.go:343-390 | schema order permutes the keys: none lost, none doubled |
| `KeyOrder.DeclaredFirst` | bamlutils/dynamic_order.go:371-388 | by positions: declared names stand in schema order before all others, which keep their input order |
| `KeyOrder.AppendExtras` | bamlutils/dynamic_order.go:382-388 | undeclared keys follow in input order with their values unchanged |
| `JsonInject.LenientThenStrict` | bamlutils/dynamic_absent.go:113-187 | a type that matches leniently matches strictly after injection, where no spec has both type and ref |
| `JsonInject.ResolvedStaysResolved` | bamlutils/dynamic_absent.go:168-176 | a union that injection resolved is resolved again by the strict reorder, by that variant or an earlier one |
| `JsonInject.EarlierVariantCanWin` | bamlutils/dynamic_order.go:453-461 | and it can be an earlier one, for a union that is a property of the root |
| `JsonInject.StrayRefIff` | bamlutils/dynamic_absent.go:113-179 | for a spec of any type with a stray class ref: it matches strictly after injection if and only if each property of the class is there already or is an optional of the class its type leads to |
| `JsonInject.FillKeys` | bamlutils/dynamic_absent.go:113-179 | injection adds to an object exactly the optionals of the class its type leads to, through optionals and unions |
| `JsonInject.StrayRefBreaksIt` | bamlutils/interfaces.go:798-801 | so the law fails for such a spec |
| `JsonInject.TypeOnlyAdds` | bamlutils/dynamic_absent.go:113-179 | injection only adds nulls under properties that a class declares optional, and changes or drops nothing |
| `JsonInject.ClassOnlyAdds` | bamlutils/dynamic_absent.go:58-109 | the same at a class position |
| `JsonInject.TypeFillIgnoresOrder` | bamlutils/dynamic_absent.go:113-179 | inputs equal up to key order stay so |
| `JsonInjectAt.FilledEverywhere` | bamlutils/dynamic_absent.go:58-179 | at every position of the input: an object that is a class's instance gets all the class's absent optionals as null, declared keys first in schema order; any other object gets none, and scalars stay |
| `JsonInjectLoops.InjectClass` | bamlutils/dynamic_absent.go:58-109 | the loops give the specified node, filled at every position; only an unknown class name is an error |
| `JsonInjectLoops.InjectType` | bamlutils/dynamic_absent.go:113-179 | the same by type, with no error at all |
| `KeySort.SortKeysSorts` | bamlutils/dynamic_order.go:693-703 | the keys come out strictly sorted, the same set |
| `KeySort.SortedIsUnique` | bamlutils/dynamic_order.go:693-703 | a sorted key sequence is determined by its set |
| `JsonSort.AlphaSort` | bamlutils/dynamic_order.go:693-715 | the loops give the specified node |
| `JsonSort.SortIsCanonical` | bamlutils/dynamic_order.go:677-715 | two trees sort to the same tree if and only if they are the same JSON value |
| `JsonSort.SortForgetsReorder` | bamlutils/dynamic_order.go:677-715 | sorting after reordering is sorting |
| `JsonSort.OutputIsCanonical` | dynclient/client.go:218-230 | without preserve_schema_order the final tree depends on the JSON value alone |
| `StderrTail.RingBuffer.Write` | pool/stderr_tail.go:54-85 | after a write the buffer is what all bytes written so far ask for |
| `StderrTail.RingBuffer.EndLine` | pool/stderr_tail.go:77-83 | a newline ends the open line: the buffer is what the bytes up to and with it ask for |
| `StderrTail.RingBuffer.HoldOpen` | pool/stderr_tail.go:63-76 | bytes without a newline extend the open line: the buffer is what the longer history asks for |
| `StderrTail.RingBuffer.AppendLine` | pool/stderr_tail.go:92-99 | a line is cut to its tail and the oldest lines leave until both caps hold |
| `StderrTail.RingBuffer.EnforceBounds` | pool/stderr_tail.go:110-121 | the eviction loop gives the trimmed lines and keeps the byte count |
| `StderrTail.RingBuffer.Snapshot` | pool/stderr_tail.go:128-142 | the lines shown, with the open one last, both caps kept, and the text splits back into them |
| `StderrTail.JoinOfSplit` | pool/stderr_tail.go:54-85 | the ended lines and the open one are the bytes split at newlines |
| `StderrTail.SplitOfJoin` | pool/stderr_tail.go:128-142 | joined lines split back into the same lines |
| `StderrTail.RetainedLine` | pool/stderr_tail.go:77-83 | trimming beside an open line that then ends is trimming once |
| `StderrTail.WriteInChunks` | pool/stderr_tail.go:54-85 | any sequence of writes leaves the same lines, byte count and open line as one write of their concatenation |
| `StderrTail.HoldsLongestSuffix` | pool/stderr_tail.go:101-121 | the lines are the longest suffix of the tail-cut lines that fits both caps beside the open line |
| `DynStream.Stream.Next` | dynclient/stream.go:96-143 | one more event of the flattening, or its end; a terminated stream returns its latched value and changes nothing |
| `DynStream.Stream.Translate` | dynclient/stream.go:169-209 | a frame gives its reset and then its payload, with the accumulators since the last reset |
| `DynStream.Stream.PartialOf` | dynclient/stream.go:214-231 | a partial frame's event and its share of the accumulators |
| `DynStream.Stream.FinalOf` | dynclient/stream.go:243-269 | a final frame's event, or the pass that failed |
| `DynStream.Stream.Terminate` | dynclient/stream.go:288-296 | latches the end and drops the scope if nothing has |
| `DynStream.Stream.Cleanup` | dynclient/stream.go:300-306 | the scope is dropped once |
| `DynStream.Stream.Close` | dynclient/stream.go:148-162 | every remaining frame is released once; a second Close does nothing |
| `DynStream.Consume` | dynclient/stream.go:96-143 | reading to the end gives exactly the flattening of the frames; the frames read are a prefix of those given, each released once, and the scope is dropped once; in raw mode each partial event carries all text since the last reset |
| `DynStream.FrameShows` | dynclient/stream.go:169-269 | each frame before the end adds exactly what it shows: a Reset if it asks for one, then its payload without the envelope, for a final frame after the final passes and with the frame's own text in raw mode; heartbeats and empty frames add nothing |
| `DynStream.EndShows` | dynclient/stream.go:96-143 | the stream ends at the first frame that is an error or that a decoder refuses, with that error, or with io.EOF |
| `DynStream.ResetComesJustBefore` | dynclient/stream.go:204-208 | a frame's Reset event stands immediately before its payload |
| `DynStream.PartialsCarryText` | dynclient/stream.go:214-231 | in raw mode each partial event handed out carries the raw and reasoning text of its frame and of all frames back to the latest reset, or to the first frame |
| `DynStream.ReadPastEnd` | dynclient/stream.go:96-143 | whatever ended the stream, every later Next returns the same error if and only if that error does not wrap io.EOF, and io.EOF otherwise |
| `DynStream.ReplacedByEof` | dynclient/stream.go:288-296 | a worker's error that wraps io.EOF is returned by the first call and io.EOF by the second |
| `BrokerDialPlaces.StepKeeps` | workerplugin/plugin.go:373-425 | every step keeps each dialed connection with exactly one holder |
| `BrokerDialPlaces.ClosedForGood` | workerplugin/plugin.go:373-425 | in every run a closed connection stays closed |
| `BrokerDialPlaces.NeverBoth` | workerplugin/plugin.go:373-425 | a connection closed at any time is never one of a returned worker's |
| `BrokerDialPlaces.NeverNeither` | workerplugin/plugin.go:373-425 | when all have finished a dialed connection is closed if and only if it is not a returned worker's |
| `BrokerDialPlaces.SelectIsNeverStuck` | workerplugin/plugin.go:497-526 | a dial goroutine with a result can always hand it over or close it |
| `BrokerDialPlaces.CallerStepKeeps` | workerplugin/plugin.go:428-469 | the retry loop keeps the invariant |
| `BrokerDialPlaces.BufferedChannelLeaks` | workerplugin/plugin.go:497-526 | with room in the channel a run ends with a connection nobody will close |
| `BrokerDialOutcome.GivesUpOnlyAfterAll` | workerplugin/plugin.go:428-469 | a caller reports no connection only when cancelled or after all its attempts |
| `BrokerDialOutcome.ReturnedHasAll` | workerplugin/plugin.go:373-425 | a returned worker has every connection a caller has posted |
| `BrokerDialOutcome.GivenUpOnlyIfCancelled` | workerplugin/plugin.go:373-425 | the worker is given up only under a cancelled context |
| `TrustedConfig.Digest` | bamlutils/trustedconfig.go:150-189 | the canonical bytes, or the refusal that applies |
| `TrustedConfig.WriteField` | bamlutils/trustedconfig.go:192-195 | a length prefix and the bytes |
| `TrustedConfig.FieldInjective` | bamlutils/trustedconfig.go:192-202 | a prefixed field can be read back from any continuation |
| `TrustedConfig.SameBytesIff` | bamlutils/trustedconfig.go:150-202 | equal bytes if and only if resolved provider, name, provider and options agree, the value of api_key apart |
| `DirectParse.Handler.Parse` | worker/parse.go:28-144 | an eligible request gets what a worker without the bridge and with the flag off gives; one disposition is recorded once BAML has been called, and it names native if and only if the native payload is the answer returned |
| `DirectParse.RefusedFor` | worker/parse.go:28-90 | a request is refused for the first thing that is wrong with it, and only then |
| `DirectParse.AnsweredBy` | worker/parse.go:60-144 | a sound request gets the answer of its method, a stream request that of the stream implementation |
| `DirectParse.ReasonsMean` | worker/direct_parse_native.go:159-228 | when each reason is recorded, exactly |
| `DirectParse.NativeLeg.constructor` | worker/direct_parse_native.go:113-151 | the native leg ends as a payload, an error or an unusable success |
| `DirectParse.NativeLeg.Settle` | worker/direct_parse_native.go:159-187 | native bytes are served exactly when they equal BAML's |
| `DirectParse.NativeLeg.SettleBamlError` | worker/direct_parse_native.go:202-228 | native never wins an error |

## Left out

- gRPC, go-plugin, process start and kill, metrics and logging: killing a worker is a flag, and a worker is an arbitrary script of frames.
- JSON decoding and encoding, and SHA-256: the tree starts decoded, with distinct object keys, and the configuration encoding stops before the hash.
- Error classification: whether an error is retryable, or shaped like a cancellation, is part of the error.
- Which worker CallStream marks unhealthy and restarts after a failed attempt, and getWorkerForRetry's choice of a worker: a script says what each attempt meets.
- awaitAnyRestart and the spin loops around awaitRestart: they add polling to the restartDone protocol.
- The background drain of a cancelled stream and the hung-request detector, beyond their effect as a cancelled attempt and a kill.
- Pool.Parse's own retry loop: it is CallStream's without frames.
- The number of keys DropScope returns, and the order in which sync.Map ranges over scopes: one visit of sweepOnce at a time, any scope.
- OrderedMap's own operations: only what they guarantee is used, distinct keys with a value each.
- A class or schema that is nil where validation forbids it.
- Close of a dynclient stream while Next runs: `DynStream.Stream.Close` models it between calls.
- Panics in the native parser, and the direct-parse observer, which returns nothing.
- In the broker model results arrive in any order rather than first in, first out, which only adds interleavings; ids and retry count are arbitrary.
- In the drain model logicalInFlight is an unbounded integer, so its 64-bit overflow is not modelled.
- TrustedConfig.SameBytesIff: requires string lengths that fit a Go int, which every Go string has.
