# Verified models of psygo

This project models the stateful cores of psygo, a Go toolkit with a web framework, a goroutine pool, an RPC stack and a
small ORM, and proves what they keep. Code that updates state is modelled with classes, arrays, fields and loops and
proved against specification functions; code that runs concurrently is modelled as a transition system whose runs are
all interleavings.

- **Goroutine pool** (`LoopQueue.dfy`, `Fifo.dfy`, `Pool.dfy`, `PoolInvariant.dfy`, `PoolTheorems.dfy`,
  `PoolOvershoot.dfy`, `PoolBehaviour.dfy`, `PoolShutdown.dfy`). The circular queue of idle workers, with its binary
  search over rotated slots, refines a bounded FIFO sequence. `Pools` gives Submit, retrieveWorker, the worker
  goroutine, revertWorker, the scavenger, Release and Tune as interleaved steps: one access to an atomic counter, one
  channel operation, or one stretch under the lock that touches what the lock protects and, besides, at most the closed
  flag or one channel. Who owns a worker and where a task is are histories: a step looks at them only to give a new
  worker an unused number. The theorems are stated without them. Besides what every run keeps, they say what each
  operation does to the whole state when nobody interleaves with it, from any state that an interleaved run can reach.
- **Router** (`Paths.dfy`, `Trie.dfy`, `TrieNode.dfy`, `TrieAgreement.dfy`, `TrieFinished.dfy`, `RouteParams.dfy`,
  `Dispatch.dfy`, `Router.dfy`). The trie nodes are objects updated in place, proved equal to functions on trees. The
  trie agrees with a linear scan over the registered routes after every insert exactly when every insert is harmless, a
  condition on what the insert meets that can be computed before it; a later insert may repair a trie that has stopped
  agreeing. The finished trie agrees exactly when it passes a check that can be computed from it and the routes, and
  then a request gets the handler last registered for a route that answers it.
- **RPC client** (`RpcClient.dfy`, `RpcClientInvariant.dfy`, `RpcClientTheorems.dfy`, `RpcClientCancellation.dfy`,
  `RpcClientBehaviour.dfy`). Senders, cancellers, the receiver and termination share the table of pending calls under
  two mutexes.
- **Circuit breaker** (`Breaker.dfy`, `BreakerTheorems.dfy`, `BreakerStuck.dfy`). Execute is split where the request
  runs, so that requests overlap; runs are sequences of begins and ends on a clock that does not go back.
- **Handler chain** (`Chain.dfy`). Next, Abort and Fail over one shared index, with handlers that call them at will.
- **RPC server** (`RpcServer.dfy`, `RpcServerBehaviour.dfy`). The reading loop of a connection, and for each request
  the handler and its worker, which meet on unbuffered channels.
- **Round robin** (`Discovery.dfy`).
- **SQL clause builder** (`Clause.dfy`, `ClauseReading.dfy`, `ClauseAlignment.dfy`, `Strings.dfy`). A reader of SQL that
  knows nothing of the generators reads their texts back.

Where the code does not do what it is for, the model keeps the code and gives the exact condition:

- The pool's documentation says that it limits the number of goroutines (psygo/pool/pool.go:75-76). It does not: the
  counter is raised after the lock is released, so n overlapping calls can run n - 1 workers too many, and no more
  (`BoundedOvershoot`; `OvershootIsReached` for every size and n). The limit holds exactly when calls never overlap
  (`LimitHoldsIffSerial`), and at rest (`RestingPool`).
- An insert into the trie follows a wild child whatever its part is. `AlwaysAgreesIffHarmless` says exactly for which
  sequences of routes the trie agrees after each insert, `FinishedAgreesIff` for which the finished trie does.
  `ConflictBreaksAgreement` shows two routes that end it, `RepairedAgrees` a third insert that restores it.
- A node without a route is one whose pattern is empty, so registering the empty pattern erases the route of the root
  (`EmptyRouteErases`).
- Parameters rebuild the path exactly for patterns without a repeated name and without a bare `*`
  (`RoundTripIffInvertible`).
- The breaker counts a request when it ends, even one of an older generation. Such stragglers can lock a half-open
  breaker up for good: it can leave that state exactly when it is not stuck (`LeavesHalfOpenIffNotStuck`). The breakers
  that can get stuck are exactly those that can open (`StuckIffOpens`); with the default rule for tripping these are all
  whose interval is not negative, whatever maxRequests and the timeout are (`StuckIsReached`).
- Cancelling a call does not always keep it out of the table: it is or will be there in some continuation exactly when
  it was cancelled before it had a number, and is there already or still may be registered (`CancelledInTableIff`;
  `EarlyCancelLeaks` is a run).
- The worker goroutine of a request can end exactly when the handler has not chosen the timeout
  (`WorkerEndsIffNoTimeout`); with any timeout it may choose it (`TimeoutIsReached`).
- VALUES gives every row the placeholders of the first non-empty one (`RowsAlignedIffUniform`, `RaggedRows`).

The handlers map joins method and pattern with a dash. Two arbitrary method names could share a key (`KeysCollideIff`,
`CollidingVerbs`), but no two of the seven that RouterGroup registers do (`RegistrableApart`).

Check the whole project with `dafny verify dfyconfig.toml` (Dafny 4.11).

## Model

| member | source | states |
|---|---|---|
| LoopQueues.LoopQueue.constructor | psygo/pool/worker_loop_queue.go:15-20 | a new queue is an empty FIFO with size slots |
| LoopQueues.LoopQueue.IsEmpty | psygo/pool/worker_loop_queue.go:38-40 | the test on head, tail and the full flag is true exactly when nothing is queued |
| LoopQueues.LoopQueue.Len | psygo/pool/worker_loop_queue.go:22-36 | the case split over head and tail gives the number of queued workers, wrapped, full or released |
| LoopQueues.LoopQueue.Insert | psygo/pool/worker_loop_queue.go:43-59 | refines FIFO insertion, with the two error cases |
| LoopQueues.LoopQueue.Detach | psygo/pool/worker_loop_queue.go:62-74 | refines taking the oldest element |
| LoopQueues.LoopQueue.BinarySearch | psygo/pool/worker_loop_queue.go:110-148 | for any queue -1 or a live slot at a stale-to-fresh boundary; for a sorted one the linear scan's answer |
| LoopQueues.LoopQueue.LastStalePosition | psygo/pool/worker_loop_queue.go:132-146 | the search loop ends on a stale worker whose successor is fresh |
| LoopQueues.LoopQueue.Refresh | psygo/pool/worker_loop_queue.go:77-107 | removes a prefix and keeps the rest in order; for sorted stamps exactly the stale workers go, returned as a multiset; freed slots are cleared |
| LoopQueues.LoopQueue.CopyThrough | psygo/pool/worker_loop_queue.go:85-92 | when the removed range wraps, the result is the prefix rotated |
| LoopQueues.LoopQueue.Reset | psygo/pool/worker_loop_queue.go:150-164 | finishes all workers in order and releases the queue; does nothing to an empty one; the retry loop ends |
| LoopQueues.LastStaleSeparates | psygo/pool/worker_loop_queue.go:110-148 | in a sorted sequence the last stale position separates stale from fresh stamps |
| LoopQueues.BoundaryIsLastStale | psygo/pool/worker_loop_queue.go:135-147 | in a sorted sequence any stale-to-fresh boundary is the last stale position |
| Fifos.FirstInFirstOut | psygo/pool/worker_loop_queue.go:43-107 | over every run of operations, what entered is what left followed by what is queued |
| Fifos.FillsToSize | psygo/pool/worker_loop_queue.go:43-59 | of any elements inserted into a new queue exactly the first size enter, in order |
| Fifos.DrainsInOrder | psygo/pool/worker_loop_queue.go:62-74 | detaching takes the elements out oldest first, as long as there are any |
| Fifos.ReleasedForever | psygo/pool/worker_loop_queue.go:150-164 | resetting a non-empty queue releases it for good |
| Fifos.ReleasedIffResetNonEmpty | psygo/pool/worker_loop_queue.go:150-164 | over every run, the queue has lost its slots exactly when some reset found something queued |
| PoolInvariants.RunKeeps | psygo/pool/pool.go:267-445 | every reachable state of every interleaving satisfies the invariant |
| PoolTheorems.ExactlyOnce | psygo/pool/worker.go:25-64 | an accepted task is in one channel, or run by one worker, or has been run once; a task not accepted is nowhere |
| PoolTheorems.OneOwner | psygo/pool/pool.go:383-445 | no worker ever has two owners, and one with a goroutine has exactly one |
| PoolTheorems.CountersAndChannels | psygo/pool/pool.go:374-380 | running counts the live workers, waiting the blocked calls; idle, stale and held workers have empty channels |
| PoolTheorems.NoSendBlocks | psygo/pool/worker.go:54-64 | no send on a worker's channel ever blocks, not even inside reset under the lock |
| PoolTheorems.LockHolderMoves | psygo/pool/pool.go:383-418 | whoever holds the lock can take a step, and only the holder is inside |
| PoolTheorems.WaitingBound | psygo/pool/pool.go:402-410 | no more calls are blocked than MaxBlockingTasks allows |
| PoolTheorems.BoundedOvershoot | psygo/pool/pool.go:393-399 | with at most n calls in flight, running is at most the capacity plus n - 1 |
| PoolTheorems.RestingPool | psygo/pool/pool.go:421-445 | an overshoot does not last: at rest the live workers are those in the queue, at most as many as the pool's size; and every accepted task has been run |
| PoolTheorems.AcceptedTaskCanRun | psygo/pool/worker.go:25-64 | in every reachable state an accepted task is at most two steps of one worker away from having been run, whoever holds the lock |
| PoolBehaviours.TaskEnds | psygo/pool/worker.go:42-51 | a task that returns leads to revertWorker, one that panics to the worker's exit |
| PoolBehaviours.InsertIffRoom | psygo/pool/pool.go:429-442 | under the lock the worker becomes the last of the queue if and only if the pool is open and has a slot; else it exits and nothing changes |
| PoolBehaviours.RevertIffRoom | psygo/pool/pool.go:422-445 | the whole of revertWorker: the worker is put back if and only if running is at most the capacity, the pool is open and a slot is free |
| PoolBehaviours.SubmitAlone | psygo/pool/pool.go:267-418 | a call is refused when the pool is closed; else the oldest idle worker gets the task, or a new worker when the capacity allows, or the call is refused for overload, or it waits, and nothing else changes |
| PoolBehaviours.WakeAlone | psygo/pool/pool.go:403-418 | a call that wakes is refused when the pool has been closed, and else tries again, no longer waiting |
| PoolShutdowns.RefusedIff | psygo/pool/pool.go:267-418 | in every interleaving a step refuses a call as closed, or for overload, exactly at these points and under these conditions |
| PoolShutdowns.ClosedRefuses | psygo/pool/pool.go:268-270 | once the pool is closed, a call that has not begun or that waits is never accepted, however the run goes on |
| PoolShutdowns.OnlyWhenNoneIdle | psygo/pool/pool.go:385-401 | in every interleaving a call looks at the counters, waits or is refused for overload only while no worker is idle |
| PoolShutdowns.ExitEnds | psygo/pool/worker.go:28-41 | an exiting worker is counted no more and goes to the cache |
| PoolShutdowns.StopEnds | psygo/pool/worker.go:43-46 | a worker that receives the nil of finish exits |
| PoolShutdowns.ReleaseAlone | psygo/pool/pool.go:326-346 | Release closes the pool, gives every idle worker a nil, and takes the slots away if there was one |
| PoolShutdowns.PurgeAlone | psygo/pool/worker_loop_queue.go:77-107 | a purge takes the oldest workers out of the queue and gives each a nil; the others stay |
| PoolShutdowns.TuneIff | psygo/pool/pool.go:304-309 | the capacity changes if and only if the new one is positive and the pool is not preallocated |
| PoolOvershoots.OvershootIsReached | psygo/pool/pool.go:383-418 | for every size and every n: n overlapping calls get size - 1 + n workers running |
| PoolOvershoots.LimitHoldsIffSerial | psygo/pool/pool.go:75-76 | the documented limit holds in every run with at most n calls in flight if and only if n is 1 |
| PoolTheorems.ReleasedStaysEmpty | psygo/pool/pool.go:325-343 | after Release no worker enters the queue again and none stays idle |
| Paths.ParsePattern | psygo/router.go:25-38 | the loop computes the non-empty items up to the first that starts with a star |
| Paths.PartsAreWellFormed | psygo/router.go:25-38 | parts are non-empty, hold no slash, and only the last starts with a star |
| Paths.PartsOfPath | psygo/router.go:25-38 | parsing undoes joining: every well-formed list of parts is what some path parses to |
| Paths.PartsAtSlash | psygo/router.go:25-38 | the two sides of any slash are parsed on their own, and nothing counts after a star part |
| Paths.OnlyParser | psygo/router.go:25-38 | with what an empty string and a single part parse to, that law holds of parsing and of no other function |
| TrieNodes.TrieNode.MatchChild | psygo/trie.go:13-20 | the loop finds the first child that accepts the part |
| TrieNodes.TrieNode.MatchChildren | psygo/trie.go:23-31 | the loop collects the children that accept the part, in order |
| TrieNodes.TrieNode.Insert | psygo/trie.go:41-55 | the insert in place is the insert on trees |
| TrieNodes.TrieNode.Search | psygo/trie.go:58-77 | the search over nodes is the search on trees |
| TrieInserts.InsertKeepsSound | psygo/trie.go:41-55 | a wild child stays the last one and a star node has a pattern |
| TrieInserts.InsertChanges | psygo/trie.go:41-77 | an insert changes a search only on paths that match its trail, which then find something |
| TrieAgreement.InsertAgreesIffHarmless | psygo/trie.go:13-77 | on a trie that agrees with the linear scan, one insert keeps the agreement exactly when its pattern is not empty and it is harmless |
| TrieAgreement.EmptyRouteErases | psygo/trie.go:41-77 | the empty pattern erases the route of the root and ends the agreement |
| TrieAgreement.AlwaysAgreesIffHarmless | psygo/trie.go:13-77 | for every sequence of routes, empty patterns included: agreement after each insert if and only if each insert is harmless and not empty |
| TrieAgreement.NoConflictsAgree | psygo/trie.go:13-77 | inserts that only meet equal parts are harmless, so search finds nothing exactly when no route matches, and else a matching one |
| TrieAgreement.ConflictBreaksAgreement | psygo/trie.go:13-20 | /:a followed by /b: the path /c is answered by /b |
| TrieAgreement.RepairedAgrees | psygo/trie.go:41-55 | /:a, /b and /:a again: the finished trie agrees although it did not on the way |
| FinishedTries.FinishedAgreesIff | psygo/trie.go:13-77 | for every sequence of routes: the finished trie agrees with the linear scan if and only if each pattern that search can reach covers the way to it, and search finds something on each route's own path |
| RouteParams.FillParams | psygo/router.go:62-72 | the loop fills the map of parameters |
| RouteRoundTrips.ParamsAreTaken | psygo/router.go:62-72 | for every pattern: a parameter is set exactly when a part names it, to what the last such part takes |
| RouteRoundTrips.RoundTripIffInvertible | psygo/router.go:62-72 | putting the parameters back rebuilds every matching path exactly when names are distinct and no star is bare |
| Dispatching.BuildFiles | psygo/trie.go:41-55 | every stored pattern has as many parts as its node is deep, whatever conflicts |
| Dispatching.RouteIsSafe | psygo/router.go:53-76 | getRoute never reads past the path, and the handler it leads to is registered |
| Dispatching.KeysCollideIff | psygo/router.go:43-43 | two methods can share a handler key exactly when, each followed by a dash, one is a prefix of the other |
| Dispatching.HandlerIsLatest | psygo/router.go:41-50 | the handler under a key is the last one registered for its method and pattern |
| Dispatching.DispatchServes | psygo/router.go:41-92 | whenever the finished trie agrees and no key is shared: a request is not found exactly when no route of its method answers it; else it gets the last handler of a route that does, with that route's parameters |
| Dispatching.ServedPathRebuilds | psygo/router.go:53-92 | whenever names are distinct as well, the parameters a handler gets rebuild the path that was asked for |
| Dispatching.CollidingVerbs | psygo/router.go:43-49 | given to addRoute, methods whose keys are not apart collide: a registration takes over the other's handler |
| Dispatching.RegistrableApart | psygo/psy.go:101-138 | no two of the methods that RouterGroup registers can share a key |
| Dispatching.GroupServes | psygo/psy.go:101-138 | routes registered through groups are served, for requests of any method, when the trie agrees or each insert was harmless |
| Dispatching.GroupServesIffChecked | psygo/psy.go:101-138 | when handlers can be told apart, every request of a method is served if and only if the finished trie passes the check |
| Dispatching.GroupPathRebuilds | psygo/psy.go:101-138 | and their parameters rebuild the path |
| Routers.Router.AddRoute | psygo/router.go:41-50 | one more registration, with the trees updated in place and the other methods' trees untouched |
| Routers.Router.GetRoute | psygo/router.go:53-76 | the node and the parameters for the registrations so far, or nil |
| Routers.Router.Handle | psygo/router.go:78-90 | the handler and parameters that the registrations so far stand for |
| RpcClientInvariants.RunKeeps | psygo/rpc/client.go:71-191 | every reachable state of every interleaving satisfies the invariant |
| RpcClientTheorems.SingleCompletion | psygo/rpc/client.go:29-31 | Done fires at most once for each call |
| RpcClientTheorems.DoneNeverBlocks | psygo/rpc/client.go:180-183 | every send on a call's channel is the first, so a channel of its own has room |
| RpcClientTheorems.NoCallIsLost | psygo/rpc/client.go:103-131 | a call that send is done with is complete, pending, at the receiver, or taken out by its own cancellation |
| RpcClientTheorems.TerminationCompletes | psygo/rpc/client.go:91-101 | after termination every registered call is complete unless cancellation removed it |
| RpcClientTheorems.Routing | psygo/rpc/client.go:133-160 | numbers are unique, requests carry their call's number, and a response completes only the call registered under its number |
| RpcClientTheorems.PendingKeys | psygo/rpc/client.go:71-81 | keys of the table are their calls' numbers and lie below the next one |
| RpcClientTheorems.UnknownResponse | psygo/rpc/client.go:140-145 | a response to a number that is not pending changes nothing, and the receiver goes on unless the body could not be read |
| RpcClientBehaviours.KnownResponse | psygo/rpc/client.go:140-156 | a response to a pending call takes it out of the table and completes it, failed if the header carries an error or the body cannot be read |
| RpcClientBehaviours.HeaderRead | psygo/rpc/client.go:135-139 | a header is taken up; one that cannot be read ends the loop |
| RpcClientBehaviours.TerminationAlone | psygo/rpc/client.go:91-101 | the client is shut down and exactly the calls in the table are completed as terminated |
| RpcClientBehaviours.RegistersIffOpen | psygo/rpc/client.go:71-81 | a call gets the next number and its entry, unless the client is closing or shut down |
| RpcClientBehaviours.RefusedIsReported | psygo/rpc/client.go:109-113 | a refused call is completed as shut down |
| RpcClientBehaviours.FailedWriteIsReported | psygo/rpc/client.go:121-129 | a failed write takes the call out of the table and completes it with that error, unless it is not there any more |
| RpcClientBehaviours.GoAlone | psygo/rpc/client.go:103-131 | a new call is refused, or gets the next number, goes out under it and waits in the table, or reports the failed write |
| RpcClientBehaviours.CloseRefuses | psygo/rpc/client.go:71-76 | after Close every new call is refused |
| RpcClientBehaviours.CancelAlone | psygo/rpc/client.go:185-187 | a cancelled call takes its own number out of the table, and no report changes |
| RpcClientTheorems.EarlyCancelLeaks | psygo/rpc/client.go:182-187 | a run after which a call cancelled without a number is in the table |
| RpcClientCancellation.InTableIff | psygo/rpc/client.go:71-131 | a call is in the table in some continuation exactly when it is now, or has no number and registering is not barred |
| RpcClientCancellation.CancelledInTableIff | psygo/rpc/client.go:103-187 | a cancelled call is in the table in some continuation exactly when it was cancelled without a number, and is there now or may still be registered |
| RpcClientTheorems.ClosedRegistersNothing | psygo/rpc/client.go:71-81 | once the client is closing or shut down, no call is registered any more, however the run goes on |
| RpcClientTheorems.HoldersMove | psygo/rpc/client.go:91-131 | whoever holds a mutex can go on |
| Breakers.CircuitBreaker.constructor | psygo/rpc/breaker/breaker.go:102-140 | defaults where settings are zero, and the first generation |
| Breakers.CircuitBreaker.NewGeneration | psygo/rpc/breaker/breaker.go:81-99 | a new generation with cleared tallies and the expiry of its state |
| Breakers.CircuitBreaker.CurrentState | psygo/rpc/breaker/breaker.go:191-204 | the state after what the clock has made expire |
| Breakers.CircuitBreaker.BeforeRequest | psygo/rpc/breaker/breaker.go:161-174 | whether a request is let through, and in which generation |
| Breakers.CircuitBreaker.AfterExecute | psygo/rpc/breaker/breaker.go:154-156 | the end of a request: counted even when its result is not |
| Breakers.CircuitBreaker.AfterRequest | psygo/rpc/breaker/breaker.go:177-188 | results of other generations are ignored |
| Breakers.CircuitBreaker.OnSuccess | psygo/rpc/breaker/breaker.go:222-232 | the new tallies, and closing after enough successes |
| Breakers.CircuitBreaker.OnFail | psygo/rpc/breaker/breaker.go:235-245 | the new tallies, and opening |
| BreakerRuns.RunKeeps | psygo/rpc/breaker/breaker.go:142-245 | every run of overlapping requests keeps the invariant |
| BreakerTheorems.TalliesAreTheLog | psygo/rpc/breaker/breaker.go:27-49 | consecutive tallies are the trailing runs, and totals the counts, of the results logged in the current generation |
| BreakerTheorems.StaleResultsDoNotCount | psygo/rpc/breaker/breaker.go:177-182 | however many requests of older generations end, tallies and state are what the clock alone would have made them |
| BreakerTheorems.ClosedCountsIffInTime | psygo/rpc/breaker/breaker.go:177-204 | closed, a result is counted if and only if it was admitted in this generation and the interval has not passed |
| BreakerTheorems.TripsIffReady | psygo/rpc/breaker/breaker.go:235-241 | closed, the breaker opens exactly on a counted failure after which the caller's rule holds of what the log says |
| BreakerTheorems.TripsOnTheSixth | psygo/rpc/breaker/breaker.go:124-127 | by default the breaker opens exactly on the sixth counted failure in a row |
| BreakerTheorems.TripsAsAsked | psygo/rpc/breaker/breaker.go:124-130 | the rule for tripping is the one in the settings, or six failures in a row |
| BreakerTheorems.OpenForTimeout | psygo/rpc/breaker/breaker.go:118-123 | an open breaker lets nothing through for the timeout in the settings, or ten seconds |
| BreakerTheorems.ClosesAfterSuccesses | psygo/rpc/breaker/breaker.go:107-111 | a half-open breaker closes on the success after maxRequests in the settings, or the third |
| BreakerTheorems.ClosedForgetsIffExpired | psygo/rpc/breaker/breaker.go:87-93 | closed, every request is let through, and the tallies are forgotten exactly when an interval is set and has passed |
| BreakerTheorems.OpenAdmitsIffExpired | psygo/rpc/breaker/breaker.go:161-167 | an open breaker lets a request through exactly when the timeout since the trip is over, and then it is half-open |
| BreakerTheorems.NothingBeforeTimeout | psygo/rpc/breaker/breaker.go:191-204 | whatever happens until then, it stays open and lets nothing through |
| BreakerTheorems.HalfOpenAdmission | psygo/rpc/breaker/breaker.go:168-172 | half-open, requests are stale ends plus successes in a row; without stale ends every request is let through |
| BreakerTheorems.HalfOpenOutcome | psygo/rpc/breaker/breaker.go:226-244 | half-open, a counted failure opens, and exactly the success after maxRequests of them closes |
| BreakerTheorems.LeavesHalfOpenIffNotStuck | psygo/rpc/breaker/breaker.go:153-174 | a half-open breaker can leave that state if and only if it is not stuck |
| StuckBreakers.StuckIffOpens | psygo/rpc/breaker/breaker.go:153-174 | for all settings: some run gets the breaker stuck if and only if some run opens it |
| StuckBreakers.StuckIsReached | psygo/rpc/breaker/breaker.go:124-157 | with the default rule, for every maxRequests and timeout: it can get stuck if and only if the interval is not negative |
| Chains.Context.Next | psygo/context.go:476-483 | terminates, runs what the trace says, and leaves the index past the chain |
| Chains.Context.Call | psygo/context.go:480-482 | one handler with everything inside its calls of Next |
| Chains.Context.Handle | psygo/router.go:85-91 | the route's handler is appended and the whole chain runs |
| Chains.ChainOrder | psygo/context.go:476-491 | handlers start in order, each once, up to the first that aborts or fails before it calls Next |
| Chains.StartedFinish | psygo/context.go:476-483 | each handler that starts also finishes |
| Chains.RouteRunsIffNobodyStops | psygo/context.go:485-491 | the route's handler runs if and only if no middleware stops the chain |
| Chains.AbortIsFinal | psygo/context.go:485-491 | whichever handler aborts or fails, and wherever, no handler starts from then on |
| Chains.TraceIsComplete | psygo/context.go:476-491 | a handler that starts does so once, finishes once, and each of its aborts is in the trace; of others there is nothing |
| Chains.Nesting | psygo/context.go:476-483 | a later handler runs wholly inside an earlier one that calls Next, wholly after one that does not |
| RpcServers.RunKeeps | psygo/rpc/server.go:79-97 | every interleaving of loop, handlers and workers keeps the invariant |
| RpcServers.OneResponse | psygo/rpc/server.go:188-237 | at most one response for a request, exactly one when its handler returns, and it reports the method's result or the timeout |
| RpcServers.NoTimeout | psygo/rpc/server.go:225-229 | without a timeout the response is the method's own |
| RpcServers.CloseIsLast | psygo/rpc/server.go:92-96 | the codec is closed only after every handler has returned |
| RpcServers.NothingWrittenAfterClose | psygo/rpc/server.go:180-186 | nothing is written on a closed codec |
| RpcServers.InvalidRequestsAnswered | psygo/rpc/server.go:83-91 | each invalid request is answered before the next is read |
| RpcServers.WaitGroupCounts | psygo/rpc/server.go:92-95 | the wait group counts the handlers that have not returned |
| RpcServers.WorkerEndsIffNoTimeout | psygo/rpc/server.go:211-237 | in every reachable state, a worker can still end if and only if its handler has not chosen the timeout; if it has, the worker never gets past its offer on called |
| RpcServers.TimeoutIsReached | psygo/rpc/server.go:230-234 | with any timeout there is a run in which it is chosen and answered |
| RpcServers.SenderMoves | psygo/rpc/server.go:180-186 | the holder of sending can give it back |
| RpcServerBehaviours.ReplyAlone | psygo/rpc/server.go:188-237 | a request whose method returns in time: one response with the method's outcome, both goroutines end, the wait group is as before |
| RpcServerBehaviours.TimeoutAlone | psygo/rpc/server.go:225-234 | a request whose timeout comes first: one response, the timeout; the handler returns while the method runs |
| RpcServerBehaviours.InvalidAlone | psygo/rpc/server.go:83-91 | an invalid request is answered and the loop reads on |
| RpcServerBehaviours.CloseAlone | psygo/rpc/server.go:92-96 | with nothing to read and every handler returned, the codec is closed |
| Discoveries.MultiServersDiscovery.Get | psygo/rpc/xclient/discovery.go:50-67 | the server picked and the index left in each mode, and the two errors; in range for any index |
| Discoveries.KthPick | psygo/rpc/xclient/discovery.go:60-63 | the pick after k others is k positions further on |
| Discoveries.EachOnce | psygo/rpc/xclient/discovery.go:60-63 | from any index, n picks take each of n positions once |
| Discoveries.Fairness | psygo/rpc/xclient/discovery.go:60-63 | after any number of picks two positions differ by at most one |
| Clauses.GenBindVars | psygo/orm/clause/generator.go:25-31 | the loop joins that many placeholders |
| Clauses.GenValues | psygo/orm/clause/generator.go:41-60 | the streamed text is the rows' texts joined, and the arguments are all values in order |
| Clauses.GenUpdate | psygo/orm/clause/generator.go:84-96 | keys in some order, each once, with their values in the same order |
| Clauses.Generate | psygo/orm/clause/generator.go:33-104 | what each generator may produce |
| ClauseReading.ReadsBack | psygo/orm/clause/generator.go:33-104 | all nine generators: a reader of SQL finds in the text the kind of clause, the table, the fields or columns in order with their arguments, the description, and the placeholders of each row |
| Clauses.Clause.Set | psygo/orm/clause/clause.go:28-36 | the clause set last counts |
| Clauses.BuildFrom | psygo/orm/clause/clause.go:39-49 | the texts and arguments of the clauses that are set, in the order asked for |
| Clauses.ChosenInOrder | psygo/orm/clause/clause.go:41-46 | the types asked for are gone through in order, and each counts if it has been set |
| Clauses.Clause.Build | psygo/orm/clause/clause.go:39-49 | likewise, for the clauses set last |
| ClauseAlignment.BoundariesAreInside | psygo/orm/clause/clause.go:39-49 | what stands before a clause is a prefix of the SQL and of the arguments |
| ClauseAlignment.BalancedIffFits | psygo/orm/clause/generator.go:33-104 | a clause has as many placeholders as arguments exactly when its input fits |
| ClauseAlignment.BuildAlignsIffAllFit | psygo/orm/clause/clause.go:39-49 | for every builder and order: the i-th placeholder is in the text of the clause that brought the i-th argument, for all i, exactly when every clause fits |
| ClauseAlignment.OwnersAgreeIffAligned | psygo/orm/clause/clause.go:39-49 | owners of placeholders and arguments agree exactly when their numbers agree at every boundary between clauses |
| ClauseAlignment.UpdatePairsKeys | psygo/orm/clause/generator.go:84-96 | UPDATE pairs each key with its own value |
| ClauseAlignment.RowsAlignedIffUniform | psygo/orm/clause/generator.go:41-60 | the first k rows' text and values are prefixes, and each row of VALUES gets its own placeholders exactly when no row is ragged |
| ClauseAlignment.RaggedRows | psygo/orm/clause/generator.go:49-51 | ragged rows can add up in all and still be misplaced |

## Left out

- LoopQueues.LoopQueue.Reset: returns the workers it finishes, because a worker is a value here; the channel send of finish is in the pool's steps.
- ClauseReading.ReadsBack: asks for fields and columns, and the tables of INSERT and UPDATE, without blanks, commas and parentheses, because the generators do not quote.
- RpcClientTheorems.HoldersMove: says that a holder can go on, not that it is ever scheduled.
- PoolTheorems.LockHolderMoves: likewise.
- Chains.Context.Call: a handler's effect on the chain is a fixed sequence of operations, which covers every handler because each runs at most once for a request; a panic that unwinds through Next is not modelled.
- Routers.Router.Handle: returns the handler; writing the 404 response and running the chain is in Chains.
- RpcServers.OneResponse: covers handling without a circuit breaker only; when a breaker rejects a request, called is never signalled.
- Pools of size 0 or less, unbuffered worker channels (one processor), nil tasks, Reboot and ReleaseTimeout.
- The pool's condition variable: any sleeping call may wake at any time, so nothing is said about lost wake-ups or fairness.
- Tune reads and stores the capacity in one step; the scavenger is one goroutine.
- The time stamp of a worker, in the pool's steps: how many workers a purge takes is left open there and fixed by the queue.
- Wrap-around of 32-bit and 64-bit counters, numbers and generations: they are unbounded.
- Go memory-model data races: a breaker's begin and end, and a canceller's read of a call's number, are single steps.
- Codecs, connections, time-outs of dialling, and reflection: reading and writing succeed or fail as the step says.
- The limiter, service lookup and argument decoding of the server: a request read is valid, invalid, or the last.
- Shared Done channels given to Client.Go, which may be full.
- Callbacks of the breaker (state change, fallback), which touch none of its fields.
- Group middleware selection, HTTP serving, rendering, templates, cookies, logging and tracing: thin or I/O.
- Sessions, schemas, transactions and migrations of the ORM; inputs of the wrong dynamic type to a generator, which panic.
- Registry heartbeats, client caching and broadcast.
