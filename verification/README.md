# A verified model of the ephemerald container pool

ephemerald keeps a pool of Docker containers ready for tests. Each pool is a handful of goroutines that share
no state: the pool's own loop, one actor per container, a spawner that creates containers, a buffer of ready
ones, and whoever checks containers out and returns them. The guarantees worth having (nobody shares a
container, nobody gets a dirty one, the pool does not run dry, shutdown loses nothing) belong to none of these
goroutines alone. This project proves them about the whole.

## How it is built

`System.dfy` is one state machine: the position of every goroutine, every channel, and every message some
goroutine is blocked sending. A step is either one goroutine's own, or a meeting of two on an unbuffered channel;
`requestch` is a sequence of at most five numbers. A run is any sequence of steps that are possible in turn
(`Legal`), in any interleaving, with any number of containers, clients and `Stop` calls, and whatever Docker and
the lifecycle actions may answer. A send on a closed channel, a second close and the use of a nil item set a
flag, `panicked`, which is proved never to be set. `History` notes what has happened; no step reads it.

| file | what it holds |
|---|---|
| `Pool`, `Items`, `Spawner`, `Buffer`, `Containers` | what each goroutine does with one message, as functions |
| `PoolLoop`, `ItemLoop`, `Spawner`, `Buffer`, `Containers` | the goroutines as classes with the original loops and fields, proved to follow those functions for every script of messages |
| `Structure`, `Footprint` | the invariant that holds in every reachable state, and what each step leaves alone |
| `Supply`, `Exclusive`, `Handout`, `Order`, `Recycling`, `Shutdown`, `Drain` | one guarantee each, over all runs |
| `PoolSteps`, `SpawnerSteps` | the pool's and the spawner's loops are what their steps do in the whole system |
| `Starts` | the history is what happened; a container is started once |
| `Stopping` | the pool can always be brought to its end, but for one way of blocking |
| `Limits`, `Strays`, `Stranded` | what the code does not guarantee: counterexample runs, and the exact conditions |
| `Runner`, `Manager` | action attempts, timeouts and the delay meant to cover them |
| `PoolSet` | checkout from several pools at once |

The right to use a container is treated as a token: `Exclusive` proves that it is moved and never copied,
`Handout` that where it is says what has been done to the container, `Recycling` that only a successful reset
renews it, `Drain` that spending it is what makes draining end. A client is *disciplined* if it returns only what
it holds, once per checkout; every result that needs this says so.

Where the code and its evident intention differ, the model follows the code:

- The pool can track more items than its size, and the pool and the spawner can block each other for good,
  exactly when the size is two or more (`Limits.SizeIsALimitExactly`, `Limits.FreeOfMutualBlockExactly`).
- That block is also the only thing that can keep a pool from being stopped (`Stopping.CanBeStoppedExactly`).
- A failed reset leaves the container tracked, with nobody having the use of it and nobody told to stop it: the
  item's main loop has no case for `reset-error`. It takes one client, one checkout and one return, and happens
  exactly in pools that have items and reset them (`Stranded.NothingStrandedExactly`, `Stranded.FailedResetStrands`).
- `Return` does not ask who holds the container. Without trusting the clients, exclusive use holds exactly in pools
  that have no reset action, or no items (`Strays.ExclusiveForAnyClientsExactly`).
- `MaxDelay` does not bound an action's run for some negative delays, timeouts and retry counts, all of which the
  configuration accepts, and on overflow (`Managers.DelayCoversExactly` says for which settings it does).

## Model

| member | source | states |
|---|---|---|
| Structure.InvAlways | pool.go:209-356 | In every reachable state each channel is open or closed as the position of its owner says, creations add up, and every container is waiting for the spawner, offered by it, tracked (until its exit) or drained, in exactly one of these ways |
| Structure.InvStep | pool.go:249-344 | Each single step of any goroutine keeps that invariant |
| Structure.SiteStep | pool.go:263-291 | The part about one container: it stays in exactly one hand, joined if and only if tracked, its `exited` channel closed if and only if the pool has processed its exit |
| Structure.ControlStep | spawner.go:77-137 | The part about channels and counters: no panic, `requestch` never over capacity, `pending` is what the creating goroutines have not delivered |
| Exclusive.ExclusiveUse | pool.go:172-195 | With disciplined clients no two clients ever hold the same container; a held one is not queued, not being returned, not being reset or prepared; the ready buffer holds none twice |
| Exclusive.TokensBounded | pool.go:281-285 | For arbitrary clients: the tokens of a container never exceed one, plus one for each return by somebody who did not hold it |
| Exclusive.TokensStep | item.go:151-276 | No step copies a token: only creating the container or a stray return adds one |
| Items.StepTokens | item.go:151-205 | Within one item: no event, child or container report multiplies the token, only a reset request brings one in |
| Items.SenderEndsOnce | item.go:116-121 | Each `sendEvent` ends once, by delivery or by the item's exit, and only the pool starts one |
| Items.EarlyAndStaleEvents | item.go:135-223 | Before the join only a kill has an effect, after the main loop no event has |
| Items.LocalStep | item.go:130-225 | What an item does by itself keeps its shape: joined once, started at most once, `exited` closed only after the exit was told, a kill once requested is never forgotten |
| Handout.PreparedHandout | item.go:157-259 | With disciplined clients each checkout of a container comes after a successful initialize, that after a successful healthcheck (each where configured), and all of them after Docker has started it |
| Starts.RefusedStartIsNeverHandedOut | container.go:100-115 | With disciplined clients a container whose start Docker refused is never handed out |
| Starts.StartedOnce | container.go:88-92 | In any run Docker answers at most one start of each container |
| Starts.NotesAreSteps | item.go:227-276 | The starts, healthchecks, initializes, resets, Readys and Exits the other results speak of are exactly the steps of the run in which these succeeded or were received |
| Handout.ResetBetweenHandouts | item.go:261-276 | With disciplined clients a successful reset of the container lies strictly between any two of its checkouts; with no reset configured there is no second one |
| Handout.StageStepAll | item.go:157-201 | The invariant behind these, step by step: the token's place says whether the container is unchecked, unprepared, fit or used |
| Supply.SupplyNeverLost | pool.go:346-350 | While running: the last request (or the target), the item on offer and the tracked items make up the size, in spite of overwritten requests, failures and exits; once the spawner has caught up, so do the creations in progress |
| Supply.SupplyBounded | spawner.go:44-58 | Tracked, offered, pending and requested containers never exceed six times the size; pending and offered alone never exceed it |
| Supply.SizeOneExact | pool.go:346-350 | With size one there is at any time exactly one container, tracked, on its way, or asked for |
| Supply.SupplyStep | spawner.go:77-105 | Every step but the sending of a request leaves the total of that supply no larger |
| Supply.SpawnerLedger | spawner.go:77-137 | Creations started are successes, failures and `pending`; `pending` is never below the target at the select, and zero when `nextch` closes |
| Spawner.NeverShort | spawner.go:77-105 | For every sequence of requests, failures and successes the request loop comes back to its select with `pending` at least `needed` |
| Spawner.NewestRequestRules | spawner.go:84-88 | The newest request replaces the target whatever came before, and never cancels creations in progress |
| Spawner.TargetExactly | spawner.go:83-100 | After any script the target is the newest request less the items, not the failures, received since, and not below zero |
| Spawner.FailureIsRetried | spawner.go:90-96 | A failure leaves the target, and what is in flight too unless that was more than the target |
| SpawnerSteps.SpawnerFollowsItsLoop | spawner.go:72-105 | Over any run of the whole system the spawner is where its loop is after the requests, items and failures it has received |
| SpawnerSteps.TargetOverRuns | spawner.go:83-100 | So in any run its target at the select is the last request read less the items received since |
| Spawner.PiSpawner.FillUp | spawner.go:130-137 | Starts exactly the creations missing from the target, and none if there are more |
| Spawner.PiSpawner.TakeInput | spawner.go:83-103 | One arm of the select: a request replaces the target, an item lowers it, a failure does not; what is sent on, and how many creations begin so that the target is met |
| Spawner.PiSpawner.FillRequests | spawner.go:77-105 | Any script: stops exactly at the close, passes on every created item in order, and creations started less results received is the change of `pending` |
| Spawner.PiSpawner.DrainResults | spawner.go:107-128 | Receives exactly the pending results, passes the items on in order, and closes `nextch` only at zero |
| Buffer.TurnsAreFifo | buffer.go:41-66 | After any turns, what has been handed out followed by what is queued is everything accepted, in order |
| Buffer.OutHandsOutOldest | buffer.go:50-63 | While anything is left, an offer taken up hands out the oldest item left |
| Buffer.PiBuffer.Run | buffer.go:41-66 | The loop over any script does those turns, reports what it handed out, and does nothing after its input is closed |
| Order.CheckoutOrder | pool.go:276-279 | Over whole runs: checkouts, followed by the queue, are the puts, which are the containers in the order the pool saw them ready |
| Order.NothingAfterExit | item.go:151-205 | After a container's Exit the pool receives neither Ready nor Exit from it again |
| Order.MessagesAreFromTracked | pool.go:276-290 | Every Ready or Exit an item can deliver, running or draining, names a container the pool still tracks |
| Order.StartNotSwallowed | item.go:130-149 | The start event never reaches the wait-join loop; delivered to a live item it performs the container's one start |
| Recycling.RecyclingCount | item.go:243-276 | For arbitrary clients: puts of a container are at most one more than its successful resets, and checkouts at most its puts; at most one without a reset action |
| Recycling.PromiseStep | item.go:157-203 | Inside an item only a reset that returned nil renews the chance to be ready again; a failed one, or a second return, does not |
| Shutdown.ChannelSafety | pool.go:249-294 | No send on a closed channel and no second close of any of `requestch`, `inch`, `outch`, `nextch`, `joinch`, `exited`, `initch`, `donech`; the running loop never sees the nil item of a closed `nextch` |
| Shutdown.ShutdownConservation | pool.go:296-344 | When `donech` closes nothing is tracked, pending or in creation, and every container ever created was either tracked with its exit processed, or received while draining and killed, never both |
| Shutdown.ItemsAreTrackedLessExited | pool.go:263-291 | At every moment the pool's items are those it tracked less those whose exit it processed |
| Shutdown.DrainKillsEveryItem | pool.go:352-356 | At each select of the drain loops every tracked item has been told to stop |
| Shutdown.StopIsSafe | pool.go:148-155 | However many Stop calls: one shutdown message at most is consumed, and none returns before all tracked items have gone |
| Shutdown.NoStopIsLost | pool.go:148-155 | In every run each call of Stop made is at its select, waiting for the end, or has returned |
| Stopping.EverybodyCanLeaveExactly | pool.go:148-195 | From a reachable state some continuation ends the pool, lets every call of Stop return, leaves no call of Return blocked and closes the ready buffer, if and only if pool and spawner are not blocked on each other |
| Drain.DrainIsBounded | pool.go:296-344 | From any moment of a shutdown on, with disciplined clients, at most two more messages per tracked item and one for each container that has gone but is still queued, held or being returned are received, and no more items than on offer, pending or requested |
| Drain.MeasureStep | pool.go:331-344 | Each received message uses up a measure that no step of anybody renews |
| Drain.IncomingStep | spawner.go:107-128 | Each item received while draining uses up what the spawner can still deliver |
| Drain.ChildComesHome | item.go:207-225 | While an item drains, every child can take its next step, and outstanding work shrinks |
| Drain.DrainFinishes | item.go:207-225 | From every draining item its children's own steps, at most two each, lead to a wait group at zero and the end |
| Drain.NoNewChild | item.go:207-225 | Nothing that reaches an exited item brings it a new child |
| Drain.SendersReleased | item.go:116-121 | In every run a goroutine still sending to an exited item can leave through `exited`; a finished item has no children |
| Limits.SizeIsALimitExactly | pool.go:346-350 | The pool never tracks more than its size, in all runs, if and only if the size is at most one |
| Limits.Overshoot | pool.go:346-350 | For every size from two on, a run that ends with size plus one items |
| Stopping.CanBeStoppedExactly | pool.go:209-344 | From a reachable state some continuation closes `donech` if and only if the pool is not requesting on a full queue while the spawner is sending an item |
| Stopping.DrainCanFinish | pool.go:296-344 | From every state of a shutdown, whatever clients do, some continuation closes `donech`: draining is never blocked |
| Stopping.ThroughSpawner | spawner.go:77-128 | From any state of the first drain loop the spawner's remaining requests, creations and items can be run down until `nextch` closes |
| Limits.BlockedForever | spawner.go:102-103 | Once blocked like that, nothing anybody does ends it, and no Stop is heard |
| Limits.FreeOfMutualBlockExactly | spawner.go:48-102 | No run ever blocks like that if and only if the size is at most one |
| Stranded.NothingStrandedExactly | item.go:180-201 | With disciplined clients, and also with any: no tracked container is ever left of no use to anybody and not told to stop, if and only if the pool has no reset action or no items |
| Stranded.FailureStrands | item.go:261-276 | For every pool with items and a reset action, a disciplined run in which one failed reset does that |
| Stranded.FailedResetStrands | item.go:180-201 | With disciplined clients, after a failed reset is reported the container is never again ready, queued, held or returned, and the pool goes on tracking it until its exit |
| Strays.ExclusiveForAnyClientsExactly | pool.go:281-285 | No run, whatever clients return, lets two of them hold one container, if and only if the pool has no reset action or no items |
| Strays.DoubleReturnBreaksExclusiveUse | pool.go:281-285 | For every pool with items and a reset action, a run in which one double return leads to two clients holding one container |
| ItemLoop.PItem.Run | item.go:123-128 | The three phases in order follow the item machine for any script, and what the pool is told is Ready any number of times, then at most one Exit |
| ItemLoop.PItem.RunWaitJoin | item.go:130-149 | Until joined only a kill has an effect, and nothing is told |
| ItemLoop.PItem.RunMainLoop | item.go:151-205 | Follows the machine until the exit has been told; the exit is the last thing told |
| ItemLoop.PItem.DrainEvents | item.go:207-225 | Discards events, tells nothing, and ends only with no child left |
| PoolLoop.Pool.Run | pool.go:209-229 | The three loops in order reach the state and make exactly the calls of the message-by-message machine, for any script |
| PoolLoop.Pool.RunRunning | pool.go:249-294 | The running loop, up to the shutdown: same state, same calls |
| PoolLoop.Pool.RunDrainSpawner | pool.go:296-312 | Drains until `nextch` is closed: same state, same calls |
| PoolLoop.Pool.RunDrainItems | pool.go:314-329 | Drains until nothing is tracked: same state, same calls |
| PoolLoop.Pool.KillItems | pool.go:352-356 | Kills each tracked item exactly once |
| PoolLoop.Pool.PrimeBacklog | pool.go:346-350 | Tracked items and what is requested, if anything, make up the size; with the size reached nothing is requested |
| PoolSteps.StepMakesArmCalls | pool.go:249-344 | In the whole system each message the pool receives changes its books as its loops do, sends each item the kills and resets its loops call for, closes the channels they close, and blocks on the join, put or request they make |
| PoolSteps.StepMakesTopCalls | pool.go:299-322 | So does the head of a drain loop |
| PoolSteps.StepEndsSend | pool.go:263-290 | The join with its start, the put and the request are carried out as called, and the pool is back at its select |
| PoolLoop.DrainAsksEveryItem | pool.go:299-343 | After every message of a drain each item still tracked has just been asked to stop |
| PoolLoop.RunningCalls | pool.go:249-294 | A running pool kills nothing, puts and resets only what it tracks, and requests exactly what it lacks |
| Containers.PContainer.Start | container.go:88-92 | However often it is called, one start goroutine is launched |
| Containers.PContainer.Stop | container.go:94-98 | However often it is called, one stop goroutine is launched |
| Containers.DoMonitor | container.go:150-192 | One exit event for each time the container is reported gone, in order, a success exactly when no readable exit code came before it or the last one is zero in 32 bits; reads on after an error, not after the end |
| Runner.Run | lifecycle/runner.go:45-89 | The loop gives the outcome, the attempts made and the finishing time of its specification |
| Runner.DoAttempt | lifecycle/runner.go:91-113 | One attempt ends with the action's result, its timeout or the parent's end, whichever is first, within the timeout; a result is nil only if the action's was, and that counts only in time; at the same instant either may win, and the parent's end may go unnoticed |
| Runner.RetryOutcome | lifecycle/runner.go:45-89 | At most max(Retries,0)+1 attempts; nil exactly when the last gave nil and all before failed; retry-exceeded exactly when all were made and failed; a context error only after a cancellation |
| Runner.UndisturbedOutcome | lifecycle/runner.go:45-113 | If nobody cancels: nil exactly when some allowed attempt of the action succeeds before its timeout, retry-exceeded exactly when none does; the run ends with the first that does or the last allowed, and when is said |
| Runner.CancellationExactly | lifecycle/runner.go:56-113 | A cancellation after the run would have ended changes nothing; one before ends it at that instant with a context error, whether an attempt or a delay is under way |
| Runner.AttemptSchedule | lifecycle/runner.go:54-88 | Attempts are numbered 1, 2, 3, ..., each beginning one delay after the one before it ended, and none after a cancellation |
| Runner.RunTimeBound | lifecycle/runner.go:45-113 | A run takes at most (Retries+1) timeouts and Retries delays |
| Runner.RunTimeExact | lifecycle/runner.go:45-113 | A limit holds for every run of an action if and only if it is at least that sum |
| Managers.Manager.MaxDelay | lifecycle/manager.go:102-112 | The largest delay of the configured actions, or zero if none is larger, in 64-bit arithmetic |
| Managers.Manager.Actions | lifecycle/manager.go:114-126 | Exactly the configured actions |
| Managers.Manager.DefaultCheckoutTimeout | pool.go:197-199 | Half a second more than MaxDelay, in 64-bit arithmetic |
| Managers.Manager.Do | lifecycle/manager.go:132-163 | Asking for an action of the three kinds runs the manager's own action of that kind, or reports that there is none |
| Managers.ActionTimeBound | lifecycle/manager.go:102-112 | With settings that are not negative and whose delay and half a second fit 64 bits, every run of every configured action ends within MaxDelay, strictly before a default checkout times out |
| Managers.MaxDelayExact | lifecycle/manager.go:102-112 | For any settings: MaxDelay bounds all runs of all configured actions if and only if for each of them some configured action has settings whose delay, wrapped to 64 bits, covers its worst case |
| Managers.DelayIsTrueDelayWrapped | lifecycle/manager.go:106-106 | The three wrapping operations together wrap the true value once |
| Managers.DelayCoversExactly | lifecycle/manager.go:104-110 | For any settings, of any sign, overflowing or not: the delay of an action bounds all its runs if and only if a condition on its three settings holds |
| Managers.CoveredUnlessOverflow | lifecycle/manager.go:104-110 | With no setting negative that condition is that (Delay+Timeout)*(Retries+1) fits 64 bits |
| Managers.NegativeDelayFallsShort | lifecycle/manager.go:106-106 | A setting with a negative delay that is not covered |
| Managers.NegativeRetriesFallShort | lifecycle/manager.go:106-106 | A setting with a retry count of -1 that is not covered |
| Managers.NegativeTimeoutFallsShort | lifecycle/manager.go:106-106 | A setting with a negative timeout that is not covered, because the delays between the attempts remain |
| Managers.OverflowFallsShort | lifecycle/manager.go:106-106 | A setting, nothing negative, whose product overflows and is not covered |
| PoolSets.PoolSet.CheckoutWith | poolset.go:65-110 | One goroutine per selected pool, one answer from each, received in any order; then all or nothing: an item of exactly each named pool the set has (of every pool if none is named) if each gives one, otherwise an error one of them gave, and each item obtained, and nothing else, handed back once to its own pool |
| PoolSets.PoolSet.PoolsForCheckout | poolset.go:184-198 | All pools if none is named, otherwise exactly the named ones that exist |
| PoolSets.PoolSet.ReturnAll | poolset.go:116-126 | Each entry goes back once, to the pool of its name |
| PoolSets.PoolSet.Return | poolset.go:128-132 | The only handback there can be is of this item to the set's pool of that name |
| PoolSets.PoolSet.WaitReady | poolset.go:134-165 | Each pool of the set answers once, in any order; no error exactly when every one is ready, otherwise the first to arrive |
| PoolSets.ArrivalOrderIrrelevant | poolset.go:89-109 | Two orders of the same answers give the same success, the same set and the same items handed back |
| PoolSets.ItemsConserved | poolset.go:103-109 | Every item obtained is handed out, or handed back exactly once, never both |

## Left out

- The initialization-error path (`pool.go:214-216`): `run` calls `Stop` on itself there and waits for a receiver that never comes; only successful initialization is modelled.
- Docker, the adapter, image pulls, log dumping, the UI and every `Emit` call: container ids are fresh numbers, creation succeeds or fails, containers start, fail to start or exit at any time.
- Configuration, templates, HTTP and the builtin actions: an action is an outcome with a duration, and a pool has a size and three flags.
- Fairness and scheduling: results hold for every interleaving; none says that a step which can happen does happen.
  Draining is bounded and can always be continued to its end, but a schedule may put that off; the end also needs
  each container to die, which it has been told to.
- Some steps are merged: on shutdown the pool closes both channels and starts its kills at once; taking an item's exit also closes `exited`; entering the map and starting the item are part of the receive and of the join.
- The class loops get their messages as a script; in `System` the other goroutines choose them.
- The wait group is the number of children; the items map is the set of its keys; the `events` channel of an item is counted senders, since messages of a kind are alike.
- The monitor goroutine that keeps sending after its item is gone, and items received while draining, which are killed but never joined: both leak in the original and are outside the guarantees.
- A checked-out container may already have died: its exit takes it off the pool's items, not out of the buffer.
- CheckoutWith: its own context and the failure of `makeParams` are choices of the environment; in the second case the item goes back, as in the code.
- NewPoolSet and Stop of a pool set only fan out.
- ParseConfig and parseAction read JSON and are not part of this model.
- Managers.ActionTimeBound: `MaxDelay` covers one action at a time, while a first checkout may wait for a container's creation, healthcheck and initialize in sequence; the code does not promise that the default timeout covers this.
- Runner.Run: time is exact and in whole nanoseconds; timers never fire late, and the caller's work between attempts takes none.
- Drain.DrainIsBounded: for clients that are not disciplined there is no bound, since each stray return is one more message.
