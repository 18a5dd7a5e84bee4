# Verified model of agenkit's stateful middleware

This project models, in Dafny, the stateful and concurrent parts of the agenkit Go library, and proves what
they guarantee: for every interleaving of callers, every answer of the wrapped agents and every clock that does
not run backwards.

| module | models |
|---|---|
| `TokenBucket`, `PerUserLimiter` | the rate limiters, which give up their lock while a caller sleeps and try again with an epsilon |
| `CircuitBreaker` | the three-state breaker, whose completions may arrive long after the circuit has changed |
| `Batching` | the producers, the bounded queue, the batch processor, shutdown and drain |
| `Caching` | the map-and-list cache with expiry, and the decorator that uses it |
| `LoadBalancer` | round robin, weighted round robin, and the failover loop |
| `Planning` | the dependency-driven plan executor with replanning |
| `CheckpointStore`, `CheckpointManager`, `Durable` | the indexed checkpoint store, parent links, replay, pruning, and the agent that rolls back |
| `Budget` | the cost log, its reports, and the limiter with requests in flight |
| `RankSum` | the Mann-Whitney statistic |
| `ReAct` | the printer and the parser of reasoning steps |
| `GridSearch` | the Cartesian product over a shared map, and the grid search |
| `Common`, `Sorting` | `Option`, `Result`, and a sort by key |

`dafny verify dfyconfig.toml` checks everything.

## How the source is modelled

- A section under a mutex, or one channel operation, is one atomic step. Where callers interleave, a state machine
  over those steps carries the theorems, and a class with the source's fields has one method per step whose contract
  says that it performs exactly that step.
- Code that updates fields or slices in place is a class or an array; loops of the source are loops.
- Wrapped agents, executors, evaluators and replay functions are parameters, either an arbitrary outcome per call or
  an arbitrary function that may depend on the number of the call. Clocks and fresh identifiers are parameters too.
- Floating-point numbers are `real`, and durations are seconds. `sort.Slice` is some permutation in which the keys
  do not decrease. Iteration over a map goes in an arbitrary order.

## Properties that turned out to need a condition

- A caller that slept alone is said to be always served on its second attempt (middleware/rate_limiter.go:230-234).
  That is so exactly for rates up to 10 tokens per second (`TokenBucket.LoneWaitersServedIff`): the sleep is cut to
  whole milliseconds, and the epsilon of 0.01 covers the loss only up to that rate.
- The failover loop ends for all answers of the backends exactly when failover is off, or all backends are healthy on
  entry and have different names, or every healthy backend is one failure away from its threshold and the healthy ones
  have different names (`LoadBalancer.EndsIff`). In all other cases it can go round for ever; two healthy replicas of
  one name are enough (`LoadBalancer.TwinsDiverge`).
- The plan executor ends for all behaviours of executor and replanning exactly when no step that can become ready
  shares its number with an earlier step (`Planning.EndsIff`); plans whose step numbers all differ are of that kind
  (`Planning.DifferentNumbersNoTrap`). Two pending steps of one number, the later one without dependencies, are enough
  for the opposite (`Planning.RepeatedNumberTraps`).
- Replay stops at the first checkpoint beyond the target step. For all targets at once that loses nothing exactly when
  the steps along the chain do not decrease (`CheckpointManager.AlwaysExactIff`). The manager lets a caller break that
  (`CheckpointManager.SmallerStepLater`); the durable agent does not (`Durable.DurableAgent.ReplayCovers`).
- A checkpoint loaded by hand keeps the invariant of the durable agent exactly when the agent has not saved the session
  yet or the checkpoint holds what the newest one holds (`Durable.DurableAgent.ResumeNow`). The bound on the answers
  that a failure takes back survives exactly when the checkpoint is not behind the last one saved
  (`Durable.LosesFewerIff`): the interval still counts from there.
- A budget bounds spending exactly when its action is not one of the two that only write a log line
  (`Budget.EnforcedIff`), and then only up to what the requests in flight may charge. For the tightest budget, and
  whatever the largest charge, runs come as near to that bound as one likes (`Budget.BoundIsTight`).
- A printed reasoning step is read back unchanged exactly when its thought, action and input have one line each, no
  later line of the observation starts with the words of a final answer, and what is said last about each field, on a
  later line of the observation or else where the field is printed, is the field itself (`ReAct.RecoveredIff`). With an
  observation of at most one line that means: no surrounding space, and no input behind an empty action
  (`ReAct.RecoveredOneLineIff`). A printed step is read as final exactly when a later line of one of its printed fields
  claims a final answer (`ReAct.ReadAsFinalIff`).
- The samples determine U, whatever the sort does with equal values, exactly when they have no value in common
  (`RankSum.DeterminedIff`).
- A finished grid search finds the best value of its metric exactly when there are test cases, the metric is one of the
  two that are reported and, for smallest latency, the agent stays below an average of 1e9 milliseconds on
  the prompt of some combination (`GridSearch.FindsBestMetricIff`). Without a reported metric all objectives are zero and the first combination is
  returned (`GridSearch.UnreportedFirst`).

## Model

| member | source | states |
|---|---|---|
| `TokenBucket.Normalize` | middleware/rate_limiter.go:98-123 | every configuration becomes valid (positive rate, 1 <= tokens per request <= capacity), valid ones are left alone, and each unusable field gets its own default |
| `TokenBucket.Limiter.constructor` | middleware/rate_limiter.go:98-123 | a limiter starts with a full bucket under the normalised configuration |
| `TokenBucket.Limiter.RefillTokens` | middleware/rate_limiter.go:146-159 | the refill, with the published gauge equal to the tokens |
| `TokenBucket.Limiter.TryAcquire` | middleware/rate_limiter.go:162-208 | the first locked section is exactly the `Begin` step: grant, refuse or sleep |
| `TokenBucket.Limiter.AcquireAfterWait` | middleware/rate_limiter.go:210-235 | the locked section after the sleep is exactly the `Wake` step, with its epsilon |
| `TokenBucket.RateBound` | middleware/rate_limiter.go:146-235 | in every run of any number of interleaved callers, tokens stay in [-0.01, capacity], and any interval grants at most capacity + rate * length + 0.01 |
| `TokenBucket.RunKeeps` | middleware/rate_limiter.go:146-235 | the inductive form: what was granted since any moment is paid for by capacity and refill |
| `TokenBucket.StepLawful` | middleware/rate_limiter.go:162-235 | in any state: granted exactly if the tokens are there; a caller that may wait is refused at once only if there is a limit and the tokens would take longer to come in; otherwise it sleeps to the millisecond, never beyond the limit; only a grant takes tokens, exactly as many as it grants |
| `TokenBucket.RunConserves` | middleware/rate_limiter.go:146-235 | in every run: tokens left plus tokens granted grow by rate * time, less what the capacity cuts off, and by nothing else |
| `TokenBucket.LoneWaiterServed` | middleware/rate_limiter.go:187-235 | at rates up to 10, a waiter during whose sleep nothing is granted is served when it wakes |
| `TokenBucket.LoneWaiterRefused` | middleware/rate_limiter.go:187-235 | at every rate above 10 there is a run in which a lone waiter is refused |
| `TokenBucket.LoneWaitersServedIff` | middleware/rate_limiter.go:187-235 | lone waiters are always served if and only if the rate is at most 10 |
| `PerUserLimiter.Limiter.constructor` | middleware/rate_limiter.go:405-439 | no buckets at first, same normalisation as the global limiter |
| `PerUserLimiter.Limiter.GetUserBucket` | middleware/rate_limiter.go:462-481 | finds the user's bucket or creates a full one, and keeps the number of active users right |
| `PerUserLimiter.Limiter.TryAcquire` | middleware/rate_limiter.go:484-538 | the first section acts on the user's bucket alone, as the single-bucket limiter does |
| `PerUserLimiter.Limiter.AcquireAfterWait` | middleware/rate_limiter.go:540-565 | likewise for the section after the sleep |
| `PerUserLimiter.NonInterference` | middleware/rate_limiter.go:462-565 | projected onto one user, any run gives the answers, the log and the state of a limiter of that user's own |
| `PerUserLimiter.UsersAreIndependent` | middleware/rate_limiter.go:462-565 | the same from a fresh limiter, for every user |
| `PerUserLimiter.UserRateBound` | middleware/rate_limiter.go:462-565 | the rate bound holds for every user, whatever the others do |
| `CircuitBreaker.Normalize` | middleware/circuit_breaker.go:128-149 | every configuration becomes valid, its timeout included, and a usable field stays as it is whatever the others are |
| `CircuitBreaker.Decorator.ChangeCircuit` | middleware/circuit_breaker.go:179-193 | records one transition, and none when the state does not change |
| `CircuitBreaker.Decorator.BeginRequest` | middleware/circuit_breaker.go:249-276 | the first locked section: admitted exactly if the circuit is not open afterwards; rejected, and counted so, exactly while it is open and the recovery timeout since the last failure runs |
| `CircuitBreaker.Decorator.ReportSuccess` | middleware/circuit_breaker.go:205-223 | a success in each of the three states, stale ones included |
| `CircuitBreaker.Decorator.ReportFailure` | middleware/circuit_breaker.go:226-246 | a failure in each of the three states, stale ones included |
| `CircuitBreaker.Reachable` | middleware/circuit_breaker.go:179-300 | in every run: closed means fewer consecutive failures than the threshold; no successes are counted outside half-open; total = successes + failures + rejections + in flight; transition counts form a walk |
| `CircuitBreaker.StepLawful` | middleware/circuit_breaker.go:205-300 | each step changes the circuit exactly when the completion history calls for it |
| `CircuitBreaker.Transitions` | middleware/circuit_breaker.go:205-300 | in any run: opens from closed exactly after FailureThreshold failures in a row, closes exactly when the completions since half-open number SuccessThreshold and all succeeded, reopens exactly on a failure, leaves open exactly for an arrival RecoveryTimeout after the latest failure |
| `CircuitBreaker.Passage` | middleware/circuit_breaker.go:249-300 | in any run: an arrival is rejected if and only if the circuit is open and less than RecoveryTimeout has passed since the latest failure, every other one reaches the agent, and each way of a request is counted once |
| `CircuitBreaker.StreakMeans` | middleware/circuit_breaker.go:205-246 | a streak of at least n means that the last n completions all had that outcome, and conversely |
| `Batching.CallAgents` | middleware/batching.go:285-300 | in whatever order the goroutines finish, each slot holds the reply to its own request |
| `Batching.Decorator.Enqueue` | middleware/batching.go:194-210 | an accepted request goes to the end of the queue |
| `Batching.Decorator.LookAtTop` | middleware/batching.go:222-238 | the processor drains if and only if the shutdown is visible, and collects otherwise |
| `Batching.Decorator.ReceiveRequest` | middleware/batching.go:241-267 | the oldest request moves from the queue to the batch |
| `Batching.Decorator.StopWaiting` | middleware/batching.go:246-251 | a shutdown seen before the first request gives no batch |
| `Batching.Decorator.CallAll` | middleware/batching.go:270-300 | all results of the batch are the agent's replies, slot by slot |
| `Batching.Decorator.Dispatch` | middleware/batching.go:253-300 | a full batch, or one cut short by deadline or shutdown, is closed and answered: exactly the step of that kind |
| `Batching.Decorator.SendReply` | middleware/batching.go:302-314 | the next caller is sent its own result, which is counted as success or failure |
| `Batching.Decorator.FinishBatch` | middleware/batching.go:316-318 | the batch is recorded once, after all replies |
| `Batching.Decorator.FoundEmpty` | middleware/batching.go:321-343 | the drain ends with what it has collected when the queue is empty |
| `Batching.Decorator.Shutdown` | middleware/batching.go:346-350 | closing the shutdown channel only sets the flag |
| `Batching.Reachable` | middleware/batching.go:194-343 | in every run: the queue keeps its bound; accepted = answered ++ rest of batch ++ queue in order; batches hold 1 to MaxBatchSize requests; no drain or stop without a shutdown; each answered caller has exactly one reply, its own; the metrics are the statistics of the finished batches |
| `Batching.AccountedKept` | middleware/batching.go:59-85 | every step keeps TotalRequests = sum of batch sizes, successful + failed + partial = batches, and least and greatest size |
| `Batching.RepliedKept` | middleware/batching.go:302-314 | no step gives a caller a second reply or somebody else's |
| `Batching.Drained` | middleware/batching.go:321-350 | when the processor has stopped, exactly the requests accepted before the last empty read are answered, in order and once each; later ones never are |
| `Batching.WorkShrinks` | middleware/batching.go:222-343 | after the shutdown every step of the processor leaves less to do |
| `Batching.NeverBlocked` | middleware/batching.go:222-343 | after the shutdown the processor always has a step until it has stopped |
| `Batching.ShutdownEnds` | middleware/batching.go:222-350 | a run after the shutdown is no longer than the work left plus nine steps for every send that still wins, and one that the processor cannot continue has stopped |
| `Batching.EveryRequestAnswered` | middleware/batching.go:194-343 | in any run, shut down or not: a request accepted before the last empty read of a drain is answered, once and with its own reply, after at most MaxBatchSize + 6 processor steps for itself and each request in front of it, and until then the processor has a step to take |
| `Batching.AllowanceIsProduct` | middleware/batching.go:222-343 | the allowance of n requests is n * (MaxBatchSize + 6) steps |
| `Batching.DelayShrinks` | middleware/batching.go:222-343 | every processor step answers the next request or brings it nearer, and no step of others puts it off |
| `Caching.MemoryCacheStore.Get` | middleware/caching.go:52-65 | the lookup in the association list: a miss when absent or expired |
| `Caching.MemoryCacheStore.Set` | middleware/caching.go:68-105 | the new entry goes to the front; its old one, now and then the expired ones, and at capacity the least recently written one leave, counted as an eviction |
| `Caching.MemoryCacheStore.CleanupExpired` | middleware/caching.go:133-146 | exactly the unexpired entries stay, in order, whatever order the map yields |
| `Caching.MemoryCacheStore.EvictOldest` | middleware/caching.go:83-95 | at capacity the last entry leaves and the evictions go up by as much |
| `Caching.MemoryCacheStore.Delete` | middleware/caching.go:108-115 | removes that key and nothing else, from map and list |
| `Caching.MemoryCacheStore.Flush` | middleware/caching.go:118-123 | leaves nothing |
| `Caching.MemoryCacheStore.Size` | middleware/caching.go:126-130 | the size of the map is the length of the list |
| `Caching.HoldsLatestWrites` | middleware/caching.go:52-146 | after any operations: distinct keys, never more than maxSize entries, and each is the latest write of its key |
| `Caching.HitIsLatestWrite` | middleware/caching.go:52-146 | a hit is the response last set under the key: unexpired, neither deleted nor flushed since |
| `Caching.LatestWriteIsHit` | middleware/caching.go:52-146 | conversely, an untouched write is a hit until it expires, while fewer than maxSize other keys are written after it, however often |
| `Caching.CleanUpDropsExpired` | middleware/caching.go:78-82 | every hundredth write leaves nothing behind that has expired |
| `Caching.WriteKeepsOthers` | middleware/caching.go:68-105 | any other write keeps every entry of another key, expired or not, but for the last one of a full cache |
| `Caching.FindMeans` | middleware/caching.go:52-65 | with distinct keys the lookup finds the one entry of the key, if there is one |
| `Caching.CachingDecorator.constructor` | middleware/caching.go:343-372 | defaults for capacity and time to live, and an empty store |
| `Caching.CachingDecorator.Begin` | middleware/caching.go:416-423 | a hit returns the agent's response last stored under that message's key, and requests = hits + misses |
| `Caching.CachingDecorator.Finish` | middleware/caching.go:425-434 | an answer is stored under the key, a failed call stores nothing |
| `Caching.CachingDecorator.Invalidate` | middleware/caching.go:440-453 | forgets one key or everything, counting what it forgets |
| `LoadBalancer.Balancer.SelectRoundRobin` | infrastructure/load_balancer.go:278-292 | the first healthy backend after the current index, going around; the fallback only when none is healthy |
| `LoadBalancer.Balancer.SelectWeighted` | infrastructure/load_balancer.go:308-326 | the next position of the weighted list, and the first candidate when all weights are zero or less |
| `LoadBalancer.PickIsFirstAfter` | infrastructure/load_balancer.go:252-292 | the rotation by rank is the search for the first healthy backend |
| `LoadBalancer.RoundRobinFair` | infrastructure/load_balancer.go:278-292 | as many selections in a row as there are healthy backends pick each exactly once, from any index |
| `LoadBalancer.WeightedLength` | infrastructure/load_balancer.go:308-326 | the weighted list is as long as the positive weights add up to |
| `LoadBalancer.WeightedAt` | infrastructure/load_balancer.go:308-326 | the copies of a backend stand together, after those of the backends in front of it |
| `LoadBalancer.WeightedFair` | infrastructure/load_balancer.go:308-326 | as many selections in a row as the positive weights add up to pick each backend Weight times, from any index |
| `LoadBalancer.RotationFails` | infrastructure/load_balancer.go:329-391 | all healthy on entry: k failures in a row have called the next k different backends, and the n-th failure ends the request |
| `LoadBalancer.RotationEnds` | infrastructure/load_balancer.go:329-391 | it is served by the first backend that answers and fails only when all n fail |
| `LoadBalancer.SafeEnds` | infrastructure/load_balancer.go:338-391 | under the condition the loop ends for all answers, whatever the names |
| `LoadBalancer.TwinsDiverge` | infrastructure/load_balancer.go:343-348 | two healthy backends of one name keep a failing request going for ever |
| `LoadBalancer.UnsafeDiverges` | infrastructure/load_balancer.go:338-391 | without the condition, backends that all fail keep the loop going for ever |
| `LoadBalancer.EndsIff` | infrastructure/load_balancer.go:338-391 | the loop always ends if and only if the condition holds |
| `LoadBalancer.RequestMeans` | infrastructure/load_balancer.go:329-391 | from any state, with or without failover, after any number of turns: served only by the answer of the last call, failed only by a failed last call with no failover left or with nobody healthy; no two calls of one name; counts and health change by the failed calls alone; "all attempted" is never reported |
| `LoadBalancer.Balancer.Attempt` | infrastructure/load_balancer.go:350-391 | one call and its consequences: counters, threshold, failover or verdict |
| `LoadBalancer.Balancer.TakeTurn` | infrastructure/load_balancer.go:336-391 | one turn of the loop in any state, reselected backends included, is one turn of the state machine |
| `LoadBalancer.Balancer.ProcessFor` | infrastructure/load_balancer.go:329-391 | any number of turns from any state follow the state machine; active connections end as they began |
| `LoadBalancer.Balancer.Process` | infrastructure/load_balancer.go:329-391 | where the loop ends: the verdict is that of the last call, failure counts and health change by the failed calls alone, active connections end as they began, and request counters go up by the calls made |
| `Planning.CanExecuteStep` | patterns/planning.go:95-109 | true exactly when all dependencies are among the completed steps |
| `Planning.GetNextSteps` | patterns/planning.go:137-155 | the list of ready steps in plan order |
| `Planning.ReadyStepsMean` | patterns/planning.go:137-155 | that list holds exactly the pending steps with all dependencies completed, in order of position |
| `Planning.IsPlanComplete` | patterns/planning.go:158-165 | true exactly when every step is completed or skipped |
| `Planning.HasPlanFailures` | patterns/planning.go:168-175 | true exactly when some step failed |
| `Planning.ExecuteStep` | patterns/planning.go:436-458 | records the outcome at the first step with that number, for any plan, and changes nothing else |
| `Planning.ExecuteRound` | patterns/planning.go:433-459 | calls the executor for each listed step in order, for any plan |
| `Planning.RoundKeeps` | patterns/planning.go:433-459 | each listed step is still ready when its turn comes, and every call takes one step out of pending |
| `Planning.Replan` | patterns/planning.go:473-510 | nothing to do without failures; otherwise failed steps become skipped if the call succeeds, and nothing changes if it fails |
| `Planning.TakeTurn` | patterns/planning.go:417-459 | one turn of the loop on any plan: a round, or replanning, or the end |
| `Planning.TurnKeeps` | patterns/planning.go:417-459 | each turn makes the pair (pending, failed) smaller, or stops with nothing ready |
| `Planning.ReplannedOn` | patterns/planning.go:421-431 | each turn: a replanning call is made only if allowed, with a failed step and nothing ready; its answer skips the failed steps, its error ends the loop, and nothing else skips a step |
| `Planning.ExecutePlan` | patterns/planning.go:413-471 | for any dependencies, starting statuses, executor and replanning: it ends, each pending step runs at most once and only after its dependencies, the completed steps are the least fixpoint; replanning is reported as failed if and only if the last replanning call failed, all earlier ones succeeded, and otherwise no step stays failed where replanning is allowed; without it every failed step stays failed |
| `Planning.ExecuteFor` | patterns/planning.go:413-471 | any number of turns of the loop on any plan follow the state machine |
| `Planning.EndsIff` | patterns/planning.go:413-471 | the loop ends for all behaviours if and only if no step that can become ready shares its number with an earlier one |
| `Planning.TrappedForever` | patterns/planning.go:436-458 | otherwise an executor that always succeeds is called for ever |
| `Planning.RepeatedNumberTraps` | patterns/planning.go:436-458 | a pending step that can run at once and has the number of an earlier one puts any plan outside that condition |
| `Planning.DifferentNumbersNoTrap` | patterns/planning.go:359-411 | different step numbers are enough |
| `Planning.CompletedIsLeast` | patterns/planning.go:137-155 | when nothing is ready, the completed steps are the least fixpoint of "dependencies completed and the executor succeeded" |
| `Planning.BelowEveryFixpoint` | patterns/planning.go:413-459 | whatever ran successfully lies in every closed set |
| `Planning.LayeredPlanCompletes` | patterns/planning.go:413-471 | a plan whose steps depend on earlier ones only is completed entirely if nothing fails |
| `Planning.DeadlockedStepsNeverComplete` | patterns/planning.go:413-471 | steps on a cycle, or waiting for a step that does not exist, never complete |
| `CheckpointStore.MemoryStorage.Save` | checkpointing/storage.go:54-82 | stores the checkpoint, sorts its session's index again for a new id, and keeps the store consistent |
| `CheckpointStore.SavedFresh` | checkpointing/storage.go:54-82 | a fresh id leaves every index duplicate-free, newest first and complete; the newest checkpoint becomes the latest |
| `CheckpointStore.MemoryStorage.LoadCheckpoint` | checkpointing/storage.go:85-94 | the stored checkpoint, if there is one |
| `CheckpointStore.MemoryStorage.ListCheckpoints` | checkpointing/storage.go:97-118 | the newest checkpoints of the session up to the limit, newest first |
| `CheckpointStore.ListingIs` | checkpointing/storage.go:97-118 | as many checkpoints as the limit and the session's stored ones allow, each once, newest first, and none left out is newer than one listed |
| `CheckpointStore.MemoryStorage.GetLatest` | checkpointing/storage.go:121-133 | a checkpoint of the session that none of the session is newer than, or nothing when it has none |
| `CheckpointStore.LatestIsNewest` | checkpointing/storage.go:97-133 | the head of a consistent index is the newest checkpoint of its session |
| `CheckpointStore.MemoryStorage.Delete` | checkpointing/storage.go:136-160 | removes that checkpoint from map and index and nothing else |
| `CheckpointStore.DeletedConsistent` | checkpointing/storage.go:136-160 | deleting keeps every index good and complete |
| `CheckpointStore.MemoryStorage.DeleteSession` | checkpointing/storage.go:163-181 | removes exactly the session's checkpoints and says how many there were |
| `CheckpointStore.MemoryStorage.GetCheckpointHistory` | checkpointing/storage.go:184-207 | the chain of parents up to the given depth, newest first |
| `CheckpointStore.HistoryIs` | checkpointing/storage.go:184-207 | each checkpoint is followed by its parent, and the chain ends only at a root, at a missing parent or at the depth |
| `CheckpointManager.Manager.CreateCheckpoint` | checkpointing/manager.go:127-183 | stores the checkpoint under the explicit parent or the last of the session, and keeps parents older and in the same session |
| `CheckpointManager.ChainExtended` | checkpointing/manager.go:127-183 | a checkpoint made without an explicit parent continues the chain of the last one made for its session, and disturbs no other chain |
| `CheckpointManager.Manager.ShouldCheckpoint` | checkpointing/manager.go:195-208 | true exactly when the interval is not zero and has passed since the last checkpoint of the session |
| `CheckpointManager.HistoryDescends` | checkpointing/storage.go:184-207 | a chain stays in its session and goes strictly back in creation order, so there are no cycles |
| `CheckpointManager.HistoryEnds` | checkpointing/storage.go:184-207 | beyond a depth that depends on the checkpoint, the chain does not grow |
| `CheckpointManager.ReverseInPlace` | checkpointing/manager.go:328-331 | the two-index swap reverses the slice |
| `CheckpointManager.Manager.ReplayFromCheckpoint` | checkpointing/manager.go:316-353 | replays the chain oldest first up to the first checkpoint beyond the target; all results in order, or the first error with its step |
| `CheckpointManager.EarlyBreakExactIff` | checkpointing/manager.go:335-339 | for one target the early stop loses nothing if and only if everything after a checkpoint beyond it is beyond it too |
| `CheckpointManager.AlwaysExactIff` | checkpointing/manager.go:335-339 | for all targets, if and only if the steps do not decrease |
| `CheckpointManager.ReplayIsExact` | checkpointing/manager.go:316-353 | with rising steps, exactly those of the 100 newest of the chain that are within the target are replayed |
| `CheckpointManager.SmallerStepLater` | checkpointing/manager.go:127-183 | two checkpoints with a smaller step after a larger one: a replay up to the smaller step gives nothing |
| `CheckpointManager.Manager.PruneOne` | checkpointing/manager.go:465-488 | one checkpoint is kept under the migration policy or deleted |
| `CheckpointManager.Manager.PruneOldCheckpoints` | checkpointing/manager.go:452-494 | leaves the newest keepLast and the migration checkpoints retained when they are looked at, returns the difference in size, and touches no other session |
| `CheckpointManager.KeptIsRetained` | checkpointing/manager.go:465-481 | of the older checkpoints exactly those stay that the policy retains |
| `CheckpointManager.PruneMeans` | checkpointing/manager.go:452-494 | a checkpoint survives if and only if it is one of the newest keepLast, or a migration checkpoint under a policy that retains those, for ever or while it is younger than the window when it is looked at |
| `CheckpointManager.Manager.DeleteSession` | checkpointing/manager.go:379-390 | removes the session's checkpoints and the manager's memory of it |
| `CheckpointManager.Manager.DeleteCheckpoint` | checkpointing/manager.go:365-367 | removes one checkpoint and keeps the parent links sound |
| `Durable.DurableAgent.constructor` | checkpointing/durable.go:63-87 | a new agent on any sound store, empty or left by an earlier one, satisfies the invariant |
| `Durable.DurableAgent.Resume` | checkpointing/durable.go:217-252 | step and messages of the session become those of the named or newest checkpoint; without one nothing changes |
| `Durable.DurableAgent.ResumeNow` | checkpointing/durable.go:217-252 | loading a checkpoint by hand keeps the invariant if and only if none was found, the session was not saved yet, or it holds what the newest one holds |
| `Durable.LosesFewerIff` | checkpointing/durable.go:133-158 | after loading a checkpoint, every later failure takes back fewer than N answers if and only if it is not behind the last one the manager made for the session |
| `Durable.DurableAgent.Checkpoint` | checkpointing/durable.go:178-200 | the session as it stands becomes the newest checkpoint, and no other is changed or lost |
| `Durable.DurableAgent.CheckpointNow` | checkpointing/durable.go:178-200 | a checkpoint by hand keeps the invariant |
| `Durable.DurableAgent.Open` | checkpointing/durable.go:105-119 | the first call resumes step and messages of the newest checkpoint if configured and there is one, then opens the session |
| `Durable.DurableAgent.Fail` | checkpointing/durable.go:121-143 | a failure brings back the newest checkpoint, or leaves the failed step and its message when there is none |
| `Durable.DurableAgent.Succeed` | checkpointing/durable.go:121-160 | a success adds request and response and saves the session when a checkpoint is due |
| `Durable.DurableAgent.Process` | checkpointing/durable.go:104-161 | the first call of a session with a checkpoint starts from it if configured, every other call from where the session stands; a success adds one step, the request and the response, and saves exactly when N steps have passed; a failure restores exactly the newest checkpoint's step and messages and takes back fewer than N answered exchanges; steps <= messages <= 2 * steps in every session and checkpoint; other sessions keep everything |
| `Durable.AnsweredOk` | checkpointing/durable.go:121-158 | a success leaves the session sound, or makes a checkpoint due |
| `Durable.SavingOk` | checkpointing/durable.go:178-200 | saving one session keeps the invariant of all sessions |
| `Durable.DurableAgent.ReplayCovers` | checkpointing/manager.go:316-353 | checkpoints of a durable agent replay exactly, for every target step |
| `Budget.Tracker.Query` | budget/tracker.go:90-119 | exactly the records that pass session, agent, start and end, in log order |
| `Budget.SelectMeans` | budget/tracker.go:90-119 | the positions of the selected records rise along the log and are all the positions whose record passes the four filters |
| `Budget.Tracker.GetSessionCost` | budget/tracker.go:260-271 | the money recorded for the session; for the empty name, for everything |
| `Budget.Tracker.GetAgentCost` | budget/tracker.go:285-296 | likewise for an agent |
| `Budget.Tracker.GetGlobalCost` | budget/tracker.go:309-320 | the whole log added up |
| `Budget.Tracker.GetBreakdown` | budget/tracker.go:338-350 | one entry per model that occurs in the selection, holding that model's share |
| `Budget.SelectedTotal` | budget/tracker.go:90-119 | a query with one filter adds up to what was spent in that scope |
| `Budget.SessionsAddUp` | budget/tracker.go:260-320 | in every state, the session totals sum to the global cost, in any order |
| `Budget.BreakdownAddsUp` | budget/tracker.go:338-350 | the values of the breakdown sum to the total of the records it was made from, in any order of its keys |
| `Budget.Limiter.HandleBudgetExceeded` | budget/limiter.go:215-228 | an error for the strict action, none for the two lenient ones, another error for an unknown one |
| `Budget.Limiter.CheckBudgets` | budget/limiter.go:166-213 | admits exactly under a lenient action or with room in all budgets; an error names the session's budget before the agent's before the global one |
| `Budget.Limiter.BeginRequest` | budget/limiter.go:132-149 | the first half of a request is a legal begin or refusal |
| `Budget.ReadsActAsOne` | budget/limiter.go:166-213 | three separately locked reads admit only what the first would have admitted and refuse only what the last would have refused |
| `Budget.Limiter.FinishRequest` | budget/limiter.go:151-163 | the second half records the charge once, or nothing when there is none |
| `Budget.OvershootBound` | budget/limiter.go:132-213 | under a strict action, in every reachable state, the spending of a session, an agent or everything stays below budget + k * c, with at most k requests of the scope in flight at c each |
| `Budget.EnforcedIff` | budget/limiter.go:166-228 | that bound holds in all runs if and only if the action is not lenient |
| `Budget.BoundIsTight` | budget/limiter.go:132-213 | for the tightest budget, every largest charge c > 0 and every gap, a run spends budget + k * c - gap |
| `Budget.EmptySessionReadsAll` | budget/tracker.go:90-102 | a request with an empty session name is refused once the whole log has reached the session budget |
| `RankSum.MannWhitney` | evaluation/ab_testing.go:496-531 | rank sum minus n1(n1+1)/2 is the number of pairs with the group-2 element first, over some sorted combination |
| `RankSum.RankSumIdentity` | evaluation/ab_testing.go:523-531 | the identity holds for every sequence, sorted or not |
| `RankSum.Complement` | evaluation/ab_testing.go:523-531 | U1 + U2 = n1 * n2 |
| `RankSum.UStatistic` | evaluation/ab_testing.go:496-531 | U lies between the pairs where sample 1 is larger and those where it is not smaller, within 0 and n1 * n2, and is exact without ties |
| `RankSum.TiesAreAmbiguous` | evaluation/ab_testing.go:518-531 | for any two samples with a common value, two sorted orders give different values of U |
| `RankSum.DeterminedIff` | evaluation/ab_testing.go:496-531 | the samples determine U if and only if they have no value in common |
| `ReAct.ParseResponse` | patterns/react.go:267-291 | the loop with its early exit computes the reading of the lines |
| `ReAct.FormatStep` | patterns/react.go:294-308 | the builder writes the printed form |
| `ReAct.RoundTrip` | patterns/react.go:267-308 | a step whose later lines start with no keyword is read back as the first lines of its fields without surrounding space, never as final |
| `ReAct.RecoveredIff` | patterns/react.go:267-308 | for every step, exactly when thought, action and input come back unchanged and not final |
| `ReAct.RecoveredOneLineIff` | patterns/react.go:267-308 | with at most one line of observation: if and only if the fields are trimmed, of one line, and no input hides behind an empty action |
| `ReAct.LastLinesDecide` | patterns/react.go:271-288 | without a final answer the last line of each keyword decides its field |
| `ReAct.FinalAnswerDecides` | patterns/react.go:280-287 | the first final answer ends the reading: its text is the observation, the lines above it decide the other fields, an empty thought gets its default, and nothing below matters |
| `ReAct.ParseMeans` | patterns/react.go:267-291 | what any response is read as, with or without a final answer |
| `ReAct.ReadsBack` | patterns/react.go:267-308 | for every step, the parser sees the printed fields line by line |
| `ReAct.ReadAsFinalIff` | patterns/react.go:281-288 | for every step, read as final if and only if a later line of a printed field claims a final answer |
| `ReAct.ParsedIsOneLine` | patterns/react.go:267-291 | the parser never puts a newline into a field |
| `ReAct.TrimIs` | patterns/react.go:272-275 | trimming removes blank ends and nothing else |
| `ReAct.SplitIs` | patterns/react.go:268-271 | splitting cuts at every newline and loses nothing |
| `GridSearch.CartesianProduct` | evaluation/prompt_optimizer.go:176-199 | the recursion over the shared map gives the product over the map as it was on entry, and changes it on its own keys only |
| `GridSearch.StaleValuesVanish` | evaluation/prompt_optimizer.go:191-196 | values left over in the shared map never show in a combination |
| `GridSearch.GenerateAllConfigs` | evaluation/prompt_optimizer.go:163-173 | the product over the variations in whatever order the map yields them: exactly the full assignments, without duplicates when no list has any |
| `GridSearch.CountIsProduct` | evaluation/prompt_optimizer.go:176-199 | as many combinations as the product of the list lengths |
| `GridSearch.PositionIs` | evaluation/prompt_optimizer.go:176-199 | the combinations with the a-th value of the first key stand together, in the order of those values, and so on for the keys after it |
| `GridSearch.GridIsComplete` | evaluation/prompt_optimizer.go:163-199 | for any key order, exactly the full assignments |
| `GridSearch.NoDuplicates` | evaluation/prompt_optimizer.go:176-199 | no combination twice when no list repeats a value |
| `GridSearch.EvaluatePrompt` | evaluation/prompt_optimizer.go:211-255 | accuracy and mean latency over all test cases, those without an input counted but not run; no scores without test cases |
| `GridSearch.ScoresMean` | evaluation/prompt_optimizer.go:211-255 | accuracy is the share of test cases that have an input and succeed, latency the sum of the times over the number of cases |
| `GridSearch.ReportedByAll` | evaluation/prompt_optimizer.go:211-255 | within one search all evaluations report a metric or none does |
| `GridSearch.Optimizer.OptimizeGrid` | evaluation/prompt_optimizer.go:273-341 | evaluates the grid in order, stops when cancelled, and otherwise returns the first evaluation with the largest objective above -1e9 |
| `GridSearch.BestOfAllAssignments` | evaluation/prompt_optimizer.go:273-341 | the result is an assignment that no assignment of the variations beats |
| `GridSearch.FindsBestMetricIff` | evaluation/prompt_optimizer.go:211-341 | a finished search names the largest or smallest value of its metric if and only if the metric is reported and, for smallest latency, the agent is fast enough on the prompt of some combination |
| `GridSearch.UnreportedFirst` | evaluation/prompt_optimizer.go:211-341 | otherwise all objectives are zero and the first combination is returned |

## Left out

- Time spent and other plain counters of the metrics (total wait times, request totals of the limiters, the balancer's metrics) are only written, never read by the logic.
- The agent call inside a circuit-breaker request has a timeout; a timeout and any other error are one failed completion here.
- Batching assumes MaxBatchSize >= 1 and a buffered queue; a queue of size zero, the receiving side of `Process` and its cancellation are not modelled.
- Batching.Decorator.Shutdown: only the closing of the shutdown channel; the wait for the processor and the closing of the queue follow once it has stopped.
- Caching.CachingDecorator.constructor: a store given by the caller, and the validation error, which the defaults rule out.
- Caching.CachingDecorator.Invalidate: reading the size and flushing are two locked sections and one step here, so a write in between is not counted.
- A batching send that lands after the drain has ended is accepted and never answered, as `Batching.Drained` says; the panic of a send on the closed queue is not modelled.
- LoadBalancer.Balancer.Process: requires the condition of `LoadBalancer.EndsIff`, because without it the loop may not end (`LoadBalancer.Balancer.ProcessFor` covers all states for any number of turns); one request at a time, under round robin.
- Least-connections and random selection, and the background health checks of the load balancer, which write without the lock.
- Planning.ExecutePlan: requires the condition of `Planning.EndsIff`, because without it the loop may not end (`Planning.ExecuteFor` covers all plans for any number of turns); results, descriptions and the text of the summary are not modelled.
- The `State` map of a durable session: the checkpoint shares the live map with the session, so later updates show in it; only step number and messages are modelled. `ResumeMigrated`, `SetState`, `ResetSession` and deletion through the agent are left out.
- Durable.DurableAgent.Resume: step number and messages only, as above.
- Durable.DurableAgent.ResumeNow: step number and messages only, as above.
- Durable.DurableAgent.Checkpoint: step number and messages only, as above.
- Durable.DurableAgent.CheckpointNow: step number and messages only, as above.
- Durable.DurableAgent.Fail: step number and messages only, as above.
- Durable.DurableAgent.Succeed: step number and messages only, as above.
- Durable.DurableAgent.Process: step number and messages only; assumes an interval of at least one, saves that succeed, fresh ids and strictly increasing timestamps per session.
- CheckpointManager.Manager.PruneOldCheckpoints: keepLast is not negative, since the source slices with it.
- File, NFS, S3 and Redis backends, JSON encoding, hashing and UUID generation: keys and ids are abstract, and freshness is an assumption.
- Pricing of tokens: the charge of a request is a parameter, absent when there is no usage data or no price. Budget warnings and rankings are left out.
- Budget.Limiter.CheckBudgets: its three separately locked reads are one step; `Budget.ReadsActAsOne` says why that is sound, with a request in flight from its first read on. Unknown actions are modelled although the constructor refuses them.
- Budget.Limiter.BeginRequest: admission is one step for the same reason.
- The p-value after the U statistic, other tests, bootstrap and random or genetic search: transcendental functions and randomness.
- The reasoning loop around the ReAct parser and printer.
- The filling of prompt templates and the answers of the agents under evaluation are arbitrary functions. The evaluation of a prompt never fails, so the error path of the search that follows it is left out.
- infrastructure/health.go, adapters, tracing, logging, audit and the remaining agent wrappers.
