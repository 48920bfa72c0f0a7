# Nanos++ runtime: verified models

Nanos++ is a task-dataflow runtime. This project models six of its parts and proves what they are for.

**Dependence graph** (`DependableObject`, `DependencyProtocol`, `DependencyInvariant`, `DependencyTheorems`,
`DependencyConfluence`, `DependencyLateEdges`, `DependencyRuntime`). Tasks, waits and commutation objects count their
predecessors. An edge is consumed by `finished()`, one by one or in a batch, early by `releaseReadDependencies()`, or
by `releaseImmediateSuccessor()` with or without `keepDeps`. The protocol is a state machine of atomic steps taken by
any number of threads; what a thread has still to do inside a call is kept with the object the call is about. The
class `Runtime` runs the same operations as loops and recursive calls over objects updated in place, and is shown to
take steps of that machine only.

**Event pipeline of an asynchronous thread** (`AsyncPipeline`, `AsyncInvariant`, `AsyncTheorems`, `AsyncScenarios`,
`AsyncDrain`, `AsyncThread`). A sequential but re-entrant thread, so the call stack is part of the state. The class
`AsyncThread` has the lists, counters and loops of the original; its ghost trace says which run of the machine the
calls amount to.

**Work-sharing descriptors** (`WorkSharingChain`). A lock-free list, one memory access per step.

**Region geometry** (`Arithmetic`, `RegionGeometry`, `RegionFit`, `RegionSlab`, `RegionDeduct`). Boxes in
n-dimensional arrays as sequences of dimensions, their offsets as sets, over unbounded integers.

**Instrumentation** (`InstrumentationContexts`, `ContextSwitch`, `StateTraces`). Open bursts as one stack per key, the
array that a context switch fills, and what the trace shows of states and bursts.

**Bit counter** (`BitCounter`). Values are sequences of bits of any power-of-two width.

## Properties that do not hold

- Re-entering `checkEvents()` inside an outermost `checkEvents( wd )`, which does not touch the recursion counter,
  erases events under the outer loop: in `ReadsPastEnd` that loop reads past the end of the deque. `ReadsRightIff`
  says exactly which runs are right, and `ReentranceIsSafe` gives a guard on the calls. Nothing in the repository
  calls `checkEvents( wd )`.
- The prefetch limit can be exceeded, by any amount, when idle loops nest (`LimitExceeded`, `BoundIsReached`) or when
  schedulers and slicers call `addNextWD` themselves (`OutsideExceedsLimit`). `WithinLimitIff` says exactly which runs
  keep it, `PrefetchBound` bounds every run, and `LimitOfOneIff` says exactly when the thread can be relied on to keep
  a limit of one.
- A dependence requested while its source is between the early decrement and the erasure of the same pair is lost:
  `LateRequestIsReachable`, with the exact condition in `RequestHonouredIff`.
- `getFitAddress` of a single element reads dimension -1: `SingleElementHasNoFitAddress`, with the exact condition in
  `RecursionMatchesFit`.
- A slab narrowed below the last dimension can miss its region or leave the object: `SlabMissesRegion` and
  `SlabOutsideObject`, with the exact conditions in `SlabHoldsFirst` and `SlabInside`.
- `deductCd` with one dimension on both sides drops the lower bound of the access: `DeductLosesBound`, with the exact
  condition in `DeductOneDimension`.
- With stacked states a context switch ends the states of the work descriptor it leaves from the bottom of their
  stack: `LeavingIsNotNested`, with the exact condition in `TraceShowsStack`.
- Without them, a work descriptor that pops its last state is shown in the error state, and leaving it does not end
  that: the exact condition is in `TraceShowsTopState`.

## Model

| member | source | states |
|---|---|---|
| `DependableObjects.DependableObject.IncreasePredecessors` | src/core/dependableobject.hpp:119-122 | returns the old count and adds one; nothing else changes |
| `DependableObjects.DependableObject.AddPredecessor` | src/core/dependableobject.hpp:181-191 | the list gains the predecessor unless it is the object itself; true exactly when it is new |
| `DependableObjects.DependableObject.AddSuccessor` | src/core/dependableobject.hpp:193-227 | both ends record the edge, self edges are refused; true exactly when the edge is new |
| `DependableObjects.DependableObject.DecreaseInLock` | src/core/dependableobject.hpp:144-164 | the unsigned decrement (wrapping at zero) and the upkeep of the predecessor list, emptied when the count reaches zero |
| `DependableObjects.DependableObject.Submitted` | src/core/dependableobject.hpp:291-303 | both submission flags become true |
| `DependableObjects.DependableObject.DisableSubmission` | src/core/dependableobject.hpp:315-324 | both submission flags become false |
| `DependencyInvariant.ReleaseKeepsInv` | src/core/dependableobject.cpp:28-127 | every atomic step of finished, decreasePredecessors and dependenciesSatisfied, by any thread, keeps the invariant of the graph |
| `DependencyInvariant.StepKeepsInv` | src/core/dependableobject.cpp:28-248 | every atomic step, submission, early read release and immediate-successor release included, keeps the invariant |
| `DependencyTheorems.ReachableInv` | src/core/dependableobject.cpp:28-248 | the invariant holds in every state of every interleaving |
| `DependencyTheorems.CountersExact` | src/core/dependableobject.hpp:119-227 | in every reachable state each count equals the unconsumed incoming edges plus the guard, each predecessor list is exactly their sources, and no enabled decrement starts from zero |
| `DependencyTheorems.ConsumedOnce` | src/core/dependableobject.cpp:57-180 | an edge consumed in any of the four ways stays consumed in every continuation, and no later release loop visits it again |
| `DependencyTheorems.HandedOutOnce` | src/core/dependableobject.cpp:73-125 | over every run nothing is handed out twice, the fatal batch check never fires, the second look of releaseImmediateSuccessor always confirms the first, and the total passed to decreaseTasksInGraph is the number of hand-outs |
| `DependencyTheorems.HandedOutReady` | src/core/dependableobjectwd.cpp:32-48 | in every reachable state a task handed out with submission enabled has no predecessor left, and one handed out early has submission disabled |
| `DependencyTheorems.HandedOutForGood` | src/core/dependableobject.cpp:188-248 | in every continuation what was handed out once stays handed out exactly once: a task taken early never comes back to the scheduler |
| `DependencyLateEdges.RequestHonouredIff` | src/core/dependableobject.hpp:193-227 | asking an unfinished object for a dependence leaves an unconsumed edge exactly when that object is not about to erase the pair |
| `DependencyLateEdges.RequestLost` | src/core/dependableobject.cpp:169-174 | otherwise addSuccessor reports a known pair, nothing is counted, and the erasure removes the last trace although the predecessor is unfinished |
| `DependencyLateEdges.LateRequestIsReachable` | src/core/dependableobject.cpp:129-180 | a run, with any two objects, after which the next request for the pair is lost |
| `DependencyTheorems.NoStuckGraph` | src/core/commutationdepobj.hpp:30-41 | when nothing is in progress and every handed-out task has made its last finished() call, no edge is left, the graph counter is zero and every task and wait was handed out exactly once |
| `DependencyConfluence.ReleaseDecreasesWork` | src/core/dependableobject.hpp:124-142 | every release step decreases a measure built on the number of unconsumed edges, recursion through commutations included |
| `DependencyConfluence.ReleaseTerminates` | src/core/dependableobject.cpp:28-127 | no sequence of release steps is longer than that measure, on any graph |
| `DependencyConfluence.ReleaseProgress` | src/core/dependableobject.cpp:57-125 | while a release is unfinished some step of it can be taken |
| `DependencyConfluence.ReleaseConfluent` | src/core/dependableobject.cpp:57-125 | any two ways to complete the releases from a state (iteration orders, batching choices, thread interleavings) end in the same state |
| `DependencyConfluence.SingleReleaseCompletes` | src/core/dependableobject.cpp:119-125 | the release can always be completed one successor at a time |
| `DependencyConfluence.BatchRefinesSingle` | src/core/dependableobject.cpp:73-125 | whatever was released in batches, plain single release reaches the same counters, lists, hand-outs and totals |
| `DependencyRuntime.CanRemovePredecessor` | src/core/dependableobject.cpp:153-171 | the nested loops answer no exactly when some target that this object writes overlaps one that the successor reads or writes |
| `DependencyRuntime.FinishedOutcome` | src/core/dependableobject.cpp:28-127 | called with no other release in progress, finished() has one possible outcome, which single releases alone reach too |
| `DependencyRuntime.Runtime.Create` | src/plugins/deps/plain_deps.cpp:79-91 | a new object enters with its submission guard counted |
| `DependencyRuntime.Runtime.DependOn` | src/plugins/deps/basedependenciesdomain.hpp:105-111 | increasePredecessors is called exactly when addSuccessor reports a new edge; the graph changes by that edge only |
| `DependencyRuntime.Runtime.EnterGraph` | src/plugins/deps/plain_deps.cpp:108-115 | the task counter grows by one and the object is marked submitted |
| `DependencyRuntime.Runtime.DropGuard` | src/plugins/deps/plain_deps.cpp:115-118 | dropping the guard runs everything it triggers, as release steps of the protocol, and leaves no call open |
| `DependencyRuntime.Runtime.DecreasePredecessors` | src/core/dependableobject.hpp:124-142 | the locked decrement, and dependenciesSatisfied when it reached zero outside a batch, amount to protocol steps; with batchRelease nothing is triggered |
| `DependencyRuntime.Runtime.DependenciesSatisfied` | src/core/dependableobjectwd.cpp:32-48 | a task is submitted if it still needs to be, a wait is signalled, a commutation finishes recursively; all of it protocol steps, on fewer edges |
| `DependencyRuntime.Runtime.SubmitOrSignal` | src/core/dependableobjectwd.cpp:103-109 | the hand-out and its decreaseTasksInGraph, once, for tasks that need submission and for waits |
| `DependencyRuntime.Runtime.ReleaseInBatch` | src/core/dependableobject.cpp:86-98 | a successor that answered canBeBatchReleased reaches zero, so the fatal check cannot fire, and joins the batch once |
| `DependencyRuntime.Runtime.VisitSuccessors` | src/core/dependableobject.cpp:73-112 | the loop visits every successor once; the batch array holds exactly the successors released in the batch |
| `DependencyRuntime.Runtime.ReleaseSuccessors` | src/core/dependableobject.cpp:57-125 | the loop and the submission of the batch are protocol steps that consume every edge of the object |
| `DependencyRuntime.Runtime.Finished` | src/core/dependableobject.cpp:28-127 | drops a reference; the last one releases everything, in steps of the protocol, and returns with every call it started over |
| `DependencyRuntime.Runtime.DropSuccessor` | src/core/dependableobject.cpp:169-174 | the decrement, everything it triggers and the erasure are steps of the protocol; the pair leaves the successor set and no call is left open |
| `DependencyRuntime.Runtime.VisitRead` | src/core/dependableobject.cpp:148-180 | the edge is consumed and erased exactly when nothing conflicts, otherwise it stays; either way the new state is reached from the old by steps of the protocol |
| `DependencyRuntime.Runtime.ReleaseReadDependencies` | src/core/dependableobject.cpp:129-180 | the call is a run of the protocol; afterwards the successors are exactly the old ones with a read or written target that overlaps a written one of this object, and exactly the unconsumed edges, and every dropped edge into a submitted object is gone for good |
| `DependencyRuntime.Runtime.DetachSuccessor` | src/core/dependableobject.cpp:205-243 | the edge is consumed, or with keepDeps put back with submission disabled |
| `DependencyRuntime.Runtime.ReleaseImmediateSuccessor` | src/core/dependableobject.cpp:188-248 | returns and hands out once a task that the caller allows, is submitted and unguarded, and whose only unconsumed edge comes from this object, keeping the edge exactly with keepDeps; null, with the state unchanged, exactly when there is no such task |
| `DependencyRuntime.LastPredecessorIff` | src/core/dependableobject.cpp:200-211 | a successor with a count of one is an unguarded object whose only unconsumed edge comes from this one |
| `DependencyRuntime.BatchableIff` | src/core/dependableobjectwd.cpp:45-48 | canBeBatchReleased(), asked from a release loop and with a policy that allows batches, is true exactly for an unguarded task that still needs submission and whose only unconsumed edge comes from this object |
| `AsyncInvariant.StepKeepsInv` | src/core/asyncthread.cpp:129-438 | every step of the re-entrant pipeline keeps the invariant on tokens, phases, lists and counters |
| `AsyncTheorems.OneContinuation` | src/core/asyncthread.cpp:129-438 | in every run a running WD has exactly one uncompleted event or is in flight on the call stack, any other WD has neither |
| `AsyncTheorems.BodyAndFinishOnce` | src/core/asyncthread.cpp:277-438 | in every run a body runs at most once and finishWork is called at most once, not before it; exactly the fetched WDs that left the list were finished |
| `AsyncTheorems.BodyWhenReady` | src/core/asyncthread.cpp:277-302 | a body starts only with inputs ready and predecessors gone |
| `AsyncTheorems.FinishWhenReady` | src/core/asyncthread.cpp:357-437 | finishWork is called only with outputs ready, after the body |
| `AsyncTheorems.EventsOnce` | src/core/asyncthread.hpp:53-98 | in every run no event's actions run twice, no uncompleted event is erased, and both counters are the sizes of their lists |
| `AsyncTheorems.PrefetchBound` | src/core/asyncthread.cpp:49-104 | in every run the running WDs that idle loops fetched exceed the prefetch limit by less than the most idle loops that were open at once; those added from outside come on top |
| `AsyncTheorems.AddKeepsLimitIff` | src/core/asyncthread.cpp:451-476 | addNextWD, by the idle loop or from outside, keeps the limit exactly when canGetWork()'s test holds at that point; it makes no such test |
| `AsyncTheorems.WithinLimitIff` | src/core/asyncthread.cpp:64-104 | a run stays within the prefetch limit if and only if that test holds at every addNextWD of the run, whoever calls it |
| `AsyncTheorems.OutsideAddIff` | src/plugins/sched/bf_sched.cpp:75-78 | with a limit of at most one, an addNextWD from outside leaves the thread able to keep it, whatever it goes on to do by itself, exactly when nothing is running and no idle loop is between canGetWork() and addNextWD |
| `AsyncTheorems.LimitOfOneIff` | src/core/asyncthread.cpp:64-104 | over every run with a limit of at most one: at every point what the thread goes on to do by itself keeps the limit if and only if every addNextWD from outside meets that condition, and then the run is within the limit |
| `AsyncTheorems.OutsideExceedsLimit` | src/plugins/sched/bf_sched.cpp:75-78 | a run with a limit of one and no idle loop at all in which two WDs added from outside, as two tied tasks are, are running |
| `AsyncDrain.HomewardIsCloser` | src/core/asyncthread.cpp:129-438 | with data ready and predecessors gone there is always a next step, and it lowers a measure of the work left |
| `AsyncDrain.Return` | src/core/asyncthread.hpp:53-128 | every call in progress can return, without any further call |
| `AsyncDrain.CanDrain` | src/core/asyncthread_decl.hpp:76-82 | from every state of a guarded run there is a guarded continuation after which no call is in progress, both lists and counters are empty as the destructor asserts, and every WD ever added has run once and was finished once |
| `AsyncScenarios.BoundIsReached` | src/core/asyncthread.cpp:64-104 | for every limit of at least two and every depth n there is a run with n idle loops open at once and limit + n - 1 WDs running; for a limit of one, with n = 1 |
| `AsyncScenarios.LimitExceeded` | src/core/asyncthread.cpp:64-94 | a run with a limit of two in which the body of a task, run by the checkEvents() between canGetWork() and prefetch, calls idle, and three WDs end up running |
| `AsyncTheorems.ReentranceIsSafe` | src/core/asyncthread.hpp:53-98 | through any nesting every saved index keeps naming the same event and the deque is never read past its end, if neither checkEvents() nor idle is started inside an outermost checkEvents( wd ) |
| `AsyncTheorems.CleanupSafeIff` | src/core/asyncthread.hpp:89-98 | the cleanup leaves every position still to be visited right exactly when no outer checkEvents( wd ) has one left or the front event is not completed |
| `AsyncTheorems.ReadsRightIff` | src/core/asyncthread.hpp:53-128 | over every run: no loop of checkEvents has a wrong event before it or reads past the end if and only if every cleanup of the run meets that condition |
| `AsyncScenarios.ReadsPastEnd` | src/core/asyncthread.hpp:100-128 | a run in which a checkEvents() inside the finishWork of a checkEvents( wd ) erases the event being run, and the outer loop reads past the end of the deque |
| `AsyncThreads.AsyncThread.CheckEvents` | src/core/asyncthread.hpp:53-98 | the call is a run of the pipeline, returns with every nested call over, and completes every event that was raised, or whose condition held, when it began |
| `AsyncThreads.AsyncThread.VisitPending` | src/core/asyncthread.hpp:59-87 | the loop over the saved count stays in range while continuations extend the deque, and leaves no event uncompleted that was raised before it |
| `AsyncThreads.AsyncThread.EraseCompleted` | src/core/asyncthread.hpp:89-96 | exactly the completed events at the front are erased |
| `AsyncThreads.AsyncThread.CheckEventsOf` | src/core/asyncthread.hpp:100-128 | a run of the pipeline that only ever extends the deque, inside a checkEvents() or outside, and completes every event of that WD that was raised when it began |
| `AsyncThreads.CompletesIff` | src/core/asyncthread.hpp:63-85 | a round of either loop completes the event at its position exactly when it is raised and, in checkEvents( wd ), belongs to that WD, and completes no other |
| `AsyncThreads.AsyncThread.PreRunWD` | src/core/asyncthread.cpp:129-179 | a run of the pipeline that ends with one event queued: the check of the inputs when memory was allocated, and itself again when it could not be |
| `AsyncThreads.AsyncThread.CheckWDInputs` | src/core/asyncthread.cpp:182-251 | ends with one event queued: the run on the condition that the inputs are ready or, when they are, what runWD queues |
| `AsyncThreads.AsyncThread.RunWD` | src/core/asyncthread.cpp:277-319 | ends with one event queued: itself again while there are predecessors, otherwise the check of the outputs with the body run exactly once |
| `AsyncThreads.AsyncThread.CheckWDOutputs` | src/core/asyncthread.cpp:322-354 | ends with postRunWD queued |
| `AsyncThreads.AsyncThread.PostRunWD` | src/core/asyncthread.cpp:357-438 | ends with itself queued on the outputs, or with the WD out of the list, its body run once and finishWork called once, whatever finishWork calls |
| `AsyncThreads.AsyncThread.RunIdle` | src/core/asyncthread.cpp:49-104 | a guarded run of the pipeline that leaves the call stack as it was; every WD that prefetch handed out is added by an idle loop, and the loop stops only when canGetWork() is false or prefetch had nothing |
| `AsyncThreads.AsyncThread.IdleRound` | src/core/asyncthread.cpp:66-100 | a round asks prefetch; with a WD it is added and the loop goes on, without one the loop is over |
| `AsyncThreads.AsyncThread.AddNextWD` | src/core/asyncthread.cpp:451-476 | from the idle loop or from outside: the WD joins the list without any test of the limit, its first phase is run, and the event of its next one is queued |
| `WorkSharingChain.StepKeepsInv` | src/core/basethread.hpp:56-111 | every memory access of every thread keeps the invariant on list, threads and ownership |
| `WorkSharingChain.KthCallKthDescriptor` | src/core/basethread.hpp:56-111 | in every interleaving the k-th call of every thread returned the descriptor found by following k links from the team's head |
| `WorkSharingChain.OneCreator` | src/core/basethread.hpp:78-99 | of all callers of the k-th descriptor at most one is told that it created it |
| `WorkSharingChain.EveryDescriptorHasCreator` | src/core/basethread.hpp:78-99 | once no call is in progress, exactly one was told so, for every descriptor of the list |
| `WorkSharingChain.NothingDangles` | src/core/basethread.hpp:70-101 | no access goes through a deleted descriptor, and every descriptor of the list is allocated, although addresses are reused |
| `WorkSharingChain.OwnedIsUnreachable` | src/core/basethread.hpp:62-84 | a descriptor about to be deleted after a failed swap, or a private one, is not in the list |
| `WorkSharingChain.ListOnlyGrows` | src/core/basethread.hpp:74-99 | no step changes which descriptor is the k-th |
| `WorkSharingChain.CallIsBounded` | src/core/basethread.hpp:56-111 | every call ends within six accesses of its own thread, whatever the others do |
| `WorkSharingChain.NoTeamFails` | src/core/basethread.hpp:62-106 | a thread without a team never gets a descriptor |
| `WorkSharingChain.EveryCallAnswered` | src/core/basethread.hpp:56-111 | in every run a thread of a team never fails, its calls from implicit work are those answered from the list and the one in progress, and its other calls are those answered with a descriptor of its own |
| `WorkSharingChain.TeamlessCallFails` | src/core/basethread.hpp:56-69 | in every run a thread without a team calls at most once, and that call fails or is about to |
| `RegionGeometry.GetFirstAddress` | src/core/globalregt.cpp:50-70 | the loop with strides by repeated division yields base plus the mixed-radix offset of the lower corner |
| `RegionGeometry.GetBreadth` | src/core/globalregt.cpp:72-93 | the loop yields the distance between the two corners plus one |
| `RegionGeometry.GetDataSize` | src/core/globalregt.cpp:95-106 | the loop yields the number of different offsets of the region |
| `RegionGeometry.FirstIsLeast` | src/core/globalregt.cpp:50-93 | the corners are the least and the greatest offset, inside the object |
| `RegionGeometry.OffsetDigits` | src/core/globalregt.cpp:50-70 | offsets are mixed-radix numbers: quotient and remainder by the stride are the slowest coordinate and an offset of the rest |
| `RegionGeometry.LinearInjective` | src/core/globalregt.cpp:50-70 | different points have different offsets |
| `RegionGeometry.VolumeCountsOffsets` | src/core/globalregt.cpp:95-106 | the product of the lengths is the cardinality of the set of offsets |
| `RegionGeometry.VolumeAtMostBreadth` | src/core/globalregt.cpp:72-106 | data size is at most breadth, with equality exactly when every dimension below a non-unit one is full |
| `RegionGeometry.ContiguousIffFullBelow` | src/core/globalregt.cpp:72-106 | the offsets have no gaps exactly in that case |
| `RegionFit.GetFitRegion` | src/core/globalregt.cpp:154-177 | the loop builds the fit box |
| `RegionFit.GetFitDimensions` | src/core/copydata.cpp:54-68 | the loop fills the caller's array with the fit box |
| `RegionFit.GetSize` | src/core/copydata.hpp:105-113 | the loop yields the number of different offsets, as getDataSize does from the other end |
| `RegionFit.GetMaxSize` | src/core/copydata.hpp:114-122 | the loop yields the number of elements of the object |
| `RegionFit.FitIsLeastContiguousBox` | src/core/globalregt.cpp:154-177 | the fit contains the region, is contiguous, lies in every contiguous box around the region, and is its own fit; a region is its own fit exactly when it is contiguous |
| `RegionFit.RecursionMatchesFit` | src/core/copydata.cpp:27-52 | the recursive size and address give exactly the interval of offsets of the fit and agree with its first offset, breadth and data size; the address is defined exactly when some length differs from one |
| `RegionFit.SingleElementHasNoFitAddress` | src/core/copydata.cpp:46-52 | for a single element the recursion for the address runs past dimension 0, though the fit is the element itself |
| `RegionSlab.GetSlabRegion` | src/core/globalregt.cpp:179-226 | unchanged exactly for the whole object with a breadth below the slab size; fatal exactly when the slab size is below the breadth or, unless unchanged, no number of elements of any dimension makes a block of the slab size that divides the dimension; otherwise the slab box of that shape |
| `RegionSlab.ShapeStops` | src/core/globalregt.cpp:206-219 | a slab size with such a shape passes every test of the loop |
| `RegionSlab.SlabVolume` | src/core/globalregt.cpp:201-219 | a slab has the size asked for, or is the whole object |
| `RegionSlab.SlabAligned` | src/core/globalregt.cpp:205-219 | a slab starts at a multiple of the slab size |
| `RegionSlab.SlabInside` | src/core/globalregt.cpp:205-219 | a slab lies in the object exactly when every dimension above the narrowed one has at least two elements |
| `RegionSlab.SlabHoldsFirst` | src/core/globalregt.cpp:189-219 | a slab holds the region's first element exactly when the region's bound is 1 in every dimension above the narrowed one and the 32-bit copy of the bound falls into the same slab |
| `RegionSlab.ShapeUnique` | src/core/globalregt.cpp:199-219 | where narrowing happens depends on the object and the slab size only |
| `RegionSlab.SlabsEqualOrDisjoint` | src/core/globalregt.cpp:179-226 | two slabs of one object and size inside it cover the same offsets or none in common |
| `RegionSlab.SlabAtSlowestDimension` | src/core/globalregt.cpp:205-213 | narrowing at the last dimension: right size, inside, aligned, contiguous, holding the first element if its bound fits in 32 bits |
| `RegionSlab.SlabMissesRegion` | src/core/globalregt.cpp:216-219 | a region whose slab does not hold it, because later dimensions get the constant bound 1 |
| `RegionSlab.SlabOutsideObject` | src/core/globalregt.cpp:216-219 | a region whose slab lies outside the object |
| `RegionDeduct.DeductCd` | src/core/copydata.cpp:76-142 | says when it is fatal and which dimensions it deduces, in every case of the dimension counts: with fewer dimensions than the object, exactly the accesses with the object's leading sizes at a whole number of their own arrays from its start are deduced |
| `RegionDeduct.AcceptedIff` | src/core/copydata.cpp:89-105 | the tests on every block of the access come down to the leading sizes and the distance |
| `RegionDeduct.DigitBelowSize` | src/core/copydata.cpp:117-125 | every recovered lower bound is below its dimension size |
| `RegionDeduct.DeducedBox` | src/core/copydata.cpp:89-126 | the deduced region lies in the object and its points are the points of the access, extended by the recovered bounds |
| `RegionDeduct.DeductRoundTrip` | src/core/copydata.cpp:82-126 | every point has the same address in both views exactly when the access starts inside the registered object and, in 64-bit arithmetic, exactly when the wrapped distance is below the object's size |
| `RegionDeduct.DeductOneDimension` | src/core/copydata.cpp:127-136 | with one dimension on both sides the two starts agree, in 64-bit arithmetic, exactly when the access has lower bound zero |
| `RegionDeduct.DeductOneInside` | src/core/copydata.cpp:127-136 | the deduced dimension lies in the object exactly when the wrapped distance leaves room for the accessed length |
| `RegionDeduct.DeductLosesBound` | src/core/copydata.cpp:127-136 | an access to elements 2 to 4 of a ten-element object that is taken for elements 0 to 2 |
| `InstrumentationContexts.InstrumentationContextData.FindBurstByKey` | src/core/instrumentationcontext.hpp:32-44 | finds the first event with the key |
| `InstrumentationContexts.InstrumentationContextData.InsertBurst` | src/core/instrumentationcontext.cpp:54-84 | both lists after the insertion, for all five contexts |
| `InstrumentationContexts.InstrumentationContextData.RemoveBurst` | src/core/instrumentationcontext.cpp:88-115 | both lists after the removal, for all five contexts |
| `InstrumentationContexts.InstrumentationContextData.CloseBurstEvent` | src/core/instrumentation.cpp:91-112 | the lists after closing and the event emitted |
| `InstrumentationContexts.InstrumentationContextData.PopState` | src/core/instrumentationcontext.cpp:126-130 | popping an empty stack does nothing |
| `InstrumentationContexts.InstrumentationContextData.CreateStateEvent` | src/core/instrumentation.cpp:36-44 | pushes the state, except in a disabled context, and emits its start |
| `InstrumentationContexts.InstrumentationContextData.ReturnPreviousStateEvent` | src/core/instrumentation.cpp:46-65 | pops and emits what the trace laws on states are about: the end of the popped state or the start of the one below it |
| `InstrumentationContexts.TwoBursts` | src/core/instrumentationcontext.cpp:35-116 | which list each of the five contexts keeps a second open burst of a key in |
| `InstrumentationContexts.InsertPushes` | src/core/instrumentationcontext.cpp:54-84 | inserting pushes on the stack of the key, touches no other, and leaves one event per key in the main list of a context without stacked bursts |
| `InstrumentationContexts.ClosePops` | src/core/instrumentationcontext.cpp:88-115 | closing pops the stack of its key and reports what it popped |
| `InstrumentationContexts.CloseEventFromStack` | src/core/instrumentation.cpp:91-112 | the event emitted, in terms of the stack: the end of the top or, without stacked bursts, the burst below it opened again |
| `InstrumentationContexts.RunMatchesReference` | src/core/instrumentationcontext.cpp:54-115 | every sequence of operations, in every enabled context, closes what one LIFO stack per key closes |
| `InstrumentationContexts.ContextsCloseTheSame` | src/core/instrumentationcontext.cpp:54-115 | any two enabled contexts close the same bursts, and without stacked bursts the main list never holds two events of a key |
| `ContextSwitch.EventArray.PutOpening` | src/core/instrumentation.cpp:498-506 | the jumping, descending 32-bit index writes the list back to front and ends behind it, also for no bursts and at slot zero |
| `ContextSwitch.EventArray.PutClosing` | src/core/instrumentation.cpp:470-475 | the list front to back, types reversed |
| `ContextSwitch.FillArray` | src/core/instrumentation.cpp:414-513 | the events are exactly those of leaving and entering and fill exactly the corrected count |
| `ContextSwitch.WdSwitch` | src/core/instrumentation.cpp:414-533 | the array has one slot more than counted and is filled exactly, the extra slot only for the context-switch state; deferred events are cleared; what is emitted, and around which suspension and resumption |
| `ContextSwitch.EmittedInOrder` | src/core/instrumentation.cpp:517-529 | every event reaches the backend once and in order; a disabled context suspends the old work descriptor after its last event and resumes the new one before its first, an enabled one does neither |
| `ContextSwitch.ClosingMirrorsOpening` | src/core/instrumentation.cpp:470-506 | leaving closes the bursts that entering opens, in the opposite order |
| `ContextSwitch.ReachableSwitchIsWellNested` | src/core/instrumentation.cpp:470-506 | after any operations, the bursts opened on entering and closed on leaving at once are well nested and leave enclosing bursts alone |
| `ContextSwitch.WorkIsWellNested` | src/core/instrumentation.cpp:67-112 | with stacked bursts: entering, any openings and closings of the work descriptor's own bursts, and leaving give a trace in which every end matches the latest start of its key and enclosing bursts are left alone |
| `ContextSwitch.TraceShowsTops` | src/core/instrumentation.cpp:67-112 | without stacked bursts: after entering and whatever the work descriptor opens and closes, the trace shows exactly the top of each of its stacks as the current burst of the key, and leaving clears exactly those keys |
| `StateTraces.PushThenPop` | src/core/instrumentationcontext.cpp:118-139 | a pop undoes a push, and what was pushed is on top in between |
| `StateTraces.TraceShowsTopState` | src/core/instrumentation.cpp:36-65 | without stacked states: after entering and any pushes and pops the trace shows the last state pushed and not yet popped, and leaving ends it or replaces it by the context-switch state; once the stack was emptied the error state is shown, which leaving does not end |
| `StateTraces.TraceShowsStack` | src/core/instrumentation.cpp:414-496 | with stacked states: entering and the work descriptor's own pushes and pops show exactly its stack above the enclosing states; leaving ends exactly these states in the order of the stack, which is well nested if and only if the stack is a palindrome |
| `StateTraces.LeavingIsNotNested` | src/core/instrumentation.cpp:457-461 | states 3 and 5, 5 on top: leaving ends 3 first |
| `StateTraces.DisabledShowsNone` | src/core/instrumentationcontext.cpp:157-175 | a disabled context shows no states |
| `StateTraces.PointToPointLeaving` | src/core/instrumentation.cpp:450-475 | leaving starts one message, first of all, unless it is the last switch or these events are off |
| `StateTraces.PointToPointEntering` | src/core/instrumentation.cpp:482-511 | entering ends one message, first of all, and gives the deferred events last |
| `BitCounter.CongruentIsSingle` | src/core/bitcounter.hpp:49-62 | if all set bits are congruent modulo the current width, the test is false, although the mask keeps high bits |
| `BitCounter.DistinctIsFound` | src/core/bitcounter.hpp:49-62 | two set bits with different residues are found, given that every residue is itself a set bit |
| `BitCounter.HasMoreThanOneOneCorrect` | src/core/bitcounter.hpp:49-75 | for every power-of-two width and every value: true exactly when at least two bits are set |
| `BitCounter.HighBitsSurvive` | src/core/bitcounter.hpp:53-59 | a single bit reaches the last level as two bits, one above its width |

## Left out

- Memory order and fences: every atomic operation is one indivisible step.
- The dependency plugin's bookkeeping of last writers and readers: edges are added in any order, into objects that
  still hold their submission guard, from unfinished objects that are not waits and not about to erase the same pair;
  a guard is dropped when no source of an edge is itself still guarded, which is the order in which one thread submits
  siblings.
- Second and renewed guards of commutation objects in the plugin
  (src/plugins/deps/basedependenciesdomain.hpp:208-229): a commutation holds one guard.
- Concurrent release calls on one object: `finished` and `releaseReadDependencies` are documented as not thread safe,
  and `releaseImmediateSuccessor` is taken to be called by the thread that runs it; at most one of the three is in
  progress per object, and they are called for handed-out tasks with references left.
- Upper overflow of predecessor, reference and task counters; wrap-around is modelled where a decrement could start
  from zero.
- The identity of the threads in the dependence protocol: any pending step of any call may come next, which allows
  more interleavings than the call stacks do.
- The branch of `releaseImmediateSuccessor` that puts a wrongly erased successor back is in the protocol; the
  sequential `Runtime` omits it because `HandedOutOnce` shows that it is never taken.
- Blocking of the thread in DOWait, destruction of dependable objects, instrumentation calls, `_lss` and scheduler
  callbacks.
- Target overlap is a parameter: any Boolean function of two targets.
- AsyncThreads.AsyncThread.CheckEvents: the nesting of calls from outside code is bounded by the parameter `depth`,
  any number; the pipeline itself has no such bound.
- AsyncThreads.AsyncThread.RunIdle: the number of WDs that the scheduler hands out in one call is finite, the choice
  of the WD passed to prefetch is not modelled, and it is not called inside an outermost checkEvents( wd ), where the
  runs of the pipeline go wrong.
- Calls of idle or checkEvents from Scheduler::prefetch: it only asks the policy, which may call addNextWD, and
  pre-initialises the WD (src/core/schedule.cpp:561-573).
- The current WD of the asynchronous thread, which nested calls overwrite, and processTransfers, which only wraps
  checkEvents.
- Device-specific events: those that carry a WD from phase to phase have one continuation each and are raised at any
  time. The transfer events of the devices (src/arch/gpu/gpumemorytransfer.cpp:171,
  src/arch/opencl/openclcache.cpp:131), whose continuations are not phases, are not in the deque of this model;
  `LimitOfOneIff` speaks of threads without them.
- addNextWD called by another thread while this one is running: outside calls come at the points where this thread
  runs code that is not its own.
- GetFitDimensions and GetFitRegion say which box is built; obtaining a region identifier for it is not modelled.
- Overflow of sizes, strides and addresses in the region functions, except the 64-bit address difference in `deductCd`
  and the 32-bit copy of lower bounds in `getSlabRegionId`.
- ContextSwitch.WdSwitch: fewer than 2^32 events per switch are assumed, as the code's counters do; a disabled context
  is assumed to have an empty burst list, which holds if it was never used with another context.
- Instrumentation dictionary, event filtering, device bursts and the locking of the deferred list.
- Caches, directories, accelerators, teams, barriers, network and schedulers: thin calls, or code whose correctness
  rests on parts outside this project.
