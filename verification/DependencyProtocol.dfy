/** The dependence-graph release protocol of the runtime, as interleaved atomic steps.

    A `Node` holds the fields of one DependableObject.  Any number of threads run `finished`,
    `releaseReadDependencies`, `releaseImmediateSuccessor`, `decreasePredecessors` and
    `dependenciesSatisfied`; what a thread has still to do inside such a call is kept with the object
    the call is about (`satisfying`, `batchedBy`, `activity`), and every order of the pending steps is
    allowed.  Every interleaving of the real calls that respects the conditions of the steps below is
    therefore a run of this machine. */
module DependencyProtocol {
  import opened Wrappers
  import opened DependableObjects

  datatype Activity =
    | Idle
      // inside the successor loop of finished(): `todo` is still to be visited, `checked` has answered
      // canBeBatchReleased() and `batch` is the array of successors to submit together
    | Finishing(todo: set<Id>, batching: bool, checked: Option<Id>, batch: set<Id>)
      // inside releaseReadDependencies(): `pending` is still to be visited, `erasing` was decremented and is about to
      // leave the set
    | ReleasingReads(pending: set<Id>, erasing: Option<Id>)
      // inside releaseImmediateSuccessor(): `chosen` was erased and is about to be looked at again
    | Picked(chosen: Id)

  datatype Node = Node(
    kind: Kind,
    numPredecessors: nat,
    references: nat,
    predecessors: set<Id>,
    successors: set<Id>,
    submitted: bool,
    needsSubmission: bool,
    guarded: bool,          // the submission guard is counted in numPredecessors
    satisfying: bool,       // a thread took the counter to zero and is about to call dependenciesSatisfied
    batchedBy: Option<Id>,   // decremented by a batch release, not yet in the hands of the scheduler
    activity: Activity,
    handedOut: nat,         // submissions to the scheduler, returns to a caller, waits satisfied
    sealed: nat             // 0 while guarded, then the position in the order of dropped guards
  )

  /** `edges` are the dependences added and not yet consumed; `decreased` is the running total of the
      arguments of decreaseTasksInGraph. */
  datatype State = State(
    objs: map<Id, Node>,
    edges: set<(Id, Id)>,
    lists: bool,
    tasksInGraph: int,
    decreased: nat,
    clock: nat,
    fatal: bool
  )

  /** The steps taken on behalf of finished(), decreasePredecessors() and dependenciesSatisfied(). */
  datatype ReleaseStep =
    | Satisfy(x: Id)
    | CheckBatch(o: Id, x: Id)
    | ReleaseBatch(o: Id)
    | ReleaseSingle(o: Id, x: Id)
    | EndFinish(o: Id)

  datatype Action =
    | Create(x: Id, kind: Kind)
    | AddEdge(u: Id, x: Id)
    | IncreaseReferences(x: Id)
    | Submitted(x: Id)
    | DropGuard(x: Id)
    | CallFinished(o: Id)
    | Releasing(step: ReleaseStep)
    | BeginReads(o: Id)
    | DropRead(o: Id, x: Id)
    | EraseRead(o: Id)
    | KeepRead(o: Id, x: Id)
    | EndReads(o: Id)
    | Pick(o: Id, x: Id)
    | Confirm(o: Id, keep: bool)

  function Initial(lists: bool): State {
    State(map[], {}, lists, 0, 0, 0, false)
  }

  /** The sources of the unconsumed edges into `x`. */
  function In(s: State, x: Id): set<Id> {
    set u | u in s.objs && (u, x) in s.edges
  }

  /** The targets of the unconsumed edges out of `o`. */
  function Out(s: State, o: Id): set<Id> {
    set x | x in s.objs && (o, x) in s.edges
  }

  // ----- Effects of the individual operations -----

  /** Unsigned decrement: it wraps around at zero. */
  function Decremented(n: nat): nat {
    if n == 0 then 0xFFFF_FFFF else n - 1
  }

  /** The part of decreasePredecessors that runs under the lock. */
  function DecreaseInLock(n: Node, lists: bool, pred: Option<Id>): Node {
    var num := Decremented(n.numPredecessors);
    var left := if pred.Some? then n.predecessors - {pred.value} else n.predecessors;
    n.(numPredecessors := num,
       predecessors := if !lists then n.predecessors else if num == 0 then {} else left)
  }

  function FreshNode(kind: Kind): Node {
    Node(kind, 1, 1, {}, {}, false, false, true, false, None, Idle, 0, 0)
  }

  /** Edge (o, x) is consumed: `x` is decremented on behalf of `o`. */
  function Consume(s: State, o: Id, x: Id): State
    requires x in s.objs
  {
    s.(edges := s.edges - {(o, x)}, objs := s.objs[x := DecreaseInLock(s.objs[x], s.lists, Some(o))])
  }

  /** After a decrement outside a batch: reaching zero triggers dependenciesSatisfied. */
  function Trigger(s: State, x: Id): State
    requires x in s.objs
  {
    if s.objs[x].numPredecessors == 0 then s.(objs := s.objs[x := s.objs[x].(satisfying := true)]) else s
  }

  function SetActivity(s: State, o: Id, a: Activity): State
    requires o in s.objs
  {
    s.(objs := s.objs[o := s.objs[o].(activity := a)])
  }

  /** decreasePredecessors( NULL, o, false, false ) on `x`, leaving the call on `o` at `a`. */
  function Release(s: State, o: Id, x: Id, a: Activity): State
    requires o in s.objs && x in s.objs
  {
    Trigger(Consume(SetActivity(s, o, a), o, x), x)
  }

  /** One hand-out of `x`, with its decreaseTasksInGraph(). */
  function HandOut(s: State, x: Id): State
    requires x in s.objs
  {
    s.(objs := s.objs[x := s.objs[x].(handedOut := s.objs[x].handedOut + 1)],
       tasksInGraph := s.tasksInGraph - 1, decreased := s.decreased + 1)
  }

  /** Entry of finished(): only the last reference starts the release loop. */
  function BeginFinish(s: State, o: Id): State
    requires o in s.objs
  {
    var n := s.objs[o];
    var refs := Decremented(n.references);
    s.(objs := s.objs[o := n.(references := refs,
                              activity := if refs == 0
                                then Finishing(n.successors, |n.successors| > 1, None, {})
                                else n.activity)])
  }

  function BatchSubmitted(n: Node): Node {
    n.(handedOut := n.handedOut + 1, batchedBy := None)
  }

  /** DOSubmit::canBeBatchReleased, without the scheduling policy's own veto. */
  predicate CanBeBatchReleased(n: Node) {
    n.kind.Task? && n.numPredecessors == 1 && n.needsSubmission
  }

  // ----- Steps: for each, when it can happen and what it does -----

  predicate CanCreate(s: State, x: Id) {
    x !in s.objs
  }

  /** Construction, and the increasePredecessors() that guards the submission. */
  function DoCreate(s: State, x: Id, kind: Kind): State {
    s.(objs := s.objs[x := FreshNode(kind)])
  }

  /** `u` has decremented `x` early and is about to erase it from its successors. */
  predicate Erasing(s: State, u: Id, x: Id) {
    u in s.objs && s.objs[u].activity.ReleasingReads? && s.objs[u].activity.erasing == Some(x)
  }

  /** Edges enter objects whose guard is still counted, and leave unfinished objects; a wait is never
      registered as reader or writer, so nothing depends on it.  An object about to erase a successor must
      not be asked for that successor again. */
  predicate CanAddEdge(s: State, u: Id, x: Id) {
    && u in s.objs && x in s.objs
    && s.objs[x].guarded && s.objs[u].references > 0 && !s.objs[u].kind.Wait? && !Erasing(s, u, x)
  }

  /** A new edge: both ends record it and the target is incremented. */
  function NewEdge(s: State, u: Id, x: Id): State
    requires u in s.objs && x in s.objs
  {
    var n := s.objs[x];
    s.(edges := s.edges + {(u, x)},
       objs := s.objs[x := n.(predecessors := Listed(s, u, x), numPredecessors := n.numPredecessors + 1)]
                     [u := s.objs[u].(successors := s.objs[u].successors + {x})])
  }

  function Listed(s: State, u: Id, x: Id): set<Id>
    requires x in s.objs
  {
    if s.lists then s.objs[x].predecessors + {u} else s.objs[x].predecessors
  }

  /** addSuccessor(), and increasePredecessors() exactly when it returned true.  An object is never made a
      successor of itself. */
  function DoAddEdge(s: State, u: Id, x: Id): State
    requires u in s.objs && x in s.objs
  {
    if u == x then s
    else if x in s.objs[u].successors then s.(objs := s.objs[x := s.objs[x].(predecessors := Listed(s, u, x))])
    else NewEdge(s, u, x)
  }

  predicate CanIncreaseReferences(s: State, x: Id) {
    x in s.objs && s.objs[x].kind.Task? && s.objs[x].references > 0 && s.objs[x].activity.Idle?
  }

  function DoIncreaseReferences(s: State, x: Id): State
    requires x in s.objs
  {
    s.(objs := s.objs[x := s.objs[x].(references := s.objs[x].references + 1)])
  }

  predicate CanSubmitted(s: State, x: Id) {
    x in s.objs && s.objs[x].guarded && !s.objs[x].kind.Commutation? && !s.objs[x].submitted
  }

  /** increaseTasksInGraph() and submitted(). */
  function DoSubmitted(s: State, x: Id): State
    requires x in s.objs
  {
    s.(objs := s.objs[x := s.objs[x].(submitted := true, needsSubmission := true)], tasksInGraph := s.tasksInGraph + 1)
  }

  /** The guard goes last, when no predecessor is itself still being submitted. */
  predicate CanDropGuard(s: State, x: Id) {
    && x in s.objs && s.objs[x].guarded
    && (!s.objs[x].kind.Commutation? ==> s.objs[x].submitted)
    && forall u :: u in In(s, x) ==> !s.objs[u].guarded
  }

  function DoDropGuard(s: State, x: Id): State
    requires x in s.objs
  {
    var n := DecreaseInLock(s.objs[x], s.lists, None).(guarded := false, sealed := s.clock + 1);
    Trigger(s.(objs := s.objs[x := n], clock := s.clock + 1), x)
  }

  predicate CanSatisfy(s: State, x: Id) {
    x in s.objs && s.objs[x].satisfying
  }

  /** dependenciesSatisfied() of the three kinds of object. */
  function DoSatisfy(s: State, x: Id): State
    requires x in s.objs
  {
    var s1 := s.(objs := s.objs[x := s.objs[x].(satisfying := false)]);
    match s.objs[x].kind
    case Task => if s.objs[x].needsSubmission then HandOut(s1, x) else s1
    case Wait => HandOut(s1, x)
    case Commutation => BeginFinish(s1, x)
  }

  /** The release operations are called for a task that was handed out and has references left; they are
      not thread safe, so one at a time per object. */
  predicate MayRelease(s: State, o: Id) {
    && o in s.objs && s.objs[o].kind.Task? && s.objs[o].handedOut > 0
    && s.objs[o].references > 0 && s.objs[o].activity.Idle?
  }

  predicate CanCheckBatch(s: State, o: Id, x: Id) {
    && o in s.objs && s.objs[o].activity.Finishing? && s.objs[o].activity.batching
    && s.objs[o].activity.checked.None? && x in s.objs[o].activity.todo
    && x in s.objs && CanBeBatchReleased(s.objs[x])
  }

  function DoCheckBatch(s: State, o: Id, x: Id): State
    requires CanCheckBatch(s, o, x)
  {
    SetActivity(s, o, s.objs[o].activity.(checked := Some(x)))
  }

  predicate CanReleaseBatch(s: State, o: Id) {
    && o in s.objs && s.objs[o].activity.Finishing? && s.objs[o].activity.checked.Some?
    && s.objs[o].activity.checked.value in s.objs
  }

  /** The successor that answered canBeBatchReleased() is decremented without being triggered; a counter
      that does not reach zero is a fatal error. */
  function DoReleaseBatch(s: State, o: Id): State
    requires CanReleaseBatch(s, o)
  {
    var act := s.objs[o].activity;
    var x := act.checked.value;
    var s1 := Consume(SetActivity(s, o, act.(todo := act.todo - {x}, checked := None, batch := act.batch + {x})), o, x);
    s1.(objs := s1.objs[x := s1.objs[x].(batchedBy := Some(o))],
        fatal := s1.fatal || s1.objs[x].numPredecessors != 0)
  }

  predicate CanReleaseSingle(s: State, o: Id, x: Id) {
    && o in s.objs && s.objs[o].activity.Finishing?
    && s.objs[o].activity.checked.None? && x in s.objs[o].activity.todo && x in s.objs
  }

  function DoReleaseSingle(s: State, o: Id, x: Id): State
    requires CanReleaseSingle(s, o, x)
  {
    Release(s, o, x, s.objs[o].activity.(todo := s.objs[o].activity.todo - {x}))
  }

  predicate CanEndFinish(s: State, o: Id) {
    && o in s.objs && s.objs[o].activity.Finishing?
    && s.objs[o].activity.checked.None? && s.objs[o].activity.todo == {}
  }

  /** The batch goes to the scheduler in one call, and leaves the graph in one decrement. */
  function DoEndFinish(s: State, o: Id): State
    requires CanEndFinish(s, o)
  {
    var batch := s.objs[o].activity.batch;
    var objs1 := map x | x in s.objs :: if x in batch then BatchSubmitted(s.objs[x]) else s.objs[x];
    s.(objs := objs1[o := objs1[o].(activity := Idle)],
       tasksInGraph := s.tasksInGraph - |batch|, decreased := s.decreased + |batch|)
  }

  function DoBeginReads(s: State, o: Id): State
    requires o in s.objs
  {
    SetActivity(s, o, ReleasingReads(s.objs[o].successors, None))
  }

  predicate CanVisitRead(s: State, o: Id, x: Id) {
    && o in s.objs && s.objs[o].activity.ReleasingReads?
    && s.objs[o].activity.erasing.None? && x in s.objs[o].activity.pending && x in s.objs
  }

  /** A successor that touches nothing this object writes is decremented ... */
  function DoDropRead(s: State, o: Id, x: Id): State
    requires CanVisitRead(s, o, x)
  {
    Release(s, o, x, ReleasingReads(s.objs[o].activity.pending - {x}, Some(x)))
  }

  predicate CanEraseRead(s: State, o: Id) {
    o in s.objs && s.objs[o].activity.ReleasingReads? && s.objs[o].activity.erasing.Some?
  }

  /** ... and then erased from the successor set. */
  function DoEraseRead(s: State, o: Id): State
    requires CanEraseRead(s, o)
  {
    s.(objs := s.objs[o := s.objs[o].(successors := s.objs[o].successors - {s.objs[o].activity.erasing.value},
                                      activity := s.objs[o].activity.(erasing := None))])
  }

  function DoKeepRead(s: State, o: Id, x: Id): State
    requires CanVisitRead(s, o, x)
  {
    SetActivity(s, o, s.objs[o].activity.(pending := s.objs[o].activity.pending - {x}))
  }

  predicate CanEndReads(s: State, o: Id) {
    && o in s.objs && s.objs[o].activity.ReleasingReads?
    && s.objs[o].activity.erasing.None? && s.objs[o].activity.pending == {}
  }

  predicate CanPick(s: State, o: Id, x: Id) {
    && MayRelease(s, o) && x in s.objs[o].successors && x in s.objs
    && s.objs[x].numPredecessors == 1 && !s.objs[x].kind.Wait? && s.objs[x].submitted
  }

  function DoPick(s: State, o: Id, x: Id): State
    requires o in s.objs
  {
    s.(objs := s.objs[o := s.objs[o].(successors := s.objs[o].successors - {x}, activity := Picked(x))])
  }

  predicate CanConfirm(s: State, o: Id) {
    o in s.objs && s.objs[o].activity.Picked? && s.objs[o].activity.chosen in s.objs
  }

  /** Putting the chosen successor back closes the call. */
  function PutBack(s: State, o: Id): State
    requires CanConfirm(s, o)
  {
    s.(objs := s.objs[o := s.objs[o].(successors := s.objs[o].successors + {s.objs[o].activity.chosen},
                                      activity := Idle)])
  }

  /** The hand-over of a kept successor: handed out, submission disabled. */
  function HandOver(s: State, x: Id): State
    requires x in s.objs
  {
    var s1 := HandOut(s, x);
    s1.(objs := s1.objs[x := s1.objs[x].(submitted := false, needsSubmission := false)])
  }

  /** The counter is read again; with keepDeps the edge is put back and submission is disabled, otherwise
      the edge is consumed.  Either way the successor is returned to the caller. */
  function DoConfirm(s: State, o: Id, keep: bool): State
    requires CanConfirm(s, o)
  {
    var x := s.objs[o].activity.chosen;
    if s.objs[x].numPredecessors != 1 then PutBack(s, o)
    else if keep then HandOver(PutBack(s, o), x)
    else HandOut(Consume(SetActivity(s, o, Idle), o, x), x)
  }

  predicate CanRelease(s: State, step: ReleaseStep) {
    match step
    case Satisfy(x) => CanSatisfy(s, x)
    case CheckBatch(o, x) => CanCheckBatch(s, o, x)
    case ReleaseBatch(o) => CanReleaseBatch(s, o)
    case ReleaseSingle(o, x) => CanReleaseSingle(s, o, x)
    case EndFinish(o) => CanEndFinish(s, o)
  }

  function DoRelease(s: State, step: ReleaseStep): State
    requires CanRelease(s, step)
  {
    match step
    case Satisfy(x) => DoSatisfy(s, x)
    case CheckBatch(o, x) => DoCheckBatch(s, o, x)
    case ReleaseBatch(o) => DoReleaseBatch(s, o)
    case ReleaseSingle(o, x) => DoReleaseSingle(s, o, x)
    case EndFinish(o) => DoEndFinish(s, o)
  }

  predicate Enabled(s: State, a: Action) {
    match a
    case Create(x, kind) => CanCreate(s, x)
    case AddEdge(u, x) => CanAddEdge(s, u, x)
    case IncreaseReferences(x) => CanIncreaseReferences(s, x)
    case Submitted(x) => CanSubmitted(s, x)
    case DropGuard(x) => CanDropGuard(s, x)
    case CallFinished(o) => MayRelease(s, o)
    case Releasing(step) => CanRelease(s, step)
    case BeginReads(o) => MayRelease(s, o)
    case DropRead(o, x) => CanVisitRead(s, o, x)
    case EraseRead(o) => CanEraseRead(s, o)
    case KeepRead(o, x) => CanVisitRead(s, o, x)
    case EndReads(o) => CanEndReads(s, o)
    case Pick(o, x) => CanPick(s, o, x)
    case Confirm(o, keep) => CanConfirm(s, o)
  }

  function Step(s: State, a: Action): State
    requires Enabled(s, a)
  {
    match a
    case Create(x, kind) => DoCreate(s, x, kind)
    case AddEdge(u, x) => DoAddEdge(s, u, x)
    case IncreaseReferences(x) => DoIncreaseReferences(s, x)
    case Submitted(x) => DoSubmitted(s, x)
    case DropGuard(x) => DoDropGuard(s, x)
    case CallFinished(o) => BeginFinish(s, o)
    case Releasing(step) => DoRelease(s, step)
    case BeginReads(o) => DoBeginReads(s, o)
    case DropRead(o, x) => DoDropRead(s, o, x)
    case EraseRead(o) => DoEraseRead(s, o)
    case KeepRead(o, x) => DoKeepRead(s, o, x)
    case EndReads(o) => SetActivity(s, o, Idle)
    case Pick(o, x) => DoPick(s, o, x)
    case Confirm(o, keep) => DoConfirm(s, o, keep)
  }

  // ----- The invariant -----

  /** The counter is the number of unconsumed incoming edges plus the guard; the predecessor list, when
      kept, is exactly the set of their sources. */
  predicate CountOk(s: State, x: Id)
    requires x in s.objs
  {
    && s.objs[x].numPredecessors == |In(s, x)| + (if s.objs[x].guarded then 1 else 0)
    && s.objs[x].predecessors == (if s.lists then In(s, x) else {})
  }

  /** `c` waits for exactly one more release and was not handed out. */
  predicate Ready(s: State, c: Id) {
    && c in s.objs && s.objs[c].kind.Task? && s.objs[c].numPredecessors == 1
    && s.objs[c].needsSubmission && s.objs[c].handedOut == 0
  }

  /** The successor set agrees with the unconsumed outgoing edges, whatever call is in progress. */
  predicate ActivityOk(s: State, o: Id)
    requires o in s.objs
  {
    var n := s.objs[o];
    match n.activity
    case Idle => if n.references > 0 then n.successors == Out(s, o) else Out(s, o) == {}
    case Finishing(todo, _, checked, batch) =>
      && n.references == 0 && todo == Out(s, o)
      && (checked.Some? ==> checked.value in todo && Ready(s, checked.value))
      && forall y :: y in batch ==> y in s.objs && s.objs[y].batchedBy == Some(o)
    case ReleasingReads(pending, erasing) =>
      && n.kind.Task? && n.references > 0 && pending <= Out(s, o)
      && (erasing.None? ==> n.successors == Out(s, o))
      && (erasing.Some? ==> erasing.value !in Out(s, o) && n.successors == Out(s, o) + {erasing.value})
    case Picked(c) =>
      n.kind.Task? && n.references > 0 && c !in n.successors && n.successors + {c} == Out(s, o) && Ready(s, c)
  }

  /** Every object is handed out at most once, and only when its last predecessor is gone or, with
      keepDeps, when submission was disabled. */
  predicate HandOk(s: State, x: Id)
    requires x in s.objs
  {
    var n := s.objs[x];
    && n.submitted == n.needsSubmission
    && (n.satisfying ==> n.numPredecessors == 0)
    && (n.batchedBy.Some? ==>
          && n.kind.Task? && n.numPredecessors == 0 && n.handedOut == 0 && !n.satisfying && n.needsSubmission
          && n.batchedBy.value in s.objs && s.objs[n.batchedBy.value].activity.Finishing?
          && x in s.objs[n.batchedBy.value].activity.batch)
    && (n.guarded ==> n.handedOut == 0)
    && match n.kind
       case Task =>
         && n.handedOut <= 1
         && (n.handedOut == 0 ==>
               && n.references > 0 && n.activity.Idle?
               && (!n.guarded ==> n.needsSubmission)
               && (n.numPredecessors == 0 ==> n.satisfying || n.batchedBy.Some?))
         && (n.handedOut == 1 && n.needsSubmission ==> n.numPredecessors == 0 && !n.satisfying)
       case Wait =>
         && n.handedOut <= 1 && n.references > 0 && n.activity.Idle? && Out(s, x) == {}
         && (n.handedOut == 0 ==>
               && (!n.guarded ==> n.needsSubmission)
               && (n.numPredecessors == 0 ==> n.satisfying))
         && (n.handedOut == 1 ==> n.numPredecessors == 0 && !n.satisfying && n.needsSubmission)
       case Commutation =>
         && n.handedOut == 0 && !n.needsSubmission
         && (n.activity.Idle? || n.activity.Finishing?)
         && n.references == (if n.numPredecessors > 0 || n.satisfying then 1 else 0)
  }

  /** Guards are dropped in an order that sorts the graph: no cycle can close. */
  predicate SealOk(s: State, x: Id)
    requires x in s.objs
  {
    && s.objs[x].guarded == (s.objs[x].sealed == 0)
    && s.objs[x].sealed <= s.clock
    && (!s.objs[x].guarded ==>
          forall u :: u in In(s, x) ==> !s.objs[u].guarded && s.objs[u].sealed < s.objs[x].sealed)
  }

  predicate EdgesOk(s: State) {
    forall e :: e in s.edges ==> e.0 in s.objs && e.1 in s.objs && e.0 != e.1
  }

  predicate NodesOk(s: State) {
    && (forall x {:trigger CountOk(s, x)} :: x in s.objs ==> CountOk(s, x))
    && (forall x {:trigger ActivityOk(s, x)} :: x in s.objs ==> ActivityOk(s, x))
    && (forall x {:trigger HandOk(s, x)} :: x in s.objs ==> HandOk(s, x))
    && (forall x {:trigger SealOk(s, x)} :: x in s.objs ==> SealOk(s, x))
  }

  /** The objects handed out so far. */
  function Released(s: State): set<Id> {
    set x | x in s.objs && s.objs[x].handedOut > 0
  }

  /** The objects that entered the graph and were not handed out yet. */
  function Waiting(s: State): set<Id> {
    set x | x in s.objs && s.objs[x].needsSubmission && s.objs[x].handedOut == 0
  }

  predicate TotalsOk(s: State) {
    && s.decreased == |Released(s)|
    && s.tasksInGraph == |Waiting(s)|
    && !s.fatal
  }

  predicate Inv(s: State) {
    EdgesOk(s) && NodesOk(s) && TotalsOk(s)
  }
}
