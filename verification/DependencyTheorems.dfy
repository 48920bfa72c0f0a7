/** What the release protocol guarantees over every run, whatever the threads interleave. */
module DependencyTheorems {
  import opened Wrappers
  import opened DependableObjects
  import opened DependencyProtocol
  import opened DependencyInvariant

  // ----- Runs -----

  predicate Possible(s: State, acts: seq<Action>)
    decreases |acts|
  {
    acts == [] || (Enabled(s, acts[0]) && Possible(Step(s, acts[0]), acts[1..]))
  }

  function Run(s: State, acts: seq<Action>): State
    requires Possible(s, acts)
    decreases |acts|
  {
    if acts == [] then s else Run(Step(s, acts[0]), acts[1..])
  }

  lemma {:induction false} RunKeepsInv(s: State, acts: seq<Action>)
    requires Inv(s) && Possible(s, acts)
    ensures Inv(Run(s, acts))
    decreases |acts|
  {
    if acts != [] {
      StepKeepsInv(s, acts[0]);
      RunKeepsInv(Step(s, acts[0]), acts[1..]);
    }
  }

  /** In every reachable state the invariant holds. */
  lemma ReachableInv(lists: bool, acts: seq<Action>)
    requires Possible(Initial(lists), acts)
    ensures Inv(Run(Initial(lists), acts))
  {
    RunKeepsInv(Initial(lists), acts);
  }

  /** The actions lead from one state to the other. */
  predicate LeadsTo(s: State, acts: seq<Action>, s': State) {
    Possible(s, acts) && Run(s, acts) == s'
  }

  lemma LeadsOne(s: State, a: Action)
    requires Enabled(s, a)
    ensures LeadsTo(s, [a], Step(s, a))
  {
    assert [a][1..] == [];
  }

  lemma {:induction false} LeadsFurther(s: State, a: seq<Action>, s1: State, b: seq<Action>, s2: State)
    requires LeadsTo(s, a, s1) && LeadsTo(s1, b, s2)
    ensures LeadsTo(s, a + b, s2)
    decreases |a|
  {
    if a == [] {
      assert a + b == b;
    } else {
      assert (a + b)[1..] == a[1..] + b;
      LeadsFurther(Step(s, a[0]), a[1..], s1, b, s2);
    }
  }

  // ----- Counters -----

  function ReleaseDecrements(s: State, step: ReleaseStep): Option<Id>
    requires CanRelease(s, step)
  {
    match step
    case ReleaseBatch(o) => Some(s.objs[o].activity.checked.value)
    case ReleaseSingle(o, x) => Some(x)
    case _ => None
  }

  /** The object whose predecessor counter an action decrements, if any. */
  function Decrements(s: State, a: Action): Option<Id>
    requires Enabled(s, a)
  {
    match a
    case DropGuard(x) => Some(x)
    case Releasing(step) => ReleaseDecrements(s, step)
    case DropRead(o, x) => Some(x)
    case Confirm(o, keep) => if keep then None else Some(s.objs[o].activity.chosen)
    case _ => None
  }

  /** Every counter is exact, every predecessor list is exact, and no decrement starts from zero. */
  lemma CountersExact(lists: bool, acts: seq<Action>)
    requires Possible(Initial(lists), acts)
    ensures var s := Run(Initial(lists), acts);
      && (forall x :: x in s.objs ==>
            && s.objs[x].numPredecessors == |In(s, x)| + (if s.objs[x].guarded then 1 else 0)
            && s.objs[x].predecessors == (if s.lists then In(s, x) else {}))
      && (forall a :: Enabled(s, a) && Decrements(s, a).Some? ==>
            && Decrements(s, a).value in s.objs
            && s.objs[Decrements(s, a).value].numPredecessors > 0)
  {
    var s := Run(Initial(lists), acts);
    ReachableInv(lists, acts);
    forall x | x in s.objs
      ensures s.objs[x].numPredecessors == |In(s, x)| + (if s.objs[x].guarded then 1 else 0)
      ensures s.objs[x].predecessors == (if s.lists then In(s, x) else {})
    {
      assert CountOk(s, x);
    }
    forall a | Enabled(s, a) && Decrements(s, a).Some?
      ensures Decrements(s, a).value in s.objs && s.objs[Decrements(s, a).value].numPredecessors > 0
    {
      DecrementPositive(s, a);
    }
  }

  lemma ReleaseDecrementPositive(s: State, step: ReleaseStep)
    requires Inv(s) && CanRelease(s, step) && ReleaseDecrements(s, step).Some?
    ensures ReleaseDecrements(s, step).value in s.objs
    ensures s.objs[ReleaseDecrements(s, step).value].numPredecessors > 0
  {
    match step
    case ReleaseBatch(o) => assert ActivityOk(s, o);
    case ReleaseSingle(o, x) =>
      assert ActivityOk(s, o) && CountOk(s, x);
      assert o in In(s, x);
    case _ =>
  }

  lemma DecrementPositive(s: State, a: Action)
    requires Inv(s) && Enabled(s, a) && Decrements(s, a).Some?
    ensures Decrements(s, a).value in s.objs && s.objs[Decrements(s, a).value].numPredecessors > 0
  {
    match a
    case DropGuard(x) => assert CountOk(s, x);
    case Releasing(step) => ReleaseDecrementPositive(s, step);
    case DropRead(o, x) =>
      assert ActivityOk(s, o) && CountOk(s, x);
      assert o in In(s, x);
    case Confirm(o, keep) => assert ActivityOk(s, o);
    case _ =>
  }

  // ----- Edges are consumed once -----

  /** The edge is consumed and its target no longer accepts edges. */
  predicate Gone(s: State, o: Id, x: Id) {
    x in s.objs && !s.objs[x].guarded && (o, x) !in s.edges
  }

  lemma GoneStaysReleased(s: State, step: ReleaseStep, o: Id, x: Id)
    requires CanRelease(s, step) && Gone(s, o, x)
    ensures Gone(DoRelease(s, step), o, x)
  {
    match step
    case Satisfy(y) =>
    case CheckBatch(u, y) =>
    case ReleaseBatch(u) =>
    case ReleaseSingle(u, y) =>
    case EndFinish(u) =>
  }

  lemma GoneStays(s: State, a: Action, o: Id, x: Id)
    requires Enabled(s, a) && Gone(s, o, x)
    ensures Gone(Step(s, a), o, x)
  {
    match a
    case Create(y, kind) =>
    case AddEdge(u, y) => GoneStaysJoined(s, u, y, o, x);
    case Releasing(step) => GoneStaysReleased(s, step, o, x);
    case Confirm(u, keep) => GoneStaysConfirmed(s, u, keep, o, x);
    case DropRead(u, y) =>
    case _ =>
  }

  lemma GoneStaysJoined(s: State, u: Id, y: Id, o: Id, x: Id)
    requires CanAddEdge(s, u, y) && Gone(s, o, x)
    ensures Gone(DoAddEdge(s, u, y), o, x)
  {
  }

  lemma GoneStaysConfirmed(s: State, u: Id, keep: bool, o: Id, x: Id)
    requires CanConfirm(s, u) && Gone(s, o, x)
    ensures Gone(DoConfirm(s, u, keep), o, x)
  {
  }

  /** An edge into a submitted object that was consumed, by whichever of the four ways, is never consumed again:
      it stays consumed in every continuation, and no release loop has its target left to visit. */
  lemma {:induction false} ConsumedOnce(s: State, acts: seq<Action>, o: Id, x: Id)
    requires Inv(s) && Possible(s, acts) && Gone(s, o, x)
    ensures var s' := Run(s, acts);
      && Gone(s', o, x)
      && (o in s'.objs && s'.objs[o].activity.Finishing? ==> x !in s'.objs[o].activity.todo)
      && (o in s'.objs && s'.objs[o].activity.ReleasingReads? ==> x !in s'.objs[o].activity.pending)
    decreases |acts|
  {
    if acts == [] {
      if o in s.objs { assert ActivityOk(s, o); }
    } else {
      StepKeepsInv(s, acts[0]);
      GoneStays(s, acts[0], o, x);
      ConsumedOnce(Step(s, acts[0]), acts[1..], o, x);
    }
  }

  // ----- Hand-outs -----

  /** Over every run each object is handed out at most once, the fatal batch check never fires, the second
      look of releaseImmediateSuccessor always confirms the first, and the total passed to
      decreaseTasksInGraph is the number of objects handed out. */
  lemma HandedOutOnce(lists: bool, acts: seq<Action>)
    requires Possible(Initial(lists), acts)
    ensures var s := Run(Initial(lists), acts);
      && (forall x :: x in s.objs ==> s.objs[x].handedOut <= 1)
      && !s.fatal
      && (forall o :: o in s.objs && s.objs[o].activity.Picked? ==>
            s.objs[o].activity.chosen in s.objs && s.objs[s.objs[o].activity.chosen].numPredecessors == 1)
      && s.decreased == |Released(s)|
      && s.tasksInGraph == |Waiting(s)|
  {
    var s := Run(Initial(lists), acts);
    ReachableInv(lists, acts);
    forall x | x in s.objs ensures s.objs[x].handedOut <= 1 { assert HandOk(s, x); }
    forall o | o in s.objs && s.objs[o].activity.Picked?
      ensures s.objs[o].activity.chosen in s.objs && s.objs[s.objs[o].activity.chosen].numPredecessors == 1
    {
      assert ActivityOk(s, o);
    }
  }

  /** The hand-outs of `x` so far stay made. */
  predicate StaysHandedOut(s: State, s': State, x: Id) {
    x in s.objs && x in s'.objs && s'.objs[x].handedOut >= s.objs[x].handedOut
      && (!s.objs[x].guarded ==> !s'.objs[x].guarded)
  }

  lemma ReleaseKeepsHandOuts(s: State, step: ReleaseStep, x: Id)
    requires CanRelease(s, step) && x in s.objs
    ensures StaysHandedOut(s, DoRelease(s, step), x)
  {
    match step
    case Satisfy(y) => SatisfyKeepsHandOuts(s, y, x);
    case CheckBatch(u, y) =>
    case ReleaseBatch(u) =>
    case ReleaseSingle(u, y) =>
    case EndFinish(u) =>
  }

  lemma SatisfyKeepsHandOuts(s: State, y: Id, x: Id)
    requires CanSatisfy(s, y) && x in s.objs
    ensures StaysHandedOut(s, DoSatisfy(s, y), x)
  {
  }

  lemma ConfirmKeepsHandOuts(s: State, u: Id, keep: bool, x: Id)
    requires CanConfirm(s, u) && x in s.objs
    ensures StaysHandedOut(s, DoConfirm(s, u, keep), x)
  {
  }

  lemma StepKeepsHandOuts(s: State, a: Action, x: Id)
    requires Enabled(s, a) && x in s.objs
    ensures StaysHandedOut(s, Step(s, a), x)
  {
    match a
    case Releasing(step) => ReleaseKeepsHandOuts(s, step, x);
    case Confirm(u, keep) => ConfirmKeepsHandOuts(s, u, keep, x);
    case AddEdge(u, y) =>
    case DropRead(u, y) =>
    case _ =>
  }

  lemma {:induction false} UnguardedStays(s: State, acts: seq<Action>, x: Id)
    requires Possible(s, acts) && x in s.objs && !s.objs[x].guarded
    ensures x in Run(s, acts).objs && !Run(s, acts).objs[x].guarded
    decreases |acts|
  {
    if acts != [] {
      StepKeepsHandOuts(s, acts[0], x);
      UnguardedStays(Step(s, acts[0]), acts[1..], x);
    }
  }

  /** What was handed out once is never handed out again, in any continuation: a task taken early by
      releaseImmediateSuccessor never comes back to the scheduler. */
  lemma {:induction false} HandedOutForGood(s: State, acts: seq<Action>, x: Id)
    requires Inv(s) && Possible(s, acts) && x in s.objs && s.objs[x].handedOut == 1
    ensures x in Run(s, acts).objs && Run(s, acts).objs[x].handedOut == 1
    decreases |acts|
  {
    if acts != [] {
      var s' := Step(s, acts[0]);
      StepKeepsInv(s, acts[0]);
      StepKeepsHandOuts(s, acts[0], x);
      assert HandOk(s', x);
      HandedOutForGood(s', acts[1..], x);
    }
  }

  /** A task with submission enabled is handed out only when its last predecessor is gone; one handed out before
      that has submission disabled. */
  lemma HandedOutReady(lists: bool, acts: seq<Action>, x: Id)
    requires Possible(Initial(lists), acts)
    requires var s := Run(Initial(lists), acts); x in s.objs && s.objs[x].handedOut == 1
    ensures var s := Run(Initial(lists), acts);
      && !s.objs[x].guarded && s.objs[x].batchedBy.None?
      && (s.objs[x].needsSubmission ==> In(s, x) == {} && s.objs[x].numPredecessors == 0 && !s.objs[x].satisfying)
      && (!s.objs[x].needsSubmission ==> s.objs[x].kind.Task?)
  {
    var s := Run(Initial(lists), acts);
    ReachableInv(lists, acts);
    assert HandOk(s, x) && CountOk(s, x);
  }

  // ----- No stuck graph -----

  /** Nothing is in progress, every guard is dropped, and every task handed out has made its last
      finished() call. */
  predicate Drained(s: State) {
    forall x :: x in s.objs ==>
      && !s.objs[x].guarded && !s.objs[x].satisfying && s.objs[x].activity.Idle?
      && (s.objs[x].kind.Task? && s.objs[x].handedOut > 0 ==> s.objs[x].references == 0)
  }

  /** In a drained graph no edge leaves an object, by induction on the order of the dropped guards. */
  lemma {:induction false} DrainedSource(s: State, u: Id)
    requires Inv(s) && Drained(s) && u in s.objs
    ensures Out(s, u) == {} && In(s, u) == {}
    decreases s.objs[u].sealed
  {
    assert SealOk(s, u) && CountOk(s, u) && HandOk(s, u) && ActivityOk(s, u);
    forall w | w in In(s, u) ensures false {
      assert u in Out(s, w);
      DrainedSource(s, w);
    }
    assert In(s, u) == {};
  }

  /** No stuck graph: every object that entered it was handed out, and no edge is left. */
  lemma NoStuckGraph(lists: bool, acts: seq<Action>)
    requires Possible(Initial(lists), acts)
    requires Drained(Run(Initial(lists), acts))
    ensures var s := Run(Initial(lists), acts);
      && s.edges == {} && s.tasksInGraph == 0
      && forall x :: x in s.objs ==>
           s.objs[x].numPredecessors == 0 && (!s.objs[x].kind.Commutation? ==> s.objs[x].handedOut == 1)
  {
    var s := Run(Initial(lists), acts);
    ReachableInv(lists, acts);
    forall x | x in s.objs
      ensures s.objs[x].numPredecessors == 0 && (!s.objs[x].kind.Commutation? ==> s.objs[x].handedOut == 1)
    {
      DrainedSource(s, x);
      assert CountOk(s, x) && HandOk(s, x);
    }
    forall e | e in s.edges ensures false {
      assert e == (e.0, e.1);
      assert e.1 in Out(s, e.0);
      DrainedSource(s, e.0);
    }
    assert Waiting(s) == {} by { assert forall x :: x in s.objs && s.objs[x].kind.Commutation? ==> HandOk(s, x); }
  }
}
