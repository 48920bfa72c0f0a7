/** Releasing is terminating and confluent: finished() ends in one state, whatever the iteration order of
    the successor set, whatever is released in a batch and however threads interleave. */
module DependencyConfluence {
  import opened Wrappers
  import opened DependableObjects
  import opened DependencyProtocol
  import opened DependencyInvariant
  import opened DependencyTheorems

  predicate PossibleRelease(s: State, steps: seq<ReleaseStep>)
    decreases |steps|
  {
    steps == [] || (CanRelease(s, steps[0]) && PossibleRelease(DoRelease(s, steps[0]), steps[1..]))
  }

  function RunRelease(s: State, steps: seq<ReleaseStep>): State
    requires PossibleRelease(s, steps)
    decreases |steps|
  {
    if steps == [] then s else RunRelease(DoRelease(s, steps[0]), steps[1..])
  }

  /** No release loop and no dependenciesSatisfied() is in progress. */
  predicate Quiet(s: State) {
    forall x :: x in s.objs ==> !s.objs[x].satisfying && !s.objs[x].activity.Finishing?
  }

  // ----- Termination -----

  function Satisfying(s: State): set<Id> {
    set x | x in s.objs && s.objs[x].satisfying
  }

  function FinishingSet(s: State): set<Id> {
    set x | x in s.objs && s.objs[x].activity.Finishing?
  }

  predicate IsUndecided(n: Node) {
    n.activity.Finishing? && n.activity.checked.None?
  }

  function Undecided(s: State): set<Id> {
    set x | x in s.objs && IsUndecided(s.objs[x])
  }

  /** Every edge left to consume weighs more than everything its consumption can start. */
  function Work(s: State): nat {
    4 * |s.edges| + 3 * |Satisfying(s)| + |FinishingSet(s)| + |Undecided(s)|
  }

  /** What one object contributes to the work, besides its edges. */
  function Weight(n: Node): nat {
    (if n.satisfying then 3 else 0) + (if n.activity.Finishing? then 1 else 0) + (if IsUndecided(n) then 1 else 0)
  }

  predicate SameWeight(n: Node, n': Node) {
    n'.satisfying == n.satisfying && n'.activity.Finishing? == n.activity.Finishing?
      && IsUndecided(n') == IsUndecided(n)
  }

  lemma Resized(a: set<Id>, a': set<Id>, x: Id)
    requires a - {x} == a' - {x}
    ensures |a| - (if x in a then 1 else 0) == |a'| - (if x in a' then 1 else 0)
  {
    assert |a - {x}| == |a| - (if x in a then 1 else 0);
    assert |a' - {x}| == |a'| - (if x in a' then 1 else 0);
  }

  /** Two states whose objects other than `x` weigh the same. */
  ghost predicate OnlyChanged(s: State, s': State, x: Id) {
    && s'.objs.Keys == s.objs.Keys && x in s.objs
    && forall y :: y in s.objs && y != x ==> SameWeight(s.objs[y], s'.objs[y])
  }

  lemma SatisfyingChange(s: State, s': State, x: Id)
    requires OnlyChanged(s, s', x)
    ensures Satisfying(s) - {x} == Satisfying(s') - {x}
  {
  }

  lemma FinishingChange(s: State, s': State, x: Id)
    requires OnlyChanged(s, s', x)
    ensures FinishingSet(s) - {x} == FinishingSet(s') - {x}
  {
  }

  lemma UndecidedChange(s: State, s': State, x: Id)
    requires OnlyChanged(s, s', x)
    ensures Undecided(s) - {x} == Undecided(s') - {x}
  {
  }

  lemma WorkChange(s: State, s': State, x: Id)
    requires OnlyChanged(s, s', x)
    ensures Work(s') - 4 * |s'.edges| - Weight(s'.objs[x]) == Work(s) - 4 * |s.edges| - Weight(s.objs[x])
  {
    SatisfyingChange(s, s', x);
    Resized(Satisfying(s), Satisfying(s'), x);
    FinishingChange(s, s', x);
    Resized(FinishingSet(s), FinishingSet(s'), x);
    UndecidedChange(s, s', x);
    Resized(Undecided(s), Undecided(s'), x);
  }

  lemma SatisfyWork(s: State, x: Id)
    requires CanSatisfy(s, x) && HandOk(s, x)
    ensures Work(DoSatisfy(s, x)) < Work(s)
  {
    WorkChange(s, DoSatisfy(s, x), x);
  }

  lemma CheckBatchWork(s: State, o: Id, x: Id)
    requires CanCheckBatch(s, o, x)
    ensures Work(DoCheckBatch(s, o, x)) < Work(s)
  {
    WorkChange(s, DoCheckBatch(s, o, x), o);
  }

  lemma ReleaseBatchWork(s: State, o: Id)
    requires EdgesOk(s) && CanReleaseBatch(s, o) && (o, s.objs[o].activity.checked.value) in s.edges
    ensures Work(DoReleaseBatch(s, o)) < Work(s)
  {
    WorkChange(s, DoReleaseBatch(s, o), o);
  }

  lemma ReleaseSingleWork(s: State, o: Id, x: Id)
    requires EdgesOk(s) && CanReleaseSingle(s, o, x) && (o, x) in s.edges
    ensures Work(DoReleaseSingle(s, o, x)) < Work(s)
  {
    WorkChange(s, DoReleaseSingle(s, o, x), x);
  }

  lemma EndFinishWork(s: State, o: Id)
    requires CanEndFinish(s, o)
    ensures Work(DoEndFinish(s, o)) < Work(s)
  {
    assert DoEndFinish(s, o).objs.Keys == s.objs.Keys;
    WorkChange(s, DoEndFinish(s, o), o);
  }

  lemma ReleaseDecreasesWork(s: State, step: ReleaseStep)
    requires Inv(s) && CanRelease(s, step)
    ensures Work(DoRelease(s, step)) < Work(s)
  {
    match step
    case Satisfy(x) =>
      assert HandOk(s, x);
      SatisfyWork(s, x);
    case CheckBatch(o, x) => CheckBatchWork(s, o, x);
    case ReleaseBatch(o) =>
      assert ActivityOk(s, o);
      ReleaseBatchWork(s, o);
    case ReleaseSingle(o, x) =>
      assert ActivityOk(s, o);
      ReleaseSingleWork(s, o, x);
    case EndFinish(o) => EndFinishWork(s, o);
  }

  /** The mutual recursion of finished, decreasePredecessors and CommutationDO::dependenciesSatisfied
      terminates on every graph: no release takes more steps than the work there was. */
  lemma {:induction false} ReleaseTerminates(s: State, steps: seq<ReleaseStep>)
    requires Inv(s) && PossibleRelease(s, steps)
    ensures |steps| <= Work(s)
    decreases |steps|
  {
    if steps != [] {
      ReleaseDecreasesWork(s, steps[0]);
      ReleaseKeepsInv(s, steps[0]);
      ReleaseTerminates(DoRelease(s, steps[0]), steps[1..]);
    }
  }

  /** As long as anything is in progress there is a release step to take. */
  lemma ReleaseProgress(s: State) returns (step: ReleaseStep)
    requires Inv(s) && !Quiet(s)
    ensures CanRelease(s, step) && !step.CheckBatch?
    ensures step.ReleaseBatch? ==> s.objs[step.o].activity.checked.Some?
  {
    var x :| x in s.objs && (s.objs[x].satisfying || s.objs[x].activity.Finishing?);
    assert ActivityOk(s, x);
    if s.objs[x].satisfying {
      step := Satisfy(x);
    } else if s.objs[x].activity.checked.Some? {
      step := ReleaseBatch(x);
    } else if s.objs[x].activity.todo != {} {
      var y :| y in s.objs[x].activity.todo;
      assert y in Out(s, x);
      step := ReleaseSingle(x, y);
    } else {
      step := EndFinish(x);
    }
  }

  // ----- Confluence -----

  /** What release steps cannot change, and how far they can change the rest. */
  predicate Evolved(n0: Node, n: Node) {
    && n == n0.(numPredecessors := n.numPredecessors, references := n.references, predecessors := n.predecessors,
                satisfying := n.satisfying, batchedBy := n.batchedBy, activity := n.activity, handedOut := n.handedOut)
    && n.numPredecessors <= n0.numPredecessors
    && (n.references == n0.references || n.references == 0)
    && (n.handedOut == n0.handedOut || n.numPredecessors == 0)
    && (n0.activity.ReleasingReads? || n0.activity.Picked? ==> n.activity == n0.activity)
    && (n0.activity.Idle? || n0.activity.Finishing? ==> n.activity.Idle? || n.activity.Finishing?)
  }

  predicate ReleasedFrom(s0: State, s: State) {
    && s.objs.Keys == s0.objs.Keys && s.lists == s0.lists && s.clock == s0.clock
    && s.edges <= s0.edges
    && forall x :: x in s0.objs ==> Evolved(s0.objs[x], s.objs[x])
  }

  lemma EvolvedFurther(n0: Node, n: Node, n': Node)
    requires Evolved(n0, n) && Evolved(n, n')
    ensures Evolved(n0, n')
  {
  }

  lemma SatisfyEvolves(s: State, x: Id, y: Id)
    requires CanSatisfy(s, x) && HandOk(s, x) && y in s.objs
    ensures Evolved(s.objs[y], DoSatisfy(s, x).objs[y])
  {
  }

  lemma ReleaseBatchEvolves(s: State, o: Id, y: Id)
    requires CanReleaseBatch(s, o) && y in s.objs && s.objs[s.objs[o].activity.checked.value].numPredecessors > 0
    ensures Evolved(s.objs[y], DoReleaseBatch(s, o).objs[y])
  {
  }

  lemma ReleaseSingleEvolves(s: State, o: Id, x: Id, y: Id)
    requires CanReleaseSingle(s, o, x) && o != x && y in s.objs && s.objs[x].numPredecessors > 0
    ensures Evolved(s.objs[y], DoReleaseSingle(s, o, x).objs[y])
  {
    ReleasedNodes(s, o, x, s.objs[o].activity.(todo := s.objs[o].activity.todo - {x}));
  }

  /** What a single release does to each object. */
  lemma ReleasedNodes(s: State, o: Id, x: Id, a: Activity)
    requires o in s.objs && x in s.objs && o != x
    ensures var s' := Release(s, o, x, a); var n := DecreaseInLock(s.objs[x], s.lists, Some(o));
      && s'.objs.Keys == s.objs.Keys
      && s'.objs[o] == s.objs[o].(activity := a)
      && s'.objs[x] == n.(satisfying := n.satisfying || n.numPredecessors == 0)
      && (forall y :: y in s.objs && y != o && y != x ==> s'.objs[y] == s.objs[y])
  {
  }

  lemma CheckBatchEvolves(s: State, o: Id, x: Id, y: Id)
    requires CanCheckBatch(s, o, x) && y in s.objs
    ensures Evolved(s.objs[y], DoCheckBatch(s, o, x).objs[y])
  {
  }

  lemma EndFinishEvolves(s: State, o: Id, y: Id)
    requires CanEndFinish(s, o) && y in s.objs
    requires y in s.objs[o].activity.batch ==> s.objs[y].numPredecessors == 0
    ensures Evolved(s.objs[y], DoEndFinish(s, o).objs[y])
  {
  }

  lemma StepEvolves(s: State, step: ReleaseStep, y: Id)
    requires Inv(s) && CanRelease(s, step) && y in s.objs
    ensures y in DoRelease(s, step).objs && Evolved(s.objs[y], DoRelease(s, step).objs[y])
  {
    ReleaseFrame(s, step);
    match step
    case Satisfy(x) =>
      assert HandOk(s, x);
      SatisfyEvolves(s, x, y);
    case CheckBatch(o, x) =>
      CheckBatchEvolves(s, o, x, y);
    case ReleaseBatch(o) =>
      assert ActivityOk(s, o);
      ReleaseBatchEvolves(s, o, y);
    case ReleaseSingle(o, x) =>
      ReleaseDecrementPositive(s, step);
      assert ActivityOk(s, o);
      ReleaseSingleEvolves(s, o, x, y);
    case EndFinish(o) =>
      assert ActivityOk(s, o) && HandOk(s, y);
      EndFinishEvolves(s, o, y);
  }

  lemma StepReleased(s0: State, s: State, step: ReleaseStep)
    requires Inv(s) && ReleasedFrom(s0, s) && CanRelease(s, step)
    ensures ReleasedFrom(s0, DoRelease(s, step))
  {
    ReleaseFrame(s, step);
    forall x | x in s0.objs ensures Evolved(s0.objs[x], DoRelease(s, step).objs[x]) {
      StepEvolves(s, step, x);
      EvolvedFurther(s0.objs[x], s.objs[x], DoRelease(s, step).objs[x]);
    }
  }

  lemma ReleaseFrame(s: State, step: ReleaseStep)
    requires CanRelease(s, step)
    ensures var s' := DoRelease(s, step);
      s'.objs.Keys == s.objs.Keys && s'.lists == s.lists && s'.clock == s.clock && s'.edges <= s.edges
  {
    match step
    case Satisfy(x) =>
    case CheckBatch(o, x) =>
    case ReleaseBatch(o) =>
    case ReleaseSingle(o, x) =>
    case EndFinish(o) =>
  }

  /** `q` has consumed and finished everything that `s` has. */
  predicate Behind(s: State, q: State) {
    && s.objs.Keys == q.objs.Keys && q.edges <= s.edges
    && forall x :: x in s.objs && s.objs[x].references == 0 ==> q.objs[x].references == 0
  }

  /** A finished object of a quiet state has no edge left. */
  lemma QuietFinished(q: State, o: Id)
    requires Inv(q) && Quiet(q) && o in q.objs && q.objs[o].references == 0
    ensures Out(q, o) == {}
  {
    assert ActivityOk(q, o);
  }

  /** A commutation with no predecessors left is finished in every quiet state. */
  lemma QuietCommutation(q: State, c: Id)
    requires Inv(q) && Quiet(q) && c in q.objs && q.objs[c].kind.Commutation? && !q.objs[c].guarded && In(q, c) == {}
    ensures q.objs[c].references == 0
  {
    assert CountOk(q, c) && HandOk(q, c);
  }

  lemma BehindRelease(s: State, q: State, o: Id, x: Id, s': State)
    requires Behind(s, q) && EdgesOk(q) && Out(q, o) == {} && s'.edges == s.edges - {(o, x)}
      && s'.objs.Keys == s.objs.Keys
    requires forall y :: y in s.objs ==> s'.objs[y].references == s.objs[y].references
    ensures Behind(s', q)
  {
    assert x !in Out(q, o);
    assert (o, x) !in q.edges;
  }

  lemma BehindSatisfy(s: State, q: State, x: Id)
    requires Behind(s, q) && CanSatisfy(s, x)
    requires s.objs[x].kind.Commutation? ==> q.objs[x].references == 0
    ensures Behind(DoSatisfy(s, x), q)
  {
  }

  lemma BehindReleaseSingle(s: State, q: State, o: Id, x: Id)
    requires Behind(s, q) && EdgesOk(q) && Out(q, o) == {} && CanReleaseSingle(s, o, x) && o != x
    ensures Behind(DoReleaseSingle(s, o, x), q)
  {
    ReleasedNodes(s, o, x, s.objs[o].activity.(todo := s.objs[o].activity.todo - {x}));
    BehindRelease(s, q, o, x, DoReleaseSingle(s, o, x));
  }

  lemma BehindReleaseBatch(s: State, q: State, o: Id)
    requires Behind(s, q) && EdgesOk(q) && Out(q, o) == {} && CanReleaseBatch(s, o)
    ensures Behind(DoReleaseBatch(s, o), q)
  {
    BehindRelease(s, q, o, s.objs[o].activity.checked.value, DoReleaseBatch(s, o));
  }

  lemma BehindOther(s: State, q: State, step: ReleaseStep)
    requires Behind(s, q) && CanRelease(s, step) && (step.CheckBatch? || step.EndFinish?)
    ensures Behind(DoRelease(s, step), q)
  {
    assert DoRelease(s, step).objs.Keys == s.objs.Keys;
  }

  /** Satisfying a commutation in `s` finds it finished in `q`. */
  lemma SatisfiedIsFinished(s0: State, s: State, q: State, x: Id)
    requires Inv(s) && Inv(q) && Quiet(q) && ReleasedFrom(s0, s) && ReleasedFrom(s0, q) && Behind(s, q)
    requires CanSatisfy(s, x) && s.objs[x].kind.Commutation?
    ensures q.objs[x].references == 0
  {
    assert HandOk(s, x) && CountOk(s, x);
    assert Evolved(s0.objs[x], s.objs[x]) && Evolved(s0.objs[x], q.objs[x]);
    assert In(s, x) == {};
    assert In(q, x) <= In(s, x);
    QuietCommutation(q, x);
  }

  lemma BehindStep(s0: State, s: State, q: State, step: ReleaseStep)
    requires Inv(s) && Inv(q) && Quiet(q) && ReleasedFrom(s0, s) && ReleasedFrom(s0, q) && Behind(s, q)
    requires CanRelease(s, step)
    ensures Behind(DoRelease(s, step), q)
  {
    match step
    case Satisfy(x) =>
      if s.objs[x].kind.Commutation? { SatisfiedIsFinished(s0, s, q, x); }
      BehindSatisfy(s, q, x);
    case CheckBatch(o, x) => BehindOther(s, q, step);
    case ReleaseBatch(o) =>
      assert ActivityOk(s, o);
      QuietFinished(q, o);
      BehindReleaseBatch(s, q, o);
    case ReleaseSingle(o, x) =>
      assert ActivityOk(s, o);
      QuietFinished(q, o);
      BehindReleaseSingle(s, q, o, x);
    case EndFinish(o) => BehindOther(s, q, step);
  }

  lemma {:induction false} RunBehind(s0: State, s: State, q: State, steps: seq<ReleaseStep>)
    requires Inv(s) && Inv(q) && Quiet(q) && ReleasedFrom(s0, s) && ReleasedFrom(s0, q) && Behind(s, q)
    requires PossibleRelease(s, steps)
    ensures Inv(RunRelease(s, steps)) && ReleasedFrom(s0, RunRelease(s, steps)) && Behind(RunRelease(s, steps), q)
    decreases |steps|
  {
    if steps != [] {
      BehindStep(s0, s, q, steps[0]);
      StepReleased(s0, s, steps[0]);
      ReleaseKeepsInv(s, steps[0]);
      RunBehind(s0, DoRelease(s, steps[0]), q, steps[1..]);
    }
  }

  lemma {:induction false} RunReleased(s0: State, s: State, steps: seq<ReleaseStep>)
    requires Inv(s) && ReleasedFrom(s0, s) && PossibleRelease(s, steps)
    ensures Inv(RunRelease(s, steps)) && ReleasedFrom(s0, RunRelease(s, steps))
    decreases |steps|
  {
    if steps != [] {
      StepReleased(s0, s, steps[0]);
      ReleaseKeepsInv(s, steps[0]);
      RunReleased(s0, DoRelease(s, steps[0]), steps[1..]);
    }
  }

  /** In a quiet state an object without predecessors was handed out, or never needs to be. */
  lemma QuietHandedOut(q: State, x: Id)
    requires Quiet(q) && x in q.objs && CountOk(q, x) && HandOk(q, x)
    ensures q.objs[x].batchedBy.None?
    ensures q.objs[x].numPredecessors == 0 ==> q.objs[x].handedOut == if q.objs[x].kind.Commutation? then 0 else 1
  {
  }

  lemma QuietNode(n0: Node, n1: Node, n2: Node)
    requires Evolved(n0, n1) && Evolved(n0, n2)
    requires n1.numPredecessors == n2.numPredecessors && n1.predecessors == n2.predecessors
    requires n1.references == 0 <==> n2.references == 0
    requires n1.numPredecessors == 0 ==> n1.handedOut == n2.handedOut
    requires !n1.satisfying && !n2.satisfying && n1.batchedBy.None? && n2.batchedBy.None?
    requires !n1.activity.Finishing? && !n2.activity.Finishing?
    ensures n1 == n2
  {
  }

  lemma QuietSame(s0: State, q1: State, q2: State, x: Id)
    requires Quiet(q1) && Quiet(q2) && ReleasedFrom(s0, q1) && ReleasedFrom(s0, q2)
    requires Behind(q1, q2) && Behind(q2, q1) && x in s0.objs && NodesOk(q1) && NodesOk(q2)
    ensures q1.objs[x] == q2.objs[x]
  {
    assert CountOk(q1, x) && CountOk(q2, x) && HandOk(q1, x) && HandOk(q2, x);
    assert In(q1, x) == In(q2, x);
    QuietHandedOut(q1, x);
    QuietHandedOut(q2, x);
    QuietNode(s0.objs[x], q1.objs[x], q2.objs[x]);
  }

  lemma SameObjectsSameTotals(q1: State, q2: State)
    requires TotalsOk(q1) && TotalsOk(q2) && q1.objs == q2.objs
    ensures q1.tasksInGraph == q2.tasksInGraph && q1.decreased == q2.decreased
  {
    assert Released(q1) == Released(q2);
    assert Waiting(q1) == Waiting(q2);
  }

  lemma QuietObjects(s0: State, q1: State, q2: State)
    requires NodesOk(q1) && NodesOk(q2) && Quiet(q1) && Quiet(q2) && ReleasedFrom(s0, q1) && ReleasedFrom(s0, q2)
    requires Behind(q1, q2) && Behind(q2, q1)
    ensures q1.objs == q2.objs
  {
    forall x | x in s0.objs ensures q1.objs[x] == q2.objs[x] { QuietSame(s0, q1, q2, x); }
    assert q1.objs.Keys == q2.objs.Keys;
    assert q1.objs == q2.objs;
  }

  lemma QuietUnique(s0: State, q1: State, q2: State)
    requires Inv(q1) && Inv(q2) && Quiet(q1) && Quiet(q2) && ReleasedFrom(s0, q1) && ReleasedFrom(s0, q2)
    requires Behind(q1, q2) && Behind(q2, q1)
    ensures q1 == q2
  {
    QuietObjects(s0, q1, q2);
    SameObjectsSameTotals(q1, q2);
  }

  /** finished() ends in one state: any two ways of completing the release from the same state -- any
      iteration order, any choice of batch or single release, any interleaving of the threads, recursion
      through commutations included -- reach equal counters, lists, hand-outs and totals. */
  lemma ReleaseConfluent(s: State, steps1: seq<ReleaseStep>, steps2: seq<ReleaseStep>)
    requires Inv(s)
    requires PossibleRelease(s, steps1) && Quiet(RunRelease(s, steps1))
    requires PossibleRelease(s, steps2) && Quiet(RunRelease(s, steps2))
    ensures RunRelease(s, steps1) == RunRelease(s, steps2)
  {
    var q1, q2 := RunRelease(s, steps1), RunRelease(s, steps2);
    RunReleased(s, s, steps1);
    RunReleased(s, s, steps2);
    StartBehind(s, q1);
    StartBehind(s, q2);
    RunBehind(s, s, q2, steps1);
    RunBehind(s, s, q1, steps2);
    QuietUnique(s, q1, q2);
  }

  /** References only ever drop to zero, so the start is behind every end. */
  lemma StartBehind(s: State, q: State)
    requires ReleasedFrom(s, q)
    ensures Behind(s, q)
  {
    assert forall x :: x in s.objs ==> Evolved(s.objs[x], q.objs[x]);
  }

  /** No batch release is used. */
  predicate OneByOne(steps: seq<ReleaseStep>) {
    forall i :: 0 <= i < |steps| ==> !steps[i].CheckBatch? && !steps[i].ReleaseBatch?
  }

  predicate NoneChecked(s: State) {
    forall x :: x in s.objs && s.objs[x].activity.Finishing? ==> s.objs[x].activity.checked.None?
  }

  lemma SingleStep(s: State) returns (step: ReleaseStep)
    requires Inv(s) && !Quiet(s) && NoneChecked(s)
    ensures CanRelease(s, step) && !step.CheckBatch? && !step.ReleaseBatch?
    ensures NoneChecked(DoRelease(s, step))
  {
    step := ReleaseProgress(s);
    NoneCheckedStep(s, step);
  }

  lemma NoneCheckedStep(s: State, step: ReleaseStep)
    requires CanRelease(s, step) && !step.CheckBatch? && !step.ReleaseBatch? && NoneChecked(s)
    ensures NoneChecked(DoRelease(s, step))
  {
    forall x | x in DoRelease(s, step).objs && DoRelease(s, step).objs[x].activity.Finishing?
      ensures DoRelease(s, step).objs[x].activity.checked.None?
    {
      NodeNoneChecked(s, step, x);
    }
  }

  lemma NodeNoneChecked(s: State, step: ReleaseStep, x: Id)
    requires CanRelease(s, step) && !step.CheckBatch? && !step.ReleaseBatch? && x in DoRelease(s, step).objs
    requires x in s.objs && (s.objs[x].activity.Finishing? ==> s.objs[x].activity.checked.None?)
    ensures DoRelease(s, step).objs[x].activity.Finishing? ==> DoRelease(s, step).objs[x].activity.checked.None?
  {
    match step
    case Satisfy(y) =>
    case ReleaseSingle(o, y) =>
    case EndFinish(o) =>
  }

  lemma Prepend(s: State, step: ReleaseStep, rest: seq<ReleaseStep>)
    requires CanRelease(s, step) && PossibleRelease(DoRelease(s, step), rest)
    ensures PossibleRelease(s, [step] + rest)
    ensures RunRelease(s, [step] + rest) == RunRelease(DoRelease(s, step), rest)
    ensures OneByOne(rest) && !step.CheckBatch? && !step.ReleaseBatch? ==> OneByOne([step] + rest)
  {
    assert ([step] + rest)[1..] == rest;
  }

  /** Completing the release one successor at a time, without ever batching, is one of those ways. */
  lemma {:induction false} SingleReleaseCompletes(s: State) returns (steps: seq<ReleaseStep>)
    requires Inv(s) && NoneChecked(s)
    ensures PossibleRelease(s, steps) && Quiet(RunRelease(s, steps))
    ensures OneByOne(steps)
    decreases Work(s)
  {
    if Quiet(s) {
      steps := [];
    } else {
      var step := SingleStep(s);
      ReleaseKeepsInv(s, step);
      ReleaseDecreasesWork(s, step);
      var rest := SingleReleaseCompletes(DoRelease(s, step));
      steps := [step] + rest;
      Prepend(s, step, rest);
    }
  }

  /** Batch release refines one-by-one release: whatever was batched, the end state is the one that plain
      single release reaches. */
  lemma BatchRefinesSingle(s: State, batched: seq<ReleaseStep>) returns (single: seq<ReleaseStep>)
    requires Inv(s) && NoneChecked(s)
    requires PossibleRelease(s, batched) && Quiet(RunRelease(s, batched))
    ensures OneByOne(single)
    ensures PossibleRelease(s, single) && RunRelease(s, single) == RunRelease(s, batched)
  {
    single := SingleReleaseCompletes(s);
    ReleaseConfluent(s, single, batched);
  }
}
