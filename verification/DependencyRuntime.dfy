/** The release operations as the runtime runs them: loops over successor sets that update counters in
    place and call each other recursively.  The ghost state `st` is the protocol state; every method is
    shown to take protocol steps only, so whatever holds of all runs of the protocol holds of it. */
module DependencyRuntime {
  import opened Wrappers
  import opened DependableObjects
  import opened DependencyProtocol
  import opened DependencyInvariant
  import opened DependencyTheorems
  import opened DependencyConfluence

  /** The fields an object really has. */
  datatype Fields = Fields(kind: Kind, numPredecessors: nat, references: nat,
                           predecessors: set<Id>, successors: set<Id>, submitted: bool, needsSubmission: bool)

  ghost function FieldsOf(n: Node): Fields {
    Fields(n.kind, n.numPredecessors, n.references, n.predecessors, n.successors, n.submitted, n.needsSubmission)
  }

  ghost function View(o: Id): Fields
    reads o
  {
    Fields(o.kind, o.numPredecessors, o.references, o.predecessors, o.successors, o.submitted, o.needsSubmission)
  }

  /** The fields of an object are those of its node. */
  ghost predicate Mirrors(o: Id, n: Node)
    reads o
  {
    View(o) == FieldsOf(n)
  }

  /** From `s` to `s'` the real fields change only at `x`, by the decrement on behalf of `pred`. */
  ghost predicate Decreases(s: State, s': State, x: Id, pred: DependableObject?) {
    && Changes(s, s', x, {})
    && SameFields(DependencyProtocol.DecreaseInLock(s.objs[x], s.lists, if pred == null then None else Some(pred)),
                  s'.objs[x])
  }

  /** From `s` to `s'` the real fields change at `x` at most, and exactly `out` is handed out. */
  ghost predicate Changes(s: State, s': State, x: Id, out: set<Id>) {
    && s'.objs.Keys == s.objs.Keys && x in s.objs && s'.lists == s.lists
    && s'.tasksInGraph == s.tasksInGraph - |out|
    && out !! Released(s) && Released(s') == Released(s) + out
    && (forall y {:trigger SameFields(s.objs[y], s'.objs[y])} :: y in s.objs && y != x ==>
          SameFields(s.objs[y], s'.objs[y]))
  }

  ghost predicate SameFields(n: Node, n': Node) {
    FieldsOf(n') == FieldsOf(n)
  }

  /** The calls in progress are the same in both states, except on `x`. */
  ghost predicate SameCalls(s: State, s': State, x: Id) {
    && s'.objs.Keys == s.objs.Keys
    && forall y :: y in s.objs && y != x ==>
         s'.objs[y].activity == s.objs[y].activity && s'.objs[y].satisfying == s.objs[y].satisfying
  }

  lemma {:induction false} ConcatRelease(s: State, a: seq<ReleaseStep>, b: seq<ReleaseStep>)
    requires PossibleRelease(s, a) && PossibleRelease(RunRelease(s, a), b)
    ensures PossibleRelease(s, a + b) && RunRelease(s, a + b) == RunRelease(RunRelease(s, a), b)
    decreases |a|
  {
    if a == [] {
      assert a + b == b;
    } else {
      assert a == [a[0]] + a[1..];
      assert (a + b)[1..] == a[1..] + b;
      ConcatRelease(DoRelease(s, a[0]), a[1..], b);
    }
  }

  /** `x` reads or writes something that `o` writes. */
  ghost predicate Conflicts(overlap: (Target, Target) -> bool, o: Id, x: Id) {
    exists w :: w in o.writtenTargets && Touches(overlap, w, x)
  }

  ghost predicate Touches(overlap: (Target, Target) -> bool, w: Target, x: Id) {
    || (exists v :: v in x.writtenTargets && overlap(w, v))
    || (exists r :: r in x.readTargets && overlap(w, r))
  }

  lemma ConflictsIff(overlap: (Target, Target) -> bool, o: Id, x: Id)
    ensures Conflicts(overlap, o, x) <==>
      exists w, v :: w in o.writtenTargets && (v in x.writtenTargets || v in x.readTargets) && overlap(w, v)
  {
    if Conflicts(overlap, o, x) {
      var w :| w in o.writtenTargets && Touches(overlap, w, x);
    }
    if w, v :| w in o.writtenTargets && (v in x.writtenTargets || v in x.readTargets) && overlap(w, v) {
      assert Touches(overlap, w, x);
    }
  }

  /** The three nested loops of releaseReadDependencies that compare targets. */
  method CanRemovePredecessor(overlap: (Target, Target) -> bool, o: Id, x: Id) returns (can: bool)
    ensures can == !Conflicts(overlap, o, x)
    ensures can <==>
      forall w, v :: w in o.writtenTargets && (v in x.writtenTargets || v in x.readTargets) ==> !overlap(w, v)
  {
    can := true;
    var i := 0;
    while i < |o.writtenTargets| && can
      invariant 0 <= i <= |o.writtenTargets|
      invariant can ==> forall k :: 0 <= k < i ==> !Touches(overlap, o.writtenTargets[k], x)
      invariant !can ==> Conflicts(overlap, o, x)
    {
      var w := o.writtenTargets[i];
      var touched := AnyOverlap(overlap, w, x.writtenTargets);
      can := !touched;
      if can {
        touched := AnyOverlap(overlap, w, x.readTargets);
        can := !touched;
      }
      i := i + 1;
    }
    ConflictsIff(overlap, o, x);
  }

  method AnyOverlap(overlap: (Target, Target) -> bool, w: Target, targets: seq<Target>) returns (found: bool)
    ensures found == exists v :: v in targets && overlap(w, v)
  {
    found := false;
    var j := 0;
    while j < |targets| && !found
      invariant 0 <= j <= |targets|
      invariant found == exists k :: 0 <= k < j && overlap(w, targets[k])
    {
      found := overlap(w, targets[j]);
      j := j + 1;
    }
  }

  // ----- What single steps do to the fields and to the calls in progress -----

  /** What dependenciesSatisfied hands out. */
  ghost function SatisfyOut(n: Node, x: Id): set<Id> {
    if n.kind.Wait? || (n.kind.Task? && n.needsSubmission) then {x} else {}
  }

  lemma SatisfyReleased(s: State, x: Id)
    requires CanSatisfy(s, x) && HandOk(s, x)
    ensures SatisfyOut(s.objs[x], x) !! Released(s)
    ensures Released(DoSatisfy(s, x)) == Released(s) + SatisfyOut(s.objs[x], x)
  {
  }

  lemma SatisfyCalls(s: State, x: Id)
    requires Inv(s) && CanSatisfy(s, x)
    ensures var s' := DoSatisfy(s, x);
      && SameCalls(s, s', x) && !s'.objs[x].satisfying && s'.edges == s.edges
      && (!s.objs[x].kind.Commutation? ==>
            SameFields(s.objs[x], s'.objs[x]) && s'.objs[x].activity == s.objs[x].activity)
      && (s.objs[x].kind.Commutation? ==>
            && s.objs[x].references == 1 && s.objs[x].activity.Idle?
            && s'.objs[x] == s.objs[x].(satisfying := false, references := 0,
                 activity := Finishing(s.objs[x].successors, |s.objs[x].successors| > 1, None, {})))
  {
    assert HandOk(s, x) && ActivityOk(s, x);
  }

  lemma SatisfyChanges(s: State, x: Id)
    requires CanSatisfy(s, x) && HandOk(s, x)
    ensures Changes(s, DoSatisfy(s, x), x, SatisfyOut(s.objs[x], x))
  {
    SatisfyReleased(s, x);
    if s.objs[x].kind.Commutation? { SatisfyCommutation(s, x); } else { SatisfyHandsOut(s, x); }
  }

  lemma SatisfyCommutation(s: State, x: Id)
    requires CanSatisfy(s, x) && s.objs[x].kind.Commutation?
    ensures var s' := DoSatisfy(s, x);
      && s'.objs.Keys == s.objs.Keys && s'.lists == s.lists && s'.tasksInGraph == s.tasksInGraph
      && forall y {:trigger SameFields(s.objs[y], s'.objs[y])} :: y in s.objs && y != x ==>
           SameFields(s.objs[y], s'.objs[y])
  {
  }

  lemma SatisfyHandsOut(s: State, x: Id)
    requires CanSatisfy(s, x) && !s.objs[x].kind.Commutation?
    ensures var s' := DoSatisfy(s, x);
      && s'.objs.Keys == s.objs.Keys && s'.lists == s.lists
      && s'.tasksInGraph == s.tasksInGraph - |SatisfyOut(s.objs[x], x)|
      && forall y {:trigger SameFields(s.objs[y], s'.objs[y])} :: y in s.objs && y != x ==>
           SameFields(s.objs[y], s'.objs[y])
  {
  }

  lemma SatisfyFacts(s: State, x: Id)
    requires Inv(s) && CanSatisfy(s, x)
    ensures Inv(DoSatisfy(s, x)) && Changes(s, DoSatisfy(s, x), x, SatisfyOut(s.objs[x], x))
  {
    KeepSatisfy(s, x);
    assert HandOk(s, x);
    SatisfyChanges(s, x);
  }

  lemma SingleReleased(s: State, o: Id, x: Id)
    requires CanReleaseSingle(s, o, x) && o != x
    ensures Released(DoReleaseSingle(s, o, x)) == Released(s)
  {
    ReleasedNodes(s, o, x, s.objs[o].activity.(todo := s.objs[o].activity.todo - {x}));
  }

  lemma SingleFacts(s: State, o: Id, x: Id)
    requires Inv(s) && CanReleaseSingle(s, o, x)
    ensures Inv(DoReleaseSingle(s, o, x)) && o != x && !s.objs[x].satisfying && (o, x) in s.edges
  {
    KeepReleaseSingle(s, o, x);
    assert ActivityOk(s, o) && HandOk(s, x) && CountOk(s, x);
    assert x in Out(s, o) && o in In(s, x);
  }

  lemma SingleChanges(s: State, o: Id, x: Id)
    requires CanReleaseSingle(s, o, x) && o != x && !s.objs[x].satisfying && (o, x) in s.edges
    ensures var s' := DoReleaseSingle(s, o, x);
      && Decreases(s, s', x, o) && s'.objs[x].satisfying == (s'.objs[x].numPredecessors == 0)
      && s'.edges <= s.edges && |s'.edges| < |s.edges|
  {
    SingleReleased(s, o, x);
    ReleasedNodes(s, o, x, s.objs[o].activity.(todo := s.objs[o].activity.todo - {x}));
  }

  /** canBeBatchReleased() and the batch release that follows it. */
  ghost function DoBatch(s: State, o: Id, x: Id): State
    requires CanCheckBatch(s, o, x)
  {
    DoReleaseBatch(DoCheckBatch(s, o, x), o)
  }

  lemma BatchNodes(s: State, o: Id, x: Id)
    requires CanCheckBatch(s, o, x) && o != x
    ensures var s' := DoBatch(s, o, x);
      && Decreases(s, s', x, o) && s'.objs[x].satisfying == s.objs[x].satisfying && s'.objs[x].numPredecessors == 0
      && s'.objs[o] == s.objs[o].(activity := s.objs[o].activity.(todo := s.objs[o].activity.todo - {x},
                                                                  batch := s.objs[o].activity.batch + {x}))
      && s'.objs[x].activity == s.objs[x].activity && s'.objs[x].batchedBy == Some(o)
      && (forall y :: y in s.objs && y != o && y != x ==> s'.objs[y] == s.objs[y])
      && s'.edges == s.edges - {(o, x)}
  {
  }

  lemma BatchFacts(s: State, o: Id, x: Id)
    requires Inv(s) && CanCheckBatch(s, o, x)
    ensures Inv(DoBatch(s, o, x)) && o != x && !s.objs[x].satisfying && s.objs[x].batchedBy.None? && (o, x) in s.edges
    ensures x !in s.objs[o].activity.batch
  {
    KeepCheckBatch(s, o, x);
    KeepReleaseBatch(DoCheckBatch(s, o, x), o);
    assert ActivityOk(s, o) && HandOk(s, x);
    assert x in Out(s, o);
  }

  lemma EndReleased(s: State, o: Id)
    requires CanEndFinish(s, o)
    requires forall y :: y in s.objs[o].activity.batch ==> y in s.objs && s.objs[y].handedOut == 0
    ensures s.objs[o].activity.batch !! Released(s)
    ensures Released(DoEndFinish(s, o)) == Released(s) + s.objs[o].activity.batch
  {
  }

  lemma EndNodes(s: State, o: Id)
    requires CanEndFinish(s, o)
    ensures var s' := DoEndFinish(s, o);
      && s'.objs.Keys == s.objs.Keys && s'.lists == s.lists && s'.edges == s.edges
      && s'.tasksInGraph == s.tasksInGraph - |s.objs[o].activity.batch|
      && SameCalls(s, s', o) && s'.objs[o].activity.Idle? && s'.objs[o].satisfying == s.objs[o].satisfying
      && forall y {:trigger SameFields(s.objs[y], s'.objs[y])} :: y in s.objs ==> SameFields(s.objs[y], s'.objs[y])
  {
  }

  lemma EndFacts(s: State, o: Id)
    requires Inv(s) && CanEndFinish(s, o)
    ensures var s' := DoEndFinish(s, o);
      && Inv(s') && Changes(s, s', o, s.objs[o].activity.batch) && SameFields(s.objs[o], s'.objs[o])
      && SameCalls(s, s', o) && s'.objs[o].activity.Idle? && s'.objs[o].satisfying == s.objs[o].satisfying
      && s'.edges == s.edges
  {
    KeepEndFinish(s, o);
    assert ActivityOk(s, o);
    assert forall y :: y in s.objs[o].activity.batch ==> HandOk(s, y) && s.objs[y].handedOut == 0;
    EndReleased(s, o);
    EndNodes(s, o);
  }

  lemma FinishFacts(s: State, o: Id)
    requires Inv(s) && MayRelease(s, o)
    ensures var s' := BeginFinish(s, o);
      && Inv(s') && Changes(s, s', o, {}) && SameCalls(s, s', o)
      && s'.objs[o] == s.objs[o].(references := s.objs[o].references - 1, activity := s'.objs[o].activity)
      && s'.objs[o].activity == if s.objs[o].references == 1
           then Finishing(s.objs[o].successors, |s.objs[o].successors| > 1, None, {}) else Idle
  {
    KeepCallFinished(s, o);
    assert Released(BeginFinish(s, o)) == Released(s);
  }

  lemma ReadFacts(s: State, o: Id, x: Id)
    requires Inv(s) && CanVisitRead(s, o, x)
    ensures Inv(DoDropRead(s, o, x)) && o != x && !s.objs[x].satisfying && (o, x) in s.edges
    ensures Inv(DoKeepRead(s, o, x))
  {
    KeepDropRead(s, o, x);
    KeepKeepRead(s, o, x);
    assert ActivityOk(s, o) && HandOk(s, x) && CountOk(s, x);
    assert x in Out(s, o) && o in In(s, x);
  }

  lemma DropReadChanges(s: State, o: Id, x: Id)
    requires CanVisitRead(s, o, x) && o != x && !s.objs[x].satisfying && (o, x) in s.edges
    ensures var s' := DoDropRead(s, o, x);
      && Decreases(s, s', x, o) && s'.objs[x].satisfying == (s'.objs[x].numPredecessors == 0)
      && s'.objs[o] == s.objs[o].(activity := ReleasingReads(s.objs[o].activity.pending - {x}, Some(x)))
      && s'.objs[x].activity == s.objs[x].activity
      && (forall y :: y in s.objs && y != o && y != x ==> s'.objs[y] == s.objs[y])
  {
    ReleasedNodes(s, o, x, ReleasingReads(s.objs[o].activity.pending - {x}, Some(x)));
    assert Released(DoDropRead(s, o, x)) == Released(s);
  }

  lemma EraseFacts(s: State, o: Id)
    requires Inv(s) && CanEraseRead(s, o)
    ensures var s' := DoEraseRead(s, o);
      && Inv(s') && Changes(s, s', o, {}) && SameCalls(s, s', o)
      && s'.objs[o] == s.objs[o].(successors := s.objs[o].successors - {s.objs[o].activity.erasing.value},
                                  activity := ReleasingReads(s.objs[o].activity.pending, None))
  {
    KeepEraseRead(s, o);
    assert Released(DoEraseRead(s, o)) == Released(s);
  }

  lemma ActivityFacts(s: State, o: Id, a: Activity)
    requires o in s.objs
    ensures var s' := SetActivity(s, o, a);
      && Changes(s, s', o, {}) && SameFields(s.objs[o], s'.objs[o]) && SameCalls(s, s', o)
      && s'.objs[o] == s.objs[o].(activity := a)
  {
    assert Released(SetActivity(s, o, a)) == Released(s);
  }

  /** What taking `x` from `o` does to the two of them. */
  ghost predicate Taken(s: State, s': State, o: Id, x: Id, keep: bool) {
    && s'.objs.Keys == s.objs.Keys && s'.lists == s.lists && s'.tasksInGraph == s.tasksInGraph - 1
    && o in s.objs && x in s.objs && o != x
    && (forall y {:trigger SameFields(s.objs[y], s'.objs[y])} :: y in s.objs && y != o && y != x ==>
          SameFields(s.objs[y], s'.objs[y]) && s'.objs[y].handedOut == s.objs[y].handedOut)
    && s'.objs[o] == s.objs[o].(successors := if keep then s.objs[o].successors else s.objs[o].successors - {x})
    && s'.objs[x] == TakenNode(s.objs[x], s.lists, o, keep)
  }

  ghost function TakenNode(n: Node, lists: bool, o: Id, keep: bool): Node {
    var n1 := if keep then n.(submitted := false, needsSubmission := false)
              else DependencyProtocol.DecreaseInLock(n, lists, Some(o));
    n1.(handedOut := n.handedOut + 1)
  }

  lemma EdgeAfterTake(s: State, o: Id, x: Id, keep: bool)
    requires Inv(s) && CanPick(s, o, x) && CanConfirm(DoPick(s, o, x), o) && o != x
    ensures var s' := DoConfirm(DoPick(s, o, x), o, keep);
      x in s'.objs && ((o, x) in s'.edges <==> keep) && (s'.objs[x].needsSubmission <==> !keep)
  {
    assert ActivityOk(s, o) && HandOk(s, x);
    assert x in Out(s, o);
  }

  lemma TakeNodes(s: State, o: Id, x: Id, keep: bool)
    requires CanPick(s, o, x) && o != x && CanConfirm(DoPick(s, o, x), o)
    ensures Taken(s, DoConfirm(DoPick(s, o, x), o, keep), o, x, keep)
  {
    if keep { assert s.objs[o].successors - {x} + {x} == s.objs[o].successors; }
  }

  lemma TakenFields(s: State, s': State, o: Id, x: Id, keep: bool)
    requires Taken(s, s', o, x, keep) && s.objs[x].numPredecessors == 1
    ensures var f, f' := FieldsOf(s.objs[x]), FieldsOf(s'.objs[x]);
      f' == if keep then f.(submitted := false, needsSubmission := false)
            else f.(numPredecessors := 0, predecessors := if s.lists then {} else f.predecessors)
    ensures FieldsOf(s'.objs[o]) == FieldsOf(s.objs[o]).(
        successors := if keep then s.objs[o].successors else s.objs[o].successors - {x})
  {
  }

  lemma TakeReleased(s: State, s': State, o: Id, x: Id, keep: bool)
    requires Taken(s, s', o, x, keep) && s.objs[x].handedOut == 0
    ensures x !in Released(s) && Released(s') == Released(s) + {x}
  {
    assert forall y :: y in s.objs && y != o && y != x ==> SameFields(s.objs[y], s'.objs[y]);
  }

  lemma TakeFacts(s: State, o: Id, x: Id, keep: bool)
    requires Inv(s) && CanPick(s, o, x)
    ensures CanConfirm(DoPick(s, o, x), o) && Inv(DoConfirm(DoPick(s, o, x), o, keep)) && o != x
    ensures s.objs[x].handedOut == 0
  {
    KeepPick(s, o, x);
    if keep { KeepConfirmKeep(DoPick(s, o, x), o); } else { KeepConfirmRelease(DoPick(s, o, x), o); }
    assert ActivityOk(s, o) && HandOk(s, x);
    assert x in Out(s, o);
  }

  /** A single release followed by everything it triggers. */
  lemma AfterSingle(s: State, o: Id, x: Id, more: seq<ReleaseStep>, s': State)
    requires CanReleaseSingle(s, o, x) && o != x && !s.objs[x].satisfying
    requires PossibleRelease(DoReleaseSingle(s, o, x), more) && s' == RunRelease(DoReleaseSingle(s, o, x), more)
    requires SameCalls(DoReleaseSingle(s, o, x), s', x) && !s'.objs[x].satisfying
    requires s'.objs[x].activity == DoReleaseSingle(s, o, x).objs[x].activity
    ensures PossibleRelease(s, [ReleaseSingle(o, x)] + more) && s' == RunRelease(s, [ReleaseSingle(o, x)] + more)
    ensures SameCalls(s, s', o) && s'.objs[o].satisfying == s.objs[o].satisfying
    ensures s'.objs[o].activity == s.objs[o].activity.(todo := s.objs[o].activity.todo - {x})
  {
    ReleasedNodes(s, o, x, s.objs[o].activity.(todo := s.objs[o].activity.todo - {x}));
    Prepend(s, ReleaseSingle(o, x), more);
  }

  lemma StartReleased(s: State, steps: seq<ReleaseStep>)
    requires Inv(s) && PossibleRelease(s, steps)
    ensures ReleasedFrom(s, RunRelease(s, steps))
  {
    RunReleased(s, s, steps);
  }

  /** A successor dropped by releaseReadDependencies, everything it triggers, and its erasure. */
  lemma AfterDrop(s: State, s1: State, o: Id, x: Id, steps: seq<ReleaseStep>, s': State)
    requires o in s.objs && s.objs[o].activity.ReleasingReads? && x in s.objs && o != x && !s.objs[x].satisfying
    requires s1.objs.Keys == s.objs.Keys && s1.objs[x].activity == s.objs[x].activity
    requires s1.objs[o] == s.objs[o].(activity := ReleasingReads(s.objs[o].activity.pending - {x}, Some(x)))
    requires forall y :: y in s.objs && y != o && y != x ==> s1.objs[y] == s.objs[y]
    requires Inv(s1) && PossibleRelease(s1, steps) && s' == RunRelease(s1, steps) && Inv(s')
    requires SameCalls(s1, s', x) && !s'.objs[x].satisfying && s'.objs[x].activity == s1.objs[x].activity
    ensures CanEraseRead(s', o) && s'.objs[o].activity.erasing == Some(x)
    ensures ErasedFrom(s, DoEraseRead(s', o), o, x)
  {
    StartReleased(s1, steps);
    assert Evolved(s1.objs[o], s'.objs[o]);
    AfterErase(s', o, x);
  }

  /** Release steps as actions of the protocol. */
  function AsActions(steps: seq<ReleaseStep>): seq<Action> {
    if steps == [] then [] else [Releasing(steps[0])] + AsActions(steps[1..])
  }

  lemma {:induction false} ReleaseLeads(s: State, steps: seq<ReleaseStep>)
    requires PossibleRelease(s, steps)
    ensures LeadsTo(s, AsActions(steps), RunRelease(s, steps))
    decreases |steps|
  {
    if steps != [] {
      var rest := AsActions(steps[1..]);
      ReleaseLeads(DoRelease(s, steps[0]), steps[1..]);
      LeadsOne(s, Releasing(steps[0]));
      LeadsFurther(s, [Releasing(steps[0])], DoRelease(s, steps[0]), rest, RunRelease(s, steps));
    }
  }

  function DropActions(o: Id, x: Id, steps: seq<ReleaseStep>): seq<Action> {
    [DropRead(o, x)] + AsActions(steps) + [EraseRead(o)]
  }

  lemma DropLeads(s: State, o: Id, x: Id, steps: seq<ReleaseStep>, s1: State, s2: State)
    requires CanVisitRead(s, o, x) && s1 == DoDropRead(s, o, x)
    requires PossibleRelease(s1, steps) && s2 == RunRelease(s1, steps) && CanEraseRead(s2, o)
    ensures LeadsTo(s, DropActions(o, x, steps), DoEraseRead(s2, o))
  {
    LeadsOne(s, DropRead(o, x));
    ReleaseLeads(s1, steps);
    LeadsFurther(s, [DropRead(o, x)], s1, AsActions(steps), s2);
    LeadsOne(s2, EraseRead(o));
    LeadsFurther(s, [DropRead(o, x)] + AsActions(steps), s2, [EraseRead(o)], DoEraseRead(s2, o));
  }

  lemma KeepLeads(s: State, o: Id, x: Id)
    requires CanVisitRead(s, o, x)
    ensures LeadsTo(s, [KeepRead(o, x)], DoKeepRead(s, o, x))
  {
    LeadsOne(s, KeepRead(o, x));
  }

  lemma BeginLeads(s: State, o: Id)
    requires MayRelease(s, o)
    ensures LeadsTo(s, [BeginReads(o)], DoBeginReads(s, o))
  {
    LeadsOne(s, BeginReads(o));
  }

  lemma EndLeads(s: State, o: Id)
    requires CanEndReads(s, o)
    ensures LeadsTo(s, [EndReads(o)], SetActivity(s, o, Idle))
  {
    LeadsOne(s, EndReads(o));
  }

  /** An edge that the call consumed cannot come back once its target is submitted. */
  lemma DroppedIsGone(s: State, acts: seq<Action>, s': State, o: Id, x: Id)
    requires Inv(s) && MayRelease(s, o) && x in s.objs[o].successors && LeadsTo(s, acts, s')
    requires x !in Out(s', o) && x in s.objs && !s.objs[x].guarded
    ensures Gone(s', o, x)
  {
    UnguardedStays(s, acts, x);
  }

  lemma AfterErase(s: State, o: Id, x: Id)
    requires CanEraseRead(s, o) && s.objs[o].activity.erasing == Some(x)
    ensures var s' := DoEraseRead(s, o);
      && s'.objs.Keys == s.objs.Keys && (forall y :: y in s.objs && y != o ==> s'.objs[y] == s.objs[y])
      && s'.objs[o] == s.objs[o].(successors := s.objs[o].successors - {x},
                                  activity := ReleasingReads(s.objs[o].activity.pending, None))
  {
  }

  ghost predicate ErasedFrom(s: State, s': State, o: Id, x: Id)
    requires o in s.objs && s.objs[o].activity.ReleasingReads?
  {
    && SameCalls(s, s', o)
    && s'.objs[o].activity == ReleasingReads(s.objs[o].activity.pending - {x}, None)
    && s'.objs[o].successors == s.objs[o].successors - {x}
    && s'.objs[o].satisfying == s.objs[o].satisfying
  }

  lemma LoopClosed(s0: State, steps: seq<ReleaseStep>, s: State, o: Id)
    requires PossibleRelease(s0, steps) && s == RunRelease(s0, steps) && Inv(s) && CanEndFinish(s, o)
    requires SameCalls(s0, s, o) && o in s0.objs && s.objs[o].satisfying == s0.objs[o].satisfying && s.edges <= s0.edges
    ensures var s' := DoEndFinish(s, o);
      && PossibleRelease(s0, steps + [EndFinish(o)]) && s' == RunRelease(s0, steps + [EndFinish(o)])
      && SameCalls(s0, s', o) && s'.objs[o].activity.Idle? && s'.objs[o].satisfying == s0.objs[o].satisfying
      && s'.edges <= s0.edges
      && Inv(s') && Changes(s, s', o, s.objs[o].activity.batch) && SameFields(s.objs[o], s'.objs[o])
  {
    EndFacts(s, o);
    Prepend(s, EndFinish(o), []);
    assert [EndFinish(o)] == [EndFinish(o)] + [];
    ConcatRelease(s0, steps, [EndFinish(o)]);
  }

  lemma PendingExists(s: State, o: Id, x: Id)
    requires Inv(s) && o in s.objs && s.objs[o].activity.ReleasingReads? && x in s.objs[o].activity.pending
    ensures x in s.objs
  {
    assert ActivityOk(s, o);
    assert x in Out(s, o);
  }

  lemma Visited(succ: set<Id>, conflicting: set<Id>, todo: set<Id>, x: Id)
    requires x in todo && todo <= succ
    ensures succ * conflicting + (todo - {x}) ==
      if x in conflicting then succ * conflicting + todo else succ * conflicting + todo - {x}
  {
  }

  lemma SuccessorExists(s: State, o: Id, x: Id)
    requires Inv(s) && MayRelease(s, o) && x in s.objs[o].successors
    ensures x in s.objs
  {
    assert ActivityOk(s, o);
    assert x in Out(s, o);
  }

  lemma LogGrows(released: set<Id>, out: set<Id>, batch: seq<Id>)
    requires out !! released && multiset(batch) == multiset(out)
    ensures |batch| == |out| && multiset(released + out) == multiset(released) + multiset(batch)
  {
    assert |multiset(batch)| == |batch| && |multiset(out)| == |out|;
  }

  lemma TodoExists(s: State, o: Id, x: Id)
    requires Inv(s) && o in s.objs && s.objs[o].activity.Finishing? && x in s.objs[o].activity.todo
    ensures x in s.objs
  {
    assert ActivityOk(s, o);
    assert x in Out(s, o);
  }

  lemma FewerEdges(a: set<(Id, Id)>, b: set<(Id, Id)>)
    requires a <= b
    ensures |a| <= |b|
  {
    assert b == a + (b - a);
  }

  lemma BatchSteps(s: State, o: Id, x: Id)
    requires CanCheckBatch(s, o, x)
    ensures PossibleRelease(s, [CheckBatch(o, x), ReleaseBatch(o)])
    ensures RunRelease(s, [CheckBatch(o, x), ReleaseBatch(o)]) == DoBatch(s, o, x)
  {
    var s1 := DoCheckBatch(s, o, x);
    Prepend(s1, ReleaseBatch(o), []);
    Prepend(s, CheckBatch(o, x), [ReleaseBatch(o)]);
  }

  lemma CreateFacts(s: State, x: Id, kind: Kind)
    requires Inv(s) && CanCreate(s, x)
    ensures var s' := DoCreate(s, x, kind);
      Inv(s') && Released(s') == Released(s) && s'.lists == s.lists && s'.tasksInGraph == s.tasksInGraph
  {
    KeepCreate(s, x, kind);
    assert Released(DoCreate(s, x, kind)) == Released(s);
  }

  /** What addSuccessor and the increment do to the two ends of an edge. */
  ghost predicate Joined(s: State, s': State, u: Id, x: Id) {
    && s'.objs.Keys == s.objs.Keys && s'.lists == s.lists && s'.tasksInGraph == s.tasksInGraph
    && u in s.objs && x in s.objs && Released(s') == Released(s)
    && (forall y {:trigger SameFields(s.objs[y], s'.objs[y])} :: y in s.objs && y != u && y != x ==>
          SameFields(s.objs[y], s'.objs[y]))
    && FieldsOf(s'.objs[u]) == (if u == x then FieldsOf(s.objs[u])
                                else FieldsOf(s.objs[u]).(successors := s.objs[u].successors + {x}))
    && (u != x ==> FieldsOf(s'.objs[x]) == FieldsOf(s.objs[x]).(
          predecessors := Listed(s, u, x),
          numPredecessors := s.objs[x].numPredecessors + if x in s.objs[u].successors then 0 else 1))
  }

  lemma JoinNodes(s: State, u: Id, x: Id)
    requires u in s.objs && x in s.objs
    ensures Joined(s, DoAddEdge(s, u, x), u, x)
  {
    if x in s.objs[u].successors { assert s.objs[u].successors + {x} == s.objs[u].successors; }
    assert Released(DoAddEdge(s, u, x)) == Released(s);
  }

  lemma SubmitFacts(s: State, x: Id)
    requires x in s.objs
    ensures var s' := DoSubmitted(s, x);
      && Released(s') == Released(s) && s'.objs.Keys == s.objs.Keys && s'.lists == s.lists
      && s'.tasksInGraph == s.tasksInGraph + 1
      && (forall y :: y in s.objs && y != x ==> s'.objs[y] == s.objs[y])
      && s'.objs[x] == s.objs[x].(submitted := true, needsSubmission := true)
  {
    assert Released(DoSubmitted(s, x)) == Released(s);
  }

  lemma GuardFacts(s: State, x: Id)
    requires x in s.objs
    ensures var s' := DoDropGuard(s, x);
      && Decreases(s, s', x, null) && SameCalls(s, s', x) && s'.objs[x].activity == s.objs[x].activity
      && (!s.objs[x].satisfying ==> s'.objs[x].satisfying == (s'.objs[x].numPredecessors == 0))
  {
    assert Released(DoDropGuard(s, x)) == Released(s);
  }

  /** finished() on `o` is over, and so is everything it started. */
  ghost predicate FinishedEnd(s: State, s': State, o: Id) {
    && SameCalls(s, s', o) && o in s.objs
    && s'.objs[o].activity.Idle? && s'.objs[o].satisfying == s.objs[o].satisfying
  }

  /** With no other release in progress, none is left over. */
  lemma QuietAgain(s: State, s': State, o: Id)
    requires Quiet(s) && FinishedEnd(s, s', o)
    ensures Quiet(s')
  {
  }

  /** Called with nothing else going on, finished() has one possible outcome, whatever the iteration order
      of the successor sets and whatever is batched, and it is the outcome of single releases only. */
  lemma FinishedOutcome(s: State, o: Id, steps: seq<ReleaseStep>, other: seq<ReleaseStep>)
    returns (single: seq<ReleaseStep>)
    requires Inv(s) && Quiet(s) && MayRelease(s, o)
    requires PossibleRelease(BeginFinish(s, o), steps) && FinishedEnd(s, RunRelease(BeginFinish(s, o), steps), o)
    requires PossibleRelease(BeginFinish(s, o), other) && FinishedEnd(s, RunRelease(BeginFinish(s, o), other), o)
    ensures RunRelease(BeginFinish(s, o), steps) == RunRelease(BeginFinish(s, o), other)
    ensures OneByOne(single) && PossibleRelease(BeginFinish(s, o), single)
    ensures RunRelease(BeginFinish(s, o), single) == RunRelease(BeginFinish(s, o), steps)
  {
    KeepCallFinished(s, o);
    QuietAgain(s, RunRelease(BeginFinish(s, o), steps), o);
    QuietAgain(s, RunRelease(BeginFinish(s, o), other), o);
    ReleaseConfluent(BeginFinish(s, o), steps, other);
    single := BatchRefinesSingle(BeginFinish(s, o), steps);
  }

  /** A task in the graph with submission enabled, whose one remaining predecessor is `o`. */
  ghost predicate WaitsOnlyFor(s: State, o: Id, x: Id) {
    x in s.objs && s.objs[x].kind == Task && s.objs[x].needsSubmission && !s.objs[x].guarded && In(s, x) == {o}
  }

  /** A count of one, read from a predecessor, means: this predecessor and nothing else, not even the guard. */
  lemma OnlyPredecessor(s: State, o: Id, x: Id)
    requires Inv(s) && o in s.objs && x in s.objs
    ensures x in Out(s, o) && s.objs[x].numPredecessors == 1 <==> In(s, x) == {o} && !s.objs[x].guarded
  {
    assert CountOk(s, x);
    if x in Out(s, o) && s.objs[x].numPredecessors == 1 {
      assert o in In(s, x);
      assert |In(s, x) - {o}| == |In(s, x)| - 1;
      assert In(s, x) - {o} == {};
    }
    if In(s, x) == {o} { assert o in In(s, x); }
  }

  /** canBeBatchReleased(), asked from the release loop of `o`. */
  lemma BatchableIff(s: State, o: Id, x: Id)
    requires Inv(s) && CanReleaseSingle(s, o, x)
    ensures DependencyProtocol.CanBeBatchReleased(s.objs[x]) <==> WaitsOnlyFor(s, o, x)
  {
    assert ActivityOk(s, o);
    OnlyPredecessor(s, o, x);
  }

  /** The successors with a count of one, outside any release of `o`. */
  lemma LastPredecessorIff(s: State, o: Id, x: Id)
    requires Inv(s) && MayRelease(s, o) && x in s.objs
    ensures x in s.objs[o].successors && s.objs[x].numPredecessors == 1 <==> In(s, x) == {o} && !s.objs[x].guarded
  {
    assert ActivityOk(s, o);
    OnlyPredecessor(s, o, x);
  }

  class Runtime {
    const lists: bool
    var tasksInGraph: int
    var handedOut: multiset<Id>   // everything given to the scheduler, returned to a caller, or signalled
    ghost var st: State

    ghost predicate Valid()
      reads this, st.objs.Keys
    {
      Inv(st) && Linked()
    }

    /** The real fields are those of the protocol state. */
    ghost predicate Linked()
      reads this, st.objs.Keys
    {
      && st.lists == lists && st.tasksInGraph == tasksInGraph
      && handedOut == multiset(Released(st))
      && (forall o {:trigger Mirrors(o, st.objs[o])} :: o in st.objs ==> Mirrors(o, st.objs[o]))
    }

    constructor (lists: bool)
      ensures Valid() && this.lists == lists && st == Initial(lists) && handedOut == multiset{}
    {
      this.lists := lists;
      tasksInGraph := 0;
      handedOut := multiset{};
      st := Initial(lists);
    }

    // ----- One step at a time -----

    /** The locked decrement; `s1` is the protocol state right after it. */
    method Lower(x: Id, pred: DependableObject?, ghost s1: State) returns (numPred: nat)
      requires Linked() && Decreases(st, s1, x, pred)
      modifies `st, x
      ensures Linked() && st == s1 && numPred == s1.objs[x].numPredecessors
    {
      assert Mirrors(x, st.objs[x]) && Released(s1) == Released(st);
      numPred := x.DecreaseInLock(pred, lists);
      st := s1;
      forall o | o in st.objs ensures Mirrors(o, st.objs[o]) {
        if o != x { assert old(Mirrors(o, st.objs[o])) && SameFields(old(st).objs[o], st.objs[o]); }
      }
    }

    lemma MirrorsCarryOver(x: Id, out: set<Id>, s1: State)
      requires Linked() && Changes(st, s1, x, out) && SameFields(st.objs[x], s1.objs[x])
      ensures forall o {:trigger Mirrors(o, s1.objs[o])} :: o in s1.objs ==> Mirrors(o, s1.objs[o])
    {
      forall o | o in s1.objs ensures Mirrors(o, s1.objs[o]) {
        assert Mirrors(o, st.objs[o]) && SameFields(st.objs[o], s1.objs[o]);
      }
    }

    lemma HandOutFacts(x: Id, out: set<Id>, batch: seq<Id>, s1: State)
      requires Linked() && Changes(st, s1, x, out) && SameFields(st.objs[x], s1.objs[x])
      requires multiset(batch) == multiset(out)
      ensures forall o {:trigger Mirrors(o, s1.objs[o])} :: o in s1.objs ==> Mirrors(o, s1.objs[o])
      ensures s1.lists == lists && s1.tasksInGraph == tasksInGraph - |batch|
      ensures handedOut + multiset(batch) == multiset(Released(s1))
    {
      LogGrows(Released(st), out, batch);
      MirrorsCarryOver(x, out, s1);
    }

    /** `batch` leaves the graph: decreaseTasksInGraph, and on to whoever runs it. */
    method TakeOut(batch: seq<Id>, ghost s1: State)
      requires forall o {:trigger Mirrors(o, s1.objs[o])} :: o in s1.objs ==> Mirrors(o, s1.objs[o])
      requires s1.lists == lists && s1.tasksInGraph == tasksInGraph - |batch|
      requires handedOut + multiset(batch) == multiset(Released(s1))
      modifies `st, `tasksInGraph, `handedOut
      ensures Linked() && st == s1 && handedOut == old(handedOut) + multiset(batch)
    {
      tasksInGraph := tasksInGraph - |batch|;
      handedOut := handedOut + multiset(batch);
      st := s1;
    }

    /** A hand-out that changes no field of any object. */
    method Record(batch: seq<Id>, ghost x: Id, ghost out: set<Id>, ghost s1: State)
      requires Linked() && Changes(st, s1, x, out) && SameFields(st.objs[x], s1.objs[x])
      requires multiset(batch) == multiset(out)
      modifies `st, `tasksInGraph, `handedOut
      ensures Linked() && st == s1
    {
      HandOutFacts(x, out, batch, s1);
      TakeOut(batch, s1);
    }

    /** A task goes to the scheduler if it still needs to, a wait is signalled. */
    method SubmitOrSignal(x: Id, ghost s1: State)
      requires Linked() && x in st.objs && !x.kind.Commutation?
      requires Changes(st, s1, x, SatisfyOut(st.objs[x], x)) && SameFields(st.objs[x], s1.objs[x])
      modifies `st, `tasksInGraph, `handedOut
      ensures Linked() && st == s1
    {
      assert Mirrors(x, st.objs[x]);
      if x.kind.Wait? || x.needsSubmission {
        Record([x], x, {x}, s1);
      } else {
        Record([], x, {}, s1);
      }
    }

    /** finished() drops a reference. */
    method DropReference(x: Id, ghost s1: State)
      requires Linked() && Changes(st, s1, x, {})
      requires SameFields(st.objs[x].(references := Decremented(st.objs[x].references)), s1.objs[x])
      modifies `st, x`references
      ensures Linked() && st == s1
    {
      assert Mirrors(x, st.objs[x]) && Released(s1) == Released(st);
      x.references := Decremented(x.references);
      st := s1;
      forall o | o in st.objs ensures Mirrors(o, st.objs[o]) {
        if o != x { assert old(Mirrors(o, st.objs[o])) && SameFields(old(st).objs[o], st.objs[o]); }
      }
    }

    // ----- decreasePredecessors, dependenciesSatisfied and finished -----

    /** The locked decrement, then dependenciesSatisfied when it reached zero and no batch takes care of it. */
    method DecreasePredecessors(x: Id, pred: DependableObject?, batchRelease: bool, ghost s1: State)
      returns (numPred: nat, ghost steps: seq<ReleaseStep>)
      requires Valid() && Decreases(st, s1, x, pred) && Inv(s1)
      requires s1.objs[x].satisfying == (s1.objs[x].numPredecessors == 0 && !batchRelease)
      modifies this, st.objs.Keys
      ensures Valid() && numPred == s1.objs[x].numPredecessors
      ensures PossibleRelease(s1, steps) && st == RunRelease(s1, steps)
      ensures batchRelease ==> st == s1
      ensures SameCalls(s1, st, x) && !st.objs[x].satisfying && st.objs[x].activity == s1.objs[x].activity
      ensures st.edges <= s1.edges
      decreases |s1.edges|, 5
    {
      numPred := Lower(x, pred, s1);
      steps := [];
      if numPred == 0 && !batchRelease {
        steps := DependenciesSatisfied(x);
      }
    }

    /** dependenciesSatisfied of the three kinds of object; a commutation finishes at once. */
    method DependenciesSatisfied(x: Id) returns (ghost steps: seq<ReleaseStep>)
      requires Valid() && CanSatisfy(st, x)
      modifies this, st.objs.Keys
      ensures Valid() && PossibleRelease(old(st), steps) && st == RunRelease(old(st), steps)
      ensures SameCalls(old(st), st, x) && !st.objs[x].satisfying && st.objs[x].activity == old(st).objs[x].activity
      ensures st.edges <= old(st).edges
      decreases |st.edges|, 4
    {
      ghost var s0 := st;
      assert Mirrors(x, st.objs[x]);
      SatisfyFacts(st, x);
      SatisfyCalls(st, x);
      if x.kind.Commutation? {
        DropReference(x, DoSatisfy(st, x));
        ghost var rest := ReleaseSuccessors(x);
        steps := [Satisfy(x)] + rest;
        Prepend(s0, Satisfy(x), rest);
      } else {
        SubmitOrSignal(x, DoSatisfy(st, x));
        steps := [Satisfy(x)] + [];
        Prepend(s0, Satisfy(x), []);
      }
    }

    /** One successor, released on its own: everything its release triggers is over when this returns. */
    method ReleaseOne(o: Id, x: Id) returns (ghost steps: seq<ReleaseStep>)
      requires Valid() && CanReleaseSingle(st, o, x)
      modifies this, st.objs.Keys
      ensures Valid() && PossibleRelease(old(st), steps) && st == RunRelease(old(st), steps)
      ensures SameCalls(old(st), st, o) && st.objs[o].satisfying == old(st).objs[o].satisfying
      ensures st.objs[o].activity == old(st).objs[o].activity.(todo := old(st).objs[o].activity.todo - {x})
      ensures st.edges <= old(st).edges
      decreases |st.edges|, 0
    {
      ghost var s0 := st;
      SingleFacts(st, o, x);
      SingleChanges(st, o, x);
      var _, more := DecreasePredecessors(x, o, false, DoReleaseSingle(st, o, x));
      steps := [ReleaseSingle(o, x)] + more;
      AfterSingle(s0, o, x, more, st);
    }

    /** One successor, released in the batch: the fatal check on its counter cannot fire. */
    method ReleaseInBatch(o: Id, x: Id) returns (ghost steps: seq<ReleaseStep>)
      requires Valid() && CanCheckBatch(st, o, x)
      modifies this, st.objs.Keys
      ensures Valid() && steps == [CheckBatch(o, x), ReleaseBatch(o)]
      ensures PossibleRelease(old(st), steps) && st == RunRelease(old(st), steps)
      ensures SameCalls(old(st), st, o) && st.objs[o].satisfying == old(st).objs[o].satisfying
      ensures x !in old(st).objs[o].activity.batch
      ensures st.objs[o].activity == old(st).objs[o].activity.(todo := old(st).objs[o].activity.todo - {x},
                                                               batch := old(st).objs[o].activity.batch + {x})
      ensures st.edges <= old(st).edges
      decreases |st.edges|, 0
    {
      ghost var s0 := st;
      BatchFacts(st, o, x);
      BatchNodes(st, o, x);
      var numPred, _ := DecreasePredecessors(x, o, true, DoBatch(st, o, x));
      assert numPred == 0;
      steps := [CheckBatch(o, x), ReleaseBatch(o)];
      BatchSteps(s0, o, x);
    }

    /** The body of the successor loop; `mayBatch` when a batch is being built and the policy allows it. */
    method Visit(o: Id, x: Id, mayBatch: bool) returns (batched: bool, ghost steps: seq<ReleaseStep>)
      requires Valid() && CanReleaseSingle(st, o, x) && (mayBatch ==> st.objs[o].activity.batching)
      modifies this, st.objs.Keys
      ensures Valid() && PossibleRelease(old(st), steps) && st == RunRelease(old(st), steps)
      ensures SameCalls(old(st), st, o) && st.objs[o].satisfying == old(st).objs[o].satisfying
      ensures batched <==> mayBatch && WaitsOnlyFor(old(st), o, x)
      ensures batched ==> x !in old(st).objs[o].activity.batch
      ensures st.objs[o].activity == old(st).objs[o].activity.(
          todo := old(st).objs[o].activity.todo - {x},
          batch := if batched then old(st).objs[o].activity.batch + {x} else old(st).objs[o].activity.batch)
      ensures st.edges <= old(st).edges
      decreases |st.edges|, 1
    {
      assert Mirrors(x, st.objs[x]);
      batched := mayBatch && x.CanBeBatchReleased();
      BatchableIff(st, o, x);
      if batched {
        steps := ReleaseInBatch(o, x);
      } else {
        steps := ReleaseOne(o, x);
      }
    }

    /** The successor loop of finished(), filling the batch array when there is more than one successor. */
    method VisitSuccessors(o: Id) returns (batch: seq<Id>, ghost members: set<Id>, ghost steps: seq<ReleaseStep>)
      requires Valid() && o in st.objs
      requires st.objs[o].activity == Finishing(o.successors, |o.successors| > 1, None, {})
      modifies this, st.objs.Keys
      ensures Valid() && PossibleRelease(old(st), steps) && st == RunRelease(old(st), steps)
      ensures SameCalls(old(st), st, o) && st.objs[o].satisfying == old(st).objs[o].satisfying
      ensures st.objs[o].activity == Finishing({}, old(|o.successors|) > 1, None, members)
      ensures multiset(batch) == multiset(members)
      ensures st.edges <= old(st).edges
      decreases |st.edges|, 2
    {
      ghost var s0 := st;
      var batching := |o.successors| > 1;
      var todo := o.successors;
      batch, members, steps := [], {}, [];
      while todo != {}
        invariant Valid() && PossibleRelease(s0, steps) && st == RunRelease(s0, steps)
        invariant SameCalls(s0, st, o) && st.objs[o].satisfying == s0.objs[o].satisfying
        invariant st.objs[o].activity == Finishing(todo, batching, None, members)
        invariant multiset(batch) == multiset(members)
        invariant st.edges <= s0.edges
        decreases todo
      {
        var x :| x in todo;
        TodoExists(st, o, x);
        FewerEdges(st.edges, s0.edges);
        var valid: bool := *;   // the scheduling policy's isValidForBatch
        var batched, more := Visit(o, x, batching && valid);
        ConcatRelease(s0, steps, more);
        steps := steps + more;
        todo := todo - {x};
        if batched {
          assert x !in members;
          batch := batch + [x];
          members := members + {x};
        }
      }
    }

    /** The successor loop, and the submission of the batch it built. */
    method ReleaseSuccessors(o: Id) returns (ghost steps: seq<ReleaseStep>)
      requires Valid() && o in st.objs
      requires st.objs[o].activity == Finishing(o.successors, |o.successors| > 1, None, {})
      modifies this, st.objs.Keys
      ensures Valid() && PossibleRelease(old(st), steps) && st == RunRelease(old(st), steps)
      ensures SameCalls(old(st), st, o) && st.objs[o].activity.Idle?
      ensures st.objs[o].satisfying == old(st).objs[o].satisfying
      ensures st.edges <= old(st).edges
      decreases |st.edges|, 3
    {
      ghost var s0 := st;
      var batch, members, visits := VisitSuccessors(o);
      LoopClosed(s0, visits, st, o);
      Record(batch, o, members, DoEndFinish(st, o));
      steps := visits + [EndFinish(o)];
    }

    /** finished(): the last reference releases every successor, and everything that follows from it. */
    method Finished(o: Id) returns (ghost steps: seq<ReleaseStep>)
      requires Valid() && MayRelease(st, o)
      modifies this, st.objs.Keys
      ensures Valid()
      ensures PossibleRelease(BeginFinish(old(st), o), steps) && st == RunRelease(BeginFinish(old(st), o), steps)
      ensures FinishedEnd(old(st), st, o)
    {
      assert Mirrors(o, st.objs[o]);
      ghost var s1 := BeginFinish(st, o);
      FinishFacts(st, o);
      DropReference(o, s1);
      assert Mirrors(o, st.objs[o]);
      steps := [];
      if o.references == 0 {
        steps := ReleaseSuccessors(o);
      }
    }

    // ----- Submission -----

    /** A new object, with the guard that keeps it from being released while its edges are added. */
    method Create(kind: Kind, readTargets: seq<Target>, writtenTargets: seq<Target>) returns (x: Id)
      requires Valid()
      modifies `st
      ensures Valid() && fresh(x) && st == DoCreate(old(st), x, kind)
      ensures x.kind == kind && x.readTargets == readTargets && x.writtenTargets == writtenTargets
    {
      x := new DependableObject(kind, readTargets, writtenTargets);
      var _ := x.IncreasePredecessors();
      CreateFacts(st, x, kind);
      st := DoCreate(st, x, kind);
      assert Mirrors(x, st.objs[x]);
      forall y | y in st.objs ensures Mirrors(y, st.objs[y]) {
        if y != x { assert old(Mirrors(y, st.objs[y])); }
      }
    }

    /** addSuccessor, and increasePredecessors exactly when it says that the edge is new. */
    method Connect(u: Id, x: Id)
      modifies u`successors, x`predecessors, x`numPredecessors
      ensures u == x ==> View(u) == old(View(u))
      ensures u != x ==> View(u) == old(View(u)).(successors := old(u.successors) + {x})
      ensures u != x ==> View(x) == old(View(x)).(
          predecessors := if lists then old(x.predecessors) + {u} else old(x.predecessors),
          numPredecessors := old(x.numPredecessors) + if x in old(u.successors) then 0 else 1)
    {
      var inserted := u.AddSuccessor(x, lists);
      if inserted { var _ := x.IncreasePredecessors(); }
    }

    method Join(u: Id, x: Id, ghost s1: State)
      requires Linked() && Joined(st, s1, u, x)
      modifies `st, u, x
      ensures Linked() && st == s1
    {
      assert Mirrors(u, st.objs[u]) && Mirrors(x, st.objs[x]);
      Connect(u, x);
      assert Mirrors(u, s1.objs[u]) && Mirrors(x, s1.objs[x]);
      forall y | y in s1.objs ensures Mirrors(y, s1.objs[y]) {
        if y != u && y != x { assert old(Mirrors(y, st.objs[y])) && SameFields(st.objs[y], s1.objs[y]); }
      }
      st := s1;
    }

    /** The plugin makes `x` depend on `u`. */
    method DependOn(u: Id, x: Id)
      requires Valid() && CanAddEdge(st, u, x)
      modifies `st, u, x
      ensures Valid() && st == DoAddEdge(old(st), u, x)
    {
      KeepAddEdge(st, u, x);
      JoinNodes(st, u, x);
      Join(u, x, DoAddEdge(st, u, x));
    }

    /** increaseTasksInGraph and submitted(). */
    method EnterGraph(x: Id)
      requires Valid() && CanSubmitted(st, x)
      modifies `st, `tasksInGraph, x
      ensures Valid() && st == DoSubmitted(old(st), x)
    {
      KeepSubmitted(st, x);
      SubmitFacts(st, x);
      ghost var s1 := DoSubmitted(st, x);
      assert Mirrors(x, st.objs[x]);
      tasksInGraph := tasksInGraph + 1;
      x.Submitted();
      assert Mirrors(x, s1.objs[x]);
      forall y | y in s1.objs ensures Mirrors(y, s1.objs[y]) {
        if y != x { assert old(Mirrors(y, st.objs[y])); }
      }
      st := s1;
    }

    /** The last step of a submission: the guard goes, and an object without predecessors is released. */
    method DropGuard(x: Id) returns (ghost steps: seq<ReleaseStep>)
      requires Valid() && CanDropGuard(st, x)
      modifies this, st.objs.Keys
      ensures Valid()
      ensures PossibleRelease(DoDropGuard(old(st), x), steps) && st == RunRelease(DoDropGuard(old(st), x), steps)
      ensures SameCalls(old(st), st, x) && !st.objs[x].satisfying && st.objs[x].activity == old(st).objs[x].activity
    {
      KeepDropGuard(st, x);
      assert HandOk(st, x) && CountOk(st, x);
      GuardFacts(st, x);
      var _, more := DecreasePredecessors(x, null, false, DoDropGuard(st, x));
      steps := more;
    }

    // ----- releaseReadDependencies -----

    /** The protocol moves on while no field changes. */
    ghost method Move(o: Id, s1: State)
      requires Linked() && Changes(st, s1, o, {}) && SameFields(st.objs[o], s1.objs[o])
      modifies `st
      ensures Linked() && st == s1
    {
      assert Released(s1) == Released(st);
      MirrorsCarryOver(o, {}, s1);
      st := s1;
    }

    /** The successor just decremented leaves the successor set. */
    method Erase(o: Id, x: Id)
      requires Valid() && CanEraseRead(st, o) && st.objs[o].activity.erasing == Some(x)
      modifies `st, o`successors
      ensures Valid() && st == DoEraseRead(old(st), o)
    {
      EraseFacts(st, o);
      ghost var s1 := DoEraseRead(st, o);
      assert Mirrors(o, st.objs[o]) && Released(s1) == Released(st);
      o.successors := o.successors - {x};
      st := s1;
      forall y | y in st.objs ensures Mirrors(y, st.objs[y]) {
        if y != o { assert old(Mirrors(y, st.objs[y])) && SameFields(old(st).objs[y], st.objs[y]); }
      }
    }

    /** One successor that does not conflict: decremented, everything that follows, then erased. */
    method DropSuccessor(o: Id, x: Id) returns (ghost acts: seq<Action>)
      requires Valid() && CanVisitRead(st, o, x)
      modifies this, st.objs.Keys
      ensures Valid() && ErasedFrom(old(st), st, o, x) && LeadsTo(old(st), acts, st)
    {
      ReadFacts(st, o, x);
      DropReadChanges(st, o, x);
      ghost var s1 := DoDropRead(st, o, x);
      var _, steps := DecreasePredecessors(x, o, false, s1);
      AfterDrop(old(st), s1, o, x, steps, st);
      acts := DropActions(o, x, steps);
      DropLeads(old(st), o, x, steps, s1, st);
      Erase(o, x);
    }

    /** A successor that conflicts stays. */
    ghost method KeepSuccessor(o: Id, x: Id)
      requires Valid() && CanVisitRead(st, o, x)
      modifies `st
      ensures Valid() && st == DoKeepRead(old(st), o, x)
    {
      KeepKeepRead(st, o, x);
      ActivityFacts(st, o, st.objs[o].activity.(pending := st.objs[o].activity.pending - {x}));
      Move(o, DoKeepRead(st, o, x));
    }

    /** The body of the loop: the edge is consumed exactly when nothing conflicts. */
    method VisitRead(o: Id, x: Id, overlap: (Target, Target) -> bool) returns (kept: bool, ghost acts: seq<Action>)
      requires Valid() && CanVisitRead(st, o, x)
      modifies this, st.objs.Keys
      ensures Valid() && kept == Conflicts(overlap, o, x) && SameCalls(old(st), st, o) && LeadsTo(old(st), acts, st)
      ensures st.objs[o].activity == ReleasingReads(old(st).objs[o].activity.pending - {x}, None)
      ensures st.objs[o].successors == if kept then old(st).objs[o].successors else old(st).objs[o].successors - {x}
    {
      var can := CanRemovePredecessor(overlap, o, x);
      kept := !can;
      if can {
        acts := DropSuccessor(o, x);
      } else {
        acts := [KeepRead(o, x)];
        KeepLeads(st, o, x);
        ActivityFacts(st, o, st.objs[o].activity.(pending := st.objs[o].activity.pending - {x}));
        KeepSuccessor(o, x);
      }
    }

    ghost method BeginReadRelease(o: Id)
      requires Valid() && MayRelease(st, o)
      modifies `st
      ensures Valid() && SameCalls(old(st), st, o) && st.objs[o].successors == old(st).objs[o].successors
      ensures st.objs[o].activity == ReleasingReads(old(st).objs[o].successors, None)
      ensures LeadsTo(old(st), [BeginReads(o)], st)
    {
      BeginLeads(st, o);
      KeepBeginReads(st, o);
      ActivityFacts(st, o, ReleasingReads(st.objs[o].successors, None));
      Move(o, DoBeginReads(st, o));
    }

    ghost method EndReadRelease(o: Id)
      requires Valid() && CanEndReads(st, o)
      modifies `st
      ensures Valid() && SameCalls(old(st), st, o) && st.objs[o].successors == old(st).objs[o].successors
      ensures st.objs[o].activity.Idle? && st.objs[o].successors == Out(st, o)
      ensures LeadsTo(old(st), [EndReads(o)], st)
    {
      EndLeads(st, o);
      assert ActivityOk(st, o);
      KeepEndReads(st, o);
      ActivityFacts(st, o, Idle);
      Move(o, SetActivity(st, o, Idle));
      assert ActivityOk(st, o);
    }

    method VisitReads(o: Id, succ: set<Id>, overlap: (Target, Target) -> bool, ghost conflicting: set<Id>)
      returns (ghost acts: seq<Action>)
      requires Valid() && o in st.objs && st.objs[o].activity == ReleasingReads(succ, None)
      requires st.objs[o].successors == succ
      requires forall x :: x in succ ==> (x in conflicting <==> Conflicts(overlap, o, x))
      modifies this, st.objs.Keys
      ensures Valid() && SameCalls(old(st), st, o) && st.objs[o].activity == ReleasingReads({}, None)
      ensures LeadsTo(old(st), acts, st)
      ensures st.objs[o].successors == succ * conflicting
    {
      ghost var s0 := st;
      var todo := succ;
      acts := [];
      while todo != {}
        invariant Valid() && SameCalls(s0, st, o) && LeadsTo(s0, acts, st)
        invariant todo <= succ && st.objs[o].activity == ReleasingReads(todo, None)
        invariant st.objs[o].successors == succ * conflicting + todo
        decreases todo
      {
        var x :| x in todo;
        PendingExists(st, o, x);
        ghost var before := st;
        var keep, more := VisitRead(o, x, overlap);
        LeadsFurther(s0, acts, before, more, st);
        acts := acts + more;
        Visited(succ, conflicting, todo, x);
        todo := todo - {x};
      }
    }

    /** releaseReadDependencies(): steps of the protocol, after which the successors are exactly those that touch
        something this object writes; every other edge was consumed, and for good if its target is submitted. */
    method ReleaseReadDependencies(o: Id, overlap: (Target, Target) -> bool) returns (ghost acts: seq<Action>)
      requires Valid() && MayRelease(st, o)
      modifies this, st.objs.Keys
      ensures Valid() && SameCalls(old(st), st, o) && st.objs[o].activity.Idle?
      ensures LeadsTo(old(st), acts, st)
      ensures forall x :: x in o.successors <==> x in old(o.successors) && (exists w, v ::
        w in o.writtenTargets && (v in x.writtenTargets || v in x.readTargets) && overlap(w, v))
      ensures Out(st, o) == o.successors
      ensures forall x :: x in old(o.successors) && x !in o.successors ==>
        x in old(st).objs && (!old(st).objs[x].guarded ==> Gone(st, o, x))
    {
      ghost var s0 := st;
      assert Mirrors(o, st.objs[o]);
      ghost var conflicting := set x | x in o.successors && Conflicts(overlap, o, x);
      acts := ReleaseReads(o, overlap, conflicting);
      assert Mirrors(o, st.objs[o]);
      forall x ensures Conflicts(overlap, o, x) <==> exists w, v ::
        w in o.writtenTargets && (v in x.writtenTargets || v in x.readTargets) && overlap(w, v)
      {
        ConflictsIff(overlap, o, x);
      }
      forall x | x in old(o.successors) && x !in o.successors
        ensures x in s0.objs && (!s0.objs[x].guarded ==> Gone(st, o, x))
      {
        SuccessorExists(s0, o, x);
        if !s0.objs[x].guarded { DroppedIsGone(s0, acts, st, o, x); }
      }
    }

    method ReleaseReads(o: Id, overlap: (Target, Target) -> bool, ghost conflicting: set<Id>)
      returns (ghost acts: seq<Action>)
      requires Valid() && MayRelease(st, o)
      requires forall x :: x in o.successors ==> (x in conflicting <==> Conflicts(overlap, o, x))
      modifies this, st.objs.Keys
      ensures Valid() && SameCalls(old(st), st, o) && st.objs[o].activity.Idle? && LeadsTo(old(st), acts, st)
      ensures st.objs[o].successors == old(o.successors) * conflicting == Out(st, o)
    {
      ghost var s0 := st;
      assert Mirrors(o, st.objs[o]);
      BeginReadRelease(o);
      ghost var s1 := st;
      assert Mirrors(o, st.objs[o]);
      var visits := VisitReads(o, o.successors, overlap, conflicting);
      ghost var s2 := st;
      EndReadRelease(o);
      LeadsFurther(s0, [BeginReads(o)], s1, visits, s2);
      LeadsFurther(s0, [BeginReads(o)] + visits, s2, [EndReads(o)], st);
      acts := [BeginReads(o)] + visits + [EndReads(o)];
    }

    // ----- releaseImmediateSuccessor -----

    /** The test on a candidate; `allowed` stands for the caller's predicate. */
    predicate Eligible(x: Id, allowed: set<Id>)
      reads x
    {
      x.numPredecessors == 1 && x in allowed && !x.kind.Wait? && x.submitted
    }

    lemma NoneEligible(o: Id, allowed: set<Id>)
      requires Valid() && MayRelease(st, o) && forall x :: x in o.successors ==> !Eligible(x, allowed)
      ensures forall x :: x in allowed && x in st.objs ==>
        !(In(st, x) == {o} && !st.objs[x].guarded && st.objs[x].submitted && st.objs[x].kind != Wait)
    {
      assert Mirrors(o, st.objs[o]);
      forall x | x in allowed && x in st.objs
        ensures !(In(st, x) == {o} && !st.objs[x].guarded && st.objs[x].submitted && st.objs[x].kind != Wait)
      {
        assert Mirrors(x, st.objs[x]);
        LastPredecessorIff(st, o, x);
      }
    }

    /** The chosen successor leaves the set and is looked at again; then the edge is consumed, or put back
        with submission disabled. */
    method DetachSuccessor(o: Id, x: Id, keepDeps: bool)
      requires o != x && x in o.successors && x.numPredecessors == 1
      modifies o`successors, x`numPredecessors, x`predecessors, x`submitted, x`needsSubmission
      ensures View(o) == old(View(o)).(
          successors := if keepDeps then old(o.successors) else old(o.successors) - {x})
      ensures View(x) == if keepDeps then old(View(x)).(submitted := false, needsSubmission := false)
        else old(View(x)).(numPredecessors := 0, predecessors := if lists then {} else old(x.predecessors))
    {
      o.successors := o.successors - {x};
      assert x.numPredecessors == 1;   // the second look
      if keepDeps {
        x.DisableSubmission();
        o.successors := o.successors + {x};
        assert o.successors == old(o.successors);
      } else {
        var _ := x.DecreaseInLock(o, lists);
      }
    }

    /** With the successor detached, every object has the fields it has in `s1`. */
    method Detach(o: Id, x: Id, keepDeps: bool, ghost s1: State)
      requires Linked() && Taken(st, s1, o, x, keepDeps) && x in o.successors && x.numPredecessors == 1
      modifies o, x
      ensures forall y {:trigger Mirrors(y, s1.objs[y])} :: y in s1.objs ==> Mirrors(y, s1.objs[y])
    {
      assert Mirrors(o, st.objs[o]) && Mirrors(x, st.objs[x]);
      DetachSuccessor(o, x, keepDeps);
      TakenFields(st, s1, o, x, keepDeps);
      assert Mirrors(o, s1.objs[o]) && Mirrors(x, s1.objs[x]);
      forall y | y in s1.objs ensures Mirrors(y, s1.objs[y]) {
        if y != o && y != x { assert old(Mirrors(y, st.objs[y])) && SameFields(st.objs[y], s1.objs[y]); }
      }
    }

    /** The hand-over: the successor goes to the caller instead of the scheduler. */
    method TakeSuccessor(o: Id, x: Id, keepDeps: bool, ghost s1: State)
      requires Linked() && Taken(st, s1, o, x, keepDeps) && x in o.successors && x.numPredecessors == 1
      requires x !in Released(st) && Released(s1) == Released(st) + {x}
      modifies this, o, x
      ensures Linked() && st == s1 && handedOut == old(handedOut) + multiset{x}
    {
      LogGrows(Released(st), {x}, [x]);
      Detach(o, x, keepDeps, s1);
      TakeOut([x], s1);
    }

    /** releaseImmediateSuccessor(): returns a successor that waits for this object only, or null when there
        is none.  With keepDeps the edge stays and submission is disabled. */
    method ReleaseImmediateSuccessor(o: Id, allowed: set<Id>, keepDeps: bool) returns (found: DependableObject?)
      requires Valid() && MayRelease(st, o)
      modifies this, st.objs.Keys
      ensures Valid()
      ensures found == null ==> st == old(st) && forall x :: x in allowed && x in old(st).objs ==>
        !(&& In(old(st), x) == {o} && !old(st).objs[x].guarded && old(st).objs[x].submitted
          && old(st).objs[x].kind != Wait)
      ensures found != null ==>
        && found in allowed && found in old(st).objs && In(old(st), found) == {o} && !old(st).objs[found].guarded
        && old(st).objs[found].submitted && old(st).objs[found].kind != Wait
      ensures found != null ==>
        && CanPick(old(st), o, found)
        && CanConfirm(DoPick(old(st), o, found), o) && st == DoConfirm(DoPick(old(st), o, found), o, keepDeps)
        && handedOut == old(handedOut) + multiset{found}
      ensures found != null ==>
        && found in st.objs && ((o, found) in st.edges <==> keepDeps) && (st.objs[found].needsSubmission <==> !keepDeps)
    {
      found := null;
      assert Mirrors(o, st.objs[o]);
      var todo := o.successors;
      while todo != {} && found == null
        invariant todo <= o.successors
        invariant found == null ==> forall x :: x in o.successors - todo ==> !Eligible(x, allowed)
        invariant found != null ==> found in o.successors && Eligible(found, allowed)
        decreases todo
      {
        var x :| x in todo;
        todo := todo - {x};
        if Eligible(x, allowed) {
          found := x;
        }
      }
      if found == null {
        NoneEligible(o, allowed);
      } else {
        SuccessorExists(st, o, found);
        assert Mirrors(found, st.objs[found]);
        LastPredecessorIff(st, o, found);
        TakeFacts(st, o, found, keepDeps);
        TakeNodes(st, o, found, keepDeps);
        EdgeAfterTake(st, o, found, keepDeps);
        TakeReleased(st, DoConfirm(DoPick(st, o, found), o, keepDeps), o, found, keepDeps);
        TakeSuccessor(o, found, keepDeps, DoConfirm(DoPick(st, o, found), o, keepDeps));
      }
    }
  }
}
