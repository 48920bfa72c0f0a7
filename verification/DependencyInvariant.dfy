/** Every step of the release protocol keeps the invariant, one lemma per kind of step. */
module DependencyInvariant {
  import opened Wrappers
  import opened DependableObjects
  import opened DependencyProtocol

  /** Incoming and outgoing edges depend only on the edge set and on which objects exist. */
  lemma SameGraph(s: State, s': State, x: Id)
    requires s'.objs.Keys == s.objs.Keys && s'.edges == s.edges
    ensures In(s', x) == In(s, x) && Out(s', x) == Out(s, x)
  {
    assert forall u :: u in s'.objs <==> u in s.objs;
  }

  /** Consuming (o, x) takes `o` out of the incoming edges of `x`, `x` out of the outgoing edges of `o`,
      and nothing else. */
  lemma ConsumeGraph(s: State, o: Id, x: Id, y: Id)
    requires x in s.objs
    ensures In(Consume(s, o, x), y) == if y == x then In(s, y) - {o} else In(s, y)
    ensures Out(Consume(s, o, x), y) == if y == o then Out(s, y) - {x} else Out(s, y)
  {
  }

  /** The counter and the predecessor list of every object survive the consumption of an edge, and the
      decrement starts from a positive counter. */
  lemma ConsumeCount(s: State, o: Id, x: Id, y: Id)
    requires EdgesOk(s) && (o, x) in s.edges
    requires x in s.objs && CountOk(s, x)
    requires y in s.objs && CountOk(s, y)
    ensures s.objs[x].numPredecessors > 0
    ensures CountOk(Consume(s, o, x), y)
    ensures Consume(s, o, x).objs[x].numPredecessors == s.objs[x].numPredecessors - 1
  {
    var s' := Consume(s, o, x);
    assert o in In(s, x);
    ConsumeGraph(s, o, x, y);
    assert |In(s, x) - {o}| == |In(s, x)| - 1;
    if y == x && s'.objs[x].numPredecessors == 0 {
      assert In(s', x) == {};
    }
  }

  /** An object with one predecessor left has no other incoming edge and no guard. */
  lemma OnlyEdge(s: State, o: Id, x: Id)
    requires EdgesOk(s) && (o, x) in s.edges && x in s.objs && CountOk(s, x) && s.objs[x].numPredecessors == 1
    ensures !s.objs[x].guarded && In(s, x) == {o}
  {
    assert o in In(s, x);
    assert |In(s, x) - {o}| == |In(s, x)| - 1;
    assert In(s, x) == {o} + (In(s, x) - {o});
  }

  // ----- Steps that consume an edge -----

  /** What an edge-consuming step may do: the edge (o, x) goes, `x` is decremented, and besides that only
      the progress of the call on `o` and the fate of `x` change. */
  ghost predicate Consumed(s: State, s': State, o: Id, x: Id) {
    && (o, x) in s.edges && s'.edges == s.edges - {(o, x)}
    && s'.objs.Keys == s.objs.Keys && o in s.objs && x in s.objs && !s.objs[o].activity.Idle?
    && s'.lists == s.lists && s'.clock == s.clock
    && (forall y :: y in s.objs && y != o && y != x ==> s'.objs[y] == s.objs[y])
    && ConsumedTarget(s.objs[x], s'.objs[x], s.lists, o)
    && ConsumedSource(s.objs[o], s'.objs[o])
  }

  ghost predicate ConsumedTarget(n: Node, n': Node, lists: bool, o: Id) {
    && n'.numPredecessors == Decremented(n.numPredecessors)
    && n'.predecessors == DecreaseInLock(n, lists, Some(o)).predecessors
    && n' == n.(numPredecessors := n'.numPredecessors, predecessors := n'.predecessors,
                satisfying := n'.satisfying, batchedBy := n'.batchedBy, handedOut := n'.handedOut)
    && (n.batchedBy.Some? ==> n'.batchedBy == n.batchedBy)
  }

  ghost predicate ConsumedSource(n: Node, n': Node) {
    && n' == n.(successors := n'.successors, activity := n'.activity)
    && (n.activity.Finishing? ==> n'.activity.Finishing? && n.activity.batch <= n'.activity.batch)
  }

  lemma ConsumedGraph(s: State, s': State, o: Id, x: Id, y: Id)
    requires Consumed(s, s', o, x)
    ensures In(s', y) == if y == x then In(s, y) - {o} else In(s, y)
    ensures Out(s', y) == if y == o then Out(s, y) - {x} else Out(s, y)
  {
    SameGraph(Consume(s, o, x), s', y);
    ConsumeGraph(s, o, x, y);
  }

  lemma ConsumedCount(s: State, s': State, o: Id, x: Id, y: Id)
    requires EdgesOk(s) && Consumed(s, s', o, x) && CountOk(s, x) && y in s.objs && CountOk(s, y)
    ensures CountOk(s', y)
    ensures s.objs[x].numPredecessors > 0 && s'.objs[x].numPredecessors == s.objs[x].numPredecessors - 1
  {
    ConsumeCount(s, o, x, y);
    SameGraph(Consume(s, o, x), s', y);
  }

  lemma ConsumedSeal(s: State, s': State, o: Id, x: Id, y: Id)
    requires Consumed(s, s', o, x) && y in s.objs && SealOk(s, y)
    ensures SealOk(s', y)
  {
    ConsumedGraph(s, s', o, x, y);
  }

  lemma ConsumedCounts(s: State, s': State, o: Id, x: Id)
    requires Inv(s) && Consumed(s, s', o, x)
    ensures EdgesOk(s')
    ensures forall y :: y in s'.objs ==> CountOk(s', y)
    ensures forall y :: y in s'.objs ==> SealOk(s', y)
    ensures s.objs[x].numPredecessors > 0 && s'.objs[x].numPredecessors == s.objs[x].numPredecessors - 1
  {
    ConsumedCount(s, s', o, x, x);
    forall y | y in s'.objs ensures CountOk(s', y) { ConsumedCount(s, s', o, x, y); }
    forall y | y in s'.objs ensures SealOk(s', y) { ConsumedSeal(s, s', o, x, y); }
  }

  /** A call in progress on another object is not disturbed: the successor it is about to release has no
      predecessor but that object. */
  lemma StillReady(s: State, s': State, o: Id, x: Id, p: Id, c: Id)
    requires EdgesOk(s) && Consumed(s, s', o, x) && p in s.objs && p != o && HandOk(s, o)
    requires c in Out(s, p) && Ready(s, c) && CountOk(s, c)
    ensures Ready(s', c)
  {
    OnlyEdge(s, p, c);
    assert o in In(s, x);
  }

  lemma ConsumedOtherActivity(s: State, s': State, o: Id, x: Id, p: Id)
    requires EdgesOk(s) && Consumed(s, s', o, x) && p in s.objs && p != o && HandOk(s, o)
    requires ActivityOk(s, p) && forall c :: c in Out(s, p) ==> CountOk(s, c)
    requires s'.objs[o].batchedBy == s.objs[o].batchedBy
    ensures ActivityOk(s', p)
  {
    ConsumedGraph(s, s', o, x, p);
    match s.objs[p].activity
    case Idle =>
    case Finishing(_, _, checked, batch) =>
      if checked.Some? { StillReady(s, s', o, x, p, checked.value); }
    case ReleasingReads(_, _) =>
    case Picked(c) => StillReady(s, s', o, x, p, c);
  }

  lemma ConsumedOtherHand(s: State, s': State, o: Id, x: Id, y: Id)
    requires Consumed(s, s', o, x) && y in s.objs && y != o && y != x && HandOk(s, y)
    ensures HandOk(s', y)
  {
    ConsumedGraph(s, s', o, x, y);
  }

  /** The object the release is about keeps its own standing. */
  lemma ConsumedSourceHand(s: State, s': State, o: Id, x: Id)
    requires Consumed(s, s', o, x) && o != x && HandOk(s, o)
    requires s.objs[o].kind.Commutation? ==> s'.objs[o].activity.Finishing?
    ensures HandOk(s', o)
  {
  }

  /** A released successor that reaches zero is about to be satisfied; it was not handed out unless its
      submission is disabled. */
  lemma TriggeredHand(s: State, s': State, o: Id, x: Id)
    requires Consumed(s, s', o, x) && o != x && CountOk(s, x) && HandOk(s, x) && s.objs[x].numPredecessors > 0
    requires var n, n' := s.objs[x], s'.objs[x];
      n'.satisfying == (n'.numPredecessors == 0) && n'.handedOut == n.handedOut && n'.batchedBy == n.batchedBy
    ensures HandOk(s', x)
  {
    ConsumedGraph(s, s', o, x, x);
  }

  /** The totals only see hand-outs and submission flags. */
  lemma SameTotals(s: State, s': State)
    requires TotalsOk(s) && s'.objs.Keys == s.objs.Keys && !s'.fatal
    requires forall y :: y in s.objs ==>
      s'.objs[y].handedOut == s.objs[y].handedOut && s'.objs[y].needsSubmission == s.objs[y].needsSubmission
    requires s'.tasksInGraph == s.tasksInGraph && s'.decreased == s.decreased
    ensures TotalsOk(s')
  {
    assert Released(s') == Released(s);
    assert Waiting(s') == Waiting(s);
  }

  /** One object leaves the graph, handed out for the first time. */
  lemma HandOutTotals(s: State, s': State, x: Id)
    requires TotalsOk(s) && s'.objs.Keys == s.objs.Keys && !s'.fatal
    requires x in s.objs && s.objs[x].needsSubmission && s.objs[x].handedOut == 0 && s'.objs[x].handedOut == 1
    requires forall y :: y in s.objs && y != x ==>
      s'.objs[y].handedOut == s.objs[y].handedOut && s'.objs[y].needsSubmission == s.objs[y].needsSubmission
    requires s'.tasksInGraph == s.tasksInGraph - 1 && s'.decreased == s.decreased + 1
    ensures TotalsOk(s')
  {
    assert Released(s') == Released(s) + {x};
    assert Waiting(s') == Waiting(s) - {x};
    assert x in Waiting(s);
  }

  /** One object enters the graph. */
  lemma EnterTotals(s: State, s': State, x: Id)
    requires TotalsOk(s) && s'.objs.Keys == s.objs.Keys && !s'.fatal
    requires x in s.objs && !s.objs[x].needsSubmission && s'.objs[x].needsSubmission
    requires s.objs[x].handedOut == 0 && s'.objs[x].handedOut == 0
    requires forall y :: y in s.objs && y != x ==>
      s'.objs[y].handedOut == s.objs[y].handedOut && s'.objs[y].needsSubmission == s.objs[y].needsSubmission
    requires s'.tasksInGraph == s.tasksInGraph + 1 && s'.decreased == s.decreased
    ensures TotalsOk(s')
  {
    assert Released(s') == Released(s);
    assert Waiting(s') == Waiting(s) + {x};
  }

  ghost predicate ConsumedTotals(s: State, s': State, x: Id)
    requires x in s.objs && x in s'.objs
  {
    || (s'.objs[x].handedOut == s.objs[x].handedOut && s'.tasksInGraph == s.tasksInGraph && s'.decreased == s.decreased)
    || (&& s.objs[x].needsSubmission && s.objs[x].handedOut == 0 && s'.objs[x].handedOut == 1
        && s'.tasksInGraph == s.tasksInGraph - 1 && s'.decreased == s.decreased + 1)
  }

  lemma ConsumedTotalsOk(s: State, s': State, o: Id, x: Id)
    requires TotalsOk(s) && Consumed(s, s', o, x) && o != x && !s'.fatal && ConsumedTotals(s, s', x)
    ensures TotalsOk(s')
  {
    if s'.objs[x].handedOut == s.objs[x].handedOut { SameTotals(s, s'); } else { HandOutTotals(s, s', x); }
  }

  /** Whatever kind of release it was, only the object it is about and the released successor need looking at. */
  lemma ConsumedKeeps(s: State, s': State, o: Id, x: Id)
    requires Inv(s) && Consumed(s, s', o, x) && o != x && !s'.fatal && ConsumedTotals(s, s', x)
    requires s.objs[o].kind.Commutation? ==> s'.objs[o].activity.Finishing?
    requires ActivityOk(s', o) && HandOk(s', x)
    ensures Inv(s')
  {
    ConsumedCounts(s, s', o, x);
    forall p | p in s'.objs ensures ActivityOk(s', p) {
      if p != o { ConsumedOtherActivity(s, s', o, x, p); }
    }
    forall y | y in s'.objs ensures HandOk(s', y) {
      if y == o { ConsumedSourceHand(s, s', o, x); } else if y != x { ConsumedOtherHand(s, s', o, x, y); }
    }
    ConsumedTotalsOk(s, s', o, x);
  }

  /** A single release, from finished() or from releaseReadDependencies(). */
  lemma LocalRelease(s: State, o: Id, x: Id, a: Activity, s': State)
    requires EdgesOk(s) && o in s.objs && !s.objs[o].activity.Idle? && x in Out(s, o) && s' == Release(s, o, x, a)
      && !s.fatal
    requires s.objs[o].activity.Finishing? ==> a.Finishing? && a.batch == s.objs[o].activity.batch
    requires CountOk(s, x) && HandOk(s, x)
    ensures Consumed(s, s', o, x) && o != x && !s'.fatal && ConsumedTotals(s, s', x)
    ensures s'.objs[o] == s.objs[o].(activity := a) && s'.objs[x].batchedBy == s.objs[x].batchedBy
    ensures HandOk(s', x)
  {
    assert Consumed(s, s', o, x);
    ConsumedCount(s, s', o, x, x);
    TriggeredHand(s, s', o, x);
  }

  lemma LocalReleaseSingle(s: State, o: Id, x: Id)
    requires EdgesOk(s) && !s.fatal && CanReleaseSingle(s, o, x)
    requires ActivityOk(s, o) && HandOk(s, o) && CountOk(s, x) && HandOk(s, x)
    ensures var s' := DoReleaseSingle(s, o, x);
      && Consumed(s, s', o, x) && o != x && !s'.fatal && ConsumedTotals(s, s', x)
      && (s.objs[o].kind.Commutation? ==> s'.objs[o].activity.Finishing?)
      && ActivityOk(s', o) && HandOk(s', x)
  {
    var a := s.objs[o].activity.(todo := s.objs[o].activity.todo - {x});
    LocalRelease(s, o, x, a, Release(s, o, x, a));
    ConsumedGraph(s, Release(s, o, x, a), o, x, o);
  }

  lemma KeepReleaseSingle(s: State, o: Id, x: Id)
    requires Inv(s) && CanReleaseSingle(s, o, x)
    ensures Inv(DoReleaseSingle(s, o, x))
  {
    LocalReleaseSingle(s, o, x);
    ConsumedKeeps(s, DoReleaseSingle(s, o, x), o, x);
  }

  lemma LocalDropRead(s: State, o: Id, x: Id)
    requires EdgesOk(s) && !s.fatal && CanVisitRead(s, o, x)
    requires ActivityOk(s, o) && HandOk(s, o) && CountOk(s, x) && HandOk(s, x)
    ensures var s' := DoDropRead(s, o, x);
      && Consumed(s, s', o, x) && o != x && !s'.fatal && ConsumedTotals(s, s', x)
      && (s.objs[o].kind.Commutation? ==> s'.objs[o].activity.Finishing?)
      && ActivityOk(s', o) && HandOk(s', x)
  {
    var a := ReleasingReads(s.objs[o].activity.pending - {x}, Some(x));
    LocalRelease(s, o, x, a, Release(s, o, x, a));
    ConsumedGraph(s, Release(s, o, x, a), o, x, o);
  }

  lemma KeepDropRead(s: State, o: Id, x: Id)
    requires Inv(s) && CanVisitRead(s, o, x)
    ensures Inv(DoDropRead(s, o, x))
  {
    LocalDropRead(s, o, x);
    ConsumedKeeps(s, DoDropRead(s, o, x), o, x);
  }

  lemma LocalReleaseBatch(s: State, o: Id, s': State)
    requires EdgesOk(s) && CanReleaseBatch(s, o) && s' == DoReleaseBatch(s, o) && !s.fatal
    requires ActivityOk(s, o) && HandOk(s, o) && CountOk(s, s.objs[o].activity.checked.value)
      && HandOk(s, s.objs[o].activity.checked.value)
    ensures Consumed(s, s', o, s.objs[o].activity.checked.value) && o != s.objs[o].activity.checked.value && !s'.fatal
      && ConsumedTotals(s, s', s.objs[o].activity.checked.value)
    ensures s.objs[o].kind.Commutation? ==> s'.objs[o].activity.Finishing?
    ensures ActivityOk(s', o) && HandOk(s', s.objs[o].activity.checked.value)
  {
    var x := s.objs[o].activity.checked.value;
    assert x in Out(s, o);
    ConsumedCount(s, s', o, x, x);
    ConsumedGraph(s, s', o, x, o);
    ConsumedGraph(s, s', o, x, x);
  }

  lemma KeepReleaseBatch(s: State, o: Id)
    requires Inv(s) && CanReleaseBatch(s, o)
    ensures Inv(DoReleaseBatch(s, o))
  {
    LocalReleaseBatch(s, o, DoReleaseBatch(s, o));
    ConsumedKeeps(s, DoReleaseBatch(s, o), o, s.objs[o].activity.checked.value);
  }

  // ----- Steps that change one object and no edge -----

  /** A call in progress on the object of `n` is about to release `c`. */
  ghost predicate Watches(n: Node, c: Id) {
    (n.activity.Finishing? && n.activity.checked == Some(c)) || (n.activity.Picked? && n.activity.chosen == c)
  }

  /** Only `o` changes, and neither its counter, its predecessor list nor its guard. */
  ghost predicate Touched(s: State, s': State, o: Id) {
    && s'.edges == s.edges && s'.objs.Keys == s.objs.Keys && o in s.objs
    && s'.lists == s.lists && s'.clock == s.clock
    && (forall y :: y in s.objs && y != o ==> s'.objs[y] == s.objs[y])
    && (var n, n' := s.objs[o], s'.objs[o];
        && n'.numPredecessors == n.numPredecessors && n'.predecessors == n.predecessors
        && n'.guarded == n.guarded && n'.sealed == n.sealed && n'.batchedBy == n.batchedBy
        && (n.activity.Finishing? ==> n'.activity.Finishing? && n.activity.batch <= n'.activity.batch)
        && ((Ready(s, o) ==> Ready(s', o)) || forall p :: p in s.objs ==> !Watches(s.objs[p], o)))
  }

  lemma TouchedNode(s: State, s': State, o: Id, y: Id)
    requires Touched(s, s', o) && y in s.objs
    requires CountOk(s, y) && SealOk(s, y)
    ensures CountOk(s', y) && SealOk(s', y)
  {
    SameGraph(s, s', y);
  }

  lemma TouchedOther(s: State, s': State, o: Id, y: Id)
    requires Touched(s, s', o) && y in s.objs && y != o
    requires ActivityOk(s, y) && HandOk(s, y)
    ensures ActivityOk(s', y) && HandOk(s', y)
  {
    SameGraph(s, s', y);
  }

  lemma TouchedKeeps(s: State, s': State, o: Id)
    requires Inv(s) && Touched(s, s', o) && ActivityOk(s', o) && HandOk(s', o) && TotalsOk(s')
    ensures Inv(s')
  {
    forall y | y in s'.objs ensures CountOk(s', y) && SealOk(s', y) { TouchedNode(s, s', o, y); }
    forall y | y in s'.objs ensures ActivityOk(s', y) && HandOk(s', y) {
      if y != o { TouchedOther(s, s', o, y); }
    }
  }

  lemma LocalIncreaseReferences(s: State, x: Id)
    requires CanIncreaseReferences(s, x) && ActivityOk(s, x) && HandOk(s, x)
    requires TotalsOk(s)
    ensures var s' := DoIncreaseReferences(s, x);
      Touched(s, s', x) && ActivityOk(s', x) && HandOk(s', x) && TotalsOk(s')
  {
    SameTotals(s, DoIncreaseReferences(s, x));
    SameGraph(s, DoIncreaseReferences(s, x), x);
  }

  lemma KeepIncreaseReferences(s: State, x: Id)
    requires Inv(s) && CanIncreaseReferences(s, x)
    ensures Inv(DoIncreaseReferences(s, x))
  {
    LocalIncreaseReferences(s, x);
    TouchedKeeps(s, DoIncreaseReferences(s, x), x);
  }

  lemma LocalSubmitted(s: State, x: Id)
    requires CanSubmitted(s, x) && ActivityOk(s, x) && HandOk(s, x) && CountOk(s, x)
    requires TotalsOk(s)
    ensures var s' := DoSubmitted(s, x); Touched(s, s', x) && ActivityOk(s', x) && HandOk(s', x) && TotalsOk(s')
  {
    EnterTotals(s, DoSubmitted(s, x), x);
    SameGraph(s, DoSubmitted(s, x), x);
  }

  lemma KeepSubmitted(s: State, x: Id)
    requires Inv(s) && CanSubmitted(s, x)
    ensures Inv(DoSubmitted(s, x))
  {
    LocalSubmitted(s, x);
    TouchedKeeps(s, DoSubmitted(s, x), x);
  }

  lemma SatisfyTotals(s: State, x: Id)
    requires CanSatisfy(s, x) && HandOk(s, x) && CountOk(s, x) && TotalsOk(s)
    ensures TotalsOk(DoSatisfy(s, x))
  {
    if DoSatisfy(s, x).objs[x].handedOut == s.objs[x].handedOut {
      SameTotals(s, DoSatisfy(s, x));
    } else {
      HandOutTotals(s, DoSatisfy(s, x), x);
    }
  }

  lemma LocalSatisfy(s: State, x: Id)
    requires CanSatisfy(s, x) && ActivityOk(s, x) && HandOk(s, x) && CountOk(s, x)
    ensures var s' := DoSatisfy(s, x); Touched(s, s', x) && ActivityOk(s', x) && HandOk(s', x)
  {
    if s.objs[x].kind.Commutation? { LocalSatisfyCommutation(s, x); } else { LocalSatisfyOther(s, x); }
  }

  lemma LocalSatisfyCommutation(s: State, x: Id)
    requires CanSatisfy(s, x) && ActivityOk(s, x) && HandOk(s, x) && CountOk(s, x) && s.objs[x].kind.Commutation?
    ensures var s' := DoSatisfy(s, x); Touched(s, s', x) && ActivityOk(s', x) && HandOk(s', x)
  {
    SameGraph(s, DoSatisfy(s, x), x);
  }

  lemma LocalSatisfyOther(s: State, x: Id)
    requires CanSatisfy(s, x) && ActivityOk(s, x) && HandOk(s, x) && CountOk(s, x) && !s.objs[x].kind.Commutation?
    ensures var s' := DoSatisfy(s, x); Touched(s, s', x) && ActivityOk(s', x) && HandOk(s', x)
  {
    SameGraph(s, DoSatisfy(s, x), x);
  }

  lemma KeepSatisfy(s: State, x: Id)
    requires Inv(s) && CanSatisfy(s, x)
    ensures Inv(DoSatisfy(s, x))
  {
    LocalSatisfy(s, x);
    SatisfyTotals(s, x);
    TouchedKeeps(s, DoSatisfy(s, x), x);
  }

  lemma LocalCallFinished(s: State, o: Id)
    requires MayRelease(s, o) && ActivityOk(s, o) && HandOk(s, o)
    requires TotalsOk(s)
    ensures var s' := BeginFinish(s, o); Touched(s, s', o) && ActivityOk(s', o) && HandOk(s', o) && TotalsOk(s')
  {
    SameTotals(s, BeginFinish(s, o));
    SameGraph(s, BeginFinish(s, o), o);
  }

  lemma KeepCallFinished(s: State, o: Id)
    requires Inv(s) && MayRelease(s, o)
    ensures Inv(BeginFinish(s, o))
  {
    LocalCallFinished(s, o);
    TouchedKeeps(s, BeginFinish(s, o), o);
  }

  lemma LocalCheckBatch(s: State, o: Id, x: Id)
    requires CanCheckBatch(s, o, x) && ActivityOk(s, o) && HandOk(s, o) && HandOk(s, x)
    requires TotalsOk(s)
    ensures var s' := DoCheckBatch(s, o, x); Touched(s, s', o) && ActivityOk(s', o) && HandOk(s', o) && TotalsOk(s')
  {
    SameTotals(s, DoCheckBatch(s, o, x));
    SameGraph(s, DoCheckBatch(s, o, x), o);
  }

  lemma KeepCheckBatch(s: State, o: Id, x: Id)
    requires Inv(s) && CanCheckBatch(s, o, x)
    ensures Inv(DoCheckBatch(s, o, x))
  {
    LocalCheckBatch(s, o, x);
    TouchedKeeps(s, DoCheckBatch(s, o, x), o);
  }

  lemma LocalBeginReads(s: State, o: Id)
    requires MayRelease(s, o) && ActivityOk(s, o) && HandOk(s, o)
    requires TotalsOk(s)
    ensures var s' := DoBeginReads(s, o); Touched(s, s', o) && ActivityOk(s', o) && HandOk(s', o) && TotalsOk(s')
  {
    SameTotals(s, DoBeginReads(s, o));
    SameGraph(s, DoBeginReads(s, o), o);
  }

  lemma KeepBeginReads(s: State, o: Id)
    requires Inv(s) && MayRelease(s, o)
    ensures Inv(DoBeginReads(s, o))
  {
    LocalBeginReads(s, o);
    TouchedKeeps(s, DoBeginReads(s, o), o);
  }

  lemma LocalEraseRead(s: State, o: Id)
    requires CanEraseRead(s, o) && ActivityOk(s, o) && HandOk(s, o)
    requires TotalsOk(s)
    ensures var s' := DoEraseRead(s, o); Touched(s, s', o) && ActivityOk(s', o) && HandOk(s', o) && TotalsOk(s')
  {
    SameTotals(s, DoEraseRead(s, o));
    SameGraph(s, DoEraseRead(s, o), o);
  }

  lemma KeepEraseRead(s: State, o: Id)
    requires Inv(s) && CanEraseRead(s, o)
    ensures Inv(DoEraseRead(s, o))
  {
    LocalEraseRead(s, o);
    TouchedKeeps(s, DoEraseRead(s, o), o);
  }

  lemma LocalKeepRead(s: State, o: Id, x: Id)
    requires CanVisitRead(s, o, x) && ActivityOk(s, o) && HandOk(s, o)
    requires TotalsOk(s)
    ensures var s' := DoKeepRead(s, o, x); Touched(s, s', o) && ActivityOk(s', o) && HandOk(s', o) && TotalsOk(s')
  {
    SameTotals(s, DoKeepRead(s, o, x));
    SameGraph(s, DoKeepRead(s, o, x), o);
  }

  lemma KeepKeepRead(s: State, o: Id, x: Id)
    requires Inv(s) && CanVisitRead(s, o, x)
    ensures Inv(DoKeepRead(s, o, x))
  {
    LocalKeepRead(s, o, x);
    TouchedKeeps(s, DoKeepRead(s, o, x), o);
  }

  lemma LocalEndReads(s: State, o: Id)
    requires CanEndReads(s, o) && ActivityOk(s, o) && HandOk(s, o)
    requires TotalsOk(s)
    ensures var s' := SetActivity(s, o, Idle); Touched(s, s', o) && ActivityOk(s', o) && HandOk(s', o) && TotalsOk(s')
  {
    SameTotals(s, SetActivity(s, o, Idle));
    SameGraph(s, SetActivity(s, o, Idle), o);
  }

  lemma KeepEndReads(s: State, o: Id)
    requires Inv(s) && CanEndReads(s, o)
    ensures Inv(SetActivity(s, o, Idle))
  {
    LocalEndReads(s, o);
    TouchedKeeps(s, SetActivity(s, o, Idle), o);
  }

  lemma LocalPick(s: State, o: Id, x: Id)
    requires CanPick(s, o, x) && ActivityOk(s, o) && HandOk(s, o) && HandOk(s, x)
    requires TotalsOk(s)
    ensures var s' := DoPick(s, o, x); Touched(s, s', o) && ActivityOk(s', o) && HandOk(s', o) && TotalsOk(s')
  {
    SameTotals(s, DoPick(s, o, x));
    SameGraph(s, DoPick(s, o, x), o);
  }

  lemma KeepPick(s: State, o: Id, x: Id)
    requires Inv(s) && CanPick(s, o, x)
    ensures Inv(DoPick(s, o, x))
  {
    LocalPick(s, o, x);
    TouchedKeeps(s, DoPick(s, o, x), o);
  }

  // ----- releaseImmediateSuccessor -----

  lemma LocalConfirmRelease(s: State, o: Id, s': State)
    requires EdgesOk(s) && CanConfirm(s, o) && s' == DoConfirm(s, o, false) && !s.fatal
    requires ActivityOk(s, o) && HandOk(s, o) && CountOk(s, s.objs[o].activity.chosen)
      && HandOk(s, s.objs[o].activity.chosen)
    ensures Consumed(s, s', o, s.objs[o].activity.chosen) && o != s.objs[o].activity.chosen && !s'.fatal
      && ConsumedTotals(s, s', s.objs[o].activity.chosen)
    ensures s.objs[o].kind.Commutation? ==> s'.objs[o].activity.Finishing?
    ensures ActivityOk(s', o) && HandOk(s', s.objs[o].activity.chosen)
  {
    var x := s.objs[o].activity.chosen;
    assert x in Out(s, o);
    ConsumedCount(s, s', o, x, x);
    ConsumedGraph(s, s', o, x, o);
    ConsumedGraph(s, s', o, x, x);
  }

  lemma KeepConfirmRelease(s: State, o: Id)
    requires Inv(s) && CanConfirm(s, o)
    ensures Inv(DoConfirm(s, o, false))
  {
    LocalConfirmRelease(s, o, DoConfirm(s, o, false));
    ConsumedKeeps(s, DoConfirm(s, o, false), o, s.objs[o].activity.chosen);
  }

  lemma KeepPutBack(s: State, o: Id)
    requires Inv(s) && CanConfirm(s, o)
    ensures Inv(PutBack(s, o))
  {
    assert ActivityOk(s, o) && HandOk(s, o);
    LocalPutBack(s, o);
    TouchedKeeps(s, PutBack(s, o), o);
  }

  lemma LocalPutBack(s: State, o: Id)
    requires CanConfirm(s, o) && ActivityOk(s, o) && HandOk(s, o) && TotalsOk(s)
    ensures var s' := PutBack(s, o); Touched(s, s', o) && ActivityOk(s', o) && HandOk(s', o) && TotalsOk(s')
  {
    SameTotals(s, PutBack(s, o));
    SameGraph(s, PutBack(s, o), o);
  }

  lemma LocalHandOver(s: State, x: Id)
    requires Ready(s, x) && ActivityOk(s, x) && HandOk(s, x) && TotalsOk(s) && !s.objs[x].guarded
    requires forall p :: p in s.objs ==> !Watches(s.objs[p], x)
    ensures var s' := HandOver(s, x); Touched(s, s', x) && ActivityOk(s', x) && HandOk(s', x) && TotalsOk(s')
  {
    HandOutTotals(s, HandOver(s, x), x);
    SameGraph(s, HandOver(s, x), x);
  }

  /** Nobody else can be about to release a successor whose only predecessor is `o`. */
  lemma OnlyWatcher(s: State, o: Id, x: Id)
    requires Inv(s) && (o, x) in s.edges && x in s.objs && s.objs[x].numPredecessors == 1 && s.objs[o].activity.Idle?
    ensures !s.objs[x].guarded
    ensures forall p :: p in s.objs ==> !Watches(s.objs[p], x)
  {
    assert CountOk(s, x);
    OnlyEdge(s, o, x);
    forall p | p in s.objs && p != o ensures !Watches(s.objs[p], x) {
      assert ActivityOk(s, p);
      assert p !in In(s, x);
      assert x !in Out(s, p);
    }
  }

  lemma KeepConfirmKeep(s: State, o: Id)
    requires Inv(s) && CanConfirm(s, o)
    ensures Inv(DoConfirm(s, o, true))
  {
    var x := s.objs[o].activity.chosen;
    assert ActivityOk(s, o) && HandOk(s, o);
    assert x in Out(s, o);
    KeepPutBack(s, o);
    var s1 := PutBack(s, o);
    assert ActivityOk(s1, x) && HandOk(s1, x);
    OnlyWatcher(s1, o, x);
    LocalHandOver(s1, x);
    TouchedKeeps(s1, HandOver(s1, x), x);
    assert DoConfirm(s, o, true) == HandOver(s1, x);
  }

  // ----- The end of finished() -----

  /** A whole batch leaves the graph, each member handed out for the first time. */
  lemma BatchTotals(s: State, s': State, batch: set<Id>)
    requires TotalsOk(s) && s'.objs.Keys == s.objs.Keys && !s'.fatal
    requires forall y :: y in batch ==>
      y in s.objs && s.objs[y].needsSubmission && s.objs[y].handedOut == 0 && s'.objs[y].handedOut == 1
    requires forall y :: y in s.objs && y !in batch ==>
      s'.objs[y].handedOut == s.objs[y].handedOut && s'.objs[y].needsSubmission == s.objs[y].needsSubmission
    requires s'.tasksInGraph == s.tasksInGraph - |batch| && s'.decreased == s.decreased + |batch|
    ensures TotalsOk(s')
  {
    assert Released(s') == Released(s) + batch;
    assert Waiting(s') == Waiting(s) - batch;
    Leaving(Released(s), Waiting(s), batch);
  }

  lemma Leaving(released: set<Id>, waiting: set<Id>, batch: set<Id>)
    requires batch <= waiting && batch !! released
    ensures |released + batch| == |released| + |batch| && |waiting - batch| == |waiting| - |batch|
  {
    assert waiting == batch + (waiting - batch);
  }

  lemma EndFinishTotals(s: State, o: Id, batch: set<Id>)
    requires TotalsOk(s) && CanEndFinish(s, o) && batch == s.objs[o].activity.batch
    requires forall y :: y in batch ==> y in s.objs && s.objs[y].needsSubmission && s.objs[y].handedOut == 0
    ensures TotalsOk(DoEndFinish(s, o))
  {
    BatchTotals(s, DoEndFinish(s, o), batch);
  }

  lemma EndFinishNode(s: State, o: Id, y: Id)
    requires CanEndFinish(s, o) && ActivityOk(s, o) && y in s.objs
    requires CountOk(s, y) && SealOk(s, y) && HandOk(s, y) && ActivityOk(s, y)
    requires y in s.objs[o].activity.batch ==> s.objs[y].batchedBy == Some(o)
    ensures var s' := DoEndFinish(s, o); CountOk(s', y) && SealOk(s', y) && HandOk(s', y)
  {
    SameGraph(s, DoEndFinish(s, o), y);
  }

  lemma EndFinishActivity(s: State, o: Id, p: Id)
    requires CanEndFinish(s, o) && ActivityOk(s, o) && p in s.objs && ActivityOk(s, p)
    requires forall y :: y in s.objs[o].activity.batch ==> s.objs[y].numPredecessors == 0
    ensures ActivityOk(DoEndFinish(s, o), p)
  {
    SameGraph(s, DoEndFinish(s, o), p);
  }

  lemma KeepEndFinish(s: State, o: Id)
    requires Inv(s) && CanEndFinish(s, o)
    ensures Inv(DoEndFinish(s, o))
  {
    var s' := DoEndFinish(s, o);
    assert ActivityOk(s, o);
    assert s'.objs.Keys == s.objs.Keys;
    forall y | y in s'.objs ensures CountOk(s', y) && SealOk(s', y) && HandOk(s', y) { EndFinishNode(s, o, y); }
    assert forall y :: y in s.objs[o].activity.batch ==> HandOk(s, y) && s.objs[y].numPredecessors == 0;
    forall p | p in s'.objs ensures ActivityOk(s', p) { EndFinishActivity(s, o, p); }
    assert forall y :: y in s.objs[o].activity.batch ==> s.objs[y].needsSubmission && s.objs[y].handedOut == 0;
    EndFinishTotals(s, o, s.objs[o].activity.batch);
  }

  // ----- Submission -----

  lemma CreateGraph(s: State, x: Id, kind: Kind, y: Id)
    requires EdgesOk(s) && CanCreate(s, x)
    ensures In(DoCreate(s, x, kind), y) == In(s, y) && Out(DoCreate(s, x, kind), y) == Out(s, y)
    ensures y == x ==> In(s, y) == {} && Out(s, y) == {}
  {
    assert (x, y) !in s.edges && (y, x) !in s.edges;
  }

  lemma CreateOther(s: State, x: Id, kind: Kind, y: Id)
    requires EdgesOk(s) && CanCreate(s, x) && y in s.objs
    requires CountOk(s, y) && SealOk(s, y) && HandOk(s, y) && ActivityOk(s, y)
    ensures var s' := DoCreate(s, x, kind); CountOk(s', y) && SealOk(s', y) && HandOk(s', y) && ActivityOk(s', y)
  {
    CreateGraph(s, x, kind, y);
  }

  lemma CreateNew(s: State, x: Id, kind: Kind)
    requires EdgesOk(s) && CanCreate(s, x)
    ensures var s' := DoCreate(s, x, kind); CountOk(s', x) && SealOk(s', x) && HandOk(s', x) && ActivityOk(s', x)
  {
    CreateGraph(s, x, kind, x);
  }

  lemma CreateTotals(s: State, x: Id, kind: Kind)
    requires CanCreate(s, x) && TotalsOk(s)
    ensures TotalsOk(DoCreate(s, x, kind))
  {
    var s' := DoCreate(s, x, kind);
    assert Released(s') == Released(s);
    assert Waiting(s') == Waiting(s);
  }

  lemma KeepCreate(s: State, x: Id, kind: Kind)
    requires Inv(s) && CanCreate(s, x)
    ensures Inv(DoCreate(s, x, kind))
  {
    var s' := DoCreate(s, x, kind);
    CreateNew(s, x, kind);
    forall y | y in s'.objs ensures CountOk(s', y) && SealOk(s', y) && HandOk(s', y) && ActivityOk(s', y) {
      if y != x { CreateOther(s, x, kind, y); }
    }
    CreateTotals(s, x, kind);
  }

  lemma LocalDropGuard(s: State, x: Id)
    requires CanDropGuard(s, x) && CountOk(s, x) && SealOk(s, x) && HandOk(s, x) && ActivityOk(s, x)
    requires forall u :: u in In(s, x) ==> SealOk(s, u)
    ensures var s' := DoDropGuard(s, x); CountOk(s', x) && SealOk(s', x) && HandOk(s', x) && ActivityOk(s', x)
  {
    SameGraph(s, DoDropGuard(s, x), x);
  }

  lemma DropGuardOther(s: State, x: Id, y: Id)
    requires CanDropGuard(s, x) && y in s.objs && y != x && CountOk(s, y) && SealOk(s, y) && HandOk(s, y)
    ensures var s' := DoDropGuard(s, x); CountOk(s', y) && SealOk(s', y) && HandOk(s', y)
  {
    SameGraph(s, DoDropGuard(s, x), y);
  }

  lemma DropGuardActivity(s: State, x: Id, p: Id)
    requires CanDropGuard(s, x) && p in s.objs && p != x && EdgesOk(s) && CountOk(s, x) && ActivityOk(s, p)
    ensures ActivityOk(DoDropGuard(s, x), p)
  {
    SameGraph(s, DoDropGuard(s, x), p);
    NotWatched(s, p, x);
  }

  /** A guarded object has more than one release to wait for, so no call is about to release it. */
  lemma NotWatched(s: State, p: Id, x: Id)
    requires EdgesOk(s) && p in s.objs && ActivityOk(s, p) && x in s.objs && CountOk(s, x) && s.objs[x].guarded
    ensures !Watches(s.objs[p], x)
  {
    if Watches(s.objs[p], x) {
      assert x in Out(s, p);
      OnlyEdge(s, p, x);
    }
  }

  lemma DropGuardTotals(s: State, x: Id)
    requires CanDropGuard(s, x) && TotalsOk(s)
    ensures TotalsOk(DoDropGuard(s, x))
  {
    SameTotals(s, DoDropGuard(s, x));
  }

  lemma KeepDropGuard(s: State, x: Id)
    requires Inv(s) && CanDropGuard(s, x)
    ensures Inv(DoDropGuard(s, x))
  {
    var s' := DoDropGuard(s, x);
    LocalDropGuard(s, x);
    forall y | y in s'.objs ensures CountOk(s', y) && SealOk(s', y) && HandOk(s', y) && ActivityOk(s', y) {
      if y != x { DropGuardOther(s, x, y); DropGuardActivity(s, x, y); }
    }
    DropGuardTotals(s, x);
  }

  // ----- Adding an edge -----

  /** Outside the erasure, the successor set and the unconsumed edges agree on every guarded object. */
  lemma KnownSuccessor(s: State, u: Id, x: Id)
    requires CanAddEdge(s, u, x) && u != x && ActivityOk(s, u) && CountOk(s, x)
    ensures x in s.objs[u].successors <==> x in Out(s, u)
  {
    if x in Out(s, u) {
      assert u in In(s, x);
      assert !Ready(s, x);
    }
  }

  lemma AddEdgeGraph(s: State, u: Id, x: Id, y: Id)
    requires CanAddEdge(s, u, x) && u != x && x !in Out(s, u)
    ensures (u, x) !in s.edges
    ensures In(NewEdge(s, u, x), y) == if y == x then In(s, y) + {u} else In(s, y)
    ensures Out(NewEdge(s, u, x), y) == if y == u then Out(s, y) + {x} else Out(s, y)
  {
    SameGraph(s.(edges := s.edges + {(u, x)}), NewEdge(s, u, x), y);
  }

  lemma AddEdgeCount(s: State, u: Id, x: Id, y: Id)
    requires CanAddEdge(s, u, x) && u != x && x !in Out(s, u)
    requires y in s.objs && CountOk(s, y) && SealOk(s, y)
    ensures var s' := NewEdge(s, u, x); CountOk(s', y) && SealOk(s', y)
  {
    AddEdgeGraph(s, u, x, y);
    if y == x { assert u !in In(s, x); }
  }

  lemma AddEdgeHand(s: State, u: Id, x: Id, y: Id)
    requires CanAddEdge(s, u, x) && u != x && x !in Out(s, u)
    requires y in s.objs && CountOk(s, x) && HandOk(s, y)
    ensures HandOk(NewEdge(s, u, x), y)
  {
    AddEdgeGraph(s, u, x, y);
  }

  lemma AddEdgeActivity(s: State, u: Id, x: Id, p: Id)
    requires CanAddEdge(s, u, x) && u != x && x !in Out(s, u) && EdgesOk(s)
    requires CountOk(s, x) && p in s.objs && ActivityOk(s, p)
    ensures ActivityOk(NewEdge(s, u, x), p)
  {
    AddEdgeGraph(s, u, x, p);
    NotWatched(s, p, x);
    AddEdgeKeepsFate(s, u, x);
    match s.objs[p].activity
    case Idle =>
    case Finishing(_, _, _, _) =>
    case ReleasingReads(_, _) =>
    case Picked(_) =>
  }

  lemma AddEdgeKeepsFate(s: State, u: Id, x: Id)
    requires u in s.objs && x in s.objs
    ensures var s' := NewEdge(s, u, x); forall y :: y in s.objs ==>
      && s'.objs[y].batchedBy == s.objs[y].batchedBy
      && (y != x && Ready(s, y) ==> Ready(s', y))
  {
  }

  lemma AddEdgeTotals(s: State, u: Id, x: Id)
    requires CanAddEdge(s, u, x) && TotalsOk(s)
    ensures TotalsOk(NewEdge(s, u, x))
  {
    SameTotals(s, NewEdge(s, u, x));
  }

  /** addSuccessor() on an edge that is there already changes nothing. */
  lemma AddEdgeAgain(s: State, u: Id, x: Id)
    requires CanAddEdge(s, u, x) && x in s.objs[u].successors && ActivityOk(s, u) && CountOk(s, x)
    ensures DoAddEdge(s, u, x) == s
  {
    if u != x {
      KnownSuccessor(s, u, x);
      assert u in In(s, x);
      assert s.objs[x].predecessors == if s.lists then s.objs[x].predecessors + {u} else s.objs[x].predecessors;
      assert DoAddEdge(s, u, x).objs == s.objs;
    }
  }

  lemma KeepAddEdge(s: State, u: Id, x: Id)
    requires Inv(s) && CanAddEdge(s, u, x)
    ensures Inv(DoAddEdge(s, u, x))
  {
    assert ActivityOk(s, u) && CountOk(s, x);
    if u != x && x in s.objs[u].successors {
      AddEdgeAgain(s, u, x);
    } else if u != x {
      var s' := NewEdge(s, u, x);
      KnownSuccessor(s, u, x);
      forall y | y in s'.objs ensures CountOk(s', y) && SealOk(s', y) { AddEdgeCount(s, u, x, y); }
      forall y | y in s'.objs ensures HandOk(s', y) { AddEdgeHand(s, u, x, y); }
      forall p | p in s'.objs ensures ActivityOk(s', p) { AddEdgeActivity(s, u, x, p); }
      AddEdgeTotals(s, u, x);
    }
  }

  // ----- Every step -----

  lemma ReleaseKeepsInv(s: State, step: ReleaseStep)
    requires Inv(s) && CanRelease(s, step)
    ensures Inv(DoRelease(s, step))
  {
    match step
    case Satisfy(x) => KeepSatisfy(s, x);
    case CheckBatch(o, x) => KeepCheckBatch(s, o, x);
    case ReleaseBatch(o) => KeepReleaseBatch(s, o);
    case ReleaseSingle(o, x) => KeepReleaseSingle(s, o, x);
    case EndFinish(o) => KeepEndFinish(s, o);
  }

  /** No step breaks the invariant, whatever the other threads are in the middle of. */
  lemma StepKeepsInv(s: State, a: Action)
    requires Inv(s) && Enabled(s, a)
    ensures Inv(Step(s, a))
  {
    match a
    case Create(x, kind) => KeepCreate(s, x, kind);
    case AddEdge(u, x) => KeepAddEdge(s, u, x);
    case IncreaseReferences(x) => KeepIncreaseReferences(s, x);
    case Submitted(x) => KeepSubmitted(s, x);
    case DropGuard(x) => KeepDropGuard(s, x);
    case CallFinished(o) => KeepCallFinished(s, o);
    case Releasing(step) => ReleaseKeepsInv(s, step);
    case BeginReads(o) => KeepBeginReads(s, o);
    case DropRead(o, x) => KeepDropRead(s, o, x);
    case EraseRead(o) => KeepEraseRead(s, o);
    case KeepRead(o, x) => KeepKeepRead(s, o, x);
    case EndReads(o) => KeepEndReads(s, o);
    case Pick(o, x) => KeepPick(s, o, x);
    case Confirm(o, keep) => if keep { KeepConfirmKeep(s, o); } else { KeepConfirmRelease(s, o); }
  }
}
