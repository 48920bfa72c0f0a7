/** Why an object that is releasing its read dependences must not be asked for a successor that it is about to erase:
    between the decrement of a successor and its erasure from the set, a second request for the same pair is lost.
    Every other pair may be requested throughout. */
module DependencyLateEdges {
  import opened Wrappers
  import opened DependableObjects
  import opened DependencyProtocol
  import opened DependencyInvariant
  import opened DependencyTheorems

  /** The plugin asks that `x`, still being submitted, wait for the unfinished `u`. */
  predicate Requested(s: State, u: Id, x: Id) {
    u in s.objs && x in s.objs && u != x && s.objs[x].guarded && s.objs[u].references > 0
  }

  /** The request leaves an unconsumed edge exactly when `u` is not about to erase `x`. */
  lemma RequestHonouredIff(s: State, u: Id, x: Id)
    requires Inv(s) && Requested(s, u, x)
    ensures (u, x) in DoAddEdge(s, u, x).edges <==> !Erasing(s, u, x)
  {
    assert ActivityOk(s, u) && CountOk(s, x);
  }

  /** A lost request: addSuccessor answers that the pair is known, nothing is counted, and the erasure then removes the
      last trace of it, although `u` is unfinished. */
  lemma RequestLost(s: State, u: Id, x: Id)
    requires Inv(s) && Requested(s, u, x) && Erasing(s, u, x)
    ensures var s1 := DoAddEdge(s, u, x);
      && s1.objs[x].numPredecessors == s.objs[x].numPredecessors && s1.edges == s.edges
      && CanEraseRead(s1, u)
      && var s2 := DoEraseRead(s1, u);
         (u, x) !in s2.edges && x !in s2.objs[u].successors && s2.objs[u].references > 0
         && s2.objs[x].numPredecessors == s.objs[x].numPredecessors
  {
    assert ActivityOk(s, u);
  }

  // ----- Such a state is reached -----

  function Source(references: nat, successors: set<Id>, activity: Activity): Node {
    Node(Task, 0, references, {}, successors, true, true, false, false, None, activity, 1, 1)
  }

  function Submittee(count: nat): Node {
    FreshNode(Task).(numPredecessors := count)
  }

  /** `u` was submitted and handed out. */
  function HandedOut(u: Id): State {
    State(map[u := Source(1, {}, Idle)], {}, false, 0, 1, 1, false)
  }

  lemma FirstIsHandedOut(u: Id) returns (acts: seq<Action>)
    ensures LeadsTo(Initial(false), acts, HandedOut(u))
  {
    var s0 := Initial(false);
    var s1 := State(map[u := FreshNode(Task)], {}, false, 0, 0, 0, false);
    LeadsOne(s0, Create(u, Task));
    assert Step(s0, Create(u, Task)) == s1;
    var s2 := State(map[u := FreshNode(Task).(submitted := true, needsSubmission := true)], {}, false, 1, 0, 0, false);
    LeadsOne(s1, Action.Submitted(u));
    assert Step(s1, Action.Submitted(u)) == s2;
    LeadsFurther(s0, [Create(u, Task)], s1, [Action.Submitted(u)], s2);
    var rest := FirstIsReleased(u, s2);
    LeadsFurther(s0, [Create(u, Task)] + [Action.Submitted(u)], s2, rest, HandedOut(u));
    acts := [Create(u, Task)] + [Action.Submitted(u)] + rest;
  }

  lemma FirstIsReleased(u: Id, s2: State) returns (acts: seq<Action>)
    requires s2 ==
      State(map[u := FreshNode(Task).(submitted := true, needsSubmission := true)], {}, false, 1, 0, 0, false)
    ensures LeadsTo(s2, acts, HandedOut(u))
  {
    var n := Source(1, {}, Idle);
    var s3 := State(map[u := n.(satisfying := true, handedOut := 0)], {}, false, 1, 0, 1, false);
    LeadsOne(s2, DropGuard(u));
    assert Step(s2, DropGuard(u)) == s3;
    LeadsOne(s3, Releasing(Satisfy(u)));
    assert Step(s3, Releasing(Satisfy(u))) == HandedOut(u);
    LeadsFurther(s2, [DropGuard(u)], s3, [Releasing(Satisfy(u))], HandedOut(u));
    acts := [DropGuard(u)] + [Releasing(Satisfy(u))];
  }

  /** `x` is being submitted and depends on `u`, which starts to release its reads. */
  function Depending(u: Id, x: Id, activity: Activity): State {
    State(map[u := Source(1, {x}, activity), x := Submittee(2)], {(u, x)}, false, 0, 1, 1, false)
  }

  lemma SecondDepends(u: Id, x: Id) returns (acts: seq<Action>)
    requires u != x
    ensures LeadsTo(HandedOut(u), acts, Depending(u, x, Idle))
  {
    var s5 := State(map[u := Source(1, {}, Idle), x := Submittee(1)], {}, false, 0, 1, 1, false);
    LeadsOne(HandedOut(u), Create(x, Task));
    assert Step(HandedOut(u), Create(x, Task)) == s5;
    LeadsOne(s5, AddEdge(u, x));
    var s6 := NewEdge(s5, u, x);
    assert s6.edges == {(u, x)} && s6.objs[u].successors == {x};
    assert s6.objs == Depending(u, x, Idle).objs;
    LeadsFurther(HandedOut(u), [Create(x, Task)], s5, [AddEdge(u, x)], Depending(u, x, Idle));
    acts := [Create(x, Task)] + [AddEdge(u, x)];
  }

  lemma SecondIsDropped(u: Id, x: Id) returns (acts: seq<Action>, s: State)
    requires u != x
    ensures LeadsTo(Depending(u, x, Idle), acts, s) && Requested(s, u, x) && Erasing(s, u, x)
  {
    var s6, s7 := Depending(u, x, Idle), Depending(u, x, ReleasingReads({x}, None));
    LeadsOne(s6, BeginReads(u));
    assert Step(s6, BeginReads(u)) == s7;
    LeadsOne(s7, DropRead(u, x));
    s := Step(s7, DropRead(u, x));
    LeadsFurther(s6, [BeginReads(u)], s7, [DropRead(u, x)], s);
    acts := [BeginReads(u)] + [DropRead(u, x)];
  }

  /** A run after which the next request for the same pair is lost, with any two objects. */
  lemma LateRequestIsReachable(u: Id, x: Id) returns (acts: seq<Action>)
    requires u != x
    ensures Possible(Initial(false), acts)
    ensures var s := Run(Initial(false), acts);
      Inv(s) && Requested(s, u, x) && Erasing(s, u, x) && (u, x) !in DoAddEdge(s, u, x).edges
  {
    var a := FirstIsHandedOut(u);
    var b := SecondDepends(u, x);
    var c, s := SecondIsDropped(u, x);
    LeadsFurther(Initial(false), a, HandedOut(u), b, Depending(u, x, Idle));
    LeadsFurther(Initial(false), a + b, Depending(u, x, Idle), c, s);
    acts := a + b + c;
    ReachableInv(false, acts);
    RequestHonouredIff(s, u, x);
  }
}
