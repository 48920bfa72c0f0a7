/** Runs that go wrong, and runs that reach the bounds: nested calls of idle exceed the prefetch limit by any amount,
    and a checkEvents() inside a checkEvents( wd ) makes the outer loop read past the end of the deque. */
module AsyncScenarios {
  import opened Wrappers
  import opened AsyncPipeline
  import opened AsyncInvariant
  import opened AsyncTheorems

  // ----- Reaching states -----

  ghost predicate Reach(s: State, s': State) {
    exists actions :: Leads(s, actions, s')
  }

  lemma ReachSelf(s: State)
    ensures Reach(s, s)
  {
    assert Leads(s, [], s);
  }

  lemma ReachStep(s: State, a: Action)
    requires Enabled(s, a)
    ensures Reach(s, Step(s, a))
  {
    assert Leads(s, [], s);
    LeadsFurther(s, [], s, a);
  }

  lemma {:induction false} LeadsOn(s: State, a: seq<Action>, s1: State, b: seq<Action>, s2: State)
    requires Leads(s, a, s1) && Leads(s1, b, s2)
    ensures Leads(s, a + b, s2)
    decreases |b|
  {
    if b == [] {
      assert a + b == a;
    } else {
      LeadsFurther(s, a, s1, b[0]);
      LeadsOn(s, a + [b[0]], Step(s1, b[0]), b[1..], s2);
      assert a + [b[0]] + b[1..] == a + b;
    }
  }

  lemma ReachOn(s: State, s1: State, s2: State)
    requires Reach(s, s1) && Reach(s1, s2)
    ensures Reach(s, s2)
  {
    var a :| Leads(s, a, s1);
    var b :| Leads(s1, b, s2);
    LeadsOn(s, a, s1, b, s2);
  }

  // ----- Runs without checkEvents( wd ) -----

  ghost predicate Fine(s: State) {
    Safe(s) && NoCheckOne(s.stack)
  }

  lemma NoCheckOneTop(stack: seq<Frame>, news: seq<Frame>)
    requires NoCheckOne(stack) && stack != [] && NoCheckOne(news)
    ensures NoCheckOne(news + stack[1..])
  {
    forall k | 0 <= k < |news + stack[1..]| ensures !(news + stack[1..])[k].CheckOne? {
      if k >= |news| { assert (news + stack[1..])[k] == stack[k - |news| + 1]; }
    }
  }

  lemma NoCheckOnePhase(s: State, phase: Phase, wd: Wd, flag: bool, id: EventId)
    requires NoCheckOne(s.stack) && s.stack != []
    ensures NoCheckOne(DoPhase(s, phase, wd, flag, id).stack)
  {
    NoCheckOneTop(s.stack, []);
    assert [] + s.stack[1..] == s.stack[1..];
    NoCheckOneTop(s.stack, [Doing(RunBody, wd), Calling(wd)]);
    assert [Doing(RunBody, wd), Calling(wd)] + s.stack[1..] == [Doing(RunBody, wd)] + ([Calling(wd)] + s.stack[1..]);
    NoCheckOneTop(s.stack, [Executing(wd)]);
    NoCheckOneTop(s.stack, [Finishing(wd)]);
  }

  lemma NoCheckOneIdle(s: State, stage: IdleStage, flag: bool, fetched: Option<Wd>)
    requires NoCheckOne(s.stack) && s.stack != []
    ensures NoCheckOne(DoIdle(s, stage, flag, fetched).stack)
  {
    var s' := DoIdle(s, stage, flag, fetched);
    if s'.stack == s.stack[1..] {
      NoCheckOneTop(s.stack, []);
      assert [] + s.stack[1..] == s.stack[1..];
    } else {
      assert s'.stack == [s'.stack[0], s'.stack[1]] + s.stack[1..];
      NoCheckOneTop(s.stack, [s'.stack[0], s'.stack[1]]);
    }
  }

  lemma NoCheckOneVisit(s: State, i: nat, caller: Frame)
    requires NoCheckOne(s.stack) && s.stack != [] && caller.CheckAll?
    ensures NoCheckOne(Visit(s, i, {}, true, caller).stack)
  {
    NoCheckOneTop(s.stack, [caller]);
    if i < |s.pending| && s.pending[i] in s.events {
      var event := s.events[s.pending[i]];
      NoCheckOneTop(s.stack, [Doing(event.next, event.wd), caller]);
    }
  }

  lemma NoCheckOneStep(s: State, a: Action)
    requires NoCheckOne(s.stack) && Enabled(s, a) && !a.CallCheckEventsOf?
    ensures NoCheckOne(Step(s, a).stack)
  {
    if a.Advance? {
      NoCheckOneTop(s.stack, []);
      assert [] + s.stack[1..] == s.stack[1..];
      match s.stack[0]
      case CheckAll(i, max, seen) => if i < max { NoCheckOneVisit(s, i, CheckAll(i + 1, max, seen)); }
      case Doing(phase, wd) => NoCheckOnePhase(s, phase, wd, a.flag, a.id);
      case Idle(stage) => NoCheckOneIdle(s, stage, a.flag, a.fetched);
      case _ =>
    }
  }

  lemma Go(s: State, a: Action)
    requires Fine(s) && Enabled(s, a) && !a.CallCheckEventsOf?
    ensures Fine(Step(s, a)) && Reach(s, Step(s, a))
  {
    SafeStep(s, a);
    NoCheckOneStep(s, a);
    ReachStep(s, a);
  }

  /** No event is raised, except perhaps `e`. */
  ghost predicate CalmBut(events: map<EventId, Event>, e: Option<EventId>) {
    forall e1 {:trigger events[e1]} :: e1 in events && Some(e1) != e ==>
      events[e1].status == Completed || (events[e1].trigger == Device && events[e1].status == Pending)
  }

  /** Nothing is raised, and no WD has predecessors. */
  ghost predicate Level(s: State) {
    Fine(s) && CalmBut(s.events, None) && s.blocked == {}
  }

  /** What a pass over the deque leaves alone. */
  ghost predicate Frozen(s: State, s': State) {
    && s'.events == s.events && s'.running == s.running && s'.added == s.added && s'.inputs == s.inputs
    && s'.outputs == s.outputs && s'.blocked == s.blocked && s'.maxPrefetch == s.maxPrefetch
  }

  /** Every event of the deque is still to be run. */
  predicate AllLive(s: State) {
    forall e :: e in s.pending ==> e in s.events && s.events[e].status != Completed
  }

  ghost function Choice(s: State, flag: bool, fetched: Option<Wd>): (a: Action)
    requires !s.crashed && s.stack != [] && (fetched.Some? ==> fetched.value !in s.added)
    ensures a == Advance(flag, fetched, Unused(s.events.Keys)) && Enabled(s, a)
  {
    Advance(flag, fetched, Unused(s.events.Keys))
  }

  /** A checkEvents() that finds nothing raised goes through the deque and ends. */
  lemma {:induction false} Pass(s: State)
    requires Fine(s) && CalmBut(s.events, None) && s.stack != [] && s.stack[0].CheckAll?
    ensures Fine(EndCheckAll(s)) && Reach(s, EndCheckAll(s))
    decreases s.stack[0].max - s.stack[0].i
  {
    var f, a := s.stack[0], Choice(s, true, None);
    Go(s, a);
    if f.i < f.max {
      var s1 := Step(s, a);
      assert IndexOk(true, s.pending, f);
      assert s.pending[f.i] in s.pending;
      assert s1 == Replace(s, CheckAll(f.i + 1, f.max, f.seen));
      Pass(s1);
      assert EndCheckAll(s1) == EndCheckAll(s);
      ReachOn(s, s1, EndCheckAll(s));
    }
  }

  lemma PassEnds(s: State)
    requires s.stack != []
    ensures var s' := EndCheckAll(s); Frozen(s, s') && s'.stack == s.stack[1..] && s'.deepest == s.deepest
    ensures AllLive(s) ==> EndCheckAll(s).pending == s.pending
  {
    if AllLive(s) && s.pending != [] { assert s.pending[0] in s.pending; }
    assert s.pending[0..] == s.pending;
  }

  // ----- The idle loop -----

  lemma StartIdle(s: State) returns (s': State)
    requires Level(s) && MayCall(s)
    ensures Level(s') && Reach(s, s') && Frozen(s, s') && s'.stack == [Idle(Looping)] + s.stack
      && s'.deepest == s.deepest
    ensures AllLive(s) ==> s'.pending == s.pending
  {
    Go(s, CallIdle);
    var s1 := Step(s, CallIdle);
    Go(s1, Choice(s1, true, None));
    var s2 := Step(s1, Choice(s1, true, None));
    assert s2.stack[1..] == [Idle(Looping)] + s.stack;
    Pass(s2);
    PassEnds(s2);
    s' := EndCheckAll(s2);
    ReachOn(s, s1, s2);
    ReachOn(s, s2, s');
  }

  function Deeper(deepest: nat, below: seq<Frame>): nat {
    if Windows(below) + 1 > deepest then Windows(below) + 1 else deepest
  }

  /** canGetWork() says yes, and checkEvents() is called. */
  lemma Ask(s: State, below: seq<Frame>) returns (s': State)
    requires Level(s) && s.stack == [Idle(Looping)] + below && |s.running| < s.maxPrefetch
    ensures Fine(s') && Reach(s, s') && Frozen(s, s') && s'.pending == s.pending
    ensures s'.stack == [CheckAll(0, |s.pending|, s.pending)] + ([Idle(Fetching)] + below)
    ensures s'.deepest == Deeper(s.deepest, below)
  {
    Go(s, Choice(s, true, None));
    Cons(Idle(Looping), below);
    s' := Step(s, Choice(s, true, None));
  }

  /** addNextWD of a new WD, whose first phase queues the check of its inputs. */
  lemma AddOne(s: State, below: seq<Frame>, wd: Wd) returns (s': State, e: EventId)
    requires Level(s) && s.stack == [Idle(Fetching)] + below && wd !in s.added
    ensures Level(s') && Reach(s, s') && s'.stack == [Idle(Looping)] + below && s'.deepest == s.deepest
    ensures e !in s.events && s'.events == s.events[e := Event(wd, CheckInputs, Device, Pending)]
    ensures s'.running == s.running + [wd] && s'.added == s.added + {wd} && s'.outputs == s.outputs
    ensures s'.maxPrefetch == s.maxPrefetch
    ensures AllLive(s) ==> AllLive(s') && s'.pending == s.pending + [e]
  {
    var a1 := Choice(s, true, Some(wd));
    Go(s, a1);
    var s1 := Step(s, a1);
    assert s1.stack == [Doing(PreRun, wd)] + ([Idle(Added)] + below);
    e := Unused(s1.events.Keys);
    Go(s1, Choice(s1, true, None));
    var s2 := Step(s1, Choice(s1, true, None));
    assert s2.stack == [Idle(Added)] + below;
    ReachOn(s, s1, s2);
    s' := Recheck(s2, below);
    ReachOn(s, s2, s');
  }

  /** The checkEvents() after addNextWD. */
  lemma Recheck(s: State, below: seq<Frame>) returns (s': State)
    requires Level(s) && s.stack == [Idle(Added)] + below
    ensures Level(s') && Reach(s, s') && Frozen(s, s') && s'.stack == [Idle(Looping)] + below && s'.deepest == s.deepest
    ensures AllLive(s) ==> AllLive(s') && s'.pending == s.pending
  {
    Go(s, Choice(s, true, None));
    var s1 := Step(s, Choice(s, true, None));
    assert s1.stack[1..] == [Idle(Looping)] + below;
    Pass(s1);
    PassEnds(s1);
    s' := EndCheckAll(s1);
    ReachOn(s, s1, s');
  }

  lemma FetchOne(s: State, below: seq<Frame>, wd: Wd) returns (s': State, e: EventId)
    requires Level(s) && s.stack == [Idle(Looping)] + below && |s.running| < s.maxPrefetch && wd !in s.added
    ensures Level(s') && Reach(s, s') && s'.stack == [Idle(Looping)] + below && s'.deepest == Deeper(s.deepest, below)
    ensures e !in s.events && s'.events == s.events[e := Event(wd, CheckInputs, Device, Pending)]
    ensures s'.running == s.running + [wd] && s'.added == s.added + {wd} && s'.outputs == s.outputs
    ensures s'.maxPrefetch == s.maxPrefetch
    ensures AllLive(s) ==> AllLive(s') && s'.pending == s.pending + [e]
  {
    var s1 := Ask(s, below);
    Pass(s1);
    PassEnds(s1);
    var s2 := EndCheckAll(s1);
    ReachOn(s, s1, s2);
    assert s2.stack == [Idle(Fetching)] + below;
    s', e := AddOne(s2, below, wd);
    ReachOn(s, s2, s');
  }

  lemma StopIdle(s: State, below: seq<Frame>) returns (s': State)
    requires Level(s) && s.stack == [Idle(Looping)] + below
    ensures Level(s') && Reach(s, s') && Frozen(s, s') && s'.stack == below && s'.deepest == s.deepest
      && s'.pending == s.pending
  {
    Go(s, Choice(s, false, None));
    s' := Step(s, Choice(s, false, None));
  }

  // ----- Running events -----

  /** The loop of checkEvents() goes on to the one event that is raised, and calls its continuation. */
  lemma {:induction false} ToEvent(s: State, j: nat)
    requires Fine(s) && s.stack != [] && s.stack[0].CheckAll? && s.stack[0].i <= j < s.stack[0].max && j < |s.pending|
    requires s.pending[j] in s.events && s.events[s.pending[j]].status == Raised
      && CalmBut(s.events, Some(s.pending[j]))
    ensures var s' := Process(s, s.pending[j], CheckAll(j + 1, s.stack[0].max, s.stack[0].seen));
      Fine(s') && Reach(s, s') && CalmBut(s'.events, None)
    decreases j - s.stack[0].i
  {
    var f, a := s.stack[0], Choice(s, true, None);
    Go(s, a);
    var s1 := Step(s, a);
    if f.i < j {
      assert s.pending[f.i] in s.pending && s.pending[f.i] != s.pending[j];
      assert s1 == Replace(s, CheckAll(f.i + 1, f.max, f.seen));
      ToEvent(s1, j);
      ReachOn(s, s1, Process(s1, s.pending[j], CheckAll(j + 1, f.max, f.seen)));
      assert s1.stack[1..] == s.stack[1..];
    }
  }

  lemma Raises(s: State, e: EventId) returns (s': State)
    requires Fine(s) && CalmBut(s.events, None) && e in s.events && s.events[e].status == Pending
    requires s.events[e].trigger == Device
    ensures Fine(s') && CalmBut(s'.events, Some(e)) && Reach(s, s')
    ensures s' == s.(events := s.events[e := s.events[e].(status := Raised)])
  {
    Go(s, RaiseByDevice(e));
    s' := Step(s, RaiseByDevice(e));
  }

  /** The device raises an event, and the call of checkEvents() on top of the stack runs it. */
  lemma RaiseAndRun(s: State, e: EventId) returns (s': State, next: Frame)
    requires Fine(s) && CalmBut(s.events, None) && s.stack != [] && e in s.events && s.events[e].status == Pending
    requires s.events[e].trigger == Device && s.stack[0] == CheckAll(0, |s.pending|, s.pending)
    ensures Fine(s') && CalmBut(s'.events, None) && Reach(s, s') && next.CheckAll?
    ensures s'.stack == [Doing(s.events[e].next, s.events[e].wd), next] + s.stack[1..]
    ensures s' == s.(events := s.events[e := s.events[e].(status := Completed)], stack := s'.stack,
                     processed := s'.processed)
  {
    assert e in s.pending;
    var j :| 0 <= j < |s.pending| && s.pending[j] == e;
    var s1 := Raises(s, e);
    ToEvent(s1, j);
    next := CheckAll(j + 1, |s.pending|, s.pending);
    s' := Process(s1, e, next);
    ReachOn(s, s1, s');
  }

  /** checkWDInputs with its inputs ready runs the body. */
  lemma RunsBody(s: State, wd: Wd, rest: seq<Frame>) returns (s': State)
    requires Level(s) && s.stack == [Doing(CheckInputs, wd)] + rest && wd in s.inputs
    ensures Level(s') && Reach(s, s') && s'.stack == [Executing(wd)] + ([Calling(wd)] + rest)
    ensures Frozen(s, s') && s'.deepest == s.deepest && s'.pending == s.pending && s'.recursive == s.recursive
  {
    Go(s, Choice(s, true, None));
    var s1 := Step(s, Choice(s, true, None));
    assert s1.stack == [Doing(RunBody, wd)] + ([Calling(wd)] + rest);
    Go(s1, Choice(s1, true, None));
    s' := Step(s1, Choice(s1, true, None));
    ReachOn(s, s1, s');
  }

  /** The body ends, and the check of the outputs is queued. */
  lemma EndsBody(s: State, wd: Wd, rest: seq<Frame>) returns (s': State, e: EventId)
    requires Level(s) && s.stack == [Executing(wd)] + ([Calling(wd)] + rest)
    ensures Level(s') && Reach(s, s') && s'.stack == rest && s'.running == s.running && s'.added == s.added
    ensures e !in s.events && s'.events == s.events[e := Event(wd, CheckOutputs, Device, Pending)]
    ensures s'.deepest == s.deepest && s'.maxPrefetch == s.maxPrefetch && s'.pending == s.pending + [e]
    ensures s'.recursive == s.recursive
  {
    e := Unused(s.events.Keys);
    Go(s, Choice(s, true, None));
    var s1 := Step(s, Choice(s, true, None));
    assert s1.stack == [Calling(wd)] + rest;
    Go(s1, Choice(s1, true, None));
    s' := Step(s1, Choice(s1, true, None));
    ReachOn(s, s1, s');
  }

  /** A call of checkEvents() that runs one event. */
  lemma CheckRuns(s: State, e: EventId) returns (s': State, next: Frame)
    requires Level(s) && MayCall(s) && e in s.events && s.events[e].status == Pending && s.events[e].trigger == Device
    ensures Level(s') && Reach(s, s') && next.CheckAll?
    ensures s'.stack == [Doing(s.events[e].next, s.events[e].wd)] + ([next] + s.stack)
    ensures s' == s.(events := s.events[e := s.events[e].(status := Completed)], stack := s'.stack,
                     processed := s'.processed, recursive := s.recursive + 1)
  {
    Go(s, CallCheckEvents);
    var s1 := Step(s, CallCheckEvents);
    assert s1.stack[1..] == s.stack;
    s', next := RaiseAndRun(s1, e);
    ReachOn(s, s1, s');
  }

  /** After a run of one event: what is left of the deque. */
  lemma OneLeft(s: State, e: EventId, e2: EventId)
    requires s.stack != [] && s.recursive == 1 && s.pending == [e, e2] && e in s.events && e2 in s.events
    requires s.events[e].status == Completed && s.events[e2].status != Completed
    ensures EndCheckAll(s).pending == [e2]
  {
    assert s.pending[1..] == [e2] && [e2][1..] == [];
    assert CompletedPrefix(s.events, [e2]) == 0;
  }

  /** checkEvents() takes a WD from the check of its inputs through its body. */
  lemma DriveInputs(s: State, wd: Wd, e: EventId) returns (s': State, e2: EventId)
    requires Level(s) && MayCall(s) && e in s.events && s.events[e] == Event(wd, CheckInputs, Device, Pending)
    ensures Level(s') && Reach(s, s') && s'.stack == s.stack && s'.running == s.running && s'.added == s.added
    ensures e2 in s'.events && s'.events[e2] == Event(wd, CheckOutputs, Device, Pending)
    ensures s'.deepest == s.deepest && s'.maxPrefetch == s.maxPrefetch
    ensures s.recursive == 0 && s.pending == [e] ==> s'.pending == [e2]
  {
    Go(s, InputsArrive(wd));
    var s1 := Step(s, InputsArrive(wd));
    var s3, next := CheckRuns(s1, e);
    ReachOn(s, s1, s3);
    var s4 := RunsBody(s3, wd, [next] + s.stack);
    ReachOn(s, s3, s4);
    var s5, id := EndsBody(s4, wd, [next] + s.stack);
    ReachOn(s, s4, s5);
    e2 := id;
    s' := EndPass(s, s5, next, e, e2);
  }

  lemma EndPass(s: State, s1: State, next: Frame, e: EventId, e2: EventId) returns (s': State)
    requires Reach(s, s1) && Level(s1) && s1.stack == [next] + s.stack && next.CheckAll?
      && s1.recursive == s.recursive + 1
    requires e in s1.events && s1.events[e].status == Completed && e2 in s1.events && s1.events[e2].status != Completed
    requires s1.pending == s.pending + [e2]
    ensures Level(s') && Reach(s, s') && s'.stack == s.stack && Frozen(s1, s') && s'.deepest == s1.deepest
    ensures s.recursive == 0 && s.pending == [e] ==> s'.pending == [e2]
  {
    Pass(s1);
    PassEnds(s1);
    s' := EndCheckAll(s1);
    assert s1.stack[1..] == s.stack;
    if s.recursive == 0 && s.pending == [e] { OneLeft(s1, e, e2); }
    ReachOn(s, s1, s');
  }

  lemma QueuesPostRun(s: State, wd: Wd, rest: seq<Frame>) returns (s': State, e: EventId)
    requires Level(s) && s.stack == [Doing(CheckOutputs, wd)] + rest
    ensures Level(s') && Reach(s, s') && s'.stack == rest && s'.running == s.running && s'.added == s.added
    ensures e !in s.events && s'.events == s.events[e := Event(wd, PostRun, Device, Pending)]
    ensures s'.deepest == s.deepest && s'.maxPrefetch == s.maxPrefetch && s'.pending == s.pending + [e]
    ensures s'.recursive == s.recursive
  {
    e := Unused(s.events.Keys);
    Go(s, Choice(s, true, None));
    s' := Step(s, Choice(s, true, None));
  }

  /** checkEvents() takes a WD from the check of its outputs to postRunWD. */
  lemma DriveOutputs(s: State, wd: Wd, e: EventId) returns (s': State, e2: EventId)
    requires Level(s) && MayCall(s) && e in s.events && s.events[e] == Event(wd, CheckOutputs, Device, Pending)
    ensures Level(s') && Reach(s, s') && s'.stack == s.stack && s'.running == s.running && s'.added == s.added
    ensures e2 in s'.events && s'.events[e2] == Event(wd, PostRun, Device, Pending)
    ensures s'.deepest == s.deepest && s'.maxPrefetch == s.maxPrefetch
    ensures s.recursive == 0 && s.pending == [e] ==> s'.pending == [e2]
  {
    var s3, next := CheckRuns(s, e);
    var s4, id := QueuesPostRun(s3, wd, [next] + s.stack);
    e2 := id;
    ReachOn(s, s3, s4);
    s' := EndPass(s, s4, next, e, e2);
  }

  // ----- Nesting idle loops -----

  /** canGetWork() says yes, and the checkEvents() that follows runs an event. */
  lemma AskAndRun(s: State, below: seq<Frame>, e: EventId) returns (s': State, next: Frame)
    requires Level(s) && s.stack == [Idle(Looping)] + below && |s.running| < s.maxPrefetch
    requires e in s.events && s.events[e].status == Pending && s.events[e].trigger == Device
    ensures Level(s') && Reach(s, s') && next.CheckAll?
    ensures s'.stack == [Doing(s.events[e].next, s.events[e].wd)] + ([next] + ([Idle(Fetching)] + below))
    ensures s'.running == s.running && s'.added == s.added && s'.inputs == s.inputs && s'.outputs == s.outputs
    ensures s'.maxPrefetch == s.maxPrefetch && s'.deepest == Deeper(s.deepest, below)
  {
    var s1 := Ask(s, below);
    s', next := RaiseAndRun(s1, e);
    ReachOn(s, s1, s');
    assert s1.stack[1..] == [Idle(Fetching)] + below;
  }

  /** postRunWD with its outputs ready. */
  lemma Finishes(s: State, wd: Wd, rest: seq<Frame>) returns (s': State)
    requires Level(s) && s.stack == [Doing(PostRun, wd)] + rest && wd in s.outputs
    ensures Level(s') && Reach(s, s') && s'.stack == [Finishing(wd)] + rest && s'.running == Removed(s.running, wd)
    ensures s'.maxPrefetch == s.maxPrefetch && s'.deepest == s.deepest
  {
    Go(s, Choice(s, true, None));
    s' := Step(s, Choice(s, true, None));
  }

  lemma OutputsReady(s: State, wd: Wd) returns (s': State)
    requires Level(s)
    ensures Level(s') && Reach(s, s') && s' == s.(outputs := s.outputs + {wd})
  {
    Go(s, OutputsArrive(wd));
    s' := Step(s, OutputsArrive(wd));
  }

  lemma ThreeFrames(wd: Wd, next: Frame, below: seq<Frame>)
    ensures [Finishing(wd)] + ([next] + ([Idle(Fetching)] + below)) == [Finishing(wd), next, Idle(Fetching)] + below
  {
  }

  /** Between canGetWork() and prefetch, checkEvents() finishes a WD: its finishWork is the place for the next call. */
  lemma FinishInside(s: State, below: seq<Frame>, wd: Wd, e: EventId) returns (s': State, next: Frame)
    requires Level(s) && s.stack == [Idle(Looping)] + below && |s.running| < s.maxPrefetch
    requires e in s.events && s.events[e] == Event(wd, PostRun, Device, Pending)
    ensures Level(s') && Reach(s, s') && next.CheckAll?
    ensures s'.stack == [Finishing(wd), next, Idle(Fetching)] + below
    ensures s'.running == Removed(s.running, wd) && s'.maxPrefetch == s.maxPrefetch
      && s'.deepest == Deeper(s.deepest, below)
  {
    var s1 := OutputsReady(s, wd);
    var s3, c := AskAndRun(s1, below, e);
    next := c;
    ReachOn(s, s1, s3);
    s' := Finishes(s3, wd, [next] + ([Idle(Fetching)] + below));
    ReachOn(s, s3, s');
    ThreeFrames(wd, next, below);
  }

  /** Between canGetWork() and prefetch, checkEvents() runs a body. */
  lemma ExecuteInside(s: State, below: seq<Frame>, wd: Wd, e: EventId) returns (s': State, next: Frame)
    requires Level(s) && s.stack == [Idle(Looping)] + below && |s.running| < s.maxPrefetch
    requires e in s.events && s.events[e] == Event(wd, CheckInputs, Device, Pending)
    ensures Level(s') && Reach(s, s') && next.CheckAll?
    ensures s'.stack == [Executing(wd)] + ([Calling(wd)] + ([next] + ([Idle(Fetching)] + below)))
    ensures s'.running == s.running && s'.added == s.added && s'.maxPrefetch == s.maxPrefetch
    ensures s'.deepest == Deeper(s.deepest, below)
  {
    Go(s, InputsArrive(wd));
    var s1 := Step(s, InputsArrive(wd));
    var s3, c := AskAndRun(s1, below, e);
    next := c;
    ReachOn(s, s1, s3);
    s' := RunsBody(s3, wd, [next] + ([Idle(Fetching)] + below));
    ReachOn(s, s3, s');
  }

  /** The rest of an idle loop whose checkEvents() is about to end: it adds a WD, as it was told it could, and stops. */
  lemma AddAnyway(s: State, next: Frame, below: seq<Frame>) returns (s': State)
    requires Level(s) && s.stack == [next] + ([Idle(Fetching)] + below) && next.CheckAll?
    ensures Level(s') && Reach(s, s') && s'.stack == below && |s'.running| == |s.running| + 1
    ensures s'.deepest == s.deepest && s'.maxPrefetch == s.maxPrefetch
  {
    Pass(s);
    PassEnds(s);
    var s1 := EndCheckAll(s);
    assert s1.stack == [Idle(Fetching)] + below;
    var s2, e := AddOne(s1, below, Unused(s1.added));
    ReachOn(s, s1, s2);
    s' := StopIdle(s2, below);
    ReachOn(s, s2, s');
  }

  /** finishWork returns, and the idle loop around it adds its WD. */
  lemma Unwind(s: State, wd: Wd, next: Frame, below: seq<Frame>) returns (s': State)
    requires Level(s) && s.stack == [Finishing(wd), next, Idle(Fetching)] + below && next.CheckAll?
    ensures Level(s') && Reach(s, s') && s'.stack == below && |s'.running| == |s.running| + 1
    ensures s'.deepest == s.deepest && s'.maxPrefetch == s.maxPrefetch
  {
    Go(s, Choice(s, true, None));
    var s1 := Step(s, Choice(s, true, None));
    assert s1.stack == [next] + ([Idle(Fetching)] + below);
    s' := AddAnyway(s1, next, below);
    ReachOn(s, s1, s');
  }

  /** An idle loop fetches one WD and ends. */
  lemma Admit(s: State, wd: Wd) returns (s': State, e: EventId)
    requires Level(s) && MayCall(s) && |s.running| < s.maxPrefetch && wd !in s.added
    ensures Level(s') && Reach(s, s') && s'.stack == s.stack && s'.running == s.running + [wd]
    ensures s'.added == s.added + {wd} && s'.maxPrefetch == s.maxPrefetch && s'.deepest == Deeper(s.deepest, s.stack)
    ensures e in s'.events && s'.events[e] == Event(wd, CheckInputs, Device, Pending) && s'.recursive == s.recursive
    ensures AllLive(s) ==> s'.pending == s.pending + [e]
  {
    var s1 := StartIdle(s);
    var s2, e1 := FetchOne(s1, s.stack, wd);
    e := e1;
    ReachOn(s, s1, s2);
    s' := StopIdle(s2, s.stack);
    ReachOn(s, s2, s');
  }

  /** One WD is fetched and taken to the event that will finish it. */
  lemma Prepare(s: State, wd: Wd) returns (s': State, e: EventId)
    requires Level(s) && MayCall(s) && |s.running| < s.maxPrefetch && wd !in s.added
    ensures Level(s') && Reach(s, s') && s'.stack == s.stack && s'.running == s.running + [wd]
      && s'.added == s.added + {wd}
    ensures s'.maxPrefetch == s.maxPrefetch && s'.deepest == Deeper(s.deepest, s.stack)
    ensures e in s'.events && s'.events[e] == Event(wd, PostRun, Device, Pending)
    ensures s.recursive == 0 && s.pending == [] ==> s'.pending == [e]
  {
    var s3, e1 := Admit(s, wd);
    var s4, e2 := DriveInputs(s3, wd, e1);
    ReachOn(s, s3, s4);
    s', e := DriveOutputs(s4, wd, e2);
    ReachOn(s, s4, s');
  }

  /** One more idle loop is open, and nothing is running. */
  lemma Nest(s: State) returns (s': State, wd: Wd, next: Frame)
    requires Level(s) && MayCall(s) && s.running == [] && s.maxPrefetch >= 2 && s.deepest == Windows(s.stack)
    ensures Level(s') && MayCall(s') && Reach(s, s') && s'.running == [] && s'.maxPrefetch == s.maxPrefetch
    ensures s'.stack == [Finishing(wd), next, Idle(Fetching)] + s.stack && next.CheckAll?
    ensures s'.deepest == Windows(s'.stack) == Windows(s.stack) + 1
  {
    wd := Unused(s.added);
    var s5, e := Prepare(s, wd);
    var s6 := StartIdle(s5);
    ReachOn(s, s5, s6);
    s', next := FinishInside(s6, s.stack, wd, e);
    ReachOn(s, s6, s');
    NestedWindows(wd, next, s.stack);
    assert [wd][1..] == [] && Removed([wd], wd) == [];
  }

  lemma NestedWindows(wd: Wd, next: Frame, below: seq<Frame>)
    requires next.CheckAll?
    ensures Windows([Finishing(wd), next, Idle(Fetching)] + below) == Windows(below) + 1
  {
    Cons(Idle(Fetching), below);
    Cons(next, [Idle(Fetching)] + below);
    Cons(Finishing(wd), [next] + ([Idle(Fetching)] + below));
    assert [Finishing(wd), next, Idle(Fetching)] + below == [Finishing(wd)] + ([next] + ([Idle(Fetching)] + below));
  }

  /** An idle loop fetches until the limit is reached. */
  lemma {:induction false} Fill(s: State, below: seq<Frame>) returns (s': State)
    requires Level(s) && s.stack == [Idle(Looping)] + below && |s.running| <= s.maxPrefetch
    ensures Level(s') && Reach(s, s') && s'.stack == s.stack && |s'.running| == s.maxPrefetch == s'.maxPrefetch
    ensures s'.deepest == if |s.running| < s.maxPrefetch then Deeper(s.deepest, below) else s.deepest
    decreases s.maxPrefetch - |s.running|
  {
    if |s.running| == s.maxPrefetch {
      s' := s;
      ReachSelf(s);
    } else {
      var s1, e := FetchOne(s, below, Unused(s.added));
      s' := Fill(s1, below);
      ReachOn(s, s1, s');
    }
  }

  /** `n` idle loops, one inside the other: the innermost fills the list, then each of the others adds one more. */
  lemma {:induction false} Overfill(s: State, n: nat) returns (s': State)
    requires Level(s) && MayCall(s) && s.running == [] && s.deepest == Windows(s.stack)
    requires n >= 1 && s.maxPrefetch >= 1 && (n > 1 ==> s.maxPrefetch >= 2)
    ensures Level(s') && Reach(s, s') && s'.stack == s.stack && s'.maxPrefetch == s.maxPrefetch
    ensures |s'.running| == s.maxPrefetch + n - 1 && s'.deepest == Windows(s.stack) + n
    decreases n
  {
    if n == 1 {
      var s1 := StartIdle(s);
      var s2 := Fill(s1, s.stack);
      ReachOn(s, s1, s2);
      s' := StopIdle(s2, s.stack);
      ReachOn(s, s2, s');
    } else {
      var s1, wd, next := Nest(s);
      var s2 := Overfill(s1, n - 1);
      ReachOn(s, s1, s2);
      s' := Unwind(s2, wd, next, s.stack);
      ReachOn(s, s2, s');
    }
  }

  lemma InitialLevel(maxPrefetch: nat)
    ensures Level(Initial(maxPrefetch, {}))
  {
    InitialInv(maxPrefetch, {});
  }

  /** The bound is reached: for every limit of at least two and every depth of nesting there is a run in which that many
      idle loops were open at once and the limit is exceeded by one less; a limit of one is reached, not exceeded. */
  lemma BoundIsReached(maxPrefetch: nat, n: nat) returns (actions: seq<Action>)
    requires n >= 1 && maxPrefetch >= 1 && (n > 1 ==> maxPrefetch >= 2)
    ensures Possible(Initial(maxPrefetch, {}), actions)
    ensures var s := Run(Initial(maxPrefetch, {}), actions); s.deepest == n && |s.running| == maxPrefetch + n - 1
  {
    InitialLevel(maxPrefetch);
    var s := Overfill(Initial(maxPrefetch, {}), n);
    actions :| Leads(Initial(maxPrefetch, {}), actions, s);
  }

  /** A limit of two exceeded from a task's body: the body runs in the checkEvents() between canGetWork() and prefetch,
      and its own idle loop fills the list before the outer one adds. */
  lemma LimitExceeded() returns (inBody: State, actions: seq<Action>)
    ensures Reach(Initial(2, {}), inBody) && inBody.stack != [] && inBody.stack[0].Executing?
    ensures Windows(inBody.stack) == 1 && |inBody.running| == 1
    ensures Possible(inBody, actions) && |Run(inBody, actions).running| == 3 && Run(inBody, actions).maxPrefetch == 2
  {
    var s0 := Initial(2, {});
    InitialLevel(2);
    var s1 := StartIdle(s0);
    var s2, e := FetchOne(s1, [], 7);
    ReachOn(s0, s1, s2);
    var s3, next := ExecuteInside(s2, [], 7, e);
    ReachOn(s0, s2, s3);
    inBody := s3;
    var rest := [next] + ([Idle(Fetching)] + []);
    BodyWindows(7, next);
    var s4 := StartIdle(s3);
    var s5, e5 := FetchOne(s4, s3.stack, 8);
    ReachOn(s3, s4, s5);
    var s6 := StopIdle(s5, s3.stack);
    ReachOn(s3, s5, s6);
    var s7, e7 := EndsBody(s6, 7, rest);
    ReachOn(s3, s6, s7);
    var s8 := AddAnyway(s7, next, []);
    ReachOn(s3, s7, s8);
    actions :| Leads(s3, actions, s8);
  }

  lemma BodyWindows(wd: Wd, next: Frame)
    requires next.CheckAll?
    ensures Windows([Executing(wd)] + ([Calling(wd)] + ([next] + ([Idle(Fetching)] + [])))) == 1
  {
    Cons(Idle(Fetching), []);
    Cons(next, [Idle(Fetching)] + []);
    Cons(Calling(wd), [next] + ([Idle(Fetching)] + []));
    Cons(Executing(wd), [Calling(wd)] + ([next] + ([Idle(Fetching)] + [])));
  }

  // ----- Reading past the end -----

  /** WD 7 waits to be finished and WD 8 for its inputs: two events in the deque, and no call in progress. */
  lemma TwoWaiting() returns (s: State, e: EventId, e2: EventId)
    ensures Level(s) && Reach(Initial(2, {}), s) && s.stack == [] && s.pending == [e, e2] && e != e2
    ensures e in s.events && s.events[e] == Event(7, PostRun, Device, Pending)
    ensures e2 in s.events && s.events[e2] == Event(8, CheckInputs, Device, Pending)
    ensures s.recursive == 0 && s.pendingCounter == 2
  {
    var s0 := Initial(2, {});
    InitialLevel(2);
    var s1, e1 := Prepare(s0, 7);
    e := e1;
    var s2 := StartIdle(s1);
    ReachOn(s0, s1, s2);
    var s3, e3 := FetchOne(s2, [], 8);
    e2 := e3;
    ReachOn(s0, s2, s3);
    s := StopIdle(s3, []);
    ReachOn(s0, s3, s);
  }

  /** One step, without the guard. */
  lemma OneMore(s0: State, s: State, a: Action)
    requires Reach(s0, s) && Enabled(s, a)
    ensures Reach(s0, Step(s, a))
  {
    ReachStep(s, a);
    ReachOn(s0, s, Step(s, a));
  }

  /** checkEvents( 7 ) runs the first event, and postRunWD reaches finishWork. */
  lemma OuterCall(s0: State, s: State, e: EventId, e2: EventId) returns (s': State)
    requires Reach(s0, s) && Level(s) && s.stack == [] && s.pending == [e, e2] && e != e2 && s.pendingCounter == 2
    requires e in s.events && s.events[e] == Event(7, PostRun, Device, Pending) && s.recursive == 0
    ensures Reach(s0, s') && s'.stack == [Finishing(7), CheckOne(7, 1, 2, [e, e2])] && s'.pending == [e, e2]
    ensures s'.events == s.events[e := s.events[e].(status := Completed)]
    ensures s'.recursive == 0 && s'.pendingCounter == 2 && !s'.crashed
  {
    var s1 := Step(s, OutputsArrive(7));
    OneMore(s0, s, OutputsArrive(7));
    var s2 := Step(s1, RaiseByDevice(e));
    OneMore(s0, s1, RaiseByDevice(e));
    var s3 := Step(s2, CallCheckEventsOf(7));
    OneMore(s0, s2, CallCheckEventsOf(7));
    assert s3.stack == [CheckOne(7, 0, 2, [e, e2])];
    s' := OuterRuns(s0, s3, e, e2);
  }

  lemma OuterRuns(s0: State, s: State, e: EventId, e2: EventId) returns (s': State)
    requires Reach(s0, s) && s.stack == [CheckOne(7, 0, 2, [e, e2])] && s.pending == [e, e2] && 7 in s.outputs
      && !s.crashed
    requires e in s.events && s.events[e] == Event(7, PostRun, Device, Raised) && s.recursive == 0
      && s.pendingCounter == 2
    ensures Reach(s0, s') && s'.stack == [Finishing(7), CheckOne(7, 1, 2, [e, e2])] && s'.pending == [e, e2]
    ensures s'.events == s.events[e := s.events[e].(status := Completed)]
    ensures s'.recursive == 0 && s'.pendingCounter == 2 && !s'.crashed
  {
    var s1 := Step(s, Choice(s, true, None));
    OneMore(s0, s, Choice(s, true, None));
    assert s1.stack == [Doing(PostRun, 7), CheckOne(7, 1, 2, [e, e2])];
    s' := Step(s1, Choice(s1, true, None));
    OneMore(s0, s1, Choice(s1, true, None));
  }

  /** A checkEvents() inside finishWork is the outermost one, and erases the event that is being run. */
  lemma InnerCall(s0: State, s: State, e: EventId, e2: EventId) returns (s': State)
    requires Reach(s0, s) && s.stack == [Finishing(7), CheckOne(7, 1, 2, [e, e2])] && s.pending == [e, e2] && !s.crashed
    requires s.recursive == 0 && s.pendingCounter == 2 && e in s.events && s.events[e].status == Completed
    requires e2 in s.events && s.events[e2] == Event(8, CheckInputs, Device, Pending)
    ensures Reach(s0, s') && s'.stack == s.stack && s'.pending == [e2] && !s'.crashed && s'.events == s.events
  {
    var outer := s.stack;
    var s1 := Step(s, CallCheckEvents);
    OneMore(s0, s, CallCheckEvents);
    assert s1 == s.(recursive := 1, stack := [CheckAll(0, 2, [e, e2])] + outer);
    var s2 := Step(s1, Choice(s1, true, None));
    OneMore(s0, s1, Choice(s1, true, None));
    assert s2 == s.(recursive := 1, stack := [CheckAll(1, 2, [e, e2])] + outer);
    s' := InnerEnds(s0, s2, e, e2, outer);
  }

  lemma InnerEnds(s0: State, s: State, e: EventId, e2: EventId, outer: seq<Frame>) returns (s': State)
    requires Reach(s0, s) && s.stack == [CheckAll(1, 2, [e, e2])] + outer && s.pending == [e, e2] && !s.crashed
    requires s.recursive == 1 && s.pendingCounter == 2 && e in s.events && s.events[e].status == Completed
    requires e2 in s.events && s.events[e2] == Event(8, CheckInputs, Device, Pending)
    ensures Reach(s0, s') && s'.stack == outer && s'.pending == [e2] && !s'.crashed && s'.events == s.events
  {
    var s3 := Step(s, Choice(s, true, None));
    OneMore(s0, s, Choice(s, true, None));
    assert s3 == s.(stack := [CheckAll(2, 2, [e, e2])] + outer);
    s' := Step(s3, Choice(s3, true, None));
    OneMore(s0, s3, Choice(s3, true, None));
    OneLeft(s3, e, e2);
  }

  /** The outer loop goes on to position 1 of a deque with one event. */
  lemma OuterCrashes(s0: State, s: State, e: EventId, e2: EventId) returns (s': State)
    requires Reach(s0, s) && s.stack == [Finishing(7), CheckOne(7, 1, 2, [e, e2])] && s.pending == [e2] && !s.crashed
    ensures Reach(s0, s') && s'.crashed
  {
    var s1 := Step(s, Choice(s, true, None));
    OneMore(s0, s, Choice(s, true, None));
    assert s1.stack == [CheckOne(7, 1, 2, [e, e2])] && s1.pending == [e2];
    s' := Step(s1, Choice(s1, true, None));
    OneMore(s0, s1, Choice(s1, true, None));
  }

  /** A run in which the deque is read past its end. */
  lemma ReadsPastEnd() returns (actions: seq<Action>)
    ensures Possible(Initial(2, {}), actions) && Run(Initial(2, {}), actions).crashed
  {
    var s0 := Initial(2, {});
    var s1, e, e2 := TwoWaiting();
    var s2 := OuterCall(s0, s1, e, e2);
    var s3 := InnerCall(s0, s2, e, e2);
    var s4 := OuterCrashes(s0, s3, e, e2);
    actions :| Leads(s0, actions, s4);
  }
}
