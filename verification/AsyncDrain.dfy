/** The pipeline can always drain: from every state of a guarded run there is a guarded continuation that returns from
    every call, finishes every WD and empties both lists, as the destructor of the thread demands. */
module AsyncDrain {
  import opened Wrappers
  import opened AsyncPipeline
  import opened AsyncInvariant
  import opened AsyncTheorems

  // ----- Guarded continuations -----

  ghost predicate Continues(s: State, s': State) {
    exists actions :: Leads(s, actions, s') && GuardedRun(s, actions)
  }

  lemma ContinuesSelf(s: State)
    ensures Continues(s, s)
  {
    assert Leads(s, [], s) && GuardedRun(s, []);
  }

  lemma {:induction false} GuardedOn(s: State, a: seq<Action>, s1: State, b: seq<Action>, s2: State)
    requires Leads(s, a, s1) && GuardedRun(s, a) && Leads(s1, b, s2) && GuardedRun(s1, b)
    ensures Leads(s, a + b, s2) && GuardedRun(s, a + b)
    decreases |b|
  {
    if b == [] {
      assert a + b == a;
    } else {
      GuardedFurther(s, a, s1, b[0]);
      GuardedOn(s, a + [b[0]], Step(s1, b[0]), b[1..], s2);
      assert a + [b[0]] + b[1..] == a + b;
    }
  }

  lemma ContinuesOn(s: State, s1: State, s2: State)
    requires Continues(s, s1) && Continues(s1, s2)
    ensures Continues(s, s2)
  {
    var a :| Leads(s, a, s1) && GuardedRun(s, a);
    var b :| Leads(s1, b, s2) && GuardedRun(s1, b);
    GuardedOn(s, a, s1, b, s2);
  }

  lemma Do(s: State, a: Action)
    requires Safe(s) && Enabled(s, a) && Guarded(s, a)
    ensures Safe(Step(s, a)) && Continues(s, Step(s, a))
  {
    SafeStep(s, a);
    assert Leads(s, [], s) && GuardedRun(s, []);
    GuardedFurther(s, [], s, a);
  }

  // ----- How much is left to do -----

  /** Every phase, and every call of one, is worth more than all that follows it. */
  function EventWeight(phase: Phase): nat {
    match phase
    case PreRun => 15
    case CheckInputs => 12
    case RunBody => 9
    case CheckOutputs => 5
    case PostRun => 2
  }

  function FrameWeight(f: Frame): nat {
    match f
    case Doing(phase, _) => EventWeight(phase) - 1
    case Executing(_) => 6
    case _ => 0
  }

  function StackWeight(stack: seq<Frame>): nat {
    if stack == [] then 0 else StackWeight(stack[1..]) + FrameWeight(stack[0])
  }

  /** The uncompleted events that will call a phase. */
  function Awaiting(events: map<EventId, Event>, phase: Phase): set<EventId> {
    set e | e in events && events[e].status != Completed && events[e].next == phase
  }

  function EventsWeight(events: map<EventId, Event>): nat {
    15 * |Awaiting(events, PreRun)| + 12 * |Awaiting(events, CheckInputs)| + 9 * |Awaiting(events, RunBody)|
    + 5 * |Awaiting(events, CheckOutputs)| + 2 * |Awaiting(events, PostRun)|
  }

  function Left(s: State): nat {
    EventsWeight(s.events) + StackWeight(s.stack)
  }

  lemma AwaitingAdd(events: map<EventId, Event>, id: EventId, event: Event, phase: Phase)
    requires id !in events && event.status != Completed
    ensures |Awaiting(events[id := event], phase)| == |Awaiting(events, phase)| + if event.next == phase then 1 else 0
  {
    if event.next == phase {
      assert Awaiting(events[id := event], phase) == Awaiting(events, phase) + {id};
    } else {
      assert Awaiting(events[id := event], phase) == Awaiting(events, phase);
    }
  }

  lemma WeightAdd(events: map<EventId, Event>, id: EventId, event: Event)
    requires id !in events && event.status != Completed
    ensures EventsWeight(events[id := event]) == EventsWeight(events) + EventWeight(event.next)
  {
    AwaitingAdd(events, id, event, PreRun);
    AwaitingAdd(events, id, event, CheckInputs);
    AwaitingAdd(events, id, event, RunBody);
    AwaitingAdd(events, id, event, CheckOutputs);
    AwaitingAdd(events, id, event, PostRun);
  }

  lemma AwaitingComplete(events: map<EventId, Event>, e: EventId, phase: Phase)
    requires e in events && events[e].status != Completed
    ensures |Awaiting(events[e := events[e].(status := Completed)], phase)| ==
      |Awaiting(events, phase)| - if events[e].next == phase then 1 else 0
  {
    var events' := events[e := events[e].(status := Completed)];
    if events[e].next == phase {
      assert e in Awaiting(events, phase);
      assert Awaiting(events', phase) == Awaiting(events, phase) - {e};
    } else {
      assert Awaiting(events', phase) == Awaiting(events, phase);
    }
  }

  lemma WeightComplete(events: map<EventId, Event>, e: EventId)
    requires e in events && events[e].status != Completed
    ensures EventsWeight(events[e := events[e].(status := Completed)])
      == EventsWeight(events) - EventWeight(events[e].next)
  {
    AwaitingComplete(events, e, PreRun);
    AwaitingComplete(events, e, CheckInputs);
    AwaitingComplete(events, e, RunBody);
    AwaitingComplete(events, e, CheckOutputs);
    AwaitingComplete(events, e, PostRun);
  }

  lemma WeightRaise(events: map<EventId, Event>, e: EventId)
    requires e in events && events[e].status == Pending
    ensures EventsWeight(events[e := events[e].(status := Raised)]) == EventsWeight(events)
  {
    var events' := events[e := events[e].(status := Raised)];
    assert Awaiting(events', PreRun) == Awaiting(events, PreRun);
    assert Awaiting(events', CheckInputs) == Awaiting(events, CheckInputs);
    assert Awaiting(events', RunBody) == Awaiting(events, RunBody);
    assert Awaiting(events', CheckOutputs) == Awaiting(events, CheckOutputs);
    assert Awaiting(events', PostRun) == Awaiting(events, PostRun);
  }

  // ----- How far a stack is from returning, while nothing else happens -----

  /** Idle loops that will call checkEvents() before they can stop. */
  function Restarts(stack: seq<Frame>): nat {
    if stack == [] then 0
    else Restarts(stack[1..]) + if stack[0] == Idle(Starting) || stack[0] == Idle(Added) then 1 else 0
  }

  function Rounds(f: Frame): nat {
    if IsCheck(f) && f.i < f.max then f.max - f.i + 1 else 1
  }

  function Turns(stack: seq<Frame>): nat {
    if stack == [] then 0 else Turns(stack[1..]) + Rounds(stack[0])
  }

  lemma ConsWeights(f: Frame, rest: seq<Frame>)
    ensures StackWeight([f] + rest) == StackWeight(rest) + FrameWeight(f)
    ensures Turns([f] + rest) == Turns(rest) + Rounds(f)
    ensures Restarts([f] + rest) == Restarts(rest) + if f == Idle(Starting) || f == Idle(Added) then 1 else 0
  {
    assert ([f] + rest)[1..] == rest;
  }

  /** Every running WD has its data and no predecessors. */
  predicate GoodEnv(s: State) {
    forall wd :: wd in s.running ==> wd in s.inputs && wd in s.outputs && wd !in s.blocked
  }

  /** The state is closer to the end. */
  predicate Closer(s: State, s': State) {
    || Left(s') < Left(s)
    || (Left(s') == Left(s) && Restarts(s'.stack) < Restarts(s.stack))
    || (Left(s') == Left(s) && Restarts(s'.stack) == Restarts(s.stack) && Turns(s'.stack) < Turns(s.stack))
  }

  lemma CloserVisit(s: State, wanted: set<Wd>, any: bool)
    requires s.stack != [] && IsCheck(s.stack[0]) && s.stack[0].i < s.stack[0].max
    requires s.stack[0].i < |s.pending| && s.pending[s.stack[0].i] in s.events
    ensures var i := s.stack[0].i;
      var s' := Visit(s, i, wanted, any, s.stack[0].(i := i + 1));
      && Closer(s, s') && s'.running == s.running
      && (any && IsRaised(s, s.events[s.pending[i]]) ==> Left(s') < Left(s))
  {
    var f, rest := s.stack[0], s.stack[1..];
    var next, e := f.(i := f.i + 1), s.pending[f.i];
    assert s.stack == [f] + rest;
    ConsWeights(f, rest);
    ConsWeights(next, rest);
    if (any || s.events[e].wd in wanted) && IsRaised(s, s.events[e]) {
      var d := Doing(s.events[e].next, s.events[e].wd);
      WeightComplete(s.events, e);
      ConsWeights(d, [next] + rest);
      assert [d, next] + rest == [d] + ([next] + rest);
    }
  }

  lemma CloserEnd(s: State, id: EventId, event: Event)
    requires s.stack != [] && id !in s.events && event.status != Completed
    requires EventWeight(event.next) < FrameWeight(s.stack[0])
    ensures Closer(s, EndWith(s, id, event))
  {
    WeightAdd(s.events, id, event);
  }

  lemma CloserPhase(s: State, phase: Phase, wd: Wd, id: EventId)
    requires s.stack != [] && s.stack[0] == Doing(phase, wd) && id !in s.events
    requires wd in s.inputs && wd in s.outputs && wd !in s.blocked
    ensures Closer(s, DoPhase(s, phase, wd, true, id))
  {
    var rest := s.stack[1..];
    match phase
    case PreRun => CloserEnd(s, id, Event(wd, CheckInputs, Device, Pending));
    case CheckInputs =>
      ConsWeights(Calling(wd), rest);
      ConsWeights(Doing(RunBody, wd), [Calling(wd)] + rest);
    case RunBody => ConsWeights(Executing(wd), rest);
    case CheckOutputs => CloserEnd(s, id, Event(wd, PostRun, Device, Pending));
    case PostRun => ConsWeights(Finishing(wd), rest);
  }

  lemma CloserIdle(s: State, stage: IdleStage)
    requires s.stack != [] && s.stack[0] == Idle(stage)
    ensures var s' := DoIdle(s, stage, false, None); Closer(s, s') && s'.running == s.running
  {
    var rest := s.stack[1..];
    if stage.Starting? || stage.Added? {
      var c := CallCheck(Replace(s, Idle(Looping))).stack[0];
      ConsWeights(Idle(Looping), rest);
      ConsWeights(c, [Idle(Looping)] + rest);
    }
  }

  /** The step that leads home: phases go on, loops go on, idle loops stop. */
  ghost function Homeward(s: State): Action
    requires s.stack != []
  {
    Advance(!s.stack[0].Idle?, None, Unused(s.events.Keys))
  }

  lemma CloserCheck(s: State)
    requires Safe(s) && s.stack != [] && IsCheck(s.stack[0])
    ensures var s' := DoAdvance(s, true, None, Unused(s.events.Keys)); Closer(s, s') && s'.running == s.running
  {
    var f := s.stack[0];
    assert IndexOk(true, s.pending, f);
    if f.i < f.max {
      assert s.pending[f.i] in s.pending;
      CloserVisit(s, if f.CheckAll? then {} else {f.wd}, f.CheckAll?);
    }
  }

  lemma HomewardIsCloser(s: State)
    requires Safe(s) && GoodEnv(s) && s.stack != []
    ensures Enabled(s, Homeward(s)) && Closer(s, Step(s, Homeward(s)))
  {
    var id := Unused(s.events.Keys);
    match s.stack[0]
    case CheckAll(_, _, _) => CloserCheck(s);
    case CheckOne(_, _, _, _) => CloserCheck(s);
    case Doing(phase, wd) =>
      TopHolds(s, wd);
      CloserPhase(s, phase, wd, id);
    case Executing(wd) => CloserEnd(s, id, Event(wd, CheckOutputs, Device, Pending));
    case Calling(_) =>
    case Finishing(_) =>
    case Idle(stage) => CloserIdle(s, stage);
  }

  /** What going home leaves alone. */
  ghost predicate Home(s: State, s': State) {
    Safe(s') && GoodEnv(s') && s'.added == s.added && Continues(s, s') && Left(s') <= Left(s)
  }

  lemma HomewardKeeps(s: State)
    requires Safe(s) && GoodEnv(s) && s.stack != [] && Enabled(s, Homeward(s))
    ensures GoodEnv(Step(s, Homeward(s))) && Step(s, Homeward(s)).added == s.added
  {
    var s' := Step(s, Homeward(s));
    forall wd | wd in s'.running ensures wd in s.running {
      if s.stack[0].Doing? { RemovedMembers(s.running, s.stack[0].wd, wd); }
    }
  }

  /** Every call in progress returns. */
  lemma {:induction false} Return(s: State) returns (s': State)
    requires Safe(s) && GoodEnv(s)
    ensures Home(s, s') && s'.stack == []
    decreases Left(s), Restarts(s.stack), Turns(s.stack)
  {
    if s.stack == [] {
      s' := s;
      ContinuesSelf(s);
    } else {
      HomewardIsCloser(s);
      HomewardKeeps(s);
      Do(s, Homeward(s));
      var s1 := Step(s, Homeward(s));
      s' := Return(s1);
      ContinuesOn(s, s1, s');
    }
  }

  // ----- One event after the other -----

  /** The loop of checkEvents() is about to look at an event. */
  predicate Before(s: State) {
    && s.stack != [] && s.stack[0].CheckAll? && s.stack[0].i < s.stack[0].max && s.stack[0].i < |s.pending|
    && s.pending[s.stack[0].i] in s.events
  }

  lemma RunsOne(s: State) returns (s': State)
    requires Safe(s) && GoodEnv(s) && Before(s) && IsRaised(s, s.events[s.pending[s.stack[0].i]])
    ensures Home(s, s') && Left(s') < Left(s)
  {
    HomewardKeeps(s);
    Do(s, Homeward(s));
    s' := Step(s, Homeward(s));
    LessLeft(s, s');
  }

  lemma LessLeft(s: State, s': State)
    requires Before(s) && IsRaised(s, s.events[s.pending[s.stack[0].i]]) && CheckStep(s, s')
    ensures Left(s') < Left(s)
  {
    CloserVisit(s, {}, true);
  }

  /** An event that is not raised is passed over. */
  lemma SkipsOne(s: State) returns (s': State)
    requires Safe(s) && GoodEnv(s) && Before(s) && !IsRaised(s, s.events[s.pending[s.stack[0].i]])
    ensures Home(s, s') && s' == Replace(s, CheckAll(s.stack[0].i + 1, s.stack[0].max, s.stack[0].seen))
  {
    var f, rest := s.stack[0], s.stack[1..];
    HomewardKeeps(s);
    Do(s, Homeward(s));
    s' := Step(s, Homeward(s));
    assert s.stack == [f] + rest;
    ConsWeights(f, rest);
    ConsWeights(CheckAll(f.i + 1, f.max, f.seen), rest);
  }

  /** A checkEvents() with a raised event before it makes progress. */
  lemma {:induction false} RunRaised(s: State, j: nat) returns (s': State)
    requires Safe(s) && GoodEnv(s) && s.stack != [] && s.stack[0].CheckAll? && s.stack[0].i <= j < s.stack[0].max
    requires j < |s.pending| && s.pending[j] in s.events && IsRaised(s, s.events[s.pending[j]])
    ensures Home(s, s') && Left(s') < Left(s)
    decreases j - s.stack[0].i
  {
    assert s.pending[s.stack[0].i] in s.pending;
    if IsRaised(s, s.events[s.pending[s.stack[0].i]]) {
      s' := RunsOne(s);
    } else {
      var s1 := SkipsOne(s);
      s' := RunRaised(s1, j);
      ContinuesOn(s, s1, s');
    }
  }

  /** The event of a running WD, raised. */
  lemma RaiseOne(s: State) returns (s': State, e: EventId)
    requires Safe(s) && GoodEnv(s) && s.stack == [] && s.running != []
    ensures Home(s, s') && s'.stack == [] && e in s'.pending && e in s'.events && IsRaised(s', s'.events[e])
  {
    var wd := s.running[0];
    assert TokenOk(s.events, s.stack, s.running, wd);
    assert Live(s.events, wd) != {};
    e :| e in Live(s.events, wd);
    assert EventOk(s.bodies, s.inputs, s.events[e]);
    if s.events[e].status == Pending && s.events[e].trigger == Device {
      WeightRaise(s.events, e);
      Do(s, RaiseByDevice(e));
      s' := Step(s, RaiseByDevice(e));
    } else {
      s' := s;
      ContinuesSelf(s);
    }
  }

  lemma DrainOne(s: State) returns (s': State)
    requires Safe(s) && GoodEnv(s) && s.stack == [] && s.running != []
    ensures Home(s, s') && s'.stack == [] && Left(s') < Left(s)
  {
    var s1, e := RaiseOne(s);
    var j :| 0 <= j < |s1.pending| && s1.pending[j] == e;
    Do(s1, CallCheckEvents);
    var s2 := Step(s1, CallCheckEvents);
    ConsWeights(s2.stack[0], []);
    assert s2.stack == [s2.stack[0]] + [];
    ContinuesOn(s, s1, s2);
    var s3 := RunRaised(s2, j);
    ContinuesOn(s, s2, s3);
    s' := Return(s3);
    ContinuesOn(s, s3, s');
  }

  lemma {:induction false} Drain(s: State) returns (s': State)
    requires Safe(s) && GoodEnv(s) && s.stack == []
    ensures Home(s, s') && s'.stack == [] && s'.running == []
    decreases Left(s)
  {
    if s.running == [] {
      s' := s;
      ContinuesSelf(s);
    } else {
      var s1 := DrainOne(s);
      s' := Drain(s1);
      ContinuesOn(s, s1, s');
    }
  }

  // ----- The world does its part -----

  lemma {:induction false} MakeGood(s: State, n: nat) returns (s': State)
    requires Safe(s) && n <= |s.running|
    ensures Safe(s') && Continues(s, s') && s'.running == s.running && s'.added == s.added
    ensures forall k :: 0 <= k < n ==>
      s.running[k] in s'.inputs && s.running[k] in s'.outputs && s.running[k] !in s'.blocked
  {
    if n == 0 {
      s' := s;
      ContinuesSelf(s);
    } else {
      var s1 := MakeGood(s, n - 1);
      var wd := s.running[n - 1];
      Do(s1, InputsArrive(wd));
      var s2 := Step(s1, InputsArrive(wd));
      ContinuesOn(s, s1, s2);
      Do(s2, OutputsArrive(wd));
      var s3 := Step(s2, OutputsArrive(wd));
      ContinuesOn(s, s2, s3);
      Do(s3, PredecessorsDone(wd));
      s' := Step(s3, PredecessorsDone(wd));
      ContinuesOn(s, s3, s');
    }
  }

  // ----- The deque is emptied -----

  lemma {:induction false} AllErased(events: map<EventId, Event>, pending: seq<EventId>)
    requires forall e :: e in pending ==> e in events && events[e].status == Completed
    ensures CompletedPrefix(events, pending) == |pending|
  {
    if pending != [] { AllErased(events, pending[1..]); }
  }

  lemma {:induction false} PassCompleted(s: State)
    requires Safe(s) && s.stack != [] && s.stack[0].CheckAll?
    requires forall e :: e in s.events ==> s.events[e].status == Completed
    ensures Safe(EndCheckAll(s)) && Continues(s, EndCheckAll(s))
    decreases s.stack[0].max - s.stack[0].i
  {
    var f, a := s.stack[0], Homeward(s);
    Do(s, a);
    if f.i < f.max {
      var s1 := Step(s, a);
      assert IndexOk(true, s.pending, f);
      assert s.pending[f.i] in s.pending;
      assert s1 == Replace(s, CheckAll(f.i + 1, f.max, f.seen));
      PassCompleted(s1);
      assert EndCheckAll(s1) == EndCheckAll(s);
      ContinuesOn(s, s1, EndCheckAll(s));
    }
  }

  lemma EraseAll(s: State) returns (s': State)
    requires Safe(s) && s.stack == [] && s.running == []
    ensures Safe(s') && Continues(s, s') && s'.stack == [] && s'.running == [] && s'.pending == []
      && s'.added == s.added
  {
    forall e | e in s.events ensures s.events[e].status == Completed { NothingLive(s, e); }
    Do(s, CallCheckEvents);
    var s1 := Step(s, CallCheckEvents);
    PassCompleted(s1);
    AllErased(s.events, s.pending);
    s' := EndCheckAll(s1);
    ContinuesOn(s, s1, s');
  }

  /** From every state of a guarded run there is a guarded continuation after which no call is in progress, both lists
      and both counters are empty, and every WD that was ever added has run once and was finished once. */
  lemma CanDrain(maxPrefetch: nat, blocked: set<Wd>, actions: seq<Action>) returns (more: seq<Action>)
    requires Possible(Initial(maxPrefetch, blocked), actions) && GuardedRun(Initial(maxPrefetch, blocked), actions)
    ensures var s := Run(Initial(maxPrefetch, blocked), actions);
      && Possible(s, more) && GuardedRun(s, more)
      && var end := Run(s, more);
         && end.stack == [] && end.running == [] && end.runningCounter == 0
         && end.pending == [] && end.pendingCounter == 0 && end.added == s.added
         && forall wd :: wd in end.added ==> end.bodies[wd] == 1 && end.finished[wd] == 1
  {
    var s := Run(Initial(maxPrefetch, blocked), actions);
    InitialInv(maxPrefetch, blocked);
    GuardedRunIsSafe(Initial(maxPrefetch, blocked), actions);
    var s1 := MakeGood(s, |s.running|);
    var s2 := Return(s1);
    ContinuesOn(s, s1, s2);
    var s3 := Drain(s2);
    ContinuesOn(s, s2, s3);
    var end := EraseAll(s3);
    ContinuesOn(s, s3, end);
    more :| Leads(s, more, end) && GuardedRun(s, more);
    forall wd | wd in end.added ensures end.bodies[wd] == 1 && end.finished[wd] == 1 {
      assert HistoryOk(end.running, end.added, end.bodies, end.finished, wd);
    }
  }
}
