/** Every step of the pipeline keeps its invariant. */
module AsyncInvariant {
  import opened Wrappers
  import opened AsyncPipeline

  // ----- Stacks -----

  lemma Cons(f: Frame, rest: seq<Frame>)
    ensures ([f] + rest)[0] == f && ([f] + rest)[1..] == rest
    ensures Checks([f] + rest) == Checks(rest) + if f.CheckAll? then 1 else 0
    ensures Windows([f] + rest) == Windows(rest) + if f == Idle(Fetching) then 1 else 0
  {
    assert ([f] + rest)[1..] == rest;
  }

  lemma HoldingCons(f: Frame, rest: seq<Frame>, wd: Wd)
    ensures Holding([f] + rest, wd) == Holding(rest, wd) + if Holds(f, wd) then 1 else 0
  {
    assert ([f] + rest)[1..] == rest;
  }

  lemma {:induction false} HeldByNobody(stack: seq<Frame>, wd: Wd)
    requires Holding(stack, wd) == 0
    ensures forall k :: 0 <= k < |stack| ==> !Holds(stack[k], wd)
  {
    if stack != [] {
      HeldByNobody(stack[1..], wd);
      assert forall k :: 1 <= k < |stack| ==> stack[k] == stack[1..][k - 1];
    }
  }

  /** A frame that is responsible for nothing. */
  predicate Neutral(f: Frame) {
    !f.Doing? && !f.Executing?
  }

  // ----- Phases -----

  /** The call on top of the stack gives way to `news`; nothing else happens. */
  ghost predicate SameButStack(s: State, s': State) {
    && s'.events == s.events && s'.running == s.running && s'.added == s.added
    && s'.bodies == s.bodies && s'.finished == s.finished && s.inputs <= s'.inputs
  }

  lemma PhasesSame(s: State, s': State)
    requires PhasesOk(s) && SameButStack(s, s')
    requires forall wd :: Holding(s'.stack, wd) == Holding(s.stack, wd)
    requires forall k {:trigger s'.stack[k]} :: 0 <= k < |s'.stack| ==> FrameOk(s'.bodies, s'.inputs, s'.stack[k])
    ensures PhasesOk(s')
  {
    forall wd ensures TokenOk(s'.events, s'.stack, s'.running, wd) { assert TokenOk(s.events, s.stack, s.running, wd); }
    forall wd ensures HistoryOk(s'.running, s'.added, s'.bodies, s'.finished, wd) {
      assert HistoryOk(s.running, s.added, s.bodies, s.finished, wd);
    }
    forall e | e in s'.events ensures EventOk(s'.bodies, s'.inputs, s'.events[e]) {
      assert EventOk(s.bodies, s.inputs, s.events[e]);
    }
  }

  lemma PhasesPush(s: State, s': State, f: Frame)
    requires PhasesOk(s) && SameButStack(s, s') && s'.stack == [f] + s.stack && Neutral(f)
    ensures PhasesOk(s')
  {
    forall wd ensures Holding(s'.stack, wd) == Holding(s.stack, wd) { HoldingCons(f, s.stack, wd); }
    forall k | 0 <= k < |s'.stack| ensures FrameOk(s'.bodies, s'.inputs, s'.stack[k]) {
      if k > 0 { assert s'.stack[k] == s.stack[k - 1]; }
    }
    PhasesSame(s, s');
  }

  lemma PhasesPop(s: State, s': State)
    requires PhasesOk(s) && SameButStack(s, s') && s.stack != [] && Neutral(s.stack[0]) && s'.stack == s.stack[1..]
    ensures PhasesOk(s')
  {
    forall k | 0 <= k < |s'.stack| ensures FrameOk(s'.bodies, s'.inputs, s'.stack[k]) {
      assert s'.stack[k] == s.stack[k + 1];
    }
    PhasesSame(s, s');
  }

  lemma PhasesReplace(s: State, s': State, f: Frame)
    requires PhasesOk(s) && SameButStack(s, s') && s.stack != [] && Neutral(s.stack[0]) && Neutral(f)
    requires s'.stack == [f] + s.stack[1..]
    ensures PhasesOk(s')
  {
    var mid := Pop(s).(inputs := s'.inputs);
    PhasesPop(s, mid);
    PhasesPush(mid, s', f);
  }

  /** The only token of a WD is on top of the stack. */
  lemma TopHolds(s: State, wd: Wd)
    requires PhasesOk(s) && s.stack != [] && Holds(s.stack[0], wd)
    ensures wd in s.running && Live(s.events, wd) == {}
    ensures forall k :: 1 <= k < |s.stack| ==> !Holds(s.stack[k], wd)
    ensures Holding(s.stack[1..], wd) == 0
  {
    assert TokenOk(s.events, s.stack, s.running, wd);
    HeldByNobody(s.stack[1..], wd);
    assert forall k :: 1 <= k < |s.stack| ==> s.stack[k] == s.stack[1..][k - 1];
  }

  lemma LiveAdd(events: map<EventId, Event>, id: EventId, event: Event, wd: Wd)
    requires id !in events && event.status != Completed
    ensures |Live(events[id := event], wd)| == |Live(events, wd)| + if event.wd == wd then 1 else 0
  {
    if event.wd == wd {
      assert Live(events[id := event], wd) == Live(events, wd) + {id};
    } else {
      assert Live(events[id := event], wd) == Live(events, wd);
    }
  }

  /** A phase ends by queueing an event: the token moves from the stack to the deque. */
  lemma PhasesEnd(s: State, id: EventId, event: Event)
    requires PhasesOk(s) && s.stack != [] && Holds(s.stack[0], event.wd) && id !in s.events
    requires event.status != Completed && EventOk(s.bodies, s.inputs, event)
    ensures PhasesOk(EndWith(s, id, event))
  {
    var s' := EndWith(s, id, event);
    forall wd ensures TokenOk(s'.events, s'.stack, s'.running, wd) {
      assert TokenOk(s.events, s.stack, s.running, wd);
      LiveAdd(s.events, id, event, wd);
    }
    forall wd ensures HistoryOk(s'.running, s'.added, s'.bodies, s'.finished, wd) {
      assert HistoryOk(s.running, s.added, s.bodies, s.finished, wd);
    }
    forall e | e in s'.events ensures EventOk(s'.bodies, s'.inputs, s'.events[e]) {
      if e != id { assert EventOk(s.bodies, s.inputs, s.events[e]); }
    }
    forall k | 0 <= k < |s'.stack| ensures FrameOk(s'.bodies, s'.inputs, s'.stack[k]) {
      assert s'.stack[k] == s.stack[k + 1];
    }
  }

  lemma LiveComplete(events: map<EventId, Event>, e: EventId, wd: Wd)
    requires e in events && events[e].status != Completed
    ensures |Live(events[e := events[e].(status := Completed)], wd)| ==
      |Live(events, wd)| - if events[e].wd == wd then 1 else 0
  {
    var events' := events[e := events[e].(status := Completed)];
    if events[e].wd == wd {
      assert e in Live(events, wd);
      assert Live(events', wd) == Live(events, wd) - {e};
    } else {
      assert Live(events', wd) == Live(events, wd);
    }
  }

  /** Processing an event: the token moves from the deque to the stack. */
  lemma PhasesProcess(s: State, e: EventId, caller: Frame)
    requires PhasesOk(s) && s.stack != [] && Neutral(s.stack[0]) && Neutral(caller)
    requires e in s.events && IsRaised(s, s.events[e])
    ensures PhasesOk(Process(s, e, caller))
  {
    var s', event := Process(s, e, caller), s.events[e];
    var f, rest := Doing(event.next, event.wd), s.stack[1..];
    assert s'.stack == [f] + ([caller] + rest);
    assert EventOk(s.bodies, s.inputs, event);
    forall wd ensures TokenOk(s'.events, s'.stack, s'.running, wd) {
      assert TokenOk(s.events, s.stack, s.running, wd);
      LiveComplete(s.events, e, wd);
      HoldingCons(f, [caller] + rest, wd);
      HoldingCons(caller, rest, wd);
    }
    forall wd ensures HistoryOk(s'.running, s'.added, s'.bodies, s'.finished, wd) {
      assert HistoryOk(s.running, s.added, s.bodies, s.finished, wd);
    }
    forall e1 | e1 in s'.events ensures EventOk(s'.bodies, s'.inputs, s'.events[e1]) {
      assert EventOk(s.bodies, s.inputs, s.events[e1]);
    }
    forall k | 0 <= k < |s'.stack| ensures FrameOk(s'.bodies, s'.inputs, s'.stack[k]) {
      if k > 1 { assert s'.stack[k] == s.stack[k - 1]; }
    }
  }

  lemma PhasesVisit(s: State, i: nat, wanted: set<Wd>, any: bool, caller: Frame)
    requires PhasesOk(s) && s.stack != [] && Neutral(s.stack[0]) && Neutral(caller)
    ensures PhasesOk(Visit(s, i, wanted, any, caller))
  {
    var s' := Visit(s, i, wanted, any, caller);
    if i < |s.pending| && s.pending[i] in s.events {
      var e := s.pending[i];
      if (any || s.events[e].wd in wanted) && IsRaised(s, s.events[e]) {
        PhasesProcess(s, e, caller);
      } else {
        PhasesReplace(s, s', caller);
      }
    } else {
      assert SameButStack(s, s') && s'.stack == s.stack;
      PhasesSame(s, s');
    }
  }

  /** checkWDInputs hands the token to runWD. */
  lemma PhasesCallRun(s: State, wd: Wd)
    requires PhasesOk(s) && s.stack != [] && s.stack[0] == Doing(CheckInputs, wd) && wd in s.inputs
    ensures PhasesOk(Push(Replace(s, Calling(wd)), Doing(RunBody, wd)))
  {
    var s', rest := Push(Replace(s, Calling(wd)), Doing(RunBody, wd)), s.stack[1..];
    assert FrameOk(s.bodies, s.inputs, s.stack[0]);
    forall w ensures Holding(s'.stack, w) == Holding(s.stack, w) {
      HoldingCons(Doing(RunBody, wd), [Calling(wd)] + rest, w);
      HoldingCons(Calling(wd), rest, w);
    }
    forall k | 0 <= k < |s'.stack| ensures FrameOk(s'.bodies, s'.inputs, s'.stack[k]) {
      if k > 1 { assert s'.stack[k] == s.stack[k - 1]; }
    }
    PhasesSame(s, s');
  }

  /** The body runs: the count changes for the WD on top of the stack, and nothing else knows that WD. */
  lemma PhasesBody(s: State, wd: Wd)
    requires PhasesOk(s) && s.stack != [] && s.stack[0] == Doing(RunBody, wd)
    ensures PhasesOk(Replace(s, Executing(wd)).(bodies := s.bodies + multiset{wd}))
  {
    var s' := Replace(s, Executing(wd)).(bodies := s.bodies + multiset{wd});
    TopHolds(s, wd);
    assert FrameOk(s.bodies, s.inputs, s.stack[0]);
    forall w ensures TokenOk(s'.events, s'.stack, s'.running, w) {
      assert TokenOk(s.events, s.stack, s.running, w);
      HoldingCons(Executing(wd), s.stack[1..], w);
    }
    forall w ensures HistoryOk(s'.running, s'.added, s'.bodies, s'.finished, w) {
      assert HistoryOk(s.running, s.added, s.bodies, s.finished, w);
    }
    forall e | e in s'.events ensures EventOk(s'.bodies, s'.inputs, s'.events[e]) {
      assert EventOk(s.bodies, s.inputs, s.events[e]);
      assert e !in Live(s.events, wd);
    }
    forall k | 0 <= k < |s'.stack| ensures FrameOk(s'.bodies, s'.inputs, s'.stack[k]) {
      if k > 0 { assert s'.stack[k] == s.stack[k] && FrameOk(s.bodies, s.inputs, s.stack[k]); }
    }
  }

  lemma {:induction false} RemovedMembers(running: seq<Wd>, wd: Wd, w: Wd)
    ensures w in Removed(running, wd) <==> w in running && w != wd
  {
    if running != [] { RemovedMembers(running[1..], wd, w); }
  }

  /** finishWork: the WD leaves the list together with its token. */
  lemma PhasesFinish(s: State, s': State, wd: Wd)
    requires PhasesOk(s) && s.stack != [] && s.stack[0] == Doing(PostRun, wd)
    requires s'.events == s.events && s'.added == s.added && s'.bodies == s.bodies && s'.inputs == s.inputs
    requires s'.stack == [Finishing(wd)] + s.stack[1..] && s'.running == Removed(s.running, wd)
    requires s'.finished == s.finished + multiset{wd}
    ensures PhasesOk(s')
  {
    TopHolds(s, wd);
    assert FrameOk(s.bodies, s.inputs, s.stack[0]);
    forall w ensures TokenOk(s'.events, s'.stack, s'.running, w) {
      assert TokenOk(s.events, s.stack, s.running, w);
      HoldingCons(Finishing(wd), s.stack[1..], w);
      RemovedMembers(s.running, wd, w);
    }
    forall w ensures HistoryOk(s'.running, s'.added, s'.bodies, s'.finished, w) {
      assert HistoryOk(s.running, s.added, s.bodies, s.finished, w);
      RemovedMembers(s.running, wd, w);
    }
    forall e | e in s'.events ensures EventOk(s'.bodies, s'.inputs, s'.events[e]) {
      assert EventOk(s.bodies, s.inputs, s.events[e]);
    }
    forall k | 0 <= k < |s'.stack| ensures FrameOk(s'.bodies, s'.inputs, s'.stack[k]) {
      if k > 0 { assert s'.stack[k] == s.stack[k]; }
    }
  }

  /** A fetched WD gets its first token. */
  lemma PhasesFetch(s: State, s': State, wd: Wd)
    requires PhasesOk(s) && s.stack != [] && s.stack[0] == Idle(Fetching) && wd !in s.added
    requires s'.events == s.events && s'.bodies == s.bodies && s'.finished == s.finished && s'.inputs == s.inputs
    requires s'.stack == [Doing(PreRun, wd)] + ([Idle(Added)] + s.stack[1..])
    requires s'.running == s.running + [wd] && s'.added == s.added + {wd}
    ensures PhasesOk(s')
  {
    var rest := s.stack[1..];
    assert HistoryOk(s.running, s.added, s.bodies, s.finished, wd);
    forall w ensures TokenOk(s'.events, s'.stack, s'.running, w) {
      assert TokenOk(s.events, s.stack, s.running, w);
      HoldingCons(Doing(PreRun, wd), [Idle(Added)] + rest, w);
      HoldingCons(Idle(Added), rest, w);
    }
    forall w ensures HistoryOk(s'.running, s'.added, s'.bodies, s'.finished, w) {
      assert HistoryOk(s.running, s.added, s.bodies, s.finished, w);
    }
    forall e | e in s'.events ensures EventOk(s'.bodies, s'.inputs, s'.events[e]) {
      assert EventOk(s.bodies, s.inputs, s.events[e]);
    }
    forall k | 0 <= k < |s'.stack| ensures FrameOk(s'.bodies, s'.inputs, s'.stack[k]) {
      if k > 1 { assert s'.stack[k] == s.stack[k - 1]; }
    }
  }

  /** So does a WD added from outside. */
  lemma PhasesAdd(s: State, wd: Wd)
    requires PhasesOk(s) && wd !in s.added
    ensures PhasesOk(AddOutside(s, wd))
  {
    var s' := AddOutside(s, wd);
    assert HistoryOk(s.running, s.added, s.bodies, s.finished, wd);
    forall w ensures TokenOk(s'.events, s'.stack, s'.running, w) {
      assert TokenOk(s.events, s.stack, s.running, w);
      HoldingCons(Doing(PreRun, wd), s.stack, w);
    }
    forall w ensures HistoryOk(s'.running, s'.added, s'.bodies, s'.finished, w) {
      assert HistoryOk(s.running, s.added, s.bodies, s.finished, w);
    }
    forall e | e in s'.events ensures EventOk(s'.bodies, s'.inputs, s'.events[e]) {
      assert EventOk(s.bodies, s.inputs, s.events[e]);
    }
    forall k | 0 <= k < |s'.stack| ensures FrameOk(s'.bodies, s'.inputs, s'.stack[k]) {
      if k > 0 { assert s'.stack[k] == s.stack[k - 1]; }
    }
  }

  lemma PhasesRaise(s: State, e: EventId)
    requires PhasesOk(s) && Enabled(s, RaiseByDevice(e))
    ensures PhasesOk(s.(events := s.events[e := s.events[e].(status := Raised)]))
  {
    var s' := s.(events := s.events[e := s.events[e].(status := Raised)]);
    forall wd ensures TokenOk(s'.events, s'.stack, s'.running, wd) {
      assert TokenOk(s.events, s.stack, s.running, wd);
      assert Live(s'.events, wd) == Live(s.events, wd);
    }
    forall wd ensures HistoryOk(s'.running, s'.added, s'.bodies, s'.finished, wd) {
      assert HistoryOk(s.running, s.added, s.bodies, s.finished, wd);
    }
    forall e1 | e1 in s'.events ensures EventOk(s'.bodies, s'.inputs, s'.events[e1]) {
      assert EventOk(s.bodies, s.inputs, s.events[e1]);
    }
    forall k | 0 <= k < |s'.stack| ensures FrameOk(s'.bodies, s'.inputs, s'.stack[k]) {
      assert s'.stack[k] == s.stack[k];
    }
  }

  lemma PhasesPhase(s: State, phase: Phase, wd: Wd, flag: bool, id: EventId)
    requires PhasesOk(s) && s.stack != [] && s.stack[0] == Doing(phase, wd) && id !in s.events
    ensures PhasesOk(DoPhase(s, phase, wd, flag, id))
  {
    assert FrameOk(s.bodies, s.inputs, s.stack[0]);
    match phase
    case PreRun =>
      if flag { PhasesEnd(s, id, Event(wd, CheckInputs, Device, Pending)); }
      else { PhasesEnd(s, id, Event(wd, PreRun, Device, Raised)); }
    case CheckInputs =>
      if wd in s.inputs { PhasesCallRun(s, wd); }
      else { PhasesEnd(s, id, Event(wd, RunBody, WhenInputsReady, Pending)); }
    case RunBody =>
      if wd in s.blocked { PhasesEnd(s, id, Event(wd, RunBody, Device, Raised)); } else { PhasesBody(s, wd); }
    case CheckOutputs => PhasesEnd(s, id, Event(wd, PostRun, Device, Pending));
    case PostRun =>
      if wd !in s.outputs { PhasesEnd(s, id, Event(wd, PostRun, WhenOutputsReady, Pending)); }
      else { PhasesFinish(s, DoPhase(s, phase, wd, flag, id), wd); }
  }

  /** Replacing the top and calling checkEvents. */
  lemma PhasesReplaceCall(s: State, s': State, f: Frame, c: Frame)
    requires PhasesOk(s) && SameButStack(s, s') && s.stack != [] && Neutral(s.stack[0]) && Neutral(f) && Neutral(c)
    requires s'.stack == [c] + ([f] + s.stack[1..])
    ensures PhasesOk(s')
  {
    var mid := Replace(s, f).(inputs := s'.inputs);
    PhasesReplace(s, mid, f);
    PhasesPush(mid, s', c);
  }

  lemma PhasesIdle(s: State, stage: IdleStage, flag: bool, fetched: Option<Wd>)
    requires PhasesOk(s) && s.stack != [] && s.stack[0] == Idle(stage) && (fetched.Some? ==> fetched.value !in s.added)
    ensures PhasesOk(DoIdle(s, stage, flag, fetched))
  {
    var s' := DoIdle(s, stage, flag, fetched);
    match stage
    case Starting => PhasesReplaceCall(s, s', Idle(Looping), s'.stack[0]);
    case Looping =>
      if flag && s.runningCounter < s.maxPrefetch { PhasesReplaceCall(s, s', Idle(Fetching), s'.stack[0]); }
      else { PhasesPop(s, s'); }
    case Fetching =>
      match fetched {
        case None => PhasesPop(s, s');
        case Some(wd) => PhasesFetch(s, s', wd);
      }
    case Added => PhasesReplaceCall(s, s', Idle(Looping), s'.stack[0]);
  }

  lemma PhasesAdvance(s: State, flag: bool, fetched: Option<Wd>, id: EventId)
    requires PhasesOk(s) && Enabled(s, Advance(flag, fetched, id))
    ensures PhasesOk(DoAdvance(s, flag, fetched, id))
  {
    var s' := DoAdvance(s, flag, fetched, id);
    match s.stack[0]
    case CheckAll(i, max, seen) =>
      if i < max { PhasesVisit(s, i, {}, true, CheckAll(i + 1, max, seen)); } else { PhasesPop(s, s'); }
    case CheckOne(wd, i, max, seen) =>
      if i < max { PhasesVisit(s, i, {wd}, false, CheckOne(wd, i + 1, max, seen)); } else { PhasesPop(s, s'); }
    case Doing(phase, wd) => PhasesPhase(s, phase, wd, flag, id);
    case Executing(wd) =>
      assert FrameOk(s.bodies, s.inputs, s.stack[0]);
      PhasesEnd(s, id, Event(wd, CheckOutputs, Device, Pending));
    case Calling(_) => PhasesPop(s, s');
    case Finishing(_) => PhasesPop(s, s');
    case Idle(stage) => PhasesIdle(s, stage, flag, fetched);
  }

  lemma PhasesStep(s: State, a: Action)
    requires PhasesOk(s) && Enabled(s, a)
    ensures PhasesOk(Step(s, a))
  {
    var s' := Step(s, a);
    match a
    case CallCheckEvents => PhasesPush(s, s', s'.stack[0]);
    case CallCheckEventsOf(wd) => PhasesPush(s, s', s'.stack[0]);
    case CallIdle => PhasesPush(s, s', Idle(Starting));
    case CallAddNextWD(wd) => PhasesAdd(s, wd);
    case Advance(flag, fetched, id) => PhasesAdvance(s, flag, fetched, id);
    case RaiseByDevice(e) => PhasesRaise(s, e);
    case InputsArrive(wd) => PhasesSameStack(s, s');
    case OutputsArrive(wd) => PhasesSameStack(s, s');
    case PredecessorsDone(wd) => PhasesSameStack(s, s');
  }

  lemma PhasesSameStack(s: State, s': State)
    requires PhasesOk(s) && SameButStack(s, s') && s'.stack == s.stack
    ensures PhasesOk(s')
  {
    forall k | 0 <= k < |s'.stack| ensures FrameOk(s'.bodies, s'.inputs, s'.stack[k]) {
      assert FrameOk(s.bodies, s.inputs, s.stack[k]);
    }
    PhasesSame(s, s');
  }

  // ----- Lists and counters -----

  /** Only the stack changes, and with it the recursion counter. */
  ghost predicate SameLists(s: State, s': State) {
    && s'.events == s.events && s'.pending == s.pending && s'.pendingCounter == s.pendingCounter
    && s'.running == s.running && s'.runningCounter == s.runningCounter && s'.processed == s.processed
    && s'.maxPrefetch == s.maxPrefetch && s'.added == s.added && s'.outsiders == s.outsiders
  }

  lemma ListsSame(s: State, s': State)
    requires ListsOk(s) && SameLists(s, s') && s'.deepest == s.deepest
    requires s'.recursive - s.recursive == Checks(s'.stack) - Checks(s.stack)
    requires Windows(s'.stack) <= Windows(s.stack)
    ensures ListsOk(s')
  {
    forall e ensures ProcessedOk(s'.processed, s'.events, e) { assert ProcessedOk(s.processed, s.events, e); }
  }

  lemma DistinctAppend(ids: seq<nat>, id: nat)
    requires Distinct(ids) && id !in ids
    ensures Distinct(ids + [id])
  {
  }

  lemma ListsEnd(s: State, id: EventId, event: Event)
    requires ListsOk(s) && s.stack != [] && id !in s.events && event.status != Completed
    requires s.stack[0].Doing? || s.stack[0].Executing?
    ensures ListsOk(EndWith(s, id, event))
  {
    var s' := EndWith(s, id, event);
    DistinctAppend(s.pending, id);
    forall e ensures ProcessedOk(s'.processed, s'.events, e) { assert ProcessedOk(s.processed, s.events, e); }
  }

  lemma ListsProcess(s: State, e: EventId, caller: Frame)
    requires ListsOk(s) && s.stack != [] && e in s.events && IsRaised(s, s.events[e])
    requires caller.CheckAll? == s.stack[0].CheckAll? && !caller.Idle? && !s.stack[0].Idle?
    ensures ListsOk(Process(s, e, caller))
  {
    var s', f := Process(s, e, caller), Doing(s.events[e].next, s.events[e].wd);
    assert s'.stack == [f] + ([caller] + s.stack[1..]);
    Cons(f, [caller] + s.stack[1..]);
    Cons(caller, s.stack[1..]);
    forall e1 ensures ProcessedOk(s'.processed, s'.events, e1) { assert ProcessedOk(s.processed, s.events, e1); }
  }

  lemma ListsVisit(s: State, i: nat, wanted: set<Wd>, any: bool, caller: Frame)
    requires ListsOk(s) && s.stack != []
    requires caller.CheckAll? == s.stack[0].CheckAll? && !caller.Idle? && !s.stack[0].Idle?
    ensures ListsOk(Visit(s, i, wanted, any, caller))
  {
    var s' := Visit(s, i, wanted, any, caller);
    if i < |s.pending| && s.pending[i] in s.events {
      var e := s.pending[i];
      if (any || s.events[e].wd in wanted) && IsRaised(s, s.events[e]) {
        ListsProcess(s, e, caller);
      } else {
        Cons(caller, s.stack[1..]);
        ListsSame(s, s');
      }
    } else {
      ListsSame(s, s');
    }
  }

  lemma {:induction false} CompletedPrefixIs(events: map<EventId, Event>, pending: seq<EventId>)
    ensures var n := CompletedPrefix(events, pending);
      && (forall i :: 0 <= i < n ==> pending[i] in events && events[pending[i]].status == Completed)
      && (n < |pending| && pending[n] in events ==> events[pending[n]].status != Completed)
  {
    if pending != [] && pending[0] in events && events[pending[0]].status == Completed {
      CompletedPrefixIs(events, pending[1..]);
      var n := CompletedPrefix(events, pending[1..]);
      assert forall i :: 1 <= i < n + 1 ==> pending[i] == pending[1..][i - 1];
    }
  }

  /** The cleanup erases completed events only. */
  lemma DequeCleanup(events: map<EventId, Event>, pending: seq<EventId>)
    requires DequeOk(events, pending)
    ensures DequeOk(events, pending[CompletedPrefix(events, pending)..])
  {
    var n := CompletedPrefix(events, pending);
    CompletedPrefixIs(events, pending);
    forall e | e in events && events[e].status != Completed ensures e in pending[n..] {
      var i :| 0 <= i < |pending| && pending[i] == e;
      assert i >= n;
      assert pending[n..][i - n] == e;
    }
  }

  lemma ListsEndCheckAll(s: State)
    requires ListsOk(s) && s.stack != [] && s.stack[0].CheckAll?
    ensures ListsOk(EndCheckAll(s))
  {
    if s.recursive == 1 {
      DequeCleanup(s.events, s.pending);
      ListsErased(s, EndCheckAll(s), CompletedPrefix(s.events, s.pending));
    } else {
      assert s.pending[0..] == s.pending;
      ListsErased(s, EndCheckAll(s), 0);
    }
  }

  lemma ListsErased(s: State, s': State, n: nat)
    requires ListsOk(s) && s.stack != [] && s.stack[0].CheckAll? && n <= |s.pending|
      && DequeOk(s.events, s.pending[n..])
    requires s' == s.(pending := s.pending[n..], pendingCounter := s.pendingCounter - n, recursive := s.recursive - 1,
                      stack := s.stack[1..])
    ensures ListsOk(s')
  {
    forall e ensures ProcessedOk(s'.processed, s'.events, e) { assert ProcessedOk(s.processed, s.events, e); }
  }

  lemma {:induction false} RemovedOnce(running: seq<Wd>, wd: Wd)
    requires Distinct(running)
    ensures |Removed(running, wd)| == |running| - (if wd in running then 1 else 0)
    ensures Distinct(Removed(running, wd))
  {
    if running != [] {
      RemovedOnce(running[1..], wd);
      var rest := Removed(running[1..], wd);
      forall w ensures w in rest ==> w in running[1..] { RemovedMembers(running[1..], wd, w); }
      assert running[0] !in running[1..];
      assert running == [running[0]] + running[1..];
    }
  }

  lemma {:induction false} FetchedRemoved(running: seq<Wd>, outsiders: set<Wd>, wd: Wd)
    ensures Fetched(Removed(running, wd), outsiders) <= Fetched(running, outsiders)
  {
    if running != [] {
      FetchedRemoved(running[1..], outsiders, wd);
      if running[0] != wd {
        var rest := Removed(running[1..], wd);
        assert ([running[0]] + rest)[1..] == rest;
      }
    }
  }

  /** A new WD at the end counts unless it comes from outside. */
  lemma {:induction false} FetchedAppend(running: seq<Wd>, outsiders: set<Wd>, wd: Wd)
    ensures Fetched(running + [wd], outsiders) == Fetched(running, outsiders) + if wd in outsiders then 0 else 1
  {
    if running == [] {
      assert (running + [wd])[1..] == [];
    } else {
      FetchedAppend(running[1..], outsiders, wd);
      assert (running + [wd])[1..] == running[1..] + [wd];
    }
  }

  lemma {:induction false} FetchedOthers(running: seq<Wd>, outsiders: set<Wd>, wd: Wd)
    requires wd !in running
    ensures Fetched(running, outsiders + {wd}) == Fetched(running, outsiders)
  {
    if running != [] { FetchedOthers(running[1..], outsiders, wd); }
  }

  lemma {:induction false} FetchedAtMost(running: seq<Wd>, outsiders: set<Wd>)
    ensures Fetched(running, outsiders) <= |running|
  {
    if running != [] { FetchedAtMost(running[1..], outsiders); }
  }

  lemma ListsAdd(s: State, wd: Wd)
    requires ListsOk(s) && wd !in s.added && wd !in s.running
    ensures ListsOk(AddOutside(s, wd))
  {
    var s' := AddOutside(s, wd);
    Cons(Doing(PreRun, wd), s.stack);
    DistinctAppend(s.running, wd);
    FetchedAppend(s.running, s'.outsiders, wd);
    FetchedOthers(s.running, s.outsiders, wd);
    forall e ensures ProcessedOk(s'.processed, s'.events, e) { assert ProcessedOk(s.processed, s.events, e); }
  }

  lemma ListsFinish(s: State, wd: Wd)
    requires ListsOk(s) && s.stack != [] && s.stack[0] == Doing(PostRun, wd) && wd in s.running && wd in s.outputs
    ensures ListsOk(DoPhase(s, PostRun, wd, true, 0))
  {
    var s' := DoPhase(s, PostRun, wd, true, 0);
    RemovedOnce(s.running, wd);
    FetchedRemoved(s.running, s.outsiders, wd);
    Cons(Finishing(wd), s.stack[1..]);
    forall e ensures ProcessedOk(s'.processed, s'.events, e) { assert ProcessedOk(s.processed, s.events, e); }
  }

  lemma ListsPhase(s: State, phase: Phase, wd: Wd, flag: bool, id: EventId)
    requires Inv(s) && s.stack != [] && s.stack[0] == Doing(phase, wd) && id !in s.events
    ensures ListsOk(DoPhase(s, phase, wd, flag, id))
  {
    var s' := DoPhase(s, phase, wd, flag, id);
    match phase
    case PreRun =>
      if flag { ListsEnd(s, id, Event(wd, CheckInputs, Device, Pending)); }
      else { ListsEnd(s, id, Event(wd, PreRun, Device, Raised)); }
    case CheckInputs =>
      if wd in s.inputs {
        Cons(Doing(RunBody, wd), [Calling(wd)] + s.stack[1..]);
        Cons(Calling(wd), s.stack[1..]);
        ListsSame(s, s');
      } else { ListsEnd(s, id, Event(wd, RunBody, WhenInputsReady, Pending)); }
    case RunBody =>
      if wd in s.blocked { ListsEnd(s, id, Event(wd, RunBody, Device, Raised)); } else {
        Cons(Executing(wd), s.stack[1..]);
        ListsSame(s, s');
      }
    case CheckOutputs => ListsEnd(s, id, Event(wd, PostRun, Device, Pending));
    case PostRun =>
      if wd !in s.outputs { ListsEnd(s, id, Event(wd, PostRun, WhenOutputsReady, Pending)); } else {
        TopHolds(s, wd);
        ListsFinish(s, wd);
      }
  }

  /** canGetWork() said yes: one more idle loop may add a WD. */
  lemma ListsOpen(s: State, s': State, c: Frame)
    requires ListsOk(s) && SameLists(s, s') && s.stack != [] && s.stack[0] == Idle(Looping)
    requires |s.running| < s.maxPrefetch && c.CheckAll?
    requires s'.stack == [c] + ([Idle(Fetching)] + s.stack[1..]) && s'.recursive == s.recursive + 1
    requires s'.deepest >= s.deepest && s'.deepest >= Windows(s.stack) + 1
    ensures ListsOk(s')
  {
    Cons(c, [Idle(Fetching)] + s.stack[1..]);
    Cons(Idle(Fetching), s.stack[1..]);
    FetchedAtMost(s.running, s.outsiders);
    assert Windows(s'.stack) == Windows(s.stack) + 1;
    forall e ensures ProcessedOk(s'.processed, s'.events, e) { assert ProcessedOk(s.processed, s.events, e); }
  }

  lemma ListsFetch(s: State, s': State, wd: Wd)
    requires ListsOk(s) && s.stack != [] && s.stack[0] == Idle(Fetching) && wd !in s.running && wd !in s.added
    requires s' == DoIdle(s, Fetching, true, Some(wd))
    ensures ListsOk(s')
  {
    Cons(Doing(PreRun, wd), [Idle(Added)] + s.stack[1..]);
    Cons(Idle(Added), s.stack[1..]);
    DistinctAppend(s.running, wd);
    FetchedAppend(s.running, s.outsiders, wd);
    assert Windows(s.stack) == Windows(s.stack[1..]) + 1;
    forall e ensures ProcessedOk(s'.processed, s'.events, e) { assert ProcessedOk(s.processed, s.events, e); }
  }

  lemma ListsReplaceCall(s: State, s': State, f: Frame, c: Frame)
    requires ListsOk(s) && SameLists(s, s') && s'.deepest == s.deepest && s.stack != [] && s.stack[0].Idle?
    requires f.Idle? && f != Idle(Fetching) && c.CheckAll?
    requires s'.stack == [c] + ([f] + s.stack[1..]) && s'.recursive == s.recursive + 1
    ensures ListsOk(s')
  {
    Cons(c, [f] + s.stack[1..]);
    Cons(f, s.stack[1..]);
    ListsSame(s, s');
  }

  lemma ListsIdle(s: State, stage: IdleStage, flag: bool, fetched: Option<Wd>)
    requires Inv(s) && s.stack != [] && s.stack[0] == Idle(stage) && (fetched.Some? ==> fetched.value !in s.added)
    ensures ListsOk(DoIdle(s, stage, flag, fetched))
  {
    var s' := DoIdle(s, stage, flag, fetched);
    match stage
    case Starting => ListsReplaceCall(s, s', Idle(Looping), s'.stack[0]);
    case Looping =>
      if flag && s.runningCounter < s.maxPrefetch { ListsOpen(s, s', s'.stack[0]); } else { ListsSame(s, s'); }
    case Fetching =>
      match fetched {
        case None => ListsSame(s, s');
        case Some(wd) =>
          assert HistoryOk(s.running, s.added, s.bodies, s.finished, wd);
          ListsFetch(s, s', wd);
      }
    case Added => ListsReplaceCall(s, s', Idle(Looping), s'.stack[0]);
  }

  lemma ListsPop(s: State)
    requires ListsOk(s) && s.stack != [] && !s.stack[0].CheckAll?
    ensures ListsOk(Pop(s))
  {
    ListsSame(s, Pop(s));
  }

  /** A round of checkEvents() or checkEvents( wd ), or its end. */
  predicate CheckStep(s: State, s': State)
    requires s.stack != []
  {
    match s.stack[0]
    case CheckAll(i, max, seen) =>
      s' == if i < max then Visit(s, i, {}, true, CheckAll(i + 1, max, seen)) else EndCheckAll(s)
    case CheckOne(wd, i, max, seen) =>
      s' == if i < max then Visit(s, i, {wd}, false, CheckOne(wd, i + 1, max, seen)) else Pop(s)
    case _ => false
  }

  lemma ListsCheck(s: State, s': State)
    requires ListsOk(s) && s.stack != [] && CheckStep(s, s')
    ensures ListsOk(s')
  {
    match s.stack[0]
    case CheckAll(i, max, seen) => if i < max { ListsCheckVisit(s, {}, true); } else { ListsEndCheckAll(s); }
    case CheckOne(wd, i, max, seen) => if i < max { ListsCheckVisit(s, {wd}, false); } else { ListsPop(s); }
  }

  lemma ListsCheckVisit(s: State, wanted: set<Wd>, any: bool)
    requires ListsOk(s) && s.stack != [] && (s.stack[0].CheckAll? || s.stack[0].CheckOne?)
    ensures ListsOk(Visit(s, s.stack[0].i, wanted, any, s.stack[0].(i := s.stack[0].i + 1)))
  {
    ListsVisit(s, s.stack[0].i, wanted, any, s.stack[0].(i := s.stack[0].i + 1));
  }

  lemma ListsAdvance(s: State, flag: bool, fetched: Option<Wd>, id: EventId)
    requires Inv(s) && Enabled(s, Advance(flag, fetched, id))
    ensures ListsOk(DoAdvance(s, flag, fetched, id))
  {
    match s.stack[0]
    case CheckAll(i, max, seen) => ListsCheck(s, DoAdvance(s, flag, fetched, id));
    case CheckOne(wd, i, max, seen) => ListsCheck(s, DoAdvance(s, flag, fetched, id));
    case Doing(phase, wd) => ListsPhase(s, phase, wd, flag, id);
    case Executing(wd) => ListsEnd(s, id, Event(wd, CheckOutputs, Device, Pending));
    case Calling(_) => ListsPop(s);
    case Finishing(_) => ListsPop(s);
    case Idle(stage) => ListsIdle(s, stage, flag, fetched);
  }

  lemma ListsRaise(s: State, e: EventId)
    requires ListsOk(s) && Enabled(s, RaiseByDevice(e))
    ensures ListsOk(s.(events := s.events[e := s.events[e].(status := Raised)]))
  {
    var s' := s.(events := s.events[e := s.events[e].(status := Raised)]);
    forall e1 ensures ProcessedOk(s'.processed, s'.events, e1) { assert ProcessedOk(s.processed, s.events, e1); }
  }

  lemma ListsCall(s: State, s': State)
    requires ListsOk(s) && SameLists(s, s') && s'.deepest == s.deepest && s'.stack != [] && s'.stack[1..] == s.stack
    requires s'.stack[0] != Idle(Fetching) && s'.recursive == s.recursive + if s'.stack[0].CheckAll? then 1 else 0
    ensures ListsOk(s')
  {
    ListsSame(s, s');
  }

  lemma StepKeepsInv(s: State, a: Action)
    requires Inv(s) && Enabled(s, a)
    ensures Inv(Step(s, a))
  {
    var s' := Step(s, a);
    PhasesStep(s, a);
    match a
    case CallCheckEvents => ListsCall(s, s');
    case CallCheckEventsOf(wd) => ListsCall(s, s');
    case CallIdle => ListsCall(s, s');
    case CallAddNextWD(wd) =>
      assert HistoryOk(s.running, s.added, s.bodies, s.finished, wd);
      ListsAdd(s, wd);
    case Advance(flag, fetched, id) => ListsAdvance(s, flag, fetched, id);
    case RaiseByDevice(e) => ListsRaise(s, e);
    case InputsArrive(wd) => ListsSame(s, s');
    case OutputsArrive(wd) => ListsSame(s, s');
    case PredecessorsDone(wd) => ListsSame(s, s');
  }

  lemma {:induction false} RunKeepsInv(s: State, actions: seq<Action>)
    requires Inv(s) && Possible(s, actions)
    ensures Inv(Run(s, actions))
    decreases |actions|
  {
    if actions != [] {
      StepKeepsInv(s, actions[0]);
      RunKeepsInv(Step(s, actions[0]), actions[1..]);
    }
  }

  lemma InitialInv(maxPrefetch: nat, blocked: set<Wd>)
    ensures Inv(Initial(maxPrefetch, blocked))
  {
    var s := Initial(maxPrefetch, blocked);
    forall wd ensures TokenOk(s.events, s.stack, s.running, wd) { assert Live(s.events, wd) == {}; }
  }

  lemma ReachableInv(maxPrefetch: nat, blocked: set<Wd>, actions: seq<Action>)
    requires Possible(Initial(maxPrefetch, blocked), actions)
    ensures Inv(Run(Initial(maxPrefetch, blocked), actions))
  {
    InitialInv(maxPrefetch, blocked);
    RunKeepsInv(Initial(maxPrefetch, blocked), actions);
  }
}
