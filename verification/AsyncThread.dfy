/** The asynchronous thread as an object: its lists, counters and loops.  `st` and `trace` record which run of the
    pipeline the calls amount to, so everything shown for all runs holds of the object. */
module AsyncThreads {
  import opened Wrappers
  import opened AsyncPipeline
  import opened AsyncInvariant
  import opened AsyncTheorems

  /** A raised event stays raised until it is completed, and a completed one stays completed. */
  predicate EventLater(s: State, s': State, e: EventId) {
    && s.inputs <= s'.inputs && s.outputs <= s'.outputs
    && (e in s.events ==>
         && e in s'.events && s'.events[e] == s.events[e].(status := s'.events[e].status)
         && (s.events[e].status == Completed ==> s'.events[e].status == Completed)
         && (s.events[e].status == Raised ==> s'.events[e].status != Pending))
  }

  lemma StepLater(s: State, a: Action, e: EventId)
    requires Enabled(s, a)
    ensures EventLater(s, Step(s, a), e)
  {
    if a.Advance? { AdvanceLater(s, a.flag, a.fetched, a.id, e); }
  }

  lemma AdvanceLater(s: State, flag: bool, fetched: Option<Wd>, id: EventId, e: EventId)
    requires s.stack != [] && id !in s.events
    ensures EventLater(s, DoAdvance(s, flag, fetched, id), e)
  {
    match s.stack[0]
    case CheckAll(i, max, seen) => VisitLater(s, i, {}, true, CheckAll(i + 1, max, seen), e);
    case CheckOne(wd, i, max, seen) => VisitLater(s, i, {wd}, false, CheckOne(wd, i + 1, max, seen), e);
    case Doing(phase, wd) => PhaseLater(s, phase, wd, flag, id, e);
    case Idle(stage) => IdleLater(s, stage, flag, fetched, e);
    case _ =>
  }

  lemma IdleLater(s: State, stage: IdleStage, flag: bool, fetched: Option<Wd>, e: EventId)
    requires s.stack != []
    ensures EventLater(s, DoIdle(s, stage, flag, fetched), e)
  {
  }

  lemma VisitLater(s: State, i: nat, wanted: set<Wd>, any: bool, caller: Frame, e: EventId)
    requires s.stack != []
    ensures EventLater(s, Visit(s, i, wanted, any, caller), e)
  {
  }

  lemma PhaseLater(s: State, phase: Phase, wd: Wd, flag: bool, id: EventId, e: EventId)
    requires s.stack != [] && id !in s.events
    ensures EventLater(s, DoPhase(s, phase, wd, flag, id), e)
  {
  }

  lemma {:induction false} RunLater(s: State, actions: seq<Action>, more: seq<Action>, e: EventId)
    requires Possible(s, actions) && Possible(s, more) && actions <= more
    ensures EventLater(Run(s, actions), Run(s, more), e)
    decreases |more|
  {
    if more != [] {
      if actions == [] {
        StepLater(s, more[0], e);
        assert Possible(Step(s, more[0]), []);
        RunLater(Step(s, more[0]), [], more[1..], e);
      } else {
        RunLater(Step(s, actions[0]), actions[1..], more[1..], e);
      }
    }
  }

  /** Once raised, an event is raised or completed ever after. */
  lemma RaisedLater(s: State, s': State, e: EventId)
    requires EventLater(s, s', e) && e in s.events && IsRaised(s, s.events[e])
    ensures IsRaised(s', s'.events[e]) || s'.events[e].status == Completed
  {
  }

  /** A step of checkEvents() or checkEvents( wd ) completes the event at its position if and only if it is raised and,
      in checkEvents( wd ), belongs to that WD; it completes no other. */
  lemma CompletesIff(s: State, flag: bool, fetched: Option<Wd>, id: EventId, e: EventId)
    requires ListsOk(s) && Enabled(s, Advance(flag, fetched, id)) && IsCheck(s.stack[0]) && s.stack[0].i < |s.pending|
    requires e in s.events && s.events[e].status != Completed
    ensures e in Step(s, Advance(flag, fetched, id)).events
    ensures Step(s, Advance(flag, fetched, id)).events[e].status == Completed <==>
      && s.stack[0].i < s.stack[0].max && e == s.pending[s.stack[0].i] && IsRaised(s, s.events[e])
      && (s.stack[0].CheckOne? ==> s.events[e].wd == s.stack[0].wd)
  {
    assert s.pending[s.stack[0].i] in s.pending;
  }

  /** Every WD that prefetch handed out was added by the idle loop, except possibly `waiting`. */
  ghost predicate Placed(s: State, answers: seq<Option<Wd>>, waiting: Option<Wd>) {
    forall wd :: Some(wd) in answers && waiting != Some(wd) ==> wd in s.added && wd !in s.outsiders
  }

  lemma StepPlaced(s: State, a: Action, wd: Wd)
    requires Enabled(s, a) && wd in s.added && wd !in s.outsiders
    ensures wd in Step(s, a).added && wd !in Step(s, a).outsiders
  {
  }

  lemma StepFinished(s: State, a: Action, wd: Wd)
    requires Enabled(s, a)
    ensures Step(s, a).finished[wd] >= s.finished[wd]
  {
  }

  /** What is finished stays finished. */
  lemma {:induction false} RunFinished(s: State, actions: seq<Action>, more: seq<Action>, wd: Wd)
    requires Possible(s, actions) && Possible(s, more) && actions <= more
    ensures Run(s, more).finished[wd] >= Run(s, actions).finished[wd]
    decreases |more|
  {
    if more != [] {
      if actions == [] {
        StepFinished(s, more[0], wd);
        assert Possible(Step(s, more[0]), []);
        RunFinished(Step(s, more[0]), [], more[1..], wd);
      } else {
        RunFinished(Step(s, actions[0]), actions[1..], more[1..], wd);
      }
    }
  }

  lemma IdleEnters(s: State, stage: IdleStage, id: EventId)
    requires ListsOk(s) && s.stack != [] && s.stack[0] == Idle(stage) && !stage.Fetching? && !s.crashed
      && id !in s.events
    requires stage.Looping? ==> s.runningCounter < s.maxPrefetch
    ensures Enabled(s, Advance(true, None, id))
    ensures EntersCheck(s, Step(s, Advance(true, None, id)))
    ensures Step(s, Advance(true, None, id)).stack[1..]
      == [Idle(if stage.Looping? then Fetching else Looping)] + s.stack[1..]
  {
  }

  /** A round of the loop of checkEvents() or checkEvents( wd ). */
  ghost predicate Visiting(f: Frame, i: nat, wanted: set<Wd>, any: bool, next: Frame) {
    if any then f.CheckAll? && f.i == i < f.max && next == CheckAll(i + 1, f.max, f.seen)
    else f.CheckOne? && wanted == {f.wd} && f.i == i < f.max && next == CheckOne(f.wd, i + 1, f.max, f.seen)
  }

  lemma VisitingStep(s: State, i: nat, wanted: set<Wd>, any: bool, next: Frame, id: EventId)
    requires s.stack != [] && Visiting(s.stack[0], i, wanted, any, next)
    ensures DoAdvance(s, true, None, id) == Visit(s, i, wanted, any, next)
  {
  }

  /** The state after addNextWD has put the WD into the list, about to call preRunWD. */
  function AddedState(s: State, wd: Wd, fromIdle: bool): State
    requires fromIdle ==> s.stack != []
  {
    var below := if fromIdle then [Idle(Added)] + s.stack[1..] else s.stack;
    s.(stack := [Doing(PreRun, wd)] + below, running := s.running + [wd], runningCounter := s.runningCounter + 1,
       added := s.added + {wd}, outsiders := if fromIdle then s.outsiders else s.outsiders + {wd})
  }

  function AddAction(wd: Wd, fromIdle: bool, id: EventId): Action {
    if fromIdle then Advance(true, Some(wd), id) else CallAddNextWD(wd)
  }

  ghost predicate CanAdd(s: State, fromIdle: bool) {
    if fromIdle then s.stack != [] && s.stack[0] == Idle(Fetching) else MayAdd(s)
  }

  lemma AddSteps(s: State, wd: Wd, fromIdle: bool, id: EventId)
    requires CanAdd(s, fromIdle) && !s.crashed && id !in s.events && wd !in s.added
    ensures Enabled(s, AddAction(wd, fromIdle, id)) && Guarded(s, AddAction(wd, fromIdle, id))
    ensures Step(s, AddAction(wd, fromIdle, id)) == AddedState(s, wd, fromIdle)
  {
  }

  class AsyncThread {
    const maxPrefetch: nat
    const predecessors: set<Wd>                // the WDs that start with predecessors
    var events: map<EventId, Event>            // the event objects
    var nextId: EventId
    var pendingEvents: seq<EventId>
    var pendingEventsCounter: int
    var runningWDs: seq<Wd>
    var runningWDsCounter: int
    var recursiveCounter: int
    var inputsReady: set<Wd>
    var outputsReady: set<Wd>
    var blocked: set<Wd>
    var nextWd: Wd                             // the scheduler's: WDs from here on were never handed out
    var ofCalls: nat                           // the callers': calls of checkEvents( wd ) in progress
    var gettingWork: bool                      // BaseThread::canGetWork, switched on and off from outside
    ghost var answers: seq<Option<Wd>>         // history: what prefetch answered
    ghost var allocations: seq<(Wd, bool)>     // history: whether the memory of a WD could be allocated
    ghost var st: State
    ghost var trace: seq<Action>

    ghost predicate Valid()
      reads this
    {
      Core() && Placed(st, answers, None)
    }

    ghost predicate Core()
      reads this
    {
      Traced() && Mirrors() && (st.recursive == 0 && ofCalls == 0 ==> NoCheckOne(st.stack))
    }

    /** What every call keeps of the point it starts at. */
    twostate predicate Later()
      reads this
    {
      && old(trace) <= trace && ofCalls == old(ofCalls)
      && old(answers) <= answers && old(allocations) <= allocations
    }

    ghost predicate Traced()
      reads this
    {
      && Safe(st)
      && Leads(Initial(maxPrefetch, predecessors), trace, st) && GuardedRun(Initial(maxPrefetch, predecessors), trace)
    }

    ghost predicate Mirrors()
      reads this
    {
      MirrorsState(st)
    }

    ghost predicate MirrorsState(s: State)
      reads this
    {
      && events == s.events && pendingEvents == s.pending && pendingEventsCounter == s.pendingCounter
      && runningWDs == s.running && runningWDsCounter == s.runningCounter && recursiveCounter == s.recursive
      && inputsReady == s.inputs && outputsReady == s.outputs && blocked == s.blocked && maxPrefetch == s.maxPrefetch
      && (forall e :: e in events ==> e < nextId) && (forall wd :: wd in s.added ==> wd < nextWd)
    }

    constructor (maxPrefetch: nat, predecessors: set<Wd>)
      ensures Valid() && st.stack == [] && runningWDs == [] && pendingEvents == [] && answers == []
    {
      this.maxPrefetch, this.predecessors := maxPrefetch, predecessors;
      events, nextId, pendingEvents, pendingEventsCounter := map[], 0, [], 0;
      runningWDs, runningWDsCounter, recursiveCounter := [], 0, 0;
      inputsReady, outputsReady, blocked, nextWd, ofCalls := {}, {}, predecessors, 0, 0;
      gettingWork, answers, allocations := true, [], [];
      st, trace := Initial(maxPrefetch, predecessors), [];
      InitialInv(maxPrefetch, predecessors);
    }

    /** One step of the pipeline is over. */
    ghost method Take(a: Action)
      requires Traced() && Enabled(st, a) && Guarded(st, a)
      modifies `st, `trace
      ensures Traced() && st == Step(old(st), a) && trace == old(trace) + [a]
      ensures forall waiting :: Placed(old(st), answers, waiting) ==> Placed(st, answers, waiting)
    {
      forall wd | wd in st.added && wd !in st.outsiders
        ensures wd in Step(st, a).added && wd !in Step(st, a).outsiders
      {
        StepPlaced(st, a, wd);
      }
      SafeStep(st, a);
      GuardedFurther(Initial(maxPrefetch, predecessors), trace, st, a);
      st, trace := Step(st, a), trace + [a];
    }

    /** The call on top of the stack takes a step. */
    ghost method Go(flag: bool, id: EventId)
      requires Traced() && st.stack != [] && !st.stack[0].Idle? && id !in st.events
      modifies `st, `trace
      ensures Traced() && st == DoAdvance(old(st), flag, None, id) && old(trace) <= trace
      ensures Placed(old(st), answers, None) ==> Placed(st, answers, None)
    {
      Take(Advance(flag, None, id));
    }

    method AddEvent(event: Event)
      modifies `events, `nextId, `pendingEvents, `pendingEventsCounter
      ensures events == old(events)[old(nextId) := event] && nextId == old(nextId) + 1
      ensures pendingEvents == old(pendingEvents) + [old(nextId)]
        && pendingEventsCounter == old(pendingEventsCounter) + 1
    {
      events := events[nextId := event];
      pendingEvents := pendingEvents + [nextId];
      pendingEventsCounter := pendingEventsCounter + 1;
      nextId := nextId + 1;
    }

    /** The event at the end of the deque. */
    ghost predicate LastQueued(event: Event)
      reads this
    {
      && pendingEvents != [] && pendingEvents[|pendingEvents| - 1] in events
      && events[pendingEvents[|pendingEvents| - 1]] == event
    }

    /** The phase on top of the stack ends by queueing `event`. */
    method EndPhase(event: Event, ghost flag: bool)
      requires Valid() && st.stack != [] && (st.stack[0].Doing? || st.stack[0].Executing?)
      requires DoAdvance(st, flag, None, nextId) == EndWith(st, nextId, event)
      modifies this
      ensures Valid() && Later() && st.stack == old(st.stack)[1..]
        && LastQueued(event) && allocations == old(allocations)
    {
      ghost var id := nextId;
      AddEvent(event);
      Go(flag, id);
    }

    // ----- What the thread calls and does not control -----

    method InputDataArrives(wd: Wd)
      requires Valid()
      modifies this
      ensures Valid() && Later() && st.stack == old(st.stack)
    {
      Take(InputsArrive(wd));
      inputsReady := inputsReady + {wd};
    }

    method OutputDataArrives(wd: Wd)
      requires Valid()
      modifies this
      ensures Valid() && Later() && st.stack == old(st.stack)
    {
      Take(OutputsArrive(wd));
      outputsReady := outputsReady + {wd};
    }

    method PredecessorsFinish(wd: Wd)
      requires Valid()
      modifies this
      ensures Valid() && Later() && st.stack == old(st.stack)
    {
      Take(PredecessorsDone(wd));
      blocked := blocked - {wd};
    }

    method DeviceRaises(e: EventId)
      requires Valid() && e in events && events[e].status == Pending && events[e].trigger == Device
      modifies this
      ensures Valid() && Later() && st.stack == old(st.stack)
    {
      Take(RaiseByDevice(e));
      events := events[e := events[e].(status := Raised)];
    }

    /** Data arrives, predecessors finish, a device raises an event, or the thread may or may not get work. */
    method World()
      requires Valid()
      modifies this
      ensures Valid() && Later() && st.stack == old(st.stack)
    {
      var what: nat, which: nat := *, *;
      if what == 0 {
        InputDataArrives(which);
      } else if what == 1 {
        OutputDataArrives(which);
      } else if what == 2 {
        PredecessorsFinish(which);
      } else if what == 3 {
        gettingWork := !gettingWork;
      } else if which in events && events[which].status == Pending && events[which].trigger == Device {
        DeviceRaises(which);
      }
    }

    /** Code outside the thread; it may call checkEvents or idle again, `depth` levels deep at most.  Inside a
        checkEvents( wd ) it does so only if that is itself inside a checkEvents(). */
    method Outside(depth: nat)
      requires Valid() && MayCall(st)
      modifies this
      ensures Valid() && Later() && st.stack == old(st.stack)
      decreases depth, 0
    {
      var rounds: nat := *;
      while rounds > 0
        invariant Valid() && Later() && st.stack == old(st.stack)
        decreases rounds
      {
        rounds := rounds - 1;
        var what: nat, wd: Wd := *, *;
        if depth == 0 || what == 0 {
          World();
        } else if what == 1 {
          CheckEventsOf(wd, depth - 1);
        } else if what == 2 {
          AddNextWD(nextWd + wd, false, depth - 1);
        } else if recursiveCounter > 0 || ofCalls == 0 {
          if what == 3 { CheckEvents(CallCheckEvents, depth - 1); } else { RunIdle(depth - 1); }
        }
      }
    }

    // ----- The phases -----

    /** Whether the memory of the WD is allocated, now or already. */
    method AllocateTaskMemory(wd: Wd) returns (fits: bool)
      modifies `allocations
      ensures allocations == old(allocations) + [(wd, fits)]
    {
      fits := *;
      allocations := allocations + [(wd, fits)];
    }

    method PreRunWD(wd: Wd, depth: nat)
      requires Valid() && st.stack != [] && st.stack[0] == Doing(PreRun, wd)
      modifies this
      ensures Valid() && Later() && st.stack == old(st.stack)[1..]
      ensures |allocations| > |old(allocations)| && var (asked, fits) := allocations[|allocations| - 1];
        && asked == wd
        && LastQueued(if fits then Event(wd, CheckInputs, Device, Pending) else Event(wd, PreRun, Device, Raised))
      decreases depth, 1
    {
      Outside(depth);
      var fits := AllocateTaskMemory(wd);
      PreRunEnds(wd, fits);
    }

    /** Without memory, processNonAllocatedWDData: try again later. */
    method PreRunEnds(wd: Wd, fits: bool)
      requires Valid() && st.stack != [] && st.stack[0] == Doing(PreRun, wd)
      modifies this
      ensures Valid() && Later() && allocations == old(allocations) && st.stack == old(st.stack)[1..]
      ensures LastQueued(if fits then Event(wd, CheckInputs, Device, Pending) else Event(wd, PreRun, Device, Raised))
    {
      var event := if fits then Event(wd, CheckInputs, Device, Pending) else Event(wd, PreRun, Device, Raised);
      EndPhase(event, fits);
    }

    ghost method CallRun(wd: Wd)
      requires Valid() && st.stack != [] && st.stack[0] == Doing(CheckInputs, wd) && wd in inputsReady
      modifies `st, `trace
      ensures Valid() && Later()
      ensures st.stack == [Doing(RunBody, wd)] + ([Calling(wd)] + old(st.stack)[1..])
    {
      Go(true, nextId);
    }

    /** checkWDInputs, or the call of finishWork, is over. */
    ghost method ReturnFrom()
      requires Valid() && st.stack != [] && (st.stack[0].Calling? || st.stack[0].Finishing?)
      modifies `st, `trace
      ensures Valid() && Later() && st.stack == old(st.stack)[1..]
      ensures st.bodies == old(st).bodies && st.finished == old(st).finished
    {
      Go(true, nextId);
    }

    method CheckWDInputs(wd: Wd, depth: nat)
      requires Valid() && st.stack != [] && st.stack[0] == Doing(CheckInputs, wd)
      modifies this
      ensures Valid() && Later() && st.stack == old(st.stack)[1..]
      ensures || LastQueued(Event(wd, RunBody, WhenInputsReady, Pending))
              || LastQueued(Event(wd, RunBody, Device, Raised))
              || (LastQueued(Event(wd, CheckOutputs, Device, Pending)) && st.bodies[wd] == 1)
      decreases depth, 2
    {
      Outside(depth);
      if wd in inputsReady {
        CallRun(wd);
        RunWD(wd, depth);
        ReturnFrom();
      } else {
        EndPhase(Event(wd, RunBody, WhenInputsReady, Pending), true);
      }
    }

    method RunWD(wd: Wd, depth: nat)
      requires Valid() && st.stack != [] && st.stack[0] == Doing(RunBody, wd)
      modifies this
      ensures Valid() && Later() && st.stack == old(st.stack)[1..]
      ensures || LastQueued(Event(wd, RunBody, Device, Raised))
              || (LastQueued(Event(wd, CheckOutputs, Device, Pending)) && st.bodies[wd] == 1)
      decreases depth, 1
    {
      if wd in blocked {
        EndPhase(Event(wd, RunBody, Device, Raised), true);   // processDependentWD: ask again later
      } else {
        Go(true, nextId);
        assert st.stack[0] == Executing(wd);
        Outside(depth);                                       // runWDDependent
        EndPhase(Event(wd, CheckOutputs, Device, Pending), true);
        BodyCounted(wd);
      }
    }

    /** A WD whose outputs are to be checked has run. */
    lemma BodyCounted(wd: Wd)
      requires Valid() && LastQueued(Event(wd, CheckOutputs, Device, Pending))
      ensures st.bodies[wd] == 1
    {
      var e := pendingEvents[|pendingEvents| - 1];
      assert EventOk(st.bodies, st.inputs, st.events[e]);
    }

    method CheckWDOutputs(wd: Wd, depth: nat)
      requires Valid() && st.stack != [] && st.stack[0] == Doing(CheckOutputs, wd)
      modifies this
      ensures Valid() && Later() && st.stack == old(st.stack)[1..]
      ensures LastQueued(Event(wd, PostRun, Device, Pending))
      decreases depth, 1
    {
      Outside(depth);                                         // preFinish
      EndPhase(Event(wd, PostRun, Device, Pending), true);
    }

    /** std::list::remove. */
    method RemoveRunning(wd: Wd)
      modifies `runningWDs
      ensures runningWDs == Removed(old(runningWDs), wd)
    {
      var left: seq<Wd>, i := [], 0;
      while i < |runningWDs|
        invariant 0 <= i <= |runningWDs| && runningWDs == old(runningWDs)
        invariant left + Removed(runningWDs[i..], wd) == Removed(runningWDs, wd)
      {
        assert runningWDs[i..][1..] == runningWDs[i + 1..];
        if runningWDs[i] != wd { left := left + [runningWDs[i]]; }
        i := i + 1;
      }
      runningWDs := left;
    }

    method PostRunWD(wd: Wd, depth: nat)
      requires Valid() && st.stack != [] && st.stack[0] == Doing(PostRun, wd)
      modifies this
      ensures Valid() && Later() && st.stack == old(st.stack)[1..]
      ensures || LastQueued(Event(wd, PostRun, WhenOutputsReady, Pending))
              || (st.bodies[wd] == st.finished[wd] == 1 && wd !in runningWDs)
      decreases depth, 1
    {
      Outside(depth);
      if wd !in outputsReady {
        EndPhase(Event(wd, PostRun, WhenOutputsReady, Pending), true);
      } else {
        Leave(wd);
        ghost var before := trace;
        Outside(depth);                                       // finishWork
        ReturnFrom();
        RunFinished(Initial(maxPrefetch, predecessors), before, trace, wd);
        FinishedForGood(wd);
      }
    }

    lemma FinishedForGood(wd: Wd)
      requires Valid() && st.finished[wd] >= 1
      ensures st.bodies[wd] == st.finished[wd] == 1 && wd !in runningWDs
    {
      AtMostOneBody(st, wd);
      assert HistoryOk(st.running, st.added, st.bodies, st.finished, wd);
    }

    /** The WD leaves the list of running WDs. */
    method Leave(wd: Wd)
      requires Valid() && st.stack != [] && st.stack[0] == Doing(PostRun, wd) && wd in outputsReady
      modifies this
      ensures Valid() && Later() && st.stack == [Finishing(wd)] + old(st.stack)[1..]
      ensures runningWDsCounter == |runningWDs| && st.finished[wd] >= 1
    {
      RemoveRunning(wd);
      runningWDsCounter := runningWDsCounter - 1;
      Go(true, nextId);
    }

    /** The continuation of an event. */
    method Continue(phase: Phase, wd: Wd, depth: nat)
      requires Valid() && st.stack != [] && st.stack[0] == Doing(phase, wd)
      modifies this
      ensures Valid() && Later() && st.stack == old(st.stack)[1..]
      decreases depth, 3
    {
      match phase
      case PreRun => PreRunWD(wd, depth);
      case CheckInputs => CheckWDInputs(wd, depth);
      case RunBody => RunWD(wd, depth);
      case CheckOutputs => CheckWDOutputs(wd, depth);
      case PostRun => PostRunWD(wd, depth);
    }

    // ----- checkEvents -----

    /** isRaised(), which for a conditional event evaluates its condition. */
    predicate Raisable(event: Event)
      reads this
    {
      || event.status == Raised
      || (event.status == Pending && event.trigger == WhenInputsReady && event.wd in inputsReady)
      || (event.status == Pending && event.trigger == WhenOutputsReady && event.wd in outputsReady)
    }

    /** The event at position `i`, inside checkEvents() or checkEvents( wd ). */
    method VisitEvent(i: nat, wanted: set<Wd>, any: bool, depth: nat, ghost next: Frame)
      requires Valid() && st.stack != [] && i < |pendingEvents| && Visiting(st.stack[0], i, wanted, any, next)
      modifies this
      ensures Valid() && Later() && st.stack == [next] + old(st.stack)[1..]
      ensures var e := old(pendingEvents)[i];
        && (old(Raisable(events[e])) && (any || old(events[e]).wd in wanted) ==> DoneWith(e))
        && (old(events[e]).status == Completed ==> DoneWith(e))
      decreases depth, 4
    {
      var e := pendingEvents[i];
      assert e in pendingEvents;
      VisitingStep(st, i, wanted, any, next, nextId);
      var event := events[e];
      if (any || event.wd in wanted) && Raisable(event) {
        Complete(e, next);
        ghost var before := trace;
        Continue(event.next, event.wd, depth);
        RunLater(Initial(maxPrefetch, predecessors), before, trace, e);
      } else {
        Go(true, nextId);
      }
    }

    /** The event is completed, and its continuation is about to be called. */
    method Complete(e: EventId, ghost next: Frame)
      requires Valid() && st.stack != [] && e in events && IsCheck(st.stack[0]) && IsCheck(next)
      requires next.CheckOne? ==> st.stack[0].CheckOne?
      requires DoAdvance(st, true, None, nextId) == Process(st, e, next)
      modifies this
      ensures Valid() && Later()
      ensures st.stack == [Doing(old(events[e]).next, old(events[e]).wd)] + ([next] + old(st.stack)[1..])
      ensures e in events && events[e].status == Completed
    {
      events := events[e := events[e].(status := Completed)];
      Go(true, nextId);
    }

    method EraseCompleted()
      requires pendingEventsCounter == |pendingEvents| && forall e :: e in pendingEvents ==> e in events
      modifies `pendingEvents, `pendingEventsCounter
      ensures pendingEvents == old(pendingEvents)[CompletedPrefix(events, old(pendingEvents))..]
      ensures pendingEventsCounter == |pendingEvents|
    {
      ghost var n := 0;
      while pendingEventsCounter != 0 && events[pendingEvents[0]].status == Completed
        invariant pendingEventsCounter == |pendingEvents| && n <= |old(pendingEvents)|
        invariant pendingEvents == old(pendingEvents)[n..]
        invariant n + CompletedPrefix(events, pendingEvents) == CompletedPrefix(events, old(pendingEvents))
        decreases |pendingEvents|
      {
        assert pendingEvents[0] in pendingEvents;
        pendingEvents := pendingEvents[1..];
        pendingEventsCounter := pendingEventsCounter - 1;
        n := n + 1;
        assert forall e :: e in pendingEvents ==> e in old(pendingEvents);
      }
    }

    /** checkEvents(), entered by the step `enter`: every event that was raised at the call is completed, whatever the
        continuations add. */
    method CheckEvents(ghost enter: Action, depth: nat)
      requires Valid() && Enabled(st, enter) && Guarded(st, enter) && EntersCheck(st, Step(st, enter))
      modifies this
      ensures Valid() && Later() && st.stack == old(Step(st, enter).stack[1..])
      ensures forall e :: e in old(pendingEvents) && old(Raisable(events[e])) ==> DoneWith(e)
      decreases depth, 8
    {
      ghost var was, below := st, Step(st, enter).stack[1..];
      TakeEnter(enter);
      assert st.stack == [CheckAll(0, |was.pending|, was.pending)] + below;
      Enter(was, below);
      VisitPending(depth, below);
    }

    /** checkEvents() behind its entry. */
    method VisitPending(depth: nat, ghost below: seq<Frame>)
      requires Valid() && st.stack == [CheckAll(0, |pendingEvents|, pendingEvents)] + below
      modifies this
      ensures Valid() && Later() && st.stack == below
      ensures forall e :: e in old(pendingEvents) && old(Raisable(events[e])) ==> DoneWith(e)
      decreases depth, 7
    {
      ghost var seen, start := pendingEvents, st;
      VisitAll(true, 0, depth, below);
      ghost var before, was := trace, st;
      EndCheck(|seen|, seen, below);
      StillDone(before, was, start, seen, |seen|, true, 0);
    }

    /** The call in its round for position `i`: checkEvents(), or checkEvents( wd ). */
    ghost function Round(any: bool, wd: Wd, i: nat, seen: seq<EventId>): Frame {
      if any then CheckAll(i, |seen|, seen) else CheckOne(wd, i, |seen|, seen)
    }

    /** The loop of both calls: the saved positions stay good through all nested calls. */
    method VisitAll(any: bool, wd: Wd, depth: nat, ghost below: seq<Frame>)
      requires Valid() && st.stack == [Round(any, wd, 0, pendingEvents)] + below
      modifies this
      ensures Valid() && Later()
      ensures var seen := old(pendingEvents);
        st.stack == [Round(any, wd, |seen|, seen)] + below && DoneUpTo(old(st), seen, |seen|, any, wd)
      decreases depth, 6
    {
      ghost var seen, start, from := pendingEvents, st, trace;
      var max, i := pendingEventsCounter, 0;
      while i < max
        invariant Valid() && Later() && 0 <= i <= max == |seen|
        invariant st.stack == [Round(any, wd, i, seen)] + below && DoneUpTo(start, seen, i, any, wd)
      {
        VisitNext(i, any, wd, depth, seen, below, start, from);
        i := i + 1;
      }
    }

    /** The round of the loop for position `i`. */
    method VisitNext(i: nat, any: bool, wd: Wd, depth: nat, ghost seen: seq<EventId>, ghost below: seq<Frame>,
                     ghost start: State, ghost from: seq<Action>)
      requires Valid() && st.stack == [Round(any, wd, i, seen)] + below && i < |seen|
      requires DoneUpTo(start, seen, i, any, wd)
      requires Leads(Initial(maxPrefetch, predecessors), from, start) && from <= trace
      modifies this
      ensures Valid() && Later() && st.stack == [Round(any, wd, i + 1, seen)] + below
      ensures DoneUpTo(start, seen, i + 1, any, wd)
      decreases depth, 5
    {
      ghost var before, was := trace, st;
      assert IndexOk(true, st.pending, st.stack[0]);
      assert st.pending[i] == seen[i];
      RunLater(Initial(maxPrefetch, predecessors), from, trace, seen[i]);
      VisitEvent(i, if any then {} else {wd}, any, depth, Round(any, wd, i + 1, seen));
      StillDone(before, was, start, seen, i, any, wd);
    }

    ghost predicate DoneWith(e: EventId)
      reads this
    {
      e in events && events[e].status == Completed
    }

    ghost predicate WasRaised(start: State, e: EventId, any: bool, wd: Wd) {
      e in start.events && IsRaised(start, start.events[e]) && (any || start.events[e].wd == wd)
    }

    /** The first `n` events that were raised at `start` are completed. */
    ghost predicate DoneUpTo(start: State, seen: seq<EventId>, n: nat, any: bool, wd: Wd)
      requires n <= |seen|
      reads this
    {
      forall j {:trigger seen[j]} :: 0 <= j < n && WasRaised(start, seen[j], any, wd) ==> DoneWith(seen[j])
    }

    /** Events completed at an earlier point of the trace are completed now. */
    lemma StillDone(before: seq<Action>, was: State, start: State, seen: seq<EventId>, n: nat, any: bool, wd: Wd)
      requires Valid() && before <= trace && n <= |seen|
      requires Leads(Initial(maxPrefetch, predecessors), before, was)
      requires forall j {:trigger seen[j]} :: 0 <= j < n && WasRaised(start, seen[j], any, wd) ==>
        seen[j] in was.events && was.events[seen[j]].status == Completed
      ensures DoneUpTo(start, seen, n, any, wd)
    {
      forall j | 0 <= j < n && WasRaised(start, seen[j], any, wd) ensures DoneWith(seen[j]) {
        RunLater(Initial(maxPrefetch, predecessors), before, trace, seen[j]);
      }
    }

    /** The step that enters checkEvents(). */
    ghost method TakeEnter(enter: Action)
      requires Traced() && Enabled(st, enter) && Guarded(st, enter) && EntersCheck(st, Step(st, enter))
      modifies `st, `trace
      ensures Traced() && old(trace) <= trace && EntersCheck(old(st), st)
      ensures st.stack == old(Step(st, enter).stack)
      ensures Placed(old(st), answers, None) ==> Placed(st, answers, None)
    {
      Take(enter);
    }

    /** The recursion counter follows. */
    method Enter(ghost was: State, ghost below: seq<Frame>)
      requires Traced() && EntersCheck(was, st) && st.stack == [CheckAll(0, |was.pending|, was.pending)] + below
      requires MirrorsState(was) && was.recursive >= 0 && Placed(st, answers, None)
      modifies `recursiveCounter
      ensures Valid() && st.stack == [CheckAll(0, |pendingEvents|, pendingEvents)] + below
    {
      recursiveCounter := recursiveCounter + 1;
    }

    /** The end of checkEvents(): the outermost call erases the completed events at the front. */
    method EndCheck(ghost max: nat, ghost seen: seq<EventId>, ghost below: seq<Frame>)
      requires Valid() && st.stack == [CheckAll(max, max, seen)] + below
      modifies this
      ensures Valid() && Later() && st.stack == below
    {
      if recursiveCounter == 1 { EraseCompleted(); } else { assert pendingEvents == pendingEvents[0..]; }
      recursiveCounter := recursiveCounter - 1;
      Go(true, nextId);
    }

    /** checkEvents( wd ): only the events of one WD, and nothing is erased. */
    method CheckEventsOf(wd: Wd, depth: nat)
      requires Valid() && MayCall(st)
      modifies this
      ensures Valid() && Later() && st.stack == old(st.stack)
      ensures old(pendingEvents) <= pendingEvents
      ensures forall e :: e in old(pendingEvents) && old(Raisable(events[e])) && old(events[e]).wd == wd ==> DoneWith(e)
      decreases depth, 8
    {
      ghost var below := st.stack;
      ofCalls := ofCalls + 1;
      Take(CallCheckEventsOf(wd));
      VisitPendingOf(wd, depth, below);
      ofCalls := ofCalls - 1;
    }

    method VisitPendingOf(wd: Wd, depth: nat, ghost below: seq<Frame>)
      requires Valid() && st.stack == [CheckOne(wd, 0, |pendingEvents|, pendingEvents)] + below && ofCalls > 0
      modifies this
      ensures Valid() && Later() && st.stack == below
      ensures old(pendingEvents) <= pendingEvents
      ensures forall e :: e in old(pendingEvents) && old(Raisable(events[e])) && old(events[e]).wd == wd ==> DoneWith(e)
      decreases depth, 7
    {
      ghost var seen, start := pendingEvents, st;
      VisitAll(false, wd, depth, below);
      ghost var before, was := trace, st;
      EndCheckOf(wd, seen, below);
      StillDone(before, was, start, seen, |seen|, false, wd);
    }

    /** The end of checkEvents( wd ). */
    ghost method EndCheckOf(wd: Wd, seen: seq<EventId>, below: seq<Frame>)
      requires Valid() && st.stack == [CheckOne(wd, |seen|, |seen|, seen)] + below && ofCalls > 0
      modifies `st, `trace
      ensures Valid() && Later() && st.stack == below && seen <= pendingEvents
    {
      assert IndexOk(true, st.pending, st.stack[0]);
      Go(true, nextId);
    }

    // ----- idle -----

    /** checkEvents(), called from the idle loop. */
    method IdleCheck(depth: nat, ghost next: IdleStage)
      requires Valid() && st.stack != [] && st.stack[0].Idle? && !st.stack[0].stage.Fetching?
      requires st.stack[0].stage.Looping? ==> runningWDsCounter < maxPrefetch
      requires next == if st.stack[0].stage.Looping? then Fetching else Looping
      modifies this
      ensures Valid() && Later() && st.stack == [Idle(next)] + old(st.stack)[1..]
      decreases depth, 9
    {
      IdleEnters(st, st.stack[0].stage, nextId);
      CheckEvents(Advance(true, None, nextId), depth);
    }

    /** A WD that prefetch answered or, outside the idle loop, one that was never handed out. */
    ghost predicate MayAppend(wd: Wd, fromIdle: bool)
      reads this
    {
      Core() && CanAdd(st, fromIdle) && wd >= nextWd && Placed(st, answers, if fromIdle then Some(wd) else None)
    }

    method Append(wd: Wd, ghost fromIdle: bool)
      requires MayAppend(wd, fromIdle)
      modifies this
      ensures Valid() && Later() && st.stack == old(AddedState(st, wd, fromIdle)).stack
    {
      TakeAdded(wd, fromIdle);
      runningWDs, runningWDsCounter, nextWd := runningWDs + [wd], runningWDsCounter + 1, wd + 1;
    }

    ghost method TakeAdded(wd: Wd, fromIdle: bool)
      requires Traced() && CanAdd(st, fromIdle) && nextId !in st.events && wd !in st.added
      requires Placed(st, answers, if fromIdle then Some(wd) else None)
      modifies `st, `trace
      ensures Traced() && old(trace) <= trace && st == AddedState(old(st), wd, fromIdle)
      ensures Placed(st, answers, None)
    {
      AddSteps(st, wd, fromIdle, nextId);
      Take(AddAction(wd, fromIdle, nextId));
    }

    /** addNextWD, from the idle loop or from outside: no test of the limit. */
    method AddNextWD(wd: Wd, ghost fromIdle: bool, depth: nat)
      requires MayAppend(wd, fromIdle)
      modifies this
      ensures Valid() && Later() && st.stack == if fromIdle then [Idle(Added)] + old(st.stack)[1..] else old(st.stack)
      ensures LastQueued(Event(wd, CheckInputs, Device, Pending)) || LastQueued(Event(wd, PreRun, Device, Raised))
      decreases depth, 8
    {
      Append(wd, fromIdle);
      PreRunWD(wd, depth);
    }

    /** What happens during prefetch: the scheduling policy may add WDs itself. */
    method DuringPrefetch(depth: nat)
      requires Valid() && st.stack != [] && st.stack[0] == Idle(Fetching)
      modifies this
      ensures Valid() && Later() && st.stack == old(st.stack)
      decreases depth, 9
    {
      var rounds: nat := *;
      while rounds > 0
        invariant Valid() && Later() && st.stack == old(st.stack)
        decreases rounds
      {
        rounds := rounds - 1;
        var adds: bool, skip: nat := *, *;
        if adds { AddNextWD(nextWd + skip, false, depth); } else { World(); }
      }
    }

    /** What prefetch answered last. */
    ghost predicate LastAnswer(answer: Option<Wd>)
      reads this
    {
      answers != [] && answers[|answers| - 1] == answer
    }

    /** Scheduler::prefetch: `supply` bounds what it still has to hand out.  Until the answer is added, it is the only
        one that has no place yet. */
    method Prefetch(depth: nat, supply: nat) returns (answer: Option<Wd>)
      requires Valid() && st.stack != [] && st.stack[0] == Idle(Fetching)
      modifies this
      ensures Core() && Later() && st.stack == old(st.stack)
      ensures |answers| > |old(answers)| && LastAnswer(answer) && Placed(st, answers, answer)
      ensures answer.Some? ==> answer.value >= nextWd && supply > 0
      decreases depth, 10
    {
      DuringPrefetch(depth);
      var something: bool, skip: nat := *, *;
      answer := if something && supply > 0 then Some(nextWd + skip) else None;
      answers := answers + [answer];
    }

    /** idle(): every WD that prefetch handed out is added, and the loop stops only when the thread gets no work or
        prefetch had nothing. */
    method RunIdle(depth: nat)
      requires Valid() && MayCall(st) && (recursiveCounter > 0 || ofCalls == 0)
      modifies this
      ensures Valid() && Later() && st.stack == old(st.stack)
      ensures forall wd :: Some(wd) in answers ==> wd in st.added && wd !in st.outsiders
      ensures || !gettingWork || runningWDsCounter >= maxPrefetch
              || (|answers| > |old(answers)| && LastAnswer(None))
      decreases depth, 12
    {
      ghost var below := st.stack;
      Take(CallIdle);
      IdleCheck(depth, Looping);
      var supply: nat, more := *, true;
      while more && gettingWork && runningWDsCounter < maxPrefetch
        invariant Valid() && Later() && st.stack == (if more then [Idle(Looping)] + below else below)
        invariant !more ==> |answers| > |old(answers)| && LastAnswer(None)
        decreases more, supply
      {
        more := IdleRound(depth, supply, below);
        if more { supply := supply - 1; }
      }
      if more { IdleStops(below); }
    }

    /** One round of the loop: false when the scheduler had nothing. */
    method IdleRound(depth: nat, supply: nat, ghost below: seq<Frame>) returns (more: bool)
      requires Valid() && st.stack == [Idle(Looping)] + below && runningWDsCounter < maxPrefetch
      modifies this
      ensures Valid() && Later() && st.stack == if more then [Idle(Looping)] + below else below
      ensures |answers| > |old(answers)| && if more then supply > 0 else LastAnswer(None)
      decreases depth, 11
    {
      IdleCheck(depth, Fetching);
      var next := Prefetch(depth, supply);
      more := next.Some?;
      if more { TakeNext(next.value, depth, below); } else { IdleStops(below); }
    }

    /** Prefetch had a WD. */
    method TakeNext(wd: Wd, depth: nat, ghost below: seq<Frame>)
      requires st.stack == [Idle(Fetching)] + below && MayAppend(wd, true)
      modifies this
      ensures Valid() && Later() && st.stack == [Idle(Looping)] + below
      decreases depth, 10
    {
      AddNextWD(wd, true, depth);
      IdleCheck(depth, Looping);
    }

    ghost method IdleStops(below: seq<Frame>)
      requires Valid() && (st.stack == [Idle(Looping)] + below || st.stack == [Idle(Fetching)] + below)
      modifies `st, `trace
      ensures Valid() && Later() && st.stack == below
    {
      Take(Advance(false, None, nextId));
    }
  }

  /** The step pushes a new checkEvents() and touches nothing else that the object can see. */
  ghost predicate EntersCheck(s: State, s': State) {
    && s'.stack != [] && s'.stack[0] == CheckAll(0, |s.pending|, s.pending) && s'.recursive == s.recursive + 1
    && s'.events == s.events && s'.pending == s.pending && s'.pendingCounter == s.pendingCounter
    && s'.running == s.running && s'.runningCounter == s.runningCounter && s'.maxPrefetch == s.maxPrefetch
    && s'.inputs == s.inputs && s'.outputs == s.outputs && s'.blocked == s.blocked && s'.added == s.added
  }
}
