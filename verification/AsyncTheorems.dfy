/** What holds in every run of the event pipeline, and when re-entering checkEvents is safe. */
module AsyncTheorems {
  import opened Wrappers
  import opened AsyncPipeline
  import opened AsyncInvariant

  // ----- Every WD goes through its phases once -----

  /** A running WD has exactly one uncompleted event, or is in flight on the stack, but never both. */
  lemma OneContinuation(maxPrefetch: nat, blocked: set<Wd>, actions: seq<Action>, wd: Wd)
    requires Possible(Initial(maxPrefetch, blocked), actions)
    ensures var s := Run(Initial(maxPrefetch, blocked), actions);
      |Live(s.events, wd)| + Holding(s.stack, wd) == if wd in s.running then 1 else 0
  {
    var s := Run(Initial(maxPrefetch, blocked), actions);
    ReachableInv(maxPrefetch, blocked, actions);
    assert TokenOk(s.events, s.stack, s.running, wd);
  }

  lemma {:induction false} HolderExists(stack: seq<Frame>, wd: Wd) returns (k: nat)
    requires Holding(stack, wd) > 0
    ensures k < |stack| && Holds(stack[k], wd)
  {
    if Holds(stack[0], wd) { k := 0; } else {
      var j := HolderExists(stack[1..], wd);
      k := j + 1;
    }
  }

  lemma AtMostOneBody(s: State, wd: Wd)
    requires Inv(s)
    ensures s.bodies[wd] <= 1 && s.finished[wd] <= s.bodies[wd]
  {
    assert HistoryOk(s.running, s.added, s.bodies, s.finished, wd);
    assert TokenOk(s.events, s.stack, s.running, wd);
    if wd in s.running {
      if Holding(s.stack, wd) > 0 {
        var k := HolderExists(s.stack, wd);
        assert FrameOk(s.bodies, s.inputs, s.stack[k]);
      } else {
        var e :| e in Live(s.events, wd);
        assert EventOk(s.bodies, s.inputs, s.events[e]);
      }
    }
  }

  /** In every run the body of a WD runs at most once, and finishWork is called at most once, not before it. */
  lemma BodyAndFinishOnce(maxPrefetch: nat, blocked: set<Wd>, actions: seq<Action>, wd: Wd)
    requires Possible(Initial(maxPrefetch, blocked), actions)
    ensures var s := Run(Initial(maxPrefetch, blocked), actions);
      s.finished[wd] <= s.bodies[wd] <= 1 && (s.finished[wd] == 1 <==> wd in s.added && wd !in s.running)
  {
    var s := Run(Initial(maxPrefetch, blocked), actions);
    ReachableInv(maxPrefetch, blocked, actions);
    AtMostOneBody(s, wd);
    assert HistoryOk(s.running, s.added, s.bodies, s.finished, wd);
  }

  /** A body starts only when the inputs are ready and the predecessors are gone. */
  lemma BodyWhenReady(s: State, a: Action, wd: Wd)
    requires Inv(s) && Enabled(s, a) && Step(s, a).bodies[wd] > s.bodies[wd]
    ensures wd in s.running && wd in s.inputs && wd !in s.blocked && s.bodies[wd] == 0
  {
    BodyStep(s, a, wd);
    TopHolds(s, wd);
    assert FrameOk(s.bodies, s.inputs, s.stack[0]);
  }

  lemma BodyStep(s: State, a: Action, wd: Wd)
    requires Enabled(s, a) && Step(s, a).bodies[wd] > s.bodies[wd]
    ensures s.stack != [] && s.stack[0] == Doing(RunBody, wd) && wd !in s.blocked
  {
  }

  /** finishWork is called only when the outputs are ready, after the body. */
  lemma FinishWhenReady(s: State, a: Action, wd: Wd)
    requires Inv(s) && Enabled(s, a) && Step(s, a).finished[wd] > s.finished[wd]
    ensures wd in s.running && wd in s.outputs && s.bodies[wd] == 1 && s.finished[wd] == 0
  {
    FinishStep(s, a, wd);
    TopHolds(s, wd);
    assert FrameOk(s.bodies, s.inputs, s.stack[0]);
    assert HistoryOk(s.running, s.added, s.bodies, s.finished, wd);
  }

  lemma FinishStep(s: State, a: Action, wd: Wd)
    requires Enabled(s, a) && Step(s, a).finished[wd] > s.finished[wd]
    ensures s.stack != [] && s.stack[0] == Doing(PostRun, wd) && wd in s.outputs
  {
  }

  // ----- Lists -----

  /** In every run no event's actions run twice, no uncompleted event is erased, and the counters are the sizes
      of the lists. */
  lemma EventsOnce(maxPrefetch: nat, blocked: set<Wd>, actions: seq<Action>, e: EventId)
    requires Possible(Initial(maxPrefetch, blocked), actions)
    ensures var s := Run(Initial(maxPrefetch, blocked), actions);
      && s.processed[e] <= 1
      && (e in s.events && s.processed[e] == 0 ==> e in s.pending)
      && s.pendingCounter == |s.pending| && s.runningCounter == |s.running|
  {
    var s := Run(Initial(maxPrefetch, blocked), actions);
    ReachableInv(maxPrefetch, blocked, actions);
    assert ProcessedOk(s.processed, s.events, e);
  }

  lemma {:induction false} LimitUnchanged(s: State, actions: seq<Action>)
    requires Possible(s, actions)
    ensures Run(s, actions).maxPrefetch == s.maxPrefetch
    decreases |actions|
  {
    if actions != [] { LimitUnchanged(Step(s, actions[0]), actions[1..]); }
  }

  lemma {:induction false} FetchedAndOutsiders(running: seq<Wd>, outsiders: set<Wd>)
    requires Distinct(running)
    ensures |running| <= Fetched(running, outsiders) + |outsiders|
  {
    if running != [] {
      var wd, rest := running[0], running[1..];
      if wd in outsiders {
        FetchedAndOutsiders(rest, outsiders - {wd});
        FetchedOthers(rest, outsiders - {wd}, wd);
        assert outsiders - {wd} + {wd} == outsiders;
      } else {
        FetchedAndOutsiders(rest, outsiders);
      }
    }
  }

  /** The running WDs that idle loops fetched exceed the prefetch limit by less than the most idle loops that were ever
      between asking for work and adding it at once; those added from outside come on top. */
  lemma PrefetchBound(maxPrefetch: nat, blocked: set<Wd>, actions: seq<Action>)
    requires Possible(Initial(maxPrefetch, blocked), actions)
    ensures var s := Run(Initial(maxPrefetch, blocked), actions);
      var bound := if s.deepest <= 1 then maxPrefetch else maxPrefetch + s.deepest - 1;
      Fetched(s.running, s.outsiders) <= bound && |s.running| <= bound + |s.outsiders|
  {
    var s := Run(Initial(maxPrefetch, blocked), actions);
    ReachableInv(maxPrefetch, blocked, actions);
    LimitUnchanged(Initial(maxPrefetch, blocked), actions);
    FetchedAndOutsiders(s.running, s.outsiders);
  }

  // ----- Exactly when the prefetch limit holds -----

  /** The step is an addNextWD, of the idle loop or from outside. */
  predicate Adds(s: State, a: Action) {
    a.CallAddNextWD? || (a.Advance? && a.fetched.Some? && s.stack != [] && s.stack[0] == Idle(Fetching))
  }

  /** addNextWD keeps the limit exactly when canGetWork()'s test holds at that point. */
  lemma AddKeepsLimitIff(s: State, a: Action)
    requires Inv(s) && Enabled(s, a) && Adds(s, a)
    ensures |Step(s, a).running| <= s.maxPrefetch <==> s.runningCounter < s.maxPrefetch
  {
  }

  lemma {:induction false} RemovedShrinks(running: seq<Wd>, wd: Wd)
    ensures |Removed(running, wd)| <= |running|
  {
    if running != [] { RemovedShrinks(running[1..], wd); }
  }

  lemma OnlyAddsGrow(s: State, a: Action)
    requires Enabled(s, a) && !Adds(s, a)
    ensures |Step(s, a).running| <= |s.running| && Step(s, a).maxPrefetch == s.maxPrefetch
  {
    if a.Advance? && s.stack[0].Doing? { RemovedShrinks(s.running, s.stack[0].wd); }
  }

  /** Every state of the run is within the limit. */
  predicate WithinLimit(s: State, actions: seq<Action>)
    requires Possible(s, actions)
    decreases |actions|
  {
    |s.running| <= s.maxPrefetch && (actions == [] || WithinLimit(Step(s, actions[0]), actions[1..]))
  }

  /** Every addNextWD of the run starts below the limit. */
  predicate AddsBelowLimit(s: State, actions: seq<Action>)
    requires Possible(s, actions)
    decreases |actions|
  {
    actions == [] ||
      ((Adds(s, actions[0]) ==> s.runningCounter < s.maxPrefetch) && AddsBelowLimit(Step(s, actions[0]), actions[1..]))
  }

  lemma {:induction false} WithinLimitFrom(s: State, actions: seq<Action>)
    requires Inv(s) && |s.running| <= s.maxPrefetch && Possible(s, actions)
    ensures WithinLimit(s, actions) <==> AddsBelowLimit(s, actions)
    decreases |actions|
  {
    if actions != [] {
      var a, s' := actions[0], Step(s, actions[0]);
      StepKeepsInv(s, a);
      assert s'.maxPrefetch == s.maxPrefetch;
      if Adds(s, a) { AddKeepsLimitIff(s, a); } else { OnlyAddsGrow(s, a); }
      if |s'.running| <= s'.maxPrefetch {
        WithinLimitFrom(s', actions[1..]);
      } else {
        assert !WithinLimit(s', actions[1..]);
      }
    }
  }

  /** Over every run: the running WDs stay within the prefetch limit if and only if canGetWork()'s test holds at every
      addNextWD, which makes no such test itself. */
  lemma WithinLimitIff(maxPrefetch: nat, blocked: set<Wd>, actions: seq<Action>)
    requires Possible(Initial(maxPrefetch, blocked), actions)
    ensures WithinLimit(Initial(maxPrefetch, blocked), actions)
      <==> AddsBelowLimit(Initial(maxPrefetch, blocked), actions)
  {
    InitialInv(maxPrefetch, blocked);
    WithinLimitFrom(Initial(maxPrefetch, blocked), actions);
  }

  // ----- A limit of one -----

  /** With a limit of one an idle loop that asked for work found nothing running, so it has nothing to check. */
  predicate AloneOk(s: State) {
    forall k {:trigger s.stack[k]} :: 0 <= k < |s.stack| && s.stack[k] == Idle(Fetching) ==>
      s.running == [] && s.maxPrefetch > 0 && (k == 0 || (k == 1 && s.stack[0].CheckAll?))
  }

  lemma NothingLive(s: State, e: EventId)
    requires PhasesOk(s) && s.running == [] && e in s.events
    ensures s.events[e].status == Completed
  {
    assert TokenOk(s.events, s.stack, s.running, s.events[e].wd);
    assert Live(s.events, s.events[e].wd) == {};
    assert e !in Live(s.events, s.events[e].wd);
  }

  lemma AloneVisit(s: State, i: nat, wanted: set<Wd>, any: bool, caller: Frame)
    requires PhasesOk(s) && AloneOk(s) && s.stack != [] && IsCheck(s.stack[0]) && IsCheck(caller)
    requires caller.CheckAll? == s.stack[0].CheckAll?
    ensures AloneOk(Visit(s, i, wanted, any, caller))
  {
    var s' := Visit(s, i, wanted, any, caller);
    if i < |s.pending| && s.pending[i] in s.events {
      var e := s.pending[i];
      if s'.stack == [caller] + s.stack[1..] {
        forall k | 0 <= k < |s'.stack| && s'.stack[k] == Idle(Fetching)
          ensures s'.running == [] && s'.maxPrefetch > 0 && (k == 0 || (k == 1 && s'.stack[0].CheckAll?))
        {
          assert s'.stack[k] == s.stack[k];
        }
      } else {
        forall k | 0 <= k < |s'.stack| ensures s'.stack[k] != Idle(Fetching) {
          if k > 1 {
            assert s'.stack[k] == s.stack[k - 1];
            if s.stack[k - 1] == Idle(Fetching) { NothingLive(s, e); }
          }
        }
      }
    }
  }

  /** Calls other than checkEvents do not start above an open idle loop. */
  lemma AloneStep(s: State, a: Action)
    requires Inv(s) && AloneOk(s) && s.maxPrefetch <= 1 && Enabled(s, a) && !a.CallAddNextWD?
    ensures AloneOk(Step(s, a))
  {
    if a.Advance? { AloneAdvance(s, a.flag, a.fetched, a.id); } else { AloneCall(s, Step(s, a)); }
  }

  lemma AloneCall(s: State, s': State)
    requires AloneOk(s) && s'.running == s.running && s'.maxPrefetch == s.maxPrefetch
    requires s'.stack == s.stack ||
      (MayCall(s) && s'.stack != [] && s'.stack[1..] == s.stack && s'.stack[0] != Idle(Fetching))
    ensures AloneOk(s')
  {
    if s'.stack != s.stack {
      forall k | 0 <= k < |s'.stack| ensures s'.stack[k] != Idle(Fetching) {
        if k > 0 { assert s'.stack[k] == s.stack[k - 1]; }
      }
    }
  }

  /** A step of a call that is not checkEvents has no open idle loop below it. */
  lemma AloneTop(s: State, s': State, n: nat)
    requires AloneOk(s) && s.stack != [] && !s.stack[0].CheckAll? && n <= |s'.stack| && s'.stack[n..] == s.stack[1..]
    requires forall k :: 0 <= k < n ==> s'.stack[k] != Idle(Fetching)
    ensures AloneOk(s')
  {
    forall k | 0 <= k < |s'.stack| ensures s'.stack[k] != Idle(Fetching) {
      if k >= n { assert s'.stack[k] == s.stack[1..][k - n] == s.stack[k - n + 1]; }
    }
  }

  lemma AloneIdle(s: State, stage: IdleStage, flag: bool, fetched: Option<Wd>)
    requires Inv(s) && AloneOk(s) && s.maxPrefetch <= 1 && s.stack != [] && s.stack[0] == Idle(stage)
    ensures AloneOk(DoIdle(s, stage, flag, fetched))
  {
    var s' := DoIdle(s, stage, flag, fetched);
    if s'.stack == s.stack[1..] {
      AloneTop(s, s', 0);
    } else if stage.Looping? {
      forall k | 2 <= k < |s'.stack| ensures s'.stack[k] != Idle(Fetching) { assert s'.stack[k] == s.stack[k - 1]; }
    } else {
      assert s'.stack[2..] == s.stack[1..];
      AloneTop(s, s', 2);
    }
  }

  lemma AlonePhase(s: State, phase: Phase, wd: Wd, flag: bool, id: EventId)
    requires AloneOk(s) && s.stack != [] && s.stack[0] == Doing(phase, wd)
    ensures AloneOk(DoPhase(s, phase, wd, flag, id))
  {
    var s' := DoPhase(s, phase, wd, flag, id);
    if s'.stack == s.stack[1..] { AloneTop(s, s', 0); }
    else if phase.CheckInputs? {
      assert s'.stack[2..] == s.stack[1..];
      AloneTop(s, s', 2);
    } else {
      assert s'.stack[1..] == s.stack[1..];
      AloneTop(s, s', 1);
    }
  }

  lemma AloneCheck(s: State, flag: bool, fetched: Option<Wd>, id: EventId)
    requires PhasesOk(s) && AloneOk(s) && s.stack != [] && IsCheck(s.stack[0])
    ensures AloneOk(DoAdvance(s, flag, fetched, id))
  {
    var f := s.stack[0];
    if f.i < f.max {
      AloneVisit(s, f.i, if f.CheckAll? then {} else {f.wd}, f.CheckAll?, f.(i := f.i + 1));
    } else {
      AloneReturn(s, DoAdvance(s, flag, fetched, id));
    }
  }

  lemma AloneAdvance(s: State, flag: bool, fetched: Option<Wd>, id: EventId)
    requires Inv(s) && AloneOk(s) && s.maxPrefetch <= 1 && s.stack != []
    ensures AloneOk(DoAdvance(s, flag, fetched, id))
  {
    match s.stack[0]
    case CheckAll(i, max, seen) => AloneCheck(s, flag, fetched, id);
    case CheckOne(wd, i, max, seen) => AloneCheck(s, flag, fetched, id);
    case Doing(phase, wd) => AlonePhase(s, phase, wd, flag, id);
    case Idle(stage) => AloneIdle(s, stage, flag, fetched);
    case _ => AloneReturn(s, DoAdvance(s, flag, fetched, id));
  }

  lemma AloneReturn(s: State, s': State)
    requires AloneOk(s) && s.stack != [] && s'.stack == s.stack[1..] && s'.running == s.running
    requires s'.maxPrefetch == s.maxPrefetch
    ensures AloneOk(s')
  {
    forall k | 0 <= k < |s'.stack| && s'.stack[k] == Idle(Fetching)
      ensures s'.running == [] && s'.maxPrefetch > 0 && (k == 0 || (k == 1 && s'.stack[0].CheckAll?))
    {
      assert s'.stack[k] == s.stack[k + 1];
    }
  }

  predicate NoOutsideAdds(actions: seq<Action>) {
    forall i :: 0 <= i < |actions| ==> !actions[i].CallAddNextWD?
  }

  lemma {:induction false} AloneRun(s: State, actions: seq<Action>)
    requires Inv(s) && AloneOk(s) && s.maxPrefetch <= 1 && |s.running| <= s.maxPrefetch
    requires Possible(s, actions) && NoOutsideAdds(actions)
    ensures AddsBelowLimit(s, actions)
    decreases |actions|
  {
    if actions != [] {
      var a, s' := actions[0], Step(s, actions[0]);
      StepKeepsInv(s, a);
      AloneStep(s, a);
      assert s'.maxPrefetch == s.maxPrefetch;
      if Adds(s, a) {
        assert s.stack[0] == Idle(Fetching);
        AddKeepsLimitIff(s, a);
      } else {
        OnlyAddsGrow(s, a);
      }
      AloneRun(s', actions[1..]);
    }
  }

  /** Whatever the thread goes on to do, it keeps the limit as long as nothing more is added from outside. */
  ghost predicate KeepsLimitAlone(s: State) {
    forall actions :: Possible(s, actions) && NoOutsideAdds(actions) ==> WithinLimit(s, actions)
  }

  lemma AloneKeepsLimit(s: State)
    requires Inv(s) && AloneOk(s) && s.maxPrefetch <= 1 && |s.running| <= s.maxPrefetch
    ensures KeepsLimitAlone(s)
  {
    forall actions | Possible(s, actions) && NoOutsideAdds(actions) ensures WithinLimit(s, actions) {
      AloneRun(s, actions);
      WithinLimitFrom(s, actions);
    }
  }

  /** Nothing is running, and no idle loop is between canGetWork() and addNextWD. */
  predicate MayAddSafely(s: State) {
    s.maxPrefetch == 1 && s.running == [] && Windows(s.stack) == 0
  }

  lemma {:induction false} NoWindows(stack: seq<Frame>)
    ensures Windows(stack) == 0 <==> forall k :: 0 <= k < |stack| ==> stack[k] != Idle(Fetching)
  {
    if stack != [] {
      NoWindows(stack[1..]);
      assert forall k :: 1 <= k < |stack| ==> stack[k] == stack[1..][k - 1];
      if stack[0] != Idle(Fetching) && Windows(stack) > 0 {
        var k :| 0 <= k < |stack[1..]| && stack[1..][k] == Idle(Fetching);
        assert stack[k + 1] == Idle(Fetching);
      }
    }
  }

  /** The WD is added under an idle loop that asked before: that loop adds one more. */
  lemma BothAdd(s: State, wd: Wd)
    requires Inv(s) && Enabled(s, CallAddNextWD(wd)) && s.stack != [] && s.stack[0] == Idle(Fetching)
    requires |s.running| == 0 && s.maxPrefetch == 1
    ensures !KeepsLimitAlone(AddOutside(s, wd))
  {
    var s1, id := AddOutside(s, wd), Unused(s.events.Keys);
    var a1 := Advance(true, None, id);
    var s2 := Step(s1, a1);
    assert s2.stack == s.stack;
    var a2 := Advance(true, Some(Unused(s2.added)), Unused(s2.events.Keys));
    var s3 := Step(s2, a2);
    assert |s3.running| == 2;
    assert [a1, a2][1..] == [a2] && [a2][1..] == [];
    assert Possible(s3, []) && Possible(s2, [a2]) && Possible(s1, [a1, a2]);
    assert !WithinLimit(s3, []) && !WithinLimit(s2, [a2]) && !WithinLimit(s1, [a1, a2]);
  }

  /** With a limit of at most one, an addNextWD from outside leaves the thread able to keep it exactly when nothing is
      running and no idle loop has asked. */
  lemma OutsideAddIff(s: State, wd: Wd)
    requires Inv(s) && AloneOk(s) && s.maxPrefetch <= 1 && |s.running| <= s.maxPrefetch
    requires Enabled(s, CallAddNextWD(wd))
    ensures KeepsLimitAlone(AddOutside(s, wd)) <==> MayAddSafely(s)
    ensures MayAddSafely(s) ==> AloneOk(AddOutside(s, wd))
  {
    var s' := AddOutside(s, wd);
    StepKeepsInv(s, CallAddNextWD(wd));
    NoWindows(s.stack);
    if MayAddSafely(s) {
      forall k | 0 <= k < |s'.stack| ensures s'.stack[k] != Idle(Fetching) {
        if k > 0 { assert s'.stack[k] == s.stack[k - 1]; }
      }
      AloneKeepsLimit(s');
    } else if s.maxPrefetch == 1 && s.running == [] {
      BothAdd(s, wd);
    } else {
      assert Possible(s', []) && !WithinLimit(s', []);
    }
  }

  /** At every point of the run, what the thread goes on to do by itself keeps the limit. */
  ghost predicate AlwaysKeepsLimit(s: State, actions: seq<Action>)
    requires Possible(s, actions)
    decreases |actions|
  {
    KeepsLimitAlone(s) && (actions == [] || AlwaysKeepsLimit(Step(s, actions[0]), actions[1..]))
  }

  /** Every addNextWD from outside comes when nothing is running and no idle loop has asked. */
  predicate AddsSafely(s: State, actions: seq<Action>)
    requires Possible(s, actions)
    decreases |actions|
  {
    actions == [] ||
      ((actions[0].CallAddNextWD? ==> MayAddSafely(s)) && AddsSafely(Step(s, actions[0]), actions[1..]))
  }

  lemma {:induction false} LimitOfOneFrom(s: State, actions: seq<Action>)
    requires Inv(s) && AloneOk(s) && s.maxPrefetch <= 1 && |s.running| <= s.maxPrefetch && Possible(s, actions)
    ensures AlwaysKeepsLimit(s, actions) <==> AddsSafely(s, actions)
    ensures AddsSafely(s, actions) ==> WithinLimit(s, actions)
    decreases |actions|
  {
    AloneKeepsLimit(s);
    if actions != [] {
      var a, s' := actions[0], Step(s, actions[0]);
      StepKeepsInv(s, a);
      if a.CallAddNextWD? {
        OutsideAddIff(s, a.wd);
        if MayAddSafely(s) { LimitOfOneFrom(s', actions[1..]); } else { assert !AlwaysKeepsLimit(s', actions[1..]); }
      } else {
        AloneStep(s, a);
        AloneRun(s, [a]) by { assert [a][1..] == [] && Possible(s', []); }
        if Adds(s, a) { AddKeepsLimitIff(s, a); } else { OnlyAddsGrow(s, a); }
        LimitOfOneFrom(s', actions[1..]);
      }
    }
  }

  /** A prefetch limit of one, over every run: the thread can be relied on to keep it, at every point and however calls
      nest, if and only if every addNextWD from outside comes when nothing is running and no idle loop has asked. */
  lemma LimitOfOneIff(maxPrefetch: nat, blocked: set<Wd>, actions: seq<Action>)
    requires maxPrefetch <= 1 && Possible(Initial(maxPrefetch, blocked), actions)
    ensures var s := Initial(maxPrefetch, blocked);
      && (AlwaysKeepsLimit(s, actions) <==> AddsSafely(s, actions))
      && (AddsSafely(s, actions) ==> WithinLimit(s, actions))
  {
    InitialInv(maxPrefetch, blocked);
    LimitOfOneFrom(Initial(maxPrefetch, blocked), actions);
  }

  /** A limit of one exceeded with no idle loop at all: two WDs added from outside, as two tied tasks are. */
  lemma OutsideExceedsLimit() returns (actions: seq<Action>)
    ensures Possible(Initial(1, {}), actions)
    ensures var s := Run(Initial(1, {}), actions); |s.running| == 2 && s.deepest == 0 && s.stack == []
  {
    var s0, go := Initial(1, {}), Advance(true, None, 1);
    var a1, a2 := CallAddNextWD(7), CallAddNextWD(8);
    var s1 := Step(s0, a1);
    var s2 := Step(s1, go);
    assert s1.stack == [Doing(PreRun, 7)] && s2.stack == [];
    var go2 := Advance(true, None, 2);
    var s3 := Step(s2, a2);
    var s4 := Step(s3, go2);
    assert s3.stack == [Doing(PreRun, 8)] && s4.stack == [] && s4.running == [7, 8];
    assert Leads(s0, [], s0);
    LeadsFurther(s0, [], s0, a1);
    LeadsFurther(s0, [] + [a1], s1, go);
    LeadsFurther(s0, [] + [a1] + [go], s2, a2);
    LeadsFurther(s0, [] + [a1] + [go] + [a2], s3, go2);
    actions := [] + [a1] + [go] + [a2] + [go2];
  }

  /** A number not in the set. */
  ghost function Unused(ids: set<nat>): (n: nat)
    ensures n !in ids
  {
    Above(ids)
  }

  ghost function Above(ids: set<nat>): (n: nat)
    ensures forall i :: i in ids ==> i < n
  {
    if ids == {} then 0
    else
      var i :| i in ids;
      var n := Above(ids - {i});
      assert forall k :: k in ids ==> k == i || k in ids - {i};
      if i < n then n else i + 1
  }

  // ----- Re-entering checkEvents -----

  predicate IsCheck(f: Frame) {
    f.CheckAll? || f.CheckOne?
  }

  /** The saved positions name the same events as when the call started: all of them, or those still to be visited. */
  predicate IndexOk(all: bool, pending: seq<EventId>, f: Frame) {
    IsCheck(f) ==>
      && f.i <= f.max == |f.seen|
      && (all || f.i < f.max ==>
            f.max <= |pending| && (var from := if all then 0 else f.i; pending[from..f.max] == f.seen[from..]))
  }

  predicate IndicesOk(all: bool, s: State) {
    forall k {:trigger s.stack[k]} :: 0 <= k < |s.stack| ==> IndexOk(all, s.pending, s.stack[k])
  }

  predicate NoCheckOne(stack: seq<Frame>) {
    forall k :: 0 <= k < |stack| ==> !stack[k].CheckOne?
  }

  /** Calls that erase events, now or later. */
  predicate Erases(f: Frame) {
    f.CheckAll? || f.Idle?
  }

  /** The outermost checkEvents() or idle is not inside any checkEvents( wd ). */
  predicate NestedOk(stack: seq<Frame>) {
    stack == [] ||
      (NestedOk(stack[1..]) && (Erases(stack[0]) && Checks(stack[1..]) == 0 ==> NoCheckOne(stack[1..])))
  }

  /** Neither checkEvents() nor idle, which calls it, is started inside a checkEvents( wd ) that is not itself inside a
      checkEvents(). */
  predicate Guarded(s: State, a: Action) {
    (a.CallCheckEvents? || a.CallIdle?) && s.recursive == 0 ==> NoCheckOne(s.stack)
  }

  predicate GuardedRun(s: State, actions: seq<Action>)
    requires Possible(s, actions)
    decreases |actions|
  {
    actions == [] || (Guarded(s, actions[0]) && GuardedRun(Step(s, actions[0]), actions[1..]))
  }

  ghost predicate Safe(s: State) {
    Inv(s) && IndicesOk(true, s) && NestedOk(s.stack) && !s.crashed
  }

  // ----- Steps other than a cleanup keep the positions -----

  /** The step is the end of the outermost checkEvents(). */
  predicate Cleans(s: State, a: Action) {
    a.Advance? && s.stack != [] && s.stack[0].CheckAll? && s.stack[0].i >= s.stack[0].max && s.recursive == 1
  }

  lemma PrefixKept(all: bool, pending: seq<EventId>, pending': seq<EventId>, f: Frame)
    requires IndexOk(all, pending, f) && pending <= pending'
    ensures IndexOk(all, pending', f)
  {
    if IsCheck(f) && (all || f.i < f.max) {
      var from := if all then 0 else f.i;
      assert pending'[from..f.max] == pending[from..f.max];
    }
  }

  /** A step that does not shrink the deque keeps the positions of all calls it does not touch. */
  lemma IndicesKept(all: bool, s: State, s': State, news: seq<Frame>, keep: nat)
    requires IndicesOk(all, s) && s.pending <= s'.pending && keep <= |s.stack| && s'.stack == news + s.stack[keep..]
    requires forall k {:trigger news[k]} :: 0 <= k < |news| ==> IndexOk(all, s'.pending, news[k])
    ensures IndicesOk(all, s')
  {
    forall k | 0 <= k < |s'.stack| ensures IndexOk(all, s'.pending, s'.stack[k]) {
      if k < |news| { assert s'.stack[k] == news[k]; } else {
        assert s'.stack[k] == s.stack[keep + (k - |news|)];
        PrefixKept(all, s.pending, s'.pending, s'.stack[k]);
      }
    }
  }

  /** The next position of a loop. */
  lemma IndexNext(all: bool, pending: seq<EventId>, f: Frame)
    requires IsCheck(f) && IndexOk(all, pending, f) && f.i < f.max
    ensures f.i < |pending| && IndexOk(all, pending, f.(i := f.i + 1))
  {
    if !all && f.i + 1 < f.max {
      assert pending[f.i + 1..f.max] == pending[f.i..f.max][1..] == f.seen[f.i..][1..] == f.seen[f.i + 1..];
    }
  }

  lemma IndicesVisit(all: bool, s: State, wanted: set<Wd>, any: bool)
    requires ListsOk(s) && IndicesOk(all, s) && s.stack != [] && IsCheck(s.stack[0]) && s.stack[0].i < s.stack[0].max
    ensures var next := s.stack[0].(i := s.stack[0].i + 1);
      var s' := Visit(s, s.stack[0].i, wanted, any, next);
      IndicesOk(all, s') && s'.crashed == s.crashed && s'.recursive == s.recursive
  {
    var i, next := s.stack[0].i, s.stack[0].(i := s.stack[0].i + 1);
    IndexNext(all, s.pending, s.stack[0]);
    var s', e := Visit(s, i, wanted, any, next), s.pending[i];
    assert e in s.pending;
    if (any || s.events[e].wd in wanted) && IsRaised(s, s.events[e]) {
      IndicesKept(all, s, s', [Doing(s.events[e].next, s.events[e].wd), next], 1);
    } else {
      IndicesKept(all, s, s', [next], 1);
    }
  }

  lemma IndicesPhase(all: bool, s: State, phase: Phase, wd: Wd, flag: bool, id: EventId)
    requires IndicesOk(all, s) && s.stack != [] && s.stack[0] == Doing(phase, wd)
    ensures var s' := DoPhase(s, phase, wd, flag, id);
      IndicesOk(all, s') && s'.crashed == s.crashed && s'.recursive == s.recursive
  {
    var s', rest := DoPhase(s, phase, wd, flag, id), s.stack[1..];
    if s'.stack == rest {
      IndicesKept(all, s, s', [], 1);
    } else if phase.CheckInputs? {
      assert s'.stack == [Doing(RunBody, wd), Calling(wd)] + rest;
      IndicesKept(all, s, s', [Doing(RunBody, wd), Calling(wd)], 1);
    } else {
      IndicesKept(all, s, s', [s'.stack[0]], 1);
    }
  }

  /** A new call of checkEvents knows the whole deque. */
  lemma IndexFresh(all: bool, s: State)
    requires CountersOk(s)
    ensures CallCheck(s).stack[0] == CheckAll(0, |s.pending|, s.pending)
    ensures IndexOk(all, s.pending, CallCheck(s).stack[0])
  {
    assert s.pending[0..|s.pending|] == s.pending[0..];
  }

  lemma IndicesIdle(all: bool, s: State, stage: IdleStage, flag: bool, fetched: Option<Wd>)
    requires ListsOk(s) && IndicesOk(all, s) && s.stack != [] && s.stack[0] == Idle(stage)
    ensures var s' := DoIdle(s, stage, flag, fetched); IndicesOk(all, s') && s'.crashed == s.crashed
  {
    var s', rest := DoIdle(s, stage, flag, fetched), s.stack[1..];
    if stage.Fetching? && fetched.Some? {
      var f := Doing(PreRun, fetched.value);
      assert s'.stack == [f, Idle(Added)] + rest;
      IndicesKept(all, s, s', [f, Idle(Added)], 1);
    } else if s'.recursive > s.recursive {
      IndexFresh(all, s);
      assert s'.stack == [s'.stack[0], s'.stack[1]] + rest;
      IndicesKept(all, s, s', [s'.stack[0], s'.stack[1]], 1);
    } else {
      IndicesKept(all, s, s', [], 1);
    }
  }

  lemma IndicesReturn(all: bool, s: State, s': State)
    requires IndicesOk(all, s) && s.stack != [] && s'.stack == s.stack[1..] && s.pending <= s'.pending
    ensures IndicesOk(all, s')
  {
    assert s'.stack == [] + s.stack[1..];
    IndicesKept(all, s, s', [], 1);
  }

  lemma IndicesCheck(all: bool, s: State, flag: bool, fetched: Option<Wd>, id: EventId)
    requires ListsOk(s) && IndicesOk(all, s) && s.stack != [] && IsCheck(s.stack[0])
    requires !Cleans(s, Advance(flag, fetched, id))
    ensures var s' := DoAdvance(s, flag, fetched, id); IndicesOk(all, s') && s'.crashed == s.crashed
  {
    var f := s.stack[0];
    if f.i < f.max {
      IndicesVisit(all, s, if f.CheckAll? then {} else {f.wd}, f.CheckAll?);
    } else {
      assert s.pending[0..] == s.pending;
      IndicesReturn(all, s, DoAdvance(s, flag, fetched, id));
    }
  }

  lemma IndicesAdvance(all: bool, s: State, flag: bool, fetched: Option<Wd>, id: EventId)
    requires ListsOk(s) && IndicesOk(all, s) && s.stack != [] && !Cleans(s, Advance(flag, fetched, id))
    ensures var s' := DoAdvance(s, flag, fetched, id); IndicesOk(all, s') && s'.crashed == s.crashed
  {
    match s.stack[0]
    case CheckAll(i, max, seen) => IndicesCheck(all, s, flag, fetched, id);
    case CheckOne(wd, i, max, seen) => IndicesCheck(all, s, flag, fetched, id);
    case Doing(phase, wd) => IndicesPhase(all, s, phase, wd, flag, id);
    case Executing(wd) => IndicesReturn(all, s, DoAdvance(s, flag, fetched, id));
    case Calling(_) => IndicesReturn(all, s, DoAdvance(s, flag, fetched, id));
    case Finishing(_) => IndicesReturn(all, s, DoAdvance(s, flag, fetched, id));
    case Idle(stage) => IndicesIdle(all, s, stage, flag, fetched);
  }

  lemma IndicesCall(all: bool, s: State, s': State, f: Frame)
    requires CountersOk(s) && IndicesOk(all, s) && s'.pending == s.pending && s'.stack == [f] + s.stack
    requires !IsCheck(f) || (f.i == 0 && f.max == |s.pending| && f.seen == s.pending)
    ensures IndicesOk(all, s')
  {
    assert s.pending[0..|s.pending|] == s.pending[0..];
    assert s'.stack == [f] + s.stack[0..];
    IndicesKept(all, s, s', [f], 0);
  }

  lemma IndicesStep(all: bool, s: State, a: Action)
    requires ListsOk(s) && IndicesOk(all, s) && Enabled(s, a) && !Cleans(s, a)
    ensures IndicesOk(all, Step(s, a)) && !Step(s, a).crashed
  {
    var s' := Step(s, a);
    match a
    case CallCheckEvents => IndicesCall(all, s, s', s'.stack[0]);
    case CallCheckEventsOf(wd) => IndicesCall(all, s, s', s'.stack[0]);
    case CallIdle => IndicesCall(all, s, s', Idle(Starting));
    case CallAddNextWD(wd) => IndicesCall(all, s, s', Doing(PreRun, wd));
    case Advance(flag, fetched, id) => IndicesAdvance(all, s, flag, fetched, id);
    case RaiseByDevice(e) =>
    case InputsArrive(wd) =>
    case OutputsArrive(wd) =>
    case PredecessorsDone(wd) =>
  }

  // ----- Guarded runs -----

  lemma {:induction false} NoChecksLeft(stack: seq<Frame>)
    requires Checks(stack) == 0
    ensures forall k :: 0 <= k < |stack| ==> !stack[k].CheckAll?
  {
    if stack != [] {
      NoChecksLeft(stack[1..]);
      assert forall k :: 1 <= k < |stack| ==> stack[k] == stack[1..][k - 1];
    }
  }

  /** When the outermost checkEvents() of a guarded run cleans up, no other call holds a position. */
  lemma IndicesCleanup(s: State)
    requires ListsOk(s) && NestedOk(s.stack) && s.stack != [] && s.stack[0].CheckAll? && s.recursive == 1
    ensures IndicesOk(true, EndCheckAll(s))
  {
    var s' := EndCheckAll(s);
    NoChecksLeft(s.stack[1..]);
    forall k | 0 <= k < |s'.stack| ensures IndexOk(true, s'.pending, s'.stack[k]) {
      assert s'.stack[k] == s.stack[1..][k];
    }
  }

  lemma NestedPush(stack: seq<Frame>, f: Frame)
    requires NestedOk(stack) && (Erases(f) && Checks(stack) == 0 ==> NoCheckOne(stack))
    ensures NestedOk([f] + stack)
  {
    assert ([f] + stack)[1..] == stack;
  }

  lemma NestedPushTwo(stack: seq<Frame>, f: Frame, g: Frame)
    requires NestedOk(stack) && (Erases(g) && Checks(stack) == 0 ==> NoCheckOne(stack)) && !IsCheck(g)
    requires Erases(f) && Checks(stack) == 0 ==> NoCheckOne(stack)
    ensures NestedOk([f, g] + stack)
  {
    NestedPush(stack, g);
    Cons(g, stack);
    NestedPush([g] + stack, f);
    assert [f, g] + stack == [f] + ([g] + stack);
  }

  lemma NestedVisit(s: State, wanted: set<Wd>, any: bool)
    requires NestedOk(s.stack) && s.stack != [] && IsCheck(s.stack[0])
    ensures NestedOk(Visit(s, s.stack[0].i, wanted, any, s.stack[0].(i := s.stack[0].i + 1)).stack)
  {
    var i, next, rest := s.stack[0].i, s.stack[0].(i := s.stack[0].i + 1), s.stack[1..];
    NestedPush(rest, next);
    if i < |s.pending| && s.pending[i] in s.events {
      var f := Doing(s.events[s.pending[i]].next, s.events[s.pending[i]].wd);
      NestedPush([next] + rest, f);
      assert [f, next] + rest == [f] + ([next] + rest);
    }
  }

  lemma NestedPhase(s: State, phase: Phase, wd: Wd, flag: bool, id: EventId)
    requires NestedOk(s.stack) && s.stack != [] && s.stack[0] == Doing(phase, wd)
    ensures NestedOk(DoPhase(s, phase, wd, flag, id).stack)
  {
    var s', rest := DoPhase(s, phase, wd, flag, id), s.stack[1..];
    if s'.stack != rest {
      if phase.CheckInputs? {
        assert s'.stack == [Doing(RunBody, wd), Calling(wd)] + rest;
        NestedPushTwo(rest, Doing(RunBody, wd), Calling(wd));
      } else {
        NestedPush(rest, s'.stack[0]);
      }
    }
  }

  lemma NestedIdle(s: State, stage: IdleStage, flag: bool, fetched: Option<Wd>)
    requires NestedOk(s.stack) && s.stack != [] && s.stack[0] == Idle(stage)
    ensures NestedOk(DoIdle(s, stage, flag, fetched).stack)
  {
    var s', rest := DoIdle(s, stage, flag, fetched), s.stack[1..];
    if s'.stack != rest {
      assert s'.stack == [s'.stack[0], s'.stack[1]] + rest;
      NestedPushTwo(rest, s'.stack[0], s'.stack[1]);
    }
  }

  lemma NestedAdvance(s: State, flag: bool, fetched: Option<Wd>, id: EventId)
    requires NestedOk(s.stack) && Enabled(s, Advance(flag, fetched, id))
    ensures NestedOk(DoAdvance(s, flag, fetched, id).stack)
  {
    match s.stack[0]
    case CheckAll(i, max, seen) => if i < max { NestedVisit(s, {}, true); }
    case CheckOne(wd, i, max, seen) => if i < max { NestedVisit(s, {wd}, false); }
    case Doing(phase, wd) => NestedPhase(s, phase, wd, flag, id);
    case Idle(stage) => NestedIdle(s, stage, flag, fetched);
    case _ =>
  }

  lemma SafeStep(s: State, a: Action)
    requires Safe(s) && Enabled(s, a) && Guarded(s, a)
    ensures Safe(Step(s, a))
  {
    var s' := Step(s, a);
    StepKeepsInv(s, a);
    if Cleans(s, a) { IndicesCleanup(s); } else { IndicesStep(true, s, a); }
    match a
    case CallCheckEvents => NestedPush(s.stack, s'.stack[0]);
    case CallCheckEventsOf(wd) => NestedPush(s.stack, s'.stack[0]);
    case CallIdle => NestedPush(s.stack, Idle(Starting));
    case CallAddNextWD(wd) => NestedPush(s.stack, Doing(PreRun, wd));
    case Advance(flag, fetched, id) => NestedAdvance(s, flag, fetched, id);
    case _ =>
  }

  lemma {:induction false} GuardedRunIsSafe(s: State, actions: seq<Action>)
    requires Safe(s) && Possible(s, actions) && GuardedRun(s, actions)
    ensures Safe(Run(s, actions))
    decreases |actions|
  {
    if actions != [] {
      SafeStep(s, actions[0]);
      GuardedRunIsSafe(Step(s, actions[0]), actions[1..]);
    }
  }

  /** Through any nesting every saved index keeps naming the same event and the deque is never read past its end,
      provided that neither checkEvents() nor idle is started inside an outermost checkEvents( wd ). */
  lemma ReentranceIsSafe(maxPrefetch: nat, blocked: set<Wd>, actions: seq<Action>)
    requires Possible(Initial(maxPrefetch, blocked), actions) && GuardedRun(Initial(maxPrefetch, blocked), actions)
    ensures var s := Run(Initial(maxPrefetch, blocked), actions); IndicesOk(true, s) && !s.crashed
  {
    InitialInv(maxPrefetch, blocked);
    GuardedRunIsSafe(Initial(maxPrefetch, blocked), actions);
  }

  // ----- Exactly when a loop goes on to read the wrong event -----

  /** No outer checkEvents( wd ) has a position left to visit, or nothing will be erased. */
  predicate CleanupHarmless(s: State)
    requires s.stack != []
  {
    || (forall k {:trigger s.stack[k]} :: 1 <= k < |s.stack| && s.stack[k].CheckOne? ==> s.stack[k].i >= s.stack[k].max)
    || s.pending == [] || s.pending[0] !in s.events || s.events[s.pending[0]].status != Completed
  }

  /** What erasing `n` events does to one saved position. */
  lemma ErasedUnder(pending: seq<EventId>, n: nat, f: Frame)
    requires Distinct(pending) && n <= |pending| && IsCheck(f) && IndexOk(false, pending, f)
    ensures IndexOk(false, pending[n..], f) <==> f.i == f.max || n == 0
  {
    if f.i < f.max && n > 0 && f.max <= |pending| - n {
      assert pending[f.i..f.max][0] == pending[f.i] && f.seen[f.i..][0] == pending[f.i];
      assert pending[n..][f.i..f.max][0] == pending[n + f.i] != pending[f.i];
    }
  }

  /** The cleanup of the outermost checkEvents() leaves every position still to be visited right exactly when it is
      harmless. */
  lemma CleanupSafeIff(s: State)
    requires ListsOk(s) && IndicesOk(false, s) && s.stack != [] && s.stack[0].CheckAll? && s.recursive == 1
    ensures IndicesOk(false, EndCheckAll(s)) <==> CleanupHarmless(s)
  {
    var s', n := EndCheckAll(s), CompletedPrefix(s.events, s.pending);
    assert s.pending != [] ==> s.pending[0] in s.pending;
    NoChecksLeft(s.stack[1..]);
    forall k | 0 <= k < |s'.stack|
      ensures IndexOk(false, s'.pending, s'.stack[k]) <==>
        !s'.stack[k].CheckOne? || s'.stack[k].i >= s'.stack[k].max || n == 0
    {
      assert s'.stack[k] == s.stack[1..][k] && s'.stack[k] == s.stack[k + 1];
      if s'.stack[k].CheckOne? { ErasedUnder(s.pending, n, s'.stack[k]); }
    }
    assert forall k :: 0 <= k < |s'.stack| ==> s'.stack[k] == s.stack[k + 1];
    if k :| 1 <= k < |s.stack| && s.stack[k].CheckOne? && s.stack[k].i < s.stack[k].max {
      assert s'.stack[k - 1] == s.stack[k];
    }
  }

  /** In every state of the run the loops have the right events before them. */
  predicate ReadsRight(s: State, actions: seq<Action>)
    requires Possible(s, actions)
    decreases |actions|
  {
    IndicesOk(false, s) && !s.crashed && (actions == [] || ReadsRight(Step(s, actions[0]), actions[1..]))
  }

  /** Every cleanup of the run is harmless. */
  predicate CleansHarmlessly(s: State, actions: seq<Action>)
    requires Possible(s, actions)
    decreases |actions|
  {
    actions == [] ||
      ((Cleans(s, actions[0]) ==> CleanupHarmless(s)) && CleansHarmlessly(Step(s, actions[0]), actions[1..]))
  }

  lemma {:induction false} ReadsRightFrom(s: State, actions: seq<Action>)
    requires Inv(s) && IndicesOk(false, s) && !s.crashed && Possible(s, actions)
    ensures ReadsRight(s, actions) <==> CleansHarmlessly(s, actions)
    decreases |actions|
  {
    if actions != [] {
      var a, s' := actions[0], Step(s, actions[0]);
      StepKeepsInv(s, a);
      if Cleans(s, a) { CleanupSafeIff(s); } else { IndicesStep(false, s, a); }
      if IndicesOk(false, s') { ReadsRightFrom(s', actions[1..]); } else { assert !ReadsRight(s', actions[1..]); }
    }
  }

  /** Over every run: no loop of checkEvents ever has a wrong event before it, or reads past the end, if and only if
      every cleanup of the run is harmless. */
  lemma ReadsRightIff(maxPrefetch: nat, blocked: set<Wd>, actions: seq<Action>)
    requires Possible(Initial(maxPrefetch, blocked), actions)
    ensures ReadsRight(Initial(maxPrefetch, blocked), actions)
      <==> CleansHarmlessly(Initial(maxPrefetch, blocked), actions)
  {
    InitialInv(maxPrefetch, blocked);
    ReadsRightFrom(Initial(maxPrefetch, blocked), actions);
  }

  // ----- Composing runs -----

  predicate Leads(s: State, actions: seq<Action>, s': State) {
    Possible(s, actions) && Run(s, actions) == s'
  }

  lemma {:induction false} LeadsFurther(s: State, actions: seq<Action>, s': State, a: Action)
    requires Leads(s, actions, s') && Enabled(s', a)
    ensures Leads(s, actions + [a], Step(s', a))
    decreases |actions|
  {
    if actions == [] {
      assert Possible(Step(s', a), []) && [a][1..] == [];
    } else {
      LeadsFurther(Step(s, actions[0]), actions[1..], s', a);
      assert (actions + [a])[1..] == actions[1..] + [a];
    }
  }

  lemma {:induction false} GuardedFurther(s: State, actions: seq<Action>, s': State, a: Action)
    requires Leads(s, actions, s') && GuardedRun(s, actions) && Enabled(s', a) && Guarded(s', a)
    ensures Leads(s, actions + [a], Step(s', a)) && GuardedRun(s, actions + [a])
    decreases |actions|
  {
    LeadsFurther(s, actions, s', a);
    if actions == [] {
      assert ([] + [a])[1..] == [];
    } else {
      GuardedFurther(Step(s, actions[0]), actions[1..], s', a);
      assert (actions + [a])[1..] == actions[1..] + [a];
    }
  }
}
