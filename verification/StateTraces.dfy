/** The state events in the trace of a work descriptor: what they show between entering it and leaving it. */
module StateTraces {
  import opened Wrappers
  import opened InstrumentationContexts
  import opened ContextSwitch

  datatype StateOp = PushOp(state: StateValue) | PopOp

  function StatesAfter(kind: ContextKind, stack: seq<StateValue>, ops: seq<StateOp>): seq<StateValue>
    decreases |ops|
  {
    if ops == [] then stack
    else match ops[0]
      case PushOp(state) => StatesAfter(kind, Pushed(kind, stack, state), ops[1..])
      case PopOp => StatesAfter(kind, Popped(kind, stack), ops[1..])
  }

  /** The events that createStateEvent and returnPreviousStateEvent emit. */
  function StatesEmitted(kind: ContextKind, stack: seq<StateValue>, ops: seq<StateOp>): seq<Event>
    decreases |ops|
  {
    if ops == [] then []
    else match ops[0]
      case PushOp(state) => [StateEvent(true, state)] + StatesEmitted(kind, Pushed(kind, stack, state), ops[1..])
      case PopOp => [PopEvent(kind, stack)] + StatesEmitted(kind, Popped(kind, stack), ops[1..])
  }

  /** A pop undoes a push. */
  lemma PushThenPop(kind: ContextKind, stack: seq<StateValue>, state: StateValue)
    ensures Popped(kind, Pushed(kind, stack, state)) == stack
    ensures !kind.Disabled? ==> TopState(kind, Pushed(kind, stack, state)) == state
    ensures kind.Disabled? ==> TopState(kind, Pushed(kind, stack, state)) == ERROR_STATE
  {
    assert (stack + [state])[..|stack|] == stack;
  }

  predicate NoStates(trace: seq<Event>) {
    forall i :: 0 <= i < |trace| ==> trace[i].etype != StateStart && trace[i].etype != StateEnd
  }

  // ----- Without stacked states: one current state -----

  /** A start makes its state the current one, whatever was current; the end of the current state leaves none. */
  function ReadState(now: Option<StateValue>, trace: seq<Event>): Option<StateValue>
    decreases |trace|
  {
    if trace == [] then now
    else match trace[0].etype
      case StateStart => ReadState(Some(trace[0].value), trace[1..])
      case StateEnd => ReadState(if now == Some(trace[0].value) then None else now, trace[1..])
      case _ => ReadState(now, trace[1..])
  }

  lemma {:induction false} ReadStateOn(now: Option<StateValue>, a: seq<Event>, b: seq<Event>)
    ensures ReadState(now, a + b) == ReadState(ReadState(now, a), b)
    decreases |a|
  {
    if a == [] {
      assert a + b == b;
    } else {
      assert (a + b)[1..] == a[1..] + b;
      match a[0].etype
      case StateStart => ReadStateOn(Some(a[0].value), a[1..], b);
      case StateEnd => ReadStateOn(if now == Some(a[0].value) then None else now, a[1..], b);
      case _ => ReadStateOn(now, a[1..], b);
    }
  }

  lemma {:induction false} ReadStateSkips(now: Option<StateValue>, trace: seq<Event>)
    requires NoStates(trace)
    ensures ReadState(now, trace) == now
    decreases |trace|
  {
    if trace != [] { ReadStateSkips(now, trace[1..]); }
  }

  lemma ReadStateOne(now: Option<StateValue>, e: Event)
    ensures ReadState(now, [e]) ==
      if e.etype == StateStart then Some(e.value)
      else if e.etype == StateEnd && now == Some(e.value) then None else now
  {
    assert [e][1..] == [];
    assert ReadState(Some(e.value), []) == Some(e.value) && ReadState(None, []) == None && ReadState(now, []) == now;
  }

  /** The contexts that show the top state only. */
  predicate ShowsTopOnly(kind: ContextKind) {
    kind == Plain || kind == StackedBursts
  }

  lemma StartOfStates(states: seq<StateValue>, start: bool)
    requires |states| == 1
    ensures StateEvents(start, states) == [StateEvent(start, states[0])]
  {
  }

  /** What entering shows: the context-switch state, if it was shown, ends, and the top of the stack starts. */
  lemma EnteringShowsTop(kind: ContextKind, id: nat, stack: seq<StateValue>, bursts: seq<Event>, deferred: seq<Event>,
                         ptp: bool, switching: bool)
    requires ShowsTopOnly(kind) && AllStarts(bursts) && NoStates(deferred)
    ensures var before := if switching then Some(CONTEXT_SWITCH) else None;
      ReadState(before, Entering(kind, id, stack, bursts, deferred, ptp, switching))
      == if stack == [] then None else Some(stack[|stack| - 1])
  {
    var before: Option<StateValue> := if switching then Some(CONTEXT_SWITCH) else None;
    var a, b := When(ptp, PtP(false, id)), When(switching, StateEvent(false, CONTEXT_SWITCH));
    var c := StateEvents(true, ShownStates(kind, stack));
    ReadStateOn(before, a + b + c + Reversed(bursts), deferred);
    ReadStateOn(before, a + b + c, Reversed(bursts));
    ReadStateOn(before, a + b, c);
    ReadStateOn(before, a, b);
    ReadStateSkips(before, a);
    ReadStateOne(before, StateEvent(false, CONTEXT_SWITCH));
    assert ReadState(before, a + b) == None;
    if stack != [] {
      ReadStateOne(None, StateEvent(true, stack[|stack| - 1]));
      StartOfStates(ShownStates(kind, stack), true);
    } else {
      assert c == [];
    }
    ReadStateSkips(ReadState(None, c), Reversed(bursts));
    ReadStateSkips(ReadState(None, c), deferred);
  }

  lemma {:induction false} OperationsShowTop(kind: ContextKind, stack: seq<StateValue>, ops: seq<StateOp>,
                                             now: Option<StateValue>)
    requires ShowsTopOnly(kind)
    requires stack != [] ==> now == Some(stack[|stack| - 1])
    ensures var stack' := StatesAfter(kind, stack, ops);
      ReadState(now, StatesEmitted(kind, stack, ops)) ==
        if stack' != [] then Some(stack'[|stack'| - 1]) else if ops == [] then now else Some(ERROR_STATE)
    decreases |ops|
  {
    if ops != [] {
      var e := if ops[0].PushOp? then StateEvent(true, ops[0].state) else PopEvent(kind, stack);
      var stack1 := if ops[0].PushOp? then Pushed(kind, stack, ops[0].state) else Popped(kind, stack);
      var rest := StatesEmitted(kind, stack1, ops[1..]);
      assert StatesEmitted(kind, stack, ops) == [e] + rest;
      ReadStateOn(now, [e], rest);
      ReadStateOne(now, e);
      var now1 := ReadState(now, [e]);
      assert now1 == if stack1 != [] then Some(stack1[|stack1| - 1]) else Some(ERROR_STATE);
      OperationsShowTop(kind, stack1, ops[1..], now1);
    }
  }

  /** Leaving ends the state at the top; with nothing on the stack it ends nothing.  Then the context-switch state is
      shown, if no work descriptor follows. */
  lemma LeavingEndsTop(kind: ContextKind, id: nat, stack: seq<StateValue>, bursts: seq<Event>, ptp: bool,
                       switching: bool, now: Option<StateValue>)
    requires ShowsTopOnly(kind) && AllStarts(bursts) && (stack != [] ==> now == Some(stack[|stack| - 1]))
    ensures ReadState(now, Leaving(kind, id, stack, bursts, ptp, switching)) ==
      if switching then Some(CONTEXT_SWITCH) else if stack != [] then None else now
  {
    var a, b := When(ptp, PtP(true, id)), StateEvents(false, ShownStates(kind, stack));
    var c := When(switching, StateEvent(true, CONTEXT_SWITCH));
    ReadStateOn(now, a + b + c, Closing(bursts));
    ReadStateOn(now, a + b, c);
    ReadStateOn(now, a, b);
    ReadStateSkips(now, a);
    if stack != [] {
      ReadStateOne(now, StateEvent(false, stack[|stack| - 1]));
      StartOfStates(ShownStates(kind, stack), false);
    } else {
      assert b == [];
    }
    ReadStateOne(ReadState(now, b), StateEvent(true, CONTEXT_SWITCH));
    ReadStateSkips(ReadState(ReadState(now, b), c), Closing(bursts));
  }

  /** What the trace shows once the stack is as given: nothing was shown if nothing happened, and the error state is
      shown once the stack was emptied. */
  function TopShown(stack: seq<StateValue>, ops: seq<StateOp>): Option<StateValue> {
    if stack != [] then Some(stack[|stack| - 1]) else if ops == [] then None else Some(ERROR_STATE)
  }

  lemma WorkShowsTop(kind: ContextKind, id: nat, stack: seq<StateValue>, ops: seq<StateOp>, bursts: seq<Event>,
                     deferred: seq<Event>, ptp: bool, switching: bool)
    requires ShowsTopOnly(kind) && AllStarts(bursts) && NoStates(deferred)
    ensures ReadState(if switching then Some(CONTEXT_SWITCH) else None,
                      Entering(kind, id, stack, bursts, deferred, ptp, switching) + StatesEmitted(kind, stack, ops))
      == TopShown(StatesAfter(kind, stack, ops), ops)
  {
    var before: Option<StateValue> := if switching then Some(CONTEXT_SWITCH) else None;
    var enter := Entering(kind, id, stack, bursts, deferred, ptp, switching);
    EnteringShowsTop(kind, id, stack, bursts, deferred, ptp, switching);
    ReadStateOn(before, enter, StatesEmitted(kind, stack, ops));
    OperationsShowTop(kind, stack, ops, ReadState(before, enter));
  }

  /** Without stacked states: after entering a work descriptor and any pushes and pops, the trace shows the last state
      pushed and not yet popped; leaving ends it.  When the stack was emptied the error state is shown instead, and
      leaving does not end that. */
  lemma TraceShowsTopState(kind: ContextKind, id: nat, stack: seq<StateValue>, ops: seq<StateOp>, bursts: seq<Event>,
                           bursts': seq<Event>, deferred: seq<Event>, ptp: bool, ptp': bool, switching: bool,
                           switching': bool)
    requires ShowsTopOnly(kind) && AllStarts(bursts) && AllStarts(bursts') && NoStates(deferred)
    ensures var before := if switching then Some(CONTEXT_SWITCH) else None;
      var stack' := StatesAfter(kind, stack, ops);
      var work := Entering(kind, id, stack, bursts, deferred, ptp, switching) + StatesEmitted(kind, stack, ops);
      && ReadState(before, work) == TopShown(stack', ops)
      && ReadState(before, work + Leaving(kind, id, stack', bursts', ptp', switching')) ==
           if switching' then Some(CONTEXT_SWITCH) else if stack' != [] then None else TopShown(stack', ops)
  {
    var before: Option<StateValue> := if switching then Some(CONTEXT_SWITCH) else None;
    var stack' := StatesAfter(kind, stack, ops);
    var work := Entering(kind, id, stack, bursts, deferred, ptp, switching) + StatesEmitted(kind, stack, ops);
    WorkShowsTop(kind, id, stack, ops, bursts, deferred, ptp, switching);
    ReadStateOn(before, work, Leaving(kind, id, stack', bursts', ptp', switching'));
    LeavingEndsTop(kind, id, stack', bursts', ptp', switching', TopShown(stack', ops));
  }

  // ----- With stacked states: a stack of open states -----

  /** A start opens a state on top of the others, an end must end the top one.  The top is last. */
  function ReadStates(open: seq<StateValue>, trace: seq<Event>): Option<seq<StateValue>>
    decreases |trace|
  {
    if trace == [] then Some(open)
    else match trace[0].etype
      case StateStart => ReadStates(open + [trace[0].value], trace[1..])
      case StateEnd =>
        if open != [] && open[|open| - 1] == trace[0].value then ReadStates(open[..|open| - 1], trace[1..]) else None
      case _ => ReadStates(open, trace[1..])
  }

  function AndThen(open: Option<seq<StateValue>>, trace: seq<Event>): Option<seq<StateValue>> {
    match open
    case None => None
    case Some(states) => ReadStates(states, trace)
  }

  lemma {:induction false} ReadStatesOn(open: seq<StateValue>, a: seq<Event>, b: seq<Event>)
    ensures ReadStates(open, a + b) == AndThen(ReadStates(open, a), b)
    decreases |a|
  {
    if a == [] {
      assert a + b == b;
    } else {
      assert (a + b)[1..] == a[1..] + b;
      match a[0].etype
      case StateStart => ReadStatesOn(open + [a[0].value], a[1..], b);
      case StateEnd =>
        if open != [] && open[|open| - 1] == a[0].value { ReadStatesOn(open[..|open| - 1], a[1..], b); }
      case _ => ReadStatesOn(open, a[1..], b);
    }
  }

  lemma {:induction false} ReadStatesSkips(open: seq<StateValue>, trace: seq<Event>)
    requires NoStates(trace)
    ensures ReadStates(open, trace) == Some(open)
    decreases |trace|
  {
    if trace != [] { ReadStatesSkips(open, trace[1..]); }
  }

  lemma ReadStatesOne(open: seq<StateValue>, e: Event)
    ensures e.etype == StateStart ==> ReadStates(open, [e]) == Some(open + [e.value])
    ensures e.etype == StateEnd && open != [] && open[|open| - 1] == e.value ==>
      ReadStates(open, [e]) == Some(open[..|open| - 1])
    ensures e.etype == StateEnd && (open == [] || open[|open| - 1] != e.value) ==> ReadStates(open, [e]) == None
  {
    assert [e][1..] == [];
    assert ReadStates(open + [e.value], []) == Some(open + [e.value]);
    if open != [] { assert ReadStates(open[..|open| - 1], []) == Some(open[..|open| - 1]); }
  }

  predicate ShowsAllStates(kind: ContextKind) {
    kind == StackedStates || kind == StackedStatesAndBursts
  }

  lemma {:induction false} Starts(open: seq<StateValue>, states: seq<StateValue>)
    ensures ReadStates(open, StateEvents(true, states)) == Some(open + states)
    decreases |states|
  {
    if states == [] {
      assert open + states == open;
    } else {
      var trace := StateEvents(true, states);
      assert trace[1..] == StateEvents(true, states[1..]);
      Starts(open + [states[0]], states[1..]);
      assert open + [states[0]] + states[1..] == open + states;
    }
  }

  function Backwards(states: seq<StateValue>): (r: seq<StateValue>)
    ensures |r| == |states| && forall i :: 0 <= i < |states| ==> r[i] == states[|states| - 1 - i]
  {
    seq(|states|, i requires 0 <= i < |states| => states[|states| - 1 - i])
  }

  /** Ends are read against the open states from the top. */
  lemma {:induction false} Ends(open: seq<StateValue>, top: seq<StateValue>, ends: seq<StateValue>)
    requires |top| == |ends|
    ensures ReadStates(open + top, StateEvents(false, ends)) ==
      if ends == Backwards(top) then Some(open) else None
    decreases |ends|
  {
    if ends == [] {
      assert open + top == open;
    } else {
      var trace, n := StateEvents(false, ends), |top| - 1;
      assert trace[1..] == StateEvents(false, ends[1..]);
      assert (open + top)[..|open + top| - 1] == open + top[..n];
      Ends(open, top[..n], ends[1..]);
      assert Backwards(top)[1..] == Backwards(top[..n]);
      assert Backwards(top) == [top[n]] + Backwards(top[..n]);
      assert ends == [ends[0]] + ends[1..];
    }
  }

  /** Every pop finds a state of this work descriptor. */
  predicate PopsOwn(kind: ContextKind, stack: seq<StateValue>, ops: seq<StateOp>)
    decreases |ops|
  {
    if ops == [] then true
    else match ops[0]
      case PushOp(state) => PopsOwn(kind, Pushed(kind, stack, state), ops[1..])
      case PopOp => stack != [] && PopsOwn(kind, Popped(kind, stack), ops[1..])
  }

  lemma {:induction false} OperationsShowStack(kind: ContextKind, stack: seq<StateValue>, ops: seq<StateOp>,
                                               open: seq<StateValue>)
    requires ShowsAllStates(kind) && PopsOwn(kind, stack, ops)
    ensures ReadStates(open + stack, StatesEmitted(kind, stack, ops)) == Some(open + StatesAfter(kind, stack, ops))
    decreases |ops|
  {
    if ops != [] {
      var e := if ops[0].PushOp? then StateEvent(true, ops[0].state) else PopEvent(kind, stack);
      var stack1 := if ops[0].PushOp? then Pushed(kind, stack, ops[0].state) else Popped(kind, stack);
      var rest := StatesEmitted(kind, stack1, ops[1..]);
      assert StatesEmitted(kind, stack, ops) == [e] + rest;
      ReadStatesOn(open + stack, [e], rest);
      ReadStatesOne(open + stack, e);
      if ops[0].PushOp? {
        assert open + stack + [ops[0].state] == open + stack1;
      } else {
        assert (open + stack)[..|open + stack| - 1] == open + stack1;
      }
      OperationsShowStack(kind, stack1, ops[1..], open);
    }
  }

  lemma EnteringShowsStack(kind: ContextKind, id: nat, stack: seq<StateValue>, bursts: seq<Event>,
                           deferred: seq<Event>, ptp: bool, switching: bool, open: seq<StateValue>)
    requires ShowsAllStates(kind) && AllStarts(bursts) && NoStates(deferred)
    ensures ReadStates(if switching then open + [CONTEXT_SWITCH] else open,
                       Entering(kind, id, stack, bursts, deferred, ptp, switching)) == Some(open + stack)
  {
    var before := if switching then open + [CONTEXT_SWITCH] else open;
    var a, b := When(ptp, PtP(false, id)), When(switching, StateEvent(false, CONTEXT_SWITCH));
    var c := StateEvents(true, ShownStates(kind, stack));
    ReadStatesOn(before, a + b + c + Reversed(bursts), deferred);
    ReadStatesOn(before, a + b + c, Reversed(bursts));
    ReadStatesOn(before, a + b, c);
    ReadStatesOn(before, a, b);
    ReadStatesSkips(before, a);
    ReadStatesOne(before, StateEvent(false, CONTEXT_SWITCH));
    assert (open + [CONTEXT_SWITCH])[..|open|] == open;
    assert ReadStates(before, a + b) == Some(open);
    Starts(open, stack);
    ReadStatesSkips(open + stack, Reversed(bursts));
    ReadStatesSkips(open + stack, deferred);
  }

  lemma WorkShowsStack(kind: ContextKind, id: nat, stack: seq<StateValue>, ops: seq<StateOp>, bursts: seq<Event>,
                       deferred: seq<Event>, ptp: bool, switching: bool, open: seq<StateValue>)
    requires ShowsAllStates(kind) && AllStarts(bursts) && NoStates(deferred) && PopsOwn(kind, stack, ops)
    ensures ReadStates(if switching then open + [CONTEXT_SWITCH] else open,
                       Entering(kind, id, stack, bursts, deferred, ptp, switching) + StatesEmitted(kind, stack, ops))
      == Some(open + StatesAfter(kind, stack, ops))
  {
    EnteringShowsStack(kind, id, stack, bursts, deferred, ptp, switching, open);
    ReadStatesOn(if switching then open + [CONTEXT_SWITCH] else open,
                 Entering(kind, id, stack, bursts, deferred, ptp, switching), StatesEmitted(kind, stack, ops));
    OperationsShowStack(kind, stack, ops, open);
  }

  /** Reading the same backwards. */
  predicate Palindrome(stack: seq<StateValue>) {
    forall i :: 0 <= i < |stack| ==> stack[i] == stack[|stack| - 1 - i]
  }

  lemma PalindromeIff(stack: seq<StateValue>)
    ensures stack == Backwards(stack) <==> Palindrome(stack)
  {
  }

  /** With stacked states: entering shows the whole stack, and pushes and pops of the work descriptor's own states keep
      it so.  Leaving ends exactly the open states, but from the bottom: that is well nested if and only if the stack
      reads the same backwards. */
  lemma TraceShowsStack(kind: ContextKind, id: nat, stack: seq<StateValue>, ops: seq<StateOp>, bursts: seq<Event>,
                        bursts': seq<Event>, deferred: seq<Event>, ptp: bool, ptp': bool, switching: bool,
                        switching': bool, open: seq<StateValue>)
    requires ShowsAllStates(kind) && AllStarts(bursts) && AllStarts(bursts') && NoStates(deferred)
    requires PopsOwn(kind, stack, ops)
    ensures var before := if switching then open + [CONTEXT_SWITCH] else open;
      var stack' := StatesAfter(kind, stack, ops);
      var work := Entering(kind, id, stack, bursts, deferred, ptp, switching) + StatesEmitted(kind, stack, ops);
      var leave := Leaving(kind, id, stack', bursts', ptp', switching');
      && ReadStates(before, work) == Some(open + stack')
      && ReadStates(before, work + leave) ==
           (if !Palindrome(stack') then None else if switching' then Some(open + [CONTEXT_SWITCH]) else Some(open))
      && EndedBy(leave) == stack'
  {
    var before := if switching then open + [CONTEXT_SWITCH] else open;
    var stack' := StatesAfter(kind, stack, ops);
    var work := Entering(kind, id, stack, bursts, deferred, ptp, switching) + StatesEmitted(kind, stack, ops);
    WorkShowsStack(kind, id, stack, ops, bursts, deferred, ptp, switching, open);
    ReadStatesOn(before, work, Leaving(kind, id, stack', bursts', ptp', switching'));
    LeavingReads(kind, id, stack', bursts', ptp', switching', open);
    PalindromeIff(stack');
    LeavingEnds(kind, id, stack', bursts', ptp', switching');
  }

  lemma LeavingReads(kind: ContextKind, id: nat, stack: seq<StateValue>, bursts: seq<Event>, ptp: bool,
                     switching: bool, open: seq<StateValue>)
    requires ShowsAllStates(kind) && AllStarts(bursts)
    ensures ReadStates(open + stack, Leaving(kind, id, stack, bursts, ptp, switching)) ==
      if stack != Backwards(stack) then None else if switching then Some(open + [CONTEXT_SWITCH]) else Some(open)
  {
    var a, b := When(ptp, PtP(true, id)), StateEvents(false, stack);
    var c := When(switching, StateEvent(true, CONTEXT_SWITCH));
    ReadStatesOn(open + stack, a + b + c, Closing(bursts));
    ReadStatesOn(open + stack, a + b, c);
    ReadStatesOn(open + stack, a, b);
    ReadStatesSkips(open + stack, a);
    Ends(open, stack, stack);
    ReadStatesOne(open, StateEvent(true, CONTEXT_SWITCH));
    ReadStatesSkips(if switching then open + [CONTEXT_SWITCH] else open, Closing(bursts));
  }

  /** The states that a trace ends, in order. */
  function EndedBy(trace: seq<Event>): seq<StateValue> {
    if trace == [] then []
    else if trace[0].etype == StateEnd then [trace[0].value] + EndedBy(trace[1..])
    else EndedBy(trace[1..])
  }

  lemma {:induction false} EndedByOn(a: seq<Event>, b: seq<Event>)
    ensures EndedBy(a + b) == EndedBy(a) + EndedBy(b)
    decreases |a|
  {
    if a == [] {
      assert a + b == b;
    } else {
      assert (a + b)[1..] == a[1..] + b;
      EndedByOn(a[1..], b);
    }
  }

  lemma {:induction false} EndedByNone(trace: seq<Event>)
    requires NoStates(trace)
    ensures EndedBy(trace) == []
  {
    if trace != [] { EndedByNone(trace[1..]); }
  }

  lemma {:induction false} EndedByEnds(states: seq<StateValue>)
    ensures EndedBy(StateEvents(false, states)) == states
  {
    if states != [] {
      assert StateEvents(false, states)[1..] == StateEvents(false, states[1..]);
      EndedByEnds(states[1..]);
    }
  }

  lemma LeavingEnds(kind: ContextKind, id: nat, stack: seq<StateValue>, bursts: seq<Event>, ptp: bool,
                    switching: bool)
    requires ShowsAllStates(kind) && AllStarts(bursts)
    ensures EndedBy(Leaving(kind, id, stack, bursts, ptp, switching)) == stack
  {
    var a, b := When(ptp, PtP(true, id)), StateEvents(false, stack);
    var c := When(switching, StateEvent(true, CONTEXT_SWITCH));
    EndedByOn(a + b + c, Closing(bursts));
    EndedByOn(a + b, c);
    EndedByOn(a, b);
    EndedByNone(a);
    assert switching ==> c[1..] == [];
    EndedByEnds(stack);
    EndedByNone(Closing(bursts));
  }

  /** States 3 and 5, 5 on top: leaving ends 3 while 5 is open. */
  lemma LeavingIsNotNested(id: nat)
    ensures ReadStates([], Entering(StackedStates, id, [3, 5], [], [], false, false)
                           + Leaving(StackedStates, id, [3, 5], [], false, false)) == None
  {
    var enter := Entering(StackedStates, id, [3, 5], [], [], false, false);
    var leave := Leaving(StackedStates, id, [3, 5], [], false, false);
    EnteringShowsStack(StackedStates, id, [3, 5], [], [], false, false, []);
    ReadStatesOn([], enter, leave);
    LeavingReads(StackedStates, id, [3, 5], [], false, false, []);
    assert Backwards([3, 5])[0] == 5;
    assert [] + [3, 5] == [3, 5];
  }

  // ----- Disabled contexts and point-to-point events -----

  /** A disabled context keeps no states and shows none, and no context-switch state either. */
  lemma DisabledShowsNone(id: nat, stack: seq<StateValue>, bursts: seq<Event>, deferred: seq<Event>, ptp: bool)
    requires AllStarts(bursts) && NoStates(deferred)
    ensures NoStates(Leaving(Disabled, id, stack, bursts, ptp, false))
    ensures NoStates(Entering(Disabled, id, stack, bursts, deferred, ptp, false))
  {
  }

  predicate IsPointToPoint(e: Event) {
    e.etype == PtPStart || e.etype == PtPEnd
  }

  /** A message leaves with the work descriptor that is left; there are no other point-to-point events. */
  lemma PointToPointLeaving(kind: ContextKind, id: nat, stack: seq<StateValue>, bursts: seq<Event>, ptp: bool,
                            switching: bool)
    requires AllStarts(bursts)
    ensures var leave := Leaving(kind, id, stack, bursts, ptp, switching);
      && (ptp ==> leave != [] && leave[0].etype == PtPStart && leave[0].id == id)
      && forall i :: (if ptp then 1 else 0) <= i < |leave| ==> !IsPointToPoint(leave[i])
  {
  }

  /** It arrives with the work descriptor that is entered; there are no others, except among the deferred events, which
      come last. */
  lemma PointToPointEntering(kind: ContextKind, id: nat, stack: seq<StateValue>, bursts: seq<Event>,
                             deferred: seq<Event>, ptp: bool, switching: bool)
    requires AllStarts(bursts)
    ensures var enter := Entering(kind, id, stack, bursts, deferred, ptp, switching);
      && (ptp ==> enter != [] && enter[0].etype == PtPEnd && enter[0].id == id)
      && |enter| >= |deferred| && enter[|enter| - |deferred|..] == deferred
      && forall i :: (if ptp then 1 else 0) <= i < |enter| - |deferred| ==> !IsPointToPoint(enter[i])
  {
  }
}
