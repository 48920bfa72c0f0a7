/** wdSwitch: the events that leaving one work descriptor and entering another produce, written through a moving
    index into an array whose size was computed beforehand. */
module ContextSwitch {
  import opened Wrappers
  import opened InstrumentationContexts

  const CONTEXT_SWITCH: StateValue := 15
  const TWO_32 := 0x1_0000_0000

  /** A work descriptor, as far as instrumentation looks at it. */
  datatype WorkDescriptor = WorkDescriptor(id: nat, icd: InstrumentationContextData)

  /** What the backend is given. */
  datatype Emission = EventList(events: seq<Event>) | Suspend(id: nat, last: bool) | Resume(id: nat)

  // ----- What a context shows of a work descriptor -----

  /** The states between beginState and endState. */
  function ShownStates(kind: ContextKind, stack: seq<StateValue>): seq<StateValue> {
    if kind.Disabled? then []
    else if ShowStackedStates(kind) then stack
    else if stack == [] then [] else [stack[|stack| - 1]]
  }

  function NumStates(kind: ContextKind, stack: seq<StateValue>): nat {
    if kind.Disabled? then 0
    else if ShowStackedStates(kind) then |stack|
    else if |stack| < 1 then 0 else 1
  }

  function NumBursts(kind: ContextKind, bursts: seq<Event>): nat {
    if kind.Disabled? then 0 else |bursts|
  }

  // ----- The events, as sequences -----

  function StateEvents(start: bool, states: seq<StateValue>): (r: seq<Event>)
    ensures |r| == |states|
  {
    seq(|states|, i requires 0 <= i < |states| => StateEvent(start, states[i]))
  }

  function Closing(bursts: seq<Event>): (r: seq<Event>)
    ensures |r| == |bursts|
  {
    seq(|bursts|, i requires 0 <= i < |bursts| => ReverseType(bursts[i]))
  }

  function Reversed(bursts: seq<Event>): (r: seq<Event>)
    ensures |r| == |bursts|
  {
    seq(|bursts|, i requires 0 <= i < |bursts| => bursts[|bursts| - 1 - i])
  }

  function When(b: bool, e: Event): seq<Event> {
    if b then [e] else []
  }

  function Leaving(kind: ContextKind, id: nat, states: seq<StateValue>, bursts: seq<Event>,
                   ptp: bool, switching: bool): seq<Event>
  {
    When(ptp, PtP(true, id)) + StateEvents(false, ShownStates(kind, states))
    + When(switching, StateEvent(true, CONTEXT_SWITCH)) + Closing(bursts)
  }

  function Entering(kind: ContextKind, id: nat, states: seq<StateValue>, bursts: seq<Event>,
                    deferred: seq<Event>, ptp: bool, switching: bool): seq<Event>
  {
    When(ptp, PtP(false, id)) + When(switching, StateEvent(false, CONTEXT_SWITCH))
    + StateEvents(true, ShownStates(kind, states)) + Reversed(bursts) + deferred
  }

  /** The numbers computed before the array is allocated. */
  function CountLeaving(kind: ContextKind, states: seq<StateValue>, bursts: seq<Event>, ptp: bool): nat {
    (if ptp then 1 else 0) + NumStates(kind, states) + NumBursts(kind, bursts)
  }

  function CountEntering(kind: ContextKind, states: seq<StateValue>, bursts: seq<Event>,
                         deferred: seq<Event>, ptp: bool): nat
  {
    (if ptp then 1 else 0) + NumStates(kind, states) + NumBursts(kind, bursts) + |deferred|
  }

  /** A disabled context ignores every insertion, so its list is empty; it counts none. */
  predicate CountsFit(kind: ContextKind, bursts: seq<Event>) {
    kind.Disabled? ==> bursts == []
  }

  lemma LeavingCount(kind: ContextKind, id: nat, states: seq<StateValue>, bursts: seq<Event>, ptp: bool, cs: bool)
    requires CountsFit(kind, bursts)
    ensures |Leaving(kind, id, states, bursts, ptp, cs)| ==
      CountLeaving(kind, states, bursts, ptp) + if cs then 1 else 0
  {
  }

  lemma EnteringCount(kind: ContextKind, id: nat, states: seq<StateValue>, bursts: seq<Event>, deferred: seq<Event>,
                      ptp: bool, cs: bool)
    requires CountsFit(kind, bursts)
    ensures |Entering(kind, id, states, bursts, deferred, ptp, cs)| ==
      CountEntering(kind, states, bursts, deferred, ptp) + if cs then 1 else 0
  {
  }

  // ----- Writing through the index -----

  /** 32-bit unsigned arithmetic on the index. */
  function Wrap(i: int): nat {
    i % TWO_32
  }

  lemma WrapBack(i: nat, n: nat)
    requires i + n < TWO_32
    ensures Wrap(Wrap(i - 1) + (n + 1)) == i + n
  {
  }

  class EventArray {
    const e: array<Event>
    var i: nat                        // the index, an unsigned int
    ghost var written: seq<Event>     // what the slots below it hold

    ghost predicate Valid()
      reads this, e
    {
      i <= e.Length < TWO_32 && |written| == i && written == e[..i]
    }

    constructor (capacity: nat)
      requires capacity < TWO_32
      ensures Valid() && fresh(e) && e.Length == capacity && written == []
    {
      e := new Event[capacity](_ => Burst(false, 0, 0));
      i := 0;
      written := [];
    }

    method Put(event: Event)
      requires Valid() && i < e.Length
      modifies this, e
      ensures Valid() && written == old(written) + [event]
    {
      e[i] := event;
      i := Wrap(i + 1);
      written := written + [event];
    }

    method PutWhen(b: bool, event: Event)
      requires Valid() && i + |When(b, event)| <= e.Length
      modifies this, e
      ensures Valid() && written == old(written) + When(b, event)
    {
      if b { Put(event); } else { assert written == written + []; }
    }

    method PutAll(events: seq<Event>)
      requires Valid() && i + |events| <= e.Length
      modifies this, e
      ensures Valid() && written == old(written) + events
    {
      var k := 0;
      while k < |events|
        invariant 0 <= k <= |events| && Valid() && i == old(i) + k
        invariant written == old(written) + events[..k]
      {
        Put(events[k]);
        k := k + 1;
        assert events[..k] == events[..k - 1] + [events[k - 1]];
      }
      assert events[..|events|] == events;
    }

    /** One event for every state that the context shows. */
    method PutStates(start: bool, states: seq<StateValue>)
      requires Valid() && i + |states| <= e.Length
      modifies this, e
      ensures Valid() && written == old(written) + StateEvents(start, states)
    {
      var all := StateEvents(start, states);
      var k := 0;
      while k < |states|
        invariant 0 <= k <= |states| && Valid() && i == old(i) + k
        invariant written == old(written) + all[..k]
      {
        Put(StateEvent(start, states[k]));
        k := k + 1;
        assert all[..k] == all[..k - 1] + [all[k - 1]];
      }
      assert all[..|states|] == all;
    }

    /** Front of the list first, each with its type reversed in place. */
    method PutClosing(bursts: seq<Event>)
      requires Valid() && i + |bursts| <= e.Length
      modifies this, e
      ensures Valid() && written == old(written) + Closing(bursts)
    {
      var k := 0;
      while k < |bursts|
        invariant 0 <= k <= |bursts| && Valid() && i == old(i) + k
        invariant written == old(written) + Closing(bursts)[..k]
      {
        e[i] := bursts[k];
        e[i] := ReverseType(e[i]);
        written := written + [e[i]];
        i := Wrap(i + 1);
        k := k + 1;
        assert Closing(bursts)[..k] == Closing(bursts)[..k - 1] + [Closing(bursts)[k - 1]];
      }
      assert Closing(bursts)[..|bursts|] == Closing(bursts);
    }

    /** The index jumps to the last slot, runs down, and jumps behind the block; with no bursts, or at the start
        of the array, it passes through the largest unsigned value. */
    method PutOpening(bursts: seq<Event>)
      requires Valid() && i + |bursts| <= e.Length
      modifies this, e
      ensures Valid() && written == old(written) + Reversed(bursts)
    {
      ghost var base := i;
      i := Wrap(i + (|bursts| - 1));
      WriteDown(bursts, base);
      WrapBack(base, |bursts|);
      i := Wrap(i + (|bursts| + 1));
      SamePrefix(old(e[..]), e[..], base, bursts);
      written := written + Reversed(bursts);
      assert e[..][..i] == e[..i] && old(e[..])[..base] == old(e[..i]);
    }

    /** The descending loop, which ends one slot below the block. */
    method WriteDown(bursts: seq<Event>, ghost base: nat)
      requires base + |bursts| <= e.Length < TWO_32 && i == Wrap(base + |bursts| - 1)
      modifies `i, e
      ensures i == Wrap(base - 1)
      ensures forall j :: 0 <= j < base ==> e[j] == old(e[j])
      ensures forall j :: base <= j < base + |bursts| ==> e[j] == bursts[base + |bursts| - 1 - j]
    {
      ghost var end := base + |bursts|;
      var k := 0;
      while k < |bursts|
        invariant 0 <= k <= |bursts| && i == Wrap(end - k - 1)
        invariant forall j :: 0 <= j < base ==> e[j] == old(e[j])
        invariant forall j :: end - k <= j < end ==> e[j] == bursts[end - 1 - j]
      {
        WrapSmall(end - k - 1);
        WrapDown(end - k - 1);
        e[i] := bursts[k];
        i := Wrap(i - 1);
        k := k + 1;
      }
    }
  }

  lemma WrapSmall(i: nat)
    requires i < TWO_32
    ensures Wrap(i) == i
  {
  }

  lemma WrapDown(i: nat)
    requires i < TWO_32
    ensures Wrap(Wrap(i) - 1) == Wrap(i - 1)
  {
  }

  lemma SamePrefix(a: seq<Event>, b: seq<Event>, base: nat, bursts: seq<Event>)
    requires |a| == |b| && base + |bursts| <= |a|
    requires forall j :: 0 <= j < base ==> b[j] == a[j]
    requires forall j :: base <= j < base + |bursts| ==> b[j] == bursts[base + |bursts| - 1 - j]
    ensures b[..base + |bursts|] == a[..base] + Reversed(bursts)
  {
  }

  // ----- The switch -----

  function Icd(wd: Option<WorkDescriptor>): set<InstrumentationContextData> {
    if wd.Some? then {wd.value.icd} else {}
  }

  ghost predicate Fits(kind: ContextKind, wd: Option<WorkDescriptor>)
    reads Icd(wd)
  {
    wd.Some? ==> CountsFit(kind, wd.value.icd.burstList)
  }

  /** The context-switch state is shown when exactly one of the two is missing. */
  predicate Switching(kind: ContextKind, emitStates: bool, oldWD: Option<WorkDescriptor>,
                      newWD: Option<WorkDescriptor>)
  {
    emitStates && ContextSwitchEnabled(kind) && oldWD.Some? != newWD.Some?
  }

  ghost function OldEvents(kind: ContextKind, wd: Option<WorkDescriptor>, ptp: bool, switching: bool): seq<Event>
    reads Icd(wd)
  {
    if wd.None? then []
    else Leaving(kind, wd.value.id, wd.value.icd.stateStack, wd.value.icd.burstList, ptp, switching)
  }

  ghost function NewEvents(kind: ContextKind, wd: Option<WorkDescriptor>, ptp: bool, switching: bool): seq<Event>
    reads Icd(wd)
  {
    if wd.None? then []
    else Entering(kind, wd.value.id, wd.value.icd.stateStack, wd.value.icd.burstList, wd.value.icd.deferredEvents,
                  ptp, switching)
  }

  function NumOld(kind: ContextKind, wd: Option<WorkDescriptor>, ptp: bool): nat
    reads Icd(wd)
  {
    if wd.None? then 0 else CountLeaving(kind, wd.value.icd.stateStack, wd.value.icd.burstList, ptp)
  }

  function NumNew(kind: ContextKind, wd: Option<WorkDescriptor>, ptp: bool): nat
    reads Icd(wd)
  {
    if wd.None? then 0
    else CountEntering(kind, wd.value.icd.stateStack, wd.value.icd.burstList, wd.value.icd.deferredEvents, ptp)
  }

  function ListOf(events: seq<Event>): seq<Emission> {
    if events == [] then [] else [EventList(events)]
  }

  /** One list of events or, in a disabled context, the two lists around the suspension and the resumption. */
  function Emitted(kind: ContextKind, oldWD: Option<WorkDescriptor>, newWD: Option<WorkDescriptor>, last: bool,
                   leaving: seq<Event>, entering: seq<Event>): seq<Emission>
  {
    if ContextSwitchEnabled(kind) then ListOf(leaving + entering)
    else
      var suspended := if oldWD.Some? then ListOf(leaving) + [Suspend(oldWD.value.id, last)] else [];
      var resumed := if newWD.Some? then [Resume(newWD.value.id)] + ListOf(entering) else [];
      suspended + resumed
  }

  /** The events that the backend is given, in order. */
  function EventsOf(out: seq<Emission>): seq<Event> {
    if out == [] then []
    else (if out[0].EventList? then out[0].events else []) + EventsOf(out[1..])
  }

  lemma {:induction false} EventsOfOn(a: seq<Emission>, b: seq<Emission>)
    ensures EventsOf(a + b) == EventsOf(a) + EventsOf(b)
  {
    if a == [] {
      assert a + b == b;
    } else {
      assert (a + b)[1..] == a[1..] + b;
      EventsOfOn(a[1..], b);
    }
  }

  lemma EventsOfList(events: seq<Event>)
    ensures EventsOf(ListOf(events)) == events
  {
    assert [EventList(events)][1..] == [];
    assert EventsOf([]) == [];
  }

  lemma EventsOfControl(control: Emission)
    requires !control.EventList?
    ensures EventsOf([control]) == []
  {
    assert [control][1..] == [];
  }

  /** Every event reaches the backend once and in order.  An enabled context gives it nothing else; a disabled one
      suspends the old work descriptor after the last event that leaves it, and resumes the new one before the first
      that enters it. */
  lemma EmittedInOrder(kind: ContextKind, oldWD: Option<WorkDescriptor>, newWD: Option<WorkDescriptor>, last: bool,
                       leaving: seq<Event>, entering: seq<Event>)
    requires (oldWD.None? ==> leaving == []) && (newWD.None? ==> entering == [])
    ensures var out := Emitted(kind, oldWD, newWD, last, leaving, entering);
      && EventsOf(out) == leaving + entering
      && (!kind.Disabled? ==> forall x :: x in out ==> x.EventList?)
      && (kind.Disabled? && oldWD.Some? ==> exists k | 0 <= k < |out| ::
            out[k] == Suspend(oldWD.value.id, last) && EventsOf(out[..k]) == leaving)
      && (kind.Disabled? && newWD.Some? ==> exists k | 0 <= k < |out| ::
            out[k] == Resume(newWD.value.id) && EventsOf(out[k + 1..]) == entering)
  {
    var out := Emitted(kind, oldWD, newWD, last, leaving, entering);
    EventsOfList(leaving);
    EventsOfList(entering);
    EventsOfList(leaving + entering);
    if kind.Disabled? {
      DisabledInOrder(kind, oldWD, newWD, last, leaving, entering);
    }
  }

  lemma DisabledInOrder(kind: ContextKind, oldWD: Option<WorkDescriptor>, newWD: Option<WorkDescriptor>, last: bool,
                        leaving: seq<Event>, entering: seq<Event>)
    requires kind.Disabled? && (oldWD.None? ==> leaving == []) && (newWD.None? ==> entering == [])
    ensures var out := Emitted(kind, oldWD, newWD, last, leaving, entering);
      && EventsOf(out) == leaving + entering
      && (oldWD.Some? ==> exists k | 0 <= k < |out| ::
            out[k] == Suspend(oldWD.value.id, last) && EventsOf(out[..k]) == leaving)
      && (newWD.Some? ==> exists k | 0 <= k < |out| ::
            out[k] == Resume(newWD.value.id) && EventsOf(out[k + 1..]) == entering)
  {
    var out := Emitted(kind, oldWD, newWD, last, leaving, entering);
    var suspended := if oldWD.Some? then ListOf(leaving) + [Suspend(oldWD.value.id, last)] else [];
    var resumed := if newWD.Some? then [Resume(newWD.value.id)] + ListOf(entering) else [];
    EventsOfList(leaving);
    EventsOfList(entering);
    EventsOfOn(suspended, resumed);
    if oldWD.Some? {
      EventsOfControl(Suspend(oldWD.value.id, last));
      EventsOfOn(ListOf(leaving), [Suspend(oldWD.value.id, last)]);
      var k := |ListOf(leaving)|;
      assert out[k] == Suspend(oldWD.value.id, last) && out[..k] == ListOf(leaving);
    }
    if newWD.Some? {
      EventsOfControl(Resume(newWD.value.id));
      EventsOfOn([Resume(newWD.value.id)], ListOf(entering));
      var k := |suspended|;
      assert out[k] == Resume(newWD.value.id) && out[k + 1..] == ListOf(entering);
    }
  }

  lemma FourParts(w: seq<Event>, a: seq<Event>, b: seq<Event>, c: seq<Event>, d: seq<Event>)
    ensures w + a + b + c + d == w + (a + b + c + d)
  {
  }

  lemma FiveParts(w: seq<Event>, a: seq<Event>, b: seq<Event>, c: seq<Event>, d: seq<Event>, e: seq<Event>)
    ensures w + a + b + c + d + e == w + (a + b + c + d + e)
  {
    FourParts(w, a, b, c, d);
  }

  method WriteOld(kind: ContextKind, wd: WorkDescriptor, ptp: bool, switching: bool, a: EventArray)
    requires a.Valid() && CountsFit(kind, wd.icd.burstList)
    requires a.i + CountLeaving(kind, wd.icd.stateStack, wd.icd.burstList, ptp) + (if switching then 1 else 0)
             <= a.e.Length
    modifies a, a.e
    ensures a.Valid()
    ensures a.written == old(a.written) + Leaving(kind, wd.id, wd.icd.stateStack, wd.icd.burstList, ptp, switching)
  {
    var states, bursts := ShownStates(kind, wd.icd.stateStack), wd.icd.burstList;
    a.PutWhen(ptp, PtP(true, wd.id));
    a.PutStates(false, states);
    a.PutWhen(switching, StateEvent(true, CONTEXT_SWITCH));
    a.PutClosing(bursts);
    FourParts(old(a.written), When(ptp, PtP(true, wd.id)), StateEvents(false, states),
              When(switching, StateEvent(true, CONTEXT_SWITCH)), Closing(bursts));
  }

  method WriteNew(kind: ContextKind, wd: WorkDescriptor, ptp: bool, switching: bool, a: EventArray)
    requires a.Valid() && CountsFit(kind, wd.icd.burstList)
    requires a.i + CountEntering(kind, wd.icd.stateStack, wd.icd.burstList, wd.icd.deferredEvents, ptp)
             + (if switching then 1 else 0) <= a.e.Length
    modifies a, a.e, wd.icd`deferredEvents
    ensures a.Valid() && wd.icd.deferredEvents == []
    ensures a.written == old(a.written) +
      Entering(kind, wd.id, wd.icd.stateStack, wd.icd.burstList, old(wd.icd.deferredEvents), ptp, switching)
  {
    var states, bursts, deferred := ShownStates(kind, wd.icd.stateStack), wd.icd.burstList, wd.icd.deferredEvents;
    a.PutWhen(ptp, PtP(false, wd.id));
    a.PutWhen(switching, StateEvent(false, CONTEXT_SWITCH));
    a.PutStates(true, states);
    a.PutOpening(bursts);
    a.PutAll(deferred);
    wd.icd.deferredEvents := [];
    FiveParts(old(a.written), When(ptp, PtP(false, wd.id)), When(switching, StateEvent(false, CONTEXT_SWITCH)),
              StateEvents(true, states), Reversed(bursts), deferred);
  }

  /** The array has one slot more than was counted; the events fill exactly the counted slots, and the extra one
      when the context-switch state is shown. */
  method WdSwitch(kind: ContextKind, emitPtP: bool, emitStates: bool, oldWD: Option<WorkDescriptor>,
                  newWD: Option<WorkDescriptor>, last: bool) returns (out: seq<Emission>, used: nat, capacity: nat)
    requires Fits(kind, oldWD) && Fits(kind, newWD)
    requires NumOld(kind, oldWD, emitPtP && !last) + NumNew(kind, newWD, emitPtP) + 1 < TWO_32
    modifies set d | d in Icd(newWD) :: d`deferredEvents
    ensures capacity == old(NumOld(kind, oldWD, emitPtP && !last)) + old(NumNew(kind, newWD, emitPtP)) + 1
    ensures used ==
      if emitStates && !kind.Disabled? && oldWD.Some? != newWD.Some? then capacity else capacity - 1
    ensures newWD.Some? ==> newWD.value.icd.deferredEvents == []
    ensures out == Emitted(kind, oldWD, newWD, last,
        old(OldEvents(kind, oldWD, emitPtP && !last, emitStates && !kind.Disabled? && oldWD.Some? != newWD.Some?)),
        old(NewEvents(kind, newWD, emitPtP, emitStates && !kind.Disabled? && oldWD.Some? != newWD.Some?)))
  {
    var switching := Switching(kind, emitStates, oldWD, newWD);
    ghost var leaving := OldEvents(kind, oldWD, emitPtP && !last, switching);
    ghost var entering := NewEvents(kind, newWD, emitPtP, switching);
    CountedSlots(kind, emitPtP, oldWD, newWD, last, switching);
    var a, numOld, numEvents := FillArray(kind, emitPtP, oldWD, newWD, last, switching);
    used, capacity := a.i, a.e.Length;
    assert a.e[..][..numEvents] == a.written;
    SplitParts(a.e[..], leaving, entering);
    assert a.e[..numOld] == leaving && a.e[numOld..numEvents] == entering;
    out := Emit(kind, oldWD, newWD, last, a.e, numOld, numEvents);
  }

  /** Counts, allocates one slot more, and writes; the counters are corrected for the context-switch state. */
  method FillArray(kind: ContextKind, emitPtP: bool, oldWD: Option<WorkDescriptor>, newWD: Option<WorkDescriptor>,
                   last: bool, switching: bool) returns (a: EventArray, numOld: nat, numEvents: nat)
    requires Fits(kind, oldWD) && Fits(kind, newWD) && (switching ==> oldWD.Some? != newWD.Some?)
    requires NumOld(kind, oldWD, emitPtP && !last) + NumNew(kind, newWD, emitPtP) + 1 < TWO_32
    modifies set d | d in Icd(newWD) :: d`deferredEvents
    ensures a.Valid() && a.i == numEvents
    ensures a.e.Length == old(NumOld(kind, oldWD, emitPtP && !last)) + old(NumNew(kind, newWD, emitPtP)) + 1
    ensures newWD.Some? ==> newWD.value.icd.deferredEvents == []
    ensures a.written ==
      old(OldEvents(kind, oldWD, emitPtP && !last, switching)) + old(NewEvents(kind, newWD, emitPtP, switching))
    ensures numOld == |old(OldEvents(kind, oldWD, emitPtP && !last, switching))|
  {
    ghost var leaving := OldEvents(kind, oldWD, emitPtP && !last, switching);
    ghost var entering := NewEvents(kind, newWD, emitPtP, switching);
    CountedSlots(kind, emitPtP, oldWD, newWD, last, switching);
    numOld := NumOld(kind, oldWD, emitPtP && !last);
    var numNew := NumNew(kind, newWD, emitPtP);
    numEvents := numOld + numNew;
    a := new EventArray(numEvents + 1);
    if oldWD.Some? {
      WriteOld(kind, oldWD.value, emitPtP && !last, switching, a);
      if switching { numOld, numEvents := numOld + 1, numEvents + 1; }
    }
    assert a.written == leaving;
    if newWD.Some? {
      WriteNew(kind, newWD.value, emitPtP, switching, a);
      if switching { numNew, numEvents := numNew + 1, numEvents + 1; }
    }
    assert a.written == leaving + entering;
  }

  lemma SplitParts(all: seq<Event>, leaving: seq<Event>, entering: seq<Event>)
    requires |leaving| + |entering| <= |all| && all[..|leaving| + |entering|] == leaving + entering
    ensures all[..|leaving|] == leaving && all[|leaving|..|leaving| + |entering|] == entering
  {
    var both := leaving + entering;
    assert both[..|leaving|] == leaving && both[|leaving|..] == entering;
  }

  lemma CountedSlots(kind: ContextKind, emitPtP: bool, oldWD: Option<WorkDescriptor>, newWD: Option<WorkDescriptor>,
                     last: bool, cs: bool)
    requires Fits(kind, oldWD) && Fits(kind, newWD)
    ensures |OldEvents(kind, oldWD, emitPtP && !last, cs)|
         == NumOld(kind, oldWD, emitPtP && !last) + if cs && oldWD.Some? then 1 else 0
    ensures |NewEvents(kind, newWD, emitPtP, cs)|
         == NumNew(kind, newWD, emitPtP) + if cs && newWD.Some? then 1 else 0
  {
    if oldWD.Some? {
      LeavingCount(kind, oldWD.value.id, oldWD.value.icd.stateStack, oldWD.value.icd.burstList, emitPtP && !last, cs);
    }
    if newWD.Some? {
      EnteringCount(kind, newWD.value.id, newWD.value.icd.stateStack, newWD.value.icd.burstList,
                    newWD.value.icd.deferredEvents, emitPtP, cs);
    }
  }

  method Emit(kind: ContextKind, oldWD: Option<WorkDescriptor>, newWD: Option<WorkDescriptor>, last: bool,
              e: array<Event>, numOld: nat, numEvents: nat) returns (out: seq<Emission>)
    requires numOld <= numEvents <= e.Length
    ensures out == Emitted(kind, oldWD, newWD, last, e[..numOld], e[numOld..numEvents])
  {
    if ContextSwitchEnabled(kind) {
      assert e[..numEvents] == e[..numOld] + e[numOld..numEvents];
      out := [];
      if numEvents != 0 { out := [EventList(e[..numEvents])]; }
    } else {
      out := [];
      if oldWD.Some? {
        if numOld != 0 { out := [EventList(e[..numOld])]; }
        out := out + [Suspend(oldWD.value.id, last)];
      }
      if newWD.Some? {
        out := out + [Resume(newWD.value.id)];
        if numEvents != numOld { out := out + [EventList(e[numOld..numEvents])]; }
      }
    }
  }

  // ----- Closing mirrors opening -----

  /** Leaving closes exactly the bursts that entering opens, in the opposite order. */
  lemma ClosingMirrorsOpening(bursts: seq<Event>)
    ensures Closing(bursts) == Closing(Reversed(Reversed(bursts)))
    ensures Closing(bursts) == Reversed(Closing(Reversed(bursts)))
  {
  }

  /** Reads a trace with a stack of open bursts: an end must match the most recent start. */
  function Replay(stack: seq<Event>, trace: seq<Event>): Option<seq<Event>>
    decreases |trace|
  {
    if trace == [] then Some(stack)
    else match trace[0].etype
      case BurstStart => Replay([trace[0]] + stack, trace[1..])
      case BurstEnd =>
        if stack != [] && trace[0] == stack[0].(etype := BurstEnd) then Replay(stack[1..], trace[1..]) else None
      case _ => Replay(stack, trace[1..])
  }

  predicate AllStarts(bursts: seq<Event>) {
    forall i :: 0 <= i < |bursts| ==> bursts[i].etype == BurstStart
  }

  /** Opening a list from the back leaves it on the stack as it is. */
  lemma {:induction false} ReplayOpening(stack: seq<Event>, bursts: seq<Event>, rest: seq<Event>)
    requires AllStarts(bursts)
    ensures Replay(stack, Reversed(bursts) + rest) == Replay(bursts + stack, rest)
    decreases |bursts|
  {
    if bursts == [] {
      assert Reversed(bursts) + rest == rest && bursts + stack == stack;
    } else {
      var n := |bursts| - 1;
      var b, init := bursts[n], bursts[..n];
      assert Reversed(bursts) + rest == [b] + (Reversed(init) + rest);
      assert ([b] + (Reversed(init) + rest))[1..] == Reversed(init) + rest;
      ReplayOpening([b] + stack, init, rest);
      assert init + ([b] + stack) == bursts + stack;
    }
  }

  lemma {:induction false} ReplayClosing(stack: seq<Event>, bursts: seq<Event>, rest: seq<Event>)
    requires AllStarts(bursts)
    ensures Replay(bursts + stack, Closing(bursts) + rest) == Replay(stack, rest)
    decreases |bursts|
  {
    if bursts == [] {
      assert Closing(bursts) + rest == rest && bursts + stack == stack;
    } else {
      var trace := Closing(bursts) + rest;
      assert trace[1..] == Closing(bursts[1..]) + rest;
      assert (bursts + stack)[1..] == bursts[1..] + stack;
      assert trace[0] == ReverseType(bursts[0]);
      ReplayClosing(stack, bursts[1..], rest);
    }
  }

  /** Between entering and leaving, the bursts of a work descriptor are well nested: the trace closes what it
      opened and leaves the enclosing bursts alone. */
  lemma SwitchIsWellNested(stack: seq<Event>, bursts: seq<Event>, rest: seq<Event>)
    requires AllStarts(bursts)
    ensures Replay(stack, Reversed(bursts) + (Closing(bursts) + rest)) == Replay(stack, rest)
  {
    ReplayOpening(stack, bursts, Closing(bursts) + rest);
    ReplayClosing(stack, bursts, rest);
  }

  /** Both lists only ever hold starts. */
  lemma {:induction false} RunKeepsStarts(kind: ContextKind, b: Bursts, ops: seq<Operation>)
    requires AllStarts(b.main) && AllStarts(b.backup)
    ensures AllStarts(RunBursts(kind, b, ops).0.main) && AllStarts(RunBursts(kind, b, ops).0.backup)
    decreases |ops|
  {
    if ops != [] {
      match ops[0]
      case OpenBurst(key, value) => RunKeepsStarts(kind, Open(kind, b, key, value), ops[1..]);
      case CloseBurst(key, value) => RunKeepsStarts(kind, Close(kind, b, key).0, ops[1..]);
    }
  }

  /** Whatever was opened and closed before: entering and leaving the work descriptor is well nested. */
  lemma ReachableSwitchIsWellNested(kind: ContextKind, ops: seq<Operation>, stack: seq<Event>, rest: seq<Event>)
    ensures var bursts := RunBursts(kind, Bursts([], []), ops).0.main;
      Replay(stack, Reversed(bursts) + (Closing(bursts) + rest)) == Replay(stack, rest)
  {
    RunKeepsStarts(kind, Bursts([], []), ops);
    SwitchIsWellNested(stack, RunBursts(kind, Bursts([], []), ops).0.main, rest);
  }

  // ----- Entering, working and leaving -----

  /** Reads a trace of stacked bursts: an end must match the most recent open start of its key. */
  function ReplayByKey(stack: seq<Event>, trace: seq<Event>): Option<seq<Event>>
    decreases |trace|
  {
    if trace == [] then Some(stack)
    else match trace[0].etype
      case BurstStart => ReplayByKey([trace[0]] + stack, trace[1..])
      case BurstEnd =>
        var i := FirstIndex(stack, trace[0].key);
        if i < |stack| && trace[0] == stack[i].(etype := BurstEnd)
        then ReplayByKey(Without(stack, i), trace[1..]) else None
      case _ => ReplayByKey(stack, trace[1..])
  }

  /** The events that a sequence of operations emits. */
  function EmittedBy(kind: ContextKind, b: Bursts, ops: seq<Operation>): seq<Event>
    decreases |ops|
  {
    if ops == [] then []
    else match ops[0]
      case OpenBurst(key, value) => [Burst(true, key, value)] + EmittedBy(kind, Open(kind, b, key, value), ops[1..])
      case CloseBurst(key, value) =>
        [CloseEvent(kind, b, key, value)] + EmittedBy(kind, Close(kind, b, key).0, ops[1..])
  }

  /** Every close finds a burst of its key that this work descriptor opened. */
  predicate ClosesOwn(kind: ContextKind, b: Bursts, ops: seq<Operation>)
    decreases |ops|
  {
    if ops == [] then true
    else match ops[0]
      case OpenBurst(key, value) => ClosesOwn(kind, Open(kind, b, key, value), ops[1..])
      case CloseBurst(key, value) => Close(kind, b, key).1.Some? && ClosesOwn(kind, Close(kind, b, key).0, ops[1..])
  }

  lemma {:induction false} ByKeyOpening(stack: seq<Event>, bursts: seq<Event>, rest: seq<Event>)
    requires AllStarts(bursts)
    ensures ReplayByKey(stack, Reversed(bursts) + rest) == ReplayByKey(bursts + stack, rest)
    decreases |bursts|
  {
    if bursts == [] {
      assert Reversed(bursts) + rest == rest && bursts + stack == stack;
    } else {
      var n := |bursts| - 1;
      var b, init := bursts[n], bursts[..n];
      assert Reversed(bursts) + rest == [b] + (Reversed(init) + rest);
      assert ([b] + (Reversed(init) + rest))[1..] == Reversed(init) + rest;
      ByKeyOpening([b] + stack, init, rest);
      assert init + ([b] + stack) == bursts + stack;
    }
  }

  lemma {:induction false} ByKeyClosing(stack: seq<Event>, bursts: seq<Event>, rest: seq<Event>)
    requires AllStarts(bursts)
    ensures ReplayByKey(bursts + stack, Closing(bursts) + rest) == ReplayByKey(stack, rest)
    decreases |bursts|
  {
    if bursts == [] {
      assert Closing(bursts) + rest == rest && bursts + stack == stack;
    } else {
      var trace := Closing(bursts) + rest;
      FirstIndexIs(bursts + stack, bursts[0].key, 0);
      assert trace[1..] == Closing(bursts[1..]) + rest;
      assert Without(bursts + stack, 0) == bursts[1..] + stack;
      assert trace[0] == ReverseType(bursts[0]);
      ByKeyClosing(stack, bursts[1..], rest);
    }
  }

  /** One close, read against the list and the bursts around it. */
  lemma ByKeyClose(kind: ContextKind, b: Bursts, key: Key, value: Value, outer: seq<Event>, rest: seq<Event>)
    requires ShowStackedBursts(kind) && AllStarts(b.main) && Close(kind, b, key).1.Some?
    ensures ReplayByKey(b.main + outer, [CloseEvent(kind, b, key, value)] + rest)
         == ReplayByKey(Close(kind, b, key).0.main + outer, rest)
    ensures AllStarts(Close(kind, b, key).0.main) && Close(kind, b, key).0.backup == b.backup
  {
    var i, e := FirstIndex(b.main, key), CloseEvent(kind, b, key, value);
    FirstIndexIs(b.main + outer, key, i);
    assert e == ReverseType(b.main[i]);
    assert ([e] + rest)[1..] == rest;
    assert Without(b.main + outer, i) == Without(b.main, i) + outer;
  }

  lemma ByKeyOpen(kind: ContextKind, b: Bursts, key: Key, value: Value, outer: seq<Event>, rest: seq<Event>)
    requires ShowStackedBursts(kind) && AllStarts(b.main)
    ensures ReplayByKey(b.main + outer, [Burst(true, key, value)] + rest)
         == ReplayByKey(Open(kind, b, key, value).main + outer, rest)
    ensures AllStarts(Open(kind, b, key, value).main) && Open(kind, b, key, value).backup == b.backup
  {
    var e := Burst(true, key, value);
    assert ([e] + rest)[1..] == rest;
    assert Open(kind, b, key, value).main + outer == [e] + (b.main + outer);
  }

  lemma {:induction false} ByKeyWork(kind: ContextKind, b: Bursts, ops: seq<Operation>, outer: seq<Event>,
                                     rest: seq<Event>)
    requires ShowStackedBursts(kind) && AllStarts(b.main) && ClosesOwn(kind, b, ops)
    ensures ReplayByKey(b.main + outer, EmittedBy(kind, b, ops) + rest)
         == ReplayByKey(RunBursts(kind, b, ops).0.main + outer, rest)
    decreases |ops|
  {
    if ops == [] {
      assert EmittedBy(kind, b, ops) + rest == rest;
    } else {
      match ops[0]
      case OpenBurst(key, value) =>
        var b1 := Open(kind, b, key, value);
        var more := EmittedBy(kind, b1, ops[1..]) + rest;
        assert EmittedBy(kind, b, ops) + rest == [Burst(true, key, value)] + more;
        ByKeyOpen(kind, b, key, value, outer, more);
        ByKeyWork(kind, b1, ops[1..], outer, rest);
      case CloseBurst(key, value) =>
        var b1 := Close(kind, b, key).0;
        var more := EmittedBy(kind, b1, ops[1..]) + rest;
        assert EmittedBy(kind, b, ops) + rest == [CloseEvent(kind, b, key, value)] + more;
        ByKeyClose(kind, b, key, value, outer, more);
        ByKeyWork(kind, b1, ops[1..], outer, rest);
    }
  }

  /** With stacked bursts: entering a work descriptor, whatever it opens and closes of its own, and leaving it gives a
      trace in which every end matches the latest start of its key, and the enclosing bursts are left alone. */
  lemma WorkIsWellNested(kind: ContextKind, before: seq<Operation>, during: seq<Operation>, outer: seq<Event>,
                                     rest: seq<Event>)
    requires ShowStackedBursts(kind)
    requires ClosesOwn(kind, RunBursts(kind, Bursts([], []), before).0, during)
    ensures var b := RunBursts(kind, Bursts([], []), before).0;
      var b' := RunBursts(kind, b, during).0;
      ReplayByKey(outer, Reversed(b.main) + (EmittedBy(kind, b, during) + (Closing(b'.main) + rest)))
      == ReplayByKey(outer, rest)
  {
    var b := RunBursts(kind, Bursts([], []), before).0;
    var b' := RunBursts(kind, b, during).0;
    RunKeepsStarts(kind, Bursts([], []), before);
    RunKeepsStarts(kind, b, during);
    ByKeyOpening(outer, b.main, EmittedBy(kind, b, during) + (Closing(b'.main) + rest));
    ByKeyWork(kind, b, during, outer, Closing(b'.main) + rest);
    ByKeyClosing(outer, b'.main, rest);
  }

  // ----- One current burst per key -----

  /** Reads a trace without stacked bursts: a start makes its burst the current one of its key, an end leaves the key
      without one. */
  function Current(now: map<Key, Event>, trace: seq<Event>): map<Key, Event>
    decreases |trace|
  {
    if trace == [] then now
    else match trace[0].etype
      case BurstStart => Current(now[trace[0].key := trace[0]], trace[1..])
      case BurstEnd => Current(now - {trace[0].key}, trace[1..])
      case _ => Current(now, trace[1..])
  }

  lemma {:induction false} CurrentOn(now: map<Key, Event>, a: seq<Event>, b: seq<Event>)
    ensures Current(now, a + b) == Current(Current(now, a), b)
    decreases |a|
  {
    if a == [] {
      assert a + b == b;
    } else {
      assert (a + b)[1..] == a[1..] + b;
      match a[0].etype
      case BurstStart => CurrentOn(now[a[0].key := a[0]], a[1..], b);
      case BurstEnd => CurrentOn(now - {a[0].key}, a[1..], b);
      case _ => CurrentOn(now, a[1..], b);
    }
  }

  lemma CurrentOne(now: map<Key, Event>, e: Event)
    requires e.etype == BurstStart || e.etype == BurstEnd
    ensures Current(now, [e]) == if e.etype == BurstStart then now[e.key := e] else now - {e.key}
  {
    assert [e][1..] == [];
    assert Current(now[e.key := e], []) == now[e.key := e] && Current(now - {e.key}, []) == now - {e.key};
  }

  /** The current burst of every key is the top of its stack. */
  ghost predicate ShowsTops(now: map<Key, Event>, b: Bursts) {
    forall key {:trigger StackOf(b, key)} ::
      && (key in now <==> StackOf(b, key) != [])
      && (key in now ==> now[key] == StackOf(b, key)[0])
  }

  /** The first event of every key in a list. */
  ghost predicate ShowsFirsts(now: map<Key, Event>, list: seq<Event>) {
    forall key {:trigger WithKey(list, key)} ::
      && (key in now <==> WithKey(list, key) != [])
      && (key in now ==> now[key] == WithKey(list, key)[0])
  }

  lemma {:induction false} EnteringShows(bursts: seq<Event>)
    requires AllStarts(bursts)
    ensures ShowsFirsts(Current(map[], Reversed(bursts)), bursts)
    decreases |bursts|
  {
    if bursts != [] {
      var rest := bursts[1..];
      EnteringShows(rest);
      assert Reversed(bursts) == Reversed(rest) + [bursts[0]];
      CurrentOn(map[], Reversed(rest), [bursts[0]]);
      var now := Current(map[], Reversed(rest));
      assert [bursts[0]][1..] == [];
      assert Current(now, [bursts[0]]) == now[bursts[0].key := bursts[0]];
    }
  }

  /** In a context without stacked bursts the first event of a key in the main list is the top of its stack. */
  lemma FirstsAreTops(kind: ContextKind, b: Bursts, now: map<Key, Event>)
    requires !ShowStackedBursts(kind) && !kind.Disabled? && Ok(kind, b)
    ensures ShowsFirsts(now, b.main) <==> ShowsTops(now, b)
  {
    forall key ensures MainOk(b, key) { }
    if ShowsFirsts(now, b.main) {
      forall key
        ensures key in now <==> StackOf(b, key) != []
        ensures key in now ==> now[key] == StackOf(b, key)[0]
      {
        assert MainOk(b, key) && (key in now <==> WithKey(b.main, key) != []);
      }
    }
    if ShowsTops(now, b) {
      forall key
        ensures key in now <==> WithKey(b.main, key) != []
        ensures key in now ==> now[key] == WithKey(b.main, key)[0]
      {
        assert MainOk(b, key) && (key in now <==> StackOf(b, key) != []);
      }
    }
  }

  lemma OpenShows(kind: ContextKind, b: Bursts, key: Key, value: Value, now: map<Key, Event>)
    requires !ShowStackedBursts(kind) && !kind.Disabled? && Ok(kind, b) && ShowsTops(now, b)
    ensures ShowsTops(now[key := Burst(true, key, value)], Open(kind, b, key, value))
  {
    var e := Burst(true, key, value);
    forall k
      ensures k in now[key := e] <==> StackOf(Open(kind, b, key, value), k) != []
      ensures k in now[key := e] ==> now[key := e][k] == StackOf(Open(kind, b, key, value), k)[0]
    {
      InsertPushes(kind, b, e, k);
      assert k in now <==> StackOf(b, k) != [];
    }
  }

  lemma CloseShows(kind: ContextKind, b: Bursts, key: Key, value: Value, now: map<Key, Event>)
    requires !ShowStackedBursts(kind) && !kind.Disabled? && Ok(kind, b) && ShowsTops(now, b)
    requires AllStarts(b.main) && AllStarts(b.backup)
    ensures ShowsTops(Current(now, [CloseEvent(kind, b, key, value)]), Close(kind, b, key).0)
  {
    var e, b' := CloseEvent(kind, b, key, value), Close(kind, b, key).0;
    CloseEventFromStack(kind, b, key, value);
    StackStarts(b, key);
    var now' := Current(now, [e]);
    assert e.key == key && e.etype == if |StackOf(b, key)| <= 1 then BurstEnd else BurstStart;
    CurrentOne(now, e);
    forall k
      ensures k in now' <==> StackOf(b', k) != []
      ensures k in now' ==> now'[k] == StackOf(b', k)[0]
    {
      ClosePops(kind, b, key, k);
      assert k in now <==> StackOf(b, k) != [];
    }
  }

  lemma {:induction false} WithKeyStarts(list: seq<Event>, key: Key)
    requires AllStarts(list)
    ensures forall i :: 0 <= i < |WithKey(list, key)| ==>
      WithKey(list, key)[i].etype == BurstStart && WithKey(list, key)[i].key == key
  {
    if list != [] { WithKeyStarts(list[1..], key); }
  }

  lemma StackStarts(b: Bursts, key: Key)
    requires AllStarts(b.main) && AllStarts(b.backup)
    ensures forall i :: 0 <= i < |StackOf(b, key)| ==>
      StackOf(b, key)[i].etype == BurstStart && StackOf(b, key)[i].key == key
  {
    WithKeyStarts(b.main, key);
    WithKeyStarts(b.backup, key);
  }

  lemma {:induction false} WorkShows(kind: ContextKind, b: Bursts, ops: seq<Operation>, now: map<Key, Event>)
    requires !ShowStackedBursts(kind) && !kind.Disabled? && Ok(kind, b) && ShowsTops(now, b)
    requires AllStarts(b.main) && AllStarts(b.backup)
    ensures ShowsTops(Current(now, EmittedBy(kind, b, ops)), RunBursts(kind, b, ops).0)
    ensures Ok(kind, RunBursts(kind, b, ops).0)
    decreases |ops|
  {
    if ops != [] {
      RunKeepsStarts(kind, b, [ops[0]]);
      assert [ops[0]][1..] == [];
      match ops[0]
      case OpenBurst(key, value) =>
        var b1, e := Open(kind, b, key, value), Burst(true, key, value);
        OpenShows(kind, b, key, value, now);
        InsertKeepsOk(kind, b, e);
        assert RunBursts(kind, b, [ops[0]]).0 == b1;
        assert EmittedBy(kind, b, ops)[1..] == EmittedBy(kind, b1, ops[1..]);
        WorkShows(kind, b1, ops[1..], now[key := e]);
      case CloseBurst(key, value) =>
        var b1, e := Close(kind, b, key).0, CloseEvent(kind, b, key, value);
        CloseShows(kind, b, key, value, now);
        CloseKeepsOk(kind, b, key);
        assert RunBursts(kind, b, [ops[0]]).0 == b1;
        CurrentOn(now, [e], EmittedBy(kind, b1, ops[1..]));
        WorkShows(kind, b1, ops[1..], Current(now, [e]));
    }
  }

  lemma {:induction false} LeavingClears(now: map<Key, Event>, bursts: seq<Event>)
    requires AllStarts(bursts)
    ensures forall key :: key in Current(now, Closing(bursts)) <==> key in now && WithKey(bursts, key) == []
    decreases |bursts|
  {
    if bursts != [] {
      assert Closing(bursts)[1..] == Closing(bursts[1..]);
      LeavingClears(now - {bursts[0].key}, bursts[1..]);
    }
  }

  /** Without stacked bursts: after entering a work descriptor and whatever it opens and closes, the trace shows exactly
      the top of each of its stacks as the current burst of the key, and leaving clears exactly those keys. */
  lemma TraceShowsTops(kind: ContextKind, before: seq<Operation>, during: seq<Operation>)
    requires !ShowStackedBursts(kind) && !kind.Disabled?
    ensures var b := RunBursts(kind, Bursts([], []), before).0;
      var b' := RunBursts(kind, b, during).0;
      var now := Current(map[], Reversed(b.main) + EmittedBy(kind, b, during));
      && ShowsTops(now, b')
      && Current(now, Closing(b'.main)) == map[]
  {
    var b := RunBursts(kind, Bursts([], []), before).0;
    var b' := RunBursts(kind, b, during).0;
    assert Represents(Bursts([], []), map[]);
    RunMatchesReference(kind, Bursts([], []), map[], before);
    RunKeepsStarts(kind, Bursts([], []), before);
    RunKeepsStarts(kind, b, during);
    var start := Current(map[], Reversed(b.main));
    EnteringShows(b.main);
    FirstsAreTops(kind, b, start);
    WorkShows(kind, b, during, start);
    CurrentOn(map[], Reversed(b.main), EmittedBy(kind, b, during));
    var now := Current(start, EmittedBy(kind, b, during));
    FirstsAreTops(kind, b', now);
    LeavingClears(now, b'.main);
    assert forall key :: key in now ==> WithKey(b'.main, key) != [];
    assert Current(now, Closing(b'.main)).Keys == {};
  }
}
