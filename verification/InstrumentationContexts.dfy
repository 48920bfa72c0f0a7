/** The open bursts of a work descriptor.  Where stacked bursts are not shown, a second open burst with the same
    key moves the first to a backup list; otherwise all are kept in one list.  Both keep one LIFO stack per key. */
module InstrumentationContexts {
  import opened Wrappers

  type Key = nat
  type Value = nat
  type StateValue = nat

  datatype EventType =
    | StateStart | StateEnd | SubstateStart | SubstateEnd | BurstStart | BurstEnd | PtPStart | PtPEnd | PointEvent

  datatype Event = Event(etype: EventType, key: Key, value: Value, id: nat)

  function Burst(start: bool, key: Key, value: Value): Event {
    Event(if start then BurstStart else BurstEnd, key, value, 0)
  }

  function StateEvent(start: bool, state: StateValue): Event {
    Event(if start then StateStart else StateEnd, 0, state, 0)
  }

  function PtP(start: bool, id: nat): Event {
    Event(if start then PtPStart else PtPEnd, 0, 0, id)
  }

  function ReverseType(e: Event): Event {
    match e.etype
    case PtPStart => e.(etype := PtPEnd)
    case PtPEnd => e.(etype := PtPStart)
    case BurstStart => e.(etype := BurstEnd)
    case BurstEnd => e.(etype := BurstStart)
    case _ => e
  }

  /** The five context classes. */
  datatype ContextKind = Plain | StackedStates | StackedBursts | StackedStatesAndBursts | Disabled

  predicate ShowStackedBursts(kind: ContextKind) {
    kind.StackedBursts? || kind.StackedStatesAndBursts?
  }

  predicate ShowStackedStates(kind: ContextKind) {
    kind.StackedStates? || kind.StackedStatesAndBursts?
  }

  predicate ContextSwitchEnabled(kind: ContextKind) {
    !kind.Disabled?
  }

  // ----- The two lists -----

  /** Front of a list first. */
  datatype Bursts = Bursts(main: seq<Event>, backup: seq<Event>)

  /** The position of the first event with the key, or the length. */
  function FirstIndex(s: seq<Event>, key: Key): (i: nat)
    ensures i <= |s|
    ensures i < |s| ==> s[i].key == key
    ensures forall j :: 0 <= j < i ==> s[j].key != key
  {
    if s == [] || s[0].key == key then 0 else FirstIndex(s[1..], key) + 1
  }

  lemma FirstIndexIs(s: seq<Event>, key: Key, i: nat)
    requires i <= |s| && (i < |s| ==> s[i].key == key) && forall j :: 0 <= j < i ==> s[j].key != key
    ensures FirstIndex(s, key) == i
  {
  }

  function Without(s: seq<Event>, i: nat): seq<Event>
    requires i < |s|
  {
    s[..i] + s[i + 1..]
  }

  function Insert(kind: ContextKind, b: Bursts, e: Event): Bursts {
    if kind.Disabled? then b
    else if ShowStackedBursts(kind) then b.(main := [e] + b.main)
    else
      var i := FirstIndex(b.main, e.key);
      if i < |b.main| then Bursts([e] + Without(b.main, i), [b.main[i]] + b.backup)
      else b.(main := [e] + b.main)
  }

  function Remove(kind: ContextKind, b: Bursts, at: nat): Bursts
    requires at < |b.main|
  {
    if kind.Disabled? then b
    else
      var main := Without(b.main, at);
      var i := FirstIndex(b.backup, b.main[at].key);
      if ShowStackedBursts(kind) || i == |b.backup| then b.(main := main)
      else Bursts([b.backup[i]] + main, Without(b.backup, i))
  }

  class InstrumentationContextData {
    var burstList: seq<Event>
    var burstBackup: seq<Event>
    var stateStack: seq<StateValue>     // top last
    var deferredEvents: seq<Event>

    constructor ()
      ensures Lists() == Bursts([], []) && stateStack == [] && deferredEvents == []
    {
      burstList, burstBackup, stateStack, deferredEvents := [], [], [], [];
    }

    function Lists(): Bursts
      reads this
    {
      Bursts(burstList, burstBackup)
    }

    method FindBurstByKey(key: Key) returns (found: bool, at: nat)
      ensures at == FirstIndex(burstList, key) && found == (at < |burstList|)
    {
      found, at := false, |burstList|;
      var it := 0;
      while !found && it < |burstList|
        invariant 0 <= it <= |burstList|
        invariant found ==> at < it && burstList[at].key == key && forall j :: 0 <= j < at ==> burstList[j].key != key
        invariant !found ==> at == |burstList| && forall j :: 0 <= j < it ==> burstList[j].key != key
      {
        if burstList[it].key == key { at, found := it, true; }
        it := it + 1;
      }
      FirstIndexIs(burstList, key, at);
    }

    /** With the key already open, the open burst moves to the front of the backup list. */
    method InsertBurst(kind: ContextKind, e: Event)
      modifies `burstList, `burstBackup
      ensures Lists() == Insert(kind, old(Lists()), e)
    {
      if kind.Disabled? { return; }
      if !ShowStackedBursts(kind) {
        var found, it := false, 0;
        while !found && it < |burstList|
          invariant 0 <= it <= |burstList|
          invariant !found ==> Lists() == old(Lists()) && forall j :: 0 <= j < it ==> burstList[j].key != e.key
          invariant found ==> (var i := FirstIndex(old(burstList), e.key);
            && i < |old(burstList)|
            && Lists() == Bursts(Without(old(burstList), i), [old(burstList)[i]] + old(burstBackup)))
          decreases !found, |burstList| - it
        {
          if burstList[it].key == e.key {
            FirstIndexIs(burstList, e.key, it);
            burstList, burstBackup := burstList[..it] + burstList[it + 1..], [burstList[it]] + burstBackup;
            found := true;
          } else {
            it := it + 1;
          }
        }
        if !found { FirstIndexIs(burstList, e.key, it); }
      }
      burstList := [e] + burstList;
    }

    /** The most recent backup with the same key comes back to the front of the main list. */
    method RemoveBurst(kind: ContextKind, at: nat)
      requires at < |burstList|
      modifies `burstList, `burstBackup
      ensures Lists() == Remove(kind, old(Lists()), at)
    {
      if kind.Disabled? { return; }
      var key := burstList[at].key;
      burstList := burstList[..at] + burstList[at + 1..];
      if !ShowStackedBursts(kind) {
        var main := burstList;
        var found, it := false, 0;
        while !found && it < |burstBackup|
          invariant 0 <= it <= |burstBackup|
          invariant !found ==> Lists() == Bursts(main, old(burstBackup))
          invariant !found ==> forall j :: 0 <= j < it ==> burstBackup[j].key != key
          invariant found ==> (var i := FirstIndex(old(burstBackup), key);
            && i < |old(burstBackup)|
            && Lists() == Bursts([old(burstBackup)[i]] + main, Without(old(burstBackup), i)))
          decreases !found, |burstBackup| - it
        {
          if burstBackup[it].key == key {
            FirstIndexIs(burstBackup, key, it);
            burstList, burstBackup := [burstBackup[it]] + burstList, burstBackup[..it] + burstBackup[it + 1..];
            found := true;
          } else {
            it := it + 1;
          }
        }
        if !found { FirstIndexIs(burstBackup, key, it); }
      }
    }

    method CreateBurstEvent(kind: ContextKind, key: Key, value: Value) returns (e: Event)
      modifies `burstList, `burstBackup
      ensures e == Burst(true, key, value)
      ensures Lists() == Open(kind, old(Lists()), key, value)
    {
      e := Burst(true, key, value);
      InsertBurst(kind, e);
    }

    method CloseBurstEvent(kind: ContextKind, key: Key, value: Value) returns (e: Event)
      modifies `burstList, `burstBackup
      ensures Lists() == Close(kind, old(Lists()), key).0
      ensures e == CloseEvent(kind, old(Lists()), key, value)
    {
      var found, it := FindBurstByKey(key);
      if found {
        e := ReverseType(burstList[it]);
        RemoveBurst(kind, it);
      } else {
        e := Burst(false, key, value);
      }
      if !ShowStackedBursts(kind) {
        found, it := FindBurstByKey(key);
        if found { e := burstList[it]; }
      }
    }

    method PushState(kind: ContextKind, state: StateValue)
      modifies `stateStack
      ensures stateStack == Pushed(kind, old(stateStack), state)
    {
      if !kind.Disabled? { stateStack := stateStack + [state]; }
    }

    /** Popping an empty stack does nothing. */
    method PopState(kind: ContextKind)
      modifies `stateStack
      ensures stateStack == Popped(kind, old(stateStack))
    {
      if !kind.Disabled? && stateStack != [] { stateStack := stateStack[..|stateStack| - 1]; }
    }

    method CreateStateEvent(kind: ContextKind, state: StateValue) returns (e: Event)
      modifies `stateStack
      ensures stateStack == Pushed(kind, old(stateStack), state)
      ensures e.etype == StateStart && e.value == state
    {
      PushState(kind, state);
      e := StateEvent(true, state);
    }

    /** Where stacked states are shown the popped state is ended; otherwise the state below it is started again. */
    method ReturnPreviousStateEvent(kind: ContextKind) returns (e: Event)
      modifies `stateStack
      ensures stateStack == Popped(kind, old(stateStack))
      ensures e == PopEvent(kind, old(stateStack))
    {
      var state := TopState(kind, stateStack);
      PopState(kind);
      if ShowStackedStates(kind) || !ContextSwitchEnabled(kind) {
        e := StateEvent(false, state);
      } else {
        state := TopState(kind, stateStack);
        e := StateEvent(true, state);
      }
    }
  }

  // ----- States, on values -----

  const ERROR_STATE: StateValue := 4

  function Pushed(kind: ContextKind, stack: seq<StateValue>, state: StateValue): seq<StateValue> {
    if kind.Disabled? then stack else stack + [state]
  }

  function Popped(kind: ContextKind, stack: seq<StateValue>): seq<StateValue> {
    if kind.Disabled? || stack == [] then stack else stack[..|stack| - 1]
  }

  function TopState(kind: ContextKind, stack: seq<StateValue>): StateValue {
    if kind.Disabled? || stack == [] then ERROR_STATE else stack[|stack| - 1]
  }

  function PopEvent(kind: ContextKind, stack: seq<StateValue>): Event {
    if ShowStackedStates(kind) || !ContextSwitchEnabled(kind) then StateEvent(false, TopState(kind, stack))
    else StateEvent(true, TopState(kind, Popped(kind, stack)))
  }

  // ----- Opening and closing, on values -----

  function Open(kind: ContextKind, b: Bursts, key: Key, value: Value): Bursts {
    Insert(kind, b, Burst(true, key, value))
  }

  /** The lists after closing, and the burst that was closed. */
  function Close(kind: ContextKind, b: Bursts, key: Key): (Bursts, Option<Event>) {
    var i := FirstIndex(b.main, key);
    if i < |b.main| then (Remove(kind, b, i), Some(b.main[i])) else (b, None)
  }

  /** The event emitted: the end of the burst or, where stacked bursts are not shown, the one that is now on top. */
  function CloseEvent(kind: ContextKind, b: Bursts, key: Key, value: Value): Event {
    var (b', closed) := Close(kind, b, key);
    var i := FirstIndex(b'.main, key);
    if !ShowStackedBursts(kind) && i < |b'.main| then b'.main[i]
    else if closed.Some? then ReverseType(closed.value)
    else Burst(false, key, value)
  }

  // ----- One stack per key -----

  function WithKey(s: seq<Event>, key: Key): seq<Event> {
    if s == [] then []
    else if s[0].key == key then [s[0]] + WithKey(s[1..], key) else WithKey(s[1..], key)
  }

  /** The open bursts with a key, most recent first. */
  function StackOf(b: Bursts, key: Key): seq<Event> {
    WithKey(b.main, key) + WithKey(b.backup, key)
  }

  /** Without stacked bursts the main list holds the most recent burst of each open key, and only that. */
  ghost predicate Ok(kind: ContextKind, b: Bursts) {
    if kind.Disabled? then b == Bursts([], [])
    else if ShowStackedBursts(kind) then b.backup == []
    else forall key :: MainOk(b, key)
  }

  predicate MainOk(b: Bursts, key: Key) {
    |WithKey(b.main, key)| <= 1 && (WithKey(b.main, key) == [] ==> WithKey(b.backup, key) == [])
  }

  lemma {:induction false} WithKeyFirst(s: seq<Event>, key: Key)
    ensures FirstIndex(s, key) < |s| <==> WithKey(s, key) != []
    ensures FirstIndex(s, key) < |s| ==> WithKey(s, key)[0] == s[FirstIndex(s, key)]
  {
    if s != [] && s[0].key != key { WithKeyFirst(s[1..], key); }
  }

  lemma {:induction false} WithKeyWithout(s: seq<Event>, key: Key, k: Key)
    requires FirstIndex(s, key) < |s|
    ensures WithKey(s, key) != []
    ensures WithKey(Without(s, FirstIndex(s, key)), k) ==
      if k == key then WithKey(s, key)[1..] else WithKey(s, k)
  {
    var i := FirstIndex(s, key);
    if s[0].key == key {
      assert Without(s, 0) == s[1..];
    } else {
      WithKeyWithout(s[1..], key, k);
      var t := Without(s[1..], i - 1);
      assert Without(s, i) == [s[0]] + t;
      assert ([s[0]] + t)[1..] == t;
    }
  }

  lemma WithKeyCons(e: Event, s: seq<Event>, k: Key)
    ensures WithKey([e] + s, k) == if e.key == k then [e] + WithKey(s, k) else WithKey(s, k)
  {
    assert ([e] + s)[1..] == s;
  }

  /** Inserting pushes on the stack of the event's key and touches no other. */
  lemma InsertPushes(kind: ContextKind, b: Bursts, e: Event, k: Key)
    requires Ok(kind, b) && !kind.Disabled?
    ensures StackOf(Insert(kind, b, e), k) == if k == e.key then [e] + StackOf(b, k) else StackOf(b, k)
    ensures !ShowStackedBursts(kind) ==> MainOk(Insert(kind, b, e), k)
  {
    var i := FirstIndex(b.main, e.key);
    WithKeyFirst(b.main, e.key);
    if !ShowStackedBursts(kind) && i < |b.main| {
      WithKeyWithout(b.main, e.key, k);
      WithKeyCons(e, Without(b.main, i), k);
      WithKeyCons(b.main[i], b.backup, k);
      assert MainOk(b, e.key) && MainOk(b, k);
    } else {
      WithKeyCons(e, b.main, k);
      assert !ShowStackedBursts(kind) ==> MainOk(b, k);
    }
  }

  /** Closing pops the stack of its key, and says what it popped. */
  lemma ClosePops(kind: ContextKind, b: Bursts, key: Key, k: Key)
    requires Ok(kind, b) && !kind.Disabled?
    ensures Close(kind, b, key).1 == if StackOf(b, key) == [] then None else Some(StackOf(b, key)[0])
    ensures StackOf(Close(kind, b, key).0, k) ==
      if k == key && StackOf(b, key) != [] then StackOf(b, key)[1..] else StackOf(b, k)
    ensures !ShowStackedBursts(kind) ==> MainOk(Close(kind, b, key).0, k)
  {
    WithKeyFirst(b.main, key);
    assert !ShowStackedBursts(kind) ==> MainOk(b, key) && MainOk(b, k);
    if FirstIndex(b.main, key) < |b.main| {
      WithKeyWithout(b.main, key, k);
      if !ShowStackedBursts(kind) { RemoveRecovers(kind, b, FirstIndex(b.main, key), key, k); }
    }
  }

  lemma RemoveRecovers(kind: ContextKind, b: Bursts, at: nat, key: Key, k: Key)
    requires !kind.Disabled? && !ShowStackedBursts(kind) && MainOk(b, key) && MainOk(b, k)
    requires at == FirstIndex(b.main, key) < |b.main|
    ensures StackOf(b, key) != []
    ensures StackOf(Remove(kind, b, at), k) == if k == key then StackOf(b, key)[1..] else StackOf(b, k)
    ensures MainOk(Remove(kind, b, at), k)
  {
    var main, i := Without(b.main, at), FirstIndex(b.backup, key);
    WithKeyFirst(b.main, key);
    WithKeyFirst(b.backup, key);
    WithKeyWithout(b.main, key, k);
    WithKeyWithout(b.main, key, key);
    assert WithKey(main, key) == [];
    assert StackOf(b, key)[1..] == WithKey(b.backup, key);
    if i < |b.backup| {
      WithKeyWithout(b.backup, key, k);
      WithKeyCons(b.backup[i], main, k);
      assert WithKey(b.backup, key) == [b.backup[i]] + WithKey(b.backup, key)[1..];
    }
  }

  lemma InsertKeepsOk(kind: ContextKind, b: Bursts, e: Event)
    requires Ok(kind, b)
    ensures Ok(kind, Insert(kind, b, e))
  {
    if !kind.Disabled? {
      forall k ensures !ShowStackedBursts(kind) ==> MainOk(Insert(kind, b, e), k) { InsertPushes(kind, b, e, k); }
    }
  }

  lemma CloseKeepsOk(kind: ContextKind, b: Bursts, key: Key)
    requires Ok(kind, b)
    ensures Ok(kind, Close(kind, b, key).0)
  {
    if !kind.Disabled? {
      forall k ensures !ShowStackedBursts(kind) ==> MainOk(Close(kind, b, key).0, k) { ClosePops(kind, b, key, k); }
    }
  }

  // ----- Whole runs against the reference: a map from keys to stacks -----

  datatype Operation = OpenBurst(key: Key, value: Value) | CloseBurst(key: Key, value: Value)

  type Stacks = map<Key, seq<Event>>

  function Get(m: Stacks, key: Key): seq<Event> {
    if key in m then m[key] else []
  }

  /** The reference: the stacks after the operations, and what each close operation closed. */
  function Reference(m: Stacks, ops: seq<Operation>): (Stacks, seq<Option<Event>>)
    decreases |ops|
  {
    if ops == [] then (m, [])
    else match ops[0]
      case OpenBurst(key, value) => Reference(m[key := [Burst(true, key, value)] + Get(m, key)], ops[1..])
      case CloseBurst(key, value) =>
        if Get(m, key) == [] then
          var (m', closed) := Reference(m, ops[1..]);
          (m', [None] + closed)
        else
          var (m', closed) := Reference(m[key := Get(m, key)[1..]], ops[1..]);
          (m', [Some(Get(m, key)[0])] + closed)
  }

  function RunBursts(kind: ContextKind, b: Bursts, ops: seq<Operation>): (Bursts, seq<Option<Event>>)
    decreases |ops|
  {
    if ops == [] then (b, [])
    else match ops[0]
      case OpenBurst(key, value) => RunBursts(kind, Open(kind, b, key, value), ops[1..])
      case CloseBurst(key, value) =>
        var (b1, event) := Close(kind, b, key);
        var (b', closed) := RunBursts(kind, b1, ops[1..]);
        (b', [event] + closed)
  }

  ghost predicate Represents(b: Bursts, m: Stacks) {
    forall key :: StackOf(b, key) == Get(m, key)
  }

  /** Every sequence of operations closes the same bursts in every enabled context: those of the reference. */
  lemma {:induction false} RunMatchesReference(kind: ContextKind, b: Bursts, m: Stacks, ops: seq<Operation>)
    requires !kind.Disabled? && Ok(kind, b) && Represents(b, m)
    ensures RunBursts(kind, b, ops).1 == Reference(m, ops).1
    ensures Represents(RunBursts(kind, b, ops).0, Reference(m, ops).0) && Ok(kind, RunBursts(kind, b, ops).0)
    decreases |ops|
  {
    if ops != [] {
      match ops[0]
      case OpenBurst(key, value) =>
        var e := Burst(true, key, value);
        var b1, m1 := Insert(kind, b, e), m[key := [e] + Get(m, key)];
        forall k ensures StackOf(b1, k) == Get(m1, k) { InsertPushes(kind, b, e, k); }
        InsertKeepsOk(kind, b, e);
        RunMatchesReference(kind, b1, m1, ops[1..]);
      case CloseBurst(key, value) =>
        var b1 := Close(kind, b, key).0;
        var m1 := if Get(m, key) == [] then m else m[key := Get(m, key)[1..]];
        forall k ensures StackOf(b1, k) == Get(m1, k) { ClosePops(kind, b, key, k); }
        ClosePops(kind, b, key, key);
        CloseKeepsOk(kind, b, key);
        RunMatchesReference(kind, b1, m1, ops[1..]);
    }
  }

  /** From empty lists: two contexts close the same bursts, and without stacked bursts the main list never holds
      two events of one key. */
  lemma ContextsCloseTheSame(kind: ContextKind, kind': ContextKind, ops: seq<Operation>)
    requires !kind.Disabled? && !kind'.Disabled?
    ensures RunBursts(kind, Bursts([], []), ops).1 == RunBursts(kind', Bursts([], []), ops).1
    ensures !ShowStackedBursts(kind) ==> forall key :: |WithKey(RunBursts(kind, Bursts([], []), ops).0.main, key)| <= 1
  {
    var b := Bursts([], []);
    assert Represents(b, map[]);
    RunMatchesReference(kind, b, map[], ops);
    RunMatchesReference(kind', b, map[], ops);
    var end := RunBursts(kind, b, ops).0;
    if !ShowStackedBursts(kind) {
      forall key ensures |WithKey(end.main, key)| <= 1 { assert MainOk(end, key); }
    }
  }

  /** What closing a key emits, in terms of its stack: without stacked bursts the burst below is opened again. */
  lemma CloseEventFromStack(kind: ContextKind, b: Bursts, key: Key, value: Value)
    requires Ok(kind, b) && !kind.Disabled?
    ensures var stack := StackOf(b, key);
      CloseEvent(kind, b, key, value) ==
        if stack == [] then Burst(false, key, value)
        else if ShowStackedBursts(kind) || |stack| == 1 then ReverseType(stack[0])
        else stack[1]
  {
    var b' := Close(kind, b, key).0;
    ClosePops(kind, b, key, key);
    CloseKeepsOk(kind, b, key);
    WithKeyFirst(b'.main, key);
    assert !ShowStackedBursts(kind) ==> MainOk(b', key);
  }

  // ----- Which context does what -----

  /** Two open bursts of one key are both in the main list in the two contexts with stacked bursts, one is in the backup
      list in the plain context and the one with stacked states, and the disabled context keeps nothing. */
  lemma TwoBursts(kind: ContextKind, key: Key, v: Value, w: Value)
    ensures var b := Open(kind, Open(kind, Bursts([], []), key, v), key, w);
      match kind
      case Plain => b == Bursts([Burst(true, key, w)], [Burst(true, key, v)])
      case StackedStates => b == Bursts([Burst(true, key, w)], [Burst(true, key, v)])
      case StackedBursts => b == Bursts([Burst(true, key, w), Burst(true, key, v)], [])
      case StackedStatesAndBursts => b == Bursts([Burst(true, key, w), Burst(true, key, v)], [])
      case Disabled => b == Bursts([], [])
  {
    FirstIndexIs([Burst(true, key, v)], key, 0);
    assert Without([Burst(true, key, v)], 0) == [];
  }
}
