/** The event pipeline of an asynchronous thread.  A running work descriptor (WD) is driven through its phases by
    events, each with one continuation.  The thread is sequential but re-entrant: whatever a phase calls may
    call checkEvents or idle again, so the call stack is part of the state. */
module AsyncPipeline {
  import opened Wrappers

  type Wd = nat
  type EventId = nat

  /** The continuations: preRunWD, checkWDInputs, runWD, checkWDOutputs and postRunWD. */
  datatype Phase = PreRun | CheckInputs | RunBody | CheckOutputs | PostRun

  /** What raises an event: the device, or a condition that isRaised() evaluates. */
  datatype Trigger = Device | WhenInputsReady | WhenOutputsReady

  datatype Status = Pending | Raised | Completed

  datatype Event = Event(wd: Wd, next: Phase, trigger: Trigger, status: Status)

  datatype IdleStage = Starting | Looping | Fetching | Added

  /** A call in progress.  `max` is the saved event counter; `seen` is the history of what the deque held then. */
  datatype Frame =
    | CheckAll(i: nat, max: nat, seen: seq<EventId>)            // checkEvents()
    | CheckOne(wd: Wd, i: nat, max: nat, seen: seq<EventId>)    // checkEvents( wd )
    | Doing(phase: Phase, wd: Wd)       // in a phase, before its decision
    | Executing(wd: Wd)                 // in runWDDependent
    | Calling(wd: Wd)                   // checkWDInputs, waiting for runWD to return
    | Finishing(wd: Wd)                 // in finishWork
    | Idle(stage: IdleStage)            // idle; while Fetching, canGetWork() has said yes

  datatype State = State(
    events: map<EventId, Event>,
    pending: seq<EventId>,         // _pendingEvents
    pendingCounter: int,
    running: seq<Wd>,              // _runningWDs
    runningCounter: int,
    recursive: int,                // _recursiveCounter
    maxPrefetch: nat,
    stack: seq<Frame>,             // innermost call first
    inputs: set<Wd>,               // WDs whose input data is ready
    outputs: set<Wd>,              // WDs whose output data is ready
    blocked: set<Wd>,              // WDs with predecessors
    added: set<Wd>,                // history: WDs ever added
    outsiders: set<Wd>,            // history: WDs added by calls from outside the idle loop
    bodies: multiset<Wd>,          // history: bodies run
    finished: multiset<Wd>,        // history: finishWork called
    processed: multiset<EventId>,  // history: events whose actions ran
    deepest: nat,                  // history: most idle loops ever between canGetWork() and addNextWD at once
    crashed: bool                  // the deque was read past its end
  )

  datatype Action =
    | CallCheckEvents
    | CallCheckEventsOf(wd: Wd)
    | CallIdle
    | CallAddNextWD(wd: Wd)
    | Advance(flag: bool, fetched: Option<Wd>, id: EventId)   // the choices of the code that is called
    | RaiseByDevice(e: EventId)
    | InputsArrive(wd: Wd)
    | OutputsArrive(wd: Wd)
    | PredecessorsDone(wd: Wd)

  function Initial(maxPrefetch: nat, blocked: set<Wd>): State {
    State(map[], [], 0, [], 0, 0, maxPrefetch, [], {}, {}, blocked, {}, {}, multiset{}, multiset{}, multiset{}, 0,
          false)
  }

  // ----- Pieces of steps -----

  function Push(s: State, f: Frame): State {
    s.(stack := [f] + s.stack)
  }

  function Pop(s: State): State
    requires s.stack != []
  {
    s.(stack := s.stack[1..])
  }

  function Replace(s: State, f: Frame): State
    requires s.stack != []
  {
    s.(stack := [f] + s.stack[1..])
  }

  /** addEvent: the phase on top of the stack ends by queueing one event. */
  function EndWith(s: State, id: EventId, event: Event): State
    requires s.stack != []
  {
    s.(events := s.events[id := event], pending := s.pending + [id], pendingCounter := s.pendingCounter + 1,
       stack := s.stack[1..])
  }

  predicate IsRaised(s: State, event: Event) {
    match event.status
    case Completed => false
    case Raised => true
    case Pending =>
      match event.trigger
      case Device => false
      case WhenInputsReady => event.wd in s.inputs
      case WhenOutputsReady => event.wd in s.outputs
  }

  /** The event is completed first, then its continuation is called. */
  function Process(s: State, e: EventId, caller: Frame): State
    requires s.stack != [] && e in s.events
  {
    var event := s.events[e];
    s.(events := s.events[e := event.(status := Completed)], processed := s.processed + multiset{e},
       stack := [Doing(event.next, event.wd), caller] + s.stack[1..])
  }

  /** One round of the loop of checkEvents: the event at the saved position, if it is raised and wanted. */
  function Visit(s: State, i: nat, wanted: set<Wd>, any: bool, caller: Frame): State
    requires s.stack != []
  {
    if i >= |s.pending| || s.pending[i] !in s.events then s.(crashed := true)
    else
      var e := s.pending[i];
      if (any || s.events[e].wd in wanted) && IsRaised(s, s.events[e])
      then Process(s, e, caller) else Replace(s, caller)
  }

  /** The number of completed events at the front of the deque. */
  function CompletedPrefix(events: map<EventId, Event>, pending: seq<EventId>): (n: nat)
    ensures n <= |pending|
  {
    if pending != [] && pending[0] in events && events[pending[0]].status == Completed
    then CompletedPrefix(events, pending[1..]) + 1 else 0
  }

  /** The outermost checkEvents() erases the completed events at the front. */
  function EndCheckAll(s: State): State
    requires s.stack != []
  {
    var n := if s.recursive == 1 then CompletedPrefix(s.events, s.pending) else 0;
    s.(pending := s.pending[n..], pendingCounter := s.pendingCounter - n, recursive := s.recursive - 1,
       stack := s.stack[1..])
  }

  function CallCheck(s: State): State {
    Push(s.(recursive := s.recursive + 1), CheckAll(0, if s.pendingCounter < 0 then 0 else s.pendingCounter, s.pending))
  }

  function Removed(running: seq<Wd>, wd: Wd): seq<Wd> {
    if running == [] then []
    else if running[0] == wd then Removed(running[1..], wd) else [running[0]] + Removed(running[1..], wd)
  }

  function DoPhase(s: State, phase: Phase, wd: Wd, flag: bool, id: EventId): State
    requires s.stack != []
  {
    match phase
    case PreRun =>
      if flag then EndWith(s, id, Event(wd, CheckInputs, Device, Pending))
      else EndWith(s, id, Event(wd, PreRun, Device, Raised))
    case CheckInputs =>
      if wd in s.inputs then Push(Replace(s, Calling(wd)), Doing(RunBody, wd))
      else EndWith(s, id, Event(wd, RunBody, WhenInputsReady, Pending))
    case RunBody =>
      if wd in s.blocked then EndWith(s, id, Event(wd, RunBody, Device, Raised))
      else Replace(s, Executing(wd)).(bodies := s.bodies + multiset{wd})
    case CheckOutputs => EndWith(s, id, Event(wd, PostRun, Device, Pending))
    case PostRun =>
      if wd !in s.outputs then EndWith(s, id, Event(wd, PostRun, WhenOutputsReady, Pending))
      else Replace(s, Finishing(wd)).(running := Removed(s.running, wd), runningCounter := s.runningCounter - 1,
                                      finished := s.finished + multiset{wd})
  }

  /** Idle loops that have asked canGetWork() and not added a WD yet. */
  function Windows(stack: seq<Frame>): nat {
    if stack == [] then 0 else Windows(stack[1..]) + if stack[0] == Idle(Fetching) then 1 else 0
  }

  function DoIdle(s: State, stage: IdleStage, flag: bool, fetched: Option<Wd>): State
    requires s.stack != []
  {
    match stage
    case Starting => CallCheck(Replace(s, Idle(Looping)))
    case Looping =>
      if flag && s.runningCounter < s.maxPrefetch then
        var open := Windows(s.stack) + 1;
        CallCheck(Replace(s, Idle(Fetching)).(deepest := if open > s.deepest then open else s.deepest))
      else Pop(s)
    case Fetching =>
      (match fetched
       case None => Pop(s)
       case Some(wd) =>
         Push(Replace(s, Idle(Added)), Doing(PreRun, wd)).(
           running := s.running + [wd], runningCounter := s.runningCounter + 1, added := s.added + {wd}))
    case Added => CallCheck(Replace(s, Idle(Looping)))
  }

  function DoAdvance(s: State, flag: bool, fetched: Option<Wd>, id: EventId): State
    requires s.stack != []
  {
    match s.stack[0]
    case CheckAll(i, max, seen) =>
      if i < max then Visit(s, i, {}, true, CheckAll(i + 1, max, seen)) else EndCheckAll(s)
    case CheckOne(wd, i, max, seen) =>
      if i < max then Visit(s, i, {wd}, false, CheckOne(wd, i + 1, max, seen)) else Pop(s)
    case Doing(phase, wd) => DoPhase(s, phase, wd, flag, id)
    case Executing(wd) => EndWith(s, id, Event(wd, CheckOutputs, Device, Pending))
    case Calling(_) => Pop(s)
    case Finishing(_) => Pop(s)
    case Idle(stage) => DoIdle(s, stage, flag, fetched)
  }

  /** Calls come from outside, or from code that a phase calls; the scheduler's prefetch does not call back. */
  predicate MayCall(s: State) {
    s.stack == [] || s.stack[0].Doing? || s.stack[0].Executing? || s.stack[0].Finishing?
  }

  /** Schedulers and slicers add WDs themselves, from anywhere outside code runs, prefetch included. */
  predicate MayAdd(s: State) {
    MayCall(s) || s.stack[0] == Idle(Fetching)
  }

  /** addNextWD, without any test of the limit. */
  function AddOutside(s: State, wd: Wd): State {
    Push(s, Doing(PreRun, wd)).(running := s.running + [wd], runningCounter := s.runningCounter + 1,
                                added := s.added + {wd}, outsiders := s.outsiders + {wd})
  }

  /** The scheduler hands out every WD once. */
  predicate Enabled(s: State, a: Action) {
    && !s.crashed
    && match a
       case CallCheckEvents => MayCall(s)
       case CallCheckEventsOf(_) => MayCall(s)
       case CallIdle => MayCall(s)
       case CallAddNextWD(wd) => MayAdd(s) && wd !in s.added
       case Advance(_, fetched, id) => s.stack != [] && id !in s.events && (fetched.Some? ==> fetched.value !in s.added)
       case RaiseByDevice(e) => e in s.events && s.events[e].status == Pending && s.events[e].trigger == Device
       case InputsArrive(_) => true
       case OutputsArrive(_) => true
       case PredecessorsDone(_) => true
  }

  function Step(s: State, a: Action): State
    requires Enabled(s, a)
  {
    match a
    case CallCheckEvents => CallCheck(s)
    case CallCheckEventsOf(wd) =>
      Push(s, CheckOne(wd, 0, if s.pendingCounter < 0 then 0 else s.pendingCounter, s.pending))
    case CallIdle => Push(s, Idle(Starting))
    case CallAddNextWD(wd) => AddOutside(s, wd)
    case Advance(flag, fetched, id) => DoAdvance(s, flag, fetched, id)
    case RaiseByDevice(e) => s.(events := s.events[e := s.events[e].(status := Raised)])
    case InputsArrive(wd) => s.(inputs := s.inputs + {wd})
    case OutputsArrive(wd) => s.(outputs := s.outputs + {wd})
    case PredecessorsDone(wd) => s.(blocked := s.blocked - {wd})
  }

  // ----- Runs -----

  predicate Possible(s: State, actions: seq<Action>)
    decreases |actions|
  {
    actions == [] || (Enabled(s, actions[0]) && Possible(Step(s, actions[0]), actions[1..]))
  }

  function Run(s: State, actions: seq<Action>): State
    requires Possible(s, actions)
    decreases |actions|
  {
    if actions == [] then s else Run(Step(s, actions[0]), actions[1..])
  }

  // ----- The invariant -----

  /** The call is responsible for bringing the WD further. */
  predicate Holds(f: Frame, wd: Wd) {
    (f.Doing? || f.Executing?) && f.wd == wd
  }

  function Holding(stack: seq<Frame>, wd: Wd): nat {
    if stack == [] then 0 else Holding(stack[1..], wd) + if Holds(stack[0], wd) then 1 else 0
  }

  /** The uncompleted events of a WD. */
  function Live(events: map<EventId, Event>, wd: Wd): set<EventId> {
    set e | e in events && events[e].status != Completed && events[e].wd == wd
  }

  function Tokens(events: map<EventId, Event>, stack: seq<Frame>, wd: Wd): nat {
    |Live(events, wd)| + Holding(stack, wd)
  }

  /** A running WD has exactly one uncompleted continuation or is in flight; other WDs have neither. */
  predicate TokenOk(events: map<EventId, Event>, stack: seq<Frame>, running: seq<Wd>, wd: Wd) {
    Tokens(events, stack, wd) == if wd in running then 1 else 0
  }

  /** How often the body has run when a WD is in a phase. */
  function BodiesBefore(phase: Phase): nat {
    if phase.CheckOutputs? || phase.PostRun? then 1 else 0
  }

  predicate EventOk(bodies: multiset<Wd>, inputs: set<Wd>, event: Event) {
    event.status != Completed ==>
      && bodies[event.wd] == BodiesBefore(event.next)
      && (event.next.RunBody? && event.trigger.Device? ==> event.wd in inputs)
      && (event.trigger.WhenInputsReady? ==> event.next.RunBody? && event.status.Pending?)
      && (event.trigger.WhenOutputsReady? ==> event.next.PostRun? && event.status.Pending?)
  }

  predicate FrameOk(bodies: multiset<Wd>, inputs: set<Wd>, f: Frame) {
    match f
    case Doing(phase, wd) => bodies[wd] == BodiesBefore(phase) && (phase.RunBody? ==> wd in inputs)
    case Executing(wd) => bodies[wd] == 1
    case _ => true
  }

  predicate HistoryOk(running: seq<Wd>, added: set<Wd>, bodies: multiset<Wd>, finished: multiset<Wd>, wd: Wd) {
    && (wd in running ==> wd in added && finished[wd] == 0)
    && (wd !in added ==> bodies[wd] == 0 && finished[wd] == 0)
    && (wd in added && wd !in running ==> bodies[wd] == 1 && finished[wd] == 1)
  }

  predicate Distinct(ids: seq<nat>) {
    forall i, j :: 0 <= i < j < |ids| ==> ids[i] != ids[j]
  }

  /** The deque holds every event that is not completed, and nothing twice. */
  predicate DequeOk(events: map<EventId, Event>, pending: seq<EventId>) {
    && Distinct(pending)
    && (forall e :: e in pending ==> e in events)
    && (forall e :: e in events && events[e].status != Completed ==> e in pending)
  }

  /** An event's actions ran exactly once if it is completed, and never if it is not. */
  predicate ProcessedOk(processed: multiset<EventId>, events: map<EventId, Event>, e: EventId) {
    processed[e] == if e in events && events[e].status == Completed then 1 else 0
  }

  function Checks(stack: seq<Frame>): nat {
    if stack == [] then 0 else Checks(stack[1..]) + if stack[0].CheckAll? then 1 else 0
  }

  predicate CountersOk(s: State) {
    && s.pendingCounter == |s.pending| && s.runningCounter == |s.running| && s.recursive == Checks(s.stack)
    && Distinct(s.running)
  }

  /** The running WDs that idle loops fetched. */
  function Fetched(running: seq<Wd>, outsiders: set<Wd>): nat {
    if running == [] then 0
    else Fetched(running[1..], outsiders) + if running[0] in outsiders then 0 else 1
  }

  /** Fetching is bounded by the prefetch limit and the nesting of idle loops. */
  predicate PrefetchOk(s: State) {
    && s.outsiders <= s.added
    && if s.deepest == 0 then Fetched(s.running, s.outsiders) == 0 && Windows(s.stack) == 0
       else Fetched(s.running, s.outsiders) + Windows(s.stack) <= s.maxPrefetch + s.deepest - 1
  }

  /** Where every WD is in its phases. */
  ghost predicate PhasesOk(s: State) {
    && (forall wd {:trigger TokenOk(s.events, s.stack, s.running, wd)} :: TokenOk(s.events, s.stack, s.running, wd))
    && (forall wd {:trigger HistoryOk(s.running, s.added, s.bodies, s.finished, wd)} ::
          HistoryOk(s.running, s.added, s.bodies, s.finished, wd))
    && (forall e {:trigger EventOk(s.bodies, s.inputs, s.events[e])} :: e in s.events ==>
          EventOk(s.bodies, s.inputs, s.events[e]))
    && (forall k {:trigger s.stack[k]} :: 0 <= k < |s.stack| ==> FrameOk(s.bodies, s.inputs, s.stack[k]))
  }

  /** The lists, their counters and the events processed so far. */
  ghost predicate ListsOk(s: State) {
    && CountersOk(s) && DequeOk(s.events, s.pending) && PrefetchOk(s)
    && (forall e {:trigger ProcessedOk(s.processed, s.events, e)} :: ProcessedOk(s.processed, s.events, e))
  }

  ghost predicate Inv(s: State) {
    PhasesOk(s) && ListsOk(s)
  }
}
