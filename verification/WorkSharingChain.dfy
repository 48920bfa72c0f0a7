/** The list of work-sharing descriptors of a team.  Every thread of the team walks the list one descriptor
    per call of getTeamWorkSharingDescriptor and extends it at the end by compare-and-swap.  The calls of any
    number of threads are interleaved one memory access at a time. */
module WorkSharingChain {
  import opened Wrappers

  type Desc = nat   // an address; the allocator may hand out the address of a deleted descriptor again
  type Tid = nat
  type Memory = map<Desc, Option<Desc>>

  /** Where a thread is inside the call. */
  datatype Pc =
    | Idle
    | Testing                                        // about to test the link that follows its last descriptor
    | Loading                                        // the link was not null: about to read it again
    | Allocating                                     // the link was null
    | Swapping(mine: Desc)                           // about to compare-and-swap
    | Reloading(mine: Desc)                          // the swap failed
    | Deleting(mine: Desc, next: Option<Desc>)
    | Storing(next: Option<Desc>, created: bool)     // about to set _wsDescriptor and return
    | Failed                                         // fatal error: no team

  datatype Call = Call(result: Option<Desc>, created: bool)

  datatype Thread = Thread(
    pc: Pc,
    last: Option<Desc>,      // _wsDescriptor
    hasTeam: bool,
    calls: seq<Call>,        // the calls completed in implicit work
    privates: seq<Desc>      // the descriptors obtained in other work
  )

  /** A successful swap. */
  datatype Win = Win(desc: Desc, winner: Tid)

  /** `next` holds the link of every allocated descriptor; `won` is the history of successful swaps. */
  datatype State = State(
    next: Memory,
    head: Option<Desc>,
    threads: map<Tid, Thread>,
    dangling: bool,
    won: seq<Win>
  )

  /** `d` is the address that the allocator picks, when the step allocates. */
  datatype Action = Begin(t: Tid, implicit: bool, d: Desc) | Go(t: Tid, d: Desc)

  function NewThread(hasTeam: bool): Thread {
    Thread(Idle, None, hasTeam, [], [])
  }

  function Initial(team: map<Tid, bool>): State {
    State(map[], None, map t | t in team :: NewThread(team[t]), false, [])
  }

  // ----- Memory accesses -----

  /** The link that a thread works on: that of its last descriptor, or the team's. */
  function Link(s: State, last: Option<Desc>): Option<Desc> {
    match last
    case None => s.head
    case Some(d) => if d in s.next then s.next[d] else None
  }

  function SetLink(s: State, last: Option<Desc>, d: Desc): State {
    match last
    case None => s.(head := Some(d))
    case Some(l) => s.(next := s.next[l := Some(d)])
  }

  /** An access to the link is an access to freed memory when the descriptor is gone. */
  function Touch(s: State, last: Option<Desc>): State {
    s.(dangling := s.dangling || (last.Some? && last.value !in s.next))
  }

  function SetThread(s: State, t: Tid, th: Thread): State {
    s.(threads := s.threads[t := th])
  }

  function SetPc(s: State, t: Tid, pc: Pc): State
    requires t in s.threads
  {
    SetThread(s, t, s.threads[t].(pc := pc))
  }

  // ----- Steps -----

  predicate Enabled(s: State, a: Action) {
    && a.t in s.threads
    && match a
       case Begin(t, implicit, d) => s.threads[t].pc.Idle? && d !in s.next
       case Go(t, d) =>
         && !s.threads[t].pc.Idle? && !s.threads[t].pc.Failed?
         && (s.threads[t].pc.Allocating? ==> d !in s.next)
  }

  /** In work that is not implicit the caller gets a descriptor of its own. */
  function DoBegin(s: State, t: Tid, implicit: bool, d: Desc): State
    requires t in s.threads
  {
    var th := s.threads[t];
    if implicit then SetPc(s, t, Testing)
    else if !th.hasTeam then SetPc(s, t, Failed)
    else SetThread(s.(next := s.next[d := None]), t, th.(privates := th.privates + [d]))
  }

  function DoTest(s: State, t: Tid): State
    requires t in s.threads
  {
    var th := s.threads[t];
    if th.last.None? && !th.hasTeam then SetPc(s, t, Failed)
    else SetPc(Touch(s, th.last), t, if Link(s, th.last).Some? then Loading else Allocating)
  }

  function DoLoad(s: State, t: Tid): State
    requires t in s.threads
  {
    SetPc(Touch(s, s.threads[t].last), t, Storing(Link(s, s.threads[t].last), false))
  }

  function DoAllocate(s: State, t: Tid, d: Desc): State
    requires t in s.threads
  {
    SetPc(s.(next := s.next[d := None]), t, Swapping(d))
  }

  function DoSwap(s: State, t: Tid): State
    requires t in s.threads && s.threads[t].pc.Swapping?
  {
    var last, d := s.threads[t].last, s.threads[t].pc.mine;
    var s1 := Touch(s, last);
    if Link(s, last).None?
    then SetPc(SetLink(s1, last, d).(won := s.won + [Win(d, t)]), t, Storing(Some(d), true))
    else SetPc(s1, t, Reloading(d))
  }

  function DoReload(s: State, t: Tid): State
    requires t in s.threads && s.threads[t].pc.Reloading?
  {
    SetPc(Touch(s, s.threads[t].last), t, Deleting(s.threads[t].pc.mine, Link(s, s.threads[t].last)))
  }

  function DoDelete(s: State, t: Tid): State
    requires t in s.threads && s.threads[t].pc.Deleting?
  {
    SetPc(s.(next := s.next - {s.threads[t].pc.mine}), t, Storing(s.threads[t].pc.next, false))
  }

  function DoStore(s: State, t: Tid): State
    requires t in s.threads && s.threads[t].pc.Storing?
  {
    var th := s.threads[t];
    SetThread(s, t, th.(pc := Idle, last := th.pc.next, calls := th.calls + [Call(th.pc.next, th.pc.created)]))
  }

  function Step(s: State, a: Action): State
    requires Enabled(s, a)
  {
    match a
    case Begin(t, implicit, d) => DoBegin(s, t, implicit, d)
    case Go(t, d) =>
      match s.threads[t].pc
      case Testing => DoTest(s, t)
      case Loading => DoLoad(s, t)
      case Allocating => DoAllocate(s, t, d)
      case Swapping(_) => DoSwap(s, t)
      case Reloading(_) => DoReload(s, t)
      case Deleting(_, _) => DoDelete(s, t)
      case Storing(_, _) => DoStore(s, t)
  }

  // ----- The invariant -----

  predicate InChain(won: seq<Win>, d: Desc) {
    exists i :: 0 <= i < |won| && won[i].desc == d
  }

  /** The links in memory are exactly the history of successful swaps. */
  predicate ChainOk(next: Memory, head: Option<Desc>, won: seq<Win>) {
    && head == (if won == [] then None else Some(won[0].desc))
    && (forall i :: 0 <= i < |won| ==> won[i].desc in next)
    && (forall i :: 0 <= i < |won| ==>
          next[won[i].desc] == if i + 1 < |won| then Some(won[i + 1].desc) else None)
    && (forall i, j :: 0 <= i < j < |won| ==> won[i].desc != won[j].desc)
  }

  /** The descriptor that only this call knows. */
  function Mine(pc: Pc): set<Desc> {
    match pc
    case Swapping(d) => {d}
    case Reloading(d) => {d}
    case Deleting(d, _) => {d}
    case _ => {}
  }

  /** The descriptors that only this thread knows. */
  function Owned(th: Thread): set<Desc> {
    (set d | d in th.privates) + Mine(th.pc)
  }

  /** The calls of a thread follow the history, and it was told to have created what it created. */
  predicate CallsOk(won: seq<Win>, t: Tid, th: Thread) {
    && |th.calls| <= |won|
    && (forall k :: 0 <= k < |th.calls| ==> th.calls[k] == Call(Some(won[k].desc), won[k].winner == t))
    && th.last == (if th.calls == [] then None else Some(won[|th.calls| - 1].desc))
    && (forall k :: |th.calls| <= k < |won| && won[k].winner == t ==> k == |th.calls| && th.pc.Storing?)
  }

  predicate PcOk(won: seq<Win>, t: Tid, th: Thread) {
    var n := |th.calls|;
    && (!th.hasTeam ==> th.calls == [] && th.privates == [] && (th.pc.Idle? || th.pc.Testing? || th.pc.Failed?))
    && (th.pc.Loading? || th.pc.Reloading? ==> n < |won|)
    && (th.pc.Deleting? ==> n < |won| && th.pc.next == Some(won[n].desc))
    && (th.pc.Storing? ==> n < |won| && th.pc.next == Some(won[n].desc) && th.pc.created == (won[n].winner == t))
  }

  /** What a thread owns is allocated, not in the chain, and not linked to anything. */
  predicate OwnedOk(next: Memory, won: seq<Win>, th: Thread) {
    && (forall d :: d in Owned(th) ==> d in next && next[d].None? && !InChain(won, d))
    && (forall d :: d in Mine(th.pc) ==> d !in th.privates)
  }

  predicate ThreadOk(next: Memory, won: seq<Win>, t: Tid, th: Thread) {
    CallsOk(won, t, th) && PcOk(won, t, th) && OwnedOk(next, won, th)
  }

  predicate Apart(th: Thread, other: Thread) {
    Owned(th) !! Owned(other)
  }

  predicate Inv(s: State) {
    && ChainOk(s.next, s.head, s.won) && !s.dangling
    && (forall t {:trigger ThreadOk(s.next, s.won, t, s.threads[t])} :: t in s.threads ==>
          ThreadOk(s.next, s.won, t, s.threads[t]))
    && (forall t, u {:trigger Apart(s.threads[t], s.threads[u])} :: t in s.threads && u in s.threads && t != u ==>
          Apart(s.threads[t], s.threads[u]))
  }

  /** The link a thread works on is the history's next entry. */
  lemma LinkIsNext(s: State, t: Tid)
    requires ChainOk(s.next, s.head, s.won) && t in s.threads && CallsOk(s.won, t, s.threads[t])
    ensures var n := |s.threads[t].calls|;
      Link(s, s.threads[t].last) == if n < |s.won| then Some(s.won[n].desc) else None
    ensures Touch(s, s.threads[t].last) == s
  {
    var n := |s.threads[t].calls|;
    if n > 0 { assert s.won[n - 1].desc in s.next; }
  }

  // ----- Every step keeps it -----

  /** Only thread `t` moves; memory and history stay. */
  lemma KeepLocal(s: State, t: Tid, th: Thread)
    requires Inv(s) && t in s.threads && ThreadOk(s.next, s.won, t, th) && Owned(th) <= Owned(s.threads[t])
    ensures Inv(SetThread(s, t, th))
  {
    var s' := SetThread(s, t, th);
    forall u | u in s'.threads ensures ThreadOk(s'.next, s'.won, u, s'.threads[u]) {
      if u != t { assert ThreadOk(s.next, s.won, u, s.threads[u]); }
    }
    forall u, v | u in s'.threads && v in s'.threads && u != v ensures Apart(s'.threads[u], s'.threads[v]) {
      assert Apart(s.threads[u], s.threads[v]);
    }
  }

  lemma KeepTest(s: State, t: Tid)
    requires Inv(s) && t in s.threads && s.threads[t].pc.Testing?
    ensures Inv(DoTest(s, t))
  {
    assert ThreadOk(s.next, s.won, t, s.threads[t]);
    LinkIsNext(s, t);
    KeepLocal(s, t, DoTest(s, t).threads[t]);
  }

  lemma KeepLoad(s: State, t: Tid)
    requires Inv(s) && t in s.threads && s.threads[t].pc.Loading?
    ensures Inv(DoLoad(s, t))
  {
    assert ThreadOk(s.next, s.won, t, s.threads[t]);
    LinkIsNext(s, t);
    KeepLocal(s, t, DoLoad(s, t).threads[t]);
  }

  lemma KeepReload(s: State, t: Tid)
    requires Inv(s) && t in s.threads && s.threads[t].pc.Reloading?
    ensures Inv(DoReload(s, t))
  {
    assert ThreadOk(s.next, s.won, t, s.threads[t]);
    LinkIsNext(s, t);
    KeepLocal(s, t, DoReload(s, t).threads[t]);
  }

  lemma KeepStore(s: State, t: Tid)
    requires Inv(s) && t in s.threads && s.threads[t].pc.Storing?
    ensures Inv(DoStore(s, t))
  {
    assert ThreadOk(s.next, s.won, t, s.threads[t]);
    KeepLocal(s, t, DoStore(s, t).threads[t]);
  }

  /** A thread does not notice changes outside what it owns ... */
  lemma OtherThread(next: Memory, next': Memory, won: seq<Win>, t: Tid, th: Thread)
    requires ThreadOk(next, won, t, th)
    requires forall d :: d in Owned(th) ==> d in next' && next'[d] == next[d]
    ensures ThreadOk(next', won, t, th)
  {
  }

  /** ... nor swaps won by others. */
  lemma OtherWins(next: Memory, won: seq<Win>, w: Win, t: Tid, th: Thread)
    requires ThreadOk(next, won, t, th) && w.winner != t && w.desc !in Owned(th)
    ensures ThreadOk(next, won + [w], t, th)
  {
    forall d | d in Owned(th) ensures !InChain(won + [w], d) { NotAppended(won, w, d); }
  }

  lemma NotAppended(won: seq<Win>, w: Win, d: Desc)
    requires !InChain(won, d) && w.desc != d
    ensures !InChain(won + [w], d)
  {
    assert forall i :: 0 <= i < |won| ==> won[i].desc != d && (won + [w])[i] == won[i];
  }

  /** Thread `t` gets a new descriptor at a free address. */
  lemma KeepNew(s: State, t: Tid, th: Thread, d: Desc)
    requires Inv(s) && t in s.threads && d !in s.next && Owned(th) == Owned(s.threads[t]) + {d}
    requires CallsOk(s.won, t, th) && PcOk(s.won, t, th)
    requires forall d :: d in Mine(th.pc) ==> d !in th.privates
    ensures Inv(SetThread(s.(next := s.next[d := None]), t, th))
  {
    var s' := SetThread(s.(next := s.next[d := None]), t, th);
    forall u | u in s.threads ensures d !in Owned(s.threads[u]) { assert ThreadOk(s.next, s.won, u, s.threads[u]); }
    forall u | u in s'.threads ensures ThreadOk(s'.next, s'.won, u, s'.threads[u]) {
      assert ThreadOk(s.next, s.won, u, s.threads[u]);
      if u != t { OtherThread(s.next, s'.next, s.won, u, s.threads[u]); }
    }
    forall u, v | u in s'.threads && v in s'.threads && u != v ensures Apart(s'.threads[u], s'.threads[v]) {
      assert Apart(s.threads[u], s.threads[v]);
    }
  }

  lemma KeepAllocate(s: State, t: Tid, d: Desc)
    requires Inv(s) && t in s.threads && s.threads[t].pc.Allocating? && d !in s.next
    ensures Inv(DoAllocate(s, t, d))
  {
    assert ThreadOk(s.next, s.won, t, s.threads[t]);
    var th := s.threads[t].(pc := Swapping(d));
    assert forall e :: e in th.privates ==> e in Owned(s.threads[t]);
    KeepNew(s, t, th, d);
  }

  lemma KeepBegin(s: State, t: Tid, implicit: bool, d: Desc)
    requires Inv(s) && t in s.threads && s.threads[t].pc.Idle? && d !in s.next
    ensures Inv(DoBegin(s, t, implicit, d))
  {
    assert ThreadOk(s.next, s.won, t, s.threads[t]);
    var th := s.threads[t];
    if implicit {
      KeepLocal(s, t, th.(pc := Testing));
    } else if !th.hasTeam {
      KeepLocal(s, t, th.(pc := Failed));
    } else {
      KeepNew(s, t, th.(privates := th.privates + [d]), d);
    }
  }

  /** The failed descriptor is freed; nobody else can name it. */
  lemma KeepDelete(s: State, t: Tid)
    requires Inv(s) && t in s.threads && s.threads[t].pc.Deleting?
    ensures Inv(DoDelete(s, t))
  {
    var d, s' := s.threads[t].pc.mine, DoDelete(s, t);
    assert ThreadOk(s.next, s.won, t, s.threads[t]);
    assert d in Owned(s.threads[t]);
    DeleteKeepsChain(s.next, s.head, s.won, d);
    forall u | u in s'.threads ensures ThreadOk(s'.next, s'.won, u, s'.threads[u]) {
      assert ThreadOk(s.next, s.won, u, s.threads[u]);
      if u != t {
        assert Apart(s.threads[t], s.threads[u]);
        OtherThread(s.next, s'.next, s.won, u, s.threads[u]);
      }
    }
    forall u, v | u in s'.threads && v in s'.threads && u != v ensures Apart(s'.threads[u], s'.threads[v]) {
      assert Apart(s.threads[u], s.threads[v]);
    }
  }

  lemma DeleteKeepsChain(next: Memory, head: Option<Desc>, won: seq<Win>, d: Desc)
    requires ChainOk(next, head, won) && !InChain(won, d)
    ensures ChainOk(next - {d}, head, won)
  {
  }

  lemma KeepFailedSwap(s: State, t: Tid)
    requires Inv(s) && t in s.threads && s.threads[t].pc.Swapping? && Link(s, s.threads[t].last).Some?
    ensures Inv(DoSwap(s, t))
  {
    assert ThreadOk(s.next, s.won, t, s.threads[t]);
    LinkIsNext(s, t);
    KeepLocal(s, t, DoSwap(s, t).threads[t]);
  }

  /** A successful swap links one new descriptor behind the last one. */
  lemma AppendKeepsChain(s: State, last: Option<Desc>, w: Win)
    requires ChainOk(s.next, s.head, s.won) && w.desc in s.next && s.next[w.desc].None? && !InChain(s.won, w.desc)
    requires last == if s.won == [] then None else Some(s.won[|s.won| - 1].desc)
    ensures var s' := SetLink(s, last, w.desc); ChainOk(s'.next, s'.head, s.won + [w])
  {
    var s', won' := SetLink(s, last, w.desc), s.won + [w];
    assert forall i :: 0 <= i < |s.won| ==> won'[i] == s.won[i] && s.won[i].desc != w.desc;
  }

  lemma KeepSwap(s: State, t: Tid)
    requires Inv(s) && t in s.threads && s.threads[t].pc.Swapping? && Link(s, s.threads[t].last).None?
    ensures Inv(DoSwap(s, t))
  {
    var th := s.threads[t];
    var w := Win(th.pc.mine, t);
    assert ThreadOk(s.next, s.won, t, th);
    assert w.desc in Owned(th);
    LinkIsNext(s, t);
    AppendKeepsChain(s, th.last, w);
    WinnerOk(s, t, th, w);
    var s' := DoSwap(s, t);
    assert th.last.Some? ==> InChain(s.won, th.last.value);
    assert SameOutside(s.next, s'.next, s.won);
    OtherThread(s.next, s'.next, s'.won, t, s'.threads[t]);
    SwapWon(s, DoSwap(s, t), t, w);
  }

  lemma WinnerOk(s: State, t: Tid, th: Thread, w: Win)
    requires ThreadOk(s.next, s.won, t, th) && th.pc == Swapping(w.desc) && w.winner == t && |th.calls| == |s.won|
    ensures ThreadOk(s.next, s.won + [w], t, th.(pc := Storing(Some(w.desc), true)))
  {
    forall d | d in th.privates ensures !InChain(s.won + [w], d) {
      assert d in Owned(th);
      NotAppended(s.won, w, d);
    }
  }

  /** Only links of the chain change. */
  predicate SameOutside(next: Memory, next': Memory, won: seq<Win>) {
    forall e :: e in next && !InChain(won, e) ==> e in next' && next'[e] == next[e]
  }

  lemma SwapOther(next: Memory, next': Memory, won: seq<Win>, w: Win, u: Tid, th: Thread)
    requires ThreadOk(next, won, u, th) && SameOutside(next, next', won) && w.winner != u && w.desc !in Owned(th)
    ensures ThreadOk(next', won + [w], u, th)
  {
    OtherWins(next, won, w, u, th);
    OtherThread(next, next', won + [w], u, th);
  }

  lemma SwapWon(s: State, s': State, t: Tid, w: Win)
    requires Inv(s) && t in s.threads && s.threads[t].pc == Swapping(w.desc) && w.winner == t
    requires SameOutside(s.next, s'.next, s.won) && s'.won == s.won + [w] && !s'.dangling
    requires s'.threads == s.threads[t := s.threads[t].(pc := Storing(Some(w.desc), true))]
    requires ChainOk(s'.next, s'.head, s'.won) && ThreadOk(s'.next, s'.won, t, s'.threads[t])
    ensures Inv(s')
  {
    forall u | u in s'.threads ensures ThreadOk(s'.next, s'.won, u, s'.threads[u]) {
      if u != t {
        assert ThreadOk(s.next, s.won, u, s.threads[u]);
        assert Apart(s.threads[t], s.threads[u]);
        SwapOther(s.next, s'.next, s.won, w, u, s.threads[u]);
      }
    }
    forall u, v | u in s'.threads && v in s'.threads && u != v ensures Apart(s'.threads[u], s'.threads[v]) {
      assert Apart(s.threads[u], s.threads[v]);
    }
  }

  lemma StepKeepsInv(s: State, a: Action)
    requires Inv(s) && Enabled(s, a)
    ensures Inv(Step(s, a))
  {
    match a
    case Begin(t, implicit, d) => KeepBegin(s, t, implicit, d);
    case Go(t, d) =>
      match s.threads[t].pc
      case Testing => KeepTest(s, t);
      case Loading => KeepLoad(s, t);
      case Allocating => KeepAllocate(s, t, d);
      case Swapping(_) => if Link(s, s.threads[t].last).None? { KeepSwap(s, t); } else { KeepFailedSwap(s, t); }
      case Reloading(_) => KeepReload(s, t);
      case Deleting(_, _) => KeepDelete(s, t);
      case Storing(_, _) => KeepStore(s, t);
  }

  // ----- Runs -----

  predicate Possible(s: State, actions: seq<Action>)
    decreases |actions|
  {
    actions == [] || (Enabled(s, actions[0]) && Possible(Step(s, actions[0]), actions[1..]))
  }

  function Run(s: State, actions: seq<Action>): State
    requires Possible(s, actions)
    decreases |actions|
  {
    if actions == [] then s else Run(Step(s, actions[0]), actions[1..])
  }

  lemma {:induction false} RunKeepsInv(s: State, actions: seq<Action>)
    requires Inv(s) && Possible(s, actions)
    ensures Inv(Run(s, actions))
    decreases |actions|
  {
    if actions != [] {
      StepKeepsInv(s, actions[0]);
      RunKeepsInv(Step(s, actions[0]), actions[1..]);
    }
  }

  lemma ReachableInv(team: map<Tid, bool>, actions: seq<Action>)
    requires Possible(Initial(team), actions)
    ensures Inv(Run(Initial(team), actions))
  {
    RunKeepsInv(Initial(team), actions);
  }

  // ----- What the callers see -----

  /** The k-th descriptor of the list, found by following the links in memory. */
  function Follow(s: State, k: nat): Option<Desc> {
    if k == 0 then s.head
    else match Follow(s, k - 1)
         case None => None
         case Some(d) => if d in s.next then s.next[d] else None
  }

  lemma {:induction false} FollowIsHistory(s: State, k: nat)
    requires ChainOk(s.next, s.head, s.won)
    ensures Follow(s, k) == if k < |s.won| then Some(s.won[k].desc) else None
  {
    if k > 0 { FollowIsHistory(s, k - 1); }
  }

  /** In every run the k-th call of every thread returned the k-th descriptor of the list. */
  lemma KthCallKthDescriptor(team: map<Tid, bool>, actions: seq<Action>, t: Tid, k: nat)
    requires Possible(Initial(team), actions)
    requires var s := Run(Initial(team), actions); t in s.threads && k < |s.threads[t].calls|
    ensures var s := Run(Initial(team), actions); s.threads[t].calls[k].result == Follow(s, k) && Follow(s, k).Some?
  {
    var s := Run(Initial(team), actions);
    ReachableInv(team, actions);
    assert ThreadOk(s.next, s.won, t, s.threads[t]);
    FollowIsHistory(s, k);
  }

  /** Of all callers of the k-th descriptor at most one is told that it created it ... */
  lemma OneCreator(team: map<Tid, bool>, actions: seq<Action>, t: Tid, u: Tid, k: nat)
    requires Possible(Initial(team), actions)
    requires var s := Run(Initial(team), actions);
      t in s.threads && u in s.threads && k < |s.threads[t].calls| && k < |s.threads[u].calls|
    ensures var s := Run(Initial(team), actions);
      s.threads[t].calls[k].created && s.threads[u].calls[k].created ==> t == u
  {
    var s := Run(Initial(team), actions);
    ReachableInv(team, actions);
    assert ThreadOk(s.next, s.won, t, s.threads[t]) && ThreadOk(s.next, s.won, u, s.threads[u]);
  }

  predicate AllReturned(s: State) {
    forall t :: t in s.threads ==> s.threads[t].pc.Idle? || s.threads[t].pc.Failed?
  }

  predicate CreatedBy(s: State, t: Tid, k: nat) {
    t in s.threads && k < |s.threads[t].calls| && s.threads[t].calls[k].created
  }

  /** The winner of every swap is a thread of the team. */
  predicate WinnersKnown(s: State) {
    forall k :: 0 <= k < |s.won| ==> s.won[k].winner in s.threads
  }

  lemma {:induction false} RunKnowsWinners(s: State, actions: seq<Action>)
    requires WinnersKnown(s) && Possible(s, actions)
    ensures WinnersKnown(Run(s, actions))
    decreases |actions|
  {
    if actions != [] { RunKnowsWinners(Step(s, actions[0]), actions[1..]); }
  }

  /** ... and once no call is in progress, exactly one was told so, for every descriptor of the list. */
  lemma EveryDescriptorHasCreator(team: map<Tid, bool>, actions: seq<Action>, k: nat) returns (t: Tid)
    requires Possible(Initial(team), actions)
    requires AllReturned(Run(Initial(team), actions)) && Follow(Run(Initial(team), actions), k).Some?
    ensures var s := Run(Initial(team), actions);
      CreatedBy(s, t, k) && forall u :: CreatedBy(s, u, k) ==> u == t
  {
    var s := Run(Initial(team), actions);
    ReachableInv(team, actions);
    RunKnowsWinners(Initial(team), actions);
    FollowIsHistory(s, k);
    t := s.won[k].winner;
    assert ThreadOk(s.next, s.won, t, s.threads[t]);
    forall u | CreatedBy(s, u, k) ensures u == t { assert ThreadOk(s.next, s.won, u, s.threads[u]); }
  }

  /** No access ever went through a deleted descriptor, and every descriptor of the list is allocated. */
  lemma NothingDangles(team: map<Tid, bool>, actions: seq<Action>, k: nat)
    requires Possible(Initial(team), actions)
    ensures var s := Run(Initial(team), actions);
      !s.dangling && (Follow(s, k).Some? ==> Follow(s, k).value in s.next)
  {
    ReachableInv(team, actions);
    FollowIsHistory(Run(Initial(team), actions), k);
  }

  /** The descriptor of a failed swap is not in the list when it is deleted, nor is a private one ever. */
  lemma OwnedIsUnreachable(team: map<Tid, bool>, actions: seq<Action>, t: Tid, d: Desc, k: nat)
    requires Possible(Initial(team), actions)
    requires var s := Run(Initial(team), actions);
      t in s.threads && (d in s.threads[t].privates || s.threads[t].pc == Reloading(d)
                         || (s.threads[t].pc.Deleting? && s.threads[t].pc.mine == d))
    ensures Follow(Run(Initial(team), actions), k) != Some(d)
  {
    var s := Run(Initial(team), actions);
    ReachableInv(team, actions);
    FollowIsHistory(s, k);
    assert ThreadOk(s.next, s.won, t, s.threads[t]) && d in Owned(s.threads[t]);
  }

  /** The list only grows: what was the k-th descriptor stays the k-th descriptor. */
  lemma ListOnlyGrows(s: State, a: Action, k: nat)
    requires Inv(s) && Enabled(s, a) && Follow(s, k).Some?
    ensures Follow(Step(s, a), k) == Follow(s, k)
  {
    StepKeepsInv(s, a);
    FollowIsHistory(s, k);
    FollowIsHistory(Step(s, a), k);
  }

  /** How many steps of its own a thread is away from the end of the call. */
  function StepsLeft(pc: Pc): nat {
    match pc
    case Testing => 6
    case Loading => 2
    case Allocating => 5
    case Swapping(_) => 4
    case Reloading(_) => 3
    case Deleting(_, _) => 2
    case Storing(_, _) => 1
    case _ => 0
  }

  /** Every call ends within six steps of its own thread, whatever the other threads do. */
  lemma CallIsBounded(s: State, a: Action, t: Tid)
    requires Enabled(s, a) && t in s.threads
    ensures t in Step(s, a).threads
    ensures a.Go? && a.t == t ==> StepsLeft(Step(s, a).threads[t].pc) < StepsLeft(s.threads[t].pc)
    ensures a.t != t ==> Step(s, a).threads[t] == s.threads[t]
  {
  }

  /** A thread without a team fails in its first call and never returns a descriptor. */
  lemma NoTeamFails(team: map<Tid, bool>, actions: seq<Action>, t: Tid)
    requires Possible(Initial(team), actions)
    requires var s := Run(Initial(team), actions); t in s.threads && !s.threads[t].hasTeam
    ensures var s := Run(Initial(team), actions);
      && s.threads[t].calls == [] && s.threads[t].privates == []
      && (s.threads[t].pc.Idle? || s.threads[t].pc.Testing? || s.threads[t].pc.Failed?)
  {
    var s := Run(Initial(team), actions);
    ReachableInv(team, actions);
    assert ThreadOk(s.next, s.won, t, s.threads[t]);
  }

  // ----- Every call is accounted for -----

  /** How often `t` called from implicit work, or from other work. */
  function Begins(actions: seq<Action>, t: Tid, implicit: bool): nat {
    if actions == [] then 0
    else
      var first := actions[0].Begin? && actions[0].t == t && actions[0].implicit == implicit;
      Begins(actions[1..], t, implicit) + if first then 1 else 0
  }

  /** The call of `t` is not over: in progress, or ended by the fatal error. */
  function Open(th: Thread): nat {
    if th.pc.Idle? then 0 else 1
  }

  /** What one step adds to the completed calls of a thread. */
  lemma CountedStep(s: State, a: Action, t: Tid)
    requires Enabled(s, a) && t in s.threads && (s.threads[t].hasTeam ==> !s.threads[t].pc.Failed?)
    ensures t in Step(s, a).threads && Step(s, a).threads[t].hasTeam == s.threads[t].hasTeam
    ensures var th, th' := s.threads[t], Step(s, a).threads[t];
      && (th.hasTeam ==>
            && !th'.pc.Failed?
            && |th'.calls| + Open(th') == |th.calls| + Open(th) + Begins([a], t, true)
            && |th'.privates| == |th.privates| + Begins([a], t, false))
  {
    assert [a][1..] == [];
    if a.t == t && a.Go? { OwnStep(s, a.t, a.d); }
  }

  lemma OwnStep(s: State, t: Tid, d: Desc)
    requires Enabled(s, Go(t, d))
    ensures var th, th' := s.threads[t], Step(s, Go(t, d)).threads[t];
      && th'.hasTeam == th.hasTeam && th'.privates == th.privates
      && (th.hasTeam ==> !th'.pc.Failed?) && |th'.calls| + Open(th') == |th.calls| + 1
  {
    match s.threads[t].pc
    case Testing =>
    case Loading =>
    case Allocating =>
    case Swapping(_) =>
    case Reloading(_) =>
    case Deleting(_, _) =>
    case Storing(_, _) =>
  }

  lemma {:induction false} CountedRun(s: State, actions: seq<Action>, t: Tid)
    requires Possible(s, actions) && t in s.threads && s.threads[t].hasTeam && !s.threads[t].pc.Failed?
    ensures t in Run(s, actions).threads
    ensures var th, th' := s.threads[t], Run(s, actions).threads[t];
      && th'.hasTeam && !th'.pc.Failed?
      && |th'.calls| + Open(th') == |th.calls| + Open(th) + Begins(actions, t, true)
      && |th'.privates| == |th.privates| + Begins(actions, t, false)
    decreases |actions|
  {
    if actions != [] {
      assert [actions[0]][1..] == [];
      CountedStep(s, actions[0], t);
      CountedRun(Step(s, actions[0]), actions[1..], t);
    }
  }

  /** A thread of a team, in every run: it never fails, every call from implicit work gave it a descriptor of the list
      or is still in progress, and every call from other work gave it a descriptor of its own. */
  lemma EveryCallAnswered(team: map<Tid, bool>, actions: seq<Action>, t: Tid)
    requires Possible(Initial(team), actions) && t in team && team[t]
    ensures var s := Run(Initial(team), actions);
      && t in s.threads && !s.threads[t].pc.Failed?
      && Begins(actions, t, true) == |s.threads[t].calls| + (if s.threads[t].pc.Idle? then 0 else 1)
      && Begins(actions, t, false) == |s.threads[t].privates|
  {
    CountedRun(Initial(team), actions, t);
  }

  lemma {:induction false} TeamlessRun(s: State, actions: seq<Action>, t: Tid)
    requires Possible(s, actions) && t in s.threads && !s.threads[t].hasTeam && s.threads[t].last.None?
    requires s.threads[t].pc.Idle? || s.threads[t].pc.Testing? || s.threads[t].pc.Failed?
    ensures t in Run(s, actions).threads
    ensures var th, th' := s.threads[t], Run(s, actions).threads[t];
      Open(th') == Open(th) + Begins(actions, t, true) + Begins(actions, t, false)
    decreases |actions|
  {
    if actions != [] {
      TeamlessStep(s, actions[0], t);
      TeamlessRun(Step(s, actions[0]), actions[1..], t);
    }
  }

  lemma TeamlessStep(s: State, a: Action, t: Tid)
    requires Enabled(s, a) && t in s.threads && !s.threads[t].hasTeam && s.threads[t].last.None?
    requires s.threads[t].pc.Idle? || s.threads[t].pc.Testing? || s.threads[t].pc.Failed?
    ensures t in Step(s, a).threads
    ensures var th, th' := s.threads[t], Step(s, a).threads[t];
      && !th'.hasTeam && th'.last.None? && (th'.pc.Idle? || th'.pc.Testing? || th'.pc.Failed?)
      && Open(th') == Open(th) + if a.Begin? && a.t == t then 1 else 0
  {
  }

  /** A thread without a team calls at most once, and that call fails or is about to. */
  lemma TeamlessCallFails(team: map<Tid, bool>, actions: seq<Action>, t: Tid)
    requires Possible(Initial(team), actions) && t in team && !team[t]
    ensures var s := Run(Initial(team), actions);
      && t in s.threads
      && Begins(actions, t, true) + Begins(actions, t, false) == (if s.threads[t].pc.Idle? then 0 else 1)
      && (Begins(actions, t, false) == 1 ==> s.threads[t].pc.Failed?)
  {
    TeamlessRun(Initial(team), actions, t);
    PrivateCallFails(Initial(team), actions, t);
  }

  lemma {:induction false} PrivateCallFails(s: State, actions: seq<Action>, t: Tid)
    requires Possible(s, actions) && t in s.threads && !s.threads[t].hasTeam && s.threads[t].last.None?
    requires s.threads[t].pc.Idle? || s.threads[t].pc.Testing? || s.threads[t].pc.Failed?
    ensures t in Run(s, actions).threads
    ensures Begins(actions, t, false) > 0 || s.threads[t].pc.Failed? ==> Run(s, actions).threads[t].pc.Failed?
    decreases |actions|
  {
    if actions != [] {
      TeamlessStep(s, actions[0], t);
      PrivateStepFails(s, actions[0], t);
      PrivateCallFails(Step(s, actions[0]), actions[1..], t);
    }
  }

  lemma PrivateStepFails(s: State, a: Action, t: Tid)
    requires Enabled(s, a) && t in s.threads && !s.threads[t].hasTeam && s.threads[t].last.None?
    ensures s.threads[t].pc.Failed? || (a.Begin? && a.t == t && !a.implicit) ==> Step(s, a).threads[t].pc.Failed?
  {
  }
}
