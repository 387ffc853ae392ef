/**
 * The queue of multithread/thread_safe_queue.h, with a lock for each end, for any number of
 * threads and step by step: a push may be half done while pops run. Nodes are never freed, so
 * the i-th node ever allocated is called i; node 0 is the one the constructor makes. A field of
 * a node that has not been written is `Unset`, respectively `NoLink`.
 */
module TwoLockQueue {
  import opened Counting

  datatype Datum<V> = Unset | Val(value: V)
  datatype Found<V> = Nothing | Something(data: Datum<V>)
  datatype Link = NoLink | To(node: nat)
  datatype Node<V> = Node(data: Datum<V>, next: Link)
  datatype Owner = Free | Held(tid: nat)

  /** The three ways to take an element, which differ in what they do when they find none. */
  datatype Kind = Pop | TryPop | WaitAndPop

  datatype Pc<V> =
    | Idle
    | PushLock(value: V) | PushLink(value: V) | PushData(value: V) | PushAdvance(value: V) | PushNotify | PushUnlock
    | PopLock(kind: Kind) | TailLock(kind: Kind) | TailRead(kind: Kind) | TailUnlock(kind: Kind, snapshot: nat)
    | Compare(kind: Kind, snapshot: nat) | ReadData(kind: Kind, snapshot: nat)
    | ReadNext(kind: Kind, snapshot: nat, data: Datum<V>) | PopUnlock(kind: Kind, found: Found<V>)
    | Asleep
    | EmptyLockHead | EmptyLockTail | EmptyRead | EmptyUnlockTail(answer: bool, snapshot: nat)
    | EmptyUnlockHead(answer: bool, snapshot: nat)

  datatype Return<V> = Return(tid: nat, kind: Kind, found: Found<V>)

  datatype Shared<V> = Shared(
    nodes: seq<Node<V>>,
    head: nat,                 // head_node_
    tail: nat,                 // tail_node_
    headMtx: Owner,
    tailMtx: Owner,
    pushed: seq<V>,            // values added to the queue, in order
    pushers: seq<nat>,         // the threads that added them
    popped: seq<Datum<V>>,     // what was taken from the queue, in order
    poppers: seq<nat>,         // the threads that took it
    returned: seq<Return<V>>,  // the calls of pop, try_pop and wait_and_pop that have returned
    answers: seq<(nat, bool)>, // the calls of empty that have returned, with their answers
    faults: nat)               // reads of a link that was never written

  datatype State<V> = State(sh: Shared<V>, pc: map<nat, Pc<V>>)

  datatype Action<V> =
    | CallPush(value: V) | CallPop(kind: Kind) | CallEmpty
    | Go(wakes: nat)
    | WakeSpuriously

  datatype Event<V> = Event(tid: nat, action: Action<V>)

  function Init<V>(threads: set<nat>): State<V> {
    State(Shared([Node(Unset, NoLink)], 0, 0, Free, Free, [], [], [], [], [], [], 0), map t | t in threads :: Idle)
  }

  predicate Pushing<V>(pc: Pc<V>) {
    pc.PushLock? || pc.PushLink? || pc.PushData? || pc.PushAdvance? || pc.PushNotify? || pc.PushUnlock?
  }

  /** push, lines 27-34. */
  function PushStep<V>(sh: Shared<V>, t: nat, pc: Pc<V>): (Shared<V>, Pc<V>)
    requires Pushing(pc)
  {
    match pc
    case PushLock(v) => if sh.tailMtx == Free then (sh.(tailMtx := Held(t)), PushLink(v)) else (sh, pc)
    case PushLink(v) =>
      if sh.tail < |sh.nodes| then
        (sh.(nodes := sh.nodes[sh.tail := sh.nodes[sh.tail].(next := To(|sh.nodes|))] + [Node(Unset, NoLink)]), PushData(v))
      else (sh.(faults := sh.faults + 1), pc)
    case PushData(v) =>
      if sh.tail < |sh.nodes| && sh.nodes[sh.tail].next.To? && sh.nodes[sh.tail].next.node < |sh.nodes| then
        var n := sh.nodes[sh.tail].next.node;
        (sh.(nodes := sh.nodes[n := sh.nodes[n].(data := Val(v))]), PushAdvance(v))
      else (sh.(faults := sh.faults + 1), pc)
    case PushAdvance(v) =>
      if sh.tail < |sh.nodes| && sh.nodes[sh.tail].next.To? then
        (sh.(tail := sh.nodes[sh.tail].next.node, pushed := sh.pushed + [v], pushers := sh.pushers + [t]), PushNotify)
      else (sh.(faults := sh.faults + 1), pc)
    case PushNotify => (sh, PushUnlock)
    case PushUnlock => (sh.(tailMtx := Free), Idle)
  }

  predicate Popping<V>(pc: Pc<V>) {
    || pc.PopLock? || pc.TailLock? || pc.TailRead? || pc.TailUnlock? || pc.Compare? || pc.ReadData?
    || pc.ReadNext? || pc.PopUnlock?
  }

  /** pop, try_pop, wait_and_pop and get_tail, lines 42-75. */
  function PopStep<V>(sh: Shared<V>, t: nat, pc: Pc<V>): (Shared<V>, Pc<V>)
    requires Popping(pc)
  {
    match pc
    case PopLock(k) => if sh.headMtx == Free then (sh.(headMtx := Held(t)), TailLock(k)) else (sh, pc)
    case TailLock(k) => if sh.tailMtx == Free then (sh.(tailMtx := Held(t)), TailRead(k)) else (sh, pc)
    case TailRead(k) => (sh, TailUnlock(k, sh.tail))
    case TailUnlock(k, n) => (sh.(tailMtx := Free), Compare(k, n))
    case Compare(k, n) =>
      if sh.head != n then (sh, ReadData(k, n))
      else if k == WaitAndPop then (sh.(headMtx := Free), Asleep)
      else (sh, PopUnlock(k, Nothing))
    case ReadData(k, n) =>
      if sh.head < |sh.nodes| then (sh, ReadNext(k, n, sh.nodes[sh.head].data)) else (sh.(faults := sh.faults + 1), pc)
    case ReadNext(k, n, d) =>
      if sh.head < |sh.nodes| && sh.nodes[sh.head].next.To? then
        (sh.(head := sh.nodes[sh.head].next.node, popped := sh.popped + [d], poppers := sh.poppers + [t]),
         PopUnlock(k, Something(d)))
      else (sh.(faults := sh.faults + 1), pc)
    case PopUnlock(k, f) => (sh.(headMtx := Free, returned := sh.returned + [Return(t, k, f)]), Idle)
  }

  /** empty, lines 36-40. */
  function EmptyStep<V>(sh: Shared<V>, t: nat, pc: Pc<V>): (Shared<V>, Pc<V>) {
    match pc
    case EmptyLockHead => if sh.headMtx == Free then (sh.(headMtx := Held(t)), EmptyLockTail) else (sh, pc)
    case EmptyLockTail => if sh.tailMtx == Free then (sh.(tailMtx := Held(t)), EmptyRead) else (sh, pc)
    case EmptyRead => (sh, EmptyUnlockTail(sh.head == sh.tail, sh.tail))
    case EmptyUnlockTail(b, n) => (sh.(tailMtx := Free), EmptyUnlockHead(b, n))
    case EmptyUnlockHead(b, _) => (sh.(headMtx := Free, answers := sh.answers + [(t, b)]), Idle)
    case _ => (sh, pc)
  }

  function Step<V>(sh: Shared<V>, t: nat, pc: Pc<V>, act: Action<V>): (Shared<V>, Pc<V>) {
    match act
    case CallPush(v) => (sh, if pc.Idle? then PushLock(v) else pc)
    case CallPop(k) => (sh, if pc.Idle? then PopLock(k) else pc)
    case CallEmpty => (sh, if pc.Idle? then EmptyLockHead else pc)
    case WakeSpuriously => (sh, if pc.Asleep? then PopLock(WaitAndPop) else pc)
    case Go(_) =>
      if Pushing(pc) then PushStep(sh, t, pc) else if Popping(pc) then PopStep(sh, t, pc) else EmptyStep(sh, t, pc)
  }

  /** cv_.notify_one(): wakes a sleeper when there is one. */
  function Notify<V>(pc: map<nat, Pc<V>>, w: nat): map<nat, Pc<V>> {
    if w in pc && pc[w].Asleep? then pc[w := PopLock(WaitAndPop)] else pc
  }

  predicate CanNotify<V>(pc: map<nat, Pc<V>>, w: nat) {
    (w in pc && pc[w].Asleep?) || (forall t :: t in pc ==> !pc[t].Asleep?)
  }

  function Exec<V>(s: State<V>, e: Event<V>): State<V> {
    if e.tid !in s.pc then s
    else if s.pc[e.tid].PushNotify? && e.action.Go? && !CanNotify(s.pc, e.action.wakes) then s
    else
      var (sh, pc) := Step(s.sh, e.tid, s.pc[e.tid], e.action);
      var pcs := if s.pc[e.tid].PushNotify? && e.action.Go? then Notify(s.pc, e.action.wakes) else s.pc;
      State(sh, pcs[e.tid := pc])
  }

  function Run<V>(s: State<V>, es: seq<Event<V>>): State<V> {
    if es == [] then s else Exec(Run(s, es[..|es| - 1]), es[|es| - 1])
  }

  // ----- the invariant: a shared part and a part per thread -----

  predicate HasHead<V>(pc: Pc<V>) {
    match pc
    case TailLock(_) => true case TailRead(_) => true case TailUnlock(_, _) => true case Compare(_, _) => true
    case ReadData(_, _) => true case ReadNext(_, _, _) => true case PopUnlock(_, _) => true
    case EmptyLockTail => true case EmptyRead => true case EmptyUnlockTail(_, _) => true case EmptyUnlockHead(_, _) => true
    case _ => false
  }

  predicate HasTail<V>(pc: Pc<V>) {
    match pc
    case PushLink(_) => true case PushData(_) => true case PushAdvance(_) => true case PushNotify => true
    case PushUnlock => true
    case TailRead(_) => true case TailUnlock(_, _) => true
    case EmptyRead => true case EmptyUnlockTail(_, _) => true
    case _ => false
  }

  /** The fields of the nodes that a complete queue has: links up to the tail, data after node 0. */
  ghost predicate SharedOk<V>(sh: Shared<V>) {
    && sh.faults == 0
    && sh.head <= sh.tail < |sh.nodes|
    && (sh.tailMtx == Free ==> |sh.nodes| == sh.tail + 1)
    && |sh.pushed| == |sh.pushers| == sh.tail && |sh.popped| == |sh.poppers| == sh.head
    && (forall i :: 0 <= i < sh.tail ==> sh.nodes[i].next == To(i + 1))
    && (forall i :: 0 <= i <= sh.tail ==> sh.nodes[i].data == Shifted(sh.pushed, i))
    && (forall i :: 0 <= i < sh.head ==> sh.popped[i] == Shifted(sh.pushed, i))
  }

  /** The k-th datum in the queue's order of output: the constructor's, then the pushed values. */
  function Shifted<V>(pushed: seq<V>, k: nat): Datum<V>
    requires k <= |pushed|
  {
    if k == 0 then Unset else Val(pushed[k - 1])
  }

  ghost predicate LocalOk<V>(sh: Shared<V>, t: nat, pc: Pc<V>)
    requires SharedOk(sh)
  {
    && (HasHead(pc) <==> sh.headMtx == Held(t))
    && (HasTail(pc) <==> sh.tailMtx == Held(t))
    && (HasTail(pc) ==> |sh.nodes| == sh.tail + (if pc.PushData? || pc.PushAdvance? then 2 else 1))
    && (pc.PushData? || pc.PushAdvance? ==> sh.nodes[sh.tail].next == To(sh.tail + 1))
    && (pc.PushAdvance? ==> sh.nodes[sh.tail + 1].data == Val(pc.value))
    && (pc.TailUnlock? || pc.Compare? ==> sh.head <= pc.snapshot <= sh.tail)
    && (pc.ReadData? || pc.ReadNext? ==> sh.head < pc.snapshot <= sh.tail)
    && (pc.ReadNext? ==> pc.data == sh.nodes[sh.head].data)
    && (pc.EmptyUnlockTail? || pc.EmptyUnlockHead? ==> (pc.answer <==> pc.snapshot == sh.head))
    && (pc.PopUnlock? && pc.found.Nothing? ==> pc.kind != WaitAndPop)
  }

  ghost predicate Inv<V>(s: State<V>) {
    SharedOk(s.sh) && forall t :: t in s.pc ==> LocalOk(s.sh, t, s.pc[t])
  }

  ghost predicate GoodStep<V>(sh: Shared<V>, t: nat, r: (Shared<V>, Pc<V>)) {
    && SharedOk(r.0) && LocalOk(r.0, t, r.1)
  }

  lemma PushKeepsShared<V>(sh: Shared<V>, t: nat, pc: Pc<V>)
    requires SharedOk(sh) && LocalOk(sh, t, pc) && Pushing(pc)
    ensures GoodStep(sh, t, PushStep(sh, t, pc))
  {
  }

  lemma ReadNextKeepsShared<V>(sh: Shared<V>, t: nat, pc: Pc<V>)
    requires SharedOk(sh) && LocalOk(sh, t, pc) && pc.ReadNext?
    ensures GoodStep(sh, t, PopStep(sh, t, pc))
  {
  }

  lemma TailKeepsShared<V>(sh: Shared<V>, t: nat, pc: Pc<V>)
    requires SharedOk(sh) && LocalOk(sh, t, pc) && (pc.TailLock? || pc.TailRead? || pc.TailUnlock?)
    ensures GoodStep(sh, t, PopStep(sh, t, pc))
  {
  }

  lemma LockKeepsShared<V>(sh: Shared<V>, t: nat, pc: Pc<V>)
    requires SharedOk(sh) && LocalOk(sh, t, pc) && (pc.PopLock? || pc.PopUnlock? || pc.Compare? || pc.ReadData?)
    ensures GoodStep(sh, t, PopStep(sh, t, pc))
  {
  }

  lemma PopKeepsShared<V>(sh: Shared<V>, t: nat, pc: Pc<V>)
    requires SharedOk(sh) && LocalOk(sh, t, pc) && Popping(pc)
    ensures GoodStep(sh, t, PopStep(sh, t, pc))
  {
    hide SharedOk, LocalOk, PopStep;
    if pc.ReadNext? {
      ReadNextKeepsShared(sh, t, pc);
    } else if pc.TailLock? || pc.TailRead? || pc.TailUnlock? {
      TailKeepsShared(sh, t, pc);
    } else {
      LockKeepsShared(sh, t, pc);
    }
  }

  lemma StepKeepsShared<V>(sh: Shared<V>, t: nat, pc: Pc<V>, act: Action<V>)
    requires SharedOk(sh) && LocalOk(sh, t, pc)
    ensures GoodStep(sh, t, Step(sh, t, pc, act))
  {
    if act.Go? && Pushing(pc) {
      hide SharedOk, LocalOk;
      PushKeepsShared(sh, t, pc);
    } else if act.Go? && Popping(pc) {
      hide SharedOk, LocalOk;
      PopKeepsShared(sh, t, pc);
    } else if act.Go? {
      hide SharedOk, LocalOk;
      EmptyKeepsShared(sh, t, pc);
    }
  }

  lemma EmptyKeepsShared<V>(sh: Shared<V>, t: nat, pc: Pc<V>)
    requires SharedOk(sh) && LocalOk(sh, t, pc) && !Pushing(pc) && !Popping(pc)
    ensures GoodStep(sh, t, EmptyStep(sh, t, pc))
  {
  }

  lemma PushKeepsOther<V>(sh: Shared<V>, t: nat, pc: Pc<V>, u: nat, other: Pc<V>)
    requires SharedOk(sh) && LocalOk(sh, t, pc) && LocalOk(sh, u, other) && t != u && Pushing(pc)
    requires SharedOk(PushStep(sh, t, pc).0)
    ensures LocalOk(PushStep(sh, t, pc).0, u, other)
  {
  }

  lemma PopKeepsOther<V>(sh: Shared<V>, t: nat, pc: Pc<V>, u: nat, other: Pc<V>)
    requires SharedOk(sh) && LocalOk(sh, t, pc) && LocalOk(sh, u, other) && t != u && Popping(pc)
    requires SharedOk(PopStep(sh, t, pc).0)
    ensures LocalOk(PopStep(sh, t, pc).0, u, other)
  {
  }

  lemma StepKeepsOther<V>(sh: Shared<V>, t: nat, pc: Pc<V>, act: Action<V>, u: nat, other: Pc<V>)
    requires SharedOk(sh) && LocalOk(sh, t, pc) && LocalOk(sh, u, other) && t != u
    requires SharedOk(Step(sh, t, pc, act).0)
    ensures LocalOk(Step(sh, t, pc, act).0, u, other)
  {
    if act.Go? && Pushing(pc) {
      PushKeepsOther(sh, t, pc, u, other);
    } else if act.Go? && Popping(pc) {
      PopKeepsOther(sh, t, pc, u, other);
    }
  }

  lemma ExecKeepsInv<V>(s: State<V>, e: Event<V>)
    requires Inv(s)
    ensures Inv(Exec(s, e))
  {
    if e.tid in s.pc {
      var s' := Exec(s, e);
      StepKeepsShared(s.sh, e.tid, s.pc[e.tid], e.action);
      forall u | u in s.pc && u != e.tid ensures SharedOk(s'.sh) && LocalOk(s'.sh, u, s'.pc[u]) {
        StepKeepsOther(s.sh, e.tid, s.pc[e.tid], e.action, u, s.pc[u]);
      }
    }
  }

  // ----- theorems about every run -----

  lemma {:induction false} RunKeepsInv<V>(threads: set<nat>, es: seq<Event<V>>)
    ensures Inv(Run(Init<V>(threads), es))
  {
    if es != [] {
      RunKeepsInv(threads, es[..|es| - 1]);
      ExecKeepsInv(Run(Init<V>(threads), es[..|es| - 1]), es[|es| - 1]);
    }
  }

  /**
   * The queue is first-in first-out, one step late: the first pop returns the constructor's node,
   * whose data was never written, and pop k the value of push k - 1. Pops never pass pushes, so
   * the last value pushed is always still inside.
   */
  lemma ShiftedFifo<V>(threads: set<nat>, es: seq<Event<V>>)
    ensures var sh := Run(Init<V>(threads), es).sh;
      && |sh.popped| <= |sh.pushed|
      && (forall k :: 0 <= k < |sh.popped| ==> sh.popped[k] == Shifted(sh.pushed, k))
      && sh.faults == 0
  {
    RunKeepsInv(threads, es);
  }

  /** A pop returns what a first-in first-out queue would only where two neighbours are equal. */
  lemma FifoIff<V>(threads: set<nat>, es: seq<Event<V>>, k: nat)
    requires k < |Run(Init<V>(threads), es).sh.popped|
    ensures var sh := Run(Init<V>(threads), es).sh;
      && k < |sh.pushed|
      && (sh.popped[k] == Val(sh.pushed[k]) <==> k > 0 && sh.pushed[k - 1] == sh.pushed[k])
  {
    RunKeepsInv(threads, es);
  }

  /** What lies between the two ends, in order: the next values to come out. */
  lemma Contents<V>(threads: set<nat>, es: seq<Event<V>>, i: nat)
    requires var sh := Run(Init<V>(threads), es).sh; sh.head <= i <= sh.tail
    ensures var sh := Run(Init<V>(threads), es).sh;
      && |sh.popped| == sh.head && |sh.pushed| == sh.tail
      && i < |sh.nodes| && sh.nodes[i].data == Shifted(sh.pushed, i)
      && (i < sh.tail ==> sh.nodes[i].next == To(i + 1))
  {
    RunKeepsInv(threads, es);
  }

  // ----- no data race -----

  datatype Location = HeadPointer | TailPointer | NextOf(node: nat) | DataOf(node: nat)

  function Reads<V>(sh: Shared<V>, pc: Pc<V>): set<Location> {
    match pc
    case PushLink(_) => {TailPointer}
    case PushData(_) => {TailPointer, NextOf(sh.tail)}
    case PushAdvance(_) => {TailPointer, NextOf(sh.tail)}
    case TailRead(_) => {TailPointer}
    case Compare(_, _) => {HeadPointer}
    case ReadData(_, _) => {HeadPointer, DataOf(sh.head)}
    case ReadNext(_, _, _) => {HeadPointer, NextOf(sh.head)}
    case EmptyRead => {HeadPointer, TailPointer}
    case _ => {}
  }

  function Writes<V>(sh: Shared<V>, pc: Pc<V>): set<Location> {
    match pc
    case PushLink(_) => {NextOf(sh.tail)}
    case PushData(_) =>
      if sh.tail < |sh.nodes| && sh.nodes[sh.tail].next.To? then {DataOf(sh.nodes[sh.tail].next.node)} else {}
    case PushAdvance(_) => {TailPointer}
    case ReadNext(_, _, _) => {HeadPointer}
    case _ => {}
  }

  /**
   * No two threads are ever about to touch one location with one of them writing it, although a
   * pop reads node fields with only the head lock held and a push writes them with only the
   * tail lock: the head stays strictly below the snapshot of the tail.
   */
  lemma DataRaceFree<V>(threads: set<nat>, es: seq<Event<V>>, t: nat, u: nat)
    requires var s := Run(Init<V>(threads), es); t in s.pc && u in s.pc && t != u
    ensures var s := Run(Init<V>(threads), es);
      Writes(s.sh, s.pc[t]) !! Reads(s.sh, s.pc[u]) + Writes(s.sh, s.pc[u])
  {
    RunKeepsInv(threads, es);
    var s := Run(Init<V>(threads), es);
    ApartAtWork(s.sh, t, s.pc[t], u, s.pc[u]);
  }

  lemma ApartAtWork<V>(sh: Shared<V>, t: nat, p: Pc<V>, u: nat, q: Pc<V>)
    requires SharedOk(sh) && LocalOk(sh, t, p) && LocalOk(sh, u, q) && t != u
    ensures Writes(sh, p) !! Reads(sh, q) + Writes(sh, q)
  {
  }

  /** The locks are taken head before tail, so an owner of the tail lock is never blocked. */
  lemma TailOwnerCanMove<V>(threads: set<nat>, es: seq<Event<V>>, t: nat, w: nat)
    requires var s := Run(Init<V>(threads), es); t in s.pc && s.sh.tailMtx == Held(t) && CanNotify(s.pc, w)
    ensures var s := Run(Init<V>(threads), es); Exec(s, Event(t, Go(w))).pc[t] != s.pc[t]
  {
    RunKeepsInv(threads, es);
  }

  lemma HeadOwnerCanMove<V>(threads: set<nat>, es: seq<Event<V>>, t: nat, w: nat)
    requires var s := Run(Init<V>(threads), es); t in s.pc && s.sh.headMtx == Held(t) && s.sh.tailMtx == Free
    ensures var s := Run(Init<V>(threads), es); Exec(s, Event(t, Go(w))).pc[t] != s.pc[t]
  {
    RunKeepsInv(threads, es);
  }

  /** While a thread holds the head lock nobody else moves the head, and the tail never goes back. */
  lemma HeadStandsStill<V>(threads: set<nat>, es: seq<Event<V>>, t: nat, e: Event<V>)
    requires var s := Run(Init<V>(threads), es); t in s.pc && s.sh.headMtx == Held(t) && e.tid != t
    ensures var s := Run(Init<V>(threads), es); var s' := Exec(s, e);
      && s'.sh.head == s.sh.head && s'.sh.popped == s.sh.popped && s'.sh.headMtx == Held(t)
      && s.sh.tail <= s'.sh.tail
  {
    RunKeepsInv(threads, es);
    var s := Run(Init<V>(threads), es);
    if e.tid in s.pc {
      assert LocalOk(s.sh, e.tid, s.pc[e.tid]);
    }
  }

  // ----- empty answers -----

  /** At the j-th state t read the tail, found it at `tail` with the head at `head`, and has had the head lock since. */
  ghost predicate TailReadAt<V>(s0: State<V>, es: seq<Event<V>>, t: nat, head: nat, tail: nat, j: nat) {
    && j <= |es|
    && (var s := Run(s0, es[..j]);
        t in s.pc && (s.pc[t].TailRead? || s.pc[t].EmptyRead?) && s.sh.head == head && s.sh.tail == tail)
    && (forall i :: j <= i <= |es| ==> Run(s0, es[..i]).sh.headMtx == Held(t))
  }

  lemma TailReadExtends<V>(s0: State<V>, es: seq<Event<V>>, t: nat, head: nat, tail: nat, j: nat)
    requires es != [] && TailReadAt(s0, es[..|es| - 1], t, head, tail, j) && Run(s0, es).sh.headMtx == Held(t)
    ensures TailReadAt(s0, es, t, head, tail, j)
  {
    var front := es[..|es| - 1];
    assert es[..|es|] == es;
    forall i | 0 <= i <= |front| ensures es[..i] == front[..i] {
    }
  }

  /** What t remembers of the tail it has read, with the head as it is. */
  function Remembers<V>(sh: Shared<V>, pc: Pc<V>, tail: nat): bool {
    match pc
    case TailUnlock(_, n) => tail == n
    case Compare(_, n) => tail == n
    case PopUnlock(_, found) => found == Nothing && tail == sh.head
    case EmptyUnlockTail(_, n) => tail == n
    case EmptyUnlockHead(_, n) => tail == n
    case _ => false
  }

  lemma RemembersStep<V>(s: State<V>, e: Event<V>, t: nat, tail: nat)
    requires Inv(s) && t in s.pc && Remembers(Exec(s, e).sh, Exec(s, e).pc[t], tail)
    ensures Exec(s, e).sh.head == s.sh.head && Exec(s, e).sh.headMtx == Held(t) == s.sh.headMtx
    ensures Remembers(s.sh, s.pc[t], tail)
      || (s.sh.tail == tail && (s.pc[t].TailRead? || s.pc[t].EmptyRead?))
  {
    if e.tid == t {
      OwnRemembers(s.sh, t, s.pc[t], e.action, tail);
    } else if e.tid in s.pc {
      OthersLeaveHead(s.sh, e.tid, s.pc[e.tid], e.action, t, s.pc[t]);
      assert Exec(s, e).pc[t] == s.pc[t];
    }
  }

  lemma OwnRemembers<V>(sh: Shared<V>, t: nat, pc: Pc<V>, act: Action<V>, tail: nat)
    requires SharedOk(sh) && LocalOk(sh, t, pc)
    requires var (sh', pc') := Step(sh, t, pc, act); Remembers(sh', pc', tail)
    ensures var sh' := Step(sh, t, pc, act).0; sh'.head == sh.head && sh'.headMtx == Held(t) == sh.headMtx
    ensures Remembers(sh, pc, tail) || (sh.tail == tail && (pc.TailRead? || pc.EmptyRead?))
  {
  }

  lemma OthersLeaveHead<V>(sh: Shared<V>, u: nat, other: Pc<V>, act: Action<V>, t: nat, pc: Pc<V>)
    requires SharedOk(sh) && LocalOk(sh, u, other) && LocalOk(sh, t, pc) && t != u && HasHead(pc)
    ensures var sh' := Step(sh, u, other, act).0; sh'.head == sh.head && sh'.headMtx == sh.headMtx
  {
  }

  lemma {:induction false} RememberedWasRead<V>(threads: set<nat>, es: seq<Event<V>>, t: nat, tail: nat)
    requires var s := Run(Init<V>(threads), es); t in s.pc && Remembers(s.sh, s.pc[t], tail)
    ensures exists j :: TailReadAt(Init<V>(threads), es, t, Run(Init<V>(threads), es).sh.head, tail, j)
  {
    var s0 := Init<V>(threads);
    assert es != [];
    var front := es[..|es| - 1];
    var s := Run(s0, front);
    RunKeepsInv(threads, front);
    RemembersStep(s, es[|es| - 1], t, tail);
    hide Exec, Inv, LocalOk, SharedOk;
    if Remembers(s.sh, s.pc[t], tail) {
      RememberedWasRead(threads, front, t, tail);
      var j :| TailReadAt(s0, front, t, s.sh.head, tail, j);
      TailReadExtends(s0, es, t, s.sh.head, tail, j);
    } else {
      assert front[..|front|] == front;
      assert TailReadAt(s0, front, t, s.sh.head, tail, |front|);
      TailReadExtends(s0, es, t, s.sh.head, tail, |front|);
    }
  }

  /**
   * The answers are right. A pop about to report an empty queue has itself seen the head and the
   * tail equal, at a moment since which it has had the head lock; and `empty` is about to answer
   * that the queue is empty if and only if it has seen them equal at such a moment.
   */
  lemma EmptyAnswerWasRight<V>(threads: set<nat>, es: seq<Event<V>>, t: nat)
    requires var s := Run(Init<V>(threads), es);
      t in s.pc && ((s.pc[t].PopUnlock? && s.pc[t].found == Nothing) || s.pc[t].EmptyUnlockHead?)
    ensures var s := Run(Init<V>(threads), es);
      exists j, tail :: TailReadAt(Init<V>(threads), es, t, s.sh.head, tail, j)
        && (tail == s.sh.head <==> s.pc[t].PopUnlock? || s.pc[t].answer)
  {
    RunKeepsInv(threads, es);
    var s := Run(Init<V>(threads), es);
    assert LocalOk(s.sh, t, s.pc[t]);
    var tail := if s.pc[t].PopUnlock? then s.sh.head else s.pc[t].snapshot;
    RememberedWasRead(threads, es, t, tail);
    var j :| TailReadAt(Init<V>(threads), es, t, s.sh.head, tail, j);
  }

  // ----- what goes in is what was passed, what is returned is what was taken -----

  /** The values that t has passed to `push`, in order. */
  ghost function Asked<V>(s0: State<V>, es: seq<Event<V>>, t: nat): seq<V> {
    if es == [] then []
    else
      var s, e, before := Run(s0, es[..|es| - 1]), es[|es| - 1], Asked(s0, es[..|es| - 1], t);
      if e.tid == t && e.action.CallPush? && t in s.pc && s.pc[t].Idle? then before + [e.action.value] else before
  }

  /** The pops that t has called, in order. */
  ghost function AskedPops<V>(s0: State<V>, es: seq<Event<V>>, t: nat): seq<Kind> {
    if es == [] then []
    else
      var s, e, before := Run(s0, es[..|es| - 1]), es[|es| - 1], AskedPops(s0, es[..|es| - 1], t);
      if e.tid == t && e.action.CallPop? && t in s.pc && s.pc[t].Idle? then before + [e.action.kind] else before
  }

  /** The elements of xs that belong to thread t. */
  function Of<X>(xs: seq<X>, tids: seq<nat>, t: nat): seq<X>
    requires |tids| == |xs|
  {
    if xs == [] then []
    else
      var n := |xs| - 1;
      var before := Of(xs[..n], tids[..n], t);
      if tids[n] == t then before + [xs[n]] else before
  }

  function KindsOf<V>(returned: seq<Return<V>>, t: nat): seq<Kind> {
    if returned == [] then []
    else
      var last, before := returned[|returned| - 1], KindsOf(returned[..|returned| - 1], t);
      if last.tid == t then before + [last.kind] else before
  }

  function FoundOf<V>(returned: seq<Return<V>>, t: nat): seq<Datum<V>> {
    if returned == [] then []
    else
      var last, before := returned[|returned| - 1], FoundOf(returned[..|returned| - 1], t);
      if last.tid == t && last.found.Something? then before + [last.found.data] else before
  }

  /** The value of a push that has not taken effect yet. */
  function Pending<V>(pc: Pc<V>): seq<V> {
    match pc
    case PushLock(v) => [v] case PushLink(v) => [v] case PushData(v) => [v] case PushAdvance(v) => [v]
    case _ => []
  }

  /** The pop that a thread is inside. */
  function PopInside<V>(pc: Pc<V>): seq<Kind> {
    match pc
    case PopLock(k) => [k] case TailLock(k) => [k] case TailRead(k) => [k] case TailUnlock(k, _) => [k]
    case Compare(k, _) => [k] case ReadData(k, _) => [k] case ReadNext(k, _, _) => [k] case PopUnlock(k, _) => [k]
    case Asleep => [WaitAndPop]
    case _ => []
  }

  /** What a pop has taken and not returned yet. */
  function Taken<V>(pc: Pc<V>): seq<Datum<V>> {
    if pc.PopUnlock? && pc.found.Something? then [pc.found.data] else []
  }

  lemma OfAppend<X>(xs: seq<X>, tids: seq<nat>, x: X, u: nat, t: nat)
    requires |tids| == |xs|
    ensures Of(xs + [x], tids + [u], t) == if u == t then Of(xs, tids, t) + [x] else Of(xs, tids, t)
  {
    assert (xs + [x])[..|xs|] == xs && (tids + [u])[..|xs|] == tids;
  }

  lemma ReturnedAppend<V>(returned: seq<Return<V>>, r: Return<V>, t: nat)
    ensures KindsOf(returned + [r], t) == if r.tid == t then KindsOf(returned, t) + [r.kind] else KindsOf(returned, t)
    ensures FoundOf(returned + [r], t)
      == if r.tid == t && r.found.Something? then FoundOf(returned, t) + [r.found.data] else FoundOf(returned, t)
  {
    assert (returned + [r])[..|returned|] == returned;
  }

  /** The records of one thread agree with what it has asked and where it is. */
  ghost predicate Books<V>(sh: Shared<V>, t: nat, pc: Pc<V>, pushes: seq<V>, pops: seq<Kind>) {
    && |sh.pushers| == |sh.pushed| && |sh.poppers| == |sh.popped|
    && Of(sh.pushed, sh.pushers, t) + Pending(pc) == pushes
    && KindsOf(sh.returned, t) + PopInside(pc) == pops
    && FoundOf(sh.returned, t) + Taken(pc) == Of(sh.popped, sh.poppers, t)
  }

  /** The entries that a step of thread u makes. */
  ghost predicate EntersPush<V>(sh: Shared<V>, u: nat, pc: Pc<V>, act: Action<V>, sh': Shared<V>, pc': Pc<V>) {
    && (sh'.pushed == sh.pushed ==>
          && sh'.pushers == sh.pushers
          && Pending(pc') == if act.CallPush? && pc.Idle? then [act.value] else Pending(pc))
    && (sh'.pushed != sh.pushed ==>
          && |Pending(pc)| == 1 && Pending(pc') == []
          && sh'.pushed == sh.pushed + [Pending(pc)[0]] && sh'.pushers == sh.pushers + [u])
  }

  ghost predicate EntersPop<V>(sh: Shared<V>, u: nat, pc: Pc<V>, act: Action<V>, sh': Shared<V>, pc': Pc<V>) {
    && (sh'.popped == sh.popped ==> sh'.poppers == sh.poppers)
    && (sh'.popped != sh.popped ==>
          && sh'.returned == sh.returned && Taken(pc) == [] && |Taken(pc')| == 1
          && sh'.popped == sh.popped + [Taken(pc')[0]] && sh'.poppers == sh.poppers + [u])
    && (sh'.returned == sh.returned ==>
          && PopInside(pc') == (if act.CallPop? && pc.Idle? then [act.kind] else PopInside(pc))
          && (sh'.popped == sh.popped ==> Taken(pc') == Taken(pc)))
    && (sh'.returned != sh.returned ==>
          && pc.PopUnlock? && pc'.Idle?
          && sh'.returned == sh.returned + [Return(u, pc.kind, pc.found)] && sh'.popped == sh.popped)
  }

  lemma PushEntries<V>(sh: Shared<V>, u: nat, pc: Pc<V>, wakes: nat)
    requires Pushing(pc)
    ensures var (sh', pc') := PushStep(sh, u, pc);
      EntersPush(sh, u, pc, Go(wakes), sh', pc') && EntersPop(sh, u, pc, Go(wakes), sh', pc')
  {
  }

  lemma PopEntries<V>(sh: Shared<V>, u: nat, pc: Pc<V>, wakes: nat)
    requires Popping(pc)
    ensures var (sh', pc') := PopStep(sh, u, pc);
      EntersPush(sh, u, pc, Go(wakes), sh', pc') && EntersPop(sh, u, pc, Go(wakes), sh', pc')
  {
  }

  lemma Entries<V>(sh: Shared<V>, u: nat, pc: Pc<V>, act: Action<V>)
    ensures var (sh', pc') := Step(sh, u, pc, act);
      EntersPush(sh, u, pc, act, sh', pc') && EntersPop(sh, u, pc, act, sh', pc')
  {
    if act.Go? && Pushing(pc) {
      hide EntersPush, EntersPop;
      PushEntries(sh, u, pc, act.wakes);
    } else if act.Go? && Popping(pc) {
      hide EntersPush, EntersPop;
      PopEntries(sh, u, pc, act.wakes);
    }
  }

  lemma OwnPushes<V>(sh: Shared<V>, t: nat, pc: Pc<V>, act: Action<V>)
    requires |sh.pushers| == |sh.pushed| && |sh.poppers| == |sh.popped|
    ensures var (sh', pc') := Step(sh, t, pc, act);
      && |sh'.pushers| == |sh'.pushed|
      && Of(sh'.pushed, sh'.pushers, t) + Pending(pc')
         == Of(sh.pushed, sh.pushers, t) + Pending(pc) + if act.CallPush? && pc.Idle? then [act.value] else []
  {
    Entries(sh, t, pc, act);
    IdleBooks(pc);
    if act.CallPush? || act.CallPop? {
      CalledOnce(sh, t, pc, act);
    }
    hide Step, Of, Pending;
    var (sh', pc') := Step(sh, t, pc, act);
    if sh'.pushed != sh.pushed {
      OfAppend(sh.pushed, sh.pushers, Pending(pc)[0], t, t);
    }
  }

  lemma OwnKinds<V>(sh: Shared<V>, t: nat, pc: Pc<V>, act: Action<V>)
    requires |sh.pushers| == |sh.pushed| && |sh.poppers| == |sh.popped|
    ensures var (sh', pc') := Step(sh, t, pc, act);
      KindsOf(sh'.returned, t) + PopInside(pc')
      == KindsOf(sh.returned, t) + PopInside(pc) + if act.CallPop? && pc.Idle? then [act.kind] else []
  {
    Entries(sh, t, pc, act);
    IdleBooks(pc);
    if act.CallPush? || act.CallPop? {
      CalledOnce(sh, t, pc, act);
    }
    hide Step, KindsOf, PopInside;
    if Step(sh, t, pc, act).0.returned != sh.returned {
      ReturnedAppend(sh.returned, Return(t, pc.kind, pc.found), t);
      UnlockBooks(pc);
    }
  }

  lemma OwnFound<V>(sh: Shared<V>, t: nat, pc: Pc<V>, act: Action<V>)
    requires |sh.pushers| == |sh.pushed| && |sh.poppers| == |sh.popped|
    requires FoundOf(sh.returned, t) + Taken(pc) == Of(sh.popped, sh.poppers, t)
    ensures var (sh', pc') := Step(sh, t, pc, act);
      |sh'.poppers| == |sh'.popped| && FoundOf(sh'.returned, t) + Taken(pc') == Of(sh'.popped, sh'.poppers, t)
  {
    Entries(sh, t, pc, act);
    hide Step, Of, FoundOf, Taken;
    var (sh', pc') := Step(sh, t, pc, act);
    if sh'.popped != sh.popped {
      OfAppend(sh.popped, sh.poppers, Taken(pc')[0], t, t);
    }
    if sh'.returned != sh.returned {
      ReturnedAppend(sh.returned, Return(t, pc.kind, pc.found), t);
      UnlockBooks(pc);
    }
  }

  /** A call does nothing else. */
  lemma CalledOnce<V>(sh: Shared<V>, t: nat, pc: Pc<V>, act: Action<V>)
    requires act.CallPush? || act.CallPop?
    ensures Step(sh, t, pc, act).0 == sh
  {
  }

  lemma OwnBooks<V>(sh: Shared<V>, t: nat, pc: Pc<V>, act: Action<V>, pushes: seq<V>, pops: seq<Kind>)
    requires Books(sh, t, pc, pushes, pops)
    ensures var (sh', pc') := Step(sh, t, pc, act);
      Books(sh', t, pc',
            if act.CallPush? && pc.Idle? then pushes + [act.value] else pushes,
            if act.CallPop? && pc.Idle? then pops + [act.kind] else pops)
  {
    hide Step, Of, KindsOf, FoundOf, Pending, PopInside, Taken;
    OwnPushes(sh, t, pc, act);
    OwnKinds(sh, t, pc, act);
    OwnFound(sh, t, pc, act);
  }

  lemma IdleBooks<V>(pc: Pc<V>)
    ensures pc.Idle? ==> Pending(pc) == [] && PopInside(pc) == [] && Taken(pc) == []
  {
  }

  lemma UnlockBooks<V>(pc: Pc<V>)
    requires pc.PopUnlock?
    ensures PopInside(pc) == [pc.kind] && Taken(pc) == if pc.found.Something? then [pc.found.data] else []
    ensures PopInside<V>(Idle) == [] && Taken<V>(Idle) == []
  {
  }

  lemma OthersPushes<V>(sh: Shared<V>, u: nat, other: Pc<V>, act: Action<V>, t: nat)
    requires |sh.pushers| == |sh.pushed| && u != t
    ensures var sh' := Step(sh, u, other, act).0;
      |sh'.pushers| == |sh'.pushed| && Of(sh'.pushed, sh'.pushers, t) == Of(sh.pushed, sh.pushers, t)
  {
    Entries(sh, u, other, act);
    hide Step, Of, Pending, EntersPop;
    if Step(sh, u, other, act).0.pushed != sh.pushed {
      OfAppend(sh.pushed, sh.pushers, Pending(other)[0], u, t);
    }
  }

  lemma OthersPops<V>(sh: Shared<V>, u: nat, other: Pc<V>, act: Action<V>, t: nat)
    requires |sh.poppers| == |sh.popped| && u != t
    ensures var sh' := Step(sh, u, other, act).0;
      && |sh'.poppers| == |sh'.popped| && Of(sh'.popped, sh'.poppers, t) == Of(sh.popped, sh.poppers, t)
      && KindsOf(sh'.returned, t) == KindsOf(sh.returned, t) && FoundOf(sh'.returned, t) == FoundOf(sh.returned, t)
  {
    Entries(sh, u, other, act);
    hide Step, Of, KindsOf, FoundOf, PopInside, Taken, EntersPush;
    var (sh', other') := Step(sh, u, other, act);
    if sh'.popped != sh.popped {
      OfAppend(sh.popped, sh.poppers, Taken(other')[0], u, t);
    }
    if sh'.returned != sh.returned {
      ReturnedAppend(sh.returned, Return(u, other.kind, other.found), t);
    }
  }

  lemma OthersBooks<V>(sh: Shared<V>, u: nat, other: Pc<V>, act: Action<V>, t: nat, pc: Pc<V>, pushes: seq<V>, pops: seq<Kind>)
    requires Books(sh, t, pc, pushes, pops) && u != t
    ensures Books(Step(sh, u, other, act).0, t, pc, pushes, pops)
  {
    hide Step, Of, KindsOf, FoundOf, Pending, PopInside, Taken;
    OthersPushes(sh, u, other, act, t);
    OthersPops(sh, u, other, act, t);
  }

  lemma WokenBooks<V>(sh: Shared<V>, t: nat, pushes: seq<V>, pops: seq<Kind>)
    requires Books(sh, t, Asleep, pushes, pops)
    ensures Books(sh, t, PopLock(WaitAndPop), pushes, pops)
  {
  }

  lemma BooksStep<V>(s: State<V>, e: Event<V>, t: nat, pushes: seq<V>, pops: seq<Kind>)
    requires t in s.pc && Books(s.sh, t, s.pc[t], pushes, pops)
    ensures var s' := Exec(s, e); var own := e.tid == t && s.pc[t].Idle?;
      && t in s'.pc
      && Books(s'.sh, t, s'.pc[t],
               if own && e.action.CallPush? then pushes + [e.action.value] else pushes,
               if own && e.action.CallPop? then pops + [e.action.kind] else pops)
  {
    if e.tid in s.pc {
      hide Step, Books;
      if e.tid == t {
        OwnBooks(s.sh, t, s.pc[t], e.action, pushes, pops);
      } else {
        OthersBooks(s.sh, e.tid, s.pc[e.tid], e.action, t, s.pc[t], pushes, pops);
        if s.pc[t].Asleep? {
          WokenBooks(Step(s.sh, e.tid, s.pc[e.tid], e.action).0, t, pushes, pops);
        }
      }
    }
  }

  /**
   * Each thread's values enter the queue in the order in which it passed them to `push`, and its
   * pops return, in the order in which it called them, exactly what it has taken from the queue.
   */
  lemma {:induction false} CallsAreKept<V>(threads: set<nat>, es: seq<Event<V>>, t: nat)
    requires t in threads
    ensures var s0 := Init<V>(threads); var s := Run(s0, es);
      && t in s.pc
      && Books(s.sh, t, s.pc[t], Asked(s0, es, t), AskedPops(s0, es, t))
  {
    if es != [] {
      var s0 := Init<V>(threads);
      var front, e := es[..|es| - 1], es[|es| - 1];
      CallsAreKept<V>(threads, front, t);
      hide Books, Exec;
      BooksStep(Run(s0, front), e, t, Asked(s0, front, t), AskedPops(s0, front, t));
    }
  }

  /** wait_and_pop never comes back without an element. */
  lemma {:induction false} WaitAndPopFinds<V>(threads: set<nat>, es: seq<Event<V>>)
    ensures forall r :: r in Run(Init<V>(threads), es).sh.returned && r.kind == WaitAndPop ==> r.found.Something?
  {
    if es != [] {
      WaitAndPopFinds<V>(threads, es[..|es| - 1]);
      RunKeepsInv(threads, es[..|es| - 1]);
      var s, e := Run(Init<V>(threads), es[..|es| - 1]), es[|es| - 1];
      if e.tid in s.pc {
        assert LocalOk(s.sh, e.tid, s.pc[e.tid]);
        ReturnStep(s.sh, e.tid, s.pc[e.tid], e.action);
      }
    }
  }

  lemma ReturnStep<V>(sh: Shared<V>, t: nat, pc: Pc<V>, act: Action<V>)
    requires pc.PopUnlock? && pc.found.Nothing? ==> pc.kind != WaitAndPop
    requires forall r :: r in sh.returned && r.kind == WaitAndPop ==> r.found.Something?
    ensures forall r :: r in Step(sh, t, pc, act).0.returned && r.kind == WaitAndPop ==> r.found.Something?
  {
  }

  /** How often t has called empty. */
  ghost function AskedEmpty<V>(s0: State<V>, es: seq<Event<V>>, t: nat): nat {
    if es == [] then 0
    else
      var s, e, before := Run(s0, es[..|es| - 1]), es[|es| - 1], AskedEmpty(s0, es[..|es| - 1], t);
      if AsksEmpty(s, e, t) then before + 1 else before
  }

  function AnswersTo(answers: seq<(nat, bool)>, t: nat): nat {
    if answers == [] then 0
    else AnswersTo(answers[..|answers| - 1], t) + if answers[|answers| - 1].0 == t then 1 else 0
  }

  predicate InEmpty<V>(pc: Pc<V>) {
    pc.EmptyLockHead? || pc.EmptyLockTail? || pc.EmptyRead? || pc.EmptyUnlockTail? || pc.EmptyUnlockHead?
  }

  lemma AnswersAppend(answers: seq<(nat, bool)>, a: (nat, bool), t: nat)
    ensures AnswersTo(answers + [a], t) == AnswersTo(answers, t) + if a.0 == t then 1 else 0
  {
    assert (answers + [a])[..|answers|] == answers;
  }

  predicate AsksEmpty<V>(s: State<V>, e: Event<V>, t: nat) {
    e.tid == t && e.action.CallEmpty? && t in s.pc && s.pc[t].Idle?
  }

  /** Calls of empty by t that are not answered yet. */
  function Unanswered<V>(pc: Pc<V>): nat {
    if InEmpty(pc) then 1 else 0
  }

  lemma AnswerStep<V>(sh: Shared<V>, u: nat, pc: Pc<V>, act: Action<V>)
    ensures var (sh', pc') := Step(sh, u, pc, act);
      if act.Go? && pc.EmptyUnlockHead? then sh'.answers == sh.answers + [(u, pc.answer)] && pc' == Idle
      else sh'.answers == sh.answers && (InEmpty(pc') <==> InEmpty(pc) || (act.CallEmpty? && pc.Idle?))
  {
  }

  lemma AnswersStep<V>(s: State<V>, e: Event<V>, t: nat)
    requires t in s.pc
    ensures var s' := Exec(s, e);
      && t in s'.pc
      && AnswersTo(s'.sh.answers, t) + Unanswered(s'.pc[t])
         == AnswersTo(s.sh.answers, t) + Unanswered(s.pc[t]) + if AsksEmpty(s, e, t) then 1 else 0
  {
    if e.tid in s.pc {
      var pc := s.pc[e.tid];
      AnswerStep(s.sh, e.tid, pc, e.action);
      hide Step, AnswersTo;
      if e.action.Go? && pc.EmptyUnlockHead? {
        AnswersAppend(s.sh.answers, (e.tid, pc.answer), t);
      }
    }
  }

  /** Every call of empty is answered once, and with what it has found (see EmptyAnswerWasRight). */
  lemma {:induction false} EveryEmptyIsAnswered<V>(threads: set<nat>, es: seq<Event<V>>, t: nat)
    requires t in threads
    ensures var s0 := Init<V>(threads); var s := Run(s0, es);
      && t in s.pc
      && AnswersTo(s.sh.answers, t) + Unanswered(s.pc[t]) == AskedEmpty(s0, es, t)
  {
    hide Exec, AnswersTo, Unanswered;
    if es == [] {
      NothingAnswered(Init<V>(threads), t);
    } else {
      EveryEmptyIsAnswered<V>(threads, es[..|es| - 1], t);
      AnswersStep(Run(Init<V>(threads), es[..|es| - 1]), es[|es| - 1], t);
    }
  }

  lemma NothingAnswered<V>(s: State<V>, t: nat)
    requires s.sh.answers == [] && t in s.pc && s.pc[t] == Idle
    ensures AnswersTo(s.sh.answers, t) == 0 == Unanswered(s.pc[t])
  {
  }

  /** A sleeper may wake up spuriously, and then looks again from the beginning. */
  lemma MayWakeSpuriously<V>(s: State<V>, t: nat)
    requires t in s.pc && s.pc[t].Asleep?
    ensures Exec(s, Event(t, WakeSpuriously)) == s.(pc := s.pc[t := PopLock(WaitAndPop)])
  {
  }

  // ----- a thread left alone finishes its call -----

  function StepsLeft<V>(pc: Pc<V>): nat {
    match pc
    case PushLock(_) => 6 case PushLink(_) => 5 case PushData(_) => 4 case PushAdvance(_) => 3 case PushNotify => 2
    case PushUnlock => 1
    case PopLock(_) => 8 case TailLock(_) => 7 case TailRead(_) => 6 case TailUnlock(_, _) => 5 case Compare(_, _) => 4
    case ReadData(_, _) => 3 case ReadNext(_, _, _) => 2 case PopUnlock(_, _) => 1
    case EmptyLockHead => 5 case EmptyLockTail => 4 case EmptyRead => 3 case EmptyUnlockTail(_, _) => 2
    case EmptyUnlockHead(_, _) => 1
    case _ => 0
  }

  /** The locks are the thread's own, as far as it has got, or free. */
  predicate Unhindered<V>(sh: Shared<V>, t: nat) {
    (sh.headMtx == Free || sh.headMtx == Held(t)) && (sh.tailMtx == Free || sh.tailMtx == Held(t))
  }

  function Alone<V>(sh: Shared<V>, t: nat, pc: Pc<V>, n: nat): (Shared<V>, Pc<V>)
    decreases n
  {
    if n == 0 then (sh, pc) else var (sh', pc') := Step(sh, t, pc, Go(t)); Alone(sh', t, pc', n - 1)
  }

  lemma StepsLess<V>(sh: Shared<V>, t: nat, pc: Pc<V>)
    requires SharedOk(sh) && LocalOk(sh, t, pc) && Unhindered(sh, t)
    ensures var (sh', pc') := Step(sh, t, pc, Go(t));
      && Unhindered(sh', t)
      && (StepsLeft(pc) > 0 ==> StepsLeft(pc') < StepsLeft(pc))
      && (StepsLeft(pc) == 0 ==> pc' == pc)
  {
  }

  lemma {:induction false} AloneThrough<V>(sh: Shared<V>, t: nat, pc: Pc<V>, n: nat)
    requires SharedOk(sh) && LocalOk(sh, t, pc) && Unhindered(sh, t) && StepsLeft(pc) <= n
    ensures StepsLeft(Alone(sh, t, pc, n).1) == 0
    decreases n
  {
    hide Step, StepsLeft, SharedOk, LocalOk;
    if n > 0 {
      StepsLess(sh, t, pc);
      StepKeepsShared(sh, t, pc, Go(t));
      var (sh', pc') := Step(sh, t, pc, Go(t));
      AloneThrough(sh', t, pc', n - 1);
    }
  }

  /** From every reachable state, a thread that is not kept from a lock is through, or asleep, in eight operations. */
  lemma LeftAloneFinishes<V>(threads: set<nat>, es: seq<Event<V>>, t: nat)
    requires var s := Run(Init<V>(threads), es); t in s.pc && Unhindered(s.sh, t)
    ensures var s := Run(Init<V>(threads), es); var pc := Alone(s.sh, t, s.pc[t], 8).1; pc == Idle || pc == Asleep
  {
    RunKeepsInv(threads, es);
    var s := Run(Init<V>(threads), es);
    AloneThrough(s.sh, t, s.pc[t], 8);
  }

  // ----- wakeups -----

  /** Still in wait_and_pop, awake and without an element. */
  predicate Looking<V>(pc: Pc<V>) {
    match pc
    case PopLock(k) => k == WaitAndPop
    case TailLock(k) => k == WaitAndPop
    case TailRead(k) => k == WaitAndPop
    case TailUnlock(k, _) => k == WaitAndPop
    case Compare(k, _) => k == WaitAndPop
    case ReadData(k, _) => k == WaitAndPop
    case ReadNext(k, _, _) => k == WaitAndPop
    case _ => false
  }

  predicate Notifying<V>(pc: Pc<V>) {
    pc.PushNotify?
  }

  predicate Notifies<V>(s: State<V>, e: Event<V>) {
    && e.tid in s.pc && s.pc[e.tid].PushNotify? && e.action.Go? && CanNotify(s.pc, e.action.wakes)
    && e.action.wakes in s.pc && s.pc[e.action.wakes].Asleep?
  }

  /** The threads that a push has woken and that are still looking, after one more event. */
  function StillLooking<V>(s: State<V>, woken: set<nat>, e: Event<V>): set<nat> {
    var all := if Notifies(s, e) then woken + {e.action.wakes} else woken;
    var s' := Exec(s, e);
    if e.tid in s'.pc && !Looking(s'.pc[e.tid]) then all - {e.tid} else all
  }

  function Woken<V>(s0: State<V>, es: seq<Event<V>>): set<nat> {
    if es == [] then {} else StillLooking(Run(s0, es[..|es| - 1]), Woken(s0, es[..|es| - 1]), es[|es| - 1])
  }

  ghost predicate WokenOk<V>(s: State<V>, woken: set<nat>) {
    forall t :: t in woken ==> t in s.pc && Looking(s.pc[t])
  }

  ghost predicate SomeoneSleeps<V>(pc: map<nat, Pc<V>>) {
    exists t :: t in pc && pc[t].Asleep?
  }

  /** A wakeup is lost: somebody sleeps over more elements than there are wakeups on their way. */
  ghost predicate Lost<V>(s: State<V>, woken: set<nat>) {
    SomeoneSleeps(s.pc) && s.sh.tail - s.sh.head > |woken| + Count(s.pc, Notifying)
  }

  /** The step from Compare into the wait. */
  predicate FallsAsleep<V>(s: State<V>, e: Event<V>) {
    && e.tid in s.pc && e.action.Go?
    && s.pc[e.tid].Compare? && s.pc[e.tid].kind == WaitAndPop && s.pc[e.tid].snapshot == s.sh.head
  }

  lemma WokenStep<V>(s: State<V>, woken: set<nat>, e: Event<V>)
    requires Inv(s) && WokenOk(s, woken)
    ensures WokenOk(Exec(s, e), StillLooking(s, woken, e))
  {
    hide Inv;
  }

  /** The notifiers after an event: only the thread that moves comes or goes. */
  lemma NotifyingStep<V>(s: State<V>, e: Event<V>)
    requires e.tid in s.pc && (s.pc[e.tid].PushNotify? && e.action.Go? ==> CanNotify(s.pc, e.action.wakes))
    ensures var pc' := Step(s.sh, e.tid, s.pc[e.tid], e.action).1;
      Count(Exec(s, e).pc, Notifying) + (if Notifying(s.pc[e.tid]) then 1 else 0)
      == Count(s.pc, Notifying) + (if Notifying(pc') then 1 else 0)
  {
    hide Step;
    var pc' := Step(s.sh, e.tid, s.pc[e.tid], e.action).1;
    if Notifies(s, e) {
      var w := e.action.wakes;
      CountUpdate(s.pc, w, PopLock(WaitAndPop), Notifying);
      CountUpdate(s.pc[w := PopLock(WaitAndPop)], e.tid, pc', Notifying);
    } else {
      CountUpdate(s.pc, e.tid, pc', Notifying);
    }
  }

  /** How one operation moves the backlog: a push adds to it with a notifier, a pop takes from it. */
  lemma BacklogStep<V>(sh: Shared<V>, t: nat, pc: Pc<V>, act: Action<V>)
    requires SharedOk(sh) && LocalOk(sh, t, pc)
    ensures var (sh', pc') := Step(sh, t, pc, act);
      && (act.Go? && pc.PushAdvance? ==> Notifying(pc') && sh'.tail == sh.tail + 1 && sh'.head == sh.head)
      && (act.Go? && pc.ReadNext? ==> !Notifying(pc') && sh'.tail == sh.tail && sh'.head == sh.head + 1)
      && (!(act.Go? && (pc.PushAdvance? || pc.ReadNext?)) ==>
            sh'.tail == sh.tail && sh'.head == sh.head && (Notifying(pc') ==> Notifying(pc) && !act.Go?))
      && (Looking(pc) && !(act.Go? && (pc.ReadNext? || pc.Compare?)) ==> Looking(pc'))
      && (act.Go? && pc.Compare? && pc.kind == WaitAndPop ==>
            if pc.snapshot == sh.head then pc' == Asleep else Looking(pc'))
      && (pc'.Asleep? ==> pc.Asleep? || (act.Go? && pc.Compare? && pc.kind == WaitAndPop && pc.snapshot == sh.head))
      && (!act.Go? && Notifying(pc) ==> Notifying(pc'))
  {
  }

  /** Any other step leaves the balance between backlog and wakeups as good as it was. */
  lemma BalanceStep<V>(s: State<V>, woken: set<nat>, e: Event<V>)
    requires Inv(s) && WokenOk(s, woken) && !FallsAsleep(s, e) && SomeoneSleeps(Exec(s, e).pc)
    ensures SomeoneSleeps(s.pc)
    ensures var s' := Exec(s, e);
      s'.sh.tail - s'.sh.head - |StillLooking(s, woken, e)| - Count(s'.pc, Notifying)
      <= s.sh.tail - s.sh.head - |woken| - Count(s.pc, Notifying)
  {
    if e.tid in s.pc {
      var t, pc := e.tid, s.pc[e.tid];
      BacklogStep(s.sh, t, pc, e.action);
      SleepersWere(s, e);
      if !(pc.PushNotify? && e.action.Go? && !CanNotify(s.pc, e.action.wakes)) {
        NotifyingStep(s, e);
      }
    }
  }

  lemma SleepersWere<V>(s: State<V>, e: Event<V>)
    requires Inv(s) && e.tid in s.pc && !FallsAsleep(s, e) && SomeoneSleeps(Exec(s, e).pc)
    ensures SomeoneSleeps(s.pc)
  {
    BacklogStep(s.sh, e.tid, s.pc[e.tid], e.action);
    var t :| t in Exec(s, e).pc && Exec(s, e).pc[t].Asleep?;
    assert s.pc[t].Asleep?;
  }

  lemma {:induction false} RunKeepsWoken<V>(threads: set<nat>, es: seq<Event<V>>)
    ensures WokenOk(Run(Init<V>(threads), es), Woken(Init<V>(threads), es))
  {
    if es != [] {
      RunKeepsWoken(threads, es[..|es| - 1]);
      RunKeepsInv(threads, es[..|es| - 1]);
      WokenStep(Run(Init<V>(threads), es[..|es| - 1]), Woken(Init<V>(threads), es[..|es| - 1]), es[|es| - 1]);
    }
  }

  /**
   * Exactly when a wakeup is lost: in every reachable state in which none is lost yet, a step loses
   * one if and only if it falls asleep on a snapshot that the tail has passed by more than the
   * wakeups then on their way.
   */
  lemma LostIff<V>(threads: set<nat>, es: seq<Event<V>>, e: Event<V>)
    requires !Lost(Run(Init<V>(threads), es), Woken(Init<V>(threads), es))
    ensures var s := Run(Init<V>(threads), es); var woken := Woken(Init<V>(threads), es);
      Lost(Exec(s, e), StillLooking(s, woken, e)) <==>
        FallsAsleep(s, e) && s.sh.tail - s.pc[e.tid].snapshot > |woken - {e.tid}| + Count(s.pc, Notifying)
  {
    RunKeepsInv(threads, es);
    RunKeepsWoken(threads, es);
    var s, woken := Run(Init<V>(threads), es), Woken(Init<V>(threads), es);
    if FallsAsleep(s, e) {
      FallingAsleep(s, woken, e);
    } else if SomeoneSleeps(Exec(s, e).pc) {
      BalanceStep(s, woken, e);
    }
  }

  lemma FallingAsleep<V>(s: State<V>, woken: set<nat>, e: Event<V>)
    requires Inv(s) && FallsAsleep(s, e)
    ensures var s' := Exec(s, e);
      && SomeoneSleeps(s'.pc) && s'.sh.tail == s.sh.tail && s'.sh.head == s.sh.head
      && Count(s'.pc, Notifying) == Count(s.pc, Notifying)
      && StillLooking(s, woken, e) == woken - {e.tid}
  {
    BacklogStep(s.sh, e.tid, s.pc[e.tid], e.action);
    NotifyingStep(s, e);
    assert Exec(s, e).pc[e.tid].Asleep?;
  }

  /** No waiter of the run falls asleep after the tail has moved on from its snapshot. */
  ghost predicate NoStaleSleep<V>(s0: State<V>, es: seq<Event<V>>) {
    es == [] ||
    var s := Run(s0, es[..|es| - 1]); var e := es[|es| - 1];
    NoStaleSleep(s0, es[..|es| - 1]) && (FallsAsleep(s, e) ==> s.pc[e.tid].snapshot == s.sh.tail)
  }

  /**
   * No lost wakeup without a stale snapshot: if no waiter has fallen asleep after the tail moved
   * on, then over a sleeping waiter the elements never outnumber the wakeups on their way.
   */
  lemma {:induction false} NoStaleSleepNoLoss<V>(threads: set<nat>, es: seq<Event<V>>)
    requires NoStaleSleep(Init<V>(threads), es)
    ensures var s := Run(Init<V>(threads), es);
      SomeoneSleeps(s.pc) ==> s.sh.tail - s.sh.head <= |Woken(Init<V>(threads), es)| + Count(s.pc, Notifying)
  {
    if es != [] {
      NoStaleSleepNoLoss(threads, es[..|es| - 1]);
      LostIff(threads, es[..|es| - 1], es[|es| - 1]);
    }
  }

  function PushAlone<V>(s: State<V>, t: nat, v: V): State<V> {
    GoAlone(Exec(s, Event(t, CallPush(v))), t, 6)
  }

  function GoAlone<V>(s: State<V>, t: nat, n: nat): State<V>
    decreases n
  {
    if n == 0 then s else GoAlone(Exec(s, Event(t, Go(t))), t, n - 1)
  }

  function Solo<V>(sh: Shared<V>, t: nat, pc: Pc<V>, n: nat): (Shared<V>, Pc<V>)
    decreases n
  {
    if n == 0 || !Pushing(pc) then (sh, pc)
    else var (sh1, pc1) := PushStep(sh, t, pc); Solo(sh1, t, pc1, n - 1)
  }

  lemma {:induction false} GoAloneIsSolo<V>(s: State<V>, t: nat, n: nat)
    requires t in s.pc && (Pushing(s.pc[t]) || s.pc[t].Idle?) && forall u :: u in s.pc ==> !s.pc[u].Asleep?
    ensures var (sh, pc) := Solo(s.sh, t, s.pc[t], n); GoAlone(s, t, n) == State(sh, s.pc[t := pc])
    decreases n
  {
    if n == 0 {
      assert s.pc[t := s.pc[t]] == s.pc;
    } else if s.pc[t].Idle? {
      assert Exec(s, Event(t, Go(t))) == s by { assert s.pc[t := s.pc[t]] == s.pc; }
      GoAloneIsSolo(s, t, n - 1);
    } else {
      GoAloneIsSolo(Exec(s, Event(t, Go(t))), t, n - 1);
    }
  }

  lemma PushSolo<V>(sh: Shared<V>, t: nat, v: V)
    requires SharedOk(sh) && sh.tailMtx == Free
    ensures var (sh', pc) := Solo(sh, t, PushLock(v), 6);
      pc == Idle && sh'.tail == sh.tail + 1 && sh'.head == sh.head && sh'.headMtx == sh.headMtx
  {
    var sh1 := sh.(tailMtx := Held(t));
    assert Solo(sh, t, PushLock(v), 6) == Solo(sh1, t, PushLink(v), 5);
    var sh2 := PushStep(sh1, t, PushLink(v)).0;
    assert Solo(sh1, t, PushLink(v), 5) == Solo(sh2, t, PushData(v), 4);
    var sh3 := PushStep(sh2, t, PushData(v)).0;
    assert Solo(sh2, t, PushData(v), 4) == Solo(sh3, t, PushAdvance(v), 3);
    var sh4 := PushStep(sh3, t, PushAdvance(v)).0;
    assert Solo(sh3, t, PushAdvance(v), 3) == Solo(sh4, t, PushNotify, 2);
    assert Solo(sh4, t, PushNotify, 2) == (sh4.(tailMtx := Free), Idle);
  }

  lemma PushAloneIs<V>(s: State<V>, u: nat, v: V)
    requires SharedOk(s.sh) && s.sh.tailMtx == Free && u in s.pc && s.pc[u] == Idle
    requires forall w :: w in s.pc ==> !s.pc[w].Asleep?
    ensures var s' := PushAlone(s, u, v);
      s'.pc == s.pc && s'.sh.head == s.sh.head && s'.sh.tail == s.sh.tail + 1
  {
    var s1 := State(s.sh, s.pc[u := PushLock(v)]);
    assert Exec(s, Event(u, CallPush(v))) == s1;
    hide Exec, SharedOk;
    GoAloneIsSolo(s1, u, 6);
    PushSolo(s.sh, u, v);
    assert s.pc[u := PushLock(v)][u := Idle] == s.pc;
  }

  /**
   * `push` notifies without the head lock, and this loses wakeups: in every reachable state in
   * which a waiter has just found the queue empty, a whole push that runs before the waiter
   * sleeps leaves it asleep over an element, with its notification already spent.
   */
  lemma PushBeforeSleepIsMissed<V>(threads: set<nat>, es: seq<Event<V>>, t: nat, u: nat, v: V)
    requires var s := Run(Init<V>(threads), es);
      && t in s.pc && s.pc[t] == Compare(WaitAndPop, s.sh.head)
      && u in s.pc && u != t && s.pc[u] == Idle && s.sh.tailMtx == Free
      && (forall w :: w in s.pc ==> !s.pc[w].Asleep?)
    ensures var s := Run(Init<V>(threads), es);
      var s' := Exec(PushAlone(s, u, v), Event(t, Go(t)));
      && s'.pc == s.pc[t := Asleep] && s'.sh.head < s'.sh.tail
  {
    RunKeepsInv(threads, es);
    var s := Run(Init<V>(threads), es);
    PushAloneIs(s, u, v);
    hide PushAlone, Inv;
    var s1 := PushAlone(s, u, v);
    assert FallsAsleep(s1, Event(t, Go(t)));
  }

  /** Such a state occurs: a waiter that comes to the new queue finds it empty. */
  lemma WaiterGetsThere<V>(threads: set<nat>, t: nat)
    requires t in threads
    ensures var go := Event<V>.Event(t, Go(t)); var s0 := Init<V>(threads);
      Run(s0, [Event(t, CallPop(WaitAndPop)), go, go, go, go])
      == State(s0.sh.(headMtx := Held(t)), s0.pc[t := Compare(WaitAndPop, 0)])
  {
    var go := Event<V>.Event(t, Go(t));
    var s0 := Init<V>(threads);
    var locked := s0.sh.(headMtx := Held(t));
    var s1 := State(s0.sh, s0.pc[t := PopLock(WaitAndPop)]);
    var s2 := State(locked, s0.pc[t := TailLock(WaitAndPop)]);
    var s3 := State(locked.(tailMtx := Held(t)), s0.pc[t := TailRead(WaitAndPop)]);
    var s4 := State(locked.(tailMtx := Held(t)), s0.pc[t := TailUnlock(WaitAndPop, 0)]);
    assert Exec(s0, Event(t, CallPop(WaitAndPop))) == s1;
    assert Exec(s1, go) == s2;
    assert Exec(s2, go) == s3;
    assert Exec(s3, go) == s4;
    assert Exec(s4, go) == State(locked, s0.pc[t := Compare(WaitAndPop, 0)]);
    assert Run(s0, []) == s0;
    RunFive(s0, Event(t, CallPop(WaitAndPop)), go);
  }

  lemma RunFive<V>(s: State<V>, e: Event<V>, go: Event<V>)
    ensures Run(s, [e, go, go, go, go]) == Exec(Exec(Exec(Exec(Exec(Run(s, []), e), go), go), go), go)
  {
    hide *;
    RunAppend(s, [], e);
    RunAppend(s, [e], go);
    RunAppend(s, [e, go], go);
    RunAppend(s, [e, go, go], go);
    RunAppend(s, [e, go, go, go], go);
    assert [] + [e] == [e] && [e] + [go] == [e, go] && [e, go] + [go] == [e, go, go];
    assert [e, go, go] + [go] == [e, go, go, go] && [e, go, go, go] + [go] == [e, go, go, go, go];
  }

  /** What an operation is about to follow is there. */
  lemma ReadsAreSafe<V>(sh: Shared<V>, t: nat, pc: Pc<V>)
    requires SharedOk(sh) && LocalOk(sh, t, pc)
    ensures pc.PushLink? ==> sh.tail < |sh.nodes|
    ensures pc.PushData? || pc.PushAdvance? ==>
      sh.tail < |sh.nodes| && sh.nodes[sh.tail].next.To? && sh.nodes[sh.tail].next.node < |sh.nodes|
    ensures pc.ReadData? || pc.ReadNext? ==> sh.head < |sh.nodes| && sh.nodes[sh.head].next.To?
  {
  }

  // ----- the object itself -----

  /** The queue's own fields, its nodes and each thread's locals, changed in place. */
  class Queue<V(==)> {
    var nodes: seq<Node<V>>
    var headNode: nat
    var tailNode: nat
    var headMtx: Owner
    var tailMtx: Owner
    var locals: map<nat, Pc<V>>
    ghost var pushed: seq<V>
    ghost var pushers: seq<nat>
    ghost var popped: seq<Datum<V>>
    ghost var poppers: seq<nat>
    ghost var returned: seq<Return<V>>
    ghost var answers: seq<(nat, bool)>
    ghost var faults: nat

    ghost function View(): State<V>
      reads this
    {
      State(Shared(nodes, headNode, tailNode, headMtx, tailMtx, pushed, pushers, popped, poppers, returned, answers, faults),
            locals)
    }

    constructor (threads: set<nat>)
      ensures View() == Init(threads)
    {
      nodes, headNode, tailNode := [Node(Unset, NoLink)], 0, 0;
      headMtx, tailMtx := Free, Free;
      locals := map t | t in threads :: Idle;
      pushed, pushers, popped, poppers, returned, answers, faults := [], [], [], [], [], [], 0;
    }

    /** One operation of `push`; the invariant says that no link is read before it is written. */
    method Push(t: nat)
      requires Inv(View()) && t in locals && Pushing(locals[t])
      modifies this
      ensures var (sh, pc) := PushStep(old(View()).sh, t, old(locals)[t]);
        View() == State(sh, old(locals)[t := pc])
    {
      assert LocalOk(View().sh, t, locals[t]);
      ReadsAreSafe(View().sh, t, locals[t]);
      hide Inv, SharedOk, LocalOk;
      match locals[t]
      case PushLock(v) =>
        if tailMtx == Free {
          tailMtx := Held(t);
          locals := locals[t := PushLink(v)];
        } else {
          assert locals == locals[t := locals[t]];
        }
      case PushLink(v) =>
        nodes := nodes[tailNode := nodes[tailNode].(next := To(|nodes|))] + [Node(Unset, NoLink)];
        locals := locals[t := PushData(v)];
      case PushData(v) =>
        var n := nodes[tailNode].next.node;
        nodes := nodes[n := nodes[n].(data := Val(v))];
        locals := locals[t := PushAdvance(v)];
      case PushAdvance(v) =>
        tailNode := nodes[tailNode].next.node;
        pushed := pushed + [v];
        pushers := pushers + [t];
        locals := locals[t := PushNotify];
      case PushNotify => locals := locals[t := PushUnlock];
      case PushUnlock =>
        tailMtx := Free;
        locals := locals[t := Idle];
    }

    /** One operation of `get_tail`. */
    method GetTail(t: nat)
      requires t in locals && (locals[t].TailLock? || locals[t].TailRead? || locals[t].TailUnlock?)
      modifies `tailMtx, `locals
      ensures var (sh, pc) := PopStep(old(View()).sh, t, old(locals)[t]);
        View() == State(sh, old(locals)[t := pc])
    {
      match locals[t]
      case TailLock(k) =>
        if tailMtx == Free {
          tailMtx := Held(t);
          locals := locals[t := TailRead(k)];
        } else {
          assert locals == locals[t := locals[t]];
        }
      case TailRead(k) => locals := locals[t := TailUnlock(k, tailNode)];
      case TailUnlock(k, n) =>
        tailMtx := Free;
        locals := locals[t := Compare(k, n)];
    }

    /** One operation of `pop`, `try_pop` or `wait_and_pop`; `res` is what it hands out. */
    method TakeNext(t: nat) returns (res: seq<Datum<V>>)
      requires Inv(View()) && t in locals && Popping(locals[t])
      modifies this
      ensures var (sh, pc) := PopStep(old(View()).sh, t, old(locals)[t]);
        View() == State(sh, old(locals)[t := pc])
      ensures popped == old(popped) + res
    {
      assert LocalOk(View().sh, t, locals[t]);
      ReadsAreSafe(View().sh, t, locals[t]);
      hide Inv, SharedOk, LocalOk;
      res := [];
      match locals[t]
      case PopLock(k) =>
        if headMtx == Free {
          headMtx := Held(t);
          locals := locals[t := TailLock(k)];
        } else {
          assert locals == locals[t := locals[t]];
        }
      case TailLock(_) => GetTail(t);
      case TailRead(_) => GetTail(t);
      case TailUnlock(_, _) => GetTail(t);
      case Compare(k, n) =>
        if headNode != n {
          locals := locals[t := ReadData(k, n)];
        } else if k == WaitAndPop {
          headMtx := Free;
          locals := locals[t := Asleep];
        } else {
          locals := locals[t := PopUnlock(k, Nothing)];
        }
      case ReadData(k, n) => locals := locals[t := ReadNext(k, n, nodes[headNode].data)];
      case ReadNext(k, n, d) =>
        headNode := nodes[headNode].next.node;
        popped := popped + [d];
        poppers := poppers + [t];
        res := [d];
        locals := locals[t := PopUnlock(k, Something(d))];
      case PopUnlock(k, f) =>
        headMtx := Free;
        returned := returned + [Return(t, k, f)];
        locals := locals[t := Idle];
    }

    method TestEmpty(t: nat) returns (empty: bool)
      requires t in locals && !Pushing(locals[t]) && !Popping(locals[t])
      modifies this
      ensures var (sh, pc) := EmptyStep(old(View()).sh, t, old(locals)[t]);
        View() == State(sh, old(locals)[t := pc])
      ensures old(locals)[t].EmptyUnlockHead? ==> empty == old(locals)[t].answer
    {
      empty := locals[t].EmptyUnlockHead? && locals[t].answer;
      if locals[t] == EmptyLockHead && headMtx == Free {
        headMtx := Held(t);
        locals := locals[t := EmptyLockTail];
      } else if locals[t] == EmptyLockTail && tailMtx == Free {
        tailMtx := Held(t);
        locals := locals[t := EmptyRead];
      } else if locals[t] == EmptyRead {
        locals := locals[t := EmptyUnlockTail(headNode == tailNode, tailNode)];
      } else if locals[t].EmptyUnlockTail? {
        tailMtx := Free;
        locals := locals[t := EmptyUnlockHead(locals[t].answer, locals[t].snapshot)];
      } else if locals[t].EmptyUnlockHead? {
        headMtx := Free;
        answers := answers + [(t, empty)];
        locals := locals[t := Idle];
      } else {
        assert locals == locals[t := locals[t]];
      }
    }

    method Call(t: nat, act: Action<V>)
      requires t in locals && !act.Go?
      modifies `locals
      ensures View() == Exec(old(View()), Event(t, act))
    {
      match act
      case CallPush(v) => if locals[t].Idle? { locals := locals[t := PushLock(v)]; }
      case CallPop(k) => if locals[t].Idle? { locals := locals[t := PopLock(k)]; }
      case CallEmpty => if locals[t].Idle? { locals := locals[t := EmptyLockHead]; }
      case WakeSpuriously => if locals[t].Asleep? { locals := locals[t := PopLock(WaitAndPop)]; }
      assert old(locals) == old(locals)[t := old(locals)[t]];
    }

    /** Any schedule at all, from a new queue: the object goes through the run of the machine. */
    method Drive(threads: set<nat>, es: seq<Event<V>>)
      requires View() == Init(threads)
      modifies this
      ensures View() == Run(Init(threads), es)
    {
      for i := 0 to |es|
        invariant View() == Run(Init(threads), es[..i])
      {
        assert es[..i + 1] == es[..i] + [es[i]];
        RunAppend(Init(threads), es[..i], es[i]);
        RunKeepsInv(threads, es[..i]);
        Perform(es[i]);
      }
      assert es[..|es|] == es;
    }

    method Perform(e: Event<V>)
      requires Inv(View())
      modifies this
      ensures View() == Exec(old(View()), e)
    {
      var t := e.tid;
      if t !in locals {
        return;
      } else if !e.action.Go? {
        Call(t, e.action);
      } else if locals[t].PushNotify? {
        var w := e.action.wakes;
        if CanNotify(locals, w) {
          locals := Notify(locals, w);
          locals := locals[t := PushUnlock];
        }
      } else if Pushing(locals[t]) {
        Push(t);
      } else if Popping(locals[t]) {
        var _ := TakeNext(t);
      } else {
        var _ := TestEmpty(t);
      }
    }
  }

  lemma RunAppend<V>(s: State<V>, es: seq<Event<V>>, e: Event<V>)
    ensures Run(s, es + [e]) == Exec(Run(s, es), e)
  {
    assert (es + [e])[..|es|] == es;
  }
}
