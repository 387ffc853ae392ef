/**
 * The Treiber-style stack of multithread/lock_free_stack.h as a machine over single
 * atomic operations, for any number of threads. Addresses released by `delete` may be
 * handed out again by a later `new`, so the address-reuse hazard is part of the model.
 *
 * `append_to_delay_node_list` reads through `delay_delete_node_list_`, which is null.
 * The machine records each such read in `nullReads` and then carries on as if the call had
 * returned, leaving the node allocated for ever.
 */
module LockFreeStack {
  import opened Counting

  datatype Ptr = Null | At(addr: nat)

  datatype Node<T> = Node(data: T, next: Ptr)

  /** Where a thread is, with the local variables it holds there. */
  datatype Pc<T> =
    | Idle
    | PushLoad(mine: nat, arg: T)
    | PushCas(mine: nat, arg: T)
    | PushReturn(node: nat, arg: T)
    | PopLoad
    | PopEmpty
    | PopNext(node: nat)
    | PopCas(node: nat, next: Ptr)
    | PopData(node: nat)
    | Check(node: nat, res: T)
    | Delete(node: nat, res: T)
    | LoadDelay(node: nat, res: T)
    | DecFast(node: nat, res: T, delayed: Ptr)
    | Purge(node: nat, cursor: Ptr, res: T)
    | LateAppend(node: nat, res: T)
    | Append(node: nat, res: T)
    | DecSlow(node: nat, res: T)

  datatype Call<T> = CallPush(arg: T) | CallPop

  /** What a call returns; `node` is the one that the value was taken from. */
  datatype Answer<T> = Done | Got(node: nat, value: T) | Nothing

  /** Calls, their linearization points and their returns, with the thread that each belongs to. */
  datatype Op<T> =
    | Called(tid: nat, call: Call<T>)
    | Pushed(tid: nat, node: nat, arg: T)
    | Popped(tid: nat, node: nat)
    | FoundEmpty(tid: nat)
    | Returned(tid: nat, answer: Answer<T>)

  /** What all threads share, with a record of what they have done to it. */
  datatype Shared<T> = Shared(
    zero: T,                    // T{}, what the node constructor stores
    heap: map<nat, Node<T>>,    // allocated nodes
    head: Ptr,                  // head_node_
    delay: Ptr,                 // delay_delete_node_list_
    poping: int,                // threads_which_poping_
    history: seq<Op<T>>,        // in the order in which things happened
    faults: nat,                // accesses to a node that is not allocated
    nullReads: nat)             // reads through the null delay list

  datatype State<T> = State(sh: Shared<T>, pc: map<nat, Pc<T>>)

  datatype Action<T> = StartPush(arg: T, addr: nat) | StartPop | Go(spurious: bool)
  datatype Event<T> = Event(tid: nat, action: Action<T>)

  function Init<T>(zero: T, threads: set<nat>): State<T> {
    State(Shared(zero, map[], Null, Null, 0, [], 0, 0), map t | t in threads :: Idle)
  }

  function Fault<T>(sh: Shared<T>): Shared<T> {
    sh.(faults := sh.faults + 1)
  }

  /** append_to_delay_node_list, lines 71-76: the list head is dereferenced unconditionally. */
  function AppendDelayed<T>(sh: Shared<T>): Shared<T> {
    match sh.delay
    case Null => sh.(nullReads := sh.nullReads + 1)
    case At(a) => if a in sh.heap then sh.(delay := sh.heap[a].next) else Fault(sh)
  }

  function LinkTo<T>(sh: Shared<T>, a: nat, next: Ptr): Shared<T>
    requires a in sh.heap
  {
    sh.(heap := sh.heap[a := sh.heap[a].(next := next)])
  }

  function Return<T>(sh: Shared<T>, t: nat, answer: Answer<T>): (Shared<T>, Pc<T>) {
    (sh.(history := sh.history + [Returned(t, answer)]), Idle)
  }

  /** Lines 20-25, one atomic operation; `spurious` makes a weak compare-exchange fail. */
  function PushStep<T>(sh: Shared<T>, t: nat, pc: Pc<T>, spurious: bool): (Shared<T>, Pc<T>)
    requires pc.PushLoad? || pc.PushCas? || pc.PushReturn?
  {
    if pc.PushReturn? then Return(sh, t, Done)
    else if pc.mine !in sh.heap then (Fault(sh), pc)
    else if pc.PushLoad? then (LinkTo(sh, pc.mine, sh.head), PushCas(pc.mine, pc.arg))
    else if sh.head == sh.heap[pc.mine].next && !spurious then
      (sh.(head := At(pc.mine), history := sh.history + [Pushed(t, pc.mine, pc.arg)]), PushReturn(pc.mine, pc.arg))
    else (LinkTo(sh, pc.mine, sh.head), PushLoad(pc.mine, pc.arg))
  }

  /** Lines 27-41, up to the call of try_recycle. */
  function PopStep<T>(sh: Shared<T>, t: nat, pc: Pc<T>, spurious: bool): (Shared<T>, Pc<T>)
    requires pc.PopLoad? || pc.PopEmpty? || pc.PopNext? || pc.PopCas? || pc.PopData?
  {
    match pc
    case PopLoad =>
      if sh.head == Null then (sh.(history := sh.history + [FoundEmpty(t)]), PopEmpty) else (sh, PopNext(sh.head.addr))
    case PopEmpty => Return(sh.(poping := sh.poping - 1), t, Nothing)
    case PopNext(a) => if a in sh.heap then (sh, PopCas(a, sh.heap[a].next)) else (Fault(sh), pc)
    case PopCas(a, n) =>
      if sh.head == At(a) && !spurious then (sh.(head := n, history := sh.history + [Popped(t, a)]), PopData(a))
      else (sh, PopLoad)
    case PopData(a) => if a in sh.heap then (sh, Check(a, sh.heap[a].data)) else (Fault(sh), pc)
  }

  function Free<T>(sh: Shared<T>, a: nat): Shared<T> {
    if a in sh.heap then sh.(heap := sh.heap - {a}) else Fault(sh)
  }

  /** try_recycle and delete_delay_nodes, lines 44-69. */
  function RecycleStep<T>(sh: Shared<T>, t: nat, pc: Pc<T>): (Shared<T>, Pc<T>)
    requires HasResult(pc)
  {
    match pc
    case Check(a, r) => (sh, if sh.poping == 1 then Delete(a, r) else Append(a, r))
    case Delete(a, r) => (Free(sh, a), LoadDelay(a, r))
    case LoadDelay(a, r) => (sh, DecFast(a, r, sh.delay))
    case DecFast(a, r, d) =>
      (sh.(poping := sh.poping - 1), if sh.poping == 1 then Purge(a, d, r) else LateAppend(a, r))
    case Purge(a, p, r) =>
      if p == Null then Return(sh, t, Got(a, r))
      else (Free(sh, p.addr), Purge(a, if p.addr in sh.heap then sh.heap[p.addr].next else Null, r))
    case LateAppend(a, r) => Return(AppendDelayed(sh), t, Got(a, r))
    case Append(a, r) => (AppendDelayed(sh), DecSlow(a, r))
    case DecSlow(a, r) => Return(sh.(poping := sh.poping - 1), t, Got(a, r))
  }

  /** What one event does to the shared state and to the thread that it belongs to. */
  function Step<T>(sh: Shared<T>, t: nat, pc: Pc<T>, act: Action<T>): (Shared<T>, Pc<T>) {
    match act
    case StartPush(v, a) =>
      if pc.Idle? && a !in sh.heap
      then
        (sh.(heap := sh.heap[a := Node(sh.zero, Null)], history := sh.history + [Called(t, CallPush(v))]), PushLoad(a, v))
      else (sh, pc)
    case StartPop =>
      if pc.Idle? then (sh.(poping := sh.poping + 1, history := sh.history + [Called(t, CallPop)]), PopLoad)
      else (sh, pc)
    case Go(spurious) =>
      if pc.Idle? then (sh, pc)
      else if pc.PushLoad? || pc.PushCas? || pc.PushReturn? then PushStep(sh, t, pc, spurious)
      else if HasResult(pc) then RecycleStep(sh, t, pc)
      else PopStep(sh, t, pc, spurious)
  }

  /** Events of unknown threads are ignored. */
  function Exec<T>(s: State<T>, e: Event<T>): State<T> {
    if e.tid !in s.pc then s
    else var (sh, pc) := Step(s.sh, e.tid, s.pc[e.tid], e.action); State(sh, s.pc[e.tid := pc])
  }

  function Run<T>(s: State<T>, es: seq<Event<T>>): State<T> {
    if es == [] then s else Exec(Run(s, es[..|es| - 1]), es[|es| - 1])
  }

  // ----- the sequential stack that the operations linearize to -----

  datatype Replayed = Illegal | Legal(stack: seq<nat>)

  function Apply<T>(r: Replayed, op: Op<T>): Replayed {
    if r.Illegal? then Illegal else
    match op
    case Pushed(_, n, _) => Legal([n] + r.stack)
    case Popped(_, n) => if r.stack != [] && r.stack[0] == n then Legal(r.stack[1..]) else Illegal
    case FoundEmpty(_) => if r.stack == [] then r else Illegal
    case _ => r
  }

  /** A legal history of a last-in first-out stack of nodes, and what it leaves on the stack. */
  function Replay<T>(ops: seq<Op<T>>): Replayed {
    if ops == [] then Legal([]) else Apply(Replay(ops[..|ops| - 1]), ops[|ops| - 1])
  }

  /** A pointer to the i-th node of st, null past the end. */
  function PointerTo(st: seq<nat>, i: nat): Ptr {
    if i < |st| then At(st[i]) else Null
  }

  /** The nodes reached from p through next_node are exactly st, in order. */
  ghost predicate Linked<T>(heap: map<nat, Node<T>>, p: Ptr, st: seq<nat>) {
    && p == PointerTo(st, 0)
    && (forall i :: 0 <= i < |st| ==> st[i] in heap && heap[st[i]].next == PointerTo(st, i + 1))
  }

  ghost predicate Distinct(st: seq<nat>) {
    forall i, j :: 0 <= i < j < |st| ==> st[i] != st[j]
  }

  // ----- roles of a thread -----

  predicate Popping<T>(pc: Pc<T>) {
    match pc
    case Idle => false
    case PushLoad(_, _) => false
    case PushCas(_, _) => false
    case PushReturn(_, _) => false
    case Purge(_, _, _) => false
    case LateAppend(_, _) => false
    case _ => true
  }

  /** A pusher's node before it is published, or a node unlinked and not yet disposed of. */
  function Owned<T>(pc: Pc<T>): Ptr {
    match pc
    case PushLoad(a, _) => At(a)
    case PushCas(a, _) => At(a)
    case PopData(a) => At(a)
    case Check(a, _) => At(a)
    case Delete(a, _) => At(a)
    case Append(a, _) => At(a)
    case _ => Null
  }

  /** A node this thread read from head_node_ and will dereference or compare with. */
  function Held<T>(pc: Pc<T>): Ptr {
    match pc
    case PopNext(a) => At(a)
    case PopCas(a, _) => At(a)
    case _ => Null
  }

  /** The node this thread's next operation reads, writes or deletes. */
  function Touched<T>(pc: Pc<T>): Ptr {
    match pc
    case PushLoad(a, _) => At(a)
    case PushCas(a, _) => At(a)
    case PopNext(a) => At(a)
    case PopData(a) => At(a)
    case Delete(a, _) => At(a)
    case Purge(_, p, _) => p
    case _ => Null
  }

  predicate HasResult<T>(pc: Pc<T>) {
    || pc.Check? || pc.Delete? || pc.LoadDelay? || pc.DecFast?
    || pc.Purge? || pc.LateAppend? || pc.Append? || pc.DecSlow?
  }

  // ----- the invariant: a shared part, a part per thread, a part per pair of threads -----

  ghost predicate GivesZero<T>(sh: Shared<T>, op: Op<T>) {
    op.Returned? && op.answer.Got? ==> op.answer.value == sh.zero
  }

  ghost predicate SharedOk<T>(sh: Shared<T>, st: seq<nat>) {
    && sh.faults == 0 && sh.delay == Null
    && Replay(sh.history) == Legal(st) && Linked(sh.heap, sh.head, st) && Distinct(st)
    && (forall a :: a in sh.heap ==> sh.heap[a].data == sh.zero)
    && (forall i :: 0 <= i < |sh.history| ==> GivesZero(sh, sh.history[i]))
  }

  ghost predicate LocalOk<T>(sh: Shared<T>, st: seq<nat>, pc: Pc<T>) {
    && (Owned(pc).At? ==> Owned(pc).addr in sh.heap && Owned(pc).addr !in st)
    && (Held(pc).At? ==> Held(pc).addr in sh.heap)
    && (pc.PopCas? && pc.node in st && pc.node in sh.heap ==> sh.heap[pc.node].next == pc.next)
    && (pc.DecFast? ==> pc.delayed == Null)
    && (pc.Purge? ==> pc.cursor == Null)
    && (HasResult(pc) ==> pc.res == sh.zero)
  }

  /** Two threads never own one node, and nobody holds what another will publish or delete. */
  ghost predicate Apart<T>(p: Pc<T>, q: Pc<T>) {
    Owned(p).At? ==>
      && Owned(q) != Owned(p)
      && (p.PushLoad? || p.PushCas? || p.Delete? ==> Held(q) != Owned(p))
  }

  ghost predicate Inv<T>(s: State<T>) {
    && Replay(s.sh.history).Legal?
    && SharedOk(s.sh, Replay(s.sh.history).stack)
    && s.sh.poping == Count(s.pc, Popping)
    && (forall t :: t in s.pc ==> LocalOk(s.sh, Replay(s.sh.history).stack, s.pc[t]))
    && (forall t, u :: t in s.pc && u in s.pc && t != u ==> Apart(s.pc[t], s.pc[u]))
  }

  lemma ReplayAppend<T>(ops: seq<Op<T>>, op: Op<T>)
    ensures Replay(ops + [op]) == Apply(Replay(ops), op)
  {
    assert (ops + [op])[..|ops|] == ops;
  }

  /** What a step leaves on the abstract stack. */
  ghost function StackAfter<T>(sh: Shared<T>, st: seq<nat>, sh': Shared<T>): seq<nat> {
    if |sh'.history| != |sh.history| + 1 then st
    else
      match sh'.history[|sh.history|]
      case Pushed(_, n, _) => [n] + st
      case Popped(_, _) => if st == [] then [] else st[1..]
      case _ => st
  }

  ghost predicate KeepsShared<T>(sh: Shared<T>, st: seq<nat>, pc: Pc<T>, r: (Shared<T>, Pc<T>)) {
    SharedOk(r.0, StackAfter(sh, st, r.0)) && LocalOk(r.0, StackAfter(sh, st, r.0), r.1)
  }

  /** Every operation that is not a counter update leaves the number of poppers alone. */
  lemma StepCounts<T>(sh: Shared<T>, t: nat, pc: Pc<T>, act: Action<T>)
    ensures Step(sh, t, pc, act).0.poping + (if Popping(pc) then 1 else 0)
      == sh.poping + (if Popping(Step(sh, t, pc, act).1) then 1 else 0)
  {
  }

  lemma LinkedFrame<T>(heap: map<nat, Node<T>>, heap': map<nat, Node<T>>, p: Ptr, st: seq<nat>)
    requires Linked(heap, p, st)
    requires forall i :: 0 <= i < |st| ==> st[i] in heap' && heap'[st[i]] == heap[st[i]]
    ensures Linked(heap', p, st)
  {
  }

  lemma LinkedRest<T>(heap: map<nat, Node<T>>, p: Ptr, st: seq<nat>)
    requires Linked(heap, p, st) && st != [] && Distinct(st)
    ensures Linked(heap, heap[st[0]].next, st[1..]) && Distinct(st[1..]) && st[0] !in st[1..]
  {
  }

  lemma LinkedPush<T>(heap: map<nat, Node<T>>, p: Ptr, st: seq<nat>, a: nat)
    requires Linked(heap, p, st) && Distinct(st) && a in heap && heap[a].next == p && a !in st
    ensures Linked(heap, At(a), [a] + st) && Distinct([a] + st)
  {
  }

  lemma NewNodeOffList<T>(sh: Shared<T>, st: seq<nat>, a: nat)
    requires Linked(sh.heap, sh.head, st) && a !in sh.heap
    ensures Linked(sh.heap[a := Node(sh.zero, Null)], sh.head, st) && a !in st
  {
  }

  lemma StartKeepsShared<T>(sh: Shared<T>, t: nat, st: seq<nat>, pc: Pc<T>, act: Action<T>)
    requires SharedOk(sh, st) && LocalOk(sh, st, pc) && !act.Go?
    ensures KeepsShared(sh, st, pc, Step(sh, t, pc, act))
  {
    hide Replay, Linked, Distinct;
    if act.StartPush? {
      ReplayAppend(sh.history, Called(t, CallPush(act.arg)));
      if act.addr !in sh.heap {
        NewNodeOffList(sh, st, act.addr);
      }
    } else {
      ReplayAppend(sh.history, Called(t, CallPop));
    }
  }

  lemma PublishKeepsShared<T>(sh: Shared<T>, t: nat, st: seq<nat>, pc: Pc<T>)
    requires SharedOk(sh, st) && LocalOk(sh, st, pc) && pc.PushCas? && sh.head == sh.heap[pc.mine].next
    ensures KeepsShared(sh, st, pc, PushStep(sh, t, pc, false))
  {
    hide Replay, Linked, Distinct;
    ReplayAppend(sh.history, Pushed(t, pc.mine, pc.arg));
    LinkedPush(sh.heap, sh.head, st, pc.mine);
  }

  lemma PushKeepsShared<T>(sh: Shared<T>, t: nat, st: seq<nat>, pc: Pc<T>, spurious: bool)
    requires SharedOk(sh, st) && LocalOk(sh, st, pc) && (pc.PushLoad? || pc.PushCas? || pc.PushReturn?)
    ensures KeepsShared(sh, st, pc, PushStep(sh, t, pc, spurious))
  {
    hide Replay, Distinct;
    if pc.PushReturn? {
      ReplayAppend(sh.history, Returned(t, Done));
    } else if pc.PushCas? && sh.head == sh.heap[pc.mine].next && !spurious {
      PublishKeepsShared(sh, t, st, pc);
    } else {
      LinkedFrame(sh.heap, LinkTo(sh, pc.mine, sh.head).heap, sh.head, st);
    }
  }

  lemma UnlinkKeepsShared<T>(sh: Shared<T>, t: nat, st: seq<nat>, pc: Pc<T>)
    requires SharedOk(sh, st) && LocalOk(sh, st, pc) && pc.PopCas? && sh.head == At(pc.node)
    ensures KeepsShared(sh, st, pc, PopStep(sh, t, pc, false))
  {
    hide Replay;
    ReplayAppend(sh.history, Popped(t, pc.node));
    LinkedRest(sh.heap, sh.head, st);
  }

  lemma PopKeepsShared<T>(sh: Shared<T>, t: nat, st: seq<nat>, pc: Pc<T>, spurious: bool)
    requires SharedOk(sh, st) && LocalOk(sh, st, pc)
    requires pc.PopLoad? || pc.PopEmpty? || pc.PopNext? || pc.PopCas? || pc.PopData?
    ensures KeepsShared(sh, st, pc, PopStep(sh, t, pc, spurious))
  {
    hide Replay, Distinct, Linked;
    if pc.PopLoad? {
      EmptyKeepsShared(sh, t, st, pc);
    } else if pc.PopEmpty? {
      ReplayAppend(sh.history, Returned(t, Nothing));
    } else if pc.PopCas? && sh.head == At(pc.node) && !spurious {
      UnlinkKeepsShared(sh, t, st, pc);
    }
  }

  lemma EmptyKeepsShared<T>(sh: Shared<T>, t: nat, st: seq<nat>, pc: Pc<T>)
    requires SharedOk(sh, st) && LocalOk(sh, st, pc) && pc.PopLoad?
    ensures KeepsShared(sh, st, pc, PopStep(sh, t, pc, false)) && KeepsShared(sh, st, pc, PopStep(sh, t, pc, true))
  {
    hide Replay, Distinct;
    ReplayAppend(sh.history, FoundEmpty(t));
  }

  lemma DeleteKeepsShared<T>(sh: Shared<T>, t: nat, st: seq<nat>, pc: Pc<T>)
    requires SharedOk(sh, st) && LocalOk(sh, st, pc) && pc.Delete?
    ensures KeepsShared(sh, st, pc, RecycleStep(sh, t, pc))
  {
    hide Replay;
    LinkedFrame(sh.heap, sh.heap - {pc.node}, sh.head, st);
  }

  lemma RecycleKeepsShared<T>(sh: Shared<T>, t: nat, st: seq<nat>, pc: Pc<T>)
    requires SharedOk(sh, st) && LocalOk(sh, st, pc) && HasResult(pc)
    ensures KeepsShared(sh, st, pc, RecycleStep(sh, t, pc))
  {
    hide Replay, Linked, Distinct;
    if pc.Delete? {
      DeleteKeepsShared(sh, t, st, pc);
    } else {
      RecycleKeepsLists(sh, t, st, pc);
      ReplayAppend(sh.history, Returned(t, Got(pc.node, pc.res)));
    }
  }

  lemma StepKeepsShared<T>(sh: Shared<T>, t: nat, st: seq<nat>, pc: Pc<T>, act: Action<T>)
    requires SharedOk(sh, st) && LocalOk(sh, st, pc)
    ensures KeepsShared(sh, st, pc, Step(sh, t, pc, act))
  {
    if !act.Go? {
      StartKeepsShared(sh, t, st, pc, act);
    } else if pc.Idle? {
    } else if pc.PushLoad? || pc.PushCas? || pc.PushReturn? {
      PushKeepsShared(sh, t, st, pc, act.spurious);
    } else if HasResult(pc) {
      RecycleKeepsShared(sh, t, st, pc);
    } else {
      PopKeepsShared(sh, t, st, pc, act.spurious);
    }
  }

  ghost predicate KeepsOther<T>(sh: Shared<T>, st: seq<nat>, r: (Shared<T>, Pc<T>), other: Pc<T>) {
    LocalOk(r.0, StackAfter(sh, st, r.0), other) && Apart(r.1, other) && Apart(other, r.1)
  }

  lemma StartKeepsOther<T>(sh: Shared<T>, t: nat, st: seq<nat>, pc: Pc<T>, act: Action<T>, other: Pc<T>)
    requires SharedOk(sh, st) && LocalOk(sh, st, pc) && LocalOk(sh, st, other) && !act.Go?
    requires Apart(pc, other) && Apart(other, pc)
    ensures KeepsOther(sh, st, Step(sh, t, pc, act), other)
  {
    hide Replay, Linked, Distinct;
  }

  lemma PushKeepsOther<T>(sh: Shared<T>, t: nat, st: seq<nat>, pc: Pc<T>, spurious: bool, other: Pc<T>)
    requires SharedOk(sh, st) && LocalOk(sh, st, pc) && (pc.PushLoad? || pc.PushCas? || pc.PushReturn?)
    requires LocalOk(sh, st, other) && Apart(pc, other) && Apart(other, pc)
    ensures KeepsOther(sh, st, PushStep(sh, t, pc, spurious), other)
  {
  }

  lemma UnlinkKeepsOther<T>(sh: Shared<T>, t: nat, st: seq<nat>, pc: Pc<T>, other: Pc<T>)
    requires SharedOk(sh, st) && LocalOk(sh, st, pc) && pc.PopCas? && sh.head == At(pc.node)
    requires LocalOk(sh, st, other) && Apart(pc, other) && Apart(other, pc)
    ensures KeepsOther(sh, st, PopStep(sh, t, pc, false), other)
  {
    hide Replay;
  }

  predicate Unlinks<T>(sh: Shared<T>, pc: Pc<T>, spurious: bool) {
    pc.PopCas? && sh.head == At(pc.node) && !spurious
  }

  /** Apart from the compare-exchange that succeeds, pop changes neither memory nor the stack. */
  lemma PopKeepsLists<T>(sh: Shared<T>, t: nat, st: seq<nat>, pc: Pc<T>, spurious: bool)
    requires pc.PopLoad? || pc.PopEmpty? || pc.PopNext? || pc.PopCas? || pc.PopData?
    requires LocalOk(sh, st, pc) && !Unlinks(sh, pc, spurious)
    ensures var sh' := PopStep(sh, t, pc, spurious).0;
      sh'.heap == sh.heap && sh'.zero == sh.zero && StackAfter(sh, st, sh') == st
  {
  }

  lemma PopKeepsApart<T>(sh: Shared<T>, t: nat, pc: Pc<T>, spurious: bool, other: Pc<T>)
    requires pc.PopLoad? || pc.PopEmpty? || pc.PopNext? || pc.PopCas? || pc.PopData?
    requires Apart(pc, other) && Apart(other, pc) && !Unlinks(sh, pc, spurious)
    requires sh.head.At? ==> sh.head != Owned(other)
    ensures Apart(PopStep(sh, t, pc, spurious).1, other) && Apart(other, PopStep(sh, t, pc, spurious).1)
  {
  }

  lemma PopKeepsOther<T>(sh: Shared<T>, t: nat, st: seq<nat>, pc: Pc<T>, spurious: bool, other: Pc<T>)
    requires SharedOk(sh, st) && LocalOk(sh, st, pc)
    requires pc.PopLoad? || pc.PopEmpty? || pc.PopNext? || pc.PopCas? || pc.PopData?
    requires LocalOk(sh, st, other) && Apart(pc, other) && Apart(other, pc)
    ensures KeepsOther(sh, st, PopStep(sh, t, pc, spurious), other)
  {
    hide SharedOk, LocalOk, Apart, PopStep, StackAfter;
    if Unlinks(sh, pc, spurious) {
      UnlinkKeepsOther(sh, t, st, pc, other);
    } else {
      HeadNotOwned(sh, st, other);
      PopKeepsLists(sh, t, st, pc, spurious);
      SameListsSameLocal(sh, st, PopStep(sh, t, pc, spurious).0, other);
      PopKeepsApart(sh, t, pc, spurious, other);
    }
  }

  lemma HeadNotOwned<T>(sh: Shared<T>, st: seq<nat>, other: Pc<T>)
    requires SharedOk(sh, st) && LocalOk(sh, st, other)
    ensures sh.head.At? ==> sh.head != Owned(other)
  {
  }

  /** Deleting is safe because a count of one excludes every other popper. */
  lemma DeleteKeepsOther<T>(sh: Shared<T>, t: nat, st: seq<nat>, pc: Pc<T>, other: Pc<T>)
    requires LocalOk(sh, st, pc) && pc.Delete? && LocalOk(sh, st, other)
    requires Apart(pc, other) && Apart(other, pc)
    ensures KeepsOther(sh, st, RecycleStep(sh, t, pc), other)
  {
  }

  lemma RecycleKeepsOther<T>(sh: Shared<T>, t: nat, st: seq<nat>, pc: Pc<T>, other: Pc<T>)
    requires SharedOk(sh, st) && LocalOk(sh, st, pc) && HasResult(pc)
    requires LocalOk(sh, st, other) && Apart(pc, other) && Apart(other, pc)
    requires sh.poping == 1 && Popping(pc) ==> !Popping(other)
    ensures KeepsOther(sh, st, RecycleStep(sh, t, pc), other)
  {
    hide SharedOk, Apart, LocalOk, RecycleStep, StackAfter;
    if pc.Delete? {
      DeleteKeepsOther(sh, t, st, pc, other);
    } else {
      NoDelayed(sh, st);
      RecycleKeepsLists(sh, t, st, pc);
      ReturnKeepsStack(sh, t, st, pc);
      SameListsSameLocal(sh, st, RecycleStep(sh, t, pc).0, other);
      CheckKeepsApart(sh, t, pc, other);
    }
  }

  /** Apart from the delete, try_recycle changes neither memory nor the stack. */
  lemma RecycleKeepsLists<T>(sh: Shared<T>, t: nat, st: seq<nat>, pc: Pc<T>)
    requires HasResult(pc) && !pc.Delete? && LocalOk(sh, st, pc) && sh.delay == Null
    ensures var sh' := RecycleStep(sh, t, pc).0;
      && sh'.heap == sh.heap && sh'.zero == sh.zero
      && (sh'.history == sh.history || sh'.history == sh.history + [Returned(t, Got(pc.node, pc.res))])
  {
  }

  lemma ReturnKeepsStack<T>(sh: Shared<T>, t: nat, st: seq<nat>, pc: Pc<T>)
    requires HasResult(pc) && !pc.Delete? && LocalOk(sh, st, pc) && sh.delay == Null
    ensures StackAfter(sh, st, RecycleStep(sh, t, pc).0) == st
  {
  }

  lemma SameListsSameLocal<T>(sh: Shared<T>, st: seq<nat>, sh': Shared<T>, other: Pc<T>)
    requires LocalOk(sh, st, other) && sh'.heap == sh.heap && sh'.zero == sh.zero
    requires StackAfter(sh, st, sh') == st
    ensures LocalOk(sh', StackAfter(sh, st, sh'), other)
  {
  }

  lemma NoDelayed<T>(sh: Shared<T>, st: seq<nat>)
    requires SharedOk(sh, st)
    ensures sh.delay == Null
  {
  }

  /** A node may be deleted only by the one thread that is popping: then nobody else holds it. */
  lemma CheckKeepsApart<T>(sh: Shared<T>, t: nat, pc: Pc<T>, other: Pc<T>)
    requires HasResult(pc) && !pc.Delete? && Apart(pc, other) && Apart(other, pc)
    requires sh.poping == 1 && Popping(pc) ==> !Popping(other)
    ensures Apart(RecycleStep(sh, t, pc).1, other) && Apart(other, RecycleStep(sh, t, pc).1)
  {
  }

  lemma StepKeepsOther<T>(sh: Shared<T>, t: nat, st: seq<nat>, pc: Pc<T>, act: Action<T>, other: Pc<T>)
    requires SharedOk(sh, st) && LocalOk(sh, st, pc) && LocalOk(sh, st, other)
    requires Apart(pc, other) && Apart(other, pc)
    requires sh.poping == 1 && Popping(pc) ==> !Popping(other)
    ensures KeepsOther(sh, st, Step(sh, t, pc, act), other)
  {
    if !act.Go? {
      StartKeepsOther(sh, t, st, pc, act, other);
    } else if pc.Idle? {
    } else if pc.PushLoad? || pc.PushCas? || pc.PushReturn? {
      PushKeepsOther(sh, t, st, pc, act.spurious, other);
    } else if HasResult(pc) {
      RecycleKeepsOther(sh, t, st, pc, other);
    } else {
      PopKeepsOther(sh, t, st, pc, act.spurious, other);
    }
  }

  lemma ExecKeepsInv<T>(s: State<T>, e: Event<T>)
    requires Inv(s)
    ensures Inv(Exec(s, e))
  {
    if e.tid in s.pc {
      var st := Replay(s.sh.history).stack;
      var s' := Exec(s, e);
      StepKeepsShared(s.sh, e.tid, st, s.pc[e.tid], e.action);
      StepCounts(s.sh, e.tid, s.pc[e.tid], e.action);
      CountUpdate(s.pc, e.tid, s'.pc[e.tid], Popping);
      forall u | u in s.pc && u != e.tid
        ensures LocalOk(s'.sh, StackAfter(s.sh, st, s'.sh), s.pc[u])
        ensures Apart(s'.pc[e.tid], s.pc[u]) && Apart(s.pc[u], s'.pc[e.tid])
      {
        if Popping(s.pc[e.tid]) && s.sh.poping == 1 && Popping(s.pc[u]) {
          CountOne(s.pc, e.tid, u, Popping);
        }
        StepKeepsOther(s.sh, e.tid, st, s.pc[e.tid], e.action, s.pc[u]);
      }
    }
  }

  // ----- theorems about every run -----

  lemma RunAppend<T>(s: State<T>, es: seq<Event<T>>, e: Event<T>)
    ensures Run(s, es + [e]) == Exec(Run(s, es), e)
  {
    assert (es + [e])[..|es|] == es;
  }

  lemma {:induction false} RunKeepsInv<T>(zero: T, threads: set<nat>, es: seq<Event<T>>)
    ensures Inv(Run(Init(zero, threads), es))
  {
    if es == [] {
      CountZero(Init(zero, threads).pc, Popping);
    } else {
      RunKeepsInv(zero, threads, es[..|es| - 1]);
      ExecKeepsInv(Run(Init(zero, threads), es[..|es| - 1]), es[|es| - 1]);
    }
  }

  /** No step of any run reads, writes or deletes a node that is not allocated. */
  lemma NoUseAfterDelete<T>(zero: T, threads: set<nat>, es: seq<Event<T>>, t: nat)
    requires t in threads
    ensures var s := Run(Init(zero, threads), es);
      && s.sh.faults == 0
      && t in s.pc
      && (Touched(s.pc[t]).At? ==> Touched(s.pc[t]).addr in s.sh.heap)
  {
    RunKeepsInv(zero, threads, es);
    RunKeepsThreads(Init(zero, threads), es);
  }

  lemma {:induction false} RunKeepsThreads<T>(s: State<T>, es: seq<Event<T>>)
    ensures Run(s, es).pc.Keys == s.pc.Keys && Run(s, es).sh.zero == s.sh.zero
  {
    if es != [] {
      RunKeepsThreads(s, es[..|es| - 1]);
    }
  }

  /** A node about to be deleted is off the list, and no other thread has it or can get it. */
  lemma DeletedNodeIsUnreachable<T>(zero: T, threads: set<nat>, es: seq<Event<T>>, t: nat, u: nat)
    requires var s := Run(Init(zero, threads), es);
      t in s.pc && u in s.pc && t != u && s.pc[t].Delete?
    ensures var s := Run(Init(zero, threads), es); var a := s.pc[t].node;
      && Replay(s.sh.history).Legal? && a !in Replay(s.sh.history).stack
      && Held(s.pc[u]) != At(a) && Owned(s.pc[u]) != At(a)
      && (forall act :: Held(Step(s.sh, u, s.pc[u], act).1) != At(a))
  {
    RunKeepsInv(zero, threads, es);
    var s := Run(Init(zero, threads), es);
    assert Apart(s.pc[t], s.pc[u]);
    forall act ensures Held(Step(s.sh, u, s.pc[u], act).1) != At(s.pc[t].node) {
      assert s.sh.head != At(s.pc[t].node);
    }
  }

  /** A node that its pusher has not published is not on the list, and no other thread has it. */
  lemma UnpublishedIsPrivate<T>(zero: T, threads: set<nat>, es: seq<Event<T>>, t: nat, u: nat)
    requires var s := Run(Init(zero, threads), es);
      t in s.pc && u in s.pc && t != u && (s.pc[t].PushLoad? || s.pc[t].PushCas?)
    ensures var s := Run(Init(zero, threads), es); var a := s.pc[t].mine;
      && a in s.sh.heap && Replay(s.sh.history).Legal? && a !in Replay(s.sh.history).stack
      && Held(s.pc[u]) != At(a) && Owned(s.pc[u]) != At(a)
  {
    RunKeepsInv(zero, threads, es);
    var s := Run(Init(zero, threads), es);
    assert Apart(s.pc[t], s.pc[u]) && LocalOk(s.sh, Replay(s.sh.history).stack, s.pc[t]);
  }

  /**
   * Linearizability: the effects, in the order in which they happened, are a legal history of one
   * sequential stack, and the list in memory is that stack. Every completed call of every thread
   * has exactly one effect of its own, between its beginning and its return, and its answer is what
   * the sequential stack gives there.
   */
  lemma Linearizable<T>(zero: T, threads: set<nat>, es: seq<Event<T>>)
    ensures forall t :: t in threads ==> CompleteCalls(Run(Init(zero, threads), es), t)
    ensures var s := Run(Init(zero, threads), es);
      && Replay(s.sh.history).Legal?
      && Linked(s.sh.heap, s.sh.head, Replay(s.sh.history).stack)
      && Distinct(Replay(s.sh.history).stack)
      && multiset(PushedNodes(s.sh.history)) == multiset(PoppedNodes(s.sh.history)) + multiset(Replay(s.sh.history).stack)
      && s.sh.poping == Count(s.pc, Popping)
  {
    RunKeepsInv(zero, threads, es);
    LegalConserves(Run(Init(zero, threads), es).sh.history);
    forall t | t in threads ensures CompleteCalls(Run(Init(zero, threads), es), t) {
      EachCallOnce(zero, threads, es, t);
      CallsAreTriples(Run(Init(zero, threads), es).sh.history, t);
    }
  }

  function PushedNodes<T>(ops: seq<Op<T>>): seq<nat> {
    if ops == [] then []
    else PushedNodes(ops[..|ops| - 1]) + if ops[|ops| - 1].Pushed? then [ops[|ops| - 1].node] else []
  }

  function PoppedNodes<T>(ops: seq<Op<T>>): seq<nat> {
    if ops == [] then []
    else PoppedNodes(ops[..|ops| - 1]) + if ops[|ops| - 1].Popped? then [ops[|ops| - 1].node] else []
  }

  /** In a legal history every push of a node is matched by at most one pop of it. */
  lemma {:induction false} LegalConserves<T>(ops: seq<Op<T>>)
    requires Replay(ops).Legal?
    ensures multiset(PushedNodes(ops)) == multiset(PoppedNodes(ops)) + multiset(Replay(ops).stack)
  {
    hide PushedNodes, PoppedNodes, Apply;
    if ops == [] {
      NoNodes<T>();
    } else {
      var front, op := ops[..|ops| - 1], ops[|ops| - 1];
      assert ops == front + [op];
      LegalBefore(front, op);
      LegalConserves(front);
      AppendConserves(front, op);
    }
  }

  lemma NoNodes<T>()
    ensures PushedNodes<T>([]) == [] == PoppedNodes<T>([])
  {
  }

  lemma LegalBefore<T>(ops: seq<Op<T>>, op: Op<T>)
    requires Replay(ops + [op]).Legal?
    ensures Replay(ops).Legal? && Replay(ops + [op]) == Apply(Legal(Replay(ops).stack), op)
  {
    ReplayAppend(ops, op);
  }

  lemma AppendConserves<T>(ops: seq<Op<T>>, op: Op<T>)
    requires Replay(ops).Legal? && Replay(ops + [op]).Legal?
    requires multiset(PushedNodes(ops)) == multiset(PoppedNodes(ops)) + multiset(Replay(ops).stack)
    ensures multiset(PushedNodes(ops + [op]))
      == multiset(PoppedNodes(ops + [op])) + multiset(Replay(ops + [op]).stack)
  {
    hide PushedNodes, PoppedNodes, Replay, Apply, Added, Removed;
    LegalBefore(ops, op);
    ApplyConserves(Replay(ops).stack, op);
    NodesAppend(ops, op);
    BagBalance(multiset(PushedNodes(ops)), multiset(PoppedNodes(ops)), multiset(Replay(ops).stack),
               multiset(Replay(ops + [op]).stack), Added(op), Removed(op));
  }

  function Added<T>(op: Op<T>): multiset<nat> {
    if op.Pushed? then multiset{op.node} else multiset{}
  }

  function Removed<T>(op: Op<T>): multiset<nat> {
    if op.Popped? then multiset{op.node} else multiset{}
  }

  lemma BagBalance(pushed: multiset<nat>, popped: multiset<nat>, left: multiset<nat>, left': multiset<nat>,
                   added: multiset<nat>, removed: multiset<nat>)
    requires pushed == popped + left && left' + removed == left + added
    ensures pushed + added == popped + removed + left'
  {
    assert popped + removed + left' == popped + (left' + removed);
  }

  lemma NodesAppend<T>(ops: seq<Op<T>>, op: Op<T>)
    ensures multiset(PushedNodes(ops + [op])) == multiset(PushedNodes(ops)) + Added(op)
    ensures multiset(PoppedNodes(ops + [op])) == multiset(PoppedNodes(ops)) + Removed(op)
  {
    PoppedAppend(ops, op);
    assert (ops + [op])[..|ops|] == ops;
  }

  lemma ApplyConserves<T>(st: seq<nat>, op: Op<T>)
    requires Apply(Legal(st), op).Legal?
    ensures multiset(Apply(Legal(st), op).stack) + Removed(op) == multiset(st) + Added(op)
  {
    if op.Popped? {
      assert st == [st[0]] + st[1..];
    }
  }

  lemma PoppedAppend<T>(ops: seq<Op<T>>, op: Op<T>)
    ensures PoppedNodes(ops + [op]) == PoppedNodes(ops) + if op.Popped? then [op.node] else []
  {
    assert (ops + [op])[..|ops|] == ops;
  }

  // ----- every call by itself -----

  /** What a thread has announced: nothing, a call, or the call's effect. */
  datatype Phase<T> = Outside | Inside(call: Call<T>) | Decided(op: Op<T>) | Broken

  /** The effect is one that this call can have. */
  ghost predicate Fits<T>(call: Call<T>, op: Op<T>) {
    match op
    case Pushed(_, _, v) => call == CallPush(v)
    case Popped(_, _) => call == CallPop
    case FoundEmpty(_) => call == CallPop
    case _ => false
  }

  /** The answer is what the sequential stack gives for this effect. */
  predicate Answers<T>(op: Op<T>, a: Answer<T>) {
    match op
    case Pushed(_, _, _) => a == Done
    case Popped(_, n) => a.Got? && a.node == n
    case FoundEmpty(_) => a == Nothing
    case _ => false
  }

  ghost function Advance<T>(ph: Phase<T>, op: Op<T>): Phase<T> {
    match op
    case Called(_, c) => if ph.Outside? then Inside(c) else Broken
    case Returned(_, a) => if ph.Decided? && Answers(ph.op, a) then Outside else Broken
    case _ => if ph.Inside? && Fits(ph.call, op) then Decided(op) else Broken
  }

  ghost function PhaseOf<T>(history: seq<Op<T>>, t: nat): Phase<T> {
    if history == [] then Outside
    else
      var last := history[|history| - 1];
      var before := PhaseOf(history[..|history| - 1], t);
      if last.tid == t then Advance(before, last) else before
  }

  /** Where the thread's locals say it is. */
  ghost predicate InPhase<T>(ph: Phase<T>, t: nat, pc: Pc<T>) {
    match pc
    case Idle => ph == Outside
    case PushLoad(_, v) => ph == Inside(CallPush(v))
    case PushCas(_, v) => ph == Inside(CallPush(v))
    case PushReturn(n, v) => ph == Decided(Pushed(t, n, v))
    case PopLoad => ph == Inside(CallPop)
    case PopNext(_) => ph == Inside(CallPop)
    case PopCas(_, _) => ph == Inside(CallPop)
    case PopEmpty => ph == Decided(FoundEmpty(t))
    case _ => ph == Decided(Popped(t, pc.node))
  }

  lemma PhaseAppend<T>(history: seq<Op<T>>, op: Op<T>, t: nat)
    ensures PhaseOf(history + [op], t)
      == if op.tid == t then Advance(PhaseOf(history, t), op) else PhaseOf(history, t)
  {
    assert (history + [op])[..|history|] == history;
  }

  /** A step adds at most one entry to the history, and that in its own thread's name. */
  ghost predicate OneEntry<T>(sh: Shared<T>, t: nat, sh': Shared<T>) {
    || sh'.history == sh.history
    || (|sh'.history| == |sh.history| + 1 && sh'.history == sh.history + [sh'.history[|sh.history|]]
        && sh'.history[|sh.history|].tid == t)
  }

  lemma StepAddsOne<T>(sh: Shared<T>, t: nat, pc: Pc<T>, act: Action<T>)
    ensures OneEntry(sh, t, Step(sh, t, pc, act).0)
  {
  }

  /** The entry is the right one for where the thread was and where it is now. */
  lemma StepAdvances<T>(sh: Shared<T>, t: nat, pc: Pc<T>, act: Action<T>, ph: Phase<T>)
    requires InPhase(ph, t, pc)
    ensures var (sh', pc') := Step(sh, t, pc, act);
      InPhase(if |sh'.history| == |sh.history| + 1 then Advance(ph, sh'.history[|sh.history|]) else ph, t, pc')
  {
  }

  /**
   * Every call separately: what the history holds of a thread is what its locals say, so each
   * completed call has exactly one linearization point of its own, after it began and before it
   * returned, and its answer is the one that the sequential stack gives at that point.
   */
  lemma {:induction false} EachCallOnce<T>(zero: T, threads: set<nat>, es: seq<Event<T>>, t: nat)
    requires t in threads
    ensures var s := Run(Init(zero, threads), es);
      t in s.pc && InPhase(PhaseOf(s.sh.history, t), t, s.pc[t]) && PhaseOf(s.sh.history, t) != Broken
  {
    if es != [] {
      var front, e := es[..|es| - 1], es[|es| - 1];
      EachCallOnce(zero, threads, front, t);
      var s := Run(Init(zero, threads), front);
      if e.tid in s.pc {
        hide Step, InPhase, Advance, PhaseOf;
        StepAddsOne(s.sh, e.tid, s.pc[e.tid], e.action);
        var sh' := Step(s.sh, e.tid, s.pc[e.tid], e.action).0;
        if |sh'.history| == |s.sh.history| + 1 {
          PhaseAppend(s.sh.history, sh'.history[|s.sh.history|], t);
        }
        if e.tid == t {
          StepAdvances(s.sh, t, s.pc[t], e.action, PhaseOf(s.sh.history, t));
        }
      }
    }
    PhaseIsSound(Run(Init(zero, threads), es), t);
  }

  lemma PhaseIsSound<T>(s: State<T>, t: nat)
    ensures t in s.pc && InPhase(PhaseOf(s.sh.history, t), t, s.pc[t]) ==> PhaseOf(s.sh.history, t) != Broken
  {
    hide PhaseOf;
  }

  /** The entries of one thread, in order. */
  function Mine<T>(history: seq<Op<T>>, t: nat): seq<Op<T>> {
    if history == [] then []
    else
      var before := Mine(history[..|history| - 1], t);
      if history[|history| - 1].tid == t then before + [history[|history| - 1]] else before
  }

  /** A call, its effect, its answer. */
  ghost predicate Triple<T>(c: Op<T>, op: Op<T>, r: Op<T>) {
    c.Called? && Fits(c.call, op) && r.Returned? && Answers(op, r.answer)
  }

  ghost predicate Triples<T>(mine: seq<Op<T>>, n: nat) {
    3 * n <= |mine| && forall i :: 0 <= i < n ==> Triple(mine[3 * i], mine[3 * i + 1], mine[3 * i + 2])
  }

  /** What is left after the completed calls is the call under way. */
  ghost predicate Tail<T>(mine: seq<Op<T>>, n: nat, ph: Phase<T>) {
    match ph
    case Outside => |mine| == 3 * n
    case Inside(c) => |mine| == 3 * n + 1 && mine[3 * n].Called? && mine[3 * n].call == c
    case Decided(op) =>
      |mine| == 3 * n + 2 && mine[3 * n].Called? && mine[3 * n + 1] == op && Fits(mine[3 * n].call, op)
    case Broken => false
  }

  /** The thread's part of the history: completed calls, then the one that its locals are in. */
  ghost predicate CompleteCalls<T>(s: State<T>, t: nat) {
    && t in s.pc
    && InPhase(PhaseOf(s.sh.history, t), t, s.pc[t])
    && exists n: nat :: Triples(Mine(s.sh.history, t), n) && Tail(Mine(s.sh.history, t), n, PhaseOf(s.sh.history, t))
  }

  /** What such a phase means for the history: one triple for each completed call, then the call under way. */
  lemma {:induction false} CallsAreTriples<T>(history: seq<Op<T>>, t: nat)
    requires PhaseOf(history, t) != Broken
    ensures exists n: nat :: Triples(Mine(history, t), n) && Tail(Mine(history, t), n, PhaseOf(history, t))
  {
    if history == [] {
      assert Triples(Mine(history, t), 0) && Tail(Mine(history, t), 0, PhaseOf(history, t));
    } else {
      var front, last := history[..|history| - 1], history[|history| - 1];
      CallsAreTriples(front, t);
      var n: nat :| Triples(Mine(front, t), n) && Tail(Mine(front, t), n, PhaseOf(front, t));
      if last.tid == t {
        TripleStep(Mine(front, t), n, PhaseOf(front, t), last);
        var m: nat := if last.Returned? then n + 1 else n;
        assert Triples(Mine(history, t), m) && Tail(Mine(history, t), m, PhaseOf(history, t));
      } else {
        assert Mine(history, t) == Mine(front, t);
        assert Triples(Mine(history, t), n) && Tail(Mine(history, t), n, PhaseOf(history, t));
      }
    }
  }

  lemma TripleStep<T>(mine: seq<Op<T>>, n: nat, ph: Phase<T>, op: Op<T>)
    requires Triples(mine, n) && Tail(mine, n, ph) && Advance(ph, op) != Broken
    ensures var m: nat := if op.Returned? then n + 1 else n;
      Triples(mine + [op], m) && Tail(mine + [op], m, Advance(ph, op))
  {
    var all := mine + [op];
    forall i | 0 <= i < n ensures Triple(all[3 * i], all[3 * i + 1], all[3 * i + 2]) {
      assert Triple(mine[3 * i], mine[3 * i + 1], mine[3 * i + 2]);
    }
  }

  // ----- lock-freedom -----

  datatype Target = Nowhere | Expecting(head: Ptr)

  /** The value of head_node_ that a thread's compare-exchange is going to expect. */
  function Aim<T>(sh: Shared<T>, pc: Pc<T>): Target {
    match pc
    case PushCas(a, _) => if a in sh.heap then Expecting(sh.heap[a].next) else Nowhere
    case PopNext(a) => Expecting(At(a))
    case PopCas(a, _) => Expecting(At(a))
    case _ => Nowhere
  }

  /** Thread t is aiming at x. */
  predicate Aims<T>(s: State<T>, t: nat, x: Ptr) {
    t in s.pc && Aim(s.sh, s.pc[t]) == Expecting(x)
  }

  /** A step of thread u in which its operation takes effect on the list. */
  predicate TakesEffect<T>(s: State<T>, s': State<T>, u: nat) {
    && |s'.sh.history| == |s.sh.history| + 1
    && (s'.sh.history[|s.sh.history|].Pushed? || s'.sh.history[|s.sh.history|].Popped?)
    && s'.sh.history[|s.sh.history|].tid == u
  }

  /** At step j, while t was aiming at x, another thread's push or pop took effect. */
  ghost predicate Overtaken<T>(s0: State<T>, es: seq<Event<T>>, t: nat, x: Ptr, j: nat) {
    && j < |es| && es[j].tid != t
    && TakesEffect(Run(s0, es[..j]), Run(s0, es[..j + 1]), es[j].tid)
    && forall i :: j <= i <= |es| ==> Aims(Run(s0, es[..i]), t, x)
  }

  lemma OvertakenExtends<T>(s0: State<T>, es: seq<Event<T>>, t: nat, x: Ptr, j: nat)
    requires es != [] && Overtaken(s0, es[..|es| - 1], t, x, j) && Aims(Run(s0, es), t, x)
    ensures Overtaken(s0, es, t, x, j)
  {
    var front := es[..|es| - 1];
    assert es[..|es|] == es;
    forall i | 0 <= i <= |front| ensures es[..i] == front[..i] {
    }
  }

  /** Only the thread's own steps change what it is aiming at, and they leave it aiming at the head. */
  lemma OwnAim<T>(sh: Shared<T>, t: nat, pc: Pc<T>, act: Action<T>)
    requires pc.PushLoad? || pc.PushCas? ==> pc.mine in sh.heap
    ensures var (sh', pc') := Step(sh, t, pc, act);
      Aim(sh', pc').Expecting? && Aim(sh', pc').head != sh'.head ==>
        Aim(sh, pc) == Aim(sh', pc') && sh'.head == sh.head
  {
  }

  lemma OthersAim<T>(sh: Shared<T>, u: nat, other: Pc<T>, act: Action<T>, pc: Pc<T>)
    requires Apart(pc, other) && Apart(other, pc) && (pc.PushCas? ==> pc.mine in sh.heap)
    requires Aim(Step(sh, u, other, act).0, pc).Expecting?
    ensures Aim(Step(sh, u, other, act).0, pc) == Aim(sh, pc)
  {
  }

  lemma HeadMoves<T>(sh: Shared<T>, u: nat, other: Pc<T>, act: Action<T>)
    ensures var sh' := Step(sh, u, other, act).0;
      sh'.head != sh.head ==>
        && |sh'.history| == |sh.history| + 1
        && (sh'.history[|sh.history|].Pushed? || sh'.history[|sh.history|].Popped?)
        && sh'.history[|sh.history|].tid == u
  {
  }

  lemma AimStep<T>(s: State<T>, e: Event<T>, t: nat, x: Ptr)
    requires Inv(s) && Aims(Exec(s, e), t, x) && Exec(s, e).sh.head != x
    ensures Aims(s, t, x) && (s.sh.head != x || (e.tid != t && TakesEffect(s, Exec(s, e), e.tid)))
  {
    if e.tid in s.pc {
      assert LocalOk(s.sh, Replay(s.sh.history).stack, s.pc[t]);
      if e.tid == t {
        hide Step;
        OwnAim(s.sh, t, s.pc[t], e.action);
      } else {
        assert Apart(s.pc[t], s.pc[e.tid]) && Apart(s.pc[e.tid], s.pc[t]);
        hide Step, Inv, LocalOk, Apart;
        OthersAim(s.sh, e.tid, s.pc[e.tid], e.action, s.pc[t]);
        HeadMoves(s.sh, e.tid, s.pc[e.tid], e.action);
      }
    }
  }

  /**
   * Lock-freedom: a thread that has read head_node_ and whose compare-exchange cannot succeed any
   * more has been overtaken. Since it read the head, another thread's push or pop has taken effect.
   */
  lemma {:induction false} FailureMeansProgress<T>(zero: T, threads: set<nat>, es: seq<Event<T>>, t: nat, x: Ptr)
    requires var s := Run(Init(zero, threads), es); Aims(s, t, x) && s.sh.head != x
    ensures exists j :: Overtaken(Init(zero, threads), es, t, x, j)
  {
    var s0 := Init(zero, threads);
    NobodyAims(zero, threads, t, x);
    hide Init, Exec, Inv, Aims, TakesEffect, Overtaken;
    var front := es[..|es| - 1];
    RunKeepsInv(zero, threads, front);
    var s := Run(s0, front);
    AimStep(s, es[|es| - 1], t, x);
    if s.sh.head != x {
      FailureMeansProgress(zero, threads, front, t, x);
      var j :| Overtaken(s0, front, t, x, j);
      OvertakenExtends(s0, es, t, x, j);
    } else {
      OvertakenNow(s0, es, t, x);
    }
  }

  lemma NobodyAims<T>(zero: T, threads: set<nat>, t: nat, x: Ptr)
    ensures !Aims(Run(Init(zero, threads), []), t, x)
  {
  }

  lemma OvertakenNow<T>(s0: State<T>, es: seq<Event<T>>, t: nat, x: Ptr)
    requires es != [] && es[|es| - 1].tid != t
    requires Aims(Run(s0, es[..|es| - 1]), t, x) && Aims(Run(s0, es), t, x)
    requires TakesEffect(Run(s0, es[..|es| - 1]), Run(s0, es), es[|es| - 1].tid)
    ensures Overtaken(s0, es, t, x, |es| - 1)
  {
    hide Run, Aims, TakesEffect;
    assert es[..|es|] == es;
  }

  // ----- what push does with its argument -----

  /** `push` builds a default node and drops `value`: every pop of every run returns T{}. */
  lemma PopsReturnDefault<T>(zero: T, threads: set<nat>, es: seq<Event<T>>, i: nat)
    requires var h := Run(Init(zero, threads), es).sh.history; i < |h| && h[i].Returned? && h[i].answer.Got?
    ensures Run(Init(zero, threads), es).sh.history[i].answer.value == zero
  {
    RunKeepsThreads(Init(zero, threads), es);
    RunKeepsInv(zero, threads, es);
  }

  function Gos<T>(t: nat, n: nat): seq<Event<T>> {
    if n == 0 then [] else Gos(t, n - 1) + [Event(t, Go(false))]
  }

  /** n operations of one thread while the others stand still. */
  function Solo<T>(sh: Shared<T>, t: nat, pc: Pc<T>, n: nat): (Shared<T>, Pc<T>)
    decreases n
  {
    if n == 0 then (sh, pc) else var (sh1, pc1) := Step(sh, t, pc, Go(false)); Solo(sh1, t, pc1, n - 1)
  }

  lemma {:induction false} SoloBack<T>(sh: Shared<T>, t: nat, pc: Pc<T>, n: nat)
    ensures Solo(sh, t, pc, n + 1) == Step(Solo(sh, t, pc, n).0, t, Solo(sh, t, pc, n).1, Go(false))
    decreases n
  {
    if n > 0 {
      var (sh1, pc1) := Step(sh, t, pc, Go(false));
      SoloBack(sh1, t, pc1, n - 1);
    }
  }

  lemma {:induction false} RunSolo<T>(s: State<T>, t: nat, n: nat)
    requires t in s.pc
    ensures Run(s, Gos(t, n)) == State(Solo(s.sh, t, s.pc[t], n).0, s.pc[t := Solo(s.sh, t, s.pc[t], n).1])
  {
    if n > 0 {
      RunSolo(s, t, n - 1);
      SoloBack(s.sh, t, s.pc[t], n - 1);
      RunAppend(s, Gos(t, n - 1), Event(t, Go(false)));
    } else {
      assert s.pc[t := s.pc[t]] == s.pc;
    }
  }

  lemma PushAlone<T>(sh: Shared<T>, t: nat, v: T, a: nat)
    requires a in sh.heap
    ensures Solo(sh, t, PushLoad(a, v), 3)
      == (sh.(heap := sh.heap[a := sh.heap[a].(next := sh.head)], head := At(a),
              history := sh.history + [Pushed(t, a, v), Returned(t, Done)]), Idle)
  {
    var sh1 := LinkTo(sh, a, sh.head);
    var sh2 := sh1.(head := At(a), history := sh.history + [Pushed(t, a, v)]);
    assert Solo(sh, t, PushLoad(a, v), 3) == Solo(sh1, t, PushCas(a, v), 2) == Solo(sh2, t, PushReturn(a, v), 1);
    assert sh2.history + [Returned(t, Done)] == sh.history + [Pushed(t, a, v), Returned(t, Done)];
  }

  /** From loading the head to the test of the counter. */
  lemma PopToCheck<T>(sh: Shared<T>, t: nat, n: nat)
    requires sh.head.At? && sh.head.addr in sh.heap
    ensures var a := sh.head.addr;
      Solo(sh, t, PopLoad, n + 4)
      == Solo(sh.(head := sh.heap[a].next, history := sh.history + [Popped(t, a)]), t, Check(a, sh.heap[a].data), n)
  {
    var a := sh.head.addr;
    var sh1 := sh.(head := sh.heap[a].next, history := sh.history + [Popped(t, a)]);
    assert Solo(sh, t, PopLoad, n + 4) == Solo(sh, t, PopNext(a), n + 3);
    assert Solo(sh, t, PopNext(a), n + 3) == Solo(sh, t, PopCas(a, sh.heap[a].next), n + 2);
    assert Solo(sh, t, PopCas(a, sh.heap[a].next), n + 2) == Solo(sh1, t, PopData(a), n + 1);
  }

  /** The fast path of try_recycle by the only popper: the node is freed and the value returned. */
  lemma RecycleAlone<T>(sh: Shared<T>, t: nat, a: nat, r: T)
    requires sh.poping == 1 && a in sh.heap && sh.delay == Null
    ensures Solo(sh, t, Check(a, r), 5)
      == (sh.(heap := sh.heap - {a}, poping := 0, history := sh.history + [Returned(t, Got(a, r))]), Idle)
  {
    var sh1 := Free(sh, a);
    assert Solo(sh, t, Check(a, r), 5) == Solo(sh, t, Delete(a, r), 4) == Solo(sh1, t, LoadDelay(a, r), 3);
    assert Solo(sh1, t, LoadDelay(a, r), 3) == Solo(sh1, t, DecFast(a, r, Null), 2);
    assert Solo(sh1, t, DecFast(a, r, Null), 2) == Solo(sh1.(poping := 0), t, Purge(a, Null, r), 1);
    assert Solo(sh1.(poping := 0), t, Purge(a, Null, r), 1) == Return(sh1.(poping := 0), t, Got(a, r));
  }

  function PushEntries<T>(t: nat, v: T, a: nat): seq<Op<T>> {
    [Called(t, CallPush(v)), Pushed(t, a, v), Returned(t, Done)]
  }

  function PopEntries<T>(t: nat, a: nat, r: T): seq<Op<T>> {
    [Called(t, CallPop), Popped(t, a), Returned(t, Got(a, r))]
  }

  lemma PopAlone<T>(sh: Shared<T>, t: nat)
    requires sh.poping == 1 && sh.delay == Null && sh.head.At? && sh.head.addr in sh.heap
    ensures var a := sh.head.addr; var node := sh.heap[a];
      Solo(sh, t, PopLoad, 9)
      == (sh.(heap := sh.heap - {a}, head := node.next, poping := 0,
              history := sh.history + [Popped(t, a), Returned(t, Got(a, node.data))]), Idle)
  {
    hide Solo, Step;
    var a := sh.head.addr;
    PopToCheck(sh, t, 5);
    RecycleAlone(sh.(head := sh.heap[a].next, history := sh.history + [Popped(t, a)]), t, a, sh.heap[a].data);
    assert sh.history + [Popped(t, a)] + [Returned(t, Got(a, sh.heap[a].data))]
      == sh.history + [Popped(t, a), Returned(t, Got(a, sh.heap[a].data))];
  }

  lemma PushFrom<T>(s: State<T>, t: nat, v: T, a: nat)
    requires t in s.pc && s.pc[t] == Idle && a !in s.sh.heap
    ensures Run(Exec(s, Event(t, StartPush(v, a))), Gos(t, 3))
      == State(s.sh.(heap := s.sh.heap[a := Node(s.sh.zero, s.sh.head)], head := At(a),
                     history := s.sh.history + PushEntries(t, v, a)),
               s.pc)
  {
    var started := State(s.sh.(heap := s.sh.heap[a := Node(s.sh.zero, Null)],
                               history := s.sh.history + [Called(t, CallPush(v))]), s.pc[t := PushLoad(a, v)]);
    assert Exec(s, Event(t, StartPush(v, a))) == started;
    hide Exec, Step, Run, Gos, Solo;
    RunSolo(started, t, 3);
    PushAlone(started.sh, t, v, a);
    assert started.sh.history + [Pushed(t, a, v), Returned(t, Done)] == s.sh.history + PushEntries(t, v, a);
    assert s.pc == s.pc[t := Idle];
  }

  lemma PopFrom<T>(s: State<T>, t: nat)
    requires t in s.pc && s.pc[t] == Idle && s.sh.poping == 0 && s.sh.delay == Null
    requires s.sh.head.At? && s.sh.head.addr in s.sh.heap
    ensures var a := s.sh.head.addr; var node := s.sh.heap[a];
      Run(Exec(s, Event(t, StartPop)), Gos(t, 9))
      == State(s.sh.(heap := s.sh.heap - {a}, head := node.next,
                     history := s.sh.history + PopEntries(t, a, node.data)),
               s.pc)
  {
    var started := State(s.sh.(poping := 1, history := s.sh.history + [Called(t, CallPop)]), s.pc[t := PopLoad]);
    assert Exec(s, Event(t, StartPop)) == started;
    var a := s.sh.head.addr;
    assert started.sh.history + [Popped(t, a), Returned(t, Got(a, s.sh.heap[a].data))]
      == s.sh.history + PopEntries(t, a, s.sh.heap[a].data);
    hide Exec, Step, Run, Gos, Solo, PopEntries;
    RunSolo(started, t, 9);
    PopAlone(started.sh, t);
    assert s.pc == s.pc[t := Idle];
  }

  lemma InvNoDelayed<T>(s: State<T>)
    requires Inv(s)
    ensures s.sh.delay == Null
  {
  }

  /**
   * In every reachable state with nobody popping, a push followed at once by a pop of the same
   * thread returns the pushed value only when that value is T{}; memory and list are as before.
   */
  lemma PopReturnsPushedIffDefault<T>(zero: T, threads: set<nat>, es: seq<Event<T>>, t: nat, v: T, a: nat)
    requires var s := Run(Init(zero, threads), es);
      t in s.pc && s.pc[t] == Idle && s.sh.poping == 0 && a !in s.sh.heap
    ensures var s := Run(Init(zero, threads), es);
      var s1 := Run(Exec(s, Event(t, StartPush(v, a))), Gos(t, 3));
      var s2 := Run(Exec(s1, Event(t, StartPop)), Gos(t, 9));
      && s2.sh.history == s.sh.history + PushEntries(t, v, a) + PopEntries(t, a, zero)
      && (Returned(t, Got(a, v)) == s2.sh.history[|s2.sh.history| - 1] <==> v == zero)
      && s2.sh.heap == s.sh.heap && s2.sh.head == s.sh.head && s2.pc == s.pc
  {
    hide Inv, Run, Exec, Gos;
    RunKeepsInv(zero, threads, es);
    RunKeepsThreads(Init(zero, threads), es);
    var s := Run(Init(zero, threads), es);
    InvNoDelayed(s);
    PushFrom(s, t, v, a);
    PopFrom(Run(Exec(s, Event(t, StartPush(v, a))), Gos(t, 3)), t);
    assert s.sh.heap == s.sh.heap[a := Node(zero, s.sh.head)] - {a};
  }

  // ----- a thread left alone finishes -----

  /** How many operations of its own a thread needs to the end of its call, if nobody interferes. */
  function StepsLeft<T>(sh: Shared<T>, pc: Pc<T>): nat {
    match pc
    case Idle => 0
    case PushReturn(_, _) => 1
    case PushCas(a, _) => if a in sh.heap && sh.heap[a].next == sh.head then 2 else 4
    case PushLoad(_, _) => 3
    case PopEmpty => 1
    case DecSlow(_, _) => 1
    case Append(_, _) => 2
    case LateAppend(_, _) => 1
    case Purge(_, _, _) => 1
    case DecFast(_, _, _) => 2
    case LoadDelay(_, _) => 3
    case Delete(_, _) => 4
    case Check(_, _) => 5
    case PopData(_) => 6
    case PopCas(a, _) => if sh.head == At(a) then 7 else 10
    case PopNext(a) => if sh.head == At(a) then 8 else 11
    case PopLoad => 9
  }

  lemma PushStepsLess<T>(sh: Shared<T>, t: nat, st: seq<nat>, pc: Pc<T>)
    requires LocalOk(sh, st, pc) && (pc.PushLoad? || pc.PushCas? || pc.PushReturn?)
    ensures var (sh', pc') := PushStep(sh, t, pc, false); StepsLeft(sh', pc') < StepsLeft(sh, pc)
  {
  }

  lemma PopStepsLess<T>(sh: Shared<T>, t: nat, st: seq<nat>, pc: Pc<T>)
    requires LocalOk(sh, st, pc) && (pc.PopData? ==> pc.node in sh.heap)
    requires pc.PopLoad? || pc.PopEmpty? || pc.PopNext? || pc.PopCas? || pc.PopData?
    ensures var (sh', pc') := PopStep(sh, t, pc, false); StepsLeft(sh', pc') < StepsLeft(sh, pc)
  {
  }

  lemma RecycleStepsLess<T>(sh: Shared<T>, t: nat, st: seq<nat>, pc: Pc<T>)
    requires LocalOk(sh, st, pc) && HasResult(pc) && sh.delay == Null
    ensures var (sh', pc') := RecycleStep(sh, t, pc); StepsLeft(sh', pc') < StepsLeft(sh, pc)
  {
  }

  lemma StepsLess<T>(s: State<T>, t: nat)
    requires Inv(s) && t in s.pc && s.pc[t] != Idle
    ensures var (sh', pc') := Step(s.sh, t, s.pc[t], Go(false)); StepsLeft(sh', pc') < StepsLeft(s.sh, s.pc[t])
  {
    var st := Replay(s.sh.history).stack;
    InvNoDelayed(s);
    assert LocalOk(s.sh, st, s.pc[t]);
    hide Inv, StepsLeft, PushStep, PopStep, RecycleStep;
    if s.pc[t].PushLoad? || s.pc[t].PushCas? || s.pc[t].PushReturn? {
      PushStepsLess(s.sh, t, st, s.pc[t]);
    } else if HasResult(s.pc[t]) {
      RecycleStepsLess(s.sh, t, st, s.pc[t]);
    } else {
      PopStepsLess(s.sh, t, st, s.pc[t]);
    }
  }

  lemma {:induction false} AloneToIdle<T>(s: State<T>, t: nat, n: nat)
    requires Inv(s) && t in s.pc && StepsLeft(s.sh, s.pc[t]) <= n
    ensures Solo(s.sh, t, s.pc[t], n).1 == Idle
    decreases n
  {
    if n > 0 {
      var s' := Exec(s, Event(t, Go(false)));
      ExecKeepsInv(s, Event(t, Go(false)));
      if s.pc[t] != Idle {
        StepsLess(s, t);
      }
      hide Inv;
      AloneToIdle(s', t, n - 1);
    }
  }

  /**
   * In every reachable state, wherever it stands and however stale what it has read, a thread
   * left alone is out of `push` after at most four operations and out of `pop` after at most
   * eleven, unless a compare-exchange fails spuriously.
   */
  lemma LeftAloneFinishes<T>(zero: T, threads: set<nat>, es: seq<Event<T>>, t: nat)
    requires t in threads
    ensures var s := Run(Init(zero, threads), es);
      && t in s.pc
      && Solo(s.sh, t, s.pc[t], 11).1 == Idle
      && (s.pc[t].PushLoad? || s.pc[t].PushCas? || s.pc[t].PushReturn? ==> Solo(s.sh, t, s.pc[t], 4).1 == Idle)
  {
    RunKeepsInv(zero, threads, es);
    RunKeepsThreads(Init(zero, threads), es);
    var s := Run(Init(zero, threads), es);
    hide Inv, Run, Solo;
    AloneToIdle(s, t, 11);
    if s.pc[t].PushLoad? || s.pc[t].PushCas? || s.pc[t].PushReturn? {
      AloneToIdle(s, t, 4);
    }
  }

  /** A compare-exchange of push takes effect or leaves the current head as the next expected value. */
  lemma ExchangeOrReload<T>(sh: Shared<T>, t: nat, a: nat, v: T, spurious: bool)
    requires a in sh.heap
    ensures var (sh', pc') := PushStep(sh, t, PushCas(a, v), spurious);
      if sh.head == sh.heap[a].next && !spurious then sh'.head == At(a) && pc' == PushReturn(a, v)
      else sh'.head == sh.head && a in sh'.heap && sh'.heap[a].next == sh.head && pc' == PushLoad(a, v)
  {
  }

  // ----- the delay list, whatever is on it -----

  function Elements(st: seq<nat>): set<nat> {
    set i | 0 <= i < |st| :: st[i]
  }

  /** delete_delay_nodes frees every node of the list that it is given, and no other. */
  lemma {:induction false} PurgeFreesAll<T>(sh: Shared<T>, t: nat, a: nat, p: Ptr, st: seq<nat>, r: T)
    requires Linked(sh.heap, p, st) && Distinct(st)
    ensures Solo(sh, t, Purge(a, p, r), |st| + 1)
      == (sh.(heap := sh.heap - Elements(st), history := sh.history + [Returned(t, Got(a, r))]), Idle)
    decreases |st|
  {
    if st == [] {
      assert sh.heap - Elements(st) == sh.heap;
      assert Solo(sh, t, Purge(a, p, r), 1) == Solo(Return(sh, t, Got(a, r)).0, t, Idle, 0);
    } else {
      var sh1, rest := sh.(heap := sh.heap - {st[0]}), sh.heap[st[0]].next;
      PurgeOne(sh, t, a, st[0], r, |st|);
      LinkedRest(sh.heap, p, st);
      LinkedFrame(sh.heap, sh1.heap, rest, st[1..]);
      hide Solo, Linked, Distinct;
      PurgeFreesAll(sh1, t, a, rest, st[1..], r);
      assert Elements(st) == {st[0]} + Elements(st[1..]);
      assert sh.heap - Elements(st) == sh1.heap - Elements(st[1..]);
    }
  }

  lemma PurgeOne<T>(sh: Shared<T>, t: nat, a: nat, b: nat, r: T, n: nat)
    requires b in sh.heap
    ensures Solo(sh, t, Purge(a, At(b), r), n + 1)
      == Solo(sh.(heap := sh.heap - {b}), t, Purge(a, sh.heap[b].next, r), n)
  {
  }

  /** The only popper frees its node, all that is on the delay list, and returns the value. */
  lemma FastPathFreesAll<T>(sh: Shared<T>, t: nat, a: nat, r: T, st: seq<nat>)
    requires sh.poping == 1 && a in sh.heap && a !in st && Linked(sh.heap, sh.delay, st) && Distinct(st)
    ensures Solo(sh, t, Check(a, r), |st| + 5)
      == (sh.(heap := sh.heap - {a} - Elements(st), poping := 0, history := sh.history + [Returned(t, Got(a, r))]), Idle)
  {
    var sh1 := Free(sh, a);
    var n := |st| + 1;
    assert Solo(sh, t, Check(a, r), n + 4) == Solo(sh, t, Delete(a, r), n + 3) == Solo(sh1, t, LoadDelay(a, r), n + 2);
    assert Solo(sh1, t, LoadDelay(a, r), n + 2) == Solo(sh1, t, DecFast(a, r, sh.delay), n + 1);
    assert Solo(sh1, t, DecFast(a, r, sh.delay), n + 1) == Solo(sh1.(poping := 0), t, Purge(a, sh.delay, r), n);
    LinkedFrame(sh.heap, sh1.heap, sh.delay, st);
    PurgeFreesAll(sh1.(poping := 0), t, a, sh.delay, st, r);
  }

  /** append_to_delay_node_list drops the first node of the list; of an empty list it reads through null. */
  lemma AppendDropsFirst<T>(sh: Shared<T>, st: seq<nat>)
    requires Linked(sh.heap, sh.delay, st) && Distinct(st)
    ensures var sh' := AppendDelayed(sh);
      && Linked(sh'.heap, sh'.delay, if st == [] then [] else st[1..]) && sh'.heap == sh.heap
      && sh'.nullReads == sh.nullReads + (if st == [] then 1 else 0)
  {
    if st != [] {
      LinkedRest(sh.heap, sh.delay, st);
    }
  }

  // ----- when append_to_delay_node_list is reached -----

  predicate Appending<T>(pc: Pc<T>) {
    pc.Append? || pc.LateAppend?
  }

  /** The two tests that lead to append_to_delay_node_list, at lines 45 and 50. */
  predicate Declines<T>(s: State<T>, e: Event<T>) {
    && e.tid in s.pc && e.action.Go?
    && (s.pc[e.tid].Check? || s.pc[e.tid].DecFast?)
    && s.sh.poping != 1
  }

  ghost function Declined<T>(s: State<T>, es: seq<Event<T>>): nat {
    if es == [] then 0
    else
      var front := es[..|es| - 1];
      var last := if Declines(Run(s, front), es[|es| - 1]) then 1 else 0;
      Declined(s, front) + last
  }

  /**
   * The null list is dereferenced once for every popper that found the counter different from
   * one, and for no other reason: a run is free of it exactly when no such test has failed.
   */
  lemma {:induction false} NullReadsExact<T>(zero: T, threads: set<nat>, es: seq<Event<T>>)
    ensures var s := Run(Init(zero, threads), es);
      && s.sh.nullReads + Count(s.pc, Appending) == Declined(Init(zero, threads), es)
      && ((s.sh.nullReads == 0 && Count(s.pc, Appending) == 0) <==> Declined(Init(zero, threads), es) == 0)
  {
    var s0 := Init(zero, threads);
    if es == [] {
      CountZero(s0.pc, Appending);
    } else {
      var front := es[..|es| - 1];
      var e := es[|es| - 1];
      NullReadsExact(zero, threads, front);
      RunKeepsInv(zero, threads, front);
      var s := Run(s0, front);
      if e.tid in s.pc {
        CountUpdate(s.pc, e.tid, Exec(s, e).pc[e.tid], Appending);
        NullReadStep(s.sh, e.tid, Replay(s.sh.history).stack, s.pc[e.tid], e.action);
      }
    }
  }

  lemma NullReadStep<T>(sh: Shared<T>, t: nat, st: seq<nat>, pc: Pc<T>, act: Action<T>)
    requires SharedOk(sh, st) && LocalOk(sh, st, pc)
    ensures var (sh', pc') := Step(sh, t, pc, act);
      sh'.nullReads + (if Appending(pc') then 1 else 0) ==
      sh.nullReads + (if Appending(pc) then 1 else 0)
        + (if act.Go? && (pc.Check? || pc.DecFast?) && sh.poping != 1 then 1 else 0)
  {
  }

  /** While no two pops overlap, the null list is never dereferenced. */
  lemma {:induction false} SerialPopsAreClean<T>(zero: T, threads: set<nat>, es: seq<Event<T>>)
    requires forall k :: 0 <= k <= |es| ==> Run(Init(zero, threads), es[..k]).sh.poping <= 1
    ensures Run(Init(zero, threads), es).sh.nullReads == 0
  {
    SerialPopsDecline(zero, threads, es);
    NullReadsExact(zero, threads, es);
  }

  lemma {:induction false} SerialPopsDecline<T>(zero: T, threads: set<nat>, es: seq<Event<T>>)
    requires forall k :: 0 <= k <= |es| ==> Run(Init(zero, threads), es[..k]).sh.poping <= 1
    ensures Declined(Init(zero, threads), es) == 0
  {
    if es != [] {
      var front := es[..|es| - 1];
      forall k | 0 <= k <= |front| ensures Run(Init(zero, threads), front[..k]).sh.poping <= 1 {
        assert front[..k] == es[..k];
      }
      SerialPopsDecline(zero, threads, front);
      RunKeepsInv(zero, threads, front);
      var s := Run(Init(zero, threads), front);
      var e := es[|es| - 1];
      if Declines(s, e) {
        assert front[..|front|] == front;
        CountPositive(s.pc, e.tid, Popping);
      }
    }
  }

  /**
   * Two poppers are enough. In every reachable state with a node on the list, if u starts a pop
   * and t then runs its own pop, t finds the counter above one and reads the null list.
   */
  lemma OverlappingPopsReadNull<T>(zero: T, threads: set<nat>, es: seq<Event<T>>, t: nat, u: nat)
    requires var s := Run(Init(zero, threads), es);
      t in s.pc && u in s.pc && t != u && s.pc[t] == s.pc[u] == Idle && s.sh.head.At?
    ensures var s := Run(Init(zero, threads), es);
      var s' := Run(Exec(Exec(s, Event(u, StartPop)), Event(t, StartPop)), Gos(t, 6));
      s'.sh.nullReads == s.sh.nullReads + 1
  {
    RunKeepsInv(zero, threads, es);
    var s := Run(Init(zero, threads), es);
    SecondPopperReadsNull(s, t, u);
  }

  lemma DeclinedAlone<T>(sh: Shared<T>, t: nat, a: nat, r: T)
    requires sh.poping != 1 && sh.delay == Null
    ensures Solo(sh, t, Check(a, r), 2).0.nullReads == sh.nullReads + 1
  {
    assert Solo(sh, t, Check(a, r), 2) == Solo(sh, t, Append(a, r), 1);
  }

  lemma SecondPopperReadsNull<T>(s: State<T>, t: nat, u: nat)
    requires t in s.pc && u in s.pc && t != u && s.pc[t] == s.pc[u] == Idle
    requires s.sh.head.At? && s.sh.head.addr in s.sh.heap && s.sh.poping >= 0 && s.sh.delay == Null
    ensures Run(Exec(Exec(s, Event(u, StartPop)), Event(t, StartPop)), Gos(t, 6)).sh.nullReads == s.sh.nullReads + 1
  {
    var calls := [Called(u, CallPop)] + [Called(t, CallPop)];
    var s1 := State(s.sh.(poping := s.sh.poping + 2, history := s.sh.history + calls), s.pc[u := PopLoad][t := PopLoad]);
    assert s.sh.history + [Called(u, CallPop)] + [Called(t, CallPop)] == s.sh.history + calls;
    assert Exec(Exec(s, Event(u, StartPop)), Event(t, StartPop)) == s1;
    var a := s.sh.head.addr;
    var sh := s1.sh.(head := s.sh.heap[a].next, history := s1.sh.history + [Popped(t, a)]);
    DeclinedAlone(sh, t, a, s.sh.heap[a].data);
    hide Exec, Step;
    RunSolo(s1, t, 6);
    PopToCheck(s1.sh, t, 2);
  }

  // ----- the object itself -----

  /**
   * The stack's own fields, the memory they point into and each thread's locals, changed in
   * place by one atomic operation at a time.
   */
  class Stack<T(==)> {
    const zero: T
    var memory: map<nat, Node<T>>
    var headNode: Ptr
    var delayDeleteNodeList: Ptr
    var threadsWhichPoping: int
    var locals: map<nat, Pc<T>>
    ghost var history: seq<Op<T>>
    ghost var faults: nat
    ghost var nullReads: nat

    ghost function View(): State<T>
      reads this
    {
      State(Shared(zero, memory, headNode, delayDeleteNodeList, threadsWhichPoping, history, faults, nullReads),
            locals)
    }

    constructor (zero: T, threads: set<nat>)
      ensures View() == Init(zero, threads)
    {
      this.zero := zero;
      memory, headNode, delayDeleteNodeList, threadsWhichPoping := map[], Null, Null, 0;
      locals := map t | t in threads :: Idle;
      history, faults, nullReads := [], 0, 0;
    }

    method Begin(t: nat, act: Action<T>)
      requires t in locals && !act.Go?
      modifies this
      ensures View() == Exec(old(View()), Event(t, act))
    {
      if locals[t] == Idle {
        match act
        case StartPush(v, a) =>
          if a !in memory {
            memory := memory[a := Node(zero, Null)];
            history := history + [Called(t, CallPush(v))];
            locals := locals[t := PushLoad(a, v)];
          }
        case StartPop =>
          threadsWhichPoping := threadsWhichPoping + 1;
          history := history + [Called(t, CallPop)];
          locals := locals[t := PopLoad];
      }
      assert old(locals)[t := locals[t]] == locals;
    }

    method LeaveWith(t: nat, answer: Answer<T>)
      requires t in locals
      modifies `locals, `history
      ensures locals == old(locals)[t := Idle] && history == old(history) + [Returned(t, answer)]
    {
      locals := locals[t := Idle];
      history := history + [Returned(t, answer)];
    }

    method Push(t: nat, spurious: bool)
      requires t in locals && (locals[t].PushLoad? || locals[t].PushCas? || locals[t].PushReturn?)
      modifies this
      ensures var (sh, pc) := PushStep(old(View()).sh, t, old(locals)[t], spurious);
        View() == State(sh, old(locals)[t := pc])
    {
      if locals[t].PushReturn? {
        LeaveWith(t, Done);
        return;
      }
      var newNode, value := locals[t].mine, locals[t].arg;
      if newNode !in memory {
        faults := faults + 1;
        assert locals[t := locals[t]] == locals;
      } else if locals[t].PushLoad? {
        memory := memory[newNode := memory[newNode].(next := headNode)];
        locals := locals[t := PushCas(newNode, value)];
      } else if headNode == memory[newNode].next && !spurious {
        headNode := At(newNode);
        locals := locals[t := PushReturn(newNode, value)];
        history := history + [Pushed(t, newNode, value)];
      } else {
        memory := memory[newNode := memory[newNode].(next := headNode)];
        locals := locals[t := PushLoad(newNode, value)];
      }
    }

    method Pop(t: nat, spurious: bool)
      requires t in locals
      requires locals[t].PopLoad? || locals[t].PopEmpty? || locals[t].PopNext? || locals[t].PopCas? || locals[t].PopData?
      modifies this
      ensures var (sh, pc) := PopStep(old(View()).sh, t, old(locals)[t], spurious);
        View() == State(sh, old(locals)[t := pc])
    {
      match locals[t]
      case PopLoad =>
        if headNode == Null {
          locals := locals[t := PopEmpty];
          history := history + [FoundEmpty(t)];
        } else {
          locals := locals[t := PopNext(headNode.addr)];
        }
      case PopEmpty =>
        threadsWhichPoping := threadsWhichPoping - 1;
        LeaveWith(t, Nothing);
      case PopNext(oldHead) =>
        if oldHead in memory {
          locals := locals[t := PopCas(oldHead, memory[oldHead].next)];
        } else {
          faults := faults + 1;
          assert locals[t := locals[t]] == locals;
        }
      case PopCas(oldHead, next) =>
        if headNode == At(oldHead) && !spurious {
          headNode := next;
          locals := locals[t := PopData(oldHead)];
          history := history + [Popped(t, oldHead)];
        } else {
          locals := locals[t := PopLoad];
        }
      case PopData(oldHead) =>
        if oldHead in memory {
          locals := locals[t := Check(oldHead, memory[oldHead].data)];
        } else {
          faults := faults + 1;
          assert locals[t := locals[t]] == locals;
        }
    }

    method DeleteNode(node: nat)
      modifies `memory, `faults
      ensures old(View()).sh.(heap := memory, faults := faults) == Free(old(View()).sh, node)
    {
      if node in memory {
        memory := memory - {node};
      } else {
        faults := faults + 1;
      }
    }

    method AppendToDelayNodeList()
      modifies `delayDeleteNodeList, `faults, `nullReads
      ensures old(View()).sh.(delay := delayDeleteNodeList, faults := faults, nullReads := nullReads)
        == AppendDelayed(old(View()).sh)
    {
      var oldHead := delayDeleteNodeList;
      if oldHead == Null {
        nullReads := nullReads + 1;
      } else if oldHead.addr in memory {
        delayDeleteNodeList := memory[oldHead.addr].next;
      } else {
        faults := faults + 1;
      }
    }

    method TryRecycle(t: nat)
      requires t in locals && HasResult(locals[t])
      modifies this
      ensures var (sh, pc) := RecycleStep(old(View()).sh, t, old(locals)[t]);
        View() == State(sh, old(locals)[t := pc])
    {
      match locals[t]
      case Check(node, res) =>
        locals := locals[t := if threadsWhichPoping == 1 then Delete(node, res) else Append(node, res)];
      case Delete(node, res) =>
        DeleteNode(node);
        locals := locals[t := LoadDelay(node, res)];
      case LoadDelay(node, res) =>
        locals := locals[t := DecFast(node, res, delayDeleteNodeList)];
      case DecFast(node, res, delayed) =>
        threadsWhichPoping := threadsWhichPoping - 1;
        locals := locals[t := if threadsWhichPoping == 0 then Purge(node, delayed, res) else LateAppend(node, res)];
      case Purge(node, cursor, res) =>
        if cursor == Null {
          LeaveWith(t, Got(node, res));
        } else {
          var next := if cursor.addr in memory then memory[cursor.addr].next else Null;
          DeleteNode(cursor.addr);
          locals := locals[t := Purge(node, next, res)];
        }
      case LateAppend(node, res) =>
        AppendToDelayNodeList();
        LeaveWith(t, Got(node, res));
      case Append(node, res) =>
        AppendToDelayNodeList();
        locals := locals[t := DecSlow(node, res)];
      case DecSlow(node, res) =>
        threadsWhichPoping := threadsWhichPoping - 1;
        LeaveWith(t, Got(node, res));
    }

    /** Any schedule at all, from a new stack: the object goes through the run of the machine. */
    method Drive(es: seq<Event<T>>)
      modifies this
      ensures View() == Run(old(View()), es)
    {
      for i := 0 to |es|
        invariant View() == Run(old(View()), es[..i])
      {
        var t, act := es[i].tid, es[i].action;
        RunPrefix(old(View()), es, i);
        if t in locals {
          if !act.Go? {
            Begin(t, act);
          } else if locals[t].PushLoad? || locals[t].PushCas? || locals[t].PushReturn? {
            Push(t, act.spurious);
          } else if HasResult(locals[t]) {
            TryRecycle(t);
          } else if locals[t] != Idle {
            Pop(t, act.spurious);
          } else {
            assert locals[t := locals[t]] == locals;
          }
        }
      }
      assert es[..|es|] == es;
    }
  }

  lemma RunPrefix<T>(s: State<T>, es: seq<Event<T>>, k: nat)
    requires k < |es|
    ensures Run(s, es[..k + 1]) == Exec(Run(s, es[..k]), es[k])
  {
    assert es[..k + 1] == es[..k] + [es[k]];
    RunAppend(s, es[..k], es[k]);
  }
}
