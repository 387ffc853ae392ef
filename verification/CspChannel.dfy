/**
 * The bounded channel of multithread/csp_customer_productor.h, for any number of senders and
 * receivers. All of `send`, `receive` and `close` happens under one mutex, so a critical section,
 * up to a wait or to the return, is one step; threads woken from a wait compete for the mutex
 * with threads that have just arrived.
 */
module CspChannel {
  import opened Counting

  /** Why a thread is waiting for the mutex: it has just called, or it has been woken. */
  datatype Cause = Arrived | Notified | Spurious

  datatype Pc<V> =
    | Idle
    | Sending(value: V, cause: Cause)
    | SendAsleep(value: V)
    | Receiving(cause: Cause)
    | ReceiveAsleep

  /** A call of `send` that has returned. */
  datatype Sent<V> = Sent(tid: nat, value: V, accepted: bool)

  datatype State<V> = State(
    queue: seq<V>,
    capacity: nat,
    closed: bool,
    pc: map<nat, Pc<V>>,
    accepted: seq<V>,         // values whose send returned true, in order
    received: seq<V>,         // values handed out by receive, in order
    refusedSends: nat,        // sends that returned false
    refusedReceives: nat,     // receives that returned false
    sends: seq<Sent<V>>)      // all calls of send that have returned, in order

  datatype Event<V> =
    | CallSend(tid: nat, value: V)
    | CallReceive(tid: nat)
    | Locked(tid: nat, wakes: nat)   // tid gets the mutex; notify_one picks `wakes`
    | WakeSpuriously(tid: nat)
    | Close

  function Init<V>(capacity: nat, threads: set<nat>): State<V> {
    State([], capacity, false, map t | t in threads :: Idle, [], [], 0, 0, [])
  }

  predicate SenderAsleep<V>(pc: Pc<V>) { pc.SendAsleep? }
  predicate ReceiverAsleep<V>(pc: Pc<V>) { pc.ReceiveAsleep? }
  predicate SenderNotified<V>(pc: Pc<V>) { pc.Sending? && pc.cause == Notified }
  predicate ReceiverNotified<V>(pc: Pc<V>) { pc.Receiving? && pc.cause == Notified }

  function Woken<V>(pc: Pc<V>, cause: Cause): Pc<V> {
    match pc
    case SendAsleep(v) => Sending(v, cause)
    case ReceiveAsleep => Receiving(cause)
    case _ => pc
  }

  /** notify_one: `w` must be asleep there, unless nobody is. */
  predicate CanNotify<V>(pc: map<nat, Pc<V>>, asleep: Pc<V> -> bool, w: nat) {
    (w in pc && asleep(pc[w])) || (forall t :: t in pc ==> !asleep(pc[t]))
  }

  function NotifyOne<V>(pc: map<nat, Pc<V>>, asleep: Pc<V> -> bool, w: nat): map<nat, Pc<V>> {
    if w in pc && asleep(pc[w]) then pc[w := Woken(pc[w], Notified)] else pc
  }

  function NotifyAll<V>(pc: map<nat, Pc<V>>): map<nat, Pc<V>> {
    map t | t in pc :: Woken(pc[t], Notified)
  }

  /** Lines 26-36, with the mutex held. */
  function SendLocked<V>(s: State<V>, t: nat, w: nat): State<V>
    requires t in s.pc && s.pc[t].Sending?
  {
    var v := s.pc[t].value;
    if !(s.capacity > |s.queue| || s.closed) then s.(pc := s.pc[t := SendAsleep(v)])
    else if s.closed then
      s.(pc := s.pc[t := Idle], refusedSends := s.refusedSends + 1, sends := s.sends + [Sent(t, v, false)])
    else if CanNotify(s.pc, ReceiverAsleep, w) then
      s.(queue := s.queue + [v], accepted := s.accepted + [v], sends := s.sends + [Sent(t, v, true)],
         pc := NotifyOne(s.pc[t := Idle], ReceiverAsleep, w))
    else s
  }

  /** Lines 43-51, after the wait. */
  function ReceiveBody<V>(s: State<V>, t: nat, w: nat): State<V>
    requires t in s.pc
  {
    if s.queue == [] then
      if s.closed then s.(pc := s.pc[t := Idle], refusedReceives := s.refusedReceives + 1) else s
    else if CanNotify(s.pc, SenderAsleep, w) then
      s.(queue := s.queue[1..], received := s.received + [s.queue[0]],
         pc := NotifyOne(s.pc[t := Idle], SenderAsleep, w))
    else s
  }

  /** Lines 40-51, with the mutex held: the wait looks at the queue only. */
  function ReceiveLocked<V>(s: State<V>, t: nat, w: nat): State<V>
    requires t in s.pc && s.pc[t].Receiving?
  {
    if s.queue == [] then s.(pc := s.pc[t := ReceiveAsleep]) else ReceiveBody(s, t, w)
  }

  predicate ReceivedAllMessage<V(==)>(s: State<V>) {
    s.queue == [] && s.closed
  }

  function Exec<V>(s: State<V>, e: Event<V>): State<V> {
    match e
    case CallSend(t, v) => if t in s.pc && s.pc[t].Idle? then s.(pc := s.pc[t := Sending(v, Arrived)]) else s
    case CallReceive(t) => if t in s.pc && s.pc[t].Idle? then s.(pc := s.pc[t := Receiving(Arrived)]) else s
    case Locked(t, w) =>
      if t in s.pc && s.pc[t].Sending? then SendLocked(s, t, w)
      else if t in s.pc && s.pc[t].Receiving? then ReceiveLocked(s, t, w)
      else s
    case WakeSpuriously(t) => if t in s.pc then s.(pc := s.pc[t := Woken(s.pc[t], Spurious)]) else s
    case Close => s.(closed := true, pc := NotifyAll(s.pc))
  }

  function Run<V>(s: State<V>, es: seq<Event<V>>): State<V> {
    if es == [] then s else Exec(Run(s, es[..|es| - 1]), es[|es| - 1])
  }

  // ----- the invariant -----

  ghost predicate Conserved<V>(s: State<V>) {
    s.received + s.queue == s.accepted && |s.queue| <= s.capacity && s.refusedReceives == 0
  }

  /** Sleepers, notified threads and the queue: the four counts that rule out a lost wakeup. */
  ghost predicate Awaited(queued: nat, capacity: nat, closed: bool, sleepR: nat, notedR: nat, sleepS: nat, notedS: nat) {
    && (sleepR > 0 ==> queued <= notedR)
    && (sleepS > 0 && !closed ==> capacity <= queued + notedS)
    && (closed ==> sleepS == 0)
  }

  ghost predicate NoneLost<V>(s: State<V>) {
    Awaited(|s.queue|, s.capacity, s.closed, Count(s.pc, ReceiverAsleep), Count(s.pc, ReceiverNotified),
            Count(s.pc, SenderAsleep), Count(s.pc, SenderNotified))
  }

  ghost predicate Inv<V>(s: State<V>) {
    Conserved(s) && NoneLost(s)
  }

  /** All four counts at once when one thread moves. */
  lemma Recount<V>(pc: map<nat, Pc<V>>, t: nat, p: Pc<V>)
    requires t in pc
    ensures Count(pc[t := p], ReceiverAsleep) + (if pc[t].ReceiveAsleep? then 1 else 0)
      == Count(pc, ReceiverAsleep) + (if p.ReceiveAsleep? then 1 else 0)
    ensures Count(pc[t := p], ReceiverNotified) + (if ReceiverNotified(pc[t]) then 1 else 0)
      == Count(pc, ReceiverNotified) + (if ReceiverNotified(p) then 1 else 0)
    ensures Count(pc[t := p], SenderAsleep) + (if pc[t].SendAsleep? then 1 else 0)
      == Count(pc, SenderAsleep) + (if p.SendAsleep? then 1 else 0)
    ensures Count(pc[t := p], SenderNotified) + (if SenderNotified(pc[t]) then 1 else 0)
      == Count(pc, SenderNotified) + (if SenderNotified(p) then 1 else 0)
  {
    CountUpdate(pc, t, p, ReceiverAsleep);
    CountUpdate(pc, t, p, ReceiverNotified);
    CountUpdate(pc, t, p, SenderAsleep);
    CountUpdate(pc, t, p, SenderNotified);
  }

  /** notify_one turns a sleeper into a notified thread if there is a sleeper, and else does nothing. */
  lemma NotifyReceiver<V>(pc: map<nat, Pc<V>>, w: nat)
    requires CanNotify(pc, ReceiverAsleep, w)
    ensures var pc' := NotifyOne(pc, ReceiverAsleep, w);
      var n := if Count(pc, ReceiverAsleep) > 0 then 1 else 0;
      && Count(pc', ReceiverAsleep) == Count(pc, ReceiverAsleep) - n
      && Count(pc', ReceiverNotified) == Count(pc, ReceiverNotified) + n
      && Count(pc', SenderAsleep) == Count(pc, SenderAsleep)
      && Count(pc', SenderNotified) == Count(pc, SenderNotified)
  {
    if w in pc && pc[w].ReceiveAsleep? {
      Recount(pc, w, Receiving(Notified));
    } else {
      CountZero(pc, ReceiverAsleep);
    }
  }

  lemma NotifySender<V>(pc: map<nat, Pc<V>>, w: nat)
    requires CanNotify(pc, SenderAsleep, w)
    ensures var pc' := NotifyOne(pc, SenderAsleep, w);
      var n := if Count(pc, SenderAsleep) > 0 then 1 else 0;
      && Count(pc', SenderAsleep) == Count(pc, SenderAsleep) - n
      && Count(pc', SenderNotified) == Count(pc, SenderNotified) + n
      && Count(pc', ReceiverAsleep) == Count(pc, ReceiverAsleep)
      && Count(pc', ReceiverNotified) == Count(pc, ReceiverNotified)
  {
    if w in pc && pc[w].SendAsleep? {
      Recount(pc, w, Sending(pc[w].value, Notified));
    } else {
      CountZero(pc, SenderAsleep);
    }
  }

  lemma SendKeepsInv<V>(s: State<V>, t: nat, w: nat)
    requires Inv(s) && t in s.pc && s.pc[t].Sending?
    ensures Inv(SendLocked(s, t, w))
  {
    Recount(s.pc, t, SendAsleep(s.pc[t].value));
    Recount(s.pc, t, Idle);
    if s.capacity > |s.queue| && !s.closed && CanNotify(s.pc, ReceiverAsleep, w) {
      NotifyReceiver(s.pc[t := Idle], w);
    }
  }

  lemma ReceiveKeepsInv<V>(s: State<V>, t: nat, w: nat)
    requires Inv(s) && t in s.pc && s.pc[t].Receiving?
    ensures Inv(ReceiveLocked(s, t, w))
  {
    Recount(s.pc, t, ReceiveAsleep);
    Recount(s.pc, t, Idle);
    if s.queue != [] && CanNotify(s.pc, SenderAsleep, w) {
      NotifySender(s.pc[t := Idle], w);
      assert s.queue == [s.queue[0]] + s.queue[1..];
    }
  }

  lemma ExecKeepsInv<V>(s: State<V>, e: Event<V>)
    requires Inv(s)
    ensures Inv(Exec(s, e))
  {
    match e
    case CallSend(t, v) => if t in s.pc { Recount(s.pc, t, Sending(v, Arrived)); }
    case CallReceive(t) => if t in s.pc { Recount(s.pc, t, Receiving(Arrived)); }
    case Locked(t, w) =>
      if t in s.pc && s.pc[t].Sending? {
        SendKeepsInv(s, t, w);
      } else if t in s.pc && s.pc[t].Receiving? {
        ReceiveKeepsInv(s, t, w);
      }
    case WakeSpuriously(t) => if t in s.pc { Recount(s.pc, t, Woken(s.pc[t], Spurious)); }
    case Close =>
      CountZero(NotifyAll(s.pc), ReceiverAsleep);
      CountZero(NotifyAll(s.pc), SenderAsleep);
  }

  // ----- theorems about every run -----

  lemma {:induction false} RunKeepsInv<V>(capacity: nat, threads: set<nat>, es: seq<Event<V>>)
    ensures Inv(Run(Init(capacity, threads), es))
    ensures Run(Init<V>(capacity, threads), es).capacity == capacity
    ensures Run(Init<V>(capacity, threads), es).pc.Keys == threads
  {
    var s0 := Init<V>(capacity, threads);
    if es == [] {
      CountZero(s0.pc, ReceiverAsleep);
      CountZero(s0.pc, SenderAsleep);
    } else {
      hide Inv, Exec;
      RunKeepsInv(capacity, threads, es[..|es| - 1]);
      ExecKeepsInv(Run(s0, es[..|es| - 1]), es[|es| - 1]);
      ExecKeepsShape(Run(s0, es[..|es| - 1]), es[|es| - 1]);
    }
  }

  lemma ExecKeepsShape<V>(s: State<V>, e: Event<V>)
    ensures Exec(s, e).capacity == s.capacity && Exec(s, e).pc.Keys == s.pc.Keys
  {
  }

  /** Values come out in the order of the accepted sends, none lost or made up; the bound holds. */
  lemma FifoAndBounded<V>(capacity: nat, threads: set<nat>, es: seq<Event<V>>)
    ensures var s := Run(Init(capacity, threads), es);
      && s.received + s.queue == s.accepted && s.received <= s.accepted
      && |s.queue| <= capacity
  {
    RunKeepsInv(capacity, threads, es);
  }

  /** A message waiting for a sleeping receiver always has a notified receiver on its way. */
  lemma NoReceiverWakeupLost<V>(capacity: nat, threads: set<nat>, es: seq<Event<V>>, r: nat)
    requires var s := Run(Init<V>(capacity, threads), es); r in s.pc && s.pc[r].ReceiveAsleep?
    ensures var s := Run(Init<V>(capacity, threads), es);
      && |s.queue| <= Count(s.pc, ReceiverNotified)
      && (s.queue != [] ==> exists t :: t in s.pc && ReceiverNotified(s.pc[t]))
  {
    RunKeepsInv(capacity, threads, es);
    var s := Run(Init<V>(capacity, threads), es);
    CountPositive(s.pc, r, ReceiverAsleep);
    if s.queue != [] {
      var t := CountWitness(s.pc, ReceiverNotified);
    }
  }

  /** A free slot of an open channel with a sleeping sender always has a notified sender on its way. */
  lemma NoSenderWakeupLost<V>(capacity: nat, threads: set<nat>, es: seq<Event<V>>, w: nat)
    requires var s := Run(Init<V>(capacity, threads), es); w in s.pc && s.pc[w].SendAsleep?
    ensures var s := Run(Init<V>(capacity, threads), es);
      && !s.closed
      && capacity - |s.queue| <= Count(s.pc, SenderNotified)
      && (|s.queue| < capacity ==> exists t :: t in s.pc && SenderNotified(s.pc[t]))
  {
    RunKeepsInv(capacity, threads, es);
    var s := Run(Init<V>(capacity, threads), es);
    CountPositive(s.pc, w, SenderAsleep);
    if |s.queue| < capacity {
      var t := CountWitness(s.pc, SenderNotified);
    }
  }

  /** With room for one message, senders and receivers never all sleep at once for ever. */
  lemma NeverBothStuck<V>(capacity: nat, threads: set<nat>, es: seq<Event<V>>, w: nat, r: nat)
    requires capacity > 0
    requires var s := Run(Init<V>(capacity, threads), es);
      w in s.pc && s.pc[w].SendAsleep? && r in s.pc && s.pc[r].ReceiveAsleep?
    ensures var s := Run(Init<V>(capacity, threads), es);
      exists t :: t in s.pc && (ReceiverNotified(s.pc[t]) || SenderNotified(s.pc[t]))
  {
    NoReceiverWakeupLost(capacity, threads, es, r);
    NoSenderWakeupLost(capacity, threads, es, w);
  }

  lemma RunAppend<V>(s: State<V>, es: seq<Event<V>>, e: Event<V>)
    ensures Run(s, es + [e]) == Exec(Run(s, es), e)
  {
    assert (es + [e])[..|es|] == es;
  }

  /** After close nothing is accepted, and what was accepted before can still be received. */
  lemma {:induction false} ClosedAcceptsNothing<V>(s: State<V>, es: seq<Event<V>>)
    requires s.closed
    ensures Run(s, es).closed && Run(s, es).accepted == s.accepted
  {
    if es != [] {
      ClosedAcceptsNothing(s, es[..|es| - 1]);
    }
  }

  predicate InReceive<V>(pc: Pc<V>) {
    pc.Receiving? || pc.ReceiveAsleep?
  }

  /**
   * Once received_all_message holds it holds for ever, and every accepted value has been
   * received. From then on no call of receive returns: a thread inside it stays inside.
   */
  lemma {:induction false} DrainedForEver<V>(capacity: nat, threads: set<nat>, es: seq<Event<V>>, more: seq<Event<V>>)
    requires ReceivedAllMessage(Run(Init<V>(capacity, threads), es))
    ensures var s := Run(Init<V>(capacity, threads), es); var s' := Run(s, more);
      && ReceivedAllMessage(s') && s'.received == s'.accepted == s.accepted
      && s'.pc.Keys == s.pc.Keys
      && (forall t :: t in s.pc && InReceive(s.pc[t]) ==> InReceive(s'.pc[t]))
  {
    RunKeepsInv(capacity, threads, es);
    var s := Run(Init<V>(capacity, threads), es);
    assert s.received + s.queue == s.received;
    StaysDrained(s, more);
  }

  lemma {:induction false} StaysDrained<V>(s: State<V>, more: seq<Event<V>>)
    requires ReceivedAllMessage(s) && s.received == s.accepted
    ensures var s' := Run(s, more);
      && ReceivedAllMessage(s') && s'.received == s'.accepted == s.accepted
      && s'.pc.Keys == s.pc.Keys
      && (forall t :: t in s.pc && InReceive(s.pc[t]) ==> InReceive(s'.pc[t]))
  {
    if more != [] {
      StaysDrained(s, more[..|more| - 1]);
      DrainedStep(Run(s, more[..|more| - 1]), more[|more| - 1]);
    }
  }

  lemma DrainedStep<V>(s: State<V>, e: Event<V>)
    requires ReceivedAllMessage(s)
    ensures var s' := Exec(s, e);
      && ReceivedAllMessage(s') && s'.received == s.received && s'.accepted == s.accepted
      && s'.pc.Keys == s.pc.Keys
      && (forall t :: t in s.pc && InReceive(s.pc[t]) ==> InReceive(s'.pc[t]))
  {
  }

  /** `receive` never reports the end of the channel: its `return false` is not reachable. */
  lemma {:induction false} ReceiveNeverReturnsFalse<V>(capacity: nat, threads: set<nat>, es: seq<Event<V>>)
    ensures Run(Init<V>(capacity, threads), es).refusedReceives == 0
  {
    RunKeepsInv(capacity, threads, es);
  }

  /**
   * Exactly when a call of `receive` on a closed channel can still return: some schedule takes
   * the thread out of it if and only if a message is left. It is then awake, and the next time it
   * gets the mutex it leaves with that message.
   */
  lemma ReceiverGetsOutIff<V>(capacity: nat, threads: set<nat>, es: seq<Event<V>>, t: nat)
    requires var s := Run(Init<V>(capacity, threads), es); s.closed && t in s.pc && InReceive(s.pc[t])
    ensures var s := Run(Init<V>(capacity, threads), es);
      && ((exists more :: t in Run(s, more).pc && !InReceive(Run(s, more).pc[t])) <==> s.queue != [])
      && (s.queue != [] ==> forall w :: var s' := Exec(s, Locked(t, w));
            s'.pc[t] == Idle && s'.received == s.received + [s.queue[0]])
  {
    RunKeepsInv(capacity, threads, es);
    RunKeepsAwake(capacity, threads, es);
    var s := Run(Init<V>(capacity, threads), es);
    if s.queue == [] {
      assert s.received + s.queue == s.received;
      forall more ensures !(t in Run(s, more).pc && !InReceive(Run(s, more).pc[t])) {
        StaysDrained(s, more);
      }
    } else {
      NobodySends(s);
      var more := [Event<V>.Locked(t, t)];
      RunAppend(s, [], more[0]);
      assert [] + more == more;
      assert t in Run(s, more).pc && !InReceive(Run(s, more).pc[t]);
    }
  }

  /** On a closed channel nobody sleeps over a message. */
  ghost predicate AwakeWhenClosed<V>(s: State<V>) {
    s.closed && s.queue != [] ==> forall u :: u in s.pc ==> !s.pc[u].ReceiveAsleep?
  }

  lemma {:induction false} RunKeepsAwake<V>(capacity: nat, threads: set<nat>, es: seq<Event<V>>)
    ensures AwakeWhenClosed(Run(Init<V>(capacity, threads), es))
  {
    if es != [] {
      RunKeepsAwake(capacity, threads, es[..|es| - 1]);
      AwakeStep(Run(Init<V>(capacity, threads), es[..|es| - 1]), es[|es| - 1]);
    }
  }

  lemma AwakeStep<V>(s: State<V>, e: Event<V>)
    requires AwakeWhenClosed(s)
    ensures AwakeWhenClosed(Exec(s, e))
  {
  }

  /** close has woken every sender, and none goes back to sleep. */
  lemma NobodySends<V>(s: State<V>)
    requires NoneLost(s) && s.closed
    ensures forall u :: u in s.pc ==> !s.pc[u].SendAsleep?
  {
    forall u | u in s.pc ensures !s.pc[u].SendAsleep? {
      if s.pc[u].SendAsleep? {
        CountPositive(s.pc, u, SenderAsleep);
      }
    }
  }

  /** The trap is reached: a receiver that comes to a channel which is then closed without a message. */
  lemma ReceiverTrapIsReached<V>(capacity: nat, threads: set<nat>, t: nat)
    requires t in threads
    ensures var s := Run(Init<V>(capacity, threads), [CallReceive(t), Locked(t, t), Close]);
      ReceivedAllMessage(s) && t in s.pc && InReceive(s.pc[t])
  {
    var s0 := Init<V>(capacity, threads);
    RunThree(s0, CallReceive(t), Locked(t, t), Close);
    var s1 := Exec(s0, CallReceive(t));
    assert s1.pc[t] == Receiving(Arrived) && s1.queue == [];
    var s2 := Exec(s1, Locked(t, t));
    assert s2.pc[t] == ReceiveAsleep && s2.queue == [] && t in s2.pc;
    hide Run;
    assert Exec(s2, Close).pc[t] == Receiving(Notified);
  }

  lemma RunThree<V>(s: State<V>, e: Event<V>, f: Event<V>, g: Event<V>)
    ensures Run(s, [e, f, g]) == Exec(Exec(Exec(s, e), f), g)
  {
    assert Run(s, []) == s;
    hide *;
    RunAppend(s, [], e);
    RunAppend(s, [e], f);
    RunAppend(s, [e, f], g);
    assert [] + [e] == [e] && [e] + [f] == [e, f] && [e, f] + [g] == [e, f, g];
  }

  predicate InSend<V>(pc: Pc<V>) {
    pc.Sending? || pc.SendAsleep?
  }

  /**
   * A send is refused exactly on a closed channel: no run refuses one before close, and once the
   * channel is closed no sender sleeps, and each still inside is refused as soon as it gets the mutex.
   */
  lemma {:induction false} SendRefusedIffClosed<V>(capacity: nat, threads: set<nat>, es: seq<Event<V>>)
    ensures var s := Run(Init<V>(capacity, threads), es);
      && (s.refusedSends > 0 ==> s.closed)
      && (s.closed ==> forall t, w :: t in s.pc && InSend(s.pc[t]) ==>
            var s' := Exec(s, Locked(t, w));
            s'.pc[t] == Idle && s'.refusedSends == s.refusedSends + 1 && s'.queue == s.queue)
  {
    RunKeepsInv(capacity, threads, es);
    var s := Run(Init<V>(capacity, threads), es);
    if es != [] {
      SendRefusedIffClosed(capacity, threads, es[..|es| - 1]);
      RefusesWhenClosed(Run(Init<V>(capacity, threads), es[..|es| - 1]), es[|es| - 1]);
    }
    if s.closed {
      NobodySends(s);
    }
  }

  lemma RefusesWhenClosed<V>(s: State<V>, e: Event<V>)
    ensures Exec(s, e).refusedSends > s.refusedSends ==> s.closed
    ensures s.closed ==> Exec(s, e).closed
    ensures Exec(s, e).refusedSends >= s.refusedSends
  {
  }

  // ----- what is accepted is what was asked -----

  /** The values that t has passed to `send`, in order. */
  ghost function Asked<V>(s0: State<V>, es: seq<Event<V>>, t: nat): seq<V> {
    if es == [] then []
    else
      var s, e := Run(s0, es[..|es| - 1]), es[|es| - 1];
      var before := Asked(s0, es[..|es| - 1], t);
      if e.CallSend? && e.tid == t && t in s.pc && s.pc[t].Idle? then before + [e.value] else before
  }

  /** The values of t's calls that have returned. */
  function ValuesBy<V>(sends: seq<Sent<V>>, t: nat): seq<V> {
    if sends == [] then []
    else
      var last, before := sends[|sends| - 1], ValuesBy(sends[..|sends| - 1], t);
      if last.tid == t then before + [last.value] else before
  }

  function ValuesWith<V>(sends: seq<Sent<V>>, accepted: bool): seq<V> {
    if sends == [] then []
    else
      var last, before := sends[|sends| - 1], ValuesWith(sends[..|sends| - 1], accepted);
      if last.accepted == accepted then before + [last.value] else before
  }

  function UnderWay<V>(pc: Pc<V>): seq<V> {
    match pc
    case Sending(v, _) => [v]
    case SendAsleep(v) => [v]
    case _ => []
  }

  lemma ByAppend<V>(sends: seq<Sent<V>>, d: Sent<V>, t: nat)
    ensures ValuesBy(sends + [d], t) == if d.tid == t then ValuesBy(sends, t) + [d.value] else ValuesBy(sends, t)
  {
    assert (sends + [d])[..|sends|] == sends;
  }

  lemma WithAppend<V>(sends: seq<Sent<V>>, d: Sent<V>, ok: bool)
    ensures ValuesWith(sends + [d], ok)
      == if d.accepted == ok then ValuesWith(sends, ok) + [d.value] else ValuesWith(sends, ok)
  {
    assert (sends + [d])[..|sends|] == sends;
  }

  /** One step: a call that returns is recorded with the value that its thread came with. */
  lemma SendsStep<V>(s: State<V>, e: Event<V>, t: nat)
    requires t in s.pc
    ensures var s' := Exec(s, e);
      && t in s'.pc
      && (s'.sends == s.sends ==>
            && s'.accepted == s.accepted && s'.refusedSends == s.refusedSends
            && UnderWay(s'.pc[t]) ==
               if e.CallSend? && e.tid == t && s.pc[t].Idle? then [e.value] else UnderWay(s.pc[t]))
      && (s'.sends != s.sends ==>
            && e.Locked? && e.tid in s.pc && |s'.sends| == |s.sends| + 1 && s'.sends == s.sends + [s'.sends[|s.sends|]]
            && var d := s'.sends[|s.sends|];
               && d.tid == e.tid && UnderWay(s.pc[e.tid]) == [d.value]
               && UnderWay(s'.pc[t]) == (if e.tid == t then [] else UnderWay(s.pc[t]))
               && s'.accepted == (if d.accepted then s.accepted + [d.value] else s.accepted)
               && s'.refusedSends == s.refusedSends + (if d.accepted then 0 else 1))
  {
  }

  /**
   * Every thread's calls of `send` return in the order in which they were made, each with the value
   * that was passed to it, and what is accepted is the values of the calls that returned true.
   */
  lemma {:induction false} SendsAreWhatWasAsked<V>(capacity: nat, threads: set<nat>, es: seq<Event<V>>, t: nat)
    requires t in threads
    ensures var s0 := Init<V>(capacity, threads); var s := Run(s0, es);
      && t in s.pc
      && ValuesBy(s.sends, t) + UnderWay(s.pc[t]) == Asked(s0, es, t)
      && ValuesWith(s.sends, true) == s.accepted
      && |ValuesWith(s.sends, false)| == s.refusedSends
  {
    hide Exec, UnderWay, ValuesBy, ValuesWith;
    if es == [] {
      NothingSent(Init<V>(capacity, threads), t);
    } else {
      SendsAreWhatWasAsked(capacity, threads, es[..|es| - 1], t);
      SentStep(Run(Init<V>(capacity, threads), es[..|es| - 1]), es[|es| - 1], t);
    }
  }

  lemma NothingSent<V>(s: State<V>, t: nat)
    requires s.sends == [] && t in s.pc && s.pc[t] == Idle
    ensures ValuesBy(s.sends, t) + UnderWay(s.pc[t]) == []
    ensures ValuesWith(s.sends, true) == [] == ValuesWith(s.sends, false)
  {
  }

  /** One step of the books of thread t. */
  lemma SentStep<V>(s: State<V>, e: Event<V>, t: nat)
    requires t in s.pc && ValuesWith(s.sends, true) == s.accepted && |ValuesWith(s.sends, false)| == s.refusedSends
    ensures var s' := Exec(s, e);
      && t in s'.pc
      && ValuesBy(s'.sends, t) + UnderWay(s'.pc[t])
         == ValuesBy(s.sends, t) + UnderWay(s.pc[t])
            + (if e.CallSend? && e.tid == t && s.pc[t].Idle? then [e.value] else [])
      && ValuesWith(s'.sends, true) == s'.accepted && |ValuesWith(s'.sends, false)| == s'.refusedSends
  {
    SendsStep(s, e, t);
    IdleIsOutside(s.pc[t]);
    hide Exec, UnderWay, ValuesBy, ValuesWith;
    var s' := Exec(s, e);
    if s'.sends != s.sends {
      var d := s'.sends[|s.sends|];
      ByAppend(s.sends, d, t);
      WithAppend(s.sends, d, true);
      WithAppend(s.sends, d, false);
    }
  }

  lemma IdleIsOutside<V>(pc: Pc<V>)
    ensures pc.Idle? ==> UnderWay(pc) == []
  {
  }

  /**
   * What a turn at the mutex means for a caller, in every reachable state. A send returns at once
   * exactly when there is room or the channel is closed, and is accepted exactly when there is
   * room and the channel is open; a receive returns at once, with the oldest value, exactly when
   * there is one. Otherwise the caller sleeps.
   */
  lemma TurnsAreTaken<V>(capacity: nat, threads: set<nat>, es: seq<Event<V>>, t: nat, w: nat)
    requires var s := Run(Init<V>(capacity, threads), es); t in s.pc
    ensures var s := Run(Init<V>(capacity, threads), es); var s' := Exec(s, Locked(t, w));
      && (s.pc[t].Sending? && CanNotify(s.pc, ReceiverAsleep, w) ==>
            && (s'.pc[t] == if |s.queue| < capacity || s.closed then Idle else SendAsleep(s.pc[t].value))
            && s'.accepted == s.accepted + (if |s.queue| < capacity && !s.closed then [s.pc[t].value] else []))
      && (s.pc[t].Receiving? && CanNotify(s.pc, SenderAsleep, w) ==>
            && (s'.pc[t] == if s.queue != [] then Idle else ReceiveAsleep)
            && s'.received == s.received + (if s.queue != [] then [s.queue[0]] else []))
      && (forall u :: u in s.pc ==> !Exec(s, Close).pc[u].SendAsleep? && !Exec(s, Close).pc[u].ReceiveAsleep?)
  {
    RunKeepsInv(capacity, threads, es);
  }

  // ----- the object itself -----

  class Channel<V(==)> {
    var queue: seq<V>
    const capacity: nat
    var closed: bool
    var locals: map<nat, Pc<V>>
    ghost var accepted: seq<V>
    ghost var received: seq<V>
    ghost var refusedSends: nat
    ghost var refusedReceives: nat
    ghost var sends: seq<Sent<V>>

    ghost function View(): State<V>
      reads this
    {
      State(queue, capacity, closed, locals, accepted, received, refusedSends, refusedReceives, sends)
    }

    constructor (capacity: nat, threads: set<nat>)
      ensures View() == Init(capacity, threads)
    {
      this.capacity := capacity;
      queue, closed := [], false;
      locals := map t | t in threads :: Idle;
      accepted, received, refusedSends, refusedReceives, sends := [], [], 0, 0, [];
    }

    /** The notification goes to `wakes`, which the scheduler has to choose among the sleepers. */
    method Send(t: nat, wakes: nat)
      requires t in locals && locals[t].Sending? && CanNotify(locals, ReceiverAsleep, wakes)
      modifies this
      ensures View() == SendLocked(old(View()), t, wakes)
    {
      var value := locals[t].value;
      if !(capacity > |queue| || closed) {
        locals := locals[t := SendAsleep(value)];
        return;
      }
      locals := locals[t := Idle];
      if closed {
        refusedSends := refusedSends + 1;
        sends := sends + [Sent(t, value, false)];
        return;
      }
      queue := queue + [value];
      accepted := accepted + [value];
      sends := sends + [Sent(t, value, true)];
      if wakes in locals && locals[wakes].ReceiveAsleep? {
        locals := locals[wakes := Receiving(Notified)];
      }
    }

    method Receive(t: nat, wakes: nat) returns (got: seq<V>)
      requires t in locals && locals[t].Receiving? && CanNotify(locals, SenderAsleep, wakes)
      modifies this
      ensures View() == ReceiveLocked(old(View()), t, wakes)
      ensures got + queue == old(queue) && (got == [] <==> locals[t].ReceiveAsleep?)
    {
      if queue == [] {
        locals := locals[t := ReceiveAsleep];
        return [];
      }
      locals := locals[t := Idle];
      got := [queue[0]];
      queue := queue[1..];
      received := received + got;
      if wakes in locals && locals[wakes].SendAsleep? {
        locals := locals[wakes := Sending(locals[wakes].value, Notified)];
      }
    }

    method AllReceived() returns (b: bool)
      ensures b == ReceivedAllMessage(View())
    {
      b := queue == [] && closed;
    }

    method CloseChannel()
      modifies this
      ensures View() == Exec(old(View()), Close)
    {
      closed := true;
      locals := map t | t in locals :: Woken(locals[t], Notified);
    }

    /** Any schedule at all: the object goes through the run of the machine. */
    method Drive(es: seq<Event<V>>)
      modifies this
      ensures View() == Run(old(View()), es)
    {
      for i := 0 to |es|
        invariant View() == Run(old(View()), es[..i])
      {
        assert es[..i + 1] == es[..i] + [es[i]];
        RunAppend(old(View()), es[..i], es[i]);
        match es[i]
        case CallSend(t, v) => if t in locals && locals[t].Idle? { locals := locals[t := Sending(v, Arrived)]; }
        case CallReceive(t) => if t in locals && locals[t].Idle? { locals := locals[t := Receiving(Arrived)]; }
        case Locked(t, w) =>
          if t in locals && locals[t].Sending? {
            if CanNotify(locals, ReceiverAsleep, w) { Send(t, w); }
            else if closed {
              sends := sends + [Sent(t, locals[t].value, false)];
              locals := locals[t := Idle];
              refusedSends := refusedSends + 1;
            }
            else if capacity <= |queue| { locals := locals[t := SendAsleep(locals[t].value)]; }
          } else if t in locals && locals[t].Receiving? {
            if CanNotify(locals, SenderAsleep, w) { var _ := Receive(t, w); }
            else if queue == [] { locals := locals[t := ReceiveAsleep]; }
          }
        case WakeSpuriously(t) => if t in locals { locals := locals[t := Woken(locals[t], Spurious)]; }
        case Close => CloseChannel();
      }
      assert es[..|es|] == es;
    }
  }
}
