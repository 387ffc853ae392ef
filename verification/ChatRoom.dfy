/**
 * The chat server of asio_test/chat/chat_server.cpp and the sending side of chat_client.cpp.
 * Handlers run one at a time, so each handler is one event. A room is a history of messages seen
 * by sessions, and every session pumps what it was given through one write at a time.
 */
module ChatRoom {
  import opened ChatMessages
  import opened ChatReader

  const MAX_RECENT := 100

  datatype Option<T> = None | Some(value: T)

  /**
   * The write side of a connection. `underWay` holds what every asynchronous write that has been
   * started and has not completed carries; `sent` and `enqueued` record all it ever did.
   */
  datatype Pump = Pump(
    queue: seq<Message>,      // write_messages_
    underWay: seq<Message>,
    failed: bool,             // a write has ended in an error
    sent: seq<Message>,
    enqueued: seq<Message>)

  const NEW_PUMP := Pump([], [], false, [], [])

  /** async_write of the front of the deque. */
  function StartWrite(p: Pump): Pump
    requires p.queue != []
  {
    p.(underWay := p.underWay + [p.queue[0]])
  }

  /** deliver, lines 63-69: start a write only if the deque was empty. */
  function Enqueue(p: Pump, m: Message): Pump {
    var p' := p.(queue := p.queue + [m], enqueued := p.enqueued + [m]);
    if p.queue == [] then StartWrite(p') else p'
  }

  /** The completion handler of async_write, lines 103-114, given the outcome. */
  function WriteDone(p: Pump, ok: bool): Pump {
    if p.underWay == [] || p.queue == [] then p
    else
      var rest := p.(underWay := p.underWay[1..]);
      if !ok then rest.(failed := true)
      else
        var p' := rest.(queue := p.queue[1..], sent := p.sent + [p.underWay[0]]);
        if p'.queue != [] then StartWrite(p') else p'
  }

  function EnqueueAll(p: Pump, ms: seq<Message>): Pump {
    if ms == [] then p else Enqueue(EnqueueAll(p, ms[..|ms| - 1]), ms[|ms| - 1])
  }

  /** One write at a time, always of the front; one is under way unless there is nothing to do or it failed. */
  ghost predicate PumpOk(p: Pump) {
    && p.sent + p.queue == p.enqueued
    && p.underWay == (if p.queue == [] || p.failed then [] else [p.queue[0]])
    && (p.failed ==> p.queue != [])
  }

  lemma EnqueueKeepsPump(p: Pump, m: Message)
    requires PumpOk(p)
    ensures PumpOk(Enqueue(p, m))
  {
    assert p.sent + (p.queue + [m]) == p.sent + p.queue + [m];
  }

  lemma WriteDoneKeepsPump(p: Pump, ok: bool)
    requires PumpOk(p)
    ensures PumpOk(WriteDone(p, ok)) && WriteDone(p, ok).enqueued == p.enqueued
  {
    if p.queue != [] {
      assert p.queue == [p.queue[0]] + p.queue[1..];
    }
  }

  lemma EnqueueAdds(p: Pump, m: Message)
    ensures Enqueue(p, m).enqueued == p.enqueued + [m] && Enqueue(p, m).failed == p.failed
  {
  }

  lemma {:induction false} EnqueueAllKeepsPump(p: Pump, ms: seq<Message>)
    requires PumpOk(p)
    ensures PumpOk(EnqueueAll(p, ms)) && EnqueueAll(p, ms).enqueued == p.enqueued + ms
    ensures EnqueueAll(p, ms).failed == p.failed
  {
    if ms == [] {
      assert p.enqueued + ms == p.enqueued;
    } else {
      hide PumpOk, Enqueue;
      var front, last := ms[..|ms| - 1], ms[|ms| - 1];
      EnqueueAllKeepsPump(p, front);
      EnqueueKeepsPump(EnqueueAll(p, front), last);
      EnqueueAdds(EnqueueAll(p, front), last);
      assert p.enqueued + ms == p.enqueued + front + [last];
    }
  }

  /**
   * What a connection has carried: whole frames, then some or all of the one under way or cut off
   * by an error. With all of it the completion handler is still to run.
   */
  ghost predicate OnTheWire(p: Pump, bytes: seq<Byte>) {
    exists cut :: IsCut(p, cut) && bytes == Stream(p.sent) + Part(p, cut)
  }

  predicate IsCut(p: Pump, cut: nat) {
    cut == 0 || (p.queue != [] && cut <= |Frame(p.queue[0])|)
  }

  function Part(p: Pump, cut: nat): seq<Byte>
    requires IsCut(p, cut)
  {
    if cut == 0 then [] else Frame(p.queue[0])[..cut]
  }

  // ----- the room -----

  /**
   * A connection: its pump, whether its reader still runs, when it came and went, the bytes that
   * have arrived on it, and how many of the messages in them have been handled.
   */
  datatype Session = Session(
    pump: Pump, reading: bool, joinedAt: nat, leftAt: Option<nat>, inbound: seq<Byte>, taken: nat)

  datatype Room<K(==)> = Room(
    participants: set<K>,
    recent: seq<Message>,           // recent_msgs_
    history: seq<Message>,          // every message ever delivered to the room
    authors: seq<K>,                // the sessions that they came from
    sessions: map<K, Session>)

  datatype Event<K> =
    | Accept(k: K)
    | Arrived(k: K, chunk: seq<Byte>)
    | BodyRead(k: K)
    | ReadFailed(k: K)
    | Written(k: K, ok: bool)

  function EmptyRoom<K>(): Room<K> {
    Room({}, [], [], [], map[])
  }

  function Last(ms: seq<Message>, n: nat): seq<Message> {
    if |ms| <= n then ms else ms[|ms| - n..]
  }

  function Join<K>(r: Room<K>, k: K): Room<K> {
    r.(participants := r.participants + {k},
       sessions := r.sessions[k := Session(EnqueueAll(NEW_PUMP, r.recent), true, |r.history|, None, [], 0)])
  }

  function Leave<K>(r: Room<K>, k: K): Room<K>
    requires k in r.sessions
  {
    r.(participants := r.participants - {k},
       sessions := r.sessions[k := if r.sessions[k].leftAt == None then r.sessions[k].(leftAt := Some(|r.history|))
                                   else r.sessions[k]])
  }

  /** ChatRoom::deliver, lines 35-44, of a message that session k has read. */
  function Deliver<K>(r: Room<K>, k: K, m: Message): Room<K> {
    r.(history := r.history + [m], authors := r.authors + [k], recent := Last(r.recent + [m], MAX_RECENT),
       sessions := map j | j in r.sessions ::
         if j in r.participants then r.sessions[j].(pump := Enqueue(r.sessions[j].pump, m)) else r.sessions[j])
  }

  function UpdateSession<K>(r: Room<K>, k: K, s: Session): Room<K> {
    r.(sessions := r.sessions[k := s])
  }

  /** The reads of a message's header and body have completed and it waits for its handler. */
  predicate HasMessage(s: Session) {
    s.reading && s.taken < |Parse(s.inbound).messages|
  }

  ghost function Exec<K>(r: Room<K>, e: Event<K>): Room<K> {
    match e
    case Accept(k) => if k in r.sessions then r else Join(r, k)
    case Arrived(k, chunk) =>
      if k in r.sessions && r.sessions[k].reading
      then UpdateSession(r, k, r.sessions[k].(inbound := r.sessions[k].inbound + chunk)) else r
    case BodyRead(k) =>
      if k in r.sessions && HasMessage(r.sessions[k]) then
        var s := r.sessions[k];
        Deliver(UpdateSession(r, k, s.(taken := s.taken + 1)), k, Parse(s.inbound).messages[s.taken])
      else r
    case ReadFailed(k) =>
      if k in r.sessions && r.sessions[k].reading
      then Leave(UpdateSession(r, k, r.sessions[k].(reading := false)), k) else r
    case Written(k, ok) =>
      if k in r.sessions && r.sessions[k].pump.underWay != [] then
        var r' := UpdateSession(r, k, r.sessions[k].(pump := WriteDone(r.sessions[k].pump, ok)));
        if ok then r' else Leave(r', k)
      else r
  }

  ghost function Run<K>(r: Room<K>, es: seq<Event<K>>): Room<K> {
    if es == [] then r else Exec(Run(r, es[..|es| - 1]), es[|es| - 1])
  }

  // ----- the invariant -----

  /** Where in the history the part that a session gets begins: up to a hundred before it joined. */
  function From(joinedAt: nat): nat {
    if joinedAt <= MAX_RECENT then 0 else joinedAt - MAX_RECENT
  }

  /** The messages of the history that came from session k, in order. */
  function FromAuthor<K(==)>(history: seq<Message>, authors: seq<K>, k: K): seq<Message>
    requires |authors| == |history|
  {
    if history == [] then []
    else
      var n := |history| - 1;
      FromAuthor(history[..n], authors[..n], k) + if authors[n] == k then [history[n]] else []
  }

  ghost predicate SessionOk(history: seq<Message>, present: bool, s: Session) {
    && PumpOk(s.pump)
    && (present <==> s.leftAt == None)
    && (s.pump.failed ==> !present)
    && var until := if s.leftAt.Some? then s.leftAt.value else |history|;
      s.joinedAt <= until <= |history| && s.pump.enqueued == history[From(s.joinedAt)..until]
  }

  /** What the session has contributed to the history is what it has read. */
  ghost predicate InputOk(contributed: seq<Message>, s: Session) {
    s.taken <= |Parse(s.inbound).messages| && contributed == Parse(s.inbound).messages[..s.taken]
  }

  ghost predicate RoomOk<K>(r: Room<K>) {
    && r.recent == Last(r.history, MAX_RECENT)
    && r.participants <= r.sessions.Keys
    && (forall k :: k in r.sessions ==> SessionOk(r.history, k in r.participants, r.sessions[k]))
    && (forall i :: 0 <= i < |r.history| ==> WellFormed(r.history[i]))
    && AuthorsOk(r)
  }

  ghost predicate AuthorsOk<K>(r: Room<K>) {
    && |r.authors| == |r.history|
    && (forall i :: 0 <= i < |r.authors| ==> r.authors[i] in r.sessions)
    && (forall k :: k in r.sessions ==> InputOk(FromAuthor(r.history, r.authors, k), r.sessions[k]))
  }

  lemma NewSessionOk(history: seq<Message>)
    ensures SessionOk(history, true,
      Session(EnqueueAll(NEW_PUMP, Last(history, MAX_RECENT)), true, |history|, None, [], 0))
  {
    assert PumpOk(NEW_PUMP);
    EnqueueAllKeepsPump(NEW_PUMP, Last(history, MAX_RECENT));
    assert Last(history, MAX_RECENT) == history[From(|history|)..|history|];
    assert NEW_PUMP.enqueued + Last(history, MAX_RECENT) == Last(history, MAX_RECENT);
  }

  lemma {:induction false} NoAuthor<K>(history: seq<Message>, authors: seq<K>, k: K)
    requires |authors| == |history| && forall i :: 0 <= i < |authors| ==> authors[i] != k
    ensures FromAuthor(history, authors, k) == []
  {
    if history != [] {
      NoAuthor(history[..|history| - 1], authors[..|history| - 1], k);
    }
  }

  lemma AuthorAppend<K>(history: seq<Message>, authors: seq<K>, m: Message, j: K, k: K)
    requires |authors| == |history|
    ensures FromAuthor(history + [m], authors + [j], k)
      == FromAuthor(history, authors, k) + if j == k then [m] else []
  {
    assert (history + [m])[..|history|] == history && (authors + [j])[..|history|] == authors;
  }

  lemma SessionSeesMessage(history: seq<Message>, present: bool, s: Session, m: Message)
    requires SessionOk(history, present, s)
    ensures SessionOk(history + [m], present, if present then s.(pump := Enqueue(s.pump, m)) else s)
  {
    EnqueueKeepsPump(s.pump, m);
    if present {
      assert (history + [m])[From(s.joinedAt)..|history| + 1] == history[From(s.joinedAt)..] + [m];
    } else {
      assert (history + [m])[From(s.joinedAt)..s.leftAt.value] == history[From(s.joinedAt)..s.leftAt.value];
    }
  }

  /** More bytes never change the messages already read. */
  lemma ArrivalKeepsInput(contributed: seq<Message>, s: Session, chunk: seq<Byte>)
    requires InputOk(contributed, s)
    ensures InputOk(contributed, s.(inbound := s.inbound + chunk))
  {
    hide Parse;
    ParseAppend(s.inbound, chunk);
    assert Parse(s.inbound).messages <= Parse(s.inbound + chunk).messages;
  }

  /** The room's own part of a delivery, which does not depend on where the message came from. */
  lemma DeliverKeepsSessions<K>(r: Room<K>, k: K, m: Message)
    requires r.recent == Last(r.history, MAX_RECENT)
    requires forall j :: j in r.sessions ==> SessionOk(r.history, j in r.participants, r.sessions[j])
    ensures var r' := Deliver(r, k, m);
      && r'.recent == Last(r'.history, MAX_RECENT)
      && (forall j :: j in r'.sessions ==> SessionOk(r'.history, j in r'.participants, r'.sessions[j]))
  {
    var r' := Deliver(r, k, m);
    hide SessionOk;
    forall j | j in r'.sessions ensures SessionOk(r'.history, j in r'.participants, r'.sessions[j]) {
      SessionSeesMessage(r.history, j in r.participants, r.sessions[j], m);
    }
    assert Last(Last(r.history, MAX_RECENT) + [m], MAX_RECENT) == Last(r.history + [m], MAX_RECENT);
  }

  lemma ReadKeepsAuthors<K>(r: Room<K>, k: K)
    requires AuthorsOk(r) && k in r.sessions && HasMessage(r.sessions[k])
    ensures AuthorsOk(Exec(r, BodyRead(k)))
  {
    hide Parse, FromAuthor;
    var r' := Exec(r, BodyRead(k));
    var s := r.sessions[k];
    var m := Parse(s.inbound).messages[s.taken];
    forall j | j in r'.sessions ensures InputOk(FromAuthor(r'.history, r'.authors, j), r'.sessions[j]) {
      AuthorAppend(r.history, r.authors, m, k, j);
    }
  }

  lemma BodyReadKeepsRoom<K>(r: Room<K>, k: K)
    requires RoomOk(r) && k in r.sessions && HasMessage(r.sessions[k])
    ensures RoomOk(Exec(r, BodyRead(k)))
  {
    hide AuthorsOk, SessionOk, Parse;
    var s := r.sessions[k];
    var r1 := UpdateSession(r, k, s.(taken := s.taken + 1));
    ParsedAreWellFormed(s.inbound);
    ReadKeepsAuthors(r, k);
    TakingKeepsSession(r.history, k in r.participants, s);
    DeliverKeepsSessions(r1, k, Parse(s.inbound).messages[s.taken]);
  }

  lemma TakingKeepsSession(history: seq<Message>, present: bool, s: Session)
    requires SessionOk(history, present, s)
    ensures SessionOk(history, present, s.(taken := s.taken + 1))
  {
  }

  lemma AcceptKeepsRoom<K>(r: Room<K>, k: K)
    requires RoomOk(r) && k !in r.sessions
    ensures RoomOk(Join(r, k))
  {
    hide FromAuthor, EnqueueAll, SessionOk;
    NewSessionOk(r.history);
    NoAuthor(r.history, r.authors, k);
  }

  lemma ArrivedKeepsRoom<K>(r: Room<K>, k: K, chunk: seq<Byte>)
    requires RoomOk(r) && k in r.sessions
    ensures RoomOk(Exec(r, Arrived(k, chunk)))
  {
    hide FromAuthor, Parse, PumpOk;
    ArrivalKeepsInput(FromAuthor(r.history, r.authors, k), r.sessions[k], chunk);
  }

  /** A session whose write has completed; if it failed, the session is about to leave. */
  lemma WrittenKeepsSession(history: seq<Message>, present: bool, s: Session, ok: bool)
    requires SessionOk(history, present, s)
    ensures var s' := s.(pump := WriteDone(s.pump, ok));
      var left := if s.leftAt == None then s'.(leftAt := Some(|history|)) else s';
      (ok ==> SessionOk(history, present, s')) && SessionOk(history, false, left)
  {
    hide WriteDone, PumpOk;
    WriteDoneKeepsPump(s.pump, ok);
    WriteDoneFails(s.pump, ok);
  }

  lemma WrittenKeepsRoom<K>(r: Room<K>, k: K, ok: bool)
    requires RoomOk(r) && k in r.sessions
    ensures RoomOk(Exec(r, Written(k, ok)))
  {
    hide FromAuthor, Parse, WriteDone, PumpOk, WellFormed, Last, SessionOk;
    WrittenKeepsSession(r.history, k in r.participants, r.sessions[k], ok);
  }

  lemma WriteDoneFails(p: Pump, ok: bool)
    ensures WriteDone(p, ok).failed ==> p.failed || !ok
  {
  }

  lemma ReadFailedKeepsRoom<K>(r: Room<K>, k: K)
    requires RoomOk(r)
    ensures RoomOk(Exec(r, ReadFailed(k)))
  {
    hide FromAuthor, Parse, PumpOk;
  }

  lemma ExecKeepsRoom<K>(r: Room<K>, e: Event<K>)
    requires RoomOk(r)
    ensures RoomOk(Exec(r, e))
  {
    hide RoomOk;
    match e
    case Accept(k) => if k !in r.sessions { AcceptKeepsRoom(r, k); }
    case Arrived(k, chunk) => if k in r.sessions { ArrivedKeepsRoom(r, k, chunk); }
    case BodyRead(k) => if k in r.sessions && HasMessage(r.sessions[k]) { BodyReadKeepsRoom(r, k); }
    case ReadFailed(k) => ReadFailedKeepsRoom(r, k);
    case Written(k, ok) => if k in r.sessions { WrittenKeepsRoom(r, k, ok); }
  }

  // ----- theorems about every run -----

  lemma {:induction false} RunKeepsRoom<K>(es: seq<Event<K>>)
    ensures RoomOk(Run(EmptyRoom(), es))
  {
    if es != [] {
      RunKeepsRoom(es[..|es| - 1]);
      ExecKeepsRoom(Run(EmptyRoom(), es[..|es| - 1]), es[|es| - 1]);
    }
  }

  /**
   * Total-order broadcast with bounded replay: whatever happens, a session has been given the
   * history from at most a hundred messages before it joined up to now, or up to when it left:
   * no gap, nothing twice, nothing out of order, nothing after it left.
   */
  lemma BroadcastExact<K>(es: seq<Event<K>>, k: K)
    requires k in Run(EmptyRoom(), es).sessions
    ensures var r := Run(EmptyRoom(), es); var s := r.sessions[k];
      var until := if s.leftAt.Some? then s.leftAt.value else |r.history|;
      && s.joinedAt <= until <= |r.history|
      && s.pump.enqueued == r.history[From(s.joinedAt)..until]
      && (k in r.participants <==> s.leftAt == None)
      && r.recent == Last(r.history, MAX_RECENT)
  {
    RunKeepsRoom(es);
  }

  /** How many messages are remembered, and from where on a session that joins is given them. */
  lemma AHundredMessages(history: seq<Message>, joined: nat)
    ensures |Last(history, MAX_RECENT)| == (if |history| < 100 then |history| else 100)
    ensures history == history[..|history| - |Last(history, MAX_RECENT)|] + Last(history, MAX_RECENT)
    ensures From(joined) == (if joined < 100 then 0 else joined - 100)
  {
  }

  /** The history only grows, so what a session was given never has to be taken back. */
  lemma {:induction false} HistoryOnlyGrows<K>(r: Room<K>, es: seq<Event<K>>)
    ensures r.history <= Run(r, es).history && r.sessions.Keys <= Run(r, es).sessions.Keys
  {
    hide Exec;
    if es != [] {
      HistoryOnlyGrows(r, es[..|es| - 1]);
      HistoryGrows(Run(r, es[..|es| - 1]), es[|es| - 1]);
    }
  }

  lemma HistoryGrows<K>(r: Room<K>, e: Event<K>)
    ensures r.history <= Exec(r, e).history && r.sessions.Keys <= Exec(r, e).sessions.Keys
  {
    hide Parse;
  }

  /**
   * The pump: never more than one write under way, exactly one when there is something to send and
   * no write has failed, and it carries the front of the deque; what has been sent and what is
   * queued are together what was enqueued, in order.
   */
  lemma PumpExact<K>(es: seq<Event<K>>, k: K)
    requires k in Run(EmptyRoom(), es).sessions
    ensures var p := Run(EmptyRoom(), es).sessions[k].pump;
      && p.sent + p.queue == p.enqueued
      && |p.underWay| <= 1
      && (|p.underWay| == 1 <==> p.queue != [] && !p.failed)
      && (|p.underWay| == 1 ==> p.underWay[0] == p.queue[0])
  {
    RunKeepsRoom(es);
  }

  /**
   * End to end: the bytes that a connection has carried, wherever in the frame under way they end,
   * are read at the other end as exactly the next messages of the room's history: those sent, and
   * the one under way exactly when all of its frame has been carried.
   */
  lemma EndToEnd<K>(es: seq<Event<K>>, k: K, wire: seq<Byte>)
    requires k in Run(EmptyRoom(), es).sessions && OnTheWire(Run(EmptyRoom(), es).sessions[k].pump, wire)
    ensures var r := Run(EmptyRoom(), es); var s := r.sessions[k];
      var n := |s.pump.sent| + if WhollyCarried(s.pump, wire) then 1 else 0;
      && From(s.joinedAt) + n <= |r.history|
      && Parse(wire).messages == r.history[From(s.joinedAt)..From(s.joinedAt) + n]
      && !Parse(wire).failed
  {
    RunKeepsRoom(es);
    hide Run, Parse, WellFormed, PumpOk, RoomOk, OnTheWire, WhollyCarried, Stream;
    var r := Run(EmptyRoom(), es);
    SentIsSlice(r, k);
    HistoryIsWellFormed(r);
    WireIsRead(r.history, From(r.sessions[k].joinedAt), r.sessions[k].pump, wire);
  }

  predicate WhollyCarried(p: Pump, wire: seq<Byte>) {
    p.queue != [] && wire == Stream(p.sent) + Frame(p.queue[0])
  }

  lemma HistoryIsWellFormed<K>(r: Room<K>)
    requires RoomOk(r)
    ensures forall i :: 0 <= i < |r.history| ==> WellFormed(r.history[i])
  {
  }

  lemma WireIsRead(history: seq<Message>, from: nat, p: Pump, wire: seq<Byte>)
    requires from + |p.sent| <= |history| && p.sent == history[from..from + |p.sent|]
    requires p.queue != [] ==> from + |p.sent| < |history| && p.queue[0] == history[from + |p.sent|]
    requires forall i :: 0 <= i < |history| ==> WellFormed(history[i])
    requires OnTheWire(p, wire)
    ensures var n := |p.sent| + if WhollyCarried(p, wire) then 1 else 0;
      from + n <= |history| && Parse(wire).messages == history[from..from + n] && !Parse(wire).failed
  {
    hide Parse, WellFormed, Stream, WhollyCarried, Frame;
    var cut: nat :| IsCut(p, cut) && wire == Stream(p.sent) + Part(p, cut);
    if p.queue != [] {
      FrameNotEmpty(p.queue[0]);
    }
    CarriedIff(p, cut, wire);
    assert forall i :: 0 <= i < |p.sent| ==> p.sent[i] == history[from + i];
    if cut == 0 {
      StreamIsRead(p.sent);
      assert wire == Stream(p.sent);
    } else if cut < |Frame(p.queue[0])| {
      CutStream(p.sent, p.queue[0], cut);
    } else {
      assert Part(p, cut) == Frame(p.queue[0]);
      WholeIsRead(history, from, p);
    }
  }

  lemma WholeIsRead(history: seq<Message>, from: nat, p: Pump)
    requires p.queue != [] && from + |p.sent| < |history| && p.sent == history[from..from + |p.sent|]
    requires p.queue[0] == history[from + |p.sent|] && forall i :: 0 <= i < |history| ==> WellFormed(history[i])
    ensures Parse(Stream(p.sent) + Frame(p.queue[0])) == Parsed(history[from..from + |p.sent| + 1], [], false)
  {
    hide Parse, WellFormed, Stream, Frame;
    var ms := history[from..from + |p.sent| + 1];
    assert ms == p.sent + [p.queue[0]];
    StreamConcat(p.sent, [p.queue[0]]);
    StreamOne(p.queue[0]);
    StreamIsRead(ms);
  }

  lemma CarriedIff(p: Pump, cut: nat, wire: seq<Byte>)
    requires IsCut(p, cut) && wire == Stream(p.sent) + Part(p, cut)
    requires p.queue != [] ==> |Frame(p.queue[0])| > 0
    ensures WhollyCarried(p, wire) <==> p.queue != [] && cut == |Frame(p.queue[0])|
  {
    hide Stream, Frame;
    if p.queue != [] && cut == |Frame(p.queue[0])| {
      assert Part(p, cut) == Frame(p.queue[0]);
    }
  }

  lemma FrameNotEmpty(m: Message)
    requires WellFormed(m)
    ensures |Frame(m)| > 0
  {
  }

  lemma StreamOne(m: Message)
    ensures Stream([m]) == Frame(m)
  {
    assert Stream([m][1..]) == [];
  }

  lemma StreamIsRead(ms: seq<Message>)
    requires forall i :: 0 <= i < |ms| ==> WellFormed(ms[i])
    ensures Parse(Stream(ms)) == Parsed(ms, [], false)
  {
    hide Stream, WellFormed;
    StreamRoundTrip(ms, []);
    assert Stream(ms) + [] == Stream(ms) && ms + [] == ms;
  }

  lemma SentIsSlice<K>(r: Room<K>, k: K)
    requires RoomOk(r) && k in r.sessions
    ensures var s := r.sessions[k]; var from := From(s.joinedAt);
      && from + |s.pump.enqueued| <= |r.history|
      && from + |s.pump.sent| <= |r.history|
      && s.pump.sent == r.history[from..from + |s.pump.sent|]
      && (s.pump.queue != [] ==>
            from + |s.pump.sent| < |r.history| && s.pump.queue[0] == r.history[from + |s.pump.sent|])
  {
    var s := r.sessions[k];
    assert SessionOk(r.history, k in r.participants, s);
    var until := if s.leftAt.Some? then s.leftAt.value else |r.history|;
    assert s.pump.sent == s.pump.enqueued[..|s.pump.sent|];
    assert s.pump.enqueued == r.history[From(s.joinedAt)..until];
    if s.pump.queue != [] {
      assert s.pump.enqueued[|s.pump.sent|] == s.pump.queue[0];
    }
  }

  // ----- each session by itself, from the events -----

  /**
   * What the events say of one session: how long the history was when it came and when it left,
   * what has arrived on it and how much of it has been handled, how many writes have completed.
   */
  datatype Track = Track(
    joined: nat, left: Option<nat>, reading: bool, bytes: seq<Byte>, handled: nat, completed: nat, failed: bool)

  /** How many messages the session has been given, with n messages in the history. */
  function Given(t: Track, n: nat): int {
    (if t.left.Some? then t.left.value else n) - From(t.joined)
  }

  /** A failed read or a failed write makes the session leave, if it has not left before. */
  function Left(t: Track, n: nat): Track {
    if t.left == None then t.(left := Some(n)) else t
  }

  /** One event, with n messages in the history before it. */
  function Follow<K(==)>(t: Option<Track>, k: K, e: Event<K>, n: nat): Option<Track> {
    if e.k != k then t
    else if t == None then if e.Accept? then Some(Track(n, None, true, [], 0, 0, false)) else None
    else
      var x := t.value;
      match e
      case Accept(_) => t
      case Arrived(_, chunk) => if x.reading then Some(x.(bytes := x.bytes + chunk)) else t
      case BodyRead(_) =>
        if x.reading && x.handled < |Parse(x.bytes).messages| then Some(x.(handled := x.handled + 1)) else t
      case ReadFailed(_) => if x.reading then Some(Left(x.(reading := false), n)) else t
      case Written(_, ok) =>
        if x.failed || x.completed >= Given(x, n) then t
        else if ok then Some(x.(completed := x.completed + 1))
        else Some(Left(x.(failed := true), n))
  }

  ghost function TrackOf<K>(es: seq<Event<K>>, k: K): Option<Track> {
    if es == [] then None
    else
      var front := es[..|es| - 1];
      Follow(TrackOf(front, k), k, es[|es| - 1], |Run(EmptyRoom(), front).history|)
  }

  ghost predicate Matches<K>(r: Room<K>, k: K, t: Option<Track>) {
    && (t == None <==> k !in r.sessions)
    && (t.Some? ==>
          var s, x := r.sessions[k], t.value;
          && s.joinedAt == x.joined && s.leftAt == x.left && (k in r.participants <==> x.left == None)
          && s.reading == x.reading && s.inbound == x.bytes && s.taken == x.handled
          && |s.pump.sent| == x.completed && s.pump.failed == x.failed)
  }

  lemma EnqueueSendsNothing(p: Pump, m: Message)
    ensures Enqueue(p, m).sent == p.sent && Enqueue(p, m).failed == p.failed
  {
  }

  lemma {:induction false} EnqueueAllSendsNothing(p: Pump, ms: seq<Message>)
    ensures EnqueueAll(p, ms).sent == p.sent && EnqueueAll(p, ms).failed == p.failed
  {
    if ms != [] {
      EnqueueAllSendsNothing(p, ms[..|ms| - 1]);
    }
  }

  lemma WriteDoneCounts(p: Pump, ok: bool)
    requires PumpOk(p) && p.underWay != []
    ensures var p' := WriteDone(p, ok);
      |p'.sent| == |p.sent| + (if ok then 1 else 0) && (p'.failed <==> p.failed || !ok)
  {
  }

  /** A write is under way exactly when there is something given and not sent, and none has failed. */
  lemma UnderWayIff(history: seq<Message>, present: bool, s: Session, x: Track)
    requires SessionOk(history, present, s) && s.joinedAt == x.joined && s.leftAt == x.left
    requires |s.pump.sent| == x.completed && s.pump.failed == x.failed
    ensures s.pump.underWay != [] <==> !x.failed && x.completed < Given(x, |history|)
  {
    assert |s.pump.enqueued| == |s.pump.sent| + |s.pump.queue|;
  }

  lemma DeliverMatches<K>(r: Room<K>, j: K, m: Message, k: K, t: Option<Track>)
    requires Matches(r, k, t)
    ensures Matches(Deliver(r, j, m), k, t)
  {
    if k in r.sessions {
      EnqueueSendsNothing(r.sessions[k].pump, m);
    }
  }

  lemma WrittenMatches<K>(r: Room<K>, k: K, ok: bool, x: Track)
    requires RoomOk(r) && Matches(r, k, Some(x))
    ensures Matches(Exec(r, Written(k, ok)), k, Follow(Some(x), k, Event.Written(k, ok), |r.history|))
  {
    hide RoomOk, SessionOk, PumpOk, WriteDone, Given;
    SessionIsOk(r, k);
    UnderWayIff(r.history, k in r.participants, r.sessions[k], x);
    if r.sessions[k].pump.underWay != [] {
      WriteDoneCounts(r.sessions[k].pump, ok);
    }
  }

  lemma SessionIsOk<K>(r: Room<K>, k: K)
    requires RoomOk(r) && k in r.sessions
    ensures SessionOk(r.history, k in r.participants, r.sessions[k]) && PumpOk(r.sessions[k].pump)
  {
  }

  lemma FollowStep<K>(r: Room<K>, e: Event<K>, k: K, t: Option<Track>)
    requires RoomOk(r) && Matches(r, k, t)
    ensures Matches(Exec(r, e), k, Follow(t, k, e, |r.history|))
  {
    hide Parse, RoomOk, EnqueueAll, PumpOk;
    match e
    case Accept(j) => EnqueueAllSendsNothing(NEW_PUMP, r.recent);
    case Arrived(_, _) =>
    case BodyRead(j) =>
      if j in r.sessions && HasMessage(r.sessions[j]) {
        var s := r.sessions[j];
        var r1 := UpdateSession(r, j, s.(taken := s.taken + 1));
        assert Matches(r1, k, Follow(t, k, e, |r.history|));
        DeliverMatches(r1, j, Parse(s.inbound).messages[s.taken], k, Follow(t, k, e, |r.history|));
      }
    case ReadFailed(_) =>
    case Written(j, ok) => if j == k && k in r.sessions { WrittenMatches(r, k, ok, t.value); }
  }

  /**
   * Every session is where the events put it. It is in the room exactly from its acceptance to its
   * first failed read or failed write; its bytes are those that arrived while it was reading, each
   * message in them handled once; and exactly one message is sent for each write that completes.
   */
  lemma {:induction false} SessionsFollow<K>(es: seq<Event<K>>, k: K)
    ensures Matches(Run(EmptyRoom(), es), k, TrackOf(es, k))
  {
    if es != [] {
      var front := es[..|es| - 1];
      SessionsFollow(front, k);
      RunKeepsRoom(front);
      hide Exec, Matches, RoomOk, Follow;
      FollowStep(Run(EmptyRoom(), front), es[|es| - 1], k, TrackOf(front, k));
    }
  }

  // ----- the client -----

  /** chat_client.cpp: messages passed to write, the handlers posted for them, and the same pump. */
  datatype Client = Client(written: seq<Message>, posted: seq<Message>, pump: Pump)

  datatype ClientEvent = WriteCalled(m: Message) | PostedRuns | WriteCompletes(ok: bool)

  const NEW_CLIENT := Client([], [], NEW_PUMP)

  function ClientExec(c: Client, e: ClientEvent): Client {
    match e
    case WriteCalled(m) => c.(written := c.written + [m], posted := c.posted + [m])
    case PostedRuns =>
      if c.posted == [] then c else c.(posted := c.posted[1..], pump := Enqueue(c.pump, c.posted[0]))
    case WriteCompletes(ok) => c.(pump := WriteDone(c.pump, ok))
  }

  function ClientRun(c: Client, es: seq<ClientEvent>): Client {
    if es == [] then c else ClientExec(ClientRun(c, es[..|es| - 1]), es[|es| - 1])
  }

  /** Nothing is lost between the caller and the socket, and the order is the caller's. */
  ghost predicate ClientOk(c: Client) {
    PumpOk(c.pump) && c.pump.enqueued + c.posted == c.written
  }

  lemma ClientKeepsOk(c: Client, e: ClientEvent)
    requires ClientOk(c)
    ensures ClientOk(ClientExec(c, e))
  {
    match e
    case WriteCalled(m) => assert c.pump.enqueued + (c.posted + [m]) == c.pump.enqueued + c.posted + [m];
    case PostedRuns =>
      if c.posted != [] {
        EnqueueKeepsPump(c.pump, c.posted[0]);
        assert c.posted == [c.posted[0]] + c.posted[1..];
      }
    case WriteCompletes(ok) => WriteDoneKeepsPump(c.pump, ok);
  }

  /** The messages passed to `write`, from the events alone. */
  function WrittenOf(es: seq<ClientEvent>): seq<Message> {
    if es == [] then []
    else
      var before, e := WrittenOf(es[..|es| - 1]), es[|es| - 1];
      if e.WriteCalled? then before + [e.m] else before
  }

  /** How many posted handlers have run, how many writes have completed, and whether one has failed. */
  datatype Progress = Progress(posted: nat, run: nat, completed: nat, failed: bool)

  function ProgressOf(es: seq<ClientEvent>): Progress {
    if es == [] then Progress(0, 0, 0, false)
    else
      var p := ProgressOf(es[..|es| - 1]);
      match es[|es| - 1]
      case WriteCalled(_) => p.(posted := p.posted + 1)
      case PostedRuns => if p.run < p.posted then p.(run := p.run + 1) else p
      case WriteCompletes(ok) =>
        if p.failed || p.completed >= p.run then p
        else if ok then p.(completed := p.completed + 1)
        else p.(failed := true)
  }

  ghost predicate AtProgress(c: Client, p: Progress) {
    && |c.written| == p.posted && |c.pump.enqueued| == p.run && |c.pump.sent| == p.completed
    && c.pump.failed == p.failed
  }

  lemma ClientProgress(c: Client, e: ClientEvent, p: Progress)
    requires ClientOk(c) && AtProgress(c, p)
    ensures AtProgress(ClientExec(c, e),
      match e
      case WriteCalled(_) => p.(posted := p.posted + 1)
      case PostedRuns => if p.run < p.posted then p.(run := p.run + 1) else p
      case WriteCompletes(ok) =>
        if p.failed || p.completed >= p.run then p
        else if ok then p.(completed := p.completed + 1)
        else p.(failed := true))
  {
    assert |c.pump.enqueued| == |c.pump.sent| + |c.pump.queue| && |c.written| == |c.pump.enqueued| + |c.posted|;
    match e
    case WriteCalled(_) =>
    case PostedRuns => if c.posted != [] { EnqueueSendsNothing(c.pump, c.posted[0]); EnqueueAdds(c.pump, c.posted[0]); }
    case WriteCompletes(ok) =>
      if c.pump.underWay != [] {
        WriteDoneCounts(c.pump, ok);
        WriteDoneKeepsPump(c.pump, ok);
      }
  }

  /**
   * A client is where the events put it: what is written is what was passed to `write`, each
   * handler that runs enqueues one message, and each write that completes has sent one.
   */
  lemma {:induction false} ClientFollows(es: seq<ClientEvent>)
    ensures ClientRun(NEW_CLIENT, es).written == WrittenOf(es)
    ensures AtProgress(ClientRun(NEW_CLIENT, es), ProgressOf(es))
  {
    if es != [] {
      ClientFollows(es[..|es| - 1]);
      ClientRunKeepsOk(es[..|es| - 1]);
      ClientProgress(ClientRun(NEW_CLIENT, es[..|es| - 1]), es[|es| - 1], ProgressOf(es[..|es| - 1]));
    }
  }

  lemma {:induction false} ClientRunKeepsOk(es: seq<ClientEvent>)
    ensures ClientOk(ClientRun(NEW_CLIENT, es))
  {
    if es != [] {
      ClientRunKeepsOk(es[..|es| - 1]);
      ClientKeepsOk(ClientRun(NEW_CLIENT, es[..|es| - 1]), es[|es| - 1]);
    }
  }

  lemma {:induction false} StreamConcat(a: seq<Message>, b: seq<Message>)
    ensures Stream(a + b) == Stream(a) + Stream(b)
  {
    hide Frame;
    if a == [] {
      assert a + b == b;
    } else {
      StreamConcat(a[1..], b);
      assert (a + b)[1..] == a[1..] + b && (a + b)[0] == a[0];
      assert Stream(a + b) == Frame(a[0]) + (Stream(a[1..]) + Stream(b));
    }
  }

  lemma WireIsPrefix(p: Pump, bytes: seq<Byte>)
    requires PumpOk(p) && OnTheWire(p, bytes)
    ensures bytes <= Stream(p.enqueued)
  {
    var cut: nat :| IsCut(p, cut) && bytes == Stream(p.sent) + Part(p, cut);
    StreamConcat(p.sent, p.queue);
    assert Part(p, cut) <= Stream(p.queue);
  }

  /** A beginning of a stream of messages is read as a beginning of the messages. */
  lemma PrefixIsRead(ms: seq<Message>, bytes: seq<Byte>)
    requires (forall i :: 0 <= i < |ms| ==> WellFormed(ms[i])) && bytes <= Stream(ms)
    ensures Parse(bytes).messages <= ms && !Parse(bytes).failed
  {
    hide Parse, Stream, WellFormed;
    var rest := Stream(ms)[|bytes|..];
    assert bytes + rest == Stream(ms);
    StreamIsRead(ms);
    ParseAppend(bytes, rest);
  }

  /**
   * From a client's `write` to the room: whatever the room and the client do, and however the
   * bytes that the client has sent are delayed and cut up on the way, what the history holds from
   * that client's session is a beginning of what was passed to `write`, in order.
   */
  lemma ClientToRoom<K>(es: seq<Event<K>>, k: K, cs: seq<ClientEvent>, carried: seq<Byte>)
    requires var r := Run(EmptyRoom(), es); var c := ClientRun(NEW_CLIENT, cs);
      && k in r.sessions && r.sessions[k].inbound <= carried && OnTheWire(c.pump, carried)
      && forall i :: 0 <= i < |c.written| ==> WellFormed(c.written[i])
    ensures var r := Run(EmptyRoom(), es); var c := ClientRun(NEW_CLIENT, cs);
      && |r.authors| == |r.history| && r.sessions[k].taken <= |c.written|
      && FromAuthor(r.history, r.authors, k) == c.written[..r.sessions[k].taken]
      && !Parse(r.sessions[k].inbound).failed
  {
    RunKeepsRoom(es);
    ClientRunKeepsOk(cs);
    var r := Run(EmptyRoom(), es);
    var c := ClientRun(NEW_CLIENT, cs);
    hide Run, ClientRun, FromAuthor, Parse, PumpOk, WellFormed;
    WireIsPrefix(c.pump, carried);
    StreamConcat(c.pump.enqueued, c.posted);
    PrefixIsRead(c.written, r.sessions[k].inbound);
  }

  /** Without a client in mind: a session's part of the history is what its bytes mean, as far as handled. */
  lemma AuthorsExact<K>(es: seq<Event<K>>, k: K)
    requires k in Run(EmptyRoom(), es).sessions
    ensures var r := Run(EmptyRoom(), es); var s := r.sessions[k];
      && |r.authors| == |r.history| && s.taken <= |Parse(s.inbound).messages|
      && FromAuthor(r.history, r.authors, k) == Parse(s.inbound).messages[..s.taken]
  {
    RunKeepsRoom(es);
  }
}
