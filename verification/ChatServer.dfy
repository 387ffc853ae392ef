/**
 * The server's objects: sessions that own a reader and a write deque, and the room that owns the
 * sessions and the recent messages. Every method is one handler, or a part of one, and is proved
 * to do to the objects what `ChatRoom` says it does to the room as a value.
 */
module ChatServer {
  import opened ChatMessages
  import opened ChatReader
  import opened ChatRoom

  class ChatSession {
    const reader: Reader
    var taken: nat                   // messages of the reader that have been handled
    var writeMessages: seq<Message>
    var underWay: seq<Message>       // what the asynchronous writes that are running carry
    var writeFailed: bool
    var reading: bool
    ghost var sent: seq<Message>
    ghost var enqueued: seq<Message>
    ghost var joinedAt: nat
    ghost var leftAt: Option<nat>
    ghost var inbound: seq<Byte>     // what has arrived on the socket

    ghost function PumpView(): Pump
      reads this
    {
      Pump(writeMessages, underWay, writeFailed, sent, enqueued)
    }

    ghost function View(): Session
      reads this
    {
      Session(PumpView(), reading, joinedAt, leftAt, inbound, taken)
    }

    constructor (ghost joinedAt: nat)
      ensures View() == Session(NEW_PUMP, true, joinedAt, None, [], 0)
      ensures reader.Valid() && reader.received == [] && fresh(Inbox(this))
    {
      reader := new Reader();
      taken := 0;
      writeMessages, underWay, writeFailed, reading := [], [], false, true;
      sent, enqueued, leftAt, inbound := [], [], None, [];
      this.joinedAt := joinedAt;
    }

    method Deliver(m: Message)
      requires PumpOk(View().pump)
      modifies `writeMessages, `underWay, `enqueued
      ensures View() == old(View()).(pump := Enqueue(old(View()).pump, m)) && PumpOk(View().pump)
    {
      EnqueueKeepsPump(PumpView(), m);
      var writing := writeMessages != [];
      writeMessages := writeMessages + [m];
      enqueued := enqueued + [m];
      if !writing {
        Write();
      }
    }

    /** Starts the asynchronous write of the front of the deque; none may be running. */
    method Write()
      requires writeMessages != [] && underWay == []
      modifies `underWay
      ensures underWay == [writeMessages[0]]
    {
      underWay := underWay + [writeMessages[0]];
    }

    /** The completion handler of the write, but for leaving the room. */
    method WriteCompleted(ok: bool)
      requires PumpOk(View().pump) && View().pump.underWay != []
      modifies `writeMessages, `underWay, `writeFailed, `sent
      ensures View() == old(View()).(pump := WriteDone(old(View()).pump, ok)) && PumpOk(View().pump)
    {
      WriteDoneKeepsPump(PumpView(), ok);
      var message := underWay[0];
      underWay := underWay[1..];
      if ok {
        sent := sent + [message];
        writeMessages := writeMessages[1..];
        if writeMessages != [] {
          Write();
        }
      } else {
        writeFailed := true;
      }
    }

    /** The next message that the reader has put together. */
    method Take() returns (m: Message)
      requires View().taken < |reader.delivered|
      modifies `taken
      ensures View() == old(View()).(taken := old(View()).taken + 1)
      ensures m == reader.delivered[old(View()).taken]
    {
      m := reader.delivered[taken];
      taken := taken + 1;
    }

    method StopReading()
      modifies `reading
      ensures View() == old(View()).(reading := false)
    {
      reading := false;
    }

    ghost method Leave(now: nat)
      modifies `leftAt
      ensures View() == if old(View()).leftAt == None then old(View()).(leftAt := Some(now)) else old(View())
    {
      if leftAt == None {
        leftAt := Some(now);
      }
    }

    ghost method Receive(chunk: seq<Byte>)
      modifies `inbound
      ensures inbound == old(inbound) + chunk && View() == old(View()).(inbound := old(View()).inbound + chunk)
    {
      inbound := inbound + chunk;
    }
  }

  /** What a session's reader is made of. */
  function Inbox(s: ChatSession): set<object> {
    {s.reader, s.reader.message, s.reader.message.data}
  }

  /** Every session has a reader of its own, which has had the session's bytes. */
  ghost predicate ReadersOk(ss: set<ChatSession>)
    reads ss`inbound, set s | s in ss :: s.reader
    reads set s | s in ss :: s.reader.message
    reads set s | s in ss :: s.reader.message.data
  {
    && (forall s :: s in ss ==> s.reader.Valid() && s.reader.received == s.inbound)
    && (forall s, u :: s in ss && u in ss && s != u ==> Inbox(s) !! Inbox(u))
  }

  method FeedReader(p: ChatSession, ghost ss: set<ChatSession>, chunk: seq<Byte>)
    requires p in ss && forall s, u :: s in ss && u in ss && s != u ==> Inbox(s) !! Inbox(u)
    requires forall s :: s in ss ==>
      s.reader.Valid() && s.inbound == s.reader.received + if s == p then chunk else []
    modifies Inbox(p)
    ensures ReadersOk(ss)
  {
    hide Reader.Valid;
    assert forall s :: s in ss && s != p ==> Inbox(s) !! Inbox(p);
    p.reader.Feed(chunk);
  }

  lemma AddReader(ss: set<ChatSession>, p: ChatSession)
    requires ReadersOk(ss) && p.reader.Valid() && p.reader.received == p.inbound
    requires forall s :: s in ss ==> Inbox(s) !! Inbox(p)
    ensures ReadersOk(ss + {p})
  {
  }

  /** What happens elsewhere does not disturb the readers. */
  twostate lemma ReadersKept(ss: set<ChatSession>)
    requires old(ReadersOk(ss))
    requires forall s :: s in ss ==>
      s.inbound == old(s.inbound) && unchanged(s.reader) && unchanged(s.reader.message) && unchanged(s.reader.message.data)
    ensures ReadersOk(ss)
  {
  }

  /** A part of a reader is not a session. */
  lemma ReadersElsewhere(ss: set<ChatSession>, objects: set<object>)
    requires objects == ss
    ensures forall s :: s in ss ==>
      s.reader !in objects && s.reader.message !in objects && s.reader.message.data !in objects
  {
  }

  /** The messages that a session can take are those that its bytes mean. */
  lemma DeliveredIsParsed(p: ChatSession, ss: set<ChatSession>)
    requires ReadersOk(ss) && p in ss
    ensures p.reader.delivered == Parse(p.View().inbound).messages
  {
  }

  lemma BodyReadDelivers<K>(r: Room<K>, k: K)
    requires RoomOk(r) && k in r.sessions && HasMessage(r.sessions[k])
    ensures var s := r.sessions[k];
      var r' := UpdateSession(r, k, s.(taken := s.taken + 1));
      && Exec(r, Event.BodyRead(k)) == ChatRoom.Deliver(r', k, Parse(s.inbound).messages[s.taken])
      && r'.participants == r.participants <= r'.sessions.Keys && k in r'.sessions
      && forall j :: j in r'.sessions ==> PumpOk(r'.sessions[j].pump)
  {
  }

  lemma ArrivedRecords<K>(r: Room<K>, k: K, chunk: seq<Byte>)
    requires k in r.sessions && r.sessions[k].reading
    ensures var r' := UpdateSession(r, k, r.sessions[k].(inbound := r.sessions[k].inbound + chunk));
      Exec(r, Arrived(k, chunk)) == r' && r'.sessions.Keys == r.sessions.Keys
  {
  }

  lemma WrittenRecords<K>(r: Room<K>, k: K, ok: bool)
    requires k in r.sessions && r.sessions[k].pump.underWay != []
    ensures var r' := UpdateSession(r, k, r.sessions[k].(pump := WriteDone(r.sessions[k].pump, ok)));
      Exec(r, Written(k, ok)) == if ok then r' else ChatRoom.Leave(r', k)
  {
  }

  lemma KeepsSessions<K>(r: Room<K>, e: Event<K>)
    requires !e.Accept?
    ensures Exec(r, e).sessions.Keys == r.sessions.Keys
  {
  }

  lemma PumpsAreOk<K>(r: Room<K>)
    requires RoomOk(r)
    ensures forall k :: k in r.sessions ==> PumpOk(r.sessions[k].pump)
  {
  }

  class ChatRoomObject {
    var participants: set<ChatSession>
    var recentMsgs: seq<Message>
    ghost var model: Room<ChatSession>       // the room as a value

    /** The objects are in the state that r describes. */
    ghost predicate Is(r: Room<ChatSession>)
      reads this, r.sessions.Keys
    {
      && participants == r.participants && recentMsgs == r.recent
      && forall s :: s in r.sessions ==> s.View() == r.sessions[s]
    }

    ghost predicate Valid()
      reads this, model.sessions.Keys
    {
      Is(model) && RoomOk(model)
    }

    constructor ()
      ensures Valid() && model == EmptyRoom()
    {
      participants, recentMsgs, model := {}, [], EmptyRoom();
    }

    /** The server's accept handler: a new session, started. */
    method Accept() returns (p: ChatSession)
      requires Valid()
      modifies this
      ensures Valid() && fresh(p) && fresh(Inbox(p)) && p !in old(model).sessions
      ensures model == Exec(old(model), Event.Accept(p))
      ensures old(ReadersOk(model.sessions.Keys)) ==> ReadersOk(model.sessions.Keys)
    {
      hide RoomOk, ReadersOk, Is, Join;
      ghost var ss := model.sessions.Keys;
      p := new ChatSession(|model.history|);
      assert p !in ss;
      ExecKeepsRoom(model, Event.Accept(p));
      JoinAdds(model, p);
      Start(p);
      if old(ReadersOk(ss)) {
        ReadersKept(ss);
        AddReader(ss, p);
      }
    }

    lemma JoinAdds(r: Room<ChatSession>, p: ChatSession)
      ensures Join(r, p).sessions.Keys == r.sessions.Keys + {p}
    {
    }

    /** ChatSession::start and ChatRoom::join: the recent messages are replayed in order. */
    method Start(p: ChatSession)
      requires Is(model) && p !in model.sessions && p.View() == Session(NEW_PUMP, true, |model.history|, None, [], 0)
      modifies this, p`writeMessages, p`underWay, p`enqueued
      ensures Is(model) && model == Join(old(model), p)
      ensures p.inbound == []
    {
      hide EnqueueAll;
      participants := participants + {p};
      Replay(p);
      model := Join(model, p);
    }

    method Replay(p: ChatSession)
      requires p.View().pump == NEW_PUMP
      modifies p`writeMessages, p`underWay, p`enqueued
      ensures p.View() == old(p.View()).(pump := EnqueueAll(NEW_PUMP, recentMsgs))
    {
      hide ChatSession.View;
      for i := 0 to |recentMsgs|
        invariant p.View() == old(p.View()).(pump := EnqueueAll(NEW_PUMP, recentMsgs[..i])) && PumpOk(p.View().pump)
      {
        assert recentMsgs[..i + 1][..i] == recentMsgs[..i];
        p.Deliver(recentMsgs[i]);
      }
      assert recentMsgs[..|recentMsgs|] == recentMsgs;
    }

    method Leave(p: ChatSession)
      requires p in model.sessions && Is(model)
      modifies this, p`leftAt
      ensures model == ChatRoom.Leave(old(model), p) && Is(model)
    {
      hide ChatSession.View;
      participants := participants - {p};
      p.Leave(|model.history|);
      model := ChatRoom.Leave(model, p);
    }

    /** ChatRoom::deliver: remember, trim, hand to every participant in whatever order the set has. */
    method Deliver(p: ChatSession, m: Message)
      requires Is(model) && participants <= model.sessions.Keys && p in model.sessions
      requires forall s :: s in model.sessions ==> PumpOk(model.sessions[s].pump)
      modifies this, participants`writeMessages, participants`underWay, participants`enqueued
      ensures Is(model) && model == ChatRoom.Deliver(old(model), p, m)
    {
      Remember(m);
      HandOut(p, m);
      model := ChatRoom.Deliver(model, p, m);
    }

    method HandOut(p: ChatSession, m: Message)
      requires participants == model.participants <= model.sessions.Keys
      requires forall s :: s in model.sessions ==> PumpOk(model.sessions[s].pump)
      requires forall s :: s in model.sessions ==> s.View() == model.sessions[s]
      modifies participants`writeMessages, participants`underWay, participants`enqueued
      ensures forall s :: s in model.sessions ==> s.View() == ChatRoom.Deliver(model, p, m).sessions[s]
    {
      hide ChatSession.View, PumpOk, Enqueue;
      var todo := participants;
      while todo != {}
        invariant todo <= participants
        invariant forall s :: s in model.sessions ==>
          s.View() == if s in participants - todo then model.sessions[s].(pump := Enqueue(model.sessions[s].pump, m))
                      else model.sessions[s]
        modifies participants`writeMessages, participants`underWay, participants`enqueued
        decreases |todo|
      {
        var next :| next in todo;
        next.Deliver(m);
        todo := todo - {next};
      }
    }

    method Remember(m: Message)
      modifies `recentMsgs
      ensures recentMsgs == Last(old(recentMsgs) + [m], MAX_RECENT)
    {
      recentMsgs := recentMsgs + [m];
      ghost var full := recentMsgs;
      while |recentMsgs| > MAX_RECENT
        invariant |recentMsgs| == |full| || |recentMsgs| >= MAX_RECENT
        invariant |recentMsgs| <= |full| && recentMsgs == full[|full| - |recentMsgs|..]
      {
        recentMsgs := recentMsgs[1..];
      }
    }

    /** The model follows one session. */
    ghost method Record(p: ChatSession, v: Session)
      requires participants == model.participants && recentMsgs == model.recent
      requires p in model.sessions && p.View() == v
      requires forall s :: s in model.sessions && s != p ==> s.View() == model.sessions[s]
      modifies `model
      ensures Is(model) && model == UpdateSession(old(model), p, v)
    {
      hide ChatSession.View;
      model := UpdateSession(model, p, v);
    }

    /** Bytes from the socket, as they come: they complete reads but run no handler yet. */
    method Arrive(p: ChatSession, chunk: seq<Byte>)
      requires Valid() && ReadersOk(model.sessions.Keys) && p in model.sessions && p.reading
      modifies `model, Inbox(p), p`inbound
      ensures Valid() && ReadersOk(model.sessions.Keys) && model == Exec(old(model), Event.Arrived(p, chunk))
    {
      hide Valid, Exec, Reader.Valid;
      ghost var ss := model.sessions.Keys;
      RecordArrival(p, chunk);
      FeedReader(p, ss, chunk);
    }

    method RecordArrival(p: ChatSession, ghost chunk: seq<Byte>)
      requires Valid() && p in model.sessions && p.reading
      modifies `model, p`inbound
      ensures Valid() && model == Exec(old(model), Event.Arrived(p, chunk))
      ensures model.sessions.Keys == old(model.sessions.Keys) && p.inbound == old(p.inbound) + chunk
    {
      ExecKeepsRoom(model, Event.Arrived(p, chunk));
      ArrivedRecords(model, p, chunk);
      hide RoomOk, Exec, ChatSession.View, UpdateSession;
      p.Receive(chunk);
      Record(p, model.sessions[p].(inbound := model.sessions[p].inbound + chunk));
    }

    /** The handler of a completed body read: the message goes to the whole room. */
    method BodyRead(p: ChatSession)
      requires Valid() && ReadersOk(model.sessions.Keys)
      requires p in model.sessions && p.reading && p.taken < |p.reader.delivered|
      modifies this, participants`writeMessages, participants`underWay, participants`enqueued, p`taken
      ensures Is(model) && model == Exec(old(model), Event.BodyRead(p))
    {
      hide RoomOk, Parse, ReadersOk, PumpOk, Enqueue, Exec, ChatRoom.Deliver, UpdateSession;
      DeliveredIsParsed(p, model.sessions.Keys);
      assert model.sessions[p] == p.View() && p.View().taken == p.taken && HasMessage(p.View());
      BodyReadDelivers(model, p);
      hide ChatSession.View, HasMessage;
      var m := p.Take();
      Record(p, model.sessions[p].(taken := model.sessions[p].taken + 1));
      Deliver(p, m);
    }

    /** A read that failed, or a header that was not accepted: the session leaves. */
    method ReadFailed(p: ChatSession)
      requires Is(model) && p in model.sessions && p.reading
      modifies this, p`reading, p`leftAt
      ensures Is(model) && model == Exec(old(model), Event.ReadFailed(p))
    {
      assert model.sessions[p].reading;
      hide ChatSession.View;
      p.StopReading();
      Record(p, model.sessions[p].(reading := false));
      Leave(p);
    }

    method Written(p: ChatSession, ok: bool)
      requires Valid() && p in model.sessions && p.underWay != []
      modifies this, p`leftAt, p`writeMessages, p`underWay, p`writeFailed, p`sent
      ensures Is(model) && model == Exec(old(model), Event.Written(p, ok))
    {
      PumpsAreOk(model);
      assert model.sessions[p].pump.underWay != [];
      WrittenRecords(model, p, ok);
      hide RoomOk, WriteDone, PumpOk, Exec, ChatRoom.Leave, ChatSession.View;
      p.WriteCompleted(ok);
      Record(p, model.sessions[p].(pump := WriteDone(model.sessions[p].pump, ok)));
      if !ok {
        Leave(p);
      }
    }

    /** The io_context has this handler to run: its read or write has been started and is over. */
    ghost predicate Due(e: Event<ChatSession>)
      reads this, e.k, e.k.reader
    {
      e.k in model.sessions &&
      match e
      case Accept(p) => false
      case Arrived(_, _) => false
      case BodyRead(p) => p.reading && p.taken < |p.reader.delivered|
      case ReadFailed(p) => p.reading
      case Written(p, _) => p.underWay != []
    }

    /** Whatever handler runs next, the server stays in order, and no handler touches a reader. */
    method Handle(e: Event<ChatSession>)
      requires Valid() && ReadersOk(model.sessions.Keys) && Due(e)
      modifies this, model.sessions.Keys`taken, model.sessions.Keys`writeMessages, model.sessions.Keys`underWay
      modifies model.sessions.Keys`writeFailed, model.sessions.Keys`reading, model.sessions.Keys`sent
      modifies model.sessions.Keys`enqueued, model.sessions.Keys`leftAt
      ensures Valid() && ReadersOk(model.sessions.Keys) && model == Exec(old(model), e)
    {
      hide Valid, Exec, ReadersOk;
      ghost var ss := model.sessions.Keys;
      KeepsSessions(model, e);
      ReadersElsewhere(ss, ss);
      Settle(e);
      ReadersKept(ss);
    }

    method Settle(e: Event<ChatSession>)
      requires Valid() && ReadersOk(model.sessions.Keys) && Due(e)
      modifies this, model.sessions.Keys`taken, model.sessions.Keys`writeMessages, model.sessions.Keys`underWay
      modifies model.sessions.Keys`writeFailed, model.sessions.Keys`reading, model.sessions.Keys`sent
      modifies model.sessions.Keys`enqueued, model.sessions.Keys`leftAt
      ensures Valid() && model == Exec(old(model), e)
    {
      ExecKeepsRoom(model, e);
      assert participants <= model.sessions.Keys;
      hide RoomOk, Exec, ReadersOk, Is;
      match e
      case BodyRead(p) => BodyRead(p);
      case ReadFailed(p) => ReadFailed(p);
      case Written(p, ok) => Written(p, ok);
    }
  }

  /** chat_client.cpp: `write` posts the message, the handler enqueues it, the pump is the same. */
  class ChatClient {
    var posted: seq<Message>                 // handlers posted to the io_context, in order
    var writeMessages: seq<Message>
    var underWay: seq<Message>
    var writeFailed: bool
    ghost var sent: seq<Message>
    ghost var enqueued: seq<Message>
    ghost var written: seq<Message>          // every message passed to write

    ghost function View(): Client
      reads this
    {
      Client(written, posted, Pump(writeMessages, underWay, writeFailed, sent, enqueued))
    }

    ghost predicate Valid()
      reads this
    {
      ClientOk(View())
    }

    constructor ()
      ensures Valid() && View() == NEW_CLIENT
    {
      posted, writeMessages, underWay, writeFailed := [], [], [], false;
      sent, enqueued, written := [], [], [];
    }

    method Write(m: Message)
      requires Valid()
      modifies `posted, `written
      ensures Valid() && View() == ClientExec(old(View()), WriteCalled(m))
    {
      ClientKeepsOk(View(), WriteCalled(m));
      posted := posted + [m];
      written := written + [m];
    }

    /** The private write(): none may be running. */
    method StartWriting()
      requires writeMessages != [] && underWay == []
      modifies `underWay
      ensures underWay == [writeMessages[0]]
    {
      underWay := underWay + [writeMessages[0]];
    }

    method RunPosted()
      requires Valid() && posted != []
      modifies this
      ensures Valid() && View() == ClientExec(old(View()), PostedRuns)
    {
      ClientKeepsOk(View(), PostedRuns);
      var m := posted[0];
      posted := posted[1..];
      var writeInProgress := writeMessages != [];
      writeMessages := writeMessages + [m];
      enqueued := enqueued + [m];
      if !writeInProgress {
        StartWriting();
      }
    }

    method WriteCompleted(ok: bool)
      requires Valid() && underWay != []
      modifies this
      ensures Valid() && View() == ClientExec(old(View()), WriteCompletes(ok))
    {
      ClientKeepsOk(View(), WriteCompletes(ok));
      var message := underWay[0];
      underWay := underWay[1..];
      if ok {
        sent := sent + [message];
        writeMessages := writeMessages[1..];
        if writeMessages != [] {
          StartWriting();
        }
      } else {
        writeFailed := true;
      }
    }
  }
}
