/**
 * The read side shared by the server's sessions and the client: read four bytes, decode them,
 * read as many bytes as they say, hand the message on, start over. The bytes arrive in chunks
 * that need not match the frames.
 */
module ChatReader {
  import opened ChatMessages

  /** A message as it stands in the buffer: the raw header and the body it announces. */
  datatype Message = Message(header: seq<Byte>, body: seq<Byte>)

  ghost predicate WellFormed(m: Message) {
    |m.header| == HEADER_LENGTH && HeaderValue(m.header) == |m.body| && |m.body| <= MAX_BODY_LENGTH
  }

  /** data_ up to dataLength(): what async_write sends. */
  function Frame(m: Message): seq<Byte> {
    m.header + m.body
  }

  function Stream(ms: seq<Message>): seq<Byte> {
    if ms == [] then [] else Frame(ms[0]) + Stream(ms[1..])
  }

  /** What a byte stream means: the complete messages, what is left over, and a bad header. */
  datatype Parsed = Parsed(messages: seq<Message>, rest: seq<Byte>, failed: bool)

  /** Where the first message of the bytes ends, if all of it is there. */
  function FirstEnd(bytes: seq<Byte>): (end: nat)
    requires |bytes| >= HEADER_LENGTH && Accepts(bytes[..HEADER_LENGTH])
    ensures end >= HEADER_LENGTH
  {
    HEADER_LENGTH + HeaderValue(bytes[..HEADER_LENGTH])
  }

  function Parse(bytes: seq<Byte>): Parsed {
    if |bytes| < HEADER_LENGTH then Parsed([], bytes, false)
    else if !Accepts(bytes[..HEADER_LENGTH]) then Parsed([], bytes, true)
    else if |bytes| < FirstEnd(bytes) then Parsed([], bytes, false)
    else
      var end := FirstEnd(bytes);
      Prepend([Message(bytes[..HEADER_LENGTH], bytes[HEADER_LENGTH..end])], Parse(bytes[end..]))
  }

  function Prepend(ms: seq<Message>, p: Parsed): Parsed {
    p.(messages := ms + p.messages)
  }

  lemma PrependTwice(a: seq<Message>, b: seq<Message>, p: Parsed)
    ensures Prepend(a, Prepend(b, p)) == Prepend(a + b, p)
  {
    assert a + (b + p.messages) == a + b + p.messages;
  }

  /** Reading goes on where it stopped: the first part's messages, then those of the left-over bytes. */
  function Resume(p: Parsed, more: seq<Byte>): Parsed {
    if p.failed then p.(rest := p.rest + more) else Prepend(p.messages, Parse(p.rest + more))
  }

  lemma {:induction false} ParseAppend(a: seq<Byte>, b: seq<Byte>)
    ensures Parse(a + b) == Resume(Parse(a), b)
    decreases |a|
  {
    if |a| >= HEADER_LENGTH {
      assert (a + b)[..HEADER_LENGTH] == a[..HEADER_LENGTH];
      if Accepts(a[..HEADER_LENGTH]) && |a| >= FirstEnd(a) {
        ParseAppendFirst(a, b);
        ParseAppend(a[FirstEnd(a)..], b);
        var m := [Message(a[..HEADER_LENGTH], a[HEADER_LENGTH..FirstEnd(a)])];
        var p := Parse(a[FirstEnd(a)..]);
        PrependTwice(m, p.messages, Parse(p.rest + b));
      }
    }
  }

  lemma ParseAppendFirst(a: seq<Byte>, b: seq<Byte>)
    requires |a| >= HEADER_LENGTH && Accepts(a[..HEADER_LENGTH]) && |a| >= FirstEnd(a)
    ensures Parse(a + b)
      == Prepend([Message(a[..HEADER_LENGTH], a[HEADER_LENGTH..FirstEnd(a)])], Parse(a[FirstEnd(a)..] + b))
  {
    assert (a + b)[..HEADER_LENGTH] == a[..HEADER_LENGTH];
    assert FirstEnd(a + b) == FirstEnd(a);
    assert (a + b)[HEADER_LENGTH..FirstEnd(a)] == a[HEADER_LENGTH..FirstEnd(a)];
    assert (a + b)[FirstEnd(a)..] == a[FirstEnd(a)..] + b;
  }

  lemma ParseFrame(m: Message, rest: seq<Byte>)
    requires WellFormed(m)
    ensures Parse(Frame(m) + rest) == Prepend([m], Parse(rest))
  {
    var bytes := Frame(m) + rest;
    assert bytes[..HEADER_LENGTH] == m.header;
    assert bytes[HEADER_LENGTH..HEADER_LENGTH + |m.body|] == m.body;
    assert bytes[HEADER_LENGTH + |m.body|..] == rest;
  }

  /** The framing round trip, for any list of well-formed messages and any start of a next one. */
  lemma {:induction false} StreamRoundTrip(ms: seq<Message>, partial: seq<Byte>)
    requires forall i :: 0 <= i < |ms| ==> WellFormed(ms[i])
    ensures Parse(Stream(ms) + partial) == Prepend(ms, Parse(partial))
  {
    hide Parse, Accepts, HeaderValue;
    if ms == [] {
      assert Stream(ms) + partial == partial;
      assert Prepend([], Parse(partial)) == Parse(partial);
    } else {
      var rest := Stream(ms[1..]) + partial;
      StreamRoundTrip(ms[1..], partial);
      ParseFrame(ms[0], rest);
      assert Stream(ms) + partial == Frame(ms[0]) + rest;
      PrependTwice([ms[0]], ms[1..], Parse(partial));
      assert [ms[0]] + ms[1..] == ms;
    }
  }

  /** A stream cut off inside a frame yields exactly the messages before the cut. */
  lemma CutStream(ms: seq<Message>, next: Message, k: nat)
    requires (forall i :: 0 <= i < |ms| ==> WellFormed(ms[i])) && WellFormed(next) && k < |Frame(next)|
    ensures Parse(Stream(ms) + Frame(next)[..k]) == Parsed(ms, Frame(next)[..k], false)
  {
    var part := Frame(next)[..k];
    StreamRoundTrip(ms, part);
    if k >= HEADER_LENGTH {
      assert part[..HEADER_LENGTH] == next.header;
    }
    assert ms + [] == ms;
  }

  /** A header that is not accepted ends the stream, after the messages before it. */
  lemma RefusedHeaderEnds(ms: seq<Message>, header: seq<Byte>, rest: seq<Byte>)
    requires (forall i :: 0 <= i < |ms| ==> WellFormed(ms[i])) && |header| == HEADER_LENGTH && !Accepts(header)
    ensures Parse(Stream(ms) + (header + rest)) == Parsed(ms, header + rest, true)
  {
    StreamRoundTrip(ms, header + rest);
    assert (header + rest)[..HEADER_LENGTH] == header;
    assert ms + [] == ms;
  }

  /** Everything that comes out of the reader can be forwarded as it is, header and all. */
  lemma {:induction false} ParsedAreWellFormed(bytes: seq<Byte>)
    ensures forall i :: 0 <= i < |Parse(bytes).messages| ==> WellFormed(Parse(bytes).messages[i])
    decreases |bytes|
  {
    if |bytes| >= HEADER_LENGTH && Accepts(bytes[..HEADER_LENGTH]) && |bytes| >= FirstEnd(bytes) {
      ParsedAreWellFormed(bytes[FirstEnd(bytes)..]);
    }
  }

  function Flatten(chunks: seq<seq<Byte>>): seq<Byte> {
    if chunks == [] then [] else Flatten(chunks[..|chunks| - 1]) + chunks[|chunks| - 1]
  }

  datatype Phase = WantHeader | WantBody | Closed

  /** The reader with its message buffer, which every message passes through. */
  class Reader {
    const message: ChatMessage
    var unread: seq<Byte>           // received by the socket, not yet asked for
    var phase: Phase
    var delivered: seq<Message>     // handed to the room, respectively to the console
    ghost var received: seq<Byte>   // every byte that has arrived

    /** The bytes that belong to no delivered message: those in the buffer and the unread ones. */
    ghost function Undelivered(): seq<Byte>
      requires message.Valid()
      reads this, message, message.data
    {
      if phase == WantBody then message.Header() + unread else unread
    }

    ghost predicate Consistent()
      reads this, message, message.data
    {
      && message.Valid()
      && (phase == WantBody ==> Accepts(message.Header()) && message.bodyLength == HeaderValue(message.Header()))
    }

    /** Whether the read in progress, of four bytes or of a body, can complete. */
    predicate Ready()
      reads this, message
    {
      || (phase == WantHeader && |unread| >= HEADER_LENGTH)
      || (phase == WantBody && |unread| >= message.bodyLength)
    }

    ghost predicate Valid()
      reads this, message, message.data
    {
      && Consistent() && !Ready()
      && delivered == Parse(received).messages
      && (phase == Closed <==> Parse(received).failed)
      && (phase != Closed ==> Undelivered() == Parse(received).rest)
    }

    constructor ()
      ensures Valid() && fresh(message) && fresh(message.data) && received == [] && delivered == []
    {
      message := new ChatMessage();
      unread, phase, delivered, received := [], WantHeader, [], [];
    }

    /** One chunk from the socket; each pass of the loop is one completed read and its handler. */
    method Feed(chunk: seq<Byte>)
      requires Valid()
      modifies this, message, message.data
      ensures Valid() && received == old(received) + chunk
    {
      hide Parse;
      ParseAppend(received, chunk);
      ghost var before := Parse(received);
      received := received + chunk;
      unread := unread + chunk;
      if phase != Closed {
        assert Undelivered() == before.rest + chunk;
        Drain();
      }
    }

    method Drain()
      requires Consistent() && phase != Closed
      requires Parse(received) == Prepend(delivered, Parse(Undelivered()))
      modifies `unread, `phase, `delivered, message, message.data
      ensures Valid()
    {
      hide Parse;
      while Ready()
        invariant Consistent()
        invariant phase == Closed ==> Parse(received).failed && Parse(received).messages == delivered
        invariant phase != Closed ==> Parse(received) == Prepend(delivered, Parse(Undelivered()))
        decreases |unread|, phase == WantBody
      {
        if phase == WantHeader {
          ReadHeader();
          assert delivered + [] == delivered;
        } else {
          ghost var before := delivered;
          ReadBody();
          PrependTwice(before, [delivered[|before|]], Parse(Undelivered()));
          assert delivered == before + [delivered[|before|]];
        }
      }
      if phase != Closed {
        NothingComplete();
        assert delivered + [] == delivered;
      }
    }

    lemma NothingComplete()
      requires Consistent() && !Ready() && phase != Closed
      ensures Parse(Undelivered()) == Parsed([], Undelivered(), false)
    {
      if phase == WantBody {
        assert Undelivered()[..HEADER_LENGTH] == message.Header();
      }
    }

    /** The completion of the four-byte read. */
    method ReadHeader()
      requires Consistent() && phase == WantHeader && Ready()
      modifies `unread, `phase, message, message.data
      ensures Consistent() && |unread| < old(|unread|) && phase != WantHeader
      ensures phase == WantBody ==> Undelivered() == old(Undelivered())
      ensures phase == Closed ==> Parse(old(Undelivered())) == Parsed([], old(Undelivered()), true)
    {
      ghost var bytes := unread;
      message.Fill(0, unread[..HEADER_LENGTH]);
      unread := unread[HEADER_LENGTH..];
      assert message.Header() == bytes[..HEADER_LENGTH];
      var ok := message.DecodeHeader();
      phase := if ok then WantBody else Closed;
    }

    /** The completion of the read of the body, whose message is handed on as it stands in the buffer. */
    method ReadBody()
      requires Consistent() && phase == WantBody && Ready()
      modifies `unread, `phase, `delivered, message.data
      ensures Consistent() && phase == WantHeader && |unread| <= old(|unread|)
      ensures |delivered| == |old(delivered)| + 1 && old(delivered) == delivered[..|old(delivered)|]
      ensures Parse(old(Undelivered())) == Prepend([delivered[|old(delivered)|]], Parse(Undelivered()))
    {
      ghost var bytes := Undelivered();
      var n := message.bodyLength;
      message.Fill(HEADER_LENGTH, unread[..n]);
      var m := Message(message.data[..HEADER_LENGTH], message.data[HEADER_LENGTH..HEADER_LENGTH + n]);
      assert m.header == bytes[..HEADER_LENGTH] && m.body == unread[..n];
      assert bytes == Frame(m) + unread[n..];
      ParseFrame(m, unread[n..]);
      delivered := delivered + [m];
      unread := unread[n..];
      phase := WantHeader;
    }
  }

  /** Any byte stream in any chunking is read as the same messages. */
  method ReadAll(chunks: seq<seq<Byte>>) returns (messages: seq<Message>)
    ensures messages == Parse(Flatten(chunks)).messages
  {
    var reader := new Reader();
    for i := 0 to |chunks|
      invariant fresh(reader) && fresh(reader.message) && fresh(reader.message.data)
      invariant reader.Valid() && reader.received == Flatten(chunks[..i])
    {
      assert chunks[..i + 1][..i] == chunks[..i];
      reader.Feed(chunks[i]);
    }
    assert chunks[..|chunks|] == chunks;
    messages := reader.delivered;
  }

  /** The client's side: any list of lines, sent and read back under any chunking, arrives intact. */
  lemma ChunkingRoundTrip(ms: seq<Message>, chunks: seq<seq<Byte>>)
    requires forall i :: 0 <= i < |ms| ==> WellFormed(ms[i])
    requires Flatten(chunks) == Stream(ms)
    ensures Parse(Flatten(chunks)) == Parsed(ms, [], false)
  {
    StreamRoundTrip(ms, []);
    assert Stream(ms) + [] == Stream(ms) && ms + [] == ms;
  }
}
