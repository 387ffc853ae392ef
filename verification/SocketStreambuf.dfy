/**
 * The buffers of include/asio/basic_socket_streambuf.hpp over a socket that sends and receives
 * in parts, blocks or fails. What the socket and the clock do is a finite script, one entry for
 * each pass of the send or receive loop; when the script has run out the expiry time has passed.
 */
module SocketStreambuf {

  type Byte = b: int | 0 <= b < 256

  const BUFFER_SIZE := 512
  const PUTBACK_MAX := 8

  datatype Option<T> = None | Some(value: T)

  /** One pass of the send loop: past the expiry time, or the result of `send` and, if it would block, of `poll_write`. */
  datatype Attempt = Expired | Sent(bytes: nat) | Blocked(ready: bool) | Failed

  datatype Flushed = Flushed(count: nat, ok: bool, script: seq<Attempt>)

  /** What the send loop does with n bytes: how many get out, and whether it finishes. */
  function Flush(n: nat, script: seq<Attempt>): (r: Flushed)
    ensures r.count <= n && (r.ok <==> r.count == n) && |r.script| <= |script|
    decreases |script|
  {
    if n == 0 then Flushed(0, true, script)
    else if script == [] then Flushed(0, false, [])
    else
      match script[0]
      case Sent(b) =>
        if b == 0 then Flushed(0, false, script[1..])
        else
          var k := if b < n then b else n;
          var r := Flush(n - k, script[1..]);
          r.(count := k + r.count)
      case Blocked(ready) => if ready then Flush(n, script[1..]) else Flushed(0, false, script[1..])
      case Expired => Flushed(0, false, script[1..])
      case Failed => Flushed(0, false, script[1..])
  }

  /** How many bytes the socket takes before the first expiry, error or failed wait. */
  function Capacity(script: seq<Attempt>): nat {
    if script == [] then 0
    else
      match script[0]
      case Sent(b) => if b == 0 then 0 else b + Capacity(script[1..])
      case Blocked(ready) => if ready then Capacity(script[1..]) else 0
      case Expired => 0
      case Failed => 0
  }

  /** However the sends are split up and interleaved with waiting, as much gets out as the socket takes. */
  lemma {:induction false} FlushSendsWhatFits(n: nat, script: seq<Attempt>)
    ensures Flush(n, script).count == (if Capacity(script) < n then Capacity(script) else n)
    ensures Flush(n, script).ok <==> n <= Capacity(script)
    decreases |script|
  {
    if n > 0 && script != [] {
      match script[0]
      case Sent(b) => if b > 0 { FlushSendsWhatFits(n - if b < n then b else n, script[1..]); }
      case Blocked(ready) => FlushSendsWhatFits(n, script[1..]);
      case _ =>
    }
  }

  /** An attempt after which the send loop gives up. */
  predicate Stops(a: Attempt) {
    a == Expired || a == Failed || a == Blocked(false) || a == Sent(0)
  }

  /** How much of the script the loop has used. */
  function Used(n: nat, script: seq<Attempt>): (j: nat)
    ensures j <= |script|
  {
    |script| - |Flush(n, script).script|
  }

  /**
   * Exactly which part of the script the loop uses up: the shortest beginning in which the socket
   * takes everything, if there is one, and otherwise all of it up to the first attempt that stops.
   */
  lemma {:induction false} FlushUses(n: nat, script: seq<Attempt>)
    ensures var r := Flush(n, script); var j := Used(n, script);
      && r.script == script[j..]
      && (forall i :: 0 <= i < j - 1 ==> !Stops(script[i]))
      && (j > 0 ==> Capacity(script[..j - 1]) < n)
      && (if r.ok then n <= Capacity(script[..j]) else j == |script| || (j > 0 && Stops(script[j - 1])))
    decreases |script|
  {
    if n > 0 && script != [] {
      if Stops(script[0]) {
        assert Flush(n, script).script == script[1..];
      } else {
        FlushUsesRest(n, script);
      }
    }
  }

  function Taken(n: nat, a: Attempt): nat {
    if a.Sent? then if a.bytes < n then a.bytes else n else 0
  }

  lemma {:induction false} FlushUsesRest(n: nat, script: seq<Attempt>)
    requires n > 0 && script != [] && !Stops(script[0])
    ensures var r := Flush(n, script); var j := Used(n, script);
      && j > 0 && r.script == script[j..]
      && (forall i :: 0 <= i < j - 1 ==> !Stops(script[i]))
      && Capacity(script[..j - 1]) < n
      && (if r.ok then n <= Capacity(script[..j]) else j == |script| || Stops(script[j - 1]))
    decreases |script|, 0
  {
    hide Flush, Capacity, Taken, Stops;
    var k, rest := Taken(n, script[0]), script[1..];
    FlushOne(n, script);
    FlushUses(n - k, rest);
    var j := Used(n - k, rest);
    assert Used(n, script) == j + 1 && rest[j..] == script[j + 1..];
    hide Used;
    forall i | 0 <= i < j ensures !Stops(script[i]) {
      assert i > 0 ==> script[i] == rest[i - 1];
    }
    assert j > 0 ==> rest[j - 1] == script[j];
    CapacityOf(n, script, j);
  }

  /** What the loop has got out in one attempt more. */
  lemma CapacityOf(n: nat, script: seq<Attempt>, j: nat)
    requires n > 0 && j < |script| && !Stops(script[0])
    requires j > 0 ==> Capacity(script[1..][..j - 1]) < n - Taken(n, script[0])
    ensures Capacity(script[..j]) < n
    ensures n - Taken(n, script[0]) <= Capacity(script[1..][..j]) ==> n <= Capacity(script[..j + 1])
  {
    hide Capacity, Taken, Stops;
    PrefixCapacity(script, j + 1);
    TakenAll(n, script[0]);
    if j > 0 {
      PrefixCapacity(script, j);
    } else {
      EmptyCapacity();
      assert script[..0] == [];
    }
    TakenBound(n, script[0]);
  }

  lemma FlushOne(n: nat, script: seq<Attempt>)
    requires n > 0 && script != [] && !Stops(script[0])
    ensures var k := Taken(n, script[0]); var r := Flush(n - k, script[1..]);
      k <= n && Flush(n, script).script == r.script && Flush(n, script).ok == r.ok
  {
  }

  lemma EmptyCapacity()
    ensures Capacity([]) == 0
  {
  }

  lemma TakenAll(n: nat, a: Attempt)
    ensures Taken(n, a) < n && a.Sent? ==> Taken(n, a) == a.bytes
    ensures !a.Sent? ==> Taken(n, a) == 0
  {
  }

  lemma TakenBound(n: nat, a: Attempt)
    ensures Taken(n, a) <= n && (a.Sent? ==> Taken(n, a) <= a.bytes)
  {
  }

  lemma PrefixCapacity(script: seq<Attempt>, i: nat)
    requires 0 < i <= |script| && !Stops(script[0])
    ensures Capacity(script[..i]) == (if script[0].Sent? then script[0].bytes else 0) + Capacity(script[1..][..i - 1])
  {
    assert script[..i][1..] == script[1..][..i - 1];
  }

  // ----- the put area as a value -----

  /** `repeated` counts the bytes that failed flushes had sent before they failed. */
  datatype Out = Out(
    buffered: bool,            // put_buffer_ is not empty
    put: seq<Byte>,            // from pbase() to pptr()
    wire: seq<Byte>,           // what the socket has sent
    written: seq<Byte>,        // the characters whose write reported success
    repeated: nat,
    script: seq<Attempt>)

  datatype Op = Put(c: Byte) | Sync | Unbuffer

  function Open(script: seq<Attempt>): Out {
    Out(true, [], [], [], 0, script)
  }

  /** overflow, lines 427-499; None is the end-of-file argument that sync passes. */
  function Overflow(o: Out, c: Option<Byte>): (Out, bool) {
    if !o.buffered && c == None then (o, true)
    else
      var bytes := if o.buffered then o.put else [c.value];
      var r := Flush(|bytes|, o.script);
      var o1 := o.(wire := o.wire + bytes[..r.count], script := r.script);
      if !r.ok then (o1.(repeated := o.repeated + r.count), false)
      else
        var put := if o.buffered && c.Some? then [c.value] else [];
        (o1.(put := put, written := o.written + if c.Some? then [c.value] else []), true)
  }

  /** std::streambuf::sputc: store if there is room, else overflow. */
  function Sputc(o: Out, c: Byte): (Out, bool) {
    if o.buffered && |o.put| < BUFFER_SIZE then (o.(put := o.put + [c], written := o.written + [c]), true)
    else Overflow(o, Some(c))
  }

  /** setbuf(0, 0): switches to unbuffered output if nothing is pending. */
  function SetUnbuffered(o: Out): (Out, bool) {
    if o.put == [] then Overflow(o.(buffered := false), None) else (o, false)
  }

  function Exec(o: Out, op: Op): (Out, bool) {
    match op
    case Put(c) => Sputc(o, c)
    case Sync => Overflow(o, None)
    case Unbuffer => SetUnbuffered(o)
  }

  function Run(o: Out, ops: seq<Op>): Out {
    if ops == [] then o else Exec(Run(o, ops[..|ops| - 1]), ops[|ops| - 1]).0
  }

  ghost predicate OutOk(o: Out) {
    && (!o.buffered ==> o.put == [])
    && |o.put| <= BUFFER_SIZE
    && |o.wire| + |o.put| == |o.written| + o.repeated
    && (o.repeated == 0 ==> o.wire + o.put == o.written)
  }

  /** Everything written is on the wire or in the put area, once and in order. */
  ghost predicate Conserved(o: Out) {
    o.wire + o.put == o.written
  }

  lemma OverflowKeepsOut(o: Out, c: Option<Byte>)
    requires OutOk(o)
    ensures OutOk(Overflow(o, c).0)
  {
    if o.buffered || c.Some? {
      var bytes := if o.buffered then o.put else [c.value];
      assert bytes[..|bytes|] == bytes;
    }
  }

  lemma ExecKeepsOut(o: Out, op: Op)
    requires OutOk(o)
    ensures OutOk(Exec(o, op).0)
  {
    match op
    case Put(c) =>
      if o.buffered && |o.put| < BUFFER_SIZE {
        assert o.wire + (o.put + [c]) == o.wire + o.put + [c];
      } else {
        OverflowKeepsOut(o, Some(c));
      }
    case Sync => OverflowKeepsOut(o, None);
    case Unbuffer =>
  }

  lemma {:induction false} RunKeepsOut(script: seq<Attempt>, ops: seq<Op>)
    ensures OutOk(Run(Open(script), ops))
  {
    if ops != [] {
      RunKeepsOut(script, ops[..|ops| - 1]);
      ExecKeepsOut(Run(Open(script), ops[..|ops| - 1]), ops[|ops| - 1]);
    }
  }

  /**
   * The operation flushes, and the socket will take some of the put area but not all of it: a
   * condition on the buffer's state and the script before the call.
   */
  predicate CutsShort(o: Out, op: Op) {
    && o.buffered && (op.Sync? || (op.Put? && |o.put| >= BUFFER_SIZE))
    && 0 < Capacity(o.script) < |o.put|
  }

  ghost predicate NeverCutShort(o: Out, ops: seq<Op>) {
    ops == [] || (NeverCutShort(o, ops[..|ops| - 1]) && !CutsShort(Run(o, ops[..|ops| - 1]), ops[|ops| - 1]))
  }

  /** What the flushes that were cut short had sent, together. */
  ghost function SentInVain(o: Out, ops: seq<Op>): nat {
    if ops == [] then 0
    else
      var before := Run(o, ops[..|ops| - 1]);
      SentInVain(o, ops[..|ops| - 1]) + if CutsShort(before, ops[|ops| - 1]) then Capacity(before.script) else 0
  }

  lemma RepeatsWhenCutShort(o: Out, op: Op)
    requires OutOk(o)
    ensures Exec(o, op).0.repeated == o.repeated + if CutsShort(o, op) then Capacity(o.script) else 0
  {
    FlushSendsWhatFits(|o.put|, o.script);
    FlushSendsWhatFits(1, o.script);
  }

  lemma {:induction false} RunRepeats(script: seq<Attempt>, ops: seq<Op>)
    ensures Run(Open(script), ops).repeated == SentInVain(Open(script), ops)
    ensures NeverCutShort(Open(script), ops) <==> SentInVain(Open(script), ops) == 0
  {
    if ops != [] {
      RunRepeats(script, ops[..|ops| - 1]);
      RunKeepsOut(script, ops[..|ops| - 1]);
      RepeatsWhenCutShort(Run(Open(script), ops[..|ops| - 1]), ops[|ops| - 1]);
    }
  }

  /**
   * Stream conservation, exactly: for any operations and any script, the wire and the put area
   * together are the characters written, in order, if and only if no operation flushed while the
   * socket would take a part of the put area only. Every byte that such a flush sent stays in the
   * put area too, and this is the whole surplus.
   */
  lemma ConservedIff(script: seq<Attempt>, ops: seq<Op>)
    ensures var o := Run(Open(script), ops);
      && (Conserved(o) <==> NeverCutShort(Open(script), ops))
      && |o.wire| + |o.put| == |o.written| + SentInVain(Open(script), ops)
  {
    RunKeepsOut(script, ops);
    RunRepeats(script, ops);
    var o := Run(Open(script), ops);
    assert |o.wire + o.put| == |o.wire| + |o.put|;
  }

  /** Whether every operation of a run reported success. */
  ghost predicate AllSucceed(o: Out, ops: seq<Op>) {
    ops == [] || (AllSucceed(o, ops[..|ops| - 1]) && Exec(Run(o, ops[..|ops| - 1]), ops[|ops| - 1]).1)
  }

  /** Without failures, partial sends and blocking change nothing: every character once, in order. */
  lemma {:induction false} SuccessConserves(script: seq<Attempt>, ops: seq<Op>)
    requires AllSucceed(Open(script), ops)
    ensures Conserved(Run(Open(script), ops)) && Run(Open(script), ops).written == CharsOf(ops)
  {
    SuccessRepeatsNothing(script, ops);
    RunKeepsOut(script, ops);
  }

  function CharsOf(ops: seq<Op>): seq<Byte> {
    if ops == [] then []
    else CharsOf(ops[..|ops| - 1]) + if ops[|ops| - 1].Put? then [ops[|ops| - 1].c] else []
  }

  lemma {:induction false} SuccessRepeatsNothing(script: seq<Attempt>, ops: seq<Op>)
    requires AllSucceed(Open(script), ops)
    ensures Run(Open(script), ops).repeated == 0 && Run(Open(script), ops).written == CharsOf(ops)
  {
    if ops != [] {
      SuccessRepeatsNothing(script, ops[..|ops| - 1]);
    }
  }

  /** A sync that reports success leaves nothing behind; one that fails leaves the put area whole. */
  lemma SyncEmptiesOrKeeps(script: seq<Attempt>, ops: seq<Op>)
    ensures var o := Run(Open(script), ops); var (o', ok) := Exec(o, Sync);
      && (ok ==> o'.put == [] && o'.wire == o.wire + o.put)
      && (!ok ==> o'.put == o.put && exists k :: 0 <= k < |o.put| && o'.wire == o.wire + o.put[..k])
      && o'.written == o.written
  {
    RunKeepsOut(script, ops);
    var o := Run(Open(script), ops);
    assert o.put[..|o.put|] == o.put;
  }

  /** The smallest double send: one of two bytes out, a failure, then a sync that works. */
  lemma FailedFlushRepeats(a: Byte, b: Byte)
    ensures var script := [Sent(1), Failed, Sent(2)];
      var o := Run(Open(script), [Put(a), Put(b), Sync, Sync]);
      o.wire == [a, a, b] && o.written == [a, b] && o.put == []
  {
    var o0 := Open([Sent(1), Failed, Sent(2)]);
    var ops := [Put(a), Put(b), Sync, Sync];
    assert ops[..3][..2] == [Put(a), Put(b)] && ops[..2][..1] == [Put(a)] && ops[..1][..0] == [];
    var o2 := o0.(put := [a, b], written := [a, b]);
    assert Run(o0, [Put(a)]) == o0.(put := [a], written := [a]) by { assert [Put(a)][..0] == []; }
    assert Run(o0, [Put(a), Put(b)]) == o2 by { assert [Put(a), Put(b)][..1] == [Put(a)]; }
    assert ops[..2] == [Put(a), Put(b)];
    assert o0.script[1..] == [Failed, Sent(2)] && [Failed, Sent(2)][1..] == [Sent(2)] && [Sent(2)][1..] == [];
    assert Flush(2, o0.script) == Flushed(1, false, [Sent(2)]) by { assert Flush(1, [Failed, Sent(2)]).count == 0; }
    assert Run(o0, ops[..3]) == o2.(wire := [a], repeated := 1, script := [Sent(2)]);
    assert Flush(2, [Sent(2)]) == Flushed(2, true, []);
  }

  // ----- what the operations report -----

  /** When an operation reports success, from the buffer's state and what the socket is going to take. */
  lemma SucceedsIff(o: Out, op: Op)
    requires OutOk(o)
    ensures Exec(o, op).1 <==>
      match op
      case Put(_) => (o.buffered && |o.put| < 512) || (if o.buffered then |o.put| else 1) <= Capacity(o.script)
      case Sync => !o.buffered || |o.put| <= Capacity(o.script)
      case Unbuffer => o.put == []
  {
    FlushSendsWhatFits(|o.put|, o.script);
    FlushSendsWhatFits(1, o.script);
  }

  /** The characters whose put reported success. */
  ghost function AcceptedChars(o: Out, ops: seq<Op>): seq<Byte> {
    if ops == [] then []
    else
      var op := ops[|ops| - 1];
      var before := AcceptedChars(o, ops[..|ops| - 1]);
      if op.Put? && Exec(Run(o, ops[..|ops| - 1]), op).1 then before + [op.c] else before
  }

  /** A character counts as written exactly when its put has reported success. */
  lemma {:induction false} WrittenIsAccepted(script: seq<Attempt>, ops: seq<Op>)
    ensures Run(Open(script), ops).written == AcceptedChars(Open(script), ops)
  {
    if ops != [] {
      WrittenIsAccepted(script, ops[..|ops| - 1]);
      ReportsTruly(Run(Open(script), ops[..|ops| - 1]), ops[|ops| - 1]);
    }
  }

  lemma ReportsTruly(o: Out, op: Op)
    ensures Exec(o, op).0.written == if op.Put? && Exec(o, op).1 then o.written + [op.c] else o.written
  {
  }

  ghost predicate HasUnbuffered(o: Out, ops: seq<Op>) {
    ops != [] &&
    (HasUnbuffered(o, ops[..|ops| - 1]) || (ops[|ops| - 1].Unbuffer? && Run(o, ops[..|ops| - 1]).put == []))
  }

  /**
   * Output is unbuffered exactly from the first switch that finds nothing pending. From then on a
   * successful put is on the wire at once, and the put area stays empty.
   */
  lemma {:induction false} UnbufferedIff(script: seq<Attempt>, ops: seq<Op>, c: Byte)
    ensures var o := Run(Open(script), ops); var (o', ok) := Exec(o, Put(c));
      && (!o.buffered <==> HasUnbuffered(Open(script), ops))
      && (!o.buffered ==> o.put == [] && o'.put == [] && o'.wire == o.wire + (if ok then [c] else []))
  {
    RunKeepsOut(script, ops);
    if ops != [] {
      UnbufferedIff(script, ops[..|ops| - 1], c);
    }
    FlushSendsWhatFits(1, Run(Open(script), ops).script);
  }

  // ----- the get area as a value -----

  /** One pass of the receive loop. `Arrived([])` is the orderly end of the stream. */
  datatype Arrival = TimedOut | Arrived(bytes: seq<Byte>) | NotYet(ready: bool) | Broken

  /** The bytes the next refill gets, and the script after it; None if underflow reports end of file. */
  function Refill(script: seq<Arrival>): (r: (Option<seq<Byte>>, seq<Arrival>))
    ensures r.0.Some? ==> 0 < |r.0.value| <= BUFFER_SIZE - PUTBACK_MAX
    decreases |script|
  {
    if script == [] then (None, [])
    else
      match script[0]
      case Arrived(bytes) =>
        if bytes == [] then (None, script[1..])
        else if |bytes| <= BUFFER_SIZE - PUTBACK_MAX then (Some(bytes), script[1..])
        else (Some(bytes[..BUFFER_SIZE - PUTBACK_MAX]), [Arrived(bytes[BUFFER_SIZE - PUTBACK_MAX..])] + script[1..])
      case NotYet(ready) => if ready then Refill(script[1..]) else (None, script[1..])
      case TimedOut => (None, script[1..])
      case Broken => (None, script[1..])
  }

  /** All the bytes that the socket is going to deliver. */
  function BytesOf(script: seq<Arrival>): seq<Byte> {
    if script == [] then [] else (if script[0].Arrived? then script[0].bytes else []) + BytesOf(script[1..])
  }

  /** How often the loop waits before something decides. */
  function Waits(script: seq<Arrival>): (k: nat)
    ensures k <= |script| && (forall i :: 0 <= i < k ==> script[i] == NotYet(true))
    ensures k < |script| ==> script[k] != NotYet(true)
  {
    if script == [] || script[0] != NotYet(true) then 0 else 1 + Waits(script[1..])
  }

  /**
   * Exactly what a refill gets. The first thing that is not a successful wait decides: if it is
   * bytes, as many of them as the buffer holds, and the others stay with the socket; if it is the
   * end of the stream, an error, the expiry or a failed wait, nothing.
   */
  lemma {:induction false} RefillExact(script: seq<Arrival>)
    ensures var k := Waits(script); var (got, rest) := Refill(script);
      if k == |script| then got == None && rest == []
      else if script[k].Arrived? && script[k].bytes != [] then
        && got.Some? && got.value <= script[k].bytes
        && |got.value| == (if |script[k].bytes| < 504 then |script[k].bytes| else 504)
        && (got.value == script[k].bytes ==> rest == script[k + 1..])
        && (got.value != script[k].bytes ==> rest == [Arrived(script[k].bytes[|got.value|..])] + script[k + 1..])
      else got == None && rest == script[k + 1..]
    decreases |script|
  {
    if script != [] && script[0] == NotYet(true) {
      RefillExact(script[1..]);
    }
  }

  /** Input conservation: what a refill gets and what the socket still has are what the socket had. */
  lemma {:induction false} RefillConserves(script: seq<Arrival>)
    ensures var (got, rest) := Refill(script);
      (if got.Some? then got.value else []) + BytesOf(rest) == BytesOf(script)
    decreases |script|
  {
    if script != [] {
      match script[0]
      case NotYet(ready) => if ready { RefillConserves(script[1..]); }
      case Arrived(bytes) =>
        if |bytes| > BUFFER_SIZE - PUTBACK_MAX {
          var rest := [Arrived(bytes[BUFFER_SIZE - PUTBACK_MAX..])] + script[1..];
          assert rest[1..] == script[1..];
          assert bytes == bytes[..BUFFER_SIZE - PUTBACK_MAX] + bytes[BUFFER_SIZE - PUTBACK_MAX..];
        }
      case _ =>
    }
  }

  lemma BufferedUnlessEmpty(o: Out)
    requires OutOk(o)
    ensures !o.buffered ==> o.put == []
  {
  }

  // ----- the stream buffer itself -----

  class Streambuf {
    var getBuffer: array<Byte>
    var gptr: nat
    var egptr: nat
    var putBuffer: array<Byte>       // of length 0 once output is unbuffered
    var pptr: nat
    var sends: seq<Attempt>
    var arrivals: seq<Arrival>
    ghost var wire: seq<Byte>
    ghost var written: seq<Byte>
    ghost var repeated: nat
    ghost var received: seq<Byte>    // every byte that recv has returned
    ghost var consumed: seq<Byte>    // every byte the reader has taken
    ghost const offered: seq<Byte>   // every byte that the socket is ever going to deliver

    ghost predicate Valid()
      reads this, getBuffer, putBuffer
    {
      ValidBut([])
    }

    /** In order, but for bytes that the socket has given and that are not in the buffer yet. */
    ghost predicate ValidBut(bytes: seq<Byte>)
      reads this, getBuffer, putBuffer
    {
      && getBuffer.Length == BUFFER_SIZE && getBuffer != putBuffer
      && PUTBACK_MAX <= gptr <= egptr <= BUFFER_SIZE
      && (putBuffer.Length == BUFFER_SIZE || putBuffer.Length == 0)
      && pptr <= putBuffer.Length
      && OutOk(View())
      && consumed + getBuffer[gptr..egptr] == received
      && received + bytes + BytesOf(arrivals) == offered
      && getBuffer[..PUTBACK_MAX] == seq(PUTBACK_MAX, _ => 0)
      && (gptr > PUTBACK_MAX ==> consumed != [] && consumed[|consumed| - 1] == getBuffer[gptr - 1])
    }

    ghost function View(): Out
      reads this, putBuffer
      requires pptr <= putBuffer.Length
    {
      Out(putBuffer.Length > 0, putBuffer[..pptr], wire, written, repeated, sends)
    }

    constructor (sends: seq<Attempt>, arrivals: seq<Arrival>)
      ensures Valid() && View() == Open(sends) && received == [] && consumed == []
      ensures this.arrivals == arrivals && offered == BytesOf(arrivals)
      ensures fresh(getBuffer) && fresh(putBuffer)
    {
      getBuffer := new Byte[BUFFER_SIZE](_ => 0);
      putBuffer := new Byte[BUFFER_SIZE](_ => 0);
      this.sends, this.arrivals := sends, arrivals;
      offered := BytesOf(arrivals);
      wire, written, repeated, received, consumed := [], [], 0, [], [];
      gptr, egptr, pptr := PUTBACK_MAX, PUTBACK_MAX, 0;
    }

    /** The send loop, lines 449-482, on bytes that stay where they are while it runs. */
    method SendAll(bytes: seq<Byte>) returns (ok: bool, ghost count: nat)
      modifies `sends, `wire
      ensures Flush(|bytes|, old(sends)) == Flushed(count, ok, sends)
      ensures wire == old(wire) + bytes[..count]
    {
      var offset := 0;
      while offset < |bytes|
        invariant 0 <= offset <= |bytes| && wire == old(wire) + bytes[..offset]
        invariant var r := Flush(|bytes| - offset, sends);
          Flush(|bytes|, old(sends)) == r.(count := offset + r.count)
        decreases |sends|
      {
        if sends == [] {
          return false, offset;
        }
        var attempt := sends[0];
        sends := sends[1..];
        match attempt
        case Expired => return false, offset;
        case Failed => return false, offset;
        case Blocked(ready) =>
          if !ready {
            return false, offset;
          }
        case Sent(n) =>
          if n == 0 {
            return false, offset;
          }
          var k := if n < |bytes| - offset then n else |bytes| - offset;
          wire := wire + bytes[offset..offset + k];
          assert bytes[..offset] + bytes[offset..offset + k] == bytes[..offset + k];
          offset := offset + k;
      }
      return true, offset;
    }

    method OverflowChar(c: Option<Byte>) returns (ok: bool)
      requires Valid()
      modifies this, putBuffer
      ensures Valid() && putBuffer == old(putBuffer) && (View(), ok) == Overflow(old(View()), c)
      ensures received == old(received) && consumed == old(consumed)
    {
      hide OutOk, Flush;
      OverflowKeepsOut(View(), c);
      BufferedUnlessEmpty(View());
      var bytes := [];
      if putBuffer.Length == 0 {
        if c == None {
          return true;
        }
        bytes := [c.value];
      } else {
        bytes := putBuffer[..pptr];
      }
      ghost var count;
      ok, count := SendAll(bytes);
      if !ok {
        repeated := repeated + count;
        return;
      }
      assert bytes[..count] == bytes;
      if putBuffer.Length > 0 {
        Restart(c);
      }
      written := written + if c.Some? then [c.value] else [];
    }

    /** An empty put area again, or one with just c in it. */
    method Restart(c: Option<Byte>)
      requires putBuffer.Length == BUFFER_SIZE
      modifies `pptr, putBuffer
      ensures pptr <= putBuffer.Length && putBuffer[..pptr] == if c.Some? then [c.value] else []
    {
      pptr := 0;
      if c.Some? {
        putBuffer[0] := c.value;
        pptr := 1;
      }
    }

    method SputcChar(c: Byte) returns (ok: bool)
      requires Valid()
      modifies this, putBuffer
      ensures Valid() && putBuffer == old(putBuffer) && (View(), ok) == Sputc(old(View()), c)
    {
      if pptr < putBuffer.Length {
        ExecKeepsOut(View(), Put(c));
        putBuffer[pptr] := c;
        pptr := pptr + 1;
        assert putBuffer[..pptr] == old(putBuffer[..pptr]) + [c];
        written := written + [c];
        ok := true;
      } else {
        ok := OverflowChar(Some(c));
      }
    }

    method SyncOut() returns (ok: bool)
      requires Valid()
      modifies this, putBuffer
      ensures Valid() && putBuffer == old(putBuffer) && (View(), ok) == Exec(old(View()), Sync)
    {
      ok := OverflowChar(None);
    }

    /** setbuf with its null arguments; anything else is refused. */
    method Setbuf(nullBuffer: bool) returns (ok: bool)
      requires Valid()
      modifies this, putBuffer
      ensures Valid() && (nullBuffer ==> (View(), ok) == SetUnbuffered(old(View())))
      ensures !nullBuffer ==> !ok && View() == old(View())
      ensures putBuffer == old(putBuffer) || fresh(putBuffer)
    {
      if pptr == 0 && nullBuffer {
        ExecKeepsOut(View(), Unbuffer);
        putBuffer := new Byte[0];
        ok := OverflowChar(None);
      } else {
        ok := false;
      }
    }

    /** Any operations on a new buffer: its put side goes through the run above. */
    method Drive(ops: seq<Op>)
      requires Valid()
      modifies this, putBuffer
      ensures Valid() && View() == Run(old(View()), ops)
    {
      ghost var start := View();
      for i := 0 to |ops|
        invariant Valid() && View() == Run(start, ops[..i])
        invariant putBuffer == old(putBuffer) || fresh(putBuffer)
      {
        assert ops[..i + 1][..i] == ops[..i];
        var _ := Perform(ops[i]);
      }
      assert ops[..|ops|] == ops;
    }

    method Perform(op: Op) returns (ok: bool)
      requires Valid()
      modifies this, putBuffer
      ensures Valid() && (View(), ok) == Exec(old(View()), op)
      ensures putBuffer == old(putBuffer) || fresh(putBuffer)
    {
      match op
      case Put(c) => ok := SputcChar(c);
      case Sync => ok := SyncOut();
      case Unbuffer => ok := Setbuf(true);
    }

    /** underflow, lines 373-425: refills an exhausted get area behind the eight put-back cells. */
    method Underflow() returns (c: Option<Byte>)
      requires Valid()
      modifies `gptr, `egptr, `arrivals, `received, getBuffer
      ensures Valid() && consumed == old(consumed) && View() == old(View())
      ensures old(gptr != egptr) ==> c == None && arrivals == old(arrivals) && received == old(received)
      ensures old(gptr == egptr) ==>
        var (got, rest) := Refill(old(arrivals));
        && arrivals == rest
        && received == old(received) + (if got.Some? then got.value else [])
        && c == (if got.Some? then Some(got.value[0]) else None)
        && (c.Some? ==> gptr == PUTBACK_MAX && gptr < egptr && getBuffer[gptr] == c.value)
    {
      hide OutOk, Refill, BytesOf;
      if gptr != egptr {
        return None;
      }
      assert consumed == received;
      RefillConserves(arrivals);
      ghost var coming := BytesOf(arrivals);
      var got := Receive();
      if got == None {
        return None;
      }
      assert received + coming == received + got.value + BytesOf(arrivals);
      Store(got.value);
      return Some(getBuffer[gptr]);
    }

    /** The receive loop of underflow, up to the point where the buffer has something in it. */
    method Receive() returns (got: Option<seq<Byte>>)
      modifies `arrivals
      ensures (got, arrivals) == Refill(old(arrivals))
    {
      while arrivals != []
        invariant Refill(arrivals) == Refill(old(arrivals))
        decreases |arrivals|
      {
        var arrival := arrivals[0];
        match arrival
        case TimedOut => arrivals := arrivals[1..]; return None;
        case Broken => arrivals := arrivals[1..]; return None;
        case NotYet(ready) =>
          arrivals := arrivals[1..];
          if !ready {
            return None;
          }
        case Arrived(bytes) =>
          if bytes == [] {
            arrivals := arrivals[1..];
            return None;
          }
          if |bytes| <= BUFFER_SIZE - PUTBACK_MAX {
            arrivals := arrivals[1..];
            return Some(bytes);
          }
          arrivals := [Arrived(bytes[BUFFER_SIZE - PUTBACK_MAX..])] + arrivals[1..];
          return Some(bytes[..BUFFER_SIZE - PUTBACK_MAX]);
      }
      return None;
    }

    method Store(bytes: seq<Byte>)
      requires ValidBut(bytes) && gptr == egptr && 0 < |bytes| <= BUFFER_SIZE - PUTBACK_MAX
      modifies `gptr, `egptr, `received, getBuffer
      ensures Valid() && received == old(received) + bytes
      ensures gptr == PUTBACK_MAX && egptr == PUTBACK_MAX + |bytes| && getBuffer[gptr..egptr] == bytes
    {
      hide OutOk, BytesOf;
      for i := 0 to |bytes|
        invariant forall k :: 0 <= k < i ==> getBuffer[PUTBACK_MAX + k] == bytes[k]
        invariant getBuffer[..PUTBACK_MAX] == old(getBuffer[..PUTBACK_MAX])
        modifies getBuffer
      {
        getBuffer[PUTBACK_MAX + i] := bytes[i];
      }
      gptr, egptr := PUTBACK_MAX, PUTBACK_MAX + |bytes|;
      received := received + bytes;
      assert getBuffer[gptr..egptr] == bytes;
    }

    /** sbumpc: the next character, refilling when needed. Input is conserved and in order. */
    method Sbumpc() returns (c: Option<Byte>)
      requires Valid()
      modifies `gptr, `egptr, `arrivals, `received, `consumed, getBuffer
      ensures Valid() && View() == old(View())
      ensures consumed == old(consumed) + (if c.Some? then [c.value] else [])
      ensures old(received) <= received && consumed <= received
      ensures c == None ==> consumed == received
    {
      hide OutOk, Refill, BytesOf;
      if gptr == egptr {
        c := Underflow();
        if c == None {
          return;
        }
      } else {
        c := Some(getBuffer[gptr]);
      }
      ghost var rest := getBuffer[gptr..egptr];
      assert rest == [c.value] + getBuffer[gptr + 1..egptr];
      assert consumed + [c.value] + getBuffer[gptr + 1..egptr] == consumed + rest;
      gptr := gptr + 1;
      consumed := consumed + [c.value];
    }

    /**
     * What sungetc would bring back. The put-back cells are never filled, so right after a refill
     * it is a zero byte; otherwise it is the character read last.
     */
    method PutBackCandidate() returns (c: Byte)
      requires Valid()
      ensures gptr == PUTBACK_MAX ==> c == 0
      ensures gptr > PUTBACK_MAX ==> consumed != [] && c == consumed[|consumed| - 1]
    {
      c := getBuffer[gptr - 1];
      assert gptr == PUTBACK_MAX ==> c == getBuffer[..PUTBACK_MAX][PUTBACK_MAX - 1];
    }
  }
}
