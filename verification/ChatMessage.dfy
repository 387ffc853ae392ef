/**
 * The wire format of asio_test/chat/chat_message.hpp: four header bytes that spell the length of
 * the body in decimal, then the body. Formatting and scanning follow sections 7.21.6.1 (`%4d`)
 * and 7.22.1.2 (`atoi`) of C11.
 */
module ChatMessages {

  type Byte = b: int | 0 <= b < 256

  const HEADER_LENGTH := 4
  const MAX_BODY_LENGTH := 256
  const UINT_RANGE := 0x1_0000_0000

  predicate IsSpace(b: Byte) {
    b == 32 || 9 <= b <= 13
  }

  predicate IsDigit(b: Byte) {
    48 <= b <= 57
  }

  /** A C string held in a buffer: everything before the first zero byte. */
  function CString(s: seq<Byte>): seq<Byte> {
    if s == [] || s[0] == 0 then [] else [s[0]] + CString(s[1..])
  }

  function SkipSpaces(s: seq<Byte>): seq<Byte> {
    if s != [] && IsSpace(s[0]) then SkipSpaces(s[1..]) else s
  }

  /** The value of the digits at the front of s, after `acc` has been read. */
  function ScanDigits(s: seq<Byte>, acc: nat): nat {
    if s != [] && IsDigit(s[0]) then ScanDigits(s[1..], 10 * acc + (s[0] - 48)) else acc
  }

  function Atoi(s: seq<Byte>): int {
    var t := SkipSpaces(s);
    if t != [] && t[0] == 45 then 0 - ScanDigits(t[1..], 0)
    else if t != [] && t[0] == 43 then ScanDigits(t[1..], 0)
    else ScanDigits(t, 0)
  }

  /** An `int` assigned to an `unsigned int`. */
  function ToUnsigned(i: int): nat
    requires -UINT_RANGE < i < UINT_RANGE
  {
    if i < 0 then i + UINT_RANGE else i
  }

  /** `%d`, for numbers of at most four digits. */
  function Digits(n: nat): seq<Byte>
    requires n < 10000
  {
    if n < 10 then [48 + n]
    else if n < 100 then [48 + n / 10, 48 + n % 10]
    else if n < 1000 then [48 + n / 100, 48 + n / 10 % 10, 48 + n % 10]
    else [48 + n / 1000, 48 + n / 100 % 10, 48 + n / 10 % 10, 48 + n % 10]
  }

  /** `%4d`: right-justified in four columns. */
  function Format4(n: nat): (h: seq<Byte>)
    requires n < 10000
    ensures |h| == HEADER_LENGTH
  {
    seq(HEADER_LENGTH - |Digits(n)|, _ => 32) + Digits(n)
  }

  /** The number that four header bytes spell. */
  function HeaderValue(h: seq<Byte>): int {
    Atoi(CString(h))
  }

  predicate Accepts(h: seq<Byte>) {
    0 <= HeaderValue(h) <= MAX_BODY_LENGTH
  }

  // ----- scanning undoes formatting -----

  lemma {:induction false} ScanBound(s: seq<Byte>, acc: nat, n: nat, bound: nat)
    requires |s| <= n && acc < bound
    ensures ScanDigits(s, acc) < bound * Power10(n)
    decreases n
  {
    if s != [] && IsDigit(s[0]) {
      ScanBound(s[1..], 10 * acc + (s[0] - 48), n - 1, 10 * bound);
      var rest := Power10(n - 1);
      assert 10 * bound * rest == bound * (10 * rest);
    } else {
      Power10Positive(n);
    }
  }

  function Power10(n: nat): nat {
    if n == 0 then 1 else 10 * Power10(n - 1)
  }

  lemma {:induction false} Power10Positive(n: nat)
    ensures Power10(n) >= 1
  {
    if n > 0 {
      Power10Positive(n - 1);
    }
  }

  lemma {:induction false} CStringLength(s: seq<Byte>)
    ensures |CString(s)| <= |s|
  {
    if s != [] && s[0] != 0 {
      CStringLength(s[1..]);
    }
  }

  lemma {:induction false} SkipSpacesLength(s: seq<Byte>)
    ensures |SkipSpaces(s)| <= |s|
  {
    if s != [] && IsSpace(s[0]) {
      SkipSpacesLength(s[1..]);
    }
  }

  /** Four bytes never spell a number that an `int` cannot hold. */
  lemma HeaderValueBound(h: seq<Byte>)
    requires |h| <= HEADER_LENGTH
    ensures -10000 < HeaderValue(h) < 10000
  {
    CStringLength(h);
    SkipSpacesLength(CString(h));
    var t := SkipSpaces(CString(h));
    assert Power10(4) == 10000 by { assert Power10(2) == 100; assert Power10(3) == 1000; }
    if t != [] {
      ScanBound(t[1..], 0, 4, 1);
    }
    ScanBound(t, 0, 4, 1);
  }

  lemma Scan1(d: Byte, acc: nat)
    requires IsDigit(d)
    ensures ScanDigits([d], acc) == 10 * acc + (d - 48)
  {
    assert [d][1..] == [];
  }

  lemma ScanCons(d: Byte, s: seq<Byte>, acc: nat)
    requires IsDigit(d)
    ensures ScanDigits([d] + s, acc) == ScanDigits(s, 10 * acc + (d - 48))
  {
    assert ([d] + s)[1..] == s;
  }

  lemma SkipCons(s: seq<Byte>)
    ensures SkipSpaces([32] + s) == SkipSpaces(s)
  {
    assert ([32] + s)[1..] == s;
  }

  lemma {:induction false} CStringWhole(s: seq<Byte>)
    requires 0 !in s
    ensures CString(s) == s
  {
    if s != [] {
      CStringWhole(s[1..]);
    }
  }

  lemma AtoiOfDigits(s: seq<Byte>)
    requires s != [] && IsDigit(s[0])
    ensures Atoi(s) == ScanDigits(s, 0)
  {
  }

  lemma AtoiSkips(s: seq<Byte>)
    ensures Atoi([32] + s) == Atoi(s)
  {
    SkipCons(s);
  }

  /** Two, three and four digits, most significant first. */
  lemma ScanPair(a: Byte, b: Byte, acc: nat)
    requires IsDigit(a) && IsDigit(b)
    ensures ScanDigits([a, b], acc) == 10 * (10 * acc + (a - 48)) + (b - 48)
  {
    assert [a, b] == [a] + [b];
    ScanCons(a, [b], acc);
    Scan1(b, 10 * acc + (a - 48));
  }

  lemma ScanTriple(a: Byte, b: Byte, c: Byte, acc: nat)
    requires IsDigit(a) && IsDigit(b) && IsDigit(c)
    ensures ScanDigits([a, b, c], acc) == 10 * (10 * (10 * acc + (a - 48)) + (b - 48)) + (c - 48)
  {
    assert [a, b, c] == [a] + [b, c];
    ScanCons(a, [b, c], acc);
    ScanPair(b, c, 10 * acc + (a - 48));
  }

  lemma DigitsOf(n: nat)
    requires n < 10000
    ensures 10 * (n / 10) + n % 10 == n
    ensures 10 * (n / 100) + n / 10 % 10 == n / 10
    ensures 10 * (n / 1000) + n / 100 % 10 == n / 100
  {
  }

  lemma ScanUndoesDigits(n: nat)
    requires n < 10000
    ensures ScanDigits(Digits(n), 0) == n
  {
    DigitsOf(n);
    if n < 10 {
      Scan1(48 + n, 0);
    } else if n < 100 {
      ScanPair(48 + n / 10, 48 + n % 10, 0);
    } else if n < 1000 {
      ScanTriple(48 + n / 100, 48 + n / 10 % 10, 48 + n % 10, 0);
    } else {
      var rest := [48 + n / 100 % 10, 48 + n / 10 % 10, 48 + n % 10];
      assert Digits(n) == [48 + n / 1000] + rest;
      ScanCons(48 + n / 1000, rest, 0);
      ScanTriple(48 + n / 100 % 10, 48 + n / 10 % 10, 48 + n % 10, n / 1000);
    }
  }

  lemma {:induction false} Padding(n: nat, pad: seq<Byte>)
    requires n < 10000 && forall i :: 0 <= i < |pad| ==> pad[i] == 32
    ensures Atoi(pad + Digits(n)) == Atoi(Digits(n))
  {
    if pad == [] {
      assert pad + Digits(n) == Digits(n);
    } else {
      assert pad + Digits(n) == [32] + (pad[1..] + Digits(n));
      AtoiSkips(pad[1..] + Digits(n));
      Padding(n, pad[1..]);
    }
  }

  /** Every length of at most four digits survives encoding and decoding. */
  lemma HeaderRoundTrip(n: nat)
    requires n < 10000
    ensures HeaderValue(Format4(n)) == n
  {
    CStringWhole(Format4(n));
    Padding(n, Format4(n)[..HEADER_LENGTH - |Digits(n)|]);
    assert Format4(n) == Format4(n)[..HEADER_LENGTH - |Digits(n)|] + Digits(n);
    AtoiOfDigits(Digits(n));
    ScanUndoesDigits(n);
  }

  // ----- any header at all -----

  /** The bytes before the first zero byte, or all of them. */
  lemma {:induction false} CStringEnds(s: seq<Byte>)
    ensures CString(s) <= s && 0 !in CString(s) && (CString(s) == s || s[|CString(s)|] == 0)
  {
    if s != [] && s[0] != 0 {
      CStringEnds(s[1..]);
      assert s == [s[0]] + s[1..];
    }
  }

  lemma {:induction false} SkipPads(pad: seq<Byte>, rest: seq<Byte>)
    requires (forall i :: 0 <= i < |pad| ==> IsSpace(pad[i])) && (rest != [] ==> !IsSpace(rest[0]))
    ensures SkipSpaces(pad + rest) == rest
  {
    if pad == [] {
      assert pad + rest == rest;
    } else {
      assert (pad + rest)[1..] == pad[1..] + rest;
      SkipPads(pad[1..], rest);
    }
  }

  lemma {:induction false} ScanStops(digits: seq<Byte>, rest: seq<Byte>, acc: nat)
    requires (forall i :: 0 <= i < |digits| ==> IsDigit(digits[i])) && (rest != [] ==> !IsDigit(rest[0]))
    ensures ScanDigits(digits + rest, acc) == ScanDigits(digits, acc)
    decreases |digits|
  {
    if digits == [] {
      assert digits + rest == rest;
    } else {
      assert (digits + rest)[1..] == digits[1..] + rest;
      ScanStops(digits[1..], rest, 10 * acc + (digits[0] - 48));
    }
  }

  /** A sign as `atoi` takes it: none, plus or minus. */
  predicate IsSign(sign: seq<Byte>) {
    sign == [] || sign == [43] || sign == [45]
  }

  /**
   * `atoi` on everything it can meet: leading white space is skipped, one sign is taken, and the
   * digits count up to the first byte that is none; without digits the result is zero.
   */
  lemma AtoiExact(pad: seq<Byte>, sign: seq<Byte>, digits: seq<Byte>, rest: seq<Byte>)
    requires (forall i :: 0 <= i < |pad| ==> pad[i] in {9, 10, 11, 12, 13, 32}) && IsSign(sign)
    requires forall i :: 0 <= i < |digits| ==> 48 <= digits[i] <= 57
    requires rest != [] ==> rest[0] < 48 || rest[0] > 57
    requires sign == [] && digits == [] && rest != [] ==> rest[0] !in {9, 10, 11, 12, 13, 32, 43, 45}
    ensures Atoi(pad + (sign + (digits + rest)))
      == if sign == [45] then 0 - ScanDigits(digits, 0) else ScanDigits(digits, 0)
  {
    var tail := digits + rest;
    SkipPads(pad, sign + tail);
    ScanStops(digits, rest, 0);
    if sign == [] {
      assert sign + tail == tail;
    } else {
      assert (sign + tail)[1..] == tail;
    }
  }

  /** The digits of n, with a sign and anything around them, are read as n or as its negative. */
  lemma AtoiOfNumber(pad: seq<Byte>, sign: seq<Byte>, n: nat, rest: seq<Byte>)
    requires (forall i :: 0 <= i < |pad| ==> IsSpace(pad[i])) && IsSign(sign) && n < 10000
    requires rest != [] ==> !IsDigit(rest[0])
    ensures Atoi(pad + (sign + (Digits(n) + rest))) == if sign == [45] then 0 - n else n
  {
    AtoiExact(pad, sign, Digits(n), rest);
    ScanUndoesDigits(n);
  }

  /** The conversion to `unsigned int` is reduction modulo the number of its values. */
  lemma ToUnsignedIsModulo(i: int)
    requires -UINT_RANGE < i < UINT_RANGE
    ensures ToUnsigned(i) == i % UINT_RANGE
  {
  }

  /** A header is accepted exactly when the number it spells, converted to unsigned, is at most 256. */
  lemma AcceptsUnsigned(h: seq<Byte>)
    requires |h| <= HEADER_LENGTH
    ensures Accepts(h) <==> HeaderValue(h) % UINT_RANGE <= 256
  {
    HeaderValueBound(h);
  }

  /** Encoded lengths are accepted up to 256 and no further. */
  lemma AcceptsEncodedIff(n: nat)
    requires n < 10000
    ensures Accepts(Format4(n)) <==> n <= 256
  {
    HeaderRoundTrip(n);
  }

  // ----- the message buffer -----

  class ChatMessage {
    const data: array<Byte>
    var bodyLength: nat

    ghost predicate Valid()
      reads this
    {
      data.Length == HEADER_LENGTH + MAX_BODY_LENGTH && bodyLength <= MAX_BODY_LENGTH
    }

    constructor ()
      ensures Valid() && fresh(data) && bodyLength == 0
    {
      data := new Byte[HEADER_LENGTH + MAX_BODY_LENGTH];
      bodyLength := 0;
    }

    ghost function Header(): seq<Byte>
      requires Valid()
      reads this, data
    {
      data[..HEADER_LENGTH]
    }

    ghost function Body(): seq<Byte>
      requires Valid()
      reads this, data
    {
      data[HEADER_LENGTH..HEADER_LENGTH + bodyLength]
    }

    method UpdateBodyLength(length: nat)
      requires Valid()
      modifies `bodyLength
      ensures Valid() && bodyLength == if length <= MAX_BODY_LENGTH then length else MAX_BODY_LENGTH
    {
      bodyLength := if length <= MAX_BODY_LENGTH then length else MAX_BODY_LENGTH;
    }

    /** Any four bytes at all: accepted exactly when they spell a length of at most 256. */
    method DecodeHeader() returns (ok: bool)
      requires Valid()
      modifies `bodyLength
      ensures Valid() && ok == Accepts(Header())
      ensures bodyLength == if ok then HeaderValue(Header()) else 0
    {
      var header := CString(data[..HEADER_LENGTH]);
      HeaderValueBound(data[..HEADER_LENGTH]);
      var value := ToUnsigned(Atoi(header));
      if value > MAX_BODY_LENGTH {
        bodyLength := 0;
        return false;
      }
      bodyLength := value;
      return true;
    }

    method EncodeHeader()
      requires Valid()
      modifies data
      ensures Valid() && HeaderValue(Header()) == bodyLength && Accepts(Header()) && Body() == old(Body())
    {
      var header := Format4(bodyLength);
      for i := 0 to HEADER_LENGTH
        invariant forall k :: 0 <= k < i ==> data[k] == header[k]
        invariant forall k :: HEADER_LENGTH <= k < data.Length ==> data[k] == old(data[k])
      {
        data[i] := header[i];
      }
      assert data[..HEADER_LENGTH] == header;
      HeaderRoundTrip(bodyLength);
    }

    /** What the client's main loop does with a line: clamp, copy, encode. */
    method Compose(line: seq<Byte>)
      requires Valid()
      modifies this, data
      ensures Valid() && Body() == (if |line| <= MAX_BODY_LENGTH then line else line[..MAX_BODY_LENGTH])
      ensures HeaderValue(Header()) == |Body()| && Accepts(Header())
    {
      UpdateBodyLength(|line|);
      for i := 0 to bodyLength
        modifies data
        invariant forall k :: 0 <= k < i ==> data[HEADER_LENGTH + k] == line[k]
      {
        data[HEADER_LENGTH + i] := line[i];
      }
      assert Body() == line[..bodyLength];
      EncodeHeader();
    }

    /** Bytes arriving in the buffer at an offset, as a completed read leaves them. */
    method Fill(offset: nat, bytes: seq<Byte>)
      requires Valid() && offset + |bytes| <= data.Length
      modifies data
      ensures Valid() && data[..] == old(data[..])[..offset] + bytes + old(data[..])[offset + |bytes|..]
    {
      for i := 0 to |bytes|
        invariant forall k :: 0 <= k < i ==> data[offset + k] == bytes[k]
        invariant forall k :: 0 <= k < data.Length && !(offset <= k < offset + i) ==> data[k] == old(data[k])
      {
        data[offset + i] := bytes[i];
      }
    }
  }
}
