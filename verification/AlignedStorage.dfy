/**
 * any_completion_handler_impl::allocate and deallocate (include/asio/any_completion_handler.hpp,
 * lines 131-176): over-allocate, align inside the block as std::align does (section [ptr.align]
 * of ISO/IEC 14882:2020), and hide the offset behind the payload so that deallocate finds the
 * block again. Sizes are 64-bit and wrap around.
 */
module AlignedStorage {

  type Byte = b: int | 0 <= b < 256

  const SIZE_RANGE := 0x1_0000_0000_0000_0000
  const OFFSET_SIZE := 8      // sizeof(std::ptrdiff_t)

  datatype Option<T> = None | Some(value: T)

  // ----- arithmetic -----

  function AlignUp(address: nat, align: nat): (p: nat)
    requires align > 0
    ensures address <= p < address + align && p % align == 0
  {
    var r := address % align;
    if r == 0 then address
    else
      RoundUp(address, align);
      address + align - r
  }

  lemma RoundUp(address: nat, align: nat)
    requires align > 0
    ensures (address + align - address % align) % align == 0
  {
    var q := address / align;
    assert address + align - address % align == align * (q + 1);
    MultipleMod(q + 1, align);
  }

  lemma {:induction false} MultipleMod(k: nat, align: nat)
    requires align > 0
    ensures (align * k) % align == 0
  {
    if k > 0 {
      MultipleMod(k - 1, align);
      assert align * k == align * (k - 1) + align;
      AddModulus(align * (k - 1), align);
    }
  }

  lemma AddModulus(x: nat, align: nat)
    requires align > 0
    ensures (x + align) % align == x % align
  {
    var q, r := x / align, x % align;
    assert x + align == align * (q + 1) + r;
    DivUnique(x + align, align, q + 1, r);
  }

  lemma MultipleSize(d: int, k: int)
    requires d > 0
    ensures k >= 1 ==> d * k >= d
    ensures k <= -1 ==> d * k <= -d
  {
    if k >= 1 {
      assert d * (k - 1) >= 0;
    } else if k <= -1 {
      assert d * (-1 - k) >= 0;
    }
  }

  lemma DivUnique(x: nat, d: nat, q: nat, r: nat)
    requires d > 0 && x == d * q + r && r < d
    ensures x % d == r
  {
    var q', r' := x / d, x % d;
    assert x == d * q' + r';
    assert d * (q - q') == d * q - d * q';
    MultipleSize(d, q - q');
  }

  function Wrap(n: nat): nat {
    n % SIZE_RANGE
  }

  /** What the allocator is asked for: size + align - 1 + sizeof(ptrdiff_t), computed in size_t. */
  function Space(size: nat, align: nat): nat
    requires align > 0
  {
    Wrap(size + align - 1)
  }

  function BlockSize(size: nat, align: nat): nat
    requires align > 0
  {
    Wrap(Space(size, align) + OFFSET_SIZE)
  }

  /** std::align in a buffer of `space` bytes at `base`; None is the null pointer. */
  function StdAlign(align: nat, size: nat, base: nat, space: nat): Option<nat>
    requires align > 0
  {
    var p := AlignUp(base, align);
    if p - base + size <= space then Some(p) else None
  }

  lemma LeastMultiple(address: nat, align: nat, q: nat)
    requires align > 0 && address <= q && q % align == 0
    ensures AlignUp(address, align) <= q
  {
    var p := AlignUp(address, align);
    if q < p {
      assert p == align * (p / align) && q == align * (q / align);
      assert p - q == align * (p / align - q / align);
      MultipleSize(align, p / align - q / align);
    }
  }

  /** std::align, in any space: the lowest aligned address at which size bytes fit, if there is one. */
  lemma StdAlignIsLeast(align: nat, size: nat, base: nat, space: nat, q: nat)
    requires align > 0
    ensures var placed := StdAlign(align, size, base, space);
      && (placed.Some? ==>
            base <= placed.value && placed.value % align == 0 && placed.value + size <= base + space)
      && (base <= q && q % align == 0 && q + size <= base + space ==> placed.Some? && placed.value <= q)
  {
    if base <= q && q % align == 0 {
      LeastMultiple(base, align, q);
    }
  }

  /** Payload and trailer lie inside the block. */
  predicate FitsBlock(p: nat, base: nat, size: nat, align: nat)
    requires align > 0
  {
    base <= p && p + size + OFFSET_SIZE <= base + BlockSize(size, align)
  }

  /**
   * The three outcomes, by the sizes alone and whatever the base address. Allocation throws
   * exactly when size + align - 1 does not fit in size_t; and payload and trailer lie inside the
   * block exactly when the whole sum fits.
   */
  lemma AllocationOutcome(base: nat, size: nat, align: nat)
    requires 0 < align < SIZE_RANGE && size < SIZE_RANGE
    ensures var placed := StdAlign(align, size, base, Space(size, align));
      && (placed == None <==> size + align - 1 >= SIZE_RANGE)
      && (placed.Some? ==> placed.value % align == 0 && base <= placed.value < base + align)
      && (placed.Some? ==> (FitsBlock(placed.value, base, size, align) <==> size + align - 1 + 8 < SIZE_RANGE))
  {
    if size + align - 1 >= SIZE_RANGE {
      DivUnique(size + align - 1, SIZE_RANGE, 1, size + align - 1 - SIZE_RANGE);
    } else if size + align - 1 + OFFSET_SIZE >= SIZE_RANGE {
      DivUnique(size + align - 1 + OFFSET_SIZE, SIZE_RANGE, 1, size + align - 1 + OFFSET_SIZE - SIZE_RANGE);
    }
  }

  // ----- the bytes of the offset -----

  function Encode(v: nat, n: nat): (s: seq<Byte>)
    ensures |s| == n
  {
    if n == 0 then [] else [v % 256] + Encode(v / 256, n - 1)
  }

  function Decode(s: seq<Byte>): nat {
    if s == [] then 0 else s[0] + 256 * Decode(s[1..])
  }

  function Power256(n: nat): nat {
    if n == 0 then 1 else 256 * Power256(n - 1)
  }

  lemma {:induction false} DecodeEncode(v: nat, n: nat)
    requires v < Power256(n)
    ensures Decode(Encode(v, n)) == v
  {
    if n > 0 {
      DecodeEncode(v / 256, n - 1);
      assert Encode(v, n)[1..] == Encode(v / 256, n - 1);
    }
  }

  lemma OffsetRange()
    ensures Power256(OFFSET_SIZE) == SIZE_RANGE
  {
    assert Power256(2) == 0x1_0000;
    assert Power256(4) == 0x1_0000_0000;
    assert Power256(6) == 0x1_0000_0000_0000;
  }

  // ----- memory and the live allocations -----

  /** A block as the allocator gave it, and what it was asked for. */
  datatype Block = Block(base: nat, count: nat, size: nat, align: nat)

  ghost predicate Apart(a: Block, b: Block) {
    a.base + a.count <= b.base || b.base + b.count <= a.base
  }

  ghost predicate Placed(p: nat, b: Block) {
    && 0 < b.align < SIZE_RANGE && b.count == b.size + b.align - 1 + OFFSET_SIZE < SIZE_RANGE
    && p % b.align == 0 && b.base <= p < b.base + b.align
  }

  /** Memory that has never been written reads as zero. */
  function Peek(bytes: map<nat, Byte>, a: nat): Byte {
    if a in bytes then bytes[a] else 0
  }

  function Read(bytes: map<nat, Byte>, a: nat, n: nat): seq<Byte> {
    seq<Byte>(n, i requires 0 <= i < n => Peek(bytes, a + i))
  }

  /** The eight bytes behind the payload spell the distance to the base. */
  ghost predicate Trailer(bytes: map<nat, Byte>, p: nat, b: Block)
    requires b.base <= p
  {
    Read(bytes, p + b.size, OFFSET_SIZE) == Encode(p - b.base, OFFSET_SIZE)
  }

  lemma ReadOneMore(bytes: map<nat, Byte>, a: nat, n: nat)
    ensures Read(bytes, a, n + 1) == Read(bytes, a, n) + [Peek(bytes, a + n)]
  {
  }

  lemma ReadFrame(bytes: map<nat, Byte>, bytes': map<nat, Byte>, a: nat, n: nat)
    requires forall x :: a <= x < a + n ==> Peek(bytes', x) == Peek(bytes, x)
    ensures Read(bytes', a, n) == Read(bytes, a, n)
  {
    forall i | 0 <= i < n ensures Read(bytes', a, n)[i] == Read(bytes, a, n)[i] {
      assert Peek(bytes', a + i) == Peek(bytes, a + i);
    }
  }

  /** A block's trailer is out of reach of everything that happens inside other blocks. */
  lemma TrailerFrame(bytes: map<nat, Byte>, bytes': map<nat, Byte>, p: nat, b: Block, other: Block)
    requires Placed(p, b) && Trailer(bytes, p, b) && Apart(b, other)
    requires forall x: nat :: !(other.base <= x < other.base + other.count) ==> Peek(bytes', x) == Peek(bytes, x)
    ensures Trailer(bytes', p, b)
  {
    ReadFrame(bytes, bytes', p + b.size, OFFSET_SIZE);
  }

  /** Writing inside one block disturbs no trailer of the others. */
  lemma TrailersKept(bytes: map<nat, Byte>, bytes': map<nat, Byte>, live: map<nat, Block>, block: Block, a: nat, n: nat)
    requires forall q :: q in live ==> Placed(q, live[q]) && Trailer(bytes, q, live[q]) && Apart(live[q], block)
    requires block.base <= a && a + n <= block.base + block.count
    requires forall x: nat :: !(a <= x < a + n) ==> Peek(bytes', x) == Peek(bytes, x)
    ensures forall q :: q in live ==> live[q].base <= q && Trailer(bytes', q, live[q])
  {
    forall q | q in live ensures live[q].base <= q && Trailer(bytes', q, live[q]) {
      TrailerFrame(bytes, bytes', q, live[q], block);
    }
  }

  /** And the new block has its own. */
  lemma TrailersKeptHere(bytes: map<nat, Byte>, bytes': map<nat, Byte>, live: map<nat, Block>, p: nat, block: Block)
    requires forall q :: q in live ==> Placed(q, live[q]) && Trailer(bytes, q, live[q]) && Apart(live[q], block)
    requires Placed(p, block)
    requires Read(bytes', p + block.size, OFFSET_SIZE) == Encode(p - block.base, OFFSET_SIZE)
    requires forall x: nat :: !(p + block.size <= x < p + block.size + OFFSET_SIZE) ==> Peek(bytes', x) == Peek(bytes, x)
    ensures forall q :: q in live ==> live[q].base <= q && Trailer(bytes', q, live[q])
    ensures block.base <= p && Trailer(bytes', p, block)
  {
    hide Read, Encode, Peek, Apart;
    TrailersKept(bytes, bytes', live, block, p + block.size, OFFSET_SIZE);
  }

  /** A block that is clear of all live ones has a payload of its own. */
  lemma NewAddress(live: map<nat, Block>, p: nat, block: Block)
    requires forall q :: q in live ==> Placed(q, live[q]) && Apart(live[q], block)
    requires Placed(p, block)
    ensures p !in live && forall q :: q in live ==> Apart(block, live[q])
  {
    forall q | q in live ensures q != p && Apart(block, live[q]) {
      ApartAddress(q, live[q], p, block);
    }
  }

  lemma ApartAddress(q: nat, c: Block, p: nat, b: Block)
    requires Placed(q, c) && Placed(p, b) && Apart(c, b)
    ensures q != p
  {
  }

  /** Sizes within eight bytes of the end of the range are accepted and overrun their block, for example this one. */
  lemma OverrunOccurs(base: nat)
    ensures var size := SIZE_RANGE - OFFSET_SIZE;
      && StdAlign(1, size, base, Space(size, 1)) == Some(base)
      && BlockSize(size, 1) == 0 && !FitsBlock(base, base, size, 1)
  {
    AllocationOutcome(base, SIZE_RANGE - OFFSET_SIZE, 1);
  }

  lemma OffsetRecovered(bytes: map<nat, Byte>, p: nat, b: Block)
    requires Placed(p, b) && Trailer(bytes, p, b)
    ensures Decode(Read(bytes, p + b.size, OFFSET_SIZE)) == p - b.base
    ensures BlockSize(b.size, b.align) == b.count
  {
    BlockSizeExact(b.size, b.align);
    hide Encode, Decode, Read, BlockSize;
    OffsetRange();
    DecodeEncode(p - b.base, OFFSET_SIZE);
  }

  lemma BlockSizeExact(size: nat, align: nat)
    requires align > 0 && size + align - 1 + OFFSET_SIZE < SIZE_RANGE
    ensures BlockSize(size, align) == size + align - 1 + OFFSET_SIZE
  {
  }

  lemma OffsetBound(p: nat, b: Block)
    requires Placed(p, b)
    ensures b.base <= p
  {
  }

  /**
   * `Overruns`: the block's size wrapped around in its last addition only, so that std::align
   * succeeds and the offset is then written behind the block. What follows is undefined, and the
   * model stops there.
   */
  datatype Outcome = Allocated(at: nat) | BadAlloc | Overruns(at: nat)

  class Arena {
    var bytes: map<nat, Byte>
    ghost var live: map<nat, Block>      // by payload address

    ghost predicate Valid()
      reads this
    {
      && (forall p :: p in live ==> Placed(p, live[p]) && Trailer(bytes, p, live[p]))
      && (forall p, q :: p in live && q in live && p != q ==> Apart(live[p], live[q]))
    }

    constructor ()
      ensures Valid() && live == map[]
    {
      bytes, live := map[], map[];
    }

    /** `base` is where the underlying allocator put the block, clear of everything live. */
    method Allocate(size: nat, align: nat, base: nat) returns (r: Outcome)
      requires Valid() && 0 < align < SIZE_RANGE && size < SIZE_RANGE
      requires forall q :: q in live ==> Apart(live[q], Block(base, BlockSize(size, align), size, align))
      modifies this
      ensures Valid()
      ensures r.BadAlloc? <==> size + align - 1 >= SIZE_RANGE
      ensures r.Overruns? <==> size + align - 1 < SIZE_RANGE <= size + align - 1 + OFFSET_SIZE
      ensures !r.Allocated? ==> live == old(live) && bytes == old(bytes)
      ensures r.Overruns? ==> !FitsBlock(r.at, base, size, align)
      ensures r.Allocated? ==> r.at !in old(live) && r.at % align == 0 && FitsBlock(r.at, base, size, align)
      ensures r.Allocated? ==> live == old(live)[r.at := Block(base, BlockSize(size, align), size, align)]
    {
      AllocationOutcome(base, size, align);
      hide Valid, Apart;
      var placed := StdAlign(align, size, base, Space(size, align));
      if placed == None {
        return BadAlloc;
      }
      var p := placed.value;
      if size + align - 1 + OFFSET_SIZE >= SIZE_RANGE {
        return Overruns(p);
      }
      ghost var block := Block(base, BlockSize(size, align), size, align);
      FitsOnce(p, block);
      HideOffset(p, size, p - base, block);
      return Allocated(p);
    }

    /** The offset goes behind the payload, and the block is the owner's. */
    method HideOffset(p: nat, size: nat, offset: nat, ghost block: Block)
      requires Valid() && Placed(p, block) && block.size == size && offset == p - block.base
      requires forall q :: q in live ==> Apart(live[q], block)
      modifies this
      ensures Valid() && p !in old(live) && live == old(live)[p := block]
    {
      hide Encode, Peek, Read, Apart, Placed, Trailer;
      NewAddress(live, p, block);
      ghost var before := bytes;
      CopyIn(p + size, Encode(offset, OFFSET_SIZE));
      TrailersKeptHere(before, bytes, live, p, block);
      live := live[p := block];
    }

    /** std::memcpy to an address. */
    method CopyIn(address: nat, data: seq<Byte>)
      modifies `bytes
      ensures Read(bytes, address, |data|) == data
      ensures forall a: nat :: !(address <= a < address + |data|) ==> Peek(bytes, a) == Peek(old(bytes), a)
    {
      for i := 0 to |data|
        invariant Read(bytes, address, i) == data[..i]
        invariant forall a: nat :: !(address <= a < address + i) ==> Peek(bytes, a) == Peek(old(bytes), a)
      {
        ghost var before := bytes;
        bytes := bytes[address + i := data[i]];
        ReadFrame(before, bytes, address, i);
        ReadOneMore(bytes, address, i);
      }
    }

    /** std::memcpy from an address. */
    method CopyOut(address: nat, n: nat) returns (data: seq<Byte>)
      ensures data == Read(bytes, address, n)
    {
      data := [];
      for i := 0 to n
        invariant data == Read(bytes, address, i)
      {
        ReadOneMore(bytes, address, i);
        data := data + [Peek(bytes, address + i)];
      }
    }

    /** The owner of an allocation may write its payload as it likes. */
    method WritePayload(p: nat, i: nat, v: Byte)
      requires Valid() && p in live && i < live[p].size
      modifies `bytes
      ensures Valid() && bytes == old(bytes)[p + i := v]
    {
      ghost var before := bytes;
      bytes := bytes[p + i := v];
      forall q | q in live ensures Trailer(bytes, q, live[q]) {
        assert Placed(p, live[p]);
        if q == p {
          ReadFrame(before, bytes, p + live[p].size, OFFSET_SIZE);
        } else {
          TrailerFrame(before, bytes, q, live[q], live[p]);
        }
      }
    }

    /** deallocate: what it hands back to the allocator is what the allocator gave; nothing for null. */
    method Deallocate(pointer: Option<nat>, size: nat, align: nat) returns (freed: Option<(nat, nat)>)
      requires Valid()
      requires pointer.Some? ==>
        pointer.value in live && live[pointer.value].size == size && live[pointer.value].align == align
      modifies `live
      ensures Valid()
      ensures pointer == None ==> freed == None && live == old(live)
      ensures pointer.Some? ==> live == old(live) - {pointer.value}
      ensures pointer.Some? ==> freed == Some((old(live)[pointer.value].base, old(live)[pointer.value].count))
    {
      if pointer == None {
        return None;
      }
      var p := pointer.value;
      hide Trailer, Placed, Apart, Read, Decode, BlockSize;
      OffsetRecovered(bytes, p, live[p]);
      OffsetBound(p, live[p]);
      var raw := CopyOut(p + size, OFFSET_SIZE);
      var base := p - Decode(raw);
      live := live - {p};
      return Some((base, BlockSize(size, align)));
    }
  }

  /** Live payloads with their trailers lie inside their blocks and never meet. */
  lemma LivePayloadsDisjoint(p: nat, b: Block, q: nat, c: Block)
    requires Placed(p, b) && Placed(q, c) && Apart(b, c)
    ensures FitsBlock(p, b.base, b.size, b.align)
    ensures p + b.size + OFFSET_SIZE <= q || q + c.size + OFFSET_SIZE <= p
  {
    AllocationOutcome(b.base, b.size, b.align);
  }

  /** Nothing wraps, so the block is as long as it should be and its payload starts inside it. */
  lemma FitsOnce(p: nat, b: Block)
    requires 0 < b.align < SIZE_RANGE && b.size < SIZE_RANGE && b.count == BlockSize(b.size, b.align)
    requires b.size + b.align - 1 + OFFSET_SIZE < SIZE_RANGE && p % b.align == 0 && b.base <= p < b.base + b.align
    ensures Placed(p, b)
  {
  }
}
