/**
 * The generators of coroutine/tsequencegenerator/sequencegenerator.h. A generator is its promise
 * and the suspended frame of its coroutine; a generator that `map` or `flat_map` has moved into
 * their own frame is part of that frame. All element types are one type V.
 *
 * The frame of a finished coroutine stays done here. In the source `final_suspend` does not
 * suspend, so the frame is destroyed at that moment.
 */
module Generators {

  datatype Option<+T> = None | Some(value: T)

  datatype Gen<!V> = Gen(promise: Promise<V>, frame: Frame<V>)

  datatype Promise<V> = Promise(value: Option<V>, isReady: bool, done: bool)

  /** Where the body is suspended, with its locals. */
  datatype Frame<!V> =
    | ListFrame(rest: seq<V>)
    | MapFrame(source: Gen<V>, f: V -> V, applied: nat)
    | FlatFrame(source: Gen<V>, g: V -> Gen<V>, inner: Option<Gen<V>>)

  // ----- list operations, the reference -----

  function MapSeq<V>(f: V -> V, xs: seq<V>): seq<V> {
    if xs == [] then [] else [f(xs[0])] + MapSeq(f, xs[1..])
  }

  function ConcatMap<V>(h: V -> seq<V>, xs: seq<V>): seq<V> {
    if xs == [] then [] else h(xs[0]) + ConcatMap(h, xs[1..])
  }

  // ----- what a generator still has to give -----

  /**
   * The ordinal d bounds how deep flat_map nests in the frame and in all the generators that it can
   * make: each of those is well founded below d, with a bound of its own. A value is stored
   * wherever one is marked ready.
   */
  ghost predicate FrameOk<V(!new)>(frame: Frame<V>, d: ORDINAL)
    decreases d, 1, frame
  {
    match frame
    case ListFrame(_) => true
    case MapFrame(source, _, _) => PromiseOk(source.promise) && FrameOk(source.frame, d)
    case FlatFrame(source, h, inner) =>
      && PromiseOk(source.promise) && FrameOk(source.frame, d)
      && (forall x :: PromiseOk(h(x).promise) && Below(h(x).frame, d))
      && (inner.Some? ==> PromiseOk(inner.value.promise) && Below(inner.value.frame, d))
  }

  ghost predicate Below<V(!new)>(frame: Frame<V>, d: ORDINAL)
    decreases d, 0
  {
    exists e: ORDINAL :: e < d && FrameOk(frame, e)
  }

  /** A bound below d. */
  ghost function Depth<V(!new)>(frame: Frame<V>, d: ORDINAL): (e: ORDINAL)
    requires Below(frame, d)
    ensures e < d && FrameOk(frame, e)
  {
    var e: ORDINAL :| e < d && FrameOk(frame, e);
    e
  }

  predicate PromiseOk<V>(p: Promise<V>) {
    p.isReady ==> p.value.Some?
  }

  ghost predicate Ok<V(!new)>(g: Gen<V>, d: ORDINAL) {
    PromiseOk(g.promise) && FrameOk(g.frame, d)
  }

  ghost function Height<V>(frame: Frame<V>): nat {
    match frame
    case ListFrame(_) => 0
    case MapFrame(source, _, _) => 1 + Height(source.frame)
    case FlatFrame(source, _, _) => 1 + Height(source.frame)
  }

  function Pending<V>(p: Promise<V>): seq<V> {
    if p.isReady && p.value.Some? then [p.value.value] else []
  }

  ghost function Stream<V(!new)>(g: Gen<V>, d: ORDINAL): seq<V>
    requires FrameOk(g.frame, d)
    decreases d, 1, g.frame, 1
  {
    if g.promise.done then [] else Pending(g.promise) + FrameStream(g.frame, d)
  }

  ghost function FrameStream<V(!new)>(frame: Frame<V>, d: ORDINAL): seq<V>
    requires FrameOk(frame, d)
    decreases d, 1, frame, 0
  {
    match frame
    case ListFrame(rest) => rest
    case MapFrame(source, f, _) => MapSeq(f, Stream(source, d))
    case FlatFrame(source, h, inner) =>
      (if inner.Some? then Stream(inner.value, Depth(inner.value.frame, d)) else []) + ConcatMap(Made(h, d), Stream(source, d))
  }

  /** What the generator that h makes of an element will give. */
  ghost function Made<V(!new)>(h: V -> Gen<V>, d: ORDINAL): V -> seq<V>
    decreases d, 0
  {
    x => if Below(h(x).frame, d) then Stream(h(x), Depth(h(x).frame, d)) else []
  }

  /** What a generator will give does not depend on the bound. */
  lemma {:induction false} StreamSame<V(!new)>(g: Gen<V>, d: ORDINAL, e: ORDINAL)
    requires FrameOk(g.frame, d) && FrameOk(g.frame, e)
    ensures Stream(g, d) == Stream(g, e)
    decreases d, g.frame
  {
    match g.frame
    case ListFrame(_) =>
    case MapFrame(source, _, _) => StreamSame(source, d, e);
    case FlatFrame(source, h, inner) =>
      StreamSame(source, d, e);
      if inner.Some? {
        StreamSame(inner.value, Depth(inner.value.frame, d), Depth(inner.value.frame, e));
      }
      forall x ensures Made(h, d)(x) == Made(h, e)(x) {
        StreamSame(h(x), Depth(h(x).frame, d), Depth(h(x).frame, e));
      }
      ConcatMapCongruence(Made(h, d), Made(h, e), Stream(source, d));
  }

  // ----- running a coroutine -----

  function Yield<V>(g: Gen<V>, v: V, frame: Frame<V>): Gen<V> {
    Gen(Promise(Some(v), true, false), frame)
  }

  function Finish<V>(g: Gen<V>, frame: Frame<V>): Gen<V> {
    Gen(g.promise.(done := true), frame)
  }

  /** handle_.resume(): the body runs from its suspension point to the next one, or to its end. */
  function Resume<V(!new)>(g: Gen<V>, ghost d: ORDINAL): (r: Gen<V>)
    requires Ok(g, d) && !g.promise.done && !g.promise.isReady
    ensures Ok(r, d) && Height(r.frame) == Height(g.frame) && Stream(r, d) == Stream(g, d)
    ensures r.promise.done <==> Stream(g, d) == []
    ensures r.promise.isReady <==> !r.promise.done
    decreases d, Height(g.frame), 1, 0
  {
    match g.frame
    case ListFrame(rest) =>
      if rest == [] then Finish(g, g.frame) else Yield(g, rest[0], ListFrame(rest[1..]))
    case MapFrame(source, f, applied) =>
      var (source', more) := HasNext(source, d);
      if !more then Finish(g, MapFrame(source', f, applied))
      else
        var (source'', v) := Next(source', d);
        Yield(g, f(v.value), MapFrame(source'', f, applied + 1))
    case FlatFrame(source, h, inner) => ResumeFlat(g, d)
  }

  lemma FlatYields<V(!new)>(source: Gen<V>, h: V -> Gen<V>, inner: Gen<V>, inner': Gen<V>, v: V, d: ORDINAL)
    requires FrameOk(FlatFrame(source, h, Some(inner)), d) && Ok(inner', Depth(inner.frame, d))
    requires Stream(inner, Depth(inner.frame, d)) == [v] + Stream(inner', Depth(inner.frame, d))
    ensures FrameOk(FlatFrame(source, h, Some(inner')), d)
    ensures FrameStream(FlatFrame(source, h, Some(inner)), d) == [v] + FrameStream(FlatFrame(source, h, Some(inner')), d)
  {
    BelowIntro(inner'.frame, Depth(inner.frame, d), d);
    StreamSame(inner', Depth(inner.frame, d), Depth(inner'.frame, d));
    YieldsOne(Stream(inner', Depth(inner.frame, d)), v, ConcatMap(Made(h, d), Stream(source, d)));
  }

  lemma YieldsOne<V>(xs: seq<V>, v: V, ys: seq<V>)
    ensures [v] + xs + ys == [v] + (xs + ys)
  {
  }

  lemma BelowIntro<V(!new)>(frame: Frame<V>, e: ORDINAL, d: ORDINAL)
    requires e < d && FrameOk(frame, e)
    ensures Below(frame, d)
  {
  }

  lemma FlatDrops<V(!new)>(source: Gen<V>, h: V -> Gen<V>, inner: Gen<V>, d: ORDINAL)
    requires FrameOk(FlatFrame(source, h, Some(inner)), d) && Stream(inner, Depth(inner.frame, d)) == []
    ensures FrameStream(FlatFrame(source, h, Some(inner)), d) == FrameStream(FlatFrame(source, h, None), d)
  {
  }

  lemma FlatMakes<V(!new)>(source: Gen<V>, source': Gen<V>, h: V -> Gen<V>, v: V, d: ORDINAL)
    requires FrameOk(FlatFrame(source, h, None), d) && Ok(source', d)
    requires Stream(source, d) == [v] + Stream(source', d)
    ensures FrameOk(FlatFrame(source', h, Some(h(v))), d)
    ensures FrameStream(FlatFrame(source, h, None), d) == FrameStream(FlatFrame(source', h, Some(h(v))), d)
  {
    assert ([v] + Stream(source', d))[1..] == Stream(source', d);
  }

  /** The two nested loops of flat_map, from a suspension inside the inner one. */
  function ResumeFlat<V(!new)>(g: Gen<V>, ghost d: ORDINAL): (r: Gen<V>)
    requires Ok(g, d) && !g.promise.done && !g.promise.isReady && g.frame.FlatFrame?
    ensures Ok(r, d) && Height(r.frame) == Height(g.frame) && Stream(r, d) == Stream(g, d)
    ensures r.promise.done <==> Stream(g, d) == []
    ensures r.promise.isReady <==> !r.promise.done
    decreases d, Height(g.frame), 0, 2 * |Stream(g.frame.source, d)| + (if g.frame.inner.Some? then 1 else 0)
  {
    var FlatFrame(source, h, inner) := g.frame;
    if inner.Some? then
      var (inner', more) := HasNext(inner.value, Depth(inner.value.frame, d));
      if more then
        var (inner'', v) := Next(inner', Depth(inner.value.frame, d));
        FlatYields(source, h, inner.value, inner'', v.value, d);
        Yield(g, v.value, FlatFrame(source, h, Some(inner'')))
      else
        FlatDrops(source, h, inner.value, d);
        ResumeFlat(g.(frame := FlatFrame(source, h, None)), d)
    else
      var (source', more) := HasNext(source, d);
      if !more then Finish(g, FlatFrame(source', h, None))
      else
        var (source'', v) := Next(source', d);
        FlatMakes(source, source'', h, v.value, d);
        ResumeFlat(g.(frame := FlatFrame(source'', h, Some(h(v.value)))), d)
  }

  /** hasNext, lines 143-161. */
  function HasNext<V(!new)>(g: Gen<V>, ghost d: ORDINAL): (r: (Gen<V>, bool))
    requires Ok(g, d)
    ensures Ok(r.0, d) && Height(r.0.frame) == Height(g.frame) && Stream(r.0, d) == Stream(g, d)
    ensures r.1 <==> Stream(g, d) != []
    ensures r.1 ==> !r.0.promise.done && r.0.promise.isReady
    decreases d, Height(g.frame), 2, 0
  {
    if g.promise.done then (g, false)
    else
      var g' := if g.promise.isReady then g else Resume(g, d);
      (g', !g'.promise.done)
  }

  /** next, lines 133-141; None is the ExhaustedException. */
  function Next<V(!new)>(g: Gen<V>, ghost d: ORDINAL): (r: (Gen<V>, Option<V>))
    requires Ok(g, d)
    ensures Ok(r.0, d) && Height(r.0.frame) == Height(g.frame)
    ensures r.1.Some? <==> Stream(g, d) != []
    ensures r.1.Some? ==> Stream(g, d) == [r.1.value] + Stream(r.0, d)
    ensures r.1.None? ==> Stream(r.0, d) == []
    decreases d, Height(g.frame), 3, 0
  {
    var (g', more) := HasNext(g, d);
    if more then (g'.(promise := g'.promise.(isReady := false)), Some(g'.promise.value.value))
    else (g', None)
  }

  // ----- the pipelines: coroutines start at once and run to their first co_yield -----

  function Start<V(!new)>(frame: Frame<V>, ghost d: ORDINAL): (g: Gen<V>)
    requires FrameOk(frame, d)
    ensures Ok(g, d) && Stream(g, d) == FrameStream(frame, d)
    ensures g.promise.isReady <==> FrameStream(frame, d) != []
  {
    Resume(Gen(Promise(None, false, false), frame), d)
  }

  function FromList<V(!new)>(xs: seq<V>, ghost d: ORDINAL): Gen<V> {
    Start(ListFrame(xs), d)
  }

  function MapOf<V(!new)>(source: Gen<V>, f: V -> V, ghost d: ORDINAL): Gen<V>
    requires Ok(source, d)
  {
    Start(MapFrame(source, f, 0), d)
  }

  function FlatMapOf<V(!new)>(source: Gen<V>, h: V -> Gen<V>, ghost d: ORDINAL): Gen<V>
    requires FrameOk(FlatFrame(source, h, None), d)
  {
    Start(FlatFrame(source, h, None), d)
  }

  /** A caller's calls, in order. */
  datatype Call = AskHasNext | AskNext

  datatype Used<!V> = Used(gen: Gen<V>, returned: seq<V>, exhausted: nat)

  function Use<V(!new)>(g: Gen<V>, calls: seq<Call>, ghost d: ORDINAL): (u: Used<V>)
    requires Ok(g, d)
    ensures Ok(u.gen, d)
    decreases |calls|
  {
    if calls == [] then Used(g, [], 0)
    else
      var u := Use(g, calls[..|calls| - 1], d);
      match calls[|calls| - 1]
      case AskHasNext => u.(gen := HasNext(u.gen, d).0)
      case AskNext =>
        var (gen, v) := Next(u.gen, d);
        if v.Some? then Used(gen, u.returned + [v.value], u.exhausted) else Used(gen, u.returned, u.exhausted + 1)
  }

  /**
   * Under any schedule of hasNext and next, what next has returned is a prefix of the stream and
   * the generator still holds exactly the rest; it throws only when nothing is left.
   */
  lemma {:induction false} ReturnsPrefix<V(!new)>(g: Gen<V>, calls: seq<Call>, d: ORDINAL)
    requires Ok(g, d)
    ensures var u := Use(g, calls, d);
      && u.returned + Stream(u.gen, d) == Stream(g, d)
      && (u.exhausted > 0 ==> u.returned == Stream(g, d))
    decreases |calls|
  {
    if calls != [] {
      var front := calls[..|calls| - 1];
      ReturnsPrefix(g, front, d);
      var u := Use(g, front, d);
      if calls[|calls| - 1] == AskNext && Stream(u.gen, d) != [] {
        var (gen, v) := Next(u.gen, d);
        assert u.returned + ([v.value] + Stream(gen, d)) == u.returned + [v.value] + Stream(gen, d);
      }
    }
  }

  function Nexts(n: nat): seq<Call> {
    seq(n, _ => AskNext)
  }

  /** As many calls of next as there are values return them all, whatever was asked before. */
  lemma {:induction false} DrainsAll<V(!new)>(g: Gen<V>, n: nat, d: ORDINAL)
    requires Ok(g, d) && n <= |Stream(g, d)|
    ensures Use(g, Nexts(n), d).returned == Stream(g, d)[..n] && Use(g, Nexts(n), d).exhausted == 0
  {
    ReturnsPrefix(g, Nexts(n), d);
    if n > 0 {
      DrainsAll(g, n - 1, d);
      assert Nexts(n)[..n - 1] == Nexts(n - 1);
      ReturnsPrefix(g, Nexts(n - 1), d);
    }
  }

  /** hasNext is idempotent: asking again changes nothing, not even whether f has been applied. */
  lemma HasNextIdempotent<V(!new)>(g: Gen<V>, d: ORDINAL)
    requires Ok(g, d)
    ensures HasNext(HasNext(g, d).0, d) == HasNext(g, d)
  {
  }

  /** Draining map gives the list map. */
  lemma MapRefinesLists<V(!new)>(source: Gen<V>, f: V -> V, d: ORDINAL)
    requires Ok(source, d)
    ensures var xs := MapSeq(f, Stream(source, d)); var u := Use(MapOf(source, f, d), Nexts(|xs|), d);
      u.returned == xs && Stream(u.gen, d) == []
  {
    var g := MapOf(source, f, d);
    var xs := MapSeq(f, Stream(source, d));
    DrainsAll(g, |xs|, d);
    ReturnsPrefix(g, Nexts(|xs|), d);
  }

  /** Draining flat_map gives the concatenation, through any run of empty inner generators. */
  lemma FlatMapRefinesLists<V(!new)>(source: Gen<V>, h: V -> Gen<V>, d: ORDINAL)
    requires FrameOk(FlatFrame(source, h, None), d)
    ensures var xs := ConcatMap(Made(h, d), Stream(source, d)); var u := Use(FlatMapOf(source, h, d), Nexts(|xs|), d);
      u.returned == xs && Stream(u.gen, d) == []
    ensures forall x, e: ORDINAL :: FrameOk(h(x).frame, e) ==> Made(h, d)(x) == Stream(h(x), e)
  {
    var xs := ConcatMap(Made(h, d), Stream(source, d));
    var g := FlatMapOf(source, h, d);
    assert Stream(g, d) == [] + ConcatMap(Made(h, d), Stream(source, d));
    DrainsAll(g, |xs|, d);
    ReturnsPrefix(g, Nexts(|xs|), d);
    forall x, e: ORDINAL | FrameOk(h(x).frame, e) ensures Made(h, d)(x) == Stream(h(x), e) {
      StreamSame(h(x), Depth(h(x).frame, d), e);
    }
  }

  lemma {:induction false} ConcatMapCongruence<V(!new)>(h: V -> seq<V>, k: V -> seq<V>, xs: seq<V>)
    requires forall x :: h(x) == k(x)
    ensures ConcatMap(h, xs) == ConcatMap(k, xs)
  {
    if xs != [] {
      ConcatMapCongruence(h, k, xs[1..]);
    }
  }

  lemma FromListGivesList<V(!new)>(xs: seq<V>, d: ORDINAL)
    ensures Use(FromList(xs, d), Nexts(|xs|), d).returned == xs
  {
    DrainsAll(FromList(xs, d), |xs|, d);
  }

  /**
   * Laziness: after any schedule a mapped generator has applied f once for every value returned
   * and once more if a value is waiting, never further ahead.
   */
  lemma {:induction false} MapAppliesLazily<V(!new)>(source: Gen<V>, f: V -> V, calls: seq<Call>, d: ORDINAL)
    requires Ok(source, d)
    ensures var u := Use(MapOf(source, f, d), calls, d);
      && u.gen.frame.MapFrame?
      && u.gen.frame.applied == |u.returned| + |Pending(u.gen.promise)|
      && u.gen.frame.applied <= |u.returned| + 1
    decreases |calls|
  {
    if calls != [] {
      MapAppliesLazily(source, f, calls[..|calls| - 1], d);
      var u := Use(MapOf(source, f, d), calls[..|calls| - 1], d);
      ResumeMapApplies(u.gen, d);
    }
  }

  lemma ResumeMapApplies<V(!new)>(g: Gen<V>, d: ORDINAL)
    requires Ok(g, d) && g.frame.MapFrame?
    ensures var g' := HasNext(g, d).0;
      g'.frame.MapFrame? && g'.frame.applied + |Pending(g.promise)| == g.frame.applied + |Pending(g'.promise)|
  {
  }

  // ----- the object itself -----

  /** A generator whose promise and frame are updated in place as its coroutine runs. */
  class Generator<V(!new)> {
    var value: Option<V>
    var isReady: bool
    var done: bool
    var frame: Frame<V>
    ghost const depth: ORDINAL

    ghost function View(): Gen<V>
      reads this
    {
      Gen(Promise(value, isReady, done), frame)
    }

    ghost predicate Valid()
      reads this
    {
      Ok(View(), depth)
    }

    /** Calling the coroutine function: the body runs to its first co_yield. */
    constructor (frame: Frame<V>, ghost depth: ORDINAL)
      requires FrameOk(frame, depth)
      ensures Valid() && View() == Start(frame, depth) && this.depth == depth
    {
      value, isReady, done := None, false, false;
      this.frame := frame;
      this.depth := depth;
      new;
      ResumeHandle();
    }

    method YieldValue(v: V)
      modifies `value, `isReady
      ensures value == Some(v) && isReady
    {
      value := Some(v);
      isReady := true;
    }

    method ResumeHandle()
      requires Valid() && !done && !isReady
      modifies this
      ensures Valid() && View() == Resume(old(View()), depth)
    {
      match frame
      case ListFrame(rest) =>
        if rest == [] {
          done := true;
        } else {
          frame := ListFrame(rest[1..]);
          YieldValue(rest[0]);
        }
      case MapFrame(source, f, applied) =>
        var (source', more) := HasNext(source, depth);
        if more {
          var (source'', v) := Next(source', depth);
          frame := MapFrame(source'', f, applied + 1);
          YieldValue(f(v.value));
        } else {
          frame := MapFrame(source', f, applied);
          done := true;
        }
      case FlatFrame(_, _, _) => ResumeFlatMap();
    }

    /** The loops of flat_map: the inner one yields, the outer one makes the next inner generator. */
    method ResumeFlatMap()
      requires Valid() && !done && !isReady && frame.FlatFrame?
      modifies this
      ensures Valid() && View() == ResumeFlat(old(View()), depth)
    {
      while true
        invariant Valid() && !done && !isReady && frame.FlatFrame?
        invariant ResumeFlat(View(), depth) == ResumeFlat(old(View()), depth)
        decreases 2 * |Stream(frame.source, depth)| + (if frame.inner.Some? then 1 else 0)
      {
        if frame.inner.Some? {
          ghost var e := Depth(frame.inner.value.frame, depth);
          var (inner', more) := HasNext(frame.inner.value, e);
          if more {
            var (inner'', v) := Next(inner', e);
            frame := FlatFrame(frame.source, frame.g, Some(inner''));
            YieldValue(v.value);
            return;
          }
          frame := FlatFrame(frame.source, frame.g, None);
        } else {
          var (source', more) := HasNext(frame.source, depth);
          frame := FlatFrame(source', frame.g, None);
          if !more {
            done := true;
            return;
          }
          var (source'', v) := Next(source', depth);
          frame := FlatFrame(source'', frame.g, Some(frame.g(v.value)));
        }
      }
    }

    method HasNextValue() returns (more: bool)
      requires Valid()
      modifies this
      ensures Valid() && (View(), more) == HasNext(old(View()), depth)
    {
      if done {
        return false;
      }
      if !isReady {
        ResumeHandle();
      }
      return !done;
    }

    method NextValue() returns (v: Option<V>)
      requires Valid()
      modifies this
      ensures Valid() && (View(), v) == Next(old(View()), depth)
    {
      var more := HasNextValue();
      if more {
        isReady := false;
        return value;
      }
      return None;
    }

    /** A caller that takes everything gets the stream. */
    method Drain() returns (all: seq<V>)
      requires Valid()
      modifies this
      ensures Valid() && all == Stream(old(View()), depth) && Stream(View(), depth) == []
    {
      all := [];
      var more := HasNextValue();
      while more
        invariant Valid() && all + Stream(View(), depth) == Stream(old(View()), depth)
        invariant more <==> Stream(View(), depth) != []
        decreases |Stream(View(), depth)|
      {
        ghost var before := Stream(View(), depth);
        var v := NextValue();
        assert all + before == all + [v.value] + Stream(View(), depth);
        all := all + [v.value];
        more := HasNextValue();
      }
    }
  }
}
