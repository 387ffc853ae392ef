/**
 * Splitting a range among threads: multithread/dichotomy_traversal.h, parallel_traversal.h and
 * paraller_find.h. Iterators are positions; applying the function to an element is applying it
 * to its position.
 */
module RangeSplitting {

  const MIN_PER_THREAD := 25

  datatype Option<T> = None | Some(value: T)

  /** The positions from first up to last, in order: what std::for_each visits. */
  function Range(first: nat, last: nat): (r: seq<nat>)
    requires first <= last
    ensures |r| == last - first && forall i :: 0 <= i < |r| ==> r[i] == first + i
  {
    seq(last - first, i requires 0 <= i < last - first => first + i)
  }

  lemma RangeSplit(first: nat, mid: nat, last: nat)
    requires first <= mid <= last
    ensures Range(first, last) == Range(first, mid) + Range(mid, last)
  {
  }

  // ----- recursive halving -----

  /** tr is a and b run side by side: each in its own order, arbitrarily interleaved. */
  ghost predicate IsMerge(a: seq<nat>, b: seq<nat>, tr: seq<nat>) {
    if tr == [] then a == [] && b == []
    else
      || (a != [] && a[0] == tr[0] && IsMerge(a[1..], b, tr[1..]))
      || (b != [] && b[0] == tr[0] && IsMerge(a, b[1..], tr[1..]))
  }

  function Middle(first: nat, last: nat): nat
    requires first <= last
  {
    first + (last - first) / 2
  }

  /** The orders in which dichotomy_traversal can apply the function: lines 10-25. */
  ghost predicate IsTrace(first: nat, last: nat, tr: seq<nat>)
    decreases last - first
  {
    if first >= last then tr == []
    else if last - first <= MIN_PER_THREAD then tr == Range(first, last)
    else exists a, b :: IsMerge(a, b, tr) && IsTrace(first, Middle(first, last), a) && IsTrace(Middle(first, last), last, b)
  }

  lemma {:induction false} MergeKeepsElements(a: seq<nat>, b: seq<nat>, tr: seq<nat>)
    requires IsMerge(a, b, tr)
    ensures multiset(tr) == multiset(a) + multiset(b)
  {
    if tr != [] {
      assert tr == [tr[0]] + tr[1..];
      if a != [] && a[0] == tr[0] && IsMerge(a[1..], b, tr[1..]) {
        assert a == [a[0]] + a[1..];
        MergeKeepsElements(a[1..], b, tr[1..]);
      } else {
        assert b == [b[0]] + b[1..];
        MergeKeepsElements(a, b[1..], tr[1..]);
      }
    }
  }

  /** Every position of the range is visited exactly once, and nothing else, however the halves interleave. */
  lemma {:induction false} TraceVisitsEachOnce(first: nat, last: nat, tr: seq<nat>)
    requires first <= last && IsTrace(first, last, tr)
    ensures multiset(tr) == multiset(Range(first, last))
    ensures forall i :: multiset(tr)[i] == if first <= i < last then 1 else 0
    decreases last - first
  {
    if last - first > MIN_PER_THREAD {
      var mid := Middle(first, last);
      var a, b :| IsMerge(a, b, tr) && IsTrace(first, mid, a) && IsTrace(mid, last, b);
      MergeKeepsElements(a, b, tr);
      TraceVisitsEachOnce(first, mid, a);
      TraceVisitsEachOnce(mid, last, b);
      RangeSplit(first, mid, last);
    } else if first < last {
      RangeHasEachOnce(first, last);
    }
  }

  lemma {:induction false} RangeHasEachOnce(first: nat, last: nat)
    requires first <= last
    ensures forall i :: multiset(Range(first, last))[i] == if first <= i < last then 1 else 0
    decreases last - first
  {
    if first < last {
      RangeHasEachOnce(first, last - 1);
      assert Range(first, last) == Range(first, last - 1) + [last - 1];
    }
  }

  /** Applying f at each position of tr in turn. */
  function Fold<S>(f: (S, nat) -> S, s: S, tr: seq<nat>): S
    decreases |tr|
  {
    if tr == [] then s else Fold(f, f(s, tr[0]), tr[1..])
  }

  /** The effects at two positions commute, as additions to an atomic do. */
  ghost predicate Commutes<S(!new)>(f: (S, nat) -> S) {
    forall s, i, j :: f(f(s, i), j) == f(f(s, j), i)
  }

  lemma {:induction false} FoldPast<S(!new)>(f: (S, nat) -> S, s: S, tr: seq<nat>, i: nat)
    requires Commutes(f)
    ensures Fold(f, f(s, i), tr) == f(Fold(f, s, tr), i)
    decreases |tr|
  {
    if tr != [] {
      FoldPast(f, f(s, tr[0]), tr[1..], i);
      assert f(f(s, i), tr[0]) == f(f(s, tr[0]), i);
    }
  }

  lemma {:induction false} FoldConcat<S>(f: (S, nat) -> S, s: S, a: seq<nat>, b: seq<nat>)
    ensures Fold(f, s, a + b) == Fold(f, Fold(f, s, a), b)
    decreases |a|
  {
    if a == [] {
      assert a + b == b;
    } else {
      assert (a + b)[1..] == a[1..] + b;
      FoldConcat(f, f(s, a[0]), a[1..], b);
    }
  }

  lemma {:induction false} FoldMerge<S(!new)>(f: (S, nat) -> S, s: S, a: seq<nat>, b: seq<nat>, tr: seq<nat>)
    requires Commutes(f) && IsMerge(a, b, tr)
    ensures Fold(f, s, tr) == Fold(f, Fold(f, s, a), b)
    decreases |tr|
  {
    if tr != [] {
      if a != [] && a[0] == tr[0] && IsMerge(a[1..], b, tr[1..]) {
        FoldMerge(f, f(s, tr[0]), a[1..], b, tr[1..]);
      } else {
        FoldMerge(f, f(s, tr[0]), a, b[1..], tr[1..]);
        FoldPast(f, s, a, b[0]);
      }
    }
  }

  /** With commuting effects the parallel traversal ends in the state of std::for_each. */
  lemma {:induction false} TraceAgreesWithForEach<S(!new)>(f: (S, nat) -> S, s: S, first: nat, last: nat, tr: seq<nat>)
    requires first <= last && Commutes(f) && IsTrace(first, last, tr)
    ensures Fold(f, s, tr) == Fold(f, s, Range(first, last))
    decreases last - first
  {
    if last - first > MIN_PER_THREAD {
      var mid := Middle(first, last);
      var a, b :| IsMerge(a, b, tr) && IsTrace(first, mid, a) && IsTrace(mid, last, b);
      FoldMerge(f, s, a, b, tr);
      TraceAgreesWithForEach(f, s, first, mid, a);
      TraceAgreesWithForEach(f, Fold(f, s, a), mid, last, b);
      RangeSplit(first, mid, last);
      FoldConcat(f, s, Range(first, mid), Range(mid, last));
    }
  }

  // ----- the tasks themselves, scheduled at will -----

  /** A call of dichotomy_traversal: a loop over a short range, or two calls side by side. */
  datatype Job = Loop(next: nat, last: nat) | Fork(firstHalf: Job, secondHalf: Job)

  function JobOf(first: nat, last: nat): Job
    decreases last - first
  {
    if first >= last || last - first <= MIN_PER_THREAD then Loop(first, last)
    else Fork(JobOf(first, Middle(first, last)), JobOf(Middle(first, last), last))
  }

  predicate IsFinished(job: Job) {
    match job
    case Loop(n, last) => n >= last
    case Fork(a, b) => IsFinished(a) && IsFinished(b)
  }

  /** The loop at the end of the path applies the function once, if it has anything left. */
  function Advance(job: Job, path: seq<bool>): (Job, seq<nat>)
    decreases job
  {
    match job
    case Loop(n, last) => if n < last then (Loop(n + 1, last), [n]) else (job, [])
    case Fork(a, b) =>
      if path == [] then (job, [])
      else if path[0] then var (a', x) := Advance(a, path[1..]); (Fork(a', b), x)
      else var (b', x) := Advance(b, path[1..]); (Fork(a, b'), x)
  }

  /** What a schedule of paths leaves of the job, and the positions in the order of application. */
  function Schedule(job: Job, paths: seq<seq<bool>>): (Job, seq<nat>)
    decreases |paths|
  {
    if paths == [] then (job, [])
    else
      var (job1, x) := Advance(job, paths[0]);
      var (job', xs) := Schedule(job1, paths[1..]);
      (job', x + xs)
  }

  /** The part of a schedule that concerns one half of a fork. */
  function Side(paths: seq<seq<bool>>, firstHalf: bool): seq<seq<bool>> {
    if paths == [] then []
    else
      var rest := Side(paths[1..], firstHalf);
      if paths[0] != [] && paths[0][0] == firstHalf then [paths[0][1..]] + rest else rest
  }

  lemma {:induction false} AdvanceAppliesOnce(job: Job, path: seq<bool>)
    ensures |Advance(job, path).1| <= 1
    decreases job
  {
    if job.Fork? && path != [] {
      AdvanceAppliesOnce(if path[0] then job.firstHalf else job.secondHalf, path[1..]);
    }
  }

  /** A fork does what its halves do, interleaved as the schedule says. */
  lemma {:induction false} ForkMerges(a: Job, b: Job, paths: seq<seq<bool>>)
    ensures var (a', xs) := Schedule(a, Side(paths, true)); var (b', ys) := Schedule(b, Side(paths, false));
      Schedule(Fork(a, b), paths).0 == Fork(a', b') && IsMerge(xs, ys, Schedule(Fork(a, b), paths).1)
    decreases |paths|
  {
    if paths != [] {
      var path, rest := paths[0], paths[1..];
      if path == [] {
        ForkMerges(a, b, rest);
        assert [] + Schedule(Fork(a, b), rest).1 == Schedule(Fork(a, b), rest).1;
      } else if path[0] {
        var (a1, x) := Advance(a, path[1..]);
        AdvanceAppliesOnce(a, path[1..]);
        ForkMerges(a1, b, rest);
        assert Side(paths, true)[1..] == Side(rest, true);
        MergeFirst(x, Schedule(a1, Side(rest, true)).1, Schedule(b, Side(rest, false)).1, Schedule(Fork(a1, b), rest).1);
      } else {
        var (b1, x) := Advance(b, path[1..]);
        AdvanceAppliesOnce(b, path[1..]);
        ForkMerges(a, b1, rest);
        assert Side(paths, false)[1..] == Side(rest, false);
        MergeSecond(x, Schedule(a, Side(rest, true)).1, Schedule(b1, Side(rest, false)).1, Schedule(Fork(a, b1), rest).1);
      }
    }
  }

  lemma MergeFirst(x: seq<nat>, a: seq<nat>, b: seq<nat>, tr: seq<nat>)
    requires |x| <= 1 && IsMerge(a, b, tr)
    ensures IsMerge(x + a, b, x + tr)
  {
    assert x == [] ==> x + a == a && x + tr == tr;
    assert x != [] ==> (x + a)[1..] == a && (x + tr)[1..] == tr;
  }

  lemma MergeSecond(x: seq<nat>, a: seq<nat>, b: seq<nat>, tr: seq<nat>)
    requires |x| <= 1 && IsMerge(a, b, tr)
    ensures IsMerge(a, x + b, x + tr)
  {
    assert x == [] ==> x + b == b && x + tr == tr;
    assert x != [] ==> (x + b)[1..] == b && (x + tr)[1..] == tr;
  }

  lemma {:induction false} LoopIsSequential(n: nat, last: nat, paths: seq<seq<bool>>)
    requires n <= last
    ensures var (job, xs) := Schedule(Loop(n, last), paths);
      job.Loop? && job.last == last && n <= job.next <= last && xs == Range(n, job.next)
    decreases |paths|
  {
    if paths == [] {
      assert Range(n, n) == [];
    } else if n < last {
      LoopIsSequential(n + 1, last, paths[1..]);
      var job := Schedule(Loop(n + 1, last), paths[1..]).0;
      assert Range(n, job.next) == [n] + Range(n + 1, job.next);
    } else {
      LoopIsSequential(n, last, paths[1..]);
    }
  }

  lemma {:induction false} NothingToDo(n: nat, last: nat, paths: seq<seq<bool>>)
    requires n >= last
    ensures Schedule(Loop(n, last), paths) == (Loop(n, last), [])
    decreases |paths|
  {
    if paths != [] {
      NothingToDo(n, last, paths[1..]);
      var none: seq<nat> := [];
      assert none + none == none;
    }
  }

  /** Every schedule that runs the tasks to their end applies the function in one of the orders of IsTrace. */
  lemma {:induction false} AnySchedule(first: nat, last: nat, paths: seq<seq<bool>>)
    requires IsFinished(Schedule(JobOf(first, last), paths).0)
    ensures IsTrace(first, last, Schedule(JobOf(first, last), paths).1)
    decreases last - first
  {
    if first >= last {
      NothingToDo(first, last, paths);
    } else if last - first <= MIN_PER_THREAD {
      LoopIsSequential(first, last, paths);
    } else {
      var mid := Middle(first, last);
      ForkMerges(JobOf(first, mid), JobOf(mid, last), paths);
      AnySchedule(first, mid, Side(paths, true));
      AnySchedule(mid, last, Side(paths, false));
    }
  }

  /** So with commuting effects any schedule at all ends as std::for_each does. */
  lemma ScheduleAgreesWithForEach<S(!new)>(f: (S, nat) -> S, s: S, first: nat, last: nat, paths: seq<seq<bool>>)
    requires first <= last && Commutes(f) && IsFinished(Schedule(JobOf(first, last), paths).0)
    ensures Fold(f, s, Schedule(JobOf(first, last), paths).1) == Fold(f, s, Range(first, last))
  {
    AnySchedule(first, last, paths);
    TraceAgreesWithForEach(f, s, first, last, Schedule(JobOf(first, last), paths).1);
  }

  /** The number of asynchronous tasks started for n elements. */
  function Tasks(n: nat): nat {
    if n <= MIN_PER_THREAD then 0 else 1 + Tasks(n / 2) + Tasks(n - n / 2)
  }

  /** The sub-ranges that are traversed sequentially. */
  function Leaves(first: nat, last: nat): seq<(nat, nat)>
    requires first <= last
    decreases last - first
  {
    if last - first <= MIN_PER_THREAD then [(first, last)]
    else Leaves(first, Middle(first, last)) + Leaves(Middle(first, last), last)
  }

  /** Once there is anything to split, no task gets fewer than 13 elements or more than 25. */
  lemma {:induction false} LeavesAreBalanced(first: nat, last: nat)
    requires first + 13 <= last
    ensures |Leaves(first, last)| == Tasks(last - first) + 1
    ensures forall i :: 0 <= i < |Leaves(first, last)| ==> FairShare(Leaves(first, last)[i])
    ensures 13 * (Tasks(last - first) + 1) <= last - first <= 25 * (Tasks(last - first) + 1)
    decreases last - first
  {
    if last - first > MIN_PER_THREAD {
      hide FairShare;
      LeavesAreBalanced(first, Middle(first, last));
      LeavesAreBalanced(Middle(first, last), last);
    }
  }

  predicate FairShare(leaf: (nat, nat)) {
    leaf.0 + 13 <= leaf.1 <= leaf.0 + 25
  }

  /** The state that the applied function updates in place, with the order of the updates. */
  class Accumulator<S> {
    var value: S
    ghost var applied: seq<nat>

    constructor (value: S)
      ensures this.value == value && applied == []
    {
      this.value := value;
      applied := [];
    }

    method ForEach(f: (S, nat) -> S, first: nat, last: nat)
      requires first <= last
      modifies this
      ensures applied == old(applied) + Range(first, last)
      ensures value == Fold(f, old(value), Range(first, last))
    {
      for i := first to last
        invariant applied == old(applied) + Range(first, i)
        invariant value == Fold(f, old(value), Range(first, i))
      {
        RangeSplit(first, i, i + 1);
        FoldConcat(f, old(value), Range(first, i), Range(i, i + 1));
        assert Range(i, i + 1) == [i];
        assert [i][1..] == [];
        value := f(value, i);
        applied := applied + [i];
      }
    }

    /** A further piece of a traversal that began at 0 with what is given. */
    method Extend(f: (S, nat) -> S, start: nat, end: nat, ghost applied0: seq<nat>, ghost value0: S)
      requires start <= end
      requires applied == applied0 + Range(0, start) && value == Fold(f, value0, Range(0, start))
      modifies this
      ensures applied == applied0 + Range(0, end) && value == Fold(f, value0, Range(0, end))
    {
      hide Fold, Range;
      RangeSplit(0, start, end);
      FoldConcat(f, value0, Range(0, start), Range(start, end));
      ForEach(f, start, end);
    }

    /**
     * The schedules of std::async that run one half after the other: each first half runs at once
     * or, where `deferred` says so, when its future is asked for.
     */
    method DichotomyTraversal(f: (S, nat) -> S, first: nat, last: nat, deferred: (nat, nat) -> bool)
      returns (tasks: nat, ghost tr: seq<nat>)
      modifies this
      ensures applied == old(applied) + tr && IsTrace(first, last, tr)
      ensures value == Fold(f, old(value), tr)
      ensures first <= last ==> tasks == Tasks(last - first)
      decreases last - first
    {
      hide Fold, Range, IsMerge, IsTrace;
      if first >= last {
        EmptyTrace(f, value, first, last);
        return 0, [];
      }
      if last - first <= MIN_PER_THREAD {
        ShortTrace(first, last);
        ForEach(f, first, last);
        return 0, Range(first, last);
      }
      var mid := Middle(first, last);
      var m, n;
      ghost var a, b;
      if deferred(first, mid) {
        n, b := DichotomyTraversal(f, mid, last, deferred);
        m, a := DichotomyTraversal(f, first, mid, deferred);
        tr := b + a;
        SecondThenFirst(first, last, a, b);
        FoldConcat(f, old(value), b, a);
      } else {
        m, a := DichotomyTraversal(f, first, mid, deferred);
        n, b := DichotomyTraversal(f, mid, last, deferred);
        tr := a + b;
        FirstThenSecond(first, last, a, b);
        FoldConcat(f, old(value), a, b);
      }
      tasks := 1 + m + n;
    }
  }

  lemma EmptyTrace<S>(f: (S, nat) -> S, s: S, first: nat, last: nat)
    requires first >= last
    ensures IsTrace(first, last, []) && Fold(f, s, []) == s
    ensures first == last ==> Tasks(last - first) == 0
  {
  }

  lemma ShortTrace(first: nat, last: nat)
    requires first < last && last - first <= MIN_PER_THREAD
    ensures IsTrace(first, last, Range(first, last))
  {
  }

  lemma FirstThenSecond(first: nat, last: nat, a: seq<nat>, b: seq<nat>)
    requires first <= last && last - first > MIN_PER_THREAD
    requires IsTrace(first, Middle(first, last), a) && IsTrace(Middle(first, last), last, b)
    ensures IsTrace(first, last, a + b)
  {
    hide IsMerge, Range;
    MergeBackToBack(a, b);
  }

  lemma SecondThenFirst(first: nat, last: nat, a: seq<nat>, b: seq<nat>)
    requires first <= last && last - first > MIN_PER_THREAD
    requires IsTrace(first, Middle(first, last), a) && IsTrace(Middle(first, last), last, b)
    ensures IsTrace(first, last, b + a)
  {
    hide IsMerge, Range;
    MergeBackToBack(b, a);
    MergeSymmetric(b, a, b + a);
  }

  lemma {:induction false} MergeBackToBack(a: seq<nat>, b: seq<nat>)
    ensures IsMerge(a, b, a + b)
    decreases |a| + |b|
  {
    if a != [] {
      assert (a + b)[1..] == a[1..] + b;
      MergeBackToBack(a[1..], b);
    } else if b != [] {
      assert (a + b)[1..] == a + b[1..];
      MergeBackToBack(a, b[1..]);
    }
  }

  lemma {:induction false} MergeSymmetric(a: seq<nat>, b: seq<nat>, tr: seq<nat>)
    requires IsMerge(a, b, tr)
    ensures IsMerge(b, a, tr)
    decreases |tr|
  {
    if tr != [] {
      if a != [] && a[0] == tr[0] && IsMerge(a[1..], b, tr[1..]) {
        MergeSymmetric(a[1..], b, tr[1..]);
      } else {
        MergeSymmetric(a, b[1..], tr[1..]);
      }
    }
  }

  // ----- equal chunks -----

  function CeilDiv(n: nat, d: nat): nat
    requires n > 0 && d > 0
  {
    (n - 1) / d + 1
  }

  function ThreadCount(n: nat, hardware: nat): nat
    requires n > 0
  {
    if hardware < CeilDiv(n, MIN_PER_THREAD) then hardware else CeilDiv(n, MIN_PER_THREAD)
  }

  /** Consecutive pieces that together are the range from first to last. */
  ghost predicate Tiles(chunks: seq<(nat, nat)>, first: nat, last: nat) {
    && chunks != [] && chunks[0].0 == first && chunks[|chunks| - 1].1 == last
    && (forall i :: 0 <= i < |chunks| ==> chunks[i].0 <= chunks[i].1)
    && (forall i :: 0 < i < |chunks| ==> chunks[i].0 == chunks[i - 1].1)
  }

  /** How large the pieces are: t of them, all alike but for the remainder in the last. */
  ghost predicate EvenBut(chunks: seq<(nat, nat)>, n: nat, t: nat)
    requires t > 0
  {
    && |chunks| == t
    && (forall i :: 0 <= i < t - 1 ==> chunks[i].1 == chunks[i].0 + n / t)
    && chunks[t - 1].1 == chunks[t - 1].0 + n / t + n % t
  }

  /** With enough hardware threads a chunk is never smaller than 13 nor, but for the last, larger than 25. */
  lemma ChunksAreBalanced(n: nat, hardware: nat)
    requires n > 0 && hardware >= CeilDiv(n, MIN_PER_THREAD) >= 2
    ensures 13 <= n / ThreadCount(n, hardware) <= 25
  {
    var t := CeilDiv(n, MIN_PER_THREAD);
    var each := n / t;
    assert 25 * (t - 1) < n <= 25 * t;
    assert each * t <= n < each * t + t;
    MultiplyBoth(26, each, t);
    MultiplyBoth(each, 12, t);
  }

  lemma MultiplyBoth(a: nat, b: nat, t: nat)
    ensures a <= b ==> a * t <= b * t
  {
    if a <= b {
      assert (b - a) * t >= 0;
    }
  }

  /** Where the i-th chunk begins. */
  function ChunkStart(n: nat, t: nat, i: nat): nat
    requires t > 0
  {
    n / t * i
  }

  lemma FirstChunk(n: nat, t: nat)
    requires t > 0
    ensures ChunkStart(n, t, 0) == 0
  {
  }

  lemma NextChunk(n: nat, t: nat, i: nat)
    requires i + 1 < t
    ensures ChunkStart(n, t, i + 1) == ChunkStart(n, t, i) + n / t <= n
  {
    var each := n / t;
    assert each * t <= n;
    MultiplyBoth(i + 1, t, each);
    assert each * (i + 1) == each * i + each;
  }

  lemma LastChunk(n: nat, t: nat)
    requires t > 0
    ensures ChunkStart(n, t, t - 1) + n / t + n % t == n
  {
    assert n / t * (t - 1) + n / t == n / t * t;
  }

  /** Division by zero when the hardware reports no threads: the one case that does not run. */
  predicate Divides(n: nat, hardware: nat) {
    n == 0 || hardware > 0
  }

  /** paraller_traversal, lines 16-50; None is the division by zero of line 23. */
  method ParallelTraversal<S>(acc: Accumulator<S>, f: (S, nat) -> S, n: nat, hardware: nat)
    returns (chunks: Option<seq<(nat, nat)>>)
    modifies acc
    ensures chunks.Some? <==> Divides(n, hardware)
    ensures chunks.Some? ==> acc.applied == old(acc.applied) + Range(0, n)
    ensures chunks.Some? ==> acc.value == Fold(f, old(acc.value), Range(0, n))
    ensures chunks.Some? && n > 0 ==> Tiles(chunks.value, 0, n) && EvenBut(chunks.value, n, ThreadCount(n, hardware))
  {
    assert Range(0, 0) == [];
    hide Range, Fold, Tiles, ChunkStart;
    if n == 0 {
      return Some([]);
    }
    var threads := ThreadCount(n, hardware);
    if threads == 0 {
      return None;
    }
    var each := n / threads;
    FirstChunk(n, threads);
    var pieces: seq<(nat, nat)> := [];
    var start := 0;
    for i := 0 to threads - 1
      invariant start == ChunkStart(n, threads, i) <= n && |pieces| == i
      invariant i == 0 || Tiles(pieces, 0, start)
      invariant forall k :: 0 <= k < i ==> pieces[k].1 == pieces[k].0 + each
      invariant acc.applied == old(acc.applied) + Range(0, start)
      invariant acc.value == Fold(f, old(acc.value), Range(0, start))
    {
      NextChunk(n, threads, i);
      var end := start + each;
      acc.Extend(f, start, end, old(acc.applied), old(acc.value));
      AddTile(pieces, start, end);
      pieces := pieces + [(start, end)];
      start := end;
    }
    LastChunk(n, threads);
    acc.Extend(f, start, n, old(acc.applied), old(acc.value));
    AddTile(pieces, start, n);
    pieces := pieces + [(start, n)];
    return Some(pieces);
  }

  lemma AddTile(chunks: seq<(nat, nat)>, start: nat, end: nat)
    requires (chunks == [] && start == 0) || Tiles(chunks, 0, start)
    requires start <= end
    ensures Tiles(chunks + [(start, end)], 0, end)
  {
  }

  // ----- chunked search -----

  /** What std::find returns: the first match, or the end. */
  ghost predicate IsFind<T>(s: seq<T>, x: T, index: nat) {
    && index <= |s|
    && (forall i :: 0 <= i < index ==> s[i] != x)
    && (index < |s| ==> s[index] == x)
  }

  /** The promise and flag that the searching threads share. */
  class Finding {
    var result: Option<nat>
    var hasFound: bool
    ghost var sets: nat       // how often the promise was set; a second time would throw

    constructor ()
      ensures result == None && !hasFound && sets == 0
    {
      result, hasFound, sets := None, false, 0;
    }

    /** The lambda findMatchType, lines 15-25. */
    method FindMatchType<T(==)>(s: seq<T>, first: nat, last: nat, x: T)
      requires first <= last <= |s|
      modifies this
      ensures old(hasFound) ==> result == old(result) && hasFound && sets == old(sets)
      ensures !old(hasFound) && hasFound ==> sets == old(sets) + 1 && result.Some? && first <= result.value < last
      ensures !old(hasFound) && hasFound ==> s[result.value] == x && forall i :: first <= i < result.value ==> s[i] != x
      ensures !hasFound ==> result == old(result) && sets == old(sets) && forall i :: first <= i < last ==> s[i] != x
    {
      var it := first;
      while it != last && !hasFound
        invariant first <= it <= last && hasFound == old(hasFound) && result == old(result) && sets == old(sets)
        invariant forall i :: first <= i < it ==> !hasFound ==> s[i] != x
        decreases last - it
      {
        if s[it] == x {
          result := Some(it);
          sets := sets + 1;
          hasFound := true;
          return;
        }
        it := it + 1;
      }
    }
  }

  /** paraller_find, lines 13-56: the same answer as a linear scan, and the promise set at most once. */
  method ParallelFind<T(==)>(s: seq<T>, x: T, hardware: nat) returns (index: Option<nat>, ghost sets: nat)
    ensures index.Some? <==> Divides(|s|, hardware)
    ensures index.Some? ==> IsFind(s, x, index.value) && sets == if index.value < |s| then 1 else 0
  {
    sets := 0;
    var n := |s|;
    if n == 0 {
      return Some(0), 0;
    }
    var threads := ThreadCount(n, hardware);
    if threads == 0 {
      return None, 0;
    }
    var each := n / threads;
    FirstChunk(n, threads);
    var finding := new Finding();
    var start := 0;
    for i := 0 to threads - 1
      invariant start == ChunkStart(n, threads, i) <= n
      invariant finding.hasFound ==> finding.sets == 1 && finding.result.Some? && finding.result.value < n
      invariant finding.hasFound ==> IsFind(s, x, finding.result.value)
      invariant !finding.hasFound ==> finding.sets == 0 && forall k :: 0 <= k < start ==> s[k] != x
      invariant fresh(finding)
    {
      NextChunk(n, threads, i);
      finding.FindMatchType(s, start, start + each, x);
      start := start + each;
    }
    finding.FindMatchType(s, start, n, x);
    sets := finding.sets;
    if !finding.hasFound {
      return Some(n), sets;
    }
    return finding.result, sets;
  }
}
