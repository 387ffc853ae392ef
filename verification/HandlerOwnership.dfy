/**
 * Who owns the target of an any_completion_handler (include/asio/any_completion_handler.hpp):
 * wrappers hold a pointer to an implementation object and the function table of its type, and
 * pass both around by move, assignment and swap. Wrappers are named by keys of any type.
 */
module HandlerOwnership {

  datatype Option<T> = None | Some(value: T)

  /** fn_table_ and impl_. A function table is named by the handler type it belongs to. */
  datatype Wrapper = Wrapper(table: Option<nat>, impl: Option<nat>)

  const EMPTY := Wrapper(None, None)

  datatype Happening = Created(impl: nat) | Released(impl: nat) | Invoked(impl: nat)

  datatype State<K(==)> = State(
    wrappers: map<K, Wrapper>,
    types: seq<nat>,           // the handler type of each impl ever created
    live: set<nat>,            // impls whose storage is allocated
    log: seq<Happening>,
    badCalls: nat,             // calls that threw bad_function_call
    faults: nat)               // uses of a released impl, or of the wrong type's table

  datatype Op<K> =
    | ConstructEmpty(w: K)
    | Construct(w: K, handlerType: nat)
    | MoveConstruct(w: K, from: K)
    | MoveAssign(w: K, from: K)
    | AssignNull(w: K)
    | Swap(w: K, other: K)
    | Call(w: K)
    | Destroy(w: K)

  function Init<K>(): State<K> {
    State(map[], [], {}, [], 0, 0)
  }

  function Set<K>(s: State<K>, w: K, v: Wrapper): State<K> {
    s.(wrappers := s.wrappers[w := v])
  }

  /** create, lines 90-106: the new impl is number |types|. */
  function Create<K>(s: State<K>, handlerType: nat): State<K> {
    s.(types := s.types + [handlerType], live := s.live + {|s.types|}, log := s.log + [Created(|s.types|)])
  }

  predicate Usable<K>(s: State<K>, v: Wrapper) {
    v.impl.Some? && v.impl.value in s.live && v.impl.value < |s.types| && v.table == Some(s.types[v.impl.value])
  }

  /** The destructor's fn_table_->destroy(impl_), lines 108-115 and 699-703. */
  function Drop<K>(s: State<K>, v: Wrapper): State<K> {
    if v.impl == None then s
    else if !Usable(s, v) then s.(faults := s.faults + 1)
    else s.(live := s.live - {v.impl.value}, log := s.log + [Released(v.impl.value)])
  }

  /** call, lines 178-191: the handler is moved out and the storage released before it runs. */
  function Invoke<K>(s: State<K>, v: Wrapper): State<K>
    requires v.impl.Some?
  {
    if !Usable(s, v) then s.(faults := s.faults + 1)
    else
      s.(live := s.live - {v.impl.value}, log := s.log + [Released(v.impl.value), Invoked(v.impl.value)])
  }

  /** operator=(any_completion_handler&&): a temporary takes over the source and is swapped with the target. */
  function Assign<K>(s: State<K>, w: K, from: K): State<K>
    requires w in s.wrappers && from in s.wrappers
  {
    var moved := Set(s, from, EMPTY);
    Drop(Set(moved, w, s.wrappers[from]), moved.wrappers[w])
  }

  function Exec<K>(s: State<K>, op: Op<K>): State<K> {
    match op
    case ConstructEmpty(w) => if w in s.wrappers then s else Set(s, w, EMPTY)
    case Construct(w, ty) =>
      if w in s.wrappers then s else Set(Create(s, ty), w, Wrapper(Some(ty), Some(|s.types|)))
    case MoveConstruct(w, from) =>
      if w in s.wrappers || from !in s.wrappers then s else Set(Set(s, w, s.wrappers[from]), from, EMPTY)
    case MoveAssign(w, from) => if w in s.wrappers && from in s.wrappers then Assign(s, w, from) else s
    case AssignNull(w) => if w in s.wrappers then Drop(Set(s, w, EMPTY), s.wrappers[w]) else s
    case Swap(w, other) =>
      if w in s.wrappers && other in s.wrappers
      then Set(Set(s, w, s.wrappers[other]), other, s.wrappers[w]) else s
    case Call(w) =>
      if w !in s.wrappers then s
      else if s.wrappers[w].impl == None then s.(badCalls := s.badCalls + 1)
      else Invoke(Set(s, w, s.wrappers[w].(impl := None)), s.wrappers[w])
    case Destroy(w) =>
      if w in s.wrappers then Drop(s.(wrappers := s.wrappers - {w}), s.wrappers[w]) else s
  }

  function Run<K>(s: State<K>, ops: seq<Op<K>>): State<K> {
    if ops == [] then s else Exec(Run(s, ops[..|ops| - 1]), ops[|ops| - 1])
  }

  // ----- the invariant -----

  function Times(log: seq<Happening>, h: Happening): nat {
    if log == [] then 0 else Times(log[..|log| - 1], h) + if log[|log| - 1] == h then 1 else 0
  }

  ghost predicate PointsTo<K>(wrappers: map<K, Wrapper>, w: K, i: nat) {
    w in wrappers && wrappers[w].impl == Some(i)
  }

  /** Every live impl has exactly one wrapper pointing at it, and nothing points at anything else. */
  ghost predicate Owned<K>(wrappers: map<K, Wrapper>, live: set<nat>) {
    && (forall w :: w in wrappers && wrappers[w].impl.Some? ==> wrappers[w].impl.value in live)
    && (forall v, w :: v in wrappers && w in wrappers && v != w && wrappers[v].impl.Some? ==>
          wrappers[v].impl != wrappers[w].impl)
    && (forall i :: i in live ==> exists w :: w in wrappers && PointsTo(wrappers, w, i))
  }

  ghost predicate TablesMatch<K>(wrappers: map<K, Wrapper>, types: seq<nat>) {
    forall w :: w in wrappers && wrappers[w].impl.Some? ==>
      wrappers[w].impl.value < |types| && wrappers[w].table == Some(types[wrappers[w].impl.value])
  }

  /** The life of impl i so far, told by the log. */
  ghost predicate LifeOk(log: seq<Happening>, created: nat, live: set<nat>, i: nat) {
    && Times(log, Created(i)) == (if i < created then 1 else 0)
    && Times(log, Released(i)) == (if i < created && i !in live then 1 else 0)
    && Times(log, Invoked(i)) <= Times(log, Released(i))
  }

  /** No handler runs before its storage has been released. */
  ghost predicate ReleasedFirst(log: seq<Happening>) {
    forall k :: 0 <= k < |log| && log[k].Invoked? ==> exists j :: 0 <= j < k && log[j] == Released(log[k].impl)
  }

  ghost predicate Inv<K>(s: State<K>) {
    && s.faults == 0
    && (forall i :: i in s.live ==> i < |s.types|)
    && Owned(s.wrappers, s.live)
    && TablesMatch(s.wrappers, s.types)
    && (forall i :: LifeOk(s.log, |s.types|, s.live, i))
    && ReleasedFirst(s.log)
  }

  lemma TimesAppend(log: seq<Happening>, h: Happening, g: Happening)
    ensures Times(log + [h], g) == Times(log, g) + if h == g then 1 else 0
  {
    assert (log + [h])[..|log|] == log;
  }

  lemma CreateKeepsLives<K>(s: State<K>, ty: nat)
    requires Inv(s)
    ensures var s' := Create(s, ty);
      (forall i :: LifeOk(s'.log, |s'.types|, s'.live, i)) && ReleasedFirst(s'.log)
  {
    var n := |s.types|;
    var s' := Create(s, ty);
    forall i ensures LifeOk(s'.log, |s'.types|, s'.live, i) {
      assert LifeOk(s.log, n, s.live, i);
      TimesAppend(s.log, Created(n), Created(i));
      TimesAppend(s.log, Created(n), Released(i));
      TimesAppend(s.log, Created(n), Invoked(i));
    }
    ReleasedStaysFirst(s.log, Created(n));
  }

  /** A happening that is not an invocation cannot spoil the order. */
  lemma ReleasedStaysFirst(log: seq<Happening>, h: Happening)
    requires ReleasedFirst(log) && !h.Invoked?
    ensures ReleasedFirst(log + [h])
  {
    var log' := log + [h];
    forall k | 0 <= k < |log'| && log'[k].Invoked? ensures exists j :: 0 <= j < k && log'[j] == Released(log'[k].impl) {
      assert log'[k] == log[k];
      var j :| 0 <= j < k && log[j] == Released(log[k].impl);
      assert log'[j] == Released(log'[k].impl);
    }
  }

  lemma ReleaseKeepsLives(log: seq<Happening>, created: nat, live: set<nat>, n: nat)
    requires n in live && n < created && ReleasedFirst(log) && forall i :: LifeOk(log, created, live, i)
    ensures forall i :: LifeOk(log + [Released(n)], created, live - {n}, i)
    ensures ReleasedFirst(log + [Released(n)])
  {
    forall i ensures LifeOk(log + [Released(n)], created, live - {n}, i) {
      assert LifeOk(log, created, live, i);
      TimesAppend(log, Released(n), Created(i));
      TimesAppend(log, Released(n), Released(i));
      TimesAppend(log, Released(n), Invoked(i));
    }
    ReleasedStaysFirst(log, Released(n));
  }

  lemma InvokeKeepsLives(log: seq<Happening>, created: nat, live: set<nat>, n: nat)
    requires n in live && n < created && ReleasedFirst(log) && forall i :: LifeOk(log, created, live, i)
    ensures forall i :: LifeOk(log + [Released(n), Invoked(n)], created, live - {n}, i)
    ensures ReleasedFirst(log + [Released(n), Invoked(n)])
  {
    ReleaseKeepsLives(log, created, live, n);
    var mid := log + [Released(n)];
    assert log + [Released(n), Invoked(n)] == mid + [Invoked(n)];
    forall i ensures LifeOk(mid + [Invoked(n)], created, live - {n}, i) {
      assert LifeOk(mid, created, live - {n}, i) && LifeOk(log, created, live, i);
      TimesAppend(log, Released(n), Released(i));
      TimesAppend(log, Released(n), Invoked(i));
      TimesAppend(mid, Invoked(n), Created(i));
      TimesAppend(mid, Invoked(n), Released(i));
      TimesAppend(mid, Invoked(n), Invoked(i));
    }
    var log' := mid + [Invoked(n)];
    forall k | 0 <= k < |log'| && log'[k].Invoked? ensures exists j :: 0 <= j < k && log'[j] == Released(log'[k].impl) {
      if k < |mid| {
        var j :| 0 <= j < k && mid[j] == Released(mid[k].impl);
        assert log'[j] == Released(log'[k].impl);
      } else {
        assert log'[|log|] == Released(n);
      }
    }
  }

  /** Giving up what v points at, once no wrapper points there any more. */
  lemma DropKeepsInv<K>(s: State<K>, v: Wrapper)
    requires s.faults == 0 && (forall i :: i in s.live ==> i < |s.types|)
    requires ReleasedFirst(s.log) && forall i :: LifeOk(s.log, |s.types|, s.live, i)
    requires TablesMatch(s.wrappers, s.types)
    requires v.impl.Some? ==> Usable(s, v)
    requires Owned(s.wrappers, if v.impl.Some? then s.live - {v.impl.value} else s.live)
    ensures Inv(Drop(s, v))
    ensures v.impl.Some? ==> Inv(Invoke(s, v))
  {
    if v.impl.Some? {
      ReleaseKeepsLives(s.log, |s.types|, s.live, v.impl.value);
      InvokeKeepsLives(s.log, |s.types|, s.live, v.impl.value);
    }
  }

  /** Taking a wrapper's target away from it leaves that target to whoever holds the value. */
  lemma Disown<K>(s: State<K>, w: K, v: Wrapper)
    requires Inv(s) && w in s.wrappers && v.impl == None
    ensures var live := if s.wrappers[w].impl.Some? then s.live - {s.wrappers[w].impl.value} else s.live;
      Owned(s.wrappers[w := v], live) && Owned(s.wrappers - {w}, live)
    ensures TablesMatch(s.wrappers[w := v], s.types) && TablesMatch(s.wrappers - {w}, s.types)
  {
    var live := if s.wrappers[w].impl.Some? then s.live - {s.wrappers[w].impl.value} else s.live;
    var put, cut := s.wrappers[w := v], s.wrappers - {w};
    forall i | i in live
      ensures exists u :: u in put && PointsTo(put, u, i)
      ensures exists u :: u in cut && PointsTo(cut, u, i)
    {
      var u :| u in s.wrappers && PointsTo(s.wrappers, u, i);
      assert PointsTo(put, u, i) && PointsTo(cut, u, i);
    }
  }

  /** Moving a target from one wrapper to another, empty or new one. */
  lemma Transfer<K>(wrappers: map<K, Wrapper>, live: set<nat>, types: seq<nat>, w: K, from: K)
    requires Owned(wrappers, live) && TablesMatch(wrappers, types)
    requires from in wrappers && w != from && (w in wrappers ==> wrappers[w].impl == None)
    ensures Owned(wrappers[w := wrappers[from]][from := EMPTY], live)
    ensures TablesMatch(wrappers[w := wrappers[from]][from := EMPTY], types)
  {
    var wrappers' := wrappers[w := wrappers[from]][from := EMPTY];
    forall i | i in live ensures exists u :: u in wrappers' && PointsTo(wrappers', u, i) {
      var u :| u in wrappers && PointsTo(wrappers, u, i);
      assert PointsTo(wrappers', if u == from then w else u, i);
    }
  }

  /** Move assignment, also from the wrapper to itself. */
  lemma AssignKeepsInv<K>(s: State<K>, w: K, from: K)
    requires Inv(s) && w in s.wrappers && from in s.wrappers
    ensures Inv(Assign(s, w, from))
    ensures w == from ==> Assign(s, w, from) == s
  {
    hide Owned, TablesMatch, LifeOk, ReleasedFirst;
    if s.wrappers[w].impl.Some? {
      TargetIsUsable(s, w);
    }
    if w == from {
      assert s.wrappers[w := EMPTY][w := s.wrappers[w]] == s.wrappers;
    } else {
      Disown(s, w, EMPTY);
      var before := s.wrappers[w];
      var live := if before.impl.Some? then s.live - {before.impl.value} else s.live;
      Transfer(s.wrappers[w := EMPTY], live, s.types, w, from);
      var s' := Set(Set(s, from, EMPTY), w, s.wrappers[from]);
      assert s'.wrappers == s.wrappers[w := EMPTY][w := s.wrappers[from]][from := EMPTY];
      DropKeepsInv(s', before);
    }
  }

  /** What move assignment leaves behind: the target's old handler is gone unless it was its own source. */
  lemma AssignEffect<K>(s: State<K>, w: K, from: K)
    requires Inv(s) && w in s.wrappers && from in s.wrappers
    ensures var s' := Exec(s, MoveAssign(w, from));
      var former := if w == from then None else s.wrappers[w].impl;
      && Inv(s')
      && s'.wrappers == s.wrappers[from := EMPTY][w := s.wrappers[from]]
      && s'.types == s.types
      && (former.Some? ==> former.value in s.live)
      && s'.live == if former.Some? then s.live - {former.value} else s.live
  {
    AssignKeepsInv(s, w, from);
    if s.wrappers[w].impl.Some? {
      TargetIsUsable(s, w);
    }
    hide Inv;
  }

  lemma AssignNullEffect<K>(s: State<K>, w: K)
    requires Inv(s) && w in s.wrappers
    ensures var s' := Exec(s, AssignNull(w)); var dropped := s.wrappers[w].impl;
      && s'.wrappers == s.wrappers[w := EMPTY] && s'.types == s.types
      && (dropped.Some? ==> dropped.value in s.live)
      && s'.live == if dropped.Some? then s.live - {dropped.value} else s.live
  {
    if s.wrappers[w].impl.Some? {
      TargetIsUsable(s, w);
    }
    hide Inv;
  }

  function Swapped<K>(wrappers: map<K, Wrapper>, w: K, other: K): map<K, Wrapper>
    requires w in wrappers && other in wrappers
  {
    wrappers[w := wrappers[other]][other := wrappers[w]]
  }

  /** Swapping only renames the wrappers. */
  lemma SwapRenames<K>(wrappers: map<K, Wrapper>, w: K, other: K, u: K)
    requires w in wrappers && other in wrappers && u in wrappers
    ensures var v := if u == w then other else if u == other then w else u;
      v in wrappers && Swapped(wrappers, w, other)[u] == wrappers[v]
  {
  }

  lemma SwapKeepsTargets<K>(wrappers: map<K, Wrapper>, live: set<nat>, w: K, other: K)
    requires Owned(wrappers, live) && w in wrappers && other in wrappers
    ensures forall i :: i in live ==> exists u :: u in Swapped(wrappers, w, other) && PointsTo(Swapped(wrappers, w, other), u, i)
  {
    forall i | i in live
      ensures exists u :: u in Swapped(wrappers, w, other) && PointsTo(Swapped(wrappers, w, other), u, i)
    {
      var u :| u in wrappers && PointsTo(wrappers, u, i);
      var v := if u == w then other else if u == other then w else u;
      assert PointsTo(Swapped(wrappers, w, other), v, i);
    }
  }

  lemma SwapKeepsOwned<K>(wrappers: map<K, Wrapper>, live: set<nat>, types: seq<nat>, w: K, other: K)
    requires Owned(wrappers, live) && TablesMatch(wrappers, types) && w in wrappers && other in wrappers
    ensures Owned(Swapped(wrappers, w, other), live) && TablesMatch(Swapped(wrappers, w, other), types)
  {
    var swapped := Swapped(wrappers, w, other);
    assert swapped.Keys == wrappers.Keys;
    SwapKeepsTargets(wrappers, live, w, other);
    hide Swapped, PointsTo;
    forall u | u in swapped && swapped[u].impl.Some?
      ensures swapped[u].impl.value in live && swapped[u].impl.value < |types|
      ensures swapped[u].table == Some(types[swapped[u].impl.value])
    {
      SwapRenames(wrappers, w, other, u);
    }
    forall u, v | u in swapped && v in swapped && u != v && swapped[u].impl.Some?
      ensures swapped[u].impl != swapped[v].impl
    {
      SwapRenames(wrappers, w, other, u);
      SwapRenames(wrappers, w, other, v);
    }
  }

  lemma SwapKeepsInv<K>(s: State<K>, w: K, other: K)
    requires Inv(s) && w in s.wrappers && other in s.wrappers
    ensures Inv(Exec(s, Swap(w, other)))
  {
    hide Owned, TablesMatch, LifeOk, ReleasedFirst;
    SwapKeepsOwned(s.wrappers, s.live, s.types, w, other);
  }

  lemma TargetIsUsable<K>(s: State<K>, w: K)
    requires Inv(s) && w in s.wrappers && s.wrappers[w].impl.Some?
    ensures Usable(s, s.wrappers[w])
  {
  }

  lemma ConstructKeepsInv<K>(s: State<K>, w: K, ty: nat)
    requires Inv(s) && w !in s.wrappers
    ensures Inv(Set(s, w, EMPTY)) && Inv(Exec(s, Construct(w, ty)))
  {
    CreateKeepsLives(s, ty);
    var s' := Exec(s, Construct(w, ty));
    var e := Set(s, w, EMPTY);
    assert PointsTo(s'.wrappers, w, |s.types|);
    forall i | i in s.live
      ensures exists u :: u in s'.wrappers && PointsTo(s'.wrappers, u, i)
      ensures exists u :: u in e.wrappers && PointsTo(e.wrappers, u, i)
    {
      var u :| u in s.wrappers && PointsTo(s.wrappers, u, i);
      assert PointsTo(s'.wrappers, u, i) && PointsTo(e.wrappers, u, i);
    }
  }

  lemma AssignNullKeepsInv<K>(s: State<K>, w: K)
    requires Inv(s) && w in s.wrappers
    ensures Inv(Exec(s, AssignNull(w)))
  {
    hide Owned, TablesMatch, LifeOk, ReleasedFirst;
    if s.wrappers[w].impl.Some? {
      TargetIsUsable(s, w);
    }
    Disown(s, w, EMPTY);
    DropKeepsInv(Set(s, w, EMPTY), s.wrappers[w]);
  }

  lemma CallKeepsInv<K>(s: State<K>, w: K)
    requires Inv(s) && w in s.wrappers && s.wrappers[w].impl.Some?
    ensures Inv(Exec(s, Call(w)))
  {
    hide Owned, TablesMatch, LifeOk, ReleasedFirst;
    TargetIsUsable(s, w);
    Disown(s, w, s.wrappers[w].(impl := None));
    DropKeepsInv(Set(s, w, s.wrappers[w].(impl := None)), s.wrappers[w]);
  }

  lemma DestroyKeepsInv<K>(s: State<K>, w: K)
    requires Inv(s) && w in s.wrappers
    ensures Inv(Exec(s, Destroy(w)))
  {
    hide Owned, TablesMatch, LifeOk, ReleasedFirst;
    if s.wrappers[w].impl.Some? {
      TargetIsUsable(s, w);
    }
    Disown(s, w, EMPTY);
    DropKeepsInv(s.(wrappers := s.wrappers - {w}), s.wrappers[w]);
  }

  lemma MoveConstructKeepsInv<K>(s: State<K>, w: K, from: K)
    requires Inv(s) && w !in s.wrappers && from in s.wrappers
    ensures Inv(Exec(s, MoveConstruct(w, from)))
  {
    hide Owned, TablesMatch, LifeOk, ReleasedFirst;
    Transfer(s.wrappers, s.live, s.types, w, from);
  }

  lemma BadCallKeepsInv<K>(s: State<K>)
    requires Inv(s)
    ensures Inv(s.(badCalls := s.badCalls + 1))
  {
    hide Owned, TablesMatch, LifeOk, ReleasedFirst;
  }

  lemma ExecKeepsInv<K>(s: State<K>, op: Op<K>)
    requires Inv(s)
    ensures Inv(Exec(s, op))
  {
    hide Inv;
    match op
    case ConstructEmpty(w) => if w !in s.wrappers { ConstructKeepsInv(s, w, 0); }
    case Construct(w, ty) => if w !in s.wrappers { ConstructKeepsInv(s, w, ty); }
    case MoveConstruct(w, from) => if w !in s.wrappers && from in s.wrappers { MoveConstructKeepsInv(s, w, from); }
    case MoveAssign(w, from) => if w in s.wrappers && from in s.wrappers { AssignKeepsInv(s, w, from); }
    case AssignNull(w) => if w in s.wrappers { AssignNullKeepsInv(s, w); }
    case Swap(w, other) => if w in s.wrappers && other in s.wrappers { SwapKeepsInv(s, w, other); }
    case Call(w) =>
      if w in s.wrappers && s.wrappers[w].impl.Some? {
        CallKeepsInv(s, w);
      } else {
        BadCallKeepsInv(s);
      }
    case Destroy(w) => if w in s.wrappers { DestroyKeepsInv(s, w); }
  }

  // ----- theorems about every run -----

  lemma {:induction false} RunKeepsInv<K>(ops: seq<Op<K>>)
    ensures Inv(Run(Init<K>(), ops))
  {
    if ops != [] {
      RunKeepsInv(ops[..|ops| - 1]);
      ExecKeepsInv(Run(Init<K>(), ops[..|ops| - 1]), ops[|ops| - 1]);
    }
  }

  /**
   * Single ownership: in every run no two wrappers share a target, a wrapper's target is alive
   * and its table is the one of that target's type, and nothing released is ever used.
   */
  lemma SingleOwner<K>(ops: seq<Op<K>>, v: K, w: K)
    requires var s := Run(Init<K>(), ops); v in s.wrappers && w in s.wrappers && s.wrappers[v].impl.Some?
    ensures var s := Run(Init<K>(), ops);
      && s.faults == 0
      && Usable(s, s.wrappers[v])
      && (v != w ==> s.wrappers[w].impl != s.wrappers[v].impl)
  {
    RunKeepsInv(ops);
  }

  /**
   * Every target created is released exactly once if no wrapper points at it any more, and not
   * at all while one does; its handler runs at most once, and only after the release.
   */
  lemma LifeOfEveryTarget<K>(ops: seq<Op<K>>, i: nat)
    requires i < |Run(Init<K>(), ops).types|
    ensures var s := Run(Init<K>(), ops);
      && Times(s.log, Created(i)) == 1
      && Times(s.log, Released(i)) <= 1
      && (Times(s.log, Released(i)) == 0 <==> exists w :: w in s.wrappers && PointsTo(s.wrappers, w, i))
      && Times(s.log, Invoked(i)) <= Times(s.log, Released(i))
      && ReleasedFirst(s.log)
  {
    RunKeepsInv(ops);
    assert LifeOk(Run(Init<K>(), ops).log, |Run(Init<K>(), ops).types|, Run(Init<K>(), ops).live, i);
  }

  /** When the last wrapper is gone nothing is left allocated. */
  lemma NothingLeaks<K>(ops: seq<Op<K>>)
    requires Run(Init<K>(), ops).wrappers == map[]
    ensures Run(Init<K>(), ops).live == {}
  {
    RunKeepsInv(ops);
    assert forall i :: i !in Run(Init<K>(), ops).live;
  }

  /** A wrapper is callable once: after a call it is empty, and calling it again only throws. */
  lemma CalledOnce<K>(ops: seq<Op<K>>, w: K)
    requires w in Run(Init<K>(), ops).wrappers
    ensures var s := Run(Init<K>(), ops);
      var s1 := Exec(s, Call(w)); var s2 := Exec(s1, Call(w));
      && s1.wrappers[w].impl == None
      && s2.badCalls == s1.badCalls + 1 && s2.log == s1.log
      && (s1.badCalls == s.badCalls <==> s.wrappers[w].impl.Some?)
      && (s.wrappers[w].impl.Some? ==>
            s1.log == s.log + [Released(s.wrappers[w].impl.value), Invoked(s.wrappers[w].impl.value)])
  {
    RunKeepsInv(ops);
  }

  /** No misuse goes unseen: releasing or calling what is not alive, or through a wrong table, is a fault. */
  lemma MisuseIsAFault<K>(s: State<K>, v: Wrapper)
    requires v.impl.Some?
    ensures Drop(s, v).faults == s.faults + (if Usable(s, v) then 0 else 1)
    ensures Invoke(s, v).faults == s.faults + (if Usable(s, v) then 0 else 1)
  {
  }

  // ----- the same machine as a map from wrappers to targets -----

  /** Who has which target, and which handlers have run: no tables, no storage, no temporaries. */
  datatype Owners<K> = Owners(owner: map<K, Option<nat>>, types: seq<nat>, invoked: seq<nat>, thrown: nat)

  function Give<K>(o: Owners<K>, w: K, target: Option<nat>): Owners<K> {
    o.(owner := o.owner[w := target])
  }

  /** What each operation is for. */
  function Intended<K>(o: Owners<K>, op: Op<K>): Owners<K> {
    match op
    case ConstructEmpty(w) => if w in o.owner then o else Give(o, w, None)
    case Construct(w, ty) =>
      if w in o.owner then o else Give(o, w, Some(|o.types|)).(types := o.types + [ty])
    case MoveConstruct(w, from) =>
      if w in o.owner || from !in o.owner then o else Give(Give(o, w, o.owner[from]), from, None)
    case MoveAssign(w, from) =>
      if w !in o.owner || from !in o.owner || w == from then o else Give(Give(o, w, o.owner[from]), from, None)
    case AssignNull(w) => if w in o.owner then Give(o, w, None) else o
    case Swap(w, other) =>
      if w in o.owner && other in o.owner then Give(Give(o, w, o.owner[other]), other, o.owner[w]) else o
    case Call(w) =>
      if w !in o.owner then o
      else if o.owner[w] == None then o.(thrown := o.thrown + 1)
      else Give(o, w, None).(invoked := o.invoked + [o.owner[w].value])
    case Destroy(w) => o.(owner := o.owner - {w})
  }

  function IntendedRun<K>(ops: seq<Op<K>>): Owners<K> {
    if ops == [] then Owners(map[], [], [], 0) else Intended(IntendedRun(ops[..|ops| - 1]), ops[|ops| - 1])
  }

  function InvokedOf(log: seq<Happening>): seq<nat> {
    if log == [] then []
    else
      var before, last := InvokedOf(log[..|log| - 1]), log[|log| - 1];
      if last.Invoked? then before + [last.impl] else before
  }

  function TargetsOf<K>(wrappers: map<K, Wrapper>): map<K, Option<nat>> {
    map w | w in wrappers :: wrappers[w].impl
  }

  function Abstract<K>(s: State<K>): Owners<K> {
    Owners(TargetsOf(s.wrappers), s.types, InvokedOf(s.log), s.badCalls)
  }

  lemma InvokedAppend(log: seq<Happening>, h: Happening)
    ensures InvokedOf(log + [h]) == if h.Invoked? then InvokedOf(log) + [h.impl] else InvokedOf(log)
  {
    assert (log + [h])[..|log|] == log;
  }

  lemma TargetsSet<K>(wrappers: map<K, Wrapper>, w: K, v: Wrapper)
    ensures TargetsOf(wrappers[w := v]) == TargetsOf(wrappers)[w := v.impl]
    ensures TargetsOf(wrappers - {w}) == TargetsOf(wrappers) - {w}
  {
  }

  /** Giving a target up releases it and changes nothing that a user sees. */
  lemma DropUnseen<K>(s: State<K>, v: Wrapper)
    requires v.impl.Some? ==> Usable(s, v)
    ensures Abstract(Drop(s, v)) == Abstract(s)
  {
    if v.impl.Some? {
      InvokedAppend(s.log, Released(v.impl.value));
    }
  }

  lemma AssignIntended<K>(s: State<K>, w: K, from: K)
    requires Inv(s) && w in s.wrappers && from in s.wrappers
    ensures Abstract(Assign(s, w, from)) == Intended(Abstract(s), MoveAssign(w, from))
  {
    if w == from {
      assert s.wrappers[w := EMPTY][w := s.wrappers[w]] == s.wrappers;
    } else {
      if s.wrappers[w].impl.Some? {
        TargetIsUsable(s, w);
      }
      hide Inv, TargetsOf, InvokedOf;
      var s' := Set(Set(s, from, EMPTY), w, s.wrappers[from]);
      TargetsSet(s.wrappers, from, EMPTY);
      TargetsSet(s.wrappers[from := EMPTY], w, s.wrappers[from]);
      TargetsAt(s.wrappers, from);
      DropUnseen(s', s.wrappers[w]);
      var owner := TargetsOf(s.wrappers);
      assert owner[from := None][w := owner[from]] == owner[w := owner[from]][from := None];
    }
  }

  lemma TargetsAt<K>(wrappers: map<K, Wrapper>, w: K)
    ensures w in TargetsOf(wrappers) <==> w in wrappers
    ensures w in wrappers ==> TargetsOf(wrappers)[w] == wrappers[w].impl
  {
  }

  lemma CallIntended<K>(s: State<K>, w: K)
    requires Inv(s) && w in s.wrappers && s.wrappers[w].impl.Some?
    ensures Abstract(Exec(s, Call(w))) == Intended(Abstract(s), Call(w))
  {
    TargetIsUsable(s, w);
    hide Inv, TargetsOf, InvokedOf;
    var n := s.wrappers[w].impl.value;
    TargetsAt(s.wrappers, w);
    TargetsSet(s.wrappers, w, s.wrappers[w].(impl := None));
    InvokedAppend(s.log, Released(n));
    InvokedAppend(s.log + [Released(n)], Invoked(n));
    assert s.log + [Released(n), Invoked(n)] == s.log + [Released(n)] + [Invoked(n)];
  }

  lemma ExecIntended<K>(s: State<K>, op: Op<K>)
    requires Inv(s)
    ensures Abstract(Exec(s, op)) == Intended(Abstract(s), op)
  {
    match op
    case ConstructEmpty(w) => TargetsSet(s.wrappers, w, EMPTY);
    case Construct(w, ty) =>
      TargetsSet(s.wrappers, w, Wrapper(Some(ty), Some(|s.types|)));
      InvokedAppend(s.log, Created(|s.types|));
    case MoveConstruct(w, from) =>
      if w !in s.wrappers && from in s.wrappers {
        TargetsSet(s.wrappers, w, s.wrappers[from]);
        TargetsSet(s.wrappers[w := s.wrappers[from]], from, EMPTY);
      }
    case MoveAssign(w, from) => if w in s.wrappers && from in s.wrappers { AssignIntended(s, w, from); }
    case AssignNull(w) =>
      if w in s.wrappers {
        if s.wrappers[w].impl.Some? { TargetIsUsable(s, w); }
        TargetsSet(s.wrappers, w, EMPTY);
        DropUnseen(Set(s, w, EMPTY), s.wrappers[w]);
      }
    case Swap(w, other) =>
      if w in s.wrappers && other in s.wrappers {
        TargetsSet(s.wrappers, w, s.wrappers[other]);
        TargetsSet(s.wrappers[w := s.wrappers[other]], other, s.wrappers[w]);
      }
    case Call(w) => if w in s.wrappers && s.wrappers[w].impl.Some? { CallIntended(s, w); }
    case Destroy(w) =>
      TargetsSet(s.wrappers, w, EMPTY);
      if w in s.wrappers {
        if s.wrappers[w].impl.Some? { TargetIsUsable(s, w); }
        DropUnseen(s.(wrappers := s.wrappers - {w}), s.wrappers[w]);
      } else {
        assert TargetsOf(s.wrappers) - {w} == TargetsOf(s.wrappers);
      }
  }

  /**
   * Whatever constructions, moves, swaps, assignments, calls and destructions a program makes,
   * with all their temporaries, every wrapper ends up with the target, and the handlers have run
   * in the order, that the operations are meant to bring about.
   */
  lemma {:induction false} RunIsAsIntended<K>(ops: seq<Op<K>>)
    ensures Abstract(Run(Init<K>(), ops)) == IntendedRun(ops)
  {
    if ops != [] {
      RunIsAsIntended(ops[..|ops| - 1]);
      RunKeepsInv(ops[..|ops| - 1]);
      hide Exec, Inv, Abstract;
      ExecIntended(Run(Init<K>(), ops[..|ops| - 1]), ops[|ops| - 1]);
    }
  }

  // ----- the wrapper objects -----

  class AnyCompletionHandler {
    var fnTable: Option<nat>
    var impl: Option<nat>

    ghost function View(): Wrapper
      reads this
    {
      Wrapper(fnTable, impl)
    }

    constructor ()
      ensures View() == EMPTY
    {
      fnTable, impl := None, None;
    }

    /** std::swap on both members; `other` may be the same object. */
    method SwapWith(other: AnyCompletionHandler)
      modifies this, other
      ensures View() == old(other.View()) && other.View() == old(View())
    {
      var table := fnTable;
      fnTable := other.fnTable;
      other.fnTable := table;
      var target := impl;
      impl := other.impl;
      other.impl := target;
    }

    /** The move constructor. */
    constructor MoveFrom(other: AnyCompletionHandler)
      modifies other
      ensures View() == old(other.View()) && other.View() == EMPTY
    {
      fnTable, impl := other.fnTable, other.impl;
      new;
      other.fnTable := None;
      other.impl := None;
    }

    /** operator=: a temporary takes over the source and swaps; what it ends up with is to be destroyed. */
    method MoveAssignFrom(other: AnyCompletionHandler) returns (dropped: Option<nat>)
      modifies this, other
      ensures dropped == if other == this then None else old(View()).impl
      ensures View() == old(other.View()) && (other != this ==> other.View() == EMPTY)
    {
      var temporary := new AnyCompletionHandler.MoveFrom(other);
      temporary.SwapWith(this);
      return temporary.impl;
    }

    /** operator=(nullptr_t): an empty temporary is swapped with this. */
    method AssignNull() returns (dropped: Option<nat>)
      modifies this
      ensures dropped == old(View()).impl && View() == EMPTY
    {
      var temporary := new AnyCompletionHandler();
      temporary.SwapWith(this);
      return temporary.impl;
    }
  }

  /** The storage that the targets live in, with the wrappers in use. */
  class Storage {
    var types: seq<nat>
    var live: set<nat>
    ghost var model: State<AnyCompletionHandler>

    /** The objects are in the state that the model describes. */
    ghost predicate Valid()
      reads this, model.wrappers.Keys
    {
      && Inv(model)
      && types == model.types && live == model.live
      && forall w :: w in model.wrappers ==> w.View() == model.wrappers[w]
    }

    constructor ()
      ensures Valid() && model == Init()
    {
      types, live, model := [], {}, Init();
    }

    method ConstructHandler(handlerType: nat) returns (w: AnyCompletionHandler)
      requires Valid()
      modifies this
      ensures Valid() && fresh(w) && model == Exec(old(model), Construct(w, handlerType))
    {
      w := new AnyCompletionHandler();
      ExecKeepsInv(model, Construct(w, handlerType));
      w.fnTable, w.impl := Some(handlerType), Some(|types|);
      live := live + {|types|};
      types := types + [handlerType];
      model := Exec(model, Construct(w, handlerType));
    }

    /** destroy: an impl that a wrapper points at is alive, so this releases it exactly once. */
    method DestroyImpl(target: Option<nat>)
      requires target.Some? ==> target.value in live
      modifies `live
      ensures live == if target.Some? then old(live) - {target.value} else old(live)
    {
      if target.Some? {
        live := live - {target.value};
      }
    }

    /** operator=, and the destruction of the temporary it made. */
    method MoveAssignTo(w: AnyCompletionHandler, from: AnyCompletionHandler)
      requires Valid() && w in model.wrappers && from in model.wrappers
      modifies this, w, from
      ensures Valid() && model == Exec(old(model), MoveAssign(w, from))
    {
      AssignEffect(model, w, from);
      hide Inv, Exec, AnyCompletionHandler.View;
      var dropped := w.MoveAssignFrom(from);
      DestroyImpl(dropped);
      model := Exec(model, MoveAssign(w, from));
    }

    method AssignNullTo(w: AnyCompletionHandler)
      requires Valid() && w in model.wrappers
      modifies this, w
      ensures Valid() && model == Exec(old(model), AssignNull(w))
    {
      ExecKeepsInv(model, AssignNull(w));
      AssignNullEffect(model, w);
      hide Inv, Exec, AnyCompletionHandler.View;
      var dropped := w.AssignNull();
      DestroyImpl(dropped);
      model := Exec(model, AssignNull(w));
    }

    method SwapBoth(w: AnyCompletionHandler, other: AnyCompletionHandler)
      requires Valid() && w in model.wrappers && other in model.wrappers
      modifies this, w, other
      ensures Valid() && model == Exec(old(model), Swap(w, other))
    {
      ExecKeepsInv(model, Swap(w, other));
      hide Inv, AnyCompletionHandler.View;
      w.SwapWith(other);
      model := Exec(model, Swap(w, other));
    }

    /** operator(): the pointer is cleared first; `invoked` is the impl whose handler runs, if any. */
    method CallHandler(w: AnyCompletionHandler) returns (invoked: Option<nat>)
      requires Valid() && w in model.wrappers
      modifies this, w
      ensures Valid() && model == Exec(old(model), Call(w))
      ensures invoked == old(w.impl) && w.impl == None
    {
      ExecKeepsInv(model, Call(w));
      invoked := w.impl;
      if invoked.Some? {
        w.impl := None;
        DestroyImpl(invoked);
      }
      model := Exec(model, Call(w));
    }

    method DestroyHandler(w: AnyCompletionHandler)
      requires Valid() && w in model.wrappers
      modifies this
      ensures Valid() && model == Exec(old(model), Destroy(w))
    {
      ExecKeepsInv(model, Destroy(w));
      DestroyImpl(w.impl);
      model := Exec(model, Destroy(w));
    }
  }
}
