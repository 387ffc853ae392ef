/**
 * Callbacks of coroutine/task/task.h that throw. The list is gone through with the mutex held, so
 * one thread is enough here. An exception that leaves a callback leaves notifyCallbacks, too:
 * the rest of the list is skipped and the list is not cleared. Out of return_value it is caught by
 * the coroutine itself, which completes a second time, with the exception, from the beginning of
 * the list; out of unhandled_exception it reaches whoever resumed the coroutine.
 */
module TaskCallbacks {
  import opened TaskPromise

  /** A registered callback: its wrapper, and what the user's function throws when it is called. */
  datatype Callback = Callback(kind: Kind, throws: Option<nat>)

  /** One pass over the list: how many callbacks were called, and the exception that ended it. */
  datatype Pass = Pass(calls: nat, escaped: Option<nat>)

  /** What a completion has done: the calls of its passes, the result, the list, the exception let out. */
  datatype Outcome<T> = Outcome(first: nat, second: nat, result: Result<T>, pending: seq<Callback>, out: Option<nat>)

  /** Lines 79-100: `catching` handles std::exception only; other exceptions and new ones leave the wrapper. */
  function Escape<T>(cb: Callback, r: Result<T>, standard: nat -> bool): Option<nat> {
    match cb.kind
    case Finally => cb.throws
    case Catching =>
      if r.Returned? then None
      else if standard(r.error) then cb.throws
      else Some(r.error)
  }

  /**
   * What leaves a wrapper: whatever the user's function throws, if it is called, and the
   * coroutine's own exception exactly when `catching` was to handle it and is not able to.
   */
  lemma WhatEscapes<T>(throws: Option<nat>, r: Result<T>, standard: nat -> bool)
    ensures Escape(Callback(Finally, throws), r, standard) == throws
    ensures r.Returned? ==> Escape(Callback(Catching, throws), r, standard) == None
    ensures r.Raised? && standard(r.error) ==> Escape(Callback(Catching, throws), r, standard) == throws
    ensures r.Raised? && !standard(r.error) ==> Escape(Callback(Catching, throws), r, standard) == Some(r.error)
  {
  }

  /** notifyCallbacks, lines 200-208, from the first callback on. */
  function PassOver<T>(cbs: seq<Callback>, r: Result<T>, standard: nat -> bool): (p: Pass)
    ensures p.calls <= |cbs| && (p.escaped.Some? ==> p.calls > 0)
  {
    if cbs == [] then Pass(0, None)
    else
      var e := Escape(cbs[0], r, standard);
      if e.Some? then Pass(1, e)
      else var p := PassOver(cbs[1..], r, standard); p.(calls := 1 + p.calls)
  }

  /** A completion by co_return or by an exception of the coroutine's body. */
  function CompletionOf<T>(cbs: seq<Callback>, r: Result<T>, standard: nat -> bool): Outcome<T> {
    var p := PassOver(cbs, r, standard);
    if p.escaped == None then Outcome(p.calls, 0, r, [], None)
    else if r.Raised? then Outcome(p.calls, 0, r, cbs, p.escaped)
    else
      var again := Result<T>.Raised(p.escaped.value);
      var q := PassOver(cbs, again, standard);
      Outcome(p.calls, q.calls, again, if q.escaped == None then [] else cbs, q.escaped)
  }

  /** How often the i-th callback is called. */
  function Calls<T>(o: Outcome<T>, i: nat): nat {
    (if i < o.first then 1 else 0) + (if i < o.second then 1 else 0)
  }

  /** A pass ends at the first callback that lets an exception out, and at the end of the list if none does. */
  lemma {:induction false} PassEnds<T>(cbs: seq<Callback>, r: Result<T>, standard: nat -> bool)
    ensures var p := PassOver(cbs, r, standard);
      && (forall i :: 0 <= i < |cbs| && i + 1 < p.calls ==> Escape(cbs[i], r, standard) == None)
      && (p.escaped == None ==> p.calls == |cbs| && forall i :: 0 <= i < |cbs| ==> Escape(cbs[i], r, standard) == None)
      && (p.escaped.Some? ==> p.escaped == Escape(cbs[p.calls - 1], r, standard))
  {
    if cbs != [] && Escape(cbs[0], r, standard) == None {
      PassEnds(cbs[1..], r, standard);
      var p := PassOver(cbs[1..], r, standard);
      forall i | 0 <= i < |cbs| && (i + 1 < 1 + p.calls || p.escaped == None)
        ensures Escape(cbs[i], r, standard) == None
      {
        assert i > 0 ==> cbs[i] == cbs[1..][i - 1];
      }
    }
  }

  /** No callback lets an exception out, except perhaps the last one when the coroutine itself failed. */
  ghost predicate Behaved<T>(cbs: seq<Callback>, r: Result<T>, standard: nat -> bool) {
    forall i :: 0 <= i < (if r.Raised? then |cbs| - 1 else |cbs|) ==> Escape(cbs[i], r, standard) == None
  }

  /**
   * Exactly when every callback on the list is called exactly once: if and only if none lets an
   * exception out. Only when the coroutine itself failed may the last one do so.
   */
  lemma ExactlyOnceIff<T>(cbs: seq<Callback>, r: Result<T>, standard: nat -> bool)
    ensures (forall i :: 0 <= i < |cbs| ==> Calls(CompletionOf(cbs, r, standard), i) == 1) <==> Behaved(cbs, r, standard)
  {
    var p := PassOver(cbs, r, standard);
    var o := CompletionOf(cbs, r, standard);
    PassEnds(cbs, r, standard);
    if p.escaped.Some? && r.Returned? {
      assert Calls(o, 0) == 2 by { assert PassOver(cbs, o.result, standard).calls > 0; }
      assert Escape(cbs[p.calls - 1], r, standard) != None;
    } else if p.escaped.Some? {
      assert Escape(cbs[p.calls - 1], r, standard) != None;
      if p.calls < |cbs| {
        assert Calls(o, p.calls) == 0;
      }
    }
  }

  /** The list is cleared, and the exception kept inside, exactly when the last pass lets none out. */
  lemma ClearedIff<T>(cbs: seq<Callback>, r: Result<T>, standard: nat -> bool)
    ensures var o := CompletionOf(cbs, r, standard);
      && (o.out == None <==> forall i :: 0 <= i < |cbs| ==> Escape(cbs[i], o.result, standard) == None)
      && (o.out == None ==> o.pending == []) && (o.out.Some? ==> o.pending == cbs)
  {
    var o := CompletionOf(cbs, r, standard);
    PassEnds(cbs, r, standard);
    PassEnds(cbs, o.result, standard);
    var last := PassOver(cbs, o.result, standard);
    if o.out.Some? {
      assert Escape(cbs[last.calls - 1], o.result, standard) != None;
    }
  }

  /** A value is replaced by an exception exactly when some callback lets one out on being given the value. */
  lemma ValueKeptIff<T>(cbs: seq<Callback>, v: T, standard: nat -> bool)
    ensures CompletionOf(cbs, Returned(v), standard).result.Returned?
      <==> forall i :: 0 <= i < |cbs| ==> Escape(cbs[i], Result<T>.Returned(v), standard) == None
  {
    PassEnds(cbs, Result<T>.Returned(v), standard);
    var p := PassOver(cbs, Result<T>.Returned(v), standard);
    if p.escaped.Some? {
      assert Escape(cbs[p.calls - 1], Result<T>.Returned(v), standard) != None;
    }
  }

  /** The smallest failure: `finally` with a function that throws is called a second time by its own exception. */
  lemma ThrowingFinallyRunsTwice<T>(v: T, e: nat, standard: nat -> bool)
    ensures var o := CompletionOf([Callback(Finally, Some(e))], Returned(v), standard);
      Calls(o, 0) == 2 && o.result == Raised(e) && o.out == Some(e) && o.pending == [Callback(Finally, Some(e))]
  {
  }

  // ----- the promise while the mutex is held -----

  class CompletionCore<T> {
    var result: Option<Result<T>>
    var completionCallbacks: seq<Callback>
    ghost var calls: seq<(nat, Result<T>)>      // which callback was called, with what

    constructor (callbacks: seq<Callback>)
      ensures result == None && completionCallbacks == callbacks && calls == []
    {
      result, completionCallbacks, calls := None, callbacks, [];
    }

    /** The calls of one pass, in order. */
    static ghost function CallsOf(n: nat, r: Result<T>): seq<(nat, Result<T>)> {
      seq(n, i => (i, r))
    }

    /** The lambdas of lines 81-92 and 98: valueOrException, and a handler for std::exception around it. */
    method CallWrapper(cb: Callback, r: Result<T>, standard: nat -> bool) returns (escaped: Option<nat>)
      ensures escaped == Escape(cb, r, standard)
    {
      if cb.kind == Finally {
        return cb.throws;
      }
      var thrown := if r.Raised? then Some(r.error) else None;
      if thrown.Some? && standard(thrown.value) {
        return cb.throws;
      }
      return thrown;
    }

    /** The loop of notifyCallbacks; `escaped` is the exception that leaves it. */
    method NotifyCallbacks(standard: nat -> bool) returns (escaped: Option<nat>)
      requires result.Some?
      modifies `completionCallbacks, `calls
      ensures var p := PassOver(old(completionCallbacks), result.value, standard);
        && escaped == p.escaped
        && calls == old(calls) + CallsOf(p.calls, result.value)
        && completionCallbacks == if escaped == None then [] else old(completionCallbacks)
    {
      var value := result.value;
      ghost var whole := PassOver(completionCallbacks, value, standard);
      for i := 0 to |completionCallbacks|
        invariant completionCallbacks == old(completionCallbacks)
        invariant calls == old(calls) + CallsOf(i, value)
        invariant var p := PassOver(completionCallbacks[i..], value, standard);
          whole == p.(calls := i + p.calls)
      {
        assert completionCallbacks[i..][1..] == completionCallbacks[i + 1..];
        calls := calls + [(i, value)];
        assert CallsOf(i + 1, value) == CallsOf(i, value) + [(i, value)];
        escaped := CallWrapper(completionCallbacks[i], value, standard);
        if escaped.Some? {
          return;
        }
      }
      completionCallbacks := [];
      escaped := None;
    }

    /** return_value, lines 158-164. */
    method ReturnValue(value: T, standard: nat -> bool) returns (escaped: Option<nat>)
      modifies this
      ensures var p := PassOver(old(completionCallbacks), Result<T>.Returned(value), standard);
        && escaped == p.escaped && result == Some(Returned(value))
        && calls == old(calls) + CallsOf(p.calls, Returned(value))
        && completionCallbacks == if escaped == None then [] else old(completionCallbacks)
    {
      result := Some(Returned(value));
      escaped := NotifyCallbacks(standard);
    }

    /** unhandled_exception, lines 166-172. */
    method UnhandledException(error: nat, standard: nat -> bool) returns (escaped: Option<nat>)
      modifies this
      ensures var p := PassOver(old(completionCallbacks), Result<T>.Raised(error), standard);
        && escaped == p.escaped && result == Some(Raised(error))
        && calls == old(calls) + CallsOf(p.calls, Raised(error))
        && completionCallbacks == if escaped == None then [] else old(completionCallbacks)
    {
      result := Some(Raised(error));
      escaped := NotifyCallbacks(standard);
    }

    /** The end of the coroutine's body: what leaves return_value goes to unhandled_exception. */
    method FinishBody(r: Result<T>, standard: nat -> bool) returns (out: Option<nat>)
      modifies this
      ensures var o := CompletionOf(old(completionCallbacks), r, standard);
        && out == o.out && result == Some(o.result) && completionCallbacks == o.pending
        && calls == old(calls) + CallsOf(o.first, r) + CallsOf(o.second, o.result)
    {
      match r
      case Returned(value) =>
        out := ReturnValue(value, standard);
        if out.Some? {
          out := UnhandledException(out.value, standard);
        } else {
          assert CallsOf(0, r) == [];
        }
      case Raised(error) =>
        out := UnhandledException(error, standard);
        assert CallsOf(0, r) == [];
    }
  }
}
