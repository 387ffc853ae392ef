/**
 * TaskPromise of coroutine/task/task.h: one completion, any number of threads that register
 * callbacks, and any number that wait for the result, all under one mutex but step by step.
 */
module TaskPromise {
  import opened Counting

  datatype Option<T> = None | Some(value: T)

  /** Result<T>: a value or an exception. */
  datatype Result<T> = Returned(value: T) | Raised(error: nat)

  /** What a registered callback does with the result: Task::catching and Task::finally. */
  datatype Kind = Catching | Finally

  predicate Fires<T>(kind: Kind, r: Result<T>) {
    kind == Finally || r.Raised?
  }

  datatype Owner = Free | ByCompleter | ByThread(tid: nat)

  /** return_value and unhandled_exception, which the coroutine body runs once. */
  datatype Completer<T> =
    | Running | Locking(r: Result<T>) | Setting(r: Result<T>) | NotifyingAll | Calling(next: nat) | Clearing | Unlocking
    | Finished

  datatype Pc<T> =
    | Idle
    | RegLock(id: nat) | RegTest(id: nat) | RegPush(id: nat) | RegUnlock
    | RegRelease(id: nat, copy: Result<T>) | RegCall(id: nat, copy: Result<T>)
    | GetLock | GetTest | GetAsleep | GetRelock(spurious: bool) | GetRead(spurious: bool) | GetUnlock

  datatype Shared<T> = Shared(
    result: Option<Result<T>>,
    lock: Owner,
    pending: seq<nat>,                  // completion_callbacks_
    completer: Completer<T>,
    kinds: seq<Kind>,                   // of every callback whose registration has begun
    early: seq<nat>,                    // callbacks put on the list, in order
    ran: seq<(nat, Result<T>)>,         // callbacks run, with what they were given
    readings: seq<(nat, Option<Result<T>>)>)   // what each getResult call has read

  datatype State<T> = State(sh: Shared<T>, pc: map<nat, Pc<T>>)

  datatype Event<T> =
    | Complete(r: Result<T>)
    | CompleterGo
    | Register(tid: nat, kind: Kind)
    | GetResult(tid: nat)
    | Go(tid: nat)
    | WakeSpuriously(tid: nat)

  function Init<T>(threads: set<nat>): State<T> {
    State(Shared(None, Free, [], Running, [], [], [], []), map t | t in threads :: Idle)
  }

  function RunCallback<T>(sh: Shared<T>, id: nat, r: Result<T>): Shared<T> {
    sh.(ran := sh.ran + [(id, r)])
  }

  /** Lines 158-172 and 200-208. */
  function CompleterStep<T>(sh: Shared<T>): Shared<T> {
    match sh.completer
    case Running => sh
    case Locking(r) => if sh.lock == Free then sh.(lock := ByCompleter, completer := Setting(r)) else sh
    case Setting(r) => sh.(result := Some(r), completer := NotifyingAll)
    case NotifyingAll => sh.(completer := Calling(0))
    case Calling(k) =>
      if k < |sh.pending| && sh.result.Some?
      then RunCallback(sh, sh.pending[k], sh.result.value).(completer := Calling(k + 1))
      else sh.(completer := Clearing)
    case Clearing => sh.(pending := [], completer := Unlocking)
    case Unlocking => sh.(lock := Free, completer := Finished)
    case Finished => sh
  }

  /** onCompleted, lines 184-197. */
  function RegisterStep<T>(sh: Shared<T>, t: nat, pc: Pc<T>): (Shared<T>, Pc<T>) {
    match pc
    case RegLock(id) => if sh.lock == Free then (sh.(lock := ByThread(t)), RegTest(id)) else (sh, pc)
    case RegTest(id) => (sh, if sh.result.Some? then RegRelease(id, sh.result.value) else RegPush(id))
    case RegPush(id) => (sh.(pending := sh.pending + [id], early := sh.early + [id]), RegUnlock)
    case RegUnlock => (sh.(lock := Free), Idle)
    case RegRelease(id, r) => (sh.(lock := Free), RegCall(id, r))
    case RegCall(id, r) => (RunCallback(sh, id, r), Idle)
    case _ => (sh, pc)
  }

  /** getResult, lines 174-182: the wait is not in a loop. */
  function GetStep<T>(sh: Shared<T>, t: nat, pc: Pc<T>): (Shared<T>, Pc<T>) {
    match pc
    case GetLock => if sh.lock == Free then (sh.(lock := ByThread(t)), GetTest) else (sh, pc)
    case GetTest => if sh.result.Some? then (sh, GetRead(false)) else (sh.(lock := Free), GetAsleep)
    case GetRelock(b) => if sh.lock == Free then (sh.(lock := ByThread(t)), GetRead(b)) else (sh, pc)
    case GetRead(_) => (sh.(readings := sh.readings + [(t, sh.result)]), GetUnlock)
    case GetUnlock => (sh.(lock := Free), Idle)
    case _ => (sh, pc)
  }

  predicate Registering<T>(pc: Pc<T>) {
    pc.RegLock? || pc.RegTest? || pc.RegPush? || pc.RegUnlock? || pc.RegRelease? || pc.RegCall?
  }

  function ThreadStep<T>(sh: Shared<T>, t: nat, pc: Pc<T>): (Shared<T>, Pc<T>) {
    if Registering(pc) then RegisterStep(sh, t, pc) else GetStep(sh, t, pc)
  }

  function Wake<T>(pc: Pc<T>): Pc<T> {
    if pc.GetAsleep? then GetRelock(false) else pc
  }

  function WakeAll<T>(pc: map<nat, Pc<T>>): map<nat, Pc<T>> {
    map t | t in pc :: Wake(pc[t])
  }

  function Exec<T>(s: State<T>, e: Event<T>): State<T> {
    match e
    case Complete(r) => if s.sh.completer.Running? then s.(sh := s.sh.(completer := Locking(r))) else s
    case CompleterGo =>
      State(CompleterStep(s.sh), if s.sh.completer.NotifyingAll? then WakeAll(s.pc) else s.pc)
    case Register(t, kind) =>
      if t in s.pc && s.pc[t].Idle?
      then State(s.sh.(kinds := s.sh.kinds + [kind]), s.pc[t := RegLock(|s.sh.kinds|)]) else s
    case GetResult(t) => if t in s.pc && s.pc[t].Idle? then s.(pc := s.pc[t := GetLock]) else s
    case Go(t) =>
      if t in s.pc then var (sh, pc) := ThreadStep(s.sh, t, s.pc[t]); State(sh, s.pc[t := pc]) else s
    case WakeSpuriously(t) =>
      if t in s.pc && s.pc[t].GetAsleep? then s.(pc := s.pc[t := GetRelock(true)]) else s
  }

  function Run<T>(s: State<T>, es: seq<Event<T>>): State<T> {
    if es == [] then s else Exec(Run(s, es[..|es| - 1]), es[|es| - 1])
  }

  // ----- the invariant -----

  predicate HasLock<T>(pc: Pc<T>) {
    || pc.RegTest? || pc.RegPush? || pc.RegUnlock? || pc.RegRelease?
    || pc.GetTest? || pc.GetRead? || pc.GetUnlock?
  }

  predicate CompleterHasLock<T>(c: Completer<T>) {
    c.Setting? || c.NotifyingAll? || c.Calling? || c.Clearing? || c.Unlocking?
  }

  predicate Before<T>(c: Completer<T>) {
    c.Running? || c.Locking? || c.Setting?
  }

  /** How many of the early callbacks have been run. */
  function EarlyDone<T>(sh: Shared<T>): nat {
    if Before(sh.completer) || sh.completer.NotifyingAll? then 0
    else if sh.completer.Calling? then sh.completer.next
    else |sh.early|
  }

  function Ids<T>(ran: seq<(nat, Result<T>)>): seq<nat> {
    if ran == [] then [] else Ids(ran[..|ran| - 1]) + [ran[|ran| - 1].0]
  }

  ghost predicate SharedOk<T>(sh: Shared<T>) {
    && (CompleterHasLock(sh.completer) <==> sh.lock == ByCompleter)
    && (sh.result == None <==> Before(sh.completer))
    && sh.pending == (if sh.completer.Unlocking? || sh.completer.Finished? then [] else sh.early)
    && EarlyDone(sh) <= |sh.early|
    && EarlyDone(sh) <= |Ids(sh.ran)| && Ids(sh.ran)[..EarlyDone(sh)] == sh.early[..EarlyDone(sh)]
    && (!sh.completer.Finished? ==> |Ids(sh.ran)| == EarlyDone(sh))
    && (forall i :: 0 <= i < |sh.ran| ==> Some(sh.ran[i].1) == sh.result)
  }

  ghost predicate LocalOk<T>(sh: Shared<T>, t: nat, pc: Pc<T>) {
    && (HasLock(pc) <==> sh.lock == ByThread(t))
    && (pc.RegPush? ==> sh.result == None)
    && (pc.RegRelease? || pc.RegCall? ==> sh.result == Some(pc.copy) && sh.completer.Finished?)
    && (pc.GetAsleep? ==> sh.result == None || sh.completer.NotifyingAll?)
    && ((pc.GetRelock? || pc.GetRead?) && !pc.spurious ==> sh.result.Some?)
  }

  predicate Carries<T>(pc: Pc<T>, id: nat) {
    (pc.RegLock? || pc.RegTest? || pc.RegPush? || pc.RegRelease? || pc.RegCall?) && pc.id == id
  }

  function Times(s: seq<nat>, x: nat): nat {
    if s == [] then 0 else Times(s[..|s| - 1], x) + if s[|s| - 1] == x then 1 else 0
  }

  /** Callbacks on the list whose turn has not come. */
  function Waiting<T>(sh: Shared<T>): seq<nat>
    requires EarlyDone(sh) <= |sh.early|
  {
    sh.early[EarlyDone(sh)..]
  }

  /** Every callback is in exactly one place: with its registrar, on the list, or run. */
  ghost predicate Accounted<T>(s: State<T>, id: nat)
    requires EarlyDone(s.sh) <= |s.sh.early|
  {
    Settled(s.sh, id) + Count(s.pc, Carrier(id)) == if id < |s.sh.kinds| then 1 else 0
  }

  function Carrier<T>(id: nat): Pc<T> -> bool {
    pc => Carries(pc, id)
  }

  function Settled<T>(sh: Shared<T>, id: nat): nat
    requires EarlyDone(sh) <= |sh.early|
  {
    Times(Ids(sh.ran), id) + Times(Waiting(sh), id)
  }

  ghost predicate Inv<T>(s: State<T>) {
    && SharedOk(s.sh)
    && (forall t :: t in s.pc ==> LocalOk(s.sh, t, s.pc[t]))
    && (forall id :: Accounted(s, id))
  }

  lemma TimesAppend(s: seq<nat>, x: nat, y: nat)
    ensures Times(s + [x], y) == Times(s, y) + if x == y then 1 else 0
  {
    assert (s + [x])[..|s|] == s;
  }

  lemma {:induction false} TimesConcat(a: seq<nat>, b: seq<nat>, y: nat)
    ensures Times(a + b, y) == Times(a, y) + Times(b, y)
  {
    if b == [] {
      assert a + b == a;
    } else {
      TimesConcat(a, b[..|b| - 1], y);
      assert (a + b)[..|a + b| - 1] == a + b[..|b| - 1];
    }
  }

  lemma IdsAppend<T>(ran: seq<(nat, Result<T>)>, id: nat, r: Result<T>)
    ensures Ids(ran + [(id, r)]) == Ids(ran) + [id]
  {
    assert (ran + [(id, r)])[..|ran|] == ran;
  }

  /** One turn of the loop in notifyCallbacks. */
  predicate InLoop<T>(sh: Shared<T>) {
    sh.completer.Calling? && sh.completer.next < |sh.pending| && sh.result.Some?
  }

  lemma LoopKeepsShared<T>(sh: Shared<T>)
    requires SharedOk(sh) && InLoop(sh)
    ensures SharedOk(CompleterStep(sh)) && Ids(CompleterStep(sh).ran) == Ids(sh.ran) + [sh.pending[sh.completer.next]]
  {
    IdsAppend(sh.ran, sh.pending[sh.completer.next], sh.result.value);
  }

  lemma CompleterKeepsShared<T>(sh: Shared<T>)
    requires SharedOk(sh)
    ensures SharedOk(CompleterStep(sh))
  {
    if InLoop(sh) {
      LoopKeepsShared(sh);
    } else {
      assert CompleterStep(sh).ran == sh.ran;
    }
  }

  lemma RegisterKeepsShared<T>(sh: Shared<T>, t: nat, pc: Pc<T>)
    requires SharedOk(sh) && LocalOk(sh, t, pc)
    ensures var (sh', pc') := RegisterStep(sh, t, pc); SharedOk(sh') && LocalOk(sh', t, pc')
  {
    if pc.RegCall? {
      IdsAppend(sh.ran, pc.id, pc.copy);
    }
  }

  lemma GetKeepsShared<T>(sh: Shared<T>, t: nat, pc: Pc<T>)
    requires SharedOk(sh) && LocalOk(sh, t, pc)
    ensures var (sh', pc') := GetStep(sh, t, pc); SharedOk(sh') && LocalOk(sh', t, pc')
  {
  }

  lemma ThreadKeepsOther<T>(sh: Shared<T>, t: nat, pc: Pc<T>, u: nat, other: Pc<T>)
    requires LocalOk(sh, t, pc) && LocalOk(sh, u, other) && t != u
    ensures LocalOk(ThreadStep(sh, t, pc).0, u, other)
  {
  }

  lemma CompleterKeepsLocal<T>(sh: Shared<T>, u: nat, other: Pc<T>)
    requires SharedOk(sh) && LocalOk(sh, u, other)
    ensures LocalOk(CompleterStep(sh), u, if sh.completer.NotifyingAll? then Wake(other) else other)
  {
  }

  lemma ThreadKeepsShared<T>(sh: Shared<T>, t: nat, pc: Pc<T>)
    requires SharedOk(sh) && LocalOk(sh, t, pc)
    ensures var (sh', pc') := ThreadStep(sh, t, pc); SharedOk(sh') && LocalOk(sh', t, pc')
  {
    if Registering(pc) {
      RegisterKeepsShared(sh, t, pc);
    } else {
      GetKeepsShared(sh, t, pc);
    }
  }

  lemma PushAccounts<T>(sh: Shared<T>, t: nat, cb: nat, id: nat)
    requires SharedOk(sh) && LocalOk(sh, t, RegPush(cb))
    ensures var sh' := RegisterStep(sh, t, RegPush(cb)).0;
      EarlyDone(sh') <= |sh'.early| && Settled(sh', id) == Settled(sh, id) + if cb == id then 1 else 0
  {
    hide Times, Ids;
    var sh' := RegisterStep(sh, t, RegPush(cb)).0;
    assert Waiting(sh') == Waiting(sh) + [cb];
    TimesAppend(Waiting(sh), cb, id);
  }

  lemma CallAccounts<T>(sh: Shared<T>, t: nat, cb: nat, r: Result<T>, id: nat)
    requires EarlyDone(sh) <= |sh.early|
    ensures var sh' := RegisterStep(sh, t, RegCall(cb, r)).0;
      EarlyDone(sh') <= |sh'.early| && Settled(sh', id) == Settled(sh, id) + if cb == id then 1 else 0
  {
    hide Times, Ids;
    IdsAppend(sh.ran, cb, r);
    TimesAppend(Ids(sh.ran), cb, id);
  }

  predicate Settles<T>(pc: Pc<T>) {
    pc.RegPush? || pc.RegCall?
  }

  lemma OthersSettleNothing<T>(sh: Shared<T>, t: nat, pc: Pc<T>, id: nat)
    requires !Settles(pc)
    ensures var (sh', pc') := ThreadStep(sh, t, pc);
      && sh'.early == sh.early && sh'.ran == sh.ran && sh'.completer == sh.completer
      && (Carries(pc', id) <==> Carries(pc, id))
  {
  }

  lemma SameSettled<T>(sh: Shared<T>, sh': Shared<T>, id: nat)
    requires sh'.early == sh.early && sh'.ran == sh.ran && sh'.completer == sh.completer
    requires EarlyDone(sh) <= |sh.early|
    ensures EarlyDone(sh') <= |sh'.early| && Settled(sh', id) == Settled(sh, id)
  {
  }

  lemma SettlersLetGo<T>(sh: Shared<T>, t: nat, pc: Pc<T>, id: nat)
    requires Settles(pc)
    ensures ThreadStep(sh, t, pc) == RegisterStep(sh, t, pc)
    ensures !Carries(ThreadStep(sh, t, pc).1, id) && (Carries(pc, id) <==> pc.id == id)
  {
  }

  lemma ThreadKeepsKinds<T>(sh: Shared<T>, t: nat, pc: Pc<T>)
    ensures ThreadStep(sh, t, pc).0.kinds == sh.kinds
  {
  }

  /** What a registrar lets go of goes to the list or is run, and nothing else moves. */
  lemma ThreadAccounts<T>(sh: Shared<T>, t: nat, pc: Pc<T>, id: nat)
    requires SharedOk(sh) && LocalOk(sh, t, pc) && SharedOk(ThreadStep(sh, t, pc).0)
    ensures var (sh', pc') := ThreadStep(sh, t, pc);
      && sh'.kinds == sh.kinds
      && Settled(sh', id) + (if Carries(pc', id) then 1 else 0) == Settled(sh, id) + (if Carries(pc, id) then 1 else 0)
  {
    ThreadKeepsKinds(sh, t, pc);
    hide ThreadStep, RegisterStep, LocalOk, Settled, Carries;
    if Settles(pc) {
      SettlersLetGo(sh, t, pc, id);
      if pc.RegPush? {
        PushAccounts(sh, t, pc.id, id);
      } else {
        CallAccounts(sh, t, pc.id, pc.copy, id);
      }
    } else {
      OthersSettleNothing(sh, t, pc, id);
      SameSettled(sh, ThreadStep(sh, t, pc).0, id);
    }
  }

  lemma CompleterAccounts<T>(sh: Shared<T>, id: nat)
    requires SharedOk(sh) && SharedOk(CompleterStep(sh))
    ensures CompleterStep(sh).kinds == sh.kinds && Settled(CompleterStep(sh), id) == Settled(sh, id)
  {
    if InLoop(sh) {
      LoopAccounts(sh, id);
    } else {
      assert CompleterStep(sh).ran == sh.ran && Waiting(CompleterStep(sh)) == Waiting(sh);
    }
  }

  lemma LoopAccounts<T>(sh: Shared<T>, id: nat)
    requires SharedOk(sh) && InLoop(sh) && SharedOk(CompleterStep(sh))
    ensures Settled(CompleterStep(sh), id) == Settled(sh, id)
  {
    var next := sh.pending[sh.completer.next];
    LoopKeepsShared(sh);
    assert Waiting(sh) == [next] + Waiting(CompleterStep(sh));
    TimesFront(next, Waiting(CompleterStep(sh)), id);
    TimesAppend(Ids(sh.ran), next, id);
  }

  lemma TimesFront(x: nat, s: seq<nat>, y: nat)
    ensures Times([x] + s, y) == Times(s, y) + if x == y then 1 else 0
  {
    TimesConcat([x], s, y);
    TimesAppend([], x, y);
    assert [] + [x] == [x];
  }

  lemma WakeKeepsCount<T>(pc: map<nat, Pc<T>>, id: nat)
    ensures Count(WakeAll(pc), Carrier(id)) == Count(pc, Carrier(id))
  {
    assert Where(WakeAll(pc), Carrier(id)) == Where(pc, Carrier(id));
  }

  lemma CompleterKeepsInv<T>(s: State<T>)
    requires Inv(s)
    ensures Inv(Exec(s, CompleterGo))
  {
    var s' := Exec(s, CompleterGo);
    CompleterKeepsShared(s.sh);
    forall u | u in s.pc ensures LocalOk(s'.sh, u, s'.pc[u]) {
      CompleterKeepsLocal(s.sh, u, s.pc[u]);
    }
    forall id ensures Accounted(s', id) {
      assert Accounted(s, id);
      CompleterAccounts(s.sh, id);
      WakeKeepsCount(s.pc, id);
    }
  }

  lemma ThreadKeepsInv<T>(s: State<T>, t: nat)
    requires Inv(s) && t in s.pc
    ensures Inv(Exec(s, Event<T>.Go(t)))
  {
    var s' := Exec(s, Event<T>.Go(t));
    ThreadKeepsShared(s.sh, t, s.pc[t]);
    forall u | u in s.pc && u != t ensures LocalOk(s'.sh, u, s'.pc[u]) {
      ThreadKeepsOther(s.sh, t, s.pc[t], u, s.pc[u]);
    }
    forall id ensures Accounted(s', id) {
      assert Accounted(s, id);
      ThreadAccounts(s.sh, t, s.pc[t], id);
      CountUpdate(s.pc, t, s'.pc[t], Carrier(id));
    }
  }

  lemma MoveKeepsInv<T>(s: State<T>, t: nat, pc: Pc<T>, kinds: seq<Kind>)
    requires Inv(s) && t in s.pc && (s.pc[t].Idle? || s.pc[t].GetAsleep?)
    requires (kinds == s.sh.kinds && (pc == GetLock || pc == GetRelock(true)))
      || (pc == RegLock(|s.sh.kinds|) && |kinds| == |s.sh.kinds| + 1)
    ensures Inv(State(s.sh.(kinds := kinds), s.pc[t := pc]))
  {
    var s' := State(s.sh.(kinds := kinds), s.pc[t := pc]);
    assert forall u :: u in s.pc ==> LocalOk(s.sh, u, s.pc[u]);
    forall id ensures Accounted(s', id) {
      assert Accounted(s, id);
      CountUpdate(s.pc, t, pc, Carrier(id));
    }
  }

  lemma ExecKeepsInv<T>(s: State<T>, e: Event<T>)
    requires Inv(s)
    ensures Inv(Exec(s, e))
  {
    match e
    case Complete(r) =>
      var s' := Exec(s, e);
      assert forall id :: Accounted(s, id) ==> Accounted(s', id);
    case CompleterGo => CompleterKeepsInv(s);
    case Register(t, kind) =>
      if t in s.pc && s.pc[t].Idle? { MoveKeepsInv(s, t, RegLock(|s.sh.kinds|), s.sh.kinds + [kind]); }
    case GetResult(t) => if t in s.pc && s.pc[t].Idle? { MoveKeepsInv(s, t, GetLock, s.sh.kinds); }
    case Go(t) => if t in s.pc { ThreadKeepsInv(s, t); }
    case WakeSpuriously(t) =>
      if t in s.pc && s.pc[t].GetAsleep? { MoveKeepsInv(s, t, GetRelock(true), s.sh.kinds); }
  }

  // ----- theorems about every run -----

  lemma {:induction false} RunKeepsInv<T>(threads: set<nat>, es: seq<Event<T>>)
    ensures Inv(Run(Init<T>(threads), es))
  {
    var s0 := Init<T>(threads);
    if es == [] {
      forall id ensures Accounted(s0, id) {
        CountZero(s0.pc, Carrier(id));
      }
    } else {
      RunKeepsInv(threads, es[..|es| - 1]);
      ExecKeepsInv(Run(s0, es[..|es| - 1]), es[|es| - 1]);
    }
  }

  /** No callback ever runs twice, and each that runs is given the one result. */
  lemma AtMostOnce<T>(threads: set<nat>, es: seq<Event<T>>, id: nat)
    ensures var sh := Run(Init<T>(threads), es).sh;
      && Times(Ids(sh.ran), id) <= 1
      && (forall i :: 0 <= i < |sh.ran| ==> sh.result == Some(sh.ran[i].1))
  {
    RunKeepsInv(threads, es);
    assert Accounted(Run(Init<T>(threads), es), id);
  }

  /** Once the completion is through and no registration is under way, every callback has run exactly once. */
  lemma ExactlyOnce<T>(threads: set<nat>, es: seq<Event<T>>, id: nat)
    requires var s := Run(Init<T>(threads), es);
      s.sh.completer.Finished? && id < |s.sh.kinds| && forall t :: t in s.pc ==> !Carries(s.pc[t], id)
    ensures Times(Ids(Run(Init<T>(threads), es).sh.ran), id) == 1
  {
    RunKeepsInv(threads, es);
    var s := Run(Init<T>(threads), es);
    assert Accounted(s, id);
    CountZero(s.pc, Carrier(id));
  }

  /** The early callbacks run first and in the order in which they were put on the list. */
  lemma EarlyFirstInOrder<T>(threads: set<nat>, es: seq<Event<T>>)
    ensures var sh := Run(Init<T>(threads), es).sh;
      var n := if |Ids(sh.ran)| < |sh.early| then |Ids(sh.ran)| else |sh.early|;
      Ids(sh.ran)[..n] == sh.early[..n]
  {
    RunKeepsInv(threads, es);
  }

  /** Whoever finds the mutex free and a result finds the list empty, its callbacks all run. */
  lemma VisibleResultMeansNothingPending<T>(threads: set<nat>, es: seq<Event<T>>)
    requires var sh := Run(Init<T>(threads), es).sh; sh.lock == Free && sh.result.Some?
    ensures var sh := Run(Init<T>(threads), es).sh;
      sh.pending == [] && |sh.early| <= |Ids(sh.ran)| && Ids(sh.ran)[..|sh.early|] == sh.early
  {
    RunKeepsInv(threads, es);
  }

  /** No waiter of getResult sleeps on past the notification. */
  lemma NoGetterLeftAsleep<T>(threads: set<nat>, es: seq<Event<T>>, t: nat)
    requires var s := Run(Init<T>(threads), es); t in s.pc && s.pc[t].GetAsleep? && s.sh.lock == Free
    ensures Run(Init<T>(threads), es).sh.result == None
  {
    RunKeepsInv(threads, es);
  }

  /**
   * The wait of getResult is not in a loop: reading the result goes wrong exactly for a thread
   * that a spurious wakeup brought there before the completion.
   */
  lemma EmptyReadIff<T>(threads: set<nat>, es: seq<Event<T>>, t: nat)
    requires var s := Run(Init<T>(threads), es); t in s.pc && s.pc[t].GetRead?
    ensures var s := Run(Init<T>(threads), es); var s' := Exec(s, Event<T>.Go(t));
      && s'.sh.readings == s.sh.readings + [(t, s.sh.result)]
      && (s.sh.result == None <==> s.pc[t].spurious && Before(s.sh.completer))
  {
    RunKeepsInv(threads, es);
  }

  // ----- the result is what the coroutine completed with -----

  /** What the coroutine's body came to: the argument of the first completion. */
  function FirstCompletion<T>(es: seq<Event<T>>): Option<Result<T>> {
    if es == [] then None
    else
      var before, e := FirstCompletion(es[..|es| - 1]), es[|es| - 1];
      if before == None && e.Complete? then Some(e.r) else before
  }

  ghost predicate Completes<T>(sh: Shared<T>, first: Option<Result<T>>) {
    match sh.completer
    case Running => first == None && sh.result == None
    case Locking(r) => first == Some(r) && sh.result == None
    case Setting(r) => first == Some(r) && sh.result == None
    case _ => first.Some? && sh.result == first
  }

  /** Every read that found a result found this one. */
  ghost predicate ReadsAre<T>(sh: Shared<T>, first: Option<Result<T>>) {
    forall i :: 0 <= i < |sh.readings| && sh.readings[i].1.Some? ==> sh.readings[i].1 == first
  }

  lemma ResultStep<T>(s: State<T>, e: Event<T>, first: Option<Result<T>>)
    requires Completes(s.sh, first) && ReadsAre(s.sh, first)
    ensures var first' := if first == None && e.Complete? then Some(e.r) else first;
      Completes(Exec(s, e).sh, first') && ReadsAre(Exec(s, e).sh, first')
  {
  }

  /**
   * The promise's result is what the coroutine first completed with, from the moment the
   * completion has it stored and for ever; getResult returns it, and every callback is given it.
   */
  lemma {:induction false} ResultIsTheCompletion<T>(threads: set<nat>, es: seq<Event<T>>)
    ensures var sh := Run(Init<T>(threads), es).sh; var first := FirstCompletion(es);
      && (sh.completer.Running? <==> first == None)
      && sh.result == (if Before(sh.completer) then None else first)
      && (forall i :: 0 <= i < |sh.readings| && sh.readings[i].1.Some? ==> sh.readings[i].1 == first)
      && (forall i :: 0 <= i < |sh.ran| ==> Some(sh.ran[i].1) == first)
  {
    RunKeepsInv(threads, es);
    RunCarries(threads, es);
  }

  lemma {:induction false} RunCarries<T>(threads: set<nat>, es: seq<Event<T>>)
    ensures Completes(Run(Init<T>(threads), es).sh, FirstCompletion(es))
    ensures ReadsAre(Run(Init<T>(threads), es).sh, FirstCompletion(es))
  {
    if es != [] {
      RunCarries<T>(threads, es[..|es| - 1]);
      hide Exec;
      ResultStep(Run(Init<T>(threads), es[..|es| - 1]), es[|es| - 1], FirstCompletion(es[..|es| - 1]));
    }
  }

  /** The kinds of the registrations that have begun, in order, from the events alone. */
  ghost function KindsAsked<T>(s0: State<T>, es: seq<Event<T>>): seq<Kind> {
    if es == [] then []
    else
      var s, e, before := Run(s0, es[..|es| - 1]), es[|es| - 1], KindsAsked(s0, es[..|es| - 1]);
      if e.Register? && e.tid in s.pc && s.pc[e.tid].Idle? then before + [e.kind] else before
  }

  /** How often t has called getResult. */
  ghost function GetsAsked<T>(s0: State<T>, es: seq<Event<T>>, t: nat): nat {
    if es == [] then 0
    else
      var s, e, before := Run(s0, es[..|es| - 1]), es[|es| - 1], GetsAsked(s0, es[..|es| - 1], t);
      if AsksResult(s, e, t) then before + 1 else before
  }

  function ReadsBy<T>(readings: seq<(nat, Option<Result<T>>)>, t: nat): nat {
    if readings == [] then 0 else ReadsBy(readings[..|readings| - 1], t) + if readings[|readings| - 1].0 == t then 1 else 0
  }

  predicate BeforeRead<T>(pc: Pc<T>) {
    pc.GetLock? || pc.GetTest? || pc.GetAsleep? || pc.GetRelock? || pc.GetRead?
  }

  lemma ReadsAppend<T>(readings: seq<(nat, Option<Result<T>>)>, r: (nat, Option<Result<T>>), t: nat)
    ensures ReadsBy(readings + [r], t) == ReadsBy(readings, t) + if r.0 == t then 1 else 0
  {
    assert (readings + [r])[..|readings|] == readings;
  }

  predicate AsksResult<T>(s: State<T>, e: Event<T>, t: nat) {
    e.GetResult? && e.tid == t && t in s.pc && s.pc[t].Idle?
  }

  /** Calls of getResult by the thread that have not read yet. */
  function Unread<T>(pc: Pc<T>): nat {
    if BeforeRead(pc) then 1 else 0
  }

  lemma ThreadReads<T>(sh: Shared<T>, u: nat, pc: Pc<T>)
    ensures var (sh', pc') := ThreadStep(sh, u, pc);
      && sh'.kinds == sh.kinds
      && if pc.GetRead? then sh'.readings == sh.readings + [(u, sh.result)] && !BeforeRead(pc')
         else sh'.readings == sh.readings && (BeforeRead(pc') <==> BeforeRead(pc))
  {
  }

  lemma CallsStep<T>(s: State<T>, e: Event<T>, t: nat)
    requires t in s.pc
    ensures var s' := Exec(s, e);
      && t in s'.pc
      && s'.sh.kinds == (if e.Register? && e.tid in s.pc && s.pc[e.tid].Idle? then s.sh.kinds + [e.kind] else s.sh.kinds)
      && ReadsBy(s'.sh.readings, t) + Unread(s'.pc[t])
         == ReadsBy(s.sh.readings, t) + Unread(s.pc[t]) + if AsksResult(s, e, t) then 1 else 0
  {
    hide ReadsBy;
    if e.Go? && e.tid in s.pc {
      ThreadReads(s.sh, e.tid, s.pc[e.tid]);
      hide ThreadStep;
      if s.pc[e.tid].GetRead? {
        ReadsAppend(s.sh.readings, (e.tid, s.sh.result), t);
      }
    } else if e.CompleterGo? {
      CompleterReadsNothing(s.sh);
    }
  }

  lemma CompleterReadsNothing<T>(sh: Shared<T>)
    ensures CompleterStep(sh).kinds == sh.kinds && CompleterStep(sh).readings == sh.readings
  {
  }

  /** Registrations are kept with the kind they came with, and every call of getResult reads exactly once. */
  lemma {:induction false} CallsAreWhatWasAsked<T>(threads: set<nat>, es: seq<Event<T>>, t: nat)
    requires t in threads
    ensures var s0 := Init<T>(threads); var s := Run(s0, es);
      && t in s.pc
      && s.sh.kinds == KindsAsked(s0, es)
      && ReadsBy(s.sh.readings, t) + Unread(s.pc[t]) == GetsAsked(s0, es, t)
  {
    hide Exec, ReadsBy, Unread;
    if es == [] {
      NothingRead(Init<T>(threads), t);
    } else {
      CallsAreWhatWasAsked<T>(threads, es[..|es| - 1], t);
      CallsStep(Run(Init<T>(threads), es[..|es| - 1]), es[|es| - 1], t);
    }
  }

  lemma NothingRead<T>(s: State<T>, t: nat)
    requires s.sh.readings == [] && t in s.pc && s.pc[t] == Idle
    ensures ReadsBy(s.sh.readings, t) == 0 == Unread(s.pc[t])
  {
  }

  // ----- a thread left alone finishes its call -----

  function CallDistance<T>(pc: Pc<T>): nat {
    match pc
    case RegLock(_) => 4 case RegTest(_) => 3 case RegPush(_) => 2 case RegUnlock => 1
    case RegRelease(_, _) => 2 case RegCall(_, _) => 1
    case GetLock => 4 case GetTest => 3 case GetRelock(_) => 3 case GetRead(_) => 2 case GetUnlock => 1
    case _ => 0
  }

  function ThreadAlone<T>(sh: Shared<T>, t: nat, pc: Pc<T>, n: nat): (Shared<T>, Pc<T>)
    decreases n
  {
    if n == 0 then (sh, pc) else var (sh', pc') := ThreadStep(sh, t, pc); ThreadAlone(sh', t, pc', n - 1)
  }

  lemma CallStepLess<T>(sh: Shared<T>, t: nat, pc: Pc<T>)
    requires sh.lock == Free || sh.lock == ByThread(t)
    requires (pc.RegLock? || pc.GetLock? || pc.GetRelock?) ==> sh.lock == Free
    ensures var (sh', pc') := ThreadStep(sh, t, pc);
      && (CallDistance(pc) > 0 ==> CallDistance(pc') < CallDistance(pc))
      && (CallDistance(pc) == 0 ==> sh' == sh && pc' == pc)
      && (sh'.lock == Free || sh'.lock == ByThread(t))
      && (CallDistance(pc) > 0 ==> !(pc'.RegLock? || pc'.GetLock? || pc'.GetRelock?))
  {
  }

  lemma {:induction false} AloneThrough<T>(sh: Shared<T>, t: nat, pc: Pc<T>, n: nat)
    requires sh.lock == Free || sh.lock == ByThread(t)
    requires (pc.RegLock? || pc.GetLock? || pc.GetRelock?) ==> sh.lock == Free
    requires CallDistance(pc) <= n
    ensures CallDistance(ThreadAlone(sh, t, pc, n).1) == 0
    decreases n
  {
    if n > 0 {
      CallStepLess(sh, t, pc);
      var (sh', pc') := ThreadStep(sh, t, pc);
      AloneThrough(sh', t, pc', n - 1);
    }
  }

  /**
   * From every reachable state a thread that is not kept from the mutex is through with its call
   * after at most four operations, or asleep in getResult.
   */
  lemma LeftAloneFinishes<T>(threads: set<nat>, es: seq<Event<T>>, t: nat)
    requires var s := Run(Init<T>(threads), es); t in s.pc && (s.sh.lock == Free || s.sh.lock == ByThread(t))
    ensures var s := Run(Init<T>(threads), es); var pc := ThreadAlone(s.sh, t, s.pc[t], 4).1;
      pc == Idle || pc == GetAsleep
  {
    RunKeepsInv(threads, es);
    var s := Run(Init<T>(threads), es);
    AloneThrough(s.sh, t, s.pc[t], 4);
  }

  /** The callbacks among the first n run whose kind passes the result on to the user's function. */
  function UserCalls<T>(sh: Shared<T>, n: nat): seq<nat>
    requires n <= |sh.ran|
  {
    if n == 0 then []
    else
      var (id, r) := sh.ran[n - 1];
      UserCalls(sh, n - 1) + if id < |sh.kinds| && Fires(sh.kinds[id], r) then [id] else []
  }

  /** catching passes on an exception and nothing else, finally everything, and each exactly once. */
  lemma UserCalledExactly<T>(threads: set<nat>, es: seq<Event<T>>, id: nat)
    requires var s := Run(Init<T>(threads), es);
      s.sh.completer.Finished? && id < |s.sh.kinds| && forall t :: t in s.pc ==> !Carries(s.pc[t], id)
    ensures var sh := Run(Init<T>(threads), es).sh;
      && sh.result.Some?
      && Times(UserCalls(sh, |sh.ran|), id) == if sh.kinds[id] == Finally || sh.result.value.Raised? then 1 else 0
  {
    RunKeepsInv(threads, es);
    ExactlyOnce(threads, es, id);
    var sh := Run(Init<T>(threads), es).sh;
    FilterTimes(sh, |sh.ran|, id);
    assert sh.ran[..|sh.ran|] == sh.ran;
  }

  lemma {:induction false} FilterTimes<T>(sh: Shared<T>, n: nat, id: nat)
    requires n <= |sh.ran| && id < |sh.kinds| && sh.result.Some?
    requires forall i :: 0 <= i < |sh.ran| ==> Some(sh.ran[i].1) == sh.result
    ensures Times(UserCalls(sh, n), id)
      == if Fires(sh.kinds[id], sh.result.value) then Times(Ids(sh.ran[..n]), id) else 0
  {
    hide Times, Ids, UserCalls, Fires;
    if n == 0 {
      NobodyCalled(sh, id);
    } else {
      FilterTimes(sh, n - 1, id);
      OneMoreRan(sh, n - 1, id);
      OneMoreUserCall(sh, n - 1, id);
    }
  }

  lemma NobodyCalled<T>(sh: Shared<T>, id: nat)
    ensures Times(UserCalls(sh, 0), id) == 0 == Times(Ids(sh.ran[..0]), id)
  {
  }

  lemma OneMoreRan<T>(sh: Shared<T>, n: nat, id: nat)
    requires n < |sh.ran|
    ensures Times(Ids(sh.ran[..n + 1]), id) == Times(Ids(sh.ran[..n]), id) + if sh.ran[n].0 == id then 1 else 0
  {
    hide Times, Ids;
    assert sh.ran[..n + 1] == sh.ran[..n] + [(sh.ran[n].0, sh.ran[n].1)];
    IdsAppend(sh.ran[..n], sh.ran[n].0, sh.ran[n].1);
    TimesAppend(Ids(sh.ran[..n]), sh.ran[n].0, id);
  }

  lemma OneMoreUserCall<T>(sh: Shared<T>, n: nat, id: nat)
    requires n < |sh.ran| && id < |sh.kinds|
    ensures Times(UserCalls(sh, n + 1), id)
      == Times(UserCalls(sh, n), id) + if sh.ran[n].0 == id && Fires(sh.kinds[id], sh.ran[n].1) then 1 else 0
  {
    hide Times, Fires;
    TimesAppend(UserCalls(sh, n), sh.ran[n].0, id);
    assert UserCalls(sh, n) + [] == UserCalls(sh, n);
  }

  function CompleterAlone<T>(s: State<T>, n: nat): State<T>
    decreases n
  {
    if n == 0 then s else CompleterAlone(Exec(s, CompleterGo), n - 1)
  }

  /** How many steps of its own the completion needs from here to its end. */
  function Distance<T>(sh: Shared<T>): nat {
    match sh.completer
    case Running => 0
    case Locking(_) => |sh.pending| + 6
    case Setting(_) => |sh.pending| + 5
    case NotifyingAll => |sh.pending| + 4
    case Calling(k) => if k < |sh.pending| then |sh.pending| - k + 3 else 3
    case Clearing => 2
    case Unlocking => 1
    case Finished => 0
  }

  /** A completion that has begun needs nobody's help once the mutex is not in other hands. */
  lemma {:induction false} CompletionFinishes<T>(s: State<T>)
    requires Inv(s) && !s.sh.completer.Running? && (s.sh.lock == Free || s.sh.lock == ByCompleter)
    ensures CompleterAlone(s, Distance(s.sh)).sh.completer.Finished?
    decreases Distance(s.sh)
  {
    hide Inv, Distance, Exec;
    CompleterApproaches(s);
    if !s.sh.completer.Finished? {
      CompleterKeepsInv(s);
      CompletionFinishes(Exec(s, CompleterGo));
    }
  }

  lemma CompleterApproaches<T>(s: State<T>)
    requires Inv(s) && !s.sh.completer.Running? && (s.sh.lock == Free || s.sh.lock == ByCompleter)
    ensures s.sh.completer.Finished? ==> Distance(s.sh) == 0
    ensures !s.sh.completer.Finished? ==>
      var sh' := Exec(s, CompleterGo).sh;
      && Distance(s.sh) > 0 && Distance(sh') == Distance(s.sh) - 1
      && !sh'.completer.Running? && (sh'.lock == Free || sh'.lock == ByCompleter)
  {
    hide Ids;
  }

  // ----- no deadlock: a completion that has begun can always finish -----

  lemma RunAppend<T>(s: State<T>, es: seq<Event<T>>, e: Event<T>)
    ensures Run(s, es + [e]) == Exec(Run(s, es), e)
  {
    assert (es + [e])[..|es|] == es;
  }

  lemma {:induction false} RunCons<T>(s: State<T>, e: Event<T>, es: seq<Event<T>>)
    ensures Run(s, [e] + es) == Run(Exec(s, e), es)
    decreases |es|
  {
    hide Exec;
    if es == [] {
      assert [e] + es == [] + [e];
      RunAppend(s, [], e);
    } else {
      var front, last := es[..|es| - 1], es[|es| - 1];
      RunCons(s, e, front);
      assert [e] + es == [e] + front + [last];
      RunAppend(s, [e] + front, last);
    }
  }

  ghost predicate OwnerKnown<T>(s: State<T>) {
    s.sh.lock.ByThread? ==> s.sh.lock.tid in s.pc
  }

  lemma {:induction false} RunKeepsOwner<T>(threads: set<nat>, es: seq<Event<T>>)
    ensures OwnerKnown(Run(Init<T>(threads), es))
  {
    if es != [] {
      RunKeepsOwner<T>(threads, es[..|es| - 1]);
      OwnerStep(Run(Init<T>(threads), es[..|es| - 1]), es[|es| - 1]);
    }
  }

  lemma OwnerStep<T>(s: State<T>, e: Event<T>)
    requires OwnerKnown(s)
    ensures OwnerKnown(Exec(s, e))
  {
  }

  /** How many steps of its own a thread needs to give the mutex back. */
  function HoldDistance<T>(pc: Pc<T>): nat {
    match pc
    case RegTest(_) => 3 case RegPush(_) => 2 case RegUnlock => 1 case RegRelease(_, _) => 1
    case GetTest => 3 case GetRead(_) => 2 case GetUnlock => 1
    case _ => 0
  }

  lemma HolderStep<T>(sh: Shared<T>, t: nat, pc: Pc<T>)
    requires LocalOk(sh, t, pc) && sh.lock == ByThread(t)
    ensures var (sh', pc') := ThreadStep(sh, t, pc);
      && sh'.completer == sh.completer && HoldDistance(pc) > 0
      && (sh'.lock == Free || (sh'.lock == ByThread(t) && HoldDistance(pc') < HoldDistance(pc)))
      && |sh'.pending| <= |sh.pending| + (if pc.RegPush? then 1 else 0)
      && (pc'.RegPush? ==> pc.RegTest?)
  {
  }

  lemma {:induction false} HolderLetsGo<T>(s: State<T>, t: nat) returns (es: seq<Event<T>>)
    requires Inv(s) && t in s.pc && s.sh.lock == ByThread(t)
    ensures var s' := Run(s, es);
      && |es| <= HoldDistance(s.pc[t]) && Inv(s') && s'.sh.lock == Free && s'.sh.completer == s.sh.completer
      && |s'.sh.pending| <= |s.sh.pending| + (if s.pc[t].RegTest? || s.pc[t].RegPush? then 1 else 0)
    decreases HoldDistance(s.pc[t])
  {
    var e := Event<T>.Go(t);
    var s' := Exec(s, e);
    HolderStep(s.sh, t, s.pc[t]);
    ThreadKeepsInv(s, t);
    hide ThreadStep, Inv;
    if s'.sh.lock == Free {
      es := [e];
      RunCons(s, e, []);
      assert [e] + [] == [e];
    } else {
      var rest := HolderLetsGo(s', t);
      es := [e] + rest;
      RunCons(s, e, rest);
    }
  }

  lemma {:induction false} CompleterSchedule<T>(s: State<T>, n: nat)
    ensures Run(s, seq(n, _ => CompleterGo)) == CompleterAlone(s, n)
    decreases n
  {
    var goes: seq<Event<T>> := seq(n, _ => CompleterGo);
    if n > 0 {
      CompleterSchedule(Exec(s, CompleterGo), n - 1);
      var rest: seq<Event<T>> := seq(n - 1, _ => CompleterGo);
      assert goes == [Event<T>.CompleterGo] + rest;
      RunCons(s, CompleterGo, rest);
    }
  }

  /**
   * From every reachable state in which a completion has begun, whoever has the mutex, some
   * schedule of at most ten steps more than there are pending callbacks finishes it.
   */
  lemma CompletionCanFinish<T>(threads: set<nat>, es: seq<Event<T>>)
    requires !Run(Init<T>(threads), es).sh.completer.Running?
    ensures var s := Run(Init<T>(threads), es);
      exists more :: |more| <= |s.sh.pending| + 10 && Run(s, more).sh.completer.Finished?
  {
    hide Inv, Exec, CompleterAlone, Distance, HoldDistance;
    RunKeepsInv(threads, es);
    RunKeepsOwner<T>(threads, es);
    var s := Run(Init<T>(threads), es);
    var first: seq<Event<T>> := [];
    if s.sh.lock.ByThread? {
      HoldBound(s.pc[s.sh.lock.tid]);
      first := HolderLetsGo(s, s.sh.lock.tid);
    }
    var s' := Run(s, first);
    assert s.sh.lock.ByThread? || s' == s;
    hide Run;
    DistanceBound(s'.sh);
    CompletionFinishes(s');
    CompleterSchedule(s', Distance(s'.sh));
    var second: seq<Event<T>> := seq(Distance(s'.sh), _ => CompleterGo);
    RunConcat(s, first, second);
    assert Run(s, first + second).sh.completer.Finished?;
  }

  lemma HoldBound<T>(pc: Pc<T>)
    ensures HoldDistance(pc) <= 3
  {
  }

  lemma DistanceBound<T>(sh: Shared<T>)
    ensures Distance(sh) <= |sh.pending| + 6
  {
  }

  lemma {:induction false} RunConcat<T>(s: State<T>, a: seq<Event<T>>, b: seq<Event<T>>)
    ensures Run(s, a + b) == Run(Run(s, a), b)
    decreases |b|
  {
    hide Exec;
    if b == [] {
      assert a + b == a;
    } else {
      RunConcat(s, a, b[..|b| - 1]);
      assert a + b == a + b[..|b| - 1] + [b[|b| - 1]];
      RunAppend(s, a + b[..|b| - 1], b[|b| - 1]);
    }
  }

  /** The failure of getResult occurs: a spurious wakeup brings a waiter to its read before any completion. */
  lemma SpuriousReadIsReached<T>(threads: set<nat>, t: nat)
    requires t in threads
    ensures var s := Run(Init<T>(threads), [GetResult(t), Go(t), Go(t), WakeSpuriously(t), Go(t)]);
      && t in s.pc && s.pc[t] == GetRead(true) && Before(s.sh.completer)
      && Exec(s, Event<T>.Go(t)).sh.readings == s.sh.readings + [(t, None)]
  {
    var s0 := Init<T>(threads);
    SleepsAtOnce(s0, t);
    WokenSpuriously(Exec(Exec(Exec(s0, GetResult(t)), Event<T>.Go(t)), Event<T>.Go(t)), t);
    assert Run(s0, []) == s0;
    hide Exec;
    RunFive(s0, GetResult(t), Go(t), Go(t), WakeSpuriously(t), Go(t));
  }

  lemma SleepsAtOnce<T>(s: State<T>, t: nat)
    requires t in s.pc && s.pc[t] == Idle && s.sh.result == None && s.sh.lock == Free
    ensures var s' := Exec(Exec(Exec(s, GetResult(t)), Event<T>.Go(t)), Event<T>.Go(t));
      t in s'.pc && s'.pc[t] == GetAsleep && s'.sh == s.sh
  {
    var s1 := Exec(s, GetResult(t));
    var s2 := Exec(s1, Event<T>.Go(t));
    assert s1.sh == s.sh && s1.pc[t] == GetLock;
    assert s2.sh == s.sh.(lock := ByThread(t)) && s2.pc[t] == GetTest;
  }

  lemma WokenSpuriously<T>(s: State<T>, t: nat)
    requires t in s.pc && s.pc[t] == GetAsleep && s.sh.result == None && s.sh.lock == Free
    ensures var s' := Exec(Exec(s, WakeSpuriously(t)), Event<T>.Go(t));
      && t in s'.pc && s'.pc[t] == GetRead(true) && s'.sh.completer == s.sh.completer
      && Exec(s', Event<T>.Go(t)).sh.readings == s'.sh.readings + [(t, None)]
      && s'.sh.result == None
  {
    var s1 := Exec(s, Event<T>.WakeSpuriously(t));
    assert s1.sh == s.sh && s1.pc[t] == GetRelock(true);
  }

  lemma RunFive<T>(s: State<T>, a: Event<T>, b: Event<T>, c: Event<T>, d: Event<T>, e: Event<T>)
    ensures Run(s, [a, b, c, d, e]) == Exec(Exec(Exec(Exec(Exec(Run(s, []), a), b), c), d), e)
  {
    hide *;
    RunAppend(s, [], a);
    RunAppend(s, [a], b);
    RunAppend(s, [a, b], c);
    RunAppend(s, [a, b, c], d);
    RunAppend(s, [a, b, c, d], e);
    assert [] + [a] == [a] && [a] + [b] == [a, b] && [a, b] + [c] == [a, b, c];
    assert [a, b, c] + [d] == [a, b, c, d] && [a, b, c, d] + [e] == [a, b, c, d, e];
  }

  // ----- the object itself -----

  /** The promise's own fields and each thread's locals, changed in place. */
  class Promise<T(==)> {
    var result: Option<Result<T>>
    var lock: Owner
    var completionCallbacks: seq<nat>
    var completer: Completer<T>
    var locals: map<nat, Pc<T>>
    var kinds: seq<Kind>
    ghost var early: seq<nat>
    ghost var ran: seq<(nat, Result<T>)>
    ghost var readings: seq<(nat, Option<Result<T>>)>

    ghost function View(): State<T>
      reads this
    {
      State(Shared(result, lock, completionCallbacks, completer, kinds, early, ran, readings), locals)
    }

    constructor (threads: set<nat>)
      ensures View() == Init(threads)
    {
      result, lock, completionCallbacks, completer := None, Free, [], Running;
      locals := map t | t in threads :: Idle;
      kinds, early, ran, readings := [], [], [], [];
    }

    /** return_value and unhandled_exception with notifyCallbacks, one operation at a time. */
    method CompleteStep()
      modifies this
      ensures View() == Exec(old(View()), CompleterGo)
    {
      match completer
      case Running =>
      case Locking(r) =>
        if lock == Free {
          lock, completer := ByCompleter, Setting(r);
        }
      case Setting(r) =>
        result := Some(r);
        completer := NotifyingAll;
      case NotifyingAll =>
        locals := map t | t in locals :: Wake(locals[t]);
        completer := Calling(0);
      case Calling(k) =>
        if k < |completionCallbacks| && result.Some? {
          ran := ran + [(completionCallbacks[k], result.value)];
          completer := Calling(k + 1);
        } else {
          completer := Clearing;
        }
      case Clearing =>
        completionCallbacks := [];
        completer := Unlocking;
      case Unlocking =>
        lock, completer := Free, Finished;
      case Finished =>
    }

    method OnCompleted(t: nat)
      requires t in locals && Registering(locals[t])
      modifies this
      ensures var (sh, pc) := RegisterStep(old(View()).sh, t, old(locals)[t]);
        View() == State(sh, old(locals)[t := pc])
    {
      match locals[t]
      case RegLock(id) =>
        if lock == Free {
          lock := ByThread(t);
          locals := locals[t := RegTest(id)];
        } else {
          assert locals == locals[t := locals[t]];
        }
      case RegTest(id) =>
        locals := locals[t := if result.Some? then RegRelease(id, result.value) else RegPush(id)];
      case RegPush(id) =>
        completionCallbacks := completionCallbacks + [id];
        early := early + [id];
        locals := locals[t := RegUnlock];
      case RegUnlock =>
        lock := Free;
        locals := locals[t := Idle];
      case RegRelease(id, copy) =>
        lock := Free;
        locals := locals[t := RegCall(id, copy)];
      case RegCall(id, copy) =>
        ran := ran + [(id, copy)];
        locals := locals[t := Idle];
    }

    method GetResultStep(t: nat)
      requires t in locals && !Registering(locals[t])
      modifies this
      ensures var (sh, pc) := GetStep(old(View()).sh, t, old(locals)[t]);
        View() == State(sh, old(locals)[t := pc])
    {
      assert locals == locals[t := locals[t]];
      match locals[t]
      case GetLock =>
        if lock == Free {
          lock := ByThread(t);
          locals := locals[t := GetTest];
        }
      case GetTest =>
        if result.Some? {
          locals := locals[t := GetRead(false)];
        } else {
          lock := Free;
          locals := locals[t := GetAsleep];
        }
      case GetRelock(spurious) =>
        if lock == Free {
          lock := ByThread(t);
          locals := locals[t := GetRead(spurious)];
        }
      case GetRead(_) =>
        readings := readings + [(t, result)];
        locals := locals[t := GetUnlock];
      case GetUnlock =>
        lock := Free;
        locals := locals[t := Idle];
      case _ =>
    }

    /** Any schedule at all: the object goes through the run of the machine. */
    method Drive(es: seq<Event<T>>)
      modifies this
      ensures View() == Run(old(View()), es)
    {
      for i := 0 to |es|
        invariant View() == Run(old(View()), es[..i])
      {
        assert es[..i + 1][..i] == es[..i];
        Perform(es[i]);
      }
      assert es[..|es|] == es;
    }

    method Perform(e: Event<T>)
      modifies this
      ensures View() == Exec(old(View()), e)
    {
      match e
      case Complete(r) => if completer.Running? { completer := Locking(r); }
      case CompleterGo => CompleteStep();
      case Register(t, kind) =>
        if t in locals && locals[t].Idle? {
          locals := locals[t := RegLock(|kinds|)];
          kinds := kinds + [kind];
        }
      case GetResult(t) => if t in locals && locals[t].Idle? { locals := locals[t := GetLock]; }
      case Go(t) =>
        if t in locals {
          if Registering(locals[t]) { OnCompleted(t); } else { GetResultStep(t); }
        }
      case WakeSpuriously(t) =>
        if t in locals && locals[t].GetAsleep? { locals := locals[t := GetRelock(true)]; }
    }
  }
}
