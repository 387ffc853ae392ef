/**
 * The handshake of multithread/interruptible_thread.h between one interruptible thread, any
 * number of threads calling `interrupt_flag::set` on its flag, and any number of other threads
 * that share the caller's lock and its condition variables.
 */
module InterruptibleWait {
  import opened Counting

  datatype MutexOwner = Free | ByWaiter | BySetter(tid: nat)
  datatype LockOwner = Unlocked | HeldByWaiter | HeldByPeer(tid: nat)

  /** Which condition variable the interruptible thread is queued on, if any. */
  datatype Sleep = Awake | OnAny(notified: bool) | OnTimed(notified: bool)

  datatype Outcome = NotCalled | Returned | Interrupted

  /** What std::lock has acquired so far. */
  datatype Have = Nothing | FlagMutex | CallerLock

  /** The interruptible thread. `usesPred` tells the predicate overload of the timed wait. */
  datatype WaiterPc =
    | Away
    | Ready(last: Outcome)
    | AnyLock | AnyRegister | AnyCheck | AnyEnqueue | AnyUnlockCaller | AnyUnlockMutex | AnyAsleep
    | AnyRelock(have: Have) | AnyRecheck | AnyClear(out: Outcome) | AnyRelease(out: Outcome)
    | TimedCheck(usesPred: bool) | TimedSetLock(usesPred: bool) | TimedSet(usesPred: bool)
    | TimedSetUnlock(usesPred: bool) | TimedTest(usesPred: bool) | TimedSleep(usesPred: bool)
    | TimedAsleep(usesPred: bool) | TimedRelock(usesPred: bool) | TimedRecheck
    | TimedClearLock(out: Outcome) | TimedClear(out: Outcome) | TimedClearUnlock(out: Outcome)

  datatype SetterPc = Quiet | Stored | Locked | Notified

  datatype Shared = Shared(
    flag: bool,           // flag_, false from its value initialisation
    mutex: MutexOwner,    // cv_mtx_
    cv: bool,             // cv_ != nullptr
    cvAny: bool,          // cv_any_ != nullptr
    lock: LockOwner,      // the lock the caller passes to wait
    sleep: Sleep)

  datatype State = State(sh: Shared, waiter: WaiterPc, setters: map<nat, SetterPc>, peers: set<nat>)

  datatype Call = CallAny | CallTimed(usesPred: bool) | Leave | Enter

  datatype Event =
    | WaiterCall(call: Call)
    | WaiterGo(early: bool, pred: bool, callerFirst: bool)   // early: spurious wakeup or timeout
    | SetterGo(tid: nat)
    | PeerLock(tid: nat) | PeerUnlock(tid: nat) | PeerNotifyAny | PeerNotifyTimed

  function Init(setters: set<nat>, peers: set<nat>): State {
    State(Shared(false, Free, false, false, Unlocked, Awake), Away, map t | t in setters :: Quiet, peers)
  }

  function NotifyAny(sh: Shared): Shared {
    if sh.sleep.OnAny? then sh.(sleep := OnAny(true)) else sh
  }

  function NotifyTimed(sh: Shared): Shared {
    if sh.sleep.OnTimed? then sh.(sleep := OnTimed(true)) else sh
  }

  /** interrupt_flag::set, lines 32-41. */
  function SetterStep(sh: Shared, t: nat, pc: SetterPc): (Shared, SetterPc) {
    match pc
    case Quiet => (sh.(flag := true), Stored)
    case Stored => if sh.mutex == Free then (sh.(mutex := BySetter(t)), Locked) else (sh, pc)
    case Locked =>
      (if sh.cv then NotifyTimed(sh) else if sh.cvAny then NotifyAny(sh) else sh, Notified)
    case Notified => (sh.(mutex := Free), Quiet)
  }

  /** std::lock(cv_mtx_, lock_): take one, try the other, and back off when it is busy. */
  function RelockStep(sh: Shared, have: Have, callerFirst: bool): (Shared, WaiterPc) {
    match have
    case Nothing =>
      if callerFirst then
        (if sh.lock == Unlocked then (sh.(lock := HeldByWaiter), AnyRelock(CallerLock)) else (sh, AnyRelock(Nothing)))
      else
        (if sh.mutex == Free then (sh.(mutex := ByWaiter), AnyRelock(FlagMutex)) else (sh, AnyRelock(Nothing)))
    case FlagMutex =>
      if sh.lock == Unlocked then (sh.(lock := HeldByWaiter), AnyRecheck)
      else (sh.(mutex := Free), AnyRelock(Nothing))
    case CallerLock =>
      if sh.mutex == Free then (sh.(mutex := ByWaiter), AnyRecheck)
      else (sh.(lock := Unlocked), AnyRelock(Nothing))
  }

  predicate InAny(pc: WaiterPc) {
    || pc.AnyLock? || pc.AnyRegister? || pc.AnyCheck? || pc.AnyEnqueue? || pc.AnyUnlockCaller?
    || pc.AnyUnlockMutex? || pc.AnyAsleep? || pc.AnyRelock? || pc.AnyRecheck? || pc.AnyClear? || pc.AnyRelease?
  }

  /** interrupt_flag::wait with its custom_lock, lines 58-89. */
  function AnyStep(sh: Shared, pc: WaiterPc, early: bool, callerFirst: bool): (Shared, WaiterPc)
    requires InAny(pc)
  {
    match pc
    case AnyLock => if sh.mutex == Free then (sh.(mutex := ByWaiter), AnyRegister) else (sh, pc)
    case AnyRegister => (sh.(cvAny := true), AnyCheck)
    case AnyCheck => (sh, if sh.flag then AnyClear(Interrupted) else AnyEnqueue)
    case AnyEnqueue => (sh.(sleep := OnAny(false)), AnyUnlockCaller)
    case AnyUnlockCaller => (sh.(lock := Unlocked), AnyUnlockMutex)
    case AnyUnlockMutex => (sh.(mutex := Free), AnyAsleep)
    case AnyAsleep =>
      if early || sh.sleep == OnAny(true) then (sh.(sleep := Awake), AnyRelock(Nothing)) else (sh, pc)
    case AnyRelock(have) => RelockStep(sh, have, callerFirst)
    case AnyRecheck => (sh, AnyClear(if sh.flag then Interrupted else Returned))
    case AnyClear(out) => (sh.(cvAny := false), AnyRelease(out))
    case AnyRelease(out) => (sh.(mutex := Free), Ready(out))
  }

  predicate InTimed(pc: WaiterPc) {
    || pc.TimedCheck? || pc.TimedSetLock? || pc.TimedSet? || pc.TimedSetUnlock? || pc.TimedTest? || pc.TimedSleep?
    || pc.TimedAsleep? || pc.TimedRelock? || pc.TimedRecheck? || pc.TimedClearLock? || pc.TimedClear?
    || pc.TimedClearUnlock?
  }

  /** interruptible_wait on a std::condition_variable, lines 144-162. */
  function TimedStep(sh: Shared, pc: WaiterPc, early: bool, pred: bool): (Shared, WaiterPc)
    requires InTimed(pc)
  {
    match pc
    case TimedCheck(p) => (sh, if sh.flag then Ready(Interrupted) else TimedSetLock(p))
    case TimedSetLock(p) => if sh.mutex == Free then (sh.(mutex := ByWaiter), TimedSet(p)) else (sh, pc)
    case TimedSet(p) => (sh.(cv := true), TimedSetUnlock(p))
    case TimedSetUnlock(p) => (sh.(mutex := Free), TimedTest(p))
    case TimedTest(p) =>
      if p then (sh, if sh.flag || pred then TimedRecheck else TimedSleep(p))
      else (sh, if sh.flag then TimedClearLock(Interrupted) else TimedSleep(p))
    case TimedSleep(p) => (sh.(sleep := OnTimed(false), lock := Unlocked), TimedAsleep(p))
    case TimedAsleep(p) =>
      if early || sh.sleep == OnTimed(true) then (sh.(sleep := Awake), TimedRelock(p)) else (sh, pc)
    case TimedRelock(p) =>
      if sh.lock == Unlocked then (sh.(lock := HeldByWaiter), if p then TimedTest(p) else TimedRecheck) else (sh, pc)
    case TimedRecheck => (sh, TimedClearLock(if sh.flag then Interrupted else Returned))
    case TimedClearLock(out) => if sh.mutex == Free then (sh.(mutex := ByWaiter), TimedClear(out)) else (sh, pc)
    case TimedClear(out) => (sh.(cv := false), TimedClearUnlock(out))
    case TimedClearUnlock(out) => (sh.(mutex := Free), Ready(out))
  }

  /** Outside the waits the thread may take and drop the caller's lock, and start a wait holding it. */
  function CallStep(sh: Shared, pc: WaiterPc, call: Call): (Shared, WaiterPc) {
    match call
    case Enter => if pc.Away? && sh.lock == Unlocked then (sh.(lock := HeldByWaiter), Ready(NotCalled)) else (sh, pc)
    case Leave => if pc.Ready? then (sh.(lock := Unlocked), Away) else (sh, pc)
    case CallAny => (sh, if pc.Ready? then AnyLock else pc)
    case CallTimed(p) => (sh, if pc.Ready? then TimedCheck(p) else pc)
  }

  function WaiterStep(sh: Shared, pc: WaiterPc, early: bool, pred: bool, callerFirst: bool): (Shared, WaiterPc) {
    if InAny(pc) then AnyStep(sh, pc, early, callerFirst)
    else if InTimed(pc) then TimedStep(sh, pc, early, pred)
    else (sh, pc)
  }

  function Exec(s: State, e: Event): State {
    match e
    case WaiterCall(call) => var (sh, pc) := CallStep(s.sh, s.waiter, call); s.(sh := sh, waiter := pc)
    case WaiterGo(early, pred, callerFirst) =>
      var (sh, pc) := WaiterStep(s.sh, s.waiter, early, pred, callerFirst); s.(sh := sh, waiter := pc)
    case SetterGo(t) =>
      if t in s.setters then
        var (sh, pc) := SetterStep(s.sh, t, s.setters[t]); s.(sh := sh, setters := s.setters[t := pc])
      else s
    case PeerLock(p) => if p in s.peers && s.sh.lock == Unlocked then s.(sh := s.sh.(lock := HeldByPeer(p))) else s
    case PeerUnlock(p) => if s.sh.lock == HeldByPeer(p) then s.(sh := s.sh.(lock := Unlocked)) else s
    case PeerNotifyAny => s.(sh := NotifyAny(s.sh))
    case PeerNotifyTimed => s.(sh := NotifyTimed(s.sh))
  }

  function Run(s: State, es: seq<Event>): State {
    if es == [] then s else Exec(Run(s, es[..|es| - 1]), es[|es| - 1])
  }

  // ----- the invariant -----

  predicate HasMutex(pc: WaiterPc) {
    match pc
    case AnyRegister => true case AnyCheck => true case AnyEnqueue => true
    case AnyUnlockCaller => true case AnyUnlockMutex => true
    case AnyRelock(have) => have == FlagMutex
    case AnyRecheck => true case AnyClear(_) => true case AnyRelease(_) => true
    case TimedSet(_) => true case TimedSetUnlock(_) => true
    case TimedClear(_) => true case TimedClearUnlock(_) => true
    case _ => false
  }

  predicate HasLock(pc: WaiterPc) {
    match pc
    case Away => false
    case AnyUnlockMutex => false case AnyAsleep => false
    case AnyRelock(have) => have == CallerLock
    case TimedAsleep(_) => false case TimedRelock(_) => false
    case _ => true
  }

  /** Between the registration in custom_lock's constructor and the reset in its destructor. */
  predicate AnyRegistered(pc: WaiterPc) {
    match pc
    case AnyCheck => true case AnyEnqueue => true case AnyUnlockCaller => true case AnyUnlockMutex => true
    case AnyAsleep => true case AnyRelock(_) => true case AnyRecheck => true case AnyClear(_) => true
    case _ => false
  }

  predicate TimedRegistered(pc: WaiterPc) {
    match pc
    case TimedSetUnlock(_) => true case TimedTest(_) => true case TimedSleep(_) => true case TimedAsleep(_) => true
    case TimedRelock(_) => true case TimedRecheck => true case TimedClearLock(_) => true case TimedClear(_) => true
    case _ => false
  }

  predicate QueuedOnAny(pc: WaiterPc) {
    pc.AnyUnlockCaller? || pc.AnyUnlockMutex? || pc.AnyAsleep?
  }

  /** A setter between its store and its notification. */
  predicate Pending(pc: SetterPc) {
    pc == Stored || pc == Locked
  }

  predicate HoldsMutex(pc: SetterPc) {
    pc == Locked || pc == Notified
  }

  ghost predicate WaiterOk(sh: Shared, pc: WaiterPc) {
    && (sh.mutex == ByWaiter <==> HasMutex(pc))
    && (sh.lock == HeldByWaiter <==> HasLock(pc))
    && (sh.cvAny <==> AnyRegistered(pc))
    && (sh.cv <==> TimedRegistered(pc))
    && (sh.sleep.OnAny? <==> QueuedOnAny(pc))
    && (sh.sleep.OnTimed? <==> pc.TimedAsleep?)
  }

  /** The point of no return of the untimed wait: the flag has been read as false. */
  predicate Committed(sh: Shared, pc: WaiterPc) {
    pc.AnyEnqueue? || sh.sleep == OnAny(false)
  }

  ghost predicate NoneLost(s: State) {
    s.sh.flag && Committed(s.sh, s.waiter) ==> Count(s.setters, Pending) > 0
  }

  ghost predicate SettersOk(s: State) {
    forall t :: t in s.setters ==> (HoldsMutex(s.setters[t]) <==> s.sh.mutex == BySetter(t))
  }

  ghost predicate Inv(s: State) {
    WaiterOk(s.sh, s.waiter) && SettersOk(s) && NoneLost(s)
  }

  ghost predicate GoodStep(sh: Shared, pc: WaiterPc, r: (Shared, WaiterPc)) {
    && WaiterOk(r.0, r.1) && r.0.flag == sh.flag
    && (r.0.mutex == sh.mutex || (sh.mutex == Free && r.0.mutex == ByWaiter) || (sh.mutex == ByWaiter && r.0.mutex == Free))
    && (Committed(r.0, r.1) ==> Committed(sh, pc) || !sh.flag)
  }

  lemma AnyStepOk(sh: Shared, pc: WaiterPc, early: bool, callerFirst: bool)
    requires WaiterOk(sh, pc) && InAny(pc)
    ensures GoodStep(sh, pc, AnyStep(sh, pc, early, callerFirst))
  {
  }

  predicate InTimedSleep(pc: WaiterPc) {
    pc.TimedSleep? || pc.TimedAsleep? || pc.TimedRelock? || pc.TimedRecheck? || pc.TimedTest?
  }

  lemma TimedSleepOk(sh: Shared, pc: WaiterPc, early: bool, pred: bool)
    requires WaiterOk(sh, pc) && InTimedSleep(pc)
    ensures GoodStep(sh, pc, TimedStep(sh, pc, early, pred))
  {
  }

  lemma TimedStepOk(sh: Shared, pc: WaiterPc, early: bool, pred: bool)
    requires WaiterOk(sh, pc) && InTimed(pc)
    ensures GoodStep(sh, pc, TimedStep(sh, pc, early, pred))
  {
    if InTimedSleep(pc) {
      TimedSleepOk(sh, pc, early, pred);
    }
  }

  lemma CallStepOk(sh: Shared, pc: WaiterPc, call: Call)
    requires WaiterOk(sh, pc)
    ensures var (sh', pc') := CallStep(sh, pc, call);
      && WaiterOk(sh', pc') && sh'.flag == sh.flag && sh'.mutex == sh.mutex
      && (Committed(sh', pc') ==> Committed(sh, pc))
  {
  }

  /** The notification of a setter reaches the waiter whenever the waiter is committed. */
  lemma SetterStepOk(sh: Shared, t: nat, pc: SetterPc, waiter: WaiterPc)
    requires WaiterOk(sh, waiter) && (HoldsMutex(pc) <==> sh.mutex == BySetter(t))
    ensures var (sh', pc') := SetterStep(sh, t, pc);
      && WaiterOk(sh', waiter) && (HoldsMutex(pc') <==> sh'.mutex == BySetter(t))
      && (sh'.flag && Committed(sh', waiter) ==> Pending(pc') || (!Pending(pc) && sh.flag && Committed(sh, waiter)))
      && (Pending(pc) ==> Pending(pc') || !Committed(sh', waiter))
      && (sh'.mutex == sh.mutex || sh.mutex == Free || sh.mutex == BySetter(t))
      && (sh'.mutex == sh.mutex || sh'.mutex == Free || sh'.mutex == BySetter(t))
  {
  }

  lemma ExecKeepsInv(s: State, e: Event)
    requires Inv(s)
    ensures Inv(Exec(s, e))
  {
    match e
    case WaiterCall(call) => CallStepOk(s.sh, s.waiter, call);
    case WaiterGo(early, pred, callerFirst) =>
      if InAny(s.waiter) {
        AnyStepOk(s.sh, s.waiter, early, callerFirst);
      } else if InTimed(s.waiter) {
        TimedStepOk(s.sh, s.waiter, early, pred);
      }
    case SetterGo(t) =>
      if t in s.setters {
        SetterStepOk(s.sh, t, s.setters[t], s.waiter);
        CountUpdate(s.setters, t, SetterStep(s.sh, t, s.setters[t]).1, Pending);
      }
    case _ =>
  }

  // ----- theorems about every run -----

  lemma {:induction false} RunKeepsInv(setters: set<nat>, peers: set<nat>, es: seq<Event>)
    ensures Inv(Run(Init(setters, peers), es))
  {
    if es != [] {
      RunKeepsInv(setters, peers, es[..|es| - 1]);
      ExecKeepsInv(Run(Init(setters, peers), es[..|es| - 1]), es[|es| - 1]);
    }
  }

  /**
   * No interrupt is lost: while the flag is set and the untimed wait sleeps without a pending
   * notification, some call of `set` is still between its store and its notification.
   */
  lemma NoInterruptLost(setters: set<nat>, peers: set<nat>, es: seq<Event>)
    requires var s := Run(Init(setters, peers), es); s.sh.flag && s.sh.sleep == OnAny(false)
    ensures var s := Run(Init(setters, peers), es); exists t :: t in s.setters && Pending(s.setters[t])
  {
    RunKeepsInv(setters, peers, es);
    var t := CountWitness(Run(Init(setters, peers), es).setters, Pending);
  }

  /** A setter about to notify, in whatever state, names only a variable whose wait is under way. */
  lemma NotifiesOnlyActiveWaits(setters: set<nat>, peers: set<nat>, es: seq<Event>)
    ensures var s := Run(Init(setters, peers), es);
      && (s.sh.cv ==> InTimed(s.waiter))
      && (s.sh.cvAny ==> InAny(s.waiter))
      && !(s.sh.cv && s.sh.cvAny)
  {
    RunKeepsInv(setters, peers, es);
  }

  /** Every exit, normal or by exception: caller's lock held, flag mutex released, nothing registered. */
  lemma ExitsClean(setters: set<nat>, peers: set<nat>, es: seq<Event>)
    requires Run(Init(setters, peers), es).waiter.Ready?
    ensures var s := Run(Init(setters, peers), es);
      && s.sh.lock == HeldByWaiter && s.sh.mutex != ByWaiter
      && !s.sh.cv && !s.sh.cvAny && s.sh.sleep == Awake
  {
    RunKeepsInv(setters, peers, es);
  }

  ghost predicate OwnerKnown(s: State) {
    s.sh.mutex.BySetter? ==> s.sh.mutex.tid in s.setters
  }

  /** The waiter never writes the flag and never gives cv_mtx_ to a setter. */
  lemma AnyTouches(sh: Shared, pc: WaiterPc, early: bool, callerFirst: bool)
    requires InAny(pc)
    ensures var sh' := AnyStep(sh, pc, early, callerFirst).0;
      sh'.flag == sh.flag && (sh'.mutex == sh.mutex || !sh'.mutex.BySetter?)
  {
  }

  lemma TimedTouches(sh: Shared, pc: WaiterPc, early: bool, pred: bool)
    requires InTimed(pc)
    ensures var sh' := TimedStep(sh, pc, early, pred).0;
      sh'.flag == sh.flag && (sh'.mutex == sh.mutex || !sh'.mutex.BySetter?)
  {
  }

  lemma StepTouches(s: State, e: Event)
    ensures s.sh.flag ==> Exec(s, e).sh.flag
    ensures OwnerKnown(s) ==> OwnerKnown(Exec(s, e))
  {
    if e.WaiterGo? {
      hide AnyStep, TimedStep;
      if InAny(s.waiter) {
        AnyTouches(s.sh, s.waiter, e.early, e.callerFirst);
      } else if InTimed(s.waiter) {
        TimedTouches(s.sh, s.waiter, e.early, e.pred);
      }
    }
  }

  /** The flag, once set, stays set; every later wait therefore throws before it sleeps. */
  lemma {:induction false} FlagIsSticky(s: State, es: seq<Event>)
    requires s.sh.flag
    ensures Run(s, es).sh.flag
  {
    if es != [] {
      FlagIsSticky(s, es[..|es| - 1]);
      hide Exec;
      StepTouches(Run(s, es[..|es| - 1]), es[|es| - 1]);
    }
  }

  /**
   * The owner of cv_mtx_ is never blocked, so `set` waits for it only finitely long: std::lock
   * backs off instead of sleeping on the caller's lock with cv_mtx_ in hand.
   */
  lemma MutexOwnerCanMove(setters: set<nat>, peers: set<nat>, es: seq<Event>, early: bool, pred: bool, callerFirst: bool)
    ensures var s := Run(Init(setters, peers), es);
      && (s.sh.mutex == ByWaiter ==> Exec(s, WaiterGo(early, pred, callerFirst)).waiter != s.waiter)
      && (forall t :: s.sh.mutex == BySetter(t) && t in s.setters ==> Exec(s, SetterGo(t)).setters != s.setters)
  {
    RunKeepsInv(setters, peers, es);
    var s := Run(Init(setters, peers), es);
    forall t | s.sh.mutex == BySetter(t) && t in s.setters ensures Exec(s, SetterGo(t)).setters != s.setters {
      assert Exec(s, SetterGo(t)).setters[t] != s.setters[t];
    }
  }

  // ----- delivery -----

  /** How many steps of its own the thread needs from pc to the end of the wait, once interrupted. */
  function Distance(pc: WaiterPc): nat {
    match pc
    case AnyRelease(_) => 1 case AnyClear(_) => 2 case AnyRecheck => 3 case AnyCheck => 3
    case AnyRegister => 4 case AnyLock => 5
    case AnyRelock(have) => if have == Nothing then 5 else 4
    case AnyAsleep => 6 case AnyUnlockMutex => 7 case AnyUnlockCaller => 8 case AnyEnqueue => 9
    case TimedCheck(_) => 1
    case TimedClearUnlock(_) => 1 case TimedClear(_) => 2 case TimedClearLock(_) => 3 case TimedRecheck => 4
    case TimedTest(p) => if p then 5 else 4
    case TimedSetUnlock(p) => if p then 6 else 5
    case TimedSet(p) => if p then 7 else 6
    case TimedSetLock(p) => if p then 8 else 7
    case TimedRelock(p) => if p then 6 else 5
    case TimedAsleep(p) => if p then 7 else 6
    case TimedSleep(p) => if p then 8 else 7
    case _ => 0
  }

  /** Past its last test of the flag the wait can only finish as it decided. */
  predicate Decided(pc: WaiterPc) {
    match pc
    case AnyClear(out) => out != Interrupted case AnyRelease(out) => out != Interrupted
    case TimedClearLock(out) => out != Interrupted case TimedClear(out) => out != Interrupted
    case TimedClearUnlock(out) => out != Interrupted
    case _ => false
  }

  function WaiterAlone(s: State, n: nat): State
    decreases n
  {
    if n == 0 then s else WaiterAlone(Exec(s, WaiterGo(InTimed(s.waiter), false, true)), n - 1)
  }

  predicate Undisturbed(s: State) {
    && s.sh.flag && (InAny(s.waiter) || InTimed(s.waiter)) && !Decided(s.waiter)
    && (s.sh.lock == Unlocked || s.sh.lock == HeldByWaiter)
    && (s.sh.mutex == Free || s.sh.mutex == ByWaiter)
  }

  lemma ApproachesExit(s: State)
    requires Inv(s) && Undisturbed(s) && Count(s.setters, Pending) == 0
    ensures var s' := Exec(s, WaiterGo(InTimed(s.waiter), false, true));
      && Distance(s.waiter) > 0 && s'.setters == s.setters
      && Distance(s'.waiter) < Distance(s.waiter)
      && (s'.waiter == Ready(Interrupted) || Undisturbed(s'))
  {
    if InAny(s.waiter) {
      AnyStepOk(s.sh, s.waiter, false, true);
    } else {
      TimedStepOk(s.sh, s.waiter, true, false);
    }
  }

  /** Interrupted before its last test, or already out with the exception. */
  predicate Owed(s: State) {
    || (s.sh.flag && (InAny(s.waiter) || InTimed(s.waiter)) && !Decided(s.waiter))
    || s.waiter == Ready(Interrupted)
  }

  predicate StaysInside(es: seq<Event>) {
    forall i :: 0 <= i < |es| ==> !es[i].WaiterCall?
  }

  /**
   * Whatever setters and peers do meanwhile, in any interleaving, with timeouts and spurious
   * wakeups: a wait interrupted before its last test of the flag can end only by throwing.
   */
  lemma {:induction false} InterruptWins(s: State, es: seq<Event>)
    requires Owed(s) && StaysInside(es)
    ensures Owed(Run(s, es))
    ensures Run(s, es).waiter.Ready? ==> Run(s, es).waiter == Ready(Interrupted)
  {
    if es != [] {
      InterruptWins(s, es[..|es| - 1]);
      OwedStep(Run(s, es[..|es| - 1]), es[|es| - 1]);
    }
  }

  lemma OwedStep(s: State, e: Event)
    requires Owed(s) && !e.WaiterCall?
    ensures Owed(Exec(s, e))
  {
  }

  /**
   * Delivery: with the flag set, all calls of `set` finished and the caller's lock not in other
   * hands, the waiting thread on its own leaves any wait that has not made its last test by
   * throwing thread_interrupted. The untimed wait needs no spurious wakeup for this; the timed
   * one may need its timeout.
   */
  lemma {:induction false} InterruptIsDelivered(s: State)
    requires Inv(s) && Undisturbed(s) && Count(s.setters, Pending) == 0
    ensures exists n :: 0 < n <= 9 && WaiterAlone(s, n).waiter == Ready(Interrupted)
  {
    var n := StepsToExit(s);
    assert Distance(s.waiter) <= 9;
  }

  lemma {:induction false} StepsToExit(s: State) returns (n: nat)
    requires Inv(s) && Undisturbed(s) && Count(s.setters, Pending) == 0
    ensures 0 < n <= Distance(s.waiter) && WaiterAlone(s, n).waiter == Ready(Interrupted)
    decreases Distance(s.waiter)
  {
    var e := WaiterGo(InTimed(s.waiter), false, true);
    ApproachesExit(s);
    ExecKeepsInv(s, e);
    var s' := Exec(s, e);
    if s'.waiter == Ready(Interrupted) {
      n := 1;
      assert WaiterAlone(s, 1) == WaiterAlone(s', 0);
    } else {
      var m := StepsToExit(s');
      n := m + 1;
    }
  }

  // ----- throwing only when interrupted, returning only when woken -----

  /** The wait has decided to throw, or has thrown. */
  predicate Throwing(pc: WaiterPc) {
    match pc
    case Ready(last) => last == Interrupted
    case AnyClear(out) => out == Interrupted case AnyRelease(out) => out == Interrupted
    case TimedClearLock(out) => out == Interrupted case TimedClear(out) => out == Interrupted
    case TimedClearUnlock(out) => out == Interrupted
    case _ => false
  }

  lemma AnyThrowsOnFlag(sh: Shared, pc: WaiterPc, early: bool, callerFirst: bool)
    requires InAny(pc) && (Throwing(pc) ==> sh.flag)
    ensures Throwing(AnyStep(sh, pc, early, callerFirst).1) ==> sh.flag
  {
  }

  lemma TimedThrowsOnFlag(sh: Shared, pc: WaiterPc, early: bool, pred: bool)
    requires InTimed(pc) && (Throwing(pc) ==> sh.flag)
    ensures Throwing(TimedStep(sh, pc, early, pred).1) ==> sh.flag
  {
  }

  /** Whether a call of `set` has made its store in the run. */
  ghost predicate WasSet(s: State, es: seq<Event>) {
    es != [] &&
    (WasSet(s, es[..|es| - 1]) ||
     var s' := Run(s, es[..|es| - 1]); var e := es[|es| - 1];
     e.SetterGo? && e.tid in s'.setters && s'.setters[e.tid] == Quiet)
  }

  /**
   * The flag is set exactly when some call of `set` has stored, and a wait throws, or is on its
   * way to throwing, only then: never after a plain notification, a timeout or a spurious wakeup.
   */
  lemma {:induction false} ThrowsOnlyIfInterrupted(setters: set<nat>, peers: set<nat>, es: seq<Event>)
    ensures var s := Run(Init(setters, peers), es);
      && (s.sh.flag <==> WasSet(Init(setters, peers), es))
      && (Throwing(s.waiter) ==> s.sh.flag)
  {
    if es != [] {
      var front, e := es[..|es| - 1], es[|es| - 1];
      ThrowsOnlyIfInterrupted(setters, peers, front);
      var s := Run(Init(setters, peers), front);
      StepTouches(s, e);
      if e.WaiterGo? {
        hide AnyStep, TimedStep;
        if InAny(s.waiter) {
          AnyThrowsOnFlag(s.sh, s.waiter, e.early, e.callerFirst);
          AnyTouches(s.sh, s.waiter, e.early, e.callerFirst);
        } else if InTimed(s.waiter) {
          TimedThrowsOnFlag(s.sh, s.waiter, e.early, e.pred);
          TimedTouches(s.sh, s.waiter, e.early, e.pred);
        }
      }
    }
  }

  /** How many steps of its own a woken thread needs to the normal end of its wait. */
  function ReturnDistance(pc: WaiterPc): nat {
    match pc
    case AnyRelease(_) => 1 case AnyClear(_) => 2 case AnyRecheck => 3
    case AnyRelock(have) => if have == Nothing then 5 else 4
    case AnyAsleep => 6
    case TimedClearUnlock(_) => 1 case TimedClear(_) => 2 case TimedClearLock(_) => 3 case TimedRecheck => 4
    case TimedTest(_) => 5
    case TimedRelock(p) => if p then 6 else 5
    case TimedAsleep(p) => if p then 7 else 6
    case _ => 0
  }

  /** Woken, uninterrupted, and with nobody in the way. */
  predicate Woken(s: State) {
    && !s.sh.flag
    && (s.waiter.AnyAsleep? ==> s.sh.sleep == OnAny(true))
    && (s.waiter.TimedAsleep? ==> s.sh.sleep == OnTimed(true))
    && (s.waiter.TimedTest? ==> s.waiter.usesPred)
    && ReturnDistance(s.waiter) > 0 && !Throwing(s.waiter)
    && (s.sh.lock == Unlocked || s.sh.lock == HeldByWaiter)
    && (s.sh.mutex == Free || s.sh.mutex == ByWaiter)
  }

  lemma ApproachesReturn(s: State)
    requires Inv(s) && Woken(s)
    ensures var s' := Exec(s, WaiterGo(false, true, true));
      ReturnDistance(s'.waiter) < ReturnDistance(s.waiter) && (Woken(s') || (s'.waiter.Ready? && !Throwing(s'.waiter)))
  {
  }

  function GoesOn(s: State, n: nat): State
    decreases n
  {
    if n == 0 then s else GoesOn(Exec(s, WaiterGo(false, true, true)), n - 1)
  }

  lemma {:induction false} ReturnsWithin(s: State) returns (n: nat)
    requires Inv(s) && Woken(s)
    ensures 0 < n <= ReturnDistance(s.waiter) && GoesOn(s, n).waiter.Ready? && !Throwing(GoesOn(s, n).waiter)
    decreases ReturnDistance(s.waiter)
  {
    var e := WaiterGo(false, true, true);
    var s' := Exec(s, e);
    ApproachesReturn(s);
    ExecKeepsInv(s, e);
    if s'.waiter.Ready? {
      n := 1;
      assert GoesOn(s, 1) == GoesOn(s', 0);
    } else {
      var m := ReturnsWithin(s');
      n := m + 1;
    }
  }

  /**
   * A plain notification is delivered: uninterrupted, notified, and with the locks in no other
   * hands, a sleeping thread comes back from its wait normally, within seven steps of its own and
   * without a spurious wakeup or a timeout; the predicate, if there is one, has to hold.
   */
  lemma NotificationIsDelivered(s: State)
    requires Inv(s) && Woken(s) && (s.waiter.AnyAsleep? || s.waiter.TimedAsleep?)
    ensures exists n :: 0 < n <= 7 && GoesOn(s, n).waiter == Ready(Returned)
  {
    var n := ReturnsWithin(s);
    CannotForgetToDecide(s, n);
  }

  /** A notify_all by any other thread is such a notification. */
  lemma PeerNotifies(s: State)
    requires Inv(s) && !s.sh.flag && (s.waiter.AnyAsleep? || s.waiter.TimedAsleep?)
    requires (s.sh.lock == Unlocked || s.sh.lock == HeldByWaiter) && (s.sh.mutex == Free || s.sh.mutex == ByWaiter)
    ensures var s' := Exec(s, if s.waiter.AnyAsleep? then PeerNotifyAny else PeerNotifyTimed);
      Inv(s') && Woken(s') && s'.waiter == s.waiter
  {
    ExecKeepsInv(s, if s.waiter.AnyAsleep? then PeerNotifyAny else PeerNotifyTimed);
  }

  /** A call that returns has an outcome. */
  predicate HasOutcome(pc: WaiterPc) {
    match pc
    case Ready(last) => last != NotCalled
    case AnyClear(out) => out != NotCalled case AnyRelease(out) => out != NotCalled
    case TimedClearLock(out) => out != NotCalled case TimedClear(out) => out != NotCalled
    case TimedClearUnlock(out) => out != NotCalled
    case _ => true
  }

  lemma {:induction false} CannotForgetToDecide(s: State, n: nat)
    requires HasOutcome(s.waiter)
    ensures HasOutcome(GoesOn(s, n).waiter)
    decreases n
  {
    if n > 0 {
      CannotForgetToDecide(Exec(s, WaiterGo(false, true, true)), n - 1);
    }
  }

  /** What may end a wait normally: the thread has slept, or its predicate is found true. */
  predicate Reason(s: State, e: Event) {
    || s.waiter.AnyAsleep? || s.waiter == TimedAsleep(false)
    || (s.waiter == TimedTest(true) && e.WaiterGo? && e.pred)
  }

  ghost predicate HasReason(s: State, es: seq<Event>) {
    exists i :: 0 <= i < |es| && Reason(Run(s, es[..i]), es[i])
  }

  /** Inside a wait, with no reason yet to end it but the flag. */
  predicate WithoutReason(s: State) {
    match s.waiter
    case AnyLock => true case AnyRegister => true case AnyCheck => true case AnyEnqueue => true
    case AnyUnlockCaller => true case AnyUnlockMutex => true case AnyAsleep => true
    case TimedCheck(_) => true case TimedSetLock(_) => true case TimedSet(_) => true case TimedSetUnlock(_) => true
    case TimedTest(_) => true case TimedSleep(_) => true case TimedAsleep(_) => true
    case TimedRelock(p) => p
    case TimedRecheck => s.sh.flag
    case _ => Throwing(s.waiter)
  }

  lemma WithoutReasonStep(s: State, e: Event)
    requires WithoutReason(s) && !e.WaiterCall? && !Reason(s, e)
    ensures WithoutReason(Exec(s, e))
  {
  }

  lemma {:induction false} StaysWithoutReason(s: State, es: seq<Event>)
    requires WithoutReason(s) && StaysInside(es)
    ensures WithoutReason(Run(s, es)) || HasReason(s, es)
  {
    if es != [] {
      var front, e := es[..|es| - 1], es[|es| - 1];
      StaysWithoutReason(s, front);
      if HasReason(s, front) {
        var i :| 0 <= i < |front| && Reason(Run(s, front[..i]), front[i]);
        assert es[..i] == front[..i];
      } else if Reason(Run(s, front), e) {
        assert Reason(Run(s, es[..|es| - 1]), es[|es| - 1]);
      } else {
        hide Exec, WithoutReason;
        WithoutReasonStep(Run(s, front), e);
      }
    }
  }

  /**
   * No wait ends normally for nothing: from its call to a normal return the thread has slept in
   * it, or, in the overload with a predicate, the predicate has been found true.
   */
  lemma ReturnsOnlyWithReason(s: State, es: seq<Event>)
    requires (s.waiter == AnyLock || s.waiter.TimedCheck?) && StaysInside(es) && Run(s, es).waiter == Ready(Returned)
    ensures HasReason(s, es)
  {
    StaysWithoutReason(s, es);
  }

  /** Nothing that would wake a sleeper: no notification, no timeout, no spurious wakeup. */
  predicate Quietly(es: seq<Event>) {
    forall i :: 0 <= i < |es| ==>
      match es[i]
      case WaiterCall(_) => false
      case WaiterGo(early, _, _) => !early
      case SetterGo(_) => false
      case PeerLock(_) => true
      case PeerUnlock(_) => true
      case PeerNotifyAny => false
      case PeerNotifyTimed => false
  }

  /** On the way to sleep or asleep, with no notification received. */
  predicate FallingAsleep(s: State) {
    match s.waiter
    case AnyEnqueue => true
    case AnyUnlockCaller => s.sh.sleep == OnAny(false)
    case AnyUnlockMutex => s.sh.sleep == OnAny(false)
    case AnyAsleep => s.sh.sleep == OnAny(false)
    case TimedSleep(_) => true
    case TimedAsleep(_) => s.sh.sleep == OnTimed(false)
    case _ => false
  }

  /** A thread that goes to sleep stays asleep until something wakes it. */
  lemma {:induction false} SleepsUntilWoken(s: State, es: seq<Event>)
    requires FallingAsleep(s) && Quietly(es)
    ensures FallingAsleep(Run(s, es))
  {
    if es != [] {
      SleepsUntilWoken(s, es[..|es| - 1]);
      SleepStep(Run(s, es[..|es| - 1]), es[|es| - 1]);
    }
  }

  lemma SleepStep(s: State, e: Event)
    requires FallingAsleep(s) && Quietly([e])
    ensures FallingAsleep(Exec(s, e))
  {
    assert [e][0] == e;
  }

  /** A spurious wakeup, or a timeout, may end the sleep at any moment. */
  lemma MayWakeEarly(s: State, pred: bool, callerFirst: bool)
    requires s.waiter.AnyAsleep? || s.waiter.TimedAsleep?
    ensures var s' := Exec(s, WaiterGo(true, pred, callerFirst));
      s'.sh.sleep == Awake && (s'.waiter == AnyRelock(Nothing) || s'.waiter.TimedRelock?)
  {
  }

  /**
   * std::lock: with both locks free either order gets both; and a thread that has one and finds
   * the other busy is left with neither.
   */
  lemma LocksBothOrNeither(s: State, early: bool, pred: bool, callerFirst: bool)
    requires Inv(s) && s.waiter.AnyRelock?
    ensures var s' := Exec(s, WaiterGo(early, pred, callerFirst));
      && (s.waiter.have != Nothing ==>
            || (s'.waiter == AnyRecheck && s'.sh.mutex == ByWaiter && s'.sh.lock == HeldByWaiter)
            || (s'.waiter == AnyRelock(Nothing) && s'.sh.mutex != ByWaiter && s'.sh.lock != HeldByWaiter))
      && (s.waiter.have == Nothing && s.sh.mutex == Free && s.sh.lock == Unlocked ==>
            && s'.waiter == AnyRelock(if callerFirst then CallerLock else FlagMutex)
            && Exec(s', WaiterGo(early, pred, callerFirst)).waiter == AnyRecheck)
  {
  }

  // ----- no deadlock: a schedule that delivers exists from everywhere -----

  lemma {:induction false} RunKeepsOwner(setters: set<nat>, peers: set<nat>, es: seq<Event>)
    ensures OwnerKnown(Run(Init(setters, peers), es))
  {
    if es != [] {
      RunKeepsOwner(setters, peers, es[..|es| - 1]);
      StepTouches(Run(Init(setters, peers), es[..|es| - 1]), es[|es| - 1]);
    }
  }

  lemma {:induction false} RunCons(s: State, e: Event, es: seq<Event>)
    ensures Run(s, [e] + es) == Run(Exec(s, e), es)
    decreases |es|
  {
    if es == [] {
      assert [e] + es == [] + [e];
      RunAppend(s, [], e);
    } else {
      var front, last := es[..|es| - 1], es[|es| - 1];
      RunCons(s, e, front);
      assert [e] + es == [e] + front + [last];
      RunAppend(s, [e] + front, last);
    }
  }

  /** A pending setter, run to its end, notifies the untimed sleeper. */
  lemma PendingNotifies(s: State, t: nat)
    requires Inv(s) && t in s.setters && s.setters[t] == Stored && s.sh.mutex == Free && s.sh.sleep == OnAny(false)
    ensures SetterAlone(s, t, 3) == s.(sh := s.sh.(sleep := OnAny(true)), setters := s.setters[t := Quiet])
  {
    NotifySolo(s.sh, t);
    hide SetterAlone, SetterSolo, Inv;
    SetterAloneIsSolo(s, t, 3);
  }

  lemma NotifySolo(sh: Shared, t: nat)
    requires sh.mutex == Free && sh.sleep == OnAny(false) && sh.cvAny && !sh.cv
    ensures SetterSolo(sh, t, Stored, 3) == (sh.(sleep := OnAny(true)), Quiet)
  {
    var sh1 := sh.(mutex := BySetter(t));
    assert SetterSolo(sh, t, Stored, 3) == SetterSolo(sh1, t, Locked, 2);
    assert SetterSolo(sh1, t, Locked, 2) == SetterSolo(sh1.(sleep := OnAny(true)), t, Notified, 1);
  }

  predicate NoneEarly(es: seq<Event>) {
    forall i :: 0 <= i < |es| && es[i].WaiterGo? ==> !es[i].early
  }

  /** The schedule that runs one setter only, and then the rest. */
  lemma {:induction false} SetterSchedule(s: State, t: nat, n: nat, rest: seq<Event>) returns (es: seq<Event>)
    requires Inv(s)
    ensures NoneEarly(rest) ==> NoneEarly(es)
    ensures Run(s, es) == Run(SetterAlone(s, t, n), rest) && Inv(SetterAlone(s, t, n))
    decreases n
  {
    if n == 0 {
      es := rest;
    } else {
      ExecKeepsInv(s, SetterGo(t));
      var more := SetterSchedule(Exec(s, SetterGo(t)), t, n - 1, rest);
      es := [SetterGo(t)] + more;
      RunCons(s, SetterGo(t), more);
    }
  }

  /** From a state in which both locks are free or the waiter's: run setters when they are needed, else the waiter. */
  lemma {:induction false} ScheduleToExit(s: State) returns (es: seq<Event>)
    requires Inv(s) && Undisturbed(s)
    ensures Run(s, es).waiter == Ready(Interrupted)
    ensures InAny(s.waiter) ==> NoneEarly(es)
    decreases Distance(s.waiter), if s.sh.sleep == OnAny(false) || s.waiter.AnyEnqueue? then 1 else 0
  {
    if s.sh.sleep == OnAny(false) && s.waiter.AnyAsleep? {
      var t := CountWitness(s.setters, Pending);
      PendingNotifies(s, t);
      var s' := SetterAlone(s, t, 3);
      var _ := SetterSchedule(s, t, 3, []);
      var rest := ScheduleToExit(s');
      es := SetterSchedule(s, t, 3, rest);
    } else {
      var e := WaiterGo(InTimed(s.waiter), false, true);
      ExecKeepsInv(s, e);
      var s' := Exec(s, e);
      WaiterMoves(s);
      if s'.waiter == Ready(Interrupted) {
        es := [e];
        RunCons(s, e, []);
        assert [e] + [] == [e];
      } else {
        var rest := ScheduleToExit(s');
        es := [e] + rest;
        RunCons(s, e, rest);
      }
    }
  }

  lemma WaiterMoves(s: State)
    requires Inv(s) && Undisturbed(s) && !(s.sh.sleep == OnAny(false) && s.waiter.AnyAsleep?)
    ensures var s' := Exec(s, WaiterGo(InTimed(s.waiter), false, true));
      && Distance(s'.waiter) < Distance(s.waiter)
      && (s'.waiter == Ready(Interrupted) || Undisturbed(s'))
  {
  }

  /** Nobody but the waiter itself has the caller's lock or cv_mtx_, after at most three steps of the one who has. */
  lemma OthersLetGo(s: State) returns (es: seq<Event>)
    requires Inv(s) && OwnerKnown(s)
    ensures var s' := Run(s, es);
      && Inv(s') && s'.waiter == s.waiter && s'.sh.flag == s.sh.flag
      && (s'.sh.lock == Unlocked || s'.sh.lock == HeldByWaiter)
      && (s'.sh.mutex == Free || s'.sh.mutex == ByWaiter)
    ensures NoneEarly(es)
  {
    es := [];
    var s1 := s;
    if s.sh.lock.HeldByPeer? {
      es := [PeerUnlock(s.sh.lock.tid)];
      s1 := Exec(s, es[0]);
      ExecKeepsInv(s, es[0]);
      RunCons(s, es[0], []);
      assert es == [es[0]] + [];
    }
    if s1.sh.mutex.BySetter? {
      var t := s1.sh.mutex.tid;
      var n := if s1.setters[t] == Locked then 2 else 1;
      SetterLetsGo(s1, t);
      var tail := SetterSchedule(s1, t, n, []);
      if es == [] {
        es := tail;
      } else {
        RunCons(s, es[0], tail);
        es := [es[0]] + tail;
      }
    }
  }

  lemma SetterLetsGo(s: State, t: nat)
    requires Inv(s) && t in s.setters && s.sh.mutex == BySetter(t)
    ensures var s' := SetterAlone(s, t, if s.setters[t] == Locked then 2 else 1);
      s'.waiter == s.waiter && s'.sh.flag == s.sh.flag && s'.sh.lock == s.sh.lock && s'.sh.mutex == Free
  {
    var s1 := Exec(s, SetterGo(t));
    if s.setters[t] == Locked {
      assert SetterAlone(s, t, 2) == SetterAlone(s1, t, 1) == Exec(s1, SetterGo(t));
    } else {
      assert SetterAlone(s, t, 1) == s1;
    }
  }

  /**
   * No deadlock: from every reachable state in which an interrupted wait has not made its last
   * test, whoever holds the locks and however many calls of `set` are half done, some schedule
   * ends the wait by throwing. For the untimed wait it needs no spurious wakeup.
   */
  lemma InterruptCanAlwaysLand(setters: set<nat>, peers: set<nat>, es: seq<Event>)
    requires var s := Run(Init(setters, peers), es);
      s.sh.flag && (InAny(s.waiter) || InTimed(s.waiter)) && !Decided(s.waiter)
    ensures var s := Run(Init(setters, peers), es);
      exists more :: Run(s, more).waiter == Ready(Interrupted) && (InAny(s.waiter) ==> NoneEarly(more))
  {
    RunKeepsInv(setters, peers, es);
    RunKeepsOwner(setters, peers, es);
    var s := Run(Init(setters, peers), es);
    var first := OthersLetGo(s);
    var second := ScheduleToExit(Run(s, first));
    RunConcat(s, first, second);
    assert Run(s, first + second).waiter == Ready(Interrupted);
  }

  lemma {:induction false} RunConcat(s: State, a: seq<Event>, b: seq<Event>)
    ensures Run(s, a + b) == Run(Run(s, a), b)
    decreases |b|
  {
    if b == [] {
      assert a + b == a;
    } else {
      RunConcat(s, a, b[..|b| - 1]);
      assert a + b == a + b[..|b| - 1] + [b[|b| - 1]];
      RunAppend(s, a + b[..|b| - 1], b[|b| - 1]);
    }
  }

  // ----- why the condition_variable overloads poll -----

  /**
   * The timed overloads test the flag without cv_mtx_, so a notification can be missed: whenever
   * the thread has tested the flag and is about to sleep, a call of `set` that runs in between
   * leaves it asleep, not notified, with the flag set and no call of `set` under way.
   */
  lemma TimedWaitMissesNotification(setters: set<nat>, peers: set<nat>, es: seq<Event>, t: nat)
    requires var s := Run(Init(setters, peers), es);
      s.waiter.TimedSleep? && t in s.setters && s.setters[t] == Quiet && s.sh.mutex == Free
      && Count(s.setters, Pending) == 0
    ensures var s := Run(Init(setters, peers), es);
      var s' := Exec(SetterAlone(s, t, 4), WaiterGo(false, false, false));
      s'.sh.flag && s'.sh.sleep == OnTimed(false) && s'.setters == s.setters
  {
    RunKeepsInv(setters, peers, es);
    SetWhileAwake(Run(Init(setters, peers), es), t);
  }

  /** Asleep in a timed wait, not notified, with the flag set and nobody left to notify. */
  ghost predicate TimedLost(s: State) {
    s.sh.flag && s.sh.sleep == OnTimed(false) && Count(s.setters, Pending) == 0
  }

  /**
   * Exactly when a timed wait is left to its timeout: some reachable step loses the notification
   * if and only if it is the step that falls asleep, taken with the flag already set and every
   * call of `set` past its notification.
   */
  lemma TimedLostIff(setters: set<nat>, peers: set<nat>, es: seq<Event>, e: Event)
    requires !TimedLost(Run(Init(setters, peers), es))
    ensures var s := Run(Init(setters, peers), es);
      TimedLost(Exec(s, e)) <==>
        e.WaiterGo? && s.waiter.TimedSleep? && s.sh.flag && Count(s.setters, Pending) == 0
  {
    RunKeepsInv(setters, peers, es);
    var s := Run(Init(setters, peers), es);
    match e
    case WaiterCall(call) => CallStepOk(s.sh, s.waiter, call);
    case WaiterGo(early, pred, callerFirst) =>
      if InAny(s.waiter) {
        AnyStepOk(s.sh, s.waiter, early, callerFirst);
      } else if InTimed(s.waiter) {
        TimedStepOk(s.sh, s.waiter, early, pred);
      }
    case SetterGo(t) =>
      if t in s.setters {
        SetterMissesNobody(s.sh, t, s.setters[t], s.waiter);
        CountUpdate(s.setters, t, SetterStep(s.sh, t, s.setters[t]).1, Pending);
        if SetterStep(s.sh, t, s.setters[t]).1 == Stored {
          CountPositive(Exec(s, e).setters, t, Pending);
        }
      }
    case _ =>
  }

  /** A step of `set` never leaves a timed sleeper that it found un-notified without a notification to come. */
  lemma SetterMissesNobody(sh: Shared, t: nat, pc: SetterPc, waiter: WaiterPc)
    requires WaiterOk(sh, waiter)
    ensures var (sh', pc') := SetterStep(sh, t, pc);
      sh'.flag && sh'.sleep == OnTimed(false) ==>
        Pending(pc') || (!Pending(pc) && sh.flag && sh.sleep == OnTimed(false))
  {
  }

  function SetterAlone(s: State, t: nat, n: nat): State
    decreases n
  {
    if n == 0 then s else SetterAlone(Exec(s, SetterGo(t)), t, n - 1)
  }

  function SetterSolo(sh: Shared, t: nat, pc: SetterPc, n: nat): (Shared, SetterPc)
    decreases n
  {
    if n == 0 then (sh, pc) else var (sh1, pc1) := SetterStep(sh, t, pc); SetterSolo(sh1, t, pc1, n - 1)
  }

  lemma {:induction false} SetterAloneIsSolo(s: State, t: nat, n: nat)
    requires t in s.setters
    ensures var (sh, pc) := SetterSolo(s.sh, t, s.setters[t], n);
      SetterAlone(s, t, n) == s.(sh := sh, setters := s.setters[t := pc])
    decreases n
  {
    if n == 0 {
      assert s.setters == s.setters[t := s.setters[t]];
    } else {
      SetterAloneIsSolo(Exec(s, SetterGo(t)), t, n - 1);
    }
  }

  lemma SetSolo(sh: Shared, t: nat)
    requires sh.mutex == Free && sh.sleep == Awake
    ensures SetterSolo(sh, t, Quiet, 4) == (sh.(flag := true), Quiet)
  {
    var set1 := sh.(flag := true);
    assert SetterSolo(sh, t, Quiet, 4) == SetterSolo(set1, t, Stored, 3);
    assert SetterSolo(set1, t, Stored, 3) == SetterSolo(set1.(mutex := BySetter(t)), t, Locked, 2);
    assert SetterSolo(set1.(mutex := BySetter(t)), t, Locked, 2) == (set1, Quiet);
  }

  /** A whole call of `set` while the thread is not queued on anything. */
  lemma SetWhileAwake(s: State, t: nat)
    requires t in s.setters && s.setters[t] == Quiet && s.sh.mutex == Free && s.sh.sleep == Awake
    ensures SetterAlone(s, t, 4) == s.(sh := s.sh.(flag := true))
  {
    hide SetterAlone, SetterSolo;
    SetterAloneIsSolo(s, t, 4);
    SetSolo(s.sh, t);
    assert s.setters[t := Quiet] == s.setters;
  }

  function Gos(n: nat): seq<Event> {
    if n == 0 then [] else Gos(n - 1) + [WaiterGo(false, false, false)]
  }

  function WaiterSolo(sh: Shared, pc: WaiterPc, n: nat): (Shared, WaiterPc)
    decreases n
  {
    if n == 0 then (sh, pc)
    else var (sh1, pc1) := WaiterSolo(sh, pc, n - 1); WaiterStep(sh1, pc1, false, false, false)
  }

  lemma {:induction false} RunGos(s: State, es: seq<Event>, n: nat)
    ensures var r := Run(s, es); var (sh, pc) := WaiterSolo(r.sh, r.waiter, n);
      Run(s, es + Gos(n)) == r.(sh := sh, waiter := pc)
  {
    if n == 0 {
      assert es + Gos(0) == es;
    } else {
      RunGos(s, es, n - 1);
      assert es + Gos(n) == es + Gos(n - 1) + [WaiterGo(false, false, false)];
      RunAppend(s, es + Gos(n - 1), WaiterGo(false, false, false));
    }
  }

  lemma TimedSolo(sh: Shared, p: bool)
    requires !sh.flag && sh.mutex == Free
    ensures WaiterSolo(sh, TimedCheck(p), 5) == (sh.(cv := true), TimedSleep(p))
  {
    var pc := TimedCheck(p);
    assert WaiterSolo(sh, pc, 1) == (sh, TimedSetLock(p));
    assert WaiterSolo(sh, pc, 2) == (sh.(mutex := ByWaiter), TimedSet(p));
    assert WaiterSolo(sh, pc, 3) == (sh.(mutex := ByWaiter, cv := true), TimedSetUnlock(p));
    assert WaiterSolo(sh, pc, 4) == (sh.(cv := true), TimedTest(p));
  }

  /** Such a moment occurs: the first timed wait of a thread reaches it undisturbed. */
  lemma TimedWaitGetsThere(setters: set<nat>, peers: set<nat>, p: bool)
    ensures var s0 := Init(setters, peers);
      var es := [WaiterCall(Enter), WaiterCall(CallTimed(p))] + Gos(5);
      Run(s0, es) == s0.(sh := s0.sh.(cv := true, lock := HeldByWaiter), waiter := TimedSleep(p))
  {
    hide WaiterSolo, WaiterStep, Gos;
    var s0 := Init(setters, peers);
    var es := [WaiterCall(Enter), WaiterCall(CallTimed(p))];
    RunTwo(s0, [], es[0], es[1]);
    assert [] + es == es;
    RunGos(s0, es, 5);
    TimedSolo(s0.sh.(lock := HeldByWaiter), p);
  }

  lemma RunAppend(s: State, es: seq<Event>, e: Event)
    ensures Run(s, es + [e]) == Exec(Run(s, es), e)
  {
    assert (es + [e])[..|es|] == es;
  }

  lemma AnySolo(sh: Shared)
    requires !sh.flag && sh.mutex == Free
    ensures WaiterSolo(sh, AnyLock, 6) == (sh.(cvAny := true, lock := Unlocked, sleep := OnAny(false)), AnyAsleep)
  {
    var sh1 := sh.(mutex := ByWaiter, cvAny := true);
    assert WaiterSolo(sh, AnyLock, 1) == (sh.(mutex := ByWaiter), AnyRegister);
    assert WaiterSolo(sh, AnyLock, 2) == (sh1, AnyCheck);
    assert WaiterSolo(sh, AnyLock, 3) == (sh1, AnyEnqueue);
    assert WaiterSolo(sh, AnyLock, 4) == (sh1.(sleep := OnAny(false)), AnyUnlockCaller);
    assert WaiterSolo(sh, AnyLock, 5) == (sh1.(sleep := OnAny(false), lock := Unlocked), AnyUnlockMutex);
  }

  /** An uninterrupted, undisturbed call of the untimed wait ends up asleep, registered, with both locks free. */
  lemma UntimedWaitGetsToSleep(setters: set<nat>, peers: set<nat>)
    ensures var s0 := Init(setters, peers);
      var es := [WaiterCall(Enter), WaiterCall(CallAny)] + Gos(6);
      Run(s0, es) == s0.(sh := s0.sh.(cvAny := true, sleep := OnAny(false)), waiter := AnyAsleep)
  {
    hide WaiterSolo, WaiterStep, Gos;
    var s0 := Init(setters, peers);
    var es := [WaiterCall(Enter), WaiterCall(CallAny)];
    RunTwo(s0, [], es[0], es[1]);
    assert [] + es == es;
    RunGos(s0, es, 6);
    AnySolo(s0.sh.(lock := HeldByWaiter));
  }

  lemma RunTwo(s: State, es: seq<Event>, e: Event, f: Event)
    ensures Run(s, es + [e, f]) == Exec(Exec(Run(s, es), e), f)
  {
    hide *;
    RunAppend(s, es, e);
    RunAppend(s, es + [e], f);
    assert es + [e, f] == es + [e] + [f];
  }

  // ----- the objects themselves -----

  /**
   * The flag object with the lock and the sleeping queue it works on, changed in place by one
   * atomic operation at a time.
   */
  class InterruptFlag {
    var flag: bool
    var cvMtx: MutexOwner
    var cv: bool
    var cvAny: bool
    var callerLock: LockOwner
    var sleep: Sleep
    var waiter: WaiterPc
    var setters: map<nat, SetterPc>
    const peers: set<nat>

    ghost function View(): State
      reads this
    {
      State(Shared(flag, cvMtx, cv, cvAny, callerLock, sleep), waiter, setters, peers)
    }

    constructor (setters: set<nat>, peers: set<nat>)
      ensures View() == Init(setters, peers)
    {
      flag, cvMtx, cv, cvAny, callerLock, sleep := false, Free, false, false, Unlocked, Awake;
      waiter := Away;
      this.setters := map t | t in setters :: Quiet;
      this.peers := peers;
    }

    method NotifyAllAny()
      modifies `sleep
      ensures old(View()).sh.(sleep := sleep) == NotifyAny(old(View()).sh)
    {
      if sleep.OnAny? { sleep := OnAny(true); }
    }

    method NotifyAllTimed()
      modifies `sleep
      ensures old(View()).sh.(sleep := sleep) == NotifyTimed(old(View()).sh)
    {
      if sleep.OnTimed? { sleep := OnTimed(true); }
    }

    method Set(t: nat)
      requires t in setters
      modifies `flag, `cvMtx, `sleep, `setters
      ensures var (sh, pc) := SetterStep(old(View()).sh, t, old(setters)[t]);
        View().sh == sh && setters == old(setters)[t := pc]
    {
      match setters[t]
      case Quiet => flag := true; setters := setters[t := Stored];
      case Stored =>
        if cvMtx == Free { cvMtx := BySetter(t); setters := setters[t := Locked]; }
        else { assert setters == setters[t := setters[t]]; }
      case Locked =>
        if cv { NotifyAllTimed(); } else if cvAny { NotifyAllAny(); }
        setters := setters[t := Notified];
      case Notified => cvMtx := Free; setters := setters[t := Quiet];
    }

    method LockBoth(callerFirst: bool)
      requires waiter.AnyRelock?
      modifies `waiter, `cvMtx, `callerLock
      ensures (View().sh, waiter) == RelockStep(old(View()).sh, old(waiter).have, callerFirst)
    {
      match waiter.have
      case Nothing =>
        if callerFirst {
          if callerLock == Unlocked { callerLock := HeldByWaiter; waiter := AnyRelock(CallerLock); }
        } else if cvMtx == Free { cvMtx := ByWaiter; waiter := AnyRelock(FlagMutex); }
      case FlagMutex =>
        if callerLock == Unlocked { callerLock := HeldByWaiter; waiter := AnyRecheck; }
        else { cvMtx := Free; waiter := AnyRelock(Nothing); }
      case CallerLock =>
        if cvMtx == Free { cvMtx := ByWaiter; waiter := AnyRecheck; }
        else { callerLock := Unlocked; waiter := AnyRelock(Nothing); }
    }

    method Wait(early: bool, callerFirst: bool)
      requires InAny(waiter)
      modifies `waiter, `cvMtx, `callerLock, `sleep, `cvAny
      ensures (View().sh, waiter) == AnyStep(old(View()).sh, old(waiter), early, callerFirst)
    {
      match waiter
      case AnyLock => if cvMtx == Free { cvMtx := ByWaiter; waiter := AnyRegister; }
      case AnyRegister => cvAny := true; waiter := AnyCheck;
      case AnyCheck => waiter := if flag then AnyClear(Interrupted) else AnyEnqueue;
      case AnyEnqueue => sleep := OnAny(false); waiter := AnyUnlockCaller;
      case AnyUnlockCaller => callerLock := Unlocked; waiter := AnyUnlockMutex;
      case AnyUnlockMutex => cvMtx := Free; waiter := AnyAsleep;
      case AnyAsleep => if early || sleep == OnAny(true) { sleep := Awake; waiter := AnyRelock(Nothing); }
      case AnyRelock(_) => LockBoth(callerFirst);
      case AnyRecheck => waiter := AnyClear(if flag then Interrupted else Returned);
      case AnyClear(out) => cvAny := false; waiter := AnyRelease(out);
      case AnyRelease(out) => cvMtx := Free; waiter := Ready(out);
    }

    method TimedWait(early: bool, pred: bool)
      requires InTimed(waiter)
      modifies `waiter, `cvMtx, `callerLock, `sleep, `cv
      ensures (View().sh, waiter) == TimedStep(old(View()).sh, old(waiter), early, pred)
    {
      match waiter
      case TimedCheck(p) => waiter := if flag then Ready(Interrupted) else TimedSetLock(p);
      case TimedSetLock(p) => if cvMtx == Free { cvMtx := ByWaiter; waiter := TimedSet(p); }
      case TimedSet(p) => cv := true; waiter := TimedSetUnlock(p);
      case TimedSetUnlock(p) => cvMtx := Free; waiter := TimedTest(p);
      case TimedTest(p) =>
        if p { waiter := if flag || pred then TimedRecheck else TimedSleep(p); }
        else { waiter := if flag then TimedClearLock(Interrupted) else TimedSleep(p); }
      case TimedSleep(p) => sleep, callerLock := OnTimed(false), Unlocked; waiter := TimedAsleep(p);
      case TimedAsleep(p) => if early || sleep == OnTimed(true) { sleep := Awake; waiter := TimedRelock(p); }
      case TimedRelock(p) =>
        if callerLock == Unlocked { callerLock := HeldByWaiter; waiter := if p then TimedTest(p) else TimedRecheck; }
      case TimedRecheck => waiter := TimedClearLock(if flag then Interrupted else Returned);
      case TimedClearLock(out) => if cvMtx == Free { cvMtx := ByWaiter; waiter := TimedClear(out); }
      case TimedClear(out) => cv := false; waiter := TimedClearUnlock(out);
      case TimedClearUnlock(out) => cvMtx := Free; waiter := Ready(out);
    }

    method Call(call: Call)
      modifies `callerLock, `waiter
      ensures (View().sh, waiter) == CallStep(old(View()).sh, old(waiter), call)
    {
      match call
      case Enter => if waiter.Away? && callerLock == Unlocked { callerLock := HeldByWaiter; waiter := Ready(NotCalled); }
      case Leave => if waiter.Ready? { callerLock := Unlocked; waiter := Away; }
      case CallAny => if waiter.Ready? { waiter := AnyLock; }
      case CallTimed(p) => if waiter.Ready? { waiter := TimedCheck(p); }
    }

    /** Any schedule at all: the objects go through the run of the machine. */
    method Drive(es: seq<Event>)
      modifies this
      ensures View() == Run(old(View()), es)
    {
      for i := 0 to |es|
        invariant View() == Run(old(View()), es[..i])
      {
        assert es[..i + 1] == es[..i] + [es[i]];
        RunAppend(old(View()), es[..i], es[i]);
        match es[i]
        case WaiterCall(call) => Call(call);
        case WaiterGo(early, pred, callerFirst) =>
          if InAny(waiter) { Wait(early, callerFirst); }
          else if InTimed(waiter) { TimedWait(early, pred); }
        case SetterGo(t) => if t in setters { Set(t); }
        case PeerLock(p) => if p in peers && callerLock == Unlocked { callerLock := HeldByPeer(p); }
        case PeerUnlock(p) => if callerLock == HeldByPeer(p) { callerLock := Unlocked; }
        case PeerNotifyAny => NotifyAllAny();
        case PeerNotifyTimed => NotifyAllTimed();
      }
      assert es[..|es|] == es;
    }
  }
}
