/** The condition variable: waiter counts under two locks, a gate semaphore that keeps
    newcomers out while wake-ups are owed, and a queue semaphore that carries the tokens.
    Each step is one semaphore, mutex or memory operation of the C functions. */
module CondVar {
  import opened Counting

  const INT_MAX: int := 0x7FFF_FFFF
  const GONE_LIMIT: int := INT_MAX / 2

  datatype Pc =
    | Idle
    // pthread_cond_wait and pthread_cond_timedwait
    | WaitGate
    | RegLoad
    | RegStore(loaded: int)
    | RegPost
    | ExtUnlock
    | Waiting
    // ptw32_cond_wait_cleanup
    | Leave(token: bool)
    | Dereg(token: bool)
    | RenormWait
    | RenormSub
    | RenormPost
    | RenormClear
    | Release(left: int)
    | Open
    | Relock
    // ptw32_cond_unblock
    | SigLock(all: bool)
    | SigTest(all: bool)
    | SigGate(all: bool)
    | SigMove(all: bool)
    | SigRelease(n: int)
    | SigPost(n: int)
    // pthread_cond_destroy
    | DesGate
    | DesTry
    | DesBusy
    | DesCheck
    | DesPost
    | DesRelease

  /** `ext`: the thread holds the caller's own mutex. */
  datatype Thread = Thread(pc: Pc, ext: bool)

  datatype State = State(
    blocked: int, gone: int, toUnblock: int,
    gate: int, queue: int, mtx: bool,
    ext: bool, alive: bool,
    threads: seq<Thread>)

  /** What the scheduler lets a thread do next. `Interrupt` ends a wait by timeout or
      cancellation; a `Go` at an operation that would block changes nothing. */
  datatype Move = Go | Interrupt | CallWait | CallSignal(all: bool) | CallDestroy | LockExt | UnlockExt

  function Init(n: nat): State {
    State(0, 0, 0, 1, 0, false, false, true, seq(n, i => Thread(Idle, false)))
  }

  function Goto(s: State, t: nat, pc: Pc): (r: State)
    requires t < |s.threads|
  {
    s.(threads := s.threads[t := s.threads[t].(pc := pc)])
  }

  function Step(s: State, t: nat, m: Move): State {
    if t >= |s.threads| || !s.alive then s
    else
      var pc := s.threads[t].pc;
      if pc.Idle? then CallStep(s, t, m)
      else if m.Interrupt? then
        if pc.WaitGate? then Goto(s, t, Idle)
        else if pc.Waiting? then Goto(s, t, Leave(false))
        else s
      else if !m.Go? then s
      else if WaitPc(pc) then WaitStep(s, t)
      else if CleanupPc(pc) then CleanupStep(s, t)
      else if UnblockPc(pc) then UnblockStep(s, t)
      else DestroyStep(s, t)
  }

  predicate WaitPc(pc: Pc) {
    pc.WaitGate? || pc.RegLoad? || pc.RegStore? || pc.RegPost? || pc.ExtUnlock? || pc.Waiting?
  }

  predicate CleanupPc(pc: Pc) {
    pc.Leave? || pc.Dereg? || pc.RenormWait? || pc.RenormSub? || pc.RenormPost? || pc.RenormClear?
    || pc.Release? || pc.Open? || pc.Relock?
  }

  predicate UnblockPc(pc: Pc) {
    pc.SigLock? || pc.SigTest? || pc.SigGate? || pc.SigMove? || pc.SigRelease? || pc.SigPost?
  }

  predicate DestroyPc(pc: Pc) {
    pc.DesGate? || pc.DesTry? || pc.DesBusy? || pc.DesCheck? || pc.DesPost? || pc.DesRelease?
  }

  /** An idle thread enters one of the functions, or takes or drops its own mutex.
      Waiting requires holding that mutex; signalling and destroying do not. */
  function CallStep(s: State, t: nat, m: Move): State
    requires t < |s.threads|
  {
    var held := s.threads[t].ext;
    match m
    case CallWait => if held then Goto(s, t, WaitGate) else s
    case CallSignal(all) => Goto(s, t, SigLock(all))
    case CallDestroy => Goto(s, t, DesGate)
    case LockExt => if s.ext then s else s.(ext := true, threads := s.threads[t := Thread(Idle, true)])
    case UnlockExt => if held then s.(ext := false, threads := s.threads[t := Thread(Idle, false)]) else s
    case _ => s
  }

  function WaitStep(s: State, t: nat): State
    requires t < |s.threads| && WaitPc(s.threads[t].pc)
  {
    match s.threads[t].pc
    case WaitGate => if s.gate > 0 then Goto(s, t, RegLoad).(gate := s.gate - 1) else s
    case RegLoad => Goto(s, t, RegStore(s.blocked))
    case RegStore(loaded) => Goto(s, t, RegPost).(blocked := loaded + 1)
    case RegPost => Goto(s, t, ExtUnlock).(gate := s.gate + 1)
    case ExtUnlock => s.(ext := false, threads := s.threads[t := Thread(Waiting, false)])
    case Waiting => if s.queue > 0 then Goto(s, t, Leave(true)).(queue := s.queue - 1) else s
  }

  function CleanupStep(s: State, t: nat): State
    requires t < |s.threads| && CleanupPc(s.threads[t].pc)
  {
    match s.threads[t].pc
    case Leave(token) => if s.mtx then s else Goto(s, t, Dereg(token)).(mtx := true)
    case Dereg(_) =>
      if s.toUnblock != 0 then
        Goto(s, t, Release(s.toUnblock)).(toUnblock := s.toUnblock - 1)
      else if s.gone + 1 == GONE_LIMIT then
        Goto(s, t, RenormWait).(gone := s.gone + 1)
      else
        Goto(s, t, Release(0)).(gone := s.gone + 1)
    case RenormWait => if s.gate > 0 then Goto(s, t, RenormSub).(gate := s.gate - 1) else s
    case RenormSub => Goto(s, t, RenormPost).(blocked := s.blocked - s.gone)
    case RenormPost => Goto(s, t, RenormClear).(gate := s.gate + 1)
    case RenormClear => Goto(s, t, Release(0)).(gone := 0)
    case Release(left) => Goto(s, t, if left == 1 then Open else Relock).(mtx := false)
    case Open => Goto(s, t, Relock).(gate := s.gate + 1)
    case Relock => if s.ext then s else s.(ext := true, threads := s.threads[t := Thread(Idle, true)])
  }

  function UnblockStep(s: State, t: nat): State
    requires t < |s.threads| && UnblockPc(s.threads[t].pc)
  {
    match s.threads[t].pc
    case SigLock(all) => if s.mtx then s else Goto(s, t, SigTest(all)).(mtx := true)
    case SigTest(all) =>
      if s.toUnblock != 0 then
        if s.blocked == 0 then Goto(s, t, SigRelease(0))
        else if all then
          Goto(s, t, SigRelease(s.blocked)).(toUnblock := s.toUnblock + s.blocked, blocked := 0)
        else
          Goto(s, t, SigRelease(1)).(toUnblock := s.toUnblock + 1, blocked := s.blocked - 1)
      else if s.blocked > s.gone then Goto(s, t, SigGate(all))
      else Goto(s, t, SigRelease(0))
    case SigGate(all) => if s.gate > 0 then Goto(s, t, SigMove(all)).(gate := s.gate - 1) else s
    case SigMove(all) =>
      var waiters := s.blocked - s.gone;
      if all then
        Goto(s, t, SigRelease(waiters)).(toUnblock := waiters, blocked := 0, gone := 0)
      else
        Goto(s, t, SigRelease(1)).(toUnblock := 1, blocked := waiters - 1, gone := 0)
    case SigRelease(n) => Goto(s, t, if n == 0 then Idle else SigPost(n)).(mtx := false)
    case SigPost(n) => Goto(s, t, Idle).(queue := s.queue + n)
  }

  function DestroyStep(s: State, t: nat): State
    requires t < |s.threads|
  {
    match s.threads[t].pc
    case DesGate => if s.gate > 0 then Goto(s, t, DesTry).(gate := s.gate - 1) else s
    case DesTry => if s.mtx then Goto(s, t, DesBusy) else Goto(s, t, DesCheck).(mtx := true)
    case DesBusy => Goto(s, t, Idle).(gate := s.gate + 1)
    case DesCheck => if s.blocked > s.gone then Goto(s, t, DesPost) else Goto(s, t, Idle).(alive := false)
    case DesPost => Goto(s, t, DesRelease).(gate := s.gate + 1)
    case DesRelease => Goto(s, t, Idle).(mtx := false)
    case _ => s
  }

  function Run(s: State, schedule: seq<(nat, Move)>): State
    decreases |schedule|
  {
    if schedule == [] then s else Run(Step(s, schedule[0].0, schedule[0].1), schedule[1..])
  }

  // ---- what a thread contributes to the counts ----

  function HoldsMtx(th: Thread): nat {
    B2N(th.pc.Dereg? || th.pc.RenormWait? || th.pc.RenormSub? || th.pc.RenormPost? || th.pc.RenormClear?
        || th.pc.Release? || th.pc.SigTest? || th.pc.SigGate? || th.pc.SigMove? || th.pc.SigRelease?
        || th.pc.DesCheck? || th.pc.DesPost? || th.pc.DesRelease?)
  }

  /** The thread has taken the gate semaphore and will post it, or took the last owed
      wake-up off and will post it on behalf of the signaller. */
  function OwesGate(th: Thread): nat {
    B2N(th.pc.RegLoad? || th.pc.RegStore? || th.pc.RegPost? || th.pc.RenormSub? || th.pc.RenormPost?
        || th.pc.SigMove? || th.pc.DesTry? || th.pc.DesBusy? || th.pc.DesCheck? || th.pc.DesPost?
        || (th.pc.Release? && th.pc.left == 1) || th.pc.Open?)
  }

  /** Counted in by `++nWaitersBlocked` and not yet counted out by the cleanup handler. */
  function Registered(th: Thread): nat {
    B2N(th.pc.RegPost? || th.pc.ExtUnlock? || th.pc.Waiting? || th.pc.Leave? || th.pc.Dereg?)
  }

  /** Tokens a thread is about to post, or took and has not yet answered for. */
  function Tokens(th: Thread): nat {
    match th.pc
    case Leave(token) => B2N(token)
    case Dereg(token) => B2N(token)
    case SigRelease(n) => if n < 0 then 0 else n
    case SigPost(n) => if n < 0 then 0 else n
    case _ => 0
  }

  function Renormalising(th: Thread): nat {
    B2N(th.pc.RenormWait? || th.pc.RenormSub? || th.pc.RenormPost? || th.pc.RenormClear?)
  }

  /** `nWaitersGone` has been subtracted already, but not yet been cleared. */
  function Subtracted(th: Thread): nat { B2N(th.pc.RenormPost? || th.pc.RenormClear?) }

  function HoldsExt(th: Thread): nat { B2N(th.ext) }

  function EffGone(s: State): int { if Sum(s.threads, Subtracted) > 0 then 0 else s.gone }

  predicate ThreadOk(s: State, th: Thread) {
    && (th.pc.RegStore? ==> th.pc.loaded == s.blocked)
    && (th.pc.RenormWait? || th.pc.RenormSub? || th.pc.RenormPost? || th.pc.RenormClear? ==>
          s.toUnblock == 0 && s.gone == GONE_LIMIT)
    && (th.pc.SigGate? || th.pc.SigMove? ==> s.toUnblock == 0 && s.blocked > s.gone)
    && (th.pc.SigRelease? ==> th.pc.n >= 0)
    && (th.pc.SigPost? ==> th.pc.n > 0)
    && (th.pc.WaitGate? || th.pc.RegLoad? || th.pc.RegStore? || th.pc.RegPost? || th.pc.ExtUnlock? ==> th.ext)
    && (th.pc.Waiting? || CleanupPc(th.pc) ==> !th.ext)
  }

  ghost predicate Inv(s: State) {
    && Counts(s)
    && forall i :: 0 <= i < |s.threads| ==> ThreadOk(s, s.threads[i])
  }

  ghost predicate Counts(s: State) {
    && s.gone >= 0 && s.toUnblock >= 0 && s.gate >= 0 && s.queue >= 0
    && s.gate + Sum(s.threads, OwesGate) + B2N(s.toUnblock > 0) == 1
    && Sum(s.threads, HoldsMtx) == B2N(s.mtx)
    && Sum(s.threads, Registered) == s.blocked - EffGone(s) + s.toUnblock
    && EffGone(s) <= s.blocked
    && (s.toUnblock > 0 ==> s.gone == 0)
    && s.queue + Sum(s.threads, Tokens) >= s.toUnblock
    && (s.gone < GONE_LIMIT || (s.gone == GONE_LIMIT && Sum(s.threads, Renormalising) > 0))
    && Sum(s.threads, HoldsExt) == B2N(s.ext)
  }

  // ---- every step keeps the invariant ----

  /** What one thread's place says about all the others. */
  lemma Alone(s: State, t: nat)
    requires Inv(s) && t < |s.threads|
    ensures HoldsMtx(s.threads[t]) == 1 ==>
      s.mtx && forall j :: 0 <= j < |s.threads| && j != t ==> HoldsMtx(s.threads[j]) == 0
    ensures OwesGate(s.threads[t]) == 1 ==>
      s.gate == 0 && s.toUnblock == 0 && forall j :: 0 <= j < |s.threads| && j != t ==> OwesGate(s.threads[j]) == 0
    ensures s.toUnblock > 0 ==> s.gate == 0 && forall j :: 0 <= j < |s.threads| ==> OwesGate(s.threads[j]) == 0
    ensures s.gate > 0 ==> s.toUnblock == 0 && forall j :: 0 <= j < |s.threads| ==> OwesGate(s.threads[j]) == 0
    ensures !s.mtx ==> forall j :: 0 <= j < |s.threads| ==> HoldsMtx(s.threads[j]) == 0
    ensures s.threads[t].ext ==> s.ext
    ensures Subtracted(s.threads[t]) == 1 ==> Sum(s.threads, Subtracted) > 0
    ensures Renormalising(s.threads[t]) == 1 ==> Sum(s.threads, Renormalising) > 0
    ensures Registered(s.threads[t]) == 1 ==> Sum(s.threads, Registered) > 0
    ensures HoldsMtx(s.threads[t]) == 1 && Subtracted(s.threads[t]) == 0 ==> Sum(s.threads, Subtracted) == 0
    ensures HoldsMtx(s.threads[t]) == 1 && Renormalising(s.threads[t]) == 0 ==> Sum(s.threads, Renormalising) == 0
    ensures !s.mtx ==> Sum(s.threads, Renormalising) == 0 == Sum(s.threads, Subtracted)
  {
    SumBounds(s.threads, t, HoldsMtx);
    SumBounds(s.threads, t, OwesGate);
    SumBounds(s.threads, t, HoldsExt);
    SumBounds(s.threads, t, Subtracted);
    SumBounds(s.threads, t, Renormalising);
    SumBounds(s.threads, t, Registered);
    if HoldsMtx(s.threads[t]) == 1 {
      SumExclusive(s.threads, t, HoldsMtx);
      if Subtracted(s.threads[t]) == 0 { SumAllZero(s.threads, Subtracted); }
      if Renormalising(s.threads[t]) == 0 { SumAllZero(s.threads, Renormalising); }
    }
    if OwesGate(s.threads[t]) == 1 { SumExclusive(s.threads, t, OwesGate); }
    if s.toUnblock > 0 || s.gate > 0 { SumZero(s.threads, OwesGate); }
    if !s.mtx {
      SumZero(s.threads, HoldsMtx);
      SumAllZero(s.threads, Subtracted);
      SumAllZero(s.threads, Renormalising);
    }
  }

  lemma InitInv(n: nat)
    ensures Inv(Init(n))
  {
    var th := Init(n).threads;
    SumAllZero(th, OwesGate);
    SumAllZero(th, HoldsMtx);
    SumAllZero(th, Registered);
    SumAllZero(th, Subtracted);
    SumAllZero(th, Tokens);
    SumAllZero(th, Renormalising);
    SumAllZero(th, HoldsExt);
  }

  /** A step of one thread moves every count by that thread's own change. */
  lemma Moved(s: State, s': State, t: nat)
    requires Inv(s) && t < |s.threads| && |s'.threads| == |s.threads|
    requires s'.threads == s.threads[t := s'.threads[t]]
    ensures Sum(s'.threads, OwesGate) + OwesGate(s.threads[t]) == Sum(s.threads, OwesGate) + OwesGate(s'.threads[t])
    ensures Sum(s'.threads, HoldsMtx) + HoldsMtx(s.threads[t]) == Sum(s.threads, HoldsMtx) + HoldsMtx(s'.threads[t])
    ensures Sum(s'.threads, Registered) + Registered(s.threads[t]) == Sum(s.threads, Registered) + Registered(s'.threads[t])
    ensures Sum(s'.threads, Subtracted) + Subtracted(s.threads[t]) == Sum(s.threads, Subtracted) + Subtracted(s'.threads[t])
    ensures Sum(s'.threads, Tokens) + Tokens(s.threads[t]) == Sum(s.threads, Tokens) + Tokens(s'.threads[t])
    ensures Sum(s'.threads, Renormalising) + Renormalising(s.threads[t]) == Sum(s.threads, Renormalising) + Renormalising(s'.threads[t])
    ensures Sum(s'.threads, HoldsExt) + HoldsExt(s.threads[t]) == Sum(s.threads, HoldsExt) + HoldsExt(s'.threads[t])
  {
    var x := s'.threads[t];
    SumUpdate(s.threads, t, x, OwesGate);
    SumUpdate(s.threads, t, x, HoldsMtx);
    SumUpdate(s.threads, t, x, Registered);
    SumUpdate(s.threads, t, x, Subtracted);
    SumUpdate(s.threads, t, x, Tokens);
    SumUpdate(s.threads, t, x, Renormalising);
    SumUpdate(s.threads, t, x, HoldsExt);
  }

  lemma WaitGateKeepsInv(s: State, t: nat)
    requires Inv(s) && t < |s.threads| && s.threads[t].pc.WaitGate?
    ensures Inv(WaitStep(s, t))
  {
    hide Sum;
    var s' := WaitStep(s, t);
    if s.gate > 0 {
      Alone(s, t);
      Moved(s, s', t);
    }
  }

  lemma RegLoadKeepsInv(s: State, t: nat)
    requires Inv(s) && t < |s.threads| && s.threads[t].pc.RegLoad?
    ensures Inv(WaitStep(s, t))
  {
    hide Sum;
    var s' := WaitStep(s, t);
    Alone(s, t);
    Moved(s, s', t);
  }

  lemma RegStoreKeepsInv(s: State, t: nat)
    requires Inv(s) && t < |s.threads| && s.threads[t].pc.RegStore?
    ensures Inv(WaitStep(s, t))
  {
    hide Sum;
    var s' := WaitStep(s, t);
    Alone(s, t);
    Moved(s, s', t);
  }

  lemma RegPostKeepsInv(s: State, t: nat)
    requires Inv(s) && t < |s.threads| && s.threads[t].pc.RegPost?
    ensures Inv(WaitStep(s, t))
  {
    hide Sum;
    var s' := WaitStep(s, t);
    Alone(s, t);
    Moved(s, s', t);
  }

  lemma ExtUnlockKeepsInv(s: State, t: nat)
    requires Inv(s) && t < |s.threads| && s.threads[t].pc.ExtUnlock?
    ensures Inv(WaitStep(s, t))
  {
    hide Sum;
    var s' := WaitStep(s, t);
    Alone(s, t);
    Moved(s, s', t);
  }

  lemma WaitingKeepsInv(s: State, t: nat)
    requires Inv(s) && t < |s.threads| && s.threads[t].pc.Waiting?
    ensures Inv(WaitStep(s, t))
  {
    hide Sum;
    var s' := WaitStep(s, t);
    if s.queue > 0 {
      Moved(s, s', t);
    }
  }

  lemma LeaveKeepsInv(s: State, t: nat)
    requires Inv(s) && t < |s.threads| && s.threads[t].pc.Leave?
    ensures Inv(CleanupStep(s, t))
  {
    hide Sum;
    var s' := CleanupStep(s, t);
    if !s.mtx {
      Alone(s, t);
      Moved(s, s', t);
    }
  }

  lemma DeregKeepsInv(s: State, t: nat)
    requires Inv(s) && t < |s.threads| && s.threads[t].pc.Dereg?
    ensures Inv(CleanupStep(s, t))
  {
    hide Sum;
    var s' := CleanupStep(s, t);
    Alone(s, t);
    Moved(s, s', t);
  }

  lemma RenormWaitKeepsInv(s: State, t: nat)
    requires Inv(s) && t < |s.threads| && s.threads[t].pc.RenormWait?
    ensures Inv(CleanupStep(s, t))
  {
    hide Sum;
    var s' := CleanupStep(s, t);
    if s.gate > 0 {
      Alone(s, t);
      Moved(s, s', t);
    }
  }

  lemma RenormSubKeepsInv(s: State, t: nat)
    requires Inv(s) && t < |s.threads| && s.threads[t].pc.RenormSub?
    ensures Inv(CleanupStep(s, t))
  {
    hide Sum;
    var s' := CleanupStep(s, t);
    Alone(s, t);
    Moved(s, s', t);
  }

  lemma RenormPostKeepsInv(s: State, t: nat)
    requires Inv(s) && t < |s.threads| && s.threads[t].pc.RenormPost?
    ensures Inv(CleanupStep(s, t))
  {
    hide Sum;
    var s' := CleanupStep(s, t);
    Alone(s, t);
    Moved(s, s', t);
  }

  lemma RenormClearKeepsInv(s: State, t: nat)
    requires Inv(s) && t < |s.threads| && s.threads[t].pc.RenormClear?
    ensures Inv(CleanupStep(s, t))
  {
    hide Sum;
    var s' := CleanupStep(s, t);
    Alone(s, t);
    Moved(s, s', t);
  }

  lemma ReleaseKeepsInv(s: State, t: nat)
    requires Inv(s) && t < |s.threads| && s.threads[t].pc.Release?
    ensures Inv(CleanupStep(s, t))
  {
    hide Sum;
    var s' := CleanupStep(s, t);
    Alone(s, t);
    Moved(s, s', t);
  }

  lemma OpenKeepsInv(s: State, t: nat)
    requires Inv(s) && t < |s.threads| && s.threads[t].pc.Open?
    ensures Inv(CleanupStep(s, t))
  {
    hide Sum;
    var s' := CleanupStep(s, t);
    Alone(s, t);
    Moved(s, s', t);
  }

  lemma RelockKeepsInv(s: State, t: nat)
    requires Inv(s) && t < |s.threads| && s.threads[t].pc.Relock?
    ensures Inv(CleanupStep(s, t))
  {
    hide Sum;
    var s' := CleanupStep(s, t);
    if !s.ext {
      Alone(s, t);
      Moved(s, s', t);
    }
  }

  lemma SigLockKeepsInv(s: State, t: nat)
    requires Inv(s) && t < |s.threads| && s.threads[t].pc.SigLock?
    ensures Inv(UnblockStep(s, t))
  {
    hide Sum;
    var s' := UnblockStep(s, t);
    if !s.mtx {
      Alone(s, t);
      Moved(s, s', t);
    }
  }

  lemma SigTestKeepsCounts(s: State, t: nat)
    requires Inv(s) && t < |s.threads| && s.threads[t].pc.SigTest?
    ensures Counts(UnblockStep(s, t))
  {
    hide Sum;
    var s' := UnblockStep(s, t);
    Alone(s, t);
    Moved(s, s', t);
  }

  lemma SigTestKeepsInv(s: State, t: nat)
    requires Inv(s) && t < |s.threads| && s.threads[t].pc.SigTest?
    ensures Inv(UnblockStep(s, t))
  {
    hide Sum;
    assert s.toUnblock >= 0;
    SigTestKeepsCounts(s, t);
    Alone(s, t);
    hide Counts;
  }

  lemma SigGateKeepsInv(s: State, t: nat)
    requires Inv(s) && t < |s.threads| && s.threads[t].pc.SigGate?
    ensures Inv(UnblockStep(s, t))
  {
    hide Sum;
    var s' := UnblockStep(s, t);
    if s.gate > 0 {
      Alone(s, t);
      Moved(s, s', t);
    }
  }

  lemma SigMoveKeepsInv(s: State, t: nat)
    requires Inv(s) && t < |s.threads| && s.threads[t].pc.SigMove?
    ensures Inv(UnblockStep(s, t))
  {
    hide Sum;
    var s' := UnblockStep(s, t);
    Alone(s, t);
    Moved(s, s', t);
  }

  lemma SigReleaseKeepsInv(s: State, t: nat)
    requires Inv(s) && t < |s.threads| && s.threads[t].pc.SigRelease?
    ensures Inv(UnblockStep(s, t))
  {
    hide Sum;
    var s' := UnblockStep(s, t);
    Alone(s, t);
    Moved(s, s', t);
  }

  lemma SigPostKeepsInv(s: State, t: nat)
    requires Inv(s) && t < |s.threads| && s.threads[t].pc.SigPost?
    ensures Inv(UnblockStep(s, t))
  {
    hide Sum;
    var s' := UnblockStep(s, t);
    Alone(s, t);
    Moved(s, s', t);
  }

  lemma DesGateKeepsInv(s: State, t: nat)
    requires Inv(s) && t < |s.threads| && s.threads[t].pc.DesGate?
    ensures Inv(DestroyStep(s, t))
  {
    hide Sum;
    var s' := DestroyStep(s, t);
    if s.gate > 0 {
      Alone(s, t);
      Moved(s, s', t);
    }
  }

  lemma DesTryKeepsInv(s: State, t: nat)
    requires Inv(s) && t < |s.threads| && s.threads[t].pc.DesTry?
    ensures Inv(DestroyStep(s, t))
  {
    hide Sum;
    var s' := DestroyStep(s, t);
    Alone(s, t);
    Moved(s, s', t);
  }

  lemma DesBusyKeepsInv(s: State, t: nat)
    requires Inv(s) && t < |s.threads| && s.threads[t].pc.DesBusy?
    ensures Inv(DestroyStep(s, t))
  {
    hide Sum;
    var s' := DestroyStep(s, t);
    Alone(s, t);
    Moved(s, s', t);
  }

  lemma DesPostKeepsInv(s: State, t: nat)
    requires Inv(s) && t < |s.threads| && s.threads[t].pc.DesPost?
    ensures Inv(DestroyStep(s, t))
  {
    hide Sum;
    var s' := DestroyStep(s, t);
    Alone(s, t);
    Moved(s, s', t);
  }

  lemma DesReleaseKeepsInv(s: State, t: nat)
    requires Inv(s) && t < |s.threads| && s.threads[t].pc.DesRelease?
    ensures Inv(DestroyStep(s, t))
  {
    hide Sum;
    var s' := DestroyStep(s, t);
    Alone(s, t);
    Moved(s, s', t);
  }

  lemma EnterKeepsInv(s: State, t: nat, pc: Pc)
    requires Inv(s) && t < |s.threads| && s.threads[t].pc.Idle?
    requires (pc.WaitGate? && s.threads[t].ext) || pc.SigLock? || pc.DesGate?
    ensures Inv(Goto(s, t, pc))
  {
    hide Sum;
    Moved(s, Goto(s, t, pc), t);
  }

  lemma ExtKeepsInv(s: State, t: nat, m: Move)
    requires Inv(s) && t < |s.threads| && s.threads[t].pc.Idle? && (m.LockExt? || m.UnlockExt?)
    ensures Inv(CallStep(s, t, m))
  {
    hide Sum;
    var s' := CallStep(s, t, m);
    if s' != s {
      Alone(s, t);
      Moved(s, s', t);
    }
  }

  lemma CallKeepsInv(s: State, t: nat, m: Move)
    requires Inv(s) && t < |s.threads| && s.threads[t].pc.Idle?
    ensures Inv(CallStep(s, t, m))
  {
    hide Inv;
    match m
    case CallWait => if s.threads[t].ext { EnterKeepsInv(s, t, WaitGate); }
    case CallSignal(all) => EnterKeepsInv(s, t, SigLock(all));
    case CallDestroy => EnterKeepsInv(s, t, DesGate);
    case LockExt => ExtKeepsInv(s, t, m);
    case UnlockExt => ExtKeepsInv(s, t, m);
    case _ =>
  }

  lemma InterruptKeepsInv(s: State, t: nat, pc: Pc)
    requires Inv(s) && t < |s.threads|
    requires (s.threads[t].pc.WaitGate? && pc == Idle) || (s.threads[t].pc.Waiting? && pc == Leave(false))
    ensures Inv(Goto(s, t, pc))
  {
    hide Sum;
    Moved(s, Goto(s, t, pc), t);
  }

  lemma WaitKeepsInv(s: State, t: nat)
    requires Inv(s) && t < |s.threads| && WaitPc(s.threads[t].pc)
    ensures Inv(WaitStep(s, t))
  {
    hide Inv, WaitStep;
    match s.threads[t].pc
    case WaitGate => WaitGateKeepsInv(s, t);
    case RegLoad => RegLoadKeepsInv(s, t);
    case RegStore(_) => RegStoreKeepsInv(s, t);
    case RegPost => RegPostKeepsInv(s, t);
    case ExtUnlock => ExtUnlockKeepsInv(s, t);
    case Waiting => WaitingKeepsInv(s, t);
  }

  lemma CleanupKeepsInv(s: State, t: nat)
    requires Inv(s) && t < |s.threads| && CleanupPc(s.threads[t].pc)
    ensures Inv(CleanupStep(s, t))
  {
    hide Inv, CleanupStep;
    match s.threads[t].pc
    case Leave(_) => LeaveKeepsInv(s, t);
    case Dereg(_) => DeregKeepsInv(s, t);
    case RenormWait => RenormWaitKeepsInv(s, t);
    case RenormSub => RenormSubKeepsInv(s, t);
    case RenormPost => RenormPostKeepsInv(s, t);
    case RenormClear => RenormClearKeepsInv(s, t);
    case Release(_) => ReleaseKeepsInv(s, t);
    case Open => OpenKeepsInv(s, t);
    case Relock => RelockKeepsInv(s, t);
  }

  lemma UnblockKeepsInv(s: State, t: nat)
    requires Inv(s) && t < |s.threads| && UnblockPc(s.threads[t].pc)
    ensures Inv(UnblockStep(s, t))
  {
    hide Inv, UnblockStep;
    match s.threads[t].pc
    case SigLock(_) => SigLockKeepsInv(s, t);
    case SigTest(_) => SigTestKeepsInv(s, t);
    case SigGate(_) => SigGateKeepsInv(s, t);
    case SigMove(_) => SigMoveKeepsInv(s, t);
    case SigRelease(_) => SigReleaseKeepsInv(s, t);
    case SigPost(_) => SigPostKeepsInv(s, t);
  }

  /** The thread's next operation is on the object. */
  predicate AboutToTouch(pc: Pc) { pc.WaitGate? || pc.SigLock? || pc.SigPost? || pc.DesGate? }

  /** Where a thread can be when another one destroys the object. */
  predicate MayRemain(pc: Pc) { pc.Idle? || pc.Relock? || AboutToTouch(pc) }

  ghost predicate Destroyed(s: State) {
    && !s.alive && Sum(s.threads, Registered) == 0 && s.toUnblock == 0 && s.gate == 0
    && forall i :: 0 <= i < |s.threads| ==> MayRemain(s.threads[i].pc)
  }

  ghost predicate Good(s: State) { if s.alive then Inv(s) else Destroyed(s) }

  /** Destruction is the one step that ends the object's life, and it does so exactly
      when no thread is registered and no wake-up is owed. */
  lemma DestroyIffNoneRegistered(s: State, t: nat)
    requires Inv(s) && s.alive && t < |s.threads| && s.threads[t].pc.DesCheck?
    ensures !DestroyStep(s, t).alive <==> Sum(s.threads, Registered) == 0
    ensures s.toUnblock == 0 && s.gate == 0
    ensures Good(DestroyStep(s, t))
  {
    hide Sum;
    Alone(s, t);
    Moved(s, DestroyStep(s, t), t);
    if Sum(s.threads, Registered) == 0 { LeftBehind(s, t); }
  }

  /** Nobody but the destroying thread holds a lock of the object or is registered. */
  lemma LeftBehind(s: State, t: nat)
    requires Inv(s) && t < |s.threads| && s.threads[t].pc.DesCheck? && Sum(s.threads, Registered) == 0
    ensures forall u :: 0 <= u < |s.threads| && u != t ==> MayRemain(s.threads[u].pc)
  {
    hide Sum;
    Alone(s, t);
    SumZero(s.threads, Registered);
    forall u | 0 <= u < |s.threads| && u != t ensures MayRemain(s.threads[u].pc) {
      assert Registered(s.threads[u]) == 0 && HoldsMtx(s.threads[u]) == 0 && OwesGate(s.threads[u]) == 0;
    }
  }

  lemma DestroyKeepsInv(s: State, t: nat)
    requires Inv(s) && s.alive && t < |s.threads| && DestroyPc(s.threads[t].pc)
    ensures Good(DestroyStep(s, t))
  {
    hide Inv, Sum;
    match s.threads[t].pc
    case DesGate => DesGateKeepsInv(s, t);
    case DesTry => DesTryKeepsInv(s, t);
    case DesBusy => DesBusyKeepsInv(s, t);
    case DesCheck => DestroyIffNoneRegistered(s, t);
    case DesPost => DesPostKeepsInv(s, t);
    case DesRelease => DesReleaseKeepsInv(s, t);
  }

  lemma StepKeepsGood(s: State, t: nat, m: Move)
    requires Good(s)
    ensures Good(Step(s, t, m))
  {
    hide Inv, Sum;
    if t < |s.threads| && s.alive {
      var pc := s.threads[t].pc;
      if pc.Idle? { CallKeepsInv(s, t, m); }
      else if m.Interrupt? {
        if pc.WaitGate? { InterruptKeepsInv(s, t, Idle); }
        if pc.Waiting? { InterruptKeepsInv(s, t, Leave(false)); }
      }
      else if WaitPc(pc) { WaitKeepsInv(s, t); }
      else if CleanupPc(pc) { CleanupKeepsInv(s, t); }
      else if UnblockPc(pc) { UnblockKeepsInv(s, t); }
      else { DestroyKeepsInv(s, t); }
    }
  }

  lemma {:induction false} RunKeepsGood(s: State, schedule: seq<(nat, Move)>)
    requires Good(s)
    ensures Good(Run(s, schedule))
    decreases |schedule|
  {
    if schedule != [] {
      StepKeepsGood(s, schedule[0].0, schedule[0].1);
      RunKeepsGood(Step(s, schedule[0].0, schedule[0].1), schedule[1..]);
    }
  }

  // ---- main results, over every run of any number of threads ----

  /** Conservation: registered waiters are exactly the blocked ones that have not gone,
      plus those that are owed a wake-up. */
  lemma Conservation(n: nat, schedule: seq<(nat, Move)>)
    ensures var s := Run(Init(n), schedule);
      s.alive ==>
        && Sum(s.threads, Registered) == s.blocked - EffGone(s) + s.toUnblock
        && 0 <= EffGone(s) <= s.blocked
        && (s.toUnblock > 0 ==> s.gone == 0)
  {
    InitInv(n);
    RunKeepsGood(Init(n), schedule);
  }

  /** The equation in the counters as they stand fails exactly while a thread is between
      the subtraction and the clear of the renormalisation. */
  lemma PlainConservationIff(n: nat, schedule: seq<(nat, Move)>)
    ensures var s := Run(Init(n), schedule);
      s.alive ==>
        (Sum(s.threads, Registered) == s.blocked - s.gone + s.toUnblock <==>
         forall i :: 0 <= i < |s.threads| ==> Subtracted(s.threads[i]) == 0)
  {
    InitInv(n);
    RunKeepsGood(Init(n), schedule);
    var s := Run(Init(n), schedule);
    if s.alive {
      if Sum(s.threads, Subtracted) > 0 {
        var i := SumWitness(s.threads, Subtracted);
        assert ThreadOk(s, s.threads[i]);
      } else {
        SumZero(s.threads, Subtracted);
      }
    }
  }

  /** When the object is destroyed nobody is registered, nothing is owed, and each thread is
      outside the library, re-acquires the callers' mutex, or is about to make the first
      operation of a call or the post of a signal on the object that is gone. */
  lemma DestroyedLeaves(n: nat, schedule: seq<(nat, Move)>)
    ensures var s := Run(Init(n), schedule);
      !s.alive ==>
        && Sum(s.threads, Registered) == 0 && s.toUnblock == 0
        && forall i :: 0 <= i < |s.threads| ==> MayRemain(s.threads[i].pc)
  {
    InitInv(n);
    RunKeepsGood(Init(n), schedule);
  }

  /** The destroying step leaves no use of the object behind exactly when no other thread
      is inside a call on it, other than re-acquiring the callers' mutex. */
  lemma UnusedIffNoCall(s: State, t: nat)
    requires Inv(s) && s.alive && t < |s.threads| && s.threads[t].pc.DesCheck? && Sum(s.threads, Registered) == 0
    ensures !DestroyStep(s, t).alive && |DestroyStep(s, t).threads| == |s.threads|
    ensures (forall i :: 0 <= i < |s.threads| ==> !AboutToTouch(DestroyStep(s, t).threads[i].pc)) <==>
            (forall u :: 0 <= u < |s.threads| && u != t ==> s.threads[u].pc.Idle? || s.threads[u].pc.Relock?)
  {
    hide Sum;
    DestroyIffNoneRegistered(s, t);
    LeftBehind(s, t);
    var s' := DestroyStep(s, t);
    assert forall u :: 0 <= u < |s.threads| && u != t ==> s'.threads[u] == s.threads[u];
  }

  /** A signaller that does not hold the callers' mutex can outlive the object: the waiter
      it has woken times out, leaves and opens the gate before the tokens are posted. */
  lemma SignallerMayOutlive() returns (schedule: seq<(nat, Move)>)
    ensures var s := Run(Init(3), schedule);
      !s.alive && |s.threads| == 3 && s.threads[1].pc == SigPost(1)
  {
    var go := (0, Go);
    var a := [(0, LockExt), (0, CallWait), go, go, go, go, go];
    var b := [(1, CallSignal(false)), (1, Go), (1, Go), (1, Go), (1, Go), (1, Go)];
    var c := [(0, Interrupt), go, go, go, go];
    var d := [(2, CallDestroy), (2, Go), (2, Go), (2, Go)];
    schedule := a + b + c + d;
    WaiterRegisters(a);
    var s1 := State(1, 0, 0, 1, 0, false, false, true, [Thread(Waiting, false), Thread(Idle, false), Thread(Idle, false)]);
    SignallerStops(s1, b);
    var s2 := State(0, 0, 1, 0, 0, false, false, true, [Thread(Waiting, false), Thread(SigPost(1), false), Thread(Idle, false)]);
    WaiterLeaves(s2, c);
    var s3 := State(0, 0, 0, 1, 0, false, false, true, [Thread(Relock, false), Thread(SigPost(1), false), Thread(Idle, false)]);
    DestroyerGoesOn(s3, d);
    RunConcat(Init(3), a + b + c, d);
    RunConcat(Init(3), a + b, c);
    RunConcat(Init(3), a, b);
  }

  lemma {:induction false} RunConcat(s: State, a: seq<(nat, Move)>, b: seq<(nat, Move)>)
    ensures Run(s, a + b) == Run(Run(s, a), b)
    decreases |a|
  {
    if a == [] {
      assert a + b == b;
    } else {
      assert (a + b)[1..] == a[1..] + b;
      RunConcat(Step(s, a[0].0, a[0].1), a[1..], b);
    }
  }

  lemma RunStep(s: State, schedule: seq<(nat, Move)>)
    ensures Run(s, schedule) == if schedule == [] then s else Run(Step(s, schedule[0].0, schedule[0].1), schedule[1..])
  {
  }

  lemma WaiterRegisters(a: seq<(nat, Move)>)
    requires a == [(0, LockExt), (0, CallWait), (0, Go), (0, Go), (0, Go), (0, Go), (0, Go)]
    ensures Run(Init(3), a) ==
      State(1, 0, 0, 1, 0, false, false, true, [Thread(Waiting, false), Thread(Idle, false), Thread(Idle, false)])
  {
    hide Run, Step;
    var idle := Thread(Idle, false);
    var s := State(0, 0, 0, 0, 0, false, true, true, [Thread(RegStore(0), true), idle, idle]);
    WaiterEnters(a[..4]);
    WaiterStores(s, a[4..]);
    RunConcat(Init(3), a[..4], a[4..]);
    assert a[..4] + a[4..] == a;
  }

  lemma WaiterEnters(a: seq<(nat, Move)>)
    requires a == [(0, LockExt), (0, CallWait), (0, Go), (0, Go)]
    ensures Run(Init(3), a) ==
      State(0, 0, 0, 0, 0, false, true, true, [Thread(RegStore(0), true), Thread(Idle, false), Thread(Idle, false)])
  {
    hide Run, CleanupStep, UnblockStep, DestroyStep;
    var idle := Thread(Idle, false);
    var s0 := Init(3);
    RunStep(s0, a);
    var s1 := State(0, 0, 0, 1, 0, false, true, true, [Thread(Idle, true), idle, idle]);
    assert Step(s0, 0, LockExt) == s1;
    RunStep(s1, a[1..]);
    var s2 := s1.(threads := [Thread(WaitGate, true), idle, idle]);
    assert Step(s1, 0, CallWait) == s2;
    RunStep(s2, a[2..]);
    var s3 := s2.(gate := 0, threads := [Thread(RegLoad, true), idle, idle]);
    assert Step(s2, 0, Go) == s3;
    RunStep(s3, a[3..]);
    var s4 := s3.(threads := [Thread(RegStore(0), true), idle, idle]);
    assert Step(s3, 0, Go) == s4;
    RunStep(s4, a[4..]);
    assert a[1..][1..] == a[2..] && a[2..][1..] == a[3..] && a[3..][1..] == a[4..] == [];
  }

  lemma WaiterStores(s0: State, a: seq<(nat, Move)>)
    requires a == [(0, Go), (0, Go), (0, Go)]
    requires s0 ==
      State(0, 0, 0, 0, 0, false, true, true, [Thread(RegStore(0), true), Thread(Idle, false), Thread(Idle, false)])
    ensures Run(s0, a) ==
      State(1, 0, 0, 1, 0, false, false, true, [Thread(Waiting, false), Thread(Idle, false), Thread(Idle, false)])
  {
    hide Run, CleanupStep, UnblockStep, DestroyStep, CallStep;
    var idle := Thread(Idle, false);
    RunStep(s0, a);
    var s1 := s0.(blocked := 1, threads := [Thread(RegPost, true), idle, idle]);
    assert Step(s0, 0, Go) == s1;
    RunStep(s1, a[1..]);
    var s2 := s1.(gate := 1, threads := [Thread(ExtUnlock, true), idle, idle]);
    assert Step(s1, 0, Go) == s2;
    RunStep(s2, a[2..]);
    var s3 := s2.(ext := false, threads := [Thread(Waiting, false), idle, idle]);
    assert Step(s2, 0, Go) == s3;
    RunStep(s3, a[3..]);
    assert a[1..][1..] == a[2..] && a[2..][1..] == a[3..] == [];
  }

  lemma SignallerStops(s0: State, b: seq<(nat, Move)>)
    requires b == [(1, CallSignal(false)), (1, Go), (1, Go), (1, Go), (1, Go), (1, Go)]
    requires s0 == State(1, 0, 0, 1, 0, false, false, true, [Thread(Waiting, false), Thread(Idle, false), Thread(Idle, false)])
    ensures Run(s0, b) ==
      State(0, 0, 1, 0, 0, false, false, true, [Thread(Waiting, false), Thread(SigPost(1), false), Thread(Idle, false)])
  {
    hide Run, CleanupStep, WaitStep, DestroyStep;
    var w, idle := Thread(Waiting, false), Thread(Idle, false);
    RunStep(s0, b);
    var s1 := s0.(threads := [w, Thread(SigLock(false), false), idle]);
    assert Step(s0, 1, CallSignal(false)) == s1;
    RunStep(s1, b[1..]);
    var s2 := s1.(mtx := true, threads := [w, Thread(SigTest(false), false), idle]);
    assert Step(s1, 1, Go) == s2;
    RunStep(s2, b[2..]);
    var s3 := s2.(threads := [w, Thread(SigGate(false), false), idle]);
    assert Step(s2, 1, Go) == s3;
    RunStep(s3, b[3..]);
    var s4 := s3.(gate := 0, threads := [w, Thread(SigMove(false), false), idle]);
    assert Step(s3, 1, Go) == s4;
    RunStep(s4, b[4..]);
    var s5 := s4.(blocked := 0, toUnblock := 1, threads := [w, Thread(SigRelease(1), false), idle]);
    assert Step(s4, 1, Go) == s5;
    RunStep(s5, b[5..]);
    var s6 := s5.(mtx := false, threads := [w, Thread(SigPost(1), false), idle]);
    assert Step(s5, 1, Go) == s6;
    RunStep(s6, b[6..]);
    assert b[1..][1..] == b[2..] && b[2..][1..] == b[3..] && b[3..][1..] == b[4..];
    assert b[4..][1..] == b[5..] && b[5..][1..] == b[6..] == [];
  }

  lemma WaiterLeaves(s0: State, c: seq<(nat, Move)>)
    requires c == [(0, Interrupt), (0, Go), (0, Go), (0, Go), (0, Go)]
    requires s0 == State(0, 0, 1, 0, 0, false, false, true, [Thread(Waiting, false), Thread(SigPost(1), false), Thread(Idle, false)])
    ensures Run(s0, c) ==
      State(0, 0, 0, 1, 0, false, false, true, [Thread(Relock, false), Thread(SigPost(1), false), Thread(Idle, false)])
  {
    hide Run, WaitStep, UnblockStep, DestroyStep;
    var p, idle := Thread(SigPost(1), false), Thread(Idle, false);
    RunStep(s0, c);
    var s1 := s0.(threads := [Thread(Leave(false), false), p, idle]);
    assert Step(s0, 0, Interrupt) == s1;
    RunStep(s1, c[1..]);
    var s2 := s1.(mtx := true, threads := [Thread(Dereg(false), false), p, idle]);
    assert Step(s1, 0, Go) == s2;
    RunStep(s2, c[2..]);
    var s3 := s2.(toUnblock := 0, threads := [Thread(Release(1), false), p, idle]);
    assert Step(s2, 0, Go) == s3;
    RunStep(s3, c[3..]);
    var s4 := s3.(mtx := false, threads := [Thread(Open, false), p, idle]);
    assert Step(s3, 0, Go) == s4;
    RunStep(s4, c[4..]);
    var s5 := s4.(gate := 1, threads := [Thread(Relock, false), p, idle]);
    assert Step(s4, 0, Go) == s5;
    RunStep(s5, c[5..]);
    assert c[1..][1..] == c[2..] && c[2..][1..] == c[3..] && c[3..][1..] == c[4..] && c[4..][1..] == c[5..] == [];
  }

  lemma DestroyerGoesOn(s0: State, d: seq<(nat, Move)>)
    requires d == [(2, CallDestroy), (2, Go), (2, Go), (2, Go)]
    requires s0 == State(0, 0, 0, 1, 0, false, false, true, [Thread(Relock, false), Thread(SigPost(1), false), Thread(Idle, false)])
    ensures var s := Run(s0, d); !s.alive && |s.threads| == 3 && s.threads[1].pc == SigPost(1)
  {
    hide Run;
    var l, p := Thread(Relock, false), Thread(SigPost(1), false);
    RunStep(s0, d);
    var s1 := s0.(threads := [l, p, Thread(DesGate, false)]);
    assert Step(s0, 2, CallDestroy) == s1;
    RunStep(s1, d[1..]);
    var s2 := s1.(gate := 0, threads := [l, p, Thread(DesTry, false)]);
    assert Step(s1, 2, Go) == s2;
    RunStep(s2, d[2..]);
    var s3 := s2.(mtx := true, threads := [l, p, Thread(DesCheck, false)]);
    assert Step(s2, 2, Go) == s3;
    RunStep(s3, d[3..]);
    var s4 := s3.(alive := false, threads := [l, p, Thread(Idle, false)]);
    assert Step(s3, 2, Go) == s4;
    RunStep(s4, d[4..]);
    assert d[1..][1..] == d[2..] && d[2..][1..] == d[3..] && d[3..][1..] == d[4..] == [];
  }

  /** Signal, broadcast and destroy are called only by a thread that holds the callers'
      mutex. */
  ghost predicate UnderMutex(s: State, schedule: seq<(nat, Move)>) {
    forall k :: 0 <= k < |schedule| && (schedule[k].1.CallSignal? || schedule[k].1.CallDestroy?) ==>
      MayCall(Run(s, schedule[..k]), schedule[k].0)
  }

  predicate MayCall(s: State, t: nat) { t < |s.threads| ==> s.threads[t].ext }

  predicate CallOk(th: Thread) { UnblockPc(th.pc) || DestroyPc(th.pc) ==> th.ext }

  /** In such a run, calls are made under the mutex while the object lives, and nobody is
      about to touch it once it does not. */
  ghost predicate Orderly(s: State) {
    forall i :: 0 <= i < |s.threads| ==>
      if s.alive then CallOk(s.threads[i]) else s.threads[i].pc.Idle? || s.threads[i].pc.Relock?
  }

  /** A step of t from s to s' keeps t's call under the mutex, or destroys the object. */
  predicate StaysOk(s: State, s': State, t: nat)
    requires t < |s.threads|
  {
    && t < |s'.threads| && CallOk(s'.threads[t])
    && (!s'.alive ==> s.threads[t].ext && s'.threads[t].pc.Idle?)
  }

  lemma CallStaysOk(s: State, t: nat, m: Move)
    requires t < |s.threads| && s.alive && s.threads[t].pc.Idle?
    requires m.CallSignal? || m.CallDestroy? ==> s.threads[t].ext
    ensures StaysOk(s, CallStep(s, t, m), t)
  {
  }

  lemma WaitStaysOk(s: State, t: nat)
    requires t < |s.threads| && s.alive && WaitPc(s.threads[t].pc)
    ensures StaysOk(s, WaitStep(s, t), t)
  {
  }

  lemma CleanupStaysOk(s: State, t: nat)
    requires t < |s.threads| && s.alive && CleanupPc(s.threads[t].pc)
    ensures StaysOk(s, CleanupStep(s, t), t)
  {
  }

  lemma UnblockStaysOk(s: State, t: nat)
    requires t < |s.threads| && s.alive && UnblockPc(s.threads[t].pc) && s.threads[t].ext
    ensures StaysOk(s, UnblockStep(s, t), t)
  {
  }

  lemma DestroyStaysOk(s: State, t: nat)
    requires t < |s.threads| && s.alive && DestroyPc(s.threads[t].pc) && s.threads[t].ext
    ensures StaysOk(s, DestroyStep(s, t), t)
  {
  }

  lemma MoveStaysOk(s: State, t: nat, m: Move)
    requires t < |s.threads| && s.alive && CallOk(s.threads[t])
    requires m.CallSignal? || m.CallDestroy? ==> s.threads[t].ext
    ensures StaysOk(s, Step(s, t, m), t)
  {
    hide CallStep, WaitStep, CleanupStep, UnblockStep, DestroyStep;
    var pc := s.threads[t].pc;
    if pc.Idle? { CallStaysOk(s, t, m); }
    else if !m.Go? { }
    else if WaitPc(pc) { WaitStaysOk(s, t); }
    else if CleanupPc(pc) { CleanupStaysOk(s, t); }
    else if UnblockPc(pc) { UnblockStaysOk(s, t); }
    else { DestroyStaysOk(s, t); }
  }

  lemma StepKeepsOrderly(s: State, t: nat, m: Move)
    requires Good(s) && Orderly(s) && (m.CallSignal? || m.CallDestroy? ==> MayCall(s, t))
    ensures Orderly(Step(s, t, m))
  {
    if t < |s.threads| && s.alive {
      var s' := Step(s, t, m);
      StepKeepsThreads(s, t, m);
      MoveStaysOk(s, t, m);
      StepKeepsGood(s, t, m);
      hide Step, Sum, Counts;
      if !s'.alive {
        forall u | 0 <= u < |s.threads| && u != t ensures s'.threads[u].pc.Idle? || s'.threads[u].pc.Relock? {
          OthersAreOutside(s, t, u);
          assert MayRemain(s'.threads[u].pc);
        }
      }
    }
  }

  /** A holder of the callers' mutex knows that no other thread is in such a call. */
  lemma OthersAreOutside(s: State, t: nat, u: nat)
    requires Inv(s) && t < |s.threads| && u < |s.threads| && t != u && s.threads[t].ext && CallOk(s.threads[u])
    ensures !AboutToTouch(s.threads[u].pc)
  {
    NoWaiterMissedUnderMutex(s, t, u);
  }

  lemma {:induction false} RunKeepsOrderly(s: State, schedule: seq<(nat, Move)>)
    requires Good(s) && Orderly(s) && UnderMutex(s, schedule)
    ensures Orderly(Run(s, schedule))
    decreases |schedule|
  {
    if schedule != [] {
      var s1, rest := Step(s, schedule[0].0, schedule[0].1), schedule[1..];
      assert Run(s, schedule[..0]) == s;
      assert schedule[0].1.CallSignal? || schedule[0].1.CallDestroy? ==> MayCall(Run(s, schedule[..0]), schedule[0].0);
      StepKeepsOrderly(s, schedule[0].0, schedule[0].1);
      StepKeepsGood(s, schedule[0].0, schedule[0].1);
      forall k | 0 <= k < |rest| && (rest[k].1.CallSignal? || rest[k].1.CallDestroy?)
        ensures MayCall(Run(s1, rest[..k]), rest[k].0)
      {
        assert schedule[..k + 1][1..] == rest[..k];
        assert Run(s, schedule[..k + 1]) == Run(s1, rest[..k]);
        assert schedule[k + 1] == rest[k];
      }
      RunKeepsOrderly(s1, rest);
    }
  }

  /** If signal, broadcast and destroy are called under the callers' mutex, a destroyed
      object is unused: no thread is inside a call on it any more, except for re-acquiring
      the callers' mutex. */
  lemma DestroyedMeansUnused(n: nat, schedule: seq<(nat, Move)>)
    requires UnderMutex(Init(n), schedule)
    ensures var s := Run(Init(n), schedule);
      !s.alive ==> forall i :: 0 <= i < |s.threads| ==> s.threads[i].pc.Idle? || s.threads[i].pc.Relock?
  {
    InitInv(n);
    RunKeepsOrderly(Init(n), schedule);
  }

  /** Tokens beyond the wake-ups owed. */
  function Surplus(s: State): int { s.queue + Sum(s.threads, Tokens) - s.toUnblock }

  /** The two ways in which the surplus changes: a waiter without a token, timed out or
      cancelled, pays for a wake-up; a waiter with a token finds none owed. */
  function SurplusChange(s: State, t: nat, m: Move): int {
    if t < |s.threads| && s.alive && m.Go? && s.threads[t].pc.Dereg? then
      if s.toUnblock != 0 then B2N(!s.threads[t].pc.token) else 0 - B2N(s.threads[t].pc.token)
    else 0
  }

  ghost predicate ChangesSurplus(s: State, s': State, t: nat, change: int) {
    t < |s.threads| == |s'.threads| && Surplus(s') == Surplus(s) + change
  }

  lemma TokensMoved(s: State, s': State, t: nat, th: Thread, change: int)
    requires t < |s.threads| && s'.threads == s.threads[t := th]
    requires s'.queue + Tokens(th) - s'.toUnblock == s.queue + Tokens(s.threads[t]) - s.toUnblock + change
    ensures ChangesSurplus(s, s', t, change)
  {
    SumUpdate(s.threads, t, th, Tokens);
  }

  lemma CallChangesSurplus(s: State, t: nat, m: Move)
    requires t < |s.threads| && s.threads[t].pc.Idle?
    ensures ChangesSurplus(s, CallStep(s, t, m), t, 0)
  {
    hide ChangesSurplus;
    assert CallStep(s, t, m).threads == s.threads[t := CallStep(s, t, m).threads[t]];
    TokensMoved(s, CallStep(s, t, m), t, CallStep(s, t, m).threads[t], 0);
  }

  lemma InterruptChangesSurplus(s: State, t: nat, pc: Pc)
    requires t < |s.threads|
    requires (s.threads[t].pc.WaitGate? && pc == Idle) || (s.threads[t].pc.Waiting? && pc == Leave(false))
    ensures ChangesSurplus(s, Goto(s, t, pc), t, 0)
  {
    hide ChangesSurplus;
    TokensMoved(s, Goto(s, t, pc), t, Goto(s, t, pc).threads[t], 0);
  }

  lemma WaitChangesSurplus(s: State, t: nat)
    requires t < |s.threads| && WaitPc(s.threads[t].pc)
    ensures ChangesSurplus(s, WaitStep(s, t), t, 0)
  {
    hide ChangesSurplus;
    assert WaitStep(s, t).threads == s.threads[t := WaitStep(s, t).threads[t]];
    TokensMoved(s, WaitStep(s, t), t, WaitStep(s, t).threads[t], 0);
  }

  lemma CleanupChangesSurplus(s: State, t: nat)
    requires s.alive && t < |s.threads| && CleanupPc(s.threads[t].pc)
    ensures ChangesSurplus(s, CleanupStep(s, t), t, SurplusChange(s, t, Go))
  {
    hide ChangesSurplus;
    assert CleanupStep(s, t).threads == s.threads[t := CleanupStep(s, t).threads[t]];
    TokensMoved(s, CleanupStep(s, t), t, CleanupStep(s, t).threads[t], SurplusChange(s, t, Go));
  }

  lemma IssueIsNotNegative(s: State, t: nat)
    requires Inv(s) && t < |s.threads|
    ensures s.blocked >= 0 && s.toUnblock >= 0
    ensures s.threads[t].pc.SigMove? ==> s.blocked > s.gone && s.toUnblock == 0
    ensures s.threads[t].pc.SigRelease? || s.threads[t].pc.SigPost? ==> s.threads[t].pc.n >= 0
  {
  }

  lemma TestChangesSurplus(s: State, t: nat)
    requires Inv(s) && t < |s.threads| && s.threads[t].pc.SigTest?
    ensures ChangesSurplus(s, UnblockStep(s, t), t, 0)
  {
    IssueIsNotNegative(s, t);
    hide ChangesSurplus, Inv;
    TokensMoved(s, UnblockStep(s, t), t, UnblockStep(s, t).threads[t], 0);
  }

  lemma MoveChangesSurplus(s: State, t: nat)
    requires Inv(s) && t < |s.threads| && s.threads[t].pc.SigMove?
    ensures ChangesSurplus(s, UnblockStep(s, t), t, 0)
  {
    IssueIsNotNegative(s, t);
    hide ChangesSurplus, Inv;
    TokensMoved(s, UnblockStep(s, t), t, UnblockStep(s, t).threads[t], 0);
  }

  lemma LockChangesSurplus(s: State, t: nat)
    requires t < |s.threads| && (s.threads[t].pc.SigLock? || s.threads[t].pc.SigGate?)
    ensures ChangesSurplus(s, UnblockStep(s, t), t, 0)
  {
    hide ChangesSurplus;
    TokensMoved(s, UnblockStep(s, t), t, UnblockStep(s, t).threads[t], 0);
  }

  lemma PostChangesSurplus(s: State, t: nat)
    requires Inv(s) && t < |s.threads| && (s.threads[t].pc.SigRelease? || s.threads[t].pc.SigPost?)
    ensures ChangesSurplus(s, UnblockStep(s, t), t, 0)
  {
    IssueIsNotNegative(s, t);
    hide ChangesSurplus, Inv;
    TokensMoved(s, UnblockStep(s, t), t, UnblockStep(s, t).threads[t], 0);
  }

  lemma UnblockChangesSurplus(s: State, t: nat)
    requires Inv(s) && t < |s.threads| && UnblockPc(s.threads[t].pc)
    ensures ChangesSurplus(s, UnblockStep(s, t), t, 0)
  {
    hide Inv, UnblockStep, ChangesSurplus;
    if s.threads[t].pc.SigTest? { TestChangesSurplus(s, t); }
    else if s.threads[t].pc.SigMove? { MoveChangesSurplus(s, t); }
    else if s.threads[t].pc.SigLock? || s.threads[t].pc.SigGate? { LockChangesSurplus(s, t); }
    else { PostChangesSurplus(s, t); }
  }

  lemma DestroyChangesSurplus(s: State, t: nat)
    requires t < |s.threads| && DestroyPc(s.threads[t].pc)
    ensures ChangesSurplus(s, DestroyStep(s, t), t, 0)
  {
    hide ChangesSurplus;
    assert DestroyStep(s, t).threads == s.threads[t := DestroyStep(s, t).threads[t]];
    TokensMoved(s, DestroyStep(s, t), t, DestroyStep(s, t).threads[t], 0);
  }

  lemma StepChangesSurplus(s: State, t: nat, m: Move)
    requires Good(s)
    ensures Surplus(Step(s, t, m)) == Surplus(s) + SurplusChange(s, t, m)
  {
    if t < |s.threads| && s.alive {
      hide Inv, Surplus, CallStep, WaitStep, CleanupStep, UnblockStep, DestroyStep;
      var pc := s.threads[t].pc;
      if pc.Idle? { CallChangesSurplus(s, t, m); }
      else if m.Interrupt? {
        if pc.WaitGate? { InterruptChangesSurplus(s, t, Idle); }
        if pc.Waiting? { InterruptChangesSurplus(s, t, Leave(false)); }
      }
      else if !m.Go? {}
      else if WaitPc(pc) { WaitChangesSurplus(s, t); }
      else if CleanupPc(pc) { CleanupChangesSurplus(s, t); }
      else if UnblockPc(pc) { UnblockChangesSurplus(s, t); }
      else { DestroyChangesSurplus(s, t); }
    }
  }

  /** The changes of a whole run. */
  function SurplusChanges(s: State, schedule: seq<(nat, Move)>): int
    decreases |schedule|
  {
    if schedule == [] then 0
    else
      SurplusChange(s, schedule[0].0, schedule[0].1)
      + SurplusChanges(Step(s, schedule[0].0, schedule[0].1), schedule[1..])
  }

  lemma {:induction false} RunChangesSurplus(s: State, schedule: seq<(nat, Move)>)
    requires Good(s)
    ensures Surplus(Run(s, schedule)) == Surplus(s) + SurplusChanges(s, schedule)
    decreases |schedule|
  {
    if schedule != [] {
      hide Good, Step, Surplus, SurplusChange;
      StepKeepsGood(s, schedule[0].0, schedule[0].1);
      StepChangesSurplus(s, schedule[0].0, schedule[0].1);
      RunChangesSurplus(Step(s, schedule[0].0, schedule[0].1), schedule[1..]);
    }
  }

  /** No token is made or lost: in every run the tokens beyond the wake-ups owed are the
      waiters without a token that have paid for a wake-up, less those with one that found
      none owed. */
  lemma TokenBalance(n: nat, schedule: seq<(nat, Move)>)
    ensures Surplus(Run(Init(n), schedule)) == SurplusChanges(Init(n), schedule)
  {
    InitInv(n);
    RunChangesSurplus(Init(n), schedule);
    SumAllZero(Init(n).threads, Tokens);
  }

  /** Tokens available, about to be posted, or taken by a waiter that has not yet
      deregistered always cover the wake-ups owed. */
  lemma TokensCoverDebt(n: nat, schedule: seq<(nat, Move)>)
    ensures var s := Run(Init(n), schedule);
      s.alive ==> s.queue + Sum(s.threads, Tokens) >= s.toUnblock
  {
    InitInv(n);
    RunKeepsGood(Init(n), schedule);
  }

  /** The gate is a true binary semaphore. It is closed exactly while a thread has it,
      a wake-up is owed, or the thread that paid the last one has yet to post. */
  lemma GateIsBinary(n: nat, schedule: seq<(nat, Move)>)
    ensures var s := Run(Init(n), schedule);
      s.alive ==>
        && 0 <= s.gate <= 1
        && (s.gate == 0 <==> s.toUnblock > 0 || exists i :: 0 <= i < |s.threads| && OwesGate(s.threads[i]) == 1)
        && !(s.toUnblock > 0 && exists i :: 0 <= i < |s.threads| && OwesGate(s.threads[i]) == 1)
  {
    InitInv(n);
    RunKeepsGood(Init(n), schedule);
    var s := Run(Init(n), schedule);
    if s.alive {
      if Sum(s.threads, OwesGate) > 0 { var i := SumWitness(s.threads, OwesGate); assert OwesGate(s.threads[i]) == 1; }
      forall i | 0 <= i < |s.threads| ensures OwesGate(s.threads[i]) <= Sum(s.threads, OwesGate) {
        SumBounds(s.threads, i, OwesGate);
      }
    }
  }

  predicate OnlyMoves(s: State, s': State, t: nat) {
    |s'.threads| == |s.threads| && forall i :: 0 <= i < |s.threads| && i != t ==> s'.threads[i] == s.threads[i]
  }

  lemma CallMovesOne(s: State, t: nat, m: Move)
    requires t < |s.threads|
    ensures OnlyMoves(s, CallStep(s, t, m), t)
  {
  }

  lemma WaitMovesOne(s: State, t: nat)
    requires t < |s.threads| && WaitPc(s.threads[t].pc)
    ensures OnlyMoves(s, WaitStep(s, t), t)
  {
  }

  lemma CleanupMovesOne(s: State, t: nat)
    requires t < |s.threads| && CleanupPc(s.threads[t].pc)
    ensures OnlyMoves(s, CleanupStep(s, t), t)
  {
  }

  lemma UnblockMovesOne(s: State, t: nat)
    requires t < |s.threads| && UnblockPc(s.threads[t].pc)
    ensures OnlyMoves(s, UnblockStep(s, t), t)
  {
  }

  lemma DestroyMovesOne(s: State, t: nat)
    requires t < |s.threads|
    ensures OnlyMoves(s, DestroyStep(s, t), t)
  {
  }

  lemma StepKeepsThreads(s: State, t: nat, m: Move)
    ensures OnlyMoves(s, Step(s, t, m), t)
  {
    if t < |s.threads| && s.alive {
      hide CallStep, WaitStep, CleanupStep, UnblockStep, DestroyStep;
      CallMovesOne(s, t, m);
      DestroyMovesOne(s, t);
      if WaitPc(s.threads[t].pc) { WaitMovesOne(s, t); }
      if CleanupPc(s.threads[t].pc) { CleanupMovesOne(s, t); }
      if UnblockPc(s.threads[t].pc) { UnblockMovesOne(s, t); }
    }
  }

  lemma {:induction false} RunKeepsThreads(s: State, schedule: seq<(nat, Move)>)
    ensures |Run(s, schedule).threads| == |s.threads|
    decreases |schedule|
  {
    if schedule != [] {
      StepKeepsThreads(s, schedule[0].0, schedule[0].1);
      RunKeepsThreads(Step(s, schedule[0].0, schedule[0].1), schedule[1..]);
    }
  }

  /** With fewer than 2^30 threads no counter ever leaves the range of a C int; this is
      what renormalising at INT_MAX/2 is for. */
  lemma CountersFit(n: nat, schedule: seq<(nat, Move)>)
    requires n <= INT_MAX / 2
    ensures var s := Run(Init(n), schedule);
      s.alive ==> 0 <= s.blocked < INT_MAX && 0 <= s.gone <= GONE_LIMIT && 0 <= s.toUnblock <= n
  {
    InitInv(n);
    RunKeepsGood(Init(n), schedule);
    RunKeepsThreads(Init(n), schedule);
    SumAtMostLength(Run(Init(n), schedule).threads, Registered);
  }

  // ---- what one signal, one broadcast and one wake-up achieve ----

  /** Registered waiters that no wake-up has been issued for. */
  function Unowed(s: State): int { Sum(s.threads, Registered) - s.toUnblock }

  /** The test under mtxUnblockLock gives up exactly when every registered waiter is
      already owed a wake-up; otherwise it issues now or goes on to close the gate. */
  lemma SignalDropsOnlyIfAllOwed(s: State, t: nat)
    requires Inv(s) && t < |s.threads| && s.threads[t].pc.SigTest?
    ensures UnblockStep(s, t).threads[t].pc == SigRelease(0) <==> Unowed(s) == 0
    ensures Unowed(s) >= 0
  {
    hide Sum;
    Alone(s, t);
  }

  lemma SigTestIssues(s: State, t: nat)
    requires Inv(s) && t < |s.threads| && s.threads[t].pc.SigTest? && s.toUnblock > 0 && Unowed(s) > 0
    ensures Issued(s, UnblockStep(s, t), t, s.threads[t].pc.all)
  {
    hide Sum;
    Alone(s, t);
    Moved(s, UnblockStep(s, t), t);
  }

  lemma SigMoveIssues(s: State, t: nat)
    requires Inv(s) && t < |s.threads| && s.threads[t].pc.SigMove?
    ensures Issued(s, UnblockStep(s, t), t, s.threads[t].pc.all)
  {
    hide Sum;
    Alone(s, t);
    Moved(s, UnblockStep(s, t), t);
  }

  /** Between two states: a broadcast leaves nobody unowed, a signal one fewer; the
      thread goes on to post as many tokens as wake-ups it has issued. */
  ghost predicate Issued(s: State, s': State, t: nat, all: bool)
    requires t < |s'.threads|
  {
    && s'.threads[t].pc.SigRelease?
    && s'.threads[t].pc.n == s'.toUnblock - s.toUnblock > 0
    && Sum(s'.threads, Registered) == Sum(s.threads, Registered)
    && (all ==> s'.toUnblock == Sum(s'.threads, Registered) && s'.blocked == 0)
    && (!all ==> s'.toUnblock == s.toUnblock + 1)
  }

  /** No thread can register while a wake-up is owed. */
  lemma NoNewcomerWhileOwed(s: State, t: nat, m: Move, i: nat)
    requires Good(s) && s.toUnblock > 0 && i < |s.threads|
    ensures |Step(s, t, m).threads| == |s.threads|
    ensures Registered(Step(s, t, m).threads[i]) == 1 ==> Registered(s.threads[i]) == 1
  {
    hide Sum;
    StepKeepsThreads(s, t, m);
    if s.alive && t == i {
      Alone(s, t);
      assert ThreadOk(s, s.threads[t]);
    }
  }

  /** So throughout a stretch in which wake-ups stay owed, every registered thread was
      registered at its beginning: owed wake-ups cannot be stolen by later arrivals. */
  lemma {:induction false} OwedToEarlierWaiters(s: State, schedule: seq<(nat, Move)>, i: nat)
    requires Good(s) && i < |s.threads|
    requires forall k :: 0 <= k < |schedule| ==> Run(s, schedule[..k]).toUnblock > 0
    ensures i < |Run(s, schedule).threads|
    ensures Registered(Run(s, schedule).threads[i]) == 1 ==> Registered(s.threads[i]) == 1
    decreases |schedule|
  {
    if schedule != [] {
      var s1, rest := Step(s, schedule[0].0, schedule[0].1), schedule[1..];
      assert Run(s, schedule[..0]) == s;
      StepKeepsGood(s, schedule[0].0, schedule[0].1);
      NoNewcomerWhileOwed(s, schedule[0].0, schedule[0].1, i);
      forall k | 0 <= k < |rest| ensures Run(s1, rest[..k]).toUnblock > 0 {
        assert schedule[..k + 1][1..] == rest[..k];
        assert Run(s, schedule[..k + 1]) == Run(s1, rest[..k]);
      }
      OwedToEarlierWaiters(s1, rest, i);
    }
  }

  /** A thread that signals while holding the callers' mutex finds every thread that has
      called wait already counted: none is still on its way to registering. */
  lemma NoWaiterMissedUnderMutex(s: State, t: nat, u: nat)
    requires Inv(s) && t < |s.threads| && u < |s.threads| && t != u
    requires s.threads[t].ext
    ensures !s.threads[u].ext
    ensures WaitPc(s.threads[u].pc) ==> s.threads[u].pc.Waiting? && Registered(s.threads[u]) == 1
  {
    SumBounds(s.threads, t, HoldsExt);
    SumExclusive(s.threads, t, HoldsExt);
    assert ThreadOk(s, s.threads[u]);
  }

  // ---- nobody waits in a circle ----

  predicate CanGo(s: State, t: nat) { t < |s.threads| && Step(s, t, Go) != s }

  /** The thread is at an operation that has to wait. */
  predicate Blocked(s: State, pc: Pc) {
    || ((pc.WaitGate? || pc.RenormWait? || pc.SigGate? || pc.DesGate?) && s.gate <= 0)
    || ((pc.Leave? || pc.SigLock?) && s.mtx)
    || (pc.Waiting? && s.queue <= 0)
    || (pc.Relock? && s.ext)
  }

  lemma UnblockedWaiterCanGo(s: State, t: nat)
    requires s.alive && t < |s.threads| && WaitPc(s.threads[t].pc) && !Blocked(s, s.threads[t].pc)
    ensures CanGo(s, t)
  {
    assert WaitStep(s, t).threads[t].pc != s.threads[t].pc;
  }

  lemma UnblockedCleanupCanGo(s: State, t: nat)
    requires s.alive && t < |s.threads| && CleanupPc(s.threads[t].pc) && !Blocked(s, s.threads[t].pc)
    ensures CanGo(s, t)
  {
    assert CleanupStep(s, t).threads[t].pc != s.threads[t].pc;
  }

  lemma UnblockedSignallerCanGo(s: State, t: nat)
    requires s.alive && t < |s.threads| && UnblockPc(s.threads[t].pc) && !Blocked(s, s.threads[t].pc)
    ensures CanGo(s, t)
  {
    assert UnblockStep(s, t).threads[t].pc != s.threads[t].pc;
  }

  lemma UnblockedDestroyerCanGo(s: State, t: nat)
    requires s.alive && t < |s.threads| && DestroyPc(s.threads[t].pc) && !Blocked(s, s.threads[t].pc)
    ensures CanGo(s, t)
  {
    assert DestroyStep(s, t).threads[t].pc != s.threads[t].pc;
  }

  lemma UnblockedCanGo(s: State, t: nat)
    requires s.alive && t < |s.threads| && !s.threads[t].pc.Idle? && !Blocked(s, s.threads[t].pc)
    ensures CanGo(s, t)
  {
    hide CanGo, Blocked;
    if WaitPc(s.threads[t].pc) { UnblockedWaiterCanGo(s, t); }
    else if CleanupPc(s.threads[t].pc) { UnblockedCleanupCanGo(s, t); }
    else if UnblockPc(s.threads[t].pc) { UnblockedSignallerCanGo(s, t); }
    else { UnblockedDestroyerCanGo(s, t); }
  }

  /** A thread that waits for the gate while holding mtxUnblockLock waits for a thread
      that can go on and does not need that mutex. */
  lemma GateWaitIsNotCircular(s: State, t: nat) returns (u: nat)
    requires Inv(s) && s.alive && t < |s.threads| && s.gate == 0
    requires s.threads[t].pc.SigGate? || s.threads[t].pc.RenormWait?
    ensures u < |s.threads| && OwesGate(s.threads[u]) == 1 && HoldsMtx(s.threads[u]) == 0 && CanGo(s, u)
  {
    hide CanGo, Sum;
    assert ThreadOk(s, s.threads[t]);
    u := SumWitness(s.threads, OwesGate);
    Alone(s, t);
    UnblockedCanGo(s, u);
  }

  lemma MutexHolderOrDelegateCanGo(s: State) returns (u: nat)
    requires Inv(s) && s.alive && s.mtx
    ensures CanGo(s, u)
  {
    hide CanGo, Sum;
    u := SumWitness(s.threads, HoldsMtx);
    if (s.threads[u].pc.SigGate? || s.threads[u].pc.RenormWait?) && s.gate == 0 {
      u := GateWaitIsNotCircular(s, u);
    } else {
      UnblockedCanGo(s, u);
    }
  }

  /** Owed wake-ups never get stuck: while any is owed, some thread can go on. */
  lemma OwedWakeUpsMove(s: State) returns (u: nat)
    requires Inv(s) && s.alive && s.toUnblock > 0
    ensures CanGo(s, u)
  {
    hide CanGo, Sum;
    if s.mtx {
      u := MutexHolderOrDelegateCanGo(s);
    } else if s.queue == 0 {
      u := SumWitness(s.threads, Tokens);
      Alone(s, u);
      UnblockedCanGo(s, u);
    } else {
      u := SumWitness(s.threads, Registered);
      Alone(s, u);
      UnblockedCanGo(s, u);
    }
  }

  /** No deadlock inside the library: if any thread is inside a call other than waiting
      for a signal or for the callers' own mutex, some thread can go on. */
  lemma NoDeadlock(s: State, t: nat) returns (u: nat)
    requires Inv(s) && s.alive && t < |s.threads|
    requires !s.threads[t].pc.Idle? && !s.threads[t].pc.Waiting? && !s.threads[t].pc.Relock?
    ensures CanGo(s, u)
  {
    hide CanGo, Sum;
    if s.mtx {
      u := MutexHolderOrDelegateCanGo(s);
    } else if s.gate == 0 && s.toUnblock > 0 {
      u := OwedWakeUpsMove(s);
    } else if s.gate == 0 {
      u := SumWitness(s.threads, OwesGate);
      Alone(s, u);
      UnblockedCanGo(s, u);
    } else {
      u := t;
      UnblockedCanGo(s, u);
    }
  }

  // ---- whole calls ----

  /** The operations that wait. */
  predicate Waits(pc: Pc) {
    || pc.WaitGate? || pc.Waiting? || pc.Leave? || pc.RenormWait? || pc.Relock?
    || pc.SigLock? || pc.SigGate? || pc.DesGate?
  }

  /** Where a thread may be after an operation: the flow of control of the C functions. */
  predicate Follows(th: Thread, next: Thread) {
    if WaitPc(th.pc) then WaitFollows(th, next)
    else if CleanupPc(th.pc) then CleanupFollows(th, next)
    else if UnblockPc(th.pc) then next.ext == th.ext && UnblockFollows(th.pc, next.pc)
    else next.ext == th.ext && DestroyFollows(th.pc, next.pc)
  }

  predicate WaitFollows(th: Thread, next: Thread)
    requires WaitPc(th.pc)
  {
    && (next.ext <==> th.ext && !th.pc.ExtUnlock?)
    && match th.pc
       case WaitGate => next.pc.RegLoad?
       case RegLoad => next.pc.RegStore?
       case RegStore(_) => next.pc.RegPost?
       case RegPost => next.pc.ExtUnlock?
       case ExtUnlock => next.pc.Waiting?
       case Waiting => next.pc == Leave(true)
  }

  predicate CleanupFollows(th: Thread, next: Thread)
    requires CleanupPc(th.pc)
  {
    && (next.ext <==> th.ext || th.pc.Relock?)
    && match th.pc
       case Leave(token) => next.pc == Dereg(token)
       case Dereg(_) => next.pc.Release? || next.pc.RenormWait?
       case RenormWait => next.pc.RenormSub?
       case RenormSub => next.pc.RenormPost?
       case RenormPost => next.pc.RenormClear?
       case RenormClear => next.pc == Release(0)
       case Release(left) => if left == 1 then next.pc.Open? else next.pc.Relock?
       case Open => next.pc.Relock?
       case Relock => next.pc.Idle?
  }

  predicate UnblockFollows(pc: Pc, next: Pc)
    requires UnblockPc(pc)
  {
    match pc
    case SigLock(all) => next == SigTest(all)
    case SigTest(all) => next == SigGate(all) || next.SigRelease?
    case SigGate(all) => next == SigMove(all)
    case SigMove(_) => next.SigRelease?
    case SigRelease(n) => if n == 0 then next.Idle? else next == SigPost(n)
    case SigPost(_) => next.Idle?
  }

  predicate DestroyFollows(pc: Pc, next: Pc) {
    match pc
    case DesGate => next.DesTry?
    case DesTry => next.DesBusy? || next.DesCheck?
    case DesBusy => next.Idle?
    case DesCheck => next.DesPost? || next.Idle?
    case DesPost => next.DesRelease?
    case DesRelease => next.Idle?
    case _ => true
  }

  lemma WaitGoes(s: State, t: nat)
    requires t < |s.threads| && WaitPc(s.threads[t].pc) && !Blocked(s, s.threads[t].pc)
    requires Inv(s)
    ensures t < |WaitStep(s, t).threads| && WaitFollows(s.threads[t], WaitStep(s, t).threads[t])
  {
  }

  lemma CleanupGoes(s: State, t: nat)
    requires t < |s.threads| && CleanupPc(s.threads[t].pc) && !Blocked(s, s.threads[t].pc)
    ensures t < |CleanupStep(s, t).threads| && CleanupFollows(s.threads[t], CleanupStep(s, t).threads[t])
  {
  }

  lemma UnblockGoes(s: State, t: nat)
    requires t < |s.threads| && UnblockPc(s.threads[t].pc) && !Blocked(s, s.threads[t].pc)
    ensures t < |UnblockStep(s, t).threads| && UnblockStep(s, t).threads[t].ext == s.threads[t].ext
    ensures UnblockFollows(s.threads[t].pc, UnblockStep(s, t).threads[t].pc)
  {
  }

  lemma DestroyGoes(s: State, t: nat)
    requires t < |s.threads| && DestroyPc(s.threads[t].pc) && !Blocked(s, s.threads[t].pc)
    ensures t < |DestroyStep(s, t).threads| && DestroyStep(s, t).threads[t].ext == s.threads[t].ext
    ensures DestroyFollows(s.threads[t].pc, DestroyStep(s, t).threads[t].pc)
    ensures DestroyStep(s, t).alive <==> s.alive && !(s.threads[t].pc.DesCheck? && DestroyStep(s, t).threads[t].pc.Idle?)
  {
  }

  /** The object lives on over every step but one. */
  lemma AliveKept(s: State, t: nat, m: Move)
    requires t < |s.threads| && !s.threads[t].pc.DesCheck?
    ensures Step(s, t, m).alive == s.alive
  {
  }

  lemma StepFollows(s: State, t: nat)
    requires Inv(s) && s.alive && t < |s.threads| && !s.threads[t].pc.Idle? && !Blocked(s, s.threads[t].pc)
    ensures t < |Step(s, t, Go).threads| && Follows(s.threads[t], Step(s, t, Go).threads[t])
  {
    hide WaitStep, CleanupStep, UnblockStep, DestroyStep, Inv, Blocked,
      WaitFollows, CleanupFollows, UnblockFollows, DestroyFollows;
    if WaitPc(s.threads[t].pc) { WaitGoes(s, t); }
    else if CleanupPc(s.threads[t].pc) { CleanupGoes(s, t); }
    else if UnblockPc(s.threads[t].pc) { UnblockGoes(s, t); }
    else { DestroyGoes(s, t); }
  }

  lemma CheckDecides(s: State, t: nat)
    requires s.alive && t < |s.threads| && s.threads[t].pc.DesCheck?
    ensures t < |Step(s, t, Go).threads|
    ensures Step(s, t, Go).alive == Step(s, t, Go).threads[t].pc.DesPost?
  {
  }

  lemma InterruptMeans(s: State, t: nat)
    requires s.alive && t < |s.threads| && (s.threads[t].pc.WaitGate? || s.threads[t].pc.Waiting?)
    ensures var s' := Step(s, t, Interrupt);
      && |s'.threads| == |s.threads|
      && s'.threads[t] == s.threads[t].(pc := if s.threads[t].pc.WaitGate? then Idle else Leave(false))
  {
  }

  lemma GoodIsInv(s: State)
    requires Good(s) && s.alive
    ensures Inv(s)
  {
  }

  /** Elsewhere than at the points that can remain, a thread keeps the object alive. */
  lemma KeepsAlive(s: State, t: nat)
    requires Good(s) && t < |s.threads| && !MayRemain(s.threads[t].pc)
    ensures s.alive && Inv(s)
  {
  }

  /** What signal or broadcast does at the step that decides: nothing, because every
      registered waiter is owed a wake-up already, or it issues what it has to. */
  ghost predicate Decided(s: State, s': State, t: nat, all: bool) {
    && Inv(s) && Inv(s') && t < |s.threads| == |s'.threads|
    && if s'.threads[t].pc == SigRelease(0) then Unowed(s) == 0 && s'.toUnblock == s.toUnblock
       else Issued(s, s', t, all)
  }

  lemma DecidedBy(s: State, t: nat, all: bool)
    requires Inv(s) && s.alive && t < |s.threads| && (s.threads[t].pc == SigTest(all) || s.threads[t].pc == SigMove(all))
    ensures var s' := Step(s, t, Go);
      && |s'.threads| == |s.threads| && s'.threads[t].ext == s.threads[t].ext
      && (s'.threads[t].pc.SigRelease? || (s'.threads[t].pc == SigGate(all) && s.threads[t].pc.SigTest?))
      && (s'.threads[t].pc.SigRelease? ==> Decided(s, s', t, all))
  {
    hide Inv, Sum;
    UnblockKeepsInv(s, t);
    if s.threads[t].pc.SigMove? {
      SigMoveIssues(s, t);
    } else {
      SignalDropsOnlyIfAllOwed(s, t);
      if s.toUnblock > 0 && Unowed(s) > 0 { SigTestIssues(s, t); } else { DebtIsNotNegative(s); }
    }
  }

  lemma DebtIsNotNegative(s: State)
    requires Inv(s)
    ensures s.toUnblock >= 0
  {
  }

  /** Thread t's time-out or cancellation is in its turns. */
  ghost predicate Asked(t: nat, turns: seq<seq<(nat, Move)>>) {
    exists i :: 0 <= i < |turns| && (t, Interrupt) in turns[i]
  }

  /** It is in the next turn. */
  predicate AskedNow(t: nat, turns: seq<seq<(nat, Move)>>) { turns != [] && (t, Interrupt) in turns[0] }

  lemma AskedNowOrLater(t: nat, turns: seq<seq<(nat, Move)>>)
    ensures Asked(t, turns) <==> turns != [] && (AskedNow(t, turns) || Asked(t, turns[1..]))
  {
    if turns != [] && Asked(t, turns[1..]) {
      var i :| 0 <= i < |turns| - 1 && (t, Interrupt) in turns[1..][i];
      assert (t, Interrupt) in turns[i + 1];
    }
    if Asked(t, turns) && !AskedNow(t, turns) {
      var i :| 0 <= i < |turns| && (t, Interrupt) in turns[i];
      assert turns[1..][i - 1] == turns[i];
    }
  }

  /** The waits that end by a time-out or a cancellation. */
  predicate MayEnd(pc: Pc) { pc.WaitGate? || pc.Waiting? }

  lemma NothingAsked(t: nat, turns: seq<seq<(nat, Move)>>)
    ensures turns == [] ==> !Asked(t, turns)
  {
  }

  /** One move of thread t in a state of the object's life. */
  ghost predicate Does(s: State, s': State, t: nat, m: Move) {
    Inv(s) && s.alive && t < |s.threads| == |s'.threads| && s' == Step(s, t, m)
  }

  /** A wait takes a token from the queue semaphore. */
  ghost predicate TakesToken(s: State, s': State, t: nat) {
    && Inv(s) && s.alive && t < |s.threads| == |s'.threads|
    && s.threads[t].pc.Waiting? && s'.threads[t].pc == Leave(true)
    && s.queue > 0 && s'.queue == s.queue - 1
  }

  /** A wait ends, before or after the registration, without a token. */
  ghost predicate GivesUp(s: State, s': State, t: nat) {
    && Inv(s) && s.alive && t < |s.threads| == |s'.threads|
    && (s.threads[t].pc.WaitGate? || s.threads[t].pc.Waiting?)
    && s'.threads[t].pc == (if s.threads[t].pc.WaitGate? then Idle else Leave(false))
    && s'.queue == s.queue && s'.blocked == s.blocked
  }

  lemma TokenTaken(s: State, s': State, t: nat)
    requires Does(s, s', t, Go) && s.threads[t].pc.Waiting? && !Blocked(s, s.threads[t].pc)
    ensures TakesToken(s, s', t)
  {
  }

  lemma GivenUp(s: State, s': State, t: nat)
    requires Does(s, s', t, Interrupt) && (s.threads[t].pc.WaitGate? || s.threads[t].pc.Waiting?)
    ensures GivesUp(s, s', t)
  {
  }

  /** A destruction is refused because somebody has mtxUnblockLock, or is registered. */
  ghost predicate Refused(s: State, t: nat) {
    && Inv(s) && t < |s.threads|
    && ((s.threads[t].pc.DesTry? && s.mtx) || (s.threads[t].pc.DesCheck? && Sum(s.threads, Registered) > 0))
  }

  lemma TryDecides(s: State, t: nat)
    requires s.alive && t < |s.threads| && s.threads[t].pc.DesTry?
    ensures t < |Step(s, t, Go).threads|
    ensures Step(s, t, Go).threads[t].pc.DesBusy? <==> s.mtx
  {
  }

  lemma CheckRefuses(s: State, t: nat)
    requires Inv(s) && s.alive && t < |s.threads| && s.threads[t].pc.DesCheck?
    ensures Step(s, t, Go).alive ==> Refused(s, t)
    ensures !Step(s, t, Go).alive ==> Sum(s.threads, Registered) == 0
  {
    hide Inv, Sum;
    DestroyIffNoneRegistered(s, t);
    RegisteredIsCount(s);
  }

  lemma RegisteredIsCount(s: State)
    ensures Sum(s.threads, Registered) >= 0
  {
  }

  /** The thread waits for a semaphore, a mutex or the callers' mutex that it cannot get, or
      the object is gone. */
  ghost predicate Stays(s: State, t: nat) {
    t < |s.threads| && (!s.alive || Blocked(s, s.threads[t].pc))
  }

  /** The others' steps of one turn, in their order. */
  function OthersRun(s: State, t: nat, turn: seq<(nat, Move)>): State {
    if turn == [] then s
    else
      var s', (u, m) := OthersRun(s, t, turn[..|turn| - 1]), turn[|turn| - 1];
      if u == t then s' else Step(s', u, m)
  }

  /** How a whole call, or a part of one, ends. Unfinished: it still waits when the other
      threads' turns have run out, or the object has been destroyed before. */
  datatype Outcome = OK | Interrupted | EBUSY | Unfinished

  /** The object in the C program's own form: the fields of pthread_cond_t_, updated in
      place by one method per C function, each call of which is one atomic step, and by
      methods for the whole calls. */
  class Cond {
    var nWaitersBlocked: int
    var nWaitersGone: int
    var nWaitersToUnblock: int
    var semBlockLock: int
    var semBlockQueue: int
    var mtxUnblockLock: bool
    var external: bool
    var alive: bool
    var threads: seq<Thread>

    function Snapshot(): State
      reads this
    {
      State(nWaitersBlocked, nWaitersGone, nWaitersToUnblock, semBlockLock, semBlockQueue, mtxUnblockLock,
            external, alive, threads)
    }

    constructor (n: nat)
      ensures Snapshot() == Init(n) && Inv(Snapshot())
    {
      nWaitersBlocked, nWaitersGone, nWaitersToUnblock := 0, 0, 0;
      semBlockLock, semBlockQueue, mtxUnblockLock := 1, 0, false;
      external, alive := false, true;
      threads := seq(n, i => Thread(Idle, false));
      new;
      InitInv(n);
    }

    method Goto(t: nat, pc: Pc)
      requires t < |threads|
      modifies this`threads
      ensures threads == old(threads)[t := old(threads)[t].(pc := pc)]
    {
      threads := threads[t := threads[t].(pc := pc)];
    }

    method TimedWait(t: nat)
      requires Inv(Snapshot()) && t < |threads| && WaitPc(threads[t].pc)
      modifies this
      ensures Snapshot() == WaitStep(old(Snapshot()), t) && Inv(Snapshot())
    {
      hide Inv;
      WaitKeepsInv(Snapshot(), t);
      match threads[t].pc
      case WaitGate =>
        if semBlockLock > 0 {
          semBlockLock := semBlockLock - 1;
          Goto(t, RegLoad);
        }
      case RegLoad => Goto(t, RegStore(nWaitersBlocked));
      case RegStore(loaded) =>
        nWaitersBlocked := loaded + 1;
        Goto(t, RegPost);
      case RegPost =>
        semBlockLock := semBlockLock + 1;
        Goto(t, ExtUnlock);
      case ExtUnlock =>
        external := false;
        threads := threads[t := Thread(Waiting, false)];
      case Waiting =>
        if semBlockQueue > 0 {
          semBlockQueue := semBlockQueue - 1;
          Goto(t, Leave(true));
        }
    }

    method Cleanup(t: nat)
      requires Inv(Snapshot()) && t < |threads| && CleanupPc(threads[t].pc)
      modifies this
      ensures Snapshot() == CleanupStep(old(Snapshot()), t) && Inv(Snapshot())
    {
      hide Inv;
      CleanupKeepsInv(Snapshot(), t);
      match threads[t].pc
      case Leave(token) =>
        if !mtxUnblockLock {
          mtxUnblockLock := true;
          Goto(t, Dereg(token));
        }
      case Dereg(_) =>
        var nSignalsWasLeft := nWaitersToUnblock;
        if nSignalsWasLeft != 0 {
          nWaitersToUnblock := nWaitersToUnblock - 1;
          Goto(t, Release(nSignalsWasLeft));
        } else {
          nWaitersGone := nWaitersGone + 1;
          Goto(t, if nWaitersGone == GONE_LIMIT then RenormWait else Release(0));
        }
      case RenormWait => Renormalise(t);
      case RenormSub => Renormalise(t);
      case RenormPost => Renormalise(t);
      case RenormClear => Renormalise(t);
      case Release(left) =>
        mtxUnblockLock := false;
        Goto(t, if left == 1 then Open else Relock);
      case Open =>
        semBlockLock := semBlockLock + 1;
        Goto(t, Relock);
      case Relock =>
        if !external {
          external := true;
          threads := threads[t := Thread(Idle, true)];
        }
    }

    method Renormalise(t: nat)
      requires t < |threads| && Renormalising(threads[t]) == 1
      modifies this
      ensures Snapshot() == CleanupStep(old(Snapshot()), t)
    {
      match threads[t].pc
      case RenormWait =>
        if semBlockLock > 0 {
          semBlockLock := semBlockLock - 1;
          Goto(t, RenormSub);
        }
      case RenormSub =>
        nWaitersBlocked := nWaitersBlocked - nWaitersGone;
        Goto(t, RenormPost);
      case RenormPost =>
        semBlockLock := semBlockLock + 1;
        Goto(t, RenormClear);
      case RenormClear =>
        nWaitersGone := 0;
        Goto(t, Release(0));
    }

    method Unblock(t: nat)
      requires Inv(Snapshot()) && t < |threads| && UnblockPc(threads[t].pc)
      modifies this
      ensures Snapshot() == UnblockStep(old(Snapshot()), t) && Inv(Snapshot())
    {
      hide Inv;
      UnblockKeepsInv(Snapshot(), t);
      match threads[t].pc
      case SigLock(all) =>
        if !mtxUnblockLock {
          mtxUnblockLock := true;
          Goto(t, SigTest(all));
        }
      case SigTest(unblockAll) => TestWaiters(t, unblockAll);
      case SigGate(all) =>
        if semBlockLock > 0 {
          semBlockLock := semBlockLock - 1;
          Goto(t, SigMove(all));
        }
      case SigMove(unblockAll) => MoveWaiters(t, unblockAll);
      case SigRelease(n) =>
        mtxUnblockLock := false;
        Goto(t, if n == 0 then Idle else SigPost(n));
      case SigPost(n) =>
        semBlockQueue := semBlockQueue + n;
        Goto(t, Idle);
    }

    method TestWaiters(t: nat, unblockAll: bool)
      requires t < |threads| && threads[t].pc == SigTest(unblockAll)
      modifies this
      ensures Snapshot() == UnblockStep(old(Snapshot()), t)
    {
      var nSignalsToIssue := 0;
      if nWaitersToUnblock != 0 {
        if nWaitersBlocked != 0 {
          if unblockAll {
            nSignalsToIssue := nWaitersBlocked;
            nWaitersToUnblock := nWaitersToUnblock + nSignalsToIssue;
            nWaitersBlocked := 0;
          } else {
            nSignalsToIssue := 1;
            nWaitersToUnblock := nWaitersToUnblock + 1;
            nWaitersBlocked := nWaitersBlocked - 1;
          }
        }
        Goto(t, SigRelease(nSignalsToIssue));
      } else if nWaitersBlocked > nWaitersGone {
        Goto(t, SigGate(unblockAll));
      } else {
        Goto(t, SigRelease(0));
      }
    }

    method MoveWaiters(t: nat, unblockAll: bool)
      requires t < |threads| && threads[t].pc == SigMove(unblockAll)
      modifies this
      ensures Snapshot() == UnblockStep(old(Snapshot()), t)
    {
      var nSignalsToIssue := 1;
      if nWaitersGone != 0 {
        nWaitersBlocked := nWaitersBlocked - nWaitersGone;
        nWaitersGone := 0;
      }
      if unblockAll {
        nSignalsToIssue := nWaitersBlocked;
        nWaitersToUnblock := nWaitersBlocked;
        nWaitersBlocked := 0;
      } else {
        nWaitersToUnblock := 1;
        nWaitersBlocked := nWaitersBlocked - 1;
      }
      Goto(t, SigRelease(nSignalsToIssue));
    }

    method Destroy(t: nat)
      requires alive && Inv(Snapshot()) && t < |threads| && DestroyPc(threads[t].pc)
      modifies this
      ensures Snapshot() == DestroyStep(old(Snapshot()), t) && Good(Snapshot())
    {
      hide Inv, Good;
      DestroyKeepsInv(Snapshot(), t);
      match threads[t].pc
      case DesGate =>
        if semBlockLock > 0 {
          semBlockLock := semBlockLock - 1;
          Goto(t, DesTry);
        }
      case DesTry =>
        if mtxUnblockLock {
          Goto(t, DesBusy);
        } else {
          mtxUnblockLock := true;
          Goto(t, DesCheck);
        }
      case DesBusy =>
        semBlockLock := semBlockLock + 1;
        Goto(t, Idle);
      case DesCheck =>
        if nWaitersBlocked > nWaitersGone {
          Goto(t, DesPost);
        } else {
          alive := false;
          Goto(t, Idle);
        }
      case DesPost =>
        semBlockLock := semBlockLock + 1;
        Goto(t, DesRelease);
      case DesRelease =>
        mtxUnblockLock := false;
        Goto(t, Idle);
    }

    method Call(t: nat, m: Move)
      requires Inv(Snapshot()) && t < |threads| && threads[t].pc.Idle?
      modifies this
      ensures Snapshot() == CallStep(old(Snapshot()), t, m) && Inv(Snapshot())
    {
      hide Inv;
      CallKeepsInv(Snapshot(), t, m);
      match m
      case CallWait => if threads[t].ext { Goto(t, WaitGate); }
      case CallSignal(all) => Goto(t, SigLock(all));
      case CallDestroy => Goto(t, DesGate);
      case LockExt =>
        if !external {
          external := true;
          threads := threads[t := Thread(Idle, true)];
        }
      case UnlockExt =>
        if threads[t].ext {
          external := false;
          threads := threads[t := Thread(Idle, false)];
        }
      case _ =>
    }

    /** Lets one thread take one step. */
    method Advance(t: nat, m: Move)
      requires Good(Snapshot())
      modifies this
      ensures Snapshot() == Step(old(Snapshot()), t, m) && Good(Snapshot())
    {
      hide Inv, Destroyed, CallStep, WaitStep, CleanupStep, UnblockStep, DestroyStep;
      StepKeepsGood(Snapshot(), t, m);
      if t < |threads| && alive {
        var pc := threads[t].pc;
        if pc.Idle? { Call(t, m); }
        else if m.Interrupt? {
          if pc.WaitGate? { Goto(t, Idle); }
          else if pc.Waiting? { Goto(t, Leave(false)); }
        }
        else if !m.Go? { }
        else if WaitPc(pc) { TimedWait(t); }
        else if CleanupPc(pc) { Cleanup(t); }
        else if UnblockPc(pc) { Unblock(t); }
        else { Destroy(t); }
      }
    }

    // ---- whole calls, with the other threads' steps in between ----

    /** What the other threads do between two operations of thread t. */
    method Others(t: nat, turns: seq<seq<(nat, Move)>>) returns (later: seq<seq<(nat, Move)>>)
      requires Good(Snapshot()) && t < |threads|
      modifies this
      ensures Good(Snapshot()) && |threads| == old(|threads|) && threads[t] == old(threads[t])
      ensures later == if turns == [] then [] else turns[1..]
      ensures Snapshot() == if turns == [] then old(Snapshot()) else OthersRun(old(Snapshot()), t, turns[0])
      ensures Asked(t, turns) <==> AskedNow(t, turns) || Asked(t, later)
    {
      hide Good, Step;
      AskedNowOrLater(t, turns);
      later := [];
      if turns != [] {
        for i := 0 to |turns[0]|
          invariant Good(Snapshot()) && |threads| == old(|threads|) && threads[t] == old(threads[t])
          invariant Snapshot() == OthersRun(old(Snapshot()), t, turns[0][..i])
        {
          assert turns[0][..i + 1][..i] == turns[0][..i];
          var (u, m) := turns[0][i];
          if u != t {
            StepKeepsThreads(Snapshot(), u, m);
            Advance(u, m);
          }
        }
        assert turns[0][..|turns[0]|] == turns[0];
        later := turns[1..];
      }
    }

    /** Whether thread t's next operation has to wait. */
    method MustWait(t: nat) returns (r: bool)
      requires t < |threads|
      ensures r == Blocked(Snapshot(), threads[t].pc)
    {
      match threads[t].pc
      case WaitGate => r := semBlockLock <= 0;
      case RenormWait => r := semBlockLock <= 0;
      case SigGate(_) => r := semBlockLock <= 0;
      case DesGate => r := semBlockLock <= 0;
      case Leave(_) => r := mtxUnblockLock;
      case SigLock(_) => r := mtxUnblockLock;
      case Waiting => r := semBlockQueue <= 0;
      case Relock => r := external;
      case _ => r := false;
    }

    /** The next operation of thread t, when it need not wait. */
    method Operate(t: nat)
      requires Good(Snapshot()) && alive && t < |threads| && !threads[t].pc.Idle?
      requires !Blocked(Snapshot(), threads[t].pc)
      modifies this
      ensures Good(Snapshot()) && |threads| == old(|threads|) && Follows(old(threads[t]), threads[t])
      ensures Snapshot() == Step(old(Snapshot()), t, Go)
      ensures !old(threads[t]).pc.DesCheck? ==> alive
      ensures old(threads[t]).pc.DesCheck? ==> alive == threads[t].pc.DesPost?
    {
      hide Step, Inv, Destroyed, Blocked, Follows;
      StepFollows(Snapshot(), t);
      StepKeepsThreads(Snapshot(), t, Go);
      if threads[t].pc.DesCheck? { CheckDecides(Snapshot(), t); } else { AliveKept(Snapshot(), t, Go); }
      Advance(t, Go);
    }

    /** Others' steps, and then an operation that does not wait. */
    method GoOn(t: nat, turns: seq<seq<(nat, Move)>>) returns (later: seq<seq<(nat, Move)>>)
      requires Good(Snapshot()) && t < |threads| && !MayRemain(threads[t].pc) && !Waits(threads[t].pc)
      modifies this
      ensures Good(Snapshot()) && |threads| == old(|threads|) && Follows(old(threads[t]), threads[t])
      ensures !old(threads[t]).pc.DesCheck? ==> alive
      ensures old(threads[t]).pc.DesCheck? ==> alive == threads[t].pc.DesPost?
      ensures Asked(t, turns) <==> AskedNow(t, turns) || Asked(t, later)
    {
      hide Good, Step, Follows, Asked, AskedNow;
      later := Others(t, turns);
      KeepsAlive(Snapshot(), t);
      Operate(t);
    }

    /** A time-out or a cancellation, where the source allows one. */
    method Give(t: nat) returns (ghost before: State)
      requires Good(Snapshot()) && alive && t < |threads| && (threads[t].pc.WaitGate? || threads[t].pc.Waiting?)
      modifies this
      ensures Good(Snapshot()) && |threads| == old(|threads|)
      ensures threads[t] == old(threads[t]).(pc := if old(threads[t]).pc.WaitGate? then Idle else Leave(false))
      ensures before == old(Snapshot()) && Does(before, Snapshot(), t, Interrupt)
    {
      hide Good, Step;
      GoodIsInv(Snapshot());
      before := Snapshot();
      InterruptMeans(Snapshot(), t);
      Advance(t, Interrupt);
    }

    /** Others' steps, and then an operation that may have to wait for more of them, or for
        which the object may be gone. A wait that the source lets time out or be cancelled
        is interrupted when thread t's turn says so, or at once if it has to wait although
        that has been `pending` before. */
    method Await(t: nat, turns: seq<seq<(nat, Move)>>, pending: bool)
      returns (r: Outcome, later: seq<seq<(nat, Move)>>, ghost before: State)
      requires Good(Snapshot()) && t < |threads| && (Waits(threads[t].pc) || threads[t].pc.SigPost?)
      modifies this
      ensures Good(Snapshot()) && |threads| == old(|threads|)
      ensures r == OK ==> alive && Follows(old(threads[t]), threads[t])
      ensures r == OK ==>
        && Does(before, Snapshot(), t, Go)
        && before.threads[t] == old(threads[t]) && !Blocked(before, before.threads[t].pc)
      ensures r == Interrupted ==>
        && (pending || Asked(t, turns))
        && Does(before, Snapshot(), t, Interrupt) && before.threads[t] == old(threads[t])
      ensures r == Interrupted ==>
        || (old(threads[t]).pc.WaitGate? && threads[t] == old(threads[t]).(pc := Idle))
        || (old(threads[t]).pc.Waiting? && threads[t] == old(threads[t]).(pc := Leave(false)))
      ensures r != EBUSY
      ensures r == Unfinished ==>
        (later == [] || !alive) && Stays(Snapshot(), t) && threads[t] == old(threads[t])
      ensures r == Unfinished && alive && MayEnd(threads[t].pc) ==>
        !pending && !Asked(t, turns)
      ensures r == OK && old(threads[t]).pc.WaitGate? ==> (Asked(t, turns) <==> Asked(t, later))
    {
      hide Good, Step, Follows, Blocked, Asked;
      var waits, interrupt;
      waits, interrupt, later := Linger(t, turns, pending);
      before := Snapshot();
      if alive && MayEnd(threads[t].pc) && (interrupt || (pending && waits)) {
        before := Give(t);
        r := Interrupted;
      } else if waits || !alive {
        NothingAsked(t, later);
        r := Unfinished;
      } else {
        GoodIsInv(Snapshot());
        Operate(t);
        r := OK;
      }
    }

    /** Others' steps, as long as thread t has to wait and is not asked to end a wait. */
    method Linger(t: nat, turns: seq<seq<(nat, Move)>>, pending: bool)
      returns (waits: bool, interrupt: bool, later: seq<seq<(nat, Move)>>)
      requires Good(Snapshot()) && t < |threads|
      modifies this
      ensures Good(Snapshot()) && |threads| == old(|threads|) && threads[t] == old(threads[t])
      ensures waits == Blocked(Snapshot(), threads[t].pc)
      ensures Asked(t, turns) <==> interrupt || Asked(t, later)
      ensures waits && alive && later != [] ==> MayEnd(threads[t].pc) && (interrupt || pending)
    {
      hide Good, Step, Blocked, Asked, AskedNow, MayEnd;
      interrupt := AskedNow(t, turns);
      later := Others(t, turns);
      waits := MustWait(t);
      while waits && alive && later != [] && !(MayEnd(threads[t].pc) && (interrupt || pending))
        invariant Good(Snapshot()) && |threads| == old(|threads|) && threads[t] == old(threads[t])
        invariant waits == Blocked(Snapshot(), threads[t].pc)
        invariant Asked(t, turns) <==> interrupt || Asked(t, later)
        decreases |later|
      {
        interrupt := interrupt || AskedNow(t, later);
        later := Others(t, later);
        waits := MustWait(t);
      }
    }

    method Begin(t: nat, m: Move, ghost pc: Pc)
      requires Good(Snapshot()) && alive && t < |threads| && threads[t].pc.Idle?
      requires match m case CallWait => threads[t].ext && pc == WaitGate
                       case CallSignal(all) => pc == SigLock(all)
                       case CallDestroy => pc == DesGate
                       case _ => false
      modifies this
      ensures Good(Snapshot()) && |threads| == old(|threads|) && threads[t] == old(threads[t]).(pc := pc)
    {
      hide Good;
      Advance(t, m);
    }

    /** pthread_cond_wait and pthread_cond_timedwait as a whole, called and left with the
        caller's mutex held. OK: at one moment of the call, between `before` and `after`, a
        token has been taken; Interrupted: a time-out or a cancellation that was in the
        thread's turns has ended the wait without one. A call that still waits for the gate
        or for a token has not been asked to end. */
    method WaitCall(t: nat, turns: seq<seq<(nat, Move)>>)
      returns (r: Outcome, later: seq<seq<(nat, Move)>>, ghost before: State, ghost after: State)
      requires Good(Snapshot()) && alive && t < |threads| && threads[t] == Thread(Idle, true)
      modifies this
      ensures Good(Snapshot()) && |threads| == old(|threads|)
      ensures r == OK || r == Interrupted ==> threads[t] == Thread(Idle, true)
      ensures r == OK ==> TakesToken(before, after, t)
      ensures r == Interrupted ==> GivesUp(before, after, t) && Asked(t, turns)
      ensures r != EBUSY && (r == Unfinished ==> (later == [] || !alive) && Stays(Snapshot(), t))
      ensures r == Unfinished && alive && MayEnd(threads[t].pc) ==> !Asked(t, turns)
    {
      hide Good, Snapshot, Asked, TakesToken, GivesUp, Does, Stays;
      Begin(t, CallWait, WaitGate);
      r, later, before := Await(t, turns, false);
      after := Snapshot();
      if r == OK {
        var pending;
        pending, later := RegisterCall(t, later);
        r, later, before := Await(t, later, pending);
        after := Snapshot();
        if r == OK { TokenTaken(before, after, t); }
        if r == Interrupted { GivenUp(before, after, t); }
        if r != Unfinished {
          var taken := r;
          r, later := CleanupCall(t, later);
          if r == OK { r := taken; }
        }
      } else if r == Interrupted {
        GivenUp(before, after, t);
      }
    }

    /** The registration under the gate, and the unlock of the callers' mutex; `pending` if
        the thread is asked meanwhile to end its wait. */
    method RegisterCall(t: nat, turns: seq<seq<(nat, Move)>>)
      returns (pending: bool, later: seq<seq<(nat, Move)>>)
      requires Good(Snapshot()) && t < |threads| && threads[t].pc.RegLoad? && threads[t].ext
      modifies this
      ensures Good(Snapshot()) && |threads| == old(|threads|)
      ensures alive && threads[t] == Thread(Waiting, false)
      ensures Asked(t, turns) <==> pending || Asked(t, later)
    {
      hide Good, Snapshot, Asked, AskedNow;
      pending := AskedNow(t, turns);
      later := GoOn(t, turns);
      pending := pending || AskedNow(t, later);
      later := GoOn(t, later);
      pending := pending || AskedNow(t, later);
      later := GoOn(t, later);
      pending := pending || AskedNow(t, later);
      later := GoOn(t, later);
    }

    /** ptw32_cond_wait_cleanup as a whole. */
    method CleanupCall(t: nat, turns: seq<seq<(nat, Move)>>) returns (r: Outcome, later: seq<seq<(nat, Move)>>)
      requires Good(Snapshot()) && t < |threads| && threads[t].pc.Leave? && !threads[t].ext
      modifies this
      ensures Good(Snapshot()) && |threads| == old(|threads|)
      ensures r == OK || (r == Unfinished && (later == [] || !alive) && Stays(Snapshot(), t) && CleanupPc(threads[t].pc))
      ensures r == OK ==> threads[t] == Thread(Idle, true)
    {
      hide Good, Snapshot, Stays, Asked, Does;
      ghost var waited;
      r, later, waited := Await(t, turns, false);
      if r == OK {
        later := GoOn(t, later);
        if threads[t].pc.RenormWait? { r, later := RenormaliseCall(t, later); }
        if r == OK { r, later := FinishCleanup(t, later); }
      }
    }

    /** The branch that is taken when the gone count gets to INT_MAX / 2. */
    method RenormaliseCall(t: nat, turns: seq<seq<(nat, Move)>>) returns (r: Outcome, later: seq<seq<(nat, Move)>>)
      requires Good(Snapshot()) && t < |threads| && threads[t].pc.RenormWait? && !threads[t].ext
      modifies this
      ensures Good(Snapshot()) && |threads| == old(|threads|)
      ensures r == OK || (r == Unfinished && (later == [] || !alive) && Stays(Snapshot(), t) && CleanupPc(threads[t].pc))
      ensures r == OK ==> threads[t] == Thread(Release(0), false)
    {
      hide Good, Snapshot, Stays, Asked, Does;
      ghost var waited;
      r, later, waited := Await(t, turns, false);
      if r == OK {
        later := GoOn(t, later);
        later := GoOn(t, later);
        later := GoOn(t, later);
      }
    }

    method FinishCleanup(t: nat, turns: seq<seq<(nat, Move)>>) returns (r: Outcome, later: seq<seq<(nat, Move)>>)
      requires Good(Snapshot()) && t < |threads| && threads[t].pc.Release? && !threads[t].ext
      modifies this
      ensures Good(Snapshot()) && |threads| == old(|threads|)
      ensures r == OK || (r == Unfinished && (later == [] || !alive) && Stays(Snapshot(), t) && CleanupPc(threads[t].pc))
      ensures r == OK ==> threads[t] == Thread(Idle, true)
    {
      hide Good, Snapshot, Stays, Asked, Does;
      later := GoOn(t, turns);
      if threads[t].pc.Open? { later := GoOn(t, later); }
      ghost var waited;
      r, later, waited := Await(t, later, false);
    }

    /** The test of the counts, or the move after the gate has been closed. */
    method Decide(t: nat, all: bool, turns: seq<seq<(nat, Move)>>)
      returns (later: seq<seq<(nat, Move)>>, ghost before: State, ghost after: State)
      requires Good(Snapshot()) && t < |threads| && (threads[t].pc == SigTest(all) || threads[t].pc == SigMove(all))
      modifies this
      ensures Good(Snapshot()) && |threads| == old(|threads|) && threads[t].ext == old(threads[t].ext)
      ensures threads[t].pc.SigRelease? || (threads[t].pc == SigGate(all) && old(threads[t].pc.SigTest?))
      ensures threads[t].pc.SigRelease? ==> Decided(before, after, t, all)
    {
      hide Good, Step, Decided;
      later := Others(t, turns);
      KeepsAlive(Snapshot(), t);
      before := Snapshot();
      Operate(t);
      after := Snapshot();
      DecidedBy(before, t, all);
    }

    /** pthread_cond_signal and pthread_cond_broadcast as a whole. At one moment of the call,
        between the states `before` and `after`, the wake-ups are issued, or every waiter is
        owed one already. */
    method SignalCall(t: nat, all: bool, turns: seq<seq<(nat, Move)>>)
      returns (r: Outcome, later: seq<seq<(nat, Move)>>, ghost before: State, ghost after: State)
      requires Good(Snapshot()) && alive && t < |threads| && threads[t].pc.Idle?
      modifies this
      ensures Good(Snapshot()) && |threads| == old(|threads|)
      ensures r == OK || (r == Unfinished && (later == [] || !alive) && Stays(Snapshot(), t))
      ensures r == OK ==> threads[t] == old(threads[t]) && Decided(before, after, t, all)
    {
      hide Good, Snapshot, Decided, Stays, Asked, Does;
      before, after := Snapshot(), Snapshot();
      Begin(t, CallSignal(all), SigLock(all));
      ghost var waited;
      r, later, waited := Await(t, turns, false);
      if r == OK {
        later, before, after := Decide(t, all, later);
        if threads[t].pc.SigGate? { r, later, before, after := CloseGate(t, all, later); }
        if r == OK { r, later := Post(t, later); }
      }
    }

    method CloseGate(t: nat, all: bool, turns: seq<seq<(nat, Move)>>)
      returns (r: Outcome, later: seq<seq<(nat, Move)>>, ghost before: State, ghost after: State)
      requires Good(Snapshot()) && t < |threads| && threads[t].pc == SigGate(all)
      modifies this
      ensures Good(Snapshot()) && |threads| == old(|threads|)
      ensures r == OK || (r == Unfinished && (later == [] || !alive) && Stays(Snapshot(), t))
      ensures r == OK ==>
        threads[t].pc.SigRelease? && threads[t].ext == old(threads[t].ext) && Decided(before, after, t, all)
    {
      hide Good, Snapshot, Decided, Stays, Asked, Does;
      before, after := Snapshot(), Snapshot();
      ghost var waited;
      r, later, waited := Await(t, turns, false);
      if r == OK { later, before, after := Decide(t, all, later); }
    }

    method Post(t: nat, turns: seq<seq<(nat, Move)>>) returns (r: Outcome, later: seq<seq<(nat, Move)>>)
      requires Good(Snapshot()) && t < |threads| && threads[t].pc.SigRelease?
      modifies this
      ensures Good(Snapshot()) && |threads| == old(|threads|)
      ensures r == OK || (r == Unfinished && (later == [] || !alive) && Stays(Snapshot(), t))
      ensures r == OK ==> threads[t] == old(threads[t]).(pc := Idle)
    {
      hide Good, Snapshot, Stays, Asked, Does;
      r := OK;
      later := GoOn(t, turns);
      ghost var waited;
      if threads[t].pc.SigPost? { r, later, waited := Await(t, later, false); }
    }

    /** pthread_cond_destroy as a whole: OK means that this call has destroyed the object
        with nobody registered, EBUSY that it is alive at the return, and that in the state
        `seen` somebody had mtxUnblockLock or was registered. */
    method DestroyCall(t: nat, turns: seq<seq<(nat, Move)>>)
      returns (r: Outcome, later: seq<seq<(nat, Move)>>, ghost seen: State)
      requires Good(Snapshot()) && alive && t < |threads| && threads[t].pc.Idle?
      modifies this
      ensures Good(Snapshot()) && |threads| == old(|threads|)
      ensures r == OK || r == EBUSY ==> threads[t] == old(threads[t]) && (r == OK <==> !alive)
      ensures r == EBUSY ==> Refused(seen, t)
      ensures r != Interrupted && (r == Unfinished ==> (later == [] || !alive) && Stays(Snapshot(), t))
    {
      hide Good, Snapshot, Stays, Asked, Does, Refused;
      seen := Snapshot();
      Begin(t, CallDestroy, DesGate);
      ghost var waited;
      r, later, waited := Await(t, turns, false);
      if r == OK {
        later, seen := TryCall(t, later);
        if threads[t].pc.DesBusy? {
          later := GoOn(t, later);
          r := EBUSY;
        } else {
          r, later, seen := CheckCall(t, later);
        }
      }
    }

    /** The pthread_mutex_trylock of mtxUnblockLock. */
    method TryCall(t: nat, turns: seq<seq<(nat, Move)>>) returns (later: seq<seq<(nat, Move)>>, ghost seen: State)
      requires Good(Snapshot()) && t < |threads| && threads[t].pc.DesTry?
      modifies this
      ensures Good(Snapshot()) && |threads| == old(|threads|) && alive && threads[t].ext == old(threads[t].ext)
      ensures threads[t].pc.DesBusy? || threads[t].pc.DesCheck?
      ensures threads[t].pc.DesBusy? ==> Refused(seen, t)
    {
      hide Good, Step;
      later := Others(t, turns);
      KeepsAlive(Snapshot(), t);
      seen := Snapshot();
      TryDecides(seen, t);
      Operate(t);
    }

    /** The check under both locks. */
    method CheckCall(t: nat, turns: seq<seq<(nat, Move)>>)
      returns (r: Outcome, later: seq<seq<(nat, Move)>>, ghost seen: State)
      requires Good(Snapshot()) && t < |threads| && threads[t].pc.DesCheck?
      modifies this
      ensures Good(Snapshot()) && |threads| == old(|threads|)
      ensures r == (if alive then EBUSY else OK) && threads[t] == old(threads[t]).(pc := Idle)
      ensures r == EBUSY ==> Refused(seen, t)
    {
      hide Good, Snapshot, Stays, Asked, Refused;
      later, seen := Check(t, turns);
      r := OK;
      if alive {
        later := GoOn(t, later);
        later := GoOn(t, later);
        r := EBUSY;
      }
    }

    method Check(t: nat, turns: seq<seq<(nat, Move)>>) returns (later: seq<seq<(nat, Move)>>, ghost seen: State)
      requires Good(Snapshot()) && t < |threads| && threads[t].pc.DesCheck?
      modifies this
      ensures Good(Snapshot()) && |threads| == old(|threads|)
      ensures threads[t] == old(threads[t]).(pc := if alive then DesPost else Idle)
      ensures alive ==> Refused(seen, t)
    {
      hide Good, Step, Refused;
      later := Others(t, turns);
      KeepsAlive(Snapshot(), t);
      seen := Snapshot();
      CheckRefuses(seen, t);
      Operate(t);
    }
  }
}
