/** The read/write lock: one mutex that writers and arriving readers take, one that writers
    and leaving readers take, and a count of completed readers that is negative while a
    writer drains the readers. Each step is one mutex, condition or memory operation. */
module RwLock {
  import opened Counting

  const INT_MAX: int := 0x7FFF_FFFF

  datatype How = Block | Timed | Try

  datatype Pc =
    | Idle
    // pthread_rwlock_rdlock, timedrdlock and tryrdlock
    | RdLock(how: How)
    | RdCount
    | RdRenormLock
    | RdRenorm
    | RdRenormUnlock
    | RdUnlock
    // pthread_rwlock_wrlock, timedwrlock and trywrlock
    | WrLock(how: How)
    | WrLockCompleted(how: How)
    | WrBackOut
    | WrTest(how: How)
    | WrTryUnlock
    | WrWait
    | WrBlocked
    | WrRelock(ok: bool)
    | WrCheck(ok: bool)
    | WrEnter
    // ptw32_rwlock_cancelwrwait
    | Cancel
    | CancelUnlock
    // pthread_rwlock_unlock
    | Unlock
    | RdDoneLock
    | RdDone
    | RdDoneSignal
    | RdDoneUnlock
    | WrDone
    | WrDoneUnlock
    | WrDoneUnlockExclusive

  /** `shares` and `writer` are history: a read lock is active from its `++nSharedAccessCount`
      to its `++nCompletedSharedAccessCount`, and a thread may have several; a writer is
      active while its nExclusiveAccessCount stands. */
  datatype Thread = Thread(pc: Pc, shares: nat, writer: bool)

  /** `mtxE` and `mtxC` are mtxExclusiveAccess and mtxSharedAccessCompleted; `signalled`
      says that the condition has been signalled since a writer began to wait on it. */
  datatype State = State(shared: int, completed: int, exclusive: int, mtxE: bool, mtxC: bool, signalled: bool,
                         threads: seq<Thread>)

  /** `Interrupt` times out or cancels a wait; `Spurious` wakes one for no reason. */
  datatype Move = Go | Interrupt | Spurious | CallRead(how: How) | CallWrite(how: How) | CallUnlock

  function Init(n: nat): State { State(0, 0, 0, false, false, false, seq(n, i => Thread(Idle, 0, false))) }

  function Goto(s: State, t: nat, pc: Pc): State
    requires t < |s.threads|
  {
    s.(threads := At(s.threads, t, pc))
  }

  function At(threads: seq<Thread>, t: nat, pc: Pc): seq<Thread>
    requires t < |threads|
  {
    threads[t := threads[t].(pc := pc)]
  }

  function GotoAs(s: State, t: nat, pc: Pc, shares: nat, writer: bool): State
    requires t < |s.threads|
  {
    s.(threads := s.threads[t := Thread(pc, shares, writer)])
  }

  predicate HasLock(th: Thread) { th.shares > 0 || th.writer }

  /** Discipline: a thread unlocks only what it has. It may lock again at any time. */
  function Step(s: State, t: nat, m: Move): State {
    if t >= |s.threads| then s
    else
      var th := s.threads[t];
      match m
      case Go =>
        if ReadPc(th.pc) then ReadStep(s, t)
        else if WritePc(th.pc) then WriteStep(s, t)
        else if DrainPc(th.pc) then DrainStep(s, t)
        else UnlockStep(s, t)
      case Interrupt =>
        (match th.pc
         case RdLock(how) => if how.Timed? then Goto(s, t, Idle) else s
         case WrLock(how) => if how.Timed? then Goto(s, t, Idle) else s
         case WrLockCompleted(how) => if how.Timed? then Goto(s, t, WrBackOut) else s
         case WrBlocked => Goto(s, t, WrRelock(false))
         case _ => s)
      case Spurious => if th.pc.WrBlocked? then Goto(s, t, WrRelock(true)) else s
      case CallRead(how) => if th.pc.Idle? then Goto(s, t, RdLock(how)) else s
      case CallWrite(how) => if th.pc.Idle? then Goto(s, t, WrLock(how)) else s
      case CallUnlock => if th.pc.Idle? && HasLock(th) then Goto(s, t, Unlock) else s
  }

  predicate ReadPc(pc: Pc) {
    pc.RdLock? || pc.RdCount? || pc.RdRenormLock? || pc.RdRenorm? || pc.RdRenormUnlock? || pc.RdUnlock?
  }

  predicate WritePc(pc: Pc) {
    pc.WrLock? || pc.WrLockCompleted? || pc.WrBackOut? || pc.WrTest? || pc.WrTryUnlock? || pc.WrEnter?
  }

  predicate DrainPc(pc: Pc) {
    pc.WrWait? || pc.WrBlocked? || pc.WrRelock? || pc.WrCheck? || pc.Cancel? || pc.CancelUnlock?
  }

  function ReadStep(s: State, t: nat): State
    requires t < |s.threads| && ReadPc(s.threads[t].pc)
  {
    match s.threads[t].pc
    case RdLock(how) =>
      if !s.mtxE then Goto(s, t, RdCount).(mtxE := true)
      else if how.Try? then Goto(s, t, Idle)
      else s
    case RdCount =>
      var th := s.threads[t];
      GotoAs(s, t, if s.shared + 1 == INT_MAX then RdRenormLock else RdUnlock, th.shares + 1, th.writer)
        .(shared := s.shared + 1)
    case RdRenormLock => if s.mtxC then s else Goto(s, t, RdRenorm).(mtxC := true)
    case RdRenorm => Goto(s, t, RdRenormUnlock).(shared := s.shared - s.completed, completed := 0)
    case RdRenormUnlock => Goto(s, t, RdUnlock).(mtxC := false)
    case RdUnlock => Goto(s, t, Idle).(mtxE := false)
  }

  function WriteStep(s: State, t: nat): State
    requires t < |s.threads| && WritePc(s.threads[t].pc)
  {
    match s.threads[t].pc
    case WrLock(how) =>
      if !s.mtxE then Goto(s, t, WrLockCompleted(how)).(mtxE := true)
      else if how.Try? then Goto(s, t, Idle)
      else s
    case WrLockCompleted(how) =>
      if !s.mtxC then Goto(s, t, WrTest(how)).(mtxC := true)
      else if how.Try? then Goto(s, t, WrBackOut)
      else s
    case WrBackOut => Goto(s, t, Idle).(mtxE := false)
    case WrTest(how) =>
      if s.exclusive != 0 then
        // not reached, see ThreadOk: trywrlock would return here with both mutexes locked
        if how.Try? then Goto(s, t, Idle) else Goto(s, t, WrEnter)
      else
        var shared := if s.completed > 0 then s.shared - s.completed else s.shared;
        var completed := if s.completed > 0 then 0 else s.completed;
        if shared <= 0 then Goto(s, t, WrEnter).(shared := shared, completed := completed)
        else if how.Try? then Goto(s, t, WrTryUnlock).(shared := shared, completed := completed)
        else Goto(s, t, WrWait).(shared := shared, completed := -shared)
    case WrTryUnlock => Goto(s, t, WrBackOut).(mtxC := false)
    case WrEnter => GotoAs(s, t, Idle, s.threads[t].shares, true).(exclusive := s.exclusive + 1)
  }

  function DrainStep(s: State, t: nat): State
    requires t < |s.threads| && DrainPc(s.threads[t].pc)
  {
    match s.threads[t].pc
    case WrWait => Goto(s, t, WrBlocked).(mtxC := false, signalled := false)
    case WrBlocked => if s.signalled then Goto(s, t, WrRelock(true)).(signalled := false) else s
    case WrRelock(ok) => if s.mtxC then s else Goto(s, t, WrCheck(ok)).(mtxC := true)
    case WrCheck(ok) =>
      if !ok then Goto(s, t, Cancel).(shared := -s.completed, completed := 0)
      else if s.completed < 0 then Goto(s, t, WrWait)
      else Goto(s, t, WrEnter).(shared := 0)
    case Cancel => Goto(s, t, CancelUnlock).(mtxC := false)
    case CancelUnlock => Goto(s, t, Idle).(mtxE := false)
  }

  function UnlockStep(s: State, t: nat): State
    requires t < |s.threads|
  {
    match s.threads[t].pc
    case Unlock => Goto(s, t, if s.exclusive == 0 then RdDoneLock else WrDone)
    case RdDoneLock => if s.mtxC then s else Goto(s, t, RdDone).(mtxC := true)
    case RdDone =>
      var th := s.threads[t];
      GotoAs(s, t, if s.completed + 1 == 0 then RdDoneSignal else RdDoneUnlock,
             if th.shares > 0 then th.shares - 1 else 0, th.writer)
        .(completed := s.completed + 1)
    case RdDoneSignal => Goto(s, t, RdDoneUnlock).(signalled := true)
    case RdDoneUnlock => Goto(s, t, Idle).(mtxC := false)
    case WrDone => GotoAs(s, t, WrDoneUnlock, s.threads[t].shares, false).(exclusive := s.exclusive - 1)
    case WrDoneUnlock => Goto(s, t, WrDoneUnlockExclusive).(mtxC := false)
    case WrDoneUnlockExclusive => Goto(s, t, Idle).(mtxE := false)
    case _ => s
  }

  function Run(s: State, schedule: seq<(nat, Move)>): State
    decreases |schedule|
  {
    if schedule == [] then s else Run(Step(s, schedule[0].0, schedule[0].1), schedule[1..])
  }

  // ---- what a thread contributes to the counts ----

  function IsReader(th: Thread): nat { th.shares }

  function IsWriter(th: Thread): nat { B2N(th.writer) }

  function HoldsE(th: Thread): nat {
    B2N(th.pc.RdCount? || th.pc.RdRenormLock? || th.pc.RdRenorm? || th.pc.RdRenormUnlock? || th.pc.RdUnlock?
        || th.pc.WrLockCompleted? || th.pc.WrBackOut? || th.pc.WrTest? || th.pc.WrTryUnlock? || th.pc.WrEnter?
        || DrainPc(th.pc) || th.writer || th.pc.WrDoneUnlock? || th.pc.WrDoneUnlockExclusive?)
  }

  function HoldsC(th: Thread): nat {
    B2N(th.pc.RdRenorm? || th.pc.RdRenormUnlock? || th.pc.WrTest? || th.pc.WrTryUnlock? || th.pc.WrEnter?
        || th.pc.WrWait? || th.pc.WrCheck? || th.pc.Cancel? || th.writer || th.pc.WrDoneUnlock?
        || th.pc.RdDone? || th.pc.RdDoneSignal? || th.pc.RdDoneUnlock?)
  }

  /** A writer is waiting for the readers it found to complete. */
  function Draining(th: Thread): nat { B2N(th.pc.WrWait? || th.pc.WrBlocked? || th.pc.WrRelock? || th.pc.WrCheck?) }

  function Renormalising(th: Thread): nat { B2N(th.pc.RdRenormLock? || th.pc.RdRenorm?) }

  function Signalling(th: Thread): nat { B2N(th.pc.RdDoneSignal?) }

  predicate ThreadOk(s: State, th: Thread) {
    && (th.writer || th.pc.WrEnter? ==> s.shared == 0 && s.completed == 0)
    && (th.pc.WrWait? ==> s.completed < 0)
    && (th.writer ==>
          th.shares == 0 && (th.pc.Idle? || th.pc.RdLock? || th.pc.WrLock? || th.pc.Unlock? || th.pc.WrDone?))
    && (th.pc.Unlock? ==> HasLock(th))
    && (th.pc.WrDone? ==> th.writer)
    && (th.pc.RdDoneLock? || th.pc.RdDone? ==> th.shares > 0)
  }

  /** Read locks that are active: counted in and not yet counted out. */
  function Readers(s: State): int { Sum(s.threads, IsReader) }

  ghost predicate Counts(s: State) {
    && (if Sum(s.threads, Draining) > 0 then
          s.completed == -Readers(s) && s.shared > 0
        else
          s.completed >= 0 && s.shared - s.completed == Readers(s))
    && s.exclusive == Sum(s.threads, IsWriter)
    && Sum(s.threads, HoldsE) == B2N(s.mtxE)
    && Sum(s.threads, HoldsC) == B2N(s.mtxC)
  }

  /** A writer that is blocked although all readers have gone is about to be woken. */
  ghost predicate NoLostWakeUp(s: State) {
    (exists i :: 0 <= i < |s.threads| && s.threads[i].pc.WrBlocked?) && s.completed == 0 ==>
      s.signalled || Sum(s.threads, Signalling) > 0
  }

  ghost predicate Inv(s: State) {
    && Counts(s)
    && NoLostWakeUp(s)
    && forall i :: 0 <= i < |s.threads| ==> ThreadOk(s, s.threads[i])
  }

  // ---- every step keeps the invariant ----

  lemma Moved(s: State, s': State, t: nat)
    requires t < |s.threads| && |s'.threads| == |s.threads|
    requires s'.threads == s.threads[t := s'.threads[t]]
    ensures Sum(s'.threads, IsReader) + IsReader(s.threads[t]) == Sum(s.threads, IsReader) + IsReader(s'.threads[t])
    ensures Sum(s'.threads, IsWriter) + IsWriter(s.threads[t]) == Sum(s.threads, IsWriter) + IsWriter(s'.threads[t])
    ensures Sum(s'.threads, HoldsE) + HoldsE(s.threads[t]) == Sum(s.threads, HoldsE) + HoldsE(s'.threads[t])
    ensures Sum(s'.threads, HoldsC) + HoldsC(s.threads[t]) == Sum(s.threads, HoldsC) + HoldsC(s'.threads[t])
    ensures Sum(s'.threads, Draining) + Draining(s.threads[t]) == Sum(s.threads, Draining) + Draining(s'.threads[t])
    ensures Sum(s'.threads, Renormalising) + Renormalising(s.threads[t])
         == Sum(s.threads, Renormalising) + Renormalising(s'.threads[t])
    ensures Sum(s'.threads, Signalling) + Signalling(s.threads[t]) == Sum(s.threads, Signalling) + Signalling(s'.threads[t])
    ensures IsReader(s.threads[t]) <= Sum(s.threads, IsReader)
    ensures Draining(s.threads[t]) <= Sum(s.threads, Draining)
    ensures Signalling(s.threads[t]) <= Sum(s.threads, Signalling)
  {
    var x := s'.threads[t];
    SumUpdate(s.threads, t, x, IsReader);
    SumUpdate(s.threads, t, x, IsWriter);
    SumUpdate(s.threads, t, x, HoldsE);
    SumUpdate(s.threads, t, x, HoldsC);
    SumUpdate(s.threads, t, x, Draining);
    SumUpdate(s.threads, t, x, Renormalising);
    SumUpdate(s.threads, t, x, Signalling);
    SumBounds(s.threads, t, IsReader);
    SumBounds(s.threads, t, Draining);
    SumBounds(s.threads, t, Signalling);
  }

  /** What holding one of the mutexes says about everybody else. */
  lemma Alone(s: State, t: nat)
    requires Counts(s) && t < |s.threads|
    ensures HoldsE(s.threads[t]) == 1 ==>
      && s.mtxE
      && (forall j :: 0 <= j < |s.threads| && j != t ==> HoldsE(s.threads[j]) == 0)
      && Sum(s.threads, Draining) == Draining(s.threads[t])
      && Sum(s.threads, Renormalising) == Renormalising(s.threads[t])
      && Sum(s.threads, IsWriter) == IsWriter(s.threads[t])
    ensures HoldsC(s.threads[t]) == 1 ==>
      s.mtxC && forall j :: 0 <= j < |s.threads| && j != t ==> HoldsC(s.threads[j]) == 0
    ensures !s.mtxE ==>
      && (forall j :: 0 <= j < |s.threads| ==> HoldsE(s.threads[j]) == 0)
      && Sum(s.threads, Draining) == Sum(s.threads, Renormalising) == Sum(s.threads, IsWriter) == 0
    ensures !s.mtxC ==> forall j :: 0 <= j < |s.threads| ==> HoldsC(s.threads[j]) == 0
  {
    SumBounds(s.threads, t, HoldsE);
    SumBounds(s.threads, t, HoldsC);
    if HoldsE(s.threads[t]) == 1 {
      SumExclusive(s.threads, t, HoldsE);
      SumSole(s.threads, t, Draining);
      SumSole(s.threads, t, Renormalising);
      SumSole(s.threads, t, IsWriter);
    }
    if HoldsC(s.threads[t]) == 1 { SumExclusive(s.threads, t, HoldsC); }
    if !s.mtxE {
      SumZero(s.threads, HoldsE);
      SumAllZero(s.threads, Draining);
      SumAllZero(s.threads, Renormalising);
      SumAllZero(s.threads, IsWriter);
    }
    if !s.mtxC { SumZero(s.threads, HoldsC); }
  }

  lemma InitInv(n: nat)
    ensures Inv(Init(n))
  {
    var th := Init(n).threads;
    SumAllZero(th, IsReader);
    SumAllZero(th, IsWriter);
    SumAllZero(th, HoldsE);
    SumAllZero(th, HoldsC);
    SumAllZero(th, Draining);
    SumAllZero(th, Renormalising);
  }

  lemma EnterKeepsInv(s: State, t: nat, pc: Pc)
    requires Inv(s) && t < |s.threads| && s.threads[t].pc.Idle?
    requires pc.RdLock? || pc.WrLock? || (pc.Unlock? && HasLock(s.threads[t]))
    ensures Inv(Goto(s, t, pc))
  {
    hide Sum;
    Moved(s, Goto(s, t, pc), t);
  }

  lemma TimeoutKeepsInv(s: State, t: nat, pc: Pc)
    requires Inv(s) && t < |s.threads|
    requires (s.threads[t].pc.RdLock? && pc == Idle) || (s.threads[t].pc.WrLock? && pc == Idle)
          || (s.threads[t].pc.WrLockCompleted? && pc == WrBackOut)
    ensures Inv(Goto(s, t, pc))
  {
    hide Sum;
    Moved(s, Goto(s, t, pc), t);
  }

  lemma WakeKeepsInv(s: State, t: nat, ok: bool)
    requires Inv(s) && t < |s.threads| && s.threads[t].pc.WrBlocked?
    ensures Inv(Goto(s, t, WrRelock(ok)))
  {
    hide Sum;
    Alone(s, t);
    Moved(s, Goto(s, t, WrRelock(ok)), t);
  }

  lemma CallKeepsInv(s: State, t: nat, m: Move)
    requires Inv(s) && !m.Go?
    ensures Inv(Step(s, t, m))
  {
    if t < |s.threads| {
      hide Inv;
      var th := s.threads[t];
      match m
      case Interrupt =>
        if th.pc.RdLock? || th.pc.WrLock? { TimeoutKeepsInv(s, t, Idle); }
        else if th.pc.WrLockCompleted? { TimeoutKeepsInv(s, t, WrBackOut); }
        else if th.pc.WrBlocked? { WakeKeepsInv(s, t, false); }
      case Spurious => if th.pc.WrBlocked? { WakeKeepsInv(s, t, true); }
      case CallRead(how) => if th.pc.Idle? { EnterKeepsInv(s, t, RdLock(how)); }
      case CallWrite(how) => if th.pc.Idle? { EnterKeepsInv(s, t, WrLock(how)); }
      case CallUnlock => if th.pc.Idle? && HasLock(th) { EnterKeepsInv(s, t, Unlock); }
    }
  }

  lemma RdLockKeepsInv(s: State, t: nat)
    requires Inv(s) && t < |s.threads| && (s.threads[t].pc.RdLock?)
    ensures Inv(ReadStep(s, t))
  {
    hide Sum;
    var s' := ReadStep(s, t);
    if s' != s {
      Alone(s, t);
      Moved(s, s', t);
    }
  }

  lemma RdCountKeepsInv(s: State, t: nat)
    requires Inv(s) && t < |s.threads| && (s.threads[t].pc.RdCount?)
    ensures Inv(ReadStep(s, t))
  {
    hide Sum;
    var s' := ReadStep(s, t);
    if s' != s {
      Alone(s, t);
      Moved(s, s', t);
    }
  }

  lemma RdRenormKeepsInv(s: State, t: nat)
    requires Inv(s) && t < |s.threads| && (s.threads[t].pc.RdRenormLock? || s.threads[t].pc.RdRenorm?)
    ensures Inv(ReadStep(s, t))
  {
    hide Sum;
    var s' := ReadStep(s, t);
    if s' != s {
      Alone(s, t);
      Moved(s, s', t);
    }
  }

  lemma RdUnlockKeepsInv(s: State, t: nat)
    requires Inv(s) && t < |s.threads| && (s.threads[t].pc.RdRenormUnlock? || s.threads[t].pc.RdUnlock?)
    ensures Inv(ReadStep(s, t))
  {
    hide Sum;
    var s' := ReadStep(s, t);
    if s' != s {
      Alone(s, t);
      Moved(s, s', t);
    }
  }

  lemma WrLockKeepsInv(s: State, t: nat)
    requires Inv(s) && t < |s.threads| && (s.threads[t].pc.WrLock?)
    ensures Inv(WriteStep(s, t))
  {
    hide Sum;
    var s' := WriteStep(s, t);
    if s' != s {
      Alone(s, t);
      Moved(s, s', t);
    }
  }

  lemma WrLockCompletedKeepsInv(s: State, t: nat)
    requires Inv(s) && t < |s.threads| && (s.threads[t].pc.WrLockCompleted?)
    ensures Inv(WriteStep(s, t))
  {
    hide Sum;
    var s' := WriteStep(s, t);
    if s' != s {
      Alone(s, t);
      Moved(s, s', t);
    }
  }

  lemma WrBackOutKeepsInv(s: State, t: nat)
    requires Inv(s) && t < |s.threads| && (s.threads[t].pc.WrBackOut? || s.threads[t].pc.WrTryUnlock?)
    ensures Inv(WriteStep(s, t))
  {
    hide Sum;
    var s' := WriteStep(s, t);
    if s' != s {
      Alone(s, t);
      Moved(s, s', t);
    }
  }

  lemma WrTestKeepsInv(s: State, t: nat)
    requires Inv(s) && t < |s.threads| && (s.threads[t].pc.WrTest?)
    ensures Inv(WriteStep(s, t))
  {
    hide Sum;
    var s' := WriteStep(s, t);
    if s' != s {
      Alone(s, t);
      Moved(s, s', t);
    }
  }

  lemma WrEnterKeepsInv(s: State, t: nat)
    requires Inv(s) && t < |s.threads| && (s.threads[t].pc.WrEnter?)
    ensures Inv(WriteStep(s, t))
  {
    hide Sum;
    var s' := WriteStep(s, t);
    if s' != s {
      Alone(s, t);
      Moved(s, s', t);
    }
  }

  lemma WrWaitKeepsInv(s: State, t: nat)
    requires Inv(s) && t < |s.threads| && (s.threads[t].pc.WrWait? || s.threads[t].pc.WrBlocked?)
    ensures Inv(DrainStep(s, t))
  {
    hide Sum;
    var s' := DrainStep(s, t);
    if s' != s {
      Alone(s, t);
      Moved(s, s', t);
    }
  }

  lemma WrRelockKeepsInv(s: State, t: nat)
    requires Inv(s) && t < |s.threads| && (s.threads[t].pc.WrRelock?)
    ensures Inv(DrainStep(s, t))
  {
    hide Sum;
    var s' := DrainStep(s, t);
    if s' != s {
      Alone(s, t);
      Moved(s, s', t);
    }
  }

  lemma WrCheckKeepsInv(s: State, t: nat)
    requires Inv(s) && t < |s.threads| && (s.threads[t].pc.WrCheck?)
    ensures Inv(DrainStep(s, t))
  {
    hide Sum;
    var s' := DrainStep(s, t);
    if s' != s {
      Alone(s, t);
      Moved(s, s', t);
    }
  }

  lemma CancelKeepsInv(s: State, t: nat)
    requires Inv(s) && t < |s.threads| && (s.threads[t].pc.Cancel? || s.threads[t].pc.CancelUnlock?)
    ensures Inv(DrainStep(s, t))
  {
    hide Sum;
    var s' := DrainStep(s, t);
    if s' != s {
      Alone(s, t);
      Moved(s, s', t);
    }
  }

  /** An active writer is alone: no other writer, no reader, both counters 0. */
  lemma WriterIsAlone(s: State, t: nat)
    requires Inv(s) && t < |s.threads|
    ensures 0 <= s.exclusive <= 1
    ensures s.exclusive > 0 ==> Readers(s) == 0 && s.shared == 0 && s.completed == 0 && s.mtxE && s.mtxC
    ensures s.threads[t].writer ==>
      s.exclusive == 1 && forall i :: 0 <= i < |s.threads| && i != t ==> !HasLock(s.threads[i])
    ensures s.threads[t].shares > 0 ==> s.exclusive == 0
  {
    SumBounds(s.threads, t, IsReader);
    SumBounds(s.threads, t, IsWriter);
    if s.exclusive > 0 {
      var w := SumWitness(s.threads, IsWriter);
      Alone(s, w);
      SumZero(s.threads, IsReader);
      assert ThreadOk(s, s.threads[w]);
      SumExclusive(s.threads, w, IsWriter);
    }
  }

  lemma UnlockKeepsInv(s: State, t: nat)
    requires Inv(s) && t < |s.threads| && (s.threads[t].pc.Unlock? || s.threads[t].pc.RdDoneLock?)
    ensures Inv(UnlockStep(s, t))
  {
    hide Sum;
    var s' := UnlockStep(s, t);
    if s' != s {
      Alone(s, t);
      WriterIsAlone(s, t);
      Moved(s, s', t);
    }
  }

  lemma RdDoneKeepsInv(s: State, t: nat)
    requires Inv(s) && t < |s.threads| && (s.threads[t].pc.RdDone?)
    ensures Inv(UnlockStep(s, t))
  {
    hide Sum;
    var s' := UnlockStep(s, t);
    if s' != s {
      Alone(s, t);
      Moved(s, s', t);
    }
  }

  lemma RdDoneSignalKeepsInv(s: State, t: nat)
    requires Inv(s) && t < |s.threads| && (s.threads[t].pc.RdDoneSignal? || s.threads[t].pc.RdDoneUnlock?)
    ensures Inv(UnlockStep(s, t))
  {
    hide Sum;
    var s' := UnlockStep(s, t);
    if s' != s {
      Alone(s, t);
      Moved(s, s', t);
    }
  }

  lemma WrDoneKeepsInv(s: State, t: nat)
    requires Inv(s) && t < |s.threads| && (s.threads[t].pc.WrDone?)
    ensures Inv(UnlockStep(s, t))
  {
    hide Sum;
    var s' := UnlockStep(s, t);
    if s' != s {
      Alone(s, t);
      Moved(s, s', t);
    }
  }

  lemma WrDoneUnlockKeepsInv(s: State, t: nat)
    requires Inv(s) && t < |s.threads| && (s.threads[t].pc.WrDoneUnlock? || s.threads[t].pc.WrDoneUnlockExclusive?)
    ensures Inv(UnlockStep(s, t))
  {
    hide Sum;
    var s' := UnlockStep(s, t);
    if s' != s {
      Alone(s, t);
      Moved(s, s', t);
    }
  }

  lemma ReadKeepsInv(s: State, t: nat)
    requires Inv(s) && t < |s.threads| && ReadPc(s.threads[t].pc)
    ensures Inv(ReadStep(s, t))
  {
    hide Inv, ReadStep;
    match s.threads[t].pc
    case RdLock(_) => RdLockKeepsInv(s, t);
    case RdCount => RdCountKeepsInv(s, t);
    case RdRenormLock => RdRenormKeepsInv(s, t);
    case RdRenorm => RdRenormKeepsInv(s, t);
    case RdRenormUnlock => RdUnlockKeepsInv(s, t);
    case RdUnlock => RdUnlockKeepsInv(s, t);
  }

  lemma WriteKeepsInv(s: State, t: nat)
    requires Inv(s) && t < |s.threads| && WritePc(s.threads[t].pc)
    ensures Inv(WriteStep(s, t))
  {
    hide Inv, WriteStep;
    match s.threads[t].pc
    case WrLock(_) => WrLockKeepsInv(s, t);
    case WrLockCompleted(_) => WrLockCompletedKeepsInv(s, t);
    case WrBackOut => WrBackOutKeepsInv(s, t);
    case WrTest(_) => WrTestKeepsInv(s, t);
    case WrTryUnlock => WrBackOutKeepsInv(s, t);
    case WrEnter => WrEnterKeepsInv(s, t);
  }

  lemma DrainKeepsInv(s: State, t: nat)
    requires Inv(s) && t < |s.threads| && DrainPc(s.threads[t].pc)
    ensures Inv(DrainStep(s, t))
  {
    hide Inv, DrainStep;
    match s.threads[t].pc
    case WrWait => WrWaitKeepsInv(s, t);
    case WrBlocked => WrWaitKeepsInv(s, t);
    case WrRelock(_) => WrRelockKeepsInv(s, t);
    case WrCheck(_) => WrCheckKeepsInv(s, t);
    case Cancel => CancelKeepsInv(s, t);
    case CancelUnlock => CancelKeepsInv(s, t);
  }

  lemma DoneKeepsInv(s: State, t: nat)
    requires Inv(s) && t < |s.threads|
    ensures Inv(UnlockStep(s, t))
  {
    hide Inv;
    match s.threads[t].pc
    case Unlock => UnlockKeepsInv(s, t);
    case RdDoneLock => UnlockKeepsInv(s, t);
    case RdDone => RdDoneKeepsInv(s, t);
    case RdDoneSignal => RdDoneSignalKeepsInv(s, t);
    case RdDoneUnlock => RdDoneSignalKeepsInv(s, t);
    case WrDone => WrDoneKeepsInv(s, t);
    case WrDoneUnlock => WrDoneUnlockKeepsInv(s, t);
    case WrDoneUnlockExclusive => WrDoneUnlockKeepsInv(s, t);
    case _ =>
  }

  lemma StepKeepsInv(s: State, t: nat, m: Move)
    requires Inv(s)
    ensures Inv(Step(s, t, m))
  {
    if !m.Go? {
      CallKeepsInv(s, t, m);
    } else if t < |s.threads| {
      hide Inv, ReadStep, WriteStep, DrainStep, UnlockStep;
      if ReadPc(s.threads[t].pc) { ReadKeepsInv(s, t); }
      else if WritePc(s.threads[t].pc) { WriteKeepsInv(s, t); }
      else if DrainPc(s.threads[t].pc) { DrainKeepsInv(s, t); }
      else { DoneKeepsInv(s, t); }
    }
  }

  lemma {:induction false} RunKeepsInv(s: State, schedule: seq<(nat, Move)>)
    requires Inv(s)
    ensures Inv(Run(s, schedule))
    decreases |schedule|
  {
    if schedule != [] {
      StepKeepsInv(s, schedule[0].0, schedule[0].1);
      RunKeepsInv(Step(s, schedule[0].0, schedule[0].1), schedule[1..]);
    }
  }

  // ---- main results, over every run of any number of threads ----

  /** The counters always tell the number of active readers: as a difference while no
      writer drains, and as the negated completed count while one does. */
  lemma CountersTellReaders(n: nat, schedule: seq<(nat, Move)>)
    ensures var s := Run(Init(n), schedule);
      if exists i :: 0 <= i < |s.threads| && Draining(s.threads[i]) == 1
      then Readers(s) == -s.completed
      else Readers(s) == s.shared - s.completed && s.completed >= 0
  {
    InitInv(n);
    RunKeepsInv(Init(n), schedule);
    var s := Run(Init(n), schedule);
    if Sum(s.threads, Draining) > 0 {
      var i := SumWitness(s.threads, Draining);
      assert Draining(s.threads[i]) == 1;
    } else {
      SumZero(s.threads, Draining);
    }
  }

  /** A writer excludes everybody else, readers and writers. */
  lemma WritersExclude(n: nat, schedule: seq<(nat, Move)>, w: nat, i: nat)
    ensures var s := Run(Init(n), schedule);
      w < |s.threads| && i < |s.threads| && i != w && s.threads[w].writer ==>
        !HasLock(s.threads[i]) && s.threads[w].shares == 0 && s.shared == 0 && s.completed == 0
  {
    InitInv(n);
    RunKeepsInv(Init(n), schedule);
    var s := Run(Init(n), schedule);
    if w < |s.threads| { WriterIsAlone(s, w); }
  }

  /** A step changes one thread only; it adds a reader only by counting it in, and the
      shared count changes at four program points only. */
  predicate OnlyMoves(s: State, s': State, t: nat) {
    && |s'.threads| == |s.threads|
    && (t < |s.threads| ==>
          && s'.threads == s.threads[t := s'.threads[t]]
          && (s.threads[t].pc.RdCount? || IsReader(s'.threads[t]) <= IsReader(s.threads[t]))
          && (TouchesShared(s.threads[t].pc) ||
              (s'.shared == s.shared && Renormalising(s'.threads[t]) == Renormalising(s.threads[t]))))
  }

  predicate TouchesShared(pc: Pc) { pc.RdCount? || pc.RdRenorm? || pc.WrTest? || pc.WrCheck? }

  lemma CallMovesOne(s: State, t: nat, m: Move)
    requires !m.Go?
    ensures OnlyMoves(s, Step(s, t, m), t)
  {
  }

  lemma ReadMovesOne(s: State, t: nat)
    requires t < |s.threads| && ReadPc(s.threads[t].pc)
    ensures OnlyMoves(s, ReadStep(s, t), t)
  {
  }

  lemma TestMovesOne(s: State, t: nat)
    requires t < |s.threads| && (s.threads[t].pc.WrTest? || s.threads[t].pc.WrEnter?)
    ensures OnlyMoves(s, WriteStep(s, t), t)
  {
  }

  lemma WriteMovesOne(s: State, t: nat)
    requires t < |s.threads| && WritePc(s.threads[t].pc)
    ensures OnlyMoves(s, WriteStep(s, t), t)
  {
    if s.threads[t].pc.WrTest? || s.threads[t].pc.WrEnter? {
      hide *;
      TestMovesOne(s, t);
    } else {
      assert WriteStep(s, t).threads[t].shares == s.threads[t].shares;
    }
  }

  lemma DrainMovesOne(s: State, t: nat)
    requires t < |s.threads| && DrainPc(s.threads[t].pc)
    ensures OnlyMoves(s, DrainStep(s, t), t)
  {
  }

  lemma DoneMovesOne(s: State, t: nat)
    requires t < |s.threads| && (s.threads[t].pc.RdDone? || s.threads[t].pc.WrDone?)
    ensures OnlyMoves(s, UnlockStep(s, t), t)
  {
  }

  lemma UnlockMovesOne(s: State, t: nat)
    requires t < |s.threads|
    ensures OnlyMoves(s, UnlockStep(s, t), t)
  {
    if s.threads[t].pc.RdDone? || s.threads[t].pc.WrDone? {
      hide *;
      DoneMovesOne(s, t);
    } else {
      assert UnlockStep(s, t).threads[t].shares == s.threads[t].shares;
    }
  }

  lemma StepMovesOne(s: State, t: nat, m: Move)
    ensures OnlyMoves(s, Step(s, t, m), t)
  {
    if !m.Go? {
      CallMovesOne(s, t, m);
    } else if t < |s.threads| {
      hide OnlyMoves, ReadStep, WriteStep, DrainStep, UnlockStep;
      if ReadPc(s.threads[t].pc) { ReadMovesOne(s, t); }
      else if WritePc(s.threads[t].pc) { WriteMovesOne(s, t); }
      else if DrainPc(s.threads[t].pc) { DrainMovesOne(s, t); }
      else { UnlockMovesOne(s, t); }
    }
  }

  lemma {:induction false} RunKeepsThreads(s: State, schedule: seq<(nat, Move)>)
    ensures |Run(s, schedule).threads| == |s.threads|
    decreases |schedule|
  {
    if schedule != [] {
      hide Step;
      StepMovesOne(s, schedule[0].0, schedule[0].1);
      RunKeepsThreads(Step(s, schedule[0].0, schedule[0].1), schedule[1..]);
    }
  }

  /** Never as many as INT_MAX read locks are active at a time. */
  ghost predicate FewReaders(s: State, schedule: seq<(nat, Move)>)
    decreases |schedule|
  {
    && Readers(s) < INT_MAX
    && (schedule != [] ==> FewReaders(Step(s, schedule[0].0, schedule[0].1), schedule[1..]))
  }

  ghost predicate SharedFits(s: State) {
    s.shared < INT_MAX || (s.shared == INT_MAX && Sum(s.threads, Renormalising) > 0)
  }

  lemma CountSharedFits(s: State, t: nat)
    requires Inv(s) && SharedFits(s) && t < |s.threads| && (s.threads[t].pc.RdCount? || s.threads[t].pc.RdRenorm?)
    requires Readers(s) < INT_MAX
    ensures SharedFits(ReadStep(s, t))
  {
    hide Sum;
    Alone(s, t);
    Moved(s, ReadStep(s, t), t);
  }

  lemma TestSharedFits(s: State, t: nat)
    requires Inv(s) && SharedFits(s) && t < |s.threads| && s.threads[t].pc.WrTest?
    ensures SharedFits(WriteStep(s, t))
  {
    hide Sum;
    Alone(s, t);
    Moved(s, WriteStep(s, t), t);
  }

  lemma GiveUpSharedFits(s: State, t: nat)
    requires Inv(s) && SharedFits(s) && t < |s.threads| && s.threads[t].pc.WrCheck?
    requires Readers(s) < INT_MAX
    ensures SharedFits(DrainStep(s, t))
  {
    hide Sum;
    Alone(s, t);
    Moved(s, DrainStep(s, t), t);
  }

  lemma StepKeepsSharedFits(s: State, t: nat, m: Move)
    requires Inv(s) && SharedFits(s) && Readers(s) < INT_MAX
    ensures SharedFits(Step(s, t, m))
  {
    if t < |s.threads| {
      if m.Go? && TouchesShared(s.threads[t].pc) {
        hide Inv, SharedFits, ReadStep, WriteStep, DrainStep;
        if ReadPc(s.threads[t].pc) { CountSharedFits(s, t); }
        else if WritePc(s.threads[t].pc) { TestSharedFits(s, t); }
        else { GiveUpSharedFits(s, t); }
      } else {
        assert TouchesShared(s.threads[t].pc) ==> Step(s, t, m) == s;
        hide Inv, Step, Sum;
        StepMovesOne(s, t, m);
        Moved(s, Step(s, t, m), t);
      }
    }
  }

  lemma {:induction false} RunKeepsSharedFits(s: State, schedule: seq<(nat, Move)>)
    requires Inv(s) && SharedFits(s) && FewReaders(s, schedule)
    ensures SharedFits(Run(s, schedule)) && Readers(Run(s, schedule)) < INT_MAX
    decreases |schedule|
  {
    if schedule != [] {
      hide Inv, SharedFits, Step;
      StepKeepsInv(s, schedule[0].0, schedule[0].1);
      StepKeepsSharedFits(s, schedule[0].0, schedule[0].1);
      RunKeepsSharedFits(Step(s, schedule[0].0, schedule[0].1), schedule[1..]);
    }
  }

  /** As long as never INT_MAX read locks are active at a time the counters stay in the
      range of a C int, however many come and go: that is what the INT_MAX branch of
      rdlock is for. */
  lemma CountersFit(n: nat, schedule: seq<(nat, Move)>)
    requires FewReaders(Init(n), schedule)
    ensures var s := Run(Init(n), schedule);
      0 <= s.shared <= INT_MAX && -INT_MAX < s.completed <= INT_MAX && 0 <= s.exclusive <= 1
  {
    InitInv(n);
    RunKeepsInv(Init(n), schedule);
    RunKeepsSharedFits(Init(n), schedule);
    var s := Run(Init(n), schedule);
    if s.exclusive > 0 {
      var w := SumWitness(s.threads, IsWriter);
      WriterIsAlone(s, w);
    }
  }

  /** The thread is a writer, or on its way to becoming one, that has mtxExclusiveAccess. */
  predicate WriterPhase(th: Thread) { HoldsE(th) == 1 && (th.writer || !ReadPc(th.pc)) }

  /** Once a writer has mtxExclusiveAccess no reader is added, only completed. */
  lemma ReadersOnlyDecrease(s: State, w: nat, t: nat, m: Move)
    requires Inv(s) && w < |s.threads| && WriterPhase(s.threads[w])
    ensures Readers(Step(s, t, m)) <= Readers(s)
  {
    if t < |s.threads| {
      StepMovesOne(s, t, m);
      hide Step, Sum;
      Alone(s, w);
      Moved(s, Step(s, t, m), t);
    }
  }

  /** A writer that gives up leaves the counters as they are without any writer. */
  lemma GivingUpRestoresCounters(s: State, t: nat)
    requires Inv(s) && t < |s.threads| && s.threads[t].pc == WrCheck(false)
    ensures var s' := DrainStep(s, t);
      s'.shared == Readers(s') == Readers(s) && s'.completed == 0 && Inv(s')
  {
    hide Sum;
    WrCheckKeepsInv(s, t);
    Alone(s, t);
    Moved(s, DrainStep(s, t), t);
  }

  /** The branch of trywrlock that would return with both mutexes locked, and the branch
      of wrlock that would skip the draining, are never taken. */
  lemma TestFindsNoWriter(s: State, t: nat)
    requires Inv(s) && t < |s.threads| && s.threads[t].pc.WrTest?
    ensures s.exclusive == 0
  {
    hide Sum;
    Alone(s, t);
  }

  predicate CanGo(s: State, t: nat) { t < |s.threads| && Step(s, t, Go) != s }

  predicate Blocked(s: State, pc: Pc) {
    || pc.Idle?
    || ((pc.RdLock? || pc.WrLock?) && !pc.how.Try? && s.mtxE)
    || (pc.WrLockCompleted? && !pc.how.Try? && s.mtxC)
    || ((pc.RdRenormLock? || pc.WrRelock? || pc.RdDoneLock?) && s.mtxC)
    || (pc.WrBlocked? && !s.signalled)
  }

  lemma UnblockedReaderCanGo(s: State, t: nat)
    requires t < |s.threads| && ReadPc(s.threads[t].pc) && !Blocked(s, s.threads[t].pc)
    ensures CanGo(s, t)
  {
    assert ReadStep(s, t).threads[t].pc != s.threads[t].pc;
  }

  lemma UnblockedWriterCanGo(s: State, t: nat)
    requires t < |s.threads| && WritePc(s.threads[t].pc) && !Blocked(s, s.threads[t].pc)
    ensures CanGo(s, t)
  {
    assert WriteStep(s, t).threads[t].pc != s.threads[t].pc;
  }

  lemma UnblockedDrainerCanGo(s: State, t: nat)
    requires t < |s.threads| && DrainPc(s.threads[t].pc) && !Blocked(s, s.threads[t].pc)
    ensures CanGo(s, t)
  {
    assert DrainStep(s, t).threads[t].pc != s.threads[t].pc;
  }

  lemma UnblockedCanGo(s: State, t: nat)
    requires t < |s.threads| && !Blocked(s, s.threads[t].pc)
    ensures CanGo(s, t)
  {
    if ReadPc(s.threads[t].pc) { UnblockedReaderCanGo(s, t); }
    else if WritePc(s.threads[t].pc) { UnblockedWriterCanGo(s, t); }
    else if DrainPc(s.threads[t].pc) { UnblockedDrainerCanGo(s, t); }
    else { assert UnlockStep(s, t).threads[t].pc != s.threads[t].pc; }
  }

  /** If nobody can go on but somebody is inside the library, then some thread has the
      lock and is outside the library, or has the lock and has asked for it again. With
      threads that lock only when they have no lock, the library itself never deadlocks
      and loses no wake-up. */
  lemma StuckOnlyIfLocked(s: State, t: nat) returns (h: nat)
    requires Inv(s) && t < |s.threads| && !s.threads[t].pc.Idle?
    requires forall u :: 0 <= u < |s.threads| ==> !CanGo(s, u)
    ensures h < |s.threads| && HasLock(s.threads[h])
    ensures var pc := s.threads[h].pc; pc.Idle? || pc.RdLock? || pc.WrLock? || pc.WrBlocked?
  {
    hide CanGo, Sum;
    forall u | 0 <= u < |s.threads| ensures Blocked(s, s.threads[u].pc) {
      if !Blocked(s, s.threads[u].pc) { UnblockedCanGo(s, u); }
    }
    if s.mtxC {
      h := SumWitness(s.threads, HoldsC);
    } else if s.mtxE {
      h := SumWitness(s.threads, HoldsE);
      Alone(s, h);
      if s.threads[h].pc.WrBlocked? {
        SumAllZero(s.threads, Signalling);
        h := SumWitness(s.threads, IsReader);
        assert ThreadOk(s, s.threads[h]);
      }
    } else {
      Alone(s, t);
      h := t;
    }
  }

  // ---- whole calls ----

  /** A step of another thread. */
  lemma OthersLeave(s: State, u: nat, m: Move, t: nat)
    requires t < |s.threads| && u != t
    ensures |Step(s, u, m).threads| == |s.threads| && Step(s, u, m).threads[t] == s.threads[t]
  {
    StepMovesOne(s, u, m);
    if u < |s.threads| { hide Step; }
  }

  /** How a whole call, or a part of one, ends. Unfinished: it still waits when the other
      threads' turns have run out. */
  datatype Outcome = OK | EBUSY | ETIMEDOUT | Unfinished

  /** A reader in a state without writers; a writer that is alone. */
  ghost predicate ReadsAlone(s: State, t: nat) {
    && t < |s.threads| && s.threads[t].shares > 0 && s.exclusive == 0
    && forall i :: 0 <= i < |s.threads| ==> !s.threads[i].writer
  }

  ghost predicate WritesAlone(s: State, t: nat) {
    && t < |s.threads| && s.threads[t].writer && s.threads[t].shares == 0 && s.exclusive == 1
    && forall i :: 0 <= i < |s.threads| && i != t ==> !HasLock(s.threads[i])
  }

  lemma LockMeans(s: State, t: nat)
    requires Inv(s) && t < |s.threads| && HasLock(s.threads[t])
    ensures if s.threads[t].writer then WritesAlone(s, t) else ReadsAlone(s, t)
  {
    hide Sum;
    WriterIsAlone(s, t);
    forall i | 0 <= i < |s.threads| && s.threads[i].writer ensures i == t { WriterIsAlone(s, i); }
  }

  lemma SizeKept(s: State, t: nat, m: Move)
    ensures |Step(s, t, m).threads| == |s.threads|
  {
    StepMovesOne(s, t, m);
    hide Step;
  }

  lemma CounterIsNoWriter(s: State, t: nat)
    requires Inv(s) && t < |s.threads| && s.threads[t].pc.RdCount?
    ensures !s.threads[t].writer
  {
  }

  /** Program points with one successor. */
  predicate Plain(pc: Pc) {
    || pc.RdRenorm? || pc.RdRenormUnlock? || pc.RdUnlock?
    || pc.WrBackOut? || pc.WrTryUnlock? || pc.WrEnter?
    || pc.WrWait? || pc.Cancel? || pc.CancelUnlock?
    || pc.RdDoneSignal? || pc.RdDoneUnlock? || pc.WrDone? || pc.WrDoneUnlock? || pc.WrDoneUnlockExclusive?
  }

  function Next(th: Thread): Thread
    requires Plain(th.pc)
  {
    match th.pc
    case RdRenorm => th.(pc := RdRenormUnlock)
    case RdRenormUnlock => th.(pc := RdUnlock)
    case WrTryUnlock => th.(pc := WrBackOut)
    case WrEnter => th.(pc := Idle, writer := true)
    case WrWait => th.(pc := WrBlocked)
    case Cancel => th.(pc := CancelUnlock)
    case RdDoneSignal => th.(pc := RdDoneUnlock)
    case WrDone => th.(pc := WrDoneUnlock, writer := false)
    case WrDoneUnlock => th.(pc := WrDoneUnlockExclusive)
    case _ => th.(pc := Idle)
  }

  lemma PlainUnlockGoes(s: State, t: nat)
    requires t < |s.threads| && Plain(s.threads[t].pc)
    requires !ReadPc(s.threads[t].pc) && !WritePc(s.threads[t].pc) && !DrainPc(s.threads[t].pc)
    ensures t < |UnlockStep(s, t).threads| && UnlockStep(s, t).threads[t] == Next(s.threads[t])
  {
  }

  lemma PlainGoes(s: State, t: nat)
    requires t < |s.threads| && Plain(s.threads[t].pc)
    ensures t < |Step(s, t, Go).threads| && Step(s, t, Go).threads[t] == Next(s.threads[t])
  {
    if !ReadPc(s.threads[t].pc) && !WritePc(s.threads[t].pc) && !DrainPc(s.threads[t].pc) {
      hide UnlockStep, ReadStep, WriteStep, DrainStep, Next;
      PlainUnlockGoes(s, t);
    }
  }

  /** The test under both mutexes lets the writer in exactly if no read lock is active. */
  lemma TestEntersIff(s: State, t: nat)
    requires Inv(s) && t < |s.threads| && s.threads[t].pc.WrTest?
    ensures t < |WriteStep(s, t).threads|
    ensures WriteStep(s, t).threads[t].pc.WrEnter? <==> Readers(s) == 0
    ensures Readers(s) >= 0
  {
    hide Sum;
    Alone(s, t);
  }

  ghost predicate SomebodyHasE(s: State) { exists i :: 0 <= i < |s.threads| && HoldsE(s.threads[i]) == 1 }

  ghost predicate SomebodyHasC(s: State) { exists i :: 0 <= i < |s.threads| && HoldsC(s.threads[i]) == 1 }

  lemma MutexesAreHeld(s: State)
    requires Inv(s)
    ensures s.mtxE <==> SomebodyHasE(s)
    ensures s.mtxC <==> SomebodyHasC(s)
  {
    if s.mtxE { var i := SumWitness(s.threads, HoldsE); } else { SumZero(s.threads, HoldsE); }
    if s.mtxC { var i := SumWitness(s.threads, HoldsC); } else { SumZero(s.threads, HoldsC); }
  }

  /** The thread is at a test that fails for a reason: somebody has the mutex it asks for,
      or read locks are active. */
  ghost predicate Contended(s: State, t: nat) {
    && Inv(s) && t < |s.threads|
    && var pc := s.threads[t].pc;
      || ((pc.RdLock? || pc.WrLock?) && SomebodyHasE(s))
      || (pc.WrLockCompleted? && SomebodyHasC(s))
      || (pc.WrTest? && Readers(s) > 0)
  }

  /** The thread is at an operation that has to wait for a mutex somebody has, or for the
      readers: one of them is active or about to signal. */
  ghost predicate Stays(s: State, t: nat) {
    && Inv(s) && t < |s.threads|
    && var pc := s.threads[t].pc;
      || ((pc.RdLock? || pc.WrLock?) && SomebodyHasE(s))
      || ((pc.WrLockCompleted? || pc.RdRenormLock? || pc.WrRelock? || pc.RdDoneLock?) && SomebodyHasC(s))
      || (pc.WrBlocked? && !s.signalled && (Readers(s) > 0 || Sum(s.threads, Signalling) > 0))
  }

  lemma BlockedStays(s: State, t: nat)
    requires Inv(s) && t < |s.threads| && s.threads[t].pc.WrBlocked? && !s.signalled
    ensures Stays(s, t)
  {
    SumBounds(s.threads, t, Draining);
    if s.completed != 0 { DrainingMeans(s); }
  }

  lemma DrainingMeans(s: State)
    requires Inv(s) && Sum(s.threads, Draining) > 0 && s.completed != 0
    ensures Readers(s) > 0
  {
    var readers: nat := Sum(s.threads, IsReader);
  }

  ghost predicate AllIdle(s: State) { forall i :: 0 <= i < |s.threads| ==> s.threads[i].pc.Idle? }

  ghost predicate Writing(s: State) { exists i :: 0 <= i < |s.threads| && s.threads[i].writer }

  /** With every thread outside the library the mutexes are a writer's or free. */
  lemma IdleMutexes(s: State)
    requires Inv(s) && AllIdle(s)
    ensures s.mtxE == s.mtxC == Writing(s)
  {
    MutexesAreHeld(s);
  }

  lemma LockedIff(s: State)
    requires Inv(s)
    ensures (forall i :: 0 <= i < |s.threads| ==> !HasLock(s.threads[i])) <==> Readers(s) == 0 && !Writing(s)
    ensures Readers(s) >= 0
  {
    if Readers(s) == 0 { SumZero(s.threads, IsReader); }
    if forall i :: 0 <= i < |s.threads| ==> !HasLock(s.threads[i]) { SumAllZero(s.threads, IsReader); }
  }

  /** Thread t's time-out or cancellation is in its turns. */
  ghost predicate Asked(t: nat, turns: seq<seq<(nat, Move)>>) {
    exists i :: 0 <= i < |turns| && (t, Interrupt) in turns[i]
  }

  /** It is in the next turn. */
  predicate AskedNow(t: nat, turns: seq<seq<(nat, Move)>>) { turns != [] && (t, Interrupt) in turns[0] }

  lemma AskedNowOrLater(t: nat, turns: seq<seq<(nat, Move)>>)
    ensures Asked(t, turns) <==> turns != [] && (AskedNow(t, turns) || Asked(t, turns[1..]))
  {
    if turns != [] && Asked(t, turns[1..]) {
      var i :| 0 <= i < |turns| - 1 && (t, Interrupt) in turns[1..][i];
      assert (t, Interrupt) in turns[i + 1];
    }
    if Asked(t, turns) && !AskedNow(t, turns) {
      var i :| 0 <= i < |turns| && (t, Interrupt) in turns[i];
      assert turns[1..][i - 1] == turns[i];
    }
  }

  lemma NothingAsked(t: nat, turns: seq<seq<(nat, Move)>>)
    ensures turns == [] ==> !Asked(t, turns)
  {
  }

  /** The others' steps of one turn, in their order. */
  function OthersRun(s: State, t: nat, turn: seq<(nat, Move)>): State {
    if turn == [] then s
    else
      var s', (u, m) := OthersRun(s, t, turn[..|turn| - 1]), turn[|turn| - 1];
      if u == t then s' else Step(s', u, m)
  }

  lemma ReadersKept(s: State, s': State, t: nat)
    requires t < |s.threads| == |s'.threads| && s'.threads == s.threads[t := s'.threads[t]]
    requires s'.threads[t].shares == s.threads[t].shares
    ensures Readers(s') == Readers(s)
  {
    SumUpdate(s.threads, t, s'.threads[t], IsReader);
  }

  /** Where a thread goes on with mtxSharedAccessCompleted. */
  function AfterLock(pc: Pc): Pc {
    match pc
    case WrRelock(ok) => WrCheck(ok)
    case RdDoneLock => RdDone
    case _ => RdRenorm
  }

  /** A draining writer that looks goes on waiting exactly while read locks are active. */
  lemma CheckMeans(s: State, t: nat)
    requires Inv(s) && t < |s.threads| && s.threads[t].pc.WrCheck?
    ensures s.completed < 0 <==> Readers(s) > 0
  {
    hide Sum;
    SumIsNat(s);
    Alone(s, t);
  }

  lemma SumIsNat(s: State)
    ensures Sum(s.threads, IsReader) >= 0
  {
  }

  lemma ReaderFindsFree(s: State, t: nat)
    requires Inv(s) && AllIdle(s) && t < |s.threads| && HasLock(s.threads[t])
    ensures !s.threads[t].writer ==> !s.mtxC
  {
    IdleMutexes(s);
    LockMeans(s, t);
  }

  /** The next turn wakes the waiting thread for no reason. */
  predicate WokenNow(t: nat, turns: seq<seq<(nat, Move)>>) { turns != [] && (t, Spurious) in turns[0] }

  /** The lock in the C program's own form. ReadLock, WriteLock, Drain and Unlock are one
      atomic step of the functions they stand for, taken by thread t; ReadCall, WriteCall
      and UnlockCall are whole calls. */
  class RwLockObject {
    var nSharedAccessCount: int
    var nCompletedSharedAccessCount: int
    var nExclusiveAccessCount: int
    var mtxExclusiveAccess: bool
    var mtxSharedAccessCompleted: bool
    var cndSharedAccessCompleted: bool
    var threads: seq<Thread>

    function Snapshot(): State
      reads this
    {
      State(nSharedAccessCount, nCompletedSharedAccessCount, nExclusiveAccessCount,
            mtxExclusiveAccess, mtxSharedAccessCompleted, cndSharedAccessCompleted, threads)
    }

    constructor (n: nat)
      ensures Snapshot() == Init(n) && Inv(Snapshot())
    {
      nSharedAccessCount, nCompletedSharedAccessCount, nExclusiveAccessCount := 0, 0, 0;
      mtxExclusiveAccess, mtxSharedAccessCompleted, cndSharedAccessCompleted := false, false, false;
      threads := seq(n, i => Thread(Idle, 0, false));
      new;
      InitInv(n);
    }

    method ReadLock(t: nat)
      requires Inv(Snapshot()) && t < |threads| && ReadPc(threads[t].pc)
      modifies this
      ensures Snapshot() == ReadStep(old(Snapshot()), t) && Inv(Snapshot())
    {
      hide Inv, At;
      ReadKeepsInv(Snapshot(), t);
      match threads[t].pc
      case RdLock(how) =>
        if !mtxExclusiveAccess {
          mtxExclusiveAccess := true;
          threads := At(threads, t, RdCount);
        } else if how.Try? {
          threads := At(threads, t, Idle);
        }
      case RdCount =>
        nSharedAccessCount := nSharedAccessCount + 1;
        var pc := if nSharedAccessCount == INT_MAX then RdRenormLock else RdUnlock;
        threads := threads[t := Thread(pc, threads[t].shares + 1, threads[t].writer)];
      case RdRenormLock =>
        if !mtxSharedAccessCompleted {
          mtxSharedAccessCompleted := true;
          threads := At(threads, t, RdRenorm);
        }
      case RdRenorm =>
        nSharedAccessCount := nSharedAccessCount - nCompletedSharedAccessCount;
        nCompletedSharedAccessCount := 0;
        threads := At(threads, t, RdRenormUnlock);
      case RdRenormUnlock =>
        mtxSharedAccessCompleted := false;
        threads := At(threads, t, RdUnlock);
      case RdUnlock =>
        mtxExclusiveAccess := false;
        threads := At(threads, t, Idle);
    }

    method WriteLock(t: nat)
      requires Inv(Snapshot()) && t < |threads| && WritePc(threads[t].pc)
      modifies this
      ensures Snapshot() == WriteStep(old(Snapshot()), t) && Inv(Snapshot())
    {
      hide Inv, At;
      WriteKeepsInv(Snapshot(), t);
      match threads[t].pc
      case WrLock(how) =>
        if !mtxExclusiveAccess {
          mtxExclusiveAccess := true;
          threads := At(threads, t, WrLockCompleted(how));
        } else if how.Try? {
          threads := At(threads, t, Idle);
        }
      case WrLockCompleted(how) =>
        if !mtxSharedAccessCompleted {
          mtxSharedAccessCompleted := true;
          threads := At(threads, t, WrTest(how));
        } else if how.Try? {
          threads := At(threads, t, WrBackOut);
        }
      case WrBackOut =>
        mtxExclusiveAccess := false;
        threads := At(threads, t, Idle);
      case WrTest(how) => TestReaders(t, how);
      case WrTryUnlock =>
        mtxSharedAccessCompleted := false;
        threads := At(threads, t, WrBackOut);
      case WrEnter =>
        nExclusiveAccessCount := nExclusiveAccessCount + 1;
        threads := threads[t := Thread(Idle, threads[t].shares, true)];
    }

    method TestReaders(t: nat, how: How)
      requires t < |threads| && threads[t].pc == WrTest(how)
      modifies this
      ensures Snapshot() == WriteStep(old(Snapshot()), t)
    {
      if nExclusiveAccessCount == 0 {
        if nCompletedSharedAccessCount > 0 {
          nSharedAccessCount := nSharedAccessCount - nCompletedSharedAccessCount;
          nCompletedSharedAccessCount := 0;
        }
        if nSharedAccessCount > 0 {
          if how.Try? {
            threads := At(threads, t, WrTryUnlock);
          } else {
            nCompletedSharedAccessCount := -nSharedAccessCount;
            threads := At(threads, t, WrWait);
          }
        } else {
          threads := At(threads, t, WrEnter);
        }
      } else {
        threads := At(threads, t, if how.Try? then Idle else WrEnter);
      }
    }

    method Drain(t: nat)
      requires Inv(Snapshot()) && t < |threads| && DrainPc(threads[t].pc)
      modifies this
      ensures Snapshot() == DrainStep(old(Snapshot()), t) && Inv(Snapshot())
    {
      hide Inv, At;
      DrainKeepsInv(Snapshot(), t);
      match threads[t].pc
      case WrWait =>
        mtxSharedAccessCompleted, cndSharedAccessCompleted := false, false;
        threads := At(threads, t, WrBlocked);
      case WrBlocked =>
        if cndSharedAccessCompleted {
          cndSharedAccessCompleted := false;
          threads := At(threads, t, WrRelock(true));
        }
      case WrRelock(ok) =>
        if !mtxSharedAccessCompleted {
          mtxSharedAccessCompleted := true;
          threads := At(threads, t, WrCheck(ok));
        }
      case WrCheck(ok) => CheckCompleted(t, ok);
      case Cancel =>
        mtxSharedAccessCompleted := false;
        threads := At(threads, t, CancelUnlock);
      case CancelUnlock =>
        mtxExclusiveAccess := false;
        threads := At(threads, t, Idle);
    }

    method CheckCompleted(t: nat, ok: bool)
      requires t < |threads| && threads[t].pc == WrCheck(ok)
      modifies this
      ensures Snapshot() == DrainStep(old(Snapshot()), t)
    {
      hide At;
      if !ok {
        nSharedAccessCount := -nCompletedSharedAccessCount;
        nCompletedSharedAccessCount := 0;
        threads := At(threads, t, Cancel);
      } else if nCompletedSharedAccessCount < 0 {
        threads := At(threads, t, WrWait);
      } else {
        nSharedAccessCount := 0;
        threads := At(threads, t, WrEnter);
      }
    }

    method Unlock(t: nat)
      requires Inv(Snapshot()) && t < |threads|
      modifies this
      ensures Snapshot() == UnlockStep(old(Snapshot()), t) && Inv(Snapshot())
    {
      hide Inv, At;
      DoneKeepsInv(Snapshot(), t);
      match threads[t].pc
      case Unlock => threads := At(threads, t, if nExclusiveAccessCount == 0 then RdDoneLock else WrDone);
      case RdDoneLock =>
        if !mtxSharedAccessCompleted {
          mtxSharedAccessCompleted := true;
          threads := At(threads, t, RdDone);
        }
      case RdDone =>
        nCompletedSharedAccessCount := nCompletedSharedAccessCount + 1;
        var pc, shares := if nCompletedSharedAccessCount == 0 then RdDoneSignal else RdDoneUnlock, threads[t].shares;
        threads := threads[t := Thread(pc, if shares > 0 then shares - 1 else 0, threads[t].writer)];
      case RdDoneSignal =>
        cndSharedAccessCompleted := true;
        threads := At(threads, t, RdDoneUnlock);
      case RdDoneUnlock =>
        mtxSharedAccessCompleted := false;
        threads := At(threads, t, Idle);
      case WrDone =>
        nExclusiveAccessCount := nExclusiveAccessCount - 1;
        threads := threads[t := Thread(WrDoneUnlock, threads[t].shares, false)];
      case WrDoneUnlock =>
        mtxSharedAccessCompleted := false;
        threads := At(threads, t, WrDoneUnlockExclusive);
      case WrDoneUnlockExclusive =>
        mtxExclusiveAccess := false;
        threads := At(threads, t, Idle);
      case _ =>
    }

    // ---- whole calls, with the other threads' steps in between ----

    method Advance(t: nat, m: Move)
      requires Inv(Snapshot())
      modifies this
      ensures Snapshot() == Step(old(Snapshot()), t, m) && Inv(Snapshot())
    {
      hide Inv, ReadStep, WriteStep, DrainStep, UnlockStep, At;
      StepKeepsInv(Snapshot(), t, m);
      if t < |threads| {
        if !m.Go? { Begin(t, m); }
        else if ReadPc(threads[t].pc) { ReadLock(t); }
        else if WritePc(threads[t].pc) { WriteLock(t); }
        else if DrainPc(threads[t].pc) { Drain(t); }
        else { Unlock(t); }
      }
    }

    /** The beginning of a call, a time-out or a wake-up. */
    method Begin(t: nat, m: Move)
      requires Inv(Snapshot()) && t < |threads| && !m.Go?
      modifies this`threads
      ensures Snapshot() == Step(old(Snapshot()), t, m) && Inv(Snapshot())
    {
      hide Inv, At;
      CallKeepsInv(Snapshot(), t, m);
      var th := threads[t];
      match m
      case Interrupt =>
        if th.pc == RdLock(Timed) || th.pc == WrLock(Timed) { threads := At(threads, t, Idle); }
        else if th.pc == WrLockCompleted(Timed) { threads := At(threads, t, WrBackOut); }
        else if th.pc.WrBlocked? { threads := At(threads, t, WrRelock(false)); }
      case Spurious => if th.pc.WrBlocked? { threads := At(threads, t, WrRelock(true)); }
      case CallRead(how) => if th.pc.Idle? { threads := At(threads, t, RdLock(how)); }
      case CallWrite(how) => if th.pc.Idle? { threads := At(threads, t, WrLock(how)); }
      case CallUnlock => if th.pc.Idle? && HasLock(th) { threads := At(threads, t, Pc.Unlock); }
    }

    /** What the other threads do between two operations of thread t. */
    method Others(t: nat, turns: seq<seq<(nat, Move)>>) returns (later: seq<seq<(nat, Move)>>)
      requires Inv(Snapshot()) && t < |threads|
      modifies this
      ensures Inv(Snapshot()) && |threads| == old(|threads|) && threads[t] == old(threads[t])
      ensures later == if turns == [] then [] else turns[1..]
      ensures Snapshot() == if turns == [] then old(Snapshot()) else OthersRun(old(Snapshot()), t, turns[0])
      ensures Asked(t, turns) <==> AskedNow(t, turns) || Asked(t, later)
    {
      hide Inv, Step;
      AskedNowOrLater(t, turns);
      later := [];
      if turns != [] {
        for i := 0 to |turns[0]|
          invariant Inv(Snapshot()) && |threads| == old(|threads|) && threads[t] == old(threads[t])
          invariant Snapshot() == OthersRun(old(Snapshot()), t, turns[0][..i])
        {
          assert turns[0][..i + 1][..i] == turns[0][..i];
          var (u, m) := turns[0][i];
          if u != t {
            OthersLeave(Snapshot(), u, m, t);
            Advance(u, m);
          }
        }
        assert turns[0][..|turns[0]|] == turns[0];
        later := turns[1..];
      }
    }

    /** One operation of thread t. */
    method Operate(t: nat, m: Move)
      requires Inv(Snapshot()) && t < |threads|
      modifies this
      ensures Snapshot() == Step(old(Snapshot()), t, m) && Inv(Snapshot()) && |threads| == old(|threads|)
    {
      hide Inv, Step, OnlyMoves;
      SizeKept(Snapshot(), t, m);
      Advance(t, m);
    }

    /** Waiting for one of the mutexes: trying gives up at once, a timed wait when the other
        threads' turns run out; in both cases in the state `seen`. */
    method LockExclusive(t: nat, how: How, turns: seq<seq<(nat, Move)>>)
      returns (r: Outcome, later: seq<seq<(nat, Move)>>, asked: bool, ghost seen: State)
      requires Inv(Snapshot()) && t < |threads|
      requires threads[t].pc == RdLock(how) || threads[t].pc == WrLock(how)
      modifies this
      ensures Inv(Snapshot()) && |threads| == old(|threads|)
      ensures r == Unfinished ==> later == [] && Stays(Snapshot(), t) && threads[t] == old(threads[t])
      ensures r == OK ==>
        threads[t] == old(threads[t]).(pc := if old(threads[t].pc.RdLock?) then RdCount else WrLockCompleted(how))
      ensures r == EBUSY ==> how.Try? && Contended(seen, t)
      ensures r == ETIMEDOUT ==> how.Timed? && later == [] && Contended(seen, t)
      ensures r == EBUSY || r == ETIMEDOUT ==> threads[t] == old(threads[t]).(pc := Idle)
      ensures Asked(t, turns) <==> asked || Asked(t, later)
      ensures |later| <= |turns|
      ensures turns == [] ==> (r == OK <==> !old(mtxExclusiveAccess))
      ensures !old(mtxExclusiveAccess) ==>
        mtxSharedAccessCompleted == old(mtxSharedAccessCompleted) && Readers(Snapshot()) == old(Readers(Snapshot()))
    {
      hide Inv, DrainStep, UnlockStep, Asked, AskedNow, SomebodyHasE, SomebodyHasC, Sum;
      later, asked := turns, false;
      while mtxExclusiveAccess && !how.Try? && later != []
        invariant Inv(Snapshot()) && |threads| == old(|threads|) && threads[t] == old(threads[t])
        invariant |later| <= |turns| && (Asked(t, turns) <==> asked || Asked(t, later))
        invariant !old(mtxExclusiveAccess) || turns == [] ==> Snapshot() == old(Snapshot())
        decreases |later|
      {
        asked := asked || AskedNow(t, later);
        later := Others(t, later);
      }
      seen := Snapshot();
      MutexesAreHeld(seen);
      r := if !mtxExclusiveAccess then OK
           else if how.Try? then EBUSY else if how.Timed? then ETIMEDOUT else Unfinished;
      if r != Unfinished {
        Operate(t, if r == ETIMEDOUT then Interrupt else Go);
        ReadersKept(seen, Snapshot(), t);
      }
    }

    /** Waiting for mtxSharedAccessCompleted without a limit. */
    method LockCompleted(t: nat, turns: seq<seq<(nat, Move)>>)
      returns (r: Outcome, later: seq<seq<(nat, Move)>>, asked: bool)
      requires Inv(Snapshot()) && t < |threads|
      requires threads[t].pc.RdRenormLock? || threads[t].pc.WrRelock? || threads[t].pc.RdDoneLock?
      modifies this
      ensures Inv(Snapshot()) && |threads| == old(|threads|)
      ensures |later| <= |turns|
      ensures r == OK || (r == Unfinished && later == [] && Stays(Snapshot(), t) && threads[t] == old(threads[t]))
      ensures r == OK ==> threads[t] == old(threads[t]).(pc := AfterLock(old(threads[t].pc)))
      ensures Asked(t, turns) <==> asked || Asked(t, later)
      ensures turns == [] ==> (r == OK <==> !old(mtxSharedAccessCompleted))
    {
      hide Inv, WriteStep, Asked, AskedNow, SomebodyHasE, SomebodyHasC;
      later, asked := turns, false;
      while mtxSharedAccessCompleted && later != []
        invariant Inv(Snapshot()) && |threads| == old(|threads|) && threads[t] == old(threads[t])
        invariant |later| <= |turns| && (Asked(t, turns) <==> asked || Asked(t, later))
        invariant turns == [] ==> mtxSharedAccessCompleted == old(mtxSharedAccessCompleted)
        decreases |later|
      {
        asked := asked || AskedNow(t, later);
        later := Others(t, later);
      }
      MutexesAreHeld(Snapshot());
      r := if mtxSharedAccessCompleted then Unfinished else OK;
      if r == OK { Operate(t, Go); }
    }

    /** pthread_rwlock_rdlock, timedrdlock and tryrdlock as a whole. They give up, in the
        state `seen`, or do not finish only because somebody has the mutex they need; with
        everybody outside the library they succeed exactly if there is no writer. */
    method ReadCall(t: nat, how: How, turns: seq<seq<(nat, Move)>>)
      returns (r: Outcome, later: seq<seq<(nat, Move)>>, ghost seen: State)
      requires Inv(Snapshot()) && t < |threads| && threads[t].pc.Idle?
      modifies this
      ensures Inv(Snapshot()) && |threads| == old(|threads|)
      ensures r == OK ==>
        threads[t] == Thread(Idle, old(threads[t].shares) + 1, false) && ReadsAlone(Snapshot(), t)
      ensures r == EBUSY || r == ETIMEDOUT ==> threads[t] == old(threads[t])
      ensures r == EBUSY ==> how.Try? && Contended(seen, t)
      ensures r == ETIMEDOUT ==> how.Timed? && later == [] && Contended(seen, t)
      ensures r == Unfinished ==> later == [] && Stays(Snapshot(), t)
      ensures turns == [] && old(AllIdle(Snapshot())) ==> (r == OK <==> !old(Writing(Snapshot())))
    {
      hide Inv, ReadStep, WriteStep, DrainStep, UnlockStep, Asked, Stays, Contended, AllIdle, Writing, Sum;
      if AllIdle(Snapshot()) { IdleMutexes(Snapshot()); }
      Operate(t, CallRead(how));
      later := Others(t, turns);
      var asked;
      r, later, asked, seen := LockExclusive(t, how, later);
      if r == OK {
        later := Others(t, later);
        r, later := CountIn(t, later);
        if r == OK { LockMeans(Snapshot(), t); }
      }
    }

    /** Counting in, and the subtraction when the count gets to INT_MAX. */
    method CountIn(t: nat, turns: seq<seq<(nat, Move)>>) returns (r: Outcome, later: seq<seq<(nat, Move)>>)
      requires Inv(Snapshot()) && t < |threads| && threads[t].pc.RdCount?
      modifies this
      ensures Inv(Snapshot()) && |threads| == old(|threads|)
      ensures r == OK || (r == Unfinished && later == [] && Stays(Snapshot(), t))
      ensures r == OK ==> threads[t] == Thread(Idle, old(threads[t].shares) + 1, false)
      ensures turns == [] && !old(mtxSharedAccessCompleted) ==> r == OK
    {
      hide Inv, WriteStep, DrainStep, UnlockStep, Stays, Asked;
      r, later := OK, turns;
      CounterIsNoWriter(Snapshot(), t);
      Operate(t, Go);
      if nSharedAccessCount == INT_MAX { r, later := Renormalise(t, later); }
      if r == OK {
        later := Others(t, later);
        Operate(t, Go);
      }
    }

    method Renormalise(t: nat, turns: seq<seq<(nat, Move)>>) returns (r: Outcome, later: seq<seq<(nat, Move)>>)
      requires Inv(Snapshot()) && t < |threads| && threads[t].pc.RdRenormLock?
      modifies this
      ensures Inv(Snapshot()) && |threads| == old(|threads|)
      ensures r == OK || (r == Unfinished && later == [] && Stays(Snapshot(), t))
      ensures r == OK ==> threads[t] == old(threads[t]).(pc := RdUnlock)
      ensures turns == [] && !old(mtxSharedAccessCompleted) ==> r == OK
    {
      hide Inv, Stays, Asked;
      later := Others(t, turns);
      var asked;
      r, later, asked := LockCompleted(t, later);
      if r == OK { later := FinishRenormalise(t, later); }
    }

    method FinishRenormalise(t: nat, turns: seq<seq<(nat, Move)>>) returns (later: seq<seq<(nat, Move)>>)
      requires Inv(Snapshot()) && t < |threads| && threads[t].pc.RdRenorm?
      modifies this
      ensures Inv(Snapshot()) && |threads| == old(|threads|)
      ensures threads[t] == old(threads[t]).(pc := RdUnlock)
    {
      hide Inv, Snapshot, Asked;
      later := Others(t, turns);
      GoOn(t);
      later := Others(t, later);
      GoOn(t);
    }

    /** An operation after which there is only one way to go on. */
    method GoOn(t: nat)
      requires Inv(Snapshot()) && t < |threads| && Plain(threads[t].pc)
      modifies this
      ensures Inv(Snapshot()) && |threads| == old(|threads|) && threads[t] == Next(old(threads[t]))
    {
      hide Inv, Step, Next, Plain;
      PlainGoes(Snapshot(), t);
      Operate(t, Go);
    }

    /** pthread_rwlock_wrlock, timedwrlock and trywrlock as a whole. They give up, in the
        state `seen`, only because somebody has a mutex they need or a read lock, or
        because the wait for the readers is timed out or cancelled in the thread's turns;
        with everybody outside the library they succeed exactly if nobody has the lock. */
    method WriteCall(t: nat, how: How, turns: seq<seq<(nat, Move)>>)
      returns (r: Outcome, later: seq<seq<(nat, Move)>>, ghost seen: State)
      requires Inv(Snapshot()) && t < |threads| && threads[t].pc.Idle?
      modifies this
      ensures Inv(Snapshot()) && |threads| == old(|threads|)
      ensures r == OK ==> threads[t] == Thread(Idle, 0, true) && WritesAlone(Snapshot(), t)
      ensures r == EBUSY || r == ETIMEDOUT ==> threads[t] == old(threads[t])
      ensures r == EBUSY ==> how.Try? && Contended(seen, t)
      ensures r == ETIMEDOUT ==>
        !how.Try? && (Asked(t, turns) || (how.Timed? && later == [] && Contended(seen, t)))
      ensures r == Unfinished ==> later == [] && Stays(Snapshot(), t)
      ensures r == Unfinished && threads[t].pc.WrBlocked? ==> !how.Timed? && !Asked(t, turns)
      ensures turns == [] && old(AllIdle(Snapshot())) ==>
        (r == OK <==> forall i :: 0 <= i < old(|threads|) ==> !HasLock(old(threads[i])))
    {
      hide Inv, ReadStep, WriteStep, DrainStep, UnlockStep, Asked, Stays, Contended, AllIdle, Writing, Sum;
      LockedIff(Snapshot());
      if AllIdle(Snapshot()) { IdleMutexes(Snapshot()); }
      BeginWrite(t, how);
      var pending, asked := AskedNow(t, turns), false;
      later := Others(t, turns);
      r, later, asked, seen := LockExclusive(t, how, later);
      if r == OK {
        pending := pending || asked || AskedNow(t, later);
        later := Others(t, later);
        r, later, seen := FinishWrite(t, how, later, pending);
      }
    }

    method BeginWrite(t: nat, how: How)
      requires Inv(Snapshot()) && t < |threads| && threads[t].pc.Idle?
      modifies this
      ensures Inv(Snapshot()) && |threads| == old(|threads|) && threads[t] == old(threads[t]).(pc := WrLock(how))
      ensures mtxExclusiveAccess == old(mtxExclusiveAccess)
      ensures mtxSharedAccessCompleted == old(mtxSharedAccessCompleted)
      ensures Readers(Snapshot()) == old(Readers(Snapshot()))
    {
      hide Inv, Sum;
      ghost var start := Snapshot();
      Operate(t, CallWrite(how));
      ReadersKept(start, Snapshot(), t);
    }

    /** What is left of a writer's call that has mtxExclusiveAccess. */
    method FinishWrite(t: nat, how: How, turns: seq<seq<(nat, Move)>>, pending: bool)
      returns (r: Outcome, later: seq<seq<(nat, Move)>>, ghost seen: State)
      requires Inv(Snapshot()) && t < |threads| && threads[t].pc == WrLockCompleted(how)
      modifies this
      ensures Inv(Snapshot()) && |threads| == old(|threads|)
      ensures r == OK ==> threads[t] == Thread(Idle, 0, true) && WritesAlone(Snapshot(), t)
      ensures r == EBUSY || r == ETIMEDOUT ==> threads[t] == old(threads[t]).(pc := Idle)
      ensures r == EBUSY ==> how.Try? && Contended(seen, t)
      ensures r == ETIMEDOUT ==>
        !how.Try? && (pending || Asked(t, turns) || (how.Timed? && later == [] && Contended(seen, t)))
      ensures r == Unfinished ==> later == [] && Stays(Snapshot(), t)
      ensures r == Unfinished && threads[t].pc.WrBlocked? ==> !how.Timed? && !pending && !Asked(t, turns)
      ensures turns == [] && !old(mtxSharedAccessCompleted) ==> (r == OK <==> old(Readers(Snapshot())) == 0)
    {
      hide Inv, ReadStep, WriteStep, DrainStep, UnlockStep, Asked, Stays, Contended, Sum;
      var asked;
      r, later, asked, seen := LockBoth(t, how, turns);
      if r == OK {
        asked := asked || AskedNow(t, later);
        later := Others(t, later);
        r, later, seen := BecomeWriter(t, how, later, pending || asked);
        if r == OK { LockMeans(Snapshot(), t); }
      }
    }

    /** Locking mtxSharedAccessCompleted while holding mtxExclusiveAccess. */
    method LockBoth(t: nat, how: How, turns: seq<seq<(nat, Move)>>)
      returns (r: Outcome, later: seq<seq<(nat, Move)>>, asked: bool, ghost seen: State)
      requires Inv(Snapshot()) && t < |threads| && threads[t].pc == WrLockCompleted(how)
      modifies this
      ensures Inv(Snapshot()) && |threads| == old(|threads|)
      ensures r == Unfinished ==> later == [] && Stays(Snapshot(), t) && threads[t] == old(threads[t])
      ensures r == OK ==> threads[t] == old(threads[t]).(pc := WrTest(how))
      ensures r == EBUSY ==> how.Try? && Contended(seen, t)
      ensures r == ETIMEDOUT ==> how.Timed? && later == [] && Contended(seen, t)
      ensures r == EBUSY || r == ETIMEDOUT ==> threads[t] == old(threads[t]).(pc := Idle)
      ensures Asked(t, turns) <==> asked || Asked(t, later)
      ensures |later| <= |turns|
      ensures turns == [] && !old(mtxSharedAccessCompleted) ==> r == OK && Readers(Snapshot()) == old(Readers(Snapshot()))
    {
      hide Inv, ReadStep, DrainStep, UnlockStep, Asked, AskedNow, SomebodyHasE, SomebodyHasC, Sum;
      later, asked := turns, false;
      while mtxSharedAccessCompleted && !how.Try? && later != []
        invariant Inv(Snapshot()) && |threads| == old(|threads|) && threads[t] == old(threads[t])
        invariant |later| <= |turns| && (Asked(t, turns) <==> asked || Asked(t, later))
        invariant turns == [] ==> Snapshot() == old(Snapshot())
        decreases |later|
      {
        asked := asked || AskedNow(t, later);
        later := Others(t, later);
      }
      seen := Snapshot();
      MutexesAreHeld(seen);
      r := if !mtxSharedAccessCompleted then OK
           else if how.Try? then EBUSY else if how.Timed? then ETIMEDOUT else Unfinished;
      if r != Unfinished {
        Operate(t, if r == ETIMEDOUT then Interrupt else Go);
        ReadersKept(seen, Snapshot(), t);
      }
      if r == EBUSY || r == ETIMEDOUT {
        asked := asked || AskedNow(t, later);
        later := BackOut(t, later);
      }
    }

    method BackOut(t: nat, turns: seq<seq<(nat, Move)>>) returns (later: seq<seq<(nat, Move)>>)
      requires Inv(Snapshot()) && t < |threads| && threads[t].pc.WrBackOut?
      modifies this
      ensures Inv(Snapshot()) && |threads| == old(|threads|) && threads[t] == old(threads[t]).(pc := Idle)
      ensures |later| <= |turns| && (Asked(t, turns) <==> AskedNow(t, turns) || Asked(t, later))
    {
      hide Inv, Snapshot, Asked, AskedNow;
      later := Others(t, turns);
      GoOn(t);
    }

    /** The test of the counts, with both mutexes. */
    method TestCall(t: nat, how: How) returns (ghost seen: State)
      requires Inv(Snapshot()) && t < |threads| && threads[t].pc == WrTest(how)
      modifies this
      ensures Inv(Snapshot()) && |threads| == old(|threads|)
      ensures threads[t] == old(threads[t]).(pc := if old(Readers(Snapshot())) == 0 then WrEnter
                                                   else if how.Try? then WrTryUnlock else WrWait)
      ensures old(Readers(Snapshot())) != 0 ==> Contended(seen, t)
    {
      hide Inv, ReadStep, DrainStep, UnlockStep, Readers;
      seen := Snapshot();
      TestFindsNoWriter(seen, t);
      TestEntersIff(seen, t);
      Operate(t, Go);
    }

    /** With both mutexes: the test, the wait for the readers, and the entry. `pending` if
        the thread has been asked before to end its wait. */
    method BecomeWriter(t: nat, how: How, turns: seq<seq<(nat, Move)>>, pending: bool)
      returns (r: Outcome, later: seq<seq<(nat, Move)>>, ghost seen: State)
      requires Inv(Snapshot()) && t < |threads| && threads[t].pc == WrTest(how)
      modifies this
      ensures Inv(Snapshot()) && |threads| == old(|threads|)
      ensures r == Unfinished ==> later == [] && Stays(Snapshot(), t)
      ensures r == Unfinished && threads[t].pc.WrBlocked? ==> !how.Timed? && !pending && !Asked(t, turns)
      ensures r == OK ==> threads[t] == old(threads[t]).(pc := Idle, writer := true)
      ensures r == EBUSY ==> how.Try? && Contended(seen, t)
      ensures r == ETIMEDOUT ==>
        !how.Try? && (pending || Asked(t, turns) || (how.Timed? && later == [] && Contended(seen, t)))
      ensures r == EBUSY || r == ETIMEDOUT ==> threads[t] == old(threads[t]).(pc := Idle)
      ensures turns == [] ==> (r == OK <==> old(Readers(Snapshot())) == 0)
    {
      hide Inv, Snapshot, Readers, Stays, Contended, Asked;
      r, later := OK, turns;
      seen := TestCall(t, how);
      if threads[t].pc.WrTryUnlock? {
        r := EBUSY;
        later := UnlockBoth(t, later);
      } else {
        if threads[t].pc.WrWait? { r, later := DrainCall(t, how.Timed?, later, pending); }
        if r == OK { later := Enter(t, later); }
      }
    }

    method UnlockBoth(t: nat, turns: seq<seq<(nat, Move)>>) returns (later: seq<seq<(nat, Move)>>)
      requires Inv(Snapshot()) && t < |threads| && threads[t].pc.WrTryUnlock?
      modifies this
      ensures Inv(Snapshot()) && |threads| == old(|threads|) && threads[t] == old(threads[t]).(pc := Idle)
    {
      hide Inv, Snapshot, Asked;
      later := Others(t, turns);
      GoOn(t);
      later := Others(t, later);
      GoOn(t);
    }

    method Enter(t: nat, turns: seq<seq<(nat, Move)>>) returns (later: seq<seq<(nat, Move)>>)
      requires Inv(Snapshot()) && t < |threads| && threads[t].pc.WrEnter?
      modifies this
      ensures Inv(Snapshot()) && |threads| == old(|threads|)
      ensures threads[t] == old(threads[t]).(pc := Idle, writer := true)
    {
      hide Inv, Snapshot, Asked;
      later := Others(t, turns);
      GoOn(t);
    }

    /** The loop that waits until the readers found have completed. */
    method DrainCall(t: nat, timed: bool, turns: seq<seq<(nat, Move)>>, pending: bool)
      returns (r: Outcome, later: seq<seq<(nat, Move)>>)
      requires Inv(Snapshot()) && t < |threads| && threads[t].pc.WrWait?
      modifies this
      ensures Inv(Snapshot()) && |threads| == old(|threads|)
      ensures r != EBUSY && (r == Unfinished ==> later == [] && Stays(Snapshot(), t))
      ensures r == Unfinished && threads[t].pc.WrBlocked? ==> !timed && !pending && !Asked(t, turns)
      ensures r == OK ==> threads[t] == old(threads[t]).(pc := WrEnter)
      ensures r == ETIMEDOUT ==>
        threads[t] == old(threads[t]).(pc := Idle) && (pending || Asked(t, turns) || (timed && later == []))
      ensures turns == [] ==> r != OK
    {
      hide Inv, ReadStep, WriteStep, UnlockStep, Stays, Asked;
      r, later := OK, turns;
      var asked := pending;
      while r == OK && threads[t].pc.WrWait?
        invariant Inv(Snapshot()) && |threads| == old(|threads|) && r != EBUSY
        invariant r == OK ==>
          threads[t] == old(threads[t]) || (threads[t] == old(threads[t]).(pc := WrEnter) && turns != [])
        invariant r == ETIMEDOUT ==>
          threads[t] == old(threads[t]).(pc := Idle) && (pending || Asked(t, turns) || (timed && later == []))
        invariant r == Unfinished ==> later == [] && Stays(Snapshot(), t)
        invariant r == Unfinished && threads[t].pc.WrBlocked? ==> !timed && !pending && !Asked(t, turns)
        invariant r == OK ==> (pending || Asked(t, turns) <==> asked || Asked(t, later))
        invariant turns == [] ==> later == []
        decreases |later|, r == OK, threads[t].pc.WrWait?
      {
        r, later, asked := WaitOnce(t, timed, later, asked);
      }
    }

    /** Waiting for the signal, a spurious wake-up, a time-out or a cancellation; a timed
        wait ends when the other threads' turns run out. `asked` at the return if somebody
        has asked for an end. */
    method WaitCall(t: nat, timed: bool, turns: seq<seq<(nat, Move)>>, pending: bool)
      returns (r: Outcome, later: seq<seq<(nat, Move)>>, asked: bool)
      requires Inv(Snapshot()) && t < |threads| && threads[t].pc.WrBlocked? && !cndSharedAccessCompleted
      modifies this
      ensures Inv(Snapshot()) && |threads| == old(|threads|)
      ensures r == OK || (r == Unfinished && later == [] && Stays(Snapshot(), t) && threads[t] == old(threads[t]))
      ensures r == Unfinished ==> !timed && !pending && !Asked(t, turns)
      ensures r == OK ==> |later| <= |turns|
      ensures r == OK ==>
        || (threads[t] == old(threads[t]).(pc := WrRelock(true)) && |later| < |turns|)
        || (threads[t] == old(threads[t]).(pc := WrRelock(false)) && (asked || (timed && later == [])))
      ensures pending || Asked(t, turns) <==> asked || Asked(t, later)
    {
      hide Inv, ReadStep, WriteStep, UnlockStep, Asked, AskedNow, Stays;
      later, asked := turns, pending;
      var woken := false;
      while !cndSharedAccessCompleted && !woken && !asked && later != []
        invariant Inv(Snapshot()) && |threads| == old(|threads|) && threads[t] == old(threads[t])
        invariant cndSharedAccessCompleted || woken ==> |later| < |turns|
        invariant |later| <= |turns|
        invariant pending || Asked(t, turns) <==> asked || Asked(t, later)
        decreases |later|
      {
        woken := WokenNow(t, later);
        asked := asked || AskedNow(t, later);
        later := Others(t, later);
      }
      r := OK;
      if asked { Operate(t, Interrupt); }
      else if cndSharedAccessCompleted { Operate(t, Go); }
      else if woken { Operate(t, Spurious); }
      else if timed { Operate(t, Interrupt); }
      else {
        BlockedStays(Snapshot(), t);
        NothingAsked(t, later);
        r := Unfinished;
      }
    }

    /** The condition of the loop, or the cleanup routine, with mtxSharedAccessCompleted. */
    method CheckOrClean(t: nat, ok: bool)
      requires Inv(Snapshot()) && t < |threads| && threads[t].pc == WrCheck(ok)
      modifies this
      ensures Inv(Snapshot()) && |threads| == old(|threads|)
      ensures
        if !ok then threads[t] == old(threads[t]).(pc := Cancel)
        else threads[t] == old(threads[t]).(pc := if old(Readers(Snapshot())) > 0 then WrWait else WrEnter)
    {
      hide Inv, ReadStep, WriteStep, UnlockStep, Readers;
      CheckMeans(Snapshot(), t);
      Operate(t, Go);
    }

    /** The release of mtxSharedAccessCompleted when a wait begins. */
    method BeginWait(t: nat)
      requires Inv(Snapshot()) && t < |threads| && threads[t].pc.WrWait?
      modifies this
      ensures Inv(Snapshot()) && |threads| == old(|threads|) && !cndSharedAccessCompleted
      ensures threads[t] == old(threads[t]).(pc := WrBlocked)
    {
      hide Inv, ReadStep, WriteStep, UnlockStep;
      Operate(t, Go);
    }

    /** One pthread_cond_wait, and what follows it in the loop. */
    method WaitOnce(t: nat, timed: bool, turns: seq<seq<(nat, Move)>>, pending: bool)
      returns (r: Outcome, later: seq<seq<(nat, Move)>>, asked: bool)
      requires Inv(Snapshot()) && t < |threads| && threads[t].pc.WrWait?
      modifies this
      ensures Inv(Snapshot()) && |threads| == old(|threads|) && r != EBUSY && |later| <= |turns|
      ensures r == Unfinished ==> later == [] && Stays(Snapshot(), t)
      ensures r == Unfinished && threads[t].pc.WrBlocked? ==> !timed && !pending && !Asked(t, turns)
      ensures r == OK ==>
        && |later| < |turns|
        && (threads[t] == old(threads[t]) || threads[t] == old(threads[t]).(pc := WrEnter))
        && (pending || Asked(t, turns) <==> asked || Asked(t, later))
      ensures r == ETIMEDOUT ==>
        threads[t] == old(threads[t]).(pc := Idle) && (pending || Asked(t, turns) || (timed && later == []))
    {
      hide Inv, Snapshot, Stays, Asked;
      BeginWait(t);
      r, later, asked := WaitCall(t, timed, turns, pending);
      if r == OK {
        var more;
        r, later, more := AfterWait(t, threads[t].pc.ok, later);
        asked := asked || more;
      }
    }

    /** Taking mtxSharedAccessCompleted again, and then the check or the cleanup. */
    method AfterWait(t: nat, ok: bool, turns: seq<seq<(nat, Move)>>)
      returns (r: Outcome, later: seq<seq<(nat, Move)>>, asked: bool)
      requires Inv(Snapshot()) && t < |threads| && threads[t].pc == WrRelock(ok)
      modifies this
      ensures Inv(Snapshot()) && |threads| == old(|threads|) && r != EBUSY && |later| <= |turns|
      ensures r == Unfinished ==> later == [] && Stays(Snapshot(), t) && threads[t] == old(threads[t])
      ensures r == OK ==>
        ok && (threads[t] == old(threads[t]).(pc := WrWait) || threads[t] == old(threads[t]).(pc := WrEnter))
      ensures r == ETIMEDOUT ==> !ok && threads[t] == old(threads[t]).(pc := Idle)
      ensures Asked(t, turns) <==> asked || Asked(t, later)
    {
      hide Inv, Snapshot, Stays, Asked, AskedNow, Readers;
      r, later, asked := LockCompleted(t, turns);
      if r == OK {
        asked := asked || AskedNow(t, later);
        later := Others(t, later);
        CheckOrClean(t, ok);
        if !ok {
          r := ETIMEDOUT;
          asked, later := GiveBack(t, later, asked);
        }
      }
    }

    /** The end of ptw32_rwlock_cancelwrwait: both mutexes are given back. */
    method GiveBack(t: nat, turns: seq<seq<(nat, Move)>>, before: bool)
      returns (asked: bool, later: seq<seq<(nat, Move)>>)
      requires Inv(Snapshot()) && t < |threads| && threads[t].pc.Cancel?
      modifies this
      ensures Inv(Snapshot()) && |threads| == old(|threads|) && threads[t] == old(threads[t]).(pc := Idle)
      ensures |later| <= |turns| && (before || Asked(t, turns) <==> asked || Asked(t, later))
    {
      hide Inv, Snapshot, Asked, AskedNow;
      asked := before || AskedNow(t, turns);
      later := Others(t, turns);
      GoOn(t);
      asked := asked || AskedNow(t, later);
      later := Others(t, later);
      GoOn(t);
    }

    /** pthread_rwlock_unlock as a whole: one lock less. Only a reader may have to wait, for
        a mutex that somebody has. */
    method UnlockCall(t: nat, turns: seq<seq<(nat, Move)>>) returns (r: Outcome, later: seq<seq<(nat, Move)>>)
      requires Inv(Snapshot()) && t < |threads| && threads[t].pc.Idle? && HasLock(threads[t])
      modifies this
      ensures Inv(Snapshot()) && |threads| == old(|threads|)
      ensures r == OK || (r == Unfinished && !old(threads[t].writer) && later == [] && Stays(Snapshot(), t))
      ensures r == OK ==>
        threads[t] == if old(threads[t].writer) then Thread(Idle, 0, false)
                      else Thread(Idle, old(threads[t].shares) - 1, false)
      ensures turns == [] && old(AllIdle(Snapshot())) ==> r == OK
    {
      hide Inv, Stays, Asked, AllIdle, ReadStep, WriteStep, DrainStep, UnlockStep;
      if AllIdle(Snapshot()) { ReaderFindsFree(Snapshot(), t); }
      BeginUnlock(t);
      later := Others(t, turns);
      TestExclusive(t);
      later := Others(t, later);
      if threads[t].pc.WrDone? {
        later := WriterDone(t, later);
        r := OK;
      } else {
        r, later := ReaderDone(t, later);
      }
    }

    method BeginUnlock(t: nat)
      requires Inv(Snapshot()) && t < |threads| && threads[t].pc.Idle? && HasLock(threads[t])
      modifies this
      ensures Inv(Snapshot()) && |threads| == old(|threads|) && threads[t] == old(threads[t]).(pc := Pc.Unlock)
      ensures mtxSharedAccessCompleted == old(mtxSharedAccessCompleted)
    {
      hide Inv;
      Operate(t, CallUnlock);
    }

    /** The test that tells a writer from a reader: nobody else can be a writer. */
    method TestExclusive(t: nat)
      requires Inv(Snapshot()) && t < |threads| && threads[t].pc.Unlock? && HasLock(threads[t])
      modifies this
      ensures Inv(Snapshot()) && |threads| == old(|threads|)
      ensures threads[t] == old(threads[t]).(pc := if old(threads[t].writer) then WrDone else RdDoneLock)
      ensures if threads[t].writer then threads[t].shares == 0 else threads[t].shares > 0
      ensures mtxSharedAccessCompleted == old(mtxSharedAccessCompleted)
    {
      hide Inv;
      LockMeans(Snapshot(), t);
      Operate(t, Go);
    }

    method WriterDone(t: nat, turns: seq<seq<(nat, Move)>>) returns (later: seq<seq<(nat, Move)>>)
      requires Inv(Snapshot()) && t < |threads| && threads[t].pc.WrDone?
      modifies this
      ensures Inv(Snapshot()) && |threads| == old(|threads|)
      ensures threads[t] == old(threads[t]).(pc := Idle, writer := false)
    {
      hide Inv, Snapshot, Asked;
      GoOn(t);
      later := Others(t, turns);
      GoOn(t);
      later := Others(t, later);
      GoOn(t);
    }

    method ReaderDone(t: nat, turns: seq<seq<(nat, Move)>>) returns (r: Outcome, later: seq<seq<(nat, Move)>>)
      requires Inv(Snapshot()) && t < |threads| && threads[t].pc.RdDoneLock? && threads[t].shares > 0
      modifies this
      ensures Inv(Snapshot()) && |threads| == old(|threads|)
      ensures r == OK || (r == Unfinished && later == [] && Stays(Snapshot(), t))
      ensures r == OK ==> threads[t] == old(threads[t]).(pc := Idle, shares := old(threads[t].shares) - 1)
      ensures turns == [] ==> (r == OK <==> !old(mtxSharedAccessCompleted))
    {
      hide Inv, Snapshot, Stays, Asked;
      var asked;
      r, later, asked := LockCompleted(t, turns);
      if r == OK {
        later := Others(t, later);
        var last := CountOut(t);
        later := SignalAndUnlock(t, last, later);
      }
    }

    method SignalAndUnlock(t: nat, last: bool, turns: seq<seq<(nat, Move)>>) returns (later: seq<seq<(nat, Move)>>)
      requires Inv(Snapshot()) && t < |threads| && threads[t].pc == if last then RdDoneSignal else RdDoneUnlock
      modifies this
      ensures Inv(Snapshot()) && |threads| == old(|threads|) && threads[t] == old(threads[t]).(pc := Idle)
    {
      hide Inv, Snapshot, Asked;
      later := turns;
      if last {
        later := Others(t, later);
        GoOn(t);
      }
      later := Others(t, later);
      GoOn(t);
    }

    method CountOut(t: nat) returns (last: bool)
      requires Inv(Snapshot()) && t < |threads| && threads[t].pc.RdDone? && threads[t].shares > 0
      modifies this
      ensures Inv(Snapshot()) && |threads| == old(|threads|)
      ensures threads[t] == old(threads[t]).(pc := if last then RdDoneSignal else RdDoneUnlock,
                                             shares := old(threads[t].shares) - 1)
    {
      hide Inv, ReadStep, WriteStep, DrainStep;
      Operate(t, Go);
      last := nCompletedSharedAccessCount == 0;
    }
  }
}
