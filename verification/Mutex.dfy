/** Non-robust mutexes of all three kinds: a lock word in {0, 1, -1}, an auto-reset event,
    and for the recursive and error-checking kinds an owner and a count. Each step is one
    interlocked operation, one event operation, or one access to owner or count. */
module Mutex {
  import opened Counting

  datatype Kind = Normal | Recursive | Errorcheck

  datatype Result = OK | EDEADLK | EBUSY | EPERM | ETIMEDOUT

  datatype Option<T> = None | Some(value: T)

  datatype Pc =
    | Idle
    // pthread_mutex_lock and pthread_mutex_timedlock
    | LockFirst(timed: bool)
    | LockOwner(timed: bool)
    | LockLoop(timed: bool)
    | LockWait(timed: bool)
    // the new holder of a recursive or error-checking mutex fills in the fields
    | SetCount
    | SetOwner
    // pthread_mutex_trylock
    | TryFirst
    | TryOwner
    // pthread_mutex_unlock
    | UnlockOwner
    | UnlockCount
    | ClearOwner
    | UnlockWord
    | Signal

  /** `depth` is history: locks minus unlocks that have taken effect for this thread.
      `last` is what its last call returned. */
  datatype Thread = Thread(pc: Pc, depth: int, last: Result)

  datatype State = State(kind: Kind, idx: int, event: bool, owner: Option<nat>, count: int, threads: seq<Thread>)

  datatype Move = Go | Interrupt | CallLock(timed: bool) | CallTryLock | CallUnlock

  function Init(kind: Kind, n: nat): State {
    State(kind, 0, false, None, 0, seq(n, i => Thread(Idle, 0, OK)))
  }

  function Goto(s: State, t: nat, pc: Pc): State
    requires t < |s.threads|
  {
    s.(threads := s.threads[t := s.threads[t].(pc := pc)])
  }

  function Return(s: State, t: nat, depth: int, r: Result): State
    requires t < |s.threads|
  {
    s.(threads := s.threads[t := Thread(Idle, depth, r)])
  }

  /** Discipline: a normal mutex, which has no owner field to check, is unlocked only by
      its holder. The other kinds check for themselves. */
  function Step(s: State, t: nat, m: Move): State {
    if t >= |s.threads| then s
    else
      var th := s.threads[t];
      match m
      case Go => if LockPc(th.pc) then LockStep(s, t) else if TryPc(th.pc) then TryStep(s, t) else UnlockStep(s, t)
      case Interrupt => if th.pc == LockWait(true) then Return(s, t, th.depth, ETIMEDOUT) else s
      case CallLock(timed) => if th.pc.Idle? then Goto(s, t, LockFirst(timed)) else s
      case CallTryLock => if th.pc.Idle? then Goto(s, t, TryFirst) else s
      case CallUnlock =>
        if !th.pc.Idle? then s
        else if !s.kind.Normal? then Goto(s, t, UnlockOwner)
        else if th.depth > 0 then Goto(s, t, UnlockWord)
        else s
  }

  predicate LockPc(pc: Pc) {
    pc.LockFirst? || pc.LockOwner? || pc.LockLoop? || pc.LockWait? || pc.SetCount? || pc.SetOwner?
  }

  predicate TryPc(pc: Pc) { pc.TryFirst? || pc.TryOwner? }

  function Acquired(s: State, t: nat): State
    requires t < |s.threads|
  {
    if s.kind.Normal? then Return(s, t, s.threads[t].depth + 1, OK) else Goto(s, t, SetCount)
  }

  function LockStep(s: State, t: nat): State
    requires t < |s.threads| && LockPc(s.threads[t].pc)
  {
    var th := s.threads[t];
    match th.pc
    case LockFirst(timed) =>
      if s.kind.Normal? then
        (if s.idx == 0 then Acquired(s, t) else Goto(s, t, LockLoop(timed))).(idx := 1)
      else
        if s.idx == 0 then Acquired(s, t).(idx := 1) else Goto(s, t, LockOwner(timed))
    case LockOwner(timed) =>
      if s.owner == Some(t) then
        if s.kind.Recursive? then Return(s, t, th.depth + 1, OK).(count := s.count + 1)
        else Return(s, t, th.depth, EDEADLK)
      else Goto(s, t, LockLoop(timed))
    case LockLoop(timed) =>
      (if s.idx == 0 then Acquired(s, t) else Goto(s, t, LockWait(timed))).(idx := -1)
    case LockWait(timed) => if s.event then Goto(s, t, LockLoop(timed)).(event := false) else s
    case SetCount => Goto(s, t, SetOwner).(count := 1)
    case SetOwner => Return(s, t, th.depth + 1, OK).(owner := Some(t))
  }

  function TryStep(s: State, t: nat): State
    requires t < |s.threads| && TryPc(s.threads[t].pc)
  {
    var th := s.threads[t];
    match th.pc
    case TryFirst =>
      if s.idx == 0 then Acquired(s, t).(idx := 1)
      else if s.kind.Recursive? then Goto(s, t, TryOwner)
      else Return(s, t, th.depth, EBUSY)
    case TryOwner =>
      if s.owner == Some(t) then Return(s, t, th.depth + 1, OK).(count := s.count + 1)
      else Return(s, t, th.depth, EBUSY)
  }

  function UnlockStep(s: State, t: nat): State
    requires t < |s.threads|
  {
    var th := s.threads[t];
    match th.pc
    case UnlockOwner =>
      if s.owner != Some(t) then Return(s, t, th.depth, EPERM)
      else if s.kind.Recursive? then Goto(s, t, UnlockCount)
      else Goto(s, t, ClearOwner)
    case UnlockCount =>
      (if s.count - 1 == 0 then Goto(s, t, ClearOwner)
       else Return(s, t, th.depth - 1, OK)).(count := s.count - 1)
    case ClearOwner => Goto(s, t, UnlockWord).(owner := None)
    case UnlockWord =>
      (if s.idx < 0 then s.(threads := s.threads[t := Thread(Signal, th.depth - 1, th.last)])
       else if s.idx == 0 && s.kind.Normal? then Return(s, t, th.depth - 1, EPERM)
       else Return(s, t, th.depth - 1, OK)).(idx := 0)
    case Signal => Return(s, t, th.depth, OK).(event := true)
    case _ => s
  }

  function Run(s: State, schedule: seq<(nat, Move)>): State
    decreases |schedule|
  {
    if schedule == [] then s else Run(Step(s, schedule[0].0, schedule[0].1), schedule[1..])
  }

  // ---- what a thread contributes to the counts ----

  /** The thread has the lock word: it won an exchange and has not yet put 0 back. */
  function Holding(th: Thread): nat { B2N(th.depth > 0 || th.pc.SetCount? || th.pc.SetOwner?) }

  /** The owner field should name this thread. */
  function Settled(th: Thread): nat { B2N(th.depth > 0 && !th.pc.UnlockWord?) }

  function Waiting(th: Thread): nat { B2N(th.pc.LockWait?) }

  /** About to exchange -1 into the lock word. */
  function Contending(th: Thread): nat { B2N(th.pc.LockLoop?) }

  /** About to set the event. */
  function Signalling(th: Thread): nat { B2N(th.pc.Signal?) }

  predicate Unlocking(pc: Pc) { pc.UnlockCount? || pc.ClearOwner? || pc.UnlockWord? }

  predicate ThreadOk(s: State, th: Thread) {
    && th.depth >= 0
    && (th.pc.SetCount? || th.pc.SetOwner? || th.pc.Signal? ==> th.depth == 0)
    && (Unlocking(th.pc) ==> th.depth > 0)
    && (th.pc.ClearOwner? || th.pc.UnlockWord? ==> th.depth == 1)
    && (!s.kind.Recursive? ==> th.depth <= 1 && !th.pc.UnlockCount? && !th.pc.TryOwner?)
    && (s.kind.Normal? ==>
          !th.pc.LockOwner? && !th.pc.SetCount? && !th.pc.SetOwner? && !th.pc.UnlockOwner? && !th.pc.ClearOwner?)
    && (!s.kind.Normal? && (th.pc.LockLoop? || th.pc.LockWait?) ==> th.depth == 0)
    && (th.pc.SetOwner? ==> s.count == 1)
  }

  /** The owner field names the settled holder, and a recursive count is its depth. */
  ghost predicate OwnerOk(s: State) {
    if s.kind.Normal? then s.owner.None?
    else
      && Sum(s.threads, Settled) == B2N(s.owner.Some?)
      && (s.owner.Some? ==>
            && s.owner.value < |s.threads|
            && Settled(s.threads[s.owner.value]) == 1
            && (s.kind.Recursive? ==>
                  s.count == s.threads[s.owner.value].depth - B2N(s.threads[s.owner.value].pc.ClearOwner?)))
  }

  ghost predicate Inv(s: State) {
    && -1 <= s.idx <= 1
    && Sum(s.threads, Holding) == B2N(s.idx != 0)
    && NoLostWakeUp(s)
    && OwnerOk(s)
    && forall i :: 0 <= i < |s.threads| ==> ThreadOk(s, s.threads[i])
  }

  /** Whoever is blocked on the unsignalled event can count on the lock word being -1, so
      that the holder will signal, or on somebody who will put -1 there or will signal. */
  ghost predicate NoLostWakeUp(s: State) {
    Sum(s.threads, Waiting) > 0 && !s.event ==>
      s.idx == -1 || Sum(s.threads, Contending) > 0 || Sum(s.threads, Signalling) > 0
  }

  // ---- every step keeps the invariant ----

  lemma Moved(s: State, s': State, t: nat)
    requires t < |s.threads| && |s'.threads| == |s.threads|
    requires s'.threads == s.threads[t := s'.threads[t]]
    ensures Sum(s'.threads, Holding) + Holding(s.threads[t]) == Sum(s.threads, Holding) + Holding(s'.threads[t])
    ensures Sum(s'.threads, Settled) + Settled(s.threads[t]) == Sum(s.threads, Settled) + Settled(s'.threads[t])
    ensures Sum(s'.threads, Waiting) + Waiting(s.threads[t]) == Sum(s.threads, Waiting) + Waiting(s'.threads[t])
    ensures Sum(s'.threads, Contending) + Contending(s.threads[t]) == Sum(s.threads, Contending) + Contending(s'.threads[t])
    ensures Sum(s'.threads, Signalling) + Signalling(s.threads[t]) == Sum(s.threads, Signalling) + Signalling(s'.threads[t])
    ensures Holding(s.threads[t]) <= Sum(s.threads, Holding) && Settled(s.threads[t]) <= Sum(s.threads, Settled)
    ensures Signalling(s.threads[t]) <= Sum(s.threads, Signalling)
  {
    SumUpdate(s.threads, t, s'.threads[t], Holding);
    SumUpdate(s.threads, t, s'.threads[t], Settled);
    SumUpdate(s.threads, t, s'.threads[t], Waiting);
    SumUpdate(s.threads, t, s'.threads[t], Contending);
    SumUpdate(s.threads, t, s'.threads[t], Signalling);
    SumBounds(s.threads, t, Holding);
    SumBounds(s.threads, t, Settled);
    SumBounds(s.threads, t, Signalling);
  }

  /** The holder is alone, and the owner field, if filled, names it. */
  lemma Alone(s: State, t: nat)
    requires Inv(s) && t < |s.threads|
    ensures Holding(s.threads[t]) == 1 ==>
      s.idx != 0 && forall i :: 0 <= i < |s.threads| && i != t ==> Holding(s.threads[i]) == 0
    ensures s.idx == 0 ==> forall i :: 0 <= i < |s.threads| ==> Holding(s.threads[i]) == 0
    ensures !s.kind.Normal? ==> (Settled(s.threads[t]) == 1 <==> s.owner == Some(t))
  {
    SumBounds(s.threads, t, Holding);
    if Holding(s.threads[t]) == 1 { SumExclusive(s.threads, t, Holding); }
    if s.idx == 0 { SumZero(s.threads, Holding); }
    if !s.kind.Normal? && Settled(s.threads[t]) == 1 {
      SumBounds(s.threads, t, Settled);
      SumExclusive(s.threads, t, Settled);
    }
  }

  lemma InitInv(kind: Kind, n: nat)
    ensures Inv(Init(kind, n))
  {
    var th := Init(kind, n).threads;
    SumAllZero(th, Holding);
    SumAllZero(th, Settled);
    SumAllZero(th, Waiting);
  }

  lemma CallKeepsInv(s: State, t: nat, m: Move)
    requires Inv(s) && !m.Go?
    ensures Inv(Step(s, t, m))
  {
    hide Sum;
    var s' := Step(s, t, m);
    if s' != s {
      Alone(s, t);
      Moved(s, s', t);
    }
  }

  lemma LockFirstKeepsInv(s: State, t: nat)
    requires Inv(s) && t < |s.threads| && (s.threads[t].pc.LockFirst?)
    ensures Inv(LockStep(s, t))
  {
    hide Sum;
    var s' := LockStep(s, t);
    if s' != s {
      Alone(s, t);
      Moved(s, s', t);
    }
  }

  lemma LockLoopKeepsInv(s: State, t: nat)
    requires Inv(s) && t < |s.threads| && (s.threads[t].pc.LockLoop?)
    ensures Inv(LockStep(s, t))
  {
    hide Sum;
    var s' := LockStep(s, t);
    if s' != s {
      Alone(s, t);
      Moved(s, s', t);
    }
  }

  lemma LockWaitKeepsInv(s: State, t: nat)
    requires Inv(s) && t < |s.threads| && (s.threads[t].pc.LockWait? || s.threads[t].pc.LockOwner?)
    ensures Inv(LockStep(s, t))
  {
    hide Sum;
    var s' := LockStep(s, t);
    if s' != s {
      Alone(s, t);
      Moved(s, s', t);
    }
  }

  lemma SetOwnerKeepsInv(s: State, t: nat)
    requires Inv(s) && t < |s.threads| && (s.threads[t].pc.SetCount? || s.threads[t].pc.SetOwner?)
    ensures Inv(LockStep(s, t))
  {
    hide Sum;
    var s' := LockStep(s, t);
    if s' != s {
      Alone(s, t);
      Moved(s, s', t);
    }
  }

  lemma LockKeepsInv(s: State, t: nat)
    requires Inv(s) && t < |s.threads| && LockPc(s.threads[t].pc)
    ensures Inv(LockStep(s, t))
  {
    hide Inv, LockStep;
    match s.threads[t].pc
    case LockFirst(_) => LockFirstKeepsInv(s, t);
    case LockOwner(_) => LockWaitKeepsInv(s, t);
    case LockLoop(_) => LockLoopKeepsInv(s, t);
    case LockWait(_) => LockWaitKeepsInv(s, t);
    case SetCount => SetOwnerKeepsInv(s, t);
    case SetOwner => SetOwnerKeepsInv(s, t);
  }

  lemma TryKeepsInv(s: State, t: nat)
    requires Inv(s) && t < |s.threads| && TryPc(s.threads[t].pc)
    ensures Inv(TryStep(s, t))
  {
    hide Sum;
    Alone(s, t);
    Moved(s, TryStep(s, t), t);
  }

  lemma UnlockWordKeepsInv(s: State, t: nat)
    requires Inv(s) && t < |s.threads| && (s.threads[t].pc.UnlockWord? || s.threads[t].pc.Signal?)
    ensures Inv(UnlockStep(s, t))
  {
    hide Sum;
    var s' := UnlockStep(s, t);
    if s' != s {
      Alone(s, t);
      Moved(s, s', t);
    }
  }

  lemma UnlockOwnerKeepsInv(s: State, t: nat)
    requires Inv(s) && t < |s.threads| && (!s.threads[t].pc.UnlockWord? && !s.threads[t].pc.Signal?)
    ensures Inv(UnlockStep(s, t))
  {
    hide Sum;
    var s' := UnlockStep(s, t);
    if s' != s {
      Alone(s, t);
      Moved(s, s', t);
    }
  }

  lemma StepKeepsInv(s: State, t: nat, m: Move)
    requires Inv(s)
    ensures Inv(Step(s, t, m))
  {
    if !m.Go? {
      CallKeepsInv(s, t, m);
    } else if t < |s.threads| {
      hide Inv, LockStep, TryStep, UnlockStep;
      var pc := s.threads[t].pc;
      if LockPc(pc) { LockKeepsInv(s, t); }
      else if TryPc(pc) { TryKeepsInv(s, t); }
      else if pc.UnlockWord? || pc.Signal? { UnlockWordKeepsInv(s, t); }
      else { UnlockOwnerKeepsInv(s, t); }
    }
  }

  lemma {:induction false} RunKeepsInv(s: State, schedule: seq<(nat, Move)>)
    requires Inv(s)
    ensures Inv(Run(s, schedule))
    decreases |schedule|
  {
    if schedule != [] {
      StepKeepsInv(s, schedule[0].0, schedule[0].1);
      RunKeepsInv(Step(s, schedule[0].0, schedule[0].1), schedule[1..]);
    }
  }

  // ---- main results, over every run of any number of threads ----

  /** At most one thread holds the mutex, and only while the lock word is not 0. */
  lemma MutualExclusion(kind: Kind, n: nat, schedule: seq<(nat, Move)>, i: nat, j: nat)
    ensures var s := Run(Init(kind, n), schedule);
      i < j < |s.threads| && s.threads[i].depth > 0 ==> s.idx != 0 && s.threads[j].depth <= 0
  {
    InitInv(kind, n);
    RunKeepsInv(Init(kind, n), schedule);
    var s := Run(Init(kind, n), schedule);
    if i < j < |s.threads| { Alone(s, i); }
  }

  /** No wake-up is lost, although a first exchange may overwrite -1 by 1, signals merge
      in the event, and waiters may give up. */
  lemma WakeUpsAreNotLost(kind: Kind, n: nat, schedule: seq<(nat, Move)>, i: nat)
    ensures var s := Run(Init(kind, n), schedule);
      i < |s.threads| && s.threads[i].pc.LockWait? && !s.event ==>
        || s.idx == -1
        || (exists u :: 0 <= u < |s.threads| && (s.threads[u].pc.LockLoop? || s.threads[u].pc.Signal?))
  {
    InitInv(kind, n);
    RunKeepsInv(Init(kind, n), schedule);
    var s := Run(Init(kind, n), schedule);
    if i < |s.threads| && s.threads[i].pc.LockWait? {
      SumBounds(s.threads, i, Waiting);
      if Sum(s.threads, Contending) > 0 { var u := SumWitness(s.threads, Contending); }
      if Sum(s.threads, Signalling) > 0 { var u := SumWitness(s.threads, Signalling); }
    }
  }

  predicate CanGo(s: State, t: nat) { t < |s.threads| && Step(s, t, Go) != s }

  predicate Blocked(s: State, pc: Pc) { pc.Idle? || (pc.LockWait? && !s.event) }

  lemma UnblockedCanGo(s: State, t: nat)
    requires t < |s.threads| && !Blocked(s, s.threads[t].pc)
    ensures CanGo(s, t)
  {
    assert Step(s, t, Go).threads[t].pc != s.threads[t].pc;
  }

  /** A state in which nobody can go on has no waiters, or the mutex is really held, with
      -1 in the lock word, by a thread that is outside the library or waits for itself. */
  lemma StuckOnlyIfHeld(s: State)
    requires Inv(s)
    requires forall u :: 0 <= u < |s.threads| ==> !CanGo(s, u)
    ensures forall u :: 0 <= u < |s.threads| ==> s.threads[u].pc.Idle? || s.threads[u].pc.LockWait?
    ensures (exists u :: 0 <= u < |s.threads| && s.threads[u].pc.LockWait?) ==>
      s.idx == -1 && exists h :: 0 <= h < |s.threads| && s.threads[h].depth > 0
  {
    hide CanGo, Sum;
    forall u | 0 <= u < |s.threads| ensures Blocked(s, s.threads[u].pc) {
      if !Blocked(s, s.threads[u].pc) { UnblockedCanGo(s, u); }
    }
    if u :| 0 <= u < |s.threads| && s.threads[u].pc.LockWait? {
      SumBounds(s.threads, u, Waiting);
      SumAllZero(s.threads, Contending);
      SumAllZero(s.threads, Signalling);
      var h := SumWitness(s.threads, Holding);
      assert s.threads[h].depth > 0;
    }
  }

  // ---- ownership, recursion and return codes ----

  /** The owner test of lock and trylock succeeds exactly for the holder: it then counts up
      a recursive mutex and refuses an error-checking one; anybody else waits or is refused. */
  lemma RelockIsDetected(s: State, t: nat)
    requires Inv(s) && t < |s.threads| && !s.kind.Normal?
    requires s.threads[t].pc.LockOwner? || s.threads[t].pc.TryOwner?
    ensures var th, th' := s.threads[t], Step(s, t, Go).threads[t];
      && (th.depth > 0 && s.kind.Recursive? ==> th' == Thread(Idle, th.depth + 1, OK))
      && (th.depth > 0 && s.kind.Errorcheck? ==> th' == Thread(Idle, th.depth, EDEADLK))
      && (th.depth == 0 && th.pc.LockOwner? ==> th'.pc.LockLoop?)
      && (th.depth == 0 && th.pc.TryOwner? ==> th' == Thread(Idle, 0, EBUSY))
  {
    hide Sum;
    Alone(s, t);
  }

  /** Unlock is refused with EPERM exactly when the caller does not hold the mutex. */
  lemma UnlockIsRefusedToOthers(s: State, t: nat)
    requires Inv(s) && t < |s.threads| && s.threads[t].pc.UnlockOwner?
    ensures Step(s, t, Go).threads[t] == Thread(Idle, s.threads[t].depth, EPERM) <==> s.threads[t].depth == 0
  {
    hide Sum;
    Alone(s, t);
  }

  /** A recursive mutex is given back by exactly the unlock that matches the first lock. */
  lemma CountIsDepth(s: State, t: nat)
    requires Inv(s) && s.kind.Recursive? && t < |s.threads| && s.threads[t].pc.UnlockCount?
    ensures Step(s, t, Go).threads[t].pc.ClearOwner? <==> s.threads[t].depth == 1
    ensures s.threads[t].depth > 1 ==> Step(s, t, Go).threads[t] == Thread(Idle, s.threads[t].depth - 1, OK)
  {
    hide Sum;
    Alone(s, t);
  }

  /** Putting 0 back really frees the mutex: afterwards nobody holds it, and the holder
      never finds it free before. */
  lemma UnlockFrees(s: State, t: nat)
    requires Inv(s) && t < |s.threads| && s.threads[t].pc.UnlockWord?
    ensures s.idx != 0
    ensures var s' := Step(s, t, Go);
      && s'.idx == 0
      && (forall i :: 0 <= i < |s'.threads| ==> s'.threads[i].depth == 0)
      && (s'.threads[t].pc.Signal? <==> s.idx == -1)
  {
    hide Sum;
    Alone(s, t);
    UnlockWordKeepsInv(s, t);
    Alone(UnlockStep(s, t), t);
  }

  /** A step of another thread. */
  lemma OthersLeave(s: State, u: nat, m: Move, t: nat)
    requires t < |s.threads| && u != t
    ensures |Step(s, u, m).threads| == |s.threads| && Step(s, u, m).threads[t] == s.threads[t]
    ensures Step(s, u, m).kind == s.kind
  {
  }

  lemma OwnStep(s: State, t: nat, m: Move)
    requires t < |s.threads|
    ensures |Step(s, t, m).threads| == |s.threads| && Step(s, t, m).kind == s.kind
  {
  }

  /** A thread that holds the mutex excludes all others. */
  ghost predicate Excludes(s: State, t: nat) {
    && t < |s.threads| && s.threads[t].depth > 0 && s.idx != 0
    && forall i :: 0 <= i < |s.threads| && i != t ==> s.threads[i].depth <= 0
  }

  lemma HolderExcludes(s: State, t: nat)
    requires Inv(s) && t < |s.threads| && s.threads[t].depth > 0
    ensures Excludes(s, t)
  {
    hide Sum;
    Alone(s, t);
  }

  /** Somebody has the mutex, or is the new holder that fills in the fields. */
  ghost predicate Held(s: State) { exists i :: 0 <= i < |s.threads| && Holding(s.threads[i]) == 1 }

  lemma HeldIffWord(s: State)
    requires Inv(s)
    ensures Held(s) <==> s.idx != 0
  {
    if s.idx == 0 { SumZero(s.threads, Holding); } else { var i := SumWitness(s.threads, Holding); }
  }

  /** The thread has just got the mutex. */
  predicate Gets(s: State, s': State, t: nat) {
    && t < |s.threads| == |s'.threads|
    && s'.threads[t] == if s.kind.Normal? then Thread(Idle, s.threads[t].depth + 1, OK)
                        else s.threads[t].(pc := SetCount)
  }

  /** An exchange gets the mutex exactly if nobody has it; trylock then gives up, unless it
      looks at the owner of a recursive mutex first. */
  lemma GetsIffFree(s: State, t: nat)
    requires Inv(s) && t < |s.threads|
    requires s.threads[t].pc.LockFirst? || s.threads[t].pc.LockLoop? || s.threads[t].pc.TryFirst?
    ensures Gets(s, Step(s, t, Go), t) <==> !Held(s)
    ensures s.threads[t].pc.TryFirst? && Held(s) ==>
      Step(s, t, Go).threads[t] == if s.kind.Recursive? then s.threads[t].(pc := TryOwner)
                                   else Thread(Idle, s.threads[t].depth, EBUSY)
  {
    HeldIffWord(s);
    hide Inv, Held;
  }

  /** trylock gives up because somebody else has the mutex, or the caller a mutex that
      cannot be locked again. */
  ghost predicate Busy(s: State, t: nat) {
    && Inv(s) && t < |s.threads| && Held(s)
    && (s.kind.Recursive? ==> s.threads[t].depth == 0 || s.threads[t].pc.SetCount? || s.threads[t].pc.SetOwner?)
  }

  /** A thread waits for the event, and somebody will set it. */
  ghost predicate WaitsForEvent(s: State, t: nat) {
    && Inv(s) && t < |s.threads| && s.threads[t].pc.LockWait? && !s.event
    && (s.idx == -1 || Sum(s.threads, Contending) > 0 || Sum(s.threads, Signalling) > 0)
  }

  lemma BlockedWaitsForEvent(s: State, t: nat)
    requires Inv(s) && t < |s.threads| && s.threads[t].pc.LockWait? && !s.event
    ensures WaitsForEvent(s, t)
  {
    SumBounds(s.threads, t, Waiting);
  }

  /** In the state `found` the mutex was held, and in the state `left` the thread waits. */
  ghost predicate InVain(found: State, left: State, t: nat) { Inv(found) && Held(found) && WaitsForEvent(left, t) }

  lemma WaitedInVain(found: State, left: State, t: nat)
    requires Inv(found) && Held(found) && Inv(left) && t < |left.threads| && left.threads[t].pc.LockWait? && !left.event
    ensures InVain(found, left, t)
  {
    BlockedWaitsForEvent(left, t);
  }

  /** The others' steps of one turn, in their order. */
  function OthersRun(s: State, t: nat, turn: seq<(nat, Move)>): State {
    if turn == [] then s
    else
      var s', (u, m) := OthersRun(s, t, turn[..|turn| - 1]), turn[|turn| - 1];
      if u == t then s' else Step(s', u, m)
  }

  /** A call that begins changes nothing about the mutex. */
  lemma CallKeepsHeld(s: State, t: nat, m: Move)
    requires Inv(s) && t < |s.threads| && s.threads[t].pc.Idle? && (m.CallLock? || m.CallTryLock?)
    ensures Held(Step(s, t, m)) <==> Held(s)
  {
    CallKeepsInv(s, t, m);
    HeldIffWord(s);
    HeldIffWord(Step(s, t, m));
    hide Inv, Held;
  }

  /** The first exchange of a lock call that finds the mutex held. */
  lemma FirstExchange(s: State, t: nat)
    requires Inv(s) && t < |s.threads| && s.threads[t].pc.LockFirst? && Held(s)
    ensures Step(s, t, Go).threads[t] ==
      s.threads[t].(pc := if s.kind.Normal? then LockLoop(s.threads[t].pc.timed) else LockOwner(s.threads[t].pc.timed))
  {
    HeldIffWord(s);
    hide Inv, Held;
  }

  predicate ChecksOwner(pc: Pc) { pc.LockOwner? || pc.TryOwner? || pc.UnlockOwner? }

  lemma TakenIfHeld(s: State, t: nat)
    requires Inv(s) && t < |s.threads|
    ensures s.threads[t].depth > 0 ==> s.idx != 0
  {
    hide Sum;
    Alone(s, t);
  }

  lemma OwnerIsHolder(s: State, t: nat)
    requires Inv(s) && t < |s.threads| && !s.kind.Normal? && ChecksOwner(s.threads[t].pc)
    ensures s.owner == Some(t) <==> s.threads[t].depth > 0
  {
    hide Sum;
    Alone(s, t);
  }

  lemma DepthFits(s: State, t: nat)
    requires Inv(s) && t < |s.threads|
    ensures s.threads[t].depth >= 0 && (!s.kind.Recursive? ==> s.threads[t].depth <= 1)
  {
  }

  /** The mutex in the C program's own form. Lock, TryLock and Unlock are one atomic step of
      the function they are named after, taken by thread t; LockCall, TryLockCall and
      UnlockCall are whole calls. */
  class MutexObject {
    const kind: Kind
    var lock_idx: int
    var event: bool
    var ownerThread: Option<nat>
    var recursive_count: int
    var threads: seq<Thread>

    function Snapshot(): State
      reads this
    {
      State(kind, lock_idx, event, ownerThread, recursive_count, threads)
    }

    constructor (kind: Kind, n: nat)
      ensures Snapshot() == Init(kind, n) && Inv(Snapshot())
    {
      this.kind := kind;
      lock_idx, event, ownerThread, recursive_count := 0, false, None, 0;
      threads := seq(n, i => Thread(Idle, 0, OK));
      new;
      InitInv(kind, n);
    }

    method Goto(t: nat, pc: Pc)
      requires t < |threads|
      modifies this`threads
      ensures threads == old(threads)[t := old(threads)[t].(pc := pc)]
    {
      threads := threads[t := threads[t].(pc := pc)];
    }

    method Return(t: nat, depth: int, r: Result)
      requires t < |threads|
      modifies this`threads
      ensures threads == old(threads)[t := Thread(Idle, depth, r)]
    {
      threads := threads[t := Thread(Idle, depth, r)];
    }

    method InterlockedExchange(v: int) returns (was: int)
      modifies this`lock_idx
      ensures was == old(lock_idx) && lock_idx == v
    {
      was := lock_idx;
      lock_idx := v;
    }

    method InterlockedCompareExchange(v: int, comparand: int) returns (was: int)
      modifies this`lock_idx
      ensures was == old(lock_idx) && lock_idx == if was == comparand then v else was
    {
      was := lock_idx;
      if was == comparand { lock_idx := v; }
    }

    method TakeOver(t: nat)
      requires t < |threads|
      modifies this`threads
      ensures threads == Acquired(old(Snapshot()), t).threads
    {
      if kind.Normal? { Return(t, threads[t].depth + 1, OK); } else { Goto(t, SetCount); }
    }

    method Lock(t: nat)
      requires Inv(Snapshot()) && t < |threads| && LockPc(threads[t].pc)
      modifies this
      ensures Snapshot() == LockStep(old(Snapshot()), t) && Inv(Snapshot())
    {
      hide Inv;
      LockKeepsInv(Snapshot(), t);
      match threads[t].pc
      case LockFirst(timed) => LockFirstOperation(t, timed);
      case LockOwner(timed) =>
        if ownerThread == Some(t) {
          if kind.Recursive? {
            recursive_count := recursive_count + 1;
            Return(t, threads[t].depth + 1, OK);
          } else {
            Return(t, threads[t].depth, EDEADLK);
          }
        } else {
          Goto(t, LockLoop(timed));
        }
      case LockLoop(timed) =>
        var was := InterlockedExchange(-1);
        if was == 0 { TakeOver(t); } else { Goto(t, LockWait(timed)); }
      case LockWait(timed) =>
        if event {
          event := false;
          Goto(t, LockLoop(timed));
        }
      case SetCount =>
        recursive_count := 1;
        Goto(t, SetOwner);
      case SetOwner =>
        ownerThread := Some(t);
        Return(t, threads[t].depth + 1, OK);
    }

    method LockFirstOperation(t: nat, timed: bool)
      requires t < |threads| && threads[t].pc == LockFirst(timed)
      modifies this
      ensures Snapshot() == LockStep(old(Snapshot()), t)
    {
      if kind.Normal? {
        var was := InterlockedExchange(1);
        if was == 0 { TakeOver(t); } else { Goto(t, LockLoop(timed)); }
      } else {
        var was := InterlockedCompareExchange(1, 0);
        if was == 0 { TakeOver(t); } else { Goto(t, LockOwner(timed)); }
      }
    }

    method TryLock(t: nat)
      requires Inv(Snapshot()) && t < |threads| && TryPc(threads[t].pc)
      modifies this
      ensures Snapshot() == TryStep(old(Snapshot()), t) && Inv(Snapshot())
    {
      hide Inv;
      TryKeepsInv(Snapshot(), t);
      match threads[t].pc
      case TryFirst =>
        var was := InterlockedCompareExchange(1, 0);
        if was == 0 { TakeOver(t); }
        else if kind.Recursive? { Goto(t, TryOwner); }
        else { Return(t, threads[t].depth, EBUSY); }
      case TryOwner =>
        if ownerThread == Some(t) {
          recursive_count := recursive_count + 1;
          Return(t, threads[t].depth + 1, OK);
        } else {
          Return(t, threads[t].depth, EBUSY);
        }
    }

    method Unlock(t: nat)
      requires Inv(Snapshot()) && t < |threads| && !LockPc(threads[t].pc) && !TryPc(threads[t].pc)
      modifies this
      ensures Snapshot() == UnlockStep(old(Snapshot()), t) && Inv(Snapshot())
    {
      hide Inv;
      StepKeepsInv(Snapshot(), t, Go);
      match threads[t].pc
      case UnlockOwner =>
        if ownerThread != Some(t) { Return(t, threads[t].depth, EPERM); }
        else { Goto(t, if kind.Recursive? then UnlockCount else ClearOwner); }
      case UnlockCount =>
        recursive_count := recursive_count - 1;
        if recursive_count == 0 { Goto(t, ClearOwner); }
        else { Return(t, threads[t].depth - 1, OK); }
      case ClearOwner =>
        ownerThread := None;
        Goto(t, UnlockWord);
      case UnlockWord => GiveBack(t);
      case Signal =>
        event := true;
        Return(t, threads[t].depth, OK);
      case _ =>
    }

    method GiveBack(t: nat)
      requires t < |threads| && threads[t].pc.UnlockWord?
      modifies this
      ensures Snapshot() == UnlockStep(old(Snapshot()), t)
    {
      var was := InterlockedExchange(0);
      var depth := threads[t].depth - 1;
      if was < 0 { threads := threads[t := Thread(Signal, depth, threads[t].last)]; }
      else if was == 0 && kind.Normal? { Return(t, depth, EPERM); }
      else { Return(t, depth, OK); }
    }

    // ---- whole calls, with the other threads' steps in between ----

    method Advance(t: nat, m: Move)
      requires Inv(Snapshot())
      modifies this
      ensures Snapshot() == Step(old(Snapshot()), t, m) && Inv(Snapshot())
    {
      hide Inv, LockStep, TryStep, UnlockStep;
      StepKeepsInv(Snapshot(), t, m);
      if t < |threads| {
        var th := threads[t];
        match m
        case Go => if LockPc(th.pc) { Lock(t); } else if TryPc(th.pc) { TryLock(t); } else { Unlock(t); }
        case Interrupt => if th.pc == LockWait(true) { Return(t, th.depth, ETIMEDOUT); }
        case CallLock(timed) => if th.pc.Idle? { Goto(t, LockFirst(timed)); }
        case CallTryLock => if th.pc.Idle? { Goto(t, TryFirst); }
        case CallUnlock =>
          if th.pc.Idle? {
            if !kind.Normal? { Goto(t, UnlockOwner); }
            else if th.depth > 0 { Goto(t, UnlockWord); }
          }
      }
    }

    /** What the other threads do between two operations of thread t. */
    method Others(t: nat, turns: seq<seq<(nat, Move)>>) returns (later: seq<seq<(nat, Move)>>)
      requires Inv(Snapshot()) && t < |threads|
      modifies this
      ensures Inv(Snapshot()) && |threads| == old(|threads|) && threads[t] == old(threads[t])
      ensures later == if turns == [] then [] else turns[1..]
      ensures Snapshot() == if turns == [] then old(Snapshot()) else OthersRun(old(Snapshot()), t, turns[0])
    {
      hide Inv, Step;
      later := [];
      if turns != [] {
        for i := 0 to |turns[0]|
          invariant Inv(Snapshot()) && |threads| == old(|threads|) && threads[t] == old(threads[t])
          invariant Snapshot() == OthersRun(old(Snapshot()), t, turns[0][..i])
        {
          assert turns[0][..i + 1][..i] == turns[0][..i];
          var (u, m) := turns[0][i];
          if u != t {
            OthersLeave(Snapshot(), u, m, t);
            Advance(u, m);
          }
        }
        assert turns[0][..|turns[0]|] == turns[0];
        later := turns[1..];
      }
    }

    /** One operation of thread t. */
    method Operate(t: nat, m: Move)
      requires Inv(Snapshot()) && t < |threads|
      modifies this
      ensures Snapshot() == Step(old(Snapshot()), t, m) && Inv(Snapshot()) && |threads| == old(|threads|)
    {
      hide Inv, Step;
      OwnStep(Snapshot(), t, m);
      Advance(t, m);
    }

    /** An exchange that gets the mutex exactly if nobody has it. */
    method Exchange(t: nat) returns (was: int, ghost found: State)
      requires Inv(Snapshot()) && t < |threads|
      requires threads[t].pc.LockFirst? || threads[t].pc.LockLoop? || threads[t].pc.TryFirst?
      modifies this
      ensures found == old(Snapshot()) && was == old(lock_idx) && Inv(found)
      ensures Snapshot() == Step(found, t, Go) && Inv(Snapshot()) && |threads| == old(|threads|)
      ensures was != 0 <==> Held(found)
      ensures was == 0 <==> Gets(found, Snapshot(), t)
    {
      hide Inv, Step, Held;
      found := Snapshot();
      HeldIffWord(found);
      GetsIffFree(found, t);
      was := lock_idx;
      Operate(t, Go);
    }

    /** The loop of pthread_mutex_lock around the exchange of -1. A timed call gives up
        when the other threads' turns run out; an untimed one is then not `done`. In both
        cases the thread waits for the event, after the last exchange, in the state
        `found`, has found the mutex held. */
    method ContendCall(t: nat, timed: bool, turns: seq<seq<(nat, Move)>>)
      returns (done: bool, later: seq<seq<(nat, Move)>>, ghost found: State, ghost left: State)
      requires Inv(Snapshot()) && t < |threads| && threads[t].pc == LockLoop(timed)
      modifies this
      ensures Inv(Snapshot()) && |threads| == old(|threads|)
      ensures
        if !done then later == [] && !timed && left == Snapshot() && InVain(found, left, t)
        else
          || (kind.Normal? && threads[t] == Thread(Idle, old(threads[t].depth) + 1, OK))
          || (!kind.Normal? && threads[t] == old(threads[t]).(pc := SetCount))
          || (timed && threads[t] == Thread(Idle, old(threads[t].depth), ETIMEDOUT)
              && later == [] && InVain(found, left, t))
    {
      hide Inv, Sum, TryStep, UnlockStep, Held, InVain;
      later := turns;
      var was;
      was, found := Exchange(t);
      left := found;
      while was != 0
        invariant Inv(Snapshot()) && |threads| == old(|threads|)
        invariant was != 0 ==> threads[t] == old(threads[t]).(pc := LockWait(timed)) && Inv(found) && Held(found)
        invariant was == 0 ==>
          threads[t] == if kind.Normal? then Thread(Idle, old(threads[t].depth) + 1, OK)
                        else old(threads[t]).(pc := SetCount)
        decreases was != 0, |later|, event
      {
        if event {
          Operate(t, Go);
          was, found := Exchange(t);
        } else if later != [] {
          later := Others(t, later);
        } else {
          left := Snapshot();
          WaitedInVain(found, left, t);
          if timed { Operate(t, Interrupt); }
          return timed, later, found, left;
        }
      }
      done := true;
    }

    /** The new holder of a recursive or error-checking mutex fills in count and owner. */
    method FillIn(t: nat, turns: seq<seq<(nat, Move)>>) returns (later: seq<seq<(nat, Move)>>)
      requires Inv(Snapshot()) && t < |threads| && threads[t].pc.SetCount?
      modifies this
      ensures Inv(Snapshot()) && |threads| == old(|threads|)
      ensures threads[t] == Thread(Idle, old(threads[t].depth) + 1, OK)
    {
      hide Inv, Sum;
      later := Others(t, turns);
      Operate(t, Go);
      later := Others(t, later);
      Operate(t, Go);
    }

    /** The part of pthread_mutex_lock for normal mutexes. */
    method LockNormal(t: nat, timed: bool, turns: seq<seq<(nat, Move)>>)
      returns (done: bool, later: seq<seq<(nat, Move)>>, ghost found: State, ghost left: State)
      requires Inv(Snapshot()) && t < |threads| && threads[t].pc == LockFirst(timed) && kind.Normal?
      modifies this
      ensures Inv(Snapshot()) && |threads| == old(|threads|)
      ensures !done ==> later == [] && !timed && left == Snapshot() && InVain(found, left, t)
      ensures done ==>
        || threads[t] == Thread(Idle, old(threads[t].depth) + 1, OK)
        || (timed && threads[t] == Thread(Idle, old(threads[t].depth), ETIMEDOUT)
            && later == [] && InVain(found, left, t))
      ensures old(!Held(Snapshot())) ==> done && threads[t].last == OK
    {
      hide Inv, Sum, LockStep, TryStep, UnlockStep, Held, InVain;
      done, later := true, turns;
      if Held(Snapshot()) { FirstExchange(Snapshot(), t); }
      var was;
      was, found := Exchange(t);
      left := found;
      if was != 0 {
        later := Others(t, later);
        done, later, found, left := ContendCall(t, timed, later);
      }
    }

    /** The part for the kinds that know their owner. */
    method LockOwned(t: nat, timed: bool, turns: seq<seq<(nat, Move)>>)
      returns (done: bool, later: seq<seq<(nat, Move)>>, ghost found: State, ghost left: State)
      requires Inv(Snapshot()) && t < |threads| && threads[t].pc == LockFirst(timed) && !kind.Normal?
      modifies this
      ensures Inv(Snapshot()) && |threads| == old(|threads|)
      ensures !done ==> later == [] && !timed && left == Snapshot() && InVain(found, left, t)
      ensures done ==>
        || threads[t] == Thread(Idle, old(threads[t].depth) + 1, OK)
        || (timed && threads[t] == Thread(Idle, old(threads[t].depth), ETIMEDOUT)
            && later == [] && InVain(found, left, t))
        || (kind.Errorcheck? && old(threads[t].depth) > 0 && threads[t] == Thread(Idle, old(threads[t].depth), EDEADLK))
      ensures old(!Held(Snapshot())) ==> done && threads[t].last == OK
    {
      hide Inv, Sum, LockStep, TryStep, UnlockStep, Held, InVain;
      done, later := true, turns;
      if Held(Snapshot()) { FirstExchange(Snapshot(), t); }
      var was;
      was, found := Exchange(t);
      left := found;
      if was != 0 {
        later := Others(t, later);
        var mine := CheckRelock(t, timed);
        if !mine {
          later := Others(t, later);
          done, later, found, left := ContendCall(t, timed, later);
        }
      }
      if done && threads[t].pc.SetCount? { later := FillIn(t, later); }
    }

    /** The comparison of the owner with the caller. */
    method CheckRelock(t: nat, timed: bool) returns (mine: bool)
      requires Inv(Snapshot()) && t < |threads| && threads[t].pc == LockOwner(timed) && !kind.Normal?
      modifies this
      ensures Inv(Snapshot()) && |threads| == old(|threads|)
      ensures mine <==> old(threads[t].depth) > 0
      ensures !mine ==> threads[t] == old(threads[t]).(pc := LockLoop(timed))
      ensures mine ==>
        threads[t] == if kind.Recursive? then Thread(Idle, old(threads[t].depth) + 1, OK)
                      else Thread(Idle, old(threads[t].depth), EDEADLK)
    {
      hide Inv, Sum, TryStep, UnlockStep;
      OwnerIsHolder(Snapshot(), t);
      mine := ownerThread == Some(t);
      Operate(t, Go);
    }

    /** pthread_mutex_lock and pthread_mutex_timedlock as a whole. When they return 0, the
        caller has the mutex once more and nobody else has it. They wait, or time out, only
        because the mutex was held in the state `found`, and then wait for the event in the
        state `left`. */
    method LockCall(t: nat, timed: bool, turns: seq<seq<(nat, Move)>>)
      returns (done: bool, result: Result, later: seq<seq<(nat, Move)>>, ghost found: State, ghost left: State)
      requires Inv(Snapshot()) && t < |threads| && threads[t].pc.Idle?
      modifies this
      ensures Inv(Snapshot()) && |threads| == old(|threads|)
      ensures !done ==> later == [] && !timed && left == Snapshot() && InVain(found, left, t)
      ensures done && result == ETIMEDOUT ==> later == [] && timed && InVain(found, left, t)
      ensures done ==>
        threads[t] == Thread(Idle, old(threads[t].depth) + (if result == OK then 1 else 0), result)
      ensures done && result == OK ==>
        Excludes(Snapshot(), t) && (!kind.Recursive? ==> old(threads[t].depth) == 0)
      ensures done && result != ETIMEDOUT ==>
        result == if kind.Errorcheck? && old(threads[t].depth) > 0 then EDEADLK else OK
      ensures turns == [] && old(!Held(Snapshot())) ==> done && result == OK
    {
      hide Inv, Sum, LockStep, TryStep, UnlockStep, Held, InVain;
      DepthFits(Snapshot(), t);
      CallKeepsHeld(Snapshot(), t, CallLock(timed));
      Operate(t, CallLock(timed));
      later := Others(t, turns);
      if kind.Normal? { done, later, found, left := LockNormal(t, timed, later); }
      else { done, later, found, left := LockOwned(t, timed, later); }
      result := threads[t].last;
      DepthFits(Snapshot(), t);
      if done && result == OK { HolderExcludes(Snapshot(), t); }
    }

    /** pthread_mutex_trylock as a whole. It gives up only because in the state `seen`
        somebody else had the mutex, or the caller a mutex that it cannot lock again. */
    method TryLockCall(t: nat, turns: seq<seq<(nat, Move)>>)
      returns (result: Result, later: seq<seq<(nat, Move)>>, ghost seen: State)
      requires Inv(Snapshot()) && t < |threads| && threads[t].pc.Idle?
      modifies this
      ensures Inv(Snapshot()) && |threads| == old(|threads|)
      ensures threads[t] == Thread(Idle, old(threads[t].depth) + (if result == OK then 1 else 0), result)
      ensures result == OK || (result == EBUSY && Busy(seen, t))
      ensures result == OK ==> Excludes(Snapshot(), t)
      ensures old(threads[t].depth) > 0 ==> (result == OK <==> kind.Recursive?)
      ensures turns == [] && old(!Held(Snapshot())) ==> result == OK
    {
      hide Inv, Sum, LockStep, TryStep, UnlockStep, Held, Busy;
      DepthFits(Snapshot(), t);
      CallKeepsHeld(Snapshot(), t, CallTryLock);
      Operate(t, CallTryLock);
      later := Others(t, turns);
      later, seen := TryOwned(t, later);
      result := threads[t].last;
      DepthFits(Snapshot(), t);
      if result == OK { HolderExcludes(Snapshot(), t); }
    }

    method TryOwned(t: nat, turns: seq<seq<(nat, Move)>>) returns (later: seq<seq<(nat, Move)>>, ghost seen: State)
      requires Inv(Snapshot()) && t < |threads| && threads[t].pc.TryFirst?
      modifies this
      ensures Inv(Snapshot()) && |threads| == old(|threads|)
      ensures
        || (threads[t] == Thread(Idle, old(threads[t].depth) + 1, OK) && (old(threads[t].depth) > 0 ==> kind.Recursive?))
        || (threads[t] == Thread(Idle, old(threads[t].depth), EBUSY)
            && (old(threads[t].depth) > 0 ==> !kind.Recursive?) && Busy(seen, t))
      ensures old(!Held(Snapshot())) ==> threads[t].last == OK
    {
      hide Inv, Sum, LockStep, TryStep, UnlockStep, Held;
      later := turns;
      TakenIfHeld(Snapshot(), t);
      GetsIffFree(Snapshot(), t);
      DepthFits(Snapshot(), t);
      var was;
      was, seen := Exchange(t);
      if was != 0 && kind.Recursive? {
        later := Others(t, later);
        CheckOwned(t);
      }
      if threads[t].pc.SetCount? { later := FillIn(t, later); }
    }

    /** The comparison of the owner with the caller. */
    method CheckOwned(t: nat)
      requires Inv(Snapshot()) && t < |threads| && threads[t].pc.TryOwner? && kind.Recursive?
      modifies this
      ensures Inv(Snapshot()) && |threads| == old(|threads|)
      ensures threads[t] == if old(threads[t].depth) > 0 then Thread(Idle, old(threads[t].depth) + 1, OK)
                            else Thread(Idle, old(threads[t].depth), EBUSY)
    {
      hide Inv, Sum, LockStep, UnlockStep;
      DepthFits(Snapshot(), t);
      OwnerIsHolder(Snapshot(), t);
      Operate(t, Go);
    }

    /** pthread_mutex_unlock as a whole, for a normal mutex by its holder only. */
    method UnlockCall(t: nat, turns: seq<seq<(nat, Move)>>) returns (result: Result, later: seq<seq<(nat, Move)>>)
      requires Inv(Snapshot()) && t < |threads| && threads[t].pc.Idle?
      requires kind.Normal? ==> threads[t].depth > 0
      modifies this
      ensures Inv(Snapshot()) && |threads| == old(|threads|)
      ensures result == if old(threads[t].depth) > 0 then OK else EPERM
      ensures threads[t] == Thread(Idle, old(threads[t].depth) - (if result == OK then 1 else 0), result)
    {
      hide Inv, Sum, LockStep, TryStep, UnlockStep;
      DepthFits(Snapshot(), t);
      Operate(t, CallUnlock);
      later := Others(t, turns);
      if !kind.Normal? { later := CheckOwner(t, later); }
      if threads[t].pc.UnlockWord? { later := PutBack(t, later); }
      result := threads[t].last;
    }

    /** The part of pthread_mutex_unlock that looks at owner and count. */
    method CheckOwner(t: nat, turns: seq<seq<(nat, Move)>>) returns (later: seq<seq<(nat, Move)>>)
      requires Inv(Snapshot()) && t < |threads| && threads[t].pc.UnlockOwner? && !kind.Normal?
      modifies this
      ensures Inv(Snapshot()) && |threads| == old(|threads|)
      ensures
        if old(threads[t].depth) == 0 then threads[t] == Thread(Idle, 0, EPERM)
        else if old(threads[t].depth) > 1 then threads[t] == Thread(Idle, old(threads[t].depth) - 1, OK)
        else threads[t] == old(threads[t]).(pc := UnlockWord)
    {
      hide Inv, Sum, LockStep, TryStep;
      later := turns;
      DepthFits(Snapshot(), t);
      OwnerIsHolder(Snapshot(), t);
      Operate(t, Go);
      if threads[t].pc.UnlockCount? {
        later := Others(t, later);
        CountIsDepth(Snapshot(), t);
        Operate(t, Go);
      }
      if threads[t].pc.ClearOwner? {
        later := Others(t, later);
        Operate(t, Go);
      }
    }

    /** The exchange of 0, and the event if somebody may be waiting. */
    method PutBack(t: nat, turns: seq<seq<(nat, Move)>>) returns (later: seq<seq<(nat, Move)>>)
      requires Inv(Snapshot()) && t < |threads| && threads[t].pc.UnlockWord?
      modifies this
      ensures Inv(Snapshot()) && |threads| == old(|threads|)
      ensures threads[t] == Thread(Idle, old(threads[t].depth) - 1, OK)
    {
      hide Inv, Sum, LockStep, TryStep;
      later := turns;
      UnlockFrees(Snapshot(), t);
      Operate(t, Go);
      if threads[t].pc.Signal? {
        later := Others(t, later);
        Operate(t, Go);
      }
    }
  }
}
