/** The barrier: the last thread to arrive parks its lock node in the barrier, and the
    last thread to leave releases that node. The lock itself is taken here at the level
    that McsLock proves it to have: one owner, handed over by acquire, release, transfer. */
module Barrier {
  import opened Counting

  datatype Pc =
    | Idle
    | Acquire
    | Load
    | Store(loaded: int)
    | Transfer
    | Post
    | Release
    | SemWait
    | Increment
    | ReleaseProxy

  /** Whose queue node owns the lock: nobody's, one thread's own, or the barrier's. */
  datatype Owner = Free | Node(t: nat) | Proxy

  datatype Event = Arrive(t: nat) | Return(t: nat, serial: bool)

  /** `initial` is nInitialBarrierHeight. `trace` and `round` are history: the arrivals
      and returns so far, and the number of rounds completed. */
  datatype State = State(initial: int, height: int, sem: int, lock: Owner, threads: seq<Pc>,
                         trace: seq<Event>, round: nat)

  datatype Move = Go | Call

  function Init(initial: nat, n: nat): State {
    State(initial, initial, 0, Free, seq(n, i => Idle), [], 0)
  }

  function Goto(s: State, t: nat, pc: Pc): State
    requires t < |s.threads|
  {
    s.(threads := s.threads[t := pc])
  }

  function Step(s: State, t: nat, m: Move): State {
    if t >= |s.threads| then s
    else if s.threads[t].Idle? then if m.Call? then Goto(s, t, Acquire) else s
    else if m.Go? then WaitStep(s, t)
    else s
  }

  /** One operation of pthread_barrier_wait. */
  function WaitStep(s: State, t: nat): State
    requires t < |s.threads|
  {
    match s.threads[t]
    case Idle => s
    case Acquire => if s.lock.Free? then Goto(s, t, Load).(lock := Node(t)) else s
    case Load => Goto(s, t, Store(s.height))
    case Store(loaded) =>
      Goto(s, t, if loaded - 1 == 0 then Transfer else Release)
        .(height := loaded - 1, trace := s.trace + [Arrive(t)])
    case Transfer => Goto(s, t, Post).(lock := Proxy)
    case Post => Goto(s, t, Increment).(sem := if s.initial > 1 then s.sem + s.initial - 1 else s.sem)
    case Release => Goto(s, t, SemWait).(lock := Free)
    case SemWait => if s.sem > 0 then Goto(s, t, Increment).(sem := s.sem - 1) else s
    case Increment =>
      if s.height + 1 == s.initial then
        Goto(s, t, ReleaseProxy).(height := s.height + 1)
      else
        Goto(s, t, Idle).(height := s.height + 1, trace := s.trace + [Return(t, false)])
    case ReleaseProxy =>
      Goto(s, t, Idle).(lock := Free, trace := s.trace + [Return(t, true)], round := s.round + 1)
  }

  function Run(s: State, schedule: seq<(nat, Move)>): State
    decreases |schedule|
  {
    if schedule == [] then s else Run(Step(s, schedule[0].0, schedule[0].1), schedule[1..])
  }

  // ---- the shape of a round ----

  datatype Kind = Arrives | Leaves | LeavesLast

  function KindOf(e: Event): Kind {
    match e
    case Arrive(_) => Arrives
    case Return(_, serial) => if serial then LeavesLast else Leaves
  }

  function Kinds(trace: seq<Event>): (r: seq<Kind>)
    ensures |r| == |trace|
  {
    seq(|trace|, i requires 0 <= i < |trace| => KindOf(trace[i]))
  }

  /** All arrivals, then all returns, the last of which alone is the serial one. */
  function FullRound(n: nat): (r: seq<Kind>)
    requires n > 0
    ensures |r| == 2 * n
  {
    seq(n, i => Arrives) + seq(n - 1, i => Leaves) + [LeavesLast]
  }

  function Times<T>(k: nat, s: seq<T>): seq<T> {
    if k == 0 then [] else Times(k - 1, s) + s
  }

  /** The trace consists of `round` full rounds and the first `k` events of the next. */
  ghost predicate Shape(s: State, k: nat)
    requires s.initial > 0
  {
    k < 2 * s.initial && Kinds(s.trace) == Times(s.round, FullRound(s.initial)) + FullRound(s.initial)[..k]
  }

  // ---- invariant ----

  /** The thread has decremented the height and still has to wait on the semaphore. */
  function MustWait(pc: Pc): nat { B2N(pc.Release? || pc.SemWait?) }

  function Leaving(pc: Pc): nat { B2N(pc.Increment?) }

  function Posting(pc: Pc): nat { B2N(pc.Post?) }

  function Closing(pc: Pc): nat { B2N(pc.ReleaseProxy?) }

  function HoldsNode(pc: Pc): nat { B2N(pc.Load? || pc.Store? || pc.Transfer? || pc.Release?) }

  function Transferring(pc: Pc): nat { B2N(pc.Transfer?) }

  /** k events of the current round have happened; the lock is not parked. */
  ghost predicate Filling(s: State, k: nat) {
    && s.sem == 0
    && Sum(s.threads, Leaving) == Sum(s.threads, Posting) == Sum(s.threads, Closing) == 0
    && s.height == s.initial - k
    && Sum(s.threads, MustWait) + Sum(s.threads, Transferring) == k
    && (k == s.initial <==> Sum(s.threads, Transferring) == 1)
    && k <= s.initial
  }

  ghost predicate Draining(s: State, k: nat) {
    var left, waiting := k - s.initial, Sum(s.threads, MustWait);
    var posting, leaving, closing := Sum(s.threads, Posting), Sum(s.threads, Leaving), Sum(s.threads, Closing);
    && 0 <= left
    && s.height == left + closing
    && waiting + posting + leaving + closing + left == s.initial
    && posting <= 1 && closing <= 1
    && (posting == 1 ==> waiting == s.initial - 1 && s.sem == 0)
    && (posting == 0 ==> s.sem == waiting)
    && (closing == 1 <==> left + closing == s.initial)
  }

  ghost predicate Inv(s: State, k: nat) {
    && s.initial > 0
    && Shape(s, k)
    && Locals(s)
    && (if s.lock.Proxy? then Draining(s, k) else Filling(s, k))
  }

  ghost predicate Locals(s: State) {
    && Sum(s.threads, HoldsNode) == B2N(s.lock.Node?)
    && (s.lock.Node? ==> s.lock.t < |s.threads| && HoldsNode(s.threads[s.lock.t]) == 1)
    && forall i :: 0 <= i < |s.threads| ==> s.threads[i].Store? ==> s.threads[i].loaded == s.height
  }

  // ---- every step keeps the invariant ----

  lemma Moved(s: seq<Pc>, t: nat, pc: Pc)
    requires t < |s|
    ensures Sum(s[t := pc], MustWait) + MustWait(s[t]) == Sum(s, MustWait) + MustWait(pc)
    ensures Sum(s[t := pc], Leaving) + Leaving(s[t]) == Sum(s, Leaving) + Leaving(pc)
    ensures Sum(s[t := pc], Posting) + Posting(s[t]) == Sum(s, Posting) + Posting(pc)
    ensures Sum(s[t := pc], Closing) + Closing(s[t]) == Sum(s, Closing) + Closing(pc)
    ensures Sum(s[t := pc], HoldsNode) + HoldsNode(s[t]) == Sum(s, HoldsNode) + HoldsNode(pc)
    ensures Sum(s[t := pc], Transferring) + Transferring(s[t]) == Sum(s, Transferring) + Transferring(pc)
    ensures MustWait(s[t]) <= Sum(s, MustWait) && Leaving(s[t]) <= Sum(s, Leaving)
    ensures Posting(s[t]) <= Sum(s, Posting) && Closing(s[t]) <= Sum(s, Closing)
  {
    SumUpdate(s, t, pc, MustWait);
    SumUpdate(s, t, pc, Leaving);
    SumUpdate(s, t, pc, Posting);
    SumUpdate(s, t, pc, Closing);
    SumUpdate(s, t, pc, HoldsNode);
    SumUpdate(s, t, pc, Transferring);
    SumBounds(s, t, MustWait);
    SumBounds(s, t, Leaving);
    SumBounds(s, t, Posting);
    SumBounds(s, t, Closing);
  }

  /** The thread that holds the lock through its own node is the only one. */
  lemma Alone(s: State, t: nat)
    requires Locals(s) && t < |s.threads| && HoldsNode(s.threads[t]) == 1
    ensures s.lock == Node(t)
    ensures forall i :: 0 <= i < |s.threads| && i != t ==> HoldsNode(s.threads[i]) == 0
    ensures Sum(s.threads, Transferring) == Transferring(s.threads[t])
  {
    SumBounds(s.threads, t, HoldsNode);
    SumExclusive(s.threads, t, HoldsNode);
    SumUpdate(s.threads, t, Idle, Transferring);
    SumAllZero(s.threads[t := Idle], Transferring);
  }

  lemma NoHolder(s: State)
    requires Locals(s) && !s.lock.Node?
    ensures forall i :: 0 <= i < |s.threads| ==> HoldsNode(s.threads[i]) == 0
    ensures Sum(s.threads, Transferring) == 0
  {
    SumZero(s.threads, HoldsNode);
    SumAllZero(s.threads, Transferring);
  }

  /** Appending the next event of the round keeps the shape. */
  lemma ShapeGrows(s: State, s': State, k: nat, e: Event)
    requires s.initial > 0 && Shape(s, k) && k + 1 < 2 * s.initial
    requires s'.initial == s.initial && s'.round == s.round && s'.trace == s.trace + [e]
    requires KindOf(e) == FullRound(s.initial)[k]
    ensures Shape(s', k + 1)
  {
    var full := FullRound(s.initial);
    assert full[..k + 1] == full[..k] + [full[k]];
    assert Kinds(s'.trace) == Kinds(s.trace) + [KindOf(e)];
  }

  lemma ShapeCloses(s: State, s': State, e: Event)
    requires s.initial > 0 && Shape(s, 2 * s.initial - 1)
    requires s'.initial == s.initial && s'.round == s.round + 1 && s'.trace == s.trace + [e]
    requires KindOf(e) == LeavesLast
    ensures Shape(s', 0)
  {
    var full := FullRound(s.initial);
    assert full == full[..2 * s.initial - 1] + [LeavesLast];
    assert Kinds(s'.trace) == Kinds(s.trace) + [LeavesLast];
    assert full[..0] == [];
  }

  lemma SameTrace(s: State, s': State, k: nat)
    requires s.initial > 0 && Shape(s, k)
    requires s'.initial == s.initial && s'.round == s.round && s'.trace == s.trace
    ensures Shape(s', k)
  {
  }

  lemma InitInv(initial: nat, n: nat)
    requires initial > 0
    ensures Inv(Init(initial, n), 0)
  {
    var th := Init(initial, n).threads;
    SumAllZero(th, MustWait);
    SumAllZero(th, Leaving);
    SumAllZero(th, Posting);
    SumAllZero(th, Closing);
    SumAllZero(th, HoldsNode);
    SumAllZero(th, Transferring);
    assert FullRound(initial)[..0] == [];
  }

  lemma LockKeepsInv(s: State, k: nat, t: nat)
    requires Inv(s, k) && t < |s.threads|
    requires s.threads[t].Acquire? || s.threads[t].Load? || s.threads[t].Release?
    ensures Inv(WaitStep(s, t), k)
  {
    hide Sum;
    var s' := WaitStep(s, t);
    Moved(s.threads, t, s'.threads[t]);
    if HoldsNode(s.threads[t]) == 1 { Alone(s, t); }
    SameTrace(s, s', k);
    hide Shape;
  }

  lemma ArriveKeepsInv(s: State, k: nat, t: nat)
    requires Inv(s, k) && t < |s.threads| && s.threads[t].Store?
    ensures Inv(WaitStep(s, t), k + 1)
  {
    hide Sum;
    var s' := WaitStep(s, t);
    Moved(s.threads, t, s'.threads[t]);
    if HoldsNode(s.threads[t]) == 1 { Alone(s, t); }
    ShapeGrows(s, s', k, Arrive(t));
    hide Shape;
  }

  lemma TransferKeepsInv(s: State, k: nat, t: nat)
    requires Inv(s, k) && t < |s.threads| && (s.threads[t].Transfer? || s.threads[t].Post?)
    ensures Inv(WaitStep(s, t), k)
  {
    hide Sum;
    var s' := WaitStep(s, t);
    Moved(s.threads, t, s'.threads[t]);
    if HoldsNode(s.threads[t]) == 1 { Alone(s, t); }
    SameTrace(s, s', k);
    hide Shape;
  }

  lemma WakeKeepsInv(s: State, k: nat, t: nat)
    requires Inv(s, k) && t < |s.threads| && s.threads[t].SemWait?
    ensures Inv(WaitStep(s, t), k)
  {
    hide Sum;
    var s' := WaitStep(s, t);
    Moved(s.threads, t, s'.threads[t]);
    if HoldsNode(s.threads[t]) == 1 { Alone(s, t); }
    SameTrace(s, s', k);
    hide Shape;
  }

  /** The event counter of the current round after an increment of the height. */
  function AfterIncrement(s: State, k: nat): nat { if s.height + 1 == s.initial then k else k + 1 }

  lemma IncrementKeepsInv(s: State, k: nat, t: nat)
    requires Inv(s, k) && t < |s.threads| && s.threads[t].Increment?
    ensures Inv(WaitStep(s, t), AfterIncrement(s, k))
  {
    hide Sum;
    var s' := WaitStep(s, t);
    Moved(s.threads, t, s'.threads[t]);
    NoHolder(s);
    if s.height + 1 == s.initial {
      SameTrace(s, s', k);
    } else {
      ShapeGrows(s, s', k, Return(t, false));
    }
    hide Shape;
  }

  lemma CloseKeepsInv(s: State, k: nat, t: nat)
    requires Inv(s, k) && t < |s.threads| && s.threads[t].ReleaseProxy?
    ensures Inv(WaitStep(s, t), 0)
  {
    hide Sum;
    var s' := WaitStep(s, t);
    Moved(s.threads, t, s'.threads[t]);
    NoHolder(s);
    ShapeCloses(s, s', Return(t, true));
    hide Shape;
  }

  lemma StepKeepsInv(s: State, k: nat, t: nat, m: Move) returns (k': nat)
    requires Inv(s, k)
    ensures Inv(Step(s, t, m), k')
  {
    k' := k;
    if t < |s.threads| {
      if s.threads[t].Idle? {
        if m.Call? { CallKeepsInv(s, k, t); }
      } else if m.Go? {
        hide Inv;
        match s.threads[t]
        case Acquire => LockKeepsInv(s, k, t);
        case Load => LockKeepsInv(s, k, t);
        case Store(_) => ArriveKeepsInv(s, k, t); k' := k + 1;
        case Transfer => TransferKeepsInv(s, k, t);
        case Post => TransferKeepsInv(s, k, t);
        case Release => LockKeepsInv(s, k, t);
        case SemWait => WakeKeepsInv(s, k, t);
        case Increment => IncrementKeepsInv(s, k, t); k' := AfterIncrement(s, k);
        case ReleaseProxy => CloseKeepsInv(s, k, t); k' := 0;
      }
    }
  }

  lemma CallKeepsInv(s: State, k: nat, t: nat)
    requires Inv(s, k) && t < |s.threads| && s.threads[t].Idle?
    ensures Inv(Goto(s, t, Acquire), k)
  {
    hide Sum;
    var s' := Goto(s, t, Acquire);
    Moved(s.threads, t, Acquire);
    SameTrace(s, s', k);
    hide Shape;
  }

  lemma {:induction false} RunKeepsInv(s: State, k: nat, schedule: seq<(nat, Move)>) returns (k': nat)
    requires Inv(s, k)
    ensures Inv(Run(s, schedule), k')
    decreases |schedule|
  {
    k' := k;
    if schedule != [] {
      k' := StepKeepsInv(s, k, schedule[0].0, schedule[0].1);
      k' := RunKeepsInv(Step(s, schedule[0].0, schedule[0].1), k', schedule[1..]);
    }
  }

  lemma {:induction false} RunKeepsInitial(s: State, schedule: seq<(nat, Move)>)
    ensures Run(s, schedule).initial == s.initial
    decreases |schedule|
  {
    if schedule != [] { RunKeepsInitial(Step(s, schedule[0].0, schedule[0].1), schedule[1..]); }
  }

  // ---- main results, over every run of any number of threads ----

  /** Everything anybody can observe of a barrier is a sequence of full rounds: `initial`
      arrivals, then as many returns, exactly the last of which is the serial one. */
  lemma TraceIsRounds(initial: nat, n: nat, schedule: seq<(nat, Move)>) returns (k: nat)
    requires initial > 0
    ensures k < 2 * initial
    ensures var s := Run(Init(initial, n), schedule);
      Kinds(s.trace) == Times(s.round, FullRound(initial)) + FullRound(initial)[..k]
  {
    InitInv(initial, n);
    k := RunKeepsInv(Init(initial, n), 0, schedule);
    RunKeepsInitial(Init(initial, n), schedule);
  }

  function IsArrival(e: Kind): nat { B2N(e.Arrives?) }

  function IsReturn(e: Kind): nat { B2N(!e.Arrives?) }

  function IsSerial(e: Kind): nat { B2N(e.LeavesLast?) }

  lemma {:induction false} SumTimes<T>(k: nat, s: seq<T>, w: T -> nat)
    ensures Sum(Times(k, s), w) == k * Sum(s, w)
  {
    if k > 0 {
      SumTimes(k - 1, s, w);
      SumConcat(Times(k - 1, s), s, w);
    }
  }

  function Min(a: int, b: int): int { if a < b then a else b }

  lemma {:induction false} CountsInRound(n: nat, k: nat)
    requires n > 0 && k <= 2 * n
    ensures Sum(FullRound(n)[..k], IsArrival) == Min(k, n)
    ensures Sum(FullRound(n)[..k], IsReturn) == k - Min(k, n)
    ensures Sum(FullRound(n)[..k], IsSerial) == if k == 2 * n then 1 else 0
  {
    if k > 0 {
      CountsInRound(n, k - 1);
      var full := FullRound(n);
      assert full[..k] == full[..k - 1] + [full[k - 1]];
      SumConcat(full[..k - 1], [full[k - 1]], IsArrival);
      SumConcat(full[..k - 1], [full[k - 1]], IsReturn);
      SumConcat(full[..k - 1], [full[k - 1]], IsSerial);
    }
  }

  /** Rounds never overlap. If anybody has returned from round m (rounds count from 0),
      all arrivals of rounds 0 to m have happened; if anybody has arrived in round m, all
      returns of the rounds before have happened; and every completed round has had
      exactly one serial thread. */
  lemma RoundsDoNotOverlap(initial: nat, n: nat, schedule: seq<(nat, Move)>, m: nat)
    requires initial > 0
    ensures var kinds := Kinds(Run(Init(initial, n), schedule).trace);
      && (Sum(kinds, IsReturn) > m * initial ==> Sum(kinds, IsArrival) >= (m + 1) * initial)
      && (Sum(kinds, IsArrival) > m * initial ==> Sum(kinds, IsReturn) >= m * initial)
      && (Sum(kinds, IsReturn) >= m * initial <==> Sum(kinds, IsSerial) >= m)
  {
    var k := TraceIsRounds(initial, n, schedule);
    var s := Run(Init(initial, n), schedule);
    var full := FullRound(initial);
    CountsInRound(initial, k);
    CountsInRound(initial, 2 * initial);
    assert full[..2 * initial] == full;
    CountTrace(s.round, full, k, IsArrival);
    CountTrace(s.round, full, k, IsReturn);
    CountTrace(s.round, full, k, IsSerial);
    MulOrder(s.round, m, initial);
  }

  lemma CountTrace(q: nat, full: seq<Kind>, k: nat, w: Kind -> nat)
    requires k <= |full|
    ensures Sum(Times(q, full) + full[..k], w) == q * Sum(full, w) + Sum(full[..k], w)
  {
    SumConcat(Times(q, full), full[..k], w);
    SumTimes(q, full, w);
  }

  lemma MulOrder(q: nat, m: nat, n: nat)
    ensures q <= m ==> q * n <= m * n
    ensures q >= m + 1 ==> q * n >= (m + 1) * n
    ensures q < m ==> (q + 1) * n <= m * n
    ensures (m + 1) * n == m * n + n && (q + 1) * n == q * n + n
  {
    if q < m { assert (q + 1) * n <= m * n; }
  }

  /** Between rounds, that is when as many have returned as have arrived and the parked
      lock is released, height and semaphore have their initial values again. */
  lemma BetweenRoundsReset(initial: nat, n: nat, schedule: seq<(nat, Move)>)
    requires initial > 0
    ensures var s := Run(Init(initial, n), schedule);
      Sum(Kinds(s.trace), IsReturn) == Sum(Kinds(s.trace), IsArrival) ==>
        !s.lock.Proxy? && s.height == initial && s.sem == 0
  {
    var s := Run(Init(initial, n), schedule);
    InitInv(initial, n);
    var k := RunKeepsInv(Init(initial, n), 0, schedule);
    RunKeepsInitial(Init(initial, n), schedule);
    var full := FullRound(initial);
    CountsInRound(initial, k);
    CountsInRound(initial, 2 * initial);
    assert full[..2 * initial] == full;
    CountTrace(s.round, full, k, IsArrival);
    CountTrace(s.round, full, k, IsReturn);
  }

  /** A thread is between its arrival and its return. */
  predicate Inside(pc: Pc) {
    pc.Transfer? || pc.Post? || pc.Release? || pc.SemWait? || pc.Increment? || pc.ReleaseProxy?
  }

  /** +1 for each arrival of thread t and -1 for each return. */
  function Balance(trace: seq<Event>, t: nat): int {
    if trace == [] then 0
    else
      var e := trace[|trace| - 1];
      Balance(trace[..|trace| - 1], t) + (if e.t != t then 0 else if e.Arrive? then 1 else -1)
  }

  ghost predicate Balanced(s: State) {
    forall i :: 0 <= i < |s.threads| ==> Balance(s.trace, i) == B2N(Inside(s.threads[i]))
  }

  lemma StepKeepsBalance(s: State, t: nat, m: Move)
    requires Balanced(s)
    ensures Balanced(Step(s, t, m))
  {
    var s' := Step(s, t, m);
    if s'.trace != s.trace { assert s'.trace[..|s'.trace| - 1] == s.trace; }
  }

  lemma {:induction false} RunKeepsBalance(s: State, schedule: seq<(nat, Move)>)
    requires Balanced(s)
    ensures Balanced(Run(s, schedule)) && |Run(s, schedule).threads| == |s.threads|
    decreases |schedule|
  {
    if schedule != [] {
      StepKeepsBalance(s, schedule[0].0, schedule[0].1);
      RunKeepsBalance(Step(s, schedule[0].0, schedule[0].1), schedule[1..]);
    }
  }

  /** Each thread's own events alternate: it returns only after it has arrived, and arrives
      again only after it has returned. */
  lemma ArrivalsAndReturnsAlternate(initial: nat, n: nat, schedule: seq<(nat, Move)>, t: nat)
    requires t < n
    ensures t < |Run(Init(initial, n), schedule).threads|
    ensures var s := Run(Init(initial, n), schedule); Balance(s.trace, t) == B2N(Inside(s.threads[t]))
  {
    RunKeepsBalance(Init(initial, n), schedule);
  }

  // ---- the threads of a round ----

  /** Where round m begins in the trace. */
  function StartOf(s: State, m: nat): nat { if s.initial > 0 then m * (2 * s.initial) else 0 }

  /** At the beginning of every round nobody is inside, and nobody ever is twice. */
  ghost predicate RoundsClosed(s: State) {
    && (forall e :: e in s.trace ==> e.t < |s.threads|)
    && StartsEmpty(s)
    && PrefixesBalanced(s.trace, |s.threads|)
  }

  ghost predicate StartsEmpty(s: State) {
    forall m, i :: 0 <= m <= s.round && StartOf(s, m) <= |s.trace| && 0 <= i < |s.threads| ==>
      Balance(s.trace[..StartOf(s, m)], i) == 0
  }

  ghost predicate PrefixesBalanced(trace: seq<Event>, n: nat) {
    forall j, i :: 0 <= j <= |trace| && 0 <= i < n ==> 0 <= Balance(trace[..j], i) <= 1
  }

  lemma StartsGrow(s: State, m: nat, n: nat)
    requires s.initial > 0
    ensures StartOf(s, m + 1) == StartOf(s, m) + 2 * s.initial
    ensures m < n ==> StartOf(s, m + 1) <= StartOf(s, n)
  {
    if m < n { Multiples(m + 1, n, 2 * s.initial); }
    Multiples(m, m + 1, 2 * s.initial);
  }

  lemma Multiples(m: nat, n: nat, c: nat)
    requires m <= n
    ensures m * c <= n * c && (m + 1) * c == m * c + c
  {
    assert (n - m) * c >= 0;
  }

  lemma {:induction false} TimesLength<T>(k: nat, s: seq<T>)
    ensures |Times(k, s)| == k * |s|
  {
    if k > 0 { TimesLength(k - 1, s); }
  }

  lemma TraceLength(s: State, k: nat)
    requires s.initial > 0 && Shape(s, k)
    ensures |s.trace| == StartOf(s, s.round) + k
  {
    TimesLength(s.round, FullRound(s.initial));
  }

  /** The last thread to leave leaves nobody inside. */
  lemma ClosingEmpties(s: State, k: nat, t: nat)
    requires Inv(s, k) && t < |s.threads| && s.threads[t].ReleaseProxy?
    ensures forall i :: 0 <= i < |s.threads| && i != t ==> !Inside(s.threads[i])
    ensures k == 2 * s.initial - 1
  {
    hide Shape;
    SumBounds(s.threads, t, Closing);
    NoHolder(s);
    SumExclusive(s.threads, t, Closing);
    SumZero(s.threads, MustWait);
    SumZero(s.threads, Posting);
    SumZero(s.threads, Leaving);
    SumZero(s.threads, HoldsNode);
    forall i | 0 <= i < |s.threads| && i != t ensures !Inside(s.threads[i]) {
      assert MustWait(s.threads[i]) == 0 && HoldsNode(s.threads[i]) == 0;
    }
  }

  lemma StepGrowsTrace(s: State, t: nat, m: Move)
    ensures var s' := Step(s, t, m);
      && s'.initial == s.initial && |s'.threads| == |s.threads|
      && (s'.trace == s.trace || (exists e :: s'.trace == s.trace + [e] && e.t == t < |s.threads|))
      && (s'.round == s.round || (s'.round == s.round + 1 && t < |s.threads| && s.threads[t].ReleaseProxy?))
  {
  }

  lemma StepKeepsClosed(s: State, k: nat, t: nat, m: Move)
    requires Inv(s, k) && Balanced(s) && RoundsClosed(s)
    ensures RoundsClosed(Step(s, t, m))
  {
    var s' := Step(s, t, m);
    StepKeepsBalance(s, t, m);
    StepGrowsTrace(s, t, m);
    TraceLength(s, k);
    if s'.round != s.round { RoundCloses(s, k, t, m); }
    hide Inv, Shape, Step, StartOf, Balance, StartsEmpty, PrefixesBalanced;
    PrefixesStayBalanced(s.trace, s'.trace, |s.threads|);
    StartsStayEmpty(s, s');
  }

  predicate Extends(trace: seq<Event>, trace': seq<Event>) {
    trace' == trace || (|trace'| == |trace| + 1 && trace'[..|trace|] == trace)
  }

  lemma PrefixesStayBalanced(trace: seq<Event>, trace': seq<Event>, n: nat)
    requires Extends(trace, trace') && PrefixesBalanced(trace, n)
    requires forall i :: 0 <= i < n ==> 0 <= Balance(trace', i) <= 1
    ensures PrefixesBalanced(trace', n)
  {
    hide Balance;
    forall j, i | 0 <= j <= |trace'| && 0 <= i < n ensures 0 <= Balance(trace'[..j], i) <= 1 {
      if j <= |trace| { assert trace'[..j] == trace[..j]; } else { assert trace'[..j] == trace'; }
    }
  }

  lemma StartsStayEmpty(s: State, s': State)
    requires StartsEmpty(s) && s.initial > 0 && s'.initial == s.initial && |s'.threads| == |s.threads|
    requires Extends(s.trace, s'.trace) && StartOf(s, s.round) <= |s.trace|
    requires s'.round != s.round ==>
      && s'.round == s.round + 1 && StartOf(s', s'.round) == |s'.trace|
      && forall i :: 0 <= i < |s'.threads| ==> Balance(s'.trace, i) == 0
    ensures StartsEmpty(s')
  {
    hide StartOf, Balance;
    forall r, i | 0 <= r <= s'.round && StartOf(s', r) <= |s'.trace| && 0 <= i < |s'.threads|
      ensures Balance(s'.trace[..StartOf(s', r)], i) == 0
    {
      SameStarts(s, s', r);
      if r <= s.round {
        StartsGrow(s, r, s.round);
        assert s'.trace[..StartOf(s, r)] == s.trace[..StartOf(s, r)];
      } else {
        assert s'.trace[..|s'.trace|] == s'.trace;
      }
    }
  }

  lemma SameStarts(s: State, s': State, r: nat)
    requires s'.initial == s.initial
    ensures StartOf(s', r) == StartOf(s, r)
  {
  }

  /** The step that ends a round: the trace then ends where the next round begins. */
  lemma RoundCloses(s: State, k: nat, t: nat, m: Move)
    requires Inv(s, k) && Balanced(s) && Balanced(Step(s, t, m)) && Step(s, t, m).round != s.round
    ensures var s' := Step(s, t, m);
      && StartOf(s', s'.round) == |s'.trace|
      && forall i :: 0 <= i < |s'.threads| ==> Balance(s'.trace, i) == 0
  {
    ClosingEmpties(s, k, t);
    TraceLength(s, k);
    StartsGrow(s, s.round, s.round + 1);
  }

  lemma {:induction false} RunKeepsClosed(s: State, k: nat, schedule: seq<(nat, Move)>)
    requires Inv(s, k) && Balanced(s) && RoundsClosed(s)
    ensures RoundsClosed(Run(s, schedule))
    decreases |schedule|
  {
    if schedule != [] {
      var k' := StepKeepsInv(s, k, schedule[0].0, schedule[0].1);
      StepKeepsBalance(s, schedule[0].0, schedule[0].1);
      StepKeepsClosed(s, k, schedule[0].0, schedule[0].1);
      RunKeepsClosed(Step(s, schedule[0].0, schedule[0].1), k', schedule[1..]);
    }
  }

  lemma {:induction false} BalanceConcat(a: seq<Event>, b: seq<Event>, t: nat)
    ensures Balance(a + b, t) == Balance(a, t) + Balance(b, t)
    decreases |b|
  {
    if b == [] {
      assert a + b == a;
    } else {
      assert (a + b)[..|a + b| - 1] == a + b[..|b| - 1];
      BalanceConcat(a, b[..|b| - 1], t);
    }
  }

  predicate AllArrive(events: seq<Event>) { forall e :: e in events ==> e.Arrive? }

  predicate AllReturn(events: seq<Event>) { forall e :: e in events ==> e.Return? }

  function Who(events: seq<Event>): set<nat> { set e | e in events :: e.t }

  lemma {:induction false} ArrivalsCount(events: seq<Event>, t: nat)
    requires AllArrive(events)
    ensures Balance(events, t) >= 0 && (Balance(events, t) > 0 <==> t in Who(events))
    ensures forall i, j :: 0 <= i < j < |events| && events[i].t == t && events[j].t == t ==> Balance(events, t) >= 2
  {
    if events != [] {
      var init := events[..|events| - 1];
      ArrivalsCount(init, t);
      assert events == init + [events[|events| - 1]];
      forall i, j | 0 <= i < j < |events| && events[i].t == t && events[j].t == t ensures Balance(events, t) >= 2 {
        if j == |events| - 1 { assert init[i] in init && init[i].t in Who(init); }
      }
    }
  }

  lemma {:induction false} ReturnsCount(events: seq<Event>, t: nat)
    requires AllReturn(events)
    ensures Balance(events, t) <= 0 && (Balance(events, t) < 0 <==> t in Who(events))
  {
    if events != [] {
      var init, last := events[..|events| - 1], events[|events| - 1];
      ReturnsCount(init, t);
      assert events == init + [last] && last in events && last.Return?;
    }
  }

  /** An element of a repeated sequence. */
  lemma {:induction false} TimesAt<T>(k: nat, s: seq<T>, m: nat, j: nat)
    requires m < k && j < |s|
    ensures m * |s| + j < |Times(k, s)| && Times(k, s)[m * |s| + j] == s[j]
  {
    TimesLength(k, s);
    TimesLength(k - 1, s);
    assert k * |s| == (k - 1) * |s| + |s|;
    if m == k - 1 {
    } else {
      TimesAt(k - 1, s, m, j);
    }
  }

  /** The events of round m, those that have happened. */
  function RoundEvents(s: State, m: nat): seq<Event>
    requires StartOf(s, m) <= |s.trace|
  {
    s.trace[StartOf(s, m)..Min(StartOf(s, m + 1), |s.trace|)]
  }

  lemma RoundsInTrace(s: State, k: nat, m: nat)
    requires s.initial > 0 && Shape(s, k) && m <= s.round
    ensures StartOf(s, m) <= |s.trace| && |RoundEvents(s, m)| == if m < s.round then 2 * s.initial else k
    ensures forall j :: 0 <= j < |RoundEvents(s, m)| ==> KindOf(RoundEvents(s, m)[j]) == FullRound(s.initial)[j]
  {
    TraceLength(s, k);
    StartsGrow(s, m, s.round);
    StartsGrow(s, s.round, s.round + 1);
    var full := FullRound(s.initial);
    TimesLength(s.round, full);
    forall j | 0 <= j < |RoundEvents(s, m)| ensures KindOf(RoundEvents(s, m)[j]) == full[j] {
      var p := StartOf(s, m) + j;
      assert RoundEvents(s, m)[j] == s.trace[p] && Kinds(s.trace)[p] == KindOf(s.trace[p]);
      if m < s.round { TimesAt(s.round, full, m, j); }
    }
  }

  lemma RoundSplits(s: State, k: nat, m: nat)
    requires s.initial > 0 && Shape(s, k) && m <= s.round
    ensures StartOf(s, m) <= |s.trace|
    ensures var r := RoundEvents(s, m); var a := Min(s.initial, |r|);
      AllArrive(r[..a]) && AllReturn(r[a..]) && (m < s.round ==> |r| == 2 * s.initial)
  {
    RoundsInTrace(s, k, m);
    var r := RoundEvents(s, m);
    var a := Min(s.initial, |r|);
    forall e | e in r[..a] ensures e.Arrive? {
      var j :| 0 <= j < a && r[j] == e;
      assert KindOf(r[j]) == Arrives;
    }
    forall e | e in r[a..] ensures e.Return? {
      var j :| a <= j < |r| && r[j] == e;
      assert KindOf(r[j]) != Arrives;
    }
  }

  /** Round by round, the threads that leave are those that have arrived: in a completed
      round `initial` different threads arrive and the same ones return, and whoever has
      returned from the current round has arrived in it. */
  lemma LeaversAreArrivers(initial: nat, n: nat, schedule: seq<(nat, Move)>, m: nat)
    requires initial > 0
    ensures var s := Run(Init(initial, n), schedule);
      s.initial == initial &&
      (m <= s.round ==>
        && StartOf(s, m) <= |s.trace|
        && var r := RoundEvents(s, m); var a := Min(initial, |r|);
          && AllArrive(r[..a]) && AllReturn(r[a..])
          && (forall i, j :: 0 <= i < j < a ==> r[i].t != r[j].t)
          && Who(r[a..]) <= Who(r[..a])
          && (m < s.round ==> a == initial && |r| == 2 * initial && Who(r[a..]) == Who(r[..a])))
  {
    InitInv(initial, n);
    var k := RunKeepsInv(Init(initial, n), 0, schedule);
    RunKeepsInitial(Init(initial, n), schedule);
    RunKeepsClosed(Init(initial, n), 0, schedule);
    var s := Run(Init(initial, n), schedule);
    if m <= s.round {
      RoundSplits(s, k, m);
      RoundsInTrace(s, k, m);
      TraceLength(s, k);
      StartsGrow(s, m, s.round);
      hide Inv, Shape, Run;
      SameThreads(s, m);
    }
  }

  lemma SameThreads(s: State, m: nat)
    requires s.initial > 0 && RoundsClosed(s) && m <= s.round && StartOf(s, m) <= |s.trace|
    requires m < s.round ==> StartOf(s, m + 1) <= |s.trace|
    requires var r := RoundEvents(s, m); AllArrive(r[..Min(s.initial, |r|)]) && AllReturn(r[Min(s.initial, |r|)..])
    ensures var r := RoundEvents(s, m); var a := Min(s.initial, |r|);
      && (forall i, j :: 0 <= i < j < a ==> r[i].t != r[j].t)
      && Who(r[a..]) <= Who(r[..a])
      && (m < s.round ==> Who(r[a..]) == Who(r[..a]))
  {
    var r := RoundEvents(s, m);
    var a := Min(s.initial, |r|);
    forall t: nat | t in Who(r[..a]) || t in Who(r[a..])
      ensures Balance(r[..a], t) <= 1 && (t in Who(r[a..]) ==> t in Who(r[..a]))
      ensures m < s.round ==> (t in Who(r[..a]) <==> t in Who(r[a..]))
    {
      ThreadInRound(s, m, t);
    }
    forall i, j | 0 <= i < j < a ensures r[i].t != r[j].t {
      assert r[..a][i] in r[..a] && r[..a][i].t in Who(r[..a]);
      ArrivalsCount(r[..a], r[i].t);
      assert r[..a][i].t == r[i].t && r[..a][j].t == r[j].t;
    }
  }

  /** One thread in one round. */
  lemma ThreadInRound(s: State, m: nat, t: nat)
    requires s.initial > 0 && RoundsClosed(s) && m <= s.round && StartOf(s, m) <= |s.trace|
    requires m < s.round ==> StartOf(s, m + 1) <= |s.trace|
    requires var r := RoundEvents(s, m); AllArrive(r[..Min(s.initial, |r|)]) && AllReturn(r[Min(s.initial, |r|)..])
    requires var r := RoundEvents(s, m); t in Who(r[..Min(s.initial, |r|)]) || t in Who(r[Min(s.initial, |r|)..])
    ensures var r := RoundEvents(s, m); var a := Min(s.initial, |r|);
      && Balance(r[..a], t) <= 1 && (t in Who(r[a..]) ==> t in Who(r[..a]))
      && (m < s.round ==> (t in Who(r[..a]) <==> t in Who(r[a..])))
  {
    hide Balance, AllArrive, AllReturn, Who;
    var r := RoundEvents(s, m);
    var a := Min(s.initial, |r|);
    IsThread(s, r, a, t);
    BalancesOfRound(s, m, a, t);
    BalanceConcat(r[..a], r[a..], t);
    ArrivalsCount(r[..a], t);
    ReturnsCount(r[a..], t);
    assert r[..a] + r[a..] == r;
  }

  lemma IsThread(s: State, r: seq<Event>, a: nat, t: nat)
    requires a <= |r| && (t in Who(r[..a]) || t in Who(r[a..]))
    requires RoundsClosed(s) && forall e :: e in r ==> e in s.trace
    ensures t < |s.threads|
  {
    var e :| e in r && e.t == t;
  }

  /** A thread's balance over the first a events of a round, and over all of it. */
  lemma BalancesOfRound(s: State, m: nat, a: nat, t: nat)
    requires s.initial > 0 && RoundsClosed(s) && m <= s.round && StartOf(s, m) <= |s.trace| && t < |s.threads|
    requires m < s.round ==> StartOf(s, m + 1) <= |s.trace|
    requires a <= |RoundEvents(s, m)|
    ensures var r := RoundEvents(s, m);
      0 <= Balance(r[..a], t) <= 1 && 0 <= Balance(r, t) && (m < s.round ==> Balance(r, t) == 0)
  {
    hide Balance;
    StartsGrow(s, m, m + 1);
    var r, p := RoundEvents(s, m), StartOf(s, m);
    var before := s.trace[..p];
    assert s.trace[..p + a] == before + r[..a] && s.trace[..p + |r|] == before + r;
    BalanceConcat(before, r[..a], t);
    BalanceConcat(before, r, t);
    assert Balance(before, t) == 0;
    assert 0 <= Balance(s.trace[..p + a], t) <= 1 && 0 <= Balance(s.trace[..p + |r|], t);
    if m < s.round { assert Balance(s.trace[..StartOf(s, m + 1)], t) == 0; }
  }

  predicate CanGo(s: State, t: nat) { t < |s.threads| && Step(s, t, Go) != s }

  predicate Blocked(s: State, pc: Pc) {
    pc.Idle? || (pc.Acquire? && !s.lock.Free?) || (pc.SemWait? && s.sem <= 0)
  }

  lemma UnblockedCanGo(s: State, t: nat)
    requires t < |s.threads| && !Blocked(s, s.threads[t])
    ensures CanGo(s, t)
  {
    assert WaitStep(s, t).threads[t] != s.threads[t];
  }

  /** If no thread can go on, the barrier is idle or simply has not seen enough threads:
      nobody holds the lock and all that have come in wait for the missing ones. */
  lemma StuckOnlyIfTooFew(s: State, k: nat)
    requires Inv(s, k)
    requires forall u :: 0 <= u < |s.threads| ==> !CanGo(s, u)
    ensures s.lock.Free? && k < s.initial && Sum(s.threads, MustWait) == k
    ensures forall u :: 0 <= u < |s.threads| ==> s.threads[u].Idle? || s.threads[u].SemWait?
  {
    hide CanGo, Sum, Shape;
    forall u | 0 <= u < |s.threads| ensures Blocked(s, s.threads[u]) {
      if !Blocked(s, s.threads[u]) { UnblockedCanGo(s, u); }
    }
    SumAllZero(s.threads, Posting);
    SumAllZero(s.threads, Leaving);
    SumAllZero(s.threads, Closing);
    SumAllZero(s.threads, Transferring);
    if s.lock.Proxy? {
      NoHolder(s);
      if Sum(s.threads, MustWait) > 0 {
        var u := SumWitness(s.threads, MustWait);
      }
    }
  }

  // ---- whole calls ----

  /** A step of another thread. */
  lemma OthersLeave(s: State, u: nat, m: Move, t: nat)
    requires t < |s.threads| && u != t
    ensures |Step(s, u, m).threads| == |s.threads| && Step(s, u, m).threads[t] == s.threads[t]
    ensures Step(s, u, m).initial == s.initial
  {
  }

  lemma OwnStep(s: State, t: nat, m: Move)
    ensures |Step(s, t, m).threads| == |s.threads| && Step(s, t, m).initial == s.initial
  {
  }

  /** A program point at which pthread_barrier_wait never waits, and where it goes on. */
  predicate Plain(pc: Pc) { pc.Load? || pc.Store? || pc.Transfer? || pc.Post? || pc.Release? }

  predicate Follows(pc: Pc, next: Pc) {
    match pc
    case Load => next.Store?
    case Store(_) => next.Transfer? || next.Release?
    case Transfer => next.Post?
    case Post => next.Increment?
    case Release => next.SemWait?
    case _ => false
  }

  /** The thread waits for the lock while somebody, or a parked node, has it, or for a token
      of its round. */
  ghost predicate Stays(s: State, k: nat, t: nat) {
    && Inv(s, k) && t < |s.threads|
    && ((s.threads[t].Acquire? && !s.lock.Free?) || (s.threads[t].SemWait? && s.sem == 0))
  }

  /** The others' steps of one turn, in their order. */
  function OthersRun(s: State, t: nat, turn: seq<(nat, Move)>): State {
    if turn == [] then s
    else
      var s', (u, m) := OthersRun(s, t, turn[..|turn| - 1]), turn[|turn| - 1];
      if u == t then s' else Step(s', u, m)
  }

  lemma TokensAreNotNegative(s: State, k: nat)
    requires Inv(s, k)
    ensures s.sem >= 0
  {
  }

  /** m rounds have their arrivals, and the last of them has had a return. */
  ghost predicate RoundIsFull(s: State, m: nat) {
    && s.initial > 0
    && Sum(Kinds(s.trace), IsArrival) == m * s.initial
    && (m - 1) * s.initial < Sum(Kinds(s.trace), IsReturn) <= m * s.initial
  }

  lemma CountRounds(n: nat, q: nat, k: nat)
    requires n > 0 && k < 2 * n
    ensures var kinds := Times(q, FullRound(n)) + FullRound(n)[..k];
      Sum(kinds, IsArrival) == q * n + Min(k, n) && Sum(kinds, IsReturn) == q * n + k - Min(k, n)
  {
    var full := FullRound(n);
    CountsInRound(n, k);
    CountsInRound(n, 2 * n);
    assert full[..2 * n] == full;
    CountTrace(q, full, k, IsArrival);
    CountTrace(q, full, k, IsReturn);
  }

  lemma AfterReturn(s: State, k: nat) returns (m: nat)
    requires Inv(s, k) && s.trace != [] && s.trace[|s.trace| - 1].Return?
    ensures RoundIsFull(s, m)
  {
    hide Sum, Locals, Draining, Filling, FullRound;
    CountRounds(s.initial, s.round, k);
    LastOfRound(s.initial, s.round, k, Kinds(s.trace));
    m := if k > 0 then s.round + 1 else s.round;
    MulOrder(m - 1, m, s.initial);
  }

  lemma LastOfRound(n: nat, q: nat, k: nat, kinds: seq<Kind>)
    requires n > 0 && k < 2 * n && kinds == Times(q, FullRound(n)) + FullRound(n)[..k]
    requires kinds != [] && !kinds[|kinds| - 1].Arrives?
    ensures k == 0 || k > n
    ensures k == 0 ==> q > 0
  {
    if k > 0 { assert kinds[|kinds| - 1] == FullRound(n)[k - 1]; }
  }

  /** The barrier in the C program's own form; `Wait` is one atomic step of
      pthread_barrier_wait by thread t, and `WaitCall` the whole call. */
  class BarrierObject {
    const nInitialBarrierHeight: int
    var nCurrentBarrierHeight: int
    var semBarrierBreeched: int
    var lock: Owner
    var threads: seq<Pc>
    ghost var trace: seq<Event>
    ghost var round: nat

    ghost function Snapshot(): State
      reads this
    {
      State(nInitialBarrierHeight, nCurrentBarrierHeight, semBarrierBreeched, lock, threads, trace, round)
    }

    constructor (count: nat, n: nat)
      requires count > 0
      ensures Snapshot() == Init(count, n) && Inv(Snapshot(), 0)
    {
      nInitialBarrierHeight, nCurrentBarrierHeight := count, count;
      semBarrierBreeched, lock := 0, Free;
      threads := seq(n, i => Idle);
      trace, round := [], 0;
      new;
      InitInv(count, n);
    }

    method Wait(t: nat, ghost k: nat) returns (ghost k': nat)
      requires Inv(Snapshot(), k) && t < |threads| && !threads[t].Idle?
      modifies this
      ensures Snapshot() == WaitStep(old(Snapshot()), t) && Inv(Snapshot(), k')
    {
      hide Inv;
      k' := StepKeepsInv(Snapshot(), k, t, Go);
      match threads[t]
      case Acquire =>
        if lock.Free? {
          lock := Node(t);
          threads := threads[t := Load];
        }
      case Load => threads := threads[t := Store(nCurrentBarrierHeight)];
      case Store(loaded) =>
        nCurrentBarrierHeight := loaded - 1;
        threads := threads[t := if nCurrentBarrierHeight == 0 then Transfer else Release];
        trace := trace + [Arrive(t)];
      case Transfer =>
        lock := Proxy;
        threads := threads[t := Post];
      case Post =>
        if nInitialBarrierHeight > 1 {
          semBarrierBreeched := semBarrierBreeched + nInitialBarrierHeight - 1;
        }
        threads := threads[t := Increment];
      case Release =>
        lock := Free;
        threads := threads[t := SemWait];
      case SemWait =>
        if semBarrierBreeched > 0 {
          semBarrierBreeched := semBarrierBreeched - 1;
          threads := threads[t := Increment];
        }
      case Increment =>
        nCurrentBarrierHeight := nCurrentBarrierHeight + 1;
        if nCurrentBarrierHeight == nInitialBarrierHeight {
          threads := threads[t := ReleaseProxy];
        } else {
          threads := threads[t := Idle];
          trace := trace + [Return(t, false)];
        }
      case ReleaseProxy =>
        lock := Free;
        threads := threads[t := Idle];
        trace, round := trace + [Return(t, true)], round + 1;
    }

    // ---- the whole call, with the other threads' steps in between ----

    method Advance(t: nat, m: Move, ghost k: nat) returns (ghost k': nat)
      requires Inv(Snapshot(), k)
      modifies this
      ensures Snapshot() == Step(old(Snapshot()), t, m) && Inv(Snapshot(), k')
    {
      hide Inv, WaitStep;
      k' := k;
      if t < |threads| {
        if !threads[t].Idle? {
          if m.Go? { k' := Wait(t, k); }
        } else if m.Call? {
          k' := StepKeepsInv(Snapshot(), k, t, m);
          threads := threads[t := Acquire];
        }
      }
    }

    /** What the other threads do between two operations of thread t. */
    method Others(t: nat, turns: seq<seq<(nat, Move)>>, ghost k: nat)
      returns (later: seq<seq<(nat, Move)>>, ghost k': nat)
      requires Inv(Snapshot(), k) && t < |threads|
      modifies this
      ensures Inv(Snapshot(), k') && |threads| == old(|threads|) && threads[t] == old(threads[t])
      ensures later == if turns == [] then [] else turns[1..]
      ensures Snapshot() == if turns == [] then old(Snapshot()) else OthersRun(old(Snapshot()), t, turns[0])
    {
      hide Inv, Step;
      later, k' := [], k;
      if turns != [] {
        for i := 0 to |turns[0]|
          invariant Inv(Snapshot(), k') && |threads| == old(|threads|) && threads[t] == old(threads[t])
          invariant Snapshot() == OthersRun(old(Snapshot()), t, turns[0][..i])
        {
          assert turns[0][..i + 1][..i] == turns[0][..i];
          var (u, m) := turns[0][i];
          if u != t {
            OthersLeave(Snapshot(), u, m, t);
            k' := Advance(u, m, k');
          }
        }
        assert turns[0][..|turns[0]|] == turns[0];
        later := turns[1..];
      }
    }

    /** An operation at which the call does not wait. */
    method GoOn(t: nat, ghost k: nat) returns (ghost k': nat)
      requires Inv(Snapshot(), k) && t < |threads| && Plain(threads[t])
      modifies this
      ensures Inv(Snapshot(), k') && |threads| == old(|threads|) && Follows(old(threads[t]), threads[t])
    {
      hide Inv;
      OwnStep(Snapshot(), t, Go);
      k' := Wait(t, k);
    }

    /** Waiting for the lock, or for the semaphore. */
    method Block(t: nat, turns: seq<seq<(nat, Move)>>, ghost k: nat)
      returns (done: bool, later: seq<seq<(nat, Move)>>, ghost k': nat)
      requires Inv(Snapshot(), k) && t < |threads| && (threads[t].Acquire? || threads[t].SemWait?)
      modifies this
      ensures Inv(Snapshot(), k') && |threads| == old(|threads|)
      ensures if done then threads[t] == (if old(threads[t]).Acquire? then Load else Increment)
              else later == [] && Stays(Snapshot(), k', t)
    {
      hide Inv;
      later, k' := turns, k;
      while !(if threads[t].Acquire? then lock.Free? else semBarrierBreeched > 0) && later != []
        invariant Inv(Snapshot(), k') && |threads| == old(|threads|) && threads[t] == old(threads[t])
        decreases |later|
      {
        later, k' := Others(t, later, k');
      }
      done := if threads[t].Acquire? then lock.Free? else semBarrierBreeched > 0;
      TokensAreNotNegative(Snapshot(), k');
      if done {
        OwnStep(Snapshot(), t, Go);
        k' := Wait(t, k');
      }
    }

    /** The increment, and the end of the round by the thread that finds it complete. */
    method Cross(t: nat, turns: seq<seq<(nat, Move)>>, ghost k: nat)
      returns (serial: bool, later: seq<seq<(nat, Move)>>, ghost k': nat)
      requires Inv(Snapshot(), k) && t < |threads| && threads[t].Increment?
      modifies this
      ensures Inv(Snapshot(), k') && |threads| == old(|threads|) && threads[t].Idle?
      ensures trace != [] && trace[|trace| - 1] == Return(t, serial)
    {
      hide Inv;
      later := turns;
      OwnStep(Snapshot(), t, Go);
      k' := Wait(t, k);
      serial := threads[t].ReleaseProxy?;
      if serial {
        later, k' := Others(t, later, k');
        OwnStep(Snapshot(), t, Go);
        k' := Wait(t, k');
      }
    }

    /** pthread_barrier_wait as a whole. It returns only when all threads of its round have
        arrived; `serial` tells whether it returns PTHREAD_BARRIER_SERIAL_THREAD. It is not
        `done` only if it waits, when the other threads' turns have run out, for a lock that
        is taken or a token that is not there. */
    method WaitCall(t: nat, turns: seq<seq<(nat, Move)>>, ghost k: nat)
      returns (done: bool, serial: bool, later: seq<seq<(nat, Move)>>, ghost k': nat, ghost m: nat)
      requires Inv(Snapshot(), k) && t < |threads| && threads[t].Idle?
      modifies this
      ensures Inv(Snapshot(), k') && |threads| == old(|threads|)
      ensures done ==>
        && threads[t].Idle? && trace != [] && trace[|trace| - 1] == Return(t, serial)
        && RoundIsFull(Snapshot(), m)
      ensures !done ==> later == [] && Stays(Snapshot(), k', t)
    {
      hide Inv, Snapshot, Stays;
      serial, m := false, 0;
      k' := Begin(t, k);
      later, k' := Others(t, turns, k');
      done, later, k' := Block(t, later, k');
      if done {
        later, k' := Others(t, later, k');
        later, k' := CountDown(t, later, k');
        later, k' := Others(t, later, k');
        if threads[t].Transfer? { later, k' := ReleaseOthers(t, later, k'); }
        else { done, later, k' := Park(t, later, k'); }
      }
      if done {
        later, k' := Others(t, later, k');
        serial, later, k' := Cross(t, later, k');
        m := AllArrived(k');
      }
    }

    /** The decrement under the lock. */
    method CountDown(t: nat, turns: seq<seq<(nat, Move)>>, ghost k: nat)
      returns (later: seq<seq<(nat, Move)>>, ghost k': nat)
      requires Inv(Snapshot(), k) && t < |threads| && threads[t].Load?
      modifies this
      ensures Inv(Snapshot(), k') && |threads| == old(|threads|) && (threads[t].Transfer? || threads[t].Release?)
    {
      hide Inv, Snapshot;
      k' := GoOn(t, k);
      later, k' := Others(t, turns, k');
      k' := GoOn(t, k');
    }

    /** The last to arrive parks its node and posts for the others. */
    method ReleaseOthers(t: nat, turns: seq<seq<(nat, Move)>>, ghost k: nat)
      returns (later: seq<seq<(nat, Move)>>, ghost k': nat)
      requires Inv(Snapshot(), k) && t < |threads| && threads[t].Transfer?
      modifies this
      ensures Inv(Snapshot(), k') && |threads| == old(|threads|) && threads[t].Increment?
    {
      hide Inv, Snapshot;
      k' := GoOn(t, k);
      later, k' := Others(t, turns, k');
      k' := GoOn(t, k');
    }

    /** The others release the lock and wait for the post. */
    method Park(t: nat, turns: seq<seq<(nat, Move)>>, ghost k: nat)
      returns (done: bool, later: seq<seq<(nat, Move)>>, ghost k': nat)
      requires Inv(Snapshot(), k) && t < |threads| && threads[t].Release?
      modifies this
      ensures Inv(Snapshot(), k') && |threads| == old(|threads|)
      ensures if done then threads[t].Increment? else later == [] && Stays(Snapshot(), k', t)
    {
      hide Inv, Snapshot, Stays;
      k' := GoOn(t, k);
      later, k' := Others(t, turns, k');
      done, later, k' := Block(t, later, k');
    }

    method Begin(t: nat, ghost k: nat) returns (ghost k': nat)
      requires Inv(Snapshot(), k) && t < |threads| && threads[t].Idle?
      modifies this
      ensures Inv(Snapshot(), k') && |threads| == old(|threads|) && threads[t] == Acquire
    {
      hide Inv;
      k' := Advance(t, Call, k);
    }

    ghost method AllArrived(k: nat) returns (m: nat)
      requires Inv(Snapshot(), k) && trace != [] && trace[|trace| - 1].Return?
      ensures RoundIsFull(Snapshot(), m)
    {
      m := AfterReturn(Snapshot(), k);
    }
  }
}
