/** The MCS queue lock: a tail pointer, a queue of nodes linked by their owners, and a
    flag handshake (0, -1 or an event handle) for "my successor has linked itself" and
    "the lock is yours". Each step is one interlocked or event operation. A node is
    operated by one thread at a time, so a step is taken on behalf of a node. */
module McsLock {

  datatype Ptr = Null | To(n: nat)

  datatype Flag = Zero | MinusOne | Handle(e: nat)

  datatype Event = Unset | Set | Closed

  /** Inside ptw32_mcs_flag_wait. */
  datatype WaitPc = ReadFlag | Create | Store(e: nat) | WaitEvent(e: nat) | Close(e: nat)

  datatype Pc =
    | Free
    // ptw32_mcs_lock_acquire
    | Exchange
    | Link(pred: nat)
    | SetNext(pred: nat)
    | SignalNext(e: nat)
    | AwaitReady(w: WaitPc)
    | Owner
    // ptw32_mcs_lock_release
    | RelRead
    | RelCas
    | RelAwait(w: WaitPc, known: Ptr)
    | RelNext
    | RelPass(succ: nat)
    | RelSignal(e: nat)
    // ptw32_mcs_lock_try_acquire
    | TryCas
    // ptw32_mcs_node_transfer, on behalf of the old node; the new node is its Target
    | TrCas(to: nat)
    | TrSpin(to: nat)
    | TrAwait(w: WaitPc, to: nat)
    | TrCopyNext(to: nat)
    | TrCopyFlag(to: nat)
    | Target(from: nat)

  /** `ticket` is history: the place of the node's use in the order of tail exchanges. */
  datatype Node = Node(pc: Pc, next: Ptr, nextFlag: Flag, readyFlag: Flag, ticket: nat)

  /** `queue`, `served` and `passing` are history: the nodes between their tail exchange
      and the hand-over of the lock, the number of hand-overs, and the node on whose
      behalf an event for the new head is still to be set. */
  datatype State = State(tail: Ptr, nodes: seq<Node>, events: seq<Event>,
                         queue: seq<nat>, served: nat, passing: Ptr)

  datatype Move = Go | CallAcquire | CallTry | CallRelease | CallTransfer(to: nat)

  function Init(n: nat): State {
    State(Null, seq(n, i => Node(Free, Null, Zero, Zero, 0)), [], [], 0, Null)
  }

  // ---- the flag handshake ----

  datatype Waited = Waited(flag: Flag, events: seq<Event>, w: WaitPc, done: bool)

  /** One operation of ptw32_mcs_flag_wait. */
  function FlagWait(flag: Flag, w: WaitPc, events: seq<Event>): Waited {
    match w
    case ReadFlag => Waited(flag, events, Create, flag != Zero)
    case Create => Waited(flag, events + [Unset], Store(|events|), false)
    case Store(e) =>
      if flag == Zero then Waited(Handle(e), events, WaitEvent(e), false)
      else Waited(flag, events, Close(e), false)
    case WaitEvent(e) =>
      if e < |events| && events[e] == Set then Waited(flag, events[e := Unset], Close(e), false)
      else Waited(flag, events, w, false)
    case Close(e) => Waited(flag, if e < |events| then events[e := Closed] else events, Close(e), true)
  }

  /** The compare-and-exchange of ptw32_mcs_flag_set. */
  function FlagSet(flag: Flag): Flag { if flag == Zero then MinusOne else flag }

  function SetEvent(events: seq<Event>, e: nat): seq<Event> {
    if e < |events| then events[e := Set] else events
  }

  // ---- the steps ----

  function At(s: State, n: nat, pc: Pc): State
    requires n < |s.nodes|
  {
    s.(nodes := s.nodes[n := s.nodes[n].(pc := pc)])
  }

  function Step(s: State, n: nat, m: Move): State {
    if n >= |s.nodes| then s
    else
      var pc := s.nodes[n].pc;
      match m
      case Go =>
        if AcquirePc(pc) then AcquireStep(s, n)
        else if ReleasePc(pc) then ReleaseStep(s, n)
        else if TransferPc(pc) then TransferStep(s, n)
        else s
      case CallAcquire => if pc.Free? then s.(nodes := s.nodes[n := Fresh(Exchange)]) else s
      case CallTry => if pc.Free? then s.(nodes := s.nodes[n := Fresh(TryCas)]) else s
      case CallRelease => if pc.Owner? then At(s, n, RelRead) else s
      case CallTransfer(to) =>
        if pc.Owner? && to < |s.nodes| && s.nodes[to].pc.Free?
        then At(s.(nodes := s.nodes[to := Fresh(Target(n))]), n, TrCas(to))
        else s
  }

  /** The caller's own initialisation of a node nobody else can reach yet. */
  function Fresh(pc: Pc): Node { Node(pc, Null, Zero, Zero, 0) }

  predicate AcquirePc(pc: Pc) {
    pc.Exchange? || pc.Link? || pc.SetNext? || pc.SignalNext? || pc.AwaitReady? || pc.TryCas?
  }

  predicate ReleasePc(pc: Pc) {
    pc.RelRead? || pc.RelCas? || pc.RelAwait? || pc.RelNext? || pc.RelPass? || pc.RelSignal?
  }

  predicate TransferPc(pc: Pc) {
    pc.TrCas? || pc.TrSpin? || pc.TrAwait? || pc.TrCopyNext? || pc.TrCopyFlag?
  }

  /** The node joins the queue as its last member. */
  function Enqueue(s: State, n: nat, pc: Pc): State
    requires n < |s.nodes|
  {
    s.(tail := To(n), queue := s.queue + [n],
       nodes := s.nodes[n := s.nodes[n].(pc := pc, ticket := s.served + |s.queue|)])
  }

  function AcquireStep(s: State, n: nat): State
    requires n < |s.nodes| && AcquirePc(s.nodes[n].pc)
  {
    var node := s.nodes[n];
    match node.pc
    case Exchange => Enqueue(s, n, if s.tail == Null then Owner else Link(s.tail.n))
    case Link(pred) =>
      if pred < |s.nodes| then At(s.(nodes := s.nodes[pred := s.nodes[pred].(next := To(n))]), n, SetNext(pred)) else s
    case SetNext(pred) =>
      if pred < |s.nodes| then
        var flag := s.nodes[pred].nextFlag;
        At(s.(nodes := s.nodes[pred := s.nodes[pred].(nextFlag := FlagSet(flag))]), n,
           if flag.Handle? then SignalNext(flag.e) else AwaitReady(ReadFlag))
      else s
    case SignalNext(e) => At(s, n, AwaitReady(ReadFlag)).(events := SetEvent(s.events, e))
    case AwaitReady(w) =>
      var r := FlagWait(node.readyFlag, w, s.events);
      s.(events := r.events,
         nodes := s.nodes[n := node.(readyFlag := r.flag, pc := if r.done then Owner else AwaitReady(r.w))])
    case TryCas => if s.tail == Null then Enqueue(s, n, Owner) else At(s, n, Free)
  }

  function ReleaseStep(s: State, n: nat): State
    requires n < |s.nodes| && ReleasePc(s.nodes[n].pc)
  {
    var node := s.nodes[n];
    match node.pc
    case RelRead => At(s, n, if node.next == Null then RelCas else RelAwait(ReadFlag, node.next))
    case RelCas =>
      if s.tail == To(n) then At(s, n, Free).(tail := Null, queue := Rest(s.queue), served := s.served + 1)
      else At(s, n, RelAwait(ReadFlag, Null))
    case RelAwait(w, known) =>
      var r := FlagWait(node.nextFlag, w, s.events);
      s.(events := r.events,
         nodes := s.nodes[n := node.(nextFlag := r.flag,
           pc := if !r.done then RelAwait(r.w, known) else if known == Null then RelNext else RelPass(known.n))])
    case RelNext => if node.next == Null then s else At(s, n, RelPass(node.next.n))
    case RelPass(succ) =>
      if succ < |s.nodes| then
        var flag := s.nodes[succ].readyFlag;
        At(s.(nodes := s.nodes[succ := s.nodes[succ].(readyFlag := FlagSet(flag))]), n,
           if flag.Handle? then RelSignal(flag.e) else Free)
          .(queue := Rest(s.queue), served := s.served + 1, passing := if flag.Handle? then To(n) else s.passing)
      else s
    case RelSignal(e) => At(s, n, Free).(events := SetEvent(s.events, e), passing := Null)
  }

  function Rest(q: seq<nat>): seq<nat> { if q == [] then [] else q[1..] }

  function TransferStep(s: State, n: nat): State
    requires n < |s.nodes| && TransferPc(s.nodes[n].pc)
  {
    var node := s.nodes[n];
    match node.pc
    case TrCas(to) =>
      if to >= |s.nodes| then s
      else if s.tail == To(n) then Replace(s, n, to).(tail := To(to))
      else At(s, n, TrSpin(to))
    case TrSpin(to) => if node.next == Null then s else At(s, n, TrAwait(ReadFlag, to))
    case TrAwait(w, to) =>
      var r := FlagWait(node.nextFlag, w, s.events);
      s.(events := r.events,
         nodes := s.nodes[n := node.(nextFlag := r.flag, pc := if r.done then TrCopyNext(to) else TrAwait(r.w, to))])
    case TrCopyNext(to) =>
      if to < |s.nodes| then At(s.(nodes := s.nodes[to := s.nodes[to].(next := node.next)]), n, TrCopyFlag(to)) else s
    case TrCopyFlag(to) =>
      if to < |s.nodes| then
        Replace(s.(nodes := s.nodes[to := s.nodes[to].(nextFlag := node.nextFlag)]), n, to)
      else s
  }

  /** The new node takes the old one's place at the head of the queue. */
  function Replace(s: State, n: nat, to: nat): State
    requires n < |s.nodes| && to < |s.nodes|
  {
    At(s.(nodes := s.nodes[to := s.nodes[to].(pc := Owner, ticket := s.nodes[n].ticket)]), n, Free)
      .(queue := if s.queue == [] then [] else s.queue[0 := to])
  }

  function Run(s: State, schedule: seq<(nat, Move)>): State
    decreases |schedule|
  {
    if schedule == [] then s else Run(Step(s, schedule[0].0, schedule[0].1), schedule[1..])
  }

  // ---- the handshake keeps its own invariant ----

  /** How far the partner has come with setting a flag. */
  datatype Phase = Before | Signalling(e: nat) | After

  predicate Open(events: seq<Event>, e: nat, v: Event) { e < |events| && events[e] == v }

  /** A flag, its setter's progress and its waiter's progress fit together. `waiting` says
      whether the waiter is inside flag_wait, at w. */
  predicate FlagOk(flag: Flag, ph: Phase, waiting: bool, w: WaitPc, events: seq<Event>) {
    match ph
    case Before =>
      if waiting && w.WaitEvent? then flag == Handle(w.e) && Open(events, w.e, Unset)
      else flag == Zero && (waiting ==> !w.Close? && (w.Store? ==> Open(events, w.e, Unset)))
    case Signalling(e) => flag == Handle(e) && waiting && w == WaitEvent(e) && Open(events, e, Unset)
    case After =>
      flag != Zero && (waiting ==>
        && (w.Store? || w.Close? ==> Open(events, w.e, Unset))
        && (w.WaitEvent? ==> flag == Handle(w.e) && Open(events, w.e, Set)))
  }

  lemma FlagWaitKeepsFlag(flag: Flag, ph: Phase, w: WaitPc, events: seq<Event>)
    requires FlagOk(flag, ph, true, w, events)
    ensures var r := FlagWait(flag, w, events);
      FlagOk(r.flag, ph, !r.done, r.w, r.events) && (r.done ==> ph.After? && r.flag == flag)
  {
  }

  lemma FlagSetKeepsFlag(flag: Flag, waiting: bool, w: WaitPc, events: seq<Event>)
    requires FlagOk(flag, Before, waiting, w, events)
    ensures FlagOk(FlagSet(flag), if flag.Handle? then Signalling(flag.e) else After, waiting, w, events)
  {
  }

  lemma SetEventKeepsFlag(flag: Flag, e: nat, waiting: bool, w: WaitPc, events: seq<Event>)
    requires FlagOk(flag, Signalling(e), waiting, w, events)
    ensures FlagOk(flag, After, waiting, w, SetEvent(events, e))
  {
  }

  // ---- the invariant ----

  predicate Queued(pc: Pc) {
    pc.Link? || pc.SetNext? || pc.SignalNext? || pc.AwaitReady? || Holding(pc)
  }

  /** The node owns the lock: acquired and not yet handed over. */
  predicate Holding(pc: Pc) {
    pc.Owner? || pc.RelRead? || pc.RelCas? || pc.RelAwait? || pc.RelNext? || pc.RelPass? || TransferPc(pc)
  }

  predicate AwaitsNext(pc: Pc) { pc.RelAwait? || pc.TrAwait? }

  function WaitOf(pc: Pc): WaitPc {
    match pc
    case AwaitReady(w) => w
    case RelAwait(w, _) => w
    case TrAwait(w, _) => w
    case _ => ReadFlag
  }

  /** The node is inside flag_wait with an event of its own. */
  predicate HasEvent(pc: Pc) {
    (pc.AwaitReady? || AwaitsNext(pc)) && !WaitOf(pc).ReadFlag? && !WaitOf(pc).Create?
  }

  function EventOf(pc: Pc): nat
    requires HasEvent(pc)
  {
    WaitOf(pc).e
  }

  function NextPhase(succ: Pc): Phase {
    match succ
    case Link(_) => Before
    case SetNext(_) => Before
    case SignalNext(e) => Signalling(e)
    case _ => After
  }

  /** Two neighbours p, m of the queue. */
  predicate PairOk(p: nat, pn: Node, m: nat, mn: Node, events: seq<Event>) {
    && (mn.pc.Link? ==> mn.pc.pred == p && pn.next == Null)
    && (mn.pc.SetNext? ==> mn.pc.pred == p)
    && (!mn.pc.Link? ==> pn.next == To(m))
    && FlagOk(pn.nextFlag, NextPhase(mn.pc), AwaitsNext(pn.pc), WaitOf(pn.pc), events)
    && Queued(mn.pc) && !Holding(mn.pc)
    && FlagOk(mn.readyFlag, Before, mn.pc.AwaitReady?, WaitOf(mn.pc), events)
    && (pn.pc.RelNext? || pn.pc.RelPass? || pn.pc.TrCopyNext? || pn.pc.TrCopyFlag? ==> mn.pc.AwaitReady?)
    && (pn.pc.RelPass? ==> pn.pc.succ == m)
    && (pn.pc.RelAwait? ==> pn.pc.known == Null || pn.pc.known == To(m))
    && (pn.pc.TrAwait? ==> !mn.pc.Link?)
  }

  /** The last member of the queue has no successor and does not act as if it had. */
  predicate LastOk(ln: Node) {
    && ln.next == Null && ln.nextFlag == Zero
    && !AwaitsNext(ln.pc) && !ln.pc.RelNext? && !ln.pc.RelPass?
    && !ln.pc.TrSpin? && !ln.pc.TrCopyNext? && !ln.pc.TrCopyFlag?
  }

  /** How far the hand-over to the head of the queue has come. */
  function ReadyPhase(s: State): Phase {
    if s.passing.To? && s.passing.n < |s.nodes| && s.nodes[s.passing.n].pc.RelSignal?
    then Signalling(s.nodes[s.passing.n].pc.e) else After
  }

  predicate HeadOk(ph: Phase, hn: Node, events: seq<Event>) {
    && (Holding(hn.pc) || hn.pc.AwaitReady?)
    && (hn.pc.AwaitReady? ==> FlagOk(hn.readyFlag, ph, true, hn.pc.w, events))
    && (ph.Signalling? ==> hn.pc.AwaitReady?)
  }

  /** Nodes outside the queue, and the two sides of a transfer. */
  predicate NodeOk(s: State, n: nat, node: Node) {
    && (node.pc.Exchange? || node.pc.TryCas? ==> node.next == Null && node.nextFlag == Zero && node.readyFlag == Zero)
    && (node.pc.RelSignal? <==> s.passing == To(n))
    && (TransferPc(node.pc) ==> TransferTo(node.pc) < |s.nodes| && s.nodes[TransferTo(node.pc)].pc == Target(n))
    && (node.pc.Target? ==>
          && node.pc.from < |s.nodes|
          && TransferPc(s.nodes[node.pc.from].pc) && TransferTo(s.nodes[node.pc.from].pc) == n
          && node.nextFlag == Zero && node.readyFlag == Zero
          && node.next == if s.nodes[node.pc.from].pc.TrCopyFlag? then s.nodes[node.pc.from].next else Null)
    && (HasEvent(node.pc) ==> EventOf(node.pc) < |s.events|)
  }

  function TransferTo(pc: Pc): nat
    requires TransferPc(pc)
  {
    pc.to
  }

  ghost predicate QueueOk(s: State) {
    && (forall i :: 0 <= i < |s.queue| ==> s.queue[i] < |s.nodes|)
    && (forall i, j :: 0 <= i < j < |s.queue| ==> s.queue[i] != s.queue[j])
    && (forall n :: 0 <= n < |s.nodes| ==> (Queued(s.nodes[n].pc) <==> n in s.queue))
    && s.tail == (if s.queue == [] then Null else To(s.queue[|s.queue| - 1]))
    && (forall i :: 0 <= i < |s.queue| ==> s.nodes[s.queue[i]].ticket == s.served + i)
  }

  ghost predicate PairsOk(s: State)
    requires QueueOk(s)
  {
    forall i :: 0 <= i < |s.queue| - 1 ==>
      PairOk(s.queue[i], s.nodes[s.queue[i]], s.queue[i + 1], s.nodes[s.queue[i + 1]], s.events)
  }

  ghost predicate EndsOk(s: State)
    requires QueueOk(s)
  {
    && (s.queue != [] ==> HeadOk(ReadyPhase(s), s.nodes[s.queue[0]], s.events) && LastOk(s.nodes[s.queue[|s.queue| - 1]]))
    && (s.passing.To? ==> s.queue != [] && s.passing.n < |s.nodes|)
  }

  ghost predicate NodesOk(s: State) {
    && (forall n :: 0 <= n < |s.nodes| ==> NodeOk(s, n, s.nodes[n]))
    && (forall n, m :: 0 <= n < m < |s.nodes| && HasEvent(s.nodes[n].pc) && HasEvent(s.nodes[m].pc) ==>
          EventOf(s.nodes[n].pc) != EventOf(s.nodes[m].pc))
  }

  ghost predicate Inv(s: State) { QueueOk(s) && PairsOk(s) && EndsOk(s) && NodesOk(s) }

  // ---- frames ----

  lemma IndexOf(s: State, n: nat) returns (i: nat)
    requires QueueOk(s) && n < |s.nodes| && Queued(s.nodes[n].pc)
    ensures i < |s.queue| && s.queue[i] == n
    ensures forall j :: 0 <= j < |s.queue| && j != i ==> s.queue[j] != n
  {
    assert n in s.queue;
    i :| 0 <= i < |s.queue| && s.queue[i] == n;
  }

  /** The events of all nodes but n are as before. */
  ghost predicate EventsKept(s: State, s': State, n: nat) {
    && |s'.events| >= |s.events|
    && forall x :: 0 <= x < |s.nodes| && x != n && HasEvent(s.nodes[x].pc) ==>
      EventOf(s.nodes[x].pc) < |s.events| && EventOf(s.nodes[x].pc) < |s'.events|
      && s'.events[EventOf(s.nodes[x].pc)] == s.events[EventOf(s.nodes[x].pc)]
  }

  lemma PairFrame(p: nat, pn: Node, m: nat, mn: Node, events: seq<Event>, pn': Node, mn': Node, events': seq<Event>)
    requires PairOk(p, pn, m, mn, events)
    requires pn'.pc == pn.pc && pn'.next == pn.next && pn'.nextFlag == pn.nextFlag
    requires mn'.pc == mn.pc && mn'.readyFlag == mn.readyFlag
    requires AwaitsNext(pn.pc) && HasEvent(pn.pc) && EventOf(pn.pc) < |events| ==>
      EventOf(pn.pc) < |events'| && events'[EventOf(pn.pc)] == events[EventOf(pn.pc)]
    requires HasEvent(mn.pc) && EventOf(mn.pc) < |events| ==>
      EventOf(mn.pc) < |events'| && events'[EventOf(mn.pc)] == events[EventOf(mn.pc)]
    ensures PairOk(p, pn', m, mn', events')
  {
  }

  /** A step that leaves the queue alone, changes the pc of n only, and at most the other
      fields of n and of one neighbour. */
  ghost predicate InPlace(s: State, s': State, n: nat) {
    && |s'.nodes| == |s.nodes| && n < |s.nodes|
    && s'.queue == s.queue && s'.tail == s.tail && s'.served == s.served
    && (forall x :: 0 <= x < |s.nodes| && x != n ==> s'.nodes[x].pc == s.nodes[x].pc)
    && (forall x :: 0 <= x < |s.nodes| ==> s'.nodes[x].ticket == s.nodes[x].ticket)
    && (Queued(s'.nodes[n].pc) <==> Queued(s.nodes[n].pc))
  }

  lemma InPlaceKeepsQueue(s: State, s': State, n: nat)
    requires QueueOk(s) && InPlace(s, s', n)
    ensures QueueOk(s')
  {
  }

  /** Fresh or own events stay distinct from everybody else's. */
  ghost predicate OwnEvent(s: State, s': State, n: nat)
    requires |s'.nodes| == |s.nodes| && n < |s.nodes|
  {
    HasEvent(s'.nodes[n].pc) ==>
      && EventOf(s'.nodes[n].pc) < |s'.events|
      && (EventOf(s'.nodes[n].pc) == |s.events|
          || (HasEvent(s.nodes[n].pc) && EventOf(s'.nodes[n].pc) == EventOf(s.nodes[n].pc)))
  }

  lemma InPlaceKeepsEvents(s: State, s': State, n: nat)
    requires NodesOk(s) && InPlace(s, s', n) && OwnEvent(s, s', n)
    ensures forall x, y :: 0 <= x < y < |s'.nodes| && HasEvent(s'.nodes[x].pc) && HasEvent(s'.nodes[y].pc) ==>
          EventOf(s'.nodes[x].pc) != EventOf(s'.nodes[y].pc)
  {
    forall x, y | 0 <= x < y < |s'.nodes| && HasEvent(s'.nodes[x].pc) && HasEvent(s'.nodes[y].pc)
      ensures EventOf(s'.nodes[x].pc) != EventOf(s'.nodes[y].pc)
    {
      assert NodeOk(s, x, s.nodes[x]) && NodeOk(s, y, s.nodes[y]);
    }
  }

  // ---- waiting on the node's own flags ----

  /** The node takes one operation of flag_wait on its readyFlag or its nextFlag. */
  predicate NodeAwaits(node: Node, node': Node, events: seq<Event>, r: Waited) {
    && (node.pc.AwaitReady? || AwaitsNext(node.pc))
    && r == FlagWait(if node.pc.AwaitReady? then node.readyFlag else node.nextFlag, WaitOf(node.pc), events)
    && node'.next == node.next && node'.ticket == node.ticket
    && node'.readyFlag == (if node.pc.AwaitReady? then r.flag else node.readyFlag)
    && node'.nextFlag == (if node.pc.AwaitReady? then node.nextFlag else r.flag)
    && node'.pc == AfterWait(node.pc, r)
  }

  function AfterWait(pc: Pc, r: Waited): Pc {
    match pc
    case AwaitReady(_) => if r.done then Owner else AwaitReady(r.w)
    case RelAwait(_, known) =>
      if !r.done then RelAwait(r.w, known) else if known == Null then RelNext else RelPass(known.n)
    case TrAwait(_, to) => if r.done then TrCopyNext(to) else TrAwait(r.w, to)
    case _ => pc
  }

  ghost predicate Awaiting(s: State, s': State, n: nat, r: Waited) {
    && n < |s.nodes| == |s'.nodes|
    && NodeAwaits(s.nodes[n], s'.nodes[n], s.events, r)
    && s' == s.(nodes := s'.nodes, events := r.events)
    && s'.nodes == s.nodes[n := s'.nodes[n]]
  }

  lemma AwaitingStep(s: State, n: nat) returns (r: Waited)
    requires n < |s.nodes| && (s.nodes[n].pc.AwaitReady? || AwaitsNext(s.nodes[n].pc))
    ensures Awaiting(s, Step(s, n, Go), n, r)
  {
    r := FlagWait(if s.nodes[n].pc.AwaitReady? then s.nodes[n].readyFlag else s.nodes[n].nextFlag,
                  WaitOf(s.nodes[n].pc), s.events);
  }

  lemma AwaitingKeepsOthersEvents(s: State, s': State, n: nat, r: Waited)
    requires NodesOk(s) && Awaiting(s, s', n, r)
    ensures EventsKept(s, s', n) && OwnEvent(s, s', n)
  {
    forall x | 0 <= x < |s.nodes| && x != n && HasEvent(s.nodes[x].pc)
      ensures EventOf(s.nodes[x].pc) < |s.events| && EventOf(s.nodes[x].pc) < |s'.events|
      ensures s'.events[EventOf(s.nodes[x].pc)] == s.events[EventOf(s.nodes[x].pc)]
    {
      assert NodeOk(s, x, s.nodes[x]);
      assert HasEvent(s.nodes[n].pc) ==> EventOf(s.nodes[n].pc) != EventOf(s.nodes[x].pc);
    }
    assert NodeOk(s, n, s.nodes[n]);
  }

  lemma PredAwaits(p: nat, pn: Node, pn': Node, m: nat, mn: Node, events: seq<Event>, r: Waited)
    requires PairOk(p, pn, m, mn, events) && NodeAwaits(pn, pn', events, r)
    requires HasEvent(mn.pc) && EventOf(mn.pc) < |events| ==>
      EventOf(mn.pc) < |r.events| && r.events[EventOf(mn.pc)] == events[EventOf(mn.pc)]
    ensures PairOk(p, pn', m, mn, r.events)
  {
    if AwaitsNext(pn.pc) {
      FlagWaitKeepsFlag(pn.nextFlag, NextPhase(mn.pc), WaitOf(pn.pc), events);
    }
  }

  lemma SuccAwaits(p: nat, pn: Node, m: nat, mn: Node, mn': Node, events: seq<Event>, r: Waited)
    requires PairOk(p, pn, m, mn, events) && NodeAwaits(mn, mn', events, r)
    requires HasEvent(pn.pc) && EventOf(pn.pc) < |events| ==>
      EventOf(pn.pc) < |r.events| && r.events[EventOf(pn.pc)] == events[EventOf(pn.pc)]
    ensures PairOk(p, pn, m, mn', r.events)
  {
    FlagWaitKeepsFlag(mn.readyFlag, Before, WaitOf(mn.pc), events);
  }

  lemma AwaitingKeepsPairs(s: State, s': State, n: nat, r: Waited)
    requires Inv(s) && Awaiting(s, s', n, r)
    ensures InPlace(s, s', n) && QueueOk(s') && PairsOk(s')
  {
    InPlaceKeepsQueue(s, s', n);
    AwaitingKeepsOthersEvents(s, s', n, r);
    hide NodesOk, EndsOk, PairOk, NodeAwaits;
    forall j | 0 <= j < |s'.queue| - 1
      ensures PairOk(s'.queue[j], s'.nodes[s'.queue[j]], s'.queue[j + 1], s'.nodes[s'.queue[j + 1]], s'.events)
    {
      var p, m := s.queue[j], s.queue[j + 1];
      assert PairOk(p, s.nodes[p], m, s.nodes[m], s.events);
      if p == n {
        PredAwaits(p, s.nodes[p], s'.nodes[p], m, s.nodes[m], s.events, r);
      } else if m == n {
        SuccAwaits(p, s.nodes[p], m, s.nodes[m], s'.nodes[m], s.events, r);
      } else {
        PairFrame(p, s.nodes[p], m, s.nodes[m], s.events, s'.nodes[p], s'.nodes[m], s'.events);
      }
    }
  }

  /** Nothing changes that a node's partner in a transfer relies on. */
  predicate SameRole(a: Node, b: Node) {
    && (TransferPc(a.pc) ==>
          TransferPc(b.pc) && TransferTo(b.pc) == TransferTo(a.pc)
          && (b.pc.TrCopyFlag? <==> a.pc.TrCopyFlag?) && (a.pc.TrCopyFlag? ==> b.next == a.next))
    && (a.pc.Target? ==> b.pc == a.pc)
  }

  /** If every node keeps its role and x itself is the same, x is as good as before. */
  lemma RolesKept(s: State, s': State, x: nat)
    requires |s'.nodes| == |s.nodes| && x < |s.nodes| && NodeOk(s, x, s.nodes[x])
    requires |s'.events| >= |s.events| && (s'.passing == To(x) <==> s.passing == To(x))
    requires forall y :: 0 <= y < |s.nodes| ==> SameRole(s.nodes[y], s'.nodes[y])
    requires s'.nodes[x] == s.nodes[x]
    ensures NodeOk(s', x, s'.nodes[x])
  {
  }

  lemma AllSameRole(s: State, s': State, p: nat, n: nat)
    requires n < |s.nodes| == |s'.nodes| && p < |s.nodes|
    requires forall x :: 0 <= x < |s.nodes| && x != p && x != n ==> s'.nodes[x] == s.nodes[x]
    requires SameRole(s.nodes[n], s'.nodes[n]) && SameRole(s.nodes[p], s'.nodes[p])
    ensures forall y :: 0 <= y < |s.nodes| ==> SameRole(s.nodes[y], s'.nodes[y])
  {
  }

  lemma WaiterKeepsRole(node: Node, node': Node, events: seq<Event>, r: Waited)
    requires NodeAwaits(node, node', events, r)
    ensures SameRole(node, node') && !node.pc.Target? && !node'.pc.Target?
  {
  }

  lemma WaiterNodeOk(s: State, s': State, n: nat, r: Waited)
    requires n < |s.nodes| && NodeOk(s, n, s.nodes[n]) && Awaiting(s, s', n, r) && OwnEvent(s, s', n)
    ensures NodeOk(s', n, s'.nodes[n])
  {
    hide FlagWait;
    assert TransferPc(s.nodes[n].pc) ==> s.nodes[TransferTo(s.nodes[n].pc)].pc == Target(n);
  }

  lemma AwaitingKeepsNodes(s: State, s': State, n: nat, r: Waited)
    requires NodesOk(s) && Awaiting(s, s', n, r) && InPlace(s, s', n)
    ensures NodesOk(s')
  {
    hide NodeOk, NodeAwaits, InPlace, SameRole;
    AwaitingKeepsOthersEvents(s, s', n, r);
    InPlaceKeepsEvents(s, s', n);
    WaiterKeepsRole(s.nodes[n], s'.nodes[n], s.events, r);
    AllSameRole(s, s', n, n);
    forall x | 0 <= x < |s'.nodes| ensures NodeOk(s', x, s'.nodes[x]) {
      assert NodeOk(s, x, s.nodes[x]);
      if x == n { WaiterNodeOk(s, s', n, r); } else { RolesKept(s, s', x); }
    }
  }

  lemma PhaseKept(s: State, s': State)
    requires |s'.nodes| == |s.nodes| && s'.passing == s.passing
    requires s.passing.To? && s.passing.n < |s.nodes| && s.nodes[s.passing.n].pc.RelSignal? ==>
      s'.nodes[s.passing.n].pc == s.nodes[s.passing.n].pc
    requires s.passing.To? && s.passing.n < |s.nodes| && !s.nodes[s.passing.n].pc.RelSignal? ==>
      !s'.nodes[s.passing.n].pc.RelSignal?
    ensures ReadyPhase(s') == ReadyPhase(s)
  {
  }

  lemma HeadAwaits(ph: Phase, hn: Node, hn': Node, events: seq<Event>, r: Waited)
    requires HeadOk(ph, hn, events) && NodeAwaits(hn, hn', events, r)
    ensures HeadOk(ph, hn', r.events)
  {
    if hn.pc.AwaitReady? { FlagWaitKeepsFlag(hn.readyFlag, ph, WaitOf(hn.pc), events); }
  }

  lemma HeadFrame(ph: Phase, hn: Node, events: seq<Event>, hn': Node, events': seq<Event>)
    requires HeadOk(ph, hn, events)
    requires hn'.pc == hn.pc && hn'.readyFlag == hn.readyFlag
    requires HasEvent(hn.pc) && EventOf(hn.pc) < |events| ==>
      EventOf(hn.pc) < |events'| && events'[EventOf(hn.pc)] == events[EventOf(hn.pc)]
    ensures HeadOk(ph, hn', events')
  {
  }

  lemma LastAwaits(ln: Node, ln': Node, events: seq<Event>, r: Waited)
    requires LastOk(ln) && NodeAwaits(ln, ln', events, r)
    ensures LastOk(ln')
  {
  }

  lemma WaiterIsNoSignaller(node: Node, node': Node, events: seq<Event>, r: Waited)
    requires NodeAwaits(node, node', events, r)
    ensures !node.pc.RelSignal? && !node'.pc.RelSignal?
  {
  }

  lemma AwaitingKeepsEnds(s: State, s': State, n: nat, r: Waited)
    requires Inv(s) && Awaiting(s, s', n, r) && QueueOk(s')
    ensures EndsOk(s')
  {
    hide NodeAwaits, HeadOk, LastOk, PairsOk, QueueOk;
    AwaitingKeepsOthersEvents(s, s', n, r);
    WaiterIsNoSignaller(s.nodes[n], s'.nodes[n], s.events, r);
    PhaseKept(s, s');
    if s.queue != [] {
      QueueInRange(s);
      var h, l := s.queue[0], s.queue[|s.queue| - 1];
      if h == n { HeadAwaits(ReadyPhase(s), s.nodes[n], s'.nodes[n], s.events, r); }
      else { HeadFrame(ReadyPhase(s), s.nodes[h], s.events, s'.nodes[h], s'.events); }
      if l == n { LastAwaits(s.nodes[n], s'.nodes[n], s.events, r); }
    }
  }

  lemma QueueInRange(s: State)
    requires QueueOk(s)
    ensures forall i :: 0 <= i < |s.queue| ==> s.queue[i] < |s.nodes|
  {
  }

  lemma AwaitingKeepsInv(s: State, n: nat)
    requires Inv(s) && n < |s.nodes| && (s.nodes[n].pc.AwaitReady? || AwaitsNext(s.nodes[n].pc))
    ensures Inv(Step(s, n, Go))
  {
    hide Step, Awaiting, InPlace;
    var r := AwaitingStep(s, n);
    var s' := Step(s, n, Go);
    AwaitingKeepsPairs(s, s', n, r);
    AwaitingKeepsEnds(s, s', n, r);
    AwaitingKeepsNodes(s, s', n, r);
  }

  // ---- the holder moves on by itself ----

  lemma FollowersWait(s: State)
    requires QueueOk(s) && PairsOk(s)
    ensures forall j :: 1 <= j < |s.queue| ==> Queued(s.nodes[s.queue[j]].pc) && !Holding(s.nodes[s.queue[j]].pc)
  {
    forall j | 1 <= j < |s.queue| ensures Queued(s.nodes[s.queue[j]].pc) && !Holding(s.nodes[s.queue[j]].pc) {
      var i := j - 1;
      assert PairOk(s.queue[i], s.nodes[s.queue[i]], s.queue[i + 1], s.nodes[s.queue[i + 1]], s.events);
    }
  }

  /** While an event for the new head is still to be set, the head waits for it. */
  lemma HandOverMeans(s: State)
    requires Inv(s)
    ensures s.passing.To? <==> ReadyPhase(s).Signalling?
    ensures s.passing.To? ==> s.queue != [] && s.nodes[s.queue[0]].pc == AwaitReady(WaitEvent(ReadyPhase(s).e))
  {
    assert s.passing.To? ==> NodeOk(s, s.passing.n, s.nodes[s.passing.n]);
  }

  /** Only the head of the queue holds the lock. */
  lemma HolderIsHead(s: State, n: nat)
    requires Inv(s) && n < |s.nodes| && Holding(s.nodes[n].pc)
    ensures s.queue != [] && s.queue[0] == n && s.passing == Null
  {
    FollowersWait(s);
    HandOverMeans(s);
    var i := IndexOf(s, n);
  }

  /** The holder goes to another program point of its own. */
  lemma HolderMoves(s: State, n: nat, pc: Pc)
    requires Inv(s) && n < |s.nodes| && Holding(s.nodes[n].pc) && Holding(pc) && !HasEvent(pc)
    requires s.queue != [] && s.queue[0] == n
    requires SameRole(s.nodes[n], s.nodes[n].(pc := pc)) && (TransferPc(pc) ==> TransferPc(s.nodes[n].pc))
    requires |s.queue| > 1 && s.queue[1] < |s.nodes| ==>
      PairOk(n, s.nodes[n].(pc := pc), s.queue[1], s.nodes[s.queue[1]], s.events)
    requires |s.queue| == 1 ==> LastOk(s.nodes[n].(pc := pc))
    ensures Inv(At(s, n, pc))
  {
    hide PairOk, NodeOk, HeadOk, LastOk, SameRole;
    var s' := At(s, n, pc);
    InPlaceKeepsQueue(s, s', n);
    InPlaceKeepsEvents(s, s', n);
    HolderIsHead(s, n);
    forall j | 0 <= j < |s'.queue| - 1
      ensures PairOk(s'.queue[j], s'.nodes[s'.queue[j]], s'.queue[j + 1], s'.nodes[s'.queue[j + 1]], s'.events)
    {
      assert PairOk(s.queue[j], s.nodes[s.queue[j]], s.queue[j + 1], s.nodes[s.queue[j + 1]], s.events);
    }
    HolderHeadOk(s, s', n);
    AllSameRole(s, s', n, n);
    forall x | 0 <= x < |s'.nodes| ensures NodeOk(s', x, s'.nodes[x]) {
      assert NodeOk(s, x, s.nodes[x]);
      if x == n { HolderNodeOk(s, n, pc); } else { RolesKept(s, s', x); }
    }
  }

  lemma HolderHeadOk(s: State, s': State, n: nat)
    requires n < |s'.nodes| && Holding(s'.nodes[n].pc) && s'.passing == Null
    ensures HeadOk(ReadyPhase(s'), s'.nodes[n], s'.events)
  {
  }

  lemma HolderNodeOk(s: State, n: nat, pc: Pc)
    requires n < |s.nodes| && NodeOk(s, n, s.nodes[n]) && Holding(s.nodes[n].pc) && Holding(pc) && !HasEvent(pc)
    requires SameRole(s.nodes[n], s.nodes[n].(pc := pc)) && (TransferPc(pc) ==> TransferPc(s.nodes[n].pc))
    ensures NodeOk(At(s, n, pc), n, At(s, n, pc).nodes[n])
  {
    assert TransferPc(s.nodes[n].pc) ==> s.nodes[TransferTo(s.nodes[n].pc)].pc == Target(n);
  }

  /** The first two members of the queue. */
  lemma FirstPair(s: State, n: nat)
    requires Inv(s) && s.queue != [] && s.queue[0] == n
    ensures |s.queue| > 1 ==>
      s.queue[1] < |s.nodes| && PairOk(n, s.nodes[n], s.queue[1], s.nodes[s.queue[1]], s.events)
    ensures |s.queue| == 1 ==> LastOk(s.nodes[n])
  {
    if |s.queue| > 1 {
      var i := 0;
      assert PairOk(s.queue[i], s.nodes[s.queue[i]], s.queue[i + 1], s.nodes[s.queue[i + 1]], s.events);
    }
  }

  lemma RelReadKeepsInv(s: State, n: nat)
    requires Inv(s) && n < |s.nodes| && (s.nodes[n].pc.Owner? || s.nodes[n].pc.RelRead? || s.nodes[n].pc.RelNext?)
    ensures s.nodes[n].pc.Owner? ==> Inv(At(s, n, RelRead))
    ensures !s.nodes[n].pc.Owner? ==> Inv(ReleaseStep(s, n))
  {
    HolderIsHead(s, n);
    FirstPair(s, n);
    hide Inv;
    var node := s.nodes[n];
    if node.pc.Owner? { HolderMoves(s, n, RelRead); }
    else if node.pc.RelRead? { HolderMoves(s, n, if node.next == Null then RelCas else RelAwait(ReadFlag, node.next)); }
    else { HolderMoves(s, n, RelPass(node.next.n)); }
  }

  /** A failed exchange of the tail tells that there is a successor. */
  lemma TailIsNotHolder(s: State, n: nat)
    requires Inv(s) && n < |s.nodes| && Holding(s.nodes[n].pc)
    ensures s.tail == To(n) <==> |s.queue| == 1
    ensures s.tail == To(n) <==> s.queue == [n]
  {
    HolderIsHead(s, n);
  }

  lemma RelCasFailedKeepsInv(s: State, n: nat)
    requires Inv(s) && n < |s.nodes| && s.nodes[n].pc.RelCas? && s.tail != To(n)
    ensures Inv(ReleaseStep(s, n))
  {
    HolderIsHead(s, n);
    TailIsNotHolder(s, n);
    FirstPair(s, n);
    hide Inv;
    HolderMoves(s, n, RelAwait(ReadFlag, Null));
  }

  lemma TrCasFailedKeepsInv(s: State, n: nat)
    requires Inv(s) && n < |s.nodes| && s.nodes[n].pc.TrCas? && s.tail != To(n)
    ensures Inv(TransferStep(s, n))
  {
    HolderIsHead(s, n);
    TailIsNotHolder(s, n);
    FirstPair(s, n);
    hide Inv;
    HolderMoves(s, n, TrSpin(s.nodes[n].pc.to));
  }

  lemma TrSpinKeepsInv(s: State, n: nat)
    requires Inv(s) && n < |s.nodes| && s.nodes[n].pc.TrSpin?
    ensures Inv(TransferStep(s, n))
  {
    HolderIsHead(s, n);
    FirstPair(s, n);
    hide Inv;
    if s.nodes[n].next != Null { HolderMoves(s, n, TrAwait(ReadFlag, s.nodes[n].pc.to)); }
  }

  // ---- a successor links itself and sets the flag of its predecessor ----

  /** The follower n, behind p, takes one of its three steps towards p. */
  ghost predicate Linking(s: State, s': State, p: nat, n: nat) {
    && p < |s.nodes| && n < |s.nodes| && p != n && |s'.nodes| == |s.nodes|
    && s' == s.(nodes := s'.nodes, events := s'.events)
    && s'.nodes == s.nodes[p := s'.nodes[p]][n := s'.nodes[n]]
    && s'.nodes[p] == s.nodes[p].(next := s'.nodes[p].next, nextFlag := s'.nodes[p].nextFlag)
    && s'.nodes[n] == s.nodes[n].(pc := s'.nodes[n].pc)
    && (s'.nodes[n].pc.SetNext? || s'.nodes[n].pc.SignalNext? || s'.nodes[n].pc == AwaitReady(ReadFlag))
    && (s.nodes[n].pc.Link? || s.nodes[n].pc.SetNext? || s.nodes[n].pc.SignalNext?)
    && (if s.nodes[n].pc.SignalNext? then s'.nodes[p] == s.nodes[p] else s'.events == s.events)
    && PairOk(p, s'.nodes[p], n, s'.nodes[n], s'.events)
    && EventsKept(s, s', p)
  }

  /** What a node in mid-queue looks like to its own successor does not depend on how far
      it has come with linking itself. */
  lemma SuccessorUnaffected(p: nat, pn: Node, pn': Node, m: nat, mn: Node, events: seq<Event>, events': seq<Event>)
    requires PairOk(p, pn, m, mn, events)
    requires pn'.next == pn.next && pn'.nextFlag == pn.nextFlag
    requires Queued(pn.pc) && !Holding(pn.pc) && Queued(pn'.pc) && !Holding(pn'.pc)
    requires HasEvent(mn.pc) && EventOf(mn.pc) < |events| ==>
      EventOf(mn.pc) < |events'| && events'[EventOf(mn.pc)] == events[EventOf(mn.pc)]
    ensures PairOk(p, pn', m, mn, events')
  {
  }

  lemma LinkingKeepsPairs(s: State, s': State, p: nat, n: nat, i: nat)
    requires Inv(s) && Linking(s, s', p, n) && QueueOk(s')
    requires i + 1 < |s.queue| && s.queue[i] == p && s.queue[i + 1] == n
    requires s.nodes[n].pc.SignalNext? ==> i == 0
    ensures PairsOk(s')
  {
    hide PairOk, NodesOk, EndsOk;
    FollowersWait(s);
    forall j | 0 <= j < |s'.queue| - 1
      ensures PairOk(s'.queue[j], s'.nodes[s'.queue[j]], s'.queue[j + 1], s'.nodes[s'.queue[j + 1]], s'.events)
    {
      var a, b := s.queue[j], s.queue[j + 1];
      assert PairOk(a, s.nodes[a], b, s.nodes[b], s.events);
      if j == i {
      } else if j == i + 1 {
        SuccessorUnaffected(a, s.nodes[a], s'.nodes[a], b, s.nodes[b], s.events, s'.events);
      } else {
        PairFrame(a, s.nodes[a], b, s.nodes[b], s.events, s'.nodes[a], s'.nodes[b], s'.events);
      }
    }
  }

  lemma LinkingKeepsEnds(s: State, s': State, p: nat, n: nat, i: nat)
    requires Inv(s) && Linking(s, s', p, n) && QueueOk(s')
    requires i + 1 < |s.queue| && s.queue[i] == p && s.queue[i + 1] == n
    requires s.nodes[n].pc.SignalNext? ==> Holding(s.nodes[p].pc)
    ensures EndsOk(s')
  {
    HandOverMeans(s);
    if Holding(s.nodes[p].pc) { HolderIsHead(s, p); }
    hide PairOk, PairsOk, QueueOk, HeadOk;
    QueueInRange(s);
    QueueDistinct(s);
    PhaseKept(s, s');
    var h := s.queue[0];
    if h == p && Holding(s.nodes[p].pc) { HolderHeadOk(s, s', p); }
    else { HeadFrame(ReadyPhase(s), s.nodes[h], s.events, s'.nodes[h], s'.events); }
  }

  lemma QueueDistinct(s: State)
    requires QueueOk(s)
    ensures forall i, j :: 0 <= i < j < |s.queue| ==> s.queue[i] != s.queue[j]
  {
  }

  lemma LinkingKeepsRoles(s: State, s': State, p: nat, n: nat)
    requires Linking(s, s', p, n) && PairOk(p, s.nodes[p], n, s.nodes[n], s.events)
    ensures SameRole(s.nodes[n], s'.nodes[n]) && SameRole(s.nodes[p], s'.nodes[p])
  {
  }

  lemma LinkingNodesOk(s: State, s': State, p: nat, n: nat)
    requires Linking(s, s', p, n) && NodeOk(s, p, s.nodes[p]) && NodeOk(s, n, s.nodes[n])
    requires Queued(s.nodes[p].pc) && |s'.events| >= |s.events|
    ensures NodeOk(s', n, s'.nodes[n]) && NodeOk(s', p, s'.nodes[p])
  {
    hide PairOk;
  }

  lemma LinkingKeepsNodes(s: State, s': State, p: nat, n: nat)
    requires Inv(s) && Linking(s, s', p, n) && InPlace(s, s', n) && OwnEvent(s, s', n)
    requires PairOk(p, s.nodes[p], n, s.nodes[n], s.events) && Queued(s.nodes[p].pc)
    ensures NodesOk(s')
  {
    hide NodeOk, PairOk, SameRole, PairsOk, EndsOk, QueueOk;
    InPlaceKeepsEvents(s, s', n);
    LinkingKeepsRoles(s, s', p, n);
    AllSameRole(s, s', p, n);
    forall x | 0 <= x < |s'.nodes| ensures NodeOk(s', x, s'.nodes[x]) {
      assert NodeOk(s, x, s.nodes[x]);
      if x == n || x == p {
        assert NodeOk(s, n, s.nodes[n]) && NodeOk(s, p, s.nodes[p]);
        LinkingNodesOk(s, s', p, n);
      } else {
        RolesKept(s, s', x);
      }
    }
  }

  lemma LinkingKeepsInv(s: State, s': State, p: nat, n: nat, i: nat)
    requires Inv(s) && Linking(s, s', p, n)
    requires i + 1 < |s.queue| && s.queue[i] == p && s.queue[i + 1] == n
    requires s.nodes[n].pc.SignalNext? ==> Holding(s.nodes[p].pc)
    requires PairOk(p, s.nodes[p], n, s.nodes[n], s.events) && Queued(s.nodes[p].pc)
    ensures Inv(s')
  {
    LinkingIsInPlace(s, s', p, n);
    if s.nodes[n].pc.SignalNext? { HolderIsHead(s, p); }
    hide InPlace, Linking, PairOk, OwnEvent;
    InPlaceKeepsQueue(s, s', n);
    LinkingKeepsPairs(s, s', p, n, i);
    LinkingKeepsEnds(s, s', p, n, i);
    LinkingKeepsNodes(s, s', p, n);
  }

  lemma LinkingIsInPlace(s: State, s': State, p: nat, n: nat)
    requires Linking(s, s', p, n)
    ensures InPlace(s, s', n) && OwnEvent(s, s', n)
  {
    hide PairOk, EventsKept;
  }

  /** A node that is linking itself has a predecessor, and relates to it as it believes. */
  lemma PredecessorOf(s: State, n: nat) returns (p: nat, i: nat)
    requires Inv(s) && n < |s.nodes|
    requires s.nodes[n].pc.Link? || s.nodes[n].pc.SetNext? || s.nodes[n].pc.SignalNext?
    ensures i + 1 < |s.queue| && s.queue[i] == p && s.queue[i + 1] == n
    ensures p < |s.nodes| && p != n && Queued(s.nodes[p].pc)
    ensures PairOk(p, s.nodes[p], n, s.nodes[n], s.events)
    ensures s.nodes[n].pc.Link? ==> s.nodes[n].pc.pred == p
    ensures s.nodes[n].pc.SetNext? ==> s.nodes[n].pc.pred == p
    ensures s.nodes[n].pc.SignalNext? ==> Holding(s.nodes[p].pc)
  {
    var k := IndexOf(s, n);
    hide FlagOk;
    assert k > 0;
    i := k - 1;
    p := s.queue[i];
    assert PairOk(s.queue[i], s.nodes[s.queue[i]], s.queue[i + 1], s.nodes[s.queue[i + 1]], s.events);
    assert s.nodes[n].pc.SignalNext? ==> AwaitsNext(s.nodes[p].pc) by { SignallingMeansWaiting(p, s.nodes[p], n, s.nodes[n], s.events); }
  }

  lemma SignallingMeansWaiting(p: nat, pn: Node, m: nat, mn: Node, events: seq<Event>)
    requires PairOk(p, pn, m, mn, events)
    ensures mn.pc.SignalNext? ==> AwaitsNext(pn.pc) && WaitOf(pn.pc) == WaitEvent(mn.pc.e)
  {
  }

  lemma LinkStep(p: nat, pn: Node, n: nat, node: Node, events: seq<Event>)
    requires PairOk(p, pn, n, node, events) && node.pc.Link?
    ensures PairOk(p, pn.(next := To(n)), n, node.(pc := SetNext(p)), events)
  {
  }

  lemma LinkKeepsInv(s: State, n: nat)
    requires Inv(s) && n < |s.nodes| && s.nodes[n].pc.Link?
    ensures Inv(AcquireStep(s, n))
  {
    hide Inv, PairOk;
    var s' := AcquireStep(s, n);
    var p, i := PredecessorOf(s, n);
    LinkStep(p, s.nodes[p], n, s.nodes[n], s.events);
    EventsUnchanged(s, s', p);
    LinkingKeepsInv(s, s', p, n, i);
  }

  lemma EventsUnchanged(s: State, s': State, p: nat)
    requires Inv(s) && s'.events == s.events
    ensures EventsKept(s, s', p)
  {
    forall x | 0 <= x < |s.nodes| && HasEvent(s.nodes[x].pc) ensures EventOf(s.nodes[x].pc) < |s.events| {
      assert NodeOk(s, x, s.nodes[x]);
    }
  }

  lemma SetNextStep(p: nat, pn: Node, n: nat, node: Node, events: seq<Event>)
    requires PairOk(p, pn, n, node, events) && node.pc.SetNext?
    ensures PairOk(p, pn.(nextFlag := FlagSet(pn.nextFlag)), n,
      node.(pc := if pn.nextFlag.Handle? then SignalNext(pn.nextFlag.e) else AwaitReady(ReadFlag)), events)
  {
    FlagSetKeepsFlag(pn.nextFlag, AwaitsNext(pn.pc), WaitOf(pn.pc), events);
  }

  lemma SetNextKeepsInv(s: State, n: nat)
    requires Inv(s) && n < |s.nodes| && s.nodes[n].pc.SetNext?
    ensures Inv(AcquireStep(s, n))
  {
    hide Inv, PairOk, FlagSet;
    var s' := AcquireStep(s, n);
    var p, i := PredecessorOf(s, n);
    SetNextStep(p, s.nodes[p], n, s.nodes[n], s.events);
    EventsUnchanged(s, s', p);
    LinkingKeepsInv(s, s', p, n, i);
  }

  lemma SignalNextStep(p: nat, pn: Node, n: nat, node: Node, events: seq<Event>)
    requires PairOk(p, pn, n, node, events) && node.pc.SignalNext?
    ensures PairOk(p, pn, n, node.(pc := AwaitReady(ReadFlag)), SetEvent(events, node.pc.e))
  {
    SetEventKeepsFlag(pn.nextFlag, node.pc.e, AwaitsNext(pn.pc), WaitOf(pn.pc), events);
  }

  /** Setting the event of one waiter is not noticed by any other. */
  lemma SetEventKeepsOthers(s: State, s': State, p: nat, e: nat)
    requires Inv(s) && s'.events == SetEvent(s.events, e)
    requires p < |s.nodes| && HasEvent(s.nodes[p].pc) && EventOf(s.nodes[p].pc) == e
    ensures EventsKept(s, s', p)
  {
    forall x | 0 <= x < |s.nodes| && x != p && HasEvent(s.nodes[x].pc)
      ensures EventOf(s.nodes[x].pc) < |s.events| && EventOf(s.nodes[x].pc) < |s'.events|
      ensures s'.events[EventOf(s.nodes[x].pc)] == s.events[EventOf(s.nodes[x].pc)]
    {
      assert NodeOk(s, x, s.nodes[x]);
      assert EventOf(s.nodes[x].pc) != e;
    }
  }

  lemma SignalNextKeepsInv(s: State, n: nat)
    requires Inv(s) && n < |s.nodes| && s.nodes[n].pc.SignalNext?
    ensures Inv(AcquireStep(s, n))
  {
    hide Inv, PairOk, SetEvent;
    var s' := AcquireStep(s, n);
    var p, i := PredecessorOf(s, n);
    SignallingMeansWaiting(p, s.nodes[p], n, s.nodes[n], s.events);
    SignalNextStep(p, s.nodes[p], n, s.nodes[n], s.events);
    SetEventKeepsOthers(s, s', p, s.nodes[n].pc.e);
    LinkingKeepsInv(s, s', p, n, i);
  }

  // ---- steps of nodes outside the queue ----

  /** A node that is in nobody's way is taken into use or given up. */
  lemma OutsideKeepsInv(s: State, n: nat, x: Node)
    requires Inv(s) && n < |s.nodes|
    requires s.nodes[n].pc.Free? || s.nodes[n].pc.TryCas?
    requires x == Fresh(Exchange) || x == Fresh(TryCas) || x == s.nodes[n].(pc := Free)
    ensures Inv(s.(nodes := s.nodes[n := x]))
  {
    assert NodeOk(s, n, s.nodes[n]);
    hide PairsOk, EndsOk, HeadOk;
    OutsideKeepsQueue(s, n, x);
    OutsideNotQueued(s, n);
    SamePairs(s, s.(nodes := s.nodes[n := x]));
    SameEnds(s, s.(nodes := s.nodes[n := x]));
    OutsideKeepsNodes(s, n, x);
  }

  /** A step that does not touch the members of the queue. */
  ghost predicate MembersKept(s: State, s': State) {
    && |s'.nodes| == |s.nodes| && s'.queue == s.queue && s'.events == s.events
    && forall i :: 0 <= i < |s.queue| && s.queue[i] < |s.nodes| ==> s'.nodes[s.queue[i]] == s.nodes[s.queue[i]]
  }

  lemma SamePairs(s: State, s': State)
    requires QueueOk(s) && QueueOk(s') && PairsOk(s) && MembersKept(s, s')
    ensures PairsOk(s')
  {
    hide PairOk;
    forall j | 0 <= j < |s'.queue| - 1
      ensures PairOk(s'.queue[j], s'.nodes[s'.queue[j]], s'.queue[j + 1], s'.nodes[s'.queue[j + 1]], s'.events)
    {
      assert PairOk(s.queue[j], s.nodes[s.queue[j]], s.queue[j + 1], s.nodes[s.queue[j + 1]], s.events);
    }
  }

  lemma SameEnds(s: State, s': State)
    requires QueueOk(s) && QueueOk(s') && EndsOk(s) && NodesOk(s) && MembersKept(s, s') && s'.passing == s.passing
    requires s.passing.To? && s.passing.n < |s.nodes| ==> s'.nodes[s.passing.n] == s.nodes[s.passing.n]
    ensures EndsOk(s')
  {
    hide HeadOk, LastOk, NodeOk;
    PhaseKept(s, s');
  }

  lemma OutsideNotQueued(s: State, n: nat)
    requires QueueOk(s) && n < |s.nodes| && !Queued(s.nodes[n].pc)
    ensures forall i :: 0 <= i < |s.queue| ==> s.queue[i] != n
  {
  }

  lemma OutsideKeepsQueue(s: State, n: nat, x: Node)
    requires QueueOk(s) && n < |s.nodes| && !Queued(s.nodes[n].pc) && !Queued(x.pc)
    ensures QueueOk(s.(nodes := s.nodes[n := x]))
  {
    OutsideNotQueued(s, n);
  }

  lemma OutsideKeepsNodes(s: State, n: nat, x: Node)
    requires NodesOk(s) && n < |s.nodes|
    requires s.nodes[n].pc.Free? || s.nodes[n].pc.TryCas?
    requires x == Fresh(Exchange) || x == Fresh(TryCas) || x == s.nodes[n].(pc := Free)
    ensures NodesOk(s.(nodes := s.nodes[n := x]))
  {
    var s' := s.(nodes := s.nodes[n := x]);
    AllSameRole(s, s', n, n);
    hide SameRole;
    forall y | 0 <= y < |s'.nodes| ensures NodeOk(s', y, s'.nodes[y]) {
      assert NodeOk(s, y, s.nodes[y]);
      if y != n { RolesKept(s, s', y); }
    }
  }

  lemma RelSignalKeepsInv(s: State, n: nat)
    requires Inv(s) && n < |s.nodes| && s.nodes[n].pc.RelSignal?
    ensures Inv(ReleaseStep(s, n))
  {
    hide NodeOk, PairOk, HeadOk, LastOk, FlagOk, PairsOk, EndsOk, SetEvent;
    HeadAwaitsSignal(s, n);
    SignalKeepsNodes(s, n);
    OutsideKeepsQueue(s, n, s.nodes[n].(pc := Free));
    SetEventKeepsOthers(s, ReleaseStep(s, n), s.queue[0], s.nodes[n].pc.e);
    SignalKeepsEnds(s, n);
    SignalKeepsPairs(s, ReleaseStep(s, n), n, s.queue[0]);
  }

  lemma SignalKeepsEnds(s: State, n: nat)
    requires Inv(s) && n < |s.nodes| && s.nodes[n].pc.RelSignal? && QueueOk(ReleaseStep(s, n))
    ensures EndsOk(ReleaseStep(s, n))
  {
    HeadAwaitsSignal(s, n);
    OutsideNotQueued(s, n);
    hide NodesOk, PairsOk, HeadOk, LastOk, SetEvent;
    HeadSignalled(s.nodes[s.queue[0]], s.nodes[n].pc.e, s.events);
  }

  lemma HeadAwaitsSignal(s: State, n: nat)
    requires Inv(s) && n < |s.nodes| && s.nodes[n].pc.RelSignal?
    ensures s.passing == To(n) && ReadyPhase(s) == Signalling(s.nodes[n].pc.e)
    ensures s.queue != [] && s.nodes[s.queue[0]].pc == AwaitReady(WaitEvent(s.nodes[n].pc.e))
  {
    assert NodeOk(s, n, s.nodes[n]);
    HandOverMeans(s);
  }

  lemma HeadSignalled(hn: Node, e: nat, events: seq<Event>)
    requires HeadOk(Signalling(e), hn, events)
    ensures HeadOk(After, hn, SetEvent(events, e))
  {
    SetEventKeepsFlag(hn.readyFlag, e, true, WaitOf(hn.pc), events);
  }

  lemma SignalKeepsPairs(s: State, s': State, n: nat, h: nat)
    requires Inv(s) && n < |s.nodes| == |s'.nodes| && !Queued(s.nodes[n].pc) && EventsKept(s, s', h)
    requires s.queue != [] && h == s.queue[0] && s.nodes[h].pc.AwaitReady?
    requires s' == s.(nodes := s'.nodes, events := s'.events, passing := Null) && s'.nodes == s.nodes[n := s'.nodes[n]]
    requires QueueOk(s')
    ensures PairsOk(s')
  {
    hide PairOk, NodesOk, EndsOk;
    OutsideNotQueued(s, n);
    forall j | 0 <= j < |s'.queue| - 1
      ensures PairOk(s'.queue[j], s'.nodes[s'.queue[j]], s'.queue[j + 1], s'.nodes[s'.queue[j + 1]], s'.events)
    {
      var a, b := s.queue[j], s.queue[j + 1];
      assert PairOk(a, s.nodes[a], b, s.nodes[b], s.events);
      PairFrame(a, s.nodes[a], b, s.nodes[b], s.events, s'.nodes[a], s'.nodes[b], s'.events);
    }
  }

  lemma SignalKeepsNodes(s: State, n: nat)
    requires NodesOk(s) && n < |s.nodes| && s.nodes[n].pc.RelSignal?
    ensures NodesOk(ReleaseStep(s, n))
  {
    var s' := ReleaseStep(s, n);
    AllSameRole(s, s', n, n);
    hide SameRole;
    assert NodeOk(s, n, s.nodes[n]);
    forall y | 0 <= y < |s'.nodes| ensures NodeOk(s', y, s'.nodes[y]) {
      assert NodeOk(s, y, s.nodes[y]);
      if y != n { RolesKept(s, s', y); }
    }
  }

  // ---- the holder and the node it transfers to ----

  /** The holder n moves on, and the node outside the queue it transfers to changes too. */
  lemma TransferMoves(s: State, s': State, n: nat, to: nat)
    requires Inv(s) && n < |s.nodes| && to < |s.nodes| == |s'.nodes| && n != to
    requires s' == s.(nodes := s'.nodes) && s'.nodes == s.nodes[to := s'.nodes[to]][n := s'.nodes[n]]
    requires s'.nodes[n] == s.nodes[n].(pc := s'.nodes[n].pc)
    requires Holding(s.nodes[n].pc) && Holding(s'.nodes[n].pc) && !HasEvent(s'.nodes[n].pc)
    requires s.nodes[to].pc.Free? || s.nodes[to].pc == Target(n)
    requires s'.nodes[to].pc.Target?
    requires |s.queue| > 1 && s.queue[1] < |s.nodes| ==>
      PairOk(n, s'.nodes[n], s.queue[1], s.nodes[s.queue[1]], s.events)
    requires |s.queue| == 1 ==> LastOk(s'.nodes[n])
    requires NodeOk(s', n, s'.nodes[n]) && NodeOk(s', to, s'.nodes[to])
    requires TransferPc(s.nodes[n].pc) ==> TransferTo(s.nodes[n].pc) == to
    ensures Inv(s')
  {
    HolderIsHead(s, n);
    TransferKeepsQueue(s, s', n, to);
    TransferKeepsNodes(s, s', n, to);
    hide PairOk, HeadOk, LastOk, NodeOk, Holding, Queued, NodesOk, PairsOk;
    QueueDistinct(s);
    TransferKeepsPairs(s, s', n, to);
    HolderHeadOk(s, s', n);
  }

  lemma TransferKeepsPairs(s: State, s': State, n: nat, to: nat)
    requires QueueOk(s) && QueueOk(s') && PairsOk(s) && n < |s.nodes| && to < |s.nodes| == |s'.nodes| && n != to
    requires s' == s.(nodes := s'.nodes) && s'.nodes == s.nodes[to := s'.nodes[to]][n := s'.nodes[n]]
    requires s.queue != [] && s.queue[0] == n && forall i :: 0 <= i < |s.queue| ==> s.queue[i] != to
    requires |s.queue| > 1 && s.queue[1] < |s.nodes| ==>
      PairOk(n, s'.nodes[n], s.queue[1], s.nodes[s.queue[1]], s.events)
    ensures PairsOk(s')
  {
    hide PairOk, Queued;
    forall j | 0 <= j < |s'.queue| - 1
      ensures PairOk(s'.queue[j], s'.nodes[s'.queue[j]], s'.queue[j + 1], s'.nodes[s'.queue[j + 1]], s'.events)
    {
      assert PairOk(s.queue[j], s.nodes[s.queue[j]], s.queue[j + 1], s.nodes[s.queue[j + 1]], s.events);
    }
  }

  lemma TransferKeepsQueue(s: State, s': State, n: nat, to: nat)
    requires QueueOk(s) && n < |s.nodes| && to < |s.nodes| == |s'.nodes| && n != to
    requires s' == s.(nodes := s'.nodes) && s'.nodes == s.nodes[to := s'.nodes[to]][n := s'.nodes[n]]
    requires s'.nodes[n] == s.nodes[n].(pc := s'.nodes[n].pc)
    requires Queued(s.nodes[n].pc) && Queued(s'.nodes[n].pc) && !Queued(s.nodes[to].pc) && !Queued(s'.nodes[to].pc)
    ensures QueueOk(s') && forall i :: 0 <= i < |s.queue| ==> s.queue[i] != to
  {
    OutsideNotQueued(s, to);
  }

  lemma TransferKeepsNodes(s: State, s': State, n: nat, to: nat)
    requires NodesOk(s) && n < |s.nodes| && to < |s.nodes| == |s'.nodes| && n != to
    requires s' == s.(nodes := s'.nodes) && s'.nodes == s.nodes[to := s'.nodes[to]][n := s'.nodes[n]]
    requires !HasEvent(s'.nodes[n].pc) && s'.nodes[to].pc.Target?
    requires s.nodes[to].pc.Free? || s.nodes[to].pc == Target(n)
    requires NodeOk(s', n, s'.nodes[n]) && NodeOk(s', to, s'.nodes[to])
    requires !s.nodes[n].pc.Target? && (TransferPc(s.nodes[n].pc) ==> TransferTo(s.nodes[n].pc) == to)
    ensures NodesOk(s')
  {
    forall x | 0 <= x < |s'.nodes| ensures NodeOk(s', x, s'.nodes[x]) {
      if x != n && x != to { BystanderOk(s, s', n, to, x); }
    }
  }

  lemma BystanderOk(s: State, s': State, n: nat, to: nat, x: nat)
    requires NodesOk(s) && n < |s.nodes| && to < |s.nodes| == |s'.nodes| && x < |s.nodes| && x != n && x != to
    requires s' == s.(nodes := s'.nodes) && s'.nodes == s.nodes[to := s'.nodes[to]][n := s'.nodes[n]]
    requires s.nodes[to].pc.Free? || s.nodes[to].pc == Target(n)
    requires !s.nodes[n].pc.Target? && (TransferPc(s.nodes[n].pc) ==> TransferTo(s.nodes[n].pc) == to)
    ensures NodeOk(s', x, s'.nodes[x])
  {
    assert NodeOk(s, x, s.nodes[x]);
  }

  lemma TrCopyNextKeepsInv(s: State, n: nat)
    requires Inv(s) && n < |s.nodes| && s.nodes[n].pc.TrCopyNext?
    ensures Inv(TransferStep(s, n))
  {
    var s', to := TransferStep(s, n), s.nodes[n].pc.to;
    assert NodeOk(s, n, s.nodes[n]) && NodeOk(s, to, s.nodes[to]);
    HolderIsHead(s, n);
    FirstPair(s, n);
    hide Inv;
    TransferMoves(s, s', n, to);
  }

  lemma CallTransferKeepsInv(s: State, n: nat, to: nat)
    requires Inv(s) && n < |s.nodes| && s.nodes[n].pc.Owner? && to < |s.nodes| && s.nodes[to].pc.Free?
    ensures Inv(Step(s, n, CallTransfer(to)))
  {
    var s' := Step(s, n, CallTransfer(to));
    assert NodeOk(s, n, s.nodes[n]) && NodeOk(s, to, s.nodes[to]);
    HolderIsHead(s, n);
    FirstPair(s, n);
    hide Inv;
    TransferMoves(s, s', n, to);
  }

  // ---- the queue changes ----

  lemma EnqueueKeepsQueue(s: State, n: nat, pc: Pc)
    requires QueueOk(s) && n < |s.nodes| && !Queued(s.nodes[n].pc) && Queued(pc)
    ensures QueueOk(Enqueue(s, n, pc))
  {
    OutsideNotQueued(s, n);
  }

  /** The former last member and the new one. */
  lemma EnqueuePair(p: nat, pn: Node, n: nat, node: Node, events: seq<Event>)
    requires LastOk(pn) && node.pc == Link(p) && node.readyFlag == Zero
    ensures PairOk(p, pn, n, node, events)
  {
  }

  lemma EnqueueKeepsPairs(s: State, n: nat)
    requires Inv(s) && n < |s.nodes| && s.nodes[n].pc.Exchange? && s.tail.To?
    requires QueueOk(Enqueue(s, n, Link(s.tail.n)))
    ensures PairsOk(Enqueue(s, n, Link(s.tail.n)))
  {
    var s' := Enqueue(s, n, Link(s.tail.n));
    assert NodeOk(s, n, s.nodes[n]);
    OutsideNotQueued(s, n);
    hide PairOk, LastOk, NodesOk, HeadOk;
    forall j | 0 <= j < |s'.queue| - 1
      ensures PairOk(s'.queue[j], s'.nodes[s'.queue[j]], s'.queue[j + 1], s'.nodes[s'.queue[j + 1]], s'.events)
    {
      if j + 1 < |s.queue| {
        assert PairOk(s.queue[j], s.nodes[s.queue[j]], s.queue[j + 1], s.nodes[s.queue[j + 1]], s.events);
      } else {
        EnqueuePair(s.queue[j], s.nodes[s.queue[j]], n, s'.nodes[n], s.events);
      }
    }
  }

  lemma EnqueueKeepsNodes(s: State, n: nat, pc: Pc)
    requires NodesOk(s) && n < |s.nodes| && (s.nodes[n].pc.Exchange? || s.nodes[n].pc.TryCas?)
    requires pc.Link? || pc.Owner?
    ensures NodesOk(Enqueue(s, n, pc))
  {
    var s' := Enqueue(s, n, pc);
    AllSameRole(s, s', n, n);
    hide SameRole;
    assert NodeOk(s, n, s.nodes[n]);
    forall y | 0 <= y < |s'.nodes| ensures NodeOk(s', y, s'.nodes[y]) {
      assert NodeOk(s, y, s.nodes[y]);
      if y != n { RolesKept(s, s', y); }
    }
  }

  lemma EnqueueKeepsInv(s: State, n: nat)
    requires Inv(s) && n < |s.nodes| && (s.nodes[n].pc.Exchange? || s.nodes[n].pc.TryCas?)
    ensures s.tail == Null ==> Inv(Enqueue(s, n, Owner))
    ensures s.tail.To? && s.nodes[n].pc.Exchange? ==> Inv(Enqueue(s, n, Link(s.tail.n)))
  {
    HandOverMeans(s);
    assert NodeOk(s, n, s.nodes[n]);
    if s.tail == Null {
      hide PairOk;
      EnqueueKeepsQueue(s, n, Owner);
      EnqueueKeepsNodes(s, n, Owner);
    } else if s.nodes[n].pc.Exchange? {
      EnqueueKeepsQueue(s, n, Link(s.tail.n));
      EnqueueKeepsNodes(s, n, Link(s.tail.n));
      EnqueueKeepsPairs(s, n);
      EnqueueKeepsEnds(s, n);
    }
  }

  lemma EnqueueKeepsEnds(s: State, n: nat)
    requires Inv(s) && n < |s.nodes| && s.nodes[n].pc.Exchange? && s.tail.To?
    requires QueueOk(Enqueue(s, n, Link(s.tail.n)))
    ensures EndsOk(Enqueue(s, n, Link(s.tail.n)))
  {
    var s' := Enqueue(s, n, Link(s.tail.n));
    assert NodeOk(s, n, s.nodes[n]);
    OutsideNotQueued(s, n);
    PhaseKept(s, s');
    hide HeadOk, PairOk;
    assert s'.queue[0] == s.queue[0];
  }

  lemma RelCasKeepsInv(s: State, n: nat)
    requires Inv(s) && n < |s.nodes| && s.nodes[n].pc.RelCas?
    ensures Inv(ReleaseStep(s, n))
  {
    if s.tail != To(n) {
      RelCasFailedKeepsInv(s, n);
    } else {
      HolderIsHead(s, n);
      TailIsNotHolder(s, n);
      LastReleaseKeepsNodes(s, n);
      hide NodeOk, PairOk, HeadOk, LastOk;
    }
  }

  lemma LastReleaseKeepsNodes(s: State, n: nat)
    requires NodesOk(s) && n < |s.nodes| && s.nodes[n].pc.RelCas? && s.tail == To(n) && s.passing == Null
    ensures NodesOk(ReleaseStep(s, n))
  {
    var s' := ReleaseStep(s, n);
    AllSameRole(s, s', n, n);
    hide SameRole;
    forall y | 0 <= y < |s'.nodes| ensures NodeOk(s', y, s'.nodes[y]) {
      assert NodeOk(s, y, s.nodes[y]);
      if y != n { RolesKept(s, s', y); }
    }
  }

  lemma InRest(q: seq<nat>, x: nat)
    requires q != [] && forall i :: 1 <= i < |q| ==> q[i] != q[0]
    ensures x in q[1..] <==> x in q && x != q[0]
  {
    assert q == [q[0]] + q[1..];
  }

  /** The holder hands the lock to m, its successor. */
  lemma PassKeepsQueue(s: State, n: nat, m: nat)
    requires QueueOk(s) && n < |s.nodes| && m < |s.nodes| && s.nodes[n].pc == RelPass(m)
    requires |s.queue| > 1 && s.queue[0] == n && s.queue[1] == m
    ensures QueueOk(ReleaseStep(s, n))
  {
    hide FlagSet;
    QueueDistinct(s);
    var s' := ReleaseStep(s, n);
    forall x | 0 <= x < |s'.nodes| ensures Queued(s'.nodes[x].pc) <==> x in s'.queue {
      assert Queued(s.nodes[x].pc) <==> x in s.queue;
      InRest(s.queue, x);
      if x != n && x != m { assert s'.nodes[x] == s.nodes[x]; }
    }
  }

  lemma PassKeepsPairs(s: State, n: nat, m: nat)
    requires Inv(s) && n < |s.nodes| && m < |s.nodes| && s.nodes[n].pc == RelPass(m)
    requires |s.queue| > 1 && s.queue[0] == n && s.queue[1] == m && QueueOk(ReleaseStep(s, n))
    ensures PairsOk(ReleaseStep(s, n))
  {
    var s' := ReleaseStep(s, n);
    QueueDistinct(s);
    QueueInRange(s);
    EventsUnchanged(s, s', n);
    hide PairOk, NodesOk, EndsOk, QueueOk;
    forall j | 0 <= j < |s'.queue| - 1
      ensures PairOk(s'.queue[j], s'.nodes[s'.queue[j]], s'.queue[j + 1], s'.nodes[s'.queue[j + 1]], s'.events)
    {
      var k := j + 1;
      var a, b := s.queue[k], s.queue[k + 1];
      assert PairOk(s.queue[k], s.nodes[s.queue[k]], s.queue[k + 1], s.nodes[s.queue[k + 1]], s.events);
      PairFrame(a, s.nodes[a], b, s.nodes[b], s.events, s'.nodes[a], s'.nodes[b], s'.events);
    }
  }

  /** The successor becomes the head, already signalled or about to be. */
  lemma PassedHead(p: nat, pn: Node, m: nat, mn: Node, events: seq<Event>)
    requires PairOk(p, pn, m, mn, events) && mn.pc.AwaitReady?
    ensures HeadOk(if mn.readyFlag.Handle? then Signalling(mn.readyFlag.e) else After,
                   mn.(readyFlag := FlagSet(mn.readyFlag)), events)
  {
    FlagSetKeepsFlag(mn.readyFlag, true, WaitOf(mn.pc), events);
  }

  lemma PassKeepsNodes(s: State, n: nat, m: nat)
    requires NodesOk(s) && n < |s.nodes| && m < |s.nodes| && n != m && s.nodes[n].pc == RelPass(m)
    requires s.nodes[m].pc.AwaitReady? && s.passing == Null
    ensures NodesOk(ReleaseStep(s, n))
  {
    var s' := ReleaseStep(s, n);
    AllSameRole(s, s', m, n);
    forall y | 0 <= y < |s'.nodes| ensures NodeOk(s', y, s'.nodes[y]) {
      assert NodeOk(s, y, s.nodes[y]);
      if y != n && y != m { hide SameRole, NodeOk; RolesKept(s, s', y); }
    }
  }

  lemma RelPassKeepsInv(s: State, n: nat)
    requires Inv(s) && n < |s.nodes| && s.nodes[n].pc.RelPass?
    ensures Inv(ReleaseStep(s, n))
  {
    HolderIsHead(s, n);
    FirstPair(s, n);
    var m := s.nodes[n].pc.succ;
    PassHasSuccessor(s, n);
    hide PairOk, HeadOk, NodeOk, PairsOk, NodesOk;
    QueueDistinct(s);
    PassKeepsQueue(s, n, m);
    PassKeepsPairs(s, n, m);
    PassKeepsNodes(s, n, m);
    PassKeepsEnds(s, n, m);
  }

  lemma PassHasSuccessor(s: State, n: nat)
    requires Inv(s) && n < |s.nodes| && s.nodes[n].pc.RelPass?
    ensures |s.queue| > 1 && s.queue[0] == n && s.queue[1] == s.nodes[n].pc.succ
    ensures s.nodes[n].pc.succ < |s.nodes| && s.nodes[s.nodes[n].pc.succ].pc.AwaitReady?
  {
    HolderIsHead(s, n);
    FirstPair(s, n);
  }

  lemma PassKeepsEnds(s: State, n: nat, m: nat)
    requires Inv(s) && n < |s.nodes| && m < |s.nodes| && s.nodes[n].pc == RelPass(m) && s.nodes[m].pc.AwaitReady?
    requires |s.queue| > 1 && s.queue[0] == n && s.queue[1] == m && QueueOk(ReleaseStep(s, n))
    ensures EndsOk(ReleaseStep(s, n))
  {
    HolderIsHead(s, n);
    FirstPair(s, n);
    QueueDistinct(s);
    hide PairOk, HeadOk, NodeOk, PairsOk, NodesOk, QueueOk;
    PassedHead(n, s.nodes[n], m, s.nodes[m], s.events);
    var s' := ReleaseStep(s, n);
    assert s'.queue[0] == m && s'.queue[|s'.queue| - 1] == s.queue[|s.queue| - 1];
  }

  // ---- the new node takes the old one's place ----

  ghost predicate Replaced(s: State, s': State, n: nat, to: nat) {
    && n < |s.nodes| && to < |s.nodes| == |s'.nodes| && n != to
    && s'.nodes == s.nodes[to := s'.nodes[to]][n := s'.nodes[n]]
    && s' == s.(nodes := s'.nodes, queue := s'.queue, tail := s'.tail)
    && s.queue != [] && s.queue[0] == n && s'.queue == s.queue[0 := to]
    && s'.tail == To(s'.queue[|s'.queue| - 1])
    && s'.nodes[n] == s.nodes[n].(pc := Free)
    && s'.nodes[to].pc == Owner && s'.nodes[to].ticket == s.nodes[n].ticket
    && Holding(s.nodes[n].pc) && TransferPc(s.nodes[n].pc) && TransferTo(s.nodes[n].pc) == to
    && s.nodes[to].pc == Target(n)
  }

  lemma ReplacedKeepsQueue(s: State, s': State, n: nat, to: nat)
    requires QueueOk(s) && Replaced(s, s', n, to)
    ensures QueueOk(s')
  {
    OutsideNotQueued(s, to);
    QueueDistinct(s);
    forall x | 0 <= x < |s'.nodes| ensures Queued(s'.nodes[x].pc) <==> x in s'.queue {
      assert Queued(s.nodes[x].pc) <==> x in s.queue;
      if x == to { assert s'.queue[0] == to; }
      else if x != n && x in s.queue {
        var i :| 0 <= i < |s.queue| && s.queue[i] == x;
        assert s'.queue[i] == x;
      }
    }
  }

  lemma ReplacedKeepsPairs(s: State, s': State, n: nat, to: nat)
    requires QueueOk(s) && PairsOk(s) && QueueOk(s') && Replaced(s, s', n, to)
    requires |s.queue| > 1 ==> PairOk(to, s'.nodes[to], s.queue[1], s.nodes[s.queue[1]], s.events)
    ensures PairsOk(s')
  {
    OutsideNotQueued(s, to);
    QueueDistinct(s);
    hide PairOk;
    forall j | 0 <= j < |s'.queue| - 1
      ensures PairOk(s'.queue[j], s'.nodes[s'.queue[j]], s'.queue[j + 1], s'.nodes[s'.queue[j + 1]], s'.events)
    {
      assert PairOk(s.queue[j], s.nodes[s.queue[j]], s.queue[j + 1], s.nodes[s.queue[j + 1]], s.events);
    }
  }

  lemma ReplacedKeepsNodes(s: State, s': State, n: nat, to: nat)
    requires NodesOk(s) && Replaced(s, s', n, to) && s.passing == Null
    ensures NodesOk(s')
  {
    forall x | 0 <= x < |s'.nodes| ensures NodeOk(s', x, s'.nodes[x]) {
      assert NodeOk(s, x, s.nodes[x]);
    }
  }

  lemma ReplacedKeepsInv(s: State, s': State, n: nat, to: nat)
    requires Inv(s) && Replaced(s, s', n, to)
    requires |s.queue| > 1 && s.queue[1] < |s.nodes| ==>
      PairOk(to, s'.nodes[to], s.queue[1], s.nodes[s.queue[1]], s.events)
    requires |s.queue| == 1 ==> LastOk(s'.nodes[to])
    ensures Inv(s')
  {
    HolderIsHead(s, n);
    hide PairOk, LastOk, HeadOk, NodeOk, Holding;
    OutsideNotQueued(s, to);
    QueueDistinct(s);
    ReplacedKeepsQueue(s, s', n, to);
    ReplacedKeepsPairs(s, s', n, to);
    ReplacedKeepsNodes(s, s', n, to);
    OwnerIsGoodHead(s', to);
  }

  lemma OwnerIsGoodHead(s: State, n: nat)
    requires n < |s.nodes| && s.nodes[n].pc.Owner? && s.passing == Null
    ensures HeadOk(ReadyPhase(s), s.nodes[n], s.events)
  {
  }

  lemma TrCasKeepsInv(s: State, n: nat)
    requires Inv(s) && n < |s.nodes| && s.nodes[n].pc.TrCas?
    ensures Inv(TransferStep(s, n))
  {
    if s.tail != To(n) {
      TrCasFailedKeepsInv(s, n);
    } else {
      HolderIsHead(s, n);
      TailIsNotHolder(s, n);
      var to := s.nodes[n].pc.to;
      assert NodeOk(s, n, s.nodes[n]) && NodeOk(s, to, s.nodes[to]);
      hide Inv, PairOk;
      ReplacedKeepsInv(s, TransferStep(s, n), n, to);
    }
  }

  lemma CopiedPair(n: nat, node: Node, to: nat, target: Node, m: nat, mn: Node, events: seq<Event>)
    requires PairOk(n, node, m, mn, events) && node.pc.TrCopyFlag? && target.next == node.next
    ensures PairOk(to, target.(pc := Owner, nextFlag := node.nextFlag, ticket := node.ticket), m, mn, events)
  {
  }

  lemma TrCopyFlagKeepsInv(s: State, n: nat)
    requires Inv(s) && n < |s.nodes| && s.nodes[n].pc.TrCopyFlag?
    ensures Inv(TransferStep(s, n))
  {
    HolderIsHead(s, n);
    FirstPair(s, n);
    TailIsNotHolder(s, n);
    var to := s.nodes[n].pc.to;
    assert NodeOk(s, n, s.nodes[n]) && NodeOk(s, to, s.nodes[to]);
    TailOf(s);
    hide Inv, PairOk;
    if |s.queue| > 1 { CopiedPair(n, s.nodes[n], to, s.nodes[to], s.queue[1], s.nodes[s.queue[1]], s.events); }
    ReplacedKeepsInv(s, TransferStep(s, n), n, to);
  }

  lemma TailOf(s: State)
    requires Inv(s) && s.queue != []
    ensures s.tail == To(s.queue[|s.queue| - 1])
  {
  }

  // ---- every step of every run ----

  lemma InitInv(n: nat)
    ensures Inv(Init(n))
  {
  }

  lemma AcquireKeepsInv(s: State, n: nat)
    requires Inv(s) && n < |s.nodes| && AcquirePc(s.nodes[n].pc)
    ensures Inv(AcquireStep(s, n))
  {
    hide Inv;
    match s.nodes[n].pc
    case Exchange => EnqueueKeepsInv(s, n);
    case Link(_) => LinkKeepsInv(s, n);
    case SetNext(_) => SetNextKeepsInv(s, n);
    case SignalNext(_) => SignalNextKeepsInv(s, n);
    case AwaitReady(_) => AwaitingKeepsInv(s, n);
    case TryCas =>
      EnqueueKeepsInv(s, n);
      OutsideKeepsInv(s, n, s.nodes[n].(pc := Free));
  }

  lemma ReleaseKeepsInv(s: State, n: nat)
    requires Inv(s) && n < |s.nodes| && ReleasePc(s.nodes[n].pc)
    ensures Inv(ReleaseStep(s, n))
  {
    hide Inv;
    match s.nodes[n].pc
    case RelRead => RelReadKeepsInv(s, n);
    case RelCas => RelCasKeepsInv(s, n);
    case RelAwait(_, _) => AwaitingKeepsInv(s, n);
    case RelNext => RelReadKeepsInv(s, n);
    case RelPass(_) => RelPassKeepsInv(s, n);
    case RelSignal(_) => RelSignalKeepsInv(s, n);
  }

  lemma TransferKeepsInv(s: State, n: nat)
    requires Inv(s) && n < |s.nodes| && TransferPc(s.nodes[n].pc)
    ensures Inv(TransferStep(s, n))
  {
    hide Inv;
    match s.nodes[n].pc
    case TrCas(_) => TrCasKeepsInv(s, n);
    case TrSpin(_) => TrSpinKeepsInv(s, n);
    case TrAwait(_, _) => AwaitingKeepsInv(s, n);
    case TrCopyNext(_) => TrCopyNextKeepsInv(s, n);
    case TrCopyFlag(_) => TrCopyFlagKeepsInv(s, n);
  }

  lemma StepKeepsInv(s: State, n: nat, m: Move)
    requires Inv(s)
    ensures Inv(Step(s, n, m))
  {
    hide Inv, AcquireStep, ReleaseStep, TransferStep;
    if n < |s.nodes| {
      var pc := s.nodes[n].pc;
      match m
      case Go =>
        if AcquirePc(pc) { AcquireKeepsInv(s, n); }
        else if ReleasePc(pc) { ReleaseKeepsInv(s, n); }
        else if TransferPc(pc) { TransferKeepsInv(s, n); }
      case CallAcquire => if pc.Free? { OutsideKeepsInv(s, n, Fresh(Exchange)); }
      case CallTry => if pc.Free? { OutsideKeepsInv(s, n, Fresh(TryCas)); }
      case CallRelease => if pc.Owner? { RelReadKeepsInv(s, n); }
      case CallTransfer(to) =>
        if pc.Owner? && to < |s.nodes| && s.nodes[to].pc.Free? { CallTransferKeepsInv(s, n, to); }
    }
  }

  lemma {:induction false} RunKeepsInv(s: State, schedule: seq<(nat, Move)>)
    requires Inv(s)
    ensures Inv(Run(s, schedule))
    decreases |schedule|
  {
    if schedule != [] {
      StepKeepsInv(s, schedule[0].0, schedule[0].1);
      RunKeepsInv(Step(s, schedule[0].0, schedule[0].1), schedule[1..]);
    }
  }

  // ---- the lock refines a ticket lock ----

  datatype Option<T> = None | Some(value: T)

  /** The reference: whoever comes gets the next ticket; the lock belongs to the ticket
      now served; leaving serves the next one; a ticket may be handed on. */
  datatype TicketLock = TicketLock(issued: nat, served: nat, tickets: seq<Option<nat>>)

  predicate Takes(a: TicketLock, b: TicketLock, n: nat) {
    n < |a.tickets| && a.tickets[n] == None
    && b == TicketLock(a.issued + 1, a.served, a.tickets[n := Some(a.issued)])
  }

  predicate Leaves(a: TicketLock, b: TicketLock, n: nat) {
    n < |a.tickets| && a.tickets[n] == Some(a.served)
    && b == TicketLock(a.issued, a.served + 1, a.tickets[n := None])
  }

  predicate HandsOn(a: TicketLock, b: TicketLock, n: nat, to: nat) {
    n < |a.tickets| && to < |a.tickets| && a.tickets[n] == Some(a.served) && a.tickets[to] == None
    && b == a.(tickets := a.tickets[n := None][to := Some(a.served)])
  }

  function TicketOf(node: Node): Option<nat> { if Queued(node.pc) then Some(node.ticket) else None }

  function Abstract(s: State): TicketLock {
    TicketLock(s.served + |s.queue|, s.served,
               seq(|s.nodes|, n requires 0 <= n < |s.nodes| => TicketOf(s.nodes[n])))
  }

  /** What a step of node n is for the ticket lock. */
  ghost predicate Refines(s: State, s': State, n: nat) {
    || Abstract(s') == Abstract(s)
    || Takes(Abstract(s), Abstract(s'), n)
    || Leaves(Abstract(s), Abstract(s'), n)
    || exists to :: HandsOn(Abstract(s), Abstract(s'), n, to)
  }

  lemma HolderIsServed(s: State, n: nat)
    requires Inv(s) && n < |s.nodes| && Holding(s.nodes[n].pc)
    ensures TicketOf(s.nodes[n]) == Some(s.served)
  {
    HolderIsHead(s, n);
  }

  lemma TakingRefines(s: State, n: nat, pc: Pc)
    requires n < |s.nodes| && !Queued(s.nodes[n].pc) && Queued(pc)
    ensures Takes(Abstract(s), Abstract(Enqueue(s, n, pc)), n)
  {
  }

  /** A step that changes nobody's ticket. */
  lemma TicketsKept(s: State, s': State, n: nat)
    requires |s'.nodes| == |s.nodes| && s'.served == s.served && |s'.queue| == |s.queue|
    requires forall x :: 0 <= x < |s.nodes| ==> TicketOf(s'.nodes[x]) == TicketOf(s.nodes[x])
    ensures Refines(s, s', n)
  {
    assert Abstract(s').tickets == Abstract(s).tickets;
  }

  lemma AcquireRefines(s: State, n: nat)
    requires Inv(s) && n < |s.nodes| && AcquirePc(s.nodes[n].pc)
    ensures Refines(s, AcquireStep(s, n), n)
  {
    var s' := AcquireStep(s, n);
    hide Inv, FlagWait, FlagSet, SetEvent, Abstract;
    if (s.nodes[n].pc.Exchange? || s.nodes[n].pc.TryCas?) && s'.queue != s.queue {
      TakingRefines(s, n, s'.nodes[n].pc);
    } else {
      TicketsKept(s, s', n);
    }
  }

  /** A step in which only n's ticket disappears, and it is the one being served. */
  lemma LeavingRefines(s: State, s': State, n: nat)
    requires n < |s.nodes| == |s'.nodes| && s.queue != []
    requires TicketOf(s.nodes[n]) == Some(s.served) && TicketOf(s'.nodes[n]) == None
    requires forall x :: 0 <= x < |s.nodes| && x != n ==> TicketOf(s'.nodes[x]) == TicketOf(s.nodes[x])
    requires s'.served == s.served + 1 && s'.queue == s.queue[1..]
    ensures Leaves(Abstract(s), Abstract(s'), n)
  {
  }

  lemma RelPassRefines(s: State, n: nat)
    requires Inv(s) && n < |s.nodes| && s.nodes[n].pc.RelPass?
    ensures Refines(s, ReleaseStep(s, n), n)
  {
    PassHasSuccessor(s, n);
    HolderIsServed(s, n);
    QueueDistinct(s);
    hide Inv, Abstract, FlagSet;
    LeavingRefines(s, ReleaseStep(s, n), n);
  }

  lemma ReleaseRefines(s: State, n: nat)
    requires Inv(s) && n < |s.nodes| && ReleasePc(s.nodes[n].pc) && !s.nodes[n].pc.RelPass?
    ensures Refines(s, ReleaseStep(s, n), n)
  {
    var s' := ReleaseStep(s, n);
    if s.nodes[n].pc.RelCas? && s.tail == To(n) {
      HolderIsHead(s, n);
      HolderIsServed(s, n);
      hide Inv, Abstract;
      LeavingRefines(s, s', n);
    } else {
      hide Inv, FlagWait, SetEvent, Abstract;
      TicketsKept(s, s', n);
    }
  }

  lemma TransferRefines(s: State, n: nat)
    requires Inv(s) && n < |s.nodes| && TransferPc(s.nodes[n].pc)
    ensures Refines(s, TransferStep(s, n), n)
  {
    var s' := TransferStep(s, n);
    var to := TransferTo(s.nodes[n].pc);
    assert NodeOk(s, n, s.nodes[n]);
    HolderIsHead(s, n);
    HolderIsServed(s, n);
    hide Inv, FlagWait;
    if !Holding(s'.nodes[n].pc) {
      assert HandsOn(Abstract(s), Abstract(s'), n, to);
    } else {
      TicketsKept(s, s', n);
    }
  }

  lemma CallRefines(s: State, n: nat, m: Move)
    requires n < |s.nodes| && !m.Go?
    ensures Abstract(Step(s, n, m)) == Abstract(s)
  {
    assert Abstract(Step(s, n, m)).tickets == Abstract(s).tickets;
  }

  /** Every step of the MCS lock is a step of the ticket lock, or none. */
  lemma StepRefines(s: State, n: nat, m: Move)
    requires Inv(s)
    ensures Refines(s, Step(s, n, m), n)
  {
    hide Refines, AcquireStep, ReleaseStep, TransferStep, Inv, Abstract;
    if n >= |s.nodes| { StutterRefines(s, n); }
    else if !m.Go? { CallRefines(s, n, m); SameRefines(s, Step(s, n, m), n); }
    else if AcquirePc(s.nodes[n].pc) { AcquireRefines(s, n); }
    else if s.nodes[n].pc.RelPass? { RelPassRefines(s, n); }
    else if ReleasePc(s.nodes[n].pc) { ReleaseRefines(s, n); }
    else if TransferPc(s.nodes[n].pc) { TransferRefines(s, n); }
    else { StutterRefines(s, n); }
  }

  lemma StutterRefines(s: State, n: nat)
    ensures Refines(s, s, n)
  {
  }

  lemma SameRefines(s: State, s': State, n: nat)
    requires Abstract(s') == Abstract(s)
    ensures Refines(s, s', n)
  {
  }

  /** In every run at most one node holds the lock, it has the ticket now being served,
      and everybody else in the queue has a later one. */
  lemma OwnershipFollowsTickets(k: nat, schedule: seq<(nat, Move)>, n: nat, m: nat)
    ensures var s := Run(Init(k), schedule);
      n < |s.nodes| && m < |s.nodes| && n != m && Holding(s.nodes[n].pc) ==>
        && !Holding(s.nodes[m].pc)
        && s.nodes[n].ticket == s.served
        && (Queued(s.nodes[m].pc) ==> s.served < s.nodes[m].ticket < s.served + |s.queue|)
  {
    InitInv(k);
    RunKeepsInv(Init(k), schedule);
    var s := Run(Init(k), schedule);
    if n < |s.nodes| && m < |s.nodes| && n != m && Holding(s.nodes[n].pc) {
      HolderIsHead(s, n);
      FollowersWait(s);
      if Queued(s.nodes[m].pc) { var i := IndexOf(s, m); }
    }
  }

  // ---- node lifetime ----

  /** Other nodes whose fields the next operation of a node reads or writes. */
  function Accesses(pc: Pc): set<nat> {
    match pc
    case Link(pred) => {pred}
    case SetNext(pred) => {pred}
    case RelPass(succ) => {succ}
    case TrCas(to) => {to}
    case TrSpin(to) => {to}
    case TrAwait(_, to) => {to}
    case TrCopyNext(to) => {to}
    case TrCopyFlag(to) => {to}
    case _ => {}
  }

  /** No operation touches a node whose release or transfer has returned, or that is not
      yet in use: nodes may live on stacks and be used again at once. */
  lemma NoAccessAfterReturn(k: nat, schedule: seq<(nat, Move)>, n: nat, x: nat)
    ensures var s := Run(Init(k), schedule);
      n < |s.nodes| && x in Accesses(s.nodes[n].pc) ==> x < |s.nodes| && !s.nodes[x].pc.Free? && x != n
  {
    InitInv(k);
    RunKeepsInv(Init(k), schedule);
    var s := Run(Init(k), schedule);
    if n < |s.nodes| && x in Accesses(s.nodes[n].pc) {
      if s.nodes[n].pc.Link? || s.nodes[n].pc.SetNext? { var p, i := PredecessorOf(s, n); }
      else if s.nodes[n].pc.RelPass? { PassHasSuccessor(s, n); }
      else { assert NodeOk(s, n, s.nodes[n]); }
    }
  }

  function With(s: State, x: nat, v: Node): State
    requires x < |s.nodes|
  {
    s.(nodes := s.nodes[x := v])
  }

  /** Accesses lists all a step touches: whatever another node holds, the step does the
      same and leaves it as it is. */
  lemma OtherNodesDoNotMatter(s: State, n: nat, x: nat, v: Node)
    requires n < |s.nodes| && x < |s.nodes| && x != n && x !in Accesses(s.nodes[n].pc)
    ensures Step(With(s, x, v), n, Go) == With(Step(s, n, Go), x, v)
  {
    var pc := s.nodes[n].pc;
    if AcquirePc(pc) { AcquireLeavesOthers(s, n, x, v); }
    else if ReleasePc(pc) { ReleaseLeavesOthers(s, n, x, v); }
    else if TransferPc(pc) { TransferLeavesOthers(s, n, x, v); }
  }

  lemma AcquireLeavesOthers(s: State, n: nat, x: nat, v: Node)
    requires n < |s.nodes| && x < |s.nodes| && x != n && x !in Accesses(s.nodes[n].pc) && AcquirePc(s.nodes[n].pc)
    ensures AcquireStep(With(s, x, v), n) == With(AcquireStep(s, n), x, v)
  {
    assert AcquireStep(With(s, x, v), n).nodes == With(AcquireStep(s, n), x, v).nodes;
  }

  lemma ReleaseLeavesOthers(s: State, n: nat, x: nat, v: Node)
    requires n < |s.nodes| && x < |s.nodes| && x != n && x !in Accesses(s.nodes[n].pc) && ReleasePc(s.nodes[n].pc)
    ensures ReleaseStep(With(s, x, v), n) == With(ReleaseStep(s, n), x, v)
  {
    assert ReleaseStep(With(s, x, v), n).nodes == With(ReleaseStep(s, n), x, v).nodes;
  }

  lemma TransferLeavesOthers(s: State, n: nat, x: nat, v: Node)
    requires n < |s.nodes| && x < |s.nodes| && x != n && x !in Accesses(s.nodes[n].pc) && TransferPc(s.nodes[n].pc)
    ensures TransferStep(With(s, x, v), n) == With(TransferStep(s, n), x, v)
  {
    assert TransferStep(With(s, x, v), n).nodes == With(TransferStep(s, n), x, v).nodes;
  }

  /** Why a releaser waits for nextFlag even when it has seen its successor: in this run the
      releaser, node 0, knows node 1, and node 1 has yet to write node 0's nextFlag. Were
      the wait skipped, that write would come after the release had returned. */
  lemma KnownSuccessorMayStillWrite() returns (schedule: seq<(nat, Move)>)
    ensures var s := Run(Init(2), schedule);
      && |s.nodes| == 2
      && s.nodes[0].pc == RelAwait(ReadFlag, To(1)) && s.nodes[0].nextFlag == Zero
      && s.nodes[1].pc == SetNext(0) && 0 in Accesses(s.nodes[1].pc)
  {
    hide Run;
    var s0, o, l := Init(2), Node(Owner, Null, Zero, Zero, 0), Node(Link(0), Null, Zero, Zero, 1);
    var s4 := State(To(1), [o, l], [], [0, 1], 0, Null);
    schedule := [(1, Go), (0, CallRelease), (0, Go)];
    RunStep(s4, schedule);
    RunStep(Step(s4, 1, Go), schedule[1..]);
    RunStep(Step(Step(s4, 1, Go), 0, CallRelease), schedule[2..]);
    RunStep(Step(Step(Step(s4, 1, Go), 0, CallRelease), 0, Go), schedule[3..]);
    TwoCallers(schedule);
    schedule := [(0, CallAcquire), (0, Go), (1, CallAcquire), (1, Go)] + schedule;
  }

  lemma TwoCallers(rest: seq<(nat, Move)>)
    ensures var o, l := Node(Owner, Null, Zero, Zero, 0), Node(Link(0), Null, Zero, Zero, 1);
      Run(Init(2), [(0, CallAcquire), (0, Go), (1, CallAcquire), (1, Go)] + rest)
      == Run(State(To(1), [o, l], [], [0, 1], 0, Null), rest)
  {
    hide Run;
    var o, l := Node(Owner, Null, Zero, Zero, 0), Node(Link(0), Null, Zero, Zero, 1);
    var a := [(0, CallAcquire), (0, Go), (1, CallAcquire), (1, Go)] + rest;
    RunStep(Init(2), a);
    var s1 := State(Null, [Fresh(Exchange), Fresh(Free)], [], [], 0, Null);
    assert Step(Init(2), 0, CallAcquire) == s1;
    RunStep(s1, a[1..]);
    var s2 := State(To(0), [o, Fresh(Free)], [], [0], 0, Null);
    assert Step(s1, 0, Go) == s2;
    RunStep(s2, a[2..]);
    var s3 := State(To(0), [o, Fresh(Exchange)], [], [0], 0, Null);
    assert Step(s2, 1, CallAcquire) == s3;
    RunStep(s3, a[3..]);
    assert Step(s3, 1, Go) == State(To(1), [o, l], [], [0, 1], 0, Null);
    assert a[1..][1..] == a[2..] && a[2..][1..] == a[3..] && a[3..][1..] == rest;
  }

  lemma RunStep(s: State, schedule: seq<(nat, Move)>)
    ensures Run(s, schedule) == if schedule == [] then s else Run(Step(s, schedule[0].0, schedule[0].1), schedule[1..])
  {
  }

  /** An event is still open, and its waiter still waits for it, when it is set. */
  lemma SetEventsAreOpen(k: nat, schedule: seq<(nat, Move)>, n: nat)
    ensures var s := Run(Init(k), schedule);
      n < |s.nodes| && (s.nodes[n].pc.SignalNext? || s.nodes[n].pc.RelSignal?) ==>
        && Open(s.events, s.nodes[n].pc.e, Unset)
        && exists x :: 0 <= x < |s.nodes| && HasEvent(s.nodes[x].pc) && WaitOf(s.nodes[x].pc) == WaitEvent(s.nodes[n].pc.e)
  {
    InitInv(k);
    RunKeepsInv(Init(k), schedule);
    var s := Run(Init(k), schedule);
    if n < |s.nodes| && s.nodes[n].pc.SignalNext? {
      var p, i := PredecessorOf(s, n);
      SignallingMeansWaiting(p, s.nodes[p], n, s.nodes[n], s.events);
    } else if n < |s.nodes| && s.nodes[n].pc.RelSignal? {
      assert NodeOk(s, n, s.nodes[n]);
      HandOverMeans(s);
      assert HasEvent(s.nodes[s.queue[0]].pc);
    }
  }

  // ---- no wake-up is lost ----

  /** Blocked in flag_wait, on an event that is not set. */
  predicate Blocked(s: State, node: Node) {
    HasEvent(node.pc) && WaitOf(node.pc).WaitEvent? && Open(s.events, EventOf(node.pc), Unset)
  }

  /** The successor has still to set n's nextFlag, or to set the event it found there. */
  ghost predicate SuccessorWillSet(s: State, n: nat, e: nat) {
    && |s.queue| > 1 && s.queue[0] == n && s.queue[1] < |s.nodes|
    && var pc := s.nodes[s.queue[1]].pc; pc.Link? || pc.SetNext? || pc == SignalNext(e)
  }

  /** The predecessor is linked to n and has not yet handed the lock over, for which it will
      set n's readyFlag; there it will find the event. */
  ghost predicate PredecessorWillSet(s: State, n: nat, e: nat)
    requires n < |s.nodes|
  {
    && s.nodes[n].readyFlag == Handle(e)
    && exists i :: 0 <= i < |s.queue| - 1 && s.queue[i + 1] == n && s.queue[i] < |s.nodes|
         && Queued(s.nodes[s.queue[i]].pc) && s.nodes[s.queue[i]].next == To(n)
  }

  /** The node that has handed the lock to n has still to set the event it found. */
  ghost predicate FormerOwnerWillSet(s: State, n: nat, e: nat) {
    && s.queue != [] && s.queue[0] == n
    && s.passing.To? && s.passing.n < |s.nodes| && s.nodes[s.passing.n].pc == RelSignal(e)
  }

  /** A node blocked in flag_wait has a partner that has not yet finished its flag_set on
      that very flag: its successor, its predecessor in the queue, or the node that has
      just handed the lock over. */
  lemma BlockedHasPartner(k: nat, schedule: seq<(nat, Move)>, n: nat)
    ensures var s := Run(Init(k), schedule);
      n < |s.nodes| && Blocked(s, s.nodes[n]) ==>
        var e := EventOf(s.nodes[n].pc);
        if AwaitsNext(s.nodes[n].pc) then s.nodes[n].nextFlag == Handle(e) && SuccessorWillSet(s, n, e)
        else PredecessorWillSet(s, n, e) || FormerOwnerWillSet(s, n, e)
  {
    InitInv(k);
    RunKeepsInv(Init(k), schedule);
    var s := Run(Init(k), schedule);
    if n < |s.nodes| && Blocked(s, s.nodes[n]) {
      if AwaitsNext(s.nodes[n].pc) { NextWaiterHasPartner(s, n); } else { ReadyWaiterHasPartner(s, n); }
    }
  }

  lemma NextWaiterHasPartner(s: State, n: nat)
    requires Inv(s) && n < |s.nodes| && Blocked(s, s.nodes[n]) && AwaitsNext(s.nodes[n].pc)
    ensures var e := EventOf(s.nodes[n].pc); s.nodes[n].nextFlag == Handle(e) && SuccessorWillSet(s, n, e)
  {
    HolderIsHead(s, n);
    FirstPair(s, n);
    if |s.queue| > 1 { UnsetMeansNotAfter(s.nodes[n], s.queue[1], s.nodes[s.queue[1]], n, s.events); }
  }

  lemma ReadyWaiterHasPartner(s: State, n: nat)
    requires Inv(s) && n < |s.nodes| && Blocked(s, s.nodes[n]) && !AwaitsNext(s.nodes[n].pc)
    ensures var e := EventOf(s.nodes[n].pc); PredecessorWillSet(s, n, e) || FormerOwnerWillSet(s, n, e)
  {
    var i := IndexOf(s, n);
    if i == 0 {
      HandOverMeans(s);
    } else {
      PairAt(s, i - 1);
      assert 0 <= i - 1 < |s.queue| - 1 && s.queue[i - 1 + 1] == n;
    }
  }

  lemma PairAt(s: State, i: nat)
    requires Inv(s) && i < |s.queue| - 1
    ensures s.queue[i] < |s.nodes| && s.queue[i + 1] < |s.nodes| && Queued(s.nodes[s.queue[i]].pc)
    ensures PairOk(s.queue[i], s.nodes[s.queue[i]], s.queue[i + 1], s.nodes[s.queue[i + 1]], s.events)
  {
    assert s.queue[i] in s.queue;
  }

  lemma UnsetMeansNotAfter(pn: Node, m: nat, mn: Node, p: nat, events: seq<Event>)
    requires PairOk(p, pn, m, mn, events) && AwaitsNext(pn.pc) && WaitOf(pn.pc).WaitEvent?
    requires Open(events, WaitOf(pn.pc).e, Unset)
    ensures mn.pc.Link? || mn.pc.SetNext? || mn.pc == SignalNext(WaitOf(pn.pc).e)
  {
  }

  /** Flags that are set stay as they are. */
  ghost predicate FlagsKept(s: State, s': State) {
    && |s'.nodes| == |s.nodes|
    && forall x :: 0 <= x < |s.nodes| && !s.nodes[x].pc.Free? ==>
      && (s.nodes[x].nextFlag != Zero ==> s'.nodes[x].nextFlag == s.nodes[x].nextFlag)
      && (s.nodes[x].readyFlag != Zero ==> s'.nodes[x].readyFlag == s.nodes[x].readyFlag)
  }

  lemma AcquireKeepsFlags(s: State, n: nat)
    requires n < |s.nodes| && AcquirePc(s.nodes[n].pc)
    ensures FlagsKept(s, AcquireStep(s, n))
  {
    hide SetEvent;
  }

  lemma ReleaseKeepsFlags(s: State, n: nat)
    requires n < |s.nodes| && ReleasePc(s.nodes[n].pc)
    ensures FlagsKept(s, ReleaseStep(s, n))
  {
    hide SetEvent;
  }

  lemma TransferKeepsFlags(s: State, n: nat)
    requires Inv(s) && n < |s.nodes| && TransferPc(s.nodes[n].pc)
    ensures FlagsKept(s, TransferStep(s, n))
  {
    TargetFlagsAreZero(s, n);
    hide Inv;
  }

  /** A flag leaves 0 at most once per use of its node: once set it keeps its value until
      the node has been given up. */
  lemma FlagsAreSetOnce(s: State, n: nat, m: Move)
    requires Inv(s)
    ensures FlagsKept(s, Step(s, n, m))
  {
    hide Inv, AcquireStep, ReleaseStep, TransferStep;
    if n < |s.nodes| && m.Go? {
      if AcquirePc(s.nodes[n].pc) { AcquireKeepsFlags(s, n); }
      else if ReleasePc(s.nodes[n].pc) { ReleaseKeepsFlags(s, n); }
      else if TransferPc(s.nodes[n].pc) { TransferKeepsFlags(s, n); }
    }
  }

  lemma TargetFlagsAreZero(s: State, n: nat)
    requires Inv(s) && n < |s.nodes| && TransferPc(s.nodes[n].pc)
    ensures TransferTo(s.nodes[n].pc) < |s.nodes| && TransferTo(s.nodes[n].pc) != n
    ensures s.nodes[TransferTo(s.nodes[n].pc)].nextFlag == Zero
  {
    assert NodeOk(s, n, s.nodes[n]);
    assert NodeOk(s, TransferTo(s.nodes[n].pc), s.nodes[TransferTo(s.nodes[n].pc)]);
  }

  predicate CanGo(s: State, n: nat) { n < |s.nodes| && Step(s, n, Go) != s }

  /** The node cannot take a step: it is at rest, waits for an event that is not set, or
      spins for a link that is not there yet. */
  predicate Stuck(s: State, node: Node) {
    || node.pc.Free? || node.pc.Owner? || node.pc.Target?
    || (HasEvent(node.pc) && WaitOf(node.pc).WaitEvent? && !Open(s.events, EventOf(node.pc), Set))
    || (node.pc.TrSpin? && node.next == Null)
  }

  lemma UnstuckAcquirerCanGo(s: State, n: nat)
    requires Inv(s) && n < |s.nodes| && AcquirePc(s.nodes[n].pc) && !Stuck(s, s.nodes[n])
    ensures CanGo(s, n)
  {
    if s.nodes[n].pc.Link? || s.nodes[n].pc.SetNext? { var p, i := PredecessorOf(s, n); }
    hide Inv, SetEvent;
    assert AcquireStep(s, n).nodes[n].pc != s.nodes[n].pc;
  }

  /** The successor that a releaser reads after its wait is really there. */
  lemma NextIsKnown(s: State, n: nat)
    requires Inv(s) && n < |s.nodes| && s.nodes[n].pc.RelNext?
    ensures s.nodes[n].next != Null
  {
    HolderIsHead(s, n);
    FirstPair(s, n);
  }

  lemma UnstuckReleaserCanGo(s: State, n: nat)
    requires Inv(s) && n < |s.nodes| && ReleasePc(s.nodes[n].pc) && !Stuck(s, s.nodes[n])
    ensures CanGo(s, n)
  {
    hide Inv, SetEvent, FlagSet;
    if s.nodes[n].pc.RelPass? { PassHasSuccessor(s, n); }
    if s.nodes[n].pc.RelNext? { NextIsKnown(s, n); }
    assert ReleaseStep(s, n).nodes[n].pc != s.nodes[n].pc;
  }

  lemma UnstuckTransferrerCanGo(s: State, n: nat)
    requires Inv(s) && n < |s.nodes| && TransferPc(s.nodes[n].pc) && !Stuck(s, s.nodes[n])
    ensures CanGo(s, n)
  {
    TargetFlagsAreZero(s, n);
    hide Inv;
    assert TransferStep(s, n).nodes[n].pc != s.nodes[n].pc;
  }

  lemma UnstuckCanGo(s: State, n: nat)
    requires Inv(s) && n < |s.nodes| && !Stuck(s, s.nodes[n])
    ensures CanGo(s, n)
  {
    hide Inv, CanGo;
    if AcquirePc(s.nodes[n].pc) { UnstuckAcquirerCanGo(s, n); }
    else if ReleasePc(s.nodes[n].pc) { UnstuckReleaserCanGo(s, n); }
    else { UnstuckTransferrerCanGo(s, n); }
  }

  /** The lock never gets stuck: while anybody is in the queue, either the head owns the
      lock and has returned to its caller, or some node can take a step. */
  lemma NoDeadlock(s: State) returns (n: nat)
    requires Inv(s) && s.queue != []
    ensures n < |s.nodes|
    ensures s.nodes[n].pc.Owner? || CanGo(s, n)
  {
    n := s.queue[0];
    HandOverMeans(s);
    FirstPair(s, n);
    if Stuck(s, s.nodes[n]) && !s.nodes[n].pc.Owner? {
      if s.nodes[n].pc.TrSpin? || AwaitsNext(s.nodes[n].pc) {
        StuckOnSuccessor(s, n);
        n := s.queue[1];
      } else {
        n := s.passing.n;
        assert s.nodes[n].pc.RelSignal?;
      }
    }
    hide CanGo;
    if !s.nodes[n].pc.Owner? { UnstuckCanGo(s, n); }
  }

  lemma StuckOnSuccessor(s: State, n: nat)
    requires Inv(s) && s.queue != [] && s.queue[0] == n && Stuck(s, s.nodes[n])
    requires s.nodes[n].pc.TrSpin? || AwaitsNext(s.nodes[n].pc)
    ensures |s.queue| > 1 && s.queue[1] < |s.nodes| && !Stuck(s, s.nodes[s.queue[1]])
  {
    FirstPair(s, n);
    if |s.queue| > 1 { PairNotBothStuck(s, n, s.nodes[n], s.queue[1], s.nodes[s.queue[1]]); }
  }

  lemma PairNotBothStuck(s: State, p: nat, pn: Node, m: nat, mn: Node)
    requires PairOk(p, pn, m, mn, s.events) && Stuck(s, pn) && (pn.pc.TrSpin? || AwaitsNext(pn.pc))
    ensures !Stuck(s, mn)
  {
  }

  /** try_acquire succeeds exactly when the queue is empty. */
  lemma TryAcquireIffFree(s: State, n: nat)
    requires Inv(s) && n < |s.nodes| && s.nodes[n].pc.TryCas?
    ensures AcquireStep(s, n).nodes[n].pc.Owner? <==> s.queue == []
    ensures AcquireStep(s, n).nodes[n].pc.Free? <==> s.queue != []
  {
  }

  // ---- whole calls, with the other nodes' steps in between ----

  ghost predicate LeavesPc(s: State, s': State, n: nat) {
    n < |s.nodes| == |s'.nodes| && s'.nodes[n].pc == s.nodes[n].pc
  }

  lemma AcquireLeavesPc(s: State, x: nat, n: nat)
    requires x < |s.nodes| && n < |s.nodes| && x != n && AcquirePc(s.nodes[x].pc)
    ensures LeavesPc(s, AcquireStep(s, x), n)
  {
    hide FlagWait, FlagSet, SetEvent;
  }

  lemma ReleaseLeavesPc(s: State, x: nat, n: nat)
    requires x < |s.nodes| && n < |s.nodes| && x != n && ReleasePc(s.nodes[x].pc)
    ensures LeavesPc(s, ReleaseStep(s, x), n)
  {
    hide FlagWait, FlagSet, SetEvent, Rest;
  }

  lemma TransferLeavesPc(s: State, x: nat, n: nat)
    requires x < |s.nodes| && n < |s.nodes| && x != n && TransferPc(s.nodes[x].pc)
    requires TransferTo(s.nodes[x].pc) != n
    ensures LeavesPc(s, TransferStep(s, x), n)
  {
    hide FlagWait;
  }

  lemma CallLeavesPc(s: State, x: nat, m: Move, n: nat)
    requires x < |s.nodes| && n < |s.nodes| && x != n && !s.nodes[n].pc.Free? && !m.Go?
    ensures LeavesPc(s, Step(s, x, m), n)
  {
  }

  lemma TransferTarget(s: State, x: nat)
    requires Inv(s) && x < |s.nodes| && TransferPc(s.nodes[x].pc)
    ensures TransferTo(s.nodes[x].pc) < |s.nodes| && s.nodes[TransferTo(s.nodes[x].pc)].pc.Target?
  {
    assert NodeOk(s, x, s.nodes[x]);
  }

  /** A step of another node does not move a node that is in use. */
  lemma OthersLeavePc(s: State, x: nat, m: Move, n: nat)
    requires Inv(s) && n < |s.nodes| && x != n && !s.nodes[n].pc.Free? && !s.nodes[n].pc.Target?
    ensures LeavesPc(s, Step(s, x, m), n)
  {
    hide Inv, AcquireStep, ReleaseStep, TransferStep;
    if x < |s.nodes| {
      var pc := s.nodes[x].pc;
      if !m.Go? { CallLeavesPc(s, x, m, n); }
      else if AcquirePc(pc) { AcquireLeavesPc(s, x, n); }
      else if ReleasePc(pc) { ReleaseLeavesPc(s, x, n); }
      else if TransferPc(pc) {
        TransferTarget(s, x);
        TransferLeavesPc(s, x, n);
      }
    }
  }

  lemma StepKeepsSize(s: State, x: nat, m: Move)
    ensures |Step(s, x, m).nodes| == |s.nodes|
  {
  }

  lemma PredecessorExists(s: State, n: nat)
    requires Inv(s) && n < |s.nodes| && (s.nodes[n].pc.Link? || s.nodes[n].pc.SetNext?)
    ensures s.nodes[n].pc.pred < |s.nodes|
  {
    var i := IndexOf(s, n);
    if i > 0 { assert PairOk(s.queue[i - 1], s.nodes[s.queue[i - 1]], n, s.nodes[n], s.events); }
  }

  lemma TailMeansQueue(s: State)
    requires Inv(s)
    ensures s.tail == Null <==> s.queue == []
  {
  }

  lemma FreeIsOutside(s: State, n: nat)
    requires Inv(s) && n < |s.nodes| && s.nodes[n].pc.Free?
    ensures n !in s.queue
  {
  }

  predicate InFlagWait(pc: Pc) { pc.AwaitReady? || AwaitsNext(pc) }

  /** The flag that a node inside flag_wait waits on. */
  function OwnFlag(node: Node): Flag { if node.pc.AwaitReady? then node.readyFlag else node.nextFlag }

  /** The same flag_wait at another point. */
  function AtWait(pc: Pc, w: WaitPc): Pc {
    match pc
    case AwaitReady(_) => AwaitReady(w)
    case RelAwait(_, known) => RelAwait(w, known)
    case TrAwait(_, to) => TrAwait(w, to)
    case _ => pc
  }

  /** Where a node goes on after its flag_wait. */
  function Awaited(pc: Pc): Pc {
    match pc
    case AwaitReady(_) => Owner
    case RelAwait(_, known) => if known == Null then RelNext else RelPass(known.n)
    case TrAwait(_, to) => TrCopyNext(to)
    case _ => pc
  }

  lemma WaitGoes(s: State, n: nat)
    requires n < |s.nodes| && InFlagWait(s.nodes[n].pc)
    ensures var r := FlagWait(OwnFlag(s.nodes[n]), WaitOf(s.nodes[n].pc), s.events);
      var s' := Step(s, n, Go);
      && |s'.nodes| == |s.nodes| && s'.events == r.events
      && s'.nodes[n].pc == if r.done then Awaited(s.nodes[n].pc) else AtWait(s.nodes[n].pc, r.w)
  {
    hide FlagWait;
  }

  /** The node waits for an event that is not set, or spins for a link that is not there
      yet: its next operation leaves everything as it is. */
  ghost predicate Waits(s: State, n: nat) {
    && n < |s.nodes| && !CanGo(s, n)
    && (Blocked(s, s.nodes[n]) || (s.nodes[n].pc.TrSpin? && s.nodes[n].next == Null))
  }

  /** An event that is waited for is open. */
  lemma AwaitedEventIsOpen(s: State, n: nat)
    requires Inv(s) && n < |s.nodes| && InFlagWait(s.nodes[n].pc) && WaitOf(s.nodes[n].pc).WaitEvent?
    ensures var e := EventOf(s.nodes[n].pc); e < |s.events| && s.events[e] != Closed
  {
    if s.nodes[n].pc.AwaitReady? {
      var i := IndexOf(s, n);
      if i > 0 { assert PairOk(s.queue[i - 1], s.nodes[s.queue[i - 1]], n, s.nodes[n], s.events); }
    } else {
      HolderIsHead(s, n);
      FirstPair(s, n);
    }
  }

  lemma UnsetWaits(s: State, n: nat)
    requires Inv(s) && n < |s.nodes| && InFlagWait(s.nodes[n].pc) && WaitOf(s.nodes[n].pc).WaitEvent?
    requires !Open(s.events, EventOf(s.nodes[n].pc), Set)
    ensures Waits(s, n)
  {
    AwaitedEventIsOpen(s, n);
    hide Inv;
    assert Step(s, n, Go).nodes == s.nodes;
  }

  lemma NoLinkWaits(s: State, n: nat)
    requires n < |s.nodes| && s.nodes[n].pc.TrSpin? && s.nodes[n].next == Null
    ensures Waits(s, n)
  {
  }

  /** The others' steps of one turn, in their order. */
  function OthersRun(s: State, n: nat, turn: seq<(nat, Move)>): State {
    if turn == [] then s
    else
      var s', (x, m) := OthersRun(s, n, turn[..|turn| - 1]), turn[|turn| - 1];
      if x == n then s' else Step(s', x, m)
  }

  /** Nodes with the tickets that history gives them. */
  function Stamped(nodes: seq<Node>, tickets: map<nat, nat>): seq<Node> {
    seq(|nodes|, i requires 0 <= i < |nodes| => nodes[i].(ticket := TicketIn(tickets, i)))
  }

  function TicketIn(tickets: map<nat, nat>, n: nat): nat { if n in tickets then tickets[n] else 0 }

  lemma StampOne(nodes: seq<Node>, tickets: map<nat, nat>, n: nat, node: Node, k: nat)
    requires n < |nodes|
    ensures |Stamped(nodes, tickets)| == |nodes|
    ensures Stamped(nodes[n := node], tickets[n := k]) == Stamped(nodes, tickets)[n := node.(ticket := k)]
  {
  }

  lemma StampSize(nodes: seq<Node>, tickets: map<nat, nat>)
    ensures |Stamped(nodes, tickets)| == |nodes|
  {
  }

  lemma StampKeeps(nodes: seq<Node>, tickets: map<nat, nat>, n: nat)
    requires n < |nodes|
    ensures |Stamped(nodes, tickets)| == |nodes|
    ensures Stamped(nodes, tickets)[n] == nodes[n].(ticket := TicketIn(tickets, n))
  {
  }

  /** The lock in the C program's own form: the lock word, the nodes and the event objects
      are updated in place. LockAcquire, LockRelease and NodeTransfer are one interlocked or
      event operation of the function they are named after, on behalf of node n; AcquireCall
      and its like are whole calls. */
  class McsObject {
    var tail: Ptr
    var nodes: seq<Node>
    var events: seq<Event>
    // history; the nodes' own `ticket` is not used
    ghost var tickets: map<nat, nat>
    ghost var queue: seq<nat>
    ghost var served: nat
    ghost var passing: Ptr

    ghost function Snapshot(): State
      reads this
    {
      State(tail, Stamped(nodes, tickets), events, queue, served, passing)
    }

    constructor (n: nat)
      ensures Snapshot() == Init(n) && Inv(Snapshot())
    {
      tail, events := Null, [];
      nodes := seq(n, i => Node(Free, Null, Zero, Zero, 0));
      tickets, queue, served, passing := map[], [], 0, Null;
      new;
      assert Snapshot() == Init(n);
      InitInv(n);
    }

    /** Stores to the fields of node n. */
    method Put(n: nat, node: Node)
      requires n < |nodes|
      modifies this`nodes, this`tickets
      ensures |nodes| == old(|nodes|) == old(|Snapshot().nodes|)
      ensures Snapshot() == old(Snapshot()).(nodes :=
                old(Snapshot()).nodes[n := node.(ticket := old(Snapshot()).nodes[n].ticket)])
    {
      hide Stamped;
      StampKeeps(nodes, tickets, n);
      StampOne(nodes, tickets, n, node, TicketIn(tickets, n));
      nodes, tickets := nodes[n := node], tickets[n := TicketIn(tickets, n)];
    }

    /** The same, and the node's history gets a ticket. */
    method PutStamped(n: nat, node: Node, ghost ticket: nat)
      requires n < |nodes|
      modifies this`nodes, this`tickets
      ensures |nodes| == old(|nodes|) == old(|Snapshot().nodes|)
      ensures Snapshot() == old(Snapshot()).(nodes := old(Snapshot()).nodes[n := node.(ticket := ticket)])
    {
      hide Stamped;
      StampOne(nodes, tickets, n, node, ticket);
      nodes, tickets := nodes[n := node], tickets[n := ticket];
    }

    /** What is read of node n. */
    method Get(n: nat) returns (node: Node)
      requires n < |nodes|
      ensures n < |Snapshot().nodes| == |nodes|
      ensures node == nodes[n] && node.(ticket := Snapshot().nodes[n].ticket) == Snapshot().nodes[n]
    {
      hide Stamped;
      StampKeeps(nodes, tickets, n);
      node := nodes[n];
    }

    method Goto(n: nat, pc: Pc)
      requires n < |nodes|
      modifies this`nodes, this`tickets
      ensures n < old(|Snapshot().nodes|) == |nodes|
      ensures Snapshot() == At(old(Snapshot()), n, pc)
    {
      var node := Get(n);
      Put(n, node.(pc := pc));
    }

    method ExchangeTail(p: Ptr) returns (was: Ptr)
      modifies this`tail
      ensures was == old(tail) && tail == p
    {
      was := tail;
      tail := p;
    }

    method CompareExchangeTail(p: Ptr, comparand: Ptr) returns (was: Ptr)
      modifies this`tail
      ensures was == old(tail) && tail == if was == comparand then p else was
    {
      was := tail;
      if was == comparand { tail := p; }
    }

    /** One operation of ptw32_mcs_flag_wait on a flag that holds `flag`. */
    method Await(flag: Flag, w: WaitPc) returns (r: Waited)
      modifies this`events
      ensures r == FlagWait(flag, w, old(events)) && events == r.events
    {
      match w
      case ReadFlag => r := Waited(flag, events, Create, flag != Zero);
      case Create =>
        events := events + [Unset];
        r := Waited(flag, events, Store(|events| - 1), false);
      case Store(e) =>
        if flag == Zero { r := Waited(Handle(e), events, WaitEvent(e), false); }
        else { r := Waited(flag, events, Close(e), false); }
      case WaitEvent(e) =>
        if e < |events| && events[e] == Set {
          events := events[e := Unset];
          r := Waited(flag, events, Close(e), false);
        } else {
          r := Waited(flag, events, w, false);
        }
      case Close(e) =>
        if e < |events| { events := events[e := Closed]; }
        r := Waited(flag, events, w, true);
    }

    method Signal(e: nat)
      modifies this`events
      ensures events == SetEvent(old(events), e)
    {
      if e < |events| { events := events[e := Set]; }
    }

    method Call(n: nat, m: Move)
      requires Inv(Snapshot()) && n < |nodes| && !m.Go?
      modifies this`nodes, this`tickets
      ensures Snapshot() == Step(old(Snapshot()), n, m) && Inv(Snapshot())
    {
      hide Inv, Stamped;
      StepKeepsInv(Snapshot(), n, m);
      var node := Get(n);
      match m
      case CallAcquire => if node.pc.Free? { PutStamped(n, Fresh(Exchange), 0); }
      case CallTry => if node.pc.Free? { PutStamped(n, Fresh(TryCas), 0); }
      case CallRelease => if node.pc.Owner? { Goto(n, RelRead); }
      case CallTransfer(to) =>
        if node.pc.Owner? && to < |nodes| {
          var target := Get(to);
          if target.pc.Free? {
            PutStamped(to, Fresh(Target(n)), 0);
            Goto(n, TrCas(to));
          }
        }
    }

    method Join(n: nat, pc: Pc)
      requires n < |nodes|
      modifies this`nodes, this`tickets, this`queue
      ensures n < old(|Snapshot().nodes|) == |nodes|
      ensures Snapshot() == Enqueue(old(Snapshot()), n, pc).(tail := tail)
    {
      hide Stamped;
      var node := Get(n);
      PutStamped(n, node.(pc := pc), served + |queue|);
      queue := queue + [n];
    }

    method LockAcquire(n: nat)
      requires Inv(Snapshot()) && n < |nodes| && AcquirePc(nodes[n].pc)
      modifies this
      ensures n < old(|Snapshot().nodes|) && old(AcquirePc(Snapshot().nodes[n].pc))
      ensures Snapshot() == AcquireStep(old(Snapshot()), n) && Inv(Snapshot())
    {
      hide Inv, Stamped;
      var node := Get(n);
      AcquireKeepsInv(Snapshot(), n);
      match node.pc
      case Exchange =>
        var pred := ExchangeTail(To(n));
        Join(n, if pred == Null then Owner else Link(pred.n));
      case Link(pred) =>
        if pred < |nodes| {
          var before := Get(pred);
          Put(pred, before.(next := To(n)));
          Goto(n, SetNext(pred));
        }
      case SetNext(pred) =>
        if pred < |nodes| {
          var before := Get(pred);
          Put(pred, before.(nextFlag := FlagSet(before.nextFlag)));
          Goto(n, if before.nextFlag.Handle? then SignalNext(before.nextFlag.e) else AwaitReady(ReadFlag));
        }
      case SignalNext(e) =>
        Signal(e);
        Goto(n, AwaitReady(ReadFlag));
      case AwaitReady(w) =>
        var r := Await(node.readyFlag, w);
        Put(n, node.(readyFlag := r.flag, pc := if r.done then Owner else AwaitReady(r.w)));
      case TryCas =>
        var was := CompareExchangeTail(To(n), Null);
        if was == Null { Join(n, Owner); } else { Goto(n, Free); }
    }

    method LockRelease(n: nat)
      requires Inv(Snapshot()) && n < |nodes| && ReleasePc(nodes[n].pc)
      modifies this
      ensures n < old(|Snapshot().nodes|) && old(ReleasePc(Snapshot().nodes[n].pc))
      ensures Snapshot() == ReleaseStep(old(Snapshot()), n) && Inv(Snapshot())
    {
      hide Inv, Stamped;
      var node := Get(n);
      ReleaseKeepsInv(Snapshot(), n);
      match node.pc
      case RelRead => Goto(n, if node.next == Null then RelCas else RelAwait(ReadFlag, node.next));
      case RelCas =>
        var was := CompareExchangeTail(Null, To(n));
        if was == To(n) {
          Goto(n, Free);
          queue, served := Rest(queue), served + 1;
        } else {
          Goto(n, RelAwait(ReadFlag, Null));
        }
      case RelAwait(w, known) =>
        var r := Await(node.nextFlag, w);
        var pc := if !r.done then RelAwait(r.w, known) else if known == Null then RelNext else RelPass(known.n);
        Put(n, node.(nextFlag := r.flag, pc := pc));
      case RelNext => if node.next != Null { Goto(n, RelPass(node.next.n)); }
      case RelPass(succ) =>
        if succ < |nodes| {
          var after := Get(succ);
          Put(succ, after.(readyFlag := FlagSet(after.readyFlag)));
          Goto(n, if after.readyFlag.Handle? then RelSignal(after.readyFlag.e) else Free);
          queue, served := Rest(queue), served + 1;
          passing := if after.readyFlag.Handle? then To(n) else passing;
        }
      case RelSignal(e) =>
        Signal(e);
        Goto(n, Free);
        passing := Null;
    }

    method NodeTransfer(n: nat)
      requires Inv(Snapshot()) && n < |nodes| && TransferPc(nodes[n].pc)
      modifies this
      ensures n < old(|Snapshot().nodes|) && old(TransferPc(Snapshot().nodes[n].pc))
      ensures Snapshot() == TransferStep(old(Snapshot()), n) && Inv(Snapshot())
    {
      hide Inv, Stamped;
      var node := Get(n);
      TransferKeepsInv(Snapshot(), n);
      match node.pc
      case TrCas(to) =>
        if to < |nodes| {
          var was := CompareExchangeTail(To(to), To(n));
          if was == To(n) { TakePlace(n, to); } else { Goto(n, TrSpin(to)); }
        }
      case TrSpin(to) => if node.next != Null { Goto(n, TrAwait(ReadFlag, to)); }
      case TrAwait(w, to) =>
        var r := Await(node.nextFlag, w);
        var pc := if r.done then TrCopyNext(to) else TrAwait(r.w, to);
        Put(n, node.(nextFlag := r.flag, pc := pc));
      case TrCopyNext(to) =>
        if to < |nodes| {
          var target := Get(to);
          Put(to, target.(next := node.next));
          Goto(n, TrCopyFlag(to));
        }
      case TrCopyFlag(to) =>
        if to < |nodes| {
          var target := Get(to);
          Put(to, target.(nextFlag := node.nextFlag));
          TakePlace(n, to);
        }
    }

    method TakePlace(n: nat, to: nat)
      requires n < |nodes| && to < |nodes|
      modifies this`nodes, this`tickets, this`queue
      ensures n < old(|Snapshot().nodes|) && to < old(|Snapshot().nodes|)
      ensures Snapshot() == Replace(old(Snapshot()), n, to)
    {
      hide Stamped;
      var node := Get(n);
      var target := Get(to);
      PutStamped(to, target.(pc := Owner), Snapshot().nodes[n].ticket);
      Goto(n, Free);
      queue := if queue == [] then [] else queue[0 := to];
    }

    /** Any step of any node. */
    method Advance(x: nat, m: Move)
      requires Inv(Snapshot())
      modifies this
      ensures Snapshot() == Step(old(Snapshot()), x, m) && Inv(Snapshot())
    {
      hide Inv, Stamped, AcquireStep, ReleaseStep, TransferStep;
      StampSize(nodes, tickets);
      if x < |nodes| {
        var node := Get(x);
        if !m.Go? { Call(x, m); }
        else if AcquirePc(node.pc) { LockAcquire(x); }
        else if ReleasePc(node.pc) { LockRelease(x); }
        else if TransferPc(node.pc) { NodeTransfer(x); }
      }
    }

    /** What the other nodes do between two operations of node n. */
    method Others(n: nat, turns: seq<seq<(nat, Move)>>) returns (later: seq<seq<(nat, Move)>>)
      requires Inv(Snapshot()) && n < |nodes| && !nodes[n].pc.Free? && !nodes[n].pc.Target?
      modifies this
      ensures Inv(Snapshot()) && |nodes| == old(|nodes|) && nodes[n].pc == old(nodes[n].pc)
      ensures later == if turns == [] then [] else turns[1..]
      ensures Snapshot() == if turns == [] then old(Snapshot()) else OthersRun(old(Snapshot()), n, turns[0])
    {
      hide Inv, Stamped, Step;
      StampKeeps(nodes, tickets, n);
      later := [];
      if turns != [] {
        for i := 0 to |turns[0]|
          invariant Inv(Snapshot()) && |nodes| == |Snapshot().nodes| == old(|nodes|)
          invariant nodes[n].pc == Snapshot().nodes[n].pc == old(nodes[n].pc)
          invariant Snapshot() == OthersRun(old(Snapshot()), n, turns[0][..i])
        {
          assert turns[0][..i + 1][..i] == turns[0][..i];
          var (x, m) := turns[0][i];
          if x != n {
            OthersLeavePc(Snapshot(), x, m, n);
            Advance(x, m);
            StampSize(nodes, tickets);
            StampKeeps(nodes, tickets, n);
          }
        }
        assert turns[0][..|turns[0]|] == turns[0];
        later := turns[1..];
      }
    }

    /** One operation of node n. */
    method Operate(n: nat)
      requires Inv(Snapshot()) && n < |nodes|
      modifies this
      ensures Snapshot() == Step(old(Snapshot()), n, Go) && Inv(Snapshot())
      ensures |nodes| == old(|nodes|) == |Snapshot().nodes| == old(|Snapshot().nodes|)
      ensures nodes[n].pc == Snapshot().nodes[n].pc && old(nodes[n].pc == Snapshot().nodes[n].pc)
    {
      hide Inv, Stamped, Step;
      StampKeeps(nodes, tickets, n);
      StepKeepsSize(Snapshot(), n, Go);
      Advance(n, Go);
      StampSize(nodes, tickets);
      StampKeeps(nodes, tickets, n);
    }

    /** One operation of a flag_wait that started at `start`; `flag` is what it finds in
        the flag. */
    method FlagWaitOperation(n: nat, ghost start: Pc, ghost w: WaitPc) returns (flag: Flag)
      requires Inv(Snapshot()) && n < |nodes| && InFlagWait(start) && nodes[n].pc == AtWait(start, w)
      modifies this
      ensures Inv(Snapshot()) && |nodes| == old(|nodes|)
      ensures var r := FlagWait(flag, w, old(events));
        nodes[n].pc == if r.done then Awaited(start) else AtWait(start, r.w)
    {
      hide Inv, Stamped, Step, FlagWait;
      var node := Get(n);
      flag := OwnFlag(node);
      WaitGoes(Snapshot(), n);
      Operate(n);
    }

    /** Others' steps during a flag_wait. */
    method OthersMeanwhile(n: nat, ghost start: Pc, ghost w: WaitPc, turns: seq<seq<(nat, Move)>>)
      returns (later: seq<seq<(nat, Move)>>)
      requires Inv(Snapshot()) && n < |nodes| && InFlagWait(start) && nodes[n].pc == AtWait(start, w)
      modifies this
      ensures Inv(Snapshot()) && |nodes| == old(|nodes|) && nodes[n].pc == AtWait(start, w)
      ensures later == if turns == [] then [] else turns[1..]
    {
      later := Others(n, turns);
    }

    lemma EventUnset(n: nat, start: Pc, e: nat)
      requires Inv(Snapshot()) && n < |nodes| && InFlagWait(start) && nodes[n].pc == AtWait(start, WaitEvent(e))
      requires !(e < |events| && events[e] == Set)
      ensures Waits(Snapshot(), n)
    {
      hide Inv, Stamped, Waits;
      StampKeeps(nodes, tickets, n);
      UnsetWaits(Snapshot(), n);
    }

    /** WaitForSingleObject: returns once the event has been set, and only then. */
    method WaitForEvent(n: nat, ghost start: Pc, e: nat, turns: seq<seq<(nat, Move)>>)
      returns (done: bool, later: seq<seq<(nat, Move)>>)
      requires Inv(Snapshot()) && n < |nodes| && InFlagWait(start) && nodes[n].pc == AtWait(start, WaitEvent(e))
      modifies this
      ensures Inv(Snapshot()) && |nodes| == old(|nodes|)
      ensures if done then nodes[n].pc == AtWait(start, Close(e)) else later == [] && Waits(Snapshot(), n)
    {
      hide Inv, Snapshot, AtWait, InFlagWait, Awaited, Waits;
      later := turns;
      while !(e < |events| && events[e] == Set)
        invariant Inv(Snapshot()) && |nodes| == old(|nodes|) && nodes[n].pc == AtWait(start, WaitEvent(e))
        decreases |later|
      {
        if later == [] {
          EventUnset(n, start, e);
          return false, later;
        }
        later := OthersMeanwhile(n, start, WaitEvent(e), later);
      }
      var flag := FlagWaitOperation(n, start, WaitEvent(e));
      return true, later;
    }

    /** ptw32_mcs_flag_wait on the flag that node n waits on. Not `done` means that the
        other nodes' turns ran out and the node still waits for an event that is not set. */
    method FlagWaitCall(n: nat, ghost start: Pc, turns: seq<seq<(nat, Move)>>)
      returns (done: bool, later: seq<seq<(nat, Move)>>)
      requires Inv(Snapshot()) && n < |nodes| && InFlagWait(start) && nodes[n].pc == AtWait(start, ReadFlag)
      modifies this
      ensures Inv(Snapshot()) && |nodes| == old(|nodes|)
      ensures if done then nodes[n].pc == Awaited(start) else later == [] && Waits(Snapshot(), n)
    {
      hide Inv, Snapshot, AtWait, InFlagWait, Awaited, Waits;
      done, later := true, turns;
      var flag := FlagWaitOperation(n, start, ReadFlag);
      if flag == Zero {
        // the flag is not set: create an event
        later := OthersMeanwhile(n, start, Create, later);
        var e := |events|;
        flag := FlagWaitOperation(n, start, Create);
        later := OthersMeanwhile(n, start, Store(e), later);
        flag := FlagWaitOperation(n, start, Store(e));
        if flag == Zero {
          // the handle is stored in the flag: wait
          done, later := WaitForEvent(n, start, e, later);
        }
        if done {
          later := OthersMeanwhile(n, start, Close(e), later);
          flag := FlagWaitOperation(n, start, Close(e));
        }
      }
    }

    /** The exchange on the lock word. */
    method ExchangeOperation(n: nat) returns (pred: Ptr)
      requires Inv(Snapshot()) && n < |nodes| && nodes[n].pc.Exchange?
      modifies this
      ensures Inv(Snapshot()) && |nodes| == old(|nodes|)
      ensures nodes[n].pc == if pred == Null then Owner else Link(pred.n)
    {
      hide Inv, Stamped;
      pred := tail;
      Operate(n);
    }

    /** The exchange on the predecessor's `next`. */
    method LinkOperation(n: nat, pred: nat)
      requires Inv(Snapshot()) && n < |nodes| && nodes[n].pc == Link(pred)
      modifies this
      ensures Inv(Snapshot()) && |nodes| == old(|nodes|) && nodes[n].pc == SetNext(pred)
    {
      hide Inv, Stamped;
      StampKeeps(nodes, tickets, n);
      PredecessorExists(Snapshot(), n);
      Operate(n);
    }

    /** flag_set on the predecessor's `nextFlag`. */
    method SetNextCall(n: nat, pred: nat, turns: seq<seq<(nat, Move)>>) returns (later: seq<seq<(nat, Move)>>)
      requires Inv(Snapshot()) && n < |nodes| && nodes[n].pc == SetNext(pred)
      modifies this
      ensures Inv(Snapshot()) && |nodes| == old(|nodes|) && nodes[n].pc == AwaitReady(ReadFlag)
      ensures |later| <= |turns|
    {
      hide Inv, Stamped;
      StampKeeps(nodes, tickets, n);
      PredecessorExists(Snapshot(), n);
      StampSize(nodes, tickets);
      var before := Get(pred);
      Operate(n);
      later := turns;
      if before.nextFlag.Handle? {
        later := Others(n, later);
        Operate(n);
      }
    }

    /** ptw32_mcs_lock_acquire as a whole: when it returns, the node is at the head of the
        queue and owns the lock, whatever the other nodes did in between. */
    method AcquireCall(n: nat, turns: seq<seq<(nat, Move)>>)
      returns (done: bool, later: seq<seq<(nat, Move)>>)
      requires Inv(Snapshot()) && n < |nodes| && nodes[n].pc.Free?
      modifies this
      ensures Inv(Snapshot()) && |nodes| == old(|nodes|)
      ensures if done then nodes[n].pc.Owner? && queue != [] && queue[0] == n
              else later == [] && Waits(Snapshot(), n)
    {
      hide Inv, Stamped, Waits;
      done, later := true, turns;
      Begin(n, CallAcquire);
      later := Others(n, later);
      var pred := ExchangeOperation(n);
      if pred != Null { done, later := QueueBehind(n, pred.n, later); }
      if done {
        StampKeeps(nodes, tickets, n);
        HolderIsHead(Snapshot(), n);
      }
    }

    /** The lock was not free: link behind the predecessor, and wait to be made ready. */
    method QueueBehind(n: nat, pred: nat, turns: seq<seq<(nat, Move)>>)
      returns (done: bool, later: seq<seq<(nat, Move)>>)
      requires Inv(Snapshot()) && n < |nodes| && nodes[n].pc == Link(pred)
      modifies this
      ensures Inv(Snapshot()) && |nodes| == old(|nodes|)
      ensures if done then nodes[n].pc.Owner? else later == [] && Waits(Snapshot(), n)
    {
      hide Inv, Snapshot, Waits;
      later := Others(n, turns);
      LinkOperation(n, pred);
      later := Others(n, later);
      later := SetNextCall(n, pred, later);
      later := Others(n, later);
      done, later := FlagWaitCall(n, nodes[n].pc, later);
    }

    method Begin(n: nat, m: Move)
      requires Inv(Snapshot()) && n < |nodes|
      requires if m.CallRelease? then nodes[n].pc.Owner? else (m.CallAcquire? || m.CallTry?) && nodes[n].pc.Free?
      modifies this`nodes, this`tickets
      ensures Inv(Snapshot()) && |nodes| == old(|nodes|)
      ensures nodes[n].pc == if m.CallAcquire? then Exchange else if m.CallTry? then TryCas else RelRead
    {
      hide Inv, Stamped;
      StampKeeps(nodes, tickets, n);
      Call(n, m);
      StampSize(nodes, tickets);
      StampKeeps(nodes, tickets, n);
    }

    /** Reading the node's `next`, for the first time or after the wait. */
    method ReadNext(n: nat) returns (next: Ptr)
      requires Inv(Snapshot()) && n < |nodes| && (nodes[n].pc.RelRead? || nodes[n].pc.RelNext?)
      modifies this
      ensures Inv(Snapshot()) && |nodes| == old(|nodes|)
      ensures old(nodes[n].pc.RelNext?) ==> next.To? && nodes[n].pc == RelPass(next.n)
      ensures old(nodes[n].pc.RelRead?) ==> nodes[n].pc == if next == Null then RelCas else RelAwait(ReadFlag, next)
    {
      hide Inv, Stamped;
      var node := Get(n);
      next := node.next;
      if node.pc.RelNext? { NextIsKnown(Snapshot(), n); }
      Operate(n);
    }

    /** The compare-and-exchange that frees the lock if there is no successor. */
    method FreeOperation(n: nat) returns (was: Ptr)
      requires Inv(Snapshot()) && n < |nodes| && nodes[n].pc.RelCas?
      modifies this
      ensures Inv(Snapshot()) && |nodes| == old(|nodes|)
      ensures nodes[n].pc == if was == To(n) then Free else RelAwait(ReadFlag, Null)
    {
      hide Inv, Stamped;
      was := tail;
      Operate(n);
    }

    /** flag_set on the successor's `readyFlag`. */
    method PassCall(n: nat, succ: nat, turns: seq<seq<(nat, Move)>>) returns (later: seq<seq<(nat, Move)>>)
      requires Inv(Snapshot()) && n < |nodes| && nodes[n].pc == RelPass(succ)
      modifies this
      ensures Inv(Snapshot()) && |nodes| == old(|nodes|) && nodes[n].pc == Free
      ensures |later| <= |turns|
    {
      hide Inv, Stamped;
      StampKeeps(nodes, tickets, n);
      PassHasSuccessor(Snapshot(), n);
      StampSize(nodes, tickets);
      var after := Get(succ);
      Operate(n);
      later := turns;
      if after.readyFlag.Handle? {
        later := Others(n, later);
        Operate(n);
      }
    }

    /** ptw32_mcs_lock_release as a whole: when it returns, the node is in no queue. */
    method ReleaseCall(n: nat, turns: seq<seq<(nat, Move)>>)
      returns (done: bool, later: seq<seq<(nat, Move)>>)
      requires Inv(Snapshot()) && n < |nodes| && nodes[n].pc.Owner?
      modifies this
      ensures Inv(Snapshot()) && |nodes| == old(|nodes|)
      ensures if done then nodes[n].pc.Free? && n !in queue else later == [] && Waits(Snapshot(), n)
    {
      hide Inv, Stamped, Waits;
      done, later := true, turns;
      Begin(n, CallRelease);
      later := Others(n, later);
      var next := ReadNext(n);
      later := Others(n, later);
      if next == Null {
        // no known successor
        var was := FreeOperation(n);
        if was != To(n) {
          later := Others(n, later);
          done, next, later := WaitForSuccessor(n, later);
        }
      } else {
        // the successor may still have to set the flag
        done, later := FlagWaitCall(n, nodes[n].pc, later);
      }
      if done && next != Null {
        later := Others(n, later);
        later := PassCall(n, next.n, later);
      }
      if done {
        StampKeeps(nodes, tickets, n);
        FreeIsOutside(Snapshot(), n);
      }
    }

    method WaitForSuccessor(n: nat, turns: seq<seq<(nat, Move)>>)
      returns (done: bool, next: Ptr, later: seq<seq<(nat, Move)>>)
      requires Inv(Snapshot()) && n < |nodes| && nodes[n].pc == RelAwait(ReadFlag, Null)
      modifies this
      ensures Inv(Snapshot()) && |nodes| == old(|nodes|)
      ensures if done then next.To? && nodes[n].pc == RelPass(next.n) else later == [] && Waits(Snapshot(), n)
    {
      hide Inv, Snapshot, Waits;
      next := Null;
      done, later := FlagWaitCall(n, nodes[n].pc, turns);
      if done {
        later := Others(n, later);
        next := ReadNext(n);
      }
    }

    /** ptw32_mcs_lock_try_acquire as a whole: it fails only while somebody is in the queue. */
    method TryAcquireCall(n: nat, turns: seq<seq<(nat, Move)>>)
      returns (acquired: bool, later: seq<seq<(nat, Move)>>)
      requires Inv(Snapshot()) && n < |nodes| && nodes[n].pc.Free?
      modifies this
      ensures Inv(Snapshot()) && |nodes| == old(|nodes|)
      ensures if acquired then nodes[n].pc.Owner? && queue == [n]
              else nodes[n].pc.Free? && n !in queue && queue != []
    {
      hide Inv, Stamped;
      Begin(n, CallTry);
      later := Others(n, turns);
      StampKeeps(nodes, tickets, n);
      TailMeansQueue(Snapshot());
      acquired := tail == Null;
      Operate(n);
      TailMeansQueue(Snapshot());
      if !acquired { FreeIsOutside(Snapshot(), n); }
    }

    /** The compare-and-exchange that puts the new node in the old one's place if nobody is
        behind it. */
    method TransferOperation(n: nat, to: nat) returns (was: Ptr)
      requires Inv(Snapshot()) && n < |nodes| && nodes[n].pc == TrCas(to)
      modifies this
      ensures Inv(Snapshot()) && |nodes| == old(|nodes|) && to < |nodes|
      ensures if was == To(n) then nodes[n].pc.Free? && nodes[to].pc.Owner? else nodes[n].pc == TrSpin(to)
    {
      hide Inv, Stamped;
      StampKeeps(nodes, tickets, n);
      TransferTarget(Snapshot(), n);
      was := tail;
      Operate(n);
      StampKeeps(nodes, tickets, to);
    }

    /** The two copies to the new node. */
    method CopyCall(n: nat, to: nat, turns: seq<seq<(nat, Move)>>) returns (later: seq<seq<(nat, Move)>>)
      requires Inv(Snapshot()) && n < |nodes| && nodes[n].pc == TrCopyNext(to)
      modifies this
      ensures Inv(Snapshot()) && |nodes| == old(|nodes|) && to < |nodes|
      ensures nodes[n].pc.Free? && nodes[to].pc.Owner?
    {
      hide Inv, Stamped;
      StampKeeps(nodes, tickets, n);
      TransferTarget(Snapshot(), n);
      Operate(n);
      later := Others(n, turns);
      StampKeeps(nodes, tickets, n);
      TransferTarget(Snapshot(), n);
      Operate(n);
      StampKeeps(nodes, tickets, to);
    }

    /** ptw32_mcs_node_transfer as a whole: when it returns, the new node is at the head of
        the queue and owns the lock, and the old one is in no queue. */
    method TransferCall(n: nat, to: nat, turns: seq<seq<(nat, Move)>>)
      returns (done: bool, later: seq<seq<(nat, Move)>>)
      requires Inv(Snapshot()) && n < |nodes| && nodes[n].pc.Owner? && to < |nodes| && nodes[to].pc.Free?
      modifies this
      ensures Inv(Snapshot()) && |nodes| == old(|nodes|)
      ensures if done then nodes[to].pc.Owner? && queue != [] && queue[0] == to && nodes[n].pc.Free? && n !in queue
              else later == [] && Waits(Snapshot(), n)
    {
      hide Inv, Stamped, Waits;
      done, later := true, turns;
      BeginTransfer(n, to);
      later := Others(n, later);
      var was := TransferOperation(n, to);
      if was != To(n) { done, later := TransferQueue(n, to, later); }
      if done {
        StampKeeps(nodes, tickets, n);
        StampKeeps(nodes, tickets, to);
        FreeIsOutside(Snapshot(), n);
        HolderIsHead(Snapshot(), to);
      }
    }

    /** A successor has queued: wait until it has linked itself, and copy what it wrote. */
    method TransferQueue(n: nat, to: nat, turns: seq<seq<(nat, Move)>>)
      returns (done: bool, later: seq<seq<(nat, Move)>>)
      requires Inv(Snapshot()) && n < |nodes| && nodes[n].pc == TrSpin(to)
      modifies this
      ensures Inv(Snapshot()) && |nodes| == old(|nodes|)
      ensures if done then to < |nodes| && nodes[to].pc.Owner? && nodes[n].pc.Free?
              else later == [] && Waits(Snapshot(), n)
    {
      hide Inv, Snapshot, Waits;
      later := Others(n, turns);
      done, later := SpinForNext(n, to, later);
      if done {
        later := Others(n, later);
        done, later := FlagWaitCall(n, nodes[n].pc, later);
      }
      if done {
        later := Others(n, later);
        later := CopyCall(n, to, later);
      }
    }

    method BeginTransfer(n: nat, to: nat)
      requires Inv(Snapshot()) && n < |nodes| && nodes[n].pc.Owner? && to < |nodes| && nodes[to].pc.Free?
      modifies this`nodes, this`tickets
      ensures Inv(Snapshot()) && |nodes| == old(|nodes|) && nodes[n].pc == TrCas(to)
    {
      hide Inv, Stamped;
      StampKeeps(nodes, tickets, n);
      StampKeeps(nodes, tickets, to);
      Call(n, CallTransfer(to));
      StampSize(nodes, tickets);
      StampKeeps(nodes, tickets, n);
    }

    method SpinForNext(n: nat, to: nat, turns: seq<seq<(nat, Move)>>)
      returns (done: bool, later: seq<seq<(nat, Move)>>)
      requires Inv(Snapshot()) && n < |nodes| && nodes[n].pc == TrSpin(to)
      modifies this
      ensures Inv(Snapshot()) && |nodes| == old(|nodes|)
      ensures if done then nodes[n].pc == TrAwait(ReadFlag, to) else later == [] && Waits(Snapshot(), n)
    {
      hide Inv, Stamped, Waits;
      later := turns;
      var node := Get(n);
      while node.next == Null
        invariant Inv(Snapshot()) && |nodes| == old(|nodes|) && node == nodes[n] && node.pc == TrSpin(to)
        invariant n < |Snapshot().nodes| && node.(ticket := Snapshot().nodes[n].ticket) == Snapshot().nodes[n]
        decreases |later|
      {
        if later == [] {
          NoLinkWaits(Snapshot(), n);
          return false, later;
        }
        later := Others(n, later);
        node := Get(n);
      }
      Operate(n);
      done := true;
    }
  }
}
