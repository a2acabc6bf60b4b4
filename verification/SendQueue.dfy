/**
 Packets on their way to one client: any number of goroutines inside sendPkt compete for the client's
 two bounded queues with each other and with its send loop. Every channel operation is one step.
 */
module SendQueue {
  import opened Basics

  /** `disco` is what disco.LooksLikeDiscoWrapper says of the packet; it selects the queue. */
  datatype Packet = Packet(id: nat, disco: bool)

  datatype Reason = GoneDisconnected | QueueHead | QueueTail | WriteError

  datatype Drop = Drop(p: Packet, why: Reason)

  /** One queue with its history: packets that ever entered it, packets whose sendPkt call has returned,
      packets written to the connection and packets recorded as dropped, each in order. */
  datatype Lane = Lane(queue: seq<Packet>, entered: seq<Packet>, done: seq<Packet>, written: seq<Packet>,
                       drops: seq<Drop>)

  const EmptyLane := Lane([], [], [], [], [])

  datatype Point = Check | Put | Evict

  /** A call of sendPkt: its packet, the attempt it is in and the select it is about to run. */
  datatype Call = Call(p: Packet, attempt: nat, at: Point)

  /** The send loop: at its first (polling) or second (blocking) select, writing a packet, draining, gone. */
  datatype Consumer = Polling | Waiting | InHand(p: Packet) | Draining | Exited

  type Producer = nat

  datatype State = State(
    gone: bool,                      // the client's context is done
    calls: map<Producer, Call>,
    data: Lane,
    disco: Lane,
    consumer: Consumer,
    started: set<Packet>)            // packets some call was made for

  const Start := State(false, map[], EmptyLane, EmptyLane, Polling, {})

  datatype Event =
    | Begin(t: Producer, p: Packet)
    | Advance(t: Producer)           // run the select the call is at
    | Disconnect
    | Take(kind: bool)
    | Block
    | OtherWork
    | Written(ok: bool)
    | Quit                           // the context is done or another write failed
    | DrainOne(kind: bool)
    | DrainEnd

  const Attempts: nat := 3

  // ---------- one queue ----------

  function Enter(l: Lane, p: Packet): Lane {
    l.(queue := l.queue + [p], entered := l.entered + [p], done := l.done + [p])
  }

  /** An unbuffered channel hands the packet straight to a waiting receiver. */
  function HandOver(l: Lane, p: Packet): Lane {
    l.(entered := l.entered + [p], done := l.done + [p])
  }

  function Refuse(l: Lane, p: Packet, why: Reason): Lane {
    l.(done := l.done + [p], drops := l.drops + [Drop(p, why)])
  }

  function DropHead(l: Lane, why: Reason): Lane {
    if l.queue == [] then l else l.(queue := l.queue[1..], drops := l.drops + [Drop(l.queue[0], why)])
  }

  function Pop(l: Lane): Lane
    requires l.queue != []
  {
    l.(queue := l.queue[1..])
  }

  function Finish(l: Lane, p: Packet, ok: bool): Lane {
    if ok then l.(written := l.written + [p]) else l.(drops := l.drops + [Drop(p, WriteError)])
  }

  // ---------- steps ----------

  function LaneOf(s: State, kind: bool): Lane {
    if kind then s.disco else s.data
  }

  function WithLane(s: State, kind: bool, l: Lane): State {
    if kind then s.(disco := l) else s.(data := l)
  }

  predicate Enabled(s: State, e: Event) {
    match e
    case Begin(t, p) => t !in s.calls && p !in s.started
    case Advance(t) => t in s.calls
    case Disconnect => true
    case Take(kind) => (s.consumer.Polling? || s.consumer.Waiting?) && LaneOf(s, kind).queue != []
    case Block => s.consumer.Polling?
    case OtherWork => s.consumer.Waiting?
    case Written(_) => s.consumer.InHand?
    case Quit => s.consumer.Polling? || s.consumer.Waiting?
    case DrainOne(kind) => s.consumer.Draining? && LaneOf(s, kind).queue != []
    case DrainEnd => s.consumer.Draining? && s.data.queue == [] && s.disco.queue == []
  }

  function Returned(s: State, t: Producer, l: Lane): State
    requires t in s.calls
  {
    WithLane(s, s.calls[t].p.disco, l).(calls := s.calls - {t})
  }

  /** `case <-dst.ctx.Done()`. */
  function OnCheck(s: State, t: Producer): State
    requires t in s.calls
  {
    var c := s.calls[t];
    if s.gone then Returned(s, t, Refuse(LaneOf(s, c.p.disco), c.p, GoneDisconnected))
    else s.(calls := s.calls[t := c.(at := Put)])
  }

  /** `case sendQueue <- p`. */
  function OnPut(s: State, depth: nat, t: Producer): State
    requires t in s.calls
  {
    var c := s.calls[t];
    var l := LaneOf(s, c.p.disco);
    if |l.queue| < depth then Returned(s, t, Enter(l, c.p))
    else if depth == 0 && s.consumer.Waiting? then Returned(s, t, HandOver(l, c.p)).(consumer := InHand(c.p))
    else s.(calls := s.calls[t := c.(at := Evict)])
  }

  /** `case pkt := <-sendQueue`, and giving up after the last attempt. */
  function OnEvict(s: State, t: Producer): State
    requires t in s.calls
  {
    var c := s.calls[t];
    var l := DropHead(LaneOf(s, c.p.disco), QueueHead);
    if c.attempt + 1 < Attempts then WithLane(s, c.p.disco, l).(calls := s.calls[t := Call(c.p, c.attempt + 1, Check)])
    else Returned(s, t, Refuse(l, c.p, QueueTail))
  }

  function Step(s: State, depth: nat, e: Event): State {
    if !Enabled(s, e) then s
    else
      match e
      case Begin(t, p) => s.(calls := s.calls[t := Call(p, 0, Check)], started := s.started + {p})
      case Advance(t) =>
        (match s.calls[t].at
         case Check => OnCheck(s, t)
         case Put => OnPut(s, depth, t)
         case Evict => OnEvict(s, t))
      case Disconnect => s.(gone := true)
      case Take(kind) => WithLane(s, kind, Pop(LaneOf(s, kind))).(consumer := InHand(LaneOf(s, kind).queue[0]))
      case Block => s.(consumer := Waiting)
      case OtherWork => s.(consumer := Polling)
      case Written(ok) =>
        var p := s.consumer.p;
        WithLane(s, p.disco, Finish(LaneOf(s, p.disco), p, ok)).(consumer := if ok then Polling else Draining)
      case Quit => s.(consumer := Draining)
      case DrainOne(kind) => WithLane(s, kind, DropHead(LaneOf(s, kind), GoneDisconnected))
      case DrainEnd => s.(consumer := Exited)
  }

  function Run(depth: nat, events: seq<Event>): State {
    if events == [] then Start else Step(Run(depth, events[..|events| - 1]), depth, events[|events| - 1])
  }

  // ---------- invariant of one queue ----------

  predicate InOrder(some: seq<Packet>, all: seq<Packet>) {
    some == [] ||
    (all != [] &&
     ((some[|some| - 1] == all[|all| - 1] && InOrder(some[..|some| - 1], all[..|all| - 1]))
      || InOrder(some, all[..|all| - 1])))
  }

  lemma InOrderGrow(some: seq<Packet>, all: seq<Packet>, p: Packet)
    requires InOrder(some, all)
    ensures InOrder(some, all + [p]) && InOrder(some + [p], all + [p])
  {
    assert (all + [p])[..|all|] == all && (some + [p])[..|some|] == some;
  }

  lemma {:induction false} InOrderDropLast(some: seq<Packet>, p: Packet, all: seq<Packet>)
    requires InOrder(some + [p], all)
    ensures InOrder(some, all)
  {
    var rest := all[..|all| - 1];
    assert all == rest + [all[|all| - 1]] && (some + [p])[..|some|] == some;
    if !InOrder(some, rest) {
      InOrderDropLast(some, p, rest);
    }
    InOrderGrow(some, rest, all[|all| - 1]);
  }

  function Dropped(drops: seq<Drop>): seq<Packet> {
    seq(|drops|, i requires 0 <= i < |drops| => drops[i].p)
  }

  /** The packets that were in the queue and have left it. */
  function Left(l: Lane): seq<Packet>
    requires |l.queue| <= |l.entered|
  {
    l.entered[..|l.entered| - |l.queue|]
  }

  predicate Ordered(l: Lane, hand: seq<Packet>, depth: nat) {
    && |l.queue| <= depth
    && |l.queue| <= |l.entered|
    && l.queue == l.entered[|l.entered| - |l.queue|..]
    && InOrder(l.written + hand, Left(l))
  }

  predicate Conserved(l: Lane, hand: seq<Packet>) {
    multiset(l.done) == multiset(l.queue) + multiset(hand) + multiset(l.written) + multiset(Dropped(l.drops))
  }

  lemma DroppedSnoc(drops: seq<Drop>, d: Drop)
    ensures multiset(Dropped(drops + [d])) == multiset(Dropped(drops)) + multiset{d.p}
  {
    assert Dropped(drops + [d]) == Dropped(drops) + [d.p];
  }

  lemma EnterKeeps(l: Lane, p: Packet, hand: seq<Packet>, depth: nat)
    requires Ordered(l, hand, depth) && Conserved(l, hand)
    ensures Conserved(Enter(l, p), hand)
    ensures |l.queue| < depth ==> Ordered(Enter(l, p), hand, depth)
  {
    var l' := Enter(l, p);
    assert l'.entered[..|l'.entered| - |l'.queue|] == Left(l);
  }

  lemma HandOverKeeps(l: Lane, p: Packet, depth: nat)
    requires Ordered(l, [], depth) && Conserved(l, []) && l.queue == []
    ensures Ordered(HandOver(l, p), [p], depth) && Conserved(HandOver(l, p), [p])
  {
    assert l.written + [] == l.written && Left(l) == l.entered;
    InOrderGrow(l.written, Left(l), p);
    assert Left(HandOver(l, p)) == Left(l) + [p];
  }

  lemma RefuseKeeps(l: Lane, p: Packet, why: Reason, hand: seq<Packet>, depth: nat)
    requires Ordered(l, hand, depth) && Conserved(l, hand)
    ensures Ordered(Refuse(l, p, why), hand, depth) && Conserved(Refuse(l, p, why), hand)
  {
    DroppedSnoc(l.drops, Drop(p, why));
  }

  lemma QueueSplits(queue: seq<Packet>)
    requires queue != []
    ensures multiset(queue) == multiset{queue[0]} + multiset(queue[1..])
  {
    assert queue == [queue[0]] + queue[1..];
  }

  /** The head of the queue joins those that have left it, and the rest stays behind them. */
  lemma QueueMoves(l: Lane)
    requires |l.queue| <= |l.entered| && l.queue == l.entered[|l.entered| - |l.queue|..] && l.queue != []
    ensures Left(Pop(l)) == Left(l) + [l.queue[0]]
    ensures Pop(l).queue == Pop(l).entered[|Pop(l).entered| - |Pop(l).queue|..]
  {
  }

  lemma HeadLeaves(l: Lane, hand: seq<Packet>, depth: nat)
    requires Ordered(l, hand, depth) && l.queue != []
    ensures Left(Pop(l)) == Left(l) + [l.queue[0]]
    ensures Ordered(Pop(l), hand, depth)
    ensures hand == [] ==> Ordered(Pop(l), [l.queue[0]], depth)
    ensures multiset(l.queue) == multiset{l.queue[0]} + multiset(l.queue[1..])
  {
    QueueMoves(l);
    QueueSplits(l.queue);
    InOrderGrow(l.written + hand, Left(l), l.queue[0]);
    assert hand == [] ==> l.written + hand == l.written;
    hide InOrder, Left;
  }

  lemma DropHeadOrdered(l: Lane, why: Reason, hand: seq<Packet>, depth: nat)
    requires Ordered(l, hand, depth)
    ensures Ordered(DropHead(l, why), hand, depth)
  {
    if l.queue != [] {
      HeadLeaves(l, hand, depth);
      hide InOrder;
      assert Left(DropHead(l, why)) == Left(Pop(l));
    }
  }

  lemma DropHeadConserves(l: Lane, why: Reason, hand: seq<Packet>)
    requires Conserved(l, hand)
    ensures Conserved(DropHead(l, why), hand)
  {
    if l.queue != [] {
      QueueSplits(l.queue);
      DroppedSnoc(l.drops, Drop(l.queue[0], why));
      hide Dropped;
    }
  }

  lemma DropHeadKeeps(l: Lane, why: Reason, hand: seq<Packet>, depth: nat)
    requires Ordered(l, hand, depth) && Conserved(l, hand)
    ensures Ordered(DropHead(l, why), hand, depth) && Conserved(DropHead(l, why), hand)
  {
    hide Ordered, Conserved, DropHead;
    DropHeadOrdered(l, why, hand, depth);
    DropHeadConserves(l, why, hand);
  }

  lemma PopKeeps(l: Lane, depth: nat)
    requires Ordered(l, [], depth) && Conserved(l, []) && l.queue != []
    ensures Ordered(Pop(l), [l.queue[0]], depth) && Conserved(Pop(l), [l.queue[0]])
  {
    HeadLeaves(l, [], depth);
  }

  lemma FinishOrdered(l: Lane, p: Packet, ok: bool, depth: nat)
    requires Ordered(l, [p], depth)
    ensures Ordered(Finish(l, p, ok), [], depth)
  {
    InOrderDropLast(l.written, p, Left(l));
    assert l.written + [p] + [] == l.written + [p] && l.written + [] == l.written;
    hide InOrder;
  }

  lemma FinishKeeps(l: Lane, p: Packet, ok: bool, depth: nat)
    requires Ordered(l, [p], depth) && Conserved(l, [p])
    ensures Ordered(Finish(l, p, ok), [], depth) && Conserved(Finish(l, p, ok), [])
  {
    hide Ordered;
    FinishOrdered(l, p, ok, depth);
    DroppedSnoc(l.drops, Drop(p, WriteError));
  }

  // ---------- invariant of the whole ----------

  function Hand(c: Consumer, kind: bool): seq<Packet> {
    if c.InHand? && c.p.disco == kind then [c.p] else []
  }

  /** Packets stay in the queue of their own kind. */
  predicate OfKind(packets: seq<Packet>, kind: bool) {
    forall p :: p in packets ==> p.disco == kind
  }

  predicate LaneOk(l: Lane, hand: seq<Packet>, kind: bool, depth: nat) {
    Ordered(l, hand, depth) && Conserved(l, hand) && OfKind(l.queue, kind) && OfKind(l.done, kind)
  }

  function Done(s: State): multiset<Packet> {
    multiset(s.data.done) + multiset(s.disco.done)
  }

  /** A packet is sent by at most one call, and returns from it at most once. */
  ghost predicate Unique(started: set<Packet>, calls: map<Producer, Call>, done: multiset<Packet>) {
    && (forall p :: done[p] <= 1)
    && (forall p :: p in done ==> p in started)
    && (forall t :: t in calls ==> calls[t].p in started && calls[t].p !in done)
    && (forall t, u :: t in calls && u in calls && calls[t].p == calls[u].p ==> t == u)
  }

  ghost predicate Inv(s: State, depth: nat) {
    && LaneOk(s.data, Hand(s.consumer, false), false, depth)
    && LaneOk(s.disco, Hand(s.consumer, true), true, depth)
    && Unique(s.started, s.calls, Done(s))
  }

  // ---------- every step keeps it ----------

  lemma UniqueReturn(started: set<Packet>, calls: map<Producer, Call>, done: multiset<Packet>, t: Producer)
    requires Unique(started, calls, done) && t in calls
    ensures Unique(started, calls - {t}, done + multiset{calls[t].p})
  {
  }

  lemma UniqueMove(started: set<Packet>, calls: map<Producer, Call>, done: multiset<Packet>, t: Producer, c: Call)
    requires Unique(started, calls, done) && t in calls && c.p == calls[t].p
    ensures Unique(started, calls[t := c], done)
  {
  }

  lemma UniqueBegin(started: set<Packet>, calls: map<Producer, Call>, done: multiset<Packet>, t: Producer, p: Packet)
    requires Unique(started, calls, done) && t !in calls && p !in started
    ensures Unique(started + {p}, calls[t := Call(p, 0, Check)], done)
  {
  }

  /** The lane lemmas above, with the kind of the packets. */
  lemma LaneEnter(l: Lane, p: Packet, hand: seq<Packet>, depth: nat)
    requires LaneOk(l, hand, p.disco, depth)
    ensures |l.queue| < depth ==> LaneOk(Enter(l, p), hand, p.disco, depth)
    ensures |l.queue| <= depth && multiset(Enter(l, p).done) == multiset(l.done) + multiset{p}
  {
    EnterKeeps(l, p, hand, depth);
    hide Ordered, Conserved;
  }

  lemma LaneHandOver(l: Lane, p: Packet, depth: nat)
    requires LaneOk(l, [], p.disco, depth) && l.queue == []
    ensures LaneOk(HandOver(l, p), [p], p.disco, depth)
    ensures multiset(HandOver(l, p).done) == multiset(l.done) + multiset{p}
  {
    hide Ordered, Conserved;
    HandOverKeeps(l, p, depth);
  }

  lemma LaneRefuse(l: Lane, p: Packet, why: Reason, hand: seq<Packet>, depth: nat)
    requires LaneOk(l, hand, p.disco, depth)
    ensures LaneOk(Refuse(l, p, why), hand, p.disco, depth)
    ensures multiset(Refuse(l, p, why).done) == multiset(l.done) + multiset{p}
  {
    hide Ordered, Conserved;
    RefuseKeeps(l, p, why, hand, depth);
  }

  lemma LaneDropHead(l: Lane, why: Reason, hand: seq<Packet>, kind: bool, depth: nat)
    requires LaneOk(l, hand, kind, depth)
    ensures LaneOk(DropHead(l, why), hand, kind, depth)
    ensures DropHead(l, why).done == l.done
  {
    hide Ordered, Conserved;
    DropHeadKeeps(l, why, hand, depth);
  }

  lemma LanePop(l: Lane, kind: bool, depth: nat)
    requires LaneOk(l, [], kind, depth) && l.queue != []
    ensures LaneOk(Pop(l), [l.queue[0]], kind, depth)
    ensures l.queue[0].disco == kind && Pop(l).done == l.done
  {
    hide Ordered, Conserved;
    PopKeeps(l, depth);
  }

  lemma LaneFinish(l: Lane, p: Packet, ok: bool, depth: nat)
    requires LaneOk(l, [p], p.disco, depth)
    ensures LaneOk(Finish(l, p, ok), [], p.disco, depth)
    ensures Finish(l, p, ok).done == l.done
  {
    hide Ordered, Conserved;
    FinishKeeps(l, p, ok, depth);
  }

  /** A call that returns, given what became of its lane. */
  lemma ReturnKeeps(s: State, depth: nat, t: Producer, l: Lane, c: Consumer)
    requires Inv(s, depth) && t in s.calls
    requires var kind := s.calls[t].p.disco;
      && LaneOk(l, Hand(c, kind), kind, depth)
      && multiset(l.done) == multiset(LaneOf(s, kind).done) + multiset{s.calls[t].p}
      && Hand(c, !kind) == Hand(s.consumer, !kind)
    ensures Inv(Returned(s, t, l).(consumer := c), depth)
  {
    hide LaneOk, Unique;
    UniqueReturn(s.started, s.calls, Done(s), t);
    assert Done(Returned(s, t, l)) == Done(s) + multiset{s.calls[t].p};
  }

  lemma CheckKeeps(s: State, depth: nat, t: Producer)
    requires Inv(s, depth) && t in s.calls
    ensures Inv(OnCheck(s, t), depth)
  {
    hide LaneOk, Unique;
    var c := s.calls[t];
    var l := LaneOf(s, c.p.disco);
    LaneRefuse(l, c.p, GoneDisconnected, Hand(s.consumer, c.p.disco), depth);
    ReturnKeeps(s, depth, t, Refuse(l, c.p, GoneDisconnected), s.consumer);
    UniqueMove(s.started, s.calls, Done(s), t, c.(at := Put));
  }

  lemma PutKeeps(s: State, depth: nat, t: Producer)
    requires Inv(s, depth) && t in s.calls
    ensures Inv(OnPut(s, depth, t), depth)
  {
    hide LaneOk, Unique;
    var c := s.calls[t];
    var l := LaneOf(s, c.p.disco);
    LaneEnter(l, c.p, Hand(s.consumer, c.p.disco), depth);
    if |l.queue| < depth {
      ReturnKeeps(s, depth, t, Enter(l, c.p), s.consumer);
    } else if depth == 0 && s.consumer.Waiting? {
      LaneHandOver(l, c.p, depth);
      ReturnKeeps(s, depth, t, HandOver(l, c.p), InHand(c.p));
    } else {
      UniqueMove(s.started, s.calls, Done(s), t, c.(at := Evict));
    }
  }

  lemma EvictKeeps(s: State, depth: nat, t: Producer)
    requires Inv(s, depth) && t in s.calls
    ensures Inv(OnEvict(s, t), depth)
  {
    hide LaneOk, Unique;
    var c := s.calls[t];
    var l := LaneOf(s, c.p.disco);
    var l' := DropHead(l, QueueHead);
    LaneDropHead(l, QueueHead, Hand(s.consumer, c.p.disco), c.p.disco, depth);
    LaneRefuse(l', c.p, QueueTail, Hand(s.consumer, c.p.disco), depth);
    ReturnKeeps(s, depth, t, Refuse(l', c.p, QueueTail), s.consumer);
    UniqueMove(s.started, s.calls, Done(s), t, Call(c.p, c.attempt + 1, Check));
  }

  lemma ConsumerKeeps(s: State, depth: nat, e: Event)
    requires Inv(s, depth) && Enabled(s, e) && !e.Begin? && !e.Advance?
    ensures Inv(Step(s, depth, e), depth)
  {
    hide LaneOk, Unique, OnCheck, OnPut, OnEvict;
    match e
    case Take(kind) => LanePop(LaneOf(s, kind), kind, depth);
    case Written(ok) => LaneFinish(LaneOf(s, s.consumer.p.disco), s.consumer.p, ok, depth);
    case DrainOne(kind) => LaneDropHead(LaneOf(s, kind), GoneDisconnected, [], kind, depth);
    case _ =>
  }

  lemma StepKeeps(s: State, depth: nat, e: Event)
    requires Inv(s, depth)
    ensures Inv(Step(s, depth, e), depth)
  {
    hide LaneOk, Unique, OnCheck, OnPut, OnEvict;
    if Enabled(s, e) {
      if e.Advance? {
        CheckKeeps(s, depth, e.t);
        PutKeeps(s, depth, e.t);
        EvictKeeps(s, depth, e.t);
      } else if e.Begin? {
        UniqueBegin(s.started, s.calls, Done(s), e.t, e.p);
      } else {
        ConsumerKeeps(s, depth, e);
      }
    }
  }

  lemma {:induction false} RunInvariant(depth: nat, events: seq<Event>)
    ensures Inv(Run(depth, events), depth)
  {
    if events != [] {
      hide Inv;
      RunInvariant(depth, events[..|events| - 1]);
      StepKeeps(Run(depth, events[..|events| - 1]), depth, events[|events| - 1]);
    }
  }

  // ---------- over every interleaving ----------

  /** The number of places where the packet is: queued, in the send loop's hand, written, or dropped. */
  function Places(s: State, p: Packet): nat {
    var l := LaneOf(s, p.disco);
    multiset(l.queue)[p] + multiset(Hand(s.consumer, p.disco))[p] + multiset(l.written)[p] +
        multiset(Dropped(l.drops))[p]
  }

  /** A packet whose sendPkt call has returned is in exactly one place, with at most one drop reason;
      no other packet is anywhere. */
  lemma ExactlyOnePlace(depth: nat, events: seq<Event>, p: Packet)
    ensures var s := Run(depth, events);
      Places(s, p) == if p in LaneOf(s, p.disco).done then 1 else 0
    ensures var drops := LaneOf(Run(depth, events), p.disco).drops;
      forall i, j :: 0 <= i < |drops| && 0 <= j < |drops| && drops[i].p == p && drops[j].p == p ==> i == j
  {
    hide Run, Ordered;
    RunInvariant(depth, events);
    var s := Run(depth, events);
    var l := LaneOf(s, p.disco);
    assert multiset(l.done)[p] <= Done(s)[p] <= 1;
    hide Unique, Inv;
    PlacesOfLane(l, Hand(s.consumer, p.disco), p);
  }

  lemma PlacesOfLane(l: Lane, hand: seq<Packet>, p: Packet)
    requires Conserved(l, hand) && multiset(l.done)[p] <= 1
    ensures multiset(l.queue)[p] + multiset(hand)[p] + multiset(l.written)[p] + multiset(Dropped(l.drops))[p]
         == if p in l.done then 1 else 0
    ensures forall i, j :: 0 <= i < |l.drops| && 0 <= j < |l.drops| && l.drops[i].p == p && l.drops[j].p == p ==> i == j
  {
    assert p in l.done <==> p in multiset(l.done);
    forall i, j | 0 <= i < |l.drops| && 0 <= j < |l.drops| && l.drops[i].p == p && l.drops[j].p == p
      ensures i == j
    {
      if i != j { TwiceCounted(Dropped(l.drops), i, j); }
    }
  }

  lemma TwiceCounted(xs: seq<Packet>, i: nat, j: nat)
    requires i < |xs| && j < |xs| && i != j && xs[i] == xs[j]
    ensures multiset(xs)[xs[i]] >= 2
  {
    var a, b := if i < j then i else j, if i < j then j else i;
    assert xs == xs[..a] + [xs[a]] + xs[a + 1..b] + [xs[b]] + xs[b + 1..];
  }

  /** Each queue is the tail of everything that entered it, never longer than its depth, and the packets
      written are an in-order selection of those that left it. */
  lemma QueuesInOrder(depth: nat, events: seq<Event>, kind: bool)
    ensures var l := LaneOf(Run(depth, events), kind);
      && |l.queue| <= depth && |l.queue| <= |l.entered|
      && l.entered == Left(l) + l.queue
      && InOrder(l.written, Left(l))
  {
    RunInvariant(depth, events);
    var s := Run(depth, events);
    hide Run, Unique, InOrder;
    LaneInOrder(LaneOf(s, kind), s.consumer, kind, depth);
  }

  lemma LaneInOrder(l: Lane, c: Consumer, kind: bool, depth: nat)
    requires LaneOk(l, Hand(c, kind), kind, depth)
    ensures |l.queue| <= depth && |l.queue| <= |l.entered| && l.entered == Left(l) + l.queue
      && InOrder(l.written, Left(l))
  {
    hide InOrder, Conserved, OfKind;
    if Hand(c, kind) == [] {
      assert l.written + [] == l.written;
    } else {
      InOrderDropLast(l.written, c.p, Left(l));
    }
  }

  // ---------- a lone producer ----------

  /** No call for this queue begins while another is under way. */
  predicate Alone(depth: nat, events: seq<Event>, kind: bool) {
    events == [] ||
    (var before := events[..|events| - 1];
     var e := events[|events| - 1];
     Alone(depth, before, kind)
     && (e.Begin? && e.p.disco == kind ==>
           forall t :: t in Run(depth, before).calls ==> Run(depth, before).calls[t].p.disco != kind))
  }

  /** At most one call is under way for this queue; after it evicted the head it finds room. */
  ghost predicate RoomFor(calls: map<Producer, Call>, queued: nat, depth: nat, kind: bool) {
    && (forall t, u :: t in calls && u in calls && calls[t].p.disco == kind && calls[u].p.disco == kind ==> t == u)
    && (forall t :: t in calls && calls[t].p.disco == kind && calls[t].attempt > 0 ==>
          calls[t].attempt == 1 && !calls[t].at.Evict? && queued < depth)
  }

  predicate NoTail(drops: seq<Drop>) {
    forall d :: d in drops ==> !d.why.QueueTail?
  }

  ghost predicate RoomAhead(s: State, depth: nat, kind: bool) {
    RoomFor(s.calls, |LaneOf(s, kind).queue|, depth, kind) && NoTail(LaneOf(s, kind).drops)
  }

  lemma RoomMoves(calls: map<Producer, Call>, queued: nat, depth: nat, kind: bool, t: Producer, c: Call, queued': nat)
    requires RoomFor(calls, queued, depth, kind) && t in calls && c.p == calls[t].p
    ensures queued' <= queued
      && (c.p.disco == kind && c.attempt > 0 ==> c.attempt == 1 && !c.at.Evict? && queued' < depth)
      ==> RoomFor(calls[t := c], queued', depth, kind)
    ensures queued' <= queued || calls[t].p.disco == kind ==> RoomFor(calls - {t}, queued', depth, kind)
    ensures calls[t].p.disco == kind && calls[t].attempt > 0 ==>
      calls[t].attempt == 1 && !calls[t].at.Evict? && queued < depth
  {
  }

  lemma RoomCheck(s: State, depth: nat, t: Producer, kind: bool)
    requires RoomAhead(s, depth, kind) && t in s.calls && s.calls[t].at.Check?
    ensures RoomAhead(OnCheck(s, t), depth, kind)
  {
    hide RoomFor;
    var c, n := s.calls[t], |LaneOf(s, kind).queue|;
    RoomMoves(s.calls, n, depth, kind, t, c.(at := Put), n);
  }

  lemma RoomPut(s: State, depth: nat, t: Producer, kind: bool)
    requires RoomAhead(s, depth, kind) && t in s.calls && s.calls[t].at.Put?
    ensures RoomAhead(OnPut(s, depth, t), depth, kind)
  {
    hide RoomFor, NoTail;
    var c, n := s.calls[t], |LaneOf(s, kind).queue|;
    RoomMoves(s.calls, n, depth, kind, t, c.(at := Evict), n);
    RoomMoves(s.calls, n, depth, kind, t, c, n + 1);
  }

  lemma RoomEvict(s: State, depth: nat, t: Producer, kind: bool)
    requires RoomAhead(s, depth, kind) && t in s.calls && s.calls[t].at.Evict?
    requires |LaneOf(s, kind).queue| <= depth && depth >= 1
    ensures RoomAhead(OnEvict(s, t), depth, kind)
  {
    hide RoomFor;
    var c, n := s.calls[t], |LaneOf(s, kind).queue|;
    var n' := if c.p.disco == kind && n > 0 then n - 1 else n;
    RoomMoves(s.calls, n, depth, kind, t, Call(c.p, c.attempt + 1, Check), n');
  }

  lemma RoomShrinks(calls: map<Producer, Call>, queued: nat, queued': nat, depth: nat, kind: bool)
    requires RoomFor(calls, queued, depth, kind) && queued' <= queued
    ensures RoomFor(calls, queued', depth, kind)
  {
  }

  lemma RoomBegin(calls: map<Producer, Call>, queued: nat, depth: nat, kind: bool, t: Producer, p: Packet)
    requires RoomFor(calls, queued, depth, kind) && t !in calls
    requires p.disco == kind ==> forall t :: t in calls ==> calls[t].p.disco != kind
    ensures RoomFor(calls[t := Call(p, 0, Check)], queued, depth, kind)
  {
  }

  lemma RoomConsumer(s: State, depth: nat, e: Event, kind: bool)
    requires RoomAhead(s, depth, kind) && Enabled(s, e) && !e.Begin? && !e.Advance?
    ensures RoomAhead(Step(s, depth, e), depth, kind)
  {
    hide RoomFor, OnCheck, OnPut, OnEvict;
    var n := |LaneOf(s, kind).queue|;
    if n > 0 { RoomShrinks(s.calls, n, n - 1, depth, kind); }
  }

  lemma RoomStep(s: State, depth: nat, e: Event, kind: bool)
    requires RoomAhead(s, depth, kind) && |LaneOf(s, kind).queue| <= depth && depth >= 1
    requires e.Begin? && e.p.disco == kind ==> forall t :: t in s.calls ==> s.calls[t].p.disco != kind
    ensures RoomAhead(Step(s, depth, e), depth, kind)
  {
    hide RoomFor, NoTail, OnCheck, OnPut, OnEvict;
    if Enabled(s, e) {
      if e.Advance? {
        match s.calls[e.t].at
        case Check => RoomCheck(s, depth, e.t, kind);
        case Put => RoomPut(s, depth, e.t, kind);
        case Evict => RoomEvict(s, depth, e.t, kind);
      } else if e.Begin? {
        RoomBegin(s.calls, |LaneOf(s, kind).queue|, depth, kind, e.t, e.p);
      } else {
        RoomConsumer(s, depth, e, kind);
      }
    }
  }

  /** With a queue of depth at least 1, a producer that has the queue to itself never gives up on a packet,
      whatever the send loop does meanwhile. */
  lemma {:induction false} LoneProducerNeverTailDrops(depth: nat, events: seq<Event>, kind: bool)
    requires depth >= 1 && Alone(depth, events, kind)
    ensures RoomAhead(Run(depth, events), depth, kind) && NoTail(LaneOf(Run(depth, events), kind).drops)
  {
    if events != [] {
      var before := events[..|events| - 1];
      LoneProducerNeverTailDrops(depth, before, kind);
      QueuesInOrder(depth, before, kind);
      hide RoomAhead, Step, InOrder;
      RoomStep(Run(depth, before), depth, events[|events| - 1], kind);
    }
  }

  lemma Advanced(events: seq<Event>, kind: bool) returns (longer: seq<Event>)
    requires Alone(0, events, kind)
    ensures Alone(0, longer, kind) && Run(0, longer) == Step(Run(0, events), 0, Advance(0))
  {
    longer := events + [Advance(0)];
    assert longer[..|events|] == events;
  }

  /** With an unbuffered queue it does: a lone packet sent while the send loop is not waiting is tail-dropped. */
  lemma UnbufferedQueueTailDrops(p: Packet) returns (events: seq<Event>)
    ensures Alone(0, events, p.disco)
    ensures Drop(p, QueueTail) in LaneOf(Run(0, events), p.disco).drops
  {
    events := [Begin(0, p)];
    assert events[..0] == [];
    var n := 0;
    while n < Attempts
      invariant n <= Attempts && Alone(0, events, p.disco)
      invariant var s := Run(0, events);
        && s.consumer.Polling? && !s.gone && LaneOf(s, p.disco).queue == []
        && (n < Attempts ==> s.calls == map[0 := Call(p, n, Check)])
        && (n == Attempts ==> Drop(p, QueueTail) in LaneOf(s, p.disco).drops)
    {
      events := Advanced(events, p.disco);
      events := Advanced(events, p.disco);
      events := Advanced(events, p.disco);
      n := n + 1;
    }
  }

  // ---------- three attempts, and why a packet was dropped ----------

  /** Why a packet was dropped: a tail drop or a refusal never entered the queue; the head of the queue, a failed write
      and the final drain did. A packet is refused only once the client is gone, and a write fails or a queue is
      drained only when the send loop is over. */
  predicate Explained(gone: bool, over: bool, entered: seq<Packet>, d: Drop) {
    match d.why
    case QueueTail => d.p !in entered
    case QueueHead => d.p in entered
    case WriteError => d.p in entered && over
    case GoneDisconnected => if d.p in entered then over else gone
  }

  predicate AllExplained(gone: bool, over: bool, l: Lane) {
    && (forall d :: d in l.drops ==> Explained(gone, over, l.entered, d) && d.p in l.done)
    && (forall p :: p in l.entered ==> p in l.done)
  }

  predicate Over(c: Consumer) {
    c.Draining? || c.Exited?
  }

  ghost predicate CallsOk(calls: map<Producer, Call>) {
    forall t :: t in calls ==> calls[t].attempt < 3
  }

  ghost predicate ReasonsOk(s: State) {
    && AllExplained(s.gone, Over(s.consumer), s.data) && AllExplained(s.gone, Over(s.consumer), s.disco)
    && CallsOk(s.calls)
  }

  lemma ExplainedLater(gone: bool, over: bool, l: Lane, gone': bool, over': bool)
    requires AllExplained(gone, over, l) && (gone ==> gone') && (over ==> over')
    ensures AllExplained(gone', over', l)
  {
  }

  lemma ExplainedEnter(gone: bool, over: bool, l: Lane, p: Packet)
    requires AllExplained(gone, over, l) && p !in l.done
    ensures AllExplained(gone, over, Enter(l, p)) && AllExplained(gone, over, HandOver(l, p))
  {
  }

  lemma ExplainedRefuse(gone: bool, over: bool, l: Lane, p: Packet, why: Reason)
    requires AllExplained(gone, over, l) && p !in l.done && (why.QueueTail? || (why.GoneDisconnected? && gone))
    ensures AllExplained(gone, over, Refuse(l, p, why))
  {
  }

  lemma ExplainedDropHead(gone: bool, over: bool, l: Lane, why: Reason)
    requires AllExplained(gone, over, l) && (l.queue != [] ==> l.queue[0] in l.entered)
    requires why.QueueHead? || (why.GoneDisconnected? && over)
    ensures AllExplained(gone, over, DropHead(l, why))
  {
  }

  lemma ExplainedFinish(gone: bool, over: bool, l: Lane, p: Packet, ok: bool)
    requires AllExplained(gone, over, l) && p in l.entered && (ok || over)
    ensures AllExplained(gone, over, Finish(l, p, ok))
  {
  }

  lemma {:induction false} InOrderIn(some: seq<Packet>, all: seq<Packet>, p: Packet)
    requires InOrder(some, all) && p in some
    ensures p in all
  {
    if some[|some| - 1] == all[|all| - 1] && InOrder(some[..|some| - 1], all[..|all| - 1]) {
      if p in some[..|some| - 1] { InOrderIn(some[..|some| - 1], all[..|all| - 1], p); }
    } else {
      InOrderIn(some, all[..|all| - 1], p);
    }
  }

  /** What is in the queue has entered it, and so has what the send loop holds. */
  lemma QueueEntered(s: State, depth: nat, kind: bool)
    requires Inv(s, depth)
    ensures var l := LaneOf(s, kind); l.queue != [] ==> l.queue[0] in l.entered
    ensures s.consumer.InHand? ==> s.consumer.p in LaneOf(s, s.consumer.p.disco).entered
  {
    var l := LaneOf(s, kind);
    assert LaneOk(l, Hand(s.consumer, kind), kind, depth);
    if l.queue != [] { assert l.queue[0] == l.entered[|l.entered| - |l.queue|]; }
    if s.consumer.InHand? {
      var m := LaneOf(s, s.consumer.p.disco);
      assert LaneOk(m, [s.consumer.p], s.consumer.p.disco, depth);
      InOrderIn(m.written + [s.consumer.p], Left(m), s.consumer.p);
    }
  }

  /** The packet of a call under way has not returned yet. */
  lemma CallIsNew(s: State, depth: nat, t: Producer)
    requires Inv(s, depth) && t in s.calls
    ensures s.calls[t].p !in LaneOf(s, s.calls[t].p.disco).done
  {
    var p := s.calls[t].p;
    assert p !in Done(s);
    assert p in LaneOf(s, p.disco).done ==> p in multiset(LaneOf(s, p.disco).done);
  }

  lemma AdvanceReasons(s: State, depth: nat, t: Producer)
    requires Inv(s, depth) && ReasonsOk(s) && t in s.calls
    ensures s.calls[t].at.Check? ==> ReasonsOk(OnCheck(s, t))
    ensures s.calls[t].at.Put? ==> ReasonsOk(OnPut(s, depth, t))
    ensures s.calls[t].at.Evict? ==> ReasonsOk(OnEvict(s, t))
  {
    hide Inv, AllExplained, Enter, HandOver, Refuse, DropHead;
    var c, gone, over := s.calls[t], s.gone, Over(s.consumer);
    var l := LaneOf(s, c.p.disco);
    CallIsNew(s, depth, t);
    QueueEntered(s, depth, c.p.disco);
    if gone { ExplainedRefuse(gone, over, l, c.p, GoneDisconnected); }
    ExplainedEnter(gone, over, l, c.p);
    var l' := DropHead(l, QueueHead);
    ExplainedDropHead(gone, over, l, QueueHead);
    DropHeadDone(l, QueueHead);
    ExplainedRefuse(gone, over, l', c.p, QueueTail);
  }

  lemma DropHeadDone(l: Lane, why: Reason)
    ensures DropHead(l, why).done == l.done
  {
  }

  lemma ConsumerReasons(s: State, depth: nat, e: Event)
    requires Inv(s, depth) && ReasonsOk(s) && Enabled(s, e) && !e.Begin? && !e.Advance?
    ensures ReasonsOk(Step(s, depth, e))
  {
    hide Inv, AllExplained, OnCheck, OnPut, OnEvict, Finish, DropHead;
    QueueEntered(s, depth, false);
    QueueEntered(s, depth, true);
    ExplainedLater(s.gone, Over(s.consumer), s.data, true, Over(s.consumer));
    ExplainedLater(s.gone, Over(s.consumer), s.disco, true, Over(s.consumer));
    ExplainedLater(s.gone, Over(s.consumer), s.data, s.gone, true);
    ExplainedLater(s.gone, Over(s.consumer), s.disco, s.gone, true);
    match e
    case Take(kind) => ExplainedPop(s.gone, Over(s.consumer), LaneOf(s, kind));
    case Written(ok) =>
      ExplainedFinish(s.gone, !ok || Over(s.consumer), LaneOf(s, s.consumer.p.disco), s.consumer.p, ok);
    case DrainOne(kind) => ExplainedDropHead(s.gone, true, LaneOf(s, kind), GoneDisconnected);
    case _ =>
  }

  lemma ExplainedPop(gone: bool, over: bool, l: Lane)
    requires AllExplained(gone, over, l) && l.queue != []
    ensures AllExplained(gone, over, Pop(l))
  {
  }

  /** In every interleaving each drop has the reason that fits how far the packet had come, and no call goes beyond a
      third attempt. */
  lemma {:induction false} DropsExplained(depth: nat, events: seq<Event>)
    ensures ReasonsOk(Run(depth, events))
  {
    if events != [] {
      var front, e := events[..|events| - 1], events[|events| - 1];
      DropsExplained(depth, front);
      RunInvariant(depth, front);
      var s := Run(depth, front);
      hide Run, Inv, ReasonsOk;
      StepReasons(s, depth, e);
    }
  }

  lemma StepReasons(s: State, depth: nat, e: Event)
    requires Inv(s, depth) && ReasonsOk(s)
    ensures ReasonsOk(Step(s, depth, e))
  {
    if Enabled(s, e) {
      hide Inv, AllExplained, OnCheck, OnPut, OnEvict;
      if e.Advance? {
        AdvanceReasons(s, depth, e.t);
      } else if !e.Begin? {
        hide ReasonsOk;
        ConsumerReasons(s, depth, e);
      }
    }
  }

  /** A call gives up exactly at its third attempt: before that a full queue sends it round again. */
  lemma ThirdAttemptGivesUp(s: State, t: Producer)
    requires t in s.calls && s.calls[t].at.Evict?
    ensures var s', p := OnEvict(s, t), s.calls[t].p;
      if s.calls[t].attempt < 2 then t in s'.calls && s'.calls[t] == Call(p, s.calls[t].attempt + 1, Check)
      else t !in s'.calls && Drop(p, QueueTail) in LaneOf(s', p.disco).drops
  {
  }

  // ---------- after the send loop has gone ----------

  function Onward(s: State, depth: nat, events: seq<Event>): State
    decreases |events|
  {
    if events == [] then s else Onward(Step(s, depth, events[0]), depth, events[1..])
  }

  /** No call can put a packet any more: the context is done, and no call passed that test before. */
  predicate Quiet(s: State) {
    s.gone && forall t :: t in s.calls ==> !s.calls[t].at.Put?
  }

  predicate Drained(s: State) {
    s.consumer.Exited? && s.data.queue == [] && s.disco.queue == []
  }

  /** A drained client whose context is done stays drained: its packets were all counted. */
  lemma {:induction false} QuietStaysDrained(s: State, depth: nat, events: seq<Event>)
    requires Drained(s) && Quiet(s)
    ensures Drained(Onward(s, depth, events))
    decreases |events|
  {
    if events != [] {
      QuietStep(s, depth, events[0]);
      QuietStaysDrained(Step(s, depth, events[0]), depth, events[1..]);
    }
  }

  lemma QuietStep(s: State, depth: nat, e: Event)
    requires Drained(s) && Quiet(s)
    ensures Drained(Step(s, depth, e)) && Quiet(Step(s, depth, e))
  {
  }

  /** Otherwise the drain can miss a packet: onSendLoopDone runs once, and a call that still gets past the
      context test leaves its packet in a queue nobody reads, neither written nor counted as dropped. */
  lemma DrainCanMiss(s: State, depth: nat, t: Producer, p: Packet) returns (events: seq<Event>)
    requires Drained(s) && !Quiet(s) && depth >= 1 && t !in s.calls && p !in s.started
    ensures Onward(s, depth, events).consumer.Exited? && !Drained(Onward(s, depth, events))
  {
    if u :| u in s.calls && s.calls[u].at.Put? {
      events := [Advance(u)];
      assert Onward(s, depth, events) == Step(s, depth, Advance(u));
    } else {
      events := [Begin(t, p), Advance(t), Advance(t)];
      var s1 := Step(s, depth, Begin(t, p));
      var s2 := Step(s1, depth, Advance(t));
      assert events[1..] == [Advance(t), Advance(t)] && events[1..][1..] == [Advance(t)];
      assert Onward(s, depth, events) == Onward(s1, depth, events[1..]) == Onward(s2, depth, [Advance(t)]);
      assert Onward(s2, depth, [Advance(t)]) == Step(s2, depth, Advance(t));
    }
  }

  /** Such a state is reached when the send loop quits on a write error, before the context is done: a packet
      sent then is queued for good. */
  lemma DrainMissesPacket(depth: nat, p: Packet)
    requires depth >= 1
    ensures var s := Run(depth, [Quit, DrainEnd, Begin(0, p), Advance(0), Advance(0)]);
      && s.consumer.Exited? && LaneOf(s, p.disco).queue == [p] && p in LaneOf(s, p.disco).done
      && Places(s, p) == 1
  {
    var events := [Quit, DrainEnd, Begin(0, p), Advance(0), Advance(0)];
    assert events[..4] == [Quit, DrainEnd, Begin(0, p), Advance(0)]
        && events[..4][..3] == [Quit, DrainEnd, Begin(0, p)];
    assert events[..4][..3][..2] == [Quit, DrainEnd] && [Quit, DrainEnd][..1] == [Quit] && [Quit][..0] == [];
    var s3 := Run(depth, events[..4][..3]);
    assert Run(depth, [Quit]) == Start.(consumer := Draining);
    assert Run(depth, [Quit, DrainEnd]) == Start.(consumer := Exited);
    assert s3.consumer.Exited? && !s3.gone && s3.calls == map[0 := Call(p, 0, Check)]
        && LaneOf(s3, p.disco) == EmptyLane;
    var s4 := Run(depth, events[..4]);
    assert s4.calls == map[0 := Call(p, 0, Put)] && LaneOf(s4, p.disco) == EmptyLane && s4.consumer.Exited?;
    assert Run(depth, events) == OnPut(s4, depth, 0);
    ExactlyOnePlace(depth, events, p);
  }

  // ---------- the code as it runs alone ----------

  /** A call that runs on by itself for `n` selects. */
  function CallAfter(s: State, depth: nat, t: Producer, n: nat): State {
    if n == 0 then s else Step(CallAfter(s, depth, t, n - 1), depth, Advance(t))
  }

  /** The queue and the drops after one whole call. */
  function SoloLane(gone: bool, depth: nat, l: Lane, p: Packet): (seq<Packet>, seq<Drop>) {
    if gone then (l.queue, l.drops + [Drop(p, GoneDisconnected)])
    else if |l.queue| < depth then (l.queue + [p], l.drops)
    else if l.queue != [] then (l.queue[1..] + [p], l.drops + [Drop(l.queue[0], QueueHead)])
    else (l.queue, l.drops + [Drop(p, QueueTail)])
  }

  /** In the interleaved machine, too, a call left alone while the send loop is not waiting ends like that, after one
      select if the client is gone, two if there is room, five if the oldest packet must go, and nine without a
      buffer; and it leaves the other queue alone. */
  lemma CallAlone(s: State, depth: nat, t: Producer)
    requires t in s.calls && s.calls[t].at.Check? && s.calls[t].attempt == 0 && !s.consumer.Waiting?
    requires |LaneOf(s, s.calls[t].p.disco).queue| <= depth
    ensures var p, l := s.calls[t].p, LaneOf(s, s.calls[t].p.disco);
      var n := if s.gone then 1 else if |l.queue| < depth then 2 else if depth > 0 then 5 else 9;
      var s' := CallAfter(s, depth, t, n);
      && t !in s'.calls
      && (LaneOf(s', p.disco).queue, LaneOf(s', p.disco).drops) == SoloLane(s.gone, depth, l, p)
      && LaneOf(s', !p.disco) == LaneOf(s, !p.disco) && s'.consumer == s.consumer
  {
    hide Step;
    if s.gone || |LaneOf(s, s.calls[t].p.disco).queue| < depth {
      RoundEnds(s, depth, t);
    } else {
      RoundFails(s, depth, t);
      var s3 := CallAfter(s, depth, t, 3);
      if depth > 0 {
        RoundEnds(s3, depth, t);
        AloneAdds(s, depth, t, 3, 2);
      } else {
        RoundFails(s3, depth, t);
        AloneAdds(s, depth, t, 3, 3);
        LastRound(CallAfter(s, depth, t, 6), depth, t);
        AloneAdds(s, depth, t, 6, 3);
      }
    }
  }

  /** A round that finds the client gone, or room in the queue. */
  lemma RoundEnds(s: State, depth: nat, t: Producer)
    requires t in s.calls && s.calls[t].at.Check?
    requires s.gone || |LaneOf(s, s.calls[t].p.disco).queue| < depth
    ensures var p, kind := s.calls[t].p, s.calls[t].p.disco;
      var l, s' := LaneOf(s, kind), CallAfter(s, depth, t, if s.gone then 1 else 2);
      && t !in s'.calls && LaneOf(s', !kind) == LaneOf(s, !kind) && s'.consumer == s.consumer
      && LaneOf(s', kind).queue == (if s.gone then l.queue else l.queue + [p])
      && LaneOf(s', kind).drops == if s.gone then l.drops + [Drop(p, GoneDisconnected)] else l.drops
  {
    Selects(s, depth, t, if s.gone then 1 else 2);
  }

  /** The third round without a buffer. */
  lemma LastRound(s: State, depth: nat, t: Producer)
    requires t in s.calls && s.calls[t].at.Check? && s.calls[t].attempt == 2 && !s.consumer.Waiting? && !s.gone
    requires depth == 0 && LaneOf(s, s.calls[t].p.disco).queue == []
    ensures var p, kind := s.calls[t].p, s.calls[t].p.disco;
      var l, s' := LaneOf(s, kind), CallAfter(s, depth, t, 3);
      && t !in s'.calls && LaneOf(s', !kind) == LaneOf(s, !kind) && s'.consumer == s.consumer
      && LaneOf(s', kind).queue == [] && LaneOf(s', kind).drops == l.drops + [Drop(p, QueueTail)]
  {
    Selects(s, depth, t, 3);
  }

  lemma {:induction false} AloneAdds(s: State, depth: nat, t: Producer, n: nat, m: nat)
    ensures CallAfter(s, depth, t, n + m) == CallAfter(CallAfter(s, depth, t, n), depth, t, m)
  {
    if m > 0 {
      hide Step;
      AloneAdds(s, depth, t, n, m - 1);
    }
  }

  lemma Selects(s: State, depth: nat, t: Producer, n: nat)
    requires n <= 3
    ensures var one := Step(s, depth, Advance(t));
      var two := Step(one, depth, Advance(t));
      CallAfter(s, depth, t, n) == if n == 0 then s else if n == 1 then one else if n == 2 then two
                               else Step(two, depth, Advance(t))
  {
    hide Step;
    assert CallAfter(s, depth, t, 0) == s;
    if n >= 1 { assert CallAfter(s, depth, t, 1) == Step(s, depth, Advance(t)); }
    if n >= 2 { assert CallAfter(s, depth, t, 2) == Step(CallAfter(s, depth, t, 1), depth, Advance(t)); }
  }

  /** A round that finds the queue full drops the oldest packet, if there is one, and goes on to the next attempt. */
  lemma RoundFails(s: State, depth: nat, t: Producer)
    requires t in s.calls && s.calls[t].at.Check? && s.calls[t].attempt < 2 && !s.consumer.Waiting? && !s.gone
    requires |LaneOf(s, s.calls[t].p.disco).queue| == depth
    ensures var p, kind := s.calls[t].p, s.calls[t].p.disco;
      var s' := CallAfter(s, depth, t, 3);
      && t in s'.calls && s'.calls[t] == Call(p, s.calls[t].attempt + 1, Check) && !s'.gone && s'.consumer == s.consumer
      && LaneOf(s', !kind) == LaneOf(s, !kind)
      && LaneOf(s', kind) == DropHead(LaneOf(s, kind), QueueHead)
  {
    Selects(s, depth, t, 3);
  }

  /** One client's queues as fields. */
  class Outbox {
    const depth: nat
    var gone: bool
    var data: seq<Packet>
    var disco: seq<Packet>
    var drops: seq<Drop>

    ghost predicate Valid()
      reads this
    {
      |data| <= depth && |disco| <= depth
    }

    constructor (depth: nat)
      ensures Valid() && this.depth == depth && !gone && data == [] && disco == [] && drops == []
    {
      this.depth := depth;
      gone, data, disco, drops := false, [], [], [];
    }

    /** sendPkt while no other goroutine uses the queue and the send loop is not waiting: exactly one of the
        packet dropped because the client is gone, queued, queued in place of the oldest, or tail-dropped,
        the last for an unbuffered queue only. */
    method SendPkt(p: Packet)
      requires Valid()
      modifies this`data, this`disco, this`drops
      ensures Valid()
      ensures (if p.disco then data else disco) == old(if p.disco then data else disco)
      ensures var was, now := old(if p.disco then disco else data), if p.disco then disco else data;
        if gone then now == was && drops == old(drops) + [Drop(p, GoneDisconnected)]
        else if |was| < depth then now == was + [p] && drops == old(drops)
        else if depth > 0 then now == was[1..] + [p] && drops == old(drops) + [Drop(was[0], QueueHead)]
        else now == was && drops == old(drops) + [Drop(p, QueueTail)]
    {
      var queue := if p.disco then disco else data;
      ghost var was := queue;
      for attempt := 0 to Attempts
        invariant attempt > 0 ==> !gone && |was| == depth
        invariant attempt > 0 ==> attempt == 1 || depth == 0
        invariant queue == (if attempt == 0 || depth == 0 then was else was[1..])
        invariant drops == old(drops) + (if attempt == 0 || depth == 0 then [] else [Drop(was[0], QueueHead)])
        invariant (if p.disco then disco else data) == queue
        invariant (if p.disco then data else disco) == old(if p.disco then data else disco)
      {
        if gone {
          drops := drops + [Drop(p, GoneDisconnected)];
          return;
        }
        if |queue| < depth {
          queue := queue + [p];
          if p.disco { disco := queue; } else { data := queue; }
          return;
        }
        if queue != [] {
          drops := drops + [Drop(queue[0], QueueHead)];
          queue := queue[1..];
          if p.disco { disco := queue; } else { data := queue; }
        }
      }
      drops := drops + [Drop(p, QueueTail)];
    }

    /** The drain of onSendLoopDone: both queues empty, every packet of both counted once as disconnected. */
    method OnSendLoopDone() returns (ghost counted: seq<Drop>)
      modifies this`data, this`disco, this`drops
      ensures data == [] && disco == [] && drops == old(drops) + counted
      ensures multiset(Dropped(counted)) == multiset(old(data)) + multiset(old(disco))
      ensures forall d :: d in counted ==> d.why.GoneDisconnected?
    {
      counted := [];
      while data != [] || disco != []
        invariant drops == old(drops) + counted
        invariant multiset(Dropped(counted)) + multiset(data) + multiset(disco)
               == multiset(old(data)) + multiset(old(disco))
        invariant forall d :: d in counted ==> d.why.GoneDisconnected?
        decreases |data| + |disco|
      {
        var p;
        var either: bool := *;
        if data != [] && (disco == [] || either) {
          assert data == [data[0]] + data[1..];
          p, data := data[0], data[1..];
        } else {
          assert disco == [disco[0]] + disco[1..];
          p, disco := disco[0], disco[1..];
        }
        DroppedSnoc(counted, Drop(p, GoneDisconnected));
        drops, counted := drops + [Drop(p, GoneDisconnected)], counted + [Drop(p, GoneDisconnected)];
      }
    }
  }
}
