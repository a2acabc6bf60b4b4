/**
 Further laws of every run of the DERP server, each against a ledger read off the events: who is told that a key
 has gone, who is enrolled as a watcher and what it is sent, who is a home client, and how many duplicate
 connections there ever were.
 */
module ServerLaws {
  import opened Basics
  import opened Connections
  import opened Forwarders
  import opened ServerState
  import R = Registry
  import G = Gauges
  import V = MeshView
  import P = PeerGone
  import T = Tracker

  // ---------- a connection that was sent a packet of a key is told when the key goes ----------

  lemma SawStays(s: State, p: R.Policy, self: Key, e: Event, c: Conn, k: Key)
    requires k in P.Saw(s.gone, c)
    ensures k in P.Saw(Step(s, p, self, e).gone, c)
  {
    hide R.Unregister, R.Register, R.Speak, G.OnUnregister, G.OnRegister, V.Broadcast, V.AddWatcher, V.RemoveWatcher,
         T.Opening, T.Closing, T.CountReceived, T.CountSent, EntryStep;
  }

  lemma CompleteStep(s: State, p: R.Policy, self: Key, e: Event)
    requires Inv(s, p) && P.Complete(s.gone)
    ensures P.Complete(Step(s, p, self, e).gone)
  {
    hide Inv, OnRegister, P.Complete, P.NotePeerGone, P.NoteSend, P.BeginDone, P.RemoveOne, P.EndDone, P.HandlesOk,
         R.Unregister, R.Register, R.Speak, G.OnUnregister, G.OnRegister, V.Broadcast, V.AddWatcher, V.RemoveWatcher,
         T.Opening, T.Closing, T.CountReceived, T.CountSent, EntryStep, Enabled;
    HandlesParts(s, p);
    RegisterTellsNobody(s, e);
    match e
    case Unregister(c) => P.GoneComplete(s.gone, c.key);
    case RemoveForwarder(k, _, _) => P.GoneComplete(s.gone, k);
    case WriteFrom(c, src) => P.SendComplete(s.gone, c, src);
    case SendLoopEnds(c) => P.BeginComplete(s.gone, c);
    case RemoveSubscription(c, k) => P.RemoveComplete(s.gone, c, k);
    case SendLoopEnded(c) => P.EndComplete(s.gone, c);
    case _ =>
  }

  lemma HandlesParts(s: State, p: R.Policy)
    requires Inv(s, p)
    ensures P.HandlesOk(s.gone.sawSrc, s.gone.next)
  {
  }

  lemma RegisterTellsNobody(s: State, e: Event)
    ensures e.Register? ==> OnRegister(s, e.c, e.info).gone == s.gone
  {
  }

  lemma {:induction false} RunComplete(p: R.Policy, self: Key, events: seq<Event>)
    ensures P.Complete(Run(p, self, events).gone)
  {
    if events != [] {
      hide Inv, P.Complete, Step;
      RunComplete(p, self, events[..|events| - 1]);
      RunInvariant(p, self, events[..|events| - 1]);
      CompleteStep(Run(p, self, events[..|events| - 1]), p, self, events[|events| - 1]);
    }
  }

  lemma Wrote(s: State, p: R.Policy, self: Key, c: Conn, src: Key)
    requires c in s.live && c !in s.gone.closing && c !in s.gone.done
    ensures src in P.Saw(Step(s, p, self, WriteFrom(c, src)).gone, c)
  {
  }

  lemma {:induction false} SawForGood(p: R.Policy, self: Key, events: seq<Event>, i: nat, c: Conn, src: Key)
    requires i < |events| && events[i] == WriteFrom(c, src) && c in Run(p, self, events[..i]).live
    requires var g := Run(p, self, events[..i]).gone; c !in g.closing && c !in g.done
    ensures src in P.Saw(Run(p, self, events).gone, c)
  {
    var n := |events| - 1;
    hide Step;
    if i == n {
      Wrote(Run(p, self, events[..n]), p, self, c, src);
    } else {
      assert events[..n][..i] == events[..i];
      SawForGood(p, self, events[..n], i, c, src);
      SawStays(Run(p, self, events[..n]), p, self, events[n], c, src);
    }
  }

  /** A connection that was written a packet of `src` while its send loop ran is, from then on, subscribed to `src`, or
      has been told that `src` has gone, or its send loop has ended or is ending. */
  lemma WrittenIsTold(p: R.Policy, self: Key, events: seq<Event>, i: nat, c: Conn, src: Key)
    requires i < |events| && events[i] == WriteFrom(c, src) && c in Run(p, self, events[..i]).live
    requires var g := Run(p, self, events[..i]).gone; c !in g.closing && c !in g.done
    ensures var g := Run(p, self, events).gone;
            P.Subscribed(g, c, src) || P.Told(g, c, src) || c in g.done || c in g.closing
  {
    hide Run, P.Subscribed, P.Told;
    SawForGood(p, self, events, i, c, src);
    RunComplete(p, self, events);
  }

  // ---------- watchers ----------

  /** The connections that asked to watch and have not left, the server's own key excepted. */
  ghost function Enrolled(p: R.Policy, self: Key, events: seq<Event>): set<Conn> {
    if events == [] then {}
    else
      var front, e := events[..|events| - 1], events[|events| - 1];
      var before := Enrolled(p, self, front);
      if !Enabled(Run(p, self, front), e) then before
      else if e.Watch? && e.c.key != self then before + {e.c}
      else if e.Unregister? then before - {e.c}
      else before
  }

  /** What a registration and a departure do beside the registry. */
  lemma RegisterParts(s: State, c: Conn, info: T.Connection)
    ensures var s' := OnRegister(s, c, info);
      && s'.views.watchers == s.views.watchers && s'.preferred == s.preferred
      && s'.gauges.dupTotal == G.OnRegister(s.gauges, s.reg, c).dupTotal
  {
    hide R.Register, G.OnRegister, V.Told, T.Opening;
  }

  lemma UnregisterParts(s: State, p: R.Policy, c: Conn)
    requires Inv(s, p) && c in s.live
    ensures var s' := OnUnregister(s, c);
      && s'.views.watchers == s.views.watchers - {c} && s'.preferred == s.preferred - {c}
      && s'.gauges.dupTotal == s.gauges.dupTotal
  {
    hide Inv, R.Inv, R.Unregister, G.OnUnregister, V.Told, T.Closing, P.NotePeerGone;
    InvParts(s, p);
    R.UnregisterKeeps(s.reg, s.live, p, c);
    WatcherMeshes(s, p, c);
    TotalStays(s.gauges, s.reg, c, c in s.preferred);
  }

  lemma TotalStays(g: G.Gauges, r: R.Reg, c: Conn, isHome: bool)
    ensures G.OnUnregister(g, r, c, isHome).dupTotal == g.dupTotal
  {
    hide R.Unregister, Removed;
  }

  lemma WatcherMeshes(s: State, p: R.Policy, c: Conn)
    requires Inv(s, p)
    ensures c in s.views.watchers ==> c.canMesh
  {
  }

  lemma WatchersStep(s: State, p: R.Policy, self: Key, e: Event)
    requires Inv(s, p) && Enabled(s, e)
    ensures Step(s, p, self, e).views.watchers ==
      if e.Watch? && e.c.key != self then s.views.watchers + {e.c}
      else if e.Unregister? then s.views.watchers - {e.c} else s.views.watchers
  {
    hide Inv, OnRegister, OnUnregister, R.Speak, V.Snapshot, V.LogOf, P.NotePeerGone, T.CountReceived, T.CountSent,
         EntryStep;
    match e
    case Register(c, info) => RegisterParts(s, c, info);
    case Unregister(c) => UnregisterParts(s, p, c);
    case _ =>
  }

  lemma {:induction false} WatchersAreEnrolled(p: R.Policy, self: Key, events: seq<Event>)
    ensures Run(p, self, events).views.watchers == Enrolled(p, self, events)
    ensures forall w :: w in Enrolled(p, self, events) ==> w.key != self
  {
    if events != [] {
      hide Inv, Step, Enabled;
      var front, e := events[..|events| - 1], events[|events| - 1];
      WatchersAreEnrolled(p, self, front);
      RunInvariant(p, self, front);
      if Enabled(Run(p, self, front), e) {
        WatchersStep(Run(p, self, front), p, self, e);
      } else {
        Idle(Run(p, self, front), p, self, e);
      }
    }
  }

  lemma Idle(s: State, p: R.Policy, self: Key, e: Event)
    requires !Enabled(s, e)
    ensures Step(s, p, self, e) == s
  {
  }

  // ---------- what a watcher is sent ----------

  /** Every key once more, in order. */
  function AllPresent(order: seq<Key>): seq<V.Record> {
    seq(|order|, i requires 0 <= i < |order| => V.Record(order[i], true))
  }

  /** The records that one enabled event adds for `w`, which is or is not a watcher by then: each registration, and
      each departure that leaves its key without a connection; and, when `w` itself enrols, the keys there are. */
  ghost function News(s: State, p: R.Policy, self: Key, e: Event, w: Conn, watches: bool): seq<V.Record> {
    match e
    case Register(c, _) => if watches then [V.Record(c.key, true)] else []
    case Unregister(c) => if watches && R.ConnsOf(s.live, c.key) == {c} then [V.Record(c.key, false)] else []
    case Watch(c, order) =>
      if c != w || c.key == self then []
      else if p.LastWriterIsActive? then AllPresent(order)
      else V.Snapshot(s.reg.clients, order)
    case _ => []
  }

  ghost function Records(p: R.Policy, self: Key, events: seq<Event>, w: Conn): seq<V.Record> {
    if events == [] then []
    else
      var front, e := events[..|events| - 1], events[|events| - 1];
      var s := Run(p, self, front);
      Records(p, self, front, w)
        + if Enabled(s, e) then News(s, p, self, e, w, w in Enrolled(p, self, front)) else []
  }

  lemma {:induction false} SnapshotIsAll(clients: map<Key, ClientSet>, order: seq<Key>)
    requires forall k :: k in order ==> k in clients && clients[k].active.Some?
    ensures V.Snapshot(clients, order) == AllPresent(order)
  {
    if order != [] {
      var n := |order| - 1;
      SnapshotIsAll(clients, order[..n]);
      assert AllPresent(order) == AllPresent(order[..n]) + [V.Record(order[n], true)];
    }
  }

  lemma RegisterNews(s: State, c: Conn, info: T.Connection, w: Conn)
    ensures V.Log(OnRegister(s, c, info).views, w) ==
      V.Log(s.views, w) + if w in s.views.watchers then [V.Record(c.key, true)] else []
  {
    hide R.Register, G.OnRegister, T.Opening;
  }

  lemma UnregisterNews(s: State, p: R.Policy, c: Conn, w: Conn)
    requires Inv(s, p) && c in s.live
    ensures V.Log(OnUnregister(s, c).views, w) ==
      V.Log(s.views, w) +
        if w in s.views.watchers && R.ConnsOf(s.live, c.key) == {c} then [V.Record(c.key, false)] else []
  {
    hide Inv, R.Inv, R.Unregister, R.ConnsOf, G.OnUnregister, T.Closing, P.NotePeerGone;
    InvParts(s, p);
    R.UnregisterKeeps(s.reg, s.live, p, c);
  }

  lemma WatchNews(s: State, p: R.Policy, c: Conn, order: seq<Key>, w: Conn)
    requires R.Inv(s.reg, s.live, p) && Elements(order) == s.reg.clients.Keys
    ensures V.Log(V.AddWatcher(s.views, s.reg.clients, c, order), w) == V.Log(s.views, w) +
      if c != w then [] else if p.LastWriterIsActive? then AllPresent(order) else V.Snapshot(s.reg.clients, order)
  {
    hide R.Inv, V.Snapshot;
    if p.LastWriterIsActive? {
      forall k | k in order
        ensures k in s.reg.clients && s.reg.clients[k].active.Some?
      {
        assert k in Elements(order);
        R.LastWriterHasActive(s.reg, s.live, p, k);
      }
      SnapshotIsAll(s.reg.clients, order);
    }
  }

  lemma NewsStep(s: State, p: R.Policy, self: Key, e: Event, w: Conn)
    requires Inv(s, p) && Enabled(s, e)
    ensures V.Log(Step(s, p, self, e).views, w) == V.Log(s.views, w) + News(s, p, self, e, w, w in s.views.watchers)
  {
    hide Inv, R.Inv, OnRegister, OnUnregister, R.Speak, R.ConnsOf, V.AddWatcher, V.Snapshot, V.Log, AllPresent,
         P.NotePeerGone, T.CountReceived, T.CountSent, EntryStep;
    assert V.Log(s.views, w) + [] == V.Log(s.views, w);
    match e
    case Register(c, info) => RegisterNews(s, c, info, w);
    case Unregister(c) => UnregisterNews(s, p, c, w);
    case Watch(c, order) =>
      InvParts(s, p);
      WatchNews(s, p, c, order, w);
    case _ =>
  }

  /** In every run what is logged for a connection is exactly what the events say. */
  lemma {:induction false} LogFollowsEvents(p: R.Policy, self: Key, events: seq<Event>, w: Conn)
    ensures V.Log(Run(p, self, events).views, w) == Records(p, self, events, w)
  {
    if events != [] {
      hide Inv, Step, Enabled, News, Enrolled, V.Log;
      var front, e := events[..|events| - 1], events[|events| - 1];
      var s := Run(p, self, front);
      LogFollowsEvents(p, self, front, w);
      RunInvariant(p, self, front);
      WatchersAreEnrolled(p, self, front);
      if Enabled(s, e) { NewsStep(s, p, self, e, w); } else { Idle(s, p, self, e); }
    } else {
      assert V.Log(Start.views, w) == [];
    }
  }

  // ---------- home clients and duplicate registrations ----------

  /** The connections whose last word on it was that this server is their home. */
  ghost function Home(p: R.Policy, self: Key, events: seq<Event>): set<Conn> {
    if events == [] then {}
    else
      var front, e := events[..|events| - 1], events[|events| - 1];
      var before := Home(p, self, front);
      if !Enabled(Run(p, self, front), e) then before
      else if e.SetPreferred? then (if e.v then before + {e.c} else before - {e.c})
      else if e.Unregister? then before - {e.c}
      else before
  }

  /** How often a connection joined a key that was connected already. */
  ghost function DuplicateJoins(p: R.Policy, self: Key, events: seq<Event>): nat {
    if events == [] then 0
    else
      var front, e := events[..|events| - 1], events[|events| - 1];
      var s := Run(p, self, front);
      DuplicateJoins(p, self, front)
        + if Enabled(s, e) && e.Register? && R.ConnsOf(s.live, e.c.key) != {} then 1 else 0
  }

  lemma CountersStep(s: State, p: R.Policy, self: Key, e: Event)
    requires Inv(s, p) && Enabled(s, e)
    ensures var s' := Step(s, p, self, e);
      && s'.gauges.dupTotal ==
           s.gauges.dupTotal + (if e.Register? && R.ConnsOf(s.live, e.c.key) != {} then 1 else 0)
      && s'.preferred == if e.SetPreferred? then (if e.v then s.preferred + {e.c} else s.preferred - {e.c})
                         else if e.Unregister? then s.preferred - {e.c} else s.preferred
  {
    hide Inv, OnRegister, OnUnregister, R.Speak, R.ConnsOf, V.AddWatcher, P.NotePeerGone, T.CountReceived,
         T.CountSent, EntryStep;
    match e
    case Register(c, info) =>
      InvParts(s, p);
      JoinedKey(s, p, c);
      RegisterParts(s, c, info);
    case Unregister(c) => UnregisterParts(s, p, c);
    case _ =>
  }

  lemma JoinedKey(s: State, p: R.Policy, c: Conn)
    requires R.Inv(s.reg, s.live, p)
    ensures var cs := R.TheSet(s.reg, c.key); R.ConnsOf(s.live, c.key) != {} <==> cs.dup.Some? || cs.active.Some?
  {
    R.StoredSets(s.reg, s.live, p, c.key);
    if c.key in s.reg.clients {
      assert R.SetOk(s.reg.clients[c.key], R.ConnsOf(s.live, c.key), s.reg.disabled);
    }
  }

  lemma {:induction false} CountersFollowEvents(p: R.Policy, self: Key, events: seq<Event>)
    ensures var s := Run(p, self, events);
      s.preferred == Home(p, self, events) && s.gauges.dupTotal == DuplicateJoins(p, self, events)
  {
    if events != [] {
      hide Inv, Step, Enabled;
      var front, e := events[..|events| - 1], events[|events| - 1];
      CountersFollowEvents(p, self, front);
      RunInvariant(p, self, front);
      if Enabled(Run(p, self, front), e) {
        CountersStep(Run(p, self, front), p, self, e);
      } else {
        Idle(Run(p, self, front), p, self, e);
      }
    }
  }
}
