/**
 The DERP server as one state machine: every locked section of registerClient, unregisterClient,
 noteClientActivity, addWatcher, AddPacketForwarder, RemovePacketForwarder and the peer-gone
 subscriptions is one step over the registry, the mesh table, the watchers, the gauges and the tracker.
 */
module ServerState {
  import opened Basics
  import opened Connections
  import opened Forwarders
  import R = Registry
  import G = Gauges
  import V = MeshView
  import P = PeerGone
  import T = Tracker

  datatype State = State(
    reg: R.Reg,
    live: set<Conn>,               // registered and not yet unregistered
    ever: set<Conn>,               // registered at some time
    preferred: set<Conn>,
    gauges: G.Gauges,
    mesh: map<Key, Entry>,
    gone: P.Gone,
    views: V.Views,
    tracker: T.Table)

  const Start := State(R.EmptyReg, {}, {}, {}, G.Zero, map[], P.NoneGone, V.NoViews, T.Empty)

  datatype Event =
    | Register(c: Conn, info: T.Connection)
    | Unregister(c: Conn)
    | Activity(c: Conn)                        // the locked section of noteClientActivity
    | SetPreferred(c: Conn, v: bool)
    | Watch(c: Conn, order: seq<Key>)          // `order` is the iteration order over `clients`
    | AddForwarder(k: Key, f: Fwd, result: Option<Entry>)
    | RemoveForwarder(k: Key, f: Fwd, result: Option<Entry>)
    | WriteFrom(c: Conn, src: Key)             // the send loop of c writes a packet from src
    | SendLoopEnds(c: Conn)
    | RemoveSubscription(c: Conn, k: Key)
    | SendLoopEnded(c: Conn)
    | Received(c: Conn, bytes: int)
    | Sent(c: Conn, bytes: int)

  function EntryOf(mesh: map<Key, Entry>, k: Key): Option<Entry> {
    if k in mesh then Some(mesh[k]) else None
  }

  function WithEntry(mesh: map<Key, Entry>, k: Key, e: Option<Entry>): map<Key, Entry> {
    if e.Some? then mesh[k := e.value] else mesh - {k}
  }

  /** Subscriptions of a connection are gone before unregisterClient runs: `run` waits for the send loop. */
  predicate SendLoopOver(s: State, c: Conn) {
    c !in s.gone.closing && (c in s.gone.done || c !in s.gone.sawSrc)
  }

  ghost predicate Enabled(s: State, e: Event) {
    match e
    case Register(c, _) => forall d :: d in s.ever ==> d.id != c.id
    case Unregister(c) => c in s.live && SendLoopOver(s, c)
    case Watch(c, order) => c in s.live && c.canMesh && Elements(order) == s.reg.clients.Keys
    case AddForwarder(k, f, result) => EntryStep(EntryOf(s.mesh, k), Add(f), result)
    case RemoveForwarder(k, f, result) => EntryStep(EntryOf(s.mesh, k), Remove(f, k in s.reg.clients), result)
    case RemoveSubscription(_, _) => true
    case SendLoopEnded(_) => true
    case _ => e.c in s.live
  }

  // ---------- the locked sections ----------

  ghost function OnRegister(s: State, c: Conn, info: T.Connection): State {
    s.(reg := R.Register(s.reg, c), live := s.live + {c}, ever := s.ever + {c},
       gauges := G.OnRegister(s.gauges, s.reg, c),
       mesh := if c.key in s.mesh then s.mesh else s.mesh[c.key := LocalOnly],
       views := V.Broadcast(s.views, c.key, true),
       tracker := if c.canMesh then s.tracker else T.Opening(s.tracker, c.id, c.key, info))
  }

  ghost function OnUnregister(s: State, c: Conn): State {
    var (reg, how) := R.Unregister(s.reg, c);
    var tracker := if c.canMesh then s.tracker else T.Closing(s.tracker, c.id);
    if how.NoSetForKey? || how.ActiveIsNil? || how.ActiveIsAnother? then s.(tracker := tracker)
    else
      var leaves := how.KeyLeft? && EntryOf(s.mesh, c.key) == Some(LocalOnly);
      var views := if how.KeyLeft? then V.Broadcast(s.views, c.key, false) else s.views;
      s.(reg := reg, live := s.live - {c}, preferred := s.preferred - {c},
         gauges := G.OnUnregister(s.gauges, s.reg, c, c in s.preferred),
         mesh := if leaves then s.mesh - {c.key} else s.mesh,
         gone := if leaves then P.NotePeerGone(s.gone, c.key) else s.gone,
         views := if c.canMesh then V.RemoveWatcher(views, c) else views,
         tracker := tracker)
  }

  ghost function OnRemoveForwarder(s: State, k: Key, result: Option<Entry>): State {
    s.(mesh := WithEntry(s.mesh, k, result),
       gone := if k in s.mesh && result.None? then P.NotePeerGone(s.gone, k) else s.gone)
  }

  ghost function OnSetPreferred(s: State, c: Conn, v: bool): State {
    if (c in s.preferred) == v then s
    else if v then s.(preferred := s.preferred + {c}, gauges := s.gauges.(home := s.gauges.home + 1))
    else s.(preferred := s.preferred - {c}, gauges := s.gauges.(home := s.gauges.home - 1))
  }

  /** One step under policy `p` of the server whose own key is `self`. */
  ghost function Step(s: State, p: R.Policy, self: Key, e: Event): State {
    if !Enabled(s, e) then s
    else
      match e
      case Register(c, info) => OnRegister(s, c, info)
      case Unregister(c) => OnUnregister(s, c)
      case Activity(c) => s.(reg := R.Speak(s.reg, p, c))
      case SetPreferred(c, v) => OnSetPreferred(s, c, v)
      case Watch(c, order) =>
        if c.key == self then s else s.(views := V.AddWatcher(s.views, s.reg.clients, c, order))
      case AddForwarder(k, _, result) => s.(mesh := WithEntry(s.mesh, k, result))
      case RemoveForwarder(k, _, result) => OnRemoveForwarder(s, k, result)
      case WriteFrom(c, src) => s.(gone := P.NoteSend(s.gone, c, src))
      case SendLoopEnds(c) => s.(gone := P.BeginDone(s.gone, c))
      case RemoveSubscription(c, k) => s.(gone := P.RemoveOne(s.gone, c, k))
      case SendLoopEnded(c) => s.(gone := P.EndDone(s.gone, c))
      case Received(c, bytes) => s.(tracker := T.CountReceived(s.tracker, c.id, bytes))
      case Sent(c, bytes) => s.(tracker := T.CountSent(s.tracker, c.id, bytes))
  }

  ghost function Run(p: R.Policy, self: Key, events: seq<Event>): State {
    if events == [] then Start
    else Step(Run(p, self, events[..|events| - 1]), p, self, events[|events| - 1])
  }

  // ---------- invariants ----------

  ghost predicate NamesOk(s: State) {
    && s.live <= s.ever && s.reg.isDup <= s.ever && s.reg.disabled <= s.ever && s.preferred <= s.live
    && (forall c, d :: c in s.ever && d in s.ever && c.id == d.id ==> c == d)
  }

  /** A key is in the mesh table if and only if it is local or forwarded; a nil entry is local; and a
      forwarder set has at least two members, so RemovePacketForwarder cannot panic. */
  ghost predicate PresenceOk(clients: map<Key, ClientSet>, mesh: map<Key, Entry>) {
    && (forall k :: k in clients ==> k in mesh)
    && (forall k :: k in mesh && mesh[k].LocalOnly? ==> k in clients)
    && (forall k :: k in mesh && mesh[k].Many? ==> |mesh[k].m.all| >= 2 && mesh[k].m.preferred in mesh[k].m.all)
  }

  /** The tracker holds exactly the live connections that are not mesh peers. */
  ghost predicate TrackerOk(live: set<Conn>, t: T.Table) {
    && T.Agree(t)
    && (forall c :: c in live && !c.canMesh ==> c.id in t.connections && t.connections[c.id] == c.key)
    && (forall id :: id in t.connections ==> exists c :: c in live && !c.canMesh && c.id == id)
  }

  /** Under lastWriterIsActive every watcher's replayed records are exactly the local keys. */
  ghost predicate ViewsOk(s: State, p: R.Policy) {
    && s.views.watchers <= s.live && (forall w :: w in s.views.watchers ==> w.canMesh)
    && s.views.logs.Keys <= s.ever
    && (forall c :: c in s.live && c !in s.views.watchers ==> c !in s.views.logs)
    && (p.LastWriterIsActive? ==> V.Exact(s.views, s.reg.clients.Keys))
  }

  ghost predicate Inv(s: State, p: R.Policy) {
    && NamesOk(s)
    && R.Inv(s.reg, s.live, p)
    && G.Count(s.gauges, s.reg, s.live, s.preferred)
    && PresenceOk(s.reg.clients, s.mesh)
    && P.Inv(s.gone)
    && ViewsOk(s, p)
    && TrackerOk(s.live, s.tracker)
  }

  // ---------- each part under each step ----------

  lemma TrackerRegisters(live: set<Conn>, t: T.Table, c: Conn, info: T.Connection)
    requires TrackerOk(live, t) && forall d :: d in live ==> d.id != c.id
    ensures TrackerOk(live + {c}, if c.canMesh then t else T.Opening(t, c.id, c.key, info))
  {
    if !c.canMesh {
      T.RegisterAgreesIff(t, c.id, c.key, info);
      hide T.Agree;
      var t' := T.Opening(t, c.id, c.key, info);
      forall id | id in t'.connections
        ensures exists d :: d in live + {c} && !d.canMesh && d.id == id
      {
        if id != c.id { assert id in t.connections; }
      }
    } else {
      forall id | id in t.connections
        ensures exists d :: d in live + {c} && !d.canMesh && d.id == id
      {
        var d :| d in live && !d.canMesh && d.id == id;
        assert d in live + {c};
      }
    }
  }

  lemma TrackerUnregisters(live: set<Conn>, t: T.Table, c: Conn)
    requires TrackerOk(live, t) && c in live && forall d :: d in live && d.id == c.id ==> d == c
    ensures TrackerOk(live - {c}, if c.canMesh then t else T.Closing(t, c.id))
  {
    var t' := if c.canMesh then t else T.Closing(t, c.id);
    if !c.canMesh { T.UnregisterAgrees(t, c.id); }
    hide T.Agree;
    forall id | id in t'.connections
      ensures exists d :: d in live - {c} && !d.canMesh && d.id == id
    {
      var d :| d in live && !d.canMesh && d.id == id;
      assert d in live - {c};
    }
  }

  lemma PresenceForwarder(clients: map<Key, ClientSet>, mesh: map<Key, Entry>, k: Key, op: Op, result: Option<Entry>)
    requires PresenceOk(clients, mesh) && (op.Add? || (op.Remove? && op.isLocal == (k in clients)))
    requires EntryStep(EntryOf(mesh, k), op, result)
    ensures PresenceOk(clients, WithEntry(mesh, k, result))
  {
    var e := EntryOf(mesh, k);
    if e.Some? && e.value.Many? {
      ManyStays(e.value.m, op, result);
    } else if op.Add? && e.Some? && e.value.One? && e.value.f != op.f {
      assert {e.value.f, op.f} == NewMulti(e.value.f, op.f).all.Keys;
      assert |{e.value.f, op.f}| == 2;
    }
  }

  lemma ManyStays(m: Multi, op: Op, result: Option<Entry>)
    requires |m.all| >= 2 && m.preferred in m.all && (op.Add? || op.Remove?)
    requires EntryStep(Some(Many(m)), op, result)
    ensures result.Some? && !result.value.LocalOnly?
    ensures result.value.Many? ==> |result.value.m.all| >= 2 && result.value.m.preferred in result.value.m.all
  {
    if op.Add? && op.f !in m.all {
      var m' := result.value.m;
      assert m'.all.Keys == m.all.Keys + {op.f};
      assert |m'.all| == |m'.all.Keys| && |m.all| == |m.all.Keys|;
    } else if op.Remove? {
      var m' :| Deleted(m, op.f, m') &&
        result.Some? &&
        (if |m'.all| == 1 then result.value.One? && m'.all.Keys == {result.value.f} else result.value == Many(m'));
      assert m'.all.Keys == m.all.Keys - {op.f};
      assert |m'.all| == |m'.all.Keys| && |m.all| == |m.all.Keys|;
      assert m'.all != map[];
    }
  }

  lemma PreferredCounts(s: State, c: Conn, v: bool)
    requires G.Count(s.gauges, s.reg, s.live, s.preferred) && c in s.live
    ensures var s' := OnSetPreferred(s, c, v); G.Count(s'.gauges, s'.reg, s'.live, s'.preferred)
  {
    hide G.DupKeys, G.DupConns, G.NotIdeal;
    HomeMoves(s.live, s.preferred, c);
  }

  lemma HomeMoves(live: set<Conn>, preferred: set<Conn>, c: Conn)
    requires c in live
    ensures c !in preferred ==> |live * (preferred + {c})| == |live * preferred| + 1
    ensures c in preferred ==> |live * (preferred - {c})| == |live * preferred| - 1
  {
    assert live * (preferred + {c}) == live * preferred + {c};
    assert live * (preferred - {c}) == live * preferred - {c};
    if c !in preferred { G.PlusOne(live * preferred, live * preferred + {c}, c); }
    G.MinusOne(live * preferred, c);
  }

  lemma UnregisterViews(s: State, p: R.Policy, c: Conn)
    requires ViewsOk(s, p) && c in s.live && R.Inv(s.reg, s.live, p) && s.live <= s.ever
    ensures ViewsOk(OnUnregister(s, c), p)
  {
    hide R.Inv, R.Unregister, G.OnUnregister, P.NotePeerGone, T.Closing, V.Exact;
    R.UnregisterKeeps(s.reg, s.live, p, c);
    G.UnregisterKeys(s.reg, c);
    if p.LastWriterIsActive? {
      V.BroadcastExact(s.views, s.reg.clients.Keys, c.key, false);
      FewerWatchers(V.Broadcast(s.views, c.key, false), s.reg.clients.Keys - {c.key}, c);
      FewerWatchers(s.views, s.reg.clients.Keys, c);
    }
  }

  lemma FewerWatchers(v: V.Views, keys: set<Key>, c: Conn)
    ensures V.Exact(v, keys) ==> V.Exact(V.RemoveWatcher(v, c), keys)
  {
    assert forall w :: V.Log(V.RemoveWatcher(v, c), w) == V.Log(v, w);
  }

  lemma RegisterViews(s: State, p: R.Policy, c: Conn, info: T.Connection)
    requires ViewsOk(s, p) && c !in s.ever && s.live <= s.ever
    ensures ViewsOk(OnRegister(s, c, info), p)
  {
    var s' := OnRegister(s, c, info);
    if p.LastWriterIsActive? {
      V.BroadcastExact(s.views, s.reg.clients.Keys, c.key, true);
      assert s'.reg.clients.Keys == s.reg.clients.Keys + {c.key};
    }
    assert s'.views.logs.Keys <= s.ever;
  }

  lemma WatchViews(s: State, p: R.Policy, c: Conn, order: seq<Key>)
    requires ViewsOk(s, p) && R.Inv(s.reg, s.live, p) && c in s.live && c.canMesh && s.live <= s.ever
    requires Elements(order) == s.reg.clients.Keys
    ensures ViewsOk(s.(views := V.AddWatcher(s.views, s.reg.clients, c, order)), p)
  {
    if p.LastWriterIsActive? {
      forall k | k in s.reg.clients
        ensures s.reg.clients[k].active.Some?
      {
        R.LastWriterHasActive(s.reg, s.live, p, k);
      }
      hide R.Inv;
      V.AddWatcherExactIff(s.views, s.reg.clients, c, order);
    }
  }

  lemma RegisterKeeps(s: State, p: R.Policy, c: Conn, info: T.Connection)
    requires Inv(s, p) && forall d :: d in s.ever ==> d.id != c.id
    ensures Inv(OnRegister(s, c, info), p)
  {
    hide R.Inv, G.Count, P.Inv, ViewsOk, TrackerOk;
    R.RegisterKeeps(s.reg, s.live, p, c);
    G.RegisterCounts(s.gauges, s.reg, s.live, s.preferred, p, c);
    RegisterViews(s, p, c, info);
    TrackerRegisters(s.live, s.tracker, c, info);
    RegisterNames(s, p, c, info);
  }

  lemma RegisterNames(s: State, p: R.Policy, c: Conn, info: T.Connection)
    requires NamesOk(s) && R.Inv(s.reg, s.live, p) && forall d :: d in s.ever ==> d.id != c.id
    ensures NamesOk(OnRegister(s, c, info))
  {
    var active := R.TheSet(s.reg, c.key).active;
    assert active.Some? ==> active.value in s.live by {
      if c.key in s.reg.clients {
        assert R.SetOk(s.reg.clients[c.key], R.ConnsOf(s.live, c.key), s.reg.disabled);
        assert R.ConnsOf(s.live, c.key) <= s.live;
      }
    }
    hide R.Inv;
  }

  lemma UnregisterKeepsAll(s: State, p: R.Policy, c: Conn)
    requires Inv(s, p) && c in s.live
    ensures Inv(OnUnregister(s, c), p)
  {
    hide NamesOk, R.Inv, G.Count, PresenceOk, P.Inv, ViewsOk, TrackerOk, R.Unregister, G.OnUnregister,
         V.Broadcast, V.RemoveWatcher, P.NotePeerGone, T.Closing, EntryOf;
    SameParts(s, p);
    R.UnregisterKeeps(s.reg, s.live, p, c);
    G.UnregisterCounts(s.gauges, s.reg, s.live, s.preferred, p, c);
    UnregisterViews(s, p, c);
    TrackerUnregisters(s.live, s.tracker, c);
    P.NotePeerGoneKeeps(s.gone, c.key);
    UnregisterNames(s, c);
    UnregisterPresence(s, p, c);
  }

  lemma SameParts(s: State, p: R.Policy)
    requires Inv(s, p)
    ensures s.live <= s.ever && forall c, d :: c in s.live && d in s.live && c.id == d.id ==> c == d
  {
  }

  lemma UnregisterNames(s: State, c: Conn)
    requires NamesOk(s)
    ensures NamesOk(OnUnregister(s, c))
  {
    hide R.Unregister, G.OnUnregister, P.NotePeerGone, T.Closing;
    UnregisterFlagsShrink(s.reg, c);
  }

  lemma UnregisterPresence(s: State, p: R.Policy, c: Conn)
    requires PresenceOk(s.reg.clients, s.mesh) && R.Inv(s.reg, s.live, p) && c in s.live
    ensures PresenceOk(OnUnregister(s, c).reg.clients, OnUnregister(s, c).mesh)
  {
    hide R.Inv, R.Unregister, G.OnUnregister, P.NotePeerGone, T.Closing;
    R.UnregisterKeeps(s.reg, s.live, p, c);
    G.UnregisterKeys(s.reg, c);
  }

  lemma UnregisterFlagsShrink(r: R.Reg, c: Conn)
    ensures R.Unregister(r, c).0.isDup <= r.isDup && R.Unregister(r, c).0.disabled <= r.disabled
  {
  }

  lemma ActivityFlags(s: State, p: R.Policy, c: Conn)
    requires R.Inv(s.reg, s.live, p) && s.live <= s.ever && s.reg.disabled <= s.ever && c in s.live
    ensures R.Speak(s.reg, p, c).disabled <= s.ever && R.Speak(s.reg, p, c).isDup == s.reg.isDup
  {
    assert R.SetOk(s.reg.clients[c.key], R.ConnsOf(s.live, c.key), s.reg.disabled);
    assert R.ConnsOf(s.live, c.key) <= s.live;
  }

  lemma ActivityKeeps(s: State, p: R.Policy, c: Conn)
    requires Inv(s, p) && c in s.live
    ensures Inv(s.(reg := R.Speak(s.reg, p, c)), p)
  {
    hide R.Inv, R.Speak, P.Inv, TrackerOk, G.Count, V.Exact;
    ActivityFlags(s, p, c);
    R.SpeakKeeps(s.reg, s.live, p, c);
    G.SameCounts(s.gauges, s.reg, R.Speak(s.reg, p, c), s.live, s.preferred);
  }

  lemma GoneKeeps(g: P.Gone, c: Conn, k: Key)
    requires P.Inv(g)
    ensures P.Inv(P.NoteSend(g, c, k)) && P.Inv(P.BeginDone(g, c)) && P.Inv(P.RemoveOne(g, c, k))
      && P.Inv(P.EndDone(g, c))
  {
    hide P.Inv;
    P.NoteSendKeeps(g, c, k);
    P.BeginKeeps(g, c);
    P.RemoveOneKeeps(g, c, k);
    P.EndKeeps(g, c);
  }

  lemma TrackerCounts(live: set<Conn>, t: T.Table, id: T.Id, bytes: int)
    requires TrackerOk(live, t)
    ensures TrackerOk(live, T.CountReceived(t, id, bytes)) && TrackerOk(live, T.CountSent(t, id, bytes))
  {
  }

  /** Steps that only move the mesh table, the watchers, the subscriptions or the tracker. */
  lemma ElsewhereKeeps(s: State, p: R.Policy, mesh: map<Key, Entry>, gone: P.Gone, tracker: T.Table)
    requires Inv(s, p) && PresenceOk(s.reg.clients, mesh) && P.Inv(gone) && TrackerOk(s.live, tracker)
    ensures Inv(s.(mesh := mesh, gone := gone, tracker := tracker), p)
  {
    hide R.Inv, G.Count, P.Inv, TrackerOk, PresenceOk, V.Exact;
  }

  lemma WatchKeeps(s: State, p: R.Policy, c: Conn, order: seq<Key>)
    requires Inv(s, p) && c in s.live && c.canMesh && Elements(order) == s.reg.clients.Keys
    ensures Inv(s.(views := V.AddWatcher(s.views, s.reg.clients, c, order)), p)
  {
    hide R.Inv, G.Count, P.Inv, TrackerOk, PresenceOk, ViewsOk, V.AddWatcher;
    WatchViews(s, p, c, order);
  }

  lemma PreferredKeeps(s: State, p: R.Policy, c: Conn, v: bool)
    requires Inv(s, p) && c in s.live
    ensures Inv(OnSetPreferred(s, c, v), p)
  {
    hide R.Inv, G.Count, P.Inv, TrackerOk, PresenceOk, V.Exact;
    PreferredCounts(s, c, v);
  }

  lemma ForwarderKeeps(s: State, p: R.Policy, k: Key, op: Op, result: Option<Entry>)
    requires Inv(s, p) && (op.Add? || (op.Remove? && op.isLocal == (k in s.reg.clients)))
    requires EntryStep(EntryOf(s.mesh, k), op, result)
    ensures Inv(s.(mesh := WithEntry(s.mesh, k, result)), p) && Inv(OnRemoveForwarder(s, k, result), p)
  {
    PresenceForwarder(s.reg.clients, s.mesh, k, op, result);
    P.NotePeerGoneKeeps(s.gone, k);
    ElsewhereKeeps(s, p, WithEntry(s.mesh, k, result), s.gone, s.tracker);
    ElsewhereKeeps(s, p, WithEntry(s.mesh, k, result), P.NotePeerGone(s.gone, k), s.tracker);
    hide Inv;
  }

  lemma SubscriptionsKeep(s: State, p: R.Policy, c: Conn, k: Key)
    requires Inv(s, p)
    ensures Inv(s.(gone := P.NoteSend(s.gone, c, k)), p) && Inv(s.(gone := P.BeginDone(s.gone, c)), p)
    ensures Inv(s.(gone := P.RemoveOne(s.gone, c, k)), p) && Inv(s.(gone := P.EndDone(s.gone, c)), p)
  {
    hide Inv, P.Inv, P.NoteSend, P.BeginDone, P.RemoveOne, P.EndDone;
    InvParts(s, p);
    GoneKeeps(s.gone, c, k);
    ElsewhereKeeps(s, p, s.mesh, P.NoteSend(s.gone, c, k), s.tracker);
    ElsewhereKeeps(s, p, s.mesh, P.BeginDone(s.gone, c), s.tracker);
    ElsewhereKeeps(s, p, s.mesh, P.RemoveOne(s.gone, c, k), s.tracker);
    ElsewhereKeeps(s, p, s.mesh, P.EndDone(s.gone, c), s.tracker);
  }

  lemma InvParts(s: State, p: R.Policy)
    requires Inv(s, p)
    ensures PresenceOk(s.reg.clients, s.mesh) && P.Inv(s.gone) && TrackerOk(s.live, s.tracker)
    ensures R.Inv(s.reg, s.live, p) && G.Count(s.gauges, s.reg, s.live, s.preferred) && NamesOk(s) && ViewsOk(s, p)
  {
  }

  lemma TrafficKeeps(s: State, p: R.Policy, id: T.Id, bytes: int)
    requires Inv(s, p)
    ensures Inv(s.(tracker := T.CountReceived(s.tracker, id, bytes)), p)
    ensures Inv(s.(tracker := T.CountSent(s.tracker, id, bytes)), p)
  {
    hide Inv, TrackerOk, T.CountReceived, T.CountSent;
    InvParts(s, p);
    TrackerCounts(s.live, s.tracker, id, bytes);
    ElsewhereKeeps(s, p, s.mesh, s.gone, T.CountReceived(s.tracker, id, bytes));
    ElsewhereKeeps(s, p, s.mesh, s.gone, T.CountSent(s.tracker, id, bytes));
  }

  lemma StepKeeps(s: State, p: R.Policy, self: Key, e: Event)
    requires Inv(s, p)
    ensures Inv(Step(s, p, self, e), p)
  {
    hide Inv, EntryStep;
    if !Enabled(s, e) { return; }
    match e
    case Register(c, info) => RegisterKeeps(s, p, c, info);
    case Unregister(c) => UnregisterKeepsAll(s, p, c);
    case Activity(c) => ActivityKeeps(s, p, c);
    case SetPreferred(c, v) => PreferredKeeps(s, p, c, v);
    case Watch(c, order) => WatchKeeps(s, p, c, order);
    case AddForwarder(k, f, result) => ForwarderKeeps(s, p, k, Add(f), result);
    case RemoveForwarder(k, f, result) => ForwarderKeeps(s, p, k, Remove(f, k in s.reg.clients), result);
    case WriteFrom(c, src) => SubscriptionsKeep(s, p, c, src);
    case SendLoopEnds(c) => SubscriptionsKeep(s, p, c, 0);
    case RemoveSubscription(c, k) => SubscriptionsKeep(s, p, c, k);
    case SendLoopEnded(c) => SubscriptionsKeep(s, p, c, 0);
    case Received(c, bytes) => TrafficKeeps(s, p, c.id, bytes);
    case Sent(c, bytes) => TrafficKeeps(s, p, c.id, bytes);
  }

  // ---------- theorems over every run ----------

  /** Every reachable state satisfies the invariant. */
  lemma {:induction false} RunInvariant(p: R.Policy, self: Key, events: seq<Event>)
    ensures Inv(Run(p, self, events), p)
  {
    if events == [] {
      StartInv(p);
    } else {
      hide Inv;
      RunInvariant(p, self, events[..|events| - 1]);
      StepKeeps(Run(p, self, events[..|events| - 1]), p, self, events[|events| - 1]);
    }
  }

  lemma StartInv(p: R.Policy)
    ensures Inv(Start, p)
  {
    StartCounts();
    StartParts(p);
    hide G.Count, R.Inv, P.Inv, PresenceOk, TrackerOk;
    assert V.Exact(V.NoViews, {});
  }

  lemma StartParts(p: R.Policy)
    ensures R.Inv(R.EmptyReg, {}, p) && P.Inv(P.NoneGone) && PresenceOk(map[], map[]) && TrackerOk({}, T.Empty)
  {
  }

  lemma StartCounts()
    ensures G.Count(G.Zero, R.EmptyReg, {}, {})
  {
    assert G.NotIdeal({}) == {} && G.DupKeys(R.EmptyReg) == {} && G.DupConns(R.EmptyReg, {}) == {};
  }
}
