/**
 What holds of the DERP server in every reachable state and at every step of every run.
 */
module ServerTheorems {
  import opened Basics
  import opened Connections
  import opened Forwarders
  import opened ServerState
  import R = Registry
  import G = Gauges
  import V = MeshView
  import P = PeerGone
  import T = Tracker

  ghost predicate IsLocal(s: State, k: Key) {
    exists c :: c in s.live && c.key == k
  }

  /** The forwarders registered for a key and not removed since, by registration age. */
  ghost function Registrations(p: R.Policy, self: Key, events: seq<Event>, k: Key): seq<Fwd> {
    ListAfter(OpsAt(p, self, events, k))
  }

  lemma LocalKeys(s: State, p: R.Policy, k: Key)
    requires R.Inv(s.reg, s.live, p)
    ensures k in s.reg.clients <==> IsLocal(s, k)
  {
    R.StoredSets(s.reg, s.live, p, k);
    if k in s.reg.clients {
      var c :| c in R.ConnsOf(s.live, k);
      assert c in s.live && c.key == k;
    }
    if IsLocal(s, k) {
      var c :| c in s.live && c.key == k;
      assert c in R.ConnsOf(s.live, k);
    }
  }

  // ---------- registry ----------

  /** In every reachable state every stored set is the key's live connections: one active client, or a
      duplicate set of two or more with a sound history and a member as `last`; under lastWriterIsActive
      the active client is `last`. */
  lemma StoredSetIsLiveConnections(p: R.Policy, self: Key, events: seq<Event>, k: Key)
    ensures var s := Run(p, self, events);
            && (k in s.reg.clients <==> IsLocal(s, k))
            && (k in s.reg.clients ==> R.SetOk(s.reg.clients[k], R.ConnsOf(s.live, k), s.reg.disabled))
            && (k in s.reg.clients && p.LastWriterIsActive? ==> s.reg.clients[k].active.Some?)
            && (k in s.reg.clients && p.LastWriterIsActive? && s.reg.clients[k].dup.Some? ==>
                  s.reg.clients[k].active == s.reg.clients[k].dup.value.last)
  {
    var s := Run(p, self, events);
    RunInvariant(p, self, events);
    InvParts(s, p);
    LocalKeys(s, p, k);
    if p.LastWriterIsActive? { R.LastWriterHasActive(s.reg, s.live, p, k); }
    hide Inv;
  }

  /** No run reaches an "[unexpected]" branch of unregisterClient. */
  lemma NoUnexpectedBranch(p: R.Policy, self: Key, events: seq<Event>, c: Conn)
    requires c in Run(p, self, events).live
    ensures !R.Unexpected(R.Unregister(Run(p, self, events).reg, c).1)
  {
    var s := Run(p, self, events);
    RunInvariant(p, self, events);
    InvParts(s, p);
    hide Inv;
    R.UnregisterKeeps(s.reg, s.live, p, c);
  }

  // ---------- lookupDest ----------

  /** The slow path of lookupDest, under the lock: client, forwarder, and the number of connections. */
  function LookupSlow(s: State, dst: Key): (Option<Conn>, Option<Entry>, nat) {
    if dst in s.reg.clients && s.reg.clients[dst].active.Some? then (s.reg.clients[dst].active, None, 1)
    else
      var n := if dst in s.reg.clients then Len(s.reg.clients[dst]) else 0;
      (None, if n < 1 && dst in s.mesh && !s.mesh[dst].LocalOnly? then Some(s.mesh[dst]) else None, n)
  }

  /** lookupDest never answers "no client, one connection"; a returned client is the active one of the key, a live
      connection that is not disabled; without one the count is that of the key's connections;
      a forwarder is offered if and only if some are registered and the key is not local, and then it is made of
      exactly those; and under lastWriterIsActive a local key always has a client. */
  lemma LookupSound(p: R.Policy, self: Key, events: seq<Event>, dst: Key)
    ensures var s := Run(p, self, events);
            var (client, fwd, n) := LookupSlow(s, dst);
            var registered := Registrations(p, self, events, dst);
            && (client.Some? ==> client.value in s.live && client.value.key == dst && fwd.None?)
            && (client.Some? ==> n == 1 && client == R.TheSet(s.reg, dst).active && client.value !in s.reg.disabled)
            && (client.None? ==> n != 1 && n == |R.ConnsOf(s.live, dst)| && R.TheSet(s.reg, dst).active.None?)
            && (fwd.Some? <==> registered != [] && !IsLocal(s, dst))
            && (fwd.Some? ==> MembersOf(fwd) == Elements(registered))
            && (p.LastWriterIsActive? ==> (client.Some? <==> IsLocal(s, dst)))
  {
    RunInvariant(p, self, events);
    InvParts(Run(p, self, events), p);
    EntryHasRegistrations(p, self, events, dst);
    hide Run, Inv, OpsAt, ListAfter;
    LookupIn(Run(p, self, events), p, dst);
  }

  lemma LookupIn(s: State, p: R.Policy, dst: Key)
    requires R.Inv(s.reg, s.live, p)
    ensures var (client, fwd, n) := LookupSlow(s, dst);
            && (client.Some? ==> client.value in s.live && client.value.key == dst && fwd.None?)
            && (client.Some? ==> n == 1 && client == R.TheSet(s.reg, dst).active && client.value !in s.reg.disabled)
            && (client.None? ==> n != 1 && n == |R.ConnsOf(s.live, dst)| && R.TheSet(s.reg, dst).active.None?)
            && (fwd.Some? <==> dst in s.mesh && !s.mesh[dst].LocalOnly? && !IsLocal(s, dst))
            && (fwd.Some? ==> fwd == EntryOf(s.mesh, dst))
            && (p.LastWriterIsActive? ==> (client.Some? <==> IsLocal(s, dst)))
  {
    LocalKeys(s, p, dst);
    R.StoredSets(s.reg, s.live, p, dst);
    if dst in s.reg.clients {
      assert R.SetOk(s.reg.clients[dst], R.ConnsOf(s.live, dst), s.reg.disabled);
    }
    if p.LastWriterIsActive? { R.LastWriterHasActive(s.reg, s.live, p, dst); }
    hide R.Inv;
  }

  // ---------- region presence ----------

  /** A mesh entry is made of exactly the forwarders registered, however many numbers were used up. */
  lemma EntryHasRegistrations(p: R.Policy, self: Key, events: seq<Event>, k: Key)
    ensures var e, l := EntryOf(Run(p, self, events).mesh, k), Registrations(p, self, events, k);
            && MembersOf(e) == Elements(l)
            && (l != [] <==> e.Some? && !e.value.LocalOnly?)
            && (e.Some? && e.value.Many? ==> |e.value.m.all| >= 2)
  {
    hide Run, OpsAt, EntriesAt, ListAfter, IsRun;
    MeshEntryRun(p, self, events, k);
    var es, ops := EntriesAt(p, self, events, k), OpsAt(p, self, events, k);
    RunRegistered(es, ops);
    RunLength(es, ops);
    NonEmpty(ListAfter(ops));
    var e := EntryOf(Run(p, self, events).mesh, k);
    if e.Some? && e.value.Many? { assert |e.value.m.all| == |e.value.m.all.Keys|; }
  }

  lemma RunLength(es: seq<Option<Entry>>, ops: seq<Op>)
    requires IsRun(es, ops)
    ensures |es| == |ops| + 1
  {
  }

  lemma NonEmpty(l: seq<Fwd>)
    ensures l == [] <==> Elements(l) == {}
  {
    if l != [] { assert l[0] in Elements(l); }
  }

  /** A key is in the mesh table if and only if it has a local connection or a forwarder registered for it, and a
      nil entry is always local: the first two ConsistencyCheck errors cannot occur. */
  lemma PresenceIff(p: R.Policy, self: Key, events: seq<Event>, k: Key)
    ensures var s := Run(p, self, events);
            && (k in s.mesh <==> IsLocal(s, k) || Registrations(p, self, events, k) != [])
            && (k in s.mesh && s.mesh[k].LocalOnly? <==> IsLocal(s, k) && Registrations(p, self, events, k) == [])
            && (k in s.mesh && s.mesh[k].LocalOnly? ==> k in s.reg.clients)
            && (k in s.reg.clients ==> k in s.mesh)
            && (k in s.mesh && s.mesh[k].Many? ==> |s.mesh[k].m.all| >= 2)
  {
    EntryHasRegistrations(p, self, events, k);
    var s := Run(p, self, events);
    RunInvariant(p, self, events);
    InvParts(s, p);
    LocalKeys(s, p, k);
    hide Inv, Registrations, R.Inv;
  }

  /** Between two states, peer-gone callbacks were launched exactly for a key that left the mesh table: all
      its subscribers, once, and none stays subscribed. */
  ghost predicate LaunchesOnLeave(s: State, s': State) {
    || (s'.gone.launched == s.gone.launched && s.mesh.Keys <= s'.mesh.Keys)
    || exists k :: k in s.mesh && s.mesh.Keys - s'.mesh.Keys == {k} && k !in s'.gone.watchers
         && s'.gone.launched == s.gone.launched + [P.Launch(k, P.Watching(s.gone, k))]
  }

  lemma CallbacksExactlyOnLeave(s: State, p: R.Policy, self: Key, e: Event)
    ensures LaunchesOnLeave(s, Step(s, p, self, e))
  {
    var s' := Step(s, p, self, e);
    if !Enabled(s, e) { return; }
    hide R.Unregister, R.Register, R.Speak, G.OnUnregister, V.Broadcast, V.AddWatcher, T.Closing, EntryStep;
    match e
    case Unregister(c) =>
      if s'.gone != s.gone {
        assert s.mesh.Keys - s'.mesh.Keys == {c.key};
      }
    case RemoveForwarder(k, f, result) =>
      if k in s.mesh && result.None? {
        assert s.mesh.Keys - s'.mesh.Keys == {k};
      }
    case _ =>
  }

  /** Over a whole run, a connection is told at most once that a given key has gone. */
  lemma EachToldOnce(p: R.Policy, self: Key, events: seq<Event>, c: Conn, i: nat, h: P.Handle, j: nat, h': P.Handle)
    requires var l := Run(p, self, events).gone.launched;
             && i < |l| && h in l[i].told && l[i].told[h] == c
             && j < |l| && h' in l[j].told && l[j].told[h'] == c
             && l[i].key == l[j].key
    ensures i == j && h == h'
  {
    var s := Run(p, self, events);
    RunInvariant(p, self, events);
    InvParts(s, p);
    hide Inv;
    P.ToldAtMostOnce(s.gone, c, i, h, j, h');
  }

  /** No stored subscription set is empty, and none belongs to a connection whose send loop has ended. */
  lemma SubscriptionsLiveAndNonEmpty(p: R.Policy, self: Key, events: seq<Event>, k: Key)
    requires k in Run(p, self, events).gone.watchers
    ensures var g := Run(p, self, events).gone;
            g.watchers[k] != map[] && forall h :: h in g.watchers[k] ==> g.watchers[k][h] !in g.done
  {
    var s := Run(p, self, events);
    RunInvariant(p, self, events);
    InvParts(s, p);
    hide Inv;
  }

  /** What an event means for the mesh entry of `k`. */
  ghost function OpAt(s: State, e: Event, k: Key): Option<Op> {
    if !Enabled(s, e) then None
    else
      match e
      case Register(c, _) => if c.key == k then Some(Arrive) else None
      case Unregister(c) => if c.key == k && R.Unregister(s.reg, c).1.KeyLeft? then Some(Depart) else None
      case AddForwarder(j, f, _) => if j == k then Some(Add(f)) else None
      case RemoveForwarder(j, f, _) => if j == k then Some(Remove(f, k in s.reg.clients)) else None
      case _ => None
  }

  lemma WithEntryAt(mesh: map<Key, Entry>, j: Key, e: Option<Entry>, k: Key)
    ensures EntryOf(WithEntry(mesh, j, e), k) == if j == k then e else EntryOf(mesh, k)
  {
  }

  /** Every step moves each mesh entry by one step of the forwarder machine, or not at all. */
  lemma MeshEntryMoves(s: State, p: R.Policy, self: Key, e: Event, k: Key)
    ensures var s', op := Step(s, p, self, e), OpAt(s, e, k);
            if op.Some? then EntryStep(EntryOf(s.mesh, k), op.value, EntryOf(s'.mesh, k))
            else EntryOf(s'.mesh, k) == EntryOf(s.mesh, k)
  {
    hide R.Unregister, R.Register, R.Speak, G.OnUnregister, G.OnRegister, V.Broadcast, V.AddWatcher, T.Closing,
        T.Opening, P.NotePeerGone;
    match e
    case AddForwarder(j, f, result) =>
      hide EntryStep, WithEntry;
      WithEntryAt(s.mesh, j, result, k);
    case RemoveForwarder(j, f, result) =>
      hide EntryStep, WithEntry;
      WithEntryAt(s.mesh, j, result, k);
    case Unregister(c) => LocalLeaves(s, c, k);
    case _ =>
  }

  lemma LocalLeaves(s: State, c: Conn, k: Key)
    ensures var s' := OnUnregister(s, c);
            if c.key == k && R.Unregister(s.reg, c).1.KeyLeft?
            then EntryStep(EntryOf(s.mesh, k), Depart, EntryOf(s'.mesh, k))
            else EntryOf(s'.mesh, k) == EntryOf(s.mesh, k)
  {
    hide R.Unregister, G.OnUnregister, V.Broadcast, T.Closing, P.NotePeerGone;
  }

  ghost function OpsAt(p: R.Policy, self: Key, events: seq<Event>, k: Key): seq<Op> {
    if events == [] then []
    else
      var front := events[..|events| - 1];
      var op := OpAt(Run(p, self, front), events[|events| - 1], k);
      if op.Some? then OpsAt(p, self, front, k) + [op.value] else OpsAt(p, self, front, k)
  }

  /** The entry of a key in the table at the start and after each event that concerned it. */
  ghost function EntriesAt(p: R.Policy, self: Key, events: seq<Event>, k: Key): seq<Option<Entry>> {
    if events == [] then [None]
    else
      var front := events[..|events| - 1];
      var before := EntriesAt(p, self, front, k);
      if OpAt(Run(p, self, front), events[|events| - 1], k).Some?
      then before + [EntryOf(Run(p, self, events).mesh, k)] else before
  }

  /** In every run, the entries of a key are a run of the forwarder machine over the operations that concern it, so
      Forwarders.RunRefinesList applies to the server's table. */
  lemma {:induction false} MeshEntryRun(p: R.Policy, self: Key, events: seq<Event>, k: Key)
    ensures var es := EntriesAt(p, self, events, k);
            IsRun(es, OpsAt(p, self, events, k)) && es[|es| - 1] == EntryOf(Run(p, self, events).mesh, k)
  {
    if events != [] {
      hide EntryStep, Step, OpAt;
      var front, e := events[..|events| - 1], events[|events| - 1];
      MeshEntryRun(p, self, front, k);
      var s := Run(p, self, front);
      MeshEntryMoves(s, p, self, e, k);
      if OpAt(s, e, k).Some? {
        RunSnoc(EntriesAt(p, self, front, k), OpsAt(p, self, front, k), OpAt(s, e, k).value,
            EntryOf(Step(s, p, self, e).mesh, k));
      }
    }
  }

  /** The n-th of them is the table's entry after the events up to the n-th operation that concerns the key. */
  lemma {:induction false} EntryIsTable(p: R.Policy, self: Key, events: seq<Event>, k: Key, n: nat) returns (i: nat)
    requires n < |EntriesAt(p, self, events, k)|
    ensures i <= |events| && EntriesAt(p, self, events, k)[n] == EntryOf(Run(p, self, events[..i]).mesh, k)
    ensures |OpsAt(p, self, events[..i], k)| == n && OpsAt(p, self, events[..i], k) <= OpsAt(p, self, events, k)
  {
    hide Step, OpAt;
    if events == [] {
      i := 0;
    } else {
      hide Run;
      var front := events[..|events| - 1];
      MeshEntryRun(p, self, front, k);
      RunLength(EntriesAt(p, self, front, k), OpsAt(p, self, front, k));
      if n < |EntriesAt(p, self, front, k)| {
        i := EntryIsTable(p, self, front, k, n);
        assert front[..i] == events[..i];
      } else {
        i := |events|;
        assert events[..i] == events;
      }
    }
  }

  /** While no multiForwarder of the key has taken more than 254 new forwarders, the entry is the image of the list
      of its forwarders ordered by registration age. */
  lemma MeshTableRefinesList(p: R.Policy, self: Key, events: seq<Event>, k: Key)
    ensures var es, ops := EntriesAt(p, self, events, k), OpsAt(p, self, events, k);
            && |es| == |ops| + 1
            && ((forall n :: 0 <= n <= |ops| ==> AddsToSet(es, ops, n) <= 254) ==>
                  Refines(EntryOf(Run(p, self, events).mesh, k), Registrations(p, self, events, k)))
  {
    hide Run, OpsAt, EntriesAt, EntryStep, Refines;
    MeshEntryRun(p, self, events, k);
    var es, ops := EntriesAt(p, self, events, k), OpsAt(p, self, events, k);
    if forall n :: 0 <= n <= |ops| ==> AddsToSet(es, ops, n) <= 254 {
      RunRefinesList(es, ops);
    }
  }

  // ---------- watchers ----------

  ghost function LocalKeySet(live: set<Conn>): set<Key> {
    set c | c in live :: c.key
  }

  /** Under lastWriterIsActive, at every unlock, replaying everything enqueued for a watcher yields exactly the
      keys with a local connection. */
  lemma WatchersSeeLocalKeys(self: Key, events: seq<Event>, w: Conn)
    requires w in Run(R.LastWriterIsActive, self, events).views.watchers
    ensures var s := Run(R.LastWriterIsActive, self, events);
            V.Replay(V.Log(s.views, w)) == LocalKeySet(s.live)
  {
    var p := R.LastWriterIsActive;
    var s := Run(p, self, events);
    RunInvariant(p, self, events);
    InvParts(s, p);
    hide Inv;
    forall k
      ensures k in s.reg.clients.Keys <==> k in LocalKeySet(s.live)
    {
      LocalKeys(s, p, k);
    }
  }

  /** Two connections of one key that take turns are both disabled under disableFighters. */
  lemma TurnsDisable(a: Conn, b: Conn)
    requires a != b && a.key == b.key
    ensures var p := R.DisableFighters;
            var r := R.Speak(R.Speak(R.Register(R.Register(R.EmptyReg, a), b), p, b), p, a);
            r.clients.Keys == {a.key} && r.clients[a.key].active.None?
  {
    var p, k := R.DisableFighters, a.key;
    var r2 := R.Register(R.Register(R.EmptyReg, a), b);
    assert r2.clients[k] == ClientSet(Some(b), Some(Dup({b, a}, Some(b), [a])));
    var r3 := R.Speak(r2, p, b);
    assert r3.clients[k] == ClientSet(Some(b), Some(Dup({b, a}, Some(b), [a] + [b])));
    var d := r3.clients[k].dup.value;
    assert d.history[1] == b && d.history[0] == a;
  }

  lemma RunSnocState(p: R.Policy, self: Key, events: seq<Event>, e: Event)
    ensures Run(p, self, events + [e]) == Step(Run(p, self, events), p, self, e)
  {
    assert (events + [e])[..|events|] == events;
  }

  lemma QuietRegister(s: State, p: R.Policy, self: Key, c: Conn, info: T.Connection)
    requires s.views == V.NoViews && forall d :: d in s.ever ==> d.id != c.id
    ensures var s' := Step(s, p, self, Register(c, info));
            && s'.reg == R.Register(s.reg, c) && s'.live == s.live + {c} && s'.ever == s.ever + {c}
            && s'.views == V.NoViews
  {
    assert V.Broadcast(V.NoViews, c.key, true).logs == map[];
  }

  /** Under disableFighters the same does not hold: two connections of key 1 that take turns are both
      disabled, and a watcher that enrols afterwards is not told about the key. */
  lemma FightersHideKey() returns (events: seq<Event>, w: Conn)
    ensures var s := Run(R.DisableFighters, 0, events);
            w in s.views.watchers && V.Replay(V.Log(s.views, w)) == {2} && s.reg.clients.Keys == {1, 2}
  {
    hide R.Register, R.Speak, V.Broadcast, V.Replay, G.OnRegister, T.Opening, Step, Run;
    var p := R.DisableFighters;
    var a, b, info := Conn(1, 1, false, false), Conn(2, 1, false, false), T.Connection(0, 0);
    w := Conn(3, 2, true, false);
    var s := Start;
    events := [];
    RunEmpty(p, 0);
    QuietRegister(s, p, 0, a, info);
    RunSnocState(p, 0, events, Register(a, info));
    s, events := Step(s, p, 0, Register(a, info)), events + [Register(a, info)];
    QuietRegister(s, p, 0, b, info);
    RunSnocState(p, 0, events, Register(b, info));
    s, events := Step(s, p, 0, Register(b, info)), events + [Register(b, info)];
    SpeakStep(s, p, b);
    RunSnocState(p, 0, events, Activity(b));
    s, events := Step(s, p, 0, Activity(b)), events + [Activity(b)];
    SpeakStep(s, p, a);
    RunSnocState(p, 0, events, Activity(a));
    s, events := Step(s, p, 0, Activity(a)), events + [Activity(a)];
    TurnsDisable(a, b);
    QuietRegister(s, p, 0, w, info);
    FreshKey(s.reg, w);
    RunSnocState(p, 0, events, Register(w, info));
    s, events := Step(s, p, 0, Register(w, info)), events + [Register(w, info)];
    WatchAfterFight(s, p, w);
    RunSnocState(p, 0, events, Watch(w, [1, 2]));
    events := events + [Watch(w, [1, 2])];
  }

  lemma RunEmpty(p: R.Policy, self: Key)
    ensures Run(p, self, []) == Start
  {
  }

  lemma SpeakStep(s: State, p: R.Policy, c: Conn)
    requires c in s.live
    ensures Step(s, p, 0, Activity(c)) == s.(reg := R.Speak(s.reg, p, c))
  {
  }

  lemma FreshKey(r: R.Reg, c: Conn)
    requires c.key !in r.clients
    ensures R.Register(r, c).clients == r.clients[c.key := ClientSet(Some(c), None)]
  {
  }

  lemma WatchAfterFight(s: State, p: R.Policy, w: Conn)
    requires w in s.live && w.canMesh && w.key == 2 && s.views == V.NoViews
    requires s.reg.clients.Keys == {1, 2} && s.reg.clients[1].active.None? && s.reg.clients[2].active.Some?
    ensures var s' := Step(s, p, 0, Watch(w, [1, 2]));
            w in s'.views.watchers && V.Replay(V.Log(s'.views, w)) == {2} && s'.reg == s.reg
  {
    assert Elements([1, 2]) == {1, 2};
    V.SnapshotReplay([], s.reg.clients, [1, 2]);
    assert V.ActiveKeys(s.reg.clients) == {2};
  }

  // ---------- gauges and tracker ----------

  /** In every reachable state the gauges count live connections and keys, and the surplus of connections over
      keys is the surplus of duplicate connections over duplicated keys. */
  lemma GaugesCountLive(p: R.Policy, self: Key, events: seq<Event>)
    ensures var s := Run(p, self, events);
            && G.Count(s.gauges, s.reg, s.live, s.preferred)
            && (s.gauges.curClients == s.gauges.localKeys <==>
                  forall c, d :: c in s.live && d in s.live && c.key == d.key ==> c == d)
  {
    var s := Run(p, self, events);
    RunInvariant(p, self, events);
    InvParts(s, p);
    hide Inv;
    G.ThirdTestIff(s.gauges, s.reg, s.live, s.preferred, p);
  }

  /** In every reachable state the tracker holds exactly the live non-mesh connections, under their keys. */
  lemma TrackerHoldsLive(p: R.Policy, self: Key, events: seq<Event>)
    ensures var s := Run(p, self, events); TrackerOk(s.live, s.tracker)
  {
    RunInvariant(p, self, events);
    InvParts(Run(p, self, events), p);
  }

  /** What the server reports to the tracker. */
  ghost function Reports(s: State, e: Event): seq<T.Event> {
    if !Enabled(s, e) then []
    else
      match e
      case Register(c, info) => if c.canMesh then [] else [T.Opened(c.id, c.key, info)]
      case Unregister(c) => if c.canMesh then [] else [T.Closed(c.id)]
      case Received(c, bytes) => [T.Received(c.id, bytes)]
      case Sent(c, bytes) => [T.Sent(c.id, bytes)]
      case _ => []
  }

  ghost function TrackerLog(p: R.Policy, self: Key, events: seq<Event>): seq<T.Event> {
    if events == [] then []
    else
      var front := events[..|events| - 1];
      TrackerLog(p, self, front) + Reports(Run(p, self, front), events[|events| - 1])
  }

  lemma TrackerMoves(s: State, p: R.Policy, self: Key, e: Event)
    ensures |Reports(s, e)| <= 1
    ensures Step(s, p, self, e).tracker ==
      if Reports(s, e) == [] then s.tracker else T.Apply(s.tracker, Reports(s, e)[0])
  {
    hide R.Unregister, R.Register, R.Speak, G.OnUnregister, G.OnRegister, V.Broadcast, V.AddWatcher,
         P.NotePeerGone, P.NoteSend, P.RemoveOne, EntryStep, T.Opening, T.Closing, T.CountReceived, T.CountSent;
  }

  /** A connection that registers has a number the tracker does not hold. */
  lemma ReportsFresh(s: State, p: R.Policy, e: Event)
    requires Inv(s, p) && Reports(s, e) != [] && Reports(s, e)[0].Opened?
    ensures Reports(s, e)[0].id !in s.tracker.connections
  {
    InvParts(s, p);
    assert s.live <= s.ever;
    hide Inv, R.Inv, G.Count, P.Inv, ViewsOk, PresenceOk, T.Agree;
  }

  /** Over every run the tracker's table is what the reported events make it, so each peer's byte totals are all
      the traffic of its connections since it last had none. */
  lemma {:induction false} TrackerCountsTraffic(p: R.Policy, self: Key, events: seq<Event>)
    ensures var s, log := Run(p, self, events), TrackerLog(p, self, events);
      T.FreshNumbers(log) && s.tracker == T.After(log) && T.Accounts(s.tracker, log)
  {
    if events == [] {
      T.TrackerAccounts([]);
    } else {
      hide Inv, Step, Reports, T.Apply, T.Accounts, T.Agree;
      var front, e := events[..|events| - 1], events[|events| - 1];
      var s, log := Run(p, self, front), TrackerLog(p, self, front);
      TrackerCountsTraffic(p, self, front);
      TrackerMoves(s, p, self, e);
      var r := Reports(s, e);
      if r == [] {
        assert log + r == log;
      } else {
        RunInvariant(p, self, front);
        if r[0].Opened? { ReportsFresh(s, p, e); }
        T.AccountsOpen(s.tracker, log);
        assert r == [r[0]];
        T.LogSnoc(log, r[0]);
        T.TrackerAccounts(log + r);
      }
    }
  }
}
