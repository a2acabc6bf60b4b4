/**
 The DERP server object. Each method is one locked section; its contract ties the fields to the step of
 module ServerState that the theorems of module ServerTheorems are about.
 */
module Server {
  import opened Basics
  import opened Connections
  import opened Forwarders
  import opened ServerState
  import R = Registry
  import G = Gauges
  import V = MeshView
  import P = PeerGone
  import T = Tracker
  import Theorems = ServerTheorems

  lemma OrderStarts(clients: map<Key, ClientSet>)
    ensures Elements<Key>([]) == {} && V.Snapshot(clients, []) == []
  {
  }

  class Server {
    const dupPolicy: R.Policy
    const publicKey: Key

    var clients: map<Key, ClientSet>
    var isDup: set<Conn>
    var disabled: set<Conn>
    var preferred: set<Conn>
    var gauges: G.Gauges
    var clientsMesh: map<Key, Entry>
    var gone: P.Gone
    var watchers: set<Conn>
    var logs: map<Conn, seq<V.Record>>
    var tracker: T.Table
    ghost var live: set<Conn>
    ghost var ever: set<Conn>

    ghost function Reg(): R.Reg
      reads this
    {
      R.Reg(clients, isDup, disabled)
    }

    ghost function View(): State
      reads this
    {
      State(Reg(), live, ever, preferred, gauges, clientsMesh, gone, V.Views(watchers, logs), tracker)
    }

    constructor (policy: R.Policy, self: Key)
      ensures View() == Start && dupPolicy == policy && publicKey == self
      ensures Inv(View(), policy)
    {
      dupPolicy, publicKey := policy, self;
      clients, isDup, disabled, preferred := map[], {}, {}, {};
      gauges, clientsMesh, gone := G.Zero, map[], P.NoneGone;
      watchers, logs, tracker, live, ever := {}, map[], T.Empty, {}, {};
      new;
      StartInv(policy);
    }

    method RegisterClient(c: Conn, info: T.Connection)
      modifies this
      ensures View() == OnRegister(old(View()), c, info)
    {
      hide R.Register, G.OnRegister, V.Told, T.Opening;
      Join(c);
      if c.key !in clientsMesh {
        clientsMesh := clientsMesh[c.key := LocalOnly];
      }
      Broadcast(c.key, true);
      if !c.canMesh {
        tracker := T.Opening(tracker, c.id, c.key, info);
      }
      live, ever := live + {c}, ever + {c};
    }

    /** The part of registerClient that places the connection in its set. */
    method Join(c: Conn)
      modifies this`clients, this`isDup, this`gauges
      ensures Reg() == R.Register(old(Reg()), c)
      ensures gauges == G.OnRegister(old(gauges), old(Reg()), c)
    {
      var cs := ClientSet(None, None);
      if c.key in clients {
        cs := clients[c.key];
      } else {
        gauges := gauges.(localKeys := gauges.localKeys + 1);
      }
      var was := cs.active;
      if was.Some? {
        isDup := isDup + {was.value, c};
      }
      if cs.dup.None? && was.Some? {
        gauges := gauges.(dupKeys := gauges.dupKeys + 1, dupConns := gauges.dupConns + 2,
            dupTotal := gauges.dupTotal + 1);
        cs := cs.(dup := Some(Dup({c, was.value}, Some(c), [was.value])));
      } else if cs.dup.Some? {
        gauges := gauges.(dupConns := gauges.dupConns + 1, dupTotal := gauges.dupTotal + 1);
        var d := cs.dup.value;
        cs := cs.(dup := Some(Dup(d.members + {c}, Some(c), d.history + [c])));
      }
      clients := clients[c.key := cs.(active := Some(c))];
      gauges := gauges.(curClients := gauges.curClients + 1);
      if c.notIdeal {
        gauges := gauges.(notIdeal := gauges.notIdeal + 1);
      }
    }

    method Broadcast(peer: Key, present: bool)
      modifies this`logs
      ensures logs == V.Told(old(logs), watchers, V.Record(peer, present))
    {
      hide V.Told;
      var r := V.Record(peer, present);
      ghost var told: set<Conn> := {};
      var todo := watchers;
      V.ToldNobody(logs, r);
      while todo != {}
        modifies this`logs
        invariant told !! todo && told + todo == watchers
        invariant logs == V.Told(old(logs), told, r)
        decreases |todo|
      {
        var w :| w in todo;
        V.ToldOneMore(old(logs), told, r, w);
        logs := logs[w := V.LogOf(logs, w) + [r]];
        todo := todo - {w};
        told := told + {w};
      }
    }

    method UnregisterClient(c: Conn)
      modifies this
      ensures View() == OnUnregister(old(View()), c)
    {
      hide R.Unregister, G.OnUnregister, V.Told, T.Closing, P.NotePeerGone, EntryOf;
      if !c.canMesh {
        tracker := T.Closing(tracker, c.id);
      }
      var how := Leave(c);
      if how.NoSetForKey? || how.ActiveIsNil? || how.ActiveIsAnother? {
        return;
      }
      if how.KeyLeft? {
        KeyLeaves(c.key);
      }
      if c.canMesh {
        watchers := watchers - {c};
      }
      live, preferred := live - {c}, preferred - {c};
    }

    /** What follows when the last connection of a key has left. */
    method KeyLeaves(k: Key)
      modifies this`clientsMesh, this`gone, this`logs
      ensures var leaves := EntryOf(old(clientsMesh), k) == Some(LocalOnly);
        && clientsMesh == (if leaves then old(clientsMesh) - {k} else old(clientsMesh))
        && gone == (if leaves then P.NotePeerGone(old(gone), k) else old(gone))
        && logs == V.Told(old(logs), watchers, V.Record(k, false))
    {
      hide V.Told, P.NotePeerGone;
      if k in clientsMesh && clientsMesh[k].LocalOnly? {
        clientsMesh := clientsMesh - {k};
        gone := P.NotePeerGone(gone, k);
      }
      Broadcast(k, false);
    }

    /** The part of unregisterClient that takes the connection out of its set. */
    method Leave(c: Conn) returns (how: R.Departure)
      modifies this`clients, this`isDup, this`disabled, this`gauges
      ensures (Reg(), how) == R.Unregister(old(Reg()), c)
      ensures gauges == G.OnUnregister(old(gauges), old(Reg()), c, c in preferred)
      ensures how.NoSetForKey? || how.ActiveIsNil? || how.ActiveIsAnother? ==>
        Reg() == old(Reg()) && gauges == old(gauges)
    {
      hide Removed, PickActive;
      if c.key !in clients {
        return R.NoSetForKey;
      }
      var cs := clients[c.key];
      if cs.dup.None? {
        if cs.active.None? {
          return R.ActiveIsNil;
        }
        if cs.active != Some(c) {
          return R.ActiveIsAnother;
        }
        clients := clients - {c.key};
        gauges := gauges.(localKeys := gauges.localKeys - 1);
        how := R.KeyLeft;
      } else {
        how := LeaveDuplicates(c, cs.dup.value);
      }
      gauges := gauges.(curClients := gauges.curClients - 1);
      if c in preferred {
        gauges := gauges.(home := gauges.home - 1);
      }
      if c.notIdeal {
        gauges := gauges.(notIdeal := gauges.notIdeal - 1);
      }
    }

    /** The duplicate branch of unregisterClient: shrink the set, and demote it when one connection remains. */
    method LeaveDuplicates(c: Conn, dup: Dup) returns (how: R.Departure)
      requires c.key in clients && clients[c.key].dup == Some(dup)
      modifies this`clients, this`isDup, this`disabled, this`gauges
      ensures (Reg(), how) == R.Unregister(old(Reg()), c)
      ensures var (d, shrank) := Removed(dup, c);
              gauges == old(gauges).(
                dupConns := old(gauges).dupConns - G.Bit(shrank) - G.Bit(|d.members| == 1),
                dupKeys := old(gauges).dupKeys - G.Bit(|d.members| == 1))
    {
      var (d, shrank) := Removed(dup, c);
      how := R.SetDidNotShrink;
      if shrank {
        how := if |d.members| == 1 then R.Demoted else R.StillDuplicate;
        gauges := gauges.(dupConns := gauges.dupConns - 1);
      }
      if |d.members| == 1 {
        gauges := gauges.(dupConns := gauges.dupConns - 1, dupKeys := gauges.dupKeys - 1);
        assert d.members != {};
        var remain :| remain in d.members;
        SingletonElements(d.members, remain);
        disabled := disabled - {remain};
        isDup := isDup - {remain};
        clients := clients[c.key := ClientSet(Some(remain), None)];
      } else {
        clients := clients[c.key := ClientSet(PickActive(ClientSet(None, Some(d)), disabled), Some(d))];
      }
    }

    method NoteClientActivity(c: Conn)
      modifies this`clients, this`disabled
      ensures Reg() == R.NoteActivity(old(Reg()), dupPolicy, c)
    {
      if c !in isDup || c in disabled {
        return;
      }
      if c.key !in clients || clients[c.key].dup.None? {
        return;
      }
      var active, dup := clients[c.key].active, clients[c.key].dup.value;
      if dupPolicy.LastWriterIsActive? || dup.last.None? {
        dup, active := dup.(last := Some(c)), Some(c);
      }
      if dup.history != [] && dup.history[|dup.history| - 1] == c {
        clients := clients[c.key := ClientSet(active, Some(dup))];
        return;
      }
      if dupPolicy.DisableFighters? && c in dup.history {
        active := DisableAll(dup.members, active);
      }
      clients := clients[c.key := ClientSet(active, Some(dup.(history := dup.history + [c])))];
    }

    /** Disable every member of a fighting set; the active one among them stops being active. */
    method DisableAll(members: set<Conn>, was: Option<Conn>) returns (active: Option<Conn>)
      modifies this`disabled
      ensures disabled == old(disabled) + members
      ensures active == if was.Some? && was.value in members then None else was
    {
      active := was;
      var todo := members;
      while todo != {}
        invariant todo <= members && disabled == old(disabled) + (members - todo)
        invariant active == if was.Some? && was.value in members - todo then None else was
        decreases |todo|
      {
        var x :| x in todo;
        disabled := disabled + {x};
        if active == Some(x) {
          active := None;
        }
        todo := todo - {x};
      }
    }

    /** `order` is the order in which the loop met the sets. */
    method AddWatcher(c: Conn) returns (ghost order: seq<Key>)
      requires c.canMesh
      modifies this`watchers, this`logs
      ensures c.key == publicKey ==> View() == old(View())
      ensures c.key != publicKey ==> Elements(order) == clients.Keys
      ensures c.key != publicKey ==>
        View() == old(View()).(views := V.AddWatcher(old(View()).views, clients, c, order))
    {
      order := [];
      if c.key == publicKey {
        return;
      }
      var present;
      present, order := ActiveKeys();
      logs := logs[c := V.LogOf(logs, c) + present];
      watchers := watchers + {c};
    }

    /** One present record for each set that has an active client. */
    method ActiveKeys() returns (present: seq<V.Record>, ghost order: seq<Key>)
      ensures Elements(order) == clients.Keys
      ensures present == V.Snapshot(clients, order)
    {
      hide V.Snapshot, Elements;
      var todo := clients.Keys;
      present, order := [], [];
      OrderStarts(clients);
      while todo != {}
        invariant todo <= clients.Keys && Elements(order) == clients.Keys - todo
        invariant present == V.Snapshot(clients, order)
        decreases |todo|
      {
        var k :| k in todo;
        V.SnapshotSnoc(clients, order, k);
        if clients[k].active.Some? {
          present := present + [V.Record(k, true)];
        }
        order, todo := order + [k], todo - {k};
      }
    }

    method AddPacketForwarder(dst: Key, f: Fwd)
      modifies this`clientsMesh
      ensures EntryStep(EntryOf(old(clientsMesh), dst), Add(f), EntryOf(clientsMesh, dst))
      ensures clientsMesh == WithEntry(old(clientsMesh), dst, EntryOf(clientsMesh, dst))
    {
      if dst !in clientsMesh || clientsMesh[dst].LocalOnly? {
        clientsMesh := clientsMesh[dst := One(f)];
      } else if clientsMesh[dst].One? {
        if f != clientsMesh[dst].f {
          clientsMesh := clientsMesh[dst := Many(NewMulti(clientsMesh[dst].f, f))];
        }
      } else if f !in clientsMesh[dst].m.all {
        var mf := new MultiForwarder.Of(clientsMesh[dst].m);
        mf.Add(f);
        clientsMesh := clientsMesh[dst := Many(Multi(mf.fwd, mf.all))];
      }
    }

    method RemovePacketForwarder(dst: Key, f: Fwd)
      requires dst in clientsMesh && clientsMesh[dst].Many? ==> |clientsMesh[dst].m.all| >= 2
      modifies this`clientsMesh, this`gone
      ensures EntryStep(EntryOf(old(clientsMesh), dst), Remove(f, dst in clients), EntryOf(clientsMesh, dst))
      ensures View() == OnRemoveForwarder(old(View()), dst, EntryOf(clientsMesh, dst))
    {
      if dst !in clientsMesh || clientsMesh[dst].LocalOnly? {
        assert dst !in clientsMesh ==> clientsMesh - {dst} == clientsMesh;
        assert dst in clientsMesh ==> clientsMesh[dst := clientsMesh[dst]] == clientsMesh;
      } else if clientsMesh[dst].One? {
        if f != clientsMesh[dst].f {
          assert clientsMesh[dst := clientsMesh[dst]] == clientsMesh;
        } else if dst in clients {
          clientsMesh := clientsMesh[dst := LocalOnly];
        } else {
          clientsMesh := clientsMesh - {dst};
          gone := P.NotePeerGone(gone, dst);
        }
      } else {
        ghost var m := clientsMesh[dst].m;
        var mf := new MultiForwarder.Of(clientsMesh[dst].m);
        var remain, isLast := mf.DeleteLocked(f);
        assert Deleted(m, f, Multi(mf.fwd, mf.all));
        if isLast {
          clientsMesh := clientsMesh[dst := One(remain)];
        } else {
          clientsMesh := clientsMesh[dst := Many(Multi(mf.fwd, mf.all))];
        }
      }
    }

    /** lookupDest once it holds the lock. */
    method LookupDest(dst: Key) returns (client: Option<Conn>, fwd: Option<Entry>, dstLen: nat)
      ensures (client, fwd, dstLen) == Theorems.LookupSlow(View(), dst)
    {
      client, fwd, dstLen := None, None, 0;
      if dst in clients {
        if clients[dst].active.Some? {
          return clients[dst].active, None, 1;
        }
        dstLen := Len(clients[dst]);
      }
      if dstLen < 1 && dst in clientsMesh && !clientsMesh[dst].LocalOnly? {
        fwd := Some(clientsMesh[dst]);
      }
    }

    /** The three tests of ConsistencyCheck. In a reachable state the first two never fail, and the third
        fails exactly while some key is connected twice. */
    method ConsistencyCheck() returns (nilMeshNotInClient: int, clientNotInMesh: int, countsDiffer: bool)
      requires Inv(View(), dupPolicy)
      ensures nilMeshNotInClient == 0 && clientNotInMesh == 0
      ensures countsDiffer <==> exists c, d :: c in live && d in live && c.key == d.key && c != d
    {
      nilMeshNotInClient, clientNotInMesh := 0, 0;
      var todo := clientsMesh.Keys;
      while todo != {}
        invariant todo <= clientsMesh.Keys && nilMeshNotInClient == 0
        decreases |todo|
      {
        var k :| k in todo;
        if clientsMesh[k].LocalOnly? && k !in clients {
          nilMeshNotInClient := nilMeshNotInClient + 1;
        }
        todo := todo - {k};
      }
      todo := clients.Keys;
      while todo != {}
        invariant todo <= clients.Keys && clientNotInMesh == 0
        decreases |todo|
      {
        var k :| k in todo;
        if k !in clientsMesh {
          clientNotInMesh := clientNotInMesh + 1;
        }
        todo := todo - {k};
      }
      countsDiffer := gauges.curClients != gauges.localKeys;
      G.ThirdTestIff(gauges, Reg(), live, preferred, dupPolicy);
    }
  }
}
