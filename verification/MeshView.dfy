/**
 What mesh watchers are told: the present/gone records enqueued for each watcher, in order.

 `logs[w]` is everything ever enqueued for `w`, written or still pending; module MeshDrain shows that
 the drain writes exactly that, in that order.
 */
module MeshView {
  import opened Basics
  import opened Connections
  import opened Registry

  datatype Record = Record(peer: Key, present: bool)

  datatype Views = Views(watchers: set<Conn>, logs: map<Conn, seq<Record>>)

  const NoViews := Views({}, map[])

  function LogOf(logs: map<Conn, seq<Record>>, w: Conn): seq<Record> {
    if w in logs then logs[w] else []
  }

  function Log(v: Views, w: Conn): seq<Record> {
    LogOf(v.logs, w)
  }

  /** The keys a watcher believes connected after replaying its records. */
  function Replay(log: seq<Record>): set<Key> {
    if log == [] then {}
    else
      var before, r := Replay(log[..|log| - 1]), log[|log| - 1];
      if r.present then before + {r.peer} else before - {r.peer}
  }

  // ---------- steps ----------

  /** broadcastPeerStateChangeLocked. */
  ghost function Broadcast(v: Views, k: Key, present: bool): Views {
    v.(logs := Told(v.logs, v.watchers, Record(k, present)))
  }

  /** The logs after `r` was appended to those of `told`. */
  ghost function Told(logs: map<Conn, seq<Record>>, told: set<Conn>, r: Record): map<Conn, seq<Record>> {
    map w | w in logs.Keys + told :: if w in told then LogOf(logs, w) + [r] else logs[w]
  }

  /** The records queued for a new watcher, for the sets with an active client, in iteration order. */
  function Snapshot(clients: map<Key, ClientSet>, order: seq<Key>): seq<Record> {
    if order == [] then []
    else
      var rest := Snapshot(clients, order[..|order| - 1]);
      var k := order[|order| - 1];
      if k in clients && clients[k].active.Some? then rest + [Record(k, true)] else rest
  }

  ghost function AddWatcher(v: Views, clients: map<Key, ClientSet>, c: Conn, order: seq<Key>): Views {
    Views(v.watchers + {c}, v.logs[c := Log(v, c) + Snapshot(clients, order)])
  }

  function RemoveWatcher(v: Views, c: Conn): Views {
    v.(watchers := v.watchers - {c})
  }

  // ---------- invariant ----------

  ghost predicate Exact(v: Views, keys: set<Key>) {
    forall w :: w in v.watchers ==> Replay(Log(v, w)) == keys
  }

  ghost function ActiveKeys(clients: map<Key, ClientSet>): set<Key> {
    set k | k in clients && clients[k].active.Some?
  }

  lemma ToldOneMore(logs: map<Conn, seq<Record>>, told: set<Conn>, r: Record, w: Conn)
    requires w !in told
    ensures LogOf(Told(logs, told, r), w) == LogOf(logs, w)
    ensures Told(logs, told + {w}, r) == Told(logs, told, r)[w := LogOf(logs, w) + [r]]
  {
  }

  lemma ToldNobody(logs: map<Conn, seq<Record>>, r: Record)
    ensures Told(logs, {}, r) == logs
  {
  }

  lemma SnapshotSnoc(clients: map<Key, ClientSet>, order: seq<Key>, k: Key)
    requires k in clients
    ensures Snapshot(clients, order + [k]) ==
      Snapshot(clients, order) + if clients[k].active.Some? then [Record(k, true)] else []
    ensures Elements(order + [k]) == Elements(order) + {k}
  {
    assert (order + [k])[..|order|] == order;
  }

  lemma ReplaySnoc(log: seq<Record>, r: Record)
    ensures Replay(log + [r]) == if r.present then Replay(log) + {r.peer} else Replay(log) - {r.peer}
  {
    assert (log + [r])[..|log|] == log;
  }

  lemma BroadcastExact(v: Views, keys: set<Key>, k: Key, present: bool)
    requires Exact(v, keys)
    ensures Exact(Broadcast(v, k, present), if present then keys + {k} else keys - {k})
  {
    var v' := Broadcast(v, k, present);
    forall w | w in v'.watchers
      ensures Replay(Log(v', w)) == if present then keys + {k} else keys - {k}
    {
      ReplaySnoc(Log(v, w), Record(k, present));
    }
  }

  lemma {:induction false} SnapshotReplay(log: seq<Record>, clients: map<Key, ClientSet>, order: seq<Key>)
    ensures Replay(log + Snapshot(clients, order)) == Replay(log) + (Elements(order) * ActiveKeys(clients))
  {
    if order == [] {
      assert log + Snapshot(clients, order) == log;
    } else {
      var front, k := order[..|order| - 1], order[|order| - 1];
      SnapshotReplay(log, clients, front);
      assert order == front + [k];
      assert Elements(order) == Elements(front) + {k};
      if k in ActiveKeys(clients) {
        assert log + Snapshot(clients, order) == log + Snapshot(clients, front) + [Record(k, true)];
        ReplaySnoc(log + Snapshot(clients, front), Record(k, true));
      }
    }
  }

  /** Enrolling a watcher, first time or again, yields the exact view exactly if the keys it has not
      seen all have an active client. Watchers enrolled before keep theirs. */
  lemma AddWatcherExactIff(v: Views, clients: map<Key, ClientSet>, c: Conn, order: seq<Key>)
    requires Exact(v, clients.Keys) && Elements(order) == clients.Keys && Replay(Log(v, c)) <= clients.Keys
    ensures Exact(AddWatcher(v, clients, c, order), clients.Keys) <==>
              forall k :: k in clients && clients[k].active.None? ==> k in Replay(Log(v, c))
  {
    var v' := AddWatcher(v, clients, c, order);
    SnapshotReplay(Log(v, c), clients, order);
    assert Replay(Log(v', c)) == Replay(Log(v, c)) + ActiveKeys(clients) by {
      assert Elements(order) * ActiveKeys(clients) == ActiveKeys(clients);
    }
    assert forall w :: w in v.watchers && w != c ==> Log(v', w) == Log(v, w);
    if forall k :: k in clients && clients[k].active.None? ==> k in Replay(Log(v, c)) {
      assert forall k :: k in clients ==> k in Replay(Log(v, c)) + ActiveKeys(clients);
      assert Replay(Log(v', c)) == clients.Keys;
    } else {
      var k :| k in clients && clients[k].active.None? && k !in Replay(Log(v, c));
      assert k !in Replay(Log(v', c)) && c in v'.watchers;
    }
  }
}
