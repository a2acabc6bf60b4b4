/**
 PeerTracker: connections indexed by peer and by connection number, with payload totals per peer.
 */
module Tracker {
  import opened Basics

  type Id = nat
  type Key = nat

  datatype Connection = Connection(remoteAddr: nat, connectedAt: nat)

  datatype Peer = Peer(conns: map<Id, Connection>, recv: int, sent: int)

  datatype Table = Table(peers: map<Key, Peer>, connections: map<Id, Key>)

  const Empty := Table(map[], map[])

  // ---------- operations ----------

  function Opening(t: Table, id: Id, key: Key, c: Connection): Table {
    var p := if key in t.peers then t.peers[key] else Peer(map[], 0, 0);
    Table(t.peers[key := p.(conns := p.conns[id := c])], t.connections[id := key])
  }

  function Closing(t: Table, id: Id): Table {
    if id !in t.connections then t
    else
      var key := t.connections[id];
      var connections := t.connections - {id};
      if key !in t.peers then Table(t.peers, connections)
      else
        var conns := t.peers[key].conns - {id};
        Table(if conns == map[] then t.peers - {key} else t.peers[key := t.peers[key].(conns := conns)], connections)
  }

  function CountReceived(t: Table, id: Id, bytes: int): Table {
    if id in t.connections && t.connections[id] in t.peers then
      var key := t.connections[id];
      t.(peers := t.peers[key := t.peers[key].(recv := t.peers[key].recv + bytes)])
    else t
  }

  function CountSent(t: Table, id: Id, bytes: int): Table {
    if id in t.connections && t.connections[id] in t.peers then
      var key := t.connections[id];
      t.(peers := t.peers[key := t.peers[key].(sent := t.peers[key].sent + bytes)])
    else t
  }

  // ---------- agreement of the two indexes ----------

  /** The two maps are inverse to each other, and every peer has a connection. */
  ghost predicate Agree(t: Table) {
    && (forall id :: id in t.connections ==> t.connections[id] in t.peers && id in t.peers[t.connections[id]].conns)
    && (forall k :: k in t.peers ==> t.peers[k].conns != map[])
    && (forall k, id :: k in t.peers && id in t.peers[k].conns ==> id in t.connections && t.connections[id] == k)
  }

  /** What the table holds for number `i` and peer `k` after a connection was opened. */
  lemma OpeningAt(t: Table, id: Id, key: Key, c: Connection, i: Id, k: Key)
    ensures var t' := Opening(t, id, key, c);
      && (i in t'.connections <==> i == id || i in t.connections)
      && (i in t'.connections ==> t'.connections[i] == if i == id then key else t.connections[i])
      && (k in t'.peers <==> k == key || k in t.peers)
      && (k in t'.peers ==>
          (i in t'.peers[k].conns <==> (k == key && i == id) || (k in t.peers && i in t.peers[k].conns)))
  {
  }

  lemma OpeningAgrees(t: Table, id: Id, key: Key, c: Connection)
    requires Agree(t) && (id !in t.connections || t.connections[id] == key)
    ensures Agree(Opening(t, id, key, c))
  {
    var t' := Opening(t, id, key, c);
    hide Opening;
    forall i | i in t'.connections
      ensures t'.connections[i] in t'.peers && i in t'.peers[t'.connections[i]].conns
    {
      OpeningAt(t, id, key, c, i, t'.connections[i]);
    }
    forall k, i | k in t'.peers && i in t'.peers[k].conns
      ensures i in t'.connections && t'.connections[i] == k
    {
      OpeningAt(t, id, key, c, i, k);
    }
    forall k | k in t'.peers
      ensures t'.peers[k].conns != map[]
    {
      var i := if k == key then id else SomeConnection(t.peers, k);
      OpeningAt(t, id, key, c, i, k);
    }
  }

  ghost function SomeConnection(peers: map<Key, Peer>, k: Key): (i: Id)
    ensures k in peers && peers[k].conns != map[] ==> i in peers[k].conns
  {
    if k in peers && peers[k].conns != map[] then var i :| i in peers[k].conns; i else 0
  }

  /** Registering keeps the indexes in agreement exactly if the number is not in use for another peer. */
  lemma RegisterAgreesIff(t: Table, id: Id, key: Key, c: Connection)
    requires Agree(t)
    ensures Agree(Opening(t, id, key, c)) <==> (id !in t.connections || t.connections[id] == key)
  {
    if id in t.connections && t.connections[id] != key {
      var t', k := Opening(t, id, key, c), t.connections[id];
      assert k in t'.peers && id in t'.peers[k].conns && t'.connections[id] != k;
    } else {
      OpeningAgrees(t, id, key, c);
    }
  }

  /** Closing one changes its peer, which goes with its last connection. */
  lemma ClosingAt(t: Table, id: Id)
    requires Agree(t) && id in t.connections
    ensures var t', key := Closing(t, id), t.connections[id];
      && t'.connections == t.connections - {id} && key in t.peers
      && (forall k :: k != key ==> (k in t'.peers <==> k in t.peers) && (k in t.peers ==> t'.peers[k] == t.peers[k]))
      && (key in t'.peers <==> t.peers[key].conns - {id} != map[])
      && (key in t'.peers ==> t'.peers[key].conns == t.peers[key].conns - {id})
  {
  }

  /** A number is listed under its own peer only. */
  lemma ListedOnce(t: Table, id: Id, k: Key)
    requires Agree(t) && k in t.peers && (id !in t.connections || t.connections[id] != k)
    ensures t.peers[k].conns - {id} == t.peers[k].conns
  {
    assert id !in t.peers[k].conns;
  }

  lemma UnregisterPeers(t: Table, id: Id, k: Key)
    requires Agree(t)
    ensures k in Closing(t, id).peers <==> k in t.peers && t.peers[k].conns - {id} != map[]
  {
    if id in t.connections { ClosingAt(t, id); }
    if k in t.peers && (id !in t.connections || t.connections[id] != k) { ListedOnce(t, id, k); }
  }

  lemma UnregisterAgrees(t: Table, id: Id)
    requires Agree(t)
    ensures Agree(Closing(t, id))
    ensures forall k :: k in Closing(t, id).peers <==> k in t.peers && t.peers[k].conns - {id} != map[]
  {
    forall k
      ensures k in Closing(t, id).peers <==> k in t.peers && t.peers[k].conns - {id} != map[]
    {
      UnregisterPeers(t, id, k);
    }
    if id in t.connections {
      ClosingAt(t, id);
      hide Closing;
      ClosingAgrees(t, id, Closing(t, id));
    }
  }

  lemma ClosingAgrees(t: Table, id: Id, t': Table)
    requires Agree(t) && id in t.connections && t.connections[id] in t.peers
    requires t'.connections == t.connections - {id}
    requires forall k :: k != t.connections[id] ==>
      (k in t'.peers <==> k in t.peers) && (k in t.peers ==> t'.peers[k] == t.peers[k])
    requires t.connections[id] in t'.peers <==> t.peers[t.connections[id]].conns - {id} != map[]
    requires t.connections[id] in t'.peers ==>
      t'.peers[t.connections[id]].conns == t.peers[t.connections[id]].conns - {id}
    ensures Agree(t')
  {
    var key := t.connections[id];
    forall i | i in t'.connections
      ensures t'.connections[i] in t'.peers && i in t'.peers[t'.connections[i]].conns
    {
      assert i in t.peers[t.connections[i]].conns;
      if t.connections[i] == key { assert i in t.peers[key].conns - {id}; }
    }
  }

  // ---------- totals, from the event log alone ----------

  datatype Event =
    | Opened(id: Id, key: Key, c: Connection)
    | Closed(id: Id)
    | Received(id: Id, bytes: int)
    | Sent(id: Id, bytes: int)

  function Apply(t: Table, e: Event): Table {
    match e
    case Opened(id, key, c) => Opening(t, id, key, c)
    case Closed(id) => Closing(t, id)
    case Received(id, bytes) => CountReceived(t, id, bytes)
    case Sent(id, bytes) => CountSent(t, id, bytes)
  }

  function After(log: seq<Event>): Table {
    if log == [] then Empty else Apply(After(log[..|log| - 1]), log[|log| - 1])
  }

  /** Connections opened and not closed since. */
  function OpenIn(log: seq<Event>): map<Id, Key> {
    if log == [] then map[]
    else
      var before, e := OpenIn(log[..|log| - 1]), log[|log| - 1];
      match e
      case Opened(id, key, _) => before[id := key]
      case Closed(id) => before - {id}
      case _ => before
  }

  ghost predicate FreshNumbers(log: seq<Event>) {
    forall n :: 0 <= n < |log| && log[n].Opened? ==> log[n].id !in OpenIn(log[..n])
  }

  /** Bytes of one direction seen for `key` since it last had no connection. */
  ghost function BytesSince(log: seq<Event>, key: Key, received: bool): int {
    if log == [] || key !in OpenIn(log).Values then 0
    else
      var e := log[|log| - 1];
      BytesSince(log[..|log| - 1], key, received) +
      Added(OpenIn(log), e, key, received)
  }

  ghost predicate Accounts(t: Table, log: seq<Event>) {
    && Agree(t)
    && t.connections == OpenIn(log)
    && (forall k :: k in t.peers <==> k in OpenIn(log).Values)
    && (forall k :: k in t.peers ==>
        t.peers[k].recv == BytesSince(log, k, true) && t.peers[k].sent == BytesSince(log, k, false))
  }

  lemma PeersAreOpen(t: Table)
    requires Agree(t)
    ensures forall k :: k in t.peers <==> k in t.connections.Values
  {
    forall k | k in t.peers
      ensures k in t.connections.Values
    {
      var id :| id in t.peers[k].conns;
      assert t.connections[id] == k;
    }
  }

  lemma ApplyAgrees(t: Table, e: Event)
    requires Agree(t) && (e.Opened? ==> e.id !in t.connections)
    ensures Agree(Apply(t, e))
  {
    match e
    case Opened(id, key, c) => RegisterAgreesIff(t, id, key, c);
    case Closed(id) => UnregisterAgrees(t, id);
    case _ =>
  }

  lemma ConnectionsStep(t: Table, front: seq<Event>, e: Event)
    requires t.connections == OpenIn(front)
    ensures Apply(t, e).connections == OpenIn(front + [e])
  {
    assert (front + [e])[..|front|] == front;
  }

  /** After any log of events with fresh numbers, the tracker holds exactly the open connections
      under their peers, and each peer's totals are all its traffic since it last had none. */
  lemma {:induction false} TrackerAccounts(log: seq<Event>)
    requires FreshNumbers(log)
    ensures Accounts(After(log), log)
  {
    if log != [] {
      var front, e := log[..|log| - 1], log[|log| - 1];
      forall n | 0 <= n < |front| && front[n].Opened?
        ensures front[n].id !in OpenIn(front[..n])
      {
        assert front[..n] == log[..n];
      }
      TrackerAccounts(front);
      assert front + [e] == log;
      assert e.Opened? ==> e.id !in OpenIn(front);
      AccountsStep(After(front), front, e);
    }
  }

  lemma AccountsOpen(t: Table, log: seq<Event>)
    requires Accounts(t, log)
    ensures t.connections == OpenIn(log)
  {
  }

  lemma LogSnoc(log: seq<Event>, e: Event)
    requires FreshNumbers(log) && (e.Opened? ==> e.id !in OpenIn(log))
    ensures FreshNumbers(log + [e]) && After(log + [e]) == Apply(After(log), e)
  {
    hide OpenIn, Apply;
    var longer := log + [e];
    assert longer[..|log|] == log;
    forall n | 0 <= n < |longer| && longer[n].Opened?
      ensures longer[n].id !in OpenIn(longer[..n])
    {
      assert longer[..n] == if n < |log| then log[..n] else log;
    }
  }

  lemma AccountsStep(t: Table, front: seq<Event>, e: Event)
    requires Accounts(t, front) && (e.Opened? ==> e.id !in OpenIn(front))
    ensures Accounts(Apply(t, e), front + [e])
  {
    hide Agree, Apply, BytesSince, OpenIn;
    ApplyAgrees(t, e);
    PeersAreOpen(Apply(t, e));
    ConnectionsStep(t, front, e);
    TotalsStep(t, front, e);
  }

  lemma TotalsStep(t: Table, front: seq<Event>, e: Event)
    requires Accounts(t, front) && Agree(Apply(t, e)) && (e.Opened? ==> e.id !in t.connections)
    requires forall k :: k in Apply(t, e).peers <==> k in OpenIn(front + [e]).Values
    requires Apply(t, e).connections == OpenIn(front + [e])
    ensures forall k :: k in Apply(t, e).peers ==>
      && Apply(t, e).peers[k].recv == BytesSince(front + [e], k, true)
      && Apply(t, e).peers[k].sent == BytesSince(front + [e], k, false)
  {
    var t' := Apply(t, e);
    forall k | k in t'.peers
      ensures t'.peers[k].recv == BytesSince(front + [e], k, true)
        && t'.peers[k].sent == BytesSince(front + [e], k, false)
    {
      TotalOf(t, e, k);
      BytesSnoc(front, e, k, true);
      BytesSnoc(front, e, k, false);
      hide Apply;
      if k !in t.peers { NoBytes(front, k); }
    }
  }

  /** What an event adds to the bytes of peer `k`, given the connections after it. */
  ghost function Added(open: map<Id, Key>, e: Event, k: Key, received: bool): int {
    if (if received then e.Received? else e.Sent?) && e.id in open && open[e.id] == k then e.bytes else 0
  }

  lemma TotalOf(t: Table, e: Event, k: Key)
    requires Agree(t) && k in Apply(t, e).peers
    ensures var t' := Apply(t, e);
      && t'.peers[k].recv == (if k in t.peers then t.peers[k].recv else 0) + Added(t'.connections, e, k, true)
      && t'.peers[k].sent == (if k in t.peers then t.peers[k].sent else 0) + Added(t'.connections, e, k, false)
  {
  }

  lemma BytesSnoc(front: seq<Event>, e: Event, k: Key, received: bool)
    requires k in OpenIn(front + [e]).Values
    ensures BytesSince(front + [e], k, received) == BytesSince(front, k, received) +
      Added(OpenIn(front + [e]), e, k, received)
  {
    assert (front + [e])[..|front|] == front;
    hide OpenIn;
  }

  lemma NoBytes(log: seq<Event>, k: Key)
    requires k !in OpenIn(log).Values
    ensures BytesSince(log, k, true) == 0 && BytesSince(log, k, false) == 0
  {
  }

  /** The address and time each open connection was reported with. */
  function InfoIn(log: seq<Event>): map<Id, Connection> {
    if log == [] then map[]
    else
      var before, e := InfoIn(log[..|log| - 1]), log[|log| - 1];
      match e
      case Opened(id, _, c) => before[id := c]
      case Closed(id) => before - {id}
      case _ => before
  }

  ghost predicate InfoOk(t: Table, info: map<Id, Connection>, id: Id) {
    id in t.connections ==>
      && id in info && t.connections[id] in t.peers && id in t.peers[t.connections[id]].conns
      && t.peers[t.connections[id]].conns[id] == info[id]
  }

  lemma InfoStep(t: Table, front: seq<Event>, e: Event, id: Id)
    requires Agree(t) && Agree(Apply(t, e)) && InfoOk(t, InfoIn(front), id) && (e.Opened? ==> e.id !in t.connections)
    ensures InfoOk(Apply(t, e), InfoIn(front + [e]), id)
  {
    assert (front + [e])[..|front|] == front;
  }

  /** Each connection is listed with the address and time it was reported with. */
  lemma {:induction false} TrackerKeepsInfo(log: seq<Event>, id: Id)
    requires FreshNumbers(log)
    ensures InfoOk(After(log), InfoIn(log), id)
  {
    if log != [] {
      var front, e := log[..|log| - 1], log[|log| - 1];
      assert front + [e] == log;
      FreshFront(log);
      TrackerAccounts(front);
      TrackerAccounts(log);
      assert e.Opened? ==> e.id !in OpenIn(front);
      AccountsOpen(After(front), front);
      TrackerKeepsInfo(front, id);
      hide OpenIn, BytesSince, InfoOk;
      InfoStep(After(front), front, e, id);
    }
  }

  lemma FreshFront(log: seq<Event>)
    requires FreshNumbers(log) && log != []
    ensures FreshNumbers(log[..|log| - 1])
  {
    var front := log[..|log| - 1];
    assert forall n :: 0 <= n < |front| ==> front[n] == log[n] && front[..n] == log[..n];
  }

  // ---------- the object ----------

  datatype PeerInfo = PeerInfo(key: Key, remoteAddr: nat, connectedAt: nat, connections: seq<Connection>, recv: int,
                               sent: int)

  ghost predicate Ascending(s: seq<nat>) {
    forall i, j :: 0 <= i < j < |s| ==> s[i] < s[j]
  }

  method Least(s: set<nat>) returns (low: nat)
    requires s != {}
    ensures low in s && forall x :: x in s ==> low <= x
  {
    low :| low in s;
    var rest := s - {low};
    while rest != {}
      invariant rest <= s && low in s
      invariant forall x :: x in s && x !in rest ==> low <= x
      decreases |rest|
    {
      var x :| x in rest;
      if x < low {
        low := x;
      }
      rest := rest - {x};
    }
  }

  /** Sorts the elements of a set, as GetAll sorts map keys. */
  lemma AscendingSnoc(r: seq<nat>, x: nat)
    requires Ascending(r) && forall i :: 0 <= i < |r| ==> r[i] < x
    ensures Ascending(r + [x]) && Elements(r + [x]) == Elements(r) + {x}
  {
  }

  lemma NoElements()
    ensures Elements<nat>([]) == {} && Ascending([])
  {
  }

  method SortKeys(s: set<nat>) returns (r: seq<nat>)
    ensures Ascending(r) && Elements(r) == s
  {
    hide Elements, Ascending;
    r := [];
    var todo := s;
    NoElements();
    while todo != {}
      invariant todo <= s && Ascending(r) && Elements(r) == s - todo
      invariant forall i, y :: 0 <= i < |r| && y in todo ==> r[i] < y
      decreases |todo|
    {
      var low := Least(todo);
      AscendingSnoc(r, low);
      r, todo := r + [low], todo - {low};
    }
  }

  class PeerTracker {
    var peers: map<Key, Peer>
    var connections: map<Id, Key>

    ghost function View(): Table
      reads this
    {
      Table(peers, connections)
    }

    ghost predicate Valid()
      reads this
    {
      Agree(View())
    }

    constructor ()
      ensures View() == Empty && Valid()
    {
      peers, connections := map[], map[];
    }

    method Register(id: Id, key: Key, c: Connection)
      requires Valid() && (id !in connections || connections[id] == key)
      modifies this
      ensures View() == Opening(old(View()), id, key, c) && Valid()
    {
      RegisterAgreesIff(View(), id, key, c);
      var p := Peer(map[], 0, 0);
      if key in peers {
        p := peers[key];
      }
      peers := peers[key := p.(conns := p.conns[id := c])];
      connections := connections[id := key];
    }

    method Unregister(id: Id)
      requires Valid()
      modifies this
      ensures View() == Closing(old(View()), id) && Valid()
    {
      UnregisterAgrees(View(), id);
      if id !in connections {
        return;
      }
      var key := connections[id];
      connections := connections - {id};
      var p := peers[key];
      p := p.(conns := p.conns - {id});
      if p.conns == map[] {
        peers := peers - {key};
      } else {
        peers := peers[key := p];
      }
    }

    method Receive(id: Id, bytes: int)
      requires Valid()
      modifies this`peers
      ensures View() == CountReceived(old(View()), id, bytes) && Valid()
    {
      if id in connections {
        var key := connections[id];
        peers := peers[key := peers[key].(recv := peers[key].recv + bytes)];
      }
    }

    method Send(id: Id, bytes: int)
      requires Valid()
      modifies this`peers
      ensures View() == CountSent(old(View()), id, bytes) && Valid()
    {
      if id in connections {
        var key := connections[id];
        peers := peers[key := peers[key].(sent := peers[key].sent + bytes)];
      }
    }

    /** One entry per peer in key order; the address shown is that of its newest connection and the
        time that of its oldest. */
    method GetAll() returns (list: seq<PeerInfo>)
      requires Valid()
      ensures |list| == |peers| && Ascending(seq(|list|, i requires 0 <= i < |list| => list[i].key))
      ensures forall i :: 0 <= i < |list| ==> list[i].key in peers && Describes(list[i], peers[list[i].key])
    {
      hide Describes, Elements;
      var keys := SortKeys(peers.Keys);
      list := [];
      for n := 0 to |keys|
        invariant |list| == n && forall i :: 0 <= i < n ==>
          list[i].key == keys[i] && keys[i] in peers && Describes(list[i], peers[keys[i]])
      {
        ElementAt(keys, n);
        var info := ShowPeer(keys[n], peers[keys[n]]);
        list := list + [info];
      }
      AscendingSize(keys);
    }
  }

  method ShowPeer(key: Key, p: Peer) returns (info: PeerInfo)
    requires p.conns != map[]
    ensures info.key == key && Describes(info, p)
  {
    var ids := SortKeys(p.conns.Keys);
    assert forall i :: 0 <= i < |ids| ==> ids[i] in Elements(ids);
    var shown := [];
    for i := 0 to |ids|
      invariant |shown| == i && forall j :: 0 <= j < i ==> shown[j] == p.conns[ids[j]]
    {
      shown := shown + [p.conns[ids[i]]];
    }
    assert |ids| > 0 by {
      var id :| id in p.conns;
      assert id in Elements(ids);
    }
    info := PeerInfo(key, shown[|shown| - 1].remoteAddr, shown[0].connectedAt, shown, p.recv, p.sent);
    assert ListsConnections(shown, p.conns, ids);
  }

  ghost predicate ListsConnections(shown: seq<Connection>, conns: map<Id, Connection>, ids: seq<Id>) {
    && Ascending(ids) && Elements(ids) == conns.Keys && |shown| == |ids|
    && forall j :: 0 <= j < |ids| ==> ids[j] in conns && shown[j] == conns[ids[j]]
  }

  ghost predicate Describes(info: PeerInfo, p: Peer) {
    && info.recv == p.recv && info.sent == p.sent
    && |info.connections| > 0
    && info.remoteAddr == info.connections[|info.connections| - 1].remoteAddr
    && info.connectedAt == info.connections[0].connectedAt
    && exists ids :: ListsConnections(info.connections, p.conns, ids)
  }

  lemma ElementAt(s: seq<nat>, i: nat)
    requires i < |s|
    ensures s[i] in Elements(s)
  {
  }

  lemma {:induction false} AscendingSize(s: seq<nat>)
    requires Ascending(s)
    ensures |Elements(s)| == |s|
  {
    if s != [] {
      var front := s[..|s| - 1];
      AscendingSize(front);
      assert s == front + [s[|s| - 1]];
      assert Elements(s) == Elements(front) + {s[|s| - 1]};
    }
  }
}
