/**
 The connection gauges of the server, kept by registerClient, unregisterClient and setPreferred.
 */
module Gauges {
  import opened Basics
  import opened Connections
  import opened Registry

  datatype Gauges = Gauges(curClients: int, notIdeal: int, home: int, localKeys: int, dupKeys: int, dupConns: int,
                           dupTotal: int)

  const Zero := Gauges(0, 0, 0, 0, 0, 0, 0)

  function Bit(b: bool): int {
    if b then 1 else 0
  }

  // ---------- steps ----------

  function OnRegister(g: Gauges, r: Reg, c: Conn): Gauges {
    var cs := TheSet(r, c.key);
    var second, another := cs.dup.None? && cs.active.Some?, cs.dup.Some?;
    g.(localKeys := g.localKeys + Bit(c.key !in r.clients),
       dupKeys := g.dupKeys + Bit(second),
       dupConns := g.dupConns + 2 * Bit(second) + Bit(another),
       dupTotal := g.dupTotal + Bit(second) + Bit(another),
       curClients := g.curClients + 1,
       notIdeal := g.notIdeal + Bit(c.notIdeal))
  }

  /** The early "[unexpected]" returns leave every gauge alone. */
  ghost function OnUnregister(g: Gauges, r: Reg, c: Conn, isHome: bool): Gauges {
    var how := Unregister(r, c).1;
    if how.NoSetForKey? || how.ActiveIsNil? || how.ActiveIsAnother? then g
    else
      var shrank := how.Demoted? || how.StillDuplicate?;
      var demoted := c.key in r.clients && r.clients[c.key].dup.Some?
          && |Removed(r.clients[c.key].dup.value, c).0.members| == 1;
      g.(localKeys := g.localKeys - Bit(how.KeyLeft?),
         dupConns := g.dupConns - Bit(shrank) - Bit(demoted),
         dupKeys := g.dupKeys - Bit(demoted),
         curClients := g.curClients - 1,
         home := g.home - Bit(isHome),
         notIdeal := g.notIdeal - Bit(c.notIdeal))
  }

  // ---------- what the gauges count ----------

  ghost function DupKeys(r: Reg): set<Key> {
    set k | k in r.clients && r.clients[k].dup.Some?
  }

  ghost function DupConns(r: Reg, live: set<Conn>): set<Conn> {
    set c | c in live && c.key in r.clients && r.clients[c.key].dup.Some?
  }

  ghost function NotIdeal(live: set<Conn>): set<Conn> {
    set c | c in live && c.notIdeal
  }

  ghost predicate Count(g: Gauges, r: Reg, live: set<Conn>, preferred: set<Conn>) {
    && g.curClients == |live|
    && g.notIdeal == |NotIdeal(live)|
    && g.home == |live * preferred|
    && g.localKeys == |r.clients|
    && g.dupKeys == |DupKeys(r)|
    && g.dupConns == |DupConns(r, live)|
    && g.curClients - g.localKeys == g.dupConns - g.dupKeys
  }

  /** The connections of a key, as its stored set tells them. */
  lemma Members(r: Reg, live: set<Conn>, p: Policy, k: Key)
    requires Inv(r, live, p)
    ensures k !in r.clients ==> forall x :: x in live ==> x.key != k
    ensures k in r.clients && r.clients[k].dup.None? ==>
              r.clients[k].active.Some? && forall x :: x in live && x.key == k <==> x == r.clients[k].active.value
  {
    if k in r.clients {
      assert SetOk(r.clients[k], ConnsOf(live, k), r.disabled);
      assert forall x :: x in live && x.key == k <==> x in ConnsOf(live, k);
    }
  }

  ghost predicate SameBut(r: Reg, r': Reg, k: Key) {
    forall j :: j != k ==> (j in r'.clients <==> j in r.clients) && (j in r.clients ==> r'.clients[j] == r.clients[j])
  }

  lemma PlusOne<T>(a: set<T>, b: set<T>, x: T)
    requires x !in a && b == a + {x}
    ensures |b| == |a| + 1
  {
  }

  /** Any change at one key moves the duplicate sets by what happens at that key. */
  lemma DupKeysAt(r: Reg, r': Reg, k: Key)
    requires SameBut(r, r', k) && k in r'.clients
    ensures DupKeys(r') - {k} == DupKeys(r) - {k}
    ensures k in DupKeys(r') <==> r'.clients[k].dup.Some?
    ensures k in DupKeys(r) <==> k in r.clients && r.clients[k].dup.Some?
  {
  }

  lemma SecondJoins(r: Reg, r': Reg, live: set<Conn>, c: Conn, was: Conn)
    requires SameBut(r, r', c.key) && c !in live && c.key in r.clients && c.key in r'.clients
    requires r.clients[c.key].dup.None? && r'.clients[c.key].dup.Some?
    requires forall x :: x in live && x.key == c.key <==> x == was
    ensures |DupKeys(r')| == |DupKeys(r)| + 1 && |DupConns(r', live + {c})| == |DupConns(r, live)| + 2
  {
    assert was in live && was.key == c.key;
    DupKeysAt(r, r', c.key);
    assert DupKeys(r') == DupKeys(r) + {c.key};
    PlusOne(DupKeys(r), DupKeys(r'), c.key);
    var mid := DupConns(r, live) + {was};
    PlusOne(DupConns(r, live), mid, was);
    assert DupConns(r', live + {c}) == mid + {c};
    PlusOne(mid, DupConns(r', live + {c}), c);
  }

  lemma AnotherJoins(r: Reg, r': Reg, live: set<Conn>, c: Conn)
    requires SameBut(r, r', c.key) && c !in live && c.key in r.clients && c.key in r'.clients
    requires r.clients[c.key].dup.Some? && r'.clients[c.key].dup.Some?
    ensures |DupKeys(r')| == |DupKeys(r)| && |DupConns(r', live + {c})| == |DupConns(r, live)| + 1
  {
    assert DupKeys(r') == DupKeys(r);
    assert DupConns(r', live + {c}) == DupConns(r, live) + {c};
    PlusOne(DupConns(r, live), DupConns(r', live + {c}), c);
  }

  lemma FirstJoins(r: Reg, r': Reg, live: set<Conn>, c: Conn)
    requires SameBut(r, r', c.key) && c.key !in r.clients && c.key in r'.clients && r'.clients[c.key].dup.None?
    requires forall x :: x in live ==> x.key != c.key
    ensures DupKeys(r') == DupKeys(r) && DupConns(r', live + {c}) == DupConns(r, live)
  {
  }

  lemma RegisterDups(r: Reg, live: set<Conn>, p: Policy, c: Conn)
    requires Inv(r, live, p) && c !in live
    ensures var cs, r', live' := TheSet(r, c.key), Register(r, c), live + {c};
            var second, another := cs.dup.None? && cs.active.Some?, cs.dup.Some?;
            && |DupKeys(r')| == |DupKeys(r)| + Bit(second)
            && |DupConns(r', live')| == |DupConns(r, live)| + 2 * Bit(second) + Bit(another)
  {
    hide Inv, DupKeys, DupConns;
    Members(r, live, p, c.key);
    var cs, r' := TheSet(r, c.key), Register(r, c);
    if cs.dup.Some? {
      AnotherJoins(r, r', live, c);
    } else if cs.active.Some? {
      SecondJoins(r, r', live, c, cs.active.value);
    } else {
      FirstJoins(r, r', live, c);
    }
  }

  /** The three counts that a registration moves by at most one each. */
  lemma RegisterSimpleCounts(r: Reg, live: set<Conn>, preferred: set<Conn>, c: Conn)
    requires c !in live && c !in preferred
    ensures |live + {c}| == |live| + 1 && (live + {c}) * preferred == live * preferred
    ensures |NotIdeal(live + {c})| == |NotIdeal(live)| + Bit(c.notIdeal)
    ensures |Register(r, c).clients| == |r.clients| + Bit(c.key !in r.clients)
  {
    var r' := Register(r, c);
    assert NotIdeal(live + {c}) == if c.notIdeal then NotIdeal(live) + {c} else NotIdeal(live);
    assert r'.clients.Keys == r.clients.Keys + {c.key};
    assert |r'.clients| == |r'.clients.Keys| && |r.clients| == |r.clients.Keys|;
  }

  lemma RegisterCounts(g: Gauges, r: Reg, live: set<Conn>, preferred: set<Conn>, p: Policy, c: Conn)
    requires Inv(r, live, p) && c !in live && c !in preferred && Count(g, r, live, preferred)
    ensures Count(OnRegister(g, r, c), Register(r, c), live + {c}, preferred)
  {
    hide Inv, DupKeys, DupConns, Register, NotIdeal;
    RegisterDups(r, live, p, c);
    RegisterSets(r, live, p, c);
    RegisterSimpleCounts(r, live, preferred, c);
  }

  lemma RegisterSets(r: Reg, live: set<Conn>, p: Policy, c: Conn)
    requires Inv(r, live, p)
    ensures TheSet(r, c.key).dup.None? && TheSet(r, c.key).active.None? <==> c.key !in r.clients
  {
    Members(r, live, p, c.key);
  }

  lemma MinusOne<T>(a: set<T>, x: T)
    ensures |a - {x}| == |a| - if x in a then 1 else 0
  {
    if x !in a { assert a - {x} == a; }
  }

  lemma NotIdealLeaves(live: set<Conn>, c: Conn)
    requires c in live
    ensures |NotIdeal(live - {c})| == |NotIdeal(live)| - Bit(c.notIdeal)
  {
    assert NotIdeal(live - {c}) == NotIdeal(live) - {c};
    assert c in NotIdeal(live) <==> c.notIdeal;
    hide NotIdeal;
    MinusOne(NotIdeal(live), c);
  }

  lemma HomeLeaves(live: set<Conn>, preferred: set<Conn>, c: Conn)
    requires c in live
    ensures |(live - {c}) * (preferred - {c})| == |live * preferred| - Bit(c in preferred)
  {
    assert (live - {c}) * (preferred - {c}) == live * preferred - {c};
    MinusOne(live * preferred, c);
  }

  lemma KeysLeave(r: Reg, c: Conn)
    ensures |Unregister(r, c).0.clients| == |r.clients| - Bit(Unregister(r, c).1.KeyLeft?)
  {
    hide Unregister;
    UnregisterKeys(r, c);
    var r' := Unregister(r, c).0;
    assert |r'.clients| == |r'.clients.Keys| && |r.clients| == |r.clients.Keys|;
    MinusOne(r.clients.Keys, c.key);
  }

  lemma UnregisterCounts(g: Gauges, r: Reg, live: set<Conn>, preferred: set<Conn>, p: Policy, c: Conn)
    requires Inv(r, live, p) && c in live && Count(g, r, live, preferred)
    ensures Count(OnUnregister(g, r, c, c in preferred), Unregister(r, c).0, live - {c}, preferred - {c})
  {
    hide Inv, DupKeys, DupConns, Removed, Unregister, NotIdeal;
    UnregisterKeeps(r, live, p, c);
    UnregisterDupCounts(r, live, p, c);
    MinusOne(live, c);
    NotIdealLeaves(live, c);
    HomeLeaves(live, preferred, c);
    KeysLeave(r, c);
  }

  lemma UnregisterKeys(r: Reg, c: Conn)
    ensures var (r', how) := Unregister(r, c);
            && r'.clients.Keys == (if how.KeyLeft? then r.clients.Keys - {c.key} else r.clients.Keys)
            && (how.KeyLeft? ==> c.key in r.clients)
  {
  }

  lemma UnregisterDupCounts(r: Reg, live: set<Conn>, p: Policy, c: Conn)
    requires Inv(r, live, p) && c in live
    ensures var (r', how) := Unregister(r, c);
            && |DupKeys(r')| == |DupKeys(r)| - Bit(how.Demoted?)
            && |DupConns(r', live - {c})| ==
                |DupConns(r, live)| - (if how.Demoted? then 2 else Bit(how.StillDuplicate?))
            && (how.Demoted? <==>
                c.key in r.clients && r.clients[c.key].dup.Some?
                    && |Removed(r.clients[c.key].dup.value, c).0.members| == 1)
  {
    var (r', how) := Unregister(r, c);
    UnregisterKeeps(r, live, p, c);
    Members(r, live, p, c.key);
    Members(r', live - {c}, p, c.key);
    hide Inv, Removed, DupKeys, DupConns;
    match how
    case KeyLeft => LastLeaves(r, r', live, c);
    case Demoted => SecondLeaves(r, r', live, c, r'.clients[c.key].active.value);
    case StillDuplicate => AnotherLeaves(r, r', live, c);
    case _ =>
  }

  lemma LastLeaves(r: Reg, r': Reg, live: set<Conn>, c: Conn)
    requires SameBut(r, r', c.key) && c.key in r.clients && c.key !in r'.clients && r.clients[c.key].dup.None?
    requires forall x :: x in live && x.key == c.key ==> x == c
    ensures DupKeys(r') == DupKeys(r) && DupConns(r', live - {c}) == DupConns(r, live)
  {
  }

  lemma SecondLeaves(r: Reg, r': Reg, live: set<Conn>, c: Conn, remain: Conn)
    requires SameBut(r, r', c.key) && c in live && c.key in r.clients && c.key in r'.clients
    requires r.clients[c.key].dup.Some? && r'.clients[c.key].dup.None?
    requires forall x :: x in live - {c} && x.key == c.key <==> x == remain
    ensures |DupKeys(r')| == |DupKeys(r)| - 1 && |DupConns(r', live - {c})| == |DupConns(r, live)| - 2
  {
    assert live - {c} + {c} == live;
    assert SameBut(r', r, c.key);
    SecondJoins(r', r, live - {c}, c, remain);
  }

  lemma AnotherLeaves(r: Reg, r': Reg, live: set<Conn>, c: Conn)
    requires SameBut(r, r', c.key) && c in live && c.key in r.clients && c.key in r'.clients
    requires r.clients[c.key].dup.Some? && r'.clients[c.key].dup.Some?
    ensures |DupKeys(r')| == |DupKeys(r)| && |DupConns(r', live - {c})| == |DupConns(r, live)| - 1
  {
    assert live - {c} + {c} == live;
    assert SameBut(r', r, c.key);
    AnotherJoins(r', r, live - {c}, c);
  }

  /** Steps that keep keys, members and duplication keep the counts. */
  lemma SameCounts(g: Gauges, r: Reg, r': Reg, live: set<Conn>, preferred: set<Conn>)
    requires Count(g, r, live, preferred) && r'.clients.Keys == r.clients.Keys
    requires forall k :: k in r.clients ==> r'.clients[k].dup.Some? == r.clients[k].dup.Some?
    ensures Count(g, r', live, preferred)
  {
    assert DupKeys(r') == DupKeys(r) && DupConns(r', live) == DupConns(r, live);
    assert |r'.clients| == |r'.clients.Keys| && |r.clients| == |r.clients.Keys|;
  }

  /** ConsistencyCheck's third test compares connections with keys: it passes exactly if no key is
      connected twice. */
  lemma ThirdTestIff(g: Gauges, r: Reg, live: set<Conn>, preferred: set<Conn>, p: Policy)
    requires Inv(r, live, p) && Count(g, r, live, preferred)
    ensures g.curClients == g.localKeys <==> forall c, d :: c in live && d in live && c.key == d.key ==> c == d
  {
    if forall c, d :: c in live && d in live && c.key == d.key ==> c == d {
      forall k | k in r.clients
        ensures r.clients[k].dup.None?
      {
        StoredSets(r, live, p, k);
        var conns := ConnsOf(live, k);
        var c :| c in conns;
        assert conns == {c};
      }
      assert DupKeys(r) == {} && DupConns(r, live) == {};
    } else {
      var c, d :| c in live && d in live && c.key == d.key && c != d;
      TwoMakeDup(r, live, p, c, d);
      MoreConnsThanKeys(r, live, p);
    }
  }

  lemma TwoMakeDup(r: Reg, live: set<Conn>, p: Policy, c: Conn, d: Conn)
    requires Inv(r, live, p) && c in live && d in live && c.key == d.key && c != d
    ensures c.key in DupKeys(r)
  {
    StoredSets(r, live, p, c.key);
    SubsetSize({c, d}, ConnsOf(live, c.key));
  }

  /** Each duplicated key contributes at least two connections. */
  lemma {:induction false} MoreConnsThanKeys(r: Reg, live: set<Conn>, p: Policy)
    requires Inv(r, live, p) && DupKeys(r) != {}
    ensures |DupConns(r, live)| > |DupKeys(r)|
  {
    var keys, conns := DupKeys(r), DupConns(r, live);
    forall k | k in keys
      ensures HasTwo(conns, k)
    {
      StoredSets(r, live, p, k);
      var all := ConnsOf(live, k);
      assert all != {};
      var a :| a in all;
      assert |all - {a}| >= 1 && all - {a} != {};
      var b :| b in all - {a};
      assert a in conns && b in conns;
    }
    TwiceAsMany(keys, conns);
  }

  ghost function OfKey(conns: set<Conn>, k: Key): set<Conn> {
    set c | c in conns && c.key == k
  }

  lemma TwoOfKey(conns: set<Conn>, k: Key)
    requires HasTwo(conns, k)
    ensures |OfKey(conns, k)| >= 2
  {
    var a, b :| a in conns && b in conns && a != b && a.key == k && b.key == k;
    SubsetSize({a, b}, OfKey(conns, k));
  }

  lemma OtherKeysKeepTwo(conns: set<Conn>, k: Key, j: Key)
    requires HasTwo(conns, j) && j != k
    ensures HasTwo(conns - OfKey(conns, k), j)
  {
    var x, y :| x in conns && y in conns && x != y && x.key == j && y.key == j;
    assert x in conns - OfKey(conns, k) && y in conns - OfKey(conns, k);
  }

  lemma {:induction false} TwiceAsMany(keys: set<Key>, conns: set<Conn>)
    requires forall k :: k in keys ==> HasTwo(conns, k)
    ensures |conns| >= 2 * |keys|
    decreases keys
  {
    if keys != {} {
      var k :| k in keys;
      var mine := OfKey(conns, k);
      TwoOfKey(conns, k);
      forall j | j in keys - {k}
        ensures HasTwo(conns - mine, j)
      {
        OtherKeysKeepTwo(conns, k, j);
      }
      assert mine <= conns;
      hide HasTwo, OfKey;
      TwiceAsMany(keys - {k}, conns - mine);
      assert conns == mine + (conns - mine);
    }
  }

  ghost predicate HasTwo(conns: set<Conn>, k: Key) {
    exists a, b :: a in conns && b in conns && a != b && a.key == k && b.key == k
  }
}
