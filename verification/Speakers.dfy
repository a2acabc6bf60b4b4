/**
 Who speaks for a key that is connected more than once. The send history of a stored duplicate set is the log
 of its speakers, read off the server's events; and when the active connection leaves, the one heard of last
 among those that stay takes over.
 */
module Speakers {
  import opened Basics
  import opened Connections
  import opened ServerState
  import R = Registry
  import T = Tracker
  import G = Gauges
  import V = MeshView
  import P = PeerGone

  /** The log of key `k`: it starts with the connection that is alone, and gains each third or later one that joins
      and each one whose activity is noted while the key is connected more than once. */
  ghost function Heard(p: R.Policy, self: Key, events: seq<Event>, k: Key): seq<Conn> {
    if events == [] then []
    else
      var front := events[..|events| - 1];
      HeardAfter(Heard(p, self, front, k), Run(p, self, front), events[|events| - 1], k)
  }

  ghost function HeardAfter(log: seq<Conn>, s: State, e: Event, k: Key): seq<Conn> {
    var conns := R.ConnsOf(s.live, k);
    if !Enabled(s, e) then log
    else
      match e
      case Register(c, _) =>
        if c.key != k then log else if conns == {} then [c] else if |conns| == 1 then log else log + [c]
      case Unregister(c) => if c.key == k && |conns| == 2 && c in conns then [R.TheOnly(conns - {c})] else log
      case Activity(c) => if c.key == k && |conns| >= 2 then log + [c] else log
      case _ => log
  }

  /** What the log says of the set of the connections `conns`. */
  ghost predicate SetHeard(cs: ClientSet, conns: set<Conn>, log: seq<Conn>) {
    && (|conns| == 1 ==> cs.active.Some? && log == [cs.active.value])
    && (|conns| >= 2 ==> cs.dup.Some? && cs.dup.value.history == Collapsed(Kept(log, conns)))
  }

  ghost predicate HeardOk(s: State, k: Key, log: seq<Conn>) {
    Elements(log) <= s.ever && SetHeard(R.TheSet(s.reg, k), R.ConnsOf(s.live, k), log)
  }

  // ---------- each operation on the stored set ----------

  lemma RegisterSet(r: R.Reg, c: Conn, k: Key)
    ensures R.TheSet(R.Register(r, c), k) ==
      if k == c.key then ClientSet(Some(c), R.JoinDup(R.TheSet(r, k), c)) else R.TheSet(r, k)
  {
  }

  lemma UnregisterElsewhere(r: R.Reg, c: Conn, k: Key)
    requires k != c.key
    ensures R.TheSet(R.Unregister(r, c).0, k) == R.TheSet(r, k)
  {
  }

  /** What is left of a duplicate set: the connection that remains, or the set without the one that left. */
  lemma UnregisterSet(r: R.Reg, live: set<Conn>, p: R.Policy, c: Conn)
    requires R.Inv(r, live, p) && c in live
    ensures var cs, cs' := R.TheSet(r, c.key), R.TheSet(R.Unregister(r, c).0, c.key);
            var conns := R.ConnsOf(live, c.key);
            && c in conns && |conns - {c}| == |conns| - 1
            && (|conns| == 2 ==> cs'.active == Some(R.TheOnly(conns - {c})))
            && (|conns| >= 3 ==> cs.dup.Some? && cs.dup.value.members == conns && cs.dup.value.last.Some?)
            && (|conns| >= 3 ==> cs'.dup == Some(Removed(cs.dup.value, c).0))
  {
    var conns := R.ConnsOf(live, c.key);
    R.StoredSets(r, live, p, c.key);
    assert R.SetOk(r.clients[c.key], conns, r.disabled);
    assert c in conns;
    if r.clients[c.key].dup.Some? {
      assert Removed(r.clients[c.key].dup.value, c).0.members == conns - {c};
    }
    hide R.Inv, Trim;
  }

  /** Noting an activity on a duplicate set: the speaker ends the history, and what comes before it is the history
      there was. */
  lemma SpeakSet(r: R.Reg, p: R.Policy, c: Conn, k: Key)
    ensures var cs, cs' := R.TheSet(r, k), R.TheSet(R.Speak(r, p, c), k);
            && (k != c.key || cs.dup.None? ==> cs' == cs)
            && (k == c.key && cs.dup.Some? ==> cs'.dup.Some?)
            && (k == c.key && cs.dup.Some? ==>
                  var h := cs.dup.value.history;
                  cs'.dup.value.history == if h != [] && h[|h| - 1] == c then h else h + [c])
  {
  }

  // ---------- the log follows ----------

  lemma OneKept(x: Conn, keep: set<Conn>)
    requires x in keep
    ensures Collapsed(Kept([x], keep)) == [x]
  {
    assert [x][1..] == [];
    assert Kept([x][1..], keep) == [];
  }

  lemma {:induction false} KeptSame(log: seq<Conn>, keep: set<Conn>, c: Conn)
    requires c !in log
    ensures Kept(log, keep + {c}) == Kept(log, keep)
  {
    if log != [] { KeptSame(log[1..], keep, c); }
  }

  lemma {:induction false} KeptIn(log: seq<Conn>, keep: set<Conn>, x: Conn)
    requires x in Kept(log, keep)
    ensures x in log && x in keep
  {
    if log[0] !in keep || x != log[0] {
      assert x in Kept(log[1..], keep);
      KeptIn(log[1..], keep, x);
    }
  }

  lemma CollapsedEmpty(h: seq<Conn>)
    ensures Collapsed(h) == [] <==> h == []
  {
    if h != [] { CollapsedSnoc(h, h[0]); }
  }

  /** A newcomer that joins two or more ends the history. */
  lemma JoinHeard(log: seq<Conn>, conns: set<Conn>, c: Conn)
    requires c !in log
    ensures Collapsed(Kept(log + [c], conns + {c})) == Collapsed(Kept(log, conns)) + [c]
  {
    KeptSnoc(log, c, conns + {c});
    KeptSame(log, conns, c);
    var kept := Kept(log, conns);
    CollapsedSnoc(kept, c);
    if kept != [] { KeptIn(log, conns, kept[|kept| - 1]); }
  }

  /** The log of a set that a new connection joins, by the number of connections before. */
  lemma JoinSetHeard(cs: ClientSet, conns: set<Conn>, log: seq<Conn>, c: Conn)
    requires SetHeard(cs, conns, log) && c !in conns && c !in log
    requires |conns| == 0 ==> cs == ClientSet(None, None)
    requires |conns| == 1 ==> cs.dup.None? && cs.active.Some? && cs.active.value in conns
    ensures SetHeard(ClientSet(Some(c), R.JoinDup(cs, c)), conns + {c},
                     if |conns| == 0 then [c] else if |conns| == 1 then log else log + [c])
  {
    hide Collapsed, Kept;
    assert |conns + {c}| == |conns| + 1;
    if |conns| == 1 {
      OneKept(log[0], conns + {c});
    } else if |conns| >= 2 {
      JoinHeard(log, conns, c);
    }
  }

  lemma LeaveSetHeard(cs: ClientSet, conns: set<Conn>, log: seq<Conn>, c: Conn, cs': ClientSet)
    requires SetHeard(cs, conns, log) && c in conns && |conns - {c}| == |conns| - 1
    requires |conns| == 2 ==> cs'.active == Some(R.TheOnly(conns - {c}))
    requires |conns| >= 3 ==> cs.dup.Some? && cs.dup.value.members == conns
    requires |conns| >= 3 ==> cs'.dup == Some(Removed(cs.dup.value, c).0)
    ensures SetHeard(cs', conns - {c}, if |conns| == 2 then [R.TheOnly(conns - {c})] else log)
  {
    if |conns| >= 3 {
      assert cs'.dup.value.history == Trim(cs.dup.value.history, conns - {c});
      hide Collapsed, Kept, Trim;
      TrimIsCollapsed(log, conns);
      TrimIsCollapsed(log, conns - {c});
      TrimTwice(log, conns, conns - {c});
    }
  }

  lemma SpeakSetHeard(cs: ClientSet, conns: set<Conn>, log: seq<Conn>, c: Conn, cs': ClientSet)
    requires SetHeard(cs, conns, log) && c in conns && |conns| >= 2 && cs.dup.Some? && cs'.dup.Some?
    requires var h := cs.dup.value.history;
             cs'.dup.value.history == if h != [] && h[|h| - 1] == c then h else h + [c]
    ensures SetHeard(cs', conns, log + [c])
  {
    hide Collapsed, Kept;
    KeptSnoc(log, c, conns);
    CollapsedSnoc(Kept(log, conns), c);
    CollapsedEmpty(Kept(log, conns));
  }

  /** The stored set of a key with no or one connection. */
  lemma SmallSet(s: State, p: R.Policy, k: Key)
    requires R.Inv(s.reg, s.live, p)
    ensures var cs, conns := R.TheSet(s.reg, k), R.ConnsOf(s.live, k);
            && (conns == {} <==> |conns| == 0)
            && (|conns| == 0 ==> cs == ClientSet(None, None))
            && (|conns| == 1 ==> cs.dup.None? && cs.active.Some? && cs.active.value in conns)
            && (|conns| >= 2 ==> cs.dup.Some?)
            && (|conns| <= 1 ==> cs.dup.None?)
  {
    R.StoredSets(s.reg, s.live, p, k);
    if k in s.reg.clients { assert R.SetOk(s.reg.clients[k], R.ConnsOf(s.live, k), s.reg.disabled); }
  }

  lemma ConnsMove(live: set<Conn>, c: Conn, k: Key)
    ensures R.ConnsOf(live + {c}, k) == if c.key == k then R.ConnsOf(live, k) + {c} else R.ConnsOf(live, k)
    ensures R.ConnsOf(live - {c}, k) == if c.key == k then R.ConnsOf(live, k) - {c} else R.ConnsOf(live, k)
    ensures c !in live ==> c !in R.ConnsOf(live, k)
    ensures R.ConnsOf(live, k) <= live
  {
  }

  lemma NewcomerUnheard(s: State, c: Conn, log: seq<Conn>)
    requires Elements(log) <= s.ever && s.live <= s.ever && forall d :: d in s.ever ==> d.id != c.id
    ensures c !in log && c !in s.live
  {
    assert c in log ==> c in Elements(log);
  }

  lemma Joins(s: State, p: R.Policy, c: Conn, info: T.Connection, log: seq<Conn>)
    requires Inv(s, p) && Enabled(s, Register(c, info)) && Elements(log) <= s.ever
    ensures var s' := OnRegister(s, c, info);
            s'.reg == R.Register(s.reg, c) && s'.live == s.live + {c} && s'.ever == s.ever + {c}
    ensures c !in log && c !in s.live && R.Inv(s.reg, s.live, p)
  {
    assert s.live <= s.ever;
    NewcomerUnheard(s, c, log);
  }

  lemma RegisterHeard(s: State, p: R.Policy, c: Conn, info: T.Connection, k: Key, log: seq<Conn>)
    requires Inv(s, p) && HeardOk(s, k, log) && Enabled(s, Register(c, info))
    ensures HeardOk(OnRegister(s, c, info), k, HeardAfter(log, s, Register(c, info), k))
  {
    hide Inv, R.Inv, Enabled, SetHeard, R.Register, R.ConnsOf, R.TheSet, R.JoinDup, OnRegister, Elements;
    Joins(s, p, c, info, log);
    ElementsSnoc(log, c);
    ElementsSnoc([], c);
    NoElements();
    assert [] + [c] == [c];
    ConnsMove(s.live, c, k);
    RegisterSet(s.reg, c, k);
    SmallSet(s, p, k);
    if c.key == k { JoinSetHeard(R.TheSet(s.reg, k), R.ConnsOf(s.live, k), log, c); }
  }

  lemma NoElements()
    ensures Elements<Conn>([]) == {}
  {
  }

  lemma Leaves(s: State, p: R.Policy, c: Conn)
    requires Inv(s, p) && Enabled(s, Unregister(c))
    ensures var s' := OnUnregister(s, c);
            s'.reg == R.Unregister(s.reg, c).0 && s'.live == s.live - {c} && s'.ever == s.ever
    ensures c in s.live && s.live <= s.ever && R.Inv(s.reg, s.live, p)
  {
    R.UnregisterKeeps(s.reg, s.live, p, c);
    hide R.Inv, R.Unregister, G.OnUnregister, V.Broadcast, V.RemoveWatcher, P.NotePeerGone, T.Closing;
  }

  lemma UnregisterHeard(s: State, p: R.Policy, c: Conn, k: Key, log: seq<Conn>)
    requires Inv(s, p) && HeardOk(s, k, log) && Enabled(s, Unregister(c))
    ensures HeardOk(OnUnregister(s, c), k, HeardAfter(log, s, Unregister(c), k))
  {
    hide Inv, R.Inv, Enabled, SetHeard, R.Unregister, R.ConnsOf, R.TheSet, Removed, OnUnregister, Elements;
    Leaves(s, p, c);
    ConnsMove(s.live, c, k);
    if c.key == k {
      var conns := R.ConnsOf(s.live, k);
      UnregisterSet(s.reg, s.live, p, c);
      LeaveSetHeard(R.TheSet(s.reg, k), conns, log, c, R.TheSet(R.Unregister(s.reg, c).0, k));
      if |conns| == 2 { OneElement(R.TheOnly(conns - {c}), conns - {c}, s.ever); }
    } else {
      UnregisterElsewhere(s.reg, c, k);
    }
  }

  lemma OneElement(x: Conn, xs: set<Conn>, all: set<Conn>)
    requires xs == {x} && xs <= all
    ensures Elements([x]) <= all
  {
  }

  lemma SpeakHeard(s: State, p: R.Policy, c: Conn, k: Key, log: seq<Conn>)
    requires Inv(s, p) && HeardOk(s, k, log) && Enabled(s, Activity(c))
    ensures HeardOk(s.(reg := R.Speak(s.reg, p, c)), k, HeardAfter(log, s, Activity(c), k))
  {
    hide Inv, R.Inv, Enabled, SetHeard, R.Speak, R.ConnsOf, R.TheSet, Elements;
    InvParts(s, p);
    Speaker(s, p, c, k);
    ElementsSnoc(log, c);
    SmallSet(s, p, k);
    SpeakSet(s.reg, p, c, k);
    if c.key == k && |R.ConnsOf(s.live, k)| >= 2 {
      SpeakSetHeard(R.TheSet(s.reg, k), R.ConnsOf(s.live, k), log, c, R.TheSet(R.Speak(s.reg, p, c), k));
    }
  }

  lemma Speaker(s: State, p: R.Policy, c: Conn, k: Key)
    requires Inv(s, p) && Enabled(s, Activity(c))
    ensures c in s.ever && (c.key == k ==> c in R.ConnsOf(s.live, k))
  {
  }

  lemma HeardStep(s: State, p: R.Policy, self: Key, e: Event, k: Key, log: seq<Conn>)
    requires Inv(s, p) && HeardOk(s, k, log)
    ensures HeardOk(Step(s, p, self, e), k, HeardAfter(log, s, e, k))
  {
    if Enabled(s, e) && (e.Register? || e.Unregister? || e.Activity?) {
      hide Inv, HeardOk, Enabled, R.Speak, OnRegister, OnUnregister;
      match e
      case Register(c, info) => RegisterHeard(s, p, c, info, k, log);
      case Unregister(c) => UnregisterHeard(s, p, c, k, log);
      case Activity(c) => SpeakHeard(s, p, c, k, log);
    } else {
      hide Inv, SetHeard, Enabled, R.Speak, OnRegister, OnUnregister, R.ConnsOf, R.TheSet;
    }
  }

  lemma {:induction false} RunHeard(p: R.Policy, self: Key, events: seq<Event>, k: Key)
    ensures HeardOk(Run(p, self, events), k, Heard(p, self, events, k))
  {
    if events != [] {
      hide Inv, HeardOk, HeardAfter, Step;
      var front := events[..|events| - 1];
      RunHeard(p, self, front, k);
      RunInvariant(p, self, front);
      HeardStep(Run(p, self, front), p, self, events[|events| - 1], k, Heard(p, self, front, k));
    } else {
      assert R.ConnsOf({}, k) == {};
    }
  }

  // ---------- theorems over every run ----------

  /** The send history of a stored duplicate set is the log of the key without those who left and without
      repetitions. */
  lemma HistoryIsHeard(p: R.Policy, self: Key, events: seq<Event>, k: Key)
    ensures var s := Run(p, self, events);
            k in s.reg.clients && s.reg.clients[k].dup.Some? ==>
              s.reg.clients[k].dup.value.history == Collapsed(Kept(Heard(p, self, events, k), R.ConnsOf(s.live, k)))
  {
    RunHeard(p, self, events, k);
    RunInvariant(p, self, events);
    InvParts(Run(p, self, events), p);
    hide Inv, Run, R.ConnsOf;
    SmallSet(Run(p, self, events), p, k);
  }

  /** When the active connection of three or more leaves under lastWriterIsActive, the active one is, of those that
      stay, the one heard of last. */
  lemma LatestTakesOver(self: Key, events: seq<Event>, c: Conn, i: nat)
    requires var s := Run(R.LastWriterIsActive, self, events);
             && Enabled(s, Unregister(c)) && |R.ConnsOf(s.live, c.key)| >= 3
             && c.key in s.reg.clients && s.reg.clients[c.key].active == Some(c)
    requires var s, log := Run(R.LastWriterIsActive, self, events), Heard(R.LastWriterIsActive, self, events, c.key);
             LatestIn(log, R.ConnsOf(s.live, c.key) - {c}, i)
    ensures var s := Run(R.LastWriterIsActive, self, events);
            var s' := Step(s, R.LastWriterIsActive, self, Unregister(c));
            c.key in s'.reg.clients
            && s'.reg.clients[c.key].active == Some(Heard(R.LastWriterIsActive, self, events, c.key)[i])
  {
    var p := R.LastWriterIsActive;
    var s, log := Run(p, self, events), Heard(p, self, events, c.key);
    RunInvariant(p, self, events);
    RunHeard(p, self, events, c.key);
    hide Run, Heard;
    TakesOver(s, p, self, c, log, i);
  }

  lemma TakesOver(s: State, p: R.Policy, self: Key, c: Conn, log: seq<Conn>, i: nat)
    requires Inv(s, p) && p.LastWriterIsActive? && Enabled(s, Unregister(c)) && HeardOk(s, c.key, log)
    requires |R.ConnsOf(s.live, c.key)| >= 3 && c.key in s.reg.clients && s.reg.clients[c.key].active == Some(c)
    requires LatestIn(log, R.ConnsOf(s.live, c.key) - {c}, i)
    ensures var s' := Step(s, p, self, Unregister(c));
            c.key in s'.reg.clients && s'.reg.clients[c.key].active == Some(log[i])
  {
    var conns, r' := R.ConnsOf(s.live, c.key), R.Unregister(s.reg, c).0;
    InvParts(s, p);
    assert c in s.live;
    hide Inv, R.Inv, R.Unregister, Enabled, R.ConnsOf, Removed, LatestIn;
    R.UnregisterKeeps(s.reg, s.live, p, c);
    UnregisterSet(s.reg, s.live, p, c);
    R.LastWriterHasActive(s.reg, s.live, p, c.key);
    R.LastWriterHasActive(r', s.live - {c}, p, c.key);
    RemovedTakesOver(R.TheSet(s.reg, c.key), conns, c, log, i);
    UnregisterReg(s, p, self, c);
  }

  lemma RemovedTakesOver(cs: ClientSet, conns: set<Conn>, c: Conn, log: seq<Conn>, i: nat)
    requires SetHeard(cs, conns, log) && |conns| >= 3 && c in conns && LatestIn(log, conns - {c}, i)
    requires cs.dup.Some? && cs.dup.value.members == conns && cs.dup.value.last == Some(c)
    ensures Removed(cs.dup.value, c).0.last == Some(log[i])
  {
    TrimIsCollapsed(log, conns);
    TrimTwice(log, conns, conns - {c});
    TrimEndsWithLatest(log, conns - {c}, i);
    hide Collapsed, Kept, Trim;
  }

  /** Unregistering a live connection always takes effect on the registry. */
  lemma UnregisterReg(s: State, p: R.Policy, self: Key, c: Conn)
    requires R.Inv(s.reg, s.live, p) && Enabled(s, Unregister(c))
    ensures Step(s, p, self, Unregister(c)).reg == R.Unregister(s.reg, c).0
  {
    R.UnregisterKeeps(s.reg, s.live, p, c);
    hide R.Inv, R.Unregister, G.OnUnregister, V.Broadcast, V.RemoveWatcher, P.NotePeerGone, T.Closing;
  }

  /** While nobody is disabled for good, only the active connection's leaving, another joining or an activity moves
      the active connection: somebody else's leaving does not. */
  lemma OthersLeavingKeepsActive(self: Key, events: seq<Event>, c: Conn)
    requires var s := Run(R.LastWriterIsActive, self, events);
             && Enabled(s, Unregister(c)) && c.key in s.reg.clients && s.reg.clients[c.key].active != Some(c)
    ensures var s := Run(R.LastWriterIsActive, self, events);
            var s' := Step(s, R.LastWriterIsActive, self, Unregister(c));
            c.key in s'.reg.clients && s'.reg.clients[c.key].active == s.reg.clients[c.key].active
  {
    var p := R.LastWriterIsActive;
    var s := Run(p, self, events);
    RunInvariant(p, self, events);
    hide Run;
    ActiveStays(s, p, self, c);
  }

  lemma ActiveStays(s: State, p: R.Policy, self: Key, c: Conn)
    requires Inv(s, p) && p.LastWriterIsActive? && Enabled(s, Unregister(c))
    requires c.key in s.reg.clients && s.reg.clients[c.key].active != Some(c)
    ensures var s' := Step(s, p, self, Unregister(c));
            c.key in s'.reg.clients && s'.reg.clients[c.key].active == s.reg.clients[c.key].active
  {
    hide Inv, R.Inv, R.Unregister, Enabled, Step, R.ConnsOf, Removed;
    var conns, r' := R.ConnsOf(s.live, c.key), R.Unregister(s.reg, c).0;
    InvParts(s, p);
    Leaver(s, c);
    UnregisterReg(s, p, self, c);
    R.UnregisterKeeps(s.reg, s.live, p, c);
    UnregisterSet(s.reg, s.live, p, c);
    R.LastWriterHasActive(s.reg, s.live, p, c.key);
    SmallSet(s, p, c.key);
    if |conns| == 1 {
      SingletonElements(conns, c);
    } else if |conns| == 2 {
      TheOther(conns, c, s.reg.clients[c.key].active.value);
    } else {
      R.LastWriterHasActive(r', s.live - {c}, p, c.key);
      LastStays(R.TheSet(s.reg, c.key).dup.value, c);
    }
  }

  lemma Leaver(s: State, c: Conn)
    requires Enabled(s, Unregister(c))
    ensures c in s.live
  {
  }

  lemma TheOther(conns: set<Conn>, c: Conn, x: Conn)
    requires |conns| == 2 && c in conns && x in conns && x != c
    ensures |conns - {c}| == 1 && R.TheOnly(conns - {c}) == x
  {
    assert conns - {c} == {R.TheOnly(conns - {c})} && x in conns - {c};
  }

  lemma LastStays(d: Dup, c: Conn)
    requires d.last != Some(c) && d.last.Some?
    ensures Removed(d, c).0.last == d.last
  {
    hide Trim;
  }

  /** Under either policy the active connection of a duplicate set is its `last` one unless that is disabled, and then
      there is none; in particular a disabled connection is never active. */
  lemma ActiveIsEnabledLast(p: R.Policy, self: Key, events: seq<Event>, k: Key)
    ensures var s := Run(p, self, events);
            k in s.reg.clients && s.reg.clients[k].dup.Some? ==>
              var cs := s.reg.clients[k];
              && cs.dup.value.last.Some? && cs.dup.value.last.value in R.ConnsOf(s.live, k)
              && (cs.active.Some? <==> cs.dup.value.last.value !in s.reg.disabled)
              && (cs.active.Some? ==> cs.active == cs.dup.value.last)
  {
    var s := Run(p, self, events);
    RunInvariant(p, self, events);
    InvParts(s, p);
    hide Inv;
    if k in s.reg.clients { assert R.SetOk(s.reg.clients[k], R.ConnsOf(s.live, k), s.reg.disabled); }
  }

  /** Under disableFighters an activity disables exactly the set of a connection that had spoken, and since whose
      last word another one spoke. */
  lemma FightDisables(r: R.Reg, live: set<Conn>, c: Conn)
    requires R.Inv(r, live, R.DisableFighters) && c in live && c.key in r.clients && r.clients[c.key].dup.Some?
    ensures var h := r.clients[c.key].dup.value.history;
            var fights := exists i, j :: 0 <= i < j < |h| && h[i] == c && h[j] != c;
            R.Speak(r, R.DisableFighters, c).disabled
              == (if fights && h[|h| - 1] != c then r.disabled + R.ConnsOf(live, c.key) else r.disabled)
  {
    var h := r.clients[c.key].dup.value.history;
    assert R.SetOk(r.clients[c.key], R.ConnsOf(live, c.key), r.disabled);
    if c in h && h[|h| - 1] != c {
      var i :| 0 <= i < |h| && h[i] == c;
      assert h[|h| - 1] != c && i < |h| - 1;
    }
  }
}
