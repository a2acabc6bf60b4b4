/**
 The registry of local clients: registerClient, unregisterClient and the locked part of
 noteClientActivity, each as one step under `Server.mu`.
 */
module Registry {
  import opened Basics
  import opened Connections

  datatype Policy = LastWriterIsActive | DisableFighters

  /** `clients`, and the connections whose `isDup` and `isDisabled` flags are set. */
  datatype Reg = Reg(clients: map<Key, ClientSet>, isDup: set<Conn>, disabled: set<Conn>)

  const EmptyReg := Reg(map[], {}, {})

  ghost function ConnsOf(live: set<Conn>, k: Key): set<Conn> {
    set c | c in live && c.key == k
  }

  function TheSet(r: Reg, k: Key): ClientSet {
    if k in r.clients then r.clients[k] else ClientSet(None, None)
  }

  // ---------- steps ----------

  /** The duplicate set after `c` joins `cs`. */
  function JoinDup(cs: ClientSet, c: Conn): Option<Dup> {
    if cs.dup.Some? then
      var d := cs.dup.value;
      Some(Dup(d.members + {c}, Some(c), d.history + [c]))
    else if cs.active.Some? then
      Some(Dup({c, cs.active.value}, Some(c), [cs.active.value]))
    else
      None
  }

  function Register(r: Reg, c: Conn): Reg {
    var cs := TheSet(r, c.key);
    Reg(r.clients[c.key := ClientSet(Some(c), JoinDup(cs, c))],
        if cs.active.Some? then r.isDup + {cs.active.value, c} else r.isDup,
        r.disabled)
  }

  /** How unregisterClient ends. The first three are its early "[unexpected]" returns and
      `SetDidNotShrink` its fourth "[unexpected]" message. */
  datatype Departure = NoSetForKey | ActiveIsNil | ActiveIsAnother | SetDidNotShrink
                     | KeyLeft | Demoted | StillDuplicate

  predicate Unexpected(d: Departure) {
    d.NoSetForKey? || d.ActiveIsNil? || d.ActiveIsAnother? || d.SetDidNotShrink?
  }

  ghost function TheOnly(s: set<Conn>): (c: Conn)
    requires |s| == 1
    ensures s == {c}
  {
    assert s != {};
    var x :| x in s;
    SingletonElements(s, x);
    x
  }

  ghost function Unregister(r: Reg, c: Conn): (Reg, Departure) {
    if c.key !in r.clients then (r, NoSetForKey)
    else
      var cs := r.clients[c.key];
      if cs.dup.None? then
        if cs.active.None? then (r, ActiveIsNil)
        else if cs.active != Some(c) then (r, ActiveIsAnother)
        else (r.(clients := r.clients - {c.key}), KeyLeft)
      else
        var (d, shrank) := Removed(cs.dup.value, c);
        if |d.members| == 1 then
          var remain := TheOnly(d.members);
          (Reg(r.clients[c.key := ClientSet(Some(remain), None)], r.isDup - {remain}, r.disabled - {remain}),
           if shrank then Demoted else SetDidNotShrink)
        else
          var active := PickActive(ClientSet(None, Some(d)), r.disabled);
          (r.(clients := r.clients[c.key := ClientSet(active, Some(d))]),
           if shrank then StillDuplicate else SetDidNotShrink)
  }

  /** noteClientActivity from the point where it holds the lock. */
  function Speak(r: Reg, p: Policy, c: Conn): Reg {
    if c.key !in r.clients || r.clients[c.key].dup.None? then r
    else
      var cs := r.clients[c.key];
      var d := cs.dup.value;
      var takes := p.LastWriterIsActive? || d.last.None?;
      var last := if takes then Some(c) else d.last;
      var active := if takes then Some(c) else cs.active;
      if d.history != [] && d.history[|d.history| - 1] == c then
        r.(clients := r.clients[c.key := ClientSet(active, Some(d.(last := last)))])
      else
        var fighting := p.DisableFighters? && c in d.history;
        var active' := if fighting && active.Some? && active.value in d.members then None else active;
        Reg(r.clients[c.key := ClientSet(active', Some(Dup(d.members, last, d.history + [c])))],
            r.isDup,
            if fighting then r.disabled + d.members else r.disabled)
  }

  /** The whole of noteClientActivity, with its two lock-free tests read in the same state. */
  function NoteActivity(r: Reg, p: Policy, c: Conn): Reg {
    if c !in r.isDup || c in r.disabled then r else Speak(r, p, c)
  }

  // ---------- invariant ----------

  ghost predicate SetOk(cs: ClientSet, conns: set<Conn>, disabled: set<Conn>) {
    match cs.dup
    case None => cs.active.Some? && conns == {cs.active.value}
    case Some(d) => d.members == conns && DupOk(d) && cs.active == PickActive(cs, disabled)
  }

  ghost predicate FlagsOk(r: Reg, live: set<Conn>, p: Policy)
    requires forall c :: c in live ==> c.key in r.clients
  {
    && (forall c :: c in live && c in r.isDup ==> r.clients[c.key].dup.Some?)
    && (forall c :: c in live && c in r.disabled ==> r.clients[c.key].dup.Some?)
    && (p.LastWriterIsActive? ==> r.disabled !! live)
    && (p.LastWriterIsActive? ==> forall c :: c in live && r.clients[c.key].dup.Some? ==> c in r.isDup)
  }

  ghost predicate Inv(r: Reg, live: set<Conn>, p: Policy) {
    && (forall c :: c in live ==> c.key in r.clients)
    && (forall k :: k in r.clients ==> SetOk(r.clients[k], ConnsOf(live, k), r.disabled))
    && FlagsOk(r, live, p)
  }

  /** A stored set is never empty, and is a duplicate set exactly for two or more connections. */
  lemma StoredSets(r: Reg, live: set<Conn>, p: Policy, k: Key)
    requires Inv(r, live, p)
    ensures k in r.clients <==> ConnsOf(live, k) != {}
    ensures k in r.clients ==> Len(r.clients[k]) == |ConnsOf(live, k)|
    ensures k in r.clients ==> (r.clients[k].dup.Some? <==> |ConnsOf(live, k)| >= 2)
  {
    if k in r.clients {
      assert SetOk(r.clients[k], ConnsOf(live, k), r.disabled);
      if r.clients[k].dup.None? {
        assert r.clients[k].active.value in ConnsOf(live, k);
      } else {
        assert r.clients[k].dup.value.last.value in ConnsOf(live, k);
      }
    }
  }

  // ---------- every step keeps the invariant ----------

  lemma HistoryAppend(d: Dup, c: Conn)
    requires HistoryOk(d) && (d.history == [] || d.history[|d.history| - 1] != c)
    ensures HistoryOk(Dup(d.members + {c}, d.last, d.history + [c]))
  {
    var d' := Dup(d.members + {c}, d.last, d.history + [c]);
    assert Elements(d'.history) == Elements(d.history) + {c};
    forall x, y | x in d'.members && y in d'.members && x !in d'.history && y !in d'.history
      ensures x == y
    {
      assert x !in Elements(d'.history) && y !in Elements(d'.history);
      assert c in Elements(d'.history);
      assert x in d.members && y in d.members && x !in d.history && y !in d.history;
    }
  }

  lemma RegisterKeeps(r: Reg, live: set<Conn>, p: Policy, c: Conn)
    requires Inv(r, live, p) && c !in live && c !in r.isDup && c !in r.disabled
    ensures Inv(Register(r, c), live + {c}, p)
    ensures Register(r, c).clients[c.key].active == Some(c)
  {
    var r', live' := Register(r, c), live + {c};
    forall k | k in r'.clients
      ensures SetOk(r'.clients[k], ConnsOf(live', k), r'.disabled)
    {
      if k != c.key {
        assert ConnsOf(live', k) == ConnsOf(live, k);
      } else {
        assert ConnsOf(live', k) == ConnsOf(live, k) + {c};
        JoinedSetOk(r, live, p, c);
      }
    }
    forall x | x in live' && x in r'.isDup
      ensures r'.clients[x.key].dup.Some?
    {
      if x.key == c.key && x in r.isDup {
        assert x in live;
      }
    }
    if p.LastWriterIsActive? {
      forall x | x in live' && r'.clients[x.key].dup.Some?
        ensures x in r'.isDup
      {
        if x.key == c.key {
          LastWriterHasActive(r, live, p, c.key);
          if x in live && x !in r.isDup {
            assert SetOk(r.clients[c.key], ConnsOf(live, c.key), r.disabled);
            assert x in ConnsOf(live, c.key);
          }
        }
      }
    }
  }

  /** Under lastWriterIsActive every stored set has an active client: the `last` one. */
  lemma LastWriterHasActive(r: Reg, live: set<Conn>, p: Policy, k: Key)
    requires Inv(r, live, p) && p.LastWriterIsActive?
    ensures k in r.clients ==> r.clients[k].active.Some? && r.clients[k].active.value in ConnsOf(live, k)
    ensures k in r.clients && r.clients[k].dup.Some? ==> r.clients[k].active == r.clients[k].dup.value.last
  {
    if k in r.clients {
      assert SetOk(r.clients[k], ConnsOf(live, k), r.disabled);
      if r.clients[k].dup.Some? {
        assert r.clients[k].dup.value.last.value in live;
      }
    }
  }

  lemma JoinedSetOk(r: Reg, live: set<Conn>, p: Policy, c: Conn)
    requires Inv(r, live, p) && c !in live && c !in r.disabled
    ensures SetOk(Register(r, c).clients[c.key], ConnsOf(live, c.key) + {c}, r.disabled)
  {
    var conns := ConnsOf(live, c.key);
    StoredSets(r, live, p, c.key);
    if c.key in r.clients {
      var cs := r.clients[c.key];
      assert SetOk(cs, conns, r.disabled);
      if cs.dup.Some? {
        var d := cs.dup.value;
        assert c !in Elements(d.history);
        HistoryAppend(d, c);
      } else {
        var was := cs.active.value;
        assert was in conns && was != c;
        assert |{c, was}| == 2;
      }
    }
  }

  /** Unregistering a live connection never takes an unexpected branch, keeps the invariant,
      and lets the key leave exactly when this was its only connection. */
  lemma UnregisterKeeps(r: Reg, live: set<Conn>, p: Policy, c: Conn)
    requires Inv(r, live, p) && c in live
    ensures var (r', how) := Unregister(r, c);
            && Inv(r', live - {c}, p)
            && !Unexpected(how)
            && (how.KeyLeft? <==> ConnsOf(live, c.key) == {c})
            && (how.Demoted? <==> |ConnsOf(live, c.key)| == 2)
            && (c.key in r'.clients <==> !how.KeyLeft?)
  {
    var (r', how) := Unregister(r, c);
    var live' := live - {c};
    var conns := ConnsOf(live, c.key);
    StoredSets(r, live, p, c.key);
    assert SetOk(r.clients[c.key], conns, r.disabled);
    assert ConnsOf(live', c.key) == conns - {c};
    var cs := r.clients[c.key];
    if cs.dup.Some? {
      RemoveKeepsDup(cs.dup.value, c);
    }
    assert how.KeyLeft? ==> conns == {c};
    forall x | x in live'
      ensures x.key in r'.clients
    {
      if x.key == c.key { assert x in conns; }
    }
    forall k | k in r'.clients
      ensures SetOk(r'.clients[k], ConnsOf(live', k), r'.disabled)
    {
      assert SetOk(r.clients[k], ConnsOf(live, k), r.disabled);
      if k != c.key {
        assert ConnsOf(live', k) == ConnsOf(live, k);
        OtherKeyPick(r, r', live, k, c.key);
      }
    }
    UnregisterFlags(r, live, p, c);
  }

  /** Re-enabling a connection of one key does not change who is picked for another key. */
  lemma OtherKeyPick(r: Reg, r': Reg, live: set<Conn>, k: Key, other: Key)
    requires k in r.clients && k in r'.clients && r.clients[k] == r'.clients[k] && k != other
    requires SetOk(r.clients[k], ConnsOf(live, k), r.disabled)
    requires forall x: Conn :: x.key != other ==> (x in r.disabled <==> x in r'.disabled)
    ensures SetOk(r'.clients[k], ConnsOf(live, k), r'.disabled)
  {
    if r.clients[k].dup.Some? {
      assert r.clients[k].dup.value.last.value in ConnsOf(live, k);
    }
  }

  lemma UnregisterFlags(r: Reg, live: set<Conn>, p: Policy, c: Conn)
    requires Inv(r, live, p) && c in live
    requires forall x :: x in live - {c} ==> x.key in Unregister(r, c).0.clients
    ensures FlagsOk(Unregister(r, c).0, live - {c}, p)
  {
    var (r', how) := Unregister(r, c);
    var conns := ConnsOf(live, c.key);
    assert SetOk(r.clients[c.key], conns, r.disabled);
    if how.Demoted? {
      assert Removed(r.clients[c.key].dup.value, c).0.members == conns - {c};
      assert forall x :: x in live - {c} && x.key == c.key ==> x in conns - {c};
    }
  }

  /** Any live connection may run the locked section, whatever its flags said before the lock. */
  lemma SpeakKeeps(r: Reg, live: set<Conn>, p: Policy, c: Conn)
    requires Inv(r, live, p) && c in live
    ensures Inv(Speak(r, p, c), live, p)
    ensures Speak(r, p, c).clients.Keys == r.clients.Keys
    ensures forall k :: k in r.clients ==> Speak(r, p, c).clients[k].dup.Some? == r.clients[k].dup.Some?
  {
    var r' := Speak(r, p, c);
    var conns := ConnsOf(live, c.key);
    assert SetOk(r.clients[c.key], conns, r.disabled);
    assert c in conns && forall x :: x in conns ==> x.key == c.key;
    SpokenSetOk(r, live, p, c);
    forall k | k in r'.clients
      ensures SetOk(r'.clients[k], ConnsOf(live, k), r'.disabled)
    {
      if k != c.key {
        assert SetOk(r.clients[k], ConnsOf(live, k), r.disabled);
        OtherKeyPick(r, r', live, k, c.key);
      }
    }
    SpeakFlags(r, live, p, c);
    hide FlagsOk;
  }

  lemma SpeakFlags(r: Reg, live: set<Conn>, p: Policy, c: Conn)
    requires (forall x :: x in live ==> x.key in r.clients) && FlagsOk(r, live, p) && c in live
    requires r.clients[c.key].dup.Some? ==> r.clients[c.key].dup.value.members == ConnsOf(live, c.key)
    ensures forall x :: x in live ==> x.key in Speak(r, p, c).clients
    ensures FlagsOk(Speak(r, p, c), live, p)
  {
  }

  lemma SpokenSetOk(r: Reg, live: set<Conn>, p: Policy, c: Conn)
    requires c.key in r.clients && c in live && SetOk(r.clients[c.key], ConnsOf(live, c.key), r.disabled)
    requires p.LastWriterIsActive? ==> r.disabled !! live
    ensures SetOk(Speak(r, p, c).clients[c.key], ConnsOf(live, c.key), Speak(r, p, c).disabled)
  {
    assert c in ConnsOf(live, c.key);
    if r.clients[c.key].dup.Some? {
      var d := r.clients[c.key].dup.value;
      if d.history == [] || d.history[|d.history| - 1] != c {
        HistoryAppend(d, c);
        assert d.members + {c} == d.members;
      }
      hide HistoryOk;
    }
  }

  /** lastWriterIsActive, as its name promises: after any live connection's activity was noted,
      that connection is the active one of its key. */
  lemma LastWriterWins(r: Reg, live: set<Conn>, p: Policy, c: Conn)
    requires Inv(r, live, p) && c in live && p.LastWriterIsActive?
    ensures NoteActivity(r, p, c).clients[c.key].active == Some(c)
  {
    assert SetOk(r.clients[c.key], ConnsOf(live, c.key), r.disabled);
    assert c in ConnsOf(live, c.key);
  }
}
