/**
 The lock-free packet path against writers that hold `Server.mu`.

 Every store that a lock-free reader can observe (to `clients`, to a set's `activeClient`, to the
 `isDup` and `isDisabled` flags) is a step of its own, and readers take their two loads, of the map
 and of `activeClient`, in between. `spec` is the registry of module Registry; it moves by one
 atomic step per writer, and the micro-steps are proved to implement that step.
 */
module FastPath {
  import opened Basics
  import opened Connections
  import opened Registry

  type SetId = nat

  /** A `clientSet` object. It outlives its entry in the map. */
  datatype Cell = Cell(key: Key, content: ClientSet)

  /** What the holder of the lock has done so far. */
  datatype Writer =
    | Idle
    | RegFound(c: Conn, sid: SetId)
    | RegMarkedOld(c: Conn, sid: SetId, was: Option<Conn>)
    | RegMarkedNew(c: Conn, sid: SetId, was: Option<Conn>)
    | RegJoined(c: Conn, sid: SetId)
    | UnregCleared(c: Conn, sid: SetId)
    | UnregDemoted(c: Conn, sid: SetId, remain: Conn)
    | UnregEnabled(c: Conn, sid: SetId, remain: Conn)
    | UnregUnmarked(c: Conn, sid: SetId, remain: Conn)
    | UnregShrunk(c: Conn, sid: SetId)
    | SpeakTaken(c: Conn, sid: SetId, before: Reg)
    | SpeakDisabling(c: Conn, sid: SetId, todo: set<Conn>)

  datatype Reader = Holds(k: Key, sid: SetId) | Delivered(k: Key, to: Conn) | SlowPath(k: Key)

  datatype Machine = Machine(
    heap: map<SetId, Cell>, next: SetId, table: map<Key, SetId>,
    isDup: set<Conn>, disabled: set<Conn>,
    writer: Writer, readers: map<nat, Reader>,
    spec: Reg, live: set<Conn>, ever: set<Conn>)

  const Start := Machine(map[], 0, map[], {}, {}, Idle, map[], EmptyReg, {}, {})

  datatype Step =
    | BeginRegister(c: Conn)
    | BeginUnregister(c: Conn)
    | BeginSpeak(c: Conn)
    | WriterStep(pick: Conn)
    | LoadSet(reader: nat, k: Key)
    | LoadActive(reader: nat)

  // ---------- steps; a step that is not enabled leaves the machine alone ----------

  function At(heap: map<SetId, Cell>, sid: SetId): ClientSet {
    if sid in heap then heap[sid].content else ClientSet(None, None)
  }

  function Put(m: Machine, sid: SetId, cs: ClientSet): Machine {
    if sid in m.heap then m.(heap := m.heap[sid := Cell(m.heap[sid].key, cs)]) else m
  }

  ghost function Next(m: Machine, p: Policy, s: Step): Machine {
    match s
    case BeginRegister(c) =>
      if m.writer.Idle? && c !in m.ever then BeginReg(m, c) else m
    case BeginUnregister(c) =>
      if m.writer.Idle? && c in m.live && c.key in m.table then BeginUnreg(m, c) else m
    case BeginSpeak(c) =>
      if m.writer.Idle? && c in m.live && c.key in m.table then BeginNote(m, p, c) else m
    case WriterStep(pick) => Advance(m, p, pick)
    case LoadSet(reader, k) =>
      m.(readers := m.readers[reader := if k in m.table then Holds(k, m.table[k]) else SlowPath(k)])
    case LoadActive(reader) =>
      if reader in m.readers && m.readers[reader].Holds? then
        var Holds(k, sid) := m.readers[reader];
        var active := At(m.heap, sid).active;
        m.(readers := m.readers[reader := if active.Some? then Delivered(k, active.value) else SlowPath(k)])
      else m
  }

  /** Lock, load the set, and store a new empty one if there is none. */
  ghost function BeginReg(m: Machine, c: Conn): Machine {
    var m := m.(ever := m.ever + {c});
    if c.key in m.table then m.(writer := RegFound(c, m.table[c.key]))
    else
      m.(heap := m.heap[m.next := Cell(c.key, ClientSet(None, None))], next := m.next + 1,
         table := m.table[c.key := m.next], writer := RegFound(c, m.next))
  }

  /** Lock and either clear `activeClient` of a single set, or shrink a duplicate set. */
  ghost function BeginUnreg(m: Machine, c: Conn): Machine
    requires c.key in m.table
  {
    var sid := m.table[c.key];
    var cs := At(m.heap, sid);
    if cs.dup.None? then
      if cs.active != Some(c) then m
      else Put(m, sid, cs.(active := None)).(writer := UnregCleared(c, sid))
    else
      var (d, _) := Removed(cs.dup.value, c);
      if |d.members| == 1 then
        Put(m, sid, cs.(dup := None)).(writer := UnregDemoted(c, sid, TheOnly(d.members)))
      else
        Put(m, sid, cs.(dup := Some(d))).(writer := UnregShrunk(c, sid))
  }

  /** Lock and, when the speaker takes over, store `last` and `activeClient`. */
  ghost function BeginNote(m: Machine, p: Policy, c: Conn): Machine
    requires c.key in m.table
  {
    var sid := m.table[c.key];
    var cs := At(m.heap, sid);
    if cs.dup.None? then m
    else if p.LastWriterIsActive? || cs.dup.value.last.None? then
      var d := cs.dup.value.(last := Some(c));
      Put(m, sid, ClientSet(Some(c), Some(d))).(writer := SpeakTaken(c, sid, m.spec), spec := Speak(m.spec, p, c))
    else
      m.(writer := SpeakTaken(c, sid, m.spec))
  }

  ghost predicate Fighting(d: Dup, p: Policy, c: Conn) {
    p.DisableFighters? && c in d.history
  }

  ghost predicate RepeatsLast(d: Dup, c: Conn) {
    d.history != [] && d.history[|d.history| - 1] == c
  }

  predicate IsJoining(w: Writer) {
    w.RegFound? || w.RegMarkedOld? || w.RegMarkedNew? || w.RegJoined?
  }

  predicate IsLeaving(w: Writer) {
    w.UnregCleared? || w.UnregDemoted? || w.UnregEnabled? || w.UnregUnmarked? || w.UnregShrunk?
  }

  /** The next store of whoever holds the lock. */
  ghost function Advance(m: Machine, p: Policy, pick: Conn): Machine {
    if IsJoining(m.writer) then AdvanceJoin(m)
    else if IsLeaving(m.writer) then AdvanceLeave(m)
    else if m.writer.SpeakTaken? then AdvanceSpeak(m, p)
    else if m.writer.SpeakDisabling? then AdvanceDisable(m, p, pick)
    else m
  }

  ghost function AdvanceJoin(m: Machine): Machine
    requires IsJoining(m.writer)
  {
    match m.writer
    case RegFound(c, sid) =>
      var was := At(m.heap, sid).active;
      m.(isDup := if was.Some? then m.isDup + {was.value} else m.isDup, writer := RegMarkedOld(c, sid, was))
    case RegMarkedOld(c, sid, was) =>
      m.(isDup := if was.Some? then m.isDup + {c} else m.isDup, writer := RegMarkedNew(c, sid, was))
    case RegMarkedNew(c, sid, was) =>
      var cs := At(m.heap, sid);
      Put(m, sid, cs.(dup := JoinDup(cs, c))).(writer := RegJoined(c, sid))
    case RegJoined(c, sid) =>
      Put(m, sid, At(m.heap, sid).(active := Some(c))).(
        writer := Idle, spec := Register(m.spec, c), live := m.live + {c})
  }

  ghost function AdvanceLeave(m: Machine): Machine
    requires IsLeaving(m.writer)
  {
    match m.writer
    case UnregDemoted(c, sid, remain) =>
      m.(disabled := m.disabled - {remain}, writer := UnregEnabled(c, sid, remain))
    case UnregEnabled(c, sid, remain) =>
      m.(isDup := m.isDup - {remain}, writer := UnregUnmarked(c, sid, remain))
    case UnregCleared(c, sid) =>
      Left(m.(table := m.table - {c.key}), c)
    case UnregUnmarked(c, sid, remain) =>
      Left(Put(m, sid, At(m.heap, sid).(active := Some(remain))), c)
    case UnregShrunk(c, sid) =>
      var cs := At(m.heap, sid);
      Left(Put(m, sid, cs.(active := PickActive(cs, m.disabled))), c)
  }

  ghost function Left(m: Machine, c: Conn): Machine {
    m.(writer := Idle, spec := Unregister(m.spec, c).0, live := m.live - {c})
  }

  ghost function AdvanceSpeak(m: Machine, p: Policy): Machine
    requires m.writer.SpeakTaken?
  {
    var SpeakTaken(c, sid, _) := m.writer;
    var cs := At(m.heap, sid);
    if cs.dup.None? then m
    else if RepeatsLast(cs.dup.value, c) then Spoken(m, p, c)
    else if Fighting(cs.dup.value, p, c) then m.(writer := SpeakDisabling(c, sid, cs.dup.value.members))
    else Spoken(Put(m, sid, AppendSpeaker(cs, c)), p, c)
  }

  ghost function AdvanceDisable(m: Machine, p: Policy, pick: Conn): Machine
    requires m.writer.SpeakDisabling?
  {
    var SpeakDisabling(c, sid, todo) := m.writer;
    var cs := At(m.heap, sid);
    if todo == {} then Spoken(Put(m, sid, AppendSpeaker(cs, c)), p, c)
    else if pick !in todo then m
    else
      Put(m, sid, if cs.active == Some(pick) then cs.(active := None) else cs).(
        disabled := m.disabled + {pick}, writer := SpeakDisabling(c, sid, todo - {pick}))
  }

  function AppendSpeaker(cs: ClientSet, c: Conn): ClientSet {
    if cs.dup.None? then cs else cs.(dup := Some(cs.dup.value.(history := cs.dup.value.history + [c])))
  }

  /** Unlock after noteClientActivity. The atomic step already happened if `activeClient` was stored. */
  ghost function Spoken(m: Machine, p: Policy, c: Conn): Machine {
    m.(writer := Idle, spec := if p.LastWriterIsActive? then m.spec else Speak(m.spec, p, c))
  }

  // ---------- invariant ----------

  /** Sets are stored under their own key, readers hold sets of the key they look up, and a set
      outside the map has no active client. */
  ghost predicate Tables(heap: map<SetId, Cell>, next: SetId, table: map<Key, SetId>, readers: map<nat, Reader>) {
    && (forall sid :: sid in heap ==> sid < next)
    && (forall k :: k in table ==> table[k] in heap && heap[table[k]].key == k)
    && (forall sid :: sid in heap && heap[sid].content.active.Some? ==>
        heap[sid].key in table && table[heap[sid].key] == sid)
    && (forall i :: i in readers && readers[i].Holds? ==>
        readers[i].sid in heap && heap[readers[i].sid].key == readers[i].k)
  }

  predicate WriterSet(w: Writer, table: map<Key, SetId>) {
    w.Idle? || (w.c.key in table && table[w.c.key] == w.sid)
  }

  ghost predicate Shape(m: Machine) {
    Tables(m.heap, m.next, m.table, m.readers) && WriterSet(m.writer, m.table)
  }

  /** Outside `focus`, the map holds the contents of the registry. */
  ghost predicate Stored(heap: map<SetId, Cell>, table: map<Key, SetId>, clients: map<Key, ClientSet>,
                         focus: set<Key>) {
    && (forall k :: k in clients ==> k in table)
    && (forall k :: k in table && k !in focus ==> k in clients && At(heap, table[k]) == clients[k])
  }

  /** The set the running writer has built so far, in terms of the atomic registry. */
  ghost function Expected(w: Writer, spec: Reg, p: Policy): ClientSet
    requires !w.Idle?
  {
    var cs := TheSet(spec, w.c.key);
    match w
    case RegJoined(c, _) => cs.(dup := JoinDup(cs, c))
    case UnregCleared(_, _) => cs.(active := None)
    case UnregDemoted(_, _, _) => cs.(dup := None)
    case UnregEnabled(_, _, _) => cs.(dup := None)
    case UnregUnmarked(_, _, _) => cs.(dup := None)
    case UnregShrunk(c, _) => if cs.dup.Some? then cs.(dup := Some(Removed(cs.dup.value, c).0)) else cs
    case SpeakTaken(c, _, before) =>
      var cs := TheSet(before, c.key);
      if p.LastWriterIsActive? && cs.dup.Some? then ClientSet(Some(c), Some(cs.dup.value.(last := Some(c)))) else cs
    case SpeakDisabling(_, _, todo) =>
      cs.(active := if cs.active.Some? && cs.active.value in todo then cs.active else None)
    case _ => cs
  }

  ghost function ExpectedIsDup(w: Writer, spec: Reg): set<Conn> {
    match w
    case RegMarkedOld(_, _, was) => if was.Some? then spec.isDup + {was.value} else spec.isDup
    case RegMarkedNew(c, _, _) => Register(spec, c).isDup
    case RegJoined(c, _) => Register(spec, c).isDup
    case UnregUnmarked(_, _, remain) => spec.isDup - {remain}
    case _ => spec.isDup
  }

  ghost function ExpectedDisabled(w: Writer, spec: Reg): set<Conn> {
    match w
    case UnregEnabled(_, _, remain) => spec.disabled - {remain}
    case UnregUnmarked(_, _, remain) => spec.disabled - {remain}
    case SpeakDisabling(c, _, todo) =>
      var cs := TheSet(spec, c.key);
      if cs.dup.Some? then spec.disabled + (cs.dup.value.members - todo) else spec.disabled
    case _ => spec.disabled
  }

  /** The branch the running writer is on is the one its set calls for. */
  ghost predicate OnBranch(w: Writer, spec: Reg, p: Policy) {
    match w
    case RegMarkedOld(c, _, was) => was == TheSet(spec, c.key).active
    case UnregCleared(c, _) => TheSet(spec, c.key) == ClientSet(Some(c), None)
    case UnregDemoted(c, _, remain) => Leaves(spec, c, {remain})
    case UnregEnabled(c, _, remain) => Leaves(spec, c, {remain})
    case UnregUnmarked(c, _, remain) => Leaves(spec, c, {remain})
    case UnregShrunk(c, _) =>
      TheSet(spec, c.key).dup.Some? && |Removed(TheSet(spec, c.key).dup.value, c).0.members| != 1
    case SpeakTaken(c, _, before) =>
      && c.key in before.clients && before.clients[c.key].dup.Some? && before.clients[c.key].dup.value.last.Some?
      && (before.clients[c.key].active.Some? ==>
          before.clients[c.key].active.value in before.clients[c.key].dup.value.members)
      && spec == (if p.LastWriterIsActive? then Speak(before, p, c) else before)
    case SpeakDisabling(c, _, todo) =>
      && p.DisableFighters? && c.key in spec.clients && spec.clients[c.key].dup.Some?
      && Fighting(spec.clients[c.key].dup.value, p, c) && !RepeatsLast(spec.clients[c.key].dup.value, c)
      && todo <= spec.clients[c.key].dup.value.members
    case _ => true
  }

  ghost predicate Leaves(spec: Reg, c: Conn, rest: set<Conn>) {
    TheSet(spec, c.key).dup.Some? && Removed(TheSet(spec, c.key).dup.value, c).0.members == rest
  }

  /** How far the stores of the running writer are from the atomic step. */
  ghost predicate Progress(m: Machine, p: Policy) {
    var w, spec := m.writer, m.spec;
    && Stored(m.heap, m.table, spec.clients, if w.Idle? then {} else {w.c.key})
    && (!w.Idle? ==> At(m.heap, w.sid) == Expected(w, spec, p))
    && (!w.Idle? && !IsJoining(w) ==> w.c.key in spec.clients)
    && m.isDup == ExpectedIsDup(w, spec) && m.disabled == ExpectedDisabled(w, spec)
    && OnBranch(w, spec, p)
  }

  /** Who the writer works for: registering connections are new, the others are live. */
  ghost predicate WriterOk(m: Machine) {
    && m.live <= m.ever && m.spec.isDup <= m.ever && m.spec.disabled <= m.ever
    && match m.writer
       case Idle => true
       case RegFound(c, _) => Joining(m, c)
       case RegMarkedOld(c, _, _) => Joining(m, c)
       case RegMarkedNew(c, _, _) => Joining(m, c)
       case RegJoined(c, _) => Joining(m, c)
       case _ => m.writer.c in m.live
  }

  ghost predicate Joining(m: Machine, c: Conn) {
    c in m.ever && c !in m.live && c !in m.spec.isDup && c !in m.spec.disabled
  }

  ghost predicate Good(m: Machine, p: Policy) {
    Shape(m) && Progress(m, p) && WriterOk(m) && Inv(m.spec, m.live, p)
  }

  // ---------- proof ----------

  /** A store to the stored set of `k` keeps the tables and touches no other key. */
  lemma StoreTo(m: Machine, k: Key, cs: ClientSet)
    requires Tables(m.heap, m.next, m.table, m.readers) && k in m.table
    ensures var m' := Put(m, m.table[k], cs);
            && Tables(m'.heap, m.next, m.table, m.readers)
            && At(m'.heap, m.table[k]) == cs
            && forall clients, focus :: k in focus && Stored(m.heap, m.table, clients, focus) ==>
                 Stored(m'.heap, m.table, clients, focus)
  {
  }

  /** Once the set in focus has its final value, the map holds the updated registry. */
  lemma Unfocus(heap: map<SetId, Cell>, table: map<Key, SetId>, clients: map<Key, ClientSet>, k: Key)
    requires Stored(heap, table, clients, {k}) && k in table
    ensures Stored(heap, table, clients[k := At(heap, table[k])], {})
  {
  }

  lemma Focus(heap: map<SetId, Cell>, table: map<Key, SetId>, clients: map<Key, ClientSet>, k: Key)
    requires Stored(heap, table, clients, {}) && k in table
    ensures Stored(heap, table, clients, {k}) && k in clients && At(heap, table[k]) == clients[k]
  {
  }

  // --- taking the lock ---

  lemma BeginRegGood(m: Machine, p: Policy, c: Conn)
    requires Good(m, p) && m.writer.Idle? && c !in m.ever
    ensures Good(BeginReg(m, c), p)
  {
    hide Inv, Tables, Stored;
    if c.key in m.table {
      Focus(m.heap, m.table, m.spec.clients, c.key);
    } else {
      NewEntry(m, c.key);
    }
  }

  /** Storing a new empty set under an absent key. */
  lemma NewEntry(m: Machine, k: Key)
    requires Tables(m.heap, m.next, m.table, m.readers) && k !in m.table
    requires Stored(m.heap, m.table, m.spec.clients, {})
    ensures k !in m.spec.clients
    ensures var heap := m.heap[m.next := Cell(k, ClientSet(None, None))];
            && Tables(heap, m.next + 1, m.table[k := m.next], m.readers)
            && Stored(heap, m.table[k := m.next], m.spec.clients, {k})
  {
  }

  lemma BeginUnregGood(m: Machine, p: Policy, c: Conn)
    requires Good(m, p) && m.writer.Idle? && c in m.live && c.key in m.table
    ensures Good(BeginUnreg(m, c), p) && !BeginUnreg(m, c).writer.Idle?
  {
    hide Inv, Tables, Stored, Removed;
    UnregisterKeeps(m.spec, m.live, p, c);
    var cs := At(m.heap, m.table[c.key]);
    Focus(m.heap, m.table, m.spec.clients, c.key);
    StoreTo(m, c.key, if cs.dup.None? then cs.(active := None)
                      else var d := Removed(cs.dup.value, c).0;
                           if |d.members| == 1 then cs.(dup := None) else cs.(dup := Some(d)));
  }

  lemma BeginNoteGood(m: Machine, p: Policy, c: Conn)
    requires Good(m, p) && m.writer.Idle? && c in m.live && c.key in m.table
    ensures Good(BeginNote(m, p, c), p)
  {
    hide Inv, Tables, Stored, Speak;
    var cs := At(m.heap, m.table[c.key]);
    Focus(m.heap, m.table, m.spec.clients, c.key);
    SpeakInv(m.spec, m.live, p, c);
    SpeakerSetHolds(m.spec, m.live, p, c);
    SpeakChanges(m.spec, p, c);
    if cs.dup.Some? && p.LastWriterIsActive? {
      StoreTo(m, c.key, ClientSet(Some(c), Some(cs.dup.value.(last := Some(c)))));
      var m' := BeginNote(m, p, c);
      StoredElsewhere(m'.heap, m.table, m.spec.clients, m'.spec.clients, c.key);
    }
  }

  /** The same when the registry moved on at `k` only, to what the map holds there. */
  lemma Settle(heap: map<SetId, Cell>, table: map<Key, SetId>, clients: map<Key, ClientSet>,
               clients': map<Key, ClientSet>, k: Key)
    requires Stored(heap, table, clients, {k}) && k in clients && k in table && clients'.Keys == clients.Keys
    requires forall j :: j in clients && j != k ==> clients'[j] == clients[j]
    requires At(heap, table[k]) == clients'[k]
    ensures Stored(heap, table, clients', {})
  {
  }

  /** A final store to the set in focus. */
  lemma StoreLast(m: Machine, k: Key, cs: ClientSet, clients': map<Key, ClientSet>)
    requires Tables(m.heap, m.next, m.table, m.readers) && k in m.table && k in m.spec.clients
    requires Stored(m.heap, m.table, m.spec.clients, {k}) && clients'.Keys == m.spec.clients.Keys
    requires forall j :: j in m.spec.clients && j != k ==> clients'[j] == m.spec.clients[j]
    requires clients'[k] == cs
    ensures var heap := Put(m, m.table[k], cs).heap;
            Tables(heap, m.next, m.table, m.readers) && Stored(heap, m.table, clients', {})
  {
  }

  lemma StoredElsewhere(heap: map<SetId, Cell>, table: map<Key, SetId>, clients: map<Key, ClientSet>,
                        clients': map<Key, ClientSet>, k: Key)
    requires Stored(heap, table, clients, {k}) && k in clients && clients'.Keys == clients.Keys
    requires forall j :: j in clients && j != k ==> clients'[j] == clients[j]
    ensures Stored(heap, table, clients', {k})
  {
  }

  /** What the invariant says of the duplicate set a speaker belongs to. */
  lemma SpeakerSetHolds(r: Reg, live: set<Conn>, p: Policy, c: Conn)
    requires Inv(r, live, p) && c in live
    ensures c.key in r.clients
    ensures var cs := r.clients[c.key];
            && (cs.active.Some? ==> cs.active.value in live)
            && (cs.dup.Some? ==> && cs.dup.value.last.Some? && cs.dup.value.members <= live
                                 && (cs.active.Some? ==> cs.active.value in cs.dup.value.members))
  {
    assert SetOk(r.clients[c.key], ConnsOf(live, c.key), r.disabled);
    assert ConnsOf(live, c.key) <= live;
  }

  lemma SpeakInv(r: Reg, live: set<Conn>, p: Policy, c: Conn)
    requires Inv(r, live, p) && c in live
    ensures Inv(Speak(r, p, c), live, p)
  {
    SpeakKeeps(r, live, p, c);
  }

  lemma SpeakChanges(r: Reg, p: Policy, c: Conn)
    ensures Speak(r, p, c).isDup == r.isDup
    ensures Speak(r, p, c).clients.Keys == r.clients.Keys
    ensures forall k :: k in r.clients && k != c.key ==> Speak(r, p, c).clients[k] == r.clients[k]
    ensures c.key in r.clients && r.clients[c.key].dup.Some? ==>
              Speak(r, p, c).disabled <= r.disabled + r.clients[c.key].dup.value.members
    ensures p.LastWriterIsActive? ==> Speak(r, p, c).disabled == r.disabled
  {
  }

  // --- stores while holding the lock ---

  lemma AdvanceJoinGood(m: Machine, p: Policy)
    requires Good(m, p) && IsJoining(m.writer)
    ensures Good(AdvanceJoin(m), p)
  {
    hide Inv, Tables, Stored, JoinDup;
    var c, cs := m.writer.c, At(m.heap, m.writer.sid);
    match m.writer
    case RegMarkedNew(_, _, _) =>
      StoreTo(m, c.key, cs.(dup := JoinDup(cs, c)));
    case RegJoined(_, _) =>
      StoreTo(m, c.key, cs.(active := Some(c)));
      Unfocus(AdvanceJoin(m).heap, m.table, m.spec.clients, c.key);
      RegisterKeeps(m.spec, m.live, p, c);
      ActiveIsLive(m.spec, m.live, p, c.key);
    case _ =>
  }

  lemma ActiveIsLive(r: Reg, live: set<Conn>, p: Policy, k: Key)
    requires Inv(r, live, p)
    ensures TheSet(r, k).active.Some? ==> TheSet(r, k).active.value in live
  {
    if k in r.clients {
      assert SetOk(r.clients[k], ConnsOf(live, k), r.disabled);
      assert ConnsOf(live, k) <= live;
    }
  }

  lemma AdvanceLeaveGood(m: Machine, p: Policy)
    requires Good(m, p) && IsLeaving(m.writer)
    ensures Good(AdvanceLeave(m), p)
  {
    hide Inv, Tables, Stored, Removed, PickActive;
    var c, cs := m.writer.c, At(m.heap, m.writer.sid);
    UnregisterKeeps(m.spec, m.live, p, c);
    match m.writer
    case UnregCleared(_, _) => DropEntry(m, c.key);
    case UnregUnmarked(_, _, remain) =>
      StoreTo(m, c.key, cs.(active := Some(remain)));
      Unfocus(AdvanceLeave(m).heap, m.table, m.spec.clients, c.key);
    case UnregShrunk(_, _) =>
      StoreTo(m, c.key, cs.(active := PickActive(cs, m.disabled)));
      Unfocus(AdvanceLeave(m).heap, m.table, m.spec.clients, c.key);
      PickIgnoresActive(cs, m.disabled);
    case _ =>
  }

  lemma PickIgnoresActive(cs: ClientSet, disabled: set<Conn>)
    ensures cs.dup.Some? ==> PickActive(cs, disabled) == PickActive(ClientSet(None, cs.dup), disabled)
  {
  }

  /** Deleting the entry of a set whose active client was cleared. */
  lemma DropEntry(m: Machine, k: Key)
    requires Tables(m.heap, m.next, m.table, m.readers) && k in m.table && At(m.heap, m.table[k]).active.None?
    requires Stored(m.heap, m.table, m.spec.clients, {k})
    ensures Tables(m.heap, m.next, m.table - {k}, m.readers)
    ensures Stored(m.heap, m.table - {k}, m.spec.clients - {k}, {})
  {
  }

  /** The end of noteClientActivity: nothing for a repeated speaker, one more history entry otherwise. */
  lemma SpeakFinish(r: Reg, p: Policy, c: Conn)
    requires c.key in r.clients && r.clients[c.key].dup.Some? && r.clients[c.key].dup.value.last.Some?
    requires r.clients[c.key].active.Some? ==> r.clients[c.key].active.value in r.clients[c.key].dup.value.members
    ensures var cs := r.clients[c.key];
            var taken := if p.LastWriterIsActive? then ClientSet(Some(c), Some(cs.dup.value.(last := Some(c)))) else cs;
            var fights := Fighting(cs.dup.value, p, c) && !RepeatsLast(cs.dup.value, c);
            && c.key in Speak(r, p, c).clients
            && Speak(r, p, c).clients[c.key] ==
                 (if RepeatsLast(cs.dup.value, c) then taken
                  else AppendSpeaker(if fights then cs.(active := None) else taken, c))
            && Speak(r, p, c).disabled == (if fights then r.disabled + cs.dup.value.members else r.disabled)
  {
  }

  /** The speaker's set differs from the one before at most in `active` and `last`. */
  lemma SpeakTakenSees(m: Machine, p: Policy)
    requires Progress(m, p) && m.writer.SpeakTaken?
    ensures var c, cs, was := m.writer.c, At(m.heap, m.writer.sid), TheSet(m.writer.before, m.writer.c.key);
            && cs.dup.Some? && was.dup.Some?
            && (RepeatsLast(cs.dup.value, c) <==> RepeatsLast(was.dup.value, c))
            && (Fighting(cs.dup.value, p, c) <==> Fighting(was.dup.value, p, c))
            && cs == (if p.LastWriterIsActive? then ClientSet(Some(c), Some(was.dup.value.(last := Some(c)))) else was)
            && Stored(m.heap, m.table, m.spec.clients, {c.key})
            && c.key in m.spec.clients && c.key in m.writer.before.clients
            && m.isDup == m.spec.isDup && m.disabled == m.spec.disabled
            && m.spec == (if p.LastWriterIsActive? then Speak(m.writer.before, p, c) else m.writer.before)
            && was.dup.value.last.Some? && (was.active.Some? ==> was.active.value in was.dup.value.members)
  {
    hide Stored, Speak;
  }

  lemma AdvanceSpeakGood(m: Machine, p: Policy)
    requires Good(m, p) && m.writer.SpeakTaken?
    ensures Good(AdvanceSpeak(m, p), p)
  {
    hide Good, Progress;
    assert Progress(m, p) by { GoodParts(m, p); }
    SpeakTakenSees(m, p);
    var c, cs := m.writer.c, At(m.heap, m.writer.sid);
    if RepeatsLast(cs.dup.value, c) {
      SpeakSilently(m, p);
    } else if Fighting(cs.dup.value, p, c) {
      SpeakFights(m, p);
    } else {
      SpeakLogged(m, p);
    }
  }

  lemma GoodParts(m: Machine, p: Policy)
    requires Good(m, p)
    ensures Shape(m) && Progress(m, p) && WriterOk(m) && Inv(m.spec, m.live, p)
  {
  }

  lemma IdleProgress(m: Machine, p: Policy)
    requires m.writer.Idle? && Stored(m.heap, m.table, m.spec.clients, {})
    requires m.isDup == m.spec.isDup && m.disabled == m.spec.disabled
    ensures Progress(m, p)
  {
  }

  lemma WriterParts(m: Machine)
    requires WriterOk(m)
    ensures m.live <= m.ever && m.spec.isDup <= m.ever && m.spec.disabled <= m.ever
    ensures !m.writer.Idle? && !IsJoining(m.writer) ==> m.writer.c in m.live
  {
  }

  lemma IdleWriter(m: Machine)
    requires m.writer.Idle? && m.live <= m.ever && m.spec.isDup <= m.ever && m.spec.disabled <= m.ever
    ensures WriterOk(m)
  {
  }

  lemma SameWriter(m: Machine, m': Machine)
    requires WriterOk(m) && m.writer.SpeakDisabling? && m'.writer.SpeakDisabling? && m'.writer.c == m.writer.c
    requires m'.live == m.live && m'.ever == m.ever && m'.spec == m.spec
    ensures WriterOk(m')
  {
  }

  lemma SpeakSilently(m: Machine, p: Policy)
    requires Good(m, p) && m.writer.SpeakTaken? && At(m.heap, m.writer.sid).dup.Some?
    requires RepeatsLast(At(m.heap, m.writer.sid).dup.value, m.writer.c)
    ensures Good(Spoken(m, p, m.writer.c), p)
  {
    var c := m.writer.c;
    hide Inv, Tables, Stored, Speak, RepeatsLast, Fighting, AppendSpeaker, Progress, WriterOk;
    WriterParts(m);
    SpeakTakenSees(m, p);
    SpeakInv(m.spec, m.live, p, c);
    SpeakFinish(m.writer.before, p, c);
    SpeakChanges(m.spec, p, c);
    Settle(m.heap, m.table, m.spec.clients, Spoken(m, p, c).spec.clients, c.key);
    IdleProgress(Spoken(m, p, c), p);
    IdleWriter(Spoken(m, p, c));
  }

  lemma SpeakFights(m: Machine, p: Policy)
    requires Good(m, p) && m.writer.SpeakTaken? && At(m.heap, m.writer.sid).dup.Some?
    requires !RepeatsLast(At(m.heap, m.writer.sid).dup.value, m.writer.c)
    requires Fighting(At(m.heap, m.writer.sid).dup.value, p, m.writer.c)
    ensures Good(m.(writer := SpeakDisabling(m.writer.c, m.writer.sid, At(m.heap, m.writer.sid).dup.value.members)), p)
  {
    hide Inv, Tables, Stored, Speak, RepeatsLast, AppendSpeaker;
    SpeakTakenSees(m, p);
    SpeakerSetHolds(m.spec, m.live, p, m.writer.c);
  }

  lemma SpeakLogged(m: Machine, p: Policy)
    requires Good(m, p) && m.writer.SpeakTaken? && At(m.heap, m.writer.sid).dup.Some?
    requires !RepeatsLast(At(m.heap, m.writer.sid).dup.value, m.writer.c)
    requires !Fighting(At(m.heap, m.writer.sid).dup.value, p, m.writer.c)
    ensures Good(Spoken(Put(m, m.writer.sid, AppendSpeaker(At(m.heap, m.writer.sid), m.writer.c)), p, m.writer.c), p)
  {
    var c, cs := m.writer.c, At(m.heap, m.writer.sid);
    hide Inv, Tables, Stored, Speak, RepeatsLast, Fighting, AppendSpeaker, Progress, WriterOk;
    WriterParts(m);
    SpeakTakenSees(m, p);
    SpeakInv(m.spec, m.live, p, c);
    SpeakFinish(m.writer.before, p, c);
    SpeakChanges(m.spec, p, c);
    StoreLast(m, c.key, AppendSpeaker(cs, c), Spoken(m, p, c).spec.clients);
    IdleProgress(Spoken(Put(m, m.writer.sid, AppendSpeaker(cs, c)), p, c), p);
    IdleWriter(Spoken(Put(m, m.writer.sid, AppendSpeaker(cs, c)), p, c));
  }

  lemma AdvanceDisableGood(m: Machine, p: Policy, pick: Conn)
    requires Good(m, p) && m.writer.SpeakDisabling?
    ensures Good(AdvanceDisable(m, p, pick), p)
  {
    if m.writer.todo == {} {
      DisabledAllGood(m, p, pick);
    } else if pick in m.writer.todo {
      DisableOneGood(m, p, pick);
    }
  }

  lemma DisablingSees(m: Machine, p: Policy)
    requires Progress(m, p) && m.writer.SpeakDisabling?
    ensures var c, cs, todo := m.writer.c, TheSet(m.spec, m.writer.c.key), m.writer.todo;
            && p.DisableFighters? && c.key in m.spec.clients && cs.dup.Some? && todo <= cs.dup.value.members
            && Fighting(cs.dup.value, p, c) && !RepeatsLast(cs.dup.value, c)
            && At(m.heap, m.writer.sid) ==
                cs.(active := if cs.active.Some? && cs.active.value in todo then cs.active else None)
            && Stored(m.heap, m.table, m.spec.clients, {c.key})
            && m.isDup == m.spec.isDup && m.disabled == m.spec.disabled + (cs.dup.value.members - todo)
  {
    hide Stored;
  }

  lemma DisabledAllGood(m: Machine, p: Policy, pick: Conn)
    requires Good(m, p) && m.writer.SpeakDisabling? && m.writer.todo == {}
    ensures Good(AdvanceDisable(m, p, pick), p)
  {
    var c, cs := m.writer.c, At(m.heap, m.writer.sid);
    hide Inv, Tables, Stored, Speak, RepeatsLast, Fighting, AppendSpeaker, Progress, WriterOk;
    WriterParts(m);
    DisablingSees(m, p);
    SpeakerSetHolds(m.spec, m.live, p, c);
    SpeakInv(m.spec, m.live, p, c);
    SpeakFinish(m.spec, p, c);
    SpeakChanges(m.spec, p, c);
    StoreLast(m, c.key, AppendSpeaker(cs, c), Spoken(m, p, c).spec.clients);
    IdleProgress(Spoken(Put(m, m.writer.sid, AppendSpeaker(cs, c)), p, c), p);
    IdleWriter(Spoken(Put(m, m.writer.sid, AppendSpeaker(cs, c)), p, c));
  }

  lemma DisablingProgress(m: Machine, p: Policy)
    requires m.writer.SpeakDisabling?
    requires var c, cs, todo := m.writer.c, TheSet(m.spec, m.writer.c.key), m.writer.todo;
            && p.DisableFighters? && c.key in m.spec.clients && cs.dup.Some? && todo <= cs.dup.value.members
            && Fighting(cs.dup.value, p, c) && !RepeatsLast(cs.dup.value, c)
            && At(m.heap, m.writer.sid) ==
                cs.(active := if cs.active.Some? && cs.active.value in todo then cs.active else None)
            && Stored(m.heap, m.table, m.spec.clients, {c.key})
            && m.isDup == m.spec.isDup && m.disabled == m.spec.disabled + (cs.dup.value.members - todo)
    ensures Progress(m, p)
  {
    hide Stored;
  }

  lemma DisableOneGood(m: Machine, p: Policy, pick: Conn)
    requires Good(m, p) && m.writer.SpeakDisabling? && pick in m.writer.todo
    ensures Good(AdvanceDisable(m, p, pick), p)
  {
    var c, cs := m.writer.c, At(m.heap, m.writer.sid);
    hide Inv, Tables, Stored, Speak, RepeatsLast, Fighting, AppendSpeaker, Progress, WriterOk;
    WriterParts(m);
    DisablingSees(m, p);
    StoreTo(m, c.key, if cs.active == Some(pick) then cs.(active := None) else cs);
    DisablingProgress(AdvanceDisable(m, p, pick), p);
    SameWriter(m, AdvanceDisable(m, p, pick));
  }

  lemma ReaderGood(m: Machine, p: Policy, s: Step)
    requires Good(m, p) && (s.LoadSet? || s.LoadActive?)
    ensures Good(Next(m, p, s), p)
  {
    hide Inv, Stored;
  }

  lemma NextGood(m: Machine, p: Policy, s: Step)
    requires Good(m, p)
    ensures Good(Next(m, p, s), p)
  {
    hide Good;
    match s
    case BeginRegister(c) => if m.writer.Idle? && c !in m.ever { BeginRegGood(m, p, c); }
    case BeginUnregister(c) => if m.writer.Idle? && c in m.live && c.key in m.table { BeginUnregGood(m, p, c); }
    case BeginSpeak(c) => if m.writer.Idle? && c in m.live && c.key in m.table { BeginNoteGood(m, p, c); }
    case WriterStep(pick) =>
      if IsJoining(m.writer) { AdvanceJoinGood(m, p); }
      else if IsLeaving(m.writer) { AdvanceLeaveGood(m, p); }
      else if m.writer.SpeakTaken? { AdvanceSpeakGood(m, p); }
      else if m.writer.SpeakDisabling? { AdvanceDisableGood(m, p, pick); }
    case _ => ReaderGood(m, p, s);
  }

  // ---------- theorems over every run ----------

  /** The machine after a run, from the empty server. */
  ghost function Run(p: Policy, steps: seq<Step>): Machine {
    if steps == [] then Start else Next(Run(p, steps[..|steps| - 1]), p, steps[|steps| - 1])
  }

  lemma {:induction false} RunGood(p: Policy, steps: seq<Step>)
    ensures Good(Run(p, steps), p)
  {
    if steps != [] {
      hide Good;
      RunGood(p, steps[..|steps| - 1]);
      NextGood(Run(p, steps[..|steps| - 1]), p, steps[|steps| - 1]);
    }
  }

  /** Linearizability of the fast path. In every interleaving, a client that a reader's second load
      returns is, at that instant, the active client of the set stored under the key it looked up,
      and the active client of that key in the serialised registry. */
  lemma FastPathLinearizable(p: Policy, steps: seq<Step>, reader: nat, k: Key, sid: SetId, to: Conn)
    requires reader in Run(p, steps).readers && Run(p, steps).readers[reader] == Holds(k, sid)
    requires Next(Run(p, steps), p, LoadActive(reader)).readers[reader] == Delivered(k, to)
    ensures var m := Run(p, steps);
            && k in m.table && m.table[k] == sid && At(m.heap, sid).active == Some(to)
            && k in m.spec.clients && m.spec.clients[k].active == Some(to)
  {
    RunGood(p, steps);
    hide Inv;
  }

  /** Between two locked sections the shared objects are exactly the serialised registry, which
      satisfies the registry invariant. */
  lemma UnlockedIsAtomic(p: Policy, steps: seq<Step>)
    requires Run(p, steps).writer.Idle?
    ensures var m := Run(p, steps);
            && m.table.Keys == m.spec.clients.Keys
            && (forall k :: k in m.table ==> At(m.heap, m.table[k]) == m.spec.clients[k])
            && m.isDup == m.spec.isDup && m.disabled == m.spec.disabled
            && Inv(m.spec, m.live, p)
  {
    RunGood(p, steps);
    hide Inv;
  }

  ghost predicate Detached(m: Machine, sid: SetId) {
    sid in m.heap && !(m.heap[sid].key in m.table && m.table[m.heap[sid].key] == sid)
  }

  /** A set that has left the map keeps a nil active client in every continuation. */
  lemma {:induction false} RemovedSetStaysNil(p: Policy, steps: seq<Step>, more: seq<Step>, sid: SetId)
    requires Detached(Run(p, steps), sid)
    ensures Detached(Run(p, steps + more), sid) && At(Run(p, steps + more).heap, sid).active.None?
  {
    hide Inv, Progress, WriterOk, Next;
    if more == [] {
      assert steps + more == steps;
    } else {
      var front := more[..|more| - 1];
      RemovedSetStaysNil(p, steps, front, sid);
      assert (steps + more)[..|steps + more| - 1] == steps + front;
      RunGood(p, steps + front);
      StaysDetached(Run(p, steps + front), p, more[|more| - 1], sid);
    }
    RunGood(p, steps + more);
  }

  /** Stores never change which key a set belongs to, and the map only gains new sets. */
  ghost predicate KeepsSets(m: Machine, m': Machine) {
    && (forall sid :: sid in m.heap ==> sid in m'.heap && m'.heap[sid].key == m.heap[sid].key)
    && (forall k :: k in m'.table ==> (k in m.table && m'.table[k] == m.table[k]) || m'.table[k] == m.next)
  }

  lemma BeginKeepsSets(m: Machine, p: Policy, c: Conn)
    requires forall sid :: sid in m.heap ==> sid < m.next
    ensures KeepsSets(m, BeginReg(m, c))
    ensures c.key in m.table ==> KeepsSets(m, BeginUnreg(m, c)) && KeepsSets(m, BeginNote(m, p, c))
  {
    hide Speak, Removed;
  }

  lemma JoinKeepsSets(m: Machine)
    requires IsJoining(m.writer)
    ensures KeepsSets(m, AdvanceJoin(m))
  {
    hide Register, JoinDup;
  }

  lemma LeaveKeepsSets(m: Machine)
    requires IsLeaving(m.writer)
    ensures KeepsSets(m, AdvanceLeave(m))
  {
    hide Unregister, PickActive;
  }

  lemma SpeakKeepsSets(m: Machine, p: Policy, pick: Conn)
    ensures m.writer.SpeakTaken? ==> KeepsSets(m, AdvanceSpeak(m, p))
    ensures m.writer.SpeakDisabling? ==> KeepsSets(m, AdvanceDisable(m, p, pick))
  {
    hide Speak, AppendSpeaker, RepeatsLast, Fighting;
  }

  lemma AdvanceKeepsSets(m: Machine, p: Policy, pick: Conn)
    ensures KeepsSets(m, Advance(m, p, pick))
  {
    hide AdvanceJoin, AdvanceLeave, AdvanceSpeak, AdvanceDisable;
    SpeakKeepsSets(m, p, pick);
    if IsJoining(m.writer) {
      JoinKeepsSets(m);
    } else if IsLeaving(m.writer) {
      LeaveKeepsSets(m);
    }
  }

  lemma WritersKeepSets(m: Machine, p: Policy, s: Step)
    requires Shape(m)
    ensures KeepsSets(m, Next(m, p, s))
  {
    hide BeginReg, BeginUnreg, BeginNote, Advance;
    match s
    case BeginRegister(c) => BeginKeepsSets(m, p, c);
    case BeginUnregister(c) => BeginKeepsSets(m, p, c);
    case BeginSpeak(c) => BeginKeepsSets(m, p, c);
    case WriterStep(pick) => AdvanceKeepsSets(m, p, pick);
    case _ =>
  }

  lemma StaysDetached(m: Machine, p: Policy, s: Step, sid: SetId)
    requires Shape(m) && Detached(m, sid)
    ensures Detached(Next(m, p, s), sid)
  {
    WritersKeepSets(m, p, s);
    hide Next;
  }
}
