/**
 How one watcher's records reach its connection: broadcasts append to the `peerStateChange` slice under
 the server lock, a wake token travels through a one-slot channel, and the send loop drains the slice
 while other goroutines go on appending. Slices share backing buffers in memory, as the drain recycles
 the last batch it wrote.
 */
module MeshDrain {
  import opened Basics
  import opened MeshView

  type Buf = nat

  /** A slice: a prefix of a backing buffer, or nil. */
  datatype Slice = Slice(buf: Option<Buf>, len: nat)

  const Nil := Slice(None, 0)

  /** Where the send loop is: at its select, about to call takeAll, inside the batch, or gone. */
  datatype Sender = AtSelect | Taking(last: Slice) | Writing(batch: Slice, next: nat) | Stopped

  datatype State = State(
    mem: map<Buf, seq<Record>>,    // every buffer allocated, over its whole capacity
    pending: Slice,
    locked: bool,                  // an appender holds the server lock
    owed: bool,                    // it has appended and not yet spawned requestMeshUpdate
    token: bool,                   // the one-slot channel is full
    requests: nat,                 // requestMeshUpdate goroutines not yet run
    sender: Sender,
    written: seq<Record>,
    enqueued: seq<Record>)

  const Start := State(map[], Nil, false, false, false, 0, AtSelect, [], [])

  datatype Event =
    | Lock
    | Append(r: Record, id: Buf, spare: seq<Record>)   // the buffer allocated if append must grow, and its spare room
    | Request                      // `go requestMeshUpdate()`, still under the lock
    | Unlock
    | RequestRuns
    | Wake
    | TakeAll
    | Write(ok: bool)
    | EndBatch
    | Stop

  const ReuseLimit: nat := 16

  function Cap(mem: map<Buf, seq<Record>>, s: Slice): nat {
    if s.buf.Some? && s.buf.value in mem then |mem[s.buf.value]| else 0
  }

  /** What the slice reads from memory now. */
  function Contents(mem: map<Buf, seq<Record>>, s: Slice): seq<Record> {
    if s.buf.Some? && s.buf.value in mem && s.len <= |mem[s.buf.value]| then mem[s.buf.value][..s.len] else []
  }

  predicate Enabled(s: State, e: Event) {
    match e
    case Lock => !s.locked
    case Append(_, id, _) => s.locked && id !in s.mem
    case Request => s.locked
    case Unlock => s.locked && !s.owed
    case RequestRuns => s.requests > 0
    case Wake => s.sender.AtSelect? && s.token
    case TakeAll => s.sender.Taking? && !s.locked
    case Write(_) => s.sender.Writing? && s.sender.next < s.sender.batch.len
    case EndBatch => s.sender.Writing? && s.sender.next == s.sender.batch.len
    case Stop => s.sender.AtSelect?
  }

  /** Go's append: in place while the buffer has room, otherwise a copy in a fresh, larger buffer. */
  function OnAppend(s: State, r: Record, id: Buf, spare: seq<Record>): State {
    var n := s.pending.len;
    var s' := s.(enqueued := s.enqueued + [r], owed := true);
    if n < Cap(s.mem, s.pending) then
      var b := s.pending.buf.value;
      s'.(mem := s.mem[b := s.mem[b][n := r]], pending := Slice(Some(b), n + 1))
    else
      s'.(mem := s.mem[id := Contents(s.mem, s.pending) + [r] + spare], pending := Slice(Some(id), n + 1))
  }

  function OnTakeAll(s: State): State
    requires s.sender.Taking?
  {
    if s.pending.len == 0 then s.(sender := AtSelect)
    else
      var last := if Cap(s.mem, s.sender.last) > ReuseLimit then Nil else s.sender.last;
      s.(sender := Writing(s.pending, 0), pending := Slice(last.buf, 0))
  }

  function OnWrite(s: State, ok: bool): State
    requires s.sender.Writing? && s.sender.next < s.sender.batch.len
  {
    var batch := Contents(s.mem, s.sender.batch);
    if ok && s.sender.next < |batch| then
      s.(written := s.written + [batch[s.sender.next]], sender := s.sender.(next := s.sender.next + 1))
    else
      s.(sender := Stopped)
  }

  function Step(s: State, e: Event): State {
    if !Enabled(s, e) then s
    else
      match e
      case Lock => s.(locked := true)
      case Append(r, id, spare) => OnAppend(s, r, id, spare)
      case Request => s.(requests := s.requests + 1, owed := false)
      case Unlock => s.(locked := false)
      case RequestRuns => s.(requests := s.requests - 1, token := true)
      case Wake => s.(token := false, sender := Taking(Nil))
      case TakeAll => OnTakeAll(s)
      case Write(ok) => OnWrite(s, ok)
      case EndBatch => s.(sender := Taking(s.sender.batch))
      case Stop => s.(sender := Stopped)
  }

  function Run(events: seq<Event>): State {
    if events == [] then Start else Step(Run(events[..|events| - 1]), events[|events| - 1])
  }

  // ---------- wake-ups and buffers ----------

  function HowMany(events: seq<Event>, wakes: bool): nat {
    if events == [] then 0
    else
      var front, e := events[..|events| - 1], events[|events| - 1];
      HowMany(front, wakes) + if Enabled(Run(front), e) && (if wakes then e.Wake? else e.Request?) then 1 else 0
  }

  /** Every wake-up was asked for, and requests merge but never multiply. */
  lemma {:induction false} WakesWereRequested(events: seq<Event>)
    ensures HowMany(events, true) + Run(events).requests + (if Run(events).token then 1 else 0)
      <= HowMany(events, false)
  {
    if events != [] {
      var n := |events| - 1;
      WakesWereRequested(events[..n]);
      hide Run;
      WakeStep(Run(events[..n]), events[n]);
      RunSnoc(events);
    }
  }

  lemma RunSnoc(events: seq<Event>)
    requires events != []
    ensures Run(events) == Step(Run(events[..|events| - 1]), events[|events| - 1])
  {
  }

  lemma WakeStep(s: State, e: Event)
    ensures var s' := Step(s, e);
      s'.requests + (if s'.token then 1 else 0) + (if Enabled(s, e) && e.Wake? then 1 else 0)
        <= s.requests + (if s.token then 1 else 0) + (if Enabled(s, e) && e.Request? then 1 else 0)
  {
  }

  /** Of the batch just written, takeAll keeps the memory for new records if it has room for at most 16. */
  lemma RecyclesSmallBuffers(s: State)
    requires s.sender.Taking? && s.pending.len > 0
    ensures var s' := OnTakeAll(s);
      && s'.pending == (if Cap(s.mem, s.sender.last) <= 16 then Slice(s.sender.last.buf, 0) else Slice(None, 0))
      && s'.sender == Writing(s.pending, 0) && s'.mem == s.mem
  {
  }

  // ---------- invariant ----------

  predicate SliceOk(mem: map<Buf, seq<Record>>, s: Slice) {
    if s.buf.None? then s.len == 0 else s.buf.value in mem && s.len <= |mem[s.buf.value]|
  }

  /** The slice the send loop holds on to. */
  function Held(p: Sender): Slice {
    match p
    case Taking(last) => last
    case Writing(batch, _) => batch
    case _ => Nil
  }

  /** What is left to write of the current batch, as memory holds it now. */
  function Rest(mem: map<Buf, seq<Record>>, p: Sender): seq<Record> {
    if p.Writing? && p.next <= |Contents(mem, p.batch)| then Contents(mem, p.batch)[p.next..] else []
  }

  predicate Apart(a: Slice, b: Slice) {
    a.buf.Some? && b.buf.Some? ==> a.buf != b.buf
  }

  predicate Inv(s: State) {
    && SliceOk(s.mem, s.pending)
    && SliceOk(s.mem, Held(s.sender))
    && Apart(s.pending, Held(s.sender))
    && (s.sender.Writing? ==> s.sender.next <= s.sender.batch.len)
    && (if s.sender.Stopped? then s.written <= s.enqueued
        else s.enqueued == s.written + Rest(s.mem, s.sender) + Contents(s.mem, s.pending))
    && (s.owed ==> s.locked)
    && (s.pending.len > 0 ==> Awake(s))
  }

  /** Somebody will still come for the pending records. */
  predicate Awake(s: State) {
    s.owed || s.token || s.requests > 0 || !s.sender.AtSelect?
  }

  lemma AppendKeeps(s: State, r: Record, id: Buf, spare: seq<Record>)
    requires Inv(s) && s.locked && id !in s.mem
    ensures Inv(OnAppend(s, r, id, spare))
  {
    var s' := OnAppend(s, r, id, spare);
    assert Contents(s'.mem, s'.pending) == Contents(s.mem, s.pending) + [r];
    assert Contents(s'.mem, Held(s.sender)) == Contents(s.mem, Held(s.sender));
  }

  lemma WriteKeeps(s: State, ok: bool)
    requires Inv(s) && s.sender.Writing? && s.sender.next < s.sender.batch.len
    ensures Inv(OnWrite(s, ok))
    ensures ok ==> OnWrite(s, ok).sender.Writing?
  {
    var s' := OnWrite(s, ok);
    if ok {
      var batch := Contents(s.mem, s.sender.batch);
      assert batch[s.sender.next..] == [batch[s.sender.next]] + batch[s.sender.next + 1..];
    }
  }

  lemma StepKeeps(s: State, e: Event)
    requires Inv(s)
    ensures Inv(Step(s, e))
  {
    if Enabled(s, e) {
      match e
      case Append(r, id, spare) => AppendKeeps(s, r, id, spare);
      case Write(ok) => WriteKeeps(s, ok);
      case _ =>
    }
  }

  // ---------- over every interleaving ----------

  /** Nothing is lost, repeated, reordered or overwritten: as long as no write has failed, what was
      written, then the rest of the batch, then the pending records are everything ever enqueued. The
      slice being appended to never shares memory with the batch being written. */
  lemma {:induction false} DrainLosesNothing(events: seq<Event>)
    ensures var s := Run(events);
      && Inv(s)
      && (!s.sender.Stopped? ==> s.enqueued == s.written + Rest(s.mem, s.sender) + Contents(s.mem, s.pending))
      && s.written <= s.enqueued
      && (s.sender.Writing? && s.pending.buf.Some? ==> s.pending.buf != s.sender.batch.buf)
  {
    if events != [] {
      DrainLosesNothing(events[..|events| - 1]);
      StepKeeps(Run(events[..|events| - 1]), events[|events| - 1]);
    }
  }

  /** No wake-up is lost: when nothing is left to run and the send loop is back at its select, every
      record ever enqueued has been written, in order. */
  lemma NoLostWakeup(events: seq<Event>)
    ensures var s := Run(events);
      && (s.pending.len > 0 ==> Awake(s))
      && (s.sender.AtSelect? && !s.token && s.requests == 0 && !s.locked ==> s.written == s.enqueued)
  {
    DrainLosesNothing(events);
  }

  /** Writing the rest of one batch, absent write errors. */
  method WriteBatch(s: State) returns (r: State)
    requires Inv(s) && s.sender.Writing?
    ensures Inv(r) && r == s.(written := r.written, sender := Taking(s.sender.batch))
  {
    hide Inv, OnWrite;
    r := s;
    BatchOk(r);
    while r.sender.next < r.sender.batch.len
      invariant Inv(r) && r.sender.Writing?
        && r == s.(written := r.written, sender := Writing(s.sender.batch, r.sender.next))
      invariant r.sender.next <= r.sender.batch.len
      decreases r.sender.batch.len - r.sender.next
    {
      WriteKeeps(r, true);
      WriteMoves(r);
      r := Step(r, Write(true));
      BatchOk(r);
    }
    StepKeeps(r, EndBatch);
    r := Step(r, EndBatch);
  }

  lemma BatchOk(s: State)
    requires Inv(s) && s.sender.Writing?
    ensures s.sender.next <= s.sender.batch.len
  {
  }

  lemma WriteMoves(s: State)
    requires Inv(s) && s.sender.Writing? && s.sender.next < s.sender.batch.len
    ensures var r := OnWrite(s, true);
      r == s.(written := r.written, sender := Writing(s.sender.batch, s.sender.next + 1))
  {
  }

  /** sendMeshUpdates left alone from any reachable point of the send loop: absent write errors it comes
      back to the select with everything written, so the wake-up that started it may safely be spent. */
  method SendMeshUpdates(s: State) returns (r: State)
    requires Inv(s) && !s.locked && s.sender.AtSelect? && s.token
    ensures Inv(r) && r.sender.AtSelect? && r.pending.len == 0
    ensures r.enqueued == s.enqueued && r.written == s.enqueued
    ensures !r.token && r.requests == s.requests
  {
    hide Inv;
    StepKeeps(s, Wake);
    r := Step(s, Wake);
    while r.pending.len > 0
      invariant Inv(r) && r.sender.Taking?
      invariant r.enqueued == s.enqueued && !r.locked && !r.token && r.requests == s.requests
      decreases r.pending.len
    {
      StepKeeps(r, TakeAll);
      r := Step(r, TakeAll);
      r := WriteBatch(r);
    }
    StepKeeps(r, TakeAll);
    r := Step(r, TakeAll);
    AllWritten(r);
  }

  lemma AllWritten(s: State)
    requires Inv(s) && s.sender.AtSelect? && s.pending.len == 0
    ensures s.written == s.enqueued
  {
  }
}
