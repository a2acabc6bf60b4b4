/**
 The server and the drain of one watcher as one machine: each locked section of the server appends to the
 watcher's slice what it logs for it, record by record, while request goroutines and the watcher's send loop
 run in between.
 */
module MeshDelivery {
  import opened Basics
  import opened Connections
  import S = ServerState
  import Theorems = ServerTheorems
  import R = Registry
  import V = MeshView
  import D = MeshDrain

  /** The server's events so far, the watcher's drain, and the records that the section under way has yet to append. */
  datatype World = World(served: seq<S.Event>, d: D.State, todo: seq<V.Record>)

  datatype Event =
    | Serve(e: S.Event)                            // a section of the server takes the lock
    | Append(id: D.Buf, spare: seq<V.Record>)      // it appends the next record for the watcher
    | Drain(step: D.Event)                         // anything else the drain machine does, unlocking included

  ghost function LogOf(p: R.Policy, self: Key, served: seq<S.Event>, w: Conn): seq<V.Record> {
    V.Log(S.Run(p, self, served).views, w)
  }

  ghost predicate Enabled(x: World, e: Event) {
    match e
    case Serve(_) => !x.d.locked
    case Append(id, _) => x.d.locked && x.todo != [] && id !in x.d.mem
    case Drain(e) => !e.Lock? && !e.Append? && (e.Unlock? ==> x.todo == [])
  }

  ghost function Step(p: R.Policy, self: Key, w: Conn, x: World, e: Event): World {
    if !Enabled(x, e) then x
    else
      match e
      case Serve(e) =>
        var before, after := LogOf(p, self, x.served, w), LogOf(p, self, x.served + [e], w);
        World(x.served + [e], D.Step(x.d, D.Lock), if |before| <= |after| then after[|before|..] else [])
      case Append(id, spare) => World(x.served, D.Step(x.d, D.Append(x.todo[0], id, spare)), x.todo[1..])
      case Drain(e) => x.(d := D.Step(x.d, e))
  }

  ghost function Run(p: R.Policy, self: Key, w: Conn, events: seq<Event>): World {
    if events == [] then World([], D.Start, [])
    else Step(p, self, w, Run(p, self, w, events[..|events| - 1]), events[|events| - 1])
  }

  // ---------- what the server logs for a watcher only grows ----------

  lemma LogGrows(s: S.State, p: R.Policy, self: Key, e: S.Event, w: Conn)
    ensures V.Log(s.views, w) <= V.Log(S.Step(s, p, self, e).views, w)
  {
    hide R.Unregister, R.Register, R.Speak;
  }

  lemma LogSnoc(p: R.Policy, self: Key, served: seq<S.Event>, e: S.Event, w: Conn)
    ensures LogOf(p, self, served, w) <= LogOf(p, self, served + [e], w)
  {
    assert (served + [e])[..|served|] == served;
    hide S.Step;
    LogGrows(S.Run(p, self, served), p, self, e, w);
  }

  // ---------- invariant ----------

  ghost predicate Inv(p: R.Policy, self: Key, w: Conn, x: World) {
    && D.Inv(x.d)
    && x.d.enqueued + x.todo == LogOf(p, self, x.served, w)
    && (x.todo != [] ==> x.d.locked)
  }

  lemma EnqueuedAfter(d: D.State, e: D.Event)
    ensures D.Step(d, e).enqueued == if D.Enabled(d, e) && e.Append? then d.enqueued + [e.r] else d.enqueued
    ensures !e.Unlock? && d.locked ==> D.Step(d, e).locked
    ensures e.Lock? ==> D.Step(d, e).locked
  {
  }

  lemma ServeKeeps(p: R.Policy, self: Key, w: Conn, x: World, e: S.Event)
    requires Inv(p, self, w, x) && !x.d.locked
    ensures Inv(p, self, w, Step(p, self, w, x, Serve(e)))
  {
    hide D.Inv, D.Step, LogOf;
    D.StepKeeps(x.d, D.Lock);
    EnqueuedAfter(x.d, D.Lock);
    LogSnoc(p, self, x.served, e, w);
    assert x.d.enqueued + x.todo == x.d.enqueued;
    Remaining(LogOf(p, self, x.served, w), LogOf(p, self, x.served + [e], w));
  }

  lemma AppendKeeps(p: R.Policy, self: Key, w: Conn, x: World, id: D.Buf, spare: seq<V.Record>)
    requires Inv(p, self, w, x) && x.d.locked && x.todo != [] && id !in x.d.mem
    ensures Inv(p, self, w, Step(p, self, w, x, Append(id, spare)))
  {
    hide D.Inv, D.Step, LogOf;
    D.StepKeeps(x.d, D.Append(x.todo[0], id, spare));
    EnqueuedAfter(x.d, D.Append(x.todo[0], id, spare));
    TakeFirst(x.d.enqueued, x.todo);
  }

  lemma DrainKeeps(p: R.Policy, self: Key, w: Conn, x: World, e: D.Event)
    requires Inv(p, self, w, x) && !e.Append? && (e.Unlock? ==> x.todo == [])
    ensures Inv(p, self, w, x.(d := D.Step(x.d, e)))
  {
    hide D.Inv, D.Step, LogOf;
    D.StepKeeps(x.d, e);
    EnqueuedAfter(x.d, e);
  }

  lemma StepKeeps(p: R.Policy, self: Key, w: Conn, x: World, e: Event)
    requires Inv(p, self, w, x)
    ensures Inv(p, self, w, Step(p, self, w, x, e))
  {
    hide Inv;
    if Enabled(x, e) {
      match e
      case Serve(e) => ServeKeeps(p, self, w, x, e);
      case Append(id, spare) => AppendKeeps(p, self, w, x, id, spare);
      case Drain(e) => DrainKeeps(p, self, w, x, e);
    }
  }

  lemma TakeFirst(done: seq<V.Record>, todo: seq<V.Record>)
    requires todo != []
    ensures done + [todo[0]] + todo[1..] == done + todo
  {
  }

  lemma Remaining(before: seq<V.Record>, after: seq<V.Record>)
    requires before <= after
    ensures before + after[|before|..] == after
  {
  }

  lemma {:induction false} RunKeeps(p: R.Policy, self: Key, w: Conn, events: seq<Event>)
    ensures Inv(p, self, w, Run(p, self, w, events))
  {
    hide Step, D.Inv;
    if events == [] {
      StartInv(p, self, w);
    } else {
      RunKeeps(p, self, w, events[..|events| - 1]);
      StepKeeps(p, self, w, Run(p, self, w, events[..|events| - 1]), events[|events| - 1]);
    }
  }

  lemma StartInv(p: R.Policy, self: Key, w: Conn)
    ensures Inv(p, self, w, World([], D.Start, []))
  {
  }

  // ---------- over every interleaving ----------

  /** What has been written to the watcher, what its send loop is writing and what is pending are, in order, all
      that the server logged for it. */
  lemma DeliversTheLog(p: R.Policy, self: Key, w: Conn, events: seq<Event>)
    ensures var x := Run(p, self, w, events);
      && (!x.d.locked && !x.d.sender.Stopped? ==>
            x.d.written + D.Rest(x.d.mem, x.d.sender) + D.Contents(x.d.mem, x.d.pending) == LogOf(p, self, x.served, w))
      && x.d.written <= LogOf(p, self, x.served, w)
  {
    hide Run, LogOf;
    RunKeeps(p, self, w, events);
    var x := Run(p, self, w, events);
    assert x.d.written <= x.d.enqueued;
    assert x.todo == [] ==> x.d.enqueued + x.todo == x.d.enqueued;
  }

  /** Under lastWriterIsActive, at every unlock, an enrolled watcher that replays what was written to it and then
      what is still on its way knows exactly the keys with a local connection; and once its send loop has nothing
      left to do, what was written suffices. */
  lemma WatcherKnowsLocalKeys(self: Key, w: Conn, events: seq<Event>)
    requires w in S.Run(R.LastWriterIsActive, self, Run(R.LastWriterIsActive, self, w, events).served).views.watchers
    ensures var x := Run(R.LastWriterIsActive, self, w, events);
      var keys := Theorems.LocalKeySet(S.Run(R.LastWriterIsActive, self, x.served).live);
      && (!x.d.locked && !x.d.sender.Stopped? ==>
            V.Replay(x.d.written + D.Rest(x.d.mem, x.d.sender) + D.Contents(x.d.mem, x.d.pending)) == keys)
      && (!x.d.locked && x.d.sender.AtSelect? && !x.d.token && x.d.requests == 0 ==> V.Replay(x.d.written) == keys)
  {
    var p := R.LastWriterIsActive;
    var x := Run(p, self, w, events);
    hide Run, S.Run, V.Replay;
    DeliversTheLog(p, self, w, events);
    Theorems.WatchersSeeLocalKeys(self, x.served, w);
    RunKeeps(p, self, w, events);
    if !x.d.locked && x.d.sender.AtSelect? && !x.d.token && x.d.requests == 0 { QuietHasWritten(x.d); }
  }

  lemma QuietHasWritten(d: D.State)
    requires D.Inv(d) && !d.locked && d.sender.AtSelect? && !d.token && d.requests == 0
    ensures d.written + D.Rest(d.mem, d.sender) + D.Contents(d.mem, d.pending) == d.written
  {
  }
}
