/**
 Traffic totals that survive restarts: `persisted` is what the file holds, `offset` the session counters
 that are already in it.
 */
module Traffic {
  import opened Basics

  datatype Stats = Stats(bytesRecv: int, bytesSent: int, accepts: int)

  const Zero := Stats(0, 0, 0)

  function Plus(a: Stats, b: Stats): Stats {
    Stats(a.bytesRecv + b.bytesRecv, a.bytesSent + b.bytesSent, a.accepts + b.accepts)
  }

  function Minus(a: Stats, b: Stats): Stats {
    Stats(a.bytesRecv - b.bytesRecv, a.bytesSent - b.bytesSent, a.accepts - b.accepts)
  }

  datatype File = Missing | Unreadable | Holding(stats: Stats)

  // ---------- the object ----------

  class Persister {
    const enabled: bool
    const hasPath: bool
    var persisted: Stats
    var offset: Stats
    var file: File

    constructor (enabled: bool, hasPath: bool, file: File)
      ensures this.enabled == enabled && this.hasPath == hasPath && this.file == file
      ensures persisted == Zero && offset == Zero
    {
      this.enabled, this.hasPath, this.file := enabled, hasPath, file;
      persisted, offset := Zero, Zero;
    }

    /** `current` is the session's counters, read before the lock is taken. */
    method Load(current: Stats) returns (ok: bool)
      modifies this`persisted, this`offset
      ensures ok <==> !enabled || (hasPath && !file.Unreadable?)
      ensures !enabled || !ok ==> persisted == old(persisted) && offset == old(offset)
      ensures enabled && ok ==>
        persisted == FileValue(file) && Minus(persisted, offset) == Minus(FileValue(file), current)
    {
      if !enabled {
        return true;
      }
      if !hasPath || file.Unreadable? {
        return false;
      }
      persisted, offset := FileValue(file), current;
      return true;
    }

    /** `current` may be older than counters another Save has already stored. */
    method Save(current: Stats, writes: bool) returns (ok: bool)
      modifies this`persisted, this`offset, this`file
      ensures Minus(persisted, offset) == Minus(old(persisted), old(offset))
      ensures ok <==> !enabled || (hasPath && writes)
      ensures enabled && ok ==> offset == current && file == Holding(persisted)
      ensures !enabled || !ok ==> file == old(file) && persisted == old(persisted) && offset == old(offset)
    {
      if !enabled {
        return true;
      }
      if !hasPath || !writes {
        return false;
      }
      persisted := Plus(persisted, Minus(current, offset));
      offset, file := current, Holding(persisted);
      return true;
    }

    method Total(current: Stats) returns (total: Stats)
      ensures total == if enabled then Plus(Minus(persisted, offset), current) else Zero
      ensures enabled ==> total.bytesRecv == persisted.bytesRecv + current.bytesRecv - offset.bytesRecv
      ensures enabled ==> total.bytesSent == persisted.bytesSent + current.bytesSent - offset.bytesSent
      ensures enabled ==> total.accepts == persisted.accepts + current.accepts - offset.accepts
    {
      if !enabled {
        return Zero;
      }
      return Plus(persisted, Minus(current, offset));
    }
  }

  function FileValue(f: File): Stats {
    if f.Holding? then f.stats else Zero
  }

  // ---------- interleaved saves ----------

  /** Saves under way, with the counters each has read; `session` is the live counters. */
  datatype State = State(persisted: Stats, offset: Stats, file: File, saving: map<nat, Stats>, session: Stats)

  datatype Event =
    | Count(more: Stats)            // traffic
    | BeginSave(t: nat)             // reads the counters
    | EndSave(t: nat, writes: bool) // under the lock

  function Loaded(f: File, session: Stats): State {
    State(FileValue(f), session, f, map[], session)
  }

  function Step(s: State, e: Event): State {
    match e
    case Count(more) => s.(session := Plus(s.session, more))
    case BeginSave(t) => s.(saving := s.saving[t := s.session])
    case EndSave(t, writes) =>
      if t !in s.saving then s
      else
        var rest := s.saving - {t};
        if !writes then s.(saving := rest)
        else
          var stored := Plus(s.persisted, Minus(s.saving[t], s.offset));
          State(stored, s.saving[t], Holding(stored), rest, s.session)
  }

  function Run(start: State, events: seq<Event>): State {
    if events == [] then start else Step(Run(start, events[..|events| - 1]), events[|events| - 1])
  }

  /** The counters read by the last Save that succeeded, or those at Load. */
  function LastSaved(start: State, events: seq<Event>): Stats {
    if events == [] then start.offset
    else
      var before, e := events[..|events| - 1], events[|events| - 1];
      if e.EndSave? && e.writes && e.t in Run(start, before).saving then Run(start, before).saving[e.t]
      else LastSaved(start, before)
  }

  /** Under any interleaving of successful, failed and stale Saves: the distance between `persisted` and
      `offset` never changes, so the total is the loaded value plus what the session counted since; and the
      file holds the loaded value plus what the session had counted when the last stored Save read it. */
  lemma {:induction false} NothingLostOrCountedTwice(f: File, session: Stats, events: seq<Event>)
    requires !f.Unreadable?
    ensures var s := Run(Loaded(f, session), events);
      && Minus(s.persisted, s.offset) == Minus(FileValue(f), session)
      && s.offset == LastSaved(Loaded(f, session), events)
      && FileValue(s.file) == s.persisted && !s.file.Unreadable?
      && Plus(s.persisted, Minus(s.session, s.offset)) == Plus(FileValue(f), Minus(s.session, session))
  {
    if events != [] {
      NothingLostOrCountedTwice(f, session, events[..|events| - 1]);
    }
  }

  /** The same, counter by counter: received, sent and accepts never mix. */
  lemma TotalsByCounter(f: File, session: Stats, events: seq<Event>)
    requires !f.Unreadable?
    ensures var s := Run(Loaded(f, session), events);
      && s.persisted.bytesRecv == FileValue(f).bytesRecv + (s.offset.bytesRecv - session.bytesRecv)
      && s.persisted.bytesSent == FileValue(f).bytesSent + (s.offset.bytesSent - session.bytesSent)
      && s.persisted.accepts == FileValue(f).accepts + (s.offset.accepts - session.accepts)
  {
    NothingLostOrCountedTwice(f, session, events);
    hide Run;
  }

  // ---------- restarts ----------

  /** One life of the process: its counters at Load, and what happened until it ended. */
  datatype Life = Life(atLoad: Stats, events: seq<Event>)

  function FileAfter(f: File, lives: seq<Life>): File {
    if lives == [] then f
    else
      var last := lives[|lives| - 1];
      Run(Loaded(FileAfter(f, lives[..|lives| - 1]), last.atLoad), last.events).file
  }

  function Counted(f: File, lives: seq<Life>): Stats {
    if lives == [] then Zero
    else
      var before, last := lives[..|lives| - 1], lives[|lives| - 1];
      Plus(Counted(f, before), Minus(LastSaved(Loaded(FileAfter(f, before), last.atLoad), last.events), last.atLoad))
  }

  lemma AddNothing(a: Stats)
    ensures Plus(a, Zero) == a
  {
  }

  lemma OneLife(f: File, life: Life, before: Stats, sum: Stats)
    requires !f.Unreadable? && FileValue(f) == Plus(before, sum)
    ensures var start := Loaded(f, life.atLoad);
      && FileValue(Run(start, life.events).file) ==
          Plus(before, Plus(sum, Minus(LastSaved(start, life.events), life.atLoad)))
      && !Run(start, life.events).file.Unreadable?
  {
    NothingLostOrCountedTwice(f, life.atLoad, life.events);
    hide Run, LastSaved;
  }

  /** Across restarts the file telescopes: it grows by what each life had counted at its last stored Save. */
  lemma {:induction false} RestartsTelescope(f: File, lives: seq<Life>)
    requires !f.Unreadable?
    ensures FileValue(FileAfter(f, lives)) == Plus(FileValue(f), Counted(f, lives)) && !FileAfter(f, lives).Unreadable?
  {
    hide Run, LastSaved, Plus, Minus, FileValue;
    if lives == [] {
      AddNothing(FileValue(f));
    } else {
      var before, last := lives[..|lives| - 1], lives[|lives| - 1];
      RestartsTelescope(f, before);
      OneLife(FileAfter(f, before), last, FileValue(f), Counted(f, before));
    }
  }

  /** The life ends with a Save of the final counters that is stored. */
  predicate EndsSaved(start: State, events: seq<Event>) {
    && events != [] && events[|events| - 1].EndSave? && events[|events| - 1].writes
    && var s, t := Run(start, events[..|events| - 1]), events[|events| - 1].t;
       t in s.saving && s.saving[t] == s.session
  }

  lemma EndsSavedIsFinal(start: State, events: seq<Event>)
    requires EndsSaved(start, events)
    ensures LastSaved(start, events) == Run(start, events).session
  {
  }

  function Total(f: File, lives: seq<Life>): Stats {
    if lives == [] then Zero
    else
      var before, last := lives[..|lives| - 1], lives[|lives| - 1];
      Plus(Total(f, before), Minus(Run(Loaded(FileAfter(f, before), last.atLoad), last.events).session, last.atLoad))
  }

  ghost predicate AllEndSaved(f: File, lives: seq<Life>) {
    forall i :: 0 <= i < |lives| ==> EndsSaved(Loaded(FileAfter(f, lives[..i]), lives[i].atLoad), lives[i].events)
  }

  lemma {:induction false} CountedIsTotal(f: File, lives: seq<Life>)
    requires AllEndSaved(f, lives)
    ensures Counted(f, lives) == Total(f, lives)
  {
    hide Run, LastSaved, EndsSaved, Plus, Minus, FileAfter;
    if lives != [] {
      var n := |lives| - 1;
      var before := lives[..n];
      EndsSavedIsFinal(Loaded(FileAfter(f, before), lives[n].atLoad), lives[n].events);
      assert forall i :: 0 <= i < n ==> lives[i] == before[i] && lives[..i] == before[..i];
      CountedIsTotal(f, before);
    }
  }

  /** If every life ends that way, the file holds the sum of everything all sessions counted. */
  lemma SavedLivesAddUp(f: File, lives: seq<Life>)
    requires !f.Unreadable? && AllEndSaved(f, lives)
    ensures FileValue(FileAfter(f, lives)) == Plus(FileValue(f), Total(f, lives))
  {
    hide AllEndSaved;
    RestartsTelescope(f, lives);
    CountedIsTotal(f, lives);
  }
}
