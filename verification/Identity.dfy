/**
 The identity resolver: a cache filled by lookups that run beside the polls, at most two at a time.
 */
module Identity {
  import opened Basics

  type Key = nat
  type Identity = nat

  /** `creator` is the lookup that resolve started when it made the entry pending. */
  datatype Entry = Pending(creator: nat) | Known(identity: Option<Identity>, expires: int)

  /** A lookup goroutine: before or after its locked section; its slot is freed when it ends. */
  datatype Lookup = Lookup(key: Key, stored: bool)

  datatype State = State(cache: map<Key, Entry>, lookups: map<nat, Lookup>, found: set<(Key, Option<Identity>)>)

  const Start := State(map[], map[], {})
  const Slots: nat := 2
  const FoundTtl: int := 300
  const MissedTtl: int := 60

  datatype Event =
    | Resolve(k: Key, now: int, id: nat)                         // `id` names the lookup it may start
    | Store(id: nat, result: Option<Identity>, now: int)         // the lookup returned
    | End(id: nat)
    | Prune(active: set<Key>)

  predicate Fresh(s: State, k: Key, now: int) {
    k in s.cache && (s.cache[k].Pending? || now < s.cache[k].expires)
  }

  function OnResolve(s: State, k: Key, now: int, id: nat): (State, Option<Identity>) {
    if Fresh(s, k, now) then (s, if s.cache[k].Pending? then None else s.cache[k].identity)
    else if |s.lookups| >= Slots then (s, None)
    else (s.(cache := s.cache[k := Pending(id)], lookups := s.lookups[id := Lookup(k, false)]), None)
  }

  function OnStore(s: State, id: nat, result: Option<Identity>, now: int): State
    requires id in s.lookups
  {
    var k := s.lookups[id].key;
    var s1 := s.(lookups := s.lookups[id := Lookup(k, true)], found := s.found + {(k, result)});
    if k in s.cache && s.cache[k].Pending?
    then s1.(cache := s.cache[k := Known(result, now + if result.Some? then FoundTtl else MissedTtl)])
    else s1
  }

  function OnPrune(s: State, active: set<Key>): State {
    s.(cache := map k | k in s.cache && k in active :: s.cache[k])
  }

  function Step(s: State, e: Event): State {
    match e
    case Resolve(k, now, id) => if id in s.lookups then s else OnResolve(s, k, now, id).0
    case Store(id, result, now) => if id in s.lookups && !s.lookups[id].stored then OnStore(s, id, result, now) else s
    case End(id) => if id in s.lookups && s.lookups[id].stored then s.(lookups := s.lookups - {id}) else s
    case Prune(active) => OnPrune(s, active)
  }

  function Run(events: seq<Event>): State {
    if events == [] then Start else Step(Run(events[..|events| - 1]), events[|events| - 1])
  }

  // ---------- invariant ----------

  /** The lookup that made an entry pending is still before its locked section. */
  ghost predicate PendingOk(s: State) {
    forall k :: k in s.cache && s.cache[k].Pending? ==>
      s.cache[k].creator in s.lookups && s.lookups[s.cache[k].creator] == Lookup(k, false)
  }

  ghost predicate KnownOk(s: State) {
    forall k :: k in s.cache && s.cache[k].Known? ==> (k, s.cache[k].identity) in s.found
  }

  ghost predicate Inv(s: State) {
    |s.lookups| <= 2 && PendingOk(s) && KnownOk(s)
  }

  lemma LookupsAfter(s: State, k: Key, now: int, id: nat, result: Option<Identity>, active: set<Key>)
    ensures var ls := OnResolve(s, k, now, id).0.lookups;
      ls == s.lookups || (|s.lookups| < Slots && ls == s.lookups[id := Lookup(k, false)])
    ensures id in s.lookups ==> OnStore(s, id, result, now).lookups == s.lookups[id := Lookup(s.lookups[id].key, true)]
    ensures OnPrune(s, active).lookups == s.lookups
  {
  }

  lemma SlotsKeep(s: State, e: Event)
    requires |s.lookups| <= Slots
    ensures |Step(s, e).lookups| <= Slots
  {
    hide OnResolve, OnStore, OnPrune;
    match e
    case Resolve(k, now, id) =>
      LookupsAfter(s, k, now, id, None, {});
      MapSizes(s.lookups, id, Lookup(k, false));
    case Store(id, result, now) =>
      if id in s.lookups {
        LookupsAfter(s, 0, now, id, result, {});
        MapSizes(s.lookups, id, Lookup(s.lookups[id].key, true));
      }
    case End(id) => MapSizes(s.lookups, id, Lookup(0, true));
    case Prune(active) => LookupsAfter(s, 0, 0, 0, None, active);
  }

  lemma StepKeeps(s: State, e: Event)
    requires Inv(s)
    ensures Inv(Step(s, e))
  {
    SlotsKeep(s, e);
    EntriesKeep(s, e);
    hide PendingOk, KnownOk, Step;
  }

  lemma EntriesKeep(s: State, e: Event)
    requires PendingOk(s) && KnownOk(s)
    ensures PendingOk(Step(s, e)) && KnownOk(Step(s, e))
  {
    match e
    case Resolve(k, now, id) =>
    case Store(id, result, now) =>
    case End(id) =>
    case Prune(active) =>
  }

  /** In every interleaving of polls, lookups and prunes: at most two lookups are in flight; a pending entry
      always has its creating lookup still ahead of storing a result; and an identity in the cache was found
      by a lookup of that very key. */
  lemma {:induction false} ResolverInvariant(events: seq<Event>)
    ensures Inv(Run(events))
  {
    if events != [] {
      hide Inv;
      ResolverInvariant(events[..|events| - 1]);
      StepKeeps(Run(events[..|events| - 1]), events[|events| - 1]);
    } else {
      assert |Start.lookups| == 0;
    }
  }

  /** No key stays pending after its lookup returned: once a lookup of `k` has stored its result and no other
      is on its way, `k` is not pending, even if a prune dropped the entry and it was requested again. */
  lemma NoStuckKey(events: seq<Event>, k: Key)
    requires forall id :: id in Run(events).lookups && Run(events).lookups[id].key == k ==>
      Run(events).lookups[id].stored
    ensures k in Run(events).cache ==> Run(events).cache[k].Known?
  {
    hide Run;
    ResolverInvariant(events);
  }

  // ---------- the object ----------

  class Resolver {
    var cache: map<Key, Entry>
    var lookups: map<nat, Lookup>
    ghost var found: set<(Key, Option<Identity>)>

    ghost function View(): State
      reads this
    {
      State(cache, lookups, found)
    }

    constructor ()
      ensures View() == Start
    {
      cache, lookups, found := map[], map[], {};
    }

    /** Never waits: an unknown key starts a lookup if a slot is free, and is answered later. */
    method ResolveKey(k: Key, now: int, id: nat) returns (identity: Option<Identity>)
      requires id !in lookups
      modifies this`cache, this`lookups
      ensures (View(), identity) == OnResolve(old(View()), k, now, id)
    {
      if k in cache && (cache[k].Pending? || now < cache[k].expires) {
        return if cache[k].Pending? then None else cache[k].identity;
      }
      if |lookups| >= Slots {
        return None;
      }
      cache := cache[k := Pending(id)];
      lookups := lookups[id := Lookup(k, false)];
      return None;
    }

    method StoreResult(id: nat, result: Option<Identity>, now: int)
      requires id in lookups
      modifies this
      ensures View() == OnStore(old(View()), id, result, now)
    {
      var k := lookups[id].key;
      lookups, found := lookups[id := Lookup(k, true)], found + {(k, result)};
      if k in cache && cache[k].Pending? {
        cache := cache[k := Known(result, now + if result.Some? then FoundTtl else MissedTtl)];
      }
    }

    method PruneTo(active: set<Key>)
      modifies this`cache
      ensures View() == OnPrune(old(View()), active)
    {
      var todo := cache.Keys;
      while todo != {}
        invariant todo <= old(cache).Keys
        invariant forall k :: k in cache <==> k in old(cache) && (k in todo || k in active)
        invariant forall k :: k in cache ==> cache[k] == old(cache)[k]
        decreases |todo|
      {
        var k :| k in todo;
        if k !in active {
          cache := cache - {k};
        }
        todo := todo - {k};
      }
    }
  }

  // ---------- what a caller sees ----------

  /** A result is answered for five minutes if an identity was found and for one if not; after that, and for a key
      never looked up, a lookup starts if fewer than two are under way. */
  lemma AnswersFor(s: State, id: nat, result: Option<Identity>, now: int, later: int, next: nat)
    requires id in s.lookups && !s.lookups[id].stored
    requires s.lookups[id].key in s.cache && s.cache[s.lookups[id].key].Pending?
    ensures var k, s' := s.lookups[id].key, OnStore(s, id, result, now);
      var r := OnResolve(s', k, later, next);
      && (later < now + (if result.Some? then 300 else 60) ==> r == (s', result))
      && (later >= now + (if result.Some? then 300 else 60) ==>
            r.1 == None && (|s'.lookups| < 2 ==> next in r.0.lookups && r.0.lookups[next] == Lookup(k, false)))
  {
  }

  /** A lookup that is not asked for again does not touch a result already there. */
  lemma LateResultIgnored(s: State, id: nat, result: Option<Identity>, now: int)
    requires id in s.lookups && (s.lookups[id].key in s.cache ==> s.cache[s.lookups[id].key].Known?)
    ensures OnStore(s, id, result, now).cache == s.cache
  {
  }
}
