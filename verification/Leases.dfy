/**
 Who owns each port mapping while operations of the endpoint manager interleave: reconcile, Check and
 Sync run one at a time under the operation lock, while maintain's failure path and the loop's final
 release run beside them without it.

 A step is one section under the manager's lock, or a call into the outside world, with two merges. What
 an operation does to its own candidate mapping goes with the call before it: no other operation sees that
 mapping. The writes of the status phase and of the validation result go with the call they announce or
 follow, and a certificate refresh with the section after it: they touch neither mapping, endpoint, network
 nor counts, so they commute with every section of another operation as far as the theorems here and in
 module InterleavedPublish can tell.
 */
module Leases {
  import opened Basics
  import opened Validator
  import opened Manager

  type Thread = nat

  /** Where an operation is. `Asking` is about to call the mapper, `Trying` holds a candidate, `Vetting` is about
      to validate it, `Committing` is about to enter the commit section, `Checking` is about to validate the
      endpoint it has read, `Judged` has the result, `Freeing` has taken a mapping out of the manager and is about
      to release it, `Clearing` is about to enter releaseActive. */
  datatype Point =
    | Asking(env: Env, force: bool)
    | Trying(env: Env, force: bool, c: Candidate)
    | Vetting(env: Env, force: bool, c: Candidate)
    | Committing(env: Env, c: Candidate)
    | Checking(env: Env, current: Endpoint, sync: bool)
    | Judged(env: Env, current: Endpoint, r: Validation, sync: bool)
    | Failing(env: Env)
    | Withdrawing(env: Env)
    | Clearing
    | Freeing(m: Mapping, tail: Tail)
    | Ending(tail: Tail)

  /** What an operation still has to do after the mappings are settled: nothing, publish (a reconcile also
      notes a failed publish), or reset the failure count and publish. */
  datatype Tail = Nothing | Announce(e: Endpoint, ok: bool) | ResetAndAnnounce(e: Endpoint)

  /** Where a mapping that was obtained is now. */
  datatype Place = Held(t: Thread) | Active | Superseded(renewal: Mapping, network: Option<nat>) | GivenBack

  datatype World = World(m: State, threads: map<Thread, Point>, holder: Option<Thread>, place: map<Mapping, Place>)

  datatype Event =
    | BeginReconcile(t: Thread, env: Env, force: bool)
    | BeginCheck(t: Thread, env: Env, sync: bool)
    | BeginLose(t: Thread, env: Env)           // maintain, line 251
    | BeginStop(t: Thread)                     // loop, line 220
    | Go(t: Thread)

  function Holds(p: Point): Option<Mapping> {
    match p
    case Trying(_, _, c) => c.mapping
    case Vetting(_, _, c) => c.mapping
    case Committing(_, c) => c.mapping
    case Freeing(m, _) => Some(m)
    case _ => None
  }

  ghost function At(w: World, t: Thread, m: State, p: Point): World {
    w.(m := m, threads := w.threads[t := p])
  }

  ghost function Finish(w: World, t: Thread, m: State): World {
    World(m, w.threads - {t}, if w.holder == Some(t) then None else w.holder, w.place)
  }

  /** The ledger entry of `x` changes to `p`. */
  ghost function Moved(place: map<Mapping, Place>, x: Option<Mapping>, p: Place): map<Mapping, Place> {
    if x.Some? then place[x.value := p] else place
  }

  ghost function Put(w: World, x: Option<Mapping>, p: Place): World {
    w.(place := Moved(w.place, x, p))
  }

  // ---------- steps ----------

  ghost function GoAsk(cfg: Config, w: World, t: Thread, env: Env, force: bool): World {
    var p := Gather(cfg, w.m, env);
    var w1 := Put(w, AskIPv4(cfg, env).mapping, if p.c.mapping.Some? then Held(t) else GivenBack);
    At(w1, t, p.s, Trying(env, force, p.c))
  }

  ghost function GoTry(cfg: Config, w: World, t: Thread, env: Env, c: Candidate, force: bool): World {
    match Equip(cfg, w.m, env, c)
    case GivenUp(s) => At(Put(w, c.mapping, GivenBack), t, s, Failing(env))
    case Holding(s, c1) => At(w, t, s, Vetting(env, force, c1))
  }

  ghost function GoVet(cfg: Config, w: World, t: Thread, env: Env, c: Candidate, force: bool): World {
    match Vet(cfg, w.m, env, c, force)
    case GivenUp(s) => At(Put(w, c.mapping, GivenBack), t, s, Failing(env))
    case Holding(s, c1) => At(if c1.mapping.None? then Put(w, c.mapping, GivenBack) else w, t, s, Committing(env, c1))
  }

  predicate Replaces(s: State, c: Candidate) {
    s.active.Some? && (s.network != c.network || !SameMapping(s.active.value, c.mapping))
  }

  ghost function GoCommit(cfg: Config, w: World, t: Thread, env: Env, c: Candidate): World {
    var s := Commit(cfg, w.m, c);
    var w1 := Put(w, c.mapping, Active);
    var rest := Announce(c.e, env.publishOk);
    if Replaces(w.m, c) then At(Put(w1, w.m.active, Held(t)), t, s, Freeing(w.m.active.value, rest))
    else if w.m.active.Some? then At(Put(w1, w.m.active, Superseded(c.mapping.value, c.network)), t, s, Ending(rest))
    else At(w1, t, s, Ending(rest))
  }

  ghost function GoCheck(cfg: Config, w: World, t: Thread, env: Env, current: Endpoint, sync: bool): World {
    if sync && !cfg.validate then At(w, t, w.m, Ending(Announce(current, true)))
    else
      var r := env.validate(current);
      At(w, t, Log(w.m, Checked(current, r)).(verdict := r.state), Judged(env, current, r, sync))
  }

  ghost function GoJudged(cfg: Config, w: World, t: Thread, env: Env, current: Endpoint, r: Validation,
                          sync: bool): World {
    if r.state.Failed? then (if cfg.validate then At(w, t, w.m, Failing(env)) else Finish(w, t, w.m))
    else if r.state.Degraded? then GoPrune(cfg, w, t, env, current, r)
    else At(w, t, ResetFailures(w.m, true), Ending(if sync then Announce(current, true) else Nothing))
  }

  /** applyPartialValidation. */
  ghost function GoPrune(cfg: Config, w: World, t: Thread, env: Env, current: Endpoint, r: Validation): World {
    var pruned := Validated(current, r);
    if !HasAddress(pruned) || (cfg.hasCert && !env.certOk) then At(w, t, w.m, Failing(env))
    else
      var s := Prune(cfg, w.m, current, pruned);
      var rest := ResetAndAnnounce(s.endpoint.value);
      if current.ipv4.Some? && pruned.ipv4.None? && w.m.active.Some?
      then At(Put(w, w.m.active, Held(t)), t, s, Freeing(w.m.active.value, rest))
      else At(w, t, s, Ending(rest))
  }

  ghost function GoFail(cfg: Config, w: World, t: Thread, env: Env): World {
    var s := NoteFailure(cfg, w.m);
    if s.withdrawRetry then At(w, t, s, Withdrawing(env)) else Finish(w, t, s)
  }

  ghost function GoClear(w: World, t: Thread): World {
    if w.m.active.Some? then At(Put(w, w.m.active, Held(t)), t, DropActive(w.m), Freeing(w.m.active.value, Nothing))
    else Finish(w, t, DropActive(w.m))
  }

  ghost function GoFree(w: World, t: Thread, x: Mapping, rest: Tail): World {
    At(Put(w, Some(x), GivenBack), t, Release(w.m, Some(x)), Ending(rest))
  }

  ghost function GoEnd(w: World, t: Thread, rest: Tail): World {
    match rest
    case Nothing => Finish(w, t, w.m)
    case Announce(e, ok) =>
      Finish(w, t, if ok then Log(w.m, Published(e)) else Log(w.m, Published(e)).(phase := Limited))
    case ResetAndAnnounce(e) => At(w, t, ResetFailures(w.m, false), Ending(Announce(e, true)))
  }

  ghost function Advance(cfg: Config, w: World, t: Thread): World
    requires t in w.threads
  {
    match w.threads[t]
    case Asking(env, force) => GoAsk(cfg, w, t, env, force)
    case Trying(env, force, c) => GoTry(cfg, w, t, env, c, force)
    case Vetting(env, force, c) => GoVet(cfg, w, t, env, c, force)
    case Committing(env, c) => GoCommit(cfg, w, t, env, c)
    case Checking(env, current, sync) => GoCheck(cfg, w, t, env, current, sync)
    case Judged(env, current, r, sync) => GoJudged(cfg, w, t, env, current, r, sync)
    case Failing(env) => GoFail(cfg, w, t, env)
    case Withdrawing(env) => At(w, t, NoteWithdrawal(w.m, env.withdrawOk), Clearing)
    case Clearing => GoClear(w, t)
    case Freeing(x, rest) => GoFree(w, t, x, rest)
    case Ending(rest) => GoEnd(w, t, rest)
  }

  /** The mapper answers with a new mapping object. */
  ghost predicate FreshAnswer(cfg: Config, w: World, p: Point) {
    p.Asking? && AskIPv4(cfg, p.env).mapping.Some? ==> AskIPv4(cfg, p.env).mapping.value !in w.place
  }

  ghost predicate Enabled(cfg: Config, w: World, e: Event) {
    match e
    case BeginReconcile(t, _, _) => t !in w.threads && w.holder.None?
    case BeginCheck(t, _, _) => t !in w.threads && w.holder.None?
    case BeginLose(t, _) => t !in w.threads && w.m.endpoint.Some?
    case BeginStop(t) => t !in w.threads
    case Go(t) => t in w.threads && FreshAnswer(cfg, w, w.threads[t])
  }

  ghost function Step(cfg: Config, w: World, e: Event): World {
    if !Enabled(cfg, w, e) then w
    else
      match e
      case BeginReconcile(t, env, force) =>
        if !cfg.enabled then w.(m := Log(w.m, Started))
        else
          var q := if ListenersReady(cfg) then Asking(env, force) else Failing(env);
          At(w, t, Log(w.m, Started), q).(holder := Some(t))
      case BeginCheck(t, env, sync) =>
        if w.m.endpoint.None? then w.(m := Log(w.m, Started))
        else At(w, t, Log(w.m, Started), Checking(env, w.m.endpoint.value, sync)).(holder := Some(t))
      case BeginLose(t, env) => At(w, t, w.m, Failing(env))
      case BeginStop(t) => At(w, t, w.m, Clearing)
      case Go(t) => Advance(cfg, w, t)
  }

  ghost function Run(cfg: Config, events: seq<Event>): World {
    if events == [] then World(Initial(cfg), map[], None, map[])
    else Step(cfg, Run(cfg, events[..|events| - 1]), events[|events| - 1])
  }

  // ---------- invariant ----------

  /** Each mapping is in the one place the ledger gives for it. */
  ghost predicate ActiveOk(active: Option<Mapping>, place: map<Mapping, Place>) {
    forall x :: active == Some(x) <==> x in place && place[x].Active?
  }

  ghost predicate HeldOk(threads: map<Thread, Point>, place: map<Mapping, Place>) {
    forall t, x :: (t in threads && Holds(threads[t]) == Some(x)) <==> (x in place && place[x] == Held(t))
  }

  ghost predicate LogOk(log: seq<Action>, place: map<Mapping, Place>) {
    && (forall x :: multiset(log)[Released(x)] == if x in place && place[x].GivenBack? then 1 else 0)
    && (forall x :: multiset(log)[Obtained(x)] == if x in place then 1 else 0)
  }

  /** The same method and the same leases: protocol, ports and address. */
  predicate SameLeases(a: Mapping, b: Mapping) {
    a.via == b.via && a.derp == b.derp && a.stun == b.stun
  }

  ghost predicate SupersededOk(place: map<Mapping, Place>) {
    forall x :: x in place && place[x].Superseded? ==>
        place[x].renewal in place && place[x].renewal != x && SameLeases(x, place[x].renewal)
  }

  ghost predicate Inv(w: World) {
    ActiveOk(w.m.active, w.place) && HeldOk(w.threads, w.place) && LogOk(w.m.log, w.place) && SupersededOk(w.place)
  }

  // ---------- every step keeps it ----------

  /** The actions that count here appear in `added` as often as given. */
  ghost predicate Adds(log: seq<Action>, log': seq<Action>, obtained: Option<Mapping>, released: Option<Mapping>) {
    forall x ::
      && multiset(log')[Obtained(x)] == multiset(log)[Obtained(x)] + (if obtained == Some(x) then 1 else 0)
      && multiset(log')[Released(x)] == multiset(log)[Released(x)] + (if released == Some(x) then 1 else 0)
  }

  lemma AddsBoth(log: seq<Action>, a: Action, x: Mapping)
    requires a.Found?
    ensures Adds(log, log + [a] + [Obtained(x)], Some(x), None)
    ensures Adds(log, log + [a] + [Obtained(x)] + [Released(x)], Some(x), Some(x))
  {
  }

  lemma NothingAdded(log: seq<Action>)
    ensures Adds(log, log, None, None)
  {
  }

  lemma GatherAdds(cfg: Config, s: State, env: Env)
    ensures var p := Gather(cfg, s, env);
      && p.Holding? && p.s.active == s.active
      && (p.c.mapping.Some? ==> p.c.mapping == AskIPv4(cfg, env).mapping)
      && Adds(s.log, p.s.log, AskIPv4(cfg, env).mapping, if p.c.mapping.Some? then None else AskIPv4(cfg, env).mapping)
  {
    hide Adds, AskIPv4, LocalPorts;
    var x := AskIPv4(cfg, env).mapping;
    var found := Discovered(cfg, env);
    if x.Some? { AddsBoth(s.log, found, x.value); } else { PlainAdds(s.log, found); }
  }

  lemma EquipAdds(cfg: Config, s: State, env: Env, c: Candidate)
    ensures var p := Equip(cfg, s, env, c);
      && p.s.active == s.active
      && (p.GivenUp? ==> Adds(s.log, p.s.log, None, c.mapping))
      && (p.Holding? ==> p.s.log == s.log && p.c.mapping == c.mapping)
  {
  }

  /** A reconcile either keeps its mapping or has released it exactly once. */
  ghost predicate KeepsOrFrees(s: State, c: Candidate, p: Progress) {
    && p.s.active == s.active
    && (p.Holding? ==> p.c.mapping == c.mapping || p.c.mapping.None?)
    && Adds(s.log, p.s.log, None, if p.Holding? && p.c.mapping.Some? then None else c.mapping)
  }

  /** What a state that has logged one validation, and maybe a release, adds. */
  lemma AddsOne(s: State, s1: State, e: Endpoint, r: Validation, m: Option<Mapping>)
    requires s1.log == s.log + [Checked(e, r)]
    ensures Adds(s.log, s1.log, None, None)
    ensures Adds(s.log, Release(s1, m).log, None, m) && Release(s1, m).active == s1.active
  {
    assert m.Some? ==> Release(s1, m).log == s.log + [Checked(e, r), Released(m.value)];
  }

  lemma VetAdds(cfg: Config, s: State, env: Env, c: Candidate, force: bool)
    ensures KeepsOrFrees(s, c, Vet(cfg, s, env, c, force))
  {
    var r := env.validate(c.e);
    var s1 := Log(s, Checked(c.e, r)).(phase := Validating, verdict := r.state);
    NothingAdded(s.log);
    AddsOne(s, s1, c.e, r, c.mapping);
    assert Release(s1, None) == s1 && Release(Release(s1, c.mapping), None) == Release(s1, c.mapping);
    hide Adds, Validated, LocalPorts, Release;
  }

  /** A mapping leaves or enters the manager or a thread. */
  lemma ActiveMoves(active: Option<Mapping>, place: map<Mapping, Place>, x: Option<Mapping>, p: Place)
    requires ActiveOk(active, place)
    ensures active != x && !p.Active? ==> ActiveOk(active, Moved(place, x, p))
    ensures x == active && !p.Active? ==> ActiveOk(None, Moved(place, x, p))
    ensures active.None? && p.Active? ==> ActiveOk(x, Moved(place, x, p))
    ensures x.None? ==> ActiveOk(active, Moved(place, x, p))
  {
  }

  /** Thread `t` goes on to `q`, or ends, while the mapping it holds goes elsewhere. */
  lemma HeldMoves(threads: map<Thread, Point>, place: map<Mapping, Place>, t: Thread, q: Point, x: Option<Mapping>,
                  p: Place)
    requires HeldOk(threads, place) && t in threads && !p.Held?
    requires x.Some? && x.value in place && place[x.value].Held? ==> Holds(threads[t]) == x
    ensures Holds(q).None? && (Holds(threads[t]).Some? ==> x == Holds(threads[t])) ==>
      HeldOk(threads[t := q], Moved(place, x, p)) && HeldOk(threads - {t}, Moved(place, x, p))
  {
  }

  lemma HeldStays(threads: map<Thread, Point>, place: map<Mapping, Place>, t: Thread, q: Point)
    requires HeldOk(threads, place)
    ensures t in threads && Holds(q) == Holds(threads[t]) ==> HeldOk(threads[t := q], place)
    ensures t !in threads && Holds(q).None? ==> HeldOk(threads[t := q], place)
    ensures t in threads && Holds(threads[t]).None? ==> HeldOk(threads - {t}, place)
  {
  }

  lemma HeldTakes(threads: map<Thread, Point>, place: map<Mapping, Place>, t: Thread, q: Point, x: Mapping)
    requires HeldOk(threads, place) && t in threads && Holds(threads[t]).None? && Holds(q) == Some(x)
    requires x in place ==> !place[x].Held?
    ensures HeldOk(threads[t := q], Moved(place, Some(x), Held(t)))
  {
  }

  lemma LogMoves(log: seq<Action>, log': seq<Action>, place: map<Mapping, Place>, obtained: Option<Mapping>,
                 released: Option<Mapping>, x: Option<Mapping>, p: Place)
    requires LogOk(log, place) && Adds(log, log', obtained, released)
    requires obtained.Some? ==> obtained == x && x.value !in place
    requires released.Some? ==> released == x
    requires x.Some? ==> (released == x <==> p.GivenBack?) && (x.value in place || obtained == x)
    requires x.Some? && x.value in place ==> !place[x.value].GivenBack?
    ensures LogOk(log', Moved(place, x, p))
  {
  }

  lemma SupersededMoves(place: map<Mapping, Place>, x: Option<Mapping>, p: Place)
    requires SupersededOk(place)
    requires p.Superseded? && x.Some? ==>
      p.renewal in place && p.renewal != x.value && SameLeases(x.value, p.renewal)
    ensures SupersededOk(Moved(place, x, p))
  {
  }

  lemma Owned(w: World, t: Thread)
    requires Inv(w) && t in w.threads
    ensures var x := Holds(w.threads[t]);
      x.Some? ==> x.value in w.place && w.place[x.value] == Held(t) && w.m.active != x
    ensures w.m.active.Some? ==> w.m.active.value in w.place && w.place[w.m.active.value].Active?
  {
    var x := Holds(w.threads[t]);
    if x.Some? {
      assert t in w.threads && Holds(w.threads[t]) == Some(x.value);
      assert x.value in w.place && w.place[x.value] == Held(t);
    }
  }

  lemma AskKeeps(cfg: Config, w: World, t: Thread)
    requires Inv(w) && t in w.threads && w.threads[t].Asking? && FreshAnswer(cfg, w, w.threads[t])
    ensures Inv(GoAsk(cfg, w, t, w.threads[t].env, w.threads[t].force))
  {
    var env, force := w.threads[t].env, w.threads[t].force;
    var p, x := Gather(cfg, w.m, env), AskIPv4(cfg, env).mapping;
    var q := Trying(env, force, p.c);
    var to := if p.c.mapping.Some? then Held(t) else GivenBack;
    hide Gather, AskIPv4, Adds, ActiveOk, HeldOk, LogOk, SupersededOk;
    GatherAdds(cfg, w.m, env);
    Owned(w, t);
    ActiveMoves(w.m.active, w.place, x, to);
    if p.c.mapping.Some? {
      HeldTakes(w.threads, w.place, t, q, x.value);
    } else {
      HeldMoves(w.threads, w.place, t, q, x, GivenBack);
    }
    LogMoves(w.m.log, p.s.log, w.place, x, if p.c.mapping.Some? then None else x, x, to);
    SupersededMoves(w.place, x, to);
  }

  lemma TryKeeps(cfg: Config, w: World, t: Thread)
    requires Inv(w) && t in w.threads && w.threads[t].Trying?
    ensures Inv(GoTry(cfg, w, t, w.threads[t].env, w.threads[t].c, w.threads[t].force))
  {
    var env, force, c := w.threads[t].env, w.threads[t].force, w.threads[t].c;
    var p := Equip(cfg, w.m, env, c);
    hide Equip, Adds, ActiveOk, HeldOk, LogOk, SupersededOk;
    EquipAdds(cfg, w.m, env, c);
    if p.Holding? {
      HeldStays(w.threads, w.place, t, Vetting(env, force, p.c));
    } else {
      hide Inv;
      GiveBack(w, t, c.mapping, p.s, Failing(env));
    }
  }

  lemma VetKeeps(cfg: Config, w: World, t: Thread)
    requires Inv(w) && t in w.threads && w.threads[t].Vetting?
    ensures Inv(GoVet(cfg, w, t, w.threads[t].env, w.threads[t].c, w.threads[t].force))
  {
    var env, force, c := w.threads[t].env, w.threads[t].force, w.threads[t].c;
    var p, x := Vet(cfg, w.m, env, c, force), c.mapping;
    hide Vet, Adds, ActiveOk, HeldOk, LogOk, SupersededOk;
    VetAdds(cfg, w.m, env, c, force);
    if p.Holding? && p.c.mapping == x {
      HeldStays(w.threads, w.place, t, Committing(env, p.c));
      LogMoves(w.m.log, p.s.log, w.place, None, None, None, GivenBack);
    } else {
      hide Inv;
      GiveBack(w, t, x, p.s, if p.Holding? then Committing(env, p.c) else Failing(env));
    }
  }

  lemma PlainAdds(log: seq<Action>, a: Action)
    requires !a.Obtained? && !a.Released?
    ensures Adds(log, log + [a], None, None)
  {
  }

  /** The ledger after a commit: the candidate's mapping is active, and the old one went `to`. */
  ghost function Swapped(place: map<Mapping, Place>, x: Option<Mapping>, was: Option<Mapping>, to: Place)
    : map<Mapping, Place>
  {
    Moved(Moved(place, x, Active), was, to)
  }

  lemma SwapActive(place: map<Mapping, Place>, x: Option<Mapping>, was: Option<Mapping>, to: Place)
    requires ActiveOk(was, place) && (x.Some? ==> x != was) && !to.Active?
    ensures ActiveOk(x, Swapped(place, x, was, to))
  {
  }

  lemma SwapHeld(threads: map<Thread, Point>, place: map<Mapping, Place>, t: Thread, x: Option<Mapping>,
                 was: Option<Mapping>, to: Place)
    requires HeldOk(threads, place) && t in threads && Holds(threads[t]) == x
    requires was.Some? ==> was.value in place && place[was.value].Active?
    ensures was.Some? && to == Held(t) ==>
      forall rest :: HeldOk(threads[t := Freeing(was.value, rest)], Swapped(place, x, was, to))
    ensures !to.Held? ==> forall rest :: HeldOk(threads[t := Ending(rest)], Swapped(place, x, was, to))
  {
  }

  lemma SwapLog(log: seq<Action>, log': seq<Action>, place: map<Mapping, Place>, x: Option<Mapping>,
                was: Option<Mapping>, to: Place)
    requires LogOk(log, place) && Adds(log, log', None, None) && !to.GivenBack?
    requires x.Some? ==> x.value in place && !place[x.value].GivenBack?
    requires was.Some? ==> was.value in place && !place[was.value].GivenBack?
    ensures LogOk(log', Swapped(place, x, was, to))
  {
  }

  lemma SwapSuperseded(place: map<Mapping, Place>, x: Option<Mapping>, was: Option<Mapping>, to: Place)
    requires SupersededOk(place)
    requires to.Superseded? && was.Some? ==> x == Some(to.renewal) && x != was && SameLeases(was.value, to.renewal)
    ensures SupersededOk(Swapped(place, x, was, to))
  {
  }

  lemma CommitKeeps(cfg: Config, w: World, t: Thread)
    requires Inv(w) && t in w.threads && w.threads[t].Committing?
    ensures Inv(GoCommit(cfg, w, t, w.threads[t].env, w.threads[t].c))
  {
    var c := w.threads[t].c;
    var x, was := c.mapping, w.m.active;
    var to := if Replaces(w.m, c) || was.None? then Held(t) else Superseded(x.value, c.network);
    hide Adds, ActiveOk, HeldOk, LogOk, SupersededOk;
    Owned(w, t);
    PlainAdds(w.m.log, Committed(c));
    SwapActive(w.place, x, was, to);
    SwapHeld(w.threads, w.place, t, x, was, to);
    if was.None? { HeldMoves(w.threads, w.place, t, Ending(Announce(c.e, w.threads[t].env.publishOk)), x, Active); }
    SwapLog(w.m.log, w.m.log + [Committed(c)], w.place, x, was, to);
    SwapSuperseded(w.place, x, was, to);
  }

  /** A thread that holds nothing takes the active mapping out of the manager. */
  lemma TakeKeeps(w: World, t: Thread, m: State, rest: Tail)
    requires Inv(w) && t in w.threads && Holds(w.threads[t]).None?
    requires m.active.None? && Adds(w.m.log, m.log, None, None)
    ensures w.m.active.Some? ==> Inv(At(Put(w, w.m.active, Held(t)), t, m, Freeing(w.m.active.value, rest)))
    ensures w.m.active.None? ==> Inv(Finish(w, t, m)) && Inv(At(w, t, m, Ending(rest)))
  {
    var was := w.m.active;
    hide Adds, ActiveOk, HeldOk, LogOk, SupersededOk;
    Owned(w, t);
    ActiveMoves(was, w.place, was, Held(t));
    HeldStays(w.threads, w.place, t, Ending(rest));
    if was.Some? { HeldTakes(w.threads, w.place, t, Freeing(was.value, rest), was.value); }
    LogMoves(w.m.log, m.log, w.place, None, None, was, Held(t));
    SupersededMoves(w.place, was, Held(t));
  }

  /** A thread that holds nothing goes on, or ends, without touching the mappings. */
  lemma IdleKeeps(w: World, t: Thread, m: State, q: Point)
    requires Inv(w) && t in w.threads && Holds(w.threads[t]).None? && Holds(q).None?
    requires m.active == w.m.active && Adds(w.m.log, m.log, None, None)
    ensures Inv(At(w, t, m, q)) && Inv(Finish(w, t, m))
  {
    hide Adds, ActiveOk, HeldOk, LogOk, SupersededOk;
    HeldStays(w.threads, w.place, t, q);
    LogMoves(w.m.log, m.log, w.place, None, None, None, GivenBack);
  }

  lemma PruneKeeps(cfg: Config, w: World, t: Thread, env: Env, current: Endpoint, r: Validation)
    requires Inv(w) && t in w.threads && Holds(w.threads[t]).None?
    ensures Inv(GoPrune(cfg, w, t, env, current, r))
  {
    hide Adds, Inv, Validated, Put, At, Finish;
    var s := Prune(cfg, w.m, current, Validated(current, r));
    var rest := ResetAndAnnounce(s.endpoint.value);
    NothingAdded(w.m.log);
    IdleKeeps(w, t, w.m, Failing(env));
    if s.active == w.m.active {
      IdleKeeps(w, t, s, Ending(rest));
    } else {
      TakeKeeps(w, t, s, rest);
    }
  }

  lemma CheckKeeps(cfg: Config, w: World, t: Thread)
    requires Inv(w) && t in w.threads && w.threads[t].Checking?
    ensures Inv(GoCheck(cfg, w, t, w.threads[t].env, w.threads[t].current, w.threads[t].sync))
  {
    var env, current, sync := w.threads[t].env, w.threads[t].current, w.threads[t].sync;
    var r := env.validate(current);
    hide Adds, Inv, At, Finish;
    if sync && !cfg.validate {
      NothingAdded(w.m.log);
      IdleKeeps(w, t, w.m, Ending(Announce(current, true)));
    } else {
      PlainAdds(w.m.log, Checked(current, r));
      IdleKeeps(w, t, Log(w.m, Checked(current, r)).(verdict := r.state), Judged(env, current, r, sync));
    }
  }

  lemma JudgedKeeps(cfg: Config, w: World, t: Thread)
    requires Inv(w) && t in w.threads && w.threads[t].Judged?
    ensures Inv(GoJudged(cfg, w, t, w.threads[t].env, w.threads[t].current, w.threads[t].r, w.threads[t].sync))
  {
    var Judged(env, current, r, sync) := w.threads[t];
    hide Adds, Inv, GoPrune, At, Finish;
    if r.state.Failed? {
      NothingAdded(w.m.log);
      IdleKeeps(w, t, w.m, Failing(env));
    } else if r.state.Degraded? {
      PruneKeeps(cfg, w, t, env, current, r);
    } else {
      PlainAdds(w.m.log, FailuresReset);
      IdleKeeps(w, t, ResetFailures(w.m, true), Ending(if sync then Announce(current, true) else Nothing));
    }
  }

  lemma EndKeeps(w: World, t: Thread)
    requires Inv(w) && t in w.threads && w.threads[t].Ending?
    ensures Inv(GoEnd(w, t, w.threads[t].tail))
  {
    hide Adds, Inv;
    NothingAdded(w.m.log);
    match w.threads[t].tail
    case Nothing => IdleKeeps(w, t, w.m, Clearing);
    case Announce(e, ok) =>
      PlainAdds(w.m.log, Published(e));
      IdleKeeps(w, t, GoEnd(w, t, w.threads[t].tail).m, Clearing);
    case ResetAndAnnounce(e) =>
      PlainAdds(w.m.log, FailuresReset);
      IdleKeeps(w, t, ResetFailures(w.m, false), Ending(Announce(e, true)));
  }

  /** A thread releases what it holds. */
  lemma GiveBack(w: World, t: Thread, x: Option<Mapping>, m: State, q: Point)
    requires Inv(w) && t in w.threads && Holds(w.threads[t]) == x && Holds(q).None?
    requires m.active == w.m.active && Adds(w.m.log, m.log, None, x)
    ensures Inv(At(Put(w, x, GivenBack), t, m, q)) && Inv(Finish(Put(w, x, GivenBack), t, m))
  {
    hide Adds, ActiveOk, HeldOk, LogOk, SupersededOk, Moved, Holds;
    Owned(w, t);
    ActiveMoves(w.m.active, w.place, x, GivenBack);
    HeldMoves(w.threads, w.place, t, q, x, GivenBack);
    LogMoves(w.m.log, m.log, w.place, None, x, x, GivenBack);
    SupersededMoves(w.place, x, GivenBack);
  }

  lemma FreeKeeps(w: World, t: Thread)
    requires Inv(w) && t in w.threads && w.threads[t].Freeing?
    ensures Inv(GoFree(w, t, w.threads[t].m, w.threads[t].tail))
  {
    hide Adds, Inv, Put, At;
    var x := w.threads[t].m;
    AddsOneRelease(w.m.log, x);
    GiveBack(w, t, Some(x), Release(w.m, Some(x)), Ending(w.threads[t].tail));
  }

  lemma AddsOneRelease(log: seq<Action>, x: Mapping)
    ensures Adds(log, log + [Released(x)], None, Some(x))
  {
  }

  lemma AdvanceKeeps(cfg: Config, w: World, t: Thread)
    requires Inv(w) && t in w.threads && FreshAnswer(cfg, w, w.threads[t])
    ensures Inv(Advance(cfg, w, t))
  {
    hide Inv, Adds, GoAsk, GoTry, GoVet, GoCommit, GoCheck, GoJudged, GoFree, GoEnd;
    match w.threads[t]
    case Asking(_, _) => AskKeeps(cfg, w, t);
    case Trying(_, _, _) => TryKeeps(cfg, w, t);
    case Vetting(_, _, _) => VetKeeps(cfg, w, t);
    case Committing(_, _) => CommitKeeps(cfg, w, t);
    case Checking(_, _, _) => CheckKeeps(cfg, w, t);
    case Judged(_, _, _, _) => JudgedKeeps(cfg, w, t);
    case Failing(env) =>
      var s := NoteFailure(cfg, w.m);
      PlainAdds(w.m.log, FailureNoted(w.m.phase.Withdrawn?));
      IdleKeeps(w, t, s, Withdrawing(env));
    case Withdrawing(env) =>
      PlainAdds(w.m.log, Withdrew(env.withdrawOk));
      IdleKeeps(w, t, NoteWithdrawal(w.m, env.withdrawOk), Clearing);
    case Clearing =>
      NothingAdded(w.m.log);
      TakeKeeps(w, t, DropActive(w.m), Nothing);
    case Freeing(_, _) => FreeKeeps(w, t);
    case Ending(_) => EndKeeps(w, t);
  }

  lemma BeginKeeps(w: World, t: Thread, m: State, q: Point, holder: Option<Thread>)
    requires Inv(w) && t !in w.threads && Holds(q).None? && m.active == w.m.active && Adds(w.m.log, m.log, None, None)
    ensures Inv(At(w, t, m, q).(holder := holder)) && Inv(w.(m := m))
  {
    hide Adds, ActiveOk, HeldOk, LogOk, SupersededOk;
    HeldStays(w.threads, w.place, t, q);
    LogMoves(w.m.log, m.log, w.place, None, None, None, GivenBack);
  }

  lemma StepKeeps(cfg: Config, w: World, e: Event)
    requires Inv(w)
    ensures Inv(Step(cfg, w, e))
  {
    hide Inv, Advance, Adds;
    if Enabled(cfg, w, e) {
      NothingAdded(w.m.log);
      PlainAdds(w.m.log, Started);
      var m := Log(w.m, Started);
      match e
      case BeginReconcile(t, env, force) =>
        BeginKeeps(w, t, m, if ListenersReady(cfg) then Asking(env, force) else Failing(env), Some(t));
      case BeginCheck(t, env, sync) =>
        BeginKeeps(w, t, m, if w.m.endpoint.Some? then Checking(env, w.m.endpoint.value, sync) else Clearing, Some(t));
      case BeginLose(t, env) => BeginKeeps(w, t, w.m, Failing(env), w.holder);
      case BeginStop(t) => BeginKeeps(w, t, w.m, Clearing, w.holder);
      case Go(t) => AdvanceKeeps(cfg, w, t);
    }
  }

  lemma {:induction false} RunInvariant(cfg: Config, events: seq<Event>)
    ensures Inv(Run(cfg, events))
  {
    if events != [] {
      hide Inv, Step;
      RunInvariant(cfg, events[..|events| - 1]);
      StepKeeps(cfg, Run(cfg, events[..|events| - 1]), events[|events| - 1]);
    }
  }

  // ---------- over every interleaving ----------

  /** A mapping obtained is released at most once. Until then it is in the hands of exactly one running
      operation, or active, or superseded by a renewal with identical leases; once released it is in none
      of these places. A mapping never obtained is nowhere. */
  lemma LeaseOwnership(cfg: Config, events: seq<Event>, x: Mapping)
    ensures var w := Run(cfg, events);
      var released := multiset(w.m.log)[Released(x)];
      var held := exists t :: t in w.threads && Holds(w.threads[t]) == Some(x);
      var renewed := x in w.place && w.place[x].Superseded? && w.place[x].renewal != x
          && SameLeases(x, w.place[x].renewal);
      && released <= multiset(w.m.log)[Obtained(x)] <= 1
      && (multiset(w.m.log)[Obtained(x)] == 1 && released == 0 <==> held || w.m.active == Some(x) || renewed)
      && !(held && w.m.active == Some(x)) && !(held && renewed) && !(renewed && w.m.active == Some(x))
  {
    hide Run;
    RunInvariant(cfg, events);
    var w := Run(cfg, events);
    if x in w.place && w.place[x].Held? {
      assert Holds(w.threads[w.place[x].t]) == Some(x);
    }
  }

  /** No two running operations hold the same mapping. */
  lemma OneOwner(cfg: Config, events: seq<Event>, t: Thread, u: Thread)
    requires var w := Run(cfg, events);
      t in w.threads && u in w.threads && Holds(w.threads[t]).Some? && Holds(w.threads[t]) == Holds(w.threads[u])
    ensures t == u
  {
    hide Run;
    RunInvariant(cfg, events);
    var w := Run(cfg, events);
    var x := Holds(w.threads[t]).value;
    assert w.place[x] == Held(t) && w.place[x] == Held(u);
  }

  /** A mapping is only superseded while it is active, by a commit on the same network of a mapping with the
      same method and leases, which is then active. */
  lemma SupersededByRenewal(cfg: Config, w: World, e: Event, x: Mapping)
    requires x in w.place && !w.place[x].Superseded?
    requires x in Step(cfg, w, e).place && Step(cfg, w, e).place[x].Superseded?
    ensures var w' := Step(cfg, w, e);
      && w.m.active == Some(x) && w'.m.active == Some(w'.place[x].renewal)
      && w.m.network == w'.m.network == w'.place[x].network
      && SameLeases(x, w'.place[x].renewal)
  {
    hide Gather, Equip, Vet, Validated;
  }

  /** What a commit does to the mapping it finds active: it is left alone if and only if it was renewed with the same
      leases on the same network, and is taken over to be released otherwise. */
  lemma CommitFreesUnlessRenewed(cfg: Config, w: World, t: Thread, x: Mapping)
    requires Inv(w) && t in w.threads && w.threads[t].Committing? && w.m.active == Some(x)
    ensures var c, w' := w.threads[t].c, Step(cfg, w, Go(t));
      var renewed := c.mapping.Some? && SameLeases(x, c.mapping.value) && w.m.network == c.network;
      x in w'.place && w'.place[x] == if renewed then Superseded(c.mapping.value, c.network) else Held(t)
  {
    Owned(w, t);
    hide Inv;
  }
}
