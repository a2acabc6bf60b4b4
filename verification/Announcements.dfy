/**
 What a held or published endpoint announces: the address and ports of the mapping it was made from, or a
 discovered address on the local ports; over every interleaving of module Leases.
 */
module Announcements {
  import opened Basics
  import opened Validator
  import opened Manager
  import IP = InterleavedPublish
  import SP = StalePublish
  import SL = SerialLeases
  import PM = PortMap
  import L = Leases

  // ---------- reading the history ----------

  /** What the operation that has the lock has found, and the last candidate that was ever committed. */
  datatype Facts = Facts(
    ipv4: Option<PM.Addr>,
    ipv6: Option<PM.Addr>,
    mapping: Option<Mapping>,
    commit: Option<Candidate>)

  function FactsAfter(f: Facts, a: Action): Facts {
    match a
    case Started => Facts(None, None, None, f.commit)
    case Found(v4, v6) => f.(ipv4 := v4, ipv6 := v6)
    case Obtained(m) => f.(mapping := Some(m))
    case Committed(c) => f.(commit := Some(c))
    case _ => f
  }

  function FactsOf(log: seq<Action>): Facts {
    if log == [] then Facts(None, None, None, None) else FactsAfter(FactsOf(log[..|log| - 1]), log[|log| - 1])
  }

  // ---------- what is announced ----------

  /** The listener's own ports. */
  predicate OnLocalPorts(cfg: Config, e: Endpoint) {
    e.derpPort == cfg.localDerp && e.stunPort == if cfg.stun then cfg.localStun else -1
  }

  /** The outside address and ports of a mapping. */
  predicate OnMapping(m: Mapping, e: Endpoint) {
    && e.ipv4 == Some(m.derp.ip) && e.derpPort == m.derp.externalPort
    && e.stunPort == if m.stun.Some? then m.stun.value.externalPort else -1
  }

  /** A candidate announces what was found, in the families configured and bound. */
  predicate Announces(cfg: Config, f: Facts, c: Candidate) {
    && (c.mapping.Some? ==> c.mapping == f.mapping && OnMapping(c.mapping.value, c.e) && !cfg.mode.Direct?)
    && (c.mapping.None? ==> OnLocalPorts(cfg, c.e))
    && (c.mapping.None? && c.e.ipv4.Some? ==> c.e.ipv4 == f.ipv4 && cfg.mode.Direct?)
    && (c.e.ipv4.Some? ==> cfg.ipv4Bound && (cfg.families.IPv4Only? || cfg.families.Dual?))
    && (c.e.ipv6.Some? ==> c.e.ipv6 == f.ipv6 && cfg.ipv6Bound && (cfg.families.IPv6Only? || cfg.families.Dual?))
    && (c.e.ipv6.Some? ==> c.e.derpPort == cfg.localDerp && (cfg.stun ==> c.e.stunPort == cfg.localStun))
  }

  /** The manager is on and its listeners are bound. */
  predicate Listens(cfg: Config) {
    cfg.enabled && cfg.localDerp != 0 && (cfg.stun ==> cfg.localStun != 0)
  }

  /** A candidate fit to be committed. */
  predicate Fit(cfg: Config, f: Facts, c: Candidate) {
    Announces(cfg, f, c) && HasAddress(c.e) && Listens(cfg) && cfg.tls
  }

  /** `e` is `full`, or what pruning leaves of it: one family, IPv6 alone going to the local ports. */
  predicate Narrows(cfg: Config, full: Endpoint, e: Endpoint) {
    || e == full
    || (e.ipv4.Some? && e == full.(ipv6 := None))
    || (e.ipv4.None? && e.ipv6.Some? && e.ipv6 == full.ipv6 && OnLocalPorts(cfg, e))
  }

  predicate FromCommit(cfg: Config, f: Facts, e: Endpoint) {
    f.commit.Some? && HasAddress(e) && Narrows(cfg, f.commit.value.e, e)
  }

  lemma NarrowAgain(cfg: Config, full: Endpoint, e: Endpoint, r: Validation)
    requires Narrows(cfg, full, e) && HasAddress(Validated(e, r))
    ensures Validated(e, r).ipv4.Some? || e.ipv4.None? ==> Narrows(cfg, full, Validated(e, r))
    ensures Validated(e, r).ipv4.None? ==> Narrows(cfg, full, LocalPorts(cfg, Validated(e, r)))
  {
  }

  // ---------- the parts of a reconcile ----------

  lemma Snoc(log: seq<Action>, a: Action)
    ensures FactsOf(log + [a]) == FactsAfter(FactsOf(log), a)
  {
    assert (log + [a])[..|log|] == log;
  }

  lemma ReleaseFacts(s: State, m: Option<Mapping>)
    ensures FactsOf(Release(s, m).log) == FactsOf(s.log)
  {
    if m.Some? { Snoc(s.log, Released(m.value)); }
  }

  /** The candidate that a reconcile gathers. */
  function Gathered(cfg: Config, env: Env): Candidate {
    var both := AskIPv6(cfg, env, AskIPv4(cfg, env));
    if PortsClash(cfg, both) then WithoutMapping(cfg, both).(problems := true) else both
  }

  /** What it has been told by then. */
  function Told(cfg: Config, env: Env, before: Facts): Facts {
    var found, asked := Discovered(cfg, env), AskIPv4(cfg, env).mapping;
    Facts(found.ipv4, found.ipv6, if asked.Some? then asked else before.mapping, before.commit)
  }

  lemma GatherIs(cfg: Config, s: State, env: Env)
    ensures var p := Gather(cfg, s, env);
      && p.Holding? && p.c == Gathered(cfg, env) && FactsOf(p.s.log) == Told(cfg, env, FactsOf(s.log))
      && p.s.endpoint == s.endpoint && p.s.active == s.active && p.s.network == s.network
  {
    hide FactsOf, AskIPv4, AskIPv6, WithoutMapping, PortsClash;
    var asked := AskIPv4(cfg, env);
    var s0 := Log(s.(phase := Attempting), Discovered(cfg, env));
    var s1 := if asked.mapping.Some? then Log(s0, Obtained(asked.mapping.value)) else s0;
    Snoc(s.log, Discovered(cfg, env));
    if asked.mapping.Some? { Snoc(s0.log, Obtained(asked.mapping.value)); }
    ReleaseFacts(s1, AskIPv6(cfg, env, asked).mapping);
  }

  lemma GatheredAnnounces(cfg: Config, env: Env, before: Facts)
    ensures Announces(cfg, Told(cfg, env, before), Gathered(cfg, env))
  {
  }

  /** The gateway's answer to a reconcile that asks it: it maps, or it does not. */
  function Answer(cfg: Config, env: Env): Option<Mapping> {
    if cfg.mode.Direct? || !cfg.ipv4Bound || cfg.families.IPv6Only? || cfg.families.OtherFamilies? then None
    else env.mapped
  }

  /** IPv6 is announced whenever it was found; so is IPv4, except that an address mapped to other ports gives way to
      IPv6. */
  lemma GatheredFamilies(cfg: Config, env: Env)
    ensures var e, found, m := Gathered(cfg, env).e, Discovered(cfg, env), Answer(cfg, env);
      && e.ipv6 == found.ipv6
      && (m.None? ==> e.ipv4 == found.ipv4)
      && (m.Some? ==>
            var otherPorts := m.value.derp.externalPort != cfg.localDerp
              || (cfg.stun && (m.value.stun.None? || m.value.stun.value.externalPort != cfg.localStun));
            e.ipv4 == if found.ipv6.Some? && otherPorts then None else Some(m.value.derp.ip))
  {
  }

  lemma EquipAnnounces(cfg: Config, s: State, env: Env, c: Candidate)
    requires Announces(cfg, FactsOf(s.log), c) && Listens(cfg)
    ensures var p := Equip(cfg, s, env, c);
      && FactsOf(p.s.log) == FactsOf(s.log) && p.s.endpoint == s.endpoint && p.s.active == s.active
      && (p.Holding? ==> Fit(cfg, FactsOf(s.log), p.c))
  {
    hide FactsOf;
    ReleaseFacts(s, c.mapping);
  }

  lemma VetAnnounces(cfg: Config, s: State, env: Env, c: Candidate, force: bool)
    requires Fit(cfg, FactsOf(s.log), c)
    ensures var p := Vet(cfg, s, env, c, force);
      && FactsOf(p.s.log) == FactsOf(s.log) && p.s.endpoint == s.endpoint && p.s.active == s.active
      && (p.Holding? ==> Fit(cfg, FactsOf(s.log), p.c))
  {
    hide FactsOf;
    var r := env.validate(c.e);
    var s1 := Log(s, Checked(c.e, r)).(phase := Validating, verdict := r.state);
    Snoc(s.log, Checked(c.e, r));
    ReleaseFacts(s1, c.mapping);
  }

  // ---------- invariant ----------

  /** Every candidate committed was fit, and every endpoint published was made of the last one committed. */
  predicate Lawful(cfg: Config, f: Facts, a: Action) {
    && (a.Committed? ==> Fit(cfg, f, a.c))
    && (a.Published? ==> FromCommit(cfg, f, a.e))
  }

  ghost predicate Law(cfg: Config, log: seq<Action>) {
    forall i :: 0 <= i < |log| ==> Lawful(cfg, FactsOf(log[..i]), log[i])
  }

  predicate PointOk(cfg: Config, f: Facts, p: L.Point) {
    match p
    case Asking(_, _) => Listens(cfg)
    case Trying(_, _, c) => Announces(cfg, f, c) && Listens(cfg)
    case Vetting(_, _, c) => Fit(cfg, f, c)
    case Committing(_, c) => Fit(cfg, f, c)
    case Checking(_, current, _) => FromCommit(cfg, f, current)
    case Judged(_, current, _, _) => FromCommit(cfg, f, current)
    case Freeing(_, tail) => tail.Nothing? || FromCommit(cfg, f, tail.e)
    case Ending(tail) => tail.Nothing? || FromCommit(cfg, f, tail.e)
    case _ => true
  }

  ghost predicate ThreadsOk(cfg: Config, f: Facts, threads: map<L.Thread, L.Point>) {
    forall t :: t in threads ==> PointOk(cfg, f, threads[t])
  }

  /** A held endpoint was committed, and a mapping in use is the one it was committed with. */
  predicate HeldOk(cfg: Config, f: Facts, endpoint: Option<Endpoint>, active: Option<Mapping>) {
    && (endpoint.Some? ==> FromCommit(cfg, f, endpoint.value))
    && (active.Some? ==>
          && endpoint.Some? && endpoint.value.ipv4.Some?
          && f.commit.Some? && f.commit.value.mapping == active)
  }

  ghost predicate Inv(cfg: Config, w: L.World) {
    && HeldOk(cfg, FactsOf(w.m.log), w.m.endpoint, w.m.active)
    && ThreadsOk(cfg, FactsOf(w.m.log), w.threads)
    && Law(cfg, w.m.log)
  }

  lemma LawSnoc(cfg: Config, log: seq<Action>, a: Action)
    requires Law(cfg, log) && Lawful(cfg, FactsOf(log), a)
    ensures Law(cfg, log + [a]) && FactsOf(log + [a]) == FactsAfter(FactsOf(log), a)
  {
    Snoc(log, a);
    hide FactsOf, Lawful;
    var log' := log + [a];
    forall i | 0 <= i < |log'|
      ensures Lawful(cfg, FactsOf(log'[..i]), log'[i])
    {
      assert log'[..i] == if i < |log| then log[..i] else log;
    }
  }

  /** Actions that tell nothing new. */
  lemma PlainLaw(cfg: Config, log: seq<Action>, a: Action)
    requires Law(cfg, log) && (a.Checked? || a.Released? || a.FailureNoted? || a.Withdrew? || a.FailuresReset?)
    ensures Law(cfg, log + [a]) && FactsOf(log + [a]) == FactsOf(log)
  {
    hide Law, FactsOf;
    LawSnoc(cfg, log, a);
  }

  lemma PublishLaw(cfg: Config, log: seq<Action>, e: Endpoint)
    requires Law(cfg, log) && FromCommit(cfg, FactsOf(log), e)
    ensures Law(cfg, log + [Published(e)]) && FactsOf(log + [Published(e)]) == FactsOf(log)
  {
    hide Law, FactsOf, FromCommit;
    LawSnoc(cfg, log, Published(e));
  }

  lemma ReleaseLaw(cfg: Config, s: State, m: Option<Mapping>)
    requires Law(cfg, s.log)
    ensures Law(cfg, Release(s, m).log) && FactsOf(Release(s, m).log) == FactsOf(s.log)
  {
    hide Law, FactsOf;
    if m.Some? { LawSnoc(cfg, s.log, Released(m.value)); }
  }

  lemma GatherLaw(cfg: Config, s: State, env: Env)
    requires Law(cfg, s.log)
    ensures Law(cfg, Gather(cfg, s, env).s.log)
  {
    hide Law, FactsOf, AskIPv4;
    var asked := AskIPv4(cfg, env);
    var s0 := Log(s.(phase := Attempting), Discovered(cfg, env));
    var s1 := if asked.mapping.Some? then Log(s0, Obtained(asked.mapping.value)) else s0;
    LawSnoc(cfg, s.log, Discovered(cfg, env));
    if asked.mapping.Some? { LawSnoc(cfg, s0.log, Obtained(asked.mapping.value)); }
    ReleaseLaw(cfg, s1, AskIPv6(cfg, env, asked).mapping);
  }

  lemma EquipLaw(cfg: Config, s: State, env: Env, c: Candidate)
    requires Law(cfg, s.log)
    ensures Law(cfg, Equip(cfg, s, env, c).s.log)
  {
    hide Law, FactsOf;
    ReleaseLaw(cfg, s, c.mapping);
  }

  lemma VetLaw(cfg: Config, s: State, env: Env, c: Candidate, force: bool)
    requires Law(cfg, s.log)
    ensures Law(cfg, Vet(cfg, s, env, c, force).s.log)
  {
    hide Law, FactsOf, Validated, LocalPorts;
    var r := env.validate(c.e);
    var s1 := Log(s, Checked(c.e, r)).(phase := Validating, verdict := r.state);
    LawSnoc(cfg, s.log, Checked(c.e, r));
    ReleaseLaw(cfg, s1, c.mapping);
    ReleaseLaw(cfg, Release(s1, c.mapping), None);
  }

  // ---------- every step keeps it ----------

  /** What is known of every run already. */
  ghost predicate Base(cfg: Config, w: L.World) {
    IP.Inv(cfg, w) && SP.HeldInv(w)
  }

  /** An operation without the lock is at none of the points that know anything. */
  lemma Unlocked(cfg: Config, w: L.World, t: L.Thread, f: Facts)
    requires Base(cfg, w) && t in w.threads && w.holder != Some(t)
    ensures PointOk(cfg, f, w.threads[t])
  {
  }

  /** A thread moves on to `q`, or ends. Only the lock holder changes the facts. */
  lemma Moves(cfg: Config, w: L.World, w0: L.World, t: L.Thread, m: State, q: L.Point)
    requires Inv(cfg, w) && Base(cfg, w) && t in w.threads && w0.threads == w.threads
    requires HeldOk(cfg, FactsOf(m.log), m.endpoint, m.active) && Law(cfg, m.log) && PointOk(cfg, FactsOf(m.log), q)
    requires FactsOf(m.log) == FactsOf(w.m.log) || w.holder == Some(t)
    ensures Inv(cfg, L.At(w0, t, m, q)) && Inv(cfg, L.Finish(w0, t, m))
  {
    var f := FactsOf(m.log);
    hide Law, FactsOf, HeldOk, PointOk, Base;
    forall u | u in w.threads && u != t
      ensures PointOk(cfg, f, w.threads[u])
    {
      if w.holder == Some(t) { Unlocked(cfg, w, u, f); }
    }
  }

  lemma Knows(cfg: Config, w: L.World, t: L.Thread)
    requires Inv(cfg, w) && Base(cfg, w) && t in w.threads
    ensures PointOk(cfg, FactsOf(w.m.log), w.threads[t])
    ensures HeldOk(cfg, FactsOf(w.m.log), w.m.endpoint, w.m.active) && Law(cfg, w.m.log)
    ensures IP.NeedsLock(w.threads[t]) ==> w.holder == Some(t)
    ensures SP.Fits(w.m.endpoint, w.threads[t])
  {
  }

  lemma AskMoves(cfg: Config, w: L.World, t: L.Thread, env: Env, force: bool)
    requires Inv(cfg, w) && Base(cfg, w) && t in w.threads && w.threads[t] == L.Asking(env, force)
    ensures Inv(cfg, L.GoAsk(cfg, w, t, env, force))
  {
    Knows(cfg, w, t);
    hide Inv, Law, FactsOf, Base, Gather, Gathered, Told, Announces, Narrows, L.At, L.Finish, SP.Fits;
    var p := Gather(cfg, w.m, env);
    GatherIs(cfg, w.m, env);
    GatheredAnnounces(cfg, env, FactsOf(w.m.log));
    ToldCommit(cfg, env, FactsOf(w.m.log));
    GatherLaw(cfg, w.m, env);
    var to := if p.c.mapping.Some? then L.Held(t) else L.GivenBack;
    Moves(cfg, w, L.Put(w, AskIPv4(cfg, env).mapping, to), t, p.s, L.Trying(env, force, p.c));
  }

  lemma ToldCommit(cfg: Config, env: Env, f: Facts)
    ensures Told(cfg, env, f).commit == f.commit
  {
  }

  lemma TryMoves(cfg: Config, w: L.World, t: L.Thread, env: Env, c: Candidate, force: bool)
    requires Inv(cfg, w) && Base(cfg, w) && t in w.threads && w.threads[t] == L.Trying(env, force, c)
    ensures Inv(cfg, L.GoTry(cfg, w, t, env, c, force))
  {
    Knows(cfg, w, t);
    hide Inv, Law, FactsOf, HeldOk, Base, Equip, Announces, Fit, L.At, L.Finish, SP.Fits;
    var p := Equip(cfg, w.m, env, c);
    EquipAnnounces(cfg, w.m, env, c);
    EquipLaw(cfg, w.m, env, c);
    if p.Holding? { Moves(cfg, w, w, t, p.s, L.Vetting(env, force, p.c)); }
    else { Moves(cfg, w, L.Put(w, c.mapping, L.GivenBack), t, p.s, L.Failing(env)); }
  }

  lemma VetMoves(cfg: Config, w: L.World, t: L.Thread, env: Env, c: Candidate, force: bool)
    requires Inv(cfg, w) && Base(cfg, w) && t in w.threads && w.threads[t] == L.Vetting(env, force, c)
    ensures Inv(cfg, L.GoVet(cfg, w, t, env, c, force))
  {
    Knows(cfg, w, t);
    hide Inv, Law, FactsOf, HeldOk, Base, Vet, Announces, Fit, L.At, L.Finish, SP.Fits;
    var p := Vet(cfg, w.m, env, c, force);
    VetAnnounces(cfg, w.m, env, c, force);
    VetLaw(cfg, w.m, env, c, force);
    var back := L.Put(w, c.mapping, L.GivenBack);
    if p.Holding? { Moves(cfg, w, if p.c.mapping.None? then back else w, t, p.s, L.Committing(env, p.c)); }
    else { Moves(cfg, w, back, t, p.s, L.Failing(env)); }
  }

  lemma CommitMoves(cfg: Config, w: L.World, t: L.Thread, env: Env, c: Candidate)
    requires Inv(cfg, w) && Base(cfg, w) && t in w.threads && w.threads[t] == L.Committing(env, c)
    ensures Inv(cfg, L.GoCommit(cfg, w, t, env, c))
  {
    Knows(cfg, w, t);
    CommitHeld(cfg, FactsOf(w.m.log), c);
    hide Inv, Law, FactsOf, HeldOk, Base, Fit, FromCommit, L.At, L.Finish, SP.Fits;
    LawSnoc(cfg, w.m.log, Committed(c));
    var s, rest := Commit(cfg, w.m, c), L.Announce(c.e, env.publishOk);
    var w1 := L.Put(w, c.mapping, L.Active);
    if L.Replaces(w.m, c) {
      Moves(cfg, w, L.Put(w1, w.m.active, L.Held(t)), t, s, L.Freeing(w.m.active.value, rest));
    } else if w.m.active.Some? {
      Moves(cfg, w, L.Put(w1, w.m.active, L.Superseded(c.mapping.value, c.network)), t, s, L.Ending(rest));
    } else {
      Moves(cfg, w, w1, t, s, L.Ending(rest));
    }
  }

  lemma CommitHeld(cfg: Config, f: Facts, c: Candidate)
    requires Fit(cfg, f, c)
    ensures var f' := FactsAfter(f, Committed(c));
      HeldOk(cfg, f', Some(c.e), c.mapping) && FromCommit(cfg, f', c.e) && Lawful(cfg, f, Committed(c))
  {
  }

  lemma CheckMoves(cfg: Config, w: L.World, t: L.Thread, env: Env, current: Endpoint, sync: bool)
    requires Inv(cfg, w) && Base(cfg, w) && t in w.threads && w.threads[t] == L.Checking(env, current, sync)
    ensures Inv(cfg, L.GoCheck(cfg, w, t, env, current, sync))
  {
    hide Inv, Law, FactsOf, HeldOk, FromCommit, Base, L.At, L.Finish, SP.Fits, IP.NeedsLock;
    Knows(cfg, w, t);
    if sync && !cfg.validate {
      Moves(cfg, w, w, t, w.m, L.Ending(L.Announce(current, true)));
    } else {
      var r := env.validate(current);
      PlainLaw(cfg, w.m.log, Checked(current, r));
      Moves(cfg, w, w, t, Log(w.m, Checked(current, r)).(verdict := r.state), L.Judged(env, current, r, sync));
    }
  }

  lemma JudgedMoves(cfg: Config, w: L.World, t: L.Thread, env: Env, current: Endpoint, r: Validation, sync: bool)
    requires Inv(cfg, w) && Base(cfg, w) && t in w.threads && w.threads[t] == L.Judged(env, current, r, sync)
    ensures Inv(cfg, L.GoJudged(cfg, w, t, env, current, r, sync))
  {
    Knows(cfg, w, t);
    hide Inv, Law, FactsOf, HeldOk, FromCommit, Base, L.At, L.Finish, L.GoPrune;
    if r.state.Failed? {
      Moves(cfg, w, w, t, w.m, L.Failing(env));
    } else if r.state.Degraded? {
      PruneMoves(cfg, w, t, env, current, r);
    } else {
      PlainLaw(cfg, w.m.log, FailuresReset);
      var rest := if sync then L.Announce(current, true) else L.Nothing;
      Moves(cfg, w, w, t, ResetFailures(w.m, true), L.Ending(rest));
    }
  }

  /** What pruning makes of what is held. */
  lemma PruneHeld(cfg: Config, f: Facts, s: State, current: Endpoint, r: Validation)
    requires FromCommit(cfg, f, current) && HeldOk(cfg, f, s.endpoint, s.active) && HasAddress(Validated(current, r))
    requires s.endpoint.None? || s.endpoint == Some(current)
    ensures var s' := Prune(cfg, s, current, Validated(current, r));
      HeldOk(cfg, f, s'.endpoint, s'.active) && FromCommit(cfg, f, s'.endpoint.value)
  {
    NarrowAgain(cfg, f.commit.value.e, current, r);
    ValidatedKeeps(current, r);
    hide Validated, Narrows;
  }

  lemma ValidatedKeeps(e: Endpoint, r: Validation)
    ensures Validated(e, r).ipv4.None? || Validated(e, r).ipv4 == e.ipv4
    ensures Validated(e, r).ipv6.None? || Validated(e, r).ipv6 == e.ipv6
  {
  }

  lemma PruneMoves(cfg: Config, w: L.World, t: L.Thread, env: Env, current: Endpoint, r: Validation)
    requires Inv(cfg, w) && Base(cfg, w) && t in w.threads && w.holder == Some(t)
    requires FromCommit(cfg, FactsOf(w.m.log), current)
    requires w.m.endpoint.None? || w.m.endpoint == Some(current)
    ensures Inv(cfg, L.GoPrune(cfg, w, t, env, current, r))
  {
    Knows(cfg, w, t);
    hide Inv, Law, FactsOf, HeldOk, FromCommit, Base, L.At, L.Finish, Validated;
    var pruned := Validated(current, r);
    if !HasAddress(pruned) {
      Moves(cfg, w, w, t, w.m, L.Failing(env));
    } else {
      PruneHeld(cfg, FactsOf(w.m.log), w.m, current, r);
      var s := Prune(cfg, w.m, current, pruned);
      var rest := L.ResetAndAnnounce(s.endpoint.value);
      if current.ipv4.Some? && pruned.ipv4.None? && w.m.active.Some? {
        Moves(cfg, w, L.Put(w, w.m.active, L.Held(t)), t, s, L.Freeing(w.m.active.value, rest));
      } else {
        Moves(cfg, w, w, t, s, L.Ending(rest));
      }
    }
  }

  lemma EndMoves(cfg: Config, w: L.World, t: L.Thread, tail: L.Tail)
    requires Inv(cfg, w) && Base(cfg, w) && t in w.threads && w.threads[t] == L.Ending(tail)
    ensures Inv(cfg, L.GoEnd(w, t, tail))
  {
    hide Inv, Law, FactsOf, HeldOk, FromCommit, Base, L.At, L.Finish, SP.Fits, IP.NeedsLock;
    Knows(cfg, w, t);
    match tail
    case Nothing => Moves(cfg, w, w, t, w.m, L.Clearing);
    case Announce(e, ok) =>
      PublishLaw(cfg, w.m.log, e);
      var m := if ok then Log(w.m, Published(e)) else Log(w.m, Published(e)).(phase := Limited);
      Moves(cfg, w, w, t, m, L.Clearing);
    case ResetAndAnnounce(e) =>
      PlainLaw(cfg, w.m.log, FailuresReset);
      Moves(cfg, w, w, t, ResetFailures(w.m, false), L.Ending(L.Announce(e, true)));
  }

  lemma FailMoves(cfg: Config, w: L.World, t: L.Thread, env: Env)
    requires Inv(cfg, w) && Base(cfg, w) && t in w.threads
    ensures Inv(cfg, L.GoFail(cfg, w, t, env))
  {
    hide Inv, Law, FactsOf, HeldOk, Base, L.At, L.Finish, SP.Fits, IP.NeedsLock;
    Knows(cfg, w, t);
    PlainLaw(cfg, w.m.log, FailureNoted(w.m.phase.Withdrawn?));
    Moves(cfg, w, w, t, NoteFailure(cfg, w.m), L.Withdrawing(env));
  }

  lemma WithdrawMoves(cfg: Config, w: L.World, t: L.Thread, ok: bool)
    requires Inv(cfg, w) && Base(cfg, w) && t in w.threads
    ensures Inv(cfg, L.At(w, t, NoteWithdrawal(w.m, ok), L.Clearing))
  {
    hide Inv, Law, FactsOf, HeldOk, Base, L.At, L.Finish, SP.Fits, IP.NeedsLock;
    Knows(cfg, w, t);
    PlainLaw(cfg, w.m.log, Withdrew(ok));
    Moves(cfg, w, w, t, NoteWithdrawal(w.m, ok), L.Clearing);
  }

  lemma ClearMoves(cfg: Config, w: L.World, t: L.Thread)
    requires Inv(cfg, w) && Base(cfg, w) && t in w.threads
    ensures Inv(cfg, L.GoClear(w, t))
  {
    Knows(cfg, w, t);
    hide Inv, Law, FactsOf, Base, L.At, L.Finish, SP.Fits, Narrows;
    Moves(cfg, w, w, t, DropActive(w.m), L.Clearing);
    if w.m.active.Some? {
      var w0 := L.Put(w, w.m.active, L.Held(t));
      Moves(cfg, w, w0, t, DropActive(w.m), L.Freeing(w.m.active.value, L.Nothing));
    }
  }

  lemma FreeMoves(cfg: Config, w: L.World, t: L.Thread, x: Mapping, tail: L.Tail)
    requires Inv(cfg, w) && Base(cfg, w) && t in w.threads && w.threads[t] == L.Freeing(x, tail)
    ensures Inv(cfg, L.GoFree(w, t, x, tail))
  {
    Knows(cfg, w, t);
    hide Inv, Law, FactsOf, HeldOk, FromCommit, Base, L.At, L.Finish, SP.Fits;
    ReleaseLaw(cfg, w.m, Some(x));
    Moves(cfg, w, L.Put(w, Some(x), L.GivenBack), t, Release(w.m, Some(x)), L.Ending(tail));
  }

  lemma AdvanceKeeps(cfg: Config, w: L.World, t: L.Thread)
    requires Inv(cfg, w) && Base(cfg, w) && t in w.threads
    ensures Inv(cfg, L.Advance(cfg, w, t))
  {
    hide Inv, Base, L.GoAsk, L.GoTry, L.GoVet, L.GoCommit, L.GoCheck, L.GoJudged, L.GoFail, L.GoClear,
         L.GoFree, L.GoEnd, L.At;
    match w.threads[t]
    case Asking(env, force) => AskMoves(cfg, w, t, env, force);
    case Trying(env, force, c) => TryMoves(cfg, w, t, env, c, force);
    case Vetting(env, force, c) => VetMoves(cfg, w, t, env, c, force);
    case Committing(env, c) => CommitMoves(cfg, w, t, env, c);
    case Checking(env, current, sync) => CheckMoves(cfg, w, t, env, current, sync);
    case Judged(env, current, r, sync) => JudgedMoves(cfg, w, t, env, current, r, sync);
    case Failing(env) => FailMoves(cfg, w, t, env);
    case Withdrawing(env) => WithdrawMoves(cfg, w, t, env.withdrawOk);
    case Clearing => ClearMoves(cfg, w, t);
    case Freeing(x, tail) => FreeMoves(cfg, w, t, x, tail);
    case Ending(tail) => EndMoves(cfg, w, t, tail);
  }

  lemma Begins(cfg: Config, w: L.World, t: L.Thread, m: State, q: L.Point, holder: Option<L.Thread>)
    requires Inv(cfg, w) && Base(cfg, w) && t !in w.threads && Law(cfg, m.log)
    requires HeldOk(cfg, FactsOf(m.log), m.endpoint, m.active) && PointOk(cfg, FactsOf(m.log), q)
    requires FactsOf(m.log) == FactsOf(w.m.log) || w.holder.None?
    ensures Inv(cfg, L.At(w, t, m, q).(holder := holder)) && Inv(cfg, w.(m := m))
  {
    var f := FactsOf(m.log);
    hide Law, FactsOf, HeldOk, PointOk, Base;
    forall u | u in w.threads
      ensures PointOk(cfg, f, w.threads[u])
    {
      if w.holder.None? { Unlocked(cfg, w, u, f); }
    }
  }

  lemma Parts(cfg: Config, w: L.World)
    requires Inv(cfg, w)
    ensures HeldOk(cfg, FactsOf(w.m.log), w.m.endpoint, w.m.active) && Law(cfg, w.m.log)
  {
  }

  /** Taking the lock forgets what the last operation found, not what was committed. */
  lemma StartHeld(cfg: Config, f: Facts, endpoint: Option<Endpoint>, active: Option<Mapping>)
    requires HeldOk(cfg, f, endpoint, active)
    ensures HeldOk(cfg, FactsAfter(f, Started), endpoint, active)
    ensures endpoint.Some? ==> FromCommit(cfg, FactsAfter(f, Started), endpoint.value)
  {
  }

  lemma StepKeeps(cfg: Config, w: L.World, e: L.Event)
    requires Inv(cfg, w) && Base(cfg, w)
    ensures Inv(cfg, L.Step(cfg, w, e))
  {
    hide Inv, Base, Law, FactsOf, HeldOk, FromCommit, L.Advance;
    if !L.Enabled(cfg, w, e) { return; }
    if e.Go? {
      AdvanceKeeps(cfg, w, e.t);
    } else {
      Parts(cfg, w);
      var m := Log(w.m, Started);
      LawSnoc(cfg, w.m.log, Started);
      StartHeld(cfg, FactsOf(w.m.log), w.m.endpoint, w.m.active);
      match e
      case BeginReconcile(t, env, force) =>
        var q := if ListenersReady(cfg) && cfg.enabled then L.Asking(env, force) else L.Failing(env);
        Begins(cfg, w, t, m, q, Some(t));
      case BeginCheck(t, env, sync) =>
        var q := if w.m.endpoint.Some? then L.Checking(env, w.m.endpoint.value, sync) else L.Clearing;
        Begins(cfg, w, t, m, q, Some(t));
      case BeginLose(t, env) => Begins(cfg, w, t, w.m, L.Failing(env), w.holder);
      case BeginStop(t) => Begins(cfg, w, t, w.m, L.Clearing, w.holder);
    }
  }

  lemma {:induction false} RunKeeps(cfg: Config, events: seq<L.Event>)
    ensures Inv(cfg, L.Run(cfg, events))
  {
    if events != [] {
      hide Inv, L.Step;
      var front := events[..|events| - 1];
      RunKeeps(cfg, front);
      IP.RunKeeps(cfg, front);
      SP.RunHeld(cfg, front);
      StepKeeps(cfg, L.Run(cfg, front), events[|events| - 1]);
    }
  }

  // ---------- over every interleaving ----------

  /** While a mapping is in use, the held endpoint announces that mapping: its outside address and its outside ports. */
  lemma HeldAnnouncesMapping(cfg: Config, events: seq<L.Event>)
    ensures var m := L.Run(cfg, events).m;
      m.active.Some? ==> m.endpoint.Some? && OnMapping(m.active.value, m.endpoint.value)
  {
    hide L.Run;
    RunKeeps(cfg, events);
    var m := L.Run(cfg, events).m;
    if m.active.Some? { var _ := LastCommitFit(cfg, m.log); }
  }

  /** The candidate committed last was fit when it was committed. */
  lemma {:induction false} LastCommitFit(cfg: Config, log: seq<Action>) returns (i: nat)
    requires Law(cfg, log) && FactsOf(log).commit.Some?
    ensures i < |log| && log[i] == Committed(FactsOf(log).commit.value)
    ensures Fit(cfg, FactsOf(log[..i]), FactsOf(log).commit.value)
  {
    var n := |log| - 1;
    assert Lawful(cfg, FactsOf(log[..n]), log[n]);
    hide Fit;
    i := n;
    if !log[n].Committed? {
      assert forall j :: 0 <= j < n ==> log[..n][j] == log[j] && log[..n][..j] == log[..j];
      i := LastCommitFit(cfg, log[..n]);
    }
  }

  /** Every candidate that was committed announces what that operation found: the outside address and ports of the
      mapping it obtained, or the discovered IPv4 address and the local ports; the discovered IPv6 address on the
      local ports; only in families configured and bound; and only with TLS. */
  lemma CommittedAnnounces(cfg: Config, events: seq<L.Event>, i: nat)
    requires i < |L.Run(cfg, events).m.log| && L.Run(cfg, events).m.log[i].Committed?
    ensures var log := L.Run(cfg, events).m.log;
      Announces(cfg, FactsOf(log[..i]), log[i].c) && HasAddress(log[i].c.e) && Listens(cfg) && cfg.tls
  {
    hide L.Run, Announces, FactsOf;
    RunKeeps(cfg, events);
    var log := L.Run(cfg, events).m.log;
    assert Lawful(cfg, FactsOf(log[..i]), log[i]);
  }

  /** Every endpoint published is the last one committed, or one family of it: IPv4 alone on the same ports, or IPv6
      alone on the local ports. */
  lemma PublishedFromCommit(cfg: Config, events: seq<L.Event>, i: nat)
    requires i < |L.Run(cfg, events).m.log| && L.Run(cfg, events).m.log[i].Published?
    ensures var log := L.Run(cfg, events).m.log;
      FactsOf(log[..i]).commit.Some? && Narrows(cfg, FactsOf(log[..i]).commit.value.e, log[i].e)
  {
    hide L.Run, Narrows, FactsOf;
    RunKeeps(cfg, events);
    var log := L.Run(cfg, events).m.log;
    assert Lawful(cfg, FactsOf(log[..i]), log[i]);
  }

  /** A held endpoint likewise. */
  lemma HeldFromCommit(cfg: Config, events: seq<L.Event>)
    ensures var m := L.Run(cfg, events).m;
      m.endpoint.Some? ==> FromCommit(cfg, FactsOf(m.log), m.endpoint.value)
  {
    hide L.Run, FromCommit, FactsOf;
    RunKeeps(cfg, events);
  }

  /** Pruning with LocalValidator keeps exactly the families that passed. */
  lemma PruningKeepsWhatPassed(e: Endpoint, r: Validation)
    requires Local(e, r)
    ensures Validated(e, r).ipv4 == if Good(r.ipv4) then e.ipv4 else None
    ensures Validated(e, r).ipv6 == if Good(r.ipv6) then e.ipv6 else None
    ensures Validated(e, r).derpPort == e.derpPort && Validated(e, r).stunPort == e.stunPort
  {
  }

  /** A reconcile commits if and only if it ends up with an address, TLS is configured, the certificate can be
      refreshed, the route can be inspected where IPv4 is mapped, and, where validation is on or forced, a family
      passes and the certificate can be refreshed again. */
  lemma ReconcileCommitsIff(cfg: Config, s: State, env: Env, force: bool)
    ensures var e, vets := Gathered(cfg, env).e, cfg.validate || force;
      Prepare(cfg, s, env, force).Holding? <==>
        && (e.ipv4.Some? || e.ipv6.Some?) && cfg.tls && (cfg.hasCert ==> env.certOk)
        && (cfg.mode.Nat? && e.ipv4.Some? ==> env.fingerprint.Some?)
        && (vets ==> Validated(e, env.validate(e)).ipv4.Some? || Validated(e, env.validate(e)).ipv6.Some?)
        && (vets && cfg.hasCert ==> env.certOkAgain)
  {
    GatherIs(cfg, s, env);
    hide Gather, Gathered, Validated, FactsOf, LocalPorts;
  }

  /** A failure leaves what is held alone, or lets go of all of it. */
  lemma FailHoldsOrClears(cfg: Config, s: State, ok: bool)
    ensures var r := Fail(cfg, s, ok);
      if |r.log| == |s.log| + 1
      then r.endpoint == s.endpoint && r.active == s.active && r.network == s.network
      else r.endpoint.None? && r.active.None? && r.network.None?
  {
  }

  // ---------- serialised runs: the mapping is in use as long as its address is held ----------

  /** IPv4 is held together with the mapping it was committed with, if any, and the network it was seen on. */
  predicate InUse(s: State) {
    && (s.endpoint.None? ==> s.active.None?)
    && (s.endpoint.Some? && s.endpoint.value.ipv4.Some? ==>
          FactsOf(s.log).commit.Some? && s.active == FactsOf(s.log).commit.value.mapping)
    && (s.active.Some? ==> FactsOf(s.log).commit.Some? && s.network == FactsOf(s.log).commit.value.network)
  }

  /** The state moved without touching endpoint, mapping, network or the last commit. */
  predicate Untouched(s: State, s': State) {
    && s'.endpoint == s.endpoint && s'.active == s.active && s'.network == s.network
    && FactsOf(s'.log).commit == FactsOf(s.log).commit
  }

  lemma FailInUse(cfg: Config, s: State, ok: bool)
    requires InUse(s)
    ensures InUse(Fail(cfg, s, ok))
  {
    hide FactsOf;
    var noted := NoteFailure(cfg, s);
    Snoc(s.log, FailureNoted(s.phase.Withdrawn?));
  }

  lemma PrepareUntouched(cfg: Config, s: State, env: Env, force: bool)
    ensures var p := Prepare(cfg, s, env, force); Untouched(s, p.s)
  {
    hide FactsOf, Gather, Equip, Vet;
    GatherIs(cfg, s, env);
    ToldCommit(cfg, env, FactsOf(s.log));
    hide Told;
    var g := Gather(cfg, s, env);
    EquipUntouched(cfg, g.s, env, g.c);
    var q := Equip(cfg, g.s, env, g.c);
    if q.Holding? { VetUntouched(cfg, q.s, env, q.c, force); }
  }

  lemma EquipUntouched(cfg: Config, s: State, env: Env, c: Candidate)
    ensures Untouched(s, Equip(cfg, s, env, c).s)
  {
    hide FactsOf;
    ReleaseFacts(s, c.mapping);
  }

  lemma VetUntouched(cfg: Config, s: State, env: Env, c: Candidate, force: bool)
    ensures Untouched(s, Vet(cfg, s, env, c, force).s)
  {
    hide FactsOf, Validated, LocalPorts;
    var r := env.validate(c.e);
    var s1 := Log(s, Checked(c.e, r)).(phase := Validating, verdict := r.state);
    Snoc(s.log, Checked(c.e, r));
    ReleaseFacts(s1, c.mapping);
    ReleaseFacts(Release(s1, c.mapping), None);
  }

  lemma AdoptInUse(cfg: Config, s: State, env: Env, c: Candidate)
    ensures InUse(Adopt(cfg, s, env, c))
  {
    hide FactsOf;
    var s1 := Commit(cfg, s, c);
    Snoc(s.log, Committed(c));
    ReleaseFacts(s1, s.active);
    Snoc(s1.log, Published(c.e));
    Snoc(Release(s1, s.active).log, Published(c.e));
  }

  lemma ReconcileInUse(cfg: Config, s: State, env: Env, force: bool)
    requires InUse(s)
    ensures InUse(Reconciled(cfg, s, env, force))
  {
    hide FactsOf, Fail, Adopt, Prepare;
    Snoc(s.log, Started);
    var s0 := Log(s, Started);
    FailInUse(cfg, s0, env.withdrawOk);
    PrepareUntouched(cfg, s0, env, force);
    var p := Prepare(cfg, s0, env, force);
    FailInUse(cfg, p.s, env.withdrawOk);
    if p.Holding? { AdoptInUse(cfg, p.s, env, p.c); }
  }

  lemma PartialInUse(cfg: Config, s: State, env: Env, e: Endpoint, r: Validation)
    requires InUse(s) && s.endpoint == Some(e)
    ensures InUse(ApplyPartial(cfg, s, env, e, r))
  {
    ValidatedKeeps(e, r);
    hide FactsOf, Fail, Validated;
    FailInUse(cfg, s, env.withdrawOk);
    var pruned := Validated(e, r);
    var s1 := Prune(cfg, s, e, pruned);
    ReleaseFacts(s1, s.active);
    var s2 := if e.ipv4.Some? && pruned.ipv4.None? then Release(s1, s.active) else s1;
    Snoc(s2.log, FailuresReset);
    Snoc(ResetFailures(s2, false).log, Published(s1.endpoint.value));
  }

  lemma LookInUse(cfg: Config, s: State, env: Env)
    requires InUse(s)
    ensures InUse(CheckedNow(cfg, s, env)) && InUse(Synced(cfg, s, env))
  {
    hide FactsOf, Fail, ApplyPartial;
    Snoc(s.log, Started);
    if s.endpoint.Some? {
      var e := s.endpoint.value;
      var r, s0 := env.validate(e), Log(s, Started);
      var s1 := Log(s0, Checked(e, r)).(verdict := r.state);
      Snoc(s0.log, Checked(e, r));
      Snoc(s0.log, Published(e));
      FailInUse(cfg, s1, env.withdrawOk);
      PartialInUse(cfg, s1, env, e, r);
      Snoc(s1.log, FailuresReset);
      Snoc(ResetFailures(s1, true).log, Published(e));
    }
  }

  lemma {:induction false} RunInUse(cfg: Config, ops: seq<Op>)
    ensures InUse(Run(cfg, ops))
  {
    if ops != [] {
      var s, op := Run(cfg, ops[..|ops| - 1]), ops[|ops| - 1];
      RunInUse(cfg, ops[..|ops| - 1]);
      hide InUse, Reconciled, CheckedNow, Synced, Fail;
      match op
      case Reconcile(env, force) => ReconcileInUse(cfg, s, env, force);
      case Check(env) => LookInUse(cfg, s, env);
      case Sync(env) => LookInUse(cfg, s, env);
      case Lose(env) => FailInUse(cfg, s, env.withdrawOk);
      case Stop => StopInUse(s);
    }
  }

  lemma StopInUse(s: State)
    ensures InUse(ReleaseActive(s))
  {
  }

  /** Over serialised runs: a held IPv4 endpoint with a mapping in use announces that mapping; without one it
      announces, on the local ports, the address discovered by the operation that committed it. */
  lemma SerialHeldAnnounces(cfg: Config, ops: seq<Op>)
    requires SL.FreshMappings(cfg, ops)
    ensures var s := Run(cfg, ops);
      s.endpoint.Some? && s.endpoint.value.ipv4.Some? ==>
        if s.active.Some? then OnMapping(s.active.value, s.endpoint.value)
        else
          && OnLocalPorts(cfg, s.endpoint.value) && cfg.mode.Direct?
          && exists i :: 0 <= i < |s.log| && s.log[i].Committed? && s.log[i].c.e.ipv4 == s.endpoint.value.ipv4
               && FactsOf(s.log[..i]).ipv4 == s.endpoint.value.ipv4
  {
    RunInUse(cfg, ops);
    var events := SL.SerialIsInterleaved(cfg, ops);
    HeldAnnouncesMapping(cfg, events);
    RunKeeps(cfg, events);
    var s := Run(cfg, ops);
    hide Run, L.Run, Inv;
    if s.endpoint.Some? && s.endpoint.value.ipv4.Some? && s.active.None? {
      Parts(cfg, L.Run(cfg, events));
      var i := LastCommitFit(cfg, s.log);
      hide Law, FactsOf;
      assert s.log[i].Committed?;
    }
  }

  // ---------- interleaved, it need not be ----------

  const NatConfig := Config(true, Nat, Dual, true, true, false, false, 443, 0, true, true)

  function Gateway(m: Mapping, v6: PM.Addr, sixOk: bool): Env {
    var validate := (e: Endpoint) =>
      Validation(
        if sixOk then Passed else Verdict.Degraded, true, true,
        Some(Family(true, true, true)), Some(Family(sixOk, sixOk, true)));
    Env(None, Some(m), Some(v6), true, Some(None), validate, true, true, true)
  }

  /** A first reconcile on both families: the mapping keeps the local port, so both are announced. */
  lemma DualCommit(m: Mapping, v6: PM.Addr)
    requires m.derp.externalPort == 443 && m.stun.None?
    ensures var s := Reconciled(NatConfig, Initial(NatConfig), Gateway(m, v6, true), false);
      s.endpoint == Some(Endpoint(Some(m.derp.ip), Some(v6), 443, -1)) && s.active == Some(m)
  {
  }

  /** Check reads the endpoint; the mapping is released beside it; then its validation fails for IPv6 only, and Check
      holds the IPv4 address again, of a mapping that is gone. */
  lemma CheckHoldsReleasedMapping(m: Mapping, v6: PM.Addr) returns (events: seq<L.Event>)
    requires m.derp.externalPort == 443 && m.stun.None?
    ensures var s := L.Run(NatConfig, events).m;
      && s.endpoint.Some? && OnMapping(m, s.endpoint.value) && s.active.None? && Released(m) in s.log
  {
    var cfg, e := NatConfig, Endpoint(Some(m.derp.ip), Some(v6), 443, -1);
    var ops, env := [Reconcile(Gateway(m, v6, true), false)], Gateway(m, v6, false);
    assert ops[..0] == [] && Run(cfg, ops) == Step(cfg, Initial(cfg), ops[0]);
    DualCommit(m, v6);
    assert SL.FreshMappings(cfg, ops);
    hide Run, Reconciled;
    events := SL.SerialIsInterleaved(cfg, ops);
    var w := L.Run(cfg, events);
    hide L.Run;
    StopBeside(w, m, e, env);
    events := SP.Then(cfg, events, L.BeginCheck(0, env, false));
    events := SP.Then(cfg, events, L.BeginStop(1));
    events := SP.Then(cfg, events, L.Go(1));
    events := SP.Then(cfg, events, L.Go(1));
    events := SP.Then(cfg, events, L.Go(0));
    events := SP.Then(cfg, events, L.Go(0));
  }

  lemma StopBeside(w: L.World, m: Mapping, e: Endpoint, env: Env)
    requires SL.Idle(w) && w.m.endpoint == Some(e) && w.m.active == Some(m) && e.ipv4.Some? && e.ipv6.Some?
    requires env == Gateway(m, e.ipv6.value, false)
    ensures var cfg := NatConfig;
      var w2 := L.Step(cfg, L.Step(cfg, w, L.BeginCheck(0, env, false)), L.BeginStop(1));
      var w4 := L.Step(cfg, L.Step(cfg, w2, L.Go(1)), L.Go(1));
      var s := L.Step(cfg, L.Step(cfg, w4, L.Go(0)), L.Go(0)).m;
      s.endpoint == Some(e.(ipv6 := None)) && s.active.None? && Released(m) in s.log
  {
    var cfg := NatConfig;
    var w1 := L.Step(cfg, w, L.BeginCheck(0, env, false));
    assert w1.threads == map[0 := L.Checking(env, e, false)];
    var w2 := L.Step(cfg, w1, L.BeginStop(1));
    assert w2.threads == map[0 := L.Checking(env, e, false), 1 := L.Clearing];
    var w3 := L.Step(cfg, w2, L.Go(1));
    assert w3.threads == map[0 := L.Checking(env, e, false), 1 := L.Freeing(m, L.Nothing)] && w3.m.active.None?;
    var w4 := L.Step(cfg, w3, L.Go(1));
    assert w4.threads[0] == L.Checking(env, e, false) && w4.m.active.None? && w4.m.log[|w4.m.log| - 1] == Released(m);
    CheckDegrades(w4, e, env);
  }

  lemma CheckDegrades(w: L.World, e: Endpoint, env: Env)
    requires 0 in w.threads && w.threads[0] == L.Checking(env, e, false) && w.m.active.None?
    requires e.ipv4.Some? && e.ipv6.Some?
    requires exists m :: env == Gateway(m, e.ipv6.value, false)
    ensures var s := L.Step(NatConfig, L.Step(NatConfig, w, L.Go(0)), L.Go(0)).m;
      s.endpoint == Some(e.(ipv6 := None)) && s.active.None? && w.m.log <= s.log
  {
    var w1 := L.Step(NatConfig, w, L.Go(0));
    assert w1.threads[0] == L.Judged(env, e, env.validate(e), false);
  }
}
