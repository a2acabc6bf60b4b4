/**
 How the operations of the endpoint manager end: when a reconcile commits and what it leaves, when Sync and Check
 publish, and which states an operator can see between operations.
 */
module Outcomes {
  import opened Basics
  import opened Validator
  import opened Manager
  import A = Announcements

  // ---------- reconcile ----------

  /** The candidate goes through: it has an address, TLS is set up, the certificate covers it, the route of a mapped
      address can be read, and where validation is on or forced a family passes. */
  predicate Passes(cfg: Config, env: Env, force: bool) {
    var e, vets := A.Gathered(cfg, env).e, cfg.validate || force;
    && A.Listens(cfg) && cfg.tls && HasAddress(e) && (cfg.hasCert ==> env.certOk)
    && (cfg.mode.Nat? && e.ipv4.Some? ==> env.fingerprint.Some?)
    && (vets ==> HasAddress(Validated(e, env.validate(e))))
    && (vets && cfg.hasCert ==> env.certOkAgain)
  }

  /** Nothing is missing: every configured family was found, and validation, where it ran, passed in full. */
  predicate Complete(cfg: Config, env: Env, force: bool) {
    var e := A.Gathered(cfg, env).e;
    && (cfg.families.IPv4Only? || cfg.families.Dual? ==> e.ipv4.Some?)
    && (cfg.families.IPv6Only? || cfg.families.Dual? ==> e.ipv6.Some?)
    && (cfg.validate || force ==> env.validate(e).state.Passed?)
  }

  /** What is left of the candidate. */
  function Outcome(cfg: Config, env: Env, force: bool): Endpoint {
    var e := A.Gathered(cfg, env).e;
    if cfg.validate || force then Vetted(cfg, env, e) else e
  }

  lemma GatheredProblems(cfg: Config, env: Env)
    ensures var c := A.Gathered(cfg, env);
      && (c.problems <==>
           || ((cfg.families.IPv4Only? || cfg.families.Dual?) && c.e.ipv4.None?)
           || ((cfg.families.IPv6Only? || cfg.families.Dual?) && c.e.ipv6.None?))
      && c.network.None?
      && (c.mapping.Some? ==> c.e.ipv4.Some? && !cfg.mode.Direct?)
      && (c.mapping.None? ==> A.OnLocalPorts(cfg, c.e))
      && (cfg.mode.Nat? && c.e.ipv4.Some? ==> c.mapping.Some?)
  {
  }

  lemma EquipIs(cfg: Config, s: State, env: Env, c: Candidate)
    requires c.network.None?
    ensures var p := Equip(cfg, s, env, c);
      && (p.Holding? <==>
           && HasAddress(c.e) && cfg.tls && (cfg.hasCert ==> env.certOk)
           && (cfg.mode.Nat? && c.e.ipv4.Some? ==> env.fingerprint.Some?))
      && p.s.failures == s.failures && p.s.withdrawRetry == s.withdrawRetry
      && p.s.endpoint == s.endpoint && p.s.active == s.active && p.s.network == s.network && p.s.phase == s.phase
      && (p.Holding? ==>
            p.c == c.(network := if cfg.mode.Nat? && c.e.ipv4.Some? then env.fingerprint.value else None))
  {
  }

  /** What validation leaves of an endpoint: an address that fails goes, and with IPv4 its ports. */
  function Vetted(cfg: Config, env: Env, e: Endpoint): Endpoint {
    var v := Validated(e, env.validate(e));
    if e.ipv4.Some? && v.ipv4.None?
    then v.(derpPort := cfg.localDerp, stunPort := if cfg.stun then cfg.localStun else -1) else v
  }

  lemma VettedHas(cfg: Config, env: Env, e: Endpoint)
    ensures HasAddress(Vetted(cfg, env, e)) <==> HasAddress(Validated(e, env.validate(e)))
    ensures Vetted(cfg, env, e).ipv4 == Validated(e, env.validate(e)).ipv4
    ensures e.ipv4.None? ==> Vetted(cfg, env, e).ipv4.None?
  {
  }

  lemma VetIs(cfg: Config, s: State, env: Env, c: Candidate)
    requires c.mapping.None? ==> A.OnLocalPorts(cfg, c.e)
    requires c.mapping.Some? ==> c.e.ipv4.Some?
    requires c.network.Some? ==> c.mapping.Some?
    ensures var p, v := Vet(cfg, s, env, c, true), Vetted(cfg, env, c.e);
      && (p.Holding? <==> HasAddress(v) && (cfg.hasCert ==> env.certOkAgain))
      && p.s.failures == s.failures && p.s.withdrawRetry == s.withdrawRetry
      && p.s.endpoint == s.endpoint && p.s.active == s.active && p.s.network == s.network && p.s.phase.Validating?
      && p.s.verdict == env.validate(c.e).state
      && (p.Holding? ==>
           && p.c.e == v && (p.c.problems <==> c.problems || !env.validate(c.e).state.Passed?)
           && p.c.network == (if v.ipv4.Some? then c.network else None)
           && (p.c.network.Some? ==> p.c.mapping.Some?))
  {
  }

  /** Forcing validation is the same as having it on. */
  lemma VetForced(cfg: Config, s: State, env: Env, c: Candidate, force: bool)
    ensures Vet(cfg, s, env, c, force) ==
      if cfg.validate || force then Vet(cfg, s, env, c, true) else Holding(s.(verdict := Verdict.Disabled), c)
  {
    hide Validated;
  }

  lemma Composed(cfg: Config, s: State, env: Env, force: bool)
    ensures var g := Gather(cfg, s, env);
      g.Holding? ==>
        var q := Equip(cfg, g.s, env, g.c);
        Prepare(cfg, s, env, force) == if q.GivenUp? then GivenUp(q.s) else Vet(cfg, q.s, env, q.c, force)
  {
    hide Gather, Equip, Vet;
  }

  /** The candidate that a reconcile ends up with. */
  lemma PrepareIs(cfg: Config, s: State, env: Env, force: bool)
    requires A.Listens(cfg)
    ensures var p, vets := Prepare(cfg, s, env, force), cfg.validate || force;
      && (p.Holding? <==> Passes(cfg, env, force))
      && p.s.failures == s.failures && p.s.withdrawRetry == s.withdrawRetry
      && p.s.endpoint == s.endpoint && p.s.active == s.active && p.s.network == s.network
      && (p.s.phase.Attempting? || p.s.phase.Validating?)
      && (p.Holding? ==>
           && p.c.e == Outcome(cfg, env, force)
           && p.c.network == (if cfg.mode.Nat? && p.c.e.ipv4.Some? then env.fingerprint.value else None)
           && p.s.verdict == (if vets then env.validate(A.Gathered(cfg, env).e).state else Verdict.Disabled)
           && (p.c.problems <==> !Complete(cfg, env, force))
           && (p.c.network.Some? ==> p.c.mapping.Some?))
  {
    hide A.FactsOf, A.Told, Gather, Equip, Vet, A.Gathered, Validated, Vetted, Prepare;
    A.GatherIs(cfg, s, env);
    GatherCounts(cfg, s, env);
    GatheredProblems(cfg, env);
    Composed(cfg, s, env, force);
    var g := Gather(cfg, s, env);
    EquipIs(cfg, g.s, env, g.c);
    VettedHas(cfg, env, g.c.e);
    var q := Equip(cfg, g.s, env, g.c);
    if q.Holding? {
      VetForced(cfg, q.s, env, q.c, force);
      VetIs(cfg, q.s, env, q.c);
    }
  }

  lemma GatherCounts(cfg: Config, s: State, env: Env)
    ensures var p := Gather(cfg, s, env).s;
      p.failures == s.failures && p.withdrawRetry == s.withdrawRetry && p.phase.Attempting?
  {
    hide AskIPv4, AskIPv6, WithoutMapping, PortsClash;
  }

  /** A reconcile that goes through holds and publishes exactly its outcome, on the network it was found on, with the
      failures forgotten; it is ready if nothing is missing and the publish succeeded, and limited otherwise. */
  lemma ReconcileHolds(cfg: Config, s: State, env: Env, force: bool)
    requires Passes(cfg, env, force)
    ensures var r, e := Reconciled(cfg, s, env, force), Outcome(cfg, env, force);
      && r.endpoint == Some(e) && r.log != [] && r.log[|r.log| - 1] == Published(e) && r.failures == 0
      && r.network == (if cfg.mode.Nat? && e.ipv4.Some? then env.fingerprint.value else None)
      && r.phase == (if Complete(cfg, env, force) && env.publishOk then Ready else Limited)
      && r.withdrawRetry == s.withdrawRetry && (r.network.Some? ==> r.active.Some?)
  {
    hide Prepare, Passes, Complete, Outcome;
    Reveals(cfg, env, force);
    PrepareIs(cfg, Log(s, Started), env, force);
    VerdictCounts(cfg, env, force);
  }

  lemma Reveals(cfg: Config, env: Env, force: bool)
    ensures Passes(cfg, env, force) ==> A.Listens(cfg)
  {
  }

  lemma VerdictCounts(cfg: Config, env: Env, force: bool)
    ensures Complete(cfg, env, force) && cfg.validate ==> env.validate(A.Gathered(cfg, env).e).state.Passed?
  {
  }

  /** Otherwise it fails and publishes nothing; what was held stays, or is let go. */
  lemma ReconcileFails(cfg: Config, s: State, env: Env, force: bool)
    requires !Passes(cfg, env, force)
    ensures var r := Reconciled(cfg, s, env, force);
      && (!cfg.enabled ==> r == s.(log := s.log + [Started]))
      && (cfg.enabled ==>
           && r.log != [] && !r.log[|r.log| - 1].Published?
           && (r.endpoint == s.endpoint || r.endpoint.None?)
           && r.failures == s.failures + (if cfg.validate then 1 else 0))
  {
    hide Prepare, Passes;
    if A.Listens(cfg) {
      PrepareIs(cfg, Log(s, Started), env, force);
    }
  }

  // ---------- Check and Sync ----------

  /** A degraded result can be acted on: a family is left and the certificate covers it. */
  predicate Prunes(cfg: Config, env: Env, e: Endpoint) {
    var r := env.validate(e);
    r.state.Degraded? && HasAddress(Validated(e, r)) && (cfg.hasCert ==> env.certOk)
  }

  predicate Publishes(s: State) {
    s.log != [] && s.log[|s.log| - 1].Published?
  }

  lemma FailCounts(cfg: Config, s: State, ok: bool)
    ensures var r := Fail(cfg, s, ok);
      !Publishes(r) && r.failures == s.failures + (if cfg.validate then 1 else 0) && r.verdict == s.verdict
  {
  }

  lemma PartialIs(cfg: Config, s: State, env: Env, e: Endpoint)
    ensures var r := ApplyPartial(cfg, s, env, e, env.validate(e));
      && r.verdict == s.verdict
      && (env.validate(e).state.Degraded? ==>
           && (Publishes(r) <==> Prunes(cfg, env, e))
           && (Publishes(r) ==>
                r.endpoint == Some(r.log[|r.log| - 1].e) && r.phase.Limited? && r.failures == 0 && !r.withdrawRetry)
           && (!Publishes(r) ==> r.failures == s.failures + (if cfg.validate then 1 else 0)))
  {
    hide Validated, Fail;
    FailCounts(cfg, s, env.withdrawOk);
  }

  /** Sync publishes what it holds afterwards, unless validation fails or leaves nothing. */
  lemma SyncPublishesIff(cfg: Config, s: State, env: Env)
    requires s.endpoint.Some?
    ensures var r, v := Synced(cfg, s, env), env.validate(s.endpoint.value).state;
      && (Publishes(r) <==> !cfg.validate || v.Passed? || v.Disabled? || Prunes(cfg, env, s.endpoint.value))
      && (Publishes(r) ==> r.endpoint == Some(r.log[|r.log| - 1].e))
      && (Publishes(r) && cfg.validate ==> r.failures == 0 && !r.withdrawRetry)
      && (!Publishes(r) ==> r.failures == s.failures + 1)
      && (cfg.validate ==> r.verdict == v)
  {
    hide Validated, Fail, ApplyPartial;
    var s1 := Looked(s, env);
    FailCounts(cfg, s1, env.withdrawOk);
    PartialIs(cfg, s1, env, s.endpoint.value);
  }

  /** The state in which Check and Sync have their result. */
  function Looked(s: State, env: Env): State
    requires s.endpoint.Some?
  {
    var r := env.validate(s.endpoint.value);
    Log(Log(s, Started), Checked(s.endpoint.value, r)).(verdict := r.state)
  }

  lemma PrunesDegraded(cfg: Config, env: Env, e: Endpoint)
    ensures Prunes(cfg, env, e) ==> env.validate(e).state.Degraded?
  {
  }

  /** Check publishes only what it has pruned. A failed check counts only where validation is on. */
  lemma CheckPublishesIff(cfg: Config, s: State, env: Env)
    requires s.endpoint.Some?
    ensures var r, v := CheckedNow(cfg, s, env), env.validate(s.endpoint.value).state;
      && (Publishes(r) <==> Prunes(cfg, env, s.endpoint.value))
      && (Publishes(r) ==> r.endpoint == Some(r.log[|r.log| - 1].e) && r.phase.Limited?)
      && (v.Failed? && !cfg.validate ==>
           r == s.(log := s.log + [Started, Checked(s.endpoint.value, env.validate(s.endpoint.value))], verdict := v))
      && (v.Failed? && cfg.validate ==> r.failures == s.failures + 1)
      && (v.Passed? || v.Disabled? ==>
           && r.failures == 0 && !r.withdrawRetry && r.endpoint == s.endpoint
           && r.phase == if s.failures > 0 then Ready else s.phase)
      && r.verdict == v
  {
    hide Validated, Fail, ApplyPartial, Prunes;
    var s1 := Looked(s, env);
    FailCounts(cfg, s1, env.withdrawOk);
    PartialIs(cfg, s1, env, s.endpoint.value);
    PrunesDegraded(cfg, env, s.endpoint.value);
    assert s.log + [Started] + [Checked(s.endpoint.value, env.validate(s.endpoint.value))] ==
      s.log + [Started, Checked(s.endpoint.value, env.validate(s.endpoint.value))];
  }

  // ---------- what an operator sees between operations ----------

  predicate Stopped(ops: seq<Op>) {
    exists i :: 0 <= i < |ops| && ops[i].Stop?
  }

  /** Between operations no state is one of those shown only while an operation runs; a ready manager holds an endpoint
      and has no failures; one that counts failures is limited, or from the third on withdrawn; without validation a
      failure shows as stale while a mapping is in use, and as broken otherwise; and a network is remembered only
      with a mapping. */
  predicate Shows(cfg: Config, s: State, stopped: bool) {
    && !s.phase.Attempting? && !s.phase.Validating?
    && (s.phase.Off? <==> !cfg.enabled)
    && (s.phase.Discovering? ==> s.endpoint.None? && s.failures == 0)
    && (s.phase.Ready? ==> s.failures == 0 && (s.endpoint.Some? || stopped))
    && (s.phase.Stale? || s.phase.Broken? ==> !cfg.validate)
    && (s.phase.Stale? ==> s.active.Some? || stopped) && (s.phase.Broken? ==> s.active.None?)
    && (s.phase.Withdrawn? ==> cfg.validate && s.failures > 0 && s.endpoint.None?)
    && (s.failures > 0 ==> cfg.validate && (s.phase.Limited? || s.phase.Withdrawn?))
    && (s.failures >= 3 ==> s.phase.Withdrawn?)
    && (!cfg.validate ==> !s.withdrawRetry)
    && (!cfg.enabled ==> s.endpoint.None?)
    && (s.network.Some? ==> s.active.Some?)
  }

  /** What a failure starts from: between operations, or inside a reconcile. */
  predicate MayFail(cfg: Config, s: State, stopped: bool) {
    && cfg.enabled && (!cfg.validate ==> !s.withdrawRetry && s.failures == 0)
    && (s.failures >= 2 && s.endpoint.Some? ==> s.failures == 2 && !s.phase.Withdrawn?)
    && (s.phase.Withdrawn? ==> s.endpoint.None?)
    && (s.network.Some? ==> s.active.Some?)
  }

  lemma FailShows(cfg: Config, s: State, ok: bool, stopped: bool)
    requires MayFail(cfg, s, stopped)
    ensures Shows(cfg, Fail(cfg, s, ok), stopped)
  {
  }

  lemma ReconcileShows(cfg: Config, s: State, env: Env, force: bool, stopped: bool)
    requires Shows(cfg, s, stopped)
    ensures Shows(cfg, Reconciled(cfg, s, env, force), stopped)
  {
    hide Fail, Passes, Complete, Outcome;
    var s0 := Log(s, Started);
    if Passes(cfg, env, force) {
      Reveals(cfg, env, force);
      ReconcileHolds(cfg, s, env, force);
    } else if cfg.enabled && !A.Listens(cfg) {
      FailShows(cfg, s0, env.withdrawOk, stopped);
    } else if cfg.enabled {
      PrepareIs(cfg, s0, env, force);
      hide Prepare;
      FailShows(cfg, Prepare(cfg, s0, env, force).s, env.withdrawOk, stopped);
    }
  }

  lemma PartialShows(cfg: Config, s: State, env: Env, r: Validation, stopped: bool)
    requires Shows(cfg, s, stopped) && s.endpoint.Some?
    ensures Shows(cfg, ApplyPartial(cfg, s, env, s.endpoint.value, r), stopped)
  {
    hide Fail, Validated;
    FailShows(cfg, s, env.withdrawOk, stopped);
  }

  lemma LookShows(cfg: Config, s: State, env: Env, stopped: bool)
    requires Shows(cfg, s, stopped)
    ensures Shows(cfg, CheckedNow(cfg, s, env), stopped) && Shows(cfg, Synced(cfg, s, env), stopped)
  {
    if s.endpoint.Some? {
      hide Fail, ApplyPartial;
      var e := s.endpoint.value;
      var r := env.validate(e);
      var s1 := Log(Log(s, Started), Checked(e, r)).(verdict := r.state);
      FailShows(cfg, s1, env.withdrawOk, stopped);
      PartialShows(cfg, s1, env, r, stopped);
    }
  }

  lemma {:induction false} RunShows(cfg: Config, ops: seq<Op>)
    ensures Shows(cfg, Run(cfg, ops), Stopped(ops))
  {
    if ops != [] {
      var front, op := ops[..|ops| - 1], ops[|ops| - 1];
      var s, stopped := Run(cfg, front), Stopped(ops);
      RunShows(cfg, front);
      assert Stopped(front) ==> stopped by {
        if i :| 0 <= i < |front| && front[i].Stop? { assert ops[i].Stop?; }
      }
      assert Shows(cfg, s, stopped);
      assert op.Stop? ==> stopped;
      match op
      case Reconcile(env, force) => ReconcileShows(cfg, s, env, force, stopped);
      case Check(env) => LookShows(cfg, s, env, stopped);
      case Sync(env) => LookShows(cfg, s, env, stopped);
      case Lose(env) => if s.endpoint.Some? { FailShows(cfg, s, env.withdrawOk, stopped); }
      case Stop =>
    }
  }
}
