/**
 The two models of the endpoint manager agree: an operation of module Leases that is left alone does
 exactly what the operation of module Manager does in one piece. So serialised runs are interleaved runs,
 and the ownership of mappings carries over to them.
 */
module SerialLeases {
  import opened Basics
  import opened Validator
  import opened Manager
  import L = Leases

  /** Thread `t` takes `n` steps; a step of a thread that has ended does nothing. */
  ghost function GoOn(cfg: Config, w: L.World, t: L.Thread, n: nat): L.World
    decreases n
  {
    if n == 0 then w else GoOn(cfg, L.Step(cfg, w, L.Go(t)), t, n - 1)
  }

  ghost predicate Idle(w: L.World) {
    w.threads == map[] && w.holder.None?
  }

  /** Only `t` runs, and it is at `p`. */
  ghost predicate Solo(w: L.World, t: L.Thread, p: L.Point) {
    w.threads == map[t := p] && (w.holder.None? || w.holder == Some(t))
  }

  /** After `n` steps of `t` nobody runs and the manager is in state `m`. */
  ghost predicate Leads(cfg: Config, w: L.World, t: L.Thread, n: nat, m: State) {
    Idle(GoOn(cfg, w, t, n)) && GoOn(cfg, w, t, n).m == m
  }

  // ---------- one step of a thread that is alone ----------

  lemma MovesTo(w: L.World, w0: L.World, t: L.Thread, p: L.Point, m: State, q: L.Point)
    requires Solo(w, t, p) && w0.threads == w.threads && w0.holder == w.holder
    ensures Solo(L.At(w0, t, m, q), t, q) && L.At(w0, t, m, q).m == m
    ensures Idle(L.Finish(w0, t, m)) && L.Finish(w0, t, m).m == m
  {
  }

  lemma OneStep(cfg: Config, w: L.World, t: L.Thread, p: L.Point, n: nat, m: State)
    requires Solo(w, t, p) && (p.Asking? ==> L.FreshAnswer(cfg, w, p)) && Leads(cfg, L.Advance(cfg, w, t), t, n, m)
    ensures Leads(cfg, w, t, n + 1, m)
  {
    hide L.Advance;
    assert L.Step(cfg, w, L.Go(t)) == L.Advance(cfg, w, t);
  }

  lemma Ended(cfg: Config, w: L.World, t: L.Thread)
    requires Idle(w)
    ensures Leads(cfg, w, t, 0, w.m)
  {
  }

  // ---------- the tails ----------

  function After(m: State, rest: L.Tail): State {
    match rest
    case Nothing => m
    case Announce(e, ok) => if ok then Log(m, Published(e)) else Log(m, Published(e)).(phase := Limited)
    case ResetAndAnnounce(e) => Log(ResetFailures(m, false), Published(e))
  }

  lemma SoloEnd(cfg: Config, w: L.World, t: L.Thread, rest: L.Tail) returns (n: nat)
    requires Solo(w, t, L.Ending(rest))
    ensures Leads(cfg, w, t, n, After(w.m, rest))
    decreases rest.ResetAndAnnounce?
  {
    hide Leads;
    var w1 := L.Advance(cfg, w, t);
    if rest.ResetAndAnnounce? {
      MovesTo(w, w, t, L.Ending(rest), ResetFailures(w.m, false), L.Ending(L.Announce(rest.e, true)));
      n := SoloEnd(cfg, w1, t, L.Announce(rest.e, true));
    } else {
      MovesTo(w, w, t, L.Ending(rest), After(w.m, rest), L.Clearing);
      Ended(cfg, w1, t);
      n := 0;
    }
    OneStep(cfg, w, t, L.Ending(rest), n, After(w.m, rest));
    n := n + 1;
  }

  lemma SoloFree(cfg: Config, w: L.World, t: L.Thread, x: Mapping, rest: L.Tail) returns (n: nat)
    requires Solo(w, t, L.Freeing(x, rest))
    ensures Leads(cfg, w, t, n, After(Release(w.m, Some(x)), rest))
  {
    hide Leads, After;
    MovesTo(w, L.Put(w, Some(x), L.GivenBack), t, L.Freeing(x, rest), Release(w.m, Some(x)), L.Ending(rest));
    n := SoloEnd(cfg, L.Advance(cfg, w, t), t, rest);
    OneStep(cfg, w, t, L.Freeing(x, rest), n, After(Release(w.m, Some(x)), rest));
    n := n + 1;
  }

  lemma SoloClear(cfg: Config, w: L.World, t: L.Thread) returns (n: nat)
    requires Solo(w, t, L.Clearing)
    ensures Leads(cfg, w, t, n, ReleaseActive(w.m))
  {
    hide Leads;
    var w1 := L.Advance(cfg, w, t);
    if w.m.active.Some? {
      MovesTo(w, L.Put(w, w.m.active, L.Held(t)), t, L.Clearing, DropActive(w.m),
          L.Freeing(w.m.active.value, L.Nothing));
      n := SoloFree(cfg, w1, t, w.m.active.value, L.Nothing);
    } else {
      MovesTo(w, w, t, L.Clearing, DropActive(w.m), L.Clearing);
      Ended(cfg, w1, t);
      n := 0;
    }
    OneStep(cfg, w, t, L.Clearing, n, ReleaseActive(w.m));
    n := n + 1;
  }

  lemma SoloFail(cfg: Config, w: L.World, t: L.Thread, env: Env) returns (n: nat)
    requires Solo(w, t, L.Failing(env))
    ensures Leads(cfg, w, t, n, Fail(cfg, w.m, env.withdrawOk))
  {
    hide Leads, NoteFailure, ReleaseActive;
    var s := NoteFailure(cfg, w.m);
    var w1 := L.Advance(cfg, w, t);
    MovesTo(w, w, t, L.Failing(env), s, L.Withdrawing(env));
    if s.withdrawRetry {
      var w2 := L.Advance(cfg, w1, t);
      MovesTo(w1, w1, t, L.Withdrawing(env), NoteWithdrawal(s, env.withdrawOk), L.Clearing);
      n := SoloClear(cfg, w2, t);
      OneStep(cfg, w1, t, L.Withdrawing(env), n, Fail(cfg, w.m, env.withdrawOk));
      n := n + 1;
    } else {
      Ended(cfg, w1, t);
      n := 0;
    }
    OneStep(cfg, w, t, L.Failing(env), n, Fail(cfg, w.m, env.withdrawOk));
    n := n + 1;
  }

  // ---------- reconcile ----------

  lemma SoloCommit(cfg: Config, w: L.World, t: L.Thread, env: Env, c: Candidate) returns (n: nat)
    requires Solo(w, t, L.Committing(env, c))
    ensures Leads(cfg, w, t, n, Adopt(cfg, w.m, env, c))
  {
    hide Leads, Commit;
    var s := Commit(cfg, w.m, c);
    var rest := L.Announce(c.e, env.publishOk);
    var w0 := L.Put(w, c.mapping, L.Active);
    var w1 := L.Advance(cfg, w, t);
    if L.Replaces(w.m, c) {
      MovesTo(w, L.Put(w0, w.m.active, L.Held(t)), t, L.Committing(env, c), s, L.Freeing(w.m.active.value, rest));
      n := SoloFree(cfg, w1, t, w.m.active.value, rest);
    } else {
      MovesTo(w, w0, t, L.Committing(env, c), s, L.Ending(rest));
      if w.m.active.Some? {
        MovesTo(w, L.Put(w0, w.m.active, L.Superseded(c.mapping.value, c.network)), t, L.Committing(env, c), s,
            L.Ending(rest));
      }
      n := SoloEnd(cfg, w1, t, rest);
    }
    OneStep(cfg, w, t, L.Committing(env, c), n, Adopt(cfg, w.m, env, c));
    n := n + 1;
  }

  /** What is left of a reconcile that holds a candidate, before and after its certificate and route are known. */
  ghost function AfterVet(cfg: Config, m: State, env: Env, c: Candidate, force: bool): State {
    match Vet(cfg, m, env, c, force)
    case GivenUp(s) => Fail(cfg, s, env.withdrawOk)
    case Holding(s, c1) => Adopt(cfg, s, env, c1)
  }

  ghost function Rest(cfg: Config, m: State, env: Env, c: Candidate, force: bool): State {
    match Equip(cfg, m, env, c)
    case GivenUp(s) => Fail(cfg, s, env.withdrawOk)
    case Holding(s, c1) => AfterVet(cfg, s, env, c1, force)
  }

  lemma SoloVet(cfg: Config, w: L.World, t: L.Thread, env: Env, c: Candidate, force: bool) returns (n: nat)
    requires Solo(w, t, L.Vetting(env, force, c))
    ensures Leads(cfg, w, t, n, AfterVet(cfg, w.m, env, c, force))
  {
    hide Leads, Vet, Fail, Adopt;
    var p, w1, at := Vet(cfg, w.m, env, c, force), L.Advance(cfg, w, t), L.Vetting(env, force, c);
    var back := L.Put(w, c.mapping, L.GivenBack);
    if p.GivenUp? {
      MovesTo(w, back, t, at, p.s, L.Failing(env));
      n := SoloFail(cfg, w1, t, env);
    } else {
      MovesTo(w, if p.c.mapping.None? then back else w, t, at, p.s, L.Committing(env, p.c));
      n := SoloCommit(cfg, w1, t, env, p.c);
    }
    OneStep(cfg, w, t, at, n, AfterVet(cfg, w.m, env, c, force));
    n := n + 1;
  }

  lemma SoloTry(cfg: Config, w: L.World, t: L.Thread, env: Env, c: Candidate, force: bool) returns (n: nat)
    requires Solo(w, t, L.Trying(env, force, c))
    ensures Leads(cfg, w, t, n, Rest(cfg, w.m, env, c, force))
  {
    hide Leads, Equip, Fail, AfterVet;
    var p, w1, at := Equip(cfg, w.m, env, c), L.Advance(cfg, w, t), L.Trying(env, force, c);
    if p.GivenUp? {
      MovesTo(w, L.Put(w, c.mapping, L.GivenBack), t, at, p.s, L.Failing(env));
      n := SoloFail(cfg, w1, t, env);
    } else {
      MovesTo(w, w, t, at, p.s, L.Vetting(env, force, p.c));
      n := SoloVet(cfg, w1, t, env, p.c, force);
    }
    OneStep(cfg, w, t, at, n, Rest(cfg, w.m, env, c, force));
    n := n + 1;
  }

  lemma SoloReconcile(cfg: Config, w: L.World, t: L.Thread, env: Env, force: bool) returns (n: nat)
    requires Idle(w) && L.FreshAnswer(cfg, w, L.Asking(env, force))
    ensures Leads(cfg, L.Step(cfg, w, L.BeginReconcile(t, env, force)), t, n, Reconciled(cfg, w.m, env, force))
  {
    hide Leads, Fail, Adopt, Equip, Vet, Gather;
    var w1 := L.Step(cfg, w, L.BeginReconcile(t, env, force));
    if !cfg.enabled {
      Ended(cfg, w1, t);
      n := 0;
    } else if !ListenersReady(cfg) {
      assert Solo(w1, t, L.Failing(env));
      n := SoloFail(cfg, w1, t, env);
    } else {
      var at := L.Asking(env, force);
      assert Solo(w1, t, at);
      var g, w2 := Gather(cfg, w1.m, env), L.Advance(cfg, w1, t);
      L.GatherAdds(cfg, w1.m, env);
      MovesTo(w1, L.Put(w1, AskIPv4(cfg, env).mapping, if g.c.mapping.Some? then L.Held(t) else L.GivenBack), t, at,
          g.s, L.Trying(env, force, g.c));
      n := SoloTry(cfg, w2, t, env, g.c, force);
      OneStep(cfg, w1, t, at, n, Rest(cfg, g.s, env, g.c, force));
      n := n + 1;
    }
  }

  // ---------- Check and Sync ----------

  ghost function Looked(cfg: Config, s: State, env: Env, sync: bool): State {
    if sync then Synced(cfg, s, env) else CheckedNow(cfg, s, env)
  }

  lemma SoloPrune(cfg: Config, w: L.World, t: L.Thread, env: Env, e: Endpoint, r: Validation,
                  sync: bool)
    returns (n: nat)
    requires Solo(w, t, L.Judged(env, e, r, sync)) && r.state.Degraded?
    ensures Leads(cfg, w, t, n, ApplyPartial(cfg, w.m, env, e, r))
  {
    hide Leads, Fail, Validated, ResetFailures;
    var w1, at := L.Advance(cfg, w, t), L.Judged(env, e, r, sync);
    var pruned := Validated(e, r);
    var s := Prune(cfg, w.m, e, pruned);
    var rest := L.ResetAndAnnounce(s.endpoint.value);
    if !HasAddress(pruned) || (cfg.hasCert && !env.certOk) {
      MovesTo(w, w, t, at, w.m, L.Failing(env));
      n := SoloFail(cfg, w1, t, env);
    } else if e.ipv4.Some? && pruned.ipv4.None? && w.m.active.Some? {
      MovesTo(w, L.Put(w, w.m.active, L.Held(t)), t, at, s, L.Freeing(w.m.active.value, rest));
      n := SoloFree(cfg, w1, t, w.m.active.value, rest);
    } else {
      MovesTo(w, w, t, at, s, L.Ending(rest));
      n := SoloEnd(cfg, w1, t, rest);
    }
    OneStep(cfg, w, t, at, n, ApplyPartial(cfg, w.m, env, e, r));
    n := n + 1;
  }

  /** What Check or Sync does once it has a validation result. */
  ghost function OnResult(cfg: Config, s: State, env: Env, e: Endpoint, r: Validation, sync: bool): State {
    if r.state.Failed? then (if cfg.validate then Fail(cfg, s, env.withdrawOk) else s)
    else if r.state.Degraded? then ApplyPartial(cfg, s, env, e, r)
    else if sync then Log(ResetFailures(s, true), Published(e)) else ResetFailures(s, true)
  }

  lemma SoloJudged(cfg: Config, w: L.World, t: L.Thread, env: Env, e: Endpoint, r: Validation,
                   sync: bool)
    returns (n: nat)
    requires Solo(w, t, L.Judged(env, e, r, sync))
    ensures Leads(cfg, w, t, n, OnResult(cfg, w.m, env, e, r, sync))
  {
    hide Leads, Fail, ApplyPartial, ResetFailures, L.GoPrune;
    var w1, at := L.Advance(cfg, w, t), L.Judged(env, e, r, sync);
    if r.state.Degraded? {
      n := SoloPrune(cfg, w, t, env, e, r, sync);
      return;
    }
    if r.state.Failed? {
      MovesTo(w, w, t, at, w.m, L.Failing(env));
      if cfg.validate { n := SoloFail(cfg, w1, t, env); } else { Ended(cfg, w1, t); n := 0; }
    } else {
      var rest := if sync then L.Announce(e, true) else L.Nothing;
      MovesTo(w, w, t, at, ResetFailures(w.m, true), L.Ending(rest));
      n := SoloEnd(cfg, w1, t, rest);
    }
    OneStep(cfg, w, t, at, n, OnResult(cfg, w.m, env, e, r, sync));
    n := n + 1;
  }

  lemma SoloLook(cfg: Config, w: L.World, t: L.Thread, env: Env, sync: bool) returns (n: nat)
    requires Idle(w)
    ensures Leads(cfg, L.Step(cfg, w, L.BeginCheck(t, env, sync)), t, n, Looked(cfg, w.m, env, sync))
  {
    hide Leads, Fail, ApplyPartial, ResetFailures;
    var w1 := L.Step(cfg, w, L.BeginCheck(t, env, sync));
    if w.m.endpoint.None? {
      Ended(cfg, w1, t);
      return 0;
    }
    var e, at := w.m.endpoint.value, L.Checking(env, w.m.endpoint.value, sync);
    var r := env.validate(e);
    assert Solo(w1, t, at);
    var w2 := L.Advance(cfg, w1, t);
    if sync && !cfg.validate {
      MovesTo(w1, w1, t, at, w1.m, L.Ending(L.Announce(e, true)));
      n := SoloEnd(cfg, w2, t, L.Announce(e, true));
    } else {
      MovesTo(w1, w1, t, at, Log(w1.m, Checked(e, r)).(verdict := r.state), L.Judged(env, e, r, sync));
      n := SoloJudged(cfg, w2, t, env, e, r, sync);
    }
    OneStep(cfg, w1, t, at, n, Looked(cfg, w.m, env, sync));
    n := n + 1;
  }

  // ---------- whole runs ----------

  ghost function Begin(op: Op, t: L.Thread): L.Event {
    match op
    case Reconcile(env, force) => L.BeginReconcile(t, env, force)
    case Check(env) => L.BeginCheck(t, env, false)
    case Sync(env) => L.BeginCheck(t, env, true)
    case Lose(env) => L.BeginLose(t, env)
    case Stop => L.BeginStop(t)
  }

  ghost predicate FreshOp(cfg: Config, w: L.World, op: Op) {
    op.Reconcile? ==> L.FreshAnswer(cfg, w, L.Asking(op.env, op.force))
  }

  /** Any operation that is left alone does what it does in one piece. */
  lemma SoloOp(cfg: Config, w: L.World, t: L.Thread, op: Op) returns (n: nat)
    requires Idle(w) && FreshOp(cfg, w, op)
    ensures Leads(cfg, L.Step(cfg, w, Begin(op, t)), t, n, Step(cfg, w.m, op))
  {
    hide Leads, Fail, ReleaseActive, Reconciled, CheckedNow, Synced;
    var w1 := L.Step(cfg, w, Begin(op, t));
    match op
    case Reconcile(env, force) => n := SoloReconcile(cfg, w, t, env, force);
    case Check(env) => n := SoloLook(cfg, w, t, env, false);
    case Sync(env) => n := SoloLook(cfg, w, t, env, true);
    case Lose(env) =>
      if w.m.endpoint.None? {
        Ended(cfg, w1, t);
        n := 0;
      } else {
        assert Solo(w1, t, L.Failing(env));
        n := SoloFail(cfg, w1, t, env);
      }
    case Stop =>
      assert Solo(w1, t, L.Clearing);
      n := SoloClear(cfg, w1, t);
  }

  lemma {:induction false} RunOn(cfg: Config, events: seq<L.Event>, t: L.Thread, n: nat) returns (longer: seq<L.Event>)
    ensures L.Run(cfg, longer) == GoOn(cfg, L.Run(cfg, events), t, n)
    decreases n
  {
    if n == 0 {
      longer := events;
    } else {
      var next := events + [L.Go(t)];
      assert next[..|events|] == events;
      longer := RunOn(cfg, next, t, n - 1);
    }
  }

  /** The mapper never hands out the same mapping object twice. */
  ghost predicate FreshMappings(cfg: Config, ops: seq<Op>) {
    forall i :: 0 <= i < |ops| && ops[i].Reconcile? && AskIPv4(cfg, ops[i].env).mapping.Some? ==>
      Obtained(AskIPv4(cfg, ops[i].env).mapping.value) !in Run(cfg, ops[..i]).log
  }

  lemma NotYetObtained(w: L.World, x: Mapping)
    requires L.Inv(w) && Obtained(x) !in w.m.log
    ensures x !in w.place
  {
    assert multiset(w.m.log)[Obtained(x)] == 0;
  }

  /** The mapping that an operation will be handed has not been seen. */
  ghost predicate Unseen(cfg: Config, log: seq<Action>, op: Op) {
    op.Reconcile? && AskIPv4(cfg, op.env).mapping.Some? ==> Obtained(AskIPv4(cfg, op.env).mapping.value) !in log
  }

  lemma FreshParts(cfg: Config, ops: seq<Op>)
    requires FreshMappings(cfg, ops) && ops != []
    ensures FreshMappings(cfg, ops[..|ops| - 1])
    ensures Unseen(cfg, Run(cfg, ops[..|ops| - 1]).log, ops[|ops| - 1])
  {
    hide Run, AskIPv4;
    var before := ops[..|ops| - 1];
    assert forall i :: 0 <= i < |before| ==> before[i] == ops[i] && before[..i] == ops[..i];
  }

  /** One more operation, run to its end. */
  lemma OneMore(cfg: Config, events: seq<L.Event>, op: Op) returns (longer: seq<L.Event>)
    requires Idle(L.Run(cfg, events)) && Unseen(cfg, L.Run(cfg, events).m.log, op)
    ensures Idle(L.Run(cfg, longer)) && L.Run(cfg, longer).m == Step(cfg, L.Run(cfg, events).m, op)
  {
    hide L.Step, Step, L.Inv, AskIPv4;
    var w := L.Run(cfg, events);
    L.RunInvariant(cfg, events);
    if op.Reconcile? && AskIPv4(cfg, op.env).mapping.Some? {
      NotYetObtained(w, AskIPv4(cfg, op.env).mapping.value);
    }
    var n := SoloOp(cfg, w, 0, op);
    var begun := events + [Begin(op, 0)];
    assert begun[..|events|] == events;
    longer := RunOn(cfg, begun, 0, n);
  }

  /** Every serialised run is one of the interleaved runs. */
  lemma {:induction false} SerialIsInterleaved(cfg: Config, ops: seq<Op>) returns (events: seq<L.Event>)
    requires FreshMappings(cfg, ops)
    ensures Idle(L.Run(cfg, events)) && L.Run(cfg, events).m == Run(cfg, ops)
  {
    if ops == [] {
      events := [];
    } else {
      hide FreshMappings, Unseen, Step, Idle, L.Run;
      FreshParts(cfg, ops);
      events := SerialIsInterleaved(cfg, ops[..|ops| - 1]);
      events := OneMore(cfg, events, ops[|ops| - 1]);
    }
  }

  /** So in every serialised run a mapping is released at most once, and one that was obtained and not
      released is active, or was followed by another mapping with the same method and leases. */
  lemma SerialLeaseOwnership(cfg: Config, ops: seq<Op>, x: Mapping)
    requires FreshMappings(cfg, ops)
    ensures var s := Run(cfg, ops);
      && multiset(s.log)[Released(x)] <= multiset(s.log)[Obtained(x)] <= 1
      && (s.active == Some(x) ==> Obtained(x) in s.log && Released(x) !in s.log)
      && (Obtained(x) in s.log && Released(x) !in s.log ==>
            s.active == Some(x) || exists y :: Obtained(y) in s.log && y != x && L.SameLeases(x, y))
  {
    hide Run, L.Run;
    var events := SerialIsInterleaved(cfg, ops);
    var w := L.Run(cfg, events);
    L.RunInvariant(cfg, events);
    assert multiset(w.m.log)[Released(x)] == 0 <==> Released(x) !in w.m.log;
    assert multiset(w.m.log)[Obtained(x)] == 0 <==> Obtained(x) !in w.m.log;
    if x in w.place && w.place[x].Superseded? {
      var y := w.place[x].renewal;
      assert multiset(w.m.log)[Obtained(y)] == 1;
      assert Obtained(y) in w.m.log && y != x && L.SameLeases(x, y);
    }
  }
}
