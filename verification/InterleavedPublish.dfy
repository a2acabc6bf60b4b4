/**
 What the endpoint manager publishes while operations interleave, the two callers that skip the operation
 lock included: the law of module ManagerTheorems for serialised runs, over every run of module Leases.
 */
module InterleavedPublish {
  import opened Basics
  import opened Validator
  import opened Manager
  import opened ManagerTheorems
  import L = Leases

  /** Every endpoint published was covered by the validation of the operation that published it. */
  ghost predicate Law(cfg: Config, log: seq<Action>) {
    forall i :: 0 <= i < |log| && log[i].Published? && cfg.validate ==> Covered(cfg, Checkup(log[..i]), log[i].e)
  }

  predicate TailOk(cfg: Config, checkup: Option<(Endpoint, Validation)>, tail: L.Tail) {
    tail.Nothing? || (cfg.validate ==> Covered(cfg, checkup, tail.e))
  }

  /** What an operation knows at each point, given the validation of the operation that has the lock. */
  predicate PointOk(cfg: Config, checkup: Option<(Endpoint, Validation)>, p: L.Point) {
    match p
    case Trying(_, _, c) => CandidateOk(cfg, c)
    case Vetting(_, _, c) => CandidateOk(cfg, c) && HasAddress(c.e)
    case Committing(_, c) => PortsOk(cfg, c.e) && (cfg.validate ==> Covered(cfg, checkup, c.e))
    case Checking(_, current, _) => PortsOk(cfg, current)
    case Judged(_, current, r, _) => PortsOk(cfg, current) && checkup == Some((current, r))
    case Freeing(_, tail) => TailOk(cfg, checkup, tail)
    case Ending(tail) => TailOk(cfg, checkup, tail)
    case _ => true
  }

  /** Only reconcile, Check and Sync get to these points. */
  predicate NeedsLock(p: L.Point) {
    match p
    case Freeing(_, tail) => !tail.Nothing?
    case Ending(tail) => !tail.Nothing?
    case _ => p.Asking? || p.Trying? || p.Vetting? || p.Committing? || p.Checking? || p.Judged?
  }

  ghost predicate ThreadsOk(cfg: Config, checkup: Option<(Endpoint, Validation)>, threads: map<L.Thread, L.Point>,
                            holder: Option<L.Thread>) {
    forall t :: t in threads && NeedsLock(threads[t]) ==> holder == Some(t) && PointOk(cfg, checkup, threads[t])
  }

  predicate EndpointOk(cfg: Config, endpoint: Option<Endpoint>) {
    endpoint.Some? ==> PortsOk(cfg, endpoint.value)
  }

  ghost predicate Inv(cfg: Config, w: L.World) {
    EndpointOk(cfg, w.m.endpoint) && ThreadsOk(cfg, Checkup(w.m.log), w.threads, w.holder) && Law(cfg, w.m.log)
  }

  // ---------- the log ----------

  /** The log grew without a new operation or validation. */
  ghost predicate Extends(cfg: Config, log: seq<Action>, log': seq<Action>) {
    Checkup(log') == Checkup(log) && (Law(cfg, log) ==> Law(cfg, log'))
  }

  lemma LawSnoc(cfg: Config, log: seq<Action>, a: Action)
    requires Law(cfg, log) && (a.Published? && cfg.validate ==> Covered(cfg, Checkup(log), a.e))
    ensures Law(cfg, log + [a])
  {
    hide Covered, Checkup;
    var log' := log + [a];
    forall i | 0 <= i < |log'| && log'[i].Published? && cfg.validate
      ensures Covered(cfg, Checkup(log'[..i]), log'[i].e)
    {
      assert log'[..i] == if i < |log| then log[..i] else log;
    }
  }

  lemma ExtendsOne(cfg: Config, log: seq<Action>, a: Action)
    requires !a.Started? && !a.Checked? && !a.Published?
    ensures Extends(cfg, log, log + [a]) && Extends(cfg, log, log)
  {
    hide Covered;
    Snoc(cfg, log, a);
    hide Checkup;
    if Law(cfg, log) { LawSnoc(cfg, log, a); }
  }

  lemma ReleaseExtends(cfg: Config, s: State, m: Option<Mapping>)
    ensures Extends(cfg, s.log, Release(s, m).log) && Release(s, m).endpoint == s.endpoint
  {
    hide Extends;
    if m.Some? { ExtendsOne(cfg, s.log, Released(m.value)); } else { ExtendsOne(cfg, s.log, FailuresReset); }
  }

  // ---------- the parts of a reconcile ----------

  lemma GatherOk(cfg: Config, s: State, env: Env)
    ensures var p := Gather(cfg, s, env);
      p.Holding? && CandidateOk(cfg, p.c) && p.s.endpoint == s.endpoint && Extends(cfg, s.log, p.s.log)
  {
    var asked := AskIPv4(cfg, env);
    var s0 := Log(s.(phase := Attempting), Discovered(cfg, env));
    ExtendsOne(cfg, s.log, Discovered(cfg, env));
    var s1 := if asked.mapping.Some? then Log(s0, Obtained(asked.mapping.value)) else s0;
    ExtendsOne(cfg, s0.log, if asked.mapping.Some? then Obtained(asked.mapping.value) else FailuresReset);
    ReleaseExtends(cfg, s1, AskIPv6(cfg, env, asked).mapping);
    hide Law, Checkup;
  }

  lemma EquipOk(cfg: Config, s: State, env: Env, c: Candidate)
    requires CandidateOk(cfg, c)
    ensures var p := Equip(cfg, s, env, c);
      && p.s.endpoint == s.endpoint && Extends(cfg, s.log, p.s.log)
      && (p.Holding? ==> CandidateOk(cfg, p.c) && HasAddress(p.c.e))
  {
    hide Extends;
    ReleaseExtends(cfg, s, c.mapping);
    ReleaseExtends(cfg, s, None);
  }

  lemma VetOk(cfg: Config, s: State, env: Env, c: Candidate, force: bool)
    requires CandidateOk(cfg, c) && HasAddress(c.e) && Law(cfg, s.log)
    ensures var p := Vet(cfg, s, env, c, force);
      && p.s.endpoint == s.endpoint && Law(cfg, p.s.log)
      && (p.Holding? ==> PortsOk(cfg, p.c.e) && (cfg.validate ==> Covered(cfg, Checkup(p.s.log), p.c.e)))
  {
    hide Law, Checkup, Covered, Validated;
    if cfg.validate || force {
      var r := env.validate(c.e);
      var s1 := Log(s, Checked(c.e, r)).(phase := Validating, verdict := r.state);
      LawSnoc(cfg, s.log, Checked(c.e, r));
      Snoc(cfg, s.log, Checked(c.e, r));
      ReleaseExtends(cfg, s1, c.mapping);
      if HasAddress(Validated(c.e, r)) { PruningCovers(cfg, c.e, r); }
    }
  }

  // ---------- every step keeps it ----------

  /** A thread moves on to `q`, or ends. Unless it has the lock it leaves the validation of the lock holder alone. */
  lemma Moves(cfg: Config, w: L.World, w0: L.World, t: L.Thread, m: State, q: L.Point)
    requires Inv(cfg, w) && t in w.threads && w0.threads == w.threads && w0.holder == w.holder
    requires EndpointOk(cfg, m.endpoint) && Law(cfg, m.log)
    requires Checkup(m.log) == Checkup(w.m.log) || w.holder == Some(t)
    ensures (NeedsLock(q) ==> w.holder == Some(t) && PointOk(cfg, Checkup(m.log), q)) ==> Inv(cfg, L.At(w0, t, m, q))
    ensures Inv(cfg, L.Finish(w0, t, m))
  {
    hide Law, Checkup, PointOk, NeedsLock, EndpointOk;
  }

  /** What a thread that needs the lock knows. */
  lemma Knows(cfg: Config, w: L.World, t: L.Thread)
    requires Inv(cfg, w) && t in w.threads
    ensures NeedsLock(w.threads[t]) ==> w.holder == Some(t) && PointOk(cfg, Checkup(w.m.log), w.threads[t])
    ensures EndpointOk(cfg, w.m.endpoint) && Law(cfg, w.m.log)
  {
  }

  lemma ReconcileMoves(cfg: Config, w: L.World, t: L.Thread)
    requires Inv(cfg, w) && t in w.threads && (w.threads[t].Asking? || w.threads[t].Trying? || w.threads[t].Vetting?)
    ensures Inv(cfg, L.Advance(cfg, w, t))
  {
    hide Inv, Law, Checkup, Covered, EndpointOk, Gather, Equip, Vet, CandidateOk, PortsOk, L.At, L.Finish;
    Knows(cfg, w, t);
    match w.threads[t]
    case Asking(env, force) =>
      var p := Gather(cfg, w.m, env);
      GatherOk(cfg, w.m, env);
      var to := if p.c.mapping.Some? then L.Held(t) else L.GivenBack;
      Moves(cfg, w, L.Put(w, AskIPv4(cfg, env).mapping, to), t, p.s, L.Trying(env, force, p.c));
    case Trying(env, force, c) =>
      var p := Equip(cfg, w.m, env, c);
      EquipOk(cfg, w.m, env, c);
      if p.Holding? {
        Moves(cfg, w, w, t, p.s, L.Vetting(env, force, p.c));
      } else {
        Moves(cfg, w, L.Put(w, c.mapping, L.GivenBack), t, p.s, L.Failing(env));
      }
    case Vetting(env, force, c) =>
      var p := Vet(cfg, w.m, env, c, force);
      VetOk(cfg, w.m, env, c, force);
      var back := L.Put(w, c.mapping, L.GivenBack);
      if p.Holding? {
        Moves(cfg, w, if p.c.mapping.None? then back else w, t, p.s, L.Committing(env, p.c));
      } else {
        Moves(cfg, w, back, t, p.s, L.Failing(env));
      }
  }

  lemma CommitMoves(cfg: Config, w: L.World, t: L.Thread)
    requires Inv(cfg, w) && t in w.threads && w.threads[t].Committing?
    ensures Inv(cfg, L.Advance(cfg, w, t))
  {
    var env, c := w.threads[t].env, w.threads[t].c;
    hide Inv, Law, Checkup, Covered, PortsOk, L.At, L.Finish;
    Knows(cfg, w, t);
    ExtendsOne(cfg, w.m.log, Committed(c));
    var s, rest := Commit(cfg, w.m, c), L.Announce(c.e, env.publishOk);
    var w1 := L.Put(w, c.mapping, L.Active);
    if L.Replaces(w.m, c) {
      Moves(cfg, w, L.Put(w1, w.m.active, L.Held(t)), t, s, L.Freeing(w.m.active.value, rest));
    } else if w.m.active.Some? {
      Moves(cfg, w, L.Put(w1, w.m.active, L.Superseded(c.mapping.value, c.network)), t, s, L.Ending(rest));
    } else {
      Moves(cfg, w, w1, t, s, L.Ending(rest));
    }
  }

  lemma CheckMoves(cfg: Config, w: L.World, t: L.Thread)
    requires Inv(cfg, w) && t in w.threads && w.threads[t].Checking?
    ensures Inv(cfg, L.Advance(cfg, w, t))
  {
    var env, current, sync := w.threads[t].env, w.threads[t].current, w.threads[t].sync;
    hide Inv, Law, Checkup, Covered, PortsOk, EndpointOk, L.At, L.Finish;
    Knows(cfg, w, t);
    if sync && !cfg.validate {
      Moves(cfg, w, w, t, w.m, L.Ending(L.Announce(current, true)));
    } else {
      var r := env.validate(current);
      var s := Log(w.m, Checked(current, r)).(verdict := r.state);
      LawSnoc(cfg, w.m.log, Checked(current, r));
      Snoc(cfg, w.m.log, Checked(current, r));
      Moves(cfg, w, w, t, s, L.Judged(env, current, r, sync));
    }
  }

  lemma PruneMoves(cfg: Config, w: L.World, t: L.Thread, env: Env, current: Endpoint, r: Validation)
    requires Inv(cfg, w) && t in w.threads && w.holder == Some(t)
    requires PortsOk(cfg, current) && Checkup(w.m.log) == Some((current, r))
    ensures Inv(cfg, L.GoPrune(cfg, w, t, env, current, r))
  {
    hide Inv, Law, Checkup, Covered, Validated, L.At, L.Finish;
    Knows(cfg, w, t);
    Moves(cfg, w, w, t, w.m, L.Failing(env));
    var pruned := Validated(current, r);
    if HasAddress(pruned) {
      PruningCovers(cfg, current, r);
      var s := Prune(cfg, w.m, current, pruned);
      var rest := L.ResetAndAnnounce(s.endpoint.value);
      if w.m.active.Some? {
        Moves(cfg, w, L.Put(w, w.m.active, L.Held(t)), t, s, L.Freeing(w.m.active.value, rest));
      }
      Moves(cfg, w, w, t, s, L.Ending(rest));
    }
  }

  lemma JudgedMoves(cfg: Config, w: L.World, t: L.Thread)
    requires Inv(cfg, w) && t in w.threads && w.threads[t].Judged?
    ensures Inv(cfg, L.Advance(cfg, w, t))
  {
    var env, current, r, sync := w.threads[t].env, w.threads[t].current, w.threads[t].r, w.threads[t].sync;
    hide Inv, Law, Checkup, Covered, EndpointOk, L.GoPrune, L.At, L.Finish;
    Knows(cfg, w, t);
    if r.state.Failed? {
      Moves(cfg, w, w, t, w.m, L.Failing(env));
    } else if r.state.Degraded? {
      PruneMoves(cfg, w, t, env, current, r);
    } else {
      PassingCovers(cfg, current, r);
      ExtendsOne(cfg, w.m.log, FailuresReset);
      Moves(cfg, w, w, t, ResetFailures(w.m, true), L.Ending(if sync then L.Announce(current, true) else L.Nothing));
    }
  }

  lemma EndMoves(cfg: Config, w: L.World, t: L.Thread)
    requires Inv(cfg, w) && t in w.threads && w.threads[t].Ending?
    ensures Inv(cfg, L.Advance(cfg, w, t))
  {
    hide Inv, Law, Checkup, Covered, EndpointOk, L.At, L.Finish;
    Knows(cfg, w, t);
    match w.threads[t].tail
    case Nothing => Moves(cfg, w, w, t, w.m, L.Clearing);
    case Announce(e, ok) =>
      LawSnoc(cfg, w.m.log, Published(e));
      var m := if ok then Log(w.m, Published(e)) else Log(w.m, Published(e)).(phase := Limited);
      Moves(cfg, w, w, t, m, L.Clearing);
    case ResetAndAnnounce(e) =>
      ExtendsOne(cfg, w.m.log, FailuresReset);
      Moves(cfg, w, w, t, ResetFailures(w.m, false), L.Ending(L.Announce(e, true)));
  }

  /** Failing, withdrawing, clearing and releasing, with or without the lock. */
  lemma UnlockedMoves(cfg: Config, w: L.World, t: L.Thread)
    requires Inv(cfg, w) && t in w.threads
    requires var p := w.threads[t]; p.Failing? || p.Withdrawing? || p.Clearing? || p.Freeing?
    ensures Inv(cfg, L.Advance(cfg, w, t))
  {
    hide Inv, Law, Checkup, Covered, PortsOk, L.At, L.Finish;
    Knows(cfg, w, t);
    match w.threads[t]
    case Failing(env) =>
      ExtendsOne(cfg, w.m.log, FailureNoted(w.m.phase.Withdrawn?));
      Moves(cfg, w, w, t, NoteFailure(cfg, w.m), L.Withdrawing(env));
    case Withdrawing(env) =>
      ExtendsOne(cfg, w.m.log, Withdrew(env.withdrawOk));
      Moves(cfg, w, w, t, NoteWithdrawal(w.m, env.withdrawOk), L.Clearing);
    case Clearing =>
      Moves(cfg, w, w, t, DropActive(w.m), L.Clearing);
      if w.m.active.Some? {
        Moves(cfg, w, L.Put(w, w.m.active, L.Held(t)), t, DropActive(w.m), L.Freeing(w.m.active.value, L.Nothing));
      }
    case Freeing(x, tail) =>
      ReleaseExtends(cfg, w.m, Some(x));
      Moves(cfg, w, L.Put(w, Some(x), L.GivenBack), t, Release(w.m, Some(x)), L.Ending(tail));
  }

  /** A new operation. It takes the lock, and with it the validation, only while nobody has it. */
  lemma Begins(cfg: Config, w: L.World, t: L.Thread, m: State, q: L.Point, holder: Option<L.Thread>)
    requires Inv(cfg, w) && t !in w.threads && m.endpoint == w.m.endpoint && Law(cfg, m.log)
    requires (w.holder.None? && holder == Some(t)) || (holder == w.holder && !NeedsLock(q))
    requires Checkup(m.log) == Checkup(w.m.log) || w.holder.None?
    requires PointOk(cfg, Checkup(m.log), q)
    ensures Inv(cfg, L.At(w, t, m, q).(holder := holder)) && Inv(cfg, w.(m := m))
  {
    hide Law, Checkup, PointOk, NeedsLock, EndpointOk;
  }

  lemma StepKeeps(cfg: Config, w: L.World, e: L.Event)
    requires Inv(cfg, w)
    ensures Inv(cfg, L.Step(cfg, w, e))
  {
    hide Inv, Law, Checkup, L.Advance, PortsOk;
    if !L.Enabled(cfg, w, e) { return; }
    if e.Go? {
      AdvanceKeeps(cfg, w, e.t);
    } else {
      Parts(cfg, w);
      var m := Log(w.m, Started);
      LawSnoc(cfg, w.m.log, Started);
      match e
      case BeginReconcile(t, env, force) =>
        Begins(cfg, w, t, m, if ListenersReady(cfg) then L.Asking(env, force) else L.Failing(env), Some(t));
      case BeginCheck(t, env, sync) =>
        var q := if w.m.endpoint.Some? then L.Checking(env, w.m.endpoint.value, sync) else L.Clearing;
        Begins(cfg, w, t, m, q, Some(t));
      case BeginLose(t, env) => Begins(cfg, w, t, w.m, L.Failing(env), w.holder);
      case BeginStop(t) => Begins(cfg, w, t, w.m, L.Clearing, w.holder);
    }
  }

  lemma Parts(cfg: Config, w: L.World)
    requires Inv(cfg, w)
    ensures EndpointOk(cfg, w.m.endpoint) && Law(cfg, w.m.log)
  {
  }

  lemma AdvanceKeeps(cfg: Config, w: L.World, t: L.Thread)
    requires Inv(cfg, w) && t in w.threads
    ensures Inv(cfg, L.Advance(cfg, w, t))
  {
    hide Inv, L.Advance;
    match w.threads[t]
    case Committing(_, _) => CommitMoves(cfg, w, t);
    case Checking(_, _, _) => CheckMoves(cfg, w, t);
    case Judged(_, _, _, _) => JudgedMoves(cfg, w, t);
    case Ending(_) => EndMoves(cfg, w, t);
    case Failing(_) => UnlockedMoves(cfg, w, t);
    case Withdrawing(_) => UnlockedMoves(cfg, w, t);
    case Clearing => UnlockedMoves(cfg, w, t);
    case Freeing(_, _) => UnlockedMoves(cfg, w, t);
    case _ => ReconcileMoves(cfg, w, t);
  }

  lemma {:induction false} RunKeeps(cfg: Config, events: seq<L.Event>)
    ensures Inv(cfg, L.Run(cfg, events))
  {
    if events != [] {
      hide Inv, L.Step;
      RunKeeps(cfg, events[..|events| - 1]);
      StepKeeps(cfg, L.Run(cfg, events[..|events| - 1]), events[|events| - 1]);
    }
  }

  // ---------- over every interleaving ----------

  /** With validation on, whatever is passed to Publish was validated by the same operation: since the operation
      lock was last taken each of its addresses was probed on the very ports published, and passed. */
  lemma PublishedWasValidated(cfg: Config, events: seq<L.Event>, i: nat)
    requires cfg.validate && i < |L.Run(cfg, events).m.log| && L.Run(cfg, events).m.log[i].Published?
    ensures var log := L.Run(cfg, events).m.log; Covered(cfg, Checkup(log[..i]), log[i].e)
  {
    hide L.Run;
    RunKeeps(cfg, events);
  }

  /** A held endpoint has an address, and announces IPv6 on the local listener ports only. */
  lemma HeldIPv6UsesLocalPorts(cfg: Config, events: seq<L.Event>)
    ensures var e := L.Run(cfg, events).m.endpoint; e.Some? ==> HasAddress(e.value) && V6Ports(cfg, e.value)
  {
    hide L.Run;
    RunKeeps(cfg, events);
  }

  /** Only the operation that has the lock is about to publish, and it is at most one. */
  lemma PublisherHoldsLock(cfg: Config, events: seq<L.Event>, t: L.Thread)
    requires var w := L.Run(cfg, events); t in w.threads && NeedsLock(w.threads[t])
    ensures L.Run(cfg, events).holder == Some(t)
  {
    hide L.Run;
    RunKeeps(cfg, events);
  }
}
