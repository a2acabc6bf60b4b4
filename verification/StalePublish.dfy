/**
 Whether what is published is still held. Only the operation that has the lock sets the endpoint, but the
 callers that skip the lock can clear it between the moment an operation reads or commits its endpoint and
 the moment it publishes it.
 */
module StalePublish {
  import opened Basics
  import opened Validator
  import opened Manager
  import opened InterleavedPublish
  import MT = ManagerTheorems
  import PM = PortMap
  import L = Leases
  import SL = SerialLeases

  /** The endpoint an operation has read or committed and is going to publish. */
  function Expects(p: L.Point): Option<Endpoint> {
    match p
    case Checking(_, current, _) => Some(current)
    case Judged(_, current, _, _) => Some(current)
    case Freeing(_, tail) => if tail.Nothing? then None else Some(tail.e)
    case Ending(tail) => if tail.Nothing? then None else Some(tail.e)
    case _ => None
  }

  // ---------- it is held, or nothing is ----------

  predicate Fits(endpoint: Option<Endpoint>, p: L.Point) {
    Expects(p).None? || endpoint.None? || endpoint == Expects(p)
  }

  ghost predicate HeldInv(w: L.World) {
    forall t :: t in w.threads ==> Fits(w.m.endpoint, w.threads[t])
  }

  /** A thread moves on to `q`, or ends. Only the lock holder may set the endpoint. */
  lemma Moves(cfg: Config, w: L.World, w0: L.World, t: L.Thread, m: State, q: L.Point)
    requires Inv(cfg, w) && HeldInv(w) && t in w.threads && w0.threads == w.threads && w0.holder == w.holder
    requires m.endpoint == w.m.endpoint || m.endpoint.None? || w.holder == Some(t)
    ensures Fits(m.endpoint, q) ==> HeldInv(L.At(w0, t, m, q))
    ensures HeldInv(L.Finish(w0, t, m))
  {
    hide Law, MT.Checkup, PointOk, EndpointOk;
  }

  lemma EndpointKept(cfg: Config, s: State, env: Env, c: Candidate, force: bool)
    ensures Gather(cfg, s, env).s.endpoint == s.endpoint && Gather(cfg, s, env).Holding?
    ensures Equip(cfg, s, env, c).s.endpoint == s.endpoint
    ensures Vet(cfg, s, env, c, force).s.endpoint == s.endpoint
  {
    hide Validated, LocalPorts;
  }

  lemma ReconcileFits(cfg: Config, w: L.World, t: L.Thread)
    requires Inv(cfg, w) && HeldInv(w) && t in w.threads
    requires w.threads[t].Asking? || w.threads[t].Trying? || w.threads[t].Vetting?
    ensures HeldInv(L.Advance(cfg, w, t))
  {
    hide Inv, HeldInv, Gather, Equip, Vet, L.At, L.Finish, L.Put, PointOk;
    match w.threads[t]
    case Asking(env, force) =>
      EndpointKept(cfg, w.m, env, AskIPv4(cfg, env), force);
      var g := Gather(cfg, w.m, env);
      var w0 := L.Put(w, AskIPv4(cfg, env).mapping, if g.c.mapping.Some? then L.Held(t) else L.GivenBack);
      PutKeepsThreads(w, AskIPv4(cfg, env).mapping, if g.c.mapping.Some? then L.Held(t) else L.GivenBack);
      Moves(cfg, w, w0, t, g.s, L.Trying(env, force, g.c));
    case Trying(env, force, c) =>
      EndpointKept(cfg, w.m, env, c, force);
      var g := Equip(cfg, w.m, env, c);
      PutKeepsThreads(w, c.mapping, L.GivenBack);
      if g.Holding? { Moves(cfg, w, w, t, g.s, L.Vetting(env, force, g.c)); }
      else { Moves(cfg, w, L.Put(w, c.mapping, L.GivenBack), t, g.s, L.Failing(env)); }
    case Vetting(env, force, c) =>
      EndpointKept(cfg, w.m, env, c, force);
      var g := Vet(cfg, w.m, env, c, force);
      PutKeepsThreads(w, c.mapping, L.GivenBack);
      var back := L.Put(w, c.mapping, L.GivenBack);
      if g.Holding? { Moves(cfg, w, if g.c.mapping.None? then back else w, t, g.s, L.Committing(env, g.c)); }
      else { Moves(cfg, w, back, t, g.s, L.Failing(env)); }
  }

  lemma HeldAdvance(cfg: Config, w: L.World, t: L.Thread)
    requires Inv(cfg, w) && HeldInv(w) && t in w.threads
    ensures HeldInv(L.Advance(cfg, w, t))
  {
    InterleavedPublish.Knows(cfg, w, t);
    hide Inv, HeldInv, L.GoAsk, L.GoTry, L.GoVet, L.GoCommit, L.GoJudged, L.GoEnd, L.At, L.Finish, L.Put, PointOk;
    KnowsFit(w, t);
    match w.threads[t]
    case Asking(_, _) => ReconcileFits(cfg, w, t);
    case Trying(_, _, _) => ReconcileFits(cfg, w, t);
    case Vetting(_, _, _) => ReconcileFits(cfg, w, t);
    case Committing(env, c) => CommitFits(cfg, w, t, env, c);
    case Checking(env, current, sync) =>
      var r := env.validate(current);
      Moves(cfg, w, w, t, w.m, L.Ending(L.Announce(current, true)));
      Moves(cfg, w, w, t, Log(w.m, Checked(current, r)).(verdict := r.state), L.Judged(env, current, r, sync));
    case Judged(env, current, r, sync) => JudgedFits(cfg, w, t);
    case Failing(env) => Moves(cfg, w, w, t, NoteFailure(cfg, w.m), L.Withdrawing(env));
    case Withdrawing(env) => Moves(cfg, w, w, t, NoteWithdrawal(w.m, env.withdrawOk), L.Clearing);
    case Clearing =>
      PutKeepsThreads(w, w.m.active, L.Held(t));
      Moves(cfg, w, w, t, DropActive(w.m), L.Clearing);
      if w.m.active.Some? {
        var w0 := L.Put(w, w.m.active, L.Held(t));
        Moves(cfg, w, w0, t, DropActive(w.m), L.Freeing(w.m.active.value, L.Nothing));
      }
    case Freeing(x, tail) =>
      PutKeepsThreads(w, Some(x), L.GivenBack);
      Moves(cfg, w, L.Put(w, Some(x), L.GivenBack), t, Release(w.m, Some(x)), L.Ending(tail));
    case Ending(tail) => EndFits(cfg, w, t);
  }

  lemma KnowsFit(w: L.World, t: L.Thread)
    requires HeldInv(w) && t in w.threads
    ensures Fits(w.m.endpoint, w.threads[t])
  {
  }

  lemma PutKeepsThreads(w: L.World, x: Option<Mapping>, p: L.Place)
    ensures L.Put(w, x, p).threads == w.threads && L.Put(w, x, p).holder == w.holder
  {
  }

  lemma CommitFits(cfg: Config, w: L.World, t: L.Thread, env: Env, c: Candidate)
    requires Inv(cfg, w) && HeldInv(w) && t in w.threads && w.holder == Some(t)
    ensures HeldInv(L.GoCommit(cfg, w, t, env, c))
  {
    hide Inv, HeldInv, L.At, L.Finish;
    var s, rest := Commit(cfg, w.m, c), L.Announce(c.e, env.publishOk);
    var w1 := L.Put(w, c.mapping, L.Active);
    Moves(cfg, w, w1, t, s, L.Ending(rest));
    if L.Replaces(w.m, c) {
      Moves(cfg, w, L.Put(w1, w.m.active, L.Held(t)), t, s, L.Freeing(w.m.active.value, rest));
    } else if w.m.active.Some? {
      Moves(cfg, w, L.Put(w1, w.m.active, L.Superseded(c.mapping.value, c.network)), t, s, L.Ending(rest));
    }
  }

  lemma JudgedFits(cfg: Config, w: L.World, t: L.Thread)
    requires Inv(cfg, w) && HeldInv(w) && t in w.threads && w.threads[t].Judged? && w.holder == Some(t)
    ensures HeldInv(L.Advance(cfg, w, t))
  {
    var env, current, r, sync := w.threads[t].env, w.threads[t].current, w.threads[t].r, w.threads[t].sync;
    KnowsFit(w, t);
    hide Inv, HeldInv, Validated, L.At, L.Finish;
    Moves(cfg, w, w, t, w.m, L.Failing(env));
    if r.state.Degraded? {
      var s := Prune(cfg, w.m, current, Validated(current, r));
      var rest := L.ResetAndAnnounce(s.endpoint.value);
      Moves(cfg, w, w, t, s, L.Ending(rest));
      if w.m.active.Some? {
        Moves(cfg, w, L.Put(w, w.m.active, L.Held(t)), t, s, L.Freeing(w.m.active.value, rest));
      }
    } else {
      Moves(cfg, w, w, t, ResetFailures(w.m, true), L.Ending(if sync then L.Announce(current, true) else L.Nothing));
    }
  }

  lemma EndFits(cfg: Config, w: L.World, t: L.Thread)
    requires Inv(cfg, w) && HeldInv(w) && t in w.threads && w.threads[t].Ending?
    ensures HeldInv(L.Advance(cfg, w, t))
  {
    KnowsFit(w, t);
    hide Inv, HeldInv, L.At, L.Finish;
    match w.threads[t].tail
    case Nothing => Moves(cfg, w, w, t, w.m, L.Clearing);
    case Announce(e, ok) =>
      var m := if ok then Log(w.m, Published(e)) else Log(w.m, Published(e)).(phase := Limited);
      Moves(cfg, w, w, t, m, L.Clearing);
    case ResetAndAnnounce(e) => Moves(cfg, w, w, t, ResetFailures(w.m, false), L.Ending(L.Announce(e, true)));
  }

  lemma HeldStep(cfg: Config, w: L.World, e: L.Event)
    requires Inv(cfg, w) && HeldInv(w)
    ensures HeldInv(L.Step(cfg, w, e))
  {
    if L.Enabled(cfg, w, e) && e.Go? {
      hide Inv, HeldInv, L.Advance;
      HeldAdvance(cfg, w, e.t);
    } else {
      hide Inv, L.Advance;
    }
  }

  lemma {:induction false} RunHeld(cfg: Config, events: seq<L.Event>)
    ensures HeldInv(L.Run(cfg, events))
  {
    if events != [] {
      hide Inv, HeldInv, L.Step;
      RunHeld(cfg, events[..|events| - 1]);
      RunKeeps(cfg, events[..|events| - 1]);
      HeldStep(cfg, L.Run(cfg, events[..|events| - 1]), events[|events| - 1]);
    }
  }

  /** When an operation is about to publish an endpoint, the manager holds that one or none. */
  lemma PublishesHeldOrNone(cfg: Config, events: seq<L.Event>, t: L.Thread)
    requires var w := L.Run(cfg, events); t in w.threads && Expects(w.threads[t]).Some?
    ensures var w := L.Run(cfg, events); w.m.endpoint == Expects(w.threads[t]) || w.m.endpoint.None?
  {
    hide L.Run;
    RunHeld(cfg, events);
  }

  // ---------- exactly when it is held ----------

  ghost function Onward(cfg: Config, w: L.World, events: seq<L.Event>): L.World
    decreases |events|
  {
    if events == [] then w else Onward(cfg, L.Step(cfg, w, events[0]), events[1..])
  }

  /** The event is the locked section of releaseActive, of any operation. */
  ghost predicate Clears(cfg: Config, w: L.World, e: L.Event) {
    e.Go? && e.t in w.threads && w.threads[e.t].Clearing?
  }

  ghost predicate ClearsIn(cfg: Config, w: L.World, events: seq<L.Event>)
    decreases |events|
  {
    events != [] && (Clears(cfg, w, events[0]) || ClearsIn(cfg, L.Step(cfg, w, events[0]), events[1..]))
  }

  /** Operation `t` goes on to publish `e`, without setting the endpoint anew. */
  ghost predicate OnItsWay(w: L.World, t: L.Thread, e: Endpoint) {
    && t in w.threads && Expects(w.threads[t]) == Some(e)
    && (w.threads[t].Judged? ==> !w.threads[t].r.state.Degraded?)
  }

  ghost predicate StaysOnItsWay(cfg: Config, w: L.World, t: L.Thread, e: Endpoint, events: seq<L.Event>)
    decreases |events|
  {
    OnItsWay(w, t, e) && (events != [] ==> StaysOnItsWay(cfg, L.Step(cfg, w, events[0]), t, e, events[1..]))
  }

  lemma OwnStep(cfg: Config, w: L.World, t: L.Thread, e: Endpoint)
    requires OnItsWay(w, t, e)
    ensures L.Advance(cfg, w, t).m.endpoint == w.m.endpoint
  {
  }

  lemma OtherStep(cfg: Config, w: L.World, u: L.Thread)
    requires u in w.threads && !NeedsLock(w.threads[u])
    ensures L.Advance(cfg, w, u).m.endpoint == if w.threads[u].Clearing? then None else w.m.endpoint
  {
  }

  lemma EndpointMoves(cfg: Config, w: L.World, t: L.Thread, e: Endpoint, event: L.Event)
    requires Inv(cfg, w) && OnItsWay(w, t, e)
    ensures L.Step(cfg, w, event).m.endpoint == if Clears(cfg, w, event) then None else w.m.endpoint
  {
    assert NeedsLock(w.threads[t]) && w.holder == Some(t);
    if event.Go? && event.t in w.threads {
      if event.t == t { OwnStep(cfg, w, t, e); } else { OtherStep(cfg, w, event.t); }
    }
    hide Inv, L.Advance;
  }

  /** From the moment an operation has read or committed its endpoint: what it publishes is still held if and only
      if no releaseActive ran in between. */
  lemma {:induction false} StillHeldIff(cfg: Config, w: L.World, t: L.Thread, e: Endpoint, events: seq<L.Event>)
    requires Inv(cfg, w) && StaysOnItsWay(cfg, w, t, e, events) && (w.m.endpoint == Some(e) || w.m.endpoint.None?)
    ensures Onward(cfg, w, events).m.endpoint == Some(e) <==> w.m.endpoint == Some(e) && !ClearsIn(cfg, w, events)
    decreases |events|
  {
    hide Inv, L.Step, OnItsWay, Clears;
    if events != [] {
      EndpointMoves(cfg, w, t, e, events[0]);
      InterleavedPublish.StepKeeps(cfg, w, events[0]);
      StillHeldIff(cfg, L.Step(cfg, w, events[0]), t, e, events[1..]);
    }
  }

  // ---------- a run that publishes what was withdrawn ----------

  lemma Then(cfg: Config, events: seq<L.Event>, e: L.Event) returns (longer: seq<L.Event>)
    ensures L.Run(cfg, longer) == L.Step(cfg, L.Run(cfg, events), e)
  {
    longer := events + [e];
    assert longer[..|events|] == events;
  }

  /** A published endpoint, two failures short of the third, nobody running. */
  lemma TwoFailures(address: PM.Addr) returns (events: seq<L.Event>)
    ensures var w := L.Run(MT.DirectConfig, events);
      && SL.Idle(w) && w.m.endpoint == Some(Endpoint(Some(address), None, 1, -1)) && w.m.active.None?
      && w.m.failures == 2 && !w.m.withdrawRetry && !w.m.phase.Withdrawn?
  {
    var cfg := MT.DirectConfig;
    var found := Reconcile(MT.Answers(Some(address), Passed, true), false);
    var lose := Lose(MT.Answers(None, Failed, true));
    var ops := [found, lose, lose];
    assert ops[..2] == [found, lose] && ops[..2][..1] == [found] && [found][..0] == [];
    assert Run(cfg, [found]) == Step(cfg, Initial(cfg), found);
    assert Run(cfg, [found, lose]) == Step(cfg, Run(cfg, [found]), lose);
    assert Run(cfg, ops) == Step(cfg, Run(cfg, [found, lose]), lose);
    var s1 := Step(cfg, Initial(cfg), found);
    DirectCommit(Initial(cfg), address);
    hide Run, Reconciled;
    assert SL.FreshMappings(cfg, ops);
    events := SL.SerialIsInterleaved(cfg, ops);
  }

  lemma DirectCommit(s: State, address: PM.Addr)
    requires s.active.None? && s.failures == 0 && !s.withdrawRetry
    ensures var r := Reconciled(MT.DirectConfig, s, MT.Answers(Some(address), Passed, true), false);
      && r.endpoint == Some(Endpoint(Some(address), None, 1, -1)) && r.active.None?
      && r.failures == 0 && !r.withdrawRetry && r.phase.Ready?
  {
  }

  /** Sync reads the endpoint; the third failure, reported without the lock, withdraws and releases it; then the
      validation of Sync passes, and Sync publishes it again while the manager holds nothing. */
  lemma SyncPublishesWithdrawn(address: PM.Addr) returns (events: seq<L.Event>)
    ensures var m := L.Run(MT.DirectConfig, events).m;
      && m.endpoint.None? && |m.log| > 0 && m.log[|m.log| - 1] == Published(Endpoint(Some(address), None, 1, -1))
      && Withdrew(true) in m.log
    ensures L.Run(MT.DirectConfig, events).threads == map[]
  {
    var cfg := MT.DirectConfig;
    var pass, fail := MT.Answers(None, Passed, true), MT.Answers(None, Failed, true);
    var e := Endpoint(Some(address), None, 1, -1);
    events := TwoFailures(address);
    hide L.Run;
    var w0 := L.Run(cfg, events);
    events := Then(cfg, events, L.BeginCheck(0, pass, true));
    var w1 := L.Run(cfg, events);
    assert w1.threads == map[0 := L.Checking(pass, e, true)] && w1.m == Log(w0.m, Started);
    LoseEnds(w1, L.Checking(pass, e, true), fail);
    events := Then(cfg, events, L.BeginLose(1, fail));
    events := Then(cfg, events, L.Go(1));
    events := Then(cfg, events, L.Go(1));
    events := Then(cfg, events, L.Go(1));
    var w5 := L.Run(cfg, events);
    hide L.Step;
    SyncEnds(cfg, w5, pass, e);
    events := Then(cfg, events, L.Go(0));
    events := Then(cfg, events, L.Go(0));
    events := Then(cfg, events, L.Go(0));
  }

  /** A third failure beside another operation: it withdraws, and lets go of the endpoint. */
  lemma LoseEnds(w: L.World, p: L.Point, env: Env)
    requires w.threads == map[0 := p] && w.holder == Some(0) && env.withdrawOk
    requires w.m.endpoint.Some? && w.m.active.None? && w.m.failures == 2 && !w.m.phase.Withdrawn?
    ensures var cfg := MT.DirectConfig;
      var w1 := L.Step(cfg, L.Step(cfg, w, L.BeginLose(1, env)), L.Go(1));
      var w' := L.Step(cfg, L.Step(cfg, w1, L.Go(1)), L.Go(1));
      && w'.threads == map[0 := p] && w'.m.endpoint.None?
      && w'.m.log == w.m.log + [FailureNoted(false), Withdrew(true)]
  {
    var cfg := MT.DirectConfig;
    var w1 := L.Step(cfg, w, L.BeginLose(1, env));
    assert w1.threads == map[0 := p, 1 := L.Failing(env)];
    var w2 := L.Step(cfg, w1, L.Go(1));
    assert w2.threads == map[0 := p, 1 := L.Withdrawing(env)];
    var w3 := L.Step(cfg, w2, L.Go(1));
    assert w3.threads == map[0 := p, 1 := L.Clearing];
  }

  /** The rest of a Sync whose validation passes. */
  lemma SyncEnds(cfg: Config, w: L.World, env: Env, e: Endpoint)
    requires cfg.validate && w.threads == map[0 := L.Checking(env, e, true)] && env.validate(e).state.Passed?
    ensures var w' := L.Step(cfg, L.Step(cfg, L.Step(cfg, w, L.Go(0)), L.Go(0)), L.Go(0));
      && w'.threads == map[] && w'.m.endpoint == w.m.endpoint
      && w'.m.log == w.m.log + [Checked(e, env.validate(e)), FailuresReset, Published(e)]
  {
    var r := env.validate(e);
    var w1 := L.Step(cfg, w, L.Go(0));
    assert w1.threads == map[0 := L.Judged(env, e, r, true)];
    var w2 := L.Step(cfg, w1, L.Go(0));
    assert w2.threads == map[0 := L.Ending(L.Announce(e, true))];
  }
}
