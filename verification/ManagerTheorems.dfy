/**
 What holds after every serialised run of the endpoint manager: which endpoints it publishes, and when it
 withdraws.
 */
module ManagerTheorems {
  import opened Basics
  import opened Validator
  import opened Manager
  import PM = PortMap

  // ---------- reading the history ----------

  /** The validation made so far in the current operation. */
  function Checkup(log: seq<Action>): Option<(Endpoint, Validation)> {
    if log == [] || log[|log| - 1].Started? then None
    else if log[|log| - 1].Checked? then Some((log[|log| - 1].e, log[|log| - 1].r))
    else Checkup(log[..|log| - 1])
  }

  /** Failures since a candidate was committed or a validation was not a failure. */
  function FailuresSince(log: seq<Action>): nat {
    if log == [] || log[|log| - 1].Committed? || log[|log| - 1].FailuresReset? then 0
    else FailuresSince(log[..|log| - 1]) + if log[|log| - 1].FailureNoted? then 1 else 0
  }

  /** The last Withdraw failed, and no passing or degraded Check or Sync has followed. A commit does not count. */
  function RetryPending(log: seq<Action>): bool {
    if log == [] || log[|log| - 1].FailuresReset? then false
    else if log[|log| - 1].Withdrew? then !log[|log| - 1].ok
    else RetryPending(log[..|log| - 1])
  }

  /** The failure that ends this history calls for Withdraw. */
  predicate Due(cfg: Config, log: seq<Action>) {
    && log != [] && log[|log| - 1].FailureNoted?
    && ((cfg.validate && FailuresSince(log) == 3 && !log[|log| - 1].wasWithdrawn)
        || RetryPending(log[..|log| - 1]))
  }

  /** Every address of `e` was probed on the ports of `e`, and its family passed, given a validator that
      answers as LocalValidator does. */
  predicate Covered(cfg: Config, checkup: Option<(Endpoint, Validation)>, e: Endpoint) {
    && HasAddress(e) && checkup.Some?
    && var (probed, r) := checkup.value;
       && probed.derpPort == e.derpPort && (cfg.stun ==> probed.stunPort == e.stunPort)
       && (e.ipv4.Some? ==> probed.ipv4 == e.ipv4 && (Local(probed, r) ==> Good(r.ipv4)))
       && (e.ipv6.Some? ==> probed.ipv6 == e.ipv6 && (Local(probed, r) ==> Good(r.ipv6)))
  }

  /** What the last action of a history needs from the actions before it. */
  predicate Fits(cfg: Config, log: seq<Action>, a: Action) {
    && (a.Published? && cfg.validate ==> Covered(cfg, Checkup(log), a.e))
    && (a.Withdrew? <==> Due(cfg, log))
  }

  predicate Lawful(cfg: Config, log: seq<Action>) {
    log == [] || (Lawful(cfg, log[..|log| - 1]) && Fits(cfg, log[..|log| - 1], log[|log| - 1]))
  }

  lemma Snoc(cfg: Config, log: seq<Action>, a: Action)
    ensures Checkup(log + [a]) == if a.Started? then None else if a.Checked? then Some((a.e, a.r)) else Checkup(log)
    ensures FailuresSince(log + [a]) ==
      if a.Committed? || a.FailuresReset? then 0 else FailuresSince(log) + if a.FailureNoted? then 1 else 0
    ensures RetryPending(log + [a]) ==
      if a.FailuresReset? then false else if a.Withdrew? then !a.ok else RetryPending(log)
    ensures Due(cfg, log + [a]) <==>
      a.FailureNoted? &&
      ((cfg.validate && FailuresSince(log) + 1 == 3 && !a.wasWithdrawn) || RetryPending(log))
    ensures Lawful(cfg, log + [a]) <==> Lawful(cfg, log) && Fits(cfg, log, a)
  {
    assert (log + [a])[..|log|] == log;
  }

  // ---------- invariant ----------

  /** IPv6 is only ever announced on the local listener ports. */
  predicate V6Ports(cfg: Config, e: Endpoint) {
    e.ipv6.Some? ==> e.derpPort == cfg.localDerp && (cfg.stun ==> e.stunPort == cfg.localStun)
  }

  predicate PortsOk(cfg: Config, e: Endpoint) {
    HasAddress(e) && V6Ports(cfg, e)
  }

  predicate HeldOk(cfg: Config, endpoint: Option<Endpoint>, failures: nat, phase: Phase) {
    endpoint.Some? ==> PortsOk(cfg, endpoint.value) && failures < 3 && !phase.Withdrawn?
  }

  predicate CountsOk(cfg: Config, failures: nat, retry: bool, log: seq<Action>) {
    && failures == (if cfg.validate then FailuresSince(log) else 0)
    && retry == RetryPending(log)
    && (!cfg.validate ==> !retry)
  }

  predicate Inv(cfg: Config, s: State) {
    && HeldOk(cfg, s.endpoint, s.failures, s.phase)
    && CountsOk(cfg, s.failures, s.withdrawRetry, s.log)
    && Lawful(cfg, s.log) && !Due(cfg, s.log)
  }

  /** An action that neither fails, resets, commits nor publishes. */
  predicate Plain(a: Action) {
    a.Started? || a.Found? || a.Obtained? || a.Released? || a.Checked?
  }

  lemma LogKeeps(cfg: Config, s: State, a: Action)
    requires Inv(cfg, s)
    requires Plain(a) || (a.Published? && (cfg.validate ==> Covered(cfg, Checkup(s.log), a.e)))
    ensures Inv(cfg, Log(s, a))
    ensures Checkup(Log(s, a).log) ==
      if a.Started? then None else if a.Checked? then Some((a.e, a.r)) else Checkup(s.log)
  {
    Snoc(cfg, s.log, a);
  }

  lemma ReleaseKeeps(cfg: Config, s: State, m: Option<Mapping>)
    requires Inv(cfg, s)
    ensures Inv(cfg, Release(s, m)) && Checkup(Release(s, m).log) == Checkup(s.log)
  {
    hide Inv, Checkup;
    if m.Some? { LogKeeps(cfg, s, Released(m.value)); }
  }

  lemma ResetKeeps(cfg: Config, s: State, markReady: bool)
    requires Inv(cfg, s)
    ensures Inv(cfg, ResetFailures(s, markReady)) && Checkup(ResetFailures(s, markReady).log) == Checkup(s.log)
  {
    Snoc(cfg, s.log, FailuresReset);
  }

  /** A failure withdraws exactly when the history says so, and then lets go of the endpoint. */
  lemma FailKeeps(cfg: Config, s: State, withdrawOk: bool)
    requires Inv(cfg, s)
    ensures Inv(cfg, Fail(cfg, s, withdrawOk))
  {
    var noted := NoteFailure(cfg, s);
    Snoc(cfg, s.log, FailureNoted(s.phase.Withdrawn?));
    assert noted.withdrawRetry <==> Due(cfg, noted.log);
    if noted.withdrawRetry {
      var w := NoteWithdrawal(noted, withdrawOk);
      Snoc(cfg, noted.log, Withdrew(withdrawOk));
      hide Lawful, Due, RetryPending, FailuresSince, Checkup;
      ReleaseKeeps(cfg, DropActive(w), w.active);
    }
  }

  // ---------- operations ----------

  /** What a reconcile may hold: a mapping comes with an IPv4 address, and IPv6 with the local ports. */
  predicate CandidateOk(cfg: Config, c: Candidate) {
    (c.mapping.Some? ==> c.e.ipv4.Some?) && V6Ports(cfg, c.e)
  }

  lemma PruningCovers(cfg: Config, e: Endpoint, r: Validation)
    requires V6Ports(cfg, e) && HasAddress(Validated(e, r))
    ensures Covered(cfg, Some((e, r)), Validated(e, r)) && V6Ports(cfg, Validated(e, r))
    ensures Validated(e, r).ipv4.None? ==> Covered(cfg, Some((e, r)), LocalPorts(cfg, Validated(e, r)))
  {
  }

  lemma PassingCovers(cfg: Config, e: Endpoint, r: Validation)
    requires HasAddress(e) && !r.state.Failed? && !r.state.Degraded?
    ensures Covered(cfg, Some((e, r)), e)
  {
  }

  lemma GatherKeeps(cfg: Config, s: State, env: Env)
    requires Inv(cfg, s)
    ensures var p := Gather(cfg, s, env); p.Holding? && Inv(cfg, p.s) && CandidateOk(cfg, p.c)
  {
    hide CountsOk, Lawful, Due, Checkup;
    var asked := AskIPv4(cfg, env);
    var s0 := Log(s.(phase := Attempting), Discovered(cfg, env));
    LogKeeps(cfg, s.(phase := Attempting), Discovered(cfg, env));
    var s1 := if asked.mapping.Some? then Log(s0, Obtained(asked.mapping.value)) else s0;
    if asked.mapping.Some? { LogKeeps(cfg, s0, Obtained(asked.mapping.value)); }
    ReleaseKeeps(cfg, s1, AskIPv6(cfg, env, asked).mapping);
  }

  lemma EquipKeeps(cfg: Config, s: State, env: Env, c: Candidate)
    requires Inv(cfg, s) && CandidateOk(cfg, c)
    ensures var p := Equip(cfg, s, env, c); Inv(cfg, p.s) && (p.Holding? ==> CandidateOk(cfg, p.c) && HasAddress(p.c.e))
  {
    hide Inv, Checkup, Release, V6Ports;
    ReleaseKeeps(cfg, s, c.mapping);
  }

  lemma VetKeeps(cfg: Config, s: State, env: Env, c: Candidate, force: bool)
    requires Inv(cfg, s) && CandidateOk(cfg, c) && HasAddress(c.e)
    ensures var p := Vet(cfg, s, env, c, force);
      && Inv(cfg, p.s)
      && (p.Holding? ==> PortsOk(cfg, p.c.e) && (cfg.validate ==> Covered(cfg, Checkup(p.s.log), p.c.e)))
  {
    hide CountsOk, Lawful, Due, Checkup, Covered;
    if cfg.validate || force {
      var r := env.validate(c.e);
      LogKeeps(cfg, s, Checked(c.e, r));
      var s1 := Log(s, Checked(c.e, r)).(phase := Validating, verdict := r.state);
      var e := Validated(c.e, r);
      ReleaseKeeps(cfg, s1, c.mapping);
      if HasAddress(e) {
        PruningCovers(cfg, c.e, r);
      }
    }
  }

  lemma AdoptKeeps(cfg: Config, s: State, env: Env, c: Candidate)
    requires Inv(cfg, s) && PortsOk(cfg, c.e) && (cfg.validate ==> Covered(cfg, Checkup(s.log), c.e))
    ensures Inv(cfg, Adopt(cfg, s, env, c))
  {
    Snoc(cfg, s.log, Committed(c));
    var s1 := Commit(cfg, s, c);
    assert Inv(cfg, s1);
    hide CountsOk, Lawful, Due, Checkup, Covered;
    ReleaseKeeps(cfg, s1, s.active);
    LogKeeps(cfg, s1, Published(c.e));
    LogKeeps(cfg, Release(s1, s.active), Published(c.e));
  }

  lemma ReconcileKeeps(cfg: Config, s: State, env: Env, force: bool)
    requires Inv(cfg, s)
    ensures Inv(cfg, Reconciled(cfg, s, env, force))
  {
    hide Inv, Gather, Equip, Vet, Adopt, Fail, Covered, CandidateOk;
    LogKeeps(cfg, s, Started);
    var s0 := Log(s, Started);
    FailKeeps(cfg, s0, env.withdrawOk);
    GatherKeeps(cfg, s0, env);
    var g := Gather(cfg, s0, env);
    EquipKeeps(cfg, g.s, env, g.c);
    var q := Equip(cfg, g.s, env, g.c);
    if q.GivenUp? {
      FailKeeps(cfg, q.s, env.withdrawOk);
    } else {
      VetKeeps(cfg, q.s, env, q.c, force);
      var v := Vet(cfg, q.s, env, q.c, force);
      if v.GivenUp? {
        FailKeeps(cfg, v.s, env.withdrawOk);
      } else {
        AdoptKeeps(cfg, v.s, env, v.c);
      }
    }
  }

  lemma PartialKeeps(cfg: Config, s: State, env: Env, current: Endpoint, r: Validation)
    requires Inv(cfg, s) && s.endpoint == Some(current) && Checkup(s.log) == Some((current, r))
    ensures Inv(cfg, ApplyPartial(cfg, s, env, current, r))
  {
    hide CountsOk, Lawful, Due, Checkup, Covered, Fail;
    FailKeeps(cfg, s, env.withdrawOk);
    var pruned := Validated(current, r);
    if HasAddress(pruned) {
      PruningCovers(cfg, current, r);
      var s1 := Prune(cfg, s, current, pruned);
      ReleaseKeeps(cfg, s1, s.active);
      var s2 := if current.ipv4.Some? && pruned.ipv4.None? then Release(s1, s.active) else s1;
      ResetKeeps(cfg, s2, false);
      LogKeeps(cfg, ResetFailures(s2, false), Published(s1.endpoint.value));
    }
  }

  lemma CheckKeeps(cfg: Config, s: State, env: Env)
    requires Inv(cfg, s)
    ensures Inv(cfg, CheckedNow(cfg, s, env)) && Inv(cfg, Synced(cfg, s, env))
  {
    LogKeeps(cfg, s, Started);
    if s.endpoint.Some? {
      var e := s.endpoint.value;
      var r := env.validate(e);
      var s0 := Log(s, Started);
      LogKeeps(cfg, s0, Checked(e, r));
      var s1 := Log(s0, Checked(e, r)).(verdict := r.state);
      if !cfg.validate { LogKeeps(cfg, s0, Published(e)); }
      assert Inv(cfg, s1) && PortsOk(cfg, e);
      hide Inv, Checkup, Covered, Fail, ApplyPartial;
      FailKeeps(cfg, s1, env.withdrawOk);
      PartialKeeps(cfg, s1, env, e, r);
      ResetKeeps(cfg, s1, true);
      if !r.state.Failed? && !r.state.Degraded? {
        PassingCovers(cfg, e, r);
        LogKeeps(cfg, ResetFailures(s1, true), Published(e));
      }
    }
  }

  lemma StepKeeps(cfg: Config, s: State, op: Op)
    requires Inv(cfg, s)
    ensures Inv(cfg, Step(cfg, s, op))
  {
    match op
    case Reconcile(env, force) => ReconcileKeeps(cfg, s, env, force);
    case Check(env) => CheckKeeps(cfg, s, env);
    case Sync(env) => CheckKeeps(cfg, s, env);
    case Lose(env) =>
      hide Inv, Fail;
      FailKeeps(cfg, s, env.withdrawOk);
    case Stop =>
      hide CountsOk, Lawful, Due, Checkup;
      ReleaseKeeps(cfg, DropActive(s), s.active);
  }

  lemma {:induction false} RunInvariant(cfg: Config, ops: seq<Op>)
    ensures Inv(cfg, Run(cfg, ops))
  {
    if ops != [] {
      hide Inv;
      RunInvariant(cfg, ops[..|ops| - 1]);
      StepKeeps(cfg, Run(cfg, ops[..|ops| - 1]), ops[|ops| - 1]);
    }
  }

  lemma {:induction false} LawfulAt(cfg: Config, log: seq<Action>, i: nat)
    requires Lawful(cfg, log) && i < |log|
    ensures Fits(cfg, log[..i], log[i])
  {
    if i < |log| - 1 {
      LawfulAt(cfg, log[..|log| - 1], i);
      assert log[..|log| - 1][..i] == log[..i];
    }
  }

  // ---------- theorems ----------

  /** With validation on, whatever is passed to Publish was validated in the same operation: each of its
      addresses was probed on the very ports published and passed, even when pruning reset the ports. */
  lemma PublishedWasValidated(cfg: Config, ops: seq<Op>, i: nat)
    requires cfg.validate && i < |Run(cfg, ops).log| && Run(cfg, ops).log[i].Published?
    ensures var log := Run(cfg, ops).log; Covered(cfg, Checkup(log[..i]), log[i].e)
  {
    RunInvariant(cfg, ops);
    LawfulAt(cfg, Run(cfg, ops).log, i);
  }

  /** IPv6 is only ever held together with the local listener ports. */
  lemma HeldIPv6UsesLocalPorts(cfg: Config, ops: seq<Op>)
    ensures var s := Run(cfg, ops);
      && (s.endpoint.Some? ==> HasAddress(s.endpoint.value) && V6Ports(cfg, s.endpoint.value))
      && (s.endpoint.Some? ==> s.failures < 3 && !s.phase.Withdrawn?)
  {
    RunInvariant(cfg, ops);
  }

  /** When Withdraw is called: it follows a noted failure at once, exactly when that failure is the third
      since the last reset and the state was not already withdrawn, or when the last Withdraw failed and
      no passing or degraded validation of Check or Sync came in between. */
  lemma WithdrawsExactlyWhenDue(cfg: Config, ops: seq<Op>, i: nat)
    requires i <= |Run(cfg, ops).log|
    ensures var log := Run(cfg, ops).log; (i < |log| && log[i].Withdrew?) <==> Due(cfg, log[..i])
  {
    RunInvariant(cfg, ops);
    var log := Run(cfg, ops).log;
    if i < |log| {
      LawfulAt(cfg, log, i);
    } else {
      assert log[..i] == log;
    }
  }

  /** The two counters are what the history says. */
  lemma CountersFollowHistory(cfg: Config, ops: seq<Op>)
    ensures var s := Run(cfg, ops);
      && s.withdrawRetry == RetryPending(s.log)
      && s.failures == (if cfg.validate then FailuresSince(s.log) else 0)
  {
    RunInvariant(cfg, ops);
  }

  lemma {:induction false} NoRetryWithoutWithdraw(cfg: Config, log: seq<Action>)
    requires Lawful(cfg, log) && !cfg.validate
    ensures !RetryPending(log) && forall i :: 0 <= i < |log| ==> !log[i].Withdrew?
  {
    if log != [] {
      var n := |log| - 1;
      NoRetryWithoutWithdraw(cfg, log[..n]);
      if n > 0 && log[..n][n - 1].FailureNoted? {
        NoRetryWithoutWithdraw(cfg, log[..n][..n - 1]);
      }
      forall i | 0 <= i < |log|
        ensures !log[i].Withdrew?
      {
        if i < n { assert log[i] == log[..n][i]; }
      }
    }
  }

  /** With validation off the manager never withdraws. */
  lemma NoWithdrawWithoutValidation(cfg: Config, ops: seq<Op>, i: nat)
    requires !cfg.validate && i < |Run(cfg, ops).log|
    ensures !Run(cfg, ops).log[i].Withdrew?
  {
    RunInvariant(cfg, ops);
    NoRetryWithoutWithdraw(cfg, Run(cfg, ops).log);
  }

  // ---------- a first failure that withdraws ----------

  lemma RunThen(cfg: Config, ops: seq<Op>, op: Op)
    ensures Run(cfg, ops + [op]) == Step(cfg, Run(cfg, ops), op)
  {
    assert (ops + [op])[..|ops|] == ops;
  }

  /** One address, validated, published directly. */
  const DirectConfig := Config(true, Direct, IPv4Only, true, true, false, false, 1, 0, true, false)

  function Answers(address: Option<PM.Addr>, verdict: Verdict, withdrawOk: bool): Env {
    var family := Some(Family(verdict.Passed?, verdict.Passed?, true));
    Env(address, None, None, true, None, e => Validation(verdict, verdict.Passed?, true, family, None), true, true,
        withdrawOk)
  }

  /** A reconcile that finds no address is a failure, and one that finds a working address commits it. */
  lemma DirectReconcile(s: State, ok: bool, address: PM.Addr)
    ensures Reconciled(DirectConfig, s, Answers(None, Failed, ok), false)
         == Fail(DirectConfig, Log(Log(s, Started).(phase := Attempting), Found(None, None)), ok)
    ensures var r := Reconciled(DirectConfig, s, Answers(Some(address), Passed, ok), false);
      && r.endpoint == Some(Endpoint(Some(address), None, 1, -1)) && r.failures == 0
      && r.withdrawRetry == s.withdrawRetry && !r.phase.Withdrawn?
      && (forall a :: a in r.log ==> a in s.log || !a.Withdrew?)
  {
    hide Fail;
  }

  lemma DirectFail(s: State, ok: bool)
    ensures var r := Fail(DirectConfig, s, ok);
      && r.failures == s.failures + 1
      && r.withdrawRetry == (!ok && (s.withdrawRetry || (!s.phase.Withdrawn? && s.failures + 1 == 3)))
      && (s.withdrawRetry ==> Withdrew(ok) in r.log)
      && (forall a :: a in r.log ==> a in s.log || !a.Withdrew? || a == Withdrew(ok))
  {
  }

  lemma DirectCheck(s: State, ok: bool)
    requires s.endpoint.Some?
    ensures var env := Answers(None, Failed, ok);
      CheckedNow(DirectConfig, s, env) ==
        Fail(DirectConfig,
            Log(Log(s, Started), Checked(s.endpoint.value, env.validate(s.endpoint.value))).(verdict := Failed), ok)
  {
    hide Fail;
  }

  /** Three reconciles fail and so does the Withdraw due at the third; the fourth commits; then one failed Check,
      the first failure since, withdraws the endpoint that was just published. */
  lemma CommitKeepsRetry(address: PM.Addr) returns (ops: seq<Op>)
    ensures |ops| == 5 && ops[3].Reconcile? && ops[4].Check?
    ensures var s, s' := Run(DirectConfig, ops[..4]), Run(DirectConfig, ops);
      && s.endpoint.Some? && s.failures == 0 && Withdrew(true) !in s.log
      && s'.failures == 1 && Withdrew(true) in s'.log
  {
    var lost := Reconcile(Answers(None, Failed, false), false);
    var found := Reconcile(Answers(Some(address), Passed, false), false);
    ops := [lost, lost, lost, found, Check(Answers(None, Failed, true))];
    assert Run(DirectConfig, []) == Initial(DirectConfig);
    hide Run, Reconciled, CheckedNow, Fail;
    var s := Run(DirectConfig, []);
    var n := 0;
    while n < 3
      invariant 0 <= n <= 3 && s == Run(DirectConfig, ops[..n])
      invariant s.failures == n && s.withdrawRetry == (n == 3) && Withdrew(true) !in s.log
    {
      assert ops[..n + 1] == ops[..n] + [lost];
      RunThen(DirectConfig, ops[..n], lost);
      DirectReconcile(s, false, address);
      DirectFail(Log(Log(s, Started).(phase := Attempting), Found(None, None)), false);
      s, n := Step(DirectConfig, s, lost), n + 1;
    }
    assert ops[..4] == ops[..3] + [found] && ops == ops[..4] + [ops[4]];
    RunThen(DirectConfig, ops[..3], found);
    DirectReconcile(s, false, address);
    s := Step(DirectConfig, s, found);
    RunThen(DirectConfig, ops[..4], ops[4]);
    DirectCheck(s, true);
    var e := s.endpoint.value;
    DirectFail(Log(Log(s, Started), Checked(e, Answers(None, Failed, true).validate(e))).(verdict := Failed), true);
  }
}
