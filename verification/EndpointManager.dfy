/**
 The endpoint manager object. Each operation runs to its end under the operation lock; its contract ties
 the fields to the automaton of module Manager.
 */
module EndpointManager {
  import opened Basics
  import opened Validator
  import opened Manager
  import Theorems = ManagerTheorems

  class EndpointManager {
    const cfg: Config
    var active: Option<Mapping>
    var endpoint: Option<Endpoint>
    var network: Option<nat>
    var withdrawRetry: bool
    var phase: Phase
    var failures: nat
    var verdict: Verdict
    ghost var log: seq<Action>

    ghost function View(): State
      reads this
    {
      State(active, endpoint, network, withdrawRetry, phase, failures, verdict, log)
    }

    constructor (cfg: Config)
      ensures this.cfg == cfg && View() == Initial(cfg) && Theorems.Inv(cfg, View())
    {
      this.cfg := cfg;
      active, endpoint, network, withdrawRetry, failures := None, None, None, false, 0;
      phase := if cfg.enabled then Discovering else Off;
      verdict, log := Verdict.Disabled, [];
    }

    method ReleaseMapping(m: Option<Mapping>)
      modifies this`log
      ensures View() == Release(old(View()), m)
    {
      if m.Some? {
        log := log + [Released(m.value)];
      }
    }

    method ReleaseHeld()
      modifies this`active, this`endpoint, this`network, this`log
      ensures View() == ReleaseActive(old(View()))
    {
      var held := active;
      active, endpoint, network := None, None, None;
      ReleaseMapping(held);
    }

    /** fail: count, decide, and withdraw when due. */
    method NoteFailed(withdrawOk: bool)
      modifies this
      ensures View() == Fail(cfg, old(View()), withdrawOk)
    {
      var was := phase.Withdrawn?;
      log := log + [FailureNoted(was)];
      if cfg.validate {
        failures := failures + 1;
        phase := if was || failures >= FailureThreshold then Withdrawn else Limited;
      } else {
        phase := if active.Some? then Stale else Broken;
      }
      if cfg.validate && !was && failures == FailureThreshold {
        withdrawRetry := true;
      }
      if withdrawRetry {
        log := log + [Withdrew(withdrawOk)];
        phase, withdrawRetry := Withdrawn, !withdrawOk;
        ReleaseHeld();
      }
    }

    method ResetValidationFailures(markReady: bool)
      modifies this`failures, this`withdrawRetry, this`phase, this`log
      ensures View() == ResetFailures(old(View()), markReady)
    {
      var had := failures > 0;
      failures, withdrawRetry, log := 0, false, log + [FailuresReset];
      if had && markReady && endpoint.Some? {
        phase := Ready;
      }
    }

    /** The degraded branch that Check and Sync share: prune, release, reset, publish. */
    method ApplyPartialValidation(env: Env, current: Endpoint, r: Validation)
      modifies this
      ensures View() == ApplyPartial(cfg, old(View()), env, current, r)
    {
      var pruned := Validated(current, r);
      if !HasAddress(pruned) || (cfg.hasCert && !env.certOk) {
        NoteFailed(env.withdrawOk);
        return;
      }
      var drop: Option<Mapping> := None;
      if current.ipv4.Some? && pruned.ipv4.None? {
        drop := active;
        active, network := None, None;
        pruned := LocalPorts(cfg, pruned);
      }
      endpoint, phase := Some(pruned), Limited;
      ReleaseMapping(drop);
      ResetValidationFailures(false);
      log := log + [Published(pruned)];
    }

    method CheckNow(env: Env)
      modifies this
      ensures View() == CheckedNow(cfg, old(View()), env)
      ensures Theorems.Inv(cfg, old(View())) ==> Theorems.Inv(cfg, View())
    {
      hide Fail, ApplyPartial, Theorems.Inv;
      ghost var before := View();
      if Theorems.Inv(cfg, before) { Theorems.CheckKeeps(cfg, before, env); }
      log := log + [Started];
      if endpoint.None? {
        return;
      }
      var current := endpoint.value;
      var r := env.validate(current);
      verdict, log := r.state, log + [Checked(current, r)];
      if r.state.Failed? {
        if cfg.validate {
          NoteFailed(env.withdrawOk);
        }
      } else if r.state.Degraded? {
        ApplyPartialValidation(env, current, r);
      } else {
        ResetValidationFailures(true);
      }
    }

    method SyncNow(env: Env)
      modifies this
      ensures View() == Synced(cfg, old(View()), env)
      ensures Theorems.Inv(cfg, old(View())) ==> Theorems.Inv(cfg, View())
    {
      hide Fail, ApplyPartial, Theorems.Inv;
      ghost var before := View();
      if Theorems.Inv(cfg, before) { Theorems.CheckKeeps(cfg, before, env); }
      log := log + [Started];
      if endpoint.None? {
        return;
      }
      var current := endpoint.value;
      if cfg.validate {
        var r := env.validate(current);
        verdict, log := r.state, log + [Checked(current, r)];
        if r.state.Failed? {
          NoteFailed(env.withdrawOk);
          return;
        }
        if r.state.Degraded? {
          ApplyPartialValidation(env, current, r);
          return;
        }
        ResetValidationFailures(true);
      }
      log := log + [Published(current)];
    }

    /** reconcile, up to the point where it gives up (None) or holds a candidate worth committing. */
    method FindCandidate(env: Env, force: bool) returns (found: Option<Candidate>)
      modifies this`phase, this`verdict, this`log
      ensures match Prepare(cfg, old(View()), env, force)
              case GivenUp(s) => found.None? && View() == s
              case Holding(s, c) => found == Some(c) && View() == s
    {
      hide Equip, Vet;
      phase, log := Attempting, log + [Discovered(cfg, env)];
      var c := AskIPv4(cfg, env);
      if c.mapping.Some? {
        log := log + [Obtained(c.mapping.value)];
      }
      c := AskIPv6(cfg, env, c);
      if PortsClash(cfg, c) {
        ReleaseMapping(c.mapping);
        c := WithoutMapping(cfg, c).(problems := true);
      }
      found := EquipCandidate(env, c);
      if found.Some? {
        found := VetCandidate(env, found.value, force);
      }
    }

    method EquipCandidate(env: Env, c: Candidate) returns (found: Option<Candidate>)
      modifies this`log
      ensures match Equip(cfg, old(View()), env, c)
              case GivenUp(s) => found.None? && View() == s
              case Holding(s, c') => found == Some(c') && View() == s
    {
      if !HasAddress(c.e) || !cfg.tls || (cfg.hasCert && !env.certOk) {
        ReleaseMapping(c.mapping);
        return None;
      }
      found := Some(c);
      if cfg.mode.Nat? && c.e.ipv4.Some? {
        if env.fingerprint.None? {
          ReleaseMapping(c.mapping);
          return None;
        }
        found := Some(c.(network := env.fingerprint.value));
      }
    }

    method VetCandidate(env: Env, candidate: Candidate, force: bool) returns (found: Option<Candidate>)
      modifies this`phase, this`verdict, this`log
      ensures match Vet(cfg, old(View()), env, candidate, force)
              case GivenUp(s) => found.None? && View() == s
              case Holding(s, c) => found == Some(c) && View() == s
    {
      var c := candidate;
      if !cfg.validate && !force {
        verdict := Verdict.Disabled;
        return Some(c);
      }
      phase := Validating;
      var r := env.validate(c.e);
      verdict, log := r.state, log + [Checked(c.e, r)];
      c := c.(e := Validated(c.e, r));
      if !HasAddress(c.e) {
        ReleaseMapping(c.mapping);
        return None;
      }
      if !r.state.Passed? {
        c := c.(problems := true);
      }
      if c.e.ipv4.None? && c.mapping.Some? {
        ReleaseMapping(c.mapping);
        c := WithoutMapping(cfg, c);
      }
      if cfg.hasCert && !env.certOkAgain {
        ReleaseMapping(c.mapping);
        return None;
      }
      return Some(c);
    }

    method AdoptCandidate(env: Env, c: Candidate)
      modifies this
      ensures View() == Adopt(cfg, old(View()), env, c)
    {
      var was, wasOn := active, network;
      active, endpoint, network, failures, log := c.mapping, Some(c.e), c.network, 0, log + [Committed(c)];
      phase := Ready;
      if c.problems || (cfg.validate && !verdict.Passed?) {
        phase := Limited;
      }
      if was.Some? && (wasOn != c.network || !SameMapping(was.value, c.mapping)) {
        ReleaseMapping(was);
      }
      log := log + [Published(c.e)];
      if !env.publishOk {
        phase := Limited;
      }
    }

    /** Whatever the outside world answers, the object keeps the invariant behind the theorems. */
    method ReconcileNow(env: Env, force: bool)
      modifies this
      ensures View() == Reconciled(cfg, old(View()), env, force)
      ensures Theorems.Inv(cfg, old(View())) ==> Theorems.Inv(cfg, View())
    {
      hide Fail, Adopt, Prepare, Theorems.Inv;
      ghost var before := View();
      log := log + [Started];
      if cfg.enabled {
        if !ListenersReady(cfg) {
          NoteFailed(env.withdrawOk);
        } else {
          var found := FindCandidate(env, force);
          if found.Some? {
            AdoptCandidate(env, found.value);
          } else {
            NoteFailed(env.withdrawOk);
          }
        }
      }
      if Theorems.Inv(cfg, before) { Theorems.ReconcileKeeps(cfg, before, env, force); }
    }
  }
}
