/**
 The external endpoint manager: reconcile, Check, Sync and fail as an automaton over the mapping it holds,
 the endpoint it publishes, its failure count and its retry flag. `log` is the history of what it did.
 */
module Manager {
  import opened Basics
  import opened Validator
  import PM = PortMap

  datatype Mode = Nat | Direct | OtherMode

  datatype Families = IPv4Only | IPv6Only | Dual | OtherFamilies

  /** The configuration, with the listener bindings that are set once before the first reconcile. */
  datatype Config = Config(enabled: bool, mode: Mode, families: Families, validate: bool, tls: bool, stun: bool,
                           hasCert: bool, localDerp: nat, localStun: nat, ipv4Bound: bool, ipv6Bound: bool)

  /** A mapping object; `id` is its identity, so a renewal with the same leases is a different mapping. */
  datatype Mapping = Mapping(id: nat, via: string, derp: PM.Lease, stun: Option<PM.Lease>)

  datatype Phase = Off | Discovering | Attempting | Validating | Ready | Limited | Withdrawn | Stale | Broken

  /** `Started` is an operation taking the operation lock. */
  datatype Action =
    | Started
    | Found(ipv4: Option<PM.Addr>, ipv6: Option<PM.Addr>)    // public addresses discovered
    | Obtained(m: Mapping)
    | Released(m: Mapping)
    | Checked(e: Endpoint, r: Validation)
    | Published(e: Endpoint)
    | FailureNoted(wasWithdrawn: bool)
    | Withdrew(ok: bool)
    | FailuresReset
    | Committed(c: Candidate)

  datatype State = State(
    active: Option<Mapping>,
    endpoint: Option<Endpoint>,
    network: Option<nat>,
    withdrawRetry: bool,
    phase: Phase,
    failures: nat,
    verdict: Verdict,
    log: seq<Action>)

  /** What the outside world answers during one operation. `fingerprint` is None when the route cannot be
      inspected, and Some(None) when there is nothing to inspect. */
  datatype Env = Env(publicV4: Option<PM.Addr>, mapped: Option<Mapping>, publicV6: Option<PM.Addr>, certOk: bool,
                     fingerprint: Option<Option<nat>>, validate: Endpoint -> Validation, certOkAgain: bool,
                     publishOk: bool, withdrawOk: bool)

  const FailureThreshold: nat := 3

  function Initial(cfg: Config): State {
    State(None, None, None, false, if cfg.enabled then Discovering else Off, 0, Verdict.Disabled, [])
  }

  function Log(s: State, a: Action): State {
    s.(log := s.log + [a])
  }

  function Release(s: State, m: Option<Mapping>): State {
    if m.Some? then Log(s, Released(m.value)) else s
  }

  // ---------- locked sections ----------

  /** The first locked section of fail. */
  function NoteFailure(cfg: Config, s: State): State {
    var was := s.phase.Withdrawn?;
    var n := if cfg.validate then s.failures + 1 else s.failures;
    s.(failures := n,
       phase := if cfg.validate then (if was || n >= FailureThreshold then Withdrawn else Limited)
                else if s.active.Some? then Stale else Broken,
       withdrawRetry := s.withdrawRetry || (cfg.validate && !was && n == FailureThreshold),
       log := s.log + [FailureNoted(was)])
  }

  function NoteWithdrawal(s: State, ok: bool): State {
    s.(phase := Withdrawn, withdrawRetry := !ok, log := s.log + [Withdrew(ok)])
  }

  function DropActive(s: State): State {
    s.(active := None, endpoint := None, network := None)
  }

  function ResetFailures(s: State, markReady: bool): State {
    s.(failures := 0, withdrawRetry := false, log := s.log + [FailuresReset],
       phase := if s.failures > 0 && markReady && s.endpoint.Some? then Ready else s.phase)
  }

  function LocalPorts(cfg: Config, e: Endpoint): Endpoint {
    e.(derpPort := cfg.localDerp, stunPort := if cfg.stun then cfg.localStun else -1)
  }

  /** The locked section of applyPartialValidation. */
  function Prune(cfg: Config, s: State, current: Endpoint, pruned: Endpoint): State {
    if current.ipv4.Some? && pruned.ipv4.None? then
      s.(active := None, network := None, endpoint := Some(LocalPorts(cfg, pruned)), phase := Limited)
    else
      s.(endpoint := Some(pruned), phase := Limited)
  }

  function Commit(cfg: Config, s: State, c: Candidate): State {
    s.(active := c.mapping, endpoint := Some(c.e), network := c.network, failures := 0,
       phase := if c.problems || (cfg.validate && !s.verdict.Passed?) then Limited else Ready,
       log := s.log + [Committed(c)])
  }

  predicate SameMapping(a: Mapping, b: Option<Mapping>) {
    b.Some? && a.via == b.value.via && a.derp == b.value.derp && a.stun == b.value.stun
  }

  // ---------- operations ----------

  function Fail(cfg: Config, s: State, withdrawOk: bool): State {
    var noted := NoteFailure(cfg, s);
    if !noted.withdrawRetry then noted else ReleaseActive(NoteWithdrawal(noted, withdrawOk))
  }

  function ReleaseActive(s: State): State {
    Release(DropActive(s), s.active)
  }

  /** Endpoint.validated: keep the families that passed. */
  function Validated(e: Endpoint, r: Validation): Endpoint {
    var e4 := if Bad(r.ipv4) then e.(ipv4 := None) else e;
    var e6 := if Bad(r.ipv6) then e4.(ipv6 := None) else e4;
    if r.ipv4.None? && r.ipv6.None? && !r.state.Passed? then e6.(ipv4 := None, ipv6 := None) else e6
  }

  predicate HasAddress(e: Endpoint) {
    e.ipv4.Some? || e.ipv6.Some?
  }

  datatype Candidate = Candidate(e: Endpoint, mapping: Option<Mapping>, network: Option<nat>, problems: bool)

  predicate WantsIPv4(cfg: Config) {
    cfg.families.IPv4Only? || cfg.families.Dual?
  }

  predicate WantsIPv6(cfg: Config) {
    cfg.families.IPv6Only? || cfg.families.Dual?
  }

  function AskIPv4(cfg: Config, env: Env): Candidate {
    var none := Candidate(LocalPorts(cfg, Endpoint(None, None, 0, 0)), None, None, false);
    if !WantsIPv4(cfg) then none
    else if !cfg.ipv4Bound then none.(problems := true)
    else if cfg.mode.Direct? then
      if env.publicV4.None? then none.(problems := true) else none.(e := none.e.(ipv4 := env.publicV4))
    else if env.mapped.None? then none.(problems := true)
    else
      var m := env.mapped.value;
      var stunPort := if m.stun.Some? then m.stun.value.externalPort else -1;
      none.(e := Endpoint(Some(m.derp.ip), None, m.derp.externalPort, stunPort), mapping := Some(m))
  }

  function AskIPv6(cfg: Config, env: Env, c: Candidate): Candidate {
    if !WantsIPv6(cfg) then c
    else if !cfg.ipv6Bound || env.publicV6.None? then c.(problems := true)
    else c.(e := c.e.(ipv6 := env.publicV6))
  }

  /** What discovery answers a reconcile that asks it. */
  function Discovered(cfg: Config, env: Env): Action {
    Found(if WantsIPv4(cfg) && cfg.ipv4Bound && cfg.mode.Direct? then env.publicV4 else None,
          if WantsIPv6(cfg) && cfg.ipv6Bound then env.publicV6 else None)
  }

  /** One port set serves both families: an IPv4 mapping on other ports gives way to direct IPv6. */
  predicate PortsClash(cfg: Config, c: Candidate) {
    c.e.ipv4.Some? && c.e.ipv6.Some? && c.mapping.Some? &&
    (c.e.derpPort != cfg.localDerp || (cfg.stun && c.e.stunPort != cfg.localStun))
  }

  function WithoutMapping(cfg: Config, c: Candidate): Candidate {
    c.(e := LocalPorts(cfg, c.e.(ipv4 := None)), mapping := None, network := None)
  }

  /** A reconcile in progress: given up, with its mapping released, or still holding a candidate. */
  datatype Progress = GivenUp(s: State) | Holding(s: State, c: Candidate)

  function GiveUp(s: State, c: Candidate): Progress {
    GivenUp(Release(s, c.mapping))
  }

  predicate ListenersReady(cfg: Config) {
    cfg.localDerp != 0 && (cfg.stun ==> cfg.localStun != 0)
  }

  function Gather(cfg: Config, s: State, env: Env): Progress {
    var asked := AskIPv4(cfg, env);
    var s0 := Log(s.(phase := Attempting), Discovered(cfg, env));
    var s1 := if asked.mapping.Some? then Log(s0, Obtained(asked.mapping.value)) else s0;
    var both := AskIPv6(cfg, env, asked);
    if PortsClash(cfg, both)
    then Holding(Release(s1, both.mapping), WithoutMapping(cfg, both).(problems := true))
    else Holding(s1, both)
  }

  /** TLS, certificate and route, before validation. */
  function Equip(cfg: Config, s: State, env: Env, c: Candidate): Progress {
    if !HasAddress(c.e) || !cfg.tls || (cfg.hasCert && !env.certOk) then GiveUp(s, c)
    else if cfg.mode.Nat? && c.e.ipv4.Some? then
      if env.fingerprint.None? then GiveUp(s, c) else Holding(s, c.(network := env.fingerprint.value))
    else Holding(s, c)
  }

  function Vet(cfg: Config, s: State, env: Env, c: Candidate, force: bool): Progress {
    if !cfg.validate && !force then Holding(s.(verdict := Verdict.Disabled), c)
    else
      var r := env.validate(c.e);
      var s1 := Log(s, Checked(c.e, r)).(phase := Validating, verdict := r.state);
      var c1 := c.(e := Validated(c.e, r), problems := c.problems || !r.state.Passed?);
      if !HasAddress(c1.e) then GiveUp(s1, c1)
      else
        var drops := c1.e.ipv4.None? && c1.mapping.Some?;
        var s2 := if drops then Release(s1, c1.mapping) else s1;
        var c2 := if drops then WithoutMapping(cfg, c1) else c1;
        if cfg.hasCert && !env.certOkAgain then GiveUp(s2, c2) else Holding(s2, c2)
  }

  function Prepare(cfg: Config, s: State, env: Env, force: bool): Progress {
    match Gather(cfg, s, env)
    case GivenUp(s1) => GivenUp(s1)
    case Holding(s1, c1) =>
      match Equip(cfg, s1, env, c1)
      case GivenUp(s2) => GivenUp(s2)
      case Holding(s2, c2) => Vet(cfg, s2, env, c2, force)
  }

  /** Commit the candidate, release the mapping it replaces unless it was renewed in place, and publish. */
  function Adopt(cfg: Config, s: State, env: Env, c: Candidate): State {
    var s1 := Commit(cfg, s, c);
    var s2 := if s.active.Some? && (s.network != c.network || !SameMapping(s.active.value, c.mapping))
              then Release(s1, s.active) else s1;
    var s3 := Log(s2, Published(c.e));
    if env.publishOk then s3 else s3.(phase := Limited)
  }

  function Reconciled(cfg: Config, s: State, env: Env, force: bool): State {
    var s0 := Log(s, Started);
    if !cfg.enabled then s0
    else if !ListenersReady(cfg) then Fail(cfg, s0, env.withdrawOk)
    else
      match Prepare(cfg, s0, env, force)
      case GivenUp(s1) => Fail(cfg, s1, env.withdrawOk)
      case Holding(s1, c) => Adopt(cfg, s1, env, c)
  }

  /** A degraded validation: prune the families that failed and carry on with the rest. */
  function ApplyPartial(cfg: Config, s: State, env: Env, current: Endpoint, r: Validation): State {
    var pruned := Validated(current, r);
    if !HasAddress(pruned) || (cfg.hasCert && !env.certOk) then Fail(cfg, s, env.withdrawOk)
    else
      var s1 := Prune(cfg, s, current, pruned);
      var s2 := if current.ipv4.Some? && pruned.ipv4.None? then Release(s1, s.active) else s1;
      Log(ResetFailures(s2, false), Published(s1.endpoint.value))
  }

  function CheckedNow(cfg: Config, s: State, env: Env): State {
    var s0 := Log(s, Started);
    if s.endpoint.None? then s0
    else
      var e := s.endpoint.value;
      var r := env.validate(e);
      var s1 := Log(s0, Checked(e, r)).(verdict := r.state);
      if r.state.Failed? then (if cfg.validate then Fail(cfg, s1, env.withdrawOk) else s1)
      else if r.state.Degraded? then ApplyPartial(cfg, s1, env, e, r)
      else ResetFailures(s1, true)
  }

  function Synced(cfg: Config, s: State, env: Env): State {
    var s0 := Log(s, Started);
    if s.endpoint.None? then s0
    else
      var e := s.endpoint.value;
      if !cfg.validate then Log(s0, Published(e))
      else
        var r := env.validate(e);
        var s1 := Log(s0, Checked(e, r)).(verdict := r.state);
        if r.state.Failed? then Fail(cfg, s1, env.withdrawOk)
        else if r.state.Degraded? then ApplyPartial(cfg, s1, env, e, r)
        else Log(ResetFailures(s1, true), Published(e))
  }

  /** The failure that maintain reports without taking the operation lock; it needs a held endpoint. */
  function RouteLost(cfg: Config, s: State, env: Env): State {
    if s.endpoint.None? then s else Fail(cfg, s, env.withdrawOk)
  }

  datatype Op =
    | Reconcile(env: Env, force: bool)
    | Check(env: Env)
    | Sync(env: Env)
    | Lose(env: Env)
    | Stop

  function Step(cfg: Config, s: State, op: Op): State {
    match op
    case Reconcile(env, force) => Reconciled(cfg, s, env, force)
    case Check(env) => CheckedNow(cfg, s, env)
    case Sync(env) => Synced(cfg, s, env)
    case Lose(env) => RouteLost(cfg, s, env)
    case Stop => ReleaseActive(s)
  }

  /** A serialised run: each operation ends before the next begins. */
  function Run(cfg: Config, ops: seq<Op>): State {
    if ops == [] then Initial(cfg) else Step(cfg, Run(cfg, ops[..|ops| - 1]), ops[|ops| - 1])
  }
}
