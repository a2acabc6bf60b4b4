/**
 LocalValidator: probes every address of an endpoint and aggregates the per-family results. A probe is a
 predicate on the address, the port and the TLS name.
 */
module Validator {
  import opened Basics
  import PM = PortMap

  /** An absent address is the empty string of the source. */
  datatype Endpoint = Endpoint(ipv4: Option<PM.Addr>, ipv6: Option<PM.Addr>, derpPort: int, stunPort: int)

  datatype Family = Family(passed: bool, derp: bool, stun: bool)

  datatype Verdict = Disabled | Failed | Degraded | Passed

  datatype Validation = Validation(state: Verdict, derp: bool, stun: bool, ipv4: Option<Family>, ipv6: Option<Family>)

  datatype Probes = Probes(derp: (PM.Addr, int, string) -> bool, stun: (PM.Addr, int) -> bool)

  // ---------- names ----------

  predicate IsSpace(c: char) {
    c in {'\t', '\n', '\U{000B}', '\U{000C}', '\r', ' ', '\U{0085}', '\U{00A0}', '\U{1680}', '\U{2028}', '\U{2029}',
        '\U{202F}', '\U{205F}', '\U{3000}'}
    || '\U{2000}' <= c <= '\U{200A}'
  }

  function TrimSpace(s: string): string {
    if s == "" then ""
    else if IsSpace(s[0]) then TrimSpace(s[1..])
    else if IsSpace(s[|s| - 1]) then TrimSpace(s[..|s| - 1])
    else s
  }

  ghost predicate IsName(values: seq<string>, n: string) {
    n != "" && exists v :: v in values && TrimSpace(v) == n
  }

  /** Each trimmed, non-empty name once. */
  method UniqueNames(values: seq<string>) returns (names: seq<string>)
    ensures forall n :: n in names <==> IsName(values, n)
    ensures forall i, j :: 0 <= i < j < |names| ==> names[i] != names[j]
  {
    names := [];
    var seen: set<string> := {};
    for i := 0 to |values|
      invariant forall n :: n in names <==> IsName(values[..i], n)
      invariant forall n :: n in seen <==> n in names
      invariant forall i, j :: 0 <= i < j < |names| ==> names[i] != names[j]
    {
      assert values[..i + 1] == values[..i] + [values[i]];
      var v := TrimSpace(values[i]);
      if v != "" && v !in seen {
        seen, names := seen + {v}, names + [v];
      }
    }
    assert values[..|values|] == values;
  }

  // ---------- one family ----------

  ghost predicate Presents(values: seq<string>, p: Probes, a: PM.Addr, port: int) {
    values != [] && forall n :: IsName(values, n) ==> p.derp(a, port, n)
  }

  ghost predicate Reaches(e: Endpoint, a: PM.Addr, values: seq<string>, stunEnabled: bool, p: Probes) {
    Presents(values, p, a, e.derpPort) && (stunEnabled ==> e.stunPort > 0 && p.stun(a, e.stunPort))
  }

  /** A family passes if and only if every certificate name answers on the DERP port and, when STUN is on,
      the STUN port is known and answers. */
  method ValidateFamily(e: Endpoint, a: PM.Addr, values: seq<string>, stunEnabled: bool, p: Probes) returns (r: Family)
    ensures r.passed <==> Reaches(e, a, values, stunEnabled, p)
    ensures r.derp <==> Presents(values, p, a, e.derpPort)
    ensures r.stun <==> !stunEnabled || r.passed
  {
    r := Family(false, false, !stunEnabled);
    if values == [] {
      return;
    }
    var names := UniqueNames(values);
    for i := 0 to |names|
      invariant forall j :: 0 <= j < i ==> p.derp(a, e.derpPort, names[j])
    {
      if !p.derp(a, e.derpPort, names[i]) {
        assert names[i] in names;
        return;
      }
    }
    r := r.(derp := true);
    if stunEnabled {
      if e.stunPort <= 0 || !p.stun(a, e.stunPort) {
        return;
      }
      r := r.(stun := true);
    }
    r := r.(passed := true);
  }

  // ---------- the aggregate ----------

  predicate Good(f: Option<Family>) {
    f.Some? && f.value.passed
  }

  predicate Bad(f: Option<Family>) {
    f.Some? && !f.value.passed
  }

  /** The shape of every LocalValidator result: one family result for each address, none for a missing
      one, and an aggregate that fails, is degraded or passes as none, some or all of them pass. */
  predicate Local(e: Endpoint, r: Validation) {
    && (r.ipv4.Some? <==> e.ipv4.Some?) && (r.ipv6.Some? <==> e.ipv6.Some?)
    && (r.state.Failed? <==> !Good(r.ipv4) && !Good(r.ipv6))
    && (r.state.Degraded? <==> (Good(r.ipv4) && Bad(r.ipv6)) || (Bad(r.ipv4) && Good(r.ipv6)))
    && (r.state.Passed? <==> !r.state.Failed? && !r.state.Degraded?)
  }

  method Validate(e: Endpoint, values: seq<string>, stunEnabled: bool, p: Probes) returns (r: Validation)
    ensures Local(e, r)
    ensures e.ipv4.Some? ==> (Good(r.ipv4) <==> Reaches(e, e.ipv4.value, values, stunEnabled, p))
    ensures e.ipv6.Some? ==> (Good(r.ipv6) <==> Reaches(e, e.ipv6.value, values, stunEnabled, p))
    ensures r.derp <==> !r.state.Failed?
    ensures r.stun <==> !stunEnabled || !r.state.Failed?
  {
    r := Validation(Failed, false, !stunEnabled, None, None);
    var failures, passed := 0, 0;
    if e.ipv4.Some? {
      var family := ValidateFamily(e, e.ipv4.value, values, stunEnabled, p);
      r := r.(ipv4 := Some(family));
      if family.passed { passed := passed + 1; } else { failures := failures + 1; }
    }
    if e.ipv6.Some? {
      var family := ValidateFamily(e, e.ipv6.value, values, stunEnabled, p);
      r := r.(ipv6 := Some(family));
      if family.passed { passed := passed + 1; } else { failures := failures + 1; }
    }
    if passed == 0 {
      return;
    }
    r := r.(derp := passed > 0, stun := !stunEnabled || passed > 0);
    r := r.(state := if failures == 0 then Passed else Degraded);
  }

  /** An address where no DERP probe succeeds passes the DERP test if and only if names are configured and
      all of them are blank: such names are skipped, so nothing is probed. */
  lemma DeadAddressPassesIff(values: seq<string>, p: Probes, a: PM.Addr, port: int)
    requires forall n :: !p.derp(a, port, n)
    ensures Presents(values, p, a, port) <==> values != [] && forall v :: v in values ==> TrimSpace(v) == ""
  {
    forall v | v in values && TrimSpace(v) != ""
      ensures IsName(values, TrimSpace(v))
    {
    }
  }

  /** With one blank name an address where no DERP probe succeeds is reported reachable, unless STUN is on and
      does not answer. The program's own configuration check refuses blank names, so only another caller of
      LocalValidator.Validate can pass such a list. */
  lemma BlankNameReachesDeadAddress(e: Endpoint, a: PM.Addr, stunEnabled: bool, p: Probes)
    requires forall n :: !p.derp(a, e.derpPort, n)
    ensures Reaches(e, a, [""], stunEnabled, p) <==> !stunEnabled || (e.stunPort > 0 && p.stun(a, e.stunPort))
  {
    DeadAddressPassesIff([""], p, a, e.derpPort);
  }

  /** White space, by code point: the White_Space property of Unicode. */
  lemma SpaceCodes(c: char)
    ensures IsSpace(c) <==>
      var n := c as int;
      9 <= n <= 13 || n == 32 || n == 0x85 || n == 0xA0 || n == 0x1680 || 0x2000 <= n <= 0x200A
      || n == 0x2028 || n == 0x2029 || n == 0x202F || n == 0x205F || n == 0x3000
  {
  }

  /** Trimming takes off exactly the white space at both ends. */
  lemma {:induction false} TrimSpaceExact(s: string) returns (i: nat, j: nat)
    ensures i <= j <= |s| && TrimSpace(s) == s[i..j]
    ensures forall k :: 0 <= k < i || j <= k < |s| ==> IsSpace(s[k])
    ensures i < j ==> !IsSpace(s[i]) && !IsSpace(s[j - 1])
  {
    if s == "" {
      i, j := 0, 0;
    } else if IsSpace(s[0]) {
      i, j := TrimSpaceExact(s[1..]);
      assert forall k :: 0 < k < |s| ==> s[k] == s[1..][k - 1];
      assert s[1..][i..j] == s[i + 1..j + 1];
      i, j := i + 1, j + 1;
    } else if IsSpace(s[|s| - 1]) {
      var n := |s| - 1;
      i, j := TrimSpaceExact(s[..n]);
      assert forall k :: 0 <= k < n ==> s[k] == s[..n][k];
      assert s[..n][i..j] == s[i..j];
    } else {
      i, j := 0, |s|;
      assert s[0..|s|] == s;
    }
  }
}
