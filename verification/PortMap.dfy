/**
 Port mappings obtained from a gateway: which answers are accepted, and how Client.Map falls back from
 one method to the next.
 */
module PortMap {
  import opened Basics

  /** A netip.Addr: the zero value, an IPv4 address or an IPv6 address, as a number. */
  datatype Addr = NoAddr | V4(n: nat) | V6(n: nat)

  datatype Protocol = TCP | UDP

  datatype PortRequest = PortRequest(internalPort: nat, externalPort: nat, strict: bool)

  datatype Request = Request(derp: PortRequest, stun: Option<PortRequest>)

  datatype Lease = Lease(protocol: Protocol, internalPort: nat, externalPort: nat, ip: Addr)

  datatype Mapping = Mapping(derp: Option<Lease>, stun: Option<Lease>)

  // ---------- public addresses ----------

  datatype Range = Range(first: nat, last: nat)

  const TwoTo32: nat := 0x1_0000_0000

  /** The fourteen prefixes that are not public, as ranges. */
  const NonPublicIPv4: seq<Range> := [
    Range(0x0000_0000, 0x00FF_FFFF), Range(0x0A00_0000, 0x0AFF_FFFF), Range(0x6440_0000, 0x647F_FFFF),
    Range(0x7F00_0000, 0x7FFF_FFFF), Range(0xA9FE_0000, 0xA9FE_FFFF), Range(0xAC10_0000, 0xAC1F_FFFF),
    Range(0xC000_0000, 0xC000_00FF), Range(0xC000_0200, 0xC000_02FF), Range(0xC0A8_0000, 0xC0A8_FFFF),
    Range(0xC612_0000, 0xC613_FFFF), Range(0xC633_6400, 0xC633_64FF), Range(0xCB00_7100, 0xCB00_71FF),
    Range(0xE000_0000, 0xEFFF_FFFF), Range(0xF000_0000, 0xFFFF_FFFF)]

  predicate Contains(r: Range, n: nat) {
    r.first <= n <= r.last
  }

  /** IPv4-mapped IPv6 addresses count as IPv4. */
  function Unmap(a: Addr): Addr {
    if a.V6? && a.n / TwoTo32 == 0xFFFF then V4(a.n % TwoTo32) else a
  }

  /** netip.Addr.IsGlobalUnicast of an IPv4 address: not unspecified, broadcast, loopback, multicast or link-local. */
  predicate GlobalUnicast(n: nat) {
    && n != 0 && n != 0xFFFF_FFFF
    && !Contains(Range(0x7F00_0000, 0x7FFF_FFFF), n)
    && !Contains(Range(0xE000_0000, 0xEFFF_FFFF), n)
    && !Contains(Range(0xA9FE_0000, 0xA9FE_FFFF), n)
  }

  predicate Public(a: Addr) {
    Unmap(a).V4? && forall r :: r in NonPublicIPv4 ==> !Contains(r, Unmap(a).n)
  }

  /** The table alone decides: the separate global-unicast test never changes the answer. */
  method IsPublicIPv4(a: Addr) returns (public: bool)
    ensures public <==> Public(a)
  {
    var addr := Unmap(a);
    if !addr.V4? {
      return false;
    }
    assert Contains(NonPublicIPv4[0], 0) && Contains(NonPublicIPv4[13], 0xFFFF_FFFF);
    if !GlobalUnicast(addr.n) {
      assert exists i :: 0 <= i < 14 && Contains(NonPublicIPv4[i], addr.n) by {
        assert NonPublicIPv4[3] == Range(0x7F00_0000, 0x7FFF_FFFF);
        assert NonPublicIPv4[12] == Range(0xE000_0000, 0xEFFF_FFFF);
        assert NonPublicIPv4[4] == Range(0xA9FE_0000, 0xA9FE_FFFF);
      }
      return false;
    }
    for i := 0 to |NonPublicIPv4|
      invariant forall j :: 0 <= j < i ==> !Contains(NonPublicIPv4[j], addr.n)
    {
      if Contains(NonPublicIPv4[i], addr.n) {
        return false;
      }
    }
    return true;
  }

  /** The address p.q.r.s. */
  function Quad(p: nat, q: nat, r: nat, s: nat): nat {
    ((p * 256 + q) * 256 + r) * 256 + s
  }

  /** What is not public, octet by octet: this network, private use, carrier NAT, loopback, link-local, protocol
      assignments, the documentation and benchmarking networks, multicast, and reserved or broadcast. */
  predicate Reserved(p: nat, q: nat, r: nat) {
    || p == 0 || p == 10 || p == 127 || p >= 224
    || (p == 100 && 64 <= q < 128) || (p == 169 && q == 254) || (p == 172 && 16 <= q < 32) || (p == 192 && q == 168)
    || (p == 192 && q == 0 && (r == 0 || r == 2)) || (p == 198 && (q == 18 || q == 19))
    || (p == 198 && q == 51 && r == 100) || (p == 203 && q == 0 && r == 113)
  }

  /** The octets that row `i` of the table covers. */
  predicate RowCovers(i: nat, p: nat, q: nat, r: nat) {
    match i
    case 0 => p == 0
    case 1 => p == 10
    case 2 => p == 100 && 64 <= q < 128
    case 3 => p == 127
    case 4 => p == 169 && q == 254
    case 5 => p == 172 && 16 <= q < 32
    case 6 => p == 192 && q == 0 && r == 0
    case 7 => p == 192 && q == 0 && r == 2
    case 8 => p == 192 && q == 168
    case 9 => p == 198 && (q == 18 || q == 19)
    case 10 => p == 198 && q == 51 && r == 100
    case 11 => p == 203 && q == 0 && r == 113
    case 12 => 224 <= p < 240
    case 13 => 240 <= p
    case _ => false
  }

  lemma QuadIs(p: nat, q: nat, r: nat, s: nat)
    requires p < 256 && q < 256 && r < 256 && s < 256
    ensures Quad(p, q, r, s) == 0x100_0000 * p + 0x1_0000 * q + 0x100 * r + s < TwoTo32
  {
  }

  lemma LowRows(n: nat, p: nat, q: nat, r: nat, s: nat, i: nat)
    requires p < 256 && q < 256 && r < 256 && s < 256 && n == 0x100_0000 * p + 0x1_0000 * q + 0x100 * r + s && i < 7
    ensures Contains(NonPublicIPv4[i], n) <==> RowCovers(i, p, q, r)
  {
  }

  lemma HighRows(n: nat, p: nat, q: nat, r: nat, s: nat, i: nat)
    requires p < 256 && q < 256 && r < 256 && s < 256 && n == 0x100_0000 * p + 0x1_0000 * q + 0x100 * r + s
    requires 7 <= i < 14
    ensures Contains(NonPublicIPv4[i], n) <==> RowCovers(i, p, q, r)
  {
  }

  lemma SomeRow(p: nat, q: nat, r: nat)
    requires p < 256
    ensures (exists i :: 0 <= i < 14 && RowCovers(i, p, q, r)) <==> Reserved(p, q, r)
  {
    assert RowCovers(0, p, q, r) || RowCovers(1, p, q, r) || RowCovers(2, p, q, r) || RowCovers(3, p, q, r)
      || RowCovers(4, p, q, r) || RowCovers(5, p, q, r) || RowCovers(6, p, q, r) || RowCovers(7, p, q, r)
      || RowCovers(8, p, q, r) || RowCovers(9, p, q, r) || RowCovers(10, p, q, r) || RowCovers(11, p, q, r)
      || RowCovers(12, p, q, r) || RowCovers(13, p, q, r) || !Reserved(p, q, r);
  }

  /** Which IPv4 addresses are public, in dotted form, also as IPv4-mapped IPv6. */
  lemma PublicByOctets(p: nat, q: nat, r: nat, s: nat)
    requires p < 256 && q < 256 && r < 256 && s < 256
    ensures Public(V4(Quad(p, q, r, s))) <==> !Reserved(p, q, r)
    ensures Public(V6(0xFFFF * 0x1_0000_0000 + Quad(p, q, r, s))) <==> !Reserved(p, q, r)
  {
    hide Quad, Reserved, RowCovers, Contains;
    QuadIs(p, q, r, s);
    var n := Quad(p, q, r, s);
    assert Unmap(V6(0xFFFF * 0x1_0000_0000 + n)) == V4(n);
    forall i | 0 <= i < 14
      ensures Contains(NonPublicIPv4[i], n) <==> RowCovers(i, p, q, r)
    {
      if i < 7 { LowRows(n, p, q, r, s, i); } else { HighRows(n, p, q, r, s, i); }
    }
    SomeRow(p, q, r);
    TableMembers(n);
  }

  lemma TableMembers(n: nat)
    ensures (exists r :: r in NonPublicIPv4 && Contains(r, n))
            <==> exists i :: 0 <= i < 14 && Contains(NonPublicIPv4[i], n)
  {
    hide Contains;
    if r :| r in NonPublicIPv4 && Contains(r, n) {
      var i :| 0 <= i < |NonPublicIPv4| && NonPublicIPv4[i] == r;
      assert Contains(NonPublicIPv4[i], n);
    }
  }

  /** Nothing else is: neither the zero address nor any other IPv6 address. */
  lemma OnlyIPv4IsPublic(a: Addr)
    requires a.NoAddr? || (a.V6? && a.n / 0x1_0000_0000 != 0xFFFF)
    ensures !Public(a)
  {
  }

  // ---------- validateMapping ----------

  datatype Problem = DerpMissing | NotPublic | DerpPortEmpty | DerpPortChanged
                   | StunMissing | AddressesDiffer | StunPortEmpty | StunPortChanged

  predicate Serves(l: Option<Lease>, r: PortRequest, ip: Addr) {
    l.Some? && l.value.ip == ip && l.value.externalPort != 0 && (r.strict ==> l.value.externalPort == r.externalPort)
  }

  /** Every requested port is mapped, on one public address, to the port asked for where that is strict. */
  predicate Usable(m: Option<Mapping>, r: Request) {
    && m.Some? && m.value.derp.Some?
    && var ip := m.value.derp.value.ip;
       Public(ip) && Serves(m.value.derp, r.derp, ip) && (r.stun.Some? ==> Serves(m.value.stun, r.stun.value, ip))
  }

  method ValidateMapping(m: Option<Mapping>, r: Request) returns (p: Option<Problem>)
    ensures p.None? <==> Usable(m, r)
  {
    if m.None? || m.value.derp.None? {
      return Some(DerpMissing);
    }
    var derp := m.value.derp.value;
    var public := IsPublicIPv4(derp.ip);
    if !public {
      return Some(NotPublic);
    }
    if derp.externalPort == 0 {
      return Some(DerpPortEmpty);
    }
    if r.derp.strict && derp.externalPort != r.derp.externalPort {
      return Some(DerpPortChanged);
    }
    if r.stun.None? {
      return None;
    }
    if m.value.stun.None? {
      return Some(StunMissing);
    }
    var stun := m.value.stun.value;
    if stun.ip != derp.ip {
      return Some(AddressesDiffer);
    }
    if stun.externalPort == 0 {
      return Some(StunPortEmpty);
    }
    if r.stun.value.strict && stun.externalPort != r.stun.value.externalPort {
      return Some(StunPortChanged);
    }
    return None;
  }

  // ---------- Client.Map ----------

  /** What the backend of one configured method answers. */
  datatype Answer = Unsupported | Refused | Mapped(m: Option<Mapping>)

  datatype MapError = NoMethods | AllFailed(errors: nat)

  predicate Accepted(a: Answer, r: Request) {
    a.Mapped? && Usable(a.m, r)
  }

  /** The answer holds leases that the client gives back. */
  predicate Rejected(a: Answer, r: Request) {
    a.Mapped? && a.m.Some? && !Usable(a.m, r)
  }

  /** The first accepted method wins and no later one is asked; every mapping rejected on the way was
      released, exactly once, and the one returned was not. */
  method MapPorts(answers: seq<Answer>, r: Request)
    returns (chosen: Result<nat, MapError>, asked: nat, released: seq<nat>)
    ensures asked <= |answers|
    ensures chosen.Ok? ==> chosen.value + 1 == asked && Accepted(answers[chosen.value], r)
    ensures forall i :: 0 <= i < asked && Accepted(answers[i], r) ==> chosen == Ok(i)
    ensures chosen.Err? ==> asked == |answers| && (chosen.error.NoMethods? <==> answers == [])
    ensures chosen.Err? && answers != [] ==> chosen.error == AllFailed(|answers|)
    ensures forall i :: i in released <==> 0 <= i < asked && Rejected(answers[i], r)
    ensures forall i, j :: 0 <= i < j < |released| ==> released[i] < released[j]
  {
    released := [];
    asked := 0;
    var errors := 0;
    while asked < |answers|
      invariant asked <= |answers| && errors == asked
      invariant forall i :: 0 <= i < asked ==> !Accepted(answers[i], r)
      invariant forall i :: i in released <==> 0 <= i < asked && Rejected(answers[i], r)
      invariant forall i :: 0 <= i < |released| ==> released[i] < asked
      invariant forall i, j :: 0 <= i < j < |released| ==> released[i] < released[j]
    {
      var a := answers[asked];
      asked := asked + 1;
      if a.Mapped? {
        var problem := ValidateMapping(a.m, r);
        if problem.None? {
          return Ok(asked - 1), asked, released;
        }
        if a.m.Some? {
          released := released + [asked - 1];
        }
      }
      errors := errors + 1;
    }
    chosen := Err(if errors == 0 then NoMethods else AllFailed(errors));
  }
}
