/**
 Packet forwarders of one key: the entry of `clientsMesh` and the `multiForwarder` behind it.
 */
module Forwarders {
  import opened Basics

  /** A registered forwarder; never itself a multiForwarder. */
  type Fwd = nat

  /** The uint8 connection numbers of a multiForwarder. */
  type Index = i: int | 0 <= i < 256

  datatype Multi = Multi(preferred: Fwd, all: map<Fwd, Index>)

  /** A `clientsMesh` value: nil (the key is only local), one forwarder, or a set of them. */
  datatype Entry = LocalOnly | One(f: Fwd) | Many(m: Multi)

  // ---------- multiForwarder ----------

  ghost predicate IsHighest(all: map<Fwd, Index>, v: int) {
    (forall f :: f in all ==> all[f] <= v) && (if all == map[] then v == 0 else exists f :: f in all && all[f] == v)
  }

  ghost predicate IsLowest(all: map<Fwd, Index>, f: Fwd) {
    f in all && forall g :: g in all ==> all[f] <= all[g]
  }

  /** `add`: one more than the highest number, in 8 bits. */
  ghost predicate Added(m: Multi, f: Fwd, m': Multi) {
    exists top: Index :: IsHighest(m.all, top) && m' == m.(all := m.all[f := (top + 1) % 256])
  }

  /** `deleteLocked`: if the preferred one goes, a forwarder with the lowest number takes over.
      Ties are broken by map iteration order, so they are left open. */
  ghost predicate Deleted(m: Multi, f: Fwd, m': Multi) {
    && m'.all == m.all - {f}
    && (f == m.preferred && m'.all != map[] ==> IsLowest(m'.all, m'.preferred))
    && (f != m.preferred || m'.all == map[] ==> m'.preferred == m.preferred)
  }

  class MultiForwarder {
    var fwd: Fwd
    var all: map<Fwd, Index>

    ghost function View(): Multi
      reads this
    {
      Multi(fwd, all)
    }

    /** The set made when a second forwarder joins the first. */
    constructor (first: Fwd, second: Fwd)
      requires first != second
      ensures View() == NewMulti(first, second)
    {
      fwd := first;
      all := map[first := 0, second := 1];
    }

    constructor Of(m: Multi)
      ensures View() == m
    {
      fwd, all := m.preferred, m.all;
    }

    method Add(f: Fwd)
      modifies this
      ensures Added(old(View()), f, View())
    {
      var top: Index := 0;
      var todo := all.Keys;
      while todo != {}
        invariant todo <= all.Keys
        invariant forall g :: g in all && g !in todo ==> all[g] <= top
        invariant (todo == all.Keys && top == 0) || exists g :: g in all && all[g] == top
        decreases |todo|
      {
        var g :| g in todo;
        if all[g] > top {
          top := all[g];
        }
        todo := todo - {g};
      }
      assert IsHighest(all, top);
      all := all[f := (top + 1) % 256];
    }

    method DeleteLocked(f: Fwd) returns (remain: Fwd, isLast: bool)
      modifies this
      ensures Deleted(old(View()), f, View())
      ensures isLast <==> |all| == 1
      ensures isLast ==> all.Keys == {remain}
    {
      all := all - {f};
      if f == fwd && all != map[] {
        var low :| low in all;
        var todo := all.Keys - {low};
        while todo != {}
          invariant todo <= all.Keys && low in all
          invariant forall g :: g in all && g !in todo ==> all[low] <= all[g]
          decreases |todo|
        {
          var g :| g in todo;
          if all[g] < all[low] {
            low := g;
          }
          todo := todo - {g};
        }
        fwd := low;
      }
      remain, isLast := f, |all| == 1;
      if isLast {
        assert |all.Keys| == 1;
        remain :| remain in all;
        SingletonElements(all.Keys, remain);
      }
    }
  }

  function NewMulti(first: Fwd, second: Fwd): Multi {
    Multi(first, map[first := 0, second := 1])
  }

  // ---------- one key's entry over time ----------

  /** What touches the entry of one key. `Arrive` and `Depart` are its first local connection
      registering and its last one leaving. */
  datatype Op = Add(f: Fwd) | Remove(f: Fwd, isLocal: bool) | Arrive | Depart

  /** AddPacketForwarder and RemovePacketForwarder on one entry; `None` is an absent entry.
      RemovePacketForwarder on a set of fewer than two would panic, so no step is possible there. */
  ghost predicate EntryStep(e: Option<Entry>, op: Op, e': Option<Entry>) {
    match op
    case Arrive => e' == (if e.None? then Some(LocalOnly) else e)
    case Depart => e' == (if e == Some(LocalOnly) then None else e)
    case Add(f) =>
      (match e
       case None => e' == Some(One(f))
       case Some(LocalOnly) => e' == Some(One(f))
       case Some(One(g)) => e' == (if f == g then e else Some(Many(NewMulti(g, f))))
       case Some(Many(m)) =>
         if f in m.all then e' == e else e'.Some? && e'.value.Many? && Added(m, f, e'.value.m))
    case Remove(f, isLocal) =>
      (match e
       case None => e' == None
       case Some(LocalOnly) => e' == e
       case Some(One(g)) => e' == (if f != g then e else if isLocal then Some(LocalOnly) else None)
       case Some(Many(m)) =>
         && |m.all| >= 2
         && exists m' :: Deleted(m, f, m') &&
              e'.Some? &&
              (if |m'.all| == 1 then e'.value.One? && m'.all.Keys == {e'.value.f} else e'.value == Many(m')))
  }

  // ---------- the simple form: a list ordered by registration age ----------

  function ListStep(l: seq<Fwd>, op: Op): seq<Fwd> {
    match op
    case Add(f) => if f in l then l else l + [f]
    case Remove(f, _) => Without(l, f)
    case Arrive => l
    case Depart => l
  }

  function Without(l: seq<Fwd>, f: Fwd): seq<Fwd> {
    if l == [] then [] else if l[0] == f then Without(l[1..], f) else [l[0]] + Without(l[1..], f)
  }

  /** Numbers increase with registration age; in particular no forwarder is listed twice. */
  ghost predicate AgeOrdered(l: seq<Fwd>, all: map<Fwd, Index>) {
    forall i, j :: 0 <= i < j < |l| ==> Older(all, l[i], l[j])
  }

  predicate Older(all: map<Fwd, Index>, f: Fwd, g: Fwd) {
    f in all && g in all && all[f] < all[g]
  }

  ghost predicate Refines(e: Option<Entry>, l: seq<Fwd>) {
    match e
    case None => l == []
    case Some(LocalOnly) => l == []
    case Some(One(f)) => l == [f]
    case Some(Many(m)) => |l| >= 2 && m.preferred == l[0] && Elements(l) == m.all.Keys && AgeOrdered(l, m.all)
  }

  /** The numbers of this entry have run out: the next new forwarder would wrap to 0. */
  ghost predicate Exhausted(e: Option<Entry>, f: Fwd) {
    e.Some? && e.value.Many? && f !in e.value.m.all && IsHighest(e.value.m.all, 255)
  }

  // ---------- proof ----------

  lemma HighestUnique(all: map<Fwd, Index>, v: int, w: int)
    requires IsHighest(all, v) && IsHighest(all, w)
    ensures v == w
  {
  }

  lemma AppendOrdered(l: seq<Fwd>, f: Fwd, all: map<Fwd, Index>, v: Index)
    requires |l| >= 1 && Elements(l) == all.Keys && AgeOrdered(l, all) && f !in all
    ensures AgeOrdered(l + [f], all[f := v]) <==> forall x :: x in all ==> all[x] < v
  {
    var l', all' := l + [f], all[f := v];
    assert forall i :: 0 <= i < |l| ==> l[i] in Elements(l);
    if forall x :: x in all ==> all[x] < v {
      forall i, j | 0 <= i < j < |l'|
        ensures l'[i] in all' && l'[j] in all' && all'[l'[i]] < all'[l'[j]]
      {
        assert l'[i] == l[i];
        if j < |l| { assert l'[j] == l[j]; }
      }
    } else {
      var x :| x in all && !(all[x] < v);
      assert x in Elements(l);
      var i :| 0 <= i < |l| && l[i] == x;
      assert l'[i] == x && l'[|l|] == f;
    }
  }

  lemma AddToMany(m: Multi, l: seq<Fwd>, f: Fwd, m': Multi)
    requires Refines(Some(Many(m)), l) && f !in m.all && Added(m, f, m')
    ensures Refines(Some(Many(m')), l + [f]) <==> !IsHighest(m.all, 255)
  {
    hide AgeOrdered;
    var top: Index :| IsHighest(m.all, top) && m' == m.(all := m.all[f := (top + 1) % 256]);
    AppendOrdered(l, f, m.all, (top + 1) % 256);
    assert Elements(l + [f]) == Elements(l) + {f};
    assert l[0] in Elements(l);
    TopDecides(m.all, top);
  }

  /** The next number is above all others exactly if the highest one is not 255. */
  lemma TopDecides(all: map<Fwd, Index>, top: Index)
    requires all != map[] && IsHighest(all, top)
    ensures (forall x :: x in all ==> all[x] < (top + 1) % 256) <==> !IsHighest(all, 255)
  {
    if IsHighest(all, 255) {
      HighestUnique(all, top, 255);
    } else {
      assert top != 255;
    }
  }

  /** Adding keeps the entry a faithful image of the age-ordered list exactly while numbers remain. */
  lemma AddRefinesIff(e: Option<Entry>, l: seq<Fwd>, f: Fwd, e': Option<Entry>)
    requires Refines(e, l) && EntryStep(e, Add(f), e')
    ensures Refines(e', ListStep(l, Add(f))) <==> !Exhausted(e, f)
  {
    if e.Some? && e.value.Many? {
      assert f in l <==> f in Elements(l);
      if f !in e.value.m.all {
        AddToMany(e.value.m, l, f, e'.value.m);
      }
    } else if e.Some? && e.value.One? && e.value.f != f {
      assert l + [f] == [e.value.f, f];
      assert Elements([e.value.f, f]) == {e.value.f, f};
    }
  }

  lemma {:induction false} WithoutAbsent(l: seq<Fwd>, f: Fwd)
    requires f !in l
    ensures Without(l, f) == l
  {
    if l != [] {
      WithoutAbsent(l[1..], f);
    }
  }

  lemma {:induction false} WithoutElements(l: seq<Fwd>, f: Fwd)
    ensures forall x :: x in Without(l, f) <==> x in l && x != f
  {
    if l != [] {
      WithoutElements(l[1..], f);
      assert l == [l[0]] + l[1..];
    }
  }

  lemma TailOrdered(l: seq<Fwd>, all: map<Fwd, Index>)
    requires l != [] && AgeOrdered(l, all)
    ensures AgeOrdered(l[1..], all) && l[0] !in l[1..]
    ensures forall x :: x in l[1..] ==> Older(all, l[0], x)
  {
    var t := l[1..];
    forall i | 0 <= i < |t|
      ensures Older(all, l[0], t[i])
    {
      assert t[i] == l[i + 1];
    }
    forall i, j | 0 <= i < j < |t|
      ensures Older(all, t[i], t[j])
    {
      assert t[i] == l[i + 1] && t[j] == l[j + 1];
    }
  }

  lemma ConsOrdered(f: Fwd, l: seq<Fwd>, all: map<Fwd, Index>)
    requires AgeOrdered(l, all) && forall x :: x in l ==> Older(all, f, x)
    ensures AgeOrdered([f] + l, all)
  {
    var r := [f] + l;
    forall i: int, j: int | 0 <= i < j < |r|
      ensures Older(all, r[i], r[j])
    {
      assert r[j] == l[j - 1] && l[j - 1] in l;
      if i > 0 { assert r[i] == l[i - 1] && l[i - 1] in l; }
    }
  }

  lemma {:induction false} WithoutOrdered(l: seq<Fwd>, f: Fwd, all: map<Fwd, Index>)
    requires AgeOrdered(l, all)
    ensures AgeOrdered(Without(l, f), all)
  {
    if l != [] {
      TailOrdered(l, all);
      hide AgeOrdered;
      WithoutOrdered(l[1..], f, all);
      WithoutElements(l[1..], f);
      if l[0] != f { ConsOrdered(l[0], Without(l[1..], f), all); }
    }
  }

  /** Once the head leaves, the next oldest is the head. */
  lemma WithoutHead(l: seq<Fwd>, f: Fwd, all: map<Fwd, Index>)
    requires |l| >= 2 && AgeOrdered(l, all)
    ensures |Without(l, f)| >= 1 && Without(l, f)[0] == if l[0] == f then l[1] else l[0]
  {
    if l[0] == f {
      assert f !in l[1..];
      WithoutAbsent(l[1..], f);
    }
  }

  lemma ElementsCons(l: seq<Fwd>)
    requires l != []
    ensures Elements(l) == {l[0]} + Elements(l[1..])
    ensures l[0] in Elements(l[1..]) <==> l[0] in l[1..]
  {
    assert l == [l[0]] + l[1..];
  }

  lemma {:induction false} OrderedSize(l: seq<Fwd>, all: map<Fwd, Index>)
    requires AgeOrdered(l, all)
    ensures |Elements(l)| == |l|
  {
    if l != [] {
      TailOrdered(l, all);
      hide AgeOrdered, Elements;
      OrderedSize(l[1..], all);
      ElementsCons(l);
    }
  }

  lemma HeadIsLowest(l: seq<Fwd>, all: map<Fwd, Index>, f: Fwd)
    requires |l| >= 1 && AgeOrdered(l, all) && Elements(l) == all.Keys && IsLowest(all, f)
    ensures f == l[0]
  {
    assert f in Elements(l);
    assert l[0] in Elements(l);
  }

  lemma SubmapOrdered(l: seq<Fwd>, all: map<Fwd, Index>, some: map<Fwd, Index>)
    requires AgeOrdered(l, all) && Elements(l) <= some.Keys && forall x :: x in some ==> x in all && some[x] == all[x]
    ensures AgeOrdered(l, some)
  {
    assert forall i :: 0 <= i < |l| ==> l[i] in Elements(l);
  }

  lemma RemoveFromMany(m: Multi, l: seq<Fwd>, f: Fwd, m': Multi)
    requires Refines(Some(Many(m)), l) && Deleted(m, f, m')
    ensures var l' := Without(l, f);
            && |l'| == |m'.all| && Elements(l') == m'.all.Keys && AgeOrdered(l', m'.all)
            && |l'| >= 1 && m'.preferred == l'[0]
  {
    var l' := Without(l, f);
    WithoutOrdered(l, f, m.all);
    WithoutHead(l, f, m.all);
    WithoutElements(l, f);
    hide Without;
    assert Elements(l') == m.all.Keys - {f};
    SubmapOrdered(l', m.all, m'.all);
    hide AgeOrdered;
    OrderedSize(l', m'.all);
    assert l'[0] in Elements(l');
    if f == m.preferred {
      HeadIsLowest(l', m'.all, m'.preferred);
    }
  }

  /** Removing deletes from the list; the panic is out of reach; the next oldest takes over. */
  lemma RemoveRefines(e: Option<Entry>, l: seq<Fwd>, f: Fwd, isLocal: bool, e': Option<Entry>)
    requires Refines(e, l) && EntryStep(e, Remove(f, isLocal), e')
    ensures Refines(e', ListStep(l, Remove(f, isLocal)))
  {
    if e.Some? && e.value.Many? {
      var m := e.value.m;
      var m' :| Deleted(m, f, m') &&
        e'.Some? && (if |m'.all| == 1 then e'.value.One? && m'.all.Keys == {e'.value.f} else e'.value == Many(m'));
      RemoveFromMany(m, l, f, m');
      var l' := Without(l, f);
      if |m'.all| == 1 {
        assert l'[0] in Elements(l');
        assert l' == [l'[0]];
      }
    } else if e.Some? && e.value.One? {
      assert Without([e.value.f], f) == if e.value.f == f then [] else [e.value.f];
    }
  }

  /** A step is always possible: in particular a set never shrinks below two forwarders, so
      the panic in RemovePacketForwarder is unreachable. */
  lemma RemoveNeverPanics(e: Option<Entry>, l: seq<Fwd>)
    requires Refines(e, l) && e.Some? && e.value.Many?
    ensures |e.value.m.all| >= 2
  {
    OrderedSize(l, e.value.m.all);
  }

  // ---------- whole runs ----------

  ghost predicate IsRun(es: seq<Option<Entry>>, ops: seq<Op>) {
    |es| == |ops| + 1 && es[0] == None && forall n :: 0 <= n < |ops| ==> EntryStep(es[n], ops[n], es[n + 1])
  }

  /** How many new forwarders the current multiForwarder has taken since it was made. */
  ghost function AddsToSet(es: seq<Option<Entry>>, ops: seq<Op>, n: nat): nat
    requires n < |es| && |es| == |ops| + 1
  {
    if n == 0 || es[n].None? || !es[n].value.Many? || es[n - 1].None? || !es[n - 1].value.Many? then 0
    else AddsToSet(es, ops, n - 1) + (if ops[n - 1].Add? && ops[n - 1].f !in es[n - 1].value.m.all then 1 else 0)
  }

  function ListAfter(ops: seq<Op>): seq<Fwd> {
    if ops == [] then [] else ListStep(ListAfter(ops[..|ops| - 1]), ops[|ops| - 1])
  }

  ghost predicate NumbersBelow(e: Option<Entry>, bound: int) {
    e.Some? && e.value.Many? ==> forall f :: f in e.value.m.all ==> e.value.m.all[f] <= bound
  }

  lemma NumbersGrow(e: Option<Entry>, op: Op, e': Option<Entry>, bound: nat)
    requires EntryStep(e, op, e') && NumbersBelow(e, bound + 1)
    requires e.Some? && e.value.Many? ==> |e.value.m.all| >= 2
    ensures NumbersBelow(e', if e.None? || !e.value.Many? then 1
                             else bound + 1 + (if op.Add? && op.f !in e.value.m.all then 1 else 0))
  {
    if e'.Some? && e'.value.Many? && e.Some? && e.value.Many? && op.Add? && op.f !in e.value.m.all {
      var top: Index :| IsHighest(e.value.m.all, top)
          && e'.value.m == e.value.m.(all := e.value.m.all[op.f := (top + 1) % 256]);
      assert top <= bound + 1;
    }
  }

  /** Refinement over every run in which no multiForwarder takes more than 254 new forwarders. */
  lemma {:induction false} RunRefinesList(es: seq<Option<Entry>>, ops: seq<Op>)
    requires IsRun(es, ops)
    requires forall n :: 0 <= n <= |ops| ==> AddsToSet(es, ops, n) <= 254
    ensures Refines(es[|ops|], ListAfter(ops))
    ensures NumbersBelow(es[|ops|], AddsToSet(es, ops, |ops|) + 1)
  {
    if ops != [] {
      var n := |ops| - 1;
      var es0, ops0 := es[..n + 1], ops[..n];
      PrefixAdds(es, ops, n);
      assert IsRun(es0, ops0);
      forall i | 0 <= i <= n ensures AddsToSet(es0, ops0, i) <= 254 {
        assert AddsToSet(es0, ops0, i) == AddsToSet(es, ops, i);
      }
      RunRefinesList(es0, ops0);
      var e, op, e', l := es[n], ops[n], es[n + 1], ListAfter(ops0);
      if e.Some? && e.value.Many? { RemoveNeverPanics(e, l); }
      NumbersGrow(e, op, e', AddsToSet(es, ops, n));
      match op
      case Add(f) =>
        if e.Some? && e.value.Many? && f !in e.value.m.all {
          AddedIsMany(e, f, e');
          assert AddsToSet(es, ops, n + 1) == AddsToSet(es, ops, n) + 1;
        }
        assert !Exhausted(e, f);
        AddRefinesIff(e, l, f, e');
      case Remove(f, isLocal) => RemoveRefines(e, l, f, isLocal, e');
      case _ =>
    }
  }

  lemma AddedIsMany(e: Option<Entry>, f: Fwd, e': Option<Entry>)
    requires EntryStep(e, Add(f), e') && e.Some? && e.value.Many?
    ensures e'.Some? && e'.value.Many?
  {
  }

  lemma {:induction false} PrefixAdds(es: seq<Option<Entry>>, ops: seq<Op>, n: nat)
    requires |es| == |ops| + 1 && n <= |ops|
    ensures forall i :: 0 <= i <= n ==> AddsToSet(es[..n + 1], ops[..n], i) == AddsToSet(es, ops, i)
  {
    var i := 0;
    while i < n
      invariant 0 <= i <= n
      invariant forall j :: 0 <= j <= i ==> AddsToSet(es[..n + 1], ops[..n], j) == AddsToSet(es, ops, j)
    {
      i := i + 1;
    }
  }

  // ---------- beyond 254 additions the preference goes wrong ----------

  /** Forwarders 1 and 2 take turns while forwarder 0 stays: after `k` turns the partner of 0
      carries number k + 1. */
  function Partner(k: nat): Fwd {
    if k % 2 == 0 then 1 else 2
  }

  function ChurnOps(k: nat): seq<Op> {
    if k == 0 then [Add(0), Add(1)] else ChurnOps(k - 1) + [Add(Partner(k)), Remove(Partner(k - 1), false)]
  }

  function ChurnEntry(k: nat): Entry
    requires k < 255
  {
    Many(Multi(0, map[0 := 0, Partner(k) := k + 1]))
  }

  function ChurnRun(k: nat): seq<Option<Entry>>
    requires k < 255
  {
    if k == 0 then [None, Some(One(0)), Some(ChurnEntry(0))]
    else
      var both := Multi(0, map[0 := 0, Partner(k - 1) := k, Partner(k) := k + 1]);
      ChurnRun(k - 1) + [Some(Many(both)), Some(ChurnEntry(k))]
  }

  lemma RunSnoc(es: seq<Option<Entry>>, ops: seq<Op>, op: Op, e': Option<Entry>)
    requires IsRun(es, ops) && EntryStep(es[|ops|], op, e')
    ensures IsRun(es + [e'], ops + [op])
    ensures ListAfter(ops + [op]) == ListStep(ListAfter(ops), op)
  {
    hide EntryStep;
    var es', ops' := es + [e'], ops + [op];
    forall n | 0 <= n < |ops'|
      ensures EntryStep(es'[n], ops'[n], es'[n + 1])
    {
      assert n < |ops| ==> es'[n] == es[n] && ops'[n] == ops[n] && es'[n + 1] == es[n + 1];
    }
    assert ops'[..|ops|] == ops;
  }

  lemma WithoutPair(a: Fwd, b: Fwd, c: Fwd)
    requires a != b && a != c && b != c
    ensures Without([a, b, c], b) == [a, c] && Without([a, b, c], a) == [b, c]
  {
    assert [a, b, c][1..] == [b, c] && [b, c][1..] == [c] && [c][1..] == [];
    assert Without([c], b) == [c] + Without([], b) == [c] && Without([c], a) == [c] + Without([], a) == [c];
    assert Without([b, c], b) == Without([c], b);
    assert Without([b, c], a) == [b] + Without([c], a);
  }

  lemma ChurnStarts()
    ensures IsRun([None, Some(One(0)), Some(ChurnEntry(0))], [Add(0), Add(1)])
    ensures ListAfter([Add(0), Add(1)]) == [0, 1]
  {
    RunSnoc([None], [], Add(0), Some(One(0)));
    assert [None] + [Some(One(0))] == [None, Some(One(0))] && [] + [Add(0)] == [Add(0)];
    assert NewMulti(0, 1) == ChurnEntry(0).m;
    RunSnoc([None, Some(One(0))], [Add(0)], Add(1), Some(ChurnEntry(0)));
    assert [Add(0)] + [Add(1)] == [Add(0), Add(1)];
    assert [None, Some(One(0))] + [Some(ChurnEntry(0))] == [None, Some(One(0)), Some(ChurnEntry(0))];
  }

  lemma {:induction false} ChurnIsRun(k: nat)
    requires k < 255
    ensures |ChurnOps(k)| == 2 * k + 2 && IsRun(ChurnRun(k), ChurnOps(k))
    ensures ChurnRun(k)[2 * k + 2] == Some(ChurnEntry(k)) && ListAfter(ChurnOps(k)) == [0, Partner(k)]
  {
    hide EntryStep, ListAfter;
    if k == 0 {
      ChurnStarts();
    } else {
      ChurnIsRun(k - 1);
      ChurnTurn(k);
      ChurnExtends(ChurnRun(k - 1), ChurnOps(k - 1), k);
      var mid := Some(Many(Multi(0, map[0 := 0, Partner(k - 1) := k, Partner(k) := k + 1])));
      assert ChurnRun(k) == ChurnRun(k - 1) + [mid, Some(ChurnEntry(k))];
      assert ChurnOps(k) == ChurnOps(k - 1) + [Add(Partner(k)), Remove(Partner(k - 1), false)];
    }
  }

  lemma ChurnExtends(es: seq<Option<Entry>>, ops: seq<Op>, k: nat)
    requires 0 < k < 255 && |ops| == 2 * k && IsRun(es, ops)
    requires es[2 * k] == Some(ChurnEntry(k - 1)) && ListAfter(ops) == [0, Partner(k - 1)]
    ensures var mid := Some(Many(Multi(0, map[0 := 0, Partner(k - 1) := k, Partner(k) := k + 1])));
            var ops' := ops + [Add(Partner(k)), Remove(Partner(k - 1), false)];
            IsRun(es + [mid, Some(ChurnEntry(k))], ops') && ListAfter(ops') == [0, Partner(k)]
  {
    var a, b := Add(Partner(k)), Remove(Partner(k - 1), false);
    var mid := Some(Many(Multi(0, map[0 := 0, Partner(k - 1) := k, Partner(k) := k + 1])));
    ChurnTurn(k);
    hide EntryStep, ListAfter;
    RunSnoc(es, ops, a, mid);
    RunSnoc(es + [mid], ops + [a], b, Some(ChurnEntry(k)));
    assert ops + [a, b] == ops + [a] + [b];
    assert es + [mid, Some(ChurnEntry(k))] == es + [mid] + [Some(ChurnEntry(k))];
    assert [0, Partner(k - 1)] + [Partner(k)] == [0, Partner(k - 1), Partner(k)];
    WithoutPair(0, Partner(k - 1), Partner(k));
  }

  lemma ChurnTurn(k: nat)
    requires 0 < k < 255
    ensures var mid := Some(Many(Multi(0, map[0 := 0, Partner(k - 1) := k, Partner(k) := k + 1])));
            && EntryStep(Some(ChurnEntry(k - 1)), Add(Partner(k)), mid)
            && EntryStep(mid, Remove(Partner(k - 1), false), Some(ChurnEntry(k)))
  {
    var all0 := ChurnEntry(k - 1).m.all;
    var mid := Multi(0, map[0 := 0, Partner(k - 1) := k, Partner(k) := k + 1]);
    assert all0[Partner(k - 1)] == k;
    assert IsHighest(all0, k);
    var top: Index := k;
    assert mid == ChurnEntry(k - 1).m.(all := all0[Partner(k) := (top + 1) % 256]);
    assert mid.all - {Partner(k - 1)} == ChurnEntry(k).m.all;
    assert ChurnEntry(k).m.all.Keys == {0, Partner(k)};
    assert {0, Partner(k - 1)} <= mid.all.Keys;
    SubsetSize({0, Partner(k - 1)}, mid.all.Keys);
    assert |ChurnEntry(k).m.all.Keys| == 2;
    assert Deleted(mid, Partner(k - 1), ChurnEntry(k).m);
  }

  lemma WrapAfter(turns: nat) returns (es: seq<Option<Entry>>, ops: seq<Op>)
    requires turns == 254
    ensures IsRun(es, ops)
    ensures ListAfter(ops) == [Partner(turns), Partner(turns + 1)]
    ensures es[|ops|].Some? && es[|ops|].value.Many? && es[|ops|].value.m.preferred == Partner(turns + 1)
    ensures !Refines(es[|ops|], ListAfter(ops))
  {
    hide EntryStep, ListAfter, ChurnOps, ChurnRun, Refines;
    var a, b := Partner(turns), Partner(turns + 1);
    var full, after := Multi(0, map[0 := 0, a := 255, b := 0]), Multi(b, map[a := 255, b := 0]);
    ChurnIsRun(turns);
    es, ops := ChurnRun(turns), ChurnOps(turns);
    WrapAdds(a, b, full);
    RunSnoc(es, ops, Add(b), Some(Many(full)));
    es, ops := es + [Some(Many(full))], ops + [Add(b)];
    WrapRemoves(a, b, full, after);
    WrapEnds(es, ops, a, b, full, after);
    es, ops := es + [Some(Many(after))], ops + [Remove(0, false)];
  }

  /** A reachable failure: after 254 turns the 255th new forwarder of one multiForwarder wraps to number 0
      and, once the preferred one leaves, is preferred over an older registration. */
  lemma WrapPrefersNewest() returns (es: seq<Option<Entry>>, ops: seq<Op>, older: Fwd, newer: Fwd)
    ensures IsRun(es, ops) && ListAfter(ops) == [older, newer] && older != newer
    ensures es[|ops|].Some? && es[|ops|].value.Many? && es[|ops|].value.m.preferred == newer
    ensures !Refines(es[|ops|], ListAfter(ops))
  {
    hide IsRun, ListAfter, Refines;
    var turns: nat := 254;
    es, ops := WrapAfter(turns);
    older, newer := Partner(turns), Partner(turns + 1);
  }

  lemma WrapEnds(es: seq<Option<Entry>>, ops: seq<Op>, a: Fwd, b: Fwd, full: Multi, after: Multi)
    requires 0 != a && 0 != b && a != b
    requires IsRun(es, ops) && es[|ops|] == Some(Many(full)) && ListAfter(ops) == [0, a] + [b]
    requires EntryStep(Some(Many(full)), Remove(0, false), Some(Many(after))) && after.preferred == b
    ensures IsRun(es + [Some(Many(after))], ops + [Remove(0, false)])
    ensures ListAfter(ops + [Remove(0, false)]) == [a, b]
    ensures (es + [Some(Many(after))])[|ops| + 1] == Some(Many(after)) && !Refines(Some(Many(after)), [a, b])
  {
    hide EntryStep;
    RunSnoc(es, ops, Remove(0, false), Some(Many(after)));
    assert [0, a] + [b] == [0, a, b];
    WithoutPair(0, a, b);
  }

  lemma WrapAdds(a: Fwd, b: Fwd, full: Multi)
    requires 0 != a && 0 != b && a != b && full == Multi(0, map[0 := 0, a := 255, b := 0])
    ensures EntryStep(Some(Many(Multi(0, map[0 := 0, a := 255]))), Add(b), Some(Many(full)))
  {
    var all0: map<Fwd, Index> := map[0 := 0, a := 255];
    assert all0[a] == 255;
    assert IsHighest(all0, 255);
    var top: Index := 255;
    assert full == Multi(0, all0).(all := all0[b := (top + 1) % 256]);
    assert Added(Multi(0, all0), b, full);
  }

  lemma WrapRemoves(a: Fwd, b: Fwd, full: Multi, after: Multi)
    requires 0 != a && 0 != b && a != b && full == Multi(0, map[0 := 0, a := 255, b := 0])
    requires after == Multi(b, map[a := 255, b := 0])
    ensures EntryStep(Some(Many(full)), Remove(0, false), Some(Many(after)))
  {
    assert full.all - {0} == after.all;
    assert after.all.Keys == {a, b} && |{a, b}| == 2;
    assert {0, a} <= full.all.Keys;
    SubsetSize({0, a}, full.all.Keys);
    assert Deleted(full, 0, after);
  }

  // ---------- who is registered, whatever the numbers are ----------

  ghost function MembersOf(e: Option<Entry>): set<Fwd> {
    match e
    case None => {}
    case Some(LocalOnly) => {}
    case Some(One(f)) => {f}
    case Some(Many(m)) => m.all.Keys
  }

  /** The entry has exactly the forwarders of the list, in no order. */
  ghost predicate Registered(e: Option<Entry>, l: seq<Fwd>) {
    Elements(l) == MembersOf(e) && (e.Some? && e.value.Many? ==> |e.value.m.all| >= 2)
  }

  lemma AddRegisters(m: Multi, f: Fwd, m': Multi)
    requires Added(m, f, m') && f !in m.all
    ensures m'.all.Keys == m.all.Keys + {f} && |m'.all| == |m.all| + 1
  {
    assert |m'.all| == |m'.all.Keys| && |m.all| == |m.all.Keys|;
  }

  lemma DeleteRegisters(m: Multi, f: Fwd, m': Multi)
    requires Deleted(m, f, m')
    ensures m'.all.Keys == m.all.Keys - {f} && |m'.all| >= |m.all| - 1
  {
    assert |m'.all| == |m'.all.Keys| && |m.all| == |m.all.Keys|;
  }

  lemma ListElements(l: seq<Fwd>, op: Op)
    ensures Elements(ListStep(l, op)) == MembersAfter(Elements(l), op)
  {
    if op.Remove? { WithoutElements(l, op.f); }
  }

  /** What an operation makes of the members of an entry. */
  ghost function MembersAfter(members: set<Fwd>, op: Op): set<Fwd> {
    match op
    case Add(f) => members + {f}
    case Remove(f, _) => members - {f}
    case _ => members
  }

  lemma ManyMembers(m: Multi, op: Op, e': Option<Entry>)
    requires |m.all| >= 2 && EntryStep(Some(Many(m)), op, e')
    ensures MembersOf(e') == MembersAfter(m.all.Keys, op) && (e'.Some? && e'.value.Many? ==> |e'.value.m.all| >= 2)
  {
    hide Added, Deleted;
    if op.Add? && op.f !in m.all {
      AddRegisters(m, op.f, e'.value.m);
    } else if op.Remove? {
      var m' :| Deleted(m, op.f, m') && e'.Some? &&
        (if |m'.all| == 1 then e'.value.One? && m'.all.Keys == {e'.value.f} else e'.value == Many(m'));
      DeleteRegisters(m, op.f, m');
    }
  }

  lemma FewMembers(e: Option<Entry>, op: Op, e': Option<Entry>)
    requires (e.None? || !e.value.Many?) && EntryStep(e, op, e')
    ensures MembersOf(e') == MembersAfter(MembersOf(e), op) && (e'.Some? && e'.value.Many? ==> |e'.value.m.all| >= 2)
  {
    if op.Add? && e.Some? && e.value.One? && e.value.f != op.f {
      var all := NewMulti(e.value.f, op.f).all;
      assert all.Keys == {e.value.f, op.f} && |{e.value.f, op.f}| == 2 && |all| == |all.Keys|;
    }
  }

  lemma RegisteredStep(e: Option<Entry>, l: seq<Fwd>, op: Op, e': Option<Entry>)
    requires Registered(e, l) && EntryStep(e, op, e')
    ensures Registered(e', ListStep(l, op))
  {
    ListElements(l, op);
    hide ListStep, Elements, EntryStep;
    if e.Some? && e.value.Many? {
      ManyMembers(e.value.m, op, e');
    } else {
      FewMembers(e, op, e');
    }
  }

  lemma RunFront(es: seq<Option<Entry>>, ops: seq<Op>, n: nat)
    requires IsRun(es, ops) && |ops| == n + 1
    ensures IsRun(es[..n + 1], ops[..n]) && |es| == n + 2 && es[..n + 1][n] == es[n]
      && EntryStep(es[n], ops[n], es[n + 1])
  {
    hide EntryStep;
  }

  /** Over every run, with no bound on the numbers. */
  lemma {:induction false} RunRegistered(es: seq<Option<Entry>>, ops: seq<Op>)
    requires IsRun(es, ops)
    ensures |es| == |ops| + 1 && Registered(es[|ops|], ListAfter(ops))
  {
    hide EntryStep;
    if ops == [] {
      assert es[0] == None;
    } else {
      hide IsRun, Registered, ListStep;
      var n := |ops| - 1;
      RunFront(es, ops, n);
      RunRegistered(es[..n + 1], ops[..n]);
      RegisteredStep(es[n], ListAfter(ops[..n]), ops[n], es[n + 1]);
    }
  }
}
