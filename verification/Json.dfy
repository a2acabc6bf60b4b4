/**
 Policy documents as trees, and edits of object members by name. Names match as in strings.EqualFold, and
 only the first matching member counts. A literal carries its value and its spelling, since writing a
 value back replaces the spelling too.
 */
module Json {
  import opened Basics

  datatype Json =
    | Obj(members: seq<Member>)
    | Arr(elements: seq<Json>)
    | Str(text: string, spelling: nat)
    | Num(n: int, spelling: nat)
    | Bool(b: bool)
    | Null

  datatype Member = Member(name: string, spelling: nat, value: Json)

  /** The spelling the program writes. */
  const Plain: nat := 0

  // ---------- names ----------

  /** Simple case folding, as far as it can reach an ASCII character. */
  function Fold(c: char): char {
    if 'A' <= c <= 'Z' then c - 'A' + 'a'
    else if c == '\U{017F}' then 's'
    else if c == '\U{212A}' then 'k'
    else c
  }

  function FoldName(s: string): string {
    seq(|s|, i requires 0 <= i < |s| => Fold(s[i]))
  }

  predicate Same(a: string, b: string) {
    FoldName(a) == FoldName(b)
  }

  // ---------- members ----------

  /** The first member of that name. */
  function Find(ms: seq<Member>, name: string): (r: Option<nat>)
    ensures r.Some? ==> r.value < |ms| && Same(ms[r.value].name, name)
    ensures forall i :: 0 <= i < (if r.Some? then r.value else |ms|) ==> !Same(ms[i].name, name)
  {
    if ms == [] then None
    else if Same(ms[0].name, name) then Some(0)
    else
      var rest := Find(ms[1..], name);
      if rest.Some? then Some(rest.value + 1) else None
  }

  /** The lookup loop of the program finds that member. */
  method ObjectMember(ms: seq<Member>, name: string) returns (r: Option<nat>)
    ensures r == Find(ms, name)
  {
    for i := 0 to |ms|
      invariant forall j :: 0 <= j < i ==> !Same(ms[j].name, name)
    {
      if Same(ms[i].name, name) {
        FirstIsFound(ms, name, i);
        return Some(i);
      }
    }
    return None;
  }

  lemma FirstIsFound(ms: seq<Member>, name: string, i: nat)
    requires i < |ms| && Same(ms[i].name, name) && forall j :: 0 <= j < i ==> !Same(ms[j].name, name)
    ensures Find(ms, name) == Some(i)
  {
    hide Same;
    var r := Find(ms, name);
    assert r.Some? && r.value <= i;
  }

  function Get(ms: seq<Member>, name: string): Option<Json> {
    if Find(ms, name).Some? then Some(ms[Find(ms, name).value].value) else None
  }

  function Times(ms: seq<Member>, name: string): nat {
    if ms == [] then 0 else Times(ms[..|ms| - 1], name) + if Same(ms[|ms| - 1].name, name) then 1 else 0
  }

  datatype Edit = Put(name: string, v: Json) | Drop(name: string)

  function Do(ms: seq<Member>, e: Edit): seq<Member> {
    match (Find(ms, e.name), e)
    case (Some(i), Put(_, v)) => ms[i := ms[i].(value := v)]
    case (None, Put(name, v)) => ms + [Member(name, Plain, v)]
    case (Some(i), Drop(_)) => ms[..i] + ms[i + 1..]
    case (None, Drop(_)) => ms
  }

  function Apply(ms: seq<Member>, edits: seq<Edit>): seq<Member> {
    if edits == [] then ms else Do(Apply(ms, edits[..|edits| - 1]), edits[|edits| - 1])
  }

  /** The members whose folded names are not in `names`, in order. */
  function Others(ms: seq<Member>, names: set<string>): seq<Member> {
    if ms == [] then []
    else
      var rest := Others(ms[..|ms| - 1], names);
      if FoldName(ms[|ms| - 1].name) in names then rest else rest + [ms[|ms| - 1]]
  }

  // ---------- what one edit does ----------

  lemma {:induction false} OthersConcat(a: seq<Member>, b: seq<Member>, names: set<string>)
    ensures Others(a + b, names) == Others(a, names) + Others(b, names)
  {
    if b == [] {
      assert a + b == a;
    } else {
      var n := |b| - 1;
      assert (a + b)[..|a + b| - 1] == a + b[..n];
      OthersConcat(a, b[..n], names);
    }
  }

  lemma {:induction false} TimesConcat(a: seq<Member>, b: seq<Member>, name: string)
    ensures Times(a + b, name) == Times(a, name) + Times(b, name)
  {
    if b == [] {
      assert a + b == a;
    } else {
      var n := |b| - 1;
      assert (a + b)[..|a + b| - 1] == a + b[..n];
      TimesConcat(a, b[..n], name);
    }
  }

  lemma SplitAt(ms: seq<Member>, i: nat)
    requires i < |ms|
    ensures ms == ms[..i] + [ms[i]] + ms[i + 1..]
    ensures forall m :: ms[i := m] == ms[..i] + [m] + ms[i + 1..]
  {
  }

  lemma SingleMember(m: Member, name: string, names: set<string>)
    ensures Others([m], names) == if FoldName(m.name) in names then [] else [m]
    ensures Times([m], name) == if Same(m.name, name) then 1 else 0
  {
    assert [m][..0] == [];
    assert Others([m][..0], names) == [] && Times([m][..0], name) == 0;
  }

  /** An edit leaves every other member as it is, in its order. */
  lemma DoFrame(ms: seq<Member>, e: Edit, names: set<string>)
    requires FoldName(e.name) in names
    ensures Others(Do(ms, e), names) == Others(ms, names)
  {
    hide FoldName, Others, Same;
    var r := Find(ms, e.name);
    if r.Some? {
      var i := r.value;
      assert FoldName(ms[i].name) == FoldName(e.name) by { SameFold(ms[i].name, e.name); }
      var m := if e.Put? then [ms[i].(value := e.v)] else [];
      SplitAt(ms, i);
      DoThree(ms, e, i, m);
      hide Find, Do;
      OthersThree(ms[..i], [ms[i]], ms[i + 1..], names);
      OthersThree(ms[..i], m, ms[i + 1..], names);
      SingleMember(ms[i], e.name, names);
      if e.Put? { SingleMember(m[0], e.name, names); } else { OthersNone(names); }
    } else if e.Put? {
      var m := Member(e.name, Plain, e.v);
      OthersConcat(ms, [m], names);
      SingleMember(m, e.name, names);
    }
  }

  lemma DoThree(ms: seq<Member>, e: Edit, i: nat, m: seq<Member>)
    requires Find(ms, e.name) == Some(i) && m == if e.Put? then [ms[i].(value := e.v)] else []
    ensures Do(ms, e) == ms[..i] + m + ms[i + 1..]
  {
    hide Find;
    SplitAt(ms, i);
  }

  lemma SameFold(a: string, b: string)
    ensures Same(a, b) <==> FoldName(a) == FoldName(b)
  {
  }

  lemma OthersNone(names: set<string>)
    ensures Others([], names) == []
  {
  }

  lemma OthersThree(a: seq<Member>, b: seq<Member>, c: seq<Member>, names: set<string>)
    ensures Others(a + b + c, names) == Others(a, names) + Others(b, names) + Others(c, names)
  {
    OthersConcat(a + b, c, names);
    OthersConcat(a, b, names);
  }

  /** What a lookup of any name finds after an edit. */
  lemma DoGet(ms: seq<Member>, e: Edit, name: string)
    ensures !Same(e.name, name) ==> Get(Do(ms, e), name) == Get(ms, name)
    ensures e.Put? && Same(e.name, name) ==> Get(Do(ms, e), name) == Some(e.v)
  {
    hide FoldName;
    var r, ms' := Find(ms, e.name), Do(ms, e);
    var i := if r.Some? then r.value else |ms|;
    if Same(e.name, name) {
      if e.Put? { FirstIsFound(ms', name, i); }
    } else {
      var f := Find(ms, name);
      if f.Some? {
        var j := if e.Drop? && f.value > i then f.value - 1 else f.value;
        assert ms'[j] == ms[f.value];
        forall k | 0 <= k < j
          ensures !Same(ms'[k].name, name)
        {
          if k < i { assert ms'[k] == ms[k]; }
          else if k == i && e.Put? { assert Same(ms'[k].name, e.name); }
          else if e.Drop? { assert ms'[k] == ms[k + 1]; }
          else { assert ms'[k] == ms[k]; }
        }
        FirstIsFound(ms', name, j);
      } else {
        NotFoundAfter(ms, e, name);
      }
    }
  }

  lemma NotFoundAfter(ms: seq<Member>, e: Edit, name: string)
    requires !Same(e.name, name) && Find(ms, name).None?
    ensures Find(Do(ms, e), name).None?
  {
    hide FoldName;
    var ms', r := Do(ms, e), Find(ms, e.name);
    forall i | 0 <= i < |ms'|
      ensures !Same(ms'[i].name, name)
    {
      if i < |ms| {
        var k := if e.Drop? && r.Some? && i >= r.value then i + 1 else i;
        assert ms[k].name == ms'[i].name;
      }
    }
  }

  lemma DoTimes(ms: seq<Member>, e: Edit, name: string)
    ensures e.Drop? && Same(e.name, name) ==>
      Times(Do(ms, e), name) == if Times(ms, name) > 0 then Times(ms, name) - 1 else 0
    ensures !Same(e.name, name) ==> Times(Do(ms, e), name) == Times(ms, name)
  {
    hide FoldName, Times;
    var r := Find(ms, e.name);
    if r.Some? {
      var i := r.value;
      var m := if e.Put? then [ms[i].(value := e.v)] else [];
      SplitAt(ms, i);
      DoThree(ms, e, i, m);
      assert e.Drop? && Same(e.name, name) ==> Same(ms[i].name, name);
      assert !Same(e.name, name) ==> !Same(ms[i].name, name);
      hide Find, Do, Same;
      TimesThree(ms[..i], [ms[i]], ms[i + 1..], name);
      TimesThree(ms[..i], m, ms[i + 1..], name);
      SingleMember(ms[i], name, {});
      if e.Put? { SingleMember(m[0], name, {}); } else { TimesNone(name); }
    } else if e.Put? {
      var m := Member(e.name, Plain, e.v);
      TimesConcat(ms, [m], name);
      SingleMember(m, name, {});
    } else if Same(e.name, name) {
      FindOrNone(ms, name);
      FindOrNone(ms, e.name);
    }
  }

  lemma TimesNone(name: string)
    ensures Times([], name) == 0
  {
  }

  lemma TimesThree(a: seq<Member>, b: seq<Member>, c: seq<Member>, name: string)
    ensures Times(a + b + c, name) == Times(a, name) + Times(b, name) + Times(c, name)
  {
    TimesConcat(a + b, c, name);
    TimesConcat(a, b, name);
  }

  /** A name is found exactly when it occurs. */
  lemma {:induction false} FindOrNone(ms: seq<Member>, name: string)
    ensures Find(ms, name).None? <==> Times(ms, name) == 0
    ensures (forall i :: 0 <= i < |ms| ==> !Same(ms[i].name, name)) <==> Times(ms, name) == 0
  {
    hide FoldName;
    if ms != [] {
      FindOrNone(ms[..|ms| - 1], name);
      assert forall i :: 0 <= i < |ms| - 1 ==> ms[i] == ms[..|ms| - 1][i];
    }
  }

  // ---------- several edits ----------

  predicate Names(e: Edit, name: string) {
    Same(e.name, name)
  }

  /** No two edits are of the same name. */
  ghost predicate Distinct(edits: seq<Edit>) {
    forall i, j :: 0 <= i < j < |edits| ==> !Names(edits[i], edits[j].name)
  }

  lemma {:induction false} ApplyFrame(ms: seq<Member>, edits: seq<Edit>, names: set<string>)
    requires forall e :: e in edits ==> FoldName(e.name) in names
    ensures Others(Apply(ms, edits), names) == Others(ms, names)
  {
    hide FoldName, Others, Do;
    if edits != [] {
      var n := |edits| - 1;
      ApplyFrame(ms, edits[..n], names);
      DoFrame(Apply(ms, edits[..n]), edits[n], names);
    }
  }

  /** Edits of other names do not show. */
  lemma {:induction false} ApplyElsewhere(ms: seq<Member>, edits: seq<Edit>, name: string)
    requires forall i :: 0 <= i < |edits| ==> !Names(edits[i], name)
    ensures Get(Apply(ms, edits), name) == Get(ms, name) && Times(Apply(ms, edits), name) == Times(ms, name)
  {
    hide Same, Get, Times, Do;
    if edits != [] {
      var n := |edits| - 1;
      assert forall i :: 0 <= i < n ==> edits[..n][i] == edits[i];
      ApplyElsewhere(ms, edits[..n], name);
      assert !Names(edits[n], name);
      DoGet(Apply(ms, edits[..n]), edits[n], name);
      DoTimes(Apply(ms, edits[..n]), edits[n], name);
    }
  }

  lemma {:induction false} ApplyOne(ms: seq<Member>, edits: seq<Edit>, k: nat)
    requires k < |edits| && Distinct(edits)
    ensures edits[k].Put? ==> Get(Apply(ms, edits), edits[k].name) == Some(edits[k].v)
    ensures edits[k].Drop? ==>
      Times(Apply(ms, edits), edits[k].name) == if Times(ms, edits[k].name) > 0 then Times(ms, edits[k].name) - 1 else 0
  {
    hide Same, Get, Times, Do;
    var n, name := |edits| - 1, edits[k].name;
    SameFold(name, name);
    assert forall i :: 0 <= i < n ==> edits[..n][i] == edits[i];
    if k == n {
      ApplyElsewhere(ms, edits[..n], name);
    } else {
      ApplyOne(ms, edits[..n], k);
      assert !Names(edits[n], name) by {
        SameFold(edits[n].name, name);
        SameFold(name, edits[n].name);
        assert !Names(edits[k], edits[n].name);
      }
    }
    DoGet(Apply(ms, edits[..n]), edits[n], name);
    DoTimes(Apply(ms, edits[..n]), edits[n], name);
  }

  predicate Settled(ms: seq<Member>, e: Edit) {
    if e.Put? then Get(ms, e.name) == Some(e.v) else Times(ms, e.name) == 0
  }

  lemma {:induction false} ApplySettled(ms: seq<Member>, edits: seq<Edit>)
    requires forall i :: 0 <= i < |edits| ==> Settled(ms, edits[i])
    ensures Apply(ms, edits) == ms
  {
    if edits != [] {
      var n := |edits| - 1;
      assert forall i :: 0 <= i < n ==> edits[..n][i] == edits[i];
      ApplySettled(ms, edits[..n]);
      assert Settled(ms, edits[n]);
      FindOrNone(ms, edits[n].name);
    }
  }

  /** Making the same edits again changes nothing, if and only if every name to drop occurred at most once. */
  lemma ApplyTwiceIff(ms: seq<Member>, edits: seq<Edit>)
    requires Distinct(edits)
    ensures Apply(Apply(ms, edits), edits) == Apply(ms, edits)
      <==> forall k :: 0 <= k < |edits| && edits[k].Drop? ==> Times(ms, edits[k].name) <= 1
  {
    hide Same, Get, Times, Do, Apply;
    var once := Apply(ms, edits);
    forall k | 0 <= k < |edits|
      ensures edits[k].Put? ==> Settled(once, edits[k])
      ensures edits[k].Drop? && Times(ms, edits[k].name) <= 1 ==> Settled(once, edits[k])
      ensures edits[k].Drop? && Times(ms, edits[k].name) > 1 ==> Apply(once, edits) != once
    {
      ApplyOne(ms, edits, k);
      ApplyOne(once, edits, k);
    }
    if forall k :: 0 <= k < |edits| && edits[k].Drop? ==> Times(ms, edits[k].name) <= 1 {
      ApplySettled(once, edits);
    }
  }

  /** Two characters are one up to ASCII case; the long s and the Kelvin sign fold to letters too. */
  predicate SameLetter(a: char, b: char) {
    || a == b
    || ('A' <= a <= 'Z' && b as int == a as int + 32) || ('A' <= b <= 'Z' && a as int == b as int + 32)
    || (a == '\U{017F}' && b in {'s', 'S'}) || (b == '\U{017F}' && a in {'s', 'S'})
    || (a == '\U{212A}' && b in {'k', 'K'}) || (b == '\U{212A}' && a in {'k', 'K'})
  }

  lemma FoldIs(a: char, b: char)
    ensures Fold(a) == Fold(b) <==> SameLetter(a, b)
  {
  }

  /** Names match exactly if they are equally long and each character matches. */
  lemma SameIff(a: string, b: string)
    ensures Same(a, b) <==> |a| == |b| && forall i :: 0 <= i < |a| ==> SameLetter(a[i], b[i])
  {
    forall i | 0 <= i < |a| && i < |b|
      ensures FoldName(a)[i] == FoldName(b)[i] <==> SameLetter(a[i], b[i])
    {
      FoldIs(a[i], b[i]);
    }
    hide SameLetter, Fold;
    if Same(a, b) {
      assert |FoldName(a)| == |a| && |FoldName(b)| == |b|;
    }
  }
}
