/**
 Connections of one public key: `clientSet` and `dupClientSet` of the DERP server.

 A connection (`sclient`) is identified by its immutable part; its atomic flags
 (`isDup`, `isDisabled`) live in the registry as sets of connections.
 */
module Connections {
  import opened Basics

  type Key = nat

  datatype Conn = Conn(id: nat, key: Key, canMesh: bool, notIdeal: bool)

  datatype Dup = Dup(members: set<Conn>, last: Option<Conn>, history: seq<Conn>)

  datatype ClientSet = ClientSet(active: Option<Conn>, dup: Option<Dup>)

  function Len(cs: ClientSet): nat {
    if cs.dup.Some? then |cs.dup.value.members| else if cs.active.Some? then 1 else 0
  }

  function PickActive(cs: ClientSet, disabled: set<Conn>): Option<Conn> {
    match cs.dup
    case None => cs.active
    case Some(d) => if d.last.Some? && d.last.value !in disabled then d.last else None
  }

  // ---------- sendHistory compaction ----------

  /** What one left-to-right compaction pass keeps. */
  function Trim(history: seq<Conn>, keep: set<Conn>): seq<Conn> {
    if history == [] then []
    else
      var t := Trim(history[..|history| - 1], keep);
      var x := history[|history| - 1];
      if x in keep && (t == [] || t[|t| - 1] != x) then t + [x] else t
  }

  predicate NoEqualNeighbours(s: seq<Conn>) {
    forall i :: 0 < i < |s| ==> s[i - 1] != s[i]
  }

  lemma ElementsSnoc(h: seq<Conn>, x: Conn)
    ensures Elements(h + [x]) == Elements(h) + {x}
  {
  }

  /** Compaction forgets nobody who stays and keeps nobody who left. */
  lemma {:induction false} TrimElements(h: seq<Conn>, keep: set<Conn>)
    ensures Elements(Trim(h, keep)) == Elements(h) * keep
  {
    if h != [] {
      var front, x := h[..|h| - 1], h[|h| - 1];
      var t := Trim(front, keep);
      TrimElements(front, keep);
      assert h == front + [x];
      ElementsSnoc(front, x);
      ElementsSnoc(t, x);
      if t != [] && t[|t| - 1] == x { assert x in Elements(t); }
    }
  }

  /** It leaves no equal neighbours, and ends with the last speaker that stays. */
  lemma {:induction false} TrimFacts(h: seq<Conn>, keep: set<Conn>)
    ensures NoEqualNeighbours(Trim(h, keep)) && |Trim(h, keep)| <= |h|
    ensures h != [] && h[|h| - 1] in keep ==> Trim(h, keep) != [] && Trim(h, keep)[|Trim(h, keep)| - 1] == h[|h| - 1]
    ensures h != [] && h[|h| - 1] !in keep ==> Trim(h, keep) == Trim(h[..|h| - 1], keep)
  {
    if h != [] {
      TrimFacts(h[..|h| - 1], keep);
    }
  }

  /** A history without departed members and without equal neighbours is left alone. */
  lemma {:induction false} TrimFixpoint(h: seq<Conn>, keep: set<Conn>)
    requires Elements(h) <= keep && NoEqualNeighbours(h)
    ensures Trim(h, keep) == h
  {
    if h != [] {
      var front := h[..|h| - 1];
      assert h == front + [h[|h| - 1]];
      assert h[|h| - 1] in Elements(h);
      assert forall x :: x in front ==> x in h;
      TrimFixpoint(front, keep);
    }
  }

  // ---------- the same, said apart: drop who left, then drop repetitions ----------

  function Kept(h: seq<Conn>, keep: set<Conn>): seq<Conn> {
    if h == [] then [] else if h[0] in keep then [h[0]] + Kept(h[1..], keep) else Kept(h[1..], keep)
  }

  function Collapsed(h: seq<Conn>): seq<Conn> {
    if |h| <= 1 then h else if h[0] == h[1] then Collapsed(h[1..]) else [h[0]] + Collapsed(h[1..])
  }

  lemma {:induction false} KeptOne(x: Conn, keep: set<Conn>)
    ensures Kept([] + [x], keep) == if x in keep then Kept([], keep) + [x] else Kept([], keep)
  {
    assert ([] + [x])[1..] == [];
  }

  lemma Associative(a: seq<Conn>, b: seq<Conn>, c: seq<Conn>)
    ensures a + (b + c) == a + b + c
  {
  }

  lemma {:induction false} KeptHead(h: seq<Conn>, keep: set<Conn>)
    requires h != []
    ensures Kept(h, keep) == if h[0] in keep then [h[0]] + Kept(h[1..], keep) else Kept(h[1..], keep)
  {
  }

  lemma {:induction false} KeptSnoc(h: seq<Conn>, x: Conn, keep: set<Conn>)
    ensures Kept(h + [x], keep) == if x in keep then Kept(h, keep) + [x] else Kept(h, keep)
  {
    if h == [] {
      KeptOne(x, keep);
    } else {
      hide Kept;
      KeptHead(h + [x], keep);
      KeptHead(h, keep);
      KeptSnoc(h[1..], x, keep);
      assert (h + [x])[1..] == h[1..] + [x] && (h + [x])[0] == h[0];
      Associative([h[0]], Kept(h[1..], keep), [x]);
    }
  }

  lemma {:induction false} CollapsedSnoc(h: seq<Conn>, x: Conn)
    ensures Collapsed(h + [x]) == if h != [] && h[|h| - 1] == x then Collapsed(h) else Collapsed(h) + [x]
    ensures h != [] ==> Collapsed(h) != [] && Collapsed(h)[|Collapsed(h)| - 1] == h[|h| - 1]
  {
    if h == [] {
      assert [] + [x] == [x];
    } else if |h| == 1 {
      assert (h + [x])[1..] == [x];
    } else {
      assert (h + [x])[1..] == h[1..] + [x];
      CollapsedSnoc(h[1..], x);
    }
  }

  /** One pass does both. */
  lemma {:induction false} TrimIsCollapsed(h: seq<Conn>, keep: set<Conn>)
    ensures Trim(h, keep) == Collapsed(Kept(h, keep))
  {
    if h != [] {
      var front, x := h[..|h| - 1], h[|h| - 1];
      assert h == front + [x];
      TrimIsCollapsed(front, keep);
      KeptSnoc(front, x, keep);
      CollapsedSnoc(Kept(front, keep), x);
    }
  }

  /** Compacting for a smaller set can start from what was compacted before. */
  lemma {:induction false} TrimTwice(h: seq<Conn>, more: set<Conn>, fewer: set<Conn>)
    requires fewer <= more
    ensures Trim(Trim(h, more), fewer) == Trim(h, fewer)
  {
    if h != [] {
      var front, x := h[..|h| - 1], h[|h| - 1];
      var t := Trim(front, more);
      TrimTwice(front, more, fewer);
      TrimFacts(t, fewer);
      TrimEnd(h, more);
      TrimEnd(h, fewer);
      TrimEnd(t + [x], fewer);
      hide Trim, NoEqualNeighbours;
      assert (t + [x])[..|t|] == t;
    }
  }

  lemma {:induction false} TrimEnd(h: seq<Conn>, keep: set<Conn>)
    requires h != []
    ensures var x, t := h[|h| - 1], Trim(h[..|h| - 1], keep);
      Trim(h, keep) == if x in keep && (t == [] || t[|t| - 1] != x) then t + [x] else t
  {
  }

  /** The connection at `i` is the latest in the log that stays. */
  ghost predicate LatestIn(log: seq<Conn>, keep: set<Conn>, i: nat) {
    i < |log| && log[i] in keep && forall j :: i < j < |log| ==> log[j] !in keep
  }

  /** So the compacted log ends with the latest that stays. */
  lemma {:induction false} TrimEndsWithLatest(h: seq<Conn>, keep: set<Conn>, i: nat)
    requires LatestIn(h, keep, i)
    ensures Trim(h, keep) != [] && Trim(h, keep)[|Trim(h, keep)| - 1] == h[i]
  {
    TrimFacts(h, keep);
    if i < |h| - 1 {
      var front := h[..|h| - 1];
      assert h[|h| - 1] !in keep && LatestIn(front, keep, i);
      TrimEndsWithLatest(front, keep, i);
    }
  }

  // ---------- removal ----------

  /** `dupClientSet.removeClient`: the new set, and whether `c` was in it. */
  function Removed(d: Dup, c: Conn): (Dup, bool) {
    var last := if d.last == Some(c) then None else d.last;
    if c !in d.members then (d.(last := last), false)
    else
      var members := d.members - {c};
      var history := Trim(d.history, members);
      var last' := if last.None? && history != [] then Some(history[|history| - 1]) else last;
      (Dup(members, last', history), true)
  }

  /** The history is a log over members, without equal neighbours, missing at most one member. */
  ghost predicate HistoryOk(d: Dup) {
    && Elements(d.history) <= d.members
    && NoEqualNeighbours(d.history)
    && (forall x, y :: x in d.members && y in d.members && x !in d.history && y !in d.history ==> x == y)
  }

  ghost predicate DupOk(d: Dup) {
    && |d.members| >= 2
    && d.last.Some? && d.last.value in d.members
    && HistoryOk(d)
  }

  /** When the last speaker leaves, the latest speaker that stays takes over. */
  lemma LatestTakesOver(d: Dup, c: Conn, i: nat)
    requires c in d.members && d.last == Some(c) && LatestIn(d.history, d.members - {c}, i)
    ensures Removed(d, c).0.last == Some(d.history[i])
  {
    TrimEndsWithLatest(d.history, d.members - {c}, i);
  }

  /** Removing a member of a set of three or more leaves a well-formed set, whose `last` moves
      to the latest speaker that stays exactly when the departing connection was the last one. */
  lemma RemoveKeepsDup(d: Dup, c: Conn)
    requires DupOk(d) && c in d.members
    ensures Removed(d, c).1
    ensures Removed(d, c).0.members == d.members - {c}
    ensures HistoryOk(Removed(d, c).0)
    ensures |d.members| >= 3 ==> DupOk(Removed(d, c).0)
    ensures d.last != Some(c) ==> Removed(d, c).0.last == d.last
  {
    var members := d.members - {c};
    TrimElements(d.history, members);
    TrimFacts(d.history, members);
    var d' := Removed(d, c).0;
    assert Elements(d'.history) == Elements(d.history) * members;
    forall x, y | x in members && y in members && x !in d'.history && y !in d'.history
      ensures x == y
    {
      assert x !in Elements(d'.history) && y !in Elements(d'.history);
      assert x !in d.history && y !in d.history;
    }
    if |d.members| >= 3 {
      assert |members| >= 2 && members != {};
      var x :| x in members;
      assert |members - {x}| >= 1 && members - {x} != {};
      var y :| y in members - {x};
      assert x in d'.history || y in d'.history;
      assert d'.history[|d'.history| - 1] in Elements(d'.history);
    }
  }

  ghost function Values(cells: seq<Option<Conn>>): seq<Conn>
    requires forall i :: 0 <= i < |cells| ==> cells[i].Some?
  {
    seq(|cells|, i requires 0 <= i < |cells| => cells[i].value)
  }

  lemma ValueAt(cells: seq<Option<Conn>>, i: nat)
    requires i < |cells| && forall j :: 0 <= j < |cells| ==> cells[j].Some?
    ensures cells[i] == Some(Values(cells)[i])
  {
  }

  lemma TrimNone(history: seq<Conn>, keep: set<Conn>)
    ensures Trim(history[..0], keep) == []
  {
  }

  /** Trimming one more element. */
  lemma TrimSnoc(history: seq<Conn>, i: nat, keep: set<Conn>)
    requires i < |history|
    ensures var t := Trim(history[..i], keep);
      Trim(history[..i + 1], keep) ==
        if history[i] in keep && (t == [] || t[|t| - 1] != history[i]) then t + [history[i]] else t
  {
    assert history[..i + 1][..i] == history[..i];
  }

  /** The in-place compaction loop over the first `n` cells of the backing array; the freed
      cells are cleared and everything past `n` is untouched. */
  method Compact(cells: array<Option<Conn>>, n: nat, keep: set<Conn>) returns (kept: nat)
    requires n <= cells.Length && forall i :: 0 <= i < n ==> cells[i].Some?
    modifies cells
    ensures kept <= n && forall i :: 0 <= i < kept ==> cells[i].Some?
    ensures Values(cells[..kept]) == Trim(old(Values(cells[..n])), keep)
    ensures forall i :: kept <= i < n ==> cells[i] == None
    ensures cells[n..] == old(cells[n..])
  {
    hide Trim;
    kept := 0;
    ghost var was := Values(cells[..n]);
    TrimNone(was, keep);
    for i := 0 to n
      invariant kept <= i
      invariant |Trim(was[..i], keep)| == kept
      invariant forall j :: 0 <= j < kept ==> cells[j] == Some(Trim(was[..i], keep)[j])
      invariant forall j :: i <= j < n ==> cells[j] == Some(was[j])
      invariant cells[n..] == old(cells[n..])
    {
      var v := cells[i].value;
      TrimSnoc(was, i, keep);
      if v in keep && (kept == 0 || cells[kept - 1] != Some(v)) {
        cells[kept] := Some(v);
        kept := kept + 1;
      }
    }
    assert was[..n] == was;
    for i := kept to n
      invariant forall j :: 0 <= j < kept ==> cells[j] == Some(Trim(was, keep)[j])
      invariant forall j :: kept <= j < i ==> cells[j] == None
      invariant cells[n..] == old(cells[n..])
    {
      cells[i] := None;
    }
  }

  /** `dupClientSet` as the object the server updates: the history is a backing array
      compacted in place, of which the first `n` cells are in use. */
  class DupClientSet {
    var members: set<Conn>
    var last: Option<Conn>
    var cells: array<Option<Conn>>
    var n: nat

    ghost predicate Valid()
      reads this, cells
    {
      n <= cells.Length && forall i :: 0 <= i < n ==> cells[i].Some?
    }

    ghost function History(): seq<Conn>
      requires Valid()
      reads this, cells
    {
      Values(cells[..n])
    }

    ghost function View(): Dup
      requires Valid()
      reads this, cells
    {
      Dup(members, last, History())
    }

    /** The set made when a second connection for a key registers. */
    constructor (c: Conn, was: Conn)
      ensures Valid() && fresh(cells)
      ensures View() == Dup({c, was}, Some(c), [was])
    {
      members, last, n := {c, was}, Some(c), 1;
      cells := new Option<Conn>[4](_ => None);
      new;
      cells[0] := Some(was);
    }

    /** Appends to the history, growing the backing array when it is full. */
    method Append(c: Conn)
      requires Valid()
      modifies this`cells, this`n, cells
      ensures Valid() && (cells == old(cells) || fresh(cells))
      ensures View() == old(View()).(history := old(History()) + [c])
    {
      ghost var was := History();
      if n == cells.Length {
        var bigger := new Option<Conn>[2 * n + 1](
          i requires 0 <= i < 2 * n + 1 && n == cells.Length reads this, cells =>
          if i < n then cells[i] else None);
        cells := bigger;
      }
      cells[n] := Some(c);
      n := n + 1;
      assert History() == was + [c];
    }

    /** Removes `c`, compacts the history in place and clears the freed cells. */
    method RemoveClient(c: Conn) returns (shrank: bool)
      requires Valid()
      modifies this`members, this`last, this`n, cells
      ensures Valid()
      ensures (View(), shrank) == Removed(old(View()), c)
      ensures shrank ==> forall i :: n <= i < old(n) ==> cells[i] == None
    {
      hide Trim;
      ghost var was := History();
      shrank := c in members;
      members := members - {c};
      if last == Some(c) {
        last := None;
      }
      if !shrank {
        assert members == old(members) && History() == was;
        return;
      }
      n := Compact(cells, n, members);
      ghost var trimmed := Trim(was, members);
      assert History() == trimmed && |trimmed| == n;
      if last.None? && n > 0 {
        ValueAt(cells[..n], n - 1);
        last := cells[n - 1];
      }
      assert View() == Dup(members, last, trimmed);
    }
  }
}
