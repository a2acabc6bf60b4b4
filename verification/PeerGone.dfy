/**
 Peer-gone subscriptions: who is told, once, that a key has left the region.

 A send loop subscribes the first time it writes a packet from a source (`sawSrc`), and removes its
 subscriptions one by one, each under its own lock, when it ends.
 */
module PeerGone {
  import opened Basics
  import opened Connections

  type Handle = nat

  /** One call of notePeerGoneFromRegionLocked: the callbacks it launched. */
  datatype Launch = Launch(key: Key, told: map<Handle, Conn>)

  datatype Gone = Gone(
    watchers: map<Key, map<Handle, Conn>>,
    next: Handle,
    sawSrc: map<Conn, map<Key, Handle>>,
    closing: map<Conn, set<Key>>,   // subscriptions an ending send loop has yet to remove
    done: set<Conn>,                // connections whose send loop has ended
    launched: seq<Launch>)

  const NoneGone := Gone(map[], 0, map[], map[], {}, [])

  function Saw(g: Gone, c: Conn): map<Key, Handle> {
    if c in g.sawSrc then g.sawSrc[c] else map[]
  }

  function Watching(g: Gone, k: Key): map<Handle, Conn> {
    if k in g.watchers then g.watchers[k] else map[]
  }

  // ---------- steps ----------

  function NotePeerGone(g: Gone, k: Key): Gone {
    g.(watchers := g.watchers - {k}, launched := g.launched + [Launch(k, Watching(g, k))])
  }

  /** noteSendFromSrc, while the send loop of `c` runs. */
  function NoteSend(g: Gone, c: Conn, src: Key): Gone {
    if c in g.closing || c in g.done || src in Saw(g, c) then g
    else g.(watchers := g.watchers[src := Watching(g, src)[g.next := c]],
            next := g.next + 1,
            sawSrc := g.sawSrc[c := Saw(g, c)[src := g.next]])
  }

  function BeginDone(g: Gone, c: Conn): Gone {
    if c in g.closing || c in g.done then g else g.(closing := g.closing[c := Saw(g, c).Keys])
  }

  /** removePeerGoneFromRegionWatcher for one remembered source. */
  function RemoveOne(g: Gone, c: Conn, k: Key): Gone {
    if c !in g.closing || k !in g.closing[c] || k !in Saw(g, c) then g
    else
      var rest := Watching(g, k) - {Saw(g, c)[k]};
      g.(watchers := if k !in g.watchers then g.watchers
                     else if rest == map[] then g.watchers - {k}
                     else g.watchers[k := rest],
         closing := g.closing[c := g.closing[c] - {k}])
  }

  function EndDone(g: Gone, c: Conn): Gone {
    if c in g.closing && g.closing[c] == {} then g.(closing := g.closing - {c}, done := g.done + {c}) else g
  }

  // ---------- invariant ----------

  /** A stored handle belongs to a send loop that still remembers it and has yet to remove it. */
  ghost predicate WatchersOk(g: Gone) {
    && (forall k :: k in g.watchers ==> g.watchers[k] != map[])
    && (forall k, h :: k in g.watchers && h in g.watchers[k] ==>
          var c := g.watchers[k][h];
          && k in Saw(g, c) && Saw(g, c)[k] == h
          && c !in g.done && (c in g.closing ==> k in g.closing[c]))
  }

  /** A handle is made once, for one connection and one source. */
  ghost predicate HandlesOk(sawSrc: map<Conn, map<Key, Handle>>, next: Handle) {
    && (forall c, k :: c in sawSrc && k in sawSrc[c] ==> sawSrc[c][k] < next)
    && (forall c, k, d, j ::
          (c in sawSrc && k in sawSrc[c] && d in sawSrc && j in sawSrc[d] && sawSrc[c][k] == sawSrc[d][j]) ==>
          c == d && k == j)
  }

  ghost predicate ClosingOk(g: Gone) {
    forall c :: c in g.closing ==> c !in g.done && g.closing[c] <= Saw(g, c).Keys
  }

  /** A launched handle came from the subscription of that connection, and is no longer stored. */
  ghost predicate LaunchOk(g: Gone, l: Launch) {
    forall h :: h in l.told ==>
      l.key in Saw(g, l.told[h]) && Saw(g, l.told[h])[l.key] == h && h !in Watching(g, l.key)
  }

  /** No handle is launched twice. */
  ghost predicate LaunchedOnce(launched: seq<Launch>) {
    forall i, j, h :: 0 <= i < j < |launched| && launched[i].key == launched[j].key ==>
      h !in launched[i].told || h !in launched[j].told
  }

  ghost predicate LaunchesOk(g: Gone) {
    (forall i :: 0 <= i < |g.launched| ==> LaunchOk(g, g.launched[i])) && LaunchedOnce(g.launched)
  }

  ghost predicate Inv(g: Gone) {
    WatchersOk(g) && HandlesOk(g.sawSrc, g.next) && ClosingOk(g) && LaunchesOk(g)
  }

  lemma NotePeerGoneKeeps(g: Gone, k: Key)
    requires Inv(g)
    ensures Inv(NotePeerGone(g, k))
  {
    hide HandlesOk, WatchersOk, LaunchesOk, ClosingOk;
    GoneWatchers(g, k);
    GoneLaunches(g, k);
    GoneClosing(g, k);
  }

  lemma GoneClosing(g: Gone, k: Key)
    requires ClosingOk(g)
    ensures ClosingOk(NotePeerGone(g, k))
  {
    assert forall c :: Saw(NotePeerGone(g, k), c) == Saw(g, c);
  }

  lemma GoneWatchers(g: Gone, k: Key)
    requires WatchersOk(g)
    ensures WatchersOk(NotePeerGone(g, k))
  {
    assert forall c :: Saw(NotePeerGone(g, k), c) == Saw(g, c);
  }

  /** A launch stays in order when another key goes, or its own again. */
  lemma LaunchStays(g: Gone, k: Key, l: Launch)
    requires LaunchOk(g, l)
    ensures LaunchOk(NotePeerGone(g, k), l)
  {
    assert forall c :: Saw(NotePeerGone(g, k), c) == Saw(g, c);
  }

  lemma NewLaunch(g: Gone, k: Key)
    requires WatchersOk(g)
    ensures LaunchOk(NotePeerGone(g, k), Launch(k, Watching(g, k)))
  {
    assert forall c :: Saw(NotePeerGone(g, k), c) == Saw(g, c);
  }

  lemma LaunchedOnceMore(g: Gone, k: Key)
    requires LaunchesOk(g)
    ensures LaunchedOnce(g.launched + [Launch(k, Watching(g, k))])
  {
    var launched := g.launched + [Launch(k, Watching(g, k))];
    forall i, j, h | 0 <= i < j < |launched| && launched[i].key == launched[j].key
      ensures h !in launched[i].told || h !in launched[j].told
    {
      assert launched[i] == g.launched[i] && LaunchOk(g, g.launched[i]);
      if j < |g.launched| { assert launched[j] == g.launched[j]; }
    }
  }

  lemma GoneLaunches(g: Gone, k: Key)
    requires WatchersOk(g) && LaunchesOk(g)
    ensures LaunchesOk(NotePeerGone(g, k))
  {
    hide LaunchOk, LaunchedOnce, WatchersOk;
    var g' := NotePeerGone(g, k);
    LaunchedOnceMore(g, k);
    NewLaunch(g, k);
    forall i | 0 <= i < |g'.launched|
      ensures LaunchOk(g', g'.launched[i])
    {
      if i < |g.launched| { LaunchStays(g, k, g.launched[i]); }
    }
  }

  lemma NoteSendKeeps(g: Gone, c: Conn, src: Key)
    requires Inv(g)
    ensures Inv(NoteSend(g, c, src))
  {
    hide WatchersOk, LaunchesOk, HandlesOk, ClosingOk;
    if c in g.closing || c in g.done || src in Saw(g, c) {
      assert NoteSend(g, c, src) == g;
    } else {
      NoteSendHandled(g, c, src);
      hide NoteSend, Saw;
      NoteSendWatchers(g, c, src);
      NoteSendClosing(g, c, src);
      NoteSendLaunches(g, c, src);
    }
  }

  /** A send loop that subscribes forgets nothing. */
  lemma SawMore(g: Gone, c: Conn, src: Key, d: Conn, j: Key)
    requires src !in Saw(g, c)
    ensures j in Saw(g, d) ==> j in Saw(NoteSend(g, c, src), d) && Saw(NoteSend(g, c, src), d)[j] == Saw(g, d)[j]
  {
  }

  lemma NoteSendWatchers(g: Gone, c: Conn, src: Key)
    requires WatchersOk(g) && c !in g.closing && c !in g.done && src !in Saw(g, c)
    ensures WatchersOk(NoteSend(g, c, src))
  {
    var g' := NoteSend(g, c, src);
    assert g'.watchers[src][g.next] == c;
    forall k, h | k in g'.watchers && h in g'.watchers[k]
      ensures var d := g'.watchers[k][h];
              && k in Saw(g', d) && Saw(g', d)[k] == h
              && d !in g'.done && (d in g'.closing ==> k in g'.closing[d])
    {
      if !(k == src && h == g.next) {
        var d := g'.watchers[k][h];
        assert k in g.watchers && h in g.watchers[k] && d == g.watchers[k][h];
        SawMore(g, c, src, d, k);
      }
    }
  }

  lemma NoteSendClosing(g: Gone, c: Conn, src: Key)
    requires ClosingOk(g) && c !in g.closing
    ensures ClosingOk(NoteSend(g, c, src))
  {
    forall d | d in g.closing
      ensures Saw(NoteSend(g, c, src), d) == Saw(g, d)
    {
    }
  }

  lemma NoteSendHandled(g: Gone, c: Conn, src: Key)
    requires HandlesOk(g.sawSrc, g.next) && c !in g.closing && c !in g.done && src !in Saw(g, c)
    ensures HandlesOk(NoteSend(g, c, src).sawSrc, NoteSend(g, c, src).next)
  {
    hide HandlesOk;
    NoteSendHandles(g.sawSrc, g.next, c, src);
  }

  lemma NoteSendHandles(sawSrc: map<Conn, map<Key, Handle>>, next: Handle, c: Conn, src: Key)
    requires HandlesOk(sawSrc, next) && (c in sawSrc ==> src !in sawSrc[c])
    ensures HandlesOk(sawSrc[c := (if c in sawSrc then sawSrc[c] else map[])[src := next]], next + 1)
  {
  }

  lemma NoteSendLaunch(g: Gone, c: Conn, src: Key, l: Launch)
    requires HandlesOk(g.sawSrc, g.next) && LaunchOk(g, l) && src !in Saw(g, c)
    ensures LaunchOk(NoteSend(g, c, src), l)
  {
    forall h | h in l.told
      ensures var g', d := NoteSend(g, c, src), l.told[h];
              l.key in Saw(g', d) && Saw(g', d)[l.key] == h && h !in Watching(g', l.key)
    {
      SawMore(g, c, src, l.told[h], l.key);
      HandleBelow(g, l.told[h], l.key);
      WatchingMore(g, c, src, l.key, h);
    }
  }

  lemma NoteSendLaunches(g: Gone, c: Conn, src: Key)
    requires HandlesOk(g.sawSrc, g.next) && LaunchesOk(g) && c !in g.closing && c !in g.done && src !in Saw(g, c)
    ensures LaunchesOk(NoteSend(g, c, src))
  {
    hide LaunchOk, LaunchedOnce, HandlesOk;
    forall i | 0 <= i < |g.launched|
      ensures LaunchOk(NoteSend(g, c, src), g.launched[i])
    {
      NoteSendLaunch(g, c, src, g.launched[i]);
    }
  }

  lemma HandleBelow(g: Gone, d: Conn, k: Key)
    requires HandlesOk(g.sawSrc, g.next) && k in Saw(g, d)
    ensures Saw(g, d)[k] < g.next
  {
  }

  lemma WatchingMore(g: Gone, c: Conn, src: Key, k: Key, h: Handle)
    requires h != g.next
    ensures h in Watching(NoteSend(g, c, src), k) <==> h in Watching(g, k)
  {
  }

  lemma RemoveOneKeeps(g: Gone, c: Conn, k: Key)
    requires Inv(g)
    ensures Inv(RemoveOne(g, c, k))
  {
    if c in g.closing && k in g.closing[c] && k in Saw(g, c) {
      hide WatchersOk, LaunchesOk, HandlesOk;
      RemoveOneWatchers(g, c, k);
      RemoveOneLaunches(g, c, k);
    }
  }

  lemma RemoveOneWatchers(g: Gone, c: Conn, k: Key)
    requires WatchersOk(g) && c in g.closing && k in g.closing[c] && k in Saw(g, c)
    ensures WatchersOk(RemoveOne(g, c, k))
  {
    var g' := RemoveOne(g, c, k);
    assert forall d :: Saw(g', d) == Saw(g, d);
    forall j, h | j in g'.watchers && h in g'.watchers[j]
      ensures var d := g'.watchers[j][h];
              && j in Saw(g', d) && Saw(g', d)[j] == h
              && d !in g'.done && (d in g'.closing ==> j in g'.closing[d])
    {
      assert j in g.watchers && h in g.watchers[j] && g'.watchers[j][h] == g.watchers[j][h];
    }
  }

  lemma RemoveOneLaunches(g: Gone, c: Conn, k: Key)
    requires LaunchesOk(g) && c in g.closing && k in g.closing[c] && k in Saw(g, c)
    ensures LaunchesOk(RemoveOne(g, c, k))
  {
    var g' := RemoveOne(g, c, k);
    assert forall d :: Saw(g', d) == Saw(g, d);
    assert forall j :: Watching(g', j).Keys <= Watching(g, j).Keys;
  }

  lemma BeginKeeps(g: Gone, c: Conn)
    requires Inv(g)
    ensures Inv(BeginDone(g, c))
  {
    hide HandlesOk, LaunchesOk;
    var g' := BeginDone(g, c);
    assert forall d :: Saw(g', d) == Saw(g, d);
    SameLaunches(g, g');
  }

  lemma EndKeeps(g: Gone, c: Conn)
    requires Inv(g)
    ensures Inv(EndDone(g, c))
  {
    hide HandlesOk, LaunchesOk;
    var g' := EndDone(g, c);
    assert forall d :: Saw(g', d) == Saw(g, d);
    SameLaunches(g, g');
  }

  lemma SameLaunches(g: Gone, g': Gone)
    requires LaunchesOk(g) && g'.launched == g.launched && g'.sawSrc == g.sawSrc && g'.watchers == g.watchers
    ensures LaunchesOk(g')
  {
    assert forall d :: Saw(g', d) == Saw(g, d);
    assert forall j :: Watching(g', j) == Watching(g, j);
  }

  // ---------- what it gives ----------

  /** Over a whole lifetime a connection is told at most once about each source. */
  lemma ToldAtMostOnce(g: Gone, c: Conn, i: nat, h: Handle, j: nat, h': Handle)
    requires Inv(g)
    requires i < |g.launched| && h in g.launched[i].told && g.launched[i].told[h] == c
    requires j < |g.launched| && h' in g.launched[j].told && g.launched[j].told[h'] == c
    requires g.launched[i].key == g.launched[j].key
    ensures i == j && h == h'
  {
  }

  /** No subscription of a connection survives its send loop. */
  lemma NoneSurvives(g: Gone, c: Conn)
    requires Inv(g) && c in g.done
    ensures forall k, h :: k in g.watchers && h in g.watchers[k] ==> g.watchers[k][h] != c
  {
  }

  // ---------- nobody is forgotten ----------

  /** The subscription of `c` to `k` is stored. */
  predicate Subscribed(g: Gone, c: Conn, k: Key) {
    k in Saw(g, c) && Saw(g, c)[k] in Watching(g, k) && Watching(g, k)[Saw(g, c)[k]] == c
  }

  /** `c` was told that `k` has gone. */
  ghost predicate Told(g: Gone, c: Conn, k: Key) {
    exists l :: l in g.launched && l.key == k && k in Saw(g, c) && Saw(g, c)[k] in l.told && l.told[Saw(g, c)[k]] == c
  }

  /** The send loop of `c` is over, or has removed this subscription already. */
  predicate Unsubscribed(g: Gone, c: Conn, k: Key) {
    c in g.done || (c in g.closing && k !in g.closing[c])
  }

  ghost predicate Complete(g: Gone) {
    forall c, k :: k in Saw(g, c) ==> Subscribed(g, c, k) || Told(g, c, k) || Unsubscribed(g, c, k)
  }

  lemma ToldStays(g: Gone, g': Gone, c: Conn, k: Key)
    requires Told(g, c, k) && g.launched <= g'.launched && k in Saw(g', c) && Saw(g', c)[k] == Saw(g, c)[k]
    ensures Told(g', c, k)
  {
    var l :| l in g.launched && l.key == k && Saw(g, c)[k] in l.told && l.told[Saw(g, c)[k]] == c;
    assert l in g'.launched;
  }

  lemma GoneComplete(g: Gone, gone: Key)
    requires Complete(g)
    ensures Complete(NotePeerGone(g, gone))
  {
    var g' := NotePeerGone(g, gone);
    forall c, k | k in Saw(g', c)
      ensures Subscribed(g', c, k) || Told(g', c, k) || Unsubscribed(g', c, k)
    {
      assert Saw(g', c) == Saw(g, c);
      if Told(g, c, k) {
        ToldStays(g, g', c, k);
      } else if Subscribed(g, c, k) && k == gone {
        var l := Launch(gone, Watching(g, gone));
        assert l in g'.launched && l.key == k;
      }
    }
  }

  lemma SendComplete(g: Gone, d: Conn, src: Key)
    requires Complete(g) && HandlesOk(g.sawSrc, g.next)
    ensures Complete(NoteSend(g, d, src))
    ensures d !in g.closing && d !in g.done ==> src in Saw(NoteSend(g, d, src), d)
  {
    var g' := NoteSend(g, d, src);
    if d in g.closing || d in g.done || src in Saw(g, d) { return; }
    forall c, k | k in Saw(g', c)
      ensures Subscribed(g', c, k) || Told(g', c, k) || Unsubscribed(g', c, k)
    {
      if !(c == d && k == src) {
        assert k in Saw(g, c) && Saw(g', c)[k] == Saw(g, c)[k];
        HandleBelow(g, c, k);
        if Told(g, c, k) { ToldStays(g, g', c, k); }
        else if Subscribed(g, c, k) { WatchingKept(g, d, src, k, Saw(g, c)[k]); }
      }
    }
  }

  lemma WatchingKept(g: Gone, c: Conn, src: Key, k: Key, h: Handle)
    requires h != g.next && h in Watching(g, k)
    ensures h in Watching(NoteSend(g, c, src), k) && Watching(NoteSend(g, c, src), k)[h] == Watching(g, k)[h]
  {
  }

  lemma BeginComplete(g: Gone, d: Conn)
    requires Complete(g)
    ensures Complete(BeginDone(g, d))
  {
    var g' := BeginDone(g, d);
    forall c, k | k in Saw(g', c)
      ensures Subscribed(g', c, k) || Told(g', c, k) || Unsubscribed(g', c, k)
    {
      assert Saw(g', c) == Saw(g, c);
      if Told(g, c, k) { ToldStays(g, g', c, k); }
    }
  }

  lemma RemoveComplete(g: Gone, d: Conn, j: Key)
    requires Complete(g) && HandlesOk(g.sawSrc, g.next)
    ensures Complete(RemoveOne(g, d, j))
  {
    var g' := RemoveOne(g, d, j);
    if d !in g.closing || j !in g.closing[d] || j !in Saw(g, d) { return; }
    forall c, k | k in Saw(g', c)
      ensures Subscribed(g', c, k) || Told(g', c, k) || Unsubscribed(g', c, k)
    {
      RemoveOnePart(g, d, j, c, k);
    }
  }

  lemma RemoveOnePart(g: Gone, d: Conn, j: Key, c: Conn, k: Key)
    requires HandlesOk(g.sawSrc, g.next) && d in g.closing && j in g.closing[d] && j in Saw(g, d) && k in Saw(g, c)
    requires Subscribed(g, c, k) || Told(g, c, k) || Unsubscribed(g, c, k)
    ensures var g' := RemoveOne(g, d, j); Subscribed(g', c, k) || Told(g', c, k) || Unsubscribed(g', c, k)
  {
    var g' := RemoveOne(g, d, j);
    assert Saw(g', c) == Saw(g, c);
    hide HandlesOk, Told, Subscribed;
    if Told(g, c, k) {
      ToldStays(g, g', c, k);
    } else if Subscribed(g, c, k) && !(c == d && k == j) {
      OtherHandle(g, c, k, d, j);
    }
  }

  /** Removing one subscription leaves the others stored. */
  lemma OtherHandle(g: Gone, c: Conn, k: Key, d: Conn, j: Key)
    requires HandlesOk(g.sawSrc, g.next) && Subscribed(g, c, k) && !(c == d && k == j)
    requires d in g.closing && j in g.closing[d] && j in Saw(g, d)
    ensures Subscribed(RemoveOne(g, d, j), c, k)
  {
    assert Saw(RemoveOne(g, d, j), c) == Saw(g, c);
    assert c in g.sawSrc && k in g.sawSrc[c] && d in g.sawSrc && j in g.sawSrc[d];
    assert Saw(g, c)[k] != Saw(g, d)[j];
    if k == j {
      assert Saw(g, c)[k] in Watching(g, k) - {Saw(g, d)[j]};
    }
  }

  lemma EndComplete(g: Gone, d: Conn)
    requires Complete(g)
    ensures Complete(EndDone(g, d))
  {
    var g' := EndDone(g, d);
    forall c, k | k in Saw(g', c)
      ensures Subscribed(g', c, k) || Told(g', c, k) || Unsubscribed(g', c, k)
    {
      assert Saw(g', c) == Saw(g, c);
      if Told(g, c, k) { ToldStays(g, g', c, k); }
    }
  }
}
