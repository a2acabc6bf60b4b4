/**
 What publishing and withdrawing do to a policy document, for every document.
 */
module DerpMapTheorems {
  import opened Basics
  import opened Json
  import opened DerpMap

  // ---------- the managed names ----------

  const NodeNames: set<string> :=
    {"name", "regionid", "hostname", "ipv4", "ipv6", "derpport", "stunport", "certname", "stunonly"}

  const RegionNames: set<string> := {"nodes", "regioncode", "regionname", "regionid"}

  lemma FoldedNodeNames()
    ensures FoldName("name") == "name" && FoldName("regionID") == "regionid" && FoldName("hostName") == "hostname"
    ensures FoldName("ipv4") == "ipv4" && FoldName("ipv6") == "ipv6" && FoldName("derpPort") == "derpport"
    ensures FoldName("stunPort") == "stunport" && FoldName("certName") == "certname"
      && FoldName("stunOnly") == "stunonly"
  {
  }

  lemma FoldedRegionNames()
    ensures FoldName("nodes") == "nodes" && FoldName("regionCode") == "regioncode"
    ensures FoldName("regionName") == "regionname" && FoldName("regionID") == "regionid"
  {
  }

  lemma NodeEditsDistinct(cfg: Config, ep: Endpoint)
    ensures Distinct(NodeEdits(cfg, ep))
    ensures forall e :: e in NodeEdits(cfg, ep) ==> FoldName(e.name) in NodeNames
  {
    FoldedNodeNames();
    hide FoldName;
    var es := NodeEdits(cfg, ep);
    assert forall i, j :: 0 <= i < j < 9 ==> FoldName(es[i].name) != FoldName(es[j].name);
  }

  lemma RegionEditsDistinct(cfg: Config, nodes: seq<Json>)
    ensures Distinct(RegionEdits(cfg, nodes))
    ensures forall e :: e in RegionEdits(cfg, nodes) ==> FoldName(e.name) in RegionNames
  {
    FoldedRegionNames();
    hide FoldName;
  }

  // ---------- two edits of one name ----------

  /** Where a name put into an object is found. */
  lemma PutAt(ms: seq<Member>, name: string, v: Json)
    ensures var ms' := Do(ms, Put(name, v));
      var i := if Find(ms, name).Some? then Find(ms, name).value else |ms|;
      && Find(ms', name) == Some(i) && i < |ms'| && ms'[i].value == v
      && ms'[..i] == ms[..i] && ms'[i + 1..] == (if i < |ms| then ms[i + 1..] else [])
      && (i < |ms| ==> ms'[i] == ms[i].(value := v))
  {
    hide FoldName;
    SameFold(name, name);
    var r, ms' := Find(ms, name), Do(ms, Put(name, v));
    var i := if r.Some? then r.value else |ms|;
    assert Same(ms'[i].name, name);
    assert forall j :: 0 <= j < i ==> ms'[j] == ms[j];
    FirstIsFound(ms', name, i);
  }

  /** A name dropped from an object takes its first member out, and closes the gap. */
  lemma DropAt(ms: seq<Member>, name: string, i: nat)
    requires i < |ms| && Same(ms[i].name, name) && forall j :: 0 <= j < i ==> !Same(ms[j].name, name)
    ensures Do(ms, Drop(name)) == ms[..i] + ms[i + 1..]
  {
    FirstIsFound(ms, name, i);
  }

  lemma PutThenDrop(ms: seq<Member>, name: string, v: Json)
    ensures Do(Do(ms, Put(name, v)), Drop(name)) == Do(ms, Drop(name))
  {
    hide Same;
    PutAt(ms, name, v);
  }

  lemma PutThenPut(ms: seq<Member>, name: string, v: Json, w: Json)
    ensures Do(Do(ms, Put(name, v)), Put(name, w)) == Do(ms, Put(name, w))
    ensures Get(Do(ms, Put(name, v)), name) == Some(v)
  {
    hide Same;
    PutAt(ms, name, v);
  }

  /** Putting back what is there changes nothing; dropping what is absent changes nothing. */
  lemma EditsWithoutEffect(ms: seq<Member>, name: string)
    ensures Get(ms, name).Some? ==> Do(ms, Put(name, Get(ms, name).value)) == ms
    ensures Get(ms, name).None? ==> Do(ms, Drop(name)) == ms
  {
  }

  // ---------- the objects on the way ----------

  function MembersOf(v: Option<Json>): seq<Member> {
    if Members(v).Some? then Members(v).value else []
  }

  function MapOf(root: Json): seq<Member> {
    if root.Obj? then MembersOf(Get(root.members, "derpMap")) else []
  }

  function RegionsOf(root: Json): seq<Member> {
    MembersOf(Get(MapOf(root), "regions"))
  }

  predicate HasRegion(root: Json, cfg: Config) {
    Get(RegionsOf(root), cfg.regionKey).Some?
  }

  function RegionOf(root: Json, cfg: Config): seq<Member> {
    MembersOf(Get(RegionsOf(root), cfg.regionKey))
  }

  function ElementsOf(v: Option<Json>): seq<Json> {
    if v.Some? && v.value.Arr? then v.value.elements else []
  }

  function NodesOf(root: Json, cfg: Config): seq<Json> {
    ElementsOf(Get(RegionOf(root, cfg), "nodes"))
  }

  /** The index of this node among the nodes of its region: its own, or that of a new last one. */
  function NodeIndex(nodes: seq<Json>, cfg: Config): (i: nat)
    ensures i <= |nodes| && (i < |nodes| ==> nodes[i].Obj?)
  {
    var r := FindNode(nodes, cfg.nodeName);
    if r.Ok? && r.value.Some? then r.value.value else |nodes|
  }

  /** The fields of this node, none if it is new. */
  function NodeFields(nodes: seq<Json>, cfg: Config): seq<Member> {
    var i := NodeIndex(nodes, cfg);
    if i < |nodes| then nodes[i].members else []
  }

  function NewNode(nodes: seq<Json>, cfg: Config, ep: Endpoint): seq<Member> {
    Apply(NodeFields(nodes, cfg), NodeEdits(cfg, ep))
  }

  /** Every other node stays as it is, in its place. */
  function NewNodes(nodes: seq<Json>, cfg: Config, ep: Endpoint): seq<Json> {
    var i := NodeIndex(nodes, cfg);
    nodes[..i] + [Obj(NewNode(nodes, cfg, ep))] + if i < |nodes| then nodes[i + 1..] else []
  }

  lemma NodesShape(nodes: seq<Json>, cfg: Config, ep: Endpoint, known: bool)
    requires PublishNodes(nodes, cfg, ep, known).Ok?
    ensures PublishNodes(nodes, cfg, ep, known).value == NewNodes(nodes, cfg, ep)
    ensures known ==> NodeIndex(nodes, cfg) < |nodes|
  {
    hide Apply, NodeEdits, Ownership, Inspect;
  }

  /** What a successful publish returns, level by level. */
  lemma PublishShape(root: Json, cfg: Config, ep: Endpoint)
    requires Publish(root, cfg, ep).Ok?
    ensures var t := Publish(root, cfg, ep).value;
      && root.Obj? && t.Obj?
      && t.members == Do(root.members, Put("derpMap", Obj(MapOf(t))))
      && MapOf(t) == Do(MapOf(root), Put("regions", Obj(RegionsOf(t))))
      && RegionsOf(t) == Do(RegionsOf(root), Put(cfg.regionKey, Obj(RegionOf(t, cfg))))
      && RegionOf(t, cfg) == Apply(RegionOf(root, cfg), RegionEdits(cfg, NodesOf(t, cfg)))
      && NodesOf(t, cfg) == NewNodes(NodesOf(root, cfg), cfg, ep)
      && HasRegion(t, cfg)
      && (HasRegion(root, cfg) ==> NodeIndex(NodesOf(root, cfg), cfg) < |NodesOf(root, cfg)|)
      && (!HasRegion(root, cfg) ==> NodesOf(root, cfg) == [])
  {
    hide Do, Get, Apply, NodeEdits, RegionEdits, FindNode, Ownership;
    var t := Publish(root, cfg, ep).value;
    var dm, rs := MapOf(root), RegionsOf(root);
    var rs' := PublishRegions(rs, cfg, ep).value;
    var dm' := PublishMap(dm, cfg, ep).value;
    var r' := PublishRegion(RegionOf(root, cfg), cfg, ep, HasRegion(root, cfg)).value;
    PutThenPut(root.members, "derpMap", Obj(dm'), Null);
    PutThenPut(dm, "regions", Obj(rs'), Null);
    PutThenPut(rs, cfg.regionKey, Obj(r'), Null);
    RegionShape(RegionOf(root, cfg), cfg, ep, HasRegion(root, cfg));
    assert !HasRegion(root, cfg) ==> RegionOf(root, cfg) == [];
    NoMember("nodes");
  }

  lemma NoMember(name: string)
    ensures Get([], name).None?
  {
  }

  lemma RegionShape(region: seq<Member>, cfg: Config, ep: Endpoint, known: bool)
    requires PublishRegion(region, cfg, ep, known).Ok?
    ensures var nodes := ElementsOf(Get(region, "nodes"));
      var r := PublishRegion(region, cfg, ep, known).value;
      && r == Apply(region, RegionEdits(cfg, NewNodes(nodes, cfg, ep)))
      && ElementsOf(Get(r, "nodes")) == NewNodes(nodes, cfg, ep)
      && (known ==> NodeIndex(nodes, cfg) < |nodes|)
  {
    hide Do, Get, Apply, RegionEdits, Ownership, PublishNodes, NewNodes, NodeIndex;
    var nodes := ElementsOf(Get(region, "nodes"));
    NodesShape(nodes, cfg, ep, known);
    RegionSays(region, cfg, NewNodes(nodes, cfg, ep));
  }

  lemma RegionSays(region: seq<Member>, cfg: Config, nodes: seq<Json>)
    ensures var r := Apply(region, RegionEdits(cfg, nodes));
      && Get(r, "nodes") == Some(Arr(nodes))
      && Get(r, "regionCode") == Some(Text(cfg.regionCode))
      && Get(r, "regionName") == Some(Text(cfg.regionName))
      && Get(r, "regionID") == Some(Number(cfg.regionID))
  {
    hide Get, Apply, Distinct;
    var es := RegionEdits(cfg, nodes);
    RegionEditsDistinct(cfg, nodes);
    ApplyOne(region, es, 0);
    ApplyOne(region, es, 1);
    ApplyOne(region, es, 2);
    ApplyOne(region, es, 3);
  }

  // ---------- publish ----------

  /** A successful publish keeps every unmanaged member of the document, of the map, of the region table and
      of the region, every other node, and every unknown field of this node, all unchanged and in order. */
  lemma PublishFrame(root: Json, cfg: Config, ep: Endpoint)
    requires Publish(root, cfg, ep).Ok?
    ensures var t := Publish(root, cfg, ep).value;
      var i := NodeIndex(NodesOf(root, cfg), cfg);
      && root.Obj? && t.Obj?
      && Others(t.members, {FoldName("derpMap")}) == Others(root.members, {FoldName("derpMap")})
      && Others(MapOf(t), {FoldName("regions")}) == Others(MapOf(root), {FoldName("regions")})
      && Others(RegionsOf(t), {FoldName(cfg.regionKey)}) == Others(RegionsOf(root), {FoldName(cfg.regionKey)})
      && Others(RegionOf(t, cfg), RegionNames) == Others(RegionOf(root, cfg), RegionNames)
      && NodesOf(t, cfg) == NewNodes(NodesOf(root, cfg), cfg, ep)
      && Others(NewNode(NodesOf(root, cfg), cfg, ep), NodeNames) ==
          Others(NodeFields(NodesOf(root, cfg), cfg), NodeNames)
  {
    hide Do, Get, Apply, Others, FoldName, NodeEdits, RegionEdits, Publish;
    PublishShape(root, cfg, ep);
    var t := Publish(root, cfg, ep).value;
    DoFrame(root.members, Put("derpMap", Obj(MapOf(t))), {FoldName("derpMap")});
    DoFrame(MapOf(root), Put("regions", Obj(RegionsOf(t))), {FoldName("regions")});
    DoFrame(RegionsOf(root), Put(cfg.regionKey, Obj(RegionOf(t, cfg))), {FoldName(cfg.regionKey)});
    RegionEditsDistinct(cfg, NodesOf(t, cfg));
    ApplyFrame(RegionOf(root, cfg), RegionEdits(cfg, NodesOf(t, cfg)), RegionNames);
    NodeEditsDistinct(cfg, ep);
    ApplyFrame(NodeFields(NodesOf(root, cfg), cfg), NodeEdits(cfg, ep), NodeNames);
  }

  /** A region that was there before keeps its number of nodes: publish only rewrites this node in it. */
  lemma NoNodeAddedToForeignRegion(root: Json, cfg: Config, ep: Endpoint)
    requires Publish(root, cfg, ep).Ok? && HasRegion(root, cfg)
    ensures var t := Publish(root, cfg, ep).value;
      var nodes, i := NodesOf(root, cfg), NodeIndex(NodesOf(root, cfg), cfg);
      && i < |nodes| && Inspect(nodes[i], cfg.nodeName) == Ok(true)
      && NodesOf(t, cfg) == nodes[i := Obj(NewNode(nodes, cfg, ep))]
  {
    hide Do, Get, Apply, NodeEdits, RegionEdits, Publish, Inspect;
    PublishShape(root, cfg, ep);
  }

  // ---------- when they succeed ----------

  /** The object carries this region id, as a number. */
  predicate OwnId(ms: seq<Member>, id: int) {
    Get(ms, "regionID").Some? && Get(ms, "regionID").value.Num? && Get(ms, "regionID").value.n == id
  }

  /** The element is an object without a name, or with another name. */
  predicate OtherNode(node: Json, name: string) {
    && node.Obj?
    && var v := Get(node.members, "name");
       v.None? || (v.value.Str? && v.value.text != name)
  }

  /** The first element of this name is at `i`, with nothing malformed before it. */
  predicate NodeAt(nodes: seq<Json>, name: string, i: nat) {
    && i < |nodes| && nodes[i].Obj?
    && Get(nodes[i].members, "name").Some? && Get(nodes[i].members, "name").value.Str?
    && Get(nodes[i].members, "name").value.text == name
    && forall j :: 0 <= j < i ==> OtherNode(nodes[j], name)
  }

  lemma OwnershipIs(ms: seq<Member>, id: int)
    ensures Ownership(ms, id).None? <==> OwnId(ms, id)
  {
    hide Get;
  }

  lemma InspectIs(node: Json, name: string)
    ensures Inspect(node, name) == Ok(false) <==> OtherNode(node, name)
    ensures Inspect(node, name) == Ok(true) <==> NodeAt([node], name, 0)
  {
    hide Get;
  }

  lemma FoundIs(nodes: seq<Json>, name: string, i: nat)
    ensures FindNode(nodes, name) == Ok(Some(i)) <==> NodeAt(nodes, name, i)
  {
    forall j | 0 <= j < |nodes|
      ensures Inspect(nodes[j], name) == Ok(false) <==> OtherNode(nodes[j], name)
    {
      InspectIs(nodes[j], name);
    }
    if i < |nodes| { InspectIs(nodes[i], name); }
    hide Inspect, OtherNode, Get;
    if NodeAt(nodes, name, i) { FirstNodeFound(nodes, name, i); }
  }

  lemma {:induction false} NotFoundIs(nodes: seq<Json>, name: string)
    ensures FindNode(nodes, name) == Ok(None) <==> forall j :: 0 <= j < |nodes| ==> OtherNode(nodes[j], name)
  {
    if nodes != [] {
      NotFoundIs(nodes[1..], name);
      InspectIs(nodes[0], name);
      hide Inspect, OtherNode;
      assert forall j :: 0 <= j < |nodes| - 1 ==> nodes[1..][j] == nodes[j + 1];
      if forall j :: 0 <= j < |nodes| ==> OtherNode(nodes[j], name) {
        assert OtherNode(nodes[0], name);
      }
      if OtherNode(nodes[0], name) && forall j :: 0 <= j < |nodes[1..]| ==> OtherNode(nodes[1..][j], name) {
        forall j | 0 <= j < |nodes|
          ensures OtherNode(nodes[j], name)
        {
          assert j > 0 ==> nodes[j] == nodes[1..][j - 1];
        }
      }
    }
  }

  /** Nothing on the path to the region is of the wrong kind. */
  predicate WellFormed(root: Json, cfg: Config) {
    && root.Obj?
    && Members(Get(root.members, "derpMap")).Some?
    && Members(Get(MapOf(root), "regions")).Some?
    && Members(Get(RegionsOf(root), cfg.regionKey)).Some?
  }

  /** The region is this program's, and holds this program's node. */
  ghost predicate OwnNodeIn(region: seq<Member>, cfg: Config) {
    && OwnId(region, cfg.regionID)
    && Get(region, "nodes").Some? && Get(region, "nodes").value.Arr?
    && exists i: nat :: NodeAt(Get(region, "nodes").value.elements, cfg.nodeName, i)
         && OwnId(Get(region, "nodes").value.elements[i].members, cfg.regionID)
  }

  /** Publish succeeds if and only if nothing on the path is of the wrong kind and an existing region is this
      program's own: it carries this id, and its first node of this name does too. */
  lemma PublishSucceedsIff(root: Json, cfg: Config, ep: Endpoint)
    ensures Publish(root, cfg, ep).Ok? <==>
      WellFormed(root, cfg) && (HasRegion(root, cfg) ==> OwnNodeIn(RegionOf(root, cfg), cfg))
  {
    hide Do, Get, Apply, NodeEdits, RegionEdits, Ownership, FindNode, OwnId, NodeAt;
    NoMember("nodes");
    OwnershipIs(RegionOf(root, cfg), cfg.regionID);
    NodesOwned(NodesOf(root, cfg), cfg);
    NothingFound(cfg.nodeName);
  }

  lemma NothingFound(name: string)
    ensures FindNode([], name) == Ok(None)
  {
  }

  lemma NodesOwned(nodes: seq<Json>, cfg: Config)
    ensures (exists i: nat :: NodeAt(nodes, cfg.nodeName, i) && OwnId(nodes[i].members, cfg.regionID)) <==>
      var r := FindNode(nodes, cfg.nodeName);
      r.Ok? && r.value.Some? && Ownership(nodes[r.value.value].members, cfg.regionID).None?
  {
    var r := FindNode(nodes, cfg.nodeName);
    if r.Ok? && r.value.Some? {
      FoundIs(nodes, cfg.nodeName, r.value.value);
      OwnershipIs(nodes[r.value.value].members, cfg.regionID);
    }
    if i: nat :| NodeAt(nodes, cfg.nodeName, i) && OwnId(nodes[i].members, cfg.regionID) {
      FoundIs(nodes, cfg.nodeName, i);
      OwnershipIs(nodes[i].members, cfg.regionID);
    }
    hide FindNode, Ownership, OwnId, NodeAt;
  }

  /** Withdraw succeeds if and only if nothing on the path is of the wrong kind and an existing region carries this
      id, with no list of nodes, or one without this node, or with this node carrying this id too. */
  lemma WithdrawSucceedsIff(root: Json, cfg: Config)
    ensures Withdraw(root, cfg).Ok? <==>
      && WellFormed(root, cfg)
      && (HasRegion(root, cfg) ==>
            var region := RegionOf(root, cfg);
            && OwnId(region, cfg.regionID)
            && (Get(region, "nodes").None? || OwnNodeIn(region, cfg) || NoNodeIn(region, cfg)))
  {
    hide Do, Get, Ownership, FindNode, OwnId, NodeAt, OtherNode;
    NoMember("regions");
    NoMember(cfg.regionKey);
    OwnershipIs(RegionOf(root, cfg), cfg.regionID);
    NodesOwned(NodesOf(root, cfg), cfg);
    NotFoundIs(NodesOf(root, cfg), cfg.nodeName);
  }

  /** The region has a list of nodes, all well formed and none of this name. */
  predicate NoNodeIn(region: seq<Member>, cfg: Config) {
    && Get(region, "nodes").Some? && Get(region, "nodes").value.Arr?
    && var nodes := Get(region, "nodes").value.elements;
       forall j :: 0 <= j < |nodes| ==> OtherNode(nodes[j], cfg.nodeName)
  }

  /** Neither touches what is not this program's: a region or node is only ever changed if it carries this id. */
  lemma ChangesOnlyOwn(root: Json, cfg: Config, ep: Endpoint)
    ensures Publish(root, cfg, ep).Ok? && HasRegion(root, cfg) ==> OwnNodeIn(RegionOf(root, cfg), cfg)
    ensures Withdraw(root, cfg).Ok? && Withdraw(root, cfg).value != root ==>
      HasRegion(root, cfg) && OwnNodeIn(RegionOf(root, cfg), cfg)
  {
    PublishSucceedsIff(root, cfg, ep);
    if Withdraw(root, cfg).Ok? && Withdraw(root, cfg).value != root {
      if !HoldsNode(root, cfg) { NothingToWithdraw(root, cfg); }
      hide Do, Get, Ownership, FindNode, OwnId, NodeAt, OtherNode, Publish;
      OwnershipIs(RegionOf(root, cfg), cfg.regionID);
      NodesOwned(NodesOf(root, cfg), cfg);
    }
  }

  /** A field that publish leaves out. */
  predicate Absent(ms: seq<Member>, name: string) {
    Times(ms, name) == 0
  }

  /** What the published node says: identity, ports and addresses of the endpoint. A field to drop is gone
      if it occurred at most once. */
  lemma NodeSays(node: seq<Member>, cfg: Config, ep: Endpoint)
    ensures var n := Apply(node, NodeEdits(cfg, ep));
      && Get(n, "name") == Some(Text(cfg.nodeName))
      && Get(n, "regionID") == Some(Number(cfg.regionID))
      && Get(n, "hostName") == Some(Text(cfg.hostName))
      && Get(n, "derpPort") == Some(Number(ep.derpPort))
      && Get(n, "stunPort") == Some(Number(ep.stunPort))
      && (if ep.ipv4 != "" then Get(n, "ipv4") == Some(Text(ep.ipv4))
          else Absent(n, "ipv4") <==> Times(node, "ipv4") <= 1)
      && (if ep.ipv6 != "" then Get(n, "ipv6") == Some(Text(ep.ipv6))
          else Absent(n, "ipv6") <==> Times(node, "ipv6") <= 1)
      && (if cfg.certName != "" then Get(n, "certName") == Some(Text(cfg.certName))
          else Absent(n, "certName") <==> Times(node, "certName") <= 1)
      && (if cfg.stunOnly then Get(n, "stunOnly") == Some(Bool(true))
          else Absent(n, "stunOnly") <==> Times(node, "stunOnly") <= 1)
  {
    hide Get, Apply, Distinct, Times;
    var es := NodeEdits(cfg, ep);
    NodeEditsDistinct(cfg, ep);
    ApplyOne(node, es, 0);
    ApplyOne(node, es, 1);
    ApplyOne(node, es, 2);
    ApplyOne(node, es, 3);
    ApplyOne(node, es, 4);
    ApplyOne(node, es, 5);
    ApplyOne(node, es, 6);
    ApplyOne(node, es, 7);
    ApplyOne(node, es, 8);
  }

  /** What the document says after a publish: its region table has this region with the configured code, name and
      id, and the region has this node, at the place it had or at the end, with the values NodeSays lists. */
  lemma PublishSays(root: Json, cfg: Config, ep: Endpoint)
    requires Publish(root, cfg, ep).Ok?
    ensures var t := Publish(root, cfg, ep).value;
      var region, nodes := RegionOf(t, cfg), NodesOf(t, cfg);
      var i := NodeIndex(NodesOf(root, cfg), cfg);
      && t.Obj? && Get(t.members, "derpMap") == Some(Obj(MapOf(t)))
      && Get(MapOf(t), "regions") == Some(Obj(RegionsOf(t)))
      && Get(RegionsOf(t), cfg.regionKey) == Some(Obj(region))
      && Get(region, "regionCode") == Some(Text(cfg.regionCode))
      && Get(region, "regionName") == Some(Text(cfg.regionName))
      && Get(region, "regionID") == Some(Number(cfg.regionID))
      && Get(region, "nodes") == Some(Arr(nodes))
      && i < |nodes| && nodes[i] == Obj(Apply(NodeFields(NodesOf(root, cfg), cfg), NodeEdits(cfg, ep)))
      && NodeAt(nodes, cfg.nodeName, i)
  {
    hide Do, Get, Apply, NodeEdits, RegionEdits, Publish, Ownership, PublishNodes, FindNode, NodeAt;
    PublishShape(root, cfg, ep);
    PublishedParts(root, cfg, ep);
    PublishedNodes(root, cfg, ep);
    var t := Publish(root, cfg, ep).value;
    RegionSays(RegionOf(root, cfg), cfg, NodesOf(t, cfg));
    OwnNodeFound(NodesOf(root, cfg), cfg, ep);
    FoundIs(NodesOf(t, cfg), cfg.nodeName, NodeIndex(NodesOf(root, cfg), cfg));
  }

  /** The members that edits make of an empty object: what they put, in their order. */
  function PutsOf(edits: seq<Edit>): seq<Member> {
    if edits == [] then []
    else
      var e, before := edits[|edits| - 1], PutsOf(edits[..|edits| - 1]);
      if e.Put? then before + [Member(e.name, Plain, e.v)] else before
  }

  lemma {:induction false} PutsUnnamed(edits: seq<Edit>, name: string)
    requires forall i :: 0 <= i < |edits| ==> !Names(edits[i], name)
    ensures Find(PutsOf(edits), name).None?
  {
    hide Same;
    if edits != [] {
      var n := |edits| - 1;
      assert forall i :: 0 <= i < n ==> edits[..n][i] == edits[i];
      PutsUnnamed(edits[..n], name);
      assert !Names(edits[n], name);
      var ms := PutsOf(edits);
      assert forall i :: 0 <= i < |ms| ==> !Same(ms[i].name, name);
    }
  }

  lemma {:induction false} ApplyToNothing(edits: seq<Edit>)
    requires Distinct(edits)
    ensures Apply([], edits) == PutsOf(edits)
  {
    hide Same;
    if edits != [] {
      var n := |edits| - 1;
      assert forall i :: 0 <= i < n ==> edits[..n][i] == edits[i];
      ApplyToNothing(edits[..n]);
      PutsUnnamed(edits[..n], edits[n].name);
    }
  }

  /** A complete node and region, as the program writes them. */
  function FullNode(cfg: Config, ep: Endpoint): seq<Member> {
    [ Member("name", Plain, Str(cfg.nodeName, Plain)),
      Member("regionID", Plain, Num(cfg.regionID, Plain)),
      Member("hostName", Plain, Str(cfg.hostName, Plain)),
      Member("ipv4", Plain, Str(ep.ipv4, Plain)),
      Member("ipv6", Plain, Str(ep.ipv6, Plain)),
      Member("derpPort", Plain, Num(ep.derpPort, Plain)),
      Member("stunPort", Plain, Num(ep.stunPort, Plain)),
      Member("certName", Plain, Str(cfg.certName, Plain)),
      Member("stunOnly", Plain, Bool(true)) ]
  }

  function FullRegion(cfg: Config, nodes: seq<Json>): seq<Member> {
    [ Member("nodes", Plain, Arr(nodes)),
      Member("regionCode", Plain, Str(cfg.regionCode, Plain)),
      Member("regionName", Plain, Str(cfg.regionName, Plain)),
      Member("regionID", Plain, Num(cfg.regionID, Plain)) ]
  }

  lemma EditMakes(cfg: Config, ep: Endpoint, i: nat)
    requires ep.ipv4 != "" && ep.ipv6 != "" && cfg.certName != "" && cfg.stunOnly && i < 9
    ensures |NodeEdits(cfg, ep)| == 9 && |FullNode(cfg, ep)| == 9
    ensures NodeEdits(cfg, ep)[i].Put? && FullNode(cfg, ep)[i] == Made(NodeEdits(cfg, ep)[i])
  {
    assert i == 0 || i == 1 || i == 2 || i == 3 || i == 4 || i == 5 || i == 6 || i == 7 || i == 8;
  }

  lemma FreshNode(cfg: Config, ep: Endpoint)
    requires ep.ipv4 != "" && ep.ipv6 != "" && cfg.certName != "" && cfg.stunOnly
    ensures Apply([], NodeEdits(cfg, ep)) == FullNode(cfg, ep)
  {
    hide Apply, Distinct, PutsOf, NodeEdits, FullNode;
    var es, full := NodeEdits(cfg, ep), FullNode(cfg, ep);
    EditMakes(cfg, ep, 0);
    forall i | 0 <= i < 9
      ensures es[i].Put? && full[i] == Made(es[i])
    {
      EditMakes(cfg, ep, i);
    }
    NodeEditsDistinct(cfg, ep);
    ApplyToNothing(es);
    NinePuts(es);
  }

  lemma FreshRegion(cfg: Config, nodes: seq<Json>)
    ensures Apply([], RegionEdits(cfg, nodes)) == FullRegion(cfg, nodes)
  {
    hide Apply, Distinct, PutsOf;
    RegionEditsDistinct(cfg, nodes);
    ApplyToNothing(RegionEdits(cfg, nodes));
    FourPuts(RegionEdits(cfg, nodes));
  }

  /** Putting into an empty object. */
  lemma PutFirst(name: string, v: Json)
    ensures Do([], Put(name, v)) == [Member(name, Plain, v)]
  {
  }

  /** Publishing into an empty document writes exactly this. */
  lemma PublishFresh(cfg: Config, ep: Endpoint)
    requires ep.ipv4 != "" && ep.ipv6 != "" && cfg.certName != "" && cfg.stunOnly
    ensures var regions := [Member(cfg.regionKey, Plain, Obj(FullRegion(cfg, [Obj(FullNode(cfg, ep))])))];
      var derpMap := [Member("regions", Plain, Obj(regions))];
      Publish(Obj([]), cfg, ep) == Ok(Obj([Member("derpMap", Plain, Obj(derpMap))]))
  {
    hide Get, Do, Apply, NodeEdits, RegionEdits, FullNode, FullRegion, FindNode, Ownership;
    NoMember("derpMap");
    NoMember("regions");
    NoMember(cfg.regionKey);
    NoMember("nodes");
    NothingFound(cfg.nodeName);
    FreshNode(cfg, ep);
    var nodes := [Obj(FullNode(cfg, ep))];
    assert [] + nodes == nodes;
    FreshRegion(cfg, nodes);
    var region := Obj(FullRegion(cfg, nodes));
    PutFirst(cfg.regionKey, region);
    var regions := [Member(cfg.regionKey, Plain, region)];
    PutFirst("regions", Obj(regions));
    PutFirst("derpMap", Obj([Member("regions", Plain, Obj(regions))]));
  }

  lemma FourPuts(es: seq<Edit>)
    requires |es| == 4 && forall i :: 0 <= i < 4 ==> es[i].Put?
    ensures PutsOf(es) == [Made(es[0]), Made(es[1]), Made(es[2]), Made(es[3])]
  {
    assert es[..3][..2] == es[..2] && es[..2][..1] == es[..1] && es[..1][..0] == [];
    assert PutsOf(es[..1]) == [Made(es[0])] && PutsOf(es[..2]) == [Made(es[0]), Made(es[1])];
    assert PutsOf(es[..3]) == [Made(es[0]), Made(es[1]), Made(es[2])];
  }

  function Made(e: Edit): Member
    requires e.Put?
  {
    Member(e.name, Plain, e.v)
  }

  lemma NinePuts(es: seq<Edit>)
    requires |es| == 9 && forall i :: 0 <= i < 9 ==> es[i].Put?
    ensures |PutsOf(es)| == 9 && forall i :: 0 <= i < 9 ==> PutsOf(es)[i] == Made(es[i])
  {
    FourPuts(es[..4]);
    var n := 4;
    while n < 9
      invariant 4 <= n <= 9 && |PutsOf(es[..n])| == n
      invariant forall i :: 0 <= i < n ==> PutsOf(es[..n])[i] == Made(es[i])
    {
      assert es[..n + 1][..n] == es[..n];
      n := n + 1;
    }
    assert es[..9] == es;
  }

  // ---------- publish again ----------

  /** Every field that publish drops from the node occurs at most once. */
  ghost predicate DropsOnce(node: seq<Member>, cfg: Config, ep: Endpoint) {
    forall k :: 0 <= k < 9 && NodeEdits(cfg, ep)[k].Drop? ==> Times(node, NodeEdits(cfg, ep)[k].name) <= 1
  }

  lemma OwnNodeFound(nodes: seq<Json>, cfg: Config, ep: Endpoint)
    requires PublishNodes(nodes, cfg, ep, true).Ok? || PublishNodes(nodes, cfg, ep, false).Ok?
    ensures var now := NewNodes(nodes, cfg, ep);
      var i := NodeIndex(nodes, cfg);
      && i < |now| && now[i] == Obj(NewNode(nodes, cfg, ep)) && now[..i] == nodes[..i]
      && FindNode(now, cfg.nodeName) == Ok(Some(i))
      && Ownership(NewNode(nodes, cfg, ep), cfg.regionID).None?
  {
    NodeSays(NodeFields(nodes, cfg), cfg, ep);
    hide Get, Apply, NodeEdits, Times;
    var now, i := NewNodes(nodes, cfg, ep), NodeIndex(nodes, cfg);
    assert now[..i] == nodes[..i];
    forall j | 0 <= j < i
      ensures Inspect(now[j], cfg.nodeName) == Ok(false)
    {
      assert now[j] == nodes[j];
    }
    assert Inspect(now[i], cfg.nodeName) == Ok(true);
    hide Inspect, NewNodes;
    FirstNodeFound(now, cfg.nodeName, i);
  }

  lemma {:induction false} FirstNodeFound(nodes: seq<Json>, name: string, i: nat)
    requires i < |nodes| && Inspect(nodes[i], name) == Ok(true)
    requires forall j :: 0 <= j < i ==> Inspect(nodes[j], name) == Ok(false)
    ensures FindNode(nodes, name) == Ok(Some(i))
  {
    hide Inspect;
    if i > 0 {
      assert forall j :: 0 <= j < i - 1 ==> nodes[1..][j] == nodes[j + 1];
      FirstNodeFound(nodes[1..], name, i - 1);
    }
  }

  lemma NodesAgain(nodes: seq<Json>, cfg: Config, ep: Endpoint)
    requires PublishNodes(nodes, cfg, ep, true).Ok? || PublishNodes(nodes, cfg, ep, false).Ok?
    ensures PublishNodes(NewNodes(nodes, cfg, ep), cfg, ep, true).Ok?
    ensures NewNodes(NewNodes(nodes, cfg, ep), cfg, ep) == NewNodes(nodes, cfg, ep) <==>
      DropsOnce(NodeFields(nodes, cfg), cfg, ep)
  {
    OwnNodeFound(nodes, cfg, ep);
    NodeEditsDistinct(cfg, ep);
    ApplyTwiceIff(NodeFields(nodes, cfg), NodeEdits(cfg, ep));
    var now, i := NewNodes(nodes, cfg, ep), NodeIndex(nodes, cfg);
    var again := Apply(NewNode(nodes, cfg, ep), NodeEdits(cfg, ep));
    hide Apply, NodeEdits, Ownership, FindNode;
    assert NewNodes(now, cfg, ep) == now[..i] + [Obj(again)] + now[i + 1..];
    assert now == now[..i] + [now[i]] + now[i + 1..];
    assert NewNodes(now, cfg, ep)[i] == Obj(again);
  }

  /** After a publish the document names its own parts, so lookups lead to them. */
  lemma PublishedParts(root: Json, cfg: Config, ep: Endpoint)
    requires Publish(root, cfg, ep).Ok?
    ensures var t := Publish(root, cfg, ep).value;
      && t.Obj? && Get(t.members, "derpMap") == Some(Obj(MapOf(t)))
      && Get(MapOf(t), "regions") == Some(Obj(RegionsOf(t)))
      && Get(RegionsOf(t), cfg.regionKey) == Some(Obj(RegionOf(t, cfg)))
      && Get(RegionOf(t, cfg), "nodes") == Some(Arr(NodesOf(t, cfg)))
      && Ownership(RegionOf(t, cfg), cfg.regionID).None?
  {
    hide Do, Get, Apply, RegionEdits, Publish, NewNodes;
    PublishShape(root, cfg, ep);
    var t := Publish(root, cfg, ep).value;
    PutThenPut(root.members, "derpMap", Obj(MapOf(t)), Null);
    PutThenPut(MapOf(root), "regions", Obj(RegionsOf(t)), Null);
    PutThenPut(RegionsOf(root), cfg.regionKey, Obj(RegionOf(t, cfg)), Null);
    RegionSays(RegionOf(root, cfg), cfg, NodesOf(t, cfg));
  }

  /** The nodes that a successful publish started from could be published. */
  lemma PublishedNodes(root: Json, cfg: Config, ep: Endpoint)
    requires Publish(root, cfg, ep).Ok?
    ensures PublishNodes(NodesOf(root, cfg), cfg, ep, HasRegion(root, cfg)).Ok?
  {
    hide Do, Get, Apply, NodeEdits, RegionEdits, Ownership, PublishNodes;
  }

  lemma PublishAgainOk(root: Json, cfg: Config, ep: Endpoint)
    requires Publish(root, cfg, ep).Ok?
    ensures Publish(Publish(root, cfg, ep).value, cfg, ep).Ok?
  {
    var t := Publish(root, cfg, ep).value;
    hide Do, Get, Apply, NodeEdits, RegionEdits, Ownership, PublishNodes, NewNodes, DropsOnce;
    PublishedParts(root, cfg, ep);
    PublishedNodes(root, cfg, ep);
    PublishShape(root, cfg, ep);
    NodesAgain(NodesOf(root, cfg), cfg, ep);
  }

  /** Publishing the same values again always succeeds. It reports the document unchanged if and only if each
      field that publish drops from the node occurred at most once in it. */
  lemma PublishTwiceIff(root: Json, cfg: Config, ep: Endpoint)
    requires Publish(root, cfg, ep).Ok?
    ensures var t := Publish(root, cfg, ep).value;
      && Publish(t, cfg, ep).Ok?
      && (Publish(t, cfg, ep).value == t <==> DropsOnce(NodeFields(NodesOf(root, cfg), cfg), cfg, ep))
  {
    hide Do, Get, Apply, NodeEdits, RegionEdits, Publish, Ownership, PublishNodes, NewNodes, DropsOnce;
    PublishAgainOk(root, cfg, ep);
    var t := Publish(root, cfg, ep).value;
    var u := Publish(t, cfg, ep).value;
    PublishShape(root, cfg, ep);
    PublishShape(t, cfg, ep);
    PublishedNodes(root, cfg, ep);
    NodesAgain(NodesOf(root, cfg), cfg, ep);
    PublishedParts(root, cfg, ep);
    if NodesOf(u, cfg) == NodesOf(t, cfg) {
      RegionTwice(RegionOf(root, cfg), cfg, NodesOf(t, cfg));
      EditsWithoutEffect(RegionsOf(t), cfg.regionKey);
      EditsWithoutEffect(MapOf(t), "regions");
      EditsWithoutEffect(t.members, "derpMap");
      assert u.members == t.members;
    }
  }

  lemma RegionTwice(region: seq<Member>, cfg: Config, nodes: seq<Json>)
    ensures var es := RegionEdits(cfg, nodes); Apply(Apply(region, es), es) == Apply(region, es)
  {
    RegionEditsDistinct(cfg, nodes);
    ApplyTwiceIff(region, RegionEdits(cfg, nodes));
  }

  // ---------- withdraw what was published ----------

  /** The document without an empty Regions object, and then without an empty derpMap object. */
  function Cleanup(root: Json): Json
    requires root.Obj?
  {
    var derpMap := if RegionsOf(root) == [] then Do(MapOf(root), Drop("regions")) else MapOf(root);
    Obj(Do(root.members, if derpMap == [] then Drop("derpMap") else Put("derpMap", Obj(derpMap))))
  }

  lemma WithdrawPublishedRegions(root: Json, cfg: Config, ep: Endpoint)
    requires Publish(root, cfg, ep).Ok? && !HasRegion(root, cfg)
    ensures WithdrawRegions(RegionsOf(Publish(root, cfg, ep).value), cfg) == Ok(Some(RegionsOf(root)))
  {
    hide Do, Get, Apply, NodeEdits, RegionEdits, Publish, Ownership, FindNode;
    var t := Publish(root, cfg, ep).value;
    PublishShape(root, cfg, ep);
    PublishedParts(root, cfg, ep);
    PublishedNodes(root, cfg, ep);
    OwnNodeFound([], cfg, ep);
    PutThenDrop(RegionsOf(root), cfg.regionKey, Obj(RegionOf(t, cfg)));
    EditsWithoutEffect(RegionsOf(root), cfg.regionKey);
  }

  /** If the region was not there before, publishing and then withdrawing gives the document back, except for
      an empty Regions object or derpMap object, which withdraw removes. */
  lemma WithdrawUndoesPublish(root: Json, cfg: Config, ep: Endpoint)
    requires Publish(root, cfg, ep).Ok? && !HasRegion(root, cfg)
    ensures root.Obj? && Withdraw(Publish(root, cfg, ep).value, cfg) == Ok(Cleanup(root))
  {
    hide Do, Get, Apply, NodeEdits, RegionEdits, Publish, Ownership, WithdrawRegions, NewNodes;
    var t := Publish(root, cfg, ep).value;
    PublishShape(root, cfg, ep);
    PublishedParts(root, cfg, ep);
    WithdrawPublishedRegions(root, cfg, ep);
    var rs, dm := RegionsOf(root), MapOf(root);
    PutThenDrop(dm, "regions", Obj(RegionsOf(t)));
    PutThenPut(dm, "regions", Obj(RegionsOf(t)), Obj(rs));
    EditsWithoutEffect(dm, "regions");
    assert rs != [] ==> Get(dm, "regions") == Some(Obj(rs));
    PutThenDrop(root.members, "derpMap", Obj(MapOf(t)));
    var derpMap := if rs == [] then Do(dm, Drop("regions")) else dm;
    PutThenPut(root.members, "derpMap", Obj(MapOf(t)), Obj(derpMap));
  }

  // ---------- withdraw again ----------

  lemma {:induction false} FindNodeSkips(a: seq<Json>, b: seq<Json>, name: string)
    requires forall j :: 0 <= j < |a| ==> Inspect(a[j], name) == Ok(false)
    ensures FindNode(a + b, name) == Shifted(FindNode(b, name), |a|)
  {
    hide Inspect;
    if a == [] {
      assert a + b == b;
    } else {
      assert (a + b)[1..] == a[1..] + b;
      FindNodeSkips(a[1..], b, name);
    }
  }

  /** Withdrawing changes the document whenever it does not report that there was nothing to do. */
  lemma WithdrawChanges(regions: seq<Member>, derpMap: seq<Member>, cfg: Config)
    ensures var r := WithdrawRegions(regions, cfg); r.Ok? && r.value.Some? ==> r.value.value != regions
    ensures var r := WithdrawMap(derpMap, cfg); r.Ok? && r.value.Some? ==> r.value.value != derpMap
  {
    RegionsChange(regions, cfg);
    var inner := Get(derpMap, "regions");
    if inner.Some? && inner.value.Obj? {
      RegionsChange(inner.value.members, cfg);
      var r := WithdrawRegions(inner.value.members, cfg);
      hide WithdrawRegions;
      if r.Ok? && r.value.Some? {
        EditShows(derpMap, "regions", Obj(r.value.value));
      }
    }
  }

  /** Dropping a member, or putting another value, shows. */
  lemma EditShows(ms: seq<Member>, name: string, v: Json)
    requires Get(ms, name).Some?
    ensures Do(ms, Drop(name)) != ms
    ensures Get(ms, name) != Some(v) ==> Do(ms, Put(name, v)) != ms
  {
    PutThenPut(ms, name, v, v);
    var i := Find(ms, name).value;
    assert |Do(ms, Drop(name))| == |ms| - 1;
  }

  lemma RegionsChange(regions: seq<Member>, cfg: Config)
    ensures var r := WithdrawRegions(regions, cfg); r.Ok? && r.value.Some? ==> r.value.value != regions
  {
    hide Do, Get, FindNode, Ownership;
    var r := WithdrawRegions(regions, cfg);
    if r.Ok? && r.value.Some? {
      var region := Get(regions, cfg.regionKey).value.members;
      var nodes := Get(region, "nodes").value.elements;
      var rest := WithdrawNodes(nodes, cfg).value.value;
      assert |rest| < |nodes|;
      EditShows(region, "nodes", Arr(rest));
      EditShows(regions, cfg.regionKey, Obj(Do(region, Put("nodes", Arr(rest)))));
    }
  }

  /** No name on the way to the region occurs twice. */
  predicate UniquePath(root: Json, cfg: Config) {
    && root.Obj? && Times(root.members, "derpMap") <= 1
    && Times(MapOf(root), "regions") <= 1 && Times(RegionsOf(root), cfg.regionKey) <= 1
  }

  /** The path to the nodes is there and is this program's, and the node is in it. */
  predicate HoldsNode(root: Json, cfg: Config) {
    && root.Obj? && Get(root.members, "derpMap") == Some(Obj(MapOf(root)))
    && Get(MapOf(root), "regions") == Some(Obj(RegionsOf(root)))
    && Get(RegionsOf(root), cfg.regionKey) == Some(Obj(RegionOf(root, cfg)))
    && Get(RegionOf(root, cfg), "nodes") == Some(Arr(NodesOf(root, cfg)))
    && NodeIndex(NodesOf(root, cfg), cfg) < |NodesOf(root, cfg)|
  }

  /** The nodes behind this node. */
  function NodesBehind(root: Json, cfg: Config): seq<Json> {
    var i := NodeIndex(NodesOf(root, cfg), cfg);
    if i < |NodesOf(root, cfg)| then NodesOf(root, cfg)[i + 1..] else []
  }

  /** Without this node in it, a document is left as it is, or rejected. */
  lemma NothingToWithdraw(root: Json, cfg: Config)
    requires Withdraw(root, cfg).Ok? && !HoldsNode(root, cfg)
    ensures Withdraw(root, cfg) == Ok(root)
  {
    hide Do, Get, Ownership, Inspect;
  }

  // ---------- nothing of this program at a level ----------

  /** The first region of this key is absent, or is this program's own and does not hold this node. */
  predicate ClearRegions(regions: seq<Member>, cfg: Config) {
    match Get(regions, cfg.regionKey)
    case None => true
    case Some(Obj(region)) =>
      && Ownership(region, cfg.regionID).None?
      && (match Get(region, "nodes")
          case None => true
          case Some(Arr(nodes)) => FindNode(nodes, cfg.nodeName) == Ok(None)
          case Some(_) => false)
    case Some(_) => false
  }

  predicate ClearMap(derpMap: seq<Member>, cfg: Config) {
    match Get(derpMap, "regions")
    case None => true
    case Some(Obj(regions)) => ClearRegions(regions, cfg)
    case Some(_) => false
  }

  predicate ClearRoot(members: seq<Member>, cfg: Config) {
    match Get(members, "derpMap")
    case None => true
    case Some(Obj(derpMap)) => ClearMap(derpMap, cfg)
    case Some(_) => false
  }

  /** Withdraw leaves a document alone exactly if it is clear. */
  lemma ClearIff(members: seq<Member>, cfg: Config)
    ensures Withdraw(Obj(members), cfg) == Ok(Obj(members)) <==> ClearRoot(members, cfg)
  {
    var v := Get(members, "derpMap");
    hide Do, Get, FindNode, Ownership;
    if v.Some? && v.value.Obj? {
      var dm := v.value.members;
      ClearMapIff(dm, cfg);
      WithdrawChanges([], dm, cfg);
      hide WithdrawMap, ClearMap;
      var r := WithdrawMap(dm, cfg);
      if r.Ok? && r.value.Some? { EditShows(members, "derpMap", Obj(r.value.value)); }
    }
  }

  lemma ClearMapIff(derpMap: seq<Member>, cfg: Config)
    ensures WithdrawMap(derpMap, cfg) == Ok(None) <==> ClearMap(derpMap, cfg)
  {
    hide Do, Get, FindNode, Ownership;
  }

  // ---------- what is left after the last node of a region ----------

  function RegionsLeft(root: Json, cfg: Config): seq<Member> {
    Do(RegionsOf(root), Drop(cfg.regionKey))
  }

  function MapLeft(root: Json): seq<Member> {
    Do(MapOf(root), Drop("regions"))
  }

  function RootLeft(root: Json): seq<Member>
    requires root.Obj?
  {
    Do(root.members, Drop("derpMap"))
  }

  /** The last node of a region takes the region with it; an emptied region table and map go too. */
  lemma LastNodeLeaves(root: Json, cfg: Config)
    requires Withdraw(root, cfg).Ok? && HoldsNode(root, cfg) && |NodesOf(root, cfg)| == 1
    ensures var t := Withdraw(root, cfg).value;
      && t.Obj?
      && (RegionsLeft(root, cfg) != [] ==>
            && t.members == Do(root.members, Put("derpMap", Obj(MapOf(t))))
            && Get(t.members, "derpMap") == Some(Obj(MapOf(t)))
            && MapOf(t) == Do(MapOf(root), Put("regions", Obj(RegionsLeft(root, cfg))))
            && Get(MapOf(t), "regions") == Some(Obj(RegionsLeft(root, cfg))))
      && (RegionsLeft(root, cfg) == [] && MapLeft(root) != [] ==>
            && t.members == Do(root.members, Put("derpMap", Obj(MapLeft(root))))
            && Get(t.members, "derpMap") == Some(Obj(MapLeft(root))))
      && (RegionsLeft(root, cfg) == [] && MapLeft(root) == [] ==> t.members == RootLeft(root))
  {
    hide Do, Get, Ownership, WithdrawNodes, NodeIndex;
    var nodes := NodesOf(root, cfg);
    WithdrawNodesIs(nodes, cfg);
    assert nodes[..NodeIndex(nodes, cfg)] + nodes[NodeIndex(nodes, cfg) + 1..] == [];
    var rs := RegionsLeft(root, cfg);
    var dm := Do(MapOf(root), Put("regions", Obj(rs)));
    PutThenPut(MapOf(root), "regions", Obj(rs), Null);
    NoMember("regions");
    PutThenPut(root.members, "derpMap", Obj(dm), Null);
    PutThenPut(root.members, "derpMap", Obj(MapLeft(root)), Null);
  }

  lemma WithdrawNodesIs(nodes: seq<Json>, cfg: Config)
    requires NodeIndex(nodes, cfg) < |nodes| && WithdrawNodes(nodes, cfg).Ok?
    ensures var i := NodeIndex(nodes, cfg); WithdrawNodes(nodes, cfg) == Ok(Some(nodes[..i] + nodes[i + 1..]))
  {
    hide Ownership, Inspect;
  }

  lemma StillOwned(region: seq<Member>, nodes: seq<Json>, id: int)
    ensures Ownership(Do(region, Put("nodes", Arr(nodes))), id) == Ownership(region, id)
  {
    FoldedRegionNames();
    hide FoldName, Get, Do;
    DoGet(region, Put("nodes", Arr(nodes)), "regionID");
  }

  /** With other nodes left, the document keeps the path and loses this node only. */
  lemma OneNodeLeaves(root: Json, cfg: Config)
    requires Withdraw(root, cfg).Ok? && HoldsNode(root, cfg) && |NodesOf(root, cfg)| > 1
    ensures var t := Withdraw(root, cfg).value;
      var i := NodeIndex(NodesOf(root, cfg), cfg);
      && t.Obj? && Get(t.members, "derpMap") == Some(Obj(MapOf(t)))
      && Get(MapOf(t), "regions") == Some(Obj(RegionsOf(t)))
      && Get(RegionsOf(t), cfg.regionKey) == Some(Obj(RegionOf(t, cfg)))
      && Get(RegionOf(t, cfg), "nodes") == Some(Arr(NodesOf(t, cfg)))
      && NodesOf(t, cfg) == NodesOf(root, cfg)[..i] + NodesOf(root, cfg)[i + 1..]
      && Ownership(RegionOf(t, cfg), cfg.regionID).None?
      && t.members == Do(root.members, Put("derpMap", Obj(MapOf(t))))
      && MapOf(t) == Do(MapOf(root), Put("regions", Obj(RegionsOf(t))))
      && RegionsOf(t) == Do(RegionsOf(root), Put(cfg.regionKey, Obj(RegionOf(t, cfg))))
      && RegionOf(t, cfg) == Do(RegionOf(root, cfg), Put("nodes", Arr(NodesOf(t, cfg))))
  {
    hide Do, Get, Ownership, WithdrawNodes, NodeIndex;
    var nodes, region := NodesOf(root, cfg), RegionOf(root, cfg);
    WithdrawNodesIs(nodes, cfg);
    var i := NodeIndex(nodes, cfg);
    var rest := nodes[..i] + nodes[i + 1..];
    StillOwned(region, rest, cfg.regionID);
    var region' := Do(region, Put("nodes", Arr(rest)));
    PutThenPut(region, "nodes", Arr(rest), Null);
    var rs' := Do(RegionsOf(root), Put(cfg.regionKey, Obj(region')));
    PutThenPut(RegionsOf(root), cfg.regionKey, Obj(region'), Null);
    NoMember(cfg.regionKey);
    var dm' := Do(MapOf(root), Put("regions", Obj(rs')));
    PutThenPut(MapOf(root), "regions", Obj(rs'), Null);
    NoMember("regions");
    PutThenPut(root.members, "derpMap", Obj(dm'), Null);
  }

  /** Withdraw keeps every member but its own, at every level, unchanged and in order: of the document always;
      of the map and of the region table as far as these stay; and of the region, with its other nodes, if it
      has any. A region table or map that goes had nothing else in it. */
  lemma WithdrawFrame(root: Json, cfg: Config)
    requires Withdraw(root, cfg).Ok?
    ensures var t := Withdraw(root, cfg).value;
      && root.Obj? && t.Obj?
      && Others(t.members, {FoldName("derpMap")}) == Others(root.members, {FoldName("derpMap")})
      && (HoldsNode(root, cfg) && |NodesOf(root, cfg)| > 1 ==> KeepsRegion(root, t, cfg))
      && (HoldsNode(root, cfg) && |NodesOf(root, cfg)| == 1 ==> DropsRegion(root, t, cfg))
  {
    hide Do, Get, Others, FoldName, Ownership, Inspect, WithdrawMap;
    var t := Withdraw(root, cfg).value;
    var rest := WithdrawMap(MapOf(root), cfg);
    if rest.Ok? && rest.value.Some? {
      DoFrame(root.members, Drop("derpMap"), {FoldName("derpMap")});
      DoFrame(root.members, Put("derpMap", Obj(rest.value.value)), {FoldName("derpMap")});
    }
    if HoldsNode(root, cfg) && |NodesOf(root, cfg)| > 1 {
      OneNodeLeaves(root, cfg);
      DoFrame(MapOf(root), Put("regions", Obj(RegionsOf(t))), {FoldName("regions")});
      DoFrame(RegionsOf(root), Put(cfg.regionKey, Obj(RegionOf(t, cfg))), {FoldName(cfg.regionKey)});
      DoFrame(RegionOf(root, cfg), Put("nodes", Arr(NodesOf(t, cfg))), {FoldName("nodes")});
    } else if HoldsNode(root, cfg) {
      LastNodeFrame(root, cfg);
    }
  }

  /** `t` is `root` without this node in its region. */
  predicate KeepsRegion(root: Json, t: Json, cfg: Config) {
    var nodes, i := NodesOf(root, cfg), NodeIndex(NodesOf(root, cfg), cfg);
    && Others(MapOf(t), {FoldName("regions")}) == Others(MapOf(root), {FoldName("regions")})
    && Others(RegionsOf(t), {FoldName(cfg.regionKey)}) == Others(RegionsOf(root), {FoldName(cfg.regionKey)})
    && Others(RegionOf(t, cfg), {FoldName("nodes")}) == Others(RegionOf(root, cfg), {FoldName("nodes")})
    && i < |nodes| && NodesOf(t, cfg) == nodes[..i] + nodes[i + 1..]
  }

  /** `t` is `root` without this region, and without a region table or map that held nothing else. */
  predicate DropsRegion(root: Json, t: Json, cfg: Config) {
    var otherRegions := Others(RegionsOf(root), {FoldName(cfg.regionKey)});
    var otherMembers := Others(MapOf(root), {FoldName("regions")});
    if RegionsLeft(root, cfg) != [] then
      && RegionsOf(t) == RegionsLeft(root, cfg)
      && Others(RegionsOf(t), {FoldName(cfg.regionKey)}) == otherRegions
      && Others(MapOf(t), {FoldName("regions")}) == otherMembers
    else
      && otherRegions == []
      && (if MapLeft(root) != []
          then MapOf(t) == MapLeft(root) && Others(MapOf(t), {FoldName("regions")}) == otherMembers
          else otherMembers == [] && root.Obj? && t == Obj(RootLeft(root)))
  }

  lemma LastNodeFrame(root: Json, cfg: Config)
    requires Withdraw(root, cfg).Ok? && HoldsNode(root, cfg) && |NodesOf(root, cfg)| == 1
    ensures DropsRegion(root, Withdraw(root, cfg).value, cfg)
  {
    hide Do, Get, Others, FoldName, Withdraw, NodeIndex;
    LastNodeLeaves(root, cfg);
    var rs := RegionsLeft(root, cfg);
    DoFrame(RegionsOf(root), Drop(cfg.regionKey), {FoldName(cfg.regionKey)});
    DoFrame(MapOf(root), Put("regions", Obj(rs)), {FoldName("regions")});
    DoFrame(MapOf(root), Drop("regions"), {FoldName("regions")});
    OthersNone({FoldName(cfg.regionKey)});
    OthersNone({FoldName("regions")});
  }

  /** What a second withdraw comes upon: the nodes behind this one or, if its region went with it, what then
      comes first by the names on the way. */
  predicate ClearBehind(root: Json, cfg: Config) {
    if |NodesOf(root, cfg)| > 1 then FindNode(NodesBehind(root, cfg), cfg.nodeName) == Ok(None)
    else if RegionsLeft(root, cfg) != [] then ClearRegions(RegionsLeft(root, cfg), cfg)
    else if MapLeft(root) != [] then ClearMap(MapLeft(root), cfg)
    else root.Obj? && ClearRoot(RootLeft(root), cfg)
  }

  /** A second withdraw succeeds and reports the document unchanged if and only if nothing was withdrawn, or what
      stood behind it was clear: no further node of this name and nothing malformed among the nodes behind, nor
      in a second region, region table or map of the same name. */
  lemma WithdrawTwiceIff(root: Json, cfg: Config)
    requires Withdraw(root, cfg).Ok?
    ensures var t := Withdraw(root, cfg).value;
      Withdraw(t, cfg) == Ok(t) <==> (HoldsNode(root, cfg) ==> ClearBehind(root, cfg))
  {
    hide Get, Ownership, Inspect, Do, Withdraw;
    var t := Withdraw(root, cfg).value;
    if !HoldsNode(root, cfg) {
      NothingToWithdraw(root, cfg);
    } else if |NodesOf(root, cfg)| == 1 {
      LastNodeLeaves(root, cfg);
      ClearIff(t.members, cfg);
      hide ClearRegions, NodeIndex, FindNode;
    } else {
      var nodes, i := NodesOf(root, cfg), NodeIndex(NodesOf(root, cfg), cfg);
      OneNodeLeaves(root, cfg);
      FindNodeSkips(nodes[..i], nodes[i + 1..], cfg.nodeName);
      ClearIff(t.members, cfg);
    }
  }

  /** Where no name on the way occurs twice, only the nodes behind this one matter. */
  lemma UniquePathClears(root: Json, cfg: Config)
    requires UniquePath(root, cfg) && HoldsNode(root, cfg)
    ensures ClearBehind(root, cfg) <==> FindNode(NodesBehind(root, cfg), cfg.nodeName) == Ok(None)
  {
    hide Get, Times, Do, Ownership, Inspect;
    DroppedIsAbsent(RegionsOf(root), cfg.regionKey);
    DroppedIsAbsent(MapOf(root), "regions");
    DroppedIsAbsent(root.members, "derpMap");
    if |NodesOf(root, cfg)| == 1 { assert NodesBehind(root, cfg) == []; }
  }

  /** A dropped name that occurred once is not found again. */
  lemma DroppedIsAbsent(ms: seq<Member>, name: string)
    requires Times(ms, name) <= 1
    ensures Get(Do(ms, Drop(name)), name).None?
  {
    SameFold(name, name);
    hide Same, Times, Do;
    DoTimes(ms, Drop(name), name) by { SameFold(name, name); }
    FindOrNone(Do(ms, Drop(name)), name);
  }

  // ---------- documents that are not stable ----------

  /** A document with one region, this program's own, holding `nodes`. */
  function Document(cfg: Config, nodes: seq<Json>): Json {
    var regions := [Member(cfg.regionKey, Plain, Obj(OwnRegion(cfg, nodes)))];
    Obj([Member("derpMap", Plain, Obj([Member("regions", Plain, Obj(regions))]))])
  }

  function OwnRegion(cfg: Config, nodes: seq<Json>): seq<Member> {
    [Member("regionID", Plain, Number(cfg.regionID)), Member("nodes", Plain, Arr(nodes))]
  }

  lemma OwnRegionParts(cfg: Config, nodes: seq<Json>)
    ensures var region := OwnRegion(cfg, nodes);
      Ownership(region, cfg.regionID).None? && Get(region, "nodes") == Some(Arr(nodes))
  {
    FoldedRegionNames();
    hide FoldName;
    GetAt(OwnRegion(cfg, nodes), "regionID", 0);
    GetAt(OwnRegion(cfg, nodes), "nodes", 1);
  }

  lemma GetAt(ms: seq<Member>, name: string, i: nat)
    requires i < |ms| && Same(ms[i].name, name) && forall j :: 0 <= j < i ==> !Same(ms[j].name, name)
    ensures Get(ms, name) == Some(ms[i].value)
  {
    FirstIsFound(ms, name, i);
  }

  lemma OneMember(name: string, v: Json)
    ensures Get([Member(name, Plain, v)], name) == Some(v) && Times([Member(name, Plain, v)], name) == 1
  {
    SameFold(name, name);
    GetAt([Member(name, Plain, v)], name, 0);
    SingleMember(Member(name, Plain, v), name, {});
  }

  lemma DocumentParts(cfg: Config, nodes: seq<Json>)
    ensures var root := Document(cfg, nodes);
      && UniquePath(root, cfg) && HasRegion(root, cfg) && Ownership(RegionOf(root, cfg), cfg.regionID).None?
      && Get(root.members, "derpMap") == Some(Obj(MapOf(root)))
      && Get(MapOf(root), "regions") == Some(Obj(RegionsOf(root)))
      && Get(RegionsOf(root), cfg.regionKey) == Some(Obj(RegionOf(root, cfg)))
      && Get(RegionOf(root, cfg), "nodes") == Some(Arr(NodesOf(root, cfg))) && NodesOf(root, cfg) == nodes
  {
    var region := OwnRegion(cfg, nodes);
    OwnRegionParts(cfg, nodes);
    hide Get, Times, FoldName, Ownership, OwnRegion;
    OneMember(cfg.regionKey, Obj(region));
    OneMember("regions", Obj([Member(cfg.regionKey, Plain, Obj(region))]));
    OneMember("derpMap", Obj([Member("regions", Plain, Obj([Member(cfg.regionKey, Plain, Obj(region))]))]));
  }

  /** The fields of a node of this program, and more. */
  function OwnNode(cfg: Config, more: seq<Member>): seq<Member> {
    [Member("name", Plain, Text(cfg.nodeName)), Member("regionID", Plain, Number(cfg.regionID))] + more
  }

  lemma OwnNodeParts(cfg: Config, more: seq<Member>, behind: seq<Json>)
    ensures var nodes := [Obj(OwnNode(cfg, more))] + behind;
      && Ownership(OwnNode(cfg, more), cfg.regionID).None?
      && FindNode(nodes, cfg.nodeName) == Ok(Some(0))
      && NodeIndex(nodes, cfg) == 0 && NodeFields(nodes, cfg) == OwnNode(cfg, more)
  {
    var node := OwnNode(cfg, more);
    FoldedNodeNames();
    hide FoldName;
    GetAt(node, "name", 0);
    GetAt(node, "regionID", 1);
    hide Same, Get;
    var nodes := [Obj(node)] + behind;
    assert Inspect(nodes[0], cfg.nodeName) == Ok(true);
    FirstNodeFound(nodes, cfg.nodeName, 0);
  }

  /** A node with its IPv4 address in it twice: publishing without an IPv4 address removes one of them, and
      publishing the same again removes the other. */
  lemma PublishTwiceCanChange(cfg: Config, ep: Endpoint) returns (root: Json)
    requires ep.ipv4 == ""
    ensures Publish(root, cfg, ep).Ok?
    ensures Publish(Publish(root, cfg, ep).value, cfg, ep) != Publish(root, cfg, ep)
  {
    var m := Member("ipv4", Plain, Text("192.0.2.1"));
    var nodes := [Obj(OwnNode(cfg, [m, m]))];
    root := Document(cfg, nodes);
    DocumentParts(cfg, nodes);
    assert nodes == [Obj(OwnNode(cfg, [m, m]))] + [];
    OwnNodeParts(cfg, [m, m], []);
    AddressTwice(cfg, m);
    assert NodeEdits(cfg, ep)[3] == Drop("ipv4");
    hide Get, Times, FoldName, Publish, Ownership, Document, NodeIndex, NodeFields;
    assert !DropsOnce(OwnNode(cfg, [m, m]), cfg, ep);
    PublishSucceedsIff(root, cfg, ep);
    PublishTwiceIff(root, cfg, ep);
  }

  lemma AddressTwice(cfg: Config, m: Member)
    requires m.name == "ipv4"
    ensures Times(OwnNode(cfg, [m, m]), "ipv4") >= 2
  {
    hide FoldName;
    SameFold("ipv4", "ipv4");
    SingleMember(m, "ipv4", {});
    assert [m, m] == [m] + [m];
    TimesConcat([m], [m], "ipv4");
    TimesConcat(OwnNode(cfg, []), [m, m], "ipv4");
    assert OwnNode(cfg, []) + [m, m] == OwnNode(cfg, [m, m]);
  }

  lemma OwnNodeIsWithdrawn(root: Json, cfg: Config)
    requires HoldsNode(root, cfg) && Ownership(RegionOf(root, cfg), cfg.regionID).None?
    requires Ownership(NodeFields(NodesOf(root, cfg), cfg), cfg.regionID).None?
    ensures Withdraw(root, cfg).Ok?
  {
    hide Get, Do, Ownership, Inspect;
  }

  /** Two nodes of this name: each withdraw removes one. */
  lemma WithdrawTwiceCanChange(cfg: Config) returns (root: Json)
    ensures UniquePath(root, cfg) && Withdraw(root, cfg).Ok?
    ensures Withdraw(Withdraw(root, cfg).value, cfg) != Withdraw(root, cfg)
  {
    var node := Obj(OwnNode(cfg, []));
    root := Document(cfg, [node, node]);
    DocumentParts(cfg, [node, node]);
    OwnNodeParts(cfg, [], [node]);
    OwnNodeParts(cfg, [], []);
    assert [node] + [node] == [node, node] && [node] + [] == [node];
    assert NodesBehind(root, cfg) == [node];
    hide Get, Times, FoldName, Ownership, Document, FindNode, OwnNode;
    hide Withdraw, WithdrawMap;
    OwnNodeIsWithdrawn(root, cfg);
    UniquePathClears(root, cfg);
    WithdrawTwiceIff(root, cfg);
  }

  /** This program's region twice in the region table, each with this one node: each withdraw removes one, though
      nothing stands behind the node. */
  lemma WithdrawTakesSecondRegion(cfg: Config) returns (root: Json)
    ensures Withdraw(root, cfg).Ok? && HoldsNode(root, cfg) && NodesBehind(root, cfg) == []
    ensures Withdraw(Withdraw(root, cfg).value, cfg) != Withdraw(root, cfg)
  {
    var nodes := [Obj(OwnNode(cfg, []))];
    var region := Obj(OwnRegion(cfg, nodes));
    var m := Member(cfg.regionKey, Plain, region);
    var derpMap := [Member("regions", Plain, Obj([m, m]))];
    root := Obj([Member("derpMap", Plain, Obj(derpMap))]);
    assert nodes == [Obj(OwnNode(cfg, []))] + [];
    OwnNodeParts(cfg, [], []);
    OwnRegionParts(cfg, nodes);
    FirstOfTwo(m);
    OneMember("regions", Obj([m, m]));
    OneMember("derpMap", Obj(derpMap));
    OneMember(cfg.regionKey, region);
    hide Get, Times, FoldName, Ownership, FindNode, OwnNode, OwnRegion, Do;
    assert NodesOf(root, cfg) == nodes && NodesBehind(root, cfg) == [];
    hide Withdraw, WithdrawMap;
    OwnNodeIsWithdrawn(root, cfg);
    assert RegionsLeft(root, cfg) == [m] && !ClearRegions([m], cfg);
    WithdrawTwiceIff(root, cfg);
  }

  lemma FirstOfTwo(m: Member)
    ensures Get([m, m], m.name) == Some(m.value) && Do([m, m], Drop(m.name)) == [m]
  {
    SameFold(m.name, m.name);
    GetAt([m, m], m.name, 0);
    FirstIsFound([m, m], m.name, 0);
  }
}
