/**
 patchDERPMap: publishing this node into the DERP map of a policy document, and withdrawing it again.
 */
module DerpMap {
  import opened Basics
  import opened Json

  /** `regionKey` is the region id in decimal. */
  datatype Config = Config(regionKey: string, regionID: int, regionCode: string, regionName: string,
                           nodeName: string, hostName: string, certName: string, stunOnly: bool)

  datatype Endpoint = Endpoint(ipv4: string, ipv6: string, derpPort: int, stunPort: int)

  datatype Problem = RootNotObject | DerpMapNotObject | RegionsNotObject | RegionNotObject | NodesNotArray
                   | NodeNotObject | NodeNameNotString | OwnershipUnclear | IdDiffers | ForeignNodes

  // ---------- helpers of the program ----------

  function Text(s: string): Json {
    Str(s, Plain)
  }

  function Number(n: int): Json {
    Num(n, Plain)
  }

  /** requireOwnedInt(object, "RegionID", id). */
  function Ownership(ms: seq<Member>, id: int): Option<Problem> {
    match Get(ms, "regionID")
    case None => Some(OwnershipUnclear)
    case Some(Num(n, _)) => if n == id then None else Some(IdDiffers)
    case Some(_) => Some(IdDiffers)
  }

  /** What findNode makes of one element: an error, not this node, or this node. */
  function Inspect(node: Json, name: string): Result<bool, Problem> {
    if !node.Obj? then Err(NodeNotObject)
    else
      match Get(node.members, "name")
      case None => Ok(false)
      case Some(Str(text, _)) => Ok(text == name)
      case Some(_) => Err(NodeNameNotString)
  }

  /** The first element that is this node; elements behind it are not looked at. */
  function FindNode(nodes: seq<Json>, name: string): (r: Result<Option<nat>, Problem>)
    ensures r.Ok? && r.value.Some? ==>
      r.value.value < |nodes| && nodes[r.value.value].Obj? && Inspect(nodes[r.value.value], name) == Ok(true)
    ensures forall i :: 0 <= i < (if r.Err? then 0 else if r.value.Some? then r.value.value else |nodes|) ==>
      Inspect(nodes[i], name) == Ok(false)
  {
    if nodes == [] then Ok(None)
    else
      match Inspect(nodes[0], name)
      case Err(e) => Err(e)
      case Ok(true) => Ok(Some(0))
      case Ok(false) =>
        match FindNode(nodes[1..], name)
        case Err(e) => Err(e)
        case Ok(None) => Ok(None)
        case Ok(Some(i)) => Ok(Some(i + 1))
  }

  method FindNodeLoop(nodes: seq<Json>, name: string) returns (r: Result<Option<nat>, Problem>)
    ensures r == FindNode(nodes, name)
  {
    hide Inspect;
    for i := 0 to |nodes|
      invariant FindNode(nodes, name) == Shifted(FindNode(nodes[i..], name), i)
    {
      var here := Inspect(nodes[i], name);
      assert nodes[i..][1..] == nodes[i + 1..];
      if here.Err? {
        return Err(here.error);
      }
      if here.value {
        return Ok(Some(i));
      }
    }
    return Ok(None);
  }

  function Shifted(r: Result<Option<nat>, Problem>, skipped: nat): Result<Option<nat>, Problem> {
    if r.Ok? && r.value.Some? then Ok(Some(r.value.value + skipped)) else r
  }

  // ---------- the tree ----------

  /** The members of an optional object; None if it is something else. */
  function Members(v: Option<Json>): Option<seq<Member>> {
    match v
    case None => Some([])
    case Some(Obj(ms)) => Some(ms)
    case Some(_) => None
  }

  function NodeEdits(cfg: Config, ep: Endpoint): seq<Edit> {
    [ Put("name", Text(cfg.nodeName)),
      Put("regionID", Number(cfg.regionID)),
      Put("hostName", Text(cfg.hostName)),
      if ep.ipv4 == "" then Drop("ipv4") else Put("ipv4", Text(ep.ipv4)),
      if ep.ipv6 == "" then Drop("ipv6") else Put("ipv6", Text(ep.ipv6)),
      Put("derpPort", Number(ep.derpPort)),
      Put("stunPort", Number(ep.stunPort)),
      if cfg.certName == "" then Drop("certName") else Put("certName", Text(cfg.certName)),
      if cfg.stunOnly then Put("stunOnly", Bool(true)) else Drop("stunOnly") ]
  }

  function RegionEdits(cfg: Config, nodes: seq<Json>): seq<Edit> {
    [ Put("nodes", Arr(nodes)),
      Put("regionCode", Text(cfg.regionCode)),
      Put("regionName", Text(cfg.regionName)),
      Put("regionID", Number(cfg.regionID)) ]
  }

  // ---------- publish ----------

  function PublishNodes(nodes: seq<Json>, cfg: Config, ep: Endpoint, regionExists: bool): Result<seq<Json>, Problem> {
    match FindNode(nodes, cfg.nodeName)
    case Err(e) => Err(e)
    case Ok(None) =>
      if regionExists then Err(ForeignNodes) else Ok(nodes + [Obj(Apply([], NodeEdits(cfg, ep)))])
    case Ok(Some(i)) =>
      var node := nodes[i].members;
      if Ownership(node, cfg.regionID).Some? then Err(Ownership(node, cfg.regionID).value)
      else Ok(nodes[i := Obj(Apply(node, NodeEdits(cfg, ep)))])
  }

  function PublishRegion(region: seq<Member>, cfg: Config, ep: Endpoint, known: bool): Result<seq<Member>, Problem> {
    if known && Ownership(region, cfg.regionID).Some? then Err(Ownership(region, cfg.regionID).value)
    else
      match Get(region, "nodes")
      case None =>
        (match PublishNodes([], cfg, ep, known)
         case Err(e) => Err(e)
         case Ok(nodes) => Ok(Apply(region, RegionEdits(cfg, nodes))))
      case Some(Arr(before)) =>
        (match PublishNodes(before, cfg, ep, known)
         case Err(e) => Err(e)
         case Ok(nodes) => Ok(Apply(region, RegionEdits(cfg, nodes))))
      case Some(_) => Err(NodesNotArray)
  }

  function PublishRegions(regions: seq<Member>, cfg: Config, ep: Endpoint): Result<seq<Member>, Problem> {
    var region := Get(regions, cfg.regionKey);
    if Members(region).None? then Err(RegionNotObject)
    else
      match PublishRegion(Members(region).value, cfg, ep, region.Some?)
      case Err(e) => Err(e)
      case Ok(r) => Ok(Do(regions, Put(cfg.regionKey, Obj(r))))
  }

  function PublishMap(derpMap: seq<Member>, cfg: Config, ep: Endpoint): Result<seq<Member>, Problem> {
    var regions := Members(Get(derpMap, "regions"));
    if regions.None? then Err(RegionsNotObject)
    else
      match PublishRegions(regions.value, cfg, ep)
      case Err(e) => Err(e)
      case Ok(rs) => Ok(Do(derpMap, Put("regions", Obj(rs))))
  }

  function Publish(root: Json, cfg: Config, ep: Endpoint): Result<Json, Problem> {
    if !root.Obj? then Err(RootNotObject)
    else
      var derpMap := Members(Get(root.members, "derpMap"));
      if derpMap.None? then Err(DerpMapNotObject)
      else
        match PublishMap(derpMap.value, cfg, ep)
        case Err(e) => Err(e)
        case Ok(dm) => Ok(Obj(Do(root.members, Put("derpMap", Obj(dm)))))
  }

  // ---------- withdraw: None means that there was nothing to withdraw ----------

  function WithdrawNodes(nodes: seq<Json>, cfg: Config): Result<Option<seq<Json>>, Problem> {
    match FindNode(nodes, cfg.nodeName)
    case Err(e) => Err(e)
    case Ok(None) => Ok(None)
    case Ok(Some(i)) =>
      if Ownership(nodes[i].members, cfg.regionID).Some? then Err(Ownership(nodes[i].members, cfg.regionID).value)
      else Ok(Some(nodes[..i] + nodes[i + 1..]))
  }

  function WithdrawRegions(regions: seq<Member>, cfg: Config): Result<Option<seq<Member>>, Problem> {
    match Get(regions, cfg.regionKey)
    case None => Ok(None)
    case Some(Obj(region)) =>
      if Ownership(region, cfg.regionID).Some? then Err(Ownership(region, cfg.regionID).value)
      else
        (match Get(region, "nodes")
         case None => Ok(None)
         case Some(Arr(nodes)) =>
           (match WithdrawNodes(nodes, cfg)
            case Err(e) => Err(e)
            case Ok(None) => Ok(None)
            case Ok(Some(rest)) =>
              if rest == [] then Ok(Some(Do(regions, Drop(cfg.regionKey))))
              else Ok(Some(Do(regions, Put(cfg.regionKey, Obj(Do(region, Put("nodes", Arr(rest)))))))))
         case Some(_) => Err(NodesNotArray))
    case Some(_) => Err(RegionNotObject)
  }

  function WithdrawMap(derpMap: seq<Member>, cfg: Config): Result<Option<seq<Member>>, Problem> {
    match Get(derpMap, "regions")
    case None => Ok(None)
    case Some(Obj(regions)) =>
      (match WithdrawRegions(regions, cfg)
       case Err(e) => Err(e)
       case Ok(None) => Ok(None)
       case Ok(Some(rest)) => Ok(Some(Do(derpMap, if rest == [] then Drop("regions") else Put("regions", Obj(rest))))))
    case Some(_) => Err(RegionsNotObject)
  }

  function Withdraw(root: Json, cfg: Config): Result<Json, Problem> {
    if !root.Obj? then Err(RootNotObject)
    else
      match Get(root.members, "derpMap")
      case None => Ok(root)
      case Some(Obj(derpMap)) =>
        (match WithdrawMap(derpMap, cfg)
         case Err(e) => Err(e)
         case Ok(None) => Ok(root)
         case Ok(Some(rest)) =>
           Ok(Obj(Do(root.members, if rest == [] then Drop("derpMap") else Put("derpMap", Obj(rest))))))
      case Some(_) => Err(DerpMapNotObject)
  }
}
