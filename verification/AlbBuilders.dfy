/** The builders that turn a load balancer spec into requests. */
module AlbBuilders {
  import opened Basics
  import opened Api
  import opened AlbCloud
  import opened ClusterProtocol
  import opened ClusterSafety

  class TargetGroupBuilder {
    const spec: LoadBalancerSpec
    var folder: string
    var name: string
    var ip: string
    var subnet: string
    var id: Id

    constructor (spec: LoadBalancerSpec)
      ensures this.spec == spec
      ensures folder == "" && name == "" && ip == "" && subnet == "" && id == ""
    {
      this.spec := spec;
      folder, name, ip, subnet, id := "", "", "", "", "";
    }

    method WithFolder(folder: string)
      modifies this`folder
      ensures this.folder == folder
    { this.folder := folder; }

    method WithLBName(name: string)
      modifies this`name
      ensures this.name == name
    { this.name := name; }

    method WithIP(ip: string)
      modifies this`ip
      ensures this.ip == ip
    { this.ip := ip; }

    method WithSubnetID(subnet: string)
      modifies this`subnet
      ensures this.subnet == subnet
    { this.subnet := subnet; }

    method WithTargetGroupID(id: Id)
      modifies this`id
      ensures this.id == id
    { this.id := id; }

    method Build() returns (req: TargetGroupRequest)
      ensures req.key == Key(folder, name)
    { req := TargetGroupRequest(Key(folder, name)); }

    /** The group and the single target of an add or remove request. */
    method BuildTargetRequest(address: string) returns (group: Id, targets: seq<Target>)
      ensures group == id && targets == [Target(address, subnet)]
    { group, targets := id, [Target(address, subnet)]; }
  }

  class BackendGroupBuilder {
    const spec: LoadBalancerSpec
    var folder: string
    var name: string
    var targetGroup: Id

    constructor (spec: LoadBalancerSpec)
      ensures this.spec == spec && folder == "" && name == "" && targetGroup == ""
    {
      this.spec := spec;
      folder, name, targetGroup := "", "", "";
    }

    method WithFolder(folder: string)
      modifies this`folder
      ensures this.folder == folder
    { this.folder := folder; }

    method WithLBName(name: string)
      modifies this`name
      ensures this.name == name
    { this.name := name; }

    method WithTargetGroupID(id: Id)
      modifies this`targetGroup
      ensures targetGroup == id
    { targetGroup := id; }

    method Build() returns (req: BackendGroupRequest)
      ensures req == BgRequest(Key(folder, name), spec, targetGroup)
    {
      req := BackendGroupRequest(Key(folder, name), targetGroup, spec.backendPort, spec.healthcheck);
    }
  }

  class LoadBalancerBuilder {
    const spec: LoadBalancerSpec
    var folder: string
    var network: string
    var name: string
    var backendGroup: Id

    constructor (spec: LoadBalancerSpec)
      ensures this.spec == spec && folder == "" && network == "" && name == "" && backendGroup == ""
    {
      this.spec := spec;
      folder, network, name, backendGroup := "", "", "", "";
    }

    method WithFolder(folder: string)
      modifies this`folder
      ensures this.folder == folder
    { this.folder := folder; }

    method WithNetworkID(id: string)
      modifies this`network
      ensures network == id
    { network := id; }

    method WithName(name: string)
      modifies this`name
      ensures this.name == name
    { this.name := name; }

    method WithBackendGroupID(id: Id)
      modifies this`backendGroup
      ensures backendGroup == id
    { backendGroup := id; }

    method Build() returns (req: LoadBalancerRequest)
      ensures req == LbRequest(Key(folder, name), network, spec, backendGroup)
    {
      var address := None;
      if spec.listener.address != "" {
        address := Some(spec.listener.address);
      }
      req := LoadBalancerRequest(Key(folder, name), network, spec.listener.zone, spec.listener.subnet,
                                 address, spec.listener.port, backendGroup);
    }
  }

  /** What a name leads to in a cloud. */
  function ResourcesAt(c: Cloud, k: Key): Resources { Resources(At(c.tgs, k), At(c.bgs, k), At(c.lbs, k)) }

  /** The three requests, each built with the id the one before it gave, make a linked chain
      that listens where the spec says, and nothing under any other name. */
  lemma AcceptedRequestsMakeAChain(
      c: Cloud, k: Key, network: string, spec: LoadBalancerSpec, tg: Id, bg: Id, lb: Id, granted: string)
    requires ResourcesAt(c, k).Empty() && granted != ""
    ensures var c1 := CreateTargetGroup(c, TgRequest(k), tg);
            var c2 := CreateBackendGroup(c1, BgRequest(k, spec, tg), bg);
            var c3 := CreateLoadBalancer(c2, LbRequest(k, network, spec, bg), lb, granted, Active);
            var r := ResourcesAt(c3, k);
            && LinksOk(r) && r.tgs != [] && r.bgs != [] && r.lbs != []
            && DependenciesHold(r) && AsRequested(r, spec)
            && (spec.listener.address == "" ==> r.lbs[0].address == granted) && r.lbs[0].network == network
            && forall other | other != k :: ResourcesAt(c3, other) == ResourcesAt(c, other)
  {
    var c1 := CreateTargetGroup(c, TgRequest(k), tg);
    var c2 := CreateBackendGroup(c1, BgRequest(k, spec, tg), bg);
    var c3 := CreateLoadBalancer(c2, LbRequest(k, network, spec, bg), lb, granted, Active);
    var r := ResourcesAt(c3, k);
    assert r.bgs[0] in r.bgs && r.tgs[0] in r.tgs;
  }
}
