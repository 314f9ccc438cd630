/** The application load balancer side of the cloud: target groups, backend groups and
    load balancers, listed by folder and name as the List calls of the API return them. */
module AlbCloud {
  import opened Basics
  import opened Api

  type Id = string

  datatype Key = Key(folder: string, name: string)

  datatype Target = Target(address: string, subnet: string)

  datatype LbStatus = Creating | Starting | Active | Stopping | Stopped | Deleting

  /** `deleting` on a group: a delete request was accepted and has not finished yet.
      The controller cannot see it. */
  datatype TargetGroup = TargetGroup(id: Id, targets: seq<Target>, deleting: bool)

  datatype BackendGroup = BackendGroup(id: Id, targetGroup: Id, port: int, health: Healthcheck, deleting: bool)

  /** `zone` and `subnet` are where the load balancer is placed in its network, and the subnet
      is also that of its listener. */
  datatype LoadBalancer = LoadBalancer(
    id: Id, backendGroup: Id, address: string, port: int,
    network: string, zone: string, subnet: string, status: LbStatus)

  datatype Cloud = Cloud(
    tgs: map<Key, seq<TargetGroup>>,
    bgs: map<Key, seq<BackendGroup>>,
    lbs: map<Key, seq<LoadBalancer>>)

  function At<T>(m: map<Key, seq<T>>, k: Key): seq<T> {
    if k in m then m[k] else []
  }

  // ---- requests, as the builders fill them ----

  datatype TargetGroupRequest = TargetGroupRequest(key: Key)

  datatype BackendGroupRequest = BackendGroupRequest(key: Key, targetGroup: Id, port: int, health: Healthcheck)

  datatype LoadBalancerRequest = LoadBalancerRequest(
    key: Key, network: string, zone: string, subnet: string,
    address: Option<string>, port: int, backendGroup: Id)

  // ---- what an accepted request does ----

  function CreateTargetGroup(c: Cloud, req: TargetGroupRequest, id: Id): Cloud {
    c.(tgs := c.tgs[req.key := At(c.tgs, req.key) + [TargetGroup(id, [], false)]])
  }

  function CreateBackendGroup(c: Cloud, req: BackendGroupRequest, id: Id): Cloud {
    c.(bgs := c.bgs[req.key := At(c.bgs, req.key) + [BackendGroup(id, req.targetGroup, req.port, req.health, false)]])
  }

  /** The listener gets the requested address, or `granted` when none was requested. */
  function CreateLoadBalancer(c: Cloud, req: LoadBalancerRequest, id: Id, granted: string, status: LbStatus): Cloud {
    var address := if req.address.Some? then req.address.value else granted;
    var lb := LoadBalancer(id, req.backendGroup, address, req.port, req.network, req.zone, req.subnet, status);
    c.(lbs := c.lbs[req.key := At(c.lbs, req.key) + [lb]])
  }

  // Deleting by id touches the list the id was read from: ids are unique in the cloud.

  function MarkTargetGroup(xs: seq<TargetGroup>, id: Id): seq<TargetGroup> {
    seq(|xs|, i requires 0 <= i < |xs| => if xs[i].id == id then xs[i].(deleting := true) else xs[i])
  }

  function MarkBackendGroup(xs: seq<BackendGroup>, id: Id): seq<BackendGroup> {
    seq(|xs|, i requires 0 <= i < |xs| => if xs[i].id == id then xs[i].(deleting := true) else xs[i])
  }

  function MarkLoadBalancer(xs: seq<LoadBalancer>, id: Id): seq<LoadBalancer> {
    seq(|xs|, i requires 0 <= i < |xs| => if xs[i].id == id then xs[i].(status := Deleting) else xs[i])
  }

  function DeleteTargetGroup(c: Cloud, k: Key, id: Id): Cloud {
    c.(tgs := c.tgs[k := MarkTargetGroup(At(c.tgs, k), id)])
  }

  function DeleteBackendGroup(c: Cloud, k: Key, id: Id): Cloud {
    c.(bgs := c.bgs[k := MarkBackendGroup(At(c.bgs, k), id)])
  }

  function DeleteLoadBalancer(c: Cloud, k: Key, id: Id): Cloud {
    c.(lbs := c.lbs[k := MarkLoadBalancer(At(c.lbs, k), id)])
  }

  /** The list without its element at `i`. */
  function Without<T>(xs: seq<T>, i: nat): seq<T>
    requires i < |xs|
  {
    xs[..i] + xs[i + 1..]
  }
}
