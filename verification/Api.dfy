/** The YandexCluster object as the API server stores it. */
module Api {
  import opened Basics

  const LB_TYPE_ALB := "ALB"
  const LB_TYPE_NLB := "NLB"

  datatype Endpoint = Endpoint(host: string, port: int) {
    predicate IsZero() { host == "" && port == 0 }
    /** The Cluster API notion of a populated endpoint. */
    predicate IsValid() { host != "" && port != 0 }
  }

  const NO_ENDPOINT := Endpoint("", 0)

  datatype Healthcheck = Healthcheck(timeoutSec: int, intervalSec: int, threshold: int)

  datatype Listener = Listener(address: string, port: int, zone: string, subnet: string)

  datatype LoadBalancerSpec = LoadBalancerSpec(
    lbType: string,
    name: string,
    listener: Listener,
    backendPort: int,
    healthcheck: Healthcheck)

  datatype ClusterSpec = ClusterSpec(
    network: string,
    endpoint: Endpoint,
    folder: string,
    loadBalancer: LoadBalancerSpec,
    labels: map<string, string>)

  /** `listener` is the recorded address and port of the load balancer; `lbReady` and
      `created` are the LoadBalancerReady and READY conditions. */
  datatype ClusterStatus = ClusterStatus(
    ready: bool,
    listener: Endpoint,
    lbReady: Condition,
    created: bool)

  const NEW_STATUS := ClusterStatus(false, NO_ENDPOINT, Unset, false)

  /** `finalizer` is the controller's own finalizer, `held` says that somebody else's
      finalizer is present, `deleting` that the deletion timestamp is set. */
  datatype Cluster = Cluster(
    finalizer: bool,
    held: bool,
    deleting: bool,
    spec: ClusterSpec,
    status: ClusterStatus)

  /** The API server drops an object once it is being deleted and no finalizer is left. */
  function Reap(c: Cluster): Option<Cluster> {
    if c.deleting && !c.finalizer && !c.held then None else Some(c)
  }
}
