/** The validating webhook of YandexCluster, as the filter on what can be stored. */
module Admission {
  import opened Basics
  import opened Api

  datatype AddressKind = UnknownAddress | Fqdn | IPv4 | IPv6

  /** The answers of the address parser and of DNS during one webhook call. Any map
      may come: nothing is assumed about which names resolve, or that it is stable. */
  type Resolver = map<string, AddressKind>

  function KindOf(dns: Resolver, s: string): AddressKind {
    if s in dns then dns[s] else UnknownAddress
  }

  datatype FieldError =
    | NetworkLoadBalancerUnsupported
    | ListenerAddressNotIPv4
    | EndpointIncomplete
    | EndpointHostInvalid
    | EndpointPortOutOfRange
    | LoadBalancerImmutable
    | EndpointImmutable

  predicate EndpointAcceptable(e: Endpoint, dns: Resolver) {
    && e.host != ""
    && 1 <= e.port <= 65535
    && KindOf(dns, e.host) in {IPv4, Fqdn}
  }

  /** What the CRD schema enforces before the webhook runs (enum, ranges, lengths). */
  predicate SchemaOk(spec: ClusterSpec) {
    && spec.loadBalancer.lbType in {LB_TYPE_ALB, LB_TYPE_NLB}
    && 1 <= spec.loadBalancer.listener.port <= 65535
    && 1 <= spec.loadBalancer.backendPort <= 65535
    && spec.folder != ""
  }

  predicate AdmitsCreate(spec: ClusterSpec, dns: Resolver) {
    && spec.loadBalancer.lbType != LB_TYPE_NLB
    && (spec.loadBalancer.listener.address == "" || KindOf(dns, spec.loadBalancer.listener.address) == IPv4)
    && (spec.endpoint.IsZero() || EndpointAcceptable(spec.endpoint, dns))
  }

  predicate AdmitsUpdate(old_: ClusterSpec, new_: ClusterSpec, dns: Resolver) {
    && new_.loadBalancer == old_.loadBalancer
    && (new_.endpoint == old_.endpoint
        || (old_.endpoint.IsZero() && EndpointAcceptable(new_.endpoint, dns)))
  }

  /** Collects the complaints about an endpoint, one per failed check. */
  method EndpointErrors(e: Endpoint, dns: Resolver) returns (errs: seq<FieldError>)
    ensures errs == [] <==> EndpointAcceptable(e, dns)
    ensures EndpointIncomplete in errs <==> !e.IsValid()
    ensures EndpointHostInvalid in errs <==> KindOf(dns, e.host) !in {IPv4, Fqdn}
    ensures EndpointPortOutOfRange in errs <==> !(1 <= e.port <= 65535)
    ensures forall x <- errs :: x in {EndpointIncomplete, EndpointHostInvalid, EndpointPortOutOfRange}
  {
    errs := [];
    if e.host == "" || e.port == 0 {
      errs := errs + [EndpointIncomplete];
    }
    if KindOf(dns, e.host) != IPv4 && KindOf(dns, e.host) != Fqdn {
      errs := errs + [EndpointHostInvalid];
    }
    if e.port < 1 || e.port > 65535 {
      errs := errs + [EndpointPortOutOfRange];
    }
  }

  method ValidateCreate(spec: ClusterSpec, dns: Resolver) returns (errs: seq<FieldError>)
    ensures errs == [] <==> AdmitsCreate(spec, dns)
    ensures NetworkLoadBalancerUnsupported in errs <==> spec.loadBalancer.lbType == LB_TYPE_NLB
    ensures ListenerAddressNotIPv4 in errs <==>
            spec.loadBalancer.listener.address != "" && KindOf(dns, spec.loadBalancer.listener.address) != IPv4
    ensures EndpointIncomplete in errs <==> !spec.endpoint.IsZero() && !spec.endpoint.IsValid()
    ensures EndpointHostInvalid in errs <==> !spec.endpoint.IsZero() && KindOf(dns, spec.endpoint.host) !in {IPv4, Fqdn}
    ensures EndpointPortOutOfRange in errs <==> !spec.endpoint.IsZero() && !(1 <= spec.endpoint.port <= 65535)
  {
    errs := [];
    if spec.loadBalancer.lbType == LB_TYPE_NLB {
      errs := errs + [NetworkLoadBalancerUnsupported];
    }
    var address := spec.loadBalancer.listener.address;
    if address != "" && KindOf(dns, address) != IPv4 {
      errs := errs + [ListenerAddressNotIPv4];
    }
    if spec.endpoint != NO_ENDPOINT {
      var more := EndpointErrors(spec.endpoint, dns);
      errs := errs + more;
    }
  }

  method ValidateUpdate(old_: ClusterSpec, new_: ClusterSpec, dns: Resolver) returns (errs: seq<FieldError>)
    ensures errs == [] <==> AdmitsUpdate(old_, new_, dns)
    ensures LoadBalancerImmutable in errs <==> new_.loadBalancer != old_.loadBalancer
    ensures EndpointImmutable in errs <==> new_.endpoint != old_.endpoint && !old_.endpoint.IsZero()
    ensures old_.endpoint.IsZero() && !new_.endpoint.IsZero() ==>
              && (EndpointIncomplete in errs <==> !new_.endpoint.IsValid())
              && (EndpointHostInvalid in errs <==> KindOf(dns, new_.endpoint.host) !in {IPv4, Fqdn})
              && (EndpointPortOutOfRange in errs <==> !(1 <= new_.endpoint.port <= 65535))
  {
    errs := [];
    if old_.loadBalancer != new_.loadBalancer {
      errs := errs + [LoadBalancerImmutable];
    }
    if new_.endpoint != old_.endpoint {
      if old_.endpoint == NO_ENDPOINT {
        var more := EndpointErrors(new_.endpoint, dns);
        errs := errs + more;
      } else {
        errs := errs + [EndpointImmutable];
      }
    }
  }

  /** A spec that passed creation and then any number of admitted updates. */
  ghost predicate Admitted(history: seq<ClusterSpec>, dns: seq<Resolver>)
  {
    && 0 < |history| == |dns|
    && SchemaOk(history[0]) && AdmitsCreate(history[0], dns[0])
    && forall i | 0 < i < |history| :: AdmitsUpdate(history[i - 1], history[i], dns[i])
  }

  /** Over every admitted history the load balancer spec is the created one and of type ALB,
      and the endpoint is empty up to some point and one valid value from there on. */
  lemma {:induction false} HistoryKeepsLoadBalancerAndEndpoint(history: seq<ClusterSpec>, dns: seq<Resolver>, i: nat,
      j: nat)
    requires Admitted(history, dns)
    requires i <= j < |history|
    ensures history[j].loadBalancer == history[0].loadBalancer
    ensures history[j].loadBalancer.lbType == LB_TYPE_ALB
    ensures history[j].endpoint.IsZero() || (history[j].endpoint.host != "" && 1 <= history[j].endpoint.port <= 65535)
    ensures !history[i].endpoint.IsZero() ==> history[j].endpoint == history[i].endpoint
    decreases j
  {
    if 0 < j {
      assert AdmitsUpdate(history[j - 1], history[j], dns[j]);
      HistoryKeepsLoadBalancerAndEndpoint(history, dns, if i < j then i else j - 1, j - 1);
    }
  }
}
