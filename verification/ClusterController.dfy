/** The controller code itself: reconcile and delete rounds of YandexCluster and the load
    balancer service under them, as methods over a world that anybody may change between
    two calls. Every execution is a run of the protocol. */
module ClusterController {
  import opened Basics
  import opened Api
  import opened Admission
  import opened Names
  import opened AlbCloud
  import opened ClusterProtocol
  import opened ClusterSafety
  import opened ClusterTheorems
  import opened AlbBuilders

  /** The API server and the cloud. `trace` records every action since `start`. */
  class World {
    const generated: string
    const home: Key
    var store: Option<Cluster>
    var cloud: Cloud
    ghost const start: Sys
    ghost var trace: seq<Action>

    constructor (ghost s: Sys, generated: string, home: Key, store: Option<Cluster>, cloud: Cloud)
      requires Inv(s) && s.generated == generated && s.home == home && s.obj == store && s.cloud == cloud
      ensures Valid() && Now() == s && start == s && trace == []
    {
      this.generated, this.home, this.store, this.cloud := generated, home, store, cloud;
      start, trace := s, [];
    }

    ghost function Now(): Sys
      reads this
    {
      Run(start, trace)
    }

    ghost predicate Valid()
      reads this
    {
      && Inv(start) && KeepsFolderAlways(start, trace)
      && Now().generated == generated && Now().home == home
      && Now().obj == store && Now().cloud == cloud
    }

    /** What a valid world inherits from the protocol. */
    lemma Safe()
      requires Valid()
      ensures Inv(Now())
      ensures !Own(Now()).Empty() ==> Holds(store)
    {
      RunInv(start, trace);
    }

    lemma Extend(a: Action)
      ensures Run(start, trace + [a]) == Apply(Now(), a)
      ensures KeepsFolderAlways(start, trace + [a]) <==> KeepsFolderAlways(start, trace) && KeepsFolder(Now(), a)
    {
      assert (trace + [a])[..|trace|] == trace;
    }

    /** Any number of things other people do: edits, deletions, status changes, losses. */
    method Interfere()
      requires Valid()
      modifies this
      ensures Valid() && old(trace) <= trace
      ensures Now().round == old(Now().round) && Now().last == old(Now().last)
    {
      var n: nat := *;
      while n > 0
        invariant Valid() && old(trace) <= trace
        invariant Now().round == old(Now().round) && Now().last == old(Now().last)
      {
        var a: Action := *;
        var view := Sys(generated, home, store, cloud, Idle, Done, 0);
        if IsEnvironment(a) && KeepsFolder(view, a) {
          var next := EnvStep(view, a);
          Extend(a);
          EnvStepIsLocal(Now(), a);
          trace := trace + [a];
          store, cloud := next.obj, next.cloud;
        }
        n := n - 1;
      }
    }

    /** Reads the object and, when it is there, starts a round on it. */
    method Get() returns (c: Option<Cluster>)
      requires Valid() && Now().round.Idle?
      modifies this
      ensures Valid() && old(trace) <= trace
      ensures c.None? ==> Now().round.Idle?
      ensures c.Some? ==> Now().round == Start(c.value)
    {
      Interfere();
      c := store;
      if c.Some? {
        Extend(Begin);
        trace := trace + [Begin];
      }
    }

    ghost predicate Asks(k: Key)
      reads this
    {
      Now().round.Busy? && k == KeyOf(generated, Now().round.work.spec)
    }

    ghost method Record(o: Outcome, id: Id, address: string, dns: Resolver)
      modifies this`trace
      ensures trace == old(trace) + [Call(Reply(o, id, address, dns))]
    {
      trace := trace + [Call(Reply(o, id, address, dns))];
    }

    method ALBTargetGroupGetByName(k: Key) returns (r: Result<Option<TargetGroup>>)
      requires Valid() && Asks(k) && (Now().round.stage.TgGet? || Now().round.stage.DelTgGet?)
      modifies this
      ensures Valid() && old(trace) <= trace
      ensures var old_ := old(Now().round);
              Now().round == if old_.stage.TgGet? then AfterTgGet(old_.before, old_.work, r)
                             else AfterDelTgGet(old_.before, old_.work, r)
    {
      Interfere();
      var o: Outcome := *;
      r := Read(o, At(cloud.tgs, k));
      Extend(Call(Reply(o, "-", "-", map[])));
      Record(o, "-", "-", map[]);
    }

    method ALBBackendGroupGetByName(k: Key) returns (r: Result<Option<BackendGroup>>)
      requires Valid() && Asks(k) && (Now().round.stage.BgGet? || Now().round.stage.DelBgGet?)
      modifies this
      ensures Valid() && old(trace) <= trace
      ensures var old_ := old(Now().round);
              Now().round == if old_.stage.BgGet? then AfterBgGet(old_.before, old_.work, old_.stage.tg, r)
                             else AfterDelBgGet(old_.before, old_.work, r)
    {
      Interfere();
      var o: Outcome := *;
      r := Read(o, At(cloud.bgs, k));
      Extend(Call(Reply(o, "-", "-", map[])));
      Record(o, "-", "-", map[]);
    }

    method ALBGetByName(k: Key) returns (r: Result<Option<LoadBalancer>>)
      requires Valid() && Asks(k)
      requires var st := Now().round.stage; st.LbGet? || st.ActiveGet? || st.DescribeGet? || st.DelLbGet?
      modifies this
      ensures Valid() && old(trace) <= trace
      ensures var old_ := old(Now().round);
              Now().round == match old_.stage
                             case LbGet(bg) => AfterLbGet(old_.before, old_.work, bg, r)
                             case ActiveGet => AfterActiveGet(old_.before, old_.work, r)
                             case DescribeGet => AfterDescribeGet(old_.before, old_.work, r)
                             case _ => AfterDelLbGet(old_.before, old_.work, r)
    {
      Interfere();
      var o: Outcome := *;
      r := Read(o, At(cloud.lbs, k));
      Extend(Call(Reply(o, "-", "-", map[])));
      Record(o, "-", "-", map[]);
    }

    /** A non-empty string of the cloud's choice. */
    static method Chosen() returns (s: string)
      ensures s != ""
    {
      s := *;
      if s == "" {
        s := "-";
      }
    }

    method ALBTargetGroupCreate(req: TargetGroupRequest) returns (r: Result<Id>)
      requires Valid() && Now().round.Busy? && Now().round.stage.TgCreate?
      requires req == TgRequest(KeyOf(generated, Now().round.work.spec))
      modifies this
      ensures Valid() && old(trace) <= trace
      ensures Now().round == AfterTgCreate(old(Now().round).before, old(Now().round).work, r)
    {
      Interfere();
      var o: Outcome := *;
      var id := Chosen();
      cloud := if o.Effective() then CreateTargetGroup(cloud, req, id) else cloud;
      r := if o == Success then Ok(id) else Err;
      Extend(Call(Reply(o, id, "-", map[])));
      Record(o, id, "-", map[]);
    }

    method ALBBackendGroupCreate(req: BackendGroupRequest) returns (r: Result<Id>)
      requires Valid() && Now().round.Busy? && Now().round.stage.BgCreate?
      requires var w := Now().round.work;
               req == BgRequest(KeyOf(generated, w.spec), w.spec.loadBalancer, Now().round.stage.tg)
      modifies this
      ensures Valid() && old(trace) <= trace
      ensures Now().round == AfterBgCreate(old(Now().round).before, old(Now().round).work, r)
    {
      Interfere();
      var o: Outcome := *;
      var id := Chosen();
      cloud := if o.Effective() then CreateBackendGroup(cloud, req, id) else cloud;
      r := if o == Success then Ok(id) else Err;
      Extend(Call(Reply(o, id, "-", map[])));
      Record(o, id, "-", map[]);
    }

    method ALBCreate(req: LoadBalancerRequest) returns (r: Result<Id>)
      requires Valid() && Now().round.Busy? && Now().round.stage.LbCreate?
      requires var w := Now().round.work;
               req == LbRequest(KeyOf(generated, w.spec), w.spec.network, w.spec.loadBalancer, Now().round.stage.bg)
      modifies this
      ensures Valid() && old(trace) <= trace
      ensures Now().round == AfterLbCreate(old(Now().round).before, old(Now().round).work, r)
    {
      Interfere();
      var o: Outcome := *;
      var id := Chosen();
      var address := Chosen();
      cloud := if o.Effective()
      then CreateLoadBalancer(cloud, req, id, address, if o == Success then Active else Creating) else cloud;
      r := if o == Success then Ok(id) else Err;
      Extend(Call(Reply(o, id, address, map[])));
      Record(o, id, address, map[]);
    }

    method ALBDelete(k: Key, id: Id) returns (ok: bool)
      requires Valid() && Asks(k) && Now().round.stage == DelLb(id)
      modifies this
      ensures Valid() && old(trace) <= trace
      ensures Now().round == AfterDelete(old(Now().round).before, old(Now().round).work, ok)
    {
      Interfere();
      var o: Outcome := *;
      cloud := if o.Effective() then DeleteLoadBalancer(cloud, k, id) else cloud;
      ok := o == Success;
      Extend(Call(Reply(o, "-", "-", map[])));
      Record(o, "-", "-", map[]);
    }

    method ALBBackendGroupDelete(k: Key, id: Id) returns (ok: bool)
      requires Valid() && Asks(k) && Now().round.stage == DelBg(id)
      modifies this
      ensures Valid() && old(trace) <= trace
      ensures Now().round == AfterDelete(old(Now().round).before, old(Now().round).work, ok)
    {
      Interfere();
      var o: Outcome := *;
      cloud := if o.Effective() then DeleteBackendGroup(cloud, k, id) else cloud;
      ok := o == Success;
      Extend(Call(Reply(o, "-", "-", map[])));
      Record(o, "-", "-", map[]);
    }

    method ALBTargetGroupDelete(k: Key, id: Id) returns (ok: bool)
      requires Valid() && Asks(k) && Now().round.stage == DelTg(id)
      modifies this
      ensures Valid() && old(trace) <= trace
      ensures Now().round == AfterDelete(old(Now().round).before, old(Now().round).work, ok)
    {
      Interfere();
      var o: Outcome := *;
      cloud := if o.Effective() then DeleteTargetGroup(cloud, k, id) else cloud;
      ok := o == Success;
      Extend(Call(Reply(o, "-", "-", map[])));
      Record(o, "-", "-", map[]);
    }

    /** Patches the object with what the copy `w` changed since `b` was read. */
    method Patch(b: Cluster, w: Cluster) returns (ok: bool)
      requires Valid() && Now().round.Busy? && Now().round.stage.Closing?
      requires Now().round.before == b && Now().round.work == w
      modifies this
      ensures Valid() && old(trace) <= trace
      ensures Now().round.Idle?
      ensures Now().last == if ok then old(Now().round).stage.verdict else Failed
    {
      Interfere();
      var o: Outcome := *;
      var dns: Resolver := *;
      var p := Persist(store, b, w, dns);
      if o.Effective() && p.Ok? {
        store := p.value;
      }
      ok := o == Success && p.Ok?;
      Extend(Call(Reply(o, "-", "-", dns)));
      Record(o, "-", "-", dns);
    }
  }

  /** What other people do depends on the object and the cloud alone, and leaves the round. */
  lemma EnvStepIsLocal(s: Sys, a: Action)
    requires IsEnvironment(a)
    ensures var view := Sys(s.generated, s.home, s.obj, s.cloud, Idle, Done, 0);
            && Apply(s, a) == s.(obj := EnvStep(view, a).obj, cloud := EnvStep(view, a).cloud)
            && (KeepsFolder(view, a) <==> KeepsFolder(s, a))
  {
  }

  /** The copy of the object a round works on. */
  class ClusterScope {
    const world: World
    const before: Cluster
    var finalizer: bool
    var spec: ClusterSpec
    var status: ClusterStatus

    constructor (world: World, c: Cluster)
      ensures this.world == world && before == c && Copy() == c
    {
      this.world, before := world, c;
      finalizer, spec, status := c.finalizer, c.spec, c.status;
    }

    function Copy(): Cluster
      reads this
    {
      before.(finalizer := finalizer, spec := spec, status := status)
    }

    /** The copy belongs to the round in flight, whose next call is `stage`. */
    ghost predicate In(stage: Stage)
      reads this, world
    {
      world.Valid() && world.Now().round == Busy(before, Copy(), stage)
    }

    function GetLBName(): string
      reads this
    {
      LoadBalancerName(spec.loadBalancer.name, world.generated)
    }

    function GetKey(): Key
      reads this
    {
      Key(spec.folder, GetLBName())
    }

    method MarkLoadBalancer(c: Condition)
      modifies this`status
      ensures Copy() == Marked(old(Copy()), c)
    { status := status.(lbReady := c); }

    method MarkCreated()
      modifies this`status
      ensures status == old(status).(created := true)
    { status := status.(created := true); }

    method SetReady()
      modifies this`status
      ensures status == old(status).(ready := true)
    { status := status.(ready := true); }

    method Close() returns (ok: bool)
      requires exists v :: In(Closing(v))
      modifies world
      ensures world.Valid() && old(world.trace) <= world.trace && world.Now().round.Idle?
      ensures world.Now().last == if ok then old(world.Now().round).stage.verdict else Failed
    { ok := world.Patch(before, Copy()); }
  }

  datatype Described = Listening(e: Endpoint) | DescribeError | NilPointer

  /** The application load balancer service. */
  class AlbService {
    const scope: ClusterScope

    constructor (scope: ClusterScope)
      ensures this.scope == scope
    { this.scope := scope; }

    method ReconcileTargetGroup() returns (r: Result<Id>)
      requires scope.In(TgGet)
      modifies scope.world
      ensures scope.world.Valid() && old(scope.world.trace) <= scope.world.trace
      ensures r.Ok? ==> scope.In(BgGet(r.value))
      ensures r.Err? ==> scope.world.Now().round == FailRound(scope.before, scope.Copy())
    {
      var builder := new TargetGroupBuilder(scope.spec.loadBalancer);
      builder.WithLBName(scope.GetLBName());
      builder.WithFolder(scope.spec.folder);
      var found := scope.world.ALBTargetGroupGetByName(scope.GetKey());
      if found.Err? {
        return Err;
      }
      if found.value.None? {
        var req := builder.Build();
        r := scope.world.ALBTargetGroupCreate(req);
        return;
      }
      return Ok(found.value.value.id);
    }

    method ReconcileBackendGroup(tg: Id) returns (r: Result<Id>)
      requires scope.In(BgGet(tg))
      modifies scope.world
      ensures scope.world.Valid() && old(scope.world.trace) <= scope.world.trace
      ensures r.Ok? ==> scope.In(LbGet(r.value))
      ensures r.Err? ==> scope.world.Now().round == FailRound(scope.before, scope.Copy())
    {
      var builder := new BackendGroupBuilder(scope.spec.loadBalancer);
      builder.WithLBName(scope.GetLBName());
      builder.WithFolder(scope.spec.folder);
      builder.WithTargetGroupID(tg);
      var found := scope.world.ALBBackendGroupGetByName(scope.GetKey());
      if found.Err? {
        return Err;
      }
      if found.value.None? {
        var req := builder.Build();
        r := scope.world.ALBBackendGroupCreate(req);
        return;
      }
      return Ok(found.value.value.id);
    }

    method ReconcileALB(bg: Id) returns (ok: bool)
      requires scope.In(LbGet(bg))
      modifies scope.world, scope`status
      ensures scope.world.Valid() && old(scope.world.trace) <= scope.world.trace
      ensures ok ==> scope.In(ActiveGet)
      ensures !ok ==> scope.world.Now().round == FailRound(scope.before, scope.Copy())
    {
      var builder := new LoadBalancerBuilder(scope.spec.loadBalancer);
      builder.WithName(scope.GetLBName());
      builder.WithFolder(scope.spec.folder);
      builder.WithBackendGroupID(bg);
      builder.WithNetworkID(scope.spec.network);
      var found := scope.world.ALBGetByName(scope.GetKey());
      if found.Err? {
        return false;
      }
      var listener := scope.spec.loadBalancer.listener;
      if found.value.Some? {
        var lb := found.value.value;
        if lb.status == Active && listener.address != "" {
          if lb.address != "" && listener.address != lb.address {
            return false;
          }
          if lb.port != 0 && listener.port != lb.port {
            return false;
          }
        }
        return true;
      }
      if scope.spec.endpoint.IsValid() && listener.address == "" {
        return false;
      }
      var req := builder.Build();
      var created := scope.world.ALBCreate(req);
      if created.Err? {
        return false;
      }
      scope.MarkCreated();
      return true;
    }

    method ReconcileALBService() returns (ok: bool)
      requires scope.In(TgGet)
      modifies scope.world, scope`status
      ensures scope.world.Valid() && old(scope.world.trace) <= scope.world.trace
      ensures ok ==> scope.In(ActiveGet)
      ensures !ok ==> scope.world.Now().round == FailRound(scope.before, scope.Copy())
    {
      var tg := ReconcileTargetGroup();
      if tg.Err? {
        return false;
      }
      var bg := ReconcileBackendGroup(tg.value);
      if bg.Err? {
        return false;
      }
      ok := ReconcileALB(bg.value);
    }

    method IsActiveALB() returns (r: Result<bool>)
      requires scope.In(ActiveGet)
      modifies scope.world
      ensures scope.world.Valid() && old(scope.world.trace) <= scope.world.trace
      ensures r.Err? ==> scope.world.Now().round == FailRound(scope.before, scope.Copy())
      ensures r.Ok? ==> scope.In(if r.value then DescribeGet else Closing(RequeueAfter))
    {
      var lb := scope.world.ALBGetByName(scope.GetKey());
      if lb.Err? {
        return Err;
      }
      return Ok(lb.value.Some? && lb.value.value.status == Active);
    }

    method DescribeALB() returns (r: Described)
      requires scope.In(DescribeGet)
      modifies scope.world
      ensures scope.world.Valid() && old(scope.world.trace) <= scope.world.trace
      ensures r.DescribeError? ==> scope.world.Now().round == FailRound(scope.before, scope.Copy())
      ensures r.NilPointer? ==> scope.In(Closing(Panicked))
      ensures r.Listening? ==>
                scope.world.Now().round ==
                if scope.spec.endpoint.IsZero() || scope.spec.endpoint == r.e
                then Busy(scope.before, MarkedReady(scope.Copy(), r.e), Closing(Done))
                else Busy(scope.before, scope.Copy(), Closing(Failed))
    {
      var lb := scope.world.ALBGetByName(scope.GetKey());
      if lb.Err? {
        return DescribeError;
      }
      if lb.value.None? {
        return NilPointer;
      }
      return Listening(Endpoint(lb.value.value.address, lb.value.value.port));
    }

    /** `Ok(true)` when nothing is left, `Ok(false)` while a deletion is under way. */
    method DeleteApplicationLoadBalancer() returns (r: Result<bool>)
      requires scope.In(DelLbGet)
      modifies scope.world
      ensures scope.world.Valid() && old(scope.world.trace) <= scope.world.trace
      ensures r == Ok(true) ==> scope.In(DelBgGet)
      ensures r == Ok(false) ==> scope.world.Now().round == WaitRound(scope.before, scope.Copy())
      ensures r.Err? ==> scope.world.Now().round == FailRound(scope.before, scope.Copy())
    {
      var lb := scope.world.ALBGetByName(scope.GetKey());
      if lb.Err? {
        return Err;
      }
      if lb.value.None? {
        return Ok(true);
      }
      var status := lb.value.value.status;
      if status == Deleting || status == Stopping {
        return Ok(false);
      }
      var ok := scope.world.ALBDelete(scope.GetKey(), lb.value.value.id);
      return if ok then Ok(false) else Err;
    }

    method DeleteALBBackendGroup() returns (r: Result<bool>)
      requires scope.In(DelBgGet)
      modifies scope.world
      ensures scope.world.Valid() && old(scope.world.trace) <= scope.world.trace
      ensures r == Ok(true) ==> scope.In(DelTgGet)
      ensures r == Ok(false) ==> scope.world.Now().round == WaitRound(scope.before, scope.Copy())
      ensures r.Err? ==> scope.world.Now().round == FailRound(scope.before, scope.Copy())
    {
      var bg := scope.world.ALBBackendGroupGetByName(scope.GetKey());
      if bg.Err? {
        return Err;
      }
      if bg.value.None? {
        return Ok(true);
      }
      var ok := scope.world.ALBBackendGroupDelete(scope.GetKey(), bg.value.value.id);
      return if ok then Ok(false) else Err;
    }

    method DeleteALBTargetGroup() returns (r: Result<bool>)
      requires scope.In(DelTgGet)
      modifies scope.world
      ensures scope.world.Valid() && old(scope.world.trace) <= scope.world.trace
      ensures r == Ok(true) ==>
                scope.world.Now().round == Busy(scope.before, scope.Copy().(finalizer := false), Closing(Done))
      ensures r == Ok(false) ==> scope.world.Now().round == WaitRound(scope.before, scope.Copy())
      ensures r.Err? ==> scope.world.Now().round == FailRound(scope.before, scope.Copy())
    {
      var tg := scope.world.ALBTargetGroupGetByName(scope.GetKey());
      if tg.Err? {
        return Err;
      }
      if tg.value.None? {
        return Ok(true);
      }
      var ok := scope.world.ALBTargetGroupDelete(scope.GetKey(), tg.value.value.id);
      return if ok then Ok(false) else Err;
    }

    method DeleteALBService() returns (r: Result<bool>)
      requires scope.In(DelLbGet)
      modifies scope.world
      ensures scope.world.Valid() && old(scope.world.trace) <= scope.world.trace
      ensures r == Ok(true) ==>
                scope.world.Now().round == Busy(scope.before, scope.Copy().(finalizer := false), Closing(Done))
      ensures r == Ok(false) ==> scope.world.Now().round == WaitRound(scope.before, scope.Copy())
      ensures r.Err? ==> scope.world.Now().round == FailRound(scope.before, scope.Copy())
    {
      r := DeleteApplicationLoadBalancer();
      if r != Ok(true) {
        return;
      }
      r := DeleteALBBackendGroup();
      if r != Ok(true) {
        return;
      }
      r := DeleteALBTargetGroup();
    }

    // ---- dispatch on the type; the network load balancer is not implemented ----

    method Reconcile() returns (ok: bool)
      requires scope.world.Valid() && scope.world.Now().round == Start(scope.before) && scope.Copy() == scope.before
      requires scope.before.finalizer && !scope.before.deleting
      modifies scope.world, scope`status
      ensures scope.world.Valid() && old(scope.world.trace) <= scope.world.trace
      ensures ok ==> scope.In(ActiveGet) && scope.spec.loadBalancer.lbType == LB_TYPE_ALB
      ensures !ok ==> scope.world.Now().round == FailRound(scope.before, scope.Copy())
    {
      if scope.spec.loadBalancer.lbType == LB_TYPE_ALB {
        ok := ReconcileALBService();
      } else if scope.spec.loadBalancer.lbType == LB_TYPE_NLB {
        ok := false;
      } else {
        ok := false;
      }
    }

    method Delete() returns (r: Result<bool>)
      requires scope.world.Valid() && scope.world.Now().round == Start(scope.before) && scope.Copy() == scope.before
      requires scope.before.finalizer && scope.before.deleting
      modifies scope.world
      ensures scope.world.Valid() && old(scope.world.trace) <= scope.world.trace
      ensures r == Ok(true) ==>
                scope.world.Now().round == Busy(scope.before, scope.Copy().(finalizer := false), Closing(Done))
      ensures r == Ok(false) ==> scope.world.Now().round == WaitRound(scope.before, scope.Copy())
      ensures r.Err? ==> scope.world.Now().round == FailRound(scope.before, scope.Copy())
    {
      if scope.spec.loadBalancer.lbType == LB_TYPE_ALB {
        r := DeleteALBService();
      } else if scope.spec.loadBalancer.lbType == LB_TYPE_NLB {
        r := Err;
      } else {
        r := Err;
      }
    }
  }

  class YandexClusterReconciler {
    const world: World

    constructor (world: World)
      ensures this.world == world
    { this.world := world; }

    /** One reconcile of the object, from reading it to the deferred patch. However the world
        interferes and whatever fails, it is a run of the protocol that ends between rounds,
        and no resource is left without the finalizer. It answers with the verdict of its
        round, unless the last patch fails. */
    method Reconcile() returns (v: Verdict, ghost ran: bool)
      requires world.Valid() && world.Now().round.Idle?
      modifies world
      ensures world.Valid() && old(world.trace) <= world.trace && world.Now().round.Idle?
      ensures !Own(world.Now()).Empty() ==> Holds(world.store)
      ensures if ran then v == world.Now().last || (v == Panicked && world.Now().last == Failed) else v == Done
    {
      var c := world.Get();
      if c.None? {
        world.Safe();
        return Done, false;
      }
      ran := true;
      var scope := new ClusterScope(world, c.value);
      if c.value.deleting {
        v := ReconcileDelete(scope);
      } else {
        v := ReconcileNormal(scope);
      }
      var ok := scope.Close();
      if !ok && v != Panicked {
        v := Failed;
      }
      world.Safe();
    }

    method ReconcileNormal(scope: ClusterScope) returns (v: Verdict)
      requires scope.world == world && world.Valid()
      requires world.Now().round == Start(scope.before) && scope.Copy() == scope.before && !scope.before.deleting
      modifies world, scope
      ensures old(world.trace) <= world.trace && scope.In(Closing(v))
    {
      if !scope.finalizer {
        scope.finalizer := true;
        return Requeue;
      }
      var lb := new AlbService(scope);
      var ok := lb.Reconcile();
      if !ok {
        scope.MarkLoadBalancer(False);
        return Failed;
      }
      var active := lb.IsActiveALB();
      if active.Err? {
        scope.MarkLoadBalancer(False);
        return Failed;
      }
      if !active.value {
        return RequeueAfter;
      }
      var state := lb.DescribeALB();
      match state
      case DescribeError =>
        scope.MarkLoadBalancer(False);
        return Failed;
      case NilPointer =>
        return Panicked;
      case Listening(e) =>
        v := AdoptListener(scope, e);
    }

    /** The load balancer has been created, has been recreated, or contradicts the endpoint. */
    method AdoptListener(scope: ClusterScope, e: Endpoint) returns (v: Verdict)
      requires scope.world == world && world.Valid()
      requires world.Now().round ==
               if scope.spec.endpoint.IsZero() || scope.spec.endpoint == e
               then Busy(scope.before, MarkedReady(scope.Copy(), e), Closing(Done))
               else Busy(scope.before, scope.Copy(), Closing(Failed))
      modifies scope
      ensures scope.In(Closing(v))
    {
      if scope.spec.endpoint.host == "" && scope.spec.endpoint.port == 0 {
        scope.spec := scope.spec.(endpoint := e);
        scope.status := scope.status.(listener := e);
        scope.MarkLoadBalancer(True);
        scope.SetReady();
        return Done;
      }
      if scope.spec.endpoint.host == e.host && scope.spec.endpoint.port == e.port {
        scope.status := scope.status.(listener := e);
        scope.MarkLoadBalancer(True);
        scope.SetReady();
        return Done;
      }
      return Failed;
    }

    method ReconcileDelete(scope: ClusterScope) returns (v: Verdict)
      requires scope.world == world && world.Valid()
      requires world.Now().round == Start(scope.before) && scope.Copy() == scope.before && scope.before.deleting
      modifies world, scope
      ensures old(world.trace) <= world.trace && scope.In(Closing(v))
    {
      if !scope.finalizer {
        return Done;
      }
      var lb := new AlbService(scope);
      var deleted := lb.Delete();
      match deleted
      case Err =>
        scope.MarkLoadBalancer(False);
        return Failed;
      case Ok(true) =>
        scope.finalizer := false;
        return Done;
      case Ok(false) =>
        scope.MarkLoadBalancer(False);
        return RequeueAfter;
    }
  }
}
