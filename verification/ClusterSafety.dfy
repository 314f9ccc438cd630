/** What every run of the cluster controller keeps, whatever fails and whoever interferes. */
module ClusterSafety {
  import opened Basics
  import opened Api
  import opened Admission
  import opened Names
  import opened AlbCloud
  import opened ClusterProtocol

  // ---- views of the cluster's own resources ----

  /** The resources found under the cluster's folder and name. */
  datatype Resources = Resources(tgs: seq<TargetGroup>, bgs: seq<BackendGroup>, lbs: seq<LoadBalancer>) {
    predicate Empty() { tgs == [] && bgs == [] && lbs == [] }

    predicate AtMostOneEach() { |tgs| <= 1 && |bgs| <= 1 && |lbs| <= 1 }
  }

  function Own(s: Sys): Resources {
    Resources(At(s.cloud.tgs, s.home), At(s.cloud.bgs, s.home), At(s.cloud.lbs, s.home))
  }

  predicate Holds(obj: Option<Cluster>) { obj.Some? && obj.value.finalizer }

  /** A load balancer points to the backend group that exists, a backend group to the
      target group that exists, and neither of these is being deleted. */
  predicate DependenciesHold(r: Resources) {
    && (forall lb <- r.lbs :: exists bg <- r.bgs :: bg.id == lb.backendGroup && !bg.deleting)
    && (forall bg <- r.bgs :: exists tg <- r.tgs :: tg.id == bg.targetGroup && !tg.deleting)
  }

  predicate EndpointOk(e: Endpoint) {
    e.IsZero() || (e.host != "" && 1 <= e.port <= 65535)
  }

  /** Ready means that the endpoint is populated with the recorded listener, which is the
      listener the spec asks for wherever the spec decides it. */
  predicate ReadyAgrees(c: Cluster) {
    c.status.ready ==>
      && c.spec.endpoint.IsValid()
      && c.spec.endpoint == c.status.listener
      && c.spec.endpoint.port == c.spec.loadBalancer.listener.port
      && (c.spec.loadBalancer.listener.address != "" ==> c.spec.endpoint.host == c.spec.loadBalancer.listener.address)
  }

  predicate ListenerMatches(lb: LoadBalancer, l: Listener) {
    && lb.address != "" && lb.port == l.port && (l.address != "" ==> lb.address == l.address)
    && lb.zone == l.zone && lb.subnet == l.subnet
  }

  function ListenerOf(lb: LoadBalancer): Endpoint { Endpoint(lb.address, lb.port) }

  /** A missing load balancer can be made again, unless clients already know an endpoint
      whose address the cloud chose. */
  predicate Recreatable(c: Cluster) {
    !(c.spec.endpoint.IsValid() && c.spec.loadBalancer.listener.address == "")
  }

  // ---- the inductive invariant, stated on the parts of the system ----

  predicate SpecFits(generated: string, home: Key, spec: ClusterSpec) {
    && KeyOf(generated, spec) == home
    && spec.loadBalancer.lbType == LB_TYPE_ALB
    && 1 <= spec.loadBalancer.listener.port <= 65535
    && EndpointOk(spec.endpoint)
  }

  predicate ObjectOk(generated: string, home: Key, obj: Option<Cluster>) {
    obj.Some? ==> SpecFits(generated, home, obj.value.spec) && ReadyAgrees(obj.value)
  }

  predicate LinksOk(r: Resources) {
    && r.AtMostOneEach()
    && (r.lbs != [] ==> r.bgs != [] && r.lbs[0].backendGroup == r.bgs[0].id && !r.bgs[0].deleting)
    && (r.bgs != [] ==> r.tgs != [] && r.bgs[0].targetGroup == r.tgs[0].id && !r.tgs[0].deleting)
  }

  predicate MarkedDeleting(r: Resources) {
    (r.bgs != [] && r.bgs[0].deleting) || (r.tgs != [] && r.tgs[0].deleting)
  }

  /** Every resource is the one the (immutable) load balancer spec asks for. */
  predicate AsRequested(r: Resources, lb: LoadBalancerSpec) {
    && (r.bgs != [] ==> r.bgs[0].port == lb.backendPort && r.bgs[0].health == lb.healthcheck)
    && (r.lbs != [] ==> ListenerMatches(r.lbs[0], lb.listener))
  }

  predicate ResourcesOk(obj: Option<Cluster>, r: Resources) {
    && LinksOk(r)
    && (r.Empty() || Holds(obj))
    && (obj.Some? ==> AsRequested(r, obj.value.spec.loadBalancer))
    && (MarkedDeleting(r) ==> obj.Some? && obj.value.deleting)
  }

  /** What the copy of a round has to do with the object as it was read. */
  predicate CopyOk(b: Cluster, w: Cluster) {
    && w.spec == b.spec.(endpoint := w.spec.endpoint)
    && EndpointOk(w.spec.endpoint)
    && (!b.spec.endpoint.IsZero() ==> w.spec.endpoint == b.spec.endpoint)
    && w.deleting == b.deleting
    && ReadyAgrees(b) && ReadyAgrees(w)
  }

  /** What may have happened to the stored object since it was read. */
  predicate StoredSince(stored: Option<Cluster>, b: Cluster) {
    && (b.finalizer ==> Holds(stored))
    && (stored.Some? ==>
          && (stored.value.finalizer ==> b.finalizer)
          && (b.deleting ==> stored.value.deleting)
          && stored.value.status == b.status
          && stored.value.spec.loadBalancer == b.spec.loadBalancer
          && (!b.spec.endpoint.IsZero() ==> stored.value.spec.endpoint == b.spec.endpoint))
  }

  predicate Forward(stage: Stage) {
    || stage.TgGet? || stage.TgCreate? || stage.BgGet? || stage.BgCreate?
    || stage.LbGet? || stage.LbCreate? || stage.ActiveGet? || stage.DescribeGet?
  }

  predicate StageOk(r: Resources, b: Cluster, w: Cluster, stage: Stage) {
    && (!stage.Closing? ==> b.finalizer && w.finalizer && (Forward(stage) <==> !b.deleting))
    && (!b.deleting ==> !MarkedDeleting(r))
    && match stage
       case TgCreate => r.tgs == []
       case BgGet(tg) => r.tgs != [] && r.tgs[0].id == tg
       case BgCreate(tg) => r.tgs != [] && r.tgs[0].id == tg && r.bgs == []
       case LbGet(bg) => r.bgs != [] && r.bgs[0].id == bg
       case LbCreate(bg) => r.bgs != [] && r.bgs[0].id == bg && r.lbs == []
       case DelBgGet => r.lbs == []
       case DelLb(id) => r.lbs != [] ==> r.lbs[0].id == id
       case DelBg(id) => r.lbs == [] && (r.bgs != [] ==> r.bgs[0].id == id)
       case DelTgGet => r.lbs == [] && r.bgs == []
       case DelTg(id) => r.lbs == [] && r.bgs == [] && (r.tgs != [] ==> r.tgs[0].id == id)
       case Closing(_) => (w.finalizer && b.finalizer) || r.Empty()
       case _ => true
  }

  predicate RoundOk(generated: string, home: Key, obj: Option<Cluster>, r: Resources, round: Round) {
    round.Busy? ==>
      && SpecFits(generated, home, round.before.spec)
      && CopyOk(round.before, round.work)
      && StoredSince(obj, round.before)
      && StageOk(r, round.before, round.work, round.stage)
  }

  predicate Inv(s: Sys) {
    && ObjectOk(s.generated, s.home, s.obj)
    && ResourcesOk(s.obj, Own(s))
    && RoundOk(s.generated, s.home, s.obj, Own(s), s.round)
  }

  // ---- preservation ----

  lemma InitialInv(s: Sys)
    requires Initial(s)
    ensures Inv(s)
  {
  }

  lemma BeginInv(s: Sys)
    requires Inv(s)
    ensures Inv(Apply(s, Begin))
  {
  }

  /** Every read of a round looks under `home`, and what follows fits the resources it saw. */
  lemma ReadInv(s: Sys, r: Reply)
    requires Inv(s) && s.round.Busy? && !s.round.stage.Closing? && !Mutating(s.round.stage)
    ensures Inv(CallStep(s, r))
  {
    var Busy(b, w, stage) := s.round;
    var next := ReadStep(s, r.outcome);
    assert KeyOf(s.generated, w.spec) == s.home;
    match stage
    case TgGet => TgGetOk(Own(s), b, w, r.outcome);
    case BgGet(tg) => BgGetOk(Own(s), b, w, tg, r.outcome);
    case LbGet(bg) => LbGetOk(Own(s), b, w, bg, r.outcome);
    case ActiveGet => ActiveGetOk(Own(s), b, w, r.outcome);
    case DescribeGet => DescribeGetOk(s.obj, Own(s), b, w, r.outcome);
    case DelLbGet => DelLbGetOk(Own(s), b, w, r.outcome);
    case DelBgGet => DelBgGetOk(Own(s), b, w, r.outcome);
    case DelTgGet => DelTgGetOk(Own(s), b, w, r.outcome);
  }

  predicate NextOk(res: Resources, b: Cluster, next: Round) {
    next.Busy? && next.before == b && CopyOk(b, next.work) && StageOk(res, b, next.work, next.stage)
  }

  lemma TgGetOk(res: Resources, b: Cluster, w: Cluster, o: Outcome)
    requires CopyOk(b, w) && StageOk(res, b, w, TgGet)
    ensures NextOk(res, b, AfterTgGet(b, w, Read(o, res.tgs)))
  {
  }

  lemma BgGetOk(res: Resources, b: Cluster, w: Cluster, tg: Id, o: Outcome)
    requires CopyOk(b, w) && StageOk(res, b, w, BgGet(tg))
    ensures NextOk(res, b, AfterBgGet(b, w, tg, Read(o, res.bgs)))
  {
  }

  lemma LbGetOk(res: Resources, b: Cluster, w: Cluster, bg: Id, o: Outcome)
    requires CopyOk(b, w) && StageOk(res, b, w, LbGet(bg))
    ensures NextOk(res, b, AfterLbGet(b, w, bg, Read(o, res.lbs)))
  {
  }

  lemma ActiveGetOk(res: Resources, b: Cluster, w: Cluster, o: Outcome)
    requires CopyOk(b, w) && StageOk(res, b, w, ActiveGet)
    ensures NextOk(res, b, AfterActiveGet(b, w, Read(o, res.lbs)))
  {
  }

  lemma DescribeGetOk(obj: Option<Cluster>, res: Resources, b: Cluster, w: Cluster, o: Outcome)
    requires ResourcesOk(obj, res) && StoredSince(obj, b)
    requires 1 <= b.spec.loadBalancer.listener.port <= 65535
    requires CopyOk(b, w) && StageOk(res, b, w, DescribeGet)
    ensures NextOk(res, b, AfterDescribeGet(b, w, Read(o, res.lbs)))
  {
  }

  lemma DelLbGetOk(res: Resources, b: Cluster, w: Cluster, o: Outcome)
    requires CopyOk(b, w) && StageOk(res, b, w, DelLbGet)
    ensures NextOk(res, b, AfterDelLbGet(b, w, Read(o, res.lbs)))
  {
  }

  lemma DelBgGetOk(res: Resources, b: Cluster, w: Cluster, o: Outcome)
    requires CopyOk(b, w) && StageOk(res, b, w, DelBgGet)
    ensures NextOk(res, b, AfterDelBgGet(b, w, Read(o, res.bgs)))
  {
  }

  lemma DelTgGetOk(res: Resources, b: Cluster, w: Cluster, o: Outcome)
    requires CopyOk(b, w) && StageOk(res, b, w, DelTgGet)
    ensures NextOk(res, b, AfterDelTgGet(b, w, Read(o, res.tgs)))
  {
  }

  /** The same calls, seen on the cluster's own resources. */
  function WrittenResources(res: Resources, spec: ClusterSpec, stage: Stage, r: Reply): Resources {
    var lb := spec.loadBalancer;
    match stage
    case TgCreate => res.(tgs := res.tgs + [TargetGroup(r.id, [], false)])
    case BgCreate(tg) => res.(bgs := res.bgs + [BackendGroup(r.id, tg, lb.backendPort, lb.healthcheck, false)])
    case LbCreate(bg) =>
      var address := if lb.listener.address != "" then lb.listener.address else r.address;
      res.(lbs := res.lbs + [LoadBalancer(r.id, bg, address, lb.listener.port, spec.network, lb.listener.zone,
                                          lb.listener.subnet, if r.outcome == Success then Active else Creating)])
    case DelLb(id) => res.(lbs := MarkLoadBalancer(res.lbs, id))
    case DelBg(id) => res.(bgs := MarkBackendGroup(res.bgs, id))
    case DelTg(id) => res.(tgs := MarkTargetGroup(res.tgs, id))
    case _ => res
  }

  lemma WriteIsLocal(s: Sys, r: Reply)
    requires s.round.Busy? && KeyOf(s.generated, s.round.work.spec) == s.home
    ensures Own(s.(cloud := WriteEffect(s, r))) ==
            WrittenResources(Own(s), s.round.work.spec, s.round.stage, r)
  {
    if s.round.stage.DelLb? || s.round.stage.DelBg? || s.round.stage.DelTg? {
      DeleteIsLocal(s, r);
    }
  }

  lemma DeleteIsLocal(s: Sys, r: Reply)
    requires s.round.Busy? && KeyOf(s.generated, s.round.work.spec) == s.home
    requires s.round.stage.DelLb? || s.round.stage.DelBg? || s.round.stage.DelTg?
    ensures Own(s.(cloud := WriteEffect(s, r))) ==
            WrittenResources(Own(s), s.round.work.spec, s.round.stage, r)
  {
  }

  lemma WriteOk(obj: Option<Cluster>, res: Resources, b: Cluster, w: Cluster, stage: Stage, r: Reply)
    requires ResourcesOk(obj, res) && CopyOk(b, w) && StoredSince(obj, b) && StageOk(res, b, w, stage)
    requires Mutating(stage) && r.Proper()
    ensures var res' := WrittenResources(res, w.spec, stage, r);
            ResourcesOk(obj, res') && NextOk(res', b, AfterWrite(b, w, stage, r))
    ensures !r.outcome.Effective() ==> NextOk(res, b, AfterWrite(b, w, stage, r))
  {
  }

  lemma WriteInv(s: Sys, r: Reply)
    requires Inv(s) && s.round.Busy? && Mutating(s.round.stage) && r.Proper()
    ensures Inv(CallStep(s, r))
  {
    WriteIsLocal(s, r);
    WriteOk(s.obj, Own(s), s.round.before, s.round.work, s.round.stage, r);
    assert Own(CallStep(s, r)) == if r.outcome.Effective() then Own(s.(cloud := WriteEffect(s, r))) else Own(s);
  }

  lemma ClosingInv(s: Sys, r: Reply)
    requires Inv(s) && s.round.Busy? && s.round.stage.Closing?
    ensures Inv(CallStep(s, r))
  {
  }

  lemma UserEditInv(s: Sys, a: Action)
    requires Inv(s) && KeepsFolder(s, a) && a.UserEdit?
    ensures Inv(Apply(s, a))
  {
  }

  lemma UserDeleteInv(s: Sys, a: Action)
    requires Inv(s) && (a.UserDelete? || a.Hold?)
    ensures Inv(Apply(s, a))
  {
  }

  /** The load balancer is gone or has another status; nothing else of the cluster changed. */
  predicate LbAged(s: Sys, t: Sys) {
    && t == s.(cloud := t.cloud) && Own(t) == Own(s).(lbs := Own(t).lbs)
    && (Own(t).lbs == []
        || (Own(s).lbs != [] && Own(t).lbs == [Own(s).lbs[0].(status := Own(t).lbs[0].status)]))
  }

  lemma LbEventAges(s: Sys, a: Action)
    requires |Own(s).lbs| <= 1 && (a.LbMoves? || a.LbVanishes?)
    ensures LbAged(s, Apply(s, a))
  {
    if a.key != s.home {
      assert Own(Apply(s, a)) == Own(s);
    }
  }

  lemma LbAgedInv(s: Sys, t: Sys)
    requires Inv(s) && LbAged(s, t)
    ensures Inv(t)
  {
  }

  lemma LbEventInv(s: Sys, a: Action)
    requires Inv(s) && (a.LbMoves? || a.LbVanishes?)
    ensures Inv(Apply(s, a))
  {
    LbEventAges(s, a);
    LbAgedInv(s, Apply(s, a));
  }

  /** Resources under the cluster's own name are all the invariant looks at. */
  lemma SameResourcesInv(s: Sys, t: Sys)
    requires Inv(s) && t == s.(cloud := t.cloud) && Own(t) == Own(s)
    ensures Inv(t)
  {
  }

  lemma GroupEventInv(s: Sys, a: Action)
    requires Inv(s) && (a.BgGone? || a.TgGone?)
    ensures Inv(Apply(s, a))
  {
    if a.key != s.home {
      assert Own(Apply(s, a)) == Own(s);
      SameResourcesInv(s, Apply(s, a));
    } else if a.BgGone? {
      assert Own(Apply(s, a)) == Own(s).(bgs := Own(Apply(s, a)).bgs);
    } else {
      assert Own(Apply(s, a)) == Own(s).(tgs := Own(Apply(s, a)).tgs);
    }
  }

  lemma OtherEventInv(s: Sys, a: Action)
    requires Inv(s) && (a.TargetsChange? || a.Foreign?)
    ensures Inv(Apply(s, a))
  {
    if a.Foreign? || a.key != s.home {
      assert Own(Apply(s, a)) == Own(s);
      SameResourcesInv(s, Apply(s, a));
    } else {
      assert Own(Apply(s, a)) == Own(s).(tgs := Own(Apply(s, a)).tgs);
    }
  }

  lemma ApplyInv(s: Sys, a: Action)
    requires Inv(s) && KeepsFolder(s, a)
    ensures Inv(Apply(s, a))
  {
    match a
    case Begin => BeginInv(s);
    case Call(r) =>
      if s.round.Busy? && r.Proper() {
        if s.round.stage.Closing? {
          ClosingInv(s, r);
        } else if Mutating(s.round.stage) {
          WriteInv(s, r);
        } else {
          ReadInv(s, r);
        }
      }
    case Crash =>
    case UserEdit(_, _) => UserEditInv(s, a);
    case UserDelete => UserDeleteInv(s, a);
    case Hold(_) => UserDeleteInv(s, a);
    case LbMoves(_, _, _) => LbEventInv(s, a);
    case LbVanishes(_, _) => LbEventInv(s, a);
    case BgGone(_, _) => GroupEventInv(s, a);
    case TgGone(_, _) => GroupEventInv(s, a);
    case _ => OtherEventInv(s, a);
  }

  lemma {:induction false} RunInv(s: Sys, acts: seq<Action>)
    requires Inv(s) && KeepsFolderAlways(s, acts)
    ensures Inv(Run(s, acts))
  {
    if acts != [] {
      RunInv(s, acts[..|acts| - 1]);
      ApplyInv(Run(s, acts[..|acts| - 1]), acts[|acts| - 1]);
    }
  }

  // ---- Ready means the load balancer that exists ----

  predicate ReadyFits(c: Cluster, r: Resources) {
    c.status.ready && r.lbs != [] ==> c.spec.endpoint == ListenerOf(r.lbs[0])
  }

  /** A Ready object, and every copy of it, has the listener of the load balancer as its
      endpoint, whenever there is a load balancer. */
  predicate ReadyInv(s: Sys) {
    && (s.obj.Some? ==> ReadyFits(s.obj.value, Own(s)))
    && (s.round.Busy? ==>
          && ReadyFits(s.round.before, Own(s)) && ReadyFits(s.round.work, Own(s))
          && (s.round.stage.LbCreate? ==> Recreatable(s.round.work)))
  }

  lemma ReadyWritten(obj: Option<Cluster>, res: Resources, b: Cluster, w: Cluster, stage: Stage, r: Reply)
    requires ResourcesOk(obj, res) && CopyOk(b, w) && StoredSince(obj, b) && StageOk(res, b, w, stage)
    requires obj.Some? ==> ReadyAgrees(obj.value)
    requires Mutating(stage) && r.Proper() && (stage.LbCreate? ==> Recreatable(w))
    requires (obj.Some? ==> ReadyFits(obj.value, res)) && ReadyFits(b, res) && ReadyFits(w, res)
    ensures var res', next := WrittenResources(res, w.spec, stage, r), AfterWrite(b, w, stage, r);
            && (obj.Some? ==> ReadyFits(obj.value, res')) && ReadyFits(b, res')
            && next.before == b && ReadyFits(next.work, res') && ReadyFits(next.work, res)
            && !next.stage.LbCreate?
  {
  }

  lemma ReadyWrite(s: Sys, r: Reply)
    requires Inv(s) && ReadyInv(s) && s.round.Busy? && Mutating(s.round.stage) && r.Proper()
    ensures ReadyInv(CallStep(s, r))
  {
    WriteIsLocal(s, r);
    ReadyWritten(s.obj, Own(s), s.round.before, s.round.work, s.round.stage, r);
    assert Own(CallStep(s, r)) == if r.outcome.Effective() then Own(s.(cloud := WriteEffect(s, r))) else Own(s);
  }

  lemma ReadyRead(s: Sys, r: Reply)
    requires Inv(s) && ReadyInv(s) && s.round.Busy? && !Mutating(s.round.stage) && !s.round.stage.Closing?
    ensures ReadyInv(CallStep(s, r))
  {
    assert KeyOf(s.generated, s.round.work.spec) == s.home;
  }

  lemma ReadyClose(s: Sys, r: Reply)
    requires Inv(s) && ReadyInv(s) && s.round.Busy? && s.round.stage.Closing?
    ensures ReadyInv(CallStep(s, r))
  {
  }

  lemma ReadyLbEvent(s: Sys, a: Action)
    requires Inv(s) && ReadyInv(s) && (a.LbMoves? || a.LbVanishes?)
    ensures ReadyInv(Apply(s, a))
  {
    LbEventAges(s, a);
    ReadyAged(s, Apply(s, a));
  }

  lemma ReadyAged(s: Sys, t: Sys)
    requires ReadyInv(s) && LbAged(s, t)
    ensures ReadyInv(t)
  {
  }

  lemma ReadyOtherEvent(s: Sys, a: Action)
    requires Inv(s) && ReadyInv(s) && !a.Call? && !a.LbMoves? && !a.LbVanishes?
    ensures ReadyInv(Apply(s, a))
  {
    assert Own(Apply(s, a)).lbs == Own(s).lbs;
  }

  lemma ReadyStep(s: Sys, a: Action)
    requires Inv(s) && ReadyInv(s)
    ensures ReadyInv(Apply(s, a))
  {
    if a.LbMoves? || a.LbVanishes? {
      ReadyLbEvent(s, a);
    } else if !a.Call? {
      ReadyOtherEvent(s, a);
    } else if s.round.Busy? && a.reply.Proper() {
      if s.round.stage.Closing? {
        ReadyClose(s, a.reply);
      } else if Mutating(s.round.stage) {
        ReadyWrite(s, a.reply);
      } else {
        ReadyRead(s, a.reply);
      }
    }
  }

  lemma {:induction false} ReadyRunInv(s: Sys, acts: seq<Action>)
    requires Inv(s) && ReadyInv(s) && KeepsFolderAlways(s, acts)
    ensures ReadyInv(Run(s, acts))
  {
    if acts != [] {
      ReadyRunInv(s, acts[..|acts| - 1]);
      RunInv(s, acts[..|acts| - 1]);
      ReadyStep(Run(s, acts[..|acts| - 1]), acts[|acts| - 1]);
    }
  }
}
