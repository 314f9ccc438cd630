/** The cluster controller and the machine controllers together: one cloud, one target group,
    made and deleted by the one and filled by the others. */
module Together {
  import opened Basics
  import opened Api
  import opened AlbCloud
  import opened ClusterProtocol
  import opened ClusterSafety
  import opened ClusterTheorems
  import opened FleetProtocol
  import opened FleetSafety

  datatype Both = Both(cluster: Sys, fleet: Fleet)

  datatype Event = OfCluster(a: Action) | OfFleet(b: FleetAction)

  /** The cluster's target group as a machine round sees it. */
  function Seen(s: Sys): Option<TargetGroup> {
    if Own(s).tgs == [] then None else Some(Own(s).tgs[0].(deleting := false))
  }

  /** What becomes of the machines' group when the cluster's group is `tg`. */
  function Follow(f: Fleet, tg: Option<TargetGroup>): Fleet {
    if f.tg.Some? && tg.None? then FleetApply(f, TgDisappears)
    else if f.tg.None? && tg.Some? then FleetApply(f, TgAppears(tg.value.id))
    else f
  }

  /** Targets of the cluster's group change by calls of machines only, and the group comes and
      goes by actions of the cluster only. */
  function Happen(j: Both, e: Event): Both {
    match e
    case OfCluster(a) =>
      if a.TargetsChange? && a.key == j.cluster.home then j
      else
        var s := Apply(j.cluster, a);
        Both(s, Follow(j.fleet, Seen(s)))
    case OfFleet(b) =>
      if b.TgAppears? || b.TgDisappears? then j
      else
        var f := FleetApply(j.fleet, b);
        if f.tg == j.fleet.tg then j.(fleet := f)
        else Both(Apply(j.cluster, TargetsChange(j.cluster.home, 0, Targets(f.tg))), f)
  }

  function History(j: Both, es: seq<Event>): Both {
    if es == [] then j else Happen(History(j, es[..|es| - 1]), es[|es| - 1])
  }

  predicate Relied(j: Both, e: Event) {
    match e
    case OfCluster(a) => KeepsFolder(j.cluster, a)
    case OfFleet(b) => Assumed(j.fleet, b)
  }

  predicate ReliedAlways(j: Both, es: seq<Event>) {
    es == [] || (ReliedAlways(j, es[..|es| - 1]) && Relied(History(j, es[..|es| - 1]), es[|es| - 1]))
  }

  ghost predicate BothInv(j: Both) {
    && Inv(j.cluster) && FleetInv(j.fleet)
    && j.fleet.tg == Seen(j.cluster)
    && (j.fleet.tgLost ==> !Lives(j.cluster))
  }

  /** The group as machines see it is the same afterwards, or gone, or new and empty. */
  predicate SeenAfter(s: Sys, t: Sys) {
    || Seen(t) == Seen(s) || Seen(t).None?
    || (Seen(s).None? && Seen(t).value == TargetGroup(Seen(t).value.id, [], false))
  }

  lemma SeenWrite(s: Sys, r: Reply)
    requires Inv(s) && s.round.Busy? && Mutating(s.round.stage) && r.Proper()
    ensures SeenAfter(s, CallStep(s, r))
  {
    WriteIsLocal(s, r);
    assert Own(CallStep(s, r)) == if r.outcome.Effective() then Own(s.(cloud := WriteEffect(s, r))) else Own(s);
  }

  /** Actions that leave the cluster's own groups alone. */
  lemma GroupsUntouched(s: Sys, a: Action)
    requires !(a.TargetsChange? && a.key == s.home) && !(a.TgGone? && a.key == s.home)
    requires a.Call? && s.round.Busy? ==> !Mutating(s.round.stage)
    ensures Own(Apply(s, a)).tgs == Own(s).tgs
  {
  }

  lemma SeenStep(s: Sys, a: Action)
    requires Inv(s) && !(a.TargetsChange? && a.key == s.home)
    ensures SeenAfter(s, Apply(s, a))
  {
    if a.Call? && s.round.Busy? && Mutating(s.round.stage) {
      if a.reply.Proper() {
        SeenWrite(s, a.reply);
      }
    } else if a.TgGone? && a.key == s.home {
      assert |Own(s).tgs| <= 1;
    } else {
      GroupsUntouched(s, a);
    }
  }

  lemma ClusterEvent(j: Both, a: Action)
    requires BothInv(j) && KeepsFolder(j.cluster, a)
    ensures BothInv(Happen(j, OfCluster(a)))
  {
    if !(a.TargetsChange? && a.key == j.cluster.home) {
      var s := Apply(j.cluster, a);
      ApplyInv(j.cluster, a);
      SeenStep(j.cluster, a);
      if j.fleet.tg.Some? && Seen(s).None? {
        FleetApplyInv(j.fleet, TgDisappears);
        if Lives(s) {
          DeletionIsFinal(j.cluster, a);
          KeptStep(j.cluster, a);
        }
      } else if j.fleet.tg.None? && Seen(s).Some? {
        FleetApplyInv(j.fleet, TgAppears(Seen(s).value.id));
      }
      if Lives(s) {
        DeletionIsFinal(j.cluster, a);
      }
    }
  }

  /** Only calls move targets, and they change nothing else of the group. */
  lemma FleetMovesTargetsOnly(f: Fleet, b: FleetAction)
    requires FleetInv(f) && !b.TgAppears? && !b.TgDisappears?
    ensures var g := FleetApply(f, b);
            && g.tgLost == f.tgLost
            && (g.tg == f.tg || (f.tg.Some? && g.tg == Some(f.tg.value.(targets := Targets(g.tg)))))
  {
    if b.MCall? && Possible(f, b.uid, b.reply) {
      TgReach(b.uid, Local(f.slots[b.uid], f.vms, f.tg), b.reply, f.tgLost);
    }
  }

  lemma TargetsMove(s: Sys, targets: seq<Target>)
    requires Inv(s) && Own(s).tgs != []
    ensures var t := Apply(s, TargetsChange(s.home, 0, targets));
            && Inv(t) && t.obj == s.obj && Seen(t) == Some(Seen(s).value.(targets := targets))
  {
    ApplyInv(s, TargetsChange(s.home, 0, targets));
    assert Own(Apply(s, TargetsChange(s.home, 0, targets))).tgs[0] == Own(s).tgs[0].(targets := targets);
  }

  lemma FleetEvent(j: Both, b: FleetAction)
    requires BothInv(j) && Assumed(j.fleet, b)
    ensures BothInv(Happen(j, OfFleet(b)))
  {
    if !b.TgAppears? && !b.TgDisappears? {
      var f := FleetApply(j.fleet, b);
      FleetApplyInv(j.fleet, b);
      FleetMovesTargetsOnly(j.fleet, b);
      if f.tg != j.fleet.tg {
        TargetsMove(j.cluster, Targets(f.tg));
      }
    }
  }

  lemma {:induction false} HistoryInv(j: Both, es: seq<Event>)
    requires BothInv(j) && ReliedAlways(j, es)
    ensures BothInv(History(j, es))
  {
    if es != [] {
      var prefix := es[..|es| - 1];
      HistoryInv(j, prefix);
      match es[|es| - 1]
      case OfCluster(a) => ClusterEvent(History(j, prefix), a);
      case OfFleet(b) => FleetEvent(History(j, prefix), b);
    }
  }

  /** In every history of one cluster and its machines: as long as the cluster is not being
      deleted, each Ready control-plane machine that is not being deleted has its recorded
      target in the cluster's own target group. */
  lemma {:induction false} ReadyMachinesAreInTheClustersGroup(s: Sys, es: seq<Event>, uid: Uid)
    requires Initial(s) && ReliedAlways(Both(s, NO_FLEET), es)
    requires var j := History(Both(s, NO_FLEET), es);
             && Lives(j.cluster) && uid in j.fleet.slots
             && j.fleet.slots[uid].controlPlane && j.fleet.slots[uid].obj.status.ready
             && !j.fleet.slots[uid].obj.deleting
    ensures var j := History(Both(s, NO_FLEET), es);
            && Own(j.cluster).tgs != [] && Recorded(j.fleet.slots[uid].obj).Some?
            && Recorded(j.fleet.slots[uid].obj).value in Own(j.cluster).tgs[0].targets
  {
    InitialInv(s);
    HistoryInv(Both(s, NO_FLEET), es);
    var j := History(Both(s, NO_FLEET), es);
    assert SlotOk(uid, j.fleet.slots[uid], j.fleet.vms, j.fleet.tg, j.fleet.tgLost);
  }

  /** In every history the load balancer spec that a machine round reads from the cluster is of
      the type that is implemented, so that registration and deregistration never take the
      branches that only fail. */
  lemma {:induction false} MachineRoundsReadTheImplementedType(s: Sys, es: seq<Event>)
    requires Initial(s) && ReliedAlways(Both(s, NO_FLEET), es)
    ensures var c := History(Both(s, NO_FLEET), es).cluster.obj;
            c.Some? ==> c.value.spec.loadBalancer.lbType == LB_TYPE_ALB
  {
    InitialInv(s);
    HistoryInv(Both(s, NO_FLEET), es);
  }
}
