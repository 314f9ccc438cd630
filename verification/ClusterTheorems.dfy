/** Properties of every run of the cluster controller. */
module ClusterTheorems {
  import opened Basics
  import opened Api
  import opened Admission
  import opened Names
  import opened AlbCloud
  import opened ClusterProtocol
  import opened ClusterSafety

  /** While a resource created for the cluster exists, the stored object still has its
      finalizer; once the object is gone, everything is gone. */
  lemma {:induction false} NoResourceOutlivesTheObject(s: Sys, acts: seq<Action>)
    requires Initial(s) && KeepsFolderAlways(s, acts)
    ensures var t := Run(s, acts);
            && (!Own(t).Empty() ==> Holds(t.obj))
            && (t.obj.None? ==> Own(t).Empty())
  {
    InitialInv(s);
    RunInv(s, acts);
  }

  /** In every state of every run, links lead to existing resources that are not being
      deleted, and no name is ever taken twice. */
  lemma {:induction false} DependencyOrder(s: Sys, acts: seq<Action>)
    requires Initial(s) && KeepsFolderAlways(s, acts)
    ensures var r := Own(Run(s, acts)); DependenciesHold(r) && r.AtMostOneEach()
  {
    InitialInv(s);
    RunInv(s, acts);
    LinksGiveDependencies(Own(Run(s, acts)));
  }

  lemma LinksGiveDependencies(r: Resources)
    requires LinksOk(r)
    ensures DependenciesHold(r)
  {
    forall lb <- r.lbs ensures exists bg <- r.bgs :: bg.id == lb.backendGroup && !bg.deleting {
      assert lb == r.lbs[0] && r.bgs[0] in r.bgs;
    }
    forall bg <- r.bgs ensures exists tg <- r.tgs :: tg.id == bg.targetGroup && !tg.deleting {
      assert bg == r.bgs[0] && r.tgs[0] in r.tgs;
    }
  }

  /** Whatever a round reads, creates or deletes, it does under the folder and name of the
      object's creation, and it takes the application load balancer branch. */
  lemma {:induction false} OneNameOneType(s: Sys, acts: seq<Action>)
    requires Initial(s) && KeepsFolderAlways(s, acts)
    ensures var t := Run(s, acts);
            && (t.obj.Some? ==> KeyOf(t.generated, t.obj.value.spec) == t.home
                                && t.obj.value.spec.loadBalancer.lbType == LB_TYPE_ALB)
            && (t.round.Busy? ==> KeyOf(t.generated, t.round.work.spec) == t.home
                                  && t.round.work.spec.loadBalancer.lbType == LB_TYPE_ALB)
  {
    InitialInv(s);
    RunInv(s, acts);
  }

  /** The folder of the spec, with the name it gives, or the generated one when it gives none. */
  predicate NamedBy(k: Key, spec: ClusterSpec, generated: string) {
    && k.folder == spec.folder
    && (spec.loadBalancer.name != "" ==> k.name == spec.loadBalancer.name)
    && (spec.loadBalancer.name == "" ==> k.name == generated)
  }

  /** In every run the folder and name under which the resources are kept are those that the
      object, and the copy of a round, ask for. A name generated for the owning Cluster has 4 to
      63 legal characters and ends in -api. */
  lemma {:induction false} ResourcesAreNamedAsSpecified(s: Sys, acts: seq<Action>, owner: Owner)
    requires Initial(s) && KeepsFolderAlways(s, acts)
    requires IsDigest(owner.digest) && s.generated == GenerateName(owner)
    ensures var t := Run(s, acts);
            && (t.obj.Some? ==> NamedBy(t.home, t.obj.value.spec, GenerateName(owner)))
            && (t.round.Busy? ==> NamedBy(t.home, t.round.work.spec, GenerateName(owner)))
            && (t.obj.Some? && t.obj.value.spec.loadBalancer.name == "" ==>
                  4 <= |t.home.name| <= 63 && IsClean(t.home.name) && t.home.name[|t.home.name| - 4..] == SUFFIX)
  {
    OneNameOneType(s, acts);
  }

  // ---- the endpoint ----

  predicate EndpointSet(s: Sys) { s.obj.Some? && !s.obj.value.spec.endpoint.IsZero() }

  lemma StepKeepsEndpoint(s: Sys, a: Action)
    requires EndpointSet(s)
    ensures var t := Apply(s, a);
            t.obj.Some? ==> t.obj.value.spec.endpoint == s.obj.value.spec.endpoint
                            && t.obj.value.spec.loadBalancer == s.obj.value.spec.loadBalancer
  {
  }

  lemma GoneStaysGone(s: Sys, a: Action)
    requires s.obj.None?
    ensures Apply(s, a).obj.None?
  {
  }

  /** No user edit and no patch of the controller changes an endpoint once it is set. */
  lemma {:induction false} EndpointIsWriteOnce(s: Sys, acts: seq<Action>)
    requires EndpointSet(s)
    ensures var t := Run(s, acts);
            t.obj.Some? ==> t.obj.value.spec.endpoint == s.obj.value.spec.endpoint
                            && t.obj.value.spec.loadBalancer == s.obj.value.spec.loadBalancer
  {
    if acts != [] {
      var prefix := acts[..|acts| - 1];
      EndpointIsWriteOnce(s, prefix);
      if Run(s, prefix).obj.Some? {
        StepKeepsEndpoint(Run(s, prefix), acts[|acts| - 1]);
      } else {
        GoneStaysGone(Run(s, prefix), acts[|acts| - 1]);
      }
    }
  }

  /** The endpoint is empty or valid, and Ready means that it is the recorded listener. */
  lemma {:induction false} EndpointAgreesWithStatus(s: Sys, acts: seq<Action>)
    requires Initial(s) && KeepsFolderAlways(s, acts)
    ensures var t := Run(s, acts);
            t.obj.Some? ==> EndpointOk(t.obj.value.spec.endpoint) && ReadyAgrees(t.obj.value)
  {
    InitialInv(s);
    RunInv(s, acts);
  }

  // ---- a lost load balancer, no listener address in the spec ----

  /** The endpoint is set, the spec fixes no address, and the round in flight, if any, has
      read that. */
  predicate Stranded(s: Sys) {
    && (s.obj.Some? ==> s.obj.value.spec.endpoint.IsValid() && s.obj.value.spec.loadBalancer.listener.address == "")
    && (s.round.Busy? ==>
          && s.round.work.spec.endpoint.IsValid()
          && s.round.work.spec.loadBalancer.listener.address == ""
          && !s.round.stage.LbCreate?)
  }

  predicate IdsFrom(lbs: seq<LoadBalancer>, ids: set<Id>) { forall lb <- lbs :: lb.id in ids }

  lemma StrandedStep(s: Sys, a: Action, ids: set<Id>)
    requires Inv(s) && KeepsFolder(s, a) && Stranded(s) && IdsFrom(Own(s).lbs, ids)
    ensures Stranded(Apply(s, a)) && IdsFrom(Own(Apply(s, a)).lbs, ids)
  {
    if a.LbMoves? || a.LbVanishes? {
      LbEventsCreateNothing(s, a, ids);
    } else if a.Call? {
      if s.round.Busy? && a.reply.Proper() {
        StrandedCall(s, a.reply, ids);
      }
    } else {
      OthersLeaveLoadBalancers(s, a);
      OthersKeepStranded(s, a);
    }
  }

  lemma OthersKeepStranded(s: Sys, a: Action)
    requires Inv(s) && KeepsFolder(s, a) && Stranded(s) && !a.Call?
    ensures Stranded(Apply(s, a))
  {
  }

  lemma OthersLeaveLoadBalancers(s: Sys, a: Action)
    requires !a.Call? && !a.LbMoves? && !a.LbVanishes?
    ensures Own(Apply(s, a)).lbs == Own(s).lbs
  {
  }

  lemma LbEventsCreateNothing(s: Sys, a: Action, ids: set<Id>)
    requires (a.LbMoves? || a.LbVanishes?) && IdsFrom(Own(s).lbs, ids)
    ensures IdsFrom(Own(Apply(s, a)).lbs, ids)
  {
    assert a.key != s.home ==> Own(Apply(s, a)).lbs == Own(s).lbs;
  }

  lemma StrandedCall(s: Sys, r: Reply, ids: set<Id>)
    requires Inv(s) && Stranded(s) && IdsFrom(Own(s).lbs, ids)
    requires s.round.Busy? && r.Proper()
    ensures Stranded(CallStep(s, r)) && IdsFrom(Own(CallStep(s, r)).lbs, ids)
  {
    if Mutating(s.round.stage) {
      StrandedWrite(s, r, ids);
    } else {
      assert Own(CallStep(s, r)) == Own(s);
    }
  }

  lemma StrandedWrite(s: Sys, r: Reply, ids: set<Id>)
    requires Inv(s) && Stranded(s) && IdsFrom(Own(s).lbs, ids)
    requires s.round.Busy? && Mutating(s.round.stage) && r.Proper()
    ensures Stranded(CallStep(s, r)) && IdsFrom(Own(CallStep(s, r)).lbs, ids)
  {
    WriteIsLocal(s, r);
    assert Own(CallStep(s, r)) == if r.outcome.Effective() then Own(s.(cloud := WriteEffect(s, r))) else Own(s);
  }

  /** From there on no continuation has a load balancer that did not exist already. */
  lemma {:induction false} StrandedNeverCreates(s: Sys, acts: seq<Action>)
    requires Inv(s) && KeepsFolderAlways(s, acts) && Stranded(s)
    ensures var ids := set lb <- Own(s).lbs :: lb.id;
            Stranded(Run(s, acts)) && IdsFrom(Own(Run(s, acts)).lbs, ids)
  {
    if acts != [] {
      var prefix := acts[..|acts| - 1];
      StrandedNeverCreates(s, prefix);
      RunInv(s, prefix);
      StrandedStep(Run(s, prefix), acts[|acts| - 1], set lb <- Own(s).lbs :: lb.id);
    }
  }

  // ---- reading the listener of a load balancer that is gone ----

  predicate OnlyOthers(acts: seq<Action>) { forall a <- acts :: IsEnvironment(a) }

  lemma EnvironmentStep(s: Sys, a: Action)
    requires IsEnvironment(a) && |Own(s).lbs| <= 1
    ensures var t := Apply(s, a);
            && t.round == s.round && |Own(t).lbs| <= 1
            && (Own(t).lbs == [] <==> Own(s).lbs == [] || a == LbVanishes(s.home, 0))
  {
    if (a.LbMoves? || a.LbVanishes?) && a.key == s.home {
    } else {
      assert Own(Apply(s, a)).lbs == Own(s).lbs;
    }
  }

  /** Whatever others do, a load balancer is gone if and only if it vanished. */
  lemma {:induction false} GoneExactlyIfVanished(s: Sys, acts: seq<Action>)
    requires OnlyOthers(acts) && |Own(s).lbs| == 1
    ensures var t := Run(s, acts);
            && t.round == s.round && |Own(t).lbs| <= 1
            && (Own(t).lbs == [] <==> LbVanishes(s.home, 0) in acts)
  {
    if acts != [] {
      GoneExactlyIfVanished(s, acts[..|acts| - 1]);
      EnvironmentStep(Run(s, acts[..|acts| - 1]), acts[|acts| - 1]);
      assert acts == acts[..|acts| - 1] + [acts[|acts| - 1]];
    }
  }

  /** A round that has seen its load balancer active panics in the next successful read if and
      only if, among all that others did in between, the load balancer vanished. */
  lemma {:induction false} DescribePanicsExactlyWhenLost(s: Sys, look: Reply, between: seq<Action>, read: Reply)
    requires Inv(s) && s.round.Busy? && s.round.stage.ActiveGet?
    requires Own(s).lbs != [] && Own(s).lbs[0].status == Active
    requires look.Proper() && look.outcome == Success && read.Proper() && read.outcome == Success
    requires OnlyOthers(between)
    ensures var t := Apply(Run(Apply(s, Call(look)), between), Call(read));
            t.round.Busy? && (t.round.stage == Closing(Panicked) <==> LbVanishes(s.home, 0) in between)
  {
    var s1 := Apply(s, Call(look));
    assert s1 == s.(round := Busy(s.round.before, s.round.work, DescribeGet));
    GoneExactlyIfVanished(s1, between);
    DescribeReads(Run(s1, between), read);
  }

  lemma DescribeReads(s: Sys, r: Reply)
    requires s.round.Busy? && s.round.stage.DescribeGet? && KeyOf(s.generated, s.round.work.spec) == s.home
    requires r.Proper() && r.outcome == Success
    ensures var t := Apply(s, Call(r));
            t.round.Busy? && (t.round.stage == Closing(Panicked) <==> Own(s).lbs == [])
  {
    assert CallStep(s, r) == s.(round := ReadStep(s, r.outcome));
  }

  // ---- the target group, which the machines share ----

  predicate Lives(s: Sys) { s.obj.Some? && !s.obj.value.deleting }

  lemma DeletionIsFinal(s: Sys, a: Action)
    requires Lives(Apply(s, a))
    ensures Lives(s)
  {
  }

  lemma KeptStep(s: Sys, a: Action)
    requires Inv(s) && Lives(s) && Own(s).tgs != []
    ensures var tgs := Own(Apply(s, a)).tgs;
            && tgs != [] && tgs[0].id == Own(s).tgs[0].id
            && (!a.TargetsChange? ==> tgs[0].targets == Own(s).tgs[0].targets)
  {
    if a.Call? && s.round.Busy? && Mutating(s.round.stage) {
      WriteIsLocal(s, a.reply);
    }
  }

  /** Whatever the controller and others do, the target group of a cluster that is not being
      deleted stays, under its id: registered targets are not lost with it. */
  lemma {:induction false} TargetGroupIsKept(s: Sys, acts: seq<Action>)
    requires Inv(s) && KeepsFolderAlways(s, acts) && Own(s).tgs != [] && Lives(Run(s, acts))
    ensures Own(Run(s, acts)).tgs != [] && Own(Run(s, acts)).tgs[0].id == Own(s).tgs[0].id
  {
    if acts != [] {
      var prefix := acts[..|acts| - 1];
      DeletionIsFinal(Run(s, prefix), acts[|acts| - 1]);
      TargetGroupIsKept(s, prefix);
      RunInv(s, prefix);
      KeptStep(Run(s, prefix), acts[|acts| - 1]);
    }
  }
}
