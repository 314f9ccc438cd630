/** Undisturbed, fault-free rounds of the cluster controller: what they reach, from any
    state that any run can leave behind. */
module ClusterConvergence {
  import opened Basics
  import opened Api
  import opened Admission
  import opened AlbCloud
  import opened ClusterProtocol
  import opened ClusterSafety
  import opened ClusterTheorems
  import opened ClusterRounds

  // ---- one forward round ----

  /** A round may work on this object: it has its finalizer and is not being deleted. */
  predicate Reconcilable(s: Sys) {
    s.round.Idle? && Holds(s.obj) && !s.obj.value.deleting
  }

  /** The part of a round that looks after the two groups. */
  function GroupsServed(s: Sys, calls: seq<Reply>): Leg
    requires |calls| >= MAX_CALLS
  {
    var Leg(t, rest) := Walk(Apply(s, Begin), calls, LegLength(Own(s).tgs));
    Walk(t, rest, LegLength(Own(t).bgs))
  }

  lemma {:induction false} GroupLegs(s: Sys, calls: seq<Reply>)
    requires Inv(s) && Reconcilable(s) && Smooth(calls)
    ensures var Leg(t, rest) := GroupsServed(s, calls);
            && GoodCalls(rest, 5) && Reconciled(s, calls) == Drive(t, rest)
            && Inv(t) && t.obj == s.obj && t.home == s.home
            && Own(t).tgs != [] && Own(t).bgs != [] && Own(t).lbs == Own(s).lbs
            && t.round == Busy(s.obj.value, s.obj.value, LbGet(Own(t).bgs[0].id))
            && (Own(s).bgs != [] ==> t == s.(round := t.round))
            && forall r <- rest :: r in calls
  {
    BeginInv(s);
    var s0 := Apply(s, Begin);
    assert s0 == s.(round := Busy(s.obj.value, s.obj.value, TgGet)) && Own(s0) == Own(s);
    TargetGroupLeg(s0, calls);
    var Leg(s1, rest1) := Walk(s0, calls, LegLength(Own(s).tgs));
    BackendGroupLeg(s1, rest1);
  }

  /** The whole round: the groups exist afterwards, and the load balancer does exactly when
      it did before or may be made again. */
  lemma {:induction false} ForwardRound(s: Sys, calls: seq<Reply>)
    requires Inv(s) && Reconcilable(s) && Smooth(calls)
    ensures var t := Reconciled(s, calls);
            && Inv(t) && t.round.Idle? && t.home == s.home
            && Own(t).tgs != [] && Own(t).bgs != []
            && (Own(t).lbs != [] <==> Own(s).lbs != [] || Recreatable(s.obj.value))
            && (Own(s).lbs != [] ==> Own(t).lbs == Own(s).lbs)
  {
    ReconciledInv(s, calls);
    RoundsEnd(Apply(s, Begin), calls);
    RoundEffect(s, calls);
  }

  lemma {:induction false} RoundEffect(s: Sys, calls: seq<Reply>)
    requires Inv(s) && Reconcilable(s) && Smooth(calls)
    ensures var t := Reconciled(s, calls);
            && t.home == s.home && Own(t).tgs != [] && Own(t).bgs != []
            && (Own(t).lbs != [] <==> Own(s).lbs != [] || Recreatable(s.obj.value))
            && (Own(s).lbs != [] ==> Own(t).lbs == Own(s).lbs)
  {
    GroupLegs(s, calls);
    var Leg(s1, rest1) := GroupsServed(s, calls);
    if Own(s).lbs != [] || Recreatable(s.obj.value) {
      LoadBalancerLeg(s1, rest1);
      var Leg(s2, rest2) := Walk(s1, rest1, LegLength(Own(s).lbs));
      ActiveLegKeepsCloud(s2, rest2);
      assert Own(Reconciled(s, calls)) == Own(s2);
    } else {
      StrandedLeg(s1, rest1);
      assert Own(Reconciled(s, calls)) == Own(s1);
    }
  }

  /** Nothing to balance and nothing that may be made: the round fails and changes no resource. */
  lemma {:induction false} StrandedLeg(s: Sys, calls: seq<Reply>)
    requires Inv(s) && s.round.Busy? && s.round.stage.LbGet? && GoodCalls(calls, 2)
    requires Own(s).lbs == [] && !Recreatable(s.round.work)
    ensures Drive(s, calls).cloud == s.cloud && Drive(s, calls).home == s.home && Drive(s, calls).last == Failed
    ensures s.obj == Some(s.round.before) && s.round.work == s.round.before ==>
              Drive(s, calls).obj == Some(Marked(s.round.before, False))
  {
    var s1 := Apply(s, Call(calls[0]));
    assert s1 == s.(round := FailRound(s.round.before, s.round.work));
    if s.obj == Some(s.round.before) && s.round.work == s.round.before {
      UndisturbedClose(s1, calls[1]);
    }
    WalkUnrolled(s, calls);
    IdleDrive(Apply(s1, Call(calls[1])), calls[2..]);
  }

  /** From the look at the load balancer's status on, a round only reads. */
  lemma {:induction false} ActiveLegKeepsCloud(s: Sys, calls: seq<Reply>)
    requires s.round.Idle? || s.round.stage.ActiveGet? || s.round.stage.DescribeGet? || s.round.stage.Closing?
    ensures Drive(s, calls).cloud == s.cloud && Drive(s, calls).writes == s.writes && Drive(s, calls).home == s.home
    decreases |calls|
  {
    if calls != [] {
      ActiveLegKeepsCloud(Apply(s, Call(calls[0])), calls[1..]);
    }
  }

  // ---- retries ----

  /** What a cluster owns, up to ids and up to an address the spec leaves to the cloud. */
  datatype Topology = Topology(
    targetGroups: nat, backendGroups: nat, loadBalancers: nat, linked: bool,
    backendPort: int, health: Healthcheck, listener: Endpoint, zone: string, subnet: string)

  function TopologyOf(r: Resources, addressFixed: bool): Topology {
    if r.tgs == [] || r.bgs == [] || r.lbs == [] then
      Topology(|r.tgs|, |r.bgs|, |r.lbs|, false, 0, Healthcheck(0, 0, 0), NO_ENDPOINT, "", "")
    else
      Topology(|r.tgs|, |r.bgs|, |r.lbs|,
               r.lbs[0].backendGroup == r.bgs[0].id && r.bgs[0].targetGroup == r.tgs[0].id,
               r.bgs[0].port, r.bgs[0].health,
               Endpoint(if addressFixed then r.lbs[0].address else "", r.lbs[0].port),
               r.lbs[0].zone, r.lbs[0].subnet)
  }

  function Wanted(lb: LoadBalancerSpec): Topology {
    Topology(1, 1, 1, true, lb.backendPort, lb.healthcheck, Endpoint(lb.listener.address, lb.listener.port),
             lb.listener.zone, lb.listener.subnet)
  }

  lemma {:induction false} LoadBalancerSpecIsFixed(s: Sys, acts: seq<Action>)
    requires s.obj.Some?
    ensures var t := Run(s, acts);
            t.obj.Some? ==> t.obj.value.spec.loadBalancer == s.obj.value.spec.loadBalancer
  {
    if acts != [] {
      LoadBalancerSpecIsFixed(s, acts[..|acts| - 1]);
      var p := Run(s, acts[..|acts| - 1]);
      if p.obj.None? {
        GoneStaysGone(p, acts[|acts| - 1]);
      } else {
        StepKeepsSpec(p, acts[|acts| - 1]);
      }
    }
  }

  lemma StepKeepsSpec(s: Sys, a: Action)
    requires s.obj.Some?
    ensures var t := Apply(s, a);
            t.obj.Some? ==> t.obj.value.spec.loadBalancer == s.obj.value.spec.loadBalancer
  {
  }

  lemma CompleteIsWanted(s: Sys)
    requires Inv(s) && s.obj.Some? && Own(s).lbs != []
    ensures var lb := s.obj.value.spec.loadBalancer;
            TopologyOf(Own(s), lb.listener.address != "") == Wanted(lb)
  {
  }

  lemma {:induction false} DriveKeepsSpec(s: Sys, calls: seq<Reply>)
    requires s.obj.Some?
    ensures Drive(s, calls).obj.Some? ==> Drive(s, calls).obj.value.spec.loadBalancer == s.obj.value.spec.loadBalancer
    decreases |calls|
  {
    if calls != [] {
      StepKeepsSpec(s, Call(calls[0]));
      if Apply(s, Call(calls[0])).obj.Some? {
        DriveKeepsSpec(Apply(s, Call(calls[0])), calls[1..]);
      } else {
        NoneDrives(Apply(s, Call(calls[0])), calls[1..]);
      }
    }
  }

  lemma {:induction false} NoneDrives(s: Sys, calls: seq<Reply>)
    requires s.obj.None?
    ensures Drive(s, calls).obj.None?
    decreases |calls|
  {
    if calls != [] {
      GoneStaysGone(s, Call(calls[0]));
      NoneDrives(Apply(s, Call(calls[0])), calls[1..]);
    }
  }

  /** After any run at all, the first undisturbed round leaves one target group, one backend
      group and one load balancer, linked and configured as the object was created with,
      exactly when a missing load balancer may still be made. A failure-free history is one
      such run, so all histories agree. */
  lemma {:induction false} RetryConfluence(s0: Sys, acts: seq<Action>, calls: seq<Reply>)
    requires Initial(s0) && KeepsFolderAlways(s0, acts)
    requires Reconcilable(Run(s0, acts)) && Smooth(calls)
    ensures var s := Run(s0, acts);
            var lb := s0.obj.value.spec.loadBalancer;
            TopologyOf(Own(Reconciled(s, calls)), lb.listener.address != "") == Wanted(lb) <==>
            Own(s).lbs != [] || Recreatable(s.obj.value)
  {
    var s := Run(s0, acts);
    var t := Reconciled(s, calls);
    InitialInv(s0);
    RunInv(s0, acts);
    LoadBalancerSpecIsFixed(s0, acts);
    ForwardRound(s, calls);
    DriveKeepsSpec(Apply(s, Begin), calls);
    if Own(t).lbs != [] {
      CompleteIsWanted(t);
    }
  }

  // ---- reaching Ready, and staying there ----

  /** The webhook takes for an address what the cloud has granted or grants in this round,
      and what the spec fixed when the object was created. */
  predicate AddressesResolve(s: Sys, calls: seq<Reply>) {
    && (forall r <- calls, q <- calls :: KindOf(r.dns, q.address) == IPv4)
    && (forall r <- calls, lb <- Own(s).lbs :: KindOf(r.dns, lb.address) == IPv4)
    && (forall r <- calls :: s.obj.Some? && s.obj.value.spec.loadBalancer.listener.address != "" ==>
                               KindOf(r.dns, s.obj.value.spec.loadBalancer.listener.address) == IPv4)
  }

  /** The part of a round that looks after all three resources. */
  function ResourcesServed(s: Sys, calls: seq<Reply>): Leg
    requires |calls| >= MAX_CALLS
  {
    var Leg(t, rest) := GroupsServed(s, calls);
    if |rest| < 2 then Leg(t, rest) else Walk(t, rest, LegLength(Own(s).lbs))
  }

  lemma {:induction false} ResourceLegs(s: Sys, calls: seq<Reply>)
    requires Inv(s) && Reconcilable(s) && Smooth(calls)
    requires Own(s).lbs != [] || Recreatable(s.obj.value)
    ensures var Leg(t, rest) := ResourcesServed(s, calls); var c := s.obj.value;
            && GoodCalls(rest, 3) && Reconciled(s, calls) == Drive(t, rest)
            && Inv(t) && t.obj == s.obj && t.home == s.home && Own(t).lbs != []
            && t.round == Busy(c, c.(status := c.status.(created := c.status.created || Own(s).lbs == [])), ActiveGet)
            && (if Own(s).lbs != [] then Own(t).lbs == Own(s).lbs
                else Own(t).lbs[0].status == Active && GrantedBy(Own(t).lbs[0].address, c, calls))
            && forall r <- rest :: r in calls
  {
    GroupLegs(s, calls);
    var Leg(s1, rest1) := GroupsServed(s, calls);
    LoadBalancerLeg(s1, rest1);
  }

  /** The round makes the object Ready exactly when the endpoint is still empty or already
      names the (active or just created) load balancer. */
  lemma {:induction false} ReadyRound(s: Sys, calls: seq<Reply>)
    requires Inv(s) && Reconcilable(s) && Smooth(calls) && AddressesResolve(s, calls)
    requires if Own(s).lbs != [] then Own(s).lbs[0].status == Active else Recreatable(s.obj.value)
    ensures var t := Reconciled(s, calls);
            && Own(t).lbs != [] && Own(t).lbs[0].status == Active
            && (Own(s).lbs != [] ==> Own(t).lbs == Own(s).lbs)
            && var e := ListenerOf(Own(t).lbs[0]);
            && t.obj.Some?
            && t.last == (if s.obj.value.spec.endpoint.IsZero() || s.obj.value.spec.endpoint == e then Done else Failed)
            && (t.last == Done ==>
                  t.obj.value.status.ready && t.obj.value.spec.endpoint == e == t.obj.value.status.listener)
            && var c, made := s.obj.value, s.obj.value.status.created || Own(s).lbs == [];
            t.obj.value == if t.last == Done
                           then c.(spec := c.spec.(endpoint := e), status := ClusterStatus(true, e, True, made))
                           else c.(status := c.status.(created := made))
  {
    ResourceLegs(s, calls);
    var Leg(s2, rest2) := ResourcesServed(s, calls);
    ActiveLegKeepsCloud(s2, rest2);
    var lb := Own(s2).lbs[0];
    assert ListenerMatches(lb, s.obj.value.spec.loadBalancer.listener);
    forall r <- rest2 ensures EndpointAcceptable(ListenerOf(lb), r.dns) {
      assert r in calls;
    }
    ReadyLeg(s2, rest2);
  }

  /** The first round of a fresh object only adds the finalizer. */
  lemma {:induction false} FinalizerRound(s: Sys, calls: seq<Reply>)
    requires s.round.Idle? && s.obj.Some? && !s.obj.value.finalizer && !s.obj.value.deleting && Smooth(calls)
    ensures Reconciled(s, calls) == s.(obj := Some(s.obj.value.(finalizer := true)), last := Requeue)
  {
    var s1 := Apply(s, Begin);
    UndisturbedClose(s1, calls[0]);
    IdleDrive(Apply(s1, Call(calls[0])), calls[1..]);
  }

  /** A fresh cluster with an empty endpoint is Ready after exactly two fault-free rounds:
      the first creates nothing, the second all three resources. */
  lemma {:induction false} TwoRoundsToReady(s: Sys, first: seq<Reply>, second: seq<Reply>)
    requires Initial(s) && s.obj.value.spec.endpoint.IsZero()
    requires Smooth(first) && Smooth(second) && AddressesResolve(s, second)
    ensures var t := Reconciled(s, first);
            t.cloud == s.cloud && t.obj.Some? && !t.obj.value.status.ready && t.obj.value.finalizer
    ensures var t := Reconciled(Reconciled(s, first), second);
            && t.round.Idle? && t.last == Done
            && t.obj.Some? && t.obj.value.status.ready
            && TopologyOf(Own(t), s.obj.value.spec.loadBalancer.listener.address != "")
               == Wanted(s.obj.value.spec.loadBalancer)
            && t.obj.value.spec.endpoint == t.obj.value.status.listener == ListenerOf(Own(t).lbs[0])
  {
    InitialInv(s);
    FinalizerRound(s, first);
    ReconciledInv(s, first);
    var s1 := Reconciled(s, first);
    ForwardRound(s1, second);
    ReadyRound(s1, second);
    DriveKeepsSpec(Apply(s1, Begin), second);
    CompleteIsWanted(Reconciled(s1, second));
  }

  /** After any run, a round on a Ready cluster with an active load balancer changes nothing and
      issues no mutating call, except that it marks the LoadBalancerReady condition if an
      earlier failed round had cleared it. */
  lemma {:induction false} ReadyIsAFixedPoint(s0: Sys, acts: seq<Action>, calls: seq<Reply>)
    requires Initial(s0) && KeepsFolderAlways(s0, acts)
    requires var s := Run(s0, acts);
             && Reconcilable(s) && s.obj.value.status.ready
             && Own(s).lbs != [] && Own(s).lbs[0].status == Active
    requires Smooth(calls)
    ensures var s := Run(s0, acts);
            && Reconciled(s, calls) == s.(obj := Some(Marked(s.obj.value, True)), last := Done)
            && (Reconciled(s, calls) == s.(last := Done) <==> s.obj.value.status.lbReady == True)
  {
    var s := Run(s0, acts);
    InitialInv(s0);
    RunInv(s0, acts);
    ReadyRunInv(s0, acts);
    GroupLegs(s, calls);
    var Leg(s1, rest1) := GroupsServed(s, calls);
    LoadBalancerLeg(s1, rest1);
    var Leg(s2, rest2) := Walk(s1, rest1, LegLength(Own(s).lbs));
    assert s2 == s.(round := Busy(s.obj.value, s.obj.value, ActiveGet));
    ReadyLeg(s2, rest2);
    assert MarkedReady(s.obj.value, s.obj.value.spec.endpoint) == Marked(s.obj.value, True);
  }

  /** While the load balancer exists, a round issues no mutating call whatever its calls
      answer. */
  predicate OnlyLooking(s: Sys) {
    && Own(s).lbs != []
    && (s.round.Busy? ==> !s.round.before.deleting && !Mutating(s.round.stage))
  }

  lemma {:induction false} CompleteClusterIsOnlyRead(s: Sys, calls: seq<Reply>)
    requires Inv(s) && OnlyLooking(s)
    ensures Drive(s, calls).cloud == s.cloud && Drive(s, calls).writes == s.writes
    decreases |calls|
  {
    if calls != [] {
      var t := Apply(s, Call(calls[0]));
      ApplyInv(s, Call(calls[0]));
      LookingStep(s, calls[0]);
      CompleteClusterIsOnlyRead(t, calls[1..]);
    }
  }

  lemma LookingStep(s: Sys, r: Reply)
    requires Inv(s) && OnlyLooking(s)
    ensures var t := Apply(s, Call(r));
            OnlyLooking(t) && t.cloud == s.cloud && t.writes == s.writes
  {
  }

  // ---- a lost load balancer, listener address given in the spec ----

  /** After any run that made the cluster Ready with a listener address in its spec, losing
      the load balancer costs one undisturbed round: the new one has the old endpoint. */
  lemma {:induction false} LostLoadBalancerComesBack(s0: Sys, acts: seq<Action>, calls: seq<Reply>)
    requires Initial(s0) && KeepsFolderAlways(s0, acts)
    requires var s := Run(s0, acts);
             && Reconcilable(s) && s.obj.value.status.ready
             && s.obj.value.spec.loadBalancer.listener.address != ""
             && Own(s).lbs == []
             && Smooth(calls) && AddressesResolve(s, calls)
    ensures var s, t := Run(s0, acts), Reconciled(Run(s0, acts), calls);
            && t.last == Done && t.obj.Some? && t.obj.value.status.ready
            && |Own(t).lbs| == 1 && ListenerOf(Own(t).lbs[0]) == t.obj.value.spec.endpoint == s.obj.value.spec.endpoint
  {
    var s := Run(s0, acts);
    InitialInv(s0);
    RunInv(s0, acts);
    ReadyRound(s, calls);
    ReconciledInv(s, calls);
    DriveKeepsSpec(Apply(s, Begin), calls);
    var t := Reconciled(s, calls);
    assert ListenerMatches(Own(t).lbs[0], t.obj.value.spec.loadBalancer.listener);
  }

  /** Without a listener address the same loss is final: every later round fails. */
  lemma {:induction false} LostLoadBalancerIsFinal(s: Sys, calls: seq<Reply>)
    requires Inv(s) && Reconcilable(s) && Smooth(calls)
    requires Own(s).lbs == [] && !Recreatable(s.obj.value)
    ensures Reconciled(s, calls).last == Failed && Own(Reconciled(s, calls)).lbs == []
    ensures Reconciled(s, calls).obj == Some(Marked(s.obj.value, False))
  {
    GroupLegs(s, calls);
    var Leg(s1, rest1) := GroupsServed(s, calls);
    StrandedLeg(s1, rest1);
  }

  // ---- a round that panics ----

  /** Two rounds of a fresh cluster; the load balancer just made vanishes between the two reads
      at the end of the second. */
  function PanicRun(s: Sys, first: seq<Reply>, second: seq<Reply>): seq<Action>
    requires |second| >= MAX_CALLS
  {
    [Begin] + CallsOf(first) + [Begin] + CallsOf(second[..2]) + CallsOf(second[2..][..2])
    + CallsOf(second[2..][2..][..2])
    + [Call(second[6])] + [LbVanishes(s.home, 0)] + [Call(second[7])] + [Call(second[8])]
  }

  lemma {:induction false} NoEditKeepsFolder(s: Sys, acts: seq<Action>)
    requires forall a <- acts :: !a.UserEdit?
    ensures KeepsFolderAlways(s, acts)
  {
    if acts != [] {
      NoEditKeepsFolder(s, acts[..|acts| - 1]);
    }
  }

  /** The first two rounds of a fresh cluster, up to its new and active load balancer. */
  lemma {:induction false} FreshLoadBalancer(s: Sys, first: seq<Reply>, second: seq<Reply>)
    requires Initial(s) && Recreatable(s.obj.value) && Smooth(first) && Smooth(second)
    ensures var t := Run(s, [Begin] + CallsOf(first) + [Begin] + CallsOf(second[..2]) + CallsOf(second[2..][..2])
                            + CallsOf(second[2..][2..][..2]));
            && Inv(t) && t.home == s.home && t.round.Busy? && t.round.stage.ActiveGet?
            && Own(t).lbs != [] && Own(t).lbs[0].status == Active
            && t.obj == Some(t.round.before) && t.round.work == t.round.before.(status := t.round.work.status)
            && t.round.before.finalizer && !t.round.before.deleting && t.round.work.finalizer
  {
    InitialInv(s);
    FinalizerRound(s, first);
    ReconciledInv(s, first);
    var s1 := Reconciled(s, first);
    var r0 := [Begin] + CallsOf(first);
    RunOne(s, [], Begin);
    DriveIsRun(s, first, [Begin]);
    assert [] + [Begin] == [Begin] && Run(s, r0) == s1 && Own(s1) == Own(s);
    RunOne(s, r0, Begin);
    var s2 := Apply(s1, Begin);
    DriveIsRun(s, second[..2], r0 + [Begin]);
    GroupLegs(s1, second);
    var Leg(t, rest) := GroupsServed(s1, second);
    TargetGroupLeg(s2, second) by { BeginInv(s1); }
    DriveIsRun(s, second[2..][..2], r0 + [Begin] + CallsOf(second[..2]));
    LoadBalancerLeg(t, rest);
    DriveIsRun(s, rest[..2], r0 + [Begin] + CallsOf(second[..2]) + CallsOf(second[2..][..2]));
  }

  lemma RunOne(s: Sys, acts: seq<Action>, a: Action)
    ensures Run(s, acts + [a]) == Apply(Run(s, acts), a)
  {
    assert (acts + [a])[..|acts|] == acts;
  }

  /** The nil dereference happens, in a run with no failing call at all. */
  lemma {:induction false} PanicIsReached(s: Sys, first: seq<Reply>, second: seq<Reply>)
    requires Initial(s) && Recreatable(s.obj.value) && Smooth(first) && Smooth(second)
    ensures KeepsFolderAlways(s, PanicRun(s, first, second))
    ensures Run(s, PanicRun(s, first, second)).last == Panicked
  {
    NoEditKeepsFolder(s, PanicRun(s, first, second));
    FreshLoadBalancer(s, first, second);
    var acts := [Begin] + CallsOf(first) + [Begin] + CallsOf(second[..2]) + CallsOf(second[2..][..2])
                + CallsOf(second[2..][2..][..2]);
    var t := Run(s, acts);
    RunOne(s, acts, Call(second[6]));
    RunOne(s, acts + [Call(second[6])], LbVanishes(s.home, 0));
    RunOne(s, acts + [Call(second[6])] + [LbVanishes(s.home, 0)], Call(second[7]));
    RunOne(s, acts + [Call(second[6])] + [LbVanishes(s.home, 0)] + [Call(second[7])], Call(second[8]));
    PanickedClose(t, second[6], second[7], second[8]);
  }

  lemma DescribesNothing(s: Sys, r: Reply)
    requires s.round.Busy? && s.round.stage == DescribeGet && KeyOf(s.generated, s.round.work.spec) == s.home
    requires r.Proper() && r.outcome == Success && Own(s).lbs == []
    ensures Apply(s, Call(r)) == s.(round := Busy(s.round.before, s.round.work, Closing(Panicked)))
  {
    assert CallStep(s, r) == s.(round := ReadStep(s, r.outcome));
  }

  lemma PanickedClose(t: Sys, look: Reply, read: Reply, close: Reply)
    requires Inv(t) && t.round.Busy? && t.round.stage.ActiveGet? && GoodCalls([look, read, close], 3)
    requires Own(t).lbs != [] && Own(t).lbs[0].status == Active
    requires t.obj == Some(t.round.before) && t.round.work == t.round.before.(status := t.round.work.status)
    requires t.round.before.finalizer && !t.round.before.deleting && t.round.work.finalizer
    ensures Apply(Apply(Apply(Apply(t, Call(look)), LbVanishes(t.home, 0)), Call(read)), Call(close)).last == Panicked
  {
    var all := [look, read, close];
    assert look in all && read in all && close in all;
    var s1 := Apply(t, Call(look));
    assert s1 == t.(round := Busy(t.round.before, t.round.work, DescribeGet));
    var s2 := Apply(s1, LbVanishes(t.home, 0));
    EnvironmentStep(s1, LbVanishes(t.home, 0));
    assert s2.obj == t.obj && s2.generated == t.generated;
    var s3 := Apply(s2, Call(read));
    DescribesNothing(s2, read);
    assert s3 == s2.(round := Busy(t.round.before, t.round.work, Closing(Panicked)));
    UndisturbedClose(s3, close);
  }
}
