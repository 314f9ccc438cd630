/** Whole rounds of the cluster controller: they end, and undisturbed rounds converge. */
module ClusterRounds {
  import opened Basics
  import opened Api
  import opened Admission
  import opened AlbCloud
  import opened ClusterProtocol
  import opened ClusterSafety

  /** The calls of a round, answered one after the other with nobody in between. */
  function Drive(s: Sys, calls: seq<Reply>): Sys
    decreases |calls|
  {
    if calls == [] then s else Drive(Apply(s, Call(calls[0])), calls[1..])
  }

  function Reconciled(s: Sys, calls: seq<Reply>): Sys {
    Drive(Apply(s, Begin), calls)
  }

  const MAX_CALLS := 9

  predicate Proper(calls: seq<Reply>) {
    |calls| >= MAX_CALLS && forall r <- calls :: r.Proper()
  }

  /** No call fails. */
  predicate Smooth(calls: seq<Reply>) {
    Proper(calls) && forall r <- calls :: r.outcome == Success
  }

  function CallsOf(calls: seq<Reply>): seq<Action> {
    seq(|calls|, i requires 0 <= i < |calls| => Call(calls[i]))
  }

  lemma {:induction false} DriveIsRun(s: Sys, calls: seq<Reply>, before: seq<Action>)
    ensures Drive(Run(s, before), calls) == Run(s, before + CallsOf(calls))
  {
    if calls == [] {
      assert before + CallsOf(calls) == before;
    } else {
      var next := before + [Call(calls[0])];
      assert next[..|before|] == before;
      DriveIsRun(s, calls[1..], next);
      assert CallsOf(calls) == [Call(calls[0])] + CallsOf(calls[1..]);
      assert next + CallsOf(calls[1..]) == before + CallsOf(calls);
    }
  }

  lemma {:induction false} DriveInv(s: Sys, calls: seq<Reply>)
    requires Inv(s)
    ensures Inv(Drive(s, calls))
    decreases |calls|
  {
    if calls != [] {
      ApplyInv(s, Call(calls[0]));
      DriveInv(Apply(s, Call(calls[0])), calls[1..]);
    }
  }

  lemma {:induction false} ReconciledInv(s: Sys, calls: seq<Reply>)
    requires Inv(s)
    ensures Inv(Reconciled(s, calls))
  {
    BeginInv(s);
    DriveInv(Apply(s, Begin), calls);
  }

  lemma {:induction false} IdleDrive(s: Sys, calls: seq<Reply>)
    requires s.round.Idle?
    ensures Drive(s, calls) == s
  {
    if calls != [] {
      IdleDrive(s, calls[1..]);
    }
  }

  // ---- every round ends ----

  function Rank(round: Round): nat {
    if round.Idle? then 0
    else match round.stage
      case TgGet => 9
      case TgCreate => 8
      case BgGet(_) => 7
      case BgCreate(_) => 6
      case LbGet(_) => 5
      case LbCreate(_) => 4
      case ActiveGet => 3
      case DescribeGet => 2
      case DelLbGet => 5
      case DelBgGet => 4
      case DelTgGet => 3
      case DelLb(_) => 2
      case DelBg(_) => 2
      case DelTg(_) => 2
      case Closing(_) => 1
  }

  lemma CallLowersRank(s: Sys, r: Reply)
    requires s.round.Busy? && r.Proper()
    ensures Rank(Apply(s, Call(r)).round) < Rank(s.round)
  {
  }

  /** Whatever every call answers, a round is over after at most nine of them. */
  lemma {:induction false} RoundsEnd(s: Sys, calls: seq<Reply>)
    requires (forall r <- calls :: r.Proper()) && Rank(s.round) <= |calls|
    ensures Drive(s, calls).round.Idle?
    decreases |calls|
  {
    if s.round.Idle? {
      IdleDrive(s, calls);
    } else {
      CallLowersRank(s, calls[0]);
      RoundsEnd(Apply(s, Call(calls[0])), calls[1..]);
    }
  }

  // ---- an undisturbed forward round, leg by leg ----

  predicate GoodCalls(calls: seq<Reply>, n: nat) {
    |calls| >= n && forall r <- calls :: r.Proper() && r.outcome == Success
  }

  /** Where some calls of a round lead, and the calls that are left. */
  datatype Leg = Leg(end: Sys, rest: seq<Reply>)

  function Walk(s: Sys, calls: seq<Reply>, n: nat): Leg
    requires n <= |calls|
  {
    Leg(Drive(s, calls[..n]), calls[n..])
  }

  /** One call for a resource that exists, two for one that must be made. */
  function LegLength<T>(xs: seq<T>): nat { if xs == [] then 2 else 1 }

  /** One or two calls, unrolled. */
  lemma {:induction false} WalkUnrolled(s: Sys, calls: seq<Reply>)
    requires |calls| >= 2
    ensures var s1 := Apply(s, Call(calls[0]));
            && Walk(s, calls, 1) == Leg(s1, calls[1..]) && Drive(s, calls) == Drive(s1, calls[1..])
            && Walk(s, calls, 2) == Leg(Apply(s1, Call(calls[1])), calls[2..])
            && Drive(s, calls) == Drive(Apply(s1, Call(calls[1])), calls[2..])
  {
    var s1 := Apply(s, Call(calls[0]));
    assert calls[..1][1..] == [] && calls[..2][1..] == [calls[1]] && [calls[1]][1..] == [];
    assert Drive(s, calls[..1]) == Drive(s1, []);
    assert Drive(s, calls[..2]) == Drive(s1, [calls[1]]) == Drive(Apply(s1, Call(calls[1])), []);
    assert calls[1..][0] == calls[1] && calls[1..][1..] == calls[2..];
    assert Drive(s1, calls[1..]) == Drive(Apply(s1, Call(calls[1])), calls[2..]);
  }

  lemma TargetGroupMade(s: Sys, look: Reply, create: Reply)
    requires Inv(s) && s.round.Busy? && s.round.stage.TgGet? && Own(s).tgs == []
    requires GoodCalls([look, create], 2)
    ensures var t := Apply(Apply(s, Call(look)), Call(create));
            && Inv(t) && t.obj == s.obj && t.home == s.home && Own(t).tgs != []
            && Own(t) == Own(s).(tgs := Own(t).tgs)
            && t.round == Busy(s.round.before, s.round.work, BgGet(Own(t).tgs[0].id))
  {
    var s1 := Apply(s, Call(look));
    assert look in [look, create] && create in [look, create];
    ApplyInv(s, Call(look));
    ApplyInv(s1, Call(create));
    WriteIsLocal(s1, create);
  }

  lemma TargetGroupKept(s: Sys, look: Reply)
    requires Inv(s) && s.round.Busy? && s.round.stage.TgGet? && Own(s).tgs != []
    requires look.Proper() && look.outcome == Success
    ensures Apply(s, Call(look)) == s.(round := Busy(s.round.before, s.round.work, BgGet(Own(s).tgs[0].id)))
    ensures Inv(Apply(s, Call(look)))
  {
    ApplyInv(s, Call(look));
  }

  lemma {:induction false} TargetGroupLeg(s: Sys, calls: seq<Reply>)
    requires Inv(s) && s.round.Busy? && s.round.stage.TgGet? && GoodCalls(calls, 9)
    ensures var Leg(t, rest) := Walk(s, calls, LegLength(Own(s).tgs));
            && (GoodCalls(rest, 7) && Drive(s, calls) == Drive(t, rest) && forall r <- rest :: r in calls)
            && Inv(t) && t.obj == s.obj && t.home == s.home && Own(t).tgs != []
            && t.round == Busy(s.round.before, s.round.work, BgGet(Own(t).tgs[0].id))
            && Own(t) == Own(s).(tgs := Own(t).tgs)
            && (Own(s).tgs != [] ==> t == s.(round := t.round))
  {
    WalkUnrolled(s, calls);
    if Own(s).tgs != [] {
      TargetGroupKept(s, calls[0]);
    } else {
      TargetGroupMade(s, calls[0], calls[1]);
    }
  }

  lemma BackendGroupMade(s: Sys, look: Reply, create: Reply)
    requires Inv(s) && s.round.Busy? && s.round.stage.BgGet? && Own(s).bgs == []
    requires GoodCalls([look, create], 2)
    ensures var t := Apply(Apply(s, Call(look)), Call(create));
            && Inv(t) && t.obj == s.obj && t.home == s.home && Own(t).bgs != []
            && Own(t) == Own(s).(bgs := Own(t).bgs)
            && t.round == Busy(s.round.before, s.round.work, LbGet(Own(t).bgs[0].id))
  {
    var s1 := Apply(s, Call(look));
    assert look in [look, create] && create in [look, create];
    ApplyInv(s, Call(look));
    ApplyInv(s1, Call(create));
    WriteIsLocal(s1, create);
  }

  lemma BackendGroupKept(s: Sys, look: Reply)
    requires Inv(s) && s.round.Busy? && s.round.stage.BgGet? && Own(s).bgs != []
    requires look.Proper() && look.outcome == Success
    ensures Apply(s, Call(look)) == s.(round := Busy(s.round.before, s.round.work, LbGet(Own(s).bgs[0].id)))
    ensures Inv(Apply(s, Call(look)))
  {
    ApplyInv(s, Call(look));
  }

  lemma {:induction false} BackendGroupLeg(s: Sys, calls: seq<Reply>)
    requires Inv(s) && s.round.Busy? && s.round.stage.BgGet? && GoodCalls(calls, 7)
    ensures var Leg(t, rest) := Walk(s, calls, LegLength(Own(s).bgs));
            && (GoodCalls(rest, 5) && Drive(s, calls) == Drive(t, rest) && forall r <- rest :: r in calls)
            && Inv(t) && t.obj == s.obj && t.home == s.home && Own(t).bgs != []
            && t.round == Busy(s.round.before, s.round.work, LbGet(Own(t).bgs[0].id))
            && Own(t) == Own(s).(bgs := Own(t).bgs)
            && (Own(s).bgs != [] ==> t == s.(round := t.round))
  {
    WalkUnrolled(s, calls);
    if Own(s).bgs != [] {
      BackendGroupKept(s, calls[0]);
    } else {
      BackendGroupMade(s, calls[0], calls[1]);
    }
  }

  /** The address of a load balancer made by this round. */
  predicate GrantedBy(address: string, w: Cluster, calls: seq<Reply>) {
    if w.spec.loadBalancer.listener.address != "" then address == w.spec.loadBalancer.listener.address
    else exists r <- calls :: r.address == address
  }

  lemma NoLoadBalancerFound(s: Sys, look: Reply)
    requires Inv(s) && s.round.Busy? && s.round.stage.LbGet? && Own(s).lbs == [] && Recreatable(s.round.work)
    requires look.Proper() && look.outcome == Success
    ensures Apply(s, Call(look)) == s.(round := Busy(s.round.before, s.round.work, LbCreate(s.round.stage.bg)))
    ensures Inv(Apply(s, Call(look)))
  {
    ApplyInv(s, Call(look));
  }

  lemma LoadBalancerMade(s: Sys, look: Reply, create: Reply)
    requires Inv(s) && s.round.Busy? && s.round.stage.LbGet? && Own(s).lbs == [] && Recreatable(s.round.work)
    requires GoodCalls([look, create], 2)
    ensures var t := Apply(Apply(s, Call(look)), Call(create));
            && Inv(t) && t.obj == s.obj && t.home == s.home && Own(t).lbs != []
            && Own(t) == Own(s).(lbs := Own(t).lbs)
            && t.round == Busy(s.round.before, s.round.work.(status := s.round.work.status.(created := true)),
                   ActiveGet)
            && Own(t).lbs[0].status == Active
            && GrantedBy(Own(t).lbs[0].address, s.round.work, [create])
  {
    assert look in [look, create] && create in [look, create];
    NoLoadBalancerFound(s, look);
    var s1 := s.(round := Busy(s.round.before, s.round.work, LbCreate(s.round.stage.bg)));
    WriteInv(s1, create);
    WriteIsLocal(s1, create);
  }

  lemma LoadBalancerKept(s: Sys, look: Reply)
    requires Inv(s) && s.round.Busy? && s.round.stage.LbGet? && Own(s).lbs != []
    requires look.Proper() && look.outcome == Success
    ensures Apply(s, Call(look)) == s.(round := Busy(s.round.before, s.round.work, ActiveGet))
    ensures Inv(Apply(s, Call(look)))
  {
    ApplyInv(s, Call(look));
  }

  lemma {:induction false} LoadBalancerLeg(s: Sys, calls: seq<Reply>)
    requires Inv(s) && s.round.Busy? && s.round.stage.LbGet? && GoodCalls(calls, 5)
    requires Own(s).lbs != [] || Recreatable(s.round.work)
    ensures var Leg(t, rest) := Walk(s, calls, LegLength(Own(s).lbs));
            && (GoodCalls(rest, 3) && Drive(s, calls) == Drive(t, rest) && forall r <- rest :: r in calls)
            && Inv(t) && t.obj == s.obj && t.home == s.home && Own(t).lbs != [] && Own(t).tgs == Own(s).tgs
            && Own(t).bgs == Own(s).bgs
            && t.round.Busy? && t.round.before == s.round.before && t.round.stage == ActiveGet
            && t.round.work == s.round.work.(status := s.round.work.status.(
                                               created := s.round.work.status.created || Own(s).lbs == []))
            && (Own(s).lbs != [] ==> t == s.(round := Busy(s.round.before, s.round.work, ActiveGet)))
            && (Own(s).lbs == [] ==>
                  && Own(t).lbs[0].status == Active
                  && GrantedBy(Own(t).lbs[0].address, s.round.work, calls))
  {
    WalkUnrolled(s, calls);
    if Own(s).lbs != [] {
      LoadBalancerKept(s, calls[0]);
    } else {
      LoadBalancerMade(s, calls[0], calls[1]);
    }
  }

  /** The webhook takes the address of the load balancer for an address. */
  predicate Resolves(calls: seq<Reply>, e: Endpoint) {
    forall r <- calls :: EndpointAcceptable(e, r.dns)
  }

  /** A patch of an object nobody else touched stores the copy of the round as it is. */
  lemma UndisturbedClose(s: Sys, r: Reply)
    requires s.round.Busy? && s.round.stage.Closing? && s.obj == Some(s.round.before)
    requires r.Proper() && r.outcome == Success
    requires var b, w := s.round.before, s.round.work;
             && w.spec == b.spec.(endpoint := w.spec.endpoint)
             && w.deleting == b.deleting && w.held == b.held
             && (w.finalizer && !b.finalizer ==> !b.deleting)
             && AdmitsUpdate(b.spec, w.spec, r.dns)
    ensures Apply(s, Call(r)) == s.(obj := Reap(s.round.work), round := Idle, last := s.round.stage.verdict)
  {
    assert Merge(s.round.before, s.round.before, s.round.work) == s.round.work;
    assert Persist(s.obj, s.round.before, s.round.work, r.dns) == Ok(Reap(s.round.work));
    assert CallStep(s, r) == CloseStep(s, s.round.stage.verdict, r);
  }

  lemma DescribeAnswer(s: Sys, r: Reply)
    requires s.round.Busy? && s.round.stage == DescribeGet && KeyOf(s.generated, s.round.work.spec) == s.home
    requires r.Proper() && r.outcome == Success && Own(s).lbs != []
    ensures var b, w, e := s.round.before, s.round.work, ListenerOf(Own(s).lbs[0]);
            Apply(s, Call(r)) ==
            s.(round := if w.spec.endpoint.IsZero() || w.spec.endpoint == e
                        then Busy(b, MarkedReady(w, e), Closing(Done)) else Busy(b, w, Closing(Failed)))
  {
    assert CallStep(s, r) == s.(round := ReadStep(s, r.outcome));
  }

  /** The last leg with an active load balancer: the object becomes Ready exactly when its
      endpoint is still empty or names this load balancer. */
  lemma {:induction false} ReadyLeg(s: Sys, calls: seq<Reply>)
    requires Inv(s) && s.round.Busy? && s.round.stage.ActiveGet? && GoodCalls(calls, 3)
    requires Own(s).lbs != [] && Own(s).lbs[0].status == Active
    requires s.obj == Some(s.round.before)
    requires s.round.work.held == s.round.before.held && s.round.work.spec == s.round.before.spec
    requires s.round.work.spec.endpoint.IsZero() ==> Resolves(calls, ListenerOf(Own(s).lbs[0]))
    ensures var e := ListenerOf(Own(s).lbs[0]);
            Drive(s, calls) ==
            if s.round.work.spec.endpoint.IsZero() || s.round.work.spec.endpoint == e
            then s.(obj := Some(MarkedReady(s.round.work, e)), round := Idle, last := Done)
            else s.(obj := Some(s.round.work), round := Idle, last := Failed)
  {
    var b, w, e := s.round.before, s.round.work, ListenerOf(Own(s).lbs[0]);
    assert KeyOf(s.generated, w.spec) == s.home;
    var s1 := Apply(s, Call(calls[0]));
    assert s1 == s.(round := Busy(b, w, DescribeGet));
    var s2 := Apply(s1, Call(calls[1]));
    DescribeAnswer(s1, calls[1]);
    assert w.spec.endpoint.IsZero() ==> EndpointAcceptable(e, calls[2].dns);
    UndisturbedClose(s2, calls[2]);
    WalkUnrolled(s, calls);
    assert Drive(s2, calls[2..]) == Drive(Apply(s2, Call(calls[2])), calls[2..][1..]);
    IdleDrive(Apply(s2, Call(calls[2])), calls[2..][1..]);
  }
}
