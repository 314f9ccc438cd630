/** What cluster rounds answer and record: every verdict means something, every failure has a
    cause, and only an active load balancer makes a cluster Ready. */
module ClusterVerdicts {
  import opened Basics
  import opened Api
  import opened Admission
  import opened AlbCloud
  import opened ClusterProtocol
  import opened ClusterSafety
  import opened ClusterTheorems
  import opened ClusterRounds
  import opened ClusterConvergence

  // ---- what a verdict means ----

  /** The copy is as it was read, but for the conditions. */
  predicate OnlyConditions(b: Cluster, w: Cluster) {
    w == b.(status := b.status.(created := w.status.created, lbReady := w.status.lbReady))
  }

  /** Endpoint and recorded listener agree, and everything says Ready. */
  predicate DeclaredReady(b: Cluster, w: Cluster) {
    && w.status.listener == w.spec.endpoint
    && (b.spec.endpoint.IsZero() || w.spec.endpoint == b.spec.endpoint)
    && w == b.(spec := b.spec.(endpoint := w.spec.endpoint),
               status := ClusterStatus(true, w.spec.endpoint, True, w.status.created))
  }

  predicate DeleteTold(b: Cluster, w: Cluster, v: Verdict) {
    match v
    case Done => w == b.(finalizer := false)
    case RequeueAfter => b.finalizer && w == Marked(b, False)
    case Failed => b.finalizer && w == Marked(b, False)
    case _ => false
  }

  predicate ForwardTold(b: Cluster, w: Cluster, v: Verdict) {
    match v
    case Requeue => !b.finalizer && w == b.(finalizer := true)
    case Done => b.finalizer && DeclaredReady(b, w)
    case RequeueAfter => b.finalizer && OnlyConditions(b, w) && w.status.lbReady == b.status.lbReady
    case Panicked => b.finalizer && OnlyConditions(b, w) && w.status.lbReady == b.status.lbReady
    case Failed => b.finalizer && OnlyConditions(b, w)
  }

  /** Before its last patch a round has at most recorded that it made a load balancer. */
  predicate Told(round: Round) {
    round.Busy? ==>
      var Busy(b, w, stage) := round;
      if stage.Closing? then if b.deleting then DeleteTold(b, w, stage.verdict) else ForwardTold(b, w, stage.verdict)
      else
        && b.finalizer && (Forward(stage) <==> !b.deleting)
        && (if b.deleting then w == b else OnlyConditions(b, w) && w.status.lbReady == b.status.lbReady)
  }

  lemma ToldByRead(s: Sys, r: Reply)
    requires s.round.Busy? && !s.round.stage.Closing? && !Mutating(s.round.stage) && Told(s.round)
    ensures Told(ReadStep(s, r.outcome))
  {
  }

  lemma ToldByWrite(b: Cluster, w: Cluster, stage: Stage, r: Reply)
    requires Mutating(stage) && Told(Busy(b, w, stage))
    ensures Told(AfterWrite(b, w, stage, r))
  {
  }

  lemma ToldStep(s: Sys, a: Action)
    requires Told(s.round)
    ensures Told(Apply(s, a).round)
  {
    if a.Call? && s.round.Busy? && a.reply.Proper() && !s.round.stage.Closing? {
      if Mutating(s.round.stage) {
        ToldByWrite(s.round.before, s.round.work, s.round.stage, a.reply);
      } else {
        ToldByRead(s, a.reply);
      }
    }
  }

  lemma {:induction false} ToldRun(s: Sys, acts: seq<Action>)
    requires Told(s.round)
    ensures Told(Run(s, acts).round)
  {
    if acts != [] {
      ToldRun(s, acts[..|acts| - 1]);
      ToldStep(Run(s, acts[..|acts| - 1]), acts[|acts| - 1]);
    }
  }

  /** In every run, whatever the object and the cloud were at first, the verdict of a round says
      what its last patch is going to store. A delete round is done exactly when it drops the
      finalizer, and a forward round exactly when it declares the cluster Ready. Only the round
      that adds the finalizer is requeued at once. */
  lemma {:induction false} VerdictsSayWhatIsStored(s: Sys, acts: seq<Action>)
    requires s.round.Idle?
    requires var r := Run(s, acts).round; r.Busy? && r.stage.Closing?
    ensures var Busy(b, w, Closing(v)) := Run(s, acts).round;
            && (v == Requeue <==> !b.deleting && !b.finalizer)
            && (v == Panicked ==> !b.deleting)
            && (v == Done ==> if b.deleting then w == b.(finalizer := false) else DeclaredReady(b, w))
            && (v == Requeue ==> w == b.(finalizer := true))
            && (v == RequeueAfter ==> if b.deleting then w == Marked(b, False)
                                      else OnlyConditions(b, w) && w.status.lbReady == b.status.lbReady)
            && (v == Failed ==> OnlyConditions(b, w))
            && (b.finalizer ==> (b.deleting && v == Done <==> !w.finalizer))
  {
    ToldRun(s, acts);
  }

  /** What a verdict leaves behind: after a delete round that ends in Done the finalizer is gone, and
      after a forward round that ends in Done the stored object is Ready and keeps its finalizer. */
  lemma {:induction false} DoneMeansDone(s: Sys, acts: seq<Action>, r: Reply)
    requires Initial(s) && KeepsFolderAlways(s, acts) && r.Proper()
    requires var round := Run(s, acts).round; round.Busy? && round.stage.Closing?
    requires Apply(Run(s, acts), Call(r)).last == Done
    ensures var b, t := Run(s, acts).round.before, Apply(Run(s, acts), Call(r));
            if b.deleting then !Holds(t.obj)
            else Holds(t.obj) && t.obj.value.status.ready && t.obj.value.status.lbReady == True
                 && t.obj.value.spec.endpoint == t.obj.value.status.listener && t.obj.value.spec.endpoint.IsValid()
  {
    InitialInv(s);
    RunInv(s, acts);
    ToldRun(s, acts);
    ClosingInv(Run(s, acts), r);
  }

  // ---- why a round fails ----

  /** An active load balancer that does not listen where the spec says. */
  predicate Contradicts(lb: LoadBalancer, l: Listener) {
    && lb.status == Active && l.address != ""
    && !(lb.address in {"", l.address} && lb.port in {0, l.port})
  }

  /** The call fails, or its answer is one that the round cannot go on with. */
  predicate CannotGoOn(s: Sys, r: Reply)
    requires s.round.Busy?
  {
    var w, lbs := s.round.work, Own(s).lbs;
    || r.outcome != Success
    || (s.round.stage.LbGet? && lbs == [] && !Recreatable(w))
    || (s.round.stage.LbGet? && lbs != [] && Contradicts(lbs[0], w.spec.loadBalancer.listener))
    || (s.round.stage.DescribeGet? && lbs != []
        && !w.spec.endpoint.IsZero() && w.spec.endpoint != ListenerOf(lbs[0]))
  }

  function AfterFailure(s: Sys, r: Reply): Cluster
    requires s.round.Busy?
  {
    var w := s.round.work;
    if s.round.stage.DescribeGet? && r.outcome == Success then w else w.(status := w.status.(lbReady := False))
  }

  /** A call makes its round fail if and only if it fails itself, the load balancer is lost for
      good, or it contradicts the listener or the endpoint of the spec. The failure clears the
      condition, unless the endpoint is what is contradicted, and leaves the copy alone else. */
  lemma FailureHasACause(s: Sys, r: Reply)
    requires s.round.Busy? && !s.round.stage.Closing? && r.Proper()
    requires KeyOf(s.generated, s.round.work.spec) == s.home
    ensures var next := Apply(s, Call(r)).round;
            && next.Busy? && (next.stage == Closing(Failed) <==> CannotGoOn(s, r))
            && (CannotGoOn(s, r) ==> next.work == AfterFailure(s, r))
  {
    if Mutating(s.round.stage) {
      FailureOfWrite(s.round.before, s.round.work, s.round.stage, r);
    } else {
      FailureOfRead(s, r);
    }
  }

  lemma FailureOfWrite(b: Cluster, w: Cluster, stage: Stage, r: Reply)
    requires Mutating(stage)
    ensures var next := AfterWrite(b, w, stage, r);
            && next.Busy? && (next.stage == Closing(Failed) <==> r.outcome != Success)
            && (r.outcome != Success ==> next.work == w.(status := w.status.(lbReady := False)))
  {
  }

  lemma FailureOfRead(s: Sys, r: Reply)
    requires s.round.Busy? && !s.round.stage.Closing? && !Mutating(s.round.stage)
    requires KeyOf(s.generated, s.round.work.spec) == s.home
    ensures var next := ReadStep(s, r.outcome);
            && next.Busy? && (next.stage == Closing(Failed) <==> CannotGoOn(s, r))
            && (CannotGoOn(s, r) ==> next.work == AfterFailure(s, r))
  {
  }

  /** A round on an object whose load balancer is not of the application type fails at once. */
  lemma OtherTypesFail(s: Sys)
    requires s.round.Idle? && Holds(s.obj) && s.obj.value.spec.loadBalancer.lbType != LB_TYPE_ALB
    ensures Apply(s, Begin) == s.(round := Busy(s.obj.value, Marked(s.obj.value, False), Closing(Failed)))
  {
  }

  // ---- a load balancer that is not active ----

  /** In every run, a round goes on to read the listener if and only if the look at the load
      balancer succeeded and found it active. */
  lemma {:induction false} OnlyActiveIsDescribed(s: Sys, acts: seq<Action>, r: Reply)
    requires Initial(s) && KeepsFolderAlways(s, acts) && r.Proper()
    requires var t := Run(s, acts); t.round.Busy? && t.round.stage.ActiveGet?
    ensures var t, next := Run(s, acts), Apply(Run(s, acts), Call(r)).round;
            && next.Busy?
            && (next.stage.DescribeGet? <==>
                r.outcome == Success && Own(t).lbs != [] && Own(t).lbs[0].status == Active)
            && (next.stage == Closing(RequeueAfter) <==>
                r.outcome == Success && !(Own(t).lbs != [] && Own(t).lbs[0].status == Active))
  {
    InitialInv(s);
    RunInv(s, acts);
  }

  /** All three resources are there, whatever they are like, and a round may work on the object. */
  predicate Complete(s: Sys) {
    && Reconcilable(s)
    && KeyOf(s.generated, s.obj.value.spec) == s.home && s.obj.value.spec.loadBalancer.lbType == LB_TYPE_ALB
    && Own(s).tgs != [] && Own(s).bgs != [] && Own(s).lbs != []
  }

  /** The round up to the look at the load balancer. */
  lemma {:induction false} LooksAround(s: Sys, calls: seq<Reply>)
    requires Complete(s) && Smooth(calls)
    ensures var t := s.(round := Busy(s.obj.value, s.obj.value, LbGet(Own(s).bgs[0].id)));
            Reconciled(s, calls) == Drive(t, calls[2..])
  {
    var c := s.obj.value;
    var s0 := Apply(s, Begin);
    assert s0 == s.(round := Busy(c, c, TgGet));
    var s1 := Apply(s0, Call(calls[0]));
    assert s1 == s.(round := Busy(c, c, BgGet(Own(s).tgs[0].id)));
    WalkUnrolled(s0, calls);
  }

  /** A copy that a patch will store as it is, and the patch. */
  lemma {:induction false} ClosesWith(s: Sys, w: Cluster, v: Verdict, calls: seq<Reply>)
    requires Reconcilable(s) && GoodCalls(calls, 1) && w == s.obj.value.(spec := w.spec, status := w.status)
    requires w.spec == s.obj.value.spec.(endpoint := w.spec.endpoint)
    requires AdmitsUpdate(s.obj.value.spec, w.spec, calls[0].dns)
    ensures Drive(s.(round := Busy(s.obj.value, w, Closing(v))), calls) == s.(obj := Some(w), last := v)
  {
    var t := s.(round := Busy(s.obj.value, w, Closing(v)));
    UndisturbedClose(t, calls[0]);
    IdleDrive(Apply(t, Call(calls[0])), calls[1..]);
  }

  /** An undisturbed round on a complete topology changes nothing in the cloud. It fails if the
      load balancer contradicts the listener or the endpoint of the spec, waits and leaves the
      object alone while it is not active, and declares the cluster Ready otherwise. */
  lemma {:induction false} CompleteRound(s: Sys, calls: seq<Reply>)
    requires Complete(s) && Smooth(calls)
    requires s.obj.value.spec.endpoint.IsZero() ==> Resolves(calls, ListenerOf(Own(s).lbs[0]))
    ensures var c, lb := s.obj.value, Own(s).lbs[0];
            var e, l := ListenerOf(lb), c.spec.loadBalancer.listener;
            Reconciled(s, calls) ==
            if Contradicts(lb, l) then s.(obj := Some(Marked(c, False)), last := Failed)
            else if lb.status != Active then s.(last := RequeueAfter)
            else if !c.spec.endpoint.IsZero() && c.spec.endpoint != e then s.(last := Failed)
            else s.(obj := Some(c.(spec := c.spec.(endpoint := e),
                                   status := ClusterStatus(true, e, True, c.status.created))), last := Done)
  {
    var c, lb := s.obj.value, Own(s).lbs[0];
    var e, rest := ListenerOf(lb), calls[2..];
    LooksAround(s, calls);
    BalancerSeen(s, rest);
    if Contradicts(lb, c.spec.loadBalancer.listener) {
      ClosesWith(s, Marked(c, False), Failed, rest[1..]);
    } else {
      BalancerKept(s, rest[1..]);
      if lb.status != Active {
        ClosesWith(s, c, RequeueAfter, rest[1..][1..]);
      } else {
        ListenerRead(s, rest[1..][1..]);
      }
    }
  }

  lemma {:induction false} BalancerSeen(s: Sys, calls: seq<Reply>)
    requires Complete(s) && GoodCalls(calls, 2)
    ensures var c, lb := s.obj.value, Own(s).lbs[0];
            Drive(s.(round := Busy(c, c, LbGet(Own(s).bgs[0].id))), calls) ==
            Drive(s.(round := if Contradicts(lb, c.spec.loadBalancer.listener) then FailRound(c, c)
                              else Busy(c, c, ActiveGet)), calls[1..])
  {
    var c, lb := s.obj.value, Own(s).lbs[0];
    var t := s.(round := Busy(c, c, LbGet(Own(s).bgs[0].id)));
    assert CallStep(t, calls[0]) == t.(round := ReadStep(t, Success));
  }

  lemma {:induction false} BalancerKept(s: Sys, calls: seq<Reply>)
    requires Complete(s) && GoodCalls(calls, 2)
    ensures var c, lb := s.obj.value, Own(s).lbs[0];
            Drive(s.(round := Busy(c, c, ActiveGet)), calls) ==
            Drive(s.(round := Busy(c, c, if lb.status == Active then DescribeGet else Closing(RequeueAfter))),
                  calls[1..])
  {
    var c := s.obj.value;
    var t := s.(round := Busy(c, c, ActiveGet));
    assert CallStep(t, calls[0]) == t.(round := ReadStep(t, Success));
  }

  lemma {:induction false} ListenerRead(s: Sys, calls: seq<Reply>)
    requires Complete(s) && GoodCalls(calls, 2)
    requires s.obj.value.spec.endpoint.IsZero() ==> Resolves(calls, ListenerOf(Own(s).lbs[0]))
    ensures var c, e := s.obj.value, ListenerOf(Own(s).lbs[0]);
            Drive(s.(round := Busy(c, c, DescribeGet)), calls) ==
            if !c.spec.endpoint.IsZero() && c.spec.endpoint != e then s.(last := Failed)
            else s.(obj := Some(c.(spec := c.spec.(endpoint := e),
                                   status := ClusterStatus(true, e, True, c.status.created))), last := Done)
  {
    var c, e := s.obj.value, ListenerOf(Own(s).lbs[0]);
    var t := s.(round := Busy(c, c, DescribeGet));
    DescribeAnswer(t, calls[0]);
    if !c.spec.endpoint.IsZero() && c.spec.endpoint != e {
      ClosesWith(s, c, Failed, calls[1..]);
    } else {
      ClosesWith(s, MarkedReady(c, e), Done, calls[1..]);
    }
  }

  /** After any run, an undisturbed round changes neither cloud nor object while the load balancer
      is not active, and comes back later. */
  lemma {:induction false} WaitsUntilActive(s0: Sys, acts: seq<Action>, calls: seq<Reply>)
    requires Initial(s0) && KeepsFolderAlways(s0, acts)
    requires var s := Run(s0, acts); Reconcilable(s) && Own(s).lbs != [] && Own(s).lbs[0].status != Active
    requires Smooth(calls)
    ensures Reconciled(Run(s0, acts), calls) == Run(s0, acts).(last := RequeueAfter)
  {
    var s := Run(s0, acts);
    InitialInv(s0);
    RunInv(s0, acts);
    LooksAround(s, calls);
    BalancerSeen(s, calls[2..]);
    BalancerKept(s, calls[2..][1..]);
    ClosesWith(s, s.obj.value, RequeueAfter, calls[2..][1..][1..]);
  }
}
