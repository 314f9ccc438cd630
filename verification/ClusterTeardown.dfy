/** Deleting a cluster: no interference can set it back, and undisturbed it takes exactly
    one round for each resource and one for the finalizer. */
module ClusterTeardown {
  import opened Basics
  import opened Api
  import opened Admission
  import opened Names
  import opened AlbCloud
  import opened ClusterProtocol
  import opened ClusterSafety
  import opened ClusterTheorems
  import opened ClusterRounds
  import opened ClusterConvergence

  // ---- the measure ----

  function LbStage(r: Resources): nat {
    if r.lbs == [] then 0 else if r.lbs[0].status == Deleting then 1 else 2
  }

  function BgStage(r: Resources): nat {
    if r.bgs == [] then 0 else if r.bgs[0].deleting then 1 else 2
  }

  function TgStage(r: Resources): nat {
    if r.tgs == [] then 0 else if r.tgs[0].deleting then 1 else 2
  }

  function FinalizerStage(obj: Option<Cluster>): nat { if Holds(obj) then 1 else 0 }

  /** Every part of the teardown in `t` is at least as far as in `s`. */
  predicate NoSetback(s: Sys, t: Sys) {
    && LbStage(Own(t)) <= LbStage(Own(s))
    && BgStage(Own(t)) <= BgStage(Own(s))
    && TgStage(Own(t)) <= TgStage(Own(s))
    && FinalizerStage(t.obj) <= FinalizerStage(s.obj)
  }

  /** The object is being deleted or gone, and no forward round is still in flight. */
  predicate TearingDown(s: Sys) {
    && (s.obj.Some? ==> s.obj.value.deleting)
    && (s.round.Busy? ==> s.round.before.deleting)
  }

  lemma TeardownCall(s: Sys, r: Reply)
    requires Inv(s) && TearingDown(s) && s.round.Busy? && r.Proper()
    ensures TearingDown(CallStep(s, r)) && NoSetback(s, CallStep(s, r))
  {
    if Mutating(s.round.stage) {
      WriteIsLocal(s, r);
    }
  }

  lemma TeardownGroupEvent(s: Sys, a: Action)
    requires Inv(s) && TearingDown(s) && (a.BgGone? || a.TgGone? || a.TargetsChange? || a.Foreign?)
    ensures TearingDown(Apply(s, a)) && NoSetback(s, Apply(s, a))
  {
  }

  lemma TeardownStep(s: Sys, a: Action)
    requires Inv(s) && TearingDown(s)
    ensures TearingDown(Apply(s, a)) && NoSetback(s, Apply(s, a))
  {
    if a.Call? {
      if s.round.Busy? && a.reply.Proper() {
        TeardownCall(s, a.reply);
      }
    } else if a.BgGone? || a.TgGone? || a.TargetsChange? || a.Foreign? {
      TeardownGroupEvent(s, a);
    }
  }

  /** From then on nothing in any run moves any part of the teardown backwards. */
  lemma {:induction false} TeardownNeverGoesBack(s: Sys, acts: seq<Action>)
    requires Inv(s) && TearingDown(s) && KeepsFolderAlways(s, acts)
    ensures TearingDown(Run(s, acts)) && NoSetback(s, Run(s, acts))
  {
    if acts != [] {
      TeardownNeverGoesBack(s, acts[..|acts| - 1]);
      RunInv(s, acts[..|acts| - 1]);
      TeardownStep(Run(s, acts[..|acts| - 1]), acts[|acts| - 1]);
    }
  }

  /** What is left to do: two steps for each resource, one for the finalizer. */
  function Remaining(s: Sys): nat {
    LbStage(Own(s)) + BgStage(Own(s)) + TgStage(Own(s)) + FinalizerStage(s.obj)
  }

  /** The call takes effect, and what it asks for was not under way already. */
  predicate AsksForMore(s: Sys, r: Reply)
    requires s.round.Busy?
  {
    && r.outcome.Effective()
    && match s.round.stage
       case DelLb(_) => LbStage(Own(s)) == 2
       case DelBg(_) => BgStage(Own(s)) == 2
       case DelTg(_) => TgStage(Own(s)) == 2
       case Closing(_) =>
         Holds(s.obj) && !s.round.work.finalizer && Persist(s.obj, s.round.before, s.round.work, r.dns).Ok?
       case _ => false
  }

  lemma DeleteRequestAdvances(s: Sys, r: Reply)
    requires Inv(s) && TearingDown(s) && s.round.Busy? && r.Proper() && Mutating(s.round.stage)
    ensures Remaining(CallStep(s, r)) < Remaining(s) <==> AsksForMore(s, r)
  {
    WriteIsLocal(s, r);
    assert Own(CallStep(s, r)) == if r.outcome.Effective() then Own(s.(cloud := WriteEffect(s, r))) else Own(s);
  }

  lemma FinalizerAdvances(s: Sys, r: Reply)
    requires Inv(s) && TearingDown(s) && s.round.Busy? && s.round.stage.Closing?
    ensures Remaining(CallStep(s, r)) < Remaining(s) <==> AsksForMore(s, r)
  {
  }

  /** During a teardown a call of the controller lowers what remains if and only if it takes
      effect and asks for something new: the deletion of a resource, or of the finalizer. */
  lemma AcceptedDeleteAdvances(s: Sys, r: Reply)
    requires Inv(s) && TearingDown(s) && s.round.Busy? && r.Proper()
    ensures Remaining(CallStep(s, r)) <= Remaining(s)
    ensures Remaining(CallStep(s, r)) < Remaining(s) <==> AsksForMore(s, r)
  {
    TeardownCall(s, r);
    if s.round.stage.Closing? {
      FinalizerAdvances(s, r);
    } else if Mutating(s.round.stage) {
      DeleteRequestAdvances(s, r);
    }
  }

  // ---- undisturbed teardown ----

  /** Accepted deletions finish: what the cloud does between two rounds. */
  function Settled(s: Sys): Sys { TgSettled(BgSettled(LbSettled(s))) }

  function LbSettled(s: Sys): Sys { if LbStage(Own(s)) == 1 then Apply(s, LbVanishes(s.home, 0)) else s }

  function BgSettled(s: Sys): Sys { if BgStage(Own(s)) == 1 then Apply(s, BgGone(s.home, 0)) else s }

  function TgSettled(s: Sys): Sys { if TgStage(Own(s)) == 1 then Apply(s, TgGone(s.home, 0)) else s }

  /** Ready for the next delete round: nothing is pending and the load balancer does not
      claim to be stopping. */
  predicate Deletable(s: Sys) {
    && s.round.Idle? && Holds(s.obj) && s.obj.value.deleting
    && LbStage(Own(s)) != 1 && BgStage(Own(s)) != 1 && TgStage(Own(s)) != 1
    && (Own(s).lbs != [] ==> Own(s).lbs[0].status != Stopping)
  }

  function Present(r: Resources): nat {
    (if r.lbs == [] then 0 else 1) + (if r.bgs == [] then 0 else 1) + (if r.tgs == [] then 0 else 1)
  }

  /** A delete request and the patch after it. */
  lemma {:induction false} DeleteLeg(s: Sys, calls: seq<Reply>)
    requires Inv(s) && s.round.Busy? && GoodCalls(calls, 2) && s.obj == Some(s.round.before)
    requires s.round.work == s.round.before && s.round.before.deleting
    requires s.round.stage.DelLb? || s.round.stage.DelBg? || s.round.stage.DelTg?
    ensures var t := Drive(s, calls);
            && t.round.Idle? && t.home == s.home
            && t.obj == Some(Marked(s.round.before, False))
            && Own(t) == WrittenResources(Own(s), s.round.before.spec, s.round.stage, calls[0])
            && t.last == RequeueAfter && t.writes == s.writes + 1
  {
    WriteIsLocal(s, calls[0]);
    var s1 := Apply(s, Call(calls[0]));
    assert s1.round == WaitRound(s.round.before, s.round.work);
    UndisturbedClose(s1, calls[1]);
    WalkUnrolled(s, calls);
    IdleDrive(Apply(s1, Call(calls[1])), calls[2..]);
  }

  /** The load balancer is on its way out, so it is not asked to go again. */
  predicate GoingAlready(r: Resources) {
    r.lbs != [] && (r.lbs[0].status == Deleting || r.lbs[0].status == Stopping)
  }

  /** After any run, one undisturbed delete round makes one request, for the deletion of the
      outermost resource left, and comes back later. It makes none for a load balancer that is on
      its way out; and when no resource is left, it drops the finalizer and is done. */
  lemma {:induction false} DeleteRound(s: Sys, calls: seq<Reply>)
    requires Inv(s) && s.round.Idle? && Holds(s.obj) && s.obj.value.deleting && Smooth(calls)
    ensures var t := Reconciled(s, calls);
            && t.round.Idle? && t.home == s.home
            && t.obj == (if Own(s).Empty() then Reap(s.obj.value.(finalizer := false))
                   else Some(Marked(s.obj.value, False)))
            && t.last == (if Own(s).Empty() then Done else RequeueAfter)
            && t.writes == s.writes + (if Own(s).Empty() || GoingAlready(Own(s)) then 0 else 1)
            && var r := Own(s);
            Own(t) == if GoingAlready(r) then r
                      else if r.lbs != [] then r.(lbs := MarkLoadBalancer(r.lbs, r.lbs[0].id))
                      else if r.bgs != [] then r.(bgs := MarkBackendGroup(r.bgs, r.bgs[0].id))
                      else if r.tgs != [] then r.(tgs := MarkTargetGroup(r.tgs, r.tgs[0].id))
                      else r
  {
    DeleteLooks(s, calls);
    var s1 := s.(round := FirstAnswer(s.obj.value, Own(s)));
    if GoingAlready(Own(s)) {
      UndisturbedClose(s1, calls[1]);
      IdleDrive(Apply(s1, Call(calls[1])), calls[1..][1..]);
    } else if Own(s).lbs != [] {
      DeleteLeg(s1, calls[1..]);
    } else {
      DeleteRoundWithoutLb(s1, calls[1..]);
    }
  }

  /** What a delete round does next once it has looked for the load balancer. */
  function FirstAnswer(c: Cluster, r: Resources): Round {
    if GoingAlready(r) then WaitRound(c, c)
    else Busy(c, c, if r.lbs != [] then DelLb(r.lbs[0].id) else DelBgGet)
  }

  lemma {:induction false} DeleteLooks(s: Sys, calls: seq<Reply>)
    requires Inv(s) && s.round.Idle? && Holds(s.obj) && s.obj.value.deleting && Smooth(calls)
    ensures var t := s.(round := FirstAnswer(s.obj.value, Own(s)));
            Inv(t) && Reconciled(s, calls) == Drive(t, calls[1..])
  {
    var c := s.obj.value;
    BeginInv(s);
    var s0 := Apply(s, Begin);
    assert s0 == s.(round := Busy(c, c, DelLbGet)) && KeyOf(s.generated, c.spec) == s.home;
    ReadInv(s0, calls[0]);
    assert CallStep(s0, calls[0]) == s0.(round := ReadStep(s0, Success));
  }

  lemma {:induction false} DeleteRoundWithoutLb(s: Sys, calls: seq<Reply>)
    requires Inv(s) && s.round.Busy? && s.round == Busy(s.round.before, s.round.before, DelBgGet) && Own(s).lbs == []
    requires s.obj == Some(s.round.before) && GoodCalls(calls, 4)
    ensures var t := Drive(s, calls);
            && t.round.Idle? && t.home == s.home
            && t.obj == (if Own(s).Empty() then Reap(s.obj.value.(finalizer := false))
                   else Some(Marked(s.obj.value, False)))
            && t.last == (if Own(s).Empty() then Done else RequeueAfter)
            && t.writes == s.writes + (if Own(s).Empty() then 0 else 1)
            && var r := Own(s);
            Own(t) == if r.bgs != [] then r.(bgs := MarkBackendGroup(r.bgs, r.bgs[0].id))
                      else if r.tgs != [] then r.(tgs := MarkTargetGroup(r.tgs, r.tgs[0].id))
                      else r
  {
    var c := s.obj.value;
    assert KeyOf(s.generated, c.spec) == s.home;
    WalkUnrolled(s, calls);
    ApplyInv(s, Call(calls[0]));
    var s1 := Apply(s, Call(calls[0]));
    if Own(s).bgs != [] {
      assert s1 == s.(round := Busy(c, c, DelBg(Own(s).bgs[0].id)));
      DeleteLeg(s1, calls[1..]);
      return;
    }
    assert s1 == s.(round := Busy(c, c, DelTgGet));
    DeleteRoundWithoutGroups(s1, calls[1..]);
  }

  lemma {:induction false} DeleteRoundWithoutGroups(s: Sys, calls: seq<Reply>)
    requires Inv(s) && s.round.Busy? && s.round == Busy(s.round.before, s.round.before, DelTgGet)
    requires Own(s).lbs == [] && Own(s).bgs == []
    requires s.obj == Some(s.round.before) && GoodCalls(calls, 3)
    ensures var t := Drive(s, calls);
            && t.round.Idle? && t.home == s.home
            && t.obj == (if Own(s).Empty() then Reap(s.obj.value.(finalizer := false))
                   else Some(Marked(s.obj.value, False)))
            && t.last == (if Own(s).Empty() then Done else RequeueAfter)
            && t.writes == s.writes + (if Own(s).Empty() then 0 else 1)
            && var r := Own(s);
            Own(t) == if r.tgs != [] then r.(tgs := MarkTargetGroup(r.tgs, r.tgs[0].id)) else r
  {
    var c := s.obj.value;
    assert KeyOf(s.generated, c.spec) == s.home;
    WalkUnrolled(s, calls);
    ApplyInv(s, Call(calls[0]));
    var s1 := Apply(s, Call(calls[0]));
    if Own(s).tgs != [] {
      DeleteLeg(s1, calls[1..]);
      return;
    }
    assert s1 == s.(round := Busy(c, c.(finalizer := false), Closing(Done)));
    UndisturbedClose(s1, calls[1]);
    WalkUnrolled(s1, calls[1..]);
    IdleDrive(Apply(s1, Call(calls[1])), calls[1..][1..]);
  }

  /** One round and what the cloud does after it take exactly one resource away. */
  lemma {:induction false} RoundAndSettle(s: Sys, calls: seq<Reply>)
    requires Inv(s) && Deletable(s) && Smooth(calls)
    ensures var t := Settled(Reconciled(s, calls));
            && Inv(t)
            && (Own(s).Empty() ==> !Holds(t.obj) && Own(t).Empty())
            && (!Own(s).Empty() ==> Deletable(t) && Present(Own(t)) == Present(Own(s)) - 1)
  {
    ReconciledInv(s, calls);
    DeleteRound(s, calls);
    SettledKeeps(Reconciled(s, calls));
  }

  lemma SettledKeeps(s: Sys)
    requires Inv(s)
    ensures var t := Settled(s);
            && Inv(t) && t.obj == s.obj && t.round == s.round && t.home == s.home
            && Own(t) == Resources(if TgStage(Own(s)) == 1 then [] else Own(s).tgs,
                                   if BgStage(Own(s)) == 1 then [] else Own(s).bgs,
                                   if LbStage(Own(s)) == 1 then [] else Own(s).lbs)
  {
    LbSettles(s);
    BgSettles(LbSettled(s));
    TgSettles(BgSettled(LbSettled(s)));
  }

  lemma LbSettles(s: Sys)
    requires Inv(s)
    ensures Inv(LbSettled(s)) && LbSettled(s) == s.(cloud := LbSettled(s).cloud)
    ensures Own(LbSettled(s)) == Own(s).(lbs := if LbStage(Own(s)) == 1 then [] else Own(s).lbs)
  {
    LbEventInv(s, LbVanishes(s.home, 0));
  }

  lemma BgSettles(s: Sys)
    requires Inv(s)
    ensures Inv(BgSettled(s)) && BgSettled(s) == s.(cloud := BgSettled(s).cloud)
    ensures Own(BgSettled(s)) == Own(s).(bgs := if BgStage(Own(s)) == 1 then [] else Own(s).bgs)
  {
    GroupEventInv(s, BgGone(s.home, 0));
  }

  lemma TgSettles(s: Sys)
    requires Inv(s)
    ensures Inv(TgSettled(s)) && TgSettled(s) == s.(cloud := TgSettled(s).cloud)
    ensures Own(TgSettled(s)) == Own(s).(tgs := if TgStage(Own(s)) == 1 then [] else Own(s).tgs)
  {
    GroupEventInv(s, TgGone(s.home, 0));
  }

  /** Delete rounds, each followed by what the cloud then finishes. */
  function Teardown(s: Sys, rounds: seq<seq<Reply>>): Sys
    decreases |rounds|
  {
    if rounds == [] then s else Teardown(Settled(Reconciled(s, rounds[0])), rounds[1..])
  }

  /** The finalizer goes in exactly the round after the last resource: with `n` of the three
      resources present, it is there after `n` rounds and gone after `n + 1`. */
  lemma {:induction false} TeardownTakesExactly(s: Sys, rounds: seq<seq<Reply>>)
    requires Inv(s) && Deletable(s) && forall calls <- rounds :: Smooth(calls)
    ensures |rounds| <= Present(Own(s)) ==>
              Holds(Teardown(s, rounds).obj) && Present(Own(Teardown(s, rounds))) == Present(Own(s)) - |rounds|
    ensures |rounds| == Present(Own(s)) + 1 ==>
              !Holds(Teardown(s, rounds).obj) && Own(Teardown(s, rounds)).Empty()
    decreases |rounds|
  {
    if rounds != [] {
      RoundAndSettle(s, rounds[0]);
      if Own(s).Empty() {
        assert |rounds| == 1 ==> Teardown(s, rounds) == Settled(Reconciled(s, rounds[0]));
      } else {
        TeardownTakesExactly(Settled(Reconciled(s, rounds[0])), rounds[1..]);
      }
    }
  }

  // ---- why the folder must not change ----

  /** The update webhook admits every folder edit. With nothing of its name in the new place, a
      cluster that is then deleted leaves its resources behind without its finalizer if and only
      if the folder changed. */
  lemma {:induction false} FolderEditLeaksExactly(s: Sys, folder: string, dns: Resolver, calls: seq<Reply>)
    requires Inv(s) && s.round.Idle? && Holds(s.obj) && !Own(s).Empty() && Smooth(calls)
    requires var k := Key(folder, s.home.name);
             folder != s.home.folder ==> NothingAt(s.cloud, k)
    ensures AdmitsUpdate(s.obj.value.spec, s.obj.value.spec.(folder := folder), dns)
    ensures var edited := Apply(s, UserEdit(s.obj.value.spec.(folder := folder), dns));
            var t := Reconciled(Apply(edited, UserDelete), calls);
            (!Own(t).Empty() && !Holds(t.obj)) <==> folder != s.home.folder
  {
    var edit := UserEdit(s.obj.value.spec.(folder := folder), dns);
    var s1 := Apply(Apply(s, edit), UserDelete);
    var k := Key(folder, s.home.name);
    assert KeyOf(s.generated, s1.obj.value.spec) == k;
    if folder != s.home.folder {
      EmptyPlaceDelete(s1, calls, k);
    } else {
      ApplyInv(s, edit);
      ApplyInv(Apply(s, edit), UserDelete);
      ReconciledInv(s1, calls);
    }
  }

  /** A delete round that finds nothing under the object's present folder and name. */
  lemma {:induction false} EmptyPlaceDelete(s: Sys, calls: seq<Reply>, k: Key)
    requires s.round.Idle? && Holds(s.obj) && s.obj.value.deleting && Smooth(calls)
    requires s.obj.value.spec.loadBalancer.lbType == LB_TYPE_ALB && KeyOf(s.generated, s.obj.value.spec) == k
    requires At(s.cloud.tgs, k) == [] && At(s.cloud.bgs, k) == [] && At(s.cloud.lbs, k) == []
    ensures Reconciled(s, calls) == s.(obj := Reap(s.obj.value.(finalizer := false)), last := Done)
  {
    var c := s.obj.value;
    var s0 := Apply(s, Begin);
    assert s0 == s.(round := Busy(c, c, DelLbGet));
    var s1 := Apply(s0, Call(calls[0]));
    assert s1 == s.(round := Busy(c, c, DelBgGet));
    var s2 := Apply(s1, Call(calls[1]));
    assert s2 == s.(round := Busy(c, c, DelTgGet));
    var s3 := Apply(s2, Call(calls[2]));
    assert s3 == s.(round := Busy(c, c.(finalizer := false), Closing(Done)));
    UndisturbedClose(s3, calls[3]);
    WalkUnrolled(s0, calls);
    WalkUnrolled(s2, calls[2..]);
    IdleDrive(Apply(s3, Call(calls[3])), calls[2..][2..]);
  }

  // ---- clusters that share a folder ----

  /** Nothing changed under other names. */
  ghost predicate ElsewhereSame(s: Sys, t: Sys) {
    && t.home == s.home
    && forall k | k != s.home ::
         && At(t.cloud.tgs, k) == At(s.cloud.tgs, k) && At(t.cloud.bgs, k) == At(s.cloud.bgs, k)
         && At(t.cloud.lbs, k) == At(s.cloud.lbs, k)
  }

  lemma CallStaysHome(s: Sys, r: Reply)
    requires Inv(s)
    ensures ElsewhereSame(s, Apply(s, Call(r)))
  {
    if s.round.Busy? && r.Proper() && Mutating(s.round.stage) {
      assert KeyOf(s.generated, s.round.work.spec) == s.home;
    }
  }

  lemma {:induction false} DriveStaysHome(s: Sys, calls: seq<Reply>)
    requires Inv(s)
    ensures ElsewhereSame(s, Drive(s, calls))
    decreases |calls|
  {
    if calls != [] {
      CallStaysHome(s, calls[0]);
      ApplyInv(s, Call(calls[0]));
      DriveStaysHome(Apply(s, Call(calls[0])), calls[1..]);
    }
  }

  lemma SettledStaysHome(s: Sys)
    ensures ElsewhereSame(s, Settled(s))
  {
    var s1 := LbSettled(s);
    var s2 := BgSettled(s1);
    LossStaysHome(s, LbVanishes(s.home, 0));
    LossStaysHome(s1, BgGone(s1.home, 0));
    LossStaysHome(s2, TgGone(s2.home, 0));
  }

  lemma LossStaysHome(s: Sys, a: Action)
    requires a in {LbVanishes(s.home, 0), BgGone(s.home, 0), TgGone(s.home, 0)}
    ensures ElsewhereSame(s, Apply(s, a))
  {
  }

  lemma {:induction false} TeardownStaysHome(s: Sys, rounds: seq<seq<Reply>>)
    requires Inv(s)
    ensures ElsewhereSame(s, Teardown(s, rounds))
    decreases |rounds|
  {
    if rounds != [] {
      BeginInv(s);
      DriveStaysHome(Apply(s, Begin), rounds[0]);
      ReconciledInv(s, rounds[0]);
      var t := Reconciled(s, rounds[0]);
      SettledStaysHome(t);
      SettledKeeps(t);
      TeardownStaysHome(Settled(t), rounds[1..]);
    }
  }

  predicate NothingAt(c: Cloud, k: Key) { At(c.tgs, k) == [] && At(c.bgs, k) == [] && At(c.lbs, k) == [] }

  lemma {:induction false} OnlyHomeIsEmptied(s: Sys, rounds: seq<seq<Reply>>, k: Key)
    requires Inv(s) && Deletable(s) && |rounds| == Present(Own(s)) + 1 && forall calls <- rounds :: Smooth(calls)
    requires !NothingAt(s.cloud, k)
    ensures var t := Teardown(s, rounds);
            && (NothingAt(t.cloud, k) <==> k == s.home)
            && (k != s.home ==>
                  && At(t.cloud.tgs, k) == At(s.cloud.tgs, k) && At(t.cloud.bgs, k) == At(s.cloud.bgs, k)
                  && At(t.cloud.lbs, k) == At(s.cloud.lbs, k))
  {
    TeardownTakesExactly(s, rounds);
    TeardownStaysHome(s, rounds);
  }

  /** Deleting a cluster whose spec gives no load balancer name takes away what a neighbour of the
      same folder has under its generated name if and only if the two cluster names agree once
      they are cleaned; what has another name is not touched. */
  lemma {:induction false} DeletionHitsANeighbourExactly(s: Sys, rounds: seq<seq<Reply>>, mine: Owner, theirs: Owner)
    requires Inv(s) && Deletable(s) && |rounds| == Present(Own(s)) + 1 && forall calls <- rounds :: Smooth(calls)
    requires IsDigest(mine.digest) && IsDigest(theirs.digest) && FitsUnhashed(mine.name) && FitsUnhashed(theirs.name)
    requires s.generated == GenerateName(mine) && s.obj.value.spec.loadBalancer.name == ""
    requires !NothingAt(s.cloud, Key(s.obj.value.spec.folder, GenerateName(theirs)))
    ensures var k, t := Key(s.obj.value.spec.folder, GenerateName(theirs)), Teardown(s, rounds);
            && (NothingAt(t.cloud, k) <==> ClearString(mine.name) == ClearString(theirs.name))
            && (!NothingAt(t.cloud, k) ==>
                  && At(t.cloud.tgs, k) == At(s.cloud.tgs, k) && At(t.cloud.bgs, k) == At(s.cloud.bgs, k)
                  && At(t.cloud.lbs, k) == At(s.cloud.lbs, k))
  {
    ShortNamesCollideExactly(mine, theirs);
    assert s.home == Key(s.obj.value.spec.folder, GenerateName(mine));
    OnlyHomeIsEmptied(s, rounds, Key(s.obj.value.spec.folder, GenerateName(theirs)));
  }
}
