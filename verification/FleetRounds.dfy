/** Whole rounds of one machine: they end, and undisturbed ones converge. */
module FleetRounds {
  import opened Basics
  import opened AlbCloud
  import opened FleetProtocol
  import opened FleetSafety

  function LApply(uid: Uid, l: Local, r: MReply): Local {
    if l.slot.round.InFlight? && (l.slot.round.stage.Create? && r.outcome.Effective() ==> r.id != "" && r.id !in l.vms)
    then CallLocal(uid, l, r) else l
  }

  /** The calls of a round, answered one after the other with nobody in between. */
  function LDrive(uid: Uid, l: Local, calls: seq<MReply>): Local
    decreases |calls|
  {
    if calls == [] then l else LDrive(uid, LApply(uid, l, calls[0]), calls[1..])
  }

  function Begun(l: Local): Local {
    if l.slot.present && l.slot.round.Rest?
    then l.(slot := Moved(l.slot, MStart(l.slot.obj, l.slot.bootstrapped))) else l
  }

  function LReconciled(uid: Uid, l: Local, calls: seq<MReply>): Local {
    LDrive(uid, Begun(l), calls)
  }

  /** The verdict of a driven round, once it is over; a round whose last patch fails has failed. */
  function LVerdict(uid: Uid, l: Local, calls: seq<MReply>): Option<MVerdict>
    decreases |calls|
  {
    if calls == [] || l.slot.round.Rest? then None
    else if l.slot.round.stage.MClosing? then
      Some(if calls[0].outcome == Success && Accepts(l.slot, l.slot.round.before, l.slot.round.work)
           then l.slot.round.stage.verdict else MFailed)
    else LVerdict(uid, LApply(uid, l, calls[0]), calls[1..])
  }

  function RoundVerdict(uid: Uid, l: Local, calls: seq<MReply>): Option<MVerdict> {
    LVerdict(uid, Begun(l), calls)
  }

  predicate AllSucceed(calls: seq<MReply>, n: nat) {
    |calls| >= n && forall r <- calls :: r.outcome == Success
  }

  const MACHINE_MAX_CALLS := 6

  // ---- a local round is a run of the fleet ----

  function View(f: Fleet, uid: Uid): Local
    requires uid in f.slots
  {
    Local(f.slots[uid], f.vms, f.tg)
  }

  function Put(f: Fleet, uid: Uid, l: Local): Fleet {
    f.(slots := f.slots[uid := l.slot], vms := l.vms, tg := l.tg)
  }

  function CallsOf(uid: Uid, calls: seq<MReply>): seq<FleetAction> {
    seq(|calls|, i requires 0 <= i < |calls| => MCall(uid, calls[i]))
  }

  lemma CallIsLocal(f: Fleet, uid: Uid, r: MReply)
    requires uid in f.slots
    ensures FleetApply(f, MCall(uid, r)) == Put(f, uid, LApply(uid, View(f, uid), r))
  {
    assert f.slots[uid := f.slots[uid]] == f.slots;
  }

  lemma {:induction false} LocalRoundIsFleetRun(f: Fleet, uid: Uid, calls: seq<MReply>, before: seq<FleetAction>)
    requires uid in FleetRun(f, before).slots
    ensures FleetRun(f, before + CallsOf(uid, calls)) ==
            Put(FleetRun(f, before), uid, LDrive(uid, View(FleetRun(f, before), uid), calls))
    decreases |calls|
  {
    var g := FleetRun(f, before);
    if calls == [] {
      assert before + CallsOf(uid, calls) == before;
      assert g.slots[uid := g.slots[uid]] == g.slots;
    } else {
      var next := before + [MCall(uid, calls[0])];
      assert next[..|before|] == before;
      var h := FleetApply(g, MCall(uid, calls[0]));
      CallIsLocal(g, uid, calls[0]);
      LocalRoundIsFleetRun(f, uid, calls[1..], next);
      assert next + CallsOf(uid, calls[1..]) == before + CallsOf(uid, calls);
      var end := LDrive(uid, View(h, uid), calls[1..]);
      assert Put(h, uid, end) == Put(g, uid, end);
    }
  }

  // ---- every round ends ----

  function MRank(r: MRound): nat {
    if r.Rest? then 0
    else match r.stage
      case Patch(_) => 6
      case Create => 5
      case Get => 4
      case RegGet => 3
      case RegAdd(_) => 2
      case DelGet => 5
      case DeregGet(_) => 4
      case DeregRemove(_, _) => 3
      case DelVm => 2
      case MClosing(_) => 1
  }

  lemma ReconcileStagesLowerMRank(b: Machine, w: Machine, cp: bool, found: Lookup, tg: Result<Option<TargetGroup>>,
      ok: bool)
    ensures MRank(AfterPatch(b, w, cp, ok)) < 6
    ensures MRank(AfterGet(b, w, cp, found)) < 4
    ensures MRank(AfterRegGet(b, w, tg)) < 3
    ensures MRank(AfterRegAdd(b, w, ok)) < 2
  {
  }

  lemma DeleteStagesLowerMRank(b: Machine, w: Machine, cp: bool, found: Lookup, tg: Result<Option<TargetGroup>>,
      gone: bool, ok: bool)
    ensures MRank(AfterDelGet(b, w, cp, found)) < 5
    ensures MRank(AfterDeregGet(b, w, gone, tg)) < 4
    ensures MRank(AfterDeregRemove(b, w, gone, ok)) < 3
    ensures MRank(AfterDelVm(b, w, ok)) < 2
  {
  }

  lemma CallLowersMRank(uid: Uid, l: Local, r: MReply)
    requires l.slot.round.InFlight?
    ensures MRank(CallLocal(uid, l, r).slot.round) < MRank(l.slot.round)
  {
    var InFlight(b, w, stage) := l.slot.round;
    var cp := l.slot.controlPlane;
    var ok := r.outcome == Success;
    var done := ok && Recorded(w).Some?;
    var found, tg := LookUp(r.outcome, l.vms, InstanceIdOf(w)), ReadTg(r.outcome, l.tg);
    CallMovesRound(uid, l, r);
    match stage
    case Patch(boot) => ReconcileStagesLowerMRank(b, w, boot, found, tg, ok && Accepts(l.slot, b, w));
    case RegAdd(id) => ReconcileStagesLowerMRank(b, w, cp, found, tg, done && IsTg(l.tg, id));
    case DeregGet(gone) => DeleteStagesLowerMRank(b, w, cp, found, tg, gone, ok);
    case DeregRemove(id, gone) => DeleteStagesLowerMRank(b, w, cp, found, tg, gone, done && IsTg(l.tg, id));
    case _ =>
      ReconcileStagesLowerMRank(b, w, cp, found, tg, ok);
      DeleteStagesLowerMRank(b, w, cp, found, tg, false, ok);
  }

  /** Whatever every call answers, a round of a machine is over after at most six of them. */
  lemma {:induction false} MachineRoundsEnd(uid: Uid, l: Local, calls: seq<MReply>)
    requires MRank(l.slot.round) <= |calls|
    requires forall r <- calls | r.outcome.Effective() :: r.id != "" && r.id !in l.vms
    ensures LDrive(uid, l, calls).slot.round.Rest?
    decreases |calls|
  {
    if calls == [] {
    } else if l.slot.round.Rest? {
      RestDrives(uid, l, calls);
    } else {
      CallLowersMRank(uid, l, calls[0]);
      var l1 := LApply(uid, l, calls[0]);
      if l.slot.round.stage.Create? {
        PastCreate(uid, l1, calls[1..]);
      } else {
        assert l1.vms.Keys == l.vms.Keys;
        MachineRoundsEnd(uid, l1, calls[1..]);
      }
    }
  }

  /** After the create no stage depends on the ids the cloud would give. */
  lemma {:induction false} PastCreate(uid: Uid, l: Local, calls: seq<MReply>)
    requires MRank(l.slot.round) <= |calls| && MRank(l.slot.round) <= 4
    ensures LDrive(uid, l, calls).slot.round.Rest?
    decreases |calls|
  {
    if l.slot.round.Rest? {
      RestDrives(uid, l, calls);
    } else {
      CallLowersMRank(uid, l, calls[0]);
      PastCreate(uid, LApply(uid, l, calls[0]), calls[1..]);
    }
  }

  lemma {:induction false} RestDrives(uid: Uid, l: Local, calls: seq<MReply>)
    requires l.slot.round.Rest?
    ensures LDrive(uid, l, calls) == l
    decreases |calls|
  {
    if calls != [] {
      RestDrives(uid, l, calls[1..]);
    }
  }

  // ---- parts of a round ----

  /** Where some calls of a round lead, and the calls that are left. */
  datatype Leg = Leg(end: Local, rest: seq<MReply>)

  function Walk(uid: Uid, l: Local, calls: seq<MReply>, n: nat): Leg
    requires n <= |calls|
  {
    Leg(LDrive(uid, l, calls[..n]), calls[n..])
  }

  /** In a round that has not come to its last patch. */
  predicate Amid(l: Local) { l.slot.round.InFlight? && !l.slot.round.stage.MClosing? }

  /** One or two calls, unrolled. */
  lemma {:induction false} WalkUnrolled(uid: Uid, l: Local, calls: seq<MReply>)
    requires |calls| >= 2
    ensures var l1 := LApply(uid, l, calls[0]);
            && Walk(uid, l, calls, 1) == Leg(l1, calls[1..]) && LDrive(uid, l, calls) == LDrive(uid, l1, calls[1..])
            && Walk(uid, l, calls, 2) == Leg(LApply(uid, l1, calls[1]), calls[2..])
            && LDrive(uid, l, calls) == LDrive(uid, LApply(uid, l1, calls[1]), calls[2..])
            && (Amid(l) ==> LVerdict(uid, l, calls) == LVerdict(uid, l1, calls[1..]))
            && (Amid(l) && Amid(l1) ==>
                  LVerdict(uid, l, calls) == LVerdict(uid, LApply(uid, l1, calls[1]), calls[2..]))
  {
    var l1 := LApply(uid, l, calls[0]);
    assert calls[..1][1..] == [] && calls[..2][1..] == [calls[1]] && [calls[1]][1..] == [];
    assert LDrive(uid, l, calls[..1]) == LDrive(uid, l1, []);
    assert LDrive(uid, l, calls[..2]) == LDrive(uid, l1, [calls[1]]) == LDrive(uid, LApply(uid, l1, calls[1]), []);
    assert calls[1..][0] == calls[1] && calls[1..][1..] == calls[2..];
    assert LDrive(uid, l1, calls[1..]) == LDrive(uid, LApply(uid, l1, calls[1]), calls[2..]);
  }

  // ---- deleting a machine ----

  /** The final patch, when nobody else touched the object. */
  lemma {:induction false} CloseLeg(uid: Uid, l: Local, calls: seq<MReply>)
    requires l.slot.round.InFlight? && l.slot.round.stage.MClosing? && AllSucceed(calls, 1)
    requires l.slot.present && l.slot.obj == l.slot.round.before
    requires var b, w := l.slot.round.before, l.slot.round.work;
             w == b.(finalizer := w.finalizer, spec := w.spec, status := w.status)
             && w.spec == b.spec.(providerId := w.spec.providerId)
             && (w.finalizer && !b.finalizer ==> !b.deleting)
    ensures LDrive(uid, l, calls) == l.(slot := Store(l.slot, l.slot.round.work).(round := Rest))
    ensures LVerdict(uid, l, calls) == Some(l.slot.round.stage.verdict)
  {
    var b, w := l.slot.round.before, l.slot.round.work;
    assert MMerge(b, b, w) == w;
    var l1 := LApply(uid, l, calls[0]);
    assert l1 == l.(slot := Store(l.slot, w).(round := Rest));
    RestDrives(uid, l1, calls[1..]);
  }

  /** Deregistration succeeds whether or not the group or the target is there. */
  lemma {:induction false} DeregisterLeg(uid: Uid, l: Local, calls: seq<MReply>)
    requires l.slot.round.InFlight? && l.slot.round.stage.DeregGet? && AllSucceed(calls, 4)
    requires Recorded(l.slot.round.work).Some?
    ensures var Leg(l', rest) := Walk(uid, l, calls, if Registered(l.slot.round.work, l.tg) then 2 else 1);
            && AllSucceed(rest, 2) && LDrive(uid, l, calls) == LDrive(uid, l', rest)
            && LVerdict(uid, l, calls) == LVerdict(uid, l', rest)
            && l' == l.(tg := l'.tg, slot := Moved(l.slot,
                   Deregistered(l.slot.round.before, l.slot.round.work, l.slot.round.stage.gone)))
            && !Registered(l.slot.round.work, l'.tg)
            && forall t :: t != Recorded(l.slot.round.work).value ==> (t in Targets(l'.tg) <==> t in Targets(l.tg))
  {
    var InFlight(b, w, stage) := l.slot.round;
    var l1 := LApply(uid, l, calls[0]);
    WalkUnrolled(uid, l, calls);
    if Registered(w, l.tg) {
      assert l1 == l.(slot := Moved(l.slot, InFlight(b, w, DeregRemove(l.tg.value.id, stage.gone))));
      RemoveMembers(Targets(l.tg), Recorded(w).value);
    } else {
      assert l1 == l.(slot := Moved(l.slot, Deregistered(b, w, stage.gone)));
    }
  }

  /** A machine that a round would delete. */
  predicate Condemned(l: Local) { l.slot.present && l.slot.round.Rest? && l.slot.obj.deleting }

  /** A machine whose deletion is not over: it still has its finalizer. */
  predicate Doomed(l: Local) { Condemned(l) && l.slot.obj.finalizer }

  predicate Living(l: Local) {
    && l.slot.obj.spec.providerId.Some?
    && InstanceIdOf(l.slot.obj) in l.vms && l.vms[InstanceIdOf(l.slot.obj)].alive
  }

  /** What deregistration leaves of the group: all but the target the machine has on record. */
  ghost predicate OnlyRecordedLeft(m: Machine, cp: bool, tg: Option<TargetGroup>, tg': Option<TargetGroup>) {
    forall t :: t in Targets(tg') <==> t in Targets(tg) && !(cp && Recorded(m) == Some(t))
  }

  /** With the instance gone, or never made, one round deregisters and drops the finalizer. */
  lemma {:induction false} LastDeleteRound(uid: Uid, l: Local, calls: seq<MReply>, tgLost: bool)
    requires LocalOk(uid, l, tgLost) && Condemned(l) && !Living(l) && AllSucceed(calls, MACHINE_MAX_CALLS)
    ensures var l' := LReconciled(uid, l, calls);
            && l'.slot == l.slot.(obj := l'.slot.obj, present := l.slot.obj.held)
            && !l'.slot.obj.finalizer && l'.slot.obj.spec == l.slot.obj.spec
            && l'.vms == l.vms
            && OnlyRecordedLeft(l.slot.obj, l.slot.controlPlane, l.tg, l'.tg)
            && RoundVerdict(uid, l, calls) == Some(MDone)
  {
    var m := l.slot.obj;
    var l0 := Begun(l);
    if m.spec.providerId.None? {
      assert InstanceIdOf(m) == "";
      assert l0.slot.round == InFlight(m, m.(finalizer := false), MClosing(MDone));
      CloseLeg(uid, l0, calls);
      return;
    }
    assert l0.slot.round == InFlight(m, m, DelGet);
    var l1 := LApply(uid, l0, calls[0]);
    assert l1.slot == Moved(l.slot, Deregister(m, m, l.slot.controlPlane, true));
    if l1.slot.round.stage.DeregGet? {
      DeregisterLeg(uid, l1, calls[1..]);
      var Leg(l2, rest) := Walk(uid, l1, calls[1..], if Registered(l1.slot.round.work, l.tg) then 2 else 1);
      CloseLeg(uid, l2, rest);
    } else {
      CloseLeg(uid, l1, calls[1..]);
    }
  }

  /** With the instance alive, one round deregisters and asks for its deletion, and keeps the
      finalizer. */
  lemma {:induction false} FirstDeleteRound(uid: Uid, l: Local, calls: seq<MReply>, tgLost: bool)
    requires LocalOk(uid, l, tgLost) && Doomed(l) && Living(l) && AllSucceed(calls, MACHINE_MAX_CALLS)
    requires l.vms[InstanceIdOf(l.slot.obj)].status != DeletingVm
    ensures var l' := LReconciled(uid, l, calls);
            var id := InstanceIdOf(l.slot.obj);
            && Doomed(l') && l'.slot.obj == l.slot.obj.(status := l'.slot.obj.status)
            && l'.slot.obj.status.addresses == l.slot.obj.status.addresses
            && l'.slot == l.slot.(obj := l'.slot.obj)
            && l'.vms == l.vms[id := l.vms[id].(status := DeletingVm)]
            && OnlyRecordedLeft(l.slot.obj, l.slot.controlPlane, l.tg, l'.tg)
            && RoundVerdict(uid, l, calls) == Some(MRequeueAfter)
  {
    var m := l.slot.obj;
    var id := InstanceIdOf(m);
    var l0 := Begun(l);
    assert l0.slot.round == InFlight(m, m, DelGet);
    var w := m.(status := m.status.(instance := Some(Reported(l.vms[id].status))));
    var l1 := LApply(uid, l0, calls[0]);
    assert l1.slot == Moved(l.slot, Deregister(m, w, l.slot.controlPlane, false));
    assert Recorded(w) == Recorded(m);
    if l1.slot.round.stage.DeregGet? {
      DeregisterLeg(uid, l1, calls[1..]);
      var Leg(l2, rest) := Walk(uid, l1, calls[1..], if Registered(l1.slot.round.work, l.tg) then 2 else 1);
      DeleteVmLeg(uid, l2, rest);
    } else {
      DeleteVmLeg(uid, l1, calls[1..]);
    }
  }

  /** With an instance that is already being deleted, one round only waits. */
  lemma {:induction false} WaitingDeleteRound(uid: Uid, l: Local, calls: seq<MReply>, tgLost: bool)
    requires LocalOk(uid, l, tgLost) && Doomed(l) && Living(l) && AllSucceed(calls, MACHINE_MAX_CALLS)
    requires l.vms[InstanceIdOf(l.slot.obj)].status == DeletingVm
    ensures var m := l.slot.obj;
            var w := m.(status := m.status.(instance := Some(Reported(DeletingVm))));
            && LReconciled(uid, l, calls) == l.(slot := l.slot.(obj := w))
            && RoundVerdict(uid, l, calls) == Some(MRequeueAfter)
  {
    var m := l.slot.obj;
    var w := m.(status := m.status.(instance := Some(Reported(DeletingVm))));
    var l1 := LApply(uid, Begun(l), calls[0]);
    assert l1 == l.(slot := Moved(l.slot, InFlight(m, w, MClosing(MRequeueAfter))));
    CloseLeg(uid, l1, calls[1..]);
  }

  lemma {:induction false} DeleteVmLeg(uid: Uid, l: Local, calls: seq<MReply>)
    requires l.slot.round.InFlight? && l.slot.round.stage.DelVm? && AllSucceed(calls, 2)
    requires l.slot.present && l.slot.obj == l.slot.round.before && InstanceIdOf(l.slot.round.work) in l.vms
    requires var b, w := l.slot.round.before, l.slot.round.work; w == b.(status := w.status) && b.finalizer
    ensures var id := InstanceIdOf(l.slot.round.work);
            LDrive(uid, l, calls) ==
            l.(slot := l.slot.(obj := l.slot.round.work, round := Rest),
               vms := l.vms[id := l.vms[id].(status := DeletingVm)])
    ensures LVerdict(uid, l, calls) == Some(MRequeueAfter)
  {
    var l1 := LApply(uid, l, calls[0]);
    assert l1.slot == Moved(l.slot, InFlight(l.slot.round.before, l.slot.round.work, MClosing(MRequeueAfter)));
    CloseLeg(uid, l1, calls[1..]);
  }

  /** What the cloud does with an accepted deletion. */
  function VmSettled(l: Local): Local {
    var id := InstanceIdOf(l.slot.obj);
    if id in l.vms && l.vms[id].status == DeletingVm then l.(vms := l.vms[id := l.vms[id].(alive := false)]) else l
  }

  /** Two undisturbed delete rounds, between which the cloud finishes what was accepted. */
  function TornDown(uid: Uid, l: Local, first: seq<MReply>, second: seq<MReply>): Local {
    var l1 := LReconciled(uid, l, first);
    if Living(l) then LReconciled(uid, VmSettled(l1), second) else l1
  }

  /** Undisturbed, the finalizer of a machine with a living instance goes in exactly the second
      round, that of any other machine in the first. The group loses the target on record and
      no other. An instance that is already being deleted costs a round of waiting. */
  lemma {:induction false} MachineTeardownTakesExactly(
      uid: Uid, l: Local, first: seq<MReply>, second: seq<MReply>, tgLost: bool)
    requires LocalOk(uid, l, tgLost) && Doomed(l)
    requires AllSucceed(first, MACHINE_MAX_CALLS) && AllSucceed(second, MACHINE_MAX_CALLS)
    ensures Living(l) <==> LReconciled(uid, l, first).slot.obj.finalizer
    ensures RoundVerdict(uid, l, first) == Some(if Living(l) then MRequeueAfter else MDone)
    ensures var l' := TornDown(uid, l, first, second);
            && l'.slot == l.slot.(obj := l'.slot.obj, present := l.slot.obj.held)
            && !l'.slot.obj.finalizer && !Living(l')
            && OnlyRecordedLeft(l.slot.obj, l.slot.controlPlane, l.tg, l'.tg)
  {
    if Living(l) {
      FirstRoundOk(uid, l, first, tgLost);
      var l2 := VmSettled(LReconciled(uid, l, first));
      LastDeleteRound(uid, l2, second, tgLost);
      assert Recorded(l2.slot.obj) == Recorded(l.slot.obj);
    } else {
      LastDeleteRound(uid, l, first, tgLost);
    }
  }

  /** After the first round and what the cloud then does, the last round can follow. */
  lemma {:induction false} FirstRoundOk(uid: Uid, l: Local, first: seq<MReply>, tgLost: bool)
    requires LocalOk(uid, l, tgLost) && Doomed(l) && Living(l) && AllSucceed(first, MACHINE_MAX_CALLS)
    ensures var l1 := LReconciled(uid, l, first); var l2 := VmSettled(l1);
            && l1.slot.obj.finalizer && RoundVerdict(uid, l, first) == Some(MRequeueAfter)
            && LocalOk(uid, l2, tgLost) && Doomed(l2) && !Living(l2)
            && l2.slot == l.slot.(obj := l2.slot.obj) && l2.slot.obj == l.slot.obj.(status := l2.slot.obj.status)
            && l2.slot.obj.status.addresses == l.slot.obj.status.addresses
            && (OnlyRecordedLeft(l.slot.obj, l.slot.controlPlane, l.tg, l2.tg) || l2.tg == l.tg)
  {
    if l.vms[InstanceIdOf(l.slot.obj)].status == DeletingVm {
      WaitingDeleteRound(uid, l, first, tgLost);
    } else {
      FirstDeleteRound(uid, l, first, tgLost);
    }
    var l1 := LReconciled(uid, l, first);
    var l2 := VmSettled(l1);
    LDriveOk(uid, Begun(l), first, tgLost) by { BeginOk(uid, l.slot, l.vms, l.tg, tgLost); }
    SlotFrame(uid, l1.slot, l1.vms, l2.vms, l1.tg, l2.tg, tgLost);
  }

  lemma DeletingStepOk(uid: Uid, l: Local, r: MReply, tgLost: bool)
    requires LocalOk(uid, l, tgLost) && l.slot.round.InFlight? && l.slot.round.before.deleting
    ensures LApply(uid, l, r) == CallLocal(uid, l, r) && LocalOk(uid, CallLocal(uid, l, r), tgLost)
    ensures var next := CallLocal(uid, l, r).slot.round; next.InFlight? ==> next.before.deleting
  {
    LocalStep(uid, l, r, tgLost);
    if !l.slot.round.stage.MClosing? {
      RecordKept(uid, l, r, tgLost);
    }
  }

  /** The invariant through a deletion, in which nothing is created. */
  lemma {:induction false} LDriveOk(uid: Uid, l: Local, calls: seq<MReply>, tgLost: bool)
    requires LocalOk(uid, l, tgLost) && (l.slot.round.InFlight? ==> l.slot.round.before.deleting)
    ensures LocalOk(uid, LDrive(uid, l, calls), tgLost)
    decreases |calls|
  {
    if calls != [] {
      if l.slot.round.InFlight? {
        DeletingStepOk(uid, l, calls[0], tgLost);
      }
      LDriveOk(uid, LApply(uid, l, calls[0]), calls[1..], tgLost);
    }
  }

  // ---- running machines ----

  /** A machine that a round would reconcile forward. */
  predicate Wanted(l: Local) { l.slot.present && l.slot.round.Rest? && !l.slot.obj.deleting }

  /** The same, with its bootstrap data ready. */
  predicate Forward(l: Local) { Wanted(l) && l.slot.bootstrapped }

  /** Undisturbed, a machine whose instance runs becomes Ready in one round, and a
      control-plane machine is registered by then. */
  lemma {:induction false} RunningBecomesReady(uid: Uid, l: Local, calls: seq<MReply>, tgLost: bool)
    requires LocalOk(uid, l, tgLost) && AllSucceed(calls, MACHINE_MAX_CALLS)
    requires Forward(l)
    requires Living(l) && InstanceIdOf(l.slot.obj) != ""
    requires var vm := l.vms[InstanceIdOf(l.slot.obj)]; vm.status == Running && HasPair(vm) && vm.address != ""
    requires l.slot.controlPlane ==> l.tg.Some?
    ensures var l' := LReconciled(uid, l, calls);
            && l'.slot == l.slot.(obj := l.slot.obj.(finalizer := true, status := l'.slot.obj.status))
            && l'.slot.obj.status.ready && l'.slot.obj.status.instance == Some(Reported(Running))
            && l'.slot.obj.status.addresses == [l.vms[InstanceIdOf(l.slot.obj)].address]
            && (l.slot.controlPlane ==> Registered(l'.slot.obj, l'.tg))
            && l'.vms == l.vms
            && (PairOf(l.vms[InstanceIdOf(l.slot.obj)]) in Targets(l.tg) ==> l'.tg == l.tg)
            && RoundVerdict(uid, l, calls) == Some(MDone)
  {
    var m := l.slot.obj;
    var vm := l.vms[InstanceIdOf(m)];
    PatchLeg(uid, l, calls);
    var l1 := LApply(uid, Begun(l), calls[0]);
    var w := l1.slot.round.work;
    var l2 := LApply(uid, l1, calls[1]);
    var w2 := w.(status := w.status.(addresses := [vm.address]));
    assert |m.spec.interfaces| == 1;
    if !l.slot.controlPlane {
      assert l2 == l1.(slot := Moved(l1.slot, ConcludeRunning(m, w2)));
      CloseRunningLeg(uid, l2, w2, calls[2..]);
    } else {
      assert l2 == l1.(slot := Moved(l1.slot, InFlight(m, w2, RegGet)));
      RegisterLeg(uid, l2, calls[2..]);
      var Leg(l3, rest) := Walk(uid, l2, calls[2..], if Registered(l2.slot.round.work, l.tg) then 1 else 2);
      CloseRunningLeg(uid, l3, w2, rest);
    }
    assert calls[1..][0] == calls[1] && calls[1..][1..] == calls[2..];
  }

  /** The patch that stores the finalizer before anything is made. */
  lemma {:induction false} PatchLeg(uid: Uid, l: Local, calls: seq<MReply>)
    requires |calls| >= 1 && calls[0].outcome == Success && Forward(l)
    ensures var l', m := LApply(uid, Begun(l), calls[0]), l.slot.obj;
            && LReconciled(uid, l, calls) == LDrive(uid, l', calls[1..])
            && RoundVerdict(uid, l, calls) == LVerdict(uid, l', calls[1..])
            && l' == l.(slot := Moved(l.slot.(obj := m.(finalizer := true)),
                                      InFlight(m, m.(finalizer := true), if InstanceIdOf(m) == "" then Create
                                          else Get)))
  {
    var m := l.slot.obj;
    assert MMerge(m, m, m.(finalizer := true)) == m.(finalizer := true);
  }

  lemma {:induction false} RegisterLeg(uid: Uid, l: Local, calls: seq<MReply>)
    requires l.slot.round.InFlight? && l.slot.round.stage.RegGet? && AllSucceed(calls, 3) && l.tg.Some?
    requires Recorded(l.slot.round.work).Some?
    ensures var Leg(l', rest) := Walk(uid, l, calls, if Registered(l.slot.round.work, l.tg) then 1 else 2);
            && AllSucceed(rest, 1) && LDrive(uid, l, calls) == LDrive(uid, l', rest)
            && LVerdict(uid, l, calls) == LVerdict(uid, l', rest)
            && l' == l.(tg := l'.tg, slot := Moved(l.slot, ConcludeRunning(l.slot.round.before, l.slot.round.work)))
            && Registered(l.slot.round.work, l'.tg)
            && (Registered(l.slot.round.work, l.tg) ==> l'.tg == l.tg)
  {
    var InFlight(b, w, _) := l.slot.round;
    var l1 := LApply(uid, l, calls[0]);
    WalkUnrolled(uid, l, calls);
    if Registered(w, l.tg) {
      assert l1 == l.(slot := Moved(l.slot, ConcludeRunning(b, w)));
    } else {
      assert l1 == l.(slot := Moved(l.slot, InFlight(b, w, RegAdd(l.tg.value.id))));
      assert Targets(LApply(uid, l1, calls[1]).tg)[|Targets(l.tg)|] == Recorded(w).value;
    }
  }

  /** The final patch of a forward round, when nobody else touched the object. */
  lemma {:induction false} CloseForwardLeg(uid: Uid, l: Local, calls: seq<MReply>)
    requires l.slot.present && l.slot.round.InFlight? && l.slot.round.stage.MClosing?
    requires |calls| >= 1 && calls[0].outcome == Success
    requires var b, w := l.slot.round.before, l.slot.round.work;
             && l.slot.obj == b.(finalizer := true) && !b.deleting
             && w == b.(finalizer := true, spec := w.spec, status := w.status)
             && w.spec == b.spec.(providerId := w.spec.providerId)
    ensures LDrive(uid, l, calls) == l.(slot := l.slot.(obj := l.slot.round.work, round := Rest))
    ensures LVerdict(uid, l, calls) == Some(l.slot.round.stage.verdict)
  {
    var b, w := l.slot.round.before, l.slot.round.work;
    assert MMerge(l.slot.obj, b, w) == w;
    var l1 := LApply(uid, l, calls[0]);
    assert l1 == l.(slot := l.slot.(obj := w, round := Rest));
    RestDrives(uid, l1, calls[1..]);
  }

  lemma {:induction false} CloseRunningLeg(uid: Uid, l: Local, w: Machine, calls: seq<MReply>)
    requires AllSucceed(calls, 1) && l.slot.present && l.slot.round.InFlight?
    requires var b := l.slot.round.before;
             && l.slot.round == ConcludeRunning(b, w)
             && l.slot.obj == b.(finalizer := true) && !b.deleting
             && w == b.(finalizer := true, status := w.status)
    ensures LDrive(uid, l, calls) ==
            l.(slot := l.slot.(obj := l.slot.round.work, round := Rest))
    ensures LVerdict(uid, l, calls) == Some(MDone)
  {
    CloseForwardLeg(uid, l, calls);
  }

  /** The object with what a round on a running instance always writes. */
  function Refreshed(m: Machine): Machine {
    m.(status := m.status.(running := True, instance := Some(Reported(Running))))
  }

  /** A round on a Ready machine whose instance runs refreshes its status, and nothing else. */
  lemma {:induction false} RunningRound(uid: Uid, l: Local, calls: seq<MReply>, tgLost: bool)
    requires LocalOk(uid, l, tgLost) && Forward(l) && Living(l) && AllSucceed(calls, MACHINE_MAX_CALLS)
    requires l.slot.obj.status.ready && l.vms[InstanceIdOf(l.slot.obj)].status == Running
    requires l.slot.controlPlane ==> !tgLost
    ensures LReconciled(uid, l, calls) == l.(slot := l.slot.(obj := Refreshed(l.slot.obj)))
    ensures RoundVerdict(uid, l, calls) == Some(MDone)
  {
    var m := l.slot.obj;
    assert m.(finalizer := true) == m;
    PatchLeg(uid, l, calls);
    var l1 := LApply(uid, Begun(l), calls[0]);
    var l2 := LApply(uid, l1, calls[1]);
    assert m.(status := m.status.(addresses := m.status.addresses)) == m;
    assert |m.spec.interfaces| == 1 && HasPair(l.vms[InstanceIdOf(m)]);
    assert ConcludeRunning(m, m) == InFlight(m, Refreshed(m), MClosing(MDone));
    if !l.slot.controlPlane {
      assert l2 == l1.(slot := Moved(l1.slot, ConcludeRunning(m, m)));
      CloseRunningLeg(uid, l2, m, calls[2..]);
    } else {
      assert l2 == l1.(slot := Moved(l1.slot, InFlight(m, m, RegGet)));
      RegisterLeg(uid, l2, calls[2..]);
      var Leg(l3, rest) := Walk(uid, l2, calls[2..], 1);
      CloseRunningLeg(uid, l3, m, rest);
    }
    assert calls[1..][0] == calls[1] && calls[1..][1..] == calls[2..];
  }

  /** After any run, a round on a Ready machine whose instance runs changes neither instances nor
      target group nor anything of the object but the two reports of the instance's state, and
      nothing at all if and only if these already say that it runs. For a control-plane machine
      this needs that the group was kept. */
  lemma {:induction false} RunningIsAFixedPoint(acts: seq<FleetAction>, uid: Uid, calls: seq<MReply>)
    requires AssumedAlways(NO_FLEET, acts) && uid in FleetRun(NO_FLEET, acts).slots
    requires var f := FleetRun(NO_FLEET, acts); var l := View(f, uid);
             && Forward(l) && Living(l)
             && l.slot.obj.status.ready && l.vms[InstanceIdOf(l.slot.obj)].status == Running
             && (l.slot.controlPlane ==> !f.tgLost)
    requires AllSucceed(calls, MACHINE_MAX_CALLS)
    ensures var l := View(FleetRun(NO_FLEET, acts), uid); var st := l.slot.obj.status;
            && LReconciled(uid, l, calls) == l.(slot := l.slot.(obj := Refreshed(l.slot.obj)))
            && (LReconciled(uid, l, calls) == l <==> st.running == True && st.instance == Some(Reported(Running)))
            && RoundVerdict(uid, l, calls) == Some(MDone)
  {
    var f := FleetRun(NO_FLEET, acts);
    FleetRunInv(NO_FLEET, acts);
    assert SlotOk(uid, f.slots[uid], f.vms, f.tg, f.tgLost);
    RunningRound(uid, View(f, uid), calls, f.tgLost);
  }

  // ---- new machines ----

  /** Undisturbed, the round of a machine without an instance makes one with the requested
      interfaces and stores its id. */
  lemma {:induction false} CreatingRound(uid: Uid, l: Local, calls: seq<MReply>, tgLost: bool)
    requires LocalOk(uid, l, tgLost) && Forward(l) && l.slot.obj.spec.providerId.None?
             && AllSucceed(calls, MACHINE_MAX_CALLS)
    requires calls[1].id != "" && calls[1].id !in l.vms
    ensures var l' := LReconciled(uid, l, calls);
            && LocalOk(uid, l', tgLost)
            && l'.vms == l.vms[calls[1].id := NewVm(uid, l.slot.obj, calls[1].address)] && l'.tg == l.tg
            && l'.slot == l.slot.(obj := l'.slot.obj)
            && l'.slot.obj == WithInstance(l.slot.obj, calls[1].id).(finalizer := true,
                   status := l.slot.obj.status.(instance := Some(Reported(Provisioning))))
            && RoundVerdict(uid, l, calls) == Some(MRequeueAfter)
  {
    var id := calls[1].id;
    PatchLeg(uid, l, calls);
    var l1 := LApply(uid, Begun(l), calls[0]);
    PatchLegOk(uid, l, calls, tgLost);
    var w := l1.slot.round.work;
    ProviderIdRoundTrip(w, id);
    var l2 := LApply(uid, l1, calls[1]);
    LocalStep(uid, l1, calls[1], tgLost);
    assert l2.slot == l1.slot.(round := InFlight(l.slot.obj, WithInstance(w, id), Get));
    ProvisioningLeg(uid, l2, calls[2..], tgLost);
    assert calls[1..][0] == calls[1] && calls[1..][1..] == calls[2..];
    assert LDrive(uid, l1, calls[1..]) == LDrive(uid, l2, calls[2..]);
  }

  lemma {:induction false} PatchLegOk(uid: Uid, l: Local, calls: seq<MReply>, tgLost: bool)
    requires LocalOk(uid, l, tgLost) && Forward(l) && AllSucceed(calls, 1)
    ensures LocalOk(uid, LApply(uid, Begun(l), calls[0]), tgLost)
  {
    BeginOk(uid, l.slot, l.vms, l.tg, tgLost);
    LocalStep(uid, Begun(l), calls[0], tgLost);
  }

  lemma {:induction false} ProvisioningLeg(uid: Uid, l: Local, calls: seq<MReply>, tgLost: bool)
    requires LocalOk(uid, l, tgLost) && At_(l, Get) && AllSucceed(calls, 2) && l.slot.present && !l.slot.obj.deleting
    requires var InFlight(b, w, _) := l.slot.round;
             && l.slot.obj == b.(finalizer := true) && w == b.(finalizer := true, spec := w.spec)
             && InstanceIdOf(w) in l.vms && l.vms[InstanceIdOf(w)].alive
             && l.vms[InstanceIdOf(w)].status == Provisioning
    ensures var l' := LDrive(uid, l, calls); var w := l.slot.round.work;
            && LocalOk(uid, l', tgLost)
            && l' == l.(slot := l.slot.(round := Rest,
                   obj := w.(status := w.status.(instance := Some(Reported(Provisioning))))))
            && LVerdict(uid, l, calls) == Some(MRequeueAfter)
  {
    var InFlight(b, w, _) := l.slot.round;
    var w1 := w.(status := w.status.(instance := Some(Reported(Provisioning))));
    var l1 := LApply(uid, l, calls[0]);
    LocalStep(uid, l, calls[0], tgLost);
    assert l1 == l.(slot := Moved(l.slot, InFlight(b, w1, MClosing(MRequeueAfter))));
    CloseForwardLeg(uid, l1, calls[1..]);
    LocalStep(uid, l1, calls[1], tgLost);
    WalkUnrolled(uid, l, calls);
    RestDrives(uid, LApply(uid, l1, calls[1]), calls[2..]);
  }

  /** What the cloud does with a new instance. */
  function Booted(l: Local): Local {
    var id := InstanceIdOf(l.slot.obj);
    if id in l.vms && l.vms[id].status == Provisioning then l.(vms := l.vms[id := l.vms[id].(status := Running)]) else l
  }

  /** After the round that makes the instance, and its boot. */
  lemma {:induction false} CreatedAndBooted(uid: Uid, l: Local, calls: seq<MReply>, tgLost: bool)
    requires LocalOk(uid, l, tgLost) && Forward(l) && l.slot.obj.spec.providerId.None?
             && AllSucceed(calls, MACHINE_MAX_CALLS)
    requires calls[1].id != "" && calls[1].id !in l.vms
    ensures var l1 := LReconciled(uid, l, calls);
            var l2 := Booted(l1);
            && LocalOk(uid, l2, tgLost) && InstanceIdOf(l1.slot.obj) == InstanceIdOf(l2.slot.obj) == calls[1].id
            && l2.vms == l.vms[calls[1].id := NewVm(uid, l.slot.obj, calls[1].address).(status := Running)]
            && l2.tg == l.tg && l2.slot == l1.slot == l.slot.(obj := l2.slot.obj)
            && var status := l.slot.obj.status.(instance := Some(Reported(Provisioning)));
            && l2.slot.obj == WithInstance(l.slot.obj, calls[1].id).(finalizer := true, status := status)
            && RoundVerdict(uid, l, calls) == Some(MRequeueAfter)
  {
    CreatingRound(uid, l, calls, tgLost);
    var l1 := LReconciled(uid, l, calls);
    ProviderIdRoundTrip(l.slot.obj, calls[1].id);
    assert InstanceIdOf(l1.slot.obj) == calls[1].id;
    var l2 := Booted(l1);
    SlotFrame(uid, l1.slot, l1.vms, l2.vms, l1.tg, l2.tg, tgLost);
  }

  /** From no instance to Ready in two undisturbed rounds, with exactly one instance made, and
      a control-plane machine in the target group. */
  lemma {:induction false} NewMachineBecomesReady(uid: Uid, l: Local, first: seq<MReply>, second: seq<MReply>,
      tgLost: bool)
    requires LocalOk(uid, l, tgLost) && Forward(l) && l.slot.obj.spec.providerId.None?
             && |l.slot.obj.spec.interfaces| == 1
    requires AllSucceed(first, MACHINE_MAX_CALLS) && AllSucceed(second, MACHINE_MAX_CALLS)
    requires first[1].id != "" && first[1].id !in l.vms && first[1].address != ""
    requires l.slot.controlPlane ==> l.tg.Some?
    ensures var l1 := LReconciled(uid, l, first);
            && InstanceIdOf(l1.slot.obj) == first[1].id && l1.slot.obj.status.ready == l.slot.obj.status.ready
            && RoundVerdict(uid, l, first) == Some(MRequeueAfter)
    ensures var l2 := LReconciled(uid, Booted(LReconciled(uid, l, first)), second);
            && l2.slot.round.Rest? && l2.slot.obj.status.ready && l2.slot.obj.finalizer
            && l2.slot.obj.status.addresses == [first[1].address]
            && (l.slot.controlPlane ==> Registered(l2.slot.obj, l2.tg))
            && |Owned(l2.vms, uid)| == |Owned(l.vms, uid)| + 1
            && RoundVerdict(uid, Booted(LReconciled(uid, l, first)), second) == Some(MDone)
  {
    CreatedAndBooted(uid, l, first, tgLost);
    var l2 := Booted(LReconciled(uid, l, first));
    RunningBecomesReady(uid, l2, second, tgLost);
    assert Owned(l2.vms, uid) == Owned(l.vms, uid) + {first[1].id};
  }

  // ---- when an instance is made ----

  predicate MayCreate(r: MRound) { r.InFlight? && (r.stage.Patch? || r.stage.Create?) }

  lemma {:induction false} LateCallsMakeNothing(uid: Uid, l: Local, calls: seq<MReply>)
    requires !MayCreate(l.slot.round)
    ensures Owned(LDrive(uid, l, calls).vms, uid) == Owned(l.vms, uid)
    decreases |calls|
  {
    if calls != [] {
      if l.slot.round.InFlight? {
        CallMovesRound(uid, l, calls[0]);
        VmsReach(uid, l, calls[0]);
      }
      var l1 := LApply(uid, l, calls[0]);
      assert Owned(l1.vms, uid) == Owned(l.vms, uid);
      LateCallsMakeNothing(uid, l1, calls[1..]);
    }
  }

  /** Whatever the calls of a round answer, it makes an instance if and only if the bootstrap data
      is ready, no provider id is stored, the finalizer could be stored, and the create takes
      effect. */
  lemma {:induction false} CreatesWhenUnknown(uid: Uid, l: Local, calls: seq<MReply>, tgLost: bool)
    requires LocalOk(uid, l, tgLost) && Wanted(l) && |calls| >= 2
    requires calls[1].outcome.Effective() ==> calls[1].id != "" && calls[1].id !in l.vms
    ensures |Owned(LReconciled(uid, l, calls).vms, uid)| == |Owned(l.vms, uid)| +
            if l.slot.bootstrapped && l.slot.obj.spec.providerId.None? && calls[0].outcome == Success
                && calls[1].outcome.Effective() then 1 else 0
  {
    var m := l.slot.obj;
    var l0 := Begun(l);
    var l1 := LApply(uid, l0, calls[0]);
    var l2 := LApply(uid, l1, calls[1]);
    WalkUnrolled(uid, l0, calls);
    CallMovesRound(uid, l0, calls[0]);
    assert l1.vms == l.vms && (m.spec.providerId.None? <==> InstanceIdOf(m) == "");
    if l1.slot.round.stage.Create? {
      CallMovesRound(uid, l1, calls[1]);
      if calls[1].outcome.Effective() {
        assert Owned(l2.vms, uid) == Owned(l.vms, uid) + {calls[1].id};
      }
      LateCallsMakeNothing(uid, l2, calls[2..]);
    } else {
      LateCallsMakeNothing(uid, l1, calls[1..]);
    }
  }
}
