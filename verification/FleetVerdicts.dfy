/** What machine rounds answer and record: every verdict means something, every failure has a
    cause, and what a round finds is what it writes down. */
module FleetVerdicts {
  import opened Basics
  import opened AlbCloud
  import opened FleetProtocol
  import opened FleetSafety
  import opened FleetTheorems
  import opened FleetRounds

  // ---- nothing happens before the bootstrap data is ready ----

  /** No instance was ever made, and no round in flight is on its way to make one. */
  predicate Untouched(uid: Uid, slot: Slot, vms: map<Id, Vm>) {
    && Owned(vms, uid) == {}
    && (slot.round.InFlight? ==> slot.round.stage != Patch(true) && !slot.round.stage.Create?)
  }

  lemma CallKeepsBootstrapped(uid: Uid, l: Local, r: MReply)
    requires l.slot.round.InFlight?
    ensures CallLocal(uid, l, r).slot.bootstrapped == l.slot.bootstrapped
  {
    if !l.slot.round.stage.MClosing? && !l.slot.round.stage.Patch? {
      SlotReach(uid, l, r);
    }
  }

  lemma UntouchedCall(uid: Uid, l: Local, r: MReply)
    requires l.slot.round.InFlight? && Untouched(uid, l.slot, l.vms)
    ensures Owned(CallLocal(uid, l, r).vms, uid) == {}
    ensures Untouched(uid, CallLocal(uid, l, r).slot, CallLocal(uid, l, r).vms)
  {
    VmsReach(uid, l, r);
    assert Owned(CallLocal(uid, l, r).vms, uid) == Owned(l.vms, uid);
    CallMovesRound(uid, l, r);
    CallLowersMRank(uid, l, r);
  }

  lemma OthersMakeNothing(uid: Uid, l: Local, r: MReply, other: Uid)
    requires l.slot.round.InFlight? && other != uid && Owned(l.vms, other) == {}
    ensures Owned(CallLocal(uid, l, r).vms, other) == {}
  {
    VmsReach(uid, l, r);
  }

  lemma UntouchedStep(f: Fleet, a: FleetAction, uid: Uid)
    requires uid in f.slots && !FleetApply(f, a).slots[uid].bootstrapped
    requires !f.slots[uid].bootstrapped ==> Untouched(uid, f.slots[uid], f.vms)
    ensures Untouched(uid, FleetApply(f, a).slots[uid], FleetApply(f, a).vms)
  {
    if a.MCall? {
      if Possible(f, a.uid, a.reply) {
        var l := Local(f.slots[a.uid], f.vms, f.tg);
        if a.uid == uid {
          CallKeepsBootstrapped(uid, l, a.reply);
          UntouchedCall(uid, l, a.reply);
        } else {
          OthersMakeNothing(a.uid, l, a.reply, uid);
        }
      }
    } else {
      OtherStepsMakeNothing(f, a, uid);
    }
  }

  lemma OtherStepsMakeNothing(f: Fleet, a: FleetAction, uid: Uid)
    requires uid in f.slots && !a.MCall? && !FleetApply(f, a).slots[uid].bootstrapped
    requires !f.slots[uid].bootstrapped ==> Untouched(uid, f.slots[uid], f.vms)
    ensures Untouched(uid, FleetApply(f, a).slots[uid], FleetApply(f, a).vms)
  {
    assert SameInstances(f.vms, FleetApply(f, a).vms);
  }

  lemma NewbornIsUntouched(f: Fleet, a: FleetAction, uid: Uid)
    requires uid !in f.slots && uid in FleetApply(f, a).slots && Owned(f.vms, uid) == {}
    ensures Untouched(uid, FleetApply(f, a).slots[uid], FleetApply(f, a).vms)
  {
  }

  lemma {:induction false} UntouchedRun(acts: seq<FleetAction>, uid: Uid)
    requires AssumedAlways(NO_FLEET, acts)
    requires uid in FleetRun(NO_FLEET, acts).slots && !FleetRun(NO_FLEET, acts).slots[uid].bootstrapped
    ensures Untouched(uid, FleetRun(NO_FLEET, acts).slots[uid], FleetRun(NO_FLEET, acts).vms)
  {
    if acts != [] {
      var prefix := acts[..|acts| - 1];
      var f := FleetRun(NO_FLEET, prefix);
      Reached(prefix);
      if uid in f.slots && !f.slots[uid].bootstrapped {
        UntouchedRun(prefix, uid);
      }
      if uid in f.slots {
        UntouchedStep(f, acts[|acts| - 1], uid);
      } else {
        assert Owned(f.vms, uid) == {};
        NewbornIsUntouched(f, acts[|acts| - 1], uid);
      }
    }
  }

  /** In every run, a machine whose bootstrap data was never ready has no instance, never had or
      lost one, and knows none. */
  lemma {:induction false} NothingBeforeBootstrap(acts: seq<FleetAction>, uid: Uid)
    requires AssumedAlways(NO_FLEET, acts)
    requires uid in FleetRun(NO_FLEET, acts).slots && !FleetRun(NO_FLEET, acts).slots[uid].bootstrapped
    ensures var f := FleetRun(NO_FLEET, acts);
            Owned(f.vms, uid) == {} && InstanceLosses(acts, uid) == 0 && Known(f.slots[uid]).None?
  {
    UntouchedRun(acts, uid);
    InstancesAreKnownOrLost(acts, uid);
  }

  // ---- what a verdict means ----

  /** The copy has the status of the instance that the round looked at, and is else as it was read. */
  predicate Observed(b: Machine, w: Machine) {
    w.status.instance.Some? && w.status.instance.value.Reported?
        && w == b.(status := b.status.(instance := w.status.instance))
  }

  predicate DeleteTold(b: Machine, w: Machine, stage: MStage) {
    match stage
    case DelGet => w == b
    case DeregGet(gone) => if gone then w == b else Observed(b, w)
    case DeregRemove(_, gone) => if gone then w == b else Observed(b, w)
    case DelVm => Observed(b, w)
    case MClosing(MDone) => w == b.(finalizer := false)
    case MClosing(MRequeueAfter) => Observed(b, w)
    case MClosing(MFailed) => w == b || Observed(b, w)
    case MClosing(MPanicked) => true
    case _ => false
  }

  /** A round comes back later for an instance that is missing, or in another state than Running;
      the machine has failed unless the instance is on its way. */
  predicate WaitTold(b: MachineStatus, w: MachineStatus) {
    && w.instance.Some?
    && match w.instance.value
       case Deleted =>
         w == b.(instance := w.instance, failed := true, notFound := True, provisioning := False, running := False)
       case Reported(st) =>
         && st != Running
         && w == b.(instance := w.instance, failed := b.failed || (st != StartingVm && st != Provisioning))
  }

  /** Ready, with its address and a running instance. */
  predicate RunningTold(b: MachineStatus, w: MachineStatus) {
    && w.addresses != []
    && w == b.(addresses := w.addresses, running := True, instance := Some(Reported(Running)), ready := true)
  }

  predicate ForwardTold(b: Machine, w: Machine, stage: MStage) {
    && w == b.(finalizer := true, spec := w.spec, status := w.status)
    && match stage
       case Patch(_) => w == b.(finalizer := true)
       case Create => w == b.(finalizer := true)
       case Get => w.status == b.status
       case RegGet => w.status == b.status.(addresses := w.status.addresses) && w.status.addresses != []
       case RegAdd(_) => w.status == b.status.(addresses := w.status.addresses) && w.status.addresses != []
       case MClosing(MDone) => w == b.(finalizer := true) || RunningTold(b.status, w.status)
       case MClosing(MRequeueAfter) => WaitTold(b.status, w.status)
       case MClosing(MFailed) =>
         w.status == b.status.(addresses := w.status.addresses, running := w.status.running,
             provisioning := w.status.provisioning)
       case MClosing(MPanicked) => true
       case _ => false
  }

  predicate Told(round: MRound) {
    round.InFlight? ==>
      if round.before.deleting then DeleteTold(round.before, round.work, round.stage)
      else ForwardTold(round.before, round.work, round.stage)
  }

  lemma ToldOfRunning(b: Machine, w: Machine)
    requires !b.deleting && ForwardTold(b, w, RegGet)
    ensures Told(ConcludeRunning(b, w))
  {
  }

  lemma ToldOfInstance(b: Machine, w: Machine, cp: bool, found: Lookup)
    requires !b.deleting && ForwardTold(b, w, Get)
    ensures Told(AfterGet(b, w, cp, found))
  {
    if found.Found? && found.vm.status == Running && |found.vm.subnets| == 1 && found.vm.address != "" {
      ToldOfRunning(b, w.(status := w.status.(addresses := [found.vm.address])));
    }
  }

  lemma ToldOfCreate(uid: Uid, l: Local, r: MReply)
    requires At_(l, Create) && !l.slot.round.before.deleting && Told(l.slot.round)
    ensures Told(CallLocal(uid, l, r).slot.round)
  {
  }

  lemma ToldByForwardCall(uid: Uid, l: Local, r: MReply)
    requires l.slot.round.InFlight? && !l.slot.round.before.deleting && Told(l.slot.round)
    ensures Told(CallLocal(uid, l, r).slot.round)
  {
    var InFlight(b, w, stage) := l.slot.round;
    CallMovesRound(uid, l, r);
    match stage
    case Create => ToldOfCreate(uid, l, r);
    case Get => ToldOfInstance(b, w, l.slot.controlPlane, LookUp(r.outcome, l.vms, InstanceIdOf(w)));
    case RegGet => ToldOfRunning(b, w);
    case RegAdd(_) => ToldOfRunning(b, w);
    case _ =>
  }

  lemma ToldOfDeregistration(b: Machine, w: Machine, cp: bool, gone: bool)
    requires b.deleting && if gone then w == b else Observed(b, w)
    ensures Told(Deregister(b, w, cp, gone)) && Told(Deregistered(b, w, gone))
  {
  }

  lemma ToldByDeleteCall(uid: Uid, l: Local, r: MReply)
    requires l.slot.round.InFlight? && l.slot.round.before.deleting && Told(l.slot.round)
    ensures Told(CallLocal(uid, l, r).slot.round)
  {
    var InFlight(b, w, stage) := l.slot.round;
    CallMovesRound(uid, l, r);
    match stage
    case DelGet => ToldOfDelete(b, l.slot.controlPlane, LookUp(r.outcome, l.vms, InstanceIdOf(w)));
    case DeregGet(gone) => ToldOfDeregistration(b, w, l.slot.controlPlane, gone);
    case DeregRemove(_, gone) => ToldOfDeregistration(b, w, l.slot.controlPlane, gone);
    case _ =>
  }

  lemma ToldOfDelete(b: Machine, cp: bool, found: Lookup)
    requires b.deleting
    ensures Told(AfterDelGet(b, b, cp, found))
  {
    if found.Missing? {
      ToldOfDeregistration(b, b, cp, true);
    } else if found.Found? {
      ToldOfDeregistration(b, b.(status := b.status.(instance := Some(Reported(found.vm.status)))), cp, false);
    }
  }

  lemma {:induction false} ToldRun(acts: seq<FleetAction>, uid: Uid)
    requires uid in FleetRun(NO_FLEET, acts).slots
    ensures Told(FleetRun(NO_FLEET, acts).slots[uid].round)
  {
    if acts != [] {
      var f, a := FleetRun(NO_FLEET, acts[..|acts| - 1]), acts[|acts| - 1];
      if uid in f.slots {
        ToldRun(acts[..|acts| - 1], uid);
        if a.MCall? && a.uid == uid && Possible(f, uid, a.reply) {
          if f.slots[uid].round.before.deleting {
            ToldByDeleteCall(uid, Local(f.slots[uid], f.vms, f.tg), a.reply);
          } else {
            ToldByForwardCall(uid, Local(f.slots[uid], f.vms, f.tg), a.reply);
          }
        }
      }
    }
  }

  /** In every run the verdict of a round says what its last patch is going to store. A delete
      round is done exactly when it drops the finalizer, and comes back when it only looked at a
      known instance. A forward round is done with a Ready machine, or before the bootstrap data
      is there, and comes back for any other state of the instance. */
  lemma {:induction false} VerdictsSayWhatIsStored(acts: seq<FleetAction>, uid: Uid)
    requires AssumedAlways(NO_FLEET, acts) && uid in FleetRun(NO_FLEET, acts).slots
    requires var r := FleetRun(NO_FLEET, acts).slots[uid].round; r.InFlight? && r.stage.MClosing?
    ensures var InFlight(b, w, MClosing(v)) := FleetRun(NO_FLEET, acts).slots[uid].round;
            && v != MPanicked
            && (b.deleting ==>
                  && (v == MDone ==> w == b.(finalizer := false) && InstanceGone(w, FleetRun(NO_FLEET, acts).vms))
                  && (v == MRequeueAfter ==> Observed(b, w))
                  && (v == MFailed ==> w == b || Observed(b, w)))
            && (!b.deleting ==>
                  && w == b.(finalizer := true, spec := w.spec, status := w.status)
                  && (v == MDone ==> w == b.(finalizer := true) || RunningTold(b.status, w.status))
                  && (v == MRequeueAfter ==> WaitTold(b.status, w.status))
                  && (v == MFailed ==> w.status.ready == b.status.ready && w.status.instance == b.status.instance
                                       && w.status.failed == b.status.failed))
  {
    ToldRun(acts, uid);
    Reached(acts);
    var f := FleetRun(NO_FLEET, acts);
    assert SlotOk(uid, f.slots[uid], f.vms, f.tg, f.tgLost);
  }

  // ---- why a round fails ----

  /** The call fails, or its answer is one that the round cannot go on with. */
  predicate CannotGoOn(l: Local, r: MReply)
    requires l.slot.round.InFlight?
  {
    var InFlight(b, w, stage) := l.slot.round;
    var id := InstanceIdOf(w);
    || r.outcome != Success
    || (stage.Patch? && !Accepts(l.slot, b, w))
    || (stage.Get? && id in l.vms && l.vms[id].alive && l.vms[id].status == Running
        && !(HasPair(l.vms[id]) && l.vms[id].address != ""))
    || (stage.RegGet? && l.tg.None?)
    || (stage.RegAdd? && !IsTg(l.tg, stage.tg))
    || (stage.DeregRemove? && !IsTg(l.tg, stage.tg))
  }

  function AfterFailure(l: Local, r: MReply): Machine
    requires l.slot.round.InFlight?
  {
    var w := l.slot.round.work;
    match l.slot.round.stage
    case Create => w.(status := w.status.(running := False))
    case Get =>
      if r.outcome == Success then w.(status := w.status.(running := False))
      else w.(status := w.status.(running := Unknown, provisioning := Unknown))
    case _ => w
  }

  /** In every run a call makes its round fail if and only if it fails itself, the first patch is
      refused, the running instance has no single address, or the group is missing for a
      registration or has been replaced. A failed create, lookup or running instance without an
      address is recorded in the conditions; every other failure leaves the copy alone. */
  lemma {:induction false} FailureHasACause(acts: seq<FleetAction>, uid: Uid, r: MReply)
    requires AssumedAlways(NO_FLEET, acts) && Possible(FleetRun(NO_FLEET, acts), uid, r)
    requires !FleetRun(NO_FLEET, acts).slots[uid].round.stage.MClosing?
    ensures var f := FleetRun(NO_FLEET, acts);
            var next := FleetApply(f, MCall(uid, r)).slots[uid].round;
            && next.InFlight? && (next.stage == MClosing(MFailed) <==> CannotGoOn(View(f, uid), r))
            && (CannotGoOn(View(f, uid), r) ==> next.work == AfterFailure(View(f, uid), r))
  {
    Reached(acts);
    var f := FleetRun(NO_FLEET, acts);
    assert SlotOk(uid, f.slots[uid], f.vms, f.tg, f.tgLost);
    FailureOfCall(uid, View(f, uid), r, f.tgLost);
  }

  lemma FailureOfLookup(b: Machine, w: Machine, cp: bool, found: Lookup)
    requires cp && found.Found? && |found.vm.subnets| == 1 ==> w.spec.interfaces != []
    ensures AfterGet(b, w, cp, found).stage == MClosing(MFailed) <==>
            || found.LookupError?
            || (found.Found? && found.vm.status == Running && !(HasPair(found.vm) && found.vm.address != ""))
    ensures AfterGet(b, w, cp, found).stage == MClosing(MFailed) ==>
              AfterGet(b, w, cp, found).work ==
              w.(status := if found.Found? then w.status.(running := False)
                           else w.status.(running := Unknown, provisioning := Unknown))
  {
  }

  lemma FailureOfDeletion(b: Machine, w: Machine, cp: bool, found: Lookup, gone: bool)
    requires w.status.addresses != [] ==> w.spec.interfaces != []
    ensures AfterDelGet(b, w, cp, found).stage == MClosing(MFailed) <==> found.LookupError?
    ensures Deregistered(b, w, gone).stage != MClosing(MFailed)
  {
  }

  lemma FailureOfCall(uid: Uid, l: Local, r: MReply, tgLost: bool)
    requires LocalOk(uid, l, tgLost) && l.slot.round.InFlight? && !l.slot.round.stage.MClosing?
    ensures var next := CallLocal(uid, l, r).slot.round;
            && next.InFlight? && (next.stage == MClosing(MFailed) <==> CannotGoOn(l, r))
            && (CannotGoOn(l, r) ==> next.work == AfterFailure(l, r))
  {
    var InFlight(b, w, stage) := l.slot.round;
    CallMovesRound(uid, l, r);
    match stage
    case Create => FailureOfCreate(uid, l, r);
    case Get => FailureOfLookup(b, w, l.slot.controlPlane, LookUp(r.outcome, l.vms, InstanceIdOf(w)));
    case DelGet =>
      FailureOfDeletion(b, w, l.slot.controlPlane, LookUp(r.outcome, l.vms, InstanceIdOf(w)), false);
    case DeregGet(gone) => FailureOfDeletion(b, w, true, Missing, gone);
    case DeregRemove(_, gone) => FailureOfDeletion(b, w, true, Missing, gone);
    case _ =>
  }

  lemma FailureOfCreate(uid: Uid, l: Local, r: MReply)
    requires At_(l, Create)
    ensures var next := CallLocal(uid, l, r).slot.round;
            && next.InFlight? && (next.stage == MClosing(MFailed) <==> r.outcome != Success)
            && (r.outcome != Success ==> next.work == AfterFailure(l, r))
  {
  }

  // ---- what a forward round writes down ----

  /** The answers of a round that only looks: all but the lookup succeed. */
  predicate OnlyLookupMayFail(calls: seq<MReply>) {
    |calls| >= 3 && calls[0].outcome == Success && calls[2].outcome == Success
  }

  predicate Usable(v: Vm) { v.status == Running && HasPair(v) && v.address != "" }

  /** A round on a machine that knows an instance and cannot become Ready now changes nothing in
      the cloud, and stores what it found: the cloud's own status, that the instance is missing,
      that it has no single address, or that it could not be looked up. Only a status that leads
      to Running leaves the machine without a failure. */
  lemma {:induction false} ForwardRoundReports(uid: Uid, l: Local, calls: seq<MReply>, tgLost: bool)
    requires LocalOk(uid, l, tgLost) && Forward(l) && l.slot.obj.spec.providerId.Some? && OnlyLookupMayFail(calls)
    requires calls[1].outcome == Success && Living(l) ==> !Usable(l.vms[InstanceIdOf(l.slot.obj)])
    ensures var l' := LReconciled(uid, l, calls);
            var m, st, vm := l.slot.obj, l.slot.obj.status, l.vms[InstanceIdOf(l.slot.obj)];
            && l' == l.(slot := l.slot.(obj := m.(finalizer := true, status := l'.slot.obj.status)))
            && (calls[1].outcome != Success ==>
                  && l'.slot.obj.status == st.(provisioning := Unknown, running := Unknown)
                  && RoundVerdict(uid, l, calls) == Some(MFailed))
            && (calls[1].outcome == Success && !vm.alive ==>
                  && l'.slot.obj.status == st.(instance := Some(Deleted), failed := true, notFound := True,
                                               provisioning := False, running := False)
                  && RoundVerdict(uid, l, calls) == Some(MRequeueAfter))
            && (calls[1].outcome == Success && vm.alive && vm.status != Running ==>
                  && l'.slot.obj.status == st.(instance := Some(Reported(vm.status)),
                                               failed := st.failed || vm.status !in {StartingVm, Provisioning})
                  && RoundVerdict(uid, l, calls) == Some(MRequeueAfter))
            && (calls[1].outcome == Success && vm.alive && vm.status == Running ==>
                  && l'.slot.obj.status == st.(running := False)
                  && RoundVerdict(uid, l, calls) == Some(MFailed))
  {
    var m := l.slot.obj;
    PatchLeg(uid, l, calls);
    var l1 := LApply(uid, Begun(l), calls[0]);
    var found := LookUp(calls[1].outcome, l.vms, InstanceIdOf(m));
    var l2 := LApply(uid, l1, calls[1]);
    assert l2 == l1.(slot := Moved(l1.slot, AfterGet(m, m.(finalizer := true), l.slot.controlPlane, found)));
    assert l2.slot.round.stage.MClosing?;
    CloseForwardLeg(uid, l2, calls[2..]);
    assert calls[1..][0] == calls[1] && calls[1..][1..] == calls[2..];
  }

  /** A create that fails is recorded, and no id is: the next round tries again. */
  lemma {:induction false} FailedCreateRound(uid: Uid, l: Local, calls: seq<MReply>, tgLost: bool)
    requires LocalOk(uid, l, tgLost) && Forward(l) && l.slot.obj.spec.providerId.None?
    requires OnlyLookupMayFail(calls) && calls[1].outcome != Success
    requires calls[1].outcome.Effective() ==> calls[1].id != "" && calls[1].id !in l.vms
    ensures var l' := LReconciled(uid, l, calls); var m := l.slot.obj;
            && l'.slot.obj == m.(finalizer := true, status := m.status.(running := False))
            && l'.slot.round.Rest? && l'.tg == l.tg
            && RoundVerdict(uid, l, calls) == Some(MFailed)
  {
    var m := l.slot.obj;
    assert InstanceIdOf(m) == "";
    PatchLeg(uid, l, calls);
    var l1 := LApply(uid, Begun(l), calls[0]);
    var l2 := LApply(uid, l1, calls[1]);
    CloseForwardLeg(uid, l2, calls[2..]);
    assert calls[1..][0] == calls[1] && calls[1..][1..] == calls[2..];
  }

  /** Before the bootstrap data is ready a round stores the finalizer and nothing else. */
  lemma {:induction false} UnreadyRound(uid: Uid, l: Local, calls: seq<MReply>)
    requires Wanted(l) && !l.slot.bootstrapped && AllSucceed(calls, 2)
    ensures LReconciled(uid, l, calls) == l.(slot := l.slot.(obj := l.slot.obj.(finalizer := true)))
    ensures RoundVerdict(uid, l, calls) == Some(MDone)
  {
    var m := l.slot.obj;
    assert MMerge(m, m, m.(finalizer := true)) == m.(finalizer := true);
    var l1 := LApply(uid, Begun(l), calls[0]);
    assert l1.slot.round == InFlight(m, m.(finalizer := true), MClosing(MDone));
    CloseForwardLeg(uid, l1, calls[1..]);
  }
}
