/** What it costs when a step of the machine controller loses something, and what it would cost
    if the cloud gave away an address too early. */
module FleetLosses {
  import opened Basics
  import opened AlbCloud
  import opened FleetProtocol
  import opened FleetSafety
  import opened FleetTargets
  import opened FleetTheorems
  import opened FleetRounds

  // ---- deletion by the user ----

  function UserDeleted(l: Local): Local { l.(slot := Store(l.slot, l.slot.obj.(deleting := true))) }

  /** The user deletes the machine, and two undisturbed rounds follow. */
  function DeletedByUser(uid: Uid, l: Local, first: seq<MReply>, second: seq<MReply>): Local {
    TornDown(uid, UserDeleted(l), first, second)
  }

  // ---- lost instances ----

  /** After any run, the next undisturbed round leaves a machine with one instance and one more
      for each losing step of its past: with a second one if and only if it ever lost one. */
  lemma {:induction false} NextRoundShowsTheLosses(acts: seq<FleetAction>, uid: Uid, calls: seq<MReply>)
    requires AssumedAlways(NO_FLEET, acts) && uid in FleetRun(NO_FLEET, acts).slots
    requires var f := FleetRun(NO_FLEET, acts);
             Forward(View(f, uid)) && AllSucceed(calls, 2) && calls[1].id != "" && calls[1].id !in f.vms
    ensures |Owned(LReconciled(uid, View(FleetRun(NO_FLEET, acts), uid), calls).vms, uid)|
            == 1 + InstanceLosses(acts, uid)
  {
    var f := FleetRun(NO_FLEET, acts);
    Reached(acts);
    InstancesAreKnownOrLost(acts, uid);
    assert SlotOk(uid, f.slots[uid], f.vms, f.tg, f.tgLost);
    CreatesWhenUnknown(uid, View(f, uid), calls, f.tgLost);
  }

  /** After any run, a round that ends unstored with a new provider id, and then the deletion of
      the machine, leave no finalizer and the instance as it was: alive if and only if it was. */
  lemma {:induction false} LosingAnInstanceLeavesIt(
      acts: seq<FleetAction>, a: FleetAction, uid: Uid, first: seq<MReply>, second: seq<MReply>)
    requires AssumedAlways(NO_FLEET, acts) && EndsUnstored(FleetRun(NO_FLEET, acts), a, uid)
    requires var InFlight(b, w, _) := FleetRun(NO_FLEET, acts).slots[uid].round; w.spec.providerId != b.spec.providerId
    requires AllSucceed(first, MACHINE_MAX_CALLS) && AllSucceed(second, MACHINE_MAX_CALLS)
    ensures var f := FleetRun(NO_FLEET, acts); var id := InstanceIdOf(f.slots[uid].round.work);
            var l' := DeletedByUser(uid, View(FleetApply(f, a), uid), first, second);
            && !l'.slot.obj.finalizer
            && id in f.vms && f.vms[id].owner == uid && id in l'.vms
            && (l'.vms[id].alive <==> f.vms[id].alive)
  {
    Reached(acts);
    var f := FleetRun(NO_FLEET, acts);
    assert SlotOk(uid, f.slots[uid], f.vms, f.tg, f.tgLost);
    UnstoredIsForgotten(f, a, uid);
    ForgottenOk(uid, f.slots[uid], f.vms, f.tg, f.tgLost);
    UnknownInstancesStay(uid, View(FleetApply(f, a), uid), first, second, f.tgLost);
  }

  /** Deleting a machine that knows no instance touches none. */
  lemma {:induction false} UnknownInstancesStay(
      uid: Uid, l: Local, first: seq<MReply>, second: seq<MReply>, tgLost: bool)
    requires LocalOk(uid, l, tgLost) && l.slot.round.Rest? && Protected(l.slot) && l.slot.obj.spec.providerId.None?
    requires AllSucceed(first, MACHINE_MAX_CALLS) && AllSucceed(second, MACHINE_MAX_CALLS)
    ensures var l' := DeletedByUser(uid, l, first, second);
            !l'.slot.obj.finalizer && l'.vms == l.vms
  {
    UserDeleteOk(uid, l.slot, l.vms, l.tg, tgLost);
    LastDeleteRound(uid, UserDeleted(l), first, tgLost);
  }

  /** The same for a create that takes effect and reports failure: however its round then ends,
      deleting the machine leaves the instance alive and no finalizer. */
  lemma {:induction false} UnreportedInstanceLivesOn(
      acts: seq<FleetAction>, uid: Uid, r: MReply, close: MReply, first: seq<MReply>, second: seq<MReply>)
    requires AssumedAlways(NO_FLEET, acts)
    requires var f := FleetRun(NO_FLEET, acts);
             && Possible(f, uid, r) && Assumed(f, MCall(uid, r))
             && f.slots[uid].round.stage.Create? && r.outcome == FailedAfter
    requires AllSucceed(first, MACHINE_MAX_CALLS) && AllSucceed(second, MACHINE_MAX_CALLS)
    ensures var f1 := FleetApply(FleetRun(NO_FLEET, acts), MCall(uid, r));
            var l' := DeletedByUser(uid, View(FleetApply(f1, MCall(uid, close)), uid), first, second);
            && !l'.slot.obj.finalizer
            && r.id in l'.vms && l'.vms[r.id].owner == uid && l'.vms[r.id].alive
  {
    Reached(acts);
    var f := FleetRun(NO_FLEET, acts);
    var f1 := FleetApply(f, MCall(uid, r));
    assert SlotOk(uid, f.slots[uid], f.vms, f.tg, f.tgLost);
    LocalStep(uid, View(f, uid), r, f.tgLost);
    assert f1.slots[uid].round.stage == MClosing(MFailed);
    LocalStep(uid, View(f1, uid), close, f.tgLost);
    ClosedWithoutInstance(uid, View(f1, uid), close, f.tgLost);
    UnknownInstancesStay(uid, View(FleetApply(f1, MCall(uid, close)), uid), first, second, f.tgLost);
  }

  lemma ClosedWithoutInstance(uid: Uid, l: Local, close: MReply, tgLost: bool)
    requires LocalOk(uid, l, tgLost) && At_(l, MClosing(MFailed)) && Protected(l.slot)
    requires !l.slot.round.before.deleting && l.slot.round.work.spec.providerId.None?
    ensures var l' := CallLocal(uid, l, close);
            && l'.vms == l.vms && l'.slot.round.Rest? && Protected(l'.slot) && l'.slot.obj.spec.providerId.None?
  {
  }

  // ---- lost records ----

  /** A round ends unstored with a new address in its copy. When the machine is then deleted, its
      finalizer goes, and the target of that address stays exactly if it was registered. */
  lemma {:induction false} LostRecordStays(uid: Uid, l: Local, first: seq<MReply>, second: seq<MReply>, tgLost: bool)
    requires LocalOk(uid, l, tgLost) && l.slot.round.InFlight?
    requires l.slot.round.work.status.addresses != l.slot.round.before.status.addresses
    requires Recorded(l.slot.round.work).Some?
    requires AllSucceed(first, MACHINE_MAX_CALLS) && AllSucceed(second, MACHINE_MAX_CALLS)
    ensures var l' := DeletedByUser(uid, l.(slot := Forgotten(l.slot)), first, second);
            && !l'.slot.obj.finalizer
            && var t := Recorded(l.slot.round.work).value; t in Targets(l'.tg) <==> t in Targets(l.tg)
  {
    var dropped := l.(slot := Forgotten(l.slot));
    ForgottenOk(uid, l.slot, l.vms, l.tg, tgLost);
    UserDeleteOk(uid, dropped.slot, dropped.vms, dropped.tg, tgLost);
    var doomed := UserDeleted(dropped);
    MachineTeardownTakesExactly(uid, doomed, first, second, tgLost);
    assert Recorded(doomed.slot.obj).None?;
  }

  /** After any run, a step of any kind that loses the record of a registered target, and then
      the deletion of the machine, leave a target that no machine answers for. */
  lemma {:induction false} LosingARecordLeavesAZombie(
      acts: seq<FleetAction>, a: FleetAction, uid: Uid, first: seq<MReply>, second: seq<MReply>)
    requires AssumedAlways(NO_FLEET, acts) && LosesRecord(FleetRun(NO_FLEET, acts), a, uid)
    requires var f := FleetRun(NO_FLEET, acts); f.slots[uid].controlPlane && Registered(f.slots[uid].round.work, f.tg)
    requires AllSucceed(first, MACHINE_MAX_CALLS) && AllSucceed(second, MACHINE_MAX_CALLS)
    ensures var f := FleetRun(NO_FLEET, acts);
            var g := Put(f, uid, DeletedByUser(uid, View(FleetApply(f, a), uid), first, second));
            && !g.slots[uid].obj.finalizer
            && Recorded(f.slots[uid].round.work).value in Targets(g.tg)
            && forall u <- g.slots :: !Vouches(g.slots[u], Recorded(f.slots[uid].round.work).value)
  {
    Reached(acts);
    var f := FleetRun(NO_FLEET, acts);
    assert SlotOk(uid, f.slots[uid], f.vms, f.tg, f.tgLost);
    UnstoredIsForgotten(f, a, uid);
    LostRecordStays(uid, View(f, uid), first, second, f.tgLost);
    NobodyElseVouches(f, uid);
  }

  /** However a round ends unstored, its machine forgets what only the copy knew. */
  lemma UnstoredIsForgotten(f: Fleet, a: FleetAction, uid: Uid)
    requires EndsUnstored(f, a, uid)
    ensures uid in FleetApply(f, a).slots
    ensures View(FleetApply(f, a), uid) == View(f, uid).(slot := Forgotten(f.slots[uid]))
  {
  }

  lemma NobodyElseVouches(f: Fleet, uid: Uid)
    requires FleetInv(f) && uid in f.slots && f.slots[uid].controlPlane && f.slots[uid].round.InFlight?
    requires Recorded(f.slots[uid].round.work).Some?
    ensures forall u <- f.slots | u != uid :: !Vouches(f.slots[u], Recorded(f.slots[uid].round.work).value)
  {
    var t := Recorded(f.slots[uid].round.work).value;
    assert Claims(f.slots[uid], t);
    forall u <- f.slots | u != uid ensures !Vouches(f.slots[u], t) {
      assert !Claims(f.slots[u], t);
    }
  }

  /** Deleting a machine neither leaves targets behind nor cleans up after others: a target stays
      in the group if and only if it is not the one on record, and the zombies are the same. */
  lemma {:induction false} DeletionKeepsZombies(
      acts: seq<FleetAction>, uid: Uid, first: seq<MReply>, second: seq<MReply>, t: Target)
    requires AssumedAlways(NO_FLEET, acts) && uid in FleetRun(NO_FLEET, acts).slots
    requires Protected(FleetRun(NO_FLEET, acts).slots[uid]) && FleetRun(NO_FLEET, acts).slots[uid].round.Rest?
    requires AllSucceed(first, MACHINE_MAX_CALLS) && AllSucceed(second, MACHINE_MAX_CALLS)
    ensures var f := FleetRun(NO_FLEET, acts); var slot := f.slots[uid];
            var g := Put(f, uid, DeletedByUser(uid, View(f, uid), first, second));
            && (t in Targets(g.tg) <==> t in Targets(f.tg) && !(slot.controlPlane && Recorded(slot.obj) == Some(t)))
            && (LeftBehind(g, t) <==> LeftBehind(f, t))
  {
    Reached(acts);
    var f := FleetRun(NO_FLEET, acts);
    var l := View(f, uid);
    assert SlotOk(uid, f.slots[uid], f.vms, f.tg, f.tgLost);
    UserDeleteOk(uid, l.slot, l.vms, l.tg, f.tgLost);
    MachineTeardownTakesExactly(uid, UserDeleted(l), first, second, f.tgLost);
    assert Recorded(UserDeleted(l).slot.obj) == Recorded(l.slot.obj);
    SameOthersSameZombies(f, uid, DeletedByUser(uid, l, first, second), t);
  }

  lemma SameOthersSameZombies(f: Fleet, uid: Uid, l: Local, t: Target)
    requires uid in f.slots && f.slots[uid].round.Rest? && Protected(f.slots[uid]) && !l.slot.obj.finalizer
    requires t in Targets(l.tg) <==>
             t in Targets(f.tg) && !(f.slots[uid].controlPlane && Recorded(f.slots[uid].obj) == Some(t))
    ensures LeftBehind(Put(f, uid, l), t) <==> LeftBehind(f, t)
  {
    var g := Put(f, uid, l);
    forall u <- f.slots | u != uid ensures g.slots[u] == f.slots[u] {}
    assert !Vouches(g.slots[uid], t);
    if LeftBehind(g, t) {
      forall u <- f.slots ensures !Vouches(f.slots[u], t) {
        assert u != uid ==> !Vouches(g.slots[u], t);
      }
    }
    if LeftBehind(f, t) {
      assert !Vouches(f.slots[uid], t);
    }
  }

  // ---- an address given away too early ----

  /** Two rounds make a new machine Ready when the group already holds its target, and leave the
      group alone. */
  lemma {:induction false} ReadyOnAFoundTarget(
      uid: Uid, l: Local, first: seq<MReply>, second: seq<MReply>, tgLost: bool)
    requires LocalOk(uid, l, tgLost) && NewcomerWith(uid, l, first) && AllSucceed(second, MACHINE_MAX_CALLS)
    requires PairOf(NewVm(uid, l.slot.obj, first[1].address)) in Targets(l.tg)
    ensures var l' := LReconciled(uid, Booted(LReconciled(uid, l, first)), second);
            && l'.slot == l.slot.(obj := l'.slot.obj) && l'.slot.obj.status.ready && !l'.slot.obj.deleting
            && Recorded(l'.slot.obj) == Some(PairOf(NewVm(uid, l.slot.obj, first[1].address)))
            && l'.tg == l.tg
            && l'.vms == l.vms[first[1].id := NewVm(uid, l.slot.obj, first[1].address).(status := Running)]
  {
    CreatedAndBooted(uid, l, first, tgLost);
    var l2 := Booted(LReconciled(uid, l, first));
    RunningBecomesReady(uid, l2, second, tgLost);
    assert l2.vms == l.vms[first[1].id := NewVm(uid, l.slot.obj, first[1].address).(status := Running)];
  }

  /** A control-plane machine with one interface and no instance, and the answers that make it one. */
  predicate NewcomerWith(uid: Uid, l: Local, calls: seq<MReply>) {
    && Forward(l) && l.slot.controlPlane && l.slot.obj.spec.providerId.None? && |l.slot.obj.spec.interfaces| == 1
    && AllSucceed(calls, MACHINE_MAX_CALLS)
    && calls[1].id != "" && calls[1].id !in l.vms && calls[1].address != ""
  }

  /** Why a new instance must not get an address that another machine may still act on, even
      when that machine's instance is gone. The cloud gives the pair of the machine `a` to a new
      machine `b`; two rounds make `b` Ready, with the target it finds in the group. Then `a` is
      deleted, with its finalizer or without, and its round removes the target of `b`. */
  lemma {:induction false} ReissuedAddressIsTakenAway(
      f: Fleet, a: Uid, b: Uid, first: seq<MReply>, second: seq<MReply>, last: seq<MReply>)
    requires FleetInv(f) && a in f.slots && b in f.slots && a != b
    requires var A := View(f, a);
             && A.slot.present && A.slot.round.Rest? && A.slot.controlPlane && (A.slot.obj.finalizer || A.slot.obj.held)
             && !Living(A) && Registered(A.slot.obj, f.tg)
    requires NewcomerWith(b, View(f, b), first)
    requires PairOf(NewVm(b, f.slots[b].obj, first[1].address)) == Recorded(f.slots[a].obj).value
    requires AllSucceed(second, MACHINE_MAX_CALLS) && AllSucceed(last, MACHINE_MAX_CALLS)
    ensures var g := Put(f, b, LReconciled(b, Booted(LReconciled(b, View(f, b), first)), second));
            var h := Put(g, a, LReconciled(a, UserDeleted(View(g, a)), last));
            && Registered(g.slots[b].obj, g.tg)
            && h.slots[b] == g.slots[b] && h.slots[b].obj.status.ready && !h.slots[b].obj.deleting && h.tg.Some?
            && !Registered(h.slots[b].obj, h.tg)
  {
    assert SlotOk(a, f.slots[a], f.vms, f.tg, f.tgLost) && SlotOk(b, f.slots[b], f.vms, f.tg, f.tgLost);
    NewcomerFindsTheTarget(f, a, b, first, second);
    var g := Put(f, b, LReconciled(b, Booted(LReconciled(b, View(f, b), first)), second));
    DeletionTakesTheTarget(a, View(g, a), last, f.tgLost);
  }

  lemma {:induction false} NewcomerFindsTheTarget(f: Fleet, a: Uid, b: Uid, first: seq<MReply>, second: seq<MReply>)
    requires a in f.slots && b in f.slots && a != b
    requires LocalOk(a, View(f, a), f.tgLost) && LocalOk(b, View(f, b), f.tgLost)
    requires Registered(f.slots[a].obj, f.tg) && !Living(View(f, a))
    requires NewcomerWith(b, View(f, b), first) && AllSucceed(second, MACHINE_MAX_CALLS)
    requires PairOf(NewVm(b, f.slots[b].obj, first[1].address)) == Recorded(f.slots[a].obj).value
    ensures var g := Put(f, b, LReconciled(b, Booted(LReconciled(b, View(f, b), first)), second));
            && g.tg == f.tg && LocalOk(a, View(g, a), f.tgLost) && !Living(View(g, a))
            && g.slots[b].obj.status.ready && !g.slots[b].obj.deleting
            && Recorded(g.slots[b].obj) == Recorded(f.slots[a].obj)
  {
    ReadyOnAFoundTarget(b, View(f, b), first, second, f.tgLost);
    var g := Put(f, b, LReconciled(b, Booted(LReconciled(b, View(f, b), first)), second));
    SlotFrame(a, f.slots[a], f.vms, g.vms, f.tg, g.tg, f.tgLost);
  }

  lemma {:induction false} DeletionTakesTheTarget(uid: Uid, l: Local, calls: seq<MReply>, tgLost: bool)
    requires LocalOk(uid, l, tgLost) && l.slot.present && l.slot.round.Rest? && l.slot.controlPlane
    requires (l.slot.obj.finalizer || l.slot.obj.held) && !Living(l) && Registered(l.slot.obj, l.tg)
    requires AllSucceed(calls, MACHINE_MAX_CALLS)
    ensures Recorded(l.slot.obj).value !in Targets(LReconciled(uid, UserDeleted(l), calls).tg)
    ensures LReconciled(uid, UserDeleted(l), calls).tg.Some?
  {
    UserDeleteOk(uid, l.slot, l.vms, l.tg, tgLost);
    LastDeleteRound(uid, UserDeleted(l), calls, tgLost);
    assert Recorded(UserDeleted(l).slot.obj) == Recorded(l.slot.obj);
    GroupStays(uid, Begun(UserDeleted(l)), calls);
  }

  /** No call of a machine takes the group away. */
  lemma {:induction false} GroupStays(uid: Uid, l: Local, calls: seq<MReply>)
    ensures LDrive(uid, l, calls).tg.Some? <==> l.tg.Some?
    decreases |calls|
  {
    if calls != [] {
      GroupStays(uid, LApply(uid, l, calls[0]), calls[1..]);
    }
  }
}
