/** Which targets of the group nobody vouches for: those whose record was lost while they were
    registered, and that were neither put on record again nor taken out since. */
module FleetTargets {
  import opened Basics
  import opened AlbCloud
  import opened FleetProtocol
  import opened FleetSafety
  import opened FleetTheorems

  /** A zombie: in the group, and no machine with its finalizer has it on record. */
  predicate LeftBehind(f: Fleet, t: Target) {
    t in Targets(f.tg) && forall uid <- f.slots :: !Vouches(f.slots[uid], t)
  }

  /** The machine loses its record of a target that is registered. */
  predicate LosesTarget(f: Fleet, a: FleetAction, uid: Uid, t: Target) {
    && LosesRecord(f, a, uid) && f.slots[uid].controlPlane
    && Recorded(f.slots[uid].round.work) == Some(t) && t in Targets(f.tg)
  }

  /** The target leaves the group, or a machine looks at its living instance there and has it on
      record again. */
  predicate TakesBack(f: Fleet, a: FleetAction, t: Target) {
    match a
    case TgDisappears => true
    case MCall(uid, r) =>
      && Possible(f, uid, r)
      && var l := Local(f.slots[uid], f.vms, f.tg);
      PutsOnRecord(uid, l, r, t) || TakesOut(l, r, t)
    case _ => false
  }

  /** The machine lost the record of the target, and nobody took it back since. */
  predicate OpenLoss(acts: seq<FleetAction>, uid: Uid, t: Target) {
    acts != []
    && var f, a := FleetRun(NO_FLEET, acts[..|acts| - 1]), acts[|acts| - 1];
    LosesTarget(f, a, uid, t) || (OpenLoss(acts[..|acts| - 1], uid, t) && !TakesBack(f, a, t))
  }

  // ---- one step ----

  /** Steps that are no call and no crash of a round leave it to the same machines to vouch. */
  predicate IsQuiet(a: FleetAction) { !a.MCall? && !a.MCrash? && !a.TgDisappears? }

  lemma QuietStep(f: Fleet, a: FleetAction, t: Target, uid: Uid)
    requires Assumed(f, a) && IsQuiet(a) && uid in FleetApply(f, a).slots
    ensures Vouches(FleetApply(f, a).slots[uid], t) <==> uid in f.slots && Vouches(f.slots[uid], t)
  {
  }

  lemma QuietGroup(f: Fleet, a: FleetAction)
    requires IsQuiet(a)
    ensures Targets(FleetApply(f, a).tg) == Targets(f.tg)
  {
  }

  lemma SlotsStay(f: Fleet, a: FleetAction, uid: Uid)
    requires uid in f.slots
    ensures uid in FleetApply(f, a).slots
  {
  }

  /** Only a losing step leaves a target behind. */
  lemma LeftBehindByLoss(f: Fleet, a: FleetAction, t: Target)
    requires FleetInv(f) && Assumed(f, a) && !LeftBehind(f, t) && LeftBehind(FleetApply(f, a), t)
    ensures exists uid <- f.slots :: LosesTarget(f, a, uid, t)
  {
    if a.MCall? && Possible(f, a.uid, a.reply) {
      assert SlotOk(a.uid, f.slots[a.uid], f.vms, f.tg, f.tgLost);
      LeftBehindByCall(f, a.uid, a.reply, t);
    } else if a.MCrash? && a.uid in f.slots && f.slots[a.uid].round.InFlight? {
      assert SlotOk(a.uid, f.slots[a.uid], f.vms, f.tg, f.tgLost);
      LeftBehindByCrash(f, a.uid, t);
    } else if IsQuiet(a) {
      QuietGroup(f, a);
      forall u <- f.slots ensures u in FleetApply(f, a).slots {
        SlotsStay(f, a, u);
      }
      forall u <- f.slots ensures !Vouches(f.slots[u], t) {
        QuietStep(f, a, t, u);
      }
    }
  }

  lemma TakenBack(uid: Uid, l: Local, r: MReply, t: Target, tgLost: bool)
    requires LocalOk(uid, l, tgLost) && l.slot.round.InFlight?
    ensures PutsOnRecord(uid, l, r, t) ==> Vouches(CallLocal(uid, l, r).slot, t)
    ensures TakesOut(l, r, t) ==> t !in Targets(CallLocal(uid, l, r).tg)
  {
    RemoveMembers(Targets(l.tg), t);
    if l.slot.round.stage.Get? {
      SlotReach(uid, l, r);
    }
  }

  /** What a call of a machine means for one target. */
  lemma CallAtTarget(f: Fleet, uid: Uid, r: MReply, t: Target)
    requires Possible(f, uid, r) && LocalOk(uid, Local(f.slots[uid], f.vms, f.tg), f.tgLost)
    ensures var l, g := Local(f.slots[uid], f.vms, f.tg), FleetApply(f, MCall(uid, r));
            && g.slots == f.slots[uid := g.slots[uid]]
            && (t in Targets(g.tg) ==>
                  || Vouches(g.slots[uid], t) || (t in Targets(f.tg) && !Vouches(f.slots[uid], t))
                  || (DropsCopy(l, r) && HasNewRecord(f.slots[uid], t) && t in Targets(f.tg)))
            && (t in Targets(f.tg) && !Vouches(f.slots[uid], t) ==>
                  && (Vouches(g.slots[uid], t) <==> PutsOnRecord(uid, l, r, t))
                  && (t !in Targets(g.tg) <==> TakesOut(l, r, t)))
  {
    var l := Local(f.slots[uid], f.vms, f.tg);
    CallKeeps(uid, l, r, f.tgLost);
    TakenBack(uid, l, r, t, f.tgLost);
    TgReach(uid, l, r, f.tgLost);
  }

  lemma LeftBehindByCall(f: Fleet, uid: Uid, r: MReply, t: Target)
    requires Possible(f, uid, r) && LocalOk(uid, Local(f.slots[uid], f.vms, f.tg), f.tgLost)
    requires !LeftBehind(f, t) && LeftBehind(FleetApply(f, MCall(uid, r)), t)
    ensures LosesTarget(f, MCall(uid, r), uid, t)
  {
    var g := FleetApply(f, MCall(uid, r));
    CallAtTarget(f, uid, r, t);
    assert !Vouches(g.slots[uid], t);
    if t in Targets(f.tg) {
      var u :| u in f.slots && Vouches(f.slots[u], t);
      assert !Vouches(g.slots[u], t);
    }
  }

  lemma LeftBehindByCrash(f: Fleet, uid: Uid, t: Target)
    requires uid in f.slots && f.slots[uid].round.InFlight? && SlotOk(uid, f.slots[uid], f.vms, f.tg, f.tgLost)
    requires !LeftBehind(f, t) && LeftBehind(FleetApply(f, MCrash(uid)), t)
    ensures LosesTarget(f, MCrash(uid), uid, t)
  {
    var u :| u in f.slots && Vouches(f.slots[u], t);
    assert !Vouches(FleetApply(f, MCrash(uid)).slots[u], t);
  }

  /** A losing step leaves its target behind. */
  lemma LossLeavesBehind(f: Fleet, a: FleetAction, uid: Uid, t: Target)
    requires FleetInv(f) && LosesTarget(f, a, uid, t)
    ensures LeftBehind(FleetApply(f, a), t)
  {
    var g := FleetApply(f, a);
    assert SlotOk(uid, f.slots[uid], f.vms, f.tg, f.tgLost) && Claims(f.slots[uid], t);
    forall u <- g.slots ensures !Vouches(g.slots[u], t) {
      if u != uid {
        assert !Claims(f.slots[u], t);
      }
    }
  }

  /** A target left behind stays so until it is taken back. */
  lemma LeftBehindUntilTakenBack(f: Fleet, a: FleetAction, t: Target)
    requires FleetInv(f) && Assumed(f, a) && LeftBehind(f, t)
    ensures LeftBehind(FleetApply(f, a), t) <==> !TakesBack(f, a, t)
  {
    var g := FleetApply(f, a);
    if a.MCall? && Possible(f, a.uid, a.reply) {
      assert SlotOk(a.uid, f.slots[a.uid], f.vms, f.tg, f.tgLost);
      LeftBehindCall(f, a.uid, a.reply, t);
    } else if IsQuiet(a) {
      QuietGroup(f, a);
      forall u <- g.slots ensures !Vouches(g.slots[u], t) {
        QuietStep(f, a, t, u);
      }
    }
  }

  lemma LeftBehindCall(f: Fleet, uid: Uid, r: MReply, t: Target)
    requires Possible(f, uid, r) && LocalOk(uid, Local(f.slots[uid], f.vms, f.tg), f.tgLost) && LeftBehind(f, t)
    ensures LeftBehind(FleetApply(f, MCall(uid, r)), t) <==> !TakesBack(f, MCall(uid, r), t)
  {
    var g := FleetApply(f, MCall(uid, r));
    CallAtTarget(f, uid, r, t);
    assert !Vouches(f.slots[uid], t);
    forall u <- g.slots | u != uid ensures !Vouches(g.slots[u], t) {
      assert g.slots[u] == f.slots[u];
    }
  }

  // ---- every run ----

  lemma {:induction false} LosersAreMachines(acts: seq<FleetAction>, uid: Uid, t: Target)
    requires OpenLoss(acts, uid, t)
    ensures uid in FleetRun(NO_FLEET, acts).slots
  {
    var prefix := acts[..|acts| - 1];
    if OpenLoss(prefix, uid, t) {
      LosersAreMachines(prefix, uid, t);
    }
    SlotsStay(FleetRun(NO_FLEET, prefix), acts[|acts| - 1], uid);
  }

  /** In every run, a target in the group has no machine that vouches for it if and only if some
      machine lost the record of it while it was registered, and nobody took it back since. */
  lemma {:induction false} LeftBehindExactly(acts: seq<FleetAction>, t: Target)
    requires AssumedAlways(NO_FLEET, acts)
    ensures LeftBehind(FleetRun(NO_FLEET, acts), t)
            <==> exists uid <- FleetRun(NO_FLEET, acts).slots :: OpenLoss(acts, uid, t)
  {
    if acts != [] {
      var prefix, a := acts[..|acts| - 1], acts[|acts| - 1];
      var f := FleetRun(NO_FLEET, prefix);
      LeftBehindExactly(prefix, t);
      Reached(prefix);
      if LeftBehind(f, t) {
        LeftBehindUntilTakenBack(f, a, t);
        var uid :| uid in f.slots && OpenLoss(prefix, uid, t);
        SlotsStay(f, a, uid);
        assert !TakesBack(f, a, t) ==> OpenLoss(acts, uid, t);
      } else if LeftBehind(FleetApply(f, a), t) {
        LeftBehindByLoss(f, a, t);
        var uid :| uid in f.slots && LosesTarget(f, a, uid, t);
        SlotsStay(f, a, uid);
        assert OpenLoss(acts, uid, t);
      }
      forall uid <- FleetRun(NO_FLEET, acts).slots | OpenLoss(acts, uid, t) ensures LeftBehind(FleetApply(f, a), t) {
        if LosesTarget(f, a, uid, t) {
          LossLeavesBehind(f, a, uid, t);
        } else {
          LosersAreMachines(prefix, uid, t);
        }
      }
    }
  }

  /** In every run the targets are distinct, and each is on record with a control-plane machine
      that has its finalizer if and only if it is no open loss of any machine. */
  lemma {:induction false} NoZombieTargets(acts: seq<FleetAction>)
    requires AssumedAlways(NO_FLEET, acts)
    ensures var f := FleetRun(NO_FLEET, acts);
            && NoDuplicates(Targets(f.tg))
            && forall t <- Targets(f.tg) ::
                 (exists uid <- f.slots :: Vouches(f.slots[uid], t))
                 <==> !exists uid <- f.slots :: OpenLoss(acts, uid, t)
  {
    Reached(acts);
    var f := FleetRun(NO_FLEET, acts);
    forall t <- Targets(f.tg)
      ensures (exists uid <- f.slots :: Vouches(f.slots[uid], t)) <==> !exists uid <- f.slots :: OpenLoss(acts, uid, t)
    {
      LeftBehindExactly(acts, t);
    }
  }

  predicate AllOnRecord(f: Fleet) {
    forall t <- Targets(f.tg) :: exists uid <- f.slots :: Vouches(f.slots[uid], t)
  }

  ghost predicate NoOpenLoss(acts: seq<FleetAction>) {
    forall uid <- FleetRun(NO_FLEET, acts).slots, t: Target :: !OpenLoss(acts, uid, t)
  }

  /** So all targets are on record if and only if no loss is open. */
  lemma {:induction false} CarefulRunsAreClean(acts: seq<FleetAction>)
    requires AssumedAlways(NO_FLEET, acts)
    ensures AllOnRecord(FleetRun(NO_FLEET, acts)) <==> NoOpenLoss(acts)
  {
    var f := FleetRun(NO_FLEET, acts);
    if AllOnRecord(f) {
      forall uid <- f.slots, t: Target ensures !OpenLoss(acts, uid, t) {
        LeftBehindExactly(acts, t);
        assert !LeftBehind(f, t);
      }
    }
    if NoOpenLoss(acts) {
      forall t <- Targets(f.tg) ensures exists uid <- f.slots :: Vouches(f.slots[uid], t) {
        LeftBehindExactly(acts, t);
        assert !LeftBehind(f, t);
      }
    }
  }

  predicate NeverLosesTarget(acts: seq<FleetAction>, uid: Uid, t: Target) {
    acts == [] ||
    (NeverLosesTarget(acts[..|acts| - 1], uid, t)
     && !LosesTarget(FleetRun(NO_FLEET, acts[..|acts| - 1]), acts[|acts| - 1], uid, t))
  }

  /** A machine that never lost the record of a registered target leaves none behind: a target
      left behind is an open loss of another machine, whatever crashes this one had. */
  lemma {:induction false} CarefulMachineLeavesNothing(acts: seq<FleetAction>, uid: Uid, t: Target)
    requires AssumedAlways(NO_FLEET, acts) && NeverLosesTarget(acts, uid, t) && LeftBehind(FleetRun(NO_FLEET, acts), t)
    ensures exists u <- FleetRun(NO_FLEET, acts).slots :: u != uid && OpenLoss(acts, u, t)
  {
    LeftBehindExactly(acts, t);
    NoLossNoOpenLoss(acts, uid, t);
  }

  lemma {:induction false} NoLossNoOpenLoss(acts: seq<FleetAction>, uid: Uid, t: Target)
    requires NeverLosesTarget(acts, uid, t)
    ensures !OpenLoss(acts, uid, t)
  {
    if acts != [] {
      NoLossNoOpenLoss(acts[..|acts| - 1], uid, t);
    }
  }

  /** The instance that a machine without its finalizer knows is gone. While its object is there,
      its target is not in the group; afterwards a target with the same address is another
      machine's, or an open loss. */
  lemma {:induction false} FinalizerGoesLast(acts: seq<FleetAction>, uid: Uid)
    requires AssumedAlways(NO_FLEET, acts)
    requires uid in FleetRun(NO_FLEET, acts).slots && !Protected(FleetRun(NO_FLEET, acts).slots[uid])
    ensures var f := FleetRun(NO_FLEET, acts); var slot := f.slots[uid];
            && InstanceGone(slot.obj, f.vms)
            && (slot.present && slot.controlPlane ==> !Registered(slot.obj, f.tg))
            && (Registered(slot.obj, f.tg) ==>
                  exists u <- f.slots ::
                    || (u != uid && Vouches(f.slots[u], Recorded(slot.obj).value))
                    || OpenLoss(acts, u, Recorded(slot.obj).value))
  {
    Reached(acts);
    var f := FleetRun(NO_FLEET, acts);
    assert SlotOk(uid, f.slots[uid], f.vms, f.tg, f.tgLost);
    if Registered(f.slots[uid].obj, f.tg) {
      var t := Recorded(f.slots[uid].obj).value;
      NoZombieTargets(acts);
      var u :| u in f.slots && (Vouches(f.slots[u], t) || OpenLoss(acts, u, t));
      assert (u != uid && Vouches(f.slots[u], t)) || OpenLoss(acts, u, t);
    }
  }
}
