/** What every run of the machine controller keeps, for any number of machines. The invariant
    is local: it speaks of one machine, the instances and the target group; a frame lemma
    shows that the steps of other machines do not disturb it. */
module FleetSafety {
  import opened Basics
  import opened AlbCloud
  import opened FleetProtocol

  function Targets(tg: Option<TargetGroup>): seq<Target> {
    if tg.Some? then tg.value.targets else []
  }

  // ---- provider ids ----

  /** The id read back from a provider id is the one that was written. */
  lemma ProviderIdRoundTrip(m: Machine, id: Id)
    ensures WithInstance(m, id).spec.providerId == Some("yandex://" + id) && InstanceIdOf(WithInstance(m, id)) == id
  {
    var s := PROVIDER_ID_PREFIX + id;
    assert s[|PROVIDER_ID_PREFIX|..] == id;
  }

  // ---- one machine ----

  /** The provider id names an instance made for this machine from its interfaces, and a
      recorded address is the address of that instance. */
  predicate MachineOk(uid: Uid, m: Machine, vms: map<Id, Vm>) {
    && (m.spec.providerId.Some? ==>
          var id := InstanceIdOf(m);
          id != "" && id in vms && vms[id].owner == uid && vms[id].subnets == Subnets(m.spec.interfaces))
    && (m.status.addresses != [] ==>
          && m.spec.providerId.Some?
          && |m.spec.interfaces| == 1
          && m.status.addresses == [vms[InstanceIdOf(m)].address]
          && vms[InstanceIdOf(m)].address != "")
  }

  predicate Registered(m: Machine, tg: Option<TargetGroup>) {
    Recorded(m).Some? && Recorded(m).value in Targets(tg)
  }

  predicate InstanceGone(m: Machine, vms: map<Id, Vm>) {
    m.spec.providerId.Some? ==> InstanceIdOf(m) in vms && !vms[InstanceIdOf(m)].alive
  }

  /** Nothing of the machine is left in the cloud. */
  predicate Gone(cp: bool, m: Machine, vms: map<Id, Vm>, tg: Option<TargetGroup>) {
    InstanceGone(m, vms) && (cp ==> !Registered(m, tg))
  }

  predicate Protected(slot: Slot) { slot.present && slot.obj.finalizer }

  predicate IsForward(stage: MStage) { stage.Patch? || stage.Create? || stage.Get? || stage.RegGet? || stage.RegAdd? }

  /** What the copy of a round has to do with the object as it was read. */
  predicate MCopyOk(b: Machine, w: Machine) {
    && w.spec == b.spec.(providerId := w.spec.providerId)
    && (b.spec.providerId.Some? ==> w.spec.providerId == b.spec.providerId)
    && (b.status.addresses != [] ==> w.status.addresses == b.status.addresses)
    && w.deleting == b.deleting
    && (b.deleting ==> w.spec == b.spec && w.status.addresses == b.status.addresses)
    && (!b.deleting ==> w.finalizer)
  }

  /** What may have happened to the stored object since it was read. */
  predicate MStoredSince(slot: Slot, b: Machine, w: Machine) {
    && slot.obj.spec == b.spec && slot.obj.status == b.status
    && (b.deleting ==> slot.obj.deleting)
    && (b.finalizer ==> Protected(slot))
    && (b.deleting && slot.obj.finalizer ==> b.finalizer)
    && (w.spec != b.spec || w.status.addresses != b.status.addresses ==> Protected(slot))
  }

  predicate MStageOk(slot: Slot, b: Machine, w: Machine, stage: MStage, vms: map<Id, Vm>, tg: Option<TargetGroup>) {
    var cp := slot.controlPlane;
    && (!stage.MClosing? ==> (IsForward(stage) <==> !b.deleting))
    && (IsForward(stage) && !stage.Patch? ==> Protected(slot))
    && (b.finalizer && !w.finalizer ==> stage.MClosing? && Gone(cp, w, vms, tg))
    && match stage
       case Patch(_) => w.spec == b.spec && w.status == b.status
       case Create => w.spec.providerId.None?
       case Get => w.spec.providerId.Some?
       case RegGet => cp && Recorded(w).Some?
       case RegAdd(id) => cp && Recorded(w).Some? && (IsTg(tg, id) ==> !Registered(w, tg))
       case DelGet => w.spec.providerId.Some?
       case DeregGet(gone) => cp && Recorded(w).Some? && (gone ==> InstanceGone(w, vms))
       case DeregRemove(_, gone) => cp && Recorded(w).Some? && (gone ==> InstanceGone(w, vms))
       case DelVm => w.spec.providerId.Some? && (cp ==> !Registered(w, tg))
       case MClosing(v) => v != MPanicked
  }

  predicate ReadyOk(cp: bool, m: Machine, deleting: bool, tg: Option<TargetGroup>, tgLost: bool) {
    && (m.status.ready ==> m.status.addresses != [])
    && (m.status.ready && cp && !deleting && !tgLost ==> tg.Some? && Registered(m, tg))
  }

  predicate MRoundOk(uid: Uid, slot: Slot, vms: map<Id, Vm>, tg: Option<TargetGroup>, tgLost: bool) {
    slot.round.InFlight? ==>
      var InFlight(b, w, stage) := slot.round;
      && MachineOk(uid, w, vms)
      && MCopyOk(b, w)
      && MStoredSince(slot, b, w)
      && MStageOk(slot, b, w, stage, vms, tg)
      && ReadyOk(slot.controlPlane, w, b.deleting, tg, tgLost)
  }

  /** The machine answers for this target: it has its finalizer, and the target is recorded
      in its object or in the copy of its round. */
  predicate Vouches(slot: Slot, t: Target) {
    && slot.controlPlane && Protected(slot)
    && (Recorded(slot.obj) == Some(t) || (slot.round.InFlight? && Recorded(slot.round.work) == Some(t)))
  }

  function Owned(vms: map<Id, Vm>, uid: Uid): set<Id> {
    set id <- vms | vms[id].owner == uid
  }

  function Known(slot: Slot): Option<string> {
    (if slot.round.InFlight? then slot.round.work else slot.obj).spec.providerId
  }

  /** Every instance ever made for the machine is the one it knows, or is counted as lost. */
  predicate CountOk(uid: Uid, slot: Slot, vms: map<Id, Vm>) {
    |Owned(vms, uid)| == slot.lost + if Known(slot).Some? then 1 else 0
  }

  /** Without its finalizer the instance that the machine knows is gone; while the object is
      still there, so is its target. */
  predicate Released(slot: Slot, vms: map<Id, Vm>, tg: Option<TargetGroup>) {
    && InstanceGone(slot.obj, vms)
    && (slot.present && slot.controlPlane ==> !Registered(slot.obj, tg))
  }

  predicate SlotOk(uid: Uid, slot: Slot, vms: map<Id, Vm>, tg: Option<TargetGroup>, tgLost: bool) {
    && MachineOk(uid, slot.obj, vms)
    && (slot.present || slot.obj.deleting)
    && (Protected(slot) || Released(slot, vms, tg))
    && ReadyOk(slot.controlPlane, slot.obj, slot.obj.deleting, tg, tgLost)
    && MRoundOk(uid, slot, vms, tg, tgLost)
    && CountOk(uid, slot, vms)
  }

  // ---- the fleet ----

  /** The instance is alive, belongs to the machine and has this pair. */
  predicate LivesAt(vms: map<Id, Vm>, id: Id, uid: Uid, t: Target) {
    id in vms && vms[id].alive && vms[id].owner == uid && HasPair(vms[id]) && PairOf(vms[id]) == t
  }

  /** No pair belongs to two living instances, to two machines, or to a machine and the living
      instance of another. */
  ghost predicate Exclusive(slots: map<Uid, Slot>, vms: map<Id, Vm>) {
    && (forall i <- vms, j <- vms | vms[i].alive && vms[j].alive && HasPair(vms[i]) && HasPair(vms[j])
           && PairOf(vms[i]) == PairOf(vms[j]) :: i == j)
    && (forall u <- slots, i <- vms | vms[i].alive && HasPair(vms[i])
           && Claims(slots[u], PairOf(vms[i])) :: vms[i].owner == u)
    && (forall u <- slots, v <- slots, t | Claims(slots[u], t) && Claims(slots[v], t) :: u == v)
  }

  predicate NoDuplicates<T(==)>(xs: seq<T>) {
    forall i, j | 0 <= i < j < |xs| :: xs[i] != xs[j]
  }

  ghost predicate FleetInv(f: Fleet) {
    && (forall uid <- f.slots :: SlotOk(uid, f.slots[uid], f.vms, f.tg, f.tgLost))
    && (forall id <- f.vms :: f.vms[id].owner in f.slots)
    && Exclusive(f.slots, f.vms)
    && NoDuplicates(Targets(f.tg))
  }

  // ---- the frame: steps of others ----

  /** Instances only grow old: those of `uid` are the same, with the same owner and address,
      and none comes back to life. */
  predicate VmsFrame(uid: Uid, vms: map<Id, Vm>, vms': map<Id, Vm>) {
    && (forall id <- vms :: id in vms' && vms'[id] == vms[id].(status := vms'[id].status, alive := vms'[id].alive)
                            && (vms'[id].alive ==> vms[id].alive))
    && (forall id <- vms' :: vms'[id].owner == uid ==> id in vms)
  }

  /** The same target group, with the same targets that the machine may act on. */
  ghost predicate TgFrame(slot: Slot, tg: Option<TargetGroup>, tg': Option<TargetGroup>) {
    && (tg.Some? <==> tg'.Some?)
    && (tg.Some? ==> tg'.value.id == tg.value.id)
    && (forall t | Claims(slot, t) :: t in Targets(tg) <==> t in Targets(tg'))
  }

  lemma MachineFrame(uid: Uid, m: Machine, vms: map<Id, Vm>, vms': map<Id, Vm>)
    requires MachineOk(uid, m, vms) && VmsFrame(uid, vms, vms')
    ensures MachineOk(uid, m, vms')
    ensures InstanceGone(m, vms) ==> InstanceGone(m, vms')
  {
  }

  lemma RoundFrame(uid: Uid, slot: Slot, vms: map<Id, Vm>, vms': map<Id, Vm>,
                   tg: Option<TargetGroup>, tg': Option<TargetGroup>, tgLost: bool)
    requires MRoundOk(uid, slot, vms, tg, tgLost) && VmsFrame(uid, vms, vms') && TgFrame(slot, tg, tg')
    ensures MRoundOk(uid, slot, vms', tg', tgLost)
  {
    if slot.round.InFlight? {
      MachineFrame(uid, slot.round.work, vms, vms');
      if slot.controlPlane && Recorded(slot.round.work).Some? {
        assert Claims(slot, Recorded(slot.round.work).value);
      }
    }
  }

  lemma SlotFrame(uid: Uid, slot: Slot, vms: map<Id, Vm>, vms': map<Id, Vm>,
                  tg: Option<TargetGroup>, tg': Option<TargetGroup>, tgLost: bool)
    requires SlotOk(uid, slot, vms, tg, tgLost) && VmsFrame(uid, vms, vms') && TgFrame(slot, tg, tg')
    ensures SlotOk(uid, slot, vms', tg', tgLost)
  {
    MachineFrame(uid, slot.obj, vms, vms');
    if slot.controlPlane && slot.present && Recorded(slot.obj).Some? {
      assert Claims(slot, Recorded(slot.obj).value);
    }
    RoundFrame(uid, slot, vms, vms', tg, tg', tgLost);
    assert Owned(vms', uid) == Owned(vms, uid);
  }

  // ---- the machine's own steps ----

  predicate LocalOk(uid: Uid, l: Local, tgLost: bool) {
    SlotOk(uid, l.slot, l.vms, l.tg, tgLost)
  }

  predicate At_(l: Local, stage: MStage) { l.slot.round.InFlight? && l.slot.round.stage == stage }

  /** A round that only moves on to its next call. */
  predicate MNextOk(uid: Uid, slot: Slot, b: Machine, next: MRound, vms: map<Id, Vm>, tg: Option<TargetGroup>,
      tgLost: bool) {
    && next.InFlight? && next.before == b
    && MachineOk(uid, next.work, vms)
    && MCopyOk(b, next.work)
    && MStoredSince(slot, b, next.work)
    && MStageOk(slot, b, next.work, next.stage, vms, tg)
    && ReadyOk(slot.controlPlane, next.work, b.deleting, tg, tgLost)
  }

  /** It keeps the invariant if it knows the same instance. */
  lemma MoveOn(uid: Uid, l: Local, next: MRound, tgLost: bool)
    requires LocalOk(uid, l, tgLost) && l.slot.round.InFlight?
    requires MNextOk(uid, l.slot, l.slot.round.before, next, l.vms, l.tg, tgLost)
    requires next.work.spec.providerId == l.slot.round.work.spec.providerId
    ensures LocalOk(uid, l.(slot := Moved(l.slot, next)), tgLost)
  {
  }

  /** The copy of a round at any of its stages. */
  predicate CopyFits(uid: Uid, slot: Slot, b: Machine, w: Machine, vms: map<Id, Vm>, tg: Option<TargetGroup>,
      tgLost: bool) {
    && MachineOk(uid, w, vms) && MCopyOk(b, w) && MStoredSince(slot, b, w)
    && ReadyOk(slot.controlPlane, w, b.deleting, tg, tgLost)
  }

  lemma ConcludeOk(uid: Uid, slot: Slot, b: Machine, w: Machine, s: InstanceStatus,
                   vms: map<Id, Vm>, tg: Option<TargetGroup>, tgLost: bool)
    requires CopyFits(uid, slot, b, w, vms, tg, tgLost) && !b.deleting && Protected(slot)
    requires s == Reported(Running) ==> w.status.addresses != [] && (slot.controlPlane ==> Registered(w, tg))
    ensures MNextOk(uid, slot, b, Conclude(b, w, s), vms, tg, tgLost)
  {
  }

  lemma FoundRunningOk(uid: Uid, slot: Slot, b: Machine, w: Machine, vms: map<Id, Vm>, tg: Option<TargetGroup>,
      tgLost: bool)
    requires CopyFits(uid, slot, b, w, vms, tg, tgLost) && !b.deleting && Protected(slot) && w.spec.providerId.Some?
    requires vms[InstanceIdOf(w)].status == Running
    ensures var next := AfterGet(b, w, slot.controlPlane, Found(vms[InstanceIdOf(w)]));
            && MNextOk(uid, slot, b, next, vms, tg, tgLost)
            && (Recorded(w).Some? ==> Recorded(next.work) == Recorded(w))
  {
    var vm := vms[InstanceIdOf(w)];
    if |vm.subnets| == 1 && vm.address != "" {
      var w1 := w.(status := w.status.(addresses := [vm.address]));
      assert |w.spec.interfaces| == 1;
      if !slot.controlPlane {
        var w2 := w1.(status := w1.status.(running := True));
        ConcludeOk(uid, slot, b, w2, Reported(Running), vms, tg, tgLost);
      }
    }
  }

  lemma LookedUpOk(uid: Uid, slot: Slot, b: Machine, w: Machine, found: Lookup,
                   vms: map<Id, Vm>, tg: Option<TargetGroup>, tgLost: bool)
    requires CopyFits(uid, slot, b, w, vms, tg, tgLost) && !b.deleting && Protected(slot) && w.spec.providerId.Some?
    requires found.Found? ==> found.vm == vms[InstanceIdOf(w)]
    ensures var next := AfterGet(b, w, slot.controlPlane, found);
            && MNextOk(uid, slot, b, next, vms, tg, tgLost)
            && (Recorded(w).Some? ==> Recorded(next.work) == Recorded(w))
  {
    if found.Missing? {
      ConcludeOk(uid, slot, b, w.(status := w.status.(notFound := True, provisioning := False, running := False)),
                 Deleted, vms, tg, tgLost);
    } else if found.Found? {
      if found.vm.status == Running {
        FoundRunningOk(uid, slot, b, w, vms, tg, tgLost);
      } else {
        ConcludeOk(uid, slot, b, w, Reported(found.vm.status), vms, tg, tgLost);
      }
    }
  }

  lemma GetStep(uid: Uid, l: Local, r: MReply, tgLost: bool)
    requires LocalOk(uid, l, tgLost) && At_(l, Get)
    ensures LocalOk(uid, CallLocal(uid, l, r), tgLost)
  {
    var InFlight(b, w, stage) := l.slot.round;
    var found := LookUp(r.outcome, l.vms, InstanceIdOf(w));
    LookedUpOk(uid, l.slot, b, w, found, l.vms, l.tg, tgLost);
    MoveOn(uid, l, AfterGet(b, w, l.slot.controlPlane, found), tgLost);
  }

  lemma DeregisterOk(uid: Uid, slot: Slot, b: Machine, w: Machine, gone: bool,
                     vms: map<Id, Vm>, tg: Option<TargetGroup>, tgLost: bool)
    requires CopyFits(uid, slot, b, w, vms, tg, tgLost) && b.deleting && w.spec.providerId.Some?
    requires b.finalizer ==> w.finalizer
    requires gone ==> InstanceGone(w, vms)
    ensures MNextOk(uid, slot, b, Deregister(b, w, slot.controlPlane, gone), vms, tg, tgLost)
  {
  }

  lemma RegGetStep(uid: Uid, l: Local, r: MReply, tgLost: bool)
    requires LocalOk(uid, l, tgLost) && At_(l, RegGet)
    ensures LocalOk(uid, CallLocal(uid, l, r), tgLost)
  {
    var InFlight(b, w, stage) := l.slot.round;
    MoveOn(uid, l, AfterRegGet(b, w, ReadTg(r.outcome, l.tg)), tgLost);
  }

  lemma DelGetStep(uid: Uid, l: Local, r: MReply, tgLost: bool)
    requires LocalOk(uid, l, tgLost) && At_(l, DelGet)
    ensures LocalOk(uid, CallLocal(uid, l, r), tgLost)
  {
    var InFlight(b, w, stage) := l.slot.round;
    var found := LookUp(r.outcome, l.vms, InstanceIdOf(w));
    if found.Missing? {
      DeregisterOk(uid, l.slot, b, w, true, l.vms, l.tg, tgLost);
    } else if found.Found? {
      DeregisterOk(uid, l.slot, b, w.(status := w.status.(instance := Some(Reported(found.vm.status)))),
                   false, l.vms, l.tg, tgLost);
    }
    MoveOn(uid, l, AfterDelGet(b, w, l.slot.controlPlane, found), tgLost);
  }

  lemma DeregGetStep(uid: Uid, l: Local, r: MReply, tgLost: bool)
    requires LocalOk(uid, l, tgLost) && l.slot.round.InFlight? && l.slot.round.stage.DeregGet?
    ensures LocalOk(uid, CallLocal(uid, l, r), tgLost)
  {
    var InFlight(b, w, stage) := l.slot.round;
    MoveOn(uid, l, AfterDeregGet(b, w, stage.gone, ReadTg(r.outcome, l.tg)), tgLost);
  }

  lemma PatchStep(uid: Uid, l: Local, r: MReply, tgLost: bool)
    requires LocalOk(uid, l, tgLost) && l.slot.round.InFlight? && l.slot.round.stage.Patch?
    ensures LocalOk(uid, CallLocal(uid, l, r), tgLost)
  {
    var InFlight(b, w, stage) := l.slot.round;
    var slot' := CallLocal(uid, l, r).slot;
    assert slot'.obj == l.slot.obj.(finalizer := slot'.obj.finalizer);
    assert Protected(l.slot) ==> Protected(slot');
    assert Recorded(slot'.obj) == Recorded(l.slot.obj);
  }

  lemma CreateStep(uid: Uid, l: Local, r: MReply, tgLost: bool)
    requires LocalOk(uid, l, tgLost) && At_(l, Create)
    requires r.outcome.Effective() ==> r.id != "" && r.id !in l.vms
    ensures LocalOk(uid, CallLocal(uid, l, r), tgLost)
  {
    var InFlight(b, w, stage) := l.slot.round;
    var l' := CallLocal(uid, l, r);
    ProviderIdRoundTrip(w, r.id);
    if r.outcome.Effective() {
      assert Owned(l'.vms, uid) == Owned(l.vms, uid) + {r.id};
    }
    assert MachineOk(uid, l.slot.obj, l'.vms);
  }

  lemma RegAddStep(uid: Uid, l: Local, r: MReply, tgLost: bool)
    requires LocalOk(uid, l, tgLost) && l.slot.round.InFlight? && l.slot.round.stage.RegAdd?
    ensures LocalOk(uid, CallLocal(uid, l, r), tgLost)
  {
    var InFlight(b, w, stage) := l.slot.round;
    var l' := CallLocal(uid, l, r);
    if l'.tg == l.tg {
      MoveOn(uid, l, AfterRegAdd(b, w, false), tgLost);
    } else {
      TargetAddedOk(uid, l, r, tgLost);
    }
  }

  lemma TargetAddedOk(uid: Uid, l: Local, r: MReply, tgLost: bool)
    requires LocalOk(uid, l, tgLost) && l.slot.round.InFlight? && l.slot.round.stage.RegAdd?
    requires CallLocal(uid, l, r).tg != l.tg
    ensures LocalOk(uid, CallLocal(uid, l, r), tgLost)
  {
    var InFlight(b, w, stage) := l.slot.round;
    var l' := CallLocal(uid, l, r);
    var p := Recorded(w).value;
    assert Targets(l'.tg) == Targets(l.tg) + [p];
    assert Targets(l'.tg)[|Targets(l.tg)|] == p;
    assert forall t :: t in Targets(l'.tg) <==> t in Targets(l.tg) || t == p;
    if l'.slot.round.stage == MClosing(MDone) {
      ConcludeOk(uid, l.slot, b, w.(status := w.status.(running := True)), Reported(Running), l.vms, l'.tg, tgLost);
    }
  }

  lemma {:induction false} RemoveMembers(ts: seq<Target>, t: Target)
    ensures forall x :: x in Remove(ts, t) <==> x in ts && x != t
    ensures NoDuplicates(ts) ==> NoDuplicates(Remove(ts, t))
  {
    if ts != [] {
      RemoveMembers(ts[1..], t);
      assert ts == [ts[0]] + ts[1..];
      if NoDuplicates(ts) {
        assert forall i, j | 0 <= i < j < |ts[1..]| :: ts[1..][i] == ts[i + 1] && ts[1..][j] == ts[j + 1];
        assert ts[0] !in ts[1..];
      }
    }
  }

  /** Removing a target that was just added gives back the group as it was. */
  lemma {:induction false} AddThenRemove(ts: seq<Target>, t: Target)
    requires t !in ts
    ensures Remove(ts + [t], t) == ts
  {
    if ts == [] {
      assert [] + [t] == [t] && [t][1..] == [];
    } else {
      assert (ts + [t])[1..] == ts[1..] + [t];
      AddThenRemove(ts[1..], t);
    }
  }

  lemma DeregRemoveStep(uid: Uid, l: Local, r: MReply, tgLost: bool)
    requires LocalOk(uid, l, tgLost) && l.slot.round.InFlight? && l.slot.round.stage.DeregRemove?
    ensures LocalOk(uid, CallLocal(uid, l, r), tgLost)
  {
    var InFlight(b, w, stage) := l.slot.round;
    var l' := CallLocal(uid, l, r);
    RemoveMembers(Targets(l.tg), Recorded(w).value);
  }

  lemma DelVmStep(uid: Uid, l: Local, r: MReply, tgLost: bool)
    requires LocalOk(uid, l, tgLost) && At_(l, DelVm)
    ensures LocalOk(uid, CallLocal(uid, l, r), tgLost)
  {
    var InFlight(b, w, stage) := l.slot.round;
    MoveOn(uid, l, AfterDelVm(b, w, r.outcome == Success), tgLost);
    var l1 := l.(slot := Moved(l.slot, AfterDelVm(b, w, r.outcome == Success)));
    VmsReach(uid, l, r);
    SlotFrame(uid, l1.slot, l.vms, CallLocal(uid, l, r).vms, l.tg, l.tg, tgLost);
  }

  /** The final patch was not stored, or the controller died: what only the copy knew is
      accounted for as lost. */
  lemma ForgottenOk(uid: Uid, slot: Slot, vms: map<Id, Vm>, tg: Option<TargetGroup>, tgLost: bool)
    requires SlotOk(uid, slot, vms, tg, tgLost) && slot.round.InFlight?
    ensures SlotOk(uid, Forgotten(slot), vms, tg, tgLost)
  {
    var slot' := Forgotten(slot);
  }

  lemma StoredOk(uid: Uid, slot: Slot, vms: map<Id, Vm>, tg: Option<TargetGroup>, tgLost: bool)
    requires SlotOk(uid, slot, vms, tg, tgLost) && slot.round.InFlight? && slot.round.stage.MClosing?
    requires Accepts(slot, slot.round.before, slot.round.work)
    ensures var m := MMerge(slot.obj, slot.round.before, slot.round.work);
            SlotOk(uid, Store(slot, m).(round := Rest), vms, tg, tgLost)
  {
    var InFlight(b, w, stage) := slot.round;
    var m := MMerge(slot.obj, b, w);
    assert m == slot.obj.(finalizer := m.finalizer, spec := w.spec, status := w.status);
    assert InstanceIdOf(m) == InstanceIdOf(w) && Recorded(m) == Recorded(w);
    var slot' := Store(slot, m).(round := Rest);
  }

  lemma ClosingStep(uid: Uid, l: Local, r: MReply, tgLost: bool)
    requires LocalOk(uid, l, tgLost) && l.slot.round.InFlight? && l.slot.round.stage.MClosing?
    ensures LocalOk(uid, CallLocal(uid, l, r), tgLost)
  {
    ForgottenOk(uid, l.slot, l.vms, l.tg, tgLost);
    if Accepts(l.slot, l.slot.round.before, l.slot.round.work) {
      StoredOk(uid, l.slot, l.vms, l.tg, tgLost);
    }
  }

  lemma LocalStep(uid: Uid, l: Local, r: MReply, tgLost: bool)
    requires LocalOk(uid, l, tgLost) && l.slot.round.InFlight?
    requires l.slot.round.stage.Create? && r.outcome.Effective() ==> r.id != "" && r.id !in l.vms
    ensures LocalOk(uid, CallLocal(uid, l, r), tgLost)
  {
    match l.slot.round.stage
    case Patch(_) => PatchStep(uid, l, r, tgLost);
    case Create => CreateStep(uid, l, r, tgLost);
    case Get => GetStep(uid, l, r, tgLost);
    case RegGet => RegGetStep(uid, l, r, tgLost);
    case RegAdd(_) => RegAddStep(uid, l, r, tgLost);
    case DelGet => DelGetStep(uid, l, r, tgLost);
    case DeregGet(_) => DeregGetStep(uid, l, r, tgLost);
    case DeregRemove(_, _) => DeregRemoveStep(uid, l, r, tgLost);
    case DelVm => DelVmStep(uid, l, r, tgLost);
    case MClosing(_) => ClosingStep(uid, l, r, tgLost);
  }

  // ---- how far a step of one machine reaches ----

  /** The target group after a call: its own target added, its own target removed, or as before. */
  lemma TgReach(uid: Uid, l: Local, r: MReply, tgLost: bool)
    requires LocalOk(uid, l, tgLost) && l.slot.round.InFlight?
    ensures var tg' := CallLocal(uid, l, r).tg;
            && (tg'.Some? <==> l.tg.Some?) && (tg'.Some? ==> tg'.value == l.tg.value.(targets := tg'.value.targets))
            && (tg' == l.tg
                || (l.slot.round.stage.RegAdd? && Recorded(l.slot.round.work).Some?
                       && !Registered(l.slot.round.work, l.tg)
                    && Targets(tg') == Targets(l.tg) + [Recorded(l.slot.round.work).value])
                || (l.slot.round.stage.DeregRemove? && Recorded(l.slot.round.work).Some?
                    && Targets(tg') == Remove(Targets(l.tg), Recorded(l.slot.round.work).value)))
  {
  }

  /** A round keeps the target it has on record, and comes to a new one only by looking at the
      living instance of its machine. */
  lemma RecordKept(uid: Uid, l: Local, r: MReply, tgLost: bool)
    requires LocalOk(uid, l, tgLost) && l.slot.round.InFlight? && !l.slot.round.stage.MClosing?
    ensures var w, next := l.slot.round.work, CallLocal(uid, l, r).slot.round;
            && next.InFlight? && next.before == l.slot.round.before
            && (Recorded(w).Some? ==> Recorded(next.work) == Recorded(w))
            && (Recorded(w).None? && Recorded(next.work).Some? ==>
                  LivesAt(l.vms, InstanceIdOf(w), uid, Recorded(next.work).value))
  {
    if l.slot.round.stage.Get? {
      GetRecords(uid, l, r, tgLost);
    } else {
      OthersRecordNothing(uid, l, r);
    }
  }

  lemma GetRecords(uid: Uid, l: Local, r: MReply, tgLost: bool)
    requires LocalOk(uid, l, tgLost) && At_(l, Get)
    ensures var w, next := l.slot.round.work, CallLocal(uid, l, r).slot.round;
            && next.InFlight? && next.before == l.slot.round.before
            && (Recorded(w).Some? ==> Recorded(next.work) == Recorded(w))
            && (Recorded(w).None? && Recorded(next.work).Some? ==>
                  LivesAt(l.vms, InstanceIdOf(w), uid, Recorded(next.work).value))
  {
    var w := l.slot.round.work;
    var found := LookUp(r.outcome, l.vms, InstanceIdOf(w));
    LookedUpOk(uid, l.slot, l.slot.round.before, w, found, l.vms, l.tg, tgLost);
    if found.Found? && HasPair(found.vm) {
      assert |w.spec.interfaces| == 1 && w.spec.interfaces[0].subnet == found.vm.subnets[0];
    }
  }

  /** The round after a call, taken from the function of its stage. */
  lemma CallMovesRound(uid: Uid, l: Local, r: MReply)
    requires l.slot.round.InFlight?
    ensures var InFlight(b, w, stage) := l.slot.round; var cp := l.slot.controlPlane;
            var ok := r.outcome == Success;
            var next := CallLocal(uid, l, r).slot.round;
            match stage
            case Patch(boot) => next == AfterPatch(b, w, boot, ok && Accepts(l.slot, b, w))
            case Create => next.InFlight? && (next.stage.Get? || next.stage.MClosing?)
            case Get => next == AfterGet(b, w, cp, LookUp(r.outcome, l.vms, InstanceIdOf(w)))
            case RegGet => next == AfterRegGet(b, w, ReadTg(r.outcome, l.tg))
            case RegAdd(id) => next == AfterRegAdd(b, w, ok && IsTg(l.tg, id) && Recorded(w).Some?)
            case DelGet => next == AfterDelGet(b, w, cp, LookUp(r.outcome, l.vms, InstanceIdOf(w)))
            case DeregGet(gone) => next == AfterDeregGet(b, w, gone, ReadTg(r.outcome, l.tg))
            case DeregRemove(id, gone) => next
                == AfterDeregRemove(b, w, gone, ok && IsTg(l.tg, id) && Recorded(w).Some?)
            case DelVm => next == AfterDelVm(b, w, ok)
            case MClosing(_) => next.Rest?
  {
  }

  lemma OthersRecordNothing(uid: Uid, l: Local, r: MReply)
    requires l.slot.round.InFlight? && !l.slot.round.stage.MClosing? && !l.slot.round.stage.Get?
    ensures var next := CallLocal(uid, l, r).slot.round;
            next.InFlight? && next.before == l.slot.round.before && Recorded(next.work) == Recorded(l.slot.round.work)
  {
    if !l.slot.round.stage.Create? {
      CallMovesRound(uid, l, r);
    }
  }

  /** The round ends, and its copy is not stored. */
  predicate DropsCopy(l: Local, r: MReply) {
    && l.slot.round.InFlight? && l.slot.round.stage.MClosing?
    && !(r.outcome.Effective() && Accepts(l.slot, l.slot.round.before, l.slot.round.work))
  }

  /** The copy of the round has an address that the object it was read from has not. */
  predicate HasNewRecord(slot: Slot, t: Target) {
    && slot.controlPlane && slot.round.InFlight?
    && slot.round.work.status.addresses != slot.round.before.status.addresses
    && Recorded(slot.round.work) == Some(t)
  }

  /** The call puts the target on record. */
  predicate PutsOnRecord(uid: Uid, l: Local, r: MReply, t: Target) {
    && l.slot.controlPlane && l.slot.round.InFlight? && l.slot.round.stage.Get?
    && var next := CallLocal(uid, l, r).slot.round;
    next.InFlight? && Recorded(next.work) == Some(t)
  }

  /** The call takes the target from the group. */
  predicate TakesOut(l: Local, r: MReply, t: Target) {
    && l.slot.round.InFlight? && l.slot.round.stage.DeregRemove?
    && r.outcome.Effective() && IsTg(l.tg, l.slot.round.stage.tg) && Recorded(l.slot.round.work) == Some(t)
  }

  /** A target in the group that the machine did not vouch for, it does not vouch for after the
      call, unless it looks at its instance there; one that it vouched for it still vouches for,
      unless it drops the record; and none comes or goes but its own. */
  predicate VouchesStay(uid: Uid, l: Local, r: MReply)
    requires l.slot.round.InFlight?
  {
    var l' := CallLocal(uid, l, r);
    && (forall t <- Targets(l'.tg) ::
          || Vouches(l'.slot, t)
          || (t in Targets(l.tg) && !Vouches(l.slot, t))
          || (DropsCopy(l, r) && HasNewRecord(l.slot, t)))
    && (forall t <- Targets(l.tg) ::
          && (Vouches(l'.slot, t) ==> Vouches(l.slot, t) || PutsOnRecord(uid, l, r, t))
          && (t !in Targets(l'.tg) ==> TakesOut(l, r, t)))
  }

  /** The machine comes to act on a new target only as that of its own living instance. */
  ghost predicate ClaimsKept(uid: Uid, l: Local, l': Local)
    requires l.slot.round.InFlight?
  {
    forall t | Claims(l'.slot, t) :: Claims(l.slot, t) || LivesAt(l.vms, InstanceIdOf(l.slot.round.work), uid, t)
  }

  /** What a call in the middle of a round does to the slot of its machine. */
  lemma SlotReach(uid: Uid, l: Local, r: MReply)
    requires l.slot.round.InFlight? && !l.slot.round.stage.MClosing? && !l.slot.round.stage.Patch?
    ensures var slot := CallLocal(uid, l, r).slot;
            var lost := if l.slot.round.stage.Create? && r.outcome == FailedAfter then 1 else 0;
            slot == l.slot.(round := slot.round, lost := l.slot.lost + lost)
  {
    if IsForward(l.slot.round.stage) {
      ForwardSlotReach(uid, l, r);
    }
  }

  lemma ForwardSlotReach(uid: Uid, l: Local, r: MReply)
    requires l.slot.round.InFlight? && IsForward(l.slot.round.stage) && !l.slot.round.stage.Patch?
    ensures var slot := CallLocal(uid, l, r).slot;
            var lost := if l.slot.round.stage.Create? && r.outcome == FailedAfter then 1 else 0;
            slot == l.slot.(round := slot.round, lost := l.slot.lost + lost)
  {
  }

  lemma MiddleKeeps(uid: Uid, l: Local, r: MReply, tgLost: bool)
    requires LocalOk(uid, l, tgLost) && l.slot.round.InFlight?
    requires !l.slot.round.stage.MClosing? && !l.slot.round.stage.Patch?
    ensures VouchesStay(uid, l, r) && ClaimsKept(uid, l, CallLocal(uid, l, r))
  {
    var l' := CallLocal(uid, l, r);
    RecordKept(uid, l, r, tgLost);
    TgReach(uid, l, r, tgLost);
    if l'.tg != l.tg {
      RemoveMembers(Targets(l.tg), Recorded(l.slot.round.work).value);
    }
    SlotReach(uid, l, r);
  }

  lemma PatchKeeps(uid: Uid, l: Local, r: MReply, tgLost: bool)
    requires LocalOk(uid, l, tgLost) && l.slot.round.InFlight? && l.slot.round.stage.Patch?
    ensures VouchesStay(uid, l, r) && ClaimsKept(uid, l, CallLocal(uid, l, r))
  {
    var slot' := CallLocal(uid, l, r).slot;
    assert slot'.obj == l.slot.obj.(finalizer := slot'.obj.finalizer);
    assert Recorded(slot'.obj) == Recorded(l.slot.obj);
  }

  lemma ClosingKeeps(uid: Uid, l: Local, r: MReply, tgLost: bool)
    requires LocalOk(uid, l, tgLost) && l.slot.round.InFlight? && l.slot.round.stage.MClosing?
    ensures VouchesStay(uid, l, r) && ClaimsKept(uid, l, CallLocal(uid, l, r))
  {
    var InFlight(b, w, _) := l.slot.round;
    var m := MMerge(l.slot.obj, b, w);
    assert Recorded(m) == Recorded(w);
  }

  lemma CallKeeps(uid: Uid, l: Local, r: MReply, tgLost: bool)
    requires LocalOk(uid, l, tgLost) && l.slot.round.InFlight?
    ensures VouchesStay(uid, l, r) && ClaimsKept(uid, l, CallLocal(uid, l, r))
  {
    if l.slot.round.stage.Patch? {
      PatchKeeps(uid, l, r, tgLost);
    } else if l.slot.round.stage.MClosing? {
      ClosingKeeps(uid, l, r, tgLost);
    } else {
      MiddleKeeps(uid, l, r, tgLost);
    }
  }

  // ---- a call of one machine in the fleet ----

  /** Owner, subnets and address of an instance never change, and none comes back to life. */
  predicate SameInstances(vms: map<Id, Vm>, vms': map<Id, Vm>) {
    && vms'.Keys == vms.Keys
    && forall id <- vms ::
         && vms'[id] == vms[id].(status := vms'[id].status, alive := vms'[id].alive)
         && (vms'[id].alive ==> vms[id].alive)
  }

  /** What a call does to the instances: one more, or one of its own with a new status. */
  lemma VmsReach(uid: Uid, l: Local, r: MReply)
    requires l.slot.round.InFlight?
    ensures var vms' := CallLocal(uid, l, r).vms;
            || SameInstances(l.vms, vms')
            || (l.slot.round.stage.Create? && r.outcome.Effective()
                   && vms' == l.vms[r.id := NewVm(uid, l.slot.round.work, r.address)])
  {
  }

  /** A call moves no target but the one its machine has on record. */
  lemma OnlyOwnTargetMoves(uid: Uid, l: Local, r: MReply, tgLost: bool, t: Target)
    requires LocalOk(uid, l, tgLost) && l.slot.round.InFlight? && !Claims(l.slot, t)
    ensures t in Targets(CallLocal(uid, l, r).tg) <==> t in Targets(l.tg)
  {
    TgReach(uid, l, r, tgLost);
    if CallLocal(uid, l, r).tg != l.tg {
      RemoveMembers(Targets(l.tg), Recorded(l.slot.round.work).value);
    }
  }

  lemma VmsIsolated(uid: Uid, l: Local, r: MReply, other: Uid)
    requires l.slot.round.InFlight? && other != uid
    requires l.slot.round.stage.Create? && r.outcome.Effective() ==> r.id !in l.vms
    ensures VmsFrame(other, l.vms, CallLocal(uid, l, r).vms)
  {
    VmsReach(uid, l, r);
  }

  /** One machine's call never touches another machine's instances, nor a target that another
      machine may act on. */
  lemma CallIsolated(f: Fleet, uid: Uid, r: MReply, other: Uid)
    requires FleetInv(f) && Possible(f, uid, r) && other in f.slots && other != uid
    ensures var g := FleetApply(f, MCall(uid, r));
            VmsFrame(other, f.vms, g.vms) && TgFrame(f.slots[other], f.tg, g.tg)
  {
    var l := Local(f.slots[uid], f.vms, f.tg);
    TgReach(uid, l, r, f.tgLost);
    VmsIsolated(uid, l, r, other);
    forall t | Claims(f.slots[other], t) ensures t in Targets(f.tg) <==> t in Targets(CallLocal(uid, l, r).tg) {
      OnlyOwnTargetMoves(uid, l, r, f.tgLost, t);
    }
  }

  lemma AgedExclusive(slots: map<Uid, Slot>, vms: map<Id, Vm>, vms': map<Id, Vm>)
    requires Exclusive(slots, vms) && SameInstances(vms, vms')
    ensures Exclusive(slots, vms')
  {
    assert forall i <- vms' | HasPair(vms'[i]) :: HasPair(vms[i]) && PairOf(vms'[i]) == PairOf(vms[i]);
  }

  lemma AddedExclusive(slots: map<Uid, Slot>, vms: map<Id, Vm>, id: Id, v: Vm)
    requires Exclusive(slots, vms) && id !in vms
    requires HasPair(v) ==> !Occupied(vms, PairOf(v)) && !Claimed(slots, PairOf(v))
    ensures Exclusive(slots, vms[id := v])
  {
  }

  /** A machine that claims nothing new but its own living instance's pair stays exclusive. */
  lemma SlotExclusive(slots: map<Uid, Slot>, vms: map<Id, Vm>, uid: Uid, slot: Slot, own: Id)
    requires Exclusive(slots, vms) && uid in slots
    requires forall t | Claims(slot, t) :: Claims(slots[uid], t) || LivesAt(vms, own, uid, t)
    ensures Exclusive(slots[uid := slot], vms)
  {
  }

  lemma CallKeepsExclusive(f: Fleet, uid: Uid, r: MReply)
    requires FleetInv(f) && Possible(f, uid, r) && Assumed(f, MCall(uid, r))
    ensures var g := FleetApply(f, MCall(uid, r)); Exclusive(g.slots, g.vms)
  {
    var l := Local(f.slots[uid], f.vms, f.tg);
    var l' := CallLocal(uid, l, r);
    CallKeeps(uid, l, r, f.tgLost);
    VmsReach(uid, l, r);
    SlotExclusive(f.slots, f.vms, uid, l'.slot, InstanceIdOf(l.slot.round.work));
    if SameInstances(f.vms, l'.vms) {
      AgedExclusive(f.slots[uid := l'.slot], f.vms, l'.vms);
    } else {
      var v := NewVm(uid, l.slot.round.work, r.address);
      CreateClaimsNothing(uid, l, r);
      AddedExclusive(f.slots[uid := l'.slot], f.vms, r.id, v);
    }
  }

  lemma CreateClaimsNothing(uid: Uid, l: Local, r: MReply)
    requires At_(l, Create)
    ensures forall t :: Claims(CallLocal(uid, l, r).slot, t) <==> Claims(l.slot, t)
  {
    OthersRecordNothing(uid, l, r);
  }

  lemma CallKeepsNoDuplicates(uid: Uid, l: Local, r: MReply, tgLost: bool)
    requires LocalOk(uid, l, tgLost) && l.slot.round.InFlight? && NoDuplicates(Targets(l.tg))
    ensures NoDuplicates(Targets(CallLocal(uid, l, r).tg))
  {
    TgReach(uid, l, r, tgLost);
    if CallLocal(uid, l, r).tg != l.tg {
      RemoveMembers(Targets(l.tg), Recorded(l.slot.round.work).value);
    }
  }

  lemma FleetCallInv(f: Fleet, uid: Uid, r: MReply)
    requires FleetInv(f) && Possible(f, uid, r) && Assumed(f, MCall(uid, r))
    ensures FleetInv(FleetApply(f, MCall(uid, r)))
  {
    var g := FleetApply(f, MCall(uid, r));
    forall u <- g.slots ensures SlotOk(u, g.slots[u], g.vms, g.tg, g.tgLost) {
      SlotAfterCall(f, uid, r, u);
    }
    VmsReach(uid, Local(f.slots[uid], f.vms, f.tg), r);
    CallKeepsExclusive(f, uid, r);
    CallKeepsNoDuplicates(uid, Local(f.slots[uid], f.vms, f.tg), r, f.tgLost);
  }

  lemma SlotAfterCall(f: Fleet, uid: Uid, r: MReply, u: Uid)
    requires FleetInv(f) && Possible(f, uid, r) && u in f.slots
    ensures var g := FleetApply(f, MCall(uid, r)); SlotOk(u, g.slots[u], g.vms, g.tg, g.tgLost)
  {
    var g := FleetApply(f, MCall(uid, r));
    if u == uid {
      LocalStep(uid, Local(f.slots[uid], f.vms, f.tg), r, f.tgLost);
    } else {
      CallIsolated(f, uid, r, u);
      SlotFrame(u, f.slots[u], f.vms, g.vms, f.tg, g.tg, f.tgLost);
    }
  }

  // ---- everything else that can happen ----

  lemma BeginOk(uid: Uid, slot: Slot, vms: map<Id, Vm>, tg: Option<TargetGroup>, tgLost: bool)
    requires SlotOk(uid, slot, vms, tg, tgLost) && slot.round.Rest? && slot.present
    ensures SlotOk(uid, Moved(slot, MStart(slot.obj, slot.bootstrapped)), vms, tg, tgLost)
  {
  }

  lemma UserDeleteOk(uid: Uid, slot: Slot, vms: map<Id, Vm>, tg: Option<TargetGroup>, tgLost: bool)
    requires SlotOk(uid, slot, vms, tg, tgLost) && slot.present
    ensures SlotOk(uid, Store(slot, slot.obj.(deleting := true)), vms, tg, tgLost)
  {
  }

  lemma HoldOk(uid: Uid, slot: Slot, vms: map<Id, Vm>, tg: Option<TargetGroup>, tgLost: bool, on: bool)
    requires SlotOk(uid, slot, vms, tg, tgLost) && slot.present
    ensures SlotOk(uid, Store(slot, slot.obj.(held := on)), vms, tg, tgLost)
  {
  }

  /** An action on one slot that leaves the instances and the target group alone. */
  lemma SlotActionInv(f: Fleet, uid: Uid, slot: Slot)
    requires FleetInv(f) && uid in f.slots && SlotOk(uid, slot, f.vms, f.tg, f.tgLost)
    requires forall t | Claims(slot, t) :: Claims(f.slots[uid], t)
    ensures FleetInv(f.(slots := f.slots[uid := slot]))
  {
    SlotExclusive(f.slots, f.vms, uid, slot, "");
  }

  lemma NewMachineOk(f: Fleet, uid: Uid, cp: bool, spec: MachineSpec)
    requires FleetInv(f) && uid !in f.slots && spec.providerId.None?
    ensures SlotOk(uid, Slot(cp, false, true, Machine(false, false, false, spec, NEW_MACHINE_STATUS), Rest, 0),
                   f.vms, f.tg, f.tgLost)
  {
    assert Owned(f.vms, uid) == {};
  }

  lemma AddedSlotInv(f: Fleet, uid: Uid, slot: Slot)
    requires FleetInv(f) && uid !in f.slots && SlotOk(uid, slot, f.vms, f.tg, f.tgLost)
    requires forall t :: !Claims(slot, t)
    ensures FleetInv(f.(slots := f.slots[uid := slot]))
  {
  }

  lemma VmEventInv(f: Fleet, a: FleetAction)
    requires FleetInv(f) && (a.VmMoves? || a.VmGone?)
    ensures FleetInv(FleetApply(f, a))
  {
    VmEventAges(f, a);
    AgedInv(f, FleetApply(f, a).vms);
  }

  lemma VmEventAges(f: Fleet, a: FleetAction)
    requires a.VmMoves? || a.VmGone?
    ensures var g := FleetApply(f, a); g == f.(vms := g.vms) && SameInstances(f.vms, g.vms)
  {
  }

  lemma AgedInv(f: Fleet, vms': map<Id, Vm>)
    requires FleetInv(f) && SameInstances(f.vms, vms')
    ensures FleetInv(f.(vms := vms'))
  {
    AgedExclusive(f.slots, f.vms, vms');
    forall u <- f.slots ensures SlotOk(u, f.slots[u], vms', f.tg, f.tgLost) {
      SlotFrame(u, f.slots[u], f.vms, vms', f.tg, f.tg, f.tgLost);
    }
  }

  /** The cluster controller makes an empty target group or takes the whole group away. */
  lemma TgEventOk(uid: Uid, slot: Slot, vms: map<Id, Vm>, tg: Option<TargetGroup>, tgLost: bool, id: Id)
    requires SlotOk(uid, slot, vms, tg, tgLost)
    ensures tg.None? ==> SlotOk(uid, slot, vms, Some(TargetGroup(id, [], false)), tgLost)
    ensures SlotOk(uid, slot, vms, None, true)
  {
  }

  lemma TgEventInv(f: Fleet, a: FleetAction)
    requires FleetInv(f) && (a.TgAppears? || a.TgDisappears?)
    ensures FleetInv(FleetApply(f, a))
  {
    var id := if a.TgAppears? then a.id else "";
    forall u <- f.slots
      ensures f.tg.None? ==> SlotOk(u, f.slots[u], f.vms, Some(TargetGroup(id, [], false)), f.tgLost)
      ensures SlotOk(u, f.slots[u], f.vms, None, true)
    {
      TgEventOk(u, f.slots[u], f.vms, f.tg, f.tgLost, id);
    }
  }

  lemma UserActionInv(f: Fleet, a: FleetAction)
    requires FleetInv(f) && Assumed(f, a) && (a.MUserDelete? || a.MHold? || a.MUserEdit?)
    ensures FleetInv(FleetApply(f, a))
  {
    if a.uid in f.slots && f.slots[a.uid].present {
      match a
      case MUserDelete(uid) => UserDeleteInv(f, uid);
      case MHold(uid, on) => HoldInv(f, uid, on);
      case MUserEdit(uid, spec) => UserEditInv(f, uid, spec);
    }
  }

  lemma UserDeleteInv(f: Fleet, uid: Uid)
    requires FleetInv(f) && uid in f.slots && f.slots[uid].present
    ensures FleetInv(FleetApply(f, MUserDelete(uid)))
  {
    UserDeleteOk(uid, f.slots[uid], f.vms, f.tg, f.tgLost);
    StoredSlotInv(f, uid, f.slots[uid].obj.(deleting := true));
  }

  lemma HoldInv(f: Fleet, uid: Uid, on: bool)
    requires FleetInv(f) && uid in f.slots && f.slots[uid].present
    ensures FleetInv(FleetApply(f, MHold(uid, on)))
  {
    HoldOk(uid, f.slots[uid], f.vms, f.tg, f.tgLost, on);
    StoredSlotInv(f, uid, f.slots[uid].obj.(held := on));
    HoldStores(f, uid, on);
  }

  lemma HoldStores(f: Fleet, uid: Uid, on: bool)
    requires uid in f.slots && f.slots[uid].present
    ensures FleetApply(f, MHold(uid, on)) in
            {f, f.(slots := f.slots[uid := Store(f.slots[uid], f.slots[uid].obj.(held := on))])}
  {
  }

  lemma UserEditInv(f: Fleet, uid: Uid, spec: MachineSpec)
    requires FleetInv(f) && uid in f.slots && Assumed(f, MUserEdit(uid, spec))
    ensures FleetInv(FleetApply(f, MUserEdit(uid, spec)))
  {
    var slot := f.slots[uid];
    assert AdmitsMachineUpdate(slot.obj.spec, spec) ==> slot.obj.(spec := spec) == slot.obj;
    assert f.slots[uid := slot] == f.slots;
  }

  lemma StoredSlotInv(f: Fleet, uid: Uid, m: Machine)
    requires FleetInv(f) && uid in f.slots && f.slots[uid].present
    requires SlotOk(uid, Store(f.slots[uid], m), f.vms, f.tg, f.tgLost)
    requires m == f.slots[uid].obj.(deleting := m.deleting, held := m.held)
    ensures FleetInv(f.(slots := f.slots[uid := Store(f.slots[uid], m)]))
  {
    SlotActionInv(f, uid, Store(f.slots[uid], m));
  }

  lemma RoundActionInv(f: Fleet, a: FleetAction)
    requires FleetInv(f) && Assumed(f, a) && (a.MBegin? || a.MCall? || a.MCrash?)
    ensures FleetInv(FleetApply(f, a))
  {
    if a.uid in f.slots {
      var slot := f.slots[a.uid];
      if a.MBegin? && slot.present && slot.round.Rest? {
        BeginOk(a.uid, slot, f.vms, f.tg, f.tgLost);
        SlotActionInv(f, a.uid, Moved(slot, MStart(slot.obj, slot.bootstrapped)));
      } else if a.MCall? && Possible(f, a.uid, a.reply) {
        FleetCallInv(f, a.uid, a.reply);
      } else if a.MCrash? && slot.round.InFlight? {
        ForgottenOk(a.uid, slot, f.vms, f.tg, f.tgLost);
        SlotActionInv(f, a.uid, Forgotten(slot));
      }
    }
  }

  lemma NewMachineInv(f: Fleet, uid: Uid, cp: bool, spec: MachineSpec)
    requires FleetInv(f) && Assumed(f, NewMachine(uid, cp, spec))
    ensures FleetInv(FleetApply(f, NewMachine(uid, cp, spec)))
  {
    if uid !in f.slots {
      NewMachineOk(f, uid, cp, spec);
      AddedSlotInv(f, uid, Slot(cp, false, true, Machine(false, false, false, spec, NEW_MACHINE_STATUS), Rest, 0));
    }
  }

  lemma BootstrapInv(f: Fleet, uid: Uid)
    requires FleetInv(f)
    ensures FleetInv(FleetApply(f, BootstrapReady(uid)))
  {
    if uid in f.slots {
      SlotActionInv(f, uid, f.slots[uid].(bootstrapped := true));
    }
  }

  lemma FleetApplyInv(f: Fleet, a: FleetAction)
    requires FleetInv(f) && Assumed(f, a)
    ensures FleetInv(FleetApply(f, a))
  {
    match a
    case NewMachine(uid, cp, spec) => NewMachineInv(f, uid, cp, spec);
    case BootstrapReady(uid) => BootstrapInv(f, uid);
    case VmMoves(_, _) => VmEventInv(f, a);
    case VmGone(_) => VmEventInv(f, a);
    case TgAppears(_) => TgEventInv(f, a);
    case TgDisappears => TgEventInv(f, a);
    case MUserEdit(_, _) => UserActionInv(f, a);
    case MUserDelete(_) => UserActionInv(f, a);
    case MHold(_, _) => UserActionInv(f, a);
    case _ => RoundActionInv(f, a);
  }

  lemma {:induction false} FleetRunInv(f: Fleet, acts: seq<FleetAction>)
    requires FleetInv(f) && AssumedAlways(f, acts)
    ensures FleetInv(FleetRun(f, acts))
  {
    if acts != [] {
      FleetRunInv(f, acts[..|acts| - 1]);
      FleetApplyInv(FleetRun(f, acts[..|acts| - 1]), acts[|acts| - 1]);
    }
  }
}
