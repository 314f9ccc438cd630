/** Properties of every run of any number of machines. */
module FleetTheorems {
  import opened Basics
  import opened AlbCloud
  import opened FleetProtocol
  import opened FleetSafety

  lemma {:induction false} Reached(acts: seq<FleetAction>)
    requires AssumedAlways(NO_FLEET, acts)
    ensures FleetInv(FleetRun(NO_FLEET, acts))
  {
    FleetRunInv(NO_FLEET, acts);
  }

  // ---- targets ----

  /** A call of one machine changes no other machine, and no target that another machine has on
      record. */
  lemma {:induction false} MachinesDoNotDisturbEachOther(acts: seq<FleetAction>, uid: Uid, r: MReply, other: Uid)
    requires AssumedAlways(NO_FLEET, acts) && other != uid && other in FleetRun(NO_FLEET, acts).slots
    ensures var f, g := FleetRun(NO_FLEET, acts), FleetRun(NO_FLEET, acts + [MCall(uid, r)]);
            && other in g.slots && g.slots[other] == f.slots[other]
            && forall t | Claims(f.slots[other], t) :: t in Targets(f.tg) <==> t in Targets(g.tg)
  {
    assert (acts + [MCall(uid, r)])[..|acts|] == acts;
    Reached(acts);
    if Possible(FleetRun(NO_FLEET, acts), uid, r) {
      CallIsolated(FleetRun(NO_FLEET, acts), uid, r, other);
    }
  }

  /** A control-plane machine that is Ready and not being deleted has its recorded target in
      the group, in every state in which the group was never taken away. */
  lemma {:induction false} ReadyMeansRegistered(acts: seq<FleetAction>, uid: Uid)
    requires AssumedAlways(NO_FLEET, acts)
    requires var f := FleetRun(NO_FLEET, acts);
             && uid in f.slots && f.slots[uid].controlPlane && f.slots[uid].obj.status.ready
             && !f.slots[uid].obj.deleting && !f.tgLost
    ensures var f := FleetRun(NO_FLEET, acts);
            f.tg.Some? && Registered(f.slots[uid].obj, f.tg)
  {
    Reached(acts);
    var f := FleetRun(NO_FLEET, acts);
    assert SlotOk(uid, f.slots[uid], f.vms, f.tg, f.tgLost);
  }

  // ---- deletion ----

  /** An instance is not asked to go while its target is still in the group. */
  lemma {:induction false} DeregisteredBeforeDelete(acts: seq<FleetAction>, uid: Uid)
    requires AssumedAlways(NO_FLEET, acts)
    requires var f := FleetRun(NO_FLEET, acts);
             uid in f.slots && f.slots[uid].round.InFlight? && f.slots[uid].round.stage.DelVm?
    ensures var f := FleetRun(NO_FLEET, acts);
            f.slots[uid].controlPlane ==> !Registered(f.slots[uid].obj, f.tg)
  {
    Reached(acts);
    var f := FleetRun(NO_FLEET, acts);
    assert SlotOk(uid, f.slots[uid], f.vms, f.tg, f.tgLost);
    var InFlight(b, w, _) := f.slots[uid].round;
    assert Recorded(w) == Recorded(f.slots[uid].obj);
  }

  // ---- index and nil safety ----

  /** No round ever indexes an empty interface list, and a round that ends in success has
      recorded an instance status. */
  lemma {:induction false} NoRoundPanics(acts: seq<FleetAction>, uid: Uid)
    requires AssumedAlways(NO_FLEET, acts)
    requires var f := FleetRun(NO_FLEET, acts); uid in f.slots && f.slots[uid].round.InFlight?
    ensures var f := FleetRun(NO_FLEET, acts);
            && f.slots[uid].round.stage != MClosing(MPanicked)
            && (Recorded(f.slots[uid].round.work).Some? <==> f.slots[uid].round.work.status.addresses != [])
  {
    Reached(acts);
    var f := FleetRun(NO_FLEET, acts);
    assert SlotOk(uid, f.slots[uid], f.vms, f.tg, f.tgLost);
  }

  // ---- instances ----

  predicate Prefixed(m: Machine) {
    m.spec.providerId.Some? ==> m.spec.providerId == Some(PROVIDER_ID_PREFIX + InstanceIdOf(m))
  }

  predicate SlotPrefixed(slot: Slot) {
    Prefixed(slot.obj) && (slot.round.InFlight? ==> Prefixed(slot.round.before) && Prefixed(slot.round.work))
  }

  /** Every provider id is the prefix and the id read back from it. */
  lemma {:induction false} KnownIdsArePrefixed(acts: seq<FleetAction>, uid: Uid)
    requires AssumedAlways(NO_FLEET, acts) && uid in FleetRun(NO_FLEET, acts).slots
    ensures SlotPrefixed(FleetRun(NO_FLEET, acts).slots[uid])
  {
    if acts != [] {
      var prefix := acts[..|acts| - 1];
      var f := FleetRun(NO_FLEET, prefix);
      if uid in f.slots {
        KnownIdsArePrefixed(prefix, uid);
      }
      PrefixStep(f, acts[|acts| - 1], uid);
    }
  }

  lemma PrefixStep(f: Fleet, a: FleetAction, uid: Uid)
    requires uid in FleetApply(f, a).slots && Assumed(f, a)
    requires uid in f.slots ==> SlotPrefixed(f.slots[uid])
    ensures SlotPrefixed(FleetApply(f, a).slots[uid])
  {
    if a.MCall? && a.uid == uid && Possible(f, uid, a.reply) {
      PrefixCall(uid, Local(f.slots[uid], f.vms, f.tg), a.reply);
    }
  }

  /** Only a create gives the copy of a round another provider id. */
  lemma CopyKeepsProviderId(uid: Uid, l: Local, r: MReply)
    requires l.slot.round.InFlight? && !l.slot.round.stage.MClosing? && !l.slot.round.stage.Create?
    ensures var next := CallLocal(uid, l, r).slot.round;
            next.InFlight? && next.before == l.slot.round.before
            && next.work.spec.providerId == l.slot.round.work.spec.providerId
  {
    CallMovesRound(uid, l, r);
  }

  lemma PrefixCall(uid: Uid, l: Local, r: MReply)
    requires l.slot.round.InFlight? && SlotPrefixed(l.slot)
    ensures SlotPrefixed(CallLocal(uid, l, r).slot)
  {
    var m := MMerge(l.slot.obj, l.slot.round.before, l.slot.round.work);
    assert Prefixed(m);
    if l.slot.round.stage.Create? {
      ProviderIdRoundTrip(l.slot.round.work, r.id);
    } else if !l.slot.round.stage.MClosing? {
      CopyKeepsProviderId(uid, l, r);
      assert CallLocal(uid, l, r).slot.obj.spec.providerId in {l.slot.obj.spec.providerId, m.spec.providerId};
    }
  }

  // ---- what a machine loses, and when ----

  /** The round in flight of the machine ends and its copy is not stored. */
  predicate EndsUnstored(f: Fleet, a: FleetAction, uid: Uid) {
    && uid in f.slots && f.slots[uid].round.InFlight?
    && var InFlight(b, w, stage) := f.slots[uid].round;
    || a == MCrash(uid)
    || (a.MCall? && a.uid == uid && stage.MClosing? && !(a.reply.outcome.Effective() && Accepts(f.slots[uid], b, w)))
  }

  /** A create takes effect and reports failure, or a copy with a new provider id is not stored. */
  predicate LosesInstance(f: Fleet, a: FleetAction, uid: Uid) {
    && uid in f.slots && f.slots[uid].round.InFlight?
    && var InFlight(b, w, stage) := f.slots[uid].round;
    || (a.MCall? && a.uid == uid && Possible(f, uid, a.reply) && stage.Create? && a.reply.outcome == FailedAfter)
    || (EndsUnstored(f, a, uid) && w.spec.providerId != b.spec.providerId)
  }

  /** A copy with a newly recorded address is not stored. */
  predicate LosesRecord(f: Fleet, a: FleetAction, uid: Uid) {
    && EndsUnstored(f, a, uid)
    && var InFlight(b, w, _) := f.slots[uid].round;
    w.status.addresses != b.status.addresses && Recorded(w).Some?
  }

  function InstanceLosses(acts: seq<FleetAction>, uid: Uid): nat {
    if acts == [] then 0
    else InstanceLosses(acts[..|acts| - 1], uid) +
         if LosesInstance(FleetRun(NO_FLEET, acts[..|acts| - 1]), acts[|acts| - 1], uid) then 1 else 0
  }

  /** Only a create that reports failure and the end of a round lose an instance. */
  lemma LossesAreCounted(uid: Uid, l: Local, r: MReply)
    requires l.slot.round.InFlight? && !l.slot.round.stage.MClosing?
    ensures CallLocal(uid, l, r).slot.lost
            == l.slot.lost + if l.slot.round.stage.Create? && r.outcome == FailedAfter then 1 else 0
  {
    if !l.slot.round.stage.Patch? {
      SlotReach(uid, l, r);
    }
  }

  lemma LossStep(f: Fleet, a: FleetAction, uid: Uid)
    requires uid in f.slots
    ensures uid in FleetApply(f, a).slots
    ensures FleetApply(f, a).slots[uid].lost == f.slots[uid].lost + if LosesInstance(f, a, uid) then 1 else 0
  {
    var slot := f.slots[uid];
    if a.MCall? && a.uid == uid && Possible(f, uid, a.reply) && !slot.round.stage.MClosing? {
      LossesAreCounted(uid, Local(slot, f.vms, f.tg), a.reply);
    }
  }

  lemma NothingLostAtFirst(f: Fleet, a: FleetAction, uid: Uid)
    requires uid !in f.slots
    ensures !LosesInstance(f, a, uid)
    ensures uid in FleetApply(f, a).slots ==> FleetApply(f, a).slots[uid].lost == 0
  {
  }

  lemma LossCountStep(f: Fleet, a: FleetAction, uid: Uid)
    ensures var g := FleetApply(f, a);
            (if uid in g.slots then g.slots[uid].lost else 0) ==
            (if uid in f.slots then f.slots[uid].lost else 0) + (if LosesInstance(f, a, uid) then 1 else 0)
  {
    if uid in f.slots {
      LossStep(f, a, uid);
    } else {
      NothingLostAtFirst(f, a, uid);
    }
  }

  lemma {:induction false} LossesAreExact(acts: seq<FleetAction>, uid: Uid)
    ensures var f := FleetRun(NO_FLEET, acts);
            InstanceLosses(acts, uid) == if uid in f.slots then f.slots[uid].lost else 0
  {
    if acts != [] {
      var prefix := acts[..|acts| - 1];
      LossesAreExact(prefix, uid);
      LossCountStep(FleetRun(NO_FLEET, prefix), acts[|acts| - 1], uid);
    }
  }

  /** In every run, the instances ever made for a machine are the one it knows and one for each
      losing step. */
  lemma {:induction false} InstancesAreKnownOrLost(acts: seq<FleetAction>, uid: Uid)
    requires AssumedAlways(NO_FLEET, acts) && uid in FleetRun(NO_FLEET, acts).slots
    ensures var f := FleetRun(NO_FLEET, acts);
            && |Owned(f.vms, uid)| == InstanceLosses(acts, uid) + (if Known(f.slots[uid]).Some? then 1 else 0)
            && (Known(f.slots[uid]).Some? ==>
                  exists id <- Owned(f.vms, uid) :: Known(f.slots[uid]) == Some(PROVIDER_ID_PREFIX + id))
  {
    Reached(acts);
    LossesAreExact(acts, uid);
    var f := FleetRun(NO_FLEET, acts);
    assert SlotOk(uid, f.slots[uid], f.vms, f.tg, f.tgLost);
    KnownIdsArePrefixed(acts, uid);
    if Known(f.slots[uid]).Some? {
      assert InstanceIdOf(Copy(f.slots[uid])) in Owned(f.vms, uid);
    }
  }

  /** The latest the machine's controller knows of it. */
  function Copy(slot: Slot): Machine { if slot.round.InFlight? then slot.round.work else slot.obj }

  function LivingInstances(vms: map<Id, Vm>, uid: Uid): set<Id> {
    set id <- vms | vms[id].owner == uid && vms[id].alive
  }

  /** In every run, an instance that lives without the finalizer of its machine is one that the
      machine lost: there are at most as many of them as losing steps. */
  lemma {:induction false} LivingWithoutFinalizerAreLost(acts: seq<FleetAction>, uid: Uid)
    requires AssumedAlways(NO_FLEET, acts) && uid in FleetRun(NO_FLEET, acts).slots
    requires !Protected(FleetRun(NO_FLEET, acts).slots[uid])
    ensures |LivingInstances(FleetRun(NO_FLEET, acts).vms, uid)| <= InstanceLosses(acts, uid)
  {
    Reached(acts);
    InstancesAreKnownOrLost(acts, uid);
    KnownIdsArePrefixed(acts, uid);
    var f := FleetRun(NO_FLEET, acts);
    assert SlotOk(uid, f.slots[uid], f.vms, f.tg, f.tgLost);
    var living, owned := LivingInstances(f.vms, uid), Owned(f.vms, uid);
    if Known(f.slots[uid]).Some? {
      var id := InstanceIdOf(Copy(f.slots[uid]));
      assert id in owned && id !in living;
      SubsetIsSmaller(living, owned - {id});
    } else {
      SubsetIsSmaller(living, owned);
    }
  }

  lemma {:induction false} SubsetIsSmaller(a: set<Id>, b: set<Id>)
    requires a <= b
    ensures |a| <= |b|
  {
    if a != {} {
      var x :| x in a;
      SubsetIsSmaller(a - {x}, b - {x});
    }
  }

  /** A machine that never lost an instance has at most one ever, and while that lives, the
      machine knows it and has its finalizer. */
  lemma {:induction false} CarefulMachineIsClean(acts: seq<FleetAction>, uid: Uid)
    requires AssumedAlways(NO_FLEET, acts) && uid in FleetRun(NO_FLEET, acts).slots && InstanceLosses(acts, uid) == 0
    ensures var f := FleetRun(NO_FLEET, acts);
            && |Owned(f.vms, uid)| <= 1
            && (forall id <- f.vms | f.vms[id].alive && f.vms[id].owner == uid ::
                  Protected(f.slots[uid]) && Known(f.slots[uid]) == Some(PROVIDER_ID_PREFIX + id))
  {
    InstancesAreKnownOrLost(acts, uid);
    var f := FleetRun(NO_FLEET, acts);
    forall id <- f.vms | f.vms[id].alive && f.vms[id].owner == uid
      ensures Protected(f.slots[uid]) && Known(f.slots[uid]) == Some(PROVIDER_ID_PREFIX + id)
    {
      OnlyKnownInstance(acts, id);
    }
  }

  lemma {:induction false} OnlyKnownInstance(acts: seq<FleetAction>, id: Id)
    requires AssumedAlways(NO_FLEET, acts)
    requires id in FleetRun(NO_FLEET, acts).vms && FleetRun(NO_FLEET, acts).vms[id].alive
    requires InstanceLosses(acts, FleetRun(NO_FLEET, acts).vms[id].owner) == 0
    ensures var f := FleetRun(NO_FLEET, acts); var uid := f.vms[id].owner;
            uid in f.slots && Protected(f.slots[uid]) && Known(f.slots[uid]) == Some(PROVIDER_ID_PREFIX + id)
  {
    Reached(acts);
    var f := FleetRun(NO_FLEET, acts);
    var uid := f.vms[id].owner;
    InstancesAreKnownOrLost(acts, uid);
    KnownIdsArePrefixed(acts, uid);
    assert SlotOk(uid, f.slots[uid], f.vms, f.tg, f.tgLost);
    var owned := Owned(f.vms, uid);
    assert id in owned;
    var other :| other in owned && Known(f.slots[uid]) == Some(PROVIDER_ID_PREFIX + other);
    SingletonMembers(owned, id, other);
  }

  lemma SingletonMembers(s: set<Id>, x: Id, y: Id)
    requires |s| == 1 && x in s && y in s
    ensures x == y
  {
    var rest := s - {x};
    assert |rest| == 0;
    assert y !in rest;
  }
}
