/** The machine controller code: reconcile and delete rounds of YandexMachine, the compute
    service and the target registration under them, as methods over a world in which every
    other machine, the users and the cloud may move between two calls. Every execution is a
    run of the fleet. */
module MachineController {
  import opened Basics
  import opened Api
  import opened AlbCloud
  import opened AlbBuilders
  import opened FleetProtocol
  import opened FleetSafety

  /** Anything but a step of this machine's own round. */
  predicate IsForeign(a: FleetAction, uid: Uid) {
    (a.MBegin? || a.MCall? || a.MCrash?) ==> a.uid != uid
  }

  lemma ForeignKeepsRound(f: Fleet, a: FleetAction, uid: Uid)
    requires IsForeign(a, uid) && uid in f.slots
    ensures var g := FleetApply(f, a);
            uid in g.slots && g.slots[uid].round == f.slots[uid].round
                && g.slots[uid].controlPlane == f.slots[uid].controlPlane
  {
  }

  // ---- requests ----

  datatype InterfaceRequest = InterfaceRequest(subnet: string, external: bool)

  datatype InstanceRequest = InstanceRequest(interfaces: seq<InterfaceRequest>, others: string)

  /** One requested interface for each interface of the spec, in order, with its subnet, an
      external address exactly where one is asked for, and the rest of the spec as it is. */
  predicate Asks(req: InstanceRequest, spec: MachineSpec) {
    && req.others == spec.others
    && |req.interfaces| == |spec.interfaces|
    && forall i | 0 <= i < |spec.interfaces| ::
         && req.interfaces[i].subnet == spec.interfaces[i].subnet
         && (req.interfaces[i].external <==> spec.interfaces[i].publicIp == Some(true))
  }

  /** The API server, the cloud and the other machines, seen by the controller of one machine.
      `trace` records every action since `start`. */
  class FleetWorld {
    const uid: Uid
    var fleet: Fleet
    ghost const start: Fleet
    ghost var trace: seq<FleetAction>
    /** The verdict of the last round that ended with its final patch. */
    ghost var last: MVerdict

    constructor (fleet: Fleet, uid: Uid)
      requires FleetInv(fleet) && uid in fleet.slots
      ensures Valid() && this.fleet == fleet && this.uid == uid && start == fleet && trace == []
    {
      this.fleet, this.uid := fleet, uid;
      start, trace, last := fleet, [], MDone;
    }

    ghost predicate Valid()
      reads this
    {
      && FleetInv(start) && AssumedAlways(start, trace)
      && fleet == FleetRun(start, trace) && uid in fleet.slots
    }

    ghost function Slot(): Slot
      requires uid in fleet.slots
      reads this
    {
      fleet.slots[uid]
    }

    ghost predicate At(b: Machine, w: Machine, stage: MStage)
      reads this
    {
      Valid() && Slot().round == InFlight(b, w, stage)
    }

    ghost predicate Calls()
      reads this
    {
      Valid() && Slot().round.InFlight?
    }

    /** What a valid world inherits from the protocol. */
    lemma Safe()
      requires Valid()
      ensures FleetInv(fleet) && SlotOk(uid, Slot(), fleet.vms, fleet.tg, fleet.tgLost)
    {
      FleetRunInv(start, trace);
    }

    lemma Sound()
      requires Valid()
      ensures FleetInv(fleet)
    {
      FleetRunInv(start, trace);
    }

    lemma NoPanic()
      requires Calls()
      ensures FleetInv(fleet) && Slot().round.stage != MClosing(MPanicked)
    {
      Safe();
    }

    lemma Extend(a: FleetAction)
      ensures FleetRun(start, trace + [a]) == FleetApply(FleetRun(start, trace), a)
      ensures AssumedAlways(start, trace + [a]) <==> AssumedAlways(start, trace) && Assumed(FleetRun(start, trace), a)
    {
      assert (trace + [a])[..|trace|] == trace;
    }

    /** Any number of things others do: other machines' calls, user edits, status changes. */
    method Interfere()
      requires Valid()
      modifies this
      ensures Valid() && old(trace) <= trace
      ensures Slot().round == old(Slot().round) && Slot().controlPlane == old(Slot().controlPlane)
    {
      var n: nat := *;
      while n > 0
        invariant Valid() && old(trace) <= trace
        invariant Slot().round == old(Slot().round) && Slot().controlPlane == old(Slot().controlPlane)
      {
        var a: FleetAction := *;
        if IsForeign(a, uid) && Assumed(fleet, a) {
          Extend(a);
          ForeignKeepsRound(fleet, a, uid);
          trace := trace + [a];
          fleet := FleetApply(fleet, a);
        }
        n := n - 1;
      }
    }

    /** Reads the object and, when it is there, starts a round on it. */
    method Get() returns (m: Option<Machine>, controlPlane: bool, bootstrapped: bool)
      requires Valid() && Slot().round.Rest?
      modifies this
      ensures Valid() && old(trace) <= trace
      ensures m.None? ==> Slot().round.Rest?
      ensures m.Some? ==> Slot().round == MStart(m.value, bootstrapped) && Slot().controlPlane == controlPlane
    {
      Interfere();
      var slot := fleet.slots[uid];
      m := if slot.present then Some(slot.obj) else None;
      controlPlane, bootstrapped := slot.controlPlane, slot.bootstrapped;
      if m.Some? {
        Extend(MBegin(uid));
        trace := trace + [MBegin(uid)];
        fleet := FleetApply(fleet, MBegin(uid));
      }
    }

    /** A call of this machine reaches the API server or the cloud. */
    method Take(r: MReply)
      requires Calls() && Possible(fleet, uid, r) && Assumed(fleet, MCall(uid, r))
      modifies this
      ensures Valid() && old(trace) <= trace
      ensures Local(Slot(), fleet.vms, fleet.tg) == CallLocal(uid, Local(old(Slot()), old(fleet.vms), old(fleet.tg)), r)
    {
      Extend(MCall(uid, r));
      trace := trace + [MCall(uid, r)];
      fleet := FleetApply(fleet, MCall(uid, r));
    }

    static method Fate() returns (r: MReply)
      ensures r.id == "" && r.address == ""
    {
      var o: Outcome := *;
      r := MReply(o, "", "");
    }

    /** Patches the object with what the copy `w` changed since `b` was read. */
    method Patch(b: Machine, w: Machine) returns (ok: bool)
      requires Calls() && Slot().round == InFlight(b, w, Slot().round.stage)
      requires Slot().round.stage.Patch? || Slot().round.stage.MClosing?
      modifies this
      ensures Valid() && old(trace) <= trace && Slot().controlPlane == old(Slot().controlPlane)
      ensures old(Slot().round.stage).Patch?
              ==> Slot().round == AfterPatch(b, w, old(Slot().round.stage).bootstrapped, ok)
      ensures old(Slot().round.stage).MClosing? ==> Slot().round.Rest?
    {
      Interfere();
      var r := Fate();
      ok := r.outcome == Success && Accepts(fleet.slots[uid], b, w);
      CallMovesRound(uid, Local(Slot(), fleet.vms, fleet.tg), r);
      Take(r);
    }

    method ComputeGet(id: Id) returns (r: Lookup)
      requires Calls() && id == InstanceIdOf(Slot().round.work)
      requires Slot().round.stage.Get? || Slot().round.stage.DelGet?
      modifies this
      ensures Valid() && old(trace) <= trace && Slot().controlPlane == old(Slot().controlPlane)
      ensures var was := old(Slot().round);
              Slot().round == if was.stage.Get? then AfterGet(was.before, was.work, Slot().controlPlane, r)
                              else AfterDelGet(was.before, was.work, Slot().controlPlane, r)
    {
      Interfere();
      var reply := Fate();
      r := LookUp(reply.outcome, fleet.vms, id);
      Take(reply);
    }

    /** A new id and an address of the cloud's choice, never one of a living instance of the same
        subnet, nor one that a machine may still act on. */
    method ComputeCreate(req: InstanceRequest) returns (r: Result<Id>)
      requires Calls() && Slot().round.stage.Create?
      requires Asks(req, Slot().round.work.spec)
      modifies this
      ensures Valid() && old(trace) <= trace && Slot().controlPlane == old(Slot().controlPlane)
      ensures Slot().round == AfterCreate(old(Slot().round.before), old(Slot().round.work), r)
      ensures r.Ok? ==> r.value in fleet.vms && |fleet.vms[r.value].subnets| == |req.interfaces|
                        && forall i | 0 <= i < |req.interfaces| ::
                             fleet.vms[r.value].subnets[i] == req.interfaces[i].subnet
    {
      Interfere();
      var o: Outcome, id: Id, address: string := *, *, *;
      var reply := MReply(o, id, address);
      if !Possible(fleet, uid, reply) || !Assumed(fleet, MCall(uid, reply)) {
        reply := MReply(FailedBefore, "", "");
      }
      r := if reply.outcome == Success then Ok(reply.id) else Err;
      Take(reply);
    }

    /** No request could be built: nothing reaches the cloud. */
    method NoRequest()
      requires Calls() && Slot().round.stage.Create?
      modifies this
      ensures Valid() && old(trace) <= trace && Slot().controlPlane == old(Slot().controlPlane)
      ensures Slot().round == AfterCreate(old(Slot().round.before), old(Slot().round.work), Err)
      ensures fleet.vms == old(fleet.vms)
    {
      Take(MReply(FailedBefore, "", ""));
    }

    method ComputeDelete(id: Id) returns (ok: bool)
      requires Calls() && Slot().round.stage.DelVm? && id == InstanceIdOf(Slot().round.work)
      modifies this
      ensures Valid() && old(trace) <= trace && Slot().controlPlane == old(Slot().controlPlane)
      ensures Slot().round == AfterDelVm(old(Slot().round.before), old(Slot().round.work), ok)
    {
      Interfere();
      var r := Fate();
      ok := r.outcome == Success;
      Take(r);
    }

    method ALBTargetGroupGetByName() returns (r: Result<Option<TargetGroup>>)
      requires Calls() && (Slot().round.stage.RegGet? || Slot().round.stage.DeregGet?)
      modifies this
      ensures Valid() && old(trace) <= trace && Slot().controlPlane == old(Slot().controlPlane)
      ensures var was := old(Slot().round);
              Slot().round == if was.stage.RegGet? then AfterRegGet(was.before, was.work, r)
                              else AfterDeregGet(was.before, was.work, was.stage.gone, r)
    {
      Interfere();
      var reply := Fate();
      r := ReadTg(reply.outcome, fleet.tg);
      Take(reply);
    }

    /** The load balancer is of a type that is not implemented: nothing reaches the cloud. */
    method Unsupported()
      requires Calls() && (Slot().round.stage.RegGet? || Slot().round.stage.DeregGet?)
      modifies this
      ensures Valid() && old(trace) <= trace && Slot().controlPlane == old(Slot().controlPlane)
      ensures At(old(Slot().round.before), old(Slot().round.work), MClosing(MFailed)) && fleet.tg == old(fleet.tg)
    {
      Take(MReply(FailedBefore, "", ""));
    }

    method ALBAddTarget(id: Id, targets: seq<Target>) returns (ok: bool)
      requires Calls() && Slot().round.stage == RegAdd(id)
      requires Recorded(Slot().round.work).Some? && targets == [Recorded(Slot().round.work).value]
      modifies this
      ensures Valid() && old(trace) <= trace && Slot().controlPlane == old(Slot().controlPlane)
      ensures Slot().round == AfterRegAdd(old(Slot().round.before), old(Slot().round.work), ok)
    {
      Interfere();
      var r := Fate();
      ok := r.outcome == Success && IsTg(fleet.tg, id);
      Take(r);
    }

    method ALBRemoveTarget(id: Id, targets: seq<Target>) returns (ok: bool)
      requires Calls() && Slot().round.stage.DeregRemove? && Slot().round.stage.tg == id
      requires Recorded(Slot().round.work).Some? && targets == [Recorded(Slot().round.work).value]
      modifies this
      ensures Valid() && old(trace) <= trace && Slot().controlPlane == old(Slot().controlPlane)
      ensures Slot().round == AfterDeregRemove(old(Slot().round.before), old(Slot().round.work),
                old(Slot().round.stage.gone), ok)
    {
      Interfere();
      var r := Fate();
      ok := r.outcome == Success && IsTg(fleet.tg, id);
      SlotReach(uid, Local(Slot(), fleet.vms, fleet.tg), r);
      CallMovesRound(uid, Local(Slot(), fleet.vms, fleet.tg), r);
      Take(r);
    }
  }

  /** The copy of the object a round works on. */
  class MachineScope {
    const world: FleetWorld
    const before: Machine
    const controlPlane: bool
    const bootstrapped: bool
    var finalizer: bool
    var spec: MachineSpec
    var status: MachineStatus

    constructor (world: FleetWorld, m: Machine, controlPlane: bool, bootstrapped: bool)
      ensures this.world == world && before == m && Copy() == m
      ensures this.controlPlane == controlPlane && this.bootstrapped == bootstrapped
    {
      this.world, before, this.controlPlane, this.bootstrapped := world, m, controlPlane, bootstrapped;
      finalizer, spec, status := m.finalizer, m.spec, m.status;
    }

    function Copy(): Machine
      reads this
    {
      before.(finalizer := finalizer, spec := spec, status := status)
    }

    ghost predicate Ours()
      reads this, world
    {
      world.Calls() && world.Slot().controlPlane == controlPlane
    }

    /** The copy belongs to the round in flight, whose next call is `stage`. */
    ghost predicate In(stage: MStage)
      reads this, world
    {
      Ours() && world.At(before, Copy(), stage)
    }

    /** The copy belongs to the round in flight, which is `r`. */
    ghost predicate On(r: MRound)
      reads this, world
    {
      Ours() && world.Slot().round == r
    }

    function GetProviderID(): string
      reads this
    {
      if spec.providerId.Some? then spec.providerId.value else ""
    }

    function GetInstanceID(): (id: Id)
      reads this
      ensures id == InstanceIdOf(Copy())
    {
      TrimPrefix(GetProviderID(), PROVIDER_ID_PREFIX)
    }

    method SetProviderID(id: Id)
      modifies this`spec
      ensures Copy() == WithInstance(old(Copy()), id) && GetInstanceID() == id
    {
      ProviderIdRoundTrip(Copy(), id);
      spec := spec.(providerId := Some(PROVIDER_ID_PREFIX + id));
    }

    method SetAddresses(xs: seq<string>)
      modifies this`status
      ensures status == old(status).(addresses := xs)
    { status := status.(addresses := xs); }

    method SetInstanceStatus(s: InstanceStatus)
      modifies this`status
      ensures status == old(status).(instance := Some(s))
    { status := status.(instance := Some(s)); }

    method SetReady()
      modifies this`status
      ensures status == old(status).(ready := true)
    { status := status.(ready := true); }

    method SetFailure()
      modifies this`status
      ensures status == old(status).(failed := true)
    { status := status.(failed := true); }

    method MarkRunning(c: Condition)
      modifies this`status
      ensures status == old(status).(running := c)
    { status := status.(running := c); }

    method MarkProvisioning(c: Condition)
      modifies this`status
      ensures status == old(status).(provisioning := c)
    { status := status.(provisioning := c); }

    method MarkNotFound(c: Condition)
      modifies this`status
      ensures status == old(status).(notFound := c)
    { status := status.(notFound := c); }

    /** One requested interface for each interface of the spec, in order, with the same subnet,
        and an external address exactly where one is asked for. */
    method InterfaceRequests() returns (specs: seq<InterfaceRequest>)
      ensures |specs| == |spec.interfaces|
      ensures forall i | 0 <= i < |specs| ::
                specs[i].subnet == spec.interfaces[i].subnet
                    && (specs[i].external <==> spec.interfaces[i].publicIp == Some(true))
    {
      specs := [];
      for i := 0 to |spec.interfaces|
        invariant |specs| == i
        invariant forall j | 0 <= j < i ::
                    specs[j].subnet == spec.interfaces[j].subnet
                        && (specs[j].external <==> spec.interfaces[j].publicIp == Some(true))
      {
        var intf := spec.interfaces[i];
        var next := InterfaceRequest(intf.subnet, false);
        if intf.publicIp.Some? && intf.publicIp.value {
          next := next.(external := true);
        }
        specs := specs + [next];
      }
    }

    /** Fails when the bootstrap data cannot be read or a quantity does not parse. */
    method GetInstanceReq() returns (r: Result<InstanceRequest>)
      ensures r.Ok? ==> Asks(r.value, spec)
    {
      var readable: bool := *;
      if !readable {
        return Err;
      }
      var specs := InterfaceRequests();
      return Ok(InstanceRequest(specs, spec.others));
    }

    method PatchObject() returns (ok: bool)
      requires In(Patch(bootstrapped))
      modifies world
      ensures old(world.trace) <= world.trace && On(AfterPatch(before, Copy(), bootstrapped, ok))
    { ok := world.Patch(before, Copy()); }

    method Close() returns (ok: bool)
      requires exists v :: In(MClosing(v))
      modifies world
      ensures world.Valid() && old(world.trace) <= world.trace && world.Slot().round.Rest?
      ensures world.last == if ok then old(world.Slot().round.stage).verdict else MFailed
    {
      ghost var verdict := world.Slot().round.stage.verdict;
      ok := world.Patch(before, Copy());
      world.last := if ok then verdict else MFailed;
    }
  }

  /** The scanning loop over the targets of a group. */
  method IsAddressRegisteredALB(address: string, subnet: string, tg: TargetGroup) returns (found: bool)
    ensures found <==> Target(address, subnet) in tg.targets
  {
    for i := 0 to |tg.targets|
      invariant Target(address, subnet) !in tg.targets[..i]
    {
      if tg.targets[i].address == address && tg.targets[i].subnet == subnet {
        return true;
      }
    }
    return false;
  }

  /** Registration of targets, for the load balancer type of the cluster. */
  class TargetService {
    const scope: MachineScope
    const spec: LoadBalancerSpec

    constructor (scope: MachineScope, spec: LoadBalancerSpec)
      ensures this.scope == scope && this.spec == spec
    { this.scope, this.spec := scope, spec; }

    method Builder(t: Target) returns (builder: TargetGroupBuilder)
      ensures fresh(builder) && builder.ip == t.address && builder.subnet == t.subnet
    {
      builder := new TargetGroupBuilder(spec);
      builder.WithIP(t.address);
      builder.WithSubnetID(t.subnet);
    }

    method AddTarget(t: Target) returns (ok: bool)
      requires scope.In(RegGet) && Recorded(scope.Copy()) == Some(t)
      modifies scope.world
      ensures old(scope.world.trace) <= scope.world.trace
      ensures scope.On(if ok then ConcludeRunning(scope.before, scope.Copy())
                else InFlight(scope.before, scope.Copy(), MClosing(MFailed)))
      ensures spec.lbType != LB_TYPE_ALB ==> !ok && scope.world.fleet.tg == old(scope.world.fleet.tg)
    {
      if spec.lbType == LB_TYPE_ALB {
        ok := AddTargetALB(t);
      } else {
        scope.world.Unsupported();
        ok := false;
      }
    }

    method AddTargetALB(t: Target) returns (ok: bool)
      requires scope.In(RegGet) && Recorded(scope.Copy()) == Some(t)
      modifies scope.world
      ensures old(scope.world.trace) <= scope.world.trace
      ensures scope.On(if ok then ConcludeRunning(scope.before, scope.Copy())
                else InFlight(scope.before, scope.Copy(), MClosing(MFailed)))
    {
      var builder := Builder(t);
      var tg := scope.world.ALBTargetGroupGetByName();
      if tg.Err? || tg.value.None? {
        return false;
      }
      var registered := IsAddressRegisteredALB(t.address, t.subnet, tg.value.value);
      if registered {
        return true;
      }
      builder.WithTargetGroupID(tg.value.value.id);
      var group, targets := builder.BuildTargetRequest(t.address);
      ok := scope.world.ALBAddTarget(group, targets);
    }

    method RemoveTarget(t: Target, ghost gone: bool) returns (ok: bool)
      requires scope.In(DeregGet(gone)) && Recorded(scope.Copy()) == Some(t)
      modifies scope.world
      ensures old(scope.world.trace) <= scope.world.trace
      ensures scope.On(if ok then Deregistered(scope.before, scope.Copy(), gone)
                else InFlight(scope.before, scope.Copy(), MClosing(MFailed)))
      ensures spec.lbType != LB_TYPE_ALB ==> !ok && scope.world.fleet.tg == old(scope.world.fleet.tg)
    {
      if spec.lbType == LB_TYPE_ALB {
        ok := RemoveTargetALB(t, gone);
      } else {
        scope.world.Unsupported();
        ok := false;
      }
    }

    /** A group that is not there, or does not hold the target, is as good as a removal. */
    method RemoveTargetALB(t: Target, ghost gone: bool) returns (ok: bool)
      requires scope.In(DeregGet(gone)) && Recorded(scope.Copy()) == Some(t)
      modifies scope.world
      ensures old(scope.world.trace) <= scope.world.trace
      ensures scope.On(if ok then Deregistered(scope.before, scope.Copy(), gone)
                else InFlight(scope.before, scope.Copy(), MClosing(MFailed)))
    {
      var builder := Builder(t);
      var tg := scope.world.ALBTargetGroupGetByName();
      if tg.Err? {
        return false;
      }
      if tg.value.None? {
        return true;
      }
      var registered := IsAddressRegisteredALB(t.address, t.subnet, tg.value.value);
      if !registered {
        return true;
      }
      builder.WithTargetGroupID(tg.value.value.id);
      var group, targets := builder.BuildTargetRequest(t.address);
      ok := scope.world.ALBRemoveTarget(group, targets);
    }
  }

  /** The internal address of an instance; only one interface with an address is supported. */
  function GetInstanceAddress(vm: Vm): (r: Result<seq<string>>)
    ensures r.Ok? <==> HasPair(vm) && vm.address != ""
    ensures r.Ok? ==> r.value == [PairOf(vm).address]
  {
    if |vm.subnets| != 1 then Err
    else if vm.address == "" then Err
    else Ok([vm.address])
  }

  /** The address recorded for an instance, with the subnet of the first interface of the spec,
      is the pair the instance has in the cloud. */
  lemma RecordedAddressIsThePair(uid: Uid, m: Machine, vms: map<Id, Vm>)
    requires MachineOk(uid, m, vms) && m.spec.providerId.Some?
    requires GetInstanceAddress(vms[InstanceIdOf(m)]).Ok?
    ensures var address := GetInstanceAddress(vms[InstanceIdOf(m)]).value;
            Recorded(m.(status := m.status.(addresses := address))) == Some(PairOf(vms[InstanceIdOf(m)]))
  {
    assert Subnets(m.spec.interfaces)[0] == m.spec.interfaces[0].subnet;
  }

  class ComputeService {
    const scope: MachineScope
    const targets: TargetService

    constructor (scope: MachineScope, lb: LoadBalancerSpec)
      ensures this.scope == scope && targets.scope == scope
    {
      this.scope := scope;
      targets := new TargetService(scope, lb);
    }

    /** After success the instance status is set, and the round is about to act on it. */
    method Reconcile() returns (ok: bool)
      requires targets.scope == scope && !scope.before.deleting
      requires scope.In(if scope.GetInstanceID() == "" then Create else Get)
      modifies scope.world, scope`spec, scope`status
      ensures old(scope.world.trace) <= scope.world.trace
      ensures ok ==>
                && scope.status.instance.Some?
                && scope.On(Conclude(scope.before, scope.Copy(), scope.status.instance.value))
      ensures !ok ==> scope.In(MClosing(MFailed))
    {
      if scope.GetInstanceID() == "" {
        var created := CreateComputeInstance();
        if created.Err? {
          scope.MarkRunning(False);
          return false;
        }
        scope.SetProviderID(created.value);
      }
      ok := FindInstance();
    }

    /** Finds the instance, registers it when it runs, and sets the status. */
    method FindInstance() returns (ok: bool)
      requires targets.scope == scope && !scope.before.deleting && scope.In(Get)
      modifies scope.world, scope`status
      ensures old(scope.world.trace) <= scope.world.trace
      ensures ok ==>
                && scope.status.instance.Some?
                && scope.On(Conclude(scope.before, scope.Copy(), scope.status.instance.value))
      ensures !ok ==> scope.In(MClosing(MFailed))
    {
      var vm := scope.world.ComputeGet(scope.GetInstanceID());
      ok := Observe(vm);
    }

    method Observe(vm: Lookup) returns (ok: bool)
      requires targets.scope == scope && !scope.before.deleting
      requires scope.On(AfterGet(scope.before, scope.Copy(), scope.controlPlane, vm))
      modifies scope.world, scope`status
      ensures old(scope.world.trace) <= scope.world.trace
      ensures ok ==>
                && scope.status.instance.Some?
                && scope.On(Conclude(scope.before, scope.Copy(), scope.status.instance.value))
      ensures !ok ==> scope.In(MClosing(MFailed))
    {
      if vm.Missing? {
        ReportMissing();
        return true;
      }
      if vm.LookupError? {
        ReportUnknown();
        return false;
      }
      ok := ReportFound(vm.vm);
    }

    method ReportFound(vm: Vm) returns (ok: bool)
      requires targets.scope == scope && !scope.before.deleting
      requires scope.On(AfterGet(scope.before, scope.Copy(), scope.controlPlane, Found(vm)))
      modifies scope.world, scope`status
      ensures old(scope.world.trace) <= scope.world.trace
      ensures ok ==>
                && scope.status.instance.Some?
                && scope.On(Conclude(scope.before, scope.Copy(), scope.status.instance.value))
      ensures !ok ==> scope.In(MClosing(MFailed))
    {
      if vm.status == Running {
        ok := ReportRunning(vm);
        if !ok {
          return;
        }
      }
      scope.SetInstanceStatus(Reported(vm.status));
      return true;
    }

    method ReportMissing()
      modifies scope`status
      ensures scope.status == old(scope.status).(instance := Some(Deleted), notFound := True, provisioning := False,
                running := False)
    {
      scope.SetInstanceStatus(Deleted);
      scope.MarkNotFound(True);
      scope.MarkProvisioning(False);
      scope.MarkRunning(False);
    }

    method ReportUnknown()
      modifies scope`status
      ensures scope.status == old(scope.status).(provisioning := Unknown, running := Unknown)
    {
      scope.MarkProvisioning(Unknown);
      scope.MarkRunning(Unknown);
    }

    /** Records the address of a running instance and registers it on the control plane. */
    method ReportRunning(vm: Vm) returns (ok: bool)
      requires targets.scope == scope && !scope.before.deleting && vm.status == Running
      requires scope.On(AfterGet(scope.before, scope.Copy(), scope.controlPlane, Found(vm)))
      modifies scope.world, scope`status
      ensures old(scope.world.trace) <= scope.world.trace
      ensures ok ==> scope.On(Conclude(scope.before, scope.Copy(), Reported(Running)))
      ensures !ok ==> scope.In(MClosing(MFailed))
    {
      var address := GetInstanceAddress(vm);
      if address.Err? {
        scope.MarkRunning(False);
        return false;
      }
      scope.SetAddresses(address.value);
      if scope.controlPlane {
        ok := RegisterControlPlane();
        if !ok {
          return false;
        }
      }
      scope.MarkRunning(True);
      return true;
    }

    method CreateComputeInstance() returns (r: Result<Id>)
      requires scope.In(Create)
      modifies scope.world
      ensures old(scope.world.trace) <= scope.world.trace
      ensures scope.On(AfterCreate(scope.before, scope.Copy(), r))
    {
      var req := scope.GetInstanceReq();
      if req.Err? {
        scope.world.NoRequest();
        return Err;
      }
      r := scope.world.ComputeCreate(req.value);
    }

    /** The first interface is always there: an address is on record. */
    method RegisterControlPlane() returns (ok: bool)
      requires targets.scope == scope && scope.controlPlane && scope.status.addresses != []
      requires scope.Ours() && scope.world.Slot().round.before == scope.before
               && scope.world.Slot().round.work == scope.Copy()
      requires scope.On(if scope.spec.interfaces == [] then InFlight(scope.before, scope.Copy(), MClosing(MPanicked))
                 else InFlight(scope.before, scope.Copy(), RegGet))
      modifies scope.world
      ensures old(scope.world.trace) <= scope.world.trace
      ensures scope.On(if ok then ConcludeRunning(scope.before, scope.Copy())
                else InFlight(scope.before, scope.Copy(), MClosing(MFailed)))
    {
      scope.world.Safe();
      var address := scope.status.addresses[0];
      var subnet := scope.spec.interfaces[0].subnet;
      ok := targets.AddTarget(Target(address, subnet));
    }

    /** Does nothing for a machine without an address. */
    method DeregisterControlPlane(ghost gone: bool) returns (ok: bool)
      requires targets.scope == scope && scope.controlPlane
      requires scope.On(Deregister(scope.before, scope.Copy(), true, gone))
      modifies scope.world
      ensures old(scope.world.trace) <= scope.world.trace
      ensures scope.On(if ok then Deregistered(scope.before, scope.Copy(), gone)
                else InFlight(scope.before, scope.Copy(), MClosing(MFailed)))
    {
      if scope.status.addresses == [] {
        return true;
      }
      scope.world.Safe();
      var address := scope.status.addresses[0];
      var subnet := scope.spec.interfaces[0].subnet;
      ok := targets.RemoveTarget(Target(address, subnet), gone);
    }

    /** `Ok(true)` when the instance it knows is gone, or it knows none, and its target is gone. */
    method Delete() returns (r: Result<bool>)
      requires targets.scope == scope
      requires scope.On(MStart(scope.before, scope.bootstrapped)) && scope.Copy() == scope.before
               && scope.before.deleting
      modifies scope.world, scope`status
      ensures old(scope.world.trace) <= scope.world.trace
      ensures r == Ok(true) ==> scope.On(InFlight(scope.before, scope.Copy().(finalizer := false), MClosing(MDone)))
      ensures r == Ok(false) ==> scope.In(MClosing(MRequeueAfter))
      ensures r.Err? ==> scope.In(MClosing(MFailed))
    {
      var id := scope.GetInstanceID();
      if id == "" {
        return Ok(true);
      }
      var vm := scope.world.ComputeGet(id);
      if vm.LookupError? {
        return Err;
      }
      if vm.Missing? {
        if scope.controlPlane {
          var ok := DeregisterControlPlane(true);
          if !ok {
            return Err;
          }
        }
        return Ok(true);
      }
      scope.SetInstanceStatus(Reported(vm.vm.status));
      if vm.vm.status == DeletingVm {
        return Ok(false);
      }
      if scope.controlPlane {
        var ok := DeregisterControlPlane(false);
        if !ok {
          return Err;
        }
      }
      var ok := scope.world.ComputeDelete(id);
      return if ok then Ok(false) else Err;
    }
  }

  lemma ConcludeByCases(b: Machine, w: Machine, s: InstanceStatus)
    requires w.status.instance == Some(s)
    ensures Conclude(b, w, s) ==
            if s == Reported(StartingVm) || s == Reported(Provisioning) then InFlight(b, w, MClosing(MRequeueAfter))
            else if s == Reported(Running) then InFlight(b, w.(status := w.status.(ready := true)), MClosing(MDone))
            else InFlight(b, w.(status := w.status.(failed := true)), MClosing(MRequeueAfter))
  {
    assert w.(status := w.status.(instance := Some(s))) == w;
  }

  class YandexMachineReconciler {
    const world: FleetWorld

    constructor (world: FleetWorld)
      ensures this.world == world
    { this.world := world; }

    /** One reconcile of the object, from reading it to the deferred patch. Whatever fails and
        whoever interferes, it is a run of the fleet that ends between rounds and never
        panics. It answers with the verdict of its round, or MFailed when the last patch fails.
        `lb` is the load balancer spec of the cluster. */
    method Reconcile(lb: LoadBalancerSpec) returns (v: MVerdict, ghost ran: bool)
      requires world.Valid() && world.Slot().round.Rest?
      modifies world
      ensures world.Valid() && old(world.trace) <= world.trace && world.Slot().round.Rest?
      ensures v != MPanicked && FleetInv(world.fleet)
      ensures v == if ran then world.last else MDone
    {
      var m, controlPlane, bootstrapped := world.Get();
      if m.None? {
        world.Sound();
        return MDone, false;
      }
      ran := true;
      var scope := new MachineScope(world, m.value, controlPlane, bootstrapped);
      v := HandleDeletionOrNot(scope, lb);
      var ok := scope.Close();
      if !ok {
        v := MFailed;
      }
      world.Sound();
    }

    /** Handles deleted machines apart from the others. */
    method HandleDeletionOrNot(scope: MachineScope, lb: LoadBalancerSpec) returns (v: MVerdict)
      requires scope.world == world && scope.Copy() == scope.before
      requires scope.On(MStart(scope.before, scope.bootstrapped))
      modifies world, scope
      ensures old(world.trace) <= world.trace && scope.In(MClosing(v)) && v != MPanicked
    {
      if scope.before.deleting {
        v := ReconcileDelete(scope, lb);
      } else {
        v := ReconcileNormal(scope, lb);
      }
      world.NoPanic();
    }

    method ReconcileNormal(scope: MachineScope, lb: LoadBalancerSpec) returns (v: MVerdict)
      requires scope.world == world && scope.Copy() == scope.before && !scope.before.deleting
      requires scope.On(MStart(scope.before, scope.bootstrapped))
      modifies world, scope
      ensures old(world.trace) <= world.trace && scope.In(MClosing(v))
    {
      scope.finalizer := true;
      var ok := scope.PatchObject();
      if !ok {
        return MFailed;
      }
      if !scope.bootstrapped {
        return MDone;
      }
      var compute := new ComputeService(scope, lb);
      ok := compute.Reconcile();
      if !ok {
        return MFailed;
      }
      v := ActOnStatus(scope);
    }

    /** The switch over the instance status, which a successful compute part has set. */
    method ActOnStatus(scope: MachineScope) returns (v: MVerdict)
      requires scope.world == world && scope.status.instance.Some?
      requires scope.On(Conclude(scope.before, scope.Copy(), scope.status.instance.value))
      modifies scope
      ensures scope.In(MClosing(v))
    {
      var state := scope.status.instance.value;
      ConcludeByCases(scope.before, scope.Copy(), state);
      if state == Reported(StartingVm) || state == Reported(Provisioning) {
        return MRequeueAfter;
      } else if state == Reported(Running) {
        scope.SetReady();
        return MDone;
      } else {
        scope.SetFailure();
        return MRequeueAfter;
      }
    }

    method ReconcileDelete(scope: MachineScope, lb: LoadBalancerSpec) returns (v: MVerdict)
      requires scope.world == world && scope.Copy() == scope.before && scope.before.deleting
      requires scope.On(MStart(scope.before, scope.bootstrapped))
      modifies world, scope
      ensures old(world.trace) <= world.trace && scope.In(MClosing(v))
    {
      var compute := new ComputeService(scope, lb);
      var deleted := compute.Delete();
      if deleted.Err? {
        return MFailed;
      }
      if deleted.value {
        scope.finalizer := false;
        return MDone;
      }
      return MRequeueAfter;
    }
  }
}
