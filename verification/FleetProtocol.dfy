/** The YandexMachine controller as a state machine, for any number of machines that share
    one target group. Rounds of different machines interleave call by call. */
module FleetProtocol {
  import opened Basics
  import opened AlbCloud

  type Uid = nat

  const PROVIDER_ID_PREFIX := "yandex://"

  // ---- instances in the cloud ----

  datatype VmStatus =
    | Provisioning | Running | Stopping | StoppedVm | StartingVm | Restarting
    | Updating | Erroneous | Crashed | DeletingVm | Unspecified

  /** `subnets` lists the subnets of the interfaces; `address` is the internal address of the
      first. `alive` turns false when the instance is gone, and its id is never used again. */
  datatype Vm = Vm(owner: Uid, subnets: seq<string>, address: string, status: VmStatus, alive: bool)

  /** The status recorded on a machine: one of the cloud's, or DELETED. */
  datatype InstanceStatus = Reported(status: VmStatus) | Deleted

  // ---- machines in the API server ----

  datatype Interface = Interface(subnet: string, publicIp: Option<bool>)

  /** `others` stands for the rest of the spec. */
  datatype MachineSpec = MachineSpec(providerId: Option<string>, interfaces: seq<Interface>, others: string)

  datatype MachineStatus = MachineStatus(
    ready: bool,
    addresses: seq<string>,
    instance: Option<InstanceStatus>,
    failed: bool,
    running: Condition,
    provisioning: Condition,
    notFound: Condition)

  const NEW_MACHINE_STATUS := MachineStatus(false, [], None, false, Unset, Unset, Unset)

  datatype Machine = Machine(finalizer: bool, held: bool, deleting: bool, spec: MachineSpec, status: MachineStatus)

  /** The update webhook lets nothing but the provider id change. */
  predicate AdmitsMachineUpdate(old_: MachineSpec, new_: MachineSpec) {
    new_.(providerId := old_.providerId) == old_
  }

  function TrimPrefix(s: string, prefix: string): string {
    if prefix <= s then s[|prefix|..] else s
  }

  /** The instance id read back from the provider id, empty when there is none. */
  function InstanceIdOf(m: Machine): Id {
    TrimPrefix(if m.spec.providerId.Some? then m.spec.providerId.value else "", PROVIDER_ID_PREFIX)
  }

  function WithInstance(m: Machine, id: Id): Machine {
    m.(spec := m.spec.(providerId := Some(PROVIDER_ID_PREFIX + id)))
  }

  /** What the machine is registered with: its first address and the subnet of its first interface. */
  function Recorded(m: Machine): Option<Target> {
    if m.status.addresses != [] && m.spec.interfaces != []
    then Some(Target(m.status.addresses[0], m.spec.interfaces[0].subnet)) else None
  }

  function Subnets(xs: seq<Interface>): seq<string> {
    seq(|xs|, i requires 0 <= i < |xs| => xs[i].subnet)
  }

  // ---- rounds ----

  datatype MVerdict = MDone | MRequeueAfter | MFailed | MPanicked

  /** The call a round makes next. `gone` says that the instance was not found. */
  datatype MStage =
    | Patch(bootstrapped: bool)
    | Create
    | Get
    | RegGet
    | RegAdd(tg: Id)
    | DelGet
    | DeregGet(gone: bool)
    | DeregRemove(tg: Id, gone: bool)
    | DelVm
    | MClosing(verdict: MVerdict)

  datatype MRound = Rest | InFlight(before: Machine, work: Machine, stage: MStage)

  /** A machine object with the facts of its owner. `lost` counts the instances whose id never
      reached the object: it grows only when a create or a patch of a round goes wrong. */
  datatype Slot = Slot(
    controlPlane: bool,
    bootstrapped: bool,
    present: bool,
    obj: Machine,
    round: MRound,
    lost: nat)

  datatype Fleet = Fleet(
    slots: map<Uid, Slot>,
    vms: map<Id, Vm>,
    tg: Option<TargetGroup>,
    tgLost: bool)

  datatype MReply = MReply(outcome: Outcome, id: Id, address: string)

  datatype FleetAction =
    | MBegin(uid: Uid)
    | MCall(uid: Uid, reply: MReply)
    | MCrash(uid: Uid)
    | NewMachine(uid: Uid, controlPlane: bool, spec: MachineSpec)
    | BootstrapReady(uid: Uid)
    | MUserEdit(uid: Uid, spec: MachineSpec)
    | MUserDelete(uid: Uid)
    | MHold(uid: Uid, on: bool)
    | VmMoves(id: Id, status: VmStatus)
    | VmGone(id: Id)
    | TgAppears(id: Id)
    | TgDisappears

  function MStart(m: Machine, bootstrapped: bool): MRound {
    if m.deleting then
      if InstanceIdOf(m) == "" then InFlight(m, m.(finalizer := false), MClosing(MDone)) else InFlight(m, m, DelGet)
    else InFlight(m, m.(finalizer := true), Patch(bootstrapped))
  }

  function AfterPatch(b: Machine, w: Machine, bootstrapped: bool, ok: bool): (r': MRound)
    ensures r'.InFlight? && r'.before == b && r'.work.spec == w.spec && Recorded(r'.work) == Recorded(w)
  {
    if !ok then InFlight(b, w, MClosing(MFailed))
    else if !bootstrapped then InFlight(b, w, MClosing(MDone))
    else InFlight(b, w, if InstanceIdOf(w) == "" then Create else Get)
  }

  function AfterCreate(b: Machine, w: Machine, r: Result<Id>): MRound {
    match r
    case Err => InFlight(b, w.(status := w.status.(running := False)), MClosing(MFailed))
    case Ok(id) => InFlight(b, WithInstance(w, id), Get)
  }

  datatype Lookup = Found(vm: Vm) | Missing | LookupError

  /** The compute part of the round is over: the status decides about Ready and failure. */
  function Conclude(b: Machine, w: Machine, s: InstanceStatus): (r': MRound)
    ensures r'.InFlight? && r'.before == b && r'.work.spec == w.spec && Recorded(r'.work) == Recorded(w)
  {
    var w1 := w.(status := w.status.(instance := Some(s)));
    match s
    case Reported(StartingVm) => InFlight(b, w1, MClosing(MRequeueAfter))
    case Reported(Provisioning) => InFlight(b, w1, MClosing(MRequeueAfter))
    case Reported(Running) => InFlight(b, w1.(status := w1.status.(ready := true)), MClosing(MDone))
    case _ => InFlight(b, w1.(status := w1.status.(failed := true)), MClosing(MRequeueAfter))
  }

  function ConcludeRunning(b: Machine, w: Machine): (r': MRound)
    ensures r'.InFlight? && r'.before == b && r'.work.spec == w.spec && Recorded(r'.work) == Recorded(w)
  {
    Conclude(b, w.(status := w.status.(running := True)), Reported(Running))
  }

  function AfterGet(b: Machine, w: Machine, controlPlane: bool, r: Lookup): (r': MRound)
    ensures r'.InFlight? && r'.before == b && r'.work.spec == w.spec
  {
    match r
    case Missing =>
      Conclude(b, w.(status := w.status.(notFound := True, provisioning := False, running := False)), Deleted)
    case LookupError =>
      InFlight(b, w.(status := w.status.(provisioning := Unknown, running := Unknown)), MClosing(MFailed))
    case Found(vm) =>
      if vm.status != Running then Conclude(b, w, Reported(vm.status))
      else if |vm.subnets| != 1 || vm.address == "" then
        InFlight(b, w.(status := w.status.(running := False)), MClosing(MFailed))
      else
        var w1 := w.(status := w.status.(addresses := [vm.address]));
        if !controlPlane then ConcludeRunning(b, w1)
        else if w1.spec.interfaces == [] then InFlight(b, w1, MClosing(MPanicked))
        else InFlight(b, w1, RegGet)
  }

  function AfterRegGet(b: Machine, w: Machine, r: Result<Option<TargetGroup>>): (r': MRound)
    ensures r'.InFlight? && r'.before == b && r'.work.spec == w.spec && Recorded(r'.work) == Recorded(w)
  {
    match r
    case Err => InFlight(b, w, MClosing(MFailed))
    case Ok(None) => InFlight(b, w, MClosing(MFailed))
    case Ok(Some(tg)) =>
      if Recorded(w).Some? && Recorded(w).value in tg.targets then ConcludeRunning(b, w)
      else InFlight(b, w, RegAdd(tg.id))
  }

  function AfterRegAdd(b: Machine, w: Machine, ok: bool): (r': MRound)
    ensures r'.InFlight? && r'.before == b && r'.work.spec == w.spec && Recorded(r'.work) == Recorded(w)
  {
    if ok then ConcludeRunning(b, w) else InFlight(b, w, MClosing(MFailed))
  }

  /** After deregistration: drop the finalizer of an instance that is gone, or delete it. */
  function Deregistered(b: Machine, w: Machine, gone: bool): (r': MRound)
    ensures r'.InFlight? && r'.before == b && r'.work.spec == w.spec && Recorded(r'.work) == Recorded(w)
  {
    if gone then InFlight(b, w.(finalizer := false), MClosing(MDone)) else InFlight(b, w, DelVm)
  }

  function Deregister(b: Machine, w: Machine, controlPlane: bool, gone: bool): (r': MRound)
    ensures r'.InFlight? && r'.before == b && r'.work.spec == w.spec && Recorded(r'.work) == Recorded(w)
  {
    if !controlPlane || w.status.addresses == [] then Deregistered(b, w, gone)
    else if w.spec.interfaces == [] then InFlight(b, w, MClosing(MPanicked))
    else InFlight(b, w, DeregGet(gone))
  }

  function AfterDelGet(b: Machine, w: Machine, controlPlane: bool, r: Lookup): (r': MRound)
    ensures r'.InFlight? && r'.before == b && r'.work.spec == w.spec && Recorded(r'.work) == Recorded(w)
  {
    match r
    case LookupError => InFlight(b, w, MClosing(MFailed))
    case Missing => Deregister(b, w, controlPlane, true)
    case Found(vm) =>
      var w1 := w.(status := w.status.(instance := Some(Reported(vm.status))));
      if vm.status == DeletingVm then InFlight(b, w1, MClosing(MRequeueAfter))
      else Deregister(b, w1, controlPlane, false)
  }

  function AfterDeregGet(b: Machine, w: Machine, gone: bool, r: Result<Option<TargetGroup>>): (r': MRound)
    ensures r'.InFlight? && r'.before == b && r'.work.spec == w.spec && Recorded(r'.work) == Recorded(w)
  {
    match r
    case Err => InFlight(b, w, MClosing(MFailed))
    case Ok(None) => Deregistered(b, w, gone)
    case Ok(Some(tg)) =>
      if Recorded(w).Some? && Recorded(w).value in tg.targets then InFlight(b, w, DeregRemove(tg.id, gone))
      else Deregistered(b, w, gone)
  }

  function AfterDeregRemove(b: Machine, w: Machine, gone: bool, ok: bool): (r': MRound)
    ensures r'.InFlight? && r'.before == b && r'.work.spec == w.spec && Recorded(r'.work) == Recorded(w)
  {
    if ok then Deregistered(b, w, gone) else InFlight(b, w, MClosing(MFailed))
  }

  function AfterDelVm(b: Machine, w: Machine, ok: bool): (r': MRound)
    ensures r'.InFlight? && r'.before == b && r'.work.spec == w.spec && Recorded(r'.work) == Recorded(w)
  {
    InFlight(b, w, MClosing(if ok then MRequeueAfter else MFailed))
  }

  // ---- patches ----

  function MMerge(stored: Machine, b: Machine, w: Machine): Machine {
    stored.(
    finalizer := if w.finalizer != b.finalizer then w.finalizer else stored.finalizer,
    spec := stored.spec.(providerId := if w.spec.providerId != b.spec.providerId then w.spec.providerId
        else stored.spec.providerId),
    status := if w.status != b.status then w.status else stored.status)
  }

  predicate Accepts(slot: Slot, b: Machine, w: Machine) {
    slot.present && !(slot.obj.deleting && MMerge(slot.obj, b, w).finalizer && !slot.obj.finalizer)
  }

  /** Stores an object, or drops it once it is being deleted and no finalizer is left. */
  function Store(slot: Slot, m: Machine): Slot {
    slot.(obj := m, present := !(m.deleting && !m.finalizer && !m.held))
  }

  /** A round ends without its last patch: an instance id only it knew is lost. */
  function Forgotten(slot: Slot): Slot
    requires slot.round.InFlight?
  {
    var b, w := slot.round.before, slot.round.work;
    slot.(round := Rest, lost := slot.lost + if w.spec.providerId != b.spec.providerId then 1 else 0)
  }

  // ---- one call of one machine, on its slot, the instances and the target group ----

  datatype Local = Local(slot: Slot, vms: map<Id, Vm>, tg: Option<TargetGroup>)

  function LookUp(o: Outcome, vms: map<Id, Vm>, id: Id): Lookup {
    if o != Success then LookupError
    else if id in vms && vms[id].alive then Found(vms[id]) else Missing
  }

  function ReadTg(o: Outcome, tg: Option<TargetGroup>): Result<Option<TargetGroup>> {
    if o == Success then Ok(tg) else Err
  }

  function AddTarget(tg: Option<TargetGroup>, t: Target): Option<TargetGroup> {
    if tg.Some? then Some(tg.value.(targets := tg.value.targets + [t])) else None
  }

  function Remove(ts: seq<Target>, t: Target): seq<Target> {
    if ts == [] then [] else if ts[0] == t then Remove(ts[1..], t) else [ts[0]] + Remove(ts[1..], t)
  }

  function RemoveTarget(tg: Option<TargetGroup>, t: Target): Option<TargetGroup> {
    if tg.Some? then Some(tg.value.(targets := Remove(tg.value.targets, t))) else None
  }

  /** The target group still is the one with this id. */
  predicate IsTg(tg: Option<TargetGroup>, id: Id) { tg.Some? && tg.value.id == id }

  function Moved(slot: Slot, r: MRound): Slot { slot.(round := r) }

  function NewVm(uid: Uid, w: Machine, address: string): Vm {
    Vm(uid, Subnets(w.spec.interfaces), address, Provisioning, true)
  }

  function CallLocal(uid: Uid, l: Local, r: MReply): Local
    requires l.slot.round.InFlight?
  {
    var InFlight(b, w, stage) := l.slot.round;
    var ok := r.outcome == Success;
    var eff := r.outcome.Effective();
    match stage
    case Patch(boot) =>
      var slot := if eff && Accepts(l.slot, b, w) then Store(l.slot, MMerge(l.slot.obj, b, w)) else l.slot;
      l.(slot := Moved(slot, AfterPatch(b, w, boot, ok && Accepts(l.slot, b, w))))
    case Create =>
      Local(Moved(l.slot.(lost := l.slot.lost + if eff && !ok then 1 else 0),
                  AfterCreate(b, w, if ok then Ok(r.id) else Err)),
            if eff then l.vms[r.id := NewVm(uid, w, r.address)] else l.vms, l.tg)
    case Get => l.(slot := Moved(l.slot,
        AfterGet(b, w, l.slot.controlPlane, LookUp(r.outcome, l.vms, InstanceIdOf(w)))))
    case RegGet => l.(slot := Moved(l.slot, AfterRegGet(b, w, ReadTg(r.outcome, l.tg))))
    case RegAdd(id) =>
      var done := IsTg(l.tg, id) && Recorded(w).Some?;
      l.(slot := Moved(l.slot, AfterRegAdd(b, w, ok && done)),
         tg := if eff && done then AddTarget(l.tg, Recorded(w).value) else l.tg)
    case DelGet => l.(slot := Moved(l.slot,
        AfterDelGet(b, w, l.slot.controlPlane, LookUp(r.outcome, l.vms, InstanceIdOf(w)))))
    case DeregGet(gone) => l.(slot := Moved(l.slot, AfterDeregGet(b, w, gone, ReadTg(r.outcome, l.tg))))
    case DeregRemove(id, gone) =>
      var done := IsTg(l.tg, id) && Recorded(w).Some?;
      l.(slot := Moved(l.slot, AfterDeregRemove(b, w, gone, ok && done)),
         tg := if eff && done then RemoveTarget(l.tg, Recorded(w).value) else l.tg)
    case DelVm =>
      var id := InstanceIdOf(w);
      l.(slot := Moved(l.slot, AfterDelVm(b, w, ok)),
         vms := if eff && id in l.vms then l.vms[id := l.vms[id].(status := DeletingVm)] else l.vms)
    case MClosing(_) =>
      l.(slot := if eff && Accepts(l.slot, b, w) then Store(l.slot, MMerge(l.slot.obj, b, w)).(round := Rest)
                 else Forgotten(l.slot))
  }

  // ---- the whole fleet ----

  /** A create that takes effect needs a new id that is not empty; every other call is always
      possible. */
  predicate Possible(f: Fleet, uid: Uid, r: MReply) {
    && uid in f.slots && f.slots[uid].round.InFlight?
    && (f.slots[uid].round.stage.Create? && r.outcome.Effective() ==> r.id != "" && r.id !in f.vms)
  }

  function FleetApply(f: Fleet, a: FleetAction): Fleet {
    match a
    case MBegin(uid) =>
      if uid in f.slots && f.slots[uid].present && f.slots[uid].round.Rest?
      then f.(slots := f.slots[uid := Moved(f.slots[uid], MStart(f.slots[uid].obj, f.slots[uid].bootstrapped))]) else f
    case MCall(uid, r) =>
      if Possible(f, uid, r) then
        var l := CallLocal(uid, Local(f.slots[uid], f.vms, f.tg), r);
        f.(slots := f.slots[uid := l.slot], vms := l.vms, tg := l.tg)
      else f
    case MCrash(uid) =>
      if uid in f.slots && f.slots[uid].round.InFlight?
      then f.(slots := f.slots[uid := Forgotten(f.slots[uid])]) else f
    case NewMachine(uid, cp, spec) =>
      if uid !in f.slots
      then f.(slots := f.slots[uid := Slot(cp, false, true, Machine(false, false, false, spec, NEW_MACHINE_STATUS),
             Rest, 0)])
      else f
    case BootstrapReady(uid) =>
      if uid in f.slots then f.(slots := f.slots[uid := f.slots[uid].(bootstrapped := true)]) else f
    case MUserEdit(uid, spec) =>
      if uid in f.slots && f.slots[uid].present && AdmitsMachineUpdate(f.slots[uid].obj.spec, spec)
      then f.(slots := f.slots[uid := f.slots[uid].(obj := f.slots[uid].obj.(spec := spec))]) else f
    case MUserDelete(uid) =>
      if uid in f.slots && f.slots[uid].present
      then f.(slots := f.slots[uid := Store(f.slots[uid], f.slots[uid].obj.(deleting := true))]) else f
    case MHold(uid, on) =>
      if uid in f.slots && f.slots[uid].present && (on ==> !f.slots[uid].obj.deleting)
      then f.(slots := f.slots[uid := Store(f.slots[uid], f.slots[uid].obj.(held := on))]) else f
    case VmMoves(id, status) =>
      if id in f.vms && f.vms[id].status != DeletingVm
      then f.(vms := f.vms[id := f.vms[id].(status := status)]) else f
    case VmGone(id) =>
      if id in f.vms then f.(vms := f.vms[id := f.vms[id].(alive := false)]) else f
    case TgAppears(id) =>
      if f.tg.None? then f.(tg := Some(TargetGroup(id, [], false))) else f
    case TgDisappears => if f.tg.Some? then f.(tg := None, tgLost := true) else f
  }

  function FleetRun(f: Fleet, acts: seq<FleetAction>): Fleet {
    if acts == [] then f else FleetApply(FleetRun(f, acts[..|acts| - 1]), acts[|acts| - 1])
  }

  /** The pair an instance with one interface is registered under. */
  predicate HasPair(v: Vm) { |v.subnets| == 1 }

  function PairOf(v: Vm): Target
    requires HasPair(v)
  {
    Target(v.address, v.subnets[0])
  }

  /** The machine may still act on this target: it is on record in its object, or in the copy
      of its round. */
  predicate Claims(slot: Slot, t: Target) {
    && slot.controlPlane
    && ((slot.present && Recorded(slot.obj) == Some(t))
        || (slot.round.InFlight? && Recorded(slot.round.work) == Some(t)))
  }

  predicate Occupied(vms: map<Id, Vm>, t: Target) {
    exists id <- vms :: vms[id].alive && HasPair(vms[id]) && PairOf(vms[id]) == t
  }

  predicate Claimed(slots: map<Uid, Slot>, t: Target) {
    exists uid <- slots :: Claims(slots[uid], t)
  }

  /** What the code relies on and does not check: a new instance is not given the address of a
      living one in its subnet, nor one that a machine may still act on; a user leaves the
      provider id alone, and a new machine comes without one. */
  predicate Assumed(f: Fleet, a: FleetAction) {
    match a
    case MCall(uid, r) =>
      Possible(f, uid, r) && f.slots[uid].round.stage.Create? && r.outcome.Effective() ==>
        var v := NewVm(uid, f.slots[uid].round.work, r.address);
        HasPair(v) ==> !Occupied(f.vms, PairOf(v)) && !Claimed(f.slots, PairOf(v))
    case NewMachine(uid, _, spec) => spec.providerId.None?
    case MUserEdit(uid, spec) => uid in f.slots ==> spec.providerId == f.slots[uid].obj.spec.providerId
    case _ => true
  }

  predicate AssumedAlways(f: Fleet, acts: seq<FleetAction>) {
    acts == [] ||
    (AssumedAlways(f, acts[..|acts| - 1]) && Assumed(FleetRun(f, acts[..|acts| - 1]), acts[|acts| - 1]))
  }

  const NO_FLEET := Fleet(map[], map[], None, false)
}
