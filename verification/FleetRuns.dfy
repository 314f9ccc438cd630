/** Runs from the empty fleet that show that each loss happens. */
module FleetRuns {
  import opened Basics
  import opened AlbCloud
  import opened FleetProtocol
  import opened FleetSafety
  import opened FleetTheorems
  import opened FleetTargets
  import opened FleetRounds
  import opened FleetLosses

  // ---- stepping through a run ----

  predicate Leads(acts: seq<FleetAction>, f: Fleet) { FleetRun(NO_FLEET, acts) == f && AssumedAlways(NO_FLEET, acts) }

  lemma Next(acts: seq<FleetAction>, f: Fleet, a: FleetAction)
    requires Leads(acts, f) && Assumed(f, a)
    ensures Leads(acts + [a], FleetApply(f, a))
  {
    assert (acts + [a])[..|acts|] == acts;
  }

  const OK := MReply(Success, "", "")
  const SPEC := MachineSpec(None, [Interface("subnet", None)], "")
  const M0 := Machine(false, false, false, SPEC, NEW_MACHINE_STATUS)
  const M1 := M0.(finalizer := true)

  /** A fleet of the machine 0. */
  function Solo(slot: Slot, vms: map<Id, Vm>, tg: Option<TargetGroup>): Fleet {
    Fleet(map[0 := slot], vms, tg, false)
  }

  function SlotOf(obj: Machine, round: MRound): Slot { Slot(true, true, true, obj, round, 0) }

  const BORN := [NewMachine(0, true, SPEC), BootstrapReady(0), MBegin(0), MCall(0, OK)]

  /** The first round of a new machine has stored the finalizer and is about to create. */
  lemma Born()
    ensures Leads(BORN, Solo(SlotOf(M1, InFlight(M0, M1, Create)), map[], None))
  {
    var f0 := NO_FLEET;
    assert Leads([], f0);
    Next([], f0, BORN[0]);
    var f1 := Solo(Slot(true, false, true, M0, Rest, 0), map[], None);
    assert FleetApply(f0, BORN[0]) == f1;
    Next([BORN[0]], f1, BORN[1]);
    var f2 := Solo(SlotOf(M0, Rest), map[], None);
    assert FleetApply(f1, BORN[1]) == f2;
    Next([BORN[0]] + [BORN[1]], f2, BORN[2]);
    var f3 := Solo(SlotOf(M0, InFlight(M0, M1, Patch(true))), map[], None);
    assert FleetApply(f2, BORN[2]) == f3;
    Next([BORN[0]] + [BORN[1]] + [BORN[2]], f3, BORN[3]);
    assert MMerge(M0, M0, M1) == M1;
    assert FleetApply(f3, BORN[3]) == Solo(SlotOf(M1, InFlight(M0, M1, Create)), map[], None);
    assert [BORN[0]] + [BORN[1]] + [BORN[2]] + [BORN[3]] == BORN;
  }

  datatype InstanceLoss = CreateReportsFailure | Crash | PatchFails

  const MADE := MReply(Success, "a", "10.0.0.1")

  /** A first round that makes an instance and loses it, in each of the three ways. */
  function LosingRun(how: InstanceLoss): seq<FleetAction> {
    match how
    case CreateReportsFailure => BORN + [MCall(0, MADE.(outcome := FailedAfter))] + [MCall(0, OK)]
    case Crash => BORN + [MCall(0, MADE)] + [MCrash(0)]
    case PatchFails => BORN + [MCall(0, MADE)] + [MCall(0, OK)] + [MCall(0, OK.(outcome := FailedBefore))]
  }

  const VM := Vm(0, ["subnet"], "10.0.0.1", Provisioning, true)

  const VMS := map["a" := VM]
  const W1 := M1.(spec := SPEC.(providerId := Some(PROVIDER_ID_PREFIX + "a")))

  lemma Made()
    ensures Leads(BORN + [MCall(0, MADE)], Solo(SlotOf(M1, InFlight(M0, W1, Get)), VMS, None))
    ensures InstanceIdOf(W1) == "a"
  {
    Born();
    assert Subnets(SPEC.interfaces) == ["subnet"];
    Next(BORN, Solo(SlotOf(M1, InFlight(M0, M1, Create)), map[], None), MCall(0, MADE));
    ProviderIdRoundTrip(M1, "a");
    assert WithInstance(M1, "a") == W1;
  }

  const P1 := W1.(status := NEW_MACHINE_STATUS.(instance := Some(Reported(Provisioning))))

  lemma Provisioned()
    ensures Leads(BORN + [MCall(0, MADE)] + [MCall(0, OK)],
                  Solo(SlotOf(M1, InFlight(M0, P1, MClosing(MRequeueAfter))), VMS, None))
  {
    Made();
    Next(BORN + [MCall(0, MADE)], Solo(SlotOf(M1, InFlight(M0, W1, Get)), VMS, None), MCall(0, OK));
  }

  const CREATE_FAILS := MCall(0, MADE.(outcome := FailedAfter))
  const F1 := M1.(status := NEW_MACHINE_STATUS.(running := False))

  lemma CreateFails()
    ensures Leads(BORN + [CREATE_FAILS], Solo(SlotOf(M1, InFlight(M0, F1, MClosing(MFailed))).(lost := 1), VMS, None))
  {
    Born();
    assert Subnets(SPEC.interfaces) == ["subnet"];
    Next(BORN, Solo(SlotOf(M1, InFlight(M0, M1, Create)), map[], None), CREATE_FAILS);
  }

  /** The object that is stored after the losing step: it has no provider id. */
  function Stored(how: InstanceLoss): Machine { if how.CreateReportsFailure? then F1 else M1 }

  function Lost(how: InstanceLoss): Fleet { Solo(SlotOf(Stored(how), Rest).(lost := 1), VMS, None) }

  lemma FailureIsStored()
    ensures FleetApply(Solo(SlotOf(M1, InFlight(M0, F1, MClosing(MFailed))).(lost := 1), VMS, None), MCall(0, OK)) ==
            Lost(CreateReportsFailure)
  {
    assert MMerge(M1, M0, F1) == F1;
  }

  lemma LosingRunEnds(how: InstanceLoss)
    ensures Leads(LosingRun(how), Lost(how))
  {
    match how
    case CreateReportsFailure =>
      CreateFails();
      FailureIsStored();
      Next(BORN + [CREATE_FAILS], Solo(SlotOf(M1, InFlight(M0, F1, MClosing(MFailed))).(lost := 1), VMS, None),
           MCall(0, OK));
    case Crash =>
      Made();
      CrashForgets();
      Next(BORN + [MCall(0, MADE)], Solo(SlotOf(M1, InFlight(M0, W1, Get)), VMS, None), MCrash(0));
    case PatchFails =>
      Provisioned();
      FailedPatchForgets();
      Next(BORN + [MCall(0, MADE)] + [MCall(0, OK)],
           Solo(SlotOf(M1, InFlight(M0, P1, MClosing(MRequeueAfter))), VMS, None),
           MCall(0, OK.(outcome := FailedBefore)));
  }

  lemma CrashForgets()
    ensures FleetApply(Solo(SlotOf(M1, InFlight(M0, W1, Get)), VMS, None), MCrash(0)) == Lost(Crash)
  {
  }

  lemma FailedPatchForgets()
    ensures FleetApply(Solo(SlotOf(M1, InFlight(M0, P1, MClosing(MRequeueAfter))), VMS, None),
                       MCall(0, OK.(outcome := FailedBefore))) == Lost(PatchFails)
  {
  }

  const AGAIN := MReply(Success, "b", "10.0.0.2")

  function SecondInstanceRun(how: InstanceLoss): seq<FleetAction> {
    LosingRun(how) + [MBegin(0)] + [MCall(0, OK)] + [MCall(0, AGAIN)]
  }

  /** Each way to lose an instance occurs in a run from the empty fleet with one losing step, in
      which the next round makes a second instance. */
  lemma SecondInstanceIsReached(how: InstanceLoss)
    ensures AssumedAlways(NO_FLEET, SecondInstanceRun(how))
    ensures InstanceLosses(LosingRun(how), 0) == 1
    ensures |Owned(FleetRun(NO_FLEET, SecondInstanceRun(how)).vms, 0)| == 2
  {
    LosingRunEnds(how);
    LossesAreExact(LosingRun(how), 0);
    BeginsAgain(how);
    CreatesAgain(LosingRun(how) + [MBegin(0)] + [MCall(0, OK)], Stored(how));
  }

  lemma BeginsAgain(how: InstanceLoss)
    ensures var m := Stored(how);
            Leads(LosingRun(how) + [MBegin(0)] + [MCall(0, OK)],
                  Solo(SlotOf(m, InFlight(m, m, Create)).(lost := 1), VMS, None))
  {
    LosingRunEnds(how);
    var acts, m := LosingRun(how), Stored(how);
    var f := Solo(SlotOf(m, InFlight(m, m, Patch(true))).(lost := 1), VMS, None);
    assert m.(finalizer := true) == m && MMerge(m, m, m) == m;
    Next(acts, Lost(how), MBegin(0));
    assert FleetApply(Lost(how), MBegin(0)) == f;
    Next(acts + [MBegin(0)], f, MCall(0, OK));
    PatchesAgain(m);
  }

  lemma PatchesAgain(m: Machine)
    requires m.finalizer && !m.deleting && m.spec.providerId.None?
    ensures FleetApply(Solo(SlotOf(m, InFlight(m, m, Patch(true))).(lost := 1), VMS, None), MCall(0, OK)) ==
            Solo(SlotOf(m, InFlight(m, m, Create)).(lost := 1), VMS, None)
  {
    assert MMerge(m, m, m) == m;
  }

  lemma CreatesAgain(acts: seq<FleetAction>, m: Machine)
    requires m == M1 || m == F1
    requires Leads(acts, Solo(SlotOf(m, InFlight(m, m, Create)).(lost := 1), VMS, None))
    ensures AssumedAlways(NO_FLEET, acts + [MCall(0, AGAIN)])
    ensures |Owned(FleetRun(NO_FLEET, acts + [MCall(0, AGAIN)]).vms, 0)| == 2
  {
    assert Subnets(SPEC.interfaces) == ["subnet"];
    Next(acts, Solo(SlotOf(m, InFlight(m, m, Create)).(lost := 1), VMS, None), MCall(0, AGAIN));
    assert Owned(FleetRun(NO_FLEET, acts + [MCall(0, AGAIN)]).vms, 0) == {"a", "b"};
  }

  function OutlivingRun(how: InstanceLoss): seq<FleetAction> {
    LosingRun(how) + [MUserDelete(0)] + [MBegin(0)] + [MCall(0, OK)]
  }

  lemma DeletedUnknowing(how: InstanceLoss)
    ensures var d := Stored(how).(deleting := true);
            var f := Solo(SlotOf(d, Rest).(lost := 1), VMS, None);
            var g := Solo(SlotOf(d, InFlight(d, d.(finalizer := false), MClosing(MDone))).(lost := 1), VMS, None);
            && FleetApply(Lost(how), MUserDelete(0)) == f && FleetApply(f, MBegin(0)) == g
            && FleetApply(g, MCall(0, OK)) ==
               Solo(SlotOf(d.(finalizer := false), Rest).(lost := 1, present := false), VMS, None)
  {
    var d := Stored(how).(deleting := true);
    assert InstanceIdOf(d) == "" && MMerge(d, d, d.(finalizer := false)) == d.(finalizer := false);
  }

  /** Each way to lose an instance occurs in a run from the empty fleet at whose end the machine
      and its finalizer are gone and the instance lives. */
  lemma InstanceOutlivesItsMachine(how: InstanceLoss)
    ensures AssumedAlways(NO_FLEET, OutlivingRun(how))
    ensures var f := FleetRun(NO_FLEET, OutlivingRun(how));
            && 0 in f.slots && !f.slots[0].present && !f.slots[0].obj.finalizer
            && "a" in f.vms && f.vms["a"].owner == 0 && f.vms["a"].alive
  {
    LosingRunEnds(how);
    var acts, d := LosingRun(how), Stored(how).(deleting := true);
    DeletedUnknowing(how);
    Next(acts, Lost(how), MUserDelete(0));
    Next(acts + [MUserDelete(0)], Solo(SlotOf(d, Rest).(lost := 1), VMS, None), MBegin(0));
    var g := Solo(SlotOf(d, InFlight(d, d.(finalizer := false), MClosing(MDone))).(lost := 1), VMS, None);
    Next(acts + [MUserDelete(0)] + [MBegin(0)], g, MCall(0, OK));
  }

  /** The instance runs, and a round has registered it and is about to store that. */
  const REGISTERED :=
    BORN + [MCall(0, MADE)] + [MCall(0, OK)] + [MCall(0, OK)] + [VmMoves("a", Running)] + [TgAppears("g")] +
    [MBegin(0)] + [MCall(0, OK)] + [MCall(0, OK)] + [MCall(0, OK)] + [MCall(0, OK)]

  const TARGET := Target("10.0.0.1", "subnet")
  const GROUP := TargetGroup("g", [], false)
  const RUNNING := map["a" := VM.(status := Running)]
  const A1 := P1.(status := P1.status.(addresses := ["10.0.0.1"]))
  const R1 := A1.(status := A1.status.(running := True, instance := Some(Reported(Running)), ready := true))

  lemma StoresTheId()
    ensures FleetApply(Solo(SlotOf(M1, InFlight(M0, P1, MClosing(MRequeueAfter))), VMS, None), MCall(0, OK)) ==
            Solo(SlotOf(P1, Rest), VMS, None)
  {
    assert MMerge(M1, M0, P1) == P1;
  }

  lemma UpAndRunning()
    ensures Leads(BORN + [MCall(0, MADE)] + [MCall(0, OK)] + [MCall(0, OK)] + [VmMoves("a",
              Running)] + [TgAppears("g")],
                  Solo(SlotOf(P1, Rest), RUNNING, Some(GROUP)))
  {
    Provisioned();
    var acts := BORN + [MCall(0, MADE)] + [MCall(0, OK)];
    var f := Solo(SlotOf(M1, InFlight(M0, P1, MClosing(MRequeueAfter))), VMS, None);
    Next(acts, f, MCall(0, OK));
    var g := Solo(SlotOf(P1, Rest), VMS, None);
    StoresTheId();
    Next(acts + [MCall(0, OK)], g, VmMoves("a", Running));
    assert FleetApply(g, VmMoves("a", Running)) == Solo(SlotOf(P1, Rest), RUNNING, None);
    Next(acts + [MCall(0, OK)] + [VmMoves("a", Running)], Solo(SlotOf(P1, Rest), RUNNING, None), TgAppears("g"));
  }

  function InRound(w: Machine, stage: MStage, targets: seq<Target>): Fleet {
    Solo(SlotOf(P1, InFlight(P1, w, stage)), RUNNING, Some(GROUP.(targets := targets)))
  }

  lemma LooksAtTheInstance()
    ensures Leads(BORN + [MCall(0, MADE)] + [MCall(0, OK)] + [MCall(0, OK)] + [VmMoves("a", Running)] + [TgAppears("g")]
                  + [MBegin(0)] + [MCall(0, OK)] + [MCall(0, OK)], InRound(A1, RegGet, []))
  {
    UpAndRunning();
    ProviderIdRoundTrip(M1, "a");
    var acts := BORN + [MCall(0, MADE)] + [MCall(0, OK)] + [MCall(0, OK)] + [VmMoves("a", Running)] + [TgAppears("g")];
    Next(acts, Solo(SlotOf(P1, Rest), RUNNING, Some(GROUP)), MBegin(0));
    var acts1 := acts + [MBegin(0)];
    assert MMerge(P1, P1, P1) == P1 && InstanceIdOf(P1) == "a";
    Next(acts1, InRound(P1, Patch(true), []), MCall(0, OK));
    var acts2 := acts1 + [MCall(0, OK)];
    Next(acts2, InRound(P1, Get, []), MCall(0, OK));
  }

  lemma Registers()
    ensures Leads(REGISTERED, InRound(R1, MClosing(MDone), [TARGET]))
  {
    LooksAtTheInstance();
    var acts := BORN + [MCall(0, MADE)] + [MCall(0, OK)] + [MCall(0, OK)] + [VmMoves("a", Running)] + [TgAppears("g")];
    var acts3 := acts + [MBegin(0)] + [MCall(0, OK)] + [MCall(0, OK)];
    Next(acts3, InRound(A1, RegGet, []), MCall(0, OK));
    AddsTheTarget();
    Next(acts3 + [MCall(0, OK)], InRound(A1, RegAdd("g"), []), MCall(0, OK));
  }

  lemma AddsTheTarget()
    ensures FleetApply(InRound(A1, RegGet, []), MCall(0, OK)) == InRound(A1, RegAdd("g"), [])
    ensures FleetApply(InRound(A1, RegAdd("g"), []), MCall(0, OK)) == InRound(R1, MClosing(MDone), [TARGET])
  {
    assert Recorded(A1) == Some(TARGET);
    assert ConcludeRunning(P1, A1) == InFlight(P1, R1, MClosing(MDone));
    assert [TARGET] == [] + [TARGET];
    var f, g := InRound(A1, RegGet, []), InRound(A1, RegAdd("g"), []);
    assert FleetApply(f, MCall(0, OK)).slots == g.slots;
    assert FleetApply(g, MCall(0, OK)).slots == InRound(R1, MClosing(MDone), [TARGET]).slots;
  }

  // The deletion of the machine whose record is lost: a round that asks for the instance to be
  // deleted, the end of the instance, and a round that drops the finalizer.
  const DELETION := [MUserDelete(0), MBegin(0), MCall(0, OK), MCall(0, OK), MCall(0, OK),
                     VmGone("a"), MBegin(0), MCall(0, OK), MCall(0, OK)]

  function RecordLoss(crash: bool): FleetAction {
    if crash then MCrash(0) else MCall(0, OK.(outcome := FailedBefore))
  }

  function ZombieRun(crash: bool): seq<FleetAction> { REGISTERED + [RecordLoss(crash)] + DELETION }

  const DELETING := map["a" := VM.(status := DeletingVm)]
  const ENDED := map["a" := VM.(status := DeletingVm, alive := false)]
  const TG1 := Some(GROUP.(targets := [TARGET]))
  const D1 := P1.(deleting := true)
  const D2 := D1.(status := D1.status.(instance := Some(Reported(Running))))

  /** The last round is about to store the object without its finalizer. */
  function Dropping(): Fleet {
    Solo(SlotOf(D2, InFlight(D2, D2.(finalizer := false), MClosing(MDone))), ENDED, TG1)
  }

  lemma RecordIsLost(crash: bool)
    ensures Leads(REGISTERED + [RecordLoss(crash)], Solo(SlotOf(P1, Rest), RUNNING, TG1))
  {
    Registers();
    Next(REGISTERED, InRound(R1, MClosing(MDone), [TARGET]), RecordLoss(crash));
  }

  lemma LooksBeforeDeleting()
    ensures FleetApply(Solo(SlotOf(D1, InFlight(D1, D1, DelGet)), RUNNING, TG1), MCall(0, OK)) ==
            Solo(SlotOf(D1, InFlight(D1, D2, DelVm)), RUNNING, TG1)
  {
    ProviderIdRoundTrip(M1, "a");
    assert InstanceIdOf(D1) == "a";
  }

  lemma DeletionBegins(acts: seq<FleetAction>)
    requires Leads(acts, Solo(SlotOf(P1, Rest), RUNNING, TG1))
    ensures Leads(acts + [MUserDelete(0)] + [MBegin(0)], Solo(SlotOf(D1, InFlight(D1, D1, DelGet)), RUNNING, TG1))
  {
    ProviderIdRoundTrip(M1, "a");
    assert InstanceIdOf(D1) == "a";
    Next(acts, Solo(SlotOf(P1, Rest), RUNNING, TG1), MUserDelete(0));
    assert FleetApply(Solo(SlotOf(P1, Rest), RUNNING, TG1), MUserDelete(0)) == Solo(SlotOf(D1, Rest), RUNNING, TG1);
    Next(acts + [MUserDelete(0)], Solo(SlotOf(D1, Rest), RUNNING, TG1), MBegin(0));
  }

  /** The first round has asked for the instance to be deleted. */
  function Asked(): Fleet { Solo(SlotOf(D1, InFlight(D1, D2, MClosing(MRequeueAfter))), DELETING, TG1) }

  lemma AsksForDeletion()
    ensures FleetApply(Solo(SlotOf(D1, InFlight(D1, D2, DelVm)), RUNNING, TG1), MCall(0, OK)) == Asked()
  {
    ProviderIdRoundTrip(M1, "a");
    assert InstanceIdOf(D2) == "a";
  }

  lemma FirstDeletion(acts: seq<FleetAction>)
    requires Leads(acts, Solo(SlotOf(P1, Rest), RUNNING, TG1))
    ensures Leads(acts + DELETION[..4], Asked())
  {
    DeletionBegins(acts);
    LooksBeforeDeleting();
    AsksForDeletion();
    var acts1 := acts + [MUserDelete(0)] + [MBegin(0)];
    Next(acts1, Solo(SlotOf(D1, InFlight(D1, D1, DelGet)), RUNNING, TG1), MCall(0, OK));
    Next(acts1 + [MCall(0, OK)], Solo(SlotOf(D1, InFlight(D1, D2, DelVm)), RUNNING, TG1), MCall(0, OK));
    assert acts + DELETION[..4] == acts1 + [MCall(0, OK)] + [MCall(0, OK)];
  }

  lemma InstanceEnds(acts: seq<FleetAction>)
    requires Leads(acts, Asked())
    ensures Leads(acts + [MCall(0, OK)] + [VmGone("a")], Solo(SlotOf(D2, Rest), ENDED, TG1))
  {
    assert MMerge(D1, D1, D2) == D2;
    Next(acts, Asked(), MCall(0, OK));
    assert FleetApply(Asked(), MCall(0, OK)) == Solo(SlotOf(D2, Rest), DELETING, TG1);
    Next(acts + [MCall(0, OK)], Solo(SlotOf(D2, Rest), DELETING, TG1), VmGone("a"));
    assert FleetApply(Solo(SlotOf(D2, Rest), DELETING, TG1), VmGone("a")) == Solo(SlotOf(D2, Rest), ENDED, TG1);
  }

  lemma FindsNoInstance()
    ensures FleetApply(Solo(SlotOf(D2, Rest), ENDED, TG1), MBegin(0)) ==
            Solo(SlotOf(D2, InFlight(D2, D2, DelGet)), ENDED, TG1)
    ensures FleetApply(Solo(SlotOf(D2, InFlight(D2, D2, DelGet)), ENDED, TG1), MCall(0, OK)) == Dropping()
  {
    ProviderIdRoundTrip(M1, "a");
    assert InstanceIdOf(D2) == "a";
  }

  lemma SecondDeletion(acts: seq<FleetAction>)
    requires Leads(acts, Asked())
    ensures Leads(acts + DELETION[4..8], Dropping())
  {
    InstanceEnds(acts);
    FindsNoInstance();
    var acts1 := acts + [MCall(0, OK)] + [VmGone("a")];
    Next(acts1, Solo(SlotOf(D2, Rest), ENDED, TG1), MBegin(0));
    Next(acts1 + [MBegin(0)], Solo(SlotOf(D2, InFlight(D2, D2, DelGet)), ENDED, TG1), MCall(0, OK));
    assert acts + DELETION[4..8] == acts1 + [MBegin(0)] + [MCall(0, OK)];
  }

  lemma LosesIt(crash: bool)
    ensures LosesTarget(FleetRun(NO_FLEET, REGISTERED), RecordLoss(crash), 0, TARGET)
  {
    Registers();
    assert Recorded(R1) == Some(TARGET);
    assert TARGET in [TARGET];
  }

  lemma DropsTheFinalizer()
    ensures FleetApply(Dropping(), MCall(0, OK)) ==
            Solo(SlotOf(D2.(finalizer := false), Rest).(present := false), ENDED, TG1)
  {
    assert MMerge(D2, D2, D2.(finalizer := false)) == D2.(finalizer := false);
  }

  /** Both ways to lose a record occur in a run from the empty fleet at whose end the machine, its
      finalizer and its instance are gone and its target is left behind. */
  lemma ZombieIsReached(crash: bool)
    ensures AssumedAlways(NO_FLEET, ZombieRun(crash))
    ensures LosesTarget(FleetRun(NO_FLEET, REGISTERED), RecordLoss(crash), 0, TARGET)
    ensures var f := FleetRun(NO_FLEET, ZombieRun(crash));
            && 0 in f.slots && !f.slots[0].present && !f.slots[0].obj.finalizer
            && LeftBehind(f, TARGET)
  {
    LosesIt(crash);
    ZombieRunEnds(crash);
  }

  lemma ZombieRunEnds(crash: bool)
    ensures Leads(ZombieRun(crash), Solo(SlotOf(D2.(finalizer := false), Rest).(present := false), ENDED, TG1))
  {
    RecordIsLost(crash);
    var acts := REGISTERED + [RecordLoss(crash)];
    FirstDeletion(acts);
    SecondDeletion(acts + DELETION[..4]);
    DropsTheFinalizer();
    Next(acts + DELETION[..4] + DELETION[4..8], Dropping(), MCall(0, OK));
    assert ZombieRun(crash) == acts + DELETION[..4] + DELETION[4..8] + [MCall(0, OK)];
  }

  const REISSUE := REGISTERED + [MCall(0, OK)] + [VmGone("a")] + [NewMachine(1, true, SPEC)] + [BootstrapReady(1)]

  const DEAD := map["a" := VM.(status := Running, alive := false)]

  /** Machine 0 is registered, its instance has vanished, and machine 1 is new. */
  lemma Reissues()
    ensures Leads(REISSUE, Fleet(map[0 := SlotOf(R1, Rest), 1 := SlotOf(M0, Rest)], DEAD,
                                 Some(GROUP.(targets := [TARGET])), false))
  {
    Registers();
    var tg := Some(GROUP.(targets := [TARGET]));
    assert MMerge(P1, P1, R1) == R1;
    Next(REGISTERED, InRound(R1, MClosing(MDone), [TARGET]), MCall(0, OK));
    var acts := REGISTERED + [MCall(0, OK)];
    Next(acts, Solo(SlotOf(R1, Rest), RUNNING, tg), VmGone("a"));
    acts := acts + [VmGone("a")];
    Next(acts, Solo(SlotOf(R1, Rest), DEAD, tg), NewMachine(1, true, SPEC));
    acts := acts + [NewMachine(1, true, SPEC)];
    var f := Fleet(map[0 := SlotOf(R1, Rest), 1 := Slot(true, false, true, M0, Rest, 0)], DEAD, tg, false);
    assert FleetApply(Solo(SlotOf(R1, Rest), DEAD, tg), NewMachine(1, true, SPEC)) == f;
    Next(acts, f, BootstrapReady(1));
  }

  /** An input for it: no living instance has the pair of machine 0, the cloud gives it to
      machine 1, and machine 1 ends Ready without its target. */
  lemma ReissueIsReached(second: seq<MReply>, last: seq<MReply>)
    requires AllSucceed(second, MACHINE_MAX_CALLS) && AllSucceed(last, MACHINE_MAX_CALLS)
    ensures AssumedAlways(NO_FLEET, REISSUE)
    ensures var f := FleetRun(NO_FLEET, REISSUE);
            && 0 in f.slots && 1 in f.slots && !Occupied(f.vms, TARGET)
            && var first := seq(MACHINE_MAX_CALLS, _ => MADE.(id := "b"));
            var g := Put(f, 1, LReconciled(1, Booted(LReconciled(1, View(f, 1), first)), second));
            var h := Put(g, 0, LReconciled(0, UserDeleted(View(g, 0)), last));
            h.slots[1].obj.status.ready && !h.slots[1].obj.deleting && h.tg.Some? && !Registered(h.slots[1].obj, h.tg)
  {
    Reissues();
    Reached(REISSUE);
    ProviderIdRoundTrip(M1, "a");
    var first := seq(MACHINE_MAX_CALLS, _ => MADE.(id := "b"));
    assert Subnets(SPEC.interfaces) == ["subnet"] && first[1] == MADE.(id := "b");
    ReissuedAddressIsTakenAway(FleetRun(NO_FLEET, REISSUE), 0, 1, first, second, last);
  }
}
