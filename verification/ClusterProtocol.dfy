/** The YandexCluster controller as a state machine. One action is one API call of a
    reconcile round, or one thing somebody else does; the two interleave freely. A round
    works on a copy of the object and persists it in its last call. */
module ClusterProtocol {
  import opened Basics
  import opened Api
  import opened Admission
  import opened Names
  import opened AlbCloud

  datatype Verdict = Done | Requeue | RequeueAfter | Failed | Panicked

  /** The call a round makes next. */
  datatype Stage =
    | TgGet
    | TgCreate
    | BgGet(tg: Id)
    | BgCreate(tg: Id)
    | LbGet(bg: Id)
    | LbCreate(bg: Id)
    | ActiveGet
    | DescribeGet
    | DelLbGet
    | DelLb(id: Id)
    | DelBgGet
    | DelBg(id: Id)
    | DelTgGet
    | DelTg(id: Id)
    | Closing(verdict: Verdict)

  /** `before` is the object as it was read, `work` the copy the round edits. */
  datatype Round = Idle | Busy(before: Cluster, work: Cluster, stage: Stage)

  /** `generated` is the load balancer name generated from the owning Cluster's name, `home`
      the folder and name under which the object was created; `writes` counts the mutating
      cloud calls issued so far. */
  datatype Sys = Sys(
    generated: string,
    home: Key,
    obj: Option<Cluster>,
    cloud: Cloud,
    round: Round,
    last: Verdict,
    writes: nat)

  /** How one call went: `id` and `address` are what the cloud hands out if it creates
      something, `dns` what the webhook sees if the call is a patch. */
  datatype Reply = Reply(outcome: Outcome, id: Id, address: string, dns: Resolver) {
    /** Created ids and granted addresses are never empty. */
    predicate Proper() { id != "" && address != "" }
  }

  datatype Action =
    | Begin
    | Call(reply: Reply)
    | Crash
    | UserEdit(spec: ClusterSpec, dns: Resolver)
    | UserDelete
    | Hold(on: bool)
    | LbMoves(key: Key, at: nat, status: LbStatus)
    | LbVanishes(key: Key, at: nat)
    | BgGone(key: Key, at: nat)
    | TgGone(key: Key, at: nat)
    | TargetsChange(key: Key, at: nat, targets: seq<Target>)
    | Foreign(key: Key, tgs: seq<TargetGroup>, bgs: seq<BackendGroup>, lbs: seq<LoadBalancer>)

  function KeyOf(generated: string, spec: ClusterSpec): Key {
    Key(spec.folder, LoadBalancerName(spec.loadBalancer.name, generated))
  }

  // ---- requests ----

  function TgRequest(k: Key): TargetGroupRequest {
    TargetGroupRequest(k)
  }

  function BgRequest(k: Key, lb: LoadBalancerSpec, tg: Id): BackendGroupRequest {
    BackendGroupRequest(k, tg, lb.backendPort, lb.healthcheck)
  }

  function LbRequest(k: Key, network: string, lb: LoadBalancerSpec, bg: Id): LoadBalancerRequest {
    LoadBalancerRequest(k, network, lb.listener.zone, lb.listener.subnet,
                        if lb.listener.address != "" then Some(lb.listener.address) else None,
                        lb.listener.port, bg)
  }

  // ---- what a round does with an answer ----

  function Marked(w: Cluster, c: Condition): Cluster {
    w.(status := w.status.(lbReady := c))
  }

  function FailRound(b: Cluster, w: Cluster): Round {
    Busy(b, Marked(w, False), Closing(Failed))
  }

  /** Deletion is under way: the round comes back later. */
  function WaitRound(b: Cluster, w: Cluster): Round {
    Busy(b, Marked(w, False), Closing(RequeueAfter))
  }

  function Start(c: Cluster): Round {
    if c.deleting then
      if !c.finalizer then Busy(c, c, Closing(Done))
      else if c.spec.loadBalancer.lbType == LB_TYPE_ALB then Busy(c, c, DelLbGet)
      else FailRound(c, c)
    else
      if !c.finalizer then Busy(c, c.(finalizer := true), Closing(Requeue))
      else if c.spec.loadBalancer.lbType == LB_TYPE_ALB then Busy(c, c, TgGet)
      else FailRound(c, c)
  }

  function AfterTgGet(b: Cluster, w: Cluster, r: Result<Option<TargetGroup>>): Round {
    match r
    case Err => FailRound(b, w)
    case Ok(None) => Busy(b, w, TgCreate)
    case Ok(Some(tg)) => Busy(b, w, BgGet(tg.id))
  }

  function AfterTgCreate(b: Cluster, w: Cluster, r: Result<Id>): Round {
    match r
    case Err => FailRound(b, w)
    case Ok(id) => Busy(b, w, BgGet(id))
  }

  function AfterBgGet(b: Cluster, w: Cluster, tg: Id, r: Result<Option<BackendGroup>>): Round {
    match r
    case Err => FailRound(b, w)
    case Ok(None) => Busy(b, w, BgCreate(tg))
    case Ok(Some(bg)) => Busy(b, w, LbGet(bg.id))
  }

  function AfterBgCreate(b: Cluster, w: Cluster, r: Result<Id>): Round {
    match r
    case Err => FailRound(b, w)
    case Ok(id) => Busy(b, w, LbGet(id))
  }

  /** An active load balancer that contradicts a listener address given in the spec. */
  predicate Mismatched(spec: LoadBalancerSpec, lb: LoadBalancer) {
    && lb.status == Active
    && spec.listener.address != ""
    && ((lb.address != "" && lb.address != spec.listener.address)
        || (lb.port != 0 && lb.port != spec.listener.port))
  }

  function AfterLbGet(b: Cluster, w: Cluster, bg: Id, r: Result<Option<LoadBalancer>>): Round {
    match r
    case Err => FailRound(b, w)
    case Ok(Some(lb)) =>
      if Mismatched(w.spec.loadBalancer, lb) then FailRound(b, w) else Busy(b, w, ActiveGet)
    case Ok(None) =>
      if w.spec.endpoint.IsValid() && w.spec.loadBalancer.listener.address == "" then FailRound(b, w)
      else Busy(b, w, LbCreate(bg))
  }

  function AfterLbCreate(b: Cluster, w: Cluster, r: Result<Id>): Round {
    match r
    case Err => FailRound(b, w)
    case Ok(_) => Busy(b, w.(status := w.status.(created := true)), ActiveGet)
  }

  function AfterActiveGet(b: Cluster, w: Cluster, r: Result<Option<LoadBalancer>>): Round {
    match r
    case Err => FailRound(b, w)
    case Ok(Some(lb)) => Busy(b, w, if lb.status == Active then DescribeGet else Closing(RequeueAfter))
    case Ok(None) => Busy(b, w, Closing(RequeueAfter))
  }

  function MarkedReady(w: Cluster, e: Endpoint): Cluster {
    w.(spec := w.spec.(endpoint := e), status := w.status.(ready := true, listener := e, lbReady := True))
  }

  /** The load balancer may have vanished since it was seen active: reading its listener
      then dereferences a nil pointer, and the deferred patch still runs. */
  function AfterDescribeGet(b: Cluster, w: Cluster, r: Result<Option<LoadBalancer>>): Round {
    match r
    case Err => FailRound(b, w)
    case Ok(None) => Busy(b, w, Closing(Panicked))
    case Ok(Some(lb)) =>
      var e := Endpoint(lb.address, lb.port);
      if w.spec.endpoint.IsZero() || w.spec.endpoint == e then Busy(b, MarkedReady(w, e), Closing(Done))
      else Busy(b, w, Closing(Failed))
  }

  function AfterDelLbGet(b: Cluster, w: Cluster, r: Result<Option<LoadBalancer>>): Round {
    match r
    case Err => FailRound(b, w)
    case Ok(None) => Busy(b, w, DelBgGet)
    case Ok(Some(lb)) =>
      if lb.status == Deleting || lb.status == Stopping then WaitRound(b, w) else Busy(b, w, DelLb(lb.id))
  }

  function AfterDelBgGet(b: Cluster, w: Cluster, r: Result<Option<BackendGroup>>): Round {
    match r
    case Err => FailRound(b, w)
    case Ok(None) => Busy(b, w, DelTgGet)
    case Ok(Some(bg)) => Busy(b, w, DelBg(bg.id))
  }

  function AfterDelTgGet(b: Cluster, w: Cluster, r: Result<Option<TargetGroup>>): Round {
    match r
    case Err => FailRound(b, w)
    case Ok(None) => Busy(b, w.(finalizer := false), Closing(Done))
    case Ok(Some(tg)) => Busy(b, w, DelTg(tg.id))
  }

  function AfterDelete(b: Cluster, w: Cluster, ok: bool): Round {
    if ok then WaitRound(b, w) else FailRound(b, w)
  }

  // ---- the final patch ----

  /** The fields the round changed, laid over the stored object. */
  function Merge(stored: Cluster, b: Cluster, w: Cluster): Cluster {
    stored.(
    finalizer := if w.finalizer != b.finalizer then w.finalizer else stored.finalizer,
    spec := stored.spec.(endpoint := if w.spec.endpoint != b.spec.endpoint then w.spec.endpoint
        else stored.spec.endpoint),
    status := if w.status != b.status then w.status else stored.status)
  }

  /** The API server refuses a patch of a missing object, one the webhook rejects, and one
      that adds a finalizer to an object being deleted. All of it is stored, or nothing. */
  function Persist(stored: Option<Cluster>, b: Cluster, w: Cluster, dns: Resolver): Result<Option<Cluster>> {
    if stored.None? then Err
    else
      var m := Merge(stored.value, b, w);
      if !AdmitsUpdate(stored.value.spec, m.spec, dns) then Err
      else if stored.value.deleting && m.finalizer && !stored.value.finalizer then Err
      else Ok(Reap(m))
  }

  // ---- one call ----

  function Read<T>(outcome: Outcome, xs: seq<T>): Result<Option<T>> {
    if outcome == Success then Ok(First(xs)) else Err
  }

  function Answer(r: Reply): Result<Id> {
    if r.outcome == Success then Ok(r.id) else Err
  }

  /** A call that only looks. */
  function ReadStep(s: Sys, o: Outcome): Round
    requires s.round.Busy?
  {
    var Busy(b, w, stage) := s.round;
    var k := KeyOf(s.generated, w.spec);
    match stage
    case TgGet => AfterTgGet(b, w, Read(o, At(s.cloud.tgs, k)))
    case BgGet(tg) => AfterBgGet(b, w, tg, Read(o, At(s.cloud.bgs, k)))
    case LbGet(bg) => AfterLbGet(b, w, bg, Read(o, At(s.cloud.lbs, k)))
    case ActiveGet => AfterActiveGet(b, w, Read(o, At(s.cloud.lbs, k)))
    case DescribeGet => AfterDescribeGet(b, w, Read(o, At(s.cloud.lbs, k)))
    case DelLbGet => AfterDelLbGet(b, w, Read(o, At(s.cloud.lbs, k)))
    case DelBgGet => AfterDelBgGet(b, w, Read(o, At(s.cloud.bgs, k)))
    case DelTgGet => AfterDelTgGet(b, w, Read(o, At(s.cloud.tgs, k)))
    case _ => s.round
  }

  /** A call that changes the cloud: what it does when it takes effect. */
  function WriteEffect(s: Sys, r: Reply): Cloud
    requires s.round.Busy?
  {
    var Busy(b, w, stage) := s.round;
    var k := KeyOf(s.generated, w.spec);
    match stage
    case TgCreate => CreateTargetGroup(s.cloud, TgRequest(k), r.id)
    case BgCreate(tg) => CreateBackendGroup(s.cloud, BgRequest(k, w.spec.loadBalancer, tg), r.id)
    case LbCreate(bg) =>
      // The client waits for the operation, so only a successful call leaves an active load balancer.
      CreateLoadBalancer(s.cloud, LbRequest(k, w.spec.network, w.spec.loadBalancer, bg), r.id, r.address,
                         if r.outcome == Success then Active else Creating)
    case DelLb(id) => DeleteLoadBalancer(s.cloud, k, id)
    case DelBg(id) => DeleteBackendGroup(s.cloud, k, id)
    case DelTg(id) => DeleteTargetGroup(s.cloud, k, id)
    case _ => s.cloud
  }

  function AfterWrite(b: Cluster, w: Cluster, stage: Stage, r: Reply): Round {
    match stage
    case TgCreate => AfterTgCreate(b, w, Answer(r))
    case BgCreate(_) => AfterBgCreate(b, w, Answer(r))
    case LbCreate(_) => AfterLbCreate(b, w, Answer(r))
    case _ => AfterDelete(b, w, r.outcome == Success)
  }

  function CloseStep(s: Sys, v: Verdict, r: Reply): Sys
    requires s.round.Busy?
  {
    var p := Persist(s.obj, s.round.before, s.round.work, r.dns);
    s.(obj := if r.outcome.Effective() && p.Ok? then p.value else s.obj,
       round := Idle,
       last := if r.outcome == Success && p.Ok? then v else Failed)
  }

  predicate Mutating(stage: Stage) {
    || stage.TgCreate? || stage.BgCreate? || stage.LbCreate?
    || stage.DelLb? || stage.DelBg? || stage.DelTg?
  }

  function CallStep(s: Sys, r: Reply): Sys
    requires s.round.Busy?
  {
    var Busy(b, w, stage) := s.round;
    if stage.Closing? then CloseStep(s, stage.verdict, r)
    else if Mutating(stage) then
      s.(cloud := if r.outcome.Effective() then WriteEffect(s, r) else s.cloud,
         round := AfterWrite(b, w, stage, r),
         writes := s.writes + 1)
    else s.(round := ReadStep(s, r.outcome))
  }

  // ---- everybody else ----

  /** Something that is no step of the controller. */
  predicate IsEnvironment(a: Action) { !a.Begin? && !a.Call? && !a.Crash? }

  function EnvStep(s: Sys, a: Action): Sys {
    match a
    case UserEdit(spec, dns) =>
      if s.obj.Some? && AdmitsUpdate(s.obj.value.spec, spec, dns)
      then s.(obj := Some(s.obj.value.(spec := spec))) else s
    case UserDelete =>
      if s.obj.Some? then s.(obj := Reap(s.obj.value.(deleting := true))) else s
    case Hold(on) =>
      if s.obj.Some? && (on ==> !s.obj.value.deleting)
      then s.(obj := Reap(s.obj.value.(held := on))) else s
    case LbMoves(k, i, status) =>
      // Deletion is final; every other status can follow every other.
      var xs := At(s.cloud.lbs, k);
      if i < |xs| && xs[i].status != Deleting
      then s.(cloud := s.cloud.(lbs := s.cloud.lbs[k := xs[i := xs[i].(status := status)]])) else s
    case LbVanishes(k, i) =>
      var xs := At(s.cloud.lbs, k);
      if i < |xs| then s.(cloud := s.cloud.(lbs := s.cloud.lbs[k := Without(xs, i)])) else s
    case BgGone(k, i) =>
      var xs := At(s.cloud.bgs, k);
      if i < |xs| && xs[i].deleting then s.(cloud := s.cloud.(bgs := s.cloud.bgs[k := Without(xs, i)])) else s
    case TgGone(k, i) =>
      var xs := At(s.cloud.tgs, k);
      if i < |xs| && xs[i].deleting then s.(cloud := s.cloud.(tgs := s.cloud.tgs[k := Without(xs, i)])) else s
    case TargetsChange(k, i, targets) =>
      var xs := At(s.cloud.tgs, k);
      if i < |xs| then s.(cloud := s.cloud.(tgs := s.cloud.tgs[k := xs[i := xs[i].(targets := targets)]])) else s
    case Foreign(k, ts, bs, ls) =>
      if k != s.home
      then s.(cloud := Cloud(s.cloud.tgs[k := ts], s.cloud.bgs[k := bs], s.cloud.lbs[k := ls])) else s
    case _ => s
  }

  /** An action that is not enabled leaves the system as it is. */
  function Apply(s: Sys, a: Action): (t: Sys)
    ensures t.generated == s.generated && t.home == s.home
  {
    match a
    case Begin => if s.round.Idle? && s.obj.Some? then s.(round := Start(s.obj.value)) else s
    case Call(r) => if s.round.Busy? && r.Proper() then CallStep(s, r) else s
    case Crash => s.(round := Idle)
    case _ => EnvStep(s, a)
  }

  function Run(s: Sys, acts: seq<Action>): (t: Sys)
    ensures t.generated == s.generated && t.home == s.home
  {
    if acts == [] then s else Apply(Run(s, acts[..|acts| - 1]), acts[|acts| - 1])
  }

  /** The one thing the code relies on and the webhook does not check: a user does not
      move the object to another folder. */
  predicate KeepsFolder(s: Sys, a: Action) {
    a.UserEdit? && s.obj.Some? ==> a.spec.folder == s.obj.value.spec.folder
  }

  predicate KeepsFolderAlways(s: Sys, acts: seq<Action>)
  {
    acts == [] ||
    (KeepsFolderAlways(s, acts[..|acts| - 1]) && KeepsFolder(Run(s, acts[..|acts| - 1]), acts[|acts| - 1]))
  }

  /** A freshly created object and no cloud object of its name yet. */
  ghost predicate Initial(s: Sys) {
    && s.obj.Some?
    && var c := s.obj.value;
    && !c.finalizer && !c.deleting && c.status == NEW_STATUS
    && SchemaOk(c.spec)
    && (exists dns: Resolver :: AdmitsCreate(c.spec, dns))
    && s.home == KeyOf(s.generated, c.spec)
    && At(s.cloud.tgs, s.home) == [] && At(s.cloud.bgs, s.home) == [] && At(s.cloud.lbs, s.home) == []
    && s.round.Idle? && s.writes == 0
  }
}
