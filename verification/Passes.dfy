/** One reconcile pass in a calm world: no call fails, nobody interferes, and every read finds the world as it is.
    The Reconciler class is proved to do exactly this when the world is calm; here it is proved that a pass that
    ends well leaves nothing to do for the next one. */
module Passes {
  import opened Wrappers
  import opened StatefulSets
  import opened RebalanceConfig
  import RestartHash
  import PodTemplate
  import opened ClusterSpec
  import opened AutoScale
  import opened Lifecycle

  // --------------------------------------------------------------- the world

  /** A StatefulSet that exists. `differs`: its template differs from the wanted one in more than annotations. */
  datatype Found = Found(ss: StatefulSet, differs: bool, annotations: map<string, string>, policyDiffers: bool)

  /** `found` is what a cached read gives, `direct` an uncached one; `taken` says that an attempt to create it finds the
      name taken. */
  datatype View = View(found: Option<Found>, direct: StatefulSet, taken: bool)

  datatype World = World(
    proxies: View, targets: View,
    wantedNodes: AutoScaleStatus,
    servicesReady: bool,
    primaryRunning: bool, endpointsReady: bool,
    healthy: bool, proxyCount: nat, targetCount: nat, uuid: string,
    readyToScaleDown: bool,
    left: Remains)

  /** Go: on to the next stage of the pass. */
  datatype Outcome = Go | Done | Requeue | Fail

  datatype Result = Result(cr: CR, events: seq<Event>, outcome: Outcome)

  /** The second stage runs, on what the first one leaves, only if the first one says so. */
  function Then(first: Result, second: Result): Result {
    if first.outcome.Go? then Result(second.cr, first.events + second.events, second.outcome) else first
  }

  function Skip(cr: CR): Result { Result(cr, [], Go) }

  function Stop(cr: CR, outcome: Outcome): Result { Result(cr, [], outcome) }

  function Note(cr: CR, e: Event): Result { Result(cr, [e], Go) }

  function Patch(cr: CR, s: ClusterStatus): Result { Result(cr.(status := s), [StatusPatched(s)], Go) }

  function Move(cr: CR, s: State): Result { Patch(cr, cr.status.(state := s)) }

  function ViewOf(w: World, kind: Kind): View { if kind.Proxies? then w.proxies else w.targets }

  function WantedAnnotations(x: Setting, hashes: RestartHash.Recorded, kind: Kind): map<string, string> {
    RestartHash.PrepareAnnotations(
      if kind.Proxies? then x.proxyAnnotations else x.targetAnnotations, x.network, Some(hashes.annot))
  }

  predicate RolloutNeeded(x: Setting, hashes: RestartHash.Recorded, kind: Kind, found: Found) {
    found.differs || PodTemplate.ShouldUpdateAnnotations(WantedAnnotations(x, hashes, kind), found.annotations)
  }

  /** An autoscale scale-down is checked against a direct read. */
  function ConfirmStage(x: Setting, cr: CR, kind: Kind, found: StatefulSet, direct: StatefulSet): Result
    requires SizesUsable(x)
  {
    if !AutoScales(x, kind) || SizeOf(x, cr.status, kind) >= found.replicas then Skip(cr)
    else
      Result(cr, [DirectRead(kind, direct)], if ScalingNeeded(x, cr.status, kind, direct) then Go else Requeue)
  }

  // -------------------------------------------------- config and rebalance

  function ConfigStage(x: Setting, cr: CR, force: bool): Result {
    var conf := ConfigFor(cr.config, cr.status.rebalance);
    Then(PushStage(x, cr, conf, force), RecordStage(x, cr, conf))
  }

  function PushStage(x: Setting, cr: CR, conf: Config, force: bool): Result
    requires conf.rebalance.Some?
  {
    if force || x.h.all(conf) != cr.hashes.confHash then Note(cr, Pushed(conf.rebalance.value)) else Skip(cr)
  }

  function RecordStage(x: Setting, cr: CR, conf: Config): Result {
    var hashes := RestartHash.AfterConfig(x.h, cr.hashes, conf);
    if hashes == cr.hashes then Skip(cr) else Result(cr.(hashes := hashes), [HashesPatched(hashes)], Go)
  }

  function DisableRebalance(x: Setting, cr: CR): Result {
    var off := cr.status.(rebalance := false);
    Then(Patch(cr, off), ConfigStage(x, cr.(status := off), true))
  }

  function EnableRebalance(cr: CR): Result {
    if cr.status.rebalance then Skip(cr) else Patch(cr, cr.status.(rebalance := true))
  }

  // -------------------------------------------------------------- beginnings

  function InitializeStage(cr: CR): Result {
    if !cr.status.state.New? then Skip(cr)
    else
      var held := cr.(finalizer := true);
      Then(if cr.finalizer then Skip(cr) else Result(held, [FinalizerAdded], Go), Move(held, Initialized))
  }

  function AutoScaleStage(x: Setting, w: World, cr: CR): Result {
    if !AutoScales(x, Proxies) && !AutoScales(x, Targets) then Skip(cr)
    else if cr.status.nodes == w.wantedNodes then Skip(cr)
    else Patch(cr, cr.status.(nodes := w.wantedNodes))
  }

  function DeletionStage(cr: CR): Result {
    var moved := if ShouldDecommission(cr) then Move(cr, Decommissioning) else Skip(cr);
    Then(moved, Note(moved.cr, PastDeletionCheck))
  }

  function ShutdownStage(x: Setting, cr: CR): Result {
    if !ShouldStartShutdown(cr) then Skip(cr)
    else
      Then(Note(cr, ShutdownDecided), BeginShutdown(x, cr))
  }

  function BeginShutdown(x: Setting, cr: CR): Result {
    var off := DisableRebalance(x, cr);
    Then(off, Move(off.cr, ShuttingDown))
  }

  // ------------------------------------------------- shutdown and teardown

  function EmptyStage(w: World, cr: CR, kind: Kind): Result {
    match ViewOf(w, kind).found
    case None => Stop(cr, Fail)
    case Some(found) =>
      Then(
        if found.ss.replicas == 0 then Skip(cr) else Note(cr, ReplicasSet(kind, 0)),
        Result(cr, [StatefulSetRead(kind, Some(found.ss))], if found.ss.status.replicas == 0 then Go else Requeue))
  }

  function ShutdownCluster(w: World, cr: CR): Result {
    Then(EmptyStage(w, cr, Proxies), EmptyTargets(w, cr))
  }

  function EmptyTargets(w: World, cr: CR): Result {
    Then(EmptyStage(w, cr, Targets), Move(cr, Shutdown).(outcome := Done))
  }

  predicate HasReadyReplicas(view: View) {
    view.found.Some? && view.found.value.ss.status.readyReplicas > 0
  }

  function DecommissionCluster(w: World, cr: CR): Result {
    if HasReadyReplicas(w.targets) && HasReadyReplicas(w.proxies) then Result(cr, [ClusterToldToStop], Requeue)
    else Move(cr, CleaningResources).(outcome := Done)
  }

  function CleanupClusterRes(x: Setting, w: World, cr: CR): Result {
    if !cr.finalizer then Stop(cr, Done)
    else Then(Note(cr, CleanedUp(w.left.objects)), CleanHosts(x, cr, w.left.objects))
  }

  /** With jobs to clean the hosts the state is written when these were created, and again if nothing was left. */
  function CleanHosts(x: Setting, cr: CR, existed: bool): Result {
    var mounts := if HasHostCleanup(x) then CleanMounts(cr) else Skip(cr);
    Then(mounts, AfterMounts(mounts.cr, existed))
  }

  function CleanMounts(cr: CR): Result {
    Then(Note(cr, HostJobsCreated), Move(cr, HostCleanup))
  }

  function AfterMounts(cr: CR, existed: bool): Result {
    if existed then Stop(cr, Requeue) else Move(cr, HostCleanup).(outcome := Done)
  }

  function CleanupHost(w: World, cr: CR): Result {
    Then(Note(cr, JobsRead(w.left.jobs)),
         if w.left.jobs then Stop(cr, Requeue) else Move(cr, Finalized).(outcome := Done))
  }

  function Finalize(cr: CR): Result {
    if cr.finalizer then Result(cr.(finalizer := false), [FinalizerRemoved], Done) else Stop(cr, Done)
  }

  /** The switch on the state. */
  function SwitchStage(x: Setting, w: World, cr: CR): Result {
    match cr.status.state
    case ShuttingDown => if cr.shutdown then ShutdownCluster(w, cr) else Move(cr, Upgrading).(outcome := Done)
    case Shutdown => if cr.shutdown then Stop(cr, Done) else Note(cr, PastSwitch)
    case Decommissioning => DecommissionCluster(w, cr)
    case CleaningResources => CleanupClusterRes(x, w, cr)
    case HostCleanup => CleanupHost(w, cr)
    case Finalized => Finalize(cr)
    case _ => Note(cr, PastSwitch)
  }

  // ------------------------------------------------------- bringing it about

  function PrereqStage(x: Setting, w: World, cr: CR): Result {
    if exists v: Validation :: Rejects(x.spec, v) then Stop(cr, Fail)
    else if !x.externalAccess || w.servicesReady then Skip(cr)
    else
      Move(cr, if cr.status.state.InitializingLB? || cr.status.state.PendingLB? then PendingLB else InitializingLB)
        .(outcome := Requeue)
  }

  function URLStage(cr: CR): Result {
    if cr.status.url then Skip(cr) else Patch(cr, cr.status.(url := true))
  }

  function InitProxies(x: Setting, w: World, cr: CR): Result
    requires SizesUsable(x)
  {
    if !w.proxies.taken then Result(cr, [Ensured(Proxies, false)], Requeue)
    else
      Then(Note(cr, Ensured(Proxies, true)),
        if !w.primaryRunning then Stop(cr, Requeue)
        else if w.proxies.found.None? then Stop(cr, Fail)
        else
          var size := SizeOf(x, cr.status, Proxies);
          Then(if w.proxies.found.value.ss.replicas == size then Skip(cr) else Note(cr, ReplicasSet(Proxies, size)),
               Stop(cr, if w.endpointsReady then Go else Requeue)))
  }

  function InitTargets(w: World, cr: CR): Result {
    Result(cr, [Ensured(Targets, w.targets.taken)], if w.targets.taken then Go else Requeue)
  }

  function BootstrapNew(x: Setting, w: World, cr: CR): Result
    requires SizesUsable(x)
  {
    Then(InitProxies(x, w, cr),
         Then(InitTargets(w, cr), Patch(cr, cr.status.(state := Created, created := true)).(outcome := Done)))
  }

  function ProxyStage(x: Setting, w: World, cr: CR): Result
    requires SizesUsable(x)
  {
    match w.proxies.found
    case None => Then(Note(cr, StatefulSetRead(Proxies, None)), InitProxies(x, w, cr))
    case Some(found) => Then(Note(cr, StatefulSetRead(Proxies, Some(found.ss))), DriveProxies(x, w, cr, found))
  }

  /** What a pass does about a StatefulSet it has read: wait, write its template, its PVC policy or its size, take a
      rollout further, or let it be. A template waits for scaling to end, scaling for a rollout to end. */
  datatype Step = Wait | WriteTemplate | WritePolicy | Scale | DriveRollout | Rest

  function StepFor(x: Setting, cr: CR, kind: Kind, found: Found): Step
    requires SizesUsable(x)
  {
    var ss := found.ss;
    var template := RolloutNeeded(x, cr.hashes, kind, found) && !IsScalingInProgress(ss);
    if !IsStatusCurrent(ss) then Wait
    else if kind.Targets? && found.policyDiffers then WritePolicy
    else if template then WriteTemplate
    else if found.policyDiffers then WritePolicy
    else if ScalingNeeded(x, cr.status, kind, ss) && !IsRolloutInProgress(ss) then Scale
    else if IsRolloutInProgress(ss) then DriveRollout
    else if IsScalingInProgress(ss) || !IsReady(x, cr.status, kind, ss) then Wait
    else Rest
  }

  lemma RestMeans(x: Setting, cr: CR, kind: Kind, found: Found)
    requires SizesUsable(x)
    ensures StepFor(x, cr, kind, found).Rest? <==>
            && ReadsReady(x, cr.status, kind, found.ss) && !found.policyDiffers
            && !RolloutNeeded(x, cr.hashes, kind, found) && !ScalingNeeded(x, cr.status, kind, found.ss)
    ensures StepFor(x, cr, kind, found).Rest? ==> ShowsNoRollout(Some(found.ss))
  {
  }

  function DriveProxies(x: Setting, w: World, cr: CR, found: Found): Result
    requires SizesUsable(x)
  {
    match StepFor(x, cr, Proxies, found)
    case Wait => Stop(cr, Requeue)
    case WriteTemplate => Result(cr, [TemplatePatched(Proxies)], Requeue)
    case WritePolicy => Result(cr, [PolicyPatched(Proxies)], Requeue)
    case Scale => ScaleProxies(x, w, cr, found.ss)
    case DriveRollout => Result(cr, [RolloutDriven(Proxies)], Requeue)
    case Rest => Stop(cr, Go)
  }

  function ScaleProxies(x: Setting, w: World, cr: CR, ss: StatefulSet): Result
    requires SizesUsable(x)
  {
    Then(ConfirmStage(x, cr, Proxies, ss, w.proxies.direct),
         Result(cr, [ReplicasSet(Proxies, SizeOf(x, cr.status, Proxies))], Requeue))
  }

  function TargetStage(x: Setting, w: World, cr: CR): Result
    requires SizesUsable(x)
  {
    match w.targets.found
    case None => Then(Note(cr, StatefulSetRead(Targets, None)), InitTargets(w, cr))
    case Some(found) => Then(Note(cr, StatefulSetRead(Targets, Some(found.ss))), DriveTargets(x, w, cr, found))
  }

  function DriveTargets(x: Setting, w: World, cr: CR, found: Found): Result
    requires SizesUsable(x)
  {
    match StepFor(x, cr, Targets, found)
    case Wait => Stop(cr, Requeue)
    case WriteTemplate => ReplaceTargetTemplate(x, cr)
    case WritePolicy => Result(cr, [PolicyPatched(Targets)], Requeue)
    case Scale => ScaleTargets(x, w, cr, found.ss)
    case DriveRollout => Result(cr, [RolloutDriven(Targets)], Requeue)
    case Rest => Stop(cr, Go)
  }

  /** Rebalance goes off before the target template is written. */
  function ReplaceTargetTemplate(x: Setting, cr: CR): Result {
    var off := DisableRebalance(x, cr);
    Then(off, Result(off.cr, [TemplatePatched(Targets)], Requeue))
  }

  function ScaleTargets(x: Setting, w: World, cr: CR, ss: StatefulSet): Result
    requires SizesUsable(x)
  {
    Then(ConfirmStage(x, cr, Targets, ss, w.targets.direct), PerformTargetScaling(x, w, cr, ss))
  }

  function PerformTargetScaling(x: Setting, w: World, cr: CR, ss: StatefulSet): Result
    requires SizesUsable(x)
  {
    var started := StartTargetScaling(x, cr, ss);
    Then(started, ResolveTargetScaling(x, w, started.cr, ss))
  }

  function StartTargetScaling(x: Setting, cr: CR, ss: StatefulSet): Result
    requires SizesUsable(x)
  {
    if ss.replicas < SizeOf(x, cr.status, Targets) then Skip(cr)
    else if x.retain then Note(cr, NodesToldToLeave)
    else
      var on := EnableRebalance(cr);
      var pushed := ConfigStage(x, on.cr, true);
      Then(on, Then(pushed, Note(pushed.cr, NodesToldToLeave)))
  }

  /** Rebalance goes off before several targets join. */
  function GrowQuietly(x: Setting, cr: CR, size: int): Result {
    var off := DisableRebalance(x, cr);
    Then(off, Result(off.cr, [ReplicasSet(Targets, size)], Requeue))
  }

  function ResolveTargetScaling(x: Setting, w: World, cr: CR, ss: StatefulSet): Result
    requires SizesUsable(x)
  {
    var size := SizeOf(x, cr.status, Targets);
    if size > ss.replicas + 1 && ss.replicas > 0 then
      if !w.healthy then Stop(cr, Fail) else GrowQuietly(x, cr, size)
    else if size < ss.replicas && !w.readyToScaleDown then Stop(cr, Requeue)
    else if size == ss.replicas then Stop(cr, Requeue)
    else Result(cr, [ReplicasSet(Targets, size)], Requeue)
  }

  /** A stage that has to be waited for takes away Ready. */
  function Waiting(r: Result): Result {
    if r.outcome.Requeue? && r.cr.status.ready then
      var s := r.cr.status.(state := Upgrading, ready := false);
      Result(r.cr.(status := s), r.events + [StatusPatched(s)], Requeue)
    else r
  }

  function AISReadyStage(x: Setting, w: World, cr: CR): Result
    requires SizesUsable(x)
  {
    if !w.healthy then Stop(cr, Fail)
    else
      Then(Note(cr, MapRead(w.proxyCount, w.targetCount)),
        if w.proxyCount < MinReady(x, cr.status, Proxies) || w.targetCount < MinReady(x, cr.status, Targets)
        then Stop(cr, Requeue)
        else ClusterIDStage(cr, w.uuid))
  }

  function ClusterIDStage(cr: CR, uuid: string): Result {
    if cr.status.clusterId == uuid then Skip(cr) else Patch(cr, cr.status.(clusterId := uuid))
  }

  function SuccessStage(cr: CR): Result {
    if cr.status.ready && cr.status.state.Ready? then Stop(cr, Done)
    else Patch(cr, cr.status.(state := State.Ready, ready := true)).(outcome := Done)
  }

  function FinishStage(x: Setting, cr: CR): Result {
    var on := EnableRebalance(cr);
    Then(on, LastSteps(x, on.cr))
  }

  function LastSteps(x: Setting, cr: CR): Result {
    var configured := ConfigStage(x, cr, false);
    Then(configured, SuccessStage(configured.cr))
  }

  function HandleCREvents(x: Setting, w: World, cr: CR): Result
    requires SizesUsable(x)
  {
    var proxies := Waiting(ProxyStage(x, w, cr));
    Then(proxies, FromTargets(x, w, proxies.cr))
  }

  function FromTargets(x: Setting, w: World, cr: CR): Result
    requires SizesUsable(x)
  {
    var targets := Waiting(TargetStage(x, w, cr));
    Then(targets, FromCluster(x, w, targets.cr))
  }

  function FromCluster(x: Setting, w: World, cr: CR): Result
    requires SizesUsable(x)
  {
    var ready := Waiting(AISReadyStage(x, w, cr));
    Then(ready, FinishStage(x, ready.cr))
  }

  // ------------------------------------------------------------ the whole pass

  function Early(x: Setting, w: World, cr: CR): Result {
    var initialized := InitializeStage(cr);
    Then(initialized, FromAutoScale(x, w, initialized.cr))
  }

  function FromAutoScale(x: Setting, w: World, cr: CR): Result {
    var scaled := AutoScaleStage(x, w, cr);
    Then(scaled, FromDeletion(x, w, scaled.cr))
  }

  function FromDeletion(x: Setting, w: World, cr: CR): Result {
    var checked := DeletionStage(cr);
    Then(checked, FromShutdown(x, w, checked.cr))
  }

  function FromShutdown(x: Setting, w: World, cr: CR): Result {
    var begun := ShutdownStage(x, cr);
    Then(begun, SwitchStage(x, w, begun.cr))
  }

  lemma PrereqsMakeSizesUsable(x: Setting, w: World, cr: CR)
    ensures PrereqStage(x, w, cr).outcome.Go? ==> SizesUsable(x)
  {
    if PrereqStage(x, w, cr).outcome.Go? {
      AcceptedSizes(x.spec, 0, 0);
    }
  }

  ghost function Late(x: Setting, w: World, cr: CR): Result {
    var ready := PrereqStage(x, w, cr);
    PrereqsMakeSizesUsable(x, w, cr);
    if ready.outcome.Go? then Then(ready, FromURL(x, w, ready.cr)) else ready
  }

  lemma LateMeans(x: Setting, w: World, cr: CR)
    ensures var ready := PrereqStage(x, w, cr);
            if ready.outcome.Go? then SizesUsable(x) && Late(x, w, cr) == Then(ready, FromURL(x, w, ready.cr))
            else Late(x, w, cr) == ready
  {
    PrereqsMakeSizesUsable(x, w, cr);
  }

  function FromURL(x: Setting, w: World, cr: CR): Result
    requires SizesUsable(x)
  {
    var named := URLStage(cr);
    Then(named, if named.cr.status.created then HandleCREvents(x, w, named.cr) else BootstrapNew(x, w, named.cr))
  }

  ghost function ExistingPass(x: Setting, w: World, cr: CR): Result {
    var early := Early(x, w, cr);
    Then(early, Late(x, w, early.cr))
  }

  function Framed(r: Result): Result {
    Result(r.cr, [PassStarts] + r.events + [PassEnds], r.outcome)
  }

  ghost function WholePass(x: Setting, w: World, cr: CR): Result {
    if Gone(cr) then Stop(cr, Done) else Framed(ExistingPass(x, w, cr))
  }
}
