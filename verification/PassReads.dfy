/** A pass goes by what there is: whatever it notes as read, in a still world, is so. */
module PassReads {
  import opened Wrappers
  import opened StatefulSets
  import opened ClusterSpec
  import opened Lifecycle
  import opened Passes
  import opened PassWrites

  function StatefulSetIn(view: View): Option<StatefulSet> {
    match view.found
    case None => None
    case Some(found) => Some(found.ss)
  }

  /** The event agrees with the world. */
  predicate IsTrue(w: World, e: Event) {
    match e
    case StatefulSetRead(kind, read) => read == StatefulSetIn(ViewOf(w, kind))
    case DirectRead(kind, ss) => ss == ViewOf(w, kind).direct
    case MapRead(proxies, targets) => w.healthy && proxies == w.proxyCount && targets == w.targetCount
    case JobsRead(atWork) => atWork == w.left.jobs
    case CleanedUp(existed) => existed == w.left.objects
    case Ensured(kind, existed) => existed == ViewOf(w, kind).taken
    case _ => true
  }

  ghost predicate AllTrue(w: World, r: Result) { forall e :: e in r.events ==> IsTrue(w, e) }

  lemma TrueThen(w: World, first: Result, second: Result)
    requires AllTrue(w, first) && (first.outcome.Go? ==> AllTrue(w, second))
    ensures AllTrue(w, Then(first, second))
  {
  }

  lemma ConfigReads(x: Setting, w: World, cr: CR, force: bool)
    ensures AllTrue(w, ConfigStage(x, cr, force)) && AllTrue(w, DisableRebalance(x, cr))
  {
    ConfigIsTrue(x, w, cr, force);
    var off := cr.status.(rebalance := false);
    ConfigIsTrue(x, w, cr.(status := off), true);
    TrueThen(w, Patch(cr, off), ConfigStage(x, cr.(status := off), true));
  }

  lemma ConfigIsTrue(x: Setting, w: World, cr: CR, force: bool)
    ensures AllTrue(w, ConfigStage(x, cr, force))
  {
  }

  // ----------------------------------------------------------- early stages

  lemma SwitchReads(x: Setting, w: World, cr: CR)
    ensures AllTrue(w, SwitchStage(x, w, cr))
  {
    match cr.status.state
    case ShuttingDown => EmptyReads(w, cr);
    case CleaningResources => CleanupReads(x, w, cr);
    case HostCleanup => HostReads(w, cr);
    case _ =>
  }

  lemma HostReads(w: World, cr: CR)
    ensures AllTrue(w, CleanupHost(w, cr))
  {
  }

  lemma EmptyReads(w: World, cr: CR)
    ensures AllTrue(w, Passes.ShutdownCluster(w, cr))
  {
    TrueThen(w, EmptyStage(w, cr, Targets), Move(cr, Shutdown).(outcome := Done));
    TrueThen(w, EmptyStage(w, cr, Proxies), EmptyTargets(w, cr));
  }

  lemma CleanupReads(x: Setting, w: World, cr: CR)
    ensures AllTrue(w, CleanupClusterRes(x, w, cr))
  {
    var mounts := if HasHostCleanup(x) then CleanMounts(cr) else Skip(cr);
    TrueThen(w, mounts, AfterMounts(mounts.cr, w.left.objects));
    TrueThen(w, Note(cr, CleanedUp(w.left.objects)), CleanHosts(x, cr, w.left.objects));
  }

  lemma ShutdownReads(x: Setting, w: World, cr: CR)
    ensures AllTrue(w, FromShutdown(x, w, cr))
  {
    ConfigReads(x, w, cr, true);
    var off := DisableRebalance(x, cr);
    TrueThen(w, off, Move(off.cr, ShuttingDown));
    TrueThen(w, Note(cr, ShutdownDecided), BeginShutdown(x, cr));
    var begun := ShutdownStage(x, cr);
    SwitchReads(x, w, begun.cr);
    TrueThen(w, begun, SwitchStage(x, w, begun.cr));
  }

  lemma EarlyReads(x: Setting, w: World, cr: CR)
    ensures AllTrue(w, Early(x, w, cr))
  {
    var initialized := InitializeStage(cr);
    var scaled := AutoScaleStage(x, w, initialized.cr);
    var checked := DeletionStage(scaled.cr);
    ShutdownReads(x, w, checked.cr);
    TrueThen(w, checked, FromShutdown(x, w, checked.cr));
    TrueThen(w, scaled, FromDeletion(x, w, scaled.cr));
    TrueThen(w, initialized, FromAutoScale(x, w, initialized.cr));
  }

  // ------------------------------------------------------------ late stages

  lemma InitReads(x: Setting, w: World, cr: CR)
    requires SizesUsable(x)
    ensures AllTrue(w, InitProxies(x, w, cr)) && AllTrue(w, InitTargets(w, cr)) && AllTrue(w, BootstrapNew(x, w, cr))
  {
    InitIsTrue(x, w, cr);
    var done := Patch(cr, cr.status.(state := Created, created := true)).(outcome := Done);
    TrueThen(w, InitTargets(w, cr), done);
    TrueThen(w, InitProxies(x, w, cr), Then(InitTargets(w, cr), done));
  }

  lemma InitIsTrue(x: Setting, w: World, cr: CR)
    requires SizesUsable(x)
    ensures AllTrue(w, InitProxies(x, w, cr))
  {
  }

  lemma ProxiesRead(x: Setting, w: World, cr: CR)
    requires SizesUsable(x)
    ensures AllTrue(w, ProxyStage(x, w, cr))
  {
    if w.proxies.found.Some? {
      var found := w.proxies.found.value;
      DriveProxiesReads(x, w, cr, found);
      TrueThen(w, Note(cr, StatefulSetRead(Proxies, Some(found.ss))), DriveProxies(x, w, cr, found));
    } else {
      InitReads(x, w, cr);
      TrueThen(w, Note(cr, StatefulSetRead(Proxies, None)), InitProxies(x, w, cr));
    }
  }

  lemma DriveProxiesReads(x: Setting, w: World, cr: CR, found: Found)
    requires SizesUsable(x)
    ensures AllTrue(w, DriveProxies(x, w, cr, found))
  {
    match StepFor(x, cr, Proxies, found)
    case Scale => ScaleProxiesReads(x, w, cr, found.ss);
    case _ =>
  }

  lemma ScaleProxiesReads(x: Setting, w: World, cr: CR, ss: StatefulSet)
    requires SizesUsable(x)
    ensures AllTrue(w, ScaleProxies(x, w, cr, ss))
  {
    ConfirmReads(x, w, cr, ss);
    TrueThen(w, ConfirmStage(x, cr, Proxies, ss, w.proxies.direct),
             Result(cr, [ReplicasSet(Proxies, SizeOf(x, cr.status, Proxies))], Requeue));
  }

  lemma ConfirmReads(x: Setting, w: World, cr: CR, ss: StatefulSet)
    requires SizesUsable(x)
    ensures AllTrue(w, ConfirmStage(x, cr, Proxies, ss, w.proxies.direct))
    ensures AllTrue(w, ConfirmStage(x, cr, Targets, ss, w.targets.direct))
  {
  }

  lemma ScalingReads(x: Setting, w: World, cr: CR, ss: StatefulSet)
    requires SizesUsable(x)
    ensures AllTrue(w, ScaleTargets(x, w, cr, ss))
  {
    var started := StartTargetScaling(x, cr, ss);
    StartReads(x, w, cr, ss);
    ResolveReads(x, w, started.cr, ss);
    TrueThen(w, started, ResolveTargetScaling(x, w, started.cr, ss));
    ConfirmReads(x, w, cr, ss);
    TrueThen(w, ConfirmStage(x, cr, Targets, ss, w.targets.direct), PerformTargetScaling(x, w, cr, ss));
  }

  lemma StartReads(x: Setting, w: World, cr: CR, ss: StatefulSet)
    requires SizesUsable(x)
    ensures AllTrue(w, StartTargetScaling(x, cr, ss))
  {
    var on := EnableRebalance(cr);
    var pushed := ConfigStage(x, on.cr, true);
    ConfigReads(x, w, on.cr, true);
    TrueThen(w, pushed, Note(pushed.cr, NodesToldToLeave));
    TrueThen(w, on, Then(pushed, Note(pushed.cr, NodesToldToLeave)));
  }

  lemma ResolveReads(x: Setting, w: World, cr: CR, ss: StatefulSet)
    requires SizesUsable(x)
    ensures AllTrue(w, ResolveTargetScaling(x, w, cr, ss))
  {
    var off, size := DisableRebalance(x, cr), SizeOf(x, cr.status, Targets);
    ConfigReads(x, w, cr, true);
    TrueThen(w, off, Result(off.cr, [ReplicasSet(Targets, size)], Requeue));
  }

  lemma TargetsRead(x: Setting, w: World, cr: CR)
    requires SizesUsable(x)
    ensures AllTrue(w, TargetStage(x, w, cr))
  {
    if w.targets.found.Some? {
      var found := w.targets.found.value;
      DriveTargetsReads(x, w, cr, found);
      TrueThen(w, Note(cr, StatefulSetRead(Targets, Some(found.ss))), DriveTargets(x, w, cr, found));
    } else {
      TrueThen(w, Note(cr, StatefulSetRead(Targets, None)), InitTargets(w, cr));
    }
  }

  lemma DriveTargetsReads(x: Setting, w: World, cr: CR, found: Found)
    requires SizesUsable(x)
    ensures AllTrue(w, DriveTargets(x, w, cr, found))
  {
    match StepFor(x, cr, Targets, found)
    case Scale => ScalingReads(x, w, cr, found.ss);
    case WriteTemplate =>
      ConfigReads(x, w, cr, true);
      var off := DisableRebalance(x, cr);
      TrueThen(w, off, Result(off.cr, [TemplatePatched(Targets)], Requeue));
    case _ =>
  }

  lemma WaitingReads(w: World, r: Result)
    requires AllTrue(w, r)
    ensures AllTrue(w, Waiting(r))
  {
  }

  lemma ClusterReads(x: Setting, w: World, cr: CR)
    requires SizesUsable(x)
    ensures AllTrue(w, FromCluster(x, w, cr))
  {
    if w.healthy {
      TrueThen(w, Note(cr, MapRead(w.proxyCount, w.targetCount)), ClusterIDStage(cr, w.uuid));
    }
    var ready := Waiting(AISReadyStage(x, w, cr));
    WaitingReads(w, AISReadyStage(x, w, cr));
    FinishReads(x, w, ready.cr);
    TrueThen(w, ready, FinishStage(x, ready.cr));
  }

  lemma FinishReads(x: Setting, w: World, cr: CR)
    ensures AllTrue(w, FinishStage(x, cr))
  {
    var on := EnableRebalance(cr);
    var configured := ConfigStage(x, on.cr, false);
    ConfigReads(x, w, on.cr, false);
    TrueThen(w, configured, SuccessStage(configured.cr));
    TrueThen(w, on, LastSteps(x, on.cr));
  }

  lemma DriveReads(x: Setting, w: World, cr: CR)
    requires SizesUsable(x)
    ensures AllTrue(w, HandleCREvents(x, w, cr))
  {
    var proxies := Waiting(ProxyStage(x, w, cr));
    ProxiesRead(x, w, cr);
    WaitingReads(w, ProxyStage(x, w, cr));
    var targets := Waiting(TargetStage(x, w, proxies.cr));
    TargetsRead(x, w, proxies.cr);
    WaitingReads(w, TargetStage(x, w, proxies.cr));
    ClusterReads(x, w, targets.cr);
    TrueThen(w, targets, FromCluster(x, w, targets.cr));
    TrueThen(w, proxies, FromTargets(x, w, proxies.cr));
  }

  lemma BringAboutReads(x: Setting, w: World, cr: CR)
    requires SizesUsable(x)
    ensures AllTrue(w, BringAbout(x, w, cr))
  {
    if cr.status.created {
      DriveReads(x, w, cr);
    } else {
      InitReads(x, w, cr);
    }
  }

  lemma NamedReads(w: World, cr: CR)
    ensures AllTrue(w, URLStage(cr))
  {
  }

  lemma URLReads(x: Setting, w: World, cr: CR)
    requires SizesUsable(x)
    ensures AllTrue(w, FromURL(x, w, cr))
  {
    var named := URLStage(cr);
    NamedReads(w, cr);
    BringAboutReads(x, w, named.cr);
    TrueThen(w, named, BringAbout(x, w, named.cr));
  }

  lemma LateReads(x: Setting, w: World, cr: CR)
    ensures AllTrue(w, Late(x, w, cr))
  {
    LateMeans(x, w, cr);
    var ready := PrereqStage(x, w, cr);
    PrereqReads(x, w, cr);
    if ready.outcome.Go? {
      URLReads(x, w, ready.cr);
      TrueThen(w, ready, FromURL(x, w, ready.cr));
    }
  }

  lemma PrereqReads(x: Setting, w: World, cr: CR)
    ensures AllTrue(w, PrereqStage(x, w, cr))
  {
  }

  /** Whatever a pass has noted as read or found is so. */
  lemma ReadsAreTrue(x: Setting, w: World, cr: CR)
    ensures forall e :: e in WholePass(x, w, cr).events ==> IsTrue(w, e)
  {
    if !Gone(cr) {
      var early := Early(x, w, cr);
      EarlyReads(x, w, cr);
      LateReads(x, w, early.cr);
      TrueThen(w, early, Late(x, w, early.cr));
      var r := ExistingPass(x, w, cr);
      assert forall e :: e in Framed(r).events ==> e in r.events || e in {PassStarts, PassEnds};
    }
  }
}
