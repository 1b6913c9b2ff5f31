/** A pass that ends well leaves nothing to do: in an unchanged world the next one only reads. */
module Quiescence {
  import opened Wrappers
  import opened StatefulSets
  import opened RebalanceConfig
  import RestartHash
  import opened ClusterSpec
  import opened AutoScale
  import opened Lifecycle
  import opened Passes
  import opened PassSteps
  import opened PassWrites

  /** Steps that change something. To find a StatefulSet's name taken changes nothing. */
  predicate IsWrite(e: Event) {
    match e
    case FinalizerAdded => true
    case FinalizerRemoved => true
    case StatusPatched(_) => true
    case HashesPatched(_) => true
    case Pushed(_) => true
    case Ensured(_, existed) => !existed
    case ReplicasSet(_, _) => true
    case TemplatePatched(_) => true
    case PolicyPatched(_) => true
    case RolloutDriven(_) => true
    case NodesToldToLeave => true
    case ClusterToldToStop => true
    case CleanedUp(_) => true
    case HostJobsCreated => true
    case _ => false
  }

  ghost predicate Quiet(events: seq<Event>) {
    forall i :: 0 <= i < |events| ==> !IsWrite(events[i])
  }

  lemma QuietThen(first: Result, second: Result)
    ensures Quiet(Then(first, second).events) <==> Quiet(first.events) && (first.outcome.Go? ==> Quiet(second.events))
  {
    var all := Then(first, second).events;
    if first.outcome.Go? {
      assert forall i :: 0 <= i < |first.events| ==> all[i] == first.events[i];
      assert forall i :: 0 <= i < |second.events| ==> all[|first.events| + i] == second.events[i];
    }
  }

  /** A StatefulSet that exists would have its template replaced, given these recorded hashes. */
  predicate RolloutDue(x: Setting, w: World, hashes: RestartHash.Recorded) {
    || (w.proxies.found.Some? && RolloutNeeded(x, hashes, Proxies, w.proxies.found.value))
    || (w.targets.found.Some? && RolloutNeeded(x, hashes, Targets, w.targets.found.value))
  }

  /** Nothing is wrong with a StatefulSet, apart perhaps from its template. */
  predicate AtRest(x: Setting, status: ClusterStatus, kind: Kind, found: Found)
    requires SizesUsable(x)
  {
    && IsStatusCurrent(found.ss) && !IsRolloutInProgress(found.ss) && !IsScalingInProgress(found.ss)
    && !found.policyDiffers && !ScalingNeeded(x, status, kind, found.ss) && IsReady(x, status, kind, found.ss)
  }

  lemma RestIsRest(x: Setting, cr: CR, kind: Kind, found: Found)
    requires SizesUsable(x)
    ensures StepFor(x, cr, kind, found).Rest? <==>
            AtRest(x, cr.status, kind, found) && !RolloutNeeded(x, cr.hashes, kind, found)
    ensures AtRest(x, cr.status, kind, found) && RolloutNeeded(x, cr.hashes, kind, found) ==>
              StepFor(x, cr, kind, found).WriteTemplate?
  {
    RestMeans(x, cr, kind, found);
  }

  lemma DriveProxiesMeans(x: Setting, w: World, cr: CR, found: Found)
    requires SizesUsable(x)
    ensures var r, step := DriveProxies(x, w, cr, found), StepFor(x, cr, Proxies, found);
            && !r.outcome.Done?
            && (r.outcome.Go? <==> step.Rest?)
            && (r.outcome.Go? ==> r == Skip(cr))
            && (step.WriteTemplate? ==> !Quiet(r.events))
  {
    if StepFor(x, cr, Proxies, found).WriteTemplate? {
      assert DriveProxies(x, w, cr, found).events[0] == TemplatePatched(Proxies);
    }
  }

  lemma ProxyStageRests(x: Setting, w: World, cr: CR)
    requires SizesUsable(x)
    ensures var r := ProxyStage(x, w, cr);
            && (r.outcome.Go? <==>
                  w.proxies.found.Some? && AtRest(x, cr.status, Proxies, w.proxies.found.value)
                  && !RolloutNeeded(x, cr.hashes, Proxies, w.proxies.found.value))
            && (r.outcome.Go? ==> r.cr == cr && Quiet(r.events))
            && (w.proxies.found.Some? && AtRest(x, cr.status, Proxies, w.proxies.found.value) && !r.outcome.Go? ==>
                  !Quiet(r.events))
  {
    if w.proxies.found.Some? {
      var found := w.proxies.found.value;
      QuietThen(Note(cr, StatefulSetRead(Proxies, Some(found.ss))), DriveProxies(x, w, cr, found));
      DriveProxiesMeans(x, w, cr, found);
      RestIsRest(x, cr, Proxies, found);
    }
  }

  lemma TargetStageRests(x: Setting, w: World, cr: CR)
    requires SizesUsable(x)
    ensures var r := TargetStage(x, w, cr);
            && (r.outcome.Go? <==>
                  if w.targets.found.None? then w.targets.taken
                  else AtRest(x, cr.status, Targets, w.targets.found.value)
                       && !RolloutNeeded(x, cr.hashes, Targets, w.targets.found.value))
            && (r.outcome.Go? ==> r.cr == cr && Quiet(r.events))
  {
    if w.targets.found.Some? {
      var found := w.targets.found.value;
      QuietThen(Note(cr, StatefulSetRead(Targets, Some(found.ss))), DriveTargets(x, w, cr, found));
      DriveTargetsMeans(x, w, cr, found);
      RestIsRest(x, cr, Targets, found);
    } else {
      QuietThen(Note(cr, StatefulSetRead(Targets, None)), InitTargets(w, cr));
    }
  }

  lemma DriveTargetsMeans(x: Setting, w: World, cr: CR, found: Found)
    requires SizesUsable(x)
    ensures var r := DriveTargets(x, w, cr, found);
            && !r.outcome.Done?
            && (r.outcome.Go? <==> StepFor(x, cr, Targets, found).Rest?)
            && (r.outcome.Go? ==> r == Skip(cr))
  {
    match StepFor(x, cr, Targets, found)
    case WriteTemplate => DisableRebalanceGoes(x, cr);
    case Scale => ScaleTargetsNotDone(x, w, cr, found.ss);
    case _ =>
  }

  /** A template that is due is replaced, or at least rebalance is turned off for it. */
  lemma TargetRolloutWrites(x: Setting, w: World, cr: CR)
    requires SizesUsable(x) && w.targets.found.Some? && AtRest(x, cr.status, Targets, w.targets.found.value)
    requires RolloutNeeded(x, cr.hashes, Targets, w.targets.found.value)
    ensures !Quiet(TargetStage(x, w, cr).events)
  {
    var found := w.targets.found.value;
    var off := DisableRebalance(x, cr);
    assert off.events[0] == StatusPatched(cr.status.(rebalance := false));
    var drive := DriveTargets(x, w, cr, found);
    assert drive == Then(off, Result(off.cr, [TemplatePatched(Targets)], Requeue));
    assert drive.events[0] == off.events[0];
    assert TargetStage(x, w, cr).events[1] == drive.events[0];
  }

  /** Recording a config twice is recording it once. */
  lemma AfterConfigIsIdempotent(h: RestartHash.Hashes, r: RestartHash.Recorded, conf: Config)
    requires RestartHash.Hexadecimal(h)
    ensures var once := RestartHash.AfterConfig(h, r, conf);
            RestartHash.AfterConfig(h, once, conf) == once && once.confHash == h.all(conf)
  {
    var hash := h.http(conf.http);
    RestartHash.HexIsNeverInitial(hash);
    RestartHash.TaggedHash(hash);
  }

  lemma ConfigStageMeans(x: Setting, cr: CR, force: bool)
    ensures var r, conf := ConfigStage(x, cr, force), ConfigFor(cr.config, cr.status.rebalance);
            && r.outcome.Go? && r.cr == cr.(hashes := RestartHash.AfterConfig(x.h, cr.hashes, conf))
            && (!force && cr.hashes.confHash == x.h.all(conf) && r.cr.hashes == cr.hashes ==> Quiet(r.events))
  {
  }

  /** What the CR looks like when a pass has ended well. */
  function Settled(x: Setting, w: World, cr: CR): CR {
    CR(cr.finalizer, cr.deleted, cr.shutdown, cr.config,
       RestartHash.AfterConfig(x.h, cr.hashes, ConfigFor(cr.config, true)),
       cr.status.(state := State.Ready, ready := true, rebalance := true, clusterId := w.uuid))
  }

  lemma FinishMeans(x: Setting, cr: CR)
    ensures var r := FinishStage(x, cr);
            && r.outcome.Done?
            && r.cr == cr.(status := cr.status.(state := State.Ready, ready := true, rebalance := true),
                           hashes := RestartHash.AfterConfig(x.h, cr.hashes, ConfigFor(cr.config, true)))
  {
    ConfigStageMeans(x, EnableRebalance(cr).cr, false);
  }

  lemma FinishQuietly(x: Setting, cr: CR)
    requires cr.status.ready && cr.status.state.Ready? && cr.status.rebalance
    requires cr.hashes == RestartHash.AfterConfig(x.h, cr.hashes, ConfigFor(cr.config, true))
    requires cr.hashes.confHash == x.h.all(ConfigFor(cr.config, true))
    ensures FinishStage(x, cr).cr == cr && Quiet(FinishStage(x, cr).events)
  {
    ConfigStageMeans(x, cr, false);
    var configured := ConfigStage(x, cr, false);
    QuietThen(configured, SuccessStage(configured.cr));
    QuietThen(EnableRebalance(cr), Then(configured, SuccessStage(configured.cr)));
  }

  lemma AISReadyMeans(x: Setting, w: World, cr: CR)
    requires SizesUsable(x)
    ensures var r := AISReadyStage(x, w, cr);
            && (r.outcome.Go? <==>
                  && w.healthy && w.proxyCount >= MinReady(x, cr.status, Proxies)
                  && w.targetCount >= MinReady(x, cr.status, Targets))
            && (r.outcome.Go? ==> r.cr == cr.(status := cr.status.(clusterId := w.uuid)))
            && (r.outcome.Go? && cr.status.clusterId == w.uuid ==> r.cr == cr && Quiet(r.events))
  {
  }

  /** All that a pass in which nothing is left to wait for depends on. */
  ghost predicate NothingToWaitFor(x: Setting, w: World, cr: CR)
    requires SizesUsable(x)
  {
    && w.proxies.found.Some? && AtRest(x, cr.status, Proxies, w.proxies.found.value)
    && (if w.targets.found.None? then w.targets.taken else AtRest(x, cr.status, Targets, w.targets.found.value))
    && w.healthy && w.proxyCount >= MinReady(x, cr.status, Proxies) && w.targetCount >= MinReady(x, cr.status, Targets)
  }

  lemma ProxiesPass(x: Setting, w: World, cr: CR)
    requires SizesUsable(x)
    ensures var r := Waiting(ProxyStage(x, w, cr));
            && !r.outcome.Done?
            && (r.outcome.Go? <==>
                  w.proxies.found.Some? && AtRest(x, cr.status, Proxies, w.proxies.found.value)
                  && !RolloutNeeded(x, cr.hashes, Proxies, w.proxies.found.value))
            && (r.outcome.Go? ==> r.cr == cr)
  {
    ProxyStageRests(x, w, cr);
    ProxyStageNotDone(x, w, cr);
    WaitingIsLouder(ProxyStage(x, w, cr));
  }

  lemma TargetsPass(x: Setting, w: World, cr: CR)
    requires SizesUsable(x)
    ensures var r := Waiting(TargetStage(x, w, cr));
            && !r.outcome.Done?
            && (r.outcome.Go? <==>
                  if w.targets.found.None? then w.targets.taken
                  else AtRest(x, cr.status, Targets, w.targets.found.value)
                       && !RolloutNeeded(x, cr.hashes, Targets, w.targets.found.value))
            && (r.outcome.Go? ==> r.cr == cr)
  {
    TargetStageRests(x, w, cr);
    TargetStageNotDone(x, w, cr);
    WaitingIsLouder(TargetStage(x, w, cr));
  }

  lemma RestPasses(x: Setting, w: World, cr: CR)
    requires SizesUsable(x)
    ensures var ready := Waiting(AISReadyStage(x, w, cr));
            var r := Then(ready, FinishStage(x, ready.cr));
            && (r.outcome.Done? <==>
                  && w.healthy && w.proxyCount >= MinReady(x, cr.status, Proxies)
                  && w.targetCount >= MinReady(x, cr.status, Targets))
            && (r.outcome.Done? ==> r.cr == Settled(x, w, cr))
  {
    AISReadyMeans(x, w, cr);
    var ready := Waiting(AISReadyStage(x, w, cr));
    WaitingIsLouder(AISReadyStage(x, w, cr));
    FinishMeans(x, ready.cr);
  }

  /** The drive towards the spec ends well exactly if nothing is left to wait for or to roll out. */
  lemma EventsMean(x: Setting, w: World, cr: CR)
    requires SizesUsable(x)
    ensures var r := HandleCREvents(x, w, cr);
            && (r.outcome.Done? <==> NothingToWaitFor(x, w, cr) && !RolloutDue(x, w, cr.hashes))
            && (r.outcome.Done? ==> r.cr == Settled(x, w, cr))
  {
    ProxiesPass(x, w, cr);
    TargetsPass(x, w, cr);
    RestPasses(x, w, cr);
  }

  lemma ProxyStageNotDone(x: Setting, w: World, cr: CR)
    requires SizesUsable(x)
    ensures !ProxyStage(x, w, cr).outcome.Done?
  {
  }

  lemma DisableRebalanceGoes(x: Setting, cr: CR)
    ensures DisableRebalance(x, cr).outcome.Go?
  {
  }

  lemma ScaleTargetsNotDone(x: Setting, w: World, cr: CR, ss: StatefulSet)
    requires SizesUsable(x)
    ensures !ScaleTargets(x, w, cr, ss).outcome.Done? && !ScaleTargets(x, w, cr, ss).outcome.Go?
  {
    var started := StartTargetScaling(x, cr, ss);
    StartGoes(x, cr, ss);
    ResolveNotDone(x, w, started.cr, ss);
  }

  lemma StartGoes(x: Setting, cr: CR, ss: StatefulSet)
    requires SizesUsable(x)
    ensures StartTargetScaling(x, cr, ss).outcome.Go?
  {
  }

  lemma ResolveNotDone(x: Setting, w: World, cr: CR, ss: StatefulSet)
    requires SizesUsable(x)
    ensures var r := ResolveTargetScaling(x, w, cr, ss); !r.outcome.Done? && !r.outcome.Go?
  {
    DisableRebalanceGoes(x, cr);
  }

  lemma TargetStageNotDone(x: Setting, w: World, cr: CR)
    requires SizesUsable(x)
    ensures !TargetStage(x, w, cr).outcome.Done?
  {
    if w.targets.found.Some? {
      var found := w.targets.found.value;
      DriveTargetsMeans(x, w, cr, found);
    }
  }

  /** In the state that a successful pass leaves, the drive towards the spec writes exactly if a template is due. */
  lemma EventsQuietExactly(x: Setting, w: World, cr: CR)
    requires SizesUsable(x) && NothingToWaitFor(x, w, cr)
    requires cr.status.ready && cr.status.state.Ready? && cr.status.rebalance && cr.status.clusterId == w.uuid
    requires cr.hashes == RestartHash.AfterConfig(x.h, cr.hashes, ConfigFor(cr.config, true))
    requires cr.hashes.confHash == x.h.all(ConfigFor(cr.config, true))
    ensures var r := HandleCREvents(x, w, cr);
            && (Quiet(r.events) <==> !RolloutDue(x, w, cr.hashes))
            && (Quiet(r.events) ==> r.cr == cr && r.outcome.Done?)
  {
    ProxyStageRests(x, w, cr);
    var proxies := Waiting(ProxyStage(x, w, cr));
    var targets := Waiting(TargetStage(x, w, proxies.cr));
    var ready := Waiting(AISReadyStage(x, w, targets.cr));
    var finish := FinishStage(x, ready.cr);
    QuietThen(ready, finish);
    QuietThen(targets, Then(ready, finish));
    QuietThen(proxies, Then(targets, Then(ready, finish)));
    WaitingIsLouder(ProxyStage(x, w, cr));
    if proxies.outcome.Go? {
      TargetStageRests(x, w, cr);
      WaitingIsLouder(TargetStage(x, w, cr));
      if targets.outcome.Go? {
        AISReadyMeans(x, w, cr);
        FinishQuietly(x, cr);
        FinishMeans(x, cr);
      } else {
        TargetRolloutWrites(x, w, cr);
      }
    }
  }

  lemma WaitingIsLouder(r: Result)
    ensures Quiet(Waiting(r).events) ==> Quiet(r.events)
    ensures Waiting(r).outcome == r.outcome
    ensures !r.outcome.Requeue? ==> Waiting(r) == r
  {
    assert forall i :: 0 <= i < |r.events| ==> Waiting(r).events[i] == r.events[i];
  }

  // ------------------------------------------------------- the whole pass

  /** A pass over a live cluster that is not marked for deletion and not to be shut down begins without a write,
      once its node lists are up to date. */
  lemma EarlyQuietly(x: Setting, w: World, cr: CR)
    requires cr.status.state.Ready? && !cr.deleted
    requires AutoScales(x, Proxies) || AutoScales(x, Targets) ==> cr.status.nodes == w.wantedNodes
    ensures var r := Early(x, w, cr);
            && (cr.shutdown ==> !Quiet(r.events))
            && (!cr.shutdown ==> Quiet(r.events) && r.cr == cr && r.outcome.Go?)
  {
    var a := InitializeStage(cr);
    var b := AutoScaleStage(x, w, cr);
    var c := DeletionStage(cr);
    var d := ShutdownStage(x, cr);
    var e := SwitchStage(x, w, d.cr);
    QuietThen(d, e);
    QuietThen(c, Then(d, e));
    QuietThen(b, Then(c, Then(d, e)));
    QuietThen(a, Then(b, Then(c, Then(d, e))));
    assert Quiet(c.events);
    if cr.shutdown {
      var off := DisableRebalance(x, cr);
      assert off.events[0] == StatusPatched(cr.status.(rebalance := false));
      assert d.events[1] == off.events[0];
    }
  }

  lemma BeginningsLeave(x: Setting, w: World, cr: CR)
    ensures var a := InitializeStage(cr);
            var b := AutoScaleStage(x, w, a.cr);
            var c := DeletionStage(b.cr);
            && a.outcome.Go? && b.outcome.Go? && c.outcome.Go?
            && c.cr.deleted == cr.deleted && c.cr.shutdown == cr.shutdown && c.cr.hashes == cr.hashes
            && !c.cr.status.state.New? && (c.cr.deleted ==> Rank(c.cr.status.state) > 0)
            && (AutoScales(x, Proxies) || AutoScales(x, Targets) ==> c.cr.status.nodes == w.wantedNodes)
  {
    var a := InitializeStage(cr);
    InitializeLeaves(cr);
    var b := AutoScaleStage(x, w, a.cr);
    AutoScaleLeaves(x, w, a.cr);
    DeletionLeaves(b.cr);
  }

  lemma InitializeLeaves(cr: CR)
    ensures var a := InitializeStage(cr);
            && a.outcome.Go? && !a.cr.status.state.New?
            && a.cr.deleted == cr.deleted && a.cr.shutdown == cr.shutdown && a.cr.hashes == cr.hashes
  {
  }

  lemma AutoScaleLeaves(x: Setting, w: World, cr: CR)
    ensures var b := AutoScaleStage(x, w, cr);
            && b.outcome.Go? && b.cr == cr.(status := cr.status.(nodes := b.cr.status.nodes))
            && (AutoScales(x, Proxies) || AutoScales(x, Targets) ==> b.cr.status.nodes == w.wantedNodes)
  {
  }

  lemma DeletionLeaves(cr: CR)
    ensures var c := DeletionStage(cr);
            && c.outcome.Go? && c.cr == cr.(status := cr.status.(state := c.cr.status.state))
            && (!cr.status.state.New? ==> !c.cr.status.state.New?)
            && (cr.deleted ==> Rank(c.cr.status.state) > 0)
  {
  }

  lemma SwitchGoesOn(x: Setting, w: World, cr: CR)
    requires SwitchStage(x, w, cr).outcome.Go? && !cr.status.state.New?
    ensures SwitchStage(x, w, cr).cr == cr && Live(cr.status.state)
  {
    match cr.status.state
    case CleaningResources => CleanupStops(x, w, cr);
    case ShuttingDown => ShutdownStops(w, cr);
    case _ =>
  }

  lemma CleanupStops(x: Setting, w: World, cr: CR)
    ensures !CleanupClusterRes(x, w, cr).outcome.Go?
  {
  }

  lemma ShutdownStops(w: World, cr: CR)
    ensures !ShutdownCluster(w, cr).outcome.Go?
  {
  }

  /** What the early stages leave to the later ones. */
  lemma EarlyLeaves(x: Setting, w: World, cr: CR)
    requires !Gone(cr) && Early(x, w, cr).outcome.Go?
    ensures var r := Early(x, w, cr).cr;
            && r.deleted == cr.deleted && r.shutdown == cr.shutdown && !r.deleted && Live(r.status.state)
            && (AutoScales(x, Proxies) || AutoScales(x, Targets) ==> r.status.nodes == w.wantedNodes)
            && r.hashes == cr.hashes
  {
    BeginningsLeave(x, w, cr);
    var a := InitializeStage(cr);
    var b := AutoScaleStage(x, w, a.cr);
    var c := DeletionStage(b.cr);
    var d := ShutdownStage(x, c.cr);
    if ShouldStartShutdown(c.cr) {
      ShutdownStageMoves(x, c.cr);
      ShutdownStops(w, d.cr);
    }
    SwitchGoesOn(x, w, d.cr);
  }

  lemma ShutdownStageMoves(x: Setting, cr: CR)
    requires ShouldStartShutdown(cr)
    ensures ShutdownStage(x, cr).cr.status.state.ShuttingDown? && ShutdownStage(x, cr).outcome.Go?
    ensures ShutdownStage(x, cr).cr.shutdown
  {
    ConfigStageMeans(x, cr.(status := cr.status.(rebalance := false)), true);
  }

  lemma ShutdownKeepsState(w: World, cr: CR)
    ensures ShutdownCluster(w, cr).cr.status.state in {cr.status.state, Shutdown}
  {
  }

  lemma CleanupKeepsState(x: Setting, w: World, cr: CR)
    ensures CleanupClusterRes(x, w, cr).cr.status.state in {cr.status.state, HostCleanup}
  {
    var mounts := if HasHostCleanup(x) then CleanMounts(cr) else Skip(cr);
    assert mounts.cr.status.state in {cr.status.state, HostCleanup};
    AfterMountsKeeps(mounts.cr, w.left.objects);
  }

  lemma AfterMountsKeeps(cr: CR, existed: bool)
    ensures AfterMounts(cr, existed).cr.status.state in {cr.status.state, HostCleanup}
  {
  }

  lemma OthersKeepAwayFromReady(w: World, cr: CR)
    ensures DecommissionCluster(w, cr).cr.status.state in {cr.status.state, CleaningResources}
    ensures CleanupHost(w, cr).cr.status.state in {cr.status.state, Finalized}
    ensures Finalize(cr).cr.status == cr.status
  {
  }

  lemma SwitchNeverEndsReady(x: Setting, w: World, cr: CR)
    requires SwitchStage(x, w, cr).outcome.Done?
    ensures !SwitchStage(x, w, cr).cr.status.state.Ready?
  {
    var state := cr.status.state;
    if state.ShuttingDown? {
      ShutdownKeepsState(w, cr);
    } else if state.CleaningResources? {
      CleanupKeepsState(x, w, cr);
    } else {
      OthersKeepAwayFromReady(w, cr);
    }
  }

  lemma EarlyNeverEndsReady(x: Setting, w: World, cr: CR)
    requires Early(x, w, cr).outcome.Done?
    ensures !Early(x, w, cr).cr.status.state.Ready?
  {
    var a := InitializeStage(cr);
    var b := AutoScaleStage(x, w, a.cr);
    var c := DeletionStage(b.cr);
    var d := ShutdownStage(x, c.cr);
    if ShouldStartShutdown(c.cr) {
      ShutdownStageMoves(x, c.cr);
    }
    assert a.outcome.Go? && b.outcome.Go? && c.outcome.Go? && d.outcome.Go?;
    SwitchNeverEndsReady(x, w, d.cr);
  }

  /** If the later stages end well and in Ready, then the spec is valid and nothing is left to wait for or roll
      out. */
  lemma LateEndsReady(x: Setting, w: World, cr: CR)
    requires Late(x, w, cr).outcome.Done? && Late(x, w, cr).cr.status.state.Ready?
    ensures SizesUsable(x) && PrereqStage(x, w, cr) == Skip(cr)
    ensures var b := URLStage(cr).cr;
            && b.status.created && b.status.url && NothingToWaitFor(x, w, b) && !RolloutDue(x, w, cr.hashes)
            && Late(x, w, cr).cr == Settled(x, w, b)
  {
    PrereqsMakeSizesUsable(x, w, cr);
    var b := URLStage(cr);
    if b.cr.status.created {
      EventsMean(x, w, b.cr);
    } else {
      BootstrapNeverEndsReady(x, w, b.cr);
    }
  }

  lemma BootstrapNeverEndsReady(x: Setting, w: World, cr: CR)
    requires SizesUsable(x)
    ensures BootstrapNew(x, w, cr).outcome.Done? ==> !BootstrapNew(x, w, cr).cr.status.state.Ready?
  {
  }

  lemma LateQuietExactly(x: Setting, w: World, cr: CR)
    requires SizesUsable(x) && PrereqStage(x, w, cr) == Skip(cr) && NothingToWaitFor(x, w, cr)
    requires cr.status.created && cr.status.url
    requires cr.status.ready && cr.status.state.Ready? && cr.status.rebalance && cr.status.clusterId == w.uuid
    requires cr.hashes == RestartHash.AfterConfig(x.h, cr.hashes, ConfigFor(cr.config, true))
    requires cr.hashes.confHash == x.h.all(ConfigFor(cr.config, true))
    ensures var r := Late(x, w, cr);
            && (Quiet(r.events) <==> !RolloutDue(x, w, cr.hashes))
            && (Quiet(r.events) ==> r.cr == cr && r.outcome.Done?)
  {
    EventsQuietExactly(x, w, cr);
    var events := HandleCREvents(x, w, cr);
    QuietThen(URLStage(cr), events);
    QuietThen(PrereqStage(x, w, cr), Then(URLStage(cr), events));
  }

  lemma SettledStaysUp(x: Setting, w: World, cr: CR)
    requires SizesUsable(x) && NothingToWaitFor(x, w, cr)
    ensures NothingToWaitFor(x, w, Settled(x, w, cr))
  {
    assert Settled(x, w, cr).status.nodes == cr.status.nodes;
  }

  lemma QuietFramed(events: seq<Event>)
    ensures Quiet([PassStarts] + events + [PassEnds]) <==> Quiet(events)
  {
    var all := [PassStarts] + events + [PassEnds];
    assert forall i :: 0 <= i < |events| ==> all[i + 1] == events[i];
    if Quiet(events) {
      forall i | 0 <= i < |all| ensures !IsWrite(all[i]) {
        if 0 < i < |all| - 1 {
          assert all[i] == events[i - 1];
        }
      }
    }
  }

  lemma QuietPass(x: Setting, w: World, cr: CR)
    requires !Gone(cr)
    ensures Quiet(WholePass(x, w, cr).events) <==>
            && Quiet(Early(x, w, cr).events)
            && (Early(x, w, cr).outcome.Go? ==> Quiet(Late(x, w, Early(x, w, cr).cr).events))
  {
    var early := Early(x, w, cr);
    QuietThen(early, Late(x, w, early.cr));
    QuietFramed(Then(early, Late(x, w, early.cr)).events);
  }

  /** After a pass that ends well and in Ready, the next one over the same world writes nothing - exactly if no shutdown
      is asked for and the hashes just recorded call for no new template. */
  lemma NextPassIsQuietExactly(x: Setting, w: World, cr: CR)
    requires RestartHash.Hexadecimal(x.h) && !Gone(cr)
    ensures var first := WholePass(x, w, cr);
            var second := WholePass(x, w, first.cr);
            first.outcome.Done? && first.cr.status.state.Ready? ==>
              && (Quiet(second.events) <==> !cr.shutdown && !RolloutDue(x, w, first.cr.hashes))
              && (Quiet(second.events) ==> second.cr == first.cr && second.outcome.Done?)
  {
    var early := Early(x, w, cr);
    var first := WholePass(x, w, cr).cr;
    if WholePass(x, w, cr).outcome.Done? && first.status.state.Ready? {
      if early.outcome.Done? {
        EarlyNeverEndsReady(x, w, cr);
      }
      EarlyLeaves(x, w, cr);
      LateEndsReady(x, w, early.cr);
      var b := URLStage(early.cr).cr;
      assert first == Settled(x, w, b);
      SettledStaysUp(x, w, b);
      AfterConfigIsIdempotent(x.h, b.hashes, ConfigFor(b.config, true));
      EarlyQuietly(x, w, first);
      QuietPass(x, w, first);
      if !cr.shutdown {
        assert PrereqStage(x, w, first) == Skip(first);
        LateQuietExactly(x, w, first);
      }
    }
  }

  /** In particular the next pass is quiet if no shutdown is asked for and the pass left the recorded restart hash
      alone. */
  lemma NextPassIsQuiet(x: Setting, w: World, cr: CR)
    requires RestartHash.Hexadecimal(x.h) && !Gone(cr) && !cr.shutdown
    ensures var first := WholePass(x, w, cr);
            first.outcome.Done? && first.cr.status.state.Ready? && first.cr.hashes.annot == cr.hashes.annot ==>
              Quiet(WholePass(x, w, first.cr).events)
  {
    var early := Early(x, w, cr);
    var first := WholePass(x, w, cr);
    if first.outcome.Done? && first.cr.status.state.Ready? {
      if early.outcome.Done? {
        EarlyNeverEndsReady(x, w, cr);
      }
      EarlyLeaves(x, w, cr);
      LateEndsReady(x, w, early.cr);
      NextPassIsQuietExactly(x, w, cr);
    }
  }

  lemma NamedWaitsTheSame(x: Setting, w: World, cr: CR)
    requires SizesUsable(x)
    ensures NothingToWaitFor(x, w, URLStage(cr).cr) <==> NothingToWaitFor(x, w, cr)
    ensures URLStage(cr).outcome.Go? && URLStage(cr).cr.hashes == cr.hashes
    ensures URLStage(cr).cr.status.created == cr.status.created
  {
  }

  lemma LateEndsWell(x: Setting, w: World, cr: CR)
    requires forall v: Validation :: !Rejects(x.spec, v)
    requires SizesUsable(x) && cr.status.created && (x.externalAccess ==> w.servicesReady)
    requires NothingToWaitFor(x, w, cr) && !RolloutDue(x, w, cr.hashes)
    ensures Late(x, w, cr).outcome.Done? && Late(x, w, cr).cr.status.state.Ready?
  {
    NamedWaitsTheSame(x, w, cr);
    assert PrereqStage(x, w, cr) == Skip(cr);
    LateMeans(x, w, cr);
    EventsMean(x, w, URLStage(cr).cr);
  }

  lemma LateEndsWellOnly(x: Setting, w: World, cr: CR)
    requires SizesUsable(x) && Late(x, w, cr).outcome.Done? && Late(x, w, cr).cr.status.state.Ready?
    ensures cr.status.created && (x.externalAccess ==> w.servicesReady)
    ensures NothingToWaitFor(x, w, cr) && !RolloutDue(x, w, cr.hashes)
  {
    LateEndsReady(x, w, cr);
    NamedWaitsTheSame(x, w, cr);
  }

  /** Both StatefulSets are let be, whatever pods their counters stand for - that of the targets may be missing, if its
      name is taken - and the cluster is healthy with enough of each in its map. */
  ghost predicate AllIsWell(x: Setting, w: World, cr: CR, proxyPods: PodSet, targetPods: PodSet)
    requires SizesUsable(x)
  {
    && w.proxies.found.Some? && IsLetBe(x, cr, Proxies, w.proxies.found.value, proxyPods)
    && (if w.targets.found.None? then w.targets.taken
        else IsLetBe(x, cr, Targets, w.targets.found.value, targetPods))
    && w.healthy && w.proxyCount >= MinReady(x, cr.status, Proxies) && w.targetCount >= MinReady(x, cr.status, Targets)
  }

  /** The counters of a StatefulSet that is found are those of the pods. */
  ghost predicate CountsOf(view: View, pods: PodSet) {
    view.found.Some? ==> AllCountersMatch(view.found.value.ss, pods)
  }

  lemma WellExactly(x: Setting, w: World, cr: CR, proxyPods: PodSet, targetPods: PodSet)
    requires SizesUsable(x) && CountsOf(w.proxies, proxyPods) && CountsOf(w.targets, targetPods)
    ensures AllIsWell(x, w, cr, proxyPods, targetPods) <==>
            NothingToWaitFor(x, w, cr) && !RolloutDue(x, w, cr.hashes)
  {
    if w.proxies.found.Some? {
      StepExactly(x, cr, Proxies, w.proxies.found.value, proxyPods);
      RestIsRest(x, cr, Proxies, w.proxies.found.value);
    }
    if w.targets.found.Some? {
      StepExactly(x, cr, Targets, w.targets.found.value, targetPods);
      RestIsRest(x, cr, Targets, w.targets.found.value);
    }
  }

  /** When a pass ends well and in Ready: over a cluster that is to be run, with a valid spec, exactly if the cluster
      was created, external services have their addresses, and all is well. */
  lemma PassEndsReadyExactly(x: Setting, w: World, cr: CR, proxyPods: PodSet, targetPods: PodSet)
    requires IsToRun(cr) && IsValid(x) && CountsOf(w.proxies, proxyPods) && CountsOf(w.targets, targetPods)
    ensures SizesUsable(x)
    ensures var r, c := WholePass(x, w, cr), Counted(x, w, cr);
            r.outcome.Done? && r.cr.status.state.Ready? <==>
              && cr.status.created && (x.externalAccess ==> w.servicesReady)
              && AllIsWell(x, w, c, proxyPods, targetPods)
  {
    AcceptedSizes(x.spec, 0, 0);
    EarlyIs(x, w, cr);
    CountedIs(x, w, cr);
    var c := Counted(x, w, cr);
    WellExactly(x, w, c, proxyPods, targetPods);
    assert c.status.created == cr.status.created;
    if Late(x, w, c).outcome.Done? && Late(x, w, c).cr.status.state.Ready? {
      LateEndsWellOnly(x, w, c);
    } else if cr.status.created && (x.externalAccess ==> w.servicesReady)
              && NothingToWaitFor(x, w, c) && !RolloutDue(x, w, c.hashes) {
      LateEndsWell(x, w, c);
    }
  }

  // ------------------------------------------ Ready without having read Ready

  function OneOfEach(): Spec {
    Spec(Some(1), Daemon(None, false, None), Daemon(None, false, None), Some(StateStorage(true, false, false)),
         false, false, false, {}, map[])
  }

  function Plain(): Setting {
    Setting(OneOfEach(), RestartHash.Hashes(_ => "a", _ => "a"), false, false, false, map[], map[], None)
  }

  function OneUp(): StatefulSet {
    StatefulSet(1, 1, RollingUpdate(None), Status(1, 1, 1, 1, 1, "a", "a"))
  }

  function OneFound(): Found {
    Found(OneUp(), false, RestartHash.PrepareAnnotations(map[], None, Some("")), false)
  }

  function WithoutTargets(): World {
    World(View(Some(OneFound()), OneUp(), true), View(None, OneUp(), true),
          AutoScaleStatus([], []), true, true, true, true, 1, 1, "id", true, Remains(false, false))
  }

  function UpgradingCR(): CR {
    CR(true, false, false, None, RestartHash.Recorded("", ""),
       ClusterStatus(Upgrading, true, false, false, AutoScaleStatus([], []), true, "id"))
  }

  lemma OneOfEachIsValid()
    ensures forall v: Validation :: !Rejects(OneOfEach(), v)
    ensures SizesUsable(Plain()) && !AutoScales(Plain(), Proxies) && !AutoScales(Plain(), Targets)
  {
  }

  lemma OneIsUp()
    ensures SizesUsable(Plain())
    ensures NothingToWaitFor(Plain(), WithoutTargets(), UpgradingCR())
  {
    assert AtRest(Plain(), UpgradingCR().status, Proxies, OneFound());
  }

  lemma OneNeedsNoRollout()
    ensures !RolloutDue(Plain(), WithoutTargets(), UpgradingCR().hashes)
  {
    RestartHash.AnnotationsRollExactly(map[], None, "", "");
  }

  function OnePod(): PodSet { map[0 := Pod("a", false, true, false, false)] }

  lemma OneIsCounted()
    ensures CountsOf(WithoutTargets().proxies, OnePod())
  {
    assert UpdatedPods(OnePod(), "a") == {0} && ReadyPods(OnePod()) == {0};
  }

  /** With the target StatefulSet read as missing, and its name taken, a pass ends in Ready although no target
      StatefulSet was read. */
  lemma ReadyWithoutTargets()
    ensures WithoutTargets().targets.found.None? && !UpgradingCR().status.state.Ready?
    ensures var r := WholePass(Plain(), WithoutTargets(), UpgradingCR());
            r.outcome.Done? && r.cr.status.state.Ready?
  {
    OneOfEachIsValid();
    OneIsUp();
    OneNeedsNoRollout();
    OneIsCounted();
    assert Counted(Plain(), WithoutTargets(), UpgradingCR()) == UpgradingCR();
    WellExactly(Plain(), WithoutTargets(), UpgradingCR(), OnePod(), map[]);
    PassEndsReadyExactly(Plain(), WithoutTargets(), UpgradingCR(), OnePod(), map[]);
  }
}
