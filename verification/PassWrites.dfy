/** What a whole pass in a still world writes, and when: each write for its reason, found in the pods, and none
    without. */
module PassWrites {
  import opened Wrappers
  import opened StatefulSets
  import RebalanceConfig
  import opened ClusterSpec
  import opened Lifecycle
  import opened Passes
  import opened PassSteps

  lemma InThen(first: Result, second: Result, e: Event)
    ensures e in Then(first, second).events <==> e in first.events || (first.outcome.Go? && e in second.events)
  {
  }

  /** As far as e is concerned the two come to the same. */
  ghost predicate SameWork(r: Result, rest: Result, e: Event) {
    (e in r.events <==> e in rest.events) && r.outcome == rest.outcome && r.cr == rest.cr
  }

  /** What is done to StatefulSets, and what is said to nodes. */
  predicate IsWork(e: Event) {
    e.TemplatePatched? || e.PolicyPatched? || e.RolloutDriven? || e.ReplicasSet? || e.NodesToldToLeave? || e.Ensured?
  }

  /** That, and config pushes. */
  predicate IsDeed(e: Event) { IsWork(e) || e.Pushed? }

  // ------------------------------------------------------- up to the spec

  /** The cluster is to be run: it is not new, not being torn down, shut down or to be shut down. */
  predicate IsToRun(cr: CR) {
    && cr.status.state in {Initialized, InitializingLB, PendingLB, Created, State.Ready, Upgrading, Shutdown}
    && !cr.deleted && !(cr.shutdown && cr.status.state in {State.Ready, Shutdown})
  }

  ghost predicate IsValid(x: Setting) { forall v: Validation :: !Rejects(x.spec, v) }

  /** Nothing keeps a pass from bringing the cluster in line with the spec. */
  ghost predicate GoesOn(x: Setting, w: World, cr: CR) {
    IsToRun(cr) && IsValid(x) && (x.externalAccess ==> w.servicesReady)
  }

  /** The CR as the pass then has it: with the node lists of now. */
  function TakenUp(x: Setting, w: World, cr: CR): CR { Named(Counted(x, w, cr)) }

  function Named(cr: CR): CR { cr.(status := cr.status.(url := true)) }

  function Counted(x: Setting, w: World, cr: CR): CR {
    if AutoScales(x, Proxies) || AutoScales(x, Targets) then cr.(status := cr.status.(nodes := w.wantedNodes)) else cr
  }

  lemma EarlyIs(x: Setting, w: World, cr: CR)
    requires IsToRun(cr)
    ensures var scaled := AutoScaleStage(x, w, cr);
            && Early(x, w, cr) == Result(scaled.cr, scaled.events + [PastDeletionCheck, PastSwitch], Go)
            && IsToRun(scaled.cr) && forall e :: e in scaled.events ==> e.StatusPatched?
  {
    var scaled := AutoScaleStage(x, w, cr);
    var c := scaled.cr;
    assert FromShutdown(x, w, c) == Note(c, PastSwitch);
    assert DeletionStage(c) == Note(c, PastDeletionCheck);
    assert FromDeletion(x, w, c) == Result(c, [PastDeletionCheck, PastSwitch], Go);
    assert InitializeStage(cr) == Skip(cr);
  }

  lemma LateIs(x: Setting, w: World, cr: CR)
    requires GoesOn(x, w, cr)
    ensures SizesUsable(x) && Late(x, w, cr) == FromURL(x, w, cr)
  {
    AcceptedSizes(x.spec, 0, 0);
    LateMeans(x, w, cr);
    assert PrereqStage(x, w, cr) == Skip(cr);
    assert [] + FromURL(x, w, cr).events == FromURL(x, w, cr).events;
  }

  function BringAbout(x: Setting, w: World, cr: CR): Result
    requires SizesUsable(x)
  {
    if cr.status.created then HandleCREvents(x, w, cr) else BootstrapNew(x, w, cr)
  }

  /** Such a pass does the work of the last stages, and no other. */
  lemma PassWorks(x: Setting, w: World, cr: CR, e: Event)
    requires GoesOn(x, w, cr) && IsDeed(e)
    ensures SizesUsable(x)
    ensures SameWork(WholePass(x, w, cr), BringAbout(x, w, TakenUp(x, w, cr)), e)
  {
    PassIs(x, w, cr);
    var early := Early(x, w, cr);
    EarlyMeans(x, w, cr, e);
    URLIs(x, w, early.cr, e);
    FrameAddsNone(early, FromURL(x, w, early.cr), BringAbout(x, w, TakenUp(x, w, cr)), e);
  }

  lemma EarlyMeans(x: Setting, w: World, cr: CR, e: Event)
    requires IsToRun(cr) && IsDeed(e)
    ensures var early := Early(x, w, cr);
            early.outcome.Go? && e !in early.events && early.cr == Counted(x, w, cr)
  {
    EarlyIs(x, w, cr);
    CountedIs(x, w, cr);
    NotAmong(AutoScaleStage(x, w, cr).events, e);
  }

  lemma CountedIs(x: Setting, w: World, cr: CR)
    ensures AutoScaleStage(x, w, cr).cr == Counted(x, w, cr)
  {
  }

  lemma NotAmong(patches: seq<Event>, e: Event)
    requires IsDeed(e) && forall p :: p in patches ==> p.StatusPatched?
    ensures e !in patches + [PastDeletionCheck, PastSwitch]
  {
  }

  lemma PassIs(x: Setting, w: World, cr: CR)
    requires GoesOn(x, w, cr)
    ensures SizesUsable(x)
    ensures var early := Early(x, w, cr); WholePass(x, w, cr) == Framed(Then(early, FromURL(x, w, early.cr)))
  {
    EarlyIs(x, w, cr);
    LateIs(x, w, Early(x, w, cr).cr);
  }

  lemma FrameAddsNone(early: Result, rest: Result, work: Result, e: Event)
    requires early.outcome.Go? && e !in early.events && IsDeed(e) && SameWork(rest, work, e)
    ensures SameWork(Framed(Then(early, rest)), work, e)
  {
  }

  lemma URLIs(x: Setting, w: World, cr: CR, e: Event)
    requires SizesUsable(x) && IsDeed(e)
    ensures SameWork(FromURL(x, w, cr), BringAbout(x, w, Named(cr)), e)
  {
    assert URLStage(cr).cr == Named(cr);
    InThen(URLStage(cr), BringAbout(x, w, Named(cr)), e);
  }

  // ------------------------------------------------------------ the drive

  lemma WaitingAddsNone(r: Result, e: Event)
    requires IsDeed(e)
    ensures e in Waiting(r).events <==> e in r.events
    ensures Waiting(r).outcome == r.outcome && (!r.outcome.Requeue? ==> Waiting(r) == r)
  {
  }

  lemma ProxyStageKeeps(x: Setting, w: World, cr: CR)
    requires SizesUsable(x)
    ensures ProxyStage(x, w, cr).cr == cr && !ProxyStage(x, w, cr).outcome.Done?
  {
  }

  lemma EndDoesNoWork(x: Setting, w: World, cr: CR, e: Event)
    requires SizesUsable(x) && IsWork(e)
    ensures e !in FromCluster(x, w, cr).events
  {
    var ready := Waiting(AISReadyStage(x, w, cr));
    WaitingAddsNone(AISReadyStage(x, w, cr), e);
    InThen(Note(cr, MapRead(w.proxyCount, w.targetCount)), ClusterIDStage(cr, w.uuid), e);
    InThen(ready, FinishStage(x, ready.cr), e);
    FinishDoesNoWork(x, ready.cr, e);
  }

  lemma FinishDoesNoWork(x: Setting, cr: CR, e: Event)
    requires IsWork(e)
    ensures e !in FinishStage(x, cr).events
  {
    var on := EnableRebalance(cr);
    InThen(on, LastSteps(x, on.cr), e);
    var configured := ConfigStage(x, on.cr, false);
    InThen(configured, SuccessStage(configured.cr), e);
    ConfigDoesNoWork(x, on.cr, false, e);
  }

  lemma ConfigDoesNoWork(x: Setting, cr: CR, force: bool, e: Event)
    requires IsWork(e)
    ensures var r := ConfigStage(x, cr, force); e !in r.events && r.outcome.Go? && r.cr.status == cr.status
  {
    var conf := RebalanceConfigFor(cr);
    InThen(PushStage(x, cr, conf, force), RecordStage(x, cr, conf), e);
  }

  function RebalanceConfigFor(cr: CR): RebalanceConfig.Config {
    RebalanceConfig.ConfigFor(cr.config, cr.status.rebalance)
  }

  /** The drive works on the proxies, and on the targets only once the proxies are let be. */
  lemma DriveWorks(x: Setting, w: World, cr: CR, e: Event)
    requires SizesUsable(x) && IsWork(e)
    ensures var proxies, targets := ProxyStage(x, w, cr), TargetStage(x, w, cr);
            e in HandleCREvents(x, w, cr).events <==>
              e in proxies.events || (proxies.outcome.Go? && e in targets.events)
  {
    var proxies, targets := ProxyStage(x, w, cr), TargetStage(x, w, cr);
    ProxyStageKeeps(x, w, cr);
    WaitingAddsNone(proxies, e);
    WaitingAddsNone(targets, e);
    InThen(Waiting(proxies), FromTargets(x, w, Waiting(proxies).cr), e);
    InThen(Waiting(targets), FromCluster(x, w, Waiting(targets).cr), e);
    EndDoesNoWork(x, w, Waiting(targets).cr, e);
  }

  // ------------------------------------------------------------- proxies

  predicate Confirmed(x: Setting, status: ClusterStatus, kind: Kind, found: StatefulSet, direct: StatefulSet)
    requires SizesUsable(x)
  {
    AutoScales(x, kind) && SizeOf(x, status, kind) < found.replicas ==> ScalingNeeded(x, status, kind, direct)
  }

  lemma DriveProxiesWorks(x: Setting, w: World, cr: CR, found: Found, e: Event)
    requires SizesUsable(x) && IsWork(e)
    ensures var r, step := DriveProxies(x, w, cr, found), StepFor(x, cr, Proxies, found);
            && (e in r.events <==>
                  || (e == TemplatePatched(Proxies) && step.WriteTemplate?)
                  || (e == PolicyPatched(Proxies) && step.WritePolicy?)
                  || (e == RolloutDriven(Proxies) && step.DriveRollout?)
                  || (e == ReplicasSet(Proxies, SizeOf(x, cr.status, Proxies)) && step.Scale?
                      && Confirmed(x, cr.status, Proxies, found.ss, w.proxies.direct)))
            && r.outcome == if step.Rest? then Go else Requeue
  {
  }

  // ------------------------------------------------------------- targets

  lemma OffDoesNoWork(x: Setting, cr: CR, e: Event)
    requires IsWork(e)
    ensures var off := DisableRebalance(x, cr);
            e !in off.events && off.outcome.Go? && off.cr.status.nodes == cr.status.nodes
  {
    ConfigDoesNoWork(x, cr.(status := cr.status.(rebalance := false)), true, e);
  }

  lemma StartWorks(x: Setting, cr: CR, ss: StatefulSet, e: Event)
    requires SizesUsable(x) && IsWork(e)
    ensures var r := StartTargetScaling(x, cr, ss);
            && (e in r.events <==> e.NodesToldToLeave? && SizeOf(x, cr.status, Targets) <= ss.replicas)
            && r.outcome.Go? && r.cr.status.nodes == cr.status.nodes
  {
    var on := EnableRebalance(cr);
    var pushed := ConfigStage(x, on.cr, true);
    ConfigDoesNoWork(x, on.cr, true, e);
    InThen(pushed, Note(pushed.cr, NodesToldToLeave), e);
    InThen(on, Then(pushed, Note(pushed.cr, NodesToldToLeave)), e);
  }

  /** The size may be changed now: growth by several needs a healthy cluster, a shrink one that is ready for it. */
  predicate MayResize(w: World, from: nat, to: int) {
    && to != from
    && (from > 0 && to > from + 1 ==> w.healthy)
    && (to < from ==> w.readyToScaleDown)
  }

  predicate GrowthIsUnsafe(w: World, from: nat, to: int) { from > 0 && to > from + 1 && !w.healthy }

  lemma ResolveWorks(x: Setting, w: World, cr: CR, ss: StatefulSet, e: Event)
    requires SizesUsable(x) && IsWork(e)
    ensures var r, size := ResolveTargetScaling(x, w, cr, ss), SizeOf(x, cr.status, Targets);
            && (e in r.events <==> e == ReplicasSet(Targets, size) && MayResize(w, ss.replicas, size))
            && r.outcome == if GrowthIsUnsafe(w, ss.replicas, size) then Fail else Requeue
  {
    OffDoesNoWork(x, cr, e);
    var off, size := DisableRebalance(x, cr), SizeOf(x, cr.status, Targets);
    InThen(off, Result(off.cr, [ReplicasSet(Targets, size)], Requeue), e);
  }

  lemma ScaleWorks(x: Setting, w: World, cr: CR, ss: StatefulSet, e: Event)
    requires SizesUsable(x) && IsWork(e)
    ensures var r, size := ScaleTargets(x, w, cr, ss), SizeOf(x, cr.status, Targets);
            && (e in r.events <==>
                  && Confirmed(x, cr.status, Targets, ss, w.targets.direct)
                  && (|| (e.NodesToldToLeave? && size <= ss.replicas)
                      || (e == ReplicasSet(Targets, size) && MayResize(w, ss.replicas, size))))
            && r.outcome == if GrowthIsUnsafe(w, ss.replicas, size) then Fail else Requeue
  {
    var started := StartTargetScaling(x, cr, ss);
    StartWorks(x, cr, ss, e);
    ResolveWorks(x, w, started.cr, ss, e);
    InThen(started, ResolveTargetScaling(x, w, started.cr, ss), e);
    InThen(ConfirmStage(x, cr, Targets, ss, w.targets.direct), PerformTargetScaling(x, w, cr, ss), e);
  }

  lemma DriveTargetsWorks(x: Setting, w: World, cr: CR, found: Found, e: Event)
    requires SizesUsable(x) && IsWork(e)
    ensures var r, step := DriveTargets(x, w, cr, found), StepFor(x, cr, Targets, found);
            var size := SizeOf(x, cr.status, Targets);
            && (e in r.events <==>
                  || (e == TemplatePatched(Targets) && step.WriteTemplate?)
                  || (e == PolicyPatched(Targets) && step.WritePolicy?)
                  || (e == RolloutDriven(Targets) && step.DriveRollout?)
                  || (step.Scale? && Confirmed(x, cr.status, Targets, found.ss, w.targets.direct)
                      && (|| (e.NodesToldToLeave? && size <= found.ss.replicas)
                          || (e == ReplicasSet(Targets, size) && MayResize(w, found.ss.replicas, size)))))
            && r.outcome == (if step.Rest? then Go
                             else if step.Scale? && GrowthIsUnsafe(w, found.ss.replicas, size) then Fail else Requeue)
  {
    match StepFor(x, cr, Targets, found)
    case WriteTemplate =>
      var off := DisableRebalance(x, cr);
      OffDoesNoWork(x, cr, e);
      InThen(off, Result(off.cr, [TemplatePatched(Targets)], Requeue), e);
    case Scale => ScaleWorks(x, w, cr, found.ss, e);
    case _ =>
  }

  lemma TargetStageWorks(x: Setting, w: World, cr: CR, e: Event)
    requires SizesUsable(x) && IsWork(e)
    ensures var r := TargetStage(x, w, cr);
            && (e in r.events <==>
                  if w.targets.found.Some? then e in DriveTargets(x, w, cr, w.targets.found.value).events
                  else e == Ensured(Targets, w.targets.taken))
            && (e in r.events ==> e.NodesToldToLeave? || e.kind.Targets?)
  {
    if w.targets.found.Some? {
      var found := w.targets.found.value;
      InThen(Note(cr, StatefulSetRead(Targets, Some(found.ss))), DriveTargets(x, w, cr, found), e);
      DriveTargetsWorks(x, w, cr, found, e);
    } else {
      InThen(Note(cr, StatefulSetRead(Targets, None)), InitTargets(w, cr), e);
    }
  }

  // ------------------------------------------------------ the whole pass

  /** An autoscaled set shrinks only if its size is due by a direct read as well. */
  ghost predicate ConfirmedBy(x: Setting, status: ClusterStatus, kind: Kind, found: StatefulSet,
                              direct: StatefulSet, directPods: PodSet)
    requires SizesUsable(x)
  {
    AutoScales(x, kind) && SizeOf(x, status, kind) < found.replicas ==> SizeDue(x, status, kind, direct, directPods)
  }

  lemma ConfirmedExactly(x: Setting, status: ClusterStatus, kind: Kind, found: StatefulSet,
                         direct: StatefulSet, directPods: PodSet)
    requires SizesUsable(x) && AllCountersMatch(direct, directPods)
    ensures Confirmed(x, status, kind, found, direct) == ConfirmedBy(x, status, kind, found, direct, directPods)
  {
    ScalingNeededExactly(direct, directPods, SizeOf(x, status, kind), MaxUnavailable(DaemonOf(x, kind)),
                         AutoScales(x, kind));
  }

  /** What a pass over a created cluster does to the proxies. */
  lemma ProxyPart(x: Setting, w: World, cr: CR, found: Found, e: Event)
    requires GoesOn(x, w, cr) && cr.status.created && w.proxies.found == Some(found)
    requires IsWork(e) && !e.NodesToldToLeave? && e.kind.Proxies?
    ensures SizesUsable(x)
    ensures var c := TakenUp(x, w, cr); e in WholePass(x, w, cr).events <==> e in DriveProxies(x, w, c, found).events
  {
    var c := TakenUp(x, w, cr);
    PassWorks(x, w, cr, e);
    DriveWorks(x, w, c, e);
    TargetStageWorks(x, w, c, e);
    InThen(Note(c, StatefulSetRead(Proxies, Some(found.ss))), DriveProxies(x, w, c, found), e);
  }

  /** Over a created cluster, what a pass writes to the proxies that it finds: for each kind of write, exactly when; and
      nothing else. */
  lemma ProxyWritesExactly(x: Setting, w: World, cr: CR, found: Found, pods: PodSet, directPods: PodSet, e: Event)
    requires GoesOn(x, w, cr) && cr.status.created
    requires w.proxies.found == Some(found) && AllCountersMatch(found.ss, pods)
    requires AllCountersMatch(w.proxies.direct, directPods)
    requires IsWork(e) && !e.NodesToldToLeave? && e.kind.Proxies?
    ensures SizesUsable(x)
    ensures var c, r := TakenUp(x, w, cr), WholePass(x, w, cr);
            e in r.events <==>
              || (e == TemplatePatched(Proxies) && WritesTemplate(x, c, Proxies, found, pods))
              || (e == PolicyPatched(Proxies) && WritesPolicy(x, c, Proxies, found, pods))
              || (e == RolloutDriven(Proxies) && TakesRolloutOn(x, c, Proxies, found, pods))
              || (e == ReplicasSet(Proxies, SizeOf(x, c.status, Proxies))
                  && ChangesSize(x, c, Proxies, found, pods)
                  && ConfirmedBy(x, c.status, Proxies, found.ss, w.proxies.direct, directPods))
  {
    ProxyPart(x, w, cr, found, e);
    var c := TakenUp(x, w, cr);
    StepExactly(x, c, Proxies, found, pods);
    DriveProxiesWorks(x, w, c, found, e);
    ConfirmedExactly(x, c.status, Proxies, found.ss, w.proxies.direct, directPods);
  }

  /** What it does to the targets. */
  lemma TargetPart(x: Setting, w: World, cr: CR, proxies: Found, found: Found, e: Event)
    requires GoesOn(x, w, cr) && cr.status.created
    requires w.proxies.found == Some(proxies) && w.targets.found == Some(found)
    requires IsWork(e) && (e.NodesToldToLeave? || e.kind.Targets?)
    ensures SizesUsable(x)
    ensures var c := TakenUp(x, w, cr);
            e in WholePass(x, w, cr).events <==>
              StepFor(x, c, Proxies, proxies).Rest? && e in DriveTargets(x, w, c, found).events
  {
    var c := TakenUp(x, w, cr);
    PassWorks(x, w, cr, e);
    DriveWorks(x, w, c, e);
    TargetStageWorks(x, w, c, e);
    DriveProxiesWorks(x, w, c, proxies, e);
    InThen(Note(c, StatefulSetRead(Proxies, Some(proxies.ss))), DriveProxies(x, w, c, proxies), e);
  }

  /** The same of the targets, which get their turn only once the proxies are let be. */
  lemma TargetWritesExactly(x: Setting, w: World, cr: CR, proxies: Found, proxyPods: PodSet,
                            found: Found, pods: PodSet, directPods: PodSet, e: Event)
    requires GoesOn(x, w, cr) && cr.status.created
    requires w.proxies.found == Some(proxies) && AllCountersMatch(proxies.ss, proxyPods)
    requires w.targets.found == Some(found) && AllCountersMatch(found.ss, pods)
    requires AllCountersMatch(w.targets.direct, directPods)
    requires IsWork(e) && (e.NodesToldToLeave? || e.kind.Targets?)
    ensures SizesUsable(x)
    ensures var c, r := TakenUp(x, w, cr), WholePass(x, w, cr);
            var size := SizeOf(x, c.status, Targets);
            e in r.events <==>
              && IsLetBe(x, c, Proxies, proxies, proxyPods)
              && (|| (e == TemplatePatched(Targets) && WritesTemplate(x, c, Targets, found, pods))
                  || (e == PolicyPatched(Targets) && WritesPolicy(x, c, Targets, found, pods))
                  || (e == RolloutDriven(Targets) && TakesRolloutOn(x, c, Targets, found, pods))
                  || (ChangesSize(x, c, Targets, found, pods)
                      && ConfirmedBy(x, c.status, Targets, found.ss, w.targets.direct, directPods)
                      && (|| (e.NodesToldToLeave? && size < found.ss.replicas)
                          || (e == ReplicasSet(Targets, size) && MayResize(w, found.ss.replicas, size)))))
  {
    TargetPart(x, w, cr, proxies, found, e);
    var c := TakenUp(x, w, cr);
    StepExactly(x, c, Proxies, proxies, proxyPods);
    StepExactly(x, c, Targets, found, pods);
    DriveTargetsWorks(x, w, c, found, e);
    ConfirmedExactly(x, c.status, Targets, found.ss, w.targets.direct, directPods);
  }

  // ------------------------------------------------------- how it ends

  /** A pass that is to run again has taken back Ready; one that is done has set it. */
  ghost predicate ReadyFollows(r: Result) {
    && (r.outcome.Requeue? ==> !r.cr.status.ready)
    && (r.outcome.Done? ==> r.cr.status.ready && r.cr.status.state.Ready? && r.cr.status.rebalance)
  }

  lemma WaitingTakesBack(r: Result)
    ensures Waiting(r).outcome.Requeue? ==> !Waiting(r).cr.status.ready
  {
  }

  lemma EndEnds(x: Setting, w: World, cr: CR)
    requires SizesUsable(x)
    ensures var r := FromCluster(x, w, cr);
            && ReadyFollows(r)
            && r.outcome == (if !w.healthy then Fail
                             else if w.proxyCount < MinReady(x, cr.status, Proxies)
                                     || w.targetCount < MinReady(x, cr.status, Targets) then Requeue
                             else Done)
  {
    var stage := AISReadyStage(x, w, cr);
    WaitingTakesBack(stage);
    FinishEnds(x, stage.cr);
  }

  lemma FinishEnds(x: Setting, cr: CR)
    ensures FinishStage(x, cr).outcome.Done? && ReadyFollows(FinishStage(x, cr))
  {
    LastStepsEnd(x, EnableRebalance(cr).cr);
  }

  lemma LastStepsEnd(x: Setting, cr: CR)
    requires cr.status.rebalance
    ensures LastSteps(x, cr).outcome.Done? && ReadyFollows(LastSteps(x, cr))
  {
    ConfigDoesNoWork(x, cr, false, NodesToldToLeave);
    SuccessEnds(ConfigStage(x, cr, false));
  }

  lemma SuccessEnds(configured: Result)
    requires configured.outcome.Go? && configured.cr.status.rebalance
    ensures var r := Then(configured, SuccessStage(configured.cr));
            r.outcome.Done? && ReadyFollows(r) && r.cr.hashes == configured.cr.hashes
    ensures forall e: Event :: e.Pushed? ==>
              (e in Then(configured, SuccessStage(configured.cr)).events <==> e in configured.events)
  {
  }

  lemma DriveEnds(x: Setting, w: World, cr: CR, proxies: Found, targets: Found)
    requires SizesUsable(x) && w.proxies.found == Some(proxies) && w.targets.found == Some(targets)
    ensures var r := HandleCREvents(x, w, cr);
            && ReadyFollows(r)
            && r.outcome == (if !StepFor(x, cr, Proxies, proxies).Rest? then Requeue
                             else if !StepFor(x, cr, Targets, targets).Rest?
                             then DriveTargets(x, w, cr, targets).outcome
                             else FromCluster(x, w, cr).outcome)
  {
    ProxyStageKeeps(x, w, cr);
    WaitingTakesBack(ProxyStage(x, w, cr));
    WaitingTakesBack(TargetStage(x, w, cr));
    DriveProxiesWorks(x, w, cr, proxies, NodesToldToLeave);
    DriveTargetsWorks(x, w, cr, targets, NodesToldToLeave);
    EndEnds(x, w, cr);
  }

  /** How a pass over a created cluster ends, and what becomes of Ready. */
  lemma PassEndsExactly(x: Setting, w: World, cr: CR, proxies: Found, proxyPods: PodSet,
                        targets: Found, targetPods: PodSet)
    requires GoesOn(x, w, cr) && cr.status.created
    requires w.proxies.found == Some(proxies) && AllCountersMatch(proxies.ss, proxyPods)
    requires w.targets.found == Some(targets) && AllCountersMatch(targets.ss, targetPods)
    ensures SizesUsable(x) && ReadyFollows(WholePass(x, w, cr))
    ensures var c := TakenUp(x, w, cr);
            WholePass(x, w, cr).outcome ==
              if !IsLetBe(x, c, Proxies, proxies, proxyPods) then Requeue
              else if !IsLetBe(x, c, Targets, targets, targetPods) then
                if ChangesSize(x, c, Targets, targets, targetPods)
                   && GrowthIsUnsafe(w, targets.ss.replicas, SizeOf(x, c.status, Targets)) then Fail else Requeue
              else if !w.healthy then Fail
              else if w.proxyCount < MinReady(x, c.status, Proxies) || w.targetCount < MinReady(x, c.status, Targets)
              then Requeue
              else Done
  {
    var c := TakenUp(x, w, cr);
    PassWorks(x, w, cr, NodesToldToLeave);
    DriveEnds(x, w, c, proxies, targets);
    StepExactly(x, c, Proxies, proxies, proxyPods);
    StepExactly(x, c, Targets, targets, targetPods);
    DriveTargetsWorks(x, w, c, targets, NodesToldToLeave);
    EndEnds(x, w, c);
  }

  // --------------------------------------------------------- the config

  /** The config that the cluster should run with when nothing is going on: rebalance is off only if the spec says so.
      */
  function FullConfig(cr: CR): RebalanceConfig.Config {
    match cr.config
    case None => RebalanceConfig.Config(Some(true), None, "")
    case Some(c) => c.(rebalance := Some(c.rebalance != Some(false)))
  }

  lemma ConfigStagePushes(x: Setting, cr: CR, e: Event)
    requires cr.status.rebalance && e.Pushed?
    ensures var r, conf := ConfigStage(x, cr, false), FullConfig(cr);
            && (e in r.events <==> x.h.all(conf) != cr.hashes.confHash && e.rebalance == (conf.rebalance == Some(true)))
            && r.outcome.Go? && r.cr.hashes.confHash == x.h.all(conf)
  {
    assert RebalanceConfigFor(cr) == FullConfig(cr);
    InThen(PushStage(x, cr, FullConfig(cr), false), RecordStage(x, cr, FullConfig(cr)), e);
  }

  lemma FinishPushes(x: Setting, cr: CR, e: Event)
    requires e.Pushed?
    ensures var r, conf := FinishStage(x, cr), FullConfig(cr);
            && (e in r.events <==> x.h.all(conf) != cr.hashes.confHash && e.rebalance == (conf.rebalance == Some(true)))
            && r.cr.hashes.confHash == x.h.all(conf)
  {
    var on := EnableRebalance(cr);
    ConfigStagePushes(x, on.cr, e);
    SuccessEnds(ConfigStage(x, on.cr, false));
    InThen(on, LastSteps(x, on.cr), e);
  }

  lemma ProxiesRest(x: Setting, w: World, cr: CR)
    requires SizesUsable(x) && ProxyStage(x, w, cr).outcome.Go?
    ensures w.proxies.found.Some?
    ensures ProxyStage(x, w, cr) == Note(cr, StatefulSetRead(Proxies, Some(w.proxies.found.value.ss)))
  {
    if w.proxies.found.Some? {
      DriveProxiesWorks(x, w, cr, w.proxies.found.value, NodesToldToLeave);
    }
  }

  lemma TargetsRest(x: Setting, w: World, cr: CR, e: Event)
    requires SizesUsable(x) && TargetStage(x, w, cr).outcome.Go?
    ensures TargetStage(x, w, cr).cr == cr && (e.Pushed? ==> e !in TargetStage(x, w, cr).events)
  {
    if w.targets.found.Some? {
      DriveTargetsWorks(x, w, cr, w.targets.found.value, NodesToldToLeave);
    }
  }

  lemma ClusterRests(x: Setting, w: World, cr: CR, e: Event)
    requires SizesUsable(x) && AISReadyStage(x, w, cr).outcome.Go?
    ensures var r := AISReadyStage(x, w, cr);
            r.cr.config == cr.config && r.cr.hashes == cr.hashes && (e.Pushed? ==> e !in r.events)
  {
    InThen(Note(cr, MapRead(w.proxyCount, w.targetCount)), ClusterIDStage(cr, w.uuid), e);
  }

  lemma DrivePushes(x: Setting, w: World, cr: CR, e: Event)
    requires SizesUsable(x) && e.Pushed? && HandleCREvents(x, w, cr).outcome.Done?
    ensures var r, conf := HandleCREvents(x, w, cr), FullConfig(cr);
            && (e in r.events <==> x.h.all(conf) != cr.hashes.confHash && e.rebalance == (conf.rebalance == Some(true)))
            && r.cr.hashes.confHash == x.h.all(conf)
  {
    ProxyStageKeeps(x, w, cr);
    WaitingAddsNone(ProxyStage(x, w, cr), e);
    ProxiesRest(x, w, cr);
    InThen(ProxyStage(x, w, cr), FromTargets(x, w, cr), e);
    TargetsPush(x, w, cr, e);
  }

  lemma TargetsPush(x: Setting, w: World, cr: CR, e: Event)
    requires SizesUsable(x) && e.Pushed? && FromTargets(x, w, cr).outcome.Done?
    ensures var r, conf := FromTargets(x, w, cr), FullConfig(cr);
            && (e in r.events <==> x.h.all(conf) != cr.hashes.confHash && e.rebalance == (conf.rebalance == Some(true)))
            && r.cr.hashes.confHash == x.h.all(conf)
  {
    TargetStageEnds(x, w, cr);
    WaitingAddsNone(TargetStage(x, w, cr), e);
    TargetsRest(x, w, cr, e);
    InThen(TargetStage(x, w, cr), FromCluster(x, w, cr), e);
    ClusterPushes(x, w, cr, e);
  }

  lemma TargetStageEnds(x: Setting, w: World, cr: CR)
    requires SizesUsable(x)
    ensures !TargetStage(x, w, cr).outcome.Done?
  {
    if w.targets.found.Some? {
      DriveTargetsWorks(x, w, cr, w.targets.found.value, NodesToldToLeave);
    }
  }

  lemma ClusterPushes(x: Setting, w: World, cr: CR, e: Event)
    requires SizesUsable(x) && e.Pushed? && FromCluster(x, w, cr).outcome.Done?
    ensures var r, conf := FromCluster(x, w, cr), FullConfig(cr);
            && (e in r.events <==> x.h.all(conf) != cr.hashes.confHash && e.rebalance == (conf.rebalance == Some(true)))
            && r.cr.hashes.confHash == x.h.all(conf)
  {
    var ready := AISReadyStage(x, w, cr);
    WaitingAddsNone(ready, e);
    ClusterRests(x, w, cr, e);
    InThen(ready, FinishStage(x, ready.cr), e);
    FinishPushes(x, ready.cr, e);
  }

  /** A pass that ends well has pushed the config exactly if its hash was not recorded, with rebalance as the spec has
      it, and leaves it recorded. */
  lemma FinalPushExactly(x: Setting, w: World, cr: CR, rebalance: bool)
    requires GoesOn(x, w, cr) && cr.status.created && WholePass(x, w, cr).outcome.Done?
    ensures var r, conf := WholePass(x, w, cr), FullConfig(cr);
            && (Pushed(rebalance) in r.events <==>
                  x.h.all(conf) != cr.hashes.confHash && rebalance == (conf.rebalance == Some(true)))
            && r.cr.hashes.confHash == x.h.all(conf)
  {
    var c := TakenUp(x, w, cr);
    PassWorks(x, w, cr, Pushed(rebalance));
    TakenUpKeeps(x, w, cr);
    DrivePushes(x, w, c, Pushed(rebalance));
  }

  lemma TakenUpKeeps(x: Setting, w: World, cr: CR)
    ensures var c := TakenUp(x, w, cr);
            c.config == cr.config && c.hashes == cr.hashes && c.status.created == cr.status.created
    ensures FullConfig(TakenUp(x, w, cr)) == FullConfig(cr)
  {
  }

  // ------------------------------------------- what is not there yet

  /** The first proxy runs and its StatefulSet is found. */
  predicate ProxiesStarted(w: World) { w.proxies.taken && w.primaryRunning && w.proxies.found.Some? }

  lemma InitProxiesWorks(x: Setting, w: World, cr: CR, e: Event)
    requires SizesUsable(x) && IsWork(e)
    ensures var r, size := InitProxies(x, w, cr), SizeOf(x, cr.status, Proxies);
            && (e in r.events <==>
                  || e == Ensured(Proxies, w.proxies.taken)
                  || (ProxiesStarted(w) && e == ReplicasSet(Proxies, size)
                      && w.proxies.found.value.ss.replicas != size))
            && r.cr == cr
            && r.outcome == (if !w.proxies.taken || !w.primaryRunning then Requeue
                             else if w.proxies.found.None? then Fail
                             else if w.endpointsReady then Go else Requeue)
  {
    if ProxiesStarted(w) {
      var size := SizeOf(x, cr.status, Proxies);
      var sized := if w.proxies.found.value.ss.replicas == size then Skip(cr) else Note(cr, ReplicasSet(Proxies, size));
      var last := Stop(cr, if w.endpointsReady then Go else Requeue);
      InThen(sized, last, e);
      InThen(Note(cr, Ensured(Proxies, true)), Then(sized, last), e);
    }
  }

  /** A cluster that was not created yet: the proxies first, one and then all; then the targets; and then it is
      created. */
  lemma BootstrapExactly(x: Setting, w: World, cr: CR, e: Event)
    requires GoesOn(x, w, cr) && !cr.status.created && IsWork(e)
    ensures SizesUsable(x)
    ensures var c, r := TakenUp(x, w, cr), WholePass(x, w, cr);
            var size, up := SizeOf(x, c.status, Proxies), ProxiesStarted(w) && w.endpointsReady;
            && (e in r.events <==>
                  || e == Ensured(Proxies, w.proxies.taken)
                  || (ProxiesStarted(w) && e == ReplicasSet(Proxies, size) && w.proxies.found.value.ss.replicas != size)
                  || (up && e == Ensured(Targets, w.targets.taken)))
            && r.outcome == (if up && w.targets.taken then Done
                             else if w.proxies.taken && w.primaryRunning && w.proxies.found.None? then Fail
                             else Requeue)
            && r.cr == if r.outcome.Done? then c.(status := c.status.(state := Created, created := true)) else c
  {
    PassWorks(x, w, cr, e);
    var c := TakenUp(x, w, cr);
    TakenUpKeeps(x, w, cr);
    InitProxiesWorks(x, w, c, e);
    var done := Patch(c, c.status.(state := Created, created := true)).(outcome := Done);
    InThen(InitTargets(w, c), done, e);
    InThen(InitProxies(x, w, c), Then(InitTargets(w, c), done), e);
  }

  /** A StatefulSet of a created cluster that is not found is made - the targets' once the proxies are let be - and the
      cluster is not Ready in that pass, unless the name of the targets' turns out to be taken. */
  lemma MissingIsMade(x: Setting, w: World, cr: CR, e: Event)
    requires GoesOn(x, w, cr) && cr.status.created && IsWork(e)
    ensures SizesUsable(x)
    ensures var c, r := TakenUp(x, w, cr), WholePass(x, w, cr);
            && (w.proxies.found.None? ==>
                  && (e in r.events <==> e == Ensured(Proxies, w.proxies.taken))
                  && r.outcome == if w.proxies.taken && w.primaryRunning then Fail else Requeue)
            && (w.proxies.found.Some? && w.targets.found.None?
                && StepFor(x, c, Proxies, w.proxies.found.value).Rest? ==>
                  && (e in r.events <==> e == Ensured(Targets, w.targets.taken))
                  && (!w.targets.taken ==> r.outcome.Requeue?))
  {
    PassWorks(x, w, cr, e);
    var c := TakenUp(x, w, cr);
    TakenUpKeeps(x, w, cr);
    DriveWorks(x, w, c, e);
    if w.proxies.found.None? {
      InitProxiesWorks(x, w, c, e);
      InThen(Note(c, StatefulSetRead(Proxies, None)), InitProxies(x, w, c), e);
    } else if w.targets.found.None? {
      DriveProxiesWorks(x, w, c, w.proxies.found.value, e);
      TargetStageWorks(x, w, c, e);
    }
  }

  /** What holds a pass up: an invalid spec, or external services without an address, which the state tells of. In
      either case nothing is done for the cluster. */
  lemma HeldUpExactly(x: Setting, w: World, cr: CR, e: Event)
    requires IsToRun(cr) && IsDeed(e) && !GoesOn(x, w, cr)
    ensures var c, r := Counted(x, w, cr), WholePass(x, w, cr);
            && e !in r.events
            && r.outcome == (if IsValid(x) then Requeue else Fail)
            && r.cr == if IsValid(x) then c.(status := c.status.(state := AwaitingServices(c.status.state))) else c
  {
    EarlyMeans(x, w, cr, e);
    var c := Counted(x, w, cr);
    LateHeldUp(x, w, c, e);
    FrameAddsNone(Early(x, w, cr), Late(x, w, c), Late(x, w, c), e);
    assert WholePass(x, w, cr) == Framed(Then(Early(x, w, cr), Late(x, w, c)));
  }

  lemma LateHeldUp(x: Setting, w: World, cr: CR, e: Event)
    requires IsDeed(e) && !(IsValid(x) && (x.externalAccess ==> w.servicesReady))
    ensures var r := Late(x, w, cr);
            && e !in r.events
            && r.outcome == (if IsValid(x) then Requeue else Fail)
            && r.cr == if IsValid(x) then cr.(status := cr.status.(state := AwaitingServices(cr.status.state))) else cr
  {
    LateMeans(x, w, cr);
  }

  function AwaitingServices(s: State): State {
    match s
    case InitializingLB => PendingLB
    case PendingLB => PendingLB
    case _ => InitializingLB
  }

  /** A new CR gets its finalizer, and is then like any other. */
  lemma NewIsTakenUp(x: Setting, w: World, cr: CR)
    requires cr.status.state.New? && !Gone(cr)
    ensures var taken := cr.(finalizer := true, status := cr.status.(state := Initialized));
            var r, rest := WholePass(x, w, cr), WholePass(x, w, taken);
            var added := if cr.finalizer then [] else [FinalizerAdded];
            && r.cr == rest.cr && r.outcome == rest.outcome
            && r.events == [PassStarts] + added + [StatusPatched(taken.status)] + rest.events[1..]
  {
    var taken := cr.(finalizer := true, status := cr.status.(state := Initialized));
    var first, after := InitializeStage(cr), FromAutoScale(x, w, taken);
    NewBegins(cr);
    FramedPrefix(first, taken, after, Late(x, w, after.cr));
    assert WholePass(x, w, cr) == Framed(Then(Then(first, after), Late(x, w, after.cr)));
    assert WholePass(x, w, taken) == Framed(Then(Then(Skip(taken), after), Late(x, w, after.cr)));
  }

  lemma NewBegins(cr: CR)
    requires cr.status.state.New?
    ensures var taken := cr.(finalizer := true, status := cr.status.(state := Initialized));
            var added := if cr.finalizer then [] else [FinalizerAdded];
            && InitializeStage(cr) == Result(taken, added + [StatusPatched(taken.status)], Go)
            && InitializeStage(taken) == Skip(taken)
  {
  }

  lemma FramedPrefix(first: Result, taken: CR, after: Result, late: Result)
    requires first.outcome.Go?
    ensures var r, rest := Framed(Then(Then(first, after), late)), Framed(Then(Then(Skip(taken), after), late));
            && r.cr == rest.cr && r.outcome == rest.outcome
            && r.events == [PassStarts] + first.events + rest.events[1..]
  {
    var more := if after.outcome.Go? then after.events + late.events else after.events;
    assert Then(Then(first, after), late).events == first.events + more;
    assert Then(Then(Skip(taken), after), late).events == more;
    PrefixMovesOut(PassStarts, first.events, more, PassEnds);
  }

  lemma PrefixMovesOut<T>(starts: T, prefix: seq<T>, more: seq<T>, ends: T)
    ensures [starts] + (prefix + more) + [ends] == [starts] + prefix + ([starts] + more + [ends])[1..]
  {
    assert ([starts] + more + [ends])[1..] == more + [ends];
  }
}
