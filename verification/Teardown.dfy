/** Shutting a cluster down and tearing it down, pass by pass, in a world that holds still during each pass and may
    change between them: what one pass does in each state, and that it comes to an end. */
module Teardown {
  import opened StatefulSets
  import opened Lifecycle
  import opened Passes
  import opened PassWrites

  // ------------------------------------------------------------ one pass

  /** Both kinds have pods that are ready. */
  predicate IsRunning(w: World) {
    && w.targets.found.Some? && w.targets.found.value.ss.status.readyReplicas > 0
    && w.proxies.found.Some? && w.proxies.found.value.ss.status.readyReplicas > 0
  }

  /** What still holds up a teardown that has got to state s. */
  predicate HeldUp(x: Setting, w: World, s: State) {
    match s
    case Decommissioning => IsRunning(w)
    case CleaningResources => w.left.objects && !CleansHosts(x)
    case HostCleanup => w.left.jobs
    case _ => false
  }

  function NextState(s: State): State {
    match s
    case Decommissioning => CleaningResources
    case CleaningResources => HostCleanup
    case HostCleanup => Finalized
    case _ => s
  }

  /** Where a pass finds a CR that is marked for deletion. */
  function Found(s: State): State {
    match s
    case CleaningResources => s
    case HostCleanup => s
    case Finalized => s
    case _ => Decommissioning
  }

  /** State was kept on the hosts, and is to go. */
  predicate CleansHosts(x: Setting) {
    && x.cleanupMetadata
    && match x.spec.stateStorage
       case None => !x.spec.stateStorageClass && x.spec.hostpathPrefix
       case Some(storage) => storage.hostPath
  }

  predicate IsDying(cr: CR) { cr.deleted && cr.finalizer }

  function InState(cr: CR, s: State): CR { cr.(status := cr.status.(state := s)) }

  /** The writes of teardown. */
  predicate IsStep(e: Event) { e.ClusterToldToStop? || e.CleanedUp? || e.HostJobsCreated? || e.FinalizerRemoved? }

  predicate StepTaken(x: Setting, w: World, s: State, e: Event) {
    match e
    case ClusterToldToStop => s.Decommissioning? && IsRunning(w)
    case CleanedUp(existed) => s.CleaningResources? && existed == w.left.objects
    case HostJobsCreated => s.CleaningResources? && CleansHosts(x)
    case FinalizerRemoved => s.Finalized?
    case _ => false
  }

  /** From the CR c in state s, the stage goes one step, unless something holds it up. */
  ghost predicate GoesOneStep(x: Setting, w: World, c: CR, s: State, r: Result, e: Event) {
    && r.cr == (if s.Finalized? then c.(finalizer := false)
                else InState(c, if HeldUp(x, w, s) then s else NextState(s)))
    && r.outcome == (if HeldUp(x, w, s) || (s.CleaningResources? && w.left.objects) then Requeue else Done)
    && (e in r.events <==> StepTaken(x, w, s, e))
  }

  /** A pass over a CR that is marked for deletion, in whatever state: it goes one step, unless something holds it up,
      and then it asks to be run again. A running cluster is told to stop; what belongs to it is deleted; its hosts
      are cleaned; its jobs are waited for; and last the finalizer goes. */
  lemma DyingPassExactly(x: Setting, w: World, cr: CR, e: Event)
    requires IsDying(cr) && IsStep(e)
    ensures GoesOneStep(x, w, Counted(x, w, cr), Found(cr.status.state), WholePass(x, w, cr), e)
  {
    var found := InState(Counted(x, w, cr), Found(cr.status.state));
    DyingIsFound(x, w, cr, e);
    CountingDying(x, w, cr, e);
    SwitchOfDying(x, w, found, e);
    StepFromFound(x, w, Counted(x, w, cr), Found(cr.status.state), SwitchStage(x, w, found), e);
    EarlyEnds(x, w, cr, e);
  }

  lemma StepFromFound(x: Setting, w: World, c: CR, s: State, r: Result, e: Event)
    requires Rank(s) > 0 && GoesOneStep(x, w, InState(c, s), s, r, e)
    ensures !s.Finalized? ==> GoesOneStep(x, w, c, s, r, e)
  {
  }

  lemma EarlyEnds(x: Setting, w: World, cr: CR, e: Event)
    requires !Gone(cr) && !Early(x, w, cr).outcome.Go? && !e.PassStarts? && !e.PassEnds?
    ensures SameWork(WholePass(x, w, cr), Early(x, w, cr), e)
  {
  }

  /** The early stages of such a pass come to the switch on the state. */
  lemma DyingIsFound(x: Setting, w: World, cr: CR, e: Event)
    requires IsDying(cr) && IsStep(e)
    ensures SameWork(Early(x, w, cr), SwitchStage(x, w, InState(Counted(x, w, cr), Found(cr.status.state))), e)
  {
    var taken := InitializeStage(cr);
    InitializingDying(cr, e);
    var scaled := AutoScaleStage(x, w, taken.cr);
    CountingDying(x, w, taken.cr, e);
    DeletionIsFound(x, w, scaled.cr, e);
    InThen(scaled, FromDeletion(x, w, scaled.cr), e);
    InThen(taken, FromAutoScale(x, w, taken.cr), e);
    var s := Found(cr.status.state);
    assert InState(Counted(x, w, taken.cr), s) == InState(Counted(x, w, cr), s);
  }

  lemma InitializingDying(cr: CR, e: Event)
    requires IsDying(cr) && IsStep(e)
    ensures var taken := InitializeStage(cr);
            && taken.outcome.Go? && !taken.cr.status.state.New?
            && Found(taken.cr.status.state) == Found(cr.status.state)
            && taken.cr == InState(cr, taken.cr.status.state) && e !in taken.events
  {
  }

  lemma CountingDying(x: Setting, w: World, cr: CR, e: Event)
    requires IsStep(e)
    ensures var scaled := AutoScaleStage(x, w, cr);
            && scaled.outcome.Go? && scaled.cr == Counted(x, w, cr) && e !in scaled.events
            && scaled.cr.status.state == cr.status.state
            && scaled.cr.deleted == cr.deleted && scaled.cr.finalizer == cr.finalizer
  {
  }

  lemma DeletionIsFound(x: Setting, w: World, cr: CR, e: Event)
    requires IsDying(cr) && !cr.status.state.New? && IsStep(e)
    ensures SameWork(FromDeletion(x, w, cr), SwitchStage(x, w, InState(cr, Found(cr.status.state))), e)
  {
    var found := InState(cr, Found(cr.status.state));
    assert DeletionStage(cr).cr == found && DeletionStage(cr).outcome.Go? && e !in DeletionStage(cr).events;
    assert ShutdownStage(x, found) == Skip(found);
    InThen(Skip(found), SwitchStage(x, w, found), e);
    InThen(DeletionStage(cr), FromShutdown(x, w, found), e);
  }

  lemma SwitchOfDying(x: Setting, w: World, cr: CR, e: Event)
    requires IsDying(cr) && Rank(cr.status.state) > 0 && IsStep(e)
    ensures GoesOneStep(x, w, cr, cr.status.state, SwitchStage(x, w, cr), e)
  {
    match cr.status.state
    case Decommissioning => DecommissioningExactly(x, w, cr, e);
    case CleaningResources => CleaningExactly(x, w, cr, e);
    case HostCleanup => HostsExactly(x, w, cr, e);
    case _ => FinalizedExactly(x, w, cr, e);
  }

  lemma DecommissioningExactly(x: Setting, w: World, cr: CR, e: Event)
    requires IsDying(cr) && cr.status.state.Decommissioning? && IsStep(e)
    ensures GoesOneStep(x, w, cr, Decommissioning, DecommissionCluster(w, cr), e)
  {
  }

  lemma CleaningExactly(x: Setting, w: World, cr: CR, e: Event)
    requires IsDying(cr) && cr.status.state.CleaningResources? && IsStep(e)
    ensures GoesOneStep(x, w, cr, CleaningResources, CleanupClusterRes(x, w, cr), e)
  {
    HostsAreNext(x, w, cr, e);
    CleaningIsOneStep(x, w, cr, CleanHosts(x, cr, w.left.objects), e);
  }

  lemma CleaningIsOneStep(x: Setting, w: World, cr: CR, hosts: Result, e: Event)
    requires IsDying(cr) && cr.status.state.CleaningResources? && IsStep(e) && HostsFollow(x, w, cr, hosts, e)
    ensures GoesOneStep(x, w, cr, CleaningResources, Then(Note(cr, CleanedUp(w.left.objects)), hosts), e)
  {
  }

  ghost predicate HostsFollow(x: Setting, w: World, cr: CR, r: Result, e: Event) {
    && r.cr == (if w.left.objects && !HasHostCleanup(x) then cr else InState(cr, HostCleanup))
    && r.outcome == (if w.left.objects then Requeue else Done)
    && (e in r.events <==> e.HostJobsCreated? && HasHostCleanup(x))
  }

  lemma HostsAreNext(x: Setting, w: World, cr: CR, e: Event)
    requires cr.status.state.CleaningResources? && IsStep(e)
    ensures HostsFollow(x, w, cr, CleanHosts(x, cr, w.left.objects), e)
  {
    var mounts := if HasHostCleanup(x) then CleanMounts(cr) else Skip(cr);
    InThen(mounts, AfterMounts(mounts.cr, w.left.objects), e);
  }

  lemma HostsExactly(x: Setting, w: World, cr: CR, e: Event)
    requires IsDying(cr) && cr.status.state.HostCleanup? && IsStep(e)
    ensures GoesOneStep(x, w, cr, HostCleanup, CleanupHost(w, cr), e)
  {
  }

  lemma FinalizedExactly(x: Setting, w: World, cr: CR, e: Event)
    requires IsDying(cr) && cr.status.state.Finalized? && IsStep(e)
    ensures GoesOneStep(x, w, cr, Finalized, Finalize(cr), e)
  {
  }

  // ---------------------------------------------------- pass after pass

  /** Passes over one CR, each in a world of its own. */
  ghost predicate ArePasses(x: Setting, ws: seq<World>, crs: seq<CR>) {
    |crs| == |ws| + 1 && forall k :: 0 <= k < |ws| ==> crs[k + 1] == WholePass(x, ws[k], crs[k]).cr
  }

  /** How many of them were held up. */
  ghost function HeldUps(x: Setting, ws: seq<World>, crs: seq<CR>): nat
    requires |crs| == |ws| + 1
  {
    if ws == [] then 0
    else
      (if IsDying(crs[0]) && HeldUp(x, ws[0], Found(crs[0].status.state)) then 1 else 0) + HeldUps(x, ws[1..], crs[1..])
  }

  /** The number of steps that are left to go. */
  function StepsLeft(cr: CR): nat { if cr.finalizer then 5 - Rank(Found(cr.status.state)) else 0 }

  lemma DyingPassSteps(x: Setting, w: World, cr: CR)
    requires IsDying(cr)
    ensures var r := WholePass(x, w, cr).cr;
            && r.deleted
            && StepsLeft(r) == StepsLeft(cr) - if HeldUp(x, w, Found(cr.status.state)) then 0 else 1
  {
    DyingPassExactly(x, w, cr, FinalizerRemoved);
    CountingDying(x, w, cr, FinalizerRemoved);
    StepCounts(x, w, Counted(x, w, cr), Found(cr.status.state), WholePass(x, w, cr));
  }

  lemma StepCounts(x: Setting, w: World, c: CR, s: State, r: Result)
    requires GoesOneStep(x, w, c, s, r, FinalizerRemoved) && Rank(s) > 0 && IsDying(c)
    ensures r.cr.deleted && StepsLeft(r.cr) == 5 - Rank(s) - if HeldUp(x, w, s) then 0 else 1
  {
  }

  lemma LaterPasses(x: Setting, ws: seq<World>, crs: seq<CR>)
    requires ArePasses(x, ws, crs) && ws != []
    ensures crs[1] == WholePass(x, ws[0], crs[0]).cr && ArePasses(x, ws[1..], crs[1..])
  {
    assert crs[0 + 1] == WholePass(x, ws[0], crs[0]).cr;
    forall k | 0 <= k < |ws| - 1 ensures crs[1..][k + 1] == WholePass(x, ws[1..][k], crs[1..][k]).cr {
      assert crs[k + 1 + 1] == WholePass(x, ws[k + 1], crs[k + 1]).cr;
    }
  }

  lemma {:induction false} GoneForGood(x: Setting, ws: seq<World>, crs: seq<CR>)
    requires ArePasses(x, ws, crs) && Gone(crs[0])
    ensures Gone(crs[|ws|])
    decreases |ws|
  {
    if ws != [] {
      LaterPasses(x, ws, crs);
      GoneForGood(x, ws[1..], crs[1..]);
    }
  }

  /** Teardown ends: however long it is held up, by pods, objects or jobs, four passes that are not held up - fewer if
      it was under way - let go of the CR. */
  lemma {:induction false} TeardownEnds(x: Setting, ws: seq<World>, crs: seq<CR>)
    requires ArePasses(x, ws, crs) && crs[0].deleted
    requires |ws| >= StepsLeft(crs[0]) + HeldUps(x, ws, crs)
    ensures Gone(crs[|ws|])
    decreases |ws|
  {
    if Gone(crs[0]) {
      GoneForGood(x, ws, crs);
    } else {
      LaterPasses(x, ws, crs);
      DyingPassSteps(x, ws[0], crs[0]);
      TeardownEnds(x, ws[1..], crs[1..]);
    }
  }

  /** Four steps at most. */
  lemma FourSteps(cr: CR)
    ensures StepsLeft(cr) <= 4
  {
  }

  // ------------------------------------------------------------- shutdown

  /** No pod of the set is counted any more. */
  predicate IsEmpty(view: View) { view.found.Some? && view.found.value.ss.status.replicas == 0 }

  predicate SetsToZero(view: View) { view.found.Some? && view.found.value.ss.replicas != 0 }

  /** How it ends: a set that is missing is an error, one that has pods is waited for, the proxies before the targets.
      */
  function EmptyingEnds(w: World): Outcome {
    if w.proxies.found.None? then Fail
    else if !IsEmpty(w.proxies) then Requeue
    else if w.targets.found.None? then Fail
    else if !IsEmpty(w.targets) then Requeue
    else Done
  }

  ghost predicate Empties(w: World, cr: CR, r: Result, e: Event) {
    && r.cr == (if EmptyingEnds(w).Done? then InState(cr, Shutdown) else cr)
    && r.outcome == EmptyingEnds(w)
    && (e in r.events <==>
          || (e == ReplicasSet(Proxies, 0) && SetsToZero(w.proxies))
          || (e == ReplicasSet(Targets, 0) && SetsToZero(w.targets) && IsEmpty(w.proxies)))
  }

  lemma EmptyStageExactly(w: World, cr: CR, kind: Kind, e: Event)
    requires IsDeed(e)
    ensures var r, view := EmptyStage(w, cr, kind), ViewOf(w, kind);
            && r.cr == cr
            && r.outcome == (if view.found.None? then Fail else if IsEmpty(view) then Go else Requeue)
            && (e in r.events <==> e == ReplicasSet(kind, 0) && SetsToZero(view))
  {
  }

  lemma EmptyingExactly(w: World, cr: CR, e: Event)
    requires IsDeed(e)
    ensures Empties(w, cr, Passes.ShutdownCluster(w, cr), e)
  {
    var last := Move(cr, Shutdown).(outcome := Done);
    EmptyStageExactly(w, cr, Proxies, e);
    EmptyStageExactly(w, cr, Targets, e);
    InThen(EmptyStage(w, cr, Targets), last, e);
    InThen(EmptyStage(w, cr, Proxies), EmptyTargets(w, cr), e);
  }

  /** The CR as the shutdown takes it up: not ready for rebalance any more. */
  function Quieted(x: Setting, cr: CR): CR {
    if cr.status.state.Ready? then InState(DisableRebalance(x, cr).cr, ShuttingDown) else cr
  }

  lemma QuietingExactly(x: Setting, cr: CR, e: Event)
    requires cr.shutdown && cr.status.state in {State.Ready, ShuttingDown} && IsDeed(e)
    ensures var r, c := ShutdownStage(x, cr), Quieted(x, cr);
            && r.outcome.Go? && r.cr == c && c.shutdown && c.status.state.ShuttingDown?
            && c.status == cr.status.(state := ShuttingDown,
                                      rebalance := cr.status.rebalance && !cr.status.state.Ready?)
            && (e in r.events <==> e == Pushed(false) && cr.status.state.Ready?)
  {
    if cr.status.state.Ready? {
      OffExactly(x, cr, e);
      var off := DisableRebalance(x, cr);
      InThen(off, Move(off.cr, ShuttingDown), e);
      InThen(Note(cr, ShutdownDecided), BeginShutdown(x, cr), e);
    }
  }

  lemma OffExactly(x: Setting, cr: CR, e: Event)
    requires IsDeed(e)
    ensures var off := DisableRebalance(x, cr);
            && off.outcome.Go? && off.cr.status == cr.status.(rebalance := false) && off.cr.shutdown == cr.shutdown
            && (e in off.events <==> e == Pushed(false))
  {
    var c := cr.(status := cr.status.(rebalance := false));
    OffPushes(x, c, e);
    InThen(Patch(cr, c.status), ConfigStage(x, c, true), e);
  }

  lemma OffPushes(x: Setting, cr: CR, e: Event)
    requires IsDeed(e) && !cr.status.rebalance
    ensures var r := ConfigStage(x, cr, true);
            && r.outcome.Go? && r.cr.status == cr.status && r.cr.shutdown == cr.shutdown
            && (e in r.events <==> e == Pushed(false))
  {
    var conf := RebalanceConfigFor(cr);
    InThen(PushStage(x, cr, conf, true), RecordStage(x, cr, conf), e);
  }

  lemma ShutdownIsNext(x: Setting, w: World, cr: CR, e: Event)
    requires !cr.deleted && !cr.status.state.New? && IsDeed(e)
    ensures SameWork(Early(x, w, cr), FromShutdown(x, w, Counted(x, w, cr)), e)
  {
    var scaled, c := AutoScaleStage(x, w, cr), Counted(x, w, cr);
    CountedIs(x, w, cr);
    assert scaled.outcome.Go? && e !in scaled.events && !c.deleted;
    assert DeletionStage(c) == Note(c, PastDeletionCheck);
    InThen(DeletionStage(c), FromShutdown(x, w, c), e);
    InThen(scaled, FromDeletion(x, w, c), e);
    InThen(InitializeStage(cr), FromAutoScale(x, w, cr), e);
  }

  lemma FromShutdownEmpties(x: Setting, w: World, cr: CR, e: Event)
    requires cr.shutdown && cr.status.state in {State.Ready, ShuttingDown} && IsDeed(e)
    ensures var r, c := FromShutdown(x, w, cr), Quieted(x, cr);
            && r.cr == (if EmptyingEnds(w).Done? then InState(c, Shutdown) else c)
            && r.outcome == EmptyingEnds(w)
            && (e in r.events <==>
                  || (e == ReplicasSet(Proxies, 0) && SetsToZero(w.proxies))
                  || (e == ReplicasSet(Targets, 0) && SetsToZero(w.targets) && IsEmpty(w.proxies))
                  || (e == Pushed(false) && cr.status.state.Ready?))
  {
    var c := Quieted(x, cr);
    QuietingExactly(x, cr, e);
    EmptyingExactly(w, c, e);
    InThen(ShutdownStage(x, cr), SwitchStage(x, w, c), e);
  }

  /** A pass over a cluster that is to be shut down, or is being: rebalance is turned off; the proxies are emptied, and
      then the targets; and once both are, the cluster is shut down. */
  lemma ShutdownPassExactly(x: Setting, w: World, cr: CR, e: Event)
    requires cr.shutdown && !cr.deleted && cr.status.state in {State.Ready, ShuttingDown} && IsDeed(e)
    ensures var c, r := Quieted(x, Counted(x, w, cr)), WholePass(x, w, cr);
            && r.cr == (if EmptyingEnds(w).Done? then InState(c, Shutdown) else c)
            && r.outcome == EmptyingEnds(w)
            && (cr.status.state.Ready? ==> !c.status.rebalance)
            && (e in r.events <==>
                  || (e == ReplicasSet(Proxies, 0) && SetsToZero(w.proxies))
                  || (e == ReplicasSet(Targets, 0) && SetsToZero(w.targets) && IsEmpty(w.proxies))
                  || (e == Pushed(false) && cr.status.state.Ready?))
  {
    var c := Counted(x, w, cr);
    ShutdownIsNext(x, w, cr, e);
    QuietingExactly(x, c, e);
    FromShutdownEmpties(x, w, c, e);
    EarlyEnds(x, w, cr, e);
  }

  /** A shutdown that is called off while it is under way is followed by an upgrade; a cluster that is shut down is
      let be for as long as the flag is set. */
  lemma OtherwiseLetBe(x: Setting, w: World, cr: CR, e: Event)
    requires !cr.deleted && IsDeed(e)
    requires if cr.shutdown then cr.status.state.Shutdown? else cr.status.state.ShuttingDown?
    ensures var c, r := Counted(x, w, cr), WholePass(x, w, cr);
            && r.cr == (if cr.shutdown then c else InState(c, Upgrading))
            && r.outcome.Done? && e !in r.events
  {
    ShutdownIsNext(x, w, cr, e);
    SwitchLetsBe(x, w, Counted(x, w, cr), e);
    EarlyEnds(x, w, cr, e);
  }

  lemma SwitchLetsBe(x: Setting, w: World, cr: CR, e: Event)
    requires !cr.deleted && IsDeed(e)
    requires if cr.shutdown then cr.status.state.Shutdown? else cr.status.state.ShuttingDown?
    ensures var r := FromShutdown(x, w, cr);
            && r.cr == (if cr.shutdown then cr else InState(cr, Upgrading))
            && r.outcome.Done? && e !in r.events
  {
    assert ShutdownStage(x, cr) == Skip(cr);
    InThen(Skip(cr), SwitchStage(x, w, cr), e);
  }
}
