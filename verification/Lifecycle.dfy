/** The cluster's life as a history of effects: what users do to the CR, and what reconcile passes read and write.
    MayHappen says when a pass may take a step; the Reconciler class is proved to take no other ones. */
module Lifecycle {
  import opened Wrappers
  import opened StatefulSets
  import opened RebalanceConfig
  import RestartHash
  import opened ClusterSpec
  import opened AutoScale

  // ------------------------------------------------------------------ the CR

  datatype State =
    | New | Initialized | InitializingLB | PendingLB | Created | Ready | Upgrading
    | ShuttingDown | Shutdown
    | Decommissioning | CleaningResources | HostCleanup | Finalized

  /** The state and the conditions Created, Ready and ReadyRebalance; `url` says that the intra-cluster URL is set. */
  datatype ClusterStatus = ClusterStatus(
    state: State, created: bool, ready: bool, rebalance: bool, nodes: AutoScaleStatus, url: bool, clusterId: string)

  /** `config` is the part of the spec that is pushed to the cluster. */
  datatype CR = CR(
    finalizer: bool, deleted: bool, shutdown: bool, config: Option<Config>, hashes: RestartHash.Recorded,
    status: ClusterStatus)

  /** An object marked for deletion disappears with its last finalizer. */
  predicate Gone(cr: CR) { cr.deleted && !cr.finalizer }

  function Rank(s: State): nat {
    match s
    case Decommissioning => 1
    case CleaningResources => 2
    case HostCleanup => 3
    case Finalized => 4
    case _ => 0
  }

  predicate ShouldDecommission(cr: CR) { Rank(cr.status.state) == 0 && cr.deleted }

  predicate ShouldStartShutdown(cr: CR) { cr.shutdown && cr.status.state.Ready? }

  /** States in which a pass goes on to bring the cluster in line with the spec. */
  predicate Live(s: State) { Rank(s) == 0 && !s.New? && !s.ShuttingDown? }

  /** The rest of the spec. It is the same throughout a history. */
  datatype Setting = Setting(
    spec: Spec, h: RestartHash.Hashes, retain: bool, cleanupMetadata: bool, externalAccess: bool,
    proxyAnnotations: map<string, string>, targetAnnotations: map<string, string>, network: Option<string>)

  /** The hosts themselves have to be cleaned up, by jobs. */
  predicate HasHostCleanup(x: Setting) { x.cleanupMetadata && UsesStateHostPath(x.spec) }

  // -------------------------------------------------------------- histories

  datatype Kind = Proxies | Targets

  /** What is left of a cluster that is being torn down: objects that a clean-up would find, and jobs at work on its
      hosts, neither done nor expired. */
  datatype Remains = Remains(objects: bool, jobs: bool)

  datatype Event =
    // users
    | ShutdownFlagSet(value: bool)
    | ConfigEdited(config: Option<Config>)
    | DeletionRequested
    // the rest of the world
    | RemainsChanged(remains: Remains)
    // reconcile passes: control flow
    | PassStarts
    | PastDeletionCheck
    | ShutdownDecided
    | PastSwitch
    | PassEnds
    // ... what they read
    | StatefulSetRead(kind: Kind, read: Option<StatefulSet>)
    | DirectRead(kind: Kind, ss: StatefulSet)
    | MapRead(proxies: nat, targets: nat)
    | JobsRead(atWork: bool)
    // ... and what they write
    | FinalizerAdded
    | FinalizerRemoved
    | StatusPatched(status: ClusterStatus)
    | HashesPatched(hashes: RestartHash.Recorded)
    | Pushed(rebalance: bool)
    | Ensured(kind: Kind, existed: bool)
    | ReplicasSet(kind: Kind, size: int)
    | TemplatePatched(kind: Kind)
    | PolicyPatched(kind: Kind)
    | RolloutDriven(kind: Kind)
    | NodesToldToLeave
    | ClusterToldToStop
    | CleanedUp(existed: bool)
    | HostJobsCreated

  /** How far a pass has come: up to the deletion check, past it, past the switch on the state. */
  datatype Phase = Start | Checked | Onward

  /** The size that a pass has read a StatefulSet with, if it has read one. */
  datatype SizeSeen = Unread | Missing | Sized(n: nat)

  /** What a pass has found out and decided so far. `proxiesDue` and `targetsDue` are the sizes that a direct read has
      shown to be due. */
  datatype Notes = Notes(
    shutdownDue: bool, proxiesEmpty: bool, targetsEmpty: bool, targetsSettled: bool,
    proxiesOk: bool, targetsOk: bool, mapOk: bool, cleaned: Option<bool>, hostJobs: bool, noJobs: bool,
    proxiesSeen: SizeSeen, targetsSeen: SizeSeen, proxiesDue: Option<int>, targetsDue: Option<int>)

  /** A config push: the rebalance setting in it, and the one the spec asked for then. */
  datatype Push = Push(rebalance: bool, wanted: bool)

  /** `cr` is the pass's copy of the CR, refreshed by the answer to each patch; `foundDeleted` says that the CR was
      marked for deletion when the pass began; `pushed` is the pass's last push. */
  datatype Pass = Idle | Running(cr: CR, foundDeleted: bool, phase: Phase, pushed: Option<Push>, notes: Notes)

  /** `rolling`: the target template was written and no read has shown the rollout over yet. */
  datatype Machine = Machine(cr: CR, remains: Remains, lastPush: Option<bool>, rolling: bool, pass: Pass)

  function NewCR(): CR {
    CR(false, false, false, None, RestartHash.Recorded("", ""),
       ClusterStatus(New, false, false, false, AutoScaleStatus([], []), false, ""))
  }

  function Initially(): Machine { Machine(NewCR(), Remains(false, false), None, false, Idle) }

  function DaemonOf(x: Setting, kind: Kind): Daemon {
    if kind.Proxies? then x.spec.proxy else x.spec.target
  }

  function NodeCount(status: ClusterStatus, kind: Kind): nat {
    if kind.Proxies? then |status.nodes.proxyNodes| else |status.nodes.targetNodes|
  }

  predicate SizesUsable(x: Setting) {
    && (IsAutoScaling(x.spec, x.spec.proxy) || SizeIsSet(x.spec, x.spec.proxy))
    && (IsAutoScaling(x.spec, x.spec.target) || SizeIsSet(x.spec, x.spec.target))
  }

  function SizeOf(x: Setting, status: ClusterStatus, kind: Kind): int
    requires SizesUsable(x)
  {
    GetSize(x.spec, DaemonOf(x, kind), NodeCount(status, kind))
  }

  function MinReady(x: Setting, status: ClusterStatus, kind: Kind): int
    requires SizesUsable(x)
  {
    GetMinReady(x.spec, DaemonOf(x, kind), NodeCount(status, kind))
  }

  predicate AutoScales(x: Setting, kind: Kind) { IsAutoScaling(x.spec, DaemonOf(x, kind)) }

  predicate ScalingNeeded(x: Setting, status: ClusterStatus, kind: Kind, ss: StatefulSet)
    requires SizesUsable(x)
  {
    StatefulSetScalingNeeded(ss, SizeOf(x, status, kind), MaxUnavailable(DaemonOf(x, kind)), AutoScales(x, kind))
  }

  predicate IsReady(x: Setting, status: ClusterStatus, kind: Kind, ss: StatefulSet)
    requires SizesUsable(x)
  {
    IsStatefulSetReady(ss, SizeOf(x, status, kind), MinReady(x, status, kind), AutoScales(x, kind))
  }

  /** The StatefulSet as read is settled and ready for what the CR asks. */
  predicate ReadsReady(x: Setting, status: ClusterStatus, kind: Kind, ss: StatefulSet) {
    && SizesUsable(x) && IsStatusCurrent(ss) && !IsRolloutInProgress(ss) && !IsScalingInProgress(ss)
    && IsReady(x, status, kind, ss)
  }

  predicate MapSuffices(x: Setting, status: ClusterStatus, proxies: nat, targets: nat) {
    && SizesUsable(x)
    && proxies >= MinReady(x, status, Proxies) && targets >= MinReady(x, status, Targets)
  }

  /** The status a pass may write over the one it has. */
  predicate MayPatch(x: Setting, p: Pass, s: ClusterStatus)
    requires p.Running?
  {
    var t := p.cr.status;
    || s == t.(nodes := s.nodes, url := s.url, clusterId := s.clusterId)
    || (!p.phase.Start? && s == t.(rebalance := false))
    || (p.phase.Start? && t.state.New? && p.cr.finalizer && s == t.(state := Initialized))
    || (p.phase.Start? && !t.state.New? && ShouldDecommission(p.cr) && s == t.(state := Decommissioning))
    || (p.phase.Checked? && s == t.(state := s.state) && MayMove(x, p, t.state, s.state))
    || (p.phase.Onward? && MayPatchLive(p, t, s))
  }

  /** The last push of the pass turned rebalance off. */
  predicate PushedOff(p: Pass)
    requires p.Running?
  {
    p.pushed.Some? && !p.pushed.value.rebalance
  }

  /** The last push of the pass had the setting that the spec asked for. */
  predicate PushedAsWanted(p: Pass)
    requires p.Running?
  {
    p.pushed.Some? && p.pushed.value.rebalance == p.pushed.value.wanted
  }

  predicate MayMove(x: Setting, p: Pass, from: State, to: State)
    requires p.Running?
  {
    match from
    case Ready => to.ShuttingDown? && p.notes.shutdownDue && PushedOff(p) && !p.cr.status.rebalance
    case ShuttingDown =>
      (to.Upgrading? && !p.cr.shutdown) || (to.Shutdown? && p.notes.proxiesEmpty && p.notes.targetsEmpty)
    case Decommissioning => to.CleaningResources?
    case CleaningResources =>
      && to.HostCleanup? && p.notes.cleaned.Some?
      && if HasHostCleanup(x) then p.notes.hostJobs else !p.notes.cleaned.value
    case HostCleanup => to.Finalized? && p.notes.noJobs
    case _ => false
  }

  predicate MayPatchLive(p: Pass, t: ClusterStatus, s: ClusterStatus)
    requires p.Running?
  {
    || s == t.(state := InitializingLB)
    || s == t.(state := PendingLB)
    || s == t.(state := Created, created := true)
    || (t.ready && s == t.(state := Upgrading, ready := false))
    || (p.notes.targetsSettled && s == t.(rebalance := true))
    || (p.notes.proxiesOk && p.notes.targetsOk && p.notes.mapOk && s == t.(state := Ready, ready := true))
  }

  predicate MayHappen(x: Setting, m: Machine, e: Event) {
    var p := m.pass;
    match e
    case ShutdownFlagSet(_) => true
    case ConfigEdited(_) => true
    case DeletionRequested => true
    case RemainsChanged(_) => true
    case PassStarts => p.Idle? && !Gone(m.cr)
    case PassEnds => p.Running?
    case PastDeletionCheck => p.Running? && p.phase.Start? && !p.cr.status.state.New? && !ShouldDecommission(p.cr)
    case ShutdownDecided => p.Running? && p.phase.Checked? && ShouldStartShutdown(p.cr)
    case PastSwitch =>
      && p.Running? && p.phase.Checked? && Live(p.cr.status.state) && !(p.cr.status.state.Shutdown? && p.cr.shutdown)
    case StatefulSetRead(_, _) => p.Running? && !p.phase.Start?
    case DirectRead(_, _) => p.Running? && p.phase.Onward?
    case MapRead(_, _) => p.Running? && p.phase.Onward?
    case JobsRead(atWork) =>
      p.Running? && p.phase.Checked? && p.cr.status.state.HostCleanup? && atWork == m.remains.jobs
    case FinalizerAdded => p.Running? && p.phase.Start? && p.cr.status.state.New?
    case FinalizerRemoved => p.Running? && p.phase.Checked? && p.cr.status.state.Finalized?
    case StatusPatched(s) => p.Running? && MayPatch(x, p, s)
    case HashesPatched(_) => p.Running? && (p.phase.Onward? || (p.phase.Checked? && p.notes.shutdownDue))
    case Pushed(rebalance) =>
      && p.Running? && (p.phase.Onward? || (p.phase.Checked? && p.notes.shutdownDue))
      && rebalance == EffectiveRebalance(p.cr.status.rebalance, p.cr.config)
    case Ensured(_, _) => p.Running? && p.phase.Onward?
    case ReplicasSet(kind, size) =>
      && p.Running?
      && (|| (p.phase.Onward? && (kind.Targets? ==> GrowthPrepared(p, size)) && ShrinkConfirmed(x, p, kind, size))
          || (p.phase.Checked? && p.cr.status.state.ShuttingDown? && p.cr.shutdown && size == 0
              && (kind.Targets? ==> p.notes.proxiesEmpty)))
    case TemplatePatched(kind) =>
      p.Running? && p.phase.Onward? && (kind.Targets? ==> PushedOff(p) && !p.cr.status.rebalance)
    case PolicyPatched(_) => p.Running? && p.phase.Onward?
    case RolloutDriven(_) => p.Running? && p.phase.Onward?
    case NodesToldToLeave =>
      p.Running? && p.phase.Onward? && (!x.retain ==> p.cr.status.rebalance && PushedAsWanted(p))
    case ClusterToldToStop => p.Running? && p.phase.Checked? && p.cr.status.state.Decommissioning?
    case CleanedUp(existed) =>
      p.Running? && p.phase.Checked? && p.cr.status.state.CleaningResources? && existed == m.remains.objects
    case HostJobsCreated =>
      && p.Running? && p.phase.Checked? && p.cr.status.state.CleaningResources?
      && HasHostCleanup(x) && p.notes.cleaned.Some?
  }

  const NOTHING_NOTED :=
    Notes(false, false, false, false, false, false, false, None, false, false, Unread, Unread, None, None)

  /** Steps of users and the world, and the start and end of a pass. */
  predicate IsOuter(e: Event) {
    || e.ShutdownFlagSet? || e.ConfigEdited? || e.DeletionRequested? || e.RemainsChanged?
    || e.PassStarts? || e.PassEnds?
  }

  function Next(x: Setting, m: Machine, e: Event): Machine
    requires MayHappen(x, m, e)
  {
    match e
    case ShutdownFlagSet(value) => m.(cr := m.cr.(shutdown := value))
    case ConfigEdited(config) => m.(cr := m.cr.(config := config))
    case DeletionRequested => m.(cr := m.cr.(deleted := true))
    case RemainsChanged(remains) => m.(remains := remains)
    case PassStarts => m.(pass := Running(m.cr, m.cr.deleted, Start, None, NOTHING_NOTED))
    case PassEnds => m.(pass := Idle)
    case _ => Inside(x, m, e)
  }

  /** A step of a pass. */
  function Inside(x: Setting, m: Machine, e: Event): Machine
    requires m.pass.Running?
  {
    var cr := Written(m.cr, e);
    Machine(
      cr,
      m.remains,
      if e.Pushed? then Some(e.rebalance) else m.lastPush,
      (m.rolling || e == TemplatePatched(Targets)) && !ShowsRolloutOver(e),
      Running(if WritesCR(e) then cr else m.pass.cr, m.pass.foundDeleted, PhaseAfter(m.pass.phase, e),
              PushAfter(m.pass, e), Noted(x, m.pass.cr.status, m.pass.notes, e)))
  }

  function PushAfter(p: Pass, e: Event): Option<Push>
    requires p.Running?
  {
    if e.Pushed? then Some(Push(e.rebalance, RebalanceEnabled(p.cr.config))) else p.pushed
  }

  predicate ReadsRemains(e: Event) { e.JobsRead? || e.CleanedUp? }

  predicate WritesCR(e: Event) {
    e.FinalizerAdded? || e.FinalizerRemoved? || e.HashesPatched? || e.StatusPatched?
  }

  function Written(cr: CR, e: Event): CR {
    match e
    case FinalizerAdded => cr.(finalizer := true)
    case FinalizerRemoved => cr.(finalizer := false)
    case StatusPatched(s) => cr.(status := s)
    case HashesPatched(hashes) => cr.(hashes := hashes)
    case _ => cr
  }

  function PhaseAfter(phase: Phase, e: Event): Phase {
    match e
    case PastDeletionCheck => Checked
    case PastSwitch => Onward
    case _ => phase
  }

  function Noted(x: Setting, status: ClusterStatus, n: Notes, e: Event): Notes {
    Notes(
      n.shutdownDue || e.ShutdownDecided?,
      EmptyAfter(n.proxiesEmpty, e, Proxies),
      EmptyAfter(n.targetsEmpty, e, Targets),
      if Reads(e, Targets) then ShowsNoRollout(e.read) else n.targetsSettled && e != TemplatePatched(Targets),
      ReadyAfter(x, status, n.proxiesOk, n.proxiesSeen, e, Proxies),
      ReadyAfter(x, status, n.targetsOk, n.targetsSeen, e, Targets),
      if e.MapRead? then MapSuffices(x, status, e.proxies, e.targets) else n.mapOk,
      if e.CleanedUp? then Some(e.existed) else n.cleaned,
      n.hostJobs || e.HostJobsCreated?,
      n.noJobs || e == JobsRead(false),
      if Reads(e, Proxies) then SizeRead(e.read) else n.proxiesSeen,
      if Reads(e, Targets) then SizeRead(e.read) else n.targetsSeen,
      DueAfter(x, status, n.proxiesDue, e, Proxies),
      DueAfter(x, status, n.targetsDue, e, Targets))
  }

  function SizeRead(read: Option<StatefulSet>): SizeSeen {
    if read.Some? then Sized(read.value.replicas) else Missing
  }

  function SeenBy(p: Pass, kind: Kind): SizeSeen
    requires p.Running?
  {
    if kind.Proxies? then p.notes.proxiesSeen else p.notes.targetsSeen
  }

  function DueAfter(x: Setting, status: ClusterStatus, due: Option<int>, e: Event, kind: Kind): Option<int> {
    if e.DirectRead? && e.kind == kind && SizesUsable(x) && ScalingNeeded(x, status, kind, e.ss)
    then Some(SizeOf(x, status, kind)) else due
  }

  /** A running target set grows by one, or with rebalance off. */
  predicate GrowthPrepared(p: Pass, size: int)
    requires p.Running?
  {
    p.notes.targetsSeen.Sized? && p.notes.targetsSeen.n > 0 && size > p.notes.targetsSeen.n + 1 ==>
      PushedOff(p) && !p.cr.status.rebalance
  }

  /** An autoscaled set shrinks to a size that a direct read has shown to be due. */
  predicate ShrinkConfirmed(x: Setting, p: Pass, kind: Kind, size: int)
    requires p.Running?
  {
    AutoScales(x, kind) && SeenBy(p, kind).Sized? && size < SeenBy(p, kind).n ==>
      (if kind.Proxies? then p.notes.proxiesDue else p.notes.targetsDue) == Some(size)
  }

  predicate Reads(e: Event, kind: Kind) {
    e.StatefulSetRead? && e.kind == kind
  }

  predicate EmptyAfter(empty: bool, e: Event, kind: Kind) {
    if Reads(e, kind) then ShowsEmpty(e.read) else empty && !(e.ReplicasSet? && e.kind == kind)
  }

  /** A StatefulSet read as missing passes for ready if its name turns out to be taken. */
  predicate ReadyAfter(x: Setting, status: ClusterStatus, ready: bool, seen: SizeSeen, e: Event, kind: Kind) {
    if Reads(e, kind) then e.read.Some? && ReadsReady(x, status, kind, e.read.value)
    else if e.Ensured? && e.kind == kind then e.existed && seen.Missing?
    else ready
  }

  predicate ShowsRolloutOver(e: Event) {
    Reads(e, Targets) && ShowsNoRollout(e.read)
  }

  /** The target StatefulSet is not there, or its status is up to date and reports no rollout. */
  predicate ShowsNoRollout(read: Option<StatefulSet>) {
    read.Some? ==> IsStatusCurrent(read.value) && !IsRolloutInProgress(read.value)
  }

  predicate ShowsEmpty(read: Option<StatefulSet>) {
    read.Some? && read.value.status.replicas == 0
  }

  ghost predicate IsHistory(x: Setting, log: seq<Event>)
    decreases |log|, 0
  {
    log == [] ||
    var n := |log| - 1;
    IsHistory(x, log[..n]) && MayHappen(x, After(x, log[..n]), log[n])
  }

  ghost function After(x: Setting, log: seq<Event>): Machine
    requires IsHistory(x, log)
    decreases |log|, 1
  {
    if log == [] then Initially()
    else var n := |log| - 1; Next(x, After(x, log[..n]), log[n])
  }

  // The same without recursion: the machines that a history leads through.

  ghost predicate StepAt(x: Setting, trace: seq<Machine>, log: seq<Event>, i: int)
    requires |trace| == |log| + 1 && 0 <= i < |log|
  {
    MayHappen(x, trace[i], log[i]) && trace[i + 1] == Next(x, trace[i], log[i])
  }

  ghost predicate Traces(x: Setting, trace: seq<Machine>, log: seq<Event>, m: Machine) {
    && |trace| == |log| + 1 && trace[0] == Initially() && trace[|log|] == m
    && forall i :: 0 <= i < |log| ==> StepAt(x, trace, log, i)
  }

  lemma TraceGrows(x: Setting, trace: seq<Machine>, log: seq<Event>, m: Machine, e: Event)
    requires Traces(x, trace, log, m) && MayHappen(x, m, e)
    ensures Traces(x, trace + [Next(x, m, e)], log + [e], Next(x, m, e))
  {
    var trace', log' := trace + [Next(x, m, e)], log + [e];
    forall i | 0 <= i < |log'| ensures StepAt(x, trace', log', i) {
      assert i < |log| ==> StepAt(x, trace, log, i);
    }
  }

  /** What has a trace is a history. */
  lemma {:induction false} TracedIsHistory(x: Setting, trace: seq<Machine>, log: seq<Event>, m: Machine)
    requires Traces(x, trace, log, m)
    ensures IsHistory(x, log) && After(x, log) == m
    decreases |log|
  {
    if log != [] {
      var n := |log| - 1;
      var trace', log' := trace[..n + 1], log[..n];
      forall i | 0 <= i < n ensures StepAt(x, trace', log', i) {
        assert StepAt(x, trace, log, i);
      }
      TracedIsHistory(x, trace', log', trace[n]);
      assert StepAt(x, trace, log, n);
    }
  }

  lemma {:induction false} PrefixIsHistory(x: Setting, log: seq<Event>, i: nat)
    requires IsHistory(x, log) && i <= |log|
    ensures IsHistory(x, log[..i])
    ensures i < |log| ==> MayHappen(x, After(x, log[..i]), log[i]) && IsHistory(x, log[..i + 1])
                          && After(x, log[..i + 1]) == Next(x, After(x, log[..i]), log[i])
    decreases |log|
  {
    var n := |log| - 1;
    if i < n {
      PrefixIsHistory(x, log[..n], i);
      assert log[..n][..i] == log[..i] && log[..n][..i + 1] == log[..i + 1];
    } else if i == n {
      assert log[..n + 1] == log;
    } else {
      assert log[..i] == log;
    }
  }

  // -------------------------------------------------------------- invariant

  /** A pass's copy of the CR lags behind only in what users may change; what the pass has got to agrees with the
      state; the finalizer is held from first to last; and the rebalance switches agree with what is going on. */
  ghost predicate Inv(m: Machine) {
    && (m.cr.finalizer || m.cr.status.state.New? || m.cr.status.state.Finalized?)
    && (m.cr.status.state.ShuttingDown? ==> !m.cr.status.rebalance)
    && (m.rolling ==> !m.cr.status.rebalance && m.lastPush == Some(false))
    && (m.pass.Running? ==> PassInv(m, m.pass))
  }

  ghost predicate PassInv(m: Machine, p: Pass)
    requires p.Running?
  {
    && p.cr.status == m.cr.status && p.cr.finalizer == m.cr.finalizer && p.cr.hashes == m.cr.hashes
    && (p.cr.deleted ==> m.cr.deleted)
    && (p.foundDeleted ==> p.cr.deleted && (p.phase.Start? || Rank(p.cr.status.state) > 0))
    && (p.notes.shutdownDue ==> !p.foundDeleted && !p.phase.Start?)
    && (p.phase.Onward? ==> Live(p.cr.status.state))
    && (p.notes.targetsSettled ==> !m.rolling)
    && (p.pushed.Some? ==> m.lastPush == Some(p.pushed.value.rebalance))
  }

  /** How a status patch may change the state, the condition ReadyRebalance and so on. */
  lemma PatchKeepsOrder(x: Setting, p: Pass, s: ClusterStatus)
    requires p.Running? && MayPatch(x, p, s)
    requires p.phase.Onward? ==> Live(p.cr.status.state)
    ensures Rank(p.cr.status.state) <= Rank(s.state)
    ensures p.phase.Onward? ==> Live(s.state)
    ensures s.rebalance && !p.cr.status.rebalance ==>
              p.phase.Onward? && p.notes.targetsSettled && s.state == p.cr.status.state
    ensures p.cr.status.state.New? && !s.state.New? ==> p.cr.finalizer
    ensures p.cr.status.state.Finalized? ==> s.state.Finalized?
    ensures s.state.ShuttingDown? && !p.cr.status.state.ShuttingDown? ==>
              p.phase.Checked? && p.notes.shutdownDue && p.cr.status.state.Ready? && !s.rebalance
  {
    var t := p.cr.status;
    if p.phase.Checked? && s == t.(state := s.state) && MayMove(x, p, t.state, s.state) {
      assert s.rebalance == t.rebalance;
    }
  }

  lemma InvStatusPatched(x: Setting, m: Machine, s: ClusterStatus)
    requires Inv(m) && MayHappen(x, m, StatusPatched(s))
    ensures Inv(Next(x, m, StatusPatched(s)))
  {
    PatchKeepsOrder(x, m.pass, s);
  }

  lemma InvOuter(x: Setting, m: Machine, e: Event)
    requires Inv(m) && MayHappen(x, m, e) && IsOuter(e)
    ensures Inv(Next(x, m, e))
  {
  }

  /** The notes on the rebalance switches say what they should. */
  lemma NotedRebalance(x: Setting, status: ClusterStatus, n: Notes, e: Event)
    ensures var n' := Noted(x, status, n, e);
            && (n'.shutdownDue ==> n.shutdownDue || e.ShutdownDecided?)
            && (n'.targetsSettled ==> ShowsRolloutOver(e) || (n.targetsSettled && e != TemplatePatched(Targets)))
  {
  }

  lemma InvWritten(x: Setting, m: Machine, e: Event)
    requires Inv(m) && MayHappen(x, m, e) && WritesCR(e) && !e.StatusPatched?
    ensures Inv(Inside(x, m, e))
  {
    var m' := Inside(x, m, e);
    assert m'.pass.notes == m.pass.notes && m'.pass.phase == m.pass.phase && m'.pass.cr == m'.cr;
    assert m'.cr.status == m.cr.status && m'.cr.deleted == m.cr.deleted;
  }

  lemma InvInside(x: Setting, m: Machine, e: Event)
    requires Inv(m) && MayHappen(x, m, e) && !IsOuter(e) && !WritesCR(e)
    ensures Inv(Inside(x, m, e))
  {
    var p, p' := m.pass, Inside(x, m, e).pass;
    NotedRebalance(x, p.cr.status, p.notes, e);
    assert p'.cr == p.cr && p'.foundDeleted == p.foundDeleted;
    assert e.ShutdownDecided? ==> p.phase.Checked? && Rank(p.cr.status.state) == 0;
    assert e.TemplatePatched? ==> p.phase.Onward?;
  }

  lemma InvSteps(x: Setting, m: Machine, e: Event)
    requires Inv(m) && MayHappen(x, m, e)
    ensures Inv(Next(x, m, e))
  {
    if IsOuter(e) {
      InvOuter(x, m, e);
    } else if e.StatusPatched? {
      InvStatusPatched(x, m, e.status);
    } else if WritesCR(e) {
      InvWritten(x, m, e);
    } else {
      InvInside(x, m, e);
      assert Next(x, m, e) == Inside(x, m, e);
    }
  }

  lemma {:induction false} InvHolds(x: Setting, log: seq<Event>)
    requires IsHistory(x, log)
    ensures Inv(After(x, log))
  {
    if log != [] {
      var n := |log| - 1;
      InvHolds(x, log[..n]);
      InvSteps(x, After(x, log[..n]), log[n]);
    }
  }
}
