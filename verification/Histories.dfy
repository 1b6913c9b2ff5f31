/** What holds of every history: with passes cut short anywhere, calls that fail or fail after taking effect, and
    users who set flags and delete the CR at any time. */
module Histories {
  import opened Wrappers
  import opened StatefulSets
  import opened RebalanceConfig
  import opened ClusterSpec
  import opened Lifecycle

  ghost function At(x: Setting, log: seq<Event>, i: nat): Machine
    requires IsHistory(x, log) && i <= |log|
  {
    PrefixIsHistory(x, log, i);
    After(x, log[..i])
  }

  lemma AtNext(x: Setting, log: seq<Event>, i: nat)
    requires IsHistory(x, log) && i < |log|
    ensures MayHappen(x, At(x, log, i), log[i]) && At(x, log, i + 1) == Next(x, At(x, log, i), log[i])
    ensures Inv(At(x, log, i)) && Inv(At(x, log, i + 1))
  {
    PrefixIsHistory(x, log, i);
    InvHolds(x, log[..i]);
    InvHolds(x, log[..i + 1]);
  }

  ghost function StateAt(x: Setting, log: seq<Event>, i: nat): State
    requires IsHistory(x, log) && i <= |log|
  {
    At(x, log, i).cr.status.state
  }

  /** Step i is a patch that moves the cluster into state s. */
  ghost predicate Enters(x: Setting, log: seq<Event>, i: nat, s: State)
    requires IsHistory(x, log) && i < |log|
  {
    log[i].StatusPatched? && log[i].status.state == s && StateAt(x, log, i) != s
  }

  predicate IsBoundary(e: Event) { e.PassStarts? || e.PassEnds? }

  /** Steps k and i belong to one pass. */
  ghost predicate SamePass(log: seq<Event>, k: nat, i: nat) {
    k <= i <= |log| && forall j :: k <= j < i ==> !IsBoundary(log[j])
  }

  // --------------------------------------------------------------- teardown

  lemma RankSteps(x: Setting, m: Machine, e: Event)
    requires Inv(m) && MayHappen(x, m, e)
    ensures Rank(m.cr.status.state) <= Rank(Next(x, m, e).cr.status.state)
  {
    if e.StatusPatched? {
      PatchKeepsOrder(x, m.pass, e.status);
    }
  }

  /** Teardown never goes back. */
  lemma {:induction false} TeardownNeverGoesBack(x: Setting, log: seq<Event>, i: nat, j: nat)
    requires IsHistory(x, log) && i <= j <= |log|
    ensures Rank(StateAt(x, log, i)) <= Rank(StateAt(x, log, j))
    decreases j
  {
    if i < j {
      TeardownNeverGoesBack(x, log, i, j - 1);
      AtNext(x, log, j - 1);
      RankSteps(x, At(x, log, j - 1), log[j - 1]);
    }
  }

  /** Things a pass may have seen or done. */
  datatype Sight =
    | NoJobs
    | HostJobs
    | AllDeleted(existed: bool)
    | NoPods(kind: Kind)
    | Decision
    | Pushes(rebalance: bool)
    | MissingRead(kind: Kind)

  predicate Shows(what: Sight, e: Event) {
    match what
    case NoJobs => e == JobsRead(false)
    case HostJobs => e.HostJobsCreated?
    case AllDeleted(existed) => e == CleanedUp(existed)
    case NoPods(kind) => Reads(e, kind) && ShowsEmpty(e.read)
    case Decision => e.ShutdownDecided?
    case Pushes(rebalance) => e == Pushed(rebalance)
    case MissingRead(kind) => e == StatefulSetRead(kind, None)
  }

  /** It happened earlier in the pass that step i belongs to. */
  ghost predicate Seen(log: seq<Event>, i: nat, what: Sight)
    requires i <= |log|
  {
    exists k: nat :: k < i && SamePass(log, k, i) && Shows(what, log[k])
  }

  lemma SeenGrows(log: seq<Event>, i: nat, what: Sight)
    requires i < |log| && !IsBoundary(log[i])
    ensures Seen(log, i, what) || Shows(what, log[i]) ==> Seen(log, i + 1, what)
  {
    if Shows(what, log[i]) {
      assert SamePass(log, i, i + 1);
    } else if Seen(log, i, what) {
      var k: nat :| k < i && SamePass(log, k, i) && Shows(what, log[k]);
      assert SamePass(log, k, i + 1);
    }
  }

  lemma NextInside(x: Setting, log: seq<Event>, i: nat)
    requires IsHistory(x, log) && i < |log|
    ensures var m, m' := At(x, log, i), At(x, log, i + 1);
            && (!IsBoundary(log[i]) && m.pass.Running? ==>
                  m'.pass.Running? && m'.pass.foundDeleted == m.pass.foundDeleted
                  && m'.pass.notes == Noted(x, m.cr.status, m.pass.notes, log[i])
                  && m'.pass.pushed == PushAfter(m.pass, log[i]))
            && (log[i].PassStarts? ==>
                  && m'.pass.Running? && m'.pass.notes == NOTHING_NOTED && m'.pass.pushed == None
                  && m'.pass.foundDeleted == m.cr.deleted)
            && (m'.pass.Running? && !m.pass.Running? ==> log[i].PassStarts? || m.pass == m'.pass)
            && (log[i].PassEnds? ==> m'.pass.Idle?)
  {
    AtNext(x, log, i);
    var m := At(x, log, i);
    if !IsOuter(log[i]) {
      assert Next(x, m, log[i]) == Inside(x, m, log[i]);
    }
  }

  lemma NotedCleanup(x: Setting, status: ClusterStatus, n: Notes, e: Event)
    ensures var n' := Noted(x, status, n, e);
            && (n'.noJobs ==> e == JobsRead(false) || n.noJobs)
            && (n'.hostJobs ==> e.HostJobsCreated? || n.hostJobs)
            && (n'.cleaned.Some? ==> e == CleanedUp(n'.cleaned.value) || n.cleaned == n'.cleaned)
  {
  }

  lemma NothingBefore(x: Setting, log: seq<Event>)
    requires IsHistory(x, log)
    ensures At(x, log, 0) == Initially()
  {
    assert log[..0] == [];
  }

  /** What a pass knows about clean-up it has seen for itself. */
  lemma {:induction false} CleanupWasSeen(x: Setting, log: seq<Event>, i: nat)
    requires IsHistory(x, log) && i <= |log|
    ensures var p := At(x, log, i).pass;
            p.Running? ==>
              && (p.notes.noJobs ==> Seen(log, i, NoJobs))
              && (p.notes.hostJobs ==> Seen(log, i, HostJobs))
              && (p.notes.cleaned.Some? ==> Seen(log, i, AllDeleted(p.notes.cleaned.value)))
    decreases i
  {
    if i == 0 {
      NothingBefore(x, log);
    } else {
      CleanupWasSeen(x, log, i - 1);
      NextInside(x, log, i - 1);
      var m, p := At(x, log, i - 1), At(x, log, i).pass;
      if m.pass.Running? && !IsBoundary(log[i - 1]) {
        NotedCleanup(x, m.cr.status, m.pass.notes, log[i - 1]);
        SeenGrows(log, i - 1, NoJobs);
        SeenGrows(log, i - 1, HostJobs);
        if p.notes.cleaned.Some? {
          SeenGrows(log, i - 1, AllDeleted(p.notes.cleaned.value));
        }
      }
    }
  }

  lemma StageReason(x: Setting, p: Pass, s: ClusterStatus)
    requires p.Running? && MayPatch(x, p, s) && s.state != p.cr.status.state && Rank(s.state) > 0
    requires p.phase.Onward? ==> Live(p.cr.status.state)
    ensures match s.state
            case Decommissioning => ShouldDecommission(p.cr)
            case CleaningResources => p.cr.status.state.Decommissioning?
            case HostCleanup =>
              && p.cr.status.state.CleaningResources? && p.notes.cleaned.Some?
              && if HasHostCleanup(x) then p.notes.hostJobs else !p.notes.cleaned.value
            case Finalized => p.cr.status.state.HostCleanup? && p.notes.noJobs
            case _ => true
  {
  }

  /** At step k the pass has listed the cleanup jobs, and none is at work. */
  ghost predicate JobsOverAt(x: Setting, log: seq<Event>, k: nat)
    requires IsHistory(x, log) && k < |log|
  {
    log[k] == JobsRead(false) && !At(x, log, k).remains.jobs
  }

  /** At step k every delete call has been made; `existed` says whether anything was left to delete. */
  ghost predicate CleanedAt(x: Setting, log: seq<Event>, k: nat, existed: bool)
    requires IsHistory(x, log) && k < |log|
  {
    log[k] == CleanedUp(existed) && At(x, log, k).remains.objects == existed
  }

  ghost predicate JobsWereOver(x: Setting, log: seq<Event>, i: nat)
    requires IsHistory(x, log) && i <= |log|
  {
    exists k: nat :: k < i && SamePass(log, k, i) && JobsOverAt(x, log, k)
  }

  ghost predicate WasCleaned(x: Setting, log: seq<Event>, i: nat, existed: bool)
    requires IsHistory(x, log) && i <= |log|
  {
    exists k: nat :: k < i && SamePass(log, k, i) && CleanedAt(x, log, k, existed)
  }

  /** What a pass reads of the remains is so. */
  lemma RemainsAreRead(x: Setting, log: seq<Event>, k: nat)
    requires IsHistory(x, log) && k < |log|
    ensures log[k] == JobsRead(false) ==> JobsOverAt(x, log, k)
    ensures log[k].CleanedUp? ==> CleanedAt(x, log, k, log[k].existed)
  {
    AtNext(x, log, k);
  }

  lemma SeenOverIsSo(x: Setting, log: seq<Event>, i: nat)
    requires IsHistory(x, log) && i <= |log| && Seen(log, i, NoJobs)
    ensures JobsWereOver(x, log, i)
  {
    var k: nat :| k < i && SamePass(log, k, i) && Shows(NoJobs, log[k]);
    RemainsAreRead(x, log, k);
  }

  lemma SeenCleanedIsSo(x: Setting, log: seq<Event>, i: nat, existed: bool)
    requires IsHistory(x, log) && i <= |log| && Seen(log, i, AllDeleted(existed))
    ensures WasCleaned(x, log, i, existed)
  {
    var k: nat :| k < i && SamePass(log, k, i) && Shows(AllDeleted(existed), log[k]);
    RemainsAreRead(x, log, k);
  }

  /** The stages of teardown are entered one from the next, each for its reason, found in the same pass: the CR was
      marked for deletion; every delete call was made and nothing was left to delete - or, with hosts to clean, the
      jobs for that were created; no job was at work any more. */
  lemma TeardownStages(x: Setting, log: seq<Event>, i: nat, s: State)
    requires IsHistory(x, log) && i < |log| && Enters(x, log, i, s) && Rank(s) > 0
    ensures match s
            case Decommissioning => Rank(StateAt(x, log, i)) == 0 && At(x, log, i).cr.deleted
            case CleaningResources => StateAt(x, log, i).Decommissioning?
            case HostCleanup => StateAt(x, log, i).CleaningResources? && ReadyForHosts(x, log, i)
            case Finalized => StateAt(x, log, i).HostCleanup? && JobsWereOver(x, log, i)
            case _ => true
  {
    AtNext(x, log, i);
    CleanupWasSeen(x, log, i);
    var p := At(x, log, i).pass;
    StageReason(x, p, log[i].status);
    if s.HostCleanup? {
      SeenCleanedIsSo(x, log, i, p.notes.cleaned.value);
    } else if s.Finalized? {
      SeenOverIsSo(x, log, i);
    }
  }

  ghost predicate ReadyForHosts(x: Setting, log: seq<Event>, i: nat)
    requires IsHistory(x, log) && i <= |log|
  {
    if HasHostCleanup(x)
    then Seen(log, i, HostJobs) && (WasCleaned(x, log, i, true) || WasCleaned(x, log, i, false))
    else WasCleaned(x, log, i, false)
  }

  /** A teardown state is entered before anyone is in it. */
  lemma {:induction false} WasEntered(x: Setting, log: seq<Event>, j: nat) returns (i: nat)
    requires IsHistory(x, log) && j <= |log| && Rank(StateAt(x, log, j)) > 0
    ensures i < j && Enters(x, log, i, StateAt(x, log, j))
    decreases j
  {
    NothingBefore(x, log);
    assert j > 0;
    AtNext(x, log, j - 1);
    if StateAt(x, log, j - 1) == StateAt(x, log, j) {
      i := WasEntered(x, log, j - 1);
    } else {
      i := j - 1;
    }
  }

  /** The whole of it: the finalizer - and with it the CR - is given up only after the CR was marked for deletion, the
      cluster decommissioned, every delete call of one pass made, and, in one later pass, no cleanup job at work, in
      that order. */
  lemma FinalizerGoesLast(x: Setting, log: seq<Event>, i: nat)
    returns (decommissioned: nat, cleaning: nat, cleaned: nat, finalized: nat)
    requires IsHistory(x, log) && i < |log| && log[i].FinalizerRemoved?
    ensures decommissioned < cleaning < cleaned < finalized < i
    ensures Enters(x, log, decommissioned, Decommissioning) && At(x, log, decommissioned).cr.deleted
    ensures Enters(x, log, cleaning, CleaningResources)
    ensures Enters(x, log, cleaned, HostCleanup)
    ensures ReadyForHosts(x, log, cleaned)
    ensures Enters(x, log, finalized, Finalized) && JobsWereOver(x, log, finalized)
    ensures StateAt(x, log, i).Finalized?
  {
    OnlyFinalizedIsReleased(x, log, i);
    finalized := WasEntered(x, log, i);
    TeardownStages(x, log, finalized, Finalized);
    cleaned := WasEntered(x, log, finalized);
    TeardownStages(x, log, cleaned, HostCleanup);
    decommissioned, cleaning := WasDecommissioned(x, log, cleaned);
  }

  lemma OnlyFinalizedIsReleased(x: Setting, log: seq<Event>, i: nat)
    requires IsHistory(x, log) && i < |log| && log[i].FinalizerRemoved?
    ensures StateAt(x, log, i).Finalized?
  {
    AtNext(x, log, i);
  }

  lemma WasDecommissioned(x: Setting, log: seq<Event>, i: nat) returns (decommissioned: nat, cleaning: nat)
    requires IsHistory(x, log) && i <= |log| && StateAt(x, log, i).CleaningResources?
    ensures decommissioned < cleaning < i && Enters(x, log, cleaning, CleaningResources)
    ensures Enters(x, log, decommissioned, Decommissioning) && At(x, log, decommissioned).cr.deleted
  {
    cleaning := WasEntered(x, log, i);
    TeardownStages(x, log, cleaning, CleaningResources);
    decommissioned := WasEntered(x, log, cleaning);
    TeardownStages(x, log, decommissioned, Decommissioning);
  }

  /** From its first state on the CR holds its finalizer, until it is finalized. */
  lemma FinalizerIsHeld(x: Setting, log: seq<Event>, i: nat)
    requires IsHistory(x, log) && i <= |log|
    ensures At(x, log, i).cr.finalizer || StateAt(x, log, i) in {New, Finalized}
  {
    PrefixIsHistory(x, log, i);
    InvHolds(x, log[..i]);
  }

  // ----------------------------------------------------- deletion preempts

  /** Writes that serve to run the cluster. */
  predicate IsClusterWork(e: Event) {
    || e.Pushed? || e.HashesPatched? || e.Ensured? || e.ReplicasSet? || e.TemplatePatched? || e.PolicyPatched?
    || e.RolloutDriven? || e.NodesToldToLeave?
  }

  lemma {:induction false} FoundDeletedLasts(x: Setting, log: seq<Event>, start: nat, i: nat)
    requires IsHistory(x, log) && start < i <= |log| && log[start].PassStarts? && SamePass(log, start + 1, i)
    ensures At(x, log, i).pass.Running? && At(x, log, i).pass.foundDeleted == At(x, log, start).cr.deleted
    decreases i
  {
    NextInside(x, log, i - 1);
    if start + 1 < i {
      FoundDeletedLasts(x, log, start, i - 1);
    }
  }

  lemma DeletedPassDoesNoWork(x: Setting, m: Machine, e: Event)
    requires Inv(m) && MayHappen(x, m, e) && m.pass.Running? && m.pass.foundDeleted
    ensures !IsClusterWork(e)
  {
  }

  lemma DeletedPassMoves(x: Setting, m: Machine, s: ClusterStatus)
    requires Inv(m) && m.pass.Running? && MayPatch(x, m.pass, s) && m.pass.foundDeleted && s.state != m.cr.status.state
    ensures Rank(s.state) > 0 || (s.state.Initialized? && m.cr.status.state.New?)
  {
    PatchKeepsOrder(x, m.pass, s);
  }

  /** A pass that finds the CR marked for deletion does no work for the cluster, whatever state the cluster is in:
      all it may do to the state is to move it into and along the teardown, or out of nothing into Initialized. */
  lemma DeletionPreempts(x: Setting, log: seq<Event>, start: nat, i: nat)
    requires IsHistory(x, log) && start < i < |log| && log[start].PassStarts? && SamePass(log, start + 1, i)
    requires At(x, log, start).cr.deleted
    ensures !IsClusterWork(log[i])
    ensures forall s :: Enters(x, log, i, s) ==> Rank(s) > 0 || (s.Initialized? && StateAt(x, log, i).New?)
  {
    FoundDeletedLasts(x, log, start, i);
    AtNext(x, log, i);
    DeletedPassDoesNoWork(x, At(x, log, i), log[i]);
    if log[i].StatusPatched? && log[i].status.state != StateAt(x, log, i) {
      DeletedPassMoves(x, At(x, log, i), log[i].status);
    }
  }

  // --------------------------------------------------------------- shutdown

  lemma NotedShutdown(x: Setting, status: ClusterStatus, n: Notes, e: Event)
    ensures var n' := Noted(x, status, n, e);
            && (n'.proxiesEmpty ==> Shows(NoPods(Proxies), e) || n.proxiesEmpty)
            && (n'.targetsEmpty ==> Shows(NoPods(Targets), e) || n.targetsEmpty)
            && (n'.shutdownDue ==> Shows(Decision, e) || n.shutdownDue)
  {
  }

  lemma {:induction false} EmptinessWasSeen(x: Setting, log: seq<Event>, i: nat)
    requires IsHistory(x, log) && i <= |log|
    ensures var p := At(x, log, i).pass;
            p.Running? ==>
              && (p.notes.proxiesEmpty ==> Seen(log, i, NoPods(Proxies)))
              && (p.notes.targetsEmpty ==> Seen(log, i, NoPods(Targets)))
              && (p.notes.shutdownDue ==> Seen(log, i, Decision))
    decreases i
  {
    if i == 0 {
      NothingBefore(x, log);
    } else {
      EmptinessWasSeen(x, log, i - 1);
      NextInside(x, log, i - 1);
      var m := At(x, log, i - 1);
      if m.pass.Running? && !IsBoundary(log[i - 1]) {
        NotedShutdown(x, m.cr.status, m.pass.notes, log[i - 1]);
        SeenGrows(log, i - 1, NoPods(Proxies));
        SeenGrows(log, i - 1, NoPods(Targets));
        SeenGrows(log, i - 1, Decision);
      }
    }
  }

  lemma {:induction false} PushWasSeen(x: Setting, log: seq<Event>, i: nat)
    requires IsHistory(x, log) && i <= |log|
    ensures var p := At(x, log, i).pass;
            p.Running? && p.pushed.Some? ==> Seen(log, i, Pushes(p.pushed.value.rebalance))
    decreases i
  {
    if i == 0 {
      NothingBefore(x, log);
    } else {
      PushWasSeen(x, log, i - 1);
      NextInside(x, log, i - 1);
      var m := At(x, log, i - 1);
      if m.pass.Running? && !IsBoundary(log[i - 1]) {
        SeenGrows(log, i - 1, Pushes(true));
        SeenGrows(log, i - 1, Pushes(false));
      }
    }
  }

  /** Shutting down begins in a Ready cluster, in a pass that read the flag set and no deletion pending and that has
      pushed a config with rebalance off. */
  lemma ShutdownBegins(x: Setting, log: seq<Event>, i: nat)
    requires IsHistory(x, log) && i < |log| && Enters(x, log, i, ShuttingDown)
    ensures StateAt(x, log, i).Ready? && !At(x, log, i).cr.status.rebalance && At(x, log, i).lastPush == Some(false)
    ensures Seen(log, i, Decision) && Seen(log, i, Pushes(false))
  {
    AtNext(x, log, i);
    EmptinessWasSeen(x, log, i);
    PushWasSeen(x, log, i);
    PatchKeepsOrder(x, At(x, log, i).pass, log[i].status);
  }

  lemma ShutdownIsDecided(x: Setting, log: seq<Event>, i: nat)
    requires IsHistory(x, log) && i < |log| && log[i].ShutdownDecided?
    ensures var p := At(x, log, i).pass;
            p.Running? && p.cr.shutdown && p.cr.status.state.Ready? && !p.foundDeleted
  {
    AtNext(x, log, i);
  }

  /** Rebalance is not ready, in the status, for as long as the cluster is shutting down. */
  lemma NoRebalanceWhileShuttingDown(x: Setting, log: seq<Event>, i: nat)
    requires IsHistory(x, log) && i <= |log| && StateAt(x, log, i).ShuttingDown?
    ensures !At(x, log, i).cr.status.rebalance
  {
    PrefixIsHistory(x, log, i);
    InvHolds(x, log[..i]);
  }

  /** While shutting down, sizes are only ever set to zero, and that of the targets only after the pass has read the
      proxies at zero. */
  lemma ProxiesGoFirst(x: Setting, log: seq<Event>, i: nat)
    requires IsHistory(x, log) && i < |log| && log[i].ReplicasSet? && StateAt(x, log, i).ShuttingDown?
    ensures log[i].size == 0
    ensures log[i].kind.Targets? ==> Seen(log, i, NoPods(Proxies))
  {
    AtNext(x, log, i);
    EmptinessWasSeen(x, log, i);
  }

  lemma OnlyWhenEmpty(x: Setting, p: Pass, s: ClusterStatus)
    requires p.Running? && MayPatch(x, p, s) && s.state.Shutdown? && !p.cr.status.state.Shutdown?
    ensures p.cr.status.state.ShuttingDown? && p.notes.proxiesEmpty && p.notes.targetsEmpty
  {
  }

  /** Shutdown is reached from ShuttingDown only, in a pass that has read both at zero. */
  lemma ShutdownCompletes(x: Setting, log: seq<Event>, i: nat)
    requires IsHistory(x, log) && i < |log| && Enters(x, log, i, Shutdown)
    ensures StateAt(x, log, i).ShuttingDown?
    ensures Seen(log, i, NoPods(Proxies)) && Seen(log, i, NoPods(Targets))
  {
    AtNext(x, log, i);
    EmptinessWasSeen(x, log, i);
    OnlyWhenEmpty(x, At(x, log, i).pass, log[i].status);
  }

  // -------------------------------------------------------------- rebalance

  /** Nothing between steps i and j has shown the target rollout over. */
  ghost predicate NotSeenOver(log: seq<Event>, i: nat, j: nat) {
    i <= j <= |log| && forall k :: i <= k < j ==> !ShowsRolloutOver(log[k])
  }

  /** From the write of the target template on, over any number of passes, until the StatefulSet is read with an
      up-to-date status and no rollout (or is read as missing), the config pushed last has rebalance off and the
      status says that the cluster is not ready for it - whatever the spec asks for, and however often it is edited. */
  lemma RebalanceOffDuringRollout(x: Setting, log: seq<Event>, i: nat, j: nat)
    requires IsHistory(x, log) && i < j <= |log| && log[i] == TemplatePatched(Targets) && NotSeenOver(log, i, j)
    ensures At(x, log, j).lastPush == Some(false) && !At(x, log, j).cr.status.rebalance
  {
    StillRolling(x, log, i, j);
    AtNext(x, log, j - 1);
  }

  lemma {:induction false} StillRolling(x: Setting, log: seq<Event>, i: nat, j: nat)
    requires IsHistory(x, log) && i < j <= |log| && log[i] == TemplatePatched(Targets) && NotSeenOver(log, i, j)
    ensures At(x, log, j).rolling
    decreases j
  {
    AtNext(x, log, j - 1);
    if i < j - 1 {
      StillRolling(x, log, i, j - 1);
    }
  }

  /** No config with rebalance on is pushed in that time either. */
  lemma NoPushDuringRollout(x: Setting, log: seq<Event>, i: nat, j: nat)
    requires IsHistory(x, log) && i < j < |log| && log[i] == TemplatePatched(Targets) && NotSeenOver(log, i, j)
    ensures log[j] != Pushed(true)
  {
    RebalanceOffDuringRollout(x, log, i, j);
    AtNext(x, log, j);
  }

  /** A write of the target template is preceded in its pass by a push with rebalance off. */
  lemma RolloutBeginsWithRebalanceOff(x: Setting, log: seq<Event>, i: nat)
    requires IsHistory(x, log) && i < |log| && log[i] == TemplatePatched(Targets)
    ensures Seen(log, i, Pushes(false)) && At(x, log, i).lastPush == Some(false) && !At(x, log, i).cr.status.rebalance
  {
    AtNext(x, log, i);
    PushWasSeen(x, log, i);
  }

  /** Step k is the pass's last read of the StatefulSet before step i, and shows it with n replicas. */
  ghost predicate LastSizeRead(log: seq<Event>, k: nat, i: nat, kind: Kind, n: nat) {
    && k < i <= |log| && SamePass(log, k, i) && Reads(log[k], kind) && SizeRead(log[k].read) == Sized(n)
    && forall j :: k < j < i ==> !Reads(log[j], kind)
  }

  lemma {:induction false} SizeIsNoted(x: Setting, log: seq<Event>, k: nat, i: nat, kind: Kind, n: nat)
    requires IsHistory(x, log) && LastSizeRead(log, k, i, kind, n)
    ensures At(x, log, i).pass.Running? && SeenBy(At(x, log, i).pass, kind) == Sized(n)
    decreases i
  {
    if i == k + 1 {
      ReadsAreMade(x, log, k);
      NextInside(x, log, k);
    } else {
      SizeIsNoted(x, log, k, i - 1, kind, n);
      NextInside(x, log, i - 1);
    }
  }

  lemma ReadsAreMade(x: Setting, log: seq<Event>, k: nat)
    requires IsHistory(x, log) && k < |log| && log[k].StatefulSetRead?
    ensures At(x, log, k).pass.Running?
  {
    AtNext(x, log, k);
  }

  /** Growing a running target set by more than one is preceded, in its pass, by a push with rebalance off. */
  lemma GrowthBeginsWithRebalanceOff(x: Setting, log: seq<Event>, k: nat, i: nat, n: nat, size: int)
    requires IsHistory(x, log) && i < |log| && log[i] == ReplicasSet(Targets, size)
    requires LastSizeRead(log, k, i, Targets, n) && 0 < n && n + 1 < size
    ensures Seen(log, i, Pushes(false)) && At(x, log, i).lastPush == Some(false) && !At(x, log, i).cr.status.rebalance
  {
    AtNext(x, log, i);
    PushWasSeen(x, log, i);
    SizeIsNoted(x, log, k, i, Targets, n);
  }

  /** The pass's last push before step i, and what the spec it had then asked for. */
  lemma {:induction false} PushWasMade(x: Setting, log: seq<Event>, i: nat) returns (k: nat)
    requires IsHistory(x, log) && i <= |log|
    requires At(x, log, i).pass.Running? && At(x, log, i).pass.pushed.Some?
    ensures k < i && SamePass(log, k, i) && log[k] == Pushed(At(x, log, i).pass.pushed.value.rebalance)
    ensures At(x, log, k).pass.Running?
    ensures At(x, log, i).pass.pushed.value.wanted == RebalanceEnabled(At(x, log, k).pass.cr.config)
    ensures forall j :: k < j < i ==> !log[j].Pushed?
    decreases i
  {
    NothingBefore(x, log);
    assert i > 0;
    NextInside(x, log, i - 1);
    PassesRun(x, log, i - 1);
    if log[i - 1].Pushed? {
      k := i - 1;
    } else {
      k := PushWasMade(x, log, i - 1);
      SamePassGrows(log, k, i - 1);
    }
  }

  /** A running pass that is not just beginning was running before. */
  lemma PassesRun(x: Setting, log: seq<Event>, i: nat)
    requires IsHistory(x, log) && i < |log| && At(x, log, i + 1).pass.Running?
    ensures log[i].PassStarts? || (At(x, log, i).pass.Running? && !IsBoundary(log[i]))
    ensures log[i].PassStarts? ==> At(x, log, i + 1).pass.pushed.None?
  {
    AtNext(x, log, i);
  }

  /** Unless targets are retained, they are told to leave only after a push, in the same pass, of a config with the
      rebalance setting that the spec had at that push - and with no other push since. */
  lemma NodesLeaveAfterPush(x: Setting, log: seq<Event>, i: nat) returns (k: nat)
    requires IsHistory(x, log) && i < |log| && log[i].NodesToldToLeave? && !x.retain
    ensures k < i && SamePass(log, k, i) && At(x, log, k).pass.Running?
    ensures log[k] == Pushed(RebalanceEnabled(At(x, log, k).pass.cr.config))
    ensures forall j :: k < j < i ==> !log[j].Pushed?
    ensures At(x, log, i).lastPush == Some(log[k].rebalance)
  {
    LeavingIsPrepared(x, log, i);
    k := PushWasMade(x, log, i);
  }

  lemma LeavingIsPrepared(x: Setting, log: seq<Event>, i: nat)
    requires IsHistory(x, log) && i < |log| && log[i].NodesToldToLeave? && !x.retain
    ensures var m := At(x, log, i);
            m.pass.Running? && PushedAsWanted(m.pass) && m.lastPush == Some(m.pass.pushed.value.rebalance)
  {
    AtNext(x, log, i);
  }

  // ------------------------------------------------------ autoscaled sets

  /** A read past the cache shows that the set may be given this size: if that shrinks it, then whatever pods the status
      counts are settled, and all of them are ready or more are not than the budget allows. */
  ghost predicate Confirms(x: Setting, status: ClusterStatus, e: Event, kind: Kind, size: int) {
    && e.DirectRead? && e.kind == kind && SizesUsable(x) && SizeOf(x, status, kind) == size
    && (size < e.ss.replicas ==>
          forall pods: PodSet :: AllCountersMatch(e.ss, pods) ==>
            && PodsSettled(e.ss, pods)
            && ((forall i :: i in pods ==> pods[i].ready)
                || |UnreadyPods(pods)| > MaxUnavailable(DaemonOf(x, kind))))
  }

  lemma DueIsConfirmed(x: Setting, status: ClusterStatus, e: Event, kind: Kind)
    requires AutoScales(x, kind) && e.DirectRead? && e.kind == kind && SizesUsable(x)
    requires ScalingNeeded(x, status, kind, e.ss)
    ensures Confirms(x, status, e, kind, SizeOf(x, status, kind))
  {
    forall pods: PodSet | AllCountersMatch(e.ss, pods)
      ensures ResizeDue(e.ss, pods, SizeOf(x, status, kind), MaxUnavailable(DaemonOf(x, kind)), true)
    {
      ScalingNeededExactly(e.ss, pods, SizeOf(x, status, kind), MaxUnavailable(DaemonOf(x, kind)), true);
    }
  }

  function DueOf(n: Notes, kind: Kind): Option<int> {
    if kind.Proxies? then n.proxiesDue else n.targetsDue
  }

  ghost predicate ConfirmedAt(x: Setting, log: seq<Event>, k: nat, kind: Kind, size: int)
    requires IsHistory(x, log) && k < |log|
  {
    Confirms(x, At(x, log, k).cr.status, log[k], kind, size)
  }

  lemma NotedDue(x: Setting, status: ClusterStatus, n: Notes, e: Event, kind: Kind, size: int)
    requires AutoScales(x, kind) && DueOf(Noted(x, status, n, e), kind) == Some(size)
    ensures Confirms(x, status, e, kind, size) || DueOf(n, kind) == Some(size)
  {
    if e.DirectRead? && e.kind == kind && SizesUsable(x) && ScalingNeeded(x, status, kind, e.ss) {
      DueIsConfirmed(x, status, e, kind);
    }
  }

  lemma {:induction false} DueWasSeen(x: Setting, log: seq<Event>, i: nat, kind: Kind, size: int) returns (k: nat)
    requires IsHistory(x, log) && i <= |log| && AutoScales(x, kind)
    requires At(x, log, i).pass.Running? && DueOf(At(x, log, i).pass.notes, kind) == Some(size)
    ensures k < i && SamePass(log, k, i) && ConfirmedAt(x, log, k, kind, size)
    decreases i
  {
    NothingBefore(x, log);
    assert i > 0;
    NextInside(x, log, i - 1);
    PassesRun(x, log, i - 1);
    var m := At(x, log, i - 1);
    NotedDue(x, m.cr.status, m.pass.notes, log[i - 1], kind, size);
    if DueOf(m.pass.notes, kind) == Some(size) {
      k := DueWasSeen(x, log, i - 1, kind, size);
    } else {
      k := i - 1;
    }
    SamePassGrows(log, k, i - 1);
  }

  /** An autoscaled set, of proxies or of targets, that the pass has read with more than `size` replicas is given that
      size only after a read past the cache, in the same pass, that confirms it. */
  lemma ShrinkIsConfirmed(x: Setting, log: seq<Event>, j: nat, i: nat, kind: Kind, n: nat, size: int) returns (k: nat)
    requires IsHistory(x, log) && i < |log| && log[i] == ReplicasSet(kind, size) && AutoScales(x, kind)
    requires LastSizeRead(log, j, i, kind, n) && size < n && !StateAt(x, log, i).ShuttingDown?
    ensures k < i && SamePass(log, k, i) && ConfirmedAt(x, log, k, kind, size)
  {
    SizeIsNoted(x, log, j, i, kind, n);
    ShrinkIsPrepared(x, log, i);
    k := DueWasSeen(x, log, i, kind, size);
  }

  lemma ShrinkIsPrepared(x: Setting, log: seq<Event>, i: nat)
    requires IsHistory(x, log) && i < |log| && log[i].ReplicasSet? && !StateAt(x, log, i).ShuttingDown?
    ensures At(x, log, i).pass.Running? && ShrinkConfirmed(x, At(x, log, i).pass, log[i].kind, log[i].size)
  {
    AtNext(x, log, i);
  }

  // -------------------------------------------------------- what Ready means

  /** The StatefulSet was read with an up-to-date status, and whatever pods the status counts are settled and suffice
      for what the CR then asked. */
  ghost predicate ShowsReady(x: Setting, status: ClusterStatus, e: Event, kind: Kind) {
    && Reads(e, kind) && e.read.Some? && SizesUsable(x)
    && var ss := e.read.value;
       && ss.status.observedGeneration >= ss.generation
       && forall pods: PodSet :: AllCountersMatch(ss, pods) ==>
            && PodsSettled(ss, pods)
            && PodsSuffice(ss, pods, SizeOf(x, status, kind), MinReady(x, status, kind), AutoScales(x, kind))
  }

  lemma ReadyIsShown(x: Setting, status: ClusterStatus, e: Event, kind: Kind)
    requires Reads(e, kind) && e.read.Some? && ReadsReady(x, status, kind, e.read.value)
    ensures ShowsReady(x, status, e, kind)
  {
    var ss := e.read.value;
    forall pods: PodSet | AllCountersMatch(ss, pods)
      ensures PodsSettled(ss, pods)
      ensures PodsSuffice(ss, pods, SizeOf(x, status, kind), MinReady(x, status, kind), AutoScales(x, kind))
    {
      NothingReportedExactly(ss, pods);
      ReadyExactly(ss, pods, SizeOf(x, status, kind), MinReady(x, status, kind), AutoScales(x, kind));
    }
  }

  predicate ShowsEnough(x: Setting, status: ClusterStatus, e: Event) {
    e.MapRead? && MapSuffices(x, status, e.proxies, e.targets)
  }

  ghost predicate ReadyAt(x: Setting, log: seq<Event>, k: nat, kind: Kind)
    requires IsHistory(x, log) && k < |log|
  {
    ShowsReady(x, At(x, log, k).cr.status, log[k], kind)
  }

  ghost predicate EnoughAt(x: Setting, log: seq<Event>, k: nat)
    requires IsHistory(x, log) && k < |log|
  {
    ShowsEnough(x, At(x, log, k).cr.status, log[k])
  }

  ghost predicate SawReady(x: Setting, log: seq<Event>, i: nat, kind: Kind)
    requires IsHistory(x, log) && i <= |log|
  {
    exists k: nat :: k < i && SamePass(log, k, i) && ReadyAt(x, log, k, kind)
  }

  ghost predicate SawEnough(x: Setting, log: seq<Event>, i: nat)
    requires IsHistory(x, log) && i <= |log|
  {
    exists k: nat :: k < i && SamePass(log, k, i) && EnoughAt(x, log, k)
  }

  /** The pass read the StatefulSet as missing, and then found that it could not be created as it exists. */
  ghost predicate SawTaken(log: seq<Event>, i: nat, kind: Kind)
    requires i <= |log|
  {
    exists k: nat :: k < i && SamePass(log, k, i) && log[k] == Ensured(kind, true) && Seen(log, k, MissingRead(kind))
  }

  lemma SawTakenGrows(log: seq<Event>, i: nat, kind: Kind)
    requires i < |log| && !IsBoundary(log[i])
    requires SawTaken(log, i, kind) || (log[i] == Ensured(kind, true) && Seen(log, i, MissingRead(kind)))
    ensures SawTaken(log, i + 1, kind)
  {
    var k: nat := i;
    if SawTaken(log, i, kind) {
      k :| 0 <= k < i && SamePass(log, k, i) && log[k] == Ensured(kind, true) && Seen(log, k, MissingRead(kind));
    }
    SamePassGrows(log, k, i);
  }

  lemma SamePassGrows(log: seq<Event>, k: nat, i: nat)
    requires i < |log| && !IsBoundary(log[i]) && (k == i || SamePass(log, k, i))
    ensures SamePass(log, k, i + 1)
  {
  }

  lemma SawReadyGrows(x: Setting, log: seq<Event>, i: nat, kind: Kind)
    requires IsHistory(x, log) && i < |log| && !IsBoundary(log[i])
    requires SawReady(x, log, i, kind) || ReadyAt(x, log, i, kind)
    ensures SawReady(x, log, i + 1, kind)
  {
    var k: nat := i;
    if SawReady(x, log, i, kind) {
      k :| 0 <= k < i && SamePass(log, k, i) && ReadyAt(x, log, k, kind);
    }
    SamePassGrows(log, k, i);
  }

  lemma SawEnoughGrows(x: Setting, log: seq<Event>, i: nat)
    requires IsHistory(x, log) && i < |log| && !IsBoundary(log[i])
    requires SawEnough(x, log, i) || EnoughAt(x, log, i)
    ensures SawEnough(x, log, i + 1)
  {
    var k: nat := i;
    if SawEnough(x, log, i) {
      k :| 0 <= k < i && SamePass(log, k, i) && EnoughAt(x, log, k);
    }
    SamePassGrows(log, k, i);
  }

  function OkOf(n: Notes, kind: Kind): bool {
    if kind.Proxies? then n.proxiesOk else n.targetsOk
  }

  function SizeSeenOf(n: Notes, kind: Kind): SizeSeen {
    if kind.Proxies? then n.proxiesSeen else n.targetsSeen
  }

  lemma NotedReadiness(x: Setting, status: ClusterStatus, n: Notes, e: Event, kind: Kind)
    ensures var n' := Noted(x, status, n, e);
            && (OkOf(n', kind) ==>
                  || ShowsReady(x, status, e, kind)
                  || (e == Ensured(kind, true) && SizeSeenOf(n, kind).Missing?)
                  || OkOf(n, kind))
            && (SizeSeenOf(n', kind).Missing? ==> Shows(MissingRead(kind), e) || SizeSeenOf(n, kind).Missing?)
            && (n'.mapOk ==> ShowsEnough(x, status, e) || n.mapOk)
  {
    if Reads(e, kind) && e.read.Some? && ReadsReady(x, status, kind, e.read.value) {
      ReadyIsShown(x, status, e, kind);
    }
  }

  lemma {:induction false} MissingWasSeen(x: Setting, log: seq<Event>, i: nat, kind: Kind)
    requires IsHistory(x, log) && i <= |log|
    requires At(x, log, i).pass.Running? && SizeSeenOf(At(x, log, i).pass.notes, kind).Missing?
    ensures Seen(log, i, MissingRead(kind))
    decreases i
  {
    NothingBefore(x, log);
    assert i > 0;
    NextInside(x, log, i - 1);
    PassesRun(x, log, i - 1);
    var m := At(x, log, i - 1);
    NotedReadiness(x, m.cr.status, m.pass.notes, log[i - 1], kind);
    if !Shows(MissingRead(kind), log[i - 1]) {
      MissingWasSeen(x, log, i - 1, kind);
    }
    SeenGrows(log, i - 1, MissingRead(kind));
  }

  lemma ReadinessStep(x: Setting, log: seq<Event>, i: nat, kind: Kind)
    requires IsHistory(x, log) && i < |log|
    requires At(x, log, i + 1).pass.Running? && OkOf(At(x, log, i + 1).pass.notes, kind)
    ensures At(x, log, i).pass.Running? && !IsBoundary(log[i])
    ensures || ReadyAt(x, log, i, kind)
            || OkOf(At(x, log, i).pass.notes, kind)
            || (log[i] == Ensured(kind, true) && SizeSeenOf(At(x, log, i).pass.notes, kind).Missing?)
  {
    NextInside(x, log, i);
    PassesRun(x, log, i);
    var m := At(x, log, i);
    if m.pass.Running? {
      NotedReadiness(x, m.cr.status, m.pass.notes, log[i], kind);
    }
  }

  /** The pass has reason to count the StatefulSet as ready. */
  ghost predicate SawWell(x: Setting, log: seq<Event>, i: nat, kind: Kind)
    requires IsHistory(x, log) && i <= |log|
  {
    SawReady(x, log, i, kind) || SawTaken(log, i, kind)
  }

  lemma SawWellGrows(x: Setting, log: seq<Event>, i: nat, kind: Kind)
    requires IsHistory(x, log) && i < |log| && !IsBoundary(log[i])
    requires || SawWell(x, log, i, kind) || ReadyAt(x, log, i, kind)
             || (log[i] == Ensured(kind, true) && Seen(log, i, MissingRead(kind)))
    ensures SawWell(x, log, i + 1, kind)
  {
    if SawReady(x, log, i, kind) || ReadyAt(x, log, i, kind) {
      SawReadyGrows(x, log, i, kind);
    } else {
      SawTakenGrows(log, i, kind);
    }
  }

  lemma {:induction false} ReadinessWasSeen(x: Setting, log: seq<Event>, i: nat, kind: Kind)
    requires IsHistory(x, log) && i <= |log|
    requires At(x, log, i).pass.Running? && OkOf(At(x, log, i).pass.notes, kind)
    ensures SawWell(x, log, i, kind)
    decreases i
  {
    NothingBefore(x, log);
    assert i > 0;
    ReadinessStep(x, log, i - 1, kind);
    if !ReadyAt(x, log, i - 1, kind) {
      if OkOf(At(x, log, i - 1).pass.notes, kind) {
        ReadinessWasSeen(x, log, i - 1, kind);
      } else {
        MissingWasSeen(x, log, i - 1, kind);
      }
    }
    SawWellGrows(x, log, i - 1, kind);
  }

  lemma {:induction false} EnoughWasSeen(x: Setting, log: seq<Event>, i: nat)
    requires IsHistory(x, log) && i <= |log|
    requires At(x, log, i).pass.Running? && At(x, log, i).pass.notes.mapOk
    ensures SawEnough(x, log, i)
    decreases i
  {
    NothingBefore(x, log);
    assert i > 0;
    NextInside(x, log, i - 1);
    PassesRun(x, log, i - 1);
    var m := At(x, log, i - 1);
    NotedReadiness(x, m.cr.status, m.pass.notes, log[i - 1], Proxies);
    if !EnoughAt(x, log, i - 1) {
      EnoughWasSeen(x, log, i - 1);
    }
    SawEnoughGrows(x, log, i - 1);
  }

  lemma OnlyWhenAllIsWell(x: Setting, p: Pass, s: ClusterStatus)
    requires p.Running? && MayPatch(x, p, s) && s.state.Ready? && !p.cr.status.state.Ready?
    ensures p.notes.proxiesOk && p.notes.targetsOk && p.notes.mapOk
  {
  }

  lemma AllWasWell(x: Setting, log: seq<Event>, i: nat)
    requires IsHistory(x, log) && i < |log| && Enters(x, log, i, Ready)
    ensures var p := At(x, log, i).pass; p.Running? && p.notes.proxiesOk && p.notes.targetsOk && p.notes.mapOk
  {
    AtNext(x, log, i);
    OnlyWhenAllIsWell(x, At(x, log, i).pass, log[i].status);
  }

  /** The cluster is only called Ready in a pass that has seen, of a healthy cluster, a map with the required number of
      proxies and targets, and that has read both StatefulSets ready - or read one as missing and then found that
      there is one of the name. */
  lemma ReadyMeans(x: Setting, log: seq<Event>, i: nat)
    requires IsHistory(x, log) && i < |log| && Enters(x, log, i, Ready)
    ensures SawWell(x, log, i, Proxies) && SawWell(x, log, i, Targets) && SawEnough(x, log, i)
  {
    AllWasWell(x, log, i);
    ReadinessWasSeen(x, log, i, Proxies);
    ReadinessWasSeen(x, log, i, Targets);
    EnoughWasSeen(x, log, i);
  }

  lemma TakenWasMissing(log: seq<Event>, i: nat, kind: Kind)
    requires i <= |log| && SawTaken(log, i, kind)
    ensures Seen(log, i, MissingRead(kind))
  {
    var k: nat :| k < i && SamePass(log, k, i) && log[k] == Ensured(kind, true) && Seen(log, k, MissingRead(kind));
    var j: nat :| j < k && SamePass(log, j, k) && Shows(MissingRead(kind), log[j]);
    assert SamePass(log, j, i);
  }

  /** So a pass that did not read it as missing calls the cluster Ready only with the StatefulSet read ready. */
  lemma ReadyMeansReadReady(x: Setting, log: seq<Event>, i: nat, kind: Kind)
    requires IsHistory(x, log) && i < |log| && Enters(x, log, i, Ready) && !Seen(log, i, MissingRead(kind))
    ensures SawReady(x, log, i, kind)
  {
    ReadyMeans(x, log, i);
    if SawTaken(log, i, kind) {
      TakenWasMissing(log, i, kind);
    }
  }
}
