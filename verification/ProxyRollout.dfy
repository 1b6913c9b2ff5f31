/** Rollout of the proxy StatefulSet. The StatefulSet controller replaces pods highest ordinal first, down to
    the partition; the operator moves the primary out of its way: to pod 0 behind partition 1 before the new
    template is applied, and to the highest pod before the partition is lifted for pod 0. */
module ProxyRollout {

  /** The life of one proxy pod during a rollout; OldReady is the only state in which it can be deleted. */
  datatype PodState = OldReady | Terminating | Gone | NewStarting | NewReady

  datatype Pass =
    | Idle
    | SyncPrimary    // template differs: about to make pod 0 primary
    | SyncBare       // template differs but no proxy is ready: about to patch the template alone
    | SyncPatch      // pod 0 is primary: about to patch template and partition
    | LiftPrimary    // one old pod left: about to make the highest pod primary
    | LiftPatch      // highest pod is primary: about to patch the partition

  /** `primary` is the ordinal of the primary proxy, or -1 for one that is no pod of this set.
      `statusFresh`, `statusCurrent` and `statusReady` are what the StatefulSet status last reported: whether it has
      caught up with the spec, how many pods it counts on the old revision and how many it counts ready. */
  datatype State = State(
    pods: seq<PodState>,
    patched: bool,
    partition: nat,
    primary: int,
    statusFresh: bool,
    statusCurrent: nat,
    statusReady: nat,
    pass: Pass)

  function OldCount(pods: seq<PodState>): (c: nat)
    ensures c <= |pods|
  {
    if pods == [] then 0
    else OldCount(pods[..|pods| - 1]) + if pods[|pods| - 1].OldReady? then 1 else 0
  }

  function ReadyCount(pods: seq<PodState>): nat {
    if pods == [] then 0
    else ReadyCount(pods[..|pods| - 1])
         + if pods[|pods| - 1].OldReady? || pods[|pods| - 1].NewReady? then 1 else 0
  }

  // --------------------------------------------------------------- operator

  predicate StepStartSync(s: State, t: State) {
    s.pass.Idle? && !s.patched && t == s.(pass := if s.statusReady > 0 then SyncPrimary else SyncBare)
  }

  predicate StepSyncPrimary(s: State, t: State) {
    s.pass.SyncPrimary? && t == s.(primary := 0, pass := SyncPatch)
  }

  /** One patch carries the template and partition 1; the status is stale until the controller has seen it. */
  predicate StepSyncPatch(s: State, t: State) {
    s.pass.SyncPatch? && t == s.(patched := true, partition := 1, statusFresh := false, pass := Idle)
  }

  predicate StepBarePatch(s: State, t: State) {
    s.pass.SyncBare? && t == s.(patched := true, statusFresh := false, pass := Idle)
  }

  /** A pass that sees a fresh status of a running rollout with one old pod left behind the partition. */
  predicate StepStartLift(s: State, t: State) {
    && s.pass.Idle? && s.patched && s.statusFresh && s.partition != 0 && s.statusCurrent == 1
    && t == s.(pass := LiftPrimary)
  }

  predicate StepLiftPrimary(s: State, t: State) {
    s.pass.LiftPrimary? && t == s.(primary := |s.pods| - 1, pass := LiftPatch)
  }

  predicate StepLiftPatch(s: State, t: State) {
    s.pass.LiftPatch? && t == s.(partition := 0, statusFresh := false, pass := Idle)
  }

  predicate StepEnd(s: State, t: State) {
    t == s.(pass := Idle)
  }

  predicate OperatorStep(s: State, t: State) {
    || StepStartSync(s, t) || StepSyncPrimary(s, t) || StepSyncPatch(s, t) || StepBarePatch(s, t)
    || StepStartLift(s, t) || StepLiftPrimary(s, t) || StepLiftPatch(s, t) || StepEnd(s, t)
  }

  // --------------------------------------------- StatefulSet controller, pods

  /** The controller deletes the highest old pod at or above the partition once all higher pods are replaced and
      ready. */
  predicate Deletes(s: State, t: State, victim: nat) {
    && s.patched && victim < |s.pods| && victim >= s.partition
    && s.pods[victim].OldReady?
    && (forall u :: victim < u < |s.pods| ==> s.pods[u].NewReady?)
    && t == s.(pods := s.pods[victim := Terminating])
  }

  /** A deleted pod disappears, is recreated on the new revision and becomes ready; nothing fails on its own. */
  predicate PodMoves(s: State, t: State, i: nat) {
    && i < |s.pods|
    && match s.pods[i] {
         case Terminating => t == s.(pods := s.pods[i := Gone])
         case Gone => t == s.(pods := s.pods[i := NewStarting])
         case NewStarting => t == s.(pods := s.pods[i := NewReady])
         case _ => false
       }
  }

  predicate StatusSync(s: State, t: State) {
    t == s.(statusFresh := true, statusCurrent := OldCount(s.pods), statusReady := ReadyCount(s.pods))
  }

  ghost predicate WorldStep(s: State, t: State) {
    || (exists victim :: Deletes(s, t, victim))
    || (exists i :: PodMoves(s, t, i))
    || StatusSync(s, t)
  }

  ghost predicate Init(s: State) {
    && |s.pods| >= 2 && !s.patched && s.pass.Idle? && s.statusReady > 0
    && forall i :: 0 <= i < |s.pods| ==> s.pods[i].OldReady?
  }

  ghost predicate Next(s: State, t: State) {
    OperatorStep(s, t) || WorldStep(s, t)
  }

  lemma PodMoveIsNext(s: State, t: State, i: nat)
    requires PodMoves(s, t, i)
    ensures Next(s, t)
  {
    assert exists j :: PodMoves(s, t, j);
  }

  ghost predicate IsRun(run: seq<State>) {
    && |run| > 0 && Init(run[0])
    && forall k :: 0 < k < |run| ==> Next(run[k - 1], run[k])
  }

  // --------------------------------------------------------------- invariant

  /** Pods above f are replaced and ready, pods below f are untouched. */
  ghost predicate Frontier(s: State, f: nat) {
    && f < |s.pods|
    && (forall u :: f < u < |s.pods| ==> s.pods[u].NewReady?)
    && (forall u :: 0 <= u < f ==> s.pods[u].OldReady?)
  }

  ghost predicate LastOneLeft(s: State) {
    forall u :: 0 < u < |s.pods| ==> !s.pods[u].OldReady?
  }

  ghost predicate Inv(s: State) {
    && |s.pods| >= 2
    && (!s.patched ==>
          && (forall i :: 0 <= i < |s.pods| ==> s.pods[i].OldReady?)
          && s.statusReady > 0
          && !s.pass.LiftPrimary? && !s.pass.LiftPatch?)
    && !s.pass.SyncBare?
    && (s.pass.SyncPatch? ==> s.primary == 0)
    && (s.patched ==>
          && !s.pass.SyncPrimary? && !s.pass.SyncPatch?
          && (exists f :: Frontier(s, f))
          && (s.statusFresh ==> s.statusCurrent >= OldCount(s.pods))
          && s.partition <= 1
          && (s.partition == 1 ==> s.pods[0].OldReady?)
          && (s.primary == 0 || (s.primary == |s.pods| - 1 && LastOneLeft(s)))
          && (s.pass.LiftPrimary? ==> LastOneLeft(s))
          && (s.pass.LiftPatch? ==> s.primary == |s.pods| - 1)
          && (s.partition == 0 ==> s.primary == |s.pods| - 1))
  }

  /** Untouched pods 0..f are counted. */
  lemma {:induction false} OldCountOfFrontier(pods: seq<PodState>, f: nat)
    requires f <= |pods|
    requires forall u :: 0 <= u < f ==> pods[u].OldReady?
    requires forall u :: f <= u < |pods| ==> !pods[u].OldReady?
    ensures OldCount(pods) == f
  {
    if pods != [] {
      OldCountOfFrontier(pods[..|pods| - 1], if f == |pods| then f - 1 else f);
    }
  }

  lemma CountAtFrontier(s: State, f: nat)
    requires Frontier(s, f)
    ensures OldCount(s.pods) == if s.pods[f].OldReady? then f + 1 else f
  {
    OldCountOfFrontier(s.pods, if s.pods[f].OldReady? then f + 1 else f);
  }

  /** The next victim sits at the frontier or just below it, and becomes the frontier. */
  lemma DeleteMovesFrontier(s: State, t: State, victim: nat)
    requires Inv(s) && Deletes(s, t, victim)
    ensures Frontier(t, victim)
    ensures OldCount(t.pods) < OldCount(s.pods) == victim + 1
  {
    var f: nat :| Frontier(s, f);
    assert victim <= f;
    assert victim == f || victim + 1 == f by {
      assert 0 < f ==> s.pods[f - 1].OldReady?;
    }
    assert Frontier(t, victim);
    CountAtFrontier(t, victim);
    OldCountOfFrontier(s.pods, victim + 1);
  }

  lemma PodMovesAtFrontier(s: State, t: State, i: nat)
    requires Inv(s) && PodMoves(s, t, i)
    ensures s.patched ==> Frontier(t, i)
    ensures s.patched ==> OldCount(t.pods) == OldCount(s.pods)
  {
    if s.patched {
      var f: nat :| Frontier(s, f);
      assert i == f;
      CountAtFrontier(s, f);
      CountAtFrontier(t, f);
    }
  }

  /** A fresh status that counts one old pod means that only pod 0 can be old. */
  lemma CountOneMeansLast(s: State)
    requires Inv(s) && s.patched && s.statusFresh && s.statusCurrent == 1
    ensures LastOneLeft(s)
  {
    var f: nat :| Frontier(s, f);
    CountAtFrontier(s, f);
  }

  /** The pod the controller deletes is never the primary. */
  lemma VictimIsNotPrimary(s: State, t: State, victim: nat)
    requires Inv(s) && Deletes(s, t, victim)
    ensures victim != s.primary
  {
    assert s.primary == |s.pods| - 1 && s.primary != 0 ==> !s.pods[|s.pods| - 1].OldReady?;
  }

  lemma InvDelete(s: State, t: State, victim: nat)
    requires Inv(s) && Deletes(s, t, victim)
    ensures Inv(t)
  {
    DeleteMovesFrontier(s, t, victim);
  }

  lemma InvPodMoves(s: State, t: State, i: nat)
    requires Inv(s) && PodMoves(s, t, i)
    ensures Inv(t)
  {
    PodMovesAtFrontier(s, t, i);
  }

  lemma InvOperator(s: State, t: State)
    requires Inv(s) && (OperatorStep(s, t) || StatusSync(s, t))
    ensures Inv(t)
  {
    if s.patched {
      var f: nat :| Frontier(s, f);
      assert Frontier(t, f);
      if StepStartLift(s, t) {
        CountOneMeansLast(s);
      }
    } else if t.patched {
      assert Frontier(t, |t.pods| - 1);
    } else {
      assert ReadyCount(s.pods) > 0;
    }
  }

  lemma InvStep(s: State, t: State)
    requires Inv(s) && Next(s, t)
    ensures Inv(t)
  {
    if victim :| Deletes(s, t, victim) {
      InvDelete(s, t, victim);
    } else if i :| PodMoves(s, t, i) {
      InvPodMoves(s, t, i);
    } else {
      InvOperator(s, t);
    }
  }

  lemma {:induction false} InvHolds(run: seq<State>, k: nat)
    requires IsRun(run) && k < |run|
    ensures Inv(run[k])
  {
    if k > 0 {
      InvHolds(run, k - 1);
      InvStep(run[k - 1], run[k]);
    }
  }

  /** For one template change on two or more healthy proxies: no run ever deletes the primary's pod. */
  lemma RolloutNeverKillsPrimary(run: seq<State>, k: nat, victim: nat)
    requires IsRun(run) && 0 < k < |run|
    requires Deletes(run[k - 1], run[k], victim)
    ensures run[k - 1].primary != victim
  {
    InvHolds(run, k - 1);
    VictimIsNotPrimary(run[k - 1], run[k], victim);
  }

  /** Where the primary is: pod 0 while the partition protects it, until all other pods have been deleted once;
      the highest pod as soon as the partition is lifted. */
  lemma PrimaryPlacement(run: seq<State>, k: nat)
    requires IsRun(run) && k < |run| && run[k].patched
    ensures |run[k].pods| >= 2
    ensures run[k].primary == 0 || (run[k].primary == |run[k].pods| - 1 && LastOneLeft(run[k]))
    ensures run[k].partition == 0 ==> run[k].primary == |run[k].pods| - 1
    ensures run[k].partition == 1 ==> run[k].pods[0].OldReady?
    ensures run[k].partition <= 1
  {
    InvHolds(run, k);
  }

  // ----------------------------------------- is the primary's pod ever down?

  ghost predicate PrimaryUp(s: State) {
    s.patched ==> 0 <= s.primary < |s.pods| && (s.pods[s.primary].OldReady? || s.pods[s.primary].NewReady?)
  }

  ghost predicate StrongInv(s: State) {
    && Inv(s)
    && (s.patched && s.primary == |s.pods| - 1 ==> s.pods[|s.pods| - 1].NewReady?)
    && (s.patched && s.primary == 0 ==> s.pods[0].OldReady?)
  }

  lemma StrongInvOperator(s: State, t: State)
    requires StrongInv(s) && OperatorStep(s, t) && Inv(t) && |s.pods| >= 3
    ensures StrongInv(t)
  {
    if StepLiftPrimary(s, t) {
      var f: nat :| Frontier(s, f);
      var second := s.pods[1];
      assert f <= 1;
    }
  }

  lemma StrongInvDelete(s: State, t: State, victim: nat)
    requires StrongInv(s) && Inv(t) && Deletes(s, t, victim) && s.primary != victim
    ensures StrongInv(t)
  {
  }

  lemma StrongInvElse(s: State, t: State)
    requires StrongInv(s) && Inv(t) && ((exists i :: PodMoves(s, t, i)) || StatusSync(s, t))
    ensures StrongInv(t)
  {
  }

  lemma SameSize(s: State, t: State)
    requires Next(s, t)
    ensures |t.pods| == |s.pods|
  {
  }

  lemma StrongInvStep(s: State, t: State)
    requires StrongInv(s) && Next(s, t) && |s.pods| >= 3
    ensures StrongInv(t)
  {
    InvStep(s, t);
    if OperatorStep(s, t) {
      StrongInvOperator(s, t);
    } else if victim :| Deletes(s, t, victim) {
      VictimIsNotPrimary(s, t, victim);
      StrongInvDelete(s, t, victim);
    } else {
      StrongInvElse(s, t);
    }
  }

  lemma {:induction false} StrongInvHolds(run: seq<State>, k: nat)
    requires IsRun(run) && k < |run| && |run[0].pods| >= 3
    ensures StrongInv(run[k]) && |run[k].pods| == |run[0].pods|
  {
    if k > 0 {
      StrongInvHolds(run, k - 1);
      SameSize(run[k - 1], run[k]);
      StrongInvStep(run[k - 1], run[k]);
    }
  }

  /** With three or more proxies the primary's pod is up in every state of every rollout. */
  lemma PrimaryStaysUp(run: seq<State>, k: nat)
    requires IsRun(run) && k < |run| && |run[0].pods| >= 3
    ensures PrimaryUp(run[k])
  {
    StrongInvHolds(run, k);
  }

  /** A run with two proxies: the template is applied, pod 1 is deleted, and the operator moves on. */
  function DyingPod(k: nat): State
    requires k < 8
  {
    var up, down := [OldReady, OldReady], [OldReady, Terminating];
    if k == 0 then State(up, false, 0, 0, true, 2, 2, Idle)
    else if k == 1 then State(up, false, 0, 0, true, 2, 2, SyncPrimary)
    else if k == 2 then State(up, false, 0, 0, true, 2, 2, SyncPatch)
    else if k == 3 then State(up, true, 1, 0, false, 2, 2, Idle)
    else if k == 4 then State(down, true, 1, 0, false, 2, 2, Idle)
    else if k == 5 then State(down, true, 1, 0, true, 1, 1, Idle)
    else if k == 6 then State(down, true, 1, 0, true, 1, 1, LiftPrimary)
    else State(down, true, 1, 1, true, 1, 1, LiftPatch)
  }

  lemma DyingPodSteps(k: nat)
    requires k < 7
    ensures Next(DyingPod(k), DyingPod(k + 1))
  {
    if k == 3 {
      assert Deletes(DyingPod(3), DyingPod(4), 1);
    } else if k == 4 {
      OneIsCounted();
    }
  }

  lemma OneIsCounted()
    ensures OldCount([OldReady, Terminating]) == 1 && ReadyCount([OldReady, Terminating]) == 1
  {
    assert [OldReady, Terminating][..1] == [OldReady] && [OldReady][..0] == [];
  }

  /** With two it need not be: the one pod that is not pod 0 is counted out as soon as it is deleted, so the
      operator can hand the primary role to a pod that is still terminating. */
  lemma TwoProxiesPrimaryOnDyingPod() returns (run: seq<State>)
    ensures IsRun(run) && |run[0].pods| == 2
    ensures !PrimaryUp(run[|run| - 1])
    ensures run[|run| - 1].primary == 1 && |run[|run| - 1].pods| == 2 && run[|run| - 1].pods[1].Terminating?
  {
    run := seq(8, k requires 0 <= k < 8 => DyingPod(k));
    forall k | 0 < k < |run| ensures Next(run[k - 1], run[k]) {
      DyingPodSteps(k - 1);
    }
  }
}
