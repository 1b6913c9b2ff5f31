/** The rollout of the proxies ends. A round is a pass of the operator - what the pass does by the StatefulSet it
    finds - after which the StatefulSet controller and the pods are left to themselves until they come to rest. */
module ProxyRolloutProgress {
  import opened Wrappers
  import S = StatefulSets
  import opened ProxyRollout
  import C = ProxyRolloutController
  import L = Lifecycle
  import P = Passes
  import opened PassSteps

  // ------------------------------------------------------------ coming to rest

  ghost predicate PodStep(s: State, t: State) {
    (exists victim :: Deletes(s, t, victim)) || (exists i :: PodMoves(s, t, i))
  }

  /** No pod is about to be deleted or to change, and the status reports them as they are. */
  ghost predicate AtRest(s: State) {
    && (forall t :: !PodStep(s, t))
    && s.statusFresh && s.statusCurrent == OldCount(s.pods) && s.statusReady == ReadyCount(s.pods)
  }

  /** A run of the world alone from s to t. */
  ghost predicate RunsTo(run: seq<State>, s: State, t: State) {
    && |run| > 0 && run[0] == s && run[|run| - 1] == t
    && forall k :: 0 < k < |run| ==> WorldStep(run[k - 1], run[k])
  }

  ghost predicate SettlesTo(s: State, t: State) {
    AtRest(t) && exists run :: RunsTo(run, s, t)
  }

  /** What the world leaves alone. */
  ghost predicate Keeps(s: State, t: State) {
    && t == s.(pods := t.pods, statusFresh := t.statusFresh, statusCurrent := t.statusCurrent,
               statusReady := t.statusReady)
    && |t.pods| == |s.pods|
  }

  lemma {:induction false} RunKeeps(run: seq<State>, s: State, t: State)
    requires RunsTo(run, s, t) && Inv(s)
    ensures Inv(t) && Keeps(s, t)
  {
    if |run| > 1 {
      var before := run[..|run| - 1];
      assert run[|run| - 2] == before[|before| - 1];
      forall k | 0 < k < |before| ensures WorldStep(before[k - 1], before[k]) {
        assert WorldStep(run[k - 1], run[k]);
      }
      RunKeeps(before, s, run[|run| - 2]);
      assert WorldStep(run[|run| - 1 - 1], run[|run| - 1]);
      WorldKeeps(run[|run| - 2], t);
    }
  }

  lemma WorldKeeps(s: State, t: State)
    requires WorldStep(s, t) && Inv(s)
    ensures Inv(t) && Keeps(s, t)
  {
    InvStep(s, t);
  }

  /** At rest all pods are up: those from the partition on replaced, those below it as they were. */
  lemma RestMeans(s: State)
    requires Inv(s) && s.patched && AtRest(s)
    ensures forall u :: s.partition <= u < |s.pods| ==> s.pods[u].NewReady?
    ensures forall u :: 0 <= u < s.partition ==> s.pods[u].OldReady?
  {
    var f: nat :| Frontier(s, f);
    NothingMoves(s, f);
    if s.pods[f].OldReady? {
      NothingIsDeleted(s, f);
    } else if f > 0 {
      NothingIsDeleted(s, f - 1);
    }
  }

  lemma NothingMoves(s: State, i: nat)
    requires AtRest(s) && i < |s.pods|
    ensures s.pods[i].OldReady? || s.pods[i].NewReady?
  {
    var next := if s.pods[i].Terminating? then Gone else if s.pods[i].Gone? then NewStarting else NewReady;
    var t := s.(pods := s.pods[i := next]);
    if !s.pods[i].OldReady? && !s.pods[i].NewReady? {
      assert PodMoves(s, t, i);
      assert PodStep(s, t);
    }
  }

  lemma NothingIsDeleted(s: State, victim: nat)
    requires AtRest(s) && s.patched && victim < |s.pods| && s.pods[victim].OldReady?
    requires forall u :: victim < u < |s.pods| ==> s.pods[u].NewReady?
    ensures victim < s.partition
  {
    var t := s.(pods := s.pods[victim := Terminating]);
    if victim >= s.partition {
      assert Deletes(s, t, victim);
      assert PodStep(s, t);
    }
  }

  /** Steps that are left for the pods to go. */
  function Work(pods: seq<PodState>): nat {
    if pods == [] then 0 else Work(pods[..|pods| - 1]) + WorkOf(pods[|pods| - 1])
  }

  function WorkOf(p: PodState): nat {
    match p
    case OldReady => 4
    case Terminating => 3
    case Gone => 2
    case NewStarting => 1
    case NewReady => 0
  }

  lemma {:induction false} WorkOfUpdate(pods: seq<PodState>, i: nat, p: PodState)
    requires i < |pods|
    ensures Work(pods[i := p]) == Work(pods) - WorkOf(pods[i]) + WorkOf(p)
  {
    var n := |pods| - 1;
    if i == n {
      assert pods[i := p][..n] == pods[..n];
    } else {
      assert pods[i := p][..n] == pods[..n][i := p];
      WorkOfUpdate(pods[..n], i, p);
    }
  }

  lemma PodStepWorks(s: State, t: State)
    requires PodStep(s, t)
    ensures Work(t.pods) < Work(s.pods) && WorldStep(s, t)
  {
    if victim :| Deletes(s, t, victim) {
      WorkOfUpdate(s.pods, victim, Terminating);
    } else {
      var i: nat :| PodMoves(s, t, i);
      WorkOfUpdate(s.pods, i, t.pods[i]);
    }
  }

  /** Left alone, the world does come to rest. */
  lemma {:induction false} ComesToRest(s: State) returns (run: seq<State>, t: State)
    ensures RunsTo(run, s, t) && AtRest(t)
    decreases Work(s.pods)
  {
    if u :| PodStep(s, u) {
      PodStepWorks(s, u);
      var rest;
      rest, t := ComesToRest(u);
      run := [s] + rest;
      forall k | 0 < k < |run| ensures WorldStep(run[k - 1], run[k]) {
        assert k > 1 ==> WorldStep(rest[k - 1 - 1], rest[k - 1]);
      }
    } else {
      t := s.(statusFresh := true, statusCurrent := OldCount(s.pods), statusReady := ReadyCount(s.pods));
      run := [s, t];
      assert StatusSync(s, t);
      forall u ensures !PodStep(t, u) {
        if PodStep(t, u) {
          StatusDecidesNothing(s, t, u);
        }
      }
    }
  }

  lemma StatusDecidesNothing(s: State, t: State, u: State)
    requires StatusSync(s, t) && PodStep(t, u)
    ensures exists v :: PodStep(s, v)
  {
    var v := s.(pods := u.pods);
    if victim :| Deletes(t, u, victim) {
      assert Deletes(s, v, victim);
    } else {
      var i: nat :| PodMoves(t, u, i);
      assert PodMoves(s, v, i);
    }
    assert PodStep(s, v);
  }

  // ------------------------------------------------------------------ rounds

  ghost predicate AllNew(s: State) { forall u :: 0 <= u < |s.pods| ==> s.pods[u].NewReady? }

  /** What a pass finds of the StatefulSet at rest, in which every pod exists. The revisions differ until all pods are
      on the new one and ready; the template is out of line until it was written; and nothing else is to be done. */
  ghost predicate Reports(x: L.Setting, cr: L.CR, found: P.Found, s: State) {
    var ss := found.ss;
    && C.Shows(ss, s) && ss.status.replicas == |s.pods|
    && ss.status.updateRevision != ""
    && (ss.status.updateRevision != ss.status.currentRevision <==> s.patched && !AllNew(s))
    && !found.policyDiffers && (TemplateDue(x, cr.hashes, L.Proxies, found) <==> !s.patched)
    && L.SizesUsable(x) && L.SizeOf(x, cr.status, L.Proxies) == |s.pods|
  }

  /** What an undisturbed pass does about the proxies, all of them having a node in the cluster map. */
  ghost function AfterPass(x: L.Setting, cr: L.CR, found: P.Found, s: State): State
    requires L.SizesUsable(x)
  {
    match P.StepFor(x, cr, L.Proxies, found)
    case WriteTemplate =>
      if found.ss.status.readyReplicas > 0 then s.(primary := 0, patched := true, partition := 1, statusFresh := false)
      else s.(patched := true, statusFresh := false)
    case DriveRollout =>
      if found.ss.status.updateRevision != found.ss.status.currentRevision && C.ShouldResetPartition(found.ss)
      then s.(primary := |s.pods| - 1, partition := 0, statusFresh := false) else s
    case _ => s
  }

  /** That is what the two rollout passes do. */
  method UndisturbedPass(c: C.Controller, x: L.Setting, cr: L.CR, found: P.Found) returns (ok: bool)
    requires c.Valid() && c.world.pass.Idle? && Reports(x, cr, found, c.world)
    requires forall i: nat :: i < |c.world.pods| ==> c.CanBePrimary(i)
    modifies c
    ensures c.Valid() && old(c.run) <= c.run && ok
    ensures c.world == AfterPass(x, cr, found, old(c.world))
  {
    InvHolds(c.run, |c.run| - 1);
    StepWhileRolling(x, cr, found, c.world);
    ok := true;
    match P.StepFor(x, cr, L.Proxies, found) {
      case WriteTemplate =>
        var updated;
        updated, ok := c.SyncProxyPodSpec(found.ss, true, true);
      case DriveRollout =>
        ok := c.HandleProxyRollout(found.ss, true);
      case _ =>
    }
  }

  /** The pass writes the template if that was not written, drives the rollout until all pods are new, and then does
      neither. */
  lemma StepWhileRolling(x: L.Setting, cr: L.CR, found: P.Found, s: State)
    requires Reports(x, cr, found, s)
    ensures var step := P.StepFor(x, cr, L.Proxies, found);
            && (step.WriteTemplate? <==> s.statusFresh && !s.patched)
            && (step.DriveRollout? <==> s.statusFresh && s.patched && !AllNew(s))
            && !step.WritePolicy? && !step.Scale?
  {
    TemplateDueExactly(x, cr.hashes, L.Proxies, found);
  }

  ghost predicate Round(x: L.Setting, s: State, t: State) {
    exists cr, found :: Reports(x, cr, found, s) && SettlesTo(AfterPass(x, cr, found, s), t)
  }

  /** At rest after the template was written, with the partition as given. */
  ghost predicate RollingAt(s: State, partition: nat) {
    Inv(s) && s.patched && s.pass.Idle? && AtRest(s) && s.partition == partition
  }

  lemma SettledState(mid: State, t: State)
    requires Inv(mid) && mid.patched && mid.pass.Idle? && SettlesTo(mid, t)
    ensures RollingAt(t, mid.partition) && t.primary == mid.primary && |t.pods| == |mid.pods|
  {
    var run :| RunsTo(run, mid, t);
    RunKeeps(run, mid, t);
  }

  lemma InitInv(s: State)
    requires Init(s)
    ensures Inv(s)
  {
  }

  lemma SyncedInv(s: State)
    requires Init(s)
    ensures Inv(s.(primary := 0, patched := true, partition := 1, statusFresh := false))
  {
    var a := s.(pass := SyncPrimary);
    var b := a.(primary := 0, pass := SyncPatch);
    var c := b.(patched := true, partition := 1, statusFresh := false, pass := Idle);
    InitInv(s);
    assert StepStartSync(s, a) && StepSyncPrimary(a, b) && StepSyncPatch(b, c);
    InvStep(s, a);
    InvStep(a, b);
    InvStep(b, c);
    assert c == s.(primary := 0, patched := true, partition := 1, statusFresh := false);
  }

  lemma LiftedInv(s: State)
    requires RollingAt(s, 1) && s.statusCurrent == 1
    ensures Inv(s.(primary := |s.pods| - 1, partition := 0, statusFresh := false))
  {
    var a := s.(pass := LiftPrimary);
    var b := a.(primary := |s.pods| - 1, pass := LiftPatch);
    var c := b.(partition := 0, statusFresh := false, pass := Idle);
    assert StepStartLift(s, a) && StepLiftPrimary(a, b) && StepLiftPatch(b, c);
    InvStep(s, a);
    InvStep(a, b);
    InvStep(b, c);
    assert c == s.(primary := |s.pods| - 1, partition := 0, statusFresh := false);
  }

  lemma SyncingPass(x: L.Setting, cr: L.CR, found: P.Found, s: State)
    requires Init(s) && AtRest(s) && Reports(x, cr, found, s)
    ensures var mid := AfterPass(x, cr, found, s);
            && Inv(mid) && mid.patched && mid.pass.Idle? && |mid.pods| == |s.pods|
            && mid.partition == 1 && mid.primary == 0
  {
    StepWhileRolling(x, cr, found, s);
    SyncedInv(s);
  }

  /** The first round replaces all pods but pod 0, which is primary then. */
  lemma FirstRound(x: L.Setting, s: State, t: State)
    requires Init(s) && AtRest(s) && Round(x, s, t)
    ensures RollingAt(t, 1) && t.primary == 0 && |t.pods| == |s.pods|
  {
    var cr, found :| Reports(x, cr, found, s) && SettlesTo(AfterPass(x, cr, found, s), t);
    SyncingPass(x, cr, found, s);
    SettledState(AfterPass(x, cr, found, s), t);
  }

  lemma LastOneCounts(s: State)
    requires RollingAt(s, 1)
    ensures s.statusCurrent == 1 && !AllNew(s)
  {
    RestMeans(s);
    OldCountOfFrontier(s.pods, 1);
  }

  lemma LiftingPass(x: L.Setting, cr: L.CR, found: P.Found, s: State)
    requires RollingAt(s, 1) && Reports(x, cr, found, s)
    ensures var mid := AfterPass(x, cr, found, s);
            && Inv(mid) && mid.patched && mid.pass.Idle? && |mid.pods| == |s.pods|
            && mid.partition == 0 && mid.primary == |s.pods| - 1
  {
    StepWhileRolling(x, cr, found, s);
    LastOneCounts(s);
    LiftedInv(s);
  }

  /** The second makes the highest pod primary and replaces pod 0. */
  lemma SecondRound(x: L.Setting, s: State, t: State)
    requires RollingAt(s, 1) && Round(x, s, t)
    ensures RollingAt(t, 0) && t.primary == |t.pods| - 1 && |t.pods| == |s.pods|
  {
    var cr, found :| Reports(x, cr, found, s) && SettlesTo(AfterPass(x, cr, found, s), t);
    LiftingPass(x, cr, found, s);
    SettledState(AfterPass(x, cr, found, s), t);
  }

  lemma LaterRound(x: L.Setting, s: State, t: State)
    requires RollingAt(s, 0) && Round(x, s, t)
    ensures RollingAt(t, 0) && t.primary == s.primary && |t.pods| == |s.pods|
  {
    var cr, found :| Reports(x, cr, found, s) && SettlesTo(AfterPass(x, cr, found, s), t);
    RestMeans(s);
    StepWhileRolling(x, cr, found, s);
    SettledState(s, t);
  }

  ghost predicate IsRoundSequence(x: L.Setting, rounds: seq<State>) {
    && |rounds| > 0 && Init(rounds[0]) && AtRest(rounds[0])
    && forall k :: 0 < k < |rounds| ==> Round(x, rounds[k - 1], rounds[k])
  }

  /** Where k rounds lead. */
  ghost predicate After(k: nat, s: State) {
    if k == 0 then Init(s) && AtRest(s)
    else if k == 1 then RollingAt(s, 1) && s.primary == 0
    else RollingAt(s, 0) && s.primary == |s.pods| - 1
  }

  lemma NextRound(x: L.Setting, k: nat, s: State, t: State)
    requires k > 0 && After(k - 1, s) && Round(x, s, t)
    ensures After(k, t) && |t.pods| == |s.pods|
  {
    if k == 1 {
      FirstRound(x, s, t);
    } else if k == 2 {
      SecondRound(x, s, t);
    } else {
      LaterRound(x, s, t);
    }
  }

  lemma {:induction false} RoundsLead(x: L.Setting, rounds: seq<State>, k: nat)
    requires IsRoundSequence(x, rounds) && k < |rounds|
    ensures After(k, rounds[k]) && |rounds[k].pods| == |rounds[0].pods|
  {
    if k > 0 {
      RoundsLead(x, rounds, k - 1);
      NextRound(x, k, rounds[k - 1], rounds[k]);
    }
  }

  /** The rollout of any number of proxies, from two on, takes two rounds: after the first all pods are new and ready
      but pod 0, which is primary and waits behind the partition; after the second, and for good, pod 0 is too, the
      partition is gone, and the highest pod is primary. */
  lemma ProxyRolloutEnds(x: L.Setting, rounds: seq<State>)
    requires IsRoundSequence(x, rounds) && |rounds| > 1
    ensures var s := rounds[|rounds| - 1];
            && |s.pods| == |rounds[0].pods| >= 2
            && (forall u :: 0 < u < |s.pods| ==> s.pods[u].NewReady?)
            && if |rounds| == 2 then s.pods[0].OldReady? && s.partition == 1 && s.primary == 0
               else s.pods[0].NewReady? && s.partition == 0 && s.primary == |s.pods| - 1
  {
    RoundsLead(x, rounds, |rounds| - 1);
    RestMeans(rounds[|rounds| - 1]);
  }
}
