/** The rollout of the targets ends. A round is a pass of the operator - what the pass does by the StatefulSet it
    finds, and then what its rollout does by pods and map - after which the world recovers. */
module TargetRolloutProgress {
  import opened Wrappers
  import opened PodNaming
  import opened ClusterMap
  import opened StatefulSets
  import opened TargetRollout
  import L = Lifecycle
  import P = Passes
  import opened PassSteps
  import opened PassWrites

  /** Between rounds the world has recovered: live pods everywhere, updated ones settled, and a node in the
      map for every old pod that is scheduled. */
  ghost predicate Recovered(s: State) {
    && s.pass.Idle?
    && OneNodePerPod(s.targets, s.base)
    && forall j: nat :: j < s.n ==>
         && (Settled(s.pods, s.base, s.rev, j) || OldAndActive(s.pods, s.base, s.rev, j))
         && (OldAndActive(s.pods, s.base, s.rev, j) && !s.pods[PodName(s.base, j)].unschedulable ==>
               Present(s.targets, PodName(s.base, j)))
  }

  /** The pod may go at once: unschedulable, or its node is in maintenance. */
  ghost predicate Cleared(s: State, i: nat) {
    var podName := PodName(s.base, i);
    (podName in s.pods && s.pods[podName].unschedulable) || AllServingAre(s.targets, podName, Maint)
  }

  ghost function OldOrdinals(s: State): set<nat> {
    set j | j in Ordinals(s.n) && OldAndActive(s.pods, s.base, s.rev, j)
  }

  /** Pods still to replace count twice; a pod that is next and cleared to go counts once. */
  ghost function Measure(s: State): int {
    2 * |OldOrdinals(s)| - (if exists i :: NeedsUpdate(s.pods, s.base, s.n, s.rev, i) && Cleared(s, i) then 1 else 0)
  }

  /** After a pass the world settles again: live pods stay, a deleted pod comes back on the update revision,
      and a node stays in maintenance until its pod restarts. */
  ghost predicate SettlesTo(s: State, t: State) {
    && Recovered(t)
    && t.base == s.base && t.n == s.n && t.rev == s.rev
    && forall j: nat :: j < s.n ==> SettlesAt(s, t, j)
  }

  ghost predicate SettlesAt(s: State, t: State, j: nat) {
    var podName := PodName(s.base, j);
    if podName in s.pods && !s.pods[podName].terminating then
      && Lookup(t.pods, podName) == Lookup(s.pods, podName)
      && (AllServingAre(s.targets, podName, Maint) ==> AllServingAre(t.targets, podName, Maint))
    else
      OnUpdateRevision(t.pods, s.base, s.rev, j)
  }

  /** The pods of the StatefulSet, by ordinal. */
  ghost predicate PodsAre(s: State, own: PodSet) {
    forall i: nat ::
      && (i in own <==> PodName(s.base, i) in s.pods)
      && (i in own ==> own[i] == s.pods[PodName(s.base, i)])
  }

  /** What a pass finds of the StatefulSet while its rollout lasts: counters in agreement with the pods, surplus pods on
      their way out, and nothing but the rollout to do - an up-to-date status, template, policy and size as wanted. */
  ghost predicate Reports(x: L.Setting, cr: L.CR, found: P.Found, s: State) {
    && found.ss.replicas == s.n && found.ss.strategy.OnDelete? && found.ss.status.updateRevision == s.rev
    && RevisionsDiffer(found.ss) && StatusFresh(found.ss)
    && !found.policyDiffers && !TemplateDue(x, cr.hashes, L.Targets, found)
    && L.SizesUsable(x) && L.SizeOf(x, cr.status, L.Targets) == s.n
    && exists own: PodSet :: PodsAre(s, own) && CountersMatch(found.ss, own) && SurplusLeaves(own, s.n)
  }

  ghost predicate SurplusLeaves(own: PodSet, n: nat) {
    forall i :: i in own && i >= n ==> own[i].terminating
  }

  /** The pass drives the rollout only if that is its step, and if the rollout does not look complete by the status. */
  predicate IsDriven(x: L.Setting, cr: L.CR, found: P.Found)
    requires L.SizesUsable(x)
  {
    P.StepFor(x, cr, L.Targets, found).DriveRollout? && !SkipsRollout(found.ss)
  }

  ghost function AfterPass(x: L.Setting, cr: L.CR, s: State, found: P.Found): State
    requires L.SizesUsable(x)
  {
    if IsDriven(x, cr, found) then Advance(s) else s
  }

  ghost predicate Round(x: L.Setting, s: State, t: State) {
    Recovered(s) && exists cr, found :: Reports(x, cr, found, s) && SettlesTo(AfterPass(x, cr, s, found), t)
  }

  /** Nothing else is to be done about it: the pass drives the rollout, or waits, or lets the StatefulSet be. */
  lemma OnlyTheRollout(x: L.Setting, cr: L.CR, found: P.Found, s: State)
    requires Reports(x, cr, found, s)
    ensures var step := P.StepFor(x, cr, L.Targets, found); step.DriveRollout? || step.Wait? || step.Rest?
  {
    TemplateDueExactly(x, cr.hashes, L.Targets, found);
  }

  /** While an old pod is left no guard keeps the operator from the rollout: it is what the pass does, and the exits
      of the rollout itself are not taken. */
  lemma OldPodIsDriven(x: L.Setting, cr: L.CR, found: P.Found, s: State)
    requires Recovered(s) && Reports(x, cr, found, s) && OldOrdinals(s) != {}
    ensures IsDriven(x, cr, found)
  {
    var ss := found.ss;
    var old_ :| old_ in OldOrdinals(s);
    var own: PodSet :| PodsAre(s, own) && CountersMatch(ss, own) && SurplusLeaves(own, s.n);
    assert old_ in own;
    OldPodIsReported(ss, own, old_);
    OldPodIsMissed(ss, own, old_);
    TemplateDueExactly(x, cr.hashes, L.Targets, found);
  }

  lemma OldPodIsMissed(ss: StatefulSet, own: PodSet, old_: nat)
    requires CountersMatch(ss, own) && SurplusLeaves(own, ss.replicas) && RevisionsDiffer(ss)
    requires old_ in own && old_ < ss.replicas && own[old_].revision != ss.status.updateRevision
    ensures !SkipsRollout(ss)
  {
    var updated := UpdatedPods(own, ss.status.updateRevision);
    assert updated <= Ordinals(ss.replicas) - {old_};
    SubsetCount(updated, Ordinals(ss.replicas) - {old_});
  }

  /** So a whole pass over a created cluster whose proxies are let be drives it. */
  lemma OldPodMovesThePass(x: L.Setting, w: P.World, cr: L.CR, proxies: P.Found, proxyPods: PodSet, found: P.Found,
                           s: State)
    requires GoesOn(x, w, cr) && cr.status.created && L.SizesUsable(x)
    requires w.proxies.found == Some(proxies) && w.targets.found == Some(found)
    requires AllCountersMatch(proxies.ss, proxyPods) && IsLetBe(x, TakenUp(x, w, cr), L.Proxies, proxies, proxyPods)
    requires Recovered(s) && Reports(x, TakenUp(x, w, cr), found, s) && OldOrdinals(s) != {}
    ensures L.RolloutDriven(L.Targets) in P.WholePass(x, w, cr).events
  {
    var e := L.RolloutDriven(L.Targets);
    StepExactly(x, TakenUp(x, w, cr), L.Proxies, proxies, proxyPods);
    OldPodIsDriven(x, TakenUp(x, w, cr), found, s);
    TargetPart(x, w, cr, proxies, found, e);
    DriveTargetsWorks(x, w, TakenUp(x, w, cr), found, e);
  }

  lemma AdvanceIdle(s: State)
    requires OldOrdinals(s) == {}
    ensures Advance(s) == s
  {
    forall i: nat ensures !NeedsUpdate(s.pods, s.base, s.n, s.rev, i) {
      assert i in Ordinals(s.n) ==> i !in OldOrdinals(s);
    }
  }

  lemma RoundAdvances(x: L.Setting, s: State, t: State)
    requires Round(x, s, t)
    ensures SettlesTo(Advance(s), t)
  {
    var cr, found :| Reports(x, cr, found, s) && SettlesTo(AfterPass(x, cr, s, found), t);
    if OldOrdinals(s) == {} {
      AdvanceIdle(s);
    } else {
      OldPodIsDriven(x, cr, found, s);
    }
  }

  /** No recovered state with an old pod is stuck: some ordinal is next. */
  lemma {:induction false} NextExists(s: State, from: nat) returns (i: nat)
    requires Recovered(s) && from <= s.n
    requires forall j: nat :: j < from ==> Settled(s.pods, s.base, s.rev, j)
    requires exists j :: j in OldOrdinals(s)
    ensures NeedsUpdate(s.pods, s.base, s.n, s.rev, i)
    decreases s.n - from
  {
    if from < s.n && OldAndActive(s.pods, s.base, s.rev, from) {
      i := from;
    } else {
      assert from < s.n by {
        var j :| j in OldOrdinals(s);
        assert !Settled(s.pods, s.base, s.rev, j);
      }
      i := NextExists(s, from + 1);
    }
  }

  lemma AdvanceEffect(s: State, i: nat)
    requires Recovered(s) && NeedsUpdate(s.pods, s.base, s.n, s.rev, i)
    ensures var podName := PodName(s.base, i); var t := Advance(s);
            if Cleared(s, i) then t == s.(pods := WithDeleted(s.pods, podName), touched := s.touched + {i})
            else t == s.(targets := t.targets, touched := s.touched + {i})
                 && AllServingAre(t.targets, podName, Maint)
  {
    AdvanceIsAt(s, i);
    var podName := PodName(s.base, i);
    if !s.pods[podName].unschedulable {
      assert OldAndActive(s.pods, s.base, s.rev, i);
      var id :| Serves(s.targets, id, podName);
      assert forall other :: Serves(s.targets, other, podName) ==> other == id;
      var marked := WithFlag(s.targets, id, Maint);
      assert Serves(marked, id, podName);
      assert forall other :: Serves(marked, other, podName) ==> Serves(s.targets, other, podName);
    }
  }

  lemma RoundReplaces(s: State, t: State, i: nat)
    requires Recovered(s) && SettlesTo(Advance(s), t) && NeedsUpdate(s.pods, s.base, s.n, s.rev, i) && Cleared(s, i)
    ensures |OldOrdinals(t)| < |OldOrdinals(s)|
  {
    AdvanceEffect(s, i);
    var mid := Advance(s);
    PodNamesDiffer(s.base, i);
    forall j | j in OldOrdinals(t) ensures j in OldOrdinals(s) - {i} {
      assert SettlesAt(mid, t, j);
    }
    SubsetCount(OldOrdinals(t), OldOrdinals(s) - {i});
  }

  lemma RoundDrains(s: State, t: State, i: nat)
    requires Recovered(s) && SettlesTo(Advance(s), t) && NeedsUpdate(s.pods, s.base, s.n, s.rev, i) && !Cleared(s, i)
    ensures OldOrdinals(t) == OldOrdinals(s)
    ensures NeedsUpdate(t.pods, t.base, t.n, t.rev, i) && Cleared(t, i)
  {
    AdvanceEffect(s, i);
    var mid := Advance(s);
    forall j: nat | j < s.n
      ensures Lookup(t.pods, PodName(s.base, j)) == Lookup(s.pods, PodName(s.base, j))
    {
      assert SettlesAt(mid, t, j);
      assert Settled(s.pods, s.base, s.rev, j) || OldAndActive(s.pods, s.base, s.rev, j);
    }
    forall j: nat | j < i ensures Settled(t.pods, t.base, t.rev, j) {
      assert Settled(s.pods, s.base, s.rev, j);
    }
    assert SettlesAt(mid, t, i);
    assert forall j: nat :: j < s.n ==>
      (OldAndActive(t.pods, s.base, s.rev, j) <==> OldAndActive(s.pods, s.base, s.rev, j));
  }

  lemma AdvanceDecreases(s: State, t: State, i: nat)
    requires Recovered(s) && SettlesTo(Advance(s), t) && NeedsUpdate(s.pods, s.base, s.n, s.rev, i)
    ensures 0 <= Measure(t) < Measure(s)
  {
    forall j | NeedsUpdate(s.pods, s.base, s.n, s.rev, j) ensures j == i {
      NextUnique(s, i, j);
    }
    if j :| NeedsUpdate(t.pods, t.base, t.n, t.rev, j) {
      assert j in OldOrdinals(t);
    }
    if Cleared(s, i) {
      RoundReplaces(s, t, i);
    } else {
      RoundDrains(s, t, i);
    }
  }

  /** Every undisturbed pass makes progress as long as an old pod is left, guards and all. */
  lemma RoundDecreases(x: L.Setting, s: State, t: State)
    requires Round(x, s, t) && OldOrdinals(s) != {}
    ensures 0 <= Measure(t) < Measure(s)
  {
    RoundAdvances(x, s, t);
    var old_ :| old_ in OldOrdinals(s);
    var i := NextExists(s, 0);
    AdvanceDecreases(s, t, i);
  }

  lemma QuietRound(x: L.Setting, s: State, t: State)
    requires Round(x, s, t) && OldOrdinals(s) == {}
    ensures OldOrdinals(t) == {}
  {
    RoundAdvances(x, s, t);
    AdvanceIdle(s);
    forall j: nat | j < t.n ensures !OldAndActive(t.pods, t.base, t.rev, j) {
      assert j in Ordinals(s.n) && j !in OldOrdinals(s);
      assert SettlesAt(s, t, j);
    }
  }

  ghost predicate IsRoundSequence(x: L.Setting, rounds: seq<State>) {
    && |rounds| > 0 && Recovered(rounds[0])
    && forall k :: 0 < k < |rounds| ==> Round(x, rounds[k - 1], rounds[k])
  }

  lemma TailOfRounds(x: L.Setting, rounds: seq<State>)
    requires IsRoundSequence(x, rounds) && |rounds| > 1
    ensures Round(x, rounds[0], rounds[1])
    ensures IsRoundSequence(x, rounds[1..])
  {
    var rest := rounds[1..];
    assert Round(x, rounds[1 - 1], rounds[1]);
    forall k | 0 < k < |rest| ensures Round(x, rest[k - 1], rest[k]) {
      assert Round(x, rounds[k + 1 - 1], rounds[k + 1]);
    }
  }

  lemma {:induction false} StaysUpdated(x: L.Setting, rounds: seq<State>)
    requires IsRoundSequence(x, rounds) && OldOrdinals(rounds[0]) == {}
    ensures OldOrdinals(rounds[|rounds| - 1]) == {}
    ensures Recovered(rounds[|rounds| - 1])
  {
    if |rounds| > 1 {
      TailOfRounds(x, rounds);
      QuietRound(x, rounds[0], rounds[1]);
      StaysUpdated(x, rounds[1..]);
    }
  }

  lemma {:induction false} NoOldPodsAtEnd(x: L.Setting, rounds: seq<State>)
    requires IsRoundSequence(x, rounds) && |rounds| > Measure(rounds[0])
    ensures OldOrdinals(rounds[|rounds| - 1]) == {}
    ensures Recovered(rounds[|rounds| - 1])
  {
    if OldOrdinals(rounds[0]) == {} {
      StaysUpdated(x, rounds);
    } else {
      SubsetCount({}, OldOrdinals(rounds[0]));
      TailOfRounds(x, rounds);
      RoundDecreases(x, rounds[0], rounds[1]);
      NoOldPodsAtEnd(x, rounds[1..]);
    }
  }

  lemma MeasureBound(s: State)
    ensures Measure(s) <= 2 * s.n
  {
    SubsetCount(OldOrdinals(s), Ordinals(s.n));
  }

  /** The rollout ends: after at most two undisturbed passes per pod, every pod is live on the update revision, and
      ready or unschedulable. */
  lemma RolloutEnds(x: L.Setting, rounds: seq<State>)
    requires IsRoundSequence(x, rounds) && |rounds| > 2 * rounds[0].n
    ensures var s := rounds[|rounds| - 1];
            forall j: nat :: j < s.n ==>
              var name := PodName(s.base, j);
              && name in s.pods && !s.pods[name].terminating && s.pods[name].revision == s.rev
              && (s.pods[name].ready || s.pods[name].unschedulable)
  {
    MeasureBound(rounds[0]);
    NoOldPodsAtEnd(x, rounds);
    var last := rounds[|rounds| - 1];
    forall j: nat | j < last.n ensures Settled(last.pods, last.base, last.rev, j) {
      assert j in Ordinals(last.n) && j !in OldOrdinals(last);
    }
    SettledMeans(last.pods, last.base, last.rev, last.n);
  }
}
