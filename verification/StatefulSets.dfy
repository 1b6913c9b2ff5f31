/** StatefulSets as the operator reads them, and the pod and counter tests it bases decisions on. */
module StatefulSets {
  import opened Wrappers

  // -------------------------------------------------------------------- pods

  datatype Pod = Pod(revision: string, terminating: bool, ready: bool, unschedulable: bool, crashLoop: bool)

  predicate IsPodActive(pod: Option<Pod>) {
    pod.Some? && !pod.value.terminating
  }

  predicate IsPodReady(pod: Option<Pod>) {
    IsPodActive(pod) && pod.value.ready
  }

  predicate IsPodUnschedulable(pod: Option<Pod>) {
    pod.Some? && pod.value.unschedulable
  }

  predicate IsPodOnRevision(pod: Option<Pod>, revision: string) {
    pod.Some? && revision != "" && pod.value.revision == revision
  }

  predicate IsPodRolloutCompleted(pod: Option<Pod>) {
    IsPodActive(pod) && (IsPodUnschedulable(pod) || IsPodReady(pod))
  }

  function Lookup<K, V>(m: map<K, V>, k: K): Option<V> {
    if k in m then Some(m[k]) else None
  }

  // ------------------------------------------------------------ StatefulSets

  /** `RollingUpdate(None)` is the strategy without its parameter block. */
  datatype Strategy = OnDelete | RollingUpdate(partition: Option<nat>)

  datatype Status = Status(
    observedGeneration: int,
    replicas: int,
    readyReplicas: int,
    updatedReplicas: int,
    currentReplicas: int,
    currentRevision: string,
    updateRevision: string)

  datatype StatefulSet = StatefulSet(generation: int, replicas: nat, strategy: Strategy, status: Status)

  function Min(a: int, b: int): int { if a <= b then a else b }

  function Max(a: int, b: int): int { if a >= b then a else b }

  predicate IsStatusCurrent(ss: StatefulSet) {
    ss.status.observedGeneration >= ss.generation
  }

  predicate IsRolloutInProgress(ss: StatefulSet) {
    if ss.status.updateRevision == "" then false
    else if ss.status.currentRevision == ss.status.updateRevision then false
    else if ss.strategy.OnDelete? then ss.status.updatedReplicas < Min(ss.replicas, ss.status.replicas)
    else true
  }

  predicate IsScalingInProgress(ss: StatefulSet) {
    !IsRolloutInProgress(ss) && ss.status.replicas != ss.replicas
  }

  predicate StatefulSetScalingNeeded(ss: StatefulSet, desired: int, maxUnavailable: int, autoScaling: bool) {
    if desired > ss.replicas then true
    else if desired == ss.replicas then false
    else if !autoScaling then true
    else if IsRolloutInProgress(ss) || IsScalingInProgress(ss) then false
    else
      var unavailable := ss.replicas - ss.status.readyReplicas;
      unavailable == 0 || unavailable > maxUnavailable
  }

  predicate IsStatefulSetFullyReady(desired: int, ss: StatefulSet) {
    && ss.replicas == desired
    && (ss.status.updateRevision != "" ==> ss.replicas == ss.status.updatedReplicas)
    && ss.status.replicas == ss.replicas
    && ss.replicas == ss.status.readyReplicas
  }

  predicate IsStatefulSetReady(ss: StatefulSet, desired: int, minReady: int, autoScaling: bool) {
    if IsStatefulSetFullyReady(desired, ss) then true
    else if !autoScaling then false
    else if IsRolloutInProgress(ss) || IsScalingInProgress(ss) then false
    else ss.status.readyReplicas >= minReady
  }

  // -------------------------------------------- counters against actual pods

  /** The pods of a StatefulSet, by ordinal. */
  type PodSet = map<nat, Pod>

  ghost function UpdatedPods(pods: PodSet, revision: string): set<nat> {
    set i | i in pods && !pods[i].terminating && pods[i].revision == revision
  }

  /** Status.Replicas counts existing pods; UpdatedReplicas the live ones on the update revision. */
  ghost predicate CountersMatch(ss: StatefulSet, pods: PodSet) {
    && ss.status.replicas == |pods|
    && ss.status.updatedReplicas == |UpdatedPods(pods, ss.status.updateRevision)|
  }

  /** The ordinals below n; there are n of them. */
  ghost function Ordinals(n: nat): (s: set<nat>)
    ensures forall i: nat :: i in s <==> i < n
    ensures |s| == n
  {
    if n == 0 then {} else Ordinals(n - 1) + {n - 1}
  }

  lemma SubsetCount<T>(a: set<T>, b: set<T>)
    requires a <= b
    ensures |a| <= |b|
    ensures |b - a| == |b| - |a|
    ensures |a| == |b| ==> a == b
  {
    assert b == a + (b - a);
    assert |a + (b - a)| == |a| + |b - a|;
    if |a| == |b| {
      assert b - a == {};
    }
  }

  ghost predicate RevisionsDiffer(ss: StatefulSet) {
    ss.status.updateRevision != "" && ss.status.currentRevision != ss.status.updateRevision
  }

  /** The pods that are terminating or off the update revision. */
  ghost function StalePods(ss: StatefulSet, pods: PodSet): set<nat> {
    set i | i in pods && (pods[i].terminating || pods[i].revision != ss.status.updateRevision)
  }

  /** The revisions differ and, under OnDelete, the stale pods outnumber those in excess of the spec. */
  ghost predicate RolloutOpen(ss: StatefulSet, pods: PodSet) {
    RevisionsDiffer(ss) && (ss.strategy.OnDelete? ==> |StalePods(ss, pods)| > Max(0, |pods| - ss.replicas))
  }

  /** That is when a rollout is reported. */
  lemma RolloutExactly(ss: StatefulSet, pods: PodSet)
    requires CountersMatch(ss, pods)
    ensures IsRolloutInProgress(ss) <==> RolloutOpen(ss, pods)
  {
    var updated := UpdatedPods(pods, ss.status.updateRevision);
    SubsetCount(updated, pods.Keys);
    assert pods.Keys - updated == StalePods(ss, pods);
    assert |pods.Keys| == |pods|;
  }

  /** A live pod on another revision below the spec size is always seen, as long as surplus pods are on their way
      out. */
  lemma OldPodIsReported(ss: StatefulSet, pods: PodSet, old_: nat)
    requires CountersMatch(ss, pods) && RevisionsDiffer(ss) && ss.strategy.OnDelete?
    requires old_ in pods && old_ < ss.replicas
    requires !pods[old_].terminating && pods[old_].revision != ss.status.updateRevision
    requires forall i :: i in pods && i >= ss.replicas ==> pods[i].terminating
    ensures IsRolloutInProgress(ss)
  {
    var updated := UpdatedPods(pods, ss.status.updateRevision);
    var kept := set i | i in pods && i < ss.replicas;
    assert updated <= kept - {old_};
    SubsetCount(updated, kept - {old_});
    SubsetCount(kept, pods.Keys);
    assert kept <= Ordinals(ss.replicas);
    SubsetCount(kept, Ordinals(ss.replicas));
    assert |pods.Keys| == |pods|;
  }

  ghost predicate LiveAndUpdated(ss: StatefulSet, pods: PodSet, i: nat) {
    i in pods && !pods[i].terminating && pods[i].revision == ss.status.updateRevision
  }

  ghost predicate AllUpdated(ss: StatefulSet, pods: PodSet) {
    forall i :: i in pods ==> LiveAndUpdated(ss, pods, i)
  }

  /** There are as many pods as the spec says and, while the revisions differ, each of them is live and updated
      already; a rolling update is not over until they agree. */
  ghost predicate PodsSettled(ss: StatefulSet, pods: PodSet) {
    && |pods| == ss.replicas
    && (RevisionsDiffer(ss) ==> ss.strategy.OnDelete? && AllUpdated(ss, pods))
  }

  lemma UpdatedExactly(ss: StatefulSet, pods: PodSet)
    requires CountersMatch(ss, pods)
    ensures ss.status.updatedReplicas <= |pods|
    ensures ss.status.updatedReplicas == |pods| <==> AllUpdated(ss, pods)
  {
    var updated := UpdatedPods(pods, ss.status.updateRevision);
    SubsetCount(updated, pods.Keys);
    assert |pods.Keys| == |pods|;
    assert updated == pods.Keys <==> AllUpdated(ss, pods) by {
      assert forall i :: i in updated <==> LiveAndUpdated(ss, pods, i);
    }
  }

  /** Neither a rollout nor a scaling is reported exactly if the pods are settled. */
  lemma NothingReportedExactly(ss: StatefulSet, pods: PodSet)
    requires CountersMatch(ss, pods)
    ensures !IsRolloutInProgress(ss) && !IsScalingInProgress(ss) <==> PodsSettled(ss, pods)
  {
    UpdatedExactly(ss, pods);
  }

  ghost function UnreadyPods(pods: PodSet): set<nat> {
    set i | i in pods && !pods[i].ready
  }

  ghost function ReadyPods(pods: PodSet): set<nat> {
    set i | i in pods && pods[i].ready
  }

  /** ReadyReplicas counts the ready pods, terminating or not. */
  ghost predicate AllCountersMatch(ss: StatefulSet, pods: PodSet) {
    CountersMatch(ss, pods) && ss.status.readyReplicas == |ReadyPods(pods)|
  }

  lemma ReadyOrNot(pods: PodSet)
    ensures |ReadyPods(pods)| + |UnreadyPods(pods)| == |pods|
    ensures UnreadyPods(pods) == {} <==> forall i :: i in pods ==> pods[i].ready
    ensures |UnreadyPods(pods)| == 0 <==> UnreadyPods(pods) == {}
  {
    SubsetCount(UnreadyPods(pods), pods.Keys);
    assert pods.Keys - UnreadyPods(pods) == ReadyPods(pods);
    assert |pods.Keys| == |pods|;
    if i :| i in pods && !pods[i].ready {
      assert i in UnreadyPods(pods);
    }
  }

  /** Exactly the wanted pods are there, all ready and, once there is an update revision, live and updated. */
  ghost predicate PodsComplete(ss: StatefulSet, pods: PodSet, desired: int) {
    && desired == ss.replicas == |pods|
    && (forall i :: i in pods ==> pods[i].ready)
    && (ss.status.updateRevision != "" ==> AllUpdated(ss, pods))
  }

  /** What it means, pod by pod, that a StatefulSet is ready for the size wanted of it. */
  ghost predicate PodsSuffice(ss: StatefulSet, pods: PodSet, desired: int, minReady: int, autoScaling: bool) {
    || PodsComplete(ss, pods, desired)
    || (autoScaling && PodsSettled(ss, pods) && |ReadyPods(pods)| >= minReady)
  }

  /** A set of fixed size reads ready exactly if all of its pods are there, ready and up to date; an autoscaled one also
      if it is settled with enough pods ready. */
  lemma ReadyExactly(ss: StatefulSet, pods: PodSet, desired: int, minReady: int, autoScaling: bool)
    requires AllCountersMatch(ss, pods)
    ensures IsStatefulSetReady(ss, desired, minReady, autoScaling) <==>
            PodsSuffice(ss, pods, desired, minReady, autoScaling)
  {
    NothingReportedExactly(ss, pods);
    UpdatedExactly(ss, pods);
    ReadyOrNot(pods);
  }

  /** The size is to change: upwards always, downwards at once if it is fixed, and otherwise exactly if nothing else is
      going on and either all of the pods are ready or more of them are not than the budget tolerates. */
  ghost predicate ResizeDue(ss: StatefulSet, pods: PodSet, desired: int, maxUnavailable: int, autoScaling: bool) {
    || desired > ss.replicas
    || (desired < ss.replicas
        && (autoScaling ==>
              && PodsSettled(ss, pods)
              && ((forall i :: i in pods ==> pods[i].ready) || |UnreadyPods(pods)| > maxUnavailable)))
  }

  lemma ScalingNeededExactly(ss: StatefulSet, pods: PodSet, desired: int, maxUnavailable: int, autoScaling: bool)
    requires AllCountersMatch(ss, pods)
    ensures StatefulSetScalingNeeded(ss, desired, maxUnavailable, autoScaling) <==>
            ResizeDue(ss, pods, desired, maxUnavailable, autoScaling)
  {
    NothingReportedExactly(ss, pods);
    ReadyOrNot(pods);
  }

  /** Growing a fully updated set is not mistaken for a rollout; it is reported as scaling. */
  lemma ScaleUpIsNotARollout(ss: StatefulSet, pods: PodSet)
    requires CountersMatch(ss, pods)
    requires forall i :: i in pods ==> i < ss.replicas && LiveAndUpdated(ss, pods, i)
    requires ss.strategy.OnDelete? || !RevisionsDiffer(ss)
    ensures !IsRolloutInProgress(ss)
    ensures IsScalingInProgress(ss) <==> exists i: nat :: i < ss.replicas && i !in pods
  {
    assert UpdatedPods(pods, ss.status.updateRevision) == pods.Keys;
    assert |pods.Keys| == |pods|;
    SubsetCount(pods.Keys, Ordinals(ss.replicas));
    if i: nat :| i < ss.replicas && i !in pods {
      assert i in Ordinals(ss.replicas);
    }
  }

  /** Neither is shrinking one, however many of the surplus pods are still terminating. */
  lemma ScaleDownIsNotARollout(ss: StatefulSet, pods: PodSet)
    requires CountersMatch(ss, pods)
    requires forall i: nat :: i < ss.replicas ==> LiveAndUpdated(ss, pods, i)
    requires ss.strategy.OnDelete? || !RevisionsDiffer(ss)
    ensures !IsRolloutInProgress(ss)
    ensures IsScalingInProgress(ss) <==> exists i :: i in pods && i >= ss.replicas
  {
    var updated := UpdatedPods(pods, ss.status.updateRevision);
    forall i | i in Ordinals(ss.replicas) ensures i in updated {
      assert LiveAndUpdated(ss, pods, i);
    }
    SubsetCount(Ordinals(ss.replicas), updated);
    SubsetCount(Ordinals(ss.replicas), pods.Keys);
    assert |pods.Keys| == |pods|;
    if i :| i in pods && i >= ss.replicas {
      assert i !in Ordinals(ss.replicas);
    }
  }

  /** The reported rollout may be a false alarm: one terminating pod of a fully updated set is enough. */
  lemma TerminatingPodLooksLikeARollout(ss: StatefulSet, pods: PodSet, gone: nat)
    requires CountersMatch(ss, pods) && RevisionsDiffer(ss) && ss.strategy.OnDelete?
    requires pods.Keys == Ordinals(ss.replicas)
    requires gone in pods && pods[gone].terminating
    ensures IsRolloutInProgress(ss)
  {
    var updated := UpdatedPods(pods, ss.status.updateRevision);
    SubsetCount(updated, pods.Keys - {gone});
    assert |pods.Keys| == |pods|;
  }
}
