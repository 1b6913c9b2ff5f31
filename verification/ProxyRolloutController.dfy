/** The operator's two proxy rollout passes as sequences of fallible API calls: applying a changed template,
    and lifting the partition for the last pod. Every pass is shown to extend a run of ProxyRollout. */
module ProxyRolloutController {
  import opened Wrappers
  import opened PodNaming
  import opened ClusterMap
  import S = StatefulSets
  import opened ProxyRollout

  predicate ShouldResetPartition(ss: S.StatefulSet) {
    match ss.strategy
    case OnDelete => false
    case RollingUpdate(None) => false
    case RollingUpdate(Some(partition)) => partition != 0 && ss.status.currentReplicas == 1
  }

  /** What a read of the StatefulSet shows of the present state. */
  predicate Shows(ss: S.StatefulSet, s: State) {
    && ss.replicas == |s.pods|
    && ss.strategy == S.RollingUpdate(Some(s.partition))
    && ss.status.currentReplicas == s.statusCurrent
    && ss.status.readyReplicas == s.statusReady
    && (S.IsStatusCurrent(ss) <==> s.statusFresh)
  }

  class Controller {
    const base: string
    var world: State
    /** The proxies in the cluster map; which pods have a node there is for AIS to say. */
    var proxies: NodeMap
    ghost var run: seq<State>

    ghost predicate Valid()
      reads this
    {
      |run| > 0 && run[|run| - 1] == world && IsRun(run)
    }

    constructor (base: string, start: State, proxies: NodeMap)
      requires Init(start)
      ensures Valid() && world == start && run == [start] && this.base == base && this.proxies == proxies
    {
      this.base, this.proxies := base, proxies;
      world := start;
      run := [start];
    }

    method Record(next: State)
      requires Valid() && Next(world, next)
      modifies this
      ensures Valid() && world == next && run == old(run) + [next] && proxies == old(proxies)
    {
      world := next;
      run := run + [next];
    }

    /** Deletions, restarts, status updates and changes of the map, any number of them, unless the pass is
        undisturbed. */
    method WorldMoves(quiet: bool)
      requires Valid()
      modifies this
      ensures Valid() && old(run) <= run
      ensures |world.pods| == |old(world).pods|
      ensures world == old(world).(pods := world.pods, statusFresh := world.statusFresh,
                                   statusCurrent := world.statusCurrent, statusReady := world.statusReady)
      ensures quiet ==> world == old(world) && proxies == old(proxies)
    {
      if quiet {
        return;
      }
      proxies := *;
      var steps: nat := *;
      while steps > 0
        invariant Valid() && old(run) <= run
        invariant |world.pods| == |old(world).pods|
        invariant world == old(world).(pods := world.pods, statusFresh := world.statusFresh,
                                       statusCurrent := world.statusCurrent, statusReady := world.statusReady)
      {
        var next: State := *;
        var i: nat := *;
        if Deletes(world, next, i) {
          Record(next);
        } else if PodMoves(world, next, i) {
          PodMoveIsNext(world, next, i);
          Record(next);
        } else if StatusSync(world, next) {
          Record(next);
        }
        steps := steps - 1;
      }
    }

    method CallFails(quiet: bool) returns (fails: bool)
      ensures quiet ==> !fails
    {
      fails := *;
      fails := fails && !quiet;
    }

    method EndPass()
      requires Valid()
      modifies this
      ensures Valid() && old(run) <= run && world == old(world).(pass := Idle) && proxies == old(proxies)
    {
      Record(world.(pass := Idle));
    }

    /** Is the primary of this map the pod of ordinal i? */
    ghost predicate Names(smap: Smap, i: nat) {
      smap.primary.Some? && HostnameMatchesPod(smap.primary.value.hostname, PodName(base, i))
    }

    method GetClusterMap(quiet: bool) returns (smap: Option<Smap>)
      requires Valid()
      modifies this
      ensures Valid() && old(run) <= run
      ensures |world.pods| == |old(world).pods|
      ensures world == old(world).(pods := world.pods, statusFresh := world.statusFresh,
                                   statusCurrent := world.statusCurrent, statusReady := world.statusReady)
      ensures smap.Some? ==> smap.value.proxies == proxies
      ensures smap.Some? ==> forall i: nat :: Names(smap.value, i) <==> world.primary == i
      ensures quiet ==> world == old(world) && proxies == old(proxies) && smap.Some?
    {
      WorldMoves(quiet);
      var fails := CallFails(quiet);
      if fails {
        return None;
      }
      if world.primary < 0 {
        return Some(Smap(proxies, map[], None));
      }
      var node := Node("primary", PodName(base, world.primary), Active);
      forall i: nat | HostnameMatchesPod(node.hostname, PodName(base, i)) ensures world.primary == i {
        OneOrdinalPerHostname(node.hostname, base, i, world.primary);
      }
      return Some(Smap(proxies, map[], Some(node)));
    }

    /** Pod i is primary, or AIS knows a node of it that can be made primary. */
    ghost predicate CanBePrimary(i: nat)
      reads this
    {
      world.primary == i || Present(proxies, PodName(base, i))
    }

    /** The pass is about to make pod `podIdx` primary. */
    predicate Moving(podIdx: nat)
      reads this
    {
      (world.pass.SyncPrimary? && podIdx == 0) || (world.pass.LiftPrimary? && podIdx == |world.pods| - 1)
    }

    function AfterMove(pass: Pass): Pass {
      if pass.SyncPrimary? then SyncPatch else LiftPatch
    }

    /** A call that errs may still have moved the primary. */
    method SetPrimaryProxy(podIdx: nat, quiet: bool) returns (ok: bool)
      requires Valid() && Moving(podIdx)
      modifies this
      ensures Valid() && old(run) <= run
      ensures |world.pods| == |old(world).pods|
      ensures ok ==> world.primary == podIdx && world.pass == AfterMove(old(world).pass)
      ensures quiet ==> ok && proxies == old(proxies)
      ensures quiet ==> world == old(world).(primary := podIdx, pass := world.pass)
    {
      WorldMoves(quiet);
      var fails := CallFails(quiet);
      var lost: bool := *;
      if fails && lost {
        return false;
      }
      Record(world.(primary := podIdx, pass := AfterMove(world.pass)));
      return !fails;
    }

    /** Makes pod `podIdx` primary, unless it is already. Called by a pass that is about to do just that. */
    method SetPrimaryTo(podIdx: nat, quiet: bool) returns (ok: bool)
      requires Valid() && Moving(podIdx)
      modifies this
      ensures Valid() && old(run) <= run
      ensures |world.pods| == |old(world).pods|
      ensures ok ==> world.primary == podIdx && world.pass == AfterMove(old(world).pass)
      ensures quiet ==> proxies == old(proxies) && (ok <==> old(CanBePrimary(podIdx)))
      ensures quiet && ok ==> world == old(world).(primary := podIdx, pass := world.pass)
      ensures quiet && !ok ==> world == old(world)
    {
      var podName := PodName(base, podIdx);
      var smap := GetClusterMap(quiet);
      if smap.None? {
        return false;
      }
      assert Names(smap.value, podIdx) <==> world.primary == podIdx;
      if smap.value.primary.Some? && HostnameMatchesPod(smap.value.primary.value.hostname, podName) {
        Record(world.(primary := podIdx, pass := AfterMove(world.pass)));
        return true;
      }
      var node := FindAISNodeByPodName(smap.value.proxies, podName);
      if node.None? {
        return false;
      }
      ok := SetPrimaryProxy(podIdx, quiet);
    }

    /** Applies a changed template. With a live cluster the primary is moved to pod 0 first and pod 0 is put
        behind the partition by the very patch that changes the template. */
    method SyncProxyPodSpec(ss: S.StatefulSet, needsUpdate: bool, quiet: bool) returns (updated: bool, ok: bool)
      requires Valid() && world.pass.Idle? && Shows(ss, world) && needsUpdate == !world.patched
      modifies this
      ensures Valid() && old(run) <= run && world.pass.Idle?
      ensures !needsUpdate ==> !updated && ok && world == old(world)
      ensures quiet && needsUpdate ==> (ok <==> (ss.status.readyReplicas > 0 ==> old(CanBePrimary(0))))
      ensures quiet && needsUpdate && ok ==>
                && updated
                && world == if ss.status.readyReplicas > 0
                            then old(world).(primary := 0, patched := true, partition := 1, statusFresh := false)
                            else old(world).(patched := true, statusFresh := false)
      ensures quiet && !ok ==> !updated && world == old(world)
    {
      if !needsUpdate {
        return false, true;
      }
      if ss.status.readyReplicas > 0 {
        Record(world.(pass := SyncPrimary));
        ok := SetPrimaryTo(0, quiet);
        if !ok {
          EndPass();
          return false, false;
        }
      } else {
        Record(world.(pass := SyncBare));
      }
      WorldMoves(quiet);
      var fails := CallFails(quiet);
      var lost: bool := *;
      if fails && lost {
        EndPass();
        return true, false;
      }
      if world.pass.SyncPatch? {
        Record(world.(patched := true, partition := 1, statusFresh := false, pass := Idle));
      } else {
        Record(world.(patched := true, statusFresh := false, pass := Idle));
      }
      return true, !fails;
    }

    /** A rollout is under way, and by the status one old pod is left, behind the partition. */
    ghost predicate LastOneIsDue(ss: S.StatefulSet)
      reads this
    {
      && ss.status.updateRevision != ss.status.currentRevision
      && world.partition != 0 && world.statusCurrent == 1
    }

    /** Drives a running rollout: once a single old pod is left behind the partition, the highest pod becomes
        primary and the partition is lifted. */
    method HandleProxyRollout(ss: S.StatefulSet, quiet: bool) returns (ok: bool)
      requires Valid() && world.pass.Idle? && Shows(ss, world)
      requires S.IsStatusCurrent(ss) && world.patched && |world.pods| >= 2
      modifies this
      ensures Valid() && old(run) <= run && world.pass.Idle?
      ensures quiet && old(LastOneIsDue(ss)) ==> (ok <==> old(CanBePrimary(|world.pods| - 1)))
      ensures quiet && ok && old(LastOneIsDue(ss)) ==>
                world == old(world).(primary := |old(world).pods| - 1, partition := 0, statusFresh := false)
      ensures !old(LastOneIsDue(ss)) ==> ok && world == old(world)
      ensures quiet && !ok ==> world == old(world)
    {
      if ss.status.updateRevision == ss.status.currentRevision {
        return true;
      }
      if !ShouldResetPartition(ss) {
        return true;
      }
      Record(world.(pass := LiftPrimary));
      ok := SetPrimaryTo(ss.replicas - 1, quiet);
      if !ok {
        EndPass();
        return false;
      }
      WorldMoves(quiet);
      var fails := CallFails(quiet);
      var lost: bool := *;
      if fails && lost {
        EndPass();
        return false;
      }
      Record(world.(partition := 0, statusFresh := false, pass := Idle));
      return !fails;
    }
  }
}
