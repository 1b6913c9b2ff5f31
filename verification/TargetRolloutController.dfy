/** The operator's rollout pass over the target pods, as a sequence of fallible API calls between which
    the world moves. Every pass is shown to extend a run of the TargetRollout transition system. */
module TargetRolloutController {
  import opened Wrappers
  import opened PodNaming
  import opened ClusterMap
  import opened StatefulSets
  import opened TargetRollout

  datatype Outcome =
    | NoRollout        // nothing to drive
    | Requeue          // waiting, or acted and waiting for the effect
    | Error

  datatype Preparation = Ready | Started | Failed

  /** A scheduled pod whose node is not in the map cannot be drained yet. */
  ghost predicate NodeMissing(s: State, i: nat) {
    var podName := PodName(s.base, i);
    !(podName in s.pods && s.pods[podName].unschedulable) && !Present(s.targets, podName)
  }

  /** Where an undisturbed preparation leaves the pass. */
  ghost predicate PreparesTo(s: State, t: State, podName: string, prep: Preparation)
    requires s.pass.Chosen? && podName in s.pods
  {
    var i := s.pass.i;
    if s.pods[podName].unschedulable then
      prep.Ready? && t == s.(pass := Deleting(i, Unschedulable(s.pods[podName])))
    else if Present(s.targets, podName) then
      exists id :: Serves(s.targets, id, podName) &&
                   if s.targets[id].flag == Maint then
                     prep.Ready? && t == s.(pass := Deleting(i, InMaintenance(id, s.targets)))
                   else
                     && prep.Started?
                     && t == s.(targets := WithFlag(s.targets, id, Maint), touched := s.touched + {i}, pass := Idle)
    else
      prep.Failed? && t == s.(pass := Scheduled(i))
  }

  lemma Advanced(s: State, t: State, i: nat)
    requires NeedsUpdate(s.pods, s.base, s.n, s.rev, i) && AdvancesTo(s, t, i)
    requires OneNodePerPod(s.targets, s.base) && s.pass == t.pass
    ensures t.(listing := s.listing) == Advance(s)
    ensures NodeMissing(s, i) <==> exists j :: NeedsUpdate(s.pods, s.base, s.n, s.rev, j) && NodeMissing(s, j)
  {
    AdvanceIsAt(s, i);
    AdvancesToIsAdvanceAt(s, t, i);
    forall j | NeedsUpdate(s.pods, s.base, s.n, s.rev, j) ensures j == i {
      NextUnique(s, i, j);
    }
  }

  class Controller {
    var world: State
    ghost var run: seq<State>

    ghost predicate Valid()
      reads this
    {
      |run| > 0 && run[|run| - 1] == world && IsRun(run)
    }

    constructor (start: State)
      requires Init(start)
      ensures Valid() && world == start && run == [start]
    {
      world := start;
      run := [start];
    }

    method Record(next: State)
      requires Valid() && Next(world, next)
      modifies this
      ensures Valid() && world == next && run == old(run) + [next]
    {
      world := next;
      run := run + [next];
    }

    /** Anything may happen to pods and membership, unless the caller asks for an undisturbed pass. */
    method WorldMoves(quiet: bool)
      requires Valid()
      modifies this
      ensures Valid() && old(run) <= run
      ensures world == old(world).(pods := world.pods, targets := world.targets)
      ensures quiet ==> world == old(world)
    {
      if quiet {
        return;
      }
      var steps: nat := *;
      while steps > 0
        invariant Valid() && old(run) <= run
        invariant world == old(world).(pods := world.pods, targets := world.targets)
      {
        var next: State := *;
        if WorldStep(world, next) {
          Record(next);
        }
        steps := steps - 1;
      }
    }

    /** Ends the pass at any point. */
    method EndPass()
      requires Valid()
      modifies this
      ensures Valid() && old(run) <= run
      ensures world == old(world).(pass := Idle)
    {
      Record(world.(pass := Idle));
    }

    // ------------------------------------------------------------ API calls

    method CallFails(quiet: bool) returns (fails: bool)
      ensures quiet ==> !fails
    {
      fails := *;
      fails := fails && !quiet;
    }

    method ListPods(quiet: bool) returns (listed: Option<seq<NamedPod>>)
      requires Valid() && world.pass.Idle?
      modifies this
      ensures Valid() && old(run) <= run
      ensures listed.None? ==> world.pass.Idle?
      ensures listed.Some? ==> world.pass.Listed? && Lists(listed.value, world.listing)
      ensures world == old(world).(pods := world.pods, targets := world.targets, listing := world.listing,
                                   pass := world.pass)
      ensures quiet ==> listed.Some? && world == old(world).(listing := old(world).pods, pass := Listed)
    {
      WorldMoves(quiet);
      var fails := CallFails(quiet);
      if fails {
        return None;
      }
      var list: seq<NamedPod> := [];
      var rest := world.pods.Keys;
      while rest != {}
        invariant rest <= world.pods.Keys
        invariant forall k :: 0 <= k < |list| ==>
          list[k].name in world.pods && list[k].pod == world.pods[list[k].name]
        invariant forall name :: name in world.pods && name !in rest ==>
          exists k :: 0 <= k < |list| && list[k].name == name
        decreases rest
      {
        var name :| name in rest;
        ghost var before := list;
        list := list + [NamedPod(name, world.pods[name])];
        assert forall k :: 0 <= k < |before| ==> list[k] == before[k];
        assert list[|before|].name == name;
        rest := rest - {name};
      }
      Record(world.(listing := world.pods, pass := Listed));
      return Some(list);
    }

    method GetPod(podName: string, quiet: bool) returns (pod: Option<Pod>)
      requires Valid() && world.pass.Chosen? && podName == PodName(world.base, world.pass.i)
      modifies this
      ensures Valid() && old(run) <= run
      ensures world == old(world).(pods := world.pods, targets := world.targets, pass := world.pass)
      ensures pod.None? ==> world.pass == old(world).pass
      ensures pod.Some? ==> world.pass ==
                            if pod.value.unschedulable then Deleting(old(world).pass.i, Unschedulable(pod.value))
                            else Scheduled(old(world).pass.i)
      ensures quiet ==> world == old(world).(pass := world.pass) && pod == Lookup(world.pods, podName)
    {
      WorldMoves(quiet);
      var fails := CallFails(quiet);
      if fails || podName !in world.pods {
        return None;
      }
      pod := Some(world.pods[podName]);
      var i := world.pass.i;
      Record(world.(pass := if pod.value.unschedulable then Deleting(i, Unschedulable(pod.value)) else Scheduled(i)));
    }

    method GetClusterMap(quiet: bool) returns (targets: Option<NodeMap>)
      requires Valid()
      modifies this
      ensures Valid() && old(run) <= run
      ensures world == old(world).(pods := world.pods, targets := world.targets)
      ensures targets.Some? ==> targets.value == world.targets
      ensures quiet ==> world == old(world) && targets.Some?
    {
      WorldMoves(quiet);
      var fails := CallFails(quiet);
      if fails {
        return None;
      }
      return Some(world.targets);
    }

    /** A call that errs may or may not have taken effect. */
    method StartMaintenance(quiet: bool) returns (ok: bool)
      requires Valid() && world.pass.Draining?
      modifies this
      ensures Valid() && old(run) <= run
      ensures quiet ==> ok && StepDrain(old(world), world)
      ensures world.pass.Idle? || (world.pass == old(world).pass && !ok)
    {
      WorldMoves(quiet);
      ok := true;
      var fails := CallFails(quiet);
      if fails {
        ok := false;
        var lost: bool := *;
        if lost {
          return;
        }
      }
      Record(world.(targets := WithFlag(world.targets, world.pass.id, Maint),
                    touched := world.touched + {world.pass.i}, pass := Idle));
    }

    method DeletePodIfExists(quiet: bool) returns (ok: bool)
      requires Valid() && world.pass.Deleting?
      modifies this
      ensures Valid() && old(run) <= run
      ensures quiet ==> ok && StepDelete(old(world), world)
      ensures world.pass.Idle? || (world.pass == old(world).pass && !ok)
    {
      WorldMoves(quiet);
      ok := true;
      var fails := CallFails(quiet);
      if fails {
        ok := false;
        var lost: bool := *;
        if lost {
          return;
        }
      }
      Record(world.(pods := WithDeleted(world.pods, PodName(world.base, world.pass.i)),
                    touched := world.touched + {world.pass.i}, pass := Idle));
    }

    // ------------------------------------------------------------- the pass

    /** Puts the chosen target into maintenance, or clears its pod for deletion. */
    method PrepareTargetForRollout(podName: string, quiet: bool) returns (prep: Preparation)
      requires Valid() && world.pass.Chosen? && podName == PodName(world.base, world.pass.i)
      modifies this
      ensures Valid() && old(run) <= run
      ensures prep.Ready? <==> world.pass.Deleting?
      ensures prep.Started? ==> world.pass.Idle?
      ensures quiet && podName in old(world).pods ==>
                PreparesTo(old(world), world, podName, prep)
    {
      var pod := GetPod(podName, quiet);
      if pod.None? {
        return Failed;
      }
      if IsPodUnschedulable(pod) {
        return Ready;
      }
      var targets := GetClusterMap(quiet);
      if targets.None? {
        return Failed;
      }
      var node := FindAISNodeByPodName(targets.value, podName);
      if node.None? {
        return Failed;
      }
      var i := world.pass.i;
      if !InMaint(targets.value[node.value]) {
        Record(world.(pass := Draining(i, node.value, world.targets)));
        var ok := StartMaintenance(quiet);
        return if ok then Started else Failed;
      }
      Record(world.(pass := Deleting(i, InMaintenance(node.value, world.targets))));
      return Ready;
    }

    /** Drains or deletes the chosen pod and ends the pass. */
    method ReplacePod(quiet: bool) returns (outcome: Outcome)
      requires Valid() && world.pass.Chosen?
      modifies this
      ensures Valid() && old(run) <= run && world.pass.Idle?
      ensures !outcome.NoRollout?
      ensures quiet && PodName(old(world).base, old(world).pass.i) in old(world).pods ==>
                && AdvancesTo(old(world), world, old(world).pass.i)
                && (outcome.Error? <==> NodeMissing(old(world), old(world).pass.i))
    {
      var podName := PodName(world.base, world.pass.i);
      var prep := PrepareTargetForRollout(podName, quiet);
      match prep {
        case Failed =>
          EndPass();
          outcome := Error;
        case Started =>
          outcome := Requeue;
        case Ready =>
          var ok := DeletePodIfExists(quiet);
          EndPass();
          outcome := if ok then Requeue else Error;
      }
    }

    /** Lists the pods, and drains or replaces the one that needs its update next. */
    method ReplaceNext(quiet: bool) returns (outcome: Outcome)
      requires Valid() && world.pass.Idle?
      modifies this
      ensures Valid() && old(run) <= run && world.pass.Idle?
      ensures !outcome.NoRollout?
      ensures quiet && OneNodePerPod(old(world).targets, old(world).base) ==>
                && world.(listing := old(world).listing) == Advance(old(world))
                && (outcome.Error? <==> exists i ::
                      && NeedsUpdate(old(world).pods, old(world).base, old(world).n, old(world).rev, i)
                      && NodeMissing(old(world), i))
    {
      var listed := ListPods(quiet);
      var next := FindPodNeedingUpdate(listed, world.listing, world.base, world.n, world.rev);
      if next.None? {
        EndPass();
        return Requeue;
      }
      Record(world.(pass := Chosen(next.value)));
      outcome := ReplacePod(quiet);
      if quiet && OneNodePerPod(old(world).targets, old(world).base) {
        Advanced(old(world), world, next.value);
      }
    }

    /** One rollout pass. Its steps form a run; undisturbed, it does exactly what Advance says. */
    method HandleTargetRollout(ss: StatefulSet, quiet: bool) returns (outcome: Outcome)
      requires Valid() && world.pass.Idle?
      requires ss.replicas == world.n && ss.status.updateRevision == world.rev
      modifies this
      ensures Valid() && old(run) <= run && world.pass.Idle?
      ensures outcome.NoRollout? <==> SkipsRollout(ss)
      ensures SkipsRollout(ss) ==> world == old(world)
      ensures quiet && !SkipsRollout(ss) && OneNodePerPod(old(world).targets, old(world).base) ==>
                && world.(listing := old(world).listing) == Advance(old(world))
                && (outcome.Error? <==> exists i ::
                      && NeedsUpdate(old(world).pods, old(world).base, old(world).n, old(world).rev, i)
                      && NodeMissing(old(world), i))
    {
      if ss.status.updateRevision == "" || ss.status.currentRevision == ss.status.updateRevision {
        return NoRollout;
      }
      if ss.status.updatedReplicas >= ss.replicas && ss.status.readyReplicas >= ss.replicas {
        return NoRollout;
      }
      outcome := ReplaceNext(quiet);
    }
  }
}
