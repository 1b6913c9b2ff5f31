/** One target scaling pass, call by call. AIS membership, pods and the StatefulSet status move between calls;
    the replica count in the StatefulSet spec is written by the operator alone. */
module TargetScalingController {
  import opened Wrappers
  import opened PodNaming
  import opened ClusterMap
  import opened StatefulSets
  import opened RebalanceConfig
  import opened TargetScaling

  /** What the CR asks for. */
  datatype Spec = Spec(
    size: nat,
    autoScaling: bool,
    maxUnavailable: nat,
    mode: ScaleDownMode,
    externalAccess: bool,
    config: Option<Config>)

  datatype Outcome = Requeue | Deferred | Error

  /** The log records what was read and done; the ghost steps say what the cluster was before and after each entry,
      and Valid demands that they make up its history. With `calm`, no call fails and nothing else moves. */
  class Controller {
    const base: string
    const spec: Spec
    const membership: World
    const calm: bool
    ghost const origin: Moment
    var readyRebalance: bool
    var targets: NodeMap
    var pods: map<string, Pod>
    var replicas: nat
    var rebalance: bool
    var services: set<nat>
    var log: seq<Event>
    ghost var steps: seq<Step>

    ghost function Now(): Moment
      reads this
    {
      Moment(targets, pods, replicas, rebalance, services)
    }

    ghost predicate Valid()
      reads this
    {
      IsTrace(membership, origin, log, steps, Now())
    }

    constructor (base: string, spec: Spec, membership: World, calm: bool, start: Moment, readyRebalance: bool)
      ensures this.base == base && this.spec == spec && this.membership == membership && this.calm == calm
      ensures Valid() && Now() == start && log == [] && origin == start && this.readyRebalance == readyRebalance
    {
      this.base, this.spec, this.membership, this.calm := base, spec, membership, calm;
      this.readyRebalance := readyRebalance;
      targets, pods, replicas, rebalance, services :=
        start.targets, start.pods, start.replicas, start.rebalance, start.services;
      log, steps, origin := [], [], start;
      new;
      MovesNowhere(membership, start.targets);
    }

    // ------------------------------------------------------------ API calls

    method CallFails() returns (fails: bool)
      ensures calm ==> !fails
    {
      fails := *;
      fails := fails && !calm;
    }

    method WorldMoves()
      requires Valid()
      modifies `targets, `pods
      ensures Valid() && Moves(membership, old(targets), targets)
      ensures calm ==> Now() == old(Now())
    {
      MovesNowhere(membership, targets);
      if calm {
        return;
      }
      var next: NodeMap := *;
      if Moves(membership, targets, next) {
        targets := next;
      }
      pods := *;
      TraceMoves(membership, origin, log, steps, old(Now()), Now());
    }

    method Health() returns (ok: bool)
      requires Valid()
      modifies `targets, `pods, `log, `steps
      ensures Valid() && old(steps) <= steps && Moves(membership, old(targets), targets)
      ensures log == if ok then old(log) + [FoundHealthy] else old(log)
      ensures calm ==> ok && Now() == old(Now())
    {
      WorldMoves();
      var fails := CallFails();
      ok := !fails;
      if ok {
        TraceGrows(membership, origin, log, steps, Now(), FoundHealthy, Now());
        log, steps := log + [FoundHealthy], steps + [Step(Now(), Now())];
      }
    }

    method PatchStatus() returns (ok: bool)
      requires Valid()
      modifies `targets, `pods
      ensures Valid() && Moves(membership, old(targets), targets)
      ensures calm ==> ok && Now() == old(Now())
    {
      WorldMoves();
      var fails := CallFails();
      return !fails;
    }

    method GetClusterMap() returns (m: Option<NodeMap>)
      requires Valid()
      modifies `targets, `pods, `log, `steps
      ensures Valid() && old(steps) <= steps && Moves(membership, old(targets), targets)
      ensures m.Some? ==> m.value == targets && log == old(log) + [ReadMap(targets)]
      ensures m.None? ==> log == old(log)
      ensures calm ==> m.Some? && Now() == old(Now())
    {
      WorldMoves();
      var fails := CallFails();
      if fails {
        return None;
      }
      TraceGrows(membership, origin, log, steps, Now(), ReadMap(targets), Now());
      log, steps := log + [ReadMap(targets)], steps + [Step(Now(), Now())];
      return Some(targets);
    }

    /** A pod that does not exist is a result, not a failure. */
    method GetPod(podName: string) returns (pod: Option<Pod>, ok: bool)
      requires Valid()
      modifies `targets, `pods, `log, `steps
      ensures Valid() && old(steps) <= steps && Moves(membership, old(targets), targets)
      ensures log == if ok then old(log) + [ReadPod(podName, pod)] else old(log)
      ensures calm ==> ok && pod == Lookup(pods, podName) && Now() == old(Now())
    {
      WorldMoves();
      var fails := CallFails();
      ok := !fails;
      pod := Lookup(pods, podName);
      if ok {
        TraceGrows(membership, origin, log, steps, Now(), ReadPod(podName, pod), Now());
        log, steps := log + [ReadPod(podName, pod)], steps + [Step(Now(), Now())];
      }
    }

    /** The cached read of the StatefulSet, of which only the spec is used. */
    method GetStatefulSet() returns (size: Option<nat>)
      requires Valid()
      modifies `targets, `pods
      ensures Valid() && Moves(membership, old(targets), targets)
      ensures size.Some? ==> size.value == replicas
      ensures calm ==> size.Some? && Now() == old(Now())
    {
      WorldMoves();
      var fails := CallFails();
      return if fails then None else Some(replicas);
    }

    /** Reads the StatefulSet past the cache; the spec is the operator's own, the status whatever it is. */
    method GetStatefulSetDirect() returns (ss: Option<StatefulSet>)
      requires Valid()
      modifies `targets, `pods, `log, `steps
      ensures Valid() && old(steps) <= steps && Moves(membership, old(targets), targets)
      ensures ss.Some? ==> ss.value.replicas == replicas && log == old(log) + [FreshRead(ss.value)]
      ensures ss.None? ==> log == old(log)
      ensures calm ==> ss.Some? && Now() == old(Now())
    {
      WorldMoves();
      var fails := CallFails();
      if fails {
        return None;
      }
      var any: StatefulSet := *;
      any := any.(replicas := replicas);
      TraceGrows(membership, origin, log, steps, Now(), FreshRead(any), Now());
      log, steps := log + [FreshRead(any)], steps + [Step(Now(), Now())];
      return Some(any);
    }

    /** What a call that marks a node leaves behind. */
    twostate predicate Marks(id: string, flag: Flag, e: Event, ok: bool)
      reads this
    {
      && old(steps) <= steps
      && (log == old(log) ==> !ok && Moves(membership, old(targets), targets))
      && (log != old(log) ==>
            && log == old(log) + [e] && |steps| > 0
            && Moves(membership, old(targets), steps[|steps| - 1].before.targets)
            && targets == Flagged(steps[|steps| - 1].before.targets, id, flag))
      && (calm ==> ok && Now() == old(Now()).(targets := Flagged(old(targets), id, flag)))
    }

    /** A node that is told to leave starts leaving; a call that errs may have had that effect too. */
    method DecommissionNode(id: string, rmUserData: bool) returns (ok: bool)
      requires Valid()
      modifies `targets, `pods, `log, `steps
      ensures Valid() && Marks(id, Decomm, Decommissioned(id, rmUserData), ok)
    {
      WorldMoves();
      var fails := CallFails();
      var lost: bool := *;
      if fails && lost {
        return false;
      }
      ghost var was := Now();
      targets := Flagged(targets, id, Decomm);
      TraceGrows(membership, origin, log, steps, was, Decommissioned(id, rmUserData), Now());
      log, steps := log + [Decommissioned(id, rmUserData)], steps + [Step(was, Now())];
      return !fails;
    }

    method StartMaintenance(id: string) returns (ok: bool)
      requires Valid()
      modifies `targets, `pods, `log, `steps
      ensures Valid() && Marks(id, Maint, Maintained(id), ok)
    {
      WorldMoves();
      var fails := CallFails();
      var lost: bool := *;
      if fails && lost {
        return false;
      }
      ghost var was := Now();
      targets := Flagged(targets, id, Maint);
      TraceGrows(membership, origin, log, steps, was, Maintained(id), Now());
      log, steps := log + [Maintained(id)], steps + [Step(was, Now())];
      return !fails;
    }

    method SetClusterConfig(conf: Config) returns (ok: bool)
      requires Valid() && conf.rebalance.Some?
      modifies `targets, `pods, `rebalance, `log, `steps
      ensures Valid() && old(steps) <= steps && Moves(membership, old(targets), targets)
      ensures log == old(log) ==> !ok && rebalance == old(rebalance)
      ensures log != old(log) ==>
                log == old(log) + [PushedConfig(conf.rebalance.value)] && rebalance == conf.rebalance.value
      ensures calm ==> ok && Now() == old(Now()).(rebalance := rebalance)
    {
      WorldMoves();
      var fails := CallFails();
      var lost: bool := *;
      if fails && lost {
        return false;
      }
      ghost var was := Now();
      rebalance := conf.rebalance.value;
      TraceGrows(membership, origin, log, steps, was, PushedConfig(rebalance), Now());
      log, steps := log + [PushedConfig(rebalance)], steps + [Step(was, Now())];
      return !fails;
    }

    /** Pushes the config for the present rebalance condition, then records its hash on the CR. */
    method HandleConfigState() returns (ok: bool)
      requires Valid()
      modifies `targets, `pods, `rebalance, `log, `steps
      ensures Valid() && old(steps) <= steps && Moves(membership, old(targets), targets)
      ensures log == old(log) || log == old(log) + [PushedConfig(EffectiveRebalance(readyRebalance, spec.config))]
      ensures log == old(log) ==> !ok && rebalance == old(rebalance)
      ensures log != old(log) ==> rebalance == EffectiveRebalance(readyRebalance, spec.config)
      ensures calm ==> ok && Now() == old(Now()).(rebalance := rebalance)
    {
      var conf := GenerateConfigToSet(spec.config, readyRebalance);
      ok := SetClusterConfig(conf);
      if ok {
        ghost var pushed := targets;
        ok := PatchStatus();
        MovesCompose(membership, old(targets), pushed, targets);
      }
    }

    method EnableRebalanceCondition() returns (ok: bool)
      requires Valid()
      modifies `targets, `pods, `readyRebalance
      ensures Valid() && Moves(membership, old(targets), targets)
      ensures ok ==> readyRebalance
      ensures calm ==> ok && Now() == old(Now())
    {
      if readyRebalance {
        MovesNowhere(membership, targets);
        return true;
      }
      readyRebalance := true;
      ok := PatchStatus();
    }

    method DisableRebalance() returns (ok: bool)
      requires Valid()
      modifies `targets, `pods, `rebalance, `log, `steps, `readyRebalance
      ensures Valid() && old(steps) <= steps && Moves(membership, old(targets), targets)
      ensures !readyRebalance
      ensures log == old(log) || log == old(log) + [PushedConfig(false)]
      ensures ok ==> log == old(log) + [PushedConfig(false)] && !rebalance
      ensures calm ==> ok && Now() == old(Now()).(rebalance := rebalance)
    {
      readyRebalance := false;
      ok := PatchStatus();
      if ok {
        ghost var patched := targets;
        ok := HandleConfigState();
        MovesCompose(membership, old(targets), patched, targets);
      }
    }

    method UpdateStatefulSetReplicas(size: nat) returns (ok: bool)
      requires Valid()
      modifies `targets, `pods, `log, `steps, `replicas
      ensures Valid() && old(steps) <= steps && Moves(membership, old(targets), targets)
      ensures replicas == old(replicas) || replicas == size
      ensures ok ==> replicas == size
      ensures log == if replicas == old(replicas) then old(log) else old(log) + [ReplicasSet(old(replicas), replicas)]
      ensures calm ==> ok && Now() == old(Now()).(replicas := replicas)
    {
      WorldMoves();
      var fails := CallFails();
      var lost: bool := *;
      if replicas == size || (fails && lost) {
        return !fails;
      }
      ghost var was := Now();
      var e := ReplicasSet(replicas, size);
      replicas := size;
      TraceGrows(membership, origin, log, steps, was, e, Now());
      log, steps := log + [e], steps + [Step(was, Now())];
      return !fails;
    }

    /** Creates or deletes the load balancer of one ordinal. */
    method WriteService(i: nat, wanted: bool) returns (ok: bool)
      requires Valid()
      modifies `targets, `pods, `log, `steps, `services
      ensures Valid() && old(steps) <= steps && Moves(membership, old(targets), targets)
      ensures log == old(log) || log == old(log) + [if wanted then ServiceApplied(i) else ServiceDeleted(i)]
      ensures log == old(log) ==> !ok && services == old(services)
      ensures log != old(log) ==> services == if wanted then old(services) + {i} else old(services) - {i}
      ensures calm ==> ok && Now() == old(Now()).(services := services)
    {
      WorldMoves();
      var fails := CallFails();
      var lost: bool := *;
      if fails && lost {
        return false;
      }
      ghost var was := Now();
      var e := if wanted then ServiceApplied(i) else ServiceDeleted(i);
      services := if wanted then services + {i} else services - {i};
      TraceGrows(membership, origin, log, steps, was, e, Now());
      log, steps := log + [e], steps + [Step(was, Now())];
      return !fails;
    }

    // ------------------------------------------------------- load balancers

    /** Gives every wanted ordinal a load balancer. */
    method ScaleUpLB() returns (ok: bool)
      requires Valid()
      modifies `targets, `pods, `log, `steps, `services
      ensures Valid() && old(steps) <= steps && old(log) <= log && Moves(membership, old(targets), targets)
      ensures forall k :: |old(log)| <= k < |log| ==> log[k].ServiceApplied? && log[k].ordinal < spec.size
      ensures !spec.externalAccess ==> ok && log == old(log) && Now() == old(Now())
      ensures forall i :: i in services ==> i in old(services) || i < spec.size
      ensures old(services) <= services
      ensures ok && spec.externalAccess ==> forall i :: 0 <= i < spec.size ==> i in services
      ensures calm ==> ok && Now() == old(Now()).(services := services)
    {
      MovesNowhere(membership, targets);
      if !spec.externalAccess {
        return true;
      }
      for i := 0 to spec.size
        invariant Valid() && old(steps) <= steps && old(log) <= log && Moves(membership, old(targets), targets)
        invariant forall k :: |old(log)| <= k < |log| ==> log[k].ServiceApplied? && log[k].ordinal < spec.size
        invariant forall j :: j in services <==> j in old(services) || 0 <= j < i
        invariant calm ==> Now() == old(Now()).(services := services)
      {
        ghost var were := targets;
        ok := WriteService(i, true);
        MovesCompose(membership, old(targets), were, targets);
        if !ok {
          return;
        }
      }
      return true;
    }

    /** Deletes the load balancers of the removed ordinals, highest first. */
    method ScaleDownLB(c: nat) returns (ok: bool)
      requires Valid() && spec.size <= c
      modifies `targets, `pods, `log, `steps, `services
      ensures Valid() && old(steps) <= steps && old(log) <= log && Moves(membership, old(targets), targets)
      ensures forall k :: |old(log)| <= k < |log| ==> log[k].ServiceDeleted? && spec.size <= log[k].ordinal < c
      ensures !spec.externalAccess ==> ok && log == old(log) && Now() == old(Now())
      ensures services <= old(services)
      ensures forall i :: i in old(services) && i !in services ==> spec.size <= i < c
      ensures ok && spec.externalAccess ==> forall i :: spec.size <= i < c ==> i !in services
      ensures calm ==> ok && Now() == old(Now()).(services := services)
    {
      MovesNowhere(membership, targets);
      if !spec.externalAccess {
        return true;
      }
      var idx := c;
      while idx > spec.size
        invariant spec.size <= idx <= c
        invariant Valid() && old(steps) <= steps && old(log) <= log && Moves(membership, old(targets), targets)
        invariant forall k :: |old(log)| <= k < |log| ==> log[k].ServiceDeleted? && spec.size <= log[k].ordinal < c
        invariant forall j :: j in services <==> j in old(services) && !(idx <= j < c)
        invariant calm ==> Now() == old(Now()).(services := services)
      {
        ghost var were := targets;
        ok := WriteService(idx - 1, false);
        MovesCompose(membership, old(targets), were, targets);
        if !ok {
          return;
        }
        idx := idx - 1;
      }
      return true;
    }

    // ------------------------------------------------------------- the pass

    /** What is known of the removed ordinals from `lo` up once they have been dealt with. */
    ghost predicate Trail(m1: NodeMap, lo: nat, c: nat)
      reads `targets
    {
      TrailTo(m1, targets, lo, c)
    }

    ghost predicate TrailTo(m1: NodeMap, now: NodeMap, lo: nat, c: nat) {
      TrailHolds(membership, calm, m1, now, base, lo, c, spec.mode)
    }

    /** Membership moved and at most the decommissioning of `told` was added: what was known still is. */
    lemma TrailAfter(m1: NodeMap, was: NodeMap, mid: NodeMap, now: NodeMap, lo: nat, c: nat, told: Option<string>)
      requires !membership.Open?
      requires CameFrom(m1, was) && AllTold(m1, was, base, lo, c) && (membership.Steady? ==> MaintKept(m1, was))
      requires Moves(membership, was, mid)
      requires now == if told.Some? then Flagged(mid, told.value, Decomm) else mid
      requires told.Some? ==> told.value in m1 && m1[told.value].flag != Maint
      ensures CameFrom(m1, now) && AllTold(m1, now, base, lo, c) && (membership.Steady? ==> MaintKept(m1, now))
    {
      TrailMoves(membership, m1, was, mid, base, lo, c);
      if told.Some? && told.value in mid {
        TrailTold(m1, mid, told.value, base, lo, c);
      }
    }

    lemma TrailSkips(m1: NodeMap, idx: nat, c: nat, id: string)
      requires idx < c && Trail(m1, idx + 1, c) && Serves(m1, id, PodName(base, idx)) && m1[id].flag != Active
      ensures Trail(m1, idx, c)
    {
      if OneNodePerPod(m1, base) {
        ToldNext(m1, base, idx, c, spec.mode, id);
        ToldIs(m1, targets, base, idx + 1, c, spec.mode);
        ToldIs(m1, targets, base, idx, c, spec.mode);
      }
    }

    /** The ordinal holds up the scale-down: its pod may yet bring its node into the map. */
    ghost predicate Blocks(m: NodeMap, pods: map<string, Pod>, i: nat) {
      var podName := PodName(base, i);
      !Present(m, podName) && !Excused(ReadPod(podName, Lookup(pods, podName)), podName)
    }

    ghost predicate OnlyGoodRemovals(events: seq<Event>, from: nat, m1: NodeMap, c: nat) {
      OnlyRemovals(events, from, m1, base, spec.size, c, spec.mode)
    }

    lemma RemovalsGrow(was: seq<Event>, now: seq<Event>, from: nat, m1: NodeMap, c: nat)
      requires was <= now && OnlyGoodRemovals(was, from, m1, c) && OnlyGoodRemovals(now, |was|, m1, c)
      ensures OnlyGoodRemovals(now, from, m1, c)
    {
      forall k | from <= k < |now|
        ensures now[k].ReadPod? || now[k].Decommissioned? || now[k].Maintained?
        ensures GoodRemoval(now[k], m1, base, spec.size, c, spec.mode)
      {
        assert k < |was| ==> now[k] == was[k];
      }
    }

    /** Deals with one removed ordinal. */
    method PrepareTarget(m1: NodeMap, idx: nat, c: nat) returns (ok: bool)
      requires Valid() && spec.size <= idx < c && Trail(m1, idx + 1, c)
      modifies `targets, `pods, `log, `steps
      ensures Valid() && old(log) <= log && old(steps) <= steps
      ensures OnlyGoodRemovals(log, |old(log)|, m1, c)
      ensures ok ==> DealtWith(log[|old(log)|..], m1, base, idx, spec.mode) && Trail(m1, idx, c)
      ensures calm ==> pods == old(pods) && (ok <==> !Blocks(m1, old(pods), idx))
    {
      var podName := PodName(base, idx);
      var node := FindAISNodeByPodName(m1, podName);
      if node.None? {
        ok := SkipTarget(m1, idx, c);
        return;
      }
      var id := node.value;
      assert ServesRemoved(m1, id, base, spec.size, c);
      if InMaintOrDecomm(m1[id]) {
        TrailSkips(m1, idx, c, id);
        return true;
      }
      ok := RemoveTarget(m1, idx, c, id);
    }

    /** An ordinal without a node is skipped if its pod is missing or cannot come up. */
    method SkipTarget(m1: NodeMap, idx: nat, c: nat) returns (ok: bool)
      requires Valid() && spec.size <= idx < c && Trail(m1, idx + 1, c) && !Present(m1, PodName(base, idx))
      modifies `targets, `pods, `log, `steps
      ensures Valid() && old(log) <= log && old(steps) <= steps
      ensures forall k :: |old(log)| <= k < |log| ==> log[k].ReadPod?
      ensures ok ==> DealtWith(log[|old(log)|..], m1, base, idx, spec.mode) && Trail(m1, idx, c)
      ensures calm ==> pods == old(pods) && (ok <==> !Blocks(m1, old(pods), idx))
    {
      var podName := PodName(base, idx);
      var pod, got := GetPod(podName);
      if !got || !(pod.None? || pod.value.unschedulable || pod.value.crashLoop) {
        return false;
      }
      assert log[|old(log)|..] == [ReadPod(podName, pod)];
      assert Excused(log[|old(log)|..][0], podName);
      if !membership.Open? && !spec.mode.Retain? && OneNodePerPod(m1, base) {
        TrailAfter(m1, old(targets), targets, targets, idx + 1, c, None);
      }
      ToldSkips(m1, base, idx, c, spec.mode);
      ToldIs(m1, targets, base, idx + 1, c, spec.mode);
      ToldIs(m1, targets, base, idx, c, spec.mode);
      return true;
    }

    method RemoveTarget(m1: NodeMap, idx: nat, c: nat, id: string) returns (ok: bool)
      requires Valid() && spec.size <= idx < c && Trail(m1, idx + 1, c)
      requires Serves(m1, id, PodName(base, idx)) && m1[id].flag == Active
      modifies `targets, `pods, `log, `steps
      ensures Valid() && old(log) <= log && old(steps) <= steps
      ensures log == old(log) || log == old(log) + [RemovalOf(id, spec.mode)]
      ensures ok ==> DealtWith(log[|old(log)|..], m1, base, idx, spec.mode) && Trail(m1, idx, c)
      ensures calm ==> ok && pods == old(pods)
    {
      if spec.mode.Retain? {
        ok := StartMaintenance(id);
      } else {
        ok := DecommissionNode(id, !spec.mode.SafeDecommission?);
      }
      if ok {
        assert log[|old(log)|..] == [RemovalOf(id, spec.mode)];
        TrailRemoves(m1, old(targets), steps[|steps| - 1].before.targets, idx, c, id);
      }
    }

    lemma TrailRemoves(m1: NodeMap, was: NodeMap, mid: NodeMap, idx: nat, c: nat, id: string)
      requires idx < c && Serves(m1, id, PodName(base, idx)) && m1[id].flag == Active
      requires TrailTo(m1, was, idx + 1, c)
      requires Moves(membership, was, mid) && targets == Flagged(mid, id, RemovalFlag(spec.mode))
      requires calm ==> targets == Flagged(was, id, RemovalFlag(spec.mode))
      ensures Trail(m1, idx, c)
    {
      if !membership.Open? && !spec.mode.Retain? && OneNodePerPod(m1, base) {
        TrailAfter(m1, was, mid, targets, idx + 1, c, Some(id));
      }
      if OneNodePerPod(m1, base) {
        ToldNext(m1, base, idx, c, spec.mode, id);
        ToldIs(m1, was, base, idx + 1, c, spec.mode);
        ToldIs(m1, targets, base, idx, c, spec.mode);
      }
    }

    lemma DealtWithGrows(events: seq<Event>, more: seq<Event>, m1: NodeMap, i: nat)
      requires DealtWith(events, m1, base, i, spec.mode)
      ensures DealtWith(events + more, m1, base, i, spec.mode)
    {
    }

    /** Reads the map once and deals with the removed ordinals. */
    method PrepareTargetsForScaleDown(c: nat) returns (ok: bool, ghost m1: NodeMap)
      requires Valid() && spec.size <= c
      modifies `targets, `pods, `log, `steps
      ensures Valid() && old(steps) <= steps
      ensures (log == old(log) && !ok) || old(log) + [ReadMap(m1)] <= log
      ensures log != old(log) ==> Moves(membership, old(targets), m1)
      ensures OnlyGoodRemovals(log, |old(log)| + 1, m1, c)
      ensures ok ==> AllDealtWith(log[|old(log)|..], m1, spec.size, c) && Trail(m1, spec.size, c)
      ensures calm ==> m1 == old(targets) && (ok <==> NoneBlocks(m1, old(pods), spec.size, c))
    {
      m1 := map[];
      var smap := GetClusterMap();
      if smap.None? {
        return false, m1;
      }
      m1 := smap.value;
      ghost var reading := log;
      ok := PrepareEach(smap.value, c);
      if ok {
        assert log[|old(log)|..] == [ReadMap(m1)] + log[|reading|..];
        AllDealtInSuffix([ReadMap(m1)], log[|reading|..], m1, spec.size, c);
      }
    }

    /** Deals with one more ordinal, the next below those dealt with since the log had length `start`. */
    method PrepareNext(m1: NodeMap, idx: nat, c: nat, ghost start: nat, ghost was: map<string, Pod>) returns (ok: bool)
      requires Valid() && spec.size < idx <= c && start <= |log| && Trail(m1, idx, c)
      requires OnlyGoodRemovals(log, start, m1, c) && AllDealtWith(log[start..], m1, idx, c)
      requires calm ==> pods == was && NoneBlocks(m1, was, idx, c)
      modifies `targets, `pods, `log, `steps
      ensures Valid() && old(steps) <= steps && old(log) <= log
      ensures OnlyGoodRemovals(log, start, m1, c)
      ensures ok ==> AllDealtWith(log[start..], m1, idx - 1, c) && Trail(m1, idx - 1, c)
      ensures calm && ok ==> pods == was && NoneBlocks(m1, was, idx - 1, c)
      ensures calm && !ok ==> !NoneBlocks(m1, was, spec.size, c)
    {
      ghost var before := log;
      BlocksNext(m1, was, idx - 1, c);
      ok := PrepareTarget(m1, idx - 1, c);
      RemovalsGrow(before, log, start, m1, c);
      if ok {
        DealtOnceMore(before, start, m1, idx - 1, c);
      }
    }

    /** Highest ordinal first. */
    method PrepareEach(m1: NodeMap, c: nat) returns (ok: bool)
      requires Valid() && spec.size <= c && targets == m1
      modifies `targets, `pods, `log, `steps
      ensures Valid() && old(steps) <= steps && old(log) <= log
      ensures OnlyGoodRemovals(log, |old(log)|, m1, c)
      ensures ok ==> AllDealtWith(log[|old(log)|..], m1, spec.size, c) && Trail(m1, spec.size, c)
      ensures calm ==> (ok <==> NoneBlocks(m1, old(pods), spec.size, c))
    {
      TrailBegins(m1, c);
      var idx := c;
      while idx > spec.size
        invariant spec.size <= idx <= c
        invariant Valid() && old(steps) <= steps && old(log) <= log
        invariant OnlyGoodRemovals(log, |old(log)|, m1, c)
        invariant AllDealtWith(log[|old(log)|..], m1, idx, c)
        invariant TrailTo(m1, targets, idx, c)
        invariant calm ==> pods == old(pods) && NoneBlocks(m1, old(pods), idx, c)
      {
        ok := PrepareNext(m1, idx, c, |old(log)|, old(pods));
        if !ok {
          return;
        }
        idx := idx - 1;
      }
      ok := true;
    }

    ghost predicate NoneBlocks(m: NodeMap, pods: map<string, Pod>, lo: nat, c: nat) {
      forall i: nat :: lo <= i < c ==> !Blocks(m, pods, i)
    }

    lemma BlocksNext(m: NodeMap, pods: map<string, Pod>, i: nat, c: nat)
      requires i < c
      ensures NoneBlocks(m, pods, i, c) <==> NoneBlocks(m, pods, i + 1, c) && !Blocks(m, pods, i)
      ensures spec.size <= i && Blocks(m, pods, i) ==> !NoneBlocks(m, pods, spec.size, c)
    {
    }

    ghost predicate AllDealtWith(events: seq<Event>, m1: NodeMap, lo: nat, c: nat) {
      RangeDealtWith(events, m1, base, lo, c, spec.mode)
    }

    lemma TrailBegins(m1: NodeMap, c: nat)
      requires targets == m1
      ensures Trail(m1, c, c)
    {
      NoneTold(m1, base, c, spec.mode);
      ToldIs(m1, m1, base, c, c, spec.mode);
    }

    lemma DealtOnceMore(was: seq<Event>, start: nat, m1: NodeMap, idx: nat, c: nat)
      requires start <= |was| && was <= log
      requires AllDealtWith(was[start..], m1, idx + 1, c)
      requires DealtWith(log[|was|..], m1, base, idx, spec.mode)
      ensures AllDealtWith(log[start..], m1, idx, c)
    {
      var more := log[|was|..];
      assert log[start..] == was[start..] + more;
      forall i: nat | idx <= i < c ensures DealtWith(log[start..], m1, base, i, spec.mode) {
        if i > idx {
          DealtWithGrows(was[start..], more, m1, i);
        } else {
          DealtInSuffix(was[start..], more, m1, i);
        }
      }
    }

    lemma DealtInSuffix(events: seq<Event>, more: seq<Event>, m1: NodeMap, i: nat)
      requires DealtWith(more, m1, base, i, spec.mode)
      ensures DealtWith(events + more, m1, base, i, spec.mode)
    {
    }

    lemma AllDealtInSuffix(events: seq<Event>, more: seq<Event>, m1: NodeMap, lo: nat, c: nat)
      requires AllDealtWith(more, m1, lo, c)
      ensures AllDealtWith(events + more, m1, lo, c)
    {
      forall i: nat | lo <= i < c ensures DealtWith(events + more, m1, base, i, spec.mode) {
        DealtInSuffix(events, more, m1, i);
      }
    }

    /** Load balancers go only with removed ordinals, and come only with wanted ones. */
    ghost predicate ServicesFollow(were: set<nat>, c: nat)
      reads `services
    {
      if c < spec.size then were <= services && forall i :: i in services ==> i in were || i < spec.size
      else services <= were && forall i :: i in were && i !in services ==> spec.size <= i < c
    }

    /** What comes before the nodes: rebalance, if data has to move, and the load balancers. */
    method BeginScaleDown() returns (ok: bool)
      requires Valid() && spec.size <= replicas
      modifies `targets, `pods, `rebalance, `log, `steps, `readyRebalance, `services
      ensures Valid() && old(log) <= log && old(steps) <= steps && Moves(membership, old(targets), targets)
      ensures ServicesFollow(old(services), replicas)
      ensures ok && spec.externalAccess ==> forall i :: spec.size <= i < replicas ==> i !in services
      ensures Begun(old(log), log, ok)
      ensures calm ==> ok && targets == old(targets) && pods == old(pods)
    {
      ok := true;
      MovesNowhere(membership, targets);
      if !spec.mode.Retain? {
        ok := EnableRebalanceCondition();
        if !ok {
          return;
        }
        ghost var enabled := targets;
        ok := HandleConfigState();
        MovesCompose(membership, old(targets), enabled, targets);
        if !ok {
          return;
        }
      }
      ghost var pushed := targets;
      ok := ScaleDownLB(replicas);
      MovesCompose(membership, old(targets), pushed, targets);
    }

    method StartScaleDown() returns (ok: bool, ghost m1: NodeMap)
      requires Valid() && spec.size <= replicas
      modifies `targets, `pods, `rebalance, `log, `steps, `readyRebalance, `services
      ensures Valid() && old(log) <= log && old(steps) <= steps
      ensures ServicesFollow(old(services), replicas)
      ensures GoodPass(log, |old(log)|, m1, replicas)
      ensures forall k :: |old(log)| <= k < |log| ==> !log[k].ReplicasSet?
      ensures ok ==>
                && Trail(m1, spec.size, replicas) && Moves(membership, old(targets), m1)
                && ReadMap(m1) in log[|old(log)|..]
                && AllDealtWith(log[|old(log)|..], m1, spec.size, replicas)
                && (spec.externalAccess ==> forall i :: spec.size <= i < replicas ==> i !in services)
      ensures calm ==> m1 == old(targets) && (ok <==> NoneBlocks(m1, old(pods), spec.size, replicas))
    {
      m1 := map[];
      ok := BeginScaleDown();
      if ok {
        ghost var begun, there := log, targets;
        ok, m1 := PrepareTargetsForScaleDown(replicas);
        StartedWell(old(log), begun, log, m1, ok);
        if ok {
          MovesCompose(membership, old(targets), there, m1);
        }
      }
    }

    lemma StartedWell(was: seq<Event>, begun: seq<Event>, now: seq<Event>, m1: NodeMap, ok: bool)
      requires Begun(was, begun, true)
      requires (now == begun && !ok) || begun + [ReadMap(m1)] <= now
      requires OnlyGoodRemovals(now, |begun| + 1, m1, replicas)
      requires ok ==> AllDealtWith(now[|begun|..], m1, spec.size, replicas)
      ensures was <= now && GoodPass(now, |was|, m1, replicas)
      ensures forall k :: |was| <= k < |now| ==> !now[k].ReplicasSet?
      ensures ok ==> ReadMap(m1) in now[|was|..] && AllDealtWith(now[|was|..], m1, spec.size, replicas)
    {
      BegunAndPrepared(was, begun, now, m1);
      if ok {
        assert now[|begun|] == (begun + [ReadMap(m1)])[|begun|];
        assert now[|begun|..][0] == ReadMap(m1);
        StartedAfter(begun, now, |was|, m1, replicas);
      }
    }

    /** Starts a scaling. Decommissioning is preceded by a forced push that restores the spec's rebalance value. */
    method StartTargetScaling() returns (ok: bool, ghost m1: NodeMap)
      requires Valid()
      modifies `targets, `pods, `rebalance, `log, `steps, `readyRebalance, `services
      ensures Valid() && old(log) <= log && old(steps) <= steps
      ensures ServicesFollow(old(services), replicas)
      ensures GoodPass(log, |old(log)|, m1, replicas)
      ensures forall k :: |old(log)| <= k < |log| ==> !log[k].ReplicasSet?
      ensures replicas < spec.size ==> readyRebalance == old(readyRebalance)
      ensures replicas < spec.size && ok && spec.externalAccess ==> forall i :: 0 <= i < spec.size ==> i in services
      ensures ok && replicas >= spec.size ==>
                && Trail(m1, spec.size, replicas) && Moves(membership, old(targets), m1)
                && ReadMap(m1) in log[|old(log)|..]
                && AllDealtWith(log[|old(log)|..], m1, spec.size, replicas)
                && (spec.externalAccess ==> forall i :: spec.size <= i < replicas ==> i !in services)
      ensures calm && replicas < spec.size ==> ok
      ensures calm && replicas >= spec.size ==>
                m1 == old(targets) && (ok <==> NoneBlocks(m1, old(pods), spec.size, replicas))
    {
      m1 := map[];
      if replicas < spec.size {
        ok := ScaleUpLB();
        return ok, m1;
      }
      ok, m1 := StartScaleDown();
    }

    ghost predicate Begun(was: seq<Event>, now: seq<Event>, ok: bool)
      reads `replicas
    {
      && was <= now
      && (forall k :: |was| <= k < |now| ==>
            now[k].PushedConfig? || (now[k].ServiceDeleted? && spec.size <= now[k].ordinal < replicas))
      && (forall k :: |was| < k < |now| ==> !now[k].PushedConfig?)
      && (ok && !spec.mode.Retain? ==> |now| > |was| && now[|was|] == PushedConfig(RebalanceEnabled(spec.config)))
    }

    lemma BegunAndPrepared(was: seq<Event>, begun: seq<Event>, now: seq<Event>, m1: NodeMap)
      requires Begun(was, begun, true)
      requires now == begun || begun + [ReadMap(m1)] <= now
      requires OnlyGoodRemovals(now, |begun| + 1, m1, replicas)
      ensures GoodPass(now, |was|, m1, replicas)
      ensures forall k :: |was| <= k < |now| ==> !now[k].ReplicasSet?
    {
      forall k | |was| <= k < |now| ensures GoodPassEvent(now, |was|, k, m1, replicas) && !now[k].ReplicasSet? {
        assert k < |begun| ==> now[k] == begun[k];
        assert k == |begun| ==> now[k] == (begun + [ReadMap(m1)])[k];
        if now[k].Decommissioned? || now[k].Maintained? {
          assert |begun| < k && now[|begun|] == (begun + [ReadMap(m1)])[|begun|];
          if now[k].Decommissioned? {
            BegunPush(was, begun, now, k);
          }
        }
      }
    }

    lemma BegunPush(was: seq<Event>, begun: seq<Event>, now: seq<Event>, k: nat)
      requires Begun(was, begun, true) && !spec.mode.Retain? && begun <= now
      requires |begun| <= k < |now| && forall q :: |begun| <= q < k ==> !now[q].PushedConfig?
      ensures PushedBefore(now, |was|, k, RebalanceEnabled(spec.config))
    {
      assert now[|was|] == begun[|was|];
      forall q | |was| < q < k ensures !now[q].PushedConfig? {
        assert q < |begun| ==> now[q] == begun[q];
      }
    }

    ghost predicate ReadyIn(m2: NodeMap, c: nat) {
      if spec.mode.Retain? then RemovedInMaintOrAbsent(m2, base, spec.size, c)
      else !AnyDecommissioning(m2) && |m2| != c
    }

    method IsReadyToScaleDown(c: nat) returns (ready: bool, ok: bool, ghost m2: NodeMap)
      requires Valid()
      modifies `targets, `pods, `log, `steps
      ensures Valid() && old(steps) <= steps && Moves(membership, old(targets), targets)
      ensures ok ==> m2 == targets && log == old(log) + [ReadMap(m2)]
      ensures !ok ==> !ready && log == old(log)
      ensures ready ==> ReadyIn(m2, c)
      ensures ok && OneNodePerPod(m2, base) ==> (ready <==> ReadyIn(m2, c))
      ensures ok && !spec.mode.Retain? ==> (ready <==> ReadyIn(m2, c))
      ensures calm ==> ok && Now() == old(Now())
    {
      m2 := map[];
      var smap := GetClusterMap();
      if smap.None? {
        return false, false, m2;
      }
      m2 := smap.value;
      if spec.mode.Retain? {
        ready := IsReadyToScaleDownRetain(smap.value, base, spec.size, c);
      } else {
        ready := IsReadyToScaleDownDecommission(smap.value, c);
      }
      return ready, true, m2;
    }

    /** Changes the replica count if nothing stands against it. */
    method ResolveStatefulSetScaling() returns (ok: bool, ghost m2: NodeMap)
      requires Valid()
      modifies `targets, `pods, `rebalance, `log, `steps, `replicas, `readyRebalance
      ensures Valid() && old(log) <= log && old(steps) <= steps
      ensures forall k :: |old(log)| <= k < |log| ==> IsPreparation(log[k]) || log[k].ReadMap? || log[k].ReplicasSet?
      ensures replicas == old(replicas) || replicas == spec.size
      ensures old(replicas) < replicas ==> Grown(log, |old(log)|, old(replicas))
      ensures replicas < old(replicas) ==>
                && log == old(log) + [ReadMap(m2), ReplicasSet(old(replicas), spec.size)]
                && ReadyIn(m2, old(replicas)) && Moves(membership, old(targets), m2) && Moves(membership, m2, targets)
      ensures ok && spec.size < old(replicas) && replicas == old(replicas) ==>
                && log == old(log) + [ReadMap(m2)]
                && (OneNodePerPod(m2, base) || !spec.mode.Retain? ==> !ReadyIn(m2, replicas))
      ensures ok && spec.size > old(replicas) ==> replicas == spec.size
      ensures calm ==> ok && targets == old(targets) && (spec.size < old(replicas) ==> m2 == targets)
    {
      m2 := map[];
      var current := GetStatefulSet();
      if current.None? {
        return false, m2;
      }
      ghost var got := targets;
      if spec.size > current.value {
        ok := GrowTo(current.value);
      } else if spec.size < current.value {
        ok, m2 := ShrinkFrom(current.value);
        if log != old(log) {
          MovesCompose(membership, old(targets), got, m2);
        }
      } else {
        ok := UpdateStatefulSetReplicas(spec.size);
      }
    }

    /** What growth by several targets is prepared with. */
    ghost predicate IsPreparation(e: Event) {
      e.FoundHealthy? || e.PushedConfig?
    }

    /** Growth was written last, and if several targets join a running cluster, right after it was found healthy and
        rebalance was pushed off. */
    ghost predicate Grown(events: seq<Event>, start: nat, c: nat)
      reads `readyRebalance, `rebalance
    {
      && |events| > start && events[|events| - 1] == ReplicasSet(c, spec.size)
      && (spec.size > c + 1 && c > 0 ==>
            && |events| > start + 2 && events[|events| - 3] == FoundHealthy
            && events[|events| - 2] == PushedConfig(false) && !readyRebalance && !rebalance)
    }

    method GrowTo(c: nat) returns (ok: bool)
      requires Valid() && c == replicas < spec.size
      modifies `targets, `pods, `rebalance, `log, `steps, `replicas, `readyRebalance
      ensures Valid() && old(log) <= log && old(steps) <= steps
      ensures forall k :: |old(log)| <= k < |log| ==> IsPreparation(log[k]) || log[k].ReplicasSet?
      ensures replicas == old(replicas) || replicas == spec.size
      ensures replicas != old(replicas) ==> Grown(log, |old(log)|, c)
      ensures ok ==> replicas == spec.size
      ensures calm ==> ok && targets == old(targets)
    {
      var several := spec.size > c + 1 && c > 0;
      if several {
        ok := QuietRebalance();
        if !ok {
          return;
        }
      }
      ok := UpdateStatefulSetReplicas(spec.size);
      assert several ==> log[|old(log)|] == FoundHealthy && log[|old(log)| + 1] == PushedConfig(false);
    }

    method ShrinkFrom(c: nat) returns (ok: bool, ghost m2: NodeMap)
      requires Valid() && c == replicas > spec.size
      modifies `targets, `pods, `log, `steps, `replicas
      ensures Valid() && old(log) <= log && old(steps) <= steps
      ensures replicas == old(replicas) || replicas == spec.size
      ensures !ok && log == old(log) ==> replicas == old(replicas)
      ensures log != old(log) ==> Moves(membership, old(targets), m2) && Moves(membership, m2, targets)
      ensures replicas != old(replicas) ==>
                log == old(log) + [ReadMap(m2), ReplicasSet(c, spec.size)] && ReadyIn(m2, c)
      ensures replicas == old(replicas) ==> log == old(log) || log == old(log) + [ReadMap(m2)]
      ensures ok && replicas == old(replicas) ==>
                log == old(log) + [ReadMap(m2)] && (OneNodePerPod(m2, base) || !spec.mode.Retain? ==> !ReadyIn(m2, c))
      ensures calm ==> ok && targets == old(targets) && m2 == targets
    {
      var ready;
      ready, ok, m2 := IsReadyToScaleDown(c);
      MovesNowhere(membership, targets);
      if ok && ready {
        ok := UpdateStatefulSetReplicas(spec.size);
      }
    }

    /** Rebalance must not start while several targets join: it is disabled once the cluster is found healthy. */
    method QuietRebalance() returns (ok: bool)
      requires Valid()
      modifies `targets, `pods, `rebalance, `log, `steps, `readyRebalance
      ensures Valid() && old(steps) <= steps && Moves(membership, old(targets), targets)
      ensures log <= old(log) + [FoundHealthy, PushedConfig(false)] && old(log) <= log
      ensures ok ==> log == old(log) + [FoundHealthy, PushedConfig(false)] && !readyRebalance && !rebalance
      ensures calm ==> ok && targets == old(targets)
    {
      ok := Health();
      if ok {
        ghost var healthy := targets;
        ok := DisableRebalance();
        MovesCompose(membership, old(targets), healthy, targets);
      }
    }

    /** Under autoscaling the pass checks a scale-down against a read that bypasses the cache. */
    method ConfirmScalingNeeded() returns (proceed: bool, ok: bool)
      requires Valid()
      modifies `targets, `pods, `log, `steps
      ensures Valid() && old(steps) <= steps && Moves(membership, old(targets), targets)
      ensures !spec.autoScaling || spec.size >= replicas ==> proceed && ok && log == old(log) && Now() == old(Now())
      ensures spec.autoScaling && spec.size < replicas && ok ==>
                && |log| == |old(log)| + 1 && old(log) <= log && log[|old(log)|].FreshRead?
                && (proceed <==> SettledAndDue(log[|old(log)|].ss))
      ensures !ok ==> !proceed && log == old(log)
      ensures calm ==> ok && Now() == old(Now())
    {
      MovesNowhere(membership, targets);
      if !spec.autoScaling || spec.size >= replicas {
        return true, true;
      }
      var direct := GetStatefulSetDirect();
      if direct.None? {
        return false, false;
      }
      return StatefulSetScalingNeeded(direct.value, spec.size, spec.maxUnavailable, spec.autoScaling), true;
    }

    /** The status is settled, and either every pod is ready or more are missing than the budget tolerates. */
    ghost predicate SettledAndDue(ss: StatefulSet) {
      var unavailable := ss.replicas - ss.status.readyReplicas;
      && !IsRolloutInProgress(ss) && !IsScalingInProgress(ss)
      && (unavailable == 0 || unavailable > spec.maxUnavailable)
    }

    ghost predicate PreparedAndResolved(events: seq<Event>, m1: NodeMap, m2: NodeMap, c: nat, now: nat) {
      && AllDealtWith(events, m1, spec.size, c)
      && (now == c ==> (OneNodePerPod(m2, base) || !spec.mode.Retain? ==> !ReadyIn(m2, c)))
    }

    /** When targets are retained, all the removed ones are in maintenance or gone. When they are decommissioned and
        no node joins meanwhile, only maintenance can keep one in the cluster. */
    ghost predicate RemovedSafely(was: NodeMap, m1: NodeMap, m2: NodeMap, c: nat)
      reads `targets
    {
      && (spec.mode.Retain? ==>
            && RemovedInMaintOrAbsent(m2, base, spec.size, c)
            && (membership.Steady? ==> RemovedInMaintOrAbsent(targets, base, spec.size, c)))
      && (!spec.mode.Retain? && !membership.Open? && OneNodePerPod(was, base) ==>
            && (NoneRemovedInMaint(m1, base, spec.size, c) ==> RemovedAbsent(targets, base, spec.size, c))
            && (membership.Steady? ==>
                  (RemovedAbsent(targets, base, spec.size, c) <==> NoneRemovedInMaint(was, base, spec.size, c))))
    }

    /** One scaling pass over the target StatefulSet. m1 and m2 are the maps its two parts worked from. */
    method HandleTargetScaling() returns (outcome: Outcome, ghost m1: NodeMap, ghost m2: NodeMap)
      requires Valid() && spec.size != replicas
      modifies `targets, `pods, `rebalance, `log, `steps, `replicas, `readyRebalance, `services
      ensures Valid() && old(log) <= log && old(steps) <= steps
      // Only the wanted size is ever set, and never twice.
      ensures replicas == old(replicas) || replicas == spec.size
      ensures outcome.Deferred? ==> replicas == old(replicas) && |log| == |old(log)| + 1
      // Nodes are only ever removed if the map read before shows them serving an ordinal that goes, and never if they
      // serve one that stays; the same for load balancers.
      // Before data has to move off a node, rebalance is what the spec says.
      ensures GoodPass(log, |old(log)|, m1, old(replicas))
      ensures forall k, j: nat ::
                |old(log)| <= k < |log| && j < spec.size && (log[k].Decommissioned? || log[k].Maintained?) ==>
                !Serves(m1, log[k].id, PodName(base, j))
      ensures ServicesFollow(old(services), old(replicas))
      // Before several targets join a running cluster, it is found healthy, and rebalance is off.
      ensures old(replicas) < replicas ==> Grown(log, |old(log)|, old(replicas))
      ensures old(replicas) < replicas && spec.externalAccess ==> forall i :: 0 <= i < replicas ==> i in services
      // The size is lowered only after every removed ordinal was dealt with, as the map read for it showed it ...
      ensures replicas < old(replicas) ==>
                && ReadMap(m1) in log[|old(log)|..] && Moves(membership, old(targets), m1)
                && AllDealtWith(log[|old(log)|..], m1, spec.size, old(replicas))
                && (spec.externalAccess ==> forall i :: spec.size <= i < old(replicas) ==> i !in services)
      // ... and on the strength of a second map, read right before.
      ensures replicas < old(replicas) ==>
                && |log| > |old(log)| + 1
                && log[|log| - 2..] == [ReadMap(m2), ReplicasSet(old(replicas), spec.size)]
                && Moves(membership, m2, targets)
      ensures replicas < old(replicas) ==> RemovedSafely(old(targets), m1, m2, old(replicas))
      // A pass that is not cut short does its part: growth is written; a reduction is prepared, and written unless the
      // map does not read ready yet; and it is put off only for the budget.
      ensures outcome.Requeue? && spec.size > old(replicas) ==> replicas == spec.size
      ensures outcome.Requeue? && spec.size < old(replicas) ==>
                PreparedAndResolved(log[|old(log)|..], m1, m2, old(replicas), replicas)
      ensures outcome.Deferred? ==> spec.autoScaling && log[|old(log)|].FreshRead? && !SettledAndDue(log[|old(log)|].ss)
      // An autoscaled set shrinks only on a fresh, settled status outside the unavailability budget.
      ensures replicas < old(replicas) && spec.autoScaling ==>
                |log| > |old(log)| && log[|old(log)|].FreshRead? && SettledAndDue(log[|old(log)|].ss)
      ensures calm && outcome.Deferred? ==> targets == old(targets)
      // In a calm cluster only a removed target that is still to come up stops the pass, and it does just this.
      ensures calm && spec.size > old(replicas) ==> outcome.Requeue?
      ensures calm && spec.size < old(replicas) && !outcome.Deferred? ==>
                (outcome.Requeue? <==> NoneBlocks(old(targets), old(pods), spec.size, old(replicas)))
      ensures calm && spec.size < old(replicas) && outcome.Requeue? && OneNodePerPod(old(targets), base) ==>
                && targets == Told(old(targets), base, spec.size, old(replicas), spec.mode)
                && (replicas == spec.size <==> ReadyIn(targets, old(replicas)))
    {
      var c := replicas;
      m2 := map[];
      ghost var start := |log|;
      var verdict;
      verdict, m1 := ConfirmAndStart();
      ghost var started, told := log, targets;
      if verdict.None? {
        var ok;
        ok, m2 := ResolveStatefulSetScaling();
        outcome := if ok then Requeue else Error;
        ResolvedAfter(started, log, start, m1, c);
        if replicas < c {
          ScaleDownIsSafe(old(targets), m1, told, m2, c);
        }
        if calm && OneNodePerPod(old(targets), base) && spec.size < c {
          ToldOnePerPod(old(targets), targets, base, spec.size, c, spec.mode);
        }
      } else {
        outcome := verdict.value;
      }
      KeptOrdinalsSpared(log, start, m1, c);
    }

    lemma ResolvedAfter(was: seq<Event>, now: seq<Event>, start: nat, m1: NodeMap, c: nat)
      requires start <= |was| && was <= now && GoodPass(was, start, m1, c)
      requires forall k :: |was| <= k < |now| ==> IsPreparation(now[k]) || now[k].ReadMap? || now[k].ReplicasSet?
      ensures GoodPass(now, start, m1, c)
      ensures AllDealtWith(was[start..], m1, spec.size, c) ==> AllDealtWith(now[start..], m1, spec.size, c)
      ensures ReadMap(m1) in was[start..] ==> ReadMap(m1) in now[start..]
    {
      GoodPassGrows(was, now, start, m1, c);
      assert now[start..] == was[start..] + now[|was|..];
      if AllDealtWith(was[start..], m1, spec.size, c) {
        AllDealtWithGrows(was[start..], now[|was|..], m1, c);
      }
      if ReadMap(m1) in was[start..] {
        InSuffixToo(ReadMap(m1), was, now, start);
      }
    }

    lemma InSuffixToo(e: Event, was: seq<Event>, now: seq<Event>, start: nat)
      requires start <= |was| && was <= now && e in was[start..]
      ensures e in now[start..]
    {
      var k :| 0 <= k < |was[start..]| && was[start..][k] == e;
      assert now[start..][k] == e;
    }

    /** The first part of the pass; None means that the replica count may now be resolved. */
    method ConfirmAndStart() returns (verdict: Option<Outcome>, ghost m1: NodeMap)
      requires Valid() && spec.size != replicas
      modifies `targets, `pods, `rebalance, `log, `steps, `readyRebalance, `services
      ensures Valid() && old(log) <= log && old(steps) <= steps
      ensures ServicesFollow(old(services), replicas)
      ensures GoodPass(log, |old(log)|, m1, replicas)
      ensures verdict == Some(Deferred) ==> |log| == |old(log)| + 1
      ensures verdict != Some(Requeue)
      ensures calm && verdict == Some(Deferred) ==> targets == old(targets)
      ensures verdict == Some(Deferred) ==>
                spec.autoScaling && log[|old(log)|].FreshRead? && !SettledAndDue(log[|old(log)|].ss)
      ensures verdict.None? && replicas < spec.size && spec.externalAccess ==>
                forall i :: 0 <= i < spec.size ==> i in services
      ensures verdict.None? && spec.size < replicas ==>
                && Trail(m1, spec.size, replicas) && Moves(membership, old(targets), m1)
                && ReadMap(m1) in log[|old(log)|..]
                && AllDealtWith(log[|old(log)|..], m1, spec.size, replicas)
                && (spec.externalAccess ==> forall i :: spec.size <= i < replicas ==> i !in services)
      ensures verdict.None? && spec.size < replicas && spec.autoScaling ==>
                |log| > |old(log)| && log[|old(log)|].FreshRead? && SettledAndDue(log[|old(log)|].ss)
      ensures calm && replicas < spec.size ==> verdict.None?
      ensures calm && spec.size < replicas && verdict != Some(Deferred) ==>
                && m1 == old(targets)
                && (verdict.None? <==> NoneBlocks(m1, old(pods), spec.size, replicas))
    {
      m1 := map[];
      ghost var start := |log|;
      var proceed, ok := ConfirmScalingNeeded();
      if !ok {
        return Some(Error), m1;
      }
      if !proceed {
        return Some(Deferred), m1;
      }
      ghost var confirmed, there := log, targets;
      ok, m1 := StartTargetScaling();
      ConfirmedAndStarted(confirmed, log, start, m1);
      if ok && spec.size < replicas {
        StartedAfter(confirmed, log, start, m1, replicas);
        MovesCompose(membership, old(targets), there, m1);
      }
      return if ok then None else Some(Error), m1;
    }

    lemma ConfirmedAndStarted(confirmed: seq<Event>, now: seq<Event>, start: nat, m1: NodeMap)
      requires start <= |confirmed| && confirmed <= now && GoodPass(now, |confirmed|, m1, replicas)
      requires forall k :: start <= k < |confirmed| ==> confirmed[k].FreshRead?
      ensures GoodPass(now, start, m1, replicas)
    {
      forall k | start <= k < |now| ensures GoodPassEvent(now, start, k, m1, replicas) {
        if k < |confirmed| {
          assert now[k] == confirmed[k];
        } else {
          assert GoodPassEvent(now, |confirmed|, k, m1, replicas);
          if ReadBefore(now, |confirmed|, k, m1) {
            EarlierRead(now, start, |confirmed|, k, m1);
          }
          if now[k].Decommissioned? {
            EarlierStart(now, start, |confirmed|, k, RebalanceEnabled(spec.config));
          }
        }
      }
    }

    lemma StartedAfter(confirmed: seq<Event>, now: seq<Event>, start: nat, m1: NodeMap, c: nat)
      requires start <= |confirmed| && confirmed <= now && ReadMap(m1) in now[|confirmed|..]
      requires AllDealtWith(now[|confirmed|..], m1, spec.size, c)
      ensures ReadMap(m1) in now[start..]
      ensures AllDealtWith(now[start..], m1, spec.size, c)
    {
      assert now[start..] == confirmed[start..] + now[|confirmed|..];
      AllDealtInSuffix(confirmed[start..], now[|confirmed|..], m1, spec.size, c);
    }

    lemma AllDealtWithGrows(events: seq<Event>, more: seq<Event>, m1: NodeMap, c: nat)
      requires AllDealtWith(events, m1, spec.size, c)
      ensures AllDealtWith(events + more, m1, spec.size, c)
    {
      forall i: nat | spec.size <= i < c ensures DealtWith(events + more, m1, base, i, spec.mode) {
        DealtWithGrows(events, more, m1, i);
      }
    }

    lemma KeptOrdinalsSpared(events: seq<Event>, start: nat, m1: NodeMap, c: nat)
      requires GoodPass(events, start, m1, c)
      ensures forall k, j: nat ::
                start <= k < |events| && j < spec.size && (events[k].Decommissioned? || events[k].Maintained?) ==>
                !Serves(m1, events[k].id, PodName(base, j))
    {
      forall k, j: nat | start <= k < |events| && j < spec.size && (events[k].Decommissioned? || events[k].Maintained?)
        ensures !Serves(m1, events[k].id, PodName(base, j))
      {
        assert GoodPassEvent(events, start, k, m1, c);
        KeptIsNotNamed(m1, events[k].id, base, spec.size, c);
      }
    }

    ghost predicate GoodPass(events: seq<Event>, start: nat, m1: NodeMap, c: nat) {
      forall k :: start <= k < |events| ==> GoodPassEvent(events, start, k, m1, c)
    }

    ghost predicate GoodPassEvent(events: seq<Event>, start: nat, k: nat, m1: NodeMap, c: nat)
      requires k < |events|
    {
      && GoodRemoval(events[k], m1, base, spec.size, c, spec.mode)
      && (events[k].Decommissioned? || events[k].Maintained? ==> ReadBefore(events, start, k, m1))
      && (events[k].Decommissioned? ==> PushedBefore(events, start, k, RebalanceEnabled(spec.config)))
    }

    lemma EarlierStart(events: seq<Event>, start: nat, later: nat, k: nat, value: bool)
      requires start <= later && k <= |events| && PushedBefore(events, later, k, value)
      ensures PushedBefore(events, start, k, value)
    {
      var p: nat :| later <= p < k && events[p] == PushedConfig(value)
        && forall q :: p < q < k ==> !events[q].PushedConfig?;
      assert start <= p;
    }

    lemma EarlierRead(events: seq<Event>, start: nat, later: nat, k: nat, m: NodeMap)
      requires start <= later && k <= |events| && ReadBefore(events, later, k, m)
      ensures ReadBefore(events, start, k, m)
    {
      var r: nat :| later <= r < k && events[r] == ReadMap(m);
      assert start <= r;
    }

    lemma GoodPassGrows(was: seq<Event>, now: seq<Event>, start: nat, m1: NodeMap, c: nat)
      requires was <= now && GoodPass(was, start, m1, c)
      requires forall k :: |was| <= k < |now| ==> IsPreparation(now[k]) || now[k].ReadMap? || now[k].ReplicasSet?
      ensures GoodPass(now, start, m1, c)
    {
      forall k | start <= k < |now| ensures GoodPassEvent(now, start, k, m1, c) {
        if k < |was| {
          assert GoodPassEvent(was, start, k, m1, c) && now[k] == was[k];
          if ReadBefore(was, start, k, m1) {
            var r: nat :| start <= r < k && was[r] == ReadMap(m1);
            assert now[r] == was[r];
          }
          if was[k].Decommissioned? {
            assert now == was + now[|was|..];
            PushedBeforeGrows(was, now[|was|..], start, k, RebalanceEnabled(spec.config));
          }
        }
      }
    }

    /** What the first part achieved still holds of the map that the second part read, and of the cluster since. */
    lemma ScaleDownIsSafe(was: NodeMap, m1: NodeMap, told: NodeMap, m2: NodeMap, c: nat)
      requires TrailTo(m1, told, spec.size, c)
      requires Moves(membership, was, m1) && Moves(membership, told, m2) && Moves(membership, m2, targets)
      requires ReadyIn(m2, c)
      ensures RemovedSafely(was, m1, m2, c)
    {
      if spec.mode.Retain? && membership.Steady? {
        InMaintStays(m2, targets, base, spec.size, c);
      }
      if !spec.mode.Retain? && !membership.Open? && OneNodePerPod(was, base) {
        OnePerPodMoves(membership, was, m1, base);
        TrailMoves(membership, m1, told, m2, base, spec.size, c);
        OnlyMaintenanceRemains(m1, m2, base, spec.size, c);
        AbsentStays(membership, m2, targets, base, spec.size, c);
        if membership.Steady? {
          SameInMaint(was, m1, base, spec.size, c);
        }
      }
    }
  }

  // --------------------------------------------- what counting nodes brings about

  /** A pass in a calm cluster, to remove targets 2 and 3 of four. Target 3 was told to leave before and is gone,
      target 2 was put into maintenance by its owner, and 0 and 1 serve. */
  function OneMaintained(base: string): Moment {
    Moment(map["a" := Node("a", PodName(base, 0), Active),
               "b" := Node("b", PodName(base, 1), Active),
               "c" := Node("c", PodName(base, 2), Maint)], map[], 4, true, {})
  }

  lemma OneMaintainedServes(base: string, id: string, i: nat)
    ensures Serves(OneMaintained(base).targets, id, PodName(base, i)) <==>
            (id == "a" && i == 0) || (id == "b" && i == 1) || (id == "c" && i == 2)
  {
    if id in OneMaintained(base).targets && Serves(OneMaintained(base).targets, id, PodName(base, i)) {
      var own: nat := if id == "a" then 0 else if id == "b" then 1 else 2;
      OneOrdinalPerHostname(PodName(base, own), base, own, i);
    }
  }

  lemma OneMaintainedOnePerPod(base: string)
    ensures OneNodePerPod(OneMaintained(base).targets, base)
  {
    var m := OneMaintained(base).targets;
    forall a, b, i: nat | Serves(m, a, PodName(base, i)) && Serves(m, b, PodName(base, i)) ensures a == b {
      OneMaintainedServes(base, a, i);
      OneMaintainedServes(base, b, i);
    }
  }

  lemma OneMaintainedPasses(base: string)
    ensures var m := OneMaintained(base).targets;
            && Told(m, base, 2, 4, Decommission) == m && !AnyDecommissioning(m) && |m| == 3
            && !RemovedAbsent(m, base, 2, 4)
  {
    var m := OneMaintained(base).targets;
    forall id | id in m && ServesRemoved(m, id, base, 2, 4) ensures m[id].flag == Maint {
      var i: nat :| 2 <= i < 4 && Serves(m, id, PodName(base, i));
      OneMaintainedServes(base, id, i);
    }
    OneMaintainedServes(base, "c", 2);
    assert Present(m, PodName(base, 2));
    assert m.Keys == {"a", "b", "c"};
  }

  /** Counting is not enough: the pass lowers the replica count to two although target 2 still holds its data. */
  method MaintainedTargetIsRemovedInPlace(base: string) returns (k: Controller)
    ensures k.base == base && k.origin == OneMaintained(base) && k.Valid()
    ensures k.replicas == 2 && ReplicasSet(4, 2) in k.log
    ensures k.targets == OneMaintained(base).targets && !RemovedAbsent(k.targets, base, 2, 4)
  {
    var start := OneMaintained(base);
    k := new Controller(base, Spec(2, false, 0, Decommission, false, None), Steady, true, start, true);
    OneMaintainedOnePerPod(base);
    OneMaintainedPasses(base);
    var outcome, m1, m2 := k.HandleTargetScaling();
    assert k.NoneBlocks(start.targets, start.pods, 2, 4);
    assert k.log[|k.log| - 2..][1] == ReplicasSet(4, 2);
  }

  /** And it may be too much: as long as all kept targets are registered and all removed ones are in maintenance, a
      pass changes neither the map nor the replica count, and so never will. */
  method MaintainedTargetsHoldUp(k: Controller)
    requires k.Valid() && k.calm && !k.spec.mode.Retain? && k.spec.size < k.replicas
    requires OneNodePerPod(k.targets, k.base) && AllBelow(k.targets, k.base, k.replicas)
    requires !AnyDecommissioning(k.targets)
    requires RemovedPresent(k.targets, k.base, 0, k.replicas)
    requires forall id :: ServesRemoved(k.targets, id, k.base, k.spec.size, k.replicas) ==> k.targets[id].flag == Maint
    modifies k
    ensures k.Valid() && k.replicas == old(k.replicas) && k.targets == old(k.targets)
  {
    HeldUpExactly(k.targets, k.base, k.spec.size, k.replicas);
    assert Told(k.targets, k.base, k.spec.size, k.replicas, k.spec.mode) == k.targets;
    var outcome, m1, m2 := k.HandleTargetScaling();
  }
}
