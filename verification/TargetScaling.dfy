/** Scaling of the target StatefulSet. Removed targets are decommissioned (or put into maintenance) in one
    part of the pass, and the replica count is lowered in a later part that works from a second, later read
    of the cluster map. */
module TargetScaling {
  import opened Wrappers
  import opened PodNaming
  import opened ClusterMap
  import opened StatefulSets

  datatype ScaleDownMode = Decommission | Retain | SafeDecommission

  /** API calls that took effect, and reads that returned. */
  datatype Event =
    | FoundHealthy
    | PushedConfig(rebalance: bool)
    | FreshRead(ss: StatefulSet)
    | ReadMap(targets: NodeMap)
    | ReadPod(podName: string, pod: Option<Pod>)
    | Decommissioned(id: string, rmUserData: bool)
    | Maintained(id: string)
    | ReplicasSet(before: nat, after: nat)
    | ServiceApplied(ordinal: nat)
    | ServiceDeleted(ordinal: nat)

  /** How freely AIS membership moves between two calls. Steady: decommissioning nodes may leave, nothing else
      changes. Closed: no node joins and a decommissioning node never comes back. Open: anything. */
  datatype World = Steady | Closed | Open

  predicate Moves(world: World, m: NodeMap, m': NodeMap) {
    match world
    case Open => true
    case Closed =>
      forall id :: id in m' ==>
        && id in m && m'[id].hostname == m[id].hostname
        && (m[id].flag == Decomm ==> m'[id].flag == Decomm)
    case Steady =>
      && (forall id :: id in m' ==> id in m && m'[id] == m[id])
      && (forall id :: id in m && m[id].flag != Decomm ==> id in m')
  }

  lemma MovesCompose(world: World, a: NodeMap, b: NodeMap, c: NodeMap)
    requires Moves(world, a, b) && Moves(world, b, c)
    ensures Moves(world, a, c)
  {
  }

  // ------------------------------------------------- the log and the cluster

  /** The cluster as far as a scaling pass sees or changes it: the target map, the pods, the replica count in the
      StatefulSet spec, the live rebalance setting, and the ordinals that have a load balancer. */
  datatype Moment = Moment(
    targets: NodeMap,
    pods: map<string, Pod>,
    replicas: nat,
    rebalance: bool,
    services: set<nat>)

  function Flagged(m: NodeMap, id: string, flag: Flag): NodeMap {
    if id in m then m[id := m[id].(flag := flag)] else m
  }

  /** What a call may report, and what it does to the cluster. */
  predicate Acts(was: Moment, e: Event, now: Moment) {
    match e
    case FoundHealthy => now == was
    case PushedConfig(rebalance) => now == was.(rebalance := rebalance)
    case FreshRead(ss) => now == was && ss.replicas == was.replicas
    case ReadMap(targets) => now == was && targets == was.targets
    case ReadPod(podName, pod) => now == was && pod == Lookup(was.pods, podName)
    case Decommissioned(id, _) => now == was.(targets := Flagged(was.targets, id, Decomm))
    case Maintained(id) => now == was.(targets := Flagged(was.targets, id, Maint))
    case ReplicasSet(before, after) => before == was.replicas && now == was.(replicas := after)
    case ServiceApplied(i) => now == was.(services := was.services + {i})
    case ServiceDeleted(i) => now == was.(services := was.services - {i})
  }

  /** Between two calls membership and pods move; the rest is the operator's own. */
  predicate Between(world: World, was: Moment, now: Moment) {
    Moves(world, was.targets, now.targets) && now == was.(targets := now.targets, pods := now.pods)
  }

  datatype Step = Step(before: Moment, after: Moment)

  function Since(origin: Moment, steps: seq<Step>, i: nat): Moment
    requires i <= |steps|
  {
    if i == 0 then origin else steps[i - 1].after
  }

  /** Entry i reports what was there, and did to the cluster what it says; since the last one only the world moved. */
  ghost predicate StepAt(world: World, origin: Moment, log: seq<Event>, steps: seq<Step>, i: nat)
    requires i < |log| == |steps|
  {
    && Between(world, Since(origin, steps, i), steps[i].before)
    && Acts(steps[i].before, log[i], steps[i].after)
  }

  /** The log is what happened to the cluster on its way from `origin` to `now`. */
  ghost predicate IsTrace(world: World, origin: Moment, log: seq<Event>, steps: seq<Step>, now: Moment) {
    && |log| == |steps|
    && (forall i: nat :: i < |log| ==> StepAt(world, origin, log, steps, i))
    && Between(world, Since(origin, steps, |steps|), now)
  }

  lemma TraceMoves(world: World, origin: Moment, log: seq<Event>, steps: seq<Step>, was: Moment, now: Moment)
    requires IsTrace(world, origin, log, steps, was) && Between(world, was, now)
    ensures IsTrace(world, origin, log, steps, now)
  {
    MovesCompose(world, Since(origin, steps, |steps|).targets, was.targets, now.targets);
  }

  lemma MovesNowhere(world: World, m: NodeMap)
    ensures Moves(world, m, m)
  {
  }

  lemma TraceGrows(world: World, origin: Moment, log: seq<Event>, steps: seq<Step>, was: Moment, e: Event, now: Moment)
    requires IsTrace(world, origin, log, steps, was) && Acts(was, e, now)
    ensures IsTrace(world, origin, log + [e], steps + [Step(was, now)], now)
  {
    var log', steps' := log + [e], steps + [Step(was, now)];
    forall i: nat | i < |log'| ensures StepAt(world, origin, log', steps', i) {
      assert Since(origin, steps', i) == Since(origin, steps, i);
      if i < |log| {
        assert StepAt(world, origin, log, steps, i);
        assert log'[i] == log[i] && steps'[i] == steps[i];
      }
    }
    MovesNowhere(world, now.targets);
    assert Since(origin, steps', |steps'|) == now;
  }

  // ------------------------------------------------------ readiness

  /** Ordinals [d, c) are being removed. */
  predicate ServesRemoved(targets: NodeMap, id: string, base: string, d: nat, c: nat) {
    exists i: nat :: d <= i < c && Serves(targets, id, PodName(base, i))
  }

  ghost predicate RemovedAbsent(targets: NodeMap, base: string, d: nat, c: nat) {
    forall i: nat :: d <= i < c ==> !Present(targets, PodName(base, i))
  }

  ghost predicate NoneRemovedInMaint(targets: NodeMap, base: string, d: nat, c: nat) {
    forall i: nat, id :: d <= i < c && Serves(targets, id, PodName(base, i)) ==> targets[id].flag != Maint
  }

  /** Every removed ordinal is out of service in the map: in maintenance or not there. With two nodes claiming
      one pod it is the node found for it that counts. */
  ghost predicate RemovedInMaintOrAbsent(targets: NodeMap, base: string, d: nat, c: nat) {
    forall i: nat :: d <= i < c && Present(targets, PodName(base, i)) ==>
      exists id :: Serves(targets, id, PodName(base, i)) && targets[id].flag == Maint
  }

  /** A node that reads as leaving but not as in maintenance is being decommissioned. */
  predicate AnyDecommissioning(targets: NodeMap) {
    exists id :: id in targets && targets[id].flag == Decomm
  }

  method IsReadyToScaleDownDecommission(targets: NodeMap, currentSize: nat) returns (ready: bool)
    ensures ready <==> !AnyDecommissioning(targets) && |targets| != currentSize
  {
    var rest := targets.Keys;
    while rest != {}
      invariant rest <= targets.Keys
      invariant forall id :: id in targets && id !in rest ==> targets[id].flag != Decomm
      decreases rest
    {
      var id :| id in rest;
      if InMaintOrDecomm(targets[id]) && !InMaint(targets[id]) {
        return false;
      }
      rest := rest - {id};
    }
    return |targets| != currentSize;
  }

  method IsReadyToScaleDownRetain(targets: NodeMap, base: string, d: nat, currentSize: nat) returns (ready: bool)
    ensures ready ==> RemovedInMaintOrAbsent(targets, base, d, currentSize)
    ensures OneNodePerPod(targets, base) ==> (ready <==> RemovedInMaintOrAbsent(targets, base, d, currentSize))
  {
    var idx := currentSize;
    while idx > d
      invariant idx <= currentSize
      invariant d <= currentSize ==> d <= idx
      invariant RemovedInMaintOrAbsent(targets, base, if d <= idx then idx else d, currentSize)
    {
      var podName := PodName(base, idx - 1);
      var node := FindAISNodeByPodName(targets, podName);
      if node.Some? && !InMaint(targets[node.value]) {
        assert Present(targets, podName);
        return false;
      }
      assert node.Some? ==> Serves(targets, node.value, podName) && targets[node.value].flag == Maint;
      idx := idx - 1;
    }
    return true;
  }

  // ------------------------------------------------- facts about one pass

  /** A node that has been told to leave either is leaving or has left. */
  ghost predicate Leaving(now: NodeMap, id: string) {
    id in now ==> now[id].flag == Decomm
  }

  /** Every removed node that the map m1 showed outside maintenance has been told to leave. */
  ghost predicate AllTold(m1: NodeMap, now: NodeMap, base: string, lo: nat, c: nat) {
    forall i: nat, id :: lo <= i < c && Serves(m1, id, PodName(base, i)) && m1[id].flag != Maint ==> Leaving(now, id)
  }

  /** Without joins, what is in the map now was in m1 under the same hostname, and what was leaving is leaving. */
  ghost predicate CameFrom(m1: NodeMap, now: NodeMap) {
    forall id :: id in now ==>
      && id in m1 && now[id].hostname == m1[id].hostname
      && (m1[id].flag == Decomm ==> now[id].flag == Decomm)
  }

  ghost predicate MaintKept(m1: NodeMap, now: NodeMap) {
    forall id :: id in m1 && m1[id].flag == Maint ==> id in now && now[id] == m1[id]
  }

  /** When all removed nodes were told to leave and no node is leaving any more, the removed nodes still in the
      map are those that were in maintenance when the pass first looked. */
  lemma OnlyMaintenanceRemains(m1: NodeMap, m2: NodeMap, base: string, d: nat, c: nat)
    requires AllTold(m1, m2, base, d, c) && CameFrom(m1, m2) && !AnyDecommissioning(m2)
    ensures forall i: nat, id :: d <= i < c && Serves(m2, id, PodName(base, i)) ==> id in m1 && m1[id].flag == Maint
    ensures NoneRemovedInMaint(m1, base, d, c) ==> RemovedAbsent(m2, base, d, c)
    ensures MaintKept(m1, m2) && RemovedAbsent(m2, base, d, c) ==> NoneRemovedInMaint(m1, base, d, c)
  {
    forall i: nat, id | d <= i < c && Serves(m2, id, PodName(base, i)) ensures id in m1 && m1[id].flag == Maint {
      assert Serves(m1, id, PodName(base, i));
      assert m2[id].flag != Decomm;
    }
    if NoneRemovedInMaint(m1, base, d, c) {
      forall i: nat | d <= i < c ensures !Present(m2, PodName(base, i)) {
        assert forall id :: Serves(m2, id, PodName(base, i)) ==> Serves(m1, id, PodName(base, i));
      }
    }
    if MaintKept(m1, m2) && RemovedAbsent(m2, base, d, c) {
      forall i: nat, id | d <= i < c && Serves(m1, id, PodName(base, i)) ensures m1[id].flag != Maint {
        assert !Present(m2, PodName(base, i));
        assert !Serves(m2, id, PodName(base, i));
      }
    }
  }

  /** A node of a removed ordinal is never the node of a kept one. */
  lemma KeptIsNotNamed(targets: NodeMap, id: string, base: string, d: nat, c: nat)
    requires ServesRemoved(targets, id, base, d, c)
    ensures forall j: nat :: j < d ==> !Serves(targets, id, PodName(base, j))
  {
    var i: nat :| d <= i < c && Serves(targets, id, PodName(base, i));
    forall j: nat | j < d ensures !Serves(targets, id, PodName(base, j)) {
      if Serves(targets, id, PodName(base, j)) {
        ServesOneOrdinal(targets, id, base, i, j);
      }
    }
  }

  /** The last push before event k of this pass left rebalance at `value`. */
  ghost predicate PushedBefore(log: seq<Event>, start: nat, k: nat, value: bool)
    requires k <= |log|
  {
    exists p: nat :: start <= p < k && log[p] == PushedConfig(value)
      && forall q :: p < q < k ==> !log[q].PushedConfig?
  }

  lemma PushedBeforeGrows(log: seq<Event>, more: seq<Event>, start: nat, k: nat, value: bool)
    requires k <= |log| && PushedBefore(log, start, k, value)
    ensures PushedBefore(log + more, start, k, value)
  {
    var p: nat :| start <= p < k && log[p] == PushedConfig(value) && forall q :: p < q < k ==> !log[q].PushedConfig?;
    assert (log + more)[p] == PushedConfig(value);
  }

  /** The map was read in this pass before event k. */
  ghost predicate ReadBefore(log: seq<Event>, start: nat, k: nat, m: NodeMap)
    requires k <= |log|
  {
    exists r: nat :: start <= r < k && log[r] == ReadMap(m)
  }

  /** What held of a map keeps holding while membership moves without joins. */
  lemma TrailMoves(world: World, m1: NodeMap, now: NodeMap, next: NodeMap, base: string, lo: nat, c: nat)
    requires Moves(world, now, next) && !world.Open?
    requires CameFrom(m1, now) && AllTold(m1, now, base, lo, c)
    ensures CameFrom(m1, next) && AllTold(m1, next, base, lo, c)
    ensures world.Steady? && MaintKept(m1, now) ==> MaintKept(m1, next)
  {
    forall i: nat, id | lo <= i < c && Serves(m1, id, PodName(base, i)) && m1[id].flag != Maint
      ensures Leaving(next, id)
    {
      assert Leaving(now, id);
    }
  }

  /** Telling a node to leave keeps it too. */
  lemma TrailTold(m1: NodeMap, now: NodeMap, told: string, base: string, lo: nat, c: nat)
    requires told in now && told in m1 && m1[told].flag != Maint
    requires CameFrom(m1, now) && AllTold(m1, now, base, lo, c)
    ensures var next := now[told := now[told].(flag := Decomm)];
            CameFrom(m1, next) && AllTold(m1, next, base, lo, c) && (MaintKept(m1, now) ==> MaintKept(m1, next))
  {
    var next := now[told := now[told].(flag := Decomm)];
    forall i: nat, id | lo <= i < c && Serves(m1, id, PodName(base, i)) && m1[id].flag != Maint
      ensures Leaving(next, id)
    {
      assert Leaving(now, id);
    }
  }

  /** Where no node joins, pods keep their nodes to themselves. */
  lemma OnePerPodMoves(world: World, was: NodeMap, now: NodeMap, base: string)
    requires Moves(world, was, now) && !world.Open? && OneNodePerPod(was, base)
    ensures OneNodePerPod(now, base)
  {
    assert forall id, podName :: Serves(now, id, podName) ==> Serves(was, id, podName);
  }

  /** Where no node joins, a removed target that is gone stays away. Where nothing but leaving happens, no node that
      is not leaving goes either. */
  lemma AbsentStays(world: World, was: NodeMap, now: NodeMap, base: string, d: nat, c: nat)
    requires Moves(world, was, now) && !world.Open?
    ensures RemovedAbsent(was, base, d, c) ==> RemovedAbsent(now, base, d, c)
    ensures world.Steady? && !AnyDecommissioning(was) && RemovedAbsent(now, base, d, c) ==>
              RemovedAbsent(was, base, d, c)
  {
    assert forall id, podName :: Serves(now, id, podName) ==> Serves(was, id, podName);
    if RemovedAbsent(was, base, d, c) {
      forall i: nat | d <= i < c ensures !Present(now, PodName(base, i)) {
        assert !Present(was, PodName(base, i));
      }
    }
    if world.Steady? && !AnyDecommissioning(was) && RemovedAbsent(now, base, d, c) {
      forall i: nat | d <= i < c ensures !Present(was, PodName(base, i)) {
        assert !Present(now, PodName(base, i));
        assert forall id, podName :: Serves(was, id, podName) ==> Serves(now, id, podName);
      }
    }
  }

  lemma SameInMaint(was: NodeMap, now: NodeMap, base: string, d: nat, c: nat)
    requires Moves(Steady, was, now)
    ensures NoneRemovedInMaint(was, base, d, c) <==> NoneRemovedInMaint(now, base, d, c)
  {
    assert forall id, podName :: Serves(now, id, podName) ==> Serves(was, id, podName);
    assert forall id, podName :: Serves(was, id, podName) && was[id].flag == Maint ==> Serves(now, id, podName);
  }

  lemma InMaintStays(was: NodeMap, now: NodeMap, base: string, d: nat, c: nat)
    requires Moves(Steady, was, now) && RemovedInMaintOrAbsent(was, base, d, c)
    ensures RemovedInMaintOrAbsent(now, base, d, c)
  {
    forall i: nat | d <= i < c && Present(now, PodName(base, i))
      ensures exists id :: Serves(now, id, PodName(base, i)) && now[id].flag == Maint
    {
      var x :| Serves(now, x, PodName(base, i));
      assert Serves(was, x, PodName(base, i));
      var id :| Serves(was, id, PodName(base, i)) && was[id].flag == Maint;
      assert Serves(now, id, PodName(base, i));
    }
  }

  /** The call that removes a node under each scale-down mode. */
  function RemovalOf(id: string, mode: ScaleDownMode): Event {
    if mode.Retain? then Maintained(id) else Decommissioned(id, !mode.SafeDecommission?)
  }

  /** A target that is not in the map may be skipped if its pod is missing or cannot come up. */
  predicate Excused(e: Event, podName: string) {
    && e.ReadPod? && e.podName == podName
    && (e.pod.None? || e.pod.value.unschedulable || e.pod.value.crashLoop)
  }

  /** Ordinal i was dealt with: its node was told to leave, was on its way out already, or is excused. */
  ghost predicate DealtWith(events: seq<Event>, m1: NodeMap, base: string, i: nat, mode: ScaleDownMode) {
    var podName := PodName(base, i);
    if Present(m1, podName) then
      exists id :: Serves(m1, id, podName) && (m1[id].flag != Active || RemovalOf(id, mode) in events)
    else
      exists e :: e in events && Excused(e, podName)
  }

  /** What the pass may have done to nodes, judged by the map m1 it read before, and to load balancers. */
  ghost predicate GoodRemoval(e: Event, m1: NodeMap, base: string, d: nat, c: nat, mode: ScaleDownMode) {
    match e
    case Decommissioned(id, rmUserData) =>
      && !mode.Retain? && rmUserData == !mode.SafeDecommission?
      && ServesRemoved(m1, id, base, d, c) && m1[id].flag == Active
    case Maintained(id) =>
      && mode.Retain?
      && ServesRemoved(m1, id, base, d, c) && m1[id].flag == Active
    case ServiceApplied(i) => c < d && i < d
    case ServiceDeleted(i) => d <= i < c
    case _ => true
  }

  function RemovalFlag(mode: ScaleDownMode): Flag { if mode.Retain? then Maint else Decomm }

  /** The map once every removed node in service was told to leave, and nothing else happened. */
  ghost function Told(m: NodeMap, base: string, d: nat, c: nat, mode: ScaleDownMode): NodeMap {
    map id | id in m ::
      if ServesRemoved(m, id, base, d, c) && m[id].flag == Active then m[id].(flag := RemovalFlag(mode)) else m[id]
  }

  ghost predicate ToldAt(m: NodeMap, now: NodeMap, id: string, base: string, d: nat, c: nat, mode: ScaleDownMode) {
    && (id in now <==> id in m)
    && (id in m ==> now[id] == Told(m, base, d, c, mode)[id])
  }

  /** `now` is that map, said node by node. */
  ghost predicate IsTold(m: NodeMap, now: NodeMap, base: string, d: nat, c: nat, mode: ScaleDownMode) {
    forall id :: ToldAt(m, now, id, base, d, c, mode)
  }

  lemma ToldIs(m: NodeMap, now: NodeMap, base: string, d: nat, c: nat, mode: ScaleDownMode)
    ensures IsTold(m, now, base, d, c, mode) <==> now == Told(m, base, d, c, mode)
  {
    if IsTold(m, now, base, d, c, mode) {
      forall id ensures (id in now <==> id in m) && (id in m ==> now[id] == Told(m, base, d, c, mode)[id]) {
        assert ToldAt(m, now, id, base, d, c, mode);
      }
    }
  }

  lemma NoneTold(m: NodeMap, base: string, c: nat, mode: ScaleDownMode)
    ensures Told(m, base, c, c, mode) == m
  {
  }

  /** Dealing with one more ordinal. */
  lemma ToldNext(m: NodeMap, base: string, i: nat, c: nat, mode: ScaleDownMode, id: string)
    requires i < c && OneNodePerPod(m, base) && Serves(m, id, PodName(base, i))
    ensures Told(m, base, i, c, mode) ==
            if m[id].flag != Active then Told(m, base, i + 1, c, mode)
            else Flagged(Told(m, base, i + 1, c, mode), id, RemovalFlag(mode))
  {
    forall x | x in m ensures ServesRemoved(m, x, base, i, c) <==> ServesRemoved(m, x, base, i + 1, c) || x == id {
      if ServesRemoved(m, x, base, i, c) {
        var j: nat :| i <= j < c && Serves(m, x, PodName(base, j));
      }
      if ServesRemoved(m, x, base, i + 1, c) {
        var j: nat :| i + 1 <= j < c && Serves(m, x, PodName(base, j));
      }
    }
    if ServesRemoved(m, id, base, i + 1, c) {
      var j: nat :| i + 1 <= j < c && Serves(m, id, PodName(base, j));
      ServesOneOrdinal(m, id, base, i, j);
    }
  }

  lemma ToldOnePerPod(m: NodeMap, now: NodeMap, base: string, d: nat, c: nat, mode: ScaleDownMode)
    requires OneNodePerPod(m, base) && IsTold(m, now, base, d, c, mode)
    ensures now == Told(m, base, d, c, mode) && OneNodePerPod(now, base)
  {
    ToldIs(m, now, base, d, c, mode);
    assert forall id, podName :: Serves(now, id, podName) ==> Serves(m, id, podName);
  }

  lemma ToldSkips(m: NodeMap, base: string, i: nat, c: nat, mode: ScaleDownMode)
    requires i < c && !Present(m, PodName(base, i))
    ensures Told(m, base, i, c, mode) == Told(m, base, i + 1, c, mode)
  {
    forall x | x in m ensures ServesRemoved(m, x, base, i, c) <==> ServesRemoved(m, x, base, i + 1, c) {
      if ServesRemoved(m, x, base, i, c) {
        var j: nat :| i <= j < c && Serves(m, x, PodName(base, j));
        assert j != i;
      }
      if ServesRemoved(m, x, base, i + 1, c) {
        var j: nat :| i + 1 <= j < c && Serves(m, x, PodName(base, j));
      }
    }
  }

  /** Every ordinal from `lo` up was dealt with. */
  ghost predicate RangeDealtWith(events: seq<Event>, m1: NodeMap, base: string, lo: nat, c: nat, mode: ScaleDownMode) {
    forall i: nat :: lo <= i < c ==> DealtWith(events, m1, base, i, mode)
  }

  /** Everything from `from` on is a removal, or a read on the way to one, that m1 justifies. */
  ghost predicate OnlyRemovals(events: seq<Event>, from: nat, m1: NodeMap, base: string, d: nat, c: nat,
                               mode: ScaleDownMode) {
    forall k :: from <= k < |events| ==>
      && (events[k].ReadPod? || events[k].Decommissioned? || events[k].Maintained?)
      && GoodRemoval(events[k], m1, base, d, c, mode)
  }

  /** What is known of the removed ordinals from `lo` up once they have been dealt with; `exactly` if nothing else
      happened meanwhile. */
  ghost predicate TrailHolds(world: World, exactly: bool, m1: NodeMap, now: NodeMap, base: string, lo: nat, c: nat,
                             mode: ScaleDownMode) {
    && (!world.Open? && !mode.Retain? && OneNodePerPod(m1, base) ==>
          CameFrom(m1, now) && AllTold(m1, now, base, lo, c) && (world.Steady? ==> MaintKept(m1, now)))
    && (exactly && OneNodePerPod(m1, base) ==> IsTold(m1, now, base, lo, c, mode))
  }

  // ------------------------------------------- what counting nodes cannot tell

  /** Every node in the map serves an ordinal below c. */
  ghost predicate AllBelow(m: NodeMap, base: string, c: nat) {
    forall id :: id in m ==> ServesRemoved(m, id, base, 0, c)
  }

  lemma {:induction false} NodesCounted(m: NodeMap, base: string, c: nat)
    requires OneNodePerPod(m, base) && AllBelow(m, base, c)
    ensures |m| <= c && (|m| == c <==> RemovedPresent(m, base, 0, c))
    decreases c
  {
    if c == 0 {
      NoneBelowZero(m, base);
    } else if Present(m, PodName(base, c - 1)) {
      var id :| Serves(m, id, PodName(base, c - 1));
      OneFewer(m, id);
      WithoutTheLast(m, base, id, c - 1);
      NodesCounted(m - {id}, base, c - 1);
    } else {
      NoneAtTheLast(m, base, c - 1);
      NodesCounted(m, base, c - 1);
    }
  }

  lemma NoneBelowZero(m: NodeMap, base: string)
    requires AllBelow(m, base, 0)
    ensures |m| == 0
  {
    assert m.Keys == {};
  }

  lemma OneFewer(m: NodeMap, id: string)
    requires id in m
    ensures |m - {id}| == |m| - 1
  {
    assert m.Keys == (m - {id}).Keys + {id};
  }

  lemma NoneAtTheLast(m: NodeMap, base: string, c: nat)
    requires AllBelow(m, base, c + 1) && !Present(m, PodName(base, c))
    ensures AllBelow(m, base, c) && !RemovedPresent(m, base, 0, c + 1)
  {
    forall x | x in m ensures ServesRemoved(m, x, base, 0, c) {
      var i: nat :| i < c + 1 && Serves(m, x, PodName(base, i));
      assert i != c;
    }
  }

  lemma WithoutTheLast(m: NodeMap, base: string, id: string, c: nat)
    requires OneNodePerPod(m, base) && AllBelow(m, base, c + 1) && Serves(m, id, PodName(base, c))
    ensures OneNodePerPod(m - {id}, base) && AllBelow(m - {id}, base, c)
    ensures RemovedPresent(m - {id}, base, 0, c) <==> RemovedPresent(m, base, 0, c + 1)
  {
    StillOnePerPod(m, base, id);
    OthersBelow(m, base, id, c);
    OthersPresent(m, base, id, c);
  }

  lemma StillOnePerPod(m: NodeMap, base: string, id: string)
    requires OneNodePerPod(m, base)
    ensures OneNodePerPod(m - {id}, base)
  {
    assert forall a, podName :: Serves(m - {id}, a, podName) ==> Serves(m, a, podName);
  }

  lemma OthersBelow(m: NodeMap, base: string, id: string, c: nat)
    requires OneNodePerPod(m, base) && AllBelow(m, base, c + 1) && Serves(m, id, PodName(base, c))
    ensures AllBelow(m - {id}, base, c)
  {
    var rest := m - {id};
    forall x | x in rest ensures ServesRemoved(rest, x, base, 0, c) {
      var i: nat :| i < c + 1 && Serves(m, x, PodName(base, i));
      assert i != c && Serves(rest, x, PodName(base, i));
    }
  }

  lemma OthersPresent(m: NodeMap, base: string, id: string, c: nat)
    requires Serves(m, id, PodName(base, c))
    ensures RemovedPresent(m - {id}, base, 0, c) <==> RemovedPresent(m, base, 0, c + 1)
  {
    forall i: nat | i < c ensures Present(m - {id}, PodName(base, i)) <==> Present(m, PodName(base, i)) {
      OnlyThat(m, base, id, c, i);
    }
  }

  /** Taking the node of one ordinal out of the map does not touch the others. */
  lemma OnlyThat(m: NodeMap, base: string, id: string, j: nat, i: nat)
    requires Serves(m, id, PodName(base, j)) && i != j
    ensures Present(m - {id}, PodName(base, i)) <==> Present(m, PodName(base, i))
  {
    if Present(m, PodName(base, i)) {
      var x :| Serves(m, x, PodName(base, i));
      if x == id {
        ServesOneOrdinal(m, id, base, i, j);
      }
      assert Serves(m - {id}, x, PodName(base, i));
    }
    if Present(m - {id}, PodName(base, i)) {
      var x :| Serves(m - {id}, x, PodName(base, i));
      assert Serves(m, x, PodName(base, i));
    }
  }

  ghost predicate RemovedPresent(m: NodeMap, base: string, d: nat, c: nat) {
    forall i: nat :: d <= i < c ==> Present(m, PodName(base, i))
  }

  /** So once no node is leaving any more, a decommissioning scale-down is held up exactly while every ordinal,
      removed or kept, still has its node: with all kept targets registered, exactly if all the removed ones
      are still there. None of those is leaving, so each was in maintenance, and will not leave by itself. */
  lemma HeldUpExactly(m: NodeMap, base: string, d: nat, c: nat)
    requires OneNodePerPod(m, base) && AllBelow(m, base, c) && d < c
    requires !AnyDecommissioning(m) && RemovedPresent(m, base, 0, d)
    ensures |m| == c <==> RemovedPresent(m, base, d, c)
  {
    NodesCounted(m, base, c);
  }
}
