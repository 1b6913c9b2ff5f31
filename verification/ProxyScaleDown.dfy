/** Scaling of the proxy StatefulSet. Before any removed proxy is decommissioned, the primary is moved to the
    lowest eligible ordinal that stays, unless it is on one already. */
module ProxyScaleDown {
  import opened Wrappers
  import opened PodNaming
  import opened ClusterMap
  import opened StatefulSets

  // -------------------------------------------------- where the primary is

  predicate PrimaryAt(smap: Smap, base: string, idx: nat) {
    smap.primary.Some? && HostnameMatchesPod(smap.primary.value.hostname, PodName(base, idx))
  }

  ghost predicate PrimaryBelow(smap: Smap, base: string, size: nat) {
    exists p: nat :: p < size && PrimaryAt(smap, base, p)
  }

  lemma PrimarySame(was: Smap, now: Smap, base: string, size: nat)
    requires was.primary == now.primary && PrimaryBelow(was, base, size)
    ensures PrimaryBelow(now, base, size)
  {
    var p: nat :| p < size && PrimaryAt(was, base, p);
    assert PrimaryAt(now, base, p);
  }

  /** The primary has one ordinal at most. */
  lemma PrimaryOrdinalUnique(smap: Smap, base: string, i: nat, j: nat)
    requires PrimaryAt(smap, base, i) && PrimaryAt(smap, base, j)
    ensures i == j
  {
    OneOrdinalPerHostname(smap.primary.value.hostname, base, i, j);
  }

  method FindPrimaryPodIdx(smap: Smap, base: string, currentSize: nat) returns (idx: Option<nat>)
    ensures forall i: nat :: idx == Some(i) <==> i < currentSize && PrimaryAt(smap, base, i)
  {
    if smap.primary.None? {
      return None;
    }
    for i := 0 to currentSize
      invariant forall j: nat :: j < i ==> !PrimaryAt(smap, base, j)
    {
      if HostnameMatchesPod(smap.primary.value.hostname, PodName(base, i)) {
        forall j: nat | PrimaryAt(smap, base, j) ensures j == i {
          PrimaryOrdinalUnique(smap, base, i, j);
        }
        return Some(i);
      }
    }
    return None;
  }

  // ------------------------------------------------------------ eligibility

  predicate IsPodValidNewPrimary(pod: Option<Pod>, updateRevision: string) {
    IsPodReady(pod) && (updateRevision != "" ==> IsPodOnRevision(pod, updateRevision))
  }

  /** What that means: the pod is there, live and ready, and during a rollout it is new already. */
  ghost predicate IsFit(pod: Option<Pod>, updateRevision: string) {
    && pod.Some? && !pod.value.terminating && pod.value.ready
    && (updateRevision == "" || pod.value.revision == updateRevision)
  }

  // ------------------------------------------------- the log and the cluster

  /** API calls that were made, and reads that returned. */
  datatype Event =
    | MapRead(smap: Smap)
    | PodRead(podName: string, pod: Option<Pod>)
    | PrimaryCalled(id: string)
    | RemovalCalled(id: string)
    | ReplicasSet(before: nat, after: nat)

  datatype Moment = Moment(smap: Smap, pods: map<string, Pod>, replicas: nat)

  function WithPrimary(smap: Smap, id: string): Smap
    requires id in smap.proxies
  {
    smap.(primary := Some(smap.proxies[id].(id := id)))
  }

  function Leaving(smap: Smap, id: string): Smap
    requires id in smap.proxies
  {
    smap.(proxies := smap.proxies[id := smap.proxies[id].(flag := Decomm)])
  }

  /** What a call may report, and what it does to the cluster. A call to AIS may have no effect. */
  predicate Acts(was: Moment, e: Event, now: Moment) {
    match e
    case MapRead(smap) => now == was && smap == was.smap
    case PodRead(podName, pod) => now == was && pod == Lookup(was.pods, podName)
    case PrimaryCalled(id) => now == was || (id in was.smap.proxies && now == was.(smap := WithPrimary(was.smap, id)))
    case RemovalCalled(id) => now == was || (id in was.smap.proxies && now == was.(smap := Leaving(was.smap, id)))
    case ReplicasSet(before, after) => before == was.replicas && now == was.(replicas := after)
  }

  /** The hostname each daemon reports never changes. */
  predicate HostsAgree(smap: Smap, hosts: map<string, string>) {
    && (forall id :: id in smap.proxies ==> id in hosts && smap.proxies[id].hostname == hosts[id])
    && (smap.primary.Some? ==>
          smap.primary.value.id in hosts && smap.primary.value.hostname == hosts[smap.primary.value.id])
  }

  /** Between two calls nodes come and go and pods change; only the operator moves the primary. */
  predicate Between(hosts: map<string, string>, was: Moment, now: Moment) {
    && now.smap.primary == was.smap.primary && now.replicas == was.replicas
    && HostsAgree(now.smap, hosts)
  }

  datatype Step = Step(before: Moment, after: Moment)

  function Since(origin: Moment, steps: seq<Step>, i: nat): Moment
    requires i <= |steps|
  {
    if i == 0 then origin else steps[i - 1].after
  }

  /** Entry i reports what was there, and did to the cluster what it says; since the last one only the world moved. */
  ghost predicate StepAt(hosts: map<string, string>, origin: Moment, log: seq<Event>, steps: seq<Step>, i: nat)
    requires i < |log| == |steps|
  {
    Between(hosts, Since(origin, steps, i), steps[i].before) && Acts(steps[i].before, log[i], steps[i].after)
  }

  /** The log is what happened to the cluster on its way from `origin` to `now`. */
  ghost predicate IsTrace(hosts: map<string, string>, origin: Moment, log: seq<Event>, steps: seq<Step>, now: Moment) {
    && |log| == |steps|
    && (forall i: nat :: i < |log| ==> StepAt(hosts, origin, log, steps, i))
    && Between(hosts, Since(origin, steps, |steps|), now)
  }

  lemma TraceGrows(hosts: map<string, string>, origin: Moment, log: seq<Event>, steps: seq<Step>,
                   was: Moment, e: Event, now: Moment)
    requires IsTrace(hosts, origin, log, steps, was) && Acts(was, e, now) && HostsAgree(now.smap, hosts)
    ensures IsTrace(hosts, origin, log + [e], steps + [Step(was, now)], now)
  {
    var log', steps' := log + [e], steps + [Step(was, now)];
    forall i: nat | i < |log'| ensures StepAt(hosts, origin, log', steps', i) {
      assert Since(origin, steps', i) == Since(origin, steps, i);
      if i < |log| {
        assert StepAt(hosts, origin, log, steps, i);
        assert log'[i] == log[i] && steps'[i] == steps[i];
      }
    }
    assert Since(origin, steps', |steps'|) == now;
  }

  // ------------------------------------------------------- the candidates

  /** What became of one candidate ordinal, with the events that say so. */
  datatype Verdict =
    | NotInMap
    | LeavingCluster(id: string)
    | PodUnfit(id: string, events: seq<Event>)
    | SetFailed(id: string, events: seq<Event>)
    | NewPrimary(id: string, events: seq<Event>)

  /** An attempt to make ordinal idx primary: the map is read, and a call made unless it shows idx as such. */
  ghost predicate Tried(events: seq<Event>, base: string, idx: nat, accepted: bool) {
    || (events == [] && !accepted)
    || (|events| == 1 && events[0].MapRead? && (accepted <==> PrimaryAt(events[0].smap, base, idx))
        && (!accepted ==> !Present(events[0].smap.proxies, PodName(base, idx))))
    || (|events| == 2 && events[0].MapRead? && events[1].PrimaryCalled? && !PrimaryAt(events[0].smap, base, idx)
        && Serves(events[0].smap.proxies, events[1].id, PodName(base, idx)))
  }

  /** The pod was read, found fit, and its node asked to take over. */
  ghost predicate FitAndTried(events: seq<Event>, base: string, idx: nat, updateRevision: string, accepted: bool) {
    && |events| > 0 && events[0].PodRead? && events[0].podName == PodName(base, idx)
    && IsFit(events[0].pod, updateRevision)
    && Tried(events[1..], base, idx, accepted)
  }

  /** The pod could not be read, or was read and found unfit. */
  ghost predicate UnfitBy(events: seq<Event>, base: string, idx: nat, updateRevision: string) {
    || events == []
    || (|events| == 1 && events[0].PodRead? && events[0].podName == PodName(base, idx)
        && !IsFit(events[0].pod, updateRevision))
  }

  ghost predicate Truthful(v: Verdict, m1: Smap, base: string, idx: nat, updateRevision: string) {
    var podName := PodName(base, idx);
    match v
    case NotInMap => !Present(m1.proxies, podName)
    case LeavingCluster(id) => Serves(m1.proxies, id, podName) && m1.proxies[id].flag != Active
    case PodUnfit(id, events) =>
      && Serves(m1.proxies, id, podName) && m1.proxies[id].flag == Active
      && UnfitBy(events, base, idx, updateRevision)
    case SetFailed(id, events) =>
      && Serves(m1.proxies, id, podName) && m1.proxies[id].flag == Active
      && FitAndTried(events, base, idx, updateRevision, false)
    case NewPrimary(id, events) =>
      && Serves(m1.proxies, id, podName) && m1.proxies[id].flag == Active
      && FitAndTried(events, base, idx, updateRevision, true)
  }

  function EventsOf(v: Verdict): seq<Event> {
    match v
    case NotInMap => []
    case LeavingCluster(_) => []
    case PodUnfit(_, events) => events
    case SetFailed(_, events) => events
    case NewPrimary(_, events) => events
  }

  /** What a list of verdicts says was read and called. */
  function AllEvents(verdicts: seq<Verdict>): seq<Event> {
    if verdicts == [] then [] else AllEvents(verdicts[..|verdicts| - 1]) + EventsOf(verdicts[|verdicts| - 1])
  }

  /** The candidates below |verdicts| were examined in ascending order; only the last may have been chosen. */
  ghost predicate Examined(verdicts: seq<Verdict>, m1: Smap, base: string, updateRevision: string) {
    && (forall j: nat :: j < |verdicts| ==> Truthful(verdicts[j], m1, base, j, updateRevision))
    && (forall j: nat :: j < |verdicts| - 1 ==> !verdicts[j].NewPrimary?)
  }

  ghost predicate NoneChosen(verdicts: seq<Verdict>) {
    forall j :: 0 <= j < |verdicts| ==> !verdicts[j].NewPrimary?
  }

  lemma OneMoreExamined(verdicts: seq<Verdict>, v: Verdict, m1: Smap, base: string, updateRevision: string)
    requires Examined(verdicts, m1, base, updateRevision) && NoneChosen(verdicts)
    requires Truthful(v, m1, base, |verdicts|, updateRevision)
    ensures Examined(verdicts + [v], m1, base, updateRevision)
    ensures !v.NewPrimary? ==> NoneChosen(verdicts + [v])
  {
    var all := verdicts + [v];
    forall j: nat | j < |all| ensures Truthful(all[j], m1, base, j, updateRevision) {
      if j < |verdicts| {
        assert all[j] == verdicts[j];
      }
    }
  }

  lemma OneMoreLogged(log: seq<Event>, verdicts: seq<Verdict>, v: Verdict)
    ensures log + AllEvents(verdicts) + EventsOf(v) == log + AllEvents(verdicts + [v])
  {
    assert (verdicts + [v])[..|verdicts|] == verdicts;
    assert log + AllEvents(verdicts) + EventsOf(v) == log + (AllEvents(verdicts) + EventsOf(v));
  }

  /** In the cluster as it is, ordinal idx may become primary. */
  ghost predicate Eligible(m: Smap, pods: map<string, Pod>, base: string, idx: nat, updateRevision: string) {
    && (exists id :: Serves(m.proxies, id, PodName(base, idx)) && m.proxies[id].flag == Active)
    && IsFit(Lookup(pods, PodName(base, idx)), updateRevision)
  }

  // ---------------------------------------------------------- decommissions

  /** The decommission calls for ordinals c-1 down to d: one for each that the map knows, highest first. */
  ghost predicate RemovalCalls(calls: seq<string>, nodes: NodeMap, base: string, d: nat, c: nat)
    decreases c - d
  {
    if c <= d then calls == []
    else if Present(nodes, PodName(base, d)) then
      && |calls| > 0 && Serves(nodes, calls[|calls| - 1], PodName(base, d))
      && RemovalCalls(calls[..|calls| - 1], nodes, base, d + 1, c)
    else RemovalCalls(calls, nodes, base, d + 1, c)
  }

  ghost predicate ServesOneOf(nodes: NodeMap, id: string, base: string, d: nat, c: nat) {
    exists i: nat :: d <= i < c && Serves(nodes, id, PodName(base, i))
  }

  /** Every call names a node of a removed ordinal. */
  lemma {:induction false} CallsNameRemoved(calls: seq<string>, nodes: NodeMap, base: string, d: nat, c: nat)
    requires RemovalCalls(calls, nodes, base, d, c)
    ensures forall k :: 0 <= k < |calls| ==> ServesOneOf(nodes, calls[k], base, d, c)
    decreases c - d
  {
    if d < c {
      var rest := if Present(nodes, PodName(base, d)) then calls[..|calls| - 1] else calls;
      CallsNameRemoved(rest, nodes, base, d + 1, c);
      forall k | 0 <= k < |calls| ensures ServesOneOf(nodes, calls[k], base, d, c) {
        assert k < |rest| ==> calls[k] == rest[k];
      }
    }
  }

  /** No removed ordinal that the map knows is skipped. */
  lemma {:induction false} NoRemovedSkipped(calls: seq<string>, nodes: NodeMap, base: string, d: nat, c: nat, i: nat)
    requires RemovalCalls(calls, nodes, base, d, c) && d <= i < c && Present(nodes, PodName(base, i))
    ensures exists k :: 0 <= k < |calls| && Serves(nodes, calls[k], PodName(base, i))
    decreases c - d
  {
    if d < i {
      var rest := if Present(nodes, PodName(base, d)) then calls[..|calls| - 1] else calls;
      NoRemovedSkipped(rest, nodes, base, d + 1, c, i);
      var k :| 0 <= k < |rest| && Serves(nodes, rest[k], PodName(base, i));
      assert Serves(nodes, calls[k], PodName(base, i));
    }
  }

  /** The nodes told to leave are leaving, and no other has changed. */
  ghost predicate LeftBy(was: NodeMap, now: NodeMap, told: seq<string>) {
    forall id :: LeftAt(was, now, told, id)
  }

  ghost predicate LeftAt(was: NodeMap, now: NodeMap, told: seq<string>, id: string) {
    && (id in now <==> id in was)
    && (id in was ==> now[id] == if id in told then was[id].(flag := Decomm) else was[id])
  }

  lemma NoneLeft(was: NodeMap)
    ensures LeftBy(was, was, [])
  {
  }

  lemma OneMoreLeft(was: NodeMap, now: NodeMap, told: seq<string>, id: string)
    requires LeftBy(was, now, told) && id in was
    ensures id in now && LeftBy(was, now[id := now[id].(flag := Decomm)], told + [id])
  {
    assert LeftAt(was, now, told, id);
    var next, ids := now[id := now[id].(flag := Decomm)], told + [id];
    forall x ensures LeftAt(was, next, ids, x) {
      assert LeftAt(was, now, told, x);
    }
  }

  function CallsFor(ids: seq<string>): seq<Event> {
    seq(|ids|, i requires 0 <= i < |ids| => RemovalCalled(ids[i]))
  }

  /** A node of a removed ordinal is not the primary, once the primary is on an ordinal that stays. */
  lemma RemovedIsNotPrimary(m1: Smap, now: Smap, hosts: map<string, string>, base: string, d: nat, c: nat, id: string)
    requires HostsAgree(m1, hosts) && HostsAgree(now, hosts)
    requires PrimaryBelow(now, base, d) && ServesOneOf(m1.proxies, id, base, d, c)
    ensures id != now.primary.value.id
  {
    var p: nat :| p < d && PrimaryAt(now, base, p);
    var i: nat :| d <= i < c && Serves(m1.proxies, id, PodName(base, i));
    if id == now.primary.value.id {
      OneOrdinalPerHostname(hosts[id], base, p, i);
    }
  }

  // ------------------------------------------------------------- controller

  /** The log records what was read and called; the ghost steps say what the cluster was before and after each
      entry, and Valid demands that they make up its history. With `calm`, no call fails and nothing else moves. */
  class Controller {
    const base: string
    const hosts: map<string, string>
    const calm: bool
    ghost const origin: Moment
    var smap: Smap
    var pods: map<string, Pod>
    var replicas: nat
    var log: seq<Event>
    ghost var steps: seq<Step>

    ghost function Now(): Moment
      reads this
    {
      Moment(smap, pods, replicas)
    }

    ghost predicate Valid()
      reads this
    {
      HostsAgree(smap, hosts) && IsTrace(hosts, origin, log, steps, Now())
    }

    constructor (base: string, hosts: map<string, string>, calm: bool, start: Moment)
      requires HostsAgree(start.smap, hosts)
      ensures Valid() && this.base == base && this.hosts == hosts && this.calm == calm
      ensures Now() == start && origin == start && log == []
    {
      this.base, this.hosts, this.calm, origin := base, hosts, calm, start;
      smap, pods, replicas, log, steps := start.smap, start.pods, start.replicas, [], [];
    }

    // ------------------------------------------------------------ API calls

    method WorldMoves()
      requires Valid()
      modifies `smap, `pods
      ensures Valid() && smap.primary == old(smap).primary
      ensures calm ==> Now() == old(Now())
    {
      if calm {
        return;
      }
      var next: Smap := *;
      if next.primary == smap.primary && HostsAgree(next, hosts) {
        smap := next;
      }
      pods := *;
    }

    method CallFails() returns (fails: bool)
      ensures calm ==> !fails
    {
      fails := *;
      fails := fails && !calm;
    }

    method GetClusterMap() returns (m: Option<Smap>)
      requires Valid()
      modifies `smap, `pods, `log, `steps
      ensures Valid() && old(steps) <= steps && smap.primary == old(smap).primary
      ensures m.Some? ==> m.value == smap
      ensures log == if m.Some? then old(log) + [MapRead(smap)] else old(log)
      ensures calm ==> m.Some? && Now() == old(Now())
    {
      WorldMoves();
      var fails := CallFails();
      if fails {
        return None;
      }
      TraceGrows(hosts, origin, log, steps, Now(), MapRead(smap), Now());
      log, steps := log + [MapRead(smap)], steps + [Step(Now(), Now())];
      return Some(smap);
    }

    /** A failed read and a missing pod are both no pod to a caller that looks for a ready one. */
    method GetPod(podName: string) returns (pod: Option<Pod>)
      requires Valid()
      modifies `smap, `pods, `log, `steps
      ensures Valid() && old(steps) <= steps && smap.primary == old(smap).primary
      ensures log == old(log) + [PodRead(podName, pod)] || (log == old(log) && pod == None)
      ensures calm ==> log == old(log) + [PodRead(podName, pod)] && pod == Lookup(pods, podName) && Now() == old(Now())
    {
      WorldMoves();
      var fails := CallFails();
      if fails {
        return None;
      }
      pod := Lookup(pods, podName);
      TraceGrows(hosts, origin, log, steps, Now(), PodRead(podName, pod), Now());
      log, steps := log + [PodRead(podName, pod)], steps + [Step(Now(), Now())];
    }

    /** A call that errs may have had its effect all the same. */
    method SetPrimaryProxy(id: string) returns (ok: bool)
      requires Valid()
      modifies `smap, `pods, `log, `steps
      ensures Valid() && old(steps) <= steps && log == old(log) + [PrimaryCalled(id)]
      ensures ok ==> smap.primary.Some? && smap.primary.value.id == id && id in hosts
      ensures smap.primary == old(smap).primary || (smap.primary.Some? && smap.primary.value.id == id)
      ensures calm ==> pods == old(pods) && (id in old(smap).proxies ==> ok && smap == WithPrimary(old(smap), id))
    {
      WorldMoves();
      ghost var was := Now();
      var fails := CallFails();
      var lost: bool := *;
      ok := id in smap.proxies && !fails;
      if id in smap.proxies && !(fails && lost) {
        smap := WithPrimary(smap, id);
      }
      TraceGrows(hosts, origin, log, steps, was, PrimaryCalled(id), Now());
      log, steps := log + [PrimaryCalled(id)], steps + [Step(was, Now())];
    }

    /** Best effort: an error is passed over. The call must not hit the primary. */
    method DecommissionNode(id: string)
      requires Valid() && (smap.primary.Some? ==> id != smap.primary.value.id)
      modifies `smap, `pods, `log, `steps
      ensures Valid() && old(steps) <= steps && log == old(log) + [RemovalCalled(id)]
      ensures smap.primary == old(smap).primary
      ensures calm && id in old(smap).proxies ==> smap == Leaving(old(smap), id)
    {
      WorldMoves();
      ghost var was := Now();
      var fails := CallFails();
      if id in smap.proxies && !fails {
        smap := Leaving(smap, id);
      }
      TraceGrows(hosts, origin, log, steps, was, RemovalCalled(id), Now());
      log, steps := log + [RemovalCalled(id)], steps + [Step(was, Now())];
    }

    method UpdateStatefulSetReplicas(size: nat) returns (ok: bool)
      requires Valid()
      modifies `smap, `pods, `replicas, `log, `steps
      ensures Valid() && old(steps) <= steps && smap.primary == old(smap).primary
      ensures replicas == old(replicas) || replicas == size
      ensures log == if replicas == old(replicas) then old(log) else old(log) + [ReplicasSet(old(replicas), size)]
      ensures ok ==> replicas == size
      ensures calm ==> ok && Now() == old(Now()).(replicas := size)
    {
      WorldMoves();
      var fails := CallFails();
      var lost: bool := *;
      if replicas == size || (fails && lost) {
        return !fails;
      }
      ghost var was := Now();
      var e := ReplicasSet(replicas, size);
      replicas := size;
      TraceGrows(hosts, origin, log, steps, was, e, Now());
      log, steps := log + [e], steps + [Step(was, Now())];
      return !fails;
    }

    // --------------------------------------------------- moving the primary

    /** Makes the pod of an ordinal primary, unless the map read here already shows it as such. */
    method SetPrimaryTo(podIdx: nat) returns (ok: bool, ghost events: seq<Event>)
      requires Valid()
      modifies `smap, `pods, `log, `steps
      ensures Valid() && old(steps) <= steps
      ensures log == old(log) + events && Tried(events, base, podIdx, ok)
      ensures ok ==> PrimaryAt(smap, base, podIdx)
      ensures calm ==> pods == old(pods) && (Present(old(smap).proxies, PodName(base, podIdx)) ==> ok)
      ensures calm ==> smap.proxies == old(smap).proxies
    {
      var podName := PodName(base, podIdx);
      var m := GetClusterMap();
      if m.None? {
        return false, [];
      }
      events := [MapRead(m.value)];
      if m.value.primary.Some? && HostnameMatchesPod(m.value.primary.value.hostname, podName) {
        return true, events;
      }
      var node := FindAISNodeByPodName(m.value.proxies, podName);
      if node.None? {
        return false, events;
      }
      assert hosts[node.value] == m.value.proxies[node.value].hostname;
      ok := SetPrimaryProxy(node.value);
      events := events + [PrimaryCalled(node.value)];
    }

    /** Asks node `id` to take over if its pod is fit. */
    method TryPod(id: string, idx: nat, updateRevision: string) returns (v: Verdict)
      requires Valid()
      modifies `smap, `pods, `log, `steps
      ensures Valid() && old(steps) <= steps && log == old(log) + EventsOf(v)
      ensures (v.PodUnfit? || v.SetFailed? || v.NewPrimary?) && v.id == id
      ensures v.PodUnfit? ==> UnfitBy(v.events, base, idx, updateRevision)
      ensures !v.PodUnfit? ==> FitAndTried(v.events, base, idx, updateRevision, v.NewPrimary?)
      ensures v.NewPrimary? ==> PrimaryAt(smap, base, idx)
      ensures calm ==> pods == old(pods) && (v.PodUnfit? ==> smap == old(smap))
      ensures calm ==> (v.PodUnfit? <==> !IsFit(Lookup(old(pods), PodName(base, idx)), updateRevision))
      ensures calm && Present(old(smap).proxies, PodName(base, idx)) ==> !v.SetFailed?
      ensures calm ==> smap.proxies == old(smap).proxies
    {
      var start := |log|;
      var pod := GetPod(PodName(base, idx));
      if !IsPodValidNewPrimary(pod, updateRevision) {
        return PodUnfit(id, log[start..]);
      }
      ghost var events;
      var ok;
      ok, events := SetPrimaryTo(idx);
      var all := log[start..];
      assert all == [PodRead(PodName(base, idx), pod)] + events && all[1..] == events;
      return if ok then NewPrimary(id, all) else SetFailed(id, all);
    }

    /** Whether ordinal idx may be primary, and if so, whether it became so. */
    method Examine(m1: Smap, idx: nat, updateRevision: string) returns (v: Verdict)
      requires Valid()
      modifies `smap, `pods, `log, `steps
      ensures Valid() && old(steps) <= steps
      ensures Truthful(v, m1, base, idx, updateRevision) && log == old(log) + EventsOf(v)
      ensures v.NewPrimary? ==> PrimaryAt(smap, base, idx)
      ensures calm ==> smap.proxies == old(smap).proxies
      ensures calm && m1 == old(smap) && OneNodePerPod(m1.proxies, base) ==>
                && pods == old(pods) && (!v.NewPrimary? ==> smap == old(smap))
                && (v.NewPrimary? <==> Eligible(m1, old(pods), base, idx, updateRevision))
    {
      var podName := PodName(base, idx);
      var node := FindAISNodeByPodName(m1.proxies, podName);
      if node.None? {
        return NotInMap;
      }
      if InMaintOrDecomm(m1.proxies[node.value]) {
        return LeavingCluster(node.value);
      }
      v := TryPod(node.value, idx, updateRevision);
    }

    /** Tries the ordinals that stay, lowest first, until one takes over. */
    method SetLowestEligiblePodAsPrimary(m1: Smap, d: nat, updateRevision: string)
      returns (ok: bool, verdicts: seq<Verdict>)
      requires Valid()
      modifies `smap, `pods, `log, `steps
      ensures Valid() && old(steps) <= steps
      ensures Examined(verdicts, m1, base, updateRevision) && log == old(log) + AllEvents(verdicts)
      ensures ok ==>
                0 < |verdicts| <= d && verdicts[|verdicts| - 1].NewPrimary? && PrimaryAt(smap, base, |verdicts| - 1)
      ensures !ok ==> |verdicts| == d && NoneChosen(verdicts)
      ensures calm ==> smap.proxies == old(smap).proxies
      ensures calm && m1 == old(smap) && OneNodePerPod(m1.proxies, base) ==>
                ChoosesLowest(ok, |verdicts|, m1, old(pods), d, updateRevision)
    {
      verdicts := [];
      for idx := 0 to d
        invariant Valid() && old(steps) <= steps && |verdicts| == idx
        invariant log == old(log) + AllEvents(verdicts)
        invariant Examined(verdicts, m1, base, updateRevision) && NoneChosen(verdicts)
        invariant calm ==> smap.proxies == old(smap).proxies
        invariant calm && m1 == old(smap) && OneNodePerPod(m1.proxies, base) ==>
          smap == m1 && pods == old(pods) && NoneEligible(m1, old(pods), idx, updateRevision)
      {
        var v := Examine(m1, idx, updateRevision);
        OneMoreExamined(verdicts, v, m1, base, updateRevision);
        OneMoreLogged(old(log), verdicts, v);
        EligibleNext(m1, old(pods), idx, d, updateRevision);
        verdicts := verdicts + [v];
        if v.NewPrimary? {
          return true, verdicts;
        }
      }
      return false, verdicts;
    }

    lemma EligibleNext(m: Smap, pods: map<string, Pod>, idx: nat, d: nat, updateRevision: string)
      requires idx < d
      ensures NoneEligible(m, pods, idx, updateRevision) && !Eligible(m, pods, base, idx, updateRevision) ==>
                NoneEligible(m, pods, idx + 1, updateRevision)
      ensures Eligible(m, pods, base, idx, updateRevision) ==> !NoneEligible(m, pods, d, updateRevision)
    {
    }

    ghost predicate NoneEligible(m: Smap, pods: map<string, Pod>, d: nat, updateRevision: string) {
      forall j: nat :: j < d ==> !Eligible(m, pods, base, j, updateRevision)
    }

    /** The choice is made exactly if there is one to make, and it is the lowest. */
    ghost predicate ChoosesLowest(ok: bool, n: nat, m: Smap, pods: map<string, Pod>, d: nat, updateRevision: string) {
      && (ok <==> !NoneEligible(m, pods, d, updateRevision))
      && (ok ==>
            n > 0 && Eligible(m, pods, base, n - 1, updateRevision) && NoneEligible(m, pods, n - 1, updateRevision))
    }

    /** In a calm cluster it succeeds, unless the primary has to move and no ordinal that stays is eligible. */
    ghost predicate CalmChoice(ok: bool, n: nat, m: Smap, pods: map<string, Pod>, d: nat, updateRevision: string) {
      if PrimaryBelow(m, base, d) then ok else ChoosesLowest(ok, n, m, pods, d, updateRevision)
    }

    /** The primary is on an ordinal that stays: it was there already, or else the lowest candidate that was eligible
        and accepted took over. */
    ghost predicate Secured(verdicts: seq<Verdict>, m1: Smap, now: Smap, d: nat, updateRevision: string) {
      && PrimaryBelow(now, base, d)
      && if verdicts == [] then PrimaryBelow(m1, base, d) && now.primary == m1.primary
         else
           && !PrimaryBelow(m1, base, d) && |verdicts| <= d && Examined(verdicts, m1, base, updateRevision)
           && verdicts[|verdicts| - 1].NewPrimary? && PrimaryAt(now, base, |verdicts| - 1)
    }

    lemma SecuredSame(verdicts: seq<Verdict>, m1: Smap, was: Smap, now: Smap, d: nat, updateRevision: string)
      requires Secured(verdicts, m1, was, d, updateRevision) && now.primary == was.primary
      ensures Secured(verdicts, m1, now, d, updateRevision)
    {
      PrimarySame(was, now, base, d);
    }

    /** Leaves a primary that stays where it is; moves any other, known or unknown. */
    method EnsurePrimarySurvivesScaleDown(ss: StatefulSet, m1: Smap, d: nat)
      returns (ok: bool, verdicts: seq<Verdict>)
      requires Valid() && HostsAgree(m1, hosts) && m1.primary == smap.primary && d < ss.replicas
      modifies `smap, `pods, `log, `steps
      ensures Valid() && old(steps) <= steps && log == old(log) + AllEvents(verdicts)
      ensures ok ==> Secured(verdicts, m1, smap, d, ss.status.updateRevision)
      ensures PrimaryBelow(m1, base, d) ==> ok && verdicts == [] && smap == old(smap)
      ensures !ok ==> |verdicts| == d && Examined(verdicts, m1, base, ss.status.updateRevision) && NoneChosen(verdicts)
      ensures calm ==> smap.proxies == old(smap).proxies
      ensures calm && m1 == old(smap) && OneNodePerPod(m1.proxies, base) ==>
                CalmChoice(ok, |verdicts|, m1, old(pods), d, ss.status.updateRevision)
    {
      var idx := FindPrimaryPodIdx(m1, base, ss.replicas);
      if idx.Some? && idx.value < d {
        assert PrimaryAt(m1, base, idx.value) && PrimaryAt(smap, base, idx.value);
        return true, [];
      }
      assert !PrimaryBelow(m1, base, d) by {
        assert forall p: nat :: p < d && PrimaryAt(m1, base, p) ==> idx == Some(p);
      }
      ok, verdicts := SetLowestEligiblePodAsPrimary(m1, d, ss.status.updateRevision);
    }

    // -------------------------------------------------------- the scale-down

    lemma OneMoreCall(before: seq<Event>, told: seq<string>, id: string)
      ensures before + CallsFor(told) + [RemovalCalled(id)] == before + CallsFor(told + [id])
      ensures (told + [id])[..|told|] == told
    {
    }

    lemma NoneIsPrimary(m1: Smap, told: seq<string>, d: nat, c: nat)
      requires HostsAgree(m1, hosts) && HostsAgree(smap, hosts) && PrimaryBelow(smap, base, d)
      requires RemovalCalls(told, m1.proxies, base, d, c)
      ensures smap.primary.Some? && smap.primary.value.id !in told
    {
      CallsNameRemoved(told, m1.proxies, base, d, c);
      forall k | 0 <= k < |told| ensures told[k] != smap.primary.value.id {
        RemovedIsNotPrimary(m1, smap, hosts, base, d, c, told[k]);
      }
    }

    method DecommissionProxies(m1: Smap, c: nat, d: nat) returns (ghost told: seq<string>)
      requires Valid() && HostsAgree(m1, hosts) && d < c && PrimaryBelow(smap, base, d)
      modifies `smap, `pods, `log, `steps
      ensures Valid() && old(steps) <= steps && smap.primary == old(smap).primary
      ensures log == old(log) + CallsFor(told) && RemovalCalls(told, m1.proxies, base, d, c)
      ensures PrimaryBelow(smap, base, d) && smap.primary.value.id !in told
      ensures calm && m1.proxies == old(smap).proxies ==> LeftBy(m1.proxies, smap.proxies, told)
    {
      ghost var first := smap;
      told := [];
      NoneLeft(m1.proxies);
      var idx := c - 1;
      while idx >= d
        invariant d - 1 <= idx < c
        invariant Valid() && old(steps) <= steps && smap.primary == first.primary
        invariant log == old(log) + CallsFor(told) && RemovalCalls(told, m1.proxies, base, idx + 1, c)
        invariant calm && m1.proxies == old(smap).proxies ==> LeftBy(m1.proxies, smap.proxies, told)
      {
        var node := FindAISNodeByPodName(m1.proxies, PodName(base, idx));
        if node.Some? {
          assert ServesOneOf(m1.proxies, node.value, base, d, c);
          PrimarySame(first, smap, base, d);
          RemovedIsNotPrimary(m1, smap, hosts, base, d, c, node.value);
          ghost var before := smap.proxies;
          DecommissionNode(node.value);
          if calm && m1.proxies == old(smap).proxies {
            OneMoreLeft(m1.proxies, before, told, node.value);
          }
          OneMoreCall(old(log), told, node.value);
          told := told + [node.value];
        }
        idx := idx - 1;
      }
      PrimarySame(first, smap, base, d);
      NoneIsPrimary(m1, told, d, c);
    }

    /** The primary is secured, and every removed proxy the map knows was told to leave - but not the primary. */
    ghost predicate Survives(verdicts: seq<Verdict>, m1: Smap, told: seq<string>, ss: StatefulSet, d: nat)
      reads `smap
    {
      && Secured(verdicts, m1, smap, d, ss.status.updateRevision) && smap.primary.value.id !in told
      && RemovalCalls(told, m1.proxies, base, d, ss.replicas)
    }

    /** Reads the map, and sees to it that the primary is on an ordinal that stays. */
    method SecurePrimary(ss: StatefulSet, d: nat) returns (ok: bool, verdicts: seq<Verdict>, m1: Smap)
      requires Valid() && d < ss.replicas
      modifies `smap, `pods, `log, `steps
      ensures Valid() && old(steps) <= steps && HostsAgree(m1, hosts) && m1.primary == old(smap).primary
      ensures log == old(log) + ([MapRead(m1)] + AllEvents(verdicts)) || (!ok && log == old(log))
      ensures ok ==> Secured(verdicts, m1, smap, d, ss.status.updateRevision)
      ensures calm ==> m1 == old(smap) && smap.proxies == m1.proxies
      ensures calm && OneNodePerPod(old(smap).proxies, base) ==>
                CalmChoice(ok, |verdicts|, m1, old(pods), d, ss.status.updateRevision)
    {
      ok, verdicts, m1 := false, [], smap;
      var m := GetClusterMap();
      if m.Some? {
        m1 := m.value;
        ok, verdicts := EnsurePrimarySurvivesScaleDown(ss, m1, d);
        AfterTheMap(old(log), m1, verdicts);
      }
    }

    lemma AfterTheMap(before: seq<Event>, m1: Smap, verdicts: seq<Verdict>)
      ensures before + [MapRead(m1)] + AllEvents(verdicts) == before + ([MapRead(m1)] + AllEvents(verdicts))
    {
    }

    /** Everything that has to happen before the size is lowered to d. The map m1 is read first, and all is judged
        by it: the candidates, and then the nodes that are told to leave. */
    method PrepareProxyScaleDown(ss: StatefulSet, d: nat)
      returns (ok: bool, verdicts: seq<Verdict>, ghost m1: Smap, ghost told: seq<string>)
      requires Valid() && d < ss.replicas
      modifies `smap, `pods, `log, `steps
      ensures Valid() && old(steps) <= steps
      ensures !ok ==> told == [] && (log == old(log) || log == old(log) + ([MapRead(m1)] + AllEvents(verdicts)))
      ensures ok ==> log == old(log) + ([MapRead(m1)] + AllEvents(verdicts)) + CallsFor(told)
      ensures ok ==> Survives(verdicts, m1, told, ss, d) && m1.primary == old(smap).primary
      ensures calm ==> m1 == old(smap) && (ok ==> LeftBy(m1.proxies, smap.proxies, told))
      ensures calm && OneNodePerPod(old(smap).proxies, base) ==>
                CalmChoice(ok, |verdicts|, m1, old(pods), d, ss.status.updateRevision)
    {
      told := [];
      var m;
      ok, verdicts, m := SecurePrimary(ss, d);
      m1 := m;
      if ok {
        ghost var moved := smap;
        told := DecommissionProxies(m, ss.replicas, d);
        SecuredSame(verdicts, m1, moved, smap, d, ss.status.updateRevision);
      }
    }

    /** Scales the proxies to d. The size goes down only once the primary is on an ordinal that stays and every
        removed proxy the map knows has been told to leave, highest ordinal first. */
    method HandleProxyScale(ss: StatefulSet, d: nat)
      returns (ok: bool, verdicts: seq<Verdict>, ghost m1: Smap, ghost told: seq<string>)
      requires Valid() && ss.replicas == replicas
      modifies `smap, `pods, `replicas, `log, `steps
      ensures Valid() && old(steps) <= steps
      ensures replicas == old(replicas) || replicas == d
      ensures ok ==> replicas == d
      ensures d >= old(replicas) ==> log == old(log) + Resized(old(replicas), replicas)
      ensures d < old(replicas) && told == [] && replicas != d ==>
                log == old(log) || log == old(log) + ([MapRead(m1)] + AllEvents(verdicts))
      ensures d < old(replicas) && (told != [] || replicas == d) ==>
                && log == old(log) + ([MapRead(m1)] + AllEvents(verdicts)) + CallsFor(told)
                          + Resized(old(replicas), replicas)
                && Survives(verdicts, m1, told, ss, d) && m1.primary == old(smap).primary
      ensures calm && d >= old(replicas) ==> ok
      ensures calm && d < old(replicas) && ok ==> LeftBy(old(smap).proxies, smap.proxies, told)
      ensures calm && d < old(replicas) && OneNodePerPod(old(smap).proxies, base) ==>
                CalmChoice(ok, |verdicts|, old(smap), old(pods), d, ss.status.updateRevision)
    {
      verdicts, told, m1 := [], [], smap;
      if replicas == d {
        return true, verdicts, m1, told;
      }
      if replicas > d {
        ok, verdicts, m1, told := PrepareProxyScaleDown(ss, d);
        if !ok {
          return;
        }
      }
      ghost var prepared := smap;
      ok := UpdateStatefulSetReplicas(d);
      if d < old(replicas) {
        SecuredSame(verdicts, m1, prepared, smap, d, ss.status.updateRevision);
      }
    }

    ghost function Resized(before: nat, after: nat): seq<Event> {
      if before == after then [] else [ReplicasSet(before, after)]
    }
  }
}
