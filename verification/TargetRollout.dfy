/** Rollout of the target StatefulSet: OnDelete, so the operator itself drains and deletes pods,
    one ordinal at a time. A pass of the operator may stop at any call, and the rest of the world
    may move between any two calls. */
module TargetRollout {
  import opened Wrappers
  import opened PodNaming
  import opened ClusterMap
  import opened StatefulSets

  type PodMap = map<string, Pod>

  // ------------------------------------------------------- choosing a pod

  /** The pod is live on the update revision, and ready or unschedulable. */
  predicate Settled(pods: PodMap, base: string, rev: string, j: nat) {
    var name := PodName(base, j);
    && name in pods && !pods[name].terminating && pods[name].revision == rev
    && (pods[name].ready || pods[name].unschedulable)
  }

  predicate OldAndActive(pods: PodMap, base: string, rev: string, i: nat) {
    var name := PodName(base, i);
    name in pods && !pods[name].terminating && pods[name].revision != rev
  }

  /** Ordinal i is next: it still runs another revision, and every lower ordinal has completed its rollout. */
  predicate NeedsUpdate(pods: PodMap, base: string, n: nat, rev: string, i: nat) {
    && i < n
    && OldAndActive(pods, base, rev, i)
    && forall j: nat :: j < i ==> Settled(pods, base, rev, j)
  }

  lemma SettledMeans(pods: PodMap, base: string, rev: string, k: nat)
    ensures (forall j: nat :: j < k ==> Settled(pods, base, rev, j)) <==>
            forall j: nat :: j < k ==>
              var name := PodName(base, j);
              && name in pods && !pods[name].terminating && pods[name].revision == rev
              && (pods[name].ready || pods[name].unschedulable)
  {
    forall j: nat
      ensures Settled(pods, base, rev, j) <==>
              var name := PodName(base, j);
              && name in pods && !pods[name].terminating && pods[name].revision == rev
              && (pods[name].ready || pods[name].unschedulable)
    {
    }
  }

  lemma NeedsUpdateMeans(pods: PodMap, base: string, n: nat, rev: string, next: Option<nat>)
    requires forall i: nat :: next == Some(i) <==> NeedsUpdate(pods, base, n, rev, i)
    ensures forall i: nat :: next == Some(i) <==>
              && i < n
              && (var name := PodName(base, i); name in pods && !pods[name].terminating && pods[name].revision != rev)
              && (forall j: nat :: j < i ==>
                    var name := PodName(base, j);
                    && name in pods && !pods[name].terminating && pods[name].revision == rev
                    && (pods[name].ready || pods[name].unschedulable))
  {
    forall i: nat
      ensures next == Some(i) <==>
              && i < n
              && (var name := PodName(base, i); name in pods && !pods[name].terminating && pods[name].revision != rev)
              && (forall j: nat :: j < i ==>
                    var name := PodName(base, j);
                    && name in pods && !pods[name].terminating && pods[name].revision == rev
                    && (pods[name].ready || pods[name].unschedulable))
    {
      assert next == Some(i) <==> NeedsUpdate(pods, base, n, rev, i);
      SettledMeans(pods, base, rev, i);
    }
  }

  datatype NamedPod = NamedPod(name: string, pod: Pod)

  /** The list holds each pod of the map once. */
  ghost predicate Lists(list: seq<NamedPod>, pods: PodMap) {
    && (forall k :: 0 <= k < |list| ==> list[k].name in pods && list[k].pod == pods[list[k].name])
    && (forall name :: name in pods ==> exists k :: 0 <= k < |list| && list[k].name == name)
  }

  method IndexByName(list: seq<NamedPod>, ghost pods: PodMap) returns (byName: PodMap)
    requires Lists(list, pods)
    ensures byName == pods
  {
    byName := map[];
    for k := 0 to |list|
      invariant forall name :: name in byName <==> exists m :: 0 <= m < k && list[m].name == name
      invariant forall name :: name in byName ==> name in pods && byName[name] == pods[name]
    {
      byName := byName[list[k].name := list[k].pod];
    }
  }

  ghost predicate ActiveOnRevision(pods: PodMap, base: string, rev: string, j: nat) {
    var name := PodName(base, j);
    name in pods && !pods[name].terminating && pods[name].revision == rev
  }

  /** A pod that is neither settled nor waiting for its update holds everything up. */
  lemma HeldUp(pods: PodMap, base: string, n: nat, rev: string, k: nat)
    requires forall j: nat :: j < k ==> Settled(pods, base, rev, j)
    requires !Settled(pods, base, rev, k) && !OldAndActive(pods, base, rev, k)
    ensures forall i: nat :: !NeedsUpdate(pods, base, n, rev, i)
  {
    forall i: nat ensures !NeedsUpdate(pods, base, n, rev, i) {
      if i < k {
        assert Settled(pods, base, rev, i);
      }
    }
  }

  lemma OneAtATime(pods: PodMap, base: string, n: nat, rev: string, k: nat)
    requires k < n && OldAndActive(pods, base, rev, k)
    requires forall j: nat :: j < k ==> Settled(pods, base, rev, j)
    ensures forall i: nat :: k == i <==> NeedsUpdate(pods, base, n, rev, i)
  {
    forall i: nat | i != k ensures !NeedsUpdate(pods, base, n, rev, i) {
      if i < k {
        assert Settled(pods, base, rev, i);
      } else {
        assert !Settled(pods, base, rev, k);
      }
    }
  }

  /** The walk over the listed pods, lowest ordinal first. */
  method FirstNeedingUpdate(byName: PodMap, base: string, n: nat, rev: string) returns (next: Option<nat>)
    ensures forall i: nat :: next == Some(i) <==> NeedsUpdate(byName, base, n, rev, i)
  {
    for idx := 0 to n
      invariant idx > 0 ==> ActiveOnRevision(byName, base, rev, idx - 1)
      invariant forall j: nat :: j + 1 < idx ==> Settled(byName, base, rev, j)
    {
      if idx > 0 && !IsPodRolloutCompleted(Lookup(byName, PodName(base, idx - 1))) {
        HeldUp(byName, base, n, rev, idx - 1);
        return None;
      }
      assert idx > 0 ==> Settled(byName, base, rev, idx - 1);
      var pod := Lookup(byName, PodName(base, idx));
      if !IsPodActive(pod) {
        HeldUp(byName, base, n, rev, idx);
        return None;
      }
      if pod.value.revision != rev {
        OneAtATime(byName, base, n, rev, idx);
        return Some(idx);
      }
    }
    forall i: nat ensures !NeedsUpdate(byName, base, n, rev, i) {
      assert i + 1 < n ==> Settled(byName, base, rev, i);
    }
    return None;
  }

  /** None when the list call failed or when the rollout has to wait; otherwise the one ordinal whose live pod still
      runs another revision, while every lower one is live on the update revision and ready or unschedulable. */
  method FindPodNeedingUpdate(listed: Option<seq<NamedPod>>, ghost pods: PodMap, base: string, n: nat, rev: string)
    returns (next: Option<nat>)
    requires listed.Some? ==> Lists(listed.value, pods)
    ensures listed.None? ==> next.None?
    ensures listed.Some? ==> forall i: nat :: next == Some(i) <==>
              && i < n
              && (var name := PodName(base, i); name in pods && !pods[name].terminating && pods[name].revision != rev)
              && (forall j: nat :: j < i ==>
                    var name := PodName(base, j);
                    && name in pods && !pods[name].terminating && pods[name].revision == rev
                    && (pods[name].ready || pods[name].unschedulable))
    ensures listed.Some? ==> forall i: nat :: next == Some(i) <==> NeedsUpdate(pods, base, n, rev, i)
  {
    if listed.None? {
      return None;
    }
    var byName := IndexByName(listed.value, pods);
    next := FirstNeedingUpdate(byName, base, n, rev);
    NeedsUpdateMeans(pods, base, n, rev, next);
  }

  // ------------------------------------------------------ transition system

  /** Why a pass may delete a pod. */
  datatype Clearance =
    | Unschedulable(pod: Pod)
    | InMaintenance(id: string, targets: NodeMap)

  /** How far the running pass has come. */
  datatype Pass =
    | Idle
    | Listed
    | Chosen(i: nat)
    | Scheduled(i: nat)
    | Draining(i: nat, id: string, targets: NodeMap)
    | Deleting(i: nat, why: Clearance)

  /** `hosts` gives the hostname each daemon id reports; `listing` is what the pass's list call returned; `touched`
      remembers every ordinal the operator has put into maintenance or deleted. */
  datatype State = State(
    base: string,
    n: nat,
    rev: string,
    pods: PodMap,
    targets: NodeMap,
    hosts: map<string, string>,
    listing: PodMap,
    touched: set<nat>,
    pass: Pass)

  predicate HasOrdinal(pass: Pass) {
    !pass.Idle? && !pass.Listed?
  }

  predicate ValidClearance(why: Clearance, podName: string) {
    match why
    case Unschedulable(pod) => pod.unschedulable
    case InMaintenance(id, targets) => Serves(targets, id, podName) && targets[id].flag == Maint
  }

  function WithFlag(nodes: NodeMap, id: string, flag: Flag): NodeMap {
    if id in nodes then nodes[id := nodes[id].(flag := flag)] else nodes
  }

  function WithDeleted(pods: PodMap, podName: string): PodMap {
    if podName in pods then pods[podName := pods[podName].(terminating := true)] else pods
  }

  predicate StepList(s: State, t: State) {
    s.pass.Idle? && t == s.(listing := s.pods, pass := Listed)
  }

  predicate StepChoose(s: State, t: State) {
    && s.pass.Listed? && t.pass.Chosen?
    && NeedsUpdate(s.listing, s.base, s.n, s.rev, t.pass.i)
    && t == s.(pass := t.pass)
  }

  predicate StepGetPod(s: State, t: State) {
    && s.pass.Chosen? && PodName(s.base, s.pass.i) in s.pods
    && var pod := s.pods[PodName(s.base, s.pass.i)];
       t == s.(pass := if pod.unschedulable then Deleting(s.pass.i, Unschedulable(pod)) else Scheduled(s.pass.i))
  }

  predicate StepReadMap(s: State, t: State) {
    && s.pass.Scheduled?
    && t == s.(pass := t.pass)
    && match t.pass {
         case Draining(i, id, targets) =>
           && i == s.pass.i && targets == s.targets
           && Serves(targets, id, PodName(s.base, i)) && targets[id].flag != Maint
         case Deleting(i, InMaintenance(id, targets)) =>
           && i == s.pass.i && targets == s.targets
           && Serves(targets, id, PodName(s.base, i)) && targets[id].flag == Maint
         case _ => false
       }
  }

  predicate StepDrain(s: State, t: State) {
    && s.pass.Draining?
    && t == s.(targets := WithFlag(s.targets, s.pass.id, Maint), touched := s.touched + {s.pass.i}, pass := Idle)
  }

  predicate StepDelete(s: State, t: State) {
    && s.pass.Deleting?
    && t == s.(pods := WithDeleted(s.pods, PodName(s.base, s.pass.i)), touched := s.touched + {s.pass.i}, pass := Idle)
  }

  /** A failed call, a wait or a crash ends the pass. */
  predicate StepEnd(s: State, t: State) {
    t == s.(pass := Idle)
  }

  predicate OperatorStep(s: State, t: State) {
    || StepList(s, t) || StepChoose(s, t) || StepGetPod(s, t) || StepReadMap(s, t)
    || StepDrain(s, t) || StepDelete(s, t) || StepEnd(s, t)
  }

  /** Pods and membership may change at will, except that under OnDelete a recreated pod takes the update revision. */
  predicate WorldStep(s: State, t: State) {
    && t == s.(pods := t.pods, targets := t.targets)
    && forall name :: name in t.pods ==>
         t.pods[name].revision == s.rev || (name in s.pods && s.pods[name].revision == t.pods[name].revision)
  }

  ghost predicate Init(s: State) {
    s.pass.Idle? && s.touched == {}
  }

  ghost predicate Next(s: State, t: State) {
    OperatorStep(s, t) || WorldStep(s, t)
  }

  ghost predicate IsRun(run: seq<State>) {
    && |run| > 0 && Init(run[0])
    && forall k :: 0 < k < |run| ==> Next(run[k - 1], run[k])
  }

  // ------------------------------------- one at a time, whatever the world does

  ghost predicate OnUpdateRevision(pods: PodMap, base: string, rev: string, j: nat) {
    PodName(base, j) in pods ==> pods[PodName(base, j)].revision == rev
  }

  ghost predicate Inv(s: State) {
    && (forall i, j: nat :: i in s.touched && j < i ==> OnUpdateRevision(s.pods, s.base, s.rev, j))
    && (s.pass.Listed? ==>
          forall i, j: nat :: i in s.touched && j < i ==> OnUpdateRevision(s.listing, s.base, s.rev, j))
    && (s.pass.Listed? ==> forall name :: name in s.listing && name in s.pods && s.listing[name].revision == s.rev ==>
          s.pods[name].revision == s.rev)
    && (HasOrdinal(s.pass) ==>
          && NeedsUpdate(s.listing, s.base, s.n, s.rev, s.pass.i)
          && (forall j: nat :: j < s.pass.i ==> OnUpdateRevision(s.pods, s.base, s.rev, j))
          && (forall j: nat :: j in s.touched ==> j <= s.pass.i))
    && (s.pass.Draining? ==> Serves(s.pass.targets, s.pass.id, PodName(s.base, s.pass.i)))
    && (s.pass.Deleting? ==> ValidClearance(s.pass.why, PodName(s.base, s.pass.i)))
  }

  lemma RevisionsSurvive(s: State, t: State, j: nat)
    requires Next(s, t) && OnUpdateRevision(s.pods, s.base, s.rev, j)
    ensures OnUpdateRevision(t.pods, t.base, t.rev, j)
  {
    if OperatorStep(s, t) {
      RevisionsKept(s, t, j);
    }
  }

  lemma RevisionsKept(s: State, t: State, j: nat)
    requires OperatorStep(s, t) && OnUpdateRevision(s.pods, s.base, s.rev, j)
    ensures OnUpdateRevision(t.pods, t.base, t.rev, j)
  {
  }

  lemma InvStepChoose(s: State, t: State)
    requires Inv(s) && StepChoose(s, t)
    ensures Inv(t)
  {
    var i := t.pass.i;
    assert !OnUpdateRevision(s.listing, s.base, s.rev, i);
    forall j: nat | j < i ensures OnUpdateRevision(t.pods, s.base, s.rev, j) {
      assert Settled(s.listing, s.base, s.rev, j);
    }
  }

  lemma InvStepWorld(s: State, t: State)
    requires Inv(s) && WorldStep(s, t)
    ensures Inv(t)
  {
    forall j: nat | OnUpdateRevision(s.pods, s.base, s.rev, j) ensures OnUpdateRevision(t.pods, t.base, t.rev, j) {
      RevisionsSurvive(s, t, j);
    }
  }

  lemma InvStepOther(s: State, t: State)
    requires Inv(s) && OperatorStep(s, t) && !StepChoose(s, t)
    ensures Inv(t)
  {
    forall j: nat | OnUpdateRevision(s.pods, s.base, s.rev, j) ensures OnUpdateRevision(t.pods, t.base, t.rev, j) {
      RevisionsSurvive(s, t, j);
    }
  }

  lemma InvStep(s: State, t: State)
    requires Inv(s) && Next(s, t)
    ensures Inv(t)
  {
    if WorldStep(s, t) {
      InvStepWorld(s, t);
    } else if StepChoose(s, t) {
      InvStepChoose(s, t);
    } else {
      InvStepOther(s, t);
    }
  }

  lemma {:induction false} InvHolds(run: seq<State>, k: nat)
    requires IsRun(run) && k < |run|
    ensures Inv(run[k])
  {
    if k > 0 {
      InvHolds(run, k - 1);
      InvStep(run[k - 1], run[k]);
    }
  }

  /** The listing a pass works from was read when the pass began, at a step of this very pass. */
  ghost predicate ReadDuringPass(run: seq<State>, k: nat, l: nat)
    requires k < |run|
  {
    && l < k && run[l].pass.Idle? && run[l].pods == run[k].listing
    && forall m :: l < m <= k ==> !run[m].pass.Idle?
  }

  lemma {:induction false} ListingIsFresh(run: seq<State>, k: nat) returns (l: nat)
    requires IsRun(run) && k < |run| && !run[k].pass.Idle?
    ensures ReadDuringPass(run, k, l)
  {
    assert Next(run[k - 1], run[k]);
    if StepList(run[k - 1], run[k]) {
      l := k - 1;
    } else {
      l := ListingIsFresh(run, k - 1);
    }
  }

  /** The cluster map behind a clearance was read later in the same pass than the listing. */
  lemma {:induction false} ClearanceIsFresh(run: seq<State>, k: nat) returns (l: nat)
    requires IsRun(run) && k < |run| && run[k].pass.Deleting?
    ensures l < k && (forall m :: l <= m <= k ==> !run[m].pass.Idle?)
    ensures match run[k].pass.why
            case InMaintenance(_, targets) => run[l].targets == targets
            case Unschedulable(pod) => Lookup(run[l].pods, PodName(run[k].base, run[k].pass.i)) == Some(pod)
  {
    assert Next(run[k - 1], run[k]);
    if StepReadMap(run[k - 1], run[k]) || StepGetPod(run[k - 1], run[k]) {
      l := k - 1;
    } else {
      l := ClearanceIsFresh(run, k - 1);
    }
  }

  predicate Disrupts(s: State, t: State) {
    StepDrain(s, t) || StepDelete(s, t)
  }

  /** In every run, whatever fails and whatever the world does: when the operator disrupts an ordinal,
      the pass has just seen every lower ordinal updated and back in service (or unschedulable), no higher
      ordinal has ever been disrupted, and a deletion was cleared by what the pass itself read. */
  lemma DisruptionIsOrderly(run: seq<State>, k: nat) returns (l: nat)
    requires IsRun(run) && 0 < k < |run| && Disrupts(run[k - 1], run[k])
    ensures var s := run[k - 1];
            && ReadDuringPass(run, k - 1, l)
            && (forall j: nat :: j < s.pass.i ==>
                  var name := PodName(s.base, j);
                  && name in run[l].pods && !run[l].pods[name].terminating && run[l].pods[name].revision == s.rev
                  && (run[l].pods[name].ready || run[l].pods[name].unschedulable))
            && (var name := PodName(s.base, s.pass.i);
                && s.pass.i < s.n && name in run[l].pods
                && !run[l].pods[name].terminating && run[l].pods[name].revision != s.rev)
            && (forall j :: j in s.touched ==> j <= s.pass.i)
            && (s.pass.Deleting? ==> ValidClearance(s.pass.why, PodName(s.base, s.pass.i)))
  {
    InvHolds(run, k - 1);
    l := ListingIsFresh(run, k - 1);
    var s := run[k - 1];
    assert NeedsUpdate(run[l].pods, s.base, s.n, s.rev, s.pass.i);
    SettledMeans(run[l].pods, s.base, s.rev, s.pass.i);
  }

  // -------------------------------------------- one at a time in a calm world

  ghost predicate AllServingAre(nodes: NodeMap, podName: string, flag: Flag) {
    Present(nodes, podName) && forall id :: Serves(nodes, id, podName) ==> nodes[id].flag == flag
  }

  /** Ordinal j is untouched: ready on the old revision, its node active. */
  ghost predicate InService(s: State, j: nat) {
    && OldAndActive(s.pods, s.base, s.rev, j)
    && s.pods[PodName(s.base, j)].ready
    && AllServingAre(s.targets, PodName(s.base, j), Active)
  }

  lemma InServiceMeans(s: State, f: nat)
    requires forall j: nat :: f < j < s.n ==> InService(s, j)
    ensures forall j: nat :: f < j < s.n ==>
              var name := PodName(s.base, j);
              && name in s.pods && !s.pods[name].terminating && s.pods[name].revision != s.rev
              && s.pods[name].ready && AllServingAre(s.targets, name, Active)
  {
    forall j: nat | f < j < s.n
      ensures var name := PodName(s.base, j);
              && name in s.pods && !s.pods[name].terminating && s.pods[name].revision != s.rev
              && s.pods[name].ready && AllServingAre(s.targets, name, Active)
    {
      assert InService(s, j);
    }
  }

  ghost predicate HostsAgree(s: State) {
    forall id :: id in s.targets ==> id in s.hosts && s.targets[id].hostname == s.hosts[id]
  }

  /** No pod fails on its own: the world leaves settled, in-service and live old pods what they are,
      and a node keeps its hostname. */
  ghost predicate CalmStep(s: State, t: State) {
    && WorldStep(s, t)
    && HostsAgree(t)
    && (forall j: nat :: j < s.n && Settled(s.pods, s.base, s.rev, j) ==> Settled(t.pods, t.base, t.rev, j))
    && (forall j: nat :: j < s.n && InService(s, j) ==> InService(t, j))
    && (forall j: nat :: j < s.n && OldAndActive(s.pods, s.base, s.rev, j) ==> OldAndActive(t.pods, t.base, t.rev, j))
  }

  ghost predicate IsCalmRun(run: seq<State>) {
    && |run| > 0 && Init(run[0]) && HostsAgree(run[0])
    && (forall j: nat :: j < run[0].n ==> InService(run[0], j))
    && forall k :: 0 < k < |run| ==> OperatorStep(run[k - 1], run[k]) || CalmStep(run[k - 1], run[k])
  }

  /** Everything below k is done, everything above k has not been touched. */
  ghost predicate Frontier(s: State, k: nat) {
    && k <= s.n
    && (forall j: nat :: j < k ==> Settled(s.pods, s.base, s.rev, j))
    && (forall j: nat :: k < j < s.n ==> InService(s, j))
  }

  ghost predicate CalmInv(s: State) {
    && (exists k :: Frontier(s, k))
    && (s.pass.Listed? ==> forall j: nat :: j < s.n ==>
          && (Settled(s.listing, s.base, s.rev, j) ==> Settled(s.pods, s.base, s.rev, j))
          && (OldAndActive(s.listing, s.base, s.rev, j) ==> OldAndActive(s.pods, s.base, s.rev, j)))
    && (HasOrdinal(s.pass) ==> Frontier(s, s.pass.i))
    && (s.pass.Draining? ==> Serves(s.pass.targets, s.pass.id, PodName(s.base, s.pass.i)))
    && HostsAgree(s)
    && (s.pass.Draining? ==> s.pass.id in s.hosts && s.hosts[s.pass.id] == s.pass.targets[s.pass.id].hostname)
  }

  lemma PodNamesDiffer(base: string, i: nat)
    ensures forall j: nat :: j != i ==> PodName(base, j) != PodName(base, i)
  {
    forall j: nat | PodName(base, j) == PodName(base, i) ensures j == i {
      PodNameInjective(base, j, i);
    }
  }

  /** Draining or deleting ordinal i leaves every other ordinal as it was. */
  lemma OthersUnaffected(s: State, t: State, j: nat)
    requires Disrupts(s, t) && j != s.pass.i
    requires s.pass.Draining? && s.pass.id in s.targets ==> Serves(s.targets, s.pass.id, PodName(s.base, s.pass.i))
    ensures Settled(s.pods, s.base, s.rev, j) ==> Settled(t.pods, t.base, t.rev, j)
    ensures InService(s, j) ==> InService(t, j)
  {
    PodNamesDiffer(s.base, s.pass.i);
    if InService(s, j) && s.pass.Draining? && s.pass.id in s.targets {
      if Serves(s.targets, s.pass.id, PodName(s.base, j)) {
        ServesOneOrdinal(s.targets, s.pass.id, s.base, s.pass.i, j);
      }
      var id :| Serves(s.targets, id, PodName(s.base, j));
      assert Serves(t.targets, id, PodName(s.base, j));
      forall other | Serves(t.targets, other, PodName(s.base, j)) ensures t.targets[other].flag == Active {
        assert Serves(s.targets, other, PodName(s.base, j));
      }
    }
  }

  lemma FrontierKept(s: State, t: State, k: nat)
    requires Frontier(s, k) && t == s.(listing := t.listing, pass := t.pass)
    ensures Frontier(t, k)
  {
    forall j: nat | k < j < s.n ensures InService(t, j) {
      assert InService(s, j);
    }
  }

  lemma CalmInvDisrupt(s: State, t: State)
    requires CalmInv(s) && Disrupts(s, t)
    ensures CalmInv(t)
  {
    var i := s.pass.i;
    forall j: nat | j < s.n && j != i
      ensures Settled(s.pods, s.base, s.rev, j) ==> Settled(t.pods, t.base, t.rev, j)
      ensures InService(s, j) ==> InService(t, j)
    {
      OthersUnaffected(s, t, j);
    }
    assert Frontier(t, i);
  }

  lemma CalmInvChoose(s: State, t: State)
    requires CalmInv(s) && StepChoose(s, t)
    ensures CalmInv(t)
  {
    var i := t.pass.i;
    var k :| Frontier(s, k);
    assert OldAndActive(s.pods, s.base, s.rev, i);
    assert k <= i by {
      assert !Settled(s.pods, s.base, s.rev, i);
    }
    assert Frontier(s, i);
    FrontierKept(s, t, i);
  }

  lemma CalmInvWorld(s: State, t: State)
    requires CalmInv(s) && CalmStep(s, t)
    ensures CalmInv(t)
  {
    var k :| Frontier(s, k);
    assert Frontier(t, k);
    if HasOrdinal(s.pass) {
      assert Frontier(t, t.pass.i);
    }
  }

  lemma CalmInvStep(s: State, t: State)
    requires CalmInv(s) && (OperatorStep(s, t) || CalmStep(s, t))
    ensures CalmInv(t)
  {
    if StepChoose(s, t) {
      CalmInvChoose(s, t);
    } else if Disrupts(s, t) {
      CalmInvDisrupt(s, t);
    } else if CalmStep(s, t) {
      CalmInvWorld(s, t);
    } else {
      var k :| Frontier(s, k);
      FrontierKept(s, t, k);
      if HasOrdinal(t.pass) {
        FrontierKept(s, t, t.pass.i);
      }
    }
  }

  lemma {:induction false} CalmInvHolds(run: seq<State>, k: nat)
    requires IsCalmRun(run) && k < |run|
    ensures CalmInv(run[k])
  {
    if k == 0 {
      assert Frontier(run[0], 0);
    } else {
      CalmInvHolds(run, k - 1);
      CalmInvStep(run[k - 1], run[k]);
    }
  }

  /** In a calm world every reachable state is split by one ordinal: the pods below it are updated and
      ready or unschedulable, the pods above it are ready on the old revision with active nodes. */
  lemma RolloutIsOneAtATime(run: seq<State>, k: nat) returns (f: nat)
    requires IsCalmRun(run) && k < |run|
    ensures var s := run[k];
            && f <= s.n
            && (forall j: nat :: j < f ==>
                  var name := PodName(s.base, j);
                  && name in s.pods && !s.pods[name].terminating && s.pods[name].revision == s.rev
                  && (s.pods[name].ready || s.pods[name].unschedulable))
            && (forall j: nat :: f < j < s.n ==>
                  var name := PodName(s.base, j);
                  && name in s.pods && !s.pods[name].terminating && s.pods[name].revision != s.rev
                  && s.pods[name].ready && AllServingAre(s.targets, name, Active))
  {
    CalmInvHolds(run, k);
    f :| Frontier(run[k], f);
    SettledMeans(run[k].pods, run[k].base, run[k].rev, f);
    InServiceMeans(run[k], f);
  }

  // ------------------------------------------------- one undisturbed pass

  /** The early exits of a rollout pass, taken from the StatefulSet status alone. */
  predicate SkipsRollout(ss: StatefulSet) {
    || ss.status.updateRevision == ""
    || ss.status.currentRevision == ss.status.updateRevision
    || (ss.status.updatedReplicas >= ss.replicas && ss.status.readyReplicas >= ss.replicas)
  }

  /** What one undisturbed pass without failures does once ordinal i is next: delete the pod if it may go
      at once, otherwise put its node into maintenance, or fail when no node is known for it. */
  ghost function AdvanceAt(s: State, i: nat): State {
    var podName := PodName(s.base, i);
    var acted := s.(touched := s.touched + {i});
    if podName in s.pods && s.pods[podName].unschedulable then acted.(pods := WithDeleted(s.pods, podName))
    else if id :| Serves(s.targets, id, podName) then
      if s.targets[id].flag == Maint then acted.(pods := WithDeleted(s.pods, podName))
      else acted.(targets := WithFlag(s.targets, id, Maint))
    else s
  }

  ghost function Advance(s: State): State {
    if i :| NeedsUpdate(s.pods, s.base, s.n, s.rev, i) then AdvanceAt(s, i) else s
  }

  /** The same pass with the node left open, for maps in which two nodes may claim one pod. */
  ghost predicate AdvancesTo(s: State, t: State, i: nat) {
    var podName := PodName(s.base, i);
    var acted := s.(listing := t.listing, pass := t.pass, touched := s.touched + {i});
    if podName in s.pods && s.pods[podName].unschedulable then t == acted.(pods := WithDeleted(s.pods, podName))
    else if Present(s.targets, podName) then
      exists id :: Serves(s.targets, id, podName) &&
                   if s.targets[id].flag == Maint then t == acted.(pods := WithDeleted(s.pods, podName))
                   else t == acted.(targets := WithFlag(s.targets, id, Maint))
    else t == s.(listing := t.listing, pass := t.pass)
  }

  lemma AdvancesToIsAdvanceAt(s: State, t: State, i: nat)
    requires AdvancesTo(s, t, i) && OneNodePerPod(s.targets, s.base)
    ensures t.(listing := s.listing, pass := s.pass) == AdvanceAt(s, i)
  {
  }

  lemma AdvanceIsAt(s: State, i: nat)
    requires NeedsUpdate(s.pods, s.base, s.n, s.rev, i)
    ensures Advance(s) == AdvanceAt(s, i)
  {
    forall j | NeedsUpdate(s.pods, s.base, s.n, s.rev, j) ensures j == i {
      NextUnique(s, i, j);
    }
  }

  lemma NextUnique(s: State, i: nat, j: nat)
    requires NeedsUpdate(s.pods, s.base, s.n, s.rev, i) && NeedsUpdate(s.pods, s.base, s.n, s.rev, j)
    ensures i == j
  {
    assert !Settled(s.pods, s.base, s.rev, i) && !Settled(s.pods, s.base, s.rev, j);
  }
}
