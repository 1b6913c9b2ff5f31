/** Autoscaling: the node lists that determine the size, and the unavailability budget. */
module AutoScale {
  import opened Wrappers
  import opened StatefulSets
  import opened ClusterSpec

  // ------------------------------------------------------------ string order

  /** Strings compare character by character; a prefix comes first. */
  predicate Le(a: string, b: string) {
    if a == "" then true
    else if b == "" then false
    else a[0] < b[0] || (a[0] == b[0] && Le(a[1..], b[1..]))
  }

  predicate Lt(a: string, b: string) {
    Le(a, b) && a != b
  }

  lemma {:induction false} LeIsAnOrder(a: string, b: string, c: string)
    ensures Le(a, a)
    ensures Le(a, b) || Le(b, a)
    ensures Le(a, b) && Le(b, a) ==> a == b
    ensures Le(a, b) && Le(b, c) ==> Le(a, c)
    decreases |a| + |b| + |c|
  {
    if a != "" {
      LeIsAnOrder(a[1..], if b == "" then "" else b[1..], if c == "" then "" else c[1..]);
      assert a == [a[0]] + a[1..];
      assert b != "" ==> b == [b[0]] + b[1..];
    } else if b != "" && c != "" {
      assert Le(a, c);
    }
  }

  // ------------------------------------------------------- sort and compact

  function Insert(x: string, s: seq<string>): seq<string> {
    if s == [] || Le(x, s[0]) then [x] + s else [s[0]] + Insert(x, s[1..])
  }

  function Sort(s: seq<string>): seq<string> {
    if s == [] then [] else Insert(s[0], Sort(s[1..]))
  }

  /** Replaces runs of equal elements by one. */
  function Compact(s: seq<string>): seq<string> {
    if |s| < 2 then s
    else if s[0] == s[1] then Compact(s[1..])
    else [s[0]] + Compact(s[1..])
  }

  function UnionSorted(a: seq<string>, b: seq<string>): seq<string> {
    Compact(Sort(a + b))
  }

  ghost predicate Sorted(s: seq<string>) {
    forall i :: 0 <= i < |s| - 1 ==> Le(s[i], s[i + 1])
  }

  ghost predicate StrictlySorted(s: seq<string>) {
    forall i :: 0 <= i < |s| - 1 ==> Lt(s[i], s[i + 1])
  }

  ghost function Elements(s: seq<string>): set<string> {
    set x | x in s
  }

  lemma {:induction false} InsertSorts(x: string, s: seq<string>)
    requires Sorted(s)
    ensures Sorted(Insert(x, s))
    ensures Elements(Insert(x, s)) == Elements(s) + {x}
    ensures Insert(x, s)[0] == x || (s != [] && Insert(x, s)[0] == s[0])
  {
    if s != [] && !Le(x, s[0]) {
      assert Sorted(s[1..]) by {
        assert forall i :: 0 <= i < |s| - 1 ==> s[1..][i] == s[i + 1];
      }
      InsertSorts(x, s[1..]);
      LeIsAnOrder(x, s[0], s[0]);
      assert s == [s[0]] + s[1..];
      var rest := Insert(x, s[1..]);
      assert rest[0] == x || rest[0] == s[1];
      SortedCons(s[0], rest);
    } else {
      SortedCons(x, s);
    }
  }

  lemma SortedCons(x: string, s: seq<string>)
    requires Sorted(s) && (s != [] ==> Le(x, s[0]))
    ensures Sorted([x] + s)
    ensures Elements([x] + s) == Elements(s) + {x}
  {
    var t := [x] + s;
    forall i | 0 <= i < |t| - 1 ensures Le(t[i], t[i + 1]) {
      assert i > 0 ==> t[i] == s[i - 1] && t[i + 1] == s[i];
    }
  }

  lemma {:induction false} SortSorts(s: seq<string>)
    ensures Sorted(Sort(s)) && Elements(Sort(s)) == Elements(s)
  {
    if s != [] {
      SortSorts(s[1..]);
      InsertSorts(s[0], Sort(s[1..]));
      assert s == [s[0]] + s[1..];
    }
  }

  lemma {:induction false} CompactKeepsElements(s: seq<string>)
    requires Sorted(s)
    ensures StrictlySorted(Compact(s)) && Elements(Compact(s)) == Elements(s)
    ensures s != [] ==> Compact(s) != [] && Compact(s)[0] == s[0]
  {
    if |s| >= 2 {
      assert Sorted(s[1..]) by {
        assert forall i :: 0 <= i < |s| - 1 ==> s[1..][i] == s[i + 1];
      }
      CompactKeepsElements(s[1..]);
      assert s == [s[0]] + s[1..];
      var rest := Compact(s[1..]);
      var t := [s[0]] + rest;
      assert Le(s[0], s[0 + 1]);
      if s[0] != s[1] {
        assert Elements(t) == Elements(rest) + {s[0]};
        forall i | 0 <= i < |t| - 1 ensures Lt(t[i], t[i + 1]) {
          assert i > 0 ==> t[i] == rest[i - 1] && t[i + 1] == rest[i];
        }
      }
    }
  }

  lemma {:induction false} FirstIsLeast(s: seq<string>, i: nat)
    requires StrictlySorted(s) && 0 < i < |s|
    ensures Lt(s[0], s[i])
  {
    if i > 1 {
      FirstIsLeast(s, i - 1);
      assert Lt(s[i - 1], s[i - 1 + 1]);
      LeIsAnOrder(s[0], s[i - 1], s[i]);
      LeIsAnOrder(s[i - 1], s[i], s[i - 1]);
    } else {
      assert Lt(s[0], s[0 + 1]);
    }
  }

  lemma {:induction false} StrictlySortedLength(s: seq<string>)
    requires StrictlySorted(s)
    ensures |Elements(s)| == |s|
  {
    if s != [] {
      TailStrictlySorted(s);
      StrictlySortedLength(s[1..]);
      assert Elements(s) == Elements(s[1..]) + {s[0]};
    }
  }

  lemma TailStrictlySorted(s: seq<string>)
    requires StrictlySorted(s) && s != []
    ensures StrictlySorted(s[1..]) && s[0] !in s[1..] && Elements(s) == Elements(s[1..]) + {s[0]}
    ensures forall x :: x in s[1..] ==> Lt(s[0], x)
  {
    assert forall i :: 0 <= i < |s| - 1 ==> s[1..][i] == s[i + 1];
    forall i | 0 < i < |s| ensures Lt(s[0], s[i]) {
      FirstIsLeast(s, i);
    }
    assert s == [s[0]] + s[1..];
  }

  /** A strictly sorted list is determined by its elements. */
  lemma {:induction false} StrictlySortedIsCanonical(s: seq<string>, t: seq<string>)
    requires StrictlySorted(s) && StrictlySorted(t) && Elements(s) == Elements(t)
    ensures s == t
  {
    if s == [] || t == [] {
      StrictlySortedLength(s);
      StrictlySortedLength(t);
    } else {
      TailStrictlySorted(s);
      TailStrictlySorted(t);
      assert s[0] in Elements(t) && t[0] in Elements(s);
      LeIsAnOrder(s[0], t[0], s[0]);
      assert s[0] == t[0];
      assert Elements(s[1..]) == Elements(s) - {s[0]};
      assert Elements(t[1..]) == Elements(t) - {t[0]};
      StrictlySortedIsCanonical(s[1..], t[1..]);
      assert s == [s[0]] + s[1..] && t == [t[0]] + t[1..];
    }
  }

  /** The union is sorted, free of duplicates and complete, and two unions are equal lists exactly if they name the
      same nodes - so comparing lists, as the status update does, compares node sets. */
  lemma UnionIsCanonical(a: seq<string>, b: seq<string>, a': seq<string>, b': seq<string>)
    ensures StrictlySorted(UnionSorted(a, b)) && Elements(UnionSorted(a, b)) == Elements(a) + Elements(b)
    ensures |UnionSorted(a, b)| == |Elements(a) + Elements(b)|
    ensures UnionSorted(a, b) == UnionSorted(a', b') <==> Elements(a) + Elements(b) == Elements(a') + Elements(b')
  {
    UnionMeans(a, b);
    UnionMeans(a', b');
    StrictlySortedLength(UnionSorted(a, b));
    if Elements(a) + Elements(b) == Elements(a') + Elements(b') {
      StrictlySortedIsCanonical(UnionSorted(a, b), UnionSorted(a', b'));
    }
  }

  lemma UnionMeans(a: seq<string>, b: seq<string>)
    ensures StrictlySorted(UnionSorted(a, b)) && Elements(UnionSorted(a, b)) == Elements(a) + Elements(b)
  {
    SortSorts(a + b);
    CompactKeepsElements(Sort(a + b));
    assert Elements(a + b) == Elements(a) + Elements(b);
  }

  // ------------------------------------------------------------- node lists

  datatype Effect = NoSchedule | NoExecute | PreferNoSchedule

  datatype Taint = Taint(key: string, value: string, effect: Effect)

  datatype Node = Node(name: string, labels: map<string, string>, taints: seq<Taint>)

  predicate MatchesSelector(node: Node, selector: map<string, string>) {
    forall k :: k in selector ==> k in node.labels && node.labels[k] == selector[k]
  }

  /** The node has every label that the selector names, with that value. */
  ghost predicate CarriesLabels(node: Node, selector: map<string, string>) {
    forall k :: k in selector ==> k in node.labels && node.labels[k] == selector[k]
  }

  /** Every taint that keeps pods away is tolerated by one of the tolerations. */
  ghost predicate Tolerated<T(!new)>(tolerations: seq<T>, covers: (T, Taint) -> bool, node: Node) {
    forall t :: t in node.taints && t.effect != PreferNoSchedule ==>
      exists tol :: tol in tolerations && covers(tol, t)
  }

  method ToleratesTaints<T(!new)>(tolerations: seq<T>, covers: (T, Taint) -> bool, node: Node) returns (ok: bool)
    ensures ok <==> Tolerated(tolerations, covers, node)
  {
    for i := 0 to |node.taints|
      invariant forall k :: 0 <= k < i && node.taints[k].effect != PreferNoSchedule ==>
        exists tol :: tol in tolerations && covers(tol, node.taints[k])
    {
      var taint := node.taints[i];
      if taint.effect == PreferNoSchedule {
        continue;
      }
      var isTolerated := false;
      for j := 0 to |tolerations|
        invariant isTolerated ==> exists tol :: tol in tolerations && covers(tol, taint)
        invariant !isTolerated ==> forall k :: 0 <= k < j ==> !covers(tolerations[k], taint)
      {
        if covers(tolerations[j], taint) {
          assert tolerations[j] in tolerations;
          isTolerated := true;
          break;
        }
      }
      if !isTolerated {
        assert taint in node.taints;
        return false;
      }
    }
    return true;
  }

  ghost function Schedulable<T(!new)>(nodes: seq<Node>, selector: map<string, string>, tolerations: seq<T>,
                                      covers: (T, Taint) -> bool): set<string>
  {
    set n | n in nodes && CarriesLabels(n, selector) && Tolerated(tolerations, covers, n) :: n.name
  }

  method ListMatchingNodeNames<T(!new)>(nodes: seq<Node>, selector: map<string, string>, tolerations: seq<T>,
                                        covers: (T, Taint) -> bool) returns (names: seq<string>)
    ensures Sorted(names) && Elements(names) == Schedulable(nodes, selector, tolerations, covers)
  {
    names := [];
    for i := 0 to |nodes|
      invariant Elements(names) == Schedulable(nodes[..i], selector, tolerations, covers)
    {
      assert nodes[..i + 1] == nodes[..i] + [nodes[i]];
      var ok := ToleratesTaints(tolerations, covers, nodes[i]);
      if MatchesSelector(nodes[i], selector) && ok {
        assert Elements(names + [nodes[i].name]) == Elements(names) + {nodes[i].name};
        names := names + [nodes[i].name];
      }
    }
    assert nodes[..|nodes|] == nodes;
    SortSorts(names);
    names := Sort(names);
  }

  /** The nodes that have a daemon pod on them; a pod without a node is not running anywhere yet. */
  ghost function Occupied(podNodes: seq<string>): set<string> {
    Elements(podNodes) - {""}
  }

  method ListNodesRunningDaemonPods(podNodes: seq<string>) returns (names: seq<string>)
    ensures Sorted(names) && Elements(names) == Occupied(podNodes) && |names| == |Occupied(podNodes)|
  {
    var seen: set<string> := {};
    for i := 0 to |podNodes|
      invariant seen == Occupied(podNodes[..i])
    {
      assert podNodes[..i + 1] == podNodes[..i] + [podNodes[i]];
      if podNodes[i] != "" {
        seen := seen + {podNodes[i]};
      }
    }
    assert podNodes[..|podNodes|] == podNodes;
    names := Listed(seen);
    SortSorts(names);
    SortLength(names);
    names := Sort(names);
  }

  /** The elements of a set, in no particular order. */
  method Listed(seen: set<string>) returns (names: seq<string>)
    ensures Elements(names) == seen && |names| == |seen|
  {
    names := [];
    var rest := seen;
    while rest != {}
      invariant rest <= seen && Elements(names) == seen - rest && |names| + |rest| == |seen|
      decreases rest
    {
      var name :| name in rest;
      assert Elements(names + [name]) == Elements(names) + {name};
      names := names + [name];
      rest := rest - {name};
    }
  }

  lemma {:induction false} SortLength(s: seq<string>)
    ensures |Sort(s)| == |s|
  {
    if s != [] {
      SortLength(s[1..]);
      InsertLength(s[0], Sort(s[1..]));
    }
  }

  lemma {:induction false} InsertLength(x: string, s: seq<string>)
    ensures |Insert(x, s)| == |s| + 1
  {
    if s != [] && !Le(x, s[0]) {
      InsertLength(x, s[1..]);
    }
  }

  // ------------------------------------------------------ the status update

  datatype AutoScaleStatus = AutoScaleStatus(proxyNodes: seq<string>, targetNodes: seq<string>)

  /** What a pass reads; None is a failed read. */
  datatype Reads = Reads(schedulable: Option<seq<string>>, podNodes: Option<seq<string>>)

  class StatusKeeper {
    const spec: Spec
    /** No patch fails. */
    const calm: bool
    var status: AutoScaleStatus
    ghost var patches: nat

    constructor (spec: Spec, calm: bool)
      ensures this.spec == spec && this.calm == calm && status == AutoScaleStatus([], []) && patches == 0
    {
      this.spec, this.calm, status, patches := spec, calm, AutoScaleStatus([], []), 0;
    }

    /** A patch that fails ends the pass, and the next one reads the status afresh. */
    method UpdateAutoScaleStatus(wanted: AutoScaleStatus) returns (ok: bool)
      modifies this
      ensures wanted == old(status) ==> ok && status == old(status) && patches == old(patches)
      ensures wanted != old(status) ==> patches == old(patches) + 1
      ensures status == wanted || (!ok && status == old(status))
      ensures calm ==> ok
    {
      if status == wanted {
        return true;
      }
      patches := patches + 1;
      ok := *;
      ok := ok || calm;
      var lost: bool := *;
      if ok || !lost {
        status := wanted;
      }
    }

    /** Records the nodes to scale to: those that can take a daemon, and those that run one already. */
    method DetermineAutoScaleStatus(target: Reads, proxy: Reads) returns (ok: bool)
      modifies this
      ensures ok ==>
        && StrictlySorted(status.targetNodes) && StrictlySorted(status.proxyNodes)
        && Elements(status.targetNodes) == Wanted(IsAutoScaling(spec, spec.target), target)
        && Elements(status.proxyNodes) == Wanted(IsAutoScaling(spec, spec.proxy), proxy)
      ensures ok && StrictlySorted(old(status).targetNodes) && StrictlySorted(old(status).proxyNodes) ==>
        (patches == old(patches) <==>
          && Elements(old(status).targetNodes) == Wanted(IsAutoScaling(spec, spec.target), target)
          && Elements(old(status).proxyNodes) == Wanted(IsAutoScaling(spec, spec.proxy), proxy))
      ensures Unread(IsAutoScaling(spec, spec.target), target) || Unread(IsAutoScaling(spec, spec.proxy), proxy) ==>
        !ok && status == old(status) && patches == old(patches)
      ensures calm ==>
        (ok <==> !Unread(IsAutoScaling(spec, spec.target), target) && !Unread(IsAutoScaling(spec, spec.proxy), proxy))
    {
      var wanted := AutoScaleStatus([], []);
      if IsAutoScaling(spec, spec.target) {
        if target.schedulable.None? || target.podNodes.None? {
          return false;
        }
        wanted := wanted.(targetNodes := UnionSorted(target.schedulable.value, target.podNodes.value));
        UnionMeans(target.schedulable.value, target.podNodes.value);
      }
      if IsAutoScaling(spec, spec.proxy) {
        if proxy.schedulable.None? || proxy.podNodes.None? {
          return false;
        }
        wanted := wanted.(proxyNodes := UnionSorted(proxy.schedulable.value, proxy.podNodes.value));
        UnionMeans(proxy.schedulable.value, proxy.podNodes.value);
      }
      if StrictlySorted(status.targetNodes) && StrictlySorted(status.proxyNodes)
         && Elements(status.targetNodes) == Elements(wanted.targetNodes)
         && Elements(status.proxyNodes) == Elements(wanted.proxyNodes) {
        StrictlySortedIsCanonical(status.targetNodes, wanted.targetNodes);
        StrictlySortedIsCanonical(status.proxyNodes, wanted.proxyNodes);
      }
      ok := UpdateAutoScaleStatus(wanted);
    }

    ghost function Wanted(autoScaling: bool, r: Reads): set<string> {
      if !autoScaling || Unread(autoScaling, r) then {}
      else Elements(r.schedulable.value) + Elements(r.podNodes.value)
    }

    ghost predicate Unread(autoScaling: bool, r: Reads) {
      autoScaling && (r.schedulable.None? || r.podNodes.None?)
    }
  }

  /** The wanted size never falls below what is running, short of the configured limit: losing the schedulability
      of an occupied node does not shrink the cluster. */
  lemma SizeCoversRunningPods(spec: Spec, daemon: Daemon, schedulable: seq<string>, running: seq<string>,
                              podNodes: seq<string>)
    requires IsAutoScaling(spec, daemon)
    requires Elements(running) == Occupied(podNodes)
    ensures var size := GetSize(spec, daemon, |UnionSorted(schedulable, running)|);
            match daemon.autoScaleConf
            case Some(AutoScaleConf(Some(limit), _)) => size >= Min(limit, |Occupied(podNodes)|)
            case _ => size >= |Occupied(podNodes)|
  {
    UnionIsCanonical(schedulable, running, schedulable, running);
    SubsetCount(Elements(running), Elements(schedulable) + Elements(running));
  }

  // ------------------------------------------------- the unavailability budget

  /** A scale-down held back by the budget does not hold back the pass, provided one pod is ready - and only then. */
  lemma DeferredScaleDownIsReady(spec: Spec, daemon: Daemon, nodes: nat, ss: StatefulSet)
    requires IsAutoScaling(spec, daemon)
    requires var desired := GetSize(spec, daemon, nodes);
             desired < ss.replicas && !StatefulSetScalingNeeded(ss, desired, MaxUnavailable(daemon), true)
    requires !IsRolloutInProgress(ss) && !IsScalingInProgress(ss)
    ensures IsStatefulSetReady(ss, GetSize(spec, daemon, nodes), GetMinReady(spec, daemon, nodes), true) <==>
            ss.status.readyReplicas >= 1
  {
  }
}
