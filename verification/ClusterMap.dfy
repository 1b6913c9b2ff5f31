/** The AIS cluster map: the nodes of each kind, their membership flags and the primary proxy. */
module ClusterMap {
  import opened Wrappers
  import opened PodNaming

  datatype Flag = Active | Maint | Decomm

  datatype Node = Node(id: string, hostname: string, flag: Flag)

  type NodeMap = map<string, Node>

  datatype Smap = Smap(proxies: NodeMap, targets: NodeMap, primary: Option<Node>)

  predicate InMaint(node: Node) {
    node.flag == Maint
  }

  predicate InMaintOrDecomm(node: Node) {
    node.flag != Active
  }

  /** Nodes are stored under their own id. */
  predicate WellKeyed(nodes: NodeMap) {
    forall id :: id in nodes ==> nodes[id].id == id
  }

  /** Node `id` is the daemon of pod `podName`. */
  predicate Serves(nodes: NodeMap, id: string, podName: string) {
    id in nodes && HostnameMatchesPod(nodes[id].hostname, podName)
  }

  ghost predicate Present(nodes: NodeMap, podName: string) {
    exists id :: Serves(nodes, id, podName)
  }

  /** No pod of the StatefulSet is claimed by two nodes. */
  ghost predicate OneNodePerPod(nodes: NodeMap, base: string) {
    forall a, b, i: nat :: Serves(nodes, a, PodName(base, i)) && Serves(nodes, b, PodName(base, i)) ==> a == b
  }

  /** Walks the map in no particular order and returns the first node that serves the pod. */
  method FindAISNodeByPodName(nodes: NodeMap, podName: string) returns (found: Option<string>)
    ensures found.Some? ==> Serves(nodes, found.value, podName)
    ensures found.None? ==> !Present(nodes, podName)
  {
    var rest := nodes.Keys;
    while rest != {}
      invariant rest <= nodes.Keys
      invariant forall id :: id in nodes && id !in rest ==> !Serves(nodes, id, podName)
      decreases rest
    {
      var id :| id in rest;
      if HostnameMatchesPod(nodes[id].hostname, podName) {
        return Some(id);
      }
      rest := rest - {id};
    }
    return None;
  }

  /** A node never serves two ordinals of one StatefulSet. */
  lemma ServesOneOrdinal(nodes: NodeMap, id: string, base: string, i: nat, j: nat)
    requires Serves(nodes, id, PodName(base, i)) && Serves(nodes, id, PodName(base, j))
    ensures i == j
  {
    OneOrdinalPerHostname(nodes[id].hostname, base, i, j);
  }
}
