/** What a pass does about a StatefulSet, stated of the pods that its counters stand for, and what a whole pass in a
    still world therefore writes. */
module PassSteps {
  import opened Wrappers
  import opened StatefulSets
  import RestartHash
  import PodTemplate
  import opened ClusterSpec
  import opened Lifecycle
  import opened Passes

  // ------------------------------------------------------------ templates

  /** The annotation is there with the wanted value; an empty value is not compared. */
  predicate Carries(annotations: map<string, string>, k: string, v: string) {
    k in annotations && (v == "" || annotations[k] == v)
  }

  function UserAnnotations(x: Setting, kind: Kind): map<string, string> {
    match kind
    case Proxies => x.proxyAnnotations
    case Targets => x.targetAnnotations
  }

  /** The user's annotations and the network are there; the restart hash is another matter. */
  ghost predicate CarriesRest(user: map<string, string>, net: Option<string>, current: map<string, string>) {
    && (forall k :: k in user && k != PodTemplate.RESTART_HASH ==> Carries(current, k, user[k]))
    && (net.Some? && RestartHash.NETWORK !in user ==> Carries(current, RestartHash.NETWORK, net.value))
  }

  /** The template is out of line: in more than annotations, in an annotation other than the restart hash, or in a
      restart hash that is set and untagged. */
  ghost predicate TemplateDue(x: Setting, hashes: RestartHash.Recorded, kind: Kind, found: Found) {
    var user := UserAnnotations(x, kind);
    var hash := if PodTemplate.RESTART_HASH in user then user[PodTemplate.RESTART_HASH] else hashes.annot;
    || found.differs
    || !CarriesRest(user, x.network, found.annotations)
    || (hash != "" && !PodTemplate.HasSuffix(hash, ".initial")
        && !Carries(found.annotations, PodTemplate.RESTART_HASH, hash))
  }

  lemma RestIsCarried(user: map<string, string>, net: Option<string>, annot: string, current: map<string, string>)
    ensures var wanted := RestartHash.PrepareAnnotations(user, net, Some(annot));
            PodTemplate.DeepDerivative(PodTemplate.Without(wanted, PodTemplate.RESTART_HASH), current) <==>
              CarriesRest(user, net, current)
  {
    var wanted := RestartHash.PrepareAnnotations(user, net, Some(annot));
    var rest := PodTemplate.Without(wanted, PodTemplate.RESTART_HASH);
    PodTemplate.DerivativeMeansCovered(rest, current);
    assert |PodTemplate.RESTART_HASH| != |RestartHash.NETWORK|;
    if CarriesRest(user, net, current) {
      forall k | k in rest ensures Carries(current, k, rest[k]) {
        RestartHash.AnnotationsKeyByKey(user, net, annot, k);
      }
    } else if net.Some? && RestartHash.NETWORK !in user && !Carries(current, RestartHash.NETWORK, net.value) {
      RestartHash.AnnotationsKeyByKey(user, net, annot, RestartHash.NETWORK);
      assert RestartHash.NETWORK in rest;
    } else {
      var k :| k in user && k != PodTemplate.RESTART_HASH && !Carries(current, k, user[k]);
      RestartHash.AnnotationsKeyByKey(user, net, annot, k);
      assert k in rest;
    }
  }

  /** A new template is called for exactly if it is out of line. */
  lemma TemplateDueExactly(x: Setting, hashes: RestartHash.Recorded, kind: Kind, found: Found)
    ensures RolloutNeeded(x, hashes, kind, found) <==> TemplateDue(x, hashes, kind, found)
  {
    var user, current := UserAnnotations(x, kind), found.annotations;
    PodTemplate.AnnotationRolloutExactly(WantedAnnotations(x, hashes, kind), current);
    RestIsCarried(user, x.network, hashes.annot, current);
    RestartHash.AnnotationsKeyByKey(user, x.network, hashes.annot, PodTemplate.RESTART_HASH);
  }

  // --------------------------------------------------- one StatefulSet

  /** The pods are of another number than the spec says, and not because of a rollout. */
  ghost predicate PodsInMotion(ss: StatefulSet, pods: PodSet) {
    |pods| != ss.replicas && !RolloutOpen(ss, pods)
  }

  /** Each kind goes by its own part of the spec and its own list of nodes. */
  lemma EachGoesByItsOwn(x: Setting, status: ClusterStatus)
    requires SizesUsable(x)
    ensures SizeOf(x, status, Proxies) == GetSize(x.spec, x.spec.proxy, |status.nodes.proxyNodes|)
    ensures SizeOf(x, status, Targets) == GetSize(x.spec, x.spec.target, |status.nodes.targetNodes|)
    ensures MinReady(x, status, Proxies) == GetMinReady(x.spec, x.spec.proxy, |status.nodes.proxyNodes|)
    ensures MinReady(x, status, Targets) == GetMinReady(x.spec, x.spec.target, |status.nodes.targetNodes|)
    ensures AutoScales(x, Proxies) == IsAutoScaling(x.spec, x.spec.proxy) && DaemonOf(x, Proxies) == x.spec.proxy
    ensures AutoScales(x, Targets) == IsAutoScaling(x.spec, x.spec.target) && DaemonOf(x, Targets) == x.spec.target
  {
  }

  /** The size is to change: see ResizeDue. */
  ghost predicate SizeDue(x: Setting, status: ClusterStatus, kind: Kind, ss: StatefulSet, pods: PodSet)
    requires SizesUsable(x)
  {
    ResizeDue(ss, pods, SizeOf(x, status, kind), MaxUnavailable(DaemonOf(x, kind)), AutoScales(x, kind))
  }

  /** The pods are settled, and as many as wanted of them are ready. */
  ghost predicate PodsServe(x: Setting, status: ClusterStatus, kind: Kind, ss: StatefulSet, pods: PodSet)
    requires SizesUsable(x)
  {
    && PodsSettled(ss, pods)
    && PodsSuffice(ss, pods, SizeOf(x, status, kind), MinReady(x, status, kind), AutoScales(x, kind))
  }

  /** The pass may go by the status: it is up to date. */
  predicate StatusFresh(ss: StatefulSet) { ss.status.observedGeneration >= ss.generation }

  /** A template out of line is written, unless pods are in motion. */
  ghost predicate WritesTemplate(x: Setting, cr: CR, kind: Kind, found: Found, pods: PodSet) {
    && StatusFresh(found.ss) && TemplateDue(x, cr.hashes, kind, found) && !PodsInMotion(found.ss, pods)
    && (kind.Targets? ==> !found.policyDiffers)
  }

  /** So is a policy that differs: of targets, first of all; of proxies, after the template. */
  ghost predicate WritesPolicy(x: Setting, cr: CR, kind: Kind, found: Found, pods: PodSet) {
    StatusFresh(found.ss) && found.policyDiffers && !WritesTemplate(x, cr, kind, found, pods)
  }

  /** Template and policy give no reason to write. */
  ghost predicate InLine(x: Setting, cr: CR, kind: Kind, found: Found, pods: PodSet) {
    && StatusFresh(found.ss) && !found.policyDiffers
    && (TemplateDue(x, cr.hashes, kind, found) ==> PodsInMotion(found.ss, pods))
  }

  /** Then the size is changed if it is due and no rollout is open. */
  ghost predicate ChangesSize(x: Setting, cr: CR, kind: Kind, found: Found, pods: PodSet)
    requires SizesUsable(x)
  {
    && InLine(x, cr, kind, found, pods)
    && SizeDue(x, cr.status, kind, found.ss, pods) && !RolloutOpen(found.ss, pods)
  }

  /** An open rollout is driven on. */
  ghost predicate TakesRolloutOn(x: Setting, cr: CR, kind: Kind, found: Found, pods: PodSet) {
    InLine(x, cr, kind, found, pods) && RolloutOpen(found.ss, pods)
  }

  /** And if nothing is due and the pods serve, the StatefulSet is let be. */
  ghost predicate IsLetBe(x: Setting, cr: CR, kind: Kind, found: Found, pods: PodSet)
    requires SizesUsable(x)
  {
    && InLine(x, cr, kind, found, pods) && PodsServe(x, cr.status, kind, found.ss, pods)
    && !SizeDue(x, cr.status, kind, found.ss, pods)
  }

  /** The pass has nothing to do but to wait: for the status to catch up, for pods to come or go, or to become ready. */
  ghost predicate OnlyWaits(x: Setting, cr: CR, kind: Kind, found: Found, pods: PodSet)
    requires SizesUsable(x)
  {
    || !StatusFresh(found.ss)
    || (&& InLine(x, cr, kind, found, pods) && !RolloutOpen(found.ss, pods)
        && !SizeDue(x, cr.status, kind, found.ss, pods)
        && (PodsInMotion(found.ss, pods) || !PodsServe(x, cr.status, kind, found.ss, pods)))
  }

  /** What the tests of the pass come to. */
  lemma TestsMean(x: Setting, cr: CR, kind: Kind, found: Found, pods: PodSet)
    requires SizesUsable(x) && AllCountersMatch(found.ss, pods)
    ensures IsStatusCurrent(found.ss) == StatusFresh(found.ss)
    ensures RolloutNeeded(x, cr.hashes, kind, found) == TemplateDue(x, cr.hashes, kind, found)
    ensures IsRolloutInProgress(found.ss) == RolloutOpen(found.ss, pods)
    ensures IsScalingInProgress(found.ss) == PodsInMotion(found.ss, pods)
    ensures ScalingNeeded(x, cr.status, kind, found.ss) == SizeDue(x, cr.status, kind, found.ss, pods)
    ensures !IsRolloutInProgress(found.ss) && !IsScalingInProgress(found.ss) ==>
              IsReady(x, cr.status, kind, found.ss) == PodsServe(x, cr.status, kind, found.ss, pods)
    ensures PodsServe(x, cr.status, kind, found.ss, pods) ==>
              !IsRolloutInProgress(found.ss) && !IsScalingInProgress(found.ss)
  {
    var ss := found.ss;
    TemplateDueExactly(x, cr.hashes, kind, found);
    RolloutExactly(ss, pods);
    NothingReportedExactly(ss, pods);
    ScalingNeededExactly(ss, pods, SizeOf(x, cr.status, kind), MaxUnavailable(DaemonOf(x, kind)), AutoScales(x, kind));
    ReadyExactly(ss, pods, SizeOf(x, cr.status, kind), MinReady(x, cr.status, kind), AutoScales(x, kind));
  }

  /** What a pass does about a StatefulSet that it has found, for every state of its pods. */
  lemma StepExactly(x: Setting, cr: CR, kind: Kind, found: Found, pods: PodSet)
    requires SizesUsable(x) && AllCountersMatch(found.ss, pods)
    ensures var step := StepFor(x, cr, kind, found);
            && (step.WriteTemplate? <==> WritesTemplate(x, cr, kind, found, pods))
            && (step.WritePolicy? <==> WritesPolicy(x, cr, kind, found, pods))
            && (step.Scale? <==> ChangesSize(x, cr, kind, found, pods))
            && (step.DriveRollout? <==> TakesRolloutOn(x, cr, kind, found, pods))
            && (step.Rest? <==> IsLetBe(x, cr, kind, found, pods))
            && (step.Wait? <==> OnlyWaits(x, cr, kind, found, pods))
  {
    TestsMean(x, cr, kind, found, pods);
  }
}
