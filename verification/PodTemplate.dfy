/** Pod templates: which differences are worth a rollout, and how the current template is brought in line.
    Fields the operator only ever compares as a whole are single values here; an empty list or map stands
    for an absent one as well, since the comparison does not tell them apart. */
module PodTemplate {

  datatype Container = Container(
    name: string,
    image: string,
    env: seq<(string, string)>,
    resources: string,
    probes: string,
    securityContext: string,
    rest: string)

  datatype Volume = Volume(name: string, source: string)

  type StringMap = map<string, string>

  datatype Template = Template(
    initContainers: seq<Container>,
    containers: seq<Container>,
    annotations: StringMap,
    labels: StringMap,
    securityContext: string,
    volumes: seq<Volume>,
    priorityClass: string,
    tolerations: seq<string>)

  const AIS_CONTAINER_NAME := "ais-node"
  const RESTART_HASH := "config.aistore.nvidia.com/restart-hash"
  const INITIAL := ".initial"
  const MANAGED_BY := "app.kubernetes.io/managed-by"
  const MANAGED_BY_VALUE := "ais-operator"

  // ------------------------------------------------------------ containers

  /** The fields of a container that take part in the comparison; name and image always do. */
  datatype ContainerChecks = ContainerChecks(env: bool, resources: bool, probes: bool, securityContext: bool)

  const PRIMARY_CHECKS := ContainerChecks(true, true, true, true)
  const SIDECAR_CHECKS := ContainerChecks(false, true, false, true)
  const INIT_CHECKS := ContainerChecks(false, false, false, true)

  function ContainerChecksFor(name: string): ContainerChecks {
    if name == AIS_CONTAINER_NAME then PRIMARY_CHECKS else SIDECAR_CHECKS
  }

  predicate ShouldUpdateContainerSpec(desired: Container, current: Container, checks: ContainerChecks) {
    || desired.name != current.name
    || desired.image != current.image
    || (checks.env && desired.env != current.env)
    || (checks.resources && desired.resources != current.resources)
    || (checks.probes && desired.probes != current.probes)
    || (checks.securityContext && desired.securityContext != current.securityContext)
  }

  /** They are not as many, or one of them has another name, image or security context. */
  ghost predicate InitContainersDiffer(desired: seq<Container>, current: seq<Container>) {
    || |desired| != |current|
    || exists i :: 0 <= i < |desired| && InitContainerDiffers(desired[i], current[i])
  }

  predicate InitContainerDiffers(d: Container, c: Container) {
    d.name != c.name || d.image != c.image || d.securityContext != c.securityContext
  }

  /** They are not as many, or one of them has another name, image, security context or resources - or is the daemon's
      own, and has another environment or other probes. */
  ghost predicate ContainersDiffer(desired: seq<Container>, current: seq<Container>) {
    || |desired| != |current|
    || exists i :: 0 <= i < |desired| && ContainerDiffers(desired[i], current[i])
  }

  predicate ContainerDiffers(d: Container, c: Container) {
    || d.name != c.name || d.image != c.image || d.securityContext != c.securityContext || d.resources != c.resources
    || (d.name == "ais-node" && (d.env != c.env || d.probes != c.probes))
  }

  method ShouldUpdateInitContainers(desired: seq<Container>, current: seq<Container>) returns (update: bool)
    ensures update <==> InitContainersDiffer(desired, current)
  {
    if |desired| != |current| {
      return true;
    }
    for i := 0 to |desired|
      invariant forall k :: 0 <= k < i ==> !InitContainerDiffers(desired[k], current[k])
    {
      if ShouldUpdateContainerSpec(desired[i], current[i], INIT_CHECKS) {
        return true;
      }
    }
    return false;
  }

  method ShouldUpdateContainers(desired: seq<Container>, current: seq<Container>) returns (update: bool)
    ensures update <==> ContainersDiffer(desired, current)
  {
    if |desired| != |current| {
      return true;
    }
    for i := 0 to |desired|
      invariant forall k :: 0 <= k < i ==> !ContainerDiffers(desired[k], current[k])
    {
      if ShouldUpdateContainerSpec(desired[i], current[i], ContainerChecksFor(desired[i].name)) {
        return true;
      }
    }
    return false;
  }

  // ----------------------------------------------------------- annotations

  predicate HasSuffix(s: string, suffix: string) {
    |suffix| <= |s| && s[|s| - |suffix|..] == suffix
  }

  /** A missing key reads as the empty string. */
  function Get(m: StringMap, key: string): string {
    if key in m then m[key] else ""
  }

  function Without(m: StringMap, key: string): StringMap {
    map k | k in m && k != key :: m[k]
  }

  /** Semantic "derivative" comparison of two maps: what `desired` leaves empty is not compared. */
  predicate DeepDerivative(desired: StringMap, current: StringMap) {
    if |desired| == 0 then true
    else if |desired| > |current| then false
    else forall k :: k in desired ==> k in current && (desired[k] == "" || desired[k] == current[k])
  }

  predicate ShouldUpdateAnnotations(desired: StringMap, current: StringMap) {
    if DeepDerivative(desired, current) then false
    else if RESTART_HASH !in desired then true
    else
      var restartHash := desired[RESTART_HASH];
      if !HasSuffix(restartHash, INITIAL) && restartHash != Get(current, RESTART_HASH) then true
      else !DeepDerivative(Without(desired, RESTART_HASH), current)
  }

  lemma SubsetSize<T>(a: set<T>, b: set<T>)
    requires a <= b
    ensures |a| <= |b|
  {
    assert b == a + (b - a);
  }

  /** The size test decides nothing: a key that is missing decides. */
  lemma DerivativeMeansCovered(desired: StringMap, current: StringMap)
    ensures DeepDerivative(desired, current) <==>
            forall k :: k in desired ==> k in current && (desired[k] == "" || desired[k] == current[k])
  {
    if forall k :: k in desired ==> k in current && (desired[k] == "" || desired[k] == current[k]) {
      assert forall k :: k in desired.Keys ==> k in current.Keys;
      SubsetSize(desired.Keys, current.Keys);
    }
  }

  /** Annotations cause a rollout exactly if one other than the restart hash is missing or differs, or if the
      restart hash is set, has left its initial value and differs. */
  lemma AnnotationRolloutExactly(desired: StringMap, current: StringMap)
    ensures ShouldUpdateAnnotations(desired, current) <==>
            || !DeepDerivative(Without(desired, RESTART_HASH), current)
            || (RESTART_HASH in desired && desired[RESTART_HASH] != "" && !HasSuffix(desired[RESTART_HASH], INITIAL)
                && desired[RESTART_HASH] != Get(current, RESTART_HASH))
  {
    DerivativeMeansCovered(desired, current);
    DerivativeMeansCovered(Without(desired, RESTART_HASH), current);
  }

  // ---------------------------------------------------------------- labels

  predicate OnlyManagedByLabelAdded(desired: StringMap, current: StringMap) {
    if Get(current, MANAGED_BY) == MANAGED_BY_VALUE then false
    else if Get(desired, MANAGED_BY) != MANAGED_BY_VALUE then false
    else Without(desired, MANAGED_BY) == current
  }

  predicate ShouldUpdateLabels(desired: StringMap, current: StringMap) {
    if desired == current then false
    else !OnlyManagedByLabelAdded(desired, current)
  }

  /** The operator may add its own label for free, but never change or drop one. */
  lemma LabelRolloutExactly(desired: StringMap, current: StringMap)
    ensures !ShouldUpdateLabels(desired, current) <==>
            desired == current || (MANAGED_BY !in current && desired == current[MANAGED_BY := MANAGED_BY_VALUE])
  {
    if MANAGED_BY !in current && desired == current[MANAGED_BY := MANAGED_BY_VALUE] {
      assert Without(desired, MANAGED_BY) == current;
    }
    if OnlyManagedByLabelAdded(desired, current) {
      assert MANAGED_BY !in current;
      assert desired == current[MANAGED_BY := MANAGED_BY_VALUE];
    }
  }

  // --------------------------------------------------------------- volumes

  /** The volumes by name; a later volume replaces an earlier one of the same name. */
  ghost function ByName(volumes: seq<Volume>): (m: map<string, Volume>) {
    if volumes == [] then map[]
    else ByName(volumes[..|volumes| - 1])[volumes[|volumes| - 1].name := volumes[|volumes| - 1]]
  }

  ghost predicate VolumesDiffer(desired: seq<Volume>, current: seq<Volume>) {
    || |desired| != |current|
    || exists i :: 0 <= i < |desired| && !Holds(ByName(current), desired[i])
  }

  predicate Holds(m: map<string, Volume>, v: Volume) {
    v.name in m && m[v.name] == v
  }

  /** Volumes of one name are the same volume. */
  ghost predicate VolumesConsistent(volumes: seq<Volume>) {
    forall i, j :: 0 <= i < j < |volumes| && volumes[i].name == volumes[j].name ==> volumes[i] == volumes[j]
  }

  method ShouldUpdateVolumes(desired: seq<Volume>, current: seq<Volume>) returns (update: bool)
    ensures update <==> VolumesDiffer(desired, current)
  {
    if |desired| != |current| {
      return true;
    }
    var currentMap: map<string, Volume> := map[];
    for i := 0 to |current|
      invariant currentMap == ByName(current[..i])
    {
      currentMap := currentMap[current[i].name := current[i]];
      assert current[..i + 1][..i] == current[..i];
    }
    assert current[..|current|] == current;
    for i := 0 to |desired|
      invariant forall k :: 0 <= k < i ==> Holds(currentMap, desired[k])
    {
      if !Holds(currentMap, desired[i]) {
        return true;
      }
    }
    return false;
  }

  lemma {:induction false} ByNameKeepsTheLast(volumes: seq<Volume>, name: string)
    ensures name in ByName(volumes) <==> exists i :: 0 <= i < |volumes| && volumes[i].name == name
    ensures name in ByName(volumes) ==>
              exists i :: 0 <= i < |volumes| && volumes[i].name == name && ByName(volumes)[name] == volumes[i]
  {
    if volumes != [] {
      var n := |volumes| - 1;
      ByNameKeepsTheLast(volumes[..n], name);
      assert forall i :: 0 <= i < n ==> volumes[..n][i] == volumes[i];
      assert volumes[n].name == name ==> ByName(volumes)[name] == volumes[n];
    }
  }

  /** The list has this volume, and none of the name after it. */
  ghost predicate IsLastOfItsName(volumes: seq<Volume>, v: Volume) {
    exists i :: 0 <= i < |volumes| && volumes[i] == v && forall j :: i < j < |volumes| ==> volumes[j].name != v.name
  }

  lemma {:induction false} HoldsExactly(volumes: seq<Volume>, v: Volume)
    ensures Holds(ByName(volumes), v) <==> IsLastOfItsName(volumes, v)
  {
    if volumes != [] {
      var n := |volumes| - 1;
      HoldsExactly(volumes[..n], v);
      if volumes[n] == v {
        assert volumes[n] == v;
      } else if Holds(ByName(volumes), v) {
        var i :| 0 <= i < n && volumes[..n][i] == v && forall j :: i < j < n ==> volumes[..n][j].name != v.name;
        assert volumes[i] == v;
        assert forall j :: i < j < n ==> volumes[j].name == volumes[..n][j].name;
      }
    }
  }

  /** A list agrees with itself exactly when no name is used for two different volumes. */
  lemma SelfComparison(volumes: seq<Volume>)
    ensures VolumesDiffer(volumes, volumes) <==> !VolumesConsistent(volumes)
  {
    if VolumesConsistent(volumes) {
      forall i | 0 <= i < |volumes| ensures Holds(ByName(volumes), volumes[i]) {
        ByNameKeepsTheLast(volumes, volumes[i].name);
      }
    } else {
      InconsistentAlwaysDiffers(volumes, volumes);
    }
  }

  /** A list that uses one name for two volumes differs from every list. */
  lemma InconsistentAlwaysDiffers(desired: seq<Volume>, current: seq<Volume>)
    requires !VolumesConsistent(desired)
    ensures VolumesDiffer(desired, current)
  {
    var i, j :| 0 <= i < j < |desired| && desired[i].name == desired[j].name && desired[i] != desired[j];
    assert !(Holds(ByName(current), desired[i]) && Holds(ByName(current), desired[j]));
  }

  // ---------------------------------------------------- the whole template

  ghost predicate TemplateDiffers(desired: Template, current: Template) {
    || InitContainersDiffer(desired.initContainers, current.initContainers)
    || ContainersDiffer(desired.containers, current.containers)
    || desired.securityContext != current.securityContext
    || ShouldUpdateAnnotations(desired.annotations, current.annotations)
    || ShouldUpdateLabels(desired.labels, current.labels)
    || VolumesDiffer(desired.volumes, current.volumes)
    || desired.priorityClass != current.priorityClass
    || desired.tolerations != current.tolerations
  }

  method ShouldUpdatePodTemplate(desired: Template, current: Template) returns (update: bool)
    ensures update <==> TemplateDiffers(desired, current)
  {
    update := ShouldUpdateInitContainers(desired.initContainers, current.initContainers);
    if update {
      return;
    }
    update := ShouldUpdateContainers(desired.containers, current.containers);
    if update || desired.securityContext != current.securityContext
       || ShouldUpdateAnnotations(desired.annotations, current.annotations)
       || ShouldUpdateLabels(desired.labels, current.labels) {
      return true;
    }
    update := ShouldUpdateVolumes(desired.volumes, current.volumes);
    if update {
      return;
    }
    return desired.priorityClass != current.priorityClass || desired.tolerations != current.tolerations;
  }

  /** The annotations wanted are there, but for the restart hash, which only counts when it is set and untagged. */
  ghost predicate AnnotationsServe(desired: StringMap, current: StringMap) {
    && (forall k :: k in desired && k != RESTART_HASH ==>
          k in current && (desired[k] == "" || desired[k] == current[k]))
    && (RESTART_HASH in desired && desired[RESTART_HASH] != "" && !HasSuffix(desired[RESTART_HASH], ".initial") ==>
          RESTART_HASH in current && current[RESTART_HASH] == desired[RESTART_HASH])
  }

  lemma AnnotationsServeExactly(desired: StringMap, current: StringMap)
    ensures !ShouldUpdateAnnotations(desired, current) <==> AnnotationsServe(desired, current)
  {
    AnnotationRolloutExactly(desired, current);
    DerivativeMeansCovered(Without(desired, RESTART_HASH), current);
    assert forall k :: k in Without(desired, RESTART_HASH) <==> k in desired && k != RESTART_HASH;
  }

  /** When a template is left alone: containers that agree in what is compared of their kind; the same security
      context, priority class and tolerations; annotations that serve; labels that are the same, but for the
      operator's own; and as many volumes, each of them the last of its name. */
  lemma LeftAloneExactly(desired: Template, current: Template)
    ensures !TemplateDiffers(desired, current) <==>
            && |desired.initContainers| == |current.initContainers|
            && (forall i :: 0 <= i < |desired.initContainers| ==>
                  var d, c := desired.initContainers[i], current.initContainers[i];
                  d.name == c.name && d.image == c.image && d.securityContext == c.securityContext)
            && |desired.containers| == |current.containers|
            && (forall i :: 0 <= i < |desired.containers| ==>
                  var d, c := desired.containers[i], current.containers[i];
                  && d.name == c.name && d.image == c.image && d.securityContext == c.securityContext
                  && d.resources == c.resources && (d.name == "ais-node" ==> d.env == c.env && d.probes == c.probes))
            && desired.securityContext == current.securityContext
            && AnnotationsServe(desired.annotations, current.annotations)
            && (|| desired.labels == current.labels
                || (MANAGED_BY !in current.labels && desired.labels == current.labels[MANAGED_BY := MANAGED_BY_VALUE]))
            && |desired.volumes| == |current.volumes|
            && (forall v :: v in desired.volumes ==> IsLastOfItsName(current.volumes, v))
            && desired.priorityClass == current.priorityClass && desired.tolerations == current.tolerations
  {
    AnnotationsServeExactly(desired.annotations, current.annotations);
    LabelRolloutExactly(desired.labels, current.labels);
    forall v ensures Holds(ByName(current.volumes), v) <==> IsLastOfItsName(current.volumes, v) {
      HoldsExactly(current.volumes, v);
    }
  }

  /** After a sync everything is as desired, save annotations that already covered what is desired. */
  function Synced(desired: Template, current: Template): Template {
    desired.(annotations := if DeepDerivative(desired.annotations, current.annotations)
                            then current.annotations else desired.annotations)
  }

  /** The template of a StatefulSet, brought in line field by field. */
  class PodTemplateSpec {
    var initContainers: seq<Container>
    var containers: seq<Container>
    var annotations: StringMap
    var labels: StringMap
    var securityContext: string
    var volumes: seq<Volume>
    var priorityClass: string
    var tolerations: seq<string>

    function Value(): Template
      reads this
    {
      Template(initContainers, containers, annotations, labels, securityContext, volumes, priorityClass, tolerations)
    }

    constructor (t: Template)
      ensures Value() == t
    {
      initContainers, containers := t.initContainers, t.containers;
      annotations, labels, securityContext := t.annotations, t.labels, t.securityContext;
      volumes, priorityClass, tolerations := t.volumes, t.priorityClass, t.tolerations;
    }

    /** Writes what differs and nothing else; `updated` tells whether anything was written. */
    method SyncPodTemplate(desired: Template) returns (updated: bool)
      modifies this
      ensures Value() == Synced(desired, old(Value()))
      ensures updated <==> Value() != old(Value())
    {
      updated := SyncContainersAndMetadata(desired);
      var more := SyncPodSpec(desired);
      updated := updated || more;
    }

    /** The first half: containers, annotations and labels. */
    method SyncContainersAndMetadata(desired: Template) returns (updated: bool)
      modifies `initContainers, `containers, `annotations, `labels
      ensures initContainers == desired.initContainers && containers == desired.containers && labels == desired.labels
      ensures annotations == Synced(desired, old(Value())).annotations
      ensures updated <==> initContainers != old(initContainers) || containers != old(containers)
                           || annotations != old(annotations) || labels != old(labels)
    {
      updated := false;
      var changed;
      initContainers, changed := SyncContainers(desired.initContainers, initContainers);
      updated := updated || changed;
      containers, changed := SyncContainers(desired.containers, containers);
      updated := updated || changed;
      if !DeepDerivative(desired.annotations, annotations) {
        annotations := desired.annotations;
        updated := true;
      }
      if desired.labels != labels {
        labels := desired.labels;
        updated := true;
      }
      DerivativeOfItself(desired.annotations);
    }

    /** The second half: the remaining fields of the pod spec. */
    method SyncPodSpec(desired: Template) returns (updated: bool)
      modifies `securityContext, `volumes, `priorityClass, `tolerations
      ensures securityContext == desired.securityContext && volumes == desired.volumes
      ensures priorityClass == desired.priorityClass && tolerations == desired.tolerations
      ensures updated <==> securityContext != old(securityContext) || volumes != old(volumes)
                           || priorityClass != old(priorityClass) || tolerations != old(tolerations)
    {
      updated := false;
      if desired.securityContext != securityContext {
        securityContext := desired.securityContext;
        updated := true;
      }
      if desired.volumes != volumes {
        volumes := desired.volumes;
        updated := true;
      }
      if desired.priorityClass != priorityClass {
        priorityClass := desired.priorityClass;
        updated := true;
      }
      if desired.tolerations != tolerations {
        tolerations := desired.tolerations;
        updated := true;
      }
    }
  }

  method SyncContainers(desired: seq<Container>, current: seq<Container>)
    returns (synced: seq<Container>, updated: bool)
    ensures synced == desired
    ensures updated <==> synced != current
  {
    if |desired| != |current| {
      return desired, true;
    }
    synced, updated := current, false;
    for i := 0 to |desired|
      invariant |synced| == |desired|
      invariant synced[..i] == desired[..i] && synced[i..] == current[i..]
      invariant updated <==> desired[..i] != current[..i]
    {
      assert desired[..i + 1] == desired[..i] + [desired[i]] && current[..i + 1] == current[..i] + [current[i]];
      if desired[i] != synced[i] {
        synced := synced[i := desired[i]];
        updated := true;
      }
    }
    assert desired[..|desired|] == desired && current[..|desired|] == current;
  }

  lemma DerivativeOfItself(m: StringMap)
    ensures DeepDerivative(m, m)
  {
  }

  /** Once nothing is left to sync, the comparison still sees a difference exactly if one volume name is used twice. */
  lemma DifferenceAfterSync(desired: Template, current: Template)
    ensures TemplateDiffers(desired, Synced(desired, current)) <==> !VolumesConsistent(desired.volumes)
  {
    SelfComparison(desired.volumes);
  }

  /** Syncing twice is syncing once. */
  lemma SyncIsIdempotent(desired: Template, current: Template)
    ensures Synced(desired, Synced(desired, current)) == Synced(desired, current)
  {
  }

  /** A rollout is reported although nothing would be written exactly if the template is in line already and
      one volume name is used twice; so with consistent volumes every reported difference is written. */
  lemma EmptyRolloutExactly(desired: Template, current: Template)
    ensures TemplateDiffers(desired, current) && Synced(desired, current) == current <==>
            Synced(desired, current) == current && !VolumesConsistent(desired.volumes)
    ensures TemplateDiffers(desired, current) && VolumesConsistent(desired.volumes) ==>
              Synced(desired, current) != current
  {
    if Synced(desired, current) == current {
      DifferenceAfterSync(desired, current);
    }
  }

  // ------------------------------------------------------------ whole runs

  /** One operator pass: a template that differs is synced and written. */
  ghost function AfterPass(desired: Template, current: Template): Template {
    if TemplateDiffers(desired, current) then Synced(desired, current) else current
  }

  /** The number of passes that report a difference and sync, when pass i finds template desired[i] wanted. */
  ghost function Syncs(desired: seq<Template>, current: Template): nat {
    if desired == [] then 0
    else (if TemplateDiffers(desired[0], current) then 1 else 0) + Syncs(desired[1..], AfterPass(desired[0], current))
  }

  /** The number of those that leave another template behind, and so start a rollout. */
  ghost function Rollouts(desired: seq<Template>, current: Template): nat {
    if desired == [] then 0
    else (if AfterPass(desired[0], current) != current then 1 else 0)
         + Rollouts(desired[1..], AfterPass(desired[0], current))
  }

  /** How often the wanted template changes from one pass to the next. */
  ghost function Changes(desired: seq<Template>): nat {
    if |desired| < 2 then 0
    else (if desired[0] != desired[1] then 1 else 0) + Changes(desired[1..])
  }

  ghost predicate AllConsistent(desired: seq<Template>) {
    forall i :: 0 <= i < |desired| ==> VolumesConsistent(desired[i].volumes)
  }

  /** Over any run a difference is reported at most once per wanted template. */
  lemma {:induction false} SyncsFollowChanges(desired: seq<Template>, current: Template)
    requires AllConsistent(desired)
    ensures Syncs(desired, current) <= 1 + Changes(desired)
    ensures desired != [] && !TemplateDiffers(desired[0], current) ==> Syncs(desired, current) <= Changes(desired)
  {
    if desired != [] {
      var next := AfterPass(desired[0], current);
      assert AllConsistent(desired[1..]) by {
        assert forall i :: 0 <= i < |desired| - 1 ==> desired[1..][i] == desired[i + 1];
      }
      SyncsFollowChanges(desired[1..], next);
      assert VolumesConsistent(desired[0].volumes);
      DifferenceAfterSync(desired[0], current);
    }
  }

  /** No rollout loops: over any run, whatever the volumes, the template changes at most once per wanted template. */
  lemma {:induction false} RolloutsFollowChanges(desired: seq<Template>, current: Template)
    ensures Rollouts(desired, current) <= 1 + Changes(desired)
    ensures desired != [] && AfterPass(desired[0], current) == current ==>
              Rollouts(desired, current) <= Changes(desired)
  {
    if desired != [] {
      RolloutsFollowChanges(desired[1..], AfterPass(desired[0], current));
      SyncIsIdempotent(desired[0], current);
    }
  }

  /** With one volume name used for two volumes every single pass reports a difference and syncs again; the template
      does not change any more, but the pass never gets beyond that. */
  lemma {:induction false} InconsistentVolumesLoop(desired: seq<Template>, current: Template)
    requires forall i :: 0 <= i < |desired| ==> !VolumesConsistent(desired[i].volumes)
    ensures Syncs(desired, current) == |desired|
    ensures Rollouts(desired, current) <= 1 + Changes(desired)
  {
    RolloutsFollowChanges(desired, current);
    if desired != [] {
      InconsistentAlwaysDiffers(desired[0].volumes, current.volumes);
      assert forall i :: 0 <= i < |desired| - 1 ==> desired[1..][i] == desired[i + 1];
      InconsistentVolumesLoop(desired[1..], AfterPass(desired[0], current));
    }
  }
}
