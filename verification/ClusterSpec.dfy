/** The parts of the AIStore spec that decide sizes and storage, and the validation that makes them usable. */
module ClusterSpec {
  import opened Wrappers
  import opened StatefulSets

  datatype AutoScaleConf = AutoScaleConf(sizeLimit: Option<int>, maxUnavailable: Option<int>)

  datatype Daemon = Daemon(size: Option<int>, hasNodeSelector: bool, autoScaleConf: Option<AutoScaleConf>)

  datatype StateStorage = StateStorage(hostPath: bool, pvc: bool, emptyDir: bool)

  /** `otherErrors` tells which of the remaining validations - deprecated fields, service ports, cleanup config,
      TLS paths, safe decommission - reject the spec; none of them looks at the fields above it. */
  datatype Spec = Spec(
    size: Option<int>,
    proxy: Daemon,
    target: Daemon,
    stateStorage: Option<StateStorage>,
    stateStorageClass: bool,
    hostpathPrefix: bool,
    shutdown: bool,
    otherErrors: set<Validation>,
    otherWarnings: map<Validation, seq<string>>)

  datatype Validation =
    DeprecatedFields | Size | Storage | ShutdownWithEmptyDir | AutoScaling | ServicePorts | CleanupConfig | TLSPaths
    | SafeDecommission

  // ------------------------------------------------------------------ sizes

  predicate IsAutoScaling(spec: Spec, daemon: Daemon) {
    spec.size == Some(-1) || daemon.size == Some(-1)
  }

  /** Without autoscaling the daemon's own size wins over that of the cluster. */
  predicate SizeIsSet(spec: Spec, daemon: Daemon) {
    daemon.size.Some? || spec.size.Some?
  }

  function GetSize(spec: Spec, daemon: Daemon, expectedNodes: nat): int
    requires IsAutoScaling(spec, daemon) || SizeIsSet(spec, daemon)
  {
    if IsAutoScaling(spec, daemon) then
      match daemon.autoScaleConf
      case Some(AutoScaleConf(Some(limit), _)) => Min(expectedNodes, limit)
      case _ => expectedNodes
    else if daemon.size.Some? then daemon.size.value
    else spec.size.value
  }

  function MaxUnavailable(daemon: Daemon): int {
    match daemon.autoScaleConf
    case Some(AutoScaleConf(_, Some(n))) => n
    case _ => 0
  }

  function GetMinReady(spec: Spec, daemon: Daemon, expectedNodes: nat): int
    requires IsAutoScaling(spec, daemon) || SizeIsSet(spec, daemon)
  {
    var size := GetSize(spec, daemon, expectedNodes);
    if IsAutoScaling(spec, daemon) then Max(1, size - MaxUnavailable(daemon)) else size
  }

  /** An autoscaled size is the largest within the limit that there are nodes for; a fixed one is the daemon's own or,
      if it has none, that of the cluster. */
  lemma SizeExactly(spec: Spec, daemon: Daemon, nodes: nat, size: int)
    requires IsAutoScaling(spec, daemon) || SizeIsSet(spec, daemon)
    ensures IsAutoScaling(spec, daemon) <==> spec.size == Some(-1) || daemon.size == Some(-1)
    ensures var limit := if daemon.autoScaleConf.Some? then daemon.autoScaleConf.value.sizeLimit else None;
            size == GetSize(spec, daemon, nodes) <==>
              if IsAutoScaling(spec, daemon) then
                size <= nodes && (limit.Some? ==> size <= limit.value) && (size == nodes || limit == Some(size))
              else
                daemon.size == Some(size) || (daemon.size.None? && spec.size == Some(size))
  {
  }

  /** The least number that has to be ready: all of a fixed size; of an autoscaled one at least one, and all but as
      many as may be unavailable. */
  lemma MinReadyExactly(spec: Spec, daemon: Daemon, nodes: nat, ready: int)
    requires IsAutoScaling(spec, daemon) || SizeIsSet(spec, daemon)
    ensures var size := GetSize(spec, daemon, nodes);
            var budget := if daemon.autoScaleConf.Some? && daemon.autoScaleConf.value.maxUnavailable.Some?
                          then daemon.autoScaleConf.value.maxUnavailable.value else 0;
            ready >= GetMinReady(spec, daemon, nodes) <==>
              if IsAutoScaling(spec, daemon) then ready >= 1 && size - ready <= budget else ready >= size
  {
  }

  predicate SizeRejected(spec: Spec) {
    if spec.proxy.size.Some? && spec.proxy.size.value <= 0 && !IsAutoScaling(spec, spec.proxy) then true
    else if spec.target.size.Some? && spec.target.size.value <= 0 && !IsAutoScaling(spec, spec.target) then true
    else
      && (spec.target.size.None? || spec.proxy.size.None?)
      && (spec.size.None? || spec.size.value <= -2 || spec.size.value == 0)
  }

  /** A daemon has a usable size: it is autoscaled, or its size is defined and at least one. */
  predicate SizeUsable(spec: Spec, daemon: Daemon) {
    IsAutoScaling(spec, daemon) || (SizeIsSet(spec, daemon) && GetSize(spec, daemon, 0) >= 1)
  }

  /** Validation accepts exactly the sizes that the size functions are defined and positive on. */
  lemma SizeAcceptedExactly(spec: Spec)
    ensures !SizeRejected(spec) <==> SizeUsable(spec, spec.proxy) && SizeUsable(spec, spec.target)
  {
  }

  /** The size of one kind of daemon is in order: it is autoscaled, on nodes that a selector picks, or fixed, at one or
      more. */
  ghost predicate SizeInOrder(spec: Spec, daemon: Daemon) {
    if spec.size == Some(-1) || daemon.size == Some(-1) then daemon.hasNodeSelector
    else if daemon.size.Some? then daemon.size.value >= 1
    else spec.size.Some? && spec.size.value >= 1
  }

  // ---------------------------------------------------------------- storage

  predicate UsesStatePVC(spec: Spec) {
    if spec.stateStorage.Some? then spec.stateStorage.value.pvc else spec.stateStorageClass
  }

  predicate UsesStateHostPath(spec: Spec) {
    if spec.stateStorage.Some? then spec.stateStorage.value.hostPath
    else !spec.stateStorageClass && spec.hostpathPrefix
  }

  predicate UsesStateEmptyDir(spec: Spec) {
    spec.stateStorage.Some? && spec.stateStorage.value.emptyDir
  }

  function ModeCount(s: StateStorage): nat {
    (if s.hostPath then 1 else 0) + (if s.pvc then 1 else 0) + (if s.emptyDir then 1 else 0)
  }

  predicate StorageRejected(spec: Spec) {
    if spec.stateStorage.Some? then ModeCount(spec.stateStorage.value) != 1
    else !spec.stateStorageClass && !spec.hostpathPrefix
  }

  /** Validation accepts exactly the specs under which state lives in one and only one kind of storage. */
  lemma OneStorageExactly(spec: Spec)
    ensures !StorageRejected(spec) <==>
            || (UsesStatePVC(spec) && !UsesStateHostPath(spec) && !UsesStateEmptyDir(spec))
            || (!UsesStatePVC(spec) && UsesStateHostPath(spec) && !UsesStateEmptyDir(spec))
            || (!UsesStatePVC(spec) && !UsesStateHostPath(spec) && UsesStateEmptyDir(spec))
  {
  }

  // ------------------------------------------------------------- validation

  const VALIDATIONS := [DeprecatedFields, Size, Storage, ShutdownWithEmptyDir, AutoScaling, ServicePorts, CleanupConfig,
                        TLSPaths, SafeDecommission]

  predicate Rejects(spec: Spec, v: Validation) {
    match v
    case Size => SizeRejected(spec)
    case Storage => StorageRejected(spec)
    case ShutdownWithEmptyDir => UsesStateEmptyDir(spec) && spec.shutdown
    case AutoScaling =>
      || (IsAutoScaling(spec, spec.target) && !spec.target.hasNodeSelector)
      || (IsAutoScaling(spec, spec.proxy) && !spec.proxy.hasNodeSelector)
    case _ => v in spec.otherErrors
  }

  function Warnings(spec: Spec, v: Validation): seq<string> {
    if v in spec.otherWarnings then spec.otherWarnings[v] else []
  }

  function AllWarnings(spec: Spec, validations: seq<Validation>): seq<string> {
    if validations == [] then []
    else AllWarnings(spec, validations[..|validations| - 1]) + Warnings(spec, validations[|validations| - 1])
  }

  /** Validation i is the first that rejects. */
  predicate FirstRejects(spec: Spec, validations: seq<Validation>, i: nat)
    requires i < |validations|
  {
    Rejects(spec, validations[i]) && forall k :: 0 <= k < i ==> !Rejects(spec, validations[k])
  }

  /** Runs some validations in order, collecting warnings up to the first error. */
  method Validate(spec: Spec, validations: seq<Validation>) returns (warnings: seq<string>, ok: bool)
    ensures ok ==> (forall v :: v in validations ==> !Rejects(spec, v)) && warnings == AllWarnings(spec, validations)
    ensures !ok ==> exists i: nat :: i < |validations| && FirstRejects(spec, validations, i)
                                     && warnings == AllWarnings(spec, validations[..i])
  {
    warnings := [];
    for i := 0 to |validations|
      invariant forall k :: 0 <= k < i ==> !Rejects(spec, validations[k])
      invariant warnings == AllWarnings(spec, validations[..i])
    {
      if Rejects(spec, validations[i]) {
        assert FirstRejects(spec, validations, i);
        return warnings, false;
      }
      assert validations[..i + 1][..i] == validations[..i];
      warnings := warnings + Warnings(spec, validations[i]);
    }
    assert validations[..|validations|] == validations;
    return warnings, true;
  }

  /** Runs all of them, in their order. */
  method ValidateSpec(spec: Spec) returns (warnings: seq<string>, ok: bool)
    ensures ok <==> forall v: Validation :: !Rejects(spec, v)
    ensures ok ==> warnings == AllWarnings(spec, VALIDATIONS)
    ensures !ok ==> exists i: nat :: i < |VALIDATIONS| && FirstRejects(spec, VALIDATIONS, i)
                                     && warnings == AllWarnings(spec, VALIDATIONS[..i])
  {
    EveryValidationRuns();
    warnings, ok := Validate(spec, VALIDATIONS);
  }

  lemma EveryValidationRuns()
    ensures forall v: Validation :: v in VALIDATIONS
  {
    forall v: Validation ensures v in VALIDATIONS {
      match v
      case DeprecatedFields => assert VALIDATIONS[0] == v;
      case Size => assert VALIDATIONS[1] == v;
      case Storage => assert VALIDATIONS[2] == v;
      case ShutdownWithEmptyDir => assert VALIDATIONS[3] == v;
      case AutoScaling => assert VALIDATIONS[4] == v;
      case ServicePorts => assert VALIDATIONS[5] == v;
      case CleanupConfig => assert VALIDATIONS[6] == v;
      case TLSPaths => assert VALIDATIONS[7] == v;
      case SafeDecommission => assert VALIDATIONS[8] == v;
    }
  }

  ghost predicate Accepted(spec: Spec) {
    forall v: Validation :: !Rejects(spec, v)
  }

  /** What is accepted: sizes in order for both kinds; one kind of state storage, which is there and, if the cluster
      is to be shut down, outlives its pods; and nothing that the remaining validations reject. */
  lemma AcceptedExactly(spec: Spec)
    ensures Accepted(spec) <==>
            && SizeInOrder(spec, spec.proxy) && SizeInOrder(spec, spec.target)
            && (match spec.stateStorage
                case None => spec.stateStorageClass || spec.hostpathPrefix
                case Some(StateStorage(hostPath, pvc, emptyDir)) =>
                  && (hostPath || pvc || emptyDir)
                  && !(hostPath && pvc) && !(hostPath && emptyDir) && !(pvc && emptyDir)
                  && !(emptyDir && spec.shutdown))
            && forall v :: v in spec.otherErrors ==> v in {Size, Storage, ShutdownWithEmptyDir, AutoScaling}
  {
    SizeAcceptedExactly(spec);
    if Accepted(spec) {
      assert !Rejects(spec, Size) && !Rejects(spec, Storage) && !Rejects(spec, ShutdownWithEmptyDir);
      assert !Rejects(spec, AutoScaling);
      forall v | v in spec.otherErrors ensures v in {Size, Storage, ShutdownWithEmptyDir, AutoScaling} {
        assert !Rejects(spec, v);
      }
    }
  }

  /** For an accepted spec the size functions are defined, a fixed size is at least one, and at least one daemon
      of each kind has to be up before the cluster counts as ready - also when no node is left to scale to. */
  lemma AcceptedSizes(spec: Spec, proxyNodes: nat, targetNodes: nat)
    requires Accepted(spec)
    ensures IsAutoScaling(spec, spec.proxy) || SizeIsSet(spec, spec.proxy)
    ensures IsAutoScaling(spec, spec.target) || SizeIsSet(spec, spec.target)
    ensures !IsAutoScaling(spec, spec.proxy) ==> GetSize(spec, spec.proxy, proxyNodes) >= 1
    ensures !IsAutoScaling(spec, spec.target) ==> GetSize(spec, spec.target, targetNodes) >= 1
    ensures GetMinReady(spec, spec.proxy, proxyNodes) >= 1
    ensures GetMinReady(spec, spec.target, targetNodes) >= 1
  {
    assert !Rejects(spec, Size);
    SizeAcceptedExactly(spec);
  }
}
