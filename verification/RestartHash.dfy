/** The hash of the restart-relevant config: recorded on the CR, copied into the pod templates, and compared
    there to decide on a rollout. The first hash recorded carries a tag so that it does not restart anything. */
module RestartHash {
  import opened Wrappers
  import opened RebalanceConfig
  import opened PodTemplate

  /** The two digests; only their being hexadecimal and non-empty matters. */
  datatype Hashes = Hashes(http: Option<string> -> string, all: Config -> string)

  predicate IsHexDigit(c: char) { '0' <= c <= '9' || 'a' <= c <= 'f' }

  predicate IsHex(s: string) {
    s != "" && forall i :: 0 <= i < |s| ==> IsHexDigit(s[i])
  }

  ghost predicate Hexadecimal(h: Hashes) {
    && (forall x :: IsHex(h.http(x)))
    && (forall c :: IsHex(h.all(c)))
  }

  function TrimSuffix(s: string, suffix: string): string {
    if HasSuffix(s, suffix) then s[..|s| - |suffix|] else s
  }

  /** What to record on the CR, given what is recorded there. */
  function CalcRestartConfigAnnotation(annot: string, restartHash: string): string {
    if annot == "" then restartHash + INITIAL
    else if HasSuffix(annot, INITIAL) then
      if TrimSuffix(annot, INITIAL) == restartHash then annot else restartHash
    else restartHash
  }

  lemma HexIsNeverInitial(s: string)
    requires IsHex(s)
    ensures !HasSuffix(s, INITIAL)
  {
    if |s| >= 8 {
      var tail := s[|s| - 8..];
      assert tail[0] == s[|s| - 8] && IsHexDigit(tail[0]);
    }
  }

  lemma TaggedHash(s: string)
    ensures HasSuffix(s + INITIAL, INITIAL) && TrimSuffix(s + INITIAL, INITIAL) == s && s + INITIAL != ""
  {
    assert (s + INITIAL)[|s|..] == INITIAL && (s + INITIAL)[..|s|] == s;
  }

  // -------------------------------------------- recording and pushing, on the CR

  /** The CR's annotations and the config the live cluster runs with. Every call may fail, and a call that
      fails may nevertheless have taken effect. */
  class ConfigState {
    const hashes: Hashes
    /** No call fails. */
    const calm: bool
    var confHash: string
    var annot: string
    var live: Option<Config>

    constructor (hashes: Hashes, calm: bool)
      ensures this.hashes == hashes && this.calm == calm && confHash == "" && annot == "" && live == None
    {
      this.hashes, this.calm, confHash, annot, live := hashes, calm, "", "", None;
    }

    method SetClusterConfig(conf: Config) returns (ok: bool)
      modifies `live
      ensures live == old(live) || live == Some(conf)
      ensures ok ==> live == Some(conf)
      ensures calm ==> ok
    {
      ok := *;
      ok := ok || calm;
      var lost: bool := *;
      if ok || !lost {
        live := Some(conf);
      }
    }

    method PatchAnnotations(newConfHash: string, newAnnot: string) returns (ok: bool)
      modifies `confHash, `annot
      ensures (confHash == old(confHash) && annot == old(annot)) || (confHash == newConfHash && annot == newAnnot)
      ensures ok ==> confHash == newConfHash && annot == newAnnot
      ensures calm ==> ok
    {
      ok := *;
      ok := ok || calm;
      var lost: bool := *;
      if ok || !lost {
        confHash, annot := newConfHash, newAnnot;
      }
    }

    method UpdateClusterConfig(conf: Config, forceSync: bool) returns (ok: bool)
      modifies `live
      ensures live == old(live) || live == Some(conf)
      ensures !forceSync && confHash == hashes.all(conf) ==> ok && live == old(live)
      ensures ok && (forceSync || confHash != hashes.all(conf)) ==> live == Some(conf)
      ensures calm ==> ok
    {
      if !forceSync && confHash == hashes.all(conf) {
        return true;
      }
      ok := SetClusterConfig(conf);
    }

    function Moment(): ConfigMoment
      reads this
    {
      ConfigMoment(Recorded(annot, confHash), live)
    }

    /** Brings the live config and the CR's record of it up to date. */
    method HandleConfigState(spec: Option<Config>, readyRebalance: bool, forceSync: bool)
      returns (ok: bool, conf: Config)
      requires Hexadecimal(hashes)
      modifies this
      ensures conf.rebalance == Some(EffectiveRebalance(readyRebalance, spec))
      ensures spec.Some? ==> conf.http == spec.value.http
      ensures MayEnd(hashes, old(Moment()), Attempt(conf, forceSync, ok), Moment())
      ensures ok ==> Recorded(annot, confHash) == AfterConfig(hashes, Recorded(old(annot), old(confHash)), conf)
      // A pass that succeeds records the config, and the cluster runs with it unless an earlier push went unnoticed.
      ensures ok ==> confHash == hashes.all(conf)
      ensures ok && forceSync ==> live == Some(conf)
      ensures ok ==> (Moment().InStep(hashes) <==>
                      forceSync || old(confHash) != hashes.all(conf) || old(Moment().InStep(hashes)))
      // The CR is never ahead: what is recorded as new has been pushed.
      ensures confHash != old(confHash) ==> live == Some(conf)
      ensures calm ==> ok
    {
      conf := GenerateConfigToSet(spec, readyRebalance);
      ok := UpdateClusterConfig(conf, forceSync);
      if !ok {
        return;
      }
      var restartAnnot := CalcRestartConfigAnnotation(annot, hashes.http(conf.http));
      var confChanged := hashes.all(conf) != confHash;
      var restartChanged := restartAnnot != annot;
      var requeue := restartChanged && !HasSuffix(restartAnnot, INITIAL);
      if !requeue && !confChanged {
        return;
      }
      ok := PatchAnnotations(hashes.all(conf), restartAnnot);
    }
  }

  datatype Recorded = Recorded(annot: string, confHash: string)

  /** What the CR records after a successful pass. */
  function AfterConfig(h: Hashes, r: Recorded, conf: Config): Recorded {
    var restartAnnot := CalcRestartConfigAnnotation(r.annot, h.http(conf.http));
    var requeue := restartAnnot != r.annot && !HasSuffix(restartAnnot, INITIAL);
    if !requeue && h.all(conf) == r.confHash then r else Recorded(restartAnnot, h.all(conf))
  }

  // ------------------------------------------------- runs of config passes

  datatype ConfigMoment = ConfigMoment(recorded: Recorded, live: Option<Config>) {
    /** The hash on the CR is that of the config the cluster runs with. */
    predicate InStep(h: Hashes) {
      if live.Some? then recorded.confHash == h.all(live.value) else recorded.confHash == ""
    }
  }

  /** One config pass: what it was to bring about, and whether it succeeded. */
  datatype Attempt = Attempt(conf: Config, forceSync: bool, ok: bool)

  predicate Pushes(h: Hashes, was: ConfigMoment, a: Attempt) {
    a.forceSync || was.recorded.confHash != h.all(a.conf)
  }

  /** Where a pass may leave the CR and the cluster. A failed push or patch may have taken effect. */
  predicate MayEnd(h: Hashes, was: ConfigMoment, a: Attempt, now: ConfigMoment) {
    var recorded := AfterConfig(h, was.recorded, a.conf);
    if a.ok then now == ConfigMoment(recorded, if Pushes(h, was, a) then Some(a.conf) else was.live)
    else if Pushes(h, was, a) then
      now == was || (now.live == Some(a.conf) && now.recorded in {was.recorded, recorded})
    else now.live == was.live && now.recorded in {was.recorded, recorded}
  }

  ghost predicate IsConfigRun(h: Hashes, moments: seq<ConfigMoment>, attempts: seq<Attempt>) {
    && |moments| == |attempts| + 1
    && forall i :: 0 <= i < |attempts| ==> MayEnd(h, moments[i], attempts[i], moments[i + 1])
  }

  lemma AfterConfigRecords(h: Hashes, r: Recorded, conf: Config)
    ensures AfterConfig(h, r, conf).confHash == h.all(conf)
  {
  }

  /** Nothing happened that could bring the CR and the cluster together: since `from`, every pass either failed or
      was unforced and for the config recorded already. */
  ghost predicate NoneRepairs(h: Hashes, moments: seq<ConfigMoment>, attempts: seq<Attempt>, from: nat, to: nat)
    requires |moments| == |attempts| + 1 && to <= |attempts|
  {
    forall i :: from <= i < to ==> !(attempts[i].ok && Pushes(h, moments[i], attempts[i]))
  }

  /** Over every run: if the two are out of step, then because of a failed pass, whose push took effect and whose
      record did not; and no pass that succeeded since then has pushed. */
  lemma {:induction false} OutOfStepBecause(h: Hashes, moments: seq<ConfigMoment>, attempts: seq<Attempt>, n: nat)
    returns (k: nat)
    requires IsConfigRun(h, moments, attempts) && moments[0].InStep(h)
    requires n <= |attempts| && !moments[n].InStep(h)
    ensures k < n && !attempts[k].ok && moments[k].InStep(h) && !moments[k + 1].InStep(h)
    ensures Pushes(h, moments[k], attempts[k]) && moments[k + 1] == moments[k].(live := Some(attempts[k].conf))
    ensures NoneRepairs(h, moments, attempts, k, n)
  {
    assert n > 0 && MayEnd(h, moments[n - 1], attempts[n - 1], moments[n]);
    AfterConfigRecords(h, moments[n - 1].recorded, attempts[n - 1].conf);
    if moments[n - 1].InStep(h) {
      k := n - 1;
    } else {
      k := OutOfStepBecause(h, moments, attempts, n - 1);
    }
  }

  const UNCONFIGURED := ConfigMoment(Recorded("", ""), None)

  /** A push whose recording failed goes unnoticed if the spec returns to the recorded config: the pass succeeds
      without a push, and the cluster runs with the other config. */
  lemma UnrecordedPushIsMissed(h: Hashes, a: Config, b: Config)
    returns (moments: seq<ConfigMoment>, attempts: seq<Attempt>)
    requires Hexadecimal(h) && h.all(a) != h.all(b)
    ensures attempts == [Attempt(a, false, true), Attempt(b, false, false), Attempt(a, false, true)]
    ensures IsConfigRun(h, moments, attempts) && moments[0] == UNCONFIGURED
    ensures moments[1].InStep(h)
    ensures moments[3].live == Some(b) && moments[3].recorded.confHash == h.all(a) && !moments[3].InStep(h)
  {
    assert IsHex(h.all(a));
    var first := AfterConfig(h, UNCONFIGURED.recorded, a);
    TaggedHash(h.http(a.http));
    attempts := [Attempt(a, false, true), Attempt(b, false, false), Attempt(a, false, true)];
    moments := [UNCONFIGURED, ConfigMoment(first, Some(a)), ConfigMoment(first, Some(b)), ConfigMoment(first, Some(b))];
  }

  // ------------------------------------------------------ the pod template

  /** The annotations a pod template is given: the user's own win over the operator's. */
  function PrepareAnnotations(user: StringMap, net: Option<string>, restartHash: Option<string>): StringMap {
    (if net.Some? then map[NETWORK := net.value] else map[])
    + (if restartHash.Some? then map[RESTART_HASH := restartHash.value] else map[])
    + user
  }

  const NETWORK := "k8s.v1.cni.cncf.io/networks"

  /** Key by key: the user's value, or else the recorded hash or the network. */
  lemma AnnotationsKeyByKey(user: StringMap, net: Option<string>, annot: string, k: string)
    ensures var all := PrepareAnnotations(user, net, Some(annot));
            && (k in all <==> k in user || k == RESTART_HASH || (k == NETWORK && net.Some?))
            && (k in user ==> all[k] == user[k])
            && (k == RESTART_HASH && k !in user ==> all[k] == annot)
            && (k == NETWORK && k !in user && net.Some? ==> all[k] == net.value)
  {
    assert |RESTART_HASH| != |NETWORK|;
  }

  /** A user annotation under the operator's key hides the recorded hash. */
  lemma UserKeyHidesTheHash(user: StringMap, net: Option<string>, a: string, b: string)
    requires RESTART_HASH in user
    ensures PrepareAnnotations(user, net, Some(a)) == PrepareAnnotations(user, net, Some(b))
  {
  }

  /** The part of a template's annotations that does not depend on the recorded hash. */
  function Rest(user: StringMap, net: Option<string>): StringMap {
    PrepareAnnotations(user, net, None)
  }

  lemma HashIsOneEntry(user: StringMap, net: Option<string>, annot: string)
    requires RESTART_HASH !in user
    ensures RESTART_HASH !in Rest(user, net)
    ensures PrepareAnnotations(user, net, Some(annot)) == Rest(user, net)[RESTART_HASH := annot]
  {
    assert |RESTART_HASH| != |NETWORK|;
  }

  lemma OneEntryRolls(rest: StringMap, annot: string, t: string)
    requires RESTART_HASH !in rest
    ensures ShouldUpdateAnnotations(rest[RESTART_HASH := annot], rest[RESTART_HASH := t]) <==>
            annot != "" && !HasSuffix(annot, INITIAL) && annot != t
    ensures DeepDerivative(rest[RESTART_HASH := annot], rest[RESTART_HASH := t]) <==> annot == "" || annot == t
  {
    var desired, current := rest[RESTART_HASH := annot], rest[RESTART_HASH := t];
    AnnotationRolloutExactly(desired, current);
    DerivativeMeansCovered(desired, current);
    DerivativeMeansCovered(rest, current);
    assert Without(desired, RESTART_HASH) == rest;
    assert desired[RESTART_HASH] == annot && current[RESTART_HASH] == t;
  }

  /** Of two templates that differ in the recorded hash at most, the new one rolls exactly if its hash is set,
      untagged and different. */
  lemma AnnotationsRollExactly(user: StringMap, net: Option<string>, annot: string, t: string)
    requires RESTART_HASH !in user
    ensures var desired, current := PrepareAnnotations(user, net, Some(annot)), PrepareAnnotations(user, net, Some(t));
            && (ShouldUpdateAnnotations(desired, current) <==> annot != "" && !HasSuffix(annot, INITIAL) && annot != t)
            && (DeepDerivative(desired, current) <==> annot == "" || annot == t)
  {
    HashIsOneEntry(user, net, annot);
    HashIsOneEntry(user, net, t);
    OneEntryRolls(Rest(user, net), annot, t);
  }

  // ------------------------------------------------------------ whole runs

  /** Reconcile passes that reach the config step, and passes that compare the template. `other` says that the
      template differs in something else too. */
  datatype Event = ConfigPass(conf: Config) | TemplatePass(other: bool)

  datatype Machine = Machine(recorded: Recorded, template: StringMap)

  /** What never changes during a run. */
  datatype Setting = Setting(h: Hashes, user: StringMap, net: Option<string>)

  ghost predicate Ordinary(s: Setting) {
    Hexadecimal(s.h) && RESTART_HASH !in s.user
  }

  function Desired(s: Setting, m: Machine): StringMap {
    PrepareAnnotations(s.user, s.net, Some(m.recorded.annot))
  }

  /** The annotations alone call for a rollout. */
  predicate Rolls(s: Setting, m: Machine, e: Event) {
    e.TemplatePass? && ShouldUpdateAnnotations(Desired(s, m), m.template)
  }

  function Next(s: Setting, m: Machine, e: Event): Machine {
    match e
    case ConfigPass(conf) => m.(recorded := AfterConfig(s.h, m.recorded, conf))
    case TemplatePass(other) =>
      if (Rolls(s, m, e) || other) && !DeepDerivative(Desired(s, m), m.template)
      then m.(template := Desired(s, m)) else m
  }

  /** One flag per event: did the annotations cause a rollout? */
  function Rollouts(s: Setting, m: Machine, events: seq<Event>): seq<bool>
    decreases events
  {
    if events == [] then [] else [Rolls(s, m, events[0])] + Rollouts(s, Next(s, m, events[0]), events[1..])
  }

  /** No annotation on the CR yet, and the template made from that. */
  function Fresh(s: Setting): Machine {
    Machine(Recorded("", ""), PrepareAnnotations(s.user, s.net, Some("")))
  }

  function Run(s: Setting, m: Machine, events: seq<Event>): Machine
    decreases events
  {
    if events == [] then m else Run(s, Next(s, m, events[0]), events[1..])
  }

  // What it comes to. Until the hash changes for the first time nothing is compared; from then on, a template pass
  // compares the hash with the one it met last time.

  datatype Reference = Reference(hash: Option<string>, confHash: string, changed: bool, last: Option<string>) {
    predicate Pending() { changed && last != hash }

    predicate Sound() { if changed then hash.Some? else last == None }
  }

  predicate HashChanges(s: Setting, r: Reference, e: Event) {
    e.ConfigPass? && r.hash.Some? && r.hash.value != s.h.http(e.conf.http)
  }

  function RefNext(s: Setting, r: Reference, e: Event): Reference {
    match e
    case TemplatePass(_) => if r.changed then r.(last := r.hash) else r
    case ConfigPass(conf) =>
      if HashChanges(s, r, e) then Reference(Some(s.h.http(conf.http)), s.h.all(conf), true, r.last)
      else if s.h.all(conf) == r.confHash then r
      else Reference(Some(s.h.http(conf.http)), s.h.all(conf), r.changed, r.last)
  }

  function RefRun(s: Setting, r: Reference, events: seq<Event>): Reference
    decreases events
  {
    if events == [] then r else RefRun(s, RefNext(s, r, events[0]), events[1..])
  }

  function RefRollouts(s: Setting, r: Reference, events: seq<Event>): seq<bool>
    decreases events
  {
    if events == [] then []
    else [events[0].TemplatePass? && r.Pending()] + RefRollouts(s, RefNext(s, r, events[0]), events[1..])
  }

  ghost predicate Abstracts(s: Setting, m: Machine, r: Reference) {
    exists t :: AbstractsWith(s, m, r, t)
  }

  /** `t` is the hash that the template carries, which counts only if it is untagged. */
  ghost predicate AbstractsWith(s: Setting, m: Machine, r: Reference, t: string) {
    && m.template == PrepareAnnotations(s.user, s.net, Some(t))
    && m.recorded.confHash == r.confHash
    && r.Sound()
    && r.last == (if t == "" || HasSuffix(t, INITIAL) then None else Some(t))
    && match r.hash
       case None => m.recorded.annot == ""
       case Some(hash) => IsHex(hash) && m.recorded.annot == (if r.changed then hash else hash + INITIAL)
  }

  lemma ConfigPassRefines(s: Setting, m: Machine, r: Reference, t: string, conf: Config)
    requires Ordinary(s) && AbstractsWith(s, m, r, t)
    ensures AbstractsWith(s, Next(s, m, ConfigPass(conf)), RefNext(s, r, ConfigPass(conf)), t)
  {
    var hash := s.h.http(conf.http);
    HexIsNeverInitial(hash);
    TaggedHash(hash);
    if r.hash.Some? {
      HexIsNeverInitial(r.hash.value);
      TaggedHash(r.hash.value);
    }
  }

  lemma TemplatePassRefines(s: Setting, m: Machine, r: Reference, t: string, other: bool)
    requires Ordinary(s) && AbstractsWith(s, m, r, t)
    ensures Rolls(s, m, TemplatePass(other)) <==> r.Pending()
    ensures Abstracts(s, Next(s, m, TemplatePass(other)), RefNext(s, r, TemplatePass(other)))
  {
    var annot := m.recorded.annot;
    AnnotationsRollExactly(s.user, s.net, annot, t);
    if r.hash.Some? {
      HexIsNeverInitial(r.hash.value);
      TaggedHash(r.hash.value);
    }
    var m', r' := Next(s, m, TemplatePass(other)), RefNext(s, r, TemplatePass(other));
    assert AbstractsWith(s, m', r', if m' == m then t else annot);
  }

  lemma StepRefines(s: Setting, m: Machine, r: Reference, e: Event)
    requires Ordinary(s) && Abstracts(s, m, r)
    ensures Rolls(s, m, e) <==> e.TemplatePass? && r.Pending()
    ensures Abstracts(s, Next(s, m, e), RefNext(s, r, e))
  {
    var t :| AbstractsWith(s, m, r, t);
    match e {
      case ConfigPass(conf) => ConfigPassRefines(s, m, r, t, conf);
      case TemplatePass(other) => TemplatePassRefines(s, m, r, t, other);
    }
  }

  /** Over every run, from every state: annotations cause a rollout exactly when the hash has changed at some time
      and differs from the one that the last template pass since then met. */
  lemma {:induction false} RolloutsFollowTheHash(s: Setting, m: Machine, r: Reference, events: seq<Event>)
    requires Ordinary(s) && Abstracts(s, m, r)
    ensures Rollouts(s, m, events) == RefRollouts(s, r, events)
    ensures Abstracts(s, Run(s, m, events), RefRun(s, r, events))
    decreases events
  {
    if events != [] {
      StepRefines(s, m, r, events[0]);
      RolloutsFollowTheHash(s, Next(s, m, events[0]), RefNext(s, r, events[0]), events[1..]);
    }
  }

  const UNRECORDED := Reference(None, "", false, None)

  lemma FreshIsUnrecorded(s: Setting)
    ensures Abstracts(s, Fresh(s), UNRECORDED)
  {
    assert AbstractsWith(s, Fresh(s), UNRECORDED, "");
  }

  /** With one and the same Net.HTTP hash throughout - so for the first recording, and however often rebalance
      or anything else in the config is toggled - annotations never cause a rollout. */
  lemma OneHashNeverRolls(s: Setting, events: seq<Event>, hash: string)
    requires Ordinary(s)
    requires forall e :: e in events && e.ConfigPass? ==> s.h.http(e.conf.http) == hash
    ensures |Rollouts(s, Fresh(s), events)| == |events|
    ensures forall i :: 0 <= i < |events| ==> !Rollouts(s, Fresh(s), events)[i]
  {
    FreshIsUnrecorded(s);
    NothingPending(s, UNRECORDED, events, hash);
    RolloutsFollowTheHash(s, Fresh(s), UNRECORDED, events);
  }

  lemma {:induction false} NothingPending(s: Setting, r: Reference, events: seq<Event>, hash: string)
    requires r.Sound() && !r.Pending() && (r.hash == None || r.hash == Some(hash))
    requires forall e :: e in events && e.ConfigPass? ==> s.h.http(e.conf.http) == hash
    ensures |RefRollouts(s, r, events)| == |events|
    ensures forall i :: 0 <= i < |events| ==> !RefRollouts(s, r, events)[i]
    decreases events
  {
    if events != [] {
      assert events[0] in events && forall e :: e in events[1..] ==> e in events;
      NothingPending(s, RefNext(s, r, events[0]), events[1..], hash);
    }
  }

  // ------------------------------------------------- changes and rollouts, counted

  function Count(flags: seq<bool>): nat {
    if flags == [] then 0 else (if flags[0] then 1 else 0) + Count(flags[1..])
  }

  function HashChangeCount(s: Setting, r: Reference, events: seq<Event>): nat
    decreases events
  {
    if events == [] then 0
    else (if HashChanges(s, r, events[0]) then 1 else 0) + HashChangeCount(s, RefNext(s, r, events[0]), events[1..])
  }

  /** A change is rolled out before the next one comes. */
  ghost predicate Separated(s: Setting, r: Reference, events: seq<Event>)
    decreases events
  {
    events != [] ==>
      && (r.Pending() ==> !HashChanges(s, r, events[0]))
      && Separated(s, RefNext(s, r, events[0]), events[1..])
  }

  function Waiting(r: Reference): nat { if r.Pending() then 1 else 0 }

  lemma {:induction false} ReferenceCounts(s: Setting, r: Reference, events: seq<Event>)
    requires r.Sound()
    ensures var rolled := Count(RefRollouts(s, r, events)) + Waiting(RefRun(s, r, events));
            var changed := HashChangeCount(s, r, events) + Waiting(r);
            rolled <= changed && (rolled == changed <==> Separated(s, r, events))
    decreases events
  {
    if events != [] {
      ReferenceCounts(s, RefNext(s, r, events[0]), events[1..]);
      var flags := RefRollouts(s, r, events);
      assert flags[1..] == RefRollouts(s, RefNext(s, r, events[0]), events[1..]);
    }
  }

  /** No change of a recorded hash is rolled out more than once; and every change is rolled out once, save one that
      the run ends before, if and only if each is rolled out before the next one comes. */
  lemma OneRolloutPerChange(s: Setting, m: Machine, r: Reference, events: seq<Event>)
    requires Ordinary(s) && Abstracts(s, m, r)
    ensures var rolled := Count(Rollouts(s, m, events)) + Waiting(RefRun(s, r, events));
            var changed := HashChangeCount(s, r, events) + Waiting(r);
            rolled <= changed && (rolled == changed <==> Separated(s, r, events))
  {
    RolloutsFollowTheHash(s, m, r, events);
    ReferenceCounts(s, r, events);
  }

  // ---------------------------------------------------- a change that is taken back

  ghost predicate Departs(s: Setting, hash: string, configs: seq<Config>) {
    exists conf :: conf in configs && s.h.http(conf.http) != hash
  }

  function Passes(configs: seq<Config>): seq<Event> {
    seq(|configs|, i requires 0 <= i < |configs| => ConfigPass(configs[i]))
  }

  lemma {:induction false} ChangedOnceDeparted(s: Setting, r: Reference, configs: seq<Config>)
    requires r.hash.Some?
    ensures var r' := RefRun(s, r, Passes(configs));
            r'.last == r.last && (r'.changed <==> r.changed || Departs(s, r.hash.value, configs))
    decreases configs
  {
    if configs != [] {
      var next := RefNext(s, r, ConfigPass(configs[0]));
      assert Passes(configs)[0] == ConfigPass(configs[0]) && Passes(configs)[1..] == Passes(configs[1..]);
      ChangedOnceDeparted(s, next, configs[1..]);
      assert forall c :: c in configs <==> c == configs[0] || c in configs[1..];
    }
  }

  /** Suppose no change waits, and some config passes later the hash is the one it was. Then the next template
      pass rolls if and only if that hash was the first one recorded, and one of the passes had another. */
  lemma FlippingBackRollsExactly(s: Setting, m: Machine, r: Reference, configs: seq<Config>, other: bool)
    requires Ordinary(s) && Abstracts(s, m, r) && r.hash.Some? && !r.Pending()
    requires RefRun(s, r, Passes(configs)).hash == r.hash
    ensures Rolls(s, Run(s, m, Passes(configs)), TemplatePass(other)) <==>
            HasSuffix(m.recorded.annot, INITIAL) && Departs(s, r.hash.value, configs)
  {
    RolloutsFollowTheHash(s, m, r, Passes(configs));
    StepRefines(s, Run(s, m, Passes(configs)), RefRun(s, r, Passes(configs)), TemplatePass(other));
    ChangedOnceDeparted(s, r, configs);
    HexIsNeverInitial(r.hash.value);
    TaggedHash(r.hash.value);
  }

  /** So a first change that is taken back before the template is compared restarts the cluster, although the
      template was compared, and found right, with the very same hash. */
  lemma FlippingBackRolls(s: Setting, a: Config, b: Config)
    requires Ordinary(s) && s.h.http(a.http) != s.h.http(b.http) && s.h.all(a) != s.h.all(b)
    ensures var m1 := Next(s, Fresh(s), ConfigPass(a));
            var m2 := Next(s, m1, TemplatePass(false));
            && !Rolls(s, m1, TemplatePass(false)) && m2 == m1
            && Rolls(s, Run(s, m2, Passes([b, a])), TemplatePass(false))
  {
    var m1, r1 := Next(s, Fresh(s), ConfigPass(a)), RefNext(s, UNRECORDED, ConfigPass(a));
    FreshIsUnrecorded(s);
    StepRefines(s, Fresh(s), UNRECORDED, ConfigPass(a));
    assert IsHex(s.h.all(a)) && r1 == Reference(Some(s.h.http(a.http)), s.h.all(a), false, None);
    StepRefines(s, m1, r1, TemplatePass(false));
    TaggedHash(s.h.http(a.http));
    BackAgain(s, r1, a, b);
    assert b in [b, a];
    FlippingBackRollsExactly(s, m1, r1, [b, a], false);
  }

  lemma BackAgain(s: Setting, r: Reference, a: Config, b: Config)
    requires r.hash == Some(s.h.http(a.http)) && s.h.http(a.http) != s.h.http(b.http)
    ensures RefRun(s, r, Passes([b, a])).hash == r.hash
  {
    var e := Passes([b, a]);
    var there := RefNext(s, r, e[0]);
    assert e[1..][0] == ConfigPass(a) && e[1..][1..] == [];
    assert RefRun(s, there, e[1..]) == RefRun(s, RefNext(s, there, ConfigPass(a)), []);
  }
}
