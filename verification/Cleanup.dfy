/** Clean-up of a deleted cluster: the delete calls, and the jobs that clean the hosts. */
module Cleanup {
  import opened Wrappers

  // ---------------------------------------------------------- delete calls

  datatype Kind =
    | TargetPDB | TargetStatefulSet | TargetService | TargetExternalServices | TargetConfigMap
    | ProxyStatefulSet | ProxyService | ProxyLoadBalancer | ProxyConfigMap
    | AdminClient | StatsDConfigMap
    | RoleBinding | Role | ServiceAccount
    | TargetPVCs | ProxyPVCs
    | Certificate

  datatype Object = Object(kind: Kind, name: string)

  const TARGET := [TargetPDB, TargetStatefulSet, TargetService, TargetExternalServices, TargetConfigMap]
  const PROXY := [ProxyStatefulSet, ProxyService, ProxyLoadBalancer, ProxyConfigMap]
  const RBAC := [RoleBinding, Role, ServiceAccount]

  ghost predicate EveryOther(kinds: set<Kind>) {
    forall k: Kind :: k in kinds <==> !k.TargetPVCs? && !k.ProxyPVCs? && !k.Certificate?
  }

  const BEFORE_VOLUMES := TARGET + PROXY + [AdminClient, StatsDConfigMap] + RBAC

  lemma NoKindForgotten()
    ensures EveryOther(Set(BEFORE_VOLUMES))
  {
    forall k: Kind | !k.TargetPVCs? && !k.ProxyPVCs? && !k.Certificate? ensures k in Set(BEFORE_VOLUMES) {
      assert k in TARGET || k in PROXY || k in [AdminClient, StatsDConfigMap] || k in RBAC by {
        match k
        case TargetPDB => assert TARGET[0] == k;
        case TargetStatefulSet => assert TARGET[1] == k;
        case TargetService => assert TARGET[2] == k;
        case TargetExternalServices => assert TARGET[3] == k;
        case TargetConfigMap => assert TARGET[4] == k;
        case ProxyStatefulSet => assert PROXY[0] == k;
        case ProxyService => assert PROXY[1] == k;
        case ProxyLoadBalancer => assert PROXY[2] == k;
        case ProxyConfigMap => assert PROXY[3] == k;
        case RoleBinding => assert RBAC[0] == k;
        case Role => assert RBAC[1] == k;
        case ServiceAccount => assert RBAC[2] == k;
        case _ =>
      }
    }
  }

  /** What clean-up is there to delete; volumes only if metadata is to go. */
  predicate ToDelete(metadata: bool, kind: Kind) {
    (kind.TargetPVCs? || kind.ProxyPVCs?) ==> metadata
  }

  /** The objects of some kinds. */
  ghost function OfKinds(objects: set<Object>, kinds: set<Kind>): set<Object> {
    set o | o in objects && o.kind in kinds
  }

  class Cleaner {
    /** In a closed world nobody creates objects while the pass runs; in a calm one nothing else happens at all, and no
        call fails. */
    const closed: bool
    const calm: bool
    const metadata: bool
    var present: set<Object>
    /** Objects marked for deletion; they go when their finalizers allow. */
    var terminating: set<Object>

    constructor (closed: bool, calm: bool, metadata: bool, present: set<Object>)
      ensures this.closed == closed && this.calm == calm && this.metadata == metadata
      ensures this.present == present && terminating == {}
    {
      this.closed, this.calm, this.metadata, this.present, terminating := closed, calm, metadata, present, {};
    }

    predicate AllLeaving(kinds: set<Kind>)
      reads this
    {
      forall o :: o in present && o.kind in kinds ==> o in terminating
    }

    predicate AllGone(kinds: set<Kind>)
      reads this
    {
      forall o :: o in present ==> o.kind !in kinds
    }

    /** All objects of these kinds, and no others, have been marked since. */
    twostate predicate Marked(kinds: set<Kind>)
      reads this
    {
      present == old(present) && terminating == old(terminating) + OfKinds(present, kinds)
    }

    /** Objects marked for deletion may go; in an open world, anything may happen. */
    method OthersAct()
      modifies `present, `terminating
      ensures closed ==> present <= old(present) && old(terminating) * present <= terminating
      ensures closed ==> old(present) - old(terminating) <= present
      ensures calm ==> present == old(present) && terminating == old(terminating)
    {
      if calm {
        return;
      }
      var p: set<Object> := *;
      var t: set<Object> := *;
      if !closed {
        present, terminating := p, t;
      } else if p <= terminating {
        present := present - p;
      }
    }

    method CallFails() returns (fails: bool)
      ensures calm ==> !fails
    {
      fails := *;
      fails := fails && !calm;
    }

    method DeleteIfExists(o: Object) returns (existed: bool, ok: bool)
      modifies `present, `terminating
      ensures closed ==> present <= old(present) && old(terminating) * present <= terminating
      ensures ok ==> existed == (o in present) && (existed ==> o in terminating)
      ensures closed && o !in old(present) ==> !existed
      ensures calm ==> ok && present == old(present) && terminating == old(terminating) + ({o} * present)
    {
      OthersAct();
      var fails := CallFails();
      var lost: bool := *;
      existed, ok := o in present && !fails, !fails;
      if o in present && !(fails && lost) {
        terminating := terminating + {o};
      }
    }

    method List(kind: Kind) returns (objects: seq<Object>, ok: bool)
      modifies `present, `terminating
      ensures closed ==> present <= old(present) && old(terminating) * present <= terminating
      ensures ok ==> forall o :: o in objects <==> o in present && o.kind == kind
      ensures calm ==> ok && present == old(present) && terminating == old(terminating)
    {
      OthersAct();
      var fails := CallFails();
      ok := !fails;
      objects := [];
      var rest := present;
      while rest != {}
        invariant rest <= present
        invariant forall o :: o in objects <==> o in present && o !in rest && o.kind == kind
        decreases rest
      {
        var o :| o in rest;
        if o.kind == kind {
          objects := objects + [o];
        }
        rest := rest - {o};
      }
    }

    /** Deletes all objects of a kind, one by one, up to the first failure. */
    method DeleteKind(kind: Kind) returns (anyExisted: bool, ok: bool)
      modifies `present, `terminating
      ensures closed ==> present <= old(present) && old(terminating) * present <= terminating
      ensures closed && ok ==> AllLeaving({kind}) && (!anyExisted ==> AllGone({kind}))
      ensures closed && old(AllGone({kind})) ==> !anyExisted
      ensures calm ==> ok && Marked({kind}) && (anyExisted <==> !AllGone({kind}))
    {
      anyExisted := false;
      var objects;
      objects, ok := List(kind);
      if !ok {
        return;
      }
      ghost var listed := present;
      for i := 0 to |objects|
        invariant closed ==> present <= listed && listed <= old(present) && old(terminating) * present <= terminating
        invariant closed ==> forall k :: 0 <= k < i && objects[k] in present ==> objects[k] in terminating
        invariant closed && !anyExisted ==> forall k :: 0 <= k < i ==> objects[k] !in present
        invariant closed && old(AllGone({kind})) ==> !anyExisted
        invariant calm ==> present == listed && terminating == old(terminating) + (set o | o in objects[..i])
        invariant calm ==> (anyExisted <==> i > 0)
      {
        var existed;
        assert objects[i] in objects && objects[..i + 1] == objects[..i] + [objects[i]];
        existed, ok := DeleteIfExists(objects[i]);
        if !ok {
          return;
        }
        anyExisted := anyExisted || existed;
      }
      ok := true;
      assert objects[..|objects|] == objects;
      if calm {
        ListedAll(kind, objects);
      }
      forall o | closed && o in present && o.kind == kind ensures o in terminating && anyExisted {
        assert o in objects;
        var k :| 0 <= k < |objects| && objects[k] == o;
        assert objects[k] in present;
      }
    }

    lemma ListedAll(kind: Kind, objects: seq<Object>)
      requires forall o :: o in objects <==> o in present && o.kind == kind
      ensures (set o | o in objects) == OfKinds(present, {kind})
      ensures |objects| > 0 <==> !AllGone({kind})
    {
      if |objects| > 0 {
        assert objects[0] in objects;
      }
    }

    /** Calls one after the other, up to the first error; was there anything at all? */
    method AnyOf(kinds: seq<Kind>) returns (any: bool, ok: bool)
      modifies `present, `terminating
      ensures closed ==> present <= old(present) && old(terminating) * present <= terminating
      ensures !ok ==> !any
      ensures closed && ok ==> AllLeaving(Set(kinds)) && (!any ==> AllGone(Set(kinds)))
      ensures closed && old(AllGone(Set(kinds))) ==> !any
      ensures calm ==> ok && Marked(Set(kinds)) && (any <==> !AllGone(Set(kinds)))
    {
      any := false;
      for i := 0 to |kinds|
        invariant closed ==> present <= old(present) && old(terminating) * present <= terminating
        invariant closed ==> AllLeaving(Set(kinds[..i])) && (!any ==> AllGone(Set(kinds[..i])))
        invariant closed && old(AllGone(Set(kinds))) ==> !any
        invariant calm ==> Marked(Set(kinds[..i])) && (any <==> !AllGone(Set(kinds[..i])))
      {
        assert kinds[..i + 1] == kinds[..i] + [kinds[i]] && kinds[i] in Set(kinds);
        assert Set(kinds[..i + 1]) == Set(kinds[..i]) + {kinds[i]};
        var existed;
        existed, ok := DeleteKind(kinds[i]);
        if !ok {
          return false, false;
        }
        any := any || existed;
      }
      assert kinds[..|kinds|] == kinds;
      return any, true;
    }

    /** Volumes go together, those of the targets first. Whether target volumes were found is forgotten. */
    method DeleteAllPVCs() returns (existed: bool, ok: bool)
      modifies `present, `terminating
      ensures closed ==> present <= old(present) && old(terminating) * present <= terminating
      ensures closed && ok ==> AllLeaving({TargetPVCs, ProxyPVCs}) && (!existed ==> AllGone({ProxyPVCs}))
      ensures closed && old(AllGone({ProxyPVCs, TargetPVCs})) ==> !existed
      ensures calm ==> ok && Marked({TargetPVCs, ProxyPVCs}) && (existed <==> !AllGone({ProxyPVCs}))
    {
      existed, ok := DeleteKind(TargetPVCs);
      if !ok {
        return;
      }
      ghost var t, p := terminating, present;
      existed, ok := DeleteKind(ProxyPVCs);
    }

    method CleanupPVC() returns (existed: bool, ok: bool)
      modifies `present, `terminating
      ensures closed ==> present <= old(present) && old(terminating) * present <= terminating
      ensures closed && ok && metadata ==> AllLeaving({TargetPVCs, ProxyPVCs}) && (!existed ==> AllGone({ProxyPVCs}))
      ensures closed && old(AllGone({ProxyPVCs, TargetPVCs})) ==> !existed
      ensures !metadata ==> ok && !existed && present == old(present) && terminating == old(terminating)
      ensures calm && metadata ==> ok && Marked({TargetPVCs, ProxyPVCs}) && (existed <==> !AllGone({ProxyPVCs}))
    {
      if !metadata {
        return false, true;
      }
      existed, ok := DeleteAllPVCs();
    }

    /** A pass through all delete calls. Without an error every object to be deleted is on its way out, and if nothing
        was found nothing is left - except that target volumes may still be on their way out. In a calm world it finds
        something exactly if there is something to delete other than target volumes. */
    method CleanupResources() returns (updated: bool, ok: bool)
      modifies `present, `terminating
      ensures !ok ==> !updated
      ensures closed && ok ==> forall o :: o in present && ToDelete(metadata, o.kind) ==> o in terminating
      ensures closed && ok && !updated ==> forall o :: o in present && ToDelete(metadata, o.kind) ==> o.kind.TargetPVCs?
      ensures closed && old(present) == {} ==> !updated
      ensures calm ==> ok && present == old(present)
      ensures calm ==> terminating == old(terminating) + (set o | o in present && ToDelete(metadata, o.kind))
      ensures calm ==> (updated <==> exists o :: o in present && ToDelete(metadata, o.kind) && !o.kind.TargetPVCs?)
    {
      var any;
      NoKindForgotten();
      updated, ok := AnyOf(BEFORE_VOLUMES);
      if !ok {
        return false, false;
      }
      any, ok := CleanupPVC();
      if !ok {
        return false, false;
      }
      updated := updated || any;
      any, ok := AnyOf([Certificate]);
      assert Set([Certificate]) == {Certificate};
      if !ok {
        return false, false;
      }
      updated := updated || any;
      if calm {
        AllOfThem(Set(BEFORE_VOLUMES));
      }
    }

    lemma AllOfThem(others: set<Kind>)
      requires EveryOther(others)
      ensures (set o | o in present && ToDelete(metadata, o.kind)) ==
              OfKinds(present, others) + (if metadata then OfKinds(present, {TargetPVCs, ProxyPVCs}) else {})
              + OfKinds(present, {Certificate})
      ensures !AllGone(others) || (metadata && !AllGone({ProxyPVCs})) || !AllGone({Certificate}) <==>
              exists o :: o in present && ToDelete(metadata, o.kind) && !o.kind.TargetPVCs?
    {
    }
  }

  /** A target volume that is still there is not noticed: the pass marks it, reports that nothing was found, and so lets
      clean-up go on. */
  method TargetVolumeIsForgotten() returns (k: Cleaner, updated: bool, ok: bool)
    ensures k.metadata && ok && !updated
    ensures k.present == {Object(TargetPVCs, "data")} == k.terminating
  {
    k := new Cleaner(true, true, true, {Object(TargetPVCs, "data")});
    updated, ok := k.CleanupResources();
  }

  ghost function Set(kinds: seq<Kind>): set<Kind> {
    set k | k in kinds
  }

  // ------------------------------------------------------------------ jobs

  /** `cluster` is the one whose hosts it cleans; nothing on the job tells. */
  datatype Job = Job(name: string, cluster: string, succeeded: nat, created: int)

  const CLEANUP_PREFIX := "cleanup"
  /** Seconds. */
  const JOB_LIMIT := 120

  predicate IsCleanupJob(job: Job) {
    "cleanup" <= job.name
  }

  /** It has succeeded, or is more than two minutes old. */
  ghost predicate IsDone(job: Job, now: int) {
    job.succeeded > 0 || now - job.created > 120
  }

  /** No cleanup job in j' that is not in j, with the same creation time. */
  ghost predicate NoneNew(j: map<string, Job>, j': map<string, Job>) {
    forall n :: n in j' && IsCleanupJob(j'[n]) ==>
      n in j && IsCleanupJob(j[n]) && j[n].created == j'[n].created
  }

  ghost predicate WellKeyed(jobs: map<string, Job>) {
    forall n :: n in jobs ==> jobs[n].name == n
  }

  /** Every cleanup job is more than two minutes old. */
  ghost predicate AllExpired(jobs: map<string, Job>, now: int) {
    forall n :: n in jobs && IsCleanupJob(jobs[n]) ==> now - jobs[n].created > 120
  }

  datatype Progress = Requeue | Advance | Failed

  /** A pass of host clean-up: it walks the jobs it listed, up to i so far. */
  datatype JobPass =
    | Resting(last: Option<Progress>)
    | Deleting(list: seq<Job>, i: nat, remaining: seq<Job>)

  /** The jobs of the namespace by name, those of them that were asked to go, and the clock. */
  datatype Space = Space(jobs: map<string, Job>, leaving: set<string>, now: int, pass: JobPass)

  /** Every cleanup job is on its way out. */
  ghost predicate AllLeaving(s: Space) {
    forall n :: n in s.jobs && IsCleanupJob(s.jobs[n]) ==> n in s.leaving
  }

  // ----------------------------------------------------------------- steps

  /** Time passes; jobs succeed, go or, in an open world, come. A job that is leaving does not stay after all. */
  ghost predicate WorldStep(closed: bool, s: Space, t: Space) {
    && t.pass == s.pass && t.now >= s.now && WellKeyed(t.jobs)
    && (closed ==> NoneNew(s.jobs, t.jobs) && forall n :: n in s.leaving && n in t.jobs ==> n in t.leaving)
  }

  ghost predicate Lists(list: seq<Job>, jobs: map<string, Job>) {
    forall j :: j in list <==> j.name in jobs && jobs[j.name] == j && IsCleanupJob(j)
  }

  ghost predicate StepList(s: Space, t: Space) {
    && s.pass.Resting? && t == s.(pass := t.pass)
    && t.pass.Deleting? && t.pass.i == 0 && t.pass.remaining == [] && Lists(t.pass.list, s.jobs)
  }

  /** A job that is done is asked to go; it need not be gone when the call returns. */
  ghost predicate StepDelete(s: Space, t: Space) {
    && s.pass.Deleting? && s.pass.i < |s.pass.list|
    && var job := s.pass.list[s.pass.i];
       IsDone(job, s.now)
       && t == s.(leaving := s.leaving + {job.name}, pass := s.pass.(i := s.pass.i + 1))
  }

  ghost predicate StepKeep(s: Space, t: Space) {
    && s.pass.Deleting? && s.pass.i < |s.pass.list|
    && var job := s.pass.list[s.pass.i];
       !IsDone(job, s.now)
       && t == s.(pass := s.pass.(i := s.pass.i + 1, remaining := s.pass.remaining + [job]))
  }

  /** A pass that went through its list goes on to the next stage if nothing remains. */
  ghost predicate StepEnd(s: Space, t: Space) {
    && s.pass.Deleting? && s.pass.i == |s.pass.list|
    && t == s.(pass := Resting(Some(if s.pass.remaining == [] then Advance else Requeue)))
  }

  ghost predicate StepFail(s: Space, t: Space) {
    t == s.(pass := Resting(Some(Failed)))
  }

  ghost predicate Next(closed: bool, s: Space, t: Space) {
    || WorldStep(closed, s, t)
    || StepList(s, t) || StepDelete(s, t) || StepKeep(s, t) || StepEnd(s, t) || StepFail(s, t)
  }

  ghost predicate IsJobRun(closed: bool, run: seq<Space>) {
    && |run| > 0 && WellKeyed(run[0].jobs) && run[0].pass == Resting(None)
    && forall k: nat :: k < |run| - 1 ==> Next(closed, run[k], run[k + 1])
  }

  // -------------------------------------------------------- what runs keep

  /** The pass has n on its list, and if it came past it, has asked it to go or keeps it. */
  ghost predicate Covered(s: Space, n: string)
    requires s.pass.Deleting?
  {
    exists x: nat :: x < |s.pass.list| && CoveredBy(s, n, x)
  }

  ghost predicate CoveredBy(s: Space, n: string, x: nat)
    requires s.pass.Deleting? && x < |s.pass.list|
  {
    && s.pass.list[x].name == n
    && (x < s.pass.i ==> s.pass.list[x] in s.pass.remaining || n in s.leaving)
  }

  ghost predicate JobInv(s: Space) {
    && WellKeyed(s.jobs)
    && (s.pass == Resting(Some(Advance)) ==> AllLeaving(s))
    && (s.pass.Deleting? ==> forall n :: n in s.jobs && IsCleanupJob(s.jobs[n]) ==> Covered(s, n))
  }

  lemma JobInvWorld(s: Space, t: Space)
    requires JobInv(s) && WorldStep(true, s, t)
    ensures JobInv(t)
  {
    if s.pass.Deleting? {
      forall n | n in t.jobs && IsCleanupJob(t.jobs[n]) ensures Covered(t, n) {
        assert Covered(s, n);
        var x: nat :| x < |s.pass.list| && CoveredBy(s, n, x);
        assert CoveredBy(t, n, x);
      }
    }
  }

  lemma JobInvList(s: Space, t: Space)
    requires JobInv(s) && StepList(s, t)
    ensures JobInv(t)
  {
    forall n | n in t.jobs && IsCleanupJob(t.jobs[n]) ensures Covered(t, n) {
      assert t.jobs[n] in t.pass.list;
      var x: nat :| x < |t.pass.list| && t.pass.list[x] == t.jobs[n];
      assert CoveredBy(t, n, x);
    }
  }

  lemma JobInvWalk(s: Space, t: Space)
    requires JobInv(s) && (StepDelete(s, t) || StepKeep(s, t))
    ensures JobInv(t)
  {
    forall n | n in t.jobs && IsCleanupJob(t.jobs[n]) ensures Covered(t, n) {
      assert Covered(s, n);
      var x: nat :| x < |s.pass.list| && CoveredBy(s, n, x);
      assert CoveredBy(t, n, x);
    }
  }

  lemma JobInvEnd(s: Space, t: Space)
    requires JobInv(s) && StepEnd(s, t)
    ensures JobInv(t)
  {
    if s.pass.remaining == [] {
      forall n | n in s.jobs && IsCleanupJob(s.jobs[n]) ensures n in s.leaving {
        assert Covered(s, n);
      }
    }
  }

  lemma {:induction false} JobInvHolds(run: seq<Space>, k: nat)
    requires IsJobRun(true, run) && k < |run|
    ensures JobInv(run[k])
  {
    if k > 0 {
      JobInvHolds(run, k - 1);
      var s, t := run[k - 1], run[k];
      assert Next(true, run[k - 1], run[k - 1 + 1]);
      if WorldStep(true, s, t) {
        JobInvWorld(s, t);
      } else if StepList(s, t) {
        JobInvList(s, t);
      } else if StepEnd(s, t) {
        JobInvEnd(s, t);
      } else if !StepFail(s, t) {
        JobInvWalk(s, t);
      }
    }
  }

  /** Where no cleanup jobs are created any more, host clean-up is left only when all of them are on their way out. */
  lemma HostIsLeftClean(run: seq<Space>, k: nat)
    requires IsJobRun(true, run) && k < |run| && run[k].pass == Resting(Some(Advance))
    ensures AllLeaving(run[k])
  {
    JobInvHolds(run, k);
  }

  ghost predicate CreatedBy(jobs: map<string, Job>, last: int) {
    forall n :: n in jobs && IsCleanupJob(jobs[n]) ==> jobs[n].created <= last
  }

  lemma {:induction false} CreatedEarlier(run: seq<Space>, last: int, i: nat)
    requires IsJobRun(true, run) && i < |run| && CreatedBy(run[0].jobs, last)
    ensures CreatedBy(run[i].jobs, last)
    decreases i
  {
    if i > 0 {
      CreatedEarlier(run, last, i - 1);
      assert Next(true, run[i - 1], run[i - 1 + 1]);
    }
  }

  /** A pass that lists the jobs when all of them have expired keeps none. */
  ghost predicate KeepsNone(s: Space, from: int) {
    && s.now >= from
    && (s.pass.Deleting? ==>
          && s.pass.remaining == []
          && forall x: nat :: x < |s.pass.list| ==> from - s.pass.list[x].created > JOB_LIMIT)
    && s.pass != Resting(Some(Requeue))
  }

  lemma KeepsNoneWorld(s: Space, t: Space, from: int)
    requires KeepsNone(s, from) && WorldStep(true, s, t)
    ensures KeepsNone(t, from)
  {
  }

  lemma KeepsNoneList(s: Space, t: Space, from: int, last: int)
    requires s.now >= from && CreatedBy(s.jobs, last) && from > last + JOB_LIMIT && StepList(s, t)
    ensures KeepsNone(t, from)
  {
    assert forall x: nat :: x < |t.pass.list| ==> t.pass.list[x] in t.pass.list;
  }

  lemma KeepsNoneWalk(s: Space, t: Space, from: int)
    requires KeepsNone(s, from) && (StepDelete(s, t) || StepKeep(s, t) || StepEnd(s, t) || StepFail(s, t))
    ensures KeepsNone(t, from)
  {
  }

  lemma {:induction false} LatePassKeepsNone(run: seq<Space>, last: int, i: nat, j: nat)
    requires IsJobRun(true, run) && CreatedBy(run[0].jobs, last)
    requires i < j < |run| && StepList(run[i], run[i + 1]) && run[i].now > last + JOB_LIMIT
    ensures KeepsNone(run[j], run[i].now)
    decreases j
  {
    CreatedEarlier(run, last, j - 1);
    var s, t := run[j - 1], run[j];
    if j == i + 1 {
      KeepsNoneList(s, t, run[i].now, last);
    } else {
      LatePassKeepsNone(run, last, i, j - 1);
      assert Next(true, run[j - 1], run[j - 1 + 1]);
      if WorldStep(true, s, t) {
        KeepsNoneWorld(s, t, run[i].now);
      } else if StepList(s, t) {
        KeepsNoneList(s, t, run[i].now, last);
      } else {
        KeepsNoneWalk(s, t, run[i].now);
      }
    }
  }

  /** Once the clock is two minutes past the last creation, a pass that lists the jobs never waits: it, and every one
      after it, either fails or goes on, and then every cleanup job is on its way out. */
  lemma JobsRunOut(run: seq<Space>, last: int, i: nat, j: nat)
    requires IsJobRun(true, run) && CreatedBy(run[0].jobs, last)
    requires i < j < |run| && StepList(run[i], run[i + 1]) && run[i].now > last + JOB_LIMIT
    requires run[j].pass.Resting?
    ensures run[j].pass.last != Some(Requeue)
    ensures run[j].pass.last == Some(Advance) ==> AllLeaving(run[j])
  {
    LatePassKeepsNone(run, last, i, j);
    JobInvHolds(run, j);
  }

  // ------------------------------------------------------------- the passes

  /** The names of those of the listed jobs that are done. */
  ghost function Done(list: seq<Job>, now: int): set<string> {
    set j | j in list && IsDone(j, now) :: j.name
  }

  lemma DoneNext(list: seq<Job>, i: nat, now: int)
    requires i < |list|
    ensures Done(list[..i + 1], now) ==
            Done(list[..i], now) + if IsDone(list[i], now) then {list[i].name} else {}
  {
    assert list[..i + 1] == list[..i] + [list[i]];
  }

  ghost function DoneIn(jobs: map<string, Job>, now: int): set<string> {
    set n | n in jobs && IsCleanupJob(jobs[n]) && IsDone(jobs[n], now)
  }

  ghost predicate AllDone(jobs: map<string, Job>, now: int) {
    forall n :: n in jobs && IsCleanupJob(jobs[n]) ==> IsDone(jobs[n], now)
  }

  lemma DoneAll(list: seq<Job>, remaining: seq<Job>, jobs: map<string, Job>, now: int)
    requires WellKeyed(jobs) && Lists(list, jobs)
    requires forall j :: j in remaining <==> j in list && !IsDone(j, now)
    ensures Done(list, now) == DoneIn(jobs, now)
    ensures remaining == [] <==> AllDone(jobs, now)
  {
    forall n | n in DoneIn(jobs, now) ensures n in Done(list, now) {
      assert jobs[n] in list;
    }
    if remaining != [] {
      assert remaining[0] in remaining && remaining[0] in list;
    }
    forall n | remaining == [] && n in jobs && IsCleanupJob(jobs[n]) ensures IsDone(jobs[n], now) {
      assert jobs[n] in list;
    }
  }

  class JobKeeper {
    var space: Space
    ghost var run: seq<Space>
    /** No cleanup job is created any more; and, if calm, nothing else happens and no call fails. */
    const closed: bool
    const calm: bool

    ghost predicate Valid()
      reads this
    {
      IsJobRun(closed, run) && run[|run| - 1] == space && WellKeyed(space.jobs)
    }

    constructor (closed: bool, calm: bool, jobs: map<string, Job>, leaving: set<string>, now: int)
      requires WellKeyed(jobs)
      ensures Valid() && this.closed == closed && this.calm == calm
      ensures space == Space(jobs, leaving, now, Resting(None)) && run == [space]
    {
      this.closed, this.calm, space := closed, calm, Space(jobs, leaving, now, Resting(None));
      run := [Space(jobs, leaving, now, Resting(None))];
    }

    method Record(next: Space)
      requires Valid() && Next(closed, space, next)
      modifies this
      ensures Valid() && space == next && run == old(run) + [next]
    {
      ghost var before := run;
      space := next;
      run := run + [next];
      forall k: nat | k < |run| - 1 ensures Next(closed, run[k], run[k + 1]) {
        assert k < |before| - 1 ==> Next(closed, before[k], before[k + 1]);
      }
    }

    method CallFails() returns (fails: bool)
      ensures calm ==> !fails
    {
      fails := *;
      fails := fails && !calm;
    }

    method OthersAct()
      requires Valid()
      modifies this
      ensures Valid() && old(run) <= run && WorldStep(closed, old(space), space)
      ensures calm ==> space == old(space)
    {
      StillWorld(closed, space);
      if calm {
        return;
      }
      var jobs: map<string, Job> := *;
      var leaving: set<string> := *;
      var now: int := *;
      var sound := now >= space.now && (forall n | n in jobs :: jobs[n].name == n)
        && (!closed ||
            ((forall n | n in jobs :: IsCleanupJob(jobs[n]) ==>
                n in space.jobs && IsCleanupJob(space.jobs[n]) && space.jobs[n].created == jobs[n].created)
             && (forall n | n in space.leaving :: n in jobs ==> n in leaving)));
      if sound {
        Record(Space(jobs, leaving, now, space.pass));
      }
    }

    lemma StillWorld(closed: bool, s: Space)
      requires WellKeyed(s.jobs)
      ensures WorldStep(closed, s, s)
    {
    }

    /** Asks one listed job to go; a call that errs may have had that effect too. */
    method Delete(job: Job) returns (ok: bool)
      requires Valid() && space.pass.Deleting? && space.pass.i < |space.pass.list|
      requires job == space.pass.list[space.pass.i] && IsDone(job, space.now)
      modifies this
      ensures Valid() && old(run) <= run && space.now >= old(space).now
      ensures ok ==> space.pass == old(space).pass.(i := old(space).pass.i + 1) && job.name in space.leaving
      ensures !ok ==> space.pass == Resting(Some(Failed))
      ensures closed ==> NoneNew(old(space).jobs, space.jobs)
      ensures calm ==> ok && space == old(space).(leaving := old(space).leaving + {job.name}, pass := space.pass)
    {
      OthersAct();
      var fails := CallFails();
      var lost: bool := *;
      ok := !fails;
      if ok || !lost {
        Record(space.(leaving := space.leaving + {job.name}, pass := space.pass.(i := space.pass.i + 1)));
      }
      if !ok {
        Record(space.(pass := Resting(Some(Failed))));
      }
    }

    /** Every job of the namespace whose name has the prefix; it need not belong to this cluster. */
    method ListCleanupJobs() returns (list: seq<Job>, ok: bool)
      requires Valid() && space.pass.Resting?
      modifies this
      ensures Valid() && old(run) <= run && space.now >= old(space).now
      ensures closed ==> NoneNew(old(space).jobs, space.jobs)
      ensures ok ==> space.pass == Deleting(list, 0, []) && Lists(list, space.jobs)
      ensures !ok ==> space.pass == Resting(Some(Failed))
      ensures calm ==> ok && space == old(space).(pass := space.pass)
    {
      OthersAct();
      var fails := CallFails();
      ok := !fails;
      list := [];
      if !ok {
        Record(space.(pass := Resting(Some(Failed))));
        return;
      }
      var rest := space.jobs.Keys;
      while rest != {}
        invariant Valid() && space == old(space).(jobs := space.jobs, leaving := space.leaving, now := space.now)
        invariant old(run) <= run && space.now >= old(space).now && (closed ==> NoneNew(old(space).jobs, space.jobs))
        invariant calm ==> space == old(space)
        invariant rest <= space.jobs.Keys
        invariant forall j ::
          j in list <==> j.name in space.jobs && j.name !in rest && space.jobs[j.name] == j && IsCleanupJob(j)
        decreases rest
      {
        var n :| n in rest;
        if CLEANUP_PREFIX <= space.jobs[n].name {
          list := list + [space.jobs[n]];
        }
        rest := rest - {n};
      }
      Record(space.(pass := Deleting(list, 0, [])));
    }

    /** Asks those jobs to go that have succeeded or are more than two minutes old; returns the others. */
    method DeleteFinishedJobs(list: seq<Job>) returns (remaining: seq<Job>, ok: bool)
      requires Valid() && space.pass == Deleting(list, 0, [])
      modifies this
      ensures Valid() && old(run) <= run && space.now >= old(space).now
      ensures closed ==> NoneNew(old(space).jobs, space.jobs)
      ensures ok ==> space.pass == Deleting(list, |list|, remaining)
      ensures !ok ==> space.pass == Resting(Some(Failed))
      // No job is kept that could not succeed in time any more, and none goes that could.
      ensures ok ==> forall j :: j in remaining ==> j in list && !IsDone(j, old(space).now)
      ensures ok ==> forall j :: j in list && !IsDone(j, space.now) ==> j in remaining
      ensures calm ==> ok && space == old(space).(leaving := old(space).leaving + Done(list, space.now),
                                                  pass := space.pass)
    {
      remaining := [];
      for i := 0 to |list|
        invariant Valid() && old(run) <= run && space.now >= old(space).now
        invariant closed ==> NoneNew(old(space).jobs, space.jobs)
        invariant space.pass == Deleting(list, i, remaining)
        invariant forall j :: j in remaining ==> j in list && !IsDone(j, old(space).now)
        invariant forall k :: 0 <= k < i && !IsDone(list[k], space.now) ==> list[k] in remaining
        invariant calm ==> space == old(space).(leaving := old(space).leaving + Done(list[..i], old(space).now),
                                                pass := space.pass)
      {
        var job := list[i];
        DoneNext(list, i, old(space).now);
        if job.succeeded > 0 || space.now - job.created > JOB_LIMIT {
          ok := Delete(job);
          if !ok {
            return;
          }
        } else {
          remaining := remaining + [job];
          Record(space.(pass := Deleting(list, i + 1, remaining)));
        }
      }
      assert list[..|list|] == list;
      ok := true;
    }

    /** The pass stays in host clean-up while jobs remain. If no new ones come, then a pass that begins once the clock
        is two minutes past the last creation, and in which no call fails, finds none remaining and goes on. */
    method CleanupHost() returns (progress: Progress)
      requires Valid() && space.pass.Resting?
      modifies this
      ensures Valid() && old(run) <= run && space.pass == Resting(Some(progress))
      ensures closed && progress.Advance? ==> AllLeaving(space)
      ensures closed && !progress.Failed? && AllExpired(old(space).jobs, old(space).now) ==> progress.Advance?
      ensures closed && progress.Requeue? ==>
                exists n :: n in old(space).jobs && old(space).now - old(space).jobs[n].created <= JOB_LIMIT
      // In a calm namespace it asks the jobs to go that are done, and waits exactly if there are others.
      ensures calm ==>
                && space == old(space).(leaving := old(space).leaving + DoneIn(old(space).jobs, old(space).now),
                                        pass := Resting(Some(progress)))
                && progress == if AllDone(old(space).jobs, old(space).now) then Advance else Requeue
    {
      var list, ok := ListCleanupJobs();
      if !ok {
        return Failed;
      }
      ghost var listed := space.jobs;
      var remaining;
      remaining, ok := DeleteFinishedJobs(list);
      if !ok {
        return Failed;
      }
      progress := if remaining == [] then Advance else Requeue;
      Record(space.(pass := Resting(Some(progress))));
      if calm {
        DoneAll(list, remaining, old(space).jobs, old(space).now);
      }
      if closed {
        JobInvHolds(run, |run| - 1);
        if remaining != [] {
          var job := remaining[0];
          assert job in remaining && job in list && listed[job.name] == job;
          assert old(space).now - old(space).jobs[job.name].created <= JOB_LIMIT;
        }
      }
    }
  }

  /** Jobs are told by their names alone: one of any other cluster is waited for while it is young, and asked to go
      when it is not. */
  method OtherClustersJob(other: string, created: int, now: int) returns (k: JobKeeper, progress: Progress)
    ensures k.Valid() && k.space.jobs == map["cleanup-node-x7" := Job("cleanup-node-x7", other, 0, created)]
    ensures now - created <= JOB_LIMIT ==> progress.Requeue? && k.space.leaving == {}
    ensures now - created > JOB_LIMIT ==> progress.Advance? && k.space.leaving == {"cleanup-node-x7"}
  {
    var name := "cleanup-node-x7";
    var jobs := map[name := Job(name, other, 0, created)];
    assert name[..7] == CLEANUP_PREFIX;
    k := new JobKeeper(true, true, jobs, {}, now);
    assert name in jobs && IsCleanupJob(jobs[name]);
    assert DoneIn(jobs, now) == if now - created > JOB_LIMIT then {name} else {};
    progress := k.CleanupHost();
  }
}
