/** The data volume claim of an AuthN deployment. It is owned, as controller, by the AIStoreAuth CR, so garbage
    collection takes it once the CR is gone; unless the policy says Delete, the operator lets go of it before it
    gives up the CR's finalizer. */
module AuthnRetention {
  import opened Wrappers

  datatype CR = CR(finalizer: bool, deleted: bool, deletePVC: bool)

  /** Whether the claim exists, and whether the CR controls it. */
  datatype Claim = Absent | Controlled | Free

  datatype Event =
    // users, other controllers and garbage collection
    | PolicySet(deletePVC: bool)
    | DeletionRequested
    | ClaimTakenAway
    | Collected
    // reconcile passes
    | PassStarts
    | FinalizerAdded
    | ClaimApplied
    | ClaimRead(claim: Claim)
    | ReferenceDropped
    | FinalizerRemoved
    | PassEnds

  /** `cr` is the copy the pass read; `letGo` says that it has seen the claim, or made it, not controlled. */
  datatype Pass = Idle | Running(cr: CR, letGo: bool)

  /** `releasedUnder`: the policy read by the pass that removed the finalizer. The CR is gone when it is None. */
  datatype Machine = Machine(cr: Option<CR>, claim: Claim, pass: Pass, releasedUnder: Option<bool>)

  function Initially(deletePVC: bool): Machine {
    Machine(Some(CR(false, false, deletePVC)), Absent, Idle, None)
  }

  /** An object marked for deletion disappears with its last finalizer. */
  function Settle(cr: CR): Option<CR> {
    if cr.deleted && !cr.finalizer then None else Some(cr)
  }

  predicate MayHappen(m: Machine, e: Event) {
    var p := m.pass;
    match e
    case PolicySet(_) => m.cr.Some?
    case DeletionRequested => m.cr.Some?
    case ClaimTakenAway => true
    case Collected => m.cr.None? && m.claim.Controlled?
    case PassStarts => p.Idle? && m.cr.Some?
    case PassEnds => p.Running?
    case FinalizerAdded => p.Running? && !p.cr.deleted && !p.cr.finalizer && m.cr.Some?
    case ClaimApplied => p.Running? && !p.cr.deleted && p.cr.finalizer
    case ClaimRead(claim) => p.Running? && claim == m.claim
    case ReferenceDropped => p.Running? && p.cr.deleted && p.cr.finalizer && !p.cr.deletePVC
    case FinalizerRemoved => p.Running? && p.cr.deleted && p.cr.finalizer && (p.cr.deletePVC || p.letGo) && m.cr.Some?
  }

  function Next(m: Machine, e: Event): Machine
    requires MayHappen(m, e)
  {
    match e
    case PolicySet(deletePVC) => m.(cr := Some(m.cr.value.(deletePVC := deletePVC)))
    case DeletionRequested => m.(cr := Settle(m.cr.value.(deleted := true)))
    case ClaimTakenAway => m.(claim := Absent)
    case Collected => m.(claim := Absent)
    case PassStarts => m.(pass := Running(m.cr.value, false))
    case PassEnds => m.(pass := Idle)
    case FinalizerAdded =>
      var cr := m.cr.value.(finalizer := true);
      m.(cr := Some(cr), pass := Running(m.pass.cr.(finalizer := true), m.pass.letGo))
    case ClaimApplied => m.(claim := Controlled, pass := m.pass.(letGo := false))
    case ClaimRead(claim) => m.(pass := m.pass.(letGo := !claim.Controlled?))
    case ReferenceDropped =>
      m.(claim := if m.claim.Controlled? then Free else m.claim, pass := m.pass.(letGo := true))
    case FinalizerRemoved =>
      m.(cr := Settle(m.cr.value.(finalizer := false)), pass := m.pass.(cr := m.pass.cr.(finalizer := false)),
         releasedUnder := Some(m.pass.cr.deletePVC))
  }

  /** A claim that the CR controls is safe: the CR still holds its finalizer, or gave it up under policy Delete. */
  ghost predicate Inv(m: Machine) {
    && (m.claim.Controlled? ==> HoldsFinalizer(m) || m.releasedUnder == Some(true))
    && (m.releasedUnder.Some? ==> m.cr.None?)
    && (m.cr.Some? ==> Settle(m.cr.value) == m.cr)
    && (m.pass.Running? ==>
          && (m.pass.cr.finalizer ==> HoldsFinalizer(m))
          && (m.pass.cr.deleted && m.cr.Some? ==> m.cr.value.deleted)
          && (m.pass.cr.deleted && !m.pass.cr.finalizer ==> m.cr.None?)
          && (m.pass.letGo ==> !m.claim.Controlled?))
  }

  predicate HoldsFinalizer(m: Machine) {
    m.cr.Some? && m.cr.value.finalizer
  }

  lemma InvSteps(m: Machine, e: Event)
    requires Inv(m) && MayHappen(m, e)
    ensures Inv(Next(m, e))
  {
  }

  // ------------------------------------------------------------ whole runs

  ghost predicate StepAt(trace: seq<Machine>, log: seq<Event>, i: int)
    requires |trace| == |log| + 1 && 0 <= i < |log|
  {
    MayHappen(trace[i], log[i]) && trace[i + 1] == Next(trace[i], log[i])
  }

  ghost predicate Traces(deletePVC: bool, trace: seq<Machine>, log: seq<Event>, m: Machine) {
    && |trace| == |log| + 1 && trace[0] == Initially(deletePVC) && trace[|log|] == m
    && forall i :: 0 <= i < |log| ==> StepAt(trace, log, i)
  }

  lemma {:induction false} InvHolds(deletePVC: bool, trace: seq<Machine>, log: seq<Event>, m: Machine, i: nat)
    requires Traces(deletePVC, trace, log, m) && i <= |log|
    ensures Inv(trace[i])
  {
    if i > 0 {
      InvHolds(deletePVC, trace, log, m, i - 1);
      assert StepAt(trace, log, i - 1);
      InvSteps(trace[i - 1], log[i - 1]);
    }
  }

  /** In every state of every run, a claim that the CR controls means that the CR holds its finalizer - unless a pass
      that read policy Delete has given it up. */
  lemma ControlledIsHeld(deletePVC: bool, trace: seq<Machine>, log: seq<Event>, m: Machine, i: nat)
    requires Traces(deletePVC, trace, log, m) && i <= |log| && trace[i].claim.Controlled?
    ensures HoldsFinalizer(trace[i]) || trace[i].releasedUnder == Some(true)
  {
    InvHolds(deletePVC, trace, log, m, i);
  }

  /** Garbage collection takes the claim only after a pass that read policy Delete removed the finalizer. */
  lemma CollectedOnlyUnderDelete(deletePVC: bool, trace: seq<Machine>, log: seq<Event>, m: Machine, i: nat)
    returns (k: nat)
    requires Traces(deletePVC, trace, log, m) && i < |log| && log[i].Collected?
    ensures k < i && log[k].FinalizerRemoved? && trace[k].pass.Running? && trace[k].pass.cr.deletePVC
  {
    assert StepAt(trace, log, i);
    InvHolds(deletePVC, trace, log, m, i);
    k := WasReleased(deletePVC, trace, log, m, i);
  }

  lemma {:induction false} WasReleased(deletePVC: bool, trace: seq<Machine>, log: seq<Event>, m: Machine, i: nat)
    returns (k: nat)
    requires Traces(deletePVC, trace, log, m) && i <= |log| && trace[i].releasedUnder == Some(true)
    ensures k < i && log[k].FinalizerRemoved? && trace[k].pass.Running? && trace[k].pass.cr.deletePVC
    decreases i
  {
    assert i > 0;
    assert StepAt(trace, log, i - 1);
    if trace[i - 1].releasedUnder == Some(true) {
      k := WasReleased(deletePVC, trace, log, m, i - 1);
    } else {
      k := i - 1;
    }
  }

  /** Given up under policy Retain, a claim that exists stays for good, short of being taken away by hand. */
  lemma {:induction false} RetainedForGood(deletePVC: bool, trace: seq<Machine>, log: seq<Event>, m: Machine,
                                           i: nat, j: nat)
    requires Traces(deletePVC, trace, log, m) && i <= j <= |log|
    requires trace[i].releasedUnder == Some(false) && trace[i].claim.Free?
    requires forall k :: i <= k < j ==> !log[k].ClaimTakenAway?
    ensures trace[j].releasedUnder == Some(false) && trace[j].claim.Free?
    decreases j
  {
    if i < j {
      RetainedForGood(deletePVC, trace, log, m, i, j - 1);
      InvHolds(deletePVC, trace, log, m, j - 1);
      assert StepAt(trace, log, j - 1);
    }
  }

  // --------------------------------------------------------- the reconciler

  /** What a pass makes of the CR and the claim if no call fails and nothing else happens. */
  function AfterPass(cr: Option<CR>, claim: Claim): (Option<CR>, Claim) {
    match cr
    case None => (None, claim)
    case Some(c) =>
      if !c.deleted then (Some(c.(finalizer := true)), Controlled)
      else (None, if c.deletePVC then claim else LetGo(claim))
  }

  function LetGo(claim: Claim): Claim { if claim.Controlled? then Free else claim }

  class Reconciler {
    const initialPolicy: bool
    /** No call fails, and nothing else happens. */
    const calm: bool
    /** What the API server holds: the CR, if any, and the claim. */
    var cr: Option<CR>
    var claim: Claim
    /** The copy of the CR that the pass read. */
    var authn: CR
    ghost var m: Machine
    ghost var log: seq<Event>
    ghost var trace: seq<Machine>

    constructor (deletePVC: bool, calm: bool)
      ensures Valid() && m.pass.Idle? && log == [] && initialPolicy == deletePVC && this.calm == calm
    {
      initialPolicy, this.calm := deletePVC, calm;
      cr, claim, authn := Some(CR(false, false, deletePVC)), Absent, CR(false, false, deletePVC);
      m, log, trace := Initially(deletePVC), [], [Initially(deletePVC)];
    }

    ghost predicate Valid()
      reads this
    {
      Traces(initialPolicy, trace, log, m) && m.cr == cr && m.claim == claim
    }

    ghost predicate InPass()
      reads this
    {
      Valid() && m.pass.Running? && m.pass.cr == authn
    }

    ghost method Record(e: Event)
      requires Traces(initialPolicy, trace, log, m) && MayHappen(m, e)
      modifies `m, `log, `trace
      ensures Traces(initialPolicy, trace, log, m) && m == Next(old(m), e) && log == old(log) + [e]
    {
      ghost var trace', log' := trace + [Next(m, e)], log + [e];
      forall i | 0 <= i < |log'| ensures StepAt(trace', log', i) {
        assert i < |log| ==> StepAt(trace, log, i);
      }
      m, log, trace := Next(m, e), log', trace';
    }

    /** Users, other controllers and garbage collection. */
    method OthersAct()
      requires Valid()
      modifies `cr, `claim, `m, `log, `trace
      ensures Valid() && old(log) <= log
      ensures m.pass == old(m).pass && m.releasedUnder == old(m).releasedUnder
      ensures calm ==> m == old(m)
    {
      if calm {
        return;
      }
      var n: int := *;
      while n > 0
        invariant Valid() && old(log) <= log && m.pass == old(m).pass && m.releasedUnder == old(m).releasedUnder
      {
        var choice: int := *;
        var flag: bool := *;
        if choice == 0 && cr.Some? {
          cr := Some(cr.value.(deletePVC := flag));
          Record(PolicySet(flag));
        } else if choice == 1 && cr.Some? {
          cr := Settle(cr.value.(deleted := true));
          Record(DeletionRequested);
        } else if choice == 2 {
          claim := Absent;
          Record(ClaimTakenAway);
        } else if choice == 3 && cr.None? && claim.Controlled? {
          claim := Absent;
          Record(Collected);
        }
        n := n - 1;
      }
    }

    method Call() returns (ok: bool)
      requires InPass()
      modifies `cr, `claim, `m, `log, `trace
      ensures InPass() && old(log) <= log && m.pass == old(m).pass && m.releasedUnder == old(m).releasedUnder
      ensures calm ==> ok && m == old(m)
    {
      OthersAct();
      ok := *;
      ok := ok || calm;
    }

    method EnsureFinalizer() returns (ok: bool)
      requires InPass() && !authn.deleted
      modifies `cr, `claim, `authn, `m, `log, `trace
      ensures InPass() && old(log) <= log
      ensures ok ==> authn.finalizer && !authn.deleted
      ensures m.releasedUnder == old(m).releasedUnder
      ensures calm && old(cr) == Some(old(authn)) ==>
                ok && authn == old(authn).(finalizer := true) && cr == Some(authn) && claim == old(claim)
    {
      if authn.finalizer {
        return true;
      }
      ok := Call();
      var lost: bool := *;
      if cr.None? || (!ok && lost) {
        return false;
      }
      cr := Some(cr.value.(finalizer := true));
      authn := authn.(finalizer := true);
      Record(FinalizerAdded);
    }

    /** Applies the claim with the CR as its controller. */
    method ReconcilePersistence() returns (ok: bool)
      requires InPass() && !authn.deleted && authn.finalizer
      modifies `cr, `claim, `m, `log, `trace
      ensures InPass() && old(log) <= log
      ensures ok ==> claim.Controlled? && ClaimApplied in log[|old(log)|..]
      ensures m.releasedUnder == old(m).releasedUnder
      ensures calm ==> ok && cr == old(cr)
    {
      ok := Call();
      var lost: bool := *;
      if ok || !lost {
        claim := Controlled;
        Record(ClaimApplied);
        assert log[|log| - 1] == ClaimApplied && log[|old(log)|..][|log| - 1 - |old(log)|] == ClaimApplied;
      }
    }

    /** The claim comes after objects that garbage collection may take, and before others. */
    method ReconcileResources() returns (ok: bool)
      requires InPass() && !authn.deleted && authn.finalizer
      modifies `cr, `claim, `m, `log, `trace
      ensures InPass() && old(log) <= log
      ensures ok ==> ClaimApplied in log[|old(log)|..]
      ensures m.releasedUnder == old(m).releasedUnder
      ensures calm ==> ok && cr == old(cr) && claim == Controlled
    {
      ok := Call();
      if !ok {
        return;
      }
      ghost var before := log;
      ok := ReconcilePersistence();
      if !ok {
        return;
      }
      ghost var applied := log;
      ok := Call();
      assert ClaimApplied in applied[|before|..] && applied[|before|..] <= log[|before|..];
      assert log[|old(log)|..] == log[|old(log)|..|before|] + log[|before|..];
    }

    /** Unless it is to be deleted, the claim is let go of: it is gone, or something else's, or its reference is
        dropped. */
    method RetainPVC() returns (ok: bool)
      requires InPass() && authn.deleted && authn.finalizer
      modifies `cr, `claim, `m, `log, `trace
      ensures InPass() && old(log) <= log
      ensures ok ==> authn.deletePVC || m.pass.letGo
      ensures authn.deletePVC ==> ok && m == old(m)
      ensures m.releasedUnder == old(m).releasedUnder
      ensures calm ==> ok && cr == old(cr) && claim == if authn.deletePVC then old(claim) else LetGo(old(claim))
    {
      if authn.deletePVC {
        return true;
      }
      ok := Call();
      if !ok {
        return;
      }
      var found := claim;
      Record(ClaimRead(found));
      if !found.Controlled? {
        return true;
      }
      ok := Call();
      var lost: bool := *;
      if ok || !lost {
        claim := LetGo(claim);
        Record(ReferenceDropped);
      }
    }

    method ReconcileDeletion() returns (ok: bool)
      requires InPass() && authn.deleted
      modifies `cr, `claim, `authn, `m, `log, `trace
      ensures Valid() && m.pass.Running? && old(log) <= log
      ensures !old(authn).finalizer ==> ok && m == old(m)
      // The finalizer goes only with the claim let go of, or under policy Delete.
      ensures m.releasedUnder != old(m).releasedUnder ==> m.releasedUnder == Some(old(authn).deletePVC)
      ensures ok && old(authn).finalizer ==> cr.None?
      ensures calm && old(authn).finalizer ==>
                ok && claim == if old(authn).deletePVC then old(claim) else LetGo(old(claim))
    {
      if !authn.finalizer {
        return true;
      }
      ok := RetainPVC();
      if !ok {
        return;
      }
      ok := Call();
      var lost: bool := *;
      InvHolds(initialPolicy, trace, log, m, |log|);
      if cr.Some? && (ok || !lost) {
        cr := Settle(cr.value.(finalizer := false));
        authn := authn.(finalizer := false);
        Record(FinalizerRemoved);
      }
    }

    method Reconcile() returns (ok: bool)
      requires Valid() && m.pass.Idle?
      modifies this
      ensures Valid() && m.pass.Idle? && old(log) <= log
      // A pass that succeeds has found or left the CR gone, or has applied the claim.
      ensures ok ==> cr.None? || ClaimApplied in log[|old(log)|..]
      ensures calm ==> ok && (cr, claim) == AfterPass(old(cr), old(claim))
    {
      OthersAct();
      ok := *;
      ok := ok || calm;
      if !ok || cr.None? {
        return;
      }
      InvHolds(initialPolicy, trace, log, m, |log|);
      authn := cr.value;
      Record(PassStarts);
      if authn.deleted {
        ok := ReconcileDeletion();
      } else {
        ghost var started := log;
        ok := Converge();
        StillIn(ClaimApplied, started, log, log, |old(log)|);
      }
      ghost var done := log;
      Record(PassEnds);
      StillIn(ClaimApplied, old(log), done, log, |old(log)|);
    }

    lemma StillIn(e: Event, was: seq<Event>, done: seq<Event>, now: seq<Event>, start: nat)
      requires start <= |was| && was <= done && done <= now
      ensures e in done[|was|..] ==> e in now[start..]
    {
      if e in done[|was|..] {
        var k :| 0 <= k < |done[|was|..]| && done[|was|..][k] == e;
        assert now[start..][|was| - start + k] == e;
      }
    }

    /** What a pass does for a CR that is not to be deleted. */
    method Converge() returns (ok: bool)
      requires InPass() && !authn.deleted
      modifies `cr, `claim, `authn, `m, `log, `trace
      ensures InPass() && old(log) <= log
      ensures ok ==> ClaimApplied in log[|old(log)|..]
      ensures calm && old(cr) == Some(old(authn)) ==>
                ok && cr == Some(old(authn).(finalizer := true)) && claim == Controlled
    {
      ok := EnsureFinalizer();
      if ok {
        ghost var held := log;
        ok := ReconcileResources();
        StillIn(ClaimApplied, held, log, log, |old(log)|);
      }
    }
  }
}
