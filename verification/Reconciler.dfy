/** The reconciler of AIStore clusters. Each of its calls may fail, a write that fails may have taken effect, reads may
    return anything, and users may set the shutdown flag or delete the CR between any two calls. Everything it does is
    recorded in `log`, and each entry is one that the lifecycle allows at that point. In a calm world it does
    exactly what a pass should. */
module Reconciler {
  import opened Wrappers
  import opened StatefulSets
  import opened RebalanceConfig
  import RestartHash
  import PodTemplate
  import opened ClusterSpec
  import opened Lifecycle
  import opened Passes

  class Reconciler {
    const x: Setting
    const calm: bool
    const w: World
    /** The CR as the API server has it, and the copy the pass works on. */
    var server: CR
    var ais: CR
    /** What there is left to clean up. */
    var left: Remains
    ghost var log: seq<Event>
    ghost var m: Machine
    ghost var trace: seq<Machine>

    constructor (x: Setting, calm: bool, w: World)
      ensures this.x == x && this.calm == calm && this.w == w
      ensures Valid() && log == [RemainsChanged(w.left)] && server == NewCR()
    {
      this.x, this.calm, this.w := x, calm, w;
      server, ais, left := NewCR(), NewCR(), w.left;
      log, m, trace := [], Initially(), [Initially()];
      new;
      Record(RemainsChanged(w.left));
    }

    /** The log is a history, and m is where it has led; a calm world stays as it is. */
    ghost predicate Valid()
      reads this
    {
      Traces(x, trace, log, m) && m.cr == server && m.remains == left && (calm ==> left == w.left)
    }

    /** A pass is under way and `ais` is its copy of the CR. */
    ghost predicate InPass()
      reads this
    {
      && Valid() && m.pass.Running? && m.pass.cr == ais
      && ais.status == server.status && ais.finalizer == server.finalizer && ais.hashes == server.hashes
      && (calm ==> ais == server)
    }

    ghost function P(): Pass
      reads this
      requires InPass()
    {
      m.pass
    }

    /** In a calm world the effects since `was`, when the pass's copy was `cr`, are those of r. */
    ghost predicate Exactly(was: seq<Event>, r: Result, outcome: Outcome)
      reads this
    {
      calm ==> log == was + r.events && ais == r.cr && outcome == r.outcome
    }

    // ---------------------------------------------------------- API calls

    ghost method Record(e: Event)
      requires Traces(x, trace, log, m) && MayHappen(x, m, e)
      modifies `log, `m, `trace
      ensures log == old(log) + [e] && Traces(x, trace, log, m) && m == Next(x, old(m), e)
    {
      TraceGrows(x, trace, log, m, e);
      log, m, trace := log + [e], Next(x, m, e), trace + [Next(x, m, e)];
    }

    /** The effects of two stages, one after the other. */
    lemma Composed(was: seq<Event>, first: Result, second: Result)
      ensures first.outcome.Go? ==> was + Then(first, second).events == was + first.events + second.events
    {
    }

    /** `cr` with what users may change as in `newer`. */
    static function UserParts(cr: CR, newer: CR): CR {
      cr.(shutdown := newer.shutdown, deleted := newer.deleted, config := newer.config)
    }

    /** What users may do meanwhile, and what may become of the remains of a cluster. */
    method OthersAct()
      requires Valid()
      modifies `log, `m, `trace, `left, `server
      ensures Valid() && m == old(m).(cr := server, remains := left)
      ensures server == UserParts(old(server), server)
      ensures calm ==> log == old(log) && server == old(server) && left == old(left)
    {
      if calm {
        return;
      }
      var n: int := *;
      while n > 0
        invariant Valid() && m == old(m).(cr := server, remains := left)
        invariant server == UserParts(old(server), server)
      {
        var flag: bool := *;
        var config: Option<Config> := *;
        var remains: Remains := *;
        var choice: int := *;
        if choice == 0 {
          server := server.(deleted := true);
          Record(DeletionRequested);
        } else if choice == 1 {
          server := server.(config := config);
          Record(ConfigEdited(config));
        } else if choice == 2 {
          left := remains;
          Record(RemainsChanged(remains));
        } else {
          server := server.(shutdown := flag);
          Record(ShutdownFlagSet(flag));
        }
        n := n - 1;
      }
    }

    /** A call without effect on what is modelled. */
    method Call() returns (ok: bool)
      requires InPass()
      modifies `log, `m, `trace, `left, `server
      ensures InPass() && P() == old(P()) && m.rolling == old(m.rolling)
      ensures calm ==> ok && log == old(log)
    {
      OthersAct();
      ok := *;
      ok := ok || calm;
    }

    /** Step e of the pass, one that leaves the CR alone. */
    ghost method Do(e: Event)
      requires InPass() && MayHappen(x, m, e) && !WritesCR(e) && !IsOuter(e)
      modifies `log, `m, `trace
      ensures InPass() && log == old(log) + [e]
      ensures P() == Stepped(old(P()), e)
    {
      Record(e);
      assert Next(x, old(m), e) == Inside(x, old(m), e);
    }

    ghost function Stepped(p: Pass, e: Event): Pass
      requires p.Running?
    {
      Running(p.cr, p.foundDeleted, PhaseAfter(p.phase, e), PushAfter(p, e), Noted(x, p.cr.status, p.notes, e))
    }

    /** A write that leaves the CR alone. */
    method Write(e: Event) returns (ok: bool)
      requires InPass() && MayHappen(x, m, e) && !WritesCR(e) && !IsOuter(e) && !ReadsRemains(e)
      requires PhaseAfter(P().phase, e) == P().phase
      modifies `log, `m, `trace, `left, `server
      ensures InPass() && P().phase == old(P()).phase
      ensures ok ==> P() == Stepped(old(P()), e)
      ensures calm ==> ok && log == old(log) + [e]
    {
      ok := Call();
      var lost: bool := *;
      if ok || lost {
        MayStillHappen(old(m), m, e);
        Do(e);
      }
    }

    /** A patch of the CR's own fields; the answer refreshes the copy. */
    method PatchCR(e: Event) returns (ok: bool)
      requires InPass() && MayHappen(x, m, e) && WritesCR(e)
      modifies `log, `m, `trace, `left, `server, `ais
      ensures InPass() && P().phase == old(P()).phase
      ensures ok ==> P() == Running(ais, old(P()).foundDeleted, old(P()).phase, old(P()).pushed, old(P()).notes)
      ensures ok ==> ais == UserParts(Written(old(ais), e), ais)
      ensures calm ==> ok && log == old(log) + [e] && ais == Written(old(ais), e)
    {
      ok := Call();
      var lost: bool := *;
      if ok || lost {
        MayStillHappen(old(m), m, e);
        TakeEffect(e);
      }
    }

    method TakeEffect(e: Event)
      requires InPass() && MayHappen(x, m, e) && WritesCR(e)
      modifies `log, `m, `trace, `left, `server, `ais
      ensures InPass() && log == old(log) + [e] && ais == server == Written(old(server), e)
      ensures P() == Running(ais, old(P()).foundDeleted, old(P()).phase, old(P()).pushed, old(P()).notes)
    {
      ghost var before := m;
      server := Written(server, e);
      ais := server;
      Record(e);
      WriteMeans(before, e);
    }

    lemma WriteMeans(m: Machine, e: Event)
      requires MayHappen(x, m, e) && WritesCR(e)
      ensures m.pass.Running?
      ensures var m' := Next(x, m, e);
              && m'.cr == Written(m.cr, e)
              && m'.pass == Running(m'.cr, m.pass.foundDeleted, m.pass.phase, m.pass.pushed, m.pass.notes)
    {
      assert Next(x, m, e) == Inside(x, m, e);
      assert Noted(x, m.pass.cr.status, m.pass.notes, e) == m.pass.notes;
    }

    lemma MayStillHappen(m: Machine, m': Machine, e: Event)
      requires MayHappen(x, m, e) && !IsOuter(e) && !ReadsRemains(e) && m'.pass == m.pass
      ensures MayHappen(x, m', e)
    {
    }

    method PatchStatus(s: ClusterStatus) returns (ok: bool)
      requires InPass() && MayPatch(x, P(), s)
      modifies `log, `m, `trace, `left, `server, `ais
      ensures InPass() && P().phase == old(P()).phase
      ensures ok ==> P() == Running(ais, old(P()).foundDeleted, old(P()).phase, old(P()).pushed, old(P()).notes)
      ensures ok ==> ais == UserParts(old(ais).(status := s), ais)
      ensures calm ==> ok && log == old(log) + [StatusPatched(s)] && ais == old(ais).(status := s)
    {
      ok := PatchCR(StatusPatched(s));
    }

    /** Moves the cluster into another state and leaves it at that. */
    method UpdateStatusWithState(state: State) returns (ok: bool)
      requires InPass() && MayPatch(x, P(), ais.status.(state := state))
      modifies `log, `m, `trace, `left, `server, `ais
      ensures InPass() && P().phase == old(P()).phase
      ensures ok ==> P() == Running(ais, old(P()).foundDeleted, old(P()).phase, old(P()).pushed, old(P()).notes)
      ensures ok ==> ais == UserParts(old(ais).(status := old(ais).status.(state := state)), ais)
      ensures calm ==> ok && log == old(log) + Move(old(ais), state).events && ais == Move(old(ais), state).cr
    {
      ok := PatchStatus(ais.status.(state := state));
    }

    /** The same, as the last thing a pass does. */
    method MoveOn(state: State) returns (out: Outcome)
      requires InPass() && MayPatch(x, P(), ais.status.(state := state))
      modifies `log, `m, `trace, `left, `server, `ais
      ensures InPass() && (out.Done? || out.Fail?)
      ensures out.Done? ==> ais.status == old(ais).status.(state := state)
      ensures Exactly(old(log), Move(old(ais), state).(outcome := Done), out)
    {
      var ok := UpdateStatusWithState(state);
      return if ok then Done else Fail;
    }

    /** A cached read; a StatefulSet that does not exist is a result, not a failure. */
    method GetStatefulSet(kind: Kind) returns (found: Option<Found>, ok: bool)
      requires InPass()
      modifies `log, `m, `trace, `left, `server
      ensures InPass() && P() == old(P())
      ensures calm ==> ok && log == old(log) && found == ViewOf(w, kind).found
    {
      ok := Call();
      found := *;
      if calm {
        found := ViewOf(w, kind).found;
      }
    }

    static function StatefulSetOf(found: Option<Found>): Option<StatefulSet> {
      if found.Some? then Some(found.value.ss) else None
    }

    /** The same, with consequences. */
    method ReadStatefulSet(kind: Kind) returns (found: Option<Found>, ok: bool)
      requires InPass() && !P().phase.Start?
      modifies `log, `m, `trace, `left, `server
      ensures InPass() && P().phase == old(P()).phase
      ensures ok ==> P() == Stepped(old(P()), StatefulSetRead(kind, StatefulSetOf(found)))
      ensures calm ==> ok && found == ViewOf(w, kind).found
                       && log == old(log) + [StatefulSetRead(kind, StatefulSetOf(found))]
    {
      found, ok := GetStatefulSet(kind);
      if ok {
        Do(StatefulSetRead(kind, StatefulSetOf(found)));
      }
    }

    method UpdateStatefulSetReplicas(kind: Kind, size: int) returns (ok: bool)
      requires InPass() && MayHappen(x, m, ReplicasSet(kind, size))
      modifies `log, `m, `trace, `left, `server
      ensures InPass() && P().phase == old(P()).phase
      ensures ok ==> P() == old(P()) || P() == Stepped(old(P()), ReplicasSet(kind, size))
      ensures calm && ViewOf(w, kind).found.None? ==> !ok && log == old(log)
      ensures calm && ViewOf(w, kind).found.Some? ==>
                ok && log == old(log) + (if ViewOf(w, kind).found.value.ss.replicas == size then []
                                         else [ReplicasSet(kind, size)])
    {
      ghost var was := m;
      var found;
      found, ok := GetStatefulSet(kind);
      if !ok || found.None? {
        return false;
      }
      if found.value.ss.replicas != size {
        MayStillHappen(was, m, ReplicasSet(kind, size));
        ok := Write(ReplicasSet(kind, size));
      }
    }

    // ------------------------------------------------ config and rebalance

    /** The pass is where it may configure the cluster. */
    ghost predicate MayConfigure(p: Pass) {
      p.Running? && (p.phase.Onward? || (p.phase.Checked? && p.notes.shutdownDue))
    }

    /** The pass has not read the proxies. */
    ghost predicate NothingRead(p: Pass) {
      p.Running? && p.notes.proxiesSeen.Unread?
    }

    /** The pass has gone on, and of what it knows only the last push may have changed. */
    ghost predicate Kept(p: Pass, p': Pass) {
      && p.Running? && p'.Running? && p'.phase == p.phase && p'.notes == p.notes
    }

    method UpdateClusterConfig(conf: Config, forceSync: bool) returns (ok: bool)
      requires InPass() && MayConfigure(P()) && conf == ConfigFor(ais.config, ais.status.rebalance)
      modifies `log, `m, `trace, `left, `server
      ensures InPass() && P().phase == old(P()).phase
      ensures ok ==> Kept(old(P()), P())
      ensures ok && forceSync ==> P().pushed == Some(Push(conf.rebalance.value, RebalanceEnabled(ais.config)))
      ensures Exactly(old(log), PushStage(x, ais, conf, forceSync), if ok then Go else Fail)
    {
      if !forceSync && ais.hashes.confHash == x.h.all(conf) {
        return true;
      }
      ok := Write(Pushed(conf.rebalance.value));
    }

    method HandleConfigState(forceSync: bool) returns (out: Outcome)
      requires InPass() && MayConfigure(P())
      modifies `log, `m, `trace, `left, `server, `ais
      ensures InPass() && P().phase == old(P()).phase && (out.Go? || out.Fail?)
      ensures out.Go? ==> Kept(old(P()), P()) && ais.status == old(ais).status && ais.finalizer == old(ais).finalizer
      ensures out.Go? && forceSync ==>
                var wanted := RebalanceEnabled(old(ais).config);
                P().pushed == Some(Push(ais.status.rebalance && wanted, wanted))
      ensures Exactly(old(log), ConfigStage(x, old(ais), forceSync), out)
    {
      var conf := GenerateConfigToSet(ais.config, ais.status.rebalance);
      var ok := UpdateClusterConfig(conf, forceSync);
      if !ok {
        return Fail;
      }
      out := RecordHashes(conf);
      Composed(old(log), PushStage(x, old(ais), conf, forceSync), RecordStage(x, old(ais), conf));
    }

    /** Records on the CR what config the cluster has, if that is new, and what hash its pods should have started
        with. */
    method RecordHashes(conf: Config) returns (out: Outcome)
      requires InPass() && MayConfigure(P())
      modifies `log, `m, `trace, `left, `server, `ais
      ensures InPass() && P().phase == old(P()).phase && (out.Go? || out.Fail?)
      ensures out.Go? ==> Kept(old(P()), P()) && P().pushed == old(P()).pushed
      ensures out.Go? ==> ais.status == old(ais).status && ais.finalizer == old(ais).finalizer
      ensures Exactly(old(log), RecordStage(x, old(ais), conf), out)
    {
      var restartAnnot := RestartHash.CalcRestartConfigAnnotation(ais.hashes.annot, x.h.http(conf.http));
      var confChanged := x.h.all(conf) != ais.hashes.confHash;
      var restartChanged := restartAnnot != ais.hashes.annot;
      var requeue := restartChanged && !PodTemplate.HasSuffix(restartAnnot, PodTemplate.INITIAL);
      if !requeue && !confChanged {
        return Go;
      }
      var ok := PatchCR(HashesPatched(RestartHash.Recorded(restartAnnot, x.h.all(conf))));
      return if ok then Go else Fail;
    }

    method DisableRebalance() returns (out: Outcome)
      requires InPass() && MayConfigure(P())
      modifies `log, `m, `trace, `left, `server, `ais
      ensures InPass() && P().phase == old(P()).phase && (out.Go? || out.Fail?)
      ensures out.Go? ==> Kept(old(P()), P()) && PushedOff(P())
      ensures out.Go? ==> ais.status == old(ais).status.(rebalance := false) && ais.finalizer == old(ais).finalizer
      ensures Exactly(old(log), Passes.DisableRebalance(x, old(ais)), out)
    {
      ghost var off := ais.status.(rebalance := false);
      var ok := PatchStatus(ais.status.(rebalance := false));
      if !ok {
        return Fail;
      }
      Composed(old(log), Patch(old(ais), off), ConfigStage(x, old(ais).(status := off), true));
      out := HandleConfigState(true);
    }

    lemma MayEnable(p: Pass)
      requires p.Running? && p.phase.Onward? && p.notes.targetsSettled
      ensures MayPatch(x, p, p.cr.status.(rebalance := true))
    {
      var s := p.cr.status.(rebalance := true);
      assert MayPatchLive(p, p.cr.status, s);
    }

    lemma MayShutDown(p: Pass)
      requires p.Running? && p.phase.Checked? && p.cr.status.state.Ready?
      requires p.notes.shutdownDue && PushedOff(p) && !p.cr.status.rebalance
      ensures MayPatch(x, p, p.cr.status.(state := ShuttingDown))
    {
      assert MayMove(x, p, State.Ready, ShuttingDown);
    }

    method EnableRebalanceCondition() returns (out: Outcome)
      requires InPass() && P().phase.Onward? && P().notes.targetsSettled
      modifies `log, `m, `trace, `left, `server, `ais
      ensures InPass() && P().phase == old(P()).phase && (out.Go? || out.Fail?)
      ensures out.Go? ==> Kept(old(P()), P()) && ais.finalizer == old(ais).finalizer
      ensures out.Go? ==> ais.status == old(ais).status.(rebalance := true)
      ensures Exactly(old(log), EnableRebalance(old(ais)), out)
    {
      if ais.status.rebalance {
        return Go;
      }
      MayEnable(P());
      var ok := PatchStatus(ais.status.(rebalance := true));
      return if ok then Go else Fail;
    }

    // ------------------------------------------------------------ beginnings

    method InitializeCR() returns (out: Outcome)
      requires InPass() && P().phase.Start?
      requires NothingRead(P())
      modifies `log, `m, `trace, `left, `server, `ais
      ensures InPass() && (out.Go? || out.Fail?)
      ensures out.Go? ==> NothingRead(P())
      ensures out.Go? ==> P().phase.Start? && !ais.status.state.New?
      ensures Exactly(old(log), InitializeStage(old(ais)), out)
    {
      if !ais.status.state.New? {
        return Go;
      }
      if !ais.finalizer {
        var added := PatchCR(FinalizerAdded);
        if !added {
          return Fail;
        }
      }
      var ok := UpdateStatusWithState(Initialized);
      return if ok then Go else Fail;
    }

    /** How the node lists come about is the business of AutoScale. */
    method DetermineAutoScaleStatus() returns (out: Outcome)
      requires InPass()
      modifies `log, `m, `trace, `left, `server, `ais
      ensures InPass() && (out.Go? || out.Fail?)
      ensures out.Go? ==> Kept(old(P()), P()) && ais.status.state == old(ais).status.state
      ensures Exactly(old(log), AutoScaleStage(x, w, old(ais)), out)
    {
      if !AutoScales(x, Proxies) && !AutoScales(x, Targets) {
        return Go;
      }
      var ok := Call();
      if !ok {
        return Fail;
      }
      var wanted := w.wantedNodes;
      if !calm {
        wanted := *;
      }
      if ais.status.nodes == wanted {
        return Go;
      }
      ok := PatchStatus(ais.status.(nodes := wanted));
      return if ok then Go else Fail;
    }

    method CheckDeletion() returns (out: Outcome)
      requires InPass() && P().phase.Start? && !ais.status.state.New?
      requires NothingRead(P())
      modifies `log, `m, `trace, `left, `server, `ais
      ensures InPass() && (out.Go? || out.Fail?)
      ensures out.Go? ==> NothingRead(P())
      ensures out.Go? ==> P().phase.Checked? && !ais.status.state.New?
      ensures Exactly(old(log), DeletionStage(old(ais)), out)
    {
      if ShouldDecommission(ais) {
        var ok := UpdateStatusWithState(Decommissioning);
        if !ok {
          return Fail;
        }
      }
      Do(PastDeletionCheck);
      return Go;
    }

    method CheckShutdown() returns (out: Outcome)
      requires InPass() && P().phase.Checked? && !ais.status.state.New?
      requires NothingRead(P())
      modifies `log, `m, `trace, `left, `server, `ais
      ensures InPass() && (out.Go? || out.Fail?)
      ensures out.Go? ==> NothingRead(P())
      ensures out.Go? ==> P().phase.Checked? && !ais.status.state.New?
      ensures Exactly(old(log), ShutdownStage(x, old(ais)), out)
    {
      if !ShouldStartShutdown(ais) {
        return Go;
      }
      Do(ShutdownDecided);
      out := BeginShutdown();
      Composed(old(log), Note(old(ais), ShutdownDecided), Passes.BeginShutdown(x, old(ais)));
    }

    method BeginShutdown() returns (out: Outcome)
      requires InPass() && P().phase.Checked? && P().notes.shutdownDue && ais.status.state.Ready?
      requires NothingRead(P())
      modifies `log, `m, `trace, `left, `server, `ais
      ensures InPass() && (out.Go? || out.Fail?)
      ensures out.Go? ==> NothingRead(P())
      ensures out.Go? ==> P().phase.Checked? && !ais.status.state.New?
      ensures Exactly(old(log), Passes.BeginShutdown(x, old(ais)), out)
    {
      out := DisableRebalance();
      if !out.Go? {
        return;
      }
      MayShutDown(P());
      var ok := UpdateStatusWithState(ShuttingDown);
      out := if ok then Go else Fail;
    }

    // ---------------------------------------------- shutdown and teardown

    /** The size is set to zero, if it is not, and the pods are waited for. */
    method EmptyStatefulSet(kind: Kind) returns (out: Outcome)
      requires InPass() && P().phase.Checked? && ais.status.state.ShuttingDown? && ais.shutdown
      requires kind.Targets? ==> P().notes.proxiesEmpty
      modifies `log, `m, `trace, `left, `server
      ensures InPass() && !out.Done?
      ensures out.Go? ==> P().phase.Checked? && P().cr == old(P()).cr
      ensures out.Go? ==> P().notes.proxiesEmpty && (kind.Targets? ==> P().notes.targetsEmpty)
      ensures Exactly(old(log), EmptyStage(w, ais, kind), out)
    {
      var ok := UpdateStatefulSetReplicas(kind, 0);
      if !ok {
        return Fail;
      }
      var found;
      found, ok := ReadStatefulSet(kind);
      if !ok || found.None? {
        return Fail;
      }
      return if found.value.ss.status.replicas == 0 then Go else Requeue;
    }

    lemma MayMoveOn(p: Pass, state: State)
      requires p.Running? && p.phase.Checked? && MayMove(x, p, p.cr.status.state, state)
      ensures MayPatch(x, p, p.cr.status.(state := state))
    {
    }

    method ShutdownCluster() returns (out: Outcome)
      requires InPass() && P().phase.Checked? && ais.status.state.ShuttingDown? && ais.shutdown
      modifies `log, `m, `trace, `left, `server, `ais
      ensures InPass() && !out.Go?
      ensures Exactly(old(log), Passes.ShutdownCluster(w, old(ais)), out)
      ensures out.Done? ==> ais.status == old(ais).status.(state := Shutdown)
    {
      out := EmptyStatefulSet(Proxies);
      if out.Go? {
        out := EmptyTargets();
        Composed(old(log), EmptyStage(w, old(ais), Proxies), Passes.EmptyTargets(w, old(ais)));
      }
    }

    method EmptyTargets() returns (out: Outcome)
      requires InPass() && P().phase.Checked? && ais.status.state.ShuttingDown? && ais.shutdown
      requires P().notes.proxiesEmpty
      modifies `log, `m, `trace, `left, `server, `ais
      ensures InPass() && !out.Go?
      ensures Exactly(old(log), Passes.EmptyTargets(w, old(ais)), out)
      ensures out.Done? ==> ais.status == old(ais).status.(state := Shutdown)
    {
      out := EmptyStatefulSet(Targets);
      if !out.Go? {
        return;
      }
      MayMoveOn(P(), Shutdown);
      out := MoveOn(Shutdown);
    }

    /** A StatefulSet that cannot be read is taken to have ready pods. */
    method SSHasReadyReplicas(kind: Kind) returns (ready: bool)
      requires InPass()
      modifies `log, `m, `trace, `left, `server
      ensures InPass() && P() == old(P())
      ensures calm ==> log == old(log) && ready == HasReadyReplicas(ViewOf(w, kind))
    {
      var found, ok := GetStatefulSet(kind);
      return !ok || (found.Some? && found.value.ss.status.readyReplicas > 0);
    }

    method DecommissionCluster() returns (out: Outcome)
      requires InPass() && P().phase.Checked? && ais.status.state.Decommissioning?
      modifies `log, `m, `trace, `left, `server, `ais
      ensures InPass() && !out.Go?
      ensures out.Done? ==> ais.status == old(ais).status.(state := CleaningResources)
      ensures Exactly(old(log), Passes.DecommissionCluster(w, old(ais)), out)
    {
      var running := SSHasReadyReplicas(Targets);
      if running {
        running := SSHasReadyReplicas(Proxies);
      }
      if running {
        var told := Write(ClusterToldToStop);
        return Requeue;
      }
      MayMoveOn(P(), CleaningResources);
      out := MoveOn(CleaningResources);
    }

    /** Deletes everything that belongs to the cluster; how is the business of Cleanup. */
    method DeleteAll() returns (existed: bool, ok: bool)
      requires InPass() && P().phase.Checked? && ais.status.state.CleaningResources?
      modifies `log, `m, `trace, `left, `server
      ensures InPass() && P().phase == old(P()).phase
      ensures ok ==> P() == Stepped(old(P()), CleanedUp(existed))
      ensures calm ==> ok && existed == w.left.objects && log == old(log) + [CleanedUp(existed)]
    {
      ok := Call();
      existed := left.objects;
      if ok {
        Do(CleanedUp(existed));
      }
    }

    lemma MayCleanHosts(p: Pass)
      requires p.Running? && p.phase.Checked? && p.cr.status.state in {CleaningResources, HostCleanup}
      requires p.notes.cleaned.Some? && if HasHostCleanup(x) then p.notes.hostJobs else !p.notes.cleaned.value
      ensures MayPatch(x, p, p.cr.status.(state := HostCleanup))
    {
      if p.cr.status.state.CleaningResources? {
        assert MayMove(x, p, p.cr.status.state, HostCleanup);
      }
    }

    method CleanupClusterRes() returns (out: Outcome)
      requires InPass() && P().phase.Checked? && ais.status.state.CleaningResources?
      modifies `log, `m, `trace, `left, `server, `ais
      ensures InPass() && !out.Go?
      ensures out.Done? && ais.finalizer ==> ais.status.state.HostCleanup?
      ensures Exactly(old(log), Passes.CleanupClusterRes(x, w, old(ais)), out)
    {
      if !ais.finalizer {
        return Done;
      }
      var existed, ok := DeleteAll();
      if !ok {
        return Fail;
      }
      out := CleanHosts(existed);
      Composed(old(log), Note(old(ais), CleanedUp(existed)), Passes.CleanHosts(x, old(ais), existed));
    }

    /** Creates a job per host if hosts have to be cleaned; then goes on, or waits for deleted objects to go. */
    method CleanHosts(existed: bool) returns (out: Outcome)
      requires InPass() && P().phase.Checked? && ais.status.state.CleaningResources?
      requires P().notes.cleaned == Some(existed)
      modifies `log, `m, `trace, `left, `server, `ais
      ensures InPass() && !out.Go?
      ensures out.Done? ==> ais.status.state.HostCleanup?
      ensures Exactly(old(log), Passes.CleanHosts(x, old(ais), existed), out)
    {
      if HasHostCleanup(x) {
        out := CleanupHostStateMounts();
        if !out.Go? {
          return;
        }
        ghost var mounts := CleanMounts(old(ais));
        Composed(old(log), mounts, Passes.AfterMounts(mounts.cr, existed));
      }
      out := AfterMounts(existed);
    }

    method AfterMounts(existed: bool) returns (out: Outcome)
      requires InPass() && P().phase.Checked? && ais.status.state in {CleaningResources, HostCleanup}
      requires P().notes.cleaned == Some(existed) && (HasHostCleanup(x) ==> P().notes.hostJobs)
      modifies `log, `m, `trace, `left, `server, `ais
      ensures InPass() && !out.Go?
      ensures out.Done? ==> ais.status.state.HostCleanup?
      ensures Exactly(old(log), Passes.AfterMounts(old(ais), existed), out)
    {
      if existed {
        return Requeue;
      }
      MayCleanHosts(P());
      out := MoveOn(HostCleanup);
    }

    method CreateCleanupJobs() returns (ok: bool)
      requires InPass() && P().phase.Checked? && ais.status.state.CleaningResources?
      requires HasHostCleanup(x) && P().notes.cleaned.Some?
      modifies `log, `m, `trace, `left, `server
      ensures InPass() && P().phase == old(P()).phase && P().cr == old(P()).cr
      ensures ok ==> P().notes.hostJobs && P().notes.cleaned == old(P()).notes.cleaned
      ensures calm ==> ok && log == old(log) + [HostJobsCreated]
    {
      ok := Write(HostJobsCreated);
    }

    method CleanupHostStateMounts() returns (out: Outcome)
      requires InPass() && P().phase.Checked? && ais.status.state.CleaningResources?
      requires HasHostCleanup(x) && P().notes.cleaned.Some?
      modifies `log, `m, `trace, `left, `server, `ais
      ensures InPass() && (out.Go? || out.Fail?)
      ensures out.Go? ==> P().phase.Checked? && P().notes.hostJobs && P().notes.cleaned == old(P()).notes.cleaned
      ensures out.Go? ==> ais.status.state.HostCleanup?
      ensures Exactly(old(log), CleanMounts(old(ais)), out)
    {
      var created := CreateCleanupJobs();
      if !created {
        return Fail;
      }
      MayCleanHosts(P());
      var moved := UpdateStatusWithState(HostCleanup);
      Composed(old(log), Note(old(ais), HostJobsCreated), Move(old(ais), HostCleanup));
      return if moved then Go else Fail;
    }

    /** Lists the cleanup jobs and asks the finished ones to go; how is the business of Cleanup. */
    method DeleteFinishedJobs() returns (remaining: bool, ok: bool)
      requires InPass() && P().phase.Checked? && ais.status.state.HostCleanup?
      modifies `log, `m, `trace, `left, `server
      ensures InPass() && P().phase == old(P()).phase
      ensures ok ==> P() == Stepped(old(P()), JobsRead(remaining))
      ensures calm ==> ok && remaining == w.left.jobs && log == old(log) + [JobsRead(remaining)]
    {
      ok := Call();
      remaining := left.jobs;
      if ok {
        Do(JobsRead(remaining));
      }
    }

    method CleanupHost() returns (out: Outcome)
      requires InPass() && P().phase.Checked? && ais.status.state.HostCleanup?
      modifies `log, `m, `trace, `left, `server, `ais
      ensures InPass() && !out.Go?
      ensures out.Done? ==> ais.status.state.Finalized?
      ensures Exactly(old(log), Passes.CleanupHost(w, old(ais)), out)
    {
      var remaining, ok := DeleteFinishedJobs();
      if !ok {
        return Fail;
      }
      if remaining {
        return Requeue;
      }
      MayMoveOn(P(), Finalized);
      out := MoveOn(Finalized);
      Composed(old(log), Note(old(ais), JobsRead(w.left.jobs)), Move(old(ais), Finalized).(outcome := Done));
    }

    method Finalize() returns (out: Outcome)
      requires InPass() && P().phase.Checked? && ais.status.state.Finalized?
      modifies `log, `m, `trace, `left, `server, `ais
      ensures InPass() && !out.Go?
      ensures out.Done? ==> !ais.finalizer
      ensures Exactly(old(log), Passes.Finalize(old(ais)), out)
    {
      if !ais.finalizer {
        return Done;
      }
      var ok := PatchCR(FinalizerRemoved);
      return if ok then Done else Fail;
    }

    method Switch() returns (out: Outcome)
      requires InPass() && P().phase.Checked? && !ais.status.state.New?
      requires NothingRead(P())
      modifies `log, `m, `trace, `left, `server, `ais
      ensures InPass()
      ensures out.Go? ==> NothingRead(P())
      ensures out.Go? ==> P().phase.Onward?
      ensures Exactly(old(log), SwitchStage(x, w, old(ais)), out)
    {
      var state := ais.status.state;
      if state.ShuttingDown? {
        if !ais.shutdown {
          MayMoveOn(P(), Upgrading);
          var ok := UpdateStatusWithState(Upgrading);
          return if ok then Done else Fail;
        }
        out := ShutdownCluster();
      } else if state.Shutdown? && ais.shutdown {
        out := Done;
      } else if state.Decommissioning? {
        out := DecommissionCluster();
      } else if state.CleaningResources? {
        out := CleanupClusterRes();
      } else if state.HostCleanup? {
        out := CleanupHost();
      } else if state.Finalized? {
        out := Finalize();
      } else {
        Do(PastSwitch);
        out := Go;
      }
    }

    // -------------------------------------------------- bringing it about

    lemma MayMoveLive(p: Pass, s: ClusterStatus)
      requires p.Running? && p.phase.Onward? && MayPatchLive(p, p.cr.status, s)
      ensures MayPatch(x, p, s)
    {
    }

    /** Validation, and then objects whose making is not modelled; last, external services have to get their
        addresses. */
    method EnsurePrereqs() returns (out: Outcome)
      requires InPass() && P().phase.Onward?
      modifies `log, `m, `trace, `left, `server, `ais
      ensures InPass() && P().phase.Onward? && !out.Done?
      ensures out.Go? ==> P() == old(P()) && SizesUsable(x)
      ensures Exactly(old(log), PrereqStage(x, w, old(ais)), out)
    {
      var warnings, valid := ValidateSpec(x.spec);
      if !valid {
        return Fail;
      }
      AcceptedSizes(x.spec, 0, 0);
      var ok := Call();
      if !ok {
        return Fail;
      }
      if !x.externalAccess {
        return Go;
      }
      out := AwaitExternalServices();
    }

    method AwaitExternalServices() returns (out: Outcome)
      requires InPass() && P().phase.Onward?
      modifies `log, `m, `trace, `left, `server, `ais
      ensures InPass() && P().phase.Onward? && !out.Done?
      ensures out.Go? ==> P() == old(P())
      ensures calm ==>
                if w.servicesReady then out.Go? && log == old(log) && ais == old(ais)
                else
                  var r := Move(old(ais), if old(ais).status.state.InitializingLB? || old(ais).status.state.PendingLB?
                                          then PendingLB else InitializingLB);
                  out.Requeue? && log == old(log) + r.events && ais == r.cr
    {
      var ready := w.servicesReady;
      if !calm {
        ready := *;
      }
      var ok := Call();
      if !ok {
        return Fail;
      }
      if ready {
        return Go;
      }
      var state := ais.status.state;
      if !state.InitializingLB? && !state.PendingLB? {
        MayMoveLive(P(), ais.status.(state := InitializingLB));
        ok := UpdateStatusWithState(InitializingLB);
      } else {
        MayMoveLive(P(), ais.status.(state := PendingLB));
        ok := UpdateStatusWithState(PendingLB);
      }
      return if ok then Requeue else Fail;
    }

    method UpdateIntraClusterURL() returns (out: Outcome)
      requires InPass() && P().phase.Onward?
      modifies `log, `m, `trace, `left, `server, `ais
      ensures InPass() && P().phase.Onward? && (out.Go? || out.Fail?)
      ensures out.Go? ==> Kept(old(P()), P())
      ensures Exactly(old(log), URLStage(old(ais)), out)
    {
      if ais.status.url {
        return Go;
      }
      var ok := PatchStatus(ais.status.(url := true));
      return if ok then Go else Fail;
    }

    /** Tries to create a StatefulSet; `existed` says that there is one of the name already. */
    method CreateIfNotExists(kind: Kind) returns (existed: bool, ok: bool)
      requires InPass() && P().phase.Onward?
      modifies `log, `m, `trace, `left, `server
      ensures InPass() && P().phase.Onward?
      ensures ok ==> P() == Stepped(old(P()), Ensured(kind, existed))
      ensures calm ==> ok && existed == ViewOf(w, kind).taken && log == old(log) + [Ensured(kind, existed)]
    {
      existed := ViewOf(w, kind).taken;
      if !calm {
        existed := *;
      }
      ok := Write(Ensured(kind, existed));
    }

    method InitProxies() returns (out: Outcome)
      requires InPass() && P().phase.Onward? && SizesUsable(x)
      requires !P().notes.proxiesSeen.Sized?
      modifies `log, `m, `trace, `left, `server
      ensures InPass() && P().phase.Onward? && !out.Done?
      ensures out.Go? ==> P().cr == old(P()).cr && (old(P()).notes.proxiesSeen.Missing? ==> P().notes.proxiesOk)
      ensures Exactly(old(log), Passes.InitProxies(x, w, ais), out)
    {
      var existed, ok := CreateIfNotExists(Proxies);
      if !ok {
        return Fail;
      }
      if !existed {
        return Requeue;
      }
      out := StartAllProxies();
    }

    /** Once the first proxy is up, the others are started. */
    method StartAllProxies() returns (out: Outcome)
      requires InPass() && P().phase.Onward? && SizesUsable(x) && !P().notes.proxiesSeen.Sized?
      modifies `log, `m, `trace, `left, `server
      ensures InPass() && P().phase.Onward? && !out.Done?
      ensures out.Go? ==> P().cr == old(P()).cr && P().notes.proxiesOk == old(P()).notes.proxiesOk
      ensures calm && !w.primaryRunning ==> out.Requeue? && log == old(log)
      ensures calm && w.primaryRunning && w.proxies.found.None? ==> out.Fail? && log == old(log)
      ensures calm && w.primaryRunning && w.proxies.found.Some? ==>
                && out == (if w.endpointsReady then Go else Requeue)
                && log == old(log) + (if w.proxies.found.value.ss.replicas == SizeOf(x, ais.status, Proxies) then []
                                      else [ReplicasSet(Proxies, SizeOf(x, ais.status, Proxies))])
    {
      var ok := Call();
      var running, endpoints := w.primaryRunning, w.endpointsReady;
      if !calm {
        running := *;
        endpoints := *;
      }
      if !ok || !running {
        return Requeue;
      }
      ok := UpdateStatefulSetReplicas(Proxies, SizeOf(x, ais.status, Proxies));
      if !ok {
        return Fail;
      }
      ok := Call();
      if !ok {
        return Fail;
      }
      return if endpoints then Go else Requeue;
    }

    method InitTargets() returns (out: Outcome)
      requires InPass() && P().phase.Onward?
      modifies `log, `m, `trace, `left, `server
      ensures InPass() && P().phase.Onward? && !out.Done?
      ensures out.Go? ==>
                && P().cr == old(P()).cr
                && P().notes == old(P()).notes.(targetsOk := old(P()).notes.targetsSeen.Missing?)
      ensures Exactly(old(log), Passes.InitTargets(w, ais), out)
    {
      var existed, ok := CreateIfNotExists(Targets);
      if !ok {
        return Fail;
      }
      return if existed then Go else Requeue;
    }

    method BootstrapNew() returns (out: Outcome)
      requires InPass() && P().phase.Onward? && SizesUsable(x)
      requires NothingRead(P())
      modifies `log, `m, `trace, `left, `server, `ais
      ensures InPass() && P().phase.Onward? && !out.Go?
      ensures Exactly(old(log), Passes.BootstrapNew(x, w, old(ais)), out)
      ensures out.Done? ==> ais.status == old(ais).status.(state := State.Created, created := true)
    {
      out := InitProxies();
      if !out.Go? {
        return;
      }
      out := InitTargets();
      if !out.Go? {
        return;
      }
      MayMoveLive(P(), ais.status.(state := State.Created, created := true));
      var ok := PatchStatus(ais.status.(state := State.Created, created := true));
      return if ok then Done else Fail;
    }

    // ---------------------------------------------------- the StatefulSets

    lemma DirectReadNoted(status: ClusterStatus, n: Notes, kind: Kind, direct: StatefulSet)
      requires SizesUsable(x)
      ensures var n' := Noted(x, status, n, DirectRead(kind, direct));
              && n'.proxiesSeen == n.proxiesSeen && n'.targetsSeen == n.targetsSeen
              && n'.targetsSettled == n.targetsSettled
              && (ScalingNeeded(x, status, kind, direct) ==>
                    (if kind.Proxies? then n'.proxiesDue else n'.targetsDue) == Some(SizeOf(x, status, kind)))
    {
    }

    /** Go: the set may be scaled; Requeue: not now. */
    method ConfirmScalingNeeded(kind: Kind, ss: StatefulSet) returns (out: Outcome)
      requires InPass() && P().phase.Onward? && SizesUsable(x) && SeenBy(P(), kind) == Sized(ss.replicas)
      modifies `log, `m, `trace, `left, `server
      ensures InPass() && P().phase.Onward? && !out.Done?
      ensures out.Go? ==> P().cr == old(P()).cr && P().pushed == old(P()).pushed
      ensures out.Go? ==>
                && P().notes.proxiesSeen == old(P()).notes.proxiesSeen
                && P().notes.targetsSeen == old(P()).notes.targetsSeen
                && P().notes.targetsSettled == old(P()).notes.targetsSettled
      ensures out.Go? ==> ShrinkConfirmed(x, P(), kind, SizeOf(x, ais.status, kind))
      ensures Exactly(old(log), ConfirmStage(x, ais, kind, ss, ViewOf(w, kind).direct), out)
    {
      if !AutoScales(x, kind) || SizeOf(x, ais.status, kind) >= ss.replicas {
        return Go;
      }
      var ok := Call();
      if !ok {
        return Fail;
      }
      var direct := ViewOf(w, kind).direct;
      if !calm {
        direct := *;
      }
      ghost var before := P();
      Do(DirectRead(kind, direct));
      DirectReadNoted(before.cr.status, before.notes, kind, direct);
      return if ScalingNeeded(x, ais.status, kind, direct) then Go else Requeue;
    }

    /** A single write, and then the world has to catch up. */
    method WriteAndWait(e: Event) returns (out: Outcome)
      requires InPass() && P().phase.Onward? && MayHappen(x, m, e)
      requires !WritesCR(e) && !IsOuter(e) && !ReadsRemains(e) && !e.PastDeletionCheck?
      modifies `log, `m, `trace, `left, `server
      ensures InPass() && P().phase.Onward? && (out.Requeue? || out.Fail?)
      ensures Exactly(old(log), Result(ais, [e], Requeue), out)
    {
      var ok := Write(e);
      out := if ok then Requeue else Fail;
    }

    lemma MayDrive(m: Machine)
      requires m.pass.Running? && m.pass.phase.Onward?
      ensures MayHappen(x, m, TemplatePatched(Proxies)) && MayHappen(x, m, PolicyPatched(Proxies))
      ensures MayHappen(x, m, RolloutDriven(Proxies))
    {
    }

    /** What ProxyStage concludes from a StatefulSet it has read. */
    method DriveProxies(found: Found) returns (out: Outcome)
      requires InPass() && P().phase.Onward? && SizesUsable(x)
      requires P().notes.proxiesOk == ReadsReady(x, ais.status, Proxies, found.ss)
      requires P().notes.proxiesSeen == Sized(found.ss.replicas)
      modifies `log, `m, `trace, `left, `server
      ensures InPass() && P().phase.Onward? && !out.Done?
      ensures out.Go? ==> P() == old(P()) && P().notes.proxiesOk
      ensures Exactly(old(log), Passes.DriveProxies(x, w, ais, found), out)
    {
      if StepFor(x, ais, Proxies, found).Rest? {
        RestMeans(x, ais, Proxies, found);
        return Go;
      }
      out := AdvanceProxies(found);
    }

    method AdvanceProxies(found: Found) returns (out: Outcome)
      requires InPass() && P().phase.Onward? && SizesUsable(x) && !StepFor(x, ais, Proxies, found).Rest?
      requires P().notes.proxiesSeen == Sized(found.ss.replicas)
      modifies `log, `m, `trace, `left, `server
      ensures InPass() && P().phase.Onward? && (out.Requeue? || out.Fail?)
      ensures Exactly(old(log), Passes.DriveProxies(x, w, ais, found), out)
    {
      var step := StepFor(x, ais, Proxies, found);
      if step.Wait? {
        return Requeue;
      }
      if step.Scale? {
        out := ScaleProxies(found.ss);
        return;
      }
      MayDrive(m);
      out := WriteAndWait(if step.WriteTemplate? then TemplatePatched(Proxies)
                          else if step.WritePolicy? then PolicyPatched(Proxies) else RolloutDriven(Proxies));
    }

    method ScaleProxies(ss: StatefulSet) returns (out: Outcome)
      requires InPass() && P().phase.Onward? && SizesUsable(x) && P().notes.proxiesSeen == Sized(ss.replicas)
      modifies `log, `m, `trace, `left, `server
      ensures InPass() && P().phase.Onward? && (out.Requeue? || out.Fail?)
      ensures Exactly(old(log), Passes.ScaleProxies(x, w, ais, ss), out)
    {
      out := ConfirmScalingNeeded(Proxies, ss);
      if !out.Go? {
        return;
      }
      ghost var confirmed := ConfirmStage(x, ais, Proxies, ss, w.proxies.direct);
      out := WriteAndWait(ReplicasSet(Proxies, SizeOf(x, ais.status, Proxies)));
      Composed(old(log), confirmed, Result(ais, [ReplicasSet(Proxies, SizeOf(x, ais.status, Proxies))], Requeue));
    }

    method HandleProxyState() returns (out: Outcome)
      requires InPass() && P().phase.Onward? && SizesUsable(x)
      modifies `log, `m, `trace, `left, `server
      ensures InPass() && P().phase.Onward? && !out.Done?
      ensures out.Go? ==> P().cr == old(P()).cr && P().notes.proxiesOk
      ensures Exactly(old(log), ProxyStage(x, w, ais), out)
    {
      var found, ok := ReadStatefulSet(Proxies);
      if !ok {
        return Fail;
      }
      if found.None? {
        out := InitProxies();
        Composed(old(log), Note(ais, StatefulSetRead(Proxies, None)), Passes.InitProxies(x, w, ais));
      } else {
        out := DriveProxies(found.value);
        Composed(old(log), Note(ais, StatefulSetRead(Proxies, Some(found.value.ss))),
                 Passes.DriveProxies(x, w, ais, found.value));
      }
    }

    method SyncTargetPodSpec() returns (out: Outcome)
      requires InPass() && P().phase.Onward?
      modifies `log, `m, `trace, `left, `server, `ais
      ensures InPass() && P().phase.Onward? && (out.Requeue? || out.Fail?)
      ensures Exactly(old(log), ReplaceTargetTemplate(x, old(ais)), out)
    {
      out := DisableRebalance();
      if !out.Go? {
        return;
      }
      var ok := Write(TemplatePatched(Targets));
      return if ok then Requeue else Fail;
    }

    method TellNodes() returns (out: Outcome)
      requires InPass() && MayHappen(x, m, NodesToldToLeave)
      modifies `log, `m, `trace, `left, `server
      ensures InPass() && P().phase.Onward? && (out.Go? || out.Fail?)
      ensures out.Go? ==> P().notes == old(P()).notes && P().cr == old(P()).cr
      ensures Exactly(old(log), Note(ais, NodesToldToLeave), out)
    {
      var ok := Write(NodesToldToLeave);
      out := if ok then Go else Fail;
    }

    /** Nodes that go are told to: to leave, once rebalance is as the spec says, or to stay in maintenance. */
    method StartTargetScaling(ss: StatefulSet) returns (out: Outcome)
      requires InPass() && P().phase.Onward? && P().notes.targetsSettled && SizesUsable(x)
      modifies `log, `m, `trace, `left, `server, `ais
      ensures InPass() && P().phase.Onward? && (out.Go? || out.Fail?)
      ensures out.Go? ==> P().notes == old(P()).notes && ais.status.nodes == old(ais).status.nodes
      ensures Exactly(old(log), Passes.StartTargetScaling(x, old(ais), ss), out)
    {
      if ss.replicas < SizeOf(x, ais.status, Targets) {
        var ok := Call();
        return if ok then Go else Fail;
      }
      if !x.retain {
        out := PrepareToDecommission();
      } else {
        out := TellNodes();
      }
    }

    method PrepareToDecommission() returns (out: Outcome)
      requires InPass() && P().phase.Onward? && P().notes.targetsSettled
      modifies `log, `m, `trace, `left, `server, `ais
      ensures InPass() && P().phase.Onward? && (out.Go? || out.Fail?)
      ensures out.Go? ==> P().notes == old(P()).notes && ais.status.nodes == old(ais).status.nodes
      ensures calm ==>
                var on := EnableRebalance(old(ais));
                var pushed := ConfigStage(x, on.cr, true);
                var all := Then(on, Then(pushed, Note(pushed.cr, NodesToldToLeave)));
                log == old(log) + all.events && ais == all.cr && out == all.outcome
    {
      out := EnableRebalanceCondition();
      if !out.Go? {
        return;
      }
      out := HandleConfigState(true);
      if !out.Go? {
        return;
      }
      ghost var on := EnableRebalance(old(ais));
      ghost var pushed := ConfigStage(x, on.cr, true);
      Composed(old(log), on, Then(pushed, Note(pushed.cr, NodesToldToLeave)));
      out := TellNodes();
    }

    method ResolveTargetScaling(ss: StatefulSet) returns (out: Outcome)
      requires InPass() && P().phase.Onward? && SizesUsable(x)
      requires P().notes.targetsSeen == Sized(ss.replicas)
      requires ShrinkConfirmed(x, P(), Targets, SizeOf(x, ais.status, Targets))
      modifies `log, `m, `trace, `left, `server, `ais
      ensures InPass() && P().phase.Onward? && (out.Requeue? || out.Fail?)
      ensures Exactly(old(log), Passes.ResolveTargetScaling(x, w, old(ais), ss), out)
    {
      var size := SizeOf(x, ais.status, Targets);
      var ok;
      if size > ss.replicas + 1 && ss.replicas > 0 {
        ok := Call();
        var healthy := w.healthy;
        if !calm {
          healthy := *;
        }
        if !ok || !healthy {
          return Fail;
        }
        out := GrowQuietly(size);
        return;
      }
      if size < ss.replicas {
        ok := Call();
        var ready := w.readyToScaleDown;
        if !calm {
          ready := *;
        }
        if !ok || !ready {
          return if ok then Requeue else Fail;
        }
      } else if size == ss.replicas {
        return Requeue;
      }
      MaySetSize(m, size);
      out := WriteAndWait(ReplicasSet(Targets, size));
    }

    lemma MaySetSize(m: Machine, size: int)
      requires m.pass.Running? && m.pass.phase.Onward?
      requires ShrinkConfirmed(x, m.pass, Targets, size) && GrowthPrepared(m.pass, size)
      ensures MayHappen(x, m, ReplicasSet(Targets, size))
    {
    }

    method GrowQuietly(size: int) returns (out: Outcome)
      requires InPass() && P().phase.Onward? && ShrinkConfirmed(x, P(), Targets, size)
      modifies `log, `m, `trace, `left, `server, `ais
      ensures InPass() && P().phase.Onward? && (out.Requeue? || out.Fail?)
      ensures Exactly(old(log), Passes.GrowQuietly(x, old(ais), size), out)
    {
      out := DisableRebalance();
      if out.Go? {
        ghost var off := Passes.DisableRebalance(x, old(ais));
        MaySetSize(m, size);
        out := WriteAndWait(ReplicasSet(Targets, size));
        Composed(old(log), off, Result(off.cr, [ReplicasSet(Targets, size)], Requeue));
      }
    }

    method HandleTargetScaling(ss: StatefulSet) returns (out: Outcome)
      requires InPass() && P().phase.Onward? && P().notes.targetsSettled && SizesUsable(x)
      requires P().notes.targetsSeen == Sized(ss.replicas)
      modifies `log, `m, `trace, `left, `server, `ais
      ensures InPass() && P().phase.Onward? && (out.Requeue? || out.Fail?)
      ensures Exactly(old(log), ScaleTargets(x, w, old(ais), ss), out)
    {
      ghost var confirmed := ConfirmStage(x, ais, Targets, ss, w.targets.direct);
      ghost var performed := Passes.PerformTargetScaling(x, w, ais, ss);
      out := ConfirmScalingNeeded(Targets, ss);
      if out.Go? {
        out := PerformTargetScaling(ss);
        Composed(old(log), confirmed, performed);
      }
    }

    method PerformTargetScaling(ss: StatefulSet) returns (out: Outcome)
      requires InPass() && P().phase.Onward? && P().notes.targetsSettled && SizesUsable(x)
      requires P().notes.targetsSeen == Sized(ss.replicas)
      requires ShrinkConfirmed(x, P(), Targets, SizeOf(x, ais.status, Targets))
      modifies `log, `m, `trace, `left, `server, `ais
      ensures InPass() && P().phase.Onward? && (out.Requeue? || out.Fail?)
      ensures Exactly(old(log), Passes.PerformTargetScaling(x, w, old(ais), ss), out)
    {
      out := StartTargetScaling(ss);
      if !out.Go? {
        return;
      }
      ghost var started := Passes.StartTargetScaling(x, old(ais), ss);
      Composed(old(log), started, Passes.ResolveTargetScaling(x, w, started.cr, ss));
      out := ResolveTargetScaling(ss);
    }

    method DriveTargets(found: Found) returns (out: Outcome)
      requires InPass() && P().phase.Onward? && SizesUsable(x)
      requires P().notes.targetsSettled == ShowsNoRollout(Some(found.ss))
      requires P().notes.targetsOk == ReadsReady(x, ais.status, Targets, found.ss)
      requires P().notes.targetsSeen == Sized(found.ss.replicas)
      modifies `log, `m, `trace, `left, `server, `ais
      ensures InPass() && P().phase.Onward? && !out.Done?
      ensures out.Go? ==> P() == old(P()) && P().notes.targetsOk && P().notes.targetsSettled
      ensures Exactly(old(log), Passes.DriveTargets(x, w, old(ais), found), out)
    {
      if StepFor(x, ais, Targets, found).Rest? {
        RestMeans(x, ais, Targets, found);
        return Go;
      }
      out := AdvanceTargets(found);
    }

    method AdvanceTargets(found: Found) returns (out: Outcome)
      requires InPass() && P().phase.Onward? && SizesUsable(x) && !StepFor(x, ais, Targets, found).Rest?
      requires P().notes.targetsSettled == ShowsNoRollout(Some(found.ss))
      requires P().notes.targetsSeen == Sized(found.ss.replicas)
      modifies `log, `m, `trace, `left, `server, `ais
      ensures InPass() && P().phase.Onward? && (out.Requeue? || out.Fail?)
      ensures Exactly(old(log), Passes.DriveTargets(x, w, old(ais), found), out)
    {
      match StepFor(x, ais, Targets, found) {
        case Wait => out := Requeue;
        case WriteTemplate => out := SyncTargetPodSpec();
        case WritePolicy => out := WriteAndWait(PolicyPatched(Targets));
        case Scale => out := HandleTargetScaling(found.ss);
        case DriveRollout => out := WriteAndWait(RolloutDriven(Targets));
      }
    }

    method HandleTargetState() returns (out: Outcome)
      requires InPass() && P().phase.Onward? && SizesUsable(x)
      modifies `log, `m, `trace, `left, `server, `ais
      ensures InPass() && P().phase.Onward? && !out.Done?
      ensures out.Go? ==> P().notes.targetsOk && P().notes.targetsSettled
      ensures out.Go? ==> P().notes.proxiesOk == old(P()).notes.proxiesOk && ais.status == old(ais).status
      ensures Exactly(old(log), TargetStage(x, w, old(ais)), out)
    {
      var found, ok := ReadStatefulSet(Targets);
      if !ok {
        return Fail;
      }
      ghost var read := log;
      if found.None? {
        out := InitTargets();
        Composed(old(log), Note(old(ais), StatefulSetRead(Targets, None)), Passes.InitTargets(w, old(ais)));
      } else {
        out := DriveTargets(found.value);
        Composed(old(log), Note(old(ais), StatefulSetRead(Targets, Some(found.value.ss))),
                 Passes.DriveTargets(x, w, old(ais), found.value));
      }
    }

    // ------------------------------------------------------------- the end

    /** A pass that has to wait takes back Ready, if it was there. */
    method UpdateStatusAndRequeue() returns (out: Outcome)
      requires InPass() && P().phase.Onward?
      modifies `log, `m, `trace, `left, `server, `ais
      ensures InPass() && P().phase.Onward? && (out.Requeue? || out.Fail?)
      ensures calm ==> out.Requeue? && ais == Waiting(Stop(old(ais), Requeue)).cr
                       && log == old(log) + Waiting(Stop(old(ais), Requeue)).events
    {
      if !ais.status.ready {
        return Requeue;
      }
      var s := ais.status.(state := Upgrading, ready := false);
      MayMoveLive(P(), s);
      var ok := PatchStatus(s);
      return if ok then Requeue else Fail;
    }

    /** Reads the map of a healthy cluster. */
    method GetClusterMap() returns (proxyCount: nat, targetCount: nat, uuid: string, ok: bool)
      requires InPass() && P().phase.Onward?
      modifies `log, `m, `trace, `left, `server
      ensures InPass() && P().phase.Onward?
      ensures ok ==> P() == Stepped(old(P()), MapRead(proxyCount, targetCount))
      ensures calm && !w.healthy ==> !ok && log == old(log)
      ensures calm && w.healthy ==>
                && ok && log == old(log) + [MapRead(proxyCount, targetCount)]
                && proxyCount == w.proxyCount && targetCount == w.targetCount && uuid == w.uuid
    {
      var healthy := w.healthy;
      proxyCount, targetCount, uuid := w.proxyCount, w.targetCount, w.uuid;
      if !calm {
        healthy := *;
        proxyCount := *;
        targetCount := *;
        uuid := *;
      }
      ok := Call();
      if !ok || !healthy {
        return proxyCount, targetCount, uuid, false;
      }
      ok := Call();
      if ok {
        Do(MapRead(proxyCount, targetCount));
      }
    }

    method CheckAISClusterReady() returns (out: Outcome)
      requires InPass() && P().phase.Onward? && SizesUsable(x)
      modifies `log, `m, `trace, `left, `server, `ais
      ensures InPass() && P().phase.Onward? && !out.Done?
      ensures out.Go? ==> P().notes == old(P()).notes.(mapOk := true)
      ensures Exactly(old(log), AISReadyStage(x, w, old(ais)), out)
    {
      var proxyCount, targetCount, uuid, ok := GetClusterMap();
      if !ok {
        return Fail;
      }
      if proxyCount < MinReady(x, ais.status, Proxies) || targetCount < MinReady(x, ais.status, Targets) {
        return Requeue;
      }
      out := UpdateClusterID(uuid);
      Composed(old(log), Note(old(ais), MapRead(w.proxyCount, w.targetCount)), ClusterIDStage(old(ais), w.uuid));
    }

    method UpdateClusterID(uuid: string) returns (out: Outcome)
      requires InPass() && P().phase.Onward?
      modifies `log, `m, `trace, `left, `server, `ais
      ensures InPass() && P().phase.Onward? && (out.Go? || out.Fail?)
      ensures out.Go? ==> P().notes == old(P()).notes
      ensures Exactly(old(log), ClusterIDStage(old(ais), uuid), out)
    {
      if ais.status.clusterId == uuid {
        return Go;
      }
      var ok := PatchStatus(ais.status.(clusterId := uuid));
      return if ok then Go else Fail;
    }

    method HandleSuccessfulReconcile() returns (out: Outcome)
      requires InPass() && P().phase.Onward? && P().notes.proxiesOk && P().notes.targetsOk && P().notes.mapOk
      modifies `log, `m, `trace, `left, `server, `ais
      ensures InPass() && P().phase.Onward? && (out.Done? || out.Fail?)
      ensures out.Done? ==> ais.status == old(ais).status.(state := State.Ready, ready := true)
      ensures Exactly(old(log), SuccessStage(old(ais)), out)
    {
      if ais.status.ready && ais.status.state.Ready? {
        return Done;
      }
      var s := ais.status.(state := State.Ready, ready := true);
      MayMoveLive(P(), s);
      var ok := PatchStatus(s);
      return if ok then Done else Fail;
    }

    method Finish() returns (out: Outcome)
      requires InPass() && P().phase.Onward? && P().notes.targetsSettled
      requires P().notes.proxiesOk && P().notes.targetsOk && P().notes.mapOk
      modifies `log, `m, `trace, `left, `server, `ais
      ensures InPass() && P().phase.Onward? && (out.Done? || out.Fail?)
      ensures out.Done? ==> ais.status == old(ais).status.(state := State.Ready, ready := true, rebalance := true)
      ensures Exactly(old(log), FinishStage(x, old(ais)), out)
    {
      out := EnableRebalanceCondition();
      if out.Go? {
        ghost var on := EnableRebalance(old(ais));
        out := LastSteps();
        Composed(old(log), on, Passes.LastSteps(x, on.cr));
      }
    }

    method LastSteps() returns (out: Outcome)
      requires InPass() && P().phase.Onward? && P().notes.targetsSettled
      requires P().notes.proxiesOk && P().notes.targetsOk && P().notes.mapOk
      modifies `log, `m, `trace, `left, `server, `ais
      ensures InPass() && P().phase.Onward? && (out.Done? || out.Fail?)
      ensures out.Done? ==> ais.status == old(ais).status.(state := State.Ready, ready := true)
      ensures Exactly(old(log), Passes.LastSteps(x, old(ais)), out)
    {
      out := HandleConfigState(false);
      if out.Go? {
        ghost var configured := ConfigStage(x, old(ais), false);
        out := HandleSuccessfulReconcile();
        Composed(old(log), configured, SuccessStage(configured.cr));
      }
    }

    // ------------------------------------------------------- the whole pass

    /** Waits if a stage says so, taking back Ready. */
    method WaitIfTold(told: Outcome) returns (out: Outcome)
      requires InPass() && P().phase.Onward?
      modifies `log, `m, `trace, `left, `server, `ais
      ensures InPass() && P().phase.Onward?
      ensures !told.Requeue? ==> out == told && P() == old(P()) && log == old(log) && ais == old(ais)
      ensures told.Requeue? ==> out.Requeue? || out.Fail?
      ensures calm && told.Requeue? ==>
                var waiting := Waiting(Stop(old(ais), Requeue));
                out.Requeue? && ais == waiting.cr && log == old(log) + waiting.events
    {
      out := told;
      if told.Requeue? {
        out := UpdateStatusAndRequeue();
      }
    }

    lemma WaitingComposed(was: seq<Event>, r: Result)
      ensures r.outcome.Requeue? ==>
                && was + Waiting(r).events == was + r.events + Waiting(Stop(r.cr, Requeue)).events
                && Waiting(r).cr == Waiting(Stop(r.cr, Requeue)).cr
    {
    }

    method ProxiesFirst() returns (out: Outcome)
      requires InPass() && P().phase.Onward? && SizesUsable(x)
      modifies `log, `m, `trace, `left, `server, `ais
      ensures InPass() && P().phase.Onward? && !out.Done?
      ensures out.Go? ==> P().notes.proxiesOk && ais == old(ais)
      ensures Exactly(old(log), Waiting(ProxyStage(x, w, old(ais))), out)
    {
      out := HandleProxyState();
      WaitingComposed(old(log), ProxyStage(x, w, old(ais)));
      out := WaitIfTold(out);
    }

    method TargetsNext() returns (out: Outcome)
      requires InPass() && P().phase.Onward? && P().notes.proxiesOk && SizesUsable(x)
      modifies `log, `m, `trace, `left, `server, `ais
      ensures InPass() && P().phase.Onward? && !out.Done?
      ensures out.Go? ==>
                && P().notes.proxiesOk && P().notes.targetsOk && P().notes.targetsSettled
                && ais.status == old(ais).status
      ensures Exactly(old(log), Waiting(TargetStage(x, w, old(ais))), out)
    {
      out := HandleTargetState();
      WaitingComposed(old(log), TargetStage(x, w, old(ais)));
      out := WaitIfTold(out);
    }

    method ClusterLast() returns (out: Outcome)
      requires InPass() && P().phase.Onward? && SizesUsable(x)
      requires P().notes.proxiesOk && P().notes.targetsOk && P().notes.targetsSettled
      modifies `log, `m, `trace, `left, `server, `ais
      ensures InPass() && P().phase.Onward? && !out.Done?
      ensures out.Go? ==>
                P().notes.proxiesOk && P().notes.targetsOk && P().notes.targetsSettled && P().notes.mapOk
      ensures Exactly(old(log), Waiting(AISReadyStage(x, w, old(ais))), out)
    {
      out := CheckAISClusterReady();
      WaitingComposed(old(log), AISReadyStage(x, w, old(ais)));
      out := WaitIfTold(out);
    }

    /** Proxies first, then targets, then the cluster as a whole; then rebalance may come back, the config is brought up
        to date, and the cluster is Ready. */
    method HandleCREvents() returns (out: Outcome)
      requires InPass() && P().phase.Onward? && SizesUsable(x)
      modifies `log, `m, `trace, `left, `server, `ais
      ensures InPass() && !out.Go?
      ensures out.Done? ==> ais.status.state.Ready? && ais.status.ready && ais.status.rebalance
      ensures Exactly(old(log), Passes.HandleCREvents(x, w, old(ais)), out)
    {
      out := ProxiesFirst();
      if !out.Go? {
        return;
      }
      ghost var proxies := Waiting(ProxyStage(x, w, old(ais)));
      out := GoOnFromTargets();
      Composed(old(log), proxies, FromTargets(x, w, proxies.cr));
    }

    method GoOnFromTargets() returns (out: Outcome)
      requires InPass() && P().phase.Onward? && P().notes.proxiesOk && SizesUsable(x)
      modifies `log, `m, `trace, `left, `server, `ais
      ensures InPass() && !out.Go?
      ensures out.Done? ==> ais.status.state.Ready? && ais.status.ready && ais.status.rebalance
      ensures Exactly(old(log), FromTargets(x, w, old(ais)), out)
    {
      out := TargetsNext();
      if !out.Go? {
        return;
      }
      ghost var targets := Waiting(TargetStage(x, w, old(ais)));
      out := GoOnFromCluster();
      Composed(old(log), targets, FromCluster(x, w, targets.cr));
    }

    method GoOnFromCluster() returns (out: Outcome)
      requires InPass() && P().phase.Onward? && SizesUsable(x)
      requires P().notes.proxiesOk && P().notes.targetsOk && P().notes.targetsSettled
      modifies `log, `m, `trace, `left, `server, `ais
      ensures InPass() && !out.Go?
      ensures out.Done? ==> ais.status.state.Ready? && ais.status.ready && ais.status.rebalance
      ensures Exactly(old(log), FromCluster(x, w, old(ais)), out)
    {
      out := ClusterLast();
      if !out.Go? {
        return;
      }
      ghost var ready := Waiting(AISReadyStage(x, w, old(ais)));
      out := Finish();
      Composed(old(log), ready, FinishStage(x, ready.cr));
    }

    method EarlyPart() returns (out: Outcome)
      requires InPass() && P().phase.Start?
      requires NothingRead(P())
      modifies `log, `m, `trace, `left, `server, `ais
      ensures InPass()
      ensures out.Go? ==> NothingRead(P())
      ensures out.Go? ==> P().phase.Onward?
      ensures Exactly(old(log), Early(x, w, old(ais)), out)
    {
      out := InitializeCR();
      if !out.Go? {
        return;
      }
      ghost var initialized := InitializeStage(old(ais));
      out := GoOnFromAutoScale();
      Composed(old(log), initialized, FromAutoScale(x, w, initialized.cr));
    }

    method GoOnFromAutoScale() returns (out: Outcome)
      requires InPass() && P().phase.Start? && !ais.status.state.New?
      requires NothingRead(P())
      modifies `log, `m, `trace, `left, `server, `ais
      ensures InPass()
      ensures out.Go? ==> NothingRead(P())
      ensures out.Go? ==> P().phase.Onward?
      ensures Exactly(old(log), FromAutoScale(x, w, old(ais)), out)
    {
      out := DetermineAutoScaleStatus();
      if !out.Go? {
        return;
      }
      ghost var scaled := AutoScaleStage(x, w, old(ais));
      out := GoOnFromDeletion();
      Composed(old(log), scaled, FromDeletion(x, w, scaled.cr));
    }

    method GoOnFromDeletion() returns (out: Outcome)
      requires InPass() && P().phase.Start? && !ais.status.state.New?
      requires NothingRead(P())
      modifies `log, `m, `trace, `left, `server, `ais
      ensures InPass()
      ensures out.Go? ==> NothingRead(P())
      ensures out.Go? ==> P().phase.Onward?
      ensures Exactly(old(log), FromDeletion(x, w, old(ais)), out)
    {
      out := CheckDeletion();
      if !out.Go? {
        return;
      }
      ghost var checked := DeletionStage(old(ais));
      out := GoOnFromShutdown();
      Composed(old(log), checked, FromShutdown(x, w, checked.cr));
    }

    method GoOnFromShutdown() returns (out: Outcome)
      requires InPass() && P().phase.Checked? && !ais.status.state.New?
      requires NothingRead(P())
      modifies `log, `m, `trace, `left, `server, `ais
      ensures InPass()
      ensures out.Go? ==> NothingRead(P())
      ensures out.Go? ==> P().phase.Onward?
      ensures Exactly(old(log), FromShutdown(x, w, old(ais)), out)
    {
      out := CheckShutdown();
      if !out.Go? {
        return;
      }
      ghost var begun := ShutdownStage(x, old(ais));
      out := Switch();
      Composed(old(log), begun, SwitchStage(x, w, begun.cr));
    }

    method LatePart() returns (out: Outcome)
      requires InPass() && P().phase.Onward?
      requires NothingRead(P())
      modifies `log, `m, `trace, `left, `server, `ais
      ensures InPass() && !out.Go?
      ensures Exactly(old(log), Late(x, w, old(ais)), out)
    {
      out := EnsurePrereqs();
      LateMeans(x, w, old(ais));
      if !out.Go? {
        return;
      }
      ghost var ready := PrereqStage(x, w, old(ais));
      out := GoOnFromURL();
      Composed(old(log), ready, FromURL(x, w, ready.cr));
    }

    method GoOnFromURL() returns (out: Outcome)
      requires InPass() && P().phase.Onward? && SizesUsable(x)
      requires NothingRead(P())
      modifies `log, `m, `trace, `left, `server, `ais
      ensures InPass() && !out.Go?
      ensures Exactly(old(log), FromURL(x, w, old(ais)), out)
    {
      out := UpdateIntraClusterURL();
      if !out.Go? {
        return;
      }
      ghost var named := URLStage(old(ais));
      if ais.status.created {
        out := HandleCREvents();
        Composed(old(log), named, Passes.HandleCREvents(x, w, named.cr));
      } else {
        out := BootstrapNew();
        Composed(old(log), named, Passes.BootstrapNew(x, w, named.cr));
      }
    }

    method RunPass() returns (out: Outcome)
      requires InPass() && P().phase.Start?
      requires NothingRead(P())
      modifies `log, `m, `trace, `left, `server, `ais
      ensures InPass() && !out.Go?
      ensures Exactly(old(log), ExistingPass(x, w, old(ais)), out)
    {
      out := EarlyPart();
      if !out.Go? {
        return;
      }
      ghost var early := Early(x, w, old(ais));
      out := LatePart();
      Composed(old(log), early, Late(x, w, early.cr));
    }

    /** One reconcile request: it continues the history, and in a calm world it is exactly the pass. */
    method Reconcile() returns (out: Outcome)
      requires Valid() && m.pass.Idle?
      modifies this
      ensures Valid() && m.pass.Idle? && !out.Go?
      ensures calm ==>
                var r := WholePass(x, w, old(server));
                server == r.cr && log == old(log) + r.events && out == r.outcome
    {
      OthersAct();
      var read: bool := *;
      if !read && !calm {
        return Fail;
      }
      if Gone(server) {
        return Done;
      }
      out := ReconcileExisting();
    }

    method ReconcileExisting() returns (out: Outcome)
      requires Valid() && m.pass.Idle? && !Gone(server)
      modifies this
      ensures Valid() && m.pass.Idle? && !out.Go?
      ensures calm ==>
                var r := WholePass(x, w, old(server));
                server == r.cr && log == old(log) + r.events && out == r.outcome
    {
      ais := server;
      Record(PassStarts);
      out := RunPass();
      Record(PassEnds);
      FrameAppends(old(log), ExistingPass(x, w, old(server)));
    }

    lemma FrameAppends(was: seq<Event>, r: Result)
      ensures was + Framed(r).events == was + [PassStarts] + r.events + [PassEnds]
    {
      var begun := [PassStarts] + r.events;
      assert was + begun == (was + [PassStarts]) + r.events;
      assert was + (begun + [PassEnds]) == (was + begun) + [PassEnds];
    }

    /** So whatever is proved of histories holds of what the reconciler has done. */
    lemma LogIsHistory()
      requires Valid()
      ensures IsHistory(x, log) && After(x, log) == m && m.cr == server
    {
      TracedIsHistory(x, trace, log, m);
    }
  }
}
