/** The part of the cluster configuration that decides whether AIS may rebalance (cmn/config.go, aisconfig.go). */
module RebalanceConfig {
  import opened Wrappers

  /** `http` stands for the Net.HTTP section, the only one whose change restarts the cluster. */
  datatype Config = Config(rebalance: Option<bool>, http: Option<string>, rest: string)

  const DEFAULT_REBALANCE_STATE := true

  predicate IsRebalanceEnabledSet(c: Config) {
    c.rebalance.Some?
  }

  /** The value a spec asks for; unset means the default. */
  function RebalanceEnabled(c: Option<Config>): bool {
    match c
    case Some(Config(Some(enabled), _, _)) => enabled
    case _ => DEFAULT_REBALANCE_STATE
  }

  /** Rebalance is on in the pushed config only if the cluster is ready for it and the spec does not object. */
  function EffectiveRebalance(ready: bool, spec: Option<Config>): bool {
    ready && RebalanceEnabled(spec)
  }

  /** The config that should reach the cluster: the spec's, with rebalance as above. */
  function ConfigFor(spec: Option<Config>, ready: bool): Config {
    match spec
    case Some(c) => c.(rebalance := Some(EffectiveRebalance(ready, spec)))
    case None => Config(Some(EffectiveRebalance(ready, spec)), None, "")
  }

  /** Derives the config to push from the spec, working on a copy. */
  method GenerateConfigToSet(spec: Option<Config>, readyRebalance: bool) returns (conf: Config)
    ensures conf.rebalance.Some?
    ensures conf.rebalance.value <==>
            readyRebalance && (spec.Some? && spec.value.rebalance.Some? ==> spec.value.rebalance.value)
    ensures spec.Some? ==> conf.http == spec.value.http && conf.rest == spec.value.rest
    ensures spec.None? ==> conf.http == None && conf.rest == ""
    ensures conf == ConfigFor(spec, readyRebalance)
  {
    conf := Config(None, None, "");
    if spec.Some? {
      conf := spec.value;
    }
    if readyRebalance {
      if !IsRebalanceEnabledSet(conf) {
        conf := conf.(rebalance := Some(DEFAULT_REBALANCE_STATE));
      }
    } else {
      conf := conf.(rebalance := Some(false));
    }
  }
}
