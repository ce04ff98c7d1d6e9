/**
 The provision trigger: from the demand for a model to a node claim, alone or bundled with other models.
 */
module Trigger {
  import opened Lifecycle
  import opened Options
  import opened Claims

  datatype Config = Config(vram: int, nodeType: string, pool: string, maxReplicas: int, maxPrice: real,
                           maxVramPerGpu: int, preferred: seq<string>, multiGpu: bool)

  datatype Demand = Demand(model: Model, queue: int, active: int)

  /** `types` are the node types of the pool's providers, in order. */
  datatype Pool = Pool(name: string, types: seq<string>, maxNodes: int)

  /** What one call reads from outside. A model without an entry in `configs` is unknown or could not be
      read; None stands for a failed read. */
  datatype Env = Env(configs: map<Model, Config>, listOk: bool, depth: Option<int>, pools: Option<seq<Pool>>,
                         demands: Option<seq<Demand>>, name: string, createOk: bool)

  datatype Cause = NoConfig | ListFailed | DepthFailed | PoolsFailed | NoPools | PoolFull | CreateFailed

  datatype Outcome = Error(cause: Cause) | AtLimit | NoQueue | Created(claim: NodeClaim)

  const BUNDLE_CAP := 96
  const DISK_OVERHEAD := 50

  predicate Demanded(d: Demand) {
    d.queue != 0 || d.active != 0
  }

  function Limit(cfg: Config): int {
    if cfg.maxReplicas < 1 then 1 else cfg.maxReplicas
  }

  predicate Covered(claims: seq<NodeClaim>, m: Model) {
    exists c :: c in claims && Replica(c, m)
  }

  /** The first index at which `p` holds, or the length. */
  function First<T>(s: seq<T>, p: T -> bool): (r: nat)
    ensures r <= |s|
    ensures forall j :: 0 <= j < r ==> !p(s[j])
    ensures r < |s| ==> p(s[r])
  {
    if s == [] || p(s[0]) then 0 else 1 + First(s[1..], p)
  }

  lemma FirstIs<T>(s: seq<T>, p: T -> bool, i: nat)
    requires i <= |s|
    requires forall j :: 0 <= j < i ==> !p(s[j])
    requires i < |s| ==> p(s[i])
    ensures First(s, p) == i
  {
  }

  function Named(name: string): Pool -> bool {
    (p: Pool) => p.name == name
  }

  function Offering(nodeType: string): Pool -> bool {
    (p: Pool) => (if nodeType == "" then "standalone" else nodeType) in p.types
  }

  /** The pool named in the configuration, else the first pool with a provider of the node type, else the
      first pool. */
  function ChosenPool(pools: seq<Pool>, poolName: string, nodeType: string): (r: nat)
    requires pools != []
    ensures r < |pools|
  {
    var named := First(pools, Named(poolName));
    var typed := First(pools, Offering(nodeType));
    if poolName != "" && named < |pools| then named
    else if typed < |pools| then typed
    else 0
  }

  /** The choice in terms of the pools: the first of that name if one is named and there is one; otherwise the
      first that offers the node type, "standalone" if none is given; otherwise the first. */
  lemma PoolChosen(pools: seq<Pool>, poolName: string, nodeType: string)
    requires pools != []
    ensures var r, wanted := ChosenPool(pools, poolName, nodeType), if nodeType == "" then "standalone" else nodeType;
            if poolName != "" && (exists p :: p in pools && p.name == poolName) then
              pools[r].name == poolName && forall j :: 0 <= j < r ==> pools[j].name != poolName
            else if exists p :: p in pools && wanted in p.types then
              wanted in pools[r].types && forall j :: 0 <= j < r ==> wanted !in pools[j].types
            else r == 0
  {
    hide First;
    assert forall j :: 0 <= j < First(pools, Named(poolName)) ==> !Named(poolName)(pools[j]);
    assert forall j :: 0 <= j < First(pools, Offering(nodeType)) ==> !Offering(nodeType)(pools[j]);
  }

  method FindPool(pools: seq<Pool>, poolName: string, nodeType: string) returns (pool: Option<nat>)
    ensures pool == if pools == [] then None else Some(ChosenPool(pools, poolName, nodeType))
    ensures pool.Some? ==>
              var r, wanted := pool.value, if nodeType == "" then "standalone" else nodeType;
              && r < |pools|
              && if poolName != "" && (exists p :: p in pools && p.name == poolName) then
                   pools[r].name == poolName && forall j :: 0 <= j < r ==> pools[j].name != poolName
                 else if exists p :: p in pools && wanted in p.types then
                   wanted in pools[r].types && forall j :: 0 <= j < r ==> wanted !in pools[j].types
                 else r == 0
  {
    hide First;
    if pools != [] {
      PoolChosen(pools, poolName, nodeType);
    }
    if pools == [] {
      return None;
    }
    if poolName != "" {
      for i := 0 to |pools|
        invariant forall j :: 0 <= j < i ==> !Named(poolName)(pools[j])
      {
        if pools[i].name == poolName {
          FirstIs(pools, Named(poolName), i);
          return Some(i);
        }
      }
      FirstIs(pools, Named(poolName), |pools|);
    }
    var wanted := if nodeType == "" then "standalone" else nodeType;
    for i := 0 to |pools|
      invariant forall j :: 0 <= j < i ==> !Offering(nodeType)(pools[j])
    {
      for k := 0 to |pools[i].types|
        invariant wanted !in pools[i].types[..k]
      {
        if pools[i].types[k] == wanted {
          FirstIs(pools, Offering(nodeType), i);
          return Some(i);
        }
      }
      assert pools[i].types[..|pools[i].types|] == pools[i].types;
    }
    FirstIs(pools, Offering(nodeType), |pools|);
    return Some(0);
  }

  // ---------------------------------------------------------------- bundling

  /** The summed VRAM of a list of models. */
  function Vram(configs: map<Model, Config>, models: seq<Model>): int {
    if models == [] then 0
    else
      var m := models[|models| - 1];
      Vram(configs, models[..|models| - 1]) + (if m in configs then configs[m].vram else 0)
  }

  predicate Eligible(configs: map<Model, Config>, claims: seq<NodeClaim>, primary: Model, d: Demand)
    requires primary in configs
  {
    && d.model != primary
    && Demanded(d)
    && d.model in configs
    && configs[d.model].nodeType == configs[primary].nodeType
    && !Covered(claims, d.model)
  }

  predicate Fits(configs: map<Model, Config>, bundle: seq<Model>, m: Model)
    requires m in configs
  {
    Vram(configs, bundle) + configs[m].vram <= BUNDLE_CAP
  }

  /** The bundle after the demands seen so far: each eligible model joins if it fits at its turn. */
  function Bundle(configs: map<Model, Config>, claims: seq<NodeClaim>, primary: Model, demands: seq<Demand>)
    : seq<Model>
    requires primary in configs
  {
    if demands == [] then [primary]
    else
      var d := demands[|demands| - 1];
      var b := Bundle(configs, claims, primary, demands[..|demands| - 1]);
      if Eligible(configs, claims, primary, d) && Fits(configs, b, d.model) then b + [d.model] else b
  }

  lemma VramAppend(configs: map<Model, Config>, models: seq<Model>, m: Model)
    ensures Vram(configs, models + [m]) == Vram(configs, models) + (if m in configs then configs[m].vram else 0)
  {
  }

  /** Whether some claim that is neither Terminated, Draining nor Hibernated serves the model. */
  method AlreadyCovered(claims: seq<NodeClaim>, m: Model) returns (covered: bool)
    ensures covered == Covered(claims, m)
    ensures covered <==> exists c :: c in claims && c.phase !in {Terminated, Draining, Hibernated}
                                     && (c.model == m || m in c.models)
  {
    for i := 0 to |claims|
      invariant forall j :: 0 <= j < i ==> !Replica(claims[j], m)
    {
      var c := claims[i];
      if c.phase == Terminated || c.phase == Draining || c.phase == Hibernated {
        continue;
      }
      if c.model == m || m in c.models {
        assert Replica(c, m);
        return true;
      }
    }
    return false;
  }

  method AggregateModelsForClaim(env: Env, claims: seq<NodeClaim>, primary: Model)
    returns (models: seq<Model>, total: int, disk: int, gpuTypes: seq<string>)
    requires primary in env.configs
    ensures env.demands.None? ==> models == [primary] && disk == 0
    ensures env.demands.Some? ==>
              models == Bundle(env.configs, claims, primary, env.demands.value) && disk == total + DISK_OVERHEAD
    ensures total == Vram(env.configs, models)
    ensures gpuTypes == if |models| > 1 then [] else env.configs[primary].preferred
  {
    var configs := env.configs;
    models := [primary];
    total := configs[primary].vram;
    gpuTypes := configs[primary].preferred;
    assert total == Vram(configs, [primary]) by { VramAppend(configs, [], primary); }
    if env.demands.None? {
      return models, total, 0, gpuTypes;
    }
    var demands := env.demands.value;
    for i := 0 to |demands|
      invariant models == Bundle(configs, claims, primary, demands[..i])
      invariant total == Vram(configs, models)
    {
      var d := demands[i];
      assert demands[..i + 1][..i] == demands[..i];
      if d.model == primary || (d.queue == 0 && d.active == 0) || d.model !in configs {
        continue;
      }
      var other := configs[d.model];
      if other.nodeType != configs[primary].nodeType || total + other.vram > BUNDLE_CAP {
        continue;
      }
      var covered := AlreadyCovered(claims, d.model);
      if covered {
        continue;
      }
      VramAppend(configs, models, d.model);
      models := models + [d.model];
      total := total + other.vram;
    }
    assert demands[..|demands|] == demands;
    disk := total + DISK_OVERHEAD;
    if |models| > 1 {
      gpuTypes := [];
    }
  }

  // ---------------------------------------------------------------- one trigger

  function NodeTypeFor(cfg: Config, pool: Pool): string {
    if cfg.nodeType != "" then cfg.nodeType
    else if pool.types != [] && pool.types[0] != "" then pool.types[0]
    else "standalone"
  }

  /** The claim a trigger creates. */
  function NewClaim(env: Env, claims: seq<NodeClaim>, m: Model, pool: Pool): NodeClaim
    requires m in env.configs
  {
    var cfg := env.configs[m];
    var models := if env.demands.None? then [m] else Bundle(env.configs, claims, m, env.demands.value);
    var total := Vram(env.configs, models);
    var needs := Needs(total,
                       if |models| == 1 then cfg.maxVramPerGpu else 0,
                       if |models| > 1 then [] else cfg.preferred,
                       cfg.maxPrice,
                       if env.demands.None? then 0 else total + DISK_OVERHEAD,
                       cfg.multiGpu);
    NodeClaim(env.name, pool.name, NodeTypeFor(cfg, pool), m, models, needs, Unset, "", false, false)
  }

  /** May another replica of `m` be started, going by the limit and the queue? */
  function Gate(env: Env, claims: seq<NodeClaim>, m: Model): Option<Outcome>
    requires m in env.configs
  {
    var n := Replicas(claims, m);
    if n >= Limit(env.configs[m]) then Some(AtLimit)
    else if n > 0 && env.depth.None? then Some(Error(DepthFailed))
    else if n > 0 && env.depth.value == 0 then Some(NoQueue)
    else None
  }

  function Place(env: Env, claims: seq<NodeClaim>, m: Model): Outcome
    requires m in env.configs
  {
    if env.pools.None? then Error(PoolsFailed)
    else if env.pools.value == [] then Error(NoPools)
    else
      var cfg := env.configs[m];
      var pool := env.pools.value[ChosenPool(env.pools.value, cfg.pool, cfg.nodeType)];
      if Nodes(claims, pool.name) >= pool.maxNodes then Error(PoolFull)
      else if !env.createOk then Error(CreateFailed)
      else Outcome.Created(NewClaim(env, claims, m, pool))
  }

  function Handle(env: Env, claims: seq<NodeClaim>, m: Model): Outcome {
    if m !in env.configs then Error(NoConfig)
    else if !env.listOk then Error(ListFailed)
    else
      var gate := Gate(env, claims, m);
      if gate.Some? then gate.value else Place(env, claims, m)
  }

  function After(claims: seq<NodeClaim>, out: Outcome): seq<NodeClaim> {
    if out.Created? then claims + [out.claim] else claims
  }
}
