/**
 What bundling guarantees: soundness and maximality of the greedy choice, and the shape of every claim made.
 */
module Bundling {
  import opened Lifecycle
  import opened Options
  import opened Claims
  import opened Trigger
  import opened QueuePass
  import opened Consolidation

  ghost predicate NoDuplicates(models: seq<Model>) {
    forall i, j :: 0 <= i < j < |models| ==> models[i] != models[j]
  }

  /** Each model is demanded once, as when the demands come from the keys of the configuration. */
  ghost predicate OneEach(demands: seq<Demand>) {
    forall i, j :: 0 <= i < j < |demands| ==> demands[i].model != demands[j].model
  }

  ghost predicate NoNegativeVram(configs: map<Model, Config>) {
    forall m :: m in configs ==> configs[m].vram >= 0
  }

  /** The bundle starts with the primary model, and with more than one model it stays within the ceiling. */
  lemma {:induction false} BundleShape(configs: map<Model, Config>, claims: seq<NodeClaim>, primary: Model,
                                       demands: seq<Demand>)
    requires primary in configs
    ensures var b := Bundle(configs, claims, primary, demands);
            |b| > 0 && b[0] == primary && (|b| > 1 ==> Vram(configs, b) <= BUNDLE_CAP)
  {
    if demands != [] {
      var n := |demands| - 1;
      BundleShape(configs, claims, primary, demands[..n]);
      VramAppend(configs, Bundle(configs, claims, primary, demands[..n]), demands[n].model);
    }
  }

  lemma {:induction false} BundleDistinct(configs: map<Model, Config>, claims: seq<NodeClaim>, primary: Model,
                                          demands: seq<Demand>)
    requires primary in configs && OneEach(demands)
    ensures NoDuplicates(Bundle(configs, claims, primary, demands))
  {
    if demands != [] {
      var n := |demands| - 1;
      BundleDistinct(configs, claims, primary, demands[..n]);
      var b := Bundle(configs, claims, primary, demands[..n]);
      var m := demands[n].model;
      if m in b && m != primary {
        BundleMembers(configs, claims, primary, demands[..n], m);
        assert false;
      }
    }
  }

  /** A longer list of demands extends the bundle. */
  lemma {:induction false} BundleGrows(configs: map<Model, Config>, claims: seq<NodeClaim>, primary: Model,
                                       demands: seq<Demand>, k: nat)
    requires primary in configs && k <= |demands|
    ensures Bundle(configs, claims, primary, demands[..k]) <= Bundle(configs, claims, primary, demands)
    ensures NoNegativeVram(configs) ==>
              Vram(configs, Bundle(configs, claims, primary, demands[..k])) <=
              Vram(configs, Bundle(configs, claims, primary, demands))
  {
    if k < |demands| {
      var n := |demands| - 1;
      BundleGrows(configs, claims, primary, demands[..n], k);
      assert demands[..n][..k] == demands[..k];
      VramAppend(configs, Bundle(configs, claims, primary, demands[..n]), demands[n].model);
    } else {
      assert demands[..k] == demands;
    }
  }

  /** A demanded model is bundled exactly if it is the primary model, or it has demand, is configured for the
      same node type, is served by no claim that is neither Terminated, Draining nor Hibernated, and fits into
      96 GB beside those bundled before its turn. */
  lemma BundledExactlyWhen(configs: map<Model, Config>, claims: seq<NodeClaim>, primary: Model,
                           demands: seq<Demand>, k: nat)
    requires primary in configs && OneEach(demands) && k < |demands|
    ensures var d := demands[k];
            d.model in Bundle(configs, claims, primary, demands) <==>
            || d.model == primary
            || (&& (d.queue != 0 || d.active != 0) && d.model in configs
                && configs[d.model].nodeType == configs[primary].nodeType
                && (forall c :: c in claims && c.phase !in {Terminated, Draining, Hibernated} ==>
                      c.model != d.model && d.model !in c.models)
                && Vram(configs, Bundle(configs, claims, primary, demands[..k])) + configs[d.model].vram <= 96)
  {
    var d := demands[k];
    var before := Bundle(configs, claims, primary, demands[..k]);
    var here := Bundle(configs, claims, primary, demands[..k + 1]);
    assert demands[..k + 1][..k] == demands[..k];
    BundleShape(configs, claims, primary, demands);
    BundleGrows(configs, claims, primary, demands, k + 1);
    assert Covered(claims, d.model) <==>
           exists c :: c in claims && c.phase !in {Terminated, Draining, Hibernated}
                       && (c.model == d.model || d.model in c.models);
    if Eligible(configs, claims, primary, d) && Fits(configs, before, d.model) {
      assert here[|before|] == d.model;
    } else if d.model != primary && d.model in Bundle(configs, claims, primary, demands) {
      LaterMember(configs, claims, primary, demands, k + 1, d.model);
      BundleMembers(configs, claims, primary, demands[..k], d.model);
    }
  }

  /** A bundled model was in the bundle already or is demanded later. */
  lemma {:induction false} LaterMember(configs: map<Model, Config>, claims: seq<NodeClaim>, primary: Model,
                                       demands: seq<Demand>, k: nat, m: Model)
    requires primary in configs && k <= |demands|
    requires m in Bundle(configs, claims, primary, demands)
    ensures m in Bundle(configs, claims, primary, demands[..k]) ||
            exists l :: k <= l < |demands| && demands[l].model == m
  {
    if k < |demands| {
      var n := |demands| - 1;
      assert demands[..n][..k] == demands[..k];
      if m in Bundle(configs, claims, primary, demands[..n]) {
        LaterMember(configs, claims, primary, demands[..n], k, m);
        if m !in Bundle(configs, claims, primary, demands[..k]) {
          var l :| k <= l < n && demands[..n][l].model == m;
          assert demands[l].model == m;
        }
      } else {
        assert demands[n].model == m;
      }
    } else {
      assert demands[..k] == demands;
    }
  }

  /** No model that was left out could still be added to the finished bundle. */
  lemma BundleMaximal(configs: map<Model, Config>, claims: seq<NodeClaim>, primary: Model, demands: seq<Demand>,
                      d: Demand)
    requires primary in configs && NoNegativeVram(configs)
    requires d in demands && Eligible(configs, claims, primary, d)
    requires d.model !in Bundle(configs, claims, primary, demands)
    ensures !Fits(configs, Bundle(configs, claims, primary, demands), d.model)
  {
    var k :| 0 <= k < |demands| && demands[k] == d;
    var before := Bundle(configs, claims, primary, demands[..k]);
    assert demands[..k + 1][..k] == demands[..k];
    BundleGrows(configs, claims, primary, demands, k);
    BundleGrows(configs, claims, primary, demands, k + 1);
    assert Bundle(configs, claims, primary, demands[..k + 1]) ==
           if Fits(configs, before, d.model) then before + [d.model] else before;
  }

  function Sized(vram: int): Config {
    Config(vram, "", "", 1, 0.0, 0, [], false)
  }

  /** With a negative VRAM figure in the configuration maximality fails: of three models of 50, 50 and -10 GB
      the second is left out although it fits in the end. */
  lemma NegativeVramBreaksMaximality()
    ensures var configs := map["p" := Sized(50), "a" := Sized(50), "b" := Sized(-10)];
            var demands := [Demand("a", 1, 0), Demand("b", 1, 0)];
            && Bundle(configs, [], "p", demands) == ["p", "b"]
            && Eligible(configs, [], "p", demands[0])
            && Fits(configs, Bundle(configs, [], "p", demands), "a")
  {
    var configs := map["p" := Sized(50), "a" := Sized(50), "b" := Sized(-10)];
    var demands := [Demand("a", 1, 0), Demand("b", 1, 0)];
    VramAppend(configs, [], "p");
    VramAppend(configs, ["p"], "b");
    assert [] + ["p"] == ["p"] && ["p"] + ["b"] == ["p", "b"];
    assert demands[..0] == [] && demands[..1] == [demands[0]] && demands[..1][..0] == [];
    assert Bundle(configs, [], "p", []) == ["p"];
    assert Bundle(configs, [], "p", demands[..1]) == ["p"];
  }

  /** The claim of a successful trigger: what it serves, what it asks for, and the pool it goes to: the configured
      one if it exists, otherwise one that offers the node type, otherwise the first. */
  lemma CreatedClaim(env: Env, claims: seq<NodeClaim>, m: Model)
    requires Handle(env, claims, m).Created?
    ensures m in env.configs && env.pools.Some? && env.pools.value != []
    ensures var c := Handle(env, claims, m).claim;
            && c.name == env.name && c.phase == Unset && !c.consolidation && !c.drain
            && c.model == m && c.models != [] && c.models[0] == m
            && (env.demands.Some? && OneEach(env.demands.value) ==> NoDuplicates(c.models))
    ensures var c, cfg := Handle(env, claims, m).claim, env.configs[m];
            && c.needs.minVram == Vram(env.configs, c.models)
            && (if |c.models| == 1 then c.needs.maxVram == cfg.maxVramPerGpu && c.needs.gpuTypes == cfg.preferred
                else c.needs.minVram <= 96 && c.needs.maxVram == 0 && c.needs.gpuTypes == [])
            && c.needs.maxPrice == cfg.maxPrice && c.needs.multiGpu == cfg.multiGpu
            && (env.demands.None? ==> c.models == [m] && c.needs.minDisk == 0)
            && (env.demands.Some? ==> c.needs.minDisk == c.needs.minVram + 50)
    ensures var c, cfg, pools := Handle(env, claims, m).claim, env.configs[m], env.pools.value;
            var wanted := if cfg.nodeType == "" then "standalone" else cfg.nodeType;
            if cfg.pool != "" && (exists p :: p in pools && p.name == cfg.pool) then c.pool == cfg.pool
            else if exists p :: p in pools && wanted in p.types then
              exists p :: p in pools && p.name == c.pool && wanted in p.types
            else c.pool == pools[0].name
    ensures var c, cfg, pools := Handle(env, claims, m).claim, env.configs[m], env.pools.value;
            if cfg.nodeType != "" then c.nodeType == cfg.nodeType
            else exists p :: p in pools && p.name == c.pool
                             && c.nodeType == if p.types != [] && p.types[0] != "" then p.types[0] else "standalone"
  {
    hide Bundle, Vram, ChosenPool, Offering;
    var cfg := env.configs[m];
    PoolChosen(env.pools.value, cfg.pool, cfg.nodeType);
    if env.demands.Some? {
      BundleShape(env.configs, claims, m, env.demands.value);
      if OneEach(env.demands.value) { BundleDistinct(env.configs, claims, m, env.demands.value); }
    }
  }

  /** A trigger creates a claim exactly if the model is known, its replicas are below the limit, which is at
      least one, further replicas have requests waiting, the chosen pool has room, and no read or create
      fails. It ends without a claim and without an error exactly if the limit is reached or nothing waits. */
  lemma CreatesExactlyWhen(env: Env, claims: seq<NodeClaim>, m: Model)
    ensures Handle(env, claims, m).Created? <==>
            && m in env.configs && env.listOk
            && (Replicas(claims, m) == 0 || Replicas(claims, m) < env.configs[m].maxReplicas)
            && (Covered(claims, m) ==> env.depth.Some? && env.depth.value != 0)
            && env.pools.Some? && env.pools.value != []
            && (var p := env.pools.value[ChosenPool(env.pools.value, env.configs[m].pool, env.configs[m].nodeType)];
                Nodes(claims, p.name) < p.maxNodes)
            && env.createOk
    ensures !Handle(env, claims, m).Created? && !Handle(env, claims, m).Error? <==>
            && m in env.configs && env.listOk && Covered(claims, m)
            && (Replicas(claims, m) >= env.configs[m].maxReplicas || env.depth == Some(0))
  {
    CountZero(claims, ReplicaOf(m));
  }

  // ---------------------------------------------------------------- consolidation

  /** A claim packed from two single-model claims needs their VRAM together and lists each model once
      exactly if the two are different models. */
  lemma PackedClaimShape(configs: map<Model, Config>, claims: seq<NodeClaim>, i: nat, j: nat, pools: seq<Pool>,
                         name: string)
    requires Opportunity(configs, claims, i, j) && pools != []
    requires ModelsOf(claims[i]) == [claims[i].model] && ModelsOf(claims[j]) == [claims[j].model]
    ensures var c := PackedClaim(configs, claims[i], claims[j], pools, name);
            && c.name == name && c.phase == Unset && c.consolidation && !c.drain
            && c.model == claims[i].model && c.models == [claims[i].model, claims[j].model]
            && (NoDuplicates(c.models) <==> claims[i].model != claims[j].model)
            && c.needs.minVram == Vram(configs, c.models) <= 96
            && c.needs.minDisk == c.needs.minVram + 50
            && c.needs.maxVram == 0 && c.needs.gpuTypes == [] && c.needs.maxPrice == 0.0 && !c.needs.multiGpu
            && AlreadyPacked(claims + [c], claims[i].model, claims[j].model)
    ensures var c, cfg := PackedClaim(configs, claims[i], claims[j], pools, name), configs[claims[i].model];
            && c.nodeType == (if cfg.nodeType != "" then cfg.nodeType else claims[i].runsAs)
            && (cfg.pool != "" && (exists p :: p in pools && p.name == cfg.pool) ==> c.pool == cfg.pool)
  {
    var c := PackedClaim(configs, claims[i], claims[j], pools, name);
    PoolChosen(pools, configs[claims[i].model].pool, configs[claims[i].model].nodeType);
    VramAppend(configs, [], claims[i].model);
    VramAppend(configs, [claims[i].model], claims[j].model);
    assert [] + [claims[i].model] == [claims[i].model];
    assert c.models == [claims[i].model] + [claims[j].model];
    assert c.models[0] != c.models[1] ==> NoDuplicates(c.models);
    assert Packs(c, claims[i].model, claims[j].model);
    assert c in claims + [c];
  }

  /** Two Ready replicas of one model in one group are an opportunity as soon as the model fits twice and no
      bin-packed claim contains it: scaling up by replicas and consolidation work against each other. */
  lemma ReplicasArePacked(configs: map<Model, Config>, claims: seq<NodeClaim>, i: nat, j: nat)
    requires i < j < |claims| && GroupKey(claims[i]) == GroupKey(claims[j])
    requires Candidate(configs, claims[i]) && Candidate(configs, claims[j])
    requires ModelsOf(claims[i]) == ModelsOf(claims[j]) == [claims[i].model] && claims[j].model == claims[i].model
    ensures Opportunity(configs, claims, i, j) <==>
            && 2 * configs[claims[i].model].vram <= BUNDLE_CAP
            && !exists c :: c in claims && Live(c) && |c.models| >= 2 && claims[i].model in c.models
  {
    var m := claims[i].model;
    if AlreadyPacked(claims, m, m) {
      var c :| c in claims && Packs(c, m, m);
      assert c in claims && Live(c) && |c.models| >= 2 && m in c.models;
    } else {
      assert forall c :: c in claims ==> !Packs(c, m, m);
    }
  }
}
