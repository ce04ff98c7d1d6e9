/**
 The provision trigger as it acts on the claims in the API server.
 */
module ProvisionTrigger {
  import opened Lifecycle
  import opened Options
  import opened Claims
  import opened Trigger
  import opened Consolidation
  import opened QueuePass

  /** What the consolidation check reads. */
  datatype PackEnv = PackEnv(configs: map<Model, Config>, pools: Option<seq<Pool>>, name: string, createOk: bool)

  class ProvisionTrigger {
    var claims: seq<NodeClaim>

    constructor (existing: seq<NodeClaim>)
      ensures claims == existing
    {
      claims := existing;
    }

    method HandleTrigger(env: Env, m: Model) returns (out: Outcome)
      modifies this
      ensures out == Handle(env, old(claims), m)
      ensures claims == After(old(claims), out)
    {
      if m !in env.configs {
        return Error(NoConfig);
      }
      var cfg := env.configs[m];
      var maxReplicas := cfg.maxReplicas;
      if maxReplicas < 1 {
        maxReplicas := 1;
      }
      if !env.listOk {
        return Error(ListFailed);
      }
      var activeReplicas := CountActiveClaimsForModel(claims, m);
      if activeReplicas >= maxReplicas {
        return AtLimit;
      }
      if activeReplicas > 0 {
        if env.depth.None? {
          return Error(DepthFailed);
        }
        if env.depth.value == 0 {
          return NoQueue;
        }
      }
      out := StartReplica(env, m);
    }

    method StartReplica(env: Env, m: Model) returns (out: Outcome)
      requires m in env.configs
      modifies this
      ensures out == Place(env, old(claims), m)
      ensures claims == After(old(claims), out)
    {
      var cfg := env.configs[m];
      if env.pools.None? {
        return Error(PoolsFailed);
      }
      var chosen := FindPool(env.pools.value, cfg.pool, cfg.nodeType);
      if chosen.None? {
        return Error(NoPools);
      }
      var pool := env.pools.value[chosen.value];
      var activeCount := CountNodes(claims, pool.name);
      if activeCount >= pool.maxNodes {
        return Error(PoolFull);
      }
      var nodeType := "standalone";
      if cfg.nodeType != "" {
        nodeType := cfg.nodeType;
      } else if |pool.types| > 0 && pool.types[0] != "" {
        nodeType := pool.types[0];
      }
      var models, total, disk, gpuTypes := AggregateModelsForClaim(env, claims, m);
      var maxVram := 0;
      if |models| == 1 {
        maxVram := cfg.maxVramPerGpu;
      }
      var needs := Needs(total, maxVram, gpuTypes, cfg.maxPrice, disk, cfg.multiGpu);
      var claim := NodeClaim(env.name, pool.name, nodeType, m, models, needs, Unset, "", false, false);
      if !env.createOk {
        return Error(CreateFailed);
      }
      claims := claims + [claim];
      out := Outcome.Created(claim);
    }

    /** One consolidation check: at most one claim is made, for the first pair of some group in the given
        snapshot; none is made only if there is no opportunity or the pools or the create call fail. */
    method CheckConsolidation(env: PackEnv, existing: seq<NodeClaim>) returns (out: PackOutcome)
      modifies this
      ensures claims == old(claims) + (if out.Packed? then [out.claim] else [])
      ensures out == NothingToPack <==> forall i, j :: !Opportunity(env.configs, existing, i, j)
      ensures out.Packed? ==> PackedFrom(env, existing, out.claim)
      ensures out == PoolListFailed ==> env.pools.None?
      ensures out == NilPool ==> env.pools == Some([])
      ensures out == Rejected ==> !env.createOk
    {
      var pair := FindPair(env.configs, existing);
      if pair.None? {
        return NothingToPack;
      }
      var i, j := pair.value.0, pair.value.1;
      assert Opportunity(env.configs, existing, i, j);
      assert FirstOfItsGroup(env.configs, existing, i, j);
      out := CreateBinPackedClaim(env, existing[i], existing[j]);
    }

    method CreateBinPackedClaim(env: PackEnv, a: NodeClaim, b: NodeClaim) returns (out: PackOutcome)
      requires Candidate(env.configs, a) && Candidate(env.configs, b)
      modifies this
      ensures claims == old(claims) + (if out.Packed? then [out.claim] else [])
      ensures out.Packed? <==> env.pools.Some? && env.pools.value != [] && env.createOk
      ensures out.Packed? ==> out.claim == PackedClaim(env.configs, a, b, env.pools.value, env.name)
      ensures out == PoolListFailed <==> env.pools.None?
      ensures out == NilPool <==> env.pools == Some([])
      ensures out != NothingToPack
    {
      var models: seq<Model> := [];
      var total := 0;
      var members := [a, b];
      assert members[0] == a && members[1] == b;
      for i := 0 to 2
        invariant models == [a.model, b.model][..i]
        invariant total == (if i > 0 then OneVram(env.configs, a) else 0)
                           + (if i > 1 then OneVram(env.configs, b) else 0)
      {
        models := models + [members[i].model];
        total := total + OneVram(env.configs, members[i]);
      }
      if env.pools.None? {
        return PoolListFailed;
      }
      var cfg := env.configs[ModelsOf(a)[0]];
      var chosen := FindPool(env.pools.value, cfg.pool, cfg.nodeType);
      if chosen.None? {
        return NilPool;
      }
      var nodeType := cfg.nodeType;
      if nodeType == "" {
        nodeType := a.runsAs;
      }
      var needs := Needs(total, 0, [], 0.0, total + DISK_OVERHEAD, false);
      var claim := NodeClaim(env.name, env.pools.value[chosen.value].name, nodeType, a.model, models, needs, Unset, "",
                             true, false);
      if !env.createOk {
        return Rejected;
      }
      claims := claims + [claim];
      out := Packed(claim);
    }

    /** One queue pass and the consolidation check after it, which looks at the claims as they were listed
        before the pass. */
    method ReconcileQueues(demands: Option<seq<Demand>>, listOk: bool, turns: seq<Turn>, packEnv: PackEnv)
      returns (verdicts: seq<Verdict>, packed: PackOutcome)
      requires demands.Some? ==> |turns| == |demands.value|
      modifies this
      ensures demands.None? || !listOk ==> claims == old(claims) && verdicts == []
      ensures demands.Some? && listOk ==>
                var p := Passed(old(claims), demands.value, turns);
                && verdicts == p.verdicts
                && claims == p.claims + (if packed.Packed? then [packed.claim] else [])
      ensures demands.Some? && listOk ==>
                (packed == NothingToPack <==> forall i, j :: !Opportunity(packEnv.configs, old(claims), i, j))
      ensures packed.Packed? ==> PackedFrom(packEnv, old(claims), packed.claim)
    {
      if demands.None? {
        return [], NothingToPack;
      }
      if !listOk {
        return [], NothingToPack;
      }
      var listed := claims;
      var handled: set<Model> := {};
      verdicts := [];
      for k := 0 to |demands.value|
        invariant At(old(claims), demands.value, turns, k) == Pass(claims, handled, verdicts)
      {
        var d := demands.value[k];
        AtStep(old(claims), demands.value, turns, k);
        if d.queue == 0 && d.active == 0 {
          verdicts := verdicts + [NoDemand];
          continue;
        }
        if d.model in handled {
          verdicts := verdicts + [Handled];
          continue;
        }
        var out := HandleTrigger(turns[k].env, d.model);
        verdicts := verdicts + [Tried(out)];
        if out.Error? {
          continue;
        }
        if turns[k].relistOk {
          handled := MarkHandled(claims, handled);
        }
      }
      AtWhole(old(claims), demands.value, turns);
      packed := CheckConsolidation(packEnv, listed);
    }
  }

  ghost predicate FirstOfItsGroup(configs: map<Model, Config>, claims: seq<NodeClaim>, i: int, j: int)
    requires Opportunity(configs, claims, i, j)
  {
    forall k, l :: Opportunity(configs, claims, k, l) ==>
      GroupKey(claims[k]) == GroupKey(claims[i]) ==> !Before(k, l, i, j)
  }

  /** The claim replaces the first pair of some group. */
  ghost predicate PackedFrom(env: PackEnv, existing: seq<NodeClaim>, c: NodeClaim) {
    && env.pools.Some? && env.pools.value != []
    && exists i, j ::
         && Opportunity(env.configs, existing, i, j)
         && c == PackedClaim(env.configs, existing[i], existing[j], env.pools.value, env.name)
         && FirstOfItsGroup(env.configs, existing, i, j)
  }

  function ModelSet(c: NodeClaim): set<Model> {
    {c.model} + (set x | x in c.models)
  }

  method MarkModels(c: NodeClaim, before: set<Model>) returns (handled: set<Model>)
    ensures handled == before + ModelSet(c)
  {
    handled := before + {c.model};
    for j := 0 to |c.models|
      invariant handled == before + {c.model} + (set x | x in c.models[..j])
    {
      handled := handled + {c.models[j]};
    }
    assert c.models[..|c.models|] == c.models;
  }

  method MarkHandled(claims: seq<NodeClaim>, before: set<Model>) returns (handled: set<Model>)
    ensures handled == before + Marked(claims)
    ensures forall m :: m in handled <==>
              m in before || exists c :: c in claims && c.phase != Terminated && c.phase != Draining
                                         && (c.model == m || m in c.models)
  {
    handled := before;
    for i := 0 to |claims|
      invariant handled == before + Marked(claims[..i])
    {
      hide Marked, ModelSet;
      MarkedStep(claims, i);
      if claims[i].phase == Terminated || claims[i].phase == Draining {
        continue;
      }
      handled := MarkModels(claims[i], handled);
    }
    assert claims[..|claims|] == claims;
  }

  lemma MarkedStep(claims: seq<NodeClaim>, i: nat)
    requires i < |claims|
    ensures Marked(claims[..i + 1]) ==
            Marked(claims[..i]) + (if Live(claims[i]) then ModelSet(claims[i]) else {})
  {
  }
}
