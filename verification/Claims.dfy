/**
 Node claims as the demand side sees them, and the counting the replica and node limits rest on.
 */
module Claims {
  import opened Lifecycle

  type Model = string

  datatype Needs = Needs(minVram: int, maxVram: int, gpuTypes: seq<string>, maxPrice: real, minDisk: int,
                         multiGpu: bool)

  /** `model` is Spec.ModelID, `models` Spec.ModelIDs, `runsAs` Status.NodeType. `consolidation` and `drain`
      are the two consolidation annotations. */
  datatype NodeClaim = NodeClaim(name: string, pool: string, nodeType: string, model: Model, models: seq<Model>,
                                 needs: Needs, phase: Phase, runsAs: string, consolidation: bool, drain: bool)

  /** The models of a claim, with the fallback to the single model of older claims. */
  function ModelsOf(c: NodeClaim): seq<Model> {
    if c.models != [] then c.models else if c.model != "" then [c.model] else []
  }

  predicate Serves(c: NodeClaim, m: Model) {
    c.model == m || m in c.models
  }

  /** Where a claim lists its primary model, or lists no models at all, its models are what it serves. */
  lemma ModelsServed(c: NodeClaim, m: Model)
    requires m != "" && (c.models == [] || c.model in c.models)
    ensures m in ModelsOf(c) <==> c.model == m || m in c.models
  {
  }

  predicate IsActivePhase(p: Phase) {
    p != Terminated && p != Draining && p != Hibernated
  }

  predicate Active(c: NodeClaim) {
    IsActivePhase(c.phase)
  }

  /** Neither Terminated nor Draining; unlike `Active` this includes Hibernated claims. */
  predicate Live(c: NodeClaim) {
    c.phase != Terminated && c.phase != Draining
  }

  predicate Replica(c: NodeClaim, m: Model) {
    Active(c) && Serves(c, m)
  }

  predicate Occupies(c: NodeClaim, pool: string) {
    c.pool == pool && c.phase != Terminated
  }

  function Count(claims: seq<NodeClaim>, p: NodeClaim -> bool): nat {
    if claims == [] then 0
    else Count(claims[..|claims| - 1], p) + (if p(claims[|claims| - 1]) then 1 else 0)
  }

  function ReplicaOf(m: Model): NodeClaim -> bool {
    c => Replica(c, m)
  }

  function NodeOf(pool: string): NodeClaim -> bool {
    c => Occupies(c, pool)
  }

  function Replicas(claims: seq<NodeClaim>, m: Model): nat {
    Count(claims, ReplicaOf(m))
  }

  function Nodes(claims: seq<NodeClaim>, pool: string): nat {
    Count(claims, NodeOf(pool))
  }

  /** The claims that are neither Terminated, Draining nor Hibernated and serve the model, as their primary model
      or beside it. */
  method CountActiveClaimsForModel(claims: seq<NodeClaim>, m: Model) returns (count: nat)
    ensures count == Replicas(claims, m)
    ensures count == |set i | && 0 <= i < |claims|
                              && claims[i].phase !in {Terminated, Draining, Hibernated}
                              && (claims[i].model == m || m in claims[i].models)|
  {
    count := 0;
    for i := 0 to |claims|
      invariant count == Replicas(claims[..i], m)
    {
      assert claims[..i + 1][..i] == claims[..i];
      if claims[i].phase == Terminated || claims[i].phase == Draining || claims[i].phase == Hibernated {
        continue;
      }
      if claims[i].model == m || m in claims[i].models {
        count := count + 1;
      }
    }
    assert claims[..|claims|] == claims;
    CountIsCardinality(claims, ReplicaOf(m));
    assert (set i | 0 <= i < |claims| && ReplicaOf(m)(claims[i])) ==
           set i | && 0 <= i < |claims|
                   && claims[i].phase !in {Terminated, Draining, Hibernated}
                   && (claims[i].model == m || m in claims[i].models);
  }

  /** The claims of the pool that are not Terminated. */
  method CountNodes(claims: seq<NodeClaim>, pool: string) returns (count: nat)
    ensures count == Nodes(claims, pool)
    ensures count == |set i | 0 <= i < |claims| && claims[i].pool == pool && claims[i].phase != Terminated|
  {
    count := 0;
    for i := 0 to |claims|
      invariant count == Nodes(claims[..i], pool)
    {
      assert claims[..i + 1][..i] == claims[..i];
      if claims[i].pool == pool && claims[i].phase != Terminated {
        count := count + 1;
      }
    }
    assert claims[..|claims|] == claims;
    CountIsCardinality(claims, NodeOf(pool));
    assert (set i | 0 <= i < |claims| && NodeOf(pool)(claims[i])) ==
           set i | 0 <= i < |claims| && claims[i].pool == pool && claims[i].phase != Terminated;
  }

  /** A count is the number of positions that meet the condition. */
  lemma {:induction false} CountIsCardinality(claims: seq<NodeClaim>, p: NodeClaim -> bool)
    ensures Count(claims, p) == |set i | 0 <= i < |claims| && p(claims[i])|
  {
    var here := set i | 0 <= i < |claims| && p(claims[i]);
    if claims == [] {
      assert here == {};
    } else {
      var n := |claims| - 1;
      CountIsCardinality(claims[..n], p);
      var before := set i | 0 <= i < n && p(claims[..n][i]);
      assert n !in before;
      if p(claims[n]) {
        assert here == before + {n};
      } else {
        assert here == before;
      }
    }
  }

  lemma CountAppend(claims: seq<NodeClaim>, c: NodeClaim, p: NodeClaim -> bool)
    ensures Count(claims + [c], p) == Count(claims, p) + (if p(c) then 1 else 0)
  {
  }

  /** Replacing one claim changes a count by the difference at that claim. */
  lemma {:induction false} CountUpdate(claims: seq<NodeClaim>, i: nat, c: NodeClaim, p: NodeClaim -> bool)
    requires i < |claims|
    ensures Count(claims[i := c], p) ==
            Count(claims, p) - (if p(claims[i]) then 1 else 0) + (if p(c) then 1 else 0)
  {
    var n := |claims| - 1;
    if i < n {
      CountUpdate(claims[..n], i, c, p);
      assert claims[i := c][..n] == claims[..n][i := c];
    } else {
      assert claims[i := c][..n] == claims[..n];
    }
  }

  lemma {:induction false} CountRemove(claims: seq<NodeClaim>, i: nat, p: NodeClaim -> bool)
    requires i < |claims|
    ensures Count(claims[..i] + claims[i + 1..], p) == Count(claims, p) - (if p(claims[i]) then 1 else 0)
  {
    var n := |claims| - 1;
    if i < n {
      CountRemove(claims[..n], i, p);
      assert (claims[..i] + claims[i + 1..])[..n - 1] == claims[..n][..i] + claims[..n][i + 1..];
    } else {
      assert claims[..i] + claims[i + 1..] == claims[..n];
    }
  }

  lemma {:induction false} CountZero(claims: seq<NodeClaim>, p: NodeClaim -> bool)
    ensures Count(claims, p) == 0 <==> forall c :: c in claims ==> !p(c)
  {
    if claims != [] {
      var n := |claims| - 1;
      CountZero(claims[..n], p);
      assert forall c :: c in claims <==> c in claims[..n] || c == claims[n];
    }
  }

  lemma {:induction false} CountAtMost(claims: seq<NodeClaim>, p: NodeClaim -> bool, q: NodeClaim -> bool)
    requires forall c :: p(c) ==> q(c)
    ensures Count(claims, p) <= Count(claims, q)
  {
    if claims != [] {
      CountAtMost(claims[..|claims| - 1], p, q);
    }
  }
}
