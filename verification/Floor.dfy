/**
 The replica and node minimums over whole runs: idle destroys, other claims stuck in Draining, claims coming and
 going up.
 */
module Floor {
  import opened Lifecycle
  import opened Options
  import opened Claims

  /** One event: an idle destroy whose guard read `minReplicas` for the primary model of the claim and `minNodes`
      for its pool, None if there is no such pool; a claim that
      is not active moves on without becoming active, as one stuck in Draining does; an active claim moves to
      another active phase; a claim is added; an inactive object is removed. */
  datatype Event =
    | IdleDestroy(i: nat, minReplicas: int, minNodes: Option<int>)
    | Settles(i: nat, phase: Phase)
    | Boots(i: nat, phase: Phase)
    | Added(claim: NodeClaim)
    | Deleted(i: nat)

  predicate Possible(claims: seq<NodeClaim>, e: Event) {
    match e
    case IdleDestroy(i, minReplicas, minNodes) =>
      && i < |claims| && claims[i].phase == Ready
      && (claims[i].model != "" && minReplicas > 1 ==> Replicas(claims, claims[i].model) > minReplicas)
      && (minNodes.Some? ==> Nodes(claims, claims[i].pool) > minNodes.value)
    case Settles(i, phase) => i < |claims| && !Active(claims[i]) && !IsActivePhase(phase)
    case Boots(i, phase) => i < |claims| && Active(claims[i]) && IsActivePhase(phase)
    case Added(_) => true
    case Deleted(i) => i < |claims| && !Active(claims[i])
  }

  function Applied(claims: seq<NodeClaim>, e: Event): seq<NodeClaim>
    requires Possible(claims, e)
  {
    match e
    case IdleDestroy(i, _, _) => claims[i := claims[i].(phase := Draining)]
    case Settles(i, phase) => claims[i := claims[i].(phase := phase)]
    case Boots(i, phase) => claims[i := claims[i].(phase := phase)]
    case Added(c) => claims + [c]
    case Deleted(i) => claims[..i] + claims[i + 1..]
  }

  ghost predicate IsHistory(stores: seq<seq<NodeClaim>>, events: seq<Event>) {
    && |stores| == |events| + 1
    && forall k :: 0 <= k < |events| ==>
         Possible(stores[k], events[k]) && stores[k + 1] == Applied(stores[k], events[k])
  }

  /** A condition that only active claims meet, whatever their active phase. */
  ghost predicate OfActive(p: NodeClaim -> bool) {
    && (forall c :: p(c) ==> Active(c))
    && (forall c: NodeClaim, phase :: Active(c) && IsActivePhase(phase) ==> (p(c.(phase := phase)) <==> p(c)))
  }

  /** Only an idle destroy of a claim that meets the condition lowers its count, and by one. */
  lemma CountAfter(claims: seq<NodeClaim>, e: Event, p: NodeClaim -> bool)
    requires Possible(claims, e) && OfActive(p)
    ensures Count(Applied(claims, e), p) >=
            Count(claims, p) - (if e.IdleDestroy? && p(claims[e.i]) then 1 else 0)
    ensures e.IdleDestroy? && p(claims[e.i]) ==> Count(Applied(claims, e), p) == Count(claims, p) - 1
  {
    match e
    case IdleDestroy(i, _, _) => CountUpdate(claims, i, claims[i].(phase := Draining), p);
    case Settles(i, phase) => CountUpdate(claims, i, claims[i].(phase := phase), p);
    case Boots(i, phase) => CountUpdate(claims, i, claims[i].(phase := phase), p);
    case Added(c) => CountAppend(claims, c, p);
    case Deleted(i) => CountRemove(claims, i, p);
  }

  // ---------------------------------------------------------------- replicas

  /** The event destroys a node that serves `m`, and the replica minimum of `m` does not guard it: `m` is not its
      primary model, or the minimum is one. */
  predicate Unguarded(claims: seq<NodeClaim>, e: Event, m: Model, min: nat)
    requires Possible(claims, e)
  {
    e.IdleDestroy? && Serves(claims[e.i], m) && (claims[e.i].model != m || min <= 1)
  }

  /** The idle destroys of claims with primary model `m` read its minimum. */
  predicate ReadsMinimum(claims: seq<NodeClaim>, e: Event, m: Model, min: nat)
    requires Possible(claims, e)
  {
    e.IdleDestroy? && claims[e.i].model == m ==> e.minReplicas == min
  }

  /** One event takes a model below its minimum exactly if the model is at the minimum and the event is an idle
      destroy of one of its nodes that the minimum does not guard. */
  lemma FallsBelowExactlyWhen(claims: seq<NodeClaim>, e: Event, m: Model, min: nat)
    requires Possible(claims, e) && m != "" && min >= 1 && Replicas(claims, m) >= min
    requires ReadsMinimum(claims, e, m, min)
    ensures Replicas(Applied(claims, e), m) < min <==> Replicas(claims, m) == min && Unguarded(claims, e, m, min)
  {
    CountAfter(claims, e, ReplicaOf(m));
  }

  /** Throughout events `k` to `l` the idle destroys of claims with primary model `m` read its minimum. */
  ghost predicate MinimumRead(stores: seq<seq<NodeClaim>>, events: seq<Event>, k: nat, l: nat, m: Model, min: nat)
    requires IsHistory(stores, events) && k <= l <= |events|
  {
    forall j :: k <= j < l ==> ReadsMinimum(stores[j], events[j], m, min)
  }

  ghost predicate ReplicasStay(stores: seq<seq<NodeClaim>>, events: seq<Event>, k: nat, l: nat, m: Model, min: nat)
    requires IsHistory(stores, events) && k <= l <= |events|
  {
    forall j :: k <= j <= l ==> Replicas(stores[j], m) >= min
  }

  /** Some event hits a model that is just at its minimum with a destroy that the minimum does not guard. */
  ghost predicate EverUnguarded(stores: seq<seq<NodeClaim>>, events: seq<Event>, k: nat, l: nat, m: Model, min: nat)
    requires IsHistory(stores, events) && k <= l <= |events|
  {
    exists j :: k <= j < l && Replicas(stores[j], m) == min && Unguarded(stores[j], events[j], m, min)
  }

  /** In every run a model that has reached its minimum stays at or above it if and only if no such event happens. */
  lemma {:induction false} FloorHoldsExactlyWhen(stores: seq<seq<NodeClaim>>, events: seq<Event>, k: nat, l: nat,
                                                 m: Model, min: nat)
    requires IsHistory(stores, events) && k <= l <= |events|
    requires m != "" && min >= 1 && Replicas(stores[k], m) >= min && MinimumRead(stores, events, k, l, m, min)
    ensures ReplicasStay(stores, events, k, l, m, min) <==> !EverUnguarded(stores, events, k, l, m, min)
    decreases l
  {
    if k < l {
      FloorHoldsExactlyWhen(stores, events, k, l - 1, m, min);
      var s, e := stores[l - 1], events[l - 1];
      assert Possible(s, e) && stores[l - 1 + 1] == Applied(s, e);
      if ReplicasStay(stores, events, k, l - 1, m, min) {
        FallsBelowExactlyWhen(s, e, m, min);
      }
    }
  }

  /** In every run without an unguarded destroy a model that has reached its minimum never falls below it again. */
  lemma FloorHolds(stores: seq<seq<NodeClaim>>, events: seq<Event>, k: nat, l: nat, m: Model, min: nat)
    requires IsHistory(stores, events) && k <= l <= |events|
    requires m != "" && min >= 1 && Replicas(stores[k], m) >= min && MinimumRead(stores, events, k, l, m, min)
    requires forall j :: k <= j < l && Possible(stores[j], events[j]) ==> !Unguarded(stores[j], events[j], m, min)
    ensures ReplicasStay(stores, events, k, l, m, min)
  {
    FloorHoldsExactlyWhen(stores, events, k, l, m, min);
    assert forall j :: k <= j < l ==> Possible(stores[j], events[j]);
  }

  /** A minimum of one is not enforced: the only node of a model can be destroyed. */
  lemma MinimumOfOneIsNotAFloor(c: NodeClaim)
    requires c.phase == Ready && c.model != ""
    ensures Possible([c], IdleDestroy(0, 1, None))
    ensures Replicas([c], c.model) == 1 && Replicas(Applied([c], IdleDestroy(0, 1, None)), c.model) == 0
  {
    CountAppend([], c, ReplicaOf(c.model));
    assert [] + [c] == [c];
    assert Replicas([c], c.model) == 1;
    FallsBelowExactlyWhen([c], IdleDestroy(0, 1, None), c.model, 1);
  }

  // ---------------------------------------------------------------- nodes

  function WorkingOf(pool: string): NodeClaim -> bool {
    c => Active(c) && c.pool == pool
  }

  /** The nodes of a pool that do their work or are on the way to it. The node minimum counts more: every claim
      that is not Terminated. */
  function Working(claims: seq<NodeClaim>, pool: string): nat {
    Count(claims, WorkingOf(pool))
  }

  /** A claim of the pool that is counted as a node but is not active. */
  predicate Stuck(claims: seq<NodeClaim>, pool: string) {
    exists c :: c in claims && c.pool == pool && (c.phase == Draining || c.phase == Hibernated)
  }

  lemma {:induction false} StuckIsTheDifference(claims: seq<NodeClaim>, pool: string)
    ensures Working(claims, pool) <= Nodes(claims, pool)
    ensures Working(claims, pool) < Nodes(claims, pool) <==> Stuck(claims, pool)
  {
    if claims != [] {
      var n := |claims| - 1;
      StuckIsTheDifference(claims[..n], pool);
      assert forall c :: c in claims <==> c in claims[..n] || c == claims[n];
    }
  }

  /** With as many working nodes as the minimum asks for, the minimum lets one of them go exactly if some claim of
      the pool is stuck in Draining or Hibernated. */
  lemma NodeGuardPassesExactlyWhen(claims: seq<NodeClaim>, i: nat, min: nat)
    requires i < |claims| && claims[i].phase == Ready && Working(claims, claims[i].pool) == min
    ensures Possible(claims, IdleDestroy(i, 0, Some(min))) <==> Stuck(claims, claims[i].pool)
  {
    StuckIsTheDifference(claims, claims[i].pool);
  }

  predicate ReadsNodes(claims: seq<NodeClaim>, e: Event, pool: string, min: nat)
    requires Possible(claims, e)
  {
    e.IdleDestroy? && claims[e.i].pool == pool ==> e.minNodes == Some(min)
  }

  /** The event destroys a node of the pool while a stuck claim keeps the count up. */
  predicate Misled(claims: seq<NodeClaim>, e: Event, pool: string)
    requires Possible(claims, e)
  {
    e.IdleDestroy? && claims[e.i].pool == pool && Stuck(claims, pool)
  }

  /** One event takes the working nodes of a pool below the minimum exactly if it destroys one of the last ones
      while a stuck claim keeps the count up. */
  lemma NodesFallBelowExactlyWhen(claims: seq<NodeClaim>, e: Event, pool: string, min: nat)
    requires Possible(claims, e) && Working(claims, pool) >= min && ReadsNodes(claims, e, pool, min)
    ensures Working(Applied(claims, e), pool) < min <==> Working(claims, pool) == min && Misled(claims, e, pool)
  {
    CountAfter(claims, e, WorkingOf(pool));
    StuckIsTheDifference(claims, pool);
  }

  ghost predicate NodesRead(stores: seq<seq<NodeClaim>>, events: seq<Event>, k: nat, l: nat, pool: string, min: nat)
    requires IsHistory(stores, events) && k <= l <= |events|
  {
    forall j :: k <= j < l ==> ReadsNodes(stores[j], events[j], pool, min)
  }

  ghost predicate NodesStay(stores: seq<seq<NodeClaim>>, events: seq<Event>, k: nat, l: nat, pool: string, min: nat)
    requires IsHistory(stores, events) && k <= l <= |events|
  {
    forall j :: k <= j <= l ==> Working(stores[j], pool) >= min
  }

  ghost predicate EverMisled(stores: seq<seq<NodeClaim>>, events: seq<Event>, k: nat, l: nat, pool: string, min: nat)
    requires IsHistory(stores, events) && k <= l <= |events|
  {
    exists j :: k <= j < l && Working(stores[j], pool) == min && Misled(stores[j], events[j], pool)
  }

  /** In every run the working nodes of a pool that has reached its minimum stay at or above it if and only if none of
      the last ones is destroyed while a claim of the pool is stuck. */
  lemma {:induction false} NodeFloorHoldsExactlyWhen(stores: seq<seq<NodeClaim>>, events: seq<Event>, k: nat, l: nat,
                                                     pool: string, min: nat)
    requires IsHistory(stores, events) && k <= l <= |events|
    requires Working(stores[k], pool) >= min && NodesRead(stores, events, k, l, pool, min)
    ensures NodesStay(stores, events, k, l, pool, min) <==> !EverMisled(stores, events, k, l, pool, min)
    decreases l
  {
    if k < l {
      NodeFloorHoldsExactlyWhen(stores, events, k, l - 1, pool, min);
      var s, e := stores[l - 1], events[l - 1];
      assert Possible(s, e) && stores[l - 1 + 1] == Applied(s, e);
      if NodesStay(stores, events, k, l - 1, pool, min) {
        NodesFallBelowExactlyWhen(s, e, pool, min);
      }
    }
  }

  /** In every run in which no claim of the pool is stuck when one of its nodes is destroyed for being idle, the
      working nodes of a pool that has reached its minimum never fall below it again. */
  lemma NodeFloorHolds(stores: seq<seq<NodeClaim>>, events: seq<Event>, k: nat, l: nat, pool: string, min: nat)
    requires IsHistory(stores, events) && k <= l <= |events|
    requires Working(stores[k], pool) >= min && NodesRead(stores, events, k, l, pool, min)
    requires forall j :: k <= j < l && Possible(stores[j], events[j]) ==> !Misled(stores[j], events[j], pool)
    ensures NodesStay(stores, events, k, l, pool, min)
  {
    NodeFloorHoldsExactlyWhen(stores, events, k, l, pool, min);
    assert forall j :: k <= j < l ==> Possible(stores[j], events[j]);
  }

  /** One node stuck in Draining and one Ready: a minimum of one node does not hold the Ready one. */
  lemma MinNodesIsNotAFloor(stuck: NodeClaim, c: NodeClaim)
    requires stuck.phase == Draining && c.phase == Ready && c.pool == stuck.pool
    ensures Possible([stuck, c], IdleDestroy(1, 0, Some(1)))
    ensures Working([stuck, c], c.pool) == 1 && Working(Applied([stuck, c], IdleDestroy(1, 0, Some(1))), c.pool) == 0
  {
    CountAppend([], stuck, WorkingOf(c.pool));
    CountAppend([stuck], c, WorkingOf(c.pool));
    assert [] + [stuck] == [stuck] && [stuck] + [c] == [stuck, c];
    assert stuck in [stuck, c];
    NodeGuardPassesExactlyWhen([stuck, c], 1, 1);
    NodesFallBelowExactlyWhen([stuck, c], IdleDestroy(1, 0, Some(1)), c.pool, 1);
  }
}
