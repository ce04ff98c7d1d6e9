/**
 The replica and node limits over whole runs in which claims of every origin come and go.
 */
module Caps {
  import opened Lifecycle
  import opened Options
  import opened Claims
  import opened Trigger
  import opened QueuePass

  /** Claims made by a trigger list their models and do not carry the consolidation annotation; claims made for
      pod batches list none, bin-packed ones carry the annotation. */
  predicate ByTrigger(c: NodeClaim) {
    c.models != [] && !c.consolidation
  }

  /** One event in the claim store: a trigger, a claim of another origin, a change of phase by some controller,
      a drain annotation, or the removal of the object. */
  datatype Event =
    | Triggered(env: Env, model: Model)
    | Added(claim: NodeClaim)
    | Moved(i: nat, phase: Phase)
    | Annotated(i: nat)
    | Deleted(i: nat)

  predicate Possible(claims: seq<NodeClaim>, e: Event) {
    match e
    case Triggered(_, _) => true
    case Added(c) => !ByTrigger(c)
    case Moved(i, _) => i < |claims|
    case Annotated(i) => i < |claims|
    case Deleted(i) => i < |claims|
  }

  function Applied(claims: seq<NodeClaim>, e: Event): seq<NodeClaim>
    requires Possible(claims, e)
  {
    match e
    case Triggered(env, m) => After(claims, Handle(env, claims, m))
    case Added(c) => claims + [c]
    case Moved(i, phase) => claims[i := claims[i].(phase := phase)]
    case Annotated(i) => claims[i := claims[i].(drain := true)]
    case Deleted(i) => claims[..i] + claims[i + 1..]
  }

  ghost predicate IsHistory(stores: seq<seq<NodeClaim>>, events: seq<Event>) {
    && |stores| == |events| + 1
    && forall k :: 0 <= k < |events| ==>
         Possible(stores[k], events[k]) && stores[k + 1] == Applied(stores[k], events[k])
  }

  predicate OwnReplica(c: NodeClaim, m: Model) {
    ByTrigger(c) && Replica(c, m)
  }

  predicate OwnNode(c: NodeClaim, pool: string) {
    ByTrigger(c) && Occupies(c, pool)
  }

  function OwnReplicaOf(m: Model): NodeClaim -> bool {
    c => OwnReplica(c, m)
  }

  function OwnNodeOf(pool: string): NodeClaim -> bool {
    c => OwnNode(c, pool)
  }

  /** What the limits below count: claims made by triggers, which list their models and are not bin-packed, that
      are active and serve the model, or that are not Terminated and belong to the pool. */
  lemma OwnReplicaCount(claims: seq<NodeClaim>, m: Model)
    ensures Count(claims, OwnReplicaOf(m)) ==
            |set i | && 0 <= i < |claims| && claims[i].models != [] && !claims[i].consolidation
                     && claims[i].phase !in {Terminated, Draining, Hibernated}
                     && (claims[i].model == m || m in claims[i].models)|
  {
    hide Count;
    CountIsCardinality(claims, OwnReplicaOf(m));
    assert (set i | 0 <= i < |claims| && OwnReplicaOf(m)(claims[i])) ==
           set i | && 0 <= i < |claims| && claims[i].models != [] && !claims[i].consolidation
                   && claims[i].phase !in {Terminated, Draining, Hibernated}
                   && (claims[i].model == m || m in claims[i].models);
  }

  lemma OwnNodeCount(claims: seq<NodeClaim>, pool: string)
    ensures Count(claims, OwnNodeOf(pool)) ==
            |set i | && 0 <= i < |claims| && claims[i].models != [] && !claims[i].consolidation
                     && claims[i].phase != Terminated && claims[i].pool == pool|
  {
    hide Count;
    CountIsCardinality(claims, OwnNodeOf(pool));
    assert (set i | 0 <= i < |claims| && OwnNodeOf(pool)(claims[i])) ==
           set i | && 0 <= i < |claims| && claims[i].models != [] && !claims[i].consolidation
                   && claims[i].phase != Terminated && claims[i].pool == pool;
  }

  /** Does the event bring back a claim that had stopped meeting `p`? */
  predicate Revives(claims: seq<NodeClaim>, e: Event, p: NodeClaim -> bool)
    requires Possible(claims, e)
  {
    e.Moved? && !p(claims[e.i]) && p(claims[e.i].(phase := e.phase))
  }

  /** How many of the first `k` events bring back a claim. */
  ghost function Revivals(stores: seq<seq<NodeClaim>>, events: seq<Event>, k: nat, p: NodeClaim -> bool): nat
    requires IsHistory(stores, events) && k <= |events|
  {
    if k == 0 then 0
    else Revivals(stores, events, k - 1, p) + (if Revives(stores[k - 1], events[k - 1], p) then 1 else 0)
  }

  /** A condition that the drain annotation does not affect. */
  ghost predicate IgnoresDrain(p: NodeClaim -> bool) {
    forall c: NodeClaim :: p(c.(drain := true)) <==> p(c)
  }

  /** An event other than a trigger adds to a count of trigger-made claims only by reviving one. */
  lemma OtherEvents(claims: seq<NodeClaim>, e: Event, p: NodeClaim -> bool)
    requires Possible(claims, e) && !e.Triggered?
    requires IgnoresDrain(p) && forall c :: p(c) ==> ByTrigger(c)
    ensures Count(Applied(claims, e), p) <= Count(claims, p) + (if Revives(claims, e, p) then 1 else 0)
  {
    match e
    case Added(c) => CountAppend(claims, c, p);
    case Moved(i, phase) => CountUpdate(claims, i, claims[i].(phase := phase), p);
    case Annotated(i) => CountUpdate(claims, i, claims[i].(drain := true), p);
    case Deleted(i) => CountRemove(claims, i, p);
  }

  // ---------------------------------------------------------------- any limit on trigger-made claims

  /** A condition the limits below count by: trigger-made claims only, whatever their drain annotation. */
  ghost predicate Countable(p: NodeClaim -> bool) {
    IgnoresDrain(p) && forall c :: p(c) ==> ByTrigger(c)
  }

  /** A trigger adds to the count only up to `bound`. */
  ghost predicate Respects(claims: seq<NodeClaim>, e: Event, p: NodeClaim -> bool, bound: int)
    requires Possible(claims, e)
  {
    e.Triggered? ==> Count(Applied(claims, e), p) <= bound || Count(Applied(claims, e), p) <= Count(claims, p)
  }

  /** The event brings a claim back when the limit is already used up. */
  predicate Overflows(claims: seq<NodeClaim>, e: Event, p: NodeClaim -> bool, bound: int)
    requires Possible(claims, e)
  {
    Count(claims, p) == bound && Revives(claims, e, p)
  }

  lemma ExceedsExactlyWhen(claims: seq<NodeClaim>, e: Event, p: NodeClaim -> bool, bound: int)
    requires Possible(claims, e) && Countable(p) && Respects(claims, e, p, bound)
    requires Count(claims, p) <= bound
    ensures Count(Applied(claims, e), p) > bound <==> Overflows(claims, e, p, bound)
  {
    if !e.Triggered? {
      OtherEvents(claims, e, p);
      if e.Moved? { CountUpdate(claims, e.i, claims[e.i].(phase := e.phase), p); }
    }
  }

  ghost predicate AllRespect(stores: seq<seq<NodeClaim>>, events: seq<Event>, n: nat, p: NodeClaim -> bool, bound: int)
    requires IsHistory(stores, events) && n <= |events|
  {
    forall j :: 0 <= j < n ==> Respects(stores[j], events[j], p, bound)
  }

  ghost predicate Within(stores: seq<seq<NodeClaim>>, events: seq<Event>, n: nat, p: NodeClaim -> bool, bound: int)
    requires IsHistory(stores, events) && n <= |events|
  {
    forall j :: 0 <= j <= n ==> Count(stores[j], p) <= bound
  }

  ghost predicate EverOverflows(stores: seq<seq<NodeClaim>>, events: seq<Event>, n: nat, p: NodeClaim -> bool,
                                bound: int)
    requires IsHistory(stores, events) && n <= |events|
  {
    exists j :: 0 <= j < n && Overflows(stores[j], events[j], p, bound)
  }

  /** A limit holds at every point of a run if and only if no claim comes back while it is used up. */
  lemma {:induction false} WithinExactlyWhen(stores: seq<seq<NodeClaim>>, events: seq<Event>, n: nat,
                                             p: NodeClaim -> bool, bound: int)
    requires IsHistory(stores, events) && n <= |events| && Countable(p)
    requires AllRespect(stores, events, n, p, bound) && Count(stores[0], p) <= bound
    ensures Within(stores, events, n, p, bound) <==> !EverOverflows(stores, events, n, p, bound)
  {
    if n > 0 {
      WithinExactlyWhen(stores, events, n - 1, p, bound);
      var e, claims := events[n - 1], stores[n - 1];
      assert Possible(claims, e) && stores[n - 1 + 1] == Applied(claims, e);
      if Within(stores, events, n - 1, p, bound) {
        ExceedsExactlyWhen(claims, e, p, bound);
      }
    }
  }

  /** However many claims come back, each adds at most one to the count. */
  lemma {:induction false} AtMostRevivals(stores: seq<seq<NodeClaim>>, events: seq<Event>, n: nat,
                                          p: NodeClaim -> bool, bound: int)
    requires IsHistory(stores, events) && n <= |events| && Countable(p)
    requires AllRespect(stores, events, n, p, bound) && Count(stores[0], p) <= bound
    ensures Count(stores[n], p) <= bound + Revivals(stores, events, n, p)
  {
    if n > 0 {
      AtMostRevivals(stores, events, n - 1, p, bound);
      var e, claims := events[n - 1], stores[n - 1];
      assert Possible(claims, e) && stores[n - 1 + 1] == Applied(claims, e);
      assert Respects(claims, e, p, bound);
      if !e.Triggered? { OtherEvents(claims, e, p); }
    }
  }

  /** In the first `n` events no phase goes back in rank. */
  ghost predicate PhasesOnlyAdvance(stores: seq<seq<NodeClaim>>, events: seq<Event>, n: nat)
    requires IsHistory(stores, events) && n <= |events|
  {
    forall j :: 0 <= j < n && Possible(stores[j], events[j]) && events[j].Moved? ==>
      Rank(stores[j][events[j].i].phase) <= Rank(events[j].phase)
  }

  // ---------------------------------------------------------------- replicas

  lemma TriggerRespectsLimit(env: Env, claims: seq<NodeClaim>, primary: Model, m: Model, bound: int)
    requires bound >= 1 && (primary == m && m in env.configs ==> env.configs[m].maxReplicas <= bound)
    ensures Count(After(claims, Handle(env, claims, primary)), OwnReplicaOf(m)) <= bound ||
            Count(After(claims, Handle(env, claims, primary)), OwnReplicaOf(m)) <= Count(claims, OwnReplicaOf(m))
  {
    var out := Handle(env, claims, primary);
    if out.Created? {
      CountAppend(claims, out.claim, OwnReplicaOf(m));
      if Serves(out.claim, m) {
        CountAtMost(claims, OwnReplicaOf(m), ReplicaOf(m));
        CreatedServes(env, claims, primary, m);
        CountZero(claims, ReplicaOf(m));
      }
    }
  }

  /** No trigger for `m` in the first `n` events read a larger replica limit. */
  ghost predicate ReplicaLimits(events: seq<Event>, n: nat, m: Model, bound: int)
    requires n <= |events|
  {
    forall j :: 0 <= j < n ==>
      var e := events[j]; e.Triggered? && e.model == m && m in e.env.configs ==> e.env.configs[m].maxReplicas <= bound
  }

  lemma ReplicaLimitsRespected(stores: seq<seq<NodeClaim>>, events: seq<Event>, n: nat, m: Model, bound: int)
    requires IsHistory(stores, events) && n <= |events| && bound >= 1 && ReplicaLimits(events, n, m, bound)
    ensures AllRespect(stores, events, n, OwnReplicaOf(m), bound)
  {
    forall j | 0 <= j < n ensures Respects(stores[j], events[j], OwnReplicaOf(m), bound) {
      var e := events[j];
      if e.Triggered? { TriggerRespectsLimit(e.env, stores[j], e.model, m, bound); }
    }
  }

  /** The trigger-made active claims for a model, as primary or bundled, stay within the largest limit read, at
      every point of a run, if and only if none of them comes back while as many as the limit are active. */
  lemma ReplicaCapExactlyWhen(stores: seq<seq<NodeClaim>>, events: seq<Event>, n: nat, m: Model, bound: int)
    requires IsHistory(stores, events) && n <= |events|
    requires bound >= 1 && Count(stores[0], OwnReplicaOf(m)) <= bound && ReplicaLimits(events, n, m, bound)
    ensures Within(stores, events, n, OwnReplicaOf(m), bound) <==>
            !EverOverflows(stores, events, n, OwnReplicaOf(m), bound)
  {
    ReplicaLimitsRespected(stores, events, n, m, bound);
    WithinExactlyWhen(stores, events, n, OwnReplicaOf(m), bound);
  }

  /** While no phase goes back the replica limit holds throughout. */
  lemma ReplicaCap(stores: seq<seq<NodeClaim>>, events: seq<Event>, n: nat, m: Model, bound: int)
    requires IsHistory(stores, events) && n <= |events|
    requires bound >= 1 && Count(stores[0], OwnReplicaOf(m)) <= bound && ReplicaLimits(events, n, m, bound)
    requires PhasesOnlyAdvance(stores, events, n)
    ensures Within(stores, events, n, OwnReplicaOf(m), bound)
  {
    ReplicaCapExactlyWhen(stores, events, n, m, bound);
    assert forall j :: 0 <= j < n ==> Possible(stores[j], events[j]);
  }

  /** With claims coming back, the limit is exceeded by no more than their number. */
  lemma ReplicaOvershoot(stores: seq<seq<NodeClaim>>, events: seq<Event>, n: nat, m: Model, bound: int)
    requires IsHistory(stores, events) && n <= |events|
    requires bound >= 1 && Count(stores[0], OwnReplicaOf(m)) <= bound && ReplicaLimits(events, n, m, bound)
    ensures Count(stores[n], OwnReplicaOf(m)) <= bound + Revivals(stores, events, n, OwnReplicaOf(m))
  {
    ReplicaLimitsRespected(stores, events, n, m, bound);
    AtMostRevivals(stores, events, n, OwnReplicaOf(m), bound);
  }

  // ---------------------------------------------------------------- nodes

  /** The limit a trigger reads for the pool it chooses. */
  predicate ReadsNodeLimit(env: Env, m: Model, pool: string, bound: int) {
    m in env.configs && env.pools.Some? && env.pools.value != [] ==>
      var p := env.pools.value[ChosenPool(env.pools.value, env.configs[m].pool, env.configs[m].nodeType)];
      p.name == pool ==> p.maxNodes <= bound
  }

  lemma TriggerRespectsMaxNodes(env: Env, claims: seq<NodeClaim>, primary: Model, pool: string, bound: int)
    requires ReadsNodeLimit(env, primary, pool, bound)
    ensures Count(After(claims, Handle(env, claims, primary)), OwnNodeOf(pool)) <= bound ||
            Count(After(claims, Handle(env, claims, primary)), OwnNodeOf(pool)) <= Count(claims, OwnNodeOf(pool))
  {
    var out := Handle(env, claims, primary);
    if out.Created? {
      CountAppend(claims, out.claim, OwnNodeOf(pool));
      CountAtMost(claims, OwnNodeOf(pool), NodeOf(pool));
    }
  }

  /** No trigger in the first `n` events read a larger node limit for the pool. */
  ghost predicate NodeLimits(events: seq<Event>, n: nat, pool: string, bound: int)
    requires n <= |events|
  {
    forall j :: 0 <= j < n ==> var e := events[j]; e.Triggered? ==> ReadsNodeLimit(e.env, e.model, pool, bound)
  }

  lemma NodeLimitsRespected(stores: seq<seq<NodeClaim>>, events: seq<Event>, n: nat, pool: string, bound: int)
    requires IsHistory(stores, events) && n <= |events| && NodeLimits(events, n, pool, bound)
    ensures AllRespect(stores, events, n, OwnNodeOf(pool), bound)
  {
    forall j | 0 <= j < n ensures Respects(stores[j], events[j], OwnNodeOf(pool), bound) {
      var e := events[j];
      if e.Triggered? { TriggerRespectsMaxNodes(e.env, stores[j], e.model, pool, bound); }
    }
  }

  /** The trigger-made claims of a pool that are not Terminated stay within the largest node limit read, at every
      point of a run, if and only if none of them comes back from Terminated while the limit is used up. */
  lemma NodeCapExactlyWhen(stores: seq<seq<NodeClaim>>, events: seq<Event>, n: nat, pool: string, bound: int)
    requires IsHistory(stores, events) && n <= |events|
    requires Count(stores[0], OwnNodeOf(pool)) <= bound && NodeLimits(events, n, pool, bound)
    ensures Within(stores, events, n, OwnNodeOf(pool), bound) <==>
            !EverOverflows(stores, events, n, OwnNodeOf(pool), bound)
  {
    NodeLimitsRespected(stores, events, n, pool, bound);
    WithinExactlyWhen(stores, events, n, OwnNodeOf(pool), bound);
  }

  /** While no phase goes back the node limit holds throughout. */
  lemma NodeCap(stores: seq<seq<NodeClaim>>, events: seq<Event>, n: nat, pool: string, bound: int)
    requires IsHistory(stores, events) && n <= |events|
    requires Count(stores[0], OwnNodeOf(pool)) <= bound && NodeLimits(events, n, pool, bound)
    requires PhasesOnlyAdvance(stores, events, n)
    ensures Within(stores, events, n, OwnNodeOf(pool), bound)
  {
    NodeCapExactlyWhen(stores, events, n, pool, bound);
    assert forall j :: 0 <= j < n ==> Possible(stores[j], events[j]);
  }

  /** With claims coming back, the limit is exceeded by no more than their number. */
  lemma NodeOvershoot(stores: seq<seq<NodeClaim>>, events: seq<Event>, n: nat, pool: string, bound: int)
    requires IsHistory(stores, events) && n <= |events|
    requires Count(stores[0], OwnNodeOf(pool)) <= bound && NodeLimits(events, n, pool, bound)
    ensures Count(stores[n], OwnNodeOf(pool)) <= bound + Revivals(stores, events, n, OwnNodeOf(pool))
  {
    NodeLimitsRespected(stores, events, n, pool, bound);
    AtMostRevivals(stores, events, n, OwnNodeOf(pool), bound);
  }

  // ---------------------------------------------------------------- the revivals count

  const ONE := Config(10, "", "", 1, 0.0, 0, [], false)
  const ENV := Env(map["m" := ONE], true, Some(1), Some([Pool("p", ["standalone"], 5)]), Some([]), "c", true)

  lemma FirstReplica(claims: seq<NodeClaim>)
    requires Replicas(claims, "m") == 0 && Nodes(claims, "p") < 5
    ensures Handle(ENV, claims, "m").Created?
    ensures var c := Handle(ENV, claims, "m").claim;
            c.model == "m" && c.pool == "p" && c.phase == Unset && ByTrigger(c)
  {
  }

  lemma PairCount(d: NodeClaim, c: NodeClaim, p: NodeClaim -> bool)
    ensures Count([d], p) == (if p(d) then 1 else 0)
    ensures Count([d, c], p) == Count([d], p) + (if p(c) then 1 else 0)
  {
  }

  /** Start a claim, end it, start its replacement, bring it back. */
  lemma ComesBack(env: Env, a: NodeClaim, c: NodeClaim) returns (stores: seq<seq<NodeClaim>>, events: seq<Event>)
    requires Handle(env, [], "m") == Outcome.Created(a)
    requires Handle(env, [a.(phase := Terminated)], "m") == Outcome.Created(c)
    ensures IsHistory(stores, events) && stores[0] == [] && |stores| == 5
    ensures stores[4] == [a.(phase := Bootstrapping), c]
    ensures forall e :: e in events && e.Triggered? ==> e.env == env
  {
    hide Handle;
    var b, d := a.(phase := Terminated), a.(phase := Bootstrapping);
    events := [Triggered(env, "m"), Moved(0, Terminated), Triggered(env, "m"), Moved(0, Bootstrapping)];
    stores := [[], [a], [b], [b, c], [d, c]];
    forall k | 0 <= k < 4
      ensures Possible(stores[k], events[k]) && stores[k + 1] == Applied(stores[k], events[k])
    {
      if k == 0 { assert [] + [a] == [a]; }
      if k == 1 { assert [a][0 := b] == [b]; }
      if k == 2 { assert [b] + [c] == [b, c]; }
      if k == 3 { assert [b, c][0 := d] == [d, c]; }
    }
  }

  /** The revivals cannot be left out: when a Terminated claim comes back after its replacement was started,
      a model with a limit of one has two active claims. */
  lemma RevivalExceedsLimit() returns (stores: seq<seq<NodeClaim>>, events: seq<Event>)
    ensures IsHistory(stores, events) && stores[0] == [] && |stores| == 5
    ensures forall e :: e in events && e.Triggered? ==> "m" in e.env.configs && e.env.configs["m"].maxReplicas == 1
    ensures Count(stores[4], OwnReplicaOf("m")) == 2
  {
    FirstReplica([]);
    var a := Handle(ENV, [], "m").claim;
    var b := a.(phase := Terminated);
    PairCount(b, b, ReplicaOf("m"));
    PairCount(b, b, NodeOf("p"));
    FirstReplica([b]);
    var c := Handle(ENV, [b], "m").claim;
    PairCount(a.(phase := Bootstrapping), c, OwnReplicaOf("m"));
    hide Handle, IsHistory;
    stores, events := ComesBack(ENV, a, c);
  }
}
