/**
 Pending pods are collected into batches, and each batch becomes at most one claim. Reconciles and several
 batches at work run side by side; every section under the lock and every batch ending is one method call.
 */
module Batching {
  import opened Options
  import opened Offers
  import opened Matcher
  import opened Trigger

  type Uid = string

  datatype Pod = Pod(uid: Uid, reqs: Requirements)

  /** What a reconcile sees of its pod. */
  datatype PodRead = Gone | NotPending | NoGpu | Schedulable | Waiting(pod: Pod)

  /** The pool's name, the node type of its first provider and the defaults it sets. */
  datatype PoolSpec = PoolSpec(name: string, firstType: string, minVram: int, minDisk: int, minRam: int,
                               gpuTypes: seq<string>)

  datatype BatchClaim = BatchClaim(pool: string, nodeType: string, model: string, gpuCount: int, minVram: int,
                                   gpuTypes: seq<string>, maxPrice: real, pods: seq<Uid>)

  /** What a batch finds when it is processed: enough claims already, no usable pool, a limit, or a pool and
      whether the create call succeeds. */
  datatype BatchRead = EnoughClaims | PoolsUnreadable | NoPools | LimitReached
                     | Usable(pool: PoolSpec, model: string, createOk: bool)

  function Uids(pods: seq<Pod>): (r: seq<Uid>)
    ensures |r| == |pods| && forall i :: 0 <= i < |r| ==> r[i] == pods[i].uid
  {
    seq(|pods|, i requires 0 <= i < |pods| => pods[i].uid)
  }

  /** All members of a list of batches, with multiplicity. */
  function Flat(batches: seq<seq<Uid>>): multiset<Uid> {
    if batches == [] then multiset{} else Flat(batches[..|batches| - 1]) + multiset(batches[|batches| - 1])
  }

  lemma FlatAppend(batches: seq<seq<Uid>>, b: seq<Uid>)
    ensures Flat(batches + [b]) == Flat(batches) + multiset(b)
  {
  }

  lemma {:induction false} FlatConcat(a: seq<seq<Uid>>, b: seq<seq<Uid>>)
    ensures Flat(a + b) == Flat(a) + Flat(b)
  {
    if b == [] {
      assert a + b == a;
    } else {
      var n := |b| - 1;
      FlatConcat(a, b[..n]);
      assert (a + b)[..|a + b| - 1] == a + b[..n];
    }
  }

  lemma FlatRemove(batches: seq<seq<Uid>>, k: nat)
    requires k < |batches|
    ensures Flat(batches) == Flat(batches[..k] + batches[k + 1..]) + multiset(batches[k])
  {
    hide Flat;
    FlatConcat(batches[..k], batches[k + 1..]);
    FlatConcat(batches[..k + 1], batches[k + 1..]);
    FlatAppend(batches[..k], batches[k]);
    assert batches[..k + 1] + batches[k + 1..] == batches;
    assert batches[..k] + [batches[k]] == batches[..k + 1];
  }

  lemma {:induction false} FlatContains(batches: seq<seq<Uid>>, k: nat, u: Uid)
    requires k < |batches|
    ensures multiset(batches[k])[u] <= Flat(batches)[u]
  {
    if k < |batches| - 1 { FlatContains(batches[..|batches| - 1], k, u); }
  }

  /** Taking the members of one part out of a set that is the disjoint union of its parts leaves the rest. */
  lemma Release(s: set<Uid>, b: seq<Uid>, rest: multiset<Uid>)
    requires multiset(s) == rest + multiset(b)
    ensures multiset(s - (set u | u in b)) == rest
  {
    var left := s - (set u | u in b);
    forall u ensures multiset(left)[u] == rest[u] {
      assert multiset(s)[u] == (if u in s then 1 else 0);
      assert multiset(b)[u] > 0 <==> u in b;
    }
  }

  /** The pods provisioned for are, without repetition, those pending, those in running batches and those named
      by the claims made. */
  ghost predicate Partition(held: set<Uid>, pending: seq<Pod>, running: seq<seq<Uid>>, claims: seq<BatchClaim>) {
    multiset(held) == multiset(Uids(pending)) + Flat(running) + Flat(PodsOf(claims))
  }

  lemma Joins(held: set<Uid>, pending: seq<Pod>, running: seq<seq<Uid>>, claims: seq<BatchClaim>, pod: Pod)
    requires Partition(held, pending, running, claims) && pod.uid !in held
    ensures Partition(held + {pod.uid}, pending + [pod], running, claims)
  {
    assert Uids(pending + [pod]) == Uids(pending) + [pod.uid];
    assert multiset(held + {pod.uid}) == multiset(held) + multiset{pod.uid};
  }

  lemma Takes(held: set<Uid>, pending: seq<Pod>, running: seq<seq<Uid>>, claims: seq<BatchClaim>)
    requires Partition(held, pending, running, claims)
    ensures Partition(held, [], running + [Uids(pending)], claims)
  {
  }

  lemma Names(held: set<Uid>, pending: seq<Pod>, running: seq<seq<Uid>>, claims: seq<BatchClaim>, k: nat, c: BatchClaim)
    requires Partition(held, pending, running, claims) && k < |running| && c.pods == running[k]
    ensures Partition(held, pending, running[..k] + running[k + 1..], claims + [c])
  {
    FlatRemove(running, k);
    FlatAppend(PodsOf(claims), c.pods);
    assert PodsOf(claims + [c]) == PodsOf(claims) + [c.pods];
  }

  lemma Releases(held: set<Uid>, pending: seq<Pod>, running: seq<seq<Uid>>, claims: seq<BatchClaim>, k: nat)
    requires Partition(held, pending, running, claims) && k < |running|
    ensures Partition(held - (set u | u in running[k]), pending, running[..k] + running[k + 1..], claims)
  {
    FlatRemove(running, k);
    var others := running[..k] + running[k + 1..];
    Release(held, running[k], multiset(Uids(pending)) + Flat(others) + Flat(PodsOf(claims)));
  }

  class ProvisioningController {
    var provisioningFor: set<Uid>
    var pendingBatch: seq<Pod>
    var timerArmed: bool
    ghost var running: seq<seq<Uid>>
    var claims: seq<BatchClaim>

    /** Every pod provisioned for is in exactly one place, and the timer is armed exactly if pods are pending. */
    ghost predicate Valid()
      reads this
    {
      && Partition(provisioningFor, pendingBatch, running, claims)
      && (timerArmed <==> pendingBatch != [])
    }

    constructor ()
      ensures Valid() && provisioningFor == {} && claims == [] && running == []
    {
      provisioningFor, pendingBatch, timerArmed, running, claims := {}, [], false, [], [];
    }

    /** A waiting pod joins the pending batch exactly if there are fewer active claims than pending pods and the
        pod is not provisioned for yet. */
    method Reconcile(read: PodRead, activeClaims: nat, pendingPods: nat) returns (requeueAfter: nat)
      requires Valid()
      modifies this
      ensures Valid() && running == old(running) && claims == old(claims)
      ensures var joins := read.Waiting? && activeClaims < pendingPods && read.pod.uid !in old(provisioningFor);
              && pendingBatch == old(pendingBatch) + (if joins then [read.pod] else [])
              && provisioningFor == old(provisioningFor) + (if joins then {read.pod.uid} else {})
      ensures requeueAfter == if read == Schedulable then 5
                              else if read.Waiting? && activeClaims >= pendingPods then 30 else 0
    {
      hide Partition;
      match read
      case Gone => return 0;
      case NotPending => return 0;
      case NoGpu => return 0;
      case Schedulable => return 5;
      case Waiting(pod) =>
        if activeClaims >= pendingPods {
          return 30;
        }
        if pod.uid in provisioningFor {
          return 0;
        }
        Joins(provisioningFor, pendingBatch, running, claims, pod);
        pendingBatch := pendingBatch + [pod];
        provisioningFor := provisioningFor + {pod.uid};
        if !timerArmed {
          timerArmed := true;
        }
        return 0;
    }

    /** The timer fires: the batch taken is never empty. */
    method TakeBatch() returns (batch: seq<Pod>)
      requires Valid() && timerArmed
      modifies this`pendingBatch, this`timerArmed, this`running
      ensures Valid() && batch == old(pendingBatch) && batch != []
      ensures pendingBatch == [] && !timerArmed && running == old(running) + [Uids(batch)]
    {
      hide Partition;
      batch := pendingBatch;
      Takes(provisioningFor, pendingBatch, running, claims);
      running := running + [Uids(batch)];
      pendingBatch := [];
      timerArmed := false;
    }

    /** The rest of processing the running batch number `k`: its pods are either all named by one new claim and
        stay provisioned for, or they are all released. */
    method FinishBatch(ghost k: nat, batch: seq<Pod>, read: BatchRead) returns (created: Option<BatchClaim>)
      requires Valid() && k < |running| && running[k] == Uids(batch) && batch != []
      modifies this`provisioningFor, this`running, this`claims
      ensures Valid() && running == old(running)[..k] + old(running)[k + 1..]
      ensures created.Some? <==> read.Usable? && read.createOk
      ensures created.Some? ==> claims == old(claims) + [created.value] && provisioningFor == old(provisioningFor)
      ensures created.Some? ==> created.value.pods == Uids(batch) && IsBatchClaim(read, batch, created.value)
      ensures created.None? ==> claims == old(claims)
      ensures created.None? ==> provisioningFor == old(provisioningFor) - (set u | u in Uids(batch))
    {
      hide Partition, IsBatchClaim;
      if !read.Usable? {
        ReleaseProvisioningLocks(k, batch);
        return None;
      }
      var claim := MakeClaim(read, batch);
      if !read.createOk {
        ReleaseProvisioningLocks(k, batch);
        return None;
      }
      Names(provisioningFor, pendingBatch, running, claims, k, claim);
      claims := claims + [claim];
      running := running[..k] + running[k + 1..];
      return Some(claim);
    }

    method ReleaseProvisioningLocks(ghost k: nat, batch: seq<Pod>)
      requires Valid() && k < |running| && running[k] == Uids(batch)
      modifies this`provisioningFor, this`running
      ensures Valid() && running == old(running)[..k] + old(running)[k + 1..]
      ensures provisioningFor == old(provisioningFor) - (set u | u in Uids(batch))
    {
      hide Partition;
      ghost var uids := Uids(batch);
      Releases(provisioningFor, pendingBatch, running, claims, k);
      for i := 0 to |batch|
        invariant running == old(running)
        invariant provisioningFor == old(provisioningFor) - (set u | u in uids[..i])
      {
        provisioningFor := provisioningFor - {batch[i].uid};
      }
      assert uids[..|batch|] == uids;
      running := running[..k] + running[k + 1..];
    }

    method MakeClaim(read: BatchRead, batch: seq<Pod>) returns (claim: BatchClaim)
      requires read.Usable?
      ensures IsBatchClaim(read, batch, claim) && claim.pods == Uids(batch)
      ensures claim.pool == read.pool.name && claim.model == read.model
      ensures claim.nodeType == if read.pool.firstType != "" then read.pool.firstType else "standalone"
      ensures exists merged ::
                && IsMerge(ReqsOf(batch), merged)
                && claim.gpuCount == merged.gpuCount && claim.maxPrice == merged.maxPrice
                && claim.minVram == (if merged.minVram == 0 && read.pool.minVram > 0 then read.pool.minVram
                                     else merged.minVram)
                && claim.gpuTypes == (if merged.gpuTypes == [] then read.pool.gpuTypes else merged.gpuTypes)
    {
      var pool := read.pool;
      var reqs: seq<Requirements> := [];
      var pods: seq<Uid> := [];
      for i := 0 to |batch|
        invariant reqs == ReqsOf(batch)[..i] && pods == Uids(batch)[..i]
      {
        reqs := reqs + [batch[i].reqs];
        pods := pods + [batch[i].uid];
      }
      var merged := MergeRequirements(reqs);
      assert reqs == ReqsOf(batch);
      var minVram, types := merged.minVram, merged.gpuTypes;
      if merged.minVram == 0 && pool.minVram > 0 {
        minVram := pool.minVram;
      }
      if |merged.gpuTypes| == 0 && |pool.gpuTypes| > 0 {
        types := pool.gpuTypes;
      }
      var nodeType := "standalone";
      if pool.firstType != "" {
        nodeType := pool.firstType;
      }
      claim := BatchClaim(pool.name, nodeType, read.model, merged.gpuCount, minVram, types, merged.maxPrice, pods);
      assert Describes(pool, merged, claim);
    }
  }

  function PodsOf(claims: seq<BatchClaim>): (r: seq<seq<Uid>>)
    ensures |r| == |claims| && forall i :: 0 <= i < |r| ==> r[i] == claims[i].pods
  {
    seq(|claims|, i requires 0 <= i < |claims| => claims[i].pods)
  }

  function ReqsOf(pods: seq<Pod>): (r: seq<Requirements>)
    ensures |r| == |pods| && forall i :: 0 <= i < |r| ==> r[i] == pods[i].reqs
  {
    seq(|pods|, i requires 0 <= i < |pods| => pods[i].reqs)
  }

  /** The claim asks for what the merged request asks for, with the pool's defaults where that asks for nothing. */
  ghost predicate Describes(pool: PoolSpec, merged: Requirements, c: BatchClaim) {
    && c.gpuCount == merged.gpuCount && c.maxPrice == merged.maxPrice
    && c.minVram == (if merged.minVram == 0 && pool.minVram > 0 then pool.minVram else merged.minVram)
    && c.gpuTypes == (if merged.gpuTypes == [] then pool.gpuTypes else merged.gpuTypes)
  }

  ghost predicate IsBatchClaim(read: BatchRead, batch: seq<Pod>, c: BatchClaim)
    requires read.Usable?
  {
    && c.pods == Uids(batch) && c.pool == read.pool.name && c.model == read.model
    && c.nodeType == (if read.pool.firstType != "" then read.pool.firstType else "standalone")
    && exists merged :: IsMerge(ReqsOf(batch), merged) && Describes(read.pool, merged, c)
  }

  /** While the invariant holds no pod is named twice, in one claim or in two, and no pod named by a claim is
      pending or in a running batch. */
  lemma OneClaimPerPod(held: set<Uid>, pending: seq<Pod>, running: seq<seq<Uid>>, claims: seq<BatchClaim>, i: nat,
                       u: Uid)
    requires Partition(held, pending, running, claims)
    requires i < |claims| && u in claims[i].pods
    ensures multiset(claims[i].pods)[u] == 1 && u in held && u !in Uids(pending)
    ensures forall j :: 0 <= j < |claims| && j != i ==> u !in claims[j].pods
    ensures forall j :: 0 <= j < |running| ==> u !in running[j]
  {
    var named := PodsOf(claims);
    assert multiset(held)[u] <= 1;
    FlatContains(named, i, u);
    assert u in multiset(named[i]);
    assert u in multiset(Uids(pending)) <==> u in Uids(pending);
    forall j | 0 <= j < |running| ensures u !in running[j] {
      FlatContains(running, j, u);
      assert u in multiset(running[j]) <==> u in running[j];
    }
    forall j | 0 <= j < |named| && j != i ensures u !in claims[j].pods {
      FlatRemove(named, i);
      var rest := named[..i] + named[i + 1..];
      var l := if j < i then j else j - 1;
      assert rest[l] == named[j];
      FlatContains(rest, l, u);
      assert u in multiset(named[j]) <==> u in named[j];
    }
  }

  // ---------------------------------------------------------------- which model a batch is for

  function Total(d: Demand): int {
    d.queue + d.active
  }

  /** The model whose demand selects the pool, and its position or -1. `always[k]` marks the always-active models. */
  method PickModel(demands: seq<Demand>, always: seq<bool>) returns (model: string, k: int)
    requires |always| == |demands|
    ensures -1 <= k < |demands| && model == if k < 0 then "" else demands[k].model
    ensures forall j :: k < j < |demands| ==>
              !always[j] && Total(demands[j]) <= (if k < 0 then 0 else Total(demands[k]))
    ensures k >= 0 ==> always[k] || (Total(demands[k]) > 0 || exists a :: 0 <= a < k && always[a])
    ensures k >= 0 && !always[k] ==>
              forall j :: 0 <= j < k && (forall a :: j < a < k ==> !always[a]) ==> Total(demands[j]) < Total(demands[k])
    ensures k >= 0 && (forall j :: 0 <= j < |demands| ==> !always[j]) ==>
              forall j :: 0 <= j < |demands| ==>
                demands[j].queue + demands[j].active <= demands[k].queue + demands[k].active
  {
    model, k := "", -1;
    var maxDemand := 0;
    for i := 0 to |demands|
      invariant -1 <= k < i && model == if k < 0 then "" else demands[k].model
      invariant maxDemand == if k < 0 then 0 else Total(demands[k])
      invariant forall j :: k < j < i ==> !always[j] && Total(demands[j]) <= maxDemand
      invariant k >= 0 ==> always[k] || (Total(demands[k]) > 0 || exists a :: 0 <= a < k && always[a])
      invariant k >= 0 && !always[k] ==>
                  forall j :: 0 <= j < k && (forall a :: j < a < k ==> !always[a]) ==>
                    Total(demands[j]) < Total(demands[k])
    {
      var total := demands[i].queue + demands[i].active;
      if total > maxDemand || always[i] {
        ghost var before := k;
        maxDemand := total;
        model, k := demands[i].model, i;
        if !always[i] {
          forall j | 0 <= j < i && (forall a :: j < a < i ==> !always[a])
            ensures Total(demands[j]) < Total(demands[i])
          {
            if before >= 0 && j < before { assert !always[before]; }
          }
        }
      }
    }
  }

  // ---------------------------------------------------------------- what is asked for in the end

  /** The request the reconciler sends for a batch claim: always spot, never several GPUs. */
  function BatchRequest(c: BatchClaim, minPcieGen: int): Requirements {
    Requirements(c.gpuCount, c.minVram, 0, c.gpuTypes, c.maxPrice, "spot", 0, 0, c.nodeType, minPcieGen, false)
  }

  /** Requirements as they are read off a pod. */
  predicate FromPod(r: Requirements) {
    && r.gpuCount >= 0 && r.maxVram == 0 && r.minDisk == 0 && r.minRam == 0 && !r.multiGpu
    && (r.capacityType == "spot" || r.capacityType == "on-demand")
  }

  /** An offer found for a batch meets the request of every pod of it, except that pods asking for on-demand
      capacity get a spot instance. */
  lemma BatchOfferMeetsPods(read: BatchRead, batch: seq<Pod>, c: BatchClaim, pcie: int, o: Offer, i: nat)
    requires read.Usable? && IsBatchClaim(read, batch, c) && i < |batch|
    requires forall k :: 0 <= k < |batch| ==> FromPod(batch[k].reqs)
    requires Admits(BatchRequest(c, pcie), o)
    ensures Admits(batch[i].reqs, o) <==> batch[i].reqs.capacityType == "spot"
  {
    var reqs := ReqsOf(batch);
    var merged :| IsMerge(reqs, merged) && Describes(read.pool, merged, c);
    var r := reqs[i];
    assert FromPod(r);
    CountsAddUp(reqs, i);
    if |reqs| > 1 {
      assert Get(Vram, r) <= merged.minVram;
      assert r.maxPrice > 0.0 ==> 0.0 < merged.maxPrice <= r.maxPrice;
    } else {
      assert TotalCount(reqs[..0]) == 0;
    }
  }

  /** Some offer can meet the request of a batch exactly if its pods ask for at most one GPU in all. */
  lemma BatchSatisfiable(read: BatchRead, batch: seq<Pod>, c: BatchClaim, pcie: int)
    requires read.Usable? && IsBatchClaim(read, batch, c)
    ensures (exists o :: Admits(BatchRequest(c, pcie), o)) <==> TotalCount(ReqsOf(batch)) <= 1
  {
    var reqs := ReqsOf(batch);
    var merged :| IsMerge(reqs, merged) && Describes(read.pool, merged, c);
    if |reqs| == 1 {
      assert reqs[..0] == [];
    }
    assert c.gpuCount == TotalCount(reqs);
    if c.gpuCount <= 1 {
      var price := if c.maxPrice > 0.0 then c.maxPrice else 0.0;
      var o := Offer("", "", "", 1, c.minVram, price, "spot", 0.0, 0, 0);
      assert Admits(BatchRequest(c, pcie), o);
    }
  }
}
