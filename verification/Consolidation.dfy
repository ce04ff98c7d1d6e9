/**
 Finding two Ready single-model claims that fit on one node, and the bin-packed claim made for them.
 */
module Consolidation {
  import opened Lifecycle
  import opened Options
  import opened Claims
  import opened Trigger

  function GroupKey(c: NodeClaim): string {
    c.pool + "/" + c.runsAs
  }

  lemma SlashInside(p: string, x: string, q: string, y: string)
    requires p + "/" + x == q + y && |p| < |q|
    ensures '/' in q
  {
    assert (p + "/" + x)[|p|] == '/' && q[|p|] == (q + y)[|p|];
  }

  /** A group is a pool and a node type, as pool names have no '/'. */
  lemma GroupExactlyWhen(a: NodeClaim, b: NodeClaim)
    requires '/' !in a.pool && '/' !in b.pool
    ensures GroupKey(a) == GroupKey(b) <==> a.pool == b.pool && a.runsAs == b.runsAs
  {
    if GroupKey(a) == GroupKey(b) {
      var key := GroupKey(a);
      assert key == a.pool + ("/" + a.runsAs) && key == b.pool + ("/" + b.runsAs);
      if |a.pool| < |b.pool| {
        SlashInside(a.pool, a.runsAs, b.pool, "/" + b.runsAs);
      } else if |b.pool| < |a.pool| {
        SlashInside(b.pool, b.runsAs, a.pool, "/" + a.runsAs);
      } else {
        assert a.pool == key[..|a.pool|] == b.pool;
        assert a.runsAs == key[|a.pool| + 1..] == b.runsAs;
      }
    }
  }

  /** A Ready claim with exactly one model, whose configuration can be read. */
  predicate Candidate(configs: map<Model, Config>, c: NodeClaim) {
    c.phase == Ready && |ModelsOf(c)| == 1 && ModelsOf(c)[0] in configs
  }

  function OneVram(configs: map<Model, Config>, c: NodeClaim): int
    requires Candidate(configs, c)
  {
    configs[ModelsOf(c)[0]].vram
  }

  predicate Packs(c: NodeClaim, a: Model, b: Model) {
    Live(c) && |c.models| >= 2 && a in c.models && b in c.models
  }

  predicate AlreadyPacked(claims: seq<NodeClaim>, a: Model, b: Model) {
    exists c :: c in claims && Packs(c, a, b)
  }

  predicate Pairable(configs: map<Model, Config>, claims: seq<NodeClaim>, a: NodeClaim, b: NodeClaim)
    requires Candidate(configs, a) && Candidate(configs, b)
  {
    OneVram(configs, a) + OneVram(configs, b) <= BUNDLE_CAP && !AlreadyPacked(claims, a.model, b.model)
  }

  /** Positions `i < j` hold two candidates of one group that fit together and are not packed yet. */
  predicate Opportunity(configs: map<Model, Config>, claims: seq<NodeClaim>, i: int, j: int) {
    && 0 <= i < j < |claims|
    && Candidate(configs, claims[i]) && Candidate(configs, claims[j])
    && GroupKey(claims[i]) == GroupKey(claims[j])
    && Pairable(configs, claims, claims[i], claims[j])
  }

  /** Two Ready claims of one pool and node type, each with one known model, together at most 96 GB, and no
      claim that is neither Terminated nor Draining lists both models. */
  lemma OpportunityExactlyWhen(configs: map<Model, Config>, claims: seq<NodeClaim>, i: int, j: int)
    requires forall c :: c in claims ==> '/' !in c.pool
    ensures Opportunity(configs, claims, i, j) <==>
            && 0 <= i < j < |claims|
            && claims[i].phase == Ready && claims[j].phase == Ready
            && claims[i].pool == claims[j].pool && claims[i].runsAs == claims[j].runsAs
            && (exists a, b :: && ModelsOf(claims[i]) == [a] && ModelsOf(claims[j]) == [b]
                               && a in configs && b in configs && configs[a].vram + configs[b].vram <= 96)
            && (forall c :: c in claims && c.phase != Terminated && c.phase != Draining && |c.models| >= 2 ==>
                  claims[i].model !in c.models || claims[j].model !in c.models)
  {
    if 0 <= i < j < |claims| {
      GroupExactlyWhen(claims[i], claims[j]);
      if Candidate(configs, claims[i]) && Candidate(configs, claims[j]) {
        assert ModelsOf(claims[i]) == [ModelsOf(claims[i])[0]] && ModelsOf(claims[j]) == [ModelsOf(claims[j])[0]];
      }
      assert AlreadyPacked(claims, claims[i].model, claims[j].model) <==>
             exists c :: c in claims && Packs(c, claims[i].model, claims[j].model);
    }
  }

  predicate Before(i: int, j: int, k: int, l: int) {
    i < k || (i == k && j < l)
  }

  method BinPackedClaimExists(claims: seq<NodeClaim>, a: Model, b: Model) returns (found: bool)
    ensures found == AlreadyPacked(claims, a, b)
    ensures found <==> exists c :: c in claims && c.phase != Terminated && c.phase != Draining && |c.models| >= 2
                                   && a in c.models && b in c.models
  {
    for i := 0 to |claims|
      invariant forall j :: 0 <= j < i ==> !Packs(claims[j], a, b)
    {
      var c := claims[i];
      if c.phase == Terminated || c.phase == Draining || |c.models| < 2 {
        continue;
      }
      if a in c.models && b in c.models {
        assert Packs(c, a, b);
        return true;
      }
    }
    return false;
  }

  predicate InGroup(configs: map<Model, Config>, c: NodeClaim, k: string) {
    Candidate(configs, c) && GroupKey(c) == k
  }

  predicate Increasing(group: seq<nat>) {
    forall x, y :: 0 <= x < y < |group| ==> group[x] < group[y]
  }

  /** The positions of the candidates among the first `n` claims with group key `k`, in order. */
  ghost predicate GroupUpTo(configs: map<Model, Config>, claims: seq<NodeClaim>, n: nat, k: string, group: seq<nat>)
    requires n <= |claims|
  {
    && Increasing(group)
    && (forall i: nat :: i in group <==> i < n && InGroup(configs, claims[i], k))
  }

  function Lookup(groups: map<string, seq<nat>>, k: string): seq<nat> {
    if k in groups then groups[k] else []
  }

  /** The map built from the first `n` claims holds every group. */
  ghost predicate Grouped(configs: map<Model, Config>, claims: seq<NodeClaim>, n: nat, groups: map<string, seq<nat>>)
    requires n <= |claims|
  {
    forall k :: GroupUpTo(configs, claims, n, k, Lookup(groups, k))
  }

  method Groups(configs: map<Model, Config>, claims: seq<NodeClaim>) returns (groups: map<string, seq<nat>>)
    ensures Grouped(configs, claims, |claims|, groups)
  {
    groups := map[];
    for i := 0 to |claims|
      invariant Grouped(configs, claims, i, groups)
    {
      hide Grouped, GroupUpTo, Lookup;
      var c := claims[i];
      GroupedStep(configs, claims, i, groups);
      if c.phase == Ready && |ModelsOf(c)| == 1 && ModelsOf(c)[0] in configs {
        groups := groups[GroupKey(c) := Lookup(groups, GroupKey(c)) + [i]];
      }
    }
  }

  lemma GroupedStep(configs: map<Model, Config>, claims: seq<NodeClaim>, n: nat, groups: map<string, seq<nat>>)
    requires n < |claims| && Grouped(configs, claims, n, groups)
    ensures Grouped(configs, claims, n + 1,
                    if Candidate(configs, claims[n])
                    then groups[GroupKey(claims[n]) := Lookup(groups, GroupKey(claims[n])) + [n]] else groups)
  {
    hide GroupUpTo;
    var next := if Candidate(configs, claims[n])
                then groups[GroupKey(claims[n]) := Lookup(groups, GroupKey(claims[n])) + [n]] else groups;
    forall k ensures GroupUpTo(configs, claims, n + 1, k, Lookup(next, k)) {
      assert GroupUpTo(configs, claims, n, k, Lookup(groups, k));
      GroupGrows(configs, claims, n, k, Lookup(groups, k));
    }
  }

  lemma GroupGrows(configs: map<Model, Config>, claims: seq<NodeClaim>, n: nat, k: string, group: seq<nat>)
    requires n < |claims|
    requires GroupUpTo(configs, claims, n, k, group)
    ensures GroupUpTo(configs, claims, n + 1, k, if InGroup(configs, claims[n], k) then group + [n] else group)
  {
    hide InGroup;
    if InGroup(configs, claims[n], k) {
      forall i: nat ensures i in group + [n] <==> i in group || i == n {}
      assert forall x :: 0 <= x < |group| ==> group[x] in group;
    }
  }

  /** The first pair of one group. */
  method PairIn(configs: map<Model, Config>, claims: seq<NodeClaim>, k: string, group: seq<nat>)
    returns (pair: Option<(nat, nat)>)
    requires GroupUpTo(configs, claims, |claims|, k, group)
    ensures pair.Some? ==> Opportunity(configs, claims, pair.value.0, pair.value.1)
    ensures pair.Some? ==> GroupKey(claims[pair.value.0]) == k
    ensures forall i, j :: Opportunity(configs, claims, i, j) && GroupKey(claims[i]) == k ==>
                             pair.Some? && !Before(i, j, pair.value.0, pair.value.1)
  {
    for x := 0 to |group|
      invariant forall y, z :: 0 <= y < x && y < z < |group| ==> !Opportunity(configs, claims, group[y], group[z])
    {
      for z := x + 1 to |group|
        invariant forall w :: x < w < z ==> !Opportunity(configs, claims, group[x], group[w])
      {
        assert group[x] in group && group[z] in group;
        var a, b := claims[group[x]], claims[group[z]];
        if OneVram(configs, a) + OneVram(configs, b) > BUNDLE_CAP {
          continue;
        }
        var packed := BinPackedClaimExists(claims, a.model, b.model);
        if packed {
          continue;
        }
        FirstPair(configs, claims, k, group, x, z);
        return Some((group[x], group[z]));
      }
    }
    NoPair(configs, claims, k, group);
    return None;
  }

  lemma NoPair(configs: map<Model, Config>, claims: seq<NodeClaim>, k: string, group: seq<nat>)
    requires GroupUpTo(configs, claims, |claims|, k, group)
    requires forall y, z :: 0 <= y < z < |group| ==> !Opportunity(configs, claims, group[y], group[z])
    ensures forall i, j :: Opportunity(configs, claims, i, j) ==> GroupKey(claims[i]) != k
  {
  }

  lemma FirstPair(configs: map<Model, Config>, claims: seq<NodeClaim>, k: string, group: seq<nat>, x: nat, w: nat)
    requires GroupUpTo(configs, claims, |claims|, k, group) && x < w < |group|
    requires forall y, z :: 0 <= y < x && y < z < |group| ==> !Opportunity(configs, claims, group[y], group[z])
    requires forall z :: x < z < w ==> !Opportunity(configs, claims, group[x], group[z])
    ensures forall i, j :: Opportunity(configs, claims, i, j) && GroupKey(claims[i]) == k ==>
                             !Before(i, j, group[x], group[w])
  {
  }

  /** The groups are visited in an unknown order; the result is the first pair of some group, and none only
      if no group has one. */
  method FindPair(configs: map<Model, Config>, claims: seq<NodeClaim>) returns (pair: Option<(nat, nat)>)
    ensures pair.Some? ==> Opportunity(configs, claims, pair.value.0, pair.value.1)
    ensures pair.Some? ==>
              forall i, j :: Opportunity(configs, claims, i, j) ==>
                GroupKey(claims[i]) == GroupKey(claims[pair.value.0]) ==>
                  pair.value.0 < i || (pair.value.0 == i && pair.value.1 <= j)
    ensures pair.None? ==> forall i, j :: !Opportunity(configs, claims, i, j)
  {
    var groups := Groups(configs, claims);
    var keys := groups.Keys;
    forall i, j | Opportunity(configs, claims, i, j) ensures GroupKey(claims[i]) in keys {
      assert GroupUpTo(configs, claims, |claims|, GroupKey(claims[i]), Lookup(groups, GroupKey(claims[i])));
    }
    while keys != {}
      invariant keys <= groups.Keys
      invariant forall i, j :: Opportunity(configs, claims, i, j) ==> GroupKey(claims[i]) in keys
      decreases |keys|
    {
      var k :| k in keys;
      keys := keys - {k};
      assert Lookup(groups, k) == groups[k];
      pair := PairIn(configs, claims, k, groups[k]);
      if pair.Some? {
        return;
      }
    }
    return None;
  }

  datatype PackOutcome = NothingToPack | PoolListFailed | NilPool | Rejected | Packed(claim: NodeClaim)

  /** The claim that replaces `a` and `b`. */
  function PackedClaim(configs: map<Model, Config>, a: NodeClaim, b: NodeClaim, pools: seq<Pool>, name: string)
    : NodeClaim
    requires Candidate(configs, a) && Candidate(configs, b) && pools != []
  {
    var cfg := configs[ModelsOf(a)[0]];
    var total := OneVram(configs, a) + OneVram(configs, b);
    NodeClaim(name, pools[ChosenPool(pools, cfg.pool, cfg.nodeType)].name,
              if cfg.nodeType == "" then a.runsAs else cfg.nodeType,
              a.model, [a.model, b.model],
              Needs(total, 0, [], 0.0, total + DISK_OVERHEAD, false), Unset, "", true, false)
  }
}
