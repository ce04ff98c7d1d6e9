/**
 Merging the requirements of a batch of pods into one request.
 */
module Matcher {
  import opened Offers

  const NONE := Requirements(0, 0, 0, [], 0.0, "", 0, 0, "", 0, false)

  function TotalCount(reqs: seq<Requirements>): int {
    if reqs == [] then 0 else TotalCount(reqs[..|reqs| - 1]) + reqs[|reqs| - 1].gpuCount
  }

  function AllTypes(reqs: seq<Requirements>): seq<string> {
    if reqs == [] then [] else AllTypes(reqs[..|reqs| - 1]) + reqs[|reqs| - 1].gpuTypes
  }

  /** The first occurrences, in order. */
  function Distinct(s: seq<string>): seq<string> {
    if s == [] then []
    else
      var front := Distinct(s[..|s| - 1]);
      if s[|s| - 1] in s[..|s| - 1] then front else front + [s[|s| - 1]]
  }

  datatype Field = Vram | Disk | Ram

  function Get(f: Field, r: Requirements): int {
    match f
    case Vram => r.minVram
    case Disk => r.minDisk
    case Ram => r.minRam
  }

  /** `m` is the largest of the values and zero. */
  ghost predicate IsCeiling(m: int, reqs: seq<Requirements>, f: Field) {
    && m >= 0
    && (forall i :: 0 <= i < |reqs| ==> Get(f, reqs[i]) <= m)
    && (m > 0 ==> exists i :: 0 <= i < |reqs| && Get(f, reqs[i]) == m)
  }

  /** `m` is the smallest positive price, or zero if there is none. */
  ghost predicate IsFloor(m: real, reqs: seq<Requirements>) {
    && m >= 0.0
    && (forall i :: 0 <= i < |reqs| && reqs[i].maxPrice > 0.0 ==> 0.0 < m <= reqs[i].maxPrice)
    && (m > 0.0 ==> exists i :: 0 <= i < |reqs| && reqs[i].maxPrice == m)
  }

  ghost predicate WantsOnDemand(reqs: seq<Requirements>) {
    exists i :: 0 <= i < |reqs| && reqs[i].capacityType == "on-demand"
  }

  /** What merging `reqs` may give. */
  ghost predicate IsMerge(reqs: seq<Requirements>, m: Requirements) {
    if |reqs| == 0 then m == NONE
    else if |reqs| == 1 then m == reqs[0]
    else
      && m.gpuCount == TotalCount(reqs)
      && IsCeiling(m.minVram, reqs, Vram)
      && IsCeiling(m.minDisk, reqs, Disk)
      && IsCeiling(m.minRam, reqs, Ram)
      && IsFloor(m.maxPrice, reqs)
      && m.capacityType == (if WantsOnDemand(reqs) then "on-demand" else "spot")
      && m.gpuTypes == Distinct(AllTypes(reqs))
      && m.maxVram == 0 && m.nodeType == "" && m.minPcieGen == 0 && !m.multiGpu
  }

  lemma SumOfOne(r: Requirements)
    ensures TotalCount([r]) == r.gpuCount && AllTypes([r]) == r.gpuTypes
  {
    assert [r][..0] == [];
  }

  /** The count is a sum over the parts, and the list of types their concatenation. */
  lemma {:induction false} SumOfParts(a: seq<Requirements>, b: seq<Requirements>)
    ensures TotalCount(a + b) == TotalCount(a) + TotalCount(b)
    ensures AllTypes(a + b) == AllTypes(a) + AllTypes(b)
  {
    if b == [] {
      assert a + b == a;
    } else {
      var n := |b| - 1;
      SumOfParts(a, b[..n]);
      assert (a + b)[..|a + b| - 1] == a + b[..n];
    }
  }

  method MergeRequirements(reqs: seq<Requirements>) returns (merged: Requirements)
    ensures IsMerge(reqs, merged)
  {
    if |reqs| == 0 { return NONE; }
    if |reqs| == 1 { return reqs[0]; }
    var count, vram, disk, ram, price, capacity := 0, 0, 0, 0, 0.0, "spot";
    var types: seq<string> := [];
    for i := 0 to |reqs|
      invariant count == TotalCount(reqs[..i]) && types == AllTypes(reqs[..i])
      invariant IsCeiling(vram, reqs[..i], Vram)
      invariant IsCeiling(disk, reqs[..i], Disk)
      invariant IsCeiling(ram, reqs[..i], Ram)
      invariant IsFloor(price, reqs[..i])
      invariant capacity == (if WantsOnDemand(reqs[..i]) then "on-demand" else "spot")
    {
      hide IsCeiling, IsFloor, WantsOnDemand;
      var r := reqs[i];
      CeilingStep(reqs, i, vram, Vram);
      CeilingStep(reqs, i, disk, Disk);
      CeilingStep(reqs, i, ram, Ram);
      FloorStep(reqs, i, price);
      CapacityStep(reqs, i);
      assert reqs[..i + 1][..i] == reqs[..i];
      count := count + r.gpuCount;
      if r.minVram > vram { vram := r.minVram; }
      if r.minDisk > disk { disk := r.minDisk; }
      if r.minRam > ram { ram := r.minRam; }
      if r.capacityType == "on-demand" { capacity := "on-demand"; }
      if r.maxPrice > 0.0 {
        if price == 0.0 || r.maxPrice < price { price := r.maxPrice; }
      }
      types := types + r.gpuTypes;
    }
    assert reqs[..|reqs|] == reqs;
    var unique := Deduplicate(types);
    merged := Requirements(count, vram, 0, unique, price, capacity, disk, ram, "", 0, false);
  }

  method Deduplicate(types: seq<string>) returns (unique: seq<string>)
    ensures unique == Distinct(types)
  {
    var seen: set<string> := {};
    unique := [];
    for i := 0 to |types|
      invariant unique == Distinct(types[..i])
      invariant forall t :: t in seen <==> t in types[..i]
    {
      assert types[..i + 1][..i] == types[..i];
      if types[i] !in seen {
        seen := seen + {types[i]};
        unique := unique + [types[i]];
      }
    }
    assert types[..|types|] == types;
  }

  function Larger(a: int, b: int): int {
    if b > a then b else a
  }

  lemma CeilingStep(reqs: seq<Requirements>, i: nat, m: int, f: Field)
    requires i < |reqs| && IsCeiling(m, reqs[..i], f)
    ensures IsCeiling(Larger(m, Get(f, reqs[i])), reqs[..i + 1], f)
  {
  }

  function LowerPrice(m: real, p: real): real {
    if p > 0.0 && (m == 0.0 || p < m) then p else m
  }

  lemma FloorStep(reqs: seq<Requirements>, i: nat, m: real)
    requires i < |reqs| && IsFloor(m, reqs[..i])
    ensures IsFloor(LowerPrice(m, reqs[i].maxPrice), reqs[..i + 1])
  {
  }

  lemma CapacityStep(reqs: seq<Requirements>, i: nat)
    requires i < |reqs|
    ensures WantsOnDemand(reqs[..i + 1]) <==> WantsOnDemand(reqs[..i]) || reqs[i].capacityType == "on-demand"
  {
  }

  // ---------------------------------------------------------------------------------------------
  // What merging means for the offers
  // ---------------------------------------------------------------------------------------------

  lemma CeilingMeans(reqs: seq<Requirements>, m: int, f: Field)
    requires IsCeiling(m, reqs, f)
    ensures m >= 0
    ensures forall r :: r in reqs ==> Get(f, r) <= m
    ensures m == 0 || exists r :: r in reqs && Get(f, r) == m
  {
  }

  /** Of several requests the merged one has the least minimums that cover all of them, the least positive
      price limit, and on-demand capacity exactly if one of them asks for it. */
  lemma MergedFields(reqs: seq<Requirements>, merged: Requirements)
    requires IsMerge(reqs, merged) && |reqs| > 1
    ensures merged.minVram >= 0 && merged.minDisk >= 0 && merged.minRam >= 0 && merged.maxPrice >= 0.0
    ensures forall r :: r in reqs ==>
              && merged.minVram >= r.minVram && merged.minDisk >= r.minDisk && merged.minRam >= r.minRam
              && (r.maxPrice > 0.0 ==> 0.0 < merged.maxPrice <= r.maxPrice)
    ensures merged.minVram == 0 || exists r :: r in reqs && r.minVram == merged.minVram
    ensures merged.minDisk == 0 || exists r :: r in reqs && r.minDisk == merged.minDisk
    ensures merged.minRam == 0 || exists r :: r in reqs && r.minRam == merged.minRam
    ensures merged.maxPrice == 0.0 || exists r :: r in reqs && r.maxPrice == merged.maxPrice
    ensures merged.capacityType == "on-demand" || merged.capacityType == "spot"
    ensures merged.capacityType == "on-demand" <==> exists r :: r in reqs && r.capacityType == "on-demand"
  {
    CeilingMeans(reqs, merged.minVram, Vram);
    CeilingMeans(reqs, merged.minDisk, Disk);
    CeilingMeans(reqs, merged.minRam, Ram);
    hide IsCeiling, TotalCount, AllTypes, Distinct;
  }

  lemma {:induction false} CountsAddUp(reqs: seq<Requirements>, i: nat)
    requires i < |reqs| && forall k :: 0 <= k < |reqs| ==> reqs[k].gpuCount >= 0
    ensures reqs[i].gpuCount <= TotalCount(reqs)
    ensures TotalCount(reqs) >= 0
  {
    var front := reqs[..|reqs| - 1];
    assert forall k :: 0 <= k < |front| ==> front[k] == reqs[k];
    if i < |front| {
      CountsAddUp(front, i);
    } else if front != [] {
      CountsAddUp(front, 0);
    }
  }

  /** Merging strengthens: an offer admitted for the batch is admitted for exactly those pods of it that ask
      for no capacity type or for the merged one. */
  lemma MergeStrengthens(reqs: seq<Requirements>, m: Requirements, o: Offer, i: nat)
    requires IsMerge(reqs, m) && i < |reqs|
    requires forall k :: 0 <= k < |reqs| ==> reqs[k].gpuCount >= 0
    requires reqs[i].maxVram <= 0
    requires Admits(m, o)
    ensures Admits(reqs[i], o) <==> reqs[i].capacityType == "" || reqs[i].capacityType == m.capacityType
  {
    if |reqs| > 1 {
      var r := reqs[i];
      CountsAddUp(reqs, i);
      assert Get(Vram, r) <= m.minVram && Get(Disk, r) <= m.minDisk && Get(Ram, r) <= m.minRam;
    }
  }

  /** A merged request of two or more pods can be met by some offer exactly when the pods ask for at most
      one GPU in all: merging sums the counts and never allows several GPUs. */
  lemma MergedSatisfiable(reqs: seq<Requirements>, m: Requirements)
    requires IsMerge(reqs, m) && |reqs| >= 2
    ensures (exists o :: Admits(m, o)) <==> TotalCount(reqs) <= 1
  {
    if TotalCount(reqs) <= 1 {
      var o := Offer("", "", "", 1, m.minVram, m.maxPrice, m.capacityType, 0.0, 0, 0);
      assert Admits(m, o);
    }
  }

  // ---------------------------------------------------------------------------------------------
  // The merged GPU types
  // ---------------------------------------------------------------------------------------------

  function FirstIndex(s: seq<string>, t: string): (i: nat)
    requires t in s
    ensures i < |s| && s[i] == t && t !in s[..i]
  {
    if s[0] == t then 0
    else
      var k := FirstIndex(s[1..], t);
      assert s[..k + 1] == [s[0]] + s[1..][..k];
      k + 1
  }

  lemma FirstIndexPrefix(s: seq<string>, n: nat, t: string)
    requires n <= |s| && t in s[..n]
    ensures FirstIndex(s, t) == FirstIndex(s[..n], t)
  {
  }

  /** The merged types are the same set, without duplicates, in the order of first occurrence. */
  lemma {:induction false} DistinctIsFirstOccurrences(s: seq<string>)
    ensures forall t :: t in Distinct(s) <==> t in s
    ensures forall i, j :: 0 <= i < j < |Distinct(s)| ==>
              Distinct(s)[i] in s && Distinct(s)[j] in s &&
              FirstIndex(s, Distinct(s)[i]) < FirstIndex(s, Distinct(s)[j])
  {
    if s != [] {
      var front, last := s[..|s| - 1], s[|s| - 1];
      DistinctIsFirstOccurrences(front);
      assert s == front + [last];
      var d, e := Distinct(front), Distinct(s);
      forall i, j | 0 <= i < j < |e| ensures e[i] in s && e[j] in s && FirstIndex(s, e[i]) < FirstIndex(s, e[j]) {
        assert e[i] == d[i] && e[i] in front;
        FirstIndexPrefix(s, |front|, e[i]);
        if j < |d| {
          assert e[j] == d[j] && e[j] in front;
          FirstIndexPrefix(s, |front|, e[j]);
        }
      }
    }
  }
}
