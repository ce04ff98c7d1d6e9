/**
 Offers, requirements and the order in which offers are tried.
 */
module Offers {
  import opened Numbers

  /** Prices and reliabilities are exact numbers here; VRAM and disk are in GB. */
  datatype Requirements = Requirements(gpuCount: int, minVram: int, maxVram: int, gpuTypes: seq<string>,
                                       maxPrice: real, capacityType: string, minDisk: int, minRam: int,
                                       nodeType: string, minPcieGen: int, multiGpu: bool)

  datatype Offer = Offer(provider: string, id: string, gpuType: string, gpuCount: int, vram: int,
                         price: real, capacityType: string, reliability: real, diskGb: int, ramGb: int)

  /** The hard constraints of a request. GPU types are a preference, not a constraint. */
  predicate Admits(r: Requirements, o: Offer) {
    && (r.gpuCount > 0 ==> o.gpuCount >= r.gpuCount)
    && (r.minVram > 0 ==> o.vram >= r.minVram)
    && (r.maxVram > 0 && o.gpuCount > 0 ==> Quotient(o.vram, o.gpuCount) <= r.maxVram)
    && (r.maxPrice > 0.0 ==> o.price <= r.maxPrice)
    && (r.capacityType != "" ==> o.capacityType == r.capacityType)
    && (!r.multiGpu ==> o.gpuCount <= 1)
    && (r.minDisk > 0 && o.diskGb > 0 ==> o.diskGb >= r.minDisk)
    && (r.minRam > 0 && o.ramGb > 0 ==> o.ramGb >= r.minRam)
  }

  /** The elements that satisfy `p`, in order. */
  function Keep<T(!new)>(s: seq<T>, p: T -> bool): (kept: seq<T>)
    ensures forall x :: x in kept <==> x in s && p(x)
    ensures |kept| <= |s|
  {
    if s == [] then []
    else
      var front := Keep(s[..|s| - 1], p);
      var last := s[|s| - 1];
      assert s == s[..|s| - 1] + [last];
      if p(last) then front + [last] else front
  }

  /** Keeping goes part by part, so it neither reorders nor repeats anything. */
  lemma {:induction false} KeepParts<T(!new)>(s: seq<T>, t: seq<T>, p: T -> bool)
    ensures Keep(s + t, p) == Keep(s, p) + Keep(t, p)
    ensures |t| == 1 ==> Keep(t, p) == if p(t[0]) then t else []
  {
    if t == [] {
      assert s + t == s;
    } else {
      assert (s + t)[..|s + t| - 1] == s + t[..|t| - 1];
      KeepParts(s, t[..|t| - 1], p);
    }
  }

  lemma TimesMonotone(a: int, b: int, n: nat)
    requires a <= b
    ensures a * n <= b * n
  {
  }

  lemma Divided(a: nat, n: nat, bound: nat)
    requires n > 0
    ensures a / n >= 0 && (a / n < bound <==> a < bound * n)
  {
    var q, rest := a / n, a % n;
    assert a == q * n + rest;
    if q < bound {
      TimesMonotone(q + 1, bound, n);
    } else {
      TimesMonotone(bound, q, n);
    }
  }

  /** The VRAM ceiling is per GPU, by truncated division. */
  lemma PerGpu(vram: int, gpuCount: int, maxVram: int)
    requires gpuCount > 0 && maxVram > 0
    ensures Quotient(vram, gpuCount) <= maxVram <==> vram < (maxVram + 1) * gpuCount
  {
    if vram >= 0 {
      Divided(vram, gpuCount, maxVram + 1);
    } else {
      Divided(-vram, gpuCount, 0);
      TimesMonotone(0, maxVram + 1, gpuCount);
    }
  }

  /** Enough GPUs, VRAM, disk and memory, not too much VRAM per GPU, the capacity asked for, not above the
      price, and one GPU unless more are allowed. A limit of zero and an unknown disk or memory size do not
      count. */
  lemma AdmitsExactlyWhen(r: Requirements, o: Offer)
    ensures Admits(r, o) <==>
              && (r.gpuCount <= 0 || o.gpuCount >= r.gpuCount)
              && (r.minVram <= 0 || o.vram >= r.minVram)
              && (r.maxVram <= 0 || o.gpuCount <= 0 || o.vram < (r.maxVram + 1) * o.gpuCount)
              && (r.maxPrice <= 0.0 || o.price <= r.maxPrice)
              && (r.capacityType == "" || o.capacityType == r.capacityType)
              && (r.multiGpu || o.gpuCount <= 1)
              && (r.minDisk <= 0 || o.diskGb <= 0 || o.diskGb >= r.minDisk)
              && (r.minRam <= 0 || o.ramGb <= 0 || o.ramGb >= r.minRam)
  {
    if r.maxVram > 0 && o.gpuCount > 0 {
      PerGpu(o.vram, o.gpuCount, r.maxVram);
    }
  }

  /** The admitted offers, in order. */
  method FilterByRequirements(offers: seq<Offer>, r: Requirements) returns (result: seq<Offer>)
    ensures result == Keep(offers, o => Admits(r, o))
  {
    hide Quotient;
    result := [];
    for i := 0 to |offers|
      invariant result == Keep(offers[..i], o => Admits(r, o))
    {
      var o := offers[i];
      assert offers[..i + 1][..i] == offers[..i];
      if r.gpuCount > 0 && o.gpuCount < r.gpuCount { continue; }
      if r.minVram > 0 && o.vram < r.minVram { continue; }
      if r.maxVram > 0 && o.gpuCount > 0 && Quotient(o.vram, o.gpuCount) > r.maxVram { continue; }
      if r.maxPrice > 0.0 && o.price > r.maxPrice { continue; }
      if r.capacityType != "" && o.capacityType != r.capacityType { continue; }
      if !r.multiGpu && o.gpuCount > 1 { continue; }
      if r.minDisk > 0 && o.diskGb > 0 && o.diskGb < r.minDisk { continue; }
      if r.minRam > 0 && o.ramGb > 0 && o.ramGb < r.minRam { continue; }
      result := result + [o];
    }
    assert offers[..|offers|] == offers;
  }

  // ---------------------------------------------------------------------------------------------
  // Preferred GPU types
  // ---------------------------------------------------------------------------------------------

  function LowerChar(c: char): char {
    if 'A' <= c <= 'Z' then c - 'A' + 'a' else c
  }

  function ToLower(s: string): (lower: string)
    ensures |lower| == |s|
    ensures forall i :: 0 <= i < |s| ==>
              if 'A' <= s[i] <= 'Z' then lower[i] as int - s[i] as int == 'a' as int - 'A' as int else lower[i] == s[i]
  {
    seq(|s|, i requires 0 <= i < |s| => LowerChar(s[i]))
  }

  predicate OccursAt(s: string, sub: string, i: nat) {
    i <= |s| && sub <= s[i..]
  }

  predicate Contains(s: string, sub: string) {
    exists i :: 0 <= i <= |s| && OccursAt(s, sub, i)
  }

  lemma ContainsParts(s: string, sub: string)
    ensures Contains(s, sub) <==> exists a: string, b: string :: s == a + sub + b
  {
    if Contains(s, sub) {
      var i :| 0 <= i <= |s| && OccursAt(s, sub, i);
      assert s == s[..i] + sub + s[i + |sub|..];
    }
    if exists a: string, b: string :: s == a + sub + b {
      var a: string, b: string :| s == a + sub + b;
      assert s[|a|..] == sub + b;
      assert OccursAt(s, sub, |a|);
    }
  }

  /** One name contains the other, ignoring case. */
  predicate Matches(gpuType: string, wanted: string) {
    Contains(ToLower(gpuType), ToLower(wanted)) || Contains(ToLower(wanted), ToLower(gpuType))
  }

  predicate Preferred(gpuType: string, wanted: seq<string>) {
    exists i :: 0 <= i < |wanted| && Matches(gpuType, wanted[i])
  }

  method IsPreferredGpu(gpuType: string, wanted: seq<string>) returns (preferred: bool)
    ensures preferred <==> Preferred(gpuType, wanted)
    ensures preferred <==>
              exists i :: && 0 <= i < |wanted|
                          && (|| Contains(ToLower(gpuType), ToLower(wanted[i]))
                              || Contains(ToLower(wanted[i]), ToLower(gpuType)))
  {
    for i := 0 to |wanted|
      invariant forall k :: 0 <= k < i ==> !Matches(gpuType, wanted[k])
    {
      var gpuLower, wantedLower := ToLower(gpuType), ToLower(wanted[i]);
      if gpuLower == wantedLower || Contains(gpuLower, wantedLower) || Contains(wantedLower, gpuLower) {
        ContainsSelf(gpuLower);
        assert Matches(gpuType, wanted[i]);
        return true;
      }
    }
    return false;
  }

  lemma ContainsSelf(s: string)
    ensures Contains(s, s)
  {
    assert OccursAt(s, s, 0);
  }

  // ---------------------------------------------------------------------------------------------
  // The order
  // ---------------------------------------------------------------------------------------------

  /** `a` is tried before `b`: preferred GPU types first, then fewer GPUs, then the lower price, then the
      higher reliability. */
  predicate Better(wanted: seq<string>, a: Offer, b: Offer) {
    var ap, bp := Preferred(a.gpuType, wanted), Preferred(b.gpuType, wanted);
    if ap != bp then ap
    else if a.gpuCount != b.gpuCount then a.gpuCount < b.gpuCount
    else if a.price != b.price then a.price < b.price
    else a.reliability > b.reliability
  }

  /** The comparator is a strict weak order: irreflexive, transitive, and with transitive ties. */
  lemma BetterIsStrictWeakOrder(wanted: seq<string>, a: Offer, b: Offer, c: Offer)
    ensures !Better(wanted, a, a)
    ensures Better(wanted, a, b) && Better(wanted, b, c) ==> Better(wanted, a, c)
    ensures Tied(wanted, a, b) && Tied(wanted, b, c) ==> Tied(wanted, a, c)
  {
  }

  predicate Tied(wanted: seq<string>, a: Offer, b: Offer) {
    !Better(wanted, a, b) && !Better(wanted, b, a)
  }

  ghost predicate Sorted(wanted: seq<string>, s: seq<Offer>) {
    forall i, j :: 0 <= i < j < |s| ==> !Better(wanted, s[j], s[i])
  }

  lemma BetterComesFirst(wanted: seq<string>, s: seq<Offer>, i: nat, j: nat)
    requires Sorted(wanted, s) && i < |s| && j < |s| && Better(wanted, s[i], s[j])
    ensures i < j
  {
  }

  /** Preferred types first; among offers of equal preference fewer GPUs first; among those of equal count the
      cheaper first; among those of equal price the more reliable first. The library sort may leave ties in any
      order; this one is an insertion sort. */
  method SortOffers(offers: seq<Offer>, wanted: seq<string>) returns (sorted: seq<Offer>)
    ensures Sorted(wanted, sorted) && multiset(sorted) == multiset(offers)
    ensures forall i, j :: 0 <= i < j < |sorted| ==>
              var a, b := sorted[i], sorted[j];
              && (Preferred(b.gpuType, wanted) ==> Preferred(a.gpuType, wanted))
              && (Preferred(a.gpuType, wanted) == Preferred(b.gpuType, wanted) ==>
                    && a.gpuCount <= b.gpuCount
                    && (a.gpuCount == b.gpuCount ==>
                          && a.price <= b.price
                          && (a.price == b.price ==> a.reliability >= b.reliability)))
  {
    sorted := [];
    for i := 0 to |offers|
      invariant Sorted(wanted, sorted) && multiset(sorted) == multiset(offers[..i])
    {
      sorted := Insert(sorted, offers[i], wanted);
      assert offers[..i + 1] == offers[..i] + [offers[i]];
    }
    assert offers[..|offers|] == offers;
  }

  method Insert(s: seq<Offer>, o: Offer, wanted: seq<string>) returns (r: seq<Offer>)
    requires Sorted(wanted, s)
    ensures Sorted(wanted, r) && multiset(r) == multiset(s) + multiset{o}
  {
    var k := |s|;
    while k > 0 && Better(wanted, o, s[k - 1])
      invariant 0 <= k <= |s|
      invariant forall i :: k <= i < |s| ==> Better(wanted, o, s[i])
    {
      k := k - 1;
    }
    r := s[..k] + [o] + s[k..];
    assert s == s[..k] + s[k..];
    InsertSorted(s, o, wanted, k);
  }

  lemma InsertSorted(s: seq<Offer>, o: Offer, wanted: seq<string>, k: nat)
    requires Sorted(wanted, s) && k <= |s|
    requires forall i :: k <= i < |s| ==> Better(wanted, o, s[i])
    requires k > 0 ==> !Better(wanted, o, s[k - 1])
    ensures Sorted(wanted, s[..k] + [o] + s[k..])
  {
  }
}
