/**
 The cache of offer searches, seen by sequential callers.
 */
module Cache {
  import opened Keys
  import opened Numbers
  import opened Offers

  function Digit(d: int): char
    requires 0 <= d < 10
  {
    '0' + d as char
  }

  function Decimal(n: int): string
    decreases if n < 0 then 1 - n else n
  {
    if n < 0 then "-" + Decimal(-n)
    else if n < 10 then [Digit(n)]
    else Decimal(n / 10) + [Digit(n % 10)]
  }

  /** The nearest cent. */
  function Cents(p: real): (c: int)
    ensures c as real - 0.5 <= p * 100.0 < c as real + 0.5
  {
    (p * 100.0 + 0.5).Floor
  }

  /** An amount of cents with two decimals. */
  function Money(cents: int): string {
    if cents < 0 then "-" + (Decimal(-cents / 100) + "." + TwoDigits(-cents % 100))
    else Decimal(cents / 100) + "." + TwoDigits(cents % 100)
  }

  function TwoDigits(n: int): string
    requires 0 <= n < 100
  {
    [Digit(n / 10), Digit(n % 10)]
  }

  function Join(parts: seq<string>): string {
    if parts == [] then "" else if |parts| == 1 then parts[0] else parts[0] + "," + Join(parts[1..])
  }

  function TypesField(r: Requirements): string {
    if r.gpuTypes == [] then "any" else Join(r.gpuTypes)
  }

  /** The part of the key that stands for the request. It leaves out the VRAM ceiling, the node type, the PCIe
      generation and whether several GPUs are allowed. */
  function RequestKey(r: Requirements): string {
    Key(Decimal(r.gpuCount),
        Key(Decimal(r.minVram),
            Key(Money(Cents(r.maxPrice)),
                Key(r.capacityType, Key(TypesField(r), Key(Decimal(r.minDisk), Decimal(r.minRam)))))))
  }

  function CacheKey(provider: string, r: Requirements): string {
    Key(provider, RequestKey(r))
  }

  datatype Entry = Entry(offers: seq<Offer>, fetchedAt: int)

  /** What the rate limiter and the provider's search give. */
  datatype Search = SearchFailed | Found(offers: seq<Offer>)

  class OfferCache {
    var entries: map<string, Entry>
    const ttl: int

    constructor (ttl: int)
      ensures entries == map[] && this.ttl == ttl
    {
      entries := map[];
      this.ttl := ttl;
    }

    /** An entry younger than the time to live is returned without a search; otherwise the search is stored if
        it succeeds. */
    method GetOffers(provider: string, r: Requirements, now: int, search: Search, later: int)
      returns (result: Search)
      requires now <= later
      modifies this`entries
      ensures var key := CacheKey(provider, r);
              if key in old(entries) && now - old(entries)[key].fetchedAt < ttl then
                result == Found(old(entries)[key].offers) && entries == old(entries)
              else
                && result == search
                && entries == if search.Found? then old(entries)[key := Entry(search.offers, later)] else old(entries)
    {
      var key := CacheKey(provider, r);
      if key in entries && now - entries[key].fetchedAt < ttl {
        return Found(entries[key].offers);
      }
      if search.Found? {
        entries := entries[key := Entry(search.offers, later)];
      }
      return search;
    }

    /** Removes the entries whose key starts with the provider's name and ':'. */
    method Invalidate(provider: string)
      modifies this`entries
      ensures entries.Keys == set k | k in old(entries) && !HasPrefix(k, provider)
      ensures forall k :: k in entries ==> entries[k] == old(entries)[k]
    {
      var todo := entries.Keys;
      while todo != {}
        invariant todo <= entries.Keys <= old(entries.Keys)
        invariant forall k :: k in old(entries) && !HasPrefix(k, provider) ==> k in entries
        invariant forall k :: k in entries && k !in todo ==> !HasPrefix(k, provider)
        invariant forall k :: k in entries ==> entries[k] == old(entries)[k]
      {
        var key :| key in todo;
        todo := todo - {key};
        if provider + ":" <= key {
          ghost var was := entries;
          entries := entries - {key};
          assert forall k :: k in entries <==> k in was && k != key;
        }
      }
    }
  }

  /** For one request the key tells the provider. */
  lemma KeyOfProvider(p: string, q: string, r: Requirements)
    ensures CacheKey(p, r) == CacheKey(q, r) <==> p == q
  {
    if CacheKey(p, r) == CacheKey(q, r) {
      assert CacheKey(p, r)[..|p|] == p && CacheKey(q, r)[..|q|] == q;
    }
  }

  /** Whether invalidating `p` removes the entries of `q`: always if the names are equal or `q` extends `p`
      by ':', never if neither name extends the other. */
  lemma InvalidateHits(p: string, q: string, r: Requirements)
    ensures p == q || Extends(q, p) ==> HasPrefix(CacheKey(q, r), p)
    ensures p != q && !Extends(q, p) && !Extends(p, q) ==> !HasPrefix(CacheKey(q, r), p)
  {
    PrefixHits(p, q, RequestKey(r));
  }

  /** With provider names without ':', invalidating removes exactly the named provider's entries. */
  lemma InvalidateExact(p: string, q: string, r: Requirements)
    requires NoColon(p) && NoColon(q)
    ensures HasPrefix(CacheKey(q, r), p) <==> p == q
  {
    InvalidateHits(p, q, r);
  }

  // ---------------------------------------------------------------------------------------------
  // Which requests share an entry
  // ---------------------------------------------------------------------------------------------

  predicate IsDigit(c: char) {
    '0' <= c <= '9'
  }

  lemma {:induction false} DecimalDigits(n: nat)
    ensures |Decimal(n)| > 0 && forall i :: 0 <= i < |Decimal(n)| ==> IsDigit(Decimal(n)[i])
  {
    if n >= 10 { DecimalDigits(n / 10); }
  }

  lemma {:induction false} NaturalInjective(m: nat, n: nat)
    ensures Decimal(m) == Decimal(n) ==> m == n
  {
    if Decimal(m) == Decimal(n) {
      var d := Decimal(m);
      DecimalDigits(m / 10);
      DecimalDigits(n / 10);
      assert d[|d| - 1] == Digit(m % 10) == Digit(n % 10);
      if m >= 10 && n >= 10 {
        assert d[..|d| - 1] == Decimal(m / 10) == Decimal(n / 10);
        NaturalInjective(m / 10, n / 10);
      }
    }
  }

  /** A number is determined by its decimal form, which has no ':'. */
  lemma DecimalInjective(m: int, n: int)
    ensures Decimal(m) == Decimal(n) <==> m == n
    ensures NoColon(Decimal(m))
  {
    DecimalDigits(if m < 0 then -m else m);
    DecimalDigits(if n < 0 then -n else n);
    if Decimal(m) == Decimal(n) {
      assert (m < 0) == (Decimal(m)[0] == '-') && (n < 0) == (Decimal(n)[0] == '-');
      if m < 0 {
        assert Decimal(m)[1..] == Decimal(-m) && Decimal(n)[1..] == Decimal(-n);
        NaturalInjective(-m, -n);
      } else {
        NaturalInjective(m, n);
      }
    }
  }

  lemma TwoDigitsInjective(m: int, n: int)
    requires 0 <= m < 100 && 0 <= n < 100
    ensures TwoDigits(m) == TwoDigits(n) <==> m == n
  {
    if TwoDigits(m) == TwoDigits(n) {
      assert TwoDigits(m)[0] == TwoDigits(n)[0] && TwoDigits(m)[1] == TwoDigits(n)[1];
    }
  }

  function Unsigned(cents: nat): string {
    Decimal(cents / 100) + "." + TwoDigits(cents % 100)
  }

  lemma UnsignedInjective(m: nat, n: nat)
    ensures Unsigned(m) == Unsigned(n) <==> m == n
    ensures NoColon(Unsigned(m)) && Unsigned(m)[0] != '-'
  {
    DecimalDigits(m / 100);
    DecimalDigits(n / 100);
    var u, v := Unsigned(m), Unsigned(n);
    if u == v {
      assert u[..|u| - 3] == Decimal(m / 100) && u[|u| - 2..] == TwoDigits(m % 100);
      assert v[..|v| - 3] == Decimal(n / 100) && v[|v| - 2..] == TwoDigits(n % 100);
      NaturalInjective(m / 100, n / 100);
      TwoDigitsInjective(m % 100, n % 100);
    }
  }

  lemma MoneyInjective(m: int, n: int)
    ensures Money(m) == Money(n) <==> m == n
    ensures NoColon(Money(m))
  {
    var a, b := if m < 0 then -m else m, if n < 0 then -n else n;
    UnsignedInjective(a, b);
    UnsignedInjective(b, a);
    assert m < 0 ==> Money(m) == "-" + Unsigned(a) && Money(m)[1..] == Unsigned(a);
    assert n < 0 ==> Money(n) == "-" + Unsigned(b) && Money(n)[1..] == Unsigned(b);
  }

  /** The two requests ask for the same as far as the key goes: the price counts in whole cents and the GPU types
      as one joined text. */
  predicate SameEntry(r: Requirements, s: Requirements) {
    && r.gpuCount == s.gpuCount && r.minVram == s.minVram && Cents(r.maxPrice) == Cents(s.maxPrice)
    && r.capacityType == s.capacityType && TypesField(r) == TypesField(s)
    && r.minDisk == s.minDisk && r.minRam == s.minRam
  }

  lemma SamePart(a: string, x: string, b: string, y: string)
    requires NoColon(a) && NoColon(b)
    ensures Key(a, x) == Key(b, y) <==> a == b && x == y
  {
    KeyInjective(a, x, b, y);
  }

  /** Two requests share the entry of a provider if and only if they agree on these seven fields. */
  lemma SharedExactlyWhen(provider: string, r: Requirements, s: Requirements)
    requires NoColon(r.capacityType) && NoColon(s.capacityType) && NoColon(TypesField(r)) && NoColon(TypesField(s))
    ensures CacheKey(provider, r) == CacheKey(provider, s) <==>
            && r.gpuCount == s.gpuCount && r.minVram == s.minVram && Cents(r.maxPrice) == Cents(s.maxPrice)
            && r.capacityType == s.capacityType && TypesField(r) == TypesField(s)
            && r.minDisk == s.minDisk && r.minRam == s.minRam
  {
    hide Decimal, Money, TypesField, Key;
    DecimalInjective(r.gpuCount, s.gpuCount);
    DecimalInjective(s.gpuCount, r.gpuCount);
    DecimalInjective(r.minVram, s.minVram);
    DecimalInjective(s.minVram, r.minVram);
    MoneyInjective(Cents(r.maxPrice), Cents(s.maxPrice));
    MoneyInjective(Cents(s.maxPrice), Cents(r.maxPrice));
    DecimalInjective(r.minDisk, s.minDisk);
    DecimalInjective(s.minDisk, r.minDisk);
    DecimalInjective(r.minRam, s.minRam);
    var r1, s1 := Key(Decimal(r.minDisk), Decimal(r.minRam)), Key(Decimal(s.minDisk), Decimal(s.minRam));
    var r2, s2 := Key(TypesField(r), r1), Key(TypesField(s), s1);
    var r3, s3 := Key(r.capacityType, r2), Key(s.capacityType, s2);
    var r4, s4 := Key(Money(Cents(r.maxPrice)), r3), Key(Money(Cents(s.maxPrice)), s3);
    var r5, s5 := Key(Decimal(r.minVram), r4), Key(Decimal(s.minVram), s4);
    SamePart(Decimal(r.minDisk), Decimal(r.minRam), Decimal(s.minDisk), Decimal(s.minRam));
    SamePart(TypesField(r), r1, TypesField(s), s1);
    SamePart(r.capacityType, r2, s.capacityType, s2);
    SamePart(Money(Cents(r.maxPrice)), r3, Money(Cents(s.maxPrice)), s3);
    SamePart(Decimal(r.minVram), r4, Decimal(s.minVram), s4);
    SamePart(Decimal(r.gpuCount), r5, Decimal(s.gpuCount), s5);
    SameRest(provider, RequestKey(r), RequestKey(s));
  }

  lemma SameRest(provider: string, x: string, y: string)
    ensures Key(provider, x) == Key(provider, y) <==> x == y
  {
    assert Key(provider, x)[|provider| + 1..] == x && Key(provider, y)[|provider| + 1..] == y;
  }

  /** An offer that fits one of two requests that share an entry fits the other exactly if it also meets what the
      key leaves out: the VRAM ceiling per GPU, whether several GPUs are allowed, and fractions of a cent. */
  lemma CachedOffersFitExactlyWhen(r: Requirements, s: Requirements, o: Offer)
    requires SameEntry(r, s) && Admits(r, o)
    ensures Admits(s, o) <==>
            && (s.maxPrice > 0.0 ==> o.price <= s.maxPrice)
            && (s.maxVram > 0 && o.gpuCount > 0 ==> Quotient(o.vram, o.gpuCount) <= s.maxVram)
            && (s.multiGpu || o.gpuCount <= 1)
  {
  }

  /** Whatever stands in the four fields left out, the entry is the same; and a request for several GPUs that does
      not allow them admits no offer that the entry may hold for one that does. */
  lemma SharedEntry(provider: string, r: Requirements, maxVram: int, nodeType: string, minPcieGen: int, multiGpu: bool)
    ensures var s := r.(maxVram := maxVram, nodeType := nodeType, minPcieGen := minPcieGen, multiGpu := multiGpu);
            && CacheKey(provider, r) == CacheKey(provider, s)
            && (r.gpuCount > 1 && !multiGpu ==> forall o :: !Admits(s, o))
  {
  }

  predicate PlainName(name: string) {
    name != "" && ',' !in name
  }

  predicate PlainNames(names: seq<string>) {
    forall n :: n in names ==> PlainName(n)
  }

  lemma CommaInside(a: string, x: string, b: string, y: string)
    requires a + "," + x == b + y && |a| < |b|
    ensures ',' in b
  {
    assert (a + "," + x)[|a|] == ',' && b[|a|] == (b + y)[|a|];
  }

  lemma FirstName(a: string, x: string, b: string, y: string)
    requires PlainName(a) && PlainName(b) && a + "," + x == b + "," + y
    ensures a == b && x == y
  {
    var whole := a + "," + x;
    assert whole == b + ("," + y) && whole == a + ("," + x);
    if |a| < |b| {
      CommaInside(a, x, b, "," + y);
    } else if |b| < |a| {
      CommaInside(b, y, a, "," + x);
    } else {
      assert a == whole[..|a|] && b == whole[..|b|] && x == whole[|a| + 1..] && y == whole[|b| + 1..];
    }
  }

  lemma JoinedInside(a: seq<string>, b: string)
    requires |a| > 1 && PlainNames(a) && Join(a) == b
    ensures ',' in b
  {
    assert b[|a[0]|] == ',';
  }

  lemma {:induction false} JoinInjective(a: seq<string>, b: seq<string>)
    requires a != [] && b != [] && PlainNames(a) && PlainNames(b) && Join(a) == Join(b)
    ensures a == b
  {
    var x, y := a[0], b[0];
    assert a == [x] + a[1..] && b == [y] + b[1..] && PlainName(x) && PlainName(y);
    if |a| > 1 && |b| > 1 {
      FirstName(x, Join(a[1..]), y, Join(b[1..]));
      JoinInjective(a[1..], b[1..]);
    } else if |a| > 1 {
      JoinedInside(a, y);
    } else if |b| > 1 {
      JoinedInside(b, x);
    }
  }

  /** With nonempty type names without a comma, of which "any" is not one, the joined text determines the list. */
  lemma TypesFieldInjective(r: Requirements, s: Requirements)
    requires PlainNames(r.gpuTypes) && PlainNames(s.gpuTypes) && "any" !in r.gpuTypes && "any" !in s.gpuTypes
    ensures TypesField(r) == TypesField(s) <==> r.gpuTypes == s.gpuTypes
  {
    var rs, ss := if r.gpuTypes == [] then ["any"] else r.gpuTypes, if s.gpuTypes == [] then ["any"] else s.gpuTypes;
    if TypesField(r) == TypesField(s) {
      JoinInjective(rs, ss);
      assert "any" in ["any"];
    }
  }

  /** The joined text of the GPU types is ambiguous: no types and the type "any", or a list and one name with a
      comma, give the same entry. */
  lemma TypesShareEntry(provider: string, r: Requirements)
    ensures CacheKey(provider, r.(gpuTypes := [])) == CacheKey(provider, r.(gpuTypes := ["any"]))
    ensures CacheKey(provider, r.(gpuTypes := ["a", "b"])) == CacheKey(provider, r.(gpuTypes := ["a,b"]))
  {
    assert ["a", "b"][1..] == ["b"];
  }
}
