/**
 The string keys "provider:rest" shared by the offer cache and the blacklist.
 */
module Keys {

  function Key(provider: string, rest: string): string {
    provider + ":" + rest
  }

  /** Every key of provider `q` starts like a key of provider `p`: `q` is `p` followed by ':' and something. */
  predicate Extends(q: string, p: string) {
    |p| < |q| && p <= q && q[|p|] == ':'
  }

  predicate NoColon(p: string) {
    ':' !in p
  }

  predicate HasPrefix(key: string, provider: string) {
    provider + ":" <= key
  }

  /** The prefix test of Invalidate hits a key of `q` exactly if `q` is the provider meant, or extends it, or
      the provider extends `q` inside this very key. */
  lemma PrefixHits(p: string, q: string, rest: string)
    ensures HasPrefix(Key(q, rest), p) <==>
            p == q || Extends(q, p) || (Extends(p, q) && p[|q| + 1..] + ":" <= rest)
  {
    var k := Key(q, rest);
    if |p| < |q| {
      assert HasPrefix(k, p) <==> Extends(q, p) by {
        if HasPrefix(k, p) {
          assert k[..|p| + 1] == q[..|p| + 1];
          assert (p + ":")[|p|] == ':';
          assert k[|p|] == q[|p|];
        }
        if Extends(q, p) { assert k[..|p| + 1] == p + ":"; }
      }
    } else if |p| == |q| {
      assert HasPrefix(k, p) <==> p == q by {
        if HasPrefix(k, p) { assert k[..|p|] == q && (p + ":")[..|p|] == p; }
      }
    } else {
      LongPrefix(p, q, rest);
    }
  }

  lemma LongPrefix(p: string, q: string, rest: string)
    requires |p| > |q|
    ensures HasPrefix(Key(q, rest), p) <==> Extends(p, q) && p[|q| + 1..] + ":" <= rest
  {
    var k := Key(q, rest);
    var tail := p[|q| + 1..] + ":";
    if HasPrefix(k, p) {
      assert k[..|q|] == q && (p + ":")[..|q|] == p[..|q|];
      assert p[|q|] == (p + ":")[|q|] == k[|q|] == ':';
      assert k[|q| + 1..] == rest;
      assert (p + ":")[|q| + 1..] == tail;
      assert k[..|p| + 1] == p + ":";
      assert rest[..|tail|] == k[|q| + 1..|p| + 1];
    }
    if Extends(p, q) && tail <= rest {
      assert p == q + ":" + p[|q| + 1..];
      assert p + ":" == q + ":" + tail;
      assert rest == tail + rest[|tail|..];
      assert k == q + ":" + tail + rest[|tail|..];
    }
  }

  /** Two providers share a key exactly if one of the names extends the other by ':'. */
  lemma KeysCollide(p: string, q: string)
    requires p != q
    ensures (exists a, b :: Key(p, a) == Key(q, b)) <==> Extends(p, q) || Extends(q, p)
  {
    if exists a, b :: Key(p, a) == Key(q, b) {
      var a, b :| Key(p, a) == Key(q, b);
      assert p + ":" <= Key(p, a);
      assert HasPrefix(Key(q, b), p);
      PrefixHits(p, q, b);
    }
    if Extends(p, q) {
      assert p == q + ":" + p[|q| + 1..];
      assert Key(p, "") == Key(q, p[|q| + 1..] + ":");
    }
    if Extends(q, p) {
      assert q == p + ":" + q[|p| + 1..];
      assert Key(p, q[|p| + 1..] + ":") == Key(q, "");
    }
  }

  /** Keys of provider names without ':' determine provider and rest. */
  lemma KeyInjective(p: string, a: string, q: string, b: string)
    requires NoColon(p) && NoColon(q)
    ensures Key(p, a) == Key(q, b) <==> p == q && a == b
  {
    if Key(p, a) == Key(q, b) {
      if p != q { KeysCollide(p, q); }
      assert Key(p, a)[|p| + 1..] == a && Key(q, b)[|q| + 1..] == b;
    }
  }
}
