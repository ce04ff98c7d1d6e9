/**
 The blacklist of failed offers: entries expire, and expired ones are cleaned up lazily. It is proved
 against the plain history of everything that was ever added.
 */
module Blacklist {
  import opened Keys
  import opened Offers

  datatype Ban = Ban(provider: string, offer: string, expiry: int)

  datatype Expiry = Never | At(t: int)

  /** The expiry of the last ban under a key: the last write wins. */
  function LastByKey(log: seq<Ban>, key: string): Expiry {
    if log == [] then Never
    else
      var b := log[|log| - 1];
      if Key(b.provider, b.offer) == key then At(b.expiry) else LastByKey(log[..|log| - 1], key)
  }

  predicate Blocked(log: seq<Ban>, key: string, now: int) {
    var e := LastByKey(log, key);
    e.At? && now < e.t
  }

  predicate OfferBlocked(log: seq<Ban>, o: Offer, now: int) {
    Blocked(log, Key(o.provider, o.id), now)
  }

  /** The offers the history does not block, in order. */
  function Available(log: seq<Ban>, offers: seq<Offer>, now: int): seq<Offer> {
    Keep(offers, o => !OfferBlocked(log, o, now))
  }

  function BlockedKeys(log: seq<Ban>, now: int): set<string> {
    set i | 0 <= i < |log| && Blocked(log, Key(log[i].provider, log[i].offer), now)
      :: Key(log[i].provider, log[i].offer)
  }

  class OfferBlacklist {
    var entries: map<string, int>
    const ttl: int
    ghost var log: seq<Ban>
    ghost var clock: int  // no later than now

    ghost predicate Valid()
      reads this
    {
      && (forall k :: k in entries ==> LastByKey(log, k) == At(entries[k]))
      && (forall k :: k !in entries && LastByKey(log, k).At? ==> LastByKey(log, k).t < clock)
    }

    constructor (ttl: int, now: int)
      ensures Valid() && log == [] && clock == now && this.ttl == ttl
    {
      entries := map[];
      this.ttl := ttl;
      log := [];
      clock := now;
    }

    method Add(provider: string, offer: string, now: int)
      requires Valid() && clock <= now
      modifies this
      ensures Valid() && clock == now && log == old(log) + [Ban(provider, offer, now + ttl)]
    {
      AddWithTtl(provider, offer, ttl, now);
    }

    method AddWithTtl(provider: string, offer: string, t: int, now: int)
      requires Valid() && clock <= now
      modifies this
      ensures Valid() && clock == now && log == old(log) + [Ban(provider, offer, now + t)]
    {
      entries := entries[Key(provider, offer) := now + t];
      log := log + [Ban(provider, offer, now + t)];
      clock := now;
      assert log[..|log| - 1] == old(log);
    }

    /** Drops what has expired. */
    method Cleanup(now: int)
      requires Valid() && clock <= now
      modifies this`entries, this`clock
      ensures Valid() && clock == now
      ensures forall k :: k in entries ==> now <= entries[k]
    {
      var todo := entries.Keys;
      clock := now;
      while todo != {}
        invariant todo <= entries.Keys
        invariant Valid() && clock == now
        invariant forall k :: k in entries && k !in todo ==> now <= entries[k]
      {
        var k :| k in todo;
        todo := todo - {k};
        if now > entries[k] {
          ghost var was := entries;
          entries := entries - {k};
          assert forall j :: j in entries <==> j in was && j != k;
        }
      }
    }

    /** Filter keeps, in order, exactly the offers that the history does not block now. */
    method Filter(offers: seq<Offer>, now: int) returns (result: seq<Offer>)
      requires Valid() && clock <= now
      modifies this`entries, this`clock
      ensures Valid() && clock == now
      ensures result == Available(log, offers, now)
    {
      Cleanup(now);
      result := [];
      for i := 0 to |offers|
        invariant result == Available(log, offers[..i], now)
      {
        var o := offers[i];
        assert offers[..i + 1][..i] == offers[..i];
        var key := Key(o.provider, o.id);
        assert OfferBlocked(log, o, now) <==> key in entries && now < entries[key];
        if key in entries && now < entries[key] {
          continue;
        }
        result := result + [o];
      }
      assert offers[..|offers|] == offers;
    }

    /** Size counts exactly the keys that the history blocks now, cleaned up or not. */
    method Size(now: int) returns (count: nat)
      requires Valid() && clock <= now
      ensures count == |BlockedKeys(log, now)|
    {
      count := 0;
      var todo := entries.Keys;
      ghost var counted: set<string> := {};
      while todo != {}
        invariant todo <= entries.Keys
        invariant counted == set k | k in entries && k !in todo && now < entries[k]
        invariant count == |counted|
      {
        var k :| k in todo;
        todo := todo - {k};
        if now < entries[k] {
          count := count + 1;
          counted := counted + {k};
        }
      }
      forall k ensures k in counted <==> k in BlockedKeys(log, now) {
        BlockedKeyLogged(log, k, now);
      }
      assert counted == BlockedKeys(log, now);
    }
  }

  lemma {:induction false} BlockedKeyLogged(log: seq<Ban>, key: string, now: int)
    ensures key in BlockedKeys(log, now) <==> Blocked(log, key, now)
  {
    if Blocked(log, key, now) {
      LastByKeyLogged(log, key);
    }
  }

  lemma {:induction false} LastByKeyLogged(log: seq<Ban>, key: string)
    requires LastByKey(log, key).At?
    ensures exists i :: 0 <= i < |log| && Key(log[i].provider, log[i].offer) == key
  {
    var b := log[|log| - 1];
    if Key(b.provider, b.offer) != key {
      LastByKeyLogged(log[..|log| - 1], key);
      var i :| 0 <= i < |log| - 1 && Key(log[..|log| - 1][i].provider, log[..|log| - 1][i].offer) == key;
      assert log[i] == log[..|log| - 1][i];
    }
  }

  // ---------------------------------------------------------------------------------------------
  // In terms of offers instead of keys
  // ---------------------------------------------------------------------------------------------

  function LastByOffer(log: seq<Ban>, provider: string, offer: string): Expiry {
    if log == [] then Never
    else
      var b := log[|log| - 1];
      if b.provider == provider && b.offer == offer then At(b.expiry)
      else LastByOffer(log[..|log| - 1], provider, offer)
  }

  /** With provider names without ':', a ban hits exactly the offer it was put on. */
  lemma {:induction false} BanIsPerOffer(log: seq<Ban>, provider: string, offer: string)
    requires NoColon(provider) && forall i :: 0 <= i < |log| ==> NoColon(log[i].provider)
    ensures LastByKey(log, Key(provider, offer)) == LastByOffer(log, provider, offer)
  {
    if log != [] {
      var b := log[|log| - 1];
      KeyInjective(b.provider, b.offer, provider, offer);
      BanIsPerOffer(log[..|log| - 1], provider, offer);
    }
  }

  /** A later ban never makes an offer available that it does not name. */
  lemma BanAdded(log: seq<Ban>, b: Ban, key: string, now: int)
    ensures Blocked(log + [b], key, now) <==>
            if Key(b.provider, b.offer) == key then now < b.expiry else Blocked(log, key, now)
  {
    assert (log + [b])[..|log|] == log;
  }
}
