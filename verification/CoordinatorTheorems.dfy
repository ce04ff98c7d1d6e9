/**
 What a provisioning call guarantees, however the providers answer.
 */
module CoordinatorTheorems {
  import opened Keys
  import opened Offers
  import opened Blacklist
  import opened Cache
  import opened Coordinator
  import opened Options

  /** What a chain says about its `k`th attempt. */
  lemma {:induction false} ChainAt(g: Given, attempts: seq<Attempt>, k: nat)
    requires Chain(g, attempts) && k < |attempts|
    ensures AttemptOk(g, k + 1, attempts[k]) && CallsBanned(attempts[k], g.ttl)
    ensures LogBounded(attempts[k].bansAfter, |g.log|, attempts[k].endedAt + g.ttl)
    ensures attempts[k].bans == if k == 0 then g.log else attempts[k - 1].bansAfter
    ensures !g.world.cancelled(k + 1)
    ensures k > 0 ==> Follows(k, attempts[k - 1], attempts[k], g.names)
  {
    hide AttemptOk, CallsBanned, LogBounded, Follows;
    var front := attempts[..|attempts| - 1];
    if k < |front| {
      ChainAt(g, front, k);
    }
  }

  /** The blacklist histories of an attempt follow on from those of the attempt before. */
  lemma LogsFollow(g: Given, attempts: seq<Attempt>, k: nat)
    requires Chain(g, attempts) && k < |attempts|
    ensures attempts[k].bans == (if k == 0 then g.log else attempts[k - 1].bansAfter)
    ensures attempts[k].bans <= attempts[k].bansAfter
    ensures |g.log| <= |attempts[k].bansAfter| && (k > 0 ==> |g.log| <= |attempts[k].bans|)
  {
    hide Chain, CallsBanned, Follows, Searched, Available, Sorted, Walked, EndingOk, Flat;
    ChainAt(g, attempts, k);
    if k > 0 { ChainAt(g, attempts, k - 1); }
  }

  /** Every attempt after the first starts without a cached search of any named provider, for whatever request:
      none of its keys is left. */
  lemma RetriesAreFresh(g: Given, attempts: seq<Attempt>, k: nat, name: string)
    requires Chain(g, attempts) && 0 < k < |attempts| && name in g.names
    ensures forall key :: key in attempts[k].keysBefore ==> !HasPrefix(key, name)
    ensures forall req :: CacheKey(name, req) !in attempts[k].keysBefore
  {
    ChainAt(g, attempts, k);
    forall req ensures CacheKey(name, req) !in attempts[k].keysBefore {
      InvalidateHits(name, name, req);
    }
  }

  /** When providers are named, a later attempt takes nothing from the cache: the first lookup of each provider
      gives what its search gives in that attempt. */
  lemma RetriesSearchAgain(g: Given, attempts: seq<Attempt>, k: nat, i: nat)
    requires Chain(g, attempts) && 0 < k < |attempts| && g.names != []
    requires i < |Resolve(g.registry, g.names)|
    requires forall j :: 0 <= j < i ==> Resolve(g.registry, g.names)[j] != Resolve(g.registry, g.names)[i]
    ensures |attempts[k].answers| == |Resolve(g.registry, g.names)|
    ensures attempts[k].answers[i] == g.world.search(k + 1, i)
  {
    hide CacheKey;
    ChainAt(g, attempts, k);
    var provider := Resolve(g.registry, g.names)[i];
    RetriesAreFresh(g, attempts, k, provider);
  }

  /** There is another attempt only after one in which everything failed or nothing was available, only if the
      context is still alive, and not before the backoff is over: two seconds more each time, up to ten. */
  lemma RetriesAreSpaced(g: Given, attempts: seq<Attempt>, k: nat)
    requires Chain(g, attempts) && k < |attempts|
    ensures !g.world.cancelled(k + 1)
    ensures k > 0 ==>
              && (attempts[k - 1].ending.Spent? || attempts[k - 1].ending.NothingToTry?)
              && attempts[k].filterAt - attempts[k - 1].endedAt >= (if k < 5 then 2 * k else 10) * SECOND
  {
    hide Chain, AttemptOk;
    ChainAt(g, attempts, k);
  }

  // ---------------------------------------------------------------------------------------------
  // One instance, from the best offer
  // ---------------------------------------------------------------------------------------------

  /** In a whole call at most one create succeeds; it is the last create of the last attempt, and then the
      call reports it. */
  lemma AtMostOneSuccess(g: Given, attempts: seq<Attempt>, reply: Reply, j: nat, k: nat)
    requires Chain(g, attempts) && ReplyOk(reply, attempts)
    requires j < |attempts| && k < |attempts[j].calls| && Succeeded(attempts[j].calls[k])
    ensures j == |attempts| - 1 && k == |attempts[j].calls| - 1
    ensures reply.result.Some? && attempts[j].calls[k].offer == reply.result.value.offer
  {
    hide Chain, AttemptOk, CallsBanned, LogBounded;
    ChainAt(g, attempts, j);
    SuccessEnds(g, j + 1, attempts[j], k);
    if j < |attempts| - 1 {
      ChainAt(g, attempts, j + 1);
    }
  }

  lemma SuccessEnds(g: Given, n: nat, a: Attempt, k: nat)
    requires AttemptOk(g, n, a) && k < |a.calls| && Succeeded(a.calls[k])
    ensures a.ending.Won? && k == |a.calls| - 1
  {
    hide Searched, Available, Sorted, Flat, Keep, Admits, Better;
  }

  /** The offer of a successful reply passes the filter for this very request, whoever filled the cache; and
      every offer that was gathered, admitted, not banned and not tried before it in the same attempt is no
      better: not preferred over it, and with equal preference not of fewer GPUs, with equal count not cheaper,
      and at the same price not more reliable. */
  lemma SuccessIsBestAvailable(g: Given, attempts: seq<Attempt>, reply: Reply, other: Offer)
    requires Chain(g, attempts) && ReplyOk(reply, attempts) && reply.result.Some?
    ensures var a, offer, wanted := attempts[|attempts| - 1], reply.result.value.offer, g.request.gpuTypes;
            && Admits(g.request, offer) && offer in a.gathered && !OfferBlocked(a.bans, offer, a.filterAt)
            && offer.provider in g.registry
            && (&& other in a.gathered && Admits(g.request, other) && !OfferBlocked(a.bans, other, a.filterAt)
                && (forall k :: 0 <= k < |a.calls| - 1 ==> a.calls[k].offer != other) ==>
                  && (Preferred(other.gpuType, wanted) ==> Preferred(offer.gpuType, wanted))
                  && (Preferred(other.gpuType, wanted) == Preferred(offer.gpuType, wanted) ==>
                        && offer.gpuCount <= other.gpuCount
                        && (offer.gpuCount == other.gpuCount ==>
                              && offer.price <= other.price
                              && (offer.price == other.price ==> offer.reliability >= other.reliability))))
  {
    hide Chain, AttemptOk, CallsBanned, LogBounded, Preferred;
    var last := |attempts| - 1;
    ChainAt(g, attempts, last);
    WinnerIsLast(g, last + 1, attempts[last], reply.result.value.offer, other);
  }

  lemma WinnerIsLast(g: Given, n: nat, a: Attempt, offer: Offer, other: Offer)
    requires AttemptOk(g, n, a) && a.calls != []
    requires a.calls[|a.calls| - 1].Called? && a.calls[|a.calls| - 1].offer == offer
    ensures Admits(g.request, offer) && offer in a.gathered && !OfferBlocked(a.bans, offer, a.filterAt)
    ensures offer.provider in g.registry
    ensures && other in a.gathered && Admits(g.request, other) && !OfferBlocked(a.bans, other, a.filterAt)
            && (forall k :: 0 <= k < |a.calls| - 1 ==> a.calls[k].offer != other) ==>
              !Better(g.request.gpuTypes, other, offer)
  {
    hide Searched, Available, Better, Admits, OfferBlocked, EndingOk, Flat;
    assert a.list[|a.calls| - 1] == offer;
    InList(g.request, a, offer);
    InList(g.request, a, other);
    if other in a.list && Better(g.request.gpuTypes, other, offer) {
      var i :| 0 <= i < |a.list| && a.list[i] == other;
      BetterComesFirst(g.request.gpuTypes, a.list, i, |a.calls| - 1);
      assert a.calls[i].offer == other;
    }
  }

  /** What was tried before the winner failed, at a registered provider, as the world has it; entries of
      unregistered providers were passed over. */
  lemma TriedBeforeFailed(g: Given, attempts: seq<Attempt>, reply: Reply, k: nat)
    requires Chain(g, attempts) && ReplyOk(reply, attempts) && reply.result.Some?
    requires k < |attempts[|attempts| - 1].calls| - 1
    ensures var a := attempts[|attempts| - 1];
            if a.calls[k].offer.provider in g.registry then
              && a.calls[k] == Called(a.calls[k].offer, g.world.create(|attempts|, k))
              && (a.calls[k].outcome.Expired? || a.calls[k].outcome.Conflict? || a.calls[k].outcome.Transient?)
            else a.calls[k].Skipped?
  {
    ChainAt(g, attempts, |attempts| - 1);
  }

  /** The list of an attempt has exactly the offers that are gathered, admitted and not banned. */
  lemma InList(r: Requirements, a: Attempt, o: Offer)
    requires multiset(a.list) == multiset(Available(a.bans, Keep(a.gathered, o => Admits(r, o)), a.filterAt))
    ensures o in a.list <==> o in a.gathered && Admits(r, o) && !OfferBlocked(a.bans, o, a.filterAt)
  {
    assert o in a.list <==> o in multiset(a.list);
    var available := Available(a.bans, Keep(a.gathered, o => Admits(r, o)), a.filterAt);
    assert o in available <==> o in multiset(available);
  }

  // ---------------------------------------------------------------------------------------------
  // Dead offers are not tried again
  // ---------------------------------------------------------------------------------------------

  lemma {:induction false} BansGrow(g: Given, attempts: seq<Attempt>, j: nat, k: nat)
    requires Chain(g, attempts) && j < k < |attempts|
    ensures attempts[j].bansAfter <= attempts[k].bans
  {
    hide Chain;
    LogsFollow(g, attempts, k);
    if j < k - 1 {
      LogsFollow(g, attempts, k - 1);
      BansGrow(g, attempts, j, k - 1);
    }
  }

  lemma {:induction false} LastBanAtLeast(log: seq<Ban>, start: nat, i: nat)
    requires start <= i < |log| && Ascending(log, start)
    ensures var e := LastByKey(log, Key(log[i].provider, log[i].offer));
            e.At? && e.t >= log[i].expiry
  {
    var front := log[..|log| - 1];
    if i < |front| {
      assert front[i] == log[i];
      LastBanAtLeast(front, start, i);
    }
  }

  /** An offer whose create failed for good in one attempt is not on the list of any later attempt whose filter
      runs before the ban expires. */
  lemma BannedNotRetried(g: Given, attempts: seq<Attempt>, j: nat, k: nat, i: nat, o: Offer)
    requires Chain(g, attempts) && j < k < |attempts|
    requires |g.log| <= i < |attempts[j].bansAfter| && Bans(attempts[j].bansAfter[i], o)
    requires attempts[k].filterAt < attempts[j].bansAfter[i].expiry
    ensures o !in attempts[k].list
  {
    hide Chain, CallsBanned;
    BansGrow(g, attempts, j, k);
    ChainAt(g, attempts, k);
    LogsFollow(g, attempts, k);
    assert attempts[k].bans[i] == attempts[j].bansAfter[i];
    LastBanAtLeast(attempts[k].bans, |g.log|, i);
    InList(g.request, attempts[k], o);
  }

  /** In particular not within the blacklist's time to live after the filter of the attempt that failed. */
  lemma FailedNotRetriedWithinTtl(g: Given, attempts: seq<Attempt>, j: nat, k: nat, c: nat)
    requires Chain(g, attempts) && j < k < |attempts|
    requires c < |attempts[j].calls| && attempts[j].calls[c].Called? && Banned(attempts[j].calls[c].outcome)
    requires attempts[k].filterAt < attempts[j].filterAt + g.ttl
    ensures attempts[j].calls[c].offer !in attempts[k].list
  {
    hide Chain, AttemptOk, LogBounded;
    ChainAt(g, attempts, j);
    LogsFollow(g, attempts, j);
    var a, o := attempts[j], attempts[j].calls[c].offer;
    assert BannedIn(a.bansAfter, |a.bans|, o, a.filterAt + g.ttl);
    var i :| |a.bans| <= i < |a.bansAfter| && Bans(a.bansAfter[i], o) && a.bansAfter[i].expiry >= a.filterAt + g.ttl;
    BannedNotRetried(g, attempts, j, k, i, o);
  }
}
