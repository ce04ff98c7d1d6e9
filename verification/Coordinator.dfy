/**
 Finding an offer and creating an instance: bounded attempts over cache, filters, blacklist and sort.
 */
module Coordinator {
  import opened Keys
  import opened Offers
  import opened Blacklist
  import opened Cache
  import opened Options

  /** How CreateInstance ends, as ClassifyError sorts it. */
  datatype Outcome = Success(instance: string) | Expired | Conflict | RateLimited | Permanent | Transient

  /** One entry of the sorted list that was reached: its provider is unregistered, or create was called. */
  datatype Call = Skipped(offer: Offer) | Called(offer: Offer, outcome: Outcome)

  /** The outside world of one call. In its n-th attempt: what the i-th provider's search gives, whether the rate
      limiter lets the i-th entry of the list pass and how a create for it ends; whether the context is
      cancelled when the attempt starts, and whether it is when the limiter refuses the i-th entry. */
  datatype World = World(search: (nat, nat) -> Search, permits: (nat, nat) -> bool, create: (nat, nat) -> Outcome,
                         cancelled: nat -> bool, cancelledAt: (nat, nat) -> bool)

  /** What a provisioning call starts from: the world, the registered providers, the blacklist's time to live,
      the request, the providers named, and the blacklist history. */
  datatype Given = Given(world: World, registry: seq<string>, ttl: int, request: Requirements,
                         names: seq<string>, log: seq<Ban>)

  datatype Ending = Won | Aborted | Refused(cancelled: bool) | Spent | NothingToTry

  /** What happened in one attempt. `keysBefore` are the cache keys it started with, `answers` what the providers
      in turn or the cache gave and `gathered` the offers in them, `bans` the blacklist history its filter saw at
      time `filterAt`, `list` the sorted offers, `bansAfter` the history at its end, at time `endedAt`. */
  datatype Attempt = Attempt(keysBefore: set<string>, answers: seq<Search>, gathered: seq<Offer>, filterAt: int,
                             bans: seq<Ban>, list: seq<Offer>, calls: seq<Call>, ending: Ending, bansAfter: seq<Ban>,
                             endedAt: int)

  datatype Error = Cancelled | NoOffers | PermanentError | Exhausted

  datatype Provisioned = Provisioned(instance: string, offer: Offer, attempts: nat)

  /** The two results of ProvisionInstance; both can be absent. */
  datatype Reply = Reply(result: Option<Provisioned>, error: Option<Error>)

  function Flat(answers: seq<Search>): seq<Offer> {
    if answers == [] then []
    else
      var last := answers[|answers| - 1];
      Flat(answers[..|answers| - 1]) + (if last.Found? then last.offers else [])
  }

  /** The offers of the answers one after the other; a failed search adds none. */
  lemma {:induction false} FlatHolds(answers: seq<Search>, o: Offer)
    ensures o in Flat(answers) <==> exists i :: 0 <= i < |answers| && answers[i].Found? && o in answers[i].offers
  {
    if answers != [] {
      var n := |answers| - 1;
      FlatHolds(answers[..n], o);
      assert forall i :: 0 <= i < n ==> answers[..n][i] == answers[i];
    }
  }

  predicate HasAnyPrefix(key: string, names: seq<string>) {
    exists n :: n in names && HasPrefix(key, n)
  }

  function Failures(answers: seq<Search>): nat {
    if answers == [] then 0
    else Failures(answers[..|answers| - 1]) + (if answers[|answers| - 1].SearchFailed? then 1 else 0)
  }

  predicate Fatal(o: Outcome) {
    o.Success? || o.Permanent? || o.RateLimited?
  }

  predicate Banned(o: Outcome) {
    o.Expired? || o.Conflict?
  }

  predicate Succeeded(c: Call) {
    c.Called? && c.outcome.Success?
  }

  /** The registered providers named, or all of them if none is named. */
  function Resolve(registry: seq<string>, names: seq<string>): (providers: seq<string>)
    ensures names == [] ==> providers == registry
    ensures forall p :: p in providers <==> p in registry && (names == [] || p in names)
  {
    if names == [] then registry else Keep(registry, n => n in names)
  }

  /** The calls walk down the list as the world lets them; only the last of them may end the walk. */
  ghost predicate Walked(g: Given, n: nat, list: seq<Offer>, calls: seq<Call>) {
    && |calls| <= |list|
    && (forall k :: 0 <= k < |calls| ==>
          && calls[k].offer == list[k] && (calls[k].Called? <==> list[k].provider in g.registry)
          && (calls[k].Called? ==> calls[k].outcome == g.world.create(n, k))
          && g.world.permits(n, k))
    && (forall k :: 0 <= k < |calls| - 1 ==> calls[k].Called? ==> !Fatal(calls[k].outcome))
  }

  lemma WalkStart(g: Given, n: nat, list: seq<Offer>)
    ensures Walked(g, n, list, [])
  {
  }

  lemma WalkStep(g: Given, n: nat, list: seq<Offer>, calls: seq<Call>, c: Call)
    requires Walked(g, n, list, calls) && |calls| < |list| && g.world.permits(n, |calls|)
    requires forall k :: 0 <= k < |calls| ==> calls[k].Called? ==> !Fatal(calls[k].outcome)
    requires c.offer == list[|calls|] && (c.Called? <==> c.offer.provider in g.registry)
    requires c.Called? ==> c.outcome == g.world.create(n, |calls|)
    ensures Walked(g, n, list, calls + [c])
  {
  }

  /** How an attempt ends after a fatal outcome. */
  function EndingFor(o: Outcome): Ending
    requires Fatal(o)
  {
    if o.Success? then Won else if o.Permanent? then Aborted else Spent
  }

  lemma FatalEnds(g: Given, n: nat, list: seq<Offer>, calls: seq<Call>, c: Call)
    requires c.Called? && Fatal(c.outcome)
    ensures EndingOk(g, n, list, calls + [c], EndingFor(c.outcome))
  {
  }

  /** With nothing fatal the walk can stop before the end of the list, if the limiter refuses, or at it. */
  lemma UnfinishedEnds(g: Given, n: nat, list: seq<Offer>, calls: seq<Call>)
    requires forall k :: 0 <= k < |calls| ==> calls[k].Called? ==> !Fatal(calls[k].outcome)
    ensures |calls| < |list| && !g.world.permits(n, |calls|) ==>
              EndingOk(g, n, list, calls, Refused(g.world.cancelledAt(n, |calls|)))
    ensures |calls| == |list| ==> EndingOk(g, n, list, calls, Spent)
  {
  }

  ghost predicate EndsWith(calls: seq<Call>, o: Outcome) {
    calls != [] && calls[|calls| - 1].Called? && calls[|calls| - 1].outcome == o
  }

  ghost predicate EndingOk(g: Given, n: nat, list: seq<Offer>, calls: seq<Call>, ending: Ending) {
    match ending
    case Won => calls != [] && Succeeded(calls[|calls| - 1])
    case Aborted => EndsWith(calls, Permanent)
    case Refused(cancelled) =>
      && |calls| < |list| && !g.world.permits(n, |calls|) && cancelled == g.world.cancelledAt(n, |calls|)
      && forall k :: 0 <= k < |calls| ==> calls[k].Called? ==> !Fatal(calls[k].outcome)
    case Spent =>
      || EndsWith(calls, RateLimited)
      || (|calls| == |list| && forall k :: 0 <= k < |calls| ==> calls[k].Called? ==> !Fatal(calls[k].outcome))
    case NothingToTry => list == [] && calls == []
  }

  /** Every provider asked gave one answer, and it is its search's where the cache held nothing for it. */
  ghost predicate Searched(g: Given, n: nat, answers: seq<Search>, keys: set<string>) {
    var providers := Resolve(g.registry, g.names);
    && |answers| == |providers|
    && forall i :: && 0 <= i < |answers| && CacheKey(providers[i], g.request) !in keys
                   && (forall j :: 0 <= j < i ==> providers[j] != providers[i]) ==>
         answers[i] == g.world.search(n, i)
  }

  /** The `n`-th attempt tries exactly the gathered offers that the request admits and the blacklist lets through,
      in sorted order. */
  ghost predicate AttemptOk(g: Given, n: nat, a: Attempt) {
    && Searched(g, n, a.answers, a.keysBefore) && a.gathered == Flat(a.answers)
    && multiset(a.list) == multiset(Available(a.bans, Keep(a.gathered, o => Admits(g.request, o)), a.filterAt))
    && Sorted(g.request.gpuTypes, a.list)
    && Walked(g, n, a.list, a.calls)
    && EndingOk(g, n, a.list, a.calls, a.ending)
    && a.bans <= a.bansAfter
  }

  predicate Bans(b: Ban, o: Offer) {
    b.provider == o.provider && b.offer == o.id
  }

  /** The history from position `from` on holds a ban on the offer that lasts until `t` or longer. */
  ghost predicate BannedIn(log: seq<Ban>, from: nat, o: Offer, t: int) {
    exists i :: from <= i < |log| && Bans(log[i], o) && log[i].expiry >= t
  }

  lemma AttemptIsOk(g: Given, n: nat, a: Attempt)
    requires Searched(g, n, a.answers, a.keysBefore) && a.gathered == Flat(a.answers)
    requires multiset(a.list) == multiset(Available(a.bans, Keep(a.gathered, o => Admits(g.request, o)), a.filterAt))
    requires if a.ending.NothingToTry? then a.list == [] && a.calls == []
             else && Sorted(g.request.gpuTypes, a.list) && Walked(g, n, a.list, a.calls)
                  && EndingOk(g, n, a.list, a.calls, a.ending)
    requires a.bans <= a.bansAfter
    ensures AttemptOk(g, n, a)
  {
    hide Searched, Available, Flat;
  }

  /** Bans put down one after the other expire one after the other. */
  ghost predicate Ascending(log: seq<Ban>, from: nat) {
    forall i, j :: from <= i <= j < |log| ==> log[i].expiry <= log[j].expiry
  }

  /** A row of lookups for one request. */
  datatype Lookups = Lookups(providers: seq<string>, request: Requirements, world: World, n: nat, ttl: int)

  /** The lookups so far, from cache `first` at time `start` to cache `entries` now: an entry that is still
      young is where it was, and the answer for its provider; without an entry, or with one that was already
      too old, the provider's search is the answer when it is asked first; what was found is in the cache. */
  ghost predicate Gathered(l: Lookups, first: map<string, Entry>, start: int, answers: seq<Search>,
                           entries: map<string, Entry>, now: int)
  {
    && |answers| <= |l.providers| && first.Keys <= entries.Keys && start <= now
    && (forall key :: key in first && now - first[key].fetchedAt < l.ttl ==>
          key in entries && entries[key] == first[key])
    && (forall p :: (forall j :: 0 <= j < |answers| ==> l.providers[j] != p) ==>
          var key := CacheKey(p, l.request);
          (key in entries <==> key in first) && (key in first ==> entries[key] == first[key]))
    && forall i :: 0 <= i < |answers| ==>
         var key := CacheKey(l.providers[i], l.request);
         && (answers[i].Found? ==> key in entries)
         && (key in first && now - first[key].fetchedAt < l.ttl ==> answers[i] == Found(first[key].offers))
         && (key !in first || start - first[key].fetchedAt >= l.ttl ==>
               (forall j :: 0 <= j < i ==> l.providers[j] != l.providers[i]) ==> answers[i] == l.world.search(l.n, i))
  }

  lemma GatheredNone(l: Lookups, entries: map<string, Entry>, now: int)
    ensures Gathered(l, entries, now, [], entries, now)
  {
  }

  lemma GatheredOne(l: Lookups, first: map<string, Entry>, start: int, answers: seq<Search>,
                    entries: map<string, Entry>, at: int, found: Search, entries': map<string, Entry>, now: int)
    requires Gathered(l, first, start, answers, entries, at) && |answers| < |l.providers| && at <= now
    requires var key, search := CacheKey(l.providers[|answers|], l.request), l.world.search(l.n, |answers|);
             if key in entries && at - entries[key].fetchedAt < l.ttl then
               found == Found(entries[key].offers) && entries' == entries
             else
               && found == search
               && entries' == if search.Found? then entries[key := Entry(search.offers, now)] else entries
    ensures Gathered(l, first, start, answers + [found], entries', now)
  {
    hide CacheKey;
    var i, after := |answers|, answers + [found];
    forall p | forall j :: 0 <= j < |after| ==> l.providers[j] != p
      ensures var key := CacheKey(p, l.request);
              (key in entries' <==> key in first) && (key in first ==> entries'[key] == first[key])
    {
      assert l.providers[i] != p;
      KeyOfProvider(p, l.providers[i], l.request);
    }
  }

  const SECOND := 1_000_000_000

  class Coordinator {
    const cache: OfferCache
    const blacklist: OfferBlacklist
    const registry: seq<string>
    const maxAttempts: int
    var clock: int
    ghost var attempts: seq<Attempt>

    ghost predicate Valid()
      reads this, blacklist
    {
      blacklist.Valid() && blacklist.clock <= clock
    }

    /** What a call with this request starts from. */
    ghost function Starts(w: World, r: Requirements, names: seq<string>, log: seq<Ban>): Given {
      Given(w, registry, blacklist.ttl, r, names, log)
    }

    constructor (registry: seq<string>, cacheTtl: int, blacklistTtl: int, maxAttempts: int, now: int)
      ensures Valid() && fresh(cache) && fresh(blacklist) && attempts == []
      ensures this.registry == registry && this.maxAttempts == maxAttempts
      ensures blacklist.log == [] && cache.entries == map[]
    {
      var c := new OfferCache(cacheTtl);
      var b := new OfferBlacklist(blacklistTtl, now);
      cache := c;
      blacklist := b;
      this.registry := registry;
      this.maxAttempts := maxAttempts;
      clock := now;
      attempts := [];
    }

    /** Time passes. */
    method Tick()
      modifies this`clock
      ensures clock >= old(clock)
    {
      var d: int := *;
      if d > 0 { clock := clock + d; }
    }

    /** The backoff after an attempt: it lasts its time unless the context is cancelled meanwhile. */
    method Sleep(attempt: nat, cancelled: bool)
      modifies this`clock
      ensures clock >= old(clock)
      ensures !cancelled ==> clock >= old(clock) + (if attempt < 5 then 2 * attempt else 10) * SECOND
    {
      var d := attempt * (2 * SECOND);
      if d > 10 * SECOND {
        d := 10 * SECOND;
      }
      if !cancelled {
        clock := clock + d;
      }
      Tick();
    }

    /** Asks every provider in turn. The offers are those of the providers that answered, in order; a provider
        that answered has its answer cached under this request. An entry that stays young is the answer; with
        no entry, or one already too old, the provider's search is. */
    method GatherOffers(r: Requirements, names: seq<string>, w: World, n: nat)
      returns (offers: seq<Offer>, errors: nat, ghost answers: seq<Search>)
      requires Valid()
      modifies this`clock, cache`entries
      ensures Valid() && clock >= old(clock)
      ensures |answers| == |Resolve(registry, names)| && offers == Flat(answers) && errors == Failures(answers)
      ensures forall i :: 0 <= i < |answers| && answers[i].Found? ==>
                CacheKey(Resolve(registry, names)[i], r) in cache.entries
      ensures old(cache.entries.Keys) <= cache.entries.Keys
      ensures forall i :: 0 <= i < |answers| ==>
                var key := CacheKey(Resolve(registry, names)[i], r);
                key in old(cache.entries) && clock - old(cache.entries)[key].fetchedAt < cache.ttl ==>
                  answers[i] == Found(old(cache.entries)[key].offers)
      ensures forall i :: && 0 <= i < |answers|
                          && (forall j :: 0 <= j < i ==> Resolve(registry, names)[j] != Resolve(registry, names)[i]) ==>
                var key := CacheKey(Resolve(registry, names)[i], r);
                key !in old(cache.entries) || old(clock) - old(cache.entries)[key].fetchedAt >= cache.ttl ==>
                  answers[i] == w.search(n, i)
    {
      hide CacheKey, Resolve;
      offers, errors, answers := Ask(Resolve(registry, names), r, w, n);
    }

    /** The loop over the providers. */
    method Ask(providers: seq<string>, r: Requirements, w: World, n: nat)
      returns (offers: seq<Offer>, errors: nat, ghost answers: seq<Search>)
      requires Valid()
      modifies this`clock, cache`entries
      ensures Valid() && clock >= old(clock)
      ensures |answers| == |providers| && offers == Flat(answers) && errors == Failures(answers)
      ensures Gathered(Lookups(providers, r, w, n, cache.ttl), old(cache.entries), old(clock), answers,
                       cache.entries, clock)
    {
      hide Gathered;
      offers, errors, answers := [], 0, [];
      ghost var l := Lookups(providers, r, w, n, cache.ttl);
      GatheredNone(l, cache.entries, clock);
      for i := 0 to |providers|
        invariant Valid() && clock >= old(clock) && |answers| == i
        invariant offers == Flat(answers) && errors == Failures(answers)
        invariant Gathered(l, old(cache.entries), old(clock), answers, cache.entries, clock)
      {
        ghost var was, entries, at := answers, cache.entries, clock;
        var before := clock;
        Tick();
        var found := cache.GetOffers(providers[i], r, before, w.search(n, i), clock);
        GatheredOne(l, old(cache.entries), old(clock), was, entries, at, found, cache.entries, clock);
        answers := answers + [found];
        assert answers[..i] == was;
        if found.Found? {
          offers := offers + found.offers;
        } else {
          errors := errors + 1;
        }
      }
    }

    /** Exactly the entries whose key starts with a given name and ':' go; for an empty list, although it stands for
        all providers when offers are gathered, that is none. */
    method InvalidateProviders(names: seq<string>)
      modifies cache`entries
      ensures forall k :: k in cache.entries <==> k in old(cache.entries) && !HasAnyPrefix(k, names)
      ensures forall k :: k in cache.entries ==> cache.entries[k] == old(cache.entries)[k]
    {
      for i := 0 to |names|
        invariant forall k :: k in cache.entries <==> k in old(cache.entries) && !HasAnyPrefix(k, names[..i])
        invariant forall k :: k in cache.entries ==> cache.entries[k] == old(cache.entries)[k]
      {
        assert names[..i + 1] == names[..i] + [names[i]];
        cache.Invalidate(names[i]);
      }
      assert names[..|names|] == names;
    }

    /** One entry of the list: nothing for an unregistered provider, otherwise a create request whose answer
        may put the offer on the blacklist. */
    method TryOne(offer: Offer, outcome: Outcome) returns (c: Call)
      requires Valid()
      modifies this`clock, blacklist
      ensures Valid() && clock >= old(clock)
      ensures c == if offer.provider in registry then Called(offer, outcome) else Skipped(offer)
      ensures blacklist.log == Logged(old(blacklist.log), c, clock)
      ensures blacklist.log == old(blacklist.log) +
                               if offer.provider in registry && (outcome.Expired? || outcome.Conflict?)
                               then [Ban(offer.provider, offer.id, clock + blacklist.ttl)] else []
    {
      if offer.provider !in registry {
        return Skipped(offer);
      }
      Tick();  // the create request
      if outcome.Expired? || outcome.Conflict? {
        blacklist.Add(offer.provider, offer.id, clock);
      }
      return Called(offer, outcome);
    }

    ghost function Logged(log: seq<Ban>, c: Call, now: int): seq<Ban> {
      if c.Called? && Banned(c.outcome) then log + [Ban(c.offer.provider, c.offer.id, now + blacklist.ttl)] else log
    }

    /** Walks down the sorted list until an offer works, an error is final, the limiter refuses, or the list
        ends. An expired offer, a conflict and a transient error are passed over. */
    method TryOffers(list: seq<Offer>, w: World, n: nat, ghost g: Given)
      returns (ending: Ending, winner: Option<Provisioned>, ghost calls: seq<Call>)
      requires Valid() && g.world == w && g.registry == registry
      modifies this`clock, blacklist
      ensures Valid() && clock >= old(clock)
      ensures Walked(g, n, list, calls) && EndingOk(g, n, list, calls, ending) && !ending.NothingToTry?
      ensures winner.Some? <==> ending.Won?
      ensures winner.Some? ==>
                calls != [] && calls[|calls| - 1] == Called(winner.value.offer, Success(winner.value.instance))
      ensures old(blacklist.log) <= blacklist.log
      ensures BanLog(calls, old(blacklist.log), blacklist.log, old(clock), clock)
      ensures forall k :: 0 <= k < |calls| - 1 && calls[k].Called? ==>
                calls[k].outcome.Expired? || calls[k].outcome.Conflict? || calls[k].outcome.Transient?
      ensures ending == if calls != [] && EndsWith(calls, Permanent) then Aborted
                        else if calls != [] && Succeeded(calls[|calls| - 1]) then Won
                        else if (calls != [] && EndsWith(calls, RateLimited)) || |calls| == |list| then Spent
                        else Refused(w.cancelledAt(n, |calls|))
    {
      hide Walked, EndingOk;
      calls := [];
      WalkStart(g, n, list);
      for i := 0 to |list|
        invariant Valid() && clock >= old(clock) && |calls| == i
        invariant Walked(g, n, list, calls)
        invariant forall k :: 0 <= k < |calls| ==> calls[k].Called? ==> !Fatal(calls[k].outcome)
        invariant BanLog(calls, old(blacklist.log), blacklist.log, old(clock), clock)
      {
        if !w.permits(n, i) {
          UnfinishedEnds(g, n, list, calls);
          return Refused(w.cancelledAt(n, i)), None, calls;
        }
        ghost var log, at, was := blacklist.log, clock, calls;
        var c := TryOne(list[i], w.create(n, i));
        calls := calls + [c];
        BanLogStep(was, old(blacklist.log), log, old(clock), at, c, clock);
        WalkStep(g, n, list, was, c);
        if c.Called? && Fatal(c.outcome) {
          FatalEnds(g, n, list, was, c);
          match c.outcome {
            case Success(instance) => return Won, Some(Provisioned(instance, c.offer, 0)), calls;
            case Permanent => return Aborted, None, calls;
            case _ => return Spent, None, calls;
          }
        }
      }
      UnfinishedEnds(g, n, list, calls);
      return Spent, None, calls;
    }

    /** Everything added to the blacklist history between `from` and `to` comes from the calls. */
    ghost predicate BanLog(calls: seq<Call>, before: seq<Ban>, after: seq<Ban>, from: int, to: int) {
      && before <= after
      && (forall i :: |before| <= i < |after| ==> from + blacklist.ttl <= after[i].expiry <= to + blacklist.ttl)
      && Ascending(after, |before|)
      && (forall k :: 0 <= k < |calls| && calls[k].Called? && Banned(calls[k].outcome) ==>
            BannedIn(after, |before|, calls[k].offer, from + blacklist.ttl))
    }

    lemma BanLogStep(calls: seq<Call>, before: seq<Ban>, log: seq<Ban>, from: int, at: int, c: Call, now: int)
      requires BanLog(calls, before, log, from, at) && from <= at <= now
      ensures BanLog(calls + [c], before, Logged(log, c, now), from, now)
    {
      var after := Logged(log, c, now);
      forall k | 0 <= k < |calls + [c]| && (calls + [c])[k].Called? && Banned((calls + [c])[k].outcome)
        ensures BannedIn(after, |before|, (calls + [c])[k].offer, from + blacklist.ttl)
      {
        if k < |calls| {
          assert BannedIn(log, |before|, calls[k].offer, from + blacklist.ttl);
          var i :| |before| <= i < |log| && Bans(log[i], calls[k].offer) && log[i].expiry >= from + blacklist.ttl;
          assert after[i] == log[i];
        } else {
          assert Bans(after[|log|], c.offer);
        }
      }
    }

    /** One attempt: gather, filter, drop banned offers, sort, try. */
    method AttemptOnce(w: World, n: nat, ghost g: Given, r: Requirements, names: seq<string>)
      returns (ending: Ending, winner: Option<Provisioned>)
      requires Valid() && g == Starts(w, r, names, g.log)
      modifies this`clock, this`attempts, cache`entries, blacklist
      ensures Valid() && clock >= old(clock)
      ensures attempts != [] && attempts[..|attempts| - 1] == old(attempts)
      ensures var a := attempts[|attempts| - 1];
              && AttemptOk(g, n, a) && a.ending == ending
              && a.keysBefore == old(cache.entries.Keys)
              && a.bans == old(blacklist.log) && a.bansAfter == blacklist.log
              && old(clock) <= a.filterAt <= a.endedAt == clock
              && BanLog(a.calls, a.bans, a.bansAfter, a.filterAt, clock)
              && (winner.Some? <==> ending.Won?)
              && (winner.Some? ==> WonBy(a, winner.value))
              && (ending.NothingToTry? <==> a.list == [])
    {
      hide AttemptOk, Walked, Available, Sorted, EndingOk, BanLog, Keep, Flat, Failures, CacheKey, HasAnyPrefix,
           Resolve, Searched;
      ghost var keys, bans := cache.entries.Keys, blacklist.log;
      var offers, _, answers := GatherOffers(r, names, w, n);
      AnswersSearched(g, n, answers, keys);
      var filtered := FilterByRequirements(offers, r);
      ghost var filterAt := clock;
      var available := blacklist.Filter(filtered, clock);
      if |available| == 0 {
        ghost var a := Attempt(keys, answers, offers, filterAt, bans, [], [], NothingToTry, bans, clock);
        AttemptIsOk(g, n, a);
        NothingBanned(a);
        attempts := attempts + [a];
        return NothingToTry, None;
      }
      var list := SortOffers(available, r.gpuTypes);
      ghost var calls;
      ending, winner, calls := TryOffers(list, w, n, g);
      ghost var a := Attempt(keys, answers, offers, filterAt, bans, list, calls, ending, blacklist.log, clock);
      AttemptIsOk(g, n, a);
      attempts := attempts + [a];
    }

    lemma NothingBanned(a: Attempt)
      requires a.calls == [] && a.bans == a.bansAfter
      ensures BanLog(a.calls, a.bans, a.bansAfter, a.filterAt, a.endedAt)
    {
    }

    /** One more attempt after those made so far in this call. */
    method NextAttempt(w: World, n: nat, ghost g: Given, r: Requirements, names: seq<string>)
      returns (ending: Ending, winner: Option<Provisioned>)
      requires Valid() && g == Starts(w, r, names, g.log)
      requires Chain(g, attempts) && n == |attempts| + 1 && !w.cancelled(n)
      requires blacklist.log == LogEnd(attempts, g.log)
      requires attempts != [] ==> Ready(|attempts|, attempts[|attempts| - 1], cache.entries.Keys, names, clock)
      modifies this`clock, this`attempts, cache`entries, blacklist
      ensures Valid() && clock >= old(clock)
      ensures |attempts| == |old(attempts)| + 1 && attempts[..|old(attempts)|] == old(attempts)
      ensures Chain(g, attempts)
      ensures var a := attempts[|attempts| - 1];
              && a.ending == ending && a.endedAt == clock && a.filterAt >= old(clock)
              && blacklist.log == LogEnd(attempts, g.log)
              && (winner.Some? <==> ending.Won?)
              && (winner.Some? ==> WonBy(a, winner.value))
    {
      hide AttemptOk, CallsBanned, Chain, LogBounded, NoneCached, BanLog, WonBy;
      ghost var before, bans := attempts, blacklist.log;
      LogSoFar(g, before, clock);
      ending, winner := AttemptOnce(w, n, g, r, names);
      ghost var a := attempts[|attempts| - 1];
      assert attempts == before + [a];
      LogLater(bans, |g.log|, old(clock) + g.ttl, a.filterAt + g.ttl);
      LogGrows(bans, blacklist.log, |g.log|, a.filterAt, clock, a.calls);
      CallsAreBanned(a, clock);
      ChainGrows(g, before, a);
    }

    /** Finds an offer and creates an instance. A reply carries a result exactly if the last create succeeded,
        and then it is that one; it carries neither result nor error exactly if the rate limiter refused to
        wait although the context was still alive. Every error has its one cause, and short of a cause there
        is another attempt. */
    method ProvisionInstance(r: Requirements, names: seq<string>, w: World) returns (reply: Reply)
      requires Valid()
      modifies this`clock, this`attempts, cache`entries, blacklist
      ensures Valid() && clock >= old(clock)
      ensures |attempts| <= if maxAttempts > 0 then maxAttempts else 0
      ensures Chain(Starts(w, r, names, old(blacklist.log)), attempts)
      ensures blacklist.log == LogEnd(attempts, old(blacklist.log))
      ensures ReplyOk(reply, attempts)
      ensures reply.error == Some(Exhausted) <==>
              || (maxAttempts <= 0)
              || (|attempts| == maxAttempts && attempts[maxAttempts - 1].ending.Spent?)
      ensures reply.error == Some(NoOffers) <==>
              maxAttempts > 0 && |attempts| == maxAttempts && attempts[maxAttempts - 1].ending.NothingToTry?
      ensures reply.error == Some(PermanentError) <==> attempts != [] && attempts[|attempts| - 1].ending.Aborted?
      ensures reply.error == Some(Cancelled) <==>
              || (attempts != [] && attempts[|attempts| - 1].ending == Refused(true))
              || (&& |attempts| < maxAttempts && w.cancelled(|attempts| + 1)
                  && (attempts != [] ==> Undecided(attempts[|attempts| - 1])))
      ensures reply.error == Some(Exhausted) && attempts != [] ==> NoneCached(cache.entries.Keys, names)
    {
      hide AttemptOk, CallsBanned, LogBounded, Chain, NoneCached;
      attempts := [];
      ghost var g := Starts(w, r, names, blacklist.log);
      ChainEmpty(g);
      var attempt := 1;
      while attempt <= maxAttempts
        invariant Valid() && clock >= old(clock)
        invariant |attempts| == attempt - 1 && (attempts != [] ==> attempt - 1 <= maxAttempts)
        invariant attempts != [] ==> Undecided(attempts[|attempts| - 1]) && NoneCached(cache.entries.Keys, names)
        invariant attempts != [] && attempt <= maxAttempts && !w.cancelled(attempt) ==>
                    Ready(|attempts|, attempts[|attempts| - 1], cache.entries.Keys, names, clock)
        invariant attempts != [] && attempt > maxAttempts ==> attempts[|attempts| - 1].ending.Spent?
        invariant Chain(g, attempts) && blacklist.log == LogEnd(attempts, g.log)
      {
        if w.cancelled(attempt) {
          return Reply(None, Some(Cancelled));
        }
        var ending, winner := NextAttempt(w, attempt, g, r, names);
        if ending.Won? {
          return Reply(Some(winner.value.(attempts := attempt)), None);
        } else if ending.Aborted? {
          return Reply(None, Some(PermanentError));
        } else if ending.Refused? {
          return Reply(None, if ending.cancelled then Some(Cancelled) else None);
        } else if ending.NothingToTry? && attempt >= maxAttempts {
          return Reply(None, Some(NoOffers));
        }
        InvalidateProviders(names);
        NamesGone(names);
        if attempt < maxAttempts {
          Sleep(attempt, w.cancelled(attempt + 1));
        }
        attempt := attempt + 1;
      }
      return Reply(None, Some(Exhausted));
    }

    lemma NamesGone(names: seq<string>)
      requires forall k :: k in cache.entries ==> !HasAnyPrefix(k, names)
      ensures NoneCached(cache.entries.Keys, names)
    {
    }

    lemma AnswersSearched(g: Given, n: nat, answers: seq<Search>, keys: set<string>)
      requires var providers := Resolve(g.registry, g.names);
               && |answers| == |providers|
               && forall i :: && 0 <= i < |answers| && (forall j :: 0 <= j < i ==> providers[j] != providers[i])
                              && CacheKey(providers[i], g.request) !in keys ==>
                    answers[i] == g.world.search(n, i)
      ensures Searched(g, n, answers, keys)
    {
      hide Resolve, CacheKey;
    }

    lemma LogGrows(before: seq<Ban>, after: seq<Ban>, start: nat, from: int, to: int, calls: seq<Call>)
      requires LogBounded(before, start, from + blacklist.ttl)
      requires BanLog(calls, before, after, from, to) && from <= to
      ensures LogBounded(after, start, to + blacklist.ttl)
    {
    }

    lemma CallsAreBanned(a: Attempt, to: int)
      requires BanLog(a.calls, a.bans, a.bansAfter, a.filterAt, to)
      ensures CallsBanned(a, blacklist.ttl)
    {
    }
  }

  /** From `start` on the bans expire one after the other, none of them later than `until`. */
  ghost predicate LogBounded(log: seq<Ban>, start: nat, until: int) {
    && start <= |log| && Ascending(log, start)
    && forall i :: start <= i < |log| ==> log[i].expiry <= until
  }

  lemma LogLater(log: seq<Ban>, start: nat, until: int, later: int)
    requires LogBounded(log, start, until) && until <= later
    ensures LogBounded(log, start, later)
  {
  }

  lemma LogSoFar(g: Given, attempts: seq<Attempt>, now: int)
    requires Chain(g, attempts) && (attempts != [] ==> attempts[|attempts| - 1].endedAt <= now)
    ensures LogBounded(LogEnd(attempts, g.log), |g.log|, now + g.ttl)
  {
    hide AttemptOk, CallsBanned, Follows;
  }

  /** Nothing in the cache belongs to a named provider. */
  ghost predicate NoneCached(keys: set<string>, names: seq<string>) {
    forall n, k :: n in names && k in keys ==> !HasPrefix(k, n)
  }

  predicate Undecided(a: Attempt) {
    a.ending.Spent? || a.ending.NothingToTry?
  }

  /** Every offer refused for good in the attempt is on the blacklist for the time to live. */
  ghost predicate CallsBanned(a: Attempt, ttl: int) {
    forall k :: 0 <= k < |a.calls| && a.calls[k].Called? && Banned(a.calls[k].outcome) ==>
      BannedIn(a.bansAfter, |a.bans|, a.calls[k].offer, a.filterAt + ttl)
  }

  /** The last call of the attempt created this instance from this offer. */
  predicate WonBy(a: Attempt, p: Provisioned) {
    a.calls != [] && a.calls[|a.calls| - 1] == Called(p.offer, Success(p.instance))
  }

  /** The blacklist history after the attempts. */
  function LogEnd(attempts: seq<Attempt>, log: seq<Ban>): seq<Ban> {
    if attempts == [] then log else attempts[|attempts| - 1].bansAfter
  }

  /** How long the call sleeps after its `n`-th attempt. */
  function Delay(n: nat): int {
    if n < 5 then 2 * n * SECOND else 10 * SECOND
  }

  /** After its `n`-th attempt, `a`, the next one may start. */
  ghost predicate Ready(n: nat, a: Attempt, keys: set<string>, names: seq<string>, now: int) {
    Undecided(a) && NoneCached(keys, names) && a.endedAt + Delay(n) <= now
  }

  ghost predicate Follows(n: nat, a: Attempt, b: Attempt, names: seq<string>) {
    Undecided(a) && NoneCached(b.keysBefore, names) && a.endedAt + Delay(n) <= b.filterAt
  }

  /** A call's attempts, one after the other: each of them in order, all but the last without a decision, all
      but the first without any cached search of a named provider, each starting from the blacklist the one
      before it left. */
  ghost predicate Chain(g: Given, attempts: seq<Attempt>) {
    attempts == [] ||
    (var front, a := attempts[..|attempts| - 1], attempts[|attempts| - 1];
     && Chain(g, front)
     && AttemptOk(g, |attempts|, a) && CallsBanned(a, g.ttl)
     && a.bans == LogEnd(front, g.log) && LogBounded(a.bansAfter, |g.log|, a.endedAt + g.ttl) && a.filterAt <= a.endedAt
     && !g.world.cancelled(|attempts|)
     && (front != [] ==> Follows(|front|, front[|front| - 1], a, g.names)))
  }

  lemma ChainEmpty(g: Given)
    ensures Chain(g, [])
  {
  }

  lemma ChainGrows(g: Given, attempts: seq<Attempt>, a: Attempt)
    requires Chain(g, attempts)
    requires !g.world.cancelled(|attempts| + 1)
    requires attempts != [] ==> Follows(|attempts|, attempts[|attempts| - 1], a, g.names)
    requires AttemptOk(g, |attempts| + 1, a) && CallsBanned(a, g.ttl)
    requires a.bans == LogEnd(attempts, g.log) && LogBounded(a.bansAfter, |g.log|, a.endedAt + g.ttl)
    requires a.filterAt <= a.endedAt
    ensures Chain(g, attempts + [a])
  {
  }

  ghost predicate ReplyOk(reply: Reply, attempts: seq<Attempt>) {
    var won := attempts != [] && attempts[|attempts| - 1].ending.Won?;
    && (reply.result.Some? <==> won)
    && (reply.result.Some? ==>
          var last := attempts[|attempts| - 1];
          && WonBy(last, reply.result.value)
          && reply.result.value.attempts == |attempts| && reply.error.None?)
    && (reply.result.None? && reply.error.None? <==>
          attempts != [] && attempts[|attempts| - 1].ending == Refused(false))
  }
}
