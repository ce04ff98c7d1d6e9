/**
 One sweep of the instance garbage collector.
 */
module InstanceGc {
  import opened Lifecycle

  datatype Listing = Unavailable | Listing(ids: seq<Id>)

  datatype ClaimList = ListFailed | ClaimList(claims: seq<Record>)

  /** A DestroyInstance call and whether it succeeded. */
  datatype Attempt = Attempt(id: Id, ok: bool)

  ghost predicate Shielded(claims: seq<Record>, id: Id) {
    exists i :: 0 <= i < |claims| && Shields(claims[i], id)
  }

  ghost predicate Listed(listings: seq<Listing>, id: Id) {
    exists i :: 0 <= i < |listings| && listings[i].Listing? && id in listings[i].ids
  }

  ghost predicate Attempted(attempts: seq<Attempt>, id: Id) {
    Attempt(id, true) in attempts || Attempt(id, false) in attempts
  }

  /** What one sweep does: it tries to destroy exactly the listed, unshielded instances that were candidates
      before; candidates afterwards are the unshielded ones listed for the first time and those whose destruction
      failed. */
  ghost predicate SweptOk(claims: seq<Record>, listings: seq<Listing>, before: set<Id>, attempts: seq<Attempt>,
                          after: set<Id>)
  {
    && (forall id :: Attempted(attempts, id) <==> Listed(listings, id) && !Shielded(claims, id) && id in before)
    && (forall id :: id in after <==>
          Listed(listings, id) && !Shielded(claims, id) && (id in before ==> Attempt(id, false) in attempts))
  }

  /** A sweep tries to destroy exactly the candidates that are listed and that no claim but a Terminated one
      records; listed for the first time, or not destroyed, such an instance is a candidate afterwards. */
  lemma SweptExactlyWhen(claims: seq<Record>, listings: seq<Listing>, before: set<Id>, attempts: seq<Attempt>,
                         after: set<Id>, id: Id)
    requires SweptOk(claims, listings, before, attempts, after) && id != ""
    ensures var listed := exists i :: 0 <= i < |listings| && listings[i].Listing? && id in listings[i].ids;
            var recorded := exists i :: && 0 <= i < |claims| && claims[i].phase != Terminated
                                        && (claims[i].instance == id || claims[i].annotation == id);
            var tried := Attempt(id, true) in attempts || Attempt(id, false) in attempts;
            && (tried <==> listed && (!recorded || id == "0") && id in before)
            && (id in after <==> listed && (!recorded || id == "0") && (tried ==> Attempt(id, false) in attempts))
  {
    assert Shielded(claims, id) <==>
           id != "0" && exists i :: && 0 <= i < |claims| && claims[i].phase != Terminated
                                    && (claims[i].instance == id || claims[i].annotation == id);
  }

  class Collector {
    var candidates: set<Id>
    ghost var attempts: seq<Attempt>

    constructor ()
      ensures candidates == {} && attempts == []
    {
      candidates := {};
      attempts := [];
    }

    /** The provider's answer to a destroy request. */
    method Destroy(id: Id) returns (ok: bool)
      modifies this`attempts
      ensures attempts == old(attempts) + [Attempt(id, ok)]
    {
      ok := *;
      attempts := attempts + [Attempt(id, ok)];
    }

    method KnownInstances(claims: seq<Record>) returns (known: set<Id>)
      ensures forall id :: id in known <==> Shielded(claims, id)
      ensures forall id :: id in known <==>
                && id != "" && id != "0"
                && exists i :: 0 <= i < |claims| && claims[i].phase != Terminated
                               && (claims[i].instance == id || claims[i].annotation == id)
    {
      known := {};
      for i := 0 to |claims|
        invariant forall id :: id in known <==> Shielded(claims[..i], id)
      {
        var c := claims[i];
        var was := known;
        if c.phase != Terminated {
          if c.instance != "" && c.instance != "0" {
            known := known + {c.instance};
          }
          if c.annotation != "" && c.annotation != "0" {
            known := known + {c.annotation};
          }
        }
        forall id ensures id in known <==> Shielded(claims[..i + 1], id) {
          assert id in known <==> id in was || Shields(c, id);
          ShieldedStep(claims, i, id);
        }
      }
      assert claims[..|claims|] == claims;
    }

    /** If the claims cannot be listed, nothing happens at all. */
    method Sweep(list: ClaimList, listings: seq<Listing>)
      modifies this
      ensures list.ListFailed? ==> candidates == old(candidates) && attempts == old(attempts)
      ensures old(attempts) <= attempts
      ensures list.ClaimList? ==>
                SweptOk(list.claims, listings, old(candidates), attempts[|old(attempts)|..], candidates)
    {
      if list.ListFailed? {
        return;
      }
      var known := KnownInstances(list.claims);
      var orphans: set<Id> := {};
      ghost var before := attempts;
      for i := 0 to |listings|
        invariant candidates == old(candidates) && before <= attempts
        invariant forall id :: Attempted(attempts[|before|..], id) <==>
                               Listed(listings[..i], id) && Doomed(known, candidates, id)
        invariant forall id :: id in orphans <==>
                               && Listed(listings[..i], id) && id !in known
                               && (id in candidates ==> Attempt(id, false) in attempts[|before|..])
      {
        if listings[i].Listing? {
          orphans := Visit(known, listings[i].ids, orphans);
        }
        forall id ensures Listed(listings[..i + 1], id) <==>
                          Listed(listings[..i], id) || (listings[i].Listing? && id in listings[i].ids) {
          ListedStep(listings, i, id);
        }
      }
      assert listings[..|listings|] == listings;
      candidates := orphans;
    }

    /** The instances of one provider. */
    method Visit(known: set<Id>, ids: seq<Id>, seen: set<Id>) returns (orphans: set<Id>)
      modifies this`attempts
      ensures old(attempts) <= attempts
      ensures forall id :: Attempted(attempts[|old(attempts)|..], id) <==> id in ids && Doomed(known, candidates, id)
      ensures forall id :: id in orphans <==>
                || id in seen
                || (id in ids && id !in known
                    && (id in candidates ==> Attempt(id, false) in attempts[|old(attempts)|..]))
    {
      orphans := seen;
      for k := 0 to |ids|
        invariant old(attempts) <= attempts
        invariant forall id :: Attempted(attempts[|old(attempts)|..], id) <==>
                               id in ids[..k] && Doomed(known, candidates, id)
        invariant forall id :: id in orphans <==>
                    || id in seen
                    || (id in ids[..k] && id !in known
                        && (id in candidates ==> Attempt(id, false) in attempts[|old(attempts)|..]))
      {
        var id := ids[k];
        ghost var log := attempts[|old(attempts)|..];
        assert ids[..k + 1] == ids[..k] + [id];
        if id !in known {
          if id !in candidates {
            orphans := orphans + {id};
          } else {
            var ok := Destroy(id);
            assert attempts[|old(attempts)|..] == log + [Attempt(id, ok)];
            if !ok {
              orphans := orphans + {id};
            }
          }
        }
      }
      assert ids[..|ids|] == ids;
    }
  }

  lemma ShieldedStep(claims: seq<Record>, i: nat, id: Id)
    requires i < |claims|
    ensures Shielded(claims[..i + 1], id) <==> Shielded(claims[..i], id) || Shields(claims[i], id)
  {
  }

  lemma ListedStep(listings: seq<Listing>, i: nat, id: Id)
    requires i < |listings|
    ensures Listed(listings[..i + 1], id) <==>
            Listed(listings[..i], id) || (listings[i].Listing? && id in listings[i].ids)
  {
  }
}
