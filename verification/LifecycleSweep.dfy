/**
 Every completed sweep in a run of the lifecycle, whatever happens in between its steps, meets the contract of the
 collector's sweep.
 */
module LifecycleSweep {
  import opened Lifecycle
  import opened LifecycleRuns
  import opened LifecycleGc
  import opened InstanceGc

  /** Steps `k` and `l` begin and end one sweep. */
  ghost predicate OneSweep(states: seq<State>, acts: seq<Action>, k: nat, l: nat) {
    && IsRun(states, acts) && k < l < |acts| && acts[k].GcStart? && acts[l].GcEnd?
    && forall j :: k < j < l ==> InSweep(acts[j])
  }

  predicate InSweep(a: Action) {
    !a.GcStart? && !a.GcEnd? && !a.GcRestart?
  }

  predicate ListsAt(s: State, a: Action, id: Id) {
    a.GcListProvider? && a.ok && id in s.live && s.live[id] == a.p
  }

  predicate TriesAt(s: State, a: Action, id: Id, ok: bool) {
    a == GcVisit(id, ok) && GcDestroys(s, id)
  }

  ghost predicate RunLists(states: seq<State>, acts: seq<Action>, k: nat, j: nat, id: Id)
    requires j <= |acts| < |states|
  {
    exists i :: k < i < j && ListsAt(states[i], acts[i], id)
  }

  ghost predicate RunTries(states: seq<State>, acts: seq<Action>, k: nat, j: nat, id: Id, ok: bool)
    requires j <= |acts| < |states|
  {
    exists i :: k < i < j && TriesAt(states[i], acts[i], id, ok)
  }

  /** How the collector's books stand on one instance that the sweep has or has not listed, tried to destroy and
      failed to destroy. */
  predicate Booked(g: Gc, id: Id, listed: bool, tried: bool, failed: bool)
    requires g.Sweeping?
  {
    && (tried ==> listed && Doomed(g.known, g.candidates.Keys, id))
    && (listed && Doomed(g.known, g.candidates.Keys, id) ==> tried || id in g.listed)
    && (id in g.orphans ==> listed && id !in g.known && (id in g.candidates ==> failed))
    && (listed && id !in g.known && id !in g.candidates ==> id in g.orphans || id in g.listed)
    && (failed ==> tried && id in g.orphans)
    && (id in g.listed ==> listed)
  }

  lemma StepBooks(s: State, a: Action, id: Id, listed: bool, tried: bool, failed: bool)
    requires CanAct(s, a) && s.gc.Sweeping? && InSweep(a) && Booked(s.gc, id, listed, tried, failed)
    ensures Next(s, a).gc.Sweeping?
    ensures Next(s, a).gc.known == s.gc.known && Next(s, a).gc.candidates == s.gc.candidates
    ensures Booked(Next(s, a).gc, id, listed || ListsAt(s, a, id),
                   tried || TriesAt(s, a, id, true) || TriesAt(s, a, id, false), failed || TriesAt(s, a, id, false))
  {
  }

  lemma {:induction false} SweepBooks(states: seq<State>, acts: seq<Action>, k: nat, l: nat, j: nat, id: Id)
    requires OneSweep(states, acts, k, l) && k < j <= l
    ensures var g := states[j].gc;
            && g.Sweeping? && g.known == KnownIds(states[k]) && g.candidates == states[k].gc.candidates
            && Booked(g, id, RunLists(states, acts, k, j, id),
                      RunTries(states, acts, k, j, id, true) || RunTries(states, acts, k, j, id, false),
                      RunTries(states, acts, k, j, id, false))
  {
    var s, a := states[j - 1], acts[j - 1];
    assert CanAct(s, a) && states[j - 1 + 1] == Next(s, a);
    if j > k + 1 {
      SweepBooks(states, acts, k, l, j - 1, id);
      hide CanAct, Next;
      StepBooks(s, a, id, RunLists(states, acts, k, j - 1, id),
                RunTries(states, acts, k, j - 1, id, true) || RunTries(states, acts, k, j - 1, id, false),
                RunTries(states, acts, k, j - 1, id, false));
      StepSeen(states, acts, k, j, id);
    }
  }

  lemma StepSeen(states: seq<State>, acts: seq<Action>, k: nat, j: nat, id: Id)
    requires k + 1 < j <= |acts| < |states|
    ensures RunLists(states, acts, k, j, id) <==>
            RunLists(states, acts, k, j - 1, id) || ListsAt(states[j - 1], acts[j - 1], id)
    ensures forall ok :: RunTries(states, acts, k, j, id, ok) <==>
            RunTries(states, acts, k, j - 1, id, ok) || TriesAt(states[j - 1], acts[j - 1], id, ok)
  {
  }

  /** `claims` is what listing the claims of `s` gives. */
  ghost predicate IsClaimList(claims: seq<Record>, s: State) {
    forall r :: r in claims <==> exists c :: c in s.claims && !s.claims[c].gone && s.claims[c].Last() == r
  }

  lemma ShieldedIsKnown(claims: seq<Record>, s: State, id: Id)
    requires OwnInv(s) && IsClaimList(claims, s)
    ensures Shielded(claims, id) <==> id in KnownIds(s)
  {
    if Shielded(claims, id) {
      var i :| 0 <= i < |claims| && Shields(claims[i], id);
      assert claims[i] in claims;
      var c :| c in s.claims && !s.claims[c].gone && s.claims[c].Last() == claims[i];
      RecordedOwned(s, c, id);
      assert Protects(s.claims[c], id);
    }
    if id in KnownIds(s) {
      var c :| c in s.claims && Protects(s.claims[c], id);
      assert s.claims[c].Last() in claims;
    }
  }

  /** A completed sweep does exactly what the contract of the collector's sweep says, for the claims as stored at
      its start, the instances listed when their providers were asked, and the destroys it tried. */
  lemma SweepInRun(states: seq<State>, acts: seq<Action>, k: nat, l: nat, claims: seq<Record>, listings: seq<Listing>,
                   attempts: seq<Attempt>)
    requires OneSweep(states, acts, k, l) && IsClaimList(claims, states[k])
    requires forall id :: Listed(listings, id) <==> RunLists(states, acts, k, l, id)
    requires forall id, ok :: Attempt(id, ok) in attempts <==> RunTries(states, acts, k, l, id, ok)
    ensures states[l + 1].gc.Resting?
    ensures SweptOk(claims, listings, states[k].gc.candidates.Keys, attempts, states[l + 1].gc.candidates.Keys)
  {
    RunKeepsOwn(states, acts, k);
    assert CanAct(states[l], acts[l]) && states[l + 1] == Next(states[l], acts[l]);
    SweepBooks(states, acts, k, l, l, "");
    forall id
      ensures Attempted(attempts, id) <==>
              Listed(listings, id) && !Shielded(claims, id) && id in states[k].gc.candidates.Keys
      ensures id in states[l + 1].gc.candidates.Keys <==>
              && Listed(listings, id) && !Shielded(claims, id)
              && (id in states[k].gc.candidates.Keys ==> Attempt(id, false) in attempts)
    {
      SweepBooks(states, acts, k, l, l, id);
      ShieldedIsKnown(claims, states[k], id);
    }
  }

  /** An instance left running by a claim that ended Terminated is not forgotten: two sweeps that list it, the
      second starting while the claim is Terminated, try to destroy it. */
  lemma LeftoverIsTried(states: seq<State>, acts: seq<Action>, k: nat, l: nat, c: Name, id: Id)
    requires OneSweep(states, acts, k, l) && RunLists(states, acts, k, l, id)
    requires c in states[k].claims && states[k].claims[c].Last().phase == Terminated
    requires Records(states[k].claims[c].Last(), id) && id in states[k].gc.candidates
    ensures RunTries(states, acts, k, l, id, true) || RunTries(states, acts, k, l, id, false)
  {
    var s := states[k];
    RunKeepsOwn(states, acts, k);
    assert CanAct(states[l], acts[l]);
    SweepBooks(states, acts, k, l, l, id);
    if id in KnownIds(s) {
      var d :| d in s.claims && Protects(s.claims[d], id);
      RecordedOwned(s, c, id);
      RecordedOwned(s, d, id);
    }
  }
}
