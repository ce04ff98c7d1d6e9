/**
 Theorems about every run of the claim lifecycle.
 */
module LifecycleRuns {
  import opened Lifecycle
  import opened LifecycleInvariant

  // ---------------------------------------------------------------------------------------------
  // System invariant: claims and the instances issued for them
  // ---------------------------------------------------------------------------------------------

  ghost predicate ClaimsOk(claims: map<Name, Claim>) {
    forall c :: c in claims ==> ClaimInv(claims[c])
  }

  /** Every instance created for a claim was issued to that claim and to no other. */
  ghost predicate Owned(claims: map<Name, Claim>, owner: map<Id, Owner>) {
    forall c, i :: c in claims && 0 <= i < |claims[c].created| ==>
      claims[c].created[i] in owner && owner[claims[c].created[i]] == For(c)
  }

  ghost predicate OwnInv(s: State) {
    ClaimsOk(s.claims) && Owned(s.claims, s.owner)
  }

  /** How one step changes one claim. */
  lemma ClaimAfter(s: State, a: Action, c: Name)
    requires CanAct(s, a) && c in NextClaims(s, a)
    ensures c in s.claims ==>
              NextClaims(s, a)[c] == if a.On? && a.c == c then Step(s.claims[c], a.act) else s.claims[c]
    ensures c !in s.claims ==> |NextClaims(s, a)[c].hist| == 1 && NextClaims(s, a)[c].rec.Idle? && !a.On?
  {
  }

  lemma CreatedIssued(s: State, a: Action, c: Name)
    requires Owned(s.claims, s.owner) && CanAct(s, a) && c in s.claims
    requires a.On? && a.c == c && a.act.CreateOk?
    ensures a.act.id !in s.claims[c].created
  {
  }

  lemma NextKeepsClaim(s: State, a: Action, c: Name)
    requires OwnInv(s) && CanAct(s, a) && c in NextClaims(s, a)
    ensures ClaimInv(NextClaims(s, a)[c])
  {
    ClaimAfter(s, a, c);
    if c in s.claims {
      if a.On? && a.c == c {
        if a.act.CreateOk? { CreatedIssued(s, a, c); }
        StepKeepsClaim(s.claims[c], a.act);
      }
    }
  }

  lemma NextKeepsClaims(s: State, a: Action)
    requires OwnInv(s) && CanAct(s, a)
    ensures ClaimsOk(NextClaims(s, a))
  {
    forall c | c in NextClaims(s, a) ensures ClaimInv(NextClaims(s, a)[c]) {
      NextKeepsClaim(s, a, c);
    }
  }

  lemma CreatedGrows(s: State, a: Action, c: Name, i: nat)
    requires CanAct(s, a) && c in NextClaims(s, a) && i < |NextClaims(s, a)[c].created|
    ensures (c in s.claims && i < |s.claims[c].created| && NextClaims(s, a)[c].created[i] == s.claims[c].created[i])
            || (Issued(a).Issue? && Issued(a).id == NextClaims(s, a)[c].created[i] && Issued(a).owner == For(c))
  {
  }

  lemma IssuesFresh(s: State, a: Action)
    requires CanAct(s, a) && Issued(a).Issue?
    ensures Issued(a).id !in s.owner && Issued(a).id != ""
  {
  }

  lemma NextKeepsOwned(s: State, a: Action, c: Name, i: nat)
    requires Owned(s.claims, s.owner) && CanAct(s, a)
    requires c in NextClaims(s, a) && i < |NextClaims(s, a)[c].created|
    ensures var id := NextClaims(s, a)[c].created[i];
            id in Next(s, a).owner && Next(s, a).owner[id] == For(c)
  {
    CreatedGrows(s, a, c, i);
    if Issued(a).Issue? { IssuesFresh(s, a); }
  }

  lemma NextKeepsOwn(s: State, a: Action)
    requires OwnInv(s) && CanAct(s, a)
    ensures OwnInv(Next(s, a))
  {
    NextKeepsClaims(s, a);
    forall c, i | c in NextClaims(s, a) && 0 <= i < |NextClaims(s, a)[c].created|
      ensures var id := NextClaims(s, a)[c].created[i];
              id in Next(s, a).owner && Next(s, a).owner[id] == For(c)
    {
      NextKeepsOwned(s, a, c, i);
    }
  }

  lemma RunStep(states: seq<State>, acts: seq<Action>, j: nat)
    requires IsRun(states, acts) && j < |acts|
    ensures CanAct(states[j], acts[j]) && states[j + 1] == Next(states[j], acts[j])
  {
    hide CanAct, Next;
  }

  lemma {:induction false} RunKeepsOwn(states: seq<State>, acts: seq<Action>, k: nat)
    requires IsRun(states, acts) && k < |states|
    ensures OwnInv(states[k])
  {
    if k > 0 {
      RunKeepsOwn(states, acts, k - 1);
      NextKeepsOwn(states[k - 1], acts[k - 1]);
    }
  }

  // ---------------------------------------------------------------------------------------------
  // At most one create is ever recorded
  // ---------------------------------------------------------------------------------------------

  /** The claim in `t` comes from the claim in `s` by the step `a`, or it is new. */
  ghost predicate ComesFrom(s: State, a: Action, t: State, c: Name)
    requires c in t.claims
  {
    if c !in s.claims then |t.claims[c].hist| == 1
    else
      && ClaimInv(s.claims[c])
      && if a.On? && a.c == c then Enabled(s.claims[c], a.act) && t.claims[c] == Step(s.claims[c], a.act)
         else t.claims[c] == s.claims[c]
  }

  lemma StepBack(s: State, a: Action, c: Name)
    requires OwnInv(s) && CanAct(s, a) && c in Next(s, a).claims
    ensures ComesFrom(s, a, Next(s, a), c)
  {
    ClaimAfter(s, a, c);
    hide ClaimInv, NextClaims, Enabled, Step;
  }

  /** The claim one step earlier. */
  lemma OneStepBack(states: seq<State>, acts: seq<Action>, k: nat, c: Name)
    requires IsRun(states, acts) && 0 < k <= |acts| && c in states[k].claims
    ensures ComesFrom(states[k - 1], acts[k - 1], states[k], c)
  {
    assert |states| == |acts| + 1;
    hide *;
    RunStep(states, acts, k - 1);
    RunKeepsOwn(states, acts, k - 1);
    StepBack(states[k - 1], acts[k - 1], c);
  }

  /** The versions of a claim only ever grow. */
  lemma {:induction false} HistoryExtends(states: seq<State>, acts: seq<Action>, j: nat, k: nat, c: Name)
    requires IsRun(states, acts) && j <= k < |states| && c in states[j].claims
    ensures c in states[k].claims && states[j].claims[c].hist <= states[k].claims[c].hist
    decreases k
  {
    if j < k {
      HistoryExtends(states, acts, j, k - 1, c);
      RunStep(states, acts, k - 1);
      ClaimAfter(states[k - 1], acts[k - 1], c);
    }
  }

  /** Some stored version of the claim names the instance. */
  ghost predicate EverRecorded(c: Claim, id: Id) {
    exists i :: 0 <= i < |c.hist| && Records(c.hist[i], id)
  }

  lemma OnlyNewestRecorded(c: Claim, id: Id)
    requires ClaimInv(c) && EverRecorded(c, id)
    ensures id == Newest(c) && c.created != [] && Records(c.Last(), id)
  {
  }

  /** The creates of a claim that left no trace on it. */
  ghost function Untraced(c: Claim): set<Id> {
    set id | id in c.created && !EverRecorded(c, id)
  }

  lemma {:induction false} DistinctSize(ids: seq<Id>)
    requires forall i, j :: 0 <= i < j < |ids| ==> ids[i] != ids[j]
    ensures |set id | id in ids| == |ids|
  {
    if ids != [] {
      var front := ids[..|ids| - 1];
      DistinctSize(front);
      assert (set id | id in ids) == (set id | id in front) + {ids[|ids| - 1]};
    }
  }

  /** In every run, whatever reads are stale, calls fail and processes crash: a claim's successful
      creates number at most one more than those that never reached its annotation or its status. */
  lemma AtMostOneTracedCreate(states: seq<State>, acts: seq<Action>, k: nat, c: Name)
    requires IsRun(states, acts) && k < |states| && c in states[k].claims
    ensures |states[k].claims[c].created| <= 1 + |Untraced(states[k].claims[c])|
  {
    RunKeepsOwn(states, acts, k);
    var claim := states[k].claims[c];
    var all := set id | id in claim.created;
    DistinctSize(claim.created);
    forall id | id in all && id != Newest(claim)
      ensures id in Untraced(claim)
    {
      if EverRecorded(claim, id) { OnlyNewestRecorded(claim, id); }
    }
    assert all <= Untraced(claim) + {Newest(claim)};
    SubsetSize(all, Untraced(claim) + {Newest(claim)});
  }

  lemma {:induction false} SubsetSize<T>(a: set<T>, b: set<T>)
    requires a <= b
    ensures |a| <= |b|
  {
    if a != {} {
      var x :| x in a;
      SubsetSize(a - {x}, b - {x});
    }
  }

  /** A create happens only while no version of the claim, past or present, names an instance. */
  lemma CreateOnlyWhenUnrecorded(states: seq<State>, acts: seq<Action>, k: nat, c: Name, other: Id)
    requires IsRun(states, acts) && k < |acts| && acts[k].On? && acts[k].c == c && acts[k].act.CreateOk?
    ensures !EverRecorded(states[k].claims[c], other)
  {
    RunKeepsOwn(states, acts, k);
    NothingRecordedAtCreate(states[k].claims[c]);
  }
}
