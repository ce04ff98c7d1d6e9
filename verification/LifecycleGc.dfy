/**
 What the instance garbage collector may destroy, with sweeps that interleave with everything else.
 */
module LifecycleGc {
  import opened Lifecycle
  import opened LifecycleInvariant
  import opened LifecycleRuns
  import opened LifecyclePhases

  // ---------------------------------------------------------------------------------------------
  // When an instance was created, recorded and listed
  // ---------------------------------------------------------------------------------------------

  ghost predicate TimesInv(s: State) {
    && s.owner.Keys == s.createdAt.Keys
    && s.live.Keys <= s.owner.Keys
    && (forall id :: id in s.createdAt ==> s.createdAt[id] < s.clock)
    && (forall id :: id in s.recordedAt ==> s.recordedAt[id] < s.clock)
  }

  lemma NextKeepsTimes(s: State, a: Action)
    requires TimesInv(s) && CanAct(s, a)
    ensures TimesInv(Next(s, a))
  {
  }

  /** `recordedAt` holds exactly the instances that stand on the claim they were issued for. */
  ghost predicate RecordedInv(s: State) {
    && (forall c, id :: c in s.claims && Records(s.claims[c].Last(), id) ==> id in s.recordedAt)
    && (forall id :: id in s.recordedAt ==> StandsOn(s, id))
  }

  predicate StandsOn(s: State, id: Id) {
    && id in s.owner && s.owner[id].For? && s.owner[id].c in s.claims
    && Records(s.claims[s.owner[id].c].Last(), id)
  }

  lemma StepRecords(c: Claim, a: ClaimAct, id: Id)
    requires LocalInv(c) && Enabled(c, a) && Write(c, a) != [] && Records(Write(c, a)[0], id)
    ensures Records(c.Last(), id) || id == Signed(c, a)
  {
  }

  lemma ClaimRecords(c: Claim, a: ClaimAct, id: Id)
    requires ClaimInv(c) && Enabled(c, a) && Records(Step(c, a).Last(), id)
    ensures Records(c.Last(), id) || id == Signed(c, a)
  {
    LocalFromInv(c);
    if Write(c, a) != [] {
      WriteAtMostOne(c, a);
      StepRecords(c, a, id);
    }
  }

  /** A step that makes a claim name an instance is the annotation patch, the status write, or the
      adoption of the claim. */
  lemma RecordsGrow(s: State, a: Action, c: Name, id: Id)
    requires OwnInv(s) && CanAct(s, a) && c in NextClaims(s, a) && Records(NextClaims(s, a)[c].Last(), id)
    ensures (c in s.claims && Records(s.claims[c].Last(), id)) || id == Written(s, a)
  {
    ClaimAfter(s, a, c);
    if c in s.claims && a.On? && a.c == c {
      ClaimRecords(s.claims[c], a.act, id);
    }
  }

  lemma StepKeepsRecord(c: Claim, a: ClaimAct, id: Id)
    requires ClaimInv(c) && Enabled(c, a) && Records(c.Last(), id)
    ensures Records(Step(c, a).Last(), id)
  {
    LocalFromInv(c);
    WriteEvolves(c, a);
  }

  lemma SignedStands(c: Claim, a: ClaimAct)
    requires ClaimInv(c) && Enabled(c, a) && Signed(c, a) != ""
    ensures Records(Step(c, a).Last(), Signed(c, a)) && Signed(c, a) in c.created
  {
  }

  lemma OwnerStays(s: State, a: Action, id: Id)
    requires CanAct(s, a) && id in s.owner
    ensures id in Next(s, a).owner && Next(s, a).owner[id] == s.owner[id]
  {
    if Issued(a).Issue? { IssuesFresh(s, a); }
  }

  lemma ClaimStays(s: State, a: Action, c: Name)
    requires CanAct(s, a) && c in s.claims
    ensures c in Next(s, a).claims
    ensures Next(s, a).claims[c] == if a.On? && a.c == c then Step(s.claims[c], a.act) else s.claims[c]
  {
    ClaimAfter(s, a, c);
  }

  lemma NextKeepsStanding(s: State, a: Action, id: Id)
    requires OwnInv(s) && CanAct(s, a) && StandsOn(s, id)
    ensures StandsOn(Next(s, a), id)
  {
    var c := s.owner[id].c;
    OwnerStays(s, a, id);
    ClaimStays(s, a, c);
    if a.On? && a.c == c {
      assert ClaimInv(s.claims[c]) && Enabled(s.claims[c], a.act);
      hide *;
      StepKeepsRecord(s.claims[c], a.act, id);
    }
  }

  lemma WrittenStands(s: State, a: Action)
    requires OwnInv(s) && CanAct(s, a) && Written(s, a) != ""
    ensures StandsOn(Next(s, a), Written(s, a))
  {
    if a.On? {
      SignedStands(s.claims[a.c], a.act);
    }
  }

  lemma RecordedAtGrows(s: State, a: Action, id: Id)
    requires CanAct(s, a)
    ensures id in Next(s, a).recordedAt <==> id in s.recordedAt || (id == Written(s, a) && id != "")
  {
  }

  lemma NextKeepsStamped(s: State, a: Action, c: Name, id: Id)
    requires OwnInv(s) && RecordedInv(s) && CanAct(s, a)
    requires c in NextClaims(s, a) && Records(NextClaims(s, a)[c].Last(), id)
    ensures id in Next(s, a).recordedAt
  {
    RecordsGrow(s, a, c, id);
    RecordedAtGrows(s, a, id);
  }

  lemma NextStampsStand(s: State, a: Action, id: Id)
    requires OwnInv(s) && RecordedInv(s) && CanAct(s, a) && id in Next(s, a).recordedAt
    ensures StandsOn(Next(s, a), id)
  {
    RecordedAtGrows(s, a, id);
    if id in s.recordedAt { NextKeepsStanding(s, a, id); } else { WrittenStands(s, a); }
  }

  lemma NextKeepsRecorded(s: State, a: Action)
    requires OwnInv(s) && RecordedInv(s) && CanAct(s, a)
    ensures RecordedInv(Next(s, a))
  {
    forall c, id | c in NextClaims(s, a) && Records(NextClaims(s, a)[c].Last(), id)
      ensures id in Next(s, a).recordedAt
    {
      NextKeepsStamped(s, a, c, id);
    }
    forall id | id in Next(s, a).recordedAt
      ensures StandsOn(Next(s, a), id)
    {
      NextStampsStand(s, a, id);
    }
  }

  // ---------------------------------------------------------------------------------------------
  // The sweep
  // ---------------------------------------------------------------------------------------------

  /** Each listed instance existed before the listing that saw it, and the listing came before `until`. */
  ghost predicate SeenOk(s: State, seen: map<Id, nat>, until: nat) {
    forall id :: id in seen ==> id in s.createdAt && s.createdAt[id] < seen[id] < until
  }

  ghost predicate SweepInv(s: State) {
    match s.gc
    case Resting(candidates) => SeenOk(s, candidates, s.clock)
    case Sweeping(candidates, known, skipped, claimsAt, todo, listed, listedAt, orphans) =>
      && claimsAt <= listedAt < s.clock
      && SeenOk(s, candidates, claimsAt)
      && SeenOk(s, orphans, s.clock)
      && (forall id :: id in listed ==> id in s.createdAt && s.createdAt[id] < listedAt)
  }

  /** The collector's own steps. */
  lemma CollectorKeepsSweep(s: State, a: Action)
    requires TimesInv(s) && SweepInv(s) && CanAct(s, a) && Issued(a).NoIssue?
    ensures SweepInv(Next(s, a))
  {
    hide NextClaims;
  }

  /** Creation times are never changed. */
  lemma CreatedAtStays(s: State, a: Action)
    requires TimesInv(s) && CanAct(s, a)
    ensures forall id :: id in s.createdAt ==>
              id in Next(s, a).createdAt && Next(s, a).createdAt[id] == s.createdAt[id]
  {
    if Issued(a).Issue? { IssuesFresh(s, a); }
    hide NextClaims, NextLive, NextGc, Written;
  }

  /** Everybody else's leave the collector's books alone. */
  lemma OthersKeepSweep(s: State, a: Action)
    requires TimesInv(s) && SweepInv(s) && CanAct(s, a) && Issued(a).Issue?
    ensures SweepInv(Next(s, a))
  {
    CreatedAtStays(s, a);
    assert Next(s, a).gc == s.gc && Next(s, a).clock == s.clock + 1;
    hide TimesInv, CanAct, Next, Issued;
  }

  lemma NextKeepsSweep(s: State, a: Action)
    requires TimesInv(s) && SweepInv(s) && CanAct(s, a)
    ensures SweepInv(Next(s, a))
  {
    hide TimesInv, SweepInv, CanAct, Next;
    if Issued(a).Issue? { OthersKeepSweep(s, a); } else { CollectorKeepsSweep(s, a); }
  }

  /** An instance passed over was recorded, and its claim was Terminated at some time. */
  ghost predicate SkippedInv(s: State) {
    s.gc.Sweeping? ==>
      && s.gc.skipped <= s.recordedAt.Keys
      && forall c, id :: c in s.claims && id in s.gc.skipped && Records(s.claims[c].Last(), id) ==>
           EverTerminated(s.claims[c])
  }

  ghost predicate EverTerminated(c: Claim) {
    exists i :: 0 <= i < |c.hist| && c.hist[i].phase == Terminated
  }

  lemma RecordedOwned(s: State, c: Name, id: Id)
    requires OwnInv(s) && c in s.claims && Records(s.claims[c].Last(), id)
    ensures id in s.owner && s.owner[id] == For(c)
  {
  }

  ghost predicate Covered(s: State, c: Name, id: Id)
    requires s.gc.Sweeping?
  {
    c in s.claims && !s.claims[c].gone && Records(s.claims[c].Last(), id) && id != "0"
    && id in s.recordedAt && s.recordedAt[id] < s.gc.claimsAt ==>
      id in s.gc.known || id in s.gc.skipped
  }

  /** What the claim listing of the running sweep missed: an instance recorded before it, on a claim
      that still exists, is known or was passed over on a Terminated claim. */
  ghost predicate ListedInv(s: State) {
    s.gc.Sweeping? ==> forall c, id :: Covered(s, c, id)
  }

  lemma StartLists(s: State, c: Name, id: Id)
    requires OwnInv(s) && c in s.claims && !s.claims[c].gone && Records(s.claims[c].Last(), id) && id != "0"
    ensures id in KnownIds(s) || id in SkippedIds(s)
  {
  }

  lemma StartSkips(s: State, c: Name, id: Id)
    requires OwnInv(s) && c in s.claims && id in SkippedIds(s) && Records(s.claims[c].Last(), id)
    ensures EverTerminated(s.claims[c])
  {
  }

  lemma AlreadyThere(s: State, a: Action, c: Name, id: Id)
    requires OwnInv(s) && RecordedInv(s) && CanAct(s, a)
    requires id in s.recordedAt && c in NextClaims(s, a) && Records(NextClaims(s, a)[c].Last(), id)
    ensures c in s.claims && Records(s.claims[c].Last(), id)
  {
    NextKeepsOwn(s, a);
    RecordedOwned(Next(s, a), c, id);
    assert StandsOn(s, id);
    if Issued(a).Issue? { IssuesFresh(s, a); }
  }

  lemma GoneStays(s: State, a: Action, c: Name)
    requires CanAct(s, a) && c in s.claims && s.claims[c].gone
    ensures c in NextClaims(s, a) && NextClaims(s, a)[c].gone
  {
  }

  lemma HistoryGrows(s: State, a: Action, c: Name)
    requires CanAct(s, a) && c in s.claims && EverTerminated(s.claims[c])
    ensures c in NextClaims(s, a) && EverTerminated(NextClaims(s, a)[c])
  {
    ClaimAfter(s, a, c);
    var i :| 0 <= i < |s.claims[c].hist| && s.claims[c].hist[i].phase == Terminated;
    assert NextClaims(s, a)[c].hist[i].phase == Terminated;
  }

  lemma RecordedEarlier(s: State, a: Action, id: Id)
    requires TimesInv(s) && SweepInv(s) && CanAct(s, a)
    requires Next(s, a).gc.Sweeping? && id in Next(s, a).recordedAt
    requires Next(s, a).recordedAt[id] < Next(s, a).gc.claimsAt
    ensures id in s.recordedAt && s.recordedAt[id] == Next(s, a).recordedAt[id]
  {
  }

  lemma SweepStands(s: State, a: Action)
    requires CanAct(s, a) && Next(s, a).gc.Sweeping? && !a.GcStart?
    ensures s.gc.Sweeping? && Next(s, a).gc.known == s.gc.known && Next(s, a).gc.skipped == s.gc.skipped
    ensures Next(s, a).gc.claimsAt == s.gc.claimsAt
  {
  }

  lemma NextKeepsCovered(s: State, a: Action, c: Name, id: Id)
    requires OwnInv(s) && RecordedInv(s) && TimesInv(s) && ListedInv(s) && SweepInv(s) && CanAct(s, a)
    requires Next(s, a).gc.Sweeping?
    ensures Covered(Next(s, a), c, id)
  {
    var s' := Next(s, a);
    if c in s'.claims && !s'.claims[c].gone && Records(s'.claims[c].Last(), id) && id != "0"
       && id in s'.recordedAt && s'.recordedAt[id] < s'.gc.claimsAt {
      RecordedEarlier(s, a, id);
      AlreadyThere(s, a, c, id);
      if s.claims[c].gone { GoneStays(s, a, c); }
      if a.GcStart? {
        StartLists(s, c, id);
      } else {
        SweepStands(s, a);
        assert Covered(s, c, id);
      }
    }
  }

  lemma NextKeepsListed(s: State, a: Action)
    requires OwnInv(s) && RecordedInv(s) && TimesInv(s) && ListedInv(s) && SweepInv(s) && CanAct(s, a)
    ensures ListedInv(Next(s, a))
  {
    if Next(s, a).gc.Sweeping? {
      forall c, id ensures Covered(Next(s, a), c, id) {
        NextKeepsCovered(s, a, c, id);
      }
    }
  }

  lemma NextKeepsSkipped(s: State, a: Action)
    requires OwnInv(s) && RecordedInv(s) && SkippedInv(s) && CanAct(s, a)
    ensures SkippedInv(Next(s, a))
  {
    var s' := Next(s, a);
    if s'.gc.Sweeping? {
      if a.GcStart? { SkippedRecorded(s); }
      forall c, id | c in s'.claims && id in s'.gc.skipped && Records(s'.claims[c].Last(), id)
        ensures EverTerminated(s'.claims[c])
      {
        assert id in s.recordedAt;
        AlreadyThere(s, a, c, id);
        if a.GcStart? { StartSkips(s, c, id); }
        HistoryGrows(s, a, c);
      }
    }
  }

  lemma SkippedRecorded(s: State)
    requires OwnInv(s) && RecordedInv(s)
    ensures SkippedIds(s) <= s.recordedAt.Keys
  {
  }

  /** What the claim listing found: an instance known to the running sweep was recorded before the listing, is
      not the one called "0", and stands on no claim that was Terminated then. */
  ghost predicate KnownInv(s: State) {
    s.gc.Sweeping? ==> forall id :: id in s.gc.known ==>
      id != "0" && id !in s.gc.skipped && id in s.recordedAt && s.recordedAt[id] < s.gc.claimsAt
  }

  lemma KnownAtStart(s: State, id: Id)
    requires OwnInv(s) && TimesInv(s) && RecordedInv(s) && id in KnownIds(s)
    ensures id != "0" && id !in SkippedIds(s) && id in s.recordedAt && s.recordedAt[id] < s.clock
  {
    var c :| c in s.claims && Protects(s.claims[c], id);
    RecordedOwned(s, c, id);
    if id in SkippedIds(s) {
      var d :| d in s.claims && s.claims[d].Last().phase == Terminated && Records(s.claims[d].Last(), id);
      RecordedOwned(s, d, id);
    }
  }

  lemma StampStays(s: State, a: Action, id: Id)
    requires CanAct(s, a) && id in s.recordedAt
    ensures id in Next(s, a).recordedAt && Next(s, a).recordedAt[id] == s.recordedAt[id]
  {
  }

  lemma NextKeepsKnown(s: State, a: Action)
    requires OwnInv(s) && TimesInv(s) && RecordedInv(s) && KnownInv(s) && CanAct(s, a)
    ensures KnownInv(Next(s, a))
  {
    var t := Next(s, a);
    if t.gc.Sweeping? {
      if !a.GcStart? { SweepStands(s, a); }
      forall id | id in t.gc.known
        ensures id != "0" && id !in t.gc.skipped && id in t.recordedAt && t.recordedAt[id] < t.gc.claimsAt
      {
        if a.GcStart? { KnownAtStart(s, id); }
        StampStays(s, a, id);
      }
    }
  }

  ghost predicate GcInv(s: State) {
    OwnInv(s) && TimesInv(s) && RecordedInv(s) && SweepInv(s) && ListedInv(s) && SkippedInv(s) && KnownInv(s)
  }

  lemma {:induction false} RunKeepsGc(states: seq<State>, acts: seq<Action>, k: nat)
    requires IsRun(states, acts) && k < |states|
    ensures GcInv(states[k])
  {
    if k > 0 {
      var s, a := states[k - 1], acts[k - 1];
      RunKeepsGc(states, acts, k - 1);
      NextKeepsOwn(s, a);
      NextKeepsTimes(s, a);
      NextKeepsRecorded(s, a);
      NextKeepsSweep(s, a);
      NextKeepsListed(s, a);
      NextKeepsSkipped(s, a);
      NextKeepsKnown(s, a);
    }
  }

  // ---------------------------------------------------------------------------------------------
  // Theorems
  // ---------------------------------------------------------------------------------------------

  /** The gap from the provider listing of the previous completed sweep to the claim listing of this
      one lies between the creation of the instance and its recording. */
  predicate GapInside(s: State, id: Id) {
    && s.gc.Sweeping? && id in s.createdAt && id in s.gc.candidates && id in s.recordedAt
    && s.createdAt[id] < s.gc.candidates[id] < s.gc.claimsAt <= s.recordedAt[id]
  }

  predicate Unfinished(c: Claim) {
    !c.gone && c.Last().phase != Terminated
  }

  /** The claim was Terminated when the running sweep listed the claims, and is not any more. */
  ghost predicate CameBack(s: State, c: Claim, id: Id)
    requires s.gc.Sweeping?
  {
    id in s.gc.skipped && EverTerminated(c) && Unfinished(c)
  }

  /** In every run, whether the collector destroys an instance that stands on a live claim: exactly if the
      previous sweep found it orphaned and it stands in that gap, or its claim came back from Terminated since
      the claims were listed, or it is the instance called "0". */
  lemma DestroysRecordedExactlyWhen(states: seq<State>, acts: seq<Action>, k: nat, id: Id, ok: bool, c: Name)
    requires IsRun(states, acts) && k < |acts| && acts[k] == GcVisit(id, ok)
    requires c in states[k].claims && Unfinished(states[k].claims[c]) && Records(states[k].claims[c].Last(), id)
    ensures GcDestroys(states[k], id) <==>
            && id in states[k].gc.candidates
            && (GapInside(states[k], id) || CameBack(states[k], states[k].claims[c], id) || id == "0")
  {
    RunKeepsGc(states, acts, k);
    var s := states[k];
    assert CanAct(s, acts[k]);
    hide CanAct, Next;
    assert Covered(s, c, id);
    assert id in s.recordedAt;
  }

  /** A claim whose phases never went back did not come back from Terminated. */
  lemma MonotoneNeverCameBack(s: State, c: Claim, id: Id)
    requires s.gc.Sweeping? && Monotone(c)
    ensures !CameBack(s, c, id)
  {
    if CameBack(s, c, id) {
      var i :| 0 <= i < |c.hist| && c.hist[i].phase == Terminated;
      TerminatedIsFinal(c, i, |c.hist| - 1);
    }
  }

  /** An instance recorded before the sweep listed the claims survives the visit, unless its claim has come
      back from Terminated since. */
  lemma RecordedInTimeIsSafe(states: seq<State>, acts: seq<Action>, k: nat, id: Id, ok: bool, c: Name)
    requires IsRun(states, acts) && k < |acts| && acts[k] == GcVisit(id, ok)
    requires c in states[k].claims && Unfinished(states[k].claims[c]) && Records(states[k].claims[c].Last(), id)
    requires id != "0"
    requires id in states[k].recordedAt && states[k].recordedAt[id] < states[k].gc.claimsAt
    requires !CameBack(states[k], states[k].claims[c], id)
    ensures id in states[k + 1].live <==> id in states[k].live
  {
    DestroysRecordedExactlyWhen(states, acts, k, id, ok, c);
  }
}
