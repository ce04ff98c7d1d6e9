/**
 When the disruptor can destroy the instance of a claim that is not draining any more.
 */
module LifecycleDrain {
  import opened Lifecycle
  import opened LifecycleInvariant
  import opened LifecycleRuns
  import opened LifecyclePhases

  /** Since version `v` of the claim was stored, a write over the overtaken claim has taken it back, and no version
      stored after that is Draining or later. */
  ghost predicate OvertakenSince(states: seq<State>, acts: seq<Action>, k: nat, c: Name, v: nat)
    requires IsRun(states, acts) && k <= |acts| && c in states[k].claims
  {
    exists j :: && 0 <= j < k && Overtakes(states[j], acts[j], c) && v < |states[j].claims[c].hist|
                && LowFrom(states[k].claims[c].hist, |states[j].claims[c].hist|)
  }

  predicate LowFrom(hist: seq<Record>, from: nat) {
    forall i :: from <= i < |hist| ==> Rank(hist[i].phase) < Rank(Draining)
  }

  lemma OvertakenGivesLow(states: seq<State>, acts: seq<Action>, k: nat, c: Name, v: nat)
    requires IsRun(states, acts) && k <= |acts| && c in states[k].claims && OvertakenSince(states, acts, k, c, v)
    ensures Rank(states[k].claims[c].Last().phase) < Rank(Draining)
  {
    var j :| && 0 <= j < k && Overtakes(states[j], acts[j], c) && v < |states[j].claims[c].hist|
             && LowFrom(states[k].claims[c].hist, |states[j].claims[c].hist|);
    assert CanAct(states[j], acts[j]) && states[j + 1] == Next(states[j], acts[j]);
    OvertakenWrites(states[j].claims[c], acts[j].act);
    HistoryExtends(states, acts, j + 1, k, c);
  }

  lemma OvertakenWrites(c: Claim, a: ClaimAct)
    requires Enabled(c, a) && Overtaken(c, a)
    ensures |Step(c, a).hist| == |c.hist| + 1
  {
  }

  /** The step that takes a claim back below Draining is such a write. */
  lemma StepGoesLow(c: Claim, a: ClaimAct)
    requires ClaimInv(c) && Enabled(c, a)
    requires Rank(c.Last().phase) >= Rank(Draining) > Rank(Step(c, a).Last().phase)
    ensures Overtaken(c, a) && LowFrom(Step(c, a).hist, |c.hist|)
  {
    WriteAtMostOne(c, a);
    DropsExactlyWhenOvertaken(c, a);
  }

  lemma StepStaysLow(c: Claim, a: ClaimAct, from: nat)
    requires Enabled(c, a) && from <= |c.hist| && LowFrom(c.hist, from)
    requires Rank(Step(c, a).Last().phase) < Rank(Draining)
    ensures LowFrom(Step(c, a).hist, from)
  {
    WriteAtMostOne(c, a);
  }

  lemma StillOvertaken(states: seq<State>, acts: seq<Action>, k: nat, c: Name, v: nat)
    requires IsRun(states, acts) && 0 < k <= |acts| && c in states[k].claims && c in states[k - 1].claims
    requires OvertakenSince(states, acts, k - 1, c, v) && Rank(states[k].claims[c].Last().phase) < Rank(Draining)
    ensures OvertakenSince(states, acts, k, c, v)
  {
    OneStepBack(states, acts, k, c);
    var was := states[k - 1].claims[c];
    var j :| && 0 <= j < k - 1 && Overtakes(states[j], acts[j], c) && v < |states[j].claims[c].hist|
             && LowFrom(was.hist, |states[j].claims[c].hist|);
    HistoryExtends(states, acts, j, k - 1, c);
    hide IsRun, ClaimInv, Rank, Enabled, Step, LowFrom;
    if acts[k - 1].On? && acts[k - 1].c == c { StepStaysLow(was, acts[k - 1].act, |states[j].claims[c].hist|); }
  }

  lemma NowOvertaken(states: seq<State>, acts: seq<Action>, k: nat, c: Name, v: nat)
    requires IsRun(states, acts) && 0 < k <= |acts| && c in states[k].claims && c in states[k - 1].claims
    requires v < |states[k - 1].claims[c].hist|
    requires Rank(states[k - 1].claims[c].Last().phase) >= Rank(Draining) > Rank(states[k].claims[c].Last().phase)
    ensures OvertakenSince(states, acts, k, c, v)
  {
    OneStepBack(states, acts, k, c);
    hide IsRun, ClaimInv, Rank, Enabled, Step, LowFrom;
    StepGoesLow(states[k - 1].claims[c], acts[k - 1].act);
    assert Overtakes(states[k - 1], acts[k - 1], c);
  }

  lemma StepExtends(states: seq<State>, acts: seq<Action>, k: nat, c: Name)
    requires IsRun(states, acts) && 0 < k <= |acts| && c in states[k].claims && c in states[k - 1].claims
    ensures var was, now := states[k - 1].claims[c].hist, states[k].claims[c].hist;
            was == now || (was == now[..|now| - 1])
  {
    OneStepBack(states, acts, k, c);
    if acts[k - 1].On? && acts[k - 1].c == c { WriteAtMostOne(states[k - 1].claims[c], acts[k - 1].act); }
  }

  lemma NotInitial(states: seq<State>, acts: seq<Action>, k: nat, c: Name)
    requires IsRun(states, acts) && k <= |acts| && c in states[k].claims
    ensures k > 0 && |states| == |acts| + 1
  {
    hide Next, CanAct;
  }

  lemma NewHasOneVersion(states: seq<State>, acts: seq<Action>, k: nat, c: Name)
    requires IsRun(states, acts) && 0 < k <= |acts| && c in states[k].claims && c !in states[k - 1].claims
    ensures |states[k].claims[c].hist| == 1
  {
    hide IsRun, ClaimInv, Enabled, Step;
    OneStepBack(states, acts, k, c);
  }

  /** A version that outranks the newest one was stored before the last step. */
  lemma EarlierStored(states: seq<State>, acts: seq<Action>, k: nat, c: Name, v: nat)
    requires IsRun(states, acts) && k <= |acts| && c in states[k].claims && v < |states[k].claims[c].hist|
    requires Rank(states[k].claims[c].hist[v].phase) > Rank(states[k].claims[c].Last().phase)
    ensures k > 0 && |states| == |acts| + 1 && c in states[k - 1].claims && v < |states[k - 1].claims[c].hist|
    ensures states[k - 1].claims[c].hist[v] == states[k].claims[c].hist[v]
  {
    NotInitial(states, acts, k, c);
    hide IsRun, Rank;
    var hist := states[k].claims[c].hist;
    assert hist[|hist| - 1] == states[k].claims[c].Last();
    if c !in states[k - 1].claims {
      NewHasOneVersion(states, acts, k, c);
    } else {
      StepExtends(states, acts, k, c);
    }
  }

  lemma {:induction false} LowGivesOvertaken(states: seq<State>, acts: seq<Action>, k: nat, c: Name, v: nat)
    requires IsRun(states, acts) && k <= |acts| && c in states[k].claims && v < |states[k].claims[c].hist|
    requires Rank(states[k].claims[c].hist[v].phase) >= Rank(Draining)
    requires Rank(states[k].claims[c].Last().phase) < Rank(Draining)
    ensures OvertakenSince(states, acts, k, c, v)
  {
    hide *;
    EarlierStored(states, acts, k, c, v);
    if Rank(states[k - 1].claims[c].Last().phase) < Rank(Draining) {
      LowGivesOvertaken(states, acts, k - 1, c, v);
      StillOvertaken(states, acts, k, c, v);
    } else {
      NowOvertaken(states, acts, k, c, v);
    }
  }

  /** In every run: when the disruptor destroys an instance, the stored phase is neither Draining nor Terminated
      if and only if an unguarded write has taken the claim back since the disruptor stored Draining, and nothing
      has moved it on again. */
  lemma DestroysUndrainedExactlyWhen(states: seq<State>, acts: seq<Action>, k: nat)
    requires IsRun(states, acts) && k < |acts| && acts[k].On? && acts[k].act.DisDestroy?
    ensures var c := states[k].claims[acts[k].c];
            c.Last().phase !in {Draining, Terminated} <==> OvertakenSince(states, acts, k, acts[k].c, c.dis.v)
  {
    RunStep(states, acts, k);
    RunKeepsOwn(states, acts, k);
    var c := states[k].claims[acts[k].c];
    AtDestroy(c, acts[k].act);
    hide *;
    if Rank(c.Last().phase) < Rank(Draining) {
      LowGivesOvertaken(states, acts, k, acts[k].c, c.dis.v);
    }
    if OvertakenSince(states, acts, k, acts[k].c, c.dis.v) {
      OvertakenGivesLow(states, acts, k, acts[k].c, c.dis.v);
    }
  }

  lemma AtDestroy(c: Claim, a: ClaimAct)
    requires ClaimInv(c) && Enabled(c, a) && a.DisDestroy?
    ensures c.dis.DDraining? && c.dis.v < |c.hist| && c.hist[c.dis.v].phase == Draining
    ensures Rank(c.hist[c.dis.v].phase) == Rank(Draining)
    ensures c.Last().phase !in {Draining, Terminated} <==> Rank(c.Last().phase) < Rank(Draining)
  {
    assert c.hist[|c.hist| - 1] == c.Last();
  }

  /** While the phases of a claim have not gone back, the disruptor destroys its instance only when the
      stored phase is already Draining or Terminated. */
  lemma DisruptorDestroysOnlyDrained(states: seq<State>, acts: seq<Action>, k: nat)
    requires IsRun(states, acts) && k < |acts| && acts[k].On? && acts[k].act.DisDestroy?
    requires Monotone(states[k].claims[acts[k].c])
    ensures states[k].claims[acts[k].c].Last().phase in {Draining, Terminated}
  {
    PhasesMonotoneExactlyWhen(states, acts, k, acts[k].c);
    DestroysUndrainedExactlyWhen(states, acts, k);
  }

  // ---------------------------------------------------------------------------------------------
  // Reconcile calls that never start from an older version than an earlier call
  // ---------------------------------------------------------------------------------------------

  predicate Dispatches(a: Action, c: Name) {
    a.On? && a.c == c && a.act.Dispatch?
  }

  /** The Reconcile calls on `c` in the first `n` steps start from versions that never go back; they may all be
      stale, and so may every other read. */
  ghost predicate DispatchesAdvance(acts: seq<Action>, n: nat, c: Name)
    requires n <= |acts|
  {
    forall i, j :: 0 <= i < j < n && Dispatches(acts[i], c) && Dispatches(acts[j], c) ==> acts[i].act.v <= acts[j].act.v
  }

  /** A Reconcile call has started from a version that is Bootstrapping or later. */
  predicate StartsBooted(s: State, a: Action, c: Name) {
    Dispatches(a, c) && c in s.claims && a.act.v < |s.claims[c].hist| && Rank(s.claims[c].hist[a.act.v].phase) > 0
  }

  ghost predicate SeenBooted(states: seq<State>, acts: seq<Action>, n: nat, c: Name)
    requires n <= |acts| < |states|
  {
    exists j :: 0 <= j < n && StartsBooted(states[j], acts[j], c)
  }

  predicate Reusing(rec: RecPc) {
    (rec.Recording? || rec.RecordingGot?) && rec.reused
  }

  ghost predicate Has(hist: seq<Record>, p: Phase) {
    exists i :: 0 <= i < |hist| && hist[i].phase == p
  }

  /** The claim's first versions are the ones before Bootstrapping; it drains only after it was Ready; and once it
      was Ready, the reconciler has seen it booted and is not about to reuse an instance. */
  ghost predicate DrainOk(c: Claim, seen: bool) {
    && (forall i, j :: 0 <= i <= j < |c.hist| && Rank(c.hist[i].phase) > 0 ==> Rank(c.hist[j].phase) > 0)
    && (Has(c.hist, Draining) ==> Has(c.hist, Ready))
    && (c.rec.Got? ==> c.rec.v < |c.hist|)
    && (c.rec.Got? && Rank(c.hist[c.rec.v].phase) > 0 ==> seen)
    && (Has(c.hist, Ready) ==> seen && !Reusing(c.rec) && (c.rec.Got? ==> Rank(c.hist[c.rec.v].phase) > 0))
  }

  lemma CounterAfterQuiet(c: Claim, a: ClaimAct)
    requires Enabled(c, a) && Write(c, a) == []
    ensures NextRec(c, a).Got? ==> NextRec(c, a) == c.rec || (a.Dispatch? && NextRec(c, a).v == a.v < |c.hist|)
    ensures Reusing(NextRec(c, a)) ==>
              Reusing(c.rec) || (c.rec.Got? && c.rec.v < |c.hist| && Rank(c.hist[c.rec.v].phase) == 0)
  {
  }

  /** A step that stores nothing. */
  lemma QuietStepKeepsDrain(c: Claim, a: ClaimAct, seen: bool)
    requires ClaimInv(c) && DrainOk(c, seen) && Enabled(c, a) && Write(c, a) == []
    requires a.Dispatch? && seen ==> Rank(c.hist[a.v].phase) > 0
    ensures DrainOk(Step(c, a), seen || (a.Dispatch? && Rank(c.hist[a.v].phase) > 0))
  {
    CounterAfterQuiet(c, a);
    assert Step(c, a).hist == c.hist && Step(c, a).rec == NextRec(c, a);
    hide ClaimInv, Enabled, Write, NextRec, Step;
  }

  /** What the stored phase may become, and from what. */
  lemma WritesFrom(c: Claim, a: ClaimAct)
    requires ClaimInv(c) && Enabled(c, a) && Write(c, a) != []
    ensures var r := Write(c, a)[0];
            && |Write(c, a)| == 1
            && (Rank(c.Last().phase) > 0 ==> Rank(r.phase) > 0)
            && (r.phase == Draining && c.Last().phase != Draining ==> a.DisDrain? && c.Last().phase == Ready)
            && (r.phase == Ready && c.Last().phase != Ready ==>
                  a.WriteReady? && c.rec.Got? && c.rec.v < |c.hist| && Rank(c.hist[c.rec.v].phase) > 0)
  {
    LocalFromInv(c);
    WriteEvolves(c, a);
    WriteAtMostOne(c, a);
  }

  lemma CounterAfterWrite(c: Claim, a: ClaimAct)
    requires Enabled(c, a) && Write(c, a) != []
    ensures a.WriteReady? ==> NextRec(c, a).Idle?
    ensures Reusing(NextRec(c, a)) ==> Reusing(c.rec)
    ensures NextRec(c, a).Got? ==>
              || NextRec(c, a) == c.rec
              || (c.rec.Got? && c.rec.v < |c.hist| && NextRec(c, a).v == |c.hist|
                  && Write(c, a)[0].phase == c.hist[c.rec.v].phase)
  {
  }

  lemma StoringStepKeepsDrain(c: Claim, a: ClaimAct, seen: bool)
    requires ClaimInv(c) && DrainOk(c, seen) && Enabled(c, a) && Write(c, a) != []
    ensures DrainOk(Step(c, a), seen)
  {
    WritesFrom(c, a);
    CounterAfterWrite(c, a);
    var d, r := Step(c, a), Write(c, a)[0];
    assert d.hist == c.hist + [r];
    hide ClaimInv, Enabled, Write;
    HasAppend(c.hist, r, Ready);
    HasAppend(c.hist, r, Draining);
    assert c.hist[|c.hist| - 1] == c.Last();
  }

  lemma HasAppend(hist: seq<Record>, r: Record, p: Phase)
    ensures Has(hist + [r], p) <==> Has(hist, p) || r.phase == p
  {
    if r.phase == p { assert (hist + [r])[|hist|].phase == p; }
    if Has(hist, p) {
      var i :| 0 <= i < |hist| && hist[i].phase == p;
      assert (hist + [r])[i].phase == p;
    }
  }

  lemma {:induction false} RunKeepsDrain(states: seq<State>, acts: seq<Action>, n: nat, c: Name)
    requires IsRun(states, acts) && n <= |acts| && c in states[n].claims && DispatchesAdvance(acts, n, c)
    ensures DrainOk(states[n].claims[c], SeenBooted(states, acts, n, c))
  {
    if n > 0 {
      var s, a := states[n - 1], acts[n - 1];
      OneStepBack(states, acts, n, c);
      var seen, now := SeenBooted(states, acts, n - 1, c), SeenBooted(states, acts, n, c);
      assert now <==> seen || StartsBooted(s, a, c);
      if c in s.claims {
        RunKeepsDrain(states, acts, n - 1, c);
        if a.On? && a.c == c {
          if a.act.Dispatch? && seen { LaterStartsBooted(states, acts, n - 1, c); }
          hide SeenBooted, DrainOk, ClaimInv;
          if Write(s.claims[c], a.act) == [] {
            QuietStepKeepsDrain(s.claims[c], a.act, seen);
          } else {
            StoringStepKeepsDrain(s.claims[c], a.act, seen);
          }
        }
      }
    }
  }

  /** A call that starts no earlier than one that saw the claim booted sees it booted too. */
  lemma LaterStartsBooted(states: seq<State>, acts: seq<Action>, n: nat, c: Name)
    requires IsRun(states, acts) && n < |acts| && c in states[n].claims && DispatchesAdvance(acts, n + 1, c)
    requires SeenBooted(states, acts, n, c) && Dispatches(acts[n], c)
    requires DrainOk(states[n].claims[c], true) && acts[n].act.v < |states[n].claims[c].hist|
    ensures Rank(states[n].claims[c].hist[acts[n].act.v].phase) > 0
  {
    var j :| 0 <= j < n && StartsBooted(states[j], acts[j], c);
    HistoryExtends(states, acts, j, n, c);
    assert states[n].claims[c].hist[acts[j].act.v] == states[j].claims[c].hist[acts[j].act.v];
  }

  /** Such calls never take back a claim that has drained. */
  lemma NeverTakesBackDrained(states: seq<State>, acts: seq<Action>, j: nat, c: Name)
    requires IsRun(states, acts) && j < |acts| && DispatchesAdvance(acts, j, c) && Overtakes(states[j], acts[j], c)
    ensures !Has(states[j].claims[c].hist, Draining)
  {
    RunKeepsDrain(states, acts, j, c);
    RunKeepsOwn(states, acts, j);
    assert CanAct(states[j], acts[j]);
    DropsExactlyWhenOvertaken(states[j].claims[c], acts[j].act);
  }

  /** The write that took the claim back found a Draining version. */
  lemma TookBackDrained(states: seq<State>, acts: seq<Action>, k: nat, c: Name, v: nat) returns (j: nat)
    requires IsRun(states, acts) && k <= |acts| && c in states[k].claims && OvertakenSince(states, acts, k, c, v)
    requires v < |states[k].claims[c].hist| && states[k].claims[c].hist[v].phase == Draining
    ensures j < k && Overtakes(states[j], acts[j], c) && Has(states[j].claims[c].hist, Draining)
  {
    j :| && 0 <= j < k && Overtakes(states[j], acts[j], c) && v < |states[j].claims[c].hist|
         && LowFrom(states[k].claims[c].hist, |states[j].claims[c].hist|);
    HistoryExtends(states, acts, j, k, c);
    hide IsRun, Overtakes, LowFrom;
    assert states[j].claims[c].hist[v].phase == Draining;
  }

  /** If the versions that Reconcile calls start from never go back, the disruptor destroys an instance only when
      the stored phase is already Draining or Terminated, in every run and without any other condition. */
  lemma AdvancingDispatchesSuffice(states: seq<State>, acts: seq<Action>, k: nat)
    requires IsRun(states, acts) && k < |acts| && acts[k].On? && acts[k].act.DisDestroy?
    requires DispatchesAdvance(acts, k, acts[k].c)
    ensures states[k].claims[acts[k].c].Last().phase in {Draining, Terminated}
  {
    var c := acts[k].c;
    RunStep(states, acts, k);
    RunKeepsOwn(states, acts, k);
    AtDestroy(states[k].claims[c], acts[k].act);
    DestroysUndrainedExactlyWhen(states, acts, k);
    assert |states| == |acts| + 1;
    var v := states[k].claims[c].dis.v;
    hide *;
    if OvertakenSince(states, acts, k, c, v) {
      var j := TookBackDrained(states, acts, k, c, v);
      FewerDispatches(acts, j, k, c);
      NeverTakesBackDrained(states, acts, j, c);
    }
  }

  lemma FewerDispatches(acts: seq<Action>, j: nat, k: nat, c: Name)
    requires j <= k <= |acts| && DispatchesAdvance(acts, k, c)
    ensures DispatchesAdvance(acts, j, c)
  {
  }
}
