/**
 The order of phases: when the stored phase can go back, and when Terminated is final.
 */
module LifecyclePhases {
  import opened Lifecycle
  import opened LifecycleInvariant
  import opened LifecycleRuns

  /** No stored version outranks a later one. */
  ghost predicate Monotone(c: Claim) {
    forall i, j :: 0 <= i <= j < |c.hist| ==> Rank(c.hist[i].phase) <= Rank(c.hist[j].phase)
  }

  /** The guard that is missing before the last write of handlePending: the re-fetched claim has
      already been moved past Bootstrapping by someone else. */
  predicate Overtaken(c: Claim, a: ClaimAct) {
    && a.WriteBootstrapping? && c.rec.RecordingGot? && Current(c, c.rec.v)
    && Rank(c.hist[c.rec.v].phase) > Rank(Bootstrapping)
  }

  predicate Drops(c: Claim, a: ClaimAct)
    requires Enabled(c, a)
  {
    Write(c, a) != [] && Rank(Write(c, a)[0].phase) < Rank(c.Last().phase)
  }

  /** A step lowers the stored phase exactly when it is an unguarded write over a claim that was
      overtaken; and then the Reconcile call began with a stale snapshot and reused an instance. */
  lemma DropsExactlyWhenOvertaken(c: Claim, a: ClaimAct)
    requires ClaimInv(c) && Enabled(c, a)
    ensures Drops(c, a) <==> Overtaken(c, a)
    ensures Drops(c, a) ==> c.rec.reused && !c.rec.current
  {
    LocalFromInv(c);
    if Drops(c, a) { DropsOnlyWhenOvertaken(c, a); }
  }

  lemma DropsOnlyWhenOvertaken(c: Claim, a: ClaimAct)
    requires LocalInv(c) && Enabled(c, a) && Drops(c, a)
    ensures Overtaken(c, a) && c.rec.reused && !c.rec.current
  {
  }

  lemma StepMonotone(c: Claim, a: ClaimAct)
    requires ClaimInv(c) && Enabled(c, a)
    ensures Monotone(Step(c, a)) <==> Monotone(c) && !Overtaken(c, a)
  {
    DropsExactlyWhenOvertaken(c, a);
    WriteAtMostOne(c, a);
    AppendMonotone(c, Step(c, a), Write(c, a));
  }

  lemma WriteAtMostOne(c: Claim, a: ClaimAct)
    requires Enabled(c, a)
    ensures |Write(c, a)| <= 1
  {
  }

  lemma AppendMonotone(c: Claim, c': Claim, w: seq<Record>)
    requires |w| <= 1 && c'.hist == c.hist + w
    ensures Monotone(c') <==> Monotone(c) && (w == [] || Rank(c.Last().phase) <= Rank(w[0].phase))
  {
    if Monotone(c') {
      forall i, j | 0 <= i <= j < |c.hist| ensures Rank(c.hist[i].phase) <= Rank(c.hist[j].phase) {
        assert c'.hist[i] == c.hist[i] && c'.hist[j] == c.hist[j];
      }
      if w != [] { assert c'.hist[|c.hist| - 1] == c.Last() && c'.hist[|c.hist|] == w[0]; }
    }
    if Monotone(c) && (w == [] || Rank(c.Last().phase) <= Rank(w[0].phase)) {
      forall i, j | 0 <= i <= j < |c'.hist| ensures Rank(c'.hist[i].phase) <= Rank(c'.hist[j].phase) {
        if i < |c.hist| { assert Rank(c.hist[i].phase) <= Rank(c.hist[|c.hist| - 1].phase); }
      }
    }
  }

  /** The step writes Bootstrapping over an overtaken claim. */
  predicate Overtakes(s: State, a: Action, c: Name) {
    a.On? && a.c == c && c in s.claims && Overtaken(s.claims[c], a.act)
  }

  /** Some reconcile of claim `c` wrote Bootstrapping over an overtaken claim within the first `n` steps. */
  ghost predicate EverOvertaken(states: seq<State>, acts: seq<Action>, n: nat, c: Name)
    requires IsRun(states, acts) && n <= |acts|
  {
    exists k :: 0 <= k < n && Overtakes(states[k], acts[k], c)
  }

  lemma EverOvertakenStep(states: seq<State>, acts: seq<Action>, n: nat, c: Name)
    requires IsRun(states, acts) && 0 < n <= |acts|
    ensures EverOvertaken(states, acts, n, c) <==>
            || EverOvertaken(states, acts, n - 1, c)
            || (acts[n - 1].On? && acts[n - 1].c == c && Overtaken(states[n - 1].claims[c], acts[n - 1].act))
  {
  }

  /** In every run, the stored phases of a claim never go back in rank if and only if no final write of
      handlePending hit a claim that had already left Bootstrapping. */
  lemma {:induction false} PhasesMonotoneExactlyWhen(states: seq<State>, acts: seq<Action>, n: nat, c: Name)
    requires IsRun(states, acts) && n <= |acts| && c in states[n].claims
    ensures Monotone(states[n].claims[c]) <==> !EverOvertaken(states, acts, n, c)
  {
    if n > 0 {
      var s, a := states[n - 1], acts[n - 1];
      ClaimAfter(s, a, c);
      EverOvertakenStep(states, acts, n, c);
      if c in s.claims {
        PhasesMonotoneExactlyWhen(states, acts, n - 1, c);
        if a.On? && a.c == c {
          RunKeepsOwn(states, acts, n - 1);
          StepMonotone(s.claims[c], a.act);
        }
      } else {
        NotBefore(states, acts, n - 1, c);
      }
    }
  }

  lemma {:induction false} NotBefore(states: seq<State>, acts: seq<Action>, n: nat, c: Name)
    requires IsRun(states, acts) && n <= |acts| && c !in states[n].claims
    ensures forall k :: 0 <= k <= n ==> c !in states[k].claims
  {
    if n > 0 {
      assert c !in states[n - 1].claims;
      NotBefore(states, acts, n - 1, c);
    }
  }

  /** With monotone phases Terminated is final. */
  lemma TerminatedIsFinal(c: Claim, i: nat, j: nat)
    requires Monotone(c) && i <= j < |c.hist| && c.hist[i].phase == Terminated
    ensures c.hist[j].phase == Terminated
  {
    assert Rank(c.hist[i].phase) <= Rank(c.hist[j].phase);
  }

  // ---------------------------------------------------------------------------------------------
  // Fresh first reads suffice
  // ---------------------------------------------------------------------------------------------

  /** Every Reconcile call on `c` in the first `n` steps started from the stored version; every other
      read may be stale. */
  ghost predicate FreshDispatch(states: seq<State>, acts: seq<Action>, n: nat, c: Name)
    requires IsRun(states, acts) && n <= |acts|
  {
    forall k :: 0 <= k < n && acts[k].On? && acts[k].c == c && acts[k].act.Dispatch? ==>
      Current(states[k].claims[c], acts[k].act.v)
  }

  predicate StartedFresh(rec: RecPc) {
    match rec
    case Got(_, current) => current
    case Recording(_, _, _, current) => current
    case RecordingGot(_, _, _, current, _) => current
    case _ => true
  }

  lemma {:induction false} FreshDispatchMonotone(states: seq<State>, acts: seq<Action>, n: nat, c: Name)
    requires IsRun(states, acts) && n <= |acts| && c in states[n].claims
    requires FreshDispatch(states, acts, n, c)
    ensures StartedFresh(states[n].claims[c].rec)
    ensures Monotone(states[n].claims[c])
  {
    if n > 0 {
      var s, a := states[n - 1], acts[n - 1];
      ClaimAfter(s, a, c);
      if c in s.claims {
        FreshDispatchMonotone(states, acts, n - 1, c);
        if a.On? && a.c == c {
          RunKeepsOwn(states, acts, n - 1);
          FreshStep(s.claims[c], a.act);
        }
      }
    }
  }

  lemma FreshStep(c: Claim, a: ClaimAct)
    requires ClaimInv(c) && Enabled(c, a)
    requires StartedFresh(c.rec) && Monotone(c)
    requires a.Dispatch? ==> Current(c, a.v)
    ensures StartedFresh(Step(c, a).rec) && Monotone(Step(c, a))
  {
    StepMonotone(c, a);
    DropsExactlyWhenOvertaken(c, a);
    FreshCounter(c, a);
  }

  lemma FreshCounter(c: Claim, a: ClaimAct)
    requires Enabled(c, a) && StartedFresh(c.rec)
    requires a.Dispatch? ==> Current(c, a.v)
    ensures StartedFresh(NextRec(c, a))
  {
  }

  // ---------------------------------------------------------------------------------------------
  // What the processes destroy
  // ---------------------------------------------------------------------------------------------

  /** Whatever instance the reconciler or the disruptor destroys for a claim is the one instance
      recorded on it, and it was created for that claim. */
  lemma DestroysOnlyOwnInstance(states: seq<State>, acts: seq<Action>, k: nat)
    requires IsRun(states, acts) && k < |acts| && acts[k].On?
    requires Target(states[k].claims[acts[k].c], acts[k].act) != ""
    ensures var id := Target(states[k].claims[acts[k].c], acts[k].act);
            && Records(states[k].claims[acts[k].c].Last(), id)
            && id in states[k].owner && states[k].owner[id] == For(acts[k].c)
  {
    RunKeepsOwn(states, acts, k);
    var claim := states[k].claims[acts[k].c];
    assert claim.created[|claim.created| - 1] == Newest(claim);
  }
}
