/**
 Concrete runs in which a Terminated claim comes back to life, and in which the instance of a claim that is not
 draining any more is destroyed.
 */
module LifecycleWitness {
  import opened Lifecycle
  import opened LifecyclePhases
  import opened LifecycleReplay

  const I: Id := "i-1"
  const RUNNING: map<Id, Provider> := map[I := P]

  const V3 := Noted(I)
  const V4 := Record(Pending, "", I, false, true, false)
  const V5 := Record(Pending, "", I, true, true, false)
  const V6 := Record(Bootstrapping, I, I, true, true, false)
  const V7 := Record(Terminated, I, I, true, true, false)
  const V8 := Record(Bootstrapping, I, I, true, true, false)

  const POLLED := At([V0, V1, V2, V3, V4, V5, V6, V7], Recording(I, true, false, false), [I])
  const BACK := At([V0, V1, V2, V3, V4, V5, V6, V7, V8], Idle, [I])

  /** An instance is created and annotated, and the controller restarts before it writes the status. */
  lemma CreatedAndCrashed() returns (states: seq<State>, acts: seq<Action>)
    ensures Reached(states, acts, At([V0, V1, V2, V3], Idle, [I]), RUNNING) && NoSweepYet(states, acts)
  {
    states, acts := InstanceCreated(I);
    states, acts := Annotated(states, acts, I);
    var noted := At([V0, V1, V2, V3], Recording(I, false, false, true), [I]);
    states, acts := Work(states, acts, noted, RUNNING, Quit, At([V0, V1, V2, V3], Idle, [I]));
  }

  /** The next call sees Provisioning with an annotation and goes back to Pending. */
  lemma Resumed() returns (states: seq<State>, acts: seq<Action>)
    ensures Reached(states, acts, At([V0, V1, V2, V3, V4], Idle, [I]), RUNNING) && NoSweepYet(states, acts)
  {
    states, acts := CreatedAndCrashed();
    var got := At([V0, V1, V2, V3], Got(3, true), [I]);
    states, acts := Work(states, acts, At([V0, V1, V2, V3], Idle, [I]), RUNNING, Dispatch(3), got);
    states, acts := Work(states, acts, got, RUNNING, ResumeProvisioning, At([V0, V1, V2, V3, V4], Idle, [I]));
  }

  /** The call after that reuses the annotated instance. */
  lemma Reusing() returns (states: seq<State>, acts: seq<Action>)
    ensures Reached(states, acts, At([V0, V1, V2, V3, V4], Recording(I, true, false, true), [I]), RUNNING)
    ensures NoSweepYet(states, acts)
  {
    states, acts := Resumed();
    var got := At([V0, V1, V2, V3, V4], Got(4, true), [I]);
    states, acts := Work(states, acts, At([V0, V1, V2, V3, V4], Idle, [I]), RUNNING, Dispatch(4), got);
    states, acts := Work(states, acts, got, RUNNING, Reuse,
                         At([V0, V1, V2, V3, V4], Recording(I, true, false, true), [I]));
  }

  /** It sets the provider on the spec. */
  lemma ProviderSet() returns (states: seq<State>, acts: seq<Action>)
    ensures Reached(states, acts, At([V0, V1, V2, V3, V4, V5], Recording(I, true, true, true), [I]), RUNNING)
    ensures NoSweepYet(states, acts)
  {
    states, acts := Reusing();
    var fetched := At([V0, V1, V2, V3, V4], RecordingGot(I, true, false, true, 4), [I]);
    states, acts := Work(states, acts, At([V0, V1, V2, V3, V4], Recording(I, true, false, true), [I]), RUNNING,
                         Refetch(4), fetched);
    states, acts := Work(states, acts, fetched, RUNNING, SetProvider,
                         At([V0, V1, V2, V3, V4, V5], Recording(I, true, true, true), [I]));
  }

  /** It completes the status: Bootstrapping. */
  lemma Recovered() returns (states: seq<State>, acts: seq<Action>)
    ensures Reached(states, acts, At([V0, V1, V2, V3, V4, V5, V6], Idle, [I]), RUNNING) && NoSweepYet(states, acts)
  {
    states, acts := ProviderSet();
    var fetched := At([V0, V1, V2, V3, V4, V5], RecordingGot(I, true, true, true, 5), [I]);
    states, acts := Work(states, acts, At([V0, V1, V2, V3, V4, V5], Recording(I, true, true, true), [I]), RUNNING,
                         Refetch(5), fetched);
    states, acts := Work(states, acts, fetched, RUNNING, WriteBootstrapping,
                         At([V0, V1, V2, V3, V4, V5, V6], Idle, [I]));
  }

  /** The next call starts from the cached version 5 and reuses the instance. */
  lemma Redispatched() returns (states: seq<State>, acts: seq<Action>)
    ensures Reached(states, acts, At([V0, V1, V2, V3, V4, V5, V6], Recording(I, true, false, false), [I]), RUNNING)
    ensures NoSweepYet(states, acts)
  {
    states, acts := Recovered();
    var got := At([V0, V1, V2, V3, V4, V5, V6], Got(5, false), [I]);
    states, acts := Work(states, acts, At([V0, V1, V2, V3, V4, V5, V6], Idle, [I]), RUNNING, Dispatch(5), got);
    states, acts := Work(states, acts, got, RUNNING, Reuse,
                         At([V0, V1, V2, V3, V4, V5, V6], Recording(I, true, false, false), [I]));
  }

  /** While it talks to the provider, the poller terminates the claim. */
  lemma Polled() returns (states: seq<State>, acts: seq<Action>)
    ensures Reached(states, acts, POLLED, RUNNING) && NoSweepYet(states, acts)
  {
    states, acts := Redispatched();
    var reusing := At([V0, V1, V2, V3, V4, V5, V6], Recording(I, true, false, false), [I]);
    var polling := reusing.(intr := IGot(6));
    states, acts := Work(states, acts, reusing, RUNNING, IntList(6), polling);
    states, acts := Work(states, acts, polling, RUNNING, IntTerminate, POLLED);
  }

  /** The re-fetch sees Terminated and Bootstrapping is written over it. */
  lemma ComesBack(states: seq<State>, acts: seq<Action>) returns (states': seq<State>, acts': seq<Action>)
    requires Reached(states, acts, POLLED, RUNNING)
    ensures Reached(states', acts', BACK, RUNNING) && states'[|acts'|].gc == states[|acts|].gc
    ensures RecordedEarly(states[|acts|], I) ==> RecordedEarly(states'[|acts'|], I)
  {
    var fetched := POLLED.(rec := RecordingGot(I, true, false, false, 7));
    states', acts' := Work(states, acts, POLLED, RUNNING, Refetch(7), fetched);
    states', acts' := Work(states', acts', fetched, RUNNING, WriteBootstrapping, BACK);
  }

  /** No reader ever goes back in time: the reconciler reads versions 0, 1, 3, 4, 4, 5, 5, 7. */
  lemma TerminatedClaimResurrected() returns (states: seq<State>, acts: seq<Action>)
    ensures IsRun(states, acts) && C in states[|acts|].claims
    ensures states[|acts|].claims[C].hist == [V0, V1, V2, V3, V4, V5, V6, V7, V8]
    ensures !Monotone(states[|acts|].claims[C]) && EverOvertaken(states, acts, |acts|, C)
  {
    states, acts := Polled();
    states, acts := ComesBack(states, acts);
    assert Rank(BACK.hist[7].phase) > Rank(BACK.hist[8].phase);
    PhasesMonotoneExactlyWhen(states, acts, |acts|, C);
  }

  const R7 := Record(Ready, I, I, true, true, false)
  const D8 := Record(Draining, I, I, true, true, false)
  const B9 := Record(Bootstrapping, I, I, true, true, false)
  const UNTIL6 := [V0, V1, V2, V3, V4, V5, V6]

  /** The claim becomes Ready, and the next call starts from the cached version 5, as after a restart. */
  lemma StartsOver() returns (states: seq<State>, acts: seq<Action>)
    ensures Reached(states, acts, At(UNTIL6 + [R7], Got(5, false), [I]), RUNNING)
  {
    states, acts := Recovered();
    var got := At(UNTIL6, Got(6, true), [I]);
    states, acts := Work(states, acts, At(UNTIL6, Idle, [I]), RUNNING, Dispatch(6), got);
    states, acts := Work(states, acts, got, RUNNING, WriteReady, At(UNTIL6 + [R7], Idle, [I]));
    states, acts := Work(states, acts, At(UNTIL6 + [R7], Idle, [I]), RUNNING, Dispatch(5),
                         At(UNTIL6 + [R7], Got(5, false), [I]));
  }

  /** While it reuses the instance, the disruptor starts to drain the claim. */
  lemma DrainStarts() returns (states: seq<State>, acts: seq<Action>)
    ensures Reached(states, acts, At(UNTIL6 + [R7, D8], Recording(I, true, false, false), [I]).(dis := DDraining(8)),
                    RUNNING)
  {
    states, acts := StartsOver();
    var reusing := At(UNTIL6 + [R7], Recording(I, true, false, false), [I]);
    states, acts := Work(states, acts, At(UNTIL6 + [R7], Got(5, false), [I]), RUNNING, Reuse, reusing);
    var looking := reusing.(dis := DGot(7));
    states, acts := Work(states, acts, reusing, RUNNING, DisGet(7), looking);
    var draining := reusing.(hist := UNTIL6 + [R7, D8], dis := DDraining(8));
    states, acts := Work(states, acts, looking, RUNNING, DisDrain, draining);
  }

  const BOOTING := At(UNTIL6 + [R7, D8, B9], Idle, [I]).(dis := DDraining(8))

  /** The reconciler takes the claim back to Bootstrapping. */
  lemma TakenBack() returns (states: seq<State>, acts: seq<Action>)
    ensures Reached(states, acts, BOOTING, RUNNING)
  {
    states, acts := DrainStarts();
    var draining := At(UNTIL6 + [R7, D8], Recording(I, true, false, false), [I]).(dis := DDraining(8));
    var fetched := draining.(rec := RecordingGot(I, true, false, false, 8));
    states, acts := Work(states, acts, draining, RUNNING, Refetch(8), fetched);
    states, acts := Work(states, acts, fetched, RUNNING, WriteBootstrapping, BOOTING);
  }

  /** Then the disruptor goes on and destroys the instance. */
  lemma UndrainedInstanceDestroyed() returns (states: seq<State>, acts: seq<Action>)
    ensures IsRun(states, acts) && |acts| > 0 && acts[|acts| - 1] == On(C, DisDestroy(true))
    ensures var before := states[|acts| - 1];
            && before.claims == map[C := BOOTING] && BOOTING.Last().phase == Bootstrapping
            && BOOTING.Last().instance == I && I in before.live && I !in states[|acts|].live
  {
    states, acts := TakenBack();
    var s, a := states[|acts|], On(C, DisDestroy(true));
    assert BOOTING.hist[8] == D8 && BOOTING.hist[9] == B9 && |BOOTING.hist| == 10;
    hide BOOTING;
    assert CanAct(s, a) && Lost(s, a) == I;
    states, acts := states + [Next(s, a)], acts + [a];
  }
}
