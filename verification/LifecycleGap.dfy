/**
 Concrete runs in which the garbage collector destroys an instance that stands on a live claim, one for each of
 the circumstances in which it can.
 */
module LifecycleGap {
  import opened Lifecycle
  import opened LifecycleGc
  import opened LifecycleReplay
  import opened LifecycleWitness

  /** The gap is real: the first sweep sees the new instance, the second lists the claims, and only then is the
      instance recorded. */
  lemma RecordedInstanceDestroyed() returns (states: seq<State>, acts: seq<Action>)
    ensures EndsWithDestroy(states, acts, I) && GapInside(states[|acts| - 1], I)
  {
    states, acts := InstanceCreated(I);
    var c := At([V0, V1, V2], RecPc.Created(I), [I]);
    states, acts := FirstSweep(states, acts, c, I);
    states, acts := SecondStart(states, acts, c, I);
    states, acts := Annotated(states, acts, I);
    var d := At([V0, V1, V2, Noted(I)], Recording(I, false, false, true), [I]);
    states, acts := SecondVisit(states, acts, d, I);
    hide EndsWithDestroy;
    DestroysRecordedExactlyWhen(states, acts, |acts| - 1, I, true, C);
  }

  /** An instance called "0" is destroyed although it was recorded before the first sweep. */
  lemma InstanceZeroDestroyed() returns (states: seq<State>, acts: seq<Action>)
    ensures EndsWithDestroy(states, acts, "0")
    ensures !GapInside(states[|acts| - 1], "0")
  {
    states, acts := InstanceCreated("0");
    states, acts := Annotated(states, acts, "0");
    var d := At([V0, V1, V2, Noted("0")], Recording("0", false, false, true), ["0"]);
    states, acts := FirstSweep(states, acts, d, "0");
    states, acts := SecondStart(states, acts, d, "0");
    states, acts := SecondVisit(states, acts, d, "0");
  }

  /** The instance of a claim is destroyed that was Terminated during the first sweep and at the second listing
      of the claims, and came back before the visit. */
  lemma ResurrectedInstanceDestroyed() returns (states: seq<State>, acts: seq<Action>)
    ensures EndsWithDestroy(states, acts, I)
    ensures CameBack(states[|acts| - 1], states[|acts| - 1].claims[C], I)
    ensures !GapInside(states[|acts| - 1], I)
  {
    states, acts := Polled();
    states, acts := FirstSweep(states, acts, POLLED, I);
    states, acts := SecondStart(states, acts, POLLED, I);
    states, acts := ComesBack(states, acts);
    states, acts := SecondVisit(states, acts, BACK, I);
    assert BACK.hist[7].phase == Terminated;
  }
}
