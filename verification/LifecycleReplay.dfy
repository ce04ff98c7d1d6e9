/**
 Building concrete runs of a single claim step by step, for the witnesses of what can go wrong.
 */
module LifecycleReplay {
  import opened Lifecycle
  import opened LifecycleGc

  const C: Name := "claim-1"
  const P: Provider := "p"

  const V0 := Record(Unset, "", "", false, true, false)
  const V1 := Record(Pending, "", "", false, true, false)
  const V2 := Record(Provisioning, "", "", false, true, false)

  /** A run that has reached `c` as its only claim, with the given running instances, all ever issued. */
  ghost predicate Reached(states: seq<State>, acts: seq<Action>, c: Claim, live: map<Id, Provider>) {
    && IsRun(states, acts)
    && states[|acts|].claims == map[C := c]
    && states[|acts|].live == live && states[|acts|].owner.Keys == live.Keys && "" !in live
  }

  ghost predicate NoSweepYet(states: seq<State>, acts: seq<Action>)
    requires IsRun(states, acts)
  {
    states[|acts|].gc == Resting(map[])
  }

  /** The instance was recorded before the running sweep listed the claims. */
  predicate RecordedEarly(s: State, id: Id) {
    s.gc.Sweeping? && id in s.recordedAt && s.recordedAt[id] < s.gc.claimsAt
  }

  lemma Go(states: seq<State>, acts: seq<Action>, c: Claim, live: map<Id, Provider>, a: Action, d: Claim)
    returns (states': seq<State>, acts': seq<Action>)
    requires Reached(states, acts, c, live) && CanAct(states[|acts|], a)
    requires NextClaims(states[|acts|], a) == map[C := d]
    requires Issued(a).NoIssue? && (Lost(states[|acts|], a) == "" || Lost(states[|acts|], a) !in live)
    ensures Reached(states', acts', d, live) && states'[|acts'|] == Next(states[|acts|], a)
  {
    var t := Next(states[|acts|], a);
    assert t.claims == map[C := d] && t.live == live && t.owner.Keys == live.Keys;
    hide CanAct, NextClaims, Next;
    states', acts' := states + [t], acts + [a];
  }

  /** One step of a process of the claim that neither creates nor destroys. */
  lemma Work(states: seq<State>, acts: seq<Action>, c: Claim, live: map<Id, Provider>, act: ClaimAct, d: Claim)
    returns (states': seq<State>, acts': seq<Action>)
    requires Reached(states, acts, c, live) && Enabled(c, act) && Step(c, act) == d
    requires !act.CreateOk? && !DestroySucceeds(act)
    ensures Reached(states', acts', d, live) && states'[|acts'|].gc == states[|acts|].gc
    ensures forall id :: RecordedEarly(states[|acts|], id) ==> RecordedEarly(states'[|acts'|], id)
  {
    assert NextClaims(states[|acts|], On(C, act)) == map[C := d];
    states', acts' := Go(states, acts, c, live, On(C, act), d);
  }

  lemma Create(states: seq<State>, acts: seq<Action>, c: Claim, id: Id)
    returns (states': seq<State>, acts': seq<Action>)
    requires Reached(states, acts, c, map[]) && c.rec == Creating && id != ""
    ensures Reached(states', acts', Step(c, CreateOk(id, P)), map[id := P])
    ensures states'[|acts'|].gc == states[|acts|].gc
  {
    var a := On(C, CreateOk(id, P));
    assert NextClaims(states[|acts|], a) == map[C := Step(c, CreateOk(id, P))];
    states', acts' := states + [Next(states[|acts|], a)], acts + [a];
  }

  lemma Begin() returns (states: seq<State>, acts: seq<Action>)
    ensures Reached(states, acts, BORN, map[]) && NoSweepYet(states, acts)
  {
    var create := CreateClaim(C);
    states, acts := [INIT, Next(INIT, create)], [create];
    assert Next(INIT, create).claims == map[C := BORN];
  }

  function At(hist: seq<Record>, rec: RecPc, created: seq<Id>): Claim
    requires |hist| > 0
  {
    ClaimState(hist, false, rec, DIdle, IIdle, created)
  }

  /** A claim whose instance `id` has just been created. */
  lemma InstanceCreated(id: Id) returns (states: seq<State>, acts: seq<Action>)
    requires id != ""
    ensures Reached(states, acts, At([V0, V1, V2], RecPc.Created(id), [id]), map[id := P]) && NoSweepYet(states, acts)
  {
    states, acts := Pended();
    var got, creating := At([V0, V1], Got(1, true), []), At([V0, V1, V2], Creating, []);
    states, acts := Work(states, acts, At([V0, V1], Idle, []), map[], Dispatch(1), got);
    states, acts := Work(states, acts, got, map[], StartCreate, creating);
    assert Step(creating, CreateOk(id, P)) == At([V0, V1, V2], RecPc.Created(id), [id]);
    states, acts := Create(states, acts, creating, id);
  }

  lemma Pended() returns (states: seq<State>, acts: seq<Action>)
    ensures Reached(states, acts, At([V0, V1], Idle, []), map[]) && NoSweepYet(states, acts)
  {
    states, acts := Begin();
    var got := At([V0], Got(0, true), []);
    states, acts := Work(states, acts, BORN, map[], Dispatch(0), got);
    states, acts := Work(states, acts, got, map[], Initialise, At([V0, V1], Idle, []));
  }

  /** A version that names the instance `id` in its annotation. */
  function Noted(id: Id): Record {
    V2.(annotation := id)
  }

  /** The annotation patch of the newly created instance goes through. */
  lemma Annotated(states: seq<State>, acts: seq<Action>, id: Id) returns (states': seq<State>, acts': seq<Action>)
    requires Reached(states, acts, At([V0, V1, V2], RecPc.Created(id), [id]), map[id := P])
    ensures Reached(states', acts', At([V0, V1, V2, Noted(id)], Recording(id, false, false, true), [id]), map[id := P])
    ensures states'[|acts'|].gc == states[|acts|].gc
  {
    var c := At([V0, V1, V2], RecPc.Created(id), [id]);
    var d := At([V0, V1, V2, Noted(id)], Recording(id, false, false, true), [id]);
    assert Step(c, Annotate(true)) == d;
    states', acts' := Work(states, acts, c, map[id := P], Annotate(true), d);
  }

  // ---------------------------------------------------------------- sweeps of the only provider

  /** The collector is between its listings: the instance is a candidate, not known, and not listed yet. */
  ghost predicate Targets(g: Gc, id: Id) {
    g.Sweeping? && id in g.candidates && id !in g.known && g.todo == {P} && g.listed == {}
  }

  /** A sweep starts and lists the provider of an instance that no claim protects. */
  lemma FirstListing(states: seq<State>, acts: seq<Action>, c: Claim, id: Id)
    returns (states': seq<State>, acts': seq<Action>)
    requires Reached(states, acts, c, map[id := P]) && NoSweepYet(states, acts) && !Protects(c, id)
    ensures Reached(states', acts', c, map[id := P])
    ensures var g := states'[|acts'|].gc;
            g.Sweeping? && id !in g.known && g.candidates == map[] && g.todo == {} && g.listed == {id}
  {
    states', acts' := Go(states, acts, c, map[id := P], GcStart({P}), c);
    states', acts' := Go(states', acts', c, map[id := P], GcListProvider(P, true), c);
  }

  /** The first sweep makes it a candidate. */
  lemma FirstSweep(states: seq<State>, acts: seq<Action>, c: Claim, id: Id)
    returns (states': seq<State>, acts': seq<Action>)
    requires Reached(states, acts, c, map[id := P]) && NoSweepYet(states, acts) && !Protects(c, id)
    ensures Reached(states', acts', c, map[id := P])
    ensures states'[|acts'|].gc.Resting? && id in states'[|acts'|].gc.candidates
  {
    states', acts' := FirstListing(states, acts, c, id);
    states', acts' := Go(states', acts', c, map[id := P], GcVisit(id, true), c);
    states', acts' := Go(states', acts', c, map[id := P], GcEnd, c);
  }

  /** The second sweep lists the claims. */
  lemma SecondStart(states: seq<State>, acts: seq<Action>, c: Claim, id: Id)
    returns (states': seq<State>, acts': seq<Action>)
    requires Reached(states, acts, c, map[id := P]) && !Protects(c, id)
    requires states[|acts|].gc.Resting? && id in states[|acts|].gc.candidates
    ensures Reached(states', acts', c, map[id := P]) && Targets(states'[|acts'|].gc, id)
    ensures Records(c.Last(), id) && c.Last().phase == Terminated && !c.gone ==> id in states'[|acts'|].gc.skipped
    ensures Records(c.Last(), id) ==> RecordedEarly(states'[|acts'|], id)
  {
    RunKeepsGc(states, acts, |acts|);
    states', acts' := Go(states, acts, c, map[id := P], GcStart({P}), c);
    assert id in states[|acts|].owner;
    assert C in states[|acts|].claims && states[|acts|].claims[C] == c;
  }

  /** The run's last step destroys the instance `id`, which stands on a live claim. */
  ghost predicate EndsWithDestroy(states: seq<State>, acts: seq<Action>, id: Id) {
    && IsRun(states, acts) && |acts| > 0 && acts[|acts| - 1] == GcVisit(id, true)
    && GcDestroys(states[|acts| - 1], id) && id in states[|acts| - 1].live && id !in states[|acts|].live
    && C in states[|acts| - 1].claims && Unfinished(states[|acts| - 1].claims[C])
    && Records(states[|acts| - 1].claims[C].Last(), id)
  }

  /** The provider is listed and the instance visited. */
  lemma SecondVisit(states: seq<State>, acts: seq<Action>, c: Claim, id: Id)
    returns (states': seq<State>, acts': seq<Action>)
    requires Reached(states, acts, c, map[id := P]) && Targets(states[|acts|].gc, id)
    requires Unfinished(c) && Records(c.Last(), id)
    ensures EndsWithDestroy(states', acts', id) && states'[|acts'| - 1].claims[C] == c
    ensures states'[|acts'| - 1].gc.skipped == states[|acts|].gc.skipped
    ensures RecordedEarly(states[|acts|], id) ==> RecordedEarly(states'[|acts'| - 1], id)
  {
    states', acts' := Go(states, acts, c, map[id := P], GcListProvider(P, true), c);
    var before := states'[|acts'|];
    states', acts' := states' + [Next(before, GcVisit(id, true))], acts' + [GcVisit(id, true)];
  }
}
