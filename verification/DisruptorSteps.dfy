/**
 What the disruptor does to a claim are steps of its lifecycle, and of the runs in which the minimums and
 consolidation are studied.
 */
module DisruptorSteps {
  import opened Lifecycle
  import opened Options
  import opened Claims
  import opened Disruptor
  import Floor
  import ConsolidationRuns

  /** The minimums an idle destroy read; a missing configuration or pool sets none. */
  function IdleDestroyOf(w: World, i: nat): Floor.Event {
    Floor.IdleDestroy(i, if w.minReplicas.Some? then w.minReplicas.value else 0,
                      if w.pool.PoolFound? then Some(w.pool.minNodes) else None)
  }

  /** With fresh successful reads an idle destroy is a step of the runs with minimums, followed by one that settles
      the claim if the destroy ends Terminated. */
  lemma IdleDestroyIsAStep(w: World, claims: seq<NodeClaim>, i: nat, provisioned: Option<int>, since: Option<int>,
                           cooldown: int)
    requires i < |claims| && claims[i].phase == Ready
    requires w.nodes == Some(claims) && w.replicas == Some(claims)
    requires w.pool.PoolFound? ==> w.pool.name == claims[i].pool
    requires IdleDestroyable(w, ModelsOf(claims[i]), claims[i].drain, claims[i].model, provisioned, since, cooldown)
    ensures Floor.Possible(claims, IdleDestroyOf(w, i))
    ensures var t := Floor.Applied(claims, IdleDestroyOf(w, i));
            && Floor.Possible(t, Floor.Settles(i, Terminated))
            && (w.ending.drainOk ==>
                  claims[i := claims[i].(phase := AfterDestroy(w.ending))] ==
                  if AfterDestroy(w.ending) == Terminated then Floor.Applied(t, Floor.Settles(i, Terminated)) else t)
  {
  }

  /** A consolidation destroy is a drain step of the runs with consolidation, followed likewise. */
  lemma ConsolidationDestroyIsAStep(w: World, s: ConsolidationRuns.Store, i: nat, provisioned: Option<int>,
                                    since: Option<int>, cooldown: int)
    requires i < |s.claims| && s.claims[i].phase == Ready && s.claims[i].drain && w.instance == Alive
    requires Destroyable(w, ModelsOf(s.claims[i]), s.claims[i].drain, s.claims[i].model, provisioned, since, cooldown)
    ensures ConsolidationRuns.Possible(s, ConsolidationRuns.Drained(i))
    ensures var t := ConsolidationRuns.Next(s, ConsolidationRuns.Drained(i));
            var end := ConsolidationRuns.Moved(i, Terminated);
            && ConsolidationRuns.Possible(t, end)
            && (w.ending.drainOk ==>
                  s.claims[i := s.claims[i].(phase := AfterDestroy(w.ending))] ==
                  if AfterDestroy(w.ending) == Terminated then ConsolidationRuns.Next(t, end).claims else t.claims)
  {
  }

  /** The lifecycle steps of one destroy; a write or a lookup that fails ends it. */
  function WorkerActs(e: Ending): seq<ClaimAct> {
    if !e.drainOk then [DisQuit]
    else if !e.registered then [DisDrain, DisQuit]
    else [DisDrain, DisDestroy(e.destroyOk), if e.endOk then DisTerminate else DisQuit]
  }

  predicate CanTake(c: Claim, acts: seq<ClaimAct>)
    decreases |acts|
  {
    acts == [] || (Enabled(c, acts[0]) && CanTake(Step(c, acts[0]), acts[1..]))
  }

  function Taken(c: Claim, acts: seq<ClaimAct>): Claim
    requires CanTake(c, acts)
    decreases |acts|
  {
    if acts == [] then c else Taken(Step(c, acts[0]), acts[1..])
  }

  lemma TakesNone(c: Claim)
    ensures CanTake(c, []) && Taken(c, []) == c
  {
  }

  lemma TakesOne(c: Claim, x: ClaimAct, rest: seq<ClaimAct>)
    requires Enabled(c, x) && CanTake(Step(c, x), rest)
    ensures CanTake(c, [x] + rest) && Taken(c, [x] + rest) == Taken(Step(c, x), rest)
  {
    hide Enabled, Step;
    assert ([x] + rest)[0] == x && ([x] + rest)[1..] == rest;
  }

  lemma TakesTwo(c: Claim, x: ClaimAct, y: ClaimAct)
    requires Enabled(c, x) && Enabled(Step(c, x), y)
    ensures CanTake(c, [x, y]) && Taken(c, [x, y]) == Step(Step(c, x), y)
  {
    hide Enabled, Step;
    TakesOne(Step(c, x), y, []);
    TakesOne(c, x, [y]);
    assert [y] + [] == [y] && [x] + [y] == [x, y];
  }

  lemma TakesThree(c: Claim, x: ClaimAct, y: ClaimAct, z: ClaimAct)
    requires Enabled(c, x) && Enabled(Step(c, x), y) && Enabled(Step(Step(c, x), y), z)
    ensures CanTake(c, [x, y, z]) && Taken(c, [x, y, z]) == Step(Step(Step(c, x), y), z)
  {
    hide Enabled, Step;
    TakesTwo(Step(c, x), y, z);
    TakesOne(c, x, [y, z]);
    assert [x] + [y, z] == [x, y, z];
  }

  /** The disruptor stands at `dis` with the stored version of a claim in phase `p` as its snapshot. */
  predicate Holds(c: Claim, dis: DisPc, p: Phase, instance: Id) {
    !c.gone && c.dis == dis && c.Last().phase == p && c.Last().instance == instance
  }

  lemma Drains(c: Claim, instance: Id)
    requires Holds(c, DGot(|c.hist| - 1), Ready, instance)
    ensures Enabled(c, DisDrain) && Enabled(c, DisQuit) && Step(c, DisQuit).Last().phase == Ready
    ensures var d := Step(c, DisDrain); Holds(d, DDraining(|d.hist| - 1), Draining, instance)
  {
  }

  lemma Destroys(d: Claim, instance: Id, ok: bool)
    requires Holds(d, DDraining(|d.hist| - 1), Draining, instance)
    ensures Enabled(d, DisQuit) && Step(d, DisQuit).Last().phase == Draining
    ensures Enabled(d, DisDestroy(ok)) && Target(d, DisDestroy(ok)) == instance
    ensures var g := Step(d, DisDestroy(ok)); Holds(g, DDestroyed(|g.hist| - 1), Draining, instance)
  {
  }

  lemma Terminates(g: Claim, instance: Id)
    requires Holds(g, DDestroyed(|g.hist| - 1), Draining, instance)
    ensures Enabled(g, DisTerminate) && Step(g, DisTerminate).Last().phase == Terminated
    ensures Enabled(g, DisQuit) && Step(g, DisQuit).Last().phase == Draining
  {
  }

  /** A destroy of a Ready claim with nothing in between is a sequence of lifecycle steps of the disruptor: it ends
      in the phase that `DestroyWorker` leaves, asks for the claim's own instance, and succeeds exactly if the
      instance does not run on. */
  lemma WorkerTakesSteps(c: Claim, e: Ending)
    requires Holds(c, DGot(|c.hist| - 1), Ready, c.Last().instance)
    ensures CanTake(c, WorkerActs(e)) && Taken(c, WorkerActs(e)).Last().phase == AfterDestroy(e)
    ensures DisDestroy(true) in WorkerActs(e) <==> !StillRuns(e)
    ensures Enabled(c, DisDrain) && Enabled(Step(c, DisDrain), DisDestroy(e.destroyOk))
            && Target(Step(c, DisDrain), DisDestroy(e.destroyOk)) == c.Last().instance
  {
    hide Holds, Enabled, Step, Target, CanTake, Taken;
    var instance := c.Last().instance;
    Drains(c, instance);
    var d := Step(c, DisDrain);
    Destroys(d, instance, e.destroyOk);
    Terminates(Step(d, DisDestroy(e.destroyOk)), instance);
    if !e.drainOk {
      TakesNone(Step(c, DisQuit));
      TakesOne(c, DisQuit, []);
      assert [DisQuit] + [] == [DisQuit];
    } else if e.registered {
      TakesThree(c, DisDrain, DisDestroy(e.destroyOk), if e.endOk then DisTerminate else DisQuit);
    } else {
      TakesTwo(c, DisDrain, DisQuit);
    }
  }
}
