/**
 The disruptor's look at a Ready claim: keep the node, clear or start its idle clock, or destroy it.
 */
module Disruptor {
  import opened Lifecycle
  import opened Options
  import opened Claims
  import opened Idle

  datatype Instance = CheckFailed | Dead | Alive

  datatype PoolRead = PoolReadFailed | NoPool | PoolFound(name: string, period: int, minNodes: int)

  /** What one reconcile reads and which of its writes succeed. `alwaysActive` and `wanted` are the models
      marked always active and those with demand, `flagged` says that the node reports itself idle. None
      stands for a failed list; `minReplicas` is None when the configuration could not be read. */
  datatype World = World(now: int, registered: bool, instance: Instance, alwaysActive: set<Model>,
                         wanted: set<Model>, flagged: bool, pool: PoolRead, nodes: Option<seq<NodeClaim>>,
                         minReplicas: Option<int>, replicas: Option<seq<NodeClaim>>, writeOk: bool, ending: Ending)

  /** How a destroy goes: the status writes, the registry lookup in between and the destroy call. */
  datatype Ending = Ending(drainOk: bool, registered: bool, destroyOk: bool, endOk: bool)

  datatype Cause = Died | Consolidated | IdleLongEnough

  datatype Reply = Waits(after: int) | Destroys(cause: Cause, done: bool)

  predicate AnyIn(models: seq<Model>, s: set<Model>) {
    exists m :: m in models && m != "" && m in s
  }

  method HasAny(models: seq<Model>, s: set<Model>) returns (found: bool)
    ensures found == AnyIn(models, s)
  {
    for i := 0 to |models|
      invariant forall j :: 0 <= j < i ==> !(models[j] != "" && models[j] in s)
    {
      if models[i] != "" && models[i] in s {
        return true;
      }
    }
    return false;
  }

  /** What the look says about the use of the node. */
  function LookOf(w: World, models: seq<Model>): Look {
    if !w.registered || w.instance == CheckFailed then Unclear
    else if AnyIn(models, w.alwaysActive) || AnyIn(models, w.wanted) || !w.flagged then Busy(w.writeOk)
    else Unused(w.now, w.pool != PoolReadFailed, w.writeOk)
  }

  function LooksOf(worlds: seq<World>, models: seq<Model>): (looks: seq<Look>)
    ensures |looks| == |worlds|
  {
    seq(|worlds|, k requires 0 <= k < |worlds| => LookOf(worlds[k], models))
  }

  function Period(p: PoolRead): int {
    if p.PoolFound? then p.period else 0
  }

  /** The node and replica minimums that hold an idle node back. */
  predicate HeldBack(w: World, model: Model) {
    || (w.pool.PoolFound?
        && (if w.nodes.Some? then Nodes(w.nodes.value, w.pool.name) else 0) <= w.pool.minNodes)
    || (model != "" && w.minReplicas.Some? && w.minReplicas.value > 1 && w.replicas.Some?
        && Replicas(w.replicas.value, model) <= w.minReplicas.value)
  }

  /** The looks, the clock and the minimums let an idle node be destroyed, whatever its wait. */
  predicate IdleCandidate(w: World, models: seq<Model>, drain: bool, model: Model, since: Option<int>) {
    && LookOf(w, models) == Unused(w.now, true, w.writeOk) && w.instance == Alive && !drain
    && since.Some? && !HeldBack(w, model)
  }

  /** An idle destroy. */
  predicate IdleDestroyable(w: World, models: seq<Model>, drain: bool, model: Model, provisioned: Option<int>,
                            since: Option<int>, cooldown: int)
  {
    && IdleCandidate(w, models, drain, model, since)
    && NextDestroyIn(provisioned, since, cooldown, w.now, Period(w.pool)) <= 0
  }

  predicate Destroyable(w: World, models: seq<Model>, drain: bool, model: Model, provisioned: Option<int>,
                        since: Option<int>, cooldown: int)
  {
    && w.registered
    && (w.instance == Dead
        || (w.instance == Alive && !AnyIn(models, w.alwaysActive) && drain)
        || IdleDestroyable(w, models, drain, model, provisioned, since, cooldown))
  }

  class DisruptionController {
    const cooldown: int
    const claim: NodeClaim
    const provisioned: Option<int>
    var phase: Phase
    var idleSince: Option<int>
    var running: bool
    ghost var worlds: seq<World>  // what the looks so far were taken at
    ghost var looks: seq<Look>

    /** The stored idle time is the one the looks so far give. */
    ghost predicate Valid()
      reads this
    {
      idleSince == IdleSince(looks) && looks == LooksOf(worlds, ModelsOf(claim))
    }

    constructor (cooldown: int, claim: NodeClaim, provisioned: Option<int>)
      ensures Valid() && phase == Ready && running && looks == [] && worlds == []
      ensures this.cooldown == cooldown && this.claim == claim && this.provisioned == provisioned
    {
      this.cooldown, this.claim, this.provisioned := cooldown, claim, provisioned;
      phase, idleSince, running, looks, worlds := Ready, None, true, [], [];
      new;
      assert LooksOf([], ModelsOf(this.claim)) == [];
    }

    /** A claim is destroyed exactly if its instance died, or, with no model always active, consolidation asked
        for it, or no model is wanted, the node reports itself idle, the wait since it became idle is over and
        no minimum holds it back. Otherwise the look updates the idle clock and nothing else: a use clears it,
        the first look without one starts it. An idle destroy never happens at the look that starts the clock;
        without a billing period it comes at least a cooldown after that look; and at every conclusive look
        since then whose writes worked no model was always active or wanted and the node was idle. */
    method ReconcileStandalone(w: World) returns (reply: Reply, ghost start: nat)
      requires Valid() && phase == Ready
      modifies this
      ensures reply.Destroys? <==>
                && w.registered
                && (|| w.instance == Dead
                    || (&& w.instance == Alive
                        && (forall m :: m in ModelsOf(claim) && m != "" ==> m !in w.alwaysActive)
                        && (|| claim.drain
                            || (&& (forall m :: m in ModelsOf(claim) && m != "" ==> m !in w.wanted) && w.flagged
                                && w.pool != PoolReadFailed && old(idleSince).Some?
                                && NextDestroyIn(provisioned, old(idleSince), cooldown, w.now,
                                                 if w.pool.PoolFound? then w.pool.period else 0) <= 0
                                && (w.pool.PoolFound? ==>
                                      w.pool.minNodes < if w.nodes.Some? then Nodes(w.nodes.value, w.pool.name) else 0)
                                && (claim.model != "" && w.minReplicas.Some? && w.minReplicas.value > 1
                                    && w.replicas.Some? ==>
                                      w.minReplicas.value < Replicas(w.replicas.value, claim.model))))))
      ensures reply.Destroys? <==>
                Destroyable(w, ModelsOf(claim), claim.drain, claim.model, provisioned, old(idleSince), cooldown)
      ensures reply.Waits? ==> phase == Ready && running == old(running) && Valid()
      ensures reply.Waits? ==> worlds == old(worlds) + [w] && looks == old(looks) + [LookOf(w, ModelsOf(claim))]
      ensures reply.Waits? ==>
                idleSince ==
                if !w.registered || w.instance == CheckFailed then old(idleSince)
                else if (exists m :: m in ModelsOf(claim) && m != "" && (m in w.alwaysActive || m in w.wanted))
                        || !w.flagged then
                  if w.writeOk then None else old(idleSince)
                else if old(idleSince).None? && w.pool != PoolReadFailed && w.writeOk then Some(w.now)
                else old(idleSince)
      ensures reply.Destroys? ==> worlds == old(worlds) && looks == old(looks) && idleSince == old(idleSince)
      ensures reply.Destroys? ==> phase == AfterDestroy(w.ending) && running == (old(running) && StillRuns(w.ending))
      ensures reply.Destroys? ==> (reply.cause == Died <==> w.instance == Dead)
      ensures reply.Destroys? && w.instance == Alive ==> (reply.cause == Consolidated <==> claim.drain)
      ensures reply.Destroys? && reply.cause == IdleLongEnough ==>
                IdleDestroyable(w, ModelsOf(claim), claim.drain, claim.model, provisioned, idleSince, cooldown)
      ensures reply.Destroys? ==> (reply.done <==> phase == Terminated)
      ensures reply.Waits? && !w.registered ==> reply.after == MINUTE
      ensures reply.Waits? && w.registered && w.instance == CheckFailed ==> reply.after == MINUTE / 2
      ensures reply.Waits? && LookOf(w, ModelsOf(claim)).Busy? ==> reply.after == MINUTE
      ensures reply.Destroys? && reply.cause == IdleLongEnough ==>
                && RunsFrom(looks, start) && start < |worlds| && idleSince == Some(worlds[start].now)
                && ((Period(w.pool) <= 0 || provisioned.None?) ==> w.now - worlds[start].now >= cooldown)
      ensures reply.Destroys? && reply.cause == IdleLongEnough ==>
                forall k :: start <= k < |worlds| && worlds[k].registered && worlds[k].instance == Alive
                            && worlds[k].writeOk ==>
                  && worlds[k].flagged
                  && forall m :: m in ModelsOf(claim) && m != "" ==>
                       m !in worlds[k].alwaysActive && m !in worlds[k].wanted
    {
      hide IdleSince, RunsFrom, LooksOf, NextDestroyIn, ModelsOf, Nodes, Replicas;
      start := 0;
      ghost var models := ModelsOf(claim);
      AppendLook(looks, LookOf(w, models));
      AppendWorld(worlds, w, models);
      if !w.registered {
        looks, worlds := looks + [Unclear], worlds + [w];
        return Waits(MINUTE), 0;
      }
      if w.instance == CheckFailed {
        looks, worlds := looks + [Unclear], worlds + [w];
        return Waits(MINUTE / 2), 0;
      }
      if w.instance == Dead {
        var done := DestroyWorker(w.ending);
        return Destroys(Died, done), 0;
      }
      var active := HasAny(ModelsOf(claim), w.alwaysActive);
      if active {
        ClearIdle(w);
        return Waits(MINUTE), 0;
      }
      if claim.drain {
        var done := DestroyWorker(w.ending);
        return Destroys(Consolidated, done), 0;
      }
      var wanted := HasAny(ModelsOf(claim), w.wanted);
      if wanted || !w.flagged {
        ClearIdle(w);
        return Waits(MINUTE), 0;
      }
      reply, start := HandleIdleClaim(w);
      if reply.Destroys? {
        StreakIsQuiet(worlds, models, start);
        if Period(w.pool) <= 0 || provisioned.None? {
          WaitEndsWithCooldown(provisioned, idleSince.value, cooldown, w.now, Period(w.pool));
        }
      }
    }

    method ClearIdle(w: World)
      requires Valid() && LookOf(w, ModelsOf(claim)) == Busy(w.writeOk)
      modifies this`idleSince, this`looks, this`worlds
      ensures Valid() && looks == old(looks) + [Busy(w.writeOk)] && worlds == old(worlds) + [w]
      ensures idleSince == if w.writeOk then None else old(idleSince)
    {
      hide IdleSince, LooksOf;
      AppendLook(looks, Busy(w.writeOk));
      AppendWorld(worlds, w, ModelsOf(claim));
      if idleSince.Some? && w.writeOk {
        idleSince := None;
      }
      looks, worlds := looks + [Busy(w.writeOk)], worlds + [w];
    }

    method HandleIdleClaim(w: World) returns (reply: Reply, ghost start: nat)
      requires Valid() && phase == Ready
      requires LookOf(w, ModelsOf(claim)) == Unused(w.now, w.pool != PoolReadFailed, w.writeOk)
      modifies this
      ensures reply.Destroys? <==>
                && w.pool != PoolReadFailed && old(idleSince).Some?
                && NextDestroyIn(provisioned, old(idleSince), cooldown, w.now, Period(w.pool)) <= 0
                && !HeldBack(w, claim.model)
      ensures reply.Waits? ==> phase == Ready && running == old(running) && Valid()
      ensures reply.Waits? ==> looks == old(looks) + [LookOf(w, ModelsOf(claim))] && worlds == old(worlds) + [w]
      ensures reply.Waits? ==>
                idleSince == if old(idleSince).None? && w.pool != PoolReadFailed && w.writeOk then Some(w.now)
                             else old(idleSince)
      ensures reply.Destroys? ==> looks == old(looks) && worlds == old(worlds) && idleSince == old(idleSince)
      ensures reply.Destroys? ==> phase == AfterDestroy(w.ending) && running == (old(running) && StillRuns(w.ending))
      ensures reply.Waits? ==>
                var since := if old(idleSince).Some? then old(idleSince) else Some(w.now);
                var wait := NextDestroyIn(provisioned, since, cooldown, w.now, Period(w.pool));
                reply.after == if w.pool == PoolReadFailed then MINUTE / 2
                               else if wait > 0 || old(idleSince).None? then wait else MINUTE
      ensures reply.Destroys? ==> reply.cause == IdleLongEnough && RunsFrom(looks, start)
      ensures reply.Destroys? ==> (reply.done <==> phase == Terminated)
      ensures reply.Destroys? ==> idleSince == Some(looks[start].now)
    {
      hide IdleSince, LooksOf;
      start := 0;
      AppendLook(looks, LookOf(w, ModelsOf(claim)));
      AppendWorld(worlds, w, ModelsOf(claim));
      ghost var seen, met := looks + [LookOf(w, ModelsOf(claim))], worlds + [w];
      if w.pool == PoolReadFailed {
        looks, worlds := seen, met;
        return Waits(MINUTE / 2), 0;
      }
      var period := Period(w.pool);
      if idleSince.None? {
        if w.writeOk {
          idleSince := Some(w.now);
        }
        looks, worlds := seen, met;
        return Waits(NextDestroyIn(provisioned, Some(w.now), cooldown, w.now, period)), 0;
      }
      var destroyIn := NextDestroyIn(provisioned, idleSince, cooldown, w.now, period);
      if destroyIn > 0 {
        looks, worlds := seen, met;
        return Waits(destroyIn), 0;
      }
      var held := AtMinimum(w);
      if held {
        looks, worlds := seen, met;
        return Waits(MINUTE), 0;
      }
      start := IdleSinceIsStart(looks);
      var done := DestroyWorker(w.ending);
      reply := Destroys(IdleLongEnough, done);
    }

    /** A failed list counts as no nodes at all; a minimum of one replica is not enforced. */
    method AtMinimum(w: World) returns (held: bool)
      ensures held == HeldBack(w, claim.model)
    {
      if w.pool.PoolFound? {
        var active := 0;
        if w.nodes.Some? {
          active := CountNodes(w.nodes.value, w.pool.name);
        }
        if active <= w.pool.minNodes {
          return true;
        }
      }
      if claim.model != "" && w.minReplicas.Some? && w.minReplicas.value > 1 && w.replicas.Some? {
        var active := CountActiveClaimsForModel(w.replicas.value, claim.model);
        if active <= w.minReplicas.value {
          return true;
        }
      }
      return false;
    }

    /** The instance is destroyed only once the stored phase is Draining, and the phase becomes Terminated only
        after the destroy call was made, whether or not it succeeded. */
    method DestroyWorker(e: Ending) returns (done: bool)
      requires phase == Ready
      modifies this`phase, this`running
      ensures phase == AfterDestroy(e) && running == (old(running) && StillRuns(e))
      ensures phase == Ready <==> !e.drainOk
      ensures phase == Terminated <==> e.drainOk && e.registered && e.endOk
      ensures phase == Ready || phase == Draining || phase == Terminated
      ensures running <==> old(running) && !(e.drainOk && e.registered && e.destroyOk)
      ensures done <==> phase == Terminated
    {
      if !e.drainOk {
        return false;
      }
      phase := Draining;
      if !e.registered {
        return false;
      }
      if e.destroyOk {
        running := false;
      }
      if !e.endOk {
        return false;
      }
      phase := Terminated;
      done := true;
    }
  }

  function AfterDestroy(e: Ending): Phase {
    if !e.drainOk then Ready else if e.registered && e.endOk then Terminated else Draining
  }

  predicate StillRuns(e: Ending) {
    !(e.drainOk && e.registered && e.destroyOk)
  }

  lemma AppendLook(looks: seq<Look>, l: Look)
    ensures IdleSince(looks + [l]) == IdleAfter(IdleSince(looks), l)
  {
  }

  lemma AppendWorld(worlds: seq<World>, w: World, models: seq<Model>)
    ensures LooksOf(worlds + [w], models) == LooksOf(worlds, models) + [LookOf(w, models)]
  {
  }

  /** While the clock runs from look `start`, every conclusive look since then whose writes worked found no model
      always active or wanted, and the node idle. */
  lemma StreakIsQuiet(worlds: seq<World>, models: seq<Model>, start: nat)
    requires RunsFrom(LooksOf(worlds, models), start)
    ensures start < |worlds| && worlds[start].now == LooksOf(worlds, models)[start].now
    ensures forall k :: start <= k < |worlds| && worlds[k].registered && worlds[k].instance != CheckFailed
                        && worlds[k].writeOk ==>
              && worlds[k].flagged
              && forall m :: m in models && m != "" ==> m !in worlds[k].alwaysActive && m !in worlds[k].wanted
  {
    var looks := LooksOf(worlds, models);
    forall k | start <= k < |worlds| && worlds[k].registered && worlds[k].instance != CheckFailed
               && worlds[k].writeOk
      ensures && worlds[k].flagged
              && forall m :: m in models && m != "" ==> m !in worlds[k].alwaysActive && m !in worlds[k].wanted
    {
      assert !Clears(looks[k]) && looks[k] == LookOf(worlds[k], models);
    }
  }

  /** While the clock runs it was started by a look at `start`; and the node was unused at every conclusive look
      since then exactly if every look since then that found it in use could write its status. */
  lemma QuietExactlyWhen(worlds: seq<World>, models: seq<Model>) returns (start: nat)
    requires IdleSince(LooksOf(worlds, models)).Some?
    ensures start < |worlds| && IdleSince(LooksOf(worlds, models)) == Some(worlds[start].now)
    ensures (forall k :: start <= k < |worlds| && worlds[k].registered && worlds[k].instance != CheckFailed ==>
               && worlds[k].flagged
               && forall m :: m in models && m != "" ==> m !in worlds[k].alwaysActive && m !in worlds[k].wanted)
            <==>
            (forall k :: && start <= k < |worlds| && worlds[k].registered && worlds[k].instance != CheckFailed
                         && (|| !worlds[k].flagged
                             || exists m :: && m in models && m != ""
                                            && (m in worlds[k].alwaysActive || m in worlds[k].wanted))
                         ==> worlds[k].writeOk)
  {
    start := IdleSinceIsStart(LooksOf(worlds, models));
    StreakIsQuiet(worlds, models, start);
  }

  /** A Terminated claim can still have a running instance: exactly when the destroy call failed. */
  lemma TerminatedButRunning(e: Ending)
    ensures AfterDestroy(e) == Terminated ==> (StillRuns(e) <==> !e.destroyOk)
    ensures AfterDestroy(e) == Ready ==> StillRuns(e)
  {
  }

  // ---------------------------------------------------------------- the cooldown

  /** An idle node is destroyed before its cooldown is over exactly if nothing else holds it, billing ticks are
      counted, and the next one is at most a minute away. */
  lemma CooldownUndercutExactlyWhen(w: World, models: seq<Model>, drain: bool, model: Model, provisioned: Option<int>,
                                    since: int, cooldown: int, tick: int)
    requires Period(w.pool) > 0 && provisioned.Some? ==>
               w.now >= provisioned.value && IsNextTick(provisioned.value, Period(w.pool), w.now, tick)
    ensures IdleDestroyable(w, models, drain, model, provisioned, Some(since), cooldown)
            && w.now - since < cooldown <==>
            && IdleCandidate(w, models, drain, model, Some(since)) && w.now - since < cooldown
            && Period(w.pool) > 0 && provisioned.Some? && tick - w.now <= MINUTE
  {
    UndercutExactlyWhen(provisioned, since, cooldown, w.now, Period(w.pool), tick);
  }

  /** What a quiet node of a pool billed every ten minutes looks like. */
  function QuietWorld(now: int): World {
    World(now, true, Alive, {}, {}, true, PoolFound("p", 10 * MINUTE, 0), Some([QUIET]), None, None, true,
          Ending(true, true, true, true))
  }

  const QUIET := NodeClaim("c", "p", "standalone", "m", ["m"], Needs(0, 0, [], 0.0, 0, false), Ready, "standalone",
                           false, false)

  /** A node with a cooldown of two minutes is destroyed one nanosecond after it became idle. */
  method DestroyedBeforeCooldown() returns (reply: Reply)
    ensures reply == Destroys(IdleLongEnough, true)
  {
    var d := new DisruptionController(2 * MINUTE, QUIET, Some(0));
    var t := 9 * MINUTE;
    ghost var start;
    hide IdleSince;
    reply, start := d.ReconcileStandalone(QuietWorld(t));
    QuietLook(t);
    AppendLook([], Unused(t, true, true));
    assert d.looks == [] + [Unused(t, true, true)];
    QuietLook(t + 1);
    QuietIsDue(t + 1, t);
    reply, start := d.ReconcileStandalone(QuietWorld(t + 1));
  }

  lemma QuietLook(now: int)
    ensures LookOf(QuietWorld(now), ModelsOf(QUIET)) == Unused(now, true, true)
    ensures !HeldBack(QuietWorld(now), "m")
  {
    CountAppend([], QUIET, NodeOf("p"));
    assert [] + [QUIET] == [QUIET];
  }

  lemma QuietIsDue(now: int, since: int)
    requires 9 * MINUTE <= now < 10 * MINUTE
    ensures NextDestroyIn(Some(0), Some(since), 2 * MINUTE, now, 10 * MINUTE) == 0
  {
    assert IsNextTick(0, 10 * MINUTE, now, 10 * MINUTE) by { assert 10 * MINUTE == 0 + 1 * (10 * MINUTE); }
    WaitEndsBeforeTick(0, Some(since), 2 * MINUTE, now, 10 * MINUTE, 10 * MINUTE);
  }
}
