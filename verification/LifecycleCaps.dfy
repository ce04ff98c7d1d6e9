/**
 The replica and node limits in runs of the whole system: what brings a claim back, and when nothing does.
 */
module LifecycleCaps {
  import opened Lifecycle
  import opened LifecycleInvariant
  import opened LifecycleRuns
  import opened LifecyclePhases
  import opened Claims
  import Caps
  import Floor

  /** A step of some claim takes its stored phase from `p` to `q`. */
  ghost predicate Moves(states: seq<State>, acts: seq<Action>, t: nat, c: Name, p: Phase, q: Phase)
    requires IsRun(states, acts)
  {
    && t < |acts| && acts[t].On? && acts[t].c == c && c in states[t].claims && c in states[t + 1].claims
    && states[t].claims[c].Last().phase == p && states[t + 1].claims[c].Last().phase == q
  }

  /** Every change of phase in the claim store is a step of the lifecycle run. */
  ghost predicate Accounts(stores: seq<seq<NodeClaim>>, events: seq<Caps.Event>, states: seq<State>, acts: seq<Action>)
    requires Caps.IsHistory(stores, events) && IsRun(states, acts)
  {
    forall k :: 0 <= k < |events| && events[k].Moved? && Caps.Possible(stores[k], events[k]) ==>
      exists t, c :: Moves(states, acts, t, c, stores[k][events[k].i].phase, events[k].phase)
  }

  /** A step that takes the phase back in rank is a write over an overtaken claim. */
  lemma BackIsOvertaken(states: seq<State>, acts: seq<Action>, t: nat, c: Name, p: Phase, q: Phase)
    requires IsRun(states, acts) && Moves(states, acts, t, c, p, q) && Rank(p) > Rank(q)
    ensures Overtaken(states[t].claims[c], acts[t].act)
  {
    OneStepBack(states, acts, t + 1, c);
    hide IsRun, ClaimInv, Enabled, Overtaken;
    WriteAtMostOne(states[t].claims[c], acts[t].act);
    DropsExactlyWhenOvertaken(states[t].claims[c], acts[t].act);
  }

  /** What brings a trigger-made claim back, as a replica or as a node, goes back in rank. */
  lemma RevivalGoesBack(claims: seq<NodeClaim>, e: Caps.Event, m: Model, pool: string)
    requires Caps.Possible(claims, e)
    requires Caps.Revives(claims, e, Caps.OwnReplicaOf(m)) || Caps.Revives(claims, e, Caps.OwnNodeOf(pool))
    ensures Rank(claims[e.i].phase) > Rank(e.phase)
  {
  }

  /** In the whole system every revival is a write of Bootstrapping over an overtaken claim. */
  lemma RevivalIsOvertaken(stores: seq<seq<NodeClaim>>, events: seq<Caps.Event>, states: seq<State>, acts: seq<Action>,
                           k: nat, m: Model, pool: string)
    returns (t: nat, c: Name)
    requires Caps.IsHistory(stores, events) && IsRun(states, acts) && Accounts(stores, events, states, acts)
    requires k < |events| && Caps.Possible(stores[k], events[k])
    requires Caps.Revives(stores[k], events[k], Caps.OwnReplicaOf(m)) ||
             Caps.Revives(stores[k], events[k], Caps.OwnNodeOf(pool))
    ensures t < |acts| && acts[t].On? && acts[t].c == c && c in states[t].claims
    ensures Overtaken(states[t].claims[c], acts[t].act)
  {
    RevivalGoesBack(stores[k], events[k], m, pool);
    t, c :| Moves(states, acts, t, c, stores[k][events[k].i].phase, events[k].phase);
    BackIsOvertaken(states, acts, t, c, stores[k][events[k].i].phase, events[k].phase);
  }

  /** Every Reconcile call of every claim starts from the stored version. */
  ghost predicate AllFresh(states: seq<State>, acts: seq<Action>)
    requires IsRun(states, acts)
  {
    forall c :: c in states[|acts|].claims ==> FreshDispatch(states, acts, |acts|, c)
  }

  lemma NothingOvertaken(states: seq<State>, acts: seq<Action>, t: nat, c: Name)
    requires IsRun(states, acts) && t < |acts| && c in states[|acts|].claims && acts[t].On? && acts[t].c == c
    requires FreshDispatch(states, acts, |acts|, c)
    ensures !Overtaken(states[t].claims[c], acts[t].act)
  {
    FreshDispatchMonotone(states, acts, |acts|, c);
    PhasesMonotoneExactlyWhen(states, acts, |acts|, c);
  }

  lemma FreshAdvances(stores: seq<seq<NodeClaim>>, events: seq<Caps.Event>, states: seq<State>, acts: seq<Action>)
    requires Caps.IsHistory(stores, events) && IsRun(states, acts) && Accounts(stores, events, states, acts)
    requires AllFresh(states, acts)
    ensures Caps.PhasesOnlyAdvance(stores, events, |events|)
  {
    forall k | 0 <= k < |events| && Caps.Possible(stores[k], events[k]) && events[k].Moved?
      ensures Rank(stores[k][events[k].i].phase) <= Rank(events[k].phase)
    {
      var p, q := stores[k][events[k].i].phase, events[k].phase;
      var t, c :| Moves(states, acts, t, c, p, q);
      HistoryExtends(states, acts, t, |acts|, c);
      NothingOvertaken(states, acts, t, c);
      if Rank(p) > Rank(q) { BackIsOvertaken(states, acts, t, c, p, q); }
    }
  }

  /** With fresh Reconcile calls the replica and node limits hold throughout, in every run of the whole system. */
  lemma FreshKeepsCaps(stores: seq<seq<NodeClaim>>, events: seq<Caps.Event>, states: seq<State>, acts: seq<Action>,
                       m: Model, replicas: int, pool: string, nodes: int)
    requires Caps.IsHistory(stores, events) && IsRun(states, acts) && Accounts(stores, events, states, acts)
    requires AllFresh(states, acts)
    requires replicas >= 1 && Count(stores[0], Caps.OwnReplicaOf(m)) <= replicas
    requires Count(stores[0], Caps.OwnNodeOf(pool)) <= nodes
    requires Caps.ReplicaLimits(events, |events|, m, replicas) && Caps.NodeLimits(events, |events|, pool, nodes)
    ensures Caps.Within(stores, events, |events|, Caps.OwnReplicaOf(m), replicas)
    ensures Caps.Within(stores, events, |events|, Caps.OwnNodeOf(pool), nodes)
  {
    hide Accounts, AllFresh, IsRun;
    FreshAdvances(stores, events, states, acts);
    Caps.ReplicaCap(stores, events, |events|, m, replicas);
    Caps.NodeCap(stores, events, |events|, pool, nodes);
  }

  /** What a lifecycle step that is not such a write does to the phase of a claim fits the runs with minimums: an
      inactive claim settles, and an active one boots on or ends. */
  lemma StepSettlesOrBoots(c: Claim, a: ClaimAct, claims: seq<NodeClaim>, i: nat)
    requires ClaimInv(c) && Enabled(c, a) && !Overtaken(c, a)
    requires i < |claims| && claims[i].phase == c.Last().phase
    ensures var q := Step(c, a).Last().phase;
            if !Active(claims[i]) then Floor.Possible(claims, Floor.Settles(i, q))
            else IsActivePhase(q) ==> Floor.Possible(claims, Floor.Boots(i, q))
  {
    WriteAtMostOne(c, a);
    DropsExactlyWhenOvertaken(c, a);
  }
}
