/**
 The claim reconciler as the program it is: straight-line handlers whose every API call is one step of
 the lifecycle, with any number of steps of everyone else in between. Each handler is proved to produce
 a run of the lifecycle, so the theorems about runs hold at every point of it.
 */
module Reconciler {
  import opened Lifecycle
  import opened LifecycleRuns
  import opened Options

  /** A step that is not taken by the reconciler of claim `c`. */
  predicate Elsewhere(a: Action, c: Name) {
    match a
    case On(d, act) => d != c || act.Touch? || act.RequestDelete? || act.DisGet? || act.DisDrain? || act.DisDestroy?
                       || act.DisTerminate? || act.DisQuit? || act.IntList? || act.IntTerminate? || act.IntQuit?
    case _ => true
  }

  lemma ElsewhereKeepsCounter(s: State, a: Action, c: Name)
    requires CanAct(s, a) && c in s.claims && Elsewhere(a, c)
    ensures c in Next(s, a).claims
    ensures Next(s, a).claims[c].rec == s.claims[c].rec && Next(s, a).claims[c].created == s.claims[c].created
    ensures s.claims[c].hist <= Next(s, a).claims[c].hist
  {
    ClaimAfter(s, a, c);
  }

  /** What asking the provider about an instance can return. */
  datatype Probe = NotFound | ProbeError | Dead | Alive

  /** What becomes of a read or a write on its way: it is answered, it is served and the answer is lost, or
      it never arrives. */
  datatype Fate = Answered | AnswerLost | Unsent

  /** What one Reconcile call learns from the outside: whether the pool and the bootstrap secret can be
      read, the provider the coordinator placed an instance at, whether the annotation patch works, whether
      the claim's provider is registered, what it says about the instance, whether the failure is still
      inside its grace period, whether the agent is connected, whether the bootstrap time is over, whether
      the timeout write and a destroy work, and the fate of the k-th call the cluster is asked for. */
  datatype Inputs = Inputs(readable: bool, placed: Option<Provider>, patched: bool,
                           providerKnown: bool, probe: Probe, inGrace: bool, agentConnected: bool,
                           expired: bool, written: bool, destroyed: bool, fate: nat -> Fate)

  /** What a Reconcile call asks for once it holds the snapshot `r`, which is not being deleted and has its
      finalizer; a Pending snapshot is handlePending's. */
  function AskedFor(r: Record, i: Inputs): (asked: seq<ClaimAct>)
    requires !r.phase.Pending?
    ensures Initialise in asked <==> r.phase.Unset?
    ensures ResumeProvisioning in asked <==> r.phase.Provisioning?
    ensures WriteReady in asked <==>
            r.phase.Bootstrapping? && i.providerKnown && i.probe.Alive? && i.agentConnected
    ensures TimeoutWrite(i.written) in asked <==>
            r.phase.Bootstrapping? && i.providerKnown && i.probe.Alive? && !i.agentConnected && i.expired
    ensures DestroyLast(i.destroyed) in asked <==> TimeoutWrite(i.written) in asked
    ensures DestroyFirst(i.destroyed) in asked <==>
            && i.providerKnown
            && (|| (r.phase.Bootstrapping? && i.probe.Dead? && !i.inGrace)
                || (r.phase.Ready? && (i.probe.Dead? || (i.probe.Alive? && !i.agentConnected)))
                || ((r.phase.Draining? || r.phase.Hibernated?) && r.instance != ""))
    ensures WriteTerminated in asked <==>
            || (r.phase.Bootstrapping? && i.providerKnown && (i.probe.NotFound? || (i.probe.Dead? && !i.inGrace)))
            || (r.phase.Ready? && i.providerKnown && !i.probe.ProbeError? && !(i.probe.Alive? && i.agentConnected))
            || (r.phase.Draining? && !(r.instance != "" && i.providerKnown && !i.destroyed && !i.probe.NotFound?))
            || r.phase.Hibernated?
    ensures 1 <= |asked| <= 2
    ensures |asked| == 2 ==> asked[0] == DestroyFirst(i.destroyed) || asked[0] == TimeoutWrite(i.written)
  {
    match r.phase
    case Unset => [Initialise]
    case Provisioning => [ResumeProvisioning]
    case Bootstrapping =>
      if !i.providerKnown || i.probe.ProbeError? then [Quit]
      else if i.probe.NotFound? then [WriteTerminated]
      else if i.probe.Dead? then if i.inGrace then [Quit] else [DestroyFirst(i.destroyed), WriteTerminated]
      else if i.agentConnected then [WriteReady]
      else if i.expired then [TimeoutWrite(i.written), DestroyLast(i.destroyed)] else [Quit]
    case Ready =>
      if !i.providerKnown || i.probe.ProbeError? || (i.probe.Alive? && i.agentConnected) then [Quit]
      else if i.probe.NotFound? then [WriteTerminated] else [DestroyFirst(i.destroyed), WriteTerminated]
    case Draining =>
      if r.instance == "" || !i.providerKnown then [WriteTerminated]
      else if !i.destroyed && !i.probe.NotFound? then [DestroyFirst(false), Quit]
      else [DestroyFirst(i.destroyed), WriteTerminated]
    case Hibernated =>
      if r.instance == "" || !i.providerKnown then [WriteTerminated]
      else [DestroyFirst(i.destroyed), WriteTerminated]
    case Terminated => [Quit]
  }

  /** What a Reconcile call asks for on a snapshot that is being deleted. */
  function DeletionAskedFor(r: Record, i: Inputs): (asked: seq<ClaimAct>)
    ensures DeletionDestroy(i.destroyed) in asked <==>
            r.finalizer && r.instance != "" && r.instance != "0" && i.providerKnown
    ensures Finalize in asked <==> r.finalizer
    ensures DeletionDestroy(i.destroyed) in asked ==> asked == [DeletionDestroy(i.destroyed), Finalize]
    ensures |asked| <= 2
  {
    if !r.finalizer then [Quit]
    else if r.instance != "" && r.instance != "0" && i.providerKnown then [DeletionDestroy(i.destroyed), Finalize]
    else [Finalize]
  }

  /** A compare-and-swap of the reconciler that came too late: somebody stored a version in between. */
  predicate LostRace(s: State, a: Action, c: Name) {
    && a.On? && a.c == c && c in s.claims && Enabled(s.claims[c], a.act)
    && (a.act.StartCreate? || a.act.SetProvider? || a.act.WriteBootstrapping? || a.act.AddFinalizer?)
    && !Current(s.claims[c], s.claims[c].rec.v)
  }

  class Cluster {
    var now: State
    ghost var states: seq<State>
    ghost var acts: seq<Action>
    var calls: seq<ClaimAct>  // what the reconcilers asked for, in order

    /** The history is a run of the lifecycle that ends in the present. */
    ghost predicate Valid()
      reads this
    {
      IsRun(states, acts) && states[|acts|] == now
    }

    constructor ()
      ensures Valid() && now == INIT && acts == []
    {
      now := INIT;
      states := [INIT];
      acts := [];
      calls := [];
    }

    /** One API call. */
    method Do(a: Action)
      requires Valid() && CanAct(now, a)
      modifies this
      ensures Valid() && now == Next(old(now), a)
      ensures states == old(states) + [now] && acts == old(acts) + [a] && calls == old(calls)
    {
      hide CanAct, Next;
      now := Next(now, a);
      states := states + [now];
      acts := acts + [a];
    }

    /** Anything the other processes may do meanwhile. */
    method Interfere(c: Name)
      requires Valid() && c in now.claims
      modifies this
      ensures Valid() && c in now.claims
      ensures now.claims[c].rec == old(now.claims[c].rec) && now.claims[c].created == old(now.claims[c].created)
      ensures old(now.claims[c].hist) <= now.claims[c].hist
      ensures old(states) <= states && old(acts) <= acts && calls == old(calls)
    {
      var steps: nat := *;
      while steps > 0
        invariant Valid() && c in now.claims
        invariant now.claims[c].rec == old(now.claims[c].rec) && now.claims[c].created == old(now.claims[c].created)
        invariant old(now.claims[c].hist) <= now.claims[c].hist
        invariant old(states) <= states && old(acts) <= acts && calls == old(calls)
      {
        var a: Action := *;
        if CanAct(now, a) && Elsewhere(a, c) {
          ElsewhereKeepsCounter(now, a, c);
          Do(a);
        }
        steps := steps - 1;
      }
    }

    ghost predicate Extends(before: seq<State>, done: seq<Action>)
      reads this
    {
      before <= states && done <= acts
    }

    /** A cached read of the claim: any version up to the stored one. */
    method Read(c: Name) returns (v: nat)
      requires c in now.claims
      ensures v < |now.claims[c].hist|
    {
      v := *;
      if v >= |now.claims[c].hist| { v := |now.claims[c].hist| - 1; }
    }

    /** One API call of the reconciler of `c`, and then anything the other processes do. */
    method Call(c: Name, act: ClaimAct)
      requires Valid() && CanAct(now, On(c, act))
      modifies this
      ensures Valid() && c in now.claims && Extends(old(states), old(acts))
      ensures now.claims[c].rec == NextRec(old(now.claims[c]), act)
      ensures now.claims[c].created ==
              if act.CreateOk? then old(now.claims[c].created) + [act.id] else old(now.claims[c].created)
      ensures old(now.claims[c].hist) <= now.claims[c].hist
      ensures old(now.claims[c].hist) + Write(old(now.claims[c]), act) <= now.claims[c].hist
      ensures calls == old(calls) + [act] && Took(old(now), On(c, act), |old(acts)|)
    {
      Do(On(c, act));
      calls := calls + [act];
      Interfere(c);
    }

    /** The `k`-th step of the run was `a`, taken in state `s`. */
    ghost predicate Took(s: State, a: Action, k: nat)
      requires CanAct(s, a)
      reads this
    {
      && k < |acts| && acts[k] == a
      && k + 1 < |states| && states[k] == s && states[k + 1] == Next(s, a)
    }

    /** A read or a write that may go wrong on the way. Whether the request or the answer is lost, the caller
        sees an error and ends the Reconcile call. */
    method Try(c: Name, act: ClaimAct, fate: Fate) returns (answered: bool)
      requires Valid() && CanAct(now, On(c, act)) && !act.CreateOk?
      modifies this
      ensures Valid() && c in now.claims && Extends(old(states), old(acts))
      ensures answered == fate.Answered?
      ensures now.claims[c].rec == if answered then NextRec(old(now.claims[c]), act) else Idle
      ensures now.claims[c].created == old(now.claims[c].created)
      ensures old(now.claims[c].hist) <= now.claims[c].hist
      ensures var stored := if fate.Unsent? then [] else Write(old(now.claims[c]), act);
              old(now.claims[c].hist) + stored <= now.claims[c].hist
      ensures calls == old(calls) + [act]
      ensures Took(old(now), On(c, if fate.Unsent? then Quit else act), |old(acts)|)
    {
      hide IsRun, Next, Write;
      var asked := calls + [act];
      answered := fate.Answered?;
      if !fate.Unsent? {
        Call(c, act);
      }
      if !answered {
        Call(c, Quit);
      }
      calls := asked;
    }

    /** The claim has a version, stored since it had `n` of them, that is Bootstrapping with `id`. */
    ghost predicate Recorded(c: Name, n: nat, id: Id)
      reads this
    {
      && c in now.claims
      && exists i :: n <= i < |now.claims[c].hist| && now.claims[c].hist[i].phase == Bootstrapping
                     && now.claims[c].hist[i].instance == id
    }

    /** Every call asked for since the first `n` was answered. */
    ghost predicate AllAnswered(i: Inputs, n: nat)
      reads this
    {
      forall k :: n <= k < |calls| ==> i.fate(k).Answered?
    }

    /** Something went wrong since `n` calls and `m` steps: a call was not answered, or a compare-and-swap
        came too late. */
    ghost predicate Disturbed(c: Name, i: Inputs, n: nat, m: nat)
      reads this
    {
      || (exists k :: n <= k < |calls| && !i.fate(k).Answered?)
      || (exists k :: m <= k < |acts| && k < |states| && LostRace(states[k], acts[k], c))
    }

    lemma DisturbedFrom(c: Name, i: Inputs, n: nat, m: nat, laterCall: nat, laterStep: nat)
      requires Disturbed(c, i, laterCall, laterStep) && n <= laterCall && m <= laterStep
      ensures Disturbed(c, i, n, m)
    {
      hide LostRace;
    }

    lemma RaceLost(c: Name, i: Inputs, n: nat, m: nat, k: nat)
      requires m <= k < |acts| && k < |states| && LostRace(states[k], acts[k], c)
      ensures Disturbed(c, i, n, m)
    {
    }

    /** The IDs issued so far that have at least `n` characters. */
    function Issued(n: nat): set<Id>
      reads this
    {
      set id | id in now.owner && |id| >= n
    }

    /** If every call since then was answered and every compare-and-swap stored its version, nothing went wrong. */
    lemma Undisturbed(c: Name, i: Inputs, n: nat, m: nat)
      requires Valid() && AllAnswered(i, n)
      requires forall k :: m <= k < |acts| && acts[k].On? && acts[k].c == c
                           && (acts[k].act.StartCreate? || acts[k].act.SetProvider? || acts[k].act.WriteBootstrapping?
                               || acts[k].act.AddFinalizer?) ==>
                 c in states[k].claims && c in states[k + 1].claims
                 && |states[k].claims[c].hist| < |states[k + 1].claims[c].hist|
      ensures !Disturbed(c, i, n, m)
    {
      forall k | m <= k < |acts| ensures !LostRace(states[k], acts[k], c) {
        assert CanAct(states[k], acts[k]) && states[k + 1] == Next(states[k], acts[k]);
      }
    }

    /** An ID the provider has not issued before. */
    method NewId() returns (id: Id)
      ensures id != "" && id !in now.owner
    {
      id := *;
      if id == "" {
        id := "i";
      }
      while id in now.owner
        invariant id != ""
        decreases Issued(|id|)
      {
        assert id in Issued(|id|) && id !in Issued(|id| + 1);
        id := id + "-";
      }
    }

    /** The coordinator found nothing: re-fetch and go back to Pending, if both calls get through. */
    method GiveUp(c: Name, i: Inputs)
      requires Valid() && c in now.claims && now.claims[c].rec.Creating?
      modifies this
      ensures Valid() && c in now.claims && now.claims[c].rec.Idle? && Extends(old(states), old(acts))
      ensures old(now.claims[c].hist) <= now.claims[c].hist && now.claims[c].created == old(now.claims[c].created)
      ensures exists v :: calls == old(calls) + [CreateFail, FailGet(v)] +
                                   if i.fate(|old(calls)| + 1).Answered? then [FailWrite] else []
    {
      hide IsRun, Next, Write, LostRace;
      Call(c, CreateFail);
      BackToPending(c, i);
    }

    /** Re-fetch a claim whose provisioning failed and, if that is answered, write it back to Pending. */
    method BackToPending(c: Name, i: Inputs)
      requires Valid() && c in now.claims && now.claims[c].rec.Failed?
      modifies this
      ensures Settled(c, old(states), old(acts), old(now.claims[c].created))
      ensures old(now.claims[c].hist) <= now.claims[c].hist
      ensures exists v :: calls == old(calls) + [FailGet(v)] + if i.fate(|old(calls)|).Answered? then [FailWrite] else []
    {
      hide IsRun, Next, Write, LostRace;
      var v := Read(c);
      var found := Try(c, FailGet(v), i.fate(|calls|));
      if found {
        assert now.claims[c].rec == FailedGot(v);
        var _ := Try(c, FailWrite, i.fate(|calls|));
      }
    }

    /** Ask the coordinator and persist what it placed with a patch, or give up. */
    method Place(c: Name, i: Inputs) returns (ok: bool)
      requires Valid() && c in now.claims && now.claims[c].rec.Creating?
      modifies this
      ensures Valid() && c in now.claims && Extends(old(states), old(acts))
      ensures old(now.claims[c].hist) <= now.claims[c].hist
      ensures ok == i.placed.Some?
      ensures ok ==> exists id :: calls == old(calls) + [CreateOk(id, i.placed.value), Annotate(i.patched)]
                                  && now.claims[c].rec == Recording(id, false, false, true)
                                  && now.claims[c].created == old(now.claims[c].created) + [id]
      ensures !ok ==> now.claims[c].rec.Idle? && now.claims[c].created == old(now.claims[c].created)
      ensures !ok ==> exists v :: calls == old(calls) + [CreateFail, FailGet(v)] +
                                           if i.fate(|old(calls)| + 1).Answered? then [FailWrite] else []
    {
      hide IsRun, Next, Write;
      if i.placed.None? {
        GiveUp(c, i);
        return false;
      }
      var id := NewId();
      Call(c, CreateOk(id, i.placed.value));
      Call(c, Annotate(i.patched));
      return true;
    }

    /** The create half of handlePending: from the move to Provisioning up to the annotation patch. The
        coordinator is asked exactly if the move is answered and the snapshot was current. */
    method CreateInstance(c: Name, i: Inputs) returns (ok: bool)
      requires Valid() && c in now.claims && Enabled(now.claims[c], StartCreate)
      modifies this
      ensures Valid() && c in now.claims && Extends(old(states), old(acts))
      ensures old(now.claims[c].hist) <= now.claims[c].hist
      ensures old(calls) + [StartCreate] <= calls
      ensures var moved := i.fate(|old(calls)|).Answered? && Current(old(now.claims[c]), old(now.claims[c].rec.v));
              && (!moved ==> !ok && |calls| == |old(calls)| + 1)
              && (moved ==> && ok == i.placed.Some? && |calls| > |old(calls)| + 2
                            && calls[|old(calls)| + 1].CreateOk? == ok && calls[|old(calls)| + 1].CreateFail? == !ok
                            && (ok ==> calls[|old(calls)| + 2] == Annotate(i.patched)))
      ensures ok ==> exists id :: now.claims[c].rec == Recording(id, false, false, true)
                                  && now.claims[c].created == old(now.claims[c].created) + [id]
      ensures !ok ==> now.claims[c].rec.Idle? && now.claims[c].created == old(now.claims[c].created)
      ensures !ok ==> || Disturbed(c, i, |old(calls)|, |old(acts)|)
                      || (i.placed.None? && |calls| > |old(calls)| + 1 && calls[|old(calls)| + 1].CreateFail?)
    {
      hide IsRun, Next, Write, Enabled;
      ok := Try(c, StartCreate, i.fate(|calls|));
      if !ok {
        return;
      }
      if now.claims[c].rec.Idle? {
        RaceLost(c, i, |old(calls)|, |old(acts)|, |old(acts)|);
        return false;
      }
      ok := Place(c, i);
    }

    /** Re-fetch the claim and set the provider on its spec, if that is missing, before the status is written. */
    method Prepare(c: Name, i: Inputs) returns (ok: bool)
      requires Valid() && c in now.claims && now.claims[c].rec.Recording? && !now.claims[c].rec.specDone
      modifies this
      ensures Valid() && c in now.claims && Extends(old(states), old(acts))
      ensures now.claims[c].created == old(now.claims[c].created)
      ensures old(now.claims[c].hist) <= now.claims[c].hist
      ensures old(calls) <= calls
      ensures if ok then Enabled(now.claims[c], WriteBootstrapping) && now.claims[c].rec.id == old(now.claims[c].rec.id)
              else now.claims[c].rec.Idle?
      ensures if ok then AllAnswered(i, |old(calls)|) else Disturbed(c, i, |old(calls)|, |old(acts)|)
    {
      hide IsRun, Next, Write;
      ok := Fetch(c, i);
      if ok && !now.claims[c].hist[now.claims[c].rec.v].providerSet {
        ghost var m := |acts|;
        var answered := Try(c, SetProvider, i.fate(|calls|));
        if now.claims[c].rec.Idle? {
          if answered {
          RaceLost(c, i, |old(calls)|, |old(acts)|, m);
        }
          return false;
        }
        ok := Fetch(c, i);
      }
    }

    /** Re-fetch the claim while an instance is being recorded. */
    method Fetch(c: Name, i: Inputs) returns (ok: bool)
      requires Valid() && c in now.claims && now.claims[c].rec.Recording?
      modifies this
      ensures Valid() && c in now.claims && Extends(old(states), old(acts))
      ensures now.claims[c].created == old(now.claims[c].created)
      ensures old(now.claims[c].hist) <= now.claims[c].hist
      ensures exists v :: calls == old(calls) + [Refetch(v)]
      ensures ok == i.fate(|old(calls)|).Answered?
      ensures !ok ==> now.claims[c].rec.Idle?
      ensures ok ==> && now.claims[c].rec.RecordingGot? && now.claims[c].rec.v < |now.claims[c].hist|
                     && now.claims[c].rec.id == old(now.claims[c].rec.id)
                     && now.claims[c].rec.specDone == old(now.claims[c].rec.specDone)
    {
      hide IsRun, Next, Write;
      var v := Read(c);
      ok := Try(c, Refetch(v), i.fate(|calls|));
    }

    /** The recording half of handlePending: prepare, then write the status. It fails only if a call is not
        answered or somebody else stored a version in between. */
    method RecordInstance(c: Name, i: Inputs) returns (ok: bool)
      requires Valid() && c in now.claims && now.claims[c].rec.Recording? && !now.claims[c].rec.specDone
      modifies this
      ensures Valid() && c in now.claims && now.claims[c].rec.Idle? && Extends(old(states), old(acts))
      ensures now.claims[c].created == old(now.claims[c].created)
      ensures old(now.claims[c].hist) <= now.claims[c].hist
      ensures old(calls) <= calls
      ensures ok ==> Recorded(c, |old(now.claims[c].hist)|, old(now.claims[c].rec.id))
      ensures ok ==> |calls| > |old(calls)| && calls[|calls| - 1] == WriteBootstrapping
      ensures if ok then AllAnswered(i, |old(calls)|) else Disturbed(c, i, |old(calls)|, |old(acts)|)
    {
      hide IsRun, Next, Write, NextRec, CanAct, LostRace;
      ok := Prepare(c, i);
      if ok {
        ok := WriteStatus(c, i);
      }
    }

    /** The status update that ends handlePending: a version is stored exactly if the request arrives and the
        snapshot is still current. */
    method WriteStatus(c: Name, i: Inputs) returns (ok: bool)
      requires Valid() && c in now.claims && Enabled(now.claims[c], WriteBootstrapping)
      modifies this
      ensures Valid() && c in now.claims && now.claims[c].rec.Idle? && Extends(old(states), old(acts))
      ensures now.claims[c].created == old(now.claims[c].created)
      ensures old(now.claims[c].hist) <= now.claims[c].hist
      ensures calls == old(calls) + [WriteBootstrapping]
      ensures var current := Current(old(now.claims[c]), old(now.claims[c].rec.v));
              && (ok <==> i.fate(|old(calls)|).Answered? && current)
              && (!i.fate(|old(calls)|).Unsent? && current ==>
                    Recorded(c, |old(now.claims[c].hist)|, old(now.claims[c].rec.id)))
              && (i.fate(|old(calls)|).Unsent? || !current ==>
                    states[|old(acts)| + 1].claims[c].hist == old(now.claims[c].hist))
      ensures !ok ==> Disturbed(c, i, |old(calls)|, |old(acts)|)
    {
      hide IsRun;
      var current := Current(now.claims[c], now.claims[c].rec.v);
      ghost var before := now.claims[c];
      ok := Try(c, WriteBootstrapping, i.fate(|calls|));
      if current && !i.fate(|old(calls)|).Unsent? {
        assert now.claims[c].hist[|before.hist|] == Write(before, WriteBootstrapping)[0];
      }
      if ok && !current {
        RaceLost(c, i, |old(calls)|, |old(acts)|, |old(acts)|);
      }
      ok := ok && current;
    }

    /** The annotation names an instance: record it. */
    method ReuseInstance(c: Name, i: Inputs) returns (ok: bool)
      requires Valid() && c in now.claims && Enabled(now.claims[c], Reuse)
      modifies this
      ensures Valid() && c in now.claims && now.claims[c].rec.Idle? && Extends(old(states), old(acts))
      ensures now.claims[c].created == old(now.claims[c].created)
      ensures old(calls) + [Reuse] <= calls
      ensures ok ==> && calls[|calls| - 1] == WriteBootstrapping
                     && Recorded(c, |old(now.claims[c].hist)|, old(now.claims[c].hist[now.claims[c].rec.v].annotation))
      ensures !ok ==> Disturbed(c, i, |old(calls)|, |old(acts)|)
    {
      hide IsRun, Next, Write, LostRace;
      Call(c, Reuse);
      ghost var n, m := |calls|, |acts|;
      ok := RecordInstance(c, i);
      if !ok {
        DisturbedFrom(c, i, |old(calls)|, |old(acts)|, n, m);
      }
    }

    /** There is no instance yet: create one and record it. */
    method ProvisionInstance(c: Name, i: Inputs) returns (ok: bool)
      requires Valid() && c in now.claims && Enabled(now.claims[c], StartCreate)
      modifies this
      ensures Valid() && c in now.claims && now.claims[c].rec.Idle? && Extends(old(states), old(acts))
      ensures old(calls) + [StartCreate] <= calls
      ensures if i.fate(|old(calls)|).Answered? && Current(old(now.claims[c]), old(now.claims[c].rec.v)) && i.placed.Some?
              then exists id :: && now.claims[c].created == old(now.claims[c].created) + [id]
                                && (ok ==> Recorded(c, |old(now.claims[c].hist)|, id))
              else !ok && now.claims[c].created == old(now.claims[c].created)
      ensures ok ==> calls[|calls| - 1] == WriteBootstrapping
      ensures !ok ==> || Disturbed(c, i, |old(calls)|, |old(acts)|)
                      || (i.placed.None? && |calls| > |old(calls)| + 1 && calls[|old(calls)| + 1].CreateFail?)
    {
      hide IsRun, Next, Write, NextRec, CanAct, LostRace, Enabled, Current;
      ok := CreateInstance(c, i);
      if ok {
        ghost var n, m := |calls|, |acts|;
        ok := RecordInstance(c, i);
        if !ok {
          DisturbedFrom(c, i, |old(calls)|, |old(acts)|, n, m);
        }
      }
    }

    /** handlePending. It creates at most one instance, none if the snapshot carries the annotation, and
        reports success exactly when that instance reached the status; it fails only for one of the reasons
        listed. */
    method HandlePending(c: Name, i: Inputs) returns (ok: bool)
      requires Valid() && c in now.claims && Handling(now.claims[c], Pending)
      modifies this
      ensures Valid() && c in now.claims && now.claims[c].rec.Idle? && Extends(old(states), old(acts))
      ensures |old(calls)| < |calls| && old(calls) <= calls
      ensures var reused := old(now.claims[c].hist[now.claims[c].rec.v].annotation);
              && calls[|old(calls)|] == (if !i.readable then Quit else if reused != "" then Reuse else StartCreate)
              && (!i.readable ==> !ok && |calls| == |old(calls)| + 1)
              && if i.readable && reused == "" && i.fate(|old(calls)|).Answered?
                    && Current(old(now.claims[c]), old(now.claims[c].rec.v)) && i.placed.Some? then
                   exists id :: && now.claims[c].created == old(now.claims[c].created) + [id]
                                && (ok ==> Recorded(c, |old(now.claims[c].hist)|, id))
                 else
                   && now.claims[c].created == old(now.claims[c].created)
                   && (ok ==> reused != "" && Recorded(c, |old(now.claims[c].hist)|, reused))
      ensures ok ==> calls[|calls| - 1] == WriteBootstrapping
      ensures !ok && i.readable ==>
                || Disturbed(c, i, |old(calls)|, |old(acts)|)
                || (&& i.placed.None? && old(now.claims[c].hist[now.claims[c].rec.v].annotation) == ""
                    && |calls| > |old(calls)| + 1 && calls[|old(calls)| + 1].CreateFail?)
    {
      hide IsRun, Next, Write, NextRec, CanAct, LostRace;
      if !i.readable {
        OneWrite(c, Quit, i);
        return false;
      }
      if now.claims[c].hist[now.claims[c].rec.v].annotation != "" {
        ok := ReuseInstance(c, i);
      } else {
        ok := ProvisionInstance(c, i);
      }
    }

    /** A Reconcile call is over, the run goes on from where it was, and no instance was created. */
    ghost predicate Settled(c: Name, before: seq<State>, done: seq<Action>, created: seq<Id>)
      reads this
    {
      && Valid() && Extends(before, done)
      && c in now.claims && now.claims[c].rec.Idle? && now.claims[c].created == created
    }

    /** handleProvisioning and every other handler that ends with one write, or with none. */
    method OneWrite(c: Name, act: ClaimAct, i: Inputs)
      requires Valid() && c in now.claims && Enabled(now.claims[c], act)
      requires act == ResumeProvisioning || act == Initialise || act == WriteTerminated || act == WriteReady
               || act == Quit
      modifies this
      ensures Settled(c, old(states), old(acts), old(now.claims[c].created))
      ensures calls == old(calls) + [act]
    {
      hide IsRun, Next, Write;
      var _ := Try(c, act, i.fate(|calls|));
    }

    /** Destroy the instance, then mark the claim Terminated; neither waits for the other to succeed. */
    method DestroyThenTerminate(c: Name, i: Inputs)
      requires Valid() && c in now.claims && Enabled(now.claims[c], DestroyFirst(i.destroyed))
      modifies this
      ensures Settled(c, old(states), old(acts), old(now.claims[c].created))
      ensures calls == old(calls) + [DestroyFirst(i.destroyed), WriteTerminated]
    {
      hide IsRun, Next, Write;
      ghost var v := now.claims[c].rec.v;
      Call(c, DestroyFirst(i.destroyed));
      assert now.claims[c].rec == Terminating(v) && v < |now.claims[c].hist|;
      var _ := Try(c, WriteTerminated, i.fate(|calls|));
    }

    /** The destroy fails and the call ends, to be repeated later. */
    method DestroyFails(c: Name)
      requires Valid() && c in now.claims && Enabled(now.claims[c], DestroyFirst(false))
      modifies this
      ensures Settled(c, old(states), old(acts), old(now.claims[c].created))
      ensures calls == old(calls) + [DestroyFirst(false), Quit]
    {
      hide IsRun, Next, Write;
      Call(c, DestroyFirst(false));
      Call(c, Quit);
    }

    /** An instance that is reported dead is left alone during the grace period. A claim turns Ready only
        when its instance is alive and its agent is connected; it times out only when it is not. */
    method HandleBootstrapping(c: Name, i: Inputs)
      requires Valid() && c in now.claims && Handling(now.claims[c], Bootstrapping)
      modifies this
      ensures Settled(c, old(states), old(acts), old(now.claims[c].created))
      ensures calls == old(calls) + AskedFor(old(now.claims[c].hist[now.claims[c].rec.v]), i)
      ensures var asked := calls[|old(calls)|..];
              && (WriteReady in asked <==> i.providerKnown && i.probe.Alive? && i.agentConnected)
              && (DestroyFirst(i.destroyed) in asked <==> i.providerKnown && i.probe.Dead? && !i.inGrace)
              && (WriteTerminated in asked <==>
                    i.providerKnown && (i.probe.NotFound? || (i.probe.Dead? && !i.inGrace)))
              && (TimeoutWrite(i.written) in asked <==>
                    i.providerKnown && i.probe.Alive? && !i.agentConnected && i.expired)
    {
      if !i.providerKnown || i.probe.ProbeError? {
        OneWrite(c, Quit, i);
      } else if i.probe.Alive? {
        HandleBootstrappingStandalone(c, i);
      } else {
        GiveUpBooting(c, i);
      }
    }

    /** The instance is gone, or dead and out of its grace period. */
    method GiveUpBooting(c: Name, i: Inputs)
      requires Valid() && c in now.claims && Handling(now.claims[c], Bootstrapping)
      requires i.probe.NotFound? || i.probe.Dead?
      modifies this
      ensures Settled(c, old(states), old(acts), old(now.claims[c].created))
      ensures calls == old(calls) +
                       if i.probe.NotFound? then [WriteTerminated]
                       else if i.inGrace then [Quit]
                       else [DestroyFirst(i.destroyed), WriteTerminated]
    {
      if i.probe.NotFound? {
        OneWrite(c, WriteTerminated, i);
      } else if i.inGrace {
        OneWrite(c, Quit, i);
      } else {
        DestroyThenTerminate(c, i);
      }
    }

    /** The instance is alive: wait for its agent until the time is over. */
    method HandleBootstrappingStandalone(c: Name, i: Inputs)
      requires Valid() && c in now.claims && Handling(now.claims[c], Bootstrapping)
      modifies this
      ensures Settled(c, old(states), old(acts), old(now.claims[c].created))
      ensures calls == old(calls) +
                       if i.agentConnected then [WriteReady]
                       else if i.expired then [TimeoutWrite(i.written), DestroyLast(i.destroyed)]
                       else [Quit]
    {
      if i.agentConnected {
        OneWrite(c, WriteReady, i);
      } else if i.expired {
        TerminateTimedOut(c, i);
      } else {
        OneWrite(c, Quit, i);
      }
    }

    /** terminateTimedOut marks the claim first, ignores a failed write, and destroys the instance. */
    method TerminateTimedOut(c: Name, i: Inputs)
      requires Valid() && c in now.claims && Handling(now.claims[c], Bootstrapping)
      modifies this
      ensures Settled(c, old(states), old(acts), old(now.claims[c].created))
      ensures calls == old(calls) + [TimeoutWrite(i.written), DestroyLast(i.destroyed)]
    {
      hide IsRun, Next, Write;
      Call(c, TimeoutWrite(i.written));
      Call(c, DestroyLast(i.destroyed));
    }

    /** A Ready claim is given up exactly when its instance is gone, dead or without its agent. */
    method HandleReady(c: Name, i: Inputs)
      requires Valid() && c in now.claims && Handling(now.claims[c], Ready)
      modifies this
      ensures Settled(c, old(states), old(acts), old(now.claims[c].created))
      ensures calls == old(calls) + AskedFor(old(now.claims[c].hist[now.claims[c].rec.v]), i)
      ensures var asked := calls[|old(calls)|..];
              && (WriteTerminated in asked <==>
                    && i.providerKnown && !i.probe.ProbeError?
                    && !(i.probe.Alive? && i.agentConnected))
              && (DestroyFirst(i.destroyed) in asked <==> WriteTerminated in asked && !i.probe.NotFound?)
    {
      if !i.providerKnown || i.probe.ProbeError? {
        OneWrite(c, Quit, i);
      } else if i.probe.NotFound? {
        OneWrite(c, WriteTerminated, i);
      } else if i.probe.Dead? || !i.agentConnected {
        DestroyThenTerminate(c, i);
      } else {
        OneWrite(c, Quit, i);
      }
    }

    /** handleDraining keeps the claim Draining when the destroy fails for another reason than a missing
        instance; otherwise the claim ends up Terminated. */
    method HandleDraining(c: Name, i: Inputs)
      requires Valid() && c in now.claims && Handling(now.claims[c], Draining)
      modifies this
      ensures Settled(c, old(states), old(acts), old(now.claims[c].created))
      ensures calls == old(calls) + AskedFor(old(now.claims[c].hist[now.claims[c].rec.v]), i)
      ensures var asked := calls[|old(calls)|..];
              var hasInstance := old(now.claims[c].hist[now.claims[c].rec.v].instance) != "";
              && (WriteTerminated in asked <==> !(hasInstance && i.providerKnown && !i.destroyed && !i.probe.NotFound?))
              && (DestroyFirst(i.destroyed) in asked <==> hasInstance && i.providerKnown)
    {
      if now.claims[c].hist[now.claims[c].rec.v].instance == "" || !i.providerKnown {
        OneWrite(c, WriteTerminated, i);
      } else if !i.destroyed && !i.probe.NotFound? {
        DestroyFails(c);
      } else {
        DestroyThenTerminate(c, i);
      }
    }

    /** destroyHibernatedClaim: a claim of an earlier release is destroyed, whatever comes of it. */
    method HandleHibernated(c: Name, i: Inputs)
      requires Valid() && c in now.claims && Handling(now.claims[c], Hibernated)
      modifies this
      ensures Settled(c, old(states), old(acts), old(now.claims[c].created))
      ensures calls == old(calls) +
                       if old(now.claims[c].hist[now.claims[c].rec.v].instance) != "" && i.providerKnown
                       then [DestroyFirst(i.destroyed), WriteTerminated] else [WriteTerminated]
    {
      hide IsRun, Next, Write;
      if now.claims[c].hist[now.claims[c].rec.v].instance != "" && i.providerKnown {
        DestroyThenTerminate(c, i);
      } else {
        OneWrite(c, WriteTerminated, i);
      }
    }

    /** The instance, if one was created, is destroyed before the finalizer is removed, and the finalizer is
        removed whether or not the destroy worked. */
    method HandleDeletion(c: Name, i: Inputs)
      requires Valid() && c in now.claims && now.claims[c].rec.Got? && now.claims[c].rec.v < |now.claims[c].hist|
      requires now.claims[c].hist[now.claims[c].rec.v].deleting
      modifies this
      ensures Settled(c, old(states), old(acts), old(now.claims[c].created))
      ensures calls == old(calls) + DeletionAskedFor(old(now.claims[c].hist[now.claims[c].rec.v]), i)
    {
      hide IsRun, Next, Write;
      var r := now.claims[c].hist[now.claims[c].rec.v];
      if !r.finalizer {
        OneWrite(c, Quit, i);
        return;
      }
      if r.instance != "" && r.instance != "0" && i.providerKnown {
        Call(c, DeletionDestroy(i.destroyed));
      }
      var _ := Try(c, Finalize, i.fate(|calls|));
    }

    /** What was asked for since the first `n` calls is what the snapshot `r`, with its finalizer, calls for.
        A Pending claim is carried to Bootstrapping unless something is missing or goes wrong. */
    ghost predicate Follows(c: Name, n: nat, m: nat, r: Record, i: Inputs)
      reads this
    {
      if r.phase.Pending? then
        && n < |calls|
        && calls[n] == (if !i.readable then Quit else if r.annotation != "" then Reuse else StartCreate)
        && (|| !i.readable || Disturbed(c, i, n, m) || calls[|calls| - 1] == WriteBootstrapping
            || (r.annotation == "" && i.placed.None? && n + 1 < |calls| && calls[n + 1].CreateFail?))
      else
        n <= |calls| && calls[n..] == AskedFor(r, i)
    }

    /** The phase switch, on a snapshot that is not being deleted and has its finalizer. */
    method HandlePhase(c: Name, i: Inputs)
      requires Valid() && c in now.claims && now.claims[c].rec.Got? && now.claims[c].rec.v < |now.claims[c].hist|
      requires Handling(now.claims[c], now.claims[c].hist[now.claims[c].rec.v].phase)
      modifies this
      ensures Valid() && c in now.claims && now.claims[c].rec.Idle? && Extends(old(states), old(acts))
      ensures old(calls) < calls
      ensures var r := old(now.claims[c].hist[now.claims[c].rec.v]);
              if r.phase.Pending? then
                calls[|old(calls)|] == if !i.readable then Quit else if r.annotation != "" then Reuse else StartCreate
              else calls == old(calls) + AskedFor(r, i)
      ensures Follows(c, |old(calls)|, |old(acts)|, old(now.claims[c].hist[now.claims[c].rec.v]), i)
      ensures old(now.claims[c].hist[now.claims[c].rec.v].phase) == Pending ||
              now.claims[c].created == old(now.claims[c].created)
      ensures |now.claims[c].created| <= |old(now.claims[c].created)| + 1
    {
      match now.claims[c].hist[now.claims[c].rec.v].phase {
        case Unset => OneWrite(c, Initialise, i);
        case Pending => var _ := HandlePending(c, i);
        case Provisioning => OneWrite(c, ResumeProvisioning, i);
        case Bootstrapping => HandleBootstrapping(c, i);
        case Ready => HandleReady(c, i);
        case Draining => HandleDraining(c, i);
        case Hibernated => HandleHibernated(c, i);
        case Terminated => OneWrite(c, Quit, i);
      }
    }

    /** Adds the missing finalizer. The call goes on with the version it stored, and ends if the update was
        lost or the snapshot was stale. */
    method AddFinalizer(c: Name, i: Inputs)
      requires Valid() && c in now.claims && Enabled(now.claims[c], ClaimAct.AddFinalizer)
      modifies this
      ensures Valid() && c in now.claims && Extends(old(states), old(acts))
      ensures now.claims[c].created == old(now.claims[c].created)
      ensures calls == old(calls) + [ClaimAct.AddFinalizer]
      ensures if i.fate(|old(calls)|).Answered? && Current(old(now.claims[c]), old(now.claims[c].rec.v)) then
                && now.claims[c].rec.Got? && now.claims[c].rec.v == |old(now.claims[c].hist)| < |now.claims[c].hist|
                && now.claims[c].hist[now.claims[c].rec.v] ==
                   old(now.claims[c].hist[now.claims[c].rec.v]).(finalizer := true)
              else
                now.claims[c].rec.Idle? && Disturbed(c, i, |old(calls)|, |old(acts)|)
    {
      hide IsRun;
      var answered := Try(c, ClaimAct.AddFinalizer, i.fate(|calls|));
      if answered && now.claims[c].rec.Idle? {
        RaceLost(c, i, |old(calls)|, |old(acts)|, |old(acts)|);
      }
    }

    lemma FollowsFrom(c: Name, n: nat, m: nat, later: nat, r: Record, i: Inputs)
      requires Follows(c, n, later, r, i) && m <= later
      ensures Follows(c, n, m, r, i)
    {
      hide LostRace, AskedFor;
    }

    /** Everything after the first read. */
    method Serve(c: Name, i: Inputs)
      requires Valid() && c in now.claims && now.claims[c].rec.Got? && now.claims[c].rec.v < |now.claims[c].hist|
      modifies this
      ensures Valid() && c in now.claims && now.claims[c].rec.Idle? && Extends(old(states), old(acts))
      ensures |now.claims[c].created| <= |old(now.claims[c].created)| + 1
      ensures old(calls) <= calls
      ensures Served(c, |old(calls)|, |old(acts)|, old(now.claims[c].hist[now.claims[c].rec.v]), i)
    {
      hide IsRun, Next, Write, AskedFor, DeletionAskedFor, LostRace;
      var r := now.claims[c].hist[now.claims[c].rec.v];
      if r.deleting {
        HandleDeletion(c, i);
      } else if r.finalizer {
        HandlePhase(c, i);
      } else {
        AddFinalizer(c, i);
        if now.claims[c].rec.Got? {
          ghost var n, m := |calls|, |acts|;
          HandlePhase(c, i);
          FollowsFrom(c, n, |old(acts)|, m, r.(finalizer := true), i);
        }
      }
    }

    /** What was asked for since the first `n` calls is what the snapshot `r` calls for: the deletion handler's
        calls, or those of its phase, after the finalizer is added where it is missing. Nothing follows an
        update that was lost or came too late. */
    ghost predicate Served(c: Name, n: nat, m: nat, r: Record, i: Inputs)
      reads this
    {
      if r.deleting then n <= |calls| && calls[n..] == DeletionAskedFor(r, i)
      else if r.finalizer then Follows(c, n, m, r, i)
      else
        && n < |calls| && calls[n].AddFinalizer?
        && if |calls| == n + 1 then Disturbed(c, i, n, m)
           else i.fate(n).Answered? && Follows(c, n + 1, m, r.(finalizer := true), i)
    }

    lemma ServedFrom(c: Name, n: nat, m: nat, later: nat, r: Record, i: Inputs)
      requires Served(c, n, later, r, i) && m <= later
      ensures Served(c, n, m, r, i)
    {
      hide LostRace, AskedFor, DeletionAskedFor;
    }

    /** The same call by call. With a destroy to be made for a Draining claim, say, that is asked for and then the
        Terminated write; and a Pending claim ends with the Bootstrapping write unless pool or secret cannot
        be read, the coordinator finds nothing, or something goes wrong on the way. */
    lemma ServedExactly(c: Name, n: nat, m: nat, r: Record, i: Inputs)
      requires Served(c, n, m, r, i)
      ensures r.deleting ==> n <= |calls| && calls[n..] == DeletionAskedFor(r, i)
      ensures !r.deleting && r.finalizer && !r.phase.Pending? ==> n <= |calls| && calls[n..] == AskedFor(r, i)
      ensures !r.deleting && !r.finalizer ==> n < |calls| && calls[n].AddFinalizer?
      ensures !r.deleting && !r.finalizer && i.fate(n).Answered? && |calls| == n + 1 ==>
                exists k :: m <= k < |acts| && k < |states| && LostRace(states[k], acts[k], c)
      ensures !r.deleting && !r.finalizer && |calls| > n + 1 && !r.phase.Pending? ==>
                calls[n + 1..] == AskedFor(r.(finalizer := true), i)
      ensures !r.deleting && r.phase.Pending? && (r.finalizer || |calls| > n + 1) ==>
                var k := if r.finalizer then n else n + 1;
                && k < |calls|
                && calls[k] == (if !i.readable then Quit else if r.annotation != "" then Reuse else StartCreate)
                && (i.readable && (r.annotation != "" || i.placed.Some?) ==>
                      || calls[|calls| - 1] == WriteBootstrapping
                      || (exists l :: n <= l < |calls| && !i.fate(l).Answered?)
                      || exists l :: m <= l < |acts| && l < |states| && LostRace(states[l], acts[l], c))
    {
      hide AskedFor, DeletionAskedFor, LostRace;
    }

    lemma OneTracedCreate(c: Name)
      requires Valid() && c in now.claims
      ensures |now.claims[c].created| <= 1 + |Untraced(now.claims[c])|
    {
      AtMostOneTracedCreate(states, acts, |acts|, c);
    }

    /** One Reconcile call. What it asks for follows from the version it reads first: the deletion handler's
        calls, or those of its phase, after a missing finalizer is added; nothing if the read is not answered,
        and nothing more if that update is lost or late. It has at most one create, and at most one create in
        the claim's whole life left a trace on it. */
    method Reconcile(c: Name, i: Inputs)
      requires Valid() && c in now.claims && now.claims[c].rec.Idle?
      modifies this
      ensures Valid() && c in now.claims && now.claims[c].rec.Idle? && Extends(old(states), old(acts))
      ensures |now.claims[c].created| <= |old(now.claims[c].created)| + 1
      ensures |now.claims[c].created| <= 1 + |Untraced(now.claims[c])|
      ensures old(calls) < calls
      ensures var first := calls[|old(calls)|];
              && first.Dispatch? && first.v < |old(now.claims[c].hist)|
              && if i.fate(|old(calls)|).Answered? then
                   Served(c, |old(calls)| + 1, |old(acts)|, old(now.claims[c].hist)[first.v], i)
                 else calls == old(calls) + [first]
    {
      hide IsRun, Next, Write, AskedFor, DeletionAskedFor, LostRace;
      var v := Read(c);
      var found := Try(c, Dispatch(v), i.fate(|calls|));
      if found {
        ghost var n, m, r := |calls|, |acts|, now.claims[c].hist[v];
        Serve(c, i);
        ServedFrom(c, n, |old(acts)|, m, r, i);
      }
      OneTracedCreate(c);
    }
  }
}
