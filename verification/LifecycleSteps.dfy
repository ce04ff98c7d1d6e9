/**
 What single steps of the lifecycle do to the stored claim and to the instances.
 */
module LifecycleSteps {
  import opened Lifecycle

  /** A version is stored exactly by a write whose snapshot is the stored version, by a patch that works, and by
      an edit or delete request of others; never once the object is gone. */
  lemma StoresExactlyWhen(c: Claim, a: ClaimAct)
    requires Enabled(c, a)
    ensures Write(c, a) != [] <==>
            && !c.gone
            && (|| ((a.AddFinalizer? || a.Initialise? || a.StartCreate? || a.FailWrite? || a.SetProvider?
                     || a.WriteBootstrapping? || a.ResumeProvisioning? || a.WriteReady? || a.WriteTerminated?
                     || a == TimeoutWrite(true) || a.Finalize?) && c.rec.v == |c.hist| - 1)
                || ((a.DisDrain? || a.DisTerminate?) && c.dis.v == |c.hist| - 1)
                || (a.IntTerminate? && c.intr.v == |c.hist| - 1)
                || a == Annotate(true) || a.Touch? || a.RequestDelete?)
  {
  }

  /** A stored version differs from the one before it only in what the step is for. */
  lemma StoredVersion(c: Claim, a: ClaimAct)
    requires Enabled(c, a) && Write(c, a) != []
    ensures |Write(c, a)| == 1
    ensures var was, stored := c.Last(), Write(c, a)[0];
            && stored.phase ==
               (if a.Initialise? || a.FailWrite? || (a.ResumeProvisioning? && was.instance == "") then Pending
                else if a.StartCreate? then Provisioning
                else if a.WriteBootstrapping? || a.ResumeProvisioning? then Bootstrapping
                else if a.WriteReady? then Ready
                else if a.DisDrain? then Draining
                else if a.WriteTerminated? || a.TimeoutWrite? || a.DisTerminate? || a.IntTerminate? then Terminated
                else was.phase)
            && stored.instance == (if a.WriteBootstrapping? then c.rec.id else was.instance)
            && stored.annotation == (if a.Annotate? then c.rec.id else was.annotation)
            && stored.providerSet == (was.providerSet || a.SetProvider?)
            && stored.finalizer == ((was.finalizer || a.AddFinalizer?) && !a.Finalize?)
            && stored.deleting == (was.deleting || a.RequestDelete?)
  {
  }

  /** A destroy that works takes the instance of the snapshot it was decided on and no other; on deletion an
      instance called "0" is left alone. Without a destroy or a create every instance of a claim stays. */
  lemma DestroyTakesInstance(s: State, name: Name, a: ClaimAct)
    requires CanAct(s, On(name, a)) && !a.CreateOk? && "" !in s.live
    ensures var c := s.claims[name];
            var destroyed := if a == DestroyFirst(true) || a == DestroyLast(true) then {c.hist[c.rec.v].instance}
                             else if a == DeletionDestroy(true) then {c.hist[c.rec.v].instance} - {"0"}
                             else if a == DisDestroy(true) then {c.hist[c.dis.v].instance}
                             else {};
            Next(s, On(name, a)).live == s.live - destroyed
  {
    assert s.live - {""} == s.live && s.live - {} == s.live;
  }

  /** An interruption reported for the stored version of a claim ends it exactly if the claim is Ready,
      Bootstrapping or Provisioning and has an instance. */
  lemma InterruptionExactlyWhen(c: Claim)
    requires !c.gone
    ensures var listed := Step(c, IntList(|c.hist| - 1));
            && (Enabled(listed, IntTerminate) <==>
                  && (c.Last().phase == Ready || c.Last().phase == Bootstrapping || c.Last().phase == Provisioning)
                  && c.Last().instance != "")
            && (Enabled(listed, IntTerminate) ==> Step(listed, IntTerminate).Last() == c.Last().(phase := Terminated))
  {
  }
}
