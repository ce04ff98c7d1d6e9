/**
 What every step of the claim lifecycle keeps.
 */
module LifecycleInvariant {
  import opened Lifecycle

  /** The instance of the latest successful create, the empty string before the first one. */
  function Newest(c: Claim): Id {
    if c.created == [] then "" else c.created[|c.created| - 1]
  }

  /** Status.InstanceID is filled in exactly from Bootstrapping on. */
  predicate RecordOk(r: Record) {
    Rank(r.phase) == 0 <==> r.instance == ""
  }

  ghost predicate HistoryOk(c: Claim) {
    && (forall i :: 0 <= i < |c.hist| ==> RecordOk(c.hist[i]))
    // instance and annotation are write-once
    && (forall i :: 0 <= i < |c.hist| ==>
          && (c.hist[i].instance == "" || c.hist[i].instance == c.Last().instance)
          && (c.hist[i].annotation == "" || c.hist[i].annotation == c.Last().annotation))
    // and never name an instance older than the latest create
    && (c.Last().instance == "" || c.Last().instance == Newest(c))
    && (c.Last().annotation == "" || c.Last().annotation == Newest(c))
    // Hibernated is never written
    && (forall i, j :: 0 <= i <= j < |c.hist| && c.hist[j].phase == Hibernated ==> c.hist[i].phase == Hibernated)
  }

  ghost predicate CreatedOk(c: Claim) {
    && (forall i :: 0 <= i < |c.created| ==> c.created[i] != "")
    && (forall i, j :: 0 <= i < j < |c.created| ==> c.created[i] != c.created[j])
  }

  /** What a reconciler at `rec` knows about the versions `hist` and the latest create. */
  predicate ReconcilerOk(hist: seq<Record>, newest: Id, rec: RecPc)
    requires |hist| > 0
  {
    var last := hist[|hist| - 1];
    match rec
    case Got(v, current) =>
      v < |hist| && (current && hist[v].phase == Pending ==> last.phase == Pending)
    case Creating | Failed | FailedGot(_) => last.phase == Provisioning && last.annotation == ""
    case Created(id) => last.phase == Provisioning && last.annotation == "" && id == newest && id != ""
    case Recording(id, reused, _, current) => RecordingOk(last, newest, id, reused, current)
    case RecordingGot(id, reused, _, current, _) => RecordingOk(last, newest, id, reused, current)
    case Terminating(v) => v < |hist| && Rank(hist[v].phase) > 0
    case _ => true
  }

  predicate RecordingOk(last: Record, newest: Id, id: Id, reused: bool, current: bool) {
    && id == newest && id != ""
    && (!reused ==> last.phase == Provisioning)
    && (reused && current ==> last.phase == Pending)
  }

  predicate DisruptorOk(hist: seq<Record>, dis: DisPc) {
    match dis
    case DDraining(v) => v < |hist| && hist[v].phase == Draining
    case DDestroyed(v) => v < |hist| && hist[v].phase == Draining
    case _ => true
  }

  ghost predicate ClaimInv(c: Claim) {
    HistoryOk(c) && CreatedOk(c) && ReconcilerOk(c.hist, Newest(c), c.rec) && DisruptorOk(c.hist, c.dis)
  }

  /** What a newly stored version may change. */
  predicate Evolves(last: Record, newest: Id, r: Record) {
    && RecordOk(r)
    && (r.instance == last.instance || (last.instance == "" && r.instance == newest))
    && (r.annotation == last.annotation || (last.annotation == "" && r.annotation == newest))
    && (r.phase == Hibernated ==> last.phase == Hibernated)
  }

  /** The part of the invariant about the stored version and the program counters alone. */
  predicate LocalInv(c: Claim) {
    && RecordOk(c.Last())
    && (c.Last().instance == "" || c.Last().instance == Newest(c))
    && (c.Last().annotation == "" || c.Last().annotation == Newest(c))
    && (c.rec.Got? && c.rec.v < |c.hist| && c.hist[c.rec.v].annotation != "" ==>
          c.hist[c.rec.v].annotation == c.Last().annotation)
    && ReconcilerOk(c.hist, Newest(c), c.rec) && DisruptorOk(c.hist, c.dis)
  }

  lemma WriteEvolves(c: Claim, a: ClaimAct)
    requires LocalInv(c) && Enabled(c, a)
    ensures var w := Write(c, a);
            w == [] || (|w| == 1 && Evolves(c.Last(), Newest(c), w[0]))
  {
  }

  lemma LocalFromInv(c: Claim)
    requires ClaimInv(c)
    ensures LocalInv(c)
  {
  }

  predicate OfReconciler(a: ClaimAct) {
    !(a.DisGet? || a.DisDrain? || a.DisDestroy? || a.DisTerminate? || a.DisQuit?
      || a.IntList? || a.IntTerminate? || a.IntQuit? || a.Touch? || a.RequestDelete?)
  }

  lemma ReconcilerStep(c: Claim, a: ClaimAct)
    requires LocalInv(c) && Enabled(c, a) && OfReconciler(a)
    ensures ReconcilerOk(c.hist + Write(c, a), if a.CreateOk? then a.id else Newest(c), NextRec(c, a))
  {
  }

  /** Nobody but the reconciler changes the phase of a claim that has no instance yet. */
  lemma OthersKeepEarlyPhase(c: Claim, a: ClaimAct)
    requires LocalInv(c) && Enabled(c, a) && !OfReconciler(a)
    ensures var w := Write(c, a);
            w == [] || (Rank(c.Last().phase) == 0 ==> w[0].phase == c.Last().phase)
    ensures Write(c, a) == [] || Write(c, a)[0].annotation == c.Last().annotation
  {
  }

  lemma OtherStep(c: Claim, a: ClaimAct)
    requires LocalInv(c) && Enabled(c, a) && !OfReconciler(a)
    ensures ReconcilerOk(c.hist + Write(c, a), Newest(c), c.rec)
  {
    OthersKeepEarlyPhase(c, a);
  }

  lemma DisruptorStep(c: Claim, a: ClaimAct)
    requires LocalInv(c) && Enabled(c, a)
    ensures DisruptorOk(c.hist + Write(c, a), NextDis(c, a))
  {
  }

  lemma AppendKeepsHistory(c: Claim, c': Claim, r: Record)
    requires HistoryOk(c)
    requires c'.hist == c.hist + [r] && Evolves(c.Last(), Newest(c), r) && Newest(c') == Newest(c)
    ensures HistoryOk(c')
  {
  }

  /** When a create succeeds, no version of the claim bears an instance. */
  lemma NothingRecordedAtCreate(c: Claim)
    requires ClaimInv(c) && c.rec.Creating?
    ensures forall i :: 0 <= i < |c.hist| ==> c.hist[i].instance == "" && c.hist[i].annotation == ""
  {
  }

  lemma StepKeepsHistory(c: Claim, a: ClaimAct)
    requires HistoryOk(c) && LocalInv(c) && Enabled(c, a) && !a.CreateOk?
    ensures HistoryOk(Step(c, a))
  {
    WriteEvolves(c, a);
    if Write(c, a) != [] {
      AppendKeepsHistory(c, Step(c, a), Write(c, a)[0]);
    }
  }

  lemma CreateKeepsClaim(c: Claim, id: Id, p: Provider)
    requires ClaimInv(c) && Enabled(c, CreateOk(id, p)) && id !in c.created
    ensures ClaimInv(Step(c, CreateOk(id, p)))
  {
  }

  lemma StepKeepsClaim(c: Claim, a: ClaimAct)
    requires ClaimInv(c) && Enabled(c, a)
    requires a.CreateOk? ==> a.id !in c.created
    ensures ClaimInv(Step(c, a))
  {
    if a.CreateOk? {
      CreateKeepsClaim(c, a.id, a.p);
    } else {
      LocalFromInv(c);
      StepKeepsHistory(c, a);
      StepKeepsCounters(c, a);
    }
  }

  lemma OthersKeepCounter(c: Claim, a: ClaimAct)
    requires Enabled(c, a) && !OfReconciler(a)
    ensures NextRec(c, a) == c.rec
  {
  }

  lemma WriteKeepsReconciler(c: Claim, a: ClaimAct)
    requires LocalInv(c) && Enabled(c, a) && !a.CreateOk?
    ensures ReconcilerOk(c.hist + Write(c, a), Newest(c), NextRec(c, a))
  {
    if OfReconciler(a) {
      ReconcilerStep(c, a);
    } else {
      OtherStep(c, a);
      OthersKeepCounter(c, a);
    }
  }

  lemma StepKeepsCounters(c: Claim, a: ClaimAct)
    requires LocalInv(c) && Enabled(c, a) && !a.CreateOk?
    ensures var c' := Step(c, a);
            ReconcilerOk(c'.hist, Newest(c'), c'.rec) && DisruptorOk(c'.hist, c'.dis) && c'.created == c.created
  {
    DisruptorStep(c, a);
    WriteKeepsReconciler(c, a);
  }
}
