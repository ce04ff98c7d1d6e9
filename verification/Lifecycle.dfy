/**
 The life of a GPUNodeClaim as an interleaved transition system.

 Four processes write a claim: the claim reconciler, the disruptor, the interruption poller and
 everything else that edits the object. They share one versioned API server and one outside world of
 provider instances. Every API call is one step, so a crash, a lost call or a step of another process
 can fall between any two of them.
 */
module Lifecycle {

  type Name = string
  type Id = string
  type Provider = string

  datatype Phase = Unset | Pending | Provisioning | Bootstrapping | Ready | Draining | Hibernated | Terminated

  function Rank(p: Phase): nat {
    match p
    case Unset | Pending | Provisioning => 0
    case Bootstrapping => 1
    case Ready => 2
    case Draining | Hibernated => 3
    case Terminated => 4
  }

  /** One stored version of a claim. `instance` is Status.InstanceID, `annotation` the instance-id
      annotation; the empty string means absent. */
  datatype Record = Record(phase: Phase, instance: Id, annotation: Id, providerSet: bool,
                           finalizer: bool, deleting: bool)

  predicate Records(r: Record, id: Id) {
    id != "" && (r.instance == id || r.annotation == id)
  }

  /** Where the reconciler stands in its current Reconcile call. Numbers are versions of the snapshot
      it holds; `current` remembers whether the snapshot that started the call was the stored version. */
  datatype RecPc =
    | Idle
    | Got(v: nat, current: bool)
    | Creating
    | Failed
    | FailedGot(v: nat)
    | Created(id: Id)
    | Recording(id: Id, reused: bool, specDone: bool, current: bool)
    | RecordingGot(id: Id, reused: bool, specDone: bool, current: bool, v: nat)
    | Terminating(v: nat)
    | TimedOut(v: nat)
    | Finalizing(v: nat)

  datatype DisPc = DIdle | DGot(v: nat) | DDraining(v: nat) | DDestroyed(v: nat)

  datatype IntPc = IIdle | IGot(v: nat)

  /** All versions of one claim (a resourceVersion is an index into `hist`) and the processes working
      on it. `created` lists the successful creates made for it. */
  datatype ClaimState = ClaimState(hist: seq<Record>, gone: bool, rec: RecPc, dis: DisPc, intr: IntPc,
                                   created: seq<Id>)
  {
    function Last(): Record
      requires |hist| > 0
    {
      hist[|hist| - 1]
    }
  }

  type Claim = c: ClaimState | |c.hist| > 0
    witness ClaimState([Record(Unset, "", "", false, true, false)], false, Idle, DIdle, IIdle, [])

  datatype ClaimAct =
    // claim reconciler
    | Dispatch(v: nat) | AddFinalizer | Initialise | Reuse | StartCreate
    | CreateOk(id: Id, p: Provider) | CreateFail | FailGet(v: nat) | FailWrite
    | Annotate(ok: bool) | Refetch(v: nat) | SetProvider | WriteBootstrapping
    | ResumeProvisioning | WriteReady
    | DestroyFirst(ok: bool) | WriteTerminated | TimeoutWrite(ok: bool) | DestroyLast(ok: bool)
    | DeletionDestroy(ok: bool) | Finalize | Quit
    // disruptor
    | DisGet(v: nat) | DisDrain | DisDestroy(ok: bool) | DisTerminate | DisQuit
    // interruption poller
    | IntList(v: nat) | IntTerminate | IntQuit
    // anyone else: an edit of fields outside this model, and a delete request
    | Touch | RequestDelete

  predicate Current(c: Claim, v: nat) {
    !c.gone && v == |c.hist| - 1
  }

  /** Update with optimistic locking: a new version is stored only if the snapshot is the stored one. */
  function Cas(c: Claim, v: nat, r: Record): (stored: seq<Record>) {
    if Current(c, v) then [r] else []
  }

  predicate Enabled(c: Claim, a: ClaimAct) {
    match a
    case Dispatch(v) => c.rec.Idle? && v < |c.hist|
    case AddFinalizer =>
      c.rec.Got? && c.rec.v < |c.hist| && !c.hist[c.rec.v].finalizer && !c.hist[c.rec.v].deleting
    case Initialise => Handling(c, Unset)
    case Reuse => Handling(c, Pending) && c.hist[c.rec.v].annotation != ""
    case StartCreate => Handling(c, Pending) && c.hist[c.rec.v].annotation == ""
    case CreateOk(id, p) => c.rec.Creating? && id != ""
    case CreateFail => c.rec.Creating?
    case FailGet(v) => c.rec.Failed? && v < |c.hist|
    case FailWrite => c.rec.FailedGot? && c.rec.v < |c.hist|
    case Annotate(ok) => c.rec.Created?
    case Refetch(v) => c.rec.Recording? && v < |c.hist|
    case SetProvider =>
      c.rec.RecordingGot? && c.rec.v < |c.hist| && !c.rec.specDone && !c.hist[c.rec.v].providerSet
    case WriteBootstrapping =>
      c.rec.RecordingGot? && c.rec.v < |c.hist| && (c.rec.specDone || c.hist[c.rec.v].providerSet)
    case ResumeProvisioning => Handling(c, Provisioning)
    case WriteReady => Handling(c, Bootstrapping)
    case DestroyFirst(ok) =>
      Handling(c, Bootstrapping) || Handling(c, Ready) || Handling(c, Draining) || Handling(c, Hibernated)
    case WriteTerminated =>
      || Handling(c, Bootstrapping) || Handling(c, Ready) || Handling(c, Draining) || Handling(c, Hibernated)
      || (c.rec.Terminating? && c.rec.v < |c.hist|)
    case TimeoutWrite(ok) => Handling(c, Bootstrapping)
    case DestroyLast(ok) => c.rec.TimedOut? && c.rec.v < |c.hist|
    case DeletionDestroy(ok) =>
      c.rec.Got? && c.rec.v < |c.hist| && c.hist[c.rec.v].deleting && c.hist[c.rec.v].finalizer
    case Finalize =>
      || (c.rec.Finalizing? && c.rec.v < |c.hist|)
      || (c.rec.Got? && c.rec.v < |c.hist| && c.hist[c.rec.v].deleting && c.hist[c.rec.v].finalizer)
    case Quit => true
    case DisGet(v) => c.dis.DIdle? && v < |c.hist|
    case DisDrain => c.dis.DGot? && c.dis.v < |c.hist| && c.hist[c.dis.v].phase == Ready
    case DisDestroy(ok) => c.dis.DDraining? && c.dis.v < |c.hist|
    case DisTerminate => (c.dis.DDraining? || c.dis.DDestroyed?) && c.dis.v < |c.hist|
    case DisQuit => true
    case IntList(v) => v < |c.hist|
    case IntTerminate =>
      && c.intr.IGot? && c.intr.v < |c.hist|
      && c.hist[c.intr.v].phase in {Ready, Bootstrapping, Provisioning}
      && c.hist[c.intr.v].instance != ""
    case IntQuit => true
    case Touch => true
    case RequestDelete => true
  }

  /** The reconciler holds a snapshot in phase `p` that is not being deleted and has its finalizer. */
  predicate Handling(c: Claim, p: Phase) {
    && c.rec.Got? && c.rec.v < |c.hist|
    && c.hist[c.rec.v].phase == p && !c.hist[c.rec.v].deleting && c.hist[c.rec.v].finalizer
  }

  /** The version a step stores: at most one. */
  function Write(c: Claim, a: ClaimAct): (stored: seq<Record>)
    requires Enabled(c, a)
  {
    match a
    case AddFinalizer => Cas(c, c.rec.v, c.hist[c.rec.v].(finalizer := true))
    case Initialise => Cas(c, c.rec.v, c.hist[c.rec.v].(phase := Pending))
    case StartCreate => Cas(c, c.rec.v, c.hist[c.rec.v].(phase := Provisioning))
    case FailWrite => Cas(c, c.rec.v, c.hist[c.rec.v].(phase := Pending))
    // a merge patch carries no version, so it applies to whatever is stored
    case Annotate(ok) => if ok && !c.gone then [c.Last().(annotation := c.rec.id)] else []
    case SetProvider => Cas(c, c.rec.v, c.hist[c.rec.v].(providerSet := true))
    case WriteBootstrapping => Cas(c, c.rec.v, c.hist[c.rec.v].(phase := Bootstrapping, instance := c.rec.id))
    case ResumeProvisioning =>
      Cas(c, c.rec.v, c.hist[c.rec.v].(phase := if c.hist[c.rec.v].instance != "" then Bootstrapping else Pending))
    case WriteReady => Cas(c, c.rec.v, c.hist[c.rec.v].(phase := Ready))
    case WriteTerminated => Cas(c, c.rec.v, c.hist[c.rec.v].(phase := Terminated))
    case TimeoutWrite(ok) => if ok then Cas(c, c.rec.v, c.hist[c.rec.v].(phase := Terminated)) else []
    case Finalize => Cas(c, c.rec.v, c.hist[c.rec.v].(finalizer := false))
    case DisDrain => Cas(c, c.dis.v, c.hist[c.dis.v].(phase := Draining))
    case DisTerminate => Cas(c, c.dis.v, c.hist[c.dis.v].(phase := Terminated))
    case IntTerminate => Cas(c, c.intr.v, c.hist[c.intr.v].(phase := Terminated))
    case Touch => Cas(c, |c.hist| - 1, c.Last())
    case RequestDelete => Cas(c, |c.hist| - 1, c.Last().(deleting := true))
    case _ => []
  }

  /** The instance ID a step writes on the claim; the empty string if none. */
  function Signed(c: Claim, a: ClaimAct): Id
    requires Enabled(c, a)
  {
    if a.Annotate? && a.ok && !c.gone then c.rec.id
    else if a.WriteBootstrapping? && Current(c, c.rec.v) then c.rec.id
    else ""
  }

  /** The object disappears when its finalizer is removed after a delete request. */
  predicate Removes(c: Claim, a: ClaimAct)
    requires Enabled(c, a)
  {
    (a.Finalize? && Current(c, c.rec.v)) || (a.RequestDelete? && !c.Last().finalizer)
  }

  function NextRec(c: Claim, a: ClaimAct): RecPc
    requires Enabled(c, a)
  {
    match a
    case Dispatch(v) => Got(v, Current(c, v))
    case AddFinalizer => if Current(c, c.rec.v) then Got(|c.hist|, true) else Idle
    case Reuse => Recording(c.hist[c.rec.v].annotation, true, false, c.rec.current)
    case StartCreate => if Current(c, c.rec.v) then Creating else Idle
    case CreateOk(id, p) => Created(id)
    case CreateFail => Failed
    case FailGet(v) => FailedGot(v)
    case Annotate(ok) => Recording(c.rec.id, false, false, true)
    case Refetch(v) => RecordingGot(c.rec.id, c.rec.reused, c.rec.specDone, c.rec.current, v)
    case SetProvider =>
      if Current(c, c.rec.v) then Recording(c.rec.id, c.rec.reused, true, c.rec.current) else Idle
    case DestroyFirst(ok) => Terminating(c.rec.v)
    case TimeoutWrite(ok) => TimedOut(c.rec.v)
    case DeletionDestroy(ok) => Finalizing(c.rec.v)
    case DisGet(_) | DisDrain | DisDestroy(_) | DisTerminate | DisQuit => c.rec
    case IntList(_) | IntTerminate | IntQuit | Touch | RequestDelete => c.rec
    case _ => Idle
  }

  function NextDis(c: Claim, a: ClaimAct): DisPc
    requires Enabled(c, a)
  {
    match a
    case DisGet(v) => DGot(v)
    case DisDrain => if Current(c, c.dis.v) then DDraining(|c.hist|) else DIdle
    case DisDestroy(ok) => DDestroyed(c.dis.v)
    case DisTerminate | DisQuit => DIdle
    case _ => c.dis
  }

  function NextInt(c: Claim, a: ClaimAct): IntPc
    requires Enabled(c, a)
  {
    match a
    case IntList(v) => IGot(v)
    case IntTerminate | IntQuit => IIdle
    case _ => c.intr
  }

  /** The claim after one step of one of its processes. */
  function Step(c: Claim, a: ClaimAct): (c': Claim)
    requires Enabled(c, a)
  {
    ClaimState(c.hist + Write(c, a), c.gone || Removes(c, a), NextRec(c, a), NextDis(c, a), NextInt(c, a),
               if a.CreateOk? then c.created + [a.id] else c.created)
  }

  /** The instance a step asks a provider to destroy; the empty string when it asks for none. */
  function Target(c: Claim, a: ClaimAct): Id
    requires Enabled(c, a)
  {
    match a
    case DestroyFirst(_) | DestroyLast(_) => c.hist[c.rec.v].instance
    case DeletionDestroy(_) => if c.hist[c.rec.v].instance == "0" then "" else c.hist[c.rec.v].instance
    case DisDestroy(_) => c.hist[c.dis.v].instance
    case _ => ""
  }

  predicate DestroySucceeds(a: ClaimAct) {
    match a
    case DestroyFirst(ok) => ok
    case DestroyLast(ok) => ok
    case DeletionDestroy(ok) => ok
    case DisDestroy(ok) => ok
    case _ => false
  }

  // ---------------------------------------------------------------------------------------------
  // The whole system: every claim, the instances at the providers, and the garbage collector
  // ---------------------------------------------------------------------------------------------

  datatype Owner = Foreign | For(c: Name)

  /** The collector between and during sweeps. `candidates` maps an instance seen orphaned in the
      last completed sweep to the time its provider was listed in that sweep. */
  datatype Gc =
    | Resting(candidates: map<Id, nat>)
    | Sweeping(candidates: map<Id, nat>, known: set<Id>, skipped: set<Id>, claimsAt: nat,
               todo: set<Provider>, listed: set<Id>, listedAt: nat, orphans: map<Id, nat>)

  /** `owner` holds every instance ID ever issued. `createdAt` and `recordedAt` are the times an ID was
      issued and first written on its claim. */
  datatype State = State(claims: map<Name, Claim>, live: map<Id, Provider>, owner: map<Id, Owner>,
                         clock: nat, createdAt: map<Id, nat>, recordedAt: map<Id, nat>, gc: Gc)

  datatype Action =
    | On(c: Name, act: ClaimAct)
    | CreateClaim(c: Name)
    | AdoptHibernated(c: Name, id: Id, p: Provider)
    | Appear(id: Id, p: Provider)
    | Vanish(id: Id)
    | GcStart(providers: set<Provider>)
    | GcListProvider(p: Provider, ok: bool)
    | GcVisit(id: Id, ok: bool)
    | GcEnd
    | GcRestart

  const INIT := State(map[], map[], map[], 0, map[], map[], Resting(map[]))

  /** A listed claim that keeps an instance from being collected. */
  predicate Shields(r: Record, id: Id) {
    r.phase != Terminated && id != "0" && Records(r, id)
  }

  predicate Protects(c: Claim, id: Id) {
    !c.gone && Shields(c.Last(), id)
  }

  function KnownIds(s: State): set<Id> {
    set id | id in s.owner && exists c :: c in s.claims && Protects(s.claims[c], id)
  }

  /** Instances written on claims the collector passes over because they are Terminated. */
  function SkippedIds(s: State): set<Id> {
    set id | id in s.owner &&
             exists c :: c in s.claims && !s.claims[c].gone && s.claims[c].Last().phase == Terminated
                         && Records(s.claims[c].Last(), id)
  }

  predicate CanAct(s: State, a: Action) {
    match a
    case On(c, act) =>
      && c in s.claims && Enabled(s.claims[c], act)
      && (act.CreateOk? ==> act.id !in s.owner)
    case CreateClaim(c) => c !in s.claims
    case AdoptHibernated(c, id, p) => c !in s.claims && id != "" && id !in s.owner
    case Appear(id, p) => id != "" && id !in s.owner
    case Vanish(id) => id in s.live
    case GcStart(_) => s.gc.Resting?
    case GcListProvider(p, ok) => s.gc.Sweeping? && s.gc.listed == {} && p in s.gc.todo
    case GcVisit(id, ok) => s.gc.Sweeping? && id in s.gc.listed
    case GcEnd => s.gc.Sweeping? && s.gc.listed == {} && s.gc.todo == {}
    case GcRestart => true
  }

  /** The collector destroys a listed instance that no claim protects and that was already orphaned
      in the previous sweep. */
  predicate GcDestroys(s: State, id: Id) {
    s.gc.Sweeping? && id in s.gc.listed && Doomed(s.gc.known, s.gc.candidates.Keys, id)
  }

  predicate Doomed(known: set<Id>, candidates: set<Id>, id: Id) {
    id !in known && id in candidates
  }

  function Stamp(times: map<Id, nat>, id: Id, now: nat): map<Id, nat> {
    if id in times then times else times[id := now]
  }

  const BORN := ClaimState([Record(Unset, "", "", false, true, false)], false, Idle, DIdle, IIdle, [])

  /** A claim left in Hibernated by an earlier release, with the instance it already owns. */
  function Adopted(id: Id): Claim {
    ClaimState([Record(Hibernated, id, "", true, true, false)], false, Idle, DIdle, IIdle, [id])
  }

  function NextClaims(s: State, a: Action): map<Name, Claim>
    requires CanAct(s, a)
  {
    match a
    case On(c, act) => s.claims[c := Step(s.claims[c], act)]
    case CreateClaim(c) => s.claims[c := BORN]
    case AdoptHibernated(c, id, p) => s.claims[c := Adopted(id)]
    case _ => s.claims
  }

  datatype Issue = NoIssue | Issue(id: Id, p: Provider, owner: Owner)

  /** The instance a step brings into being, if any. */
  function Issued(a: Action): Issue {
    match a
    case On(c, act) => if act.CreateOk? then Issue(act.id, act.p, For(c)) else NoIssue
    case AdoptHibernated(c, id, p) => Issue(id, p, For(c))
    case Appear(id, p) => Issue(id, p, Foreign)
    case _ => NoIssue
  }

  /** The instance a step makes disappear from its provider; the empty string if none. */
  function Lost(s: State, a: Action): Id
    requires CanAct(s, a)
  {
    match a
    case On(c, act) => if DestroySucceeds(act) then Target(s.claims[c], act) else ""
    case Vanish(id) => id
    case GcVisit(id, ok) => if ok && GcDestroys(s, id) then id else ""
    case _ => ""
  }

  function NextLive(s: State, a: Action): map<Id, Provider>
    requires CanAct(s, a)
  {
    if Issued(a).Issue? then s.live[Issued(a).id := Issued(a).p] else s.live - {Lost(s, a)}
  }

  /** The instance ID a step writes on its claim; the empty string if none. */
  function Written(s: State, a: Action): Id
    requires CanAct(s, a)
  {
    match a
    case On(c, act) => Signed(s.claims[c], act)
    case AdoptHibernated(c, id, p) => id
    case _ => ""
  }

  function NextGc(s: State, a: Action): Gc
    requires CanAct(s, a)
  {
    match a
    case GcStart(providers) =>
      Sweeping(s.gc.candidates, KnownIds(s), SkippedIds(s), s.clock, providers, {}, s.clock, map[])
    case GcListProvider(p, ok) =>
      s.gc.(todo := s.gc.todo - {p}, listedAt := s.clock,
            listed := if ok then set id | id in s.live && s.live[id] == p else {})
    case GcVisit(id, ok) =>
      var g := s.gc.(listed := s.gc.listed - {id});
      if id in s.gc.known || (ok && GcDestroys(s, id)) then g
      else g.(orphans := g.orphans[id := g.listedAt])
    case GcEnd => Resting(s.gc.orphans)
    case GcRestart => Resting(map[])
    case _ => s.gc
  }

  function Next(s: State, a: Action): (s': State)
    requires CanAct(s, a)
  {
    var issue := Issued(a);
    State(NextClaims(s, a), NextLive(s, a),
          if issue.Issue? then s.owner[issue.id := issue.owner] else s.owner,
          s.clock + 1,
          if issue.Issue? then s.createdAt[issue.id := s.clock] else s.createdAt,
          if Written(s, a) != "" then Stamp(s.recordedAt, Written(s, a), s.clock) else s.recordedAt,
          NextGc(s, a))
  }

  ghost predicate IsRun(states: seq<State>, acts: seq<Action>) {
    && |states| == |acts| + 1
    && states[0] == INIT
    && forall k :: 0 <= k < |acts| ==> CanAct(states[k], acts[k]) && states[k + 1] == Next(states[k], acts[k])
  }
}
