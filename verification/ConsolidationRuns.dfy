/**
 Consolidation over whole runs: when a bin-packed claim replaces single-model claims, does a model lose its
 last Ready node?
 */
module ConsolidationRuns {
  import opened Lifecycle
  import opened Options
  import opened Claims

  /** The claims, with two records of the run so far: the model lists of the bin-packed claims that have been
      Ready, and the models of bin-packed claims that have stopped being Ready. */
  datatype Store = Store(claims: seq<NodeClaim>, shown: set<seq<Model>>, lost: set<Model>)

  /** A claim is added; it moves to another phase, for whatever reason; the reconciler of a bin-packed claim,
      which it has seen Ready with all models loaded, annotates a single-model claim; the disruptor drains an
      annotated Ready claim; an object goes away. */
  datatype Event =
    | Added(claim: NodeClaim)
    | Moved(i: nat, phase: Phase)
    | Annotated(cover: seq<Model>, i: nat)
    | Drained(i: nat)
    | Deleted(i: nat)

  predicate Packed(c: NodeClaim) {
    c.phase == Ready && |c.models| > 1
  }

  /** The primary model comes first, as in every claim the controllers create. */
  predicate PrimaryFirst(c: NodeClaim) {
    c.models != [] ==> c.models[0] == c.model
  }

  predicate Served(claims: seq<NodeClaim>, m: Model) {
    exists c :: c in claims && c.phase == Ready && m in ModelsOf(c)
  }

  predicate ServedPacked(claims: seq<NodeClaim>, m: Model) {
    exists c :: c in claims && Packed(c) && m in c.models
  }

  predicate Possible(s: Store, e: Event) {
    match e
    case Added(c) => PrimaryFirst(c) && !c.drain && c.phase == Unset
    case Moved(i, _) => i < |s.claims|
    case Annotated(cover, i) =>
      && cover in s.shown && i < |s.claims|
      && Active(s.claims[i]) && |ModelsOf(s.claims[i])| == 1
      && exists m :: m in cover && Serves(s.claims[i], m)
    case Drained(i) => i < |s.claims| && s.claims[i].phase == Ready && s.claims[i].drain
    case Deleted(i) => i < |s.claims|
  }

  function Applied(claims: seq<NodeClaim>, e: Event): seq<NodeClaim>
    requires !e.Added? ==> e.i < |claims|
  {
    match e
    case Added(c) => claims + [c]
    case Moved(i, phase) => claims[i := claims[i].(phase := phase)]
    case Annotated(_, i) => claims[i := claims[i].(drain := true)]
    case Drained(i) => claims[i := claims[i].(phase := Draining)]
    case Deleted(i) => claims[..i] + claims[i + 1..]
  }

  /** Does the event end the Ready phase of claim `e.i`? */
  predicate Ends(claims: seq<NodeClaim>, e: Event)
    requires !e.Added? ==> e.i < |claims|
  {
    && !e.Added? && !e.Annotated?
    && claims[e.i].phase == Ready
    && (e.Moved? ==> e.phase != Ready)
  }

  function Losses(claims: seq<NodeClaim>, e: Event): set<Model>
    requires !e.Added? ==> e.i < |claims|
  {
    if Ends(claims, e) && |claims[e.i].models| > 1 then set m | m in claims[e.i].models else {}
  }

  function Shown(claims: seq<NodeClaim>): set<seq<Model>> {
    set c | c in claims && Packed(c) :: c.models
  }

  function Next(s: Store, e: Event): Store
    requires Possible(s, e)
  {
    var claims := Applied(s.claims, e);
    Store(claims, s.shown + Shown(claims), s.lost + Losses(s.claims, e))
  }

  ghost predicate IsRun(stores: seq<Store>, events: seq<Event>) {
    && |stores| == |events| + 1
    && stores[0] == Store([], {}, {})
    && forall k :: 0 <= k < |events| ==> Possible(stores[k], events[k]) && stores[k + 1] == Next(stores[k], events[k])
  }

  ghost predicate ClaimOk(s: Store, c: NodeClaim) {
    && PrimaryFirst(c)
    && (c.drain ==> |ModelsOf(c)| == 1 && (ServedPacked(s.claims, ModelsOf(c)[0]) || ModelsOf(c)[0] in s.lost))
  }

  ghost predicate ListOk(s: Store, models: seq<Model>) {
    |models| > 1 && forall m :: m in models ==> ServedPacked(s.claims, m) || m in s.lost
  }

  ghost predicate Inv(s: Store) {
    && (forall c :: c in s.claims ==> ClaimOk(s, c))
    && (forall models :: models in s.shown ==> ListOk(s, models))
  }

  /** A Ready claim the event does not end is still there, Ready, with the same models. */
  lemma Survives(claims: seq<NodeClaim>, e: Event, k: nat) returns (c: NodeClaim)
    requires !e.Added? ==> e.i < |claims|
    requires k < |claims| && claims[k].phase == Ready
    requires !(Ends(claims, e) && e.i == k)
    ensures c in Applied(claims, e) && c.phase == Ready
    ensures c.models == claims[k].models && c.model == claims[k].model
  {
    var l := if e.Deleted? && k > e.i then k - 1 else k;
    c := Applied(claims, e)[l];
  }

  /** A model of a Ready bin-packed claim stays so, or is recorded as lost. */
  lemma CoverStays(s: Store, e: Event, m: Model)
    requires Possible(s, e)
    requires ServedPacked(s.claims, m) || m in s.lost
    ensures ServedPacked(Next(s, e).claims, m) || m in Next(s, e).lost
  {
    if ServedPacked(s.claims, m) {
      var c :| c in s.claims && Packed(c) && m in c.models;
      var k :| 0 <= k < |s.claims| && s.claims[k] == c;
      hide Applied;
      if !(Ends(s.claims, e) && e.i == k) {
        var d := Survives(s.claims, e, k);
        assert Packed(d);
      }
    }
  }

  /** Where the claims of the next store come from. */
  lemma Origin(s: Store, e: Event, c: NodeClaim)
    requires Possible(s, e) && c in Next(s, e).claims
    ensures c in s.claims || (e.Added? && c == e.claim) ||
            (!e.Added? && c.models == s.claims[e.i].models && c.model == s.claims[e.i].model
             && (c.drain ==> s.claims[e.i].drain || e.Annotated?))
  {
  }

  lemma StepKeepsClaims(s: Store, e: Event, c: NodeClaim)
    requires Inv(s) && Possible(s, e) && c in Next(s, e).claims
    ensures ClaimOk(Next(s, e), c)
  {
    hide ServedPacked;
    Origin(s, e, c);
    if c in s.claims {
      assert ClaimOk(s, c);
      if c.drain { CoverStays(s, e, ModelsOf(c)[0]); }
    } else if !e.Added? {
      var was := s.claims[e.i];
      assert ClaimOk(s, was);
      assert ModelsOf(c) == ModelsOf(was);
      if c.drain {
        if !was.drain {
          assert ListOk(s, e.cover);
          var m :| m in e.cover && Serves(was, m);
          assert ModelsOf(was)[0] == m;
        }
        CoverStays(s, e, ModelsOf(c)[0]);
      }
    }
  }

  lemma StepKeepsLists(s: Store, e: Event, models: seq<Model>)
    requires Inv(s) && Possible(s, e) && models in Next(s, e).shown
    ensures ListOk(Next(s, e), models)
  {
    if models in s.shown {
      hide ServedPacked;
      assert ListOk(s, models);
      forall m | m in models ensures ServedPacked(Next(s, e).claims, m) || m in Next(s, e).lost {
        CoverStays(s, e, m);
      }
    } else {
      var c :| c in Next(s, e).claims && Packed(c) && c.models == models;
    }
  }

  lemma {:induction false} RunKeepsInv(stores: seq<Store>, events: seq<Event>, k: nat)
    requires IsRun(stores, events) && k <= |events|
    ensures Inv(stores[k])
  {
    if k > 0 {
      RunKeepsInv(stores, events, k - 1);
      var s, e := stores[k - 1], events[k - 1];
      assert stores[k - 1 + 1] == Next(s, e);
      hide Next, ClaimOk, ListOk, Possible;
      forall c | c in stores[k].claims ensures ClaimOk(stores[k], c) { StepKeepsClaims(s, e, c); }
      forall models | models in stores[k].shown ensures ListOk(stores[k], models) { StepKeepsLists(s, e, models); }
    }
  }

  /** In every run an annotated claim has exactly one model, and a Ready bin-packed claim contains that model
      unless a bin-packed claim with it has stopped being Ready. */
  lemma AnnotatedIsCovered(stores: seq<Store>, events: seq<Event>, k: nat, c: NodeClaim)
    requires IsRun(stores, events) && k <= |events|
    requires c in stores[k].claims && c.drain
    ensures |ModelsOf(c)| == 1
    ensures ServedPacked(stores[k].claims, ModelsOf(c)[0]) || ModelsOf(c)[0] in stores[k].lost
  {
    RunKeepsInv(stores, events, k);
    assert ClaimOk(stores[k], c);
  }

  /** A consolidation drain takes the last Ready node from a model only if a bin-packed claim with that model
      has stopped being Ready before. */
  lemma DrainOpensGapOnlyAfterLoss(stores: seq<Store>, events: seq<Event>, k: nat, m: Model)
    requires IsRun(stores, events) && k < |events| && events[k].Drained?
    requires Served(stores[k].claims, m) && !Served(stores[k + 1].claims, m)
    ensures m in stores[k].lost
    ensures ModelsOf(stores[k].claims[events[k].i]) == [m]
  {
    var s, e := stores[k], events[k];
    assert stores[k + 1] == Next(s, e);
    AnnotatedIsCovered(stores, events, k, s.claims[e.i]);
    ServedStays(s, e, m);
    if ServedPacked(s.claims, m) {
      CoverStays(s, e, m);
      PackedServes(Next(s, e).claims, m);
    }
  }

  lemma PackedServes(claims: seq<NodeClaim>, m: Model)
    ensures ServedPacked(claims, m) ==> Served(claims, m)
  {
  }

  /** Only ending the Ready phase of a claim that serves it can leave a model unserved. */
  lemma ServedStays(s: Store, e: Event, m: Model)
    requires Possible(s, e) && Served(s.claims, m)
    ensures Served(Next(s, e).claims, m) || (Ends(s.claims, e) && m in ModelsOf(s.claims[e.i]))
  {
    var c :| c in s.claims && c.phase == Ready && m in ModelsOf(c);
    var k :| 0 <= k < |s.claims| && s.claims[k] == c;
    hide Applied;
    if !(Ends(s.claims, e) && e.i == k) {
      var d := Survives(s.claims, e, k);
      assert m in ModelsOf(d);
    }
  }

  predicate ReadyFor(c: NodeClaim, m: Model) {
    c.phase == Ready && m in ModelsOf(c)
  }

  /** A consolidation drain leaves a model that was served without a Ready node if and only if no other Ready
      claim serves it. */
  lemma DrainOpensGapExactlyWhen(s: Store, i: nat, m: Model)
    requires Possible(s, Drained(i)) && Served(s.claims, m)
    ensures !Served(Next(s, Drained(i)).claims, m) <==>
            forall j :: 0 <= j < |s.claims| && j != i ==> !ReadyFor(s.claims[j], m)
  {
    var t := Next(s, Drained(i)).claims;
    forall j | 0 <= j < |t| ensures ReadyFor(t[j], m) <==> j != i && ReadyFor(s.claims[j], m) {}
    assert Served(t, m) <==> exists j :: 0 <= j < |t| && ReadyFor(t[j], m) by {
      if Served(t, m) {
        var c :| c in t && c.phase == Ready && m in ModelsOf(c);
        var j :| 0 <= j < |t| && t[j] == c;
        assert ReadyFor(t[j], m);
      }
      if j :| 0 <= j < |t| && ReadyFor(t[j], m) { assert t[j] in t; }
    }
  }

  /** Some Ready claim of another name serves the model. */
  predicate OtherReady(claims: seq<NodeClaim>, m: Model, exclude: string) {
    exists c :: c in claims && c.name != exclude && c.phase == Ready && Serves(c, m)
  }

  /** A failed list answers no. */
  method HasOtherReadyClaims(listed: Option<seq<NodeClaim>>, m: Model, exclude: string) returns (found: bool)
    ensures found == (listed.Some? && OtherReady(listed.value, m, exclude))
    ensures found <==> listed.Some? && exists c :: c in listed.value && c.name != exclude && c.phase == Ready
                                                    && (c.model == m || m in c.models)
  {
    if listed.None? {
      return false;
    }
    var claims := listed.value;
    for i := 0 to |claims|
      invariant forall j :: 0 <= j < i ==>
                  claims[j].name == exclude || claims[j].phase != Ready || !Serves(claims[j], m)
    {
      var c := claims[i];
      if c.name == exclude || c.phase != Ready {
        continue;
      }
      if c.model == m {
        assert c in claims && Serves(c, m);
        return true;
      }
      for k := 0 to |c.models|
        invariant m !in c.models[..k]
      {
        if c.models[k] == m {
          assert c in claims && Serves(c, m);
          return true;
        }
      }
      assert c.models[..|c.models|] == c.models;
    }
    return false;
  }

  /** The check that the reconciler makes before it forgets a loaded model, made before the drain, would tell: in
      every run with distinct names a drain opens a gap exactly if it finds no other Ready claim. */
  lemma MissingGuard(stores: seq<Store>, events: seq<Event>, k: nat, m: Model)
    requires IsRun(stores, events) && k < |events| && events[k].Drained?
    requires Possible(stores[k], events[k])
    requires m != "" && Served(stores[k].claims, m)
    requires forall i, j :: 0 <= i < j < |stores[k].claims| ==> stores[k].claims[i].name != stores[k].claims[j].name
    ensures !Served(stores[k + 1].claims, m) <==>
            !OtherReady(stores[k].claims, m, stores[k].claims[events[k].i].name)
  {
    RunKeepsInv(stores, events, k);
    var s, i := stores[k], events[k].i;
    assert stores[k + 1] == Next(s, events[k]);
    DrainOpensGapExactlyWhen(s, i, m);
    forall j | 0 <= j < |s.claims|
      ensures ReadyFor(s.claims[j], m) <==> s.claims[j].phase == Ready && Serves(s.claims[j], m)
    {
      assert ClaimOk(s, s.claims[j]);
    }
  }

  /** Consolidation on its own: claims are made, boot or fail to, get annotated and are drained for it, but no
      Ready claim goes away for another reason. */
  predicate OnlyConsolidates(claims: seq<NodeClaim>, e: Event)
    requires !e.Added? ==> e.i < |claims|
  {
    Ends(claims, e) ==> e.Drained?
  }

  ghost predicate Undisturbed(stores: seq<Store>, events: seq<Event>, n: nat)
    requires IsRun(stores, events) && n <= |events|
  {
    forall j :: 0 <= j < n ==> OnlyConsolidates(stores[j].claims, events[j])
  }

  lemma {:induction false} NothingLost(stores: seq<Store>, events: seq<Event>, k: nat)
    requires IsRun(stores, events) && k <= |events|
    requires Undisturbed(stores, events, k)
    ensures stores[k].lost == {}
  {
    if k > 0 {
      NothingLost(stores, events, k - 1);
      var s, e := stores[k - 1], events[k - 1];
      assert stores[k - 1 + 1] == Next(s, e);
      if Ends(s.claims, e) { AnnotatedIsCovered(stores, events, k - 1, s.claims[e.i]); }
    }
  }

  lemma NoGapInOneStep(stores: seq<Store>, events: seq<Event>, k: nat, m: Model)
    requires IsRun(stores, events) && k < |events| && Undisturbed(stores, events, k + 1)
    requires Served(stores[k].claims, m)
    ensures Served(stores[k + 1].claims, m)
  {
    NothingLost(stores, events, k);
    assert OnlyConsolidates(stores[k].claims, events[k]);
    assert Possible(stores[k], events[k]) && stores[k + 1] == Next(stores[k], events[k]);
    ServedStays(stores[k], events[k], m);
    hide *;
    if !Served(stores[k + 1].claims, m) {
      DrainOpensGapOnlyAfterLoss(stores, events, k, m);
    }
  }

  /** Consolidation never takes the last Ready node from a model. */
  lemma {:induction false} ConsolidationNeverOpensGap(stores: seq<Store>, events: seq<Event>, k: nat, l: nat, m: Model)
    requires IsRun(stores, events) && k <= l <= |events|
    requires Undisturbed(stores, events, l)
    requires Served(stores[k].claims, m)
    ensures Served(stores[l].claims, m)
    decreases l
  {
    if k < l {
      assert Undisturbed(stores, events, l - 1);
      hide *;
      ConsolidationNeverOpensGap(stores, events, k, l - 1, m);
      NoGapInOneStep(stores, events, l - 1, m);
    }
  }

  // ---------------------------------------------------------------- annotating

  /** A claim the reconciler of the bin-packed claim `packed` marks for draining. */
  predicate Victim(packed: NodeClaim, c: NodeClaim) {
    && c.name != packed.name && Active(c) && |ModelsOf(c)| == 1 && !c.drain
    && exists m :: m in ModelsOf(packed) && Serves(c, m)
  }

  class ConsolidationDrain {
    var claims: seq<NodeClaim>

    constructor (existing: seq<NodeClaim>)
      ensures claims == existing
    {
      claims := existing;
    }

    /** Once all models of `packed` are loaded, every other claim that is neither Terminated, Draining nor
        Hibernated, has one model, serves one of those of `packed` and is not annotated yet is annotated if its
        update succeeds, and nothing else changes. `updateOk` says for which claims the versioned update goes
        through. */
    method TriggerConsolidationDrain(packed: NodeClaim, loaded: set<Model>, listOk: bool, updateOk: seq<bool>)
      requires |updateOk| == |claims|
      modifies this
      ensures |claims| == |old(claims)|
      ensures var go := listOk && forall m :: m in ModelsOf(packed) ==> m in loaded;
              forall i :: 0 <= i < |claims| ==>
                claims[i] == if go && Victim(packed, old(claims)[i]) && updateOk[i] then old(claims)[i].(drain := true)
                             else old(claims)[i]
      ensures forall i :: 0 <= i < |claims| ==>
                var c := old(claims)[i];
                claims[i] == c.(drain :=
                  || c.drain
                  || (&& listOk && (forall m :: m in ModelsOf(packed) ==> m in loaded) && updateOk[i]
                      && c.name != packed.name && c.phase !in {Terminated, Draining, Hibernated}
                      && |ModelsOf(c)| == 1 && exists m :: m in ModelsOf(packed) && (c.model == m || m in c.models)))
    {
      var models := ModelsOf(packed);
      for k := 0 to |models|
        invariant claims == old(claims)
        invariant forall j :: 0 <= j < k ==> models[j] in loaded
      {
        if models[k] !in loaded {
          return;
        }
      }
      if !listOk {
        return;
      }
      for i := 0 to |claims|
        invariant |claims| == |old(claims)|
        invariant forall j :: i <= j < |claims| ==> claims[j] == old(claims)[j]
        invariant forall j :: 0 <= j < i ==>
                    claims[j] == if Victim(packed, old(claims)[j]) && updateOk[j] then old(claims)[j].(drain := true)
                                 else old(claims)[j]
      {
        var victim := IsVictim(packed, claims[i]);
        if victim && updateOk[i] {
          claims := claims[i := claims[i].(drain := true)];
        }
      }
    }

    method IsVictim(packed: NodeClaim, c: NodeClaim) returns (victim: bool)
      ensures victim == Victim(packed, c)
    {
      if c.name == packed.name || c.phase == Terminated || c.phase == Draining || c.phase == Hibernated {
        return false;
      }
      if |ModelsOf(c)| != 1 {
        return false;
      }
      var models := ModelsOf(packed);
      for k := 0 to |models|
        invariant forall j :: 0 <= j < k ==> !Serves(c, models[j])
      {
        if c.model == models[k] || models[k] in c.models {
          assert Serves(c, models[k]);
          return !c.drain;
        }
      }
      return false;
    }
  }

  /** What the reconciler of a bin-packed claim does to a victim is a step of the runs above. */
  lemma AnnotatingIsAStep(s: Store, packed: NodeClaim, i: nat)
    requires |packed.models| > 1 && packed.models in s.shown
    requires i < |s.claims| && Victim(packed, s.claims[i])
    ensures Possible(s, Annotated(packed.models, i))
    ensures Next(s, Annotated(packed.models, i)).claims == s.claims[i := s.claims[i].(drain := true)]
  {
    var m :| m in ModelsOf(packed) && Serves(s.claims[i], m);
    assert m in packed.models;
  }

  // ---------------------------------------------------------------- losing the replacement

  function Single(phase: Phase, drain: bool): NodeClaim {
    NodeClaim("a", "p", "", "m", ["m"], Needs(0, 0, [], 0.0, 0, false), phase, "", false, drain)
  }

  function Pair(phase: Phase): NodeClaim {
    NodeClaim("b", "p", "", "m", ["m", "n"], Needs(0, 0, [], 0.0, 0, false), phase, "", true, false)
  }

  lemma PairShown(c: NodeClaim, phase: Phase)
    requires |c.models| == 1
    ensures Shown([c]) == {}
    ensures Shown([c, Pair(phase)]) == if phase == Ready then {["m", "n"]} else {}
  {
  }

  const MN: seq<Model> := ["m", "n"]
  const LISTS: set<seq<Model>> := {MN}
  const GONE: set<Model> := {"m", "n"}

  predicate Goes(s: Store, e: Event, t: Store) {
    Possible(s, e) && t == Next(s, e)
  }

  lemma FirstSteps()
    ensures var a, b, p, q := Single(Unset, false), Single(Ready, false), Pair(Unset), Pair(Ready);
            && Goes(Store([], {}, {}), Added(a), Store([a], {}, {}))
            && Goes(Store([a], {}, {}), Moved(0, Ready), Store([b], {}, {}))
            && Goes(Store([b], {}, {}), Added(p), Store([b, p], {}, {}))
            && Goes(Store([b, p], {}, {}), Moved(1, Ready), Store([b, q], LISTS, {}))
  {
    var a, b, p, q := Single(Unset, false), Single(Ready, false), Pair(Unset), Pair(Ready);
    PairShown(a, Unset);
    PairShown(b, Unset);
    PairShown(b, Ready);
    assert [] + [a] == [a] && [a][0 := b] == [b] && [b] + [p] == [b, p] && [b, p][1 := q] == [b, q];
  }

  lemma LastSteps()
    ensures var b, c, d, q, r := Single(Ready, false), Single(Ready, true), Single(Draining, true), Pair(Ready),
                                 Pair(Draining);
            && Goes(Store([b, q], LISTS, {}), Annotated(MN, 0), Store([c, q], LISTS, {}))
            && Goes(Store([c, q], LISTS, {}), Moved(1, Draining), Store([c, r], LISTS, GONE))
            && Goes(Store([c, r], LISTS, GONE), Drained(0), Store([d, r], LISTS, GONE))
  {
    var b, c, d, q, r := Single(Ready, false), Single(Ready, true), Single(Draining, true), Pair(Ready),
                         Pair(Draining);
    PairShown(c, Ready);
    PairShown(c, Draining);
    PairShown(d, Draining);
    assert MN[0] == "m" && Serves(b, "m");
    assert [b, q][0 := c] == [c, q] && [c, q][1 := r] == [c, r] && [c, r][0 := d] == [d, r];
    assert (set m: Model | m in ["m", "n"]) == GONE;
  }

  lemma Extend(stores: seq<Store>, events: seq<Event>, e: Event, t: Store) returns (ss: seq<Store>, es: seq<Event>)
    requires IsRun(stores, events) && Goes(stores[|events|], e, t)
    ensures IsRun(ss, es) && |es| == |events| + 1 && es[|events|] == e
    ensures ss[|events|] == stores[|events|] && ss[|es|] == t
  {
    hide Possible, Next;
    ss, es := stores + [t], events + [e];
    forall k | 0 <= k < |es| ensures Goes(ss[k], es[k], ss[k + 1]) {
      if k < |events| {
        assert Possible(stores[k], events[k]) && stores[k + 1] == Next(stores[k], events[k]);
        assert ss[k] == stores[k] && ss[k + 1] == stores[k + 1] && es[k] == events[k];
      }
    }
  }

  lemma ServedByPair(x: NodeClaim, y: NodeClaim, m: Model)
    ensures Served([x, y], m) <==> (x.phase == Ready && m in ModelsOf(x)) || (y.phase == Ready && m in ModelsOf(y))
  {
  }

  lemma UpToAnnotation() returns (ss: seq<Store>, es: seq<Event>)
    ensures IsRun(ss, es) && |es| == 5
    ensures ss[5] == Store([Single(Ready, true), Pair(Ready)], LISTS, {})
  {
    FirstSteps();
    LastSteps();
    ss, es := [Store([], {}, {})], [];
    assert IsRun(ss, es);
    hide Goes, Single, Pair, IsRun, LISTS, MN, GONE;
    ss, es := Extend(ss, es, Added(Single(Unset, false)), Store([Single(Unset, false)], {}, {}));
    ss, es := Extend(ss, es, Moved(0, Ready), Store([Single(Ready, false)], {}, {}));
    ss, es := Extend(ss, es, Added(Pair(Unset)), Store([Single(Ready, false), Pair(Unset)], {}, {}));
    ss, es := Extend(ss, es, Moved(1, Ready), Store([Single(Ready, false), Pair(Ready)], LISTS, {}));
    ss, es := Extend(ss, es, Annotated(MN, 0), Store([Single(Ready, true), Pair(Ready)], LISTS, {}));
  }

  /** If the bin-packed claim goes away between the annotation and the drain, the drain goes ahead all the same
      and the model is left without a Ready node. */
  lemma GapAfterLoss() returns (ss: seq<Store>, es: seq<Event>)
    ensures IsRun(ss, es) && |es| == 7 && es[6].Drained?
    ensures Served(ss[6].claims, "m") && !Served(ss[7].claims, "m")
  {
    LastSteps();
    ServedByPair(Single(Ready, true), Pair(Draining), "m");
    ServedByPair(Single(Draining, true), Pair(Draining), "m");
    assert "m" in ModelsOf(Single(Ready, true));
    ss, es := UpToAnnotation();
    hide Goes, Single, Pair, IsRun, Served, LISTS, MN, GONE;
    ss, es := Extend(ss, es, Moved(1, Draining), Store([Single(Ready, true), Pair(Draining)], LISTS, GONE));
    ss, es := Extend(ss, es, Drained(0), Store([Single(Draining, true), Pair(Draining)], LISTS, GONE));
  }
}
