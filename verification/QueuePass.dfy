/**
 The queue pass: one trigger per demanded model that no claim made earlier in the pass takes care of.
 */
module QueuePass {
  import opened Lifecycle
  import opened Options
  import opened Claims
  import opened Trigger

  /** What one turn of the loop reads; `relistOk` says whether the claims could be listed after the trigger. */
  datatype Turn = Turn(env: Env, relistOk: bool)

  datatype Verdict = NoDemand | Handled | Tried(out: Outcome)

  datatype Pass = Pass(claims: seq<NodeClaim>, handled: set<Model>, verdicts: seq<Verdict>)

  /** Some claim that is neither Terminated nor Draining serves the model. */
  predicate Kept(claims: seq<NodeClaim>, m: Model) {
    exists c :: c in claims && Live(c) && Serves(c, m)
  }

  function Marked(claims: seq<NodeClaim>): (r: set<Model>)
    ensures forall m :: m in r <==> Kept(claims, m)
  {
    assert forall c: NodeClaim, m :: Serves(c, m) ==> m in [c.model] + c.models;
    set c, m | c in claims && m in [c.model] + c.models && Live(c) && Serves(c, m) :: m
  }

  function Turned(p: Pass, d: Demand, t: Turn): Pass {
    if !Demanded(d) then p.(verdicts := p.verdicts + [NoDemand])
    else if d.model in p.handled then p.(verdicts := p.verdicts + [Handled])
    else
      var out := Handle(t.env, p.claims, d.model);
      var claims := After(p.claims, out);
      var handled := if out.Error? || !t.relistOk then p.handled else p.handled + Marked(claims);
      Pass(claims, handled, p.verdicts + [Tried(out)])
  }

  function Passed(claims: seq<NodeClaim>, demands: seq<Demand>, turns: seq<Turn>): (p: Pass)
    requires |demands| == |turns|
    ensures |p.verdicts| == |demands|
  {
    if demands == [] then Pass(claims, {}, [])
    else
      var n := |demands| - 1;
      Turned(Passed(claims, demands[..n], turns[..n]), demands[n], turns[n])
  }

  /** The pass as it stands before turn `k`. */
  function At(claims: seq<NodeClaim>, demands: seq<Demand>, turns: seq<Turn>, k: nat): (p: Pass)
    requires |demands| == |turns| && k <= |demands|
    ensures |p.verdicts| == k
  {
    Passed(claims, demands[..k], turns[..k])
  }

  lemma AtStep(claims: seq<NodeClaim>, demands: seq<Demand>, turns: seq<Turn>, k: nat)
    requires |demands| == |turns| && k < |demands|
    ensures At(claims, demands, turns, k + 1) == Turned(At(claims, demands, turns, k), demands[k], turns[k])
  {
    assert demands[..k + 1][..k] == demands[..k] && turns[..k + 1][..k] == turns[..k];
  }

  lemma AtWhole(claims: seq<NodeClaim>, demands: seq<Demand>, turns: seq<Turn>)
    requires |demands| == |turns|
    ensures At(claims, demands, turns, |demands|) == Passed(claims, demands, turns)
  {
    assert demands[..|demands|] == demands && turns[..|turns|] == turns;
  }

  /** The verdict of turn `k`. */
  function VerdictAt(claims: seq<NodeClaim>, demands: seq<Demand>, turns: seq<Turn>, k: nat): Verdict
    requires |demands| == |turns| && k < |demands|
  {
    Turned(At(claims, demands, turns, k), demands[k], turns[k]).verdicts[k]
  }

  /** Verdicts are never revised and claims never removed. */
  lemma {:induction false} Grows(claims: seq<NodeClaim>, demands: seq<Demand>, turns: seq<Turn>, k: nat, l: nat)
    requires |demands| == |turns| && k <= l <= |demands|
    ensures At(claims, demands, turns, k).claims <= At(claims, demands, turns, l).claims
    ensures At(claims, demands, turns, k).handled <= At(claims, demands, turns, l).handled
    ensures At(claims, demands, turns, k).verdicts <= At(claims, demands, turns, l).verdicts
    decreases l
  {
    hide At;
    if k < l {
      Grows(claims, demands, turns, k, l - 1);
      AtStep(claims, demands, turns, l - 1);
    }
  }

  lemma VerdictStands(claims: seq<NodeClaim>, demands: seq<Demand>, turns: seq<Turn>, k: nat)
    requires |demands| == |turns| && k < |demands|
    ensures Passed(claims, demands, turns).verdicts[k] == VerdictAt(claims, demands, turns, k)
  {
    hide At;
    AtStep(claims, demands, turns, k);
    Grows(claims, demands, turns, k + 1, |demands|);
    AtWhole(claims, demands, turns);
    var p, q := At(claims, demands, turns, k + 1), Passed(claims, demands, turns);
    assert p.verdicts <= q.verdicts;
    assert p.verdicts[k] == q.verdicts[k];
  }

  // ---------------------------------------------------------------- completeness

  /** A trigger that does not fail leaves the model with an active claim. */
  lemma TriggerServes(env: Env, claims: seq<NodeClaim>, m: Model)
    ensures !Handle(env, claims, m).Error? ==> Covered(After(claims, Handle(env, claims, m)), m)
  {
    var out := Handle(env, claims, m);
    if out == AtLimit || out == NoQueue {
      assert Replicas(claims, m) > 0;
      CountZero(claims, ReplicaOf(m));
    } else if out.Created? {
      assert Replica(out.claim, m);
      assert out.claim in After(claims, out);
    }
  }

  ghost predicate HandledAreKept(p: Pass) {
    forall m :: m in p.handled ==> Kept(p.claims, m)
  }

  lemma KeptStays(a: seq<NodeClaim>, b: seq<NodeClaim>, m: Model)
    requires a <= b && Kept(a, m)
    ensures Kept(b, m)
  {
  }

  lemma CoveredIsKept(claims: seq<NodeClaim>, m: Model)
    requires Covered(claims, m)
    ensures Kept(claims, m)
  {
  }

  lemma TurnKeepsHandled(p: Pass, d: Demand, t: Turn)
    requires HandledAreKept(p)
    ensures HandledAreKept(Turned(p, d, t))
  {
  }

  lemma {:induction false} HandledKept(claims: seq<NodeClaim>, demands: seq<Demand>, turns: seq<Turn>, k: nat)
    requires |demands| == |turns| && k <= |demands|
    ensures HandledAreKept(At(claims, demands, turns, k))
  {
    if k > 0 {
      hide At, Turned, HandledAreKept;
      HandledKept(claims, demands, turns, k - 1);
      AtStep(claims, demands, turns, k - 1);
      TurnKeepsHandled(At(claims, demands, turns, k - 1), demands[k - 1], turns[k - 1]);
    }
  }

  /** After a pass every demanded model whose trigger did not fail is served by a claim that is neither
      Terminated nor Draining. */
  lemma PassComplete(claims: seq<NodeClaim>, demands: seq<Demand>, turns: seq<Turn>, k: nat)
    requires |demands| == |turns| && k < |demands|
    requires demands[k].queue != 0 || demands[k].active != 0
    requires var v := Passed(claims, demands, turns).verdicts[k]; !(v.Tried? && v.out.Error?)
    ensures exists c :: c in Passed(claims, demands, turns).claims && c.phase != Terminated && c.phase != Draining
                        && (c.model == demands[k].model || demands[k].model in c.models)
  {
    hide At;
    var m := demands[k].model;
    var p := At(claims, demands, turns, k);
    VerdictStands(claims, demands, turns, k);
    AtStep(claims, demands, turns, k);
    if m in p.handled {
      HandledKept(claims, demands, turns, k);
    } else {
      TriggerServes(turns[k].env, p.claims, m);
      CoveredIsKept(At(claims, demands, turns, k + 1).claims, m);
    }
    Grows(claims, demands, turns, k + 1, |demands|);
    AtWhole(claims, demands, turns);
    KeptStays(At(claims, demands, turns, k + 1).claims, Passed(claims, demands, turns).claims, m);
  }

  /** A turn passes over a model without demand; it passes over a model with demand exactly if a claim that is
      neither Terminated nor Draining served it when the claims were last listed after a successful trigger, or
      earlier in the pass; and it tries all others. */
  lemma VerdictExactlyWhen(claims: seq<NodeClaim>, demands: seq<Demand>, turns: seq<Turn>, k: nat)
    requires |demands| == |turns| && k < |demands|
    ensures var v := Passed(claims, demands, turns).verdicts;
            && (v[k].NoDemand? <==> demands[k].queue == 0 && demands[k].active == 0)
            && (v[k].Handled? <==>
                  && (demands[k].queue != 0 || demands[k].active != 0)
                  && exists t :: 0 <= t < k && ListedAfter(claims, demands, turns, t, demands[k].model))
  {
    hide At;
    VerdictStands(claims, demands, turns, k);
    HandledExactlyWhen(claims, demands, turns, k, demands[k].model);
  }

  /** Turn `t` tried a trigger that did not fail, and the list of claims after it has one for the model that is
      neither Terminated nor Draining. */
  predicate ListedAfter(claims: seq<NodeClaim>, demands: seq<Demand>, turns: seq<Turn>, t: nat, m: Model)
    requires |demands| == |turns| && t < |demands|
  {
    && VerdictAt(claims, demands, turns, t).Tried? && !VerdictAt(claims, demands, turns, t).out.Error?
    && turns[t].relistOk
    && exists c :: c in At(claims, demands, turns, t + 1).claims && c.phase != Terminated && c.phase != Draining
                   && (c.model == m || m in c.models)
  }

  lemma {:induction false} HandledExactlyWhen(claims: seq<NodeClaim>, demands: seq<Demand>, turns: seq<Turn>, k: nat,
                                              m: Model)
    requires |demands| == |turns| && k <= |demands|
    ensures m in At(claims, demands, turns, k).handled <==>
            exists t :: 0 <= t < k && ListedAfter(claims, demands, turns, t, m)
  {
    hide At, Turned, Kept, ListedAfter;
    if k == 0 {
      StartsEmpty(claims, demands, turns);
    } else {
      HandledExactlyWhen(claims, demands, turns, k - 1, m);
      TurnHandles(claims, demands, turns, k - 1, m);
    }
  }

  /** A turn adds to the handled models those found in the list after it. */
  lemma TurnHandles(claims: seq<NodeClaim>, demands: seq<Demand>, turns: seq<Turn>, k: nat, m: Model)
    requires |demands| == |turns| && k < |demands|
    ensures m in At(claims, demands, turns, k + 1).handled <==>
            m in At(claims, demands, turns, k).handled || ListedAfter(claims, demands, turns, k, m)
  {
    hide At, Handle;
    AtStep(claims, demands, turns, k);
    assert Kept(At(claims, demands, turns, k + 1).claims, m) <==>
           exists c :: c in At(claims, demands, turns, k + 1).claims && c.phase != Terminated && c.phase != Draining
                       && (c.model == m || m in c.models);
  }

  lemma StartsEmpty(claims: seq<NodeClaim>, demands: seq<Demand>, turns: seq<Turn>)
    requires |demands| == |turns|
    ensures At(claims, demands, turns, 0) == Pass(claims, {}, [])
  {
  }

  // ---------------------------------------------------------------- disjointness

  /** The claim made in turn `i` stays active for the rest of the pass. */
  lemma MadeIsCovered(claims: seq<NodeClaim>, demands: seq<Demand>, turns: seq<Turn>, i: nat, j: nat, m: Model)
    requires |demands| == |turns| && i < j <= |demands|
    requires var v := VerdictAt(claims, demands, turns, i);
             v.Tried? && v.out.Created? && Serves(v.out.claim, m)
    ensures Covered(At(claims, demands, turns, j).claims, m)
  {
    hide At;
    var c := VerdictAt(claims, demands, turns, i).out.claim;
    AtStep(claims, demands, turns, i);
    Grows(claims, demands, turns, i + 1, j);
    var p, q := At(claims, demands, turns, i + 1), At(claims, demands, turns, j);
    assert c == p.claims[|p.claims| - 1] && c in q.claims by { assert p.claims <= q.claims; }
    assert Replica(c, m);
  }

  /** Two claims made in one pass share at most the model the later one was triggered for, and not even that
      if the claims could be listed after some successful trigger from the earlier one on. */
  lemma PassDisjoint(claims: seq<NodeClaim>, demands: seq<Demand>, turns: seq<Turn>, i: nat, j: nat, m: Model)
    requires |demands| == |turns| && i < j < |demands|
    requires var v := Passed(claims, demands, turns).verdicts;
             && v[i].Tried? && v[i].out.Created? && Serves(v[i].out.claim, m)
             && v[j].Tried? && v[j].out.Created? && Serves(v[j].out.claim, m)
    ensures m == demands[j].model
    ensures forall k :: i <= k < j && turns[k].relistOk ==>
              var v := Passed(claims, demands, turns).verdicts[k]; v.Tried? ==> v.out.Error?
  {
    hide At, Handle, Covered, Kept;
    VerdictStands(claims, demands, turns, i);
    VerdictStands(claims, demands, turns, j);
    MadeIsCovered(claims, demands, turns, i, j, m);
    AtStep(claims, demands, turns, j);
    var p := At(claims, demands, turns, j);
    CreatedServes(turns[j].env, p.claims, demands[j].model, m);
    forall k | i <= k < j && turns[k].relistOk
      ensures var v := Passed(claims, demands, turns).verdicts[k]; v.Tried? ==> v.out.Error?
    {
      VerdictStands(claims, demands, turns, k);
      if VerdictAt(claims, demands, turns, k).Tried? && !VerdictAt(claims, demands, turns, k).out.Error? {
        MadeIsHandled(claims, demands, turns, i, k, j, m);
      }
    }
  }

  /** A successful relist after the claim of turn `i` was made marks its models as handled. */
  lemma MadeIsHandled(claims: seq<NodeClaim>, demands: seq<Demand>, turns: seq<Turn>, i: nat, k: nat, j: nat,
                      m: Model)
    requires |demands| == |turns| && i <= k < j <= |demands|
    requires var v := VerdictAt(claims, demands, turns, i);
             v.Tried? && v.out.Created? && Serves(v.out.claim, m)
    requires var v := VerdictAt(claims, demands, turns, k); v.Tried? && !v.out.Error? && turns[k].relistOk
    ensures m in At(claims, demands, turns, j).handled
  {
    hide At, Handle, Covered, Kept;
    AtStep(claims, demands, turns, k);
    MadeIsCovered(claims, demands, turns, i, k + 1, m);
    CoveredIsKept(At(claims, demands, turns, k + 1).claims, m);
    Grows(claims, demands, turns, k + 1, j);
  }

  /** Two claims made in one pass overlap if and only if the earlier one serves the model the later one was
      triggered for. */
  lemma OverlapExactlyWhen(claims: seq<NodeClaim>, demands: seq<Demand>, turns: seq<Turn>, i: nat, j: nat)
    requires |demands| == |turns| && i < j < |demands|
    requires var v := Passed(claims, demands, turns).verdicts;
             v[i].Tried? && v[i].out.Created? && v[j].Tried? && v[j].out.Created?
    ensures var v := Passed(claims, demands, turns).verdicts;
            (exists m :: Serves(v[i].out.claim, m) && Serves(v[j].out.claim, m)) <==>
            Serves(v[i].out.claim, demands[j].model)
  {
    hide At;
    var v := Passed(claims, demands, turns).verdicts;
    VerdictStands(claims, demands, turns, j);
    assert Serves(v[j].out.claim, demands[j].model);
    if m :| Serves(v[i].out.claim, m) && Serves(v[j].out.claim, m) {
      PassDisjoint(claims, demands, turns, i, j, m);
    }
  }

  /** A trigger bundles no model that an active claim already serves. */
  lemma CreatedServes(env: Env, claims: seq<NodeClaim>, primary: Model, m: Model)
    requires var out := Handle(env, claims, primary); out.Created? && Serves(out.claim, m)
    ensures m == primary || !Covered(claims, m)
  {
    if env.demands.Some? && m != primary {
      BundleMembers(env.configs, claims, primary, env.demands.value, m);
    }
  }

  lemma {:induction false} BundleMembers(configs: map<Model, Config>, claims: seq<NodeClaim>, primary: Model,
                                         demands: seq<Demand>, m: Model)
    requires primary in configs && m in Bundle(configs, claims, primary, demands)
    ensures m == primary || exists d :: d in demands && d.model == m && Eligible(configs, claims, primary, d)
  {
    if demands != [] {
      var n := |demands| - 1;
      if m in Bundle(configs, claims, primary, demands[..n]) {
        BundleMembers(configs, claims, primary, demands[..n], m);
      } else {
        assert demands[n].model == m && Eligible(configs, claims, primary, demands[n]);
      }
    }
  }

  // ---------------------------------------------------------------- scaling up

  ghost predicate KeptAreHandled(p: Pass) {
    forall m :: Kept(p.claims, m) ==> m in p.handled
  }

  lemma {:induction false} HandledExactly(claims: seq<NodeClaim>, demands: seq<Demand>, turns: seq<Turn>, k: nat,
                                          j: nat)
    requires |demands| == |turns| && k < j <= |demands|
    requires var v := VerdictAt(claims, demands, turns, k); v.Tried? && !v.out.Error?
    requires forall t :: k <= t < j ==> turns[t].relistOk
    ensures KeptAreHandled(At(claims, demands, turns, j))
    decreases j
  {
    hide At;
    AtStep(claims, demands, turns, j - 1);
    if k < j - 1 { HandledExactly(claims, demands, turns, k, j - 1); }
  }

  /** Once a trigger of the pass has succeeded, the pass starts no second replica any more: it tries a model
      only if no claim that is neither Terminated nor Draining serves it. */
  lemma ScaleUpOnlyFirst(claims: seq<NodeClaim>, demands: seq<Demand>, turns: seq<Turn>, k: nat, j: nat)
    requires |demands| == |turns| && k < j < |demands|
    requires var v := Passed(claims, demands, turns).verdicts[k]; v.Tried? && !v.out.Error?
    requires forall t :: k <= t < j ==> turns[t].relistOk
    requires Demanded(demands[j])
    ensures Passed(claims, demands, turns).verdicts[j].Tried? <==>
            !Kept(At(claims, demands, turns, j).claims, demands[j].model)
  {
    hide At;
    VerdictStands(claims, demands, turns, k);
    VerdictStands(claims, demands, turns, j);
    HandledExactly(claims, demands, turns, k, j);
    HandledKept(claims, demands, turns, j);
  }

  // ---------------------------------------------------------------- an overlap

  const WANTED := [Demand("a", 1, 0), Demand("b", 1, 0)]
  const CONFIGS: map<Model, Config> :=
    map["a" := Config(10, "", "", 1, 0.0, 0, [], false), "b" := Config(10, "", "", 2, 0.0, 0, [], false)]
  const ENV := Env(CONFIGS, true, Some(1), Some([Pool("p", ["standalone"], 5)]), Some(WANTED), "c", true)

  lemma BundlesBoth()
    ensures Bundle(CONFIGS, [], "a", WANTED) == ["a", "b"]
  {
    VramAppend(CONFIGS, [], "a");
    assert [] + ["a"] == ["a"];
    assert WANTED[..1] == [WANTED[0]] && WANTED[..1][..0] == [];
    assert Bundle(CONFIGS, [], "a", WANTED[..1]) == ["a"];
  }

  lemma FirstTurn() returns (c: NodeClaim)
    ensures Handle(ENV, [], "a") == Outcome.Created(c)
    ensures c.models == ["a", "b"] && c.pool == "p" && c.phase == Unset
  {
    BundlesBoth();
    c := Handle(ENV, [], "a").claim;
  }

  lemma SecondTurn(c: NodeClaim) returns (d: NodeClaim)
    requires c.models == ["a", "b"] && c.pool == "p" && c.phase == Unset
    ensures Handle(ENV, [c], "b") == Outcome.Created(d) && d.model == "b"
  {
    CountAppend([], c, ReplicaOf("b"));
    CountAppend([], c, NodeOf("p"));
    assert [] + [c] == [c];
    assert c.models[1] == "b";
    hide Bundle;
    d := Handle(ENV, [c], "b").claim;
  }

  /** If the claims cannot be listed after the first trigger, the pass makes a second claim for a model that the
      first one bundles and that may have two replicas. */
  lemma ClaimsOverlap() returns (turns: seq<Turn>)
    ensures |turns| == 2 && !turns[0].relistOk
    ensures var v := Passed([], WANTED, turns).verdicts;
            && v[0].Tried? && v[0].out.Created? && v[1].Tried? && v[1].out.Created?
            && Serves(v[0].out.claim, "b") && Serves(v[1].out.claim, "b")
  {
    turns := [Turn(ENV, false), Turn(ENV, true)];
    var c := FirstTurn();
    var d := SecondTurn(c);
    assert c.models[1] == "b";
    hide Handle;
    assert WANTED[..1] == [WANTED[0]] && turns[..1] == [turns[0]];
    assert Passed([], [], []) == Pass([], {}, []);
    assert [WANTED[0]][..0] == [] && [turns[0]][..0] == [];
    assert Passed([], [WANTED[0]], [turns[0]]) == Turned(Pass([], {}, []), WANTED[0], turns[0]);
    assert [] + [c] == [c];
    assert Passed([], [WANTED[0]], [turns[0]]) == Pass([c], {}, [Tried(Outcome.Created(c))]);
  }
}
