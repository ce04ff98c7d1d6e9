/**
 When an idle node may be destroyed: the wait before a destroy, and the record of the idle streak.
 */
module Idle {
  import opened Numbers
  import opened Options

  /** Times and durations are nanoseconds. */
  const MINUTE := 60_000_000_000

  function NextDestroyIn(provisioned: Option<int>, idleSince: Option<int>, cooldown: int, now: int, period: int): int {
    if period > 0 && provisioned.Some? then
      var cyclesDone := Quotient(now - provisioned.value, period);
      var nextTick := provisioned.value + (cyclesDone + 1) * period;
      if now < nextTick - MINUTE then nextTick - MINUTE - now else 0
    else if idleSince.Some? && now - idleSince.value < cooldown then
      cooldown - (now - idleSince.value)
    else 0
  }

  // ---------------------------------------------------------------- billing ticks

  /** `tick` is the first multiple of the billing period after provisioning that lies after `now`. */
  ghost predicate IsNextTick(provisioned: int, period: int, now: int, tick: int) {
    (exists n: int :: tick == provisioned + n * period) && now < tick <= now + period
  }

  lemma QuotientBounds(age: int, period: int)
    requires age >= 0 && period > 0
    ensures age / period * period <= age < (age / period + 1) * period
  {
  }

  lemma TickFrom(provisioned: int, period: int, now: int) returns (tick: int)
    requires now >= provisioned && period > 0
    ensures tick == provisioned + (Quotient(now - provisioned, period) + 1) * period
    ensures IsNextTick(provisioned, period, now, tick)
  {
    var n := (now - provisioned) / period;
    QuotientBounds(now - provisioned, period);
    tick := provisioned + (n + 1) * period;
    assert (n + 1) * period == n * period + period;
  }

  lemma NextTickUnique(provisioned: int, period: int, now: int, a: int, b: int)
    requires period > 0 && IsNextTick(provisioned, period, now, a) && IsNextTick(provisioned, period, now, b)
    ensures a == b
  {
    var m: int :| a == provisioned + m * period;
    var n: int :| b == provisioned + n * period;
    assert (m - n) * period == a - b;
    assert -period < (m - n) * period < period;
    if m > n { MulAtLeast(m - n, period); }
    if n > m { MulAtLeast(n - m, period); }
  }

  lemma MulAtLeast(k: int, p: int)
    requires k >= 1 && p > 0
    ensures k * p >= p
  {
  }

  /** With a billing period the wait ends one minute before the next billing tick, or is zero if the tick is
      at most a minute away. */
  lemma WaitEndsBeforeTick(provisioned: int, idleSince: Option<int>, cooldown: int, now: int, period: int, tick: int)
    requires now >= provisioned && period > 0 && IsNextTick(provisioned, period, now, tick)
    ensures var wait := NextDestroyIn(Some(provisioned), idleSince, cooldown, now, period);
            && 0 <= wait
            && (wait == 0 <==> tick - now <= MINUTE)
            && (wait > 0 ==> now + wait == tick - MINUTE && wait <= period - MINUTE)
  {
    var t := TickFrom(provisioned, period, now);
    NextTickUnique(provisioned, period, now, t, tick);
  }

  /** Without billing ticks the wait ends when the cooldown is over, and is zero exactly from then on. */
  lemma WaitEndsWithCooldown(provisioned: Option<int>, since: int, cooldown: int, now: int, period: int)
    requires period <= 0 || provisioned.None?
    ensures var wait := NextDestroyIn(provisioned, Some(since), cooldown, now, period);
            && 0 <= wait
            && (wait == 0 <==> now >= since + cooldown)
            && (wait > 0 ==> now + wait == since + cooldown)
    ensures NextDestroyIn(provisioned, None, cooldown, now, period) == 0
  {
  }

  /** Looking again at any moment up to the end of the wait gives the same end, and there the wait is zero. */
  lemma WaitIsStable(provisioned: int, idleSince: Option<int>, cooldown: int, now: int, later: int, period: int)
    requires now >= provisioned && period > 0
    requires now <= later <= now + NextDestroyIn(Some(provisioned), idleSince, cooldown, now, period)
    ensures later + NextDestroyIn(Some(provisioned), idleSince, cooldown, later, period) ==
            now + NextDestroyIn(Some(provisioned), idleSince, cooldown, now, period)
  {
    hide NextDestroyIn;
    var tick := TickFrom(provisioned, period, now);
    WaitEndsBeforeTick(provisioned, idleSince, cooldown, now, period, tick);
    assert IsNextTick(provisioned, period, later, tick);
    WaitEndsBeforeTick(provisioned, idleSince, cooldown, later, period, tick);
  }

  /** With a billing period neither the idle time nor the cooldown has any influence: the cooldown is not a floor. */
  lemma BillingIgnoresCooldown(provisioned: int, a: Option<int>, b: Option<int>, c: int, d: int, now: int, period: int)
    requires period > 0
    ensures NextDestroyIn(Some(provisioned), a, c, now, period) == NextDestroyIn(Some(provisioned), b, d, now, period)
  {
  }

  /** A destroy is due at `now` although the node has been idle for less than the cooldown. */
  predicate Undercuts(provisioned: Option<int>, since: int, cooldown: int, now: int, period: int) {
    NextDestroyIn(provisioned, Some(since), cooldown, now, period) <= 0 && now - since < cooldown
  }

  /** The cooldown is undercut exactly if billing ticks are counted and the node is idle for less than the cooldown
      in the last minute before a tick; without them it is a floor. */
  lemma UndercutExactlyWhen(provisioned: Option<int>, since: int, cooldown: int, now: int, period: int, tick: int)
    requires period > 0 && provisioned.Some? ==>
               now >= provisioned.value && IsNextTick(provisioned.value, period, now, tick)
    ensures Undercuts(provisioned, since, cooldown, now, period) <==>
            && period > 0 && provisioned.Some?
            && tick - now <= MINUTE && now - since < cooldown
  {
    if period > 0 && provisioned.Some? {
      hide NextDestroyIn;
      WaitEndsBeforeTick(provisioned.value, Some(since), cooldown, now, period, tick);
    }
  }

  // ---------------------------------------------------------------- the idle streak

  /** One look of the disruptor at a Ready claim. The instance could not be checked; some model is wanted or
      streams are still running; or nothing uses the node. `writeOk`: would a status write succeed now? */
  datatype Look =
    | Unclear
    | Busy(writeOk: bool)
    | Unused(now: int, poolOk: bool, writeOk: bool)

  /** Status.IdleSince after one look. */
  function IdleAfter(since: Option<int>, l: Look): Option<int> {
    match l
    case Unclear => since
    case Busy(writeOk) => if since.Some? && writeOk then None else since
    case Unused(now, poolOk, writeOk) => if since.None? && poolOk && writeOk then Some(now) else since
  }

  function IdleSince(looks: seq<Look>): Option<int> {
    if looks == [] then None else IdleAfter(IdleSince(looks[..|looks| - 1]), looks[|looks| - 1])
  }

  /** A look that starts the clock when it is not running. */
  predicate Starts(l: Look) {
    l.Unused? && l.poolOk && l.writeOk
  }

  predicate Clears(l: Look) {
    l.Busy? && l.writeOk
  }

  /** The clock was started at look `s` and not cleared since. */
  ghost predicate RunsFrom(looks: seq<Look>, s: nat) {
    && s < |looks| && Starts(looks[s])
    && (forall j :: s < j < |looks| ==> !Clears(looks[j]))
    && (forall j :: 0 <= j < s && Starts(looks[j]) ==> exists k :: j < k < s && Clears(looks[k]))
  }

  ghost predicate Stopped(looks: seq<Look>) {
    forall j :: 0 <= j < |looks| && Starts(looks[j]) ==> exists k :: j < k < |looks| && Clears(looks[k])
  }

  lemma StoppedStep(looks: seq<Look>, l: Look)
    requires Stopped(looks) && !Starts(l)
    ensures Stopped(looks + [l])
  {
    var ls := looks + [l];
    forall j | 0 <= j < |ls| && Starts(ls[j]) ensures exists k :: j < k < |ls| && Clears(ls[k]) {
      assert Starts(looks[j]);
      var k :| j < k < |looks| && Clears(looks[k]);
      assert ls[k] == looks[k];
    }
  }

  lemma StartStep(looks: seq<Look>, l: Look)
    requires Stopped(looks) && Starts(l)
    ensures RunsFrom(looks + [l], |looks|)
  {
    var ls := looks + [l];
    forall j | 0 <= j < |looks| && Starts(ls[j]) ensures exists k :: j < k < |looks| && Clears(ls[k]) {
      assert Starts(looks[j]);
      var k :| j < k < |looks| && Clears(looks[k]);
      assert ls[k] == looks[k];
    }
  }

  lemma RunStep(looks: seq<Look>, s: nat, l: Look)
    requires RunsFrom(looks, s)
    ensures if Clears(l) then Stopped(looks + [l]) else RunsFrom(looks + [l], s)
  {
    var ls := looks + [l];
    if Clears(l) {
      assert Clears(ls[|looks|]);
      assert !Starts(l);
    } else {
      forall j | 0 <= j < s && Starts(ls[j]) ensures exists k :: j < k < s && Clears(ls[k]) {
        assert Starts(looks[j]);
        var k :| j < k < s && Clears(looks[k]);
        assert ls[k] == looks[k];
      }
    }
  }

  /** The stored IdleSince is the time of the first look that could start the clock after the last look that
      cleared it. */
  lemma {:induction false} IdleSinceIsStart(looks: seq<Look>) returns (s: nat)
    ensures IdleSince(looks).None? ==> Stopped(looks)
    ensures IdleSince(looks).Some? ==> RunsFrom(looks, s) && IdleSince(looks).value == looks[s].now
  {
    if looks == [] { return 0; }
    var n := |looks| - 1;
    s := IdleSinceIsStart(looks[..n]);
    assert looks == looks[..n] + [looks[n]];
    var before := IdleSince(looks[..n]);
    if before.None? && Starts(looks[n]) {
      StartStep(looks[..n], looks[n]);
      s := n;
    } else if before.None? {
      StoppedStep(looks[..n], looks[n]);
    } else {
      RunStep(looks[..n], s, looks[n]);
    }
  }

  /** The streak that started at `s` is unbroken: no later look found the node in use. */
  ghost predicate Unbroken(looks: seq<Look>, s: nat) {
    forall j :: s < j < |looks| ==> !looks[j].Busy?
  }

  /** While the clock runs, the node has been unused at every conclusive look since it started exactly if every
      look that found it in use could write its status. */
  lemma UnbrokenExactlyWhen(looks: seq<Look>) returns (s: nat)
    requires IdleSince(looks).Some?
    ensures RunsFrom(looks, s) && IdleSince(looks).value == looks[s].now
    ensures Unbroken(looks, s) <==> forall j :: s < j < |looks| && looks[j].Busy? ==> looks[j].writeOk
  {
    s := IdleSinceIsStart(looks);
    forall j | s < j < |looks| && looks[j].Busy? ensures !looks[j].writeOk {
      assert !Clears(looks[j]);
    }
  }

  /** A busy look whose write fails leaves the clock running: an idle streak is then counted across it. */
  lemma FailedClearBridgesUse()
    ensures IdleSince([Unused(0, true, true), Busy(false), Unused(500, true, true)]) == Some(0)
  {
    var a, b, c := Unused(0, true, true), Busy(false), Unused(500, true, true);
    assert [a, b, c][..2] == [a, b] && [a, b][..1] == [a] && [a][..0] == [];
    assert IdleSince([a]) == Some(0);
    assert IdleSince([a, b]) == Some(0);
  }
}
