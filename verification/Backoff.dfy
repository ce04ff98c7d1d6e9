/**
 The retry backoff of a claim: a doubling loop over signed 64-bit nanoseconds whose cap is applied last.
 */
module Backoff {

  const SECOND := 1_000_000_000
  const BASE := 30 * SECOND
  const CAP := 300 * SECOND

  /** The signed 64-bit value of an integer. */
  function Wrap(x: int): int {
    (x + 0x8000_0000_0000_0000) % 0x1_0000_0000_0000_0000 - 0x8000_0000_0000_0000
  }

  function Pow2(n: nat): nat {
    if n == 0 then 1 else 2 * Pow2(n - 1)
  }

  /** How often the loop doubles. */
  function Doublings(retryCount: int): nat {
    if retryCount <= 1 then 0 else retryCount - 1
  }

  function Capped(d: int): int {
    if d > CAP then CAP else d
  }

  /** What the documentation promises: 30s, 60s, 120s, 240s, then 5 minutes. */
  function Promised(retryCount: int): int {
    Capped(BASE * Pow2(Doublings(retryCount)))
  }

  lemma WrapUnique(x: int, w: int, k: int)
    requires w == x - k * 0x1_0000_0000_0000_0000
    requires -0x8000_0000_0000_0000 <= w < 0x8000_0000_0000_0000
    ensures Wrap(x) == w
  {
  }

  lemma WrapShift(x: int) returns (k: int)
    ensures Wrap(x) == x - k * 0x1_0000_0000_0000_0000
    ensures -0x8000_0000_0000_0000 <= Wrap(x) < 0x8000_0000_0000_0000
  {
    k := (x + 0x8000_0000_0000_0000) / 0x1_0000_0000_0000_0000;
  }

  lemma DoubleWrapped(x: int)
    ensures Wrap(2 * Wrap(x)) == Wrap(2 * x)
  {
    var k := WrapShift(x);
    var l := WrapShift(2 * Wrap(x));
    WrapUnique(2 * x, Wrap(2 * Wrap(x)), 2 * k + l);
  }

  /** The retry counts from 30 on at which the overflowed value happens to be large and positive. */
  const LUCKY: set<int> := {32, 39, 40, 41, 42, 44, 45, 46, 50, 52}

  method BackoffDuration(retryCount: int) returns (d: int)
    ensures d == Capped(Wrap(BASE * Pow2(Doublings(retryCount))))
    ensures retryCount <= 29 ==>
              d == (if retryCount <= 1 then 30 else if retryCount == 2 then 60 else if retryCount == 3 then 120
                    else if retryCount == 4 then 240 else 300) * SECOND
  {
    PromiseKeptExactlyWhen(retryCount);
    PromisedValues(retryCount);
    d := BASE;
    var i := 1;
    while i < retryCount
      invariant 1 <= i && (i <= retryCount || i == 1)
      invariant d == Wrap(BASE * Pow2(i - 1))
    {
      DoubleWrapped(BASE * Pow2(i - 1));
      assert BASE * Pow2(i) == 2 * (BASE * Pow2(i - 1));
      d := Wrap(d * 2);
      i := i + 1;
    }
    if d > CAP {
      d := CAP;
    }
  }

  /** The loop variable after `n` doublings. */
  function Wrapped(n: nat): int {
    if n == 0 then BASE else Wrap(2 * Wrapped(n - 1))
  }

  lemma {:induction false} WrappedIs(n: nat)
    ensures Wrapped(n) == Wrap(BASE * Pow2(n))
  {
    if n > 0 {
      WrappedIs(n - 1);
      DoubleWrapped(BASE * Pow2(n - 1));
      assert BASE * Pow2(n) == 2 * (BASE * Pow2(n - 1));
    }
  }

  lemma {:induction false} Pow2Grows(m: nat, n: nat)
    requires m <= n
    ensures 1 <= Pow2(m) <= Pow2(n)
  {
    if m < n { Pow2Grows(m, n - 1); } else if m > 0 { Pow2Grows(m - 1, m - 1); }
  }

  lemma Pow2At28()
    ensures Pow2(28) == 268435456
  {
    assert Pow2(7) == 128;
    assert Pow2(14) == 16384;
    assert Pow2(21) == 2097152;
  }

  /** Up to the 29th retry nothing overflows and the duration is the promised one. */
  lemma NoOverflowUpTo29(n: nat)
    requires n <= 28
    ensures Wrapped(n) == BASE * Pow2(n)
  {
    hide Wrapped, Pow2;
    Pow2At28();
    Pow2Grows(n, 28);
    WrappedIs(n);
    WrapUnique(BASE * Pow2(n), BASE * Pow2(n), 0);
  }

  lemma NoOverflowAt28()
    ensures Wrapped(28) == 8053063680000000000
  {
    hide Wrapped;
    NoOverflowUpTo29(28);
    Pow2At28();
  }

  /** One turn of the loop: the doubled value, less `k` times 2^64 when that brings it back into 64 bits. */
  lemma Turn(n: nat, w: int, k: int)
    requires Wrapped(n) == w
    requires -0x8000_0000_0000_0000 <= 2 * w - k * 0x1_0000_0000_0000_0000 < 0x8000_0000_0000_0000
    ensures Wrapped(n + 1) == 2 * w - k * 0x1_0000_0000_0000_0000
  {
  }

  lemma UpTo35()
    ensures Wrapped(29) == -2340616713709551616
    ensures Wrapped(30) == -4681233427419103232
    ensures Wrapped(31) == 9084277218871345152
    ensures Wrapped(32) == -278189635966861312
    ensures Wrapped(33) == -556379271933722624
    ensures Wrapped(34) == -1112758543867445248
    ensures Wrapped(35) == -2225517087734890496
  {
    hide Wrapped;
    NoOverflowAt28();
    Turn(28, 8053063680000000000, 1);
    Turn(29, -2340616713709551616, 0);
    Turn(30, -4681233427419103232, -1);
    Turn(31, 9084277218871345152, 1);
    Turn(32, -278189635966861312, 0);
    Turn(33, -556379271933722624, 0);
    Turn(34, -1112758543867445248, 0);
  }

  lemma UpTo42()
    ensures Wrapped(36) == -4451034175469780992
    ensures Wrapped(37) == -8902068350939561984
    ensures Wrapped(38) == 642607371830427648
    ensures Wrapped(39) == 1285214743660855296
    ensures Wrapped(40) == 2570429487321710592
    ensures Wrapped(41) == 5140858974643421184
    ensures Wrapped(42) == -8165026124422709248
  {
    hide Wrapped;
    UpTo35();
    Turn(35, -2225517087734890496, 0);
    Turn(36, -4451034175469780992, 0);
    Turn(37, -8902068350939561984, -1);
    Turn(38, 642607371830427648, 0);
    Turn(39, 1285214743660855296, 0);
    Turn(40, 2570429487321710592, 0);
    Turn(41, 5140858974643421184, 1);
  }

  lemma UpTo49()
    ensures Wrapped(43) == 2116691824864133120
    ensures Wrapped(44) == 4233383649728266240
    ensures Wrapped(45) == 8466767299456532480
    ensures Wrapped(46) == -1513209474796486656
    ensures Wrapped(47) == -3026418949592973312
    ensures Wrapped(48) == -6052837899185946624
    ensures Wrapped(49) == 6341068275337658368
  {
    hide Wrapped;
    UpTo42();
    Turn(42, -8165026124422709248, -1);
    Turn(43, 2116691824864133120, 0);
    Turn(44, 4233383649728266240, 0);
    Turn(45, 8466767299456532480, 1);
    Turn(46, -1513209474796486656, 0);
    Turn(47, -3026418949592973312, 0);
    Turn(48, -6052837899185946624, -1);
  }

  lemma UpTo54()
    ensures Wrapped(50) == -5764607523034234880
    ensures Wrapped(51) == 6917529027641081856
    ensures Wrapped(52) == -4611686018427387904
    ensures Wrapped(53) == -9223372036854775808
    ensures Wrapped(54) == 0
  {
    hide Wrapped;
    UpTo49();
    Turn(49, 6341068275337658368, 1);
    Turn(50, -5764607523034234880, -1);
    Turn(51, 6917529027641081856, 1);
    Turn(52, -4611686018427387904, 0);
    Turn(53, -9223372036854775808, -1);
  }

  lemma {:induction false} ZeroFrom54(n: nat)
    requires n >= 54
    ensures Wrapped(n) == 0
  {
    UpTo54();
    if n > 54 { ZeroFrom54(n - 1); }
  }

  /** From the fifth doubling on the promise is the cap. */
  lemma PromiseIsCap(retryCount: int)
    requires retryCount >= 5
    ensures Promised(retryCount) == CAP
  {
    assert Pow2(4) == 16;
    Pow2Grows(4, Doublings(retryCount));
  }

  /** The promise spelled out: half a minute, doubled up to four minutes, then five. */
  lemma PromisedValues(retryCount: int)
    ensures Promised(retryCount) ==
            (if retryCount <= 1 then 30 else if retryCount == 2 then 60 else if retryCount == 3 then 120
             else if retryCount == 4 then 240 else 300) * SECOND
  {
    if retryCount >= 5 {
      PromiseIsCap(retryCount);
    } else {
      assert Pow2(0) == 1 && Pow2(1) == 2 && Pow2(2) == 4 && Pow2(3) == 8;
    }
  }

  lemma Overflowed(n: nat)
    requires n >= 29
    ensures Wrapped(n) >= CAP <==> n + 1 in LUCKY
    ensures n >= 54 ==> Wrapped(n) == 0
  {
    hide Wrapped;
    UpTo35();
    UpTo42();
    UpTo49();
    UpTo54();
    if n >= 54 { ZeroFrom54(n); }
  }

  /** The loop gives the promised duration for every retry count up to 29 and, beyond that, exactly for the ten
      counts whose overflowed value happens to exceed the cap; from the 55th retry on it gives zero. */
  lemma PromiseKeptExactlyWhen(retryCount: int)
    ensures Capped(Wrap(BASE * Pow2(Doublings(retryCount)))) == Promised(retryCount) <==>
            retryCount <= 29 || retryCount in LUCKY
    ensures retryCount >= 55 ==> Capped(Wrap(BASE * Pow2(Doublings(retryCount)))) == 0
  {
    var n := Doublings(retryCount);
    WrappedIs(n);
    if n <= 28 {
      NoOverflowUpTo29(n);
    } else {
      PromiseIsCap(retryCount);
      Overflowed(n);
    }
  }

  /** The promise grows with the retry count and never exceeds five minutes. */
  lemma PromisedMonotone(a: int, b: int)
    requires a <= b
    ensures BASE <= Promised(a) <= Promised(b) <= CAP
  {
    Pow2Grows(Doublings(a), Doublings(b));
  }
}
