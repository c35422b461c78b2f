/** The 31-bit linear congruential generator that fills every kernel's tensors. */
module Lcg {
  import opened Powers

  /** One step, in exact arithmetic: the product and sum stay below 2^63, so the program's 64-bit arithmetic is exact,
    and masking by 2^31 - 1 keeps the remainder. */
  function Step(s: nat): (t: nat)
    requires s < 0x8000_0000
    ensures t < 0x8000_0000
    ensures s * 1103515245 + 12345 < 0x8000_0000_0000_0000
  {
    (s * 1103515245 + 12345) % 0x8000_0000
  }

  /** The state after `k` draws. */
  function Iter(s: nat, k: nat): (t: nat)
    requires s < 0x8000_0000
    ensures t < 0x8000_0000
  {
    if k == 0 then s else Step(Iter(s, k - 1))
  }

  // ---- powers of two ----

  /** 2^m divides x. */
  predicate Div2(m: nat, x: int) {
    m == 0 || (x % 2 == 0 && Div2(m - 1, x / 2))
  }

  lemma {:induction false} Div2Multiple(m: nat, x: int, y: int)
    requires x == Pow2(m) * y
    ensures Div2(m, x)
  {
    if m > 0 {
      assert x == 2 * (Pow2(m - 1) * y);
      Div2Multiple(m - 1, Pow2(m - 1) * y, y);
    }
  }

  lemma {:induction false} Div2Quotient(m: nat, x: int) returns (y: int)
    requires Div2(m, x)
    ensures x == Pow2(m) * y
  {
    if m == 0 {
      y := x;
    } else {
      y := Div2Quotient(m - 1, x / 2);
      assert x == 2 * (Pow2(m - 1) * y);
    }
  }

  lemma Pow2Of31()
    ensures Pow2(31) == 0x8000_0000
  {
    assert Pow2(10) == 1024;
    assert Pow2(20) == 1024 * 1024;
    assert Pow2(30) == 1024 * 1024 * 1024;
  }

  lemma Div2Of31(x: int)
    ensures Div2(31, x) <==> x % 0x8000_0000 == 0
  {
    hide Div2, Pow2;
    Pow2Of31();
    if Div2(31, x) {
      var y := Div2Quotient(31, x);
    }
    if x % 0x8000_0000 == 0 {
      Div2Multiple(31, x, x / 0x8000_0000);
    }
  }

  lemma Twice(p: int, x: int)
    ensures (2 * p + x) % 2 == x % 2 && (2 * p) / 2 == p
  {
  }

  lemma HalfTimes(h: int, q: int)
    ensures 2 * h * q == 2 * (h * q)
  {
  }

  lemma OddTimes(x: int, q: int)
    requires q % 2 == 1
    ensures (x * q) % 2 == x % 2
    ensures x % 2 == 0 ==> (x * q) / 2 == x / 2 * q
  {
    var h := q / 2;
    assert q == 2 * h + 1;
    HalfTimes(h, x);
    assert x * q == 2 * (h * x) + x;
    Twice(h * x, x);
    if x % 2 == 0 {
      assert x == 2 * (x / 2);
      HalfTimes(x / 2, q);
      Twice(x / 2 * q, 0);
    }
  }

  /** An odd factor never helps to divide by a power of two. */
  lemma {:induction false} OddFactor(m: nat, x: int, q: int)
    requires q % 2 == 1
    ensures Div2(m, x * q) <==> Div2(m, x)
  {
    if m > 0 {
      OddTimes(x, q);
      if x % 2 == 0 {
        OddFactor(m - 1, x / 2, q);
      }
    }
  }

  // ---- the geometric sum ----

  /** 1 + a + ... + a^(k-1) for the multiplier a. */
  function Sum(k: nat): nat {
    if k == 0 then 0 else 1103515245 * Sum(k - 1) + 1
  }

  lemma SumStep(k: nat)
    requires k > 0
    ensures Sum(k) == 1103515245 * Sum(k - 1) + 1
  {
  }

  lemma StepParity(k: nat)
    requires k > 0
    ensures Sum(k) % 2 == (Sum(k - 1) + 1) % 2
  {
    hide Sum;
    SumStep(k);
    var x := Sum(k - 1);
    assert Sum(k) == 2 * (551757622 * x) + (x + 1);
    Twice(551757622 * x, x + 1);
  }

  lemma NextParity(x: int, y: int)
    requires x % 2 == y % 2
    ensures (x + 1) % 2 == (y + 1) % 2
  {
  }

  lemma {:induction false} SumParity(k: nat)
    ensures Sum(k) % 2 == k % 2
  {
    hide Sum;
    if k == 0 {
      NoSum();
    } else {
      SumParity(k - 1);
      StepParity(k);
      NextParity(Sum(k - 1), k - 1);
    }
  }

  lemma NoSum()
    ensures Sum(0) == 0
  {
  }

  lemma Distribute(a: int, x: int, y: int)
    ensures x * (a * y + 1) == a * (x * y) + x
  {
    assert x * (a * y) == a * (x * y);
  }

  lemma {:induction false} SumAdd(m: nat, n: nat)
    ensures Sum(m + n) == Sum(m) + Sum(n) + 1103515244 * (Sum(m) * Sum(n))
  {
    if n > 0 {
      SumAdd(m, n - 1);
      Distribute(1103515245, Sum(m), Sum(n - 1));
      SumStep(m + n);
      SumStep(n);
      SumAddStep(Sum(m), Sum(n - 1), Sum(m) * Sum(n - 1), Sum(m) * Sum(n), Sum(m + n - 1));
    }
  }

  lemma SumAddStep(x: int, y: int, xy: int, next: int, both: int)
    requires both == x + y + 1103515244 * xy && next == 1103515245 * xy + x
    ensures 1103515245 * both + 1 == x + (1103515245 * y + 1) + 1103515244 * next
  {
  }

  lemma SumDouble(n: nat)
    ensures Sum(2 * n) == 2 * (Sum(n) * (551757622 * Sum(n) + 1))
    ensures (551757622 * Sum(n) + 1) % 2 == 1
  {
    hide Sum;
    SumAdd(n, n);
    DoubleSum(Sum(n), Sum(n) * Sum(n));
    Distribute(551757622, Sum(n), Sum(n));
    Twice(275878811 * Sum(n), 1);
  }

  lemma DoubleSum(x: int, xx: int)
    ensures x + x + 1103515244 * xx == 2 * (551757622 * xx + x)
  {
  }

  /** The sum of k powers of the multiplier is divisible by exactly the powers of two that divide k. */
  lemma {:induction false} SumDivides(m: nat, k: nat)
    ensures Div2(m, Sum(k)) <==> Div2(m, k)
  {
    hide Sum;
    if m > 0 {
      SumParity(k);
      if k % 2 == 0 {
        var n := k / 2;
        SumDouble(n);
        OddFactor(m - 1, Sum(n), 551757622 * Sum(n) + 1);
        SumDivides(m - 1, n);
      }
    }
  }

  // ---- the period ----

  /** The states without the reduction. */
  function Free(s: nat, k: nat): nat {
    if k == 0 then s else 1103515245 * Free(s, k - 1) + 12345
  }

  lemma Reduce(u: nat)
    ensures Step(u % 0x8000_0000) == (1103515245 * u + 12345) % 0x8000_0000
  {
    var q, r := u / 0x8000_0000, u % 0x8000_0000;
    Shift(1103515245 * q, 1103515245 * r + 12345);
  }

  lemma Shift(q: int, y: int)
    ensures (0x8000_0000 * q + y) % 0x8000_0000 == y % 0x8000_0000
  {
  }

  lemma Congruent(u: int, s: nat)
    requires s < 0x8000_0000
    ensures u % 0x8000_0000 == s <==> (u - s) % 0x8000_0000 == 0
  {
    Shift((u - s) / 0x8000_0000, (u - s) % 0x8000_0000 + s);
  }

  lemma {:induction false} IterIsFree(s: nat, k: nat)
    requires s < 0x8000_0000
    ensures Iter(s, k) == Free(s, k) % 0x8000_0000
  {
    if k > 0 {
      IterIsFree(s, k - 1);
      Reduce(Free(s, k - 1));
    }
  }

  lemma {:induction false} FreeGap(s: nat, k: nat)
    ensures Free(s, k) - s == Sum(k) * (1103515244 * s + 12345)
  {
    if k > 0 {
      FreeGap(s, k - 1);
      Distribute(1103515245, 1103515244 * s + 12345, Sum(k - 1));
    }
  }

  /** From any seed, the state comes back after k draws exactly when 2^31 divides k. */
  lemma ReturnIff(s: nat, k: nat)
    requires s < 0x8000_0000
    ensures Iter(s, k) == s <==> k % 0x8000_0000 == 0
  {
    hide Iter, Sum, Free, Div2;
    var d := 1103515244 * s + 12345;
    IterIsFree(s, k);
    FreeGap(s, k);
    Div2Of31(Sum(k) * d);
    OddFactor(31, Sum(k), d);
    SumDivides(31, k);
    Div2Of31(k);
    Congruent(Free(s, k), s);
  }

  lemma {:induction false} IterAdd(s: nat, i: nat, k: nat)
    requires s < 0x8000_0000
    ensures Iter(s, i + k) == Iter(Iter(s, i), k)
  {
    if k > 0 {
      IterAdd(s, i, k - 1);
    }
  }

  /** No state repeats within 2^31 draws of any seed. */
  lemma NoRepeat(s: nat, i: nat, j: nat)
    requires s < 0x8000_0000 && i < j < i + 0x8000_0000
    ensures Iter(s, i) != Iter(s, j)
  {
    hide Iter;
    IterAdd(s, i, j - i);
    ReturnIff(Iter(s, i), j - i);
  }

  ghost function Visited(s: nat, n: nat): set<nat>
    requires s < 0x8000_0000
  {
    if n == 0 then {} else Visited(s, n - 1) + {Iter(s, n - 1)}
  }

  ghost function Below(n: nat): set<nat> {
    if n == 0 then {} else Below(n - 1) + {n - 1}
  }

  lemma {:induction false} BelowSize(n: nat)
    ensures |Below(n)| == n && forall x: nat :: x in Below(n) <==> x < n
  {
    if n > 0 {
      BelowSize(n - 1);
    }
  }

  lemma {:induction false} VisitedAt(s: nat, n: nat, x: nat) returns (k: nat)
    requires s < 0x8000_0000 && x in Visited(s, n)
    ensures k < n && Iter(s, k) == x
  {
    hide Iter;
    if x == Iter(s, n - 1) {
      k := n - 1;
    } else {
      k := VisitedAt(s, n - 1, x);
    }
  }

  lemma {:induction false} VisitedSize(s: nat, n: nat)
    requires s < 0x8000_0000 && n <= 0x8000_0000
    ensures |Visited(s, n)| == n
  {
    hide Iter;
    if n > 0 {
      VisitedSize(s, n - 1);
      if Iter(s, n - 1) in Visited(s, n - 1) {
        var k := VisitedAt(s, n - 1, Iter(s, n - 1));
        NoRepeat(s, k, n - 1);
        assert false;
      }
    }
  }

  lemma SameSize(a: set<nat>, b: set<nat>)
    requires a <= b && |a| == |b|
    ensures a == b
  {
    assert |b - a| == |b| - |a|;
    assert b == a + (b - a);
  }

  /** From any seed, every one of the 2^31 states occurs within the first 2^31 draws. */
  lemma EveryStateOccurs(s: nat, t: nat) returns (k: nat)
    requires s < 0x8000_0000 && t < 0x8000_0000
    ensures k < 0x8000_0000 && Iter(s, k) == t
  {
    hide Iter, Visited, Below;
    VisitedSize(s, 0x8000_0000);
    forall x | x in Visited(s, 0x8000_0000) ensures x < 0x8000_0000 {
      var i := VisitedAt(s, 0x8000_0000, x);
    }
    BelowSize(0x8000_0000);
    assert Visited(s, 0x8000_0000) <= Below(0x8000_0000);
    SameSize(Visited(s, 0x8000_0000), Below(0x8000_0000));
    k := VisitedAt(s, 0x8000_0000, t);
  }

  /** One step permutes the states. */
  lemma StepInjective(x: nat, y: nat)
    requires x < 0x8000_0000 && y < 0x8000_0000 && Step(x) == Step(y)
    ensures x == y
  {
    hide Step;
    var k := EveryStateOccurs(x, y);
    assert Iter(x, 1) == Step(Iter(x, 0)) && Iter(x, k + 1) == Step(y);
    if k > 0 {
      NoRepeat(x, 1, k + 1);
      assert false;
    }
  }

  // ---- filling a tensor ----

  /** A small signed integer from a state: seven of its bits, minus 64. */
  function Draw(s: nat): (v: int)
    ensures -64 <= v <= 63
  {
    s / 256 % 128 - 64
  }

  /** A draw is bits 8 to 14 of the state, and nothing else of it. */
  lemma DrawBits(high: nat, bits: nat, low: nat)
    requires bits < 128 && low < 256
    ensures Draw(high * 0x8000 + bits * 256 + low) == bits - 64
  {
    var s := high * 0x8000 + bits * 256 + low;
    assert s == (high * 128 + bits) * 256 + low;
    assert s / 256 == high * 128 + bits;
  }

  lemma NoStep(s: nat)
    requires s < 0x8000_0000
    ensures Iter(s, 0) == s
  {
  }

  lemma OneStep(s: nat, k: nat, q: nat, t: nat)
    requires s < 0x8000_0000 && t < 0x8000_0000 && Iter(s, k) * 1103515245 + 12345 == q * 0x8000_0000 + t
    ensures Iter(s, k + 1) == t
  {
    hide Step, Iter;
    var x := Iter(s, k) * 1103515245 + 12345;
    Masked(x, q, t);
    NextState(s, k);
  }

  lemma Masked(x: nat, q: nat, t: nat)
    requires x == q * 0x8000_0000 + t && t < 0x8000_0000
    ensures x % 0x8000_0000 == t
  {
  }

  lemma NextState(s: nat, k: nat)
    requires s < 0x8000_0000
    ensures Iter(s, k + 1) == (Iter(s, k) * 1103515245 + 12345) % 0x8000_0000
  {
  }

  /** The first states and draws from the seed the kernels start with. */
  lemma FirstDraws()
    ensures Iter(12345, 0) == 12345
    ensures Iter(12345, 1) == 1406932606 && Draw(Iter(12345, 1)) == -42
    ensures Iter(12345, 2) == 654583775 && Draw(Iter(12345, 2)) == -25
    ensures Iter(12345, 3) == 1449466924 && Draw(Iter(12345, 3)) == -36
  {
    hide Iter, Step, Draw;
    NoStep(12345);
    OneStep(12345, 0, 6343, 1406932606);
    DrawBits(42936, 22, 126);
    OneStep(12345, 1, 722972480, 654583775);
    DrawBits(19976, 39, 223);
    OneStep(12345, 2, 336367252, 1449466924);
    DrawBits(44234, 28, 44);
  }

  /** Fill an array with successive draws, in place, and hand the state on. */
  method Fill(a: array<int>, seed: nat) returns (s: nat)
    requires seed < 0x8000_0000
    modifies a
    ensures s == Iter(seed, a.Length)
    ensures forall i :: 0 <= i < a.Length ==> a[i] == Draw(Iter(seed, i + 1))
  {
    s := seed;
    for i := 0 to a.Length
      invariant s == Iter(seed, i)
      invariant forall k :: 0 <= k < i ==> a[k] == Draw(Iter(seed, k + 1))
    {
      s := Step(s);
      a[i] := s / 256 % 128 - 64;
    }
  }
}
