/** Why the GPU matrix kernels can be compared bit for bit: their inputs are integers so small that every float32 sum is
  exact, whatever order and bracketing the matrix units use. */
module ExactSums {

  // ---- float32 ----

  function Exp2(e: int): real
    decreases if e < 0 then -e else e
  {
    if e == 0 then 1.0 else if e > 0 then 2.0 * Exp2(e - 1) else Exp2(e + 1) / 2.0
  }

  /** `m * 2^e` with 24 bits of m: exactly the finite values of IEEE 754 binary32. */
  ghost predicate IsFloat32(x: real) {
    exists m: int, e: int :: Scaled(x, m, e)
  }

  ghost predicate Scaled(x: real, m: int, e: int) {
    -0x100_0000 < m < 0x100_0000 && -149 <= e <= 104 && x == m as real * Exp2(e)
  }

  /** Any rounding mode at all: a value that needs no rounding stays as it is. */
  ghost predicate IsRounding(f: real -> real) {
    forall x :: IsFloat32(x) ==> f(x) == x
  }

  lemma SmallIntegers(n: int)
    requires -0x100_0000 < n < 0x100_0000
    ensures IsFloat32(n as real)
  {
    assert Exp2(0) == 1.0;
    assert Scaled(n as real, n, 0);
  }

  lemma Exp2Step(e: int)
    ensures Exp2(e + 1) == 2.0 * Exp2(e)
  {
  }

  lemma {:induction false} Exp2Positive(e: int)
    ensures Exp2(e) > 0.0
    decreases if e < 0 then -e else e
  {
    if e > 0 {
      Exp2Positive(e - 1);
    } else if e < 0 {
      Exp2Positive(e + 1);
    }
  }

  lemma {:induction false} Exp2Grows(e: int, f: int)
    requires e <= f
    ensures 0.0 < Exp2(e) <= Exp2(f)
    decreases f - e
  {
    hide Exp2;
    Exp2Positive(e);
    if e < f {
      Exp2Grows(e, f - 1);
      Exp2Step(f - 1);
    }
  }

  lemma Times(a: real, b: real, c: real)
    requires 0.0 <= a <= b && c >= 0.0
    ensures a * c <= b * c
  {
    assert (b - a) * c >= 0.0;
  }

  lemma IsScaled(x: real, m: int, e: int)
    requires -0x100_0000 < m < 0x100_0000 && -149 <= e <= 104 && x == m as real * Exp2(e)
    ensures IsFloat32(x)
  {
    assert Scaled(x, m, e);
  }

  lemma TimesBoth(a: real, b: real, c: real, d: real)
    requires 0.0 <= a <= b && 0.0 <= c <= d
    ensures a * c <= b * d
  {
    Times(a, b, c);
    assert b * (d - c) >= 0.0;
  }

  lemma NotPositive(a: real, c: real)
    requires a <= 0.0 && c >= 0.0
    ensures a * c <= 0.0
  {
    Times(0.0, -a, c);
  }

  lemma ScaledBounds(x: real, m: int, e: int)
    requires Scaled(x, m, e)
    ensures x <= 0xff_ffff as real * Exp2(104)
    ensures x > 0.0 ==> x >= Exp2(-149)
  {
    hide Exp2;
    Exp2Grows(e, 104);
    Exp2Grows(-149, e);
    if m <= 0 {
      NotPositive(m as real, Exp2(e));
      TimesBoth(0.0, 0xff_ffff as real, 0.0, Exp2(104));
    } else {
      TimesBoth(m as real, 0xff_ffff as real, Exp2(e), Exp2(104));
      TimesBoth(1.0, m as real, Exp2(-149), Exp2(e));
    }
  }

  /** The finite values lie between the two largest, and no positive one is smaller than the smallest. */
  lemma FloatEnds(x: real)
    ensures IsFloat32(0xff_ffff as real * Exp2(104)) && IsFloat32(Exp2(-149))
    ensures IsFloat32(x) ==> -(0xff_ffff as real * Exp2(104)) <= x <= 0xff_ffff as real * Exp2(104)
    ensures IsFloat32(x) && x > 0.0 ==> x >= Exp2(-149)
  {
    hide Exp2;
    IsScaled(0xff_ffff as real * Exp2(104), 0xff_ffff, 104);
    IsScaled(Exp2(-149), 1, -149);
    if IsFloat32(x) {
      var m, e :| Scaled(x, m, e);
      ScaledBounds(x, m, e);
      assert -x == (-m) as real * Exp2(e);
      ScaledBounds(-x, -m, e);
    }
  }

  lemma {:induction false} Exp2Whole(k: nat) returns (p: nat)
    ensures Exp2(k) == p as real
  {
    if k == 0 {
      p := 1;
    } else {
      var q := Exp2Whole(k - 1);
      p := 2 * q;
    }
  }

  /** The first integer that is not a float32 value: the bound on the sums cannot be moved past it. */
  lemma FirstGap()
    ensures IsFloat32(0x100_0000 as real) && !IsFloat32(0x100_0001 as real)
  {
    hide Exp2;
    FirstPower();
    if IsFloat32(0x100_0001 as real) {
      var m, e :| Scaled(0x100_0001 as real, m, e);
      if e <= 0 {
        Exp2Grows(e, 0);
        ZeroPower();
        var size := if m < 0 then -m else m;
        Times(Exp2(e), 1.0, size as real);
      } else {
        var p := Exp2Whole(e - 1);
        Exp2Step(e - 1);
        EvenProduct(m, p);
      }
    }
  }

  lemma ZeroPower()
    ensures Exp2(0) == 1.0
  {
  }

  lemma FirstPower()
    ensures IsFloat32(0x100_0000 as real)
  {
    assert Exp2(1) == 2.0;
    assert Scaled(0x100_0000 as real, 0x80_0000, 1);
  }

  lemma EvenProduct(m: int, p: nat)
    ensures m as real * (2.0 * p as real) != 0x100_0001 as real
  {
    assert m as real * (2.0 * p as real) == (2 * (m * p)) as real;
  }

  // ---- sums of integers ----

  function Sum(s: seq<int>): int {
    if s == [] then 0 else s[0] + Sum(s[1..])
  }

  lemma {:induction false} SumConcat(a: seq<int>, b: seq<int>)
    ensures Sum(a + b) == Sum(a) + Sum(b)
  {
    if a == [] {
      assert a + b == b;
    } else {
      assert (a + b)[1..] == a[1..] + b;
      SumConcat(a[1..], b);
    }
  }

  function Omit(s: seq<int>, i: nat): seq<int>
    requires i < |s|
  {
    s[..i] + s[i + 1..]
  }

  lemma Around(s: seq<int>, i: nat)
    requires i < |s|
    ensures s == s[..i] + [s[i]] + s[i + 1..]
  {
  }

  lemma SumOmit(s: seq<int>, i: nat)
    requires i < |s|
    ensures Sum(s) == s[i] + Sum(Omit(s, i))
  {
    Around(s, i);
    SumConcat(s[..i] + [s[i]], s[i + 1..]);
    SumConcat(s[..i], [s[i]]);
    SumConcat(s[..i], s[i + 1..]);
    assert [s[i]][1..] == [];
  }

  lemma CountOmit(s: seq<int>, i: nat)
    requires i < |s|
    ensures multiset(Omit(s, i)) == multiset(s) - multiset{s[i]}
  {
    hide Sum;
    Around(s, i);
    assert multiset(s) == multiset(s[..i]) + multiset{s[i]} + multiset(s[i + 1..]);
  }

  /** A sum does not depend on the order of its terms. */
  lemma {:induction false} SumPermuted(a: seq<int>, b: seq<int>)
    requires multiset(a) == multiset(b)
    ensures Sum(a) == Sum(b)
    decreases |a|
  {
    if a == [] {
      assert |multiset(b)| == |b|;
    } else {
      var i := Find(a[0], b, a);
      SumOmit(a, 0);
      SumOmit(b, i);
      CountOmit(a, 0);
      CountOmit(b, i);
      SumPermuted(Omit(a, 0), Omit(b, i));
    }
  }

  lemma Find(x: int, b: seq<int>, a: seq<int>) returns (i: nat)
    requires x in a && multiset(a) == multiset(b)
    ensures i < |b| && b[i] == x
  {
    assert x in multiset(b);
    i :| i < |b| && b[i] == x;
  }

  ghost predicate AllSmall(s: seq<int>) {
    forall x :: x in s ==> -4096 <= x <= 4096
  }

  lemma {:induction false} SumBound(s: seq<int>)
    requires AllSmall(s)
    ensures -4096 * |s| <= Sum(s) <= 4096 * |s|
  {
    if s != [] {
      assert s[0] in s;
      assert forall x :: x in s[1..] ==> x in s;
      SumBound(s[1..]);
    }
  }

  // ---- sums as the matrix units take them ----

  /** A bracketing of products: a product alone, a product added to a partial sum in one rounding, or two partial sums
    added. */
  datatype Tree = Product(p: int) | Fused(p: int, rest: Tree) | Add(left: Tree, right: Tree)

  function Terms(t: Tree): seq<int> {
    match t
    case Product(p) => [p]
    case Fused(p, rest) => [p] + Terms(rest)
    case Add(left, right) => Terms(left) + Terms(right)
  }

  /** The float32 result, rounded at every node. */
  function Eval(f: real -> real, t: Tree): real {
    match t
    case Product(p) => f(p as real)
    case Fused(p, rest) => f(p as real + Eval(f, rest))
    case Add(left, right) => f(Eval(f, left) + Eval(f, right))
  }

  ghost predicate SmallTerms(s: seq<int>) {
    |s| * 4096 < 0x100_0000 && AllSmall(s)
  }

  /** With n products of at most 4096 and n * 4096 < 2^24, the rounded sum is the exact one. */
  lemma {:induction false} Exact(f: real -> real, t: Tree)
    requires IsRounding(f) && SmallTerms(Terms(t))
    ensures Eval(f, t) == Sum(Terms(t)) as real
  {
    hide IsFloat32;
    SumBound(Terms(t));
    SmallIntegers(Sum(Terms(t)));
    match t
    case Product(p) =>
      assert [p][0] == p && [p][1..] == [];
    case Fused(p, rest) =>
      Parts([p], Terms(rest));
      Exact(f, rest);
      assert [p][1..] == [];
    case Add(left, right) =>
      Parts(Terms(left), Terms(right));
      Exact(f, left);
      Exact(f, right);
  }

  lemma Parts(a: seq<int>, b: seq<int>)
    requires SmallTerms(a + b)
    ensures SmallTerms(a) && SmallTerms(b) && Sum(a + b) == Sum(a) + Sum(b)
  {
    SumConcat(a, b);
    assert forall x :: x in a || x in b ==> x in a + b;
  }

  /** Any order, any bracketing, any rounding mode: the float32 sum is the integer sum of the products. */
  lemma AnyOrder(f: real -> real, t: Tree, products: seq<int>)
    requires IsRounding(f) && SmallTerms(products) && multiset(Terms(t)) == multiset(products)
    ensures Eval(f, t) == Sum(products) as real
  {
    SameTerms(Terms(t), products);
    Exact(f, t);
    SumPermuted(Terms(t), products);
  }

  lemma SameTerms(a: seq<int>, b: seq<int>)
    requires multiset(a) == multiset(b) && SmallTerms(b)
    ensures SmallTerms(a)
  {
    assert |multiset(a)| == |a| && |multiset(b)| == |b|;
    forall x | x in a ensures -4096 <= x <= 4096 {
      assert x in multiset(a);
      assert x in b;
    }
  }
}
