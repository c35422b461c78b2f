/** The integer reference of the matrix-product and convolution kernels, in place, and its agreement with any float32
  evaluation of the same products. */
module Kernels {
  import opened ExactSums
  import Folds

  /** Element `t` of row `i` of a table stored row after row. */
  function Index(i: nat, rows: nat, t: nat, width: nat): (r: nat)
    requires i < rows && t < width
    ensures r < rows * width
  {
    RowsBefore(i + 1, rows, width);
    i * width + t
  }

  lemma RowsBefore(i: nat, rows: nat, width: nat)
    requires 1 <= i <= rows
    ensures i * width <= rows * width && (i - 1) * width + width == i * width
  {
    assert (rows - i) * width >= 0;
  }

  ghost predicate Entries(s: seq<int>) {
    forall i :: 0 <= i < |s| ==> -64 <= s[i] <= 63
  }

  lemma NonNegative(p: nat, q: nat)
    ensures p * q >= 0
  {
  }

  lemma SmallProduct(x: int, y: int)
    requires -64 <= x <= 63 && -64 <= y <= 63
    ensures -4096 <= x * y <= 4096
  {
    NonNegative(64 - x, 64 + y);
    NonNegative(64 + x, 64 - y);
    NonNegative(64 - x, 64 - y);
    NonNegative(64 + x, 64 + y);
    assert (64 - x) * (64 + y) + (64 + x) * (64 - y) == 8192 - 2 * (x * y);
    assert (64 - x) * (64 - y) + (64 + x) * (64 + y) == 8192 + 2 * (x * y);
  }

  // ---- the matrix product ----

  datatype Shape = Shape(m: nat, k: nat, n: nat)

  ghost predicate Fits(g: Shape, a: seq<int>, b: seq<int>) {
    |a| == g.m * g.k && |b| == g.k * g.n
  }

  /** The products of cell (i, j), the first `len` of them. */
  function Products(g: Shape, a: seq<int>, b: seq<int>, i: nat, j: nat, len: nat): (s: seq<int>)
    requires Fits(g, a, b) && i < g.m && j < g.n && len <= g.k
    ensures |s| == len
  {
    seq(len, t requires 0 <= t < len => a[Index(i, g.m, t, g.k)] * b[Index(t, g.k, j, g.n)])
  }

  function Cell(g: Shape, a: seq<int>, b: seq<int>, i: nat, j: nat): int
    requires Fits(g, a, b) && i < g.m && j < g.n
  {
    Sum(Products(g, a, b, i, j, g.k))
  }

  /** A table stored row after row. */
  function Flatten<T>(rows: seq<seq<T>>): seq<T> {
    if rows == [] then [] else Flatten(rows[..|rows| - 1]) + rows[|rows| - 1]
  }

  lemma {:induction false} FlattenAt<T>(rows: seq<seq<T>>, width: nat, i: nat, t: nat)
    requires (forall k :: 0 <= k < |rows| ==> |rows[k]| == width) && i < |rows| && t < width
    ensures |Flatten(rows)| == |rows| * width && Flatten(rows)[Index(i, |rows|, t, width)] == rows[i][t]
  {
    var n := |rows| - 1;
    FlattenLength(rows, width);
    FlattenLength(rows[..n], width);
    RowsBefore(n + 1, |rows|, width);
    if i < n {
      FlattenAt(rows[..n], width, i, t);
    }
  }

  lemma {:induction false} FlattenLength<T>(rows: seq<seq<T>>, width: nat)
    requires forall k :: 0 <= k < |rows| ==> |rows[k]| == width
    ensures |Flatten(rows)| == |rows| * width
  {
    if rows != [] {
      FlattenLength(rows[..|rows| - 1], width);
      RowsBefore(|rows|, |rows|, width);
    }
  }

  /** On matrices stored row after row, cell (i, j) sums the products of row i of the one with column j of the other. */
  lemma CellOfMatrices(g: Shape, p: seq<seq<int>>, q: seq<seq<int>>, i: nat, j: nat, t: nat)
    requires |p| == g.m && |q| == g.k && i < g.m && j < g.n && t < g.k
    requires (forall k :: 0 <= k < |p| ==> |p[k]| == g.k) && (forall k :: 0 <= k < |q| ==> |q[k]| == g.n)
    ensures Fits(g, Flatten(p), Flatten(q))
    ensures Products(g, Flatten(p), Flatten(q), i, j, g.k)[t] == p[i][t] * q[t][j]
  {
    FlattenLength(p, g.k);
    FlattenLength(q, g.n);
    FlattenAt(p, g.k, i, t);
    FlattenAt(q, g.n, t, j);
  }

  /** The float32 bit patterns of the first `j` cells of row `i`. */
  function RowBits(g: Shape, a: seq<int>, b: seq<int>, bits: int -> nat, i: nat, j: nat): seq<int>
    requires Fits(g, a, b) && i < g.m && j <= g.n
  {
    if j == 0 then [] else RowBits(g, a, b, bits, i, j - 1) + [bits(Cell(g, a, b, i, j - 1))]
  }

  /** The bit patterns of the first `i` rows, row after row. */
  function AllBits(g: Shape, a: seq<int>, b: seq<int>, bits: int -> nat, i: nat): seq<int>
    requires Fits(g, a, b) && i <= g.m
  {
    if i == 0 then [] else AllBits(g, a, b, bits, i - 1) + RowBits(g, a, b, bits, i - 1, g.n)
  }

  lemma OneMoreTerm(s: seq<int>, x: int)
    ensures Sum(s + [x]) == Sum(s) + x
  {
    SumConcat(s, [x]);
    assert [x][1..] == [];
  }

  method CellSum(g: Shape, a: array<int>, b: array<int>, i: nat, j: nat) returns (acc: int)
    requires Fits(g, a[..], b[..]) && i < g.m && j < g.n
    ensures acc == Cell(g, a[..], b[..], i, j)
  {
    acc := 0;
    for t := 0 to g.k
      invariant acc == Sum(Products(g, a[..], b[..], i, j, t))
    {
      var x, y := Index(i, g.m, t, g.k), Index(t, g.k, j, g.n);
      OneMoreTerm(Products(g, a[..], b[..], i, j, t), a[x] * b[y]);
      assert Products(g, a[..], b[..], i, j, t + 1) == Products(g, a[..], b[..], i, j, t) + [a[x] * b[y]];
      acc := acc + a[x] * b[y];
    }
  }

  lemma OneMoreResult(c: nat, s: seq<int>, u: int)
    ensures Folds.Check(c, s + [u]) == Folds.CheckStep(Folds.Check(c, s), u)
  {
    assert (s + [u])[..|s|] == s;
  }

  /** One row of the product folded into the checksum of the cells before it. */
  method GemmRow(g: Shape, a: array<int>, b: array<int>, i: nat, bits: int -> nat, c: nat, ghost start: nat,
                 ghost done: seq<int>) returns (d: nat)
    requires Fits(g, a[..], b[..]) && i < g.m && c == Folds.Check(start, done)
    ensures d == Folds.Check(start, done + RowBits(g, a[..], b[..], bits, i, g.n))
  {
    hide Folds.CheckStep, Folds.Check;
    assert done + [] == done;
    d := c;
    for j := 0 to g.n
      invariant d == Folds.Check(start, done + RowBits(g, a[..], b[..], bits, i, j))
    {
      var acc := CellSum(g, a, b, i, j);
      ghost var row := RowBits(g, a[..], b[..], bits, i, j);
      OneMoreResult(start, done + row, bits(acc));
      assert done + (row + [bits(acc)]) == done + row + [bits(acc)];
      d := Folds.CheckStep(d, bits(acc));
    }
  }

  /** The checksum of the whole product, folded cell by cell in row-major order. */
  method Gemm(g: Shape, a: array<int>, b: array<int>, seed: nat, bits: int -> nat) returns (c: nat)
    requires Fits(g, a[..], b[..])
    ensures c == Folds.Check(seed % 0x1_0000_0000_0000, AllBits(g, a[..], b[..], bits, g.m))
  {
    hide Folds.CheckStep;
    ghost var start := seed % 0x1_0000_0000_0000;
    c := seed % 0x1_0000_0000_0000;
    for i := 0 to g.m
      invariant c == Folds.Check(start, AllBits(g, a[..], b[..], bits, i))
    {
      c := GemmRow(g, a, b, i, bits, c, start, AllBits(g, a[..], b[..], bits, i));
    }
  }

  /** Every cell of the product, computed in float32 in any order and bracketing, is the integer of the reference. */
  lemma GemmCellExact(g: Shape, a: seq<int>, b: seq<int>, i: nat, j: nat, f: real -> real, t: Tree)
    requires Fits(g, a, b) && i < g.m && j < g.n && Entries(a) && Entries(b) && g.k * 4096 < 0x100_0000
    requires IsRounding(f) && multiset(Terms(t)) == multiset(Products(g, a, b, i, j, g.k))
    ensures Eval(f, t) == Cell(g, a, b, i, j) as real
  {
    var products := Products(g, a, b, i, j, g.k);
    forall x | x in products ensures -4096 <= x <= 4096 {
      var l: nat :| l < g.k && products[l] == x;
      SmallProduct(a[Index(i, g.m, l, g.k)], b[Index(l, g.k, j, g.n)]);
    }
    AnyOrder(f, t, products);
  }

  // ---- the convolution ----

  /** Channels, height, width, window and stride; the padding is half the window. */
  datatype Window = Window(cin: nat, h: nat, w: nat, ks: nat, stride: nat) {
    ghost predicate Fits(x: seq<int>, k: seq<int>) {
      |x| == cin * h * w && |k| == cin * ks * ks
    }

    function Pad(): nat {
      ks / 2
    }
  }

  /** The weight of tap (ci, ky, kx) of one output channel. */
  function Weight(v: Window, k: seq<int>, ci: nat, ky: nat, kx: nat): int
    requires |k| == v.cin * v.ks * v.ks && ci < v.cin && ky < v.ks && kx < v.ks
  {
    k[Index(Index(ci, v.cin, ky, v.ks), v.cin * v.ks, kx, v.ks)]
  }

  predicate Inside(v: Window, y: int, x: int) {
    0 <= y < v.h && 0 <= x < v.w
  }

  /** An input pixel, zero outside the image. */
  function Pixel(v: Window, x: seq<int>, ci: nat, yy: int, xx: int): int
    requires |x| == v.cin * v.h * v.w && ci < v.cin
  {
    if Inside(v, yy, xx) then x[Index(Index(ci, v.cin, yy, v.h), v.cin * v.h, xx, v.w)] else 0
  }

  function Tap(v: Window, x: seq<int>, k: seq<int>, oy: nat, ox: nat, ci: nat, ky: nat, kx: nat): int
    requires v.Fits(x, k) && ci < v.cin && ky < v.ks && kx < v.ks
  {
    Weight(v, k, ci, ky, kx) * Pixel(v, x, ci, oy * v.stride + ky - v.Pad(), ox * v.stride + kx - v.Pad())
  }

  function TapsX(v: Window, x: seq<int>, k: seq<int>, oy: nat, ox: nat, ci: nat, ky: nat, n: nat): (s: seq<int>)
    requires v.Fits(x, k) && ci < v.cin && ky < v.ks && n <= v.ks
    ensures |s| == n
  {
    if n == 0 then [] else TapsX(v, x, k, oy, ox, ci, ky, n - 1) + [Tap(v, x, k, oy, ox, ci, ky, n - 1)]
  }

  function TapsY(v: Window, x: seq<int>, k: seq<int>, oy: nat, ox: nat, ci: nat, n: nat): (s: seq<int>)
    requires v.Fits(x, k) && ci < v.cin && n <= v.ks
  {
    if n == 0 then [] else TapsY(v, x, k, oy, ox, ci, n - 1) + TapsX(v, x, k, oy, ox, ci, n - 1, v.ks)
  }

  /** All taps of an output pixel over the padded image, the padding's zeros included. */
  function Taps(v: Window, x: seq<int>, k: seq<int>, oy: nat, ox: nat, n: nat): (s: seq<int>)
    requires v.Fits(x, k) && n <= v.cin
  {
    if n == 0 then [] else Taps(v, x, k, oy, ox, n - 1) + TapsY(v, x, k, oy, ox, n - 1, v.ks)
  }

  /** The weights of one of `cout` output channels. */
  function Channel(v: Window, w: seq<int>, cout: nat, co: nat): (k: seq<int>)
    requires |w| == cout * (v.cin * v.ks * v.ks) && co < cout
    ensures |k| == v.cin * v.ks * v.ks
  {
    var size := v.cin * v.ks * v.ks;
    RowsBefore(co + 1, cout, size);
    w[co * size..co * size + size]
  }

  lemma Distribute(a: int, b: int, c: int, k: int)
    ensures (a * b + c) * k == a * (b * k) + c * k
  {
    assert a * b * k == a * (b * k);
  }

  /** Where the weight of tap (ci, ky, kx) of channel `co` is stored. */
  function WeightPlace(v: Window, co: nat, ci: nat, ky: nat, kx: nat): nat {
    ((co * v.cin + ci) * v.ks + ky) * v.ks + kx
  }

  /** The flat index of a weight is that of its channel and, inside it, that of its tap. */
  lemma WeightIndex(v: Window, cout: nat, co: nat, ci: nat, ky: nat, kx: nat)
    requires co < cout && ci < v.cin && ky < v.ks && kx < v.ks
    ensures WeightPlace(v, co, ci, ky, kx)
         == co * (v.cin * v.ks * v.ks) + Index(Index(ci, v.cin, ky, v.ks), v.cin * v.ks, kx, v.ks)
  {
    Distribute(co, v.cin, ci, v.ks);
    Distribute(co, v.cin * v.ks, ci * v.ks + ky, v.ks);
  }

  /** One output pixel of one channel, skipping the taps that fall outside the image. */
  method ConvPixel(v: Window, x: array<int>, w: array<int>, cout: nat, co: nat, oy: nat, ox: nat) returns (acc: int)
    requires x.Length == v.cin * v.h * v.w && w.Length == cout * (v.cin * v.ks * v.ks) && co < cout
    ensures acc == Sum(Taps(v, x[..], Channel(v, w[..], cout, co), oy, ox, v.cin))
  {
    hide Weight, Pixel, Channel, WeightPlace;
    ghost var k := Channel(v, w[..], cout, co);
    acc := 0;
    for ci := 0 to v.cin
      invariant acc == Sum(Taps(v, x[..], k, oy, ox, ci))
    {
      for ky := 0 to v.ks
        invariant acc == Sum(Taps(v, x[..], k, oy, ox, ci)) + Sum(TapsY(v, x[..], k, oy, ox, ci, ky))
      {
        for kx := 0 to v.ks
          invariant acc == Sum(Taps(v, x[..], k, oy, ox, ci)) + Sum(TapsY(v, x[..], k, oy, ox, ci, ky))
                           + Sum(TapsX(v, x[..], k, oy, ox, ci, ky, kx))
        {
          var yy, xx := oy * v.stride + ky - v.Pad(), ox * v.stride + kx - v.Pad();
          OneMoreTerm(TapsX(v, x[..], k, oy, ox, ci, ky, kx), Tap(v, x[..], k, oy, ox, ci, ky, kx));
          OutsideIsZero(v, x[..], ci, yy, xx);
          if Inside(v, yy, xx) {
            var at := WeightPlace(v, co, ci, ky, kx);
            WeightAt(v, w[..], cout, co, ci, ky, kx);
            acc := acc + w[at] * Pixel(v, x[..], ci, yy, xx);
          }
        }
        SumConcat(TapsY(v, x[..], k, oy, ox, ci, ky), TapsX(v, x[..], k, oy, ox, ci, ky, v.ks));
      }
      SumConcat(Taps(v, x[..], k, oy, ox, ci), TapsY(v, x[..], k, oy, ox, ci, v.ks));
    }
  }

  lemma WeightAt(v: Window, w: seq<int>, cout: nat, co: nat, ci: nat, ky: nat, kx: nat)
    requires |w| == cout * (v.cin * v.ks * v.ks) && co < cout && ci < v.cin && ky < v.ks && kx < v.ks
    ensures var at := WeightPlace(v, co, ci, ky, kx); at < |w| && w[at] == Weight(v, Channel(v, w, cout, co), ci, ky, kx)
  {
    hide WeightPlace;
    WeightIndex(v, cout, co, ci, ky, kx);
    RowsBefore(co + 1, cout, v.cin * v.ks * v.ks);
  }

  lemma OutsideIsZero(v: Window, x: seq<int>, ci: nat, yy: int, xx: int)
    requires |x| == v.cin * v.h * v.w && ci < v.cin
    ensures !Inside(v, yy, xx) ==> Pixel(v, x, ci, yy, xx) == 0
  {
  }

  function NonZero(s: seq<int>): seq<int> {
    if s == [] then [] else (if s[0] == 0 then [] else [s[0]]) + NonZero(s[1..])
  }

  lemma {:induction false} SumNonZero(s: seq<int>)
    ensures Sum(NonZero(s)) == Sum(s)
  {
    if s != [] {
      SumNonZero(s[1..]);
      SumConcat(if s[0] == 0 then [] else [s[0]], NonZero(s[1..]));
      assert [s[0]][1..] == [];
    }
  }

  lemma {:induction false} NonZeroIn(s: seq<int>)
    ensures forall x :: x in NonZero(s) <==> x in s && x != 0
  {
    if s != [] {
      NonZeroIn(s[1..]);
    }
  }

  lemma {:induction false} TapsXSmall(v: Window, x: seq<int>, k: seq<int>, oy: nat, ox: nat, ci: nat, ky: nat, n: nat)
    requires v.Fits(x, k) && Entries(x) && Entries(k) && ci < v.cin && ky < v.ks && n <= v.ks
    ensures AllSmall(TapsX(v, x, k, oy, ox, ci, ky, n))
  {
    if n > 0 {
      TapsXSmall(v, x, k, oy, ox, ci, ky, n - 1);
      SmallProduct(Weight(v, k, ci, ky, n - 1),
                   Pixel(v, x, ci, oy * v.stride + ky - v.Pad(), ox * v.stride + (n - 1) - v.Pad()));
    }
  }

  lemma {:induction false} TapsYSmall(v: Window, x: seq<int>, k: seq<int>, oy: nat, ox: nat, ci: nat, n: nat)
    requires v.Fits(x, k) && Entries(x) && Entries(k) && ci < v.cin && n <= v.ks
    ensures AllSmall(TapsY(v, x, k, oy, ox, ci, n))
  {
    if n > 0 {
      TapsYSmall(v, x, k, oy, ox, ci, n - 1);
      TapsXSmall(v, x, k, oy, ox, ci, n - 1, v.ks);
    }
  }

  lemma {:induction false} TapsSmall(v: Window, x: seq<int>, k: seq<int>, oy: nat, ox: nat, n: nat)
    requires v.Fits(x, k) && Entries(x) && Entries(k) && n <= v.cin
    ensures AllSmall(Taps(v, x, k, oy, ox, n))
  {
    if n > 0 {
      TapsSmall(v, x, k, oy, ox, n - 1);
      TapsYSmall(v, x, k, oy, ox, n - 1, v.ks);
    }
  }

  lemma SameNonZero(a: seq<int>, b: seq<int>)
    requires multiset(NonZero(a)) == multiset(NonZero(b))
    ensures Sum(a) == Sum(b)
    ensures AllSmall(b) ==> AllSmall(a)
  {
    SumNonZero(a);
    SumNonZero(b);
    SumPermuted(NonZero(a), NonZero(b));
    NonZeroIn(a);
    NonZeroIn(b);
    forall x | x in a && x != 0 ensures x in b {
      assert x in multiset(NonZero(a));
      assert x in NonZero(b);
    }
  }

  /** An output pixel computed in float32 from the same taps, in any order and bracketing and with any of the
    padding's zeros left out or put in, is the integer of the reference. */
  lemma ConvPixelExact(v: Window, x: seq<int>, k: seq<int>, oy: nat, ox: nat, f: real -> real, t: Tree)
    requires v.Fits(x, k) && Entries(x) && Entries(k) && IsRounding(f) && |Terms(t)| * 4096 < 0x100_0000
    requires multiset(NonZero(Terms(t))) == multiset(NonZero(Taps(v, x, k, oy, ox, v.cin)))
    ensures Eval(f, t) == Sum(Taps(v, x, k, oy, ox, v.cin)) as real
  {
    TapsSmall(v, x, k, oy, ox, v.cin);
    SameNonZero(Terms(t), Taps(v, x, k, oy, ox, v.cin));
    Exact(f, t);
  }

  // ---- the whole convolution ----

  /** `oh` by `ow` output pixels of `cout` channels, from weights stored channel after channel. */
  datatype Layer = Layer(v: Window, cout: nat, oh: nat, ow: nat, bits: int -> nat) {
    ghost predicate Fits(x: seq<int>, w: seq<int>) {
      |x| == v.cin * v.h * v.w && |w| == cout * (v.cin * v.ks * v.ks)
    }
  }

  /** An output pixel: the sum over the zero-padded image. */
  function Output(l: Layer, x: seq<int>, w: seq<int>, co: nat, oy: nat, ox: nat): int
    requires l.Fits(x, w) && co < l.cout
  {
    Sum(Taps(l.v, x, Channel(l.v, w, l.cout, co), oy, ox, l.v.cin))
  }

  /** The float32 bit patterns of the first `n` pixels of one output row, of the first `n` rows of one channel, and of
    the first `n` channels. */
  function RowPixels(l: Layer, x: seq<int>, w: seq<int>, co: nat, oy: nat, n: nat): seq<int>
    requires l.Fits(x, w) && co < l.cout
  {
    if n == 0 then [] else RowPixels(l, x, w, co, oy, n - 1) + [l.bits(Output(l, x, w, co, oy, n - 1))]
  }

  function PlanePixels(l: Layer, x: seq<int>, w: seq<int>, co: nat, n: nat): seq<int>
    requires l.Fits(x, w) && co < l.cout
  {
    if n == 0 then [] else PlanePixels(l, x, w, co, n - 1) + RowPixels(l, x, w, co, n - 1, l.ow)
  }

  function AllPixels(l: Layer, x: seq<int>, w: seq<int>, n: nat): seq<int>
    requires l.Fits(x, w) && n <= l.cout
  {
    if n == 0 then [] else AllPixels(l, x, w, n - 1) + PlanePixels(l, x, w, n - 1, l.oh)
  }

  /** One output row folded into the checksum of the pixels before it. */
  method ConvRow(l: Layer, x: array<int>, w: array<int>, co: nat, oy: nat, c: nat, ghost start: nat,
                 ghost done: seq<int>) returns (d: nat)
    requires l.Fits(x[..], w[..]) && co < l.cout && c == Folds.Check(start, done)
    ensures d == Folds.Check(start, done + RowPixels(l, x[..], w[..], co, oy, l.ow))
  {
    hide Folds.CheckStep, Folds.Check, Taps, Channel;
    assert done + [] == done;
    d := c;
    for ox := 0 to l.ow
      invariant d == Folds.Check(start, done + RowPixels(l, x[..], w[..], co, oy, ox))
    {
      var acc := ConvPixel(l.v, x, w, l.cout, co, oy, ox);
      ghost var row := RowPixels(l, x[..], w[..], co, oy, ox);
      OneMoreResult(start, done + row, l.bits(acc));
      assert done + (row + [l.bits(acc)]) == done + row + [l.bits(acc)];
      d := Folds.CheckStep(d, l.bits(acc));
    }
  }

  /** One channel, row after row. */
  method ConvPlane(l: Layer, x: array<int>, w: array<int>, co: nat, c: nat, ghost start: nat, ghost done: seq<int>)
    returns (d: nat)
    requires l.Fits(x[..], w[..]) && co < l.cout && c == Folds.Check(start, done)
    ensures d == Folds.Check(start, done + PlanePixels(l, x[..], w[..], co, l.oh))
  {
    hide Folds.CheckStep, Folds.Check, RowPixels;
    assert done + [] == done;
    d := c;
    for oy := 0 to l.oh
      invariant d == Folds.Check(start, done + PlanePixels(l, x[..], w[..], co, oy))
    {
      ghost var rows := PlanePixels(l, x[..], w[..], co, oy);
      d := ConvRow(l, x, w, co, oy, d, start, done + rows);
      ghost var row := RowPixels(l, x[..], w[..], co, oy, l.ow);
      assert done + (rows + row) == done + rows + row;
    }
  }

  /** The checksum of the whole convolution: the bit pattern of every output pixel, channel by channel in row-major
    order. */
  method Conv(l: Layer, x: array<int>, w: array<int>, seed: nat) returns (c: nat)
    requires l.Fits(x[..], w[..])
    ensures c == Folds.Check(seed % 0x1_0000_0000_0000, AllPixels(l, x[..], w[..], l.cout))
  {
    hide Folds.CheckStep, PlanePixels;
    ghost var start := seed % 0x1_0000_0000_0000;
    c := seed % 0x1_0000_0000_0000;
    for co := 0 to l.cout
      invariant c == Folds.Check(start, AllPixels(l, x[..], w[..], co))
    {
      c := ConvPlane(l, x, w, co, c, start, AllPixels(l, x[..], w[..], co));
    }
  }
}
