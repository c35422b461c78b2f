/** The Q8_0 matrix-vector product: eight signed bytes in a 64-bit word, blocks of 32 with a scale, and the checksum. */
module Q8 {
  import Folds
  import Kernels
  import KernelLayout
  import Lcg

  // ---- 64-bit words ----

  predicate Int64(v: int) {
    -0x8000_0000_0000_0000 <= v < 0x8000_0000_0000_0000
  }

  /** A 64-bit pattern read as a two's-complement number. */
  function Signed(u: nat): (v: int)
    requires u < 0x1_0000_0000_0000_0000
    ensures Int64(v)
  {
    if u >= 0x8000_0000_0000_0000 then u - 0x1_0000_0000_0000_0000 else u
  }

  function Unsigned(v: int): (u: nat)
    requires Int64(v)
    ensures u < 0x1_0000_0000_0000_0000
  {
    if v < 0 then v + 0x1_0000_0000_0000_0000 else v
  }

  /** `sbyte`, for a shift by `power` = 2^shl: shift the pattern left, then shift the signed number right by 56. */
  function Sbyte(w: int, power: nat): int
    requires Int64(w)
  {
    Signed(Unsigned(w) * power % 0x1_0000_0000_0000_0000) / 0x100_0000_0000_0000
  }

  /** A byte read as a signed number. */
  function SignedByte(b: nat): (v: int)
    requires b < 256
    ensures -128 <= v <= 127
  {
    if b >= 128 then b - 256 else b
  }

  predicate Bytes(s: seq<nat>) {
    forall i :: 0 <= i < |s| ==> s[i] < 256
  }

  /** Eight bytes, the first lowest. */
  function Pack(b: seq<nat>): (u: nat)
    requires |b| == 8 && Bytes(b)
    ensures u < 0x1_0000_0000_0000_0000
  {
    PackOf(b[0], b[1], b[2], b[3], b[4], b[5], b[6], b[7])
  }

  lemma TopByte(low: nat, b: nat, high: nat)
    requires b < 256 && low < 0x100_0000_0000_0000
    ensures Signed((low + b * 0x100_0000_0000_0000 + high * 0x1_0000_0000_0000_0000) % 0x1_0000_0000_0000_0000)
            / 0x100_0000_0000_0000 == SignedByte(b)
  {
    Folds.Shift64(high, low + b * 0x100_0000_0000_0000);
  }

  lemma ByteOf(u: nat, power: nat, low: nat, b: nat, high: nat)
    requires u < 0x1_0000_0000_0000_0000 && b < 256 && low < 0x100_0000_0000_0000
    requires u * power == low + b * 0x100_0000_0000_0000 + high * 0x1_0000_0000_0000_0000
    ensures Sbyte(Signed(u), power) == SignedByte(b)
  {
    RoundTrip(u);
    TopByte(low, b, high);
  }

  /** Packing eight bytes and taking a byte out again gives its signed value. */
  lemma PackedBytes(b: seq<nat>)
    requires |b| == 8 && Bytes(b)
    ensures var w := Signed(Pack(b));
      && Sbyte(w, 0x100_0000_0000_0000) == SignedByte(b[0]) && Sbyte(w, 0x1_0000_0000_0000) == SignedByte(b[1])
      && Sbyte(w, 0x100_0000_0000) == SignedByte(b[2]) && Sbyte(w, 0x1_0000_0000) == SignedByte(b[3])
      && Sbyte(w, 0x100_0000) == SignedByte(b[4]) && Sbyte(w, 0x1_0000) == SignedByte(b[5])
      && Sbyte(w, 0x100) == SignedByte(b[6]) && w / 0x100_0000_0000_0000 == SignedByte(b[7])
  {
    hide Sbyte, Signed;
    LowBytes(b[0], b[1], b[2], b[3], b[4], b[5], b[6], b[7]);
    HighBytes(b[0], b[1], b[2], b[3], b[4], b[5], b[6], b[7]);
  }

  function PackOf(b0: nat, b1: nat, b2: nat, b3: nat, b4: nat, b5: nat, b6: nat, b7: nat): nat {
    b0 + b1 * 0x100 + b2 * 0x1_0000 + b3 * 0x100_0000 + b4 * 0x1_0000_0000
    + b5 * 0x100_0000_0000 + b6 * 0x1_0000_0000_0000 + b7 * 0x100_0000_0000_0000
  }

  lemma LowBytes(b0: nat, b1: nat, b2: nat, b3: nat, b4: nat, b5: nat, b6: nat, b7: nat)
    requires b0 < 256 && b1 < 256 && b2 < 256 && b3 < 256 && b4 < 256 && b5 < 256 && b6 < 256 && b7 < 256
    ensures PackOf(b0, b1, b2, b3, b4, b5, b6, b7) < 0x1_0000_0000_0000_0000
    ensures var w := Signed(PackOf(b0, b1, b2, b3, b4, b5, b6, b7));
      && Sbyte(w, 0x100_0000_0000_0000) == SignedByte(b0) && Sbyte(w, 0x1_0000_0000_0000) == SignedByte(b1)
      && Sbyte(w, 0x100_0000_0000) == SignedByte(b2) && Sbyte(w, 0x1_0000_0000) == SignedByte(b3)
  {
    hide Sbyte, Signed, SignedByte;
    var u := PackOf(b0, b1, b2, b3, b4, b5, b6, b7);
    var high := b4 + b5 * 0x100 + b6 * 0x1_0000 + b7 * 0x100_0000;
    ByteOf(u, 0x100_0000_0000_0000, 0, b0, b1 + b2 * 0x100 + b3 * 0x1_0000 + high * 0x100_0000);
    ByteOf(u, 0x1_0000_0000_0000, b0 * 0x1_0000_0000_0000, b1, b2 + b3 * 0x100 + high * 0x1_0000);
    ByteOf(u, 0x100_0000_0000, (b0 + b1 * 0x100) * 0x100_0000_0000, b2, b3 + high * 0x100);
    ByteOf(u, 0x1_0000_0000, (b0 + b1 * 0x100 + b2 * 0x1_0000) * 0x1_0000_0000, b3, high);
  }

  lemma HighBytes(b0: nat, b1: nat, b2: nat, b3: nat, b4: nat, b5: nat, b6: nat, b7: nat)
    requires b0 < 256 && b1 < 256 && b2 < 256 && b3 < 256 && b4 < 256 && b5 < 256 && b6 < 256 && b7 < 256
    ensures PackOf(b0, b1, b2, b3, b4, b5, b6, b7) < 0x1_0000_0000_0000_0000
    ensures var w := Signed(PackOf(b0, b1, b2, b3, b4, b5, b6, b7));
      && Sbyte(w, 0x100_0000) == SignedByte(b4) && Sbyte(w, 0x1_0000) == SignedByte(b5)
      && Sbyte(w, 0x100) == SignedByte(b6) && w / 0x100_0000_0000_0000 == SignedByte(b7)
  {
    hide Sbyte, SignedByte;
    var u := PackOf(b0, b1, b2, b3, b4, b5, b6, b7);
    var low := b0 + b1 * 0x100 + b2 * 0x1_0000 + b3 * 0x100_0000;
    assert low < 0x1_0000_0000;
    ByteOf(u, 0x100_0000, low * 0x100_0000, b4, b5 + b6 * 0x100 + b7 * 0x1_0000);
    ByteOf(u, 0x1_0000, (low + b4 * 0x1_0000_0000) * 0x1_0000, b5, b6 + b7 * 0x100);
    ByteOf(u, 0x100, (low + b4 * 0x1_0000_0000 + b5 * 0x100_0000_0000) * 0x100, b6, b7);
    TopByte(low + b4 * 0x1_0000_0000 + b5 * 0x100_0000_0000 + b6 * 0x1_0000_0000_0000, b7, 0);
  }

  lemma RoundTrip(u: nat)
    requires u < 0x1_0000_0000_0000_0000
    ensures Unsigned(Signed(u)) == u
  {
  }

  // ---- dot products ----

  /** `word_dot`. */
  function WordDot(w: int, x: seq<int>): int
    requires Int64(w) && |x| == 8
  {
    Sbyte(w, 0x100_0000_0000_0000) * x[0] + Sbyte(w, 0x1_0000_0000_0000) * x[1]
    + Sbyte(w, 0x100_0000_0000) * x[2] + Sbyte(w, 0x1_0000_0000) * x[3]
    + Sbyte(w, 0x100_0000) * x[4] + Sbyte(w, 0x1_0000) * x[5]
    + Sbyte(w, 0x100) * x[6] + w / 0x100_0000_0000_0000 * x[7]
  }

  /** The plain dot product of the first `n` signed bytes with integers. */
  function Dot(b: seq<nat>, x: seq<int>, n: nat): int
    requires n <= |b| == |x| && Bytes(b)
  {
    if n == 0 then 0 else Dot(b, x, n - 1) + SignedByte(b[n - 1]) * x[n - 1]
  }

  lemma WordDotIsDot(b: seq<nat>, x: seq<int>)
    requires |b| == 8 == |x| && Bytes(b)
    ensures WordDot(Signed(Pack(b)), x) == Dot(b, x, 8)
  {
    hide Sbyte, Signed, Pack, SignedByte;
    PackedBytes(b);
    DotStep(b, x, 1);
    DotStep(b, x, 2);
    DotStep(b, x, 3);
    DotStep(b, x, 4);
    DotStep(b, x, 5);
    DotStep(b, x, 6);
    DotStep(b, x, 7);
    DotStep(b, x, 8);
    NoTerms(b, x);
  }

  lemma DotStep(b: seq<nat>, x: seq<int>, n: nat)
    requires 0 < n <= |b| == |x| && Bytes(b)
    ensures Dot(b, x, n) == Dot(b, x, n - 1) + SignedByte(b[n - 1]) * x[n - 1]
  {
  }

  lemma {:induction false} DotSplit(b: seq<nat>, x: seq<int>, k: nat, n: nat)
    requires k + n <= |b| == |x| && Bytes(b)
    ensures Dot(b, x, k + n) == Dot(b, x, k) + Dot(b[k..k + n], x[k..k + n], n)
  {
    hide SignedByte;
    if n > 0 {
      DotSplit(b, x, k, n - 1);
      var bs, xs := b[k..k + n], x[k..k + n];
      DotPrefix(bs, xs, b[k..k + (n - 1)], x[k..k + (n - 1)], n - 1);
      assert bs[n - 1] == b[k + n - 1] && xs[n - 1] == x[k + n - 1];
    }
  }

  lemma {:induction false} DotPrefix(b: seq<nat>, x: seq<int>, c: seq<nat>, y: seq<int>, n: nat)
    requires n <= |b| == |x| && n <= |c| == |y| && Bytes(b) && Bytes(c) && b[..n] == c[..n] && x[..n] == y[..n]
    ensures Dot(b, x, n) == Dot(c, y, n)
  {
    hide SignedByte;
    if n > 0 {
      assert b[..n][n - 1] == c[..n][n - 1] && x[..n][n - 1] == y[..n][n - 1];
      assert b[..n][..n - 1] == b[..n - 1] && c[..n][..n - 1] == c[..n - 1];
      assert x[..n][..n - 1] == x[..n - 1] && y[..n][..n - 1] == y[..n - 1];
      DotPrefix(b, x, c, y, n - 1);
    }
  }

  /** A block of 32 weights, in four words. */
  function BlockDot(w: seq<int>, x: seq<int>): int
    requires |w| == 4 && |x| == 32 && forall i :: 0 <= i < 4 ==> Int64(w[i])
  {
    WordDot(w[0], x[0..8]) + WordDot(w[1], x[8..16]) + WordDot(w[2], x[16..24]) + WordDot(w[3], x[24..32])
  }

  ghost predicate PackedBlock(w: seq<int>, b: seq<nat>) {
    && |w| == 4 && |b| == 32 && Bytes(b)
    && w[0] == Signed(Pack(b[0..8])) && w[1] == Signed(Pack(b[8..16]))
    && w[2] == Signed(Pack(b[16..24])) && w[3] == Signed(Pack(b[24..32]))
  }

  lemma BlockDotIsDot(w: seq<int>, b: seq<nat>, x: seq<int>)
    requires PackedBlock(w, b) && |x| == 32
    ensures BlockDot(w, x) == Dot(b, x, 32)
  {
    hide Sbyte, Signed, Pack, SignedByte, WordDot, Dot;
    WordDotIsDot(b[0..8], x[0..8]);
    WordDotIsDot(b[8..16], x[8..16]);
    WordDotIsDot(b[16..24], x[16..24]);
    WordDotIsDot(b[24..32], x[24..32]);
    DotSplit(b, x, 0, 8);
    DotSplit(b, x, 8, 8);
    DotSplit(b, x, 16, 8);
    DotSplit(b, x, 24, 8);
    NoTerms(b, x);
  }

  lemma NoTerms(b: seq<nat>, x: seq<int>)
    requires |b| == |x| && Bytes(b)
    ensures Dot(b, x, 0) == 0
  {
  }

  // ---- bounds ----

  ghost predicate Activations(x: seq<int>) {
    forall i :: 0 <= i < |x| ==> -128 <= x[i] <= 127
  }

  lemma ByteProduct(p: int, q: int)
    requires -128 <= p <= 127 && -128 <= q <= 127
    ensures -0x4000 <= p * q <= 0x4000
  {
    Kernels.NonNegative(128 - p, 128 + q);
    Kernels.NonNegative(128 + p, 128 - q);
    Kernels.NonNegative(128 - p, 128 - q);
    Kernels.NonNegative(128 + p, 128 + q);
    assert (128 - p) * (128 + q) + (128 + p) * (128 - q) == 0x8000 - 2 * (p * q);
    assert (128 - p) * (128 - q) + (128 + p) * (128 + q) == 0x8000 + 2 * (p * q);
  }

  lemma SbyteBound(w: int, power: nat)
    requires Int64(w)
    ensures -128 <= Sbyte(w, power) <= 127 && -128 <= w / 0x100_0000_0000_0000 <= 127
  {
    TopBound(w);
    TopBound(Signed(Unsigned(w) * power % 0x1_0000_0000_0000_0000));
  }

  lemma TopBound(v: int)
    requires Int64(v)
    ensures -128 <= v / 0x100_0000_0000_0000 <= 127
  {
  }

  /** The shifts that bring byte 0 to 6 to the top. */
  const SHIFTS: seq<nat> :=
    [0x100_0000_0000_0000, 0x1_0000_0000_0000, 0x100_0000_0000, 0x1_0000_0000, 0x100_0000, 0x1_0000, 0x100]

  function ByteAt(w: int, i: nat): int
    requires Int64(w) && i < 8
  {
    if i < 7 then Sbyte(w, SHIFTS[i]) else w / 0x100_0000_0000_0000
  }

  /** What `word_dot` has added up after `n` of its products. */
  function WordSum(w: int, x: seq<int>, n: nat): int
    requires Int64(w) && |x| == 8 && n <= 8
  {
    if n == 0 then 0 else WordSum(w, x, n - 1) + ByteAt(w, n - 1) * x[n - 1]
  }

  lemma WordSumStep(w: int, x: seq<int>, n: nat)
    requires Int64(w) && |x| == 8 && n < 8
    ensures WordSum(w, x, 0) == 0 && WordSum(w, x, n + 1) == WordSum(w, x, n) + ByteAt(w, n) * x[n]
  {
  }

  lemma WordSumIsDot(w: int, x: seq<int>)
    requires Int64(w) && |x| == 8
    ensures WordSum(w, x, 8) == WordDot(w, x)
  {
    hide WordSum, Sbyte;
    WordSumStep(w, x, 0);
    WordSumStep(w, x, 1);
    WordSumStep(w, x, 2);
    WordSumStep(w, x, 3);
    WordSumStep(w, x, 4);
    WordSumStep(w, x, 5);
    WordSumStep(w, x, 6);
    WordSumStep(w, x, 7);
  }

  lemma {:induction false} WordSumBound(w: int, x: seq<int>, n: nat)
    requires Int64(w) && |x| == 8 && Activations(x) && n <= 8
    ensures -0x4000 * n <= WordSum(w, x, n) <= 0x4000 * n
  {
    hide Sbyte;
    if n > 0 {
      WordSumBound(w, x, n - 1);
      SbyteBound(w, if n < 8 then SHIFTS[n - 1] else 0);
      ByteProduct(ByteAt(w, n - 1), x[n - 1]);
    }
  }

  /** What the sum of a block is after `n` of its words. */
  function BlockSum(w: seq<int>, x: seq<int>, n: nat): int
    requires |w| == 4 && |x| == 32 && n <= 4 && forall i :: 0 <= i < 4 ==> Int64(w[i])
  {
    if n == 0 then 0 else BlockSum(w, x, n - 1) + WordDot(w[n - 1], x[8 * (n - 1)..8 * n])
  }

  lemma {:induction false} BlockSumBound(w: seq<int>, x: seq<int>, n: nat)
    requires |w| == 4 && |x| == 32 && n <= 4 && (forall i :: 0 <= i < 4 ==> Int64(w[i])) && Activations(x)
    ensures -0x2_0000 * n <= BlockSum(w, x, n) <= 0x2_0000 * n
    ensures BlockSum(w, x, 4) == BlockDot(w, x)
  {
    hide WordDot, WordSum;
    if n > 0 {
      BlockSumBound(w, x, n - 1);
      var part := x[8 * (n - 1)..8 * n];
      WordSumBound(w[n - 1], part, 8);
      WordSumIsDot(w[n - 1], part);
    }
    BlockSums(w, x);
  }

  lemma BlockSums(w: seq<int>, x: seq<int>)
    requires |w| == 4 && |x| == 32 && forall i :: 0 <= i < 4 ==> Int64(w[i])
    ensures BlockSum(w, x, 4) == BlockDot(w, x)
  {
    hide WordDot;
    assert BlockSum(w, x, 1) == WordDot(w[0], x[0..8]);
    assert BlockSum(w, x, 2) == BlockSum(w, x, 1) + WordDot(w[1], x[8..16]);
    assert BlockSum(w, x, 3) == BlockSum(w, x, 2) + WordDot(w[2], x[16..24]);
  }

  // ---- the matrix ----

  datatype Matrix = Matrix(rows: nat, blocks: nat, words: seq<int>, scales: seq<int>) {
    ghost predicate Valid() {
      && |words| == rows * blocks * 4 && |scales| == rows * blocks
      && (forall i :: 0 <= i < |words| ==> Int64(words[i]))
      && (forall i :: 0 <= i < |scales| ==> 1 <= scales[i] <= 1024)
    }

    function BlockAt(r: nat, k: nat): (g: nat)
      requires r < rows && k < blocks
      ensures g < rows * blocks
    {
      Kernels.Index(r, rows, k, blocks)
    }
  }

  datatype Vector = Vector(entries: seq<int>, scales: seq<int>) {
    ghost predicate Valid(blocks: nat) {
      && |entries| == 32 * blocks && |scales| == blocks && Activations(entries)
      && (forall i :: 0 <= i < |scales| ==> 1 <= scales[i] <= 1024)
    }
  }

  // ---- what the program fills them with ----

  function ByteDraw(s: nat): (b: nat)
    ensures b < 256
  {
    s / 0x1_0000 % 256
  }

  function EntryDraw(s: nat): int {
    ByteDraw(s) - 128
  }

  function ScaleDraw(s: nat): int {
    1 + s / 256 % 1024
  }

  /** A vector filled from the generator, entries from one state and scales from another, is one the product takes. */
  lemma FilledVector(seed: nat, next: nat, blocks: nat)
    requires seed < 0x8000_0000 && next < 0x8000_0000
    ensures Vector(seq(32 * blocks, i requires 0 <= i < 32 * blocks => EntryDraw(Lcg.Iter(seed, i + 1))),
                   seq(blocks, k requires 0 <= k < blocks => ScaleDraw(Lcg.Iter(next, k + 1)))).Valid(blocks)
  {
    hide Lcg.Iter, ByteDraw;
  }

  function BlockTerm(w: Matrix, v: Vector, r: nat, k: nat): int
    requires w.Valid() && v.Valid(w.blocks) && r < w.rows && k < w.blocks
  {
    var g := w.BlockAt(r, k);
    BlockDot(w.words[4 * g..4 * g + 4], v.entries[32 * k..32 * k + 32]) * w.scales[g] * v.scales[k]
  }

  function RowDot(w: Matrix, v: Vector, r: nat, n: nat): int
    requires w.Valid() && v.Valid(w.blocks) && r < w.rows && n <= w.blocks
  {
    if n == 0 then 0 else RowDot(w, v, r, n - 1) + BlockTerm(w, v, r, n - 1)
  }

  function Results(w: Matrix, v: Vector, n: nat): seq<int>
    requires w.Valid() && v.Valid(w.blocks) && n <= w.rows
  {
    if n == 0 then [] else Results(w, v, n - 1) + [RowDot(w, v, n - 1, w.blocks)]
  }

  /** One row, block by block. */
  method RowSum(w: Matrix, v: Vector, words: array<int>, r: nat) returns (acc: int)
    requires w.Valid() && v.Valid(w.blocks) && words[..] == w.words && r < w.rows
    ensures acc == RowDot(w, v, r, w.blocks)
  {
    hide BlockDot;
    acc := 0;
    for k := 0 to w.blocks
      invariant acc == RowDot(w, v, r, k)
    {
      var g := w.BlockAt(r, k);
      assert words[4 * g..4 * g + 4] == w.words[4 * g..4 * g + 4];
      var sumi := BlockDot(words[4 * g..4 * g + 4], v.entries[32 * k..32 * k + 32]);
      acc := acc + sumi * w.scales[g] * v.scales[k];
    }
  }

  /** `matvec`: row by row, the checksum folded after every row. */
  method Matvec(w: Matrix, v: Vector, words: array<int>, seed: nat) returns (c: nat)
    requires w.Valid() && v.Valid(w.blocks) && words[..] == w.words
    ensures c == Folds.Check(seed, Results(w, v, w.rows))
  {
    hide RowDot, Folds.CheckStep;
    c := seed;
    for r := 0 to w.rows
      invariant c == Folds.Check(seed, Results(w, v, r))
    {
      var acc := RowSum(w, v, words, r);
      Kernels.OneMoreResult(seed, Results(w, v, r), acc);
      c := Folds.CheckStep(c, acc);
    }
  }

  // ---- what the rows are ----

  /** The words hold these weight bytes. */
  ghost predicate Holds(w: Matrix, b: seq<nat>)
    requires w.Valid()
  {
    && Bytes(b) && |b| == 32 * (w.rows * w.blocks)
    && forall g: nat :: g < w.rows * w.blocks ==> PackedBlock(w.words[4 * g..4 * g + 4], b[32 * g..32 * g + 32])
  }

  /** The exact scaled dot product of row `r` with the vector, on the weight bytes themselves. */
  function Plain(w: Matrix, b: seq<nat>, v: Vector, r: nat, n: nat): int
    requires w.Valid() && v.Valid(w.blocks) && Holds(w, b) && r < w.rows && n <= w.blocks
  {
    if n == 0 then 0
    else
      var g := w.BlockAt(r, n - 1);
      Plain(w, b, v, r, n - 1)
      + Dot(b[32 * g..32 * g + 32], v.entries[32 * (n - 1)..32 * n], 32) * w.scales[g] * v.scales[n - 1]
  }

  /** Every row of the packed product is the exact scaled dot product of its signed bytes. */
  lemma {:induction false} RowIsPlain(w: Matrix, b: seq<nat>, v: Vector, r: nat, n: nat)
    requires w.Valid() && v.Valid(w.blocks) && Holds(w, b) && r < w.rows && n <= w.blocks
    ensures RowDot(w, v, r, n) == Plain(w, b, v, r, n)
  {
    hide Dot, BlockDot, PackedBlock;
    if n > 0 {
      RowIsPlain(w, b, v, r, n - 1);
      var g := w.BlockAt(r, n - 1);
      BlockDotIsDot(w.words[4 * g..4 * g + 4], b[32 * g..32 * g + 32], v.entries[32 * (n - 1)..32 * n]);
      assert 32 * (n - 1) + 32 == 32 * n;
    }
  }

  // ---- a matrix as rows of blocks ----

  /** 32 weight bytes and their scale. */
  datatype Block = Block(bytes: seq<nat>, scale: int) {
    ghost predicate Valid() {
      |bytes| == 32 && Bytes(bytes) && 1 <= scale <= 1024
    }

    function Words(): (w: seq<int>)
      requires |bytes| == 32 && Bytes(bytes)
      ensures |w| == 4
    {
      [Signed(Pack(bytes[0..8])), Signed(Pack(bytes[8..16])), Signed(Pack(bytes[16..24])), Signed(Pack(bytes[24..32]))]
    }
  }

  /** Every row has `blocks` blocks. */
  ghost predicate Grid(rows: seq<seq<Block>>, blocks: nat) {
    forall r :: 0 <= r < |rows| ==> |rows[r]| == blocks && forall k :: 0 <= k < blocks ==> rows[r][k].Valid()
  }

  ghost function RowScales(rows: seq<seq<Block>>, blocks: nat): seq<seq<int>>
    requires Grid(rows, blocks)
  {
    seq(|rows|, r requires 0 <= r < |rows| => seq(blocks, k requires 0 <= k < blocks => rows[r][k].scale))
  }

  ghost function RowWords(rows: seq<seq<Block>>, blocks: nat): seq<seq<seq<int>>>
    requires Grid(rows, blocks)
  {
    seq(|rows|, r requires 0 <= r < |rows| => seq(blocks, k requires 0 <= k < blocks => rows[r][k].Words()))
  }

  /** The matrix as it is stored: row after row and block after block, words and scales apart. */
  ghost function MatrixOf(rows: seq<seq<Block>>, blocks: nat): Matrix
    requires Grid(rows, blocks)
  {
    Matrix(|rows|, blocks, KernelLayout.Stored(RowWords(rows, blocks)), Kernels.Flatten(RowScales(rows, blocks)))
  }

  /** The first `n` blocks of a row, taken with the vector. */
  ghost function BlocksDot(row: seq<Block>, v: Vector, n: nat): int
    requires v.Valid(|row|) && n <= |row| && forall k :: 0 <= k < |row| ==> row[k].Valid()
  {
    if n == 0 then 0
    else
      BlocksDot(row, v, n - 1)
      + Dot(row[n - 1].bytes, v.entries[32 * (n - 1)..32 * n], 32) * row[n - 1].scale * v.scales[n - 1]
  }

  lemma StoredBlock(rows: seq<seq<Block>>, blocks: nat, r: nat, k: nat)
    requires Grid(rows, blocks) && r < |rows| && k < blocks
    ensures var w, g := MatrixOf(rows, blocks), Kernels.Index(r, |rows|, k, blocks);
      && |w.words| == |rows| * blocks * 4 && |w.scales| == |rows| * blocks
      && 4 * g + 4 <= |w.words| && w.words[4 * g..4 * g + 4] == rows[r][k].Words() && w.scales[g] == rows[r][k].scale
  {
    hide Signed, Pack, Bytes;
    var words, scales := RowWords(rows, blocks), RowScales(rows, blocks);
    var g := Kernels.Index(r, |rows|, k, blocks);
    Kernels.FlattenAt(scales, blocks, r, k);
    Kernels.FlattenAt(words, blocks, r, k);
    KernelLayout.AllRows(words, |rows|, blocks, 4);
    KernelLayout.FlattenSlice(Kernels.Flatten(words), 4, g);
  }

  lemma StoredScale(rows: seq<seq<Block>>, blocks: nat, scale: int)
    requires Grid(rows, blocks) && scale in Kernels.Flatten(RowScales(rows, blocks))
    ensures 1 <= scale <= 1024
  {
    var r := KernelLayout.FlattenIn(RowScales(rows, blocks), scale);
    var k :| 0 <= k < blocks && rows[r][k].scale == scale;
    assert rows[r][k].Valid();
  }

  lemma StoredWord(rows: seq<seq<Block>>, blocks: nat, word: int)
    requires Grid(rows, blocks) && word in KernelLayout.Stored(RowWords(rows, blocks))
    ensures Int64(word)
  {
    hide Signed, Pack, Bytes;
    var all := Kernels.Flatten(RowWords(rows, blocks));
    var g := KernelLayout.FlattenIn(all, word);
    var r := KernelLayout.FlattenIn(RowWords(rows, blocks), all[g]);
    var k :| 0 <= k < blocks && rows[r][k].Words() == all[g];
  }

  lemma StoredValid(rows: seq<seq<Block>>, blocks: nat)
    requires Grid(rows, blocks)
    ensures MatrixOf(rows, blocks).Valid()
  {
    hide Block.Words, Kernels.Flatten, KernelLayout.Stored, Int64;
    var w := MatrixOf(rows, blocks);
    Kernels.FlattenLength(RowScales(rows, blocks), blocks);
    KernelLayout.StoredLength(RowWords(rows, blocks), |rows|, blocks, 4);
    forall i | 0 <= i < |w.scales| ensures 1 <= w.scales[i] <= 1024 {
      StoredScale(rows, blocks, w.scales[i]);
    }
    forall i | 0 <= i < |w.words| ensures Int64(w.words[i]) {
      StoredWord(rows, blocks, w.words[i]);
    }
  }

  /** On a matrix stored from rows of blocks, every row of the packed product is the scaled dot product of that row's
    own bytes: block `k` of row `r` is taken with block `k` of the vector. */
  lemma {:induction false} RowOfBlocks(rows: seq<seq<Block>>, blocks: nat, v: Vector, r: nat, n: nat)
    requires Grid(rows, blocks) && v.Valid(blocks) && r < |rows| && n <= blocks
    ensures MatrixOf(rows, blocks).Valid()
    ensures RowDot(MatrixOf(rows, blocks), v, r, n) == BlocksDot(rows[r], v, n)
  {
    hide Dot, BlockDot, Bytes, Signed, Pack, Matrix.Valid, Kernels.Flatten, KernelLayout.Stored;
    StoredValid(rows, blocks);
    var w := MatrixOf(rows, blocks);
    if n > 0 {
      RowOfBlocks(rows, blocks, v, r, n - 1);
      StoredBlock(rows, blocks, r, n - 1);
      var g, block := w.BlockAt(r, n - 1), rows[r][n - 1];
      assert block.Valid();
      BlockDotIsDot(w.words[4 * g..4 * g + 4], block.bytes, v.entries[32 * (n - 1)..32 * n]);
      assert 32 * (n - 1) + 32 == 32 * n;
    }
  }

  lemma {:induction false} ResultsAt(w: Matrix, v: Vector, n: nat)
    requires w.Valid() && v.Valid(w.blocks) && n <= w.rows
    ensures |Results(w, v, n)| == n && forall r :: 0 <= r < n ==> Results(w, v, n)[r] == RowDot(w, v, r, w.blocks)
  {
    hide RowDot, Matrix.Valid;
    if n > 0 {
      ResultsAt(w, v, n - 1);
    }
  }

  /** What is folded is one number for each row, in order: the scaled dot product of the row's bytes with the vector. */
  lemma ProductOfBlocks(rows: seq<seq<Block>>, blocks: nat, v: Vector)
    requires Grid(rows, blocks) && v.Valid(blocks)
    ensures MatrixOf(rows, blocks).Valid()
    ensures var results := Results(MatrixOf(rows, blocks), v, |rows|);
      |results| == |rows| && forall r :: 0 <= r < |rows| ==> results[r] == BlocksDot(rows[r], v, blocks)
  {
    hide RowDot, Matrix.Valid, Results, BlocksDot;
    StoredValid(rows, blocks);
    ResultsAt(MatrixOf(rows, blocks), v, |rows|);
    forall r | 0 <= r < |rows| ensures RowDot(MatrixOf(rows, blocks), v, r, blocks) == BlocksDot(rows[r], v, blocks) {
      RowOfBlocks(rows, blocks, v, r, blocks);
    }
  }

  lemma ScaledBound(d: int, s: int, t: int)
    requires -0x8_0000 <= d <= 0x8_0000 && 1 <= s <= 1024 && 1 <= t <= 1024
    ensures -0x80_0000_0000 <= d * s * t <= 0x80_0000_0000
  {
    Kernels.NonNegative(0x8_0000 - d, s);
    Kernels.NonNegative(0x8_0000 + d, s);
    assert (0x8_0000 - d) * s == 0x8_0000 * s - d * s && (0x8_0000 + d) * s == 0x8_0000 * s + d * s;
    var e := d * s;
    assert -0x2000_0000 <= e <= 0x2000_0000;
    Kernels.NonNegative(0x2000_0000 - e, t);
    Kernels.NonNegative(0x2000_0000 + e, t);
    assert (0x2000_0000 - e) * t == 0x2000_0000 * t - e * t && (0x2000_0000 + e) * t == 0x2000_0000 * t + e * t;
  }

  ghost predicate WordFits(w: int, x: seq<int>)
    requires Int64(w) && |x| == 8
  {
    forall n: nat :: n <= 8 ==> Int64(WordSum(w, x, n))
  }

  /** Every value the program forms in one block fits 64 bits: the sums inside its words, the sum of the words, and its
    products with the two scales. */
  ghost predicate BlockFits(w: seq<int>, x: seq<int>, s: int, t: int)
    requires |w| == 4 && |x| == 32 && forall i :: 0 <= i < 4 ==> Int64(w[i])
  {
    && (forall j :: 0 <= j < 4 ==> WordFits(w[j], x[8 * j..8 * j + 8]))
    && (forall n: nat :: n <= 4 ==> Int64(BlockSum(w, x, n)))
    && Int64(BlockDot(w, x) * s) && Int64(BlockDot(w, x) * s * t)
  }

  lemma WordBound(w: int, x: seq<int>)
    requires Int64(w) && |x| == 8 && Activations(x)
    ensures WordFits(w, x)
  {
    hide WordSum;
    forall n: nat | n <= 8 ensures Int64(WordSum(w, x, n)) {
      WordSumBound(w, x, n);
    }
  }

  lemma BlockBound(w: seq<int>, x: seq<int>, s: int, t: int)
    requires |w| == 4 && |x| == 32 && (forall i :: 0 <= i < 4 ==> Int64(w[i])) && Activations(x)
    requires 1 <= s <= 1024 && 1 <= t <= 1024
    ensures BlockFits(w, x, s, t) && -0x80_0000_0000 <= BlockDot(w, x) * s * t <= 0x80_0000_0000
  {
    hide BlockDot, WordSum, BlockSum;
    forall j | 0 <= j < 4 ensures WordFits(w[j], x[8 * j..8 * j + 8]) {
      WordBound(w[j], x[8 * j..8 * j + 8]);
    }
    forall n: nat | n <= 4 ensures Int64(BlockSum(w, x, n)) {
      BlockSumBound(w, x, n);
    }
    BlockSumBound(w, x, 4);
    ScaledBound(BlockDot(w, x), s, t);
  }

  /** Block `k` of row `r` fits. */
  ghost predicate TermFits(w: Matrix, v: Vector, r: nat, k: nat)
    requires w.Valid() && v.Valid(w.blocks) && r < w.rows && k < w.blocks
  {
    var g := w.BlockAt(r, k);
    BlockFits(w.words[4 * g..4 * g + 4], v.entries[32 * k..32 * k + 32], w.scales[g], v.scales[k])
  }

  lemma TermBound(w: Matrix, v: Vector, r: nat, k: nat)
    requires w.Valid() && v.Valid(w.blocks) && r < w.rows && k < w.blocks
    ensures TermFits(w, v, r, k) && -0x80_0000_0000 <= BlockTerm(w, v, r, k) <= 0x80_0000_0000
  {
    hide BlockDot, BlockFits;
    var g := w.BlockAt(r, k);
    BlockBound(w.words[4 * g..4 * g + 4], v.entries[32 * k..32 * k + 32], w.scales[g], v.scales[k]);
  }

  lemma {:induction false} RowBound(w: Matrix, v: Vector, r: nat, n: nat)
    requires w.Valid() && v.Valid(w.blocks) && r < w.rows && n <= w.blocks
    ensures -0x80_0000_0000 * n <= RowDot(w, v, r, n) <= 0x80_0000_0000 * n
  {
    hide BlockTerm, TermFits;
    if n > 0 {
      RowBound(w, v, r, n - 1);
      TermBound(w, v, r, n - 1);
    }
  }

  /** While a row has fewer than 2^23 blocks, nothing the program adds or multiplies leaves the 64-bit range: not the sums
    inside the words and blocks, the products with the scales, the partial sums of a row, or the fold into the
    checksum. */
  lemma NoOverflow(w: Matrix, v: Vector, r: nat, n: nat, c: nat)
    requires w.Valid() && v.Valid(w.blocks) && r < w.rows && n <= w.blocks < 0x80_0000
    requires c < 0x1_0000_0000_0000
    ensures forall k: nat :: k < n ==> TermFits(w, v, r, k)
    ensures Int64(RowDot(w, v, r, n)) && Int64(c * 31 + RowDot(w, v, r, n))
  {
    hide TermFits, RowDot, BlockTerm;
    forall k: nat | k < n ensures TermFits(w, v, r, k) {
      TermBound(w, v, r, k);
    }
    RowBound(w, v, r, n);
  }
}
