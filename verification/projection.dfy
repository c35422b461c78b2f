/** Splitting one block-rotated, 2-bit quantized projection over machines, in exact arithmetic.

  Sixteen 2-bit codes share a 32-bit word and 128 inputs share a scale and a bias. Before the projection the input is
  multiplied by signs and every whole block of it is transformed; the transform itself is any function of a block. */
module Projection {

  type Transform = seq<real> -> seq<real>

  ghost predicate KeepsLength(t: Transform) {
    forall v: seq<real> :: |t(v)| == |v|
  }

  datatype Layer = Layer(weight: seq<seq<nat>>, scales: seq<seq<real>>, biases: seq<seq<real>>, signs: seq<real>) {
    function Width(): nat {
      |signs|
    }

    ghost predicate Valid() {
      && Width() % 128 == 0
      && |scales| == |weight| && |biases| == |weight|
      && (forall r :: 0 <= r < |weight| ==>
            && |weight[r]| == Width() / 16
            && |scales[r]| == Width() / 128 && |biases[r]| == Width() / 128)
    }
  }

  /** `n` inputs are a whole number of blocks. */
  predicate Whole(n: nat, block: nat)
    requires block > 0
  {
    n == 0 || (n >= block && Whole(n - block, block))
  }

  function Power4(k: nat): (p: nat)
    ensures p > 0
  {
    if k == 0 then 1 else 4 * Power4(k - 1)
  }

  /** The 2-bit code of input `j`, from the word it is packed in. */
  function Code(words: seq<nat>, j: nat): nat
    requires j / 16 < |words|
  {
    words[j / 16] / Power4(j % 16) % 4
  }

  function Entry(l: Layer, r: nat, j: nat): real
    requires l.Valid() && r < |l.weight| && j < l.Width()
  {
    l.scales[r][j / 128] * Code(l.weight[r], j) as real + l.biases[r][j / 128]
  }

  function Dot(l: Layer, r: nat, z: seq<real>, n: nat): real
    requires l.Valid() && r < |l.weight| && n <= |z| == l.Width()
  {
    if n == 0 then 0.0 else Dot(l, r, z, n - 1) + z[n - 1] * Entry(l, r, n - 1)
  }

  /** `project`: one output for each weight row. */
  function Project(l: Layer, z: seq<real>): (y: seq<real>)
    requires l.Valid() && |z| == l.Width()
    ensures |y| == |l.weight|
  {
    seq(|l.weight|, r requires 0 <= r < |l.weight| => Dot(l, r, z, |z|))
  }

  function Signed(x: seq<real>, signs: seq<real>): (v: seq<real>)
    requires |x| == |signs|
    ensures |v| == |x|
  {
    seq(|x|, i requires 0 <= i < |x| => x[i] * signs[i])
  }

  /** `rotate`: signs, then the transform of every block in turn; no block size means no rotation. */
  function Rotate(t: Transform, block: nat, x: seq<real>, signs: seq<real>): (z: seq<real>)
    requires KeepsLength(t) && |x| == |signs| && (block > 0 ==> Whole(|x|, block))
    ensures |z| == |x|
    decreases |x|
  {
    if block == 0 || x == [] then x
    else
      t(Signed(x[..block], signs[..block])) + Rotate(t, block, x[block..], signs[block..])
  }

  function Apply(t: Transform, block: nat, l: Layer, x: seq<real>): (y: seq<real>)
    requires KeepsLength(t) && l.Valid() && |x| == l.Width() && (block > 0 ==> Whole(|x|, block))
    ensures |y| == |l.weight|
  {
    Project(l, Rotate(t, block, x, l.signs))
  }

  // ---- shards ----

  function Columns<T>(m: seq<seq<T>>, a: nat, b: nat): (s: seq<seq<T>>)
    requires a <= b && forall r :: 0 <= r < |m| ==> b <= |m[r]|
    ensures |s| == |m| && forall r :: 0 <= r < |m| ==> s[r] == m[r][a..b]
  {
    seq(|m|, r requires 0 <= r < |m| => m[r][a..b])
  }

  /** What a machine loads to compute output rows `lo` up to `hi`. */
  function RowShard(l: Layer, lo: nat, hi: nat): (s: Layer)
    requires l.Valid() && lo <= hi <= |l.weight|
    ensures s.Valid() && s.Width() == l.Width() && |s.weight| == hi - lo
  {
    Layer(l.weight[lo..hi], l.scales[lo..hi], l.biases[lo..hi], l.signs)
  }

  lemma By16(n: nat, q: nat, r: nat)
    requires n == 16 * q + r && r < 16
    ensures n / 16 == q && n % 16 == r
  {
  }

  lemma By128(n: nat, q: nat, r: nat)
    requires n == 128 * q + r && r < 128
    ensures n / 128 == q && n % 128 == r
  {
  }

  /** A stretch of whole scale groups is a whole number of words and of groups. */
  lemma ShardWidths(a: nat, b: nat)
    requires a <= b && a % 128 == 0 && b % 128 == 0
    ensures a / 16 <= b / 16 && a / 128 <= b / 128
    ensures (b - a) % 128 == 0 && (b - a) / 16 == b / 16 - a / 16 && (b - a) / 128 == b / 128 - a / 128
  {
    var i, k := a / 128, b / 128;
    By16(a, 8 * i, 0);
    By16(b, 8 * k, 0);
    By16(b - a, 8 * (k - i), 0);
    By128(b - a, k - i, 0);
  }

  /** What a machine loads for inputs `a` up to `b`: whole words, whole scale groups, and its signs. */
  function ColumnShard(l: Layer, a: nat, b: nat): (s: Layer)
    requires l.Valid() && a <= b <= l.Width() && a % 128 == 0 && b % 128 == 0
    ensures s.Valid() && s.Width() == b - a && |s.weight| == |l.weight|
  {
    ShardWidths(a, b);
    ShardWidths(b, l.Width());
    Layer(Columns(l.weight, a / 16, b / 16), Columns(l.scales, a / 128, b / 128), Columns(l.biases, a / 128, b / 128),
          l.signs[a..b])
  }

  /** Cuts on whole scale groups and whole blocks. */
  predicate OnBoundary(block: nat, c: nat) {
    c % 128 == 0 && (block > 0 ==> Whole(c, block))
  }

  predicate ValidCuts(block: nat, width: nat, cuts: seq<nat>) {
    && |cuts| >= 2 && cuts[0] == 0 && cuts[|cuts| - 1] == width
    && (forall i :: 0 <= i < |cuts| ==> OnBoundary(block, cuts[i]))
    && (forall i, j :: 0 <= i <= j < |cuts| ==> cuts[i] <= cuts[j])
  }

  // ---- words and groups ----

  /** A stretch of whole scale groups starts and ends on words. */
  lemma WholeWords(a: nat, b: nat)
    requires a <= b && a % 128 == 0 && b % 128 == 0
    ensures a / 16 <= b / 16 && a == 16 * (a / 16) && b == 16 * (b / 16)
  {
    var i, k := a / 128, b / 128;
    By16(a, 8 * i, 0);
    By16(b, 8 * k, 0);
  }

  lemma ShardWord(words: seq<nat>, lo: nat, hi: nat, k: nat)
    requires lo <= lo + k < hi <= |words|
    ensures words[lo..hi][k] == words[lo + k]
  {
  }

  lemma ShardCode(words: seq<nat>, lo: nat, hi: nat, j: nat)
    requires lo <= hi <= |words| && j < 16 * (hi - lo)
    ensures Code(words[lo..hi], j) == Code(words, 16 * lo + j)
  {
    hide Power4;
    By16(16 * lo + j, lo + j / 16, j % 16);
    ShardWord(words, lo, hi, j / 16);
  }

  lemma ShardGroup(groups: seq<real>, a: nat, b: nat, j: nat)
    requires a % 128 == 0 && b % 128 == 0 && j < b - a && b / 128 <= |groups|
    ensures groups[a / 128..b / 128][j / 128] == groups[(a + j) / 128]
  {
    By128(a + j, a / 128 + j / 128, j % 128);
  }

  /** A shard's packed words and scales give the same entry as the whole layer's. */
  lemma ShardEntry(l: Layer, a: nat, b: nat, r: nat, j: nat)
    requires l.Valid() && a <= b <= l.Width() && a % 128 == 0 && b % 128 == 0
    requires r < |l.weight| && j < b - a
    ensures Entry(ColumnShard(l, a, b), r, j) == Entry(l, r, a + j)
  {
    hide Code, Whole;
    WholeWords(a, b);
    ShardCode(l.weight[r], a / 16, b / 16, j);
    ShardGroup(l.scales[r], a, b, j);
    ShardGroup(l.biases[r], a, b, j);
  }

  lemma {:induction false} ShardDot(l: Layer, a: nat, b: nat, r: nat, z: seq<real>, n: nat)
    requires l.Valid() && a <= b <= l.Width() == |z| && a % 128 == 0 && b % 128 == 0
    requires r < |l.weight| && n <= b - a
    ensures Dot(ColumnShard(l, a, b), r, z[a..b], n) == Dot(l, r, z, a + n) - Dot(l, r, z, a)
  {
    hide Entry, ColumnShard;
    if n > 0 {
      ShardDot(l, a, b, r, z, n - 1);
      ShardEntry(l, a, b, r, n - 1);
      assert z[a..b][n - 1] == z[a + (n - 1)];
    }
  }

  // ---- blocks ----

  lemma {:induction false} WholeMinus(a: nat, b: nat, block: nat)
    requires block > 0 && a <= b && Whole(a, block) && Whole(b, block)
    ensures Whole(b - a, block)
  {
    if a > 0 {
      WholeMinus(a - block, b - block, block);
    }
  }

  function FirstBlock(t: Transform, block: nat, x: seq<real>, signs: seq<real>): (y: seq<real>)
    requires KeepsLength(t) && |x| == |signs| && block <= |x|
    ensures |y| == block
  {
    t(Signed(x[..block], signs[..block]))
  }

  lemma RotateStep(t: Transform, block: nat, x: seq<real>, signs: seq<real>)
    requires KeepsLength(t) && 0 < |x| == |signs| && block > 0 && Whole(|x|, block)
    ensures Rotate(t, block, x, signs)
         == FirstBlock(t, block, x, signs) + Rotate(t, block, x[block..], signs[block..])
  {
  }

  lemma {:induction false} RotatePrefix(t: Transform, block: nat, x: seq<real>, signs: seq<real>, b: nat)
    requires KeepsLength(t) && |x| == |signs| && b <= |x| && block > 0 && Whole(|x|, block) && Whole(b, block)
    ensures Rotate(t, block, x, signs)[..b] == Rotate(t, block, x[..b], signs[..b])
    decreases b
  {
    hide Rotate, FirstBlock;
    if b > 0 {
      RotatePrefix(t, block, x[block..], signs[block..], b - block);
      assert x[..b][block..] == x[block..][..b - block] && signs[..b][block..] == signs[block..][..b - block];
      RotateStep(t, block, x, signs);
      RotateStep(t, block, x[..b], signs[..b]);
      SameFirst(t, block, x, signs, b);
      AcrossFirst(FirstBlock(t, block, x, signs), Rotate(t, block, x[block..], signs[block..]), b);
    }
  }

  lemma SameFirst(t: Transform, block: nat, x: seq<real>, signs: seq<real>, b: nat)
    requires KeepsLength(t) && |x| == |signs| && block <= b <= |x|
    ensures FirstBlock(t, block, x[..b], signs[..b]) == FirstBlock(t, block, x, signs)
  {
    assert x[..b][..block] == x[..block] && signs[..b][..block] == signs[..block];
  }

  lemma AcrossFirst(first: seq<real>, rest: seq<real>, b: nat)
    requires |first| <= b <= |first| + |rest|
    ensures (first + rest)[..b] == first + rest[..b - |first|]
  {
  }

  lemma BehindFirst(first: seq<real>, rest: seq<real>, a: nat, b: nat)
    requires |first| <= a <= b <= |first| + |rest|
    ensures (first + rest)[a..b] == rest[a - |first|..b - |first|]
  {
  }

  lemma SliceBehind(x: seq<real>, block: nat, a: nat, b: nat)
    requires block <= a <= b <= |x|
    ensures x[a..b] == x[block..][a - block..b - block]
  {
  }

  lemma FromZero(x: seq<real>, b: nat)
    requires b <= |x|
    ensures x[0..b] == x[..b]
  {
  }

  lemma WholeBehind(n: nat, block: nat)
    requires block > 0 && n > 0 && Whole(n, block)
    ensures n >= block && Whole(n - block, block)
  {
  }

  /** Rotating whole blocks of the input is taking the same blocks of the rotated input. */
  lemma {:induction false} RotateSlice(t: Transform, block: nat, x: seq<real>, signs: seq<real>, a: nat, b: nat)
    requires KeepsLength(t) && |x| == |signs| && a <= b <= |x| && block > 0
    requires Whole(|x|, block) && Whole(a, block) && Whole(b, block) && Whole(b - a, block)
    ensures Rotate(t, block, x, signs)[a..b] == Rotate(t, block, x[a..b], signs[a..b])
    decreases a
  {
    hide Rotate, FirstBlock, Whole;
    if a == 0 {
      RotatePrefix(t, block, x, signs, b);
      FromZero(x, b);
      FromZero(signs, b);
      FromZero(Rotate(t, block, x, signs), b);
    } else {
      WholeBehind(|x|, block);
      WholeBehind(a, block);
      WholeBehind(b, block);
      RotateSlice(t, block, x[block..], signs[block..], a - block, b - block);
      SliceBehind(x, block, a, b);
      SliceBehind(signs, block, a, b);
      RotateStep(t, block, x, signs);
      BehindFirst(FirstBlock(t, block, x, signs), Rotate(t, block, x[block..], signs[block..]), a, b);
    }
  }

  /** Block `k` of the input, each value times its sign. */
  function SignedBlock(x: seq<real>, signs: seq<real>, start: nat, block: nat): (v: seq<real>)
    requires |x| == |signs| && start + block <= |x|
    ensures |v| == block
  {
    seq(block, i requires 0 <= i < block => x[start + i] * signs[start + i])
  }

  lemma LaterBlock(x: seq<real>, signs: seq<real>, start: nat, block: nat)
    requires |x| == |signs| && block <= start && start + block <= |x|
    ensures SignedBlock(x[block..], signs[block..], start - block, block) == SignedBlock(x, signs, start, block)
  {
    var a, b := SignedBlock(x[block..], signs[block..], start - block, block), SignedBlock(x, signs, start, block);
    forall i | 0 <= i < block ensures a[i] == b[i] {
      assert x[block..][start - block + i] == x[start + i] && signs[block..][start - block + i] == signs[start + i];
    }
  }

  lemma OneBlockOn(k: nat, block: nat)
    requires k > 0
    ensures (k - 1) * block == k * block - block && k * block >= block
  {
    assert k * block == (k - 1) * block + block;
  }

  /** Block `k` of the rotated input is the transform of block `k` of the input, each value times its sign; without a
    block size nothing is rotated. */
  lemma {:induction false} RotateBlock(t: Transform, block: nat, x: seq<real>, signs: seq<real>, k: nat)
    requires KeepsLength(t) && |x| == |signs| && (block > 0 ==> Whole(|x|, block)) && k * block + block <= |x|
    ensures block > 0 ==>
      Rotate(t, block, x, signs)[k * block..k * block + block]
      == t(seq(block, i requires 0 <= i < block => x[k * block + i] * signs[k * block + i]))
    ensures block == 0 ==> Rotate(t, block, x, signs) == x
    decreases k
  {
    hide Rotate, FirstBlock;
    if block == 0 {
      Unrotated(t, x, signs);
    } else {
      RotateStep(t, block, x, signs);
      var first, rest := FirstBlock(t, block, x, signs), Rotate(t, block, x[block..], signs[block..]);
      if k == 0 {
        FirstIs(t, block, x, signs);
        assert (first + rest)[..block] == first;
      } else {
        OneBlockOn(k, block);
        RotateBlock(t, block, x[block..], signs[block..], k - 1);
        LaterBlock(x, signs, k * block, block);
        BehindFirst(first, rest, k * block, k * block + block);
        assert SignedBlock(x[block..], signs[block..], (k - 1) * block, block) == SignedBlock(x, signs, k * block, block);
      }
    }
  }

  lemma Unrotated(t: Transform, x: seq<real>, signs: seq<real>)
    requires KeepsLength(t) && |x| == |signs|
    ensures Rotate(t, 0, x, signs) == x
  {
  }

  lemma FirstIs(t: Transform, block: nat, x: seq<real>, signs: seq<real>)
    requires KeepsLength(t) && |x| == |signs| && block <= |x|
    ensures FirstBlock(t, block, x, signs) == t(SignedBlock(x, signs, 0, block))
  {
    var a, b := Signed(x[..block], signs[..block]), SignedBlock(x, signs, 0, block);
    forall i | 0 <= i < block ensures a[i] == b[i] {
      assert x[..block][i] == x[0 + i] && signs[..block][i] == signs[0 + i];
    }
    assert a == b;
  }

  // ---- what is packed, and what a row computes ----

  /** Sixteen 2-bit codes in a word, the first in its lowest bits. */
  function PackWord(codes: seq<nat>): (word: nat)
    ensures (forall i :: 0 <= i < |codes| ==> codes[i] < 4) ==> word < Power4(|codes|)
  {
    if codes == [] then 0 else codes[0] + 4 * PackWord(codes[1..])
  }

  function PackRow(codes: seq<nat>): (words: seq<nat>)
    requires |codes| % 16 == 0
    ensures |words| == |codes| / 16
  {
    if codes == [] then [] else [PackWord(codes[..16])] + PackRow(codes[16..])
  }

  ghost predicate Codes(codes: seq<nat>) {
    forall i :: 0 <= i < |codes| ==> codes[i] < 4
  }

  lemma FourTimes(n: nat, c: nat, p: nat)
    requires c < 4 && p > 0
    ensures (c + 4 * n) / (4 * p) == n / p && (c + 4 * n) % 4 == c
  {
    var q, r := n / p, n % p;
    assert n == q * p + r;
    assert c + 4 * n == q * (4 * p) + (4 * r + c);
    DivideUnique(c + 4 * n, 4 * p, q, 4 * r + c);
  }

  lemma LaterCode(word: nat, n: nat, c: nat, q: nat, p: nat)
    requires word == c + 4 * n && c < 4 && q == 4 * p && p > 0
    ensures word / q % 4 == n / p % 4
  {
    FourTimes(n, c, p);
  }

  lemma WordStep(codes: seq<nat>)
    requires codes != []
    ensures PackWord(codes) == codes[0] + 4 * PackWord(codes[1..])
  {
  }

  lemma PowerStep(i: nat)
    ensures Power4(i) == if i == 0 then 1 else 4 * Power4(i - 1)
  {
  }

  lemma {:induction false} WordCode(codes: seq<nat>, i: nat)
    requires Codes(codes) && i < |codes|
    ensures PackWord(codes) / Power4(i) % 4 == codes[i]
  {
    hide Power4, PackWord;
    PowerStep(i);
    WordStep(codes);
    if i == 0 {
      FourTimes(PackWord(codes[1..]), codes[0], 1);
      assert PackWord(codes) / 1 == PackWord(codes);
    } else {
      WordCode(codes[1..], i - 1);
      LaterCode(PackWord(codes), PackWord(codes[1..]), codes[0], Power4(i), Power4(i - 1));
    }
  }

  /** Packing codes sixteen to a word and reading code `j` gives it back. */
  lemma {:induction false} PackedCode(codes: seq<nat>, j: nat)
    requires Codes(codes) && |codes| % 16 == 0 && j < |codes|
    ensures Code(PackRow(codes), j) == codes[j]
    decreases |codes|
  {
    hide PackWord, Power4;
    var rest := PackRow(codes[16..]);
    if j < 16 {
      By16(j, 0, j);
      WordCode(codes[..16], j);
    } else {
      PackedCode(codes[16..], j - 16);
      By16(j, (j - 16) / 16 + 1, (j - 16) % 16);
      assert ([PackWord(codes[..16])] + rest)[j / 16] == rest[(j - 16) / 16];
    }
  }

  function Total(terms: seq<real>): real {
    if terms == [] then 0.0 else terms[0] + Total(terms[1..])
  }

  lemma {:induction false} TotalSnoc(terms: seq<real>, term: real)
    ensures Total(terms + [term]) == Total(terms) + term
  {
    if terms == [] {
      assert [term][1..] == [];
    } else {
      TotalSnoc(terms[1..], term);
      assert (terms + [term])[1..] == terms[1..] + [term];
    }
  }

  /** A matrix of codes, with a scale and a bias for every 128 of them, and a sign for every input. */
  datatype Plain = Plain(codes: seq<seq<nat>>, scales: seq<seq<real>>, biases: seq<seq<real>>, signs: seq<real>) {
    ghost predicate Valid() {
      && |signs| % 128 == 0 && |scales| == |codes| && |biases| == |codes|
      && (forall r :: 0 <= r < |codes| ==>
            && Codes(codes[r]) && |codes[r]| == |signs|
            && |scales[r]| == |signs| / 128 && |biases[r]| == |signs| / 128)
    }

    /** Entry (r, j): the code times the scale of its group of 128, plus the group's bias. */
    ghost function At(r: nat, j: nat): real
      requires Valid() && r < |codes| && j < |signs|
    {
      codes[r][j] as real * scales[r][j / 128] + biases[r][j / 128]
    }

    ghost function Product(z: seq<real>, r: nat, j: nat): real
      requires Valid() && r < |codes| && j < |z| == |signs|
    {
      z[j] * At(r, j)
    }

    /** The first `n` products of row `r` with a vector. */
    ghost function Terms(z: seq<real>, r: nat, n: nat): (s: seq<real>)
      requires Valid() && r < |codes| && n <= |z| == |signs|
      ensures |s| == n
    {
      seq(n, j requires 0 <= j < n => Product(z, r, j))
    }
  }

  lemma WholeRows(n: nat)
    requires n % 128 == 0
    ensures n % 16 == 0
  {
    By16(n, 8 * (n / 128), 0);
  }

  /** The layer as it is stored, sixteen codes to a word. */
  ghost function Packed(p: Plain): (l: Layer)
    requires p.Valid()
    ensures l.Valid() && l.Width() == |p.signs| && |l.weight| == |p.codes|
  {
    WholeRows(|p.signs|);
    Layer(seq(|p.codes|, r requires 0 <= r < |p.codes| => PackRow(p.codes[r])), p.scales, p.biases, p.signs)
  }

  lemma PackedEntry(p: Plain, r: nat, j: nat)
    requires p.Valid() && r < |p.codes| && j < |p.signs|
    ensures Entry(Packed(p), r, j) == p.At(r, j)
  {
    hide Code, PackRow;
    WholeRows(|p.signs|);
    PackedCode(p.codes[r], j);
  }

  lemma DotStep(p: Plain, z: seq<real>, r: nat, n: nat)
    requires p.Valid() && r < |p.codes| && 0 < n <= |z| == |p.signs|
    ensures Dot(Packed(p), r, z, n) == Dot(Packed(p), r, z, n - 1) + p.Product(z, r, n - 1)
  {
    hide Entry, Packed, Plain.At;
    PackedEntry(p, r, n - 1);
  }

  lemma {:induction false} DotIsTotal(p: Plain, z: seq<real>, r: nat, n: nat)
    requires p.Valid() && r < |p.codes| && n <= |z| == |p.signs|
    ensures Dot(Packed(p), r, z, n) == Total(p.Terms(z, r, n))
  {
    hide Packed, Total, Plain.Product;
    if n == 0 {
      assert p.Terms(z, r, 0) == [];
      NoTerms();
    } else {
      DotIsTotal(p, z, r, n - 1);
      DotStep(p, z, r, n);
      TotalSnoc(p.Terms(z, r, n - 1), p.Product(z, r, n - 1));
      assert p.Terms(z, r, n) == p.Terms(z, r, n - 1) + [p.Product(z, r, n - 1)];
    }
  }

  lemma NoTerms()
    ensures Total([]) == 0.0
  {
  }

  /** The projection of the packed layer is the plain matrix-vector product, taken of the rotated input. */
  lemma ApplyIsProduct(t: Transform, block: nat, p: Plain, x: seq<real>, r: nat)
    requires KeepsLength(t) && p.Valid() && |x| == |p.signs| && (block > 0 ==> Whole(|x|, block)) && r < |p.codes|
    ensures Apply(t, block, Packed(p), x)[r] == Total(p.Terms(Rotate(t, block, x, p.signs), r, |x|))
  {
    hide Rotate, Dot, Total;
    DotIsTotal(p, Rotate(t, block, x, p.signs), r, |x|);
  }

  // ---- the two ways to split ----

  /** What machine `i` computes from its own inputs and its own shard. */
  function Partial(t: Transform, block: nat, l: Layer, x: seq<real>, cuts: seq<nat>, i: nat): (y: seq<real>)
    requires KeepsLength(t) && l.Valid() && |x| == l.Width() && ValidCuts(block, |x|, cuts) && i + 1 < |cuts|
    ensures |y| == |l.weight|
  {
    var a, b := cuts[i], cuts[i + 1];
    assert block > 0 ==> Whole(b - a, block) by {
      if block > 0 {
        WholeMinus(a, b, block);
      }
    }
    Apply(t, block, ColumnShard(l, a, b), x[a..b])
  }

  /** The sum of the first `n` machines' outputs for row `r`. */
  function SumOf(t: Transform, block: nat, l: Layer, x: seq<real>, cuts: seq<nat>, r: nat, n: nat): real
    requires KeepsLength(t) && l.Valid() && |x| == l.Width() && ValidCuts(block, |x|, cuts)
    requires n < |cuts| && r < |l.weight|
  {
    if n == 0 then 0.0
    else SumOf(t, block, l, x, cuts, r, n - 1) + Partial(t, block, l, x, cuts, n - 1)[r]
  }

  lemma PartialDot(t: Transform, block: nat, l: Layer, x: seq<real>, cuts: seq<nat>, i: nat, r: nat)
    requires KeepsLength(t) && l.Valid() && |x| == l.Width() && ValidCuts(block, |x|, cuts) && i + 1 < |cuts|
    requires block > 0 ==> Whole(|x|, block)
    requires r < |l.weight|
    ensures var z := Rotate(t, block, x, l.signs);
      Partial(t, block, l, x, cuts, i)[r] == Dot(l, r, z, cuts[i + 1]) - Dot(l, r, z, cuts[i])
  {
    hide Dot;
    var a, b := cuts[i], cuts[i + 1];
    if block > 0 {
      WholeMinus(a, b, block);
      RotateSlice(t, block, x, l.signs, a, b);
    }
    ShardDot(l, a, b, r, Rotate(t, block, x, l.signs), b - a);
  }

  lemma {:induction false} SumOfDots(t: Transform, block: nat, l: Layer, x: seq<real>, cuts: seq<nat>, r: nat, n: nat)
    requires KeepsLength(t) && l.Valid() && |x| == l.Width() && ValidCuts(block, |x|, cuts)
    requires block > 0 ==> Whole(|x|, block)
    requires n < |cuts| && r < |l.weight|
    ensures SumOf(t, block, l, x, cuts, r, n) == Dot(l, r, Rotate(t, block, x, l.signs), cuts[n])
  {
    hide Partial, Rotate, Entry;
    if n > 0 {
      SumOfDots(t, block, l, x, cuts, r, n - 1);
      PartialDot(t, block, l, x, cuts, n - 1, r);
    }
  }

  /** Sharded-to-all: for every split of the inputs on whole blocks and groups, even or not, the machines' outputs add
    up to the full rotated projection. */
  lemma ColumnShardsSum(t: Transform, block: nat, l: Layer, x: seq<real>, cuts: seq<nat>, r: nat)
    requires KeepsLength(t) && l.Valid() && |x| == l.Width() && ValidCuts(block, |x|, cuts) && r < |l.weight|
    ensures block > 0 ==> Whole(|x|, block)
    ensures SumOf(t, block, l, x, cuts, r, |cuts| - 1) == Apply(t, block, l, x)[r]
  {
    assert OnBoundary(block, cuts[|cuts| - 1]);
    SumOfDots(t, block, l, x, cuts, r, |cuts| - 1);
  }

  lemma RowEntry(l: Layer, lo: nat, hi: nat, r: nat, j: nat)
    requires l.Valid() && lo <= hi <= |l.weight| && r < hi - lo && j < l.Width()
    ensures Entry(RowShard(l, lo, hi), r, j) == Entry(l, lo + r, j)
  {
    hide Code;
  }

  lemma {:induction false} RowDot(l: Layer, lo: nat, hi: nat, r: nat, z: seq<real>, n: nat)
    requires l.Valid() && lo <= hi <= |l.weight| && r < hi - lo && n <= |z| == l.Width()
    ensures Dot(RowShard(l, lo, hi), r, z, n) == Dot(l, lo + r, z, n)
  {
    hide Entry, RowShard;
    if n > 0 {
      RowEntry(l, lo, hi, r, n - 1);
      RowDot(l, lo, hi, r, z, n - 1);
    }
  }

  /** All-to-sharded: a shard of output rows computes exactly those rows of the full result. */
  lemma RowShardIsSlice(t: Transform, block: nat, l: Layer, x: seq<real>, lo: nat, hi: nat)
    requires KeepsLength(t) && l.Valid() && |x| == l.Width() && (block > 0 ==> Whole(|x|, block))
    requires lo <= hi <= |l.weight|
    ensures Apply(t, block, RowShard(l, lo, hi), x) == Apply(t, block, l, x)[lo..hi]
  {
    hide Rotate, Dot;
    forall r | 0 <= r < hi - lo ensures Apply(t, block, RowShard(l, lo, hi), x)[r] == Apply(t, block, l, x)[lo + r] {
      RowDot(l, lo, hi, r, Rotate(t, block, x, l.signs), |x|);
    }
  }

  // ---- the guard for equal splits ----

  /** `require_aligned` refuses to split `width` inputs over `n` machines. */
  predicate Refuses(width: nat, block: nat, n: nat)
    requires n > 0
  {
    width % n != 0 || (width / n) % 128 != 0 || (block > 0 && (width / n) % block != 0)
  }

  lemma Grows(k: int, d: int)
    requires d > 0
    ensures k >= 1 ==> k * d >= d
    ensures k <= -1 ==> k * d <= -d
  {
  }

  lemma SmallMultiple(k: int, d: int, e: int)
    requires d > 0 && k * d == e && -d < e < d
    ensures k == 0
  {
    Grows(k, d);
  }

  lemma DivideUnique(n: nat, d: nat, q: nat, r: nat)
    requires d > 0 && n == q * d + r && r < d
    ensures n / d == q && n % d == r
  {
    assert n == n / d * d + n % d;
    assert (n / d - q) * d == n / d * d - q * d;
    SmallMultiple(n / d - q, d, r - n % d);
  }

  lemma {:induction false} WholeIff(n: nat, block: nat)
    requires block > 0
    ensures Whole(n, block) <==> n % block == 0
  {
    if n >= block {
      WholeIff(n - block, block);
      var q, r := (n - block) / block, (n - block) % block;
      assert (q + 1) * block == q * block + block;
      DivideUnique(n, block, q + 1, r);
    } else {
      DivideUnique(n, block, 0, n);
    }
  }

  lemma {:induction false} WholeMultiple(part: nat, block: nat, i: nat)
    requires block > 0 && Whole(part, block)
    ensures Whole(i * part, block)
  {
    if i > 0 {
      WholeMultiple(part, block, i - 1);
      assert i * part == (i - 1) * part + part;
      WholePlus((i - 1) * part, part, block);
    }
  }

  lemma {:induction false} WholePlus(a: nat, b: nat, block: nat)
    requires block > 0 && Whole(a, block) && Whole(b, block)
    ensures Whole(a + b, block)
    decreases a
  {
    if a > 0 {
      WholePlus(a - block, b, block);
    }
  }

  /** Machine `i` of an equal split takes inputs `i * part` up to `(i + 1) * part`. */
  ghost predicate EqualSplit(width: nat, block: nat, n: nat, part: nat) {
    n * part == width && forall i: nat :: i <= n ==> OnBoundary(block, i * part)
  }

  /** The guard accepts exactly the equal splits that keep whole scale groups and whole blocks. */
  lemma GuardIff(width: nat, block: nat, n: nat)
    requires n > 0
    ensures !Refuses(width, block, n) <==> exists part: nat :: EqualSplit(width, block, n, part)
  {
    hide Whole;
    if !Refuses(width, block, n) {
      AcceptedSplit(width, block, n);
    }
    if exists part: nat :: EqualSplit(width, block, n, part) {
      var part: nat :| EqualSplit(width, block, n, part);
      assert OnBoundary(block, 1 * part);
      DivideUnique(width, n, part, 0);
      if block > 0 {
        WholeIff(part, block);
      }
    }
  }

  lemma AcceptedSplit(width: nat, block: nat, n: nat)
    requires n > 0 && !Refuses(width, block, n)
    ensures EqualSplit(width, block, n, width / n)
  {
    hide Whole;
    var part := width / n;
    assert width == part * n + width % n;
    forall i: nat | i <= n ensures OnBoundary(block, i * part) {
      WholeIff(part, 128);
      WholeMultiple(part, 128, i);
      WholeIff(i * part, 128);
      if block > 0 {
        WholeIff(part, block);
        WholeMultiple(part, block, i);
      }
    }
  }

  /** The splits the probes use: five blocks over three machines and over two, and the equal split of 2048 inputs over
    two machines, refused when one block spans it. */
  lemma LaunchedSplits()
    ensures ValidCuts(1024, 5120, [0, 2048, 4096, 5120]) && ValidCuts(1024, 5120, [0, 3072, 5120])
    ensures !Refuses(2048, 1024, 2) && !Refuses(2048, 0, 2) && Refuses(2048, 2048, 2)
  {
    hide Whole;
    WholeIff(0, 1024);
    WholeIff(2048, 1024);
    WholeIff(3072, 1024);
    WholeIff(4096, 1024);
    WholeIff(5120, 1024);
  }
}
