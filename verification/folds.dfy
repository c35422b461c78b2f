/** The fingerprints: FNV-1a over the bytes of a file range, and the 48-bit checksum over a kernel's results. Both fold
  a sequence into a state by steps that lose nothing. */
module Folds {
  import opened Powers

  // ---- exclusive or ----

  /** Exclusive or of the low `n` bits. */
  function Xor(x: nat, y: nat, n: nat): (z: nat)
    ensures z < Pow2(n)
  {
    if n == 0 then 0 else (if x % 2 == y % 2 then 0 else 1) + 2 * Xor(x / 2, y / 2, n - 1)
  }

  lemma {:induction false} XorTwice(x: nat, y: nat, n: nat)
    requires x < Pow2(n)
    ensures Xor(Xor(x, y, n), y, n) == x
  {
    if n > 0 {
      XorTwice(x / 2, y / 2, n - 1);
      var z := Xor(x, y, n);
      assert z % 2 == (if x % 2 == y % 2 then 0 else 1) && z / 2 == Xor(x / 2, y / 2, n - 1);
    }
  }

  lemma {:induction false} XorSwaps(x: nat, y: nat, n: nat)
    ensures Xor(x, y, n) == Xor(y, x, n)
  {
    if n > 0 {
      XorSwaps(x / 2, y / 2, n - 1);
    }
  }

  lemma XorInjective(x: nat, y: nat, b: nat, n: nat)
    requires x < Pow2(n) && y < Pow2(n) && Xor(x, b, n) == Xor(y, b, n)
    ensures x == y
  {
    XorTwice(x, b, n);
    XorTwice(y, b, n);
  }

  // ---- FNV-1a, 64 bits ----

  type Byte = x: nat | x < 256 witness 0
  type Word64 = x: nat | x < 0x1_0000_0000_0000_0000 witness 0

  function XorByte(x: Byte, y: Byte): (z: Byte)
    ensures z == Xor(x, y, 8)
  {
    assert Pow2(8) == 256;
    Xor(x, y, 8)
  }

  lemma XorByteInjective(x: Byte, y: Byte, b: Byte)
    ensures XorByte(x, b) == XorByte(y, b) ==> x == y
    ensures XorByte(b, x) == XorByte(b, y) ==> x == y
  {
    hide Xor;
    assert Pow2(8) == 256;
    XorSwaps(b, x, 8);
    XorSwaps(b, y, 8);
    if XorByte(x, b) == XorByte(y, b) || XorByte(b, x) == XorByte(b, y) {
      XorInjective(x, y, b, 8);
    }
  }

  /** `h ^= byte`: only the low byte of the state changes. */
  function Mix(h: Word64, b: Byte): Word64 {
    h / 256 * 256 + XorByte(h % 256, b)
  }

  /** `h *= 0x100000001b3`, modulo 2^64. */
  function Spread(h: Word64): Word64 {
    h * 0x100_0000_01b3 % 0x1_0000_0000_0000_0000
  }

  function FnvStep(h: Word64, b: Byte): Word64 {
    Spread(Mix(h, b))
  }

  lemma MixInjective(h: Word64, k: Word64, b: Byte, c: Byte)
    ensures Mix(h, b) == Mix(k, b) ==> h == k
    ensures Mix(h, b) == Mix(h, c) ==> b == c
  {
    hide XorByte;
    XorByteInjective(h % 256, k % 256, b);
    XorByteInjective(b, c, h % 256);
    if Mix(h, b) == Mix(k, b) {
      LowByte(h / 256, XorByte(h % 256, b), k / 256, XorByte(k % 256, b));
    }
  }

  lemma LowByte(a: nat, x: Byte, b: nat, y: Byte)
    requires a * 256 + x == b * 256 + y
    ensures a == b && x == y
  {
  }

  lemma Shift64(q: int, y: int)
    ensures (0x1_0000_0000_0000_0000 * q + y) % 0x1_0000_0000_0000_0000 == y % 0x1_0000_0000_0000_0000
  {
  }

  /** Multiplying by the FNV prime can be undone modulo 2^64. */
  lemma SpreadUndone(h: Word64)
    ensures Spread(h) * 0xce96_5057_aff6_957b % 0x1_0000_0000_0000_0000 == h
  {
    var q := h * 0x100_0000_01b3 / 0x1_0000_0000_0000_0000;
    assert Spread(h) == h * 0x100_0000_01b3 - 0x1_0000_0000_0000_0000 * q;
    Shift64(h * 887285111055 - q * 0xce96_5057_aff6_957b, h);
  }

  lemma FnvStepInjective(h: Word64, k: Word64, b: Byte, c: Byte)
    ensures FnvStep(h, b) == FnvStep(k, b) ==> h == k
    ensures FnvStep(h, b) == FnvStep(h, c) ==> b == c
  {
    hide Mix, Spread;
    SpreadUndone(Mix(h, b));
    SpreadUndone(Mix(k, b));
    SpreadUndone(Mix(h, c));
    MixInjective(h, k, b, c);
  }

  function FnvFold(h: Word64, bytes: seq<Byte>): Word64 {
    if bytes == [] then h else FnvStep(FnvFold(h, bytes[..|bytes| - 1]), bytes[|bytes| - 1])
  }

  function Fnv(bytes: seq<Byte>): Word64 {
    FnvFold(0xcbf2_9ce4_8422_2325, bytes)
  }

  lemma FnvSnoc(bytes: seq<Byte>, b: Byte)
    ensures Fnv(bytes + [b]) == FnvStep(Fnv(bytes), b)
  {
    hide FnvStep;
    assert (bytes + [b])[..|bytes|] == bytes;
  }

  lemma XorBit(x: nat, y: nat, n: nat, q: nat, r: nat, i: nat, j: nat)
    requires n > 0 && x == 2 * q + i && y == 2 * r + j && i < 2 && j < 2
    ensures Xor(x, y, n) == (if i == j then 0 else 1) + 2 * Xor(q, r, n - 1)
  {
  }

  lemma NoBits(x: nat, y: nat)
    ensures Xor(x, y, 0) == 0
  {
  }

  lemma FirstXor()
    ensures Xor(0x25, 0x61, 8) == 0x44
  {
    hide Xor;
    XorBit(0x25, 0x61, 8, 0x12, 0x30, 1, 1);
    XorBit(0x12, 0x30, 7, 0x09, 0x18, 0, 0);
    XorBit(0x09, 0x18, 6, 0x04, 0x0c, 1, 0);
    XorBit(0x04, 0x0c, 5, 0x02, 0x06, 0, 0);
    XorBit(0x02, 0x06, 4, 0x01, 0x03, 0, 0);
    XorBit(0x01, 0x03, 3, 0, 1, 1, 1);
    XorBit(0, 1, 2, 0, 0, 0, 1);
    XorBit(0, 0, 1, 0, 0, 0, 0);
    NoBits(0, 0);
  }

  lemma MixLow(h: Word64, b: Byte, high: nat, low: Byte)
    requires h == high * 256 + low
    ensures Mix(h, b) == high * 256 + XorByte(low, b)
  {
    hide XorByte;
    LowByte(h / 256, h % 256, high, low);
  }

  lemma StepIs(h: Word64, b: Byte)
    ensures FnvStep(h, b) == Spread(Mix(h, b))
  {
  }

  lemma FirstStep()
    ensures FnvStep(0xcbf2_9ce4_8422_2325, 0x61) == 0xaf63_dc4c_8601_ec8c
  {
    hide XorByte, Xor, Spread, Mix, FnvStep;
    FirstXor();
    MixLow(0xcbf2_9ce4_8422_2325, 0x61, 0xcb_f29c_e484_2223, 0x25);
    StepIs(0xcbf2_9ce4_8422_2325, 0x61);
    FirstSpread();
  }

  lemma FirstSpread()
    ensures Spread(0xcbf2_9ce4_8422_2344) == 0xaf63_dc4c_8601_ec8c
  {
  }

  /** The published hashes of the empty input and of "a". */
  lemma PublishedHashes()
    ensures Fnv([]) == 0xcbf2_9ce4_8422_2325 && Fnv([0x61]) == 0xaf63_dc4c_8601_ec8c
  {
    hide FnvStep;
    FnvSnoc([], 0x61);
    FirstStep();
    assert [] + [0x61] == [0x61];
  }

  /** Two inputs of one length that differ in exactly one byte have different hashes. */
  lemma {:induction false} OneByteApart(h: Word64, a: seq<Byte>, b: seq<Byte>, i: nat)
    requires |a| == |b| && i < |a| && a[i] != b[i] && forall j :: 0 <= j < |a| && j != i ==> a[j] == b[j]
    ensures FnvFold(h, a) != FnvFold(h, b)
  {
    hide FnvStep;
    var n := |a| - 1;
    if i == n {
      assert a[..n] == b[..n];
      FnvStepInjective(FnvFold(h, a[..n]), FnvFold(h, a[..n]), a[n], b[n]);
    } else {
      OneByteApart(h, a[..n], b[..n], i);
      FnvStepInjective(FnvFold(h, a[..n]), FnvFold(h, b[..n]), a[n], a[n]);
    }
  }

  /** The hash of a range of a file: a loop over its bytes. */
  method HashRange(file: array<Byte>, offset: nat, size: nat) returns (h: Word64)
    requires offset + size <= file.Length
    ensures h == Fnv(file[offset..offset + size])
  {
    hide FnvStep;
    h := 0xcbf2_9ce4_8422_2325;
    var p := offset;
    while p < offset + size
      invariant offset <= p <= offset + size
      invariant h == Fnv(file[offset..p])
    {
      assert file[offset..p + 1][..p - offset] == file[offset..p];
      h := FnvStep(h, file[p]);
      p := p + 1;
    }
  }

  // ---- the checksum, 48 bits ----

  /** One fold: the masked 64-bit arithmetic of the program, for states below 2^48. */
  function CheckStep(c: nat, u: int): (d: nat)
    ensures d < 0x1_0000_0000_0000
  {
    (c * 31 + u) % 0x1_0000_0000_0000
  }

  function Check(c: nat, results: seq<int>): (d: nat)
    ensures results != [] ==> d < 0x1_0000_0000_0000
  {
    if results == [] then c else CheckStep(Check(c, results[..|results| - 1]), results[|results| - 1])
  }

  lemma Shift48(q: int, y: int)
    ensures (0x1_0000_0000_0000 * q + y) % 0x1_0000_0000_0000 == y % 0x1_0000_0000_0000
  {
  }

  lemma Times31Undone(c: nat, u: int)
    requires c < 0x1_0000_0000_0000
    ensures (CheckStep(c, u) - u) * 0xdef7_bdef_7bdf % 0x1_0000_0000_0000 == c
  {
    var q := (c * 31 + u) / 0x1_0000_0000_0000;
    assert CheckStep(c, u) == c * 31 + u - 0x1_0000_0000_0000 * q;
    Shift48(c * 27 - q * 0xdef7_bdef_7bdf, c);
  }

  lemma CheckStepOf(c: nat, u: int)
    ensures CheckStep(c, u) == (c * 31 + u) % 0x1_0000_0000_0000
  {
  }

  lemma SameRemainder(x: int, y: int)
    requires x % 0x1_0000_0000_0000 == y % 0x1_0000_0000_0000
    ensures (x - y) % 0x1_0000_0000_0000 == 0
  {
    var q, p := x / 0x1_0000_0000_0000, y / 0x1_0000_0000_0000;
    assert x - y == 0x1_0000_0000_0000 * (q - p) + 0;
    Shift48(q - p, 0);
  }

  lemma SameResult(c: nat, u: int, v: int)
    requires CheckStep(c, u) == CheckStep(c, v)
    ensures (u - v) % 0x1_0000_0000_0000 == 0
  {
    hide CheckStep;
    CheckStepOf(c, u);
    CheckStepOf(c, v);
    SameRemainder(c * 31 + u, c * 31 + v);
  }

  lemma CheckStepInjective(c: nat, d: nat, u: int, v: int)
    requires c < 0x1_0000_0000_0000 && d < 0x1_0000_0000_0000
    ensures CheckStep(c, u) == CheckStep(d, u) ==> c == d
    ensures CheckStep(c, u) == CheckStep(c, v) ==> (u - v) % 0x1_0000_0000_0000 == 0
  {
    hide CheckStep;
    Times31Undone(c, u);
    Times31Undone(d, u);
    if CheckStep(c, u) == CheckStep(c, v) {
      SameResult(c, u, v);
    }
  }

  /** Two result sequences of one length that differ modulo 2^48 in exactly one element have different checksums. */
  lemma {:induction false} OneResultApart(c: nat, a: seq<int>, b: seq<int>, i: nat)
    requires c < 0x1_0000_0000_0000
    requires |a| == |b| && i < |a| && (a[i] - b[i]) % 0x1_0000_0000_0000 != 0
    requires forall j :: 0 <= j < |a| && j != i ==> a[j] == b[j]
    ensures Check(c, a) != Check(c, b)
  {
    hide CheckStep;
    var n := |a| - 1;
    if i == n {
      assert a[..n] == b[..n];
      CheckStepInjective(Check(c, a[..n]), Check(c, a[..n]), a[n], b[n]);
    } else {
      OneResultApart(c, a[..n], b[..n], i);
      CheckStepInjective(Check(c, a[..n]), Check(c, b[..n]), a[n], a[n]);
    }
  }
}
