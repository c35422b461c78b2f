/** Where things lie: images, weights and results as planes of rows, and what the kernels' flat indices mean for them. */
module KernelLayout {
  import opened Kernels
  import Lcg

  // ---- tables stored one after another ----

  lemma {:induction false} FlattenConcat<T>(a: seq<seq<T>>, b: seq<seq<T>>)
    ensures Flatten(a + b) == Flatten(a) + Flatten(b)
    decreases |b|
  {
    if b == [] {
      assert a + b == a;
    } else {
      var n := |b| - 1;
      assert (a + b)[..|a| + n] == a + b[..n];
      FlattenConcat(a, b[..n]);
    }
  }

  lemma {:induction false} FlattenSlice<T>(rows: seq<seq<T>>, width: nat, i: nat)
    requires (forall k :: 0 <= k < |rows| ==> |rows[k]| == width) && i < |rows|
    ensures i * width + width <= |Flatten(rows)| == |rows| * width
    ensures Flatten(rows)[i * width..i * width + width] == rows[i]
  {
    var n := |rows| - 1;
    FlattenLength(rows, width);
    FlattenLength(rows[..n], width);
    RowsBefore(i + 1, |rows|, width);
    if i < n {
      FlattenSlice(rows[..n], width, i);
    }
  }

  lemma {:induction false} FlattenIn<T>(rows: seq<seq<T>>, x: T) returns (r: nat)
    requires x in Flatten(rows)
    ensures r < |rows| && x in rows[r]
  {
    r := |rows| - 1;
    if x !in rows[r] {
      r := FlattenIn(rows[..|rows| - 1], x);
    }
  }

  /** `n` planes of `h` rows of `w` values. */
  ghost predicate Planes(p: seq<seq<seq<int>>>, n: nat, h: nat, w: nat) {
    |p| == n && forall c :: 0 <= c < n ==> Rows(p[c], h, w)
  }

  ghost predicate Rows(p: seq<seq<int>>, h: nat, w: nat) {
    |p| == h && forall y :: 0 <= y < h ==> |p[y]| == w
  }

  /** Plane after plane, row after row. */
  ghost function Stored(p: seq<seq<seq<int>>>): seq<int> {
    Flatten(Flatten(p))
  }

  lemma {:induction false} AllRows(p: seq<seq<seq<int>>>, n: nat, h: nat, w: nat)
    requires Planes(p, n, h, w)
    ensures Rows(Flatten(p), n * h, w)
  {
    if n == 0 {
      assert n * h == 0;
    } else {
      AllRows(p[..n - 1], n - 1, h, w);
      assert (n - 1) * h + h == n * h;
    }
  }

  lemma StoredAt(p: seq<seq<seq<int>>>, n: nat, h: nat, w: nat, c: nat, y: nat, x: nat)
    requires Planes(p, n, h, w) && c < n && y < h && x < w
    ensures |Stored(p)| == n * h * w
    ensures Stored(p)[Index(Index(c, n, y, h), n * h, x, w)] == p[c][y][x]
  {
    AllRows(p, n, h, w);
    FlattenAt(p, h, c, y);
    FlattenAt(Flatten(p), w, Index(c, n, y, h), x);
  }

  lemma StoredLength(p: seq<seq<seq<int>>>, n: nat, h: nat, w: nat)
    requires Planes(p, n, h, w)
    ensures |Stored(p)| == n * h * w
  {
    AllRows(p, n, h, w);
    FlattenLength(Flatten(p), w);
  }

  // ---- the padded image ----

  function Zeros(n: nat): (z: seq<int>)
    ensures |z| == n && forall i :: 0 <= i < n ==> z[i] == 0
  {
    seq(n, i => 0)
  }

  /** A plane with a border of `pad` zeros on every side. */
  function PadPlane(p: seq<seq<int>>, w: nat, pad: nat): seq<seq<int>> {
    var blank := seq(pad, i => Zeros(pad + w + pad));
    blank + seq(|p|, y requires 0 <= y < |p| => Zeros(pad) + p[y] + Zeros(pad)) + blank
  }

  function PadImage(p: seq<seq<seq<int>>>, w: nat, pad: nat): (q: seq<seq<seq<int>>>)
    ensures |q| == |p|
  {
    seq(|p|, c requires 0 <= c < |p| => PadPlane(p[c], w, pad))
  }

  lemma PadAt(p: seq<seq<int>>, h: nat, w: nat, pad: nat, y: nat)
    requires Rows(p, h, w)
    ensures var q := PadPlane(p, w, pad);
      && |q| == h + 2 * pad
      && (y < |q| ==> |q[y]| == w + 2 * pad)
      && (pad <= y < pad + h ==> q[y][pad..pad + w] == p[y - pad])
      && (y < |q| ==> forall x :: 0 <= x < w + 2 * pad && (x < pad || x >= pad + w || y < pad || y >= pad + h) ==>
                        q[y][x] == 0)
  {
    var q := PadPlane(p, w, pad);
    if pad <= y < pad + h {
      assert q[y] == Zeros(pad) + p[y - pad] + Zeros(pad);
    } else if y < |q| {
      assert q[y] == Zeros(pad + w + pad);
    }
  }

  /** A pixel of a plane, zero beyond it. */
  ghost function Lookup(p: seq<seq<int>>, y: nat, x: nat): int {
    if y < |p| && x < |p[y]| then p[y][x] else 0
  }

  /** The border takes half a window; inside it the padded image is the image, on it and beyond it reads as zero. */
  lemma PixelOfPadded(v: Window, image: seq<seq<seq<int>>>, ci: nat, y: nat, x: nat)
    requires Planes(image, v.cin, v.h, v.w) && ci < v.cin
    ensures |Stored(image)| == v.cin * v.h * v.w
    ensures Pixel(v, Stored(image), ci, y - v.ks / 2, x - v.ks / 2) == Lookup(PadImage(image, v.w, v.ks / 2)[ci], y, x)
  {
    hide Stored, PadPlane;
    StoredLength(image, v.cin, v.h, v.w);
    var pad := v.ks / 2;
    var q := PadImage(image, v.w, pad)[ci];
    PadAt(image[ci], v.h, v.w, pad, y);
    if Inside(v, y - pad, x - pad) {
      StoredAt(image, v.cin, v.h, v.w, ci, y - pad, x - pad);
      assert q[y][pad..pad + v.w][x - pad] == q[y][x];
    }
  }

  // ---- the taps of an output pixel ----

  ghost function TapAt(padded: seq<seq<seq<int>>>, kernel: seq<seq<seq<int>>>, cin: nat, ks: nat, top: nat, left: nat,
                       ci: nat, ky: nat, kx: nat): int
    requires Planes(kernel, cin, ks, ks) && |padded| == cin && ci < cin && ky < ks && kx < ks
  {
    kernel[ci][ky][kx] * Lookup(padded[ci], top + ky, left + kx)
  }

  ghost function TapRow(padded: seq<seq<seq<int>>>, kernel: seq<seq<seq<int>>>, cin: nat, ks: nat, top: nat, left: nat,
                        ci: nat, ky: nat, n: nat): (s: seq<int>)
    requires Planes(kernel, cin, ks, ks) && |padded| == cin && ci < cin && ky < ks && n <= ks
  {
    seq(n, kx requires 0 <= kx < n => TapAt(padded, kernel, cin, ks, top, left, ci, ky, kx))
  }

  ghost function TapPlane(padded: seq<seq<seq<int>>>, kernel: seq<seq<seq<int>>>, cin: nat, ks: nat, top: nat,
                          left: nat, ci: nat, n: nat): (s: seq<seq<int>>)
    requires Planes(kernel, cin, ks, ks) && |padded| == cin && ci < cin && n <= ks
  {
    seq(n, ky requires 0 <= ky < n => TapRow(padded, kernel, cin, ks, top, left, ci, ky, ks))
  }

  /** All taps, channel by channel and row by row. */
  ghost function TapPlanes(padded: seq<seq<seq<int>>>, kernel: seq<seq<seq<int>>>, cin: nat, ks: nat, top: nat,
                           left: nat, n: nat): (s: seq<seq<seq<int>>>)
    requires Planes(kernel, cin, ks, ks) && |padded| == cin && n <= cin
  {
    seq(n, ci requires 0 <= ci < n => TapPlane(padded, kernel, cin, ks, top, left, ci, ks))
  }

  ghost predicate Imaged(v: Window, image: seq<seq<seq<int>>>, kernel: seq<seq<seq<int>>>) {
    Planes(image, v.cin, v.h, v.w) && Planes(kernel, v.cin, v.ks, v.ks)
  }

  lemma TapIs(v: Window, image: seq<seq<seq<int>>>, kernel: seq<seq<seq<int>>>, oy: nat, ox: nat, ci: nat, ky: nat,
              kx: nat)
    requires Imaged(v, image, kernel) && ci < v.cin && ky < v.ks && kx < v.ks
    ensures v.Fits(Stored(image), Stored(kernel))
    ensures Tap(v, Stored(image), Stored(kernel), oy, ox, ci, ky, kx)
         == TapAt(PadImage(image, v.w, v.ks / 2), kernel, v.cin, v.ks, oy * v.stride, ox * v.stride, ci, ky, kx)
  {
    hide Stored, PadPlane;
    StoredAt(kernel, v.cin, v.ks, v.ks, ci, ky, kx);
    PixelOfPadded(v, image, ci, oy * v.stride + ky, ox * v.stride + kx);
  }

  lemma {:induction false} TapsXAre(v: Window, image: seq<seq<seq<int>>>, kernel: seq<seq<seq<int>>>, oy: nat, ox: nat,
                                    ci: nat, ky: nat, n: nat)
    requires Imaged(v, image, kernel) && ci < v.cin && ky < v.ks && n <= v.ks
    ensures v.Fits(Stored(image), Stored(kernel))
    ensures TapsX(v, Stored(image), Stored(kernel), oy, ox, ci, ky, n)
         == TapRow(PadImage(image, v.w, v.ks / 2), kernel, v.cin, v.ks, oy * v.stride, ox * v.stride, ci, ky, n)
  {
    hide Stored, PadPlane, Tap, TapAt;
    TapIs(v, image, kernel, oy, ox, ci, ky, if n > 0 then n - 1 else 0);
    if n > 0 {
      TapsXAre(v, image, kernel, oy, ox, ci, ky, n - 1);
    }
  }

  lemma {:induction false} TapsYAre(v: Window, image: seq<seq<seq<int>>>, kernel: seq<seq<seq<int>>>, oy: nat, ox: nat,
                                    ci: nat, n: nat)
    requires Imaged(v, image, kernel) && ci < v.cin && n <= v.ks
    ensures v.Fits(Stored(image), Stored(kernel))
    ensures TapsY(v, Stored(image), Stored(kernel), oy, ox, ci, n)
         == Flatten(TapPlane(PadImage(image, v.w, v.ks / 2), kernel, v.cin, v.ks, oy * v.stride, ox * v.stride, ci, n))
  {
    hide Stored, PadPlane, Tap, TapAt;
    StoredLength(image, v.cin, v.h, v.w);
    StoredLength(kernel, v.cin, v.ks, v.ks);
    if n > 0 {
      TapsYAre(v, image, kernel, oy, ox, ci, n - 1);
      TapsXAre(v, image, kernel, oy, ox, ci, n - 1, v.ks);
      var padded := PadImage(image, v.w, v.ks / 2);
      assert TapPlane(padded, kernel, v.cin, v.ks, oy * v.stride, ox * v.stride, ci, n)[..n - 1]
        == TapPlane(padded, kernel, v.cin, v.ks, oy * v.stride, ox * v.stride, ci, n - 1);
    }
  }

  /** The taps of an output pixel are the kernel's weights times the window of the zero-padded image under them, every
    one of them once, channel by channel and row by row. */
  lemma {:induction false} TapsAre(v: Window, image: seq<seq<seq<int>>>, kernel: seq<seq<seq<int>>>, oy: nat, ox: nat,
                                   n: nat)
    requires Imaged(v, image, kernel) && n <= v.cin
    ensures v.Fits(Stored(image), Stored(kernel))
    ensures Taps(v, Stored(image), Stored(kernel), oy, ox, n)
         == Stored(TapPlanes(PadImage(image, v.w, v.ks / 2), kernel, v.cin, v.ks, oy * v.stride, ox * v.stride, n))
  {
    hide PadPlane, Tap, TapAt, TapPlane, TapsY;
    StoredLength(image, v.cin, v.h, v.w);
    StoredLength(kernel, v.cin, v.ks, v.ks);
    if n > 0 {
      TapsAre(v, image, kernel, oy, ox, n - 1);
      TapsYAre(v, image, kernel, oy, ox, n - 1, v.ks);
      var padded := PadImage(image, v.w, v.ks / 2);
      var all := TapPlanes(padded, kernel, v.cin, v.ks, oy * v.stride, ox * v.stride, n);
      assert all[..n - 1] == TapPlanes(padded, kernel, v.cin, v.ks, oy * v.stride, ox * v.stride, n - 1);
      FlattenConcat(Flatten(all[..n - 1]), all[n - 1]);
    }
  }

  /** An output pixel of channel `co` uses the weights of that channel, whole. */
  lemma ChannelIs(v: Window, kernels: seq<seq<seq<seq<int>>>>, w: seq<int>, co: nat)
    requires co < |kernels| && forall c :: 0 <= c < |kernels| ==> Planes(kernels[c], v.cin, v.ks, v.ks)
    requires w == Flatten(seq(|kernels|, c requires 0 <= c < |kernels| => Stored(kernels[c])))
    ensures |w| == |kernels| * (v.cin * v.ks * v.ks)
    ensures Channel(v, w, |kernels|, co) == Stored(kernels[co])
  {
    hide Stored, Planes;
    var all := seq(|kernels|, c requires 0 <= c < |kernels| => Stored(kernels[c]));
    forall c | 0 <= c < |kernels| ensures |all[c]| == v.cin * v.ks * v.ks {
      StoredLength(kernels[c], v.cin, v.ks, v.ks);
    }
    FlattenSlice(all, v.cin * v.ks * v.ks, co);
  }

  /** What the generator fills a tensor with are small enough entries for the exact sums. */
  lemma FilledEntries(seed: nat, n: nat)
    requires seed < 0x8000_0000
    ensures Entries(seq(n, i requires 0 <= i < n => Lcg.Draw(Lcg.Iter(seed, i + 1))))
  {
    hide Lcg.Draw, Lcg.Iter;
  }

  // ---- the results, in the order they are folded ----

  lemma {:induction false} RowOfBits(g: Shape, a: seq<int>, b: seq<int>, bits: int -> nat, i: nat, n: nat)
    requires Fits(g, a, b) && i < g.m && n <= g.n
    ensures |RowBits(g, a, b, bits, i, n)| == n
    ensures forall j :: 0 <= j < n ==> RowBits(g, a, b, bits, i, n)[j] == bits(Cell(g, a, b, i, j))
  {
    hide Cell;
    if n > 0 {
      RowOfBits(g, a, b, bits, i, n - 1);
    }
  }

  /** The folded bit patterns are one for each cell, row after row. */
  lemma {:induction false} BitsInOrder(g: Shape, a: seq<int>, b: seq<int>, bits: int -> nat, rows: nat, i: nat, j: nat)
    requires Fits(g, a, b) && i < rows <= g.m && j < g.n
    ensures |AllBits(g, a, b, bits, rows)| == rows * g.n
    ensures AllBits(g, a, b, bits, rows)[Index(i, rows, j, g.n)] == bits(Cell(g, a, b, i, j))
  {
    hide Cell, RowBits;
    BitsCount(g, a, b, bits, rows);
    BitsCount(g, a, b, bits, rows - 1);
    RowsBefore(rows, rows, g.n);
    RowsBefore(i + 1, rows, g.n);
    RowOfBits(g, a, b, bits, rows - 1, g.n);
    if i < rows - 1 {
      BitsInOrder(g, a, b, bits, rows - 1, i, j);
    }
  }

  lemma {:induction false} BitsCount(g: Shape, a: seq<int>, b: seq<int>, bits: int -> nat, rows: nat)
    requires Fits(g, a, b) && rows <= g.m
    ensures |AllBits(g, a, b, bits, rows)| == rows * g.n
  {
    hide Cell, RowBits;
    if rows > 0 {
      BitsCount(g, a, b, bits, rows - 1);
      RowOfBits(g, a, b, bits, rows - 1, g.n);
      RowsBefore(rows, rows, g.n);
    }
  }

  lemma {:induction false} RowOfPixels(l: Layer, x: seq<int>, w: seq<int>, co: nat, oy: nat, n: nat)
    requires l.Fits(x, w) && co < l.cout
    ensures |RowPixels(l, x, w, co, oy, n)| == n
    ensures forall ox :: 0 <= ox < n ==> RowPixels(l, x, w, co, oy, n)[ox] == l.bits(Output(l, x, w, co, oy, ox))
  {
    hide Output;
    if n > 0 {
      RowOfPixels(l, x, w, co, oy, n - 1);
    }
  }

  lemma {:induction false} PlaneOfPixels(l: Layer, x: seq<int>, w: seq<int>, co: nat, rows: nat, oy: nat, ox: nat)
    requires l.Fits(x, w) && co < l.cout && oy < rows && ox < l.ow
    ensures |PlanePixels(l, x, w, co, rows)| == rows * l.ow
    ensures PlanePixels(l, x, w, co, rows)[Index(oy, rows, ox, l.ow)] == l.bits(Output(l, x, w, co, oy, ox))
  {
    hide Output, RowPixels;
    PlaneCount(l, x, w, co, rows);
    PlaneCount(l, x, w, co, rows - 1);
    RowsBefore(rows, rows, l.ow);
    RowsBefore(oy + 1, rows, l.ow);
    RowOfPixels(l, x, w, co, rows - 1, l.ow);
    if oy < rows - 1 {
      PlaneOfPixels(l, x, w, co, rows - 1, oy, ox);
    }
  }

  lemma {:induction false} PlaneCount(l: Layer, x: seq<int>, w: seq<int>, co: nat, rows: nat)
    requires l.Fits(x, w) && co < l.cout
    ensures |PlanePixels(l, x, w, co, rows)| == rows * l.ow
  {
    hide Output, RowPixels;
    if rows > 0 {
      PlaneCount(l, x, w, co, rows - 1);
      RowOfPixels(l, x, w, co, rows - 1, l.ow);
      RowsBefore(rows, rows, l.ow);
    }
  }

  lemma {:induction false} PixelsCount(l: Layer, x: seq<int>, w: seq<int>, n: nat)
    requires l.Fits(x, w) && n <= l.cout
    ensures |AllPixels(l, x, w, n)| == n * (l.oh * l.ow)
  {
    hide Output, PlanePixels;
    if n > 0 {
      PixelsCount(l, x, w, n - 1);
      PlaneCount(l, x, w, n - 1, l.oh);
      RowsBefore(n, n, l.oh * l.ow);
    }
  }

  lemma {:induction false} PlaneInOrder(l: Layer, x: seq<int>, w: seq<int>, n: nat, co: nat, size: nat, at: nat)
    requires l.Fits(x, w) && co < n <= l.cout && size == l.oh * l.ow && at < size
    ensures |AllPixels(l, x, w, n)| == n * size && |PlanePixels(l, x, w, co, l.oh)| == size
    ensures AllPixels(l, x, w, n)[Index(co, n, at, size)] == PlanePixels(l, x, w, co, l.oh)[at]
  {
    hide PlanePixels;
    PixelsCount(l, x, w, n);
    PixelsCount(l, x, w, n - 1);
    PlaneCount(l, x, w, co, l.oh);
    PlaneCount(l, x, w, n - 1, l.oh);
    RowsBefore(n, n, size);
    RowsBefore(co + 1, n, size);
    if co < n - 1 {
      PlaneInOrder(l, x, w, n - 1, co, size, at);
    }
  }

  /** The folded bit patterns are one for each output pixel, and that of pixel (oy, ox) of channel `co` is behind all of
    the channels before it and the rows above it. */
  lemma PixelsInOrder(l: Layer, x: seq<int>, w: seq<int>, co: nat, oy: nat, ox: nat)
    requires l.Fits(x, w) && co < l.cout && oy < l.oh && ox < l.ow
    ensures |AllPixels(l, x, w, l.cout)| == l.cout * (l.oh * l.ow)
    ensures AllPixels(l, x, w, l.cout)[Index(co, l.cout, Index(oy, l.oh, ox, l.ow), l.oh * l.ow)]
         == l.bits(Output(l, x, w, co, oy, ox))
  {
    hide Output, AllPixels, PlanePixels, Index;
    PlaneOfPixels(l, x, w, co, l.oh, oy, ox);
    PlaneInOrder(l, x, w, l.cout, co, l.oh * l.ow, Index(oy, l.oh, ox, l.ow));
  }
}
