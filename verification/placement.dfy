/** The weighted split of layers over nodes. */
module Placement {

  /** Sum of the first `k` weights. */
  function Prefix(w: seq<nat>, k: nat): nat
    requires k <= |w|
  {
    if k == 0 then 0 else Prefix(w, k - 1) + w[k - 1]
  }

  function Total(w: seq<nat>): nat {
    Prefix(w, |w|)
  }

  /** Weights, and the number of layers with the output layer counted in. */
  datatype Split = Split(w: seq<nat>, act: nat) {
    ghost predicate Valid() {
      w != [] && Total(w) > 0 && act > 0
    }
  }

  // ---- boundaries ----

  /** The least q with a <= q * b. */
  function Ceiling(a: nat, b: nat): nat
    requires b > 0
  {
    if a == 0 then 0 else if a <= b then 1 else 1 + Ceiling(a - b, b)
  }

  lemma {:induction false} CeilingBounds(a: nat, b: nat)
    requires b > 0
    ensures a <= Ceiling(a, b) * b && (a > 0 ==> (Ceiling(a, b) - 1) * b < a) && (a == 0 ==> Ceiling(a, b) == 0)
  {
    if a > b {
      CeilingBounds(a - b, b);
      var q := Ceiling(a - b, b);
      assert (1 + q) * b == b + q * b && (1 + q - 1) * b == (q - 1) * b + b;
    }
  }

  lemma Scale(i: int, j: int, b: nat)
    requires i <= j
    ensures i * b <= j * b
  {
    assert (j - i) * b >= 0;
  }

  lemma BelowCeiling(i: nat, a: nat, b: nat)
    requires b > 0
    ensures i < Ceiling(a, b) <==> i * b < a
  {
    CeilingBounds(a, b);
    var q := Ceiling(a, b);
    if i < q {
      Scale(i, q - 1, b);
    } else {
      Scale(q, i, b);
    }
  }

  /** The first layer that does not belong to the first `k` nodes. */
  function Boundary(s: Split, k: nat): nat
    requires s.Valid() && k <= |s.w|
  {
    Ceiling(Prefix(s.w, k) * s.act, Total(s.w))
  }

  lemma {:induction false} PrefixGrows(w: seq<nat>, j: nat, k: nat)
    requires j <= k <= |w|
    ensures Prefix(w, j) <= Prefix(w, k)
    decreases k
  {
    if j < k {
      PrefixGrows(w, j, k - 1);
    }
  }

  lemma BoundariesGrow(s: Split, j: nat, k: nat)
    requires s.Valid() && j <= k <= |s.w|
    ensures Boundary(s, j) <= Boundary(s, k)
  {
    hide Ceiling, Prefix;
    PrefixGrows(s.w, j, k);
    Scale(Prefix(s.w, j), Prefix(s.w, k), s.act);
    var i := Boundary(s, k);
    BelowCeiling(i, Prefix(s.w, k) * s.act, Total(s.w));
    BelowCeiling(i, Prefix(s.w, j) * s.act, Total(s.w));
  }

  /** The boundaries start at the first layer and end behind the last. */
  lemma BoundaryEnds(s: Split)
    requires s.Valid()
    ensures Boundary(s, 0) == 0 && Boundary(s, |s.w|) == s.act
  {
    hide Ceiling;
    var t := Total(s.w);
    CeilingBounds(0, t);
    assert Prefix(s.w, 0) * s.act == 0;
    BelowCeiling(s.act, t * s.act, t);
    BelowCeiling(s.act - 1, t * s.act, t);
    assert (s.act - 1) * t == t * s.act - t;
  }

  // ---- the device of a layer ----

  /** Node `k` is past when its share of the weights, up to and with it, is at most the layer's share of the layers. */
  predicate Reached(s: Split, k: nat, il: nat)
    requires s.Valid() && k <= |s.w|
  {
    Prefix(s.w, k) * s.act <= il * Total(s.w)
  }

  /** `dev`: the first node whose cumulative share exceeds the layer's. */
  ghost predicate IsDevice(s: Split, il: nat, k: nat)
    requires s.Valid()
  {
    k < |s.w| && Reached(s, k, il) && !Reached(s, k + 1, il)
  }

  lemma DeviceIff(s: Split, il: nat, k: nat)
    requires s.Valid() && k < |s.w|
    ensures IsDevice(s, il, k) <==> Boundary(s, k) <= il < Boundary(s, k + 1)
  {
    hide Ceiling, Prefix;
    BelowCeiling(il, Prefix(s.w, k) * s.act, Total(s.w));
    BelowCeiling(il, Prefix(s.w, k + 1) * s.act, Total(s.w));
  }

  lemma {:induction false} FindDevice(s: Split, il: nat, n: nat) returns (k: nat)
    requires s.Valid() && n <= |s.w| && il < Boundary(s, n)
    ensures k < n && IsDevice(s, il, k)
  {
    hide Boundary, IsDevice;
    BoundaryEnds(s);
    if Boundary(s, n - 1) <= il {
      k := n - 1;
      DeviceIff(s, il, k);
    } else {
      k := FindDevice(s, il, n - 1);
    }
  }

  /** Every layer, the output layer too, belongs to exactly one node, and the layers of node k are exactly those from
    one boundary to the next: contiguous ranges that tile all layers. */
  lemma OneDevice(s: Split, il: nat) returns (k: nat)
    requires s.Valid() && il < s.act
    ensures IsDevice(s, il, k) && forall j: nat :: IsDevice(s, il, j) ==> j == k
    ensures Boundary(s, k) <= il < Boundary(s, k + 1)
  {
    hide Boundary, IsDevice;
    BoundaryEnds(s);
    k := FindDevice(s, il, |s.w|);
    assert k < |s.w|;
    DeviceIff(s, il, k);
    forall j: nat | IsDevice(s, il, j) ensures j == k {
      DeviceBelow(s, il, j);
      DeviceIff(s, il, j);
      if j < k {
        BoundariesGrow(s, j + 1, k);
      } else if k < j {
        BoundariesGrow(s, k + 1, j);
      }
    }
  }

  lemma DeviceBelow(s: Split, il: nat, k: nat)
    requires s.Valid() && IsDevice(s, il, k)
    ensures k < |s.w|
  {
  }

  /** A node without weight gets no layer. */
  lemma NoWeightNoLayer(s: Split, k: nat)
    requires s.Valid() && k < |s.w| && s.w[k] == 0
    ensures Boundary(s, k) == Boundary(s, k + 1)
  {
  }

  /** Two ceilings differ by less than one from the exact quotient of the difference. */
  lemma CeilingGap(a: nat, b: nat, t: nat)
    requires t > 0
    ensures var gap: int := (Ceiling(b, t) - Ceiling(a, t)) * t - (b - a); 0 - t < gap < t
  {
    CeilingBounds(a, t);
    CeilingBounds(b, t);
    var p: int, q: int := Ceiling(a, t), Ceiling(b, t);
    assert (q - p) * t == q * t - p * t;
    assert (p - 1) * t == p * t - t && (q - 1) * t == q * t - t;
  }

  /** Every node's number of layers is less than one away from its exact share, in units of 1 / total. */
  lemma FairShare(s: Split, k: nat)
    requires s.Valid() && k < |s.w|
    ensures var gap: int := (Boundary(s, k + 1) - Boundary(s, k)) * Total(s.w) - s.w[k] * s.act;
      0 - Total(s.w) < gap < Total(s.w)
  {
    hide Ceiling, Prefix;
    PrefixStep(s.w, k);
    var p, w := Prefix(s.w, k), s.w[k];
    assert (p + w) * s.act == p * s.act + w * s.act;
    CeilingGap(p * s.act, (p + w) * s.act, Total(s.w));
  }

  lemma PrefixStep(w: seq<nat>, k: nat)
    requires k < |w|
    ensures Prefix(w, k + 1) == Prefix(w, k) + w[k]
  {
  }

  // ---- as the program computes it ----

  /** The list of cumulative shares. */
  function Shares(w: seq<nat>, n: nat): (r: seq<real>)
    requires n <= |w| && Total(w) > 0
    ensures |r| == n && forall i :: 0 <= i < n ==> r[i] == Prefix(w, i + 1) as real / Total(w) as real
  {
    if n == 0 then [] else Shares(w, n - 1) + [Prefix(w, n) as real / Total(w) as real]
  }

  /** The loop that accumulates the weights into shares. */
  method Accumulate(w: seq<nat>) returns (splits: seq<real>)
    requires Total(w) > 0
    ensures splits == Shares(w, |w|)
  {
    splits := [];
    var c := 0;
    for i := 0 to |w|
      invariant c == Prefix(w, i) && splits == Shares(w, i)
    {
      c := c + w[i];
      splits := splits + [c as real / Total(w) as real];
    }
  }

  ghost predicate Sorted(a: seq<real>) {
    forall i, j :: 0 <= i <= j < |a| ==> a[i] <= a[j]
  }

  /** `bisect_right`: everything before the result is at most `x`, everything from it on is more. */
  method BisectRight(a: seq<real>, x: real) returns (lo: nat)
    requires Sorted(a)
    ensures lo <= |a| && (forall i :: 0 <= i < lo ==> a[i] <= x) && (forall i :: lo <= i < |a| ==> x < a[i])
  {
    lo := 0;
    var hi := |a|;
    while lo < hi
      invariant lo <= hi <= |a|
      invariant (forall i :: 0 <= i < lo ==> a[i] <= x) && (forall i :: hi <= i < |a| ==> x < a[i])
    {
      var mid := (lo + hi) / 2;
      if x < a[mid] {
        hi := mid;
      } else {
        lo := mid + 1;
      }
    }
  }

  lemma CrossMultiply(a: nat, t: nat, i: nat, n: nat)
    requires t > 0 && n > 0
    ensures a as real / t as real <= i as real / n as real <==> a * n <= i * t
  {
    var x, y := a as real / t as real, i as real / n as real;
    assert x * t as real == a as real && y * n as real == i as real;
    assert x * t as real * n as real == (a * n) as real && y * n as real * t as real == (i * t) as real;
    Compare(x, y, t as real, n as real);
  }

  lemma Compare(x: real, y: real, t: real, n: real)
    requires t > 0.0 && n > 0.0
    ensures x <= y <==> x * t * n <= y * n * t
  {
    var m := t * n;
    assert m > 0.0;
    assert x * t * n == x * m && y * n * t == y * m;
    assert (y - x) * m == y * m - x * m;
    Sign(y - x, m);
  }

  lemma Sign(d: real, m: real)
    requires m > 0.0
    ensures d >= 0.0 <==> d * m >= 0.0
  {
  }

  lemma SharesSorted(w: seq<nat>)
    requires Total(w) > 0
    ensures Sorted(Shares(w, |w|))
  {
    var r := Shares(w, |w|);
    forall i, j | 0 <= i <= j < |r| ensures r[i] <= r[j] {
      PrefixGrows(w, i + 1, j + 1);
      CrossMultiply(Prefix(w, i + 1), Total(w), Prefix(w, j + 1), Total(w));
      Scale(Prefix(w, i + 1), Prefix(w, j + 1), Total(w));
    }
  }

  /** The device found by bisecting the shares, in exact arithmetic, is the one the boundaries give. */
  method Device(s: Split, il: nat) returns (k: nat)
    requires s.Valid() && il < s.act
    ensures IsDevice(s, il, k) && Boundary(s, k) <= il < Boundary(s, k + 1)
  {
    hide Ceiling, Prefix, Boundary;
    SharesSorted(s.w);
    var splits := Accumulate(s.w);
    k := BisectRight(splits, il as real / s.act as real);
    ghost var d := OneDevice(s, il);
    PastShares(s, il, d, splits);
  }

  lemma PastShares(s: Split, il: nat, d: nat, splits: seq<real>)
    requires s.Valid() && IsDevice(s, il, d) && splits == Shares(s.w, |s.w|)
    ensures splits[d] > il as real / s.act as real
    ensures d > 0 ==> splits[d - 1] <= il as real / s.act as real
  {
    hide Prefix;
    CrossMultiply(Prefix(s.w, d + 1), Total(s.w), il, s.act);
    CrossMultiply(Prefix(s.w, d), Total(s.w), il, s.act);
  }

  /** The numbers from `a` up to but without `b`. */
  function Span(a: nat, b: nat): seq<nat>
    decreases b
  {
    if a >= b then [] else Span(a, b - 1) + [b - 1]
  }

  function Min(a: nat, b: nat): nat {
    if a < b then a else b
  }

  lemma NextLayer(s: Split, il: nat, d: nat, k: nat)
    requires s.Valid() && d < |s.w| && k < |s.w| && Boundary(s, d) <= il < Boundary(s, d + 1)
    ensures var was := Span(Min(Boundary(s, k), il), Min(Boundary(s, k + 1), il));
      var now := Span(Min(Boundary(s, k), il + 1), Min(Boundary(s, k + 1), il + 1));
      now == if k == d then was + [il] else was
  {
    hide Boundary;
    if k < d {
      BoundariesGrow(s, k, k + 1);
      BoundariesGrow(s, k + 1, d);
    } else if d < k {
      BoundariesGrow(s, d + 1, k);
      BoundariesGrow(s, k, k + 1);
    }
  }

  /** The loops that find the node of every layer and list the layers of every node. Node k's list is the stretch of
    layers from its boundary to the next; the output layer is placed like any other but listed nowhere. */
  method AssignLayers(s: Split, layers: array<seq<nat>>) returns (placed: seq<nat>, output: nat)
    requires s.Valid() && layers.Length == |s.w| && forall k :: 0 <= k < |s.w| ==> layers[k] == []
    modifies layers
    ensures |placed| == s.act - 1 && forall il :: 0 <= il < |placed| ==> IsDevice(s, il, placed[il])
    ensures IsDevice(s, s.act - 1, output)
    ensures forall k :: 0 <= k < |s.w| ==>
      layers[k] == Span(Min(Boundary(s, k), s.act - 1), Min(Boundary(s, k + 1), s.act - 1))
  {
    hide Boundary, IsDevice;
    placed := [];
    for il := 0 to s.act - 1
      invariant |placed| == il && forall i :: 0 <= i < il ==> IsDevice(s, i, placed[i])
      invariant forall k :: 0 <= k < |s.w| ==> layers[k] == Span(Min(Boundary(s, k), il), Min(Boundary(s, k + 1), il))
    {
      var d := Device(s, il);
      DeviceBelow(s, il, d);
      forall k: nat | k < |s.w| {
        NextLayer(s, il, d, k);
      }
      placed := placed + [d];
      layers[d] := layers[d] + [il];
    }
    output := Device(s, s.act - 1);
  }
}
