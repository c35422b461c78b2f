/** Byte accounting of the tensors over nodes, the fetch requests, and the regrouping of their hashes. */
module Manifest {
  import opened Wrappers

  /** One tensor of one part file; tensors outside the layers have no layer. */
  datatype Tensor = Tensor(name: string, part: nat, offset: nat, size: nat, layer: Option<nat>)

  /** The nodes, the last of them HEAD, and the node of every layer. */
  datatype Plan = Plan(nodes: nat, placed: seq<nat>) {
    ghost predicate Valid(ts: seq<Tensor>) {
      && nodes > 0 && (forall l :: 0 <= l < |placed| ==> placed[l] < nodes)
      && (forall i :: 0 <= i < |ts| && ts[i].layer.Some? ==> ts[i].layer.value < |placed|)
    }

    function Head(): nat
      requires nodes > 0
    {
      nodes - 1
    }

    function NodeOf(t: Tensor): nat
      requires nodes > 0 && (t.layer.Some? ==> t.layer.value < |placed|)
    {
      match t.layer
      case None => nodes - 1
      case Some(l) => placed[l]
    }
  }

  const LARGE: nat := 10485760

  // ---- accounting ----

  function Bytes(p: Plan, ts: seq<Tensor>, node: nat, n: nat): nat
    requires p.Valid(ts) && n <= |ts|
  {
    if n == 0 then 0 else Bytes(p, ts, node, n - 1) + if p.NodeOf(ts[n - 1]) == node then ts[n - 1].size else 0
  }

  /** The accounting's own test for a tensor that is fetched. */
  predicate Counted(p: Plan, t: Tensor)
    requires p.nodes > 0 && (t.layer.Some? ==> t.layer.value < |p.placed|)
  {
    t.layer.Some? && t.size > LARGE && p.NodeOf(t) != p.Head()
  }

  function Fetch(p: Plan, ts: seq<Tensor>, node: nat, n: nat): nat
    requires p.Valid(ts) && n <= |ts|
  {
    if n == 0 then 0
    else Fetch(p, ts, node, n - 1)
         + if p.NodeOf(ts[n - 1]) == node && Counted(p, ts[n - 1]) then ts[n - 1].size else 0
  }

  function Fetches(p: Plan, ts: seq<Tensor>, node: nat, n: nat): nat
    requires p.Valid(ts) && n <= |ts|
  {
    if n == 0 then 0
    else Fetches(p, ts, node, n - 1) + if p.NodeOf(ts[n - 1]) == node && Counted(p, ts[n - 1]) then 1 else 0
  }

  /** One pass over the tensors, the counters of their nodes updated in place. */
  method Account(p: Plan, ts: seq<Tensor>, bytes: array<nat>, fetch: array<nat>, nfetch: array<nat>)
    requires p.Valid(ts) && bytes.Length == fetch.Length == nfetch.Length == p.nodes
    requires bytes != fetch && fetch != nfetch && bytes != nfetch
    requires forall k :: 0 <= k < p.nodes ==> bytes[k] == 0 && fetch[k] == 0 && nfetch[k] == 0
    modifies bytes, fetch, nfetch
    ensures forall k :: 0 <= k < p.nodes ==>
      bytes[k] == Bytes(p, ts, k, |ts|) && fetch[k] == Fetch(p, ts, k, |ts|) && nfetch[k] == Fetches(p, ts, k, |ts|)
  {
    for n := 0 to |ts|
      invariant forall k :: 0 <= k < p.nodes ==>
        bytes[k] == Bytes(p, ts, k, n) && fetch[k] == Fetch(p, ts, k, n) && nfetch[k] == Fetches(p, ts, k, n)
    {
      var t := ts[n];
      var node := p.NodeOf(t);
      bytes[node] := bytes[node] + t.size;
      if t.layer.Some? && t.size > LARGE && node != p.Head() {
        fetch[node] := fetch[node] + t.size;
        nfetch[node] := nfetch[node] + 1;
      }
    }
  }

  function SumOver(p: Plan, ts: seq<Tensor>, n: nat, nodes: nat): nat
    requires p.Valid(ts) && n <= |ts|
  {
    if nodes == 0 then 0 else SumOver(p, ts, n, nodes - 1) + Bytes(p, ts, nodes - 1, n)
  }

  function Sizes(ts: seq<Tensor>, n: nat): nat
    requires n <= |ts|
  {
    if n == 0 then 0 else Sizes(ts, n - 1) + ts[n - 1].size
  }

  lemma {:induction false} OneTensor(p: Plan, ts: seq<Tensor>, n: nat, nodes: nat)
    requires p.Valid(ts) && 0 < n <= |ts|
    ensures SumOver(p, ts, n, nodes)
         == SumOver(p, ts, n - 1, nodes) + if p.NodeOf(ts[n - 1]) < nodes then ts[n - 1].size else 0
  {
    if nodes > 0 {
      OneTensor(p, ts, n, nodes - 1);
    }
  }

  lemma {:induction false} NoTensor(p: Plan, ts: seq<Tensor>, nodes: nat)
    requires p.Valid(ts)
    ensures SumOver(p, ts, 0, nodes) == 0
  {
    if nodes > 0 {
      NoTensor(p, ts, nodes - 1);
    }
  }

  /** Per-node bytes add up to the bytes of all tensors. */
  lemma {:induction false} BytesConserved(p: Plan, ts: seq<Tensor>, n: nat)
    requires p.Valid(ts) && n <= |ts|
    ensures SumOver(p, ts, n, p.nodes) == Sizes(ts, n)
  {
    if n == 0 {
      NoTensor(p, ts, p.nodes);
    } else {
      BytesConserved(p, ts, n - 1);
      OneTensor(p, ts, n, p.nodes);
    }
  }

  // ---- requests ----

  /** The requests of a node, by the separate filter of the emitting loop. */
  function Requests(p: Plan, ts: seq<Tensor>, node: nat, n: nat): seq<Tensor>
    requires p.Valid(ts) && n <= |ts|
  {
    if n == 0 then []
    else
      var rest, t := Requests(p, ts, node, n - 1), ts[n - 1];
      if t.layer.None? || t.size <= LARGE then rest
      else
        var owner := p.placed[t.layer.value];
        if owner == p.Head() || owner != node then rest else rest + [t]
  }

  /** The loop that emits the requests, appending to the list of each tensor's node. */
  method Emit(p: Plan, ts: seq<Tensor>, reqs: array<seq<Tensor>>)
    requires p.Valid(ts) && reqs.Length == p.nodes && forall k :: 0 <= k < p.nodes ==> reqs[k] == []
    modifies reqs
    ensures forall k :: 0 <= k < p.nodes ==> reqs[k] == Requests(p, ts, k, |ts|)
  {
    for n := 0 to |ts|
      invariant forall k :: 0 <= k < p.nodes ==> reqs[k] == Requests(p, ts, k, n)
    {
      var t := ts[n];
      if t.layer.None? || t.size <= LARGE {
        continue;
      }
      var node := p.placed[t.layer.value];
      if node == p.Head() {
        continue;
      }
      reqs[node] := reqs[node] + [t];
    }
  }

  /** The requests of every node are exactly the fetch bytes and the fetch count the accounting reports. */
  lemma {:induction false} RequestsAreFetches(p: Plan, ts: seq<Tensor>, node: nat, n: nat)
    requires p.Valid(ts) && n <= |ts|
    ensures var r := Requests(p, ts, node, n);
      Sizes(r, |r|) == Fetch(p, ts, node, n) && |r| == Fetches(p, ts, node, n)
  {
    if n > 0 {
      RequestsAreFetches(p, ts, node, n - 1);
      var r := Requests(p, ts, node, n - 1);
      SizesPrefix(r, [ts[n - 1]], |r|);
    }
  }

  lemma {:induction false} SizesPrefix(a: seq<Tensor>, b: seq<Tensor>, n: nat)
    requires n <= |a|
    ensures Sizes(a + b, n) == Sizes(a, n)
  {
    if n > 0 {
      SizesPrefix(a, b, n - 1);
    }
  }

  // ---- who keeps what ----

  /** The tensors of the layers placed on a node. */
  ghost function Layered(p: Plan, ts: seq<Tensor>, node: nat): (r: seq<Tensor>)
    requires p.Valid(ts)
  {
    if ts == [] then []
    else
      var t := ts[|ts| - 1];
      Layered(p, ts[..|ts| - 1], node) + if t.layer.Some? && p.placed[t.layer.value] == node then [t] else []
  }

  ghost function Unlayered(ts: seq<Tensor>): seq<Tensor> {
    if ts == [] then []
    else Unlayered(ts[..|ts| - 1]) + if ts[|ts| - 1].layer.None? then [ts[|ts| - 1]] else []
  }

  ghost function Total(ts: seq<Tensor>): nat {
    Sizes(ts, |ts|)
  }

  lemma TotalSnoc(ts: seq<Tensor>, t: Tensor)
    ensures Total(ts + [t]) == Total(ts) + t.size && Total([]) == 0
  {
    SizesPrefix(ts, [t], |ts|);
  }

  lemma {:induction false} BytesPrefix(p: Plan, ts: seq<Tensor>, us: seq<Tensor>, node: nat, n: nat)
    requires p.Valid(ts) && p.Valid(us) && n <= |us| <= |ts| && us == ts[..|us|]
    ensures Bytes(p, ts, node, n) == Bytes(p, us, node, n)
  {
    if n > 0 {
      BytesPrefix(p, ts, us, node, n - 1);
    }
  }

  /** A node's bytes are those of the layers placed on it; the last node, HEAD, has those of all tensors without a layer
    besides. */
  lemma {:induction false} BytesAre(p: Plan, ts: seq<Tensor>, node: nat)
    requires p.Valid(ts) && node < p.nodes
    ensures Bytes(p, ts, node, |ts|)
         == Total(Layered(p, ts, node)) + if node + 1 == p.nodes then Total(Unlayered(ts)) else 0
  {
    hide Total;
    if ts == [] {
      TotalSnoc([], Tensor("", 0, 0, 0, None));
    } else {
      var n := |ts| - 1;
      BytesAre(p, ts[..n], node);
      BytesPrefix(p, ts, ts[..n], node, n);
      var layered, rest := Layered(p, ts[..n], node), Unlayered(ts[..n]);
      TotalSnoc(layered, ts[n]);
      TotalSnoc(rest, ts[n]);
      assert layered + [] == layered && rest + [] == rest;
    }
  }

  /** A node other than HEAD requests exactly the tensors of its own layers of more than 10 MiB, each as often as it is
    listed; HEAD requests nothing. */
  lemma {:induction false} RequestsAre(p: Plan, ts: seq<Tensor>, node: nat, n: nat, t: Tensor)
    requires p.Valid(ts) && n <= |ts| && node < p.nodes
    ensures multiset(Requests(p, ts, node, n))[t]
         == if node + 1 < p.nodes && t.size > 10 * 1024 * 1024 && t.layer.Some? && t.layer.value < |p.placed|
               && p.placed[t.layer.value] == node
            then multiset(ts[..n])[t] else 0
  {
    if n > 0 {
      RequestsAre(p, ts, node, n - 1, t);
      assert ts[..n] == ts[..n - 1] + [ts[n - 1]];
    }
  }

  // ---- hashes ----

  /** A request, with the place its hash has to go back to. */
  datatype Item = Item(node: nat, i: nat, part: nat, offset: nat, size: nat)

  function ItemAt(reqs: seq<seq<Tensor>>, node: nat, i: nat): Item
    requires node < |reqs| && i < |reqs[node]|
  {
    var t := reqs[node][i];
    Item(node, i, t.part, t.offset, t.size)
  }

  ghost predicate Placed(reqs: seq<seq<Tensor>>, x: Item) {
    x.node < |reqs| && x.i < |reqs[x.node]| && x == ItemAt(reqs, x.node, x.i)
  }

  type Groups = map<nat, seq<Item>>

  /** `setdefault(part, []).append(item)` */
  function Insert(g: Groups, x: Item): Groups {
    g[x.part := (if x.part in g then g[x.part] else []) + [x]]
  }

  /** Every item of every group is a request of that part. */
  ghost predicate Truthful(reqs: seq<seq<Tensor>>, g: Groups) {
    forall part, j :: part in g && 0 <= j < |g[part]| ==> g[part][j].part == part && Placed(reqs, g[part][j])
  }

  ghost predicate Holds(g: Groups, x: Item) {
    x.part in g && x in g[x.part]
  }

  lemma Inserted(reqs: seq<seq<Tensor>>, g: Groups, x: Item)
    requires Truthful(reqs, g) && Placed(reqs, x)
    ensures Truthful(reqs, Insert(g, x)) && Holds(Insert(g, x), x)
    ensures forall y :: Holds(g, y) ==> Holds(Insert(g, x), y)
  {
    var h := Insert(g, x);
    assert h[x.part][|h[x.part]| - 1] == x;
    forall part, j | part in h && 0 <= j < |h[part]| ensures h[part][j].part == part && Placed(reqs, h[part][j]) {
      if part == x.part && j < |h[part]| - 1 {
        assert h[part][j] == g[part][j];
      }
    }
  }

  /** Group all requests by the part they are in. */
  method Group(reqs: seq<seq<Tensor>>) returns (g: Groups)
    ensures Truthful(reqs, g)
    ensures forall node, i :: 0 <= node < |reqs| && 0 <= i < |reqs[node]| ==> Holds(g, ItemAt(reqs, node, i))
  {
    hide Truthful, Holds, Insert;
    g := map[];
    assert Truthful(reqs, g) by { NoGroups(reqs); }
    for node := 0 to |reqs|
      invariant Truthful(reqs, g)
      invariant forall m, i :: 0 <= m < node && 0 <= i < |reqs[m]| ==> Holds(g, ItemAt(reqs, m, i))
    {
      for i := 0 to |reqs[node]|
        invariant Truthful(reqs, g)
        invariant forall m, k :: 0 <= m < node && 0 <= k < |reqs[m]| ==> Holds(g, ItemAt(reqs, m, k))
        invariant forall k :: 0 <= k < i ==> Holds(g, ItemAt(reqs, node, k))
      {
        Inserted(reqs, g, ItemAt(reqs, node, i));
        g := Insert(g, ItemAt(reqs, node, i));
      }
    }
  }

  lemma NoGroups(reqs: seq<seq<Tensor>>)
    ensures Truthful(reqs, map[])
  {
  }

  type Hashes = map<(nat, nat), string>

  /** Every hash in the table is the hash of the request at its place. */
  ghost predicate Correct(reqs: seq<seq<Tensor>>, hashes: Hashes, hash: (nat, nat, nat) -> string) {
    forall node, i :: (node, i) in hashes ==>
      && node < |reqs| && i < |reqs[node]|
      && hashes[(node, i)] == hash(reqs[node][i].part, reqs[node][i].offset, reqs[node][i].size)
  }

  /** Hash the items of one part in one pass, and put every hash back at the place of its request. */
  method ScatterPart(reqs: seq<seq<Tensor>>, items: seq<Item>, part: nat, hash: (nat, nat, nat) -> string, before: Hashes)
    returns (hashes: Hashes)
    requires Correct(reqs, before, hash)
    requires forall j :: 0 <= j < |items| ==> items[j].part == part && Placed(reqs, items[j])
    ensures Correct(reqs, hashes, hash)
    ensures forall key :: key in before ==> key in hashes
    ensures forall j :: 0 <= j < |items| ==> (items[j].node, items[j].i) in hashes
  {
    hashes := before;
    for j := 0 to |items|
      invariant Correct(reqs, hashes, hash)
      invariant forall key :: key in before ==> key in hashes
      invariant forall k :: 0 <= k < j ==> (items[k].node, items[k].i) in hashes
    {
      var x := items[j];
      hashes := hashes[(x.node, x.i) := hash(part, x.offset, x.size)];
    }
  }

  /** Part after part, in any order. */
  method Scatter(reqs: seq<seq<Tensor>>, g: Groups, hash: (nat, nat, nat) -> string) returns (hashes: Hashes)
    requires Truthful(reqs, g)
    ensures Correct(reqs, hashes, hash)
    ensures forall x :: Holds(g, x) ==> (x.node, x.i) in hashes
  {
    hide Correct;
    hashes := map[];
    assert Correct(reqs, hashes, hash) by { NoHashes(reqs, hash); }
    var parts := g.Keys;
    while parts != {}
      invariant parts <= g.Keys && Correct(reqs, hashes, hash)
      invariant forall x :: Holds(g, x) && x.part !in parts ==> (x.node, x.i) in hashes
      decreases parts
    {
      var part :| part in parts;
      hashes := ScatterPart(reqs, g[part], part, hash, hashes);
      parts := parts - {part};
    }
  }

  lemma NoHashes(reqs: seq<seq<Tensor>>, hash: (nat, nat, nat) -> string)
    ensures Correct(reqs, map[], hash)
  {
  }

  /** One line of a node's manifest: parts are numbered from one. */
  datatype Line = Line(hash: string, part: nat, offset: nat, size: nat)

  /** The manifest of one node. */
  method LinesOf(reqs: seq<seq<Tensor>>, node: nat, hash: (nat, nat, nat) -> string, hashes: Hashes)
    returns (out: seq<Line>)
    requires node < |reqs| && Correct(reqs, hashes, hash)
    requires forall i: nat :: i < |reqs[node]| ==> (node, i) in hashes
    ensures out == NodeLines(reqs[node], hash, |reqs[node]|)
  {
    out := [];
    for i := 0 to |reqs[node]|
      invariant out == NodeLines(reqs[node], hash, i)
    {
      var t := reqs[node][i];
      out := out + [Line(hashes[(node, i)], t.part + 1, t.offset, t.size)];
    }
  }

  /** The manifests: line i of every node carries the hash of that node's i-th request. */
  method Manifests(reqs: seq<seq<Tensor>>, hash: (nat, nat, nat) -> string) returns (lines: seq<seq<Line>>)
    ensures |lines| == |reqs|
    ensures forall node :: 0 <= node < |reqs| ==> |lines[node]| == |reqs[node]|
    ensures forall node, i :: 0 <= node < |reqs| && 0 <= i < |reqs[node]| ==>
      var t := reqs[node][i]; lines[node][i] == Line(hash(t.part, t.offset, t.size), t.part + 1, t.offset, t.size)
  {
    hide Truthful, Holds, Correct, NodeLines;
    var g := Group(reqs);
    var hashes := Scatter(reqs, g, hash);
    AllHashed(reqs, g, hashes);
    lines := [];
    for node := 0 to |reqs|
      invariant |lines| == node
      invariant forall m :: 0 <= m < node ==> lines[m] == NodeLines(reqs[m], hash, |reqs[m]|)
    {
      var out := LinesOf(reqs, node, hash, hashes);
      lines := lines + [out];
    }
    AllLines(reqs, hash, lines);
  }

  lemma AllLines(reqs: seq<seq<Tensor>>, hash: (nat, nat, nat) -> string, lines: seq<seq<Line>>)
    requires |lines| == |reqs|
    requires forall m :: 0 <= m < |reqs| ==> lines[m] == NodeLines(reqs[m], hash, |reqs[m]|)
    ensures forall node :: 0 <= node < |reqs| ==> |lines[node]| == |reqs[node]|
    ensures forall node, i :: 0 <= node < |reqs| && 0 <= i < |reqs[node]| ==>
      var t := reqs[node][i]; lines[node][i] == Line(hash(t.part, t.offset, t.size), t.part + 1, t.offset, t.size)
  {
    hide NodeLines;
    forall node | 0 <= node < |reqs| {
      LinesAre(reqs[node], hash, |reqs[node]|);
    }
  }

  function NodeLines(requests: seq<Tensor>, hash: (nat, nat, nat) -> string, n: nat): seq<Line>
    requires n <= |requests|
  {
    if n == 0 then []
    else
      var t := requests[n - 1];
      NodeLines(requests, hash, n - 1) + [Line(hash(t.part, t.offset, t.size), t.part + 1, t.offset, t.size)]
  }

  lemma {:induction false} LinesAre(requests: seq<Tensor>, hash: (nat, nat, nat) -> string, n: nat)
    requires n <= |requests|
    ensures var lines := NodeLines(requests, hash, n);
      |lines| == n && forall i :: 0 <= i < n ==>
        var t := requests[i]; lines[i] == Line(hash(t.part, t.offset, t.size), t.part + 1, t.offset, t.size)
  {
    if n > 0 {
      LinesAre(requests, hash, n - 1);
    }
  }

  lemma AllHashed(reqs: seq<seq<Tensor>>, g: Groups, hashes: Hashes)
    requires forall node, i :: 0 <= node < |reqs| && 0 <= i < |reqs[node]| ==> Holds(g, ItemAt(reqs, node, i))
    requires forall x :: Holds(g, x) ==> (x.node, x.i) in hashes
    ensures forall node: nat, i: nat :: node < |reqs| && i < |reqs[node]| ==> (node, i) in hashes
  {
    forall node: nat, i: nat | node < |reqs| && i < |reqs[node]| ensures (node, i) in hashes {
      assert Holds(g, ItemAt(reqs, node, i));
    }
  }
}
