/** Every action of the ring takes it from one moment of a step to the next. */
module RingMoves {
  import opened Wrappers
  import opened RingModel
  import opened Ring
  import opened RingSteps

  // ---- the reference across a step ----

  lemma Opens(p: Plan, at: Place, r: nat)
    requires ValidPlan(p) && PlaceOk(p, at) && r < Size(p)
    ensures Opening(p, r, Before(p, at, r)) == Slice(p, r, Middle(p, at, p.cuts[r]).0)
  {
    var reached := Reached(p, at);
    var h := p.m.embed(Feed(p.prompts[at.round], at.step, reached.primary));
    NotReachedSlice(p.m, reached.caches, h, p.cuts[r], p.cuts[r + 1]);
  }

  lemma Settles(p: Plan, at: Place, r: nat)
    requires ValidPlan(p) && PlaceOk(p, at) && r < Size(p)
    ensures Slice(p, r, Middle(p, at, p.cuts[r + 1]).0) == Slice(p, r, Middle(p, at, p.m.layers).0)
  {
    var reached := Reached(p, at);
    var h := p.m.embed(Feed(p.prompts[at.round], at.step, reached.primary));
    PassedSlice(p.m, reached.caches, h, p.cuts[r], p.cuts[r + 1]);
  }

  lemma LayerStep(p: Plan, at: Place, r: nat, l: nat)
    requires ValidPlan(p) && PlaceOk(p, at) && r < Size(p) && p.cuts[r] <= l < p.cuts[r + 1] <= p.m.layers
    ensures var (caches, h) := Middle(p, at, l);
      var slice, done := Slice(p, r, caches), l - p.cuts[r];
      var (c, y) := p.m.layer(l, slice[done], h);
      && Middle(p, at, l + 1).1 == y
      && Slice(p, r, Middle(p, at, l + 1).0) == slice[done := c]
  {
    var (caches, h) := Middle(p, at, l);
    var slice, done := Slice(p, r, caches), l - p.cuts[r];
    var (c, y) := p.m.layer(l, slice[done], h);
    assert slice[done] == caches[l];
    assert Middle(p, at, l + 1) == (caches[l := c], y);
    assert caches[l := c][p.cuts[r]..p.cuts[r + 1]] == slice[done := c];
  }

  /** The step after the last layer and the head: what `Ref` reaches next. */
  lemma StepReached(p: Plan, at: Place)
    requires ValidPlan(p) && PlaceOk(p, at)
    ensures Reached(p, Place(at.round, at.step + 1))
            == Reference(Middle(p, at, p.m.layers).0, Outcome(p, at).0,
                         if Keeps(p.mode, p.prompts[at.round], at.step) then Some(Outcome(p, at).1)
                         else Reached(p, at).primary)
  {
    hide Through, Finish;
  }

  lemma LeftAfter(p: Plan, at: Place)
    requires ValidPlan(p) && PlaceOk(p, at)
    ensures After(p, at).round <= |p.prompts| && (After(p, at).step > 0 ==> After(p, at).round < |p.prompts|)
    ensures Left(p, After(p, at)) == Reached(p, Place(at.round, at.step + 1))
  {
    hide Ref;
  }

  lemma Restarts(p: Plan, at: Place)
    requires ValidPlan(p) && PlaceOk(p, at)
    ensures (if at.step == 0 then None else Left(p, at).primary) == Reached(p, at).primary
    ensures (if at.step == 0 then FreshTail(p.m) else Left(p, at).tail) == Reached(p, at).tail
  {
  }

  // ---- the six actions ----

  lemma EmbedMoves(p: Plan, s: State, at: Place)
    requires ValidPlan(p) && PlaceOk(p, at) && At(p, s, at, Begin) && Shaped(p, s) && Enabled(p, s, 0)
    ensures SpotOk(p, Working(0, 0)) && At(p, Next(p, s, 0), at, Working(0, 0))
  {
    hide Left, Slice;
    assert s.ranks[0] == ExpectRank(p, at, Begin, 0);
    Restarts(p, at);
    Opens(p, at, 0);
  }

  lemma ReceiveMoves(p: Plan, s: State, at: Place, b: nat)
    requires ValidPlan(p) && PlaceOk(p, at) && b < Size(p) - 1 && At(p, s, at, Carried(b)) && Shaped(p, s)
    requires Enabled(p, s, b + 1)
    ensures SpotOk(p, Working(b + 1, p.cuts[b + 1])) && At(p, Next(p, s, b + 1), at, Working(b + 1, p.cuts[b + 1]))
  {
    hide Left, Slice, Middle, Reached, Outcome, Opening;
    assert s.ranks[b + 1] == ExpectRank(p, at, Carried(b), b + 1);
    assert s.hops[b] == ExpectHop(p, at, Carried(b), b);
    Restarts(p, at);
    Opens(p, at, b + 1);
  }

  lemma LayerMoves(p: Plan, s: State, at: Place, b: nat, l: nat)
    requires ValidPlan(p) && PlaceOk(p, at) && b < Size(p) && p.cuts[b] <= l < p.cuts[b + 1]
    requires At(p, s, at, Working(b, l)) && Shaped(p, s) && Enabled(p, s, b)
    ensures At(p, Next(p, s, b), at, Working(b, l + 1))
  {
    hide Left, Slice, Middle, Reached, Outcome;
    assert s.ranks[b] == ExpectRank(p, at, Working(b, l), b);
    LayerStep(p, at, b, l);
  }

  lemma SendMoves(p: Plan, s: State, at: Place, b: nat)
    requires ValidPlan(p) && PlaceOk(p, at) && b < Size(p) - 1 && SpotOk(p, Working(b, p.cuts[b + 1]))
    requires At(p, s, at, Working(b, p.cuts[b + 1])) && Shaped(p, s) && Enabled(p, s, b)
    ensures At(p, Next(p, s, b), at, Carried(b))
  {
    hide Left, Slice, Middle, Reached, Outcome;
    assert s.ranks[b] == ExpectRank(p, at, Working(b, p.cuts[b + 1]), b);
    assert s.hops[b] == ExpectHop(p, at, Working(b, p.cuts[b + 1]), b);
    Settles(p, at, b);
  }

  lemma PredictMoves(p: Plan, s: State, at: Place)
    requires ValidPlan(p) && PlaceOk(p, at) && SpotOk(p, Working(Size(p) - 1, p.m.layers))
    requires At(p, s, at, Working(Size(p) - 1, p.m.layers)) && Shaped(p, s) && Enabled(p, s, Size(p) - 1)
    ensures At(p, Next(p, s, Size(p) - 1), at, Answer)
  {
    hide Left, Slice, Middle, Reached;
    var b := Size(p) - 1;
    assert s.ranks[b] == ExpectRank(p, at, Working(b, p.m.layers), b);
    StepReached(p, at);
    ReportsGrow(p, at);
  }

  lemma ReportsGrow(p: Plan, at: Place)
    requires ValidPlan(p) && PlaceOk(p, at)
    ensures at.step + 1 == Len(p, at.round) ==>
      Reports(p, at.round) + [Reached(p, Place(at.round, at.step + 1)).tail] == Reports(p, at.round + 1)
  {
    hide Reached;
  }

  lemma ReplyMoves(p: Plan, s: State, at: Place)
    requires ValidPlan(p) && PlaceOk(p, at) && At(p, s, at, Answer) && Shaped(p, s) && Enabled(p, s, Size(p) - 1)
    ensures At(p, Next(p, s, Size(p) - 1), at, Returned)
  {
    hide Left, Slice, Middle, Reached, Outcome;
    assert s.ranks[Size(p) - 1] == ExpectRank(p, at, Answer, Size(p) - 1);
  }

  ghost predicate AtPlace(p: Plan, s: State, at: Place)
    requires ValidPlan(p)
  {
    if PlaceOk(p, at) then At(p, s, at, Begin) else at == Place(|p.prompts|, 0) && Finished(p, s)
  }

  lemma HearMoves(p: Plan, s: State, at: Place)
    requires ValidPlan(p) && PlaceOk(p, at) && At(p, s, at, Returned) && Shaped(p, s) && Enabled(p, s, 0)
    ensures AtPlace(p, Next(p, s, 0), After(p, at))
  {
    hide Left, Slice, Middle, Reached, Outcome;
    assert s.ranks[0] == ExpectRank(p, at, Returned, 0);
    StepReached(p, at);
    LeftAfter(p, at);
  }

  // ---- one lemma for all ----

  datatype Moment = Moment(at: Place, spot: Spot)

  ghost predicate Holds(p: Plan, s: State, x: Moment)
    requires ValidPlan(p)
  {
    if PlaceOk(p, x.at) then SpotOk(p, x.spot) && At(p, s, x.at, x.spot)
    else x == Moment(Place(|p.prompts|, 0), Begin) && Finished(p, s)
  }

  function Following(p: Plan, x: Moment): Moment
    requires ValidPlan(p) && PlaceOk(p, x.at) && SpotOk(p, x.spot)
  {
    match x.spot
    case Begin => Moment(x.at, Working(0, 0))
    case Working(b, l) =>
      if l < p.cuts[b + 1] then Moment(x.at, Working(b, l + 1))
      else if b < Size(p) - 1 then Moment(x.at, Carried(b))
      else Moment(x.at, Answer)
    case Carried(b) => Moment(x.at, Working(b + 1, p.cuts[b + 1]))
    case Answer => Moment(x.at, Returned)
    case Returned => Moment(After(p, x.at), Begin)
  }

  /** Whichever rank can act, acting leads from one moment of the reference to the one that follows it. */
  lemma Moves(p: Plan, s: State, x: Moment, r: nat)
    requires ValidPlan(p) && PlaceOk(p, x.at) && Holds(p, s, x) && Shaped(p, s) && Enabled(p, s, r)
    ensures Holds(p, Next(p, s, r), Following(p, x))
  {
    hide At, Next, Finished, Enabled;
    OneMover(p, s, x.at, x.spot, r);
    match x.spot
    case Begin => EmbedMoves(p, s, x.at);
    case Working(b, l) =>
      if l < p.cuts[b + 1] {
        LayerMoves(p, s, x.at, b, l);
      } else if b < Size(p) - 1 {
        SendMoves(p, s, x.at, b);
      } else {
        PredictMoves(p, s, x.at);
      }
    case Carried(b) => ReceiveMoves(p, s, x.at, b);
    case Answer => ReplyMoves(p, s, x.at);
    case Returned => HearMoves(p, s, x.at);
  }
}
