/** What the ring looks like at each moment of a step, told from the one-machine reference, and that every action
  leads from one such moment to the next. */
module RingSteps {
  import opened Wrappers
  import opened RingModel
  import opened Ring

  /** Where the one piece of work in progress is: before rank 0 embeds; at rank `rank`, with layers below `l` done; in
    the channel behind rank `rank`; at the head with its reply ready; in the channel back to rank 0. */
  datatype Spot = Begin | Working(rank: nat, l: nat) | Carried(rank: nat) | Answer | Returned

  predicate SpotOk(p: Plan, spot: Spot)
    requires ValidPlan(p)
  {
    match spot
    case Working(b, l) => b < Size(p) && p.cuts[b] <= l <= p.cuts[b + 1]
    case Carried(b) => b < Size(p) - 1
    case _ => true
  }

  predicate PlaceOk(p: Plan, at: Place)
    requires ValidPlan(p)
  {
    at.round < |p.prompts| && at.step < Len(p, at.round)
  }

  function Reached(p: Plan, at: Place): (r: Reference)
    requires ValidPlan(p) && at.round < |p.prompts|
    ensures |r.caches| == p.m.layers
  {
    Ref(p.m, p.mode, p.prompts[at.round], at.step)
  }

  /** What was left behind by the step before `at`: at the start of a prompt, by the last step of the prompt before. */
  function Left(p: Plan, at: Place): (r: Reference)
    requires ValidPlan(p) && at.round <= |p.prompts| && (at.step > 0 ==> at.round < |p.prompts|)
    ensures |r.caches| == p.m.layers
  {
    if at.step > 0 then Reached(p, at)
    else if at.round > 0 then Reached(p, Place(at.round - 1, Len(p, at.round - 1)))
    else Reference(p.m.initial, FreshTail(p.m), None)
  }

  /** Caches and hidden state in the middle of a step, after `l` layers. */
  function Middle(p: Plan, at: Place, l: nat): (r: (seq<Cache>, Hidden))
    requires ValidPlan(p) && at.round < |p.prompts| && l <= p.m.layers
    ensures |r.0| == p.m.layers
  {
    var reached := Reached(p, at);
    Through(p.m, reached.caches, p.m.embed(Feed(p.prompts[at.round], at.step, reached.primary)), l)
  }

  /** The head's outcome of a step. */
  function Outcome(p: Plan, at: Place): (Tail, Token)
    requires ValidPlan(p) && at.round < |p.prompts|
  {
    Finish(p.m, p.mode, p.prompts[at.round], at.step, Reached(p, at).tail, Middle(p, at, p.m.layers).1)
  }

  function Before(p: Plan, at: Place, r: nat): Rank
    requires ValidPlan(p) && r < Size(p) && (PlaceOk(p, at) || (at.round == |p.prompts| && at.step == 0))
  {
    Rank(at, Idle, Slice(p, r, Left(p, at).caches))
  }

  function Past(p: Plan, at: Place, r: nat): Rank
    requires ValidPlan(p) && r < Size(p) && PlaceOk(p, at)
  {
    var caches := Slice(p, r, Middle(p, at, p.m.layers).0);
    if r == 0 then Rank(at, Awaiting, caches) else Rank(After(p, at), Idle, caches)
  }

  function ExpectRank(p: Plan, at: Place, spot: Spot, r: nat): Rank
    requires ValidPlan(p) && r < Size(p) && PlaceOk(p, at) && SpotOk(p, spot)
  {
    match spot
    case Begin => Before(p, at, r)
    case Working(b, l) =>
      if r < b then Past(p, at, r)
      else if r > b then Before(p, at, r)
      else
        var (caches, h) := Middle(p, at, l);
        Rank(at, Computing(l - p.cuts[b], h), Slice(p, b, caches))
    case Carried(b) => if r <= b then Past(p, at, r) else Before(p, at, r)
    case Answer =>
      if r < Size(p) - 1 then Past(p, at, r)
      else Rank(at, Replying(Outcome(p, at).1), Slice(p, r, Middle(p, at, p.m.layers).0))
    case Returned => Past(p, at, r)
  }

  function ExpectHop(p: Plan, at: Place, spot: Spot, i: nat): seq<Hidden>
    requires ValidPlan(p) && i < Size(p) - 1 && PlaceOk(p, at)
  {
    if spot == Carried(i) then [Middle(p, at, p.cuts[i + 1]).1] else []
  }

  function ExpectTail(p: Plan, at: Place, spot: Spot): Tail
    requires ValidPlan(p) && PlaceOk(p, at)
  {
    match spot
    case Working(b, _) => if b == Size(p) - 1 then Reached(p, at).tail else Left(p, at).tail
    case Answer => Outcome(p, at).0
    case Returned => Outcome(p, at).0
    case _ => Left(p, at).tail
  }

  /** The reports of the first `round` prompts, each as if its prompt had run alone. */
  function Reports(p: Plan, round: nat): seq<Tail>
    requires ValidPlan(p) && round <= |p.prompts|
  {
    seq(round, q requires 0 <= q < round => Reached(p, Place(q, Len(p, q))).tail)
  }

  function ExpectLog(p: Plan, at: Place, spot: Spot): seq<Tail>
    requires ValidPlan(p) && PlaceOk(p, at)
  {
    Reports(p, if (spot == Answer || spot == Returned) && at.step + 1 == Len(p, at.round) then at.round + 1 else at.round)
  }

  /** The state of the ring at a moment of a step. */
  ghost predicate At(p: Plan, s: State, at: Place, spot: Spot)
    requires ValidPlan(p) && PlaceOk(p, at) && SpotOk(p, spot)
  {
    && |s.ranks| == Size(p) && (forall r :: 0 <= r < Size(p) ==> s.ranks[r] == ExpectRank(p, at, spot, r))
    && |s.hops| == Size(p) - 1 && (forall i :: 0 <= i < Size(p) - 1 ==> s.hops[i] == ExpectHop(p, at, spot, i))
    && s.replies == (if spot == Returned then [Outcome(p, at).1] else [])
    && s.primary == (if spot == Begin then Left(p, at) else Reached(p, at)).primary
    && s.tail == ExpectTail(p, at, spot)
    && s.log == ExpectLog(p, at, spot)
  }

  /** Every prompt has run, and nothing is in flight. */
  ghost predicate Finished(p: Plan, s: State)
    requires ValidPlan(p)
  {
    var at := Place(|p.prompts|, 0);
    && |s.ranks| == Size(p) && (forall r :: 0 <= r < Size(p) ==> s.ranks[r] == Before(p, at, r))
    && |s.hops| == Size(p) - 1 && (forall i :: 0 <= i < Size(p) - 1 ==> s.hops[i] == [])
    && s.replies == []
    && s.primary == Left(p, at).primary && s.tail == Left(p, at).tail
    && s.log == Reports(p, |p.prompts|)
  }

  // ---- who moves ----

  function Mover(p: Plan, spot: Spot): nat
    requires ValidPlan(p)
  {
    match spot
    case Working(b, _) => b
    case Carried(b) => b + 1
    case Answer => Size(p) - 1
    case _ => 0
  }

  lemma AtShaped(p: Plan, s: State, at: Place, spot: Spot)
    requires ValidPlan(p) && PlaceOk(p, at) && SpotOk(p, spot) && At(p, s, at, spot)
    ensures Shaped(p, s)
  {
    hide Middle, Left, Reached, Outcome;
  }

  /** While a prompt is unfinished exactly one rank can act. */
  lemma OneMover(p: Plan, s: State, at: Place, spot: Spot, r: nat)
    requires ValidPlan(p) && PlaceOk(p, at) && SpotOk(p, spot) && At(p, s, at, spot) && Shaped(p, s)
    ensures Enabled(p, s, r) <==> r == Mover(p, spot)
  {
    hide Middle, Left, Reached, Outcome;
    if r < Size(p) {
      assert s.ranks[r] == ExpectRank(p, at, spot, r);
      if r > 0 {
        assert s.hops[r - 1] == ExpectHop(p, at, spot, r - 1);
      }
    }
  }

  lemma NoMover(p: Plan, s: State, r: nat)
    requires ValidPlan(p) && Finished(p, s)
    ensures Shaped(p, s) && !Enabled(p, s, r)
  {
  }
}
