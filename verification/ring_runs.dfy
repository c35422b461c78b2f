/** The ring's theorems, over every schedule of its ranks. */
module RingRuns {
  import opened Wrappers
  import opened RingModel
  import opened Ring
  import opened RingSteps
  import opened RingMoves

  // ---- the length of a run ----

  /** Actions in one step: a receive or an embedding, a send, and its layers for every rank; the head; and rank 0's
    receipt of the reply. */
  function StepActions(p: Plan): nat
    requires ValidPlan(p)
  {
    p.m.layers + 2 * Size(p) + 2
  }

  /** Steps of the first `round` prompts. */
  function Steps(p: Plan, round: nat): nat
    requires ValidPlan(p) && round <= |p.prompts|
  {
    if round == 0 then 0 else Steps(p, round - 1) + Len(p, round - 1)
  }

  function Times(a: nat, b: nat): nat {
    a * b
  }

  function Total(p: Plan): nat
    requires ValidPlan(p)
  {
    Times(Steps(p, |p.prompts|), StepActions(p))
  }

  function Position(p: Plan, spot: Spot): nat
    requires ValidPlan(p) && SpotOk(p, spot)
  {
    match spot
    case Begin => 0
    case Working(b, l) => 1 + l + 2 * b
    case Carried(b) => 2 + p.cuts[b + 1] + 2 * b
    case Answer => p.m.layers + 2 * Size(p)
    case Returned => p.m.layers + 2 * Size(p) + 1
  }

  ghost predicate MomentOk(p: Plan, x: Moment)
    requires ValidPlan(p)
  {
    SpotOk(p, x.spot) && (PlaceOk(p, x.at) || x == Moment(Place(|p.prompts|, 0), Begin))
  }

  /** The number of actions before a moment. */
  function Clock(p: Plan, x: Moment): nat
    requires ValidPlan(p) && MomentOk(p, x)
  {
    Times(Steps(p, x.at.round) + x.at.step, StepActions(p)) + Position(p, x.spot)
  }

  lemma OneMore(n: nat, w: nat)
    ensures Times(n + 1, w) == Times(n, w) + w
  {
  }

  lemma Ticks(p: Plan, x: Moment)
    requires ValidPlan(p) && PlaceOk(p, x.at) && SpotOk(p, x.spot)
    requires MomentOk(p, Following(p, x))
    ensures Clock(p, Following(p, x)) == Clock(p, x) + 1
  {
    hide Times;
    if x.spot == Returned {
      OneMore(Steps(p, x.at.round) + x.at.step, StepActions(p));
      assert Steps(p, x.at.round + 1) == Steps(p, x.at.round) + Len(p, x.at.round);
    }
  }

  lemma {:induction false} StepsGrow(p: Plan, a: nat, b: nat)
    requires ValidPlan(p) && a <= b <= |p.prompts|
    ensures Steps(p, a) <= Steps(p, b)
    decreases b
  {
    if a < b {
      StepsGrow(p, a, b - 1);
    }
  }

  lemma {:induction false} Product(a: nat, b: nat, w: nat, k: nat)
    requires a < b && k < w
    ensures Times(a, w) + k < Times(b, w)
    decreases b
  {
    hide Times;
    OneMore(b - 1, w);
    if a < b - 1 {
      Product(a, b - 1, w, k);
    }
  }

  lemma BeforeEnd(p: Plan, x: Moment)
    requires ValidPlan(p) && PlaceOk(p, x.at) && SpotOk(p, x.spot)
    ensures Clock(p, x) < Total(p)
  {
    hide Times;
    StepsGrow(p, x.at.round + 1, |p.prompts|);
    assert Steps(p, x.at.round + 1) == Steps(p, x.at.round) + Len(p, x.at.round);
    Product(Steps(p, x.at.round) + x.at.step, Steps(p, |p.prompts|), StepActions(p), Position(p, x.spot));
  }

  lemma AtEnd(p: Plan)
    requires ValidPlan(p)
    ensures Clock(p, Moment(Place(|p.prompts|, 0), Begin)) == Total(p)
  {
  }

  // ---- schedules ----

  /** The state after letting the named ranks act in turn, if each could act when its turn came. */
  function RunTo(p: Plan, schedule: seq<nat>): Option<State>
    requires ValidPlan(p)
  {
    if schedule == [] then Some(Initial(p))
    else
      var n := |schedule| - 1;
      match RunTo(p, schedule[..n])
      case None => None
      case Some(s) =>
        if Shaped(p, s) && Enabled(p, s, schedule[n]) then Some(Next(p, s, schedule[n])) else None
  }

  lemma InitialHolds(p: Plan)
    requires ValidPlan(p)
    ensures MomentOk(p, Moment(Place(0, 0), Begin)) && Holds(p, Initial(p), Moment(Place(0, 0), Begin))
  {
  }

  lemma HoldsOk(p: Plan, s: State, x: Moment)
    requires ValidPlan(p) && Holds(p, s, x)
    ensures MomentOk(p, x) && Shaped(p, s)
  {
    hide At, Finished;
    if PlaceOk(p, x.at) {
      AtShaped(p, s, x.at, x.spot);
    } else {
      NoMover(p, s, 0);
    }
  }

  /** Every schedule has led to the moment of the reference its length says. */
  lemma {:induction false} Arrives(p: Plan, schedule: seq<nat>, s: State) returns (x: Moment)
    requires ValidPlan(p) && RunTo(p, schedule) == Some(s)
    ensures Holds(p, s, x) && MomentOk(p, x) && Clock(p, x) == |schedule|
  {
    hide At, Finished, Next, Initial, Enabled, Shaped;
    if schedule == [] {
      InitialHolds(p);
      x := Moment(Place(0, 0), Begin);
    } else {
      var n := |schedule| - 1;
      var before := RunTo(p, schedule[..n]).value;
      var y := Arrives(p, schedule[..n], before);
      if PlaceOk(p, y.at) {
        Moves(p, before, y, schedule[n]);
        x := Following(p, y);
        HoldsOk(p, s, x);
        Ticks(p, y);
      } else {
        NoMover(p, before, schedule[n]);
        assert false;
      }
    }
  }

  // ---- the theorems ----

  /** No schedule is longer than the fixed total. Short of it exactly one rank can act, so no run deadlocks; at the
    total no rank can, and every prompt has run. */
  lemma RunsEnd(p: Plan, schedule: seq<nat>, s: State)
    requires ValidPlan(p) && RunTo(p, schedule) == Some(s)
    ensures |schedule| <= Total(p) && Shaped(p, s)
    ensures |schedule| < Total(p) ==> exists r :: Enabled(p, s, r) && forall q :: Enabled(p, s, q) ==> q == r
    ensures |schedule| == Total(p) ==> Finished(p, s) && forall r :: !Enabled(p, s, r)
  {
    hide At, Finished, RunTo, Enabled, Shaped, Times, Steps, StepActions, Position;
    var x := Arrives(p, schedule, s);
    HoldsOk(p, s, x);
    if PlaceOk(p, x.at) {
      BeforeEnd(p, x);
      forall r ensures Enabled(p, s, r) <==> r == Mover(p, x.spot) {
        OneMover(p, s, x.at, x.spot, r);
      }
      assert Enabled(p, s, Mover(p, x.spot));
    } else {
      AtEnd(p);
      forall r ensures !Enabled(p, s, r) {
        NoMover(p, s, r);
      }
    }
  }

  function InFlight(hops: seq<seq<Hidden>>): nat {
    if hops == [] then 0 else |hops[0]| + InFlight(hops[1..])
  }

  lemma {:induction false} NoneInFlight(hops: seq<seq<Hidden>>)
    requires forall i :: 0 <= i < |hops| ==> hops[i] == []
    ensures InFlight(hops) == 0
  {
    if hops != [] {
      NoneInFlight(hops[1..]);
    }
  }

  lemma {:induction false} OneInFlight(hops: seq<seq<Hidden>>, b: nat)
    requires b < |hops| && |hops[b]| == 1 && forall i :: 0 <= i < |hops| && i != b ==> hops[i] == []
    ensures InFlight(hops) == 1
  {
    if b == 0 {
      NoneInFlight(hops[1..]);
    } else {
      OneInFlight(hops[1..], b - 1);
    }
  }

  /** At most one message is in flight anywhere in the ring. */
  lemma OneMessage(p: Plan, schedule: seq<nat>, s: State)
    requires ValidPlan(p) && RunTo(p, schedule) == Some(s)
    ensures InFlight(s.hops) + |s.replies| <= 1
  {
    hide RunTo, Before, ExpectRank, Middle, Outcome, Left, Reached;
    var x := Arrives(p, schedule, s);
    if PlaceOk(p, x.at) && x.spot.Carried? {
      OneInFlight(s.hops, x.spot.rank);
    } else {
      NoneInFlight(s.hops);
    }
  }

  /** No token but a real one is ever embedded: not the placeholder, and not a token that is missing. */
  lemma OnlyTokensEmbedded(p: Plan, schedule: seq<nat>, s: State)
    requires ValidPlan(p) && RunTo(p, schedule) == Some(s) && Shaped(p, s)
    requires Enabled(p, s, 0) && s.ranks[0].pc.Idle?
    requires forall q, i :: 0 <= q < |p.prompts| && 0 <= i < |p.prompts[q]| ==> p.prompts[q][i] >= 0
    ensures var at := s.ranks[0].at;
      Feed(p.prompts[at.round], at.step, if at.step == 0 then None else s.primary) >= 0
  {
    hide RunTo, Middle, Outcome, Reached, Ref, Feed, Finished;
    var x := Arrives(p, schedule, s);
    if PlaceOk(p, x.at) {
      OneMover(p, s, x.at, x.spot, 0);
      assert s.ranks[0] == ExpectRank(p, x.at, x.spot, 0);
      Restarts(p, x.at);
      NeverPlaceholder(p.m, p.mode, p.prompts[x.at.round], x.at.step);
      ReachedPrimary(p, x.at);
    } else {
      NoMover(p, s, 0);
      assert false;
    }
  }

  lemma ReachedPrimary(p: Plan, at: Place)
    requires ValidPlan(p) && PlaceOk(p, at)
    ensures Reached(p, at).primary == Ref(p.m, p.mode, p.prompts[at.round], at.step).primary
  {
  }

  /** All the layer caches of the ring, in layer order. */
  function Gathered(s: State, n: nat): seq<Cache>
    requires n <= |s.ranks|
  {
    if n == 0 then [] else Gathered(s, n - 1) + s.ranks[n - 1].caches
  }

  lemma {:induction false} GatherSlices(p: Plan, s: State, caches: seq<Cache>, n: nat)
    requires ValidPlan(p) && |caches| == p.m.layers && n <= Size(p) == |s.ranks|
    requires forall r :: 0 <= r < Size(p) ==> s.ranks[r].caches == Slice(p, r, caches)
    ensures Gathered(s, n) == caches[..p.cuts[n]]
  {
    if n > 0 {
      GatherSlices(p, s, caches, n - 1);
      assert p.cuts[n - 1] <= p.cuts[n] <= |caches|;
      assert caches[..p.cuts[n - 1]] + caches[p.cuts[n - 1]..p.cuts[n]] == caches[..p.cuts[n]];
    }
  }

  lemma Reported(p: Plan, schedule: seq<nat>, s: State)
    requires ValidPlan(p) && RunTo(p, schedule) == Some(s) && |schedule| == Total(p)
    ensures |s.log| == |p.prompts|
    ensures forall q :: 0 <= q < |p.prompts| ==>
      s.log[q] == Ref(p.m, p.mode, p.prompts[q], |p.prompts[q]| + p.extra).tail
  {
    hide RunTo, Ref, Total;
    RunsEnd(p, schedule, s);
  }

  /** The ring refines the one-machine reference. Whatever the partition and the schedule, a complete run reports for
    every prompt what the reference computes for that prompt alone, and leaves in its ranks, in layer order, the
    reference's caches for the last prompt. */
  lemma RingRefines(p: Plan, schedule: seq<nat>, s: State)
    requires ValidPlan(p) && RunTo(p, schedule) == Some(s) && |schedule| == Total(p)
    ensures |s.log| == |p.prompts|
    ensures forall q :: 0 <= q < |p.prompts| ==>
      s.log[q] == Ref(p.m, p.mode, p.prompts[q], |p.prompts[q]| + p.extra).tail
    ensures |s.ranks| == Size(p)
    ensures p.prompts != [] ==>
      var last := p.prompts[|p.prompts| - 1];
      Gathered(s, Size(p)) == Ref(p.m, p.mode, last, |last| + p.extra).caches
  {
    hide RunTo, Ref, Total;
    Reported(p, schedule, s);
    RunsEnd(p, schedule, s);
    var at := Place(|p.prompts|, 0);
    assert forall r :: 0 <= r < Size(p) ==> s.ranks[r] == Before(p, at, r);
    GatherSlices(p, s, Left(p, at).caches, Size(p));
  }

  lemma RunPrefix(p: Plan, schedule: seq<nat>, r: nat, s: State)
    requires ValidPlan(p) && RunTo(p, schedule + [r]) == Some(s)
    ensures RunTo(p, schedule).Some?
    ensures var before := RunTo(p, schedule).value; Shaped(p, before) && Enabled(p, before, r) && s == Next(p, before, r)
  {
    assert (schedule + [r])[..|schedule|] == schedule;
  }

  /** There is only one schedule of each length: the messages leave no choice. */
  lemma {:induction false} ForcedSchedule(p: Plan, a: seq<nat>, b: seq<nat>)
    requires ValidPlan(p) && RunTo(p, a).Some? && RunTo(p, b).Some? && |a| == |b|
    ensures a == b
  {
    hide At, Finished, Next, Enabled, Shaped;
    if a != [] {
      var n := |a| - 1;
      assert a == a[..n] + [a[n]] && b == b[..n] + [b[n]];
      RunPrefix(p, a[..n], a[n], RunTo(p, a).value);
      RunPrefix(p, b[..n], b[n], RunTo(p, b).value);
      ForcedSchedule(p, a[..n], b[..n]);
      var s := RunTo(p, a[..n]).value;
      RunsEnd(p, a[..n], s);
      RunsEnd(p, a, RunTo(p, a).value);
    }
  }

  /** A complete run exists, so what holds of every complete run is not empty talk. */
  lemma {:induction false} Completes(p: Plan, schedule: seq<nat>) returns (whole: seq<nat>)
    requires ValidPlan(p) && RunTo(p, schedule).Some?
    ensures RunTo(p, whole).Some? && |whole| == Total(p) && schedule <= whole
    decreases Total(p) - |schedule|
  {
    hide At, Finished, Next, Enabled, Shaped;
    var s := RunTo(p, schedule).value;
    RunsEnd(p, schedule, s);
    if |schedule| == Total(p) {
      whole := schedule;
    } else {
      var r :| Enabled(p, s, r);
      assert (schedule + [r])[..|schedule|] == schedule;
      RunsEnd(p, schedule + [r], RunTo(p, schedule + [r]).value);
      whole := Completes(p, schedule + [r]);
    }
  }

  // ---- partitions and prompts ----

  /** Two launches of the same prompts over different partitions and numbers of ranks report the same. */
  lemma PartitionsAgree(p: Plan, cuts: seq<nat>, a: seq<nat>, b: seq<nat>)
    requires ValidPlan(p) && ValidPlan(p.(cuts := cuts))
    requires RunTo(p, a).Some? && |a| == Total(p)
    requires RunTo(p.(cuts := cuts), b).Some? && |b| == Total(p.(cuts := cuts))
    ensures RunTo(p, a).value.log == RunTo(p.(cuts := cuts), b).value.log
  {
    hide RunTo, Ref, Total;
    Reported(p, a, RunTo(p, a).value);
    Reported(p.(cuts := cuts), b, RunTo(p.(cuts := cuts), b).value);
  }

  /** Each prompt of a launch reports what it would report if it had been launched alone. */
  lemma PromptsIndependent(p: Plan, q: nat, a: seq<nat>, b: seq<nat>)
    requires ValidPlan(p) && q < |p.prompts| && ValidPlan(p.(prompts := [p.prompts[q]]))
    requires RunTo(p, a).Some? && |a| == Total(p)
    requires RunTo(p.(prompts := [p.prompts[q]]), b).Some? && |b| == Total(p.(prompts := [p.prompts[q]]))
    ensures |RunTo(p, a).value.log| == |p.prompts| && |RunTo(p.(prompts := [p.prompts[q]]), b).value.log| == 1
    ensures RunTo(p, a).value.log[q] == RunTo(p.(prompts := [p.prompts[q]]), b).value.log[0]
  {
    hide RunTo, Ref, Total;
    Reported(p, a, RunTo(p, a).value);
    Reported(p.(prompts := [p.prompts[q]]), b, RunTo(p.(prompts := [p.prompts[q]]), b).value);
  }

  /** The three-, seven- and nine-rank launches tile the 64 layers. */
  const THREE_CUTS: seq<nat> := [0, 21, 42, 64]
  const SEVEN_CUTS: seq<nat> := [0, 9, 18, 27, 36, 45, 54, 64]
  const NINE_CUTS: seq<nat> := [0, 7, 14, 21, 28, 35, 42, 49, 56, 64]

  lemma LaunchedPartitions(p: Plan)
    requires p.m.layers == 64 == |p.m.initial|
    requires forall q :: 0 <= q < |p.prompts| ==> |p.prompts[q]| >= 1
    ensures ValidPlan(p.(cuts := THREE_CUTS)) && Size(p.(cuts := THREE_CUTS)) == 3
    ensures ValidPlan(p.(cuts := SEVEN_CUTS)) && Size(p.(cuts := SEVEN_CUTS)) == 7
    ensures ValidPlan(p.(cuts := NINE_CUTS)) && Size(p.(cuts := NINE_CUTS)) == 9
  {
  }

  /** What the multi-token launch reports: one history update for each prompt token but the last, one verdict for each
    predicted token, and drafts that line up with the targets they precede. */
  lemma MultiTokenReport(p: Plan, schedule: seq<nat>, s: State)
    requires ValidPlan(p) && p.mode == MultiToken && |p.prompts| == 1
    requires RunTo(p, schedule) == Some(s) && |schedule| == Total(p)
    ensures |s.log| == 1
    ensures s.log[0].history == |p.prompts[0]| - 1 && |s.log[0].results| == p.extra + 1 && DraftsLineUp(s.log[0])
  {
    hide RunTo, Ref, Total;
    Reported(p, schedule, s);
    Counts(p.m, MultiToken, p.prompts[0], Len(p, 0));
    MultiTokenDrafts(p.m, p.prompts[0], Len(p, 0));
  }
}
