/** The decode ring: ranks that each own a slice of the layers, pass hidden states along, and send the predicted token
  back to rank 0. One action is one receive, one layer, one send, or one pass of the head; ranks act in any order. */
module Ring {
  import opened Wrappers
  import opened RingModel

  /** One launch: a partition of the layers at `cuts`, and the prompts to run one after another. Every prompt is
    followed by `extra` more steps. */
  datatype Plan = Plan(m: Model, mode: Mode, prompts: seq<seq<Token>>, extra: nat, cuts: seq<nat>)

  predicate ValidPlan(p: Plan) {
    && |p.cuts| >= 3 && p.cuts[0] == 0 && p.cuts[|p.cuts| - 1] == p.m.layers
    && (forall i, j :: 0 <= i <= j < |p.cuts| ==> p.cuts[i] <= p.cuts[j])
    && |p.m.initial| == p.m.layers
    && (forall q :: 0 <= q < |p.prompts| ==> |p.prompts[q]| >= 1)
  }

  /** The number of ranks. */
  function Size(p: Plan): nat
    requires ValidPlan(p)
  {
    |p.cuts| - 1
  }

  function Own(p: Plan, r: nat): nat
    requires ValidPlan(p) && r < Size(p)
  {
    p.cuts[r + 1] - p.cuts[r]
  }

  function Slice(p: Plan, r: nat, caches: seq<Cache>): (s: seq<Cache>)
    requires ValidPlan(p) && r < Size(p) && |caches| == p.m.layers
    ensures |s| == Own(p, r)
  {
    caches[p.cuts[r]..p.cuts[r + 1]]
  }

  function Len(p: Plan, round: nat): (n: nat)
    requires ValidPlan(p) && round < |p.prompts|
    ensures n >= 1
  {
    |p.prompts[round]| + p.extra
  }

  datatype Place = Place(round: nat, step: nat)

  /** The step after this one: the next of the same prompt, or the first of the next prompt. */
  function After(p: Plan, at: Place): Place
    requires ValidPlan(p) && at.round < |p.prompts|
  {
    if at.step + 1 < Len(p, at.round) then Place(at.round, at.step + 1) else Place(at.round + 1, 0)
  }

  datatype Pc = Idle | Computing(done: nat, h: Hidden) | Replying(reply: Token) | Awaiting

  datatype Rank = Rank(at: Place, pc: Pc, caches: seq<Cache>)

  /** `hops[i]` is the channel from rank i to rank i + 1; `replies` the one from the last rank to rank 0. The token
    rank 0 kept and the state of the head belong to rank 0 and to the last rank. */
  datatype State = State(
    ranks: seq<Rank>, hops: seq<seq<Hidden>>, replies: seq<Token>,
    primary: Option<Token>, tail: Tail, log: seq<Tail>)

  predicate Shaped(p: Plan, s: State)
    requires ValidPlan(p)
  {
    && |s.ranks| == Size(p) && |s.hops| == Size(p) - 1
    && (forall r :: 0 <= r < Size(p) ==>
          && |s.ranks[r].caches| == Own(p, r)
          && (s.ranks[r].pc.Computing? ==> s.ranks[r].pc.done <= Own(p, r))
          && (!s.ranks[r].pc.Idle? ==> s.ranks[r].at.round < |p.prompts|))
  }

  /** A rank can act unless it waits for a message that is not there, or has finished every prompt. */
  predicate Enabled(p: Plan, s: State, r: nat)
    requires ValidPlan(p) && Shaped(p, s)
  {
    r < Size(p) &&
    match s.ranks[r].pc
    case Idle => s.ranks[r].at.round < |p.prompts| && (r == 0 || s.hops[r - 1] != [])
    case Awaiting => s.replies != []
    case _ => true
  }

  /** Caches a rank starts a step with: fresh ones for a new prompt. */
  function Opening(p: Plan, r: nat, k: Rank): seq<Cache>
    requires ValidPlan(p) && r < Size(p)
  {
    if k.at.step == 0 then Slice(p, r, p.m.initial) else k.caches
  }

  function EmbedNext(p: Plan, s: State): State
    requires ValidPlan(p) && Shaped(p, s) && Enabled(p, s, 0) && s.ranks[0].pc.Idle?
  {
    var k := s.ranks[0];
    var primary := if k.at.step == 0 then None else s.primary;
    var h := p.m.embed(Feed(p.prompts[k.at.round], k.at.step, primary));
    s.(ranks := s.ranks[0 := k.(pc := Computing(0, h), caches := Opening(p, 0, k))], primary := primary)
  }

  function Receive(p: Plan, s: State, r: nat): State
    requires ValidPlan(p) && Shaped(p, s) && Enabled(p, s, r) && r > 0 && s.ranks[r].pc.Idle?
  {
    var k := s.ranks[r];
    s.(ranks := s.ranks[r := k.(pc := Computing(0, s.hops[r - 1][0]), caches := Opening(p, r, k))],
       hops := s.hops[r - 1 := s.hops[r - 1][1..]],
       tail := if r == Size(p) - 1 && k.at.step == 0 then FreshTail(p.m) else s.tail)
  }

  function ComputeLayer(p: Plan, s: State, r: nat): State
    requires ValidPlan(p) && Shaped(p, s) && r < Size(p)
    requires s.ranks[r].pc.Computing? && s.ranks[r].pc.done < Own(p, r)
  {
    var k := s.ranks[r];
    var (c, y) := p.m.layer(p.cuts[r] + k.pc.done, k.caches[k.pc.done], k.pc.h);
    s.(ranks := s.ranks[r := k.(pc := Computing(k.pc.done + 1, y), caches := k.caches[k.pc.done := c])])
  }

  function SendOn(p: Plan, s: State, r: nat): State
    requires ValidPlan(p) && Shaped(p, s) && r < Size(p) - 1 && s.ranks[r].pc.Computing?
  {
    var k := s.ranks[r];
    var next := if r == 0 then k.(pc := Awaiting) else k.(at := After(p, k.at), pc := Idle);
    s.(ranks := s.ranks[r := next], hops := s.hops[r := s.hops[r] + [k.pc.h]])
  }

  /** The head predicts, and reports the case after the last step of a prompt. */
  function Predict(p: Plan, s: State): State
    requires ValidPlan(p) && Shaped(p, s) && s.ranks[Size(p) - 1].pc.Computing?
  {
    var r := Size(p) - 1;
    var k := s.ranks[r];
    var (tail, reply) := Finish(p.m, p.mode, p.prompts[k.at.round], k.at.step, s.tail, k.pc.h);
    s.(ranks := s.ranks[r := k.(pc := Replying(reply))], tail := tail,
       log := if k.at.step + 1 == Len(p, k.at.round) then s.log + [tail] else s.log)
  }

  function Reply(p: Plan, s: State, r: nat): State
    requires ValidPlan(p) && Shaped(p, s) && r < Size(p) && s.ranks[r].pc.Replying?
  {
    var k := s.ranks[r];
    s.(ranks := s.ranks[r := k.(at := After(p, k.at), pc := Idle)], replies := s.replies + [k.pc.reply])
  }

  function Hear(p: Plan, s: State, r: nat): State
    requires ValidPlan(p) && Shaped(p, s) && Enabled(p, s, r) && s.ranks[r].pc.Awaiting?
  {
    var k := s.ranks[r];
    s.(ranks := s.ranks[r := k.(at := After(p, k.at), pc := Idle)], replies := s.replies[1..],
       primary := if Keeps(p.mode, p.prompts[k.at.round], k.at.step) then Some(s.replies[0]) else s.primary)
  }

  function Next(p: Plan, s: State, r: nat): State
    requires ValidPlan(p) && Shaped(p, s) && Enabled(p, s, r)
  {
    match s.ranks[r].pc
    case Idle => if r == 0 then EmbedNext(p, s) else Receive(p, s, r)
    case Computing(done, _) =>
      if done < Own(p, r) then ComputeLayer(p, s, r)
      else if r < Size(p) - 1 then SendOn(p, s, r)
      else Predict(p, s)
    case Replying(_) => Reply(p, s, r)
    case Awaiting => Hear(p, s, r)
  }

  function Initial(p: Plan): State
    requires ValidPlan(p)
  {
    State(seq(Size(p), r requires 0 <= r < Size(p) => Rank(Place(0, 0), Idle, Slice(p, r, p.m.initial))),
          seq(Size(p) - 1, i => []), [], None, FreshTail(p.m), [])
  }
}
