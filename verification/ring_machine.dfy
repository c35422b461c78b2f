/** The ring as it runs: ranks that update their own position and caches, channels that are filled and drained, and
  any rank that can act going next. */
module RingMachine {
  import opened Wrappers
  import opened RingModel
  import opened Ring
  import opened RingSteps
  import opened RingRuns

  class Machine {
    const p: Plan
    var ranks: seq<Rank>
    var hops: seq<seq<Hidden>>
    var replies: seq<Token>
    var primary: Option<Token>
    var tail: Tail
    var log: seq<Tail>

    ghost function Snapshot(): State
      reads this
    {
      State(ranks, hops, replies, primary, tail, log)
    }

    constructor (plan: Plan)
      requires ValidPlan(plan)
      ensures p == plan && Snapshot() == Initial(plan)
    {
      p := plan;
      ranks := seq(Size(plan), r requires 0 <= r < Size(plan) => Rank(Place(0, 0), Idle, Slice(plan, r, plan.m.initial)));
      hops := seq(Size(plan) - 1, i => []);
      replies := [];
      primary := None;
      tail := FreshTail(plan.m);
      log := [];
    }

    /** A rank that starts a step: rank 0 embeds a token, the others take the hidden state sent to them. */
    method StartStep(r: nat)
      requires ValidPlan(p) && Shaped(p, Snapshot()) && Enabled(p, Snapshot(), r) && ranks[r].pc.Idle?
      modifies this
      ensures Snapshot() == Next(p, old(Snapshot()), r)
    {
      var k := ranks[r];
      var caches := Opening(p, r, k);
      if r == 0 {
        if k.at.step == 0 {
          primary := None;
        }
        var h := p.m.embed(Feed(p.prompts[k.at.round], k.at.step, primary));
        ranks := ranks[0 := k.(pc := Computing(0, h), caches := caches)];
      } else {
        var h := hops[r - 1][0];
        hops := hops[r - 1 := hops[r - 1][1..]];
        if r == Size(p) - 1 && k.at.step == 0 {
          tail := FreshTail(p.m);
        }
        ranks := ranks[r := k.(pc := Computing(0, h), caches := caches)];
      }
    }

    /** A rank that is computing: its next layer, or its hidden state sent on, or the head. */
    method Compute(r: nat)
      requires ValidPlan(p) && Shaped(p, Snapshot()) && Enabled(p, Snapshot(), r) && ranks[r].pc.Computing?
      modifies this
      ensures Snapshot() == Next(p, old(Snapshot()), r)
    {
      var k := ranks[r];
      var done, h := k.pc.done, k.pc.h;
      if done < Own(p, r) {
        var (c, y) := p.m.layer(p.cuts[r] + done, k.caches[done], h);
        ranks := ranks[r := k.(pc := Computing(done + 1, y), caches := k.caches[done := c])];
      } else if r < Size(p) - 1 {
        hops := hops[r := hops[r] + [h]];
        ranks := ranks[r := if r == 0 then k.(pc := Awaiting) else k.(at := After(p, k.at), pc := Idle)];
      } else {
        var (t, reply) := Finish(p.m, p.mode, p.prompts[k.at.round], k.at.step, tail, h);
        tail := t;
        if k.at.step + 1 == Len(p, k.at.round) {
          log := log + [t];
        }
        ranks := ranks[r := k.(pc := Replying(reply))];
      }
    }

    /** The reply on its way from the head to rank 0, and rank 0 taking it. */
    method PassReply(r: nat)
      requires ValidPlan(p) && Shaped(p, Snapshot()) && Enabled(p, Snapshot(), r)
      requires ranks[r].pc.Replying? || ranks[r].pc.Awaiting?
      modifies this
      ensures Snapshot() == Next(p, old(Snapshot()), r)
    {
      var k := ranks[r];
      if k.pc.Replying? {
        replies := replies + [k.pc.reply];
      } else {
        if Keeps(p.mode, p.prompts[k.at.round], k.at.step) {
          primary := Some(replies[0]);
        }
        replies := replies[1..];
      }
      ranks := ranks[r := k.(at := After(p, k.at), pc := Idle)];
    }

    method Act(r: nat)
      requires ValidPlan(p) && Shaped(p, Snapshot()) && Enabled(p, Snapshot(), r)
      modifies this
      ensures Snapshot() == Next(p, old(Snapshot()), r)
    {
      match ranks[r].pc
      case Idle => StartStep(r);
      case Computing(_, _) => Compute(r);
      case _ => PassReply(r);
    }

    predicate CanAct(r: nat)
      requires ValidPlan(p) && Shaped(p, Snapshot())
      reads this
    {
      Enabled(p, State(ranks, hops, replies, primary, tail, log), r)
    }

    /** Let any rank that can act go next, until none can. The run ends, after exactly the actions the plan fixes, with
      the reports of the one-machine reference. */
    method Run() returns (ghost schedule: seq<nat>)
      requires ValidPlan(p) && Snapshot() == Initial(p)
      modifies this
      ensures RunTo(p, schedule) == Some(Snapshot()) && |schedule| == Total(p)
      ensures |log| == |p.prompts|
      ensures forall q :: 0 <= q < |p.prompts| ==>
        log[q] == Ref(p.m, p.mode, p.prompts[q], |p.prompts[q]| + p.extra).tail
    {
      hide Ref, Total, Next, Enabled, Initial, Finished;
      schedule := [];
      RunsEnd(p, schedule, Snapshot());
      while exists r :: 0 <= r < Size(p) && CanAct(r)
        invariant RunTo(p, schedule) == Some(Snapshot()) && |schedule| <= Total(p)
        invariant Shaped(p, Snapshot())
        decreases Total(p) - |schedule|
      {
        var r: nat :| r < Size(p) && CanAct(r);
        ghost var before := Snapshot();
        Act(r);
        assert (schedule + [r])[..|schedule|] == schedule;
        schedule := schedule + [r];
        RunsEnd(p, schedule, Snapshot());
      }
      RunsEnd(p, schedule, Snapshot());
      forall r: nat | r < Size(p) ensures !Enabled(p, Snapshot(), r) {
        assert !CanAct(r);
      }
      StoppedAtTheEnd(p, schedule, Snapshot());
      Reported(p, schedule, Snapshot());
    }
  }

  /** A run in which no rank can act any more is complete. */
  lemma StoppedAtTheEnd(p: Plan, schedule: seq<nat>, s: State)
    requires ValidPlan(p) && RunTo(p, schedule) == Some(s) && Shaped(p, s)
    requires forall r: nat :: r < Size(p) ==> !Enabled(p, s, r)
    ensures |schedule| == Total(p)
  {
    hide Total, RunTo, Finished;
    RunsEnd(p, schedule, s);
  }
}
