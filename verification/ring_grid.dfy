/** The decode told all at once: which token, hidden state and cache every layer sees in every step, and which draft
  state the head has, each by a recurrence of its own. No state is carried along here. */
module RingGrid {
  import opened Wrappers
  import opened RingModel
  import opened Ring
  import opened RingRuns

  /** What enters layer `l` in a step: the embedded token, or what the layer before it put out. */
  ghost function HiddenOf(m: Model, mode: Mode, prompt: seq<Token>, step: nat, l: nat): Hidden
    requires |prompt| >= 1 && l <= |m.initial|
    decreases step, l, 1
  {
    if l == 0 then m.embed(TokenOf(m, mode, prompt, step))
    else m.layer(l - 1, CacheOf(m, mode, prompt, step, l - 1), HiddenOf(m, mode, prompt, step, l - 1)).1
  }

  /** The cache layer `l` finds: what the layer left in the step before. */
  ghost function CacheOf(m: Model, mode: Mode, prompt: seq<Token>, step: nat, l: nat): Cache
    requires |prompt| >= 1 && l < |m.initial|
    decreases step, l, 0
  {
    if step == 0 then m.initial[l]
    else m.layer(l, CacheOf(m, mode, prompt, step - 1, l), HiddenOf(m, mode, prompt, step - 1, l)).0
  }

  /** The token of a step: the prompt's, then the target of the step before. A context case goes on with its first. */
  ghost function TokenOf(m: Model, mode: Mode, prompt: seq<Token>, step: nat): Token
    requires |prompt| >= 1
    decreases step, 0, 0
  {
    if step < |prompt| then prompt[step]
    else TargetOf(m, mode, prompt, if mode == Context then |prompt| - 1 else step - 1)
  }

  /** The normalised output of the last layer. */
  ghost function FinalOf(m: Model, mode: Mode, prompt: seq<Token>, step: nat): Hidden
    requires |prompt| >= 1
    decreases step, |m.initial|, 2
  {
    m.norm(HiddenOf(m, mode, prompt, step, |m.initial|))
  }

  ghost function TargetOf(m: Model, mode: Mode, prompt: seq<Token>, step: nat): nat
    requires |prompt| >= 1
    decreases step, |m.initial|, 3
  {
    m.argmax(m.head(FinalOf(m, mode, prompt, step)))
  }

  /** The steps after which a draft is made. */
  ghost predicate DraftedAt(mode: Mode, prompt: seq<Token>, step: nat) {
    || (mode == MultiToken && step + 1 >= |prompt|)
    || (mode == Context && step + 1 == |prompt|)
  }

  /** The draft head's answer to the target of a step: its logits, and the cache it leaves. */
  ghost function DraftOf(m: Model, mode: Mode, prompt: seq<Token>, step: nat): (Logits, DraftCache)
    requires |prompt| >= 1
    decreases step, 1
  {
    m.forward(FinalOf(m, mode, prompt, step), TargetOf(m, mode, prompt, step), DraftCacheOf(m, mode, prompt, step))
  }

  /** The draft head's cache before a step: fed with the prompt from its second token on, then with every target a draft
    was made for. */
  ghost function DraftCacheOf(m: Model, mode: Mode, prompt: seq<Token>, step: nat): DraftCache
    requires |prompt| >= 1
    decreases step, 0
  {
    if step == 0 then m.initialDraft
    else if step < |prompt| then
      m.update(FinalOf(m, mode, prompt, step - 1), prompt[step], DraftCacheOf(m, mode, prompt, step - 1))
    else if DraftedAt(mode, prompt, step - 1) then DraftOf(m, mode, prompt, step - 1).1
    else DraftCacheOf(m, mode, prompt, step - 1)
  }

  /** The draft on record before a step: the last one made, if any. */
  ghost function DraftBefore(m: Model, mode: Mode, prompt: seq<Token>, step: nat): Option<Token>
    requires |prompt| >= 1
  {
    if step < |prompt| then None
    else if mode == MultiToken then Some(m.argmax(DraftOf(m, mode, prompt, step - 1).0))
    else if mode == Context then Some(m.argmax(DraftOf(m, mode, prompt, |prompt| - 1).0))
    else None
  }

  // ---- the reference is the grid ----

  ghost predicate OnGrid(m: Model, mode: Mode, prompt: seq<Token>, step: nat, at: Reference)
    requires |prompt| >= 1 && |at.caches| == |m.initial|
  {
    && (forall l :: 0 <= l < |m.initial| ==> at.caches[l] == CacheOf(m, mode, prompt, step, l))
    && Feed(prompt, step, at.primary) == TokenOf(m, mode, prompt, step)
  }

  /** Half-way through a step the layers passed have their next caches, and the others still their own. */
  lemma {:induction false} RowOfGrid(m: Model, mode: Mode, prompt: seq<Token>, step: nat, at: Reference, l: nat)
    requires |prompt| >= 1 && |at.caches| == |m.initial| && OnGrid(m, mode, prompt, step, at) && l <= |m.initial|
    ensures var row := Through(m, at.caches, m.embed(Feed(prompt, step, at.primary)), l);
      && row.1 == HiddenOf(m, mode, prompt, step, l)
      && (forall i :: 0 <= i < l ==> row.0[i] == CacheOf(m, mode, prompt, step + 1, i))
      && (forall i :: l <= i < |m.initial| ==> row.0[i] == CacheOf(m, mode, prompt, step, i))
  {
    if l > 0 {
      RowOfGrid(m, mode, prompt, step, at, l - 1);
    }
  }

  /** Every token, hidden state and cache of the reference is the one of the grid. */
  lemma {:induction false} ReferenceGrid(m: Model, mode: Mode, prompt: seq<Token>, step: nat)
    requires |prompt| >= 1
    ensures var at := Ref(m, mode, prompt, step);
      && (forall l :: 0 <= l < |m.initial| ==> at.caches[l] == CacheOf(m, mode, prompt, step, l))
      && Feed(prompt, step, at.primary) == TokenOf(m, mode, prompt, step)
      && at.primary == (if step < |prompt| then None else Some(TokenOf(m, mode, prompt, step)))
      && HiddenAt(m, mode, prompt, step) == FinalOf(m, mode, prompt, step)
  {
    var at := Ref(m, mode, prompt, step);
    if step > 0 {
      var prior := Ref(m, mode, prompt, step - 1);
      ReferenceGrid(m, mode, prompt, step - 1);
      RowOfGrid(m, mode, prompt, step - 1, prior, |m.initial|);
      assert at == RefStep(m, mode, prompt, step - 1, prior);
    }
    RowOfGrid(m, mode, prompt, step, at, |m.initial|);
  }

  /** The verdict of a step. */
  ghost function VerdictOf(m: Model, mode: Mode, prompt: seq<Token>, step: nat): Verdict
    requires |prompt| >= 1
  {
    Verdict(TargetOf(m, mode, prompt, step), m.head(FinalOf(m, mode, prompt, step)), DraftBefore(m, mode, prompt, step),
            if DraftedAt(mode, prompt, step) then Some(m.argmax(DraftOf(m, mode, prompt, step).0)) else None,
            if DraftedAt(mode, prompt, step) then Some(DraftOf(m, mode, prompt, step).0) else None)
  }

  /** The head's share of one step, on the grid. */
  lemma FinishOfGrid(m: Model, mode: Mode, prompt: seq<Token>, step: nat, tail: Tail, h: Hidden)
    requires |prompt| >= 1 && m.norm(h) == FinalOf(m, mode, prompt, step)
    requires tail.cache == DraftCacheOf(m, mode, prompt, step) && tail.draft == DraftBefore(m, mode, prompt, step)
    ensures var after := Finish(m, mode, prompt, step, tail, h).0;
      && after.cache == DraftCacheOf(m, mode, prompt, step + 1)
      && after.draft == DraftBefore(m, mode, prompt, step + 1)
      && after.results == tail.results + if step + 1 < |prompt| then [] else [VerdictOf(m, mode, prompt, step)]
  {
    hide HiddenOf, CacheOf, TokenOf, FinalOf;
  }

  lemma StepFinishes(m: Model, mode: Mode, prompt: seq<Token>, step: nat) returns (h: Hidden)
    requires |prompt| >= 1
    ensures m.norm(h) == HiddenAt(m, mode, prompt, step)
    ensures Ref(m, mode, prompt, step + 1).tail == Finish(m, mode, prompt, step, Ref(m, mode, prompt, step).tail, h).0
  {
    hide Finish, Through;
    var at := Ref(m, mode, prompt, step);
    h := Through(m, at.caches, m.embed(Feed(prompt, step, at.primary)), |at.caches|).1;
    assert Ref(m, mode, prompt, step + 1) == RefStep(m, mode, prompt, step, at);
  }

  /** Every verdict is that of its step: target and target logits come from the head, the draft and its logits from
    the draft head, and the preceding draft is the last one made before. */
  lemma {:induction false} VerdictsOfGrid(m: Model, mode: Mode, prompt: seq<Token>, step: nat)
    requires |prompt| >= 1
    ensures var tail := Ref(m, mode, prompt, step).tail;
      && tail.cache == DraftCacheOf(m, mode, prompt, step)
      && tail.draft == DraftBefore(m, mode, prompt, step)
      && |tail.results| == (if step < |prompt| then 0 else step + 1 - |prompt|)
      && forall k :: 0 <= k < |tail.results| ==> tail.results[k] == VerdictOf(m, mode, prompt, |prompt| - 1 + k)
  {
    hide Finish, VerdictOf, DraftCacheOf, FinalOf, HiddenAt;
    if step == 0 {
      StartOfGrid(m, mode, prompt);
    } else {
      VerdictsOfGrid(m, mode, prompt, step - 1);
      ReferenceGrid(m, mode, prompt, step - 1);
      var h := StepFinishes(m, mode, prompt, step - 1);
      FinishOfGrid(m, mode, prompt, step - 1, Ref(m, mode, prompt, step - 1).tail, h);
    }
  }

  lemma StartOfGrid(m: Model, mode: Mode, prompt: seq<Token>)
    requires |prompt| >= 1
    ensures Ref(m, mode, prompt, 0).tail == Tail(DraftCacheOf(m, mode, prompt, 0), None, 0, [])
  {
  }

  /** What a complete run of the ring reports, for every partition and schedule, is for each prompt the verdicts of its
    steps from the last prompt token on, and what its ranks hold at the end are the caches of the last prompt. */
  lemma RingReports(p: Plan, schedule: seq<nat>, s: State)
    requires ValidPlan(p) && RunTo(p, schedule) == Some(s) && |schedule| == Total(p)
    ensures |s.log| == |p.prompts| && |s.ranks| == Size(p)
    ensures forall q :: 0 <= q < |p.prompts| ==>
      var prompt, tail := p.prompts[q], s.log[q];
      && tail.history == |prompt| - 1 && |tail.results| == p.extra + 1
      && forall k :: 0 <= k <= p.extra ==> tail.results[k] == VerdictOf(p.m, p.mode, prompt, |prompt| - 1 + k)
    ensures p.prompts != [] ==>
      var last, held := p.prompts[|p.prompts| - 1], Gathered(s, Size(p));
      && |held| == p.m.layers
      && forall l :: 0 <= l < p.m.layers ==> held[l] == CacheOf(p.m, p.mode, last, |last| + p.extra, l)
  {
    hide RunTo, Ref, Total, VerdictOf, CacheOf, Gathered;
    RingRefines(p, schedule, s);
    forall q | 0 <= q < |p.prompts|
      ensures var prompt, tail := p.prompts[q], s.log[q];
        && tail.history == |prompt| - 1 && |tail.results| == p.extra + 1
        && forall k :: 0 <= k <= p.extra ==> tail.results[k] == VerdictOf(p.m, p.mode, prompt, |prompt| - 1 + k)
    {
      Counts(p.m, p.mode, p.prompts[q], |p.prompts[q]| + p.extra);
      VerdictsOfGrid(p.m, p.mode, p.prompts[q], |p.prompts[q]| + p.extra);
    }
    if p.prompts != [] {
      var last := p.prompts[|p.prompts| - 1];
      ReferenceGrid(p.m, p.mode, last, |last| + p.extra);
    }
  }
}
