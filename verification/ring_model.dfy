/** The decoder that every probe runs, and the one-machine reference: all layers in turn, one token at a time.

  The arithmetic inside a layer, the head and the draft head is not modelled; each is a function of its inputs and of
  the state it carries from one step to the next. */
module RingModel {
  import opened Wrappers

  type Hidden(!new)
  type Cache(!new)
  type Logits(!new)
  type DraftCache(!new)
  type Token = int

  /** The reply to a step that predicts nothing. */
  const PLACEHOLDER: Token := -1

  datatype Model = Model(
    layers: nat,
    embed: Token -> Hidden,
    layer: (nat, Cache, Hidden) -> (Cache, Hidden),
    initial: seq<Cache>,
    norm: Hidden -> Hidden,
    head: Hidden -> Logits,
    argmax: Logits -> nat,
    update: (Hidden, Token, DraftCache) -> DraftCache,
    forward: (Hidden, Token, DraftCache) -> (Logits, DraftCache),
    initialDraft: DraftCache)

  /** What the machine with the head records for one predicted token. */
  datatype Verdict = Verdict(
    target: nat, targetLogits: Logits, precedingDraft: Option<Token>, nextDraft: Option<Token>,
    draftLogits: Option<Logits>)

  /** The state of the machine with the head. */
  datatype Tail = Tail(cache: DraftCache, draft: Option<Token>, history: nat, results: seq<Verdict>)

  /** MultiToken drafts after every target; Context, and the single-token probe, only after the first target; Plain has
    no draft head. */
  datatype Mode = MultiToken | Context | Plain

  predicate Drafts(mode: Mode, prompt: seq<Token>, step: nat) {
    match mode
    case MultiToken => step >= |prompt| - 1
    case Context => step == |prompt| - 1
    case Plain => false
  }

  /** Whether rank 0 keeps the reply to this step as the next token. */
  predicate Keeps(mode: Mode, prompt: seq<Token>, step: nat) {
    match mode
    case Context => step == |prompt| - 1
    case _ => step >= |prompt| - 1
  }

  /** The head's share of a step: while the prompt goes on it only feeds the draft history and replies with the
    placeholder; from the last prompt token on it replies with the target. */
  function Finish(m: Model, mode: Mode, prompt: seq<Token>, step: nat, tail: Tail, h: Hidden): (Tail, Token) {
    var hidden := m.norm(h);
    if step < |prompt| - 1 then
      (tail.(cache := m.update(hidden, prompt[step + 1], tail.cache), history := tail.history + 1), PLACEHOLDER)
    else
      var logits := m.head(hidden);
      var choice := m.argmax(logits);
      if Drafts(mode, prompt, step) then
        var (draftLogits, cache) := m.forward(hidden, choice, tail.cache);
        var draft := Some(m.argmax(draftLogits));
        var verdict := Verdict(choice, logits, tail.draft, draft, Some(draftLogits));
        (tail.(cache := cache, draft := draft, results := tail.results + [verdict]), choice)
      else
        (tail.(results := tail.results + [Verdict(choice, logits, tail.draft, None, None)]), choice)
  }

  /** The token of a step: from the prompt while it lasts, then the kept reply. A missing reply reads as the placeholder. */
  function Feed(prompt: seq<Token>, step: nat, primary: Option<Token>): Token {
    if step < |prompt| then prompt[step] else if primary.Some? then primary.value else PLACEHOLDER
  }

  /** The first `l` layers, each with its own cache. */
  function Through(m: Model, caches: seq<Cache>, h: Hidden, l: nat): (r: (seq<Cache>, Hidden))
    requires l <= |caches|
    ensures |r.0| == |caches|
  {
    if l == 0 then (caches, h)
    else
      var (cs, x) := Through(m, caches, h, l - 1);
      var (c, y) := m.layer(l - 1, cs[l - 1], x);
      (cs[l - 1 := c], y)
  }

  datatype Reference = Reference(caches: seq<Cache>, tail: Tail, primary: Option<Token>)

  function FreshTail(m: Model): Tail {
    Tail(m.initialDraft, None, 0, [])
  }

  function RefStep(m: Model, mode: Mode, prompt: seq<Token>, step: nat, at: Reference): (r: Reference)
    ensures |r.caches| == |at.caches|
  {
    var (caches, h) := Through(m, at.caches, m.embed(Feed(prompt, step, at.primary)), |at.caches|);
    var (tail, reply) := Finish(m, mode, prompt, step, at.tail, h);
    Reference(caches, tail, if Keeps(mode, prompt, step) then Some(reply) else at.primary)
  }

  /** The reference after `step` tokens of a prompt that starts from fresh caches. */
  function Ref(m: Model, mode: Mode, prompt: seq<Token>, step: nat): (r: Reference)
    ensures |r.caches| == |m.initial|
  {
    if step == 0 then Reference(m.initial, FreshTail(m), None)
    else RefStep(m, mode, prompt, step - 1, Ref(m, mode, prompt, step - 1))
  }

  // ---- what the reference computes ----

  /** Whatever is embedded is a token: a prompt token, or the target of an earlier step, never the placeholder. */
  lemma {:induction false} KeptIsTarget(m: Model, mode: Mode, prompt: seq<Token>, step: nat)
    requires 1 <= |prompt| <= step
    ensures var at := Ref(m, mode, prompt, step);
      at.primary.Some? && exists k :: 0 <= k < |at.tail.results| && at.tail.results[k].target == at.primary.value
  {
    var at := Ref(m, mode, prompt, step - 1);
    var h := Through(m, at.caches, m.embed(Feed(prompt, step - 1, at.primary)), |at.caches|).1;
    var last := Finish(m, mode, prompt, step - 1, at.tail, h).0.results;
    assert last[|last| - 1].target == Finish(m, mode, prompt, step - 1, at.tail, h).1;
    if step > |prompt| {
      KeptIsTarget(m, mode, prompt, step - 1);
      var k :| 0 <= k < |at.tail.results| && at.tail.results[k].target == at.primary.value;
      assert last[k] == at.tail.results[k];
    }
  }

  lemma NeverPlaceholder(m: Model, mode: Mode, prompt: seq<Token>, step: nat)
    requires |prompt| >= 1 && forall i :: 0 <= i < |prompt| ==> prompt[i] >= 0
    ensures Feed(prompt, step, Ref(m, mode, prompt, step).primary) >= 0
  {
    if step >= |prompt| {
      KeptIsTarget(m, mode, prompt, step);
    }
  }

  /** One history update for each prompt token but the last, one verdict for each step from there on. */
  lemma {:induction false} Counts(m: Model, mode: Mode, prompt: seq<Token>, step: nat)
    requires |prompt| >= 1
    ensures var tail := Ref(m, mode, prompt, step).tail;
      && tail.history == (if step < |prompt| then step else |prompt| - 1)
      && |tail.results| == (if step < |prompt| then 0 else step - (|prompt| - 1))
  {
    if step > 0 {
      Counts(m, mode, prompt, step - 1);
    }
  }

  /** The normalised hidden state of a step. */
  function HiddenAt(m: Model, mode: Mode, prompt: seq<Token>, step: nat): Hidden {
    var at := Ref(m, mode, prompt, step);
    m.norm(Through(m, at.caches, m.embed(Feed(prompt, step, at.primary)), |at.caches|).1)
  }

  /** What the draft head is shown after a step is the very token that rank 0 embeds in the next one: the next prompt
    token while there is one, and then the target just predicted. */
  lemma DraftSeesNextToken(m: Model, prompt: seq<Token>, step: nat)
    requires |prompt| >= 1
    ensures var at, after := Ref(m, MultiToken, prompt, step), Ref(m, MultiToken, prompt, step + 1);
      var hidden, next := HiddenAt(m, MultiToken, prompt, step), Feed(prompt, step + 1, after.primary);
      if step + 1 < |prompt| then
        after.tail == at.tail.(cache := m.update(hidden, next, at.tail.cache), history := at.tail.history + 1)
      else
        && after.tail.cache == m.forward(hidden, next, at.tail.cache).1
        && next == m.argmax(m.head(hidden))
        && after.tail.results[|after.tail.results| - 1].target == next
        && after.tail.draft == Some(m.argmax(m.forward(hidden, next, at.tail.cache).0))
  {
    hide Through;
    var at := Ref(m, MultiToken, prompt, step);
    assert Ref(m, MultiToken, prompt, step + 1) == RefStep(m, MultiToken, prompt, step, at);
  }

  ghost predicate Follows(results: seq<Verdict>, k: nat)
    requires k < |results|
  {
    results[k].precedingDraft == if k == 0 then None else results[k - 1].nextDraft
  }

  /** Every verdict reports the draft made with the verdict before it, and the first reports none. */
  ghost predicate DraftsLineUp(tail: Tail) {
    && (tail.results == [] ==> tail.draft == None)
    && (forall k :: 0 <= k < |tail.results| ==> Follows(tail.results, k))
    && (tail.results != [] ==> tail.draft == tail.results[|tail.results| - 1].nextDraft)
  }

  lemma DraftLinesUp(m: Model, prompt: seq<Token>, step: nat, tail: Tail, h: Hidden)
    requires |prompt| >= 1 && DraftsLineUp(tail) && (step < |prompt| - 1 ==> tail.results == [])
    ensures DraftsLineUp(Finish(m, MultiToken, prompt, step, tail, h).0)
  {
    var after := Finish(m, MultiToken, prompt, step, tail, h).0;
    if step >= |prompt| - 1 {
      forall k | 0 <= k < |after.results| ensures Follows(after.results, k) {
        assert k < |tail.results| ==> Follows(tail.results, k);
      }
    }
  }

  lemma {:induction false} MultiTokenDrafts(m: Model, prompt: seq<Token>, step: nat)
    requires |prompt| >= 1
    ensures DraftsLineUp(Ref(m, MultiToken, prompt, step).tail)
  {
    if step > 0 {
      var at := Ref(m, MultiToken, prompt, step - 1);
      MultiTokenDrafts(m, prompt, step - 1);
      Counts(m, MultiToken, prompt, step - 1);
      var h := Through(m, at.caches, m.embed(Feed(prompt, step - 1, at.primary)), |at.caches|).1;
      DraftLinesUp(m, prompt, step - 1, at.tail, h);
    }
  }

  /** A context case ends with two verdicts: the first target, which makes the draft, and the second, which is checked
    against that draft. */
  lemma ContextCase(m: Model, prompt: seq<Token>)
    requires |prompt| >= 1
    ensures var results := Ref(m, Context, prompt, |prompt| + 1).tail.results;
      && |results| == 2
      && results[0].precedingDraft == None && results[0].nextDraft.Some?
      && results[1].precedingDraft == results[0].nextDraft && results[1].nextDraft == None
  {
    NoDraftYet(m, prompt, |prompt| - 1);
    var first := Ref(m, Context, prompt, |prompt|);
    assert |first.tail.results| == 1 && first.tail.draft == first.tail.results[0].nextDraft;
  }

  lemma {:induction false} NoDraftYet(m: Model, prompt: seq<Token>, step: nat)
    requires step < |prompt|
    ensures var tail := Ref(m, Context, prompt, step).tail; tail.results == [] && tail.draft == None
  {
    if step > 0 {
      NoDraftYet(m, prompt, step - 1);
    }
  }

  // ---- layers ----

  /** Layers not reached yet keep their caches. */
  lemma {:induction false} NotReached(m: Model, caches: seq<Cache>, h: Hidden, l: nat, i: nat)
    requires l <= i < |caches|
    ensures Through(m, caches, h, l).0[i] == caches[i]
  {
    if l > 0 {
      NotReached(m, caches, h, l - 1, i);
    }
  }

  /** A layer once passed keeps its new cache for the rest of the step. */
  lemma {:induction false} Passed(m: Model, caches: seq<Cache>, h: Hidden, l: nat, k: nat, i: nat)
    requires i < l <= k <= |caches|
    ensures Through(m, caches, h, k).0[i] == Through(m, caches, h, l).0[i]
    decreases k
  {
    if l < k {
      Passed(m, caches, h, l, k - 1, i);
    }
  }

  lemma NotReachedSlice(m: Model, caches: seq<Cache>, h: Hidden, a: nat, b: nat)
    requires a <= b <= |caches|
    ensures Through(m, caches, h, a).0[a..b] == caches[a..b]
  {
    forall i | a <= i < b ensures Through(m, caches, h, a).0[i] == caches[i] {
      NotReached(m, caches, h, a, i);
    }
  }

  lemma PassedSlice(m: Model, caches: seq<Cache>, h: Hidden, a: nat, b: nat)
    requires a <= b <= |caches|
    ensures Through(m, caches, h, |caches|).0[a..b] == Through(m, caches, h, b).0[a..b]
  {
    forall i | a <= i < b ensures Through(m, caches, h, |caches|).0[i] == Through(m, caches, h, b).0[i] {
      Passed(m, caches, h, b, |caches|, i);
    }
  }

  /** The streaming reference: caches updated in place, layer by layer, step by step. */
  method StreamReference(m: Model, mode: Mode, prompt: seq<Token>, steps: nat, caches: array<Cache>)
    returns (tail: Tail, primary: Option<Token>)
    requires caches[..] == m.initial
    modifies caches
    ensures Reference(caches[..], tail, primary) == Ref(m, mode, prompt, steps)
  {
    tail, primary := FreshTail(m), None;
    for step := 0 to steps
      invariant Reference(caches[..], tail, primary) == Ref(m, mode, prompt, step)
    {
      ghost var before := caches[..];
      var embedded := m.embed(Feed(prompt, step, primary));
      var h := embedded;
      for i := 0 to caches.Length
        invariant (caches[..], h) == Through(m, before, embedded, i)
      {
        ghost var was := caches[..];
        var (c, y) := m.layer(i, caches[i], h);
        caches[i] := c;
        h := y;
        assert caches[..] == was[i := c];
      }
      var (t, reply) := Finish(m, mode, prompt, step, tail, h);
      tail := t;
      if Keeps(mode, prompt, step) {
        primary := Some(reply);
      }
    }
  }
}
