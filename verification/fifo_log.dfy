/** What a run of the FIFO did, told from the files alone: tickets admitted, withdrawn, reserved, released, removed
  and settled, in order. Nothing here looks at an operation's answer, so an operation that was killed or lost its
  answer is recorded exactly when its file change took effect. */
module FifoLog {
  import opened FifoText
  import opened FifoStore
  import opened Fifo

  datatype Event =
    | Admitted(ticket: string)
    | Withdrawn(ticket: string)
    | WasReserved(ticket: string)
    | WasReleased(ticket: string)
    | Removed(ticket: string)
    | WasSettled(ticket: string)

  function QueueOf(fs: Files): seq<string> {
    if QueueFile in fs then Decode(fs[QueueFile]) else []
  }

  predicate Whole(fs: Files, f: File, ticket: string) {
    f in fs && fs[f] == Mark(ticket)
  }

  /** The event, if any, that separates two file states around one operation on `ticket`. */
  function Observe(ticket: string, before: Files, after: Files): seq<Event> {
    var a, b := QueueOf(before), QueueOf(after);
    if |b| > |a| then [Admitted(b[|b| - 1])]
    else if |b| < |a| then (if b == a[1..] then [Removed(a[0])] else [Withdrawn(ticket)])
    else if Hold !in before && Hold in after then [WasReserved(ticket)]
    else if Release !in before && Release in after then [WasReleased(ticket)]
    else if !Whole(before, Receipt, ticket) && Whole(after, Receipt, ticket) then [WasSettled(ticket)]
    else []
  }

  // ---- projections of a log ----

  function Admissions(log: seq<Event>): seq<string> {
    if log == [] then []
    else
      var e, rest := log[|log| - 1], Admissions(log[..|log| - 1]);
      if e.Admitted? then rest + [e.ticket] else rest
  }

  function Removals(log: seq<Event>): seq<string> {
    if log == [] then []
    else
      var e, rest := log[|log| - 1], Removals(log[..|log| - 1]);
      if e.Removed? then rest + [e.ticket] else rest
  }

  function Reservations(log: seq<Event>): seq<string> {
    if log == [] then []
    else
      var e, rest := log[|log| - 1], Reservations(log[..|log| - 1]);
      if e.WasReserved? then rest + [e.ticket] else rest
  }

  function Withdrawals(log: seq<Event>): set<string> {
    if log == [] then {}
    else
      var e, rest := log[|log| - 1], Withdrawals(log[..|log| - 1]);
      if e.Withdrawn? then rest + {e.ticket} else rest
  }

  /** The tickets of `q` that are not in `gone`, in order. */
  function Kept(q: seq<string>, gone: set<string>): seq<string> {
    if q == [] then []
    else
      var rest, last := Kept(q[..|q| - 1], gone), q[|q| - 1];
      if last in gone then rest else rest + [last]
  }

  // ---- the lifecycle of a reservation ----

  /** Idle: no reservation outstanding (`last` is the ticket settled most recently). Otherwise how far the one
    outstanding reservation has come. Broken: an event out of turn. */
  datatype Stage =
    | Idle(last: seq<string>)
    | Held(ticket: string)
    | Freed(ticket: string)
    | Drained(ticket: string)
    | Broken

  function Advance(stage: Stage, e: Event): Stage {
    match (stage, e)
    case (Idle(_), Admitted(_)) => stage
    case (Idle(_), Withdrawn(_)) => stage
    case (Idle(_), WasReserved(t)) => Held(t)
    case (Idle(last), WasSettled(t)) => if last == [t] then stage else Broken
    case (Held(t), WasReleased(u)) => if t == u then Freed(t) else Broken
    case (Freed(t), Removed(u)) => if t == u then Drained(t) else Broken
    case (Drained(t), WasSettled(u)) => if t == u then Idle([t]) else Broken
    case _ => Broken
  }

  function StageOf(log: seq<Event>): Stage {
    if log == [] then Idle([]) else Advance(StageOf(log[..|log| - 1]), log[|log| - 1])
  }

  // ---- runs ----

  /** One invocation of the component. `busy`: another process held the lock, so nothing ran. */
  datatype Invocation = Invocation(op: Op, ticket: string, env: Env, busy: bool)

  function After(fs: Files, i: Invocation): Files {
    if i.busy then fs else Apply(fs, i.op, i.ticket, i.env).files
  }

  datatype World = World(files: Files, log: seq<Event>)

  /** A fresh, empty, host-owned queue. */
  const FRESH: World := World(map[QueueFile := "RGQ5\n"], [])

  function Step(w: World, i: Invocation): World {
    var files := After(w.files, i);
    World(files, w.log + Observe(i.ticket, w.files, files))
  }

  function RunFrom(w: World, run: seq<Invocation>): World {
    if run == [] then w else Step(RunFrom(w, run[..|run| - 1]), run[|run| - 1])
  }

  function Run(run: seq<Invocation>): World {
    RunFrom(FRESH, run)
  }

  lemma EmptyRun()
    ensures Run([]) == FRESH
  {
  }

  /** A run with one more invocation. */
  lemma RunSnoc(run: seq<Invocation>, i: Invocation)
    ensures Run(run + [i]) == Step(Run(run), i)
    ensures Run(run + [i]).files == After(Run(run).files, i)
  {
    hide After, Observe;
    assert (run + [i])[..|run|] == run;
  }

  // ---- lists ----

  lemma {:induction false} KeptIn(q: seq<string>, gone: set<string>)
    ensures forall t :: t in Kept(q, gone) <==> t in q && t !in gone
  {
    if q != [] {
      KeptIn(q[..|q| - 1], gone);
      assert q == q[..|q| - 1] + [q[|q| - 1]];
    }
  }

  lemma {:induction false} KeptDistinct(q: seq<string>, gone: set<string>)
    requires Distinct(q)
    ensures Distinct(Kept(q, gone))
  {
    if q != [] {
      KeptDistinct(q[..|q| - 1], gone);
      KeptIn(q[..|q| - 1], gone);
    }
  }

  lemma KeptSnoc(q: seq<string>, t: string, gone: set<string>)
    requires t !in gone
    ensures Kept(q + [t], gone) == Kept(q, gone) + [t]
  {
    assert (q + [t])[..|q|] == q;
  }

  lemma {:induction false} KeptSame(q: seq<string>, gone: set<string>, t: string)
    requires t !in q
    ensures Kept(q, gone + {t}) == Kept(q, gone)
  {
    if q != [] {
      KeptSame(q[..|q| - 1], gone, t);
    }
  }

  /** Withdrawing one more ticket takes just that ticket out of a list without repetitions. */
  lemma {:induction false} KeptWithdraw(q: seq<string>, gone: set<string>, i: nat)
    requires Distinct(q) && i < |Kept(q, gone)|
    ensures Kept(q, gone + {Kept(q, gone)[i]}) == Without(Kept(q, gone), i)
  {
    var n := |q| - 1;
    var kept, t := Kept(q, gone), Kept(q, gone)[i];
    var rest := Kept(q[..n], gone);
    KeptIn(q[..n], gone);
    if q[n] in gone {
      KeptWithdraw(q[..n], gone, i);
    } else if i == |rest| {
      assert t == q[n];
      KeptSame(q[..n], gone, t);
      assert Without(kept, i) == rest;
    } else {
      assert rest[i] == t;
      assert t in rest;
      KeptWithdraw(q[..n], gone, i);
      assert Without(kept, i) == Without(rest, i) + [q[n]];
    }
  }

  lemma Snoc(log: seq<Event>, e: Event)
    ensures StageOf(log + [e]) == Advance(StageOf(log), e)
    ensures Admissions(log + [e]) == if e.Admitted? then Admissions(log) + [e.ticket] else Admissions(log)
    ensures Removals(log + [e]) == if e.Removed? then Removals(log) + [e.ticket] else Removals(log)
    ensures Reservations(log + [e]) == if e.WasReserved? then Reservations(log) + [e.ticket] else Reservations(log)
    ensures Withdrawals(log + [e]) == if e.Withdrawn? then Withdrawals(log) + {e.ticket} else Withdrawals(log)
  {
    assert (log + [e])[..|log|] == log;
  }
}
