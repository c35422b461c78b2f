/** The main safety theorems of the FIFO, over every run from a fresh queue. */
module FifoRuns {
  import opened FifoText
  import opened FifoStore
  import opened Fifo
  import opened FifoLog
  import opened FifoSafety

  /** With no hold and no release in the way, a clear history means no reservation is outstanding. */
  lemma ClearIsIdle(w: World, env: Env, site: nat)
    requires Inv(w) && Hold !in w.files && Release !in w.files && HistoryClear(w.files, env, site)
    ensures StageOf(w.log).Idle?
    ensures StageOf(w.log).last != [] ==> Whole(w.files, Receipt, StageOf(w.log).last[0])
  {
  }

  /** What the lookups at the start of an operation can truthfully have said. */
  ghost predicate Seen(fs: Files, f: File, p: Presence) {
    (p == Missing ==> f !in fs) && (p == Found ==> f in fs)
  }

  lemma RemoveKeeps(w: World, t: string, env: Env)
    requires Inv(w) && IsTicket(t) && Whole(w.files, Release, t)
    ensures Inv(Next(w, t, RemoveFront(w.files, w.files[QueueFile], t, env).files))
  {
    IdleStep(w, t);
    if FrontLine(w.files[QueueFile]) == t {
      ReleasedTicket(w, t);
      FrontTicket(w.files, t);
      assert t in QueueOf(w.files);
      DequeueKeeps(w, t, env);
    }
  }

  lemma ReleasedBranches(fs: Files, op: Op, t: string, pending: Presence, intent: Presence, env: Env)
    requires QueueOk(fs)
    ensures var a, s := WhileReleased(fs, op, t, fs[QueueFile], pending, intent, env), fs[QueueFile];
      || a.files == fs
      || a == RecoverQueue(fs, s, pending, intent, env)
      || (&& IsTicket(t) && Whole(fs, Release, t) && pending == Missing && intent == Missing
          && (a == RemoveFront(fs, s, t, env) || a == SettleReleased(fs, s, t, Missing, Missing, env)))
  {
  }

  lemma ReleasedKeeps(w: World, op: Op, t: string, pending: Presence, intent: Presence, env: Env)
    requires Inv(w) && Seen(w.files, Pending, pending) && Seen(w.files, Intent, intent)
    ensures Inv(Next(w, t, WhileReleased(w.files, op, t, w.files[QueueFile], pending, intent, env).files))
  {
    hide WhileReleased, ValidFrom, Conserved, Burned, StageFiles, Observe;
    IdleStep(w, t);
    RecoverKeeps(w, t, pending, intent, env);
    ReleasedBranches(w.files, op, t, pending, intent, env);
    if IsTicket(t) && Whole(w.files, Release, t) && pending == Missing && intent == Missing {
      SettleKeeps(w, t, env);
      RemoveKeeps(w, t, env);
    }
  }

  lemma IdleKeeps(w: World, op: Op, t: string, pending: Presence, intent: Presence, env: Env)
    requires Inv(w) && StageOf(w.log).Idle?
    ensures Inv(Next(w, t, WhileIdle(w.files, op, t, w.files[QueueFile], pending, intent, env).files))
  {
    hide RecoverQueue, ReserveFront, EnqueueTicket, CancelTicket, HistoryClear;
    hide ValidFrom, Conserved, Burned, StageFiles, Observe, IsTicket;
    IdleStep(w, t);
    match op
    case Recover => RecoverKeeps(w, t, pending, intent, env);
    case Reserve => if IsTicket(t) { ReserveKeeps(w, t, env); }
    case Enqueue => if IsTicket(t) { EnqueueKeeps(w, t, env); }
    case Cancel => if IsTicket(t) { CancelKeeps(w, t, env); }
    case _ =>
  }

  lemma DispatchKeeps(w: World, op: Op, t: string, hold: Presence, release: Presence,
                      pending: Presence, intent: Presence, env: Env)
    requires Inv(w) && Seen(w.files, Hold, hold) && Seen(w.files, Release, release)
    requires Seen(w.files, Pending, pending) && Seen(w.files, Intent, intent)
    requires hold != Unknown && release != Unknown
    ensures Inv(Next(w, t, Dispatch(w.files, op, t, w.files[QueueFile], hold, release, pending, intent, env).files))
  {
    hide WhileReleased, WhileIdle, RecoverSettle, ReleaseHold, InspectTicket, HistoryClear;
    hide ValidFrom, Conserved, Burned, StageFiles, Observe;
    IdleStep(w, t);
    if hold == Missing && release == Missing {
      RecoverSettleKeeps(w, t, pending, intent, env);
    }
    if op == Inspect || op == SettleRecover {
    } else if release == Found {
      ReleasedKeeps(w, op, t, pending, intent, env);
    } else if op == DoRelease {
      ReleaseKeeps(w, t, hold, pending, intent, env);
    } else if hold == Missing && HistoryClear(w.files, env, 10) {
      ClearIsIdle(w, env, 10);
      IdleKeeps(w, op, t, pending, intent, env);
    }
  }

  lemma ApplyKeeps(w: World, op: Op, t: string, env: Env)
    requires Inv(w)
    ensures Inv(Next(w, t, Apply(w.files, op, t, env).files))
  {
    hide Dispatch, ValidFrom, Conserved, Burned, StageFiles, Observe;
    var fs := w.files;
    IdleStep(w, t);
    var hold, release := Look(fs, Hold, env(0)), Look(fs, Release, env(1));
    var pending, intent := Look(fs, Pending, env(3)), Look(fs, Intent, env(4));
    if hold != Unknown && release != Unknown {
      DispatchKeeps(w, op, t, hold, release, pending, intent, env);
    }
  }

  lemma FreshInv()
    ensures Inv(FRESH)
  {
    assert FRESH.files[QueueFile] == Encode([]);
    NewQueue(FRESH.files, []);
  }

  /** The invariant holds after every run. */
  lemma {:induction false} RunInv(run: seq<Invocation>)
    ensures Inv(Run(run))
  {
    if run == [] {
      FreshInv();
    } else {
      var i, w := run[|run| - 1], Run(run[..|run| - 1]);
      RunInv(run[..|run| - 1]);
      ApplyKeeps(w, i.op, i.ticket, i.env);
      IdleStep(w, i.ticket);
    }
  }

  // ---- what the invariant means for callers ----

  /** No run admits a ticket twice, and no admitted ticket is lost: the admitted tickets that were not withdrawn are
    exactly the removed ones followed by the waiting ones, in admission order. */
  lemma AdmittedOnceAndKept(run: seq<Invocation>)
    ensures var w := Run(run);
      && Distinct(Admissions(w.log))
      && Kept(Admissions(w.log), Withdrawals(w.log)) == Removals(w.log) + QueueOf(w.files)
      && QueueOk(w.files) && w.files[QueueFile] == Encode(QueueOf(w.files))
  {
    RunInv(run);
    QueueText(Run(run).files);
  }

  /** The ticket a stage has reserved but not yet removed. */
  function Outstanding(stage: Stage): seq<string> {
    match stage
    case Held(t) => [t]
    case Freed(t) => [t]
    case _ => []
  }

  lemma {:induction false} ReservedThenRemoved(log: seq<Event>)
    requires !StageOf(log).Broken?
    ensures Reservations(log) == Removals(log) + Outstanding(StageOf(log))
  {
    if log != [] {
      ReservedThenRemoved(log[..|log| - 1]);
    }
  }

  lemma PrefixDistinct(q: seq<string>, n: nat)
    requires Distinct(q) && n <= |q|
    ensures Distinct(q[..n])
  {
  }

  /** Tickets are reserved in admission order, withdrawn ones aside, and none twice. */
  lemma ReservedInOrder(run: seq<Invocation>)
    ensures var log := Run(run).log;
      && Reservations(log) <= Kept(Admissions(log), Withdrawals(log))
      && Distinct(Reservations(log))
  {
    var w := Run(run);
    AdmittedOnceAndKept(run);
    OutstandingFirst(run);
    var order := Kept(Admissions(w.log), Withdrawals(w.log));
    ReservedThenRemoved(w.log);
    KeptDistinct(Admissions(w.log), Withdrawals(w.log));
    PrefixDistinct(order, |Reservations(w.log)|);
  }

  lemma InvStage(w: World)
    requires Inv(w)
    ensures !StageOf(w.log).Broken?
    ensures Outstanding(StageOf(w.log)) <= QueueOf(w.files)
  {
  }

  lemma OutstandingFirst(run: seq<Invocation>)
    ensures !StageOf(Run(run).log).Broken?
    ensures Outstanding(StageOf(Run(run).log)) <= QueueOf(Run(run).files)
  {
    RunInv(run);
    InvStage(Run(run));
  }

  // ---- exclusion ----

  /** Events `c < d < e`, all after `a` and before `n`, record the release, removal and settling of `t`. */
  ghost predicate FullCycle(log: seq<Event>, t: string, a: nat, n: nat) {
    exists c: nat, d: nat, e: nat ::
      a < c < d < e < n <= |log| && log[c] == WasReleased(t) && log[d] == Removed(t) && log[e] == WasSettled(t)
  }

  /** How much of the cycle of `t`, reserved at `a`, lies before `n`, by the stage reached there. */
  ghost predicate CycleSoFar(log: seq<Event>, t: string, a: nat, n: nat)
    requires a < n <= |log|
  {
    || FullCycle(log, t, a, n)
    || StageOf(log[..n]) == Held(t)
    || (StageOf(log[..n]) == Freed(t) && exists c: nat :: a < c < n && log[c] == WasReleased(t))
    || (StageOf(log[..n]) == Drained(t) &&
        exists c: nat, d: nat :: a < c < d < n && log[c] == WasReleased(t) && log[d] == Removed(t))
  }

  lemma {:induction false} StageStep(log: seq<Event>, n: nat)
    requires n < |log|
    ensures StageOf(log[..n + 1]) == Advance(StageOf(log[..n]), log[n])
  {
    assert log[..n + 1][..n] == log[..n];
  }

  lemma {:induction false} NotBrokenBefore(log: seq<Event>, n: nat)
    requires n <= |log| && !StageOf(log).Broken?
    ensures !StageOf(log[..n]).Broken?
    decreases |log| - n
  {
    if n < |log| {
      NotBrokenBefore(log, n + 1);
      StageStep(log, n);
    } else {
      assert log[..n] == log;
    }
  }

  lemma CycleStays(log: seq<Event>, t: string, a: nat, n: nat)
    requires n < |log| && FullCycle(log, t, a, n)
    ensures FullCycle(log, t, a, n + 1)
  {
    var c: nat, d: nat, e: nat :|
      a < c < d < e < n <= |log| && log[c] == WasReleased(t) && log[d] == Removed(t) && log[e] == WasSettled(t);
    assert a < c < d < e < n + 1 <= |log|;
  }

  lemma CycleEnds(log: seq<Event>, t: string, a: nat, n: nat)
    requires a < n < |log| && log[n] == WasSettled(t) && StageOf(log[..n]) == Drained(t)
    requires exists c: nat, d: nat :: a < c < d < n && log[c] == WasReleased(t) && log[d] == Removed(t)
    ensures FullCycle(log, t, a, n + 1)
  {
    hide StageOf;
    var c: nat, d: nat :| a < c < d < n && log[c] == WasReleased(t) && log[d] == Removed(t);
    assert a < c < d < n < n + 1 <= |log|;
  }

  lemma CycleStep(log: seq<Event>, t: string, a: nat, n: nat)
    requires a < n < |log| && CycleSoFar(log, t, a, n)
    requires StageOf(log[..n + 1]) == Advance(StageOf(log[..n]), log[n]) && !StageOf(log[..n + 1]).Broken?
    ensures CycleSoFar(log, t, a, n + 1)
  {
    hide StageOf, FullCycle;
    if FullCycle(log, t, a, n) {
      CycleStays(log, t, a, n);
    } else if StageOf(log[..n]) == Freed(t) {
      var c: nat :| a < c < n && log[c] == WasReleased(t);
      assert a < c < n + 1;
    } else if StageOf(log[..n]) == Drained(t) {
      CycleEnds(log, t, a, n);
    }
  }

  lemma {:induction false} CycleGrows(log: seq<Event>, t: string, a: nat, n: nat)
    requires !StageOf(log).Broken? && a < n <= |log| && log[a] == WasReserved(t)
    ensures CycleSoFar(log, t, a, n)
    decreases n
  {
    hide StageOf, FullCycle;
    NotBrokenBefore(log, n);
    StageStep(log, n - 1);
    if n > a + 1 {
      CycleGrows(log, t, a, n - 1);
      CycleStep(log, t, a, n - 1);
    }
  }

  lemma NoOvertakingIn(log: seq<Event>, a: nat, b: nat)
    requires !StageOf(log).Broken? && a < b < |log| && log[a].WasReserved? && log[b].WasReserved?
    ensures FullCycle(log, log[a].ticket, a, b)
  {
    hide StageOf, FullCycle;
    CycleGrows(log, log[a].ticket, a, b);
    StageStep(log, b);
    NotBrokenBefore(log, b + 1);
  }

  /** Once `t` is reserved, nothing is reserved again before the release, the removal and the settling of `t` are
    all on record, in that order. */
  lemma NoOvertaking(run: seq<Invocation>, log: seq<Event>, a: nat, b: nat)
    requires log == Run(run).log && a < b < |log| && log[a].WasReserved? && log[b].WasReserved?
    ensures FullCycle(log, log[a].ticket, a, b)
  {
    NeverBroken(run);
    NoOvertakingIn(log, a, b);
  }

  lemma NeverBroken(run: seq<Invocation>)
    ensures !StageOf(Run(run).log).Broken?
  {
    RunInv(run);
    InvStage(Run(run));
  }

  lemma FrontGuard(fs: Files, t: string, env: Env)
    requires Apply(fs, Front, t, env).reply.FrontIs?
    ensures Hold !in fs && Release !in fs && HistoryClear(fs, env, 10)
    ensures QueueFile in fs && ValidState(fs[QueueFile]) && fs[QueueFile] != "RGQ5\n"
    ensures Apply(fs, Front, t, env).reply.ticket == FrontLine(fs[QueueFile])
  {
  }

  lemma ShownFirst(fs: Files)
    requires QueueOk(fs) && fs[QueueFile] != "RGQ5\n"
    ensures QueueOf(fs) != [] && QueueOf(fs)[0] == FrontLine(fs[QueueFile])
  {
    QueueText(fs);
    LinesLength(QueueOf(fs));
    if QueueOf(fs) != [] {
      Slices(QueueOf(fs), QueueOf(fs)[0]);
    }
  }

  lemma {:induction false} LastSettled(log: seq<Event>)
    requires !StageOf(log).Broken?
    ensures StageOf(log).Idle? ==>
      StageOf(log).last == if Removals(log) == [] then [] else [Removals(log)[|Removals(log)| - 1]]
    ensures StageOf(log).Drained? ==> Removals(log) != [] && Removals(log)[|Removals(log)| - 1] == StageOf(log).ticket
  {
    if log != [] {
      LastSettled(log[..|log| - 1]);
    }
  }

  /** `front` shows only the ticket that is next in admission order. Every earlier reservation has then gone through
    its whole cycle, and the receipt of the latest one is in place and whole. */
  lemma FrontIsNext(run: seq<Invocation>, t: string, env: Env)
    requires Apply(Run(run).files, Front, t, env).reply.FrontIs?
    ensures var w, shown := Run(run), Apply(Run(run).files, Front, t, env).reply.ticket;
      && QueueOf(w.files) != [] && shown == QueueOf(w.files)[0]
      && Reservations(w.log) == Removals(w.log)
      && (Removals(w.log) != [] ==> Whole(w.files, Receipt, Removals(w.log)[|Removals(w.log)| - 1]))
  {
    var w := Run(run);
    RunInv(run);
    FrontGuard(w.files, t, env);
    ClearIsIdle(w, env, 10);
    ShownFirst(w.files);
    ReservedThenRemoved(w.log);
    LastSettled(w.log);
  }

  lemma FrontIsIdle(run: seq<Invocation>, t: string, env: Env)
    requires Apply(Run(run).files, Front, t, env).reply.FrontIs?
    ensures StageOf(Run(run).log).Idle?
  {
    RunInv(run);
    FrontGuard(Run(run).files, t, env);
    ClearIsIdle(Run(run), env, 10);
  }

  /** When `front` shows a ticket, every reservation on record has been released, removed and settled. */
  lemma FrontAfterCycles(run: seq<Invocation>, log: seq<Event>, t: string, env: Env, a: nat)
    requires log == Run(run).log && Apply(Run(run).files, Front, t, env).reply.FrontIs?
    requires a < |log| && log[a].WasReserved?
    ensures FullCycle(log, log[a].ticket, a, |log|)
  {
    FrontIsIdle(run, t, env);
    CycleGrows(log, log[a].ticket, a, |log|);
    assert log[..|log|] == log;
  }
}
