/** A success that is answered is on record: what the caller is told happened did happen, to that ticket. */
module FifoAnswers {
  import opened FifoText
  import opened FifoStore
  import opened Fifo
  import opened FifoLog
  import opened FifoCommit
  import opened FifoLeaves
  import opened FifoSafety
  import opened FifoRuns
  import opened FifoProgress
  import opened FifoSettle

  // ---- what separates the files ----

  lemma CommittedObserved(a: Files, b: Files, t: string, q: seq<string>, next: seq<string>)
    requires QueueOk(a) && q == QueueOf(a) && Queue(next) && Committed(a, b, Encode(q), Encode(next))
    ensures QueueOf(b) == next
    ensures next == q + [t] ==> Observe(t, a, b) == [Admitted(t)]
    ensures q != [] && next == q[1..] ==> Observe(t, a, b) == [Removed(q[0])]
    ensures |next| < |q| && next != q[1..] ==> Observe(t, a, b) == [Withdrawn(t)]
  {
    hide ValidState, Encode, Decode;
    NewQueue(b, next);
  }

  lemma EnqueueRecorded(fs: Files, t: string, env: Env)
    requires QueueOk(fs) && Apply(fs, Enqueue, t, env).reply == Enqueued
    ensures Observe(t, fs, Apply(fs, Enqueue, t, env).files) == [Admitted(t)]
  {
    hide Apply, Commit, ClaimTicket, ValidState, Encode, Decode;
    ClaimNeverEnqueues(fs, t, env);
    EnqueueApply(fs, t, env);
    QueueText(fs);
    var q, claimed := QueueOf(fs), ClaimTicket(fs, t, env).files;
    FindTicket(q, t);
    Slices(q, t);
    ClaimLeaves(fs, t, env);
    CommitLeaves(claimed, fs[QueueFile], fs[QueueFile] + Line(t), env);
    AddedQueue(q, t);
    CommittedObserved(claimed, Apply(fs, Enqueue, t, env).files, t, q, q + [t]);
    NoEvent(t, fs, claimed, Apply(fs, Enqueue, t, env).files);
  }

  lemma ClaimNeverEnqueues(fs: Files, t: string, env: Env)
    ensures var refusal := ClaimTicket(fs, t, env).refusal; refusal == [] || refusal[0] != Enqueued
  {
    hide StageClaim;
  }

  lemma AddedQueue(q: seq<string>, t: string)
    requires Queue(q) && IsTicket(t) && t !in q && |q| < 64
    ensures Queue(q + [t])
  {
  }

  lemma DequeueBranches(fs: Files, t: string, state: string, pending: Presence, intent: Presence, env: Env)
    requires ValidState(state)
    ensures var a := WhileReleased(fs, Dequeue, t, state, pending, intent, env);
      a.reply == Dequeued ==> IsTicket(t) && a == RemoveFront(fs, state, t, env)
  {
    hide ValidFrom, RemoveFront, SettleReleased, RecoverQueue, Claimed, Read, IsTicket;
  }

  lemma DequeueApply(fs: Files, t: string, env: Env)
    requires Apply(fs, Dequeue, t, env).reply == Dequeued
    ensures QueueOk(fs) && IsTicket(t) && Apply(fs, Dequeue, t, env) == RemoveFront(fs, fs[QueueFile], t, env)
  {
    hide ValidFrom, WhileReleased, RemoveFront, RecoverQueue, HistoryClear, IsTicket;
    DequeueBranches(fs, t, fs[QueueFile], Look(fs, Pending, env(3)), Look(fs, Intent, env(4)), env);
  }

  lemma DequeueRecorded(fs: Files, t: string, env: Env)
    requires Apply(fs, Dequeue, t, env).reply == Dequeued
    ensures Observe(t, fs, Apply(fs, Dequeue, t, env).files) == [Removed(t)]
  {
    hide Apply, Commit, ValidState, Encode, Decode;
    DequeueApply(fs, t, env);
    var q := QueueOf(fs);
    QueueText(fs);
    FrontTicket(fs, t);
    WithoutQueue(q, 0);
    assert Without(q, 0) == q[1..];
    CommitLeaves(fs, fs[QueueFile], AfterFront(fs[QueueFile]), env);
    CommittedObserved(fs, Apply(fs, Dequeue, t, env).files, t, q, q[1..]);
  }

  lemma CancelApply(fs: Files, t: string, env: Env)
    requires Apply(fs, Cancel, t, env).reply == Cancelled
    ensures QueueOk(fs) && IsTicket(t) && Apply(fs, Cancel, t, env) == CancelTicket(fs, t, fs[QueueFile], env)
  {
    hide ValidFrom, WhileReleased, CancelTicket, RecoverQueue, HistoryClear, IsTicket;
    assert WhileReleased(fs, Cancel, t, fs[QueueFile], Look(fs, Pending, env(3)), Look(fs, Intent, env(4)), env).reply
           != Cancelled by {
      ReleasedRefuses(fs, t, fs[QueueFile], Look(fs, Pending, env(3)), Look(fs, Intent, env(4)), env);
    }
  }

  lemma ReleasedRefuses(fs: Files, t: string, state: string, pending: Presence, intent: Presence, env: Env)
    requires ValidState(state)
    ensures WhileReleased(fs, Cancel, t, state, pending, intent, env) == Answer(fs, ReleasePending)
    ensures WhileReleased(fs, Reserve, t, state, pending, intent, env) == Answer(fs, ReleasePending)
  {
  }

  lemma CancelRecorded(fs: Files, t: string, env: Env)
    requires Apply(fs, Cancel, t, env).reply == Cancelled
    ensures Observe(t, fs, Apply(fs, Cancel, t, env).files) == [Withdrawn(t)] && t in QueueOf(fs)
  {
    hide Apply, Commit, ValidState, Encode, Decode, IndexOf;
    CancelApply(fs, t, env);
    var q, s := QueueOf(fs), fs[QueueFile];
    QueueText(fs);
    FindTicket(q, t);
    var i: nat :| i < |q| && q[i] == t;
    CutLine(q, i);
    CommitLeaves(fs, s, WithoutLine(s, IndexOf(s, Line(t))), env);
    KeepsFront(q, i);
    CommittedObserved(fs, Apply(fs, Cancel, t, env).files, t, q, Without(q, i));
  }

  lemma KeepsFront(q: seq<string>, i: nat)
    requires Queue(q) && 0 < i < |q|
    ensures Without(q, i) != q[1..] && |Without(q, i)| < |q|
  {
    assert Without(q, i)[0] == q[0] != q[1] == q[1..][0];
  }

  lemma ReserveApply(fs: Files, t: string, env: Env)
    requires Apply(fs, Reserve, t, env).reply == Reserved
    ensures QueueOk(fs) && Hold !in fs && Apply(fs, Reserve, t, env) == ReserveFront(fs, t, fs[QueueFile], env)
  {
    hide ValidFrom, WhileReleased, ReserveFront, RecoverQueue, HistoryClear, IsTicket;
    ReleasedRefuses(fs, t, fs[QueueFile], Look(fs, Pending, env(3)), Look(fs, Intent, env(4)), env);
  }

  lemma ReserveHolds(fs: Files, t: string, env: Env)
    requires QueueOk(fs) && ReserveFront(fs, t, fs[QueueFile], env).reply == Reserved
    ensures Whole(ReserveFront(fs, t, fs[QueueFile], env).files, Hold, t)
  {
    hide ValidFrom, Claimed, Mark, ConsumeHistory;
  }

  /** A reserve that answers success has recorded the reservation of that ticket, with its hold whole. */
  lemma ReserveRecorded(fs: Files, t: string, env: Env)
    requires Apply(fs, Reserve, t, env).reply == Reserved
    ensures Observe(t, fs, Apply(fs, Reserve, t, env).files) == [WasReserved(t)]
    ensures Whole(Apply(fs, Reserve, t, env).files, Hold, t)
  {
    hide Apply, ReserveFront, ValidState, Mark;
    ReserveApply(fs, t, env);
    ReserveHolds(fs, t, env);
    ReserveLeaves(fs, t, env);
  }

  lemma ReleaseApply(fs: Files, t: string, env: Env)
    requires Apply(fs, DoRelease, t, env).reply == ReleasePending
    ensures QueueOk(fs) && Release !in fs
    ensures Apply(fs, DoRelease, t, env)
         == ReleaseHold(fs, t, fs[QueueFile], Look(fs, Hold, env(0)), Look(fs, Pending, env(3)),
                        Look(fs, Intent, env(4)), env)
  {
    hide ValidFrom, ReleaseHold, IsTicket;
  }

  lemma ReleaseMoves(fs: Files, t: string, hold: Presence, pending: Presence, intent: Presence, env: Env)
    requires QueueOk(fs) && ReleaseHold(fs, t, fs[QueueFile], hold, pending, intent, env).reply == ReleasePending
    ensures Hold in fs && ReleaseHold(fs, t, fs[QueueFile], hold, pending, intent, env).files == Moved(fs, Hold, Release)
  {
    hide ValidFrom, IsTicket, Mark, Read;
  }

  lemma ReleaseRecorded(fs: Files, t: string, env: Env)
    requires Apply(fs, DoRelease, t, env).reply == ReleasePending
    ensures Observe(t, fs, Apply(fs, DoRelease, t, env).files) == [WasReleased(t)]
  {
    hide Apply, ReleaseHold, ValidState;
    ReleaseApply(fs, t, env);
    ReleaseMoves(fs, t, Look(fs, Hold, env(0)), Look(fs, Pending, env(3)), Look(fs, Intent, env(4)), env);
  }

  lemma SettleAnswer(fs: Files, t: string, env: Env)
    requires QueueOk(fs) && Hold !in fs && Pending !in fs && Intent !in fs
    requires SettleReleased(fs, fs[QueueFile], t, Missing, Missing, env).reply == Settled
    ensures var files := SettleReleased(fs, fs[QueueFile], t, Missing, Missing, env).files;
      Release in fs && Receipt !in fs && Whole(files, Receipt, t) && Same(fs, files, {Release, SettledHold, Receipt})
  {
    hide DequeueEvidence, RecoverSettle, SettleReady, ValidFrom, Mark;
    EvidenceGuards(fs, t, env);
    var c := DequeueEvidence(fs, fs[QueueFile], t, env)
      .Then(Replace(Release, SettledHold), env(126)).Then(Flush(Directory), env(127));
    assert c.up && c.files == Moved(fs, Release, SettledHold);
    RecoverSettleLeaves(c.files, t, Missing, Missing, env);
  }

  lemma EvidenceGuards(fs: Files, t: string, env: Env)
    requires QueueOk(fs)
    ensures var c := DequeueEvidence(fs, fs[QueueFile], t, env); c.files == fs && (c.up ==> Receipt !in fs)
  {
    hide DequeueRecord, IndexOf, ValidFrom, Read;
  }

  lemma SettleBranch(fs: Files, t: string, state: string, pending: Presence, intent: Presence, env: Env)
    requires ValidState(state)
    ensures var a := WhileReleased(fs, Settle, t, state, pending, intent, env);
      a.reply == Settled ==>
        pending == Missing && intent == Missing && a == SettleReleased(fs, state, t, Missing, Missing, env)
  {
    hide ValidFrom, RemoveFront, SettleReleased, RecoverQueue, Claimed, Read, IsTicket;
  }

  lemma SettleGate(fs: Files, t: string, env: Env)
    requires Apply(fs, Settle, t, env).reply == Settled
    ensures QueueOk(fs) && Hold !in fs && Pending !in fs && Intent !in fs
    ensures Apply(fs, Settle, t, env) == SettleReleased(fs, fs[QueueFile], t, Missing, Missing, env)
  {
    hide ValidFrom, WhileReleased, SettleReleased, RecoverQueue, HistoryClear, IsTicket;
    SettleBranch(fs, t, fs[QueueFile], Look(fs, Pending, env(3)), Look(fs, Intent, env(4)), env);
  }

  lemma SettleRecorded(fs: Files, t: string, env: Env)
    requires Apply(fs, Settle, t, env).reply == Settled
    ensures Observe(t, fs, Apply(fs, Settle, t, env).files) == [WasSettled(t)]
  {
    hide Apply, SettleReleased, ValidState;
    SettleGate(fs, t, env);
    SettleAnswer(fs, t, env);
  }

  /** What each success answers, the log of the run records for that very ticket. */
  lemma AnswersAreRecorded(fs: Files, op: Op, t: string, env: Env)
    requires QueueOk(fs)
    ensures var a := Apply(fs, op, t, env);
      var events := Observe(t, fs, a.files);
      && (op == Enqueue && a.reply == Enqueued ==> events == [Admitted(t)])
      && (op == Cancel && a.reply == Cancelled ==> events == [Withdrawn(t)])
      && (op == Reserve && a.reply == Reserved ==> events == [WasReserved(t)])
      && (op == DoRelease && a.reply == ReleasePending ==> events == [WasReleased(t)])
      && (op == Dequeue && a.reply == Dequeued ==> events == [Removed(t)])
      && (op == Settle && a.reply == Settled ==> events == [WasSettled(t)])
      && (op == SettleRecover && a.reply == Settled ==> Whole(a.files, Receipt, t))
  {
    hide Apply, Observe, Whole;
    var reply := Apply(fs, op, t, env).reply;
    match op {
      case Enqueue => if reply == Enqueued { EnqueueRecorded(fs, t, env); }
      case Cancel => if reply == Cancelled { CancelRecorded(fs, t, env); }
      case Reserve => if reply == Reserved { ReserveRecorded(fs, t, env); }
      case DoRelease => if reply == ReleasePending { ReleaseRecorded(fs, t, env); }
      case Dequeue => if reply == Dequeued { DequeueRecorded(fs, t, env); }
      case Settle => if reply == Settled { SettleRecorded(fs, t, env); }
      case SettleRecover => SettleRecoverNeeds(fs, t, env);
      case _ =>
    }
  }

  // ---- exclusion, told from the answers ----

  lemma {:induction false} LogGrows(run: seq<Invocation>, i: nat)
    requires i <= |run|
    ensures Run(run[..i]).log <= Run(run).log
    decreases |run|
  {
    hide Observe, After;
    if i < |run| {
      LogGrows(run[..|run| - 1], i);
      assert run[..|run| - 1][..i] == run[..i];
    } else {
      assert run[..i] == run;
    }
  }

  /** Invocation `i` of the run was a reserve that was answered with success. */
  ghost predicate AnsweredReserve(run: seq<Invocation>, i: nat)
    requires i < |run|
  {
    !run[i].busy && run[i].op == Reserve
    && Apply(Run(run[..i]).files, Reserve, run[i].ticket, run[i].env).reply == Reserved
  }

  lemma ReserveInLog(run: seq<Invocation>, i: nat)
    requires i < |run| && AnsweredReserve(run, i)
    ensures Run(run[..i + 1]).log == Run(run[..i]).log + [WasReserved(run[i].ticket)]
  {
    hide Apply, Observe;
    assert run[..i + 1][..i] == run[..i];
    ReserveRecorded(Run(run[..i]).files, run[i].ticket, run[i].env);
  }

  /** Between two reserves that were both answered with success, the release, the removal and the settling of the first
    ticket all took effect, in that order. */
  lemma OneHolderAtATime(run: seq<Invocation>, log: seq<Event>, i: nat, j: nat)
    requires i < j < |run| && AnsweredReserve(run, i) && AnsweredReserve(run, j)
    requires log == Run(run).log
    ensures FullCycle(log, run[i].ticket, |Run(run[..i]).log|, |Run(run[..j]).log|)
  {
    hide AnsweredReserve, FullCycle, Run;
    var a, b := |Run(run[..i]).log|, |Run(run[..j]).log|;
    ReserveInLog(run, i);
    ReserveInLog(run, j);
    LogGrows(run[..j], i + 1);
    assert run[..j][..i + 1] == run[..i + 1];
    LogGrows(run, j + 1);
    LogGrows(run, i + 1);
    assert log[a] == Run(run[..i + 1]).log[a] && log[b] == Run(run[..j + 1]).log[b];
    NoOvertaking(run, log, a, b);
  }
}
