/** Which states a run can be brought back from. A queue between two cycles is clean; every other state a run can reach
  either has a way back to a clean one, of at most four steps on a well-behaved file system, or no way at all. */
module FifoRepair {
  import opened FifoText
  import opened FifoStore
  import opened Fifo
  import opened FifoLog
  import opened FifoLeaves
  import opened FifoSafety
  import opened FifoRuns
  import opened FifoRecovery
  import opened FifoProgress
  import opened FifoRetry
  import opened FifoSettle
  import opened FifoStuck

  /** With no commit open: clean, a whole hold, a release whose ticket is still in front or whose dequeue is still the
    archived journal, or a settle that only lacks its receipt. */
  ghost predicate WayOut(fs: Files)
    requires QueueOk(fs)
  {
    || (Hold !in fs && Release !in fs && HistoryOk(fs))
    || (Release !in fs && exists t :: IsTicket(t) && Whole(fs, Hold, t))
    || (Release in fs && exists t :: IsTicket(t) && Whole(fs, Release, t) && (AtFront(fs, t) || Recorded(fs, t)))
    || (Hold !in fs && Release !in fs && Receipt !in fs && exists t :: SettleReady(fs, t))
  }

  /** An open commit must have left no half-written queue and a journal that `recover` takes. */
  ghost predicate Repairable(fs: Files)
    requires QueueOk(fs)
  {
    && Pending !in fs
    && if Intent in fs then Resumable(fs) && WayOut(Moved(fs, Intent, LastJournal)) else WayOut(fs)
  }

  ghost predicate Resumable(fs: Files)
    requires QueueOk(fs)
  {
    Hold !in fs && (Release in fs || HistoryOk(fs)) && Recoverable(fs)
  }

  // ---- no way out ----

  lemma ClearIsOk(fs: Files, env: Env, site: nat)
    requires HistoryClear(fs, env, site)
    ensures HistoryOk(fs)
  {
    if SettledHold in fs {
      MarkOf(fs[SettledHold]);
    }
  }

  lemma RecoverOpens(fs: Files, t: string, state: string, hold: Presence, release: Presence, pending: Presence,
                     intent: Presence, env: Env)
    requires ValidState(state)
    ensures var a := Dispatch(fs, Recover, t, state, hold, release, pending, intent, env);
      a.files == fs
      || (&& a == RecoverQueue(fs, state, pending, intent, env)
          && (release == Found || (hold != Found && HistoryClear(fs, env, 10))))
  {
    hide ValidState, HistoryClear, RecoverQueue;
  }

  lemma RecoverNeeds(fs: Files, pending: Presence, intent: Presence, env: Env)
    requires QueueOk(fs) && Seen(fs, Pending, pending) && Seen(fs, Intent, intent)
    ensures RecoverQueue(fs, fs[QueueFile], pending, intent, env).files == fs || Recoverable(fs)
  {
    hide ValidFrom, ArchiveIntent, ValidJournal, JournalOld, JournalNext;
    NoJournal();
  }

  lemma NoJournal()
    ensures !ValidJournal("")
  {
  }

  /** A recovery that changes anything found a resumable commit and moves its journal aside. */
  lemma RecoverOnly(fs: Files, t: string, env: Env)
    requires QueueOk(fs)
    ensures var files := Apply(fs, Recover, t, env).files;
      files == fs || (Intent in fs && Resumable(fs) && files == Moved(fs, Intent, LastJournal))
  {
    hide Dispatch, RecoverQueue, ValidFrom, Recoverable, HistoryOk, HistoryClear;
    var hold, release := Look(fs, Hold, env(0)), Look(fs, Release, env(1));
    var pending, intent := Look(fs, Pending, env(3)), Look(fs, Intent, env(4));
    RecoverOpens(fs, t, fs[QueueFile], hold, release, pending, intent, env);
    RecoverNeeds(fs, pending, intent, env);
    RecoverLeaves(fs, fs[QueueFile], pending, intent, env);
    if HistoryClear(fs, env, 10) {
      ClearIsOk(fs, env, 10);
    }
  }

  lemma ReleasedOnly(fs: Files, op: Op, t: string, env: Env)
    requires QueueOk(fs) && Release in fs && Hold !in fs
    ensures var a := Apply(fs, op, t, env);
      a.files == fs
      || a == WhileReleased(fs, op, t, fs[QueueFile], Look(fs, Pending, env(3)), Look(fs, Intent, env(4)), env)
  {
    hide WhileReleased, ValidFrom, WhileIdle, HistoryClear, InspectTicket, ReleaseHold, RecoverSettle;
  }

  /** A release whose ticket left the front, and whose dequeue is not the archived journal, is never settled. */
  lemma ReleasedStuck(fs: Files, op: Op, t: string, env: Env)
    requires QueueOk(fs) && Release in fs && Hold !in fs && Intent !in fs && Pending !in fs && !WayOut(fs)
    ensures Apply(fs, op, t, env).files == fs
  {
    hide Apply, WhileReleased, ValidState, RecoverQueue, SettleReleased, RemoveFront, WayOut, Moved;
    ReleasedOnly(fs, op, t, env);
    var pending, intent := Look(fs, Pending, env(3)), Look(fs, Intent, env(4));
    ReleasedBranches(fs, op, t, pending, intent, env);
    RecoverLeaves(fs, fs[QueueFile], pending, intent, env);
    if IsTicket(t) && Whole(fs, Release, t) {
      NotInFront(fs, t);
      RemoveNothing(fs, t, env);
      SettleNothing(fs, t, env);
    }
  }

  lemma NotInFront(fs: Files, t: string)
    requires QueueOk(fs) && Release in fs && !WayOut(fs) && IsTicket(t) && Whole(fs, Release, t)
    ensures !AtFront(fs, t) && !Recorded(fs, t)
  {
    hide Recorded, QueueOk, Mark, AtFront;
  }

  lemma RemoveNothing(fs: Files, t: string, env: Env)
    requires QueueOk(fs) && IsTicket(t) && !AtFront(fs, t)
    ensures RemoveFront(fs, fs[QueueFile], t, env).files == fs
  {
    hide Commit, ValidState, FrontLine;
    if FrontLine(fs[QueueFile]) == t {
      FrontTicket(fs, t);
    }
  }

  lemma SettleNothing(fs: Files, t: string, env: Env)
    requires QueueOk(fs) && !Recorded(fs, t) && Intent !in fs && Pending !in fs
    ensures SettleReleased(fs, fs[QueueFile], t, Missing, Missing, env).files == fs
  {
    hide SettleReleased, ValidState, DequeueRecord;
    SettleLeaves(fs, t, Missing, Missing, env);
  }

  lemma NoWayIsStuck(fs: Files)
    requires QueueOk(fs) && Hold !in fs && Release !in fs && !WayOut(fs)
    ensures Stuck(fs)
  {
    hide ValidState, SettleReady, Mark;
  }

  lemma TornHold(fs: Files)
    requires QueueOk(fs) && Hold in fs && Release !in fs && !WayOut(fs)
    ensures !ValidMark(fs[Hold])
  {
    hide ValidState, SettleReady, HistoryOk, Mark;
    if ValidMark(fs[Hold]) {
      MarkOf(fs[Hold]);
    }
  }

  lemma HoldOrRelease(w: World)
    requires Inv(w)
    ensures Hold !in w.files || Release !in w.files
    ensures QueueOk(w.files)
  {
  }

  /** Without a way out, and without an open commit, nothing ever changes again. */
  lemma NoWayOut(w: World, i: Invocation)
    requires Inv(w) && Pending !in w.files && Intent !in w.files && QueueOk(w.files) && !WayOut(w.files)
    ensures After(w.files, i) == w.files
  {
    hide Inv, Apply, WayOut, QueueOk, Stuck;
    var fs := w.files;
    HoldOrRelease(w);
    if i.busy {
    } else if Hold in fs {
      TornHold(fs);
      TornHoldBlocks(fs, i.op, i.ticket, i.env);
    } else if Release in fs {
      ReleasedStuck(fs, i.op, i.ticket, i.env);
    } else {
      NoWayIsStuck(fs);
      StuckForever(fs, i.op, i.ticket, i.env);
    }
  }

  lemma CleanRepairable(fs: Files)
    requires Clean(fs)
    ensures QueueOk(fs) && Repairable(fs)
  {
    hide ValidState, HistoryOk;
  }

  /** Nothing makes an irreparable state repairable, however the file system behaves. */
  lemma StaysIrreparable(w: World, i: Invocation)
    requires Inv(w) && QueueOk(w.files) && !Repairable(w.files)
    ensures QueueOk(After(w.files, i)) && !Repairable(After(w.files, i))
  {
    hide Inv, Apply, WayOut, Resumable, ValidState;
    var fs := w.files;
    if i.busy {
    } else if Intent in fs || Pending in fs {
      if i.op == Recover {
        RecoverOnly(fs, i.ticket, i.env);
        ResumableOpen(fs);
      } else {
        OpenCommitBlocks(fs, i.op, i.ticket, i.env);
      }
    } else {
      NoWayOut(w, i);
    }
  }

  lemma ResumableOpen(fs: Files)
    requires QueueOk(fs)
    ensures Resumable(fs) ==> Pending !in fs && Intent in fs
  {
    hide ValidState, HistoryOk, ValidJournal;
  }

  lemma {:induction false} NeverClean(run: seq<Invocation>, more: seq<Invocation>)
    requires QueueOk(Run(run).files) && !Repairable(Run(run).files)
    ensures QueueOk(Run(run + more).files) && !Repairable(Run(run + more).files) && !Clean(Run(run + more).files)
    decreases |more|
  {
    hide Repairable, QueueOk, Clean, Inv, After, Observe;
    if more == [] {
      assert run + more == run;
    } else {
      var n := |more| - 1;
      NeverClean(run, more[..n]);
      RunInv(run + more[..n]);
      StaysIrreparable(Run(run + more[..n]), more[n]);
      assert run + more == (run + more[..n]) + [more[n]];
      RunSnoc(run + more[..n], more[n]);
    }
    if Clean(Run(run + more).files) {
      CleanRepairable(Run(run + more).files);
    }
  }

  // ---- the way out ----

  /** Requests that all go well. */
  ghost predicate CalmAsks(more: seq<Invocation>) {
    forall i :: 0 <= i < |more| ==> more[i].env == CALM && !more[i].busy
  }

  /** One request, and then the rest of the way. */
  lemma Ask(run: seq<Invocation>, fs: Files, op: Op, t: string, files: Files)
    requires Run(run).files == fs && Apply(fs, op, t, CALM).files == files
    ensures var i := Invocation(op, t, CALM, false);
      Run(run + [i]).files == files && forall rest :: (run + [i]) + rest == run + ([i] + rest)
  {
    hide Apply, Run;
    var i := Invocation(op, t, CALM, false);
    RunSnoc(run, i);
    forall rest ensures (run + [i]) + rest == run + ([i] + rest) {
    }
  }

  lemma ClaimReads(w: World, t: string)
    requires Inv(w) && IsTicket(t) && t in Admissions(w.log)
    ensures Claimed(w.files, t, Good)
  {
    hide StageFiles, Conserved, QueueOk, IsTicket;
    AsciiTicket(t);
    ReadsBack(w.files, Used(t), 70);
  }

  lemma AdmittedOnes(w: World, t: string)
    requires Inv(w) && (t in QueueOf(w.files) || t in Removals(w.log))
    ensures t in Admissions(w.log)
  {
    hide StageFiles, Burned, QueueOk, QueueOf;
    KeptIn(Admissions(w.log), Withdrawals(w.log));
    assert t in Removals(w.log) + QueueOf(w.files);
  }

  /** A marker of the outstanding reservation names an admitted ticket. */
  lemma NamedStage(w: World, t: string)
    requires Inv(w) && IsTicket(t)
    requires || Whole(w.files, Hold, t) || Whole(w.files, Release, t)
             || (Hold !in w.files && Release !in w.files && Whole(w.files, SettledHold, t))
    ensures var stage := StageOf(w.log);
      stage == Held(t) || stage == Freed(t) || stage == Drained(t) || stage == Idle([t])
    ensures Whole(w.files, Hold, t) ==> StageOf(w.log) == Held(t)
  {
    hide Conserved, Burned, SettleReady, QueueOf, IsTicket;
    var stage := StageOf(w.log);
    match stage
    case Held(u) =>
      MarkShape(u, 0);
      MarkShape(t, 0);
      MarkTicket(t, u);
    case Freed(u) => MarkTicket(t, u);
    case Drained(u) => MarkTicket(t, u);
    case Idle(last) => if last != [] { MarkTicket(t, last[0]); }
    case Broken =>
  }

  lemma StageAdmitted(w: World, t: string)
    requires Inv(w)
    requires var stage := StageOf(w.log);
      stage == Held(t) || stage == Freed(t) || stage == Drained(t) || stage == Idle([t])
    ensures t in Admissions(w.log)
  {
    hide Conserved, Burned, SettleReady, QueueOf;
    InvStage(w);
    LastSettled(w.log);
    AdmittedOnes(w, t);
  }

  lemma NamedReady(w: World, t: string)
    requires Inv(w) && IsTicket(t) && Pending !in w.files && Intent !in w.files
    requires || Whole(w.files, Hold, t) || Whole(w.files, Release, t)
             || (Hold !in w.files && Release !in w.files && Whole(w.files, SettledHold, t))
    ensures Ready(w.files, t) && Claimed(w.files, t, Good)
  {
    hide StageFiles, Conserved, Burned, Whole, Claimed, IsTicket;
    NamedStage(w, t);
    StageAdmitted(w, t);
    ClaimReads(w, t);
  }

  lemma SettleWay(run: seq<Invocation>, fs: Files, t: string) returns (more: seq<Invocation>)
    requires Run(run).files == fs && Unsettled(fs, t)
    ensures CalmAsks(more) && |more| == 1 && Clean(Run(run + more).files)
  {
    hide Apply, Run, Clean, Unsettled;
    var files := SettleSucceeds(fs, t);
    Ask(run, fs, Settle, t, files);
    more := [Invocation(Settle, t, CALM, false)];
  }

  lemma DequeueWay(run: seq<Invocation>, fs: Files, t: string) returns (more: seq<Invocation>)
    requires Run(run).files == fs && Ready(fs, t) && AtFront(fs, t) && Whole(fs, Release, t)
    requires Hold !in fs && Receipt !in fs
    ensures CalmAsks(more) && |more| == 2 && Clean(Run(run + more).files)
  {
    hide Apply, Run, Clean, Ready, AtFront, QueueOf, Recorded, Mark;
    var files := DequeueSucceeds(fs, t);
    Ask(run, fs, Dequeue, t, files);
    var i := Invocation(Dequeue, t, CALM, false);
    var rest := SettleWay(run + [i], files, t);
    more := [i] + rest;
  }

  lemma HoldWay(run: seq<Invocation>, fs: Files, t: string) returns (more: seq<Invocation>)
    requires Run(run).files == fs && Ready(fs, t) && AtFront(fs, t) && Whole(fs, Hold, t)
    requires Release !in fs && Receipt !in fs
    ensures CalmAsks(more) && |more| == 3 && Clean(Run(run + more).files)
  {
    hide Apply, Run, Clean, Ready, QueueOf, Mark;
    var files := ReleaseSucceeds(fs, t);
    Ask(run, fs, DoRelease, t, files);
    StillFront(fs, files, t);
    var i := Invocation(DoRelease, t, CALM, false);
    var rest := DequeueWay(run + [i], files, t);
    more := [i] + rest;
  }

  lemma ReceiptWay(run: seq<Invocation>, fs: Files, t: string) returns (more: seq<Invocation>)
    requires Run(run).files == fs && SettleReady(fs, t) && Claimed(fs, t, Good)
    requires Hold !in fs && Release !in fs && Receipt !in fs
    ensures CalmAsks(more) && |more| == 1 && Clean(Run(run + more).files)
  {
    hide Apply, Run, RecoverSettle, IndexOf, DequeueRecord, ValidFrom, IsTicket;
    CalmSettleRecover(fs, t);
    var files := CalmRecoverSettle(fs, t);
    Ask(run, fs, SettleRecover, t, files);
    more := [Invocation(SettleRecover, t, CALM, false)];
    assert Whole(files, SettledHold, t) && Whole(files, Receipt, t);
  }

  lemma ReleaseWay(run: seq<Invocation>, fs: Files, t: string) returns (more: seq<Invocation>)
    requires Run(run).files == fs && Pending !in fs && Intent !in fs && QueueOk(fs)
    requires IsTicket(t) && Whole(fs, Release, t) && (AtFront(fs, t) || Recorded(fs, t))
    ensures CalmAsks(more) && |more| <= 2 && Clean(Run(run + more).files)
  {
    hide Apply, Run, Clean, Ready, Inv, CalmAsks, IsTicket;
    RunInv(run);
    BusyStage(Run(run), t);
    NamedReady(Run(run), t);
    if AtFront(fs, t) {
      more := DequeueWay(run, fs, t);
    } else {
      more := SettleWay(run, fs, t);
    }
  }

  lemma BusyStage(w: World, t: string)
    requires Inv(w) && IsTicket(t) && Whole(w.files, Release, t)
    ensures Hold !in w.files && Receipt !in w.files && (AtFront(w.files, t) || t !in QueueOf(w.files))
  {
    hide Conserved, Burned, SettleReady, IsTicket, QueueOf;
    ReleasedTicket(w, t);
  }

  lemma HeldStage(w: World, t: string)
    requires Inv(w) && IsTicket(t) && Whole(w.files, Hold, t)
    ensures Release !in w.files && Receipt !in w.files && AtFront(w.files, t)
  {
    hide Conserved, Burned, SettleReady, IsTicket, QueueOf, Mark;
    NamedStage(w, t);
  }

  /** With no commit open, at most three requests lead to a clean queue. */
  lemma WayOutCalmly(run: seq<Invocation>) returns (more: seq<Invocation>)
    requires var fs := Run(run).files; QueueOk(fs) && Pending !in fs && Intent !in fs && WayOut(fs)
    ensures CalmAsks(more) && |more| <= 3 && Clean(Run(run + more).files)
  {
    hide Apply, Run, Ready, Inv, CalmAsks, IsTicket, SettleReady, HistoryOk, ValidFrom;
    var fs := Run(run).files;
    RunInv(run);
    if Hold !in fs && Release !in fs && HistoryOk(fs) {
      more := [];
      assert run + more == run;
      NoAsks();
    } else if Release in fs {
      var t :| IsTicket(t) && Whole(fs, Release, t) && (AtFront(fs, t) || Recorded(fs, t));
      more := ReleaseWay(run, fs, t);
    } else if t :| IsTicket(t) && Whole(fs, Hold, t) {
      HeldStage(Run(run), t);
      NamedReady(Run(run), t);
      more := HoldWay(run, fs, t);
    } else {
      var t :| SettleReady(fs, t);
      ReadyNames(fs, t);
      NamedReady(Run(run), t);
      more := ReceiptWay(run, fs, t);
    }
  }

  lemma NoAsks()
    ensures CalmAsks([])
  {
  }

  lemma ReadyNames(fs: Files, t: string)
    requires SettleReady(fs, t)
    ensures IsTicket(t) && Whole(fs, SettledHold, t)
  {
  }

  /** Every repairable state is at most four requests away from a clean queue, on a well-behaved file system. */
  lemma RepairedCalmly(run: seq<Invocation>) returns (more: seq<Invocation>)
    requires QueueOk(Run(run).files) && Repairable(Run(run).files)
    ensures CalmAsks(more) && |more| <= 4 && Clean(Run(run + more).files)
  {
    hide Apply, Run, WayOut, Resumable, Clean, ValidState;
    var fs := Run(run).files;
    if Intent !in fs {
      more := WayOutCalmly(run);
    } else {
      var files := ResumeCalmly(fs);
      Ask(run, fs, Recover, "", files);
      var i := Invocation(Recover, "", CALM, false);
      var rest := WayOutCalmly(run + [i]);
      more := [i] + rest;
    }
  }

  lemma ResumeCalmly(fs: Files) returns (files: Files)
    requires QueueOk(fs) && Resumable(fs)
    ensures Apply(fs, Recover, "", CALM).files == files && Intent in fs && files == Moved(fs, Intent, LastJournal)
  {
    hide Apply, HistoryClear, HistoryOk, RecoverQueue, ValidState, ValidJournal;
    if Release !in fs {
      CleanHistory(fs, CALM, 10);
    }
    RecoverGate(fs);
    RecoverBranch(fs);
    files := Moved(fs, Intent, LastJournal);
  }

  /** Whatever happened in a run, some continuation leads to a clean queue if and only if the state is repairable; and
    then at most four requests do. */
  lemma RepairableIff(run: seq<Invocation>)
    ensures QueueOk(Run(run).files)
    ensures Repairable(Run(run).files) <==> exists more :: Clean(Run(run + more).files)
  {
    hide Run, Repairable, Clean, Inv, QueueOk, CalmAsks;
    RunInv(run);
    HoldOrRelease(Run(run));
    if Repairable(Run(run).files) {
      var more := RepairedCalmly(run);
    } else {
      forall more ensures !Clean(Run(run + more).files) {
        NeverClean(run, more);
      }
    }
  }
}
