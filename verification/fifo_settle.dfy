/** Interrupted settles: what they block, and exactly when `settle-recover` can complete them. */
module FifoSettle {
  import opened FifoText
  import opened FifoStore
  import opened Fifo
  import opened FifoLog
  import opened FifoLeaves
  import opened FifoSafety
  import opened FifoRecovery
  import opened FifoProgress

  // ---- what a receipt that is missing or damaged blocks ----

  ghost predicate Receipted(fs: Files) {
    exists t :: IsTicket(t) && Whole(fs, SettledHold, t) && Whole(fs, Receipt, t)
  }

  /** A reservation was made before, nothing is held or released, and no whole receipt answers for the last one. */
  ghost predicate Interrupted(fs: Files) {
    && Hold !in fs && Release !in fs
    && (SettledHold in fs || Receipt in fs || PreviousReceipt in fs)
    && !Receipted(fs)
  }

  lemma MarkOf(s: string)
    requires ValidMark(s)
    ensures IsTicket(s[5..69]) && s == Mark(s[5..69])
  {
    assert s == s[..5] + s[5..69] + s[69..70];
  }

  lemma HistoryBlocked(fs: Files, env: Env, site: nat)
    requires Interrupted(fs)
    ensures !HistoryClear(fs, env, site)
  {
    if HistoryClear(fs, env, site) && SettledHold in fs {
      MarkOf(fs[SettledHold]);
    }
  }

  lemma BlockedDispatch(fs: Files, op: Op, t: string, state: string, pending: Presence, intent: Presence, env: Env)
    requires Interrupted(fs) && ValidState(state) && op != SettleRecover
    ensures var a := Dispatch(fs, op, t, state, Missing, Missing, pending, intent, env);
      a.files == fs && !Succeeded(op, a.reply)
  {
    HistoryBlocked(fs, env, 10);
    assert !BarrierValid(fs, state, Missing, Missing, env);
  }

  /** Until a whole receipt for the last reservation is in place, every operation but `settle-recover` refuses and
    changes nothing, whatever its own file-system calls do. */
  lemma InterruptedBlocks(fs: Files, op: Op, t: string, env: Env)
    requires Interrupted(fs) && op != SettleRecover
    ensures Apply(fs, op, t, env).files == fs
    ensures !Succeeded(op, Apply(fs, op, t, env).reply)
  {
    var state := if Look(fs, QueueFile, env(2)) == Found then Read(fs, QueueFile, 4165, env(5)) else "";
    if ValidState(state) {
      BlockedDispatch(fs, op, t, state, Look(fs, Pending, env(3)), Look(fs, Intent, env(4)), env);
    }
  }

  // ---- who can complete it ----

  lemma SettleRecoverApply(fs: Files, u: string, env: Env)
    ensures var a := Apply(fs, SettleRecover, u, env);
      || (a.files == fs && a.reply != Settled)
      || (&& QueueOk(fs) && Hold !in fs && Release !in fs
          && a == RecoverSettle(fs, fs[QueueFile], u, Look(fs, Pending, env(3)), Look(fs, Intent, env(4)), env))
  {
    hide RecoverSettle, WhileReleased, WhileIdle, HistoryClear, ValidFrom, InspectTicket, ReleaseHold;
  }

  /** `settle-recover` for a ticket changes files only by writing that ticket's receipt, and answers `settled` only
    when the evidence for that very ticket is complete. */
  lemma SettleRecoverNeeds(fs: Files, u: string, env: Env)
    ensures var a := Apply(fs, SettleRecover, u, env);
      && (a.files == fs || (SettleReady(fs, u) && ReceiptWritten(fs, a.files, u)))
      && (a.reply == Settled ==> SettleReady(fs, u) && Whole(a.files, Receipt, u))
  {
    hide Apply, RecoverSettle, SettleReady, ReceiptWritten, ValidState;
    SettleRecoverApply(fs, u, env);
    if QueueOk(fs) {
      RecoverSettleLeaves(fs, u, Look(fs, Pending, env(3)), Look(fs, Intent, env(4)), env);
    }
  }

  /** A different ticket never clears an interrupted settle. */
  lemma WrongTicketNeverSettles(fs: Files, t: string, u: string, env: Env)
    requires IsTicket(t) && Whole(fs, SettledHold, t) && u != t
    ensures Apply(fs, SettleRecover, u, env).files == fs
    ensures Apply(fs, SettleRecover, u, env).reply != Settled
  {
    SettleRecoverNeeds(fs, u, env);
    if SettleReady(fs, u) {
      MarkTicket(t, u);
    }
  }

  lemma CalmSettleRecover(fs: Files, t: string)
    requires QueueOk(fs) && Hold !in fs && Release !in fs
    ensures Apply(fs, SettleRecover, t, CALM)
            == RecoverSettle(fs, fs[QueueFile], t, Look(fs, Pending, Good), Look(fs, Intent, Good), CALM)
  {
    hide RecoverSettle, WhileReleased, WhileIdle, HistoryClear, ValidFrom, InspectTicket, ReleaseHold;
    CalmState(fs);
  }

  lemma CalmReceipt(fs: Files, t: string)
    requires QueueOk(fs) && Receipt in fs
    requires RecoverSettle(fs, fs[QueueFile], t, Look(fs, Pending, Good), Look(fs, Intent, Good), CALM).reply == Settled
    ensures fs[Receipt] == Mark(t) && Claimed(fs, t, Good)
  {
  }

  lemma CalmClaimed(fs: Files, t: string)
    requires QueueOk(fs)
    requires RecoverSettle(fs, fs[QueueFile], t, Look(fs, Pending, Good), Look(fs, Intent, Good), CALM).reply == Settled
    ensures Claimed(fs, t, Good)
  {
  }

  /** With a well-behaved file system, `settle-recover` of `t` succeeds exactly when the ticket is claimed, the last
    settled reservation is `t`, nothing is open, the archived journal is still the dequeue of `t` from the present
    queue, and the receipt is missing or already whole. */
  lemma SettleRecoverIff(fs: Files, t: string)
    requires QueueOk(fs) && Hold !in fs && Release !in fs
    ensures Apply(fs, SettleRecover, t, CALM).reply == Settled
            <==> SettleReady(fs, t) && Claimed(fs, t, Good) && (Receipt in fs ==> Whole(fs, Receipt, t))
  {
    CalmSettleRecover(fs, t);
    SettleRecoverNeeds(fs, t, CALM);
    if SettleReady(fs, t) && Claimed(fs, t, Good) && (Receipt in fs ==> Whole(fs, Receipt, t)) {
      var files := CalmRecoverSettle(fs, t);
    } else if Apply(fs, SettleRecover, t, CALM).reply == Settled {
      CalmClaimed(fs, t);
      if Receipt in fs {
        CalmReceipt(fs, t);
      }
    }
  }

  // ---- settles nothing can complete ----

  /** Interrupted, and `settle-recover` of no ticket can help: the evidence has gone, or a damaged receipt stands in
    the way. */
  ghost predicate Stuck(fs: Files) {
    && Interrupted(fs)
    && (Receipt in fs || forall t :: !SettleReady(fs, t))
  }

  lemma DamagedReceipt(fs: Files, u: string, env: Env)
    requires Receipt in fs && Interrupted(fs)
    ensures Apply(fs, SettleRecover, u, env).files == fs
    ensures Apply(fs, SettleRecover, u, env).reply != Settled
  {
    SettleRecoverNeeds(fs, u, env);
  }

  /** From a stuck state no operation, with any ticket and any behaviour of the file system, changes a file or
    succeeds. */
  lemma StuckForever(fs: Files, op: Op, t: string, env: Env)
    requires Stuck(fs)
    ensures Apply(fs, op, t, env).files == fs
    ensures !Succeeded(op, Apply(fs, op, t, env).reply)
  {
    if op != SettleRecover {
      InterruptedBlocks(fs, op, t, env);
    } else {
      SettleRecoverNeeds(fs, t, env);
      SettleAnswers(fs, t, env);
      if Receipt in fs {
        DamagedReceipt(fs, t, env);
      }
    }
  }

  lemma SettleAnswers(fs: Files, t: string, env: Env)
    ensures Succeeded(SettleRecover, Apply(fs, SettleRecover, t, env).reply)
            ==> Apply(fs, SettleRecover, t, env).reply == Settled
  {
    hide WhileReleased, WhileIdle, HistoryClear, ValidFrom, InspectTicket, ReleaseHold, SettleEvidence;
  }

  // ---- a hold that was not written whole ----

  lemma TornHoldDispatch(fs: Files, op: Op, t: string, state: string, pending: Presence, intent: Presence, env: Env)
    requires Hold in fs && Release !in fs && !ValidMark(fs[Hold]) && ValidState(state)
    ensures var a := Dispatch(fs, op, t, state, Found, Missing, pending, intent, env);
      a.files == fs && !Succeeded(op, a.reply)
  {
    hide ValidFrom, HistoryClear, InspectSynced, WhileIdle, WhileReleased, RecoverSettle;
    assert !ValidMark(Read(fs, Hold, 70, env(160)));
    assert !BarrierValid(fs, state, Found, Missing, env);
    if IsTicket(t) {
      MarkShape(t, 0);
    }
  }

  /** A hold whose write was torn keeps its ticket reserved: whatever is asked, nothing changes and nothing succeeds
    until the host repairs the file. */
  lemma TornHoldBlocks(fs: Files, op: Op, t: string, env: Env)
    requires Hold in fs && Release !in fs && !ValidMark(fs[Hold])
    ensures Apply(fs, op, t, env).files == fs
    ensures !Succeeded(op, Apply(fs, op, t, env).reply)
  {
    hide Dispatch, ValidFrom;
    var state := if Look(fs, QueueFile, env(2)) == Found then Read(fs, QueueFile, 4165, env(5)) else "";
    if ValidState(state) {
      TornHoldDispatch(fs, op, t, state, Look(fs, Pending, env(3)), Look(fs, Intent, env(4)), env);
    }
  }

  // ---- until the receipt is there ----

  lemma InterruptedStep(fs: Files, t: string, i: Invocation)
    requires Interrupted(fs) && IsTicket(t) && Whole(fs, SettledHold, t)
    ensures var files := After(fs, i);
      Whole(files, SettledHold, t) && (Interrupted(files) || Whole(files, Receipt, t))
  {
    hide Apply, ValidState, SettleReady;
    if i.op != SettleRecover {
      InterruptedBlocks(fs, i.op, i.ticket, i.env);
    } else if i.ticket != t {
      WrongTicketNeverSettles(fs, t, i.ticket, i.env);
    } else {
      SettleRecoverNeeds(fs, t, i.env);
      if After(fs, i) != fs && After(fs, i)[Receipt] != Mark(t) {
        TornStays(fs, After(fs, i), t);
      }
    }
  }

  lemma TornStays(fs: Files, files: Files, t: string)
    requires Interrupted(fs) && Whole(fs, SettledHold, t) && ReceiptWritten(fs, files, t) && files[Receipt] != Mark(t)
    ensures Interrupted(files)
  {
  }

  /** After an interrupted settle of `t`, whatever is invoked and however it fails or is killed, no operation but
    `settle-recover` succeeds until a whole receipt for `t` itself is in place. */
  lemma {:induction false} BlockedUntilReceipt(w: World, t: string, run: seq<Invocation>, op: Op, u: string, env: Env)
    requires Interrupted(w.files) && IsTicket(t) && Whole(w.files, SettledHold, t)
    requires forall k :: 0 <= k <= |run| ==> !Whole(RunFrom(w, run[..k]).files, Receipt, t)
    requires op != SettleRecover
    ensures Interrupted(RunFrom(w, run).files) && Whole(RunFrom(w, run).files, SettledHold, t)
    ensures !Succeeded(op, Apply(RunFrom(w, run).files, op, u, env).reply)
    decreases |run|
  {
    hide Apply, After, Interrupted, Succeeded, Whole, Observe;
    if run != [] {
      var n := |run| - 1;
      forall k | 0 <= k <= n ensures !Whole(RunFrom(w, run[..n][..k]).files, Receipt, t) {
        assert run[..n][..k] == run[..k];
      }
      BlockedUntilReceipt(w, t, run[..n], op, u, env);
      InterruptedStep(RunFrom(w, run[..n]).files, t, run[n]);
      assert run[..|run|] == run;
    }
    InterruptedBlocks(RunFrom(w, run).files, op, u, env);
  }

  /** Over every further sequence of invocations a stuck state stays as it is, and nothing succeeds in it. */
  lemma {:induction false} StuckOverRuns(w: World, run: seq<Invocation>, op: Op, t: string, env: Env)
    requires Stuck(w.files)
    ensures RunFrom(w, run).files == w.files
    ensures !Succeeded(op, Apply(RunFrom(w, run).files, op, t, env).reply)
    decreases |run|
  {
    hide Apply, Stuck, Succeeded, Observe;
    StuckForever(w.files, op, t, env);
    if run != [] {
      var n := |run| - 1;
      StuckOverRuns(w, run[..n], op, t, env);
      StuckForever(w.files, run[n].op, run[n].ticket, run[n].env);
    }
  }
}
