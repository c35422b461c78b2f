/** Interrupted settles followed to the end: which ones the matching `settle-recover` completes, and two runs that no
  later operation can repair. */
module FifoStuck {
  import opened FifoText
  import opened FifoStore
  import opened Fifo
  import opened FifoLog
  import opened FifoLeaves
  import opened FifoSafety
  import opened FifoProgress
  import opened FifoSettle

  ghost predicate TornReceipt(fs: Files, t: string) {
    Receipt in fs && IsPrefix(fs[Receipt], Mark(t)) && fs[Receipt] != Mark(t)
  }

  lemma SettleBranches(fs: Files, t: string, state: string, pending: Presence, intent: Presence, env: Env)
    requires ValidState(state)
    ensures var a := WhileReleased(fs, Settle, t, state, pending, intent, env);
      a.files == fs || a == SettleReleased(fs, state, t, Missing, Missing, env)
  {
    hide ValidState, IsTicket, SettleReleased, RecoverQueue, RemoveFront, Claimed, Read;
  }

  lemma SettleDispatch(fs: Files, t: string, state: string, release: Presence, pending: Presence, intent: Presence,
                       env: Env)
    requires ValidState(state)
    ensures var a := Dispatch(fs, Settle, t, state, Missing, release, pending, intent, env);
      a.files == fs || a == WhileReleased(fs, Settle, t, state, pending, intent, env)
  {
    hide ValidState, IsTicket, WhileReleased, HistoryClear;
  }

  lemma SettleApply(fs: Files, t: string, env: Env)
    requires QueueOk(fs) && Hold !in fs
    ensures var a := Apply(fs, Settle, t, env);
      a.files == fs || a == SettleReleased(fs, fs[QueueFile], t, Missing, Missing, env)
  {
    hide WhileReleased, SettleReleased, ValidFrom;
    var release, pending, intent := Look(fs, Release, env(1)), Look(fs, Pending, env(3)), Look(fs, Intent, env(4));
    SettleBranches(fs, t, fs[QueueFile], pending, intent, env);
    SettleDispatch(fs, t, fs[QueueFile], release, pending, intent, env);
  }

  /** Whatever interrupts a settle leaves the files untouched, moves the release marker to history, or moves it and
    writes a prefix of the receipt. */
  lemma SettleLeft(fs: Files, t: string, env: Env)
    requires Unsettled(fs, t)
    ensures var files := Apply(fs, Settle, t, env).files;
      files == fs || files == Moved(fs, Release, SettledHold)
      || ReceiptWritten(Moved(fs, Release, SettledHold), files, t)
  {
    SettleApply(fs, t, env);
    SettleLeaves(fs, t, Missing, Missing, env);
  }

  lemma ReceiptReady(moved: Files, files: Files, t: string)
    requires SettleReady(moved, t) && Claimed(moved, t, Good) && QueueOk(moved) && Hold !in moved && Release !in moved
    requires files == moved || ReceiptWritten(moved, files, t)
    ensures SettleReady(files, t) && Claimed(files, t, Good) && QueueOk(files) && Hold !in files && Release !in files
  {
  }

  lemma TornIsStuck(files: Files, t: string)
    requires Hold !in files && Release !in files && Whole(files, SettledHold, t) && TornReceipt(files, t)
    ensures Stuck(files)
  {
  }

  /** However a settle of `t` was interrupted after it moved the release marker, the matching `settle-recover`
    completes it if and only if the receipt was not torn; a torn receipt leaves the queue stuck for good. */
  lemma InterruptedSettleIff(fs: Files, t: string, env: Env, files: Files)
    requires Unsettled(fs, t) && files == Apply(fs, Settle, t, env).files && files != fs
    ensures Apply(files, SettleRecover, t, CALM).reply == Settled <==> !TornReceipt(files, t)
    ensures TornReceipt(files, t) ==> Stuck(files)
  {
    hide Apply;
    SettleLeft(fs, t, env);
    var moved := Moved(fs, Release, SettledHold);
    MovedReady(fs, t);
    assert files == moved || ReceiptWritten(moved, files, t);
    ReceiptReady(moved, files, t);
    SettleRecoverIff(files, t);
    assert Receipt in files ==> ReceiptWritten(moved, files, t);
    if TornReceipt(files, t) {
      TornIsStuck(files, t);
    }
  }

  // ---- a reserve interrupted after it moved the receipt of the last reservation ----

  lemma ConsumedInterrupted(fs: Files, t: string)
    requires Clean(fs) && Whole(fs, Receipt, t)
    ensures Interrupted(Moved(fs, Receipt, PreviousReceipt))
  {
  }

  lemma ReadyOnly(fs: Files, t: string, u: string)
    requires IsTicket(t) && Whole(fs, SettledHold, t) && SettleReady(fs, u)
    ensures u == t
  {
    MarkTicket(t, u);
  }

  /** When a reserve was interrupted between moving the receipt of `t` aside and writing its own hold, the matching
    `settle-recover` completes it if and only if the archived journal is still the dequeue of `t` from the present
    queue. Otherwise the queue is stuck for good. */
  lemma ConsumedHistoryIff(fs: Files, t: string, files: Files)
    requires Clean(fs) && IsTicket(t) && Whole(fs, SettledHold, t) && Whole(fs, Receipt, t)
    requires Claimed(fs, t, Good) && t !in QueueOf(fs)
    requires files == Moved(fs, Receipt, PreviousReceipt)
    ensures Apply(files, SettleRecover, t, CALM).reply == Settled <==> Recorded(fs, t)
    ensures !Recorded(fs, t) ==> Stuck(files)
  {
    hide Apply, ValidFrom, IndexOf, Encode;
    QueueText(fs);
    FindTicket(QueueOf(fs), t);
    ConsumedInterrupted(fs, t);
    SettleRecoverIff(files, t);
    assert SettleReady(files, t) <==> Recorded(fs, t);
    if !Recorded(fs, t) {
      forall u ensures !SettleReady(files, u) {
        if SettleReady(files, u) {
          ReadyOnly(files, t, u);
        }
      }
    }
  }

  // ---- runs that get stuck ----

  lemma Then(run: seq<Invocation>, op: Op, t: string, env: Env, fs: Files, files: Files) returns (longer: seq<Invocation>)
    requires Run(run).files == fs && Apply(fs, op, t, env).files == files
    ensures Run(longer).files == files
  {
    var i := Invocation(op, t, env, false);
    RunSnoc(run, i);
    longer := run + [i];
  }

  lemma EnqueueRun(run: seq<Invocation>, fs: Files, t: string) returns (longer: seq<Invocation>, files: Files)
    requires Run(run).files == fs
    requires Clean(fs) && IsTicket(t) && Used(t) !in fs && t !in QueueOf(fs) && |QueueOf(fs)| < 64
    ensures Run(longer).files == files
    ensures Clean(files) && QueueOf(files) == QueueOf(fs) + [t] && Claimed(files, t, Good)
    ensures LastRecord(files, Encode(QueueOf(fs)), Encode(QueueOf(fs) + [t]))
    ensures Same(fs, files, {Staged(t), Used(t), QueueFile, LastJournal})
  {
    hide Apply, Clean, LastRecord, QueueOf;
    files := FreshTicketEnqueues(fs, t);
    longer := Then(run, Enqueue, t, CALM, fs, files);
  }

  lemma ReserveRun(run: seq<Invocation>, fs: Files, t: string) returns (longer: seq<Invocation>, files: Files)
    requires Run(run).files == fs && Clean(fs) && Ready(fs, t) && AtFront(fs, t)
    ensures Run(longer).files == files && Ready(files, t) && QueueOf(files) == QueueOf(fs)
    ensures Whole(files, Hold, t) && Release !in files && Receipt !in files
    ensures Same(fs, files, {Hold, Receipt, PreviousReceipt})
  {
    hide *;
    files := ReserveSucceeds(fs, t);
    longer := Then(run, Reserve, t, CALM, fs, files);
  }

  lemma ReleaseRun(run: seq<Invocation>, fs: Files, t: string) returns (longer: seq<Invocation>, files: Files)
    requires Run(run).files == fs && Ready(fs, t) && AtFront(fs, t) && Whole(fs, Hold, t)
    requires Release !in fs && Receipt !in fs
    ensures Run(longer).files == files && Ready(files, t) && QueueOf(files) == QueueOf(fs)
    ensures Whole(files, Release, t) && Hold !in files && Receipt !in files && Same(fs, files, {Hold, Release})
  {
    hide Apply, Ready, Mark, QueueOf, AtFront, Run;
    files := ReleaseSucceeds(fs, t);
    longer := Then(run, DoRelease, t, CALM, fs, files);
  }

  lemma DequeueRun(run: seq<Invocation>, fs: Files, t: string) returns (longer: seq<Invocation>, files: Files)
    requires Run(run).files == fs && Ready(fs, t) && AtFront(fs, t) && Whole(fs, Release, t)
    requires Hold !in fs && Receipt !in fs
    ensures Run(longer).files == files && Unsettled(files, t) && QueueOf(files) == QueueOf(fs)[1..]
    ensures Same(fs, files, {QueueFile, LastJournal})
  {
    hide Apply, Ready, Mark, QueueOf, Run, AtFront, Recorded, QueueOk;
    assert QueueOf(fs) != [] by { StillFront(fs, fs, t); }
    files := DequeueSucceeds(fs, t);
    longer := Then(run, Dequeue, t, CALM, fs, files);
  }

  lemma StillFront(fs: Files, files: Files, t: string)
    requires AtFront(fs, t) && QueueOf(files) == QueueOf(fs)
    ensures AtFront(files, t) && QueueOf(files) != []
  {
    hide QueueOf;
  }

  /** Reserve, release and dequeue the front ticket. */
  lemma DrainRun(run: seq<Invocation>, fs: Files, t: string) returns (longer: seq<Invocation>, files: Files)
    requires Run(run).files == fs && Clean(fs) && Ready(fs, t) && AtFront(fs, t)
    ensures Run(longer).files == files
    ensures Unsettled(files, t) && QueueOf(files) == QueueOf(fs)[1..]
    ensures Same(fs, files, {QueueFile, LastJournal, Hold, Release, Receipt, PreviousReceipt})
  {
    hide AtFront, Ready, Clean, Unsettled, QueueOf, Whole, Run;
    var held: Files;
    longer, held := ReserveRun(run, fs, t);
    StillFront(fs, held, t);
    var freed: Files;
    longer, freed := ReleaseRun(longer, held, t);
    StillFront(held, freed, t);
    longer, files := DequeueRun(longer, freed, t);
  }

  /** A receipt write that keeps nothing. */
  const TORN_SETTLE: Env := (site: nat) => if site == 109 then Torn(0) else Good

  lemma TornEvidence(fs: Files, t: string)
    requires Unsettled(fs, t)
    ensures SettleReleased(fs, fs[QueueFile], t, Missing, Missing, TORN_SETTLE).files
            == Moved(fs, Release, SettledHold)[Receipt := ""]
  {
    hide SettleReleased, Unsettled, SettleReady, RecoverSettle, SettleEvidence, ValidFrom, Mark;
    MovedAside(fs, t, TORN_SETTLE);
    MovedReady(fs, t);
    var moved := Moved(fs, Release, SettledHold);
    CalmSettleEvidence(moved, t);
    TornWrite(moved, t);
  }

  lemma TornWrite(moved: Files, t: string)
    requires QueueOk(moved) && Receipt !in moved
    requires SettleEvidence(moved, moved[QueueFile], t, Missing, Missing, CALM) == Chain(moved, true)
    ensures RecoverSettle(moved, moved[QueueFile], t, Missing, Missing, TORN_SETTLE).files == moved[Receipt := ""]
  {
    assert SettleEvidence(moved, moved[QueueFile], t, Missing, Missing, TORN_SETTLE)
        == SettleEvidence(moved, moved[QueueFile], t, Missing, Missing, CALM);
    assert Prefix(Mark(t), 0) == "";
  }

  lemma TornRun(run: seq<Invocation>, fs: Files, t: string) returns (longer: seq<Invocation>)
    requires Run(run).files == fs && Unsettled(fs, t)
    ensures var files := Run(longer).files; Stuck(files) && TornReceipt(files, t) && Whole(files, SettledHold, t)
  {
    hide Apply, SettleReleased, Run;
    ReleasedApply(fs, Settle, t, TORN_SETTLE);
    TornEvidence(fs, t);
    var files := Moved(fs, Release, SettledHold)[Receipt := ""];
    longer := Then(run, Settle, t, TORN_SETTLE, fs, files);
    TornIsStuck(files, t);
  }

  /** A run that settles `t`, tears the write of its receipt and is stuck: no ticket is ever exposed again. */
  lemma TornReceiptStuck(t: string) returns (run: seq<Invocation>)
    requires IsTicket(t)
    ensures var files := Run(run).files;
      Stuck(files) && Whole(files, SettledHold, t) && TornReceipt(files, t)
  {
    hide Apply, Unsettled, Stuck, Run, TornReceipt, Whole;
    FreshClean();
    assert Run([]) == FRESH by { EmptyRun(); }
    var fs: Files;
    run, fs := EnqueueRun([], FRESH.files, t);
    run, fs := DrainRun(run, fs, t);
    run := TornRun(run, fs, t);
  }

  /** Killed, or refused, when it came to write the hold. */
  const LOST_HOLD: Env := (site: nat) => if site == 151 then Refused else Good

  lemma ReadyParts(fs: Files, t: string)
    requires Ready(fs, t)
    ensures IsTicket(t) && QueueOk(fs) && Claimed(fs, t, Good)
  {
  }

  lemma HistoryConsumed(fs: Files)
    requires Clean(fs) && Receipt in fs
    ensures ConsumeHistory(fs, LOST_HOLD) == Chain(Moved(fs, Receipt, PreviousReceipt), true)
  {
    hide HistoryClear, NothingOpen;
    CleanHistory(fs, LOST_HOLD, 21);
  }

  lemma HoldLost(fs: Files, t: string)
    requires Clean(fs) && Ready(fs, t) && AtFront(fs, t) && Receipt in fs
    ensures ReserveFront(fs, t, fs[QueueFile], LOST_HOLD).files == Moved(fs, Receipt, PreviousReceipt)
  {
    hide HistoryClear, Clean, Ready, AtFront, FrontLine, Mark, ConsumeHistory, ValidFrom, IsTicket;
    ReadyParts(fs, t);
    FrontSlice(fs, t);
    HistoryConsumed(fs);
  }

  lemma ReserveLost(fs: Files, t: string)
    requires Clean(fs) && Ready(fs, t) && AtFront(fs, t) && Receipt in fs
    ensures Apply(fs, Reserve, t, LOST_HOLD).files == Moved(fs, Receipt, PreviousReceipt)
  {
    hide Apply, ReserveFront, Clean, ValidFrom;
    CleanApply(fs, Reserve, t, LOST_HOLD);
    HoldLost(fs, t);
  }

  /** An archived journal that records an append is not the record of a dequeue. */
  lemma AppendIsNotDequeue(fs: Files, t: string, q: seq<string>, u: string)
    requires QueueOk(fs) && QueueOf(fs) == q + [u] && LastRecord(fs, Encode(q), Encode(q + [u]))
    ensures !Recorded(fs, t)
  {
    QueueText(fs);
    assert Queue(q) by { assert forall i :: 0 <= i < |q| ==> q[i] == (q + [u])[i]; }
    EncodeValid(q);
    EncodeValid(q + [u]);
  }

  lemma SettleRun(run: seq<Invocation>, fs: Files, t: string) returns (longer: seq<Invocation>, files: Files)
    requires Run(run).files == fs && Unsettled(fs, t)
    ensures Run(longer).files == files && Clean(files) && QueueOf(files) == QueueOf(fs)
    ensures IsTicket(t) && Whole(files, Receipt, t) && Whole(files, SettledHold, t)
    ensures Same(fs, files, {Release, SettledHold, Receipt})
  {
    hide Apply;
    files := SettleSucceeds(fs, t);
    longer := Then(run, Settle, t, CALM, fs, files);
    SettledAgain(files, t);
  }

  lemma SettledAgain(fs: Files, t: string)
    requires Clean(fs) && Whole(fs, Receipt, t) && IsTicket(t)
    ensures Whole(fs, SettledHold, t)
  {
    var u :| IsTicket(u) && Whole(fs, SettledHold, u) && Whole(fs, Receipt, u);
  }

  lemma StillClaimed(fs: Files, files: Files, t: string, touched: set<File>)
    requires Claimed(fs, t, Good) && Same(fs, files, touched) && Used(t) !in touched
    ensures Claimed(files, t, Good)
  {
  }

  lemma OthersUnclaimed(fs: Files, files: Files, a: string)
    requires Same(fs, files, {Staged(a), Used(a), QueueFile, LastJournal})
    ensures forall t :: t != a && Used(t) !in fs ==> Used(t) !in files
  {
  }

  lemma EnqueueTwo(a: string, b: string) returns (run: seq<Invocation>, fs: Files)
    requires IsTicket(a) && IsTicket(b) && a != b
    ensures Run(run).files == fs && Clean(fs) && QueueOf(fs) == [a] + [b]
    ensures Claimed(fs, a, Good) && Claimed(fs, b, Good)
    ensures forall t :: t != a && t != b ==> Used(t) !in fs
  {
    hide Run, Clean, LastRecord, QueueOf, IsTicket, Claimed;
    FreshClean();
    EmptyRun();
    var first: Files;
    run, first := EnqueueRun([], FRESH.files, a);
    OthersUnclaimed(FRESH.files, first, a);
    run, fs := EnqueueRun(run, first, b);
    OthersUnclaimed(first, fs, b);
    StillClaimed(first, fs, a, {Staged(b), Used(b), QueueFile, LastJournal});
  }

  lemma SettleFirst(a: string, b: string) returns (run: seq<Invocation>, fs: Files)
    requires IsTicket(a) && IsTicket(b) && a != b
    ensures Run(run).files == fs && Clean(fs) && QueueOf(fs) == [b]
    ensures Whole(fs, Receipt, a) && Whole(fs, SettledHold, a) && Claimed(fs, a, Good) && Claimed(fs, b, Good)
    ensures forall t :: t != a && t != b ==> Used(t) !in fs
  {
    hide Run, Clean, Recorded, Whole, ValidFrom, Decode, IsTicket, Claimed, QueueOk, Unsettled;
    var both: Files;
    run, both := EnqueueTwo(a, b);
    CleanOpen(both);
    var drained: Files;
    run, drained := DrainRun(run, both, a);
    run, fs := SettleRun(run, drained, a);
    var touched := {QueueFile, LastJournal, Hold, Release, Receipt, PreviousReceipt, SettledHold};
    assert Same(both, fs, touched);
    StillClaimed(both, fs, a, touched);
    StillClaimed(both, fs, b, touched);
  }

  lemma CleanOpen(fs: Files)
    requires Clean(fs)
    ensures NothingOpen(fs)
  {
  }

  /** Settle `a`, admit `c`, then lose the hold of `b` after the receipt of `a` was moved aside: the journal of the
    dequeue of `a` has been overwritten, so the matching `settle-recover` refuses, and so does everything else. */
  lemma StaleJournalStuck(a: string, b: string, c: string) returns (run: seq<Invocation>)
    requires IsTicket(a) && IsTicket(b) && IsTicket(c) && a != b && b != c && a != c
    ensures Stuck(Run(run).files) && Apply(Run(run).files, SettleRecover, a, CALM).reply != Settled
    ensures var files := Run(run).files;
      && QueueOf(files) == [b] + [c] && LastRecord(files, Encode([b]), Encode([b] + [c]))
      && Whole(files, SettledHold, a) && Receipt !in files && Whole(files, PreviousReceipt, a)
  {
    hide Apply, Run, Clean, LastRecord, Recorded, ValidFrom, Decode, IsTicket, Stuck;
    var fs: Files;
    run, fs := SettleFirst(a, b);
    run, fs := EnqueueRun(run, fs, c);
    assert QueueOf(fs) == [b] + [c];
    CleanOpen(fs);
    AppendIsNotDequeue(fs, a, [b], c);
    ReserveLost(fs, b);
    var files := Moved(fs, Receipt, PreviousReceipt);
    run := Then(run, Reserve, b, LOST_HOLD, fs, files);
    ConsumedHistoryIff(fs, a, files);
    RecordMoved(fs, [b], c);
  }

  lemma RecordMoved(fs: Files, q: seq<string>, u: string)
    requires Receipt in fs && LastRecord(fs, Encode(q), Encode(q + [u]))
    ensures LastRecord(Moved(fs, Receipt, PreviousReceipt), Encode(q), Encode(q + [u]))
  {
    hide Encode, Journal;
  }
}
