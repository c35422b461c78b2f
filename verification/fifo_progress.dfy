/** What the FIFO does when the file system answers well: the whole cycle of a ticket succeeds, an unpublished claim
  can be retried, and an interrupted settle is completed exactly when its evidence is still there. */
module FifoProgress {
  import opened FifoText
  import opened FifoStore
  import opened Fifo
  import opened FifoLog
  import opened FifoCommit
  import opened FifoLeaves
  import opened FifoSafety

  /** Every call is done and acknowledged. */
  const CALM: Env := (site: nat) => Good

  // ---- everything the component writes can be read back ----

  lemma AsciiConcat(a: string, b: string)
    ensures Ascii(a + b) <==> Ascii(a) && Ascii(b)
  {
    if Ascii(a + b) {
      assert forall i :: 0 <= i < |a| ==> a[i] == (a + b)[i];
      assert forall i :: 0 <= i < |b| ==> b[i] == (a + b)[|a| + i];
    }
  }

  lemma AsciiTicket(t: string)
    requires IsTicket(t)
    ensures Ascii(t) && Ascii(Line(t)) && Ascii(Mark(t)) && Ascii(Claim(t))
    ensures |Mark(t)| == 70 && |Claim(t)| == 70
  {
    AsciiConcat(t, "\n");
    AsciiConcat("RGH1\n", Line(t));
    AsciiConcat("RGU1\n", Line(t));
    assert Mark(t) == "RGH1\n" + Line(t) && Claim(t) == "RGU1\n" + Line(t);
  }

  lemma {:induction false} AsciiLines(q: seq<string>)
    requires Tickets(q)
    ensures Ascii(Lines(q))
  {
    if q != [] {
      AsciiLines(q[1..]);
      AsciiTicket(q[0]);
      AsciiConcat(Line(q[0]), Lines(q[1..]));
    }
  }

  lemma AsciiQueue(q: seq<string>)
    requires Queue(q)
    ensures Ascii(Encode(q)) && 5 <= |Encode(q)| <= 4165
  {
    AsciiLines(q);
    AsciiConcat("RGQ5\n", Lines(q));
    EncodeValid(q);
  }

  lemma AsciiJournal(a: string, b: string)
    requires Ascii(a) && Ascii(b)
    ensures Ascii(Journal(a, b))
  {
    AsciiConcat("RGI1\n", a);
    AsciiConcat("RGI1\n" + a, "NEXT\n");
    AsciiConcat("RGI1\n" + a + "NEXT\n", b);
  }

  lemma ReadsBack(fs: Files, f: File, maximum: nat)
    requires f in fs && 1 <= |fs[f]| <= maximum && Ascii(fs[f])
    ensures Read(fs, f, maximum, Good) == fs[f]
  {
  }

  // ---- calm commits, claims and reads ----

  lemma CalmPrepare(fs: Files, q: seq<string>, next: seq<string>)
    requires Queue(q) && Queue(next)
    requires QueueFile in fs && fs[QueueFile] == Encode(q) && Intent !in fs && Pending !in fs
    ensures Prepare(fs, Encode(q), Encode(next), CALM)
            == Chain(fs[Intent := Journal(Encode(q), Encode(next))][Pending := Encode(next)], true)
  {
    var journal := Journal(Encode(q), Encode(next));
    AsciiQueue(q);
    AsciiQueue(next);
    var c := Begin(fs).Then(Lacks(Intent), Good).Then(Lacks(Pending), Good).Then(Write(Intent, journal), Good);
    assert c == Chain(fs[Intent := journal], true);
    var c1 := c.Then(Flush(Intent), Good).Then(Flush(Directory), Good).Then(Write(Pending, Encode(next)), Good);
    assert c1 == Chain(fs[Intent := journal][Pending := Encode(next)], true);
    ReadsBack(c1.files, Pending, 4165);
    ReadsBack(c1.files, QueueFile, 4165);
  }

  lemma CalmCommit(fs: Files, q: seq<string>, next: seq<string>) returns (files: Files)
    requires Queue(q) && Queue(next)
    requires QueueFile in fs && fs[QueueFile] == Encode(q) && Intent !in fs && Pending !in fs
    ensures Commit(fs, Encode(q), Encode(next), CALM) == Chain(files, true)
    ensures NothingOpen(files) && QueueOf(files) == next && Committed(fs, files, Encode(q), Encode(next))
  {
    CalmPrepare(fs, q, next);
    CommitLeaves(fs, Encode(q), Encode(next), CALM);
    var c := Prepare(fs, Encode(q), Encode(next), CALM);
    var c1 := c.Then(Replace(Pending, QueueFile), Good);
    assert c1.up && Intent in c1.files;
    var c2 := c1.Then(Flush(Directory), Good).Then(Replace(Intent, LastJournal), Good);
    assert c2.up && Intent !in c2.files && Pending !in c2.files;
    files := c2.files;
    assert Commit(fs, Encode(q), Encode(next), CALM) == c2.Then(Flush(Directory), Good);
    NewQueue(files, next);
  }

  lemma CalmClaim(fs: Files, t: string) returns (files: Files)
    requires IsTicket(t) && Used(t) !in fs
    ensures ClaimTicket(fs, t, CALM) == ClaimAnswer(files, [])
    ensures ClaimShape(fs, files, t) && Claimed(files, t, Good) && files == fs[Used(t) := Claim(t)] - {Staged(t)}
  {
    ClaimLeaves(fs, t, CALM);
    AsciiTicket(t);
    var c := Begin(fs).Then(Write(Staged(t), Claim(t)), Good);
    ReadsBack(c.files, Staged(t), 70);
    assert StageClaim(fs, t, CALM) == Chain(fs[Staged(t) := Claim(t)], true);
    var c1 := StageClaim(fs, t, CALM).Then(Publish(Staged(t), Used(t)), Good);
    assert c1 == Chain(Moved(fs[Staged(t) := Claim(t)], Staged(t), Used(t)), true);
    ReadsBack(c1.files, Used(t), 70);
    files := c1.files;
  }

  // ---- the clean states between cycles ----

  ghost predicate NothingOpen(fs: Files) {
    QueueOk(fs) && Pending !in fs && Intent !in fs
  }

  /** Never reserved, or the last reservation settled with its receipt in place. */
  ghost predicate HistoryOk(fs: Files) {
    || (SettledHold !in fs && Receipt !in fs && PreviousReceipt !in fs)
    || (exists t :: IsTicket(t) && Whole(fs, SettledHold, t) && Whole(fs, Receipt, t))
  }

  /** Between cycles: no commit open, no reservation outstanding. */
  ghost predicate Clean(fs: Files) {
    NothingOpen(fs) && Hold !in fs && Release !in fs && HistoryOk(fs)
  }

  lemma FreshClean()
    ensures Clean(FRESH.files) && QueueOf(FRESH.files) == []
    ensures forall f :: f in FRESH.files <==> f == QueueFile
  {
    assert FRESH.files[QueueFile] == Encode([]);
    NewQueue(FRESH.files, []);
  }

  /** The eight lookups, reads and syncs of a history check are answered well. */
  ghost predicate GoodHistory(env: Env, site: nat) {
    forall k: nat :: site <= k < site + 8 ==> env(k) == Good
  }

  lemma CleanHistory(fs: Files, env: Env, site: nat)
    requires HistoryOk(fs) && GoodHistory(env, site)
    ensures HistoryClear(fs, env, site)
  {
    if Receipt in fs {
      var t :| IsTicket(t) && Whole(fs, SettledHold, t) && Whole(fs, Receipt, t);
      AsciiTicket(t);
      MarkShape(t, 0);
      ReadsBack(fs, SettledHold, 70);
      ReadsBack(fs, Receipt, 70);
    }
  }

  lemma CalmState(fs: Files)
    requires QueueOk(fs)
    ensures Look(fs, QueueFile, Good) == Found && Read(fs, QueueFile, 4165, Good) == fs[QueueFile]
  {
    QueueText(fs);
    AsciiQueue(QueueOf(fs));
  }

  /** The lookups and reads an operation starts with are answered well. */
  ghost predicate GoodStart(env: Env) {
    env(0) == env(1) == env(2) == env(3) == env(4) == env(5) == env(130) == env(131) == Good
  }

  lemma CleanApply(fs: Files, op: Op, t: string, env: Env)
    requires Clean(fs) && op != Inspect && op != SettleRecover && op != DoRelease
    requires GoodStart(env) && GoodHistory(env, 10)
    ensures Apply(fs, op, t, env) == WhileIdle(fs, op, t, fs[QueueFile], Missing, Missing, env)
  {
    CalmState(fs);
    CleanHistory(fs, env, 10);
  }

  lemma ClaimedClean(fs: Files, files: Files, t: string)
    requires Clean(fs) && ClaimShape(fs, files, t)
    ensures Clean(files) && QueueOf(files) == QueueOf(fs) && files[QueueFile] == fs[QueueFile]
  {
    KeepsHistory(fs, files);
  }

  lemma CommittedClean(fs: Files, files: Files, original: string, next: string)
    requires Clean(fs) && NothingOpen(files) && Committed(fs, files, original, next)
    ensures Clean(files)
  {
    KeepsHistory(fs, files);
  }

  lemma EnqueueAnswers(fs: Files, t: string, state: string, claimed: Files, files: Files)
    requires IndexOf(state, Line(t)) < 0 && |state| < 4165
    requires ClaimTicket(fs, t, CALM) == ClaimAnswer(claimed, [])
    requires Commit(claimed, state, state + Line(t), CALM) == Chain(files, true)
    ensures EnqueueTicket(fs, t, state, CALM) == Answer(files, Enqueued)
  {
  }

  /** The room a queue text has, and what it becomes with one more ticket. */
  lemma RoomFor(fs: Files, t: string)
    requires QueueOk(fs) && IsTicket(t) && t !in QueueOf(fs) && |QueueOf(fs)| < 64
    ensures IndexOf(fs[QueueFile], Line(t)) < 0 && |fs[QueueFile]| < 4165
    ensures Queue(QueueOf(fs)) && fs[QueueFile] == Encode(QueueOf(fs))
    ensures Queue(QueueOf(fs) + [t]) && fs[QueueFile] + Line(t) == Encode(QueueOf(fs) + [t])
  {
    QueueText(fs);
    FindTicket(QueueOf(fs), t);
    Slices(QueueOf(fs), t);
  }

  ghost predicate LastRecord(fs: Files, original: string, next: string) {
    LastJournal in fs && fs[LastJournal] == Journal(original, next)
  }

  lemma AdmittedFiles(fs: Files, claimed: Files, files: Files, t: string, original: string, next: string)
    requires Clean(fs) && ClaimShape(fs, claimed, t) && Clean(claimed) && NothingOpen(files)
    requires Committed(claimed, files, original, next) && Claimed(claimed, t, Good)
    ensures Clean(files) && Claimed(files, t, Good) && LastRecord(files, original, next)
    ensures Same(fs, files, {Staged(t), Used(t), QueueFile, LastJournal})
  {
    CommittedClean(claimed, files, original, next);
  }

  lemma CalmEnqueue(fs: Files, t: string) returns (files: Files)
    requires Clean(fs) && IsTicket(t) && Used(t) !in fs && t !in QueueOf(fs) && |QueueOf(fs)| < 64
    ensures EnqueueTicket(fs, t, fs[QueueFile], CALM) == Answer(files, Enqueued)
    ensures Clean(files) && QueueOf(files) == QueueOf(fs) + [t] && Claimed(files, t, Good)
    ensures LastRecord(files, Encode(QueueOf(fs)), Encode(QueueOf(fs) + [t]))
    ensures Same(fs, files, {Staged(t), Used(t), QueueFile, LastJournal})
  {
    RoomFor(fs, t);
    var q := QueueOf(fs);
    var claimed := CalmClaim(fs, t);
    ClaimedClean(fs, claimed, t);
    files := CalmCommit(claimed, q, q + [t]);
    EnqueueAnswers(fs, t, fs[QueueFile], claimed, files);
    AdmittedFiles(fs, claimed, files, t, Encode(q), Encode(q + [t]));
  }

  /** A ticket never claimed and not waiting is admitted to any clean queue with room, behind all others; a staging
    file left by an earlier attempt makes no difference. */
  lemma FreshTicketEnqueues(fs: Files, t: string) returns (files: Files)
    requires Clean(fs) && IsTicket(t) && Used(t) !in fs && t !in QueueOf(fs) && |QueueOf(fs)| < 64
    ensures Apply(fs, Enqueue, t, CALM) == Answer(files, Enqueued)
    ensures Clean(files) && QueueOf(files) == QueueOf(fs) + [t] && Claimed(files, t, Good)
    ensures LastRecord(files, Encode(QueueOf(fs)), Encode(QueueOf(fs) + [t]))
    ensures Same(fs, files, {Staged(t), Used(t), QueueFile, LastJournal})
  {
    CleanApply(fs, Enqueue, t, CALM);
    files := CalmEnqueue(fs, t);
  }

  lemma KeepsHistory(a: Files, b: Files)
    requires HistoryOk(a)
    requires forall f :: f in {SettledHold, Receipt, PreviousReceipt} ==> (f in a <==> f in b) && (f in a ==> a[f] == b[f])
    ensures HistoryOk(b)
  {
    if Receipt in a {
      var t :| IsTicket(t) && Whole(a, SettledHold, t) && Whole(a, Receipt, t);
      assert Whole(b, SettledHold, t) && Whole(b, Receipt, t);
    }
  }

  lemma EnqueueApply(fs: Files, t: string, env: Env)
    requires QueueFile in fs
    ensures var a := Apply(fs, Enqueue, t, env);
      || (a.files == fs && a.reply != Enqueued)
      || (IsTicket(t) && ValidState(fs[QueueFile]) && a == EnqueueTicket(fs, t, fs[QueueFile], env))
  {
    var hold, release := Look(fs, Hold, env(0)), Look(fs, Release, env(1));
    var pending, intent := Look(fs, Pending, env(3)), Look(fs, Intent, env(4));
    if ValidState(fs[QueueFile]) {
      EnqueueDispatch(fs, t, fs[QueueFile], hold, release, pending, intent, env);
    }
  }

  lemma EnqueueDispatch(fs: Files, t: string, state: string, hold: Presence, release: Presence, pending: Presence,
                        intent: Presence, env: Env)
    requires ValidState(state)
    ensures var a := Dispatch(fs, Enqueue, t, state, hold, release, pending, intent, env);
      (a.files == fs && a.reply != Enqueued) || (IsTicket(t) && a == EnqueueTicket(fs, t, state, env))
  {
    hide EnqueueTicket, RecoverQueue, ReserveFront, CancelTicket, HistoryClear, IsTicket, ValidFrom;
    assert WhileReleased(fs, Enqueue, t, state, pending, intent, env) == Answer(fs, ReleasePending);
    var idle := WhileIdle(fs, Enqueue, t, state, pending, intent, env);
    assert (idle.files == fs && idle.reply != Enqueued) || (IsTicket(t) && idle == EnqueueTicket(fs, t, state, env));
  }

  /** A published claim is never replaced: whatever happens, the ticket is refused and the queue stays as it is. */
  lemma BurnedTicketRefused(fs: Files, t: string, env: Env)
    requires QueueFile in fs && Used(t) in fs
    ensures var a := Apply(fs, Enqueue, t, env);
      && a.reply != Enqueued
      && QueueFile in a.files && a.files[QueueFile] == fs[QueueFile]
      && Used(t) in a.files && a.files[Used(t)] == fs[Used(t)]
  {
    hide Apply, Commit, StageClaim, ValidFrom;
    EnqueueApply(fs, t, env);
    ClaimLeaves(fs, t, env);
  }

  // ---- the cycle of a ticket ----

  ghost predicate Ready(fs: Files, t: string) {
    NothingOpen(fs) && IsTicket(t) && Claimed(fs, t, Good)
  }

  lemma CalmReserve(fs: Files, t: string) returns (files: Files)
    requires Clean(fs) && Ready(fs, t) && AtFront(fs, t)
    ensures ReserveFront(fs, t, fs[QueueFile], CALM) == Answer(files, Reserved)
    ensures files == (if Receipt in fs then Moved(fs, Receipt, PreviousReceipt) else fs)[Hold := Mark(t)]
  {
    hide ValidFrom, IsTicket, Mark, Decode, FrontLine, HistoryOk, ConsumeHistory, AtFront;
    FrontSlice(fs, t);
    CalmConsume(fs);
    files := ConsumeHistory(fs, CALM).files[Hold := Mark(t)];
  }

  lemma CalmConsume(fs: Files)
    requires HistoryOk(fs)
    ensures ConsumeHistory(fs, CALM) == Chain(if Receipt in fs then Moved(fs, Receipt, PreviousReceipt) else fs, true)
  {
    hide HistoryOk, HistoryClear;
    CleanHistory(fs, CALM, 21);
  }

  lemma FrontSlice(fs: Files, t: string)
    requires QueueOk(fs) && IsTicket(t) && AtFront(fs, t)
    ensures fs[QueueFile] != "RGQ5\n" && FrontLine(fs[QueueFile]) == t
  {
    QueueText(fs);
    Slices(QueueOf(fs), t);
  }

  lemma ReservedFiles(fs: Files, files: Files, t: string)
    requires Clean(fs) && Ready(fs, t)
    requires files == (if Receipt in fs then Moved(fs, Receipt, PreviousReceipt) else fs)[Hold := Mark(t)]
    ensures Ready(files, t) && QueueOf(files) == QueueOf(fs)
    ensures Whole(files, Hold, t) && Release !in files && Receipt !in files
    ensures Same(fs, files, {Hold, Receipt, PreviousReceipt})
  {
  }

  /** `reserve` of the front ticket of a clean queue succeeds, consuming the last receipt. */
  lemma ReserveSucceeds(fs: Files, t: string) returns (files: Files)
    requires Clean(fs) && Ready(fs, t) && AtFront(fs, t)
    ensures Apply(fs, Reserve, t, CALM) == Answer(files, Reserved)
    ensures Ready(files, t) && QueueOf(files) == QueueOf(fs)
    ensures Whole(files, Hold, t) && Release !in files && Receipt !in files
    ensures Same(fs, files, {Hold, Receipt, PreviousReceipt})
  {
    CleanApply(fs, Reserve, t, CALM);
    files := CalmReserve(fs, t);
    ReservedFiles(fs, files, t);
  }

  lemma CalmRelease(fs: Files, t: string)
    requires Ready(fs, t) && AtFront(fs, t) && Whole(fs, Hold, t)
    ensures ReleaseHold(fs, t, fs[QueueFile], Found, Missing, Missing, CALM)
            == Answer(Moved(fs, Hold, Release), ReleasePending)
  {
    FrontSlice(fs, t);
    AsciiTicket(t);
    ReadsBack(fs, Hold, 70);
  }

  lemma ReleaseSucceeds(fs: Files, t: string) returns (files: Files)
    requires Ready(fs, t) && AtFront(fs, t) && Whole(fs, Hold, t) && Release !in fs
    ensures Apply(fs, DoRelease, t, CALM) == Answer(files, ReleasePending) && files == Moved(fs, Hold, Release)
    ensures Ready(files, t) && QueueOf(files) == QueueOf(fs) && Whole(files, Release, t) && Hold !in files
  {
    hide AtFront, ValidFrom, Mark, IsTicket, Decode, ReleaseHold, Claimed;
    CalmState(fs);
    CalmRelease(fs, t);
    files := Moved(fs, Hold, Release);
    MovedHold(fs, t);
  }

  lemma MovedHold(fs: Files, t: string)
    requires Ready(fs, t) && Whole(fs, Hold, t)
    ensures var files := Moved(fs, Hold, Release);
      Ready(files, t) && QueueOf(files) == QueueOf(fs) && Whole(files, Release, t) && Hold !in files
  {
    hide ValidFrom, Mark, IsTicket, Decode;
  }

  lemma ReleasedMark(fs: Files, op: Op, t: string, env: Env)
    requires Ready(fs, t) && Whole(fs, Release, t) && (op == Dequeue || op == Settle) && GoodStart(env)
    ensures WhileReleased(fs, op, t, fs[QueueFile], Missing, Missing, env)
            == if op == Dequeue then RemoveFront(fs, fs[QueueFile], t, env)
               else SettleReleased(fs, fs[QueueFile], t, Missing, Missing, env)
  {
    AsciiTicket(t);
    ReadsBack(fs, Release, 70);
  }

  lemma ReleasedDispatch(fs: Files, op: Op, t: string, state: string, env: Env)
    requires ValidState(state) && (op == Dequeue || op == Settle)
    ensures Dispatch(fs, op, t, state, Missing, Found, Missing, Missing, env)
            == WhileReleased(fs, op, t, state, Missing, Missing, env)
  {
  }

  lemma ReleasedApply(fs: Files, op: Op, t: string, env: Env)
    requires Ready(fs, t) && Whole(fs, Release, t) && Hold !in fs && (op == Dequeue || op == Settle) && GoodStart(env)
    ensures Apply(fs, op, t, env) == if op == Dequeue then RemoveFront(fs, fs[QueueFile], t, env)
                                     else SettleReleased(fs, fs[QueueFile], t, Missing, Missing, env)
  {
    hide WhileReleased, RemoveFront, SettleReleased, ValidState, Claimed;
    CalmState(fs);
    ReleasedDispatch(fs, op, t, fs[QueueFile], env);
    ReleasedMark(fs, op, t, env);
  }

  lemma CalmRemove(fs: Files, t: string) returns (files: Files)
    requires Ready(fs, t) && AtFront(fs, t)
    ensures RemoveFront(fs, fs[QueueFile], t, CALM) == Answer(files, Dequeued)
    ensures NothingOpen(files) && QueueOf(files) == QueueOf(fs)[1..]
    ensures Committed(fs, files, Encode(QueueOf(fs)), Encode(QueueOf(fs)[1..]))
  {
    var q := QueueOf(fs);
    QueueText(fs);
    FrontSlice(fs, t);
    FrontTicket(fs, t);
    WithoutQueue(q, 0);
    assert Without(q, 0) == q[1..];
    files := CalmCommit(fs, q, q[1..]);
  }

  lemma RecordOfRemoval(fs: Files, files: Files, t: string)
    requires QueueOk(fs) && AtFront(fs, t) && IsTicket(t)
    requires QueueOk(files) && QueueOf(files) == QueueOf(fs)[1..]
    requires Committed(fs, files, Encode(QueueOf(fs)), Encode(QueueOf(fs)[1..]))
    ensures t !in QueueOf(files) && Recorded(files, t)
  {
    hide ValidFrom, Encode, IsTicket, QueueOf, Queue;
    var q := QueueOf(fs);
    QueueText(fs);
    QueueText(files);
    Slices(q[1..], t);
    assert [t] + q[1..] == q;
    EncodeValid(q);
    EncodeValid(q[1..]);
    NotInRest(q);
  }

  lemma NotInRest(q: seq<string>)
    requires Queue(q) && q != []
    ensures q[0] !in q[1..]
  {
  }

  /** The archived journal is the removal of `t` from the front of the present queue. */
  ghost predicate Recorded(fs: Files, t: string)
    requires QueueOk(fs)
  {
    LastJournal in fs && fs[LastJournal] == DequeueRecord(t, fs[QueueFile]) && |fs[LastJournal]| <= 8340
  }

  lemma StillReady(fs: Files, files: Files, t: string, original: string, next: string)
    requires Ready(fs, t) && NothingOpen(files) && Committed(fs, files, original, next)
    ensures Ready(files, t) && Same(fs, files, {QueueFile, LastJournal})
  {
  }

  /** Dequeuing the released ticket takes it off the queue and leaves exactly the evidence `settle` asks for. */
  lemma DequeueSucceeds(fs: Files, t: string) returns (files: Files)
    requires Ready(fs, t) && AtFront(fs, t) && Whole(fs, Release, t) && Hold !in fs
    ensures Apply(fs, Dequeue, t, CALM) == Answer(files, Dequeued)
    ensures Ready(files, t) && QueueOf(files) == QueueOf(fs)[1..] && t !in QueueOf(files) && Recorded(files, t)
    ensures Same(fs, files, {QueueFile, LastJournal})
  {
    ReleasedApply(fs, Dequeue, t, CALM);
    files := CalmRemove(fs, t);
    RecordOfRemoval(fs, files, t);
    StillReady(fs, files, t, Encode(QueueOf(fs)), Encode(QueueOf(fs)[1..]));
  }

  lemma CalmSettleEvidence(fs: Files, t: string)
    requires SettleReady(fs, t) && Claimed(fs, t, Good)
    ensures SettleEvidence(fs, fs[QueueFile], t, Missing, Missing, CALM) == Chain(fs, true)
  {
    AsciiTicket(t);
    ReadsBack(fs, SettledHold, 70);
    RecordReads(fs, t);
    var c := Begin(fs)
      .Only(IsTicket(t) && Claimed(fs, t, Good))
      .Only(Look(fs, SettledHold, Good) == Found)
      .Then(Holds(SettledHold, 70, Mark(t)), Good);
    assert c == Chain(fs, true);
  }

  /** The record of a dequeue is short enough and plain enough to be read back. */
  lemma RecordReads(fs: Files, t: string)
    requires QueueOk(fs) && IsTicket(t) && IndexOf(fs[QueueFile], Line(t)) < 0
    requires LastJournal in fs && fs[LastJournal] == DequeueRecord(t, fs[QueueFile]) && |fs[LastJournal]| <= 8340
    ensures Read(fs, LastJournal, 8340, Good) == DequeueRecord(t, fs[QueueFile])
  {
    var q := QueueOf(fs);
    QueueText(fs);
    FindTicket(q, t);
    Slices(q, t);
    AsciiQueue(q);
    AsciiTicket(t);
    AsciiLines(q);
    AsciiConcat("RGQ5\n", Line(t));
    assert Encode(q)[5..] == Lines(q);
    AsciiConcat("RGQ5\n" + Line(t), Lines(q));
    AsciiJournal("RGQ5\n" + Line(t) + Encode(q)[5..], Encode(q));
    ReadsBack(fs, LastJournal, 8340);
  }

  lemma CalmRecoverSettle(fs: Files, t: string) returns (files: Files)
    requires SettleReady(fs, t) && Claimed(fs, t, Good) && (Receipt in fs ==> Whole(fs, Receipt, t))
    ensures RecoverSettle(fs, fs[QueueFile], t, Missing, Missing, CALM) == Answer(files, Settled)
    ensures files == fs[Receipt := Mark(t)]
  {
    CalmSettleEvidence(fs, t);
    AsciiTicket(t);
    files := fs[Receipt := Mark(t)];
    if Receipt in fs {
      ReadsBack(fs, Receipt, 70);
      assert files == fs;
    }
  }

  /** The dequeued reservation of `t` waits for its settle. */
  ghost predicate Unsettled(fs: Files, t: string) {
    && Ready(fs, t) && t !in QueueOf(fs) && Recorded(fs, t)
    && Whole(fs, Release, t) && Hold !in fs && Receipt !in fs
  }

  lemma MovedAside(fs: Files, t: string, env: Env)
    requires Unsettled(fs, t) && forall site: nat :: site < 109 || site > 109 ==> env(site) == Good
    ensures DequeueEvidence(fs, fs[QueueFile], t, env) == Chain(fs, true)
    ensures SettleReleased(fs, fs[QueueFile], t, Missing, Missing, env)
            == RecoverSettle(Moved(fs, Release, SettledHold), fs[QueueFile], t, Missing, Missing, env)
  {
    hide RecoverSettle, DequeueEvidence, ValidFrom, DequeueRecord, Recorded, Ready, QueueOf;
    AllEvidence(fs, t, env);
    assert Chain(fs, true).Then(Replace(Release, SettledHold), Good).Then(Flush(Directory), Good)
        == Chain(Moved(fs, Release, SettledHold), true);
  }

  lemma AllEvidence(fs: Files, t: string, env: Env)
    requires Unsettled(fs, t) && forall site: nat :: site < 109 || site > 109 ==> env(site) == Good
    ensures DequeueEvidence(fs, fs[QueueFile], t, env) == Chain(fs, true)
  {
    hide Recorded, ValidFrom, DequeueRecord, IndexOf, Read, Mark, Encode, Decode;
    QueueText(fs);
    FindTicket(QueueOf(fs), t);
    RecordKept(fs, t);
  }

  lemma RecordKept(fs: Files, t: string)
    requires Unsettled(fs, t)
    ensures LastJournal in fs && Read(fs, LastJournal, 8340, Good) == DequeueRecord(t, fs[QueueFile])
  {
    QueueText(fs);
    FindTicket(QueueOf(fs), t);
    RecordReads(fs, t);
  }

  lemma MovedReady(fs: Files, t: string)
    requires Unsettled(fs, t)
    ensures var moved := Moved(fs, Release, SettledHold);
      SettleReady(moved, t) && Claimed(moved, t, Good) && QueueOk(moved) && Hold !in moved && Release !in moved
  {
    QueueText(fs);
    FindTicket(QueueOf(fs), t);
  }

  lemma CalmSettle(fs: Files, t: string) returns (files: Files)
    requires Unsettled(fs, t)
    ensures SettleReleased(fs, fs[QueueFile], t, Missing, Missing, CALM) == Answer(files, Settled)
    ensures files == Moved(fs, Release, SettledHold)[Receipt := Mark(t)]
  {
    hide SettleReleased, RecoverSettle, SettleReady, Unsettled;
    MovedAside(fs, t, CALM);
    MovedReady(fs, t);
    assert Receipt !in Moved(fs, Release, SettledHold) && QueueFile in fs by { UnsettledFiles(fs, t); }
    files := CalmRecoverSettle(Moved(fs, Release, SettledHold), t);
  }

  lemma UnsettledFiles(fs: Files, t: string)
    requires Unsettled(fs, t)
    ensures QueueFile in fs && Release in fs && Receipt !in fs
  {
  }

  lemma SettledFiles(fs: Files, files: Files, t: string)
    requires Ready(fs, t) && Recorded(fs, t) && Release in fs && Hold !in fs
    requires files == Moved(fs, Release, SettledHold)[Receipt := Mark(t)] && fs[Release] == Mark(t)
    ensures Clean(files) && QueueOf(files) == QueueOf(fs) && Whole(files, Receipt, t) && Recorded(files, t)
    ensures Same(fs, files, {Release, SettledHold, Receipt})
  {
    assert Whole(files, SettledHold, t);
  }

  /** `settle` after the dequeue archives the release and issues the receipt; the queue is clean again. */
  lemma SettleSucceeds(fs: Files, t: string) returns (files: Files)
    requires Unsettled(fs, t)
    ensures Apply(fs, Settle, t, CALM) == Answer(files, Settled)
    ensures Clean(files) && QueueOf(files) == QueueOf(fs) && Whole(files, Receipt, t) && Recorded(files, t)
    ensures Same(fs, files, {Release, SettledHold, Receipt})
  {
    ReleasedApply(fs, Settle, t, CALM);
    files := CalmSettle(fs, t);
    SettledFiles(fs, files, t);
  }

  ghost function Calmly(fs: Files, op: Op, t: string): Files {
    Apply(fs, op, t, CALM).files
  }

  /** With a well-behaved file system the whole life of the front ticket succeeds: reserve, release, dequeue, settle.
    It leaves the queue without its front and ready for the next ticket, with the receipt of this one. */
  lemma WholeCycle(fs: Files, t: string) returns (settled: Files)
    requires Clean(fs) && Ready(fs, t) && AtFront(fs, t)
    ensures Apply(fs, Reserve, t, CALM).reply == Reserved
    ensures var held := Calmly(fs, Reserve, t);
      && Apply(held, DoRelease, t, CALM).reply == ReleasePending
      && var freed := Calmly(held, DoRelease, t);
      && Apply(freed, Dequeue, t, CALM).reply == Dequeued
      && var drained := Calmly(freed, Dequeue, t);
      && Apply(drained, Settle, t, CALM) == Answer(settled, Settled)
    ensures Clean(settled) && QueueOf(settled) == QueueOf(fs)[1..] && Whole(settled, Receipt, t)
    ensures forall u :: (Used(u) in fs <==> Used(u) in settled) && (Used(u) in fs ==> settled[Used(u)] == fs[Used(u)])
  {
    hide Apply, QueueOk, Claimed, Recorded, Clean, Mark, Decode, IsTicket;
    var held := ReserveSucceeds(fs, t);
    var freed := ReleaseSucceeds(held, t);
    var drained := DequeueSucceeds(freed, t);
    settled := SettleSucceeds(drained, t);
  }

  // ---- the other operations ----

  /** `front` of a clean queue shows its first ticket. */
  lemma FrontShows(fs: Files)
    requires Clean(fs)
    ensures Apply(fs, Front, "", CALM)
            == Answer(fs, if QueueOf(fs) == [] then Empty else FrontIs(QueueOf(fs)[0]))
  {
    hide Apply, ValidState, Decode, Encode;
    CleanApply(fs, Front, "", CALM);
    QueueText(fs);
    if QueueOf(fs) == [] {
      assert fs[QueueFile] == "RGQ5\n" by { EmptyText(); }
    } else {
      FrontSlice(fs, QueueOf(fs)[0]);
    }
  }

  lemma EmptyText()
    ensures Encode([]) == "RGQ5\n"
  {
  }

  lemma CalmCancel(fs: Files, t: string, i: nat) returns (files: Files)
    requires NothingOpen(fs) && 0 < i < |QueueOf(fs)| && QueueOf(fs)[i] == t && IsTicket(t)
    ensures CancelTicket(fs, t, fs[QueueFile], CALM) == Answer(files, Cancelled)
    ensures NothingOpen(files) && QueueOf(files) == Without(QueueOf(fs), i)
    ensures Committed(fs, files, Encode(QueueOf(fs)), Encode(Without(QueueOf(fs), i)))
  {
    hide Commit, ValidFrom, Encode, Journal;
    var q := QueueOf(fs);
    QueueText(fs);
    FindTicket(q, t);
    CutLine(q, i);
    files := CalmCommit(fs, q, Without(q, i));
  }

  /** `cancel` takes exactly the named ticket out of a clean queue, unless it is at the front or not there. */
  lemma CancelSucceeds(fs: Files, t: string, i: nat) returns (files: Files)
    requires Clean(fs) && 0 < i < |QueueOf(fs)| && QueueOf(fs)[i] == t && IsTicket(t)
    ensures Apply(fs, Cancel, t, CALM) == Answer(files, Cancelled)
    ensures Clean(files) && QueueOf(files) == Without(QueueOf(fs), i)
    ensures Same(fs, files, {QueueFile, LastJournal})
  {
    hide Apply, CancelTicket, Encode, Decode, ValidState, Journal;
    CleanApply(fs, Cancel, t, CALM);
    files := CalmCancel(fs, t, i);
    CommittedClean(fs, files, Encode(QueueOf(fs)), Encode(Without(QueueOf(fs), i)));
  }
}
