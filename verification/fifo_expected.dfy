/** What every operation answers and leaves when the file system answers well, told from the waiting tickets, the
  claims and the markers as they stand. Nothing here cuts or searches a text: the tables below are what a caller may
  expect, and `CalmOutcome` says that the component meets them from every state of the directory. */
module FifoExpected {
  import opened FifoText
  import opened FifoStore
  import opened Fifo
  import opened FifoLog
  import opened FifoCommit
  import opened FifoLeaves
  import opened FifoSafety
  import opened FifoProgress
  import opened FifoRetry
  import opened FifoSettle
  import opened FifoRepair

  // ---- the state, as a caller would describe it ----

  ghost predicate HasClaim(fs: Files, t: string) {
    Used(t) in fs && fs[Used(t)] == Claim(t)
  }

  /** A commit was left open. */
  ghost predicate Open(fs: Files) {
    Pending in fs || Intent in fs
  }

  /** The archived journal is the dequeue of `t` that led to the present queue. */
  ghost predicate JustDequeued(fs: Files, t: string) {
    var q := QueueOf(fs);
    Queue([t] + q) && LastJournal in fs && fs[LastJournal] == Journal(Encode([t] + q), Encode(q))
  }

  /** The marker in place names `u`: a hold the claimed ticket at the front, a release one at the front or gone. */
  ghost predicate Barrier(fs: Files, u: string) {
    && IsTicket(u) && HasClaim(fs, u)
    && (if Hold in fs then Whole(fs, Hold, u) && AtFront(fs, u)
        else Whole(fs, Release, u) && (AtFront(fs, u) || u !in QueueOf(fs)))
  }

  ghost predicate BarrierSound(fs: Files) {
    if Hold in fs || Release in fs then exists u :: Barrier(fs, u) else HistoryOk(fs)
  }

  /** The open journal records one change, from `a` to `b`. */
  ghost predicate Records(fs: Files, a: seq<string>, b: seq<string>) {
    && Queue(a) && Queue(b) && (Appends(a, b) || Drops(a, b))
    && Intent in fs && fs[Intent] == Journal(Encode(a), Encode(b))
  }

  // ---- the answers ----

  ghost function InspectReply(fs: Files, t: string): Reply {
    if !IsTicket(t) then TicketInvalid
    else if Open(fs) then PendingUnknown
    else if !BarrierSound(fs) then ReservationUnknown
    else if !HasClaim(fs, t) then TicketUnknown
    else if t in QueueOf(fs) then ClaimQueued
    else ClaimRecorded
  }

  ghost function SettleRecoverReply(fs: Files, t: string): Reply {
    if Release !in fs && Hold !in fs && !Open(fs) && HasClaim(fs, t) && Whole(fs, SettledHold, t) && JustDequeued(fs, t)
       && (Receipt !in fs || Whole(fs, Receipt, t))
    then Settled
    else ReservationUnknown
  }

  ghost function RecoveryReply(fs: Files): Reply {
    if Pending in fs then RecoveryUnresolved
    else if Intent !in fs then NoIntent
    else if !exists a, b :: Records(fs, a, b) then JournalInvalid
    else if exists a :: Records(fs, a, QueueOf(fs)) then Recovered
    else if exists b :: Records(fs, QueueOf(fs), b) then Aborted
    else RecoveryUnresolved
  }

  /** While a release is in place. */
  ghost function ReleasedReply(fs: Files, op: Op, t: string): Reply {
    if op == Recover then RecoveryReply(fs)
    else if op == DoRelease then ReservationUnknown
    else if op != Dequeue && op != Settle then ReleasePending
    else if !IsTicket(t) then TicketInvalid
    else if !HasClaim(fs, t) then TicketUnknown
    else if !Whole(fs, Release, t) then ReservationUnknown
    else if Open(fs) then PendingUnknown
    else if op == Settle then (if JustDequeued(fs, t) && Receipt !in fs then Settled else ReservationUnknown)
    else if QueueOf(fs) == [] then Empty
    else if !AtFront(fs, t) then NotFront
    else Dequeued
  }

  ghost function ReleaseReply(fs: Files, t: string): Reply {
    if !IsTicket(t) then TicketInvalid
    else if Hold !in fs then ReservationUnknown
    else if !HasClaim(fs, t) then TicketUnknown
    else if !Whole(fs, Hold, t) || !AtFront(fs, t) then ReservationUnknown
    else if Open(fs) then PendingUnknown
    else ReleasePending
  }

  /** With neither marker in place, the last reservation settled and no commit open. */
  ghost function IdleReply(fs: Files, op: Op, t: string): Reply
    requires op != Recover && op != Inspect && op != SettleRecover && op != DoRelease
  {
    var q := QueueOf(fs);
    if op == Front then (if q == [] then Empty else FrontIs(q[0]))
    else if !IsTicket(t) then TicketInvalid
    else
      match op
      case Reserve =>
        if q == [] then Empty
        else if !AtFront(fs, t) then NotFront
        else if !HasClaim(fs, t) then TicketUnknown
        else Reserved
      case Enqueue =>
        if t in q then AlreadyQueued
        else if |q| == 64 then Full
        else if Used(t) in fs then TicketUsed
        else Enqueued
      case Dequeue =>
        if q == [] then Empty else if !AtFront(fs, t) then NotFront else ReleaseRequired
      case Cancel =>
        if t !in q then NotQueued else if AtFront(fs, t) then CancelFrontRefused else Cancelled
      case _ => CommandInvalid
  }

  ghost function Expected(fs: Files, op: Op, t: string): Reply {
    if Hold in fs && Release in fs then ReservationUnknown
    else if op == Inspect then InspectReply(fs, t)
    else if op == SettleRecover then SettleRecoverReply(fs, t)
    else if Release in fs then ReleasedReply(fs, op, t)
    else if op == DoRelease then ReleaseReply(fs, t)
    else if Hold in fs then ReservationHeld
    else if !HistoryOk(fs) then ReservationUnknown
    else if op == Recover then RecoveryReply(fs)
    else if Open(fs) then PendingUnknown
    else IdleReply(fs, op, t)
  }

  // ---- the files ----

  /** One queue change, committed and journalled. */
  ghost function Changed(fs: Files, q: seq<string>, next: seq<string>): Files {
    fs[QueueFile := Encode(next)][LastJournal := Journal(Encode(q), Encode(next))]
  }

  /** What an operation on `t` leaves when it answers `reply`. */
  ghost function FilesOf(fs: Files, op: Op, t: string, reply: Reply): Files {
    var q := QueueOf(fs);
    match reply
    case Enqueued => Changed(fs[Used(t) := Claim(t)] - {Staged(t)}, q, q + [t])
    case Cancelled => Changed(fs, q, Kept(q, {t}))
    case Dequeued => Changed(fs, q, Kept(q, {t}))
    case Reserved =>
      (if Receipt in fs then fs[PreviousReceipt := fs[Receipt]] - {Receipt} else fs)[Hold := Mark(t)]
    case ReleasePending => if op == DoRelease then fs[Release := Mark(t)] - {Hold} else fs
    case Settled =>
      (if op == Settle then fs[SettledHold := Mark(t)] - {Release} else fs)[Receipt := Mark(t)]
    case Recovered => if Intent in fs then fs[LastJournal := fs[Intent]] - {Intent} else fs
    case Aborted => if Intent in fs then fs[LastJournal := fs[Intent]] - {Intent} else fs
    case _ => fs
  }

  // ---- how the string tests read ----

  lemma MarkReads(fs: Files, f: File, t: string)
    requires IsTicket(t)
    ensures Read(fs, f, 70, Good) == Mark(t) <==> Whole(fs, f, t)
    ensures Claimed(fs, t, Good) <==> HasClaim(fs, t)
  {
    AsciiTicket(t);
  }

  lemma HistoryIff(fs: Files, site: nat)
    ensures HistoryClear(fs, CALM, site) <==> HistoryOk(fs)
  {
    hide HistoryClear, HistoryOk;
    if HistoryOk(fs) {
      CleanHistory(fs, CALM, site);
    }
    if HistoryClear(fs, CALM, site) {
      ClearIsOk(fs, CALM, site);
    }
  }

  /** The front line of the queue text, and the place of a ticket's line in it. */
  lemma TextTests(fs: Files, t: string)
    requires QueueOk(fs)
    ensures var s, q := fs[QueueFile], QueueOf(fs);
      && Queue(q) && s == Encode(q)
      && (s == "RGQ5\n" <==> q == [])
      && (q != [] ==> FrontLine(s) == q[0] && AfterFront(s) == Encode(q[1..]))
      && (IsTicket(t) ==> (IndexOf(s, Line(t)) < 0 <==> t !in q) && (IndexOf(s, Line(t)) == 5 <==> AtFront(fs, t)))
      && (|s| >= 4165 <==> |q| == 64)
  {
    hide ValidState, Decode, IndexOf, Encode, IsTicket;
    QueueText(fs);
    var q := QueueOf(fs);
    EncodeValid(q);
    EmptyText();
    if q != [] {
      Slices(q, q[0]);
    }
    if IsTicket(t) {
      FindTicket(q, t);
    }
  }

  lemma DequeuedIff(fs: Files, t: string)
    requires QueueOk(fs) && IsTicket(t)
    ensures JustDequeued(fs, t) <==> t !in QueueOf(fs) && Recorded(fs, t)
  {
    hide ValidState, Decode, IsTicket;
    var q := QueueOf(fs);
    QueueText(fs);
    Slices(q, t);
    LinesLength(q);
    LinesLength([t] + q);
    if t !in q && |q| < 64 {
      AddFirst(t, q);
    }
    if Queue([t] + q) {
      NotInRest([t] + q);
      assert ([t] + q)[1..] == q;
    }
  }

  lemma RecordsIff(fs: Files)
    requires Intent in fs
    ensures ValidJournal(fs[Intent]) <==> exists a, b :: Records(fs, a, b)
    ensures forall a, b :: Records(fs, a, b) ==>
              JournalOld(fs[Intent]) == Encode(a) && JournalNext(fs[Intent]) == Encode(b)
    ensures ValidJournal(fs[Intent]) ==> Records(fs, Decode(JournalOld(fs[Intent])), Decode(JournalNext(fs[Intent])))
  {
    hide Encode, Decode, ValidState, Lines, Journal, Queue, Appends, Drops, ValidJournal;
    var j := fs[Intent];
    forall a, b | Records(fs, a, b)
      ensures ValidJournal(j) && JournalOld(j) == Encode(a) && JournalNext(j) == Encode(b)
    {
      JournalRoundTrip(a, b);
      JournalDecodes(a, Encode(b));
    }
    if ValidJournal(j) {
      ValidRecords(fs);
    }
  }

  lemma ValidRecords(fs: Files)
    requires Intent in fs && ValidJournal(fs[Intent])
    ensures Records(fs, Decode(JournalOld(fs[Intent])), Decode(JournalNext(fs[Intent])))
  {
    hide Encode, Decode, ValidState, Lines, Journal, Queue, Appends, Drops;
    var prior, next := JournalOld(fs[Intent]), JournalNext(fs[Intent]);
    JournalParts(fs[Intent]);
    ValidIffQueue(prior);
    ValidIffQueue(next);
    TransitionIff(Decode(prior), Decode(next));
  }

  // ---- the branches ----

  lemma BarrierRead(fs: Files)
    requires QueueOk(fs) && (Hold in fs || Release in fs) && BarrierSound(fs)
    ensures BarrierValid(fs, fs[QueueFile], Look(fs, Hold, Good), Look(fs, Release, Good), CALM)
  {
    hide ValidState, Decode, HistoryClear, ValidMark, Claimed, HasClaim, Whole, IsTicket, AtFront;
    var u :| Barrier(fs, u);
    MarkReads(fs, if Hold in fs then Hold else Release, u);
    MarkShape(u, 0);
    TextTests(fs, u);
  }

  lemma BarrierIff(fs: Files)
    requires QueueOk(fs) && (Hold !in fs || Release !in fs)
    ensures BarrierValid(fs, fs[QueueFile], Look(fs, Hold, Good), Look(fs, Release, Good), CALM) <==> BarrierSound(fs)
  {
    hide ValidState, Decode, HistoryClear, ValidMark, Claimed, HasClaim, Whole, IsTicket, AtFront;
    var hold, release := Look(fs, Hold, Good), Look(fs, Release, Good);
    HistoryIff(fs, 10);
    if Hold in fs || Release in fs {
      var f := if Hold in fs then Hold else Release;
      var marker := Read(fs, f, 70, Good);
      if BarrierValid(fs, fs[QueueFile], hold, release, CALM) {
        MarkOf(marker);
        var u := marker[5..69];
        MarkReads(fs, f, u);
        TextTests(fs, u);
        assert Barrier(fs, u);
      }
      if BarrierSound(fs) {
        BarrierRead(fs);
      }
    }
  }

  lemma CalmInspect(fs: Files, t: string)
    requires QueueOk(fs) && (Hold !in fs || Release !in fs)
    ensures InspectTicket(fs, t, fs[QueueFile], Look(fs, Hold, Good), Look(fs, Release, Good), Look(fs, Pending, Good),
                          Look(fs, Intent, Good), CALM) == InspectReply(fs, t)
  {
    hide ValidState, Decode, BarrierValid, BarrierSound, Claimed, IsTicket;
    BarrierIff(fs);
    TextTests(fs, t);
    if IsTicket(t) {
      MarkReads(fs, Hold, t);
    }
  }

  lemma ReadyIff(fs: Files, t: string)
    requires QueueOk(fs) && IsTicket(t)
    ensures SettleReady(fs, t) <==> !Open(fs) && Whole(fs, SettledHold, t) && JustDequeued(fs, t)
  {
    hide ValidState, Decode, IsTicket, JustDequeued, Whole, DequeueRecord;
    DequeuedIff(fs, t);
    TextTests(fs, t);
  }

  lemma RecoverSettleAnswers(fs: Files, t: string, pending: Presence, intent: Presence, env: Env)
    requires QueueOk(fs)
    ensures var reply := RecoverSettle(fs, fs[QueueFile], t, pending, intent, env).reply;
      reply == Settled || reply == ReservationUnknown
  {
  }

  /** The second half of a settle, alone or after the release marker was moved. */
  lemma CalmReceiptStep(fs: Files, t: string)
    requires QueueOk(fs)
    ensures RecoverSettle(fs, fs[QueueFile], t, Look(fs, Pending, Good), Look(fs, Intent, Good), CALM)
            == if !Open(fs) && HasClaim(fs, t) && Whole(fs, SettledHold, t) && JustDequeued(fs, t)
                  && (Receipt !in fs || Whole(fs, Receipt, t))
               then Answer(fs[Receipt := Mark(t)], Settled)
               else Answer(fs, ReservationUnknown)
  {
    hide RecoverSettle, ValidState, JustDequeued, Whole, IsTicket, HasClaim, Claimed, SettleReady, ReceiptWritten;
    var pending, intent := Look(fs, Pending, Good), Look(fs, Intent, Good);
    RecoverSettleLeaves(fs, t, pending, intent, CALM);
    RecoverSettleAnswers(fs, t, pending, intent, CALM);
    if !IsTicket(t) || !Claimed(fs, t, Good) {
      NoTicket(fs, t);
    } else {
      MarkReads(fs, Receipt, t);
      ReadyIff(fs, t);
      if SettleReady(fs, t) && (Receipt in fs ==> Whole(fs, Receipt, t)) {
        assert pending == Missing && intent == Missing;
        var files := CalmRecoverSettle(fs, t);
      } else {
        NotSettled(fs, t);
      }
    }
  }

  lemma NoTicket(fs: Files, t: string)
    requires QueueOk(fs) && (!IsTicket(t) || !Claimed(fs, t, Good))
    ensures RecoverSettle(fs, fs[QueueFile], t, Look(fs, Pending, Good), Look(fs, Intent, Good), CALM)
            == Answer(fs, ReservationUnknown)
    ensures !JustDequeued(fs, t) || !HasClaim(fs, t)
  {
    hide ValidFrom, DequeueRecord, Claim, Encode, Journal;
    var pending, intent := Look(fs, Pending, Good), Look(fs, Intent, Good);
    assert !Begin(fs).Only(IsTicket(t) && Claimed(fs, t, Good) && pending == Missing && intent == Missing).up;
    assert SettleEvidence(fs, fs[QueueFile], t, pending, intent, CALM) == Chain(fs, false);
    if IsTicket(t) {
      MarkReads(fs, Receipt, t);
    } else {
      assert ([t] + QueueOf(fs))[0] == t;
    }
  }

  lemma NotSettled(fs: Files, t: string)
    requires QueueOk(fs) && !(SettleReady(fs, t) && (Receipt in fs ==> Whole(fs, Receipt, t)))
    ensures RecoverSettle(fs, fs[QueueFile], t, Look(fs, Pending, Good), Look(fs, Intent, Good), CALM)
            == Answer(fs, ReservationUnknown)
  {
    hide RecoverSettle, ValidFrom, IsTicket, SettleReady;
    var pending, intent := Look(fs, Pending, Good), Look(fs, Intent, Good);
    RecoverSettleLeaves(fs, t, pending, intent, CALM);
    RecoverSettleAnswers(fs, t, pending, intent, CALM);
    var a := RecoverSettle(fs, fs[QueueFile], t, pending, intent, CALM);
    if Receipt in fs && a.reply == Settled {
      CalmReceipt(fs, t);
    }
  }

  lemma RecoverRead(fs: Files)
    requires QueueOk(fs)
    ensures RecoverQueue(fs, fs[QueueFile], Look(fs, Pending, Good), Look(fs, Intent, Good), CALM)
            == if Pending !in fs && Intent in fs && ValidJournal(fs[Intent])
                  && (fs[QueueFile] == JournalNext(fs[Intent]) || fs[QueueFile] == JournalOld(fs[Intent]))
               then Answer(Moved(fs, Intent, LastJournal),
                           if fs[QueueFile] == JournalNext(fs[Intent]) then Recovered else Aborted)
               else Answer(fs, if Pending in fs then RecoveryUnresolved
                               else if Intent !in fs then NoIntent
                               else if !ValidJournal(fs[Intent]) then JournalInvalid
                               else RecoveryUnresolved)
  {
    hide ValidState, ValidJournal, JournalOld, JournalNext, ArchiveIntent;
    NoJournal();
    if Intent in fs {
      CalmArchive(fs);
      if ValidJournal(fs[Intent]) {
        JournalAscii(fs[Intent]);
        JournalSize(fs[Intent]);
      }
    }
  }

  lemma JournalSize(j: string)
    requires ValidJournal(j)
    ensures 10 <= |j| <= 8340
  {
  }

  lemma CalmRecovery(fs: Files, t: string)
    requires QueueOk(fs)
    ensures var reply := RecoveryReply(fs);
      RecoverQueue(fs, fs[QueueFile], Look(fs, Pending, Good), Look(fs, Intent, Good), CALM)
      == Answer(FilesOf(fs, Recover, t, reply), reply)
  {
    hide RecoverQueue, ValidState, ValidJournal, JournalOld, JournalNext, Records, Encode, Decode;
    RecoverRead(fs);
    QueueText(fs);
    if Intent in fs {
      RecordsIff(fs);
    }
  }

  // ---- what a commit leaves, exactly ----

  lemma CommittedIs(fs: Files, files: Files, q: seq<string>, next: seq<string>)
    requires Committed(fs, files, Encode(q), Encode(next))
    ensures files == Changed(fs, q, next)
  {
    hide Encode, Journal;
    var changed := Changed(fs, q, next);
    assert forall f :: (f in files <==> f in changed) && (f in files ==> files[f] == changed[f]);
    assert files.Keys == changed.Keys;
  }

  lemma {:induction false} KeptAll(q: seq<string>)
    ensures Kept(q, {}) == q
  {
    if q != [] {
      KeptAll(q[..|q| - 1]);
    }
  }

  lemma KeptOthers(q: seq<string>, i: nat)
    requires Distinct(q) && i < |q|
    ensures Kept(q, {q[i]}) == Without(q, i)
  {
    KeptAll(q);
    KeptWithdraw(q, {}, i);
    assert {} + {q[i]} == {q[i]};
  }

  lemma CalmFrontRemoval(fs: Files, t: string)
    requires NothingOpen(fs) && IsTicket(t) && HasClaim(fs, t)
    ensures RemoveFront(fs, fs[QueueFile], t, CALM)
            == if QueueOf(fs) == [] then Answer(fs, Empty)
               else if !AtFront(fs, t) then Answer(fs, NotFront)
               else Answer(Changed(fs, QueueOf(fs), Kept(QueueOf(fs), {t})), Dequeued)
  {
    hide ValidState, Decode, Encode, IsTicket, Commit, Changed, Committed;
    TextTests(fs, t);
    MarkReads(fs, Hold, t);
    if AtFront(fs, t) {
      var q := QueueOf(fs);
      var files := CalmRemove(fs, t);
      CommittedIs(fs, files, q, q[1..]);
      KeptOthers(q, 0);
      assert Without(q, 0) == q[1..];
    }
  }

  lemma CalmCancellation(fs: Files, t: string)
    requires NothingOpen(fs) && IsTicket(t)
    ensures CancelTicket(fs, t, fs[QueueFile], CALM)
            == if t !in QueueOf(fs) then Answer(fs, NotQueued)
               else if AtFront(fs, t) then Answer(fs, CancelFrontRefused)
               else Answer(Changed(fs, QueueOf(fs), Kept(QueueOf(fs), {t})), Cancelled)
  {
    hide ValidState, Decode, Encode, IsTicket, Commit, Changed, Committed;
    TextTests(fs, t);
    var q := QueueOf(fs);
    if t in q && !AtFront(fs, t) {
      var i: nat :| i < |q| && q[i] == t;
      var files := CalmCancel(fs, t, i);
      CommittedIs(fs, files, q, Without(q, i));
      KeptOthers(q, i);
    }
  }

  lemma CalmAdmission(fs: Files, t: string)
    requires Clean(fs) && IsTicket(t)
    ensures EnqueueTicket(fs, t, fs[QueueFile], CALM)
            == if t in QueueOf(fs) then Answer(fs, AlreadyQueued)
               else if |QueueOf(fs)| == 64 then Answer(fs, Full)
               else if Used(t) in fs then Answer(fs, TicketUsed)
               else Answer(Changed(fs[Used(t) := Claim(t)] - {Staged(t)}, QueueOf(fs), QueueOf(fs) + [t]), Enqueued)
  {
    hide ValidState, Decode, Encode, IsTicket, Commit, Changed, Committed, StageClaim, ClaimShape, HistoryOk, Claim;
    TextTests(fs, t);
    var q := QueueOf(fs);
    if t !in q && |q| < 64 && Used(t) !in fs {
      RoomFor(fs, t);
      var claimed := CalmClaim(fs, t);
      ClaimedClean(fs, claimed, t);
      var files := CalmCommit(claimed, q, q + [t]);
      EnqueueAnswers(fs, t, fs[QueueFile], claimed, files);
      CommittedIs(claimed, files, q, q + [t]);
    }
  }

  lemma CalmReservation(fs: Files, t: string)
    requires Clean(fs) && IsTicket(t)
    ensures ReserveFront(fs, t, fs[QueueFile], CALM)
            == if QueueOf(fs) == [] then Answer(fs, Empty)
               else if !AtFront(fs, t) then Answer(fs, NotFront)
               else if !HasClaim(fs, t) then Answer(fs, TicketUnknown)
               else Answer((if Receipt in fs then fs[PreviousReceipt := fs[Receipt]] - {Receipt} else fs)[Hold := Mark(t)],
                           Reserved)
  {
    hide ValidState, Decode, Encode, IsTicket, ConsumeHistory, Mark, HistoryOk;
    TextTests(fs, t);
    MarkReads(fs, Hold, t);
    if AtFront(fs, t) && HasClaim(fs, t) {
      var files := CalmReserve(fs, t);
    }
  }

  lemma CalmReleasing(fs: Files, t: string)
    requires QueueOk(fs)
    ensures ReleaseHold(fs, t, fs[QueueFile], Look(fs, Hold, Good), Look(fs, Pending, Good), Look(fs, Intent, Good), CALM)
            == Answer(if ReleaseReply(fs, t) == ReleasePending then fs[Release := Mark(t)] - {Hold} else fs,
                      ReleaseReply(fs, t))
  {
    hide ValidFrom, Decode, Encode, IsTicket, Mark, AtFront, Claimed, HasClaim;
    if IsTicket(t) {
      TextTests(fs, t);
      MarkReads(fs, Hold, t);
      FrontTest(fs, t);
      if ReleaseReply(fs, t) == ReleasePending {
        CalmRelease(fs, t);
      }
    }
  }

  lemma FrontTest(fs: Files, t: string)
    requires QueueOk(fs) && IsTicket(t)
    ensures FrontLine(fs[QueueFile]) == t <==> AtFront(fs, t)
  {
    hide ValidState, Decode;
    if AtFront(fs, t) {
      FrontSlice(fs, t);
    }
    if FrontLine(fs[QueueFile]) == t {
      FrontTicket(fs, t);
    }
  }

  lemma MovedQueue(fs: Files, t: string)
    requires NothingOpen(fs) && Whole(fs, Release, t)
    ensures var moved := Moved(fs, Release, SettledHold);
      && moved == fs[SettledHold := Mark(t)] - {Release}
      && QueueOk(moved) && moved[QueueFile] == fs[QueueFile] && !Open(moved) && (Receipt in moved <==> Receipt in fs)
      && Whole(moved, SettledHold, t)
      && (HasClaim(moved, t) <==> HasClaim(fs, t)) && (JustDequeued(moved, t) <==> JustDequeued(fs, t))
  {
    hide ValidState, Decode, Mark;
  }

  lemma EvidenceIff(fs: Files, t: string)
    requires QueueOk(fs) && IsTicket(t) && Release in fs
    ensures DequeueEvidence(fs, fs[QueueFile], t, CALM) == Chain(fs, JustDequeued(fs, t) && Receipt !in fs)
  {
    hide DequeueRecord, ValidFrom, IndexOf, Encode, Decode, IsTicket, JustDequeued;
    DequeueEvidenceLeaves(fs, t, CALM);
    DequeuedIff(fs, t);
    TextTests(fs, t);
    if JustDequeued(fs, t) {
      RecordReads(fs, t);
    }
  }

  lemma CalmSettling(fs: Files, t: string)
    requires NothingOpen(fs) && IsTicket(t) && HasClaim(fs, t) && Whole(fs, Release, t)
    ensures SettleReleased(fs, fs[QueueFile], t, Missing, Missing, CALM)
            == if JustDequeued(fs, t) && Receipt !in fs
               then Answer((fs[SettledHold := Mark(t)] - {Release})[Receipt := Mark(t)], Settled)
               else Answer(fs, ReservationUnknown)
  {
    hide ValidFrom, Decode, IsTicket, DequeueEvidence, RecoverSettle, JustDequeued, Mark, HasClaim;
    EvidenceIff(fs, t);
    MovedQueue(fs, t);
    if JustDequeued(fs, t) && Receipt !in fs {
      CalmReceiptStep(Moved(fs, Release, SettledHold), t);
    }
  }

  // ---- all together ----

  lemma CalmReleased(fs: Files, op: Op, t: string)
    requires QueueOk(fs) && Release in fs && Hold !in fs && op != Inspect && op != SettleRecover
    ensures var reply := ReleasedReply(fs, op, t);
      WhileReleased(fs, op, t, fs[QueueFile], Look(fs, Pending, Good), Look(fs, Intent, Good), CALM)
      == Answer(FilesOf(fs, op, t, reply), reply)
  {
    hide ValidFrom, Decode, IsTicket, RemoveFront, SettleReleased, RecoverQueue, RecoveryReply, JustDequeued, Mark;
    hide HasClaim, Claimed, AtFront, Changed, Kept, Claim;
    if op == Recover {
      CalmRecovery(fs, t);
    } else if IsTicket(t) {
      MarkReads(fs, Release, t);
      if HasClaim(fs, t) && Whole(fs, Release, t) && !Open(fs) {
        if op == Dequeue {
          CalmFrontRemoval(fs, t);
        } else {
          CalmSettling(fs, t);
        }
      }
    }
  }

  lemma CalmIdle(fs: Files, op: Op, t: string)
    requires Clean(fs) && op != Inspect && op != SettleRecover && op != DoRelease && op != Recover
    ensures var reply := IdleReply(fs, op, t);
      WhileIdle(fs, op, t, fs[QueueFile], Missing, Missing, CALM) == Answer(FilesOf(fs, op, t, reply), reply)
  {
    hide ValidFrom, Decode, IsTicket, ReserveFront, EnqueueTicket, CancelTicket, RecoverQueue, Mark, Claim;
    hide HasClaim, Changed, HistoryOk, Kept, FrontLine, IndexOf, Encode;
    TextTests(fs, t);
    if IsTicket(t) && op != Front {
      match op
      case Reserve => CalmReservation(fs, t);
      case Enqueue => CalmAdmission(fs, t);
      case Cancel => CalmCancellation(fs, t);
      case _ =>
    }
  }

  /** The branches of the dispatch that stop before any ticket is looked at. */
  lemma IdleGate(fs: Files, op: Op, t: string)
    requires QueueOk(fs) && Hold !in fs && Release !in fs && HistoryOk(fs)
    requires op != Inspect && op != SettleRecover && op != DoRelease
    ensures var reply := Expected(fs, op, t);
      WhileIdle(fs, op, t, fs[QueueFile], Look(fs, Pending, Good), Look(fs, Intent, Good), CALM)
      == Answer(FilesOf(fs, op, t, reply), reply)
  {
    hide ValidFrom, RecoverQueue, RecoveryReply, IdleReply, HistoryOk, Changed, Kept, Claim, Mark;
    if op == Recover {
      CalmRecovery(fs, t);
    } else if !Open(fs) {
      CalmIdle(fs, op, t);
    }
  }

  lemma CalmGate(fs: Files, op: Op, t: string)
    requires QueueOk(fs) && (Hold !in fs || Release !in fs)
    ensures var reply := Expected(fs, op, t);
      Dispatch(fs, op, t, fs[QueueFile], Look(fs, Hold, Good), Look(fs, Release, Good), Look(fs, Pending, Good),
               Look(fs, Intent, Good), CALM) == Answer(FilesOf(fs, op, t, reply), reply)
  {
    hide ValidFrom, WhileReleased, WhileIdle, InspectTicket, RecoverSettle, ReleaseHold, HistoryClear, HistoryOk;
    hide ReleasedReply, IdleReply, RecoveryReply, JustDequeued, HasClaim, Mark, Changed, Kept, Claim, BarrierSound;
    if op == Inspect {
      CalmInspect(fs, t);
    } else if op == SettleRecover {
      CalmReceiptStep(fs, t);
    } else if Release in fs {
      CalmReleased(fs, op, t);
    } else if op == DoRelease {
      CalmReleasing(fs, t);
    } else {
      HistoryIff(fs, 10);
      if Hold !in fs && HistoryOk(fs) {
        IdleGate(fs, op, t);
      }
    }
  }

  lemma CalmUnreadable(fs: Files, op: Op, t: string)
    requires !QueueOk(fs)
    ensures Apply(fs, op, t, CALM) == Answer(fs, StateInvalid)
  {
    hide Dispatch;
  }

  /** With a well-behaved file system every operation, from every state of the directory and with any ticket, gives
    exactly the answer of the tables above and leaves exactly the files that answer stands for. */
  lemma CalmOutcome(fs: Files, op: Op, t: string)
    ensures Apply(fs, op, t, CALM)
            == if QueueOk(fs) then Answer(FilesOf(fs, op, t, Expected(fs, op, t)), Expected(fs, op, t))
               else Answer(fs, StateInvalid)
  {
    hide Dispatch, ValidState, InspectReply, SettleRecoverReply, ReleasedReply, ReleaseReply, IdleReply, HistoryOk;
    hide RecoveryReply, Changed, Kept, Claim, Mark;
    if QueueOk(fs) {
      CalmState(fs);
      if Hold !in fs || Release !in fs {
        CalmGate(fs, op, t);
      }
    } else {
      CalmUnreadable(fs, op, t);
    }
  }
}
