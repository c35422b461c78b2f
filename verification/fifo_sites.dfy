/** Which calls a success takes. For every operation the calls that must be answered well are listed, and the operation
  succeeds exactly when the tables say so and each of them was: none can be left out, and no other matters. */
module FifoSites {
  import opened FifoText
  import opened FifoStore
  import opened Fifo
  import opened FifoLeaves
  import opened FifoSafety
  import opened FifoRecovery
  import opened FifoProgress
  import opened FifoScript
  import opened FifoExpected
  import opened FifoTruth

  // ---- the calls, by what they are for ----

  /** Lookups of hold, release, queue, half-written queue and journal, and the read of the queue. */
  ghost predicate StartHeard(env: Env) {
    env(0) == env(1) == env(2) == env(3) == env(4) == env(5) == Good
  }

  /** Lookups of settled marker, receipt and old receipt; if a reservation was settled, two reads and three syncs. */
  ghost predicate HistoryHeard(fs: Files, env: Env, site: nat) {
    && env(site) == env(site + 1) == env(site + 2) == Good
    && (SettledHold in fs ==> env(site + 3) == env(site + 4) == env(site + 5) == env(site + 6) == env(site + 7) == Good)
  }

  /** The lookup of the claim may wrongly say that there is none. Then the staging file is written, synced and read back,
    published, synced and read back again, and the directory synced. */
  ghost predicate ClaimHeard(env: Env) {
    && (env(40) == Good || env(40) == FalseMissing)
    && env(41) == env(42) == env(43) == env(44) == env(45) == env(46) == env(47) == Good
  }

  /** Two lookups; the journal written and synced with the directory; the new queue written aside, synced and read back,
    and the old one read; the rename, the journal moved aside, each with a sync of the directory. */
  ghost predicate CommitHeard(env: Env) {
    && env(60) == env(61) == env(62) == env(63) == env(64) == env(65) == env(66) == env(67) == env(68) == Good
    && env(69) == env(70) == env(71) == env(72) == Good
  }

  /** The read of the journal, three syncs, the journal moved aside and a last sync. */
  ghost predicate ArchiveHeard(env: Env) {
    env(80) == env(81) == env(82) == env(83) == env(84) == env(85) == Good
  }

  /** Lookup of the receipt, read of the claim, lookup and read of the settled marker, read of the journal, four syncs,
    the receipt written or read, and two syncs. */
  ghost predicate ReceiptHeard(env: Env) {
    && env(100) == env(101) == env(102) == env(103) == env(104) == env(105) == env(106) == env(107) == env(108) == Good
    && env(109) == env(110) == env(111) == Good
  }

  /** Read of the journal, four syncs, lookup of the receipt, the release marker moved to history, and a sync. */
  ghost predicate MoveHeard(env: Env) {
    env(120) == env(121) == env(122) == env(123) == env(124) == env(125) == env(126) == env(127) == Good
  }

  /** Once a receipt has to make room: it is moved aside and the directory synced. Then the hold, with two syncs. */
  ghost predicate HoldHeard(fs: Files, env: Env) {
    && env(20) == Good && HistoryHeard(fs, env, 21)
    && (Receipt in fs ==> env(29) == env(30) == Good)
    && env(151) == env(152) == env(153) == Good
  }

  /** The marker and its claim are read, or the history checked; the ticket's claim is read; queue, claim, the marker in
    place and the directory are synced. */
  ghost predicate InspectHeard(fs: Files, env: Env) {
    && (if Hold in fs || Release in fs then env(160) == env(161) == Good else HistoryHeard(fs, env, 10))
    && env(162) == env(170) == env(171) == env(174) == Good
    && (Hold in fs ==> env(172) == Good) && (Release in fs ==> env(173) == Good)
  }

  /** Every call of an operation that succeeds. */
  ghost predicate Heard(fs: Files, op: Op, env: Env) {
    && StartHeard(env)
    && match op
       case Front => HistoryHeard(fs, env, 10)
       case Enqueue => HistoryHeard(fs, env, 10) && ClaimHeard(env) && CommitHeard(env)
       case Cancel => HistoryHeard(fs, env, 10) && CommitHeard(env)
       case Reserve => HistoryHeard(fs, env, 10) && env(150) == Good && HoldHeard(fs, env)
       case Recover => (Release in fs || HistoryHeard(fs, env, 10)) && ArchiveHeard(env)
       case Dequeue => env(130) == env(131) == Good && CommitHeard(env)
       case Settle => env(130) == env(131) == Good && MoveHeard(env) && ReceiptHeard(env)
       case SettleRecover => ReceiptHeard(env)
       case DoRelease => env(140) == env(141) == env(142) == env(143) == env(144) == Good
       case Inspect => InspectHeard(fs, env)
  }

  /** A success that did something, or the front shown. */
  ghost predicate Done(op: Op, reply: Reply) {
    if op == Front then reply.FrontIs? || reply.Empty? else Achieved(op, reply)
  }

  // ---- a chain is up only if every one of its calls was answered well ----

  lemma ArchiveNeeds(fs: Files, env: Env)
    ensures ArchiveIntent(fs, env).up ==> env(81) == env(82) == env(83) == env(84) == env(85) == Good
  {
    hide Effect, Read;
  }

  lemma PrepareNeeds(fs: Files, original: string, next: string, env: Env)
    ensures Prepare(fs, original, next, env).up ==>
      env(60) == env(61) == env(62) == env(63) == env(64) == env(65) == env(66) == env(67) == env(68) == Good
  {
    hide Effect, Read, Journal;
  }

  lemma CommitNeeds(fs: Files, original: string, next: string, env: Env)
    ensures Commit(fs, original, next, env).up ==> CommitHeard(env)
    ensures CommitHeard(env) ==> Commit(fs, original, next, env) == Commit(fs, original, next, CALM)
  {
    hide Effect, Read, Journal;
    PrepareNeeds(fs, original, next, env);
  }

  lemma ClaimNeeds(fs: Files, t: string, env: Env)
    ensures ClaimTicket(fs, t, env).refusal == [] ==> ClaimHeard(env)
    ensures ClaimHeard(env) && Used(t) !in fs ==> ClaimTicket(fs, t, env) == ClaimTicket(fs, t, CALM)
  {
    hide Effect, Read, Claim;
  }

  lemma HistoryNeeds(fs: Files, env: Env, site: nat)
    ensures HistoryClear(fs, env, site) ==> HistoryHeard(fs, env, site)
    ensures HistoryHeard(fs, env, site) ==> HistoryClear(fs, env, site) == HistoryClear(fs, CALM, site)
  {
    hide ValidMark;
    NoMark();
  }

  lemma ConsumeNeeds(fs: Files, env: Env)
    ensures ConsumeHistory(fs, env).up ==>
      env(20) == Good && HistoryHeard(fs, env, 21) && (Receipt in fs ==> env(29) == env(30) == Good)
    ensures env(20) == Good && HistoryHeard(fs, env, 21) && (Receipt in fs ==> env(29) == env(30) == Good) ==>
      ConsumeHistory(fs, env) == ConsumeHistory(fs, CALM)
  {
    hide Effect, HistoryClear, HistoryHeard;
    HistoryNeeds(fs, env, 21);
  }

  lemma ClaimedNeeds(fs: Files, t: string, o: Outcome)
    ensures Claimed(fs, t, o) ==> o == Good
  {
  }

  lemma EvidenceNeeds(fs: Files, state: string, t: string, pending: Presence, intent: Presence, env: Env)
    requires |state| >= 5
    ensures SettleEvidence(fs, state, t, pending, intent, env).up ==>
      && env(101) == env(102) == env(103) == env(104) == env(105) == env(106) == env(107) == env(108) == Good
      && pending == Missing && intent == Missing
  {
    hide Effect, Mark, DequeueRecord, IsTicket, IndexOf, Claimed;
    ClaimedNeeds(fs, t, env(101));
    JournalIsNotEmpty(t, state);
    MarkNotEmpty(t);
  }

  lemma ReceiptNeeds(fs: Files, state: string, t: string, pending: Presence, intent: Presence, env: Env)
    requires |state| >= 5
    ensures var reply := RecoverSettle(fs, state, t, pending, intent, env).reply;
      reply == ReservationUnknown || (reply == Settled && ReceiptHeard(env))
    ensures ReceiptHeard(env) ==>
      RecoverSettle(fs, state, t, pending, intent, env) == RecoverSettle(fs, state, t, pending, intent, CALM)
  {
    hide Effect, Read, Mark, DequeueRecord, IsTicket, IndexOf, Claimed;
    EvidenceNeeds(fs, state, t, pending, intent, env);
  }

  lemma MoveNeeds(fs: Files, state: string, t: string, env: Env)
    requires |state| >= 5
    ensures DequeueEvidence(fs, state, t, env).up ==>
      env(120) == env(121) == env(122) == env(123) == env(124) == env(125) == Good
  {
    hide Effect, DequeueRecord, IndexOf;
    JournalIsNotEmpty(t, state);
  }

  lemma SettleNeeds(fs: Files, state: string, t: string, env: Env)
    requires |state| >= 5
    ensures Achieved(Settle, SettleReleased(fs, state, t, Missing, Missing, env).reply) ==>
      MoveHeard(env) && ReceiptHeard(env)
    ensures MoveHeard(env) && ReceiptHeard(env) ==>
      SettleReleased(fs, state, t, Missing, Missing, env) == SettleReleased(fs, state, t, Missing, Missing, CALM)
  {
    hide RecoverSettle, ReceiptHeard, DequeueRecord, IndexOf, Effect, Read;
    MoveNeeds(fs, state, t, env);
    var c := DequeueEvidence(fs, state, t, env).Then(Replace(Release, SettledHold), env(126));
    ReceiptNeeds(c.Then(Flush(Directory), env(127)).files, state, t, Missing, Missing, env);
  }

  // ---- the operations ----

  lemma RecoverNeeds(fs: Files, state: string, pending: Presence, intent: Presence, env: Env)
    ensures Achieved(Recover, RecoverQueue(fs, state, pending, intent, env).reply) ==> ArchiveHeard(env)
    ensures ArchiveHeard(env) ==>
      RecoverQueue(fs, state, pending, intent, env) == RecoverQueue(fs, state, pending, intent, CALM)
  {
    hide Effect, ValidJournal, JournalOld, JournalNext;
    EmptyJournal();
    ArchiveNeeds(fs, env);
  }

  lemma RemoveNeeds(fs: Files, state: string, t: string, env: Env)
    ensures Achieved(Dequeue, RemoveFront(fs, state, t, env).reply) ==> CommitHeard(env)
    ensures CommitHeard(env) ==> RemoveFront(fs, state, t, env) == RemoveFront(fs, state, t, CALM)
  {
    hide Commit, CommitHeard, FrontLine;
    CommitNeeds(fs, state, AfterFront(state), env);
  }

  lemma ReleasedNeeds(fs: Files, op: Op, t: string, state: string, pending: Presence, intent: Presence, env: Env)
    requires ValidState(state) && (op == Dequeue || op == Settle || op == Recover) && StartHeard(env)
    requires Release in fs && Hold !in fs
    ensures var a := WhileReleased(fs, op, t, state, pending, intent, env);
      && (Achieved(op, a.reply) ==> Heard(fs, op, env))
      && (Heard(fs, op, env) ==> a == WhileReleased(fs, op, t, state, pending, intent, CALM))
  {
    hide ValidFrom, RecoverQueue, RemoveFront, SettleReleased, Claimed, IsTicket, Mark, HistoryHeard, ReceiptHeard;
    hide CommitHeard, ArchiveHeard, MoveHeard;
    RecoverNeeds(fs, state, pending, intent, env);
    RemoveNeeds(fs, state, t, env);
    SettleNeeds(fs, state, t, env);
    ClaimedNeeds(fs, t, env(130));
    MarkNotEmpty(t);
  }

  lemma ReleaseNeeds(fs: Files, t: string, state: string, hold: Presence, pending: Presence, intent: Presence, env: Env)
    requires ValidState(state) && StartHeard(env)
    ensures var a := ReleaseHold(fs, t, state, hold, pending, intent, env);
      && (Achieved(DoRelease, a.reply) ==> Heard(fs, DoRelease, env))
      && (Heard(fs, DoRelease, env) ==> a == ReleaseHold(fs, t, state, hold, pending, intent, CALM))
  {
    hide ValidFrom, Claimed, IsTicket, Mark, FrontLine, Effect;
    ClaimedNeeds(fs, t, env(140));
    MarkNotEmpty(t);
  }

  lemma ReserveNeeds(fs: Files, t: string, state: string, env: Env)
    requires ValidState(state)
    ensures var a := ReserveFront(fs, t, state, env);
      && (Achieved(Reserve, a.reply) ==> env(150) == Good && HoldHeard(fs, env))
      && (env(150) == Good && HoldHeard(fs, env) ==> a == ReserveFront(fs, t, state, CALM))
  {
    hide ValidFrom, Claimed, Mark, FrontLine, Effect, ConsumeHistory, HistoryHeard;
    ClaimedNeeds(fs, t, env(150));
    ConsumeNeeds(fs, env);
  }

  lemma EnqueueNeeds(fs: Files, t: string, state: string, env: Env)
    ensures var a := EnqueueTicket(fs, t, state, env);
      && (Achieved(Enqueue, a.reply) ==> ClaimHeard(env) && CommitHeard(env))
      && (ClaimHeard(env) && CommitHeard(env) && Used(t) !in fs ==> a == EnqueueTicket(fs, t, state, CALM))
  {
    hide ClaimTicket, Commit, IndexOf, ClaimHeard, CommitHeard;
    ClaimNeeds(fs, t, env);
    CommitNeeds(ClaimTicket(fs, t, env).files, state, state + Line(t), env);
    ClaimRefuses(fs, t, env);
  }

  lemma ClaimRefuses(fs: Files, t: string, env: Env)
    ensures var refusal := ClaimTicket(fs, t, env).refusal;
      refusal == [] || refusal == [TicketUsed] || refusal == [TicketUnknown]
  {
    hide StageClaim;
  }

  lemma CancelNeeds(fs: Files, t: string, state: string, env: Env)
    requires ValidState(state)
    ensures Achieved(Cancel, CancelTicket(fs, t, state, env).reply) ==> CommitHeard(env)
    ensures CommitHeard(env) ==> CancelTicket(fs, t, state, env) == CancelTicket(fs, t, state, CALM)
  {
    hide Commit, IndexOf, ValidFrom, CommitHeard;
    var i := IndexOf(state, Line(t));
    if i >= 0 {
      CommitNeeds(fs, state, WithoutLine(state, i), env);
    }
  }

  lemma BarrierNeeds(fs: Files, state: string, hold: Presence, release: Presence, env: Env)
    requires hold == Look(fs, Hold, Good) && release == Look(fs, Release, Good)
    ensures BarrierValid(fs, state, hold, release, env) ==>
      if Hold in fs || Release in fs then env(160) == env(161) == Good else HistoryHeard(fs, env, 10)
    ensures (if Hold in fs || Release in fs then env(160) == env(161) == Good else HistoryHeard(fs, env, 10)) ==>
      BarrierValid(fs, state, hold, release, env) == BarrierValid(fs, state, hold, release, CALM)
  {
    hide ValidMark, IndexOf, HistoryClear, Claimed, Line, HistoryHeard;
    HistoryNeeds(fs, env, 10);
    NoMark();
    var marker := Read(fs, if hold == Found then Hold else Release, 70, env(160));
    if ValidMark(marker) {
      MarkLength(marker);
      ClaimedNeeds(fs, marker[5..69], env(161));
    }
  }

  lemma InspectNeeds(fs: Files, t: string, state: string, hold: Presence, release: Presence, pending: Presence,
                     intent: Presence, env: Env)
    requires hold == Look(fs, Hold, Good) && release == Look(fs, Release, Good)
    ensures var reply := InspectTicket(fs, t, state, hold, release, pending, intent, env);
      && (Achieved(Inspect, reply) ==> InspectHeard(fs, env))
      && (InspectHeard(fs, env) ==> reply == InspectTicket(fs, t, state, hold, release, pending, intent, CALM))
  {
    hide BarrierValid, Claimed, IsTicket, IndexOf, Line, HistoryHeard;
    BarrierNeeds(fs, state, hold, release, env);
    ClaimedNeeds(fs, t, env(162));
  }

  lemma IdleNeeds(fs: Files, op: Op, t: string, state: string, pending: Presence, intent: Presence, env: Env)
    requires ValidState(state) && StartHeard(env) && HistoryHeard(fs, env, 10)
    requires op != Inspect && op != SettleRecover && op != DoRelease && Release !in fs
    ensures var a := WhileIdle(fs, op, t, state, pending, intent, env);
      && (Done(op, a.reply) ==> Heard(fs, op, env))
      && (Heard(fs, op, env) && (op == Enqueue ==> Used(t) !in fs) ==>
            a == WhileIdle(fs, op, t, state, pending, intent, CALM))
  {
    hide ValidFrom, RecoverQueue, ReserveFront, EnqueueTicket, CancelTicket, IsTicket, FrontLine;
    hide CommitHeard, ArchiveHeard, ClaimHeard, HoldHeard, HistoryHeard, ReceiptHeard, MoveHeard;
    match op
    case Recover => RecoverNeeds(fs, state, pending, intent, env);
    case Reserve => ReserveNeeds(fs, t, state, env);
    case Enqueue => EnqueueNeeds(fs, t, state, env);
    case Cancel => CancelNeeds(fs, t, state, env);
    case _ =>
  }

  /** What the tables ask of an enqueue, and of a dequeue or settle, that succeeds. */
  ghost predicate Apt(fs: Files, op: Op, t: string) {
    && (op == Enqueue ==> Used(t) !in fs)
    && (op == Dequeue || op == Settle ==> Release in fs)
  }

  lemma DoneIsApt(fs: Files, op: Op, t: string)
    requires Done(op, Expected(fs, op, t))
    ensures Apt(fs, op, t) && (Hold !in fs || Release !in fs)
  {
    hide IsTicket, HasClaim, JustDequeued, HistoryOk, BarrierSound, Records;
  }

  lemma DispatchNeeds(fs: Files, op: Op, t: string, env: Env)
    requires QueueOk(fs) && (Hold !in fs || Release !in fs) && StartHeard(env)
    ensures var hold, release := Look(fs, Hold, Good), Look(fs, Release, Good);
      var pending, intent := Look(fs, Pending, Good), Look(fs, Intent, Good);
      var a := Dispatch(fs, op, t, fs[QueueFile], hold, release, pending, intent, env);
      && (Done(op, a.reply) ==> Heard(fs, op, env))
      && (Heard(fs, op, env) && Apt(fs, op, t) ==>
            a == Dispatch(fs, op, t, fs[QueueFile], hold, release, pending, intent, CALM))
  {
    hide ValidFrom, WhileReleased, WhileIdle, InspectTicket, RecoverSettle, ReleaseHold, HistoryClear;
    hide CommitHeard, ArchiveHeard, ClaimHeard, HoldHeard, HistoryHeard, ReceiptHeard, MoveHeard, InspectHeard;
    var hold, release := Look(fs, Hold, Good), Look(fs, Release, Good);
    var pending, intent, state := Look(fs, Pending, Good), Look(fs, Intent, Good), fs[QueueFile];
    if op == Inspect {
      InspectNeeds(fs, t, state, hold, release, pending, intent, env);
    } else if op == SettleRecover {
      ReceiptNeeds(fs, state, t, pending, intent, env);
    } else if Release in fs {
      ReleasedGate(fs, op, t, state, pending, intent, env);
    } else if op == DoRelease {
      ReleaseNeeds(fs, t, state, hold, pending, intent, env);
    } else {
      HistoryNeeds(fs, env, 10);
      if HistoryClear(fs, env, 10) || HistoryHeard(fs, env, 10) {
        IdleNeeds(fs, op, t, state, pending, intent, env);
      }
    }
  }

  lemma ReleasedGate(fs: Files, op: Op, t: string, state: string, pending: Presence, intent: Presence, env: Env)
    requires ValidState(state) && StartHeard(env) && Release in fs && Hold !in fs && op != Inspect && op != SettleRecover
    ensures var a := WhileReleased(fs, op, t, state, pending, intent, env);
      && (Done(op, a.reply) ==> Heard(fs, op, env))
      && (Heard(fs, op, env) ==> a == WhileReleased(fs, op, t, state, pending, intent, CALM))
  {
    if op == Dequeue || op == Settle || op == Recover {
      hide *;
      ReleasedNeeds(fs, op, t, state, pending, intent, env);
      DoneIs(op, WhileReleased(fs, op, t, state, pending, intent, env).reply);
    }
  }

  lemma DoneIs(op: Op, reply: Reply)
    requires op != Front
    ensures Done(op, reply) == Achieved(op, reply)
  {
  }

  lemma StartIs(fs: Files, op: Op, t: string, env: Env)
    requires QueueOk(fs) && StartHeard(env) && (Hold !in fs || Release !in fs)
    ensures Apply(fs, op, t, env)
         == Dispatch(fs, op, t, fs[QueueFile], Look(fs, Hold, Good), Look(fs, Release, Good), Look(fs, Pending, Good),
                     Look(fs, Intent, Good), env)
  {
    hide Dispatch, ValidFrom, Ascii;
    CalmState(fs);
  }

  lemma DoneSucceeds(op: Op, reply: Reply)
    ensures Done(op, reply) ==> Succeeded(op, reply) && !Unsure(reply)
  {
  }

  lemma DoneHeard(fs: Files, op: Op, t: string, env: Env)
    requires Done(op, Apply(fs, op, t, env).reply)
    ensures QueueOk(fs) && Done(op, Expected(fs, op, t)) && Heard(fs, op, env)
  {
    hide Apply, Dispatch, ValidState, Expected, FilesOf, Heard, Done, Apt;
    var reply := Apply(fs, op, t, env).reply;
    DoneSucceeds(op, reply);
    AnswersAreTrue(fs, op, t, env);
    DoneIsApt(fs, op, t);
    if !StartHeard(env) {
      assert env(0) != Good || env(1) != Good || env(2) != Good || env(3) != Good || env(4) != Good || env(5) != Good;
      UnseenRefuses(fs, op, t, env);
    }
    StartIs(fs, op, t, env);
    DispatchNeeds(fs, op, t, env);
  }

  /** Whatever the file system does, an operation succeeds exactly when it would on a good one and every one of its calls
    was answered well. */
  lemma SucceedsIff(fs: Files, op: Op, t: string, env: Env)
    ensures Done(op, Apply(fs, op, t, env).reply)
       <==> QueueOk(fs) && Done(op, Expected(fs, op, t)) && Heard(fs, op, env)
  {
    hide Apply, Dispatch, ValidState, Expected, FilesOf, Done, Apt;
    if Done(op, Apply(fs, op, t, env).reply) {
      DoneHeard(fs, op, t, env);
    }
    if QueueOk(fs) && Done(op, Expected(fs, op, t)) && Heard(fs, op, env) {
      DoneIsApt(fs, op, t);
      StartIs(fs, op, t, env);
      StartIs(fs, op, t, CALM);
      DispatchNeeds(fs, op, t, env);
      CalmOutcome(fs, op, t);
    }
  }
}
