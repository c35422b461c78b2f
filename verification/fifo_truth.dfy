/** What an answer is worth whatever the file system does: it is the answer of the tables, with their files, or one of
  the answers that say that the component does not know. */
module FifoTruth {
  import opened FifoText
  import opened FifoStore
  import opened Fifo
  import opened FifoLog
  import opened FifoLeaves
  import opened FifoSafety
  import opened FifoRecovery
  import opened FifoProgress
  import opened FifoExpected

  /** The answers that promise nothing: something could not be read, or a change may or may not have happened. */
  predicate Unsure(reply: Reply) {
    match reply
    case StateInvalid => true
    case ReservationUnknown => true
    case PendingUnknown => true
    case TicketUnknown => true
    case ClaimUnknown => true
    case WriteUnknown => true
    case RecoveryUnresolved => true
    case RecoveryUnknown => true
    case JournalInvalid => true
    case _ => false
  }

  /** The answer with which an operation owns up to a change it cannot vouch for. */
  predicate OwnsUp(op: Op, reply: Reply) {
    match op
    case Enqueue => reply == TicketUnknown || reply == WriteUnknown
    case Dequeue => reply == WriteUnknown
    case Cancel => reply == WriteUnknown
    case Reserve => reply == ReservationUnknown
    case DoRelease => reply == ReservationUnknown
    case Settle => reply == ReservationUnknown
    case SettleRecover => reply == ReservationUnknown
    case Recover => reply == RecoveryUnknown
    case Front => false
    case Inspect => false
  }

  // ---- a chain that was acknowledged throughout is the chain of a calm file system ----

  ghost predicate Alike(c: Chain, calm: Chain) {
    c.up ==> c == calm
  }

  lemma ArchiveAlike(fs: Files, env: Env)
    ensures Alike(ArchiveIntent(fs, env), ArchiveIntent(fs, CALM))
  {
    hide Effect, Read;
  }

  lemma StageAlike(fs: Files, t: string, env: Env)
    ensures Alike(StageClaim(fs, t, env), StageClaim(fs, t, CALM))
  {
    hide Effect, Read, Claim;
  }

  lemma PrepareAlike(fs: Files, original: string, next: string, env: Env)
    ensures Alike(Prepare(fs, original, next, env), Prepare(fs, original, next, CALM))
  {
    hide Effect, Read, Journal;
  }

  lemma CommitAlike(fs: Files, original: string, next: string, env: Env)
    ensures Alike(Commit(fs, original, next, env), Commit(fs, original, next, CALM))
  {
    hide Effect, Read, Journal, Prepare;
    PrepareAlike(fs, original, next, env);
  }

  lemma ClaimAlike(fs: Files, t: string, env: Env)
    ensures var c := ClaimTicket(fs, t, env);
      c == ClaimTicket(fs, t, CALM) || c.refusal == [TicketUnknown]
  {
    hide Effect, Read, Claim, StageClaim;
    StageAlike(fs, t, env);
    ClaimLeaves(fs, t, env);
  }

  lemma ClaimedAlike(fs: Files, t: string, o: Outcome)
    ensures Claimed(fs, t, o) ==> Claimed(fs, t, Good)
  {
  }

  lemma HistoryAlike(fs: Files, env: Env, site: nat)
    ensures HistoryClear(fs, env, site) ==> HistoryClear(fs, CALM, site)
  {
    hide ValidMark;
    NoMark();
  }

  lemma ConsumeAlike(fs: Files, env: Env)
    ensures Alike(ConsumeHistory(fs, env), ConsumeHistory(fs, CALM))
  {
    hide Effect, HistoryClear;
    HistoryAlike(fs, env, 21);
  }

  lemma EvidenceAlike(fs: Files, state: string, t: string, pending: Presence, intent: Presence, env: Env)
    requires |state| >= 5
    ensures Alike(SettleEvidence(fs, state, t, pending, intent, env), SettleEvidence(fs, state, t, pending, intent, CALM))
  {
    hide Effect, Read, Mark, DequeueRecord, IsTicket, IndexOf, Claimed;
    ClaimedAlike(fs, t, env(101));
  }

  lemma DequeueAlike(fs: Files, state: string, t: string, env: Env)
    requires |state| >= 5
    ensures Alike(DequeueEvidence(fs, state, t, env), DequeueEvidence(fs, state, t, CALM))
  {
    hide Effect, Read, DequeueRecord, IndexOf;
  }

  lemma BarrierAlike(fs: Files, state: string, hold: Presence, release: Presence, env: Env)
    ensures BarrierValid(fs, state, hold, release, env) ==> BarrierValid(fs, state, hold, release, CALM)
  {
    hide ValidMark, IndexOf, HistoryClear, Claimed, Line;
    HistoryAlike(fs, env, 10);
    NoMark();
    var marker := Read(fs, if hold == Found then Hold else Release, 70, env(160));
    if ValidMark(marker) {
      MarkLength(marker);
      ClaimedAlike(fs, marker[5..69], env(161));
    }
  }

  lemma NoMark()
    ensures !ValidMark("")
  {
  }

  lemma MarkLength(s: string)
    requires ValidMark(s)
    ensures |s| == 70
  {
  }

  // ---- every branch: the calm answer, or an unsure one ----

  /** What a lookup reported is so, unless it failed. */
  ghost predicate Reported(fs: Files, f: File, p: Presence) {
    p == Unknown || p == Look(fs, f, Good)
  }

  ghost predicate Sure(a: Answer, calm: Answer) {
    a == calm || Unsure(a.reply)
  }

  lemma RecoverSure(fs: Files, state: string, pending: Presence, intent: Presence, env: Env)
    requires Reported(fs, Pending, pending) && Reported(fs, Intent, intent)
    ensures Sure(RecoverQueue(fs, state, pending, intent, env),
                 RecoverQueue(fs, state, Look(fs, Pending, Good), Look(fs, Intent, Good), CALM))
  {
    hide ArchiveIntent, ValidJournal, JournalOld, JournalNext;
    ArchiveAlike(fs, env);
    EmptyJournal();
  }

  lemma EmptyJournal()
    ensures !ValidJournal("")
  {
  }

  lemma RecoverSettleSure(fs: Files, state: string, t: string, pending: Presence, intent: Presence, env: Env)
    requires |state| >= 5 && Reported(fs, Pending, pending) && Reported(fs, Intent, intent)
    ensures Sure(RecoverSettle(fs, state, t, pending, intent, env),
                 RecoverSettle(fs, state, t, Look(fs, Pending, Good), Look(fs, Intent, Good), CALM))
  {
    hide SettleEvidence, Effect, Read, Mark;
    EvidenceAlike(fs, state, t, pending, intent, env);
    UnseenEvidence(fs, state, t, pending, intent, env);
  }

  lemma UnseenEvidence(fs: Files, state: string, t: string, pending: Presence, intent: Presence, env: Env)
    requires |state| >= 5
    ensures SettleEvidence(fs, state, t, pending, intent, env).up ==> pending == Missing && intent == Missing
  {
    hide Effect, Acknowledged, DequeueRecord, IsTicket, IndexOf, Claimed;
  }

  lemma SettleSure(fs: Files, state: string, t: string, env: Env)
    requires |state| >= 5 && Pending !in fs && Intent !in fs
    ensures Sure(SettleReleased(fs, state, t, Missing, Missing, env), SettleReleased(fs, state, t, Missing, Missing, CALM))
  {
    hide DequeueEvidence, RecoverSettle;
    DequeueAlike(fs, state, t, env);
    var c := DequeueEvidence(fs, state, t, env).Then(Replace(Release, SettledHold), env(126));
    var d := c.Then(Flush(Directory), env(127));
    DequeueFiles(fs, state, t, env);
    if d.up {
      RecoverSettleSure(d.files, state, t, Missing, Missing, env);
    }
  }

  lemma DequeueFiles(fs: Files, state: string, t: string, env: Env)
    requires |state| >= 5
    ensures DequeueEvidence(fs, state, t, env).files == fs
  {
    hide Acknowledged, DequeueRecord, IndexOf;
  }

  lemma RemoveSure(fs: Files, state: string, t: string, env: Env)
    ensures Sure(RemoveFront(fs, state, t, env), RemoveFront(fs, state, t, CALM))
  {
    hide Commit, FrontLine;
    CommitAlike(fs, state, AfterFront(state), env);
  }

  lemma ReleasedSure(fs: Files, op: Op, t: string, state: string, pending: Presence, intent: Presence, env: Env)
    requires ValidState(state) && Reported(fs, Pending, pending) && Reported(fs, Intent, intent)
    ensures Sure(WhileReleased(fs, op, t, state, pending, intent, env),
                 WhileReleased(fs, op, t, state, Look(fs, Pending, Good), Look(fs, Intent, Good), CALM))
  {
    hide RecoverQueue, SettleReleased, RemoveFront, Claimed, ValidFrom, IsTicket, Mark;
    RecoverSure(fs, state, pending, intent, env);
    RemoveSure(fs, state, t, env);
    ClaimedAlike(fs, t, env(130));
    MarkNotEmpty(t);
    if pending == Missing && intent == Missing {
      SettleSure(fs, state, t, env);
    }
  }

  lemma MarkNotEmpty(t: string)
    ensures Mark(t) != ""
  {
  }

  lemma ReleaseSure(fs: Files, t: string, state: string, hold: Presence, pending: Presence, intent: Presence, env: Env)
    requires ValidState(state) && Reported(fs, Pending, pending) && Reported(fs, Intent, intent)
    ensures Sure(ReleaseHold(fs, t, state, hold, pending, intent, env),
                 ReleaseHold(fs, t, state, hold, Look(fs, Pending, Good), Look(fs, Intent, Good), CALM))
  {
    hide Claimed, ValidFrom, IsTicket, Mark, FrontLine;
    ClaimedAlike(fs, t, env(140));
    MarkNotEmpty(t);
  }

  lemma ReserveSure(fs: Files, t: string, state: string, env: Env)
    requires ValidState(state)
    ensures Sure(ReserveFront(fs, t, state, env), ReserveFront(fs, t, state, CALM))
  {
    hide Claimed, ValidFrom, ConsumeHistory, Mark, FrontLine;
    ClaimedAlike(fs, t, env(150));
    ConsumeAlike(fs, env);
  }

  lemma EnqueueSure(fs: Files, t: string, state: string, env: Env)
    ensures Sure(EnqueueTicket(fs, t, state, env), EnqueueTicket(fs, t, state, CALM))
  {
    hide ClaimTicket, Commit, IndexOf;
    ClaimAlike(fs, t, env);
    CommitAlike(ClaimTicket(fs, t, env).files, state, state + Line(t), env);
  }

  lemma CancelSure(fs: Files, t: string, state: string, env: Env)
    requires ValidState(state)
    ensures Sure(CancelTicket(fs, t, state, env), CancelTicket(fs, t, state, CALM))
  {
    hide Commit, IndexOf, ValidFrom;
    var i := IndexOf(state, Line(t));
    if i >= 0 {
      CommitAlike(fs, state, WithoutLine(state, i), env);
    }
  }

  lemma InspectSure(fs: Files, t: string, state: string, hold: Presence, release: Presence, pending: Presence,
                    intent: Presence, env: Env)
    requires Reported(fs, Pending, pending) && Reported(fs, Intent, intent)
    ensures Sure(Answer(fs, InspectTicket(fs, t, state, hold, release, pending, intent, env)),
                 Answer(fs, InspectTicket(fs, t, state, hold, release, Look(fs, Pending, Good), Look(fs, Intent, Good),
                                          CALM)))
  {
    hide BarrierValid, Claimed, IsTicket, IndexOf, Line;
    BarrierAlike(fs, state, hold, release, env);
    ClaimedAlike(fs, t, env(162));
  }

  lemma IdleSure(fs: Files, op: Op, t: string, state: string, pending: Presence, intent: Presence, env: Env)
    requires ValidState(state) && Reported(fs, Pending, pending) && Reported(fs, Intent, intent)
    ensures Sure(WhileIdle(fs, op, t, state, pending, intent, env),
                 WhileIdle(fs, op, t, state, Look(fs, Pending, Good), Look(fs, Intent, Good), CALM))
  {
    hide ReserveFront, EnqueueTicket, CancelTicket, RecoverQueue, ValidFrom, IsTicket, FrontLine;
    RecoverSure(fs, state, pending, intent, env);
    ReserveSure(fs, t, state, env);
    EnqueueSure(fs, t, state, env);
    CancelSure(fs, t, state, env);
  }

  lemma DispatchSure(fs: Files, op: Op, t: string, state: string, hold: Presence, release: Presence, pending: Presence,
                     intent: Presence, env: Env)
    requires ValidState(state) && Reported(fs, Pending, pending) && Reported(fs, Intent, intent)
    ensures Sure(Dispatch(fs, op, t, state, hold, release, pending, intent, env),
                 Dispatch(fs, op, t, state, hold, release, Look(fs, Pending, Good), Look(fs, Intent, Good), CALM))
  {
    hide ValidFrom, WhileReleased, WhileIdle, InspectTicket, RecoverSettle, ReleaseHold, HistoryClear;
    InspectSure(fs, t, state, hold, release, pending, intent, env);
    RecoverSettleSure(fs, state, t, pending, intent, env);
    ReleasedSure(fs, op, t, state, pending, intent, env);
    ReleaseSure(fs, t, state, hold, pending, intent, env);
    HistoryAlike(fs, env, 10);
    IdleSure(fs, op, t, state, pending, intent, env);
  }

  lemma NoState()
    ensures !ValidState("")
  {
  }

  /** Whatever the file system does, an operation gives the answer it would give to a calm one and leaves the same
    files, or it answers that it does not know. */
  lemma CalmOrUnsure(fs: Files, op: Op, t: string, env: Env)
    ensures Sure(Apply(fs, op, t, env), Apply(fs, op, t, CALM))
  {
    hide Dispatch, ValidState, Ascii;
    NoState();
    var pending, intent := Look(fs, Pending, env(3)), Look(fs, Intent, env(4));
    if QueueOk(fs) {
      CalmState(fs);
      DispatchSure(fs, op, t, fs[QueueFile], Look(fs, Hold, Good), Look(fs, Release, Good), pending, intent, env);
    }
  }

  /** Every answer that promises anything is the one the tables give, and with it come exactly their files: an answer
    of success was earned in full, and an answer of refusal is true and changed nothing. */
  lemma AnswersAreTrue(fs: Files, op: Op, t: string, env: Env)
    ensures var a := Apply(fs, op, t, env);
      !Unsure(a.reply) ==>
        QueueOk(fs) && a.reply == Expected(fs, op, t) && a.files == FilesOf(fs, op, t, a.reply)
  {
    hide Apply, Expected, FilesOf;
    CalmOrUnsure(fs, op, t, env);
    CalmOutcome(fs, op, t);
  }

  /** What the refusals say is so. */
  ghost predicate Refused(fs: Files, t: string, reply: Reply) {
    var q := QueueOf(fs);
    match reply
    case Empty => q == []
    case NotFront => q != [] && q[0] != t
    case NotQueued => t !in q
    case CancelFrontRefused => q != [] && q[0] == t
    case AlreadyQueued => t in q
    case Full => |q| == 64 && t !in q
    case TicketUsed => Used(t) in fs && t !in q
    case TicketInvalid => !IsTicket(t)
    case ReleaseRequired => q != [] && q[0] == t && Hold !in fs && Release !in fs
    case ReservationHeld => Hold in fs && Release !in fs
    case NoIntent => Intent !in fs && Pending !in fs
    case FrontIs(u) => q != [] && q[0] == u
    case _ => true
  }

  /** Whatever the file system does, what a refusal or a report says of the queue, the ticket and the markers is so. */
  lemma RefusalsAreTrue(fs: Files, op: Op, t: string, env: Env)
    ensures Refused(fs, t, Apply(fs, op, t, env).reply)
  {
    hide Apply, FilesOf, IsTicket, HasClaim, JustDequeued, HistoryOk, BarrierSound, Records;
    AnswersAreTrue(fs, op, t, env);
  }

  // ---- a change the component cannot vouch for ----

  ghost predicate Owned(fs: Files, op: Op, a: Answer) {
    a.files == fs || !Unsure(a.reply) || OwnsUp(op, a.reply)
  }

  lemma ReleasedOwned(fs: Files, op: Op, t: string, state: string, pending: Presence, intent: Presence, env: Env)
    requires ValidState(state)
    ensures Owned(fs, op, WhileReleased(fs, op, t, state, pending, intent, env))
  {
    hide RecoverQueue, RemoveFront, SettleReleased, ValidFrom, Claimed, Read, IsTicket, Mark;
    match op
    case Recover => RecoverOwned(fs, state, pending, intent, env);
    case Dequeue => RemoveOwned(fs, t, state, env);
    case Settle => SettleOwned(fs, t, state, pending, intent, env);
    case _ =>
  }

  lemma RemoveOwned(fs: Files, t: string, state: string, env: Env)
    ensures Owned(fs, Dequeue, RemoveFront(fs, state, t, env))
  {
    hide Commit, FrontLine;
  }

  lemma SettleOwned(fs: Files, t: string, state: string, pending: Presence, intent: Presence, env: Env)
    requires |state| >= 5
    ensures Owned(fs, Settle, SettleReleased(fs, state, t, pending, intent, env))
    ensures Owned(fs, SettleRecover, RecoverSettle(fs, state, t, pending, intent, env))
  {
    hide DequeueEvidence, SettleEvidence, Effect;
  }

  lemma IdleOwned(fs: Files, op: Op, t: string, state: string, pending: Presence, intent: Presence, env: Env)
    requires ValidState(state)
    ensures Owned(fs, op, WhileIdle(fs, op, t, state, pending, intent, env))
  {
    hide RecoverQueue, ReserveFront, EnqueueTicket, CancelTicket, ValidFrom, IsTicket, FrontLine;
    RecoverOwned(fs, state, pending, intent, env);
    match op
    case Reserve => ReserveOwned(fs, t, state, env);
    case Enqueue => EnqueueOwned(fs, t, state, env);
    case Cancel => CancelOwned(fs, t, state, env);
    case _ =>
  }

  lemma RecoverOwned(fs: Files, state: string, pending: Presence, intent: Presence, env: Env)
    ensures Owned(fs, Recover, RecoverQueue(fs, state, pending, intent, env))
  {
    hide ArchiveIntent, ValidJournal, JournalOld, JournalNext;
  }

  lemma ReserveOwned(fs: Files, t: string, state: string, env: Env)
    requires ValidState(state)
    ensures Owned(fs, Reserve, ReserveFront(fs, t, state, env))
  {
    hide ConsumeHistory, ValidFrom, Claimed, Effect, FrontLine;
  }

  lemma EnqueueOwned(fs: Files, t: string, state: string, env: Env)
    ensures Owned(fs, Enqueue, EnqueueTicket(fs, t, state, env))
  {
    hide Commit, StageClaim, Effect, IndexOf;
  }

  lemma CancelOwned(fs: Files, t: string, state: string, env: Env)
    requires ValidState(state)
    ensures Owned(fs, Cancel, CancelTicket(fs, t, state, env))
  {
    hide Commit, IndexOf, ValidFrom;
  }

  lemma DispatchOwned(fs: Files, op: Op, t: string, state: string, hold: Presence, release: Presence, pending: Presence,
                      intent: Presence, env: Env)
    requires ValidState(state)
    ensures Owned(fs, op, Dispatch(fs, op, t, state, hold, release, pending, intent, env))
  {
    hide WhileReleased, WhileIdle, RecoverSettle, ValidFrom, Claimed, IsTicket, HistoryClear, InspectTicket, Effect;
    SettleOwned(fs, t, state, pending, intent, env);
    ReleasedOwned(fs, op, t, state, pending, intent, env);
    IdleOwned(fs, op, t, state, pending, intent, env);
  }

  lemma ApplyOwned(fs: Files, op: Op, t: string, env: Env)
    ensures Owned(fs, op, Apply(fs, op, t, env))
  {
    hide Dispatch, ValidState;
    var hold, release := Look(fs, Hold, env(0)), Look(fs, Release, env(1));
    var pending, intent := Look(fs, Pending, env(3)), Look(fs, Intent, env(4));
    var state := if Look(fs, QueueFile, env(2)) == Found then Read(fs, QueueFile, 4165, env(5)) else "";
    if ValidState(state) {
      DispatchOwned(fs, op, t, state, hold, release, pending, intent, env);
    }
  }

  /** An operation that changed anything either succeeds, so that the component exits 0, or answers with its own
    admission: the caller of an enqueue hears of the ticket or the write, of a recovery of the recovery, and so on. */
  lemma ChangesAreOwned(fs: Files, op: Op, t: string, env: Env)
    ensures var a := Apply(fs, op, t, env);
      a.files != fs ==> Succeeded(op, a.reply) || OwnsUp(op, a.reply)
  {
    hide Apply, Expected;
    ApplyOwned(fs, op, t, env);
    AnswersAreTrue(fs, op, t, env);
  }

  /** An operation that could not see the queue, a marker or an open commit changes nothing and does not succeed. */
  lemma UnseenRefuses(fs: Files, op: Op, t: string, env: Env)
    requires exists site: nat :: site < 6 && env(site) != Good
    ensures Apply(fs, op, t, env).files == fs && !Succeeded(op, Apply(fs, op, t, env).reply)
  {
    hide Dispatch, ValidState;
    NoState();
    var hold, release := Look(fs, Hold, env(0)), Look(fs, Release, env(1));
    var pending, intent := Look(fs, Pending, env(3)), Look(fs, Intent, env(4));
    if QueueOk(fs) && env(0) == env(1) == env(2) == env(5) == Good {
      if op == Recover {
        UnseenRecovery(fs, t, fs[QueueFile], hold, release, pending, intent, env);
      } else {
        OpenDispatch(fs, op, t, fs[QueueFile], hold, release, pending, intent, env);
      }
    }
  }

  lemma UnseenRecovery(fs: Files, t: string, state: string, hold: Presence, release: Presence, pending: Presence,
                       intent: Presence, env: Env)
    requires ValidState(state) && (pending == Unknown || intent == Unknown)
    ensures var a := Dispatch(fs, Recover, t, state, hold, release, pending, intent, env);
      a.files == fs && !Succeeded(Recover, a.reply)
  {
    hide ValidFrom, HistoryClear, ArchiveIntent;
  }

  // ---- when exactly, with a good file system ----

  /** What `reserve` of a clean queue answers. */
  lemma ReserveAnswers(fs: Files, t: string)
    requires Clean(fs) && IsTicket(t)
    ensures var q, reply := QueueOf(fs), Apply(fs, Reserve, t, CALM).reply;
      && (reply == Empty <==> q == [])
      && (reply == NotFront <==> q != [] && q[0] != t)
      && (reply == TicketUnknown <==> q != [] && q[0] == t && !HasClaim(fs, t))
      && (reply == Reserved <==> q != [] && q[0] == t && HasClaim(fs, t))
  {
    hide Apply, FilesOf, IsTicket, HasClaim, HistoryOk;
    CalmOutcome(fs, Reserve, t);
  }

  /** What `dequeue` answers with no reservation in place, and while the release of `t` waits for it. */
  lemma DequeueAnswers(fs: Files, t: string)
    requires NothingOpen(fs) && IsTicket(t) && Hold !in fs
    requires if Release in fs then Whole(fs, Release, t) && HasClaim(fs, t) else HistoryOk(fs)
    ensures var q, reply := QueueOf(fs), Apply(fs, Dequeue, t, CALM).reply;
      && (reply == Empty <==> q == [])
      && (reply == NotFront <==> q != [] && q[0] != t)
      && (reply == ReleaseRequired <==> q != [] && q[0] == t && Release !in fs)
      && (reply == Dequeued <==> q != [] && q[0] == t && Release in fs)
  {
    hide Apply, FilesOf, IsTicket, HasClaim, HistoryOk;
    CalmOutcome(fs, Dequeue, t);
  }

  /** What `enqueue` and `cancel` of a clean queue answer. */
  lemma AdmissionAnswers(fs: Files, t: string)
    requires Clean(fs) && IsTicket(t)
    ensures var q, reply := QueueOf(fs), Apply(fs, Enqueue, t, CALM).reply;
      && (reply == AlreadyQueued <==> t in q)
      && (reply == Full <==> t !in q && |q| == 64)
      && (reply == TicketUsed <==> t !in q && |q| < 64 && Used(t) in fs)
      && (reply == Enqueued <==> t !in q && |q| < 64 && Used(t) !in fs)
    ensures var q, reply := QueueOf(fs), Apply(fs, Cancel, t, CALM).reply;
      && (reply == NotQueued <==> t !in q)
      && (reply == CancelFrontRefused <==> q != [] && q[0] == t)
      && (reply == Cancelled <==> t in q && q[0] != t)
  {
    hide Apply, FilesOf, IsTicket, HasClaim, HistoryOk, ValidState, Decode;
    CalmOutcome(fs, Enqueue, t);
    CalmOutcome(fs, Cancel, t);
    QueueText(fs);
  }

  /** `inspect` reports a claim exactly when no commit is open, the claim of the ticket is whole, and one of three
    holds: no marker is there and the last reservation is settled; only a hold is there, whole and for a claimed
    ticket at the front; or only a release is there, whole and for a claimed ticket at the front or gone. */
  lemma InspectIff(fs: Files, t: string)
    requires QueueOk(fs)
    ensures var reply := Apply(fs, Inspect, t, CALM).reply;
      var told :=
        && Pending !in fs && Intent !in fs && IsTicket(t) && HasClaim(fs, t)
        && (|| (Hold !in fs && Release !in fs && HistoryOk(fs))
            || (Hold in fs && Release !in fs
                && exists u :: IsTicket(u) && Whole(fs, Hold, u) && HasClaim(fs, u) && AtFront(fs, u))
            || (Hold !in fs && Release in fs
                && exists u :: IsTicket(u) && Whole(fs, Release, u) && HasClaim(fs, u)
                               && (AtFront(fs, u) || u !in QueueOf(fs))));
      && (reply == ClaimQueued <==> told && t in QueueOf(fs))
      && (reply == ClaimRecorded <==> told && t !in QueueOf(fs))
  {
    hide Apply, FilesOf, IsTicket, HasClaim, HistoryOk, Whole, AtFront, ValidState;
    CalmOutcome(fs, Inspect, t);
    forall u | Hold in fs && Release !in fs
      ensures Barrier(fs, u) <==> IsTicket(u) && Whole(fs, Hold, u) && HasClaim(fs, u) && AtFront(fs, u) {}
    forall u | Hold !in fs
      ensures Barrier(fs, u) <==> IsTicket(u) && Whole(fs, Release, u) && HasClaim(fs, u)
                                  && (AtFront(fs, u) || u !in QueueOf(fs)) {}
  }
}
