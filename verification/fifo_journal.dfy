/** Before the first reservation `front` syncs nothing. What that leaves open is the name of the archived journal, and
  this is when: told from the answers given so far and the files around each operation. */
module FifoJournal {
  import opened FifoText
  import opened FifoStore
  import opened Fifo
  import opened FifoLog
  import opened FifoSafety
  import opened FifoRuns
  import opened FifoRecovery
  import opened FifoProgress
  import opened FifoScript
  import opened FifoDisk
  import opened FifoSynced

  // ---- what callers see ----

  /** An operation archived its journal: no intent is left, and there was one or the queue has changed. */
  predicate Archived(before: Files, after: Files) {
    Intent !in after && (Intent in before || !SameQueue(before, after))
  }

  /** The last operation that tells anything about the archived journal's name moved the journal there without
    answering success. Every success tells that the name is synced. So does an enqueue that failed only once its claim
    counted. A killed process is read as one that answered with the calls it missed refused. */
  predicate JournalLoose(run: seq<Invocation>) {
    run != [] &&
    var n, i := |run| - 1, run[|run| - 1];
    if i.busy then JournalLoose(run[..n])
    else
      var before := Run(run[..n]).files;
      var a := Apply(before, i.op, i.ticket, i.env);
      !Achieved(i.op, a.reply) &&
      (Archived(before, a.files) || (!(i.op == Enqueue && a.reply == WriteUnknown) && JournalLoose(run[..n])))
  }

  // ---- lists with one directory sync, at the end ----

  ghost predicate NoDirectorySync(acts: seq<Act>) {
    forall i :: 0 <= i < |acts| ==> acts[i].call != Flush(Directory)
  }

  lemma KeptCall(c: DiskChain, call: Call, o: Outcome, f: File)
    requires f !in Targets(call) && call != Flush(Directory)
    ensures f in c.Then(call, o).disk.entries <==> f in c.disk.entries
  {
    hide Read;
  }

  lemma {:induction false} KeptName(c: DiskChain, acts: seq<Act>, env: Env, f: File)
    requires NoDirectorySync(acts) && Spares(acts, {f})
    ensures f in PlayDisk(c, acts, env).disk.entries <==> f in c.disk.entries
    decreases |acts|
  {
    hide Touch, Acknowledged;
    if acts != [] {
      KeptCall(c, acts[0].call, env(acts[0].site), f);
      KeptName(c.Then(acts[0].call, env(acts[0].site)), acts[1..], env, f);
    }
  }

  lemma MissedSync(c: DiskChain, o: Outcome)
    requires !c.Then(Flush(Directory), o).up
    ensures c.Then(Flush(Directory), o).disk == c.disk
  {
  }

  /** If not all calls of such a list were acknowledged, a name it does not touch is as synced as before. */
  lemma FailedName(c: DiskChain, acts: seq<Act>, last: Act, env: Env, f: File)
    requires NoDirectorySync(acts) && Spares(acts, {f}) && last.call == Flush(Directory)
    requires !PlayDisk(c, acts + [last], env).up
    ensures f in PlayDisk(c, acts + [last], env).disk.entries <==> f in c.disk.entries
  {
    hide PlayDisk, Touch, Acknowledged;
    QuietThen(c, acts, last, env);
    KeptName(c, acts, env, f);
    MissedSync(PlayDisk(c, acts, env), env(last.site));
  }

  // ---- the archiving step ----

  /** The journal was moved, and the sync of that was not acknowledged. */
  lemma ArchiveName(c: DiskChain, w: Act, q: Act, env: Env)
    requires w.call == Replace(Intent, LastJournal) && q.call == Flush(Directory)
    requires Intent in c.disk.files
    requires var after := PlayDisk(c, [w, q], env); Intent !in after.disk.files && !after.up
    ensures LastJournal in PlayDisk(c, [w, q], env).disk.entries
  {
    hide PlayDisk;
    assert [w, q] == [w] + [q];
    ThenQuiet(c, w, [q], env);
    DiskOne(c.Then(w.call, env(w.site)), q, env);
  }

  /** A recovery that archived the journal without succeeding leaves its name unsynced. */
  lemma RecoveryName(c: DiskChain, env: Env)
    requires Intent in c.disk.files
    requires var after := PlayDisk(c, ArchiveActs(), env); Intent !in after.disk.files && !after.up
    ensures LastJournal in PlayDisk(c, ArchiveActs(), env).disk.entries
  {
    hide PlayDisk;
    var q := [Act(Flush(QueueFile), 81), Act(Flush(Intent), 82), Act(Flush(Directory), 83)];
    var w, l := Act(Replace(Intent, LastJournal), 84), Act(Flush(Directory), 85);
    assert ArchiveActs() == q + [w, l];
    DiskConcat(c, q, [w, l], env);
    QuietCalls(c, q, env);
    ArchiveName(PlayDisk(c, q, env), w, l, env);
  }

  // ---- the commit ----

  /** The calls of a commit up to the writing of its journal, those up to the sync of the renamed queue, and the rest. */
  function FirstCalls(original: string, next: string): seq<Act> {
    [Act(Lacks(Intent), 60), Act(Lacks(Pending), 61), Act(Write(Intent, Journal(original, next)), 62)]
  }

  function MiddleCalls(original: string, next: string): seq<Act> {
    [Act(Flush(Intent), 63), Act(Flush(Directory), 64), Act(Write(Pending, next), 65)]
    + [Act(Flush(Pending), 66), Act(Holds(Pending, 4165, next), 67), Act(Holds(QueueFile, 4165, original), 68)]
    + [Act(Replace(Pending, QueueFile), 69), Act(Flush(Directory), 70)]
  }

  function LastCalls(): seq<Act> {
    [Act(Replace(Intent, LastJournal), 71), Act(Flush(Directory), 72)]
  }

  lemma CommitParts(original: string, next: string)
    ensures CommitActs(original, next) == FirstCalls(original, next) + (MiddleCalls(original, next) + LastCalls())
  {
    hide Journal;
  }

  lemma FirstPart(c: DiskChain, original: string, next: string, env: Env)
    ensures var after := PlayDisk(c, FirstCalls(original, next), env);
      && (LastJournal in after.disk.entries <==> LastJournal in c.disk.entries)
      && SameQueue(c.disk.files, after.disk.files) && (after.up ==> Intent in after.disk.files)
  {
    hide PlayDisk, Journal;
    var acts := FirstCalls(original, next);
    KeptName(c, acts, env, LastJournal);
    Spared(c, acts, env, QueueFile);
    var q, w := [acts[0], acts[1]], acts[2];
    assert acts == q + [w];
    QuietThen(c, q, w, env);
  }

  lemma MiddlePart(c: DiskChain, original: string, next: string, env: Env)
    requires Intent in c.disk.files && next != ""
    ensures var after := PlayDisk(c, MiddleCalls(original, next), env);
      && Intent in after.disk.files
      && (after.up ==> QueueFile in after.disk.files && after.disk.files[QueueFile] == next)
  {
    hide PlayDisk, Touch;
    var acts := MiddleCalls(original, next);
    Spared(c, acts, env, Intent);
    var a, p, h, r, l := acts[..4], acts[4], acts[5], acts[6], acts[7];
    assert acts == a + ([p] + ([h] + ([r] + [l])));
    DiskConcat(c, a, [p] + ([h] + ([r] + [l])), env);
    var c1 := PlayDisk(c, a, env);
    ThenQuiet(c1, p, [h] + ([r] + [l]), env);
    var c2 := c1.Then(p.call, env(p.site));
    ThenQuiet(c2, h, [r] + [l], env);
    var c3 := c2.Then(h.call, env(h.site));
    ThenQuiet(c3, r, [l], env);
    var c4 := c3.Then(r.call, env(r.site));
    DiskOne(c4, l, env);
    Installing(c1, next, p, h, r, l, env);
  }

  lemma Installing(c: DiskChain, next: string, p: Act, h: Act, r: Act, l: Act, env: Env)
    requires next != "" && p.call == Holds(Pending, 4165, next) && h.call.Holds?
    requires r.call == Replace(Pending, QueueFile) && l.call == Flush(Directory)
    ensures var c3 := c.Then(p.call, env(p.site)).Then(h.call, env(h.site));
      var c5 := c3.Then(r.call, env(r.site)).Then(l.call, env(l.site));
      c5.up ==> QueueFile in c5.disk.files && c5.disk.files[QueueFile] == next
  {
  }

  /** A commit that did not succeed and left no intent either never began, and synced nothing, or archived its journal
    and left the journal's name unsynced. */
  lemma CommitName(c: DiskChain, original: string, next: string, env: Env)
    requires Intent !in c.disk.files && next != ""
    requires QueueFile in c.disk.files && c.disk.files[QueueFile] != next
    requires var after := PlayDisk(c, CommitActs(original, next), env); Intent !in after.disk.files && !after.up
    ensures var after := PlayDisk(c, CommitActs(original, next), env).disk;
      if SameQueue(c.disk.files, after.files) then LastJournal in after.entries <==> LastJournal in c.disk.entries
      else LastJournal in after.entries
  {
    hide PlayDisk, FirstCalls, MiddleCalls;
    var a, b, l := FirstCalls(original, next), MiddleCalls(original, next), LastCalls();
    CommitParts(original, next);
    DiskConcat(c, a, b + l, env);
    FirstPart(c, original, next, env);
    var c1 := PlayDisk(c, a, env);
    if !c1.up {
      DiskDown(c1.disk, b + l, env);
    } else {
      DiskConcat(c1, b, l, env);
      MiddlePart(c1, original, next, env);
      var c2 := PlayDisk(c1, b, env);
      if !c2.up {
        DiskDown(c2.disk, l, env);
        assert false;
      }
      ArchiveName(c2, l[0], l[1], env);
      Spared(c2, l, env, QueueFile);
    }
  }

  // ---- operations before the first reservation ----

  /** Nothing of a reservation is in the directory, and nothing ever was. */
  ghost predicate NeverReserved(fs: Files) {
    && QueueOk(fs) && Hold !in fs && Release !in fs
    && SettledHold !in fs && Receipt !in fs && PreviousReceipt !in fs
  }

  /** The calls an operation makes before the first reservation, and what follows from its answer. */
  ghost predicate Early(fs: Files, op: Op, t: string, env: Env, a: Answer, acts: seq<Act>)
    requires QueueOk(fs)
  {
    var s := fs[QueueFile];
    || (acts == [] && a.files == fs && !Achieved(op, a.reply) && a.reply != WriteUnknown)
    || (op == Inspect && acts == InspectActs(t, Missing, Missing) && a.files == fs && a.reply != WriteUnknown
        && (Play(Begin(fs), acts, env).up ==> Achieved(op, a.reply)))
    || (op == Reserve && acts == HoldActs(t) && a.reply != WriteUnknown)
    || (op == Enqueue && Intent !in fs && acts == ClaimActs(t) + CommitActs(s, s + Line(t))
        && acts == EnqueueScript(fs, t, s, env) && a == EnqueueTicket(fs, t, s, env))
    || (op == Cancel && Intent !in fs && a == CancelTicket(fs, t, s, env)
        && var i := IndexOf(s, Line(t)); 0 <= i && i != 5 && i + 65 <= |s| && acts == CommitActs(s, WithoutLine(s, i)))
    || (op == Recover && Intent in fs && acts == ArchiveActs()
        && (Play(Begin(fs), acts, env).up ==> Achieved(op, a.reply)))
  }

  lemma InspectAnswers(fs: Files, t: string, env: Env)
    ensures Play(Begin(fs), InspectActs(t, Missing, Missing), env).up <==> InspectSynced(fs, t, Missing, Missing, env)
  {
    hide Play;
    var a := InspectActs(t, Missing, Missing);
    assert a == [a[0], a[1], a[2]];
    Play3(Begin(fs), a[0], a[1], a[2], env);
  }

  lemma EarlyInspect(fs: Files, t: string, pending: Presence, intent: Presence, env: Env)
    requires NeverReserved(fs)
    ensures Early(fs, Inspect, t, env,
                  Answer(fs, InspectTicket(fs, t, fs[QueueFile], Missing, Missing, pending, intent, env)),
                  InspectScript(fs, t, fs[QueueFile], Missing, Missing, pending, intent, env))
  {
    hide Play, HistoryGuard, HistoryClear, HistoryActs, MarkerGuard, BarrierValid, IsTicket, Claimed, IndexOf, Line;
    hide InspectActs, InspectSynced, ValidState;
    var s := fs[QueueFile];
    NoHistory(fs, 10);
    HistoryPlays(fs, env, 10);
    PlayNone(Begin(fs), env);
    BarrierIs(fs, s, Missing, Missing, env);
    InspectAnswers(fs, t, env);
    assert [] + InspectActs(t, Missing, Missing) == InspectActs(t, Missing, Missing);
  }

  lemma EarlyRecover(fs: Files, t: string, pending: Presence, intent: Presence, env: Env)
    requires NeverReserved(fs) && Seen(fs, Intent, intent)
    ensures Early(fs, Recover, t, env, RecoverQueue(fs, fs[QueueFile], pending, intent, env),
                  RecoverScript(fs, fs[QueueFile], pending, intent, env))
  {
    hide Play, ValidState, ValidJournal, JournalOld, JournalNext, Read, ArchiveIntent, ArchiveActs, CommitActs;
    hide InspectActs, HoldActs, ClaimActs, EnqueueTicket, EnqueueScript, CancelTicket, IndexOf, Line, WithoutLine;
    ArchivePlays(fs, env);
  }

  lemma EarlyEnqueue(fs: Files, t: string, env: Env)
    requires NeverReserved(fs) && Intent !in fs
    ensures Early(fs, Enqueue, t, env, EnqueueTicket(fs, t, fs[QueueFile], env), EnqueueScript(fs, t, fs[QueueFile], env))
  {
    hide Play, ValidState, ClaimActs, CommitActs, Commit, StageClaim, IndexOf, Line;
  }

  lemma EarlyCancel(fs: Files, t: string, env: Env)
    requires NeverReserved(fs) && Intent !in fs && IsTicket(t)
    ensures var s, i := fs[QueueFile], IndexOf(fs[QueueFile], Line(t));
      Early(fs, Cancel, t, env, CancelTicket(fs, t, s, env),
            if i < 0 || i == 5 then [] else CommitActs(s, WithoutLine(s, i)))
  {
    hide Play, ValidState, CommitActs, Commit, WithoutLine;
    FoundInside(fs[QueueFile], t);
  }

  lemma FoundInside(s: string, t: string)
    requires IsTicket(t)
    ensures IndexOf(s, Line(t)) >= 0 ==> IndexOf(s, Line(t)) + 65 <= |s|
  {
  }

  lemma EarlyReserve(fs: Files, t: string, env: Env)
    requires NeverReserved(fs)
    ensures ReserveActs(fs, t, env) == [] || ReserveActs(fs, t, env) == HoldActs(t)
    ensures ReserveFront(fs, t, fs[QueueFile], env).reply != WriteUnknown
  {
    hide HistoryGuard, HistoryActs, HoldActs, ConsumeActs, ConsumeHistory, ValidState, FrontLine, Claimed;
    NoHistory(fs, 21);
    assert [] + [] + HoldActs(t) == HoldActs(t);
  }

  lemma EarlyIdle(fs: Files, op: Op, t: string, pending: Presence, intent: Presence, env: Env)
    requires NeverReserved(fs) && Seen(fs, Intent, intent)
    ensures Early(fs, op, t, env, WhileIdle(fs, op, t, fs[QueueFile], pending, intent, env),
                  IdleScript(fs, op, t, fs[QueueFile], pending, intent, env))
  {
    hide Play, RecoverQueue, RecoverScript, EnqueueTicket, EnqueueScript, CancelTicket, CommitActs, ClaimActs, ArchiveActs;
    hide ReserveActs, ReserveFront, HoldActs, ValidState, IsTicket, Claimed, FrontLine, IndexOf, Line, WithoutLine;
    var s := fs[QueueFile];
    IdleAgrees(fs, op, t, s, pending, intent, env);
    PlayNone(Begin(fs), env);
    EarlyRecover(fs, t, pending, intent, env);
    EarlyReserve(fs, t, env);
    if intent == Missing && pending == Missing {
      EarlyEnqueue(fs, t, env);
      if IsTicket(t) {
        EarlyCancel(fs, t, env);
      }
    }
  }

  lemma EarlyDispatch(fs: Files, op: Op, t: string, pending: Presence, intent: Presence, env: Env)
    requires NeverReserved(fs) && Seen(fs, Intent, intent)
    ensures Early(fs, op, t, env, Dispatch(fs, op, t, fs[QueueFile], Missing, Missing, pending, intent, env),
                  DispatchScript(fs, op, t, fs[QueueFile], Missing, Missing, pending, intent, env))
  {
    hide Play, Early, InspectTicket, InspectScript, RecoverSettle, RecoverSettleActs, WhileIdle, IdleScript;
    hide HistoryGuard, HistoryClear, HistoryActs, ValidState, IsTicket, Claimed, Read, FrontLine, NeverReserved;
    EarlyState(fs);
    var s := fs[QueueFile];
    var a := Dispatch(fs, op, t, s, Missing, Missing, pending, intent, env);
    EarlyNothing(fs, op, t, env, a);
    if op == Inspect {
      EarlyInspect(fs, t, pending, intent, env);
    } else if op == SettleRecover {
      NoEarlySettle(fs, t, pending, intent, env);
    } else if op != DoRelease {
      NoHistory(fs, 10);
      HistoryPlays(fs, env, 10);
      PlayNone(Begin(fs), env);
      EarlyIdle(fs, op, t, pending, intent, env);
      var x := IdleScript(fs, op, t, s, pending, intent, env);
      assert [] + x == x;
    }
  }

  lemma EarlyState(fs: Files)
    requires NeverReserved(fs)
    ensures QueueFile in fs && ValidState(fs[QueueFile]) && SettledHold !in fs && Hold !in fs && Release !in fs
    ensures |fs[QueueFile]| >= 5
  {
  }

  /** No calls, no changes, nothing achieved. */
  lemma EarlyNothing(fs: Files, op: Op, t: string, env: Env, a: Answer)
    requires NeverReserved(fs)
    ensures a.files == fs && !Achieved(op, a.reply) && a.reply != WriteUnknown ==> Early(fs, op, t, env, a, [])
  {
    hide InspectActs, HoldActs, ClaimActs, CommitActs, ArchiveActs, Play, ValidState;
  }

  lemma NoEarlySettle(fs: Files, t: string, pending: Presence, intent: Presence, env: Env)
    requires NeverReserved(fs)
    ensures var s := fs[QueueFile];
      && RecoverSettleActs(fs, s, t, pending, intent, env) == []
      && RecoverSettle(fs, s, t, pending, intent, env) == Answer(fs, ReservationUnknown)
  {
    hide Play, SettleEvidence, EvidenceActs, IssueReceipt, ValidState, Claimed, IsTicket, IndexOf;
    EarlyState(fs);
    var s := fs[QueueFile];
    RecoverSettleIs(fs, s, t, pending, intent, env);
    NoEvidence(fs, s, t, pending, intent, env);
    ReceiptPlays(Chain(fs, false), Look(fs, Receipt, env(100)), t, env);
  }

  /** Before the first reservation every operation is one of these. */
  lemma EarlyApply(fs: Files, op: Op, t: string, env: Env)
    requires NeverReserved(fs)
    ensures Early(fs, op, t, env, Apply(fs, op, t, env), Script(fs, op, t, env))
  {
    hide Early, Dispatch, DispatchScript, ValidFrom, NeverReserved, Play;
    EarlyState(fs);
    EarlyNothing(fs, op, t, env, Apply(fs, op, t, env));
    var hold, release := Look(fs, Hold, env(0)), Look(fs, Release, env(1));
    if hold == Missing && release == Missing {
      EarlyDispatch(fs, op, t, Look(fs, Pending, env(3)), Look(fs, Intent, env(4)), env);
    }
  }

  // ---- what one operation does to the name ----

  /** A commit behind whatever came before it. */
  lemma CommitTells(c: DiskChain, fs: Files, original: string, next: string, env: Env)
    requires Intent !in fs && QueueFile in fs && fs[QueueFile] != next && next != ""
    requires Intent !in c.disk.files && SameQueue(fs, c.disk.files)
    requires var after := PlayDisk(c, CommitActs(original, next), env); Intent !in after.disk.files && !after.up
    ensures var after := PlayDisk(c, CommitActs(original, next), env).disk;
      if Archived(fs, after.files) then LastJournal in after.entries
      else LastJournal in after.entries <==> LastJournal in c.disk.entries
  {
    hide PlayDisk, CommitActs;
    CommitName(c, original, next, env);
  }

  lemma ShortLists(t: string)
    ensures |ClaimActs(t)| == 7 && |HoldActs(t)| == 3 && |InspectActs(t, Missing, Missing)| == 3
    ensures ClaimActs(t) == ClaimActs(t)[..6] + [ClaimActs(t)[6]] && ClaimActs(t)[6].call == Flush(Directory)
    ensures NoDirectorySync(ClaimActs(t)[..6]) && Spares(ClaimActs(t)[..6], {LastJournal})
    ensures HoldActs(t) == HoldActs(t)[..2] + [HoldActs(t)[2]] && HoldActs(t)[2].call == Flush(Directory)
    ensures NoDirectorySync(HoldActs(t)[..2]) && Spares(HoldActs(t)[..2], {LastJournal})
    ensures var a := InspectActs(t, Missing, Missing);
      && a == a[..2] + [a[2]] && a[2].call == Flush(Directory)
      && NoDirectorySync(a[..2]) && Spares(a[..2], {LastJournal}) && Quiet(a)
  {
    hide Claim, Mark;
  }

  lemma EnqueueTells(d: Disk, t: string, env: Env)
    requires QueueOk(d.files) && Intent !in d.files
    requires var fs, s := d.files, d.files[QueueFile];
      var acts := ClaimActs(t) + CommitActs(s, s + Line(t));
      && EnqueueScript(fs, t, s, env) == acts
      && Intent !in PlayDisk(DiskChain(d, true), acts, env).disk.files
    ensures var fs, s := d.files, d.files[QueueFile];
      var e, reply := PlayDisk(DiskChain(d, true), ClaimActs(t) + CommitActs(s, s + Line(t)), env).disk,
                      EnqueueTicket(fs, t, s, env).reply;
      Achieved(Enqueue, reply)
      || (if Archived(fs, e.files) then LastJournal in e.entries
          else if reply == WriteUnknown then LastJournal !in e.entries
          else LastJournal in e.entries <==> LastJournal in d.entries)
  {
    hide PlayDisk, Play, ClaimActs, CommitActs, IndexOf, ValidState, ClaimTicket, Commit;
    var fs, s, c := d.files, d.files[QueueFile], DiskChain(d, true);
    var a, b := ClaimActs(t), CommitActs(s, s + Line(t));
    DiskConcat(c, a, b, env);
    var c1 := PlayDisk(c, a, env);
    PlayDiskFiles(c, a, env);
    PlayDiskFiles(c1, b, env);
    ClaimPlays(fs, t, env);
    CommitPlays(c1.disk.files, s, s + Line(t), env);
    ShortLists(t);
    ClaimSpares(t, QueueFile);
    Spared(c, a, env, QueueFile);
    ClaimSpares(t, Intent);
    Spared(c, a, env, Intent);
    if !c1.up {
      DiskDown(c1.disk, b, env);
      FailedName(c, a[..6], a[6], env, LastJournal);
    } else {
      LastSync(c, a, env);
      if !PlayDisk(c1, b, env).up {
        CommitTells(c1, fs, s, s + Line(t), env);
      }
    }
  }

  /** Every operation before the first reservation, by what callers see of it. */
  ghost predicate Told(d: Disk, op: Op, a: Answer, e: Disk) {
    if Achieved(op, a.reply) then LastJournal !in e.entries
    else if Archived(d.files, a.files) then LastJournal in e.entries
    else if op == Enqueue && a.reply == WriteUnknown then LastJournal !in e.entries
    else LastJournal in e.entries <==> LastJournal in d.entries
  }

  lemma NothingTold(d: Disk, op: Op, a: Answer)
    requires a.files == d.files && Intent !in d.files && !Achieved(op, a.reply) && a.reply != WriteUnknown
    ensures Told(d, op, a, d)
  {
    SameQueueSelf(d.files);
  }

  lemma QuietTold(d: Disk, op: Op, a: Answer, e: Disk)
    requires Intent !in d.files && SameQueue(d.files, a.files) && a.reply != WriteUnknown && !Achieved(op, a.reply)
    requires LastJournal in e.entries <==> LastJournal in d.entries
    ensures Told(d, op, a, e)
  {
  }

  lemma InspectTold(d: Disk, t: string, env: Env, a: Answer)
    requires Intent !in d.files && a.files == d.files && a.reply != WriteUnknown && !Achieved(Inspect, a.reply)
    requires !PlayDisk(DiskChain(d, true), InspectActs(t, Missing, Missing), env).up
    ensures Told(d, Inspect, a, PlayDisk(DiskChain(d, true), InspectActs(t, Missing, Missing), env).disk)
  {
    hide PlayDisk, InspectActs, Told;
    ShortLists(t);
    var acts := InspectActs(t, Missing, Missing);
    FailedName(DiskChain(d, true), acts[..2], acts[2], env, LastJournal);
    SameQueueSelf(d.files);
    QuietTold(d, Inspect, a, PlayDisk(DiskChain(d, true), acts, env).disk);
  }

  /** No hold came of a reserve: its first call did not take effect. */
  lemma NoHold(d: Disk, t: string, env: Env)
    requires Hold !in d.files && Hold !in PlayDisk(DiskChain(d, true), HoldActs(t), env).disk.files
    ensures var after := PlayDisk(DiskChain(d, true), HoldActs(t), env);
      !after.up && after.disk.files == d.files && (LastJournal in after.disk.entries <==> LastJournal in d.entries)
  {
    hide PlayDisk, Mark;
    var c, acts := DiskChain(d, true), HoldActs(t);
    assert acts == [acts[0]] + [acts[1], acts[2]];
    ThenQuiet(c, acts[0], [acts[1], acts[2]], env);
    var c1 := c.Then(acts[0].call, env(acts[0].site));
    QuietCalls(c1, [acts[1], acts[2]], env);
    if !c1.up {
      DiskDown(c1.disk, [acts[1], acts[2]], env);
    }
  }

  lemma CancelTells(d: Disk, t: string, env: Env, i: int)
    requires QueueOk(d.files) && Intent !in d.files
    requires var s := d.files[QueueFile]; i == IndexOf(s, Line(t)) && 0 <= i && i + 65 <= |s| && i != 5
    requires var s := d.files[QueueFile];
      Intent !in PlayDisk(DiskChain(d, true), CommitActs(s, WithoutLine(s, i)), env).disk.files
    ensures var s := d.files[QueueFile];
      var e := PlayDisk(DiskChain(d, true), CommitActs(s, WithoutLine(s, i)), env).disk;
      e.files == CancelTicket(d.files, t, s, env).files && Told(d, Cancel, CancelTicket(d.files, t, s, env), e)
  {
    hide PlayDisk, Play, CommitActs, IndexOf, Line, ValidFrom, Commit;
    var s, c := d.files[QueueFile], DiskChain(d, true);
    var next := WithoutLine(s, i);
    assert |next| == |s| - 65;
    CommitPlays(d.files, s, next, env);
    PlayDiskFiles(c, CommitActs(s, next), env);
    SameQueueSelf(d.files);
    if PlayDisk(c, CommitActs(s, next), env).up {
      LastSync(c, CommitActs(s, next), env);
    } else {
      NotEmpty(s, i);
      CommitTells(c, d.files, s, next, env);
    }
  }

  lemma NotEmpty(s: string, i: nat)
    requires ValidState(s) && i + 65 <= |s|
    ensures WithoutLine(s, i) != ""
  {
    hide ValidFrom;
  }

  lemma AchievedNames(d: Disk, op: Op, t: string, env: Env)
    ensures var c := PlayDisk(DiskChain(d, true), Script(d.files, op, t, env), env);
      && c.disk.files == Apply(d.files, op, t, env).files
      && (Achieved(op, Apply(d.files, op, t, env).reply) ==> c.up && c.disk.entries == {})
  {
    hide PlayDisk, Play, Script, Apply, Succeeded;
    var c, acts := DiskChain(d, true), Script(d.files, op, t, env);
    ScriptPlays(d.files, op, t, env);
    PlayDiskFiles(c, acts, env);
    ScriptSync(d.files, op, t, env);
    if Achieved(op, Apply(d.files, op, t, env).reply) {
      LastSync(c, acts, env);
    }
  }

  lemma ApplyTells(d: Disk, op: Op, t: string, env: Env)
    requires NeverReserved(d.files)
    requires var files := Apply(d.files, op, t, env).files; NeverReserved(files) && Intent !in files
    ensures Told(d, op, Apply(d.files, op, t, env), PlayDisk(DiskChain(d, true), Script(d.files, op, t, env), env).disk)
  {
    hide PlayDisk, Play, Script, Apply, Achieved, InspectActs, HoldActs, ClaimActs, CommitActs, ArchiveActs;
    hide EnqueueTicket, EnqueueScript, CancelTicket, IndexOf, WithoutLine, ValidState, Line;
    var fs, c, a, acts := d.files, DiskChain(d, true), Apply(d.files, op, t, env), Script(d.files, op, t, env);
    var e := PlayDisk(c, acts, env);
    EarlyApply(fs, op, t, env);
    AchievedNames(d, op, t, env);
    PlayDiskFiles(c, acts, env);
    SameQueueSelf(fs);
    if Achieved(op, a.reply) {
    } else if acts == [] {
      PlayDiskNone(c, env);
      NothingTold(d, op, a);
    } else if op == Inspect {
      InspectTold(d, t, env, a);
    } else if op == Reserve {
      NoHold(d, t, env);
      QuietTold(d, op, a, e.disk);
    } else if op == Enqueue {
      EnqueueTells(d, t, env);
    } else if op == Cancel {
      CancelTells(d, t, env, IndexOf(fs[QueueFile], Line(t)));
    } else {
      RecoveryName(c, env);
    }
  }

  // ---- over runs ----

  lemma NeverIdle(w: World)
    requires Inv(w) && StageOf(w.log) == Idle([])
    ensures NeverReserved(w.files)
  {
    hide Conserved, Burned;
  }

  lemma IdleBefore(w: World, i: Invocation)
    requires StageOf(Step(w, i).log) == Idle([])
    ensures StageOf(w.log) == Idle([])
  {
    hide After, Observe, StageOf, Admissions, Removals, Reservations, Withdrawals;
    var events := Observe(i.ticket, w.files, After(w.files, i));
    OneEvent(i.ticket, w.files, After(w.files, i));
    if events == [] {
      assert w.log + events == w.log;
    } else {
      assert events == [events[0]];
      Snoc(w.log, events[0]);
      NeverLeft(StageOf(w.log), events[0]);
    }
  }

  lemma NeverLeft(stage: Stage, e: Event)
    requires Advance(stage, e) == Idle([])
    ensures stage == Idle([])
  {
  }

  /** While nothing was ever reserved and no commit is open, the archived journal's name is unsynced exactly if the
    answers and the files so far say so. */
  lemma {:induction false} LooseIff(run: seq<Invocation>)
    requires StageOf(Run(run).log) == Idle([]) && Intent !in Run(run).files
    ensures LastJournal in DiskRun(run).entries <==> JournalLoose(run)
  {
    hide PlayDisk, Script, Apply, Run, StageOf, Inv, NeverReserved, Archived, Achieved;
    if run != [] {
      var n := |run| - 1;
      var i, d, w := run[n], DiskRun(run[..n]), Run(run[..n]);
      assert run == run[..n] + [i];
      RunSnoc(run[..n], i);
      DiskSnoc(run[..n], i);
      DiskRunFiles(run[..n]);
      IdleBefore(w, i);
      RunInv(run[..n]);
      NeverIdle(w);
      RunInv(run);
      NeverIdle(Run(run));
      if Intent !in w.files {
        LooseIff(run[..n]);
      }
      if !i.busy {
        ApplyTells(d, i.op, i.ticket, i.env);
        if Intent in w.files {
          MovedAway(w.files, Apply(w.files, i.op, i.ticket, i.env).files);
        }
      }
    }
  }

  lemma MovedAway(a: Files, b: Files)
    requires Intent in a && Intent !in b
    ensures Archived(a, b)
  {
  }

  /** When `front` shows a ticket, the archived journal's name is synced if and only if something was ever reserved, or
    the answers and the files so far do not leave it loose. */
  lemma FrontJournalIff(run: seq<Invocation>, t: string, env: Env)
    requires Apply(Run(run).files, Front, t, env).reply.FrontIs?
    ensures Durable(AfterDisk(DiskRun(run), Invocation(Front, t, env, false)), LastJournal)
            <==> SettledHold in Run(run).files || !JournalLoose(run)
  {
    hide AfterDisk, DiskRun, Run, Apply, QueueOf, JournalLoose, StageOf, Inv, HistoryGuard;
    FrontIsSynced(run, t, env);
    if SettledHold !in Run(run).files {
      FrontScript(Run(run).files, t, env);
      FrontIsIdle(run, t, env);
      RunInv(run);
      NothingSettled(Run(run));
      LooseIff(run);
    }
  }

  lemma NothingSettled(w: World)
    requires Inv(w) && StageOf(w.log).Idle? && SettledHold !in w.files
    ensures StageOf(w.log) == Idle([])
  {
    hide Conserved, Burned;
  }

  // ---- a front shown over an unsynced name ----

  /** The answer of the last sync of a commit is lost. */
  const LOST_ARCHIVE: Env := (site: nat) => if site == 72 then Lost else Good

  lemma {:induction false} SameOutcomes(c: DiskChain, acts: seq<Act>, a: Env, b: Env)
    requires forall i :: 0 <= i < |acts| ==> a(acts[i].site) == b(acts[i].site)
    ensures PlayDisk(c, acts, a) == PlayDisk(c, acts, b)
    decreases |acts|
  {
    hide Touch, Acknowledged;
    if acts != [] {
      assert acts[0].site == acts[0].site;
      SameOutcomes(c.Then(acts[0].call, a(acts[0].site)), acts[1..], a, b);
    }
  }

  /** An enqueue before any reservation claims and commits, whether or not its last sync is acknowledged. */
  lemma EnqueueCalls(fs: Files, t: string) returns (next: string)
    requires Clean(fs) && SettledHold !in fs && IsTicket(t) && Used(t) !in fs && t !in QueueOf(fs) && |QueueOf(fs)| < 64
    ensures QueueFile in fs && Script(fs, Enqueue, t, CALM) == ClaimActs(t) + CommitActs(fs[QueueFile], next)
    ensures Script(fs, Enqueue, t, LOST_ARCHIVE) == Script(fs, Enqueue, t, CALM)
  {
    hide ClaimActs, CommitActs, ValidFrom, IsTicket, Decode, Encode;
    CalmState(fs);
    QueueText(fs);
    FindTicket(QueueOf(fs), t);
    EncodeValid(QueueOf(fs));
    NoHistory(fs, 10);
    next := fs[QueueFile] + Line(t);
    assert EnqueueScript(fs, t, fs[QueueFile], CALM) == ClaimActs(t) + CommitActs(fs[QueueFile], next);
    assert [] + (ClaimActs(t) + CommitActs(fs[QueueFile], next)) == ClaimActs(t) + CommitActs(fs[QueueFile], next);
  }

  /** After all calls but the last, the journal has been archived and its new name is not yet synced. */
  lemma ArchivedUnsynced(c: DiskChain, before: seq<Act>, last: Act, env: Env)
    requires before != [] && before[|before| - 1].call == Replace(Intent, LastJournal)
    requires last.call == Flush(Directory) && PlayDisk(c, before + [last], env).up
    ensures PlayDisk(c, before, env).up && LastJournal in PlayDisk(c, before, env).disk.entries
    ensures PlayDisk(c, before, env).disk.files == PlayDisk(c, before + [last], env).disk.files
  {
    hide PlayDisk;
    QuietThen(c, before, last, env);
    QuietCall(PlayDisk(c, before, env), last.call, env(last.site));
    var n := |before| - 1;
    assert before == before[..n] + [before[n]];
    QuietThen(c, before[..n], before[n], env);
  }

  lemma ActSites(t: string, original: string, next: string)
    ensures var acts := ClaimActs(t) + CommitActs(original, next);
      && |acts| == 20 && acts[18].call == Replace(Intent, LastJournal) && acts[19] == Act(Flush(Directory), 72)
      && forall i :: 0 <= i < 19 ==> acts[i].site < 72
  {
    hide Journal, Claim;
  }

  lemma LostDisk(d: Disk, t: string)
    requires d.entries == {} && Clean(d.files) && SettledHold !in d.files && IsTicket(t) && Used(t) !in d.files
    requires t !in QueueOf(d.files) && |QueueOf(d.files)| < 64
    ensures var e := AfterDisk(d, Invocation(Enqueue, t, LOST_ARCHIVE, false));
      LastJournal in e.entries && e.files == Apply(d.files, Enqueue, t, CALM).files
  {
    hide PlayDisk, Script, Apply, Play, ClaimActs, CommitActs, Clean, QueueOf, IsTicket;
    var fs, c := d.files, DiskChain(d, true);
    var files := FreshTicketEnqueues(fs, t);
    var next := EnqueueCalls(fs, t);
    var acts := ClaimActs(t) + CommitActs(fs[QueueFile], next);
    ActSites(t, fs[QueueFile], next);
    var before, last := acts[..19], acts[19];
    assert acts == before + [last];
    ScriptPlays(fs, Enqueue, t, CALM);
    PlayDiskFiles(c, acts, CALM);
    ArchivedUnsynced(c, before, last, CALM);
    SameOutcomes(c, before, CALM, LOST_ARCHIVE);
    QuietThen(c, before, last, LOST_ARCHIVE);
  }

  /** A front can be shown while the name of the archived journal is still unsynced. */
  lemma JournalUnsynced(t: string) returns (run: seq<Invocation>)
    requires IsTicket(t)
    ensures Apply(Run(run).files, Front, "", CALM).reply == FrontIs(t)
    ensures !Durable(AfterDisk(DiskRun(run), Invocation(Front, "", CALM, false)), LastJournal)
  {
    hide Apply, AfterDisk, Script, QueueOf, Clean, IsTicket, Decode;
    FreshClean();
    EmptyRun();
    var d, i := Disk(FRESH.files, {}, {}), Invocation(Enqueue, t, LOST_ARCHIVE, false);
    run := [i];
    assert [] + [i] == run;
    RunSnoc([], i);
    DiskSnoc([], i);
    var files := FreshTicketEnqueues(FRESH.files, t);
    LostDisk(d, t);
    DiskRunFiles(run);
    FrontShows(files);
    FrontIsSynced(run, "", CALM);
  }
}
