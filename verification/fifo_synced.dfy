/** What callers may rely on after a crash of the whole machine: which records are synced, over all runs. */
module FifoSynced {
  import opened FifoText
  import opened FifoStore
  import opened Fifo
  import opened FifoLog
  import opened FifoSafety
  import opened FifoRuns
  import opened FifoRecovery
  import opened FifoRetry
  import opened FifoScript
  import opened FifoDisk

  // ---- claims ----

  lemma CommitSpares(original: string, next: string, f: File)
    requires f !in {Intent, Pending, QueueFile, LastJournal}
    ensures Spares(CommitActs(original, next), {f})
  {
    hide Journal;
  }

  lemma SettleSpares(fs: Files, state: string, t: string, env: Env, f: File)
    requires |state| >= 5 && f !in {Release, SettledHold, Receipt}
    ensures Spares(SettleActs(fs, state, t, env), {f})
  {
    hide RecoverSettleActs, DequeueEvidenceActs, MoveReleaseActs, IndexOf, Moved;
    var moved := if Release in fs then Moved(fs, Release, SettledHold) else fs;
    EvidenceQuiet(state, t);
    QuietSpares(DequeueEvidenceActs(state, t), f);
    assert Spares(MoveReleaseActs(), {f}) by { MoveSpares(f); }
    ConcatSpares(DequeueEvidenceActs(state, t), MoveReleaseActs(), f);
    RecoverSettleSpares(moved, state, t, Missing, Missing, env, f);
    ConcatSpares(DequeueEvidenceActs(state, t) + MoveReleaseActs(),
                 RecoverSettleActs(moved, state, t, Missing, Missing, env), f);
  }

  lemma MoveSpares(f: File)
    requires f !in {Release, SettledHold}
    ensures Spares(MoveReleaseActs(), {f})
  {
  }

  lemma ReserveSpares(fs: Files, t: string, env: Env, f: File)
    requires f !in {Hold, Receipt, PreviousReceipt}
    ensures Spares(ReserveActs(fs, t, env), {f})
  {
    hide HistoryGuard, Mark;
    HistoryQuiet(fs, 21);
  }

  lemma ConcatSpares(a: seq<Act>, b: seq<Act>, f: File)
    requires Spares(a, {f}) && Spares(b, {f})
    ensures Spares(a + b, {f})
  {
  }

  lemma QuietSpares(acts: seq<Act>, f: File)
    requires Quiet(acts)
    ensures Spares(acts, {f})
  {
  }

  lemma EnqueueSpares(fs: Files, t: string, state: string, env: Env, f: File)
    requires f !in {Staged(t), Used(t), Intent, Pending, QueueFile, LastJournal}
    ensures Spares(EnqueueScript(fs, t, state, env), {f})
  {
    hide ClaimActs, CommitActs, IndexOf;
    ClaimSpares(t, f);
    CommitSpares(state, state + Line(t), f);
    ConcatSpares(ClaimActs(t), CommitActs(state, state + Line(t)), f);
  }

  /** Only an enqueue touches a claim, and only its own. */
  lemma IdleSparesClaims(fs: Files, op: Op, t: string, state: string, pending: Presence, intent: Presence, env: Env,
                         u: string)
    requires ValidState(state) && (op != Enqueue || u != t)
    ensures Spares(IdleScript(fs, op, t, state, pending, intent, env), {Used(u)})
  {
    hide EnqueueScript, CommitActs, ReserveActs, RecoverScript, ValidState, IsTicket, Claimed, FrontLine, IndexOf;
    hide WithoutLine;
    RecoverSpares(fs, state, pending, intent, env, Used(u));
    ReserveSpares(fs, t, env, Used(u));
    if op == Enqueue {
      EnqueueSpares(fs, t, state, env, Used(u));
    }
    var i := IndexOf(state, Line(t));
    if i >= 0 {
      CommitSpares(state, WithoutLine(state, i), Used(u));
    }
  }

  lemma RecoverSpares(fs: Files, state: string, pending: Presence, intent: Presence, env: Env, f: File)
    requires f !in {Intent, LastJournal}
    ensures Spares(RecoverScript(fs, state, pending, intent, env), {f})
  {
    hide ValidJournal, JournalOld, JournalNext, Read;
  }

  lemma ReleasedSpares(fs: Files, op: Op, t: string, state: string, pending: Presence, intent: Presence, env: Env,
                       f: File)
    requires ValidState(state) && f !in {Intent, Pending, QueueFile, LastJournal, Release, SettledHold, Receipt}
    ensures Spares(ReleasedScript(fs, op, t, state, pending, intent, env), {f})
  {
    hide RecoverScript, SettleActs, CommitActs, ValidState, IsTicket, Claimed, Read, FrontLine, AfterFront;
    StateLength(state);
    RecoverSpares(fs, state, pending, intent, env, f);
    SettleSpares(fs, state, t, env, f);
    CommitSpares(state, AfterFront(state), f);
  }

  lemma RecoverSettleSpares(fs: Files, state: string, t: string, pending: Presence, intent: Presence, env: Env, f: File)
    requires |state| >= 5 && f != Receipt
    ensures Spares(RecoverSettleActs(fs, state, t, pending, intent, env), {f})
  {
    hide RecoverSettleGuard, DequeueRecord, Mark;
  }

  lemma DispatchSparesClaims(fs: Files, op: Op, t: string, state: string, hold: Presence, release: Presence,
                             pending: Presence, intent: Presence, env: Env, u: string)
    requires ValidState(state) && (op != Enqueue || u != t)
    ensures Spares(DispatchScript(fs, op, t, state, hold, release, pending, intent, env), {Used(u)})
  {
    hide InspectScript, RecoverSettleActs, ReleasedScript, IdleScript, HistoryGuard, HistoryActs, ValidState, IsTicket;
    hide Claimed, Read, FrontLine;
    StateLength(state);
    InspectQuiet(fs, t, state, hold, release, pending, intent, env);
    RecoverSettleSpares(fs, state, t, pending, intent, env, Used(u));
    ReleasedSpares(fs, op, t, state, pending, intent, env, Used(u));
    IdleSparesClaims(fs, op, t, state, pending, intent, env, u);
    HistoryQuiet(fs, 10);
    QuietSpares(HistoryActs(fs, 10), Used(u));
    ConcatSpares(HistoryActs(fs, 10), IdleScript(fs, op, t, state, pending, intent, env), Used(u));
  }

  lemma ScriptSparesClaims(fs: Files, op: Op, t: string, env: Env, u: string)
    requires op != Enqueue || u != t
    ensures Spares(Script(fs, op, t, env), {Used(u)})
  {
    hide DispatchScript, ValidState, Read;
    var hold, release := Look(fs, Hold, env(0)), Look(fs, Release, env(1));
    var present, pending, intent := Look(fs, QueueFile, env(2)), Look(fs, Pending, env(3)), Look(fs, Intent, env(4));
    var state := if present == Found then Read(fs, QueueFile, 4165, env(5)) else "";
    if ValidState(state) {
      DispatchSparesClaims(fs, op, t, state, hold, release, pending, intent, env, u);
    }
  }

  lemma LastSync(c: DiskChain, acts: seq<Act>, env: Env)
    requires EndsInSync(acts) && PlayDisk(c, acts, env).up
    ensures PlayDisk(c, acts, env).disk.entries == {}
  {
    hide PlayDisk, Touch, Acknowledged;
    var n := |acts| - 1;
    assert acts == acts[..n] + [acts[n]];
    QuietThen(c, acts[..n], acts[n], env);
    QuietCall(PlayDisk(c, acts[..n], env), acts[n].call, env(acts[n].site));
  }

  /** A published claim is left alone; a new one has its name synced before the claim counts. */
  lemma ClaimNames(c: DiskChain, t: string, env: Env)
    ensures var after := PlayDisk(c, ClaimActs(t), env);
      && (Used(t) in c.disk.files && Used(t) in after.disk.entries ==> Used(t) in c.disk.entries)
      && (after.up ==> after.disk.entries == {})
  {
    hide PlayDisk, Touch, Claim, Acknowledged, Effect;
    var acts, s, p := ClaimActs(t), StageActs(t), Act(Publish(Staged(t), Used(t)), 44);
    var r := [Act(Flush(Used(t)), 45), Act(Holds(Used(t), 70, Claim(t)), 46), Act(Flush(Directory), 47)];
    assert acts == s + ([p] + r);
    DiskConcat(c, s, [p] + r, env);
    Spared(c, s, env, Used(t));
    var c1 := PlayDisk(c, s, env);
    ThenQuiet(c1, p, r, env);
    QuietCalls(c1.Then(p.call, env(44)), r, env);
    if Used(t) in c.disk.files {
      TakenClaim(c1, t, env(44));
    }
    if PlayDisk(c, acts, env).up {
      LastSync(c, acts, env);
    }
  }

  lemma TakenClaim(c: DiskChain, t: string, o: Outcome)
    requires Used(t) in c.disk.files
    ensures c.Then(Publish(Staged(t), Used(t)), o).disk == c.disk
  {
  }

  lemma EnqueueNames(c: DiskChain, fs: Files, t: string, state: string, env: Env)
    ensures var after := PlayDisk(c, EnqueueScript(fs, t, state, env), env).disk;
      Used(t) in after.entries ==>
        SameQueue(c.disk.files, after.files) && (Used(t) in c.disk.entries || Used(t) !in c.disk.files)
  {
    hide PlayDisk, ClaimActs, CommitActs, IndexOf;
    var a, b := ClaimActs(t), CommitActs(state, state + Line(t));
    DiskConcat(c, a, b, env);
    PlayDiskNone(c, env);
    ClaimNames(c, t, env);
    ClaimSpares(t, QueueFile);
    Spared(c, a, env, QueueFile);
    var c1 := PlayDisk(c, a, env);
    CommitSpares(state, state + Line(t), Used(t));
    Spared(c1, b, env, Used(t));
    DiskDown(c1.disk, b, env);
  }

  predicate SameQueue(a: Files, b: Files) {
    (QueueFile in b <==> QueueFile in a) && (QueueFile in b ==> b[QueueFile] == a[QueueFile])
  }

  lemma EnqueueDispatch(d: Disk, t: string, state: string, hold: Presence, release: Presence,
                        pending: Presence, intent: Presence, env: Env)
    requires ValidState(state)
    ensures var acts := DispatchScript(d.files, Enqueue, t, state, hold, release, pending, intent, env);
      var after := PlayDisk(DiskChain(d, true), acts, env).disk;
      Used(t) in after.entries ==>
        SameQueue(d.files, after.files) && (Used(t) in d.entries || Used(t) !in d.files)
  {
    hide PlayDisk, EnqueueScript, HistoryActs, HistoryGuard, ValidState, IsTicket;
    var c, h := DiskChain(d, true), HistoryActs(d.files, 10);
    HistoryQuiet(d.files, 10);
    QuietCalls(c, h, env);
    PlayDiskNone(c, env);
    var c1 := PlayDisk(c, h, env);
    PlayDiskNone(c1, env);
    DiskConcat(c, h, IdleScript(d.files, Enqueue, t, state, pending, intent, env), env);
    EnqueueNames(c1, d.files, t, state, env);
  }

  lemma EnqueueEntries(d: Disk, t: string, env: Env)
    ensures var after := PlayDisk(DiskChain(d, true), Script(d.files, Enqueue, t, env), env).disk;
      Used(t) in after.entries ==>
        SameQueue(d.files, after.files) && (Used(t) in d.entries || Used(t) !in d.files)
  {
    hide PlayDisk, DispatchScript, ValidState, Read, SameQueue;
    var fs := d.files;
    var hold, release := Look(fs, Hold, env(0)), Look(fs, Release, env(1));
    var present, pending, intent := Look(fs, QueueFile, env(2)), Look(fs, Pending, env(3)), Look(fs, Intent, env(4));
    var state := if present == Found then Read(fs, QueueFile, 4165, env(5)) else "";
    PlayDiskNone(DiskChain(d, true), env);
    SameQueueSelf(fs);
    if ValidState(state) {
      EnqueueDispatch(d, t, state, hold, release, pending, intent, env);
    }
  }

  /** The names of all claims of admitted tickets are synced. */
  ghost predicate ClaimsSynced(log: seq<Event>, d: Disk) {
    forall t :: t in Admissions(log) ==> Used(t) !in d.entries
  }

  /** An operation adds at most one event to the log. */
  lemma AddedAdmission(log: seq<Event>, events: seq<Event>, t: string)
    requires |events| <= 1 && t in Admissions(log + events)
    ensures t in Admissions(log) || events == [Admitted(t)]
  {
    if events == [] {
      assert log + events == log;
    } else {
      assert events == [events[0]];
      Snoc(log, events[0]);
    }
  }

  lemma QueueKept(t: string, a: Files, b: Files)
    requires SameQueue(a, b)
    ensures forall u :: Observe(t, a, b) != [Admitted(u)]
  {
    hide Decode;
  }

  lemma ClaimsStep(w: World, d: Disk, i: Invocation)
    requires Inv(w) && d.files == w.files && ClaimsSynced(w.log, d)
    requires AfterDisk(d, i).files == Step(w, i).files
    ensures ClaimsSynced(Step(w, i).log, AfterDisk(d, i))
  {
    hide PlayDisk, Script, Apply, Observe, StageFiles, Conserved, QueueOk, Admissions, SameQueue;
    var e, next := AfterDisk(d, i), Step(w, i);
    var events := Observe(i.ticket, w.files, next.files);
    OneEvent(i.ticket, w.files, next.files);
    forall u | u in Admissions(next.log) ensures Used(u) !in e.entries {
      AddedAdmission(w.log, events, u);
      if i.busy {
        SameQueueSelf(w.files);
        QueueKept(i.ticket, w.files, next.files);
      } else {
        ClaimStep(w, d, i, u);
      }
    }
  }

  lemma SameQueueSelf(fs: Files)
    ensures SameQueue(fs, fs)
  {
  }

  lemma OneEvent(t: string, a: Files, b: Files)
    ensures |Observe(t, a, b)| <= 1
  {
    hide Decode, Mark;
  }

  lemma ClaimStep(w: World, d: Disk, i: Invocation, u: string)
    requires Inv(w) && d.files == w.files && ClaimsSynced(w.log, d) && !i.busy
    requires AfterDisk(d, i).files == Step(w, i).files
    requires u in Admissions(w.log) || Observe(i.ticket, w.files, Step(w, i).files) == [Admitted(u)]
    ensures Used(u) !in AfterDisk(d, i).entries
  {
    hide PlayDisk, Script, Apply, Observe, StageFiles, Conserved, QueueOk, Admissions, SameQueue;
    var e, next := AfterDisk(d, i), Step(w, i);
    var events := Observe(i.ticket, w.files, next.files);
    if u !in Admissions(w.log) {
      assert next.log[|w.log|] == Admitted(u);
      AdmissionIsFresh(w, i, |w.log|);
      if SameQueue(w.files, next.files) {
        QueueKept(i.ticket, w.files, next.files);
      }
      EnqueueEntries(d, u, i.env);
    } else if i.op == Enqueue && u == i.ticket {
      EnqueueEntries(d, u, i.env);
    } else {
      ScriptSparesClaims(d.files, i.op, i.ticket, i.env, u);
      Spared(DiskChain(d, true), Script(d.files, i.op, i.ticket, i.env), i.env, Used(u));
    }
  }

  /** In every run, the claim of every admitted ticket is synced. */
  lemma {:induction false} AdmittedClaimsSynced(run: seq<Invocation>)
    ensures ClaimsSynced(Run(run).log, DiskRun(run))
    ensures forall t :: t in Admissions(Run(run).log) ==> Used(t) in DiskRun(run).files && Durable(DiskRun(run), Used(t))
  {
    hide Script, PlayDisk, Apply, Observe, Inv;
    DiskRunFiles(run);
    AlwaysSafe(run);
    RunInv(run);
    if run != [] {
      var n := |run| - 1;
      AdmittedClaimsSynced(run[..n]);
      DiskRunFiles(run[..n]);
      RunInv(run[..n]);
      assert Run(run) == Step(Run(run[..n]), run[n]);
      ClaimsStep(Run(run[..n]), DiskRun(run[..n]), run[n]);
    }
    assert Burned(Run(run).log, Run(run).files) by { BurnedNow(Run(run)); }
  }

  lemma BurnedNow(w: World)
    requires Inv(w)
    ensures Burned(w.log, w.files)
  {
  }

  // ---- lists that leave no unsynced text ----

  /** Once every call is acknowledged, `f` holds no unsynced text: it is synced, or moved away, after its last change. */
  ghost predicate Finishes(acts: seq<Act>, f: File) {
    exists k :: 0 <= k < |acts| && FinishedAt(acts, k, f)
  }

  ghost predicate FinishedAt(acts: seq<Act>, k: nat, f: File)
    requires k < |acts|
  {
    && (acts[k].call == Flush(f) || (acts[k].call.Replace? && acts[k].call.source == f))
    && Spares(acts[k + 1..], {f})
  }

  lemma FinishedText(c: DiskChain, acts: seq<Act>, env: Env, f: File)
    requires Finishes(acts, f) && f != Directory && PlayDisk(c, acts, env).up
    ensures f !in PlayDisk(c, acts, env).disk.content
  {
    hide PlayDisk, Touch, Acknowledged, Spares;
    var k :| 0 <= k < |acts| && FinishedAt(acts, k, f);
    assert acts == acts[..k] + ([acts[k]] + acts[k + 1..]);
    DiskConcat(c, acts[..k], [acts[k]] + acts[k + 1..], env);
    var c1 := PlayDisk(c, acts[..k], env);
    ThenQuiet(c1, acts[k], acts[k + 1..], env);
    var c2 := c1.Then(acts[k].call, env(acts[k].site));
    if !c2.up {
      DiskDown(c2.disk, acts[k + 1..], env);
    } else {
      FinishingCall(c1, acts[k].call, env(acts[k].site), f);
      Spared(c2, acts[k + 1..], env, f);
    }
  }

  lemma FinishingCall(c: DiskChain, call: Call, o: Outcome, f: File)
    requires call == Flush(f) || (call.Replace? && call.source == f)
    requires c.Then(call, o).up && f != Directory
    ensures f !in c.Then(call, o).disk.content
  {
  }

  lemma FinishesConcat(a: seq<Act>, b: seq<Act>, f: File)
    ensures Finishes(b, f) ==> Finishes(a + b, f)
    ensures Finishes(a, f) && Spares(b, {f}) ==> Finishes(a + b, f)
  {
    if Finishes(b, f) {
      var k :| 0 <= k < |b| && FinishedAt(b, k, f);
      assert (a + b)[|a| + k] == b[k] && (a + b)[|a| + k + 1..] == b[k + 1..];
      assert FinishedAt(a + b, |a| + k, f);
    }
    if Finishes(a, f) && Spares(b, {f}) {
      var k :| 0 <= k < |a| && FinishedAt(a, k, f);
      assert (a + b)[k + 1..] == a[k + 1..] + b;
      ConcatSpares(a[k + 1..], b, f);
      assert FinishedAt(a + b, k, f);
    }
  }

  /** The files that can hold unsynced text, staging files aside. */
  const OPEN_FILES: set<File> := {Intent, Pending, Hold, Receipt}

  /** After these calls, all acknowledged, `f` holds no unsynced text, if it held none while it was absent. */
  ghost predicate Ends(fs: Files, acts: seq<Act>, f: File) {
    Finishes(acts, f) || (Spares(acts, {f}) && f !in fs)
  }

  lemma EndsAfter(fs: Files, quiet: seq<Act>, acts: seq<Act>, f: File)
    requires Quiet(quiet) && Ends(fs, acts, f)
    ensures Ends(fs, quiet + acts, f)
  {
    hide Finishes;
    FinishesConcat(quiet, acts, f);
    QuietSpares(quiet, f);
    if Spares(acts, {f}) {
      ConcatSpares(quiet, acts, f);
    }
  }

  lemma CommitEnds(fs: Files, original: string, next: string, f: File)
    requires f in OPEN_FILES && (f == Hold || f == Receipt ==> f !in fs)
    ensures Ends(fs, CommitActs(original, next), f)
  {
    hide Journal, PrepareActs;
    var acts := CommitActs(original, next);
    var n := |acts|;
    if f == Pending {
      assert FinishedAt(acts, n - 4, f);
    } else if f == Intent {
      assert FinishedAt(acts, n - 2, f);
    } else {
      CommitSpares(original, next, f);
    }
  }

  lemma ArchiveEnds(fs: Files, f: File)
    requires f in OPEN_FILES && (f != Intent ==> f !in fs)
    ensures Ends(fs, ArchiveActs(), f)
  {
    if f == Intent {
      assert FinishedAt(ArchiveActs(), 3, f);
    }
  }

  lemma EnqueueEnds(fs: Files, t: string, state: string, env: Env, f: File)
    requires f in {Intent, Pending, Hold} && f !in fs
    ensures Ends(fs, EnqueueScript(fs, t, state, env), f)
  {
    hide ClaimActs, CommitActs, IndexOf, Finishes;
    var a, b := ClaimActs(t), CommitActs(state, state + Line(t));
    ClaimSpares(t, f);
    CommitEnds(fs, state, state + Line(t), f);
    FinishesConcat(a, b, f);
    if Spares(b, {f}) {
      ConcatSpares(a, b, f);
    }
  }

  lemma HoldEnds(t: string)
    ensures Finishes(HoldActs(t), Hold) && Spares(HoldActs(t), {Receipt})
    ensures Finishes(ConsumeActs(), Receipt) && Spares(ConsumeActs(), {Hold})
  {
    hide Mark;
    assert FinishedAt(HoldActs(t), 1, Hold);
    assert FinishedAt(ConsumeActs(), 0, Receipt);
  }

  lemma ReserveEnds(fs: Files, t: string, env: Env, f: File)
    requires f in OPEN_FILES && (f != Receipt ==> f !in fs)
    ensures if f == Receipt then Spares(ReserveActs(fs, t, env), {f}) || Finishes(ReserveActs(fs, t, env), f)
            else Ends(fs, ReserveActs(fs, t, env), f)
  {
    hide HoldActs, ConsumeActs, HistoryActs, HistoryGuard, Finishes, Spares;
    NoCallsSpare(f);
    if f == Intent || f == Pending {
      ReserveSpares(fs, t, env, f);
    } else {
      var status, h, o := Look(fs, Receipt, env(20)), HistoryActs(fs, 21), HoldActs(t);
      HistoryQuiet(fs, 21);
      QuietSpares(h, f);
      HoldEnds(t);
      var m := if status == Found then ConsumeActs() else [];
      FinishesConcat(h + m, o, f);
      FinishesConcat(h, m, f);
      if f == Receipt && status != Found {
        ConcatSpares(h, m, f);
        ConcatSpares(h + m, o, f);
      }
    }
  }

  lemma NoCallsSpare(f: File)
    ensures Spares([], {f})
  {
  }

  lemma HistoryReceipt(fs: Files, env: Env, site: nat)
    requires HistoryGuard(fs, env, site)
    ensures Receipt !in fs || Finishes(HistoryActs(fs, site), Receipt)
  {
    hide ValidMark, Read;
    if Receipt in fs {
      assert FinishedAt(HistoryActs(fs, site), 1, Receipt);
    }
  }

  lemma HistoryEnds(fs: Files, env: Env, acts: seq<Act>, f: File)
    requires HistoryGuard(fs, env, 10)
    requires if f == Receipt then Spares(acts, {f}) || Finishes(acts, f) else Ends(fs, acts, f)
    ensures Ends(fs, HistoryActs(fs, 10) + acts, f)
  {
    hide Finishes, Spares, HistoryGuard, HistoryActs;
    var h := HistoryActs(fs, 10);
    HistoryQuiet(fs, 10);
    if f != Receipt {
      EndsAfter(fs, h, acts, f);
    } else {
      HistoryReceipt(fs, env, 10);
      FinishesConcat(h, acts, f);
      QuietSpares(h, f);
      if Spares(acts, {f}) {
        ConcatSpares(h, acts, f);
      }
    }
  }

  lemma IdleEnds(fs: Files, op: Op, t: string, state: string, env: Env, f: File)
    requires ValidState(state) && f in OPEN_FILES && (f != Receipt ==> f !in fs) && op != Recover
    ensures var acts := IdleScript(fs, op, t, state, Missing, Missing, env);
      if f == Receipt then Spares(acts, {f}) || Finishes(acts, f) else Ends(fs, acts, f)
  {
    hide EnqueueScript, CommitActs, ReserveActs, ValidState, IsTicket, Claimed, FrontLine, IndexOf, WithoutLine;
    hide Finishes, Spares;
    NoCallsSpare(f);
    ReserveEnds(fs, t, env, f);
    if f == Receipt {
      EnqueueSpares(fs, t, state, env, f);
    } else {
      EnqueueEnds(fs, t, state, env, f);
    }
    var i := IndexOf(state, Line(t));
    if i >= 0 {
      CommitSpares(state, WithoutLine(state, i), Receipt);
      if f != Receipt {
        CommitEnds(fs, state, WithoutLine(state, i), f);
      }
    }
  }

  /** What a recovery that succeeded did. */
  lemma RecoveredActs(fs: Files, state: string, pending: Presence, intent: Presence, env: Env)
    requires RecoverQueue(fs, state, pending, intent, env).reply in {Recovered, Aborted}
    ensures pending == Missing && RecoverScript(fs, state, pending, intent, env) == ArchiveActs()
  {
    hide ValidJournal, JournalOld, JournalNext, Read, ArchiveIntent;
  }

  lemma RecoverSettleEnds(fs: Files, state: string, t: string, env: Env, f: File)
    requires |state| >= 5 && f in OPEN_FILES
    requires f in fs ==>
      f == Receipt && Look(fs, Receipt, env(100)) != Unknown && RecoverSettleActs(fs, state, t, Missing, Missing, env) != []
    ensures Ends(fs, RecoverSettleActs(fs, state, t, Missing, Missing, env), f)
  {
    hide RecoverSettleGuard, DequeueRecord, Mark;
    var receipt, acts := Look(fs, Receipt, env(100)), RecoverSettleActs(fs, state, t, Missing, Missing, env);
    if f == Receipt && receipt != Unknown && acts != [] {
      assert FinishedAt(acts, |acts| - 2, f);
    }
  }

  lemma SettledLooked(fs: Files, state: string, t: string, pending: Presence, intent: Presence, env: Env)
    requires |state| >= 5 && RecoverSettle(fs, state, t, pending, intent, env).reply == Settled
    ensures Look(fs, Receipt, env(100)) != Unknown && pending == Missing && intent == Missing
  {
    hide SettleEvidence, IssueReceipt;
    RecoverSettleIs(fs, state, t, pending, intent, env);
    ReceiptPlays(SettleEvidence(fs, state, t, pending, intent, env), Look(fs, Receipt, env(100)), t, env);
    if pending != Missing || intent != Missing {
      OpenSettle(fs, state, t, pending, intent, env);
    }
  }

  lemma SettleEnds(fs: Files, state: string, t: string, env: Env, f: File)
    requires |state| >= 5 && f in OPEN_FILES && f !in fs
    ensures Ends(fs, SettleActs(fs, state, t, env), f)
  {
    hide RecoverSettleActs, DequeueEvidenceActs, IndexOf, Finishes, Moved;
    var moved := if Release in fs then Moved(fs, Release, SettledHold) else fs;
    NotMoved(fs, f);
    var r := RecoverSettleActs(moved, state, t, Missing, Missing, env);
    RecoverSettleEnds(moved, state, t, env, f);
    EvidenceQuiet(state, t);
    QuietSpares(DequeueEvidenceActs(state, t), f);
    ConcatSpares(DequeueEvidenceActs(state, t), MoveReleaseActs(), f);
    FinishesConcat(DequeueEvidenceActs(state, t) + MoveReleaseActs(), r, f);
    if Spares(r, {f}) {
      ConcatSpares(DequeueEvidenceActs(state, t) + MoveReleaseActs(), r, f);
    }
  }

  lemma NotMoved(fs: Files, f: File)
    requires f in OPEN_FILES && f !in fs
    ensures Release in fs ==> f !in Moved(fs, Release, SettledHold)
  {
  }

  lemma EvidenceQuiet(state: string, t: string)
    requires |state| >= 5
    ensures Quiet(DequeueEvidenceActs(state, t))
  {
    hide DequeueRecord;
  }

  lemma ReleasedEnds(fs: Files, op: Op, t: string, state: string, pending: Presence, intent: Presence, env: Env, f: File)
    requires ValidState(state) && f in OPEN_FILES && Seen(fs, Pending, pending) && Seen(fs, Intent, intent)
    requires f == Hold || f == Receipt ==> f !in fs
    requires Achieved(op, WhileReleased(fs, op, t, state, pending, intent, env).reply)
    ensures Ends(fs, ReleasedScript(fs, op, t, state, pending, intent, env), f)
  {
    hide RecoverQueue, RecoverScript, SettleActs, SettleReleased, CommitActs, Commit, ArchiveActs, ValidState, IsTicket;
    hide Claimed, Read, FrontLine, AfterFront, Finishes, Spares;
    StateLength(state);
    if op == Recover {
      RecoverReplies(fs, state, pending, intent, env);
      RecoveredActs(fs, state, pending, intent, env);
      ArchiveEnds(fs, f);
    } else {
      SettleEnds(fs, state, t, env, f);
      CommitEnds(fs, state, AfterFront(state), f);
    }
  }

  lemma RecoverReplies(fs: Files, state: string, pending: Presence, intent: Presence, env: Env)
    requires Achieved(Recover, RecoverQueue(fs, state, pending, intent, env).reply)
    ensures RecoverQueue(fs, state, pending, intent, env).reply in {Recovered, Aborted}
  {
    hide ValidJournal, JournalOld, JournalNext, Read, ArchiveIntent;
  }

  /** While a hold or a release is in place there is no receipt. */
  lemma BusyNoReceipt(w: World)
    requires Inv(w) && (Hold in w.files || Release in w.files)
    ensures Receipt !in w.files
  {
  }

  lemma InspectEnds(w: World, t: string, state: string, hold: Presence, release: Presence, pending: Presence,
                    intent: Presence, env: Env, f: File)
    requires Inv(w) && f in OPEN_FILES && (f == Intent || f == Pending ==> f !in w.files)
    requires Seen(w.files, Hold, hold) && hold != Unknown && Seen(w.files, Release, release) && release != Unknown
    requires Achieved(Inspect, InspectTicket(w.files, t, state, hold, release, pending, intent, env))
    ensures Ends(w.files, InspectScript(w.files, t, state, hold, release, pending, intent, env), f)
  {
    hide Inv, Finishes, Spares, HistoryGuard, HistoryActs, HistoryClear, MarkerGuard, BarrierValid, IsTicket, Claimed;
    hide InspectActs, InspectSynced, IndexOf;
    var fs := w.files;
    BarrierIs(fs, state, hold, release, env);
    HistoryPlays(fs, env, 10);
    InspectQuiet(fs, t, state, hold, release, pending, intent, env);
    var acts := InspectScript(fs, t, state, hold, release, pending, intent, env);
    QuietSpares(acts, f);
    InspectHold(t, hold, release);
    if hold == Missing && release == Missing {
      QuietSpares(InspectActs(t, hold, release), f);
      HistoryEnds(fs, env, InspectActs(t, hold, release), f);
    } else {
      BusyNoReceipt(w);
      assert [] + InspectActs(t, hold, release) == InspectActs(t, hold, release);
    }
  }

  lemma InspectHold(t: string, hold: Presence, release: Presence)
    ensures hold != Missing ==> Finishes(InspectActs(t, hold, release), Hold)
    ensures Quiet(InspectActs(t, hold, release))
  {
    if hold != Missing {
      assert FinishedAt(InspectActs(t, hold, release), 2, Hold);
    }
  }

  lemma ReleaseEnds(fs: Files, f: File)
    requires f in OPEN_FILES && (f != Hold ==> f !in fs)
    ensures Ends(fs, ReleaseActs(), f)
  {
    if f == Hold {
      assert FinishedAt(ReleaseActs(), 1, f);
    }
  }

  /** Recovery while nothing is released. */
  lemma IdleRecoverEnds(fs: Files, state: string, pending: Presence, intent: Presence, env: Env, f: File)
    requires ValidState(state) && f in OPEN_FILES && Seen(fs, Pending, pending) && (f == Hold ==> f !in fs)
    requires HistoryGuard(fs, env, 10) && Achieved(Recover, RecoverQueue(fs, state, pending, intent, env).reply)
    ensures Ends(fs, HistoryActs(fs, 10) + RecoverScript(fs, state, pending, intent, env), f)
  {
    hide Finishes, HistoryGuard, HistoryActs, RecoverQueue, RecoverScript, ValidState, ArchiveActs;
    RecoverReplies(fs, state, pending, intent, env);
    RecoveredActs(fs, state, pending, intent, env);
    RecoverSpares(fs, state, pending, intent, env, Receipt);
    if f != Receipt {
      ArchiveEnds(fs, f);
    }
    HistoryEnds(fs, env, ArchiveActs(), f);
  }

  lemma DispatchEnds(w: World, op: Op, t: string, state: string, hold: Presence, release: Presence,
                     pending: Presence, intent: Presence, env: Env, f: File)
    requires Inv(w) && ValidState(state) && f in OPEN_FILES
    requires Seen(w.files, Hold, hold) && hold != Unknown && Seen(w.files, Release, release) && release != Unknown
    requires Seen(w.files, Pending, pending) && Seen(w.files, Intent, intent) && (hold != Found || release != Found)
    requires (f == Intent || f == Pending) && op != Recover ==> f !in w.files
    requires Achieved(op, Dispatch(w.files, op, t, state, hold, release, pending, intent, env).reply)
    ensures Ends(w.files, DispatchScript(w.files, op, t, state, hold, release, pending, intent, env), f)
  {
    hide Inv, Finishes, Spares, Ends, InspectTicket, InspectScript, RecoverSettle, RecoverSettleActs, WhileReleased;
    hide ReleasedScript, ReleaseActs, RecoverQueue, WhileIdle, IdleScript, HistoryGuard, HistoryActs, HistoryClear;
    hide ValidState, IsTicket, Claimed, Read, FrontLine;
    StateLength(state);
    var fs := w.files;
    if op == Inspect {
      InspectEnds(w, t, state, hold, release, pending, intent, env, f);
    } else if op == SettleRecover {
      RecoverSettleAchieved(fs, state, t, pending, intent, env);
      RecoverSettleEnds(fs, state, t, env, f);
    } else if release == Found {
      BusyNoReceipt(w);
      ReleasedEnds(fs, op, t, state, pending, intent, env, f);
    } else if op == DoRelease {
      if hold == Found {
        BusyNoReceipt(w);
        ReleaseEnds(fs, f);
      }
    } else {
      HistoryPlays(fs, env, 10);
      if op == Recover {
        RecoverIdle(fs, t, state, pending, intent, env);
        IdleRecoverEnds(fs, state, pending, intent, env, f);
      } else {
        IdleAchieved(fs, op, t, state, pending, intent, env);
        IdleEnds(fs, op, t, state, env, f);
        HistoryEnds(fs, env, IdleScript(fs, op, t, state, Missing, Missing, env), f);
      }
    }
  }

  lemma RecoverSettleAchieved(fs: Files, state: string, t: string, pending: Presence, intent: Presence, env: Env)
    requires |state| >= 5 && Achieved(SettleRecover, RecoverSettle(fs, state, t, pending, intent, env).reply)
    ensures Look(fs, Receipt, env(100)) != Unknown && pending == Missing && intent == Missing
    ensures RecoverSettleActs(fs, state, t, pending, intent, env) != []
  {
    hide SettleEvidence, RecoverSettleActs, Play;
    RecoverSettleAgrees(fs, SettleRecover, state, t, pending, intent, env);
    SettledLooked(fs, state, t, pending, intent, env);
  }

  lemma RecoverIdle(fs: Files, t: string, state: string, pending: Presence, intent: Presence, env: Env)
    requires ValidState(state)
    ensures WhileIdle(fs, Recover, t, state, pending, intent, env) == RecoverQueue(fs, state, pending, intent, env)
    ensures IdleScript(fs, Recover, t, state, pending, intent, env) == RecoverScript(fs, state, pending, intent, env)
  {
    hide RecoverQueue, RecoverScript;
  }

  lemma IdleAchieved(fs: Files, op: Op, t: string, state: string, pending: Presence, intent: Presence, env: Env)
    requires ValidState(state) && op != Recover
    requires Achieved(op, WhileIdle(fs, op, t, state, pending, intent, env).reply)
    ensures pending == Missing && intent == Missing
  {
    hide RecoverQueue, ReserveFront, EnqueueTicket, CancelTicket, ValidState, IsTicket, FrontLine;
  }

  lemma ScriptEnds(w: World, op: Op, t: string, env: Env, f: File)
    requires Inv(w) && f in OPEN_FILES && Achieved(op, Apply(w.files, op, t, env).reply)
    ensures Ends(w.files, Script(w.files, op, t, env), f)
  {
    hide Inv, Finishes, Spares, Dispatch, DispatchScript, ValidState, Read;
    var fs := w.files;
    if op != Recover && (Intent in fs || Pending in fs) {
      OpenCommitBlocks(fs, op, t, env);
    }
    var hold, release := Look(fs, Hold, env(0)), Look(fs, Release, env(1));
    var present, pending, intent := Look(fs, QueueFile, env(2)), Look(fs, Pending, env(3)), Look(fs, Intent, env(4));
    var state := if present == Found then Read(fs, QueueFile, 4165, env(5)) else "";
    DispatchEnds(w, op, t, state, hold, release, pending, intent, env, f);
  }

  // ---- lists that end by syncing the directory ----

  lemma SyncConcat(a: seq<Act>, b: seq<Act>)
    requires EndsInSync(b)
    ensures EndsInSync(a + b)
  {
  }

  lemma HistorySync(fs: Files, site: nat)
    ensures HistoryActs(fs, site) == [] || EndsInSync(HistoryActs(fs, site))
    ensures SettledHold in fs ==> HistoryActs(fs, site) != []
  {
  }

  lemma RecoverSettleSync(fs: Files, state: string, t: string, pending: Presence, intent: Presence, env: Env)
    requires |state| >= 5
    ensures var acts := RecoverSettleActs(fs, state, t, pending, intent, env); acts == [] || EndsInSync(acts)
  {
    hide RecoverSettleGuard, EvidenceActs;
    var r := ReceiptActs(Look(fs, Receipt, env(100)), t);
    if r == [] {
      assert EvidenceActs(state, t) + r == EvidenceActs(state, t);
    }
  }

  lemma SettleSync(fs: Files, state: string, t: string, env: Env)
    requires |state| >= 5
    ensures SettleActs(fs, state, t, env) == [] || EndsInSync(SettleActs(fs, state, t, env))
  {
    hide DequeueEvidenceActs, RecoverSettleActs, IndexOf, MoveReleaseActs;
    var moved := if Release in fs then Moved(fs, Release, SettledHold) else fs;
    var a := DequeueEvidenceActs(state, t) + MoveReleaseActs();
    var r := RecoverSettleActs(moved, state, t, Missing, Missing, env);
    RecoverSettleSync(moved, state, t, Missing, Missing, env);
    SyncConcat(DequeueEvidenceActs(state, t), MoveReleaseActs());
    if r == [] {
      assert a + r == a;
    } else {
      SyncConcat(a, r);
    }
  }

  lemma ReserveSync(fs: Files, t: string, env: Env)
    ensures ReserveActs(fs, t, env) == [] || EndsInSync(ReserveActs(fs, t, env))
  {
    hide HistoryGuard, HistoryActs, ConsumeActs, HoldActs;
    HistorySync(fs, 21);
    var m := if Look(fs, Receipt, env(20)) == Found then ConsumeActs() else [];
    SyncConcat(HistoryActs(fs, 21) + m, HoldActs(t));
  }

  lemma InspectSync(fs: Files, t: string, state: string, hold: Presence, release: Presence, pending: Presence,
                    intent: Presence, env: Env)
    ensures var acts := InspectScript(fs, t, state, hold, release, pending, intent, env);
      acts == [] || EndsInSync(acts)
  {
    hide HistoryGuard, HistoryActs, MarkerGuard, IsTicket, Claimed, InspectActs;
    HistorySync(fs, 10);
    var h := if hold == Missing && release == Missing then HistoryActs(fs, 10) else [];
    SyncConcat(h, InspectActs(t, hold, release));
    assert h + [] == h;
  }

  lemma IdleSync(fs: Files, op: Op, t: string, state: string, pending: Presence, intent: Presence, env: Env)
    requires ValidState(state)
    ensures var acts := IdleScript(fs, op, t, state, pending, intent, env); acts == [] || EndsInSync(acts)
  {
    hide CommitActs, ClaimActs, ReserveActs, ArchiveActs, ValidState, IsTicket, Claimed, FrontLine, IndexOf, WithoutLine;
    hide ValidJournal, JournalOld, JournalNext, Read, Line;
    ReserveSync(fs, t, env);
    SyncConcat(ClaimActs(t), CommitActs(state, state + Line(t)));
  }

  lemma ReleasedSync(fs: Files, op: Op, t: string, state: string, pending: Presence, intent: Presence, env: Env)
    requires ValidState(state)
    ensures var acts := ReleasedScript(fs, op, t, state, pending, intent, env); acts == [] || EndsInSync(acts)
  {
    hide SettleActs, CommitActs, ArchiveActs, ValidState, IsTicket, Claimed, Read, FrontLine, AfterFront;
    hide ValidJournal, JournalOld, JournalNext;
    StateLength(state);
    SettleSync(fs, state, t, env);
  }

  lemma DispatchSync(fs: Files, op: Op, t: string, state: string, hold: Presence, release: Presence,
                     pending: Presence, intent: Presence, env: Env)
    requires ValidState(state)
    ensures var acts := DispatchScript(fs, op, t, state, hold, release, pending, intent, env);
      acts == [] || EndsInSync(acts)
  {
    hide InspectScript, RecoverSettleActs, ReleasedScript, IdleScript, HistoryGuard, HistoryActs, ReleaseActs;
    hide ValidState, IsTicket, Claimed, Read, FrontLine;
    StateLength(state);
    InspectSync(fs, t, state, hold, release, pending, intent, env);
    RecoverSettleSync(fs, state, t, pending, intent, env);
    ReleasedSync(fs, op, t, state, pending, intent, env);
    IdleSync(fs, op, t, state, pending, intent, env);
    HistorySync(fs, 10);
    var x := IdleScript(fs, op, t, state, pending, intent, env);
    if x == [] {
      assert HistoryActs(fs, 10) + x == HistoryActs(fs, 10);
    } else {
      SyncConcat(HistoryActs(fs, 10), x);
    }
  }

  lemma ScriptSync(fs: Files, op: Op, t: string, env: Env)
    ensures Script(fs, op, t, env) == [] || EndsInSync(Script(fs, op, t, env))
  {
    hide DispatchScript, ValidState, Read;
    var hold, release := Look(fs, Hold, env(0)), Look(fs, Release, env(1));
    var present, pending, intent := Look(fs, QueueFile, env(2)), Look(fs, Pending, env(3)), Look(fs, Intent, env(4));
    var state := if present == Found then Read(fs, QueueFile, 4165, env(5)) else "";
    if ValidState(state) {
      DispatchSync(fs, op, t, state, hold, release, pending, intent, env);
    }
  }

  // ---- what callers may rely on ----

  /** Everything but the text of staging files is synced. */
  ghost predicate AllSynced(d: Disk) {
    d.entries == {} && forall f :: f in d.content ==> f.Staged?
  }

  lemma ContentStaged(d: Disk)
    requires Safe(d) && d.content !! OPEN_FILES
    ensures forall f :: f in d.content ==> f.Staged?
  {
  }

  lemma EndsText(d: Disk, acts: seq<Act>, env: Env, f: File)
    requires Safe(d) && f in OPEN_FILES && Ends(d.files, acts, f) && PlayDisk(DiskChain(d, true), acts, env).up
    ensures f !in PlayDisk(DiskChain(d, true), acts, env).disk.content
  {
    hide PlayDisk, Finishes, Spares;
    if Finishes(acts, f) {
      FinishedText(DiskChain(d, true), acts, env, f);
    } else {
      Spared(DiskChain(d, true), acts, env, f);
    }
  }

  /** Once an operation has answered that it did what was asked, everything in the directory but staging files is
    synced: queue, claims, journals, markers and receipts. */
  lemma AchievedIsSynced(run: seq<Invocation>, i: Invocation)
    requires !i.busy && Achieved(i.op, Apply(Run(run).files, i.op, i.ticket, i.env).reply)
    ensures AllSynced(DiskRun(run + [i]))
  {
    hide PlayDisk, Script, Apply, Inv, Safe, Ends, Play;
    var w, d := Run(run), DiskRun(run);
    RunInv(run);
    DiskRunFiles(run);
    AlwaysSafe(run);
    RunSnoc(run, i);
    DiskSnoc(run, i);
    var c, acts := DiskChain(d, true), Script(d.files, i.op, i.ticket, i.env);
    ScriptPlays(d.files, i.op, i.ticket, i.env);
    PlayDiskFiles(c, acts, i.env);
    ScriptSync(d.files, i.op, i.ticket, i.env);
    LastSync(c, acts, i.env);
    var e := PlayDisk(c, acts, i.env).disk;
    forall f | f in OPEN_FILES ensures f !in e.content {
      ScriptEnds(w, i.op, i.ticket, i.env, f);
      EndsText(d, acts, i.env, f);
    }
    ScriptSafe(d, i.op, i.ticket, i.env);
    ContentStaged(e);
  }

  /** The machine loses power: whatever was not synced may come back in any state, and nothing else changes. */
  ghost predicate PowerLoss(d: Disk, after: Files) {
    Same(d.files, after, d.content + d.entries)
  }

  /** What an operation answered that it did outlives a loss of power. */
  lemma AchievedSurvives(run: seq<Invocation>, i: Invocation, after: Files)
    requires !i.busy && Achieved(i.op, Apply(Run(run).files, i.op, i.ticket, i.env).reply)
    requires PowerLoss(DiskRun(run + [i]), after)
    ensures var files := Run(run + [i]).files;
      forall f: File :: !f.Staged? ==> (f in after <==> f in files) && (f in after ==> after[f] == files[f])
  {
    hide DiskRun, Run, Apply;
    AchievedIsSynced(run, i);
    DiskRunFiles(run + [i]);
  }

  /** A loss of power either leaves the queue as it was or, while a change of it was on its way, leaves the journal of
    that change as it was. */
  lemma OpenChangeSurvives(run: seq<Invocation>, after: Files)
    requires PowerLoss(DiskRun(run), after)
    ensures var files := Run(run).files;
      && QueueFile in files
      && (|| (QueueFile in after && after[QueueFile] == files[QueueFile] && Pending !in files)
          || (Intent in files && Intent in after && after[Intent] == files[Intent]))
  {
    hide DiskRun, Run, Inv;
    AlwaysSafe(run);
    DiskRunFiles(run);
    RunInv(run);
    QueueThere(Run(run));
  }

  lemma QueueThere(w: World)
    requires Inv(w)
    ensures QueueFile in w.files
  {
  }

  /** A hold, whole or torn, stands on a synced queue, synced claims and the synced history of the reservation before:
    its settled marker, its receipt moved aside, and the archived journal. A receipt stands on a synced settled marker. */
  lemma StandsOnSynced(run: seq<Invocation>)
    ensures var w, d := Run(run), DiskRun(run);
      && (Hold in w.files ==>
            && Durable(d, QueueFile) && Durable(d, SettledHold) && Durable(d, PreviousReceipt)
            && (SettledHold in w.files ==> Durable(d, LastJournal))
            && forall t :: t in QueueOf(w.files) ==> Durable(d, Used(t)))
      && (Receipt in w.files ==> Durable(d, SettledHold))
  {
    hide Safe, Inv, Durable, Run, DiskRun, QueueOf;
    AlwaysSafe(run);
    DiskRunFiles(run);
    SafeStands(DiskRun(run));
    WaitingClaims(run);
  }

  lemma SafeStands(d: Disk)
    requires Safe(d)
    ensures Hold in d.files ==> Durable(d, QueueFile) && Durable(d, SettledHold) && Durable(d, PreviousReceipt)
    ensures Hold in d.files && SettledHold in d.files ==> Durable(d, LastJournal)
    ensures Receipt in d.files ==> Durable(d, SettledHold)
    ensures Intent !in d.files ==> Durable(d, QueueFile)
  {
  }

  /** Every waiting ticket was admitted, so its claim is synced. */
  lemma WaitingClaims(run: seq<Invocation>)
    ensures forall t :: t in QueueOf(Run(run).files) ==> Durable(DiskRun(run), Used(t))
  {
    hide Durable, Run, DiskRun, QueueOf;
    AdmittedOnceAndKept(run);
    AdmittedClaimsSynced(run);
    var w := Run(run);
    KeptIn(Admissions(w.log), Withdrawals(w.log));
    forall t | t in QueueOf(w.files) ensures t in Admissions(w.log) {
      assert t in Removals(w.log) + QueueOf(w.files);
    }
  }

  // ---- front ----

  lemma FrontScript(fs: Files, t: string, env: Env)
    requires Apply(fs, Front, t, env).reply.FrontIs?
    ensures Script(fs, Front, t, env) == HistoryActs(fs, 10)
    ensures HistoryGuard(fs, env, 10) && Hold !in fs && Intent !in fs && Pending !in fs
  {
    hide HistoryActs, HistoryGuard, ValidState, FrontLine, HistoryClear, Read, Play, InspectTicket, RecoverSettle;
    hide RecoverQueue, ReserveFront, EnqueueTicket, CancelTicket, ReleaseHold;
    HistoryPlays(fs, env, 10);
    assert HistoryActs(fs, 10) + [] == HistoryActs(fs, 10);
    if Intent in fs || Pending in fs {
      OpenCommitBlocks(fs, Front, t, env);
    }
  }

  /** When `front` shows a ticket, the queue, the claim of every waiting ticket, and all text but that of staging files
    are synced. Once anything was ever reserved, so is the whole directory, and with it the settled marker and the
    receipt of the last reservation; before that, `front` syncs nothing. */
  lemma FrontIsSynced(run: seq<Invocation>, t: string, env: Env)
    requires Apply(Run(run).files, Front, t, env).reply.FrontIs?
    ensures var w, d := Run(run), DiskRun(run);
      var e := AfterDisk(d, Invocation(Front, t, env, false));
      && Durable(e, QueueFile) && (forall u :: u in QueueOf(w.files) ==> Durable(e, Used(u)))
      && (forall f :: f in e.content ==> f.Staged?)
      && e.entries == if SettledHold in w.files then {} else d.entries
  {
    hide PlayDisk, Apply, Script, Safe, HistoryGuard, HistoryActs, Run, DiskRun, QueueOf;
    var w, d := Run(run), DiskRun(run);
    var c, acts := DiskChain(d, true), HistoryActs(w.files, 10);
    DiskRunFiles(run);
    AlwaysSafe(run);
    WaitingClaims(run);
    FrontScript(w.files, t, env);
    HistoryQuiet(w.files, 10);
    QuietCalls(c, acts, env);
    QuietSafe(c, acts, env);
    var e := PlayDisk(c, acts, env).disk;
    SafeStands(e);
    ScriptPlays(w.files, Front, t, env);
    PlayDiskFiles(c, acts, env);
    forall f | f in OPEN_FILES ensures f !in e.content {
      NoCallsSpare(f);
      HistoryEnds(w.files, env, [], f);
      assert acts + [] == acts;
      EndsText(d, acts, env, f);
    }
    ContentStaged(e);
    HistorySync(w.files, 10);
    if SettledHold in w.files {
      LastSync(c, acts, env);
    } else {
      NoHistory(w.files, 10);
      PlayDiskNone(c, env);
    }
  }

  lemma NoHistory(fs: Files, site: nat)
    requires SettledHold !in fs
    ensures HistoryActs(fs, site) == []
  {
  }
}
