/** Retrying after an interruption: what `recover` does for every interrupted commit when the file system answers
  well, and what a claim rules out for ever after. */
module FifoRetry {
  import opened FifoText
  import opened FifoStore
  import opened Fifo
  import opened FifoLog
  import opened FifoCommit
  import opened FifoLeaves
  import opened FifoSafety
  import opened FifoRuns
  import opened FifoRecovery
  import opened FifoProgress

  // ---- recovery ----

  lemma StateAscii(s: string)
    requires ValidState(s)
    ensures Ascii(s)
  {
    ValidIffQueue(s);
    AsciiQueue(Decode(s));
  }

  lemma CutJournal(j: string, cut: nat)
    requires 5 <= cut && cut + 5 <= |j| && j[..5] == "RGI1\n" && j[cut..cut + 5] == "NEXT\n"
    ensures j == Journal(j[5..cut], j[cut + 5..])
  {
    assert j == j[..5] + j[5..cut] + j[cut..cut + 5] + j[cut + 5..];
  }

  /** A valid journal is exactly the text written for its own two halves. */
  lemma JournalParts(j: string)
    requires ValidJournal(j)
    ensures j == Journal(JournalOld(j), JournalNext(j)) && ValidState(JournalOld(j)) && ValidState(JournalNext(j))
  {
    hide ValidFrom;
    CutJournal(j, IndexOf(j, "NEXT\n"));
  }

  lemma JournalAscii(j: string)
    requires ValidJournal(j)
    ensures Ascii(j)
  {
    hide ValidState, IsTransition, JournalOld, JournalNext;
    JournalParts(j);
    StateAscii(JournalOld(j));
    StateAscii(JournalNext(j));
    AsciiJournal(JournalOld(j), JournalNext(j));
  }

  lemma CalmArchive(fs: Files)
    requires QueueFile in fs && Intent in fs
    ensures ArchiveIntent(fs, CALM) == Chain(Moved(fs, Intent, LastJournal), true)
  {
  }

  /** Nothing half-written, and a journal that describes one change to or from the present queue. */
  ghost predicate Recoverable(fs: Files)
    requires QueueOk(fs)
  {
    && Pending !in fs && Intent in fs && ValidJournal(fs[Intent])
    && (fs[QueueFile] == JournalNext(fs[Intent]) || fs[QueueFile] == JournalOld(fs[Intent]))
  }

  lemma RecoverBranch(fs: Files)
    requires QueueOk(fs) && Recoverable(fs)
    ensures RecoverQueue(fs, fs[QueueFile], Missing, Found, CALM)
            == Answer(Moved(fs, Intent, LastJournal),
                      if fs[QueueFile] == JournalNext(fs[Intent]) then Recovered else Aborted)
  {
    hide ValidState, IsTransition, JournalOld, JournalNext, ArchiveIntent;
    JournalAscii(fs[Intent]);
    ReadsBack(fs, Intent, 8340);
    CalmArchive(fs);
  }

  ghost predicate Unreserved(fs: Files) {
    Hold !in fs && (Release in fs || HistoryClear(fs, CALM, 10))
  }

  lemma RecoverGate(fs: Files)
    requires QueueOk(fs)
    ensures var a := Apply(fs, Recover, "", CALM);
      if Unreserved(fs)
      then a == RecoverQueue(fs, fs[QueueFile], Look(fs, Pending, Good), Look(fs, Intent, Good), CALM)
      else a.files == fs && (a.reply == ReservationHeld || a.reply == ReservationUnknown)
  {
    hide RecoverQueue, HistoryClear, ValidFrom;
    CalmState(fs);
  }

  lemma RecoverAnswers(fs: Files)
    requires QueueOk(fs)
    ensures var reply := RecoverQueue(fs, fs[QueueFile], Look(fs, Pending, Good), Look(fs, Intent, Good), CALM).reply;
      (reply == Recovered <==> Recoverable(fs) && fs[QueueFile] == JournalNext(fs[Intent]))
      && (reply == Aborted <==> Recoverable(fs) && fs[QueueFile] != JournalNext(fs[Intent]))
  {
    hide ValidState, IsTransition, JournalOld, JournalNext, ArchiveIntent;
    if Recoverable(fs) {
      RecoverBranch(fs);
    } else {
      RecoverGuards(fs, fs[QueueFile], Look(fs, Pending, Good), Look(fs, Intent, Good), CALM);
    }
  }

  /** With a well-behaved file system, recovery succeeds exactly when no reservation is in the way, nothing is half
    written, and the journal records one change to or from the present queue; it answers by the side it is on. */
  lemma RecoverIff(fs: Files)
    requires QueueOk(fs)
    ensures var reply := Apply(fs, Recover, "", CALM).reply;
      && (reply == Recovered
          <==> Unreserved(fs) && Recoverable(fs) && fs[QueueFile] == JournalNext(fs[Intent]))
      && (reply == Aborted
          <==> Unreserved(fs) && Recoverable(fs) && fs[QueueFile] != JournalNext(fs[Intent]))
  {
    hide Apply, RecoverQueue, Unreserved, Recoverable;
    RecoverGate(fs);
    RecoverAnswers(fs);
  }

  /** The journal recovery needs is whole whenever the queue was renamed, and archiving it leaves exactly the files of
    a commit that was never interrupted. */
  lemma RenamedRecovers(fs: Files, q: seq<string>, next: seq<string>, left: Files)
    requires Queue(q) && Queue(next) && (Appends(q, next) || Drops(q, next))
    requires Intent !in fs && Pending !in fs && Renamed(fs, left, Encode(q), Encode(next)) && Unreserved(left)
    ensures Apply(left, Recover, "", CALM) == Answer(Moved(left, Intent, LastJournal), Recovered)
    ensures Committed(fs, Moved(left, Intent, LastJournal), Encode(q), Encode(next))
  {
    hide Apply, RecoverQueue, Unreserved, ValidFrom, ValidJournal;
    EncodeValid(next);
    JournalDecodes(q, Encode(next));
    JournalRoundTrip(q, next);
    assert Recoverable(left);
    RecoverGate(left);
    RecoverBranch(left);
    ArchiveStep(fs, left, Encode(q), Encode(next));
  }

  /** A commit interrupted after its journal was written whole, and before anything else, is aborted: apart from the
    archived journal the files are as they were. */
  lemma JournalledAborts(fs: Files, q: seq<string>, next: seq<string>, left: Files)
    requires Queue(q) && Queue(next) && (Appends(q, next) || Drops(q, next))
    requires QueueFile in fs && fs[QueueFile] == Encode(q) && Intent !in fs && Pending !in fs
    requires left == fs[Intent := Journal(Encode(q), Encode(next))] && Unreserved(left)
    ensures Apply(left, Recover, "", CALM) == Answer(Moved(left, Intent, LastJournal), Aborted)
    ensures Same(fs, Moved(left, Intent, LastJournal), {LastJournal})
  {
    hide Apply, RecoverQueue, Unreserved, ValidFrom, ValidJournal;
    EncodeValid(q);
    EncodeValid(next);
    JournalDecodes(q, Encode(next));
    JournalRoundTrip(q, next);
    assert Recoverable(left);
    RecoverGate(left);
    RecoverBranch(left);
  }

  // ---- inspection ----

  lemma InspectBranches(fs: Files, t: string, hold: Presence, release: Presence, pending: Presence, intent: Presence,
                        env: Env)
    requires QueueOk(fs)
    ensures var reply := InspectTicket(fs, t, fs[QueueFile], hold, release, pending, intent, env);
      reply == ClaimQueued || reply == ClaimRecorded ==>
        && IsTicket(t) && pending == Missing && intent == Missing && Claimed(fs, t, env(162))
        && BarrierValid(fs, fs[QueueFile], hold, release, env)
        && (reply == ClaimQueued <==> IndexOf(fs[QueueFile], Line(t)) >= 0)
  {
    hide BarrierValid, InspectSynced, ValidFrom;
  }

  /** What `inspect` reports is so: the ticket's claim is published, it is in the queue or not, and no commit is open. */
  lemma InspectTells(fs: Files, t: string, env: Env)
    ensures Apply(fs, Inspect, t, env).files == fs
    ensures var reply := Apply(fs, Inspect, t, env).reply;
      reply == ClaimQueued || reply == ClaimRecorded ==>
        && Pending !in fs && Intent !in fs && IsTicket(t) && Used(t) in fs && fs[Used(t)] == Claim(t)
        && (reply == ClaimQueued <==> t in QueueOf(fs))
  {
    hide InspectTicket, ValidFrom, BarrierValid, IndexOf, Claim;
    if QueueOk(fs) {
      InspectBranches(fs, t, Look(fs, Hold, env(0)), Look(fs, Release, env(1)), Look(fs, Pending, env(3)),
                      Look(fs, Intent, env(4)), env);
      QueueText(fs);
      if IsTicket(t) {
        FindTicket(QueueOf(fs), t);
        ClaimText(t);
      }
    }
  }

  lemma ClaimText(t: string)
    ensures Claim(t) != ""
  {
  }

  // ---- claims ----

  ghost predicate ClaimsKept(a: Files, b: Files) {
    forall u :: Used(u) in a ==> Used(u) in b && b[Used(u)] == a[Used(u)]
  }

  lemma QueueTextAfter(fs: Files, original: string, next: string, env: Env)
    requires QueueFile in fs && fs[QueueFile] == original
    ensures var files := Commit(fs, original, next, env).files;
      QueueFile in files && (files[QueueFile] == original || files[QueueFile] == next) && ClaimsKept(fs, files)
  {
    hide Commit, Journal, IsPrefix;
    CommitLeaves(fs, original, next, env);
  }

  lemma EnqueueGrowth(fs: Files, t: string, env: Env)
    requires QueueOk(fs) && IsTicket(t)
    ensures var files := EnqueueTicket(fs, t, fs[QueueFile], env).files;
      && QueueFile in files && ClaimsKept(fs, files)
      && (files[QueueFile] == fs[QueueFile]
          || (files[QueueFile] == fs[QueueFile] + Line(t) && Used(t) !in fs && Used(t) in files))
  {
    hide ClaimTicket, Commit, ValidState;
    var claim := ClaimTicket(fs, t, env);
    ClaimLeaves(fs, t, env);
    if claim.refusal == [] {
      QueueTextAfter(claim.files, fs[QueueFile], fs[QueueFile] + Line(t), env);
      CommitLeaves(claim.files, fs[QueueFile], fs[QueueFile] + Line(t), env);
    }
  }

  /** What any operation does to the queue text and the claims: claims stay, and the text grows only by the ticket of
    an enqueue that published a new claim for it. */
  ghost predicate Grows(fs: Files, files: Files, op: Op, t: string)
    requires QueueFile in fs
  {
    && QueueFile in files && ClaimsKept(fs, files)
    && (|| |files[QueueFile]| <= |fs[QueueFile]|
        || (&& op == Enqueue && IsTicket(t) && Used(t) !in fs && Used(t) in files
            && files[QueueFile] == fs[QueueFile] + Line(t)))
  }

  lemma RemoveGrowth(fs: Files, op: Op, t: string, env: Env)
    requires QueueOk(fs)
    ensures Grows(fs, RemoveFront(fs, fs[QueueFile], t, env).files, op, t)
  {
    hide Commit;
    QueueTextAfter(fs, fs[QueueFile], AfterFront(fs[QueueFile]), env);
  }

  lemma CancelGrowth(fs: Files, op: Op, t: string, env: Env)
    requires QueueOk(fs)
    ensures Grows(fs, CancelTicket(fs, t, fs[QueueFile], env).files, op, t)
  {
    hide Commit;
    var i := IndexOf(fs[QueueFile], Line(t));
    if i >= 0 {
      QueueTextAfter(fs, fs[QueueFile], WithoutLine(fs[QueueFile], i), env);
    }
  }

  lemma RecoverGrowth(fs: Files, op: Op, t: string, pending: Presence, intent: Presence, env: Env)
    requires QueueOk(fs)
    ensures Grows(fs, RecoverQueue(fs, fs[QueueFile], pending, intent, env).files, op, t)
  {
    hide RecoverQueue;
    RecoverLeaves(fs, fs[QueueFile], pending, intent, env);
  }

  lemma SettleGrowth(fs: Files, op: Op, t: string, env: Env)
    requires QueueOk(fs) && Pending !in fs && Intent !in fs
    ensures Grows(fs, SettleReleased(fs, fs[QueueFile], t, Missing, Missing, env).files, op, t)
  {
    hide SettleReleased, SettleReady, DequeueRecord;
    SettleLeaves(fs, t, Missing, Missing, env);
  }

  lemma ReleasedGrowth(fs: Files, op: Op, t: string, pending: Presence, intent: Presence, env: Env)
    requires QueueOk(fs) && Seen(fs, Pending, pending) && Seen(fs, Intent, intent)
    ensures Grows(fs, WhileReleased(fs, op, t, fs[QueueFile], pending, intent, env).files, op, t)
  {
    hide WhileReleased, SettleReleased, RemoveFront, RecoverQueue, ValidFrom;
    ReleasedBranches(fs, op, t, pending, intent, env);
    RecoverGrowth(fs, op, t, pending, intent, env);
    RemoveGrowth(fs, op, t, env);
    if pending == Missing && intent == Missing {
      SettleGrowth(fs, op, t, env);
    }
  }

  lemma ReserveGrowth(fs: Files, op: Op, t: string, env: Env)
    requires QueueOk(fs)
    ensures Grows(fs, ReserveFront(fs, t, fs[QueueFile], env).files, op, t)
  {
    hide ReserveFront;
    ReserveLeaves(fs, t, env);
  }

  lemma IdleGrowth(fs: Files, op: Op, t: string, pending: Presence, intent: Presence, env: Env)
    requires QueueOk(fs)
    ensures Grows(fs, WhileIdle(fs, op, t, fs[QueueFile], pending, intent, env).files, op, t)
  {
    hide ReserveFront, EnqueueTicket, CancelTicket, RecoverQueue, ValidFrom;
    RecoverGrowth(fs, op, t, pending, intent, env);
    ReserveGrowth(fs, op, t, env);
    CancelGrowth(fs, op, t, env);
    if IsTicket(t) {
      EnqueueGrowth(fs, t, env);
    }
  }

  lemma DispatchGrowth(fs: Files, op: Op, t: string, hold: Presence, release: Presence, pending: Presence,
                       intent: Presence, env: Env)
    requires QueueOk(fs) && Seen(fs, Pending, pending) && Seen(fs, Intent, intent)
    ensures Grows(fs, Dispatch(fs, op, t, fs[QueueFile], hold, release, pending, intent, env).files, op, t)
  {
    hide WhileReleased, WhileIdle, RecoverSettle, ReleaseHold, HistoryClear, InspectTicket, ValidFrom, SettleReady;
    ReleasedGrowth(fs, op, t, pending, intent, env);
    IdleGrowth(fs, op, t, pending, intent, env);
    ReleaseLeaves(fs, t, hold, pending, intent, env);
    RecoverSettleLeaves(fs, t, pending, intent, env);
  }

  lemma ApplyGrowth(fs: Files, op: Op, t: string, env: Env)
    requires QueueOk(fs)
    ensures Grows(fs, Apply(fs, op, t, env).files, op, t)
  {
    hide Dispatch, ValidFrom;
    DispatchGrowth(fs, op, t, Look(fs, Hold, env(0)), Look(fs, Release, env(1)), Look(fs, Pending, env(3)),
                   Look(fs, Intent, env(4)), env);
  }

  lemma GrownQueue(a: Files, b: Files, op: Op, t: string)
    requires QueueOk(a) && QueueOk(b) && Grows(a, b, op, t) && |QueueOf(b)| > |QueueOf(a)|
    ensures op == Enqueue && Used(t) !in a && Used(t) in b
    ensures QueueOf(b)[|QueueOf(b)| - 1] == t
  {
    hide ValidState, Decode;
    QueueText(a);
    QueueText(b);
    var p, q := QueueOf(a), QueueOf(b);
    LinesLength(p);
    LinesLength(q);
    assert Lines(q) == Encode(q)[5..] == (Encode(p) + Line(t))[5..] == Lines(p) + Line(t);
    LastTicket(p, q, t);
  }

  lemma StepInv(w: World, i: Invocation)
    requires Inv(w)
    ensures Inv(Step(w, i)) && QueueOk(Step(w, i).files)
  {
    hide Apply, Observe, QueueOk, StageFiles, Conserved, Burned;
    ApplyKeeps(w, i.op, i.ticket, i.env);
    IdleStep(w, i.ticket);
  }

  /** A step of a run that admits a ticket is an enqueue of that ticket which published its claim. */
  lemma AdmissionIsFresh(w: World, i: Invocation, k: nat)
    requires Inv(w)
    requires |w.log| <= k < |Step(w, i).log| && Step(w, i).log[k].Admitted?
    ensures Step(w, i).log[k] == Admitted(i.ticket) && i.op == Enqueue
    ensures Used(i.ticket) !in w.files && Used(i.ticket) in Step(w, i).files
  {
    hide Apply, QueueOk, Grows, QueueOf, Conserved, Burned, StageFiles;
    StepInv(w, i);
    ApplyGrowth(w.files, i.op, i.ticket, i.env);
    if |QueueOf(Step(w, i).files)| > |QueueOf(w.files)| {
      GrownQueue(w.files, Step(w, i).files, i.op, i.ticket);
    }
  }

  lemma LastTicket(a: seq<string>, b: seq<string>, t: string)
    requires Tickets(a) && Tickets(b) && |b| == |a| + 1 && Lines(b) == Lines(a) + Line(t) && |t| == 64
    ensures b[|a|] == t
  {
    LinesLength(a);
    LineEnd(b, |a|);
  }

  /** Once the claim of `t` is published it stays as it is for ever, and `t` is never admitted again. */
  lemma {:induction false} BurnedForever(run: seq<Invocation>, more: seq<Invocation>, t: string)
    requires Used(t) in Run(run).files
    ensures Run(run).log <= Run(run + more).log
    ensures Used(t) in Run(run + more).files && Run(run + more).files[Used(t)] == Run(run).files[Used(t)]
    ensures forall k :: |Run(run).log| <= k < |Run(run + more).log| ==> Run(run + more).log[k] != Admitted(t)
    decreases |more|
  {
    hide Apply, Observe, QueueOk;
    if more == [] {
      assert run + more == run;
    } else {
      var n := |more| - 1;
      BurnedForever(run, more[..n], t);
      BurnedStep(run + more[..n], more[n], t);
      assert run + more == (run + more[..n]) + [more[n]];
    }
  }

  lemma BurnedStep(run: seq<Invocation>, i: Invocation, t: string)
    requires Used(t) in Run(run).files
    ensures var w, next := Run(run), Run(run + [i]);
      && w.log <= next.log
      && Used(t) in next.files && next.files[Used(t)] == w.files[Used(t)]
      && forall k :: |w.log| <= k < |next.log| ==> next.log[k] != Admitted(t)
  {
    hide Apply, Observe, QueueOk, StageFiles, Conserved, Burned;
    var w, next := Run(run), Run(run + [i]);
    RunInv(run);
    assert (run + [i])[..|run|] == run;
    assert next == Step(w, i);
    ApplyGrowth(w.files, i.op, i.ticket, i.env);
    forall k | |w.log| <= k < |next.log| && next.log[k].Admitted? ensures next.log[k] != Admitted(t) {
      AdmissionIsFresh(w, i, k);
    }
  }
}
