/** Safety of the FIFO over every run: any operations, in any order, any file-system outcomes, killed anywhere. */
module FifoSafety {
  import opened FifoText
  import opened FifoStore
  import opened Fifo
  import opened FifoLog
  import opened FifoCommit
  import opened FifoLeaves

  // ---- the invariant ----

  ghost predicate QueueOk(fs: Files) {
    QueueFile in fs && ValidState(fs[QueueFile])
  }

  /** What the marker files say in each stage of a reservation. */
  ghost predicate StageFiles(stage: Stage, fs: Files) {
    match stage
    case Idle(last) => IdleFiles(last, fs)
    case Held(t) =>
      && Release !in fs && Receipt !in fs && IsTicket(t) && AtFront(fs, t)
      && Hold in fs && IsPrefix(fs[Hold], Mark(t))
    case Freed(t) =>
      && Hold !in fs && Receipt !in fs && IsTicket(t) && AtFront(fs, t) && Whole(fs, Release, t)
    case Drained(t) =>
      && Hold !in fs && IsTicket(t) && t !in QueueOf(fs)
      && (if Release in fs then fs[Release] == Mark(t) && Receipt !in fs
          else && Whole(fs, SettledHold, t)
               && (Receipt in fs ==> IsPrefix(fs[Receipt], Mark(t)) && fs[Receipt] != Mark(t))
               && SettleReady(fs, t))
    case Broken => false
  }

  ghost predicate IdleFiles(last: seq<string>, fs: Files) {
    && Hold !in fs && Release !in fs
    && (if last == [] then SettledHold !in fs && Receipt !in fs && PreviousReceipt !in fs
        else && |last| == 1 && IsTicket(last[0]) && Whole(fs, SettledHold, last[0])
             && (Receipt in fs ==> IsPrefix(fs[Receipt], Mark(last[0]))))
  }

  ghost predicate AtFront(fs: Files, t: string) {
    QueueOf(fs) != [] && QueueOf(fs)[0] == t
  }

  /** Nothing is lost, nothing is admitted twice, and admission order is kept: the admitted tickets, without the
    withdrawn ones, are those already removed followed by those still waiting. */
  ghost predicate Conserved(log: seq<Event>, q: seq<string>) {
    && Distinct(Admissions(log))
    && (forall t :: t in Withdrawals(log) ==> t in Admissions(log))
    && Kept(Admissions(log), Withdrawals(log)) == Removals(log) + q
  }

  /** Every ticket ever admitted has its claim. */
  ghost predicate Burned(log: seq<Event>, fs: Files) {
    forall t :: t in Admissions(log) ==> Used(t) in fs && fs[Used(t)] == Claim(t)
  }

  ghost predicate Inv(w: World) {
    && QueueOk(w.files)
    && Conserved(w.log, QueueOf(w.files))
    && Burned(w.log, w.files)
    && StageFiles(StageOf(w.log), w.files)
  }

  // ---- conservation, on lists ----

  lemma AdmitList(log: seq<Event>, q: seq<string>, t: string)
    requires Conserved(log, q) && t !in Admissions(log)
    ensures Conserved(log + [Admitted(t)], q + [t])
  {
    Snoc(log, Admitted(t));
    KeptSnoc(Admissions(log), t, Withdrawals(log));
    assert Removals(log) + (q + [t]) == (Removals(log) + q) + [t];
  }

  lemma WithoutBehind(a: seq<string>, q: seq<string>, i: nat)
    requires i < |q|
    ensures (a + q)[|a| + i] == q[i] && Without(a + q, |a| + i) == a + Without(q, i)
  {
  }

  lemma WithdrawList(log: seq<Event>, q: seq<string>, i: nat)
    requires Conserved(log, q) && i < |q|
    ensures Conserved(log + [Withdrawn(q[i])], Without(q, i))
  {
    hide Kept, Admissions, Withdrawals, Removals, Without;
    var kept, n := Kept(Admissions(log), Withdrawals(log)), |Removals(log)| + i;
    Snoc(log, Withdrawn(q[i]));
    WithoutBehind(Removals(log), q, i);
    KeptWithdraw(Admissions(log), Withdrawals(log), n);
    KeptIn(Admissions(log), Withdrawals(log));
    assert q[i] in kept;
  }

  lemma Regroup(a: seq<string>, q: seq<string>)
    requires q != []
    ensures a + q == (a + [q[0]]) + q[1..]
  {
  }

  lemma RemoveList(log: seq<Event>, q: seq<string>)
    requires Conserved(log, q) && q != []
    ensures Conserved(log + [Removed(q[0])], q[1..])
  {
    Snoc(log, Removed(q[0]));
    Regroup(Removals(log), q);
  }

  lemma OtherList(log: seq<Event>, q: seq<string>, e: Event)
    requires Conserved(log, q) && !e.Admitted? && !e.Withdrawn? && !e.Removed?
    ensures Conserved(log + [e], q) && Admissions(log + [e]) == Admissions(log)
  {
    Snoc(log, e);
  }

  // ---- one change at a time ----

  ghost function Next(w: World, t: string, files: Files): World {
    World(files, w.log + Observe(t, w.files, files))
  }

  /** Queue, hold, release and receipt look the same in both file states, so no event separates them. */
  ghost predicate SameView(a: Files, b: Files) {
    && (QueueFile in a <==> QueueFile in b) && (QueueFile in a ==> a[QueueFile] == b[QueueFile])
    && (Hold in a <==> Hold in b)
    && (Release in a <==> Release in b)
    && (Receipt in a <==> Receipt in b) && (Receipt in a ==> a[Receipt] == b[Receipt])
  }

  lemma NoEvent(t: string, a: Files, b: Files, c: Files)
    requires SameView(a, b)
    ensures Observe(t, a, b) == []
    ensures Observe(t, a, c) == Observe(t, b, c)
  {
  }

  /** A change outside the queue and the marker files keeps the invariant. */
  lemma QuietStep(w: World, t: string, files: Files)
    requires Inv(w) && SameView(w.files, files)
    requires forall u :: Used(u) in w.files ==> Used(u) in files && files[Used(u)] == w.files[Used(u)]
    requires Same(w.files, files, {Intent, Pending, LastJournal, Staged(t), Used(t)})
    requires StageOf(w.log).Drained? && Release !in w.files ==> Same(w.files, files, {Staged(t), Used(t)})
    ensures Next(w, t, files) == World(files, w.log) && Inv(Next(w, t, files))
  {
    NoEvent(t, w.files, files, files);
    assert w.log + [] == w.log;
  }

  lemma QueueText(fs: Files)
    requires QueueOk(fs)
    ensures Queue(QueueOf(fs)) && fs[QueueFile] == Encode(QueueOf(fs))
  {
    ValidIffQueue(fs[QueueFile]);
  }

  lemma NewQueue(fs: Files, q: seq<string>)
    requires QueueFile in fs && fs[QueueFile] == Encode(q) && Queue(q)
    ensures QueueOk(fs) && QueueOf(fs) == q
  {
    EncodeValid(q);
    DecodeEncode(q);
  }

  lemma SameIdle(last: seq<string>, a: Files, b: Files)
    requires IdleFiles(last, a) && Same(a, b, {QueueFile, Pending, Intent, LastJournal})
    ensures IdleFiles(last, b)
  {
  }

  /** The rename of a commit took effect: the queue file holds the text of `q` and no marker file changed. */
  ghost predicate Installed(before: Files, after: Files, q: seq<string>) {
    && Same(before, after, {QueueFile, Pending, Intent, LastJournal})
    && QueueFile in after && after[QueueFile] == Encode(q) && Queue(q)
  }

  lemma Assemble(w: World, t: string, files: Files, e: Event)
    requires Observe(t, w.files, files) == [e]
    requires QueueOk(files) && Conserved(w.log + [e], QueueOf(files)) && Burned(w.log + [e], files)
    requires StageFiles(Advance(StageOf(w.log), e), files)
    ensures Inv(Next(w, t, files))
  {
    Snoc(w.log, e);
  }

  lemma AdmitStep(w: World, t: string, files: Files)
    requires Inv(w) && StageOf(w.log).Idle?
    requires Used(t) in w.files && w.files[Used(t)] == Claim(t) && t !in Admissions(w.log)
    requires Installed(w.files, files, QueueOf(w.files) + [t])
    ensures Inv(Next(w, t, files))
  {
    hide ValidState, Encode, Decode, Conserved, SettleReady;
    NewQueue(files, QueueOf(w.files) + [t]);
    AdmitList(w.log, QueueOf(w.files), t);
    Snoc(w.log, Admitted(t));
    SameIdle(StageOf(w.log).last, w.files, files);
    Assemble(w, t, files, Admitted(t));
  }

  lemma CutObserved(t: string, a: Files, b: Files, i: nat)
    requires QueueOk(a) && 0 < i < |QueueOf(a)| && Installed(a, b, Without(QueueOf(a), i))
    ensures QueueOk(b) && QueueOf(b) == Without(QueueOf(a), i) && Observe(t, a, b) == [Withdrawn(t)]
  {
    var q := QueueOf(a);
    QueueText(a);
    NewQueue(b, Without(q, i));
    assert Without(q, i)[0] == q[0] != q[1] == q[1..][0];
  }

  lemma WithdrawStep(w: World, t: string, i: nat, files: Files)
    requires Inv(w) && StageOf(w.log).Idle? && 0 < i < |QueueOf(w.files)| && QueueOf(w.files)[i] == t
    requires Installed(w.files, files, Without(QueueOf(w.files), i))
    ensures Inv(Next(w, t, files))
  {
    hide ValidState, Encode, Decode, Conserved, SettleReady;
    CutObserved(t, w.files, files, i);
    WithdrawList(w.log, QueueOf(w.files), i);
    Snoc(w.log, Withdrawn(t));
    SameIdle(StageOf(w.log).last, w.files, files);
    Assemble(w, t, files, Withdrawn(t));
  }

  lemma Drain(t: string, a: Files, b: Files)
    requires QueueOk(a) && StageFiles(Freed(t), a) && Installed(a, b, QueueOf(a)[1..])
    ensures StageFiles(Drained(t), b) && QueueOk(b) && QueueOf(b) == QueueOf(a)[1..]
    ensures Observe(t, a, b) == [Removed(t)]
  {
    hide ValidState, Encode, Decode, Mark, IsTicket, SettleReady;
    QueueText(a);
    NewQueue(b, QueueOf(a)[1..]);
    FirstLeaves(QueueOf(a));
  }

  lemma FirstLeaves(q: seq<string>)
    requires Queue(q) && q != []
    ensures q[0] !in q[1..] && |q[1..]| < |q|
  {
  }

  lemma RemoveStep(w: World, t: string, files: Files)
    requires Inv(w) && StageOf(w.log) == Freed(t)
    requires Installed(w.files, files, QueueOf(w.files)[1..])
    ensures Inv(Next(w, t, files))
  {
    hide ValidState, Encode, Decode, Conserved, SettleReady;
    Drain(t, w.files, files);
    RemoveList(w.log, QueueOf(w.files));
    Snoc(w.log, Removed(t));
    Assemble(w, t, files, Removed(t));
  }

  lemma ReserveStep(w: World, t: string, mid: Files, files: Files)
    requires Inv(w) && StageOf(w.log).Idle? && IsTicket(t) && AtFront(w.files, t)
    requires mid == if Receipt in w.files then Moved(w.files, Receipt, PreviousReceipt) else w.files
    requires files == mid || (Hold in files && IsPrefix(files[Hold], Mark(t)) && files == mid[Hold := files[Hold]])
    ensures Inv(Next(w, t, files))
  {
    hide ValidFrom, Encode;
    assert QueueOf(files) == QueueOf(w.files) && Receipt !in files && Release !in files;
    if files == mid {
      assert Observe(t, w.files, files) == [];
      assert w.log + [] == w.log;
    } else {
      OtherList(w.log, QueueOf(w.files), WasReserved(t));
      Assemble(w, t, files, WasReserved(t));
    }
  }

  lemma ReleaseStep(w: World, t: string, files: Files)
    requires Inv(w) && StageOf(w.log) == Held(t) && Whole(w.files, Hold, t) && files == Moved(w.files, Hold, Release)
    ensures Inv(Next(w, t, files))
  {
    assert QueueOf(files) == QueueOf(w.files);
    OtherList(w.log, QueueOf(w.files), WasReleased(t));
    Assemble(w, t, files, WasReleased(t));
  }

  /** Moving the release marker to history is not yet an event: the reservation stays unsettled. */
  lemma SettleStep(w: World, t: string, files: Files)
    requires Inv(w) && StageOf(w.log) == Drained(t) && Release in w.files
    requires files == Moved(w.files, Release, SettledHold) && SettleReady(files, t)
    ensures Next(w, t, files) == World(files, w.log) && Inv(Next(w, t, files))
  {
    assert Observe(t, w.files, files) == [];
    assert w.log + [] == w.log;
  }

  /** A settled marker ready for its receipt belongs to the last reservation. */
  lemma SettledStage(w: World, t: string)
    requires Inv(w) && Hold !in w.files && Release !in w.files && SettleReady(w.files, t)
    ensures StageOf(w.log) == Drained(t) || StageOf(w.log) == Idle([t])
  {
    hide ValidFrom, DequeueRecord, IndexOf, Decode, Conserved, Burned, IsTicket;
    match StageOf(w.log)
    case Drained(u) => MarkTicket(t, u);
    case Idle(last) => if last != [] { MarkTicket(t, last[0]); }
    case _ =>
  }

  lemma ReceiptStepInv(w: World, t: string, files: Files)
    requires Inv(w) && Hold !in w.files && Release !in w.files && SettleReady(w.files, t)
    requires ReceiptWritten(w.files, files, t)
    ensures Inv(Next(w, t, files))
  {
    hide ValidFrom, DequeueRecord, IndexOf, Encode, Decode, Conserved, Mark, IsTicket;
    SettledStage(w, t);
    if files[Receipt] == Mark(t) {
      OtherList(w.log, QueueOf(w.files), WasSettled(t));
      Assemble(w, t, files, WasSettled(t));
    } else {
      assert w.log + [] == w.log;
    }
  }

  // ---- every operation keeps the invariant ----

  lemma IdleStep(w: World, t: string)
    requires Inv(w)
    ensures Inv(Next(w, t, w.files))
  {
    QuietStep(w, t, w.files);
  }

  lemma ArchiveKeeps(w: World, t: string, files: Files)
    requires Inv(w)
    requires files == w.files || (Intent in w.files && files == Moved(w.files, Intent, LastJournal))
    ensures Inv(Next(w, t, files))
  {
    QuietStep(w, t, files);
  }

  lemma RecoverKeeps(w: World, t: string, pending: Presence, intent: Presence, env: Env)
    requires Inv(w)
    ensures Inv(Next(w, t, RecoverQueue(w.files, w.files[QueueFile], pending, intent, env).files))
  {
    RecoverLeaves(w.files, w.files[QueueFile], pending, intent, env);
    ArchiveKeeps(w, t, RecoverQueue(w.files, w.files[QueueFile], pending, intent, env).files);
  }

  lemma RecoverSettleKeeps(w: World, t: string, pending: Presence, intent: Presence, env: Env)
    requires Inv(w) && Hold !in w.files && Release !in w.files
    requires (pending == Missing ==> Pending !in w.files) && (intent == Missing ==> Intent !in w.files)
    ensures Inv(Next(w, t, RecoverSettle(w.files, w.files[QueueFile], t, pending, intent, env).files))
  {
    var files := RecoverSettle(w.files, w.files[QueueFile], t, pending, intent, env).files;
    RecoverSettleLeaves(w.files, t, pending, intent, env);
    if files == w.files {
      IdleStep(w, t);
    } else {
      ReceiptStepInv(w, t, files);
    }
  }

  lemma MarkTicket(t: string, u: string)
    requires IsTicket(t) && IsTicket(u) && Mark(t) == Mark(u)
    ensures t == u
  {
    assert Mark(t)[5..69] == t && Mark(u)[5..69] == u;
  }

  /** A release marker that names `t` belongs to the outstanding reservation. */
  lemma ReleasedTicket(w: World, t: string)
    requires Inv(w) && IsTicket(t) && Whole(w.files, Release, t)
    ensures StageOf(w.log) == Freed(t) || StageOf(w.log) == Drained(t)
  {
    var stage := StageOf(w.log);
    if stage.Freed? || stage.Drained? {
      MarkTicket(t, stage.ticket);
    }
  }

  lemma ReadyIsDrained(w: World, t: string, moved: Files)
    requires Inv(w) && IsTicket(t) && Whole(w.files, Release, t) && Receipt !in w.files
    requires Pending !in w.files && Intent !in w.files
    requires moved == Moved(w.files, Release, SettledHold)
    requires LastJournal in w.files && w.files[LastJournal] == DequeueRecord(t, w.files[QueueFile])
    requires |w.files[LastJournal]| <= 8340
    requires IndexOf(w.files[QueueFile], Line(t)) < 0
    ensures StageOf(w.log) == Drained(t) && SettleReady(moved, t)
  {
    ReleasedTicket(w, t);
    QueueText(w.files);
    FindTicket(QueueOf(w.files), t);
  }

  lemma SettleFiles(w: World, t: string, files: Files)
    requires Inv(w) && IsTicket(t) && Whole(w.files, Release, t) && Receipt !in w.files
    requires Pending !in w.files && Intent !in w.files
    requires LastJournal in w.files && w.files[LastJournal] == DequeueRecord(t, w.files[QueueFile])
    requires |w.files[LastJournal]| <= 8340
    requires IndexOf(w.files[QueueFile], Line(t)) < 0
    requires var moved := Moved(w.files, Release, SettledHold); files == moved || ReceiptWritten(moved, files, t)
    ensures Inv(Next(w, t, files))
  {
    var moved := Moved(w.files, Release, SettledHold);
    ReadyIsDrained(w, t, moved);
    SettleStep(w, t, moved);
    if files != moved {
      ReceiptStepInv(World(moved, w.log), t, files);
      assert Observe(t, w.files, files) == Observe(t, moved, files);
    }
  }

  lemma SettleKeeps(w: World, t: string, env: Env)
    requires Inv(w) && IsTicket(t) && Whole(w.files, Release, t)
    requires Pending !in w.files && Intent !in w.files
    ensures Inv(Next(w, t, SettleReleased(w.files, w.files[QueueFile], t, Missing, Missing, env).files))
  {
    var files := SettleReleased(w.files, w.files[QueueFile], t, Missing, Missing, env).files;
    SettleLeaves(w.files, t, Missing, Missing, env);
    if files == w.files {
      IdleStep(w, t);
    } else {
      SettleFiles(w, t, files);
    }
  }

  /** A hold that reads back whole belongs to the outstanding reservation. */
  lemma HeldTicket(w: World, t: string)
    requires Inv(w) && IsTicket(t) && Whole(w.files, Hold, t)
    ensures StageOf(w.log) == Held(t)
  {
    var stage := StageOf(w.log);
    if stage.Held? {
      assert |Mark(t)| == |Mark(stage.ticket)|;
      MarkTicket(t, stage.ticket);
    }
  }

  lemma ReleaseKeeps(w: World, t: string, hold: Presence, pending: Presence, intent: Presence, env: Env)
    requires Inv(w)
    ensures Inv(Next(w, t, ReleaseHold(w.files, t, w.files[QueueFile], hold, pending, intent, env).files))
  {
    var files := ReleaseHold(w.files, t, w.files[QueueFile], hold, pending, intent, env).files;
    ReleaseLeaves(w.files, t, hold, pending, intent, env);
    if files == w.files {
      IdleStep(w, t);
    } else {
      HeldTicket(w, t);
      ReleaseStep(w, t, files);
    }
  }

  lemma FrontTicket(fs: Files, t: string)
    requires QueueOk(fs) && IsTicket(t) && FrontLine(fs[QueueFile]) == t
    ensures AtFront(fs, t) && AfterFront(fs[QueueFile]) == Encode(QueueOf(fs)[1..])
  {
    QueueText(fs);
    Slices(QueueOf(fs), t);
    LinesLength(QueueOf(fs));
  }

  lemma ReserveKeeps(w: World, t: string, env: Env)
    requires Inv(w) && StageOf(w.log).Idle? && IsTicket(t)
    ensures Inv(Next(w, t, ReserveFront(w.files, t, w.files[QueueFile], env).files))
  {
    var files := ReserveFront(w.files, t, w.files[QueueFile], env).files;
    ReserveLeaves(w.files, t, env);
    if files == w.files {
      IdleStep(w, t);
    } else {
      FrontTicket(w.files, t);
      ReserveStep(w, t, if Receipt in w.files then Moved(w.files, Receipt, PreviousReceipt) else w.files, files);
    }
  }

  lemma ShapeKeeps(w: World, t: string, files: Files, q: seq<string>)
    requires Inv(w) && Queue(q) && (StageOf(w.log).Idle? || StageOf(w.log).Freed?)
    requires CommitShape(w.files, files, w.files[QueueFile], Encode(q))
    ensures Installed(w.files, files, q) || Inv(Next(w, t, files))
  {
    if files == w.files {
      IdleStep(w, t);
    } else if Journalled(w.files, files, w.files[QueueFile], Encode(q)) {
      QuietStep(w, t, files);
    }
  }

  /** A commit either was quiet or installed its new queue. */
  lemma CommitOutcome(w: World, t: string, q: seq<string>, env: Env) returns (files: Files)
    requires Inv(w) && Queue(q) && (StageOf(w.log).Idle? || StageOf(w.log).Freed?)
    ensures files == Commit(w.files, w.files[QueueFile], Encode(q), env).files
    ensures Installed(w.files, files, q) || Inv(Next(w, t, files))
  {
    files := Commit(w.files, w.files[QueueFile], Encode(q), env).files;
    CommitLeaves(w.files, w.files[QueueFile], Encode(q), env);
    ShapeKeeps(w, t, files, q);
  }

  lemma DequeueKeeps(w: World, t: string, env: Env)
    requires Inv(w) && StageOf(w.log) == Freed(t)
    ensures var s := w.files[QueueFile]; Inv(Next(w, t, Commit(w.files, s, AfterFront(s), env).files))
  {
    hide Commit, ValidFrom;
    QueueText(w.files);
    var q := QueueOf(w.files);
    LinesLength(q);
    Slices(q, t);
    WithoutQueue(q, 0);
    assert Without(q, 0) == q[1..];
    assert AfterFront(w.files[QueueFile]) == Encode(q[1..]);
    var files := CommitOutcome(w, t, q[1..], env);
    if Installed(w.files, files, q[1..]) {
      RemoveStep(w, t, files);
    }
  }

  lemma CancelKeeps(w: World, t: string, env: Env)
    requires Inv(w) && StageOf(w.log).Idle? && IsTicket(t)
    ensures Inv(Next(w, t, CancelTicket(w.files, t, w.files[QueueFile], env).files))
  {
    hide Commit, ValidState, Encode, Decode, Conserved, Burned, IndexOf;
    QueueText(w.files);
    var s, q := w.files[QueueFile], QueueOf(w.files);
    var at := IndexOf(s, Line(t));
    FindTicket(q, t);
    if at < 0 || at == 5 {
      IdleStep(w, t);
    } else {
      var i: nat :| i < |q| && q[i] == t;
      CutLine(q, i);
      assert WithoutLine(s, at) == Encode(Without(q, i));
      var files := CommitOutcome(w, t, Without(q, i), env);
      if Installed(w.files, files, Without(q, i)) {
        WithdrawStep(w, t, i, files);
      }
    }
  }

  lemma ClaimKeeps(w: World, t: string, env: Env) returns (claimed: World)
    requires Inv(w)
    ensures var c := ClaimTicket(w.files, t, env);
      && claimed == World(c.files, w.log) && Inv(claimed) && SameView(w.files, c.files)
      && Next(w, t, c.files) == claimed
      && (c.refusal == [] ==> Used(t) in c.files && c.files[Used(t)] == Claim(t) && t !in Admissions(w.log))
  {
    var c := ClaimTicket(w.files, t, env);
    ClaimLeaves(w.files, t, env);
    QuietStep(w, t, c.files);
    claimed := World(c.files, w.log);
  }

  lemma AppendKeeps(before: World, w: World, t: string, env: Env)
    requires Inv(w) && StageOf(w.log).Idle? && IsTicket(t) && t !in QueueOf(w.files) && |w.files[QueueFile]| < 4165
    requires Used(t) in w.files && w.files[Used(t)] == Claim(t) && t !in Admissions(w.log)
    requires before.log == w.log && SameView(before.files, w.files)
    ensures var s := w.files[QueueFile]; Inv(Next(before, t, Commit(w.files, s, s + Line(t), env).files))
  {
    hide Commit, ValidFrom;
    QueueText(w.files);
    var q := QueueOf(w.files);
    Slices(q, t);
    var files := CommitOutcome(w, t, q + [t], env);
    NoEvent(t, before.files, w.files, files);
    if Installed(w.files, files, q + [t]) {
      AdmitStep(w, t, files);
    }
  }

  lemma EnqueueKeeps(w: World, t: string, env: Env)
    requires Inv(w) && StageOf(w.log).Idle? && IsTicket(t)
    ensures Inv(Next(w, t, EnqueueTicket(w.files, t, w.files[QueueFile], env).files))
  {
    hide Commit, ClaimTicket, ValidFrom;
    QueueText(w.files);
    FindTicket(QueueOf(w.files), t);
    if t in QueueOf(w.files) || |w.files[QueueFile]| >= 4165 {
      IdleStep(w, t);
    } else {
      var claimed := ClaimKeeps(w, t, env);
      if ClaimTicket(w.files, t, env).refusal == [] {
        AppendKeeps(w, claimed, t, env);
      }
    }
  }
}
