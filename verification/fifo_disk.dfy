/** What a run has synced. Beside its files, the world keeps the files whose text, and the names whose directory entry,
  may have changed since they were last synced: every call that takes effect adds to them, and only an acknowledged
  sync takes anything away. */
module FifoDisk {
  import opened FifoText
  import opened FifoStore
  import opened Fifo
  import opened FifoLog
  import opened FifoRuns
  import opened FifoScript

  datatype Disk = Disk(files: Files, content: set<File>, entries: set<File>)

  predicate Durable(d: Disk, f: File) {
    f !in d.content && f !in d.entries
  }

  function Renamed(content: set<File>, source: File, target: File): set<File> {
    content - {source, target} + if source in content then {target} else {}
  }

  /** One call. A write may have replaced the file it writes to, so its name counts as changed too. */
  function Touch(d: Disk, c: Call, o: Outcome): Disk {
    var files := Effect(d.files, c, o);
    match c
    case Write(f, _) =>
      if o == Refused || o == FalseMissing then d else Disk(files, d.content + {f}, d.entries + {f})
    case Replace(source, target) =>
      if files == d.files then d
      else Disk(files, Renamed(d.content, source, target), d.entries + {source, target})
    case Publish(source, target) =>
      if files == d.files then d
      else Disk(files, Renamed(d.content, source, target), d.entries + {source, target})
    case Flush(f) =>
      if !Acknowledged(d.files, c, o) then d
      else if f == Directory then d.(entries := {})
      else d.(content := d.content - {f})
    case _ => d
  }

  datatype DiskChain = DiskChain(disk: Disk, up: bool) {
    function Then(c: Call, o: Outcome): DiskChain {
      if up then DiskChain(Touch(disk, c, o), Acknowledged(disk.files, c, o)) else this
    }
  }

  function PlayDisk(c: DiskChain, acts: seq<Act>, env: Env): DiskChain
    decreases |acts|
  {
    if acts == [] then c else PlayDisk(c.Then(acts[0].call, env(acts[0].site)), acts[1..], env)
  }

  function AfterDisk(d: Disk, i: Invocation): Disk {
    if i.busy then d else PlayDisk(DiskChain(d, true), Script(d.files, i.op, i.ticket, i.env), i.env).disk
  }

  /** The disk after a run from a fresh queue that was synced when it was set up. */
  function DiskRun(run: seq<Invocation>): Disk {
    if run == [] then Disk(FRESH.files, {}, {}) else AfterDisk(DiskRun(run[..|run| - 1]), run[|run| - 1])
  }

  lemma DiskSnoc(run: seq<Invocation>, i: Invocation)
    ensures DiskRun(run + [i]) == AfterDisk(DiskRun(run), i)
  {
    hide AfterDisk;
    assert (run + [i])[..|run|] == run;
  }

  // ---- the disk follows the files ----

  lemma {:induction false} PlayDiskFiles(c: DiskChain, acts: seq<Act>, env: Env)
    ensures var after := PlayDisk(c, acts, env);
      Chain(after.disk.files, after.up) == Play(Chain(c.disk.files, c.up), acts, env)
    decreases |acts|
  {
    hide Effect, Acknowledged;
    if acts != [] {
      TouchFiles(c.disk, acts[0].call, env(acts[0].site));
      PlayDiskFiles(c.Then(acts[0].call, env(acts[0].site)), acts[1..], env);
    }
  }

  lemma TouchFiles(d: Disk, c: Call, o: Outcome)
    ensures Touch(d, c, o).files == Effect(d.files, c, o)
  {
  }

  lemma {:induction false} DiskRunFiles(run: seq<Invocation>)
    ensures DiskRun(run).files == Run(run).files
  {
    if run != [] {
      hide Apply, Script, Play, PlayDisk, Observe;
      var i, d := run[|run| - 1], DiskRun(run[..|run| - 1]);
      DiskRunFiles(run[..|run| - 1]);
      PlayDiskFiles(DiskChain(d, true), Script(d.files, i.op, i.ticket, i.env), i.env);
      ScriptPlays(d.files, i.op, i.ticket, i.env);
    }
  }

  /** What counts as unsynced grows with every change and shrinks only by an acknowledged sync: a name whose entry or text
    changed is unsynced, a written text is, and a moved text is at its new name exactly if it was at its old one. */
  lemma TouchMeans(d: Disk, c: Call, o: Outcome)
    ensures var e := Touch(d, c, o);
      && (forall f :: (f in d.files && f in e.files && d.files[f] == e.files[f]) || (f !in d.files && f !in e.files)
                      || f in e.entries)
      && (forall f :: f in d.entries && f !in e.entries ==> Acknowledged(d.files, c, o) && c == Flush(Directory))
      && (c.Write? && e.files != d.files ==> c.f in e.content)
      && ((c.Replace? || c.Publish?) && e.files != d.files ==> (c.target in e.content <==> c.source in d.content))
      && (forall f :: f in d.content && f !in e.content ==>
            || (Acknowledged(d.files, c, o) && c == Flush(f))
            || ((c.Replace? || c.Publish?) && e.files != d.files && (f == c.source || f == c.target)))
  {
    hide Read;
  }

  // ---- lists of calls ----

  lemma {:induction false} DiskConcat(c: DiskChain, a: seq<Act>, b: seq<Act>, env: Env)
    ensures PlayDisk(c, a + b, env) == PlayDisk(PlayDisk(c, a, env), b, env)
    decreases |a|
  {
    if a == [] {
      assert a + b == b;
    } else {
      assert (a + b)[1..] == a[1..] + b;
      DiskConcat(c.Then(a[0].call, env(a[0].site)), a[1..], b, env);
    }
  }

  lemma DiskOne(c: DiskChain, a: Act, env: Env)
    ensures PlayDisk(c, [a], env) == c.Then(a.call, env(a.site))
  {
    assert [a][1..] == [];
  }

  lemma {:induction false} DiskDown(d: Disk, acts: seq<Act>, env: Env)
    ensures PlayDisk(DiskChain(d, false), acts, env) == DiskChain(d, false)
    decreases |acts|
  {
    if acts != [] {
      DiskDown(d, acts[1..], env);
    }
  }

  /** The files a call can change. */
  function Targets(c: Call): set<File> {
    match c
    case Write(f, _) => {f}
    case Replace(source, target) => {source, target}
    case Publish(source, target) => {source, target}
    case _ => {}
  }

  /** No call of the list can change any of `files`. */
  ghost predicate Spares(acts: seq<Act>, files: set<File>) {
    forall i :: 0 <= i < |acts| ==> Targets(acts[i].call) !! files
  }

  /** `e` is `d` with nothing changed but, perhaps, more of it synced. */
  ghost predicate Calmer(d: Disk, e: Disk) {
    e.files == d.files && e.content <= d.content && e.entries <= d.entries
  }

  ghost predicate Quiet(acts: seq<Act>) {
    forall i :: 0 <= i < |acts| ==> Targets(acts[i].call) == {}
  }

  lemma QuietCall(c: DiskChain, call: Call, o: Outcome)
    requires Targets(call) == {}
    ensures Calmer(c.disk, c.Then(call, o).disk)
    ensures c.Then(call, o).up ==> c.up && forall f :: call == Flush(f) ==> Synced(c.Then(call, o).disk, f)
  {
    hide Read;
  }

  /** `f` was synced: the directory as a whole, or the text of a file. */
  ghost predicate Synced(d: Disk, f: File) {
    if f == Directory then d.entries == {} else f !in d.content
  }

  lemma {:induction false} QuietCalls(c: DiskChain, acts: seq<Act>, env: Env)
    requires Quiet(acts)
    ensures var after := PlayDisk(c, acts, env);
      && Calmer(c.disk, after.disk) && (after.up ==> c.up)
      && (after.up ==> forall i, f :: 0 <= i < |acts| && acts[i].call == Flush(f) ==> Synced(after.disk, f))
    decreases |acts|
  {
    hide Touch, Acknowledged;
    if acts != [] {
      var next, after := c.Then(acts[0].call, env(acts[0].site)), PlayDisk(c, acts, env);
      QuietCall(c, acts[0].call, env(acts[0].site));
      QuietCalls(next, acts[1..], env);
      if after.up {
        forall i, f | 0 <= i < |acts| && acts[i].call == Flush(f) ensures Synced(after.disk, f) {
          if i > 0 {
            assert acts[i] == acts[1..][i - 1];
          }
        }
      }
    }
  }

  lemma SparedCall(c: DiskChain, call: Call, o: Outcome, f: File)
    requires f !in Targets(call)
    ensures var next := c.Then(call, o).disk;
      && (f in next.files <==> f in c.disk.files) && (f in next.files ==> next.files[f] == c.disk.files[f])
      && (f in next.content ==> f in c.disk.content) && (f in next.entries ==> f in c.disk.entries)
  {
    hide Read;
  }

  /** A file no call changes stays as it is, and does not lose its syncs. */
  lemma {:induction false} Spared(c: DiskChain, acts: seq<Act>, env: Env, f: File)
    requires Spares(acts, {f})
    ensures var after := PlayDisk(c, acts, env).disk;
      && (f in after.files <==> f in c.disk.files) && (f in after.files ==> after.files[f] == c.disk.files[f])
      && (f in after.content ==> f in c.disk.content) && (f in after.entries ==> f in c.disk.entries)
    decreases |acts|
  {
    hide Touch, Acknowledged;
    if acts != [] {
      SparedCall(c, acts[0].call, env(acts[0].site), f);
      Spared(c.Then(acts[0].call, env(acts[0].site)), acts[1..], env, f);
    }
  }

  // ---- what is always synced ----

  /** Nothing but the commit's own files, a hold, a receipt and staging files ever holds unsynced text. While a new
    queue is written aside, or its rename is not synced, the journal of that change is open and synced, text and name.
    While a hold or a receipt is in place, the records it stands on are synced. */
  ghost predicate Safe(d: Disk) {
    && (forall f :: f in d.content ==> f in d.files && (f.Intent? || f.Pending? || f.Hold? || f.Receipt? || f.Staged?))
    && (QueueFile in d.entries || Pending in d.files ==> Intent in d.files && Durable(d, Intent))
    && (Hold in d.files ==> Intent !in d.files && SettledHold !in d.entries && PreviousReceipt !in d.entries)
    && (Hold in d.files && SettledHold in d.files ==> LastJournal !in d.entries)
    && (Receipt in d.files ==> SettledHold !in d.entries)
    && (SettledHold in d.entries ==> SettledHold in d.files)
    && (PreviousReceipt in d.entries ==> PreviousReceipt in d.files)
  }

  lemma CalmerSafe(d: Disk, e: Disk)
    requires Safe(d) && Calmer(d, e)
    ensures Safe(e)
  {
  }

  // ---- the calls that change something ----

  lemma WriteIntent(d: Disk, text: string, o: Outcome)
    requires Safe(d) && Hold !in d.files && Intent !in d.files && Pending !in d.files
    ensures var e := Touch(d, Write(Intent, text), o);
      Safe(e) && (Acknowledged(d.files, Write(Intent, text), o) ==> Intent in e.files)
  {
  }

  lemma WriteAside(d: Disk, f: File, text: string, o: Outcome)
    requires Safe(d) && (f.Pending? || f.Staged?)
    requires f.Pending? ==> Intent in d.files && Durable(d, Intent)
    ensures Safe(Touch(d, Write(f, text), o))
  {
  }

  lemma InstallQueue(d: Disk, o: Outcome)
    requires Safe(d) && Intent in d.files && Pending !in d.content
    ensures Safe(Touch(d, Replace(Pending, QueueFile), o))
  {
  }

  lemma ArchiveJournal(d: Disk, o: Outcome)
    requires Safe(d) && Hold !in d.files && Pending !in d.files && Intent !in d.content && QueueFile !in d.entries
    ensures var e := Touch(d, Replace(Intent, LastJournal), o);
      Safe(e) && (Acknowledged(d.files, Replace(Intent, LastJournal), o) ==> Intent !in e.files)
  {
  }

  lemma PublishClaim(d: Disk, t: string, o: Outcome)
    requires Safe(d) && Staged(t) !in d.content
    ensures Safe(Touch(d, Publish(Staged(t), Used(t)), o))
  {
  }

  lemma WriteReceipt(d: Disk, text: string, o: Outcome)
    requires Safe(d) && SettledHold !in d.entries
    ensures Safe(Touch(d, Write(Receipt, text), o))
  {
  }

  lemma MoveRelease(d: Disk, o: Outcome)
    requires Safe(d) && Hold !in d.files && Receipt !in d.files
    ensures Safe(Touch(d, Replace(Release, SettledHold), o))
  {
  }

  lemma MoveHold(d: Disk, o: Outcome)
    requires Safe(d) && Hold !in d.content
    ensures Safe(Touch(d, Replace(Hold, Release), o))
  {
  }

  lemma ConsumeReceipt(d: Disk, o: Outcome)
    requires Safe(d) && Hold !in d.files && Receipt !in d.content
    ensures Safe(Touch(d, Replace(Receipt, PreviousReceipt), o))
  {
  }

  lemma WriteHold(d: Disk, text: string, o: Outcome)
    requires Safe(d) && Intent !in d.files && SettledHold !in d.entries && PreviousReceipt !in d.entries
    requires SettledHold in d.files ==> LastJournal !in d.entries
    ensures Safe(Touch(d, Write(Hold, text), o))
  {
  }

  // ---- commits ----

  lemma QuietThen(c: DiskChain, quiet: seq<Act>, a: Act, env: Env)
    ensures PlayDisk(c, quiet + [a], env) == PlayDisk(c, quiet, env).Then(a.call, env(a.site))
  {
    hide PlayDisk;
    DiskConcat(c, quiet, [a], env);
    DiskOne(PlayDisk(c, quiet, env), a, env);
  }

  lemma ThenQuiet(c: DiskChain, a: Act, quiet: seq<Act>, env: Env)
    ensures PlayDisk(c, [a] + quiet, env) == PlayDisk(c.Then(a.call, env(a.site)), quiet, env)
  {
    hide PlayDisk;
    DiskConcat(c, [a], quiet, env);
    DiskOne(c, a, env);
  }

  /** A safe disk without a hold; while the calls go well, the journal is there, and of its text and the new queue's
    text, `clean` is synced. */
  ghost predicate Going(c: DiskChain, journal: bool, clean: set<File>) {
    && Safe(c.disk) && Hold !in c.disk.files
    && (c.up && journal ==> Intent in c.disk.files)
    && (c.up ==> c.disk.content !! clean)
  }

  lemma QuietGoing(c: DiskChain, acts: seq<Act>, env: Env, journal: bool, clean: set<File>)
    requires Quiet(acts) && Going(c, journal, clean)
    ensures Going(PlayDisk(c, acts, env), journal, clean)
  {
    hide PlayDisk, Safe;
    QuietCalls(c, acts, env);
    CalmerSafe(c.disk, PlayDisk(c, acts, env).disk);
  }

  lemma JournalPhase(c: DiskChain, original: string, next: string, env: Env)
    requires Going(c, false, {})
    ensures var a := [Act(Lacks(Intent), 60), Act(Lacks(Pending), 61), Act(Write(Intent, Journal(original, next)), 62)];
      Going(PlayDisk(c, a, env), true, {})
  {
    hide PlayDisk, Safe, Touch, Effect, Journal;
    var q, w := [Act(Lacks(Intent), 60), Act(Lacks(Pending), 61)], Act(Write(Intent, Journal(original, next)), 62);
    assert q + [w] == [q[0], q[1], w];
    QuietThen(c, q, w, env);
    QuietGoing(c, q, env, false, {});
    BothLacking(c, q, env);
    var c1 := PlayDisk(c, q, env);
    if c1.up {
      WriteIntent(c1.disk, w.call.text, env(62));
    }
    SparedCall(c1, w.call, env(62), Hold);
  }

  lemma BothLacking(c: DiskChain, q: seq<Act>, env: Env)
    requires q == [Act(Lacks(Intent), 60), Act(Lacks(Pending), 61)]
    ensures var after := PlayDisk(c, q, env);
      after.up ==> Intent !in after.disk.files && Pending !in after.disk.files
  {
    hide PlayDisk;
    ThenQuiet(c, q[0], [q[1]], env);
    assert [q[0]] + [q[1]] == q;
    DiskOne(c.Then(Lacks(Intent), env(60)), q[1], env);
  }

  lemma AsidePhase(c: DiskChain, next: string, env: Env)
    requires Going(c, true, {})
    ensures var a := [Act(Flush(Intent), 63), Act(Flush(Directory), 64), Act(Write(Pending, next), 65)];
      Going(PlayDisk(c, a, env), true, {Intent})
  {
    hide PlayDisk, Safe, Touch, Effect;
    var q, w := [Act(Flush(Intent), 63), Act(Flush(Directory), 64)], Act(Write(Pending, next), 65);
    assert q + [w] == [q[0], q[1], w];
    QuietThen(c, q, w, env);
    QuietGoing(c, q, env, true, {});
    QuietCalls(c, q, env);
    var c1 := PlayDisk(c, q, env);
    assert q[0].call == Flush(Intent) && q[1].call == Flush(Directory);
    if c1.up {
      WriteAside(c1.disk, Pending, next, env(65));
    }
    SparedCall(c1, w.call, env(65), Hold);
    SparedCall(c1, w.call, env(65), Intent);
  }

  lemma CheckPhase(c: DiskChain, original: string, next: string, env: Env)
    requires Going(c, true, {Intent})
    ensures var a :=
        [Act(Flush(Pending), 66), Act(Holds(Pending, 4165, next), 67), Act(Holds(QueueFile, 4165, original), 68)];
      Going(PlayDisk(c, a, env), true, {Intent, Pending})
  {
    hide PlayDisk, Safe;
    var q := [Act(Flush(Pending), 66), Act(Holds(Pending, 4165, next), 67), Act(Holds(QueueFile, 4165, original), 68)];
    QuietGoing(c, q, env, true, {Intent});
    QuietCalls(c, q, env);
    assert q[0].call == Flush(Pending);
  }

  lemma InstallPhase(c: DiskChain, env: Env)
    requires Going(c, true, {Intent, Pending})
    ensures var after := PlayDisk(c, [Act(Replace(Pending, QueueFile), 69), Act(Flush(Directory), 70)], env);
      Going(after, true, {Intent}) && (after.up ==> after.disk.entries == {} && Pending !in after.disk.files)
  {
    hide PlayDisk, Safe, Touch, Effect;
    var w, q := Act(Replace(Pending, QueueFile), 69), [Act(Flush(Directory), 70)];
    assert [w] + q == [w, q[0]];
    ThenQuiet(c, w, q, env);
    var c1 := c.Then(w.call, env(69));
    if c.up {
      InstallQueue(c.disk, env(69));
      PendingMoved(c.disk, env(69));
    }
    SparedCall(c, w.call, env(69), Hold);
    SparedCall(c, w.call, env(69), Intent);
    QuietGoing(c1, q, env, true, {Intent});
    QuietCalls(c1, q, env);
    assert q[0].call == Flush(Directory);
  }

  lemma PendingMoved(d: Disk, o: Outcome)
    ensures Acknowledged(d.files, Replace(Pending, QueueFile), o) ==>
              Pending !in Touch(d, Replace(Pending, QueueFile), o).files
  {
  }

  lemma ArchivePhase(c: DiskChain, w: Act, q: Act, env: Env)
    requires w.call == Replace(Intent, LastJournal) && q.call == Flush(Directory)
    requires Going(c, true, {Intent}) && (c.up ==> c.disk.entries == {} && Pending !in c.disk.files)
    ensures Going(PlayDisk(c, [w, q], env), false, {})
  {
    hide PlayDisk, Safe, Touch, Effect;
    assert [w] + [q] == [w, q];
    ThenQuiet(c, w, [q], env);
    var c1 := c.Then(w.call, env(w.site));
    if c.up {
      ArchiveJournal(c.disk, env(w.site));
    }
    SparedCall(c, w.call, env(w.site), Hold);
    QuietGoing(c1, [q], env, false, {});
  }

  lemma PrepareSafe(c: DiskChain, original: string, next: string, env: Env)
    requires Going(c, false, {})
    ensures Going(PlayDisk(c, PrepareActs(original, next), env), true, {Intent, Pending})
  {
    hide PlayDisk, Going, Journal;
    var a := [Act(Lacks(Intent), 60), Act(Lacks(Pending), 61), Act(Write(Intent, Journal(original, next)), 62)];
    var b := [Act(Flush(Intent), 63), Act(Flush(Directory), 64), Act(Write(Pending, next), 65)];
    var d := [Act(Flush(Pending), 66), Act(Holds(Pending, 4165, next), 67), Act(Holds(QueueFile, 4165, original), 68)];
    DiskConcat(c, a + b, d, env);
    DiskConcat(c, a, b, env);
    JournalPhase(c, original, next, env);
    AsidePhase(PlayDisk(c, a, env), next, env);
    CheckPhase(PlayDisk(c, a + b, env), original, next, env);
  }

  /** Wherever a commit stops, the disk stays safe. */
  lemma CommitSafe(c: DiskChain, original: string, next: string, env: Env)
    requires Safe(c.disk) && Hold !in c.disk.files
    ensures Safe(PlayDisk(c, CommitActs(original, next), env).disk)
  {
    hide PlayDisk, Safe, PrepareActs;
    var a := PrepareActs(original, next);
    var b := [Act(Replace(Pending, QueueFile), 69), Act(Flush(Directory), 70)];
    var d := [Act(Replace(Intent, LastJournal), 71), Act(Flush(Directory), 72)];
    DiskConcat(c, a + b, d, env);
    DiskConcat(c, a, b, env);
    PrepareSafe(c, original, next, env);
    InstallPhase(PlayDisk(c, a, env), env);
    ArchivePhase(PlayDisk(c, a + b, env), d[0], d[1], env);
  }

  // ---- the other operations ----

  lemma ArchiveSafe(c: DiskChain, env: Env)
    requires Safe(c.disk) && (c.up ==> Hold !in c.disk.files && Intent in c.disk.files && Pending !in c.disk.files)
    ensures Safe(PlayDisk(c, ArchiveActs(), env).disk)
  {
    hide PlayDisk, Safe;
    if !c.up {
      DiskDown(c.disk, ArchiveActs(), env);
    } else {
      var q := [Act(Flush(QueueFile), 81), Act(Flush(Intent), 82), Act(Flush(Directory), 83)];
      var b := [Act(Replace(Intent, LastJournal), 84), Act(Flush(Directory), 85)];
      DiskConcat(c, q, b, env);
      QuietGoing(c, q, env, true, {});
      QuietCalls(c, q, env);
      assert q[1].call == Flush(Intent) && q[2].call == Flush(Directory);
      ArchivePhase(PlayDisk(c, q, env), b[0], b[1], env);
    }
  }

  /** A claim is published only from a synced staging file. */
  lemma ClaimSafe(c: DiskChain, t: string, env: Env)
    requires Safe(c.disk)
    ensures Safe(PlayDisk(c, ClaimActs(t), env).disk)
  {
    hide PlayDisk, Safe, Touch, Effect, Claim, Acknowledged;
    var w, p := Act(Write(Staged(t), Claim(t)), 41), Act(Publish(Staged(t), Used(t)), 44);
    var q := [Act(Flush(Staged(t)), 42), Act(Holds(Staged(t), 70, Claim(t)), 43)];
    var r := [Act(Flush(Used(t)), 45), Act(Holds(Used(t), 70, Claim(t)), 46), Act(Flush(Directory), 47)];
    assert ClaimActs(t) == ([w] + q) + ([p] + r);
    DiskConcat(c, [w] + q, [p] + r, env);
    ThenQuiet(c, w, q, env);
    var c1 := c.Then(w.call, env(41));
    WriteAside(c.disk, Staged(t), Claim(t), env(41));
    QuietSafe(c1, q, env);
    QuietCalls(c1, q, env);
    assert q[0].call == Flush(Staged(t));
    var c2 := PlayDisk(c1, q, env);
    ThenQuiet(c2, p, r, env);
    if c2.up {
      PublishClaim(c2.disk, t, env(44));
    }
    QuietSafe(c2.Then(p.call, env(44)), r, env);
  }

  lemma QuietSafe(c: DiskChain, acts: seq<Act>, env: Env)
    requires Quiet(acts) && Safe(c.disk)
    ensures Safe(PlayDisk(c, acts, env).disk)
  {
    hide PlayDisk, Safe;
    QuietCalls(c, acts, env);
    CalmerSafe(c.disk, PlayDisk(c, acts, env).disk);
  }

  /** A receipt is written only once the settled marker's name is synced. */
  lemma ReceiptSafe(c: DiskChain, state: string, t: string, receipt: Presence, env: Env)
    requires |state| >= 5 && Safe(c.disk)
    ensures Safe(PlayDisk(c, EvidenceActs(state, t) + ReceiptActs(receipt, t), env).disk)
  {
    hide PlayDisk, Safe, Touch, Effect, Mark, DequeueRecord, Acknowledged;
    var e, r := EvidenceActs(state, t), ReceiptActs(receipt, t);
    DiskConcat(c, e, r, env);
    QuietSafe(c, e, env);
    QuietCalls(c, e, env);
    var c1 := PlayDisk(c, e, env);
    if receipt == Missing {
      var w, q := r[0], r[1..];
      assert r == [w] + q;
      assert e[5].call == Flush(Directory);
      ThenQuiet(c1, w, q, env);
      if c1.up {
        WriteReceipt(c1.disk, Mark(t), env(109));
      }
      QuietSafe(c1.Then(w.call, env(109)), q, env);
    } else {
      QuietSafe(c1, r, env);
    }
  }

  lemma RecoverSettleSafe(c: DiskChain, fs: Files, state: string, t: string, pending: Presence, intent: Presence, env: Env)
    requires |state| >= 5 && Safe(c.disk)
    ensures Safe(PlayDisk(c, RecoverSettleActs(fs, state, t, pending, intent, env), env).disk)
  {
    hide PlayDisk, Safe, EvidenceActs, ReceiptActs, RecoverSettleGuard;
    ReceiptSafe(c, state, t, Look(fs, Receipt, env(100)), env);
    QuietSafe(c, [], env);
  }

  lemma SettleSafe(c: DiskChain, fs: Files, state: string, t: string, env: Env)
    requires |state| >= 5 && Safe(c.disk) && Hold !in c.disk.files
    ensures Safe(PlayDisk(c, SettleActs(fs, state, t, env), env).disk)
  {
    hide PlayDisk, Safe, Touch, Effect, DequeueRecord, RecoverSettleActs, IndexOf;
    QuietSafe(c, [], env);
    if IndexOf(state, Line(t)) < 0 {
      var moved := if Release in fs then Moved(fs, Release, SettledHold) else fs;
      var e, m := DequeueEvidenceActs(state, t), MoveReleaseActs();
      var r := RecoverSettleActs(moved, state, t, Missing, Missing, env);
      DiskConcat(c, e + m, r, env);
      DiskConcat(c, e, m, env);
      MovedSafe(c, state, t, env);
      RecoverSettleSafe(PlayDisk(c, e + m, env), moved, state, t, Missing, Missing, env);
    }
  }

  lemma MovedSafe(c: DiskChain, state: string, t: string, env: Env)
    requires |state| >= 5 && Safe(c.disk) && Hold !in c.disk.files
    ensures Safe(PlayDisk(PlayDisk(c, DequeueEvidenceActs(state, t), env), MoveReleaseActs(), env).disk)
  {
    hide PlayDisk, Safe, Touch, Effect, DequeueRecord;
    var e, m := DequeueEvidenceActs(state, t), MoveReleaseActs();
    var q, l := e[..5], e[5];
    assert e == q + [l];
    QuietThen(c, q, l, env);
    QuietSafe(c, q, env);
    QuietCalls(c, q, env);
    var c1 := PlayDisk(c, q, env);
    var c2 := c1.Then(l.call, env(125));
    QuietCall(c1, l.call, env(125));
    CalmerSafe(c1.disk, c2.disk);
    assert m == [m[0]] + [m[1]];
    ThenQuiet(c2, m[0], [m[1]], env);
    if c2.up {
      MoveRelease(c2.disk, env(126));
    }
    QuietSafe(c2.Then(m[0].call, env(126)), [m[1]], env);
  }

  lemma ReleaseSafe(c: DiskChain, env: Env)
    requires Safe(c.disk)
    ensures Safe(PlayDisk(c, ReleaseActs(), env).disk)
  {
    hide PlayDisk, Safe, Touch, Effect;
    var a := ReleaseActs();
    assert a == [a[0]] + ([a[1]] + [a[2]]);
    ThenQuiet(c, a[0], [a[1]] + [a[2]], env);
    var c1 := c.Then(a[0].call, env(142));
    QuietCall(c, a[0].call, env(142));
    CalmerSafe(c.disk, c1.disk);
    ThenQuiet(c1, a[1], [a[2]], env);
    if c1.up {
      MoveHold(c1.disk, env(143));
    }
    QuietSafe(c1.Then(a[1].call, env(143)), [a[2]], env);
  }

  /** A hold is written only once the last receipt's move is synced. */
  lemma HoldSafe(c: DiskChain, t: string, env: Env)
    requires Safe(c.disk)
    requires c.up ==> Intent !in c.disk.files && SettledHold !in c.disk.entries && PreviousReceipt !in c.disk.entries
    requires c.up && SettledHold in c.disk.files ==> LastJournal !in c.disk.entries
    ensures Safe(PlayDisk(c, HoldActs(t), env).disk)
  {
    hide PlayDisk, Safe, Touch, Effect, Mark;
    var a := HoldActs(t);
    assert a == [a[0]] + [a[1], a[2]];
    ThenQuiet(c, a[0], [a[1], a[2]], env);
    if c.up {
      WriteHold(c.disk, Mark(t), env(151));
    }
    QuietSafe(c.Then(a[0].call, env(151)), [a[1], a[2]], env);
  }

  lemma ConsumeSafe(c: DiskChain, env: Env)
    requires Safe(c.disk) && (c.up ==> Hold !in c.disk.files && Intent !in c.disk.files && Receipt !in c.disk.content)
    ensures var after := PlayDisk(c, ConsumeActs(), env);
      Safe(after.disk) && (after.up ==> Intent !in after.disk.files && after.disk.entries == {})
  {
    hide PlayDisk, Safe, Touch, Effect;
    var a := ConsumeActs();
    assert a == [a[0]] + [a[1]];
    ThenQuiet(c, a[0], [a[1]], env);
    var c1 := c.Then(a[0].call, env(29));
    if c.up {
      ConsumeReceipt(c.disk, env(29));
      SparedCall(c, a[0].call, env(29), Intent);
    }
    QuietSafe(c1, [a[1]], env);
    QuietCalls(c1, [a[1]], env);
    assert [a[1]][0].call == Flush(Directory);
  }

  lemma HistoryQuiet(fs: Files, site: nat)
    ensures Quiet(HistoryActs(fs, site))
  {
  }

  lemma ReserveSafe(c: DiskChain, fs: Files, t: string, env: Env)
    requires c.disk.files == fs && Safe(c.disk) && Hold !in fs && Intent !in fs
    ensures Safe(PlayDisk(c, ReserveActs(fs, t, env), env).disk)
  {
    hide PlayDisk, Safe, HoldActs, ConsumeActs, Read, ValidMark;
    var status, h, o := Look(fs, Receipt, env(20)), HistoryActs(fs, 21), HoldActs(t);
    HistoryQuiet(fs, 21);
    QuietSafe(c, h, env);
    QuietSafe(c, [], env);
    QuietCalls(c, h, env);
    var c1 := PlayDisk(c, h, env);
    if HistoryGuard(fs, env, 21) && status != Unknown {
      var m := if status == Found then ConsumeActs() else [];
      assert (h + m) + o == h + (m + o);
      DiskConcat(c, h, m + o, env);
      DiskConcat(c1, m, o, env);
      if status == Found {
        assert h[1].call == Flush(Receipt);
        ConsumeSafe(c1, env);
      } else {
        NoHistoryNames(c.disk);
        PlayDiskNone(c1, env);
      }
      HoldSafe(PlayDisk(c1, m, env), t, env);
    }
  }

  lemma PlayDiskNone(c: DiskChain, env: Env)
    ensures PlayDisk(c, [], env) == c
  {
  }

  lemma NoHistoryNames(d: Disk)
    requires Safe(d)
    ensures SettledHold in d.entries ==> SettledHold in d.files
    ensures PreviousReceipt in d.entries ==> PreviousReceipt in d.files
  {
  }

  // ---- every operation ----

  lemma RecoverScriptSafe(c: DiskChain, state: string, pending: Presence, intent: Presence, fs: Files, env: Env)
    requires Safe(c.disk) && c.disk.files == fs && Hold !in fs && Seen(fs, Intent, intent) && Seen(fs, Pending, pending)
    ensures Safe(PlayDisk(c, RecoverScript(fs, state, pending, intent, env), env).disk)
  {
    hide PlayDisk, Safe, ArchiveActs, ValidJournal, JournalOld, JournalNext, Read;
    QuietSafe(c, [], env);
    if intent == Found && pending == Missing {
      ArchiveSafe(c, env);
    }
  }

  lemma ReleasedScriptSafe(c: DiskChain, fs: Files, op: Op, t: string, state: string, pending: Presence,
                           intent: Presence, env: Env)
    requires Safe(c.disk) && c.disk.files == fs && Hold !in fs && ValidState(state)
    requires Seen(fs, Intent, intent) && Seen(fs, Pending, pending)
    ensures Safe(PlayDisk(c, ReleasedScript(fs, op, t, state, pending, intent, env), env).disk)
  {
    hide PlayDisk, Safe, RecoverScript, SettleActs, CommitActs, ValidState, IsTicket, Claimed, Read, FrontLine, AfterFront;
    StateLength(state);
    QuietSafe(c, [], env);
    RecoverScriptSafe(c, state, pending, intent, fs, env);
    SettleSafe(c, fs, state, t, env);
    CommitSafe(c, state, AfterFront(state), env);
  }

  lemma ClaimSpares(t: string, f: File)
    requires f != Staged(t) && f != Used(t)
    ensures Spares(ClaimActs(t), {f})
  {
    hide Claim;
  }

  lemma EnqueueScriptSafe(c: DiskChain, fs: Files, t: string, state: string, env: Env)
    requires Safe(c.disk) && Hold !in c.disk.files
    ensures Safe(PlayDisk(c, EnqueueScript(fs, t, state, env), env).disk)
  {
    hide PlayDisk, Safe, ClaimActs, CommitActs, IndexOf;
    QuietSafe(c, [], env);
    DiskConcat(c, ClaimActs(t), CommitActs(state, state + Line(t)), env);
    ClaimSafe(c, t, env);
    ClaimSpares(t, Hold);
    Spared(c, ClaimActs(t), env, Hold);
    CommitSafe(PlayDisk(c, ClaimActs(t), env), state, state + Line(t), env);
  }

  lemma IdleScriptSafe(c: DiskChain, fs: Files, op: Op, t: string, state: string, pending: Presence, intent: Presence,
                       env: Env)
    requires Safe(c.disk) && c.disk.files == fs && Hold !in fs && ValidState(state)
    requires Seen(fs, Intent, intent) && Seen(fs, Pending, pending)
    ensures Safe(PlayDisk(c, IdleScript(fs, op, t, state, pending, intent, env), env).disk)
  {
    hide PlayDisk, Safe, RecoverScript, ReserveActs, EnqueueScript, CommitActs, ValidState, IsTicket, Claimed;
    hide FrontLine, IndexOf, WithoutLine;
    QuietSafe(c, [], env);
    RecoverScriptSafe(c, state, pending, intent, fs, env);
    EnqueueScriptSafe(c, fs, t, state, env);
    var i := IndexOf(state, Line(t));
    if i >= 0 {
      CommitSafe(c, state, WithoutLine(state, i), env);
    }
    if pending == Missing && intent == Missing {
      ReserveSafe(c, fs, t, env);
    }
  }

  lemma InspectQuiet(fs: Files, t: string, state: string, hold: Presence, release: Presence, pending: Presence,
                     intent: Presence, env: Env)
    ensures Quiet(InspectScript(fs, t, state, hold, release, pending, intent, env))
  {
    hide HistoryGuard, MarkerGuard, IsTicket, Claimed;
  }

  lemma DispatchSafe(c: DiskChain, fs: Files, op: Op, t: string, state: string, hold: Presence, release: Presence,
                     pending: Presence, intent: Presence, env: Env)
    requires Safe(c.disk) && c.disk.files == fs && ValidState(state)
    requires Seen(fs, Hold, hold) && Seen(fs, Intent, intent) && Seen(fs, Pending, pending) && hold != Unknown
    requires hold != Found || release != Found
    ensures Safe(PlayDisk(c, DispatchScript(fs, op, t, state, hold, release, pending, intent, env), env).disk)
  {
    hide PlayDisk, Safe, InspectScript, RecoverSettleActs, ReleasedScript, ReleaseActs, IdleScript, HistoryGuard;
    hide HistoryActs, ValidState, IsTicket, Claimed, Read, FrontLine;
    StateLength(state);
    QuietSafe(c, [], env);
    InspectQuiet(fs, t, state, hold, release, pending, intent, env);
    QuietSafe(c, InspectScript(fs, t, state, hold, release, pending, intent, env), env);
    RecoverSettleSafe(c, fs, state, t, pending, intent, env);
    ReleaseSafe(c, env);
    if hold == Missing {
      ReleasedScriptSafe(c, fs, op, t, state, pending, intent, env);
      HistoryQuiet(fs, 10);
      QuietSafe(c, HistoryActs(fs, 10), env);
      QuietCalls(c, HistoryActs(fs, 10), env);
      DiskConcat(c, HistoryActs(fs, 10), IdleScript(fs, op, t, state, pending, intent, env), env);
      IdleScriptSafe(PlayDisk(c, HistoryActs(fs, 10), env), fs, op, t, state, pending, intent, env);
    }
  }

  /** No operation leaves an unsafe disk, wherever it stops. */
  lemma ScriptSafe(d: Disk, op: Op, t: string, env: Env)
    requires Safe(d)
    ensures Safe(PlayDisk(DiskChain(d, true), Script(d.files, op, t, env), env).disk)
  {
    hide PlayDisk, Safe, DispatchScript, ValidState, Read;
    var fs, c := d.files, DiskChain(d, true);
    QuietSafe(c, [], env);
    var hold, release := Look(fs, Hold, env(0)), Look(fs, Release, env(1));
    var present, pending, intent := Look(fs, QueueFile, env(2)), Look(fs, Pending, env(3)), Look(fs, Intent, env(4));
    var state := if present == Found then Read(fs, QueueFile, 4165, env(5)) else "";
    if ValidState(state) && hold != Unknown && (hold != Found || release != Found) {
      DispatchSafe(c, fs, op, t, state, hold, release, pending, intent, env);
    }
  }

  lemma {:induction false} AlwaysSafe(run: seq<Invocation>)
    ensures Safe(DiskRun(run))
  {
    if run != [] {
      hide PlayDisk, Safe, Script;
      var i := run[|run| - 1];
      AlwaysSafe(run[..|run| - 1]);
      ScriptSafe(DiskRun(run[..|run| - 1]), i.op, i.ticket, i.env);
    }
  }
}
