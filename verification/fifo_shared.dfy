/** Several processes on one queue directory, interleaved one file-system call at a time. A process takes the lock, makes
  the calls of its operation, answers and lets the lock go; one that finds the lock taken answers that the queue is
  busy. A killed process loses the lock and leaves the files as they are. */
module FifoShared {
  import opened Wrappers

  import opened FifoText
  import opened FifoStore
  import opened Fifo
  import opened FifoLog
  import opened FifoCommit
  import opened FifoLeaves
  import opened FifoSafety
  import opened FifoRuns
  import opened FifoRecovery
  import opened FifoProgress
  import opened FifoRetry
  import opened FifoScript
  import opened FifoAnswers

  // ---- calls and their sites ----

  /** The sites of calls that change, sync or check files on the way; all others are first looks that decide what to
    call. */
  predicate ActSite(n: nat) {
    || 15 <= n <= 17 || 26 <= n <= 30 || 41 <= n <= 47 || 60 <= n <= 72 || 81 <= n <= 85 || 103 <= n <= 111
    || 120 <= n <= 127 || 142 <= n <= 144 || 151 <= n <= 153 || 170 <= n <= 174
  }

  /** Every call at a site of its own, all from `lo` up to `hi`. */
  ghost predicate Neat(acts: seq<Act>, lo: nat, hi: nat) {
    && (forall i :: 0 <= i < |acts| ==> lo <= acts[i].site < hi && ActSite(acts[i].site))
    && (forall i, j :: 0 <= i < j < |acts| ==> acts[i].site != acts[j].site)
  }

  lemma NeatConcat(a: seq<Act>, lo: nat, mid: nat, b: seq<Act>, low: nat, hi: nat)
    requires Neat(a, lo, mid) && Neat(b, low, hi) && (mid <= low || hi <= lo)
    ensures Neat(a + b, if lo <= low then lo else low, if mid <= hi then hi else mid)
  {
    hide ActSite;
    forall i, j | 0 <= i < j < |a + b| ensures (a + b)[i].site != (a + b)[j].site {
      if i < |a| <= j {
        assert (a + b)[i] == a[i] && (a + b)[j] == b[j - |a|];
      }
    }
  }

  lemma NeatWider(acts: seq<Act>, lo: nat, hi: nat, low: nat, high: nat)
    requires Neat(acts, lo, hi) && low <= lo && hi <= high
    ensures Neat(acts, low, high)
  {
    hide ActSite;
  }

  lemma PrepareNeat(original: string, next: string)
    ensures Neat(PrepareActs(original, next), 60, 69)
  {
    hide Journal;
    var acts := PrepareActs(original, next);
    assert |acts| == 9 && forall i :: 0 <= i < 9 ==> acts[i].site == 60 + i;
  }

  lemma CommitNeat(original: string, next: string)
    ensures Neat(CommitActs(original, next), 60, 73)
  {
    hide PrepareActs;
    PrepareNeat(original, next);
    var b := [Act(Replace(Pending, QueueFile), 69), Act(Flush(Directory), 70)];
    var d := [Act(Replace(Intent, LastJournal), 71), Act(Flush(Directory), 72)];
    NeatConcat(PrepareActs(original, next), 60, 69, b, 69, 71);
    NeatConcat(PrepareActs(original, next) + b, 60, 71, d, 71, 73);
  }

  lemma ClaimNeat(t: string)
    ensures Neat(ClaimActs(t), 41, 48)
  {
    hide Claim;
    var acts := ClaimActs(t);
    assert |acts| == 7 && forall i :: 0 <= i < 7 ==> acts[i].site == 41 + i;
  }

  lemma EvidenceNeat(state: string, t: string, receipt: Presence)
    requires |state| >= 5
    ensures Neat(EvidenceActs(state, t) + ReceiptActs(receipt, t), 103, 112)
    ensures Neat(DequeueEvidenceActs(state, t) + MoveReleaseActs(), 120, 128)
  {
    hide Mark, DequeueRecord;
    var a, b := EvidenceActs(state, t) + ReceiptActs(receipt, t), DequeueEvidenceActs(state, t) + MoveReleaseActs();
    assert |a| <= 9 && forall i :: 0 <= i < |a| ==> a[i].site == 103 + i;
    assert |b| == 8 && forall i :: 0 <= i < 8 ==> b[i].site == 120 + i;
  }

  lemma HistoryNeat(fs: Files)
    ensures Neat(HistoryActs(fs, 10), 10, 20) && Neat(HistoryActs(fs, 21), 20, 29)
  {
  }

  lemma ShortNeat(t: string, hold: Presence, release: Presence)
    ensures Neat(ArchiveActs(), 81, 86) && Neat(ReleaseActs(), 142, 145) && Neat(ConsumeActs(), 29, 31)
    ensures Neat(HoldActs(t), 151, 154) && Neat(InspectActs(t, hold, release), 170, 175)
  {
    InspectActsNeat(t, hold, release);
    HoldActsNeat(t);
    assert forall i :: 0 <= i < 5 ==> ArchiveActs()[i].site == 81 + i;
  }

  lemma InspectActsNeat(t: string, hold: Presence, release: Presence)
    ensures Neat(InspectActs(t, hold, release), 170, 175)
  {
  }

  lemma HoldActsNeat(t: string)
    ensures Neat(HoldActs(t), 151, 154)
  {
    hide Mark;
  }

  lemma RecoverSettleNeat(fs: Files, state: string, t: string, pending: Presence, intent: Presence, env: Env)
    requires |state| >= 5
    ensures Neat(RecoverSettleActs(fs, state, t, pending, intent, env), 103, 112)
  {
    hide EvidenceActs, ReceiptActs, RecoverSettleGuard, Neat;
    NoneNeat(103, 112);
    EvidenceNeat(state, t, Look(fs, Receipt, env(100)));
  }

  lemma SettleNeat(fs: Files, state: string, t: string, env: Env)
    requires |state| >= 5
    ensures Neat(SettleActs(fs, state, t, env), 103, 128)
  {
    hide DequeueEvidenceActs, MoveReleaseActs, RecoverSettleActs, IndexOf, Neat;
    NoneNeat(103, 128);
    var moved := if Release in fs then Moved(fs, Release, SettledHold) else fs;
    EvidenceNeat(state, t, Missing);
    RecoverSettleNeat(moved, state, t, Missing, Missing, env);
    NeatConcat(DequeueEvidenceActs(state, t) + MoveReleaseActs(), 120, 128,
               RecoverSettleActs(moved, state, t, Missing, Missing, env), 103, 112);
  }

  lemma ReserveNeat(fs: Files, t: string, env: Env)
    ensures Neat(ReserveActs(fs, t, env), 20, 154)
  {
    hide HistoryActs, ConsumeActs, HoldActs, HistoryGuard, Neat;
    HistoryNeat(fs);
    ShortNeat(t, Missing, Missing);
    NoneNeat(20, 154);
    NoneNeat(29, 31);
    NeatWider(HistoryActs(fs, 21), 20, 29, 20, 154);
    var m := if Look(fs, Receipt, env(20)) == Found then ConsumeActs() else [];
    NeatConcat(HistoryActs(fs, 21), 20, 29, m, 29, 31);
    NeatConcat(HistoryActs(fs, 21) + m, 20, 31, HoldActs(t), 151, 154);
  }

  lemma EnqueueNeat(fs: Files, t: string, state: string, env: Env)
    ensures Neat(EnqueueScript(fs, t, state, env), 41, 73)
  {
    hide ClaimActs, CommitActs, IndexOf, Neat;
    NoneNeat(41, 73);
    ClaimNeat(t);
    CommitNeat(state, state + Line(t));
    NeatConcat(ClaimActs(t), 41, 48, CommitActs(state, state + Line(t)), 60, 73);
  }

  lemma IdleNeat(fs: Files, op: Op, t: string, state: string, pending: Presence, intent: Presence, env: Env)
    requires ValidState(state)
    ensures Neat(IdleScript(fs, op, t, state, pending, intent, env), 20, 200)
  {
    hide ArchiveActs, ReserveActs, EnqueueScript, CommitActs, ValidState, IsTicket, Claimed, FrontLine, IndexOf;
    hide WithoutLine, ValidJournal, JournalOld, JournalNext, Read, Neat;
    NoneNeat(20, 200);
    ShortNeat(t, Missing, Missing);
    NeatWider(ArchiveActs(), 81, 86, 20, 200);
    ReserveNeat(fs, t, env);
    NeatWider(ReserveActs(fs, t, env), 20, 154, 20, 200);
    EnqueueNeat(fs, t, state, env);
    NeatWider(EnqueueScript(fs, t, state, env), 41, 73, 20, 200);
    var i := IndexOf(state, Line(t));
    if i >= 0 {
      CommitNeat(state, WithoutLine(state, i));
      NeatWider(CommitActs(state, WithoutLine(state, i)), 60, 73, 20, 200);
    }
  }

  lemma DispatchNeat(fs: Files, op: Op, t: string, state: string, hold: Presence, release: Presence,
                     pending: Presence, intent: Presence, env: Env)
    requires ValidState(state)
    ensures Neat(DispatchScript(fs, op, t, state, hold, release, pending, intent, env), 0, 200)
  {
    hide IdleScript, HistoryActs, HistoryGuard, RecoverSettleActs, ReleasedScript, InspectScript, ReleaseActs, Neat;
    hide ValidState, IsTicket, Claimed, Read, FrontLine;
    StateLength(state);
    NoneNeat(0, 200);
    ShortNeat(t, hold, release);
    NeatWider(ReleaseActs(), 142, 145, 0, 200);
    HistoryNeat(fs);
    RecoverSettleNeat(fs, state, t, pending, intent, env);
    NeatWider(RecoverSettleActs(fs, state, t, pending, intent, env), 103, 112, 0, 200);
    ReleasedNeat(fs, op, t, state, pending, intent, env);
    InspectNeat(fs, t, state, hold, release, pending, intent, env);
    IdleNeat(fs, op, t, state, pending, intent, env);
    NeatConcat(HistoryActs(fs, 10), 10, 20, IdleScript(fs, op, t, state, pending, intent, env), 20, 200);
    NeatWider(HistoryActs(fs, 10) + IdleScript(fs, op, t, state, pending, intent, env), 10, 200, 0, 200);
  }

  lemma ReleasedNeat(fs: Files, op: Op, t: string, state: string, pending: Presence, intent: Presence, env: Env)
    requires ValidState(state)
    ensures Neat(ReleasedScript(fs, op, t, state, pending, intent, env), 0, 200)
  {
    hide ArchiveActs, SettleActs, CommitActs, ValidState, IsTicket, Claimed, Read, FrontLine, AfterFront, Neat;
    hide ValidJournal, JournalOld, JournalNext;
    StateLength(state);
    NoneNeat(0, 200);
    ShortNeat(t, Missing, Missing);
    NeatWider(ArchiveActs(), 81, 86, 0, 200);
    SettleNeat(fs, state, t, env);
    NeatWider(SettleActs(fs, state, t, env), 103, 128, 0, 200);
    CommitNeat(state, AfterFront(state));
    NeatWider(CommitActs(state, AfterFront(state)), 60, 73, 0, 200);
  }

  lemma InspectNeat(fs: Files, t: string, state: string, hold: Presence, release: Presence, pending: Presence,
                    intent: Presence, env: Env)
    ensures Neat(InspectScript(fs, t, state, hold, release, pending, intent, env), 0, 200)
  {
    hide HistoryActs, HistoryGuard, MarkerGuard, InspectActs, IsTicket, Claimed, Neat;
    HistoryNeat(fs);
    ShortNeat(t, hold, release);
    NoneNeat(0, 200);
    NoneNeat(10, 20);
    NoneNeat(170, 175);
    var h := if hold == Missing && release == Missing then HistoryActs(fs, 10) else [];
    var a := if Claimed(fs, t, env(162)) then InspectActs(t, hold, release) else [];
    NeatConcat(h, 10, 20, a, 170, 175);
    NeatWider(h + a, 10, 175, 0, 200);
  }

  lemma NoneNeat(lo: nat, hi: nat)
    ensures Neat([], lo, hi)
  {
  }

  lemma ScriptNeat(fs: Files, op: Op, t: string, env: Env)
    ensures Neat(Script(fs, op, t, env), 0, 200)
  {
    hide DispatchScript, ValidState, Read, ActSite;
    var hold, release := Look(fs, Hold, env(0)), Look(fs, Release, env(1));
    var present, pending, intent := Look(fs, QueueFile, env(2)), Look(fs, Pending, env(3)), Look(fs, Intent, env(4));
    var state := if present == Found then Read(fs, QueueFile, 4165, env(5)) else "";
    if ValidState(state) {
      DispatchNeat(fs, op, t, state, hold, release, pending, intent, env);
    }
  }

  // ---- the first looks alone decide the calls ----

  ghost predicate SameLooks(a: Env, b: Env) {
    forall n: nat :: !ActSite(n) ==> a(n) == b(n)
  }

  lemma GuardLooks(fs: Files, a: Env, b: Env)
    requires SameLooks(a, b)
    ensures HistoryGuard(fs, a, 10) == HistoryGuard(fs, b, 10) && HistoryGuard(fs, a, 21) == HistoryGuard(fs, b, 21)
  {
    hide Read, ValidMark, Look;
    assert forall n: nat :: 10 <= n <= 14 || 21 <= n <= 25 ==> a(n) == b(n);
  }

  lemma SettleLooks(fs: Files, state: string, t: string, pending: Presence, intent: Presence, a: Env, b: Env)
    requires SameLooks(a, b) && |state| >= 5
    ensures RecoverSettleActs(fs, state, t, pending, intent, a) == RecoverSettleActs(fs, state, t, pending, intent, b)
    ensures SettleActs(fs, state, t, a) == SettleActs(fs, state, t, b)
  {
    hide Look, Claimed, IsTicket, IndexOf, EvidenceActs, ReceiptActs, DequeueEvidenceActs;
    assert a(100) == b(100) && a(101) == b(101) && a(102) == b(102);
  }

  lemma IdleLooks(fs: Files, op: Op, t: string, state: string, pending: Presence, intent: Presence, a: Env, b: Env)
    requires SameLooks(a, b) && ValidState(state)
    ensures IdleScript(fs, op, t, state, pending, intent, a) == IdleScript(fs, op, t, state, pending, intent, b)
  {
    hide Read, Look, Claimed, IsTicket, IndexOf, HistoryGuard, HistoryActs, ConsumeActs, HoldActs, ClaimActs, CommitActs;
    hide FrontLine, WithoutLine, ValidJournal, JournalOld, JournalNext, ArchiveActs, ValidState;
    GuardLooks(fs, a, b);
    assert a(20) == b(20) && a(40) == b(40) && a(80) == b(80) && a(150) == b(150);
  }

  lemma ReleasedLooks(fs: Files, op: Op, t: string, state: string, pending: Presence, intent: Presence, a: Env, b: Env)
    requires SameLooks(a, b) && ValidState(state)
    ensures ReleasedScript(fs, op, t, state, pending, intent, a) == ReleasedScript(fs, op, t, state, pending, intent, b)
  {
    hide Read, Claimed, IsTicket, SettleActs, CommitActs, FrontLine, AfterFront, ValidJournal, JournalOld, JournalNext;
    hide ArchiveActs, ValidState, Mark;
    StateLength(state);
    SettleLooks(fs, state, t, pending, intent, a, b);
    assert a(80) == b(80) && a(130) == b(130) && a(131) == b(131);
  }

  lemma DispatchLooks(fs: Files, op: Op, t: string, state: string, hold: Presence, release: Presence,
                      pending: Presence, intent: Presence, a: Env, b: Env)
    requires SameLooks(a, b) && ValidState(state)
    ensures DispatchScript(fs, op, t, state, hold, release, pending, intent, a)
         == DispatchScript(fs, op, t, state, hold, release, pending, intent, b)
  {
    hide Read, Claimed, IsTicket, IndexOf, IdleScript, ReleasedScript, RecoverSettleActs, HistoryGuard, HistoryActs;
    hide InspectActs, ReleaseActs, FrontLine, ValidState, Mark, ValidMark;
    StateLength(state);
    GuardLooks(fs, a, b);
    SettleLooks(fs, state, t, pending, intent, a, b);
    ReleasedLooks(fs, op, t, state, pending, intent, a, b);
    IdleLooks(fs, op, t, state, pending, intent, a, b);
    assert a(140) == b(140) && a(141) == b(141) && a(160) == b(160) && a(161) == b(161) && a(162) == b(162);
  }

  lemma ScriptLooks(fs: Files, op: Op, t: string, a: Env, b: Env)
    requires SameLooks(a, b)
    ensures Script(fs, op, t, a) == Script(fs, op, t, b)
  {
    hide DispatchScript, ValidState, Read, Look;
    assert a(0) == b(0) && a(1) == b(1) && a(2) == b(2) && a(3) == b(3) && a(4) == b(4) && a(5) == b(5);
    var hold, release := Look(fs, Hold, a(0)), Look(fs, Release, a(1));
    var present, pending, intent := Look(fs, QueueFile, a(2)), Look(fs, Pending, a(3)), Look(fs, Intent, a(4));
    var state := if present == Found then Read(fs, QueueFile, 4165, a(5)) else "";
    if ValidState(state) {
      DispatchLooks(fs, op, t, state, hold, release, pending, intent, a, b);
    }
  }

  // ---- an interrupted process is a run with refused calls ----

  function Sites(acts: seq<Act>): set<nat> {
    set i | 0 <= i < |acts| :: acts[i].site
  }

  /** The same outcomes, but none of the calls still to come takes place. */
  function Stopped(env: Env, todo: seq<Act>): Env {
    if todo == [] then env else (site: nat) => if site in Sites(todo) then Refused else env(site)
  }

  lemma {:induction false} SamePlay(c: Chain, acts: seq<Act>, a: Env, b: Env)
    requires forall i :: 0 <= i < |acts| ==> a(acts[i].site) == b(acts[i].site)
    ensures Play(c, acts, a) == Play(c, acts, b)
    decreases |acts|
  {
    hide Effect, Acknowledged;
    if acts != [] {
      assert acts[0].site == acts[0].site;
      SamePlay(c.Then(acts[0].call, a(acts[0].site)), acts[1..], a, b);
    }
  }

  lemma NoneStopped(env: Env)
    ensures Stopped(env, []) == env
  {
  }

  lemma RefusedCall(fs: Files, call: Call)
    ensures Begin(fs).Then(call, Refused) == Chain(fs, false)
  {
  }

  lemma StoppedTodo(fs: Files, todo: seq<Act>, env: Env)
    ensures Play(Begin(fs), todo, Stopped(env, todo)).files == fs
  {
    hide Effect, Acknowledged, Stopped;
    if todo != [] {
      assert Stopped(env, todo)(todo[0].site) == Refused by { FirstSite(todo, env); }
      RefusedCall(fs, todo[0].call);
      PlayDown(fs, todo[1..], Stopped(env, todo));
    }
  }

  lemma FirstSite(todo: seq<Act>, env: Env)
    requires todo != []
    ensures Stopped(env, todo)(todo[0].site) == Refused
  {
    assert todo[0].site in Sites(todo);
  }

  lemma TodoSites(acts: seq<Act>, made: seq<Act>, todo: seq<Act>)
    requires Neat(acts, 0, 200) && acts == made + todo
    ensures forall n :: n in Sites(todo) ==> ActSite(n)
    ensures forall i :: 0 <= i < |made| ==> made[i].site !in Sites(todo)
  {
    hide ActSite;
    forall n | n in Sites(todo) ensures ActSite(n) {
      var i :| 0 <= i < |todo| && todo[i].site == n;
      assert acts[|made| + i] == todo[i];
    }
    forall i | 0 <= i < |made| ensures made[i].site !in Sites(todo) {
      forall j | 0 <= j < |todo| ensures todo[j].site != made[i].site {
        assert acts[i] == made[i] && acts[|made| + j] == todo[j];
      }
    }
  }

  lemma StoppedLooks(acts: seq<Act>, made: seq<Act>, todo: seq<Act>, env: Env)
    requires Neat(acts, 0, 200) && acts == made + todo
    ensures SameLooks(env, Stopped(env, todo))
    ensures forall i :: 0 <= i < |made| ==> env(made[i].site) == Stopped(env, todo)(made[i].site)
  {
    hide ActSite, Sites, Neat;
    TodoSites(acts, made, todo);
  }

  /** How far an operation has come: the calls made so far, all of them acknowledged while some are still to come. */
  ghost predicate Midway(begun: Files, acts: seq<Act>, made: seq<Act>, todo: seq<Act>, env: Env, files: Files) {
    var c := Play(Begin(begun), made, env);
    && files == c.files
    && (if c.up then made + todo == acts else todo == [] && made <= acts)
  }

  lemma CallMade(begun: Files, acts: seq<Act>, made: seq<Act>, todo: seq<Act>, env: Env, files: Files)
    requires Midway(begun, acts, made, todo, env, files) && todo != []
    ensures var c := Begin(files).Then(todo[0].call, env(todo[0].site));
      Midway(begun, acts, made + [todo[0]], if c.up then todo[1..] else [], env, c.files)
  {
    hide Effect, Acknowledged, Play;
    PlayConcat(Begin(begun), made, [todo[0]], env);
    Play1(Play(Begin(begun), made, env), todo[0], env);
    assert (made + [todo[0]]) + todo[1..] == made + todo;
  }

  /** Once no call is left, the files are those of the whole operation. */
  lemma AllMade(begun: Files, op: Op, t: string, made: seq<Act>, env: Env, files: Files)
    requires Midway(begun, Script(begun, op, t, env), made, [], env, files)
    ensures Apply(begun, op, t, env).files == files
  {
    hide Play, Apply, Script, Succeeded;
    var acts := Script(begun, op, t, env);
    ScriptPlays(begun, op, t, env);
    if Play(Begin(begun), made, env).up {
      assert made + [] == made;
    } else {
      var rest := acts[|made|..];
      assert acts == made + rest;
      PlayConcat(Begin(begun), made, rest, env);
      PlayDown(files, rest, env);
    }
  }

  /** Killed with calls still to come, a process leaves the files of the operation with those calls refused. */
  lemma KilledIsStopped(begun: Files, op: Op, t: string, made: seq<Act>, todo: seq<Act>, env: Env, files: Files)
    requires Midway(begun, Script(begun, op, t, env), made, todo, env, files)
    ensures Apply(begun, op, t, Stopped(env, todo)).files == files
  {
    hide Play, Apply, Script, Stopped, Succeeded, Neat;
    var acts, stop := Script(begun, op, t, env), Stopped(env, todo);
    if todo == [] {
      AllMade(begun, op, t, made, env, files);
      NoneStopped(env);
    } else {
      ScriptNeat(begun, op, t, env);
      StoppedLooks(acts, made, todo, env);
      ScriptLooks(begun, op, t, env, stop);
      SamePlay(Begin(begun), made, env, stop);
      PlayConcat(Begin(begun), made, todo, stop);
      StoppedTodo(files, todo, env);
      ScriptPlays(begun, op, t, stop);
    }
  }

  // ---- processes ----

  /** Working: the process holds the lock; it found the files `begun`, has made some calls and has some to come.
    Answered: it was the holder number `at` of the lock. */
  datatype Process =
    | Waiting(op: Op, ticket: string, env: Env)
    | Working(op: Op, ticket: string, env: Env, begun: Files, made: seq<Act>, todo: seq<Act>)
    | Answered(op: Op, ticket: string, reply: Reply, at: nat)
    | Busy
    | Killed

  /** `history` lists those that held the lock and let it go; a killed one with the outcomes it was stopped with. */
  datatype System = System(files: Files, procs: seq<Process>, holder: Option<nat>, history: seq<Invocation>)

  datatype Turn = Go(p: nat) | Kill(p: nat)

  function Let(s: System, p: nat, ended: Process, i: Invocation): System
    requires p < |s.procs|
  {
    System(s.files, s.procs[p := ended], None, s.history + [i])
  }

  /** The lock, one call, or the answer. */
  function Act1(s: System, p: nat): System
    requires p < |s.procs|
  {
    match s.procs[p]
    case Waiting(op, t, env) =>
      if s.holder.Some? then s.(procs := s.procs[p := Busy])
      else s.(procs := s.procs[p := Working(op, t, env, s.files, [], Script(s.files, op, t, env))], holder := Some(p))
    case Working(op, t, env, begun, made, todo) =>
      if todo == [] then
        Let(s, p, Answered(op, t, Apply(begun, op, t, env).reply, |s.history|), Invocation(op, t, env, false))
      else
        var c := Begin(s.files).Then(todo[0].call, env(todo[0].site));
        var next := Working(op, t, env, begun, made + [todo[0]], if c.up then todo[1..] else []);
        s.(files := c.files, procs := s.procs[p := next])
    case _ => s
  }

  function Move(s: System, turn: Turn): System {
    if turn.p >= |s.procs| then s
    else if turn.Go? then Act1(s, turn.p)
    else
      match s.procs[turn.p]
      case Waiting(_, _, _) => s.(procs := s.procs[turn.p := Killed])
      case Working(op, t, env, _, _, todo) => Let(s, turn.p, Killed, Invocation(op, t, Stopped(env, todo), false))
      case _ => s
  }

  /** Any number of processes, in any order of turns, on the queue a run left. */
  function Interleave(before: seq<Invocation>, procs: seq<Process>, schedule: seq<Turn>): System {
    if schedule == [] then System(Run(before).files, procs, None, before)
    else Move(Interleave(before, procs, schedule[..|schedule| - 1]), schedule[|schedule| - 1])
  }

  ghost predicate AllWaiting(procs: seq<Process>) {
    forall p :: 0 <= p < |procs| ==> procs[p].Waiting?
  }

  // ---- the lock keeps the directory consistent ----

  /** Whoever holds the lock is in the middle of its own operation on the files of the run so far. */
  ghost predicate HolderMidway(s: System) {
    match s.holder
    case None => s.files == Run(s.history).files && forall p :: 0 <= p < |s.procs| ==> !s.procs[p].Working?
    case Some(p) =>
      && p < |s.procs| && s.procs[p].Working? && InTheMiddle(s.procs[p], Run(s.history).files, s.files)
      && forall q :: 0 <= q < |s.procs| && q != p ==> !s.procs[q].Working?
  }

  ghost predicate InTheMiddle(w: Process, begun: Files, files: Files)
    requires w.Working?
  {
    w.begun == begun && Midway(begun, Script(begun, w.op, w.ticket, w.env), w.made, w.todo, w.env, files)
  }

  ghost predicate AnswerOf(history: seq<Invocation>, a: Process)
    requires a.Answered?
  {
    && a.at < |history|
    && var i := history[a.at];
       !i.busy && i.op == a.op && i.ticket == a.ticket
       && a.reply == Apply(Run(history[..a.at]).files, a.op, a.ticket, i.env).reply
  }

  /** Every answer is the answer of its own invocation in the run. */
  ghost predicate AnswersInRun(s: System) {
    && (forall p :: 0 <= p < |s.procs| && s.procs[p].Answered? ==> AnswerOf(s.history, s.procs[p]))
    && (forall p, q :: 0 <= p < q < |s.procs| && s.procs[p].Answered? && s.procs[q].Answered? ==>
          s.procs[p].at != s.procs[q].at)
  }

  lemma Started(fs: Files, op: Op, t: string, env: Env)
    ensures Midway(fs, Script(fs, op, t, env), [], Script(fs, op, t, env), env, fs)
  {
    hide Script;
    PlayNone(Begin(fs), env);
    assert [] + Script(fs, op, t, env) == Script(fs, op, t, env);
  }

  lemma LetKeeps(s: System, p: nat, ended: Process, i: Invocation)
    requires HolderMidway(s) && s.holder == Some(p) && !i.busy && !ended.Working?
    requires Apply(s.procs[p].begun, i.op, i.ticket, i.env).files == s.files
    ensures HolderMidway(Let(s, p, ended, i))
  {
    hide Apply, Script, Midway, Run;
    RunSnoc(s.history, i);
  }

  lemma HolderStep(s: System, turn: Turn)
    requires HolderMidway(s)
    ensures HolderMidway(Move(s, turn))
  {
    hide Apply, Script, Midway, Run, Stopped, Effect, Acknowledged, Let;
    if turn.p < |s.procs| {
      match s.procs[turn.p]
      case Waiting(op, t, env) => Started(s.files, op, t, env);
      case Working(op, t, env, begun, made, todo) =>
        if turn.Kill? {
          KilledIsStopped(begun, op, t, made, todo, env, s.files);
          LetKeeps(s, turn.p, Killed, Invocation(op, t, Stopped(env, todo), false));
        } else if todo == [] {
          AllMade(begun, op, t, made, env, s.files);
          LetKeeps(s, turn.p, Answered(op, t, Apply(begun, op, t, env).reply, |s.history|), Invocation(op, t, env, false));
        } else {
          CallMade(begun, Script(begun, op, t, env), made, todo, env, s.files);
        }
      case _ =>
    }
  }

  lemma AnswerStays(history: seq<Invocation>, i: Invocation, a: Process)
    requires a.Answered? && AnswerOf(history, a)
    ensures AnswerOf(history + [i], a)
  {
    hide Apply, Run;
    assert (history + [i])[..a.at] == history[..a.at];
  }

  lemma AnswersStep(s: System, turn: Turn)
    requires HolderMidway(s) && AnswersInRun(s)
    ensures AnswersInRun(Move(s, turn))
  {
    hide Apply, Script, Midway, Run, Stopped, Effect, Acknowledged, AnswerOf;
    if turn.p < |s.procs| && s.procs[turn.p].Working? {
      var w, next := s.procs[turn.p], Move(s, turn);
      if turn.Kill? || w.todo == [] {
        var i := next.history[|s.history|];
        assert next.history == s.history + [i];
        forall q | 0 <= q < |s.procs| && q != turn.p && s.procs[q].Answered? ensures AnswerOf(next.history, next.procs[q]) {
          AnswerStays(s.history, i, s.procs[q]);
        }
        AnswerBelow(s);
        if turn.Go? {
          NewAnswer(s.history, i, next.procs[turn.p]);
        }
      }
    }
  }

  lemma AnswerBelow(s: System)
    requires AnswersInRun(s)
    ensures forall q :: 0 <= q < |s.procs| && s.procs[q].Answered? ==> s.procs[q].at < |s.history|
  {
    hide Apply, Run;
  }

  lemma NewAnswer(history: seq<Invocation>, i: Invocation, a: Process)
    requires a.Answered? && a.at == |history| && !i.busy && i.op == a.op && i.ticket == a.ticket
    requires a.reply == Apply(Run(history).files, a.op, a.ticket, i.env).reply
    ensures AnswerOf(history + [i], a)
  {
    hide Apply, Run;
    assert (history + [i])[..|history|] == history;
  }

  lemma {:induction false} AlwaysConsistent(before: seq<Invocation>, procs: seq<Process>, schedule: seq<Turn>)
    requires AllWaiting(procs)
    ensures var s := Interleave(before, procs, schedule);
      HolderMidway(s) && AnswersInRun(s) && before <= s.history && |s.procs| == |procs|
    decreases |schedule|
  {
    hide HolderMidway, AnswersInRun, Script, Apply, Run, Stopped, Effect, Acknowledged;
    if schedule == [] {
      StartConsistent(before, procs);
    } else {
      var n := |schedule| - 1;
      AlwaysConsistent(before, procs, schedule[..n]);
      HolderStep(Interleave(before, procs, schedule[..n]), schedule[n]);
      AnswersStep(Interleave(before, procs, schedule[..n]), schedule[n]);
    }
  }

  lemma StartConsistent(before: seq<Invocation>, procs: seq<Process>)
    requires AllWaiting(procs)
    ensures var s := System(Run(before).files, procs, None, before); HolderMidway(s) && AnswersInRun(s)
  {
    hide Run, Apply, Script, Midway;
  }

  /** However processes interleave their calls, and whichever of them are killed, at every moment the files are those of
    some run, one invocation after the other; at most its last one is still in progress. Every answer given is the
    answer of its own invocation in that run. */
  lemma InterleavingIsRun(before: seq<Invocation>, procs: seq<Process>, schedule: seq<Turn>)
    returns (run: seq<Invocation>)
    requires AllWaiting(procs)
    ensures var s := Interleave(before, procs, schedule);
      && Run(run).files == s.files && before <= s.history <= run && |run| <= |s.history| + 1
      && (forall p :: 0 <= p < |s.procs| && s.procs[p].Answered? ==> AnswerOf(run, s.procs[p]))
  {
    hide Apply, Script, Midway, Run, Stopped, Interleave, AnswerOf;
    var s := Interleave(before, procs, schedule);
    AlwaysConsistent(before, procs, schedule);
    run := s.history;
    if s.holder.Some? {
      var w := s.procs[s.holder.value];
      var i := Invocation(w.op, w.ticket, Stopped(w.env, w.todo), false);
      KilledIsStopped(w.begun, w.op, w.ticket, w.made, w.todo, w.env, s.files);
      RunSnoc(s.history, i);
      run := s.history + [i];
      forall p | 0 <= p < |s.procs| && s.procs[p].Answered? ensures AnswerOf(run, s.procs[p]) {
        AnswerStays(s.history, i, s.procs[p]);
      }
    }
  }

  // ---- races ----

  lemma EnqueuedClaims(fs: Files, t: string, env: Env)
    requires QueueFile in fs && Apply(fs, Enqueue, t, env).reply == Enqueued
    ensures Used(t) !in fs && Used(t) in Apply(fs, Enqueue, t, env).files
  {
    hide Apply, Commit, StageClaim, ValidFrom, ClaimTicket, IndexOf;
    if Used(t) in fs {
      BurnedTicketRefused(fs, t, env);
    }
    EnqueueApply(fs, t, env);
    ClaimNeverEnqueues(fs, t, env);
    var state := fs[QueueFile];
    ClaimLeaves(fs, t, env);
    var claim := ClaimTicket(fs, t, env);
    CommitLeaves(claim.files, state, state + Line(t), env);
  }

  /** An enqueue of `t` that succeeded is the only one in the run. */
  lemma EnqueuedOnce(run: seq<Invocation>, t: string, a: nat, b: nat)
    requires a < b < |run| && !run[a].busy && run[a].op == Enqueue && run[a].ticket == t
    requires Apply(Run(run[..a]).files, Enqueue, t, run[a].env).reply == Enqueued
    ensures Apply(Run(run[..b]).files, Enqueue, t, run[b].env).reply != Enqueued
  {
    hide Apply, Run, Inv;
    RunInv(run[..a]);
    InvQueue(Run(run[..a]));
    EnqueuedClaims(Run(run[..a]).files, t, run[a].env);
    RunSnoc(run[..a], run[a]);
    assert run[..a] + [run[a]] == run[..a + 1];
    assert run[..a + 1] + run[a + 1..b] == run[..b];
    BurnedForever(run[..a + 1], run[a + 1..b], t);
    RunInv(run[..b]);
    InvQueue(Run(run[..b]));
    BurnedTicketRefused(Run(run[..b]).files, t, run[b].env);
  }

  lemma InvQueue(w: World)
    requires Inv(w)
    ensures QueueFile in w.files
  {
  }

  ghost predicate Won(s: System, p: nat, t: string) {
    && p < |s.procs| && s.procs[p].Answered?
    && s.procs[p].op == Enqueue && s.procs[p].ticket == t && s.procs[p].reply == Enqueued
  }

  /** Of any number of processes that race to enqueue one ticket, at most one is told that it did. */
  lemma OneWinner(before: seq<Invocation>, procs: seq<Process>, schedule: seq<Turn>, t: string, p: nat, q: nat)
    requires AllWaiting(procs)
    requires Won(Interleave(before, procs, schedule), p, t) && Won(Interleave(before, procs, schedule), q, t)
    ensures p == q
  {
    hide Apply, Run, HolderMidway, Interleave;
    var s := Interleave(before, procs, schedule);
    AlwaysConsistent(before, procs, schedule);
    if p != q {
      var a, b := s.procs[p].at, s.procs[q].at;
      if a < b {
        EnqueuedOnce(s.history, t, a, b);
      } else {
        EnqueuedOnce(s.history, t, b, a);
      }
    }
  }

  ghost predicate Racers(procs: seq<Process>, t: string) {
    forall p :: 0 <= p < |procs| ==> procs[p] == Waiting(Enqueue, t, CALM)
  }

  /** Until the first of the racers is done, the queue is as it was; then it has won. */
  ghost predicate Racing(before: seq<Invocation>, s: System, t: string) {
    && (forall p :: 0 <= p < |s.procs| ==> match s.procs[p]
          case Waiting(op, u, env) => op == Enqueue && u == t && env == CALM
          case Working(op, u, env, _, _, _) => op == Enqueue && u == t && env == CALM
          case Killed => false
          case _ => true)
    && (s.history == before ==> forall p :: 0 <= p < |s.procs| ==>
          !s.procs[p].Answered? && (s.procs[p].Busy? ==> s.holder.Some?))
    && (s.history != before ==> exists p :: Won(s, p, t))
  }

  lemma RacingStep(before: seq<Invocation>, s: System, t: string, p: nat)
    requires HolderMidway(s) && Racing(before, s, t) && before <= s.history
    requires Apply(Run(before).files, Enqueue, t, CALM).reply == Enqueued
    ensures Racing(before, Move(s, Go(p)), t)
  {
    hide Apply, Run, Script, Midway, Effect, Acknowledged;
    var next := Move(s, Go(p));
    if p < |s.procs| && s.procs[p].Working? && s.procs[p].todo == [] && s.history == before {
      assert Won(next, p, t);
    } else if s.history != before {
      var q :| Won(s, q, t);
      assert Won(next, q, t);
    }
  }

  lemma {:induction false} AlwaysRacing(before: seq<Invocation>, procs: seq<Process>, schedule: seq<Turn>, t: string)
    requires Racers(procs, t) && forall k :: 0 <= k < |schedule| ==> schedule[k].Go?
    requires Apply(Run(before).files, Enqueue, t, CALM).reply == Enqueued
    ensures Racing(before, Interleave(before, procs, schedule), t)
    decreases |schedule|
  {
    hide Racing, HolderMidway, AnswersInRun, Apply, Run, Move;
    if schedule == [] {
      StartRacing(before, procs, t);
    } else {
      var n := |schedule| - 1;
      AlwaysRacing(before, procs, schedule[..n], t);
      AlwaysConsistent(before, procs, schedule[..n]);
      RacingStep(before, Interleave(before, procs, schedule[..n]), t, schedule[n].p);
    }
  }

  lemma StartRacing(before: seq<Invocation>, procs: seq<Process>, t: string)
    requires Racers(procs, t)
    ensures Racing(before, System(Run(before).files, procs, None, before), t)
  {
    hide Run;
  }

  /** If nobody is killed and the file system works, the race has exactly one winner: once all have ended, one process,
    and only one, was told that the ticket is in the queue. */
  lemma RaceHasOneWinner(before: seq<Invocation>, procs: seq<Process>, schedule: seq<Turn>, t: string)
    returns (winner: nat)
    requires procs != [] && Racers(procs, t) && forall k :: 0 <= k < |schedule| ==> schedule[k].Go?
    requires Clean(Run(before).files) && IsTicket(t) && Used(t) !in Run(before).files
    requires t !in QueueOf(Run(before).files) && |QueueOf(Run(before).files)| < 64
    requires var s := Interleave(before, procs, schedule);
      forall p :: 0 <= p < |s.procs| ==> !s.procs[p].Waiting? && !s.procs[p].Working?
    ensures forall p :: Won(Interleave(before, procs, schedule), p, t) <==> p == winner
  {
    hide Apply, Run, Clean, HolderMidway, AnswersInRun, Interleave, QueueOf, Won;
    var s := Interleave(before, procs, schedule);
    var files := FreshTicketEnqueues(Run(before).files, t);
    AlwaysRacing(before, procs, schedule, t);
    AlwaysConsistent(before, procs, schedule);
    FreeAtEnd(s);
    RaceDecided(before, s, t);
    winner :| Won(s, winner, t);
    forall p | Won(s, p, t) ensures p == winner {
      OneWinner(before, procs, schedule, t, p, winner);
    }
  }

  lemma RaceDecided(before: seq<Invocation>, s: System, t: string)
    requires Racing(before, s, t) && s.holder.None? && s.procs != []
    requires forall p :: 0 <= p < |s.procs| ==> !s.procs[p].Waiting? && !s.procs[p].Working?
    ensures s.history != before
  {
    hide Won;
    assert s.procs[0].Answered? || s.procs[0].Busy?;
  }

  lemma FreeAtEnd(s: System)
    requires HolderMidway(s) && forall p :: 0 <= p < |s.procs| ==> !s.procs[p].Working?
    ensures s.holder.None?
  {
    hide Run, InTheMiddle;
  }
}
