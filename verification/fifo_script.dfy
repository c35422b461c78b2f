/** Each operation of the FIFO as the list of file-system calls it makes: writes, syncs, renames, and the reads and
  lookups in between that can still stop it. The guards an operation starts with decide the list; the first call that
  is not acknowledged ends it. */
module FifoScript {
  import opened FifoText
  import opened FifoStore
  import opened Fifo
  import opened FifoRecovery

  datatype Act = Act(call: Call, site: nat)

  function Play(c: Chain, acts: seq<Act>, env: Env): Chain
    decreases |acts|
  {
    if acts == [] then c else Play(c.Then(acts[0].call, env(acts[0].site)), acts[1..], env)
  }

  /** The last call syncs the directory. */
  predicate EndsInSync(acts: seq<Act>) {
    acts != [] && acts[|acts| - 1].call == Flush(Directory)
  }

  // ---- the calls of each operation ----

  function PrepareActs(original: string, next: string): seq<Act> {
    [Act(Lacks(Intent), 60), Act(Lacks(Pending), 61), Act(Write(Intent, Journal(original, next)), 62)]
    + [Act(Flush(Intent), 63), Act(Flush(Directory), 64), Act(Write(Pending, next), 65)]
    + [Act(Flush(Pending), 66), Act(Holds(Pending, 4165, next), 67), Act(Holds(QueueFile, 4165, original), 68)]
  }

  function CommitActs(original: string, next: string): (acts: seq<Act>)
    ensures EndsInSync(acts)
  {
    PrepareActs(original, next)
    + [Act(Replace(Pending, QueueFile), 69), Act(Flush(Directory), 70)]
    + [Act(Replace(Intent, LastJournal), 71), Act(Flush(Directory), 72)]
  }

  function StageActs(t: string): seq<Act> {
    [Act(Write(Staged(t), Claim(t)), 41), Act(Flush(Staged(t)), 42), Act(Holds(Staged(t), 70, Claim(t)), 43)]
  }

  function ClaimActs(t: string): (acts: seq<Act>)
    ensures EndsInSync(acts)
  {
    StageActs(t) + [Act(Publish(Staged(t), Used(t)), 44), Act(Flush(Used(t)), 45)]
    + [Act(Holds(Used(t), 70, Claim(t)), 46), Act(Flush(Directory), 47)]
  }

  function ArchiveActs(): (acts: seq<Act>)
    ensures EndsInSync(acts)
  {
    [Act(Flush(QueueFile), 81), Act(Flush(Intent), 82), Act(Flush(Directory), 83)]
    + [Act(Replace(Intent, LastJournal), 84), Act(Flush(Directory), 85)]
  }

  /** What `rq-history-clear?` looks up and reads. */
  predicate HistoryGuard(fs: Files, env: Env, site: nat) {
    var last, receipt, previous :=
      Look(fs, SettledHold, env(site)), Look(fs, Receipt, env(site + 1)), Look(fs, PreviousReceipt, env(site + 2));
    && previous != Unknown
    && ((last == Missing && receipt == Missing && previous == Missing)
        || (last == Found && receipt == Found
            && ValidMark(Read(fs, SettledHold, 70, env(site + 3)))
            && Read(fs, SettledHold, 70, env(site + 3)) == Read(fs, Receipt, 70, env(site + 4))))
  }

  /** What it syncs: nothing before the first reservation, else the settled marker, its receipt and the directory. */
  function HistoryActs(fs: Files, site: nat): seq<Act> {
    if SettledHold !in fs then []
    else [Act(Flush(SettledHold), site + 5), Act(Flush(Receipt), site + 6), Act(Flush(Directory), site + 7)]
  }

  function EvidenceActs(state: string, t: string): (acts: seq<Act>)
    requires |state| >= 5
    ensures EndsInSync(acts)
  {
    [Act(Holds(SettledHold, 70, Mark(t)), 103), Act(Holds(LastJournal, 8340, DequeueRecord(t, state)), 104)]
    + [Act(Flush(QueueFile), 105), Act(Flush(LastJournal), 106)]
    + [Act(Flush(SettledHold), 107), Act(Flush(Directory), 108)]
  }

  function ReceiptActs(receipt: Presence, t: string): seq<Act> {
    if receipt == Unknown then []
    else
      [Act(if receipt == Missing then Write(Receipt, Mark(t)) else Holds(Receipt, 70, Mark(t)), 109)]
      + [Act(Flush(Receipt), 110), Act(Flush(Directory), 111)]
  }

  predicate RecoverSettleGuard(fs: Files, state: string, t: string, pending: Presence, intent: Presence, env: Env) {
    && IsTicket(t) && Claimed(fs, t, env(101)) && pending == Missing && intent == Missing
    && Look(fs, SettledHold, env(102)) == Found && IndexOf(state, Line(t)) < 0
  }

  function RecoverSettleActs(fs: Files, state: string, t: string, pending: Presence, intent: Presence, env: Env)
    : seq<Act>
    requires |state| >= 5
  {
    if RecoverSettleGuard(fs, state, t, pending, intent, env)
    then EvidenceActs(state, t) + ReceiptActs(Look(fs, Receipt, env(100)), t)
    else []
  }

  function DequeueEvidenceActs(state: string, t: string): seq<Act>
    requires |state| >= 5
  {
    [Act(Holds(LastJournal, 8340, DequeueRecord(t, state)), 120), Act(Flush(QueueFile), 121)]
    + [Act(Flush(LastJournal), 122), Act(Flush(Release), 123)]
    + [Act(Flush(Directory), 124), Act(Lacks(Receipt), 125)]
  }

  function MoveReleaseActs(): (acts: seq<Act>)
    ensures EndsInSync(acts)
  {
    [Act(Replace(Release, SettledHold), 126), Act(Flush(Directory), 127)]
  }

  function SettleActs(fs: Files, state: string, t: string, env: Env): seq<Act>
    requires |state| >= 5
  {
    if IndexOf(state, Line(t)) >= 0 then []
    else
      var moved := if Release in fs then Moved(fs, Release, SettledHold) else fs;
      DequeueEvidenceActs(state, t) + MoveReleaseActs()
      + RecoverSettleActs(moved, state, t, Missing, Missing, env)
  }

  function ReleaseActs(): (acts: seq<Act>)
    ensures EndsInSync(acts)
  {
    [Act(Flush(Hold), 142), Act(Replace(Hold, Release), 143), Act(Flush(Directory), 144)]
  }

  function ConsumeActs(): (acts: seq<Act>)
    ensures EndsInSync(acts)
  {
    [Act(Replace(Receipt, PreviousReceipt), 29), Act(Flush(Directory), 30)]
  }

  function HoldActs(t: string): (acts: seq<Act>)
    ensures EndsInSync(acts)
  {
    [Act(Write(Hold, Mark(t)), 151), Act(Flush(Hold), 152), Act(Flush(Directory), 153)]
  }

  function ReserveActs(fs: Files, t: string, env: Env): seq<Act> {
    var status := Look(fs, Receipt, env(20));
    if !HistoryGuard(fs, env, 21) then []
    else if status == Unknown then HistoryActs(fs, 21)
    else HistoryActs(fs, 21) + (if status == Found then ConsumeActs() else []) + HoldActs(t)
  }

  function InspectActs(t: string, hold: Presence, release: Presence): (acts: seq<Act>)
    ensures EndsInSync(acts)
  {
    [Act(Flush(QueueFile), 170), Act(Flush(Used(t)), 171)]
    + (if hold == Missing then [] else [Act(Flush(Hold), 172)])
    + (if release == Missing then [] else [Act(Flush(Release), 173)])
    + [Act(Flush(Directory), 174)]
  }

  // ---- the calls, by operation ----

  function RecoverScript(fs: Files, state: string, pending: Presence, intent: Presence, env: Env): seq<Act> {
    var journal := if intent == Found then Read(fs, Intent, 8340, env(80)) else "";
    if pending == Missing && intent == Found && ValidJournal(journal)
       && (state == JournalNext(journal) || state == JournalOld(journal)) then ArchiveActs()
    else []
  }

  function ReleasedScript(fs: Files, op: Op, t: string, state: string, pending: Presence, intent: Presence, env: Env)
    : seq<Act>
    requires ValidState(state)
  {
    if op == Recover then RecoverScript(fs, state, pending, intent, env)
    else if (op != Dequeue && op != Settle) || !IsTicket(t) || !Claimed(fs, t, env(130))
            || Read(fs, Release, 70, env(131)) != Mark(t) || pending != Missing || intent != Missing then []
    else if op == Settle then SettleActs(fs, state, t, env)
    else if state == "RGQ5\n" || FrontLine(state) != t then []
    else CommitActs(state, AfterFront(state))
  }

  function ReleaseScript(fs: Files, t: string, state: string, hold: Presence, pending: Presence, intent: Presence,
                         env: Env): seq<Act>
    requires ValidState(state)
  {
    if IsTicket(t) && hold == Found && Claimed(fs, t, env(140)) && Read(fs, Hold, 70, env(141)) == Mark(t)
       && FrontLine(state) == t && pending == Missing && intent == Missing then ReleaseActs()
    else []
  }

  function EnqueueScript(fs: Files, t: string, state: string, env: Env): seq<Act> {
    var found := if env(40) == FalseMissing then Missing else Look(fs, Used(t), env(40));
    if IndexOf(state, Line(t)) >= 0 || |state| >= 4165 || found != Missing then []
    else ClaimActs(t) + CommitActs(state, state + Line(t))
  }

  function IdleScript(fs: Files, op: Op, t: string, state: string, pending: Presence, intent: Presence, env: Env)
    : seq<Act>
    requires ValidState(state)
  {
    if op == Recover then RecoverScript(fs, state, pending, intent, env)
    else if pending != Missing || intent != Missing || op == Front || !IsTicket(t) then []
    else if op == Reserve then
      if state == "RGQ5\n" || FrontLine(state) != t || !Claimed(fs, t, env(150)) then [] else ReserveActs(fs, t, env)
    else if op == Enqueue then EnqueueScript(fs, t, state, env)
    else if op == Cancel then
      var i := IndexOf(state, Line(t));
      if i < 0 || i == 5 then [] else CommitActs(state, WithoutLine(state, i))
    else []
  }

  /** The barrier check of `inspect` while a reservation or a release is in place: it reads and syncs nothing. */
  predicate MarkerGuard(fs: Files, state: string, hold: Presence, env: Env) {
    var marker := Read(fs, if hold == Found then Hold else Release, 70, env(160));
    ValidMark(marker) &&
    var at := IndexOf(state, Line(marker[5..69]));
    Claimed(fs, marker[5..69], env(161)) && (if hold == Found then at == 5 else at < 0 || at == 5)
  }

  function InspectScript(fs: Files, t: string, state: string, hold: Presence, release: Presence,
                         pending: Presence, intent: Presence, env: Env): seq<Act>
  {
    var idle := hold == Missing && release == Missing;
    if !IsTicket(t) || pending != Missing || intent != Missing then []
    else if !(if idle then HistoryGuard(fs, env, 10) else MarkerGuard(fs, state, hold, env)) then []
    else
      (if idle then HistoryActs(fs, 10) else [])
      + (if Claimed(fs, t, env(162)) then InspectActs(t, hold, release) else [])
  }

  function DispatchScript(fs: Files, op: Op, t: string, state: string, hold: Presence, release: Presence,
                          pending: Presence, intent: Presence, env: Env): seq<Act>
    requires ValidState(state)
  {
    if op == Inspect then InspectScript(fs, t, state, hold, release, pending, intent, env)
    else if op == SettleRecover then
      if hold == Missing && release == Missing then RecoverSettleActs(fs, state, t, pending, intent, env) else []
    else if release == Found then ReleasedScript(fs, op, t, state, pending, intent, env)
    else if op == DoRelease then ReleaseScript(fs, t, state, hold, pending, intent, env)
    else if hold == Found || !HistoryGuard(fs, env, 10) then []
    else HistoryActs(fs, 10) + IdleScript(fs, op, t, state, pending, intent, env)
  }

  /** The calls an operation makes, if every one of them is acknowledged. */
  function Script(fs: Files, op: Op, t: string, env: Env): seq<Act> {
    var hold, release := Look(fs, Hold, env(0)), Look(fs, Release, env(1));
    var present, pending, intent := Look(fs, QueueFile, env(2)), Look(fs, Pending, env(3)), Look(fs, Intent, env(4));
    var state := if present == Found then Read(fs, QueueFile, 4165, env(5)) else "";
    if present != Found || !ValidState(state) || hold == Unknown || release == Unknown
       || (hold == Found && release == Found) then []
    else DispatchScript(fs, op, t, state, hold, release, pending, intent, env)
  }

  // ---- lists ----

  lemma {:induction false} PlayConcat(c: Chain, a: seq<Act>, b: seq<Act>, env: Env)
    ensures Play(c, a + b, env) == Play(Play(c, a, env), b, env)
    decreases |a|
  {
    if a == [] {
      assert a + b == b;
    } else {
      assert (a + b)[1..] == a[1..] + b;
      PlayConcat(c.Then(a[0].call, env(a[0].site)), a[1..], b, env);
    }
  }

  lemma Play1(c: Chain, x: Act, env: Env)
    ensures Play(c, [x], env) == c.Then(x.call, env(x.site))
  {
    assert [x][1..] == [];
  }

  lemma Play2(c: Chain, x: Act, y: Act, env: Env)
    ensures Play(c, [x, y], env) == c.Then(x.call, env(x.site)).Then(y.call, env(y.site))
  {
    Play1(c.Then(x.call, env(x.site)), y, env);
    assert [x, y][1..] == [y];
  }

  lemma Play3(c: Chain, x: Act, y: Act, z: Act, env: Env)
    ensures Play(c, [x, y, z], env) == c.Then(x.call, env(x.site)).Then(y.call, env(y.site)).Then(z.call, env(z.site))
  {
    Play2(c.Then(x.call, env(x.site)), y, z, env);
    assert [x, y, z][1..] == [y, z];
  }

  lemma {:induction false} PlayDown(fs: Files, acts: seq<Act>, env: Env)
    ensures Play(Chain(fs, false), acts, env) == Chain(fs, false)
    decreases |acts|
  {
    if acts != [] {
      PlayDown(fs, acts[1..], env);
    }
  }

  // ---- the lists are the operations ----

  lemma PreparePlays(fs: Files, original: string, next: string, env: Env)
    ensures Play(Begin(fs), PrepareActs(original, next), env) == Prepare(fs, original, next, env)
  {
    hide Journal, Effect, Acknowledged, Play;
    var a := [Act(Lacks(Intent), 60), Act(Lacks(Pending), 61), Act(Write(Intent, Journal(original, next)), 62)];
    var b := [Act(Flush(Intent), 63), Act(Flush(Directory), 64), Act(Write(Pending, next), 65)];
    var c := [Act(Flush(Pending), 66), Act(Holds(Pending, 4165, next), 67), Act(Holds(QueueFile, 4165, original), 68)];
    PlayConcat(Begin(fs), a + b, c, env);
    PlayConcat(Begin(fs), a, b, env);
    Play3(Begin(fs), a[0], a[1], a[2], env);
    var c1 := Play(Begin(fs), a, env);
    Play3(c1, b[0], b[1], b[2], env);
    Play3(Play(c1, b, env), c[0], c[1], c[2], env);
  }

  lemma CommitPlays(fs: Files, original: string, next: string, env: Env)
    ensures Play(Begin(fs), CommitActs(original, next), env) == Commit(fs, original, next, env)
  {
    hide Effect, Acknowledged, Play, Prepare, PrepareActs;
    PreparePlays(fs, original, next, env);
    var a, c := PrepareActs(original, next), Prepare(fs, original, next, env);
    var b := [Act(Replace(Pending, QueueFile), 69), Act(Flush(Directory), 70)];
    var d := [Act(Replace(Intent, LastJournal), 71), Act(Flush(Directory), 72)];
    PlayConcat(Begin(fs), a + b, d, env);
    PlayConcat(Begin(fs), a, b, env);
    Play2(c, b[0], b[1], env);
    Play2(Play(c, b, env), d[0], d[1], env);
  }

  lemma StagePlays(fs: Files, t: string, env: Env)
    ensures Play(Begin(fs), StageActs(t), env) == StageClaim(fs, t, env)
  {
    hide Claim, Effect, Acknowledged, Play;
    var a := StageActs(t);
    Play3(Begin(fs), a[0], a[1], a[2], env);
  }

  /** The calls of a claim; they are made when the lookup reports no claim. */
  lemma ClaimPlays(fs: Files, t: string, env: Env)
    ensures var found := if env(40) == FalseMissing then Missing else Look(fs, Used(t), env(40));
      var c := Play(Begin(fs), ClaimActs(t), env);
      ClaimTicket(fs, t, env)
      == if found == Missing then ClaimAnswer(c.files, if c.up then [] else [TicketUnknown])
         else ClaimAnswer(fs, [if found == Found then TicketUsed else TicketUnknown])
  {
    hide Claim, Effect, Acknowledged, Play, StageActs, StageClaim;
    StagePlays(fs, t, env);
    var a, c := StageActs(t), StageClaim(fs, t, env);
    var b := [Act(Publish(Staged(t), Used(t)), 44), Act(Flush(Used(t)), 45)];
    var d := [Act(Holds(Used(t), 70, Claim(t)), 46), Act(Flush(Directory), 47)];
    PlayConcat(Begin(fs), a + b, d, env);
    PlayConcat(Begin(fs), a, b, env);
    Play2(c, b[0], b[1], env);
    Play2(Play(c, b, env), d[0], d[1], env);
  }

  lemma ArchivePlays(fs: Files, env: Env)
    ensures Play(Begin(fs), ArchiveActs(), env) == ArchiveIntent(fs, env)
  {
    hide Effect, Acknowledged, Play;
    var a := [Act(Flush(QueueFile), 81), Act(Flush(Intent), 82), Act(Flush(Directory), 83)];
    var b := [Act(Replace(Intent, LastJournal), 84), Act(Flush(Directory), 85)];
    PlayConcat(Begin(fs), a, b, env);
    Play3(Begin(fs), a[0], a[1], a[2], env);
    Play2(Play(Begin(fs), a, env), b[0], b[1], env);
  }

  /** Syncs leave every file as it is. */
  predicate Syncs(acts: seq<Act>) {
    forall i :: 0 <= i < |acts| ==> acts[i].call.Flush?
  }

  lemma {:induction false} SyncsKeep(c: Chain, acts: seq<Act>, env: Env)
    requires Syncs(acts)
    ensures Play(c, acts, env).files == c.files
    decreases |acts|
  {
    if acts != [] {
      SyncsKeep(c.Then(acts[0].call, env(acts[0].site)), acts[1..], env);
    }
  }

  lemma HistoryPlays(fs: Files, env: Env, site: nat)
    ensures Play(Begin(fs), HistoryActs(fs, site), env).files == fs
    ensures HistoryClear(fs, env, site)
       <==> HistoryGuard(fs, env, site) && Play(Begin(fs), HistoryActs(fs, site), env).up
  {
    hide ValidMark, Play, Read;
    SyncsKeep(Begin(fs), HistoryActs(fs, site), env);
    if SettledHold in fs {
      Play3(Begin(fs), HistoryActs(fs, site)[0], HistoryActs(fs, site)[1], HistoryActs(fs, site)[2], env);
    } else {
      PlayNone(Begin(fs), env);
    }
  }

  lemma PlayNone(c: Chain, env: Env)
    ensures Play(c, [], env) == c
  {
  }

  // ---- an operation leaves what its calls leave, and succeeds only if all of them were acknowledged ----

  /** A success that did something, as opposed to a report of the front or of an empty queue. */
  predicate Achieved(op: Op, reply: Reply) {
    Succeeded(op, reply) && !reply.Empty? && !reply.FrontIs?
  }

  /** The answer agrees with the calls: same files; a success means that every call was acknowledged, and unless it
    only reports, that there were some. */
  ghost predicate Agrees(fs: Files, op: Op, a: Answer, acts: seq<Act>, env: Env) {
    var c := Play(Begin(fs), acts, env);
    a.files == c.files && (Succeeded(op, a.reply) ==> c.up) && (Achieved(op, a.reply) ==> acts != [])
  }

  lemma NoActsAgree(fs: Files, op: Op, a: Answer, env: Env)
    ensures a.files == fs && !Achieved(op, a.reply) ==> Agrees(fs, op, a, [], env)
  {
  }

  lemma RecoverAgrees(fs: Files, op: Op, state: string, pending: Presence, intent: Presence, env: Env)
    ensures Agrees(fs, op, RecoverQueue(fs, state, pending, intent, env),
                   RecoverScript(fs, state, pending, intent, env), env)
  {
    hide Play, ValidJournal, JournalOld, JournalNext, Read, ArchiveActs, ArchiveIntent;
    ArchivePlays(fs, env);
    PlayNone(Begin(fs), env);
  }

  lemma EvidencePlays(fs: Files, state: string, t: string, pending: Presence, intent: Presence, env: Env)
    requires |state| >= 5 && RecoverSettleGuard(fs, state, t, pending, intent, env)
    ensures Play(Begin(fs), EvidenceActs(state, t), env) == SettleEvidence(fs, state, t, pending, intent, env)
  {
    hide Play, Effect, Acknowledged, Mark, DequeueRecord, Claimed, IsTicket, IndexOf;
    var e := EvidenceActs(state, t);
    var a, b, d := e[..2], e[2..4], e[4..];
    assert a == [e[0], e[1]] && b == [e[2], e[3]] && d == [e[4], e[5]] && e == a + b + d;
    PlayConcat(Begin(fs), a + b, d, env);
    PlayConcat(Begin(fs), a, b, env);
    Play2(Begin(fs), e[0], e[1], env);
    Play2(Play(Begin(fs), a, env), e[2], e[3], env);
    Play2(Play(Play(Begin(fs), a, env), b, env), e[4], e[5], env);
    OnlyTrue(Begin(fs));
    OnlyTrue(Begin(fs).Then(e[0].call, env(e[0].site)));
  }

  lemma OnlyTrue(c: Chain)
    ensures c.Only(true) == c
  {
  }

  lemma NoEvidence(fs: Files, state: string, t: string, pending: Presence, intent: Presence, env: Env)
    requires |state| >= 5 && !RecoverSettleGuard(fs, state, t, pending, intent, env)
    ensures SettleEvidence(fs, state, t, pending, intent, env) == Chain(fs, false)
  {
    hide Mark, DequeueRecord, Claimed, IsTicket, IndexOf, Read;
  }

  /** The last three calls of a settle recovery. */
  ghost function IssueReceipt(c: Chain, receipt: Presence, t: string, env: Env): Chain {
    c.Only(receipt != Unknown)
      .Then(if receipt == Missing then Write(Receipt, Mark(t)) else Holds(Receipt, 70, Mark(t)), env(109))
      .Then(Flush(Receipt), env(110))
      .Then(Flush(Directory), env(111))
  }

  lemma ReceiptPlays(c: Chain, receipt: Presence, t: string, env: Env)
    ensures receipt != Unknown ==> Play(c, ReceiptActs(receipt, t), env) == IssueReceipt(c, receipt, t, env)
    ensures receipt == Unknown || !c.up ==> IssueReceipt(c, receipt, t, env) == Chain(c.files, false)
  {
    hide Play, Mark;
    if receipt != Unknown {
      var r := ReceiptActs(receipt, t);
      assert r == [r[0], r[1], r[2]];
      Play3(c, r[0], r[1], r[2], env);
    }
  }

  lemma RecoverSettleIs(fs: Files, state: string, t: string, pending: Presence, intent: Presence, env: Env)
    requires |state| >= 5
    ensures var c := IssueReceipt(SettleEvidence(fs, state, t, pending, intent, env), Look(fs, Receipt, env(100)), t, env);
      RecoverSettle(fs, state, t, pending, intent, env) == Answer(c.files, if c.up then Settled else ReservationUnknown)
  {
    hide SettleEvidence, Mark, Effect, Acknowledged;
  }

  lemma RecoverSettleAgrees(fs: Files, op: Op, state: string, t: string, pending: Presence, intent: Presence, env: Env)
    requires |state| >= 5
    ensures Agrees(fs, op, RecoverSettle(fs, state, t, pending, intent, env),
                   RecoverSettleActs(fs, state, t, pending, intent, env), env)
  {
    hide Play, RecoverSettle, IssueReceipt, SettleEvidence, EvidenceActs, ReceiptActs, RecoverSettleGuard;
    var receipt, c := Look(fs, Receipt, env(100)), SettleEvidence(fs, state, t, pending, intent, env);
    RecoverSettleIs(fs, state, t, pending, intent, env);
    ReceiptPlays(c, receipt, t, env);
    if RecoverSettleGuard(fs, state, t, pending, intent, env) {
      EvidencePlays(fs, state, t, pending, intent, env);
      PlayConcat(Begin(fs), EvidenceActs(state, t), ReceiptActs(receipt, t), env);
      if receipt == Unknown {
        NoReceiptActs(t);
        PlayNone(c, env);
      }
    } else {
      NoEvidence(fs, state, t, pending, intent, env);
      PlayNone(Begin(fs), env);
    }
  }

  lemma NoReceiptActs(t: string)
    ensures ReceiptActs(Unknown, t) == []
  {
  }

  lemma DequeueEvidencePlays(fs: Files, state: string, t: string, env: Env)
    requires |state| >= 5 && IndexOf(state, Line(t)) < 0
    ensures Play(Begin(fs), DequeueEvidenceActs(state, t), env) == DequeueEvidence(fs, state, t, env)
    ensures DequeueEvidence(fs, state, t, env).files == fs
  {
    hide Play, Acknowledged, DequeueRecord, IndexOf;
    var e := DequeueEvidenceActs(state, t);
    var a, b, d := e[..2], e[2..4], e[4..];
    assert a == [e[0], e[1]] && b == [e[2], e[3]] && d == [e[4], e[5]] && e == a + b + d;
    PlayConcat(Begin(fs), a + b, d, env);
    PlayConcat(Begin(fs), a, b, env);
    Play2(Begin(fs), e[0], e[1], env);
    Play2(Play(Begin(fs), a, env), e[2], e[3], env);
    Play2(Play(Play(Begin(fs), a, env), b, env), e[4], e[5], env);
    OnlyTrue(Begin(fs));
  }

  lemma MovePlays(c: Chain, env: Env)
    ensures var after := Play(c, MoveReleaseActs(), env);
      && after == c.Then(Replace(Release, SettledHold), env(126)).Then(Flush(Directory), env(127))
      && (after.up ==> c.up && Release in c.files && after.files == Moved(c.files, Release, SettledHold))
  {
    hide Play;
    Play2(c, MoveReleaseActs()[0], MoveReleaseActs()[1], env);
  }

  lemma SettleAgrees(fs: Files, state: string, t: string, env: Env)
    requires |state| >= 5
    ensures Agrees(fs, Settle, SettleReleased(fs, state, t, Missing, Missing, env), SettleActs(fs, state, t, env), env)
  {
    hide Play, RecoverSettle, RecoverSettleActs, DequeueEvidence, DequeueEvidenceActs, MoveReleaseActs, Moved;
    if IndexOf(state, Line(t)) >= 0 {
      NoDequeueEvidence(fs, state, t, env);
      MovePlays(Chain(fs, false), env);
      PlayDown(fs, MoveReleaseActs(), env);
      PlayNone(Begin(fs), env);
    } else {
      DequeueEvidencePlays(fs, state, t, env);
      var d, m := DequeueEvidenceActs(state, t), MoveReleaseActs();
      var moved := if Release in fs then Moved(fs, Release, SettledHold) else fs;
      var r := RecoverSettleActs(moved, state, t, Missing, Missing, env);
      PlayConcat(Begin(fs), d + m, r, env);
      PlayConcat(Begin(fs), d, m, env);
      var c := Play(Begin(fs), d + m, env);
      MovePlays(DequeueEvidence(fs, state, t, env), env);
      if c.up {
        assert c == Begin(moved);
        RecoverSettleAgrees(moved, Settle, state, t, Missing, Missing, env);
      } else {
        PlayDown(c.files, r, env);
      }
    }
  }

  lemma NoDequeueEvidence(fs: Files, state: string, t: string, env: Env)
    requires |state| >= 5 && IndexOf(state, Line(t)) >= 0
    ensures DequeueEvidence(fs, state, t, env) == Chain(fs, false)
  {
    hide DequeueRecord, Read, IndexOf;
  }

  lemma ReleaseAgrees(fs: Files, t: string, state: string, hold: Presence, pending: Presence, intent: Presence, env: Env)
    requires ValidState(state)
    ensures Agrees(fs, DoRelease, ReleaseHold(fs, t, state, hold, pending, intent, env),
                   ReleaseScript(fs, t, state, hold, pending, intent, env), env)
  {
    hide Play, ValidState, IsTicket, Claimed, Read, Mark, FrontLine, Effect, Acknowledged;
    var a := ReleaseActs();
    Play3(Begin(fs), a[0], a[1], a[2], env);
    PlayNone(Begin(fs), env);
  }

  /** The calls of a reserve once its history is clear. */
  lemma HoldPlays(c: Chain, t: string, env: Env)
    ensures Play(c, HoldActs(t), env)
            == c.Then(Write(Hold, Mark(t)), env(151)).Then(Flush(Hold), env(152)).Then(Flush(Directory), env(153))
    ensures Play(c, ConsumeActs(), env)
            == c.Then(Replace(Receipt, PreviousReceipt), env(29)).Then(Flush(Directory), env(30))
  {
    hide Play, Mark;
    Play3(c, HoldActs(t)[0], HoldActs(t)[1], HoldActs(t)[2], env);
    Play2(c, ConsumeActs()[0], ConsumeActs()[1], env);
  }

  lemma ReservePlays(fs: Files, t: string, env: Env)
    ensures var c := Play(Begin(fs), ReserveActs(fs, t, env), env);
      var d := Play(ConsumeHistory(fs, env), HoldActs(t), env);
      c.files == d.files && (d.up ==> c.up && ReserveActs(fs, t, env) != [])
  {
    hide Play, HistoryGuard, HistoryActs, HistoryClear, ConsumeActs, HoldActs, Effect, Acknowledged;
    var status, h, o := Look(fs, Receipt, env(20)), HistoryActs(fs, 21), HoldActs(t);
    HistoryPlays(fs, env, 21);
    PlayNone(Begin(fs), env);
    var c := Play(Begin(fs), h, env);
    HoldPlays(Begin(fs), t, env);
    PlayDown(fs, o, env);
    PlayDown(fs, ConsumeActs() + o, env);
    if HistoryGuard(fs, env, 21) && status != Unknown {
      var m := if status == Found then ConsumeActs() else [];
      assert (h + m) + o == h + (m + o);
      PlayConcat(Begin(fs), h, m + o, env);
      PlayConcat(c, m, o, env);
      PlayNone(c, env);
      assert [] + o == o;
      if c.up {
        assert c == Begin(fs);
      }
    }
  }

  lemma ReserveAgrees(fs: Files, t: string, state: string, env: Env)
    requires ValidState(state) && state != "RGQ5\n" && FrontLine(state) == t && Claimed(fs, t, env(150))
    ensures Agrees(fs, Reserve, ReserveFront(fs, t, state, env), ReserveActs(fs, t, env), env)
  {
    hide Play, ReserveActs, ConsumeHistory, HoldActs, Mark, ValidState, FrontLine, Claimed;
    ReservePlays(fs, t, env);
    HoldPlays(ConsumeHistory(fs, env), t, env);
  }

  lemma EnqueueAgrees(fs: Files, t: string, state: string, env: Env)
    ensures Agrees(fs, Enqueue, EnqueueTicket(fs, t, state, env), EnqueueScript(fs, t, state, env), env)
  {
    hide Play, ClaimTicket, Commit, ClaimActs, CommitActs, IndexOf, Line;
    ClaimPlays(fs, t, env);
    PlayNone(Begin(fs), env);
    var next := state + Line(t);
    PlayConcat(Begin(fs), ClaimActs(t), CommitActs(state, next), env);
    var c := Play(Begin(fs), ClaimActs(t), env);
    if c.up {
      CommitPlays(c.files, state, next, env);
    } else {
      PlayDown(c.files, CommitActs(state, next), env);
    }
  }

  lemma CancelAgrees(fs: Files, t: string, state: string, env: Env)
    requires ValidState(state)
    ensures var i := IndexOf(state, Line(t));
      Agrees(fs, Cancel, CancelTicket(fs, t, state, env),
             if i < 0 || i == 5 then [] else CommitActs(state, WithoutLine(state, i)), env)
  {
    hide Play, Commit, CommitActs, IndexOf, Line, ValidState, WithoutLine;
    var i := IndexOf(state, Line(t));
    PlayNone(Begin(fs), env);
    if i >= 0 {
      CommitPlays(fs, state, WithoutLine(state, i), env);
    }
  }

  lemma RemoveAgrees(fs: Files, state: string, t: string, env: Env)
    ensures Agrees(fs, Dequeue, RemoveFront(fs, state, t, env),
                   if state == "RGQ5\n" || FrontLine(state) != t then [] else CommitActs(state, AfterFront(state)), env)
  {
    hide Play, Commit, CommitActs, FrontLine, AfterFront;
    PlayNone(Begin(fs), env);
    CommitPlays(fs, state, AfterFront(state), env);
  }

  lemma ReleasedAgrees(fs: Files, op: Op, t: string, state: string, pending: Presence, intent: Presence, env: Env)
    requires ValidState(state)
    ensures Agrees(fs, op, WhileReleased(fs, op, t, state, pending, intent, env),
                   ReleasedScript(fs, op, t, state, pending, intent, env), env)
  {
    hide Agrees, RecoverQueue, RecoverScript, SettleReleased, SettleActs, RemoveFront, CommitActs;
    hide ValidState, IsTicket, Claimed, Read, Mark, FrontLine, AfterFront;
    StateLength(state);
    RecoverAgrees(fs, op, state, pending, intent, env);
    SettleAgrees(fs, state, t, env);
    RemoveAgrees(fs, state, t, env);
    NoActsAgree(fs, op, WhileReleased(fs, op, t, state, pending, intent, env), env);
  }

  lemma StateLength(state: string)
    requires ValidState(state)
    ensures |state| >= 5
  {
  }

  lemma IdleAgrees(fs: Files, op: Op, t: string, state: string, pending: Presence, intent: Presence, env: Env)
    requires ValidState(state)
    ensures Agrees(fs, op, WhileIdle(fs, op, t, state, pending, intent, env),
                   IdleScript(fs, op, t, state, pending, intent, env), env)
  {
    hide Agrees, RecoverQueue, RecoverScript, EnqueueTicket, EnqueueScript, CancelTicket, CommitActs, ReserveActs;
    hide ValidState, IsTicket, Claimed, FrontLine, IndexOf, Line, WithoutLine, ConsumeHistory, Mark;
    NoActsAgree(fs, op, WhileIdle(fs, op, t, state, pending, intent, env), env);
    match op
    case Recover => RecoverAgrees(fs, op, state, pending, intent, env);
    case Enqueue => EnqueueAgrees(fs, t, state, env);
    case Cancel => CancelAgrees(fs, t, state, env);
    case Reserve =>
      if state != "RGQ5\n" && FrontLine(state) == t && Claimed(fs, t, env(150)) {
        ReserveAgrees(fs, t, state, env);
      }
    case _ =>
  }

  /** A history check, and then the calls of whatever it lets through. */
  lemma AfterHistory(fs: Files, op: Op, a: Answer, acts: seq<Act>, env: Env)
    requires HistoryClear(fs, env, 10) ==> Agrees(fs, op, a, acts, env)
    requires !HistoryClear(fs, env, 10) ==> a.files == fs && !Succeeded(op, a.reply)
    ensures HistoryGuard(fs, env, 10) ==> Agrees(fs, op, a, HistoryActs(fs, 10) + acts, env)
  {
    hide Play, HistoryGuard, HistoryActs, HistoryClear, Succeeded;
    HistoryPlays(fs, env, 10);
    PlayConcat(Begin(fs), HistoryActs(fs, 10), acts, env);
    PlayDown(fs, acts, env);
    if HistoryGuard(fs, env, 10) && Play(Begin(fs), HistoryActs(fs, 10), env).up {
      assert Play(Begin(fs), HistoryActs(fs, 10), env) == Begin(fs);
    }
  }

  lemma InspectSyncs(t: string, hold: Presence, release: Presence)
    ensures Syncs(InspectActs(t, hold, release))
  {
  }

  lemma InspectPlays(fs: Files, t: string, hold: Presence, release: Presence, env: Env)
    ensures var c := Play(Begin(fs), InspectActs(t, hold, release), env);
      c.files == fs && (InspectSynced(fs, t, hold, release, env) ==> c.up)
  {
    hide Play;
    InspectSyncs(t, hold, release);
    SyncsKeep(Begin(fs), InspectActs(t, hold, release), env);
    if InspectSynced(fs, t, hold, release, env) {
      InspectUp(fs, t, hold, release, env);
    }
  }

  lemma InspectUp(fs: Files, t: string, hold: Presence, release: Presence, env: Env)
    requires InspectSynced(fs, t, hold, release, env)
    ensures Play(Begin(fs), InspectActs(t, hold, release), env) == Begin(fs)
  {
    hide Play;
    var a := [Act(Flush(QueueFile), 170), Act(Flush(Used(t)), 171)];
    var m := if hold == Missing then [] else [Act(Flush(Hold), 172)];
    var r := if release == Missing then [] else [Act(Flush(Release), 173)];
    var d := [Act(Flush(Directory), 174)];
    PlayConcat(Begin(fs), a + m + r, d, env);
    PlayConcat(Begin(fs), a + m, r, env);
    PlayConcat(Begin(fs), a, m, env);
    Play2(Begin(fs), a[0], a[1], env);
    MaybeSync(fs, m, env);
    MaybeSync(fs, r, env);
    MaybeSync(fs, d, env);
  }

  lemma MaybeSync(fs: Files, acts: seq<Act>, env: Env)
    requires |acts| <= 1 && Syncs(acts)
    requires forall i :: 0 <= i < |acts| ==> Acknowledged(fs, acts[i].call, env(acts[i].site))
    ensures Play(Begin(fs), acts, env) == Begin(fs)
  {
    if acts != [] {
      assert acts == [acts[0]];
      Play1(Begin(fs), acts[0], env);
    }
  }

  lemma InspectAgrees(fs: Files, t: string, state: string, hold: Presence, release: Presence, pending: Presence,
                      intent: Presence, env: Env)
    ensures Agrees(fs, Inspect, Answer(fs, InspectTicket(fs, t, state, hold, release, pending, intent, env)),
                   InspectScript(fs, t, state, hold, release, pending, intent, env), env)
  {
    hide Play, HistoryGuard, HistoryActs, HistoryClear, IsTicket, Claimed, IndexOf, InspectActs, InspectSynced, Line;
    hide MarkerGuard, BarrierValid;
    BarrierIs(fs, state, hold, release, env);
    var a := Answer(fs, InspectTicket(fs, t, state, hold, release, pending, intent, env));
    var acts := if Claimed(fs, t, env(162)) then InspectActs(t, hold, release) else [];
    InspectPlays(fs, t, hold, release, env);
    PlayNone(Begin(fs), env);
    assert Agrees(fs, Inspect, a, acts, env);
    NoActsAgree(fs, Inspect, a, env);
    HistoryPlays(fs, env, 10);
    if hold == Missing && release == Missing {
      AfterHistory(fs, Inspect, a, acts, env);
    } else {
      assert [] + acts == acts;
    }
  }

  lemma BarrierIs(fs: Files, state: string, hold: Presence, release: Presence, env: Env)
    ensures BarrierValid(fs, state, hold, release, env)
            == if hold == Missing && release == Missing then HistoryClear(fs, env, 10)
               else MarkerGuard(fs, state, hold, env)
  {
    hide HistoryClear, ValidMark, IndexOf, Claimed, Line;
  }

  lemma DispatchAgrees(fs: Files, op: Op, t: string, state: string, hold: Presence, release: Presence,
                       pending: Presence, intent: Presence, env: Env)
    requires ValidState(state)
    ensures Agrees(fs, op, Dispatch(fs, op, t, state, hold, release, pending, intent, env),
                   DispatchScript(fs, op, t, state, hold, release, pending, intent, env), env)
  {
    hide Agrees, InspectTicket, InspectScript, RecoverSettle, RecoverSettleActs, WhileReleased, ReleasedScript;
    hide ReleaseHold, ReleaseScript, WhileIdle, IdleScript, HistoryGuard, HistoryActs, HistoryClear, ValidState;
    StateLength(state);
    var a := Dispatch(fs, op, t, state, hold, release, pending, intent, env);
    NoActsAgree(fs, op, a, env);
    if op == Inspect {
      InspectAgrees(fs, t, state, hold, release, pending, intent, env);
    } else if op == SettleRecover {
      RecoverSettleAgrees(fs, op, state, t, pending, intent, env);
    } else if release == Found {
      ReleasedAgrees(fs, op, t, state, pending, intent, env);
    } else if op == DoRelease {
      ReleaseAgrees(fs, t, state, hold, pending, intent, env);
    } else if hold != Found {
      IdleAgrees(fs, op, t, state, pending, intent, env);
      AfterHistory(fs, op, a, IdleScript(fs, op, t, state, pending, intent, env), env);
      HistoryPlays(fs, env, 10);
    }
  }

  /** Every operation leaves the files its calls leave, and answers success only if all of them were acknowledged. */
  lemma ScriptPlays(fs: Files, op: Op, t: string, env: Env)
    ensures Agrees(fs, op, Apply(fs, op, t, env), Script(fs, op, t, env), env)
  {
    hide Agrees, Dispatch, DispatchScript, ValidState, Read;
    NoActsAgree(fs, op, Apply(fs, op, t, env), env);
    var hold, release := Look(fs, Hold, env(0)), Look(fs, Release, env(1));
    var present, pending, intent := Look(fs, QueueFile, env(2)), Look(fs, Pending, env(3)), Look(fs, Intent, env(4));
    var state := if present == Found then Read(fs, QueueFile, 4165, env(5)) else "";
    if present == Found && ValidState(state) {
      DispatchAgrees(fs, op, t, state, hold, release, pending, intent, env);
    }
  }
}
