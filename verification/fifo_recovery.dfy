/** Interrupted queue commits: what they block, and what `recover` says about them. */
module FifoRecovery {
  import opened FifoText
  import opened FifoStore
  import opened Fifo
  import opened FifoCommit
  import opened FifoLeaves
  import opened FifoRuns

  /** The answers for which the component exits 0. */
  predicate Succeeded(op: Op, reply: Reply) {
    match reply
    case Enqueued => true
    case Dequeued => true
    case Cancelled => true
    case Reserved => true
    case ReleasePending => op == DoRelease
    case Settled => true
    case ClaimQueued => true
    case ClaimRecorded => true
    case Empty => true
    case Recovered => true
    case Aborted => true
    case FrontIs(_) => true
    case _ => false
  }

  // ---- an open commit blocks everything but recovery ----

  lemma OpenSettle(fs: Files, state: string, t: string, pending: Presence, intent: Presence, env: Env)
    requires |state| >= 5 && (pending != Missing || intent != Missing)
    ensures RecoverSettle(fs, state, t, pending, intent, env) == Answer(fs, ReservationUnknown)
  {
    assert !Begin(fs).Only(IsTicket(t) && Claimed(fs, t, env(101)) && pending == Missing && intent == Missing).up;
    assert SettleEvidence(fs, state, t, pending, intent, env) == Chain(fs, false);
  }

  lemma OpenDispatch(fs: Files, op: Op, t: string, state: string, hold: Presence, release: Presence,
                     pending: Presence, intent: Presence, env: Env)
    requires ValidState(state) && op != Recover && (pending != Missing || intent != Missing)
    ensures var a := Dispatch(fs, op, t, state, hold, release, pending, intent, env);
      a.files == fs && !Succeeded(op, a.reply)
  {
    hide RecoverSettle, ReserveFront, EnqueueTicket, CancelTicket, RemoveFront, SettleReleased;
    hide HistoryClear, BarrierValid, InspectSynced, Claimed, Read, IsTicket, ValidFrom;
    OpenSettle(fs, state, t, pending, intent, env);
  }

  /** While a journal or a half-written queue is left over, every operation except `recover` refuses and changes
    nothing, whatever its own file-system calls do. */
  lemma OpenCommitBlocks(fs: Files, op: Op, t: string, env: Env)
    requires (Intent in fs || Pending in fs) && op != Recover
    ensures Apply(fs, op, t, env).files == fs
    ensures !Succeeded(op, Apply(fs, op, t, env).reply)
  {
    var hold, release := Look(fs, Hold, env(0)), Look(fs, Release, env(1));
    var pending, intent := Look(fs, Pending, env(3)), Look(fs, Intent, env(4));
    var state := if Look(fs, QueueFile, env(2)) == Found then Read(fs, QueueFile, 4165, env(5)) else "";
    if ValidState(state) {
      OpenDispatch(fs, op, t, state, hold, release, pending, intent, env);
    }
  }

  // ---- recovery ----

  lemma PrefixOccurs(part: string, text: string, p: string, i: int)
    requires IsPrefix(part, text) && i + |p| <= |part|
    ensures OccursAt(part, p, i) <==> OccursAt(text, p, i)
  {
    if i >= 0 {
      assert part[i..i + |p|] == text[i..i + |p|];
    }
  }

  lemma CutInside(part: string)
    requires ValidJournal(part)
    ensures var cut := IndexOf(part, "NEXT\n");
      5 <= cut && cut + 5 <= |part| && OccursAt(part, "NEXT\n", cut) && JournalOld(part) == part[5..cut]
  {
    hide ValidFrom, IsRemoval;
  }

  lemma FirstOccurs(s: string, p: string, i: int)
    requires OccursAt(s, p, i)
    ensures 0 <= IndexOf(s, p) <= i
  {
  }

  /** However a journal was torn, if recovery accepts it, its first half is the queue it was written over. */
  lemma TornJournal(q: seq<string>, next: string, part: string)
    requires Queue(q) && IsPrefix(part, Journal(Encode(q), next)) && ValidJournal(part)
    ensures JournalOld(part) == Encode(q)
  {
    hide ValidJournal, Encode, Queue, JournalOld, IndexOf;
    var whole, cut, first := Journal(Encode(q), next), IndexOf(part, "NEXT\n"), 5 + |Encode(q)|;
    JournalDecodes(q, next);
    CutInside(part);
    PrefixOccurs(part, whole, "NEXT\n", cut);
    FirstOccurs(whole, "NEXT\n", cut);
    assert OccursAt(whole, "NEXT\n", first);
    PrefixOccurs(part, whole, "NEXT\n", first);
    FirstOccurs(part, "NEXT\n", first);
    PrefixSlice(part, whole, 5, cut);
  }

  lemma PrefixSlice(part: string, text: string, i: nat, j: nat)
    requires IsPrefix(part, text) && i <= j <= |part|
    ensures part[i..j] == text[i..j]
  {
  }

  /** `recover` either refuses without touching anything, or examines the journal against the queue. */
  lemma RecoverApply(fs: Files, env: Env)
    ensures var a := Apply(fs, Recover, "", env);
      || (a.files == fs && !Succeeded(Recover, a.reply) && a.reply != RecoveryUnknown)
      || (&& QueueFile in fs && ValidState(fs[QueueFile])
          && a == RecoverQueue(fs, fs[QueueFile], Look(fs, Pending, env(3)), Look(fs, Intent, env(4)), env))
  {
    var hold, release := Look(fs, Hold, env(0)), Look(fs, Release, env(1));
    var pending, intent := Look(fs, Pending, env(3)), Look(fs, Intent, env(4));
    var state := if Look(fs, QueueFile, env(2)) == Found then Read(fs, QueueFile, 4165, env(5)) else "";
    if ValidState(state) {
      RecoverDispatch(fs, state, hold, release, pending, intent, env);
    }
  }

  lemma RecoverDispatch(fs: Files, state: string, hold: Presence, release: Presence, pending: Presence,
                        intent: Presence, env: Env)
    requires ValidState(state)
    ensures var a := Dispatch(fs, Recover, "", state, hold, release, pending, intent, env);
      || (a.files == fs && (a.reply == ReservationHeld || a.reply == ReservationUnknown))
      || a == RecoverQueue(fs, state, pending, intent, env)
  {
  }

  /** What a successful recovery saw. */
  lemma RecoverGuards(fs: Files, state: string, pending: Presence, intent: Presence, env: Env)
    requires Seen(fs, Pending, pending) && Seen(fs, Intent, intent)
    ensures var reply := RecoverQueue(fs, state, pending, intent, env).reply;
      reply == Recovered || reply == Aborted ==>
        && Intent in fs && Pending !in fs && ValidJournal(fs[Intent])
        && (reply == Recovered ==> state == JournalNext(fs[Intent]))
        && (reply == Aborted ==> state == JournalOld(fs[Intent]))
  {
  }

  /** Recovery never changes the queue. If it is not acknowledged it can be asked again: either the files are as
    they were, or the journal is already aside and nothing is open any more. */
  lemma RecoverKeepsQueue(fs: Files, env: Env)
    requires QueueFile in fs
    ensures var files := Apply(fs, Recover, "", env).files;
      && QueueFile in files && files[QueueFile] == fs[QueueFile]
      && (files == fs || (Intent in fs && Intent !in files && LastJournal in files && files[LastJournal] == fs[Intent]))
  {
    hide Apply, RecoverQueue, ValidFrom;
    RecoverApply(fs, env);
    RecoverLeaves(fs, fs[QueueFile], Look(fs, Pending, env(3)), Look(fs, Intent, env(4)), env);
  }

  function QueueTextOf(fs: Files): string {
    if QueueFile in fs then fs[QueueFile] else ""
  }

  /** After a commit of `next` over `q` was interrupted anywhere, a recovery that succeeds names the side the queue
    is on: "recovered" only when the new queue was installed, "aborted" only when it was not. */
  lemma RecoverNamesTheSide(fs: Files, q: seq<string>, next: seq<string>, left: Files, broken: Env, env: Env)
    requires QueueFile in fs && fs[QueueFile] == Encode(q) && Queue(q) && Queue(next)
    requires Appends(q, next) || Drops(q, next)
    requires Intent !in fs
    requires left == Commit(fs, Encode(q), Encode(next), broken).files
    ensures Apply(left, Recover, "", env).reply == Recovered ==> QueueTextOf(left) == Encode(next)
    ensures Apply(left, Recover, "", env).reply == Aborted ==> QueueTextOf(left) == Encode(q)
    ensures Encode(q) != Encode(next)
  {
    hide Apply, RecoverQueue, Commit, ValidFrom, ValidJournal, Encode, Lines;
    DecodeEncode(q);
    DecodeEncode(next);
    CommitLeaves(fs, Encode(q), Encode(next), broken);
    RecoverApply(left, env);
    var pending, intent := Look(left, Pending, env(3)), Look(left, Intent, env(4));
    RecoverGuards(left, QueueTextOf(left), pending, intent, env);
    if Apply(left, Recover, "", env).reply in {Recovered, Aborted} {
      SidesDiffer(fs, left, q, next);
    }
  }

  lemma SidesDiffer(fs: Files, left: Files, q: seq<string>, next: seq<string>)
    requires QueueFile in fs && fs[QueueFile] == Encode(q) && Queue(q) && Queue(next) && Intent !in fs
    requires CommitShape(fs, left, Encode(q), Encode(next)) && Intent in left && ValidJournal(left[Intent])
    ensures JournalOld(left[Intent]) == Encode(q)
    ensures QueueTextOf(left) == Encode(q) || QueueTextOf(left) == Encode(next)
    ensures JournalNext(left[Intent]) != Encode(q)
    ensures QueueTextOf(left) == Encode(next) ==> JournalNext(left[Intent]) == Encode(next) || Encode(next) == Encode(q)
  {
    hide ValidFrom, Encode, Lines, Journal, IndexOf, IsTicket;
    JournalDecodes(q, Encode(next));
    if Journalled(fs, left, Encode(q), Encode(next)) {
      TornJournal(q, Encode(next), left[Intent]);
    } else {
      assert Renamed(fs, left, Encode(q), Encode(next));
    }
    assert |JournalNext(left[Intent])| != |JournalOld(left[Intent])|;
  }
}
