/** The operations of the local resource FIFO, branch by branch.

  Kotoba is an expression language whose only mutable state is the file system, so each operation is a function
  from the files and the outcomes of its file-system calls to the files it leaves and its answer. */
module Fifo {
  import opened FifoText
  import opened FifoStore

  datatype Op =
    | Front | Enqueue | Dequeue | Cancel | Recover | Reserve | DoRelease | Settle | SettleRecover | Inspect

  datatype Reply =
    | StateInvalid | ReservationUnknown | ReservationHeld | ReleasePending | ReleaseRequired
    | TicketInvalid | TicketUnknown | TicketUsed | PendingUnknown | WriteUnknown | CommandInvalid
    | ClaimUnknown | ClaimRecorded | ClaimQueued
    | Empty | NotFront | NotQueued | CancelFrontRefused | AlreadyQueued | Full
    | FrontIs(ticket: string) | Enqueued | Dequeued | Cancelled | Reserved | Settled
    | RecoveryUnresolved | RecoveryUnknown | NoIntent | JournalInvalid | Recovered | Aborted

  datatype Answer = Answer(files: Files, reply: Reply)

  /** Characters 5 to 68 of a nonempty queue text: the ticket at the front. */
  function FrontLine(state: string): string {
    if |state| >= 70 then state[5..69] else ""
  }

  function AfterFront(state: string): string {
    "RGQ5\n" + if |state| >= 70 then state[70..] else ""
  }

  function WithoutLine(state: string, i: nat): string {
    if i + 65 <= |state| then state[..i] + state[i + 65..] else ""
  }

  predicate Claimed(fs: Files, ticket: string, o: Outcome) {
    Read(fs, Used(ticket), 70, o) == Claim(ticket)
  }

  /** The staging half of `rq-claim-ticket`. */
  function StageClaim(fs: Files, ticket: string, env: Env): Chain {
    Begin(fs)
      .Then(Write(Staged(ticket), Claim(ticket)), env(41))
      .Then(Flush(Staged(ticket)), env(42))
      .Then(Holds(Staged(ticket), 70, Claim(ticket)), env(43))
  }

  /** `rq-claim-ticket`; no refusal when the ticket was claimed. */
  datatype ClaimAnswer = ClaimAnswer(files: Files, refusal: seq<Reply>)

  function ClaimTicket(fs: Files, ticket: string, env: Env): ClaimAnswer {
    var found := if env(40) == FalseMissing then Missing else Look(fs, Used(ticket), env(40));
    if found == Found then ClaimAnswer(fs, [TicketUsed])
    else if found == Unknown then ClaimAnswer(fs, [TicketUnknown])
    else
      var chain := StageClaim(fs, ticket, env)
        .Then(Publish(Staged(ticket), Used(ticket)), env(44))
        .Then(Flush(Used(ticket)), env(45))
        .Then(Holds(Used(ticket), 70, Claim(ticket)), env(46))
        .Then(Flush(Directory), env(47));
      ClaimAnswer(chain.files, if chain.up then [] else [TicketUnknown])
  }

  /** `rq-history-clear?`: no earlier reservation, or a settled one whose receipt reads back and syncs. */
  predicate HistoryClear(fs: Files, env: Env, site: nat) {
    var last, receipt, previous :=
      Look(fs, SettledHold, env(site)), Look(fs, Receipt, env(site + 1)), Look(fs, PreviousReceipt, env(site + 2));
    && previous != Unknown
    && (if last == Missing && receipt == Missing && previous == Missing then true
        else if last == Found && receipt == Found then
          var a, b := Read(fs, SettledHold, 70, env(site + 3)), Read(fs, Receipt, 70, env(site + 4));
          ValidMark(a) && a == b &&
          Acknowledged(fs, Flush(SettledHold), env(site + 5)) &&
          Acknowledged(fs, Flush(Receipt), env(site + 6)) &&
          Acknowledged(fs, Flush(Directory), env(site + 7))
        else false)
  }

  /** `rq-consume-history?`: move the receipt aside before the next reservation. */
  function ConsumeHistory(fs: Files, env: Env): Chain {
    var status := Look(fs, Receipt, env(20));
    if !HistoryClear(fs, env, 21) then Chain(fs, false)
    else if status == Missing then Begin(fs)
    else if status == Found then
      Begin(fs).Then(Replace(Receipt, PreviousReceipt), env(29)).Then(Flush(Directory), env(30))
    else Chain(fs, false)
  }

  /** The first half of `rq-commit`: journal the intent, then write the new queue aside. */
  function Prepare(fs: Files, original: string, next: string, env: Env): Chain {
    Begin(fs)
      .Then(Lacks(Intent), env(60))
      .Then(Lacks(Pending), env(61))
      .Then(Write(Intent, Journal(original, next)), env(62))
      .Then(Flush(Intent), env(63))
      .Then(Flush(Directory), env(64))
      .Then(Write(Pending, next), env(65))
      .Then(Flush(Pending), env(66))
      .Then(Holds(Pending, 4165, next), env(67))
      .Then(Holds(QueueFile, 4165, original), env(68))
  }

  /** `rq-commit`: prepare, rename the new queue into place, archive the journal. */
  function Commit(fs: Files, original: string, next: string, env: Env): Chain {
    Prepare(fs, original, next, env)
      .Then(Replace(Pending, QueueFile), env(69))
      .Then(Flush(Directory), env(70))
      .Then(Replace(Intent, LastJournal), env(71))
      .Then(Flush(Directory), env(72))
  }

  /** Sync what is visible, then move the open journal aside. */
  function ArchiveIntent(fs: Files, env: Env): Chain {
    Begin(fs)
      .Then(Flush(QueueFile), env(81))
      .Then(Flush(Intent), env(82))
      .Then(Flush(Directory), env(83))
      .Then(Replace(Intent, LastJournal), env(84))
      .Then(Flush(Directory), env(85))
  }

  function RecoverQueue(fs: Files, state: string, pending: Presence, intent: Presence, env: Env): Answer {
    var journal := if intent == Found then Read(fs, Intent, 8340, env(80)) else "";
    var prior, next := JournalOld(journal), JournalNext(journal);
    if pending != Missing then Answer(fs, RecoveryUnresolved)
    else if intent == Missing then Answer(fs, NoIntent)
    else if intent != Found then Answer(fs, RecoveryUnresolved)
    else if !ValidJournal(journal) then Answer(fs, JournalInvalid)
    else if state != next && state != prior then Answer(fs, RecoveryUnresolved)
    else
      var chain := ArchiveIntent(fs, env);
      Answer(chain.files, if !chain.up then RecoveryUnknown else if state == next then Recovered else Aborted)
  }

  /** The journal a dequeue of `ticket` leaves when the queue text is `state` afterwards. */
  function DequeueRecord(ticket: string, state: string): string
    requires |state| >= 5
  {
    Journal("RGQ5\n" + Line(ticket) + state[5..], state)
  }

  /** What `rq-settle-recover` checks and syncs before it writes or reads the receipt. */
  function SettleEvidence(fs: Files, state: string, ticket: string, pending: Presence, intent: Presence, env: Env)
    : Chain
    requires |state| >= 5
  {
    Begin(fs)
      .Only(IsTicket(ticket) && Claimed(fs, ticket, env(101)) && pending == Missing && intent == Missing)
      .Only(Look(fs, SettledHold, env(102)) == Found)
      .Then(Holds(SettledHold, 70, Mark(ticket)), env(103))
      .Only(IndexOf(state, Line(ticket)) < 0)
      .Then(Holds(LastJournal, 8340, DequeueRecord(ticket, state)), env(104))
      .Then(Flush(QueueFile), env(105))
      .Then(Flush(LastJournal), env(106))
      .Then(Flush(SettledHold), env(107))
      .Then(Flush(Directory), env(108))
  }

  function RecoverSettle(fs: Files, state: string, ticket: string, pending: Presence, intent: Presence, env: Env)
    : Answer
    requires |state| >= 5
  {
    var receipt := Look(fs, Receipt, env(100));
    var chain := SettleEvidence(fs, state, ticket, pending, intent, env)
      .Only(receipt != Unknown)
      .Then(if receipt == Missing then Write(Receipt, Mark(ticket)) else Holds(Receipt, 70, Mark(ticket)), env(109))
      .Then(Flush(Receipt), env(110))
      .Then(Flush(Directory), env(111));
    Answer(chain.files, if chain.up then Settled else ReservationUnknown)
  }

  /** What `settle` checks and syncs before it moves the release marker to history. */
  function DequeueEvidence(fs: Files, state: string, ticket: string, env: Env): Chain
    requires |state| >= 5
  {
    Begin(fs)
      .Only(IndexOf(state, Line(ticket)) < 0)
      .Then(Holds(LastJournal, 8340, DequeueRecord(ticket, state)), env(120))
      .Then(Flush(QueueFile), env(121))
      .Then(Flush(LastJournal), env(122))
      .Then(Flush(Release), env(123))
      .Then(Flush(Directory), env(124))
      .Then(Lacks(Receipt), env(125))
  }

  function SettleReleased(fs: Files, state: string, ticket: string, pending: Presence, intent: Presence, env: Env)
    : Answer
    requires |state| >= 5
  {
    var chain := DequeueEvidence(fs, state, ticket, env)
      .Then(Replace(Release, SettledHold), env(126))
      .Then(Flush(Directory), env(127));
    if chain.up then RecoverSettle(chain.files, state, ticket, pending, intent, env)
    else Answer(chain.files, ReservationUnknown)
  }

  function RemoveFront(fs: Files, state: string, ticket: string, env: Env): Answer {
    if state == "RGQ5\n" then Answer(fs, Empty)
    else if FrontLine(state) != ticket then Answer(fs, NotFront)
    else
      var chain := Commit(fs, state, AfterFront(state), env);
      Answer(chain.files, if chain.up then Dequeued else WriteUnknown)
  }

  /** The part of `rq-apply` that runs while a release is pending. */
  function WhileReleased(fs: Files, op: Op, ticket: string, state: string, pending: Presence, intent: Presence,
                         env: Env): Answer
    requires ValidState(state)
  {
    if op == Recover then RecoverQueue(fs, state, pending, intent, env)
    else if op == DoRelease then Answer(fs, ReservationUnknown)
    else if op != Dequeue && op != Settle then Answer(fs, ReleasePending)
    else if !IsTicket(ticket) then Answer(fs, TicketInvalid)
    else if !Claimed(fs, ticket, env(130)) then Answer(fs, TicketUnknown)
    else if Read(fs, Release, 70, env(131)) != Mark(ticket) then Answer(fs, ReservationUnknown)
    else if pending != Missing || intent != Missing then Answer(fs, PendingUnknown)
    else if op == Dequeue then RemoveFront(fs, state, ticket, env)
    else SettleReleased(fs, state, ticket, pending, intent, env)
  }

  function ReleaseHold(fs: Files, ticket: string, state: string, hold: Presence, pending: Presence, intent: Presence,
                       env: Env): Answer
    requires ValidState(state)
  {
    if !IsTicket(ticket) then Answer(fs, TicketInvalid)
    else if hold != Found then Answer(fs, ReservationUnknown)
    else if !Claimed(fs, ticket, env(140)) then Answer(fs, TicketUnknown)
    else if Read(fs, Hold, 70, env(141)) != Mark(ticket) then Answer(fs, ReservationUnknown)
    else if FrontLine(state) != ticket then Answer(fs, ReservationUnknown)
    else if pending != Missing || intent != Missing then Answer(fs, PendingUnknown)
    else
      var chain := Begin(fs)
        .Then(Flush(Hold), env(142)).Then(Replace(Hold, Release), env(143)).Then(Flush(Directory), env(144));
      Answer(chain.files, if chain.up then ReleasePending else ReservationUnknown)
  }

  function ReserveFront(fs: Files, ticket: string, state: string, env: Env): Answer
    requires ValidState(state)
  {
    if state == "RGQ5\n" then Answer(fs, Empty)
    else if FrontLine(state) != ticket then Answer(fs, NotFront)
    else if !Claimed(fs, ticket, env(150)) then Answer(fs, TicketUnknown)
    else
      var chain := ConsumeHistory(fs, env)
        .Then(Write(Hold, Mark(ticket)), env(151)).Then(Flush(Hold), env(152)).Then(Flush(Directory), env(153));
      Answer(chain.files, if chain.up then Reserved else ReservationUnknown)
  }

  function EnqueueTicket(fs: Files, ticket: string, state: string, env: Env): Answer {
    if IndexOf(state, Line(ticket)) >= 0 then Answer(fs, AlreadyQueued)
    else if |state| >= 4165 then Answer(fs, Full)
    else
      var claim := ClaimTicket(fs, ticket, env);
      if claim.refusal != [] then Answer(claim.files, claim.refusal[0])
      else
        var chain := Commit(claim.files, state, state + Line(ticket), env);
        Answer(chain.files, if chain.up then Enqueued else WriteUnknown)
  }

  function CancelTicket(fs: Files, ticket: string, state: string, env: Env): Answer
    requires ValidState(state)
  {
    var i := IndexOf(state, Line(ticket));
    if i < 0 then Answer(fs, NotQueued)
    else if i == 5 then Answer(fs, CancelFrontRefused)
    else
      var chain := Commit(fs, state, WithoutLine(state, i), env);
      Answer(chain.files, if chain.up then Cancelled else WriteUnknown)
  }

  /** `rq-inspect-barrier-valid?` */
  predicate BarrierValid(fs: Files, state: string, hold: Presence, release: Presence, env: Env) {
    if hold == Missing && release == Missing then HistoryClear(fs, env, 10)
    else
      var marker := Read(fs, if hold == Found then Hold else Release, 70, env(160));
      ValidMark(marker) &&
      var at := IndexOf(state, Line(marker[5..69]));
      Claimed(fs, marker[5..69], env(161)) && (if hold == Found then at == 5 else at < 0 || at == 5)
  }

  /** `rq-inspect-sync?` */
  predicate InspectSynced(fs: Files, ticket: string, hold: Presence, release: Presence, env: Env) {
    && Acknowledged(fs, Flush(QueueFile), env(170))
    && Acknowledged(fs, Flush(Used(ticket)), env(171))
    && (hold == Missing || Acknowledged(fs, Flush(Hold), env(172)))
    && (release == Missing || Acknowledged(fs, Flush(Release), env(173)))
    && Acknowledged(fs, Flush(Directory), env(174))
  }

  function InspectTicket(fs: Files, ticket: string, state: string, hold: Presence, release: Presence,
                         pending: Presence, intent: Presence, env: Env): Reply
  {
    if !IsTicket(ticket) then TicketInvalid
    else if pending != Missing || intent != Missing then PendingUnknown
    else if !BarrierValid(fs, state, hold, release, env) then ReservationUnknown
    else if !Claimed(fs, ticket, env(162)) then TicketUnknown
    else if !InspectSynced(fs, ticket, hold, release, env) then ClaimUnknown
    else if IndexOf(state, Line(ticket)) < 0 then ClaimRecorded
    else ClaimQueued
  }

  /** The part of `rq-apply` that runs when no reservation or release is in the way. */
  function WhileIdle(fs: Files, op: Op, ticket: string, state: string, pending: Presence, intent: Presence, env: Env)
    : Answer
    requires ValidState(state)
  {
    if op == Recover then RecoverQueue(fs, state, pending, intent, env)
    else if pending != Missing || intent != Missing then Answer(fs, PendingUnknown)
    else if op == Front then
      Answer(fs, if state == "RGQ5\n" then Empty else FrontIs(FrontLine(state)))
    else if !IsTicket(ticket) then Answer(fs, TicketInvalid)
    else if op == Reserve then ReserveFront(fs, ticket, state, env)
    else if op == Enqueue then EnqueueTicket(fs, ticket, state, env)
    else if op == Dequeue then
      Answer(fs, if state == "RGQ5\n" then Empty
                 else if FrontLine(state) != ticket then NotFront
                 else ReleaseRequired)
    else if op == Cancel then CancelTicket(fs, ticket, state, env)
    else Answer(fs, CommandInvalid)
  }

  /** The branches of `rq-apply` once the queue text and the marker lookups are known. */
  function Dispatch(fs: Files, op: Op, ticket: string, state: string, hold: Presence, release: Presence,
                    pending: Presence, intent: Presence, env: Env): Answer
    requires ValidState(state)
  {
    if op == Inspect then Answer(fs, InspectTicket(fs, ticket, state, hold, release, pending, intent, env))
    else if op == SettleRecover then
      if hold == Missing && release == Missing then RecoverSettle(fs, state, ticket, pending, intent, env)
      else Answer(fs, ReservationUnknown)
    else if release == Found then WhileReleased(fs, op, ticket, state, pending, intent, env)
    else if op == DoRelease then ReleaseHold(fs, ticket, state, hold, pending, intent, env)
    else if hold == Found then Answer(fs, ReservationHeld)
    else if !HistoryClear(fs, env, 10) then Answer(fs, ReservationUnknown)
    else WhileIdle(fs, op, ticket, state, pending, intent, env)
  }

  /** `rq-apply`: one operation under the queue lock. */
  function Apply(fs: Files, op: Op, ticket: string, env: Env): Answer {
    var hold, release := Look(fs, Hold, env(0)), Look(fs, Release, env(1));
    var present, pending, intent := Look(fs, QueueFile, env(2)), Look(fs, Pending, env(3)), Look(fs, Intent, env(4));
    var state := if present == Found then Read(fs, QueueFile, 4165, env(5)) else "";
    if present != Found || !ValidState(state) then Answer(fs, StateInvalid)
    else if hold == Unknown then Answer(fs, ReservationUnknown)
    else if release == Unknown then Answer(fs, ReservationUnknown)
    else if hold == Found && release == Found then Answer(fs, ReservationUnknown)
    else Dispatch(fs, op, ticket, state, hold, release, pending, intent, env)
  }
}
