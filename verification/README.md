# Murakumo in Dafny

Murakumo shares one large model over a handful of small machines. This project models the parts of it whose
correctness does not depend on floating-point error, and proves what they promise.

* **The local resource FIFO** (`fifo_*.dfy`). A directory of small text files holds at most 64 waiting tickets. A
  ticket is claimed once, queued, reserved when it reaches the front, released, dequeued and settled. Every queue
  change is journalled, and a process may be killed, or a call may fail or lose its answer, anywhere. `fifo.dfy` follows
  the component branch by branch as functions from files and call outcomes to files and an answer; `fifo_directory.dfy`
  is the same component as an object that changes its files one call at a time, proved equal to those functions.
  `fifo_expected.dfy` tells what a caller may expect of every operation in tables over the queue, the claims and the
  markers, without a text being cut or searched; the component is proved to meet them on a good file system, and on any
  other to meet them or to answer that it does not know (`fifo_truth.dfy`), succeeding exactly when every call it takes
  was answered well (`fifo_sites.dfy`). The other files prove what the texts mean, what a commit, a claim or a settle
  can leave behind, and the safety of every run.
* **The decode ring** (`ring_*.dfy`). Ranks own consecutive layers and their caches, pass one hidden state along
  channels, and return the predicted token to rank 0. Ranks act in any order; one action is one receive, one layer, one
  send or one pass of the head. The ring is proved to refine the one-machine streaming reference, and the reference to
  be the grid of steps and layers of `ring_grid.dfy`, which carries no state along.
* **The sharded projection** (`projection.dfy`). Splits of a block-rotated, 2-bit quantized projection, in exact
  arithmetic.
* **Kernels and fingerprints** (`lcg.dfy`, `folds.dfy`, `exact_sums.dfy`, `kernels.dfy`, `kernel_layout.dfy`, `q8.dfy`).
  The tensor-filling generator, FNV-1a, the 48-bit checksum, order-independent float32 sums, the matrix product and the
  convolution on planes of rows, and the Q8_0 product on rows of blocks.
* **Tables and placement** (`script_tables.dfy`, `placement.dfy`, `manifest.dfy`). Packed Unicode tables and their
  lookups, the weighted split of layers, and the fetch requests with their hashes.
* **The form scanner** (`scanner.dfy`).

## What a run of the FIFO is

Every file-system call has an outcome: done and acknowledged, done with the answer lost, refused, or, for a write, torn
after any number of characters; the claim's first lookup may also wrongly report the marker missing. The component
stops at the first call that does not answer well, so a process killed between two calls leaves exactly the files of a
run in which the next call was refused, and a process killed inside a write those of a torn write. A caller that finds
the lock taken runs nothing. Runs are any sequence of such invocations from a fresh queue; `FifoShared` proves that
processes interleaving single calls under the lock produce nothing else. What happened in a run is read off the files
alone, never off the answers; `FifoAnswers.AnswersAreRecorded` ties the answers to it.

What is durable is a second reading of the same runs. `fifo_script.dfy` gives each operation as the list of its calls;
`fifo_disk.dfy` keeps, beside the files, the texts and the names that changed since they were last synced, grown by
every call that took effect and shrunk only by an acknowledged sync.

## Findings

* The document says the queue begins with `RGQ3` and calls `RGQ4` current (`docs/native-resource-fifo.md`, lines 6 and
  106); the code reads and writes `RGQ5`. The model follows the code.
* A matching `settle-recover` does not always complete an interrupted settle. `FifoSettle.SettleRecoverIff` gives the
  exact condition. Two runs end in a state no operation can ever leave: `FifoStuck.TornReceiptStuck` (the receipt write
  was torn) and `FifoStuck.StaleJournalStuck` (the receipt was moved aside by an interrupted reserve after another
  ticket had been admitted, so that the journal of the dequeue was gone). Both are safe: nothing is exposed.
  `FifoRepair.RepairableIff` says exactly which states of all runs can be brought back to a clean queue.
* Before the first reservation `front` syncs nothing, so a front can be shown while the rename of the archived journal is
  not yet synced. `FifoJournal.FrontJournalIff` gives the exact condition, told from the answers so far and the files
  around each operation, and `FifoJournal.JournalUnsynced` a run. Queue and claims are synced even then.
* The comment in `gen_script_tables.py` line 31 describes a run mode 3; the generator never emits it. The model follows
  the code.

## Main operations, hardest first

Each is held by a statement that does not use its own steps.

1. Reserve and the refusals: `FifoExpected.CalmOutcome`, `FifoTruth.AnswersAreTrue`, `FifoTruth.ReserveAnswers`.
2. Inspect: `FifoTruth.InspectIff`.
3. Recover and settle-recover: `FifoRetry.RecoverIff`, `FifoSettle.SettleRecoverIff`, `FifoRepair.RepairableIff`.
4. Commit with its syncs: `FifoCommit.CommitLeaves`, `FifoDisk.AlwaysSafe`, `FifoSynced.OpenChangeSurvives`,
   and the list of its calls in `FifoSites.SucceedsIff`.
5. The head and the reference of the ring: `RingGrid.VerdictsOfGrid`, `RingGrid.RingReports`.
6. The sharded projection: `Projection.RotateBlock`, `Projection.ApplyIsProduct`, `Projection.ColumnShardsSum`.
7. The convolution and the matrix product: `KernelLayout.TapsAre`, `Kernels.CellOfMatrices`.
8. The Q8_0 product: `Q8.ProductOfBlocks`.
9. Generator and fingerprints: `Lcg.EveryStateOccurs`, `Lcg.DrawBits`, `Folds.OneByteApart`, `Folds.PublishedHashes`.
10. Tables, placement, manifests and scanner: `ScriptTables.TablesDecode`, `Placement.FairShare`, `Manifest.RequestsAre`,
    `Scanner.ScanIff`.

## Model

| member | source | states |
|---|---|---|
| `FifoText.ValidIffQueue` | kotoba/resource_fifo.kotoba:164-172 | the queue test accepts exactly the texts of at most 64 distinct tickets |
| `FifoText.FindTicket` | kotoba/resource_fifo.kotoba:314-327 | searching the queue text for a ticket line is looking the ticket up in the queue, at five plus 65 times its place |
| `FifoText.Slices` | kotoba/resource_fifo.kotoba:274-318 | the slices taken of a queue text are the first ticket, the rest, and the queue with one more ticket; the length limit is 64 tickets |
| `FifoText.CutLine` | kotoba/resource_fifo.kotoba:325-329 | cutting a line out of the text takes exactly that ticket out of the queue |
| `FifoText.TransitionIff` | kotoba/resource_fifo.kotoba:175-186 | the transition test accepts exactly one append or one removal |
| `FifoText.JournalDecodes` | kotoba/resource_fifo.kotoba:187-194 | cutting a journal at its first NEXT line gives back the two texts it was written from |
| `FifoText.JournalRoundTrip` | kotoba/resource_fifo.kotoba:187-201 | every one-change journal is accepted, decodes to its two queues and fits 8340 characters |
| `FifoText.JournalUnique` | scripts/native/check-fifo-bounded-fixture.py:367-376 | one journal text records one change only |
| `FifoText.TicketIff` | kotoba/resource_fifo.kotoba:93-99 | a ticket is 64 lower-case hexadecimal digits |
| `FifoText.KindsApart` | kotoba/resource_fifo.kotoba:118-201 | no text of one kind passes for another: queue, journal, mark and claim are told apart |
| `FifoStore.CallMeans` | kotoba/resource_fifo.kotoba:21-80 | what an outcome means: a refused call changes nothing, a lost answer hides a whole effect, an acknowledged one is whole, a torn write leaves the first characters |
| `FifoCommit.CommitLeaves` | kotoba/resource_fifo.kotoba:211-223 | interrupted anywhere, a commit leaves exactly the old or the new queue, an open journal unless it never began or finished, and no other file touched |
| `FifoLeaves.ClaimLeaves` | kotoba/resource_fifo.kotoba:105-117 | a claim touches only its ticket's two files and never replaces a published claim, even when the lookup wrongly reports it missing |
| `FifoLeaves.RecoverLeaves` | kotoba/resource_fifo.kotoba:187-210 | recovery moves the journal aside or does nothing |
| `FifoLeaves.RecoverSettleLeaves` | kotoba/resource_fifo.kotoba:224-240 | completing a settle writes at most a receipt, and only when all evidence names that ticket |
| `FifoLeaves.SettleLeaves` | kotoba/resource_fifo.kotoba:278-288 | a settle moves the release marker to history before it writes the receipt |
| `FifoLeaves.ReleaseLeaves` | kotoba/resource_fifo.kotoba:289-299 | a release only moves the whole hold of the front ticket |
| `FifoLeaves.ReserveLeaves` | kotoba/resource_fifo.kotoba:306-312 | a reserve moves the last receipt aside, then writes the hold of the front ticket |
| `FifoRuns.RunInv` | kotoba/resource_fifo.kotoba:241-331 | every run keeps the invariant: valid queue, tickets conserved, admitted tickets claimed, marker files as the stage of the reservation says |
| `FifoRuns.AdmittedOnceAndKept` | scripts/native/check-fifo-ticket-once.py:276-326 | no run admits a ticket twice; admitted tickets without the withdrawn ones are those removed followed by those waiting, in order |
| `FifoRuns.ReservedInOrder` | scripts/native/check-fifo-bounded-fixture.py:278-304 | tickets are reserved in admission order, withdrawn ones aside, each at most once |
| `FifoRuns.NoOvertaking` | scripts/native/check-fifo-bounded-fixture.py:287-304 | after a reservation nothing is reserved until that ticket's release, removal and settling are all on record |
| `FifoRuns.FrontIsNext` | scripts/native/check-fifo-bounded-fixture.py:335-363 | front shows only the next ticket in admission order, with the last receipt whole and in place |
| `FifoRuns.FrontAfterCycles` | scripts/native/check-fifo-bounded-fixture.py:335-363 | when front shows a ticket, every reservation on record went through its whole cycle |
| `FifoRecovery.OpenCommitBlocks` | scripts/native/check-fifo-bounded-fixture.py:391-433 | while a journal or a half-written queue is left over, everything but recovery refuses and changes nothing |
| `FifoRecovery.RecoverKeepsQueue` | scripts/native/check-fifo-bounded-fixture.py:475-506 | recovery never changes the queue; unacknowledged, it left the files alone or already archived the journal |
| `FifoRecovery.TornJournal` | kotoba/resource_fifo.kotoba:187-203 | a torn journal that is accepted still names the queue it was written over |
| `FifoRecovery.RecoverNamesTheSide` | scripts/native/check-fifo-bounded-fixture.py:411-430 | after any interrupted commit, recovered means the new queue is installed and aborted means the old one is |
| `FifoRetry.RecoverIff` | kotoba/resource_fifo.kotoba:187-210 | with a good file system, exactly when recovery succeeds, and with which of its two answers |
| `FifoRetry.RenamedRecovers` | scripts/native/check-fifo-bounded-fixture.py:418-424 | recovering after the rename leaves the files of a commit that was never interrupted |
| `FifoRetry.JournalledAborts` | scripts/native/check-fifo-bounded-fixture.py:418-424 | recovering before anything but the journal was written puts everything back |
| `FifoRetry.InspectTells` | kotoba/resource_fifo.kotoba:254-261 | what inspect reports about claim and queue is so |
| `FifoRetry.AdmissionIsFresh` | kotoba/resource_fifo.kotoba:313-319 | a queue grows only by the ticket of an enqueue that published its claim in that step |
| `FifoRetry.BurnedForever` | scripts/native/check-fifo-ticket-once.py:97-112 | once published, a claim stays as it is for ever and its ticket is never admitted again |
| `FifoProgress.FreshTicketEnqueues` | scripts/native/check-fifo-ticket-once.py:295-303 | an unpublished claim can be retried: a ticket without a published claim is admitted behind all others, staging file or not |
| `FifoProgress.BurnedTicketRefused` | scripts/native/check-fifo-ticket-once.py:295-303 | a ticket with a published claim is refused and nothing of it changes |
| `FifoProgress.ReserveSucceeds` | kotoba/resource_fifo.kotoba:306-312 | with a good file system the front ticket of a clean queue is reserved |
| `FifoProgress.ReleaseSucceeds` | kotoba/resource_fifo.kotoba:289-299 | the held front ticket is released |
| `FifoProgress.DequeueSucceeds` | kotoba/resource_fifo.kotoba:273-277 | the released ticket is taken off, leaving the evidence settle asks for |
| `FifoProgress.SettleSucceeds` | kotoba/resource_fifo.kotoba:278-288 | settle issues the receipt and leaves the queue clean |
| `FifoProgress.WholeCycle` | scripts/native/check-fifo-bounded-fixture.py:286-304 | reserve, release, dequeue and settle of the front ticket all succeed and leave the queue ready for the next |
| `FifoProgress.FrontShows` | kotoba/resource_fifo.kotoba:304 | front of a clean queue shows its first ticket, or empty |
| `FifoProgress.CancelSucceeds` | kotoba/resource_fifo.kotoba:324-330 | cancel takes exactly the named waiting ticket out |
| `FifoExpected.BarrierIff` | kotoba/resource_fifo.kotoba:146-156 | the barrier inspect asks for: no marker and a settled history, a whole hold of the claimed front ticket, or a whole release of a claimed ticket at the front or gone |
| `FifoExpected.CalmOutcome` | kotoba/resource_fifo.kotoba:241-331 | with a good file system every operation, from every state of the directory and with any ticket, answers exactly as the tables over queue, claims and markers say, and leaves exactly their files |
| `FifoTruth.AnswersAreTrue` | kotoba/resource_fifo.kotoba:241-331 | whatever the file system does, an answer that promises anything is the one of the tables and comes with exactly their files |
| `FifoTruth.RefusalsAreTrue` | scripts/native/check-fifo-bounded-fixture.py:275-300 | whatever the file system does, what a refusal or a report says of queue, ticket and markers is so: empty, not at the front, already queued, full, used, not queued, held |
| `FifoTruth.ChangesAreOwned` | kotoba/resource_fifo.kotoba:241-349 | an operation that changed anything either answers with a success, for which the component exits 0, or with its own admission that it does not know |
| `FifoTruth.UnseenRefuses` | kotoba/resource_fifo.kotoba:242-252 | an operation that could not see the queue, a marker or an open commit changes nothing and does not succeed |
| `FifoTruth.ReserveAnswers` | kotoba/resource_fifo.kotoba:306-312 | exactly when reserve of a clean queue answers empty, not-front, ticket-unknown and reserved |
| `FifoTruth.DequeueAnswers` | kotoba/resource_fifo.kotoba:273-323 | exactly when dequeue, idle or released, answers empty, not-front, release-required and dequeued |
| `FifoTruth.AdmissionAnswers` | kotoba/resource_fifo.kotoba:313-330 | exactly when enqueue and cancel of a clean queue give each of their answers |
| `FifoTruth.InspectIff` | scripts/native/check-fifo-ticket-once.py:183-210 | exactly when inspect reports a claim, queued or recorded, with no marker, under a hold and under a release |
| `FifoSites.SucceedsIff` | kotoba/resource_fifo.kotoba:105-331 | whatever the file system does, an operation succeeds exactly when the tables say so and every one of its listed calls, no more and no fewer, was answered well |
| `FifoSettle.InterruptedBlocks` | kotoba/resource_fifo.kotoba:135-156 | without a whole receipt for the last reservation everything but settle-recover refuses and changes nothing |
| `FifoSettle.BlockedUntilReceipt` | scripts/native/check-fifo-settle-crash.py:93-114 | over every further run that stays so until a whole receipt for that same ticket is in place |
| `FifoSettle.WrongTicketNeverSettles` | scripts/native/check-fifo-history-crash.py:96-102 | another ticket's settle-recover never clears an interrupted settle |
| `FifoSettle.SettleRecoverNeeds` | kotoba/resource_fifo.kotoba:230-240 | settle-recover writes and answers only on complete evidence for its own ticket |
| `FifoSettle.SettleRecoverIff` | kotoba/resource_fifo.kotoba:224-240 | with a good file system, exactly when the matching settle-recover succeeds |
| `FifoSettle.StuckForever` | kotoba/resource_fifo.kotoba:224-240 | in a state without evidence, or with a damaged receipt, no operation changes or achieves anything |
| `FifoSettle.StuckOverRuns` | kotoba/resource_fifo.kotoba:224-240 | and that stays so over every further sequence of invocations |
| `FifoSettle.TornHoldBlocks` | scripts/native/check-fifo-bounded-fixture.py:335-338 | a hold that was not written whole keeps everything blocked |
| `FifoStuck.InterruptedSettleIff` | scripts/native/check-fifo-settle-crash.py:93-114 | an interrupted settle is completed by the matching settle-recover if and only if the receipt was not torn |
| `FifoStuck.ConsumedHistoryIff` | scripts/native/check-fifo-history-crash.py:83-102 | after an interrupted reserve the matching settle-recover works if and only if the archived journal is still that dequeue |
| `FifoStuck.TornReceiptStuck` | kotoba/resource_fifo.kotoba:236-240 | for every ticket, a run in which its settle tears the receipt and which is stuck |
| `FifoStuck.StaleJournalStuck` | kotoba/resource_fifo.kotoba:157-163 | for any three tickets, a run that settles the first, admits the third, loses the hold of the second with the first's receipt moved aside, and is stuck |
| `FifoRepair.RepairableIff` | docs/native-resource-fifo.md:25-45 | after any run, some continuation leads to a clean queue if and only if the state is repairable: nothing half-written beside the queue, a journal recovery takes, and no torn hold, torn receipt or stale journal |
| `FifoRepair.RepairedCalmly` | scripts/native/check-fifo-settle-crash.py:93-114 | from a repairable state at most four requests lead to a clean queue on a well-behaved file system |
| `FifoScript.ScriptPlays` | kotoba/resource_fifo.kotoba:241-331 | every operation leaves exactly the files its list of calls leaves, and a success means that each call was acknowledged |
| `FifoDisk.DiskRunFiles` | kotoba/resource_fifo.kotoba:241-331 | the reading of a run that keeps track of syncs has the files of the run |
| `FifoDisk.TouchMeans` | kotoba/resource_fifo.kotoba:211-223 | what counts as unsynced grows with every change of a text or a name and shrinks only by an acknowledged sync |
| `FifoDisk.AlwaysSafe` | kotoba/resource_fifo.kotoba:211-223 | in every run the text of queue, claims, archived journal, release, settled marker and old receipt is synced at all times; while a new queue is written aside, or its rename is not synced, the journal of that change is open and synced, text and name; a hold and a receipt stand on synced history |
| `FifoSynced.AdmittedClaimsSynced` | kotoba/resource_fifo.kotoba:100-117 | in every run the claim of every ticket ever admitted is in place and synced, text and name |
| `FifoSynced.AchievedIsSynced` | kotoba/resource_fifo.kotoba:211-240 | in every run, once an operation answers that it did what was asked, everything but staging files has been synced since it last changed |
| `FifoSynced.AchievedSurvives` | docs/native-resource-fifo.md:29-37 | what such an answer stands for survives a loss of power in which unsynced changes come back in any state |
| `FifoSynced.OpenChangeSurvives` | docs/native-resource-fifo.md:29-32 | a loss of power leaves the queue as it was or, while a change of it was on its way, leaves the journal of that change as it was |
| `FifoSynced.StandsOnSynced` | kotoba/resource_fifo.kotoba:306-312 | while a hold is in place, whole or torn, the queue, the waiting tickets' claims and the last reservation's settled marker, receipt and archived journal are synced; while a receipt is, its settled marker is |
| `FifoSynced.FrontIsSynced` | kotoba/resource_fifo.kotoba:132-145 | when front shows a ticket, queue, waiting claims and all text are synced, and once anything was reserved the directory too, so the last receipt is durable; before that it syncs nothing |
| `FifoJournal.LooseIff` | kotoba/resource_fifo.kotoba:187-223 | before the first reservation, and with no commit open, the archived journal's name is unsynced if and only if the answers so far and the files around each operation say so |
| `FifoJournal.FrontJournalIff` | kotoba/resource_fifo.kotoba:135-145 | behind a shown front the archived journal's name is synced if and only if something was ever reserved or those answers and files do not leave it loose |
| `FifoJournal.JournalUnsynced` | kotoba/resource_fifo.kotoba:211-223 | for every ticket, a run after which front shows it while the archived journal's name is unsynced |
| `FifoAnswers.AnswersAreRecorded` | kotoba/resource_fifo.kotoba:241-331 | every success an operation answers is recorded in the run, for that very ticket |
| `FifoAnswers.OneHolderAtATime` | scripts/native/check-fifo-bounded-fixture.py:287-304 | between two reserves answered with success, the first ticket's release, removal and settling all took effect |
| `FifoShared.InterleavingIsRun` | kotoba/resource_fifo.kotoba:332-349 | however processes interleave their calls under the lock, killed ones included, the files are at every moment those of a run, and every answer is that of its own invocation in it |
| `FifoShared.OneWinner` | scripts/native/check-fifo-bounded-fixture.py:382-390 | of any number of processes racing to enqueue one ticket, at most one is told that it did, whatever fails or is killed |
| `FifoShared.RaceHasOneWinner` | scripts/native/check-fifo-bounded-fixture.py:382-390 | if nobody is killed and the file system works, exactly one of the racers is told so |
| `FifoDirectory.QueueDirectory.Do` | kotoba/resource_fifo.kotoba:21-80 | one file-system call changes the files and answers as its outcome says |
| `FifoDirectory.QueueDirectory.Commit` | kotoba/resource_fifo.kotoba:211-223 | the in-place commit is the commit function |
| `FifoDirectory.QueueDirectory.ClaimTicket` | kotoba/resource_fifo.kotoba:105-117 | the in-place claim is the claim function |
| `FifoDirectory.QueueDirectory.RecoverQueue` | kotoba/resource_fifo.kotoba:187-210 | the in-place recovery is the recovery function |
| `FifoDirectory.QueueDirectory.RecoverSettle` | kotoba/resource_fifo.kotoba:224-240 | the in-place settle recovery is the settle recovery function |
| `FifoDirectory.QueueDirectory.Apply` | kotoba/resource_fifo.kotoba:241-331 | one whole operation in place is the operation function |
| `FifoDirectory.QueueDirectory.Serve` | kotoba/resource_fifo.kotoba:332-349 | any sequence of invocations in place reaches the files of that run and prints busy, an unknown unlock, or the operation's answer |
| `RingModel.StreamReference` | docs/evidence/awai149-mtp-multitoken-stream-reference.py:43-58 | the reference loop, caches updated in place, computes the reference function |
| `RingModel.NeverPlaceholder` | docs/evidence/awai149-three-mac-mtp-multitoken-probe.py:60 | the token of every step is a prompt token or an earlier target, never the placeholder |
| `RingModel.Counts` | docs/evidence/awai149-three-mac-mtp-multitoken-probe.py:71-77 | one history update for each prompt token but the last, one verdict for each later step |
| `RingModel.MultiTokenDrafts` | docs/evidence/awai149-three-mac-mtp-multitoken-probe.py:75-77 | every verdict reports the draft made with the verdict before it |
| `RingModel.DraftSeesNextToken` | docs/evidence/awai149-three-mac-mtp-multitoken-probe.py:60-77 | what the last rank shows the draft head is the very token rank 0 embeds next |
| `RingModel.ContextCase` | docs/evidence/awai149-nine-mac-mtp-context-probe.py:72-78 | a context case ends with a first target that makes the draft and a second that is checked against it |
| `RingSteps.OneMover` | docs/evidence/awai149-three-mac-mtp-multitoken-probe.py:58-81 | at every moment of an unfinished prompt exactly one rank can act |
| `RingMoves.Moves` | docs/evidence/awai149-three-mac-mtp-multitoken-probe.py:58-81 | every action leads from one moment of the reference to the next, caches, draft state, channels and reports included |
| `RingRuns.RunsEnd` | docs/evidence/awai149-three-mac-mtp-multitoken-probe.py:58-81 | no schedule is longer than the fixed total; short of it exactly one rank can act; at it every prompt has run |
| `RingRuns.OneMessage` | docs/evidence/awai149-three-mac-full-decoder-probe.py:43-59 | at most one message is in flight |
| `RingRuns.OnlyTokensEmbedded` | docs/evidence/awai149-three-mac-mtp-multitoken-probe.py:59-63 | in every reachable state the token rank 0 embeds next is real |
| `RingRuns.RingRefines` | docs/evidence/awai149-three-mac-mtp-multitoken-probe.py:55-82 | for every partition and schedule, a complete run reports what the reference computes for each prompt alone and holds the reference's caches |
| `RingRuns.ForcedSchedule` | docs/evidence/awai149-three-mac-mtp-multitoken-probe.py:58-81 | there is only one schedule of each length |
| `RingRuns.Completes` | docs/evidence/awai149-three-mac-mtp-multitoken-probe.py:58-81 | every schedule can be completed |
| `RingRuns.PartitionsAgree` | docs/evidence/awai149-seven-mac-mtp-context-probe.py:14 | different partitions and numbers of ranks give the same reports |
| `RingRuns.PromptsIndependent` | docs/evidence/awai149-nine-mac-mtp-context-probe.py:54-81 | every prompt of a launch reports what it would alone: nothing leaks through caches or draft state |
| `RingRuns.LaunchedPartitions` | docs/evidence/awai149-nine-mac-mtp-context-probe.py:14 | the three-, seven- and nine-rank partitions tile the 64 layers |
| `RingRuns.MultiTokenReport` | docs/evidence/awai149-three-mac-mtp-multitoken-probe.py:55-82 | history count, verdict count and draft order of the multi-token launch |
| `RingGrid.ReferenceGrid` | docs/evidence/awai149-mtp-multitoken-stream-reference.py:43-58 | every token, hidden state and cache of the reference is the one the grid of steps and layers gives |
| `RingGrid.VerdictsOfGrid` | docs/evidence/awai149-mtp-multitoken-stream-reference.py:50-56 | in every mode verdict k is that of step length - 1 + k: target and target logits from the head, draft and draft logits from the draft head, the draft before it, and the draft cache fed with every next token |
| `RingGrid.RingReports` | docs/evidence/awai149-three-mac-mtp-multitoken-probe.py:55-82 | for every partition and schedule a complete run reports exactly those verdicts and ends with the caches of the grid |
| `RingMachine.Machine.StartStep` | docs/evidence/awai149-nine-mac-mtp-context-probe.py:54-64 | a rank starting a step in place: fresh caches for a new prompt, embedding or receiving |
| `RingMachine.Machine.Compute` | docs/evidence/awai149-nine-mac-mtp-context-probe.py:65-78 | a rank computing in place: a layer, a send, or the head |
| `RingMachine.Machine.PassReply` | docs/evidence/awai149-nine-mac-mtp-context-probe.py:78-81 | the reply sent and taken in place |
| `RingMachine.Machine.Run` | docs/evidence/awai149-three-mac-mtp-multitoken-probe.py:58-82 | letting any rank that can act go next ends after exactly the fixed number of actions with the reference's reports |
| `Projection.ShardEntry` | docs/evidence/awai149-sliced-real-layer-probe.py:33-37 | packed words and scale groups sliced by 16 and 128 give the whole layer's entries |
| `Projection.RotateSlice` | docs/evidence/awai149-three-mac-real-layer-probe.py:19-20 | rotating whole blocks of the input is taking those blocks of the rotated input |
| `Projection.RotateBlock` | docs/evidence/awai149-three-mac-real-layer-probe.py:19-20 | block k of the rotated input is the transform of block k of the input, each value times its sign; without a block size nothing is rotated |
| `Projection.PackedCode` | docs/evidence/awai149-three-mac-real-layer-probe.py:16-21 | packing codes sixteen to a word and reading code j gives it back |
| `Projection.ApplyIsProduct` | docs/evidence/awai149-three-mac-real-layer-probe.py:19-22 | the projection of packed codes is the plain matrix-vector product with code times scale plus bias, taken of the rotated input |
| `Projection.ColumnShardsSum` | docs/evidence/awai149-three-mac-real-layer-probe.py:31-34 | for every split on whole blocks and groups the machines' outputs add up to the full rotated projection |
| `Projection.RowShardIsSlice` | docs/evidence/awai149-sliced-real-layer-probe.py:18-29 | a shard of output rows computes exactly those rows |
| `Projection.GuardIff` | docs/evidence/awai149-two-mac-aligned-probe.py:16-17 | the guard accepts exactly the equal splits that keep whole groups and blocks |
| `Projection.LaunchedSplits` | docs/evidence/awai149-real-weight-probe.py:25-30 | the splits of five blocks over three and over two machines are such splits; one block over two machines is refused |
| `Lcg.Step` | bench/kernels/kern.h:14 | a step stays below 2^31 and its 64-bit arithmetic never overflows |
| `Lcg.ReturnIff` | bench/kernels/kern.h:14 | from any seed the state comes back after k draws exactly when 2^31 divides k |
| `Lcg.NoRepeat` | bench/kernels/kern.h:14 | no state repeats within 2^31 draws |
| `Lcg.EveryStateOccurs` | bench/kernels/q8_0-matvec/q8_matvec.c:20 | every state occurs within 2^31 draws of every seed |
| `Lcg.StepInjective` | bench/kernels/kern.h:14 | a step permutes the states |
| `Lcg.Fill` | bench/kernels/gemm-metal/gemm.c:23-25 | the filling loop writes successive draws and hands the state on |
| `Lcg.DrawBits` | bench/kernels/gemm-metal/gemm.c:24 | a draw is bits 8 to 14 of the state minus 64, and nothing else of it |
| `Lcg.FirstDraws` | bench/kernels/gemm-metal/gemm.c:20-24 | the first states and draws from the seed the kernels start with |
| `Folds.FnvStepInjective` | tools/infer-prewarm/fnv.c:18 | a step of the hash can be undone, and separates any two bytes |
| `Folds.OneByteApart` | tools/infer-prewarm/fnv.c:16-18 | inputs of one length that differ in exactly one byte have different hashes |
| `Folds.HashRange` | tools/infer-prewarm/fnv.c:15-19 | the loop hashes exactly the named range |
| `Folds.PublishedHashes` | tools/infer-prewarm/fnv.c:16-18 | the published FNV-1a hashes of the empty input and of "a" |
| `Folds.CheckStepInjective` | bench/kernels/gemm-metal/gemm.c:30 | a fold of the checksum can be undone, and separates results that differ modulo 2^48 |
| `Folds.OneResultApart` | bench/kernels/gemm-metal/gemm.c:26-31 | result sequences that differ modulo 2^48 in exactly one element have different checksums |
| `ExactSums.SumPermuted` | bench/kernels/gemm-metal/gemm.c:1-6 | the integer sum does not depend on the order of its terms |
| `ExactSums.Exact` | bench/kernels/gemm-metal/gemm.c:1-6 | n products with n * 4096 < 2^24 give the exact sum under rounding at every node of any bracketing |
| `ExactSums.AnyOrder` | bench/kernels/gemm-metal/gemm.c:1-6 | any order, bracketing and rounding mode gives the integer sum |
| `ExactSums.FirstGap` | bench/kernels/gemm-metal/gemm.c:1-6 | 2^24 is a float32 value and 2^24 + 1 is not, so the bound on the sums cannot be moved past it |
| `ExactSums.FloatEnds` | bench/kernels/gemm-metal/gemm.c:1-6 | the float32 values of the model end at the largest finite one and begin at the smallest positive one |
| `Kernels.CellSum` | bench/kernels/gemm-metal/gemm.c:28 | the inner loop computes the cell |
| `Kernels.Gemm` | bench/kernels/gemm-metal/gemm.c:26-31 | the loops fold the bit patterns of all cells in row-major order |
| `Kernels.CellOfMatrices` | bench/kernels/gemm-metal/gemm.c:28 | on matrices stored row after row a cell sums the products of a row with a column |
| `Kernels.GemmCellExact` | bench/kernels/gemm-metal/gemm.c:1-6 | every float32 evaluation of a cell equals the integer reference |
| `Kernels.ConvPixel` | bench/kernels/conv-epilogue-metal/conv_ref.c:33-38 | the loops that skip taps outside the image, reading each weight at its flat index, compute the sum over the zero-padded image |
| `Kernels.Conv` | bench/kernels/conv-metal/conv.c:34-45 | the loops fold the bit patterns of all output pixels, channel by channel in row-major order |
| `Kernels.ConvPixelExact` | bench/kernels/conv-metal/conv.c:1-5 | every float32 evaluation of an output pixel, with any of the padding's zeros left out or put in, equals the integer reference |
| `KernelLayout.PadAt` | bench/kernels/conv-metal/conv.c:38 | inside its border of zeros a padded plane is the plane |
| `KernelLayout.PixelOfPadded` | bench/kernels/conv-epilogue-metal/conv_ref.c:36 | looking a pixel up with half a window taken off, and zero outside, is looking it up in the padded image |
| `KernelLayout.TapsAre` | bench/kernels/conv-epilogue-metal/conv_ref.c:35-38 | the taps of an output pixel are the kernel's weights times the window of the zero-padded image that starts at output place times stride, each once, channel by channel and row by row |
| `KernelLayout.ChannelIs` | bench/kernels/conv-epilogue-metal/conv_ref.c:37 | with weights stored channel after channel, an output channel uses exactly its own |
| `KernelLayout.FilledEntries` | bench/kernels/gemm-metal/gemm.c:23-25 | what the generator fills a tensor with are entries the exact sums cover |
| `KernelLayout.BitsInOrder` | bench/kernels/gemm-metal/gemm.c:27-31 | the folded sequence of the product has one element for each cell, that of cell (i, j) at i * n + j |
| `KernelLayout.PixelsInOrder` | bench/kernels/conv-metal/conv.c:35-43 | the folded sequence of the convolution has one element for each output pixel, behind all channels before it and all rows above it |
| `Q8.PackedBytes` | bench/kernels/q8_0-matvec/q8_matvec.c:22-30 | packing eight bytes and taking one out again gives its signed value |
| `Q8.FilledVector` | bench/kernels/q8_0-matvec/q8_matvec.c:61-63 | a vector filled from the generator is one the product takes |
| `Q8.WordDotIsDot` | bench/kernels/q8_0-matvec/q8_matvec.c:26-30 | the word dot product is the plain one of the eight signed bytes |
| `Q8.RowSum` | bench/kernels/q8_0-matvec/q8_matvec.c:35-42 | the loop over blocks computes the row |
| `Q8.Matvec` | bench/kernels/q8_0-matvec/q8_matvec.c:32-46 | the loop over rows folds every row into the checksum |
| `Q8.RowIsPlain` | bench/kernels/q8_0-matvec/q8_matvec.c:32-46 | every packed row is the exact scaled dot product of its signed bytes |
| `Q8.RowOfBlocks` | bench/kernels/q8_0-matvec/q8_matvec.c:36-42 | on a matrix stored from rows of blocks, row r is the scaled dot product of its own blocks, block k with block k of the vector |
| `Q8.ProductOfBlocks` | bench/kernels/q8_0-matvec/q8_matvec.c:32-46 | what is folded is one number for each row, in order, each the scaled dot product of that row's bytes |
| `Q8.NoOverflow` | bench/kernels/q8_0-matvec/q8_matvec.c:22-43 | no sum inside a word or block, product with a scale, partial sum of a row or fold leaves the 64-bit range |
| `ScriptTables.RangeRuns` | bench/kernels/clip-tokenizer-metal/gen_script_tables.py:24-29 | greedy runs of one range hold exactly its code points with their classes, each as long as can be |
| `ScriptTables.ClassRuns` | bench/kernels/clip-tokenizer-metal/gen_script_tables.py:23-30 | the runs of all ranges hold exactly their code points with their classes |
| `ScriptTables.ClassDecodes` | bench/kernels/clip-tokenizer-metal/clip_tokenizer_metal.kotoba.in:214-219 | the lookup in the packed runs gives the class in the ranges and 4 elsewhere |
| `ScriptTables.CollectLow` | bench/kernels/clip-tokenizer-metal/gen_script_tables.py:32-35 | the loops collect the movements of exactly the letters that change |
| `ScriptTables.KeysExist` | bench/kernels/clip-tokenizer-metal/gen_script_tables.py:36 | the collected code points of every such map can be put in ascending order |
| `ScriptTables.LowerRuns` | bench/kernels/clip-tokenizer-metal/gen_script_tables.py:36-48 | the greedy constant and alternating runs serve exactly the collected code points, and none of them could be longer |
| `ScriptTables.LowerDecodes` | bench/kernels/clip-tokenizer-metal/clip_tokenizer_metal.kotoba.in:220-229 | the lookup in the packed runs moves every code point as the map says and no other |
| `ScriptTables.LetterDecodes` | bench/kernels/clip-tokenizer-metal/clip_tokenizer_metal.kotoba.in:220-229 | the lookup lower-cases every letter in the ranges and leaves all else alone |
| `ScriptTables.Collect` | bench/kernels/clip-tokenizer-metal/gen_nfc_table.py:16-20 | the two loops collect the entries of all composing pairs |
| `ScriptTables.RowsEntries` | bench/kernels/clip-tokenizer-metal/gen_nfc_table.py:16-20 | the collected entries are true and complete |
| `ScriptTables.TablesDecode` | bench/kernels/clip-tokenizer-metal/gen_nfc_table.py:15-31 | from collecting over sorting and cutting to the lookup: the composition of a listed base with a listed mark, and -1 for every other pair |
| `ScriptTables.GenerateTables` | bench/kernels/clip-tokenizer-metal/gen_nfc_table.py:15-22 | the generator writes exactly those tables, none empty and none longer than 60 |
| `Placement.OneDevice` | tools/infer-prewarm/gen_manifest.py:15-22 | every layer belongs to exactly one node, and node k's layers are those between two boundaries |
| `Placement.BoundaryEnds` | tools/infer-prewarm/gen_manifest.py:15-22 | the boundaries start at the first layer and end behind the last, so the ranges tile all layers |
| `Placement.NoWeightNoLayer` | tools/infer-prewarm/gen_manifest.py:15-18 | a node without weight gets no layer |
| `Placement.FairShare` | tools/infer-prewarm/gen_manifest.py:15-18 | every node's number of layers is less than one away from its share |
| `Placement.Accumulate` | tools/infer-prewarm/gen_manifest.py:16-17 | the loop accumulates the cumulative shares |
| `Placement.Device` | tools/infer-prewarm/gen_manifest.py:18 | bisecting the shares finds the node the boundaries give |
| `Placement.AssignLayers` | tools/infer-prewarm/gen_manifest.py:20-32 | the loops give node k exactly the stretch of layers from its boundary to the next |
| `Manifest.Account` | tools/infer-prewarm/gen_manifest.py:23-31 | one pass updates every node's bytes, fetch bytes and fetch count |
| `Manifest.BytesConserved` | tools/infer-prewarm/gen_manifest.py:23-29 | per-node bytes add up to the bytes of all tensors |
| `Manifest.BytesAre` | tools/infer-prewarm/gen_manifest.py:24-29 | a node's bytes are those of its layers, and HEAD has those of all tensors without a layer besides |
| `Manifest.Emit` | tools/infer-prewarm/gen_manifest.py:40-45 | the loop appends every request to its node's list |
| `Manifest.RequestsAreFetches` | tools/infer-prewarm/gen_manifest.py:24-45 | the separate emit filter yields exactly the reported fetch bytes and counts |
| `Manifest.RequestsAre` | tools/infer-prewarm/gen_manifest.py:41-45 | a node other than HEAD requests exactly the tensors of its own layers of more than 10 MiB, and HEAD nothing |
| `Manifest.Group` | tools/infer-prewarm/hash_manifests.py:7-10 | grouping by part loses and misplaces no request |
| `Manifest.Scatter` | tools/infer-prewarm/hash_manifests.py:11-16 | every hash goes back to the place of its request, whatever the order of the parts |
| `Manifest.Manifests` | tools/infer-prewarm/hash_manifests.py:6-22 | line i of every node's manifest carries the hash of that node's i-th request |
| `Scanner.Form` | scripts/verify-flint-oci-descriptor-native.py:10-25 | the loop computes the scan function |
| `Scanner.WrittenFormScans` | scripts/verify-flint-oci-descriptor-native.py:10-25 | a written form followed by any text is scanned to exactly its own end |
| `Scanner.ScanIff` | scripts/verify-flint-oci-descriptor-native.py:10-25 | the scanner returns an extent if and only if that extent is a written form |

## Left out

- The FIFO's provider calls (`kotoba/resource_fifo.kotoba`, lines 19 to 80): framing, decimal metadata and the path test
  of the root are taken as read, write, sync, rename and lookup with an outcome; exit codes appear only as
  `FifoRecovery.Succeeded`.
- Runs that go on after a loss of power: a run loses answers and calls, never a write that took effect.
  `FifoSynced.AchievedSurvives` says what a loss of power leaves, not what the component does with the rest.
- Lookups that answer wrongly, except the one the component guards against in a claim.
- FifoDirectory.QueueDirectory.Serve: one caller after another; interleaved callers are in `FifoShared`. A lock that is not
  let go is let go when the process ends.
- FifoShared.InterleavingIsRun: a process reads what decides its calls when it takes the lock; nobody else changes a file
  before it lets the lock go.
- What a layer, the head, the draft head and the rotation compute: they are functions of their inputs and their state.
- The three-stage pipeline probe (`docs/evidence/awai149-three-mac-decoder-pipeline-probe.py`): the ring without a head
  is a simpler case of the one modelled.
- Rounding in the projection, in the shares of the layer split and in every kernel but the exact sums: the model is in
  exact arithmetic.
- Kernels.ConvPixel: the epilogue modes of the convolution (bias, residual, SiLU) and its comparison in double precision.
- Kernels.Index: 16-bit storage of the inputs, whose values fit.
- Q8.Pack: the packing loop's shifts and ors are written as a sum, the bytes not overlapping.
- ScriptTables.Pack: the generator's shifts and ors are written as a sum, the fields not overlapping.
- ScriptTables.LowerRuns: the sorting of the map's keys, and which code points Unicode calls letters, are inputs.
- Scanner.Form: the regular expression that finds where a named form begins.
- Process spawning, signing, sockets, deployment, the benchmark summaries and the serving proxies: plumbing, with nothing
  to prove beyond what they call.
