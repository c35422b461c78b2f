/** What each operation can leave in the queue directory, whatever its file-system calls do. */
module FifoLeaves {
  import opened FifoText
  import opened FifoStore
  import opened Fifo
  import opened FifoLog
  import opened FifoCommit

  ghost predicate ClaimShape(before: Files, after: Files, t: string) {
    && Same(before, after, {Staged(t), Used(t)})
    && (Used(t) in before ==> Used(t) in after && after[Used(t)] == before[Used(t)])
    && (Used(t) in after && Used(t) !in before ==> after[Used(t)] == Claim(t))
  }

  lemma PublishStep(before: Files, mid: Files, t: string)
    requires Same(before, mid, {Staged(t)}) && Staged(t) in mid && mid[Staged(t)] == Claim(t) && Used(t) !in mid
    ensures ClaimShape(before, Moved(mid, Staged(t), Used(t)), t)
  {
  }

  lemma StageLeaves(fs: Files, t: string, env: Env)
    ensures var c := StageClaim(fs, t, env);
      Same(fs, c.files, {Staged(t)}) && (c.up ==> Staged(t) in c.files && c.files[Staged(t)] == Claim(t))
  {
  }

  /** A claim changes only the two files of its ticket and never replaces a claim that is already there, not even
    when the first lookup wrongly reports it missing. */
  lemma ClaimLeaves(fs: Files, t: string, env: Env)
    ensures var c := ClaimTicket(fs, t, env);
      && ClaimShape(fs, c.files, t)
      && (c.refusal == [] ==> Used(t) !in fs && Used(t) in c.files)
  {
    hide StageClaim, Claim, Read;
    StageLeaves(fs, t, env);
    var c1 := StageClaim(fs, t, env);
    var c2 := c1.Then(Publish(Staged(t), Used(t)), env(44));
    if c1.up && Used(t) !in c1.files {
      PublishStep(fs, c1.files, t);
    }
    assert ClaimShape(fs, c2.files, t) && (c2.up ==> Used(t) !in fs && Used(t) in c2.files);
    var c3 := c2.Then(Flush(Used(t)), env(45)).Then(Holds(Used(t), 70, Claim(t)), env(46)).Then(Flush(Directory), env(47));
    assert c3.files == c2.files && (c3.up ==> c2.up);
  }

  lemma ArchiveLeaves(fs: Files, env: Env)
    ensures var c := ArchiveIntent(fs, env);
      && (c.files == fs || (Intent in fs && c.files == Moved(fs, Intent, LastJournal)))
      && (c.up ==> Intent in fs && c.files == Moved(fs, Intent, LastJournal))
  {
    hide Read;
    var c := Begin(fs).Then(Flush(QueueFile), env(81)).Then(Flush(Intent), env(82)).Then(Flush(Directory), env(83));
    assert c.files == fs;
    var c1 := c.Then(Replace(Intent, LastJournal), env(84));
    assert c1.up ==> Intent in fs && c1.files == Moved(fs, Intent, LastJournal);
    assert c1.files == fs || (Intent in fs && c1.files == Moved(fs, Intent, LastJournal));
    assert ArchiveIntent(fs, env) == c1.Then(Flush(Directory), env(85));
  }

  /** Recovery moves the journal aside or does nothing; in particular it never touches the queue. */
  lemma RecoverLeaves(fs: Files, state: string, pending: Presence, intent: Presence, env: Env)
    ensures var a := RecoverQueue(fs, state, pending, intent, env);
      && (a.files == fs || (Intent in fs && a.files == Moved(fs, Intent, LastJournal)))
      && (a.reply == Recovered || a.reply == Aborted ==> Intent in fs && a.files == Moved(fs, Intent, LastJournal))
  {
    hide ArchiveIntent, ValidJournal, JournalOld, JournalNext, Read, Moved;
    ArchiveLeaves(fs, env);
  }

  /** Everything `settle-recover` insists on before it writes a receipt. */
  ghost predicate SettleReady(fs: Files, t: string) {
    && IsTicket(t)
    && Whole(fs, SettledHold, t)
    && Pending !in fs && Intent !in fs
    && QueueFile in fs && ValidState(fs[QueueFile]) && IndexOf(fs[QueueFile], Line(t)) < 0
    && LastJournal in fs && fs[LastJournal] == DequeueRecord(t, fs[QueueFile]) && |fs[LastJournal]| <= 8340
  }

  lemma SettleEvidenceLeaves(fs: Files, t: string, pending: Presence, intent: Presence, env: Env)
    requires QueueFile in fs && ValidState(fs[QueueFile])
    requires (pending == Missing ==> Pending !in fs) && (intent == Missing ==> Intent !in fs)
    ensures var c := SettleEvidence(fs, fs[QueueFile], t, pending, intent, env);
      c.files == fs && (c.up ==> SettleReady(fs, t))
  {
    var c1 := Begin(fs)
      .Only(IsTicket(t) && Claimed(fs, t, env(101)) && pending == Missing && intent == Missing)
      .Only(Look(fs, SettledHold, env(102)) == Found)
      .Then(Holds(SettledHold, 70, Mark(t)), env(103))
      .Only(IndexOf(fs[QueueFile], Line(t)) < 0)
      .Then(Holds(LastJournal, 8340, DequeueRecord(t, fs[QueueFile])), env(104));
    assert c1.files == fs && (c1.up ==> SettleReady(fs, t));
  }

  ghost predicate ReceiptWritten(fs: Files, after: Files, t: string) {
    && Receipt !in fs && Receipt in after
    && IsPrefix(after[Receipt], Mark(t)) && after == fs[Receipt := after[Receipt]]
  }

  lemma ReceiptWrite(fs: Files, t: string, o: Outcome)
    requires Receipt !in fs
    ensures var after := Effect(fs, Write(Receipt, Mark(t)), o);
      && (after == fs || ReceiptWritten(fs, after, t))
      && (Acknowledged(fs, Write(Receipt, Mark(t)), o) ==> Whole(after, Receipt, t))
  {
    TornPrefix(Mark(t), if o.Torn? then o.kept else 0);
  }

  lemma ReceiptRead(fs: Files, t: string, o: Outcome)
    ensures Effect(fs, Holds(Receipt, 70, Mark(t)), o) == fs
    ensures Acknowledged(fs, Holds(Receipt, 70, Mark(t)), o) ==> Whole(fs, Receipt, t)
  {
  }

  lemma RecoverSettleLeaves(fs: Files, t: string, pending: Presence, intent: Presence, env: Env)
    requires QueueFile in fs && ValidState(fs[QueueFile])
    requires (pending == Missing ==> Pending !in fs) && (intent == Missing ==> Intent !in fs)
    ensures var a := RecoverSettle(fs, fs[QueueFile], t, pending, intent, env);
      && (a.files == fs || (SettleReady(fs, t) && ReceiptWritten(fs, a.files, t)))
      && (a.reply == Settled ==> SettleReady(fs, t) && Whole(a.files, Receipt, t))
  {
    SettleEvidenceLeaves(fs, t, pending, intent, env);
    var receipt := Look(fs, Receipt, env(100));
    var c2 := SettleEvidence(fs, fs[QueueFile], t, pending, intent, env).Only(receipt != Unknown);
    var call := if receipt == Missing then Write(Receipt, Mark(t)) else Holds(Receipt, 70, Mark(t));
    var c3 := c2.Then(call, env(109));
    ReceiptStep(c2, receipt, fs, t, env(109));
    TwoSyncs(c3, Receipt, Directory, env(110), env(111));
  }

  lemma ReceiptStep(c: Chain, receipt: Presence, fs: Files, t: string, o: Outcome)
    requires c.files == fs && (c.up && receipt == Missing ==> Receipt !in fs)
    ensures var call := if receipt == Missing then Write(Receipt, Mark(t)) else Holds(Receipt, 70, Mark(t));
      var next := c.Then(call, o);
      && (next.files == fs || (c.up && ReceiptWritten(fs, next.files, t)))
      && (next.up ==> c.up && Whole(next.files, Receipt, t))
  {
    if receipt == Missing {
      if c.up {
        ReceiptWrite(fs, t, o);
      }
    } else {
      ReceiptRead(fs, t, o);
    }
  }

  lemma DequeueEvidenceLeaves(fs: Files, t: string, env: Env)
    requires QueueFile in fs && ValidState(fs[QueueFile])
    ensures var c := DequeueEvidence(fs, fs[QueueFile], t, env);
      && c.files == fs
      && (c.up ==> Receipt !in fs && LastJournal in fs && fs[LastJournal] == DequeueRecord(t, fs[QueueFile])
                   && |fs[LastJournal]| <= 8340)
  {
    hide DequeueRecord, ValidFrom, IndexOf;
    var c := Begin(fs).Only(IndexOf(fs[QueueFile], Line(t)) < 0);
    var c1 := c.Then(Holds(LastJournal, 8340, DequeueRecord(t, fs[QueueFile])), env(120));
    JournalIsNotEmpty(t, fs[QueueFile]);
    assert c1.files == fs && (c1.up ==> LastJournal in fs && fs[LastJournal] == DequeueRecord(t, fs[QueueFile])
                                        && |fs[LastJournal]| <= 8340);
    var c2 := c1.Then(Flush(QueueFile), env(121)).Then(Flush(LastJournal), env(122)).Then(Flush(Release), env(123));
    assert c2.files == fs && (c2.up ==> c1.up);
    assert DequeueEvidence(fs, fs[QueueFile], t, env) == c2.Then(Flush(Directory), env(124)).Then(Lacks(Receipt), env(125));
  }

  lemma JournalIsNotEmpty(t: string, state: string)
    requires |state| >= 5
    ensures DequeueRecord(t, state) != ""
  {
  }

  /** `settle` first moves the release marker to history, then issues the receipt. */
  lemma SettleLeaves(fs: Files, t: string, pending: Presence, intent: Presence, env: Env)
    requires QueueFile in fs && ValidState(fs[QueueFile])
    requires pending == Missing && Pending !in fs && intent == Missing && Intent !in fs
    ensures var a := SettleReleased(fs, fs[QueueFile], t, pending, intent, env);
      a.files == fs
      || (&& Release in fs && Receipt !in fs
          && LastJournal in fs && fs[LastJournal] == DequeueRecord(t, fs[QueueFile]) && |fs[LastJournal]| <= 8340
          && var moved := Moved(fs, Release, SettledHold);
             a.files == moved
             || (SettleReady(moved, t) && ReceiptWritten(moved, a.files, t)))
  {
    hide DequeueEvidence, RecoverSettle, DequeueRecord, ValidFrom, SettleReady, ReceiptWritten;
    DequeueEvidenceLeaves(fs, t, env);
    var c := DequeueEvidence(fs, fs[QueueFile], t, env);
    var c1 := c.Then(Replace(Release, SettledHold), env(126));
    assert c1.files == fs || (c.up && Release in fs && c1.files == Moved(fs, Release, SettledHold));
    var c2 := c1.Then(Flush(Directory), env(127));
    assert c2.files == c1.files && (c2.up ==> c1.up);
    if c2.up {
      RecoverSettleLeaves(c2.files, t, pending, intent, env);
    }
  }

  lemma ReleaseLeaves(fs: Files, t: string, hold: Presence, pending: Presence, intent: Presence, env: Env)
    requires QueueFile in fs && ValidState(fs[QueueFile])
    ensures var a := ReleaseHold(fs, t, fs[QueueFile], hold, pending, intent, env);
      a.files == fs
      || (IsTicket(t) && Whole(fs, Hold, t) && FrontLine(fs[QueueFile]) == t && a.files == Moved(fs, Hold, Release))
  {
  }

  lemma ConsumeLeaves(fs: Files, env: Env)
    ensures var c := ConsumeHistory(fs, env);
      && (c.files == fs || (Receipt in fs && c.files == Moved(fs, Receipt, PreviousReceipt)))
      && (c.up ==> Receipt !in c.files)
  {
  }

  /** `reserve` may move the last receipt aside, and then may write a hold for the front ticket. */
  lemma ReserveLeaves(fs: Files, t: string, env: Env)
    requires QueueFile in fs && ValidState(fs[QueueFile])
    ensures var a := ReserveFront(fs, t, fs[QueueFile], env);
      a.files == fs
      || (&& FrontLine(fs[QueueFile]) == t
          && var mid := if Receipt in fs then Moved(fs, Receipt, PreviousReceipt) else fs;
             a.files == mid
             || (Hold in a.files && IsPrefix(a.files[Hold], Mark(t)) && a.files == mid[Hold := a.files[Hold]]))
  {
    hide ConsumeHistory, Mark, ValidFrom, Claimed, FrontLine;
    ConsumeLeaves(fs, env);
    TornPrefix(Mark(t), if env(151).Torn? then env(151).kept else 0);
    var c := ConsumeHistory(fs, env);
    var c1 := c.Then(Write(Hold, Mark(t)), env(151));
    assert c1.files == c.files ||
           (c.up && Hold in c1.files && IsPrefix(c1.files[Hold], Mark(t)) && c1.files == c.files[Hold := c1.files[Hold]]);
    var c2 := c1.Then(Flush(Hold), env(152)).Then(Flush(Directory), env(153));
    assert c2.files == c1.files;
  }
}
