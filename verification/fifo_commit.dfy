/** What a queue commit can leave behind. */
module FifoCommit {
  import opened FifoText
  import opened FifoStore
  import opened Fifo

  /** The commit stopped before the rename: the queue is the old one; the journal may be torn, and if anything was
    written aside the journal is whole. */
  ghost predicate Journalled(before: Files, after: Files, original: string, next: string) {
    && Same(before, after, {Intent, Pending})
    && Intent in after && IsPrefix(after[Intent], Journal(original, next))
    && (Pending in after ==> after[Intent] == Journal(original, next) && IsPrefix(after[Pending], next))
  }

  /** The commit stopped between the rename and the archiving of its journal. */
  ghost predicate Renamed(before: Files, after: Files, original: string, next: string) {
    && Same(before, after, {Intent, QueueFile})
    && QueueFile in after && after[QueueFile] == next
    && Intent in after && after[Intent] == Journal(original, next)
  }

  /** The commit finished, whether or not its last sync was acknowledged. */
  ghost predicate Committed(before: Files, after: Files, original: string, next: string) {
    && Same(before, after, {LastJournal, QueueFile})
    && QueueFile in after && after[QueueFile] == next
    && LastJournal in after && after[LastJournal] == Journal(original, next)
  }

  /** The four ways a commit can leave the files. */
  ghost predicate CommitShape(before: Files, after: Files, original: string, next: string) {
    || after == before
    || (&& Intent !in before && Pending !in before
        && (|| Journalled(before, after, original, next)
            || Renamed(before, after, original, next)
            || Committed(before, after, original, next)))
  }

  lemma TornPrefix(text: string, n: nat)
    ensures IsPrefix(Prefix(text, n), text) && IsPrefix(text, text)
  {
  }

  lemma IntentWritten(fs: Files, original: string, next: string, o: Outcome)
    ensures var after := Effect(fs, Write(Intent, Journal(original, next)), o);
      after == fs || Journalled(fs, after, original, next) || Pending in fs
  {
    TornPrefix(Journal(original, next), if o.Torn? then o.kept else 0);
  }

  lemma PendingWritten(fs: Files, original: string, next: string, o: Outcome)
    ensures var after := Effect(fs[Intent := Journal(original, next)], Write(Pending, next), o);
      Pending in fs || Journalled(fs, after, original, next)
  {
    TornPrefix(Journal(original, next), 0);
    TornPrefix(next, if o.Torn? then o.kept else 0);
  }

  /** Lookups, the journal and its syncs: the first five calls of a commit. */
  ghost function OpenIntent(fs: Files, original: string, next: string, env: Env): Chain {
    Begin(fs)
      .Then(Lacks(Intent), env(60))
      .Then(Lacks(Pending), env(61))
      .Then(Write(Intent, Journal(original, next)), env(62))
      .Then(Flush(Intent), env(63))
      .Then(Flush(Directory), env(64))
  }

  lemma OpenIntentLeaves(fs: Files, original: string, next: string, env: Env)
    ensures var c := OpenIntent(fs, original, next, env);
      && (c.files == fs || (Intent !in fs && Pending !in fs && Journalled(fs, c.files, original, next)))
      && (c.up ==> Intent !in fs && Pending !in fs && c.files == fs[Intent := Journal(original, next)])
  {
    hide Journal, Journalled, Read;
    IntentWritten(fs, original, next, env(62));
    var c0 := Begin(fs).Then(Lacks(Intent), env(60)).Then(Lacks(Pending), env(61));
    assert c0.files == fs && (c0.up ==> Intent !in fs && Pending !in fs);
    var c1 := c0.Then(Write(Intent, Journal(original, next)), env(62));
    TwoSyncs(c1, Intent, Directory, env(63), env(64));
  }

  /** Syncs leave every file as it is. */
  lemma TwoSyncs(c: Chain, f: File, g: File, o1: Outcome, o2: Outcome)
    ensures var after := c.Then(Flush(f), o1).Then(Flush(g), o2);
      after.files == c.files && (after.up ==> c.up)
  {
  }

  lemma PrepareLeaves(fs: Files, original: string, next: string, env: Env)
    ensures var c := Prepare(fs, original, next, env);
      && (c.files == fs ||
          (Intent !in fs && Pending !in fs && Journalled(fs, c.files, original, next)))
      && (c.up ==> Intent !in fs && Pending !in fs &&
                   c.files == fs[Intent := Journal(original, next)][Pending := next])
  {
    hide OpenIntent, Journal, Journalled, Read;
    OpenIntentLeaves(fs, original, next, env);
    PendingWritten(fs, original, next, env(65));
    var c := OpenIntent(fs, original, next, env);
    var c1 := c.Then(Write(Pending, next), env(65));
    var c2 := c1.Then(Flush(Pending), env(66)).Then(Holds(Pending, 4165, next), env(67));
    assert c2.files == c1.files && (c2.up ==> c1.up);
    var c3 := c2.Then(Holds(QueueFile, 4165, original), env(68));
    assert c3.files == c2.files && (c3.up ==> c2.up);
    PrepareParts(fs, original, next, env);
  }

  lemma PrepareParts(fs: Files, original: string, next: string, env: Env)
    ensures Prepare(fs, original, next, env)
            == OpenIntent(fs, original, next, env)
                 .Then(Write(Pending, next), env(65))
                 .Then(Flush(Pending), env(66))
                 .Then(Holds(Pending, 4165, next), env(67))
                 .Then(Holds(QueueFile, 4165, original), env(68))
  {
    hide Journal, Effect, Acknowledged;
  }

  lemma RenameStep(fs: Files, original: string, next: string)
    requires Pending !in fs
    ensures Renamed(fs, Moved(fs[Intent := Journal(original, next)][Pending := next], Pending, QueueFile), original, next)
  {
  }

  lemma ArchiveStep(fs: Files, after: Files, original: string, next: string)
    requires Intent !in fs && Renamed(fs, after, original, next)
    ensures Committed(fs, Moved(after, Intent, LastJournal), original, next)
  {
  }

  /** Whatever the file system does to a commit, and wherever it is killed, it leaves exactly the old or the new
    queue, an open journal unless it never started or finished, and no other file touched. */
  lemma CommitLeaves(fs: Files, original: string, next: string, env: Env)
    ensures var c := Commit(fs, original, next, env);
      && CommitShape(fs, c.files, original, next)
      && (c.up ==> Intent !in fs && Pending !in fs && Committed(fs, c.files, original, next))
  {
    hide Prepare, Journal, Read;
    PrepareLeaves(fs, original, next, env);
    var c := Prepare(fs, original, next, env);
    if c.up {
      RenameStep(fs, original, next);
      var c1 := c.Then(Replace(Pending, QueueFile), env(69));
      assert c1.files == c.files || c1.files == Moved(c.files, Pending, QueueFile);
      var c2 := c1.Then(Flush(Directory), env(70));
      assert c2.files == c1.files && (c2.up ==> Renamed(fs, c2.files, original, next));
      if c2.up {
        ArchiveStep(fs, c2.files, original, next);
      }
      var c3 := c2.Then(Replace(Intent, LastJournal), env(71));
      assert c3.files == c2.files || Committed(fs, c3.files, original, next);
      assert Commit(fs, original, next, env) == c3.Then(Flush(Directory), env(72));
    }
  }
}
