/** The queue directory as the component drives it: an object whose files change one call at a time. Every method is
  proved to leave exactly the files, and give exactly the answer, of the operation it carries out. */
module FifoDirectory {
  import opened FifoText
  import opened FifoStore
  import Fifo
  import opened FifoLog

  /** What an invocation prints. */
  datatype Output = Busy | UnlockUnknown | Said(reply: Fifo.Reply)

  /** Taken, the lock lets nothing run; not let go, it hides the answer of what ran. */
  function Printed(run: seq<Invocation>, i: nat, unlocked: bool): Output
    requires i < |run|
  {
    if run[i].busy then Busy
    else if !unlocked then UnlockUnknown
    else Said(Fifo.Apply(Run(run[..i]).files, run[i].op, run[i].ticket, run[i].env).reply)
  }

  class QueueDirectory {
    var files: Files

    constructor ()
      ensures files == FRESH.files
    {
      files := FRESH.files;
    }

    /** One file-system call: what it does, and whether the component reads the answer as success. */
    method Do(c: Call, o: Outcome) returns (ok: bool)
      modifies this
      ensures files == Effect(old(files), c, o) && ok == Acknowledged(old(files), c, o)
    {
      ok := Acknowledged(files, c, o);
      match c
      case Write(f, text) =>
        if o == Good || o == Lost {
          files := files[f := text];
        } else if o.Torn? {
          files := files[f := Prefix(text, o.kept)];
        }
      case Replace(source, target) =>
        if (o == Good || o == Lost) && source in files && source != target {
          files := Moved(files, source, target);
        }
      case Publish(source, target) =>
        if (o == Good || o == Lost) && source in files && target !in files {
          files := Moved(files, source, target);
        }
      case _ =>
    }

    /** The next call of an `and` chain. */
    method And(up: bool, c: Call, o: Outcome) returns (ok: bool)
      modifies this
      ensures Chain(files, ok) == Chain(old(files), up).Then(c, o)
    {
      ok := up;
      if up {
        ok := Do(c, o);
      }
    }

    method Stage(ticket: string, env: Env) returns (ok: bool)
      modifies this
      ensures Chain(files, ok) == Fifo.StageClaim(old(files), ticket, env)
    {
      hide Effect, Acknowledged, Claim;
      ok := And(true, Write(Staged(ticket), Claim(ticket)), env(41));
      ok := And(ok, Flush(Staged(ticket)), env(42));
      ok := And(ok, Holds(Staged(ticket), 70, Claim(ticket)), env(43));
    }

    method ClaimTicket(ticket: string, env: Env) returns (refusal: seq<Fifo.Reply>)
      modifies this
      ensures Fifo.ClaimAnswer(files, refusal) == Fifo.ClaimTicket(old(files), ticket, env)
    {
      hide Effect, Acknowledged, Claim, Fifo.StageClaim;
      var found := if env(40) == FalseMissing then Missing else Look(files, Used(ticket), env(40));
      if found == Found {
        return [Fifo.TicketUsed];
      }
      if found == Unknown {
        return [Fifo.TicketUnknown];
      }
      var ok := Stage(ticket, env);
      ok := And(ok, Publish(Staged(ticket), Used(ticket)), env(44));
      ok := And(ok, Flush(Used(ticket)), env(45));
      ok := And(ok, Holds(Used(ticket), 70, Claim(ticket)), env(46));
      ok := And(ok, Flush(Directory), env(47));
      refusal := if ok then [] else [Fifo.TicketUnknown];
    }

    method ConsumeHistory(env: Env) returns (ok: bool)
      modifies this
      ensures Chain(files, ok) == Fifo.ConsumeHistory(old(files), env)
    {
      hide Effect, Acknowledged, Fifo.HistoryClear;
      var status := Look(files, Receipt, env(20));
      ok := Fifo.HistoryClear(files, env, 21) && status != Unknown;
      if ok && status == Found {
        ok := And(ok, Replace(Receipt, PreviousReceipt), env(29));
        ok := And(ok, Flush(Directory), env(30));
      }
    }

    method Prepare(original: string, next: string, env: Env) returns (ok: bool)
      modifies this
      ensures Chain(files, ok) == Fifo.Prepare(old(files), original, next, env)
    {
      hide Effect, Acknowledged, Journal;
      ok := And(true, Lacks(Intent), env(60));
      ok := And(ok, Lacks(Pending), env(61));
      ok := And(ok, Write(Intent, Journal(original, next)), env(62));
      ok := And(ok, Flush(Intent), env(63));
      ok := And(ok, Flush(Directory), env(64));
      ok := And(ok, Write(Pending, next), env(65));
      ok := And(ok, Flush(Pending), env(66));
      ok := And(ok, Holds(Pending, 4165, next), env(67));
      ok := And(ok, Holds(QueueFile, 4165, original), env(68));
    }

    method Commit(original: string, next: string, env: Env) returns (ok: bool)
      modifies this
      ensures Chain(files, ok) == Fifo.Commit(old(files), original, next, env)
    {
      hide Effect, Acknowledged, Fifo.Prepare;
      ok := Prepare(original, next, env);
      ok := And(ok, Replace(Pending, QueueFile), env(69));
      ok := And(ok, Flush(Directory), env(70));
      ok := And(ok, Replace(Intent, LastJournal), env(71));
      ok := And(ok, Flush(Directory), env(72));
    }

    method RecoverQueue(state: string, pending: Presence, intent: Presence, env: Env) returns (reply: Fifo.Reply)
      modifies this
      ensures Fifo.Answer(files, reply) == Fifo.RecoverQueue(old(files), state, pending, intent, env)
    {
      hide Effect, Acknowledged, ValidJournal, JournalOld, JournalNext;
      var journal := if intent == Found then Read(files, Intent, 8340, env(80)) else "";
      var prior, next := JournalOld(journal), JournalNext(journal);
      if pending != Missing {
        return Fifo.RecoveryUnresolved;
      }
      if intent != Found {
        return if intent == Missing then Fifo.NoIntent else Fifo.RecoveryUnresolved;
      }
      if !ValidJournal(journal) {
        return Fifo.JournalInvalid;
      }
      if state != next && state != prior {
        return Fifo.RecoveryUnresolved;
      }
      var ok := And(true, Flush(QueueFile), env(81));
      ok := And(ok, Flush(Intent), env(82));
      ok := And(ok, Flush(Directory), env(83));
      ok := And(ok, Replace(Intent, LastJournal), env(84));
      ok := And(ok, Flush(Directory), env(85));
      reply := if !ok then Fifo.RecoveryUnknown else if state == next then Fifo.Recovered else Fifo.Aborted;
    }

    method SettleEvidence(state: string, ticket: string, pending: Presence, intent: Presence, env: Env)
      returns (ok: bool)
      requires |state| >= 5
      modifies this
      ensures Chain(files, ok) == Fifo.SettleEvidence(old(files), state, ticket, pending, intent, env)
    {
      hide Effect, Acknowledged, Mark, Fifo.DequeueRecord, IsTicket, Fifo.Claimed;
      ok := && IsTicket(ticket) && Fifo.Claimed(files, ticket, env(101)) && pending == Missing && intent == Missing
            && Look(files, SettledHold, env(102)) == Found;
      ok := And(ok, Holds(SettledHold, 70, Mark(ticket)), env(103));
      ok := ok && IndexOf(state, Line(ticket)) < 0;
      ok := And(ok, Holds(LastJournal, 8340, Fifo.DequeueRecord(ticket, state)), env(104));
      ok := And(ok, Flush(QueueFile), env(105));
      ok := And(ok, Flush(LastJournal), env(106));
      ok := And(ok, Flush(SettledHold), env(107));
      ok := And(ok, Flush(Directory), env(108));
    }

    method RecoverSettle(state: string, ticket: string, pending: Presence, intent: Presence, env: Env)
      returns (reply: Fifo.Reply)
      requires |state| >= 5
      modifies this
      ensures Fifo.Answer(files, reply) == Fifo.RecoverSettle(old(files), state, ticket, pending, intent, env)
    {
      hide Effect, Acknowledged, Mark, Fifo.SettleEvidence;
      var receipt := Look(files, Receipt, env(100));
      var ok := SettleEvidence(state, ticket, pending, intent, env);
      ok := ok && receipt != Unknown;
      ok := And(ok, if receipt == Missing then Write(Receipt, Mark(ticket)) else Holds(Receipt, 70, Mark(ticket)),
                env(109));
      ok := And(ok, Flush(Receipt), env(110));
      ok := And(ok, Flush(Directory), env(111));
      reply := if ok then Fifo.Settled else Fifo.ReservationUnknown;
    }

    method SettleReleased(state: string, ticket: string, pending: Presence, intent: Presence, env: Env)
      returns (reply: Fifo.Reply)
      requires |state| >= 5
      modifies this
      ensures Fifo.Answer(files, reply) == Fifo.SettleReleased(old(files), state, ticket, pending, intent, env)
    {
      hide Effect, Acknowledged, Mark, Fifo.DequeueRecord, Fifo.RecoverSettle;
      var ok := And(IndexOf(state, Line(ticket)) < 0, Holds(LastJournal, 8340, Fifo.DequeueRecord(ticket, state)),
                    env(120));
      ok := And(ok, Flush(QueueFile), env(121));
      ok := And(ok, Flush(LastJournal), env(122));
      ok := And(ok, Flush(Release), env(123));
      ok := And(ok, Flush(Directory), env(124));
      ok := And(ok, Lacks(Receipt), env(125));
      ok := And(ok, Replace(Release, SettledHold), env(126));
      ok := And(ok, Flush(Directory), env(127));
      reply := Fifo.ReservationUnknown;
      if ok {
        reply := RecoverSettle(state, ticket, pending, intent, env);
      }
    }

    method RemoveFront(state: string, ticket: string, env: Env) returns (reply: Fifo.Reply)
      modifies this
      ensures Fifo.Answer(files, reply) == Fifo.RemoveFront(old(files), state, ticket, env)
    {
      hide Fifo.Commit;
      if state == "RGQ5\n" {
        return Fifo.Empty;
      }
      if Fifo.FrontLine(state) != ticket {
        return Fifo.NotFront;
      }
      var ok := Commit(state, Fifo.AfterFront(state), env);
      reply := if ok then Fifo.Dequeued else Fifo.WriteUnknown;
    }

    method WhileReleased(op: Fifo.Op, ticket: string, state: string, pending: Presence, intent: Presence, env: Env)
      returns (reply: Fifo.Reply)
      requires ValidState(state)
      modifies this
      ensures Fifo.Answer(files, reply) == Fifo.WhileReleased(old(files), op, ticket, state, pending, intent, env)
    {
      hide Fifo.RecoverQueue, Fifo.RemoveFront, Fifo.SettleReleased, IsTicket, Mark, ValidFrom, Fifo.Claimed;
      if op == Fifo.Recover {
        reply := RecoverQueue(state, pending, intent, env);
      } else if op != Fifo.Dequeue && op != Fifo.Settle {
        reply := if op == Fifo.DoRelease then Fifo.ReservationUnknown else Fifo.ReleasePending;
      } else if !IsTicket(ticket) {
        reply := Fifo.TicketInvalid;
      } else if !Fifo.Claimed(files, ticket, env(130)) {
        reply := Fifo.TicketUnknown;
      } else if Read(files, Release, 70, env(131)) != Mark(ticket) {
        reply := Fifo.ReservationUnknown;
      } else if pending != Missing || intent != Missing {
        reply := Fifo.PendingUnknown;
      } else if op == Fifo.Dequeue {
        reply := RemoveFront(state, ticket, env);
      } else {
        reply := SettleReleased(state, ticket, pending, intent, env);
      }
    }

    method ReleaseHold(ticket: string, state: string, hold: Presence, pending: Presence, intent: Presence, env: Env)
      returns (reply: Fifo.Reply)
      requires ValidState(state)
      modifies this
      ensures Fifo.Answer(files, reply) == Fifo.ReleaseHold(old(files), ticket, state, hold, pending, intent, env)
    {
      hide Effect, Acknowledged, Mark, IsTicket, ValidFrom, Fifo.Claimed;
      if !IsTicket(ticket) {
        return Fifo.TicketInvalid;
      }
      if hold != Found {
        return Fifo.ReservationUnknown;
      }
      if !Fifo.Claimed(files, ticket, env(140)) {
        return Fifo.TicketUnknown;
      }
      if Read(files, Hold, 70, env(141)) != Mark(ticket) || Fifo.FrontLine(state) != ticket {
        return Fifo.ReservationUnknown;
      }
      if pending != Missing || intent != Missing {
        return Fifo.PendingUnknown;
      }
      var ok := And(true, Flush(Hold), env(142));
      ok := And(ok, Replace(Hold, Release), env(143));
      ok := And(ok, Flush(Directory), env(144));
      reply := if ok then Fifo.ReleasePending else Fifo.ReservationUnknown;
    }

    method ReserveFront(ticket: string, state: string, env: Env) returns (reply: Fifo.Reply)
      requires ValidState(state)
      modifies this
      ensures Fifo.Answer(files, reply) == Fifo.ReserveFront(old(files), ticket, state, env)
    {
      hide Effect, Acknowledged, Mark, ValidFrom, Fifo.Claimed, Fifo.ConsumeHistory;
      if state == "RGQ5\n" {
        return Fifo.Empty;
      }
      if Fifo.FrontLine(state) != ticket {
        return Fifo.NotFront;
      }
      if !Fifo.Claimed(files, ticket, env(150)) {
        return Fifo.TicketUnknown;
      }
      var ok := ConsumeHistory(env);
      ok := And(ok, Write(Hold, Mark(ticket)), env(151));
      ok := And(ok, Flush(Hold), env(152));
      ok := And(ok, Flush(Directory), env(153));
      reply := if ok then Fifo.Reserved else Fifo.ReservationUnknown;
    }

    method EnqueueTicket(ticket: string, state: string, env: Env) returns (reply: Fifo.Reply)
      modifies this
      ensures Fifo.Answer(files, reply) == Fifo.EnqueueTicket(old(files), ticket, state, env)
    {
      hide Fifo.Commit, Fifo.ClaimTicket;
      if IndexOf(state, Line(ticket)) >= 0 {
        return Fifo.AlreadyQueued;
      }
      if |state| >= 4165 {
        return Fifo.Full;
      }
      var refusal := ClaimTicket(ticket, env);
      if refusal != [] {
        return refusal[0];
      }
      var ok := Commit(state, state + Line(ticket), env);
      reply := if ok then Fifo.Enqueued else Fifo.WriteUnknown;
    }

    method CancelTicket(ticket: string, state: string, env: Env) returns (reply: Fifo.Reply)
      requires ValidState(state)
      modifies this
      ensures Fifo.Answer(files, reply) == Fifo.CancelTicket(old(files), ticket, state, env)
    {
      hide Fifo.Commit, ValidFrom;
      var i := IndexOf(state, Line(ticket));
      if i < 0 {
        return Fifo.NotQueued;
      }
      if i == 5 {
        return Fifo.CancelFrontRefused;
      }
      var ok := Commit(state, Fifo.WithoutLine(state, i), env);
      reply := if ok then Fifo.Cancelled else Fifo.WriteUnknown;
    }

    method WhileIdle(op: Fifo.Op, ticket: string, state: string, pending: Presence, intent: Presence, env: Env)
      returns (reply: Fifo.Reply)
      requires ValidState(state)
      modifies this
      ensures Fifo.Answer(files, reply) == Fifo.WhileIdle(old(files), op, ticket, state, pending, intent, env)
    {
      hide Fifo.RecoverQueue, Fifo.ReserveFront, Fifo.EnqueueTicket, Fifo.CancelTicket, IsTicket, ValidFrom;
      if op == Fifo.Recover {
        reply := RecoverQueue(state, pending, intent, env);
      } else if pending != Missing || intent != Missing {
        reply := Fifo.PendingUnknown;
      } else if op == Fifo.Front {
        reply := if state == "RGQ5\n" then Fifo.Empty else Fifo.FrontIs(Fifo.FrontLine(state));
      } else if !IsTicket(ticket) {
        reply := Fifo.TicketInvalid;
      } else if op == Fifo.Reserve {
        reply := ReserveFront(ticket, state, env);
      } else if op == Fifo.Enqueue {
        reply := EnqueueTicket(ticket, state, env);
      } else if op == Fifo.Dequeue {
        reply := if state == "RGQ5\n" then Fifo.Empty
                 else if Fifo.FrontLine(state) != ticket then Fifo.NotFront
                 else Fifo.ReleaseRequired;
      } else if op == Fifo.Cancel {
        reply := CancelTicket(ticket, state, env);
      } else {
        reply := Fifo.CommandInvalid;
      }
    }

    method Dispatch(op: Fifo.Op, ticket: string, state: string, hold: Presence, release: Presence,
                    pending: Presence, intent: Presence, env: Env) returns (reply: Fifo.Reply)
      requires ValidState(state)
      modifies this
      ensures Fifo.Answer(files, reply)
              == Fifo.Dispatch(old(files), op, ticket, state, hold, release, pending, intent, env)
    {
      hide Fifo.InspectTicket, Fifo.RecoverSettle, Fifo.WhileReleased, Fifo.ReleaseHold, Fifo.HistoryClear;
      hide Fifo.WhileIdle, ValidFrom;
      if op == Fifo.Inspect {
        reply := Fifo.InspectTicket(files, ticket, state, hold, release, pending, intent, env);
      } else if op == Fifo.SettleRecover {
        reply := Fifo.ReservationUnknown;
        if hold == Missing && release == Missing {
          reply := RecoverSettle(state, ticket, pending, intent, env);
        }
      } else if release == Found {
        reply := WhileReleased(op, ticket, state, pending, intent, env);
      } else if op == Fifo.DoRelease {
        reply := ReleaseHold(ticket, state, hold, pending, intent, env);
      } else if hold == Found {
        reply := Fifo.ReservationHeld;
      } else if !Fifo.HistoryClear(files, env, 10) {
        reply := Fifo.ReservationUnknown;
      } else {
        reply := WhileIdle(op, ticket, state, pending, intent, env);
      }
    }

    /** One whole operation under the queue lock. */
    method Apply(op: Fifo.Op, ticket: string, env: Env) returns (reply: Fifo.Reply)
      modifies this
      ensures Fifo.Answer(files, reply) == Fifo.Apply(old(files), op, ticket, env)
    {
      hide Fifo.Dispatch, ValidFrom;
      var hold, release := Look(files, Hold, env(0)), Look(files, Release, env(1));
      var present := Look(files, QueueFile, env(2));
      var pending, intent := Look(files, Pending, env(3)), Look(files, Intent, env(4));
      var state := if present == Found then Read(files, QueueFile, 4165, env(5)) else "";
      if present != Found || !ValidState(state) {
        return Fifo.StateInvalid;
      }
      if hold == Unknown || release == Unknown || (hold == Found && release == Found) {
        return Fifo.ReservationUnknown;
      }
      reply := Dispatch(op, ticket, state, hold, release, pending, intent, env);
    }

    /** Any sequence of invocations, each finding the lock taken or not, and letting it go well or not: the files of the
      run, and what each of them prints. */
    method Serve(run: seq<Invocation>, unlocks: seq<bool>) returns (printed: seq<Output>)
      requires files == FRESH.files && |unlocks| == |run|
      modifies this
      ensures files == Run(run).files
      ensures |printed| == |run| && forall i :: 0 <= i < |run| ==> printed[i] == Printed(run, i, unlocks[i])
    {
      hide Fifo.Apply, Run, Step;
      printed := [];
      EmptyRun();
      for i := 0 to |run|
        invariant files == Run(run[..i]).files
        invariant |printed| == i && forall k :: 0 <= k < i ==> printed[k] == Printed(run, k, unlocks[k])
      {
        assert run[..i + 1] == run[..i] + [run[i]];
        RunSnoc(run[..i], run[i]);
        if run[i].busy {
          printed := printed + [Busy];
        } else {
          var reply := Apply(run[i].op, run[i].ticket, run[i].env);
          printed := printed + [if unlocks[i] then Said(reply) else UnlockUnknown];
        }
      }
      assert run[..|run|] == run;
    }
  }
}
