/** The queue directory and the file-system calls the FIFO makes on it.

  Every call has an outcome chosen by the environment. A killed process is one whose remaining calls never happen:
  because the component stops at the first call that does not answer well, the files it leaves are exactly those of
  a run in which the next call was refused, or took effect and lost its answer. */
module FifoStore {

  datatype File =
    | QueueFile
    | Pending
    | Intent
    | LastJournal
    | Hold
    | Release
    | SettledHold
    | Receipt
    | PreviousReceipt
    | Used(ticket: string)
    | Staged(ticket: string)
    | Directory

  type Files = map<File, string>

  /** Good: done and acknowledged. Lost: done, but the answer never arrived. Refused: not done. Torn: a write that
    left only the first `kept` characters. FalseMissing: a lookup that wrongly reports the file missing. */
  datatype Outcome = Good | Lost | Refused | Torn(kept: nat) | FalseMissing

  /** One outcome for every call site of an operation; no site is reached twice in one operation. */
  type Env = nat -> Outcome

  datatype Presence = Missing | Found | Unknown

  function Look(fs: Files, f: File, o: Outcome): Presence {
    if o != Good then Unknown else if f in fs then Found else Missing
  }

  predicate Ascii(s: string) {
    forall i :: 0 <= i < |s| ==> s[i] == '\n' || ' ' <= s[i] <= '~'
  }

  /** `rq-read-bounded`: the whole text of a nonempty ASCII file within the bound, and "" for anything else. */
  function Read(fs: Files, f: File, maximum: nat, o: Outcome): string {
    if o == Good && f in fs && 1 <= |fs[f]| <= maximum && Ascii(fs[f]) then fs[f] else ""
  }

  datatype Call =
    | Write(f: File, text: string)
    | Flush(f: File)
    | Replace(source: File, target: File)
    | Publish(source: File, target: File)
    | Holds(f: File, maximum: nat, text: string)
    | Lacks(f: File)

  function Moved(fs: Files, source: File, target: File): Files
    requires source in fs
  {
    fs[target := fs[source]] - {source}
  }

  function Prefix(text: string, n: nat): string {
    if n < |text| then text[..n] else text
  }

  function Effect(fs: Files, c: Call, o: Outcome): Files {
    match c
    case Write(f, text) =>
      if o == Good || o == Lost then fs[f := text]
      else if o.Torn? then fs[f := Prefix(text, o.kept)]
      else fs
    case Replace(source, target) =>
      if (o == Good || o == Lost) && source in fs && source != target then Moved(fs, source, target) else fs
    case Publish(source, target) =>
      if (o == Good || o == Lost) && source in fs && target !in fs then Moved(fs, source, target) else fs
    case _ => fs
  }

  predicate Acknowledged(fs: Files, c: Call, o: Outcome) {
    o == Good &&
    match c
    case Write(_, _) => true
    case Flush(f) => f == Directory || f in fs
    case Replace(source, target) => source in fs && source != target
    case Publish(source, target) => source in fs && target !in fs
    case Holds(f, maximum, text) => Read(fs, f, maximum, o) == text
    case Lacks(f) => f !in fs
  }

  /** A chain of calls joined by `and`: the first one not acknowledged ends it. */
  datatype Chain = Chain(files: Files, up: bool) {
    function Then(c: Call, o: Outcome): Chain {
      if up then Chain(Effect(files, c, o), Acknowledged(files, c, o)) else this
    }

    function Only(condition: bool): Chain {
      Chain(files, up && condition)
    }
  }

  function Begin(fs: Files): Chain {
    Chain(fs, true)
  }

  ghost predicate Same(a: Files, b: Files, except: set<File>) {
    forall f :: f !in except ==> (f in a <==> f in b) && (f in a ==> a[f] == b[f])
  }

  ghost predicate IsPrefix(part: string, text: string) {
    |part| <= |text| && part == text[..|part|]
  }

  /** What the outcomes mean. A refused call changes nothing; one that lost its answer did everything; one that was
    acknowledged did it and said so; a torn write leaves the first characters and says nothing. */
  lemma CallMeans(fs: Files, c: Call, o: Outcome)
    ensures Effect(fs, c, Refused) == fs && Effect(fs, c, Lost) == Effect(fs, c, Good)
    ensures Acknowledged(fs, c, o) ==> o == Good
    ensures c.Flush? || c.Holds? || c.Lacks? ==> Effect(fs, c, o) == fs
    ensures var after := Effect(fs, c, o);
      match c
      case Write(f, text) =>
        && Same(fs, after, {f})
        && (o == Good ==> Acknowledged(fs, c, o) && f in after && after[f] == text)
        && (o.Torn? ==> f in after && after[f] == if o.kept < |text| then text[..o.kept] else text)
      case Replace(source, target) =>
        && Same(fs, after, {source, target})
        && (Acknowledged(fs, c, o) ==> source in fs && source !in after && target in after && after[target] == fs[source])
      case Publish(source, target) =>
        && Same(fs, after, {source, target})
        && (target in fs ==> after == fs)
        && (Acknowledged(fs, c, o) ==>
              source in fs && target !in fs && source !in after && target in after && after[target] == fs[source])
      case Flush(f) => Acknowledged(fs, c, o) ==> f == Directory || f in fs
      case Holds(f, maximum, text) => Acknowledged(fs, c, o) && text != "" ==> f in fs && fs[f] == text
      case Lacks(f) => Acknowledged(fs, c, o) <==> o == Good && f !in fs
  {
  }
}
