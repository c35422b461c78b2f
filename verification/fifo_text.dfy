/** The texts the local resource FIFO keeps in its files, and the string tests it runs on them.

  A queue file is `RGQ5` and one line per waiting ticket; a journal is `RGI1`, the queue text before a change,
  `NEXT`, and the queue text after it. The component never parses these texts into lists: it slices and searches
  strings. The lemmas here say what those slices and searches mean for the list of tickets. */
module FifoText {

  // ---- the component's own string tests ----

  predicate Hex(c: char) {
    '0' <= c <= '9' || 'a' <= c <= 'f'
  }

  predicate IsTicket(s: string) {
    |s| == 64 && forall i :: 0 <= i < 64 ==> Hex(s[i])
  }

  ghost predicate OccursAt(s: string, p: string, i: int) {
    0 <= i && i + |p| <= |s| && s[i..i + |p|] == p
  }

  function IndexFrom(s: string, p: string, i: nat): (r: int)
    requires i <= |s|
    ensures r < 0 ==> forall j :: i <= j ==> !OccursAt(s, p, j)
    ensures r >= 0 ==> i <= r && OccursAt(s, p, r) && forall j :: i <= j < r ==> !OccursAt(s, p, j)
    decreases |s| - i
  {
    if i + |p| > |s| then -1
    else if s[i..i + |p|] == p then i
    else if i == |s| then -1
    else IndexFrom(s, p, i + 1)
  }

  /** First index of `p` in `s`, or a negative number. */
  function IndexOf(s: string, p: string): (r: int)
    ensures r < 0 <==> forall j :: !OccursAt(s, p, j)
    ensures r >= 0 ==> OccursAt(s, p, r) && forall j :: j < r ==> !OccursAt(s, p, j)
  {
    IndexFrom(s, p, 0)
  }

  function Line(ticket: string): string {
    ticket + "\n"
  }

  /** The loop of `rq-valid?`: every line is a ticket that does not occur again further down. */
  predicate ValidFrom(s: string, i: nat)
    requires i <= |s| && (|s| - i) % 65 == 0
    decreases |s| - i
  {
    i == |s| ||
    (var ticket := s[i..i + 64];
     && s[i + 64..i + 65] == "\n"
     && IsTicket(ticket)
     && IndexOf(s[i + 65..], Line(ticket)) < 0
     && ValidFrom(s, i + 65))
  }

  predicate ValidState(s: string) {
    5 <= |s| <= 4165 && s[..5] == "RGQ5\n" && (|s| - 5) % 65 == 0 && ValidFrom(s, 5)
  }

  /** The loop of `rq-removal?`: some 65-character line of `old`, cut out, leaves `next`. */
  predicate RemovalFrom(prior: string, next: string, i: nat)
    requires |prior| == |next| + 65
    decreases |prior| - i
  {
    i < |prior| &&
    ((i + 65 <= |prior| && next == prior[..i] + prior[i + 65..]) || RemovalFrom(prior, next, i + 65))
  }

  predicate IsRemoval(prior: string, next: string) {
    |prior| == |next| + 65 && RemovalFrom(prior, next, 5)
  }

  predicate IsTransition(prior: string, next: string) {
    && ValidState(prior) && ValidState(next)
    && ((|next| == |prior| + 65 && next[..|prior|] == prior) || IsRemoval(prior, next))
  }

  function Journal(prior: string, next: string): string {
    "RGI1\n" + prior + "NEXT\n" + next
  }

  /** How `rq-recover` cuts a journal: everything before the first `NEXT` line, and everything after it. */
  function JournalOld(journal: string): string {
    var cut := IndexOf(journal, "NEXT\n");
    if |journal| >= 5 && cut >= 5 then journal[5..cut] else ""
  }

  function JournalNext(journal: string): string {
    var cut := IndexOf(journal, "NEXT\n");
    if cut >= 5 then journal[cut + 5..] else ""
  }

  predicate ValidJournal(journal: string) {
    && 10 <= |journal| <= 8340
    && journal[..5] == "RGI1\n"
    && IsTransition(JournalOld(journal), JournalNext(journal))
  }

  /** Hold, release and receipt files all carry this text; a claim carries `Claim`. */
  function Mark(ticket: string): string {
    "RGH1\n" + ticket + "\n"
  }

  function Claim(ticket: string): string {
    "RGU1\n" + ticket + "\n"
  }

  /** `rq-hold-valid?` */
  predicate ValidMark(s: string) {
    |s| == 70 && s[..5] == "RGH1\n" && s[69..70] == "\n" && IsTicket(s[5..69])
  }

  // ---- what the texts mean ----

  function Lines(q: seq<string>): string {
    if q == [] then "" else Line(q[0]) + Lines(q[1..])
  }

  function Encode(q: seq<string>): string {
    "RGQ5\n" + Lines(q)
  }

  function Parse(body: string): seq<string>
    requires |body| % 65 == 0
  {
    if body == "" then [] else [body[..64]] + Parse(body[65..])
  }

  /** The waiting tickets of a queue text, front first. */
  function Decode(s: string): seq<string> {
    if |s| >= 5 && (|s| - 5) % 65 == 0 then Parse(s[5..]) else []
  }

  ghost predicate Tickets(q: seq<string>) {
    forall i :: 0 <= i < |q| ==> IsTicket(q[i])
  }

  ghost predicate Distinct(q: seq<string>) {
    forall i, j :: 0 <= i < j < |q| ==> q[i] != q[j]
  }

  /** The queues a valid queue file can hold: at most 64 tickets, none twice. */
  ghost predicate Queue(q: seq<string>) {
    |q| <= 64 && Tickets(q) && Distinct(q)
  }

  function Without(q: seq<string>, i: nat): seq<string>
    requires i < |q|
  {
    q[..i] + q[i + 1..]
  }

  // ---- lines ----

  lemma {:induction false} LinesLength(q: seq<string>)
    requires Tickets(q)
    ensures |Lines(q)| == 65 * |q|
  {
    if q != [] {
      LinesLength(q[1..]);
    }
  }

  lemma {:induction false} LineChars(q: seq<string>, n: nat)
    requires Tickets(q) && n < 65 * |q|
    ensures |Lines(q)| == 65 * |q|
    ensures Lines(q)[n] == if n % 65 == 64 then '\n' else q[n / 65][n % 65]
  {
    LinesLength(q);
    if n < 65 {
      assert Lines(q)[n] == Line(q[0])[n];
    } else {
      LineChars(q[1..], n - 65);
      assert Lines(q)[n] == Lines(q[1..])[n - 65];
      assert (n - 65) % 65 == n % 65 && (n - 65) / 65 == n / 65 - 1;
      assert q[1..][n / 65 - 1] == q[n / 65];
    }
  }

  lemma {:induction false} LinesConcat(a: seq<string>, b: seq<string>)
    ensures Lines(a + b) == Lines(a) + Lines(b)
  {
    if a == [] {
      assert a + b == b;
    } else {
      assert (a + b)[1..] == a[1..] + b;
      LinesConcat(a[1..], b);
    }
  }

  lemma SplitLines(q: seq<string>, i: nat)
    requires i < |q|
    ensures Lines(q) == Lines(q[..i]) + Line(q[i]) + Lines(q[i + 1..])
  {
    var rest := q[i..];
    assert q == q[..i] + rest;
    LinesConcat(q[..i], rest);
    assert rest[0] == q[i] && rest[1..] == q[i + 1..];
  }

  lemma OccursBehind(a: string, b: string, p: string, n: nat)
    ensures OccursAt(a + b, p, |a| + n) <==> OccursAt(b, p, n)
  {
    if n + |p| <= |b| {
      assert (a + b)[|a| + n..|a| + n + |p|] == b[n..n + |p|];
    }
  }

  lemma NewlineEndsLine(s: string, t: string, p: nat, e: nat)
    requires IsTicket(t) && OccursAt(s, Line(t), p) && p <= e < p + 65
    ensures s[e] == '\n' <==> e == p + 64
    ensures s[p..p + 64] == t
  {
    assert s[e] == s[p..p + 65][e - p] == Line(t)[e - p];
    assert s[p..p + 64] == s[p..p + 65][..64] == Line(t)[..64] == t;
  }

  lemma NoLineInHeader(b: string, t: string, p: nat)
    requires IsTicket(t) && OccursAt("RGQ5\n" + b, Line(t), p)
    ensures p >= 5
  {
    if p < 5 {
      NewlineEndsLine("RGQ5\n" + b, t, p, 4);
      assert false;
    }
  }

  lemma {:induction false} LineFound(q: seq<string>, j: nat)
    requires Tickets(q) && j < |q|
    ensures OccursAt(Lines(q), Line(q[j]), 65 * j)
  {
    if j == 0 {
      assert Lines(q)[0..65] == Line(q[0]);
    } else {
      LineFound(q[1..], j - 1);
      OccursBehind(Line(q[0]), Lines(q[1..]), Line(q[j]), 65 * (j - 1));
    }
  }

  lemma LineEnd(q: seq<string>, i: nat)
    requires Tickets(q) && i < |q|
    ensures |Lines(q)| == 65 * |q| && Lines(q)[65 * i + 64] == '\n' && Lines(q)[65 * i..65 * i + 64] == q[i]
  {
    LinesLength(q);
    LineFound(q, i);
    NewlineEndsLine(Lines(q), q[i], 65 * i, 65 * i + 64);
  }

  /** A ticket line can only be found where a line starts: hexadecimal digits never contain a newline. */
  lemma LineOccurs(q: seq<string>, t: string, p: nat)
    requires Tickets(q) && IsTicket(t) && OccursAt(Lines(q), Line(t), p)
    ensures p % 65 == 0 && p / 65 < |q| && q[p / 65] == t
  {
    LinesLength(q);
    var i := p / 65;
    LineEnd(q, i);
    NewlineEndsLine(Lines(q), t, p, 65 * i + 64);
  }

  lemma EncodeOccurs(q: seq<string>, t: string, p: nat)
    requires Tickets(q) && IsTicket(t)
    ensures OccursAt(Encode(q), Line(t), p) <==> p >= 5 && OccursAt(Lines(q), Line(t), p - 5)
  {
    if OccursAt(Encode(q), Line(t), p) {
      NoLineInHeader(Lines(q), t, p);
    }
    if p >= 5 {
      OccursBehind("RGQ5\n", Lines(q), Line(t), p - 5);
    }
  }

  /** Searching the queue text for a ticket line is looking the ticket up in the queue. */
  lemma FindTicket(q: seq<string>, t: string)
    requires Queue(q) && IsTicket(t)
    ensures IndexOf(Encode(q), Line(t)) < 0 <==> t !in q
    ensures forall i :: 0 <= i < |q| && q[i] == t ==> IndexOf(Encode(q), Line(t)) == 5 + 65 * i
  {
    var r := IndexOf(Encode(q), Line(t));
    if r >= 0 {
      EncodeOccurs(q, t, r);
      LineOccurs(q, t, r - 5);
    }
    forall i | 0 <= i < |q| && q[i] == t ensures r == 5 + 65 * i {
      LineFound(q, i);
      EncodeOccurs(q, t, 5 + 65 * i);
    }
  }

  // ---- the queue text and the queue ----

  lemma {:induction false} ParseLines(q: seq<string>)
    requires Tickets(q)
    ensures |Lines(q)| % 65 == 0 && Parse(Lines(q)) == q
  {
    LinesLength(q);
    if q != [] {
      ParseLines(q[1..]);
      assert Lines(q)[..64] == q[0];
      assert Lines(q)[65..] == Lines(q[1..]);
    }
  }

  lemma DecodeEncode(q: seq<string>)
    requires Tickets(q)
    ensures Decode(Encode(q)) == q
  {
    ParseLines(q);
    assert Encode(q)[5..] == Lines(q);
  }

  lemma NotFurtherDown(q: seq<string>, k: nat)
    requires Queue(q) && k < |q|
    ensures IndexOf(Lines(q[k + 1..]), Line(q[k])) < 0
  {
    var r := IndexOf(Lines(q[k + 1..]), Line(q[k]));
    if r >= 0 {
      LineOccurs(q[k + 1..], q[k], r);
      assert false;
    }
  }

  lemma {:induction false} LoopAccepts(q: seq<string>, k: nat)
    requires Queue(q) && k <= |q|
    ensures |Encode(q)| == 5 + 65 * |q|
    ensures ValidFrom(Encode(q), 5 + 65 * k)
    decreases |q| - k
  {
    LinesLength(q);
    if k < |q| {
      hide *;
      LoopAccepts(q, k + 1);
      LineAt(q, k);
      OneLine(Encode(q), 5 + 65 * k, q[k]);
    }
  }

  lemma LineAt(q: seq<string>, k: nat)
    requires Queue(q) && k < |q|
    ensures var s, i := Encode(q), 5 + 65 * k;
      && i + 65 <= |s| && (|s| - i) % 65 == 0 && IsTicket(q[k])
      && s[i..i + 64] == q[k] && s[i + 64..i + 65] == "\n" && IndexOf(s[i + 65..], Line(q[k])) < 0
  {
    hide IndexOf, Lines, IsTicket;
    LinesLength(q);
    NotFurtherDown(q, k);
    CutAt(q, k);
    assert |Encode(q)| - (5 + 65 * k) == 65 * (|q| - k);
    Stride(|q| - k);
  }

  lemma Stride(n: int)
    ensures 65 * n % 65 == 0
  {
  }

  /** One turn of the loop. */
  lemma OneLine(s: string, i: nat, t: string)
    requires i + 65 <= |s| && (|s| - i) % 65 == 0 && IsTicket(t)
    requires s[i..i + 64] == t && s[i + 64..i + 65] == "\n" && IndexOf(s[i + 65..], Line(t)) < 0
    requires ValidFrom(s, i + 65)
    ensures ValidFrom(s, i)
  {
    hide IndexOf, IsTicket;
  }

  lemma CutAt(q: seq<string>, k: nat)
    requires Tickets(q) && k < |q|
    ensures var s, n := Encode(q), 5 + 65 * k;
      |s| >= n + 65 && s[n..n + 64] == q[k] && s[n + 64..n + 65] == "\n" && s[n + 65..] == Lines(q[k + 1..])
  {
    hide Lines, IsTicket;
    var head := "RGQ5\n" + Lines(q[..k]);
    SplitLines(q, k);
    LinesLength(q[..k]);
    assert Tickets(q[..k]) && |q[k]| == 64 by { TicketLengths(q, k); }
    CutOut(head, q[k], Lines(q[k + 1..]));
    assert Encode(q) == head + Line(q[k]) + Lines(q[k + 1..]);
  }

  lemma TicketLengths(q: seq<string>, k: nat)
    requires Tickets(q) && k < |q|
    ensures Tickets(q[..k]) && |q[k]| == 64
  {
  }

  lemma CutOut(a: string, t: string, b: string)
    requires |t| == 64
    ensures var s := a + Line(t) + b;
      s[|a|..|a| + 64] == t && s[|a| + 64..|a| + 65] == "\n" && s[|a| + 65..] == b
  {
  }

  lemma NotListed(q: seq<string>, t: string)
    requires Tickets(q) && IndexOf(Lines(q), Line(t)) < 0
    ensures t !in q
  {
    forall j | 0 <= j < |q| ensures q[j] != t {
      LineFound(q, j);
    }
  }

  lemma AddFirst(t: string, rest: seq<string>)
    requires IsTicket(t) && Tickets(rest) && Distinct(rest) && t !in rest
    ensures Tickets([t] + rest) && Distinct([t] + rest) && Lines([t] + rest) == Line(t) + Lines(rest)
  {
    hide IsTicket;
    assert ([t] + rest)[1..] == rest;
  }

  lemma ParseFirst(body: string)
    requires |body| % 65 == 0 && body != ""
    ensures Parse(body) == [body[..64]] + Parse(body[65..])
  {
  }

  lemma CutFirst(body: string)
    requires |body| >= 65 && body[64..65] == "\n"
    ensures body == Line(body[..64]) + body[65..]
  {
    assert body == body[..64] + body[64..65] + body[65..];
  }

  lemma {:induction false} LoopParses(s: string, i: nat)
    requires i <= |s| && (|s| - i) % 65 == 0 && ValidFrom(s, i)
    ensures Tickets(Parse(s[i..])) && Distinct(Parse(s[i..])) && Lines(Parse(s[i..])) == s[i..]
    decreases |s| - i
  {
    hide Parse, Lines, IndexOf, IsTicket;
    if i < |s| {
      LoopParses(s, i + 65);
      var body := s[i..];
      assert body[..64] == s[i..i + 64] && body[64..65] == s[i + 64..i + 65] && body[65..] == s[i + 65..];
      ParseFirst(body);
      CutFirst(body);
      NotListed(Parse(body[65..]), body[..64]);
      AddFirst(body[..64], Parse(body[65..]));
    } else {
      NoBody(s[i..]);
    }
  }

  lemma NoBody(body: string)
    requires body == ""
    ensures Parse(body) == [] && Lines([]) == ""
  {
  }

  /** `rq-valid?` accepts exactly the texts of queues of at most 64 distinct tickets. */
  lemma ValidIffQueue(s: string)
    ensures ValidState(s) <==> Queue(Decode(s)) && s == Encode(Decode(s))
  {
    if ValidState(s) {
      LoopParses(s, 5);
      LinesLength(Decode(s));
    }
    if Queue(Decode(s)) && s == Encode(Decode(s)) {
      LoopAccepts(Decode(s), 0);
      LinesLength(Decode(s));
    }
  }

  lemma EncodeValid(q: seq<string>)
    requires Queue(q)
    ensures ValidState(Encode(q)) && |Encode(q)| == 5 + 65 * |q|
  {
    DecodeEncode(q);
    ValidIffQueue(Encode(q));
    LinesLength(q);
  }

  /** The slices the operations take of a queue text are the edits they intend on the queue. */
  lemma Slices(q: seq<string>, t: string)
    requires Queue(q) && IsTicket(t)
    ensures Encode(q) == "RGQ5\n" <==> q == []
    ensures q != [] ==> |Encode(q)| >= 70 && Encode(q)[5..69] == q[0] && "RGQ5\n" + Encode(q)[70..] == Encode(q[1..])
    ensures Encode(q) + Line(t) == Encode(q + [t])
    ensures "RGQ5\n" + Line(t) + Encode(q)[5..] == Encode([t] + q)
    ensures |Encode(q)| >= 4165 <==> |q| == 64
  {
    LinesLength(q);
    LinesConcat(q, [t]);
    assert [t][1..] == [];
    assert Lines([t]) == Line(t);
    LinesConcat([t], q);
    assert Encode(q)[5..] == Lines(q);
    if q != [] {
      assert Lines(q)[..64] == q[0];
      assert Encode(q)[5..69] == Lines(q)[..64];
      assert Encode(q)[70..] == Lines(q)[65..] == Lines(q[1..]);
    }
  }

  lemma WithoutQueue(q: seq<string>, i: nat)
    requires Queue(q) && i < |q|
    ensures Queue(Without(q, i)) && |Without(q, i)| == |q| - 1
  {
    var r := Without(q, i);
    forall j | 0 <= j < |r| ensures r[j] == q[if j < i then j else j + 1] {}
  }

  /** Cutting line `i` out of a queue text. */
  lemma CutLine(q: seq<string>, i: nat)
    requires Queue(q) && i < |q|
    ensures Queue(Without(q, i))
    ensures |Encode(q)| == 5 + 65 * |q|
    ensures Encode(q)[..5 + 65 * i] + Encode(q)[70 + 65 * i..] == Encode(Without(q, i))
  {
    WithoutQueue(q, i);
    LinesLength(q);
    LinesLength(q[..i]);
    LinesConcat(q[..i], q[i + 1..]);
    SplitLines(q, i);
    CutMiddle("RGQ5\n", Lines(q[..i]), Line(q[i]), Lines(q[i + 1..]));
  }

  lemma CutMiddle(head: string, a: string, line: string, b: string)
    ensures var s := head + (a + line + b); var n := |head| + |a|;
      s[..n] + s[n + |line|..] == head + (a + b)
  {
  }

  // ---- journals ----

  lemma {:induction false} NoN(q: seq<string>, n: nat)
    requires Tickets(q) && n < |Encode(q)|
    ensures Encode(q)[n] != 'N'
  {
    LinesLength(q);
    if n >= 5 {
      LineChars(q, n - 5);
    }
  }

  lemma NoEarlierNext(a: seq<string>, next: string, i: nat)
    requires Queue(a) && i < 5 + |Encode(a)|
    ensures !OccursAt(Journal(Encode(a), next), "NEXT\n", i)
  {
    var j := Journal(Encode(a), next);
    if OccursAt(j, "NEXT\n", i) {
      assert j[i] == j[i..i + 5][0] == 'N';
      if i >= 5 {
        assert j[i] == Encode(a)[i - 5];
        NoN(a, i - 5);
      }
      assert false;
    }
  }

  /** A journal text decodes to the one pair of queue texts it was written from. */
  lemma JournalDecodes(a: seq<string>, next: string)
    requires Queue(a)
    ensures JournalOld(Journal(Encode(a), next)) == Encode(a)
    ensures JournalNext(Journal(Encode(a), next)) == next
    ensures IndexOf(Journal(Encode(a), next), "NEXT\n") == 5 + |Encode(a)|
  {
    var j, cut := Journal(Encode(a), next), 5 + |Encode(a)|;
    assert j[cut..cut + 5] == "NEXT\n";
    assert OccursAt(j, "NEXT\n", cut);
    var r := IndexOf(j, "NEXT\n");
    if 0 <= r < cut {
      NoEarlierNext(a, next, r);
    }
    assert r == cut;
    assert j[5..cut] == Encode(a);
    assert j[cut + 5..] == next;
  }

  lemma {:induction false} RemovalFinds(prior: string, next: string, i: nat) returns (k: nat)
    requires |prior| == |next| + 65 && RemovalFrom(prior, next, i)
    ensures k >= i && (k - i) % 65 == 0 && k + 65 <= |prior| && next == prior[..k] + prior[k + 65..]
    decreases |prior| - i
  {
    if i + 65 <= |prior| && next == prior[..i] + prior[i + 65..] {
      k := i;
    } else {
      k := RemovalFinds(prior, next, i + 65);
    }
  }

  lemma {:induction false} RemovalFound(prior: string, next: string, i: nat, k: nat)
    requires |prior| == |next| + 65 && i <= k && (k - i) % 65 == 0
    requires k + 65 <= |prior| && next == prior[..k] + prior[k + 65..]
    ensures RemovalFrom(prior, next, i)
    decreases k - i
  {
    if i < k {
      RemovalFound(prior, next, i + 65, k);
    }
  }

  ghost predicate Appends(a: seq<string>, b: seq<string>) {
    |b| == |a| + 1 && b[..|a|] == a
  }

  ghost predicate Drops(a: seq<string>, b: seq<string>) {
    exists i: nat :: i < |a| && b == Without(a, i)
  }

  lemma AppendIff(a: seq<string>, b: seq<string>)
    requires Queue(a) && Queue(b)
    ensures |Encode(b)| == |Encode(a)| + 65 && Encode(b)[..|Encode(a)|] == Encode(a) <==> Appends(a, b)
  {
    EncodeValid(a);
    EncodeValid(b);
    if |b| == |a| + 1 {
      var head := b[..|a|];
      LinesConcat(head, b[|a|..]);
      assert b == head + b[|a|..];
      EncodeValid(head);
      assert Encode(b)[..|Encode(a)|] == Encode(head);
      DecodeEncode(a);
      DecodeEncode(head);
    }
  }

  lemma RemovalIff(a: seq<string>, b: seq<string>)
    requires Queue(a) && Queue(b)
    ensures IsRemoval(Encode(a), Encode(b)) <==> Drops(a, b)
  {
    hide Encode, ValidState, RemovalFrom;
    EncodeValid(a);
    if IsRemoval(Encode(a), Encode(b)) {
      RemovalDrops(a, b);
    }
    if Drops(a, b) {
      var i: nat :| i < |a| && b == Without(a, i);
      CutLine(a, i);
      EncodeValid(b);
      RemovalFound(Encode(a), Encode(b), 5, 5 + 65 * i);
    }
  }

  lemma RemovalDrops(a: seq<string>, b: seq<string>)
    requires Queue(a) && Queue(b) && IsRemoval(Encode(a), Encode(b))
    ensures Drops(a, b)
  {
    LinesLength(a);
    var k := RemovalFinds(Encode(a), Encode(b), 5);
    var i: nat := (k - 5) / 65;
    CutLine(a, i);
    DecodeEncode(b);
    DecodeEncode(Without(a, i));
  }

  /** `rq-transition?` accepts exactly one append or one removal. */
  lemma TransitionIff(a: seq<string>, b: seq<string>)
    requires Queue(a) && Queue(b)
    ensures IsTransition(Encode(a), Encode(b)) <==> Appends(a, b) || Drops(a, b)
  {
    EncodeValid(a);
    EncodeValid(b);
    AppendIff(a, b);
    RemovalIff(a, b);
  }

  /** Any two queues one change apart have a journal that recovery accepts and reads back; it fits the limits. */
  lemma JournalRoundTrip(a: seq<string>, b: seq<string>)
    requires Queue(a) && Queue(b) && (Appends(a, b) || Drops(a, b))
    ensures ValidJournal(Journal(Encode(a), Encode(b)))
    ensures Decode(JournalOld(Journal(Encode(a), Encode(b)))) == a
    ensures Decode(JournalNext(Journal(Encode(a), Encode(b)))) == b
    ensures |Journal(Encode(a), Encode(b))| <= 8340
  {
    hide IsTransition, Encode, Decode, JournalOld, JournalNext, IndexOf, ValidState, Appends, Drops;
    JournalDecodes(a, Encode(b));
    TransitionIff(a, b);
    DecodeEncode(a);
    DecodeEncode(b);
    EncodeValid(a);
    EncodeValid(b);
  }

  /** Two journals of queues with the same text record the same change. */
  lemma JournalUnique(a: seq<string>, b: seq<string>, c: seq<string>, d: seq<string>)
    requires Queue(a) && Queue(b) && Queue(c) && Queue(d)
    requires Journal(Encode(a), Encode(b)) == Journal(Encode(c), Encode(d))
    ensures a == c && b == d
  {
    JournalDecodes(a, Encode(b));
    JournalDecodes(c, Encode(d));
    DecodeEncode(a);
    DecodeEncode(b);
    DecodeEncode(c);
    DecodeEncode(d);
  }

  /** A whole mark is told apart from every proper prefix of it and names one ticket. */
  lemma MarkShape(t: string, n: nat)
    requires IsTicket(t)
    ensures ValidMark(Mark(t)) && |Mark(t)| == 70 && Mark(t)[5..69] == t
    ensures n < 70 ==> !ValidMark(Mark(t)[..n])
  {
    assert Mark(t)[..5] == "RGH1\n";
  }

  /** A ticket is 64 hexadecimal digits, in lower case. */
  lemma TicketIff(t: string)
    ensures IsTicket(t) <==> |t| == 64 && forall c :: c in t ==> c in "0123456789abcdef"
  {
    hide Hex;
    forall c ensures Hex(c) <==> c in "0123456789abcdef" {
      HexIff(c);
    }
    if |t| == 64 && !IsTicket(t) {
      var i :| 0 <= i < 64 && !Hex(t[i]);
      assert t[i] in t;
    }
  }

  lemma HexIff(c: char)
    ensures Hex(c) <==> c in "0123456789abcdef"
  {
    assert "0123456789abcdef"
        == ['0', '1', '2', '3', '4', '5', '6', '7', '8', '9', 'a', 'b', 'c', 'd', 'e', 'f'];
  }

  /** No text of one kind passes for another: a queue, a journal, a mark and a claim are told apart. */
  lemma KindsApart(s: string, t: string)
    requires IsTicket(t)
    ensures ValidState(s) ==> !ValidJournal(s) && !ValidMark(s) && s != Claim(t)
    ensures ValidJournal(s) ==> !ValidMark(s) && s != Claim(t)
    ensures ValidMark(s) ==> s != Claim(t)
  {
    hide ValidFrom, IsTransition;
    assert "RGQ5\n"[2] == 'Q' && "RGI1\n"[2] == 'I' && "RGH1\n"[2] == 'H' && Claim(t)[2] == 'U';
    if |s| >= 5 {
      assert s[..5][2] == s[2];
    }
  }
}
