/** The extent scanner that cuts one top-level form out of a source text. */
module Scanner {
  import opened Wrappers

  // ---- the scanner ----

  datatype State = State(depth: int, quoted: bool, escaped: bool, comment: bool)

  const START: State := State(0, false, false, false)

  function Step(s: State, c: char): State {
    if s.comment then (if c == '\n' then s.(comment := false) else s)
    else if s.quoted then
      if s.escaped then s.(escaped := false)
      else if c == '\\' then s.(escaped := true)
      else if c == '"' then s.(quoted := false)
      else s
    else if c == ';' then s.(comment := true)
    else if c == '"' then s.(quoted := true)
    else if c == '(' then s.(depth := s.depth + 1)
    else if c == ')' then s.(depth := s.depth - 1)
    else s
  }

  /** The character that brings the depth back to zero ends the form. */
  predicate Ends(s: State, c: char) {
    !s.comment && !s.quoted && c == ')' && s.depth == 1
  }

  function Plus(n: nat, r: Option<nat>): Option<nat> {
    match r
    case None => None
    case Some(m) => Some(n + m)
  }

  /** How many characters of the text belong to the form, if it ends at all. */
  function Scan(text: string, s: State): (r: Option<nat>)
    ensures r.Some? ==> r.value <= |text|
  {
    if text == "" then None
    else if Ends(s, text[0]) then Some(1)
    else Plus(1, Scan(text[1..], Step(s, text[0])))
  }

  lemma ScanAt(source: string, i: nat, s: State)
    requires i < |source|
    ensures Scan(source[i..], s)
         == if Ends(s, source[i]) then Some(1) else Plus(1, Scan(source[i + 1..], Step(s, source[i])))
  {
    assert source[i..][1..] == source[i + 1..];
  }

  lemma NothingLeft(s: State)
    ensures Scan("", s) == None
  {
  }

  /** `form`, from the place where the text of the form begins: the end of its extent, or none when it is not closed. */
  method Form(source: string, start: nat) returns (r: Option<nat>)
    requires start <= |source|
    ensures r == Plus(start, Scan(source[start..], START))
  {
    hide Scan;
    var depth, quoted, escaped, comment := 0, false, false, false;
    for i := start to |source|
      invariant Plus(start, Scan(source[start..], START))
             == Plus(i, Scan(source[i..], State(depth, quoted, escaped, comment)))
    {
      var c := source[i];
      ScanAt(source, i, State(depth, quoted, escaped, comment));
      if comment {
        if c == '\n' {
          comment := false;
        }
      } else if quoted {
        if escaped {
          escaped := false;
        } else if c == '\\' {
          escaped := true;
        } else if c == '"' {
          quoted := false;
        }
      } else if c == ';' {
        comment := true;
      } else if c == '"' {
        quoted := true;
      } else if c == '(' {
        depth := depth + 1;
      } else if c == ')' {
        depth := depth - 1;
        if depth == 0 {
          return Some(i + 1);
        }
      }
    }
    assert source[|source|..] == "";
    NothingLeft(State(depth, quoted, escaped, comment));
    return None;
  }

  // ---- forms and how they are written ----

  /** One character of a string: itself, or any character behind a backslash. */
  datatype Part = Raw(c: char) | Escape(c: char)

  /** Anything inside a list: a character of a symbol, a number or white space; a string; a comment up to its line
    end; or another list. */
  datatype Item = Plain(c: char) | Quote(parts: seq<Part>) | Remark(text: string) | Nest(items: seq<Item>)

  function PrintPart(p: Part): string {
    match p
    case Raw(c) => [c]
    case Escape(c) => ['\\', c]
  }

  function PrintParts(parts: seq<Part>): string {
    if parts == [] then "" else PrintPart(parts[0]) + PrintParts(parts[1..])
  }

  function Print(i: Item): string {
    match i
    case Plain(c) => [c]
    case Quote(parts) => "\"" + PrintParts(parts) + "\""
    case Remark(text) => ";" + text + "\n"
    case Nest(items) => "(" + PrintAll(items) + ")"
  }

  function PrintAll(items: seq<Item>): string {
    if items == [] then "" else Print(items[0]) + PrintAll(items[1..])
  }

  predicate ValidPart(p: Part) {
    p.Raw? ==> p.c != '"' && p.c != '\\'
  }

  predicate Valid(i: Item) {
    match i
    case Plain(c) => c != '(' && c != ')' && c != '"' && c != ';'
    case Quote(parts) => forall k :: 0 <= k < |parts| ==> ValidPart(parts[k])
    case Remark(text) => forall k :: 0 <= k < |text| ==> text[k] != '\n'
    case Nest(items) => forall k :: 0 <= k < |items| ==> Valid(items[k])
  }

  predicate AllValid(items: seq<Item>) {
    forall k :: 0 <= k < |items| ==> Valid(items[k])
  }

  // ---- every written form is scanned to its end ----

  function Code(depth: int): State {
    State(depth, false, false, false)
  }

  lemma ScanStep(c: char, rest: string, s: State)
    requires !Ends(s, c)
    ensures Scan([c] + rest, s) == Plus(1, Scan(rest, Step(s, c)))
  {
    assert ([c] + rest)[1..] == rest;
  }

  lemma {:induction false} ScanComment(text: string, rest: string, d: int)
    requires forall k :: 0 <= k < |text| ==> text[k] != '\n'
    ensures Scan(text + "\n" + rest, State(d, false, false, true)) == Plus(|text| + 1, Scan(rest, Code(d)))
  {
    hide Scan;
    if text == "" {
      assert text + "\n" + rest == ['\n'] + rest;
      ScanStep('\n', rest, State(d, false, false, true));
    } else {
      assert text + "\n" + rest == [text[0]] + (text[1..] + "\n" + rest);
      ScanStep(text[0], text[1..] + "\n" + rest, State(d, false, false, true));
      ScanComment(text[1..], rest, d);
    }
  }

  lemma {:induction false} ScanString(parts: seq<Part>, rest: string, d: int)
    requires forall k :: 0 <= k < |parts| ==> ValidPart(parts[k])
    ensures Scan(PrintParts(parts) + "\"" + rest, State(d, true, false, false))
         == Plus(|PrintParts(parts)| + 1, Scan(rest, Code(d)))
  {
    hide Scan, PrintParts;
    var inside := State(d, true, false, false);
    if parts == [] {
      assert PrintParts(parts) == "" by { NoParts(); }
      assert PrintParts(parts) + "\"" + rest == ['"'] + rest;
      ScanStep('"', rest, inside);
    } else {
      var behind := PrintParts(parts[1..]) + "\"" + rest;
      assert ValidPart(parts[0]);
      FirstPart(parts, rest);
      ScanString(parts[1..], rest, d);
      match parts[0]
      case Raw(c) =>
        ScanStep(c, behind, inside);
      case Escape(c) =>
        ScanStep('\\', [c] + behind, inside);
        ScanStep(c, behind, State(d, true, true, false));
    }
  }

  lemma NoParts()
    ensures PrintParts([]) == ""
  {
  }

  lemma FirstPart(parts: seq<Part>, rest: string)
    requires parts != []
    ensures var all, behind := PrintParts(parts) + "\"" + rest, PrintParts(parts[1..]) + "\"" + rest;
      match parts[0]
      case Raw(c) => all == [c] + behind && |PrintParts(parts)| == 1 + |PrintParts(parts[1..])|
      case Escape(c) => all == ['\\'] + ([c] + behind) && |PrintParts(parts)| == 2 + |PrintParts(parts[1..])|
  {
    hide PrintParts;
    var tail := PrintParts(parts[1..]);
    PartsStep(parts);
    match parts[0]
    case Raw(c) =>
      Regroup([c], tail, "\"", rest);
    case Escape(c) =>
      Regroup(['\\', c], tail, "\"", rest);
      TwoFirst('\\', c, tail + "\"" + rest);
  }

  lemma PartsStep(parts: seq<Part>)
    requires parts != []
    ensures PrintParts(parts) == PrintPart(parts[0]) + PrintParts(parts[1..])
  {
  }

  lemma Regroup(a: string, b: string, c: string, d: string)
    ensures (a + b) + c + d == a + (b + c + d)
  {
  }

  lemma TwoFirst(a: char, b: char, rest: string)
    ensures [a, b] + rest == [a] + ([b] + rest)
  {
  }

  lemma ScanQuote(parts: seq<Part>, rest: string, d: int)
    requires forall k :: 0 <= k < |parts| ==> ValidPart(parts[k])
    ensures Scan(Print(Quote(parts)) + rest, Code(d)) == Plus(|Print(Quote(parts))|, Scan(rest, Code(d)))
  {
    hide Scan, PrintParts;
    var behind := PrintParts(parts) + "\"" + rest;
    assert Print(Quote(parts)) + rest == ['"'] + behind;
    ScanStep('"', behind, Code(d));
    ScanString(parts, rest, d);
  }

  lemma ScanRemark(text: string, rest: string, d: int)
    requires forall k :: 0 <= k < |text| ==> text[k] != '\n'
    ensures Scan(Print(Remark(text)) + rest, Code(d)) == Plus(|Print(Remark(text))|, Scan(rest, Code(d)))
  {
    hide Scan;
    var behind := text + "\n" + rest;
    assert Print(Remark(text)) + rest == [';'] + behind;
    ScanStep(';', behind, Code(d));
    ScanComment(text, rest, d);
  }

  lemma Around(items: seq<Item>, rest: string)
    ensures Print(Nest(items)) + rest == ['('] + (PrintAll(items) + ([')'] + rest))
  {
    hide PrintAll;
  }

  /** Inside a list an item is passed over whole. */
  lemma {:induction false} ScanItem(i: Item, rest: string, d: int)
    requires Valid(i) && d >= 1
    ensures Scan(Print(i) + rest, Code(d)) == Plus(|Print(i)|, Scan(rest, Code(d)))
    decreases i, 0
  {
    hide Scan, PrintAll;
    match i
    case Plain(c) =>
      ScanStep(c, rest, Code(d));
    case Quote(parts) =>
      ScanQuote(parts, rest, d);
    case Remark(text) =>
      ScanRemark(text, rest, d);
    case Nest(items) =>
      Around(items, rest);
      ScanStep('(', PrintAll(items) + ([')'] + rest), Code(d));
      ScanItems(items, [')'] + rest, d + 1);
      ScanStep(')', rest, Code(d + 1));
  }

  lemma {:induction false} ScanItems(items: seq<Item>, rest: string, d: int)
    requires AllValid(items) && d >= 1
    ensures Scan(PrintAll(items) + rest, Code(d)) == Plus(|PrintAll(items)|, Scan(rest, Code(d)))
    decreases items
  {
    hide Scan, Print, Valid;
    if items == [] {
      assert PrintAll(items) + rest == rest;
    } else {
      var behind := PrintAll(items[1..]) + rest;
      assert PrintAll(items) + rest == Print(items[0]) + behind;
      ScanItem(items[0], behind, d);
      ScanItems(items[1..], rest, d);
    }
  }

  /** A written form followed by any text at all is scanned to exactly its own end. */
  lemma WrittenFormScans(items: seq<Item>, rest: string)
    requires AllValid(items)
    ensures Scan(Print(Nest(items)) + rest, START) == Some(|Print(Nest(items))|)
  {
    hide PrintAll;
    Around(items, rest);
    ScanStep('(', PrintAll(items) + ([')'] + rest), START);
    ScanItems(items, [')'] + rest, 1);
    assert Scan([')'] + rest, Code(1)) == Some(1);
  }

  // ---- every extent the scanner returns is a written form ----

  /** Where the scan is inside the innermost open list. */
  datatype Mode = InCode | InString(parts: seq<Part>) | InEscape(parts: seq<Part>) | InComment(text: string)

  /** What has been read: the open lists from the outermost in, and an unfinished string or comment. */
  datatype Reading = Reading(stack: seq<seq<Item>>, mode: Mode)

  function PrintStack(stack: seq<seq<Item>>): string {
    if stack == [] then ""
    else PrintStack(stack[..|stack| - 1]) + "(" + PrintAll(stack[|stack| - 1])
  }

  function PrintMode(m: Mode): string {
    match m
    case InCode => ""
    case InString(parts) => "\"" + PrintParts(parts)
    case InEscape(parts) => "\"" + PrintParts(parts) + "\\"
    case InComment(text) => ";" + text
  }

  function PrintReading(x: Reading): string {
    PrintStack(x.stack) + PrintMode(x.mode)
  }

  predicate ValidReading(x: Reading) {
    && x.stack != []
    && (forall k :: 0 <= k < |x.stack| ==> AllValid(x.stack[k]))
    && match x.mode
       case InCode => true
       case InString(parts) => forall k :: 0 <= k < |parts| ==> ValidPart(parts[k])
       case InEscape(parts) => forall k :: 0 <= k < |parts| ==> ValidPart(parts[k])
       case InComment(text) => forall k :: 0 <= k < |text| ==> text[k] != '\n'
  }

  /** The scanner's state after such a reading. */
  function StateOf(x: Reading): State {
    State(|x.stack|, x.mode.InString? || x.mode.InEscape?, x.mode.InEscape?, x.mode.InComment?)
  }

  lemma {:induction false} PrintSnoc(items: seq<Item>, i: Item)
    ensures PrintAll(items + [i]) == PrintAll(items) + Print(i)
  {
    if items == [] {
      assert [i][1..] == [];
    } else {
      assert (items + [i])[1..] == items[1..] + [i];
      PrintSnoc(items[1..], i);
    }
  }

  lemma {:induction false} PartsSnoc(parts: seq<Part>, p: Part)
    ensures PrintParts(parts + [p]) == PrintParts(parts) + PrintPart(p)
  {
    if parts == [] {
      assert [p][1..] == [];
    } else {
      assert (parts + [p])[1..] == parts[1..] + [p];
      PartsSnoc(parts[1..], p);
    }
  }

  /** The innermost open list with one more item. */
  function Put(stack: seq<seq<Item>>, i: Item): seq<seq<Item>>
    requires stack != []
  {
    stack[..|stack| - 1] + [stack[|stack| - 1] + [i]]
  }

  lemma PutPrints(stack: seq<seq<Item>>, i: Item)
    requires stack != [] && Valid(i) && forall k :: 0 <= k < |stack| ==> AllValid(stack[k])
    ensures PrintStack(Put(stack, i)) == PrintStack(stack) + Print(i)
    ensures |Put(stack, i)| == |stack| && forall k :: 0 <= k < |stack| ==> AllValid(Put(stack, i)[k])
  {
    hide PrintStack, PrintAll, Print;
    var n := |stack| - 1;
    PutValid(stack, i);
    PrintTop(stack);
    PrintTop(Put(stack, i));
    PrintSnoc(stack[n], i);
  }

  lemma PrintTop(stack: seq<seq<Item>>)
    requires stack != []
    ensures PrintStack(stack) == PrintStack(stack[..|stack| - 1]) + "(" + PrintAll(stack[|stack| - 1])
  {
  }

  lemma PutValid(stack: seq<seq<Item>>, i: Item)
    requires stack != [] && Valid(i) && forall k :: 0 <= k < |stack| ==> AllValid(stack[k])
    ensures var put, n := Put(stack, i), |stack| - 1;
      |put| == |stack| && put[..n] == stack[..n] && put[n] == stack[n] + [i]
      && forall k :: 0 <= k < |stack| ==> AllValid(put[k])
  {
    hide Valid;
  }

  /** One character more inside the innermost list. */
  function Read(x: Reading, c: char): Reading
    requires x.stack != [] && (x.mode == InCode && c == ')' ==> |x.stack| >= 2)
  {
    var n := |x.stack| - 1;
    match x.mode
    case InComment(text) =>
      if c == '\n' then Reading(Put(x.stack, Remark(text)), InCode) else x.(mode := InComment(text + [c]))
    case InEscape(parts) => x.(mode := InString(parts + [Escape(c)]))
    case InString(parts) =>
      if c == '\\' then x.(mode := InEscape(parts))
      else if c == '"' then Reading(Put(x.stack, Quote(parts)), InCode)
      else x.(mode := InString(parts + [Raw(c)]))
    case InCode =>
      if c == ';' then x.(mode := InComment(""))
      else if c == '"' then x.(mode := InString([]))
      else if c == '(' then Reading(x.stack + [[]], InCode)
      else if c == ')' then Reading(Put(x.stack[..n], Nest(x.stack[n])), InCode)
      else Reading(Put(x.stack, Plain(c)), InCode)
  }

  lemma ReadComment(x: Reading, c: char)
    requires ValidReading(x) && x.mode.InComment?
    ensures ValidReading(Read(x, c)) && PrintReading(Read(x, c)) == PrintReading(x) + [c]
    ensures StateOf(Read(x, c)) == Step(StateOf(x), c)
  {
    hide PrintStack, PrintAll, AllValid, Put;
    if c == '\n' {
      PutPrints(x.stack, Remark(x.mode.text));
    }
  }

  lemma ReadString(x: Reading, c: char)
    requires ValidReading(x) && x.mode.InString?
    ensures ValidReading(Read(x, c)) && PrintReading(Read(x, c)) == PrintReading(x) + [c]
    ensures StateOf(Read(x, c)) == Step(StateOf(x), c)
  {
    hide PrintStack, PrintAll, PrintParts, AllValid, Put;
    if c == '"' {
      PutPrints(x.stack, Quote(x.mode.parts));
    } else if c != '\\' {
      PartsSnoc(x.mode.parts, Raw(c));
    }
  }

  lemma ReadEscape(x: Reading, c: char)
    requires ValidReading(x) && x.mode.InEscape?
    ensures ValidReading(Read(x, c)) && PrintReading(Read(x, c)) == PrintReading(x) + [c]
    ensures StateOf(Read(x, c)) == Step(StateOf(x), c)
  {
    hide PrintStack, PrintAll, PrintParts, AllValid;
    PartsSnoc(x.mode.parts, Escape(c));
  }

  lemma ReadOpen(x: Reading)
    requires ValidReading(x) && x.mode == InCode
    ensures ValidReading(Read(x, '(')) && PrintReading(Read(x, '(')) == PrintReading(x) + "("
  {
    assert (x.stack + [[]])[..|x.stack|] == x.stack;
  }

  lemma ReadClose(x: Reading)
    requires ValidReading(x) && x.mode == InCode && |x.stack| >= 2
    ensures ValidReading(Read(x, ')')) && PrintReading(Read(x, ')')) == PrintReading(x) + ")"
    ensures |Read(x, ')').stack| == |x.stack| - 1
  {
    var n := |x.stack| - 1;
    assert Valid(Nest(x.stack[n])) by { assert AllValid(x.stack[n]); }
    PutPrints(x.stack[..n], Nest(x.stack[n]));
    CloseText(PrintStack(x.stack[..n]), PrintAll(x.stack[n]));
  }

  lemma CloseText(a: string, b: string)
    ensures a + ("(" + b + ")") == a + "(" + b + ")"
  {
  }

  lemma ReadCode(x: Reading, c: char)
    requires ValidReading(x) && x.mode == InCode && (c == ')' ==> |x.stack| >= 2)
    ensures ValidReading(Read(x, c)) && PrintReading(Read(x, c)) == PrintReading(x) + [c]
    ensures StateOf(Read(x, c)) == Step(StateOf(x), c)
  {
    hide PrintAll;
    if c == '(' {
      ReadOpen(x);
    } else if c == ')' {
      ReadClose(x);
    } else if c != ';' && c != '"' {
      PutPrints(x.stack, Plain(c));
    }
  }

  /** If the scan ends, what was read and what was scanned together are one written form. */
  lemma {:induction false} ScanReads(x: Reading, text: string, n: nat) returns (items: seq<Item>)
    requires ValidReading(x) && Scan(text, StateOf(x)) == Some(n)
    ensures n <= |text| && AllValid(items) && Print(Nest(items)) == PrintReading(x) + text[..n]
    decreases |text|
  {
    hide Print, Step, Read, PrintReading, Valid;
    var c := text[0];
    if Ends(StateOf(x), c) {
      items := LastClose(x);
      assert text[..1] == ")";
    } else {
      match x.mode {
      case InCode => ReadCode(x, c);
      case InString(_) => ReadString(x, c);
      case InEscape(_) => ReadEscape(x, c);
      case InComment(_) => ReadComment(x, c);
      }
      items := ScanReads(Read(x, c), text[1..], n - 1);
      TextBehind(PrintReading(x), text, n);
    }
  }

  lemma TextBehind(before: string, text: string, n: nat)
    requires 1 <= n <= |text|
    ensures before + [text[0]] + text[1..][..n - 1] == before + text[..n]
  {
    assert text[..n] == [text[0]] + text[1..][..n - 1];
  }

  lemma LastClose(x: Reading) returns (items: seq<Item>)
    requires ValidReading(x) && |x.stack| == 1 && x.mode == InCode
    ensures AllValid(items) && Print(Nest(items)) == PrintReading(x) + ")"
  {
    items := x.stack[0];
    assert x.stack[..0] == [];
    assert PrintStack(x.stack) == PrintStack(x.stack[..0]) + "(" + PrintAll(items);
  }

  lemma ScanIsForm(text: string, n: nat) returns (items: seq<Item>)
    requires text != "" && text[0] == '(' && Scan(text, START) == Some(n)
    ensures n <= |text| && AllValid(items) && Print(Nest(items)) == text[..n]
  {
    hide Print, PrintAll;
    var x := Reading([[]], InCode);
    assert text == ['('] + text[1..];
    ScanStep('(', text[1..], START);
    OpenText(x);
    items := ScanReads(x, text[1..], n - 1);
    TextBehind("", text, n);
  }

  lemma OpenText(x: Reading)
    requires x == Reading([[]], InCode)
    ensures PrintReading(x) == "(" && ValidReading(x)
  {
    assert x.stack[..0] == [];
    assert PrintStack(x.stack) == PrintStack(x.stack[..0]) + "(" + PrintAll([]);
  }

  /** The scanner returns an extent if and only if that extent is a written form; so it fails only when no written form
    begins there. */
  lemma ScanIff(text: string, n: nat)
    requires text != "" && text[0] == '(' && n <= |text|
    ensures Scan(text, START) == Some(n) <==> exists items :: AllValid(items) && Print(Nest(items)) == text[..n]
  {
    hide Scan, Print, PrintAll;
    if Scan(text, START) == Some(n) {
      var items := ScanIsForm(text, n);
    }
    if exists items :: AllValid(items) && Print(Nest(items)) == text[..n] {
      var items :| AllValid(items) && Print(Nest(items)) == text[..n];
      WrittenFormScans(items, text[n..]);
      assert text == text[..n] + text[n..];
    }
  }
}
