/** The packed Unicode tables of the tokenizer: class runs, lower-case runs and the composition table, and the lookups
  the program makes in them. */
module ScriptTables {
  import opened Wrappers

  datatype Range = Range(lo: nat, hi: nat)

  predicate Inside(ranges: seq<Range>, c: nat) {
    ranges != [] && (ranges[0].lo <= c <= ranges[0].hi || Inside(ranges[1..], c))
  }

  // ---- class runs ----

  datatype Run = Run(lo: nat, hi: nat, k: nat)

  /** The field widths of a packed class run: 16 bits for the end, 4 for the class. */
  predicate Fits(r: Run) {
    r.hi < 0x1_0000 && r.k < 16
  }

  ghost predicate AllFit(runs: seq<Run>) {
    forall i :: 0 <= i < |runs| ==> Fits(runs[i])
  }

  /** `(lo << 20) | (hi << 4) | k`; the fields do not overlap, so the bitwise or is a sum. */
  function Pack(r: Run): nat
    requires Fits(r)
  {
    r.lo * 0x10_0000 + r.hi * 16 + r.k
  }

  lemma Unpack(r: Run)
    requires Fits(r)
    ensures Pack(r) / 0x10_0000 == r.lo && Pack(r) / 16 % 0x1_0000 == r.hi && Pack(r) % 16 == r.k
  {
    assert Pack(r) / 16 == r.lo * 0x1_0000 + r.hi;
  }

  function PackAll(runs: seq<Run>): seq<nat>
    requires AllFit(runs)
  {
    if runs == [] then [] else [Pack(runs[0])] + PackAll(runs[1..])
  }

  /** `scls`: the class of the first packed run that holds the code point, 4 when none does. */
  function Class(table: seq<nat>, c: nat): nat {
    if table == [] then 4
    else if table[0] / 0x10_0000 <= c <= table[0] / 16 % 0x1_0000 then table[0] % 16
    else Class(table[1..], c)
  }

  /** The class of the first run that holds the code point, if one does. */
  function Lookup(runs: seq<Run>, c: nat): Option<nat> {
    if runs == [] then None
    else if runs[0].lo <= c <= runs[0].hi then Some(runs[0].k)
    else Lookup(runs[1..], c)
  }

  lemma {:induction false} ClassIsLookup(runs: seq<Run>, c: nat)
    requires AllFit(runs)
    ensures Class(PackAll(runs), c) == match Lookup(runs, c) case None => 4 case Some(k) => k
  {
    hide Pack;
    if runs != [] {
      Unpack(runs[0]);
      ClassIsLookup(runs[1..], c);
      assert PackAll(runs)[1..] == PackAll(runs[1..]);
    }
  }

  lemma {:induction false} LookupAppend(runs: seq<Run>, r: Run, c: nat)
    ensures Lookup(runs + [r], c)
         == if Lookup(runs, c).Some? then Lookup(runs, c) else if r.lo <= c <= r.hi then Some(r.k) else None
  {
    if runs == [] {
      assert [r][1..] == [];
    } else {
      assert (runs + [r])[1..] == runs[1..] + [r];
      LookupAppend(runs[1..], r, c);
    }
  }

  /** The lookup once the code points from `lo` to `hi` have been added behind the runs so far. */
  function Added(before: seq<Run>, lo: int, hi: int, cls: int -> nat, x: nat): Option<nat> {
    if Lookup(before, x).Some? then Lookup(before, x) else if lo <= x <= hi then Some(cls(x)) else None
  }

  /** The last code point, up to `hi`, of the stretch from `c` on that has the class of `c`. */
  method RunEnd(c: nat, hi: nat, cls: int -> nat) returns (e: nat)
    requires c <= hi
    ensures c <= e <= hi && (forall x :: c <= x <= e ==> cls(x) == cls(c)) && (e < hi ==> cls(e + 1) != cls(c))
  {
    e := c;
    while e + 1 <= hi && cls(e + 1) == cls(c)
      invariant c <= e <= hi && forall x :: c <= x <= e ==> cls(x) == cls(c)
    {
      e := e + 1;
    }
  }

  /** Cut one range into runs of one class each, as long as can be, behind the runs so far. */
  method RangeRuns(before: seq<Run>, range: Range, cls: int -> nat) returns (runs: seq<Run>)
    requires AllFit(before) && range.hi < 0x1_0000 && forall c :: cls(c) < 16
    ensures AllFit(runs) && before <= runs
    ensures forall x: nat :: Lookup(runs, x) == Added(before, range.lo, range.hi, cls, x)
    ensures forall i :: |before| < i < |runs| ==> runs[i].lo == runs[i - 1].hi + 1 && runs[i].k != runs[i - 1].k
  {
    hide Lookup;
    runs := before;
    var c := range.lo;
    while c <= range.hi
      invariant AllFit(runs) && before <= runs && c >= range.lo && (c == range.lo || c <= range.hi + 1)
      invariant forall x: nat :: Lookup(runs, x) == Added(before, range.lo, c - 1, cls, x)
      invariant forall i :: |before| < i < |runs| ==> runs[i].lo == runs[i - 1].hi + 1 && runs[i].k != runs[i - 1].k
      invariant |runs| > |before| ==>
        var last := runs[|runs| - 1]; c == last.hi + 1 && (c <= range.hi ==> cls(c) != last.k)
    {
      var k := cls(c);
      var e := RunEnd(c, range.hi, cls);
      forall x: nat {
        LookupAppend(runs, Run(c, e, k), x);
      }
      runs := runs + [Run(c, e, k)];
      c := e + 1;
    }
  }

  /** The runs hold exactly the code points of the ranges, with their classes. */
  ghost predicate Tabulates(runs: seq<Run>, ranges: seq<Range>, cls: int -> nat) {
    AllFit(runs) && forall x: nat :: Lookup(runs, x) == if Inside(ranges, x) then Some(cls(x)) else None
  }

  /** The class runs of all the ranges. */
  method ClassRuns(ranges: seq<Range>, cls: int -> nat) returns (runs: seq<Run>)
    requires forall i :: 0 <= i < |ranges| ==> ranges[i].hi < 0x1_0000
    requires forall c :: cls(c) < 16
    ensures Tabulates(runs, ranges, cls)
  {
    runs := [];
    assert ranges[..0] == [];
    for i := 0 to |ranges|
      invariant AllFit(runs)
      invariant forall x: nat :: Lookup(runs, x) == if Inside(ranges[..i], x) then Some(cls(x)) else None
    {
      runs := RangeRuns(runs, ranges[i], cls);
      forall x: nat {
        InsideAppend(ranges[..i], ranges[i], x);
      }
      assert ranges[..i + 1] == ranges[..i] + [ranges[i]];
    }
    assert ranges[..|ranges|] == ranges;
  }

  lemma {:induction false} InsideAppend(ranges: seq<Range>, r: Range, c: nat)
    ensures Inside(ranges + [r], c) <==> Inside(ranges, c) || r.lo <= c <= r.hi
  {
    if ranges == [] {
      assert [r][1..] == [];
    } else {
      assert (ranges + [r])[1..] == ranges[1..] + [r];
      InsideAppend(ranges[1..], r, c);
    }
  }

  /** The program's lookup in the packed runs gives back the class of every code point in the ranges, and 4 for every
    other. */
  lemma ClassDecodes(runs: seq<Run>, ranges: seq<Range>, cls: int -> nat, c: nat)
    requires Tabulates(runs, ranges, cls)
    ensures Class(PackAll(runs), c) == if Inside(ranges, c) then cls(c) else 4
  {
    ClassIsLookup(runs, c);
  }

  // ---- lower-case runs ----

  /** Mode 1: every code point of the run moves by `d`. Any other mode: every other one, from `lo`, moves by one. */
  datatype LowerRun = LowerRun(lo: nat, hi: nat, mode: nat, d: int)

  predicate LowerFits(r: LowerRun) {
    r.hi < 0x1_0000 && r.mode < 16 && -256 <= r.d <= 255
  }

  ghost predicate AllLowerFit(runs: seq<LowerRun>) {
    forall i :: 0 <= i < |runs| ==> LowerFits(runs[i])
  }

  /** `(lo << 29) | (hi << 13) | (mode << 9) | (d + 256)` */
  function PackLower(r: LowerRun): nat
    requires LowerFits(r)
  {
    r.lo * 0x2000_0000 + r.hi * 0x2000 + r.mode * 0x200 + (r.d + 256)
  }

  lemma UnpackLower(r: LowerRun)
    requires LowerFits(r)
    ensures PackLower(r) / 0x2000_0000 == r.lo && PackLower(r) / 0x2000 % 0x1_0000 == r.hi
    ensures PackLower(r) / 0x200 % 16 == r.mode && PackLower(r) % 0x200 - 256 == r.d
  {
    assert PackLower(r) / 0x2000 == r.lo * 0x1_0000 + r.hi;
    assert PackLower(r) / 0x200 == (r.lo * 0x1_0000 + r.hi) * 16 + r.mode;
  }

  function PackAllLower(runs: seq<LowerRun>): seq<nat>
    requires AllLowerFit(runs)
  {
    if runs == [] then [] else [PackLower(runs[0])] + PackAllLower(runs[1..])
  }

  /** `slow`: the lower case by the first packed run that holds the code point; itself when none does. */
  function Lower(table: seq<nat>, c: nat): int {
    if table == [] then c
    else
      var e := table[0];
      if e / 0x2000_0000 <= c <= e / 0x2000 % 0x1_0000 then
        if e / 0x200 % 16 == 1 then c + (e % 0x200 - 256)
        else if (c - e / 0x2000_0000) % 2 == 0 then c + 1 else c
      else Lower(table[1..], c)
  }

  function Move(r: LowerRun, c: nat): int {
    if r.mode == 1 then c + r.d else if (c - r.lo) % 2 == 0 then c + 1 else c
  }

  function Moved(runs: seq<LowerRun>, c: nat): Option<int> {
    if runs == [] then None
    else if runs[0].lo <= c <= runs[0].hi then Some(Move(runs[0], c))
    else Moved(runs[1..], c)
  }

  lemma {:induction false} LowerIsMoved(runs: seq<LowerRun>, c: nat)
    requires AllLowerFit(runs)
    ensures Lower(PackAllLower(runs), c) == match Moved(runs, c) case None => c case Some(l) => l
  {
    hide PackLower;
    if runs != [] {
      UnpackLower(runs[0]);
      LowerIsMoved(runs[1..], c);
      assert PackAllLower(runs)[1..] == PackAllLower(runs[1..]);
    }
  }

  lemma {:induction false} MovedAppend(runs: seq<LowerRun>, r: LowerRun, c: nat)
    ensures Moved(runs + [r], c)
         == if Moved(runs, c).Some? then Moved(runs, c) else if r.lo <= c <= r.hi then Some(Move(r, c)) else None
  {
    if runs == [] {
      assert [r][1..] == [];
    } else {
      assert (runs + [r])[1..] == runs[1..] + [r];
      MovedAppend(runs[1..], r, c);
    }
  }

  /** The lower case the map asks for: code points it does not name stay. */
  function Wanted(low: map<nat, int>, c: nat): int {
    if c in low then c + low[c] else c
  }

  /** The map's code points in ascending order. */
  ghost predicate Keys(cs: seq<nat>, low: map<nat, int>) {
    && (forall i, j :: 0 <= i < j < |cs| ==> cs[i] < cs[j])
    && (forall c :: c in cs <==> c in low)
    && (forall c :: c in low ==> c < 0x1_0000 && -256 <= low[c] <= 255)
  }

  lemma {:induction false} Largest(s: set<nat>) returns (m: nat)
    requires s != {}
    ensures m in s && forall x :: x in s ==> x <= m
    decreases |s|
  {
    var a :| a in s;
    m := a;
    if s != {a} {
      var n := Largest(s - {a});
      m := if n > a then n else a;
      assert forall x :: x in s ==> x == a || x in s - {a};
    }
  }

  /** Every map of such movements has its code points in ascending order. */
  lemma {:induction false} KeysExist(low: map<nat, int>) returns (cs: seq<nat>)
    requires forall c :: c in low ==> c < 0x1_0000 && -256 <= low[c] <= 255
    ensures Keys(cs, low)
    decreases |low.Keys|
  {
    if low.Keys == {} {
      cs := [];
    } else {
      var m := Largest(low.Keys);
      var rest := low - {m};
      assert rest.Keys == low.Keys - {m};
      var front := KeysExist(rest);
      cs := front + [m];
      assert forall c :: c in cs <==> c in front || c == m;
      forall i, j | 0 <= i < j < |cs| ensures cs[i] < cs[j] {
        assert i < |front| && front[i] in front;
      }
    }
  }

  /** Runs that serve exactly the first `n` code points: each of them is moved as wanted, nothing else is moved, and
    nothing behind them is in a run. */
  ghost predicate Serves(runs: seq<LowerRun>, cs: seq<nat>, low: map<nat, int>, n: nat)
    requires n <= |cs|
  {
    && AllLowerFit(runs)
    && (forall x: nat :: Moved(runs, x).Some? ==> Moved(runs, x).value == Wanted(low, x))
    && (forall k :: 0 <= k < n ==> Moved(runs, cs[k]).Some?)
    && (forall x: nat :: n == 0 || x > cs[n - 1] ==> Moved(runs, x).None?)
  }

  /** One more run, from code point `i` to code point `j`, keeps that when it moves its code points as wanted. */
  lemma ServesMore(runs: seq<LowerRun>, cs: seq<nat>, low: map<nat, int>, i: nat, j: nat, r: LowerRun)
    requires Keys(cs, low) && i <= j < |cs| && Serves(runs, cs, low, i)
    requires LowerFits(r) && r.lo == cs[i] && r.hi == cs[j]
    requires forall x: nat :: r.lo <= x <= r.hi ==> Move(r, x) == Wanted(low, x)
    ensures Serves(runs + [r], cs, low, j + 1)
  {
    forall k | 0 <= k < j + 1 ensures Moved(runs + [r], cs[k]).Some? {
      MovedAppend(runs, r, cs[k]);
      assert k >= i ==> cs[i] <= cs[k] <= cs[j];
    }
    forall x: nat | x > cs[j] ensures Moved(runs + [r], x).None? {
      MovedAppend(runs, r, x);
      assert i > 0 ==> cs[i - 1] < cs[j];
    }
    forall x: nat | Moved(runs + [r], x).Some? ensures Moved(runs + [r], x).value == Wanted(low, x) {
      MovedAppend(runs, r, x);
    }
  }

  /** Code points `i` to `j` follow one another with step `step` and all move by `d`. */
  ghost predicate Stretch(cs: seq<nat>, low: map<nat, int>, i: nat, j: nat, step: nat, d: int)
    requires Keys(cs, low)
  {
    i <= j < |cs| && forall k :: i <= k <= j ==> cs[k] in low && cs[k] == cs[i] + step * (k - i) && low[cs[k]] == d
  }

  lemma ConstantRun(cs: seq<nat>, low: map<nat, int>, i: nat, j: nat, d: int, x: nat)
    requires Keys(cs, low) && Stretch(cs, low, i, j, 1, d) && cs[i] <= x <= cs[j]
    ensures Move(LowerRun(cs[i], cs[j], 1, d), x) == Wanted(low, x)
  {
    var k := i + (x - cs[i]);
    assert cs[j] == cs[i] + 1 * (j - i);
    assert cs[k] == cs[i] + 1 * (k - i) == x;
  }

  lemma Between(cs: seq<nat>, low: map<nat, int>, k: nat, x: nat)
    requires Keys(cs, low) && k + 1 < |cs| && cs[k] < x < cs[k + 1]
    ensures x !in low
  {
    forall l | 0 <= l < |cs| ensures cs[l] != x {
      assert l < k ==> cs[l] < cs[k];
      assert l > k + 1 ==> cs[k + 1] < cs[l];
    }
    assert x !in cs;
  }

  lemma AlternatingRun(cs: seq<nat>, low: map<nat, int>, i: nat, j: nat, x: nat)
    requires Keys(cs, low) && Stretch(cs, low, i, j, 2, 1) && cs[i] <= x <= cs[j]
    ensures Move(LowerRun(cs[i], cs[j], 2, 1), x) == Wanted(low, x)
  {
    assert cs[j] == cs[i] + 2 * (j - i);
    var k := i + (x - cs[i]) / 2;
    assert cs[k] == cs[i] + 2 * (k - i);
    if (x - cs[i]) % 2 == 1 {
      assert cs[k + 1] == cs[i] + 2 * (k + 1 - i);
      Between(cs, low, k, x);
    }
  }

  /** The longest stretch from code point `i` on with the given step and movement. */
  method Extend(cs: seq<nat>, low: map<nat, int>, i: nat, step: nat, d: int) returns (j: nat)
    requires Keys(cs, low) && i < |cs| && low[cs[i]] == d
    ensures i <= j < |cs| && Stretch(cs, low, i, j, step, d)
    ensures j + 1 < |cs| ==> cs[j + 1] != cs[j] + step || low[cs[j + 1]] != d
  {
    hide Stretch;
    j := i;
    StretchStart(cs, low, i, step, d);
    while j + 1 < |cs| && cs[j + 1] == cs[j] + step && low[cs[j + 1]] == d
      invariant i <= j < |cs| && Stretch(cs, low, i, j, step, d)
    {
      StretchStep(cs, low, i, j, step, d);
      j := j + 1;
    }
  }

  lemma StretchStart(cs: seq<nat>, low: map<nat, int>, i: nat, step: nat, d: int)
    requires Keys(cs, low) && i < |cs| && low[cs[i]] == d
    ensures Stretch(cs, low, i, i, step, d)
  {
  }

  lemma StretchStep(cs: seq<nat>, low: map<nat, int>, i: nat, j: nat, step: nat, d: int)
    requires Keys(cs, low) && Stretch(cs, low, i, j, step, d)
    requires j + 1 < |cs| && cs[j + 1] == cs[j] + step && low[cs[j + 1]] == d
    ensures Stretch(cs, low, i, j + 1, step, d)
  {
    assert cs[j] == cs[i] + step * (j - i);
    OneMore(step, j - i);
  }

  lemma OneMore(step: int, n: int)
    ensures step * (n + 1) == step * n + step
  {
  }

  /** A constant run ends where the next code point does not move alike. An alternating run, and a single that moves by
    one, end where the code point after next does not move by one behind a gap. */
  ghost predicate Longest(r: LowerRun, low: map<nat, int>) {
    && (r.mode == 1 ==> r.hi + 1 in low ==> low[r.hi + 1] != r.d)
    && (r.mode == 2 || (r.lo == r.hi && r.d == 1) ==>
          r.hi + 1 !in low && r.hi + 2 in low ==> low[r.hi + 2] != 1)
  }

  lemma NextKey(cs: seq<nat>, low: map<nat, int>, j: nat)
    requires Keys(cs, low) && j < |cs|
    ensures cs[j] + 1 in low ==> j + 1 < |cs| && cs[j + 1] == cs[j] + 1
    ensures cs[j] + 1 !in low && cs[j] + 2 in low ==> j + 1 < |cs| && cs[j + 1] == cs[j] + 2
  {
    KeyBehind(cs, low, j, 1);
    if cs[j] + 1 !in low {
      KeyBehind(cs, low, j, 2);
    }
  }

  lemma KeyBehind(cs: seq<nat>, low: map<nat, int>, j: nat, d: nat)
    requires Keys(cs, low) && j < |cs| && (d == 1 || (d == 2 && cs[j] + 1 !in low))
    ensures cs[j] + d in low ==> j + 1 < |cs| && cs[j + 1] == cs[j] + d
  {
    if cs[j] + d in low {
      assert cs[j] + d in cs;
      var k :| 0 <= k < |cs| && cs[k] == cs[j] + d;
      assert j + 1 < |cs| ==> cs[j + 1] in cs;
    }
  }

  /** Greedy runs: a constant run where the next code point moves alike, else an alternating run, else a single. */
  method LowerRuns(cs: seq<nat>, low: map<nat, int>) returns (runs: seq<LowerRun>)
    requires Keys(cs, low)
    ensures Serves(runs, cs, low, |cs|)
    ensures forall k :: 0 <= k < |runs| ==> Longest(runs[k], low)
  {
    hide Serves, Stretch, Move, Wanted, Longest;
    runs := [];
    StartsServing(cs, low);
    var i := 0;
    while i < |cs|
      invariant i <= |cs| && Serves(runs, cs, low, i)
      invariant forall k :: 0 <= k < |runs| ==> Longest(runs[k], low)
    {
      var d := low[cs[i]];
      var j := Extend(cs, low, i, 1, d);
      var r := LowerRun(cs[i], cs[j], 1, d);
      if j > i || d != 1 {
        forall x: nat | r.lo <= x <= r.hi ensures Move(r, x) == Wanted(low, x) {
          ConstantRun(cs, low, i, j, d, x);
        }
        ConstantLongest(cs, low, i, j, d);
      } else {
        j := Extend(cs, low, i, 2, 1);
        if j > i {
          r := LowerRun(cs[i], cs[j], 2, 1);
          forall x: nat | r.lo <= x <= r.hi ensures Move(r, x) == Wanted(low, x) {
            AlternatingRun(cs, low, i, j, x);
          }
          AlternatingLongest(cs, low, i, j);
        } else {
          r := LowerRun(cs[i], cs[i], 1, 1);
          forall x: nat | r.lo <= x <= r.hi ensures Move(r, x) == Wanted(low, x) {
            SingleRun(cs, low, i, x);
          }
          SingleLongest(cs, low, i);
        }
      }
      assert cs[i] in cs && cs[j] in cs;
      ServesMore(runs, cs, low, i, j, r);
      runs := runs + [r];
      i := j + 1;
    }
  }

  lemma ConstantLongest(cs: seq<nat>, low: map<nat, int>, i: nat, j: nat, d: int)
    requires Keys(cs, low) && i <= j < |cs| && (j > i || d != 1)
    requires j + 1 < |cs| ==> cs[j + 1] != cs[j] + 1 || low[cs[j + 1]] != d
    ensures Longest(LowerRun(cs[i], cs[j], 1, d), low)
  {
    NextKey(cs, low, j);
  }

  lemma AlternatingLongest(cs: seq<nat>, low: map<nat, int>, i: nat, j: nat)
    requires Keys(cs, low) && i <= j < |cs|
    requires j + 1 < |cs| ==> cs[j + 1] != cs[j] + 2 || low[cs[j + 1]] != 1
    ensures Longest(LowerRun(cs[i], cs[j], 2, 1), low)
  {
    NextKey(cs, low, j);
  }

  lemma SingleLongest(cs: seq<nat>, low: map<nat, int>, i: nat)
    requires Keys(cs, low) && i < |cs|
    requires i + 1 < |cs| ==> (cs[i + 1] != cs[i] + 1 && cs[i + 1] != cs[i] + 2) || low[cs[i + 1]] != 1
    ensures Longest(LowerRun(cs[i], cs[i], 1, 1), low)
  {
    NextKey(cs, low, i);
  }

  lemma StartsServing(cs: seq<nat>, low: map<nat, int>)
    ensures Serves([], cs, low, 0)
  {
  }

  lemma SingleRun(cs: seq<nat>, low: map<nat, int>, i: nat, x: nat)
    requires Keys(cs, low) && i < |cs| && low[cs[i]] == 1 && x == cs[i]
    ensures Move(LowerRun(cs[i], cs[i], 1, 1), x) == Wanted(low, x)
  {
  }

  /** The program's lookup in the packed runs moves every code point of the map as the map says, and no other. */
  lemma LowerDecodes(runs: seq<LowerRun>, cs: seq<nat>, low: map<nat, int>, c: nat)
    requires Keys(cs, low) && Serves(runs, cs, low, |cs|)
    ensures Lower(PackAllLower(runs), c) == Wanted(low, c)
  {
    LowerIsMoved(runs, c);
    if c in low {
      assert c in cs;
    }
  }

  /** The map holds the movement of exactly the letters in the ranges whose lower case is another code point. */
  ghost predicate Collected(low: map<nat, int>, ranges: seq<Range>, cls: int -> nat, lower: nat -> int) {
    && (forall c: nat :: c in low <==> Inside(ranges, c) && cls(c) == 1 && lower(c) != c)
    && (forall c: nat :: c in low ==> low[c] == lower(c) - c)
  }

  /** The two loops that collect the movements of the letters. */
  method CollectLow(ranges: seq<Range>, cls: int -> nat, lower: nat -> int) returns (low: map<nat, int>)
    ensures Collected(low, ranges, cls, lower)
  {
    low := map[];
    assert ranges[..0] == [];
    for i := 0 to |ranges|
      invariant Collected(low, ranges[..i], cls, lower)
    {
      var c := ranges[i].lo;
      while c <= ranges[i].hi
        invariant ranges[i].lo <= c && (c <= ranges[i].hi + 1 || c == ranges[i].lo)
        invariant forall x: nat :: x in low <==>
          (Inside(ranges[..i], x) || ranges[i].lo <= x < c) && cls(x) == 1 && lower(x) != x
        invariant forall x: nat :: x in low ==> low[x] == lower(x) - x
      {
        if cls(c) == 1 && lower(c) != c {
          low := low[c := lower(c) - c];
        }
        c := c + 1;
      }
      forall x: nat {
        InsideAppend(ranges[..i], ranges[i], x);
      }
      assert ranges[..i + 1] == ranges[..i] + [ranges[i]];
    }
    assert ranges[..|ranges|] == ranges;
  }

  /** The lookup lower-cases every letter in the ranges and leaves every other code point alone. */
  lemma LetterDecodes(ranges: seq<Range>, cls: int -> nat, lower: nat -> int, low: map<nat, int>, cs: seq<nat>,
                      runs: seq<LowerRun>, c: nat)
    requires Collected(low, ranges, cls, lower) && Keys(cs, low) && Serves(runs, cs, low, |cs|)
    ensures Lower(PackAllLower(runs), c) == if Inside(ranges, c) && cls(c) == 1 then lower(c) else c
  {
    LowerDecodes(runs, cs, low, c);
  }

  // ---- composition ----

  /** The composition of a base and a mark, where there is one. */
  type Composition = (nat, nat) -> Option<nat>

  /** `(base << 28) | (mark << 14) | composed` */
  function Entry(base: nat, mark: nat, composed: nat): nat
    requires mark < 0x4000 && composed < 0x4000
  {
    base * 0x1000_0000 + mark * 0x4000 + composed
  }

  /** `nfc-scan` */
  function ScanFor(table: seq<nat>, key: nat): int {
    if table == [] then -1
    else if table[0] / 0x4000 == key then table[0] % 0x4000
    else ScanFor(table[1..], key)
  }

  /** `nfc-find`: the tables in turn, until one has an answer. */
  function Find(tables: seq<seq<nat>>, base: nat, mark: nat): int {
    if tables == [] then -1
    else
      var r := ScanFor(tables[0], base * 0x4000 + mark);
      if r >= 0 then r else Find(tables[1..], base, mark)
  }

  /** What an entry says is what the composition says. */
  predicate EntryOf(e: nat, comp: Composition) {
    comp(e / 0x4000 / 0x4000, e / 0x4000 % 0x4000) == Some(e % 0x4000)
  }

  ghost predicate Entries(table: seq<nat>, comp: Composition) {
    forall i :: 0 <= i < |table| ==> EntryOf(table[i], comp)
  }

  lemma EntryDecodes(base: nat, mark: nat, composed: nat)
    requires mark < 0x4000 && composed < 0x4000
    ensures var e := Entry(base, mark, composed);
      e / 0x4000 == base * 0x4000 + mark && e % 0x4000 == composed
  {
  }

  lemma KeyDecodes(base: nat, mark: nat)
    requires mark < 0x4000
    ensures (base * 0x4000 + mark) / 0x4000 == base && (base * 0x4000 + mark) % 0x4000 == mark
  {
  }

  lemma {:induction false} ScanSound(table: seq<nat>, comp: Composition, base: nat, mark: nat)
    requires mark < 0x4000 && Entries(table, comp)
    ensures var r := ScanFor(table, base * 0x4000 + mark); r == -1 || (r >= 0 && comp(base, mark) == Some(r))
  {
    if table != [] {
      KeyDecodes(base, mark);
      assert EntryOf(table[0], comp);
      ScanSound(table[1..], comp, base, mark);
    }
  }

  lemma {:induction false} ScanListed(table: seq<nat>, base: nat, mark: nat, composed: nat)
    requires mark < 0x4000 && composed < 0x4000 && Entry(base, mark, composed) in table
    ensures ScanFor(table, base * 0x4000 + mark) >= 0
  {
    EntryDecodes(base, mark, composed);
    if table[0] != Entry(base, mark, composed) {
      ScanListed(table[1..], base, mark, composed);
    }
  }

  lemma {:induction false} FindSound(tables: seq<seq<nat>>, comp: Composition, base: nat, mark: nat)
    requires mark < 0x4000 && forall i :: 0 <= i < |tables| ==> Entries(tables[i], comp)
    ensures var r := Find(tables, base, mark); r == -1 || (r >= 0 && comp(base, mark) == Some(r))
  {
    if tables != [] {
      ScanSound(tables[0], comp, base, mark);
      FindSound(tables[1..], comp, base, mark);
    }
  }

  lemma {:induction false} FindListed(tables: seq<seq<nat>>, i: nat, base: nat, mark: nat, composed: nat)
    requires mark < 0x4000 && composed < 0x4000 && i < |tables| && Entry(base, mark, composed) in tables[i]
    ensures Find(tables, base, mark) >= 0
  {
    if i == 0 {
      ScanListed(tables[0], base, mark, composed);
    } else {
      FindListed(tables[1..], i - 1, base, mark, composed);
    }
  }

  /** Every composition is listed in one of the tables. */
  ghost predicate Listed(tables: seq<seq<nat>>, comp: Composition, base: nat, mark: nat) {
    comp(base, mark).Some? ==>
      mark < 0x4000 && comp(base, mark).value < 0x4000 &&
      exists i :: 0 <= i < |tables| && Entry(base, mark, comp(base, mark).value) in tables[i]
  }

  /** Entries in any order, split into tables in any way: the lookup is the composition, and -1 where there is none. */
  lemma FindIsComposition(tables: seq<seq<nat>>, comp: Composition, base: nat, mark: nat)
    requires mark < 0x4000 && forall i :: 0 <= i < |tables| ==> Entries(tables[i], comp)
    requires Listed(tables, comp, base, mark)
    ensures Find(tables, base, mark) == match comp(base, mark) case None => -1 case Some(c) => c
  {
    FindSound(tables, comp, base, mark);
    if comp(base, mark).Some? {
      var c := comp(base, mark).value;
      var i :| 0 <= i < |tables| && Entry(base, mark, c) in tables[i];
      FindListed(tables, i, base, mark, c);
    }
  }

  ghost predicate SmallMarks(marks: seq<nat>) {
    forall j :: 0 <= j < |marks| ==> marks[j] < 0x4000
  }

  ghost predicate SmallResults(comp: Composition) {
    forall b: nat, m: nat :: comp(b, m).Some? ==> comp(b, m).value < 0x4000
  }

  /** The entries of the first `n` marks with one base, as they are collected. */
  function Row(base: nat, marks: seq<nat>, comp: Composition, n: nat): seq<nat>
    requires n <= |marks| && SmallMarks(marks)
    requires SmallResults(comp)
  {
    if n == 0 then []
    else
      var rest, mark := Row(base, marks, comp, n - 1), marks[n - 1];
      match comp(base, mark)
      case None => rest
      case Some(c) => rest + [Entry(base, mark, c)]
  }

  function Rows(bases: seq<nat>, marks: seq<nat>, comp: Composition, n: nat): seq<nat>
    requires n <= |bases| && SmallMarks(marks)
    requires SmallResults(comp)
  {
    if n == 0 then [] else Rows(bases, marks, comp, n - 1) + Row(bases[n - 1], marks, comp, |marks|)
  }

  /** The two loops that collect the entries. */
  method Collect(bases: seq<nat>, marks: seq<nat>, comp: Composition) returns (ent: seq<nat>)
    requires SmallMarks(marks)
    requires SmallResults(comp)
    ensures ent == Rows(bases, marks, comp, |bases|)
  {
    ent := [];
    for i := 0 to |bases|
      invariant ent == Rows(bases, marks, comp, i)
    {
      for j := 0 to |marks|
        invariant ent == Rows(bases, marks, comp, i) + Row(bases[i], marks, comp, j)
      {
        var n := comp(bases[i], marks[j]);
        if n.Some? {
          ent := ent + [Entry(bases[i], marks[j], n.value)];
        }
      }
    }
  }

  lemma {:induction false} RowEntries(base: nat, marks: seq<nat>, comp: Composition, n: nat)
    requires n <= |marks| && SmallMarks(marks)
    requires SmallResults(comp)
    ensures Entries(Row(base, marks, comp, n), comp)
    ensures forall k :: 0 <= k < n && comp(base, marks[k]).Some? ==>
      Entry(base, marks[k], comp(base, marks[k]).value) in Row(base, marks, comp, n)
  {
    if n > 0 {
      var mark := marks[n - 1];
      RowEntries(base, marks, comp, n - 1);
      if comp(base, mark).Some? {
        EntryDecodes(base, mark, comp(base, mark).value);
        KeyDecodes(base, mark);
      }
    }
  }

  /** What the loops collect tells the truth and lists every composition of a base with a mark. */
  lemma {:induction false} RowsEntries(bases: seq<nat>, marks: seq<nat>, comp: Composition, n: nat)
    requires n <= |bases| && SmallMarks(marks)
    requires SmallResults(comp)
    ensures Entries(Rows(bases, marks, comp, n), comp)
    ensures forall i, k :: 0 <= i < n && 0 <= k < |marks| && comp(bases[i], marks[k]).Some? ==>
      Entry(bases[i], marks[k], comp(bases[i], marks[k]).value) in Rows(bases, marks, comp, n)
  {
    if n > 0 {
      RowsEntries(bases, marks, comp, n - 1);
      RowEntries(bases[n - 1], marks, comp, |marks|);
    }
  }

  // ---- the generated composition tables ----

  ghost predicate Increasing(s: seq<nat>) {
    forall i, j :: 0 <= i < j < |s| ==> s[i] < s[j]
  }

  /** A sorted list with one more element, or the same list if it has it already. */
  function Insert(s: seq<nat>, x: nat): (t: seq<nat>)
    requires Increasing(s)
    ensures Increasing(t) && forall e :: e in t <==> e in s || e == x
  {
    if s == [] then [x]
    else if x < s[0] then [x] + s
    else if x == s[0] then s
    else
      var rest := Insert(s[1..], x);
      assert forall j :: 0 <= j < |rest| ==> rest[j] in rest;
      [s[0]] + rest
  }

  /** `sorted(set(ent))` */
  function SortedSet(ent: seq<nat>): (t: seq<nat>)
    ensures Increasing(t) && forall e :: e in t <==> e in ent
  {
    if ent == [] then [] else Insert(SortedSet(ent[1..]), ent[0])
  }

  /** Stretches of `n`, the last one perhaps shorter. */
  function Chunks(ent: seq<nat>, n: nat): seq<seq<nat>>
    requires n > 0
    decreases |ent|
  {
    if ent == [] then []
    else if |ent| <= n then [ent]
    else [ent[..n]] + Chunks(ent[n..], n)
  }

  lemma {:induction false} ChunksHold(ent: seq<nat>, n: nat)
    requires n > 0
    ensures forall i, e :: 0 <= i < |Chunks(ent, n)| && e in Chunks(ent, n)[i] ==> e in ent
    ensures forall e :: e in ent ==> exists i :: 0 <= i < |Chunks(ent, n)| && e in Chunks(ent, n)[i]
    decreases |ent|
  {
    if |ent| > n {
      var rest, all := Chunks(ent[n..], n), Chunks(ent, n);
      ChunksHold(ent[n..], n);
      assert all[0] == ent[..n] && forall i :: 0 < i < |all| ==> all[i] == rest[i - 1];
      forall i, e | 0 <= i < |all| && e in all[i] ensures e in ent {
        if i > 0 {
          assert e in rest[i - 1];
          assert e in ent[n..];
        }
      }
      forall e | e in ent ensures exists i :: 0 <= i < |all| && e in all[i] {
        if e in ent[..n] {
          assert e in all[0];
        } else {
          assert e in ent[n..] by { assert ent == ent[..n] + ent[n..]; }
          var i :| 0 <= i < |rest| && e in rest[i];
          assert e in all[i + 1];
        }
      }
    } else if ent != [] {
      assert Chunks(ent, n)[0] == ent;
    }
  }

  /** The composition, for listed bases and marks only. */
  function Among(bases: seq<nat>, marks: seq<nat>, comp: Composition): Composition {
    (base, mark) => if base in bases && mark in marks then comp(base, mark) else None
  }

  lemma {:induction false} RowAmong(bases: seq<nat>, base: nat, marks: seq<nat>, comp: Composition, n: nat)
    requires n <= |marks| && SmallMarks(marks) && SmallResults(comp) && base in bases
    ensures SmallResults(Among(bases, marks, comp))
    ensures Row(base, marks, Among(bases, marks, comp), n) == Row(base, marks, comp, n)
  {
    if n > 0 {
      RowAmong(bases, base, marks, comp, n - 1);
    }
  }

  lemma {:induction false} RowsAmong(bases: seq<nat>, marks: seq<nat>, comp: Composition, n: nat)
    requires n <= |bases| && SmallMarks(marks) && SmallResults(comp)
    ensures SmallResults(Among(bases, marks, comp))
    ensures Rows(bases, marks, Among(bases, marks, comp), n) == Rows(bases, marks, comp, n)
  {
    if n > 0 {
      RowsAmong(bases, marks, comp, n - 1);
      RowAmong(bases, bases[n - 1], marks, comp, |marks|);
    }
  }

  /** The tables of 60 entries at most that the generator writes. */
  function Tables(bases: seq<nat>, marks: seq<nat>, comp: Composition): seq<seq<nat>>
    requires SmallMarks(marks) && SmallResults(comp)
  {
    Chunks(SortedSet(Rows(bases, marks, comp, |bases|)), 60)
  }

  lemma TablesEntries(bases: seq<nat>, marks: seq<nat>, comp: Composition)
    requires SmallMarks(marks) && SmallResults(comp)
    ensures var tables := Tables(bases, marks, comp);
      forall i :: 0 <= i < |tables| ==> Entries(tables[i], Among(bases, marks, comp))
  {
    hide Rows, SortedSet, Chunks, EntryOf;
    var among, ent := Among(bases, marks, comp), Rows(bases, marks, comp, |bases|);
    RowsAmong(bases, marks, comp, |bases|);
    RowsEntries(bases, marks, among, |bases|);
    ChunksHold(SortedSet(ent), 60);
    var tables := Tables(bases, marks, comp);
    forall i, k | 0 <= i < |tables| && 0 <= k < |tables[i]| ensures EntryOf(tables[i][k], among) {
      assert tables[i][k] in tables[i];
      assert tables[i][k] in ent;
    }
  }

  lemma TablesList(bases: seq<nat>, marks: seq<nat>, comp: Composition, base: nat, mark: nat)
    requires SmallMarks(marks) && SmallResults(comp)
    ensures Listed(Tables(bases, marks, comp), Among(bases, marks, comp), base, mark)
  {
    hide Rows, SortedSet, Chunks, Entry;
    var among, ent := Among(bases, marks, comp), Rows(bases, marks, comp, |bases|);
    RowsAmong(bases, marks, comp, |bases|);
    RowsEntries(bases, marks, among, |bases|);
    ChunksHold(SortedSet(ent), 60);
    if among(base, mark).Some? {
      var i :| 0 <= i < |bases| && bases[i] == base;
      var k :| 0 <= k < |marks| && marks[k] == mark;
      assert Entry(bases[i], marks[k], among(bases[i], marks[k]).value) in ent;
    }
  }

  /** From the collected entries to the lookup: for every base and every mark of 14 bits, the lookup in the generated
    tables is the composition of a listed base with a listed mark, and -1 everywhere else. */
  lemma TablesDecode(bases: seq<nat>, marks: seq<nat>, comp: Composition, base: nat, mark: nat)
    requires SmallMarks(marks) && SmallResults(comp) && mark < 0x4000
    ensures Find(Tables(bases, marks, comp), base, mark)
            == if base in bases && mark in marks && comp(base, mark).Some? then comp(base, mark).value else -1
  {
    hide Tables, Find, Listed;
    TablesEntries(bases, marks, comp);
    TablesList(bases, marks, comp, base, mark);
    FindIsComposition(Tables(bases, marks, comp), Among(bases, marks, comp), base, mark);
  }

  lemma OneChunk(ent: seq<nat>, i: nat, next: nat)
    requires i < |ent| && next == if i + 60 < |ent| then i + 60 else |ent|
    ensures Chunks(ent[i..], 60) == [ent[i..next]] + Chunks(ent[next..], 60)
  {
    assert ent[i..][..next - i] == ent[i..next] && ent[i..][next - i..] == ent[next..];
    if next == |ent| {
      assert ent[i..] == ent[i..next] && Chunks(ent[next..], 60) == [];
    }
  }

  lemma NoChunks()
    ensures Chunks([], 60) == []
  {
  }

  /** The generator: collect, sort without repetitions, cut into tables. */
  method GenerateTables(bases: seq<nat>, marks: seq<nat>, comp: Composition) returns (tables: seq<seq<nat>>)
    requires SmallMarks(marks) && SmallResults(comp)
    ensures tables == Tables(bases, marks, comp)
    ensures forall i :: 0 <= i < |tables| ==> 0 < |tables[i]| <= 60
  {
    hide Chunks, Rows;
    var collected := Collect(bases, marks, comp);
    var ent := SortedSet(collected);
    tables := [];
    var i := 0;
    assert ent[0..] == ent;
    while i < |ent|
      invariant 0 <= i <= |ent|
      invariant tables + Chunks(ent[i..], 60) == Chunks(ent, 60)
      invariant forall k :: 0 <= k < |tables| ==> 0 < |tables[k]| <= 60
    {
      var next := if i + 60 < |ent| then i + 60 else |ent|;
      OneChunk(ent, i, next);
      tables := tables + [ent[i..next]];
      i := next;
    }
    assert ent[i..] == [];
    NoChunks();
  }
}
