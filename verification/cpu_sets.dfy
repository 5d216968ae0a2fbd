/** CPU lists such as "0-3,8" and the split of CPUs between control and data plane (tester/cpuset/cpuset.go). */
module CpuSets {
  import opened Basics
  import opened GoStrings

  const MaxCpus := 1024

  // ---------------------------------------------------------- sorted lists

  function Insert(l: seq<int>, x: int): seq<int> {
    if l == [] || x < l[0] then [x] + l
    else if x == l[0] then l
    else [l[0]] + Insert(l[1..], x)
  }

  /** slices.Sort, then slices.Compact. */
  function Canon(l: seq<int>): seq<int> { if l == [] then [] else Insert(Canon(l[..|l| - 1]), l[|l| - 1]) }

  lemma {:induction false} InsertOk(l: seq<int>, x: int)
    requires Increasing(l)
    ensures Increasing(Insert(l, x)) && forall y :: y in Insert(l, x) <==> y in l || y == x
  {
    if l != [] && x > l[0] {
      InsertOk(l[1..], x);
      var r := Insert(l[1..], x);
      assert l == [l[0]] + l[1..];
      forall y | y in r ensures l[0] < y {
        if y in l[1..] {
          var k :| 0 <= k < |l[1..]| && l[1..][k] == y;
          assert l[k + 1] == y;
        }
      }
      forall i, j | 0 <= i < j < |[l[0]] + r| ensures ([l[0]] + r)[i] < ([l[0]] + r)[j] {
        assert r[j - 1] in r;
      }
    } else if l != [] && x < l[0] {
      forall i, j | 0 <= i < j < |[x] + l| ensures ([x] + l)[i] < ([x] + l)[j] {
        if i == 0 && j > 1 {
          assert l[0] < l[j - 1];
        }
      }
    }
  }

  /** Canon gives the sorted list without duplicates of the same elements. */
  lemma {:induction false} CanonOk(l: seq<int>)
    ensures Increasing(Canon(l)) && forall y :: y in Canon(l) <==> y in l
  {
    if l != [] {
      CanonOk(l[..|l| - 1]);
      InsertOk(Canon(l[..|l| - 1]), l[|l| - 1]);
      assert l == l[..|l| - 1] + [l[|l| - 1]];
    }
  }

  /** There is only one such list. */
  lemma {:induction false} OneSorted(a: seq<int>, b: seq<int>)
    requires Increasing(a) && Increasing(b) && forall y :: y in a <==> y in b
    ensures a == b
    decreases |a|
  {
    assert a != [] ==> a[0] in a;
    assert b != [] ==> b[0] in b;
    if a != [] && b != [] {
      assert a[0] in b && b[0] in a;
      assert a[0] == b[0];
      forall y ensures y in a[1..] <==> y in b[1..] {
        if y in a[1..] {
          var k :| 0 <= k < |a[1..]| && a[1..][k] == y;
          assert a[k + 1] == y && y in b && y > a[0];
        }
        if y in b[1..] {
          var k :| 0 <= k < |b[1..]| && b[1..][k] == y;
          assert b[k + 1] == y && y in a && y > b[0];
        }
      }
      OneSorted(a[1..], b[1..]);
      assert a == [a[0]] + a[1..] && b == [b[0]] + b[1..];
    }
  }

  lemma CanonKeeps(l: seq<int>)
    requires Increasing(l)
    ensures Canon(l) == l
  {
    CanonOk(l);
    OneSorted(Canon(l), l);
  }

  /** Numbers of CPUs a process can have. */
  predicate Cpus(l: seq<int>) { forall k :: 0 <= k < |l| ==> 0 <= l[k] < MaxCpus }

  // ------------------------------------------------------------- parsing

  function Range(a: int, b: int): (r: seq<int>)
    ensures forall x :: x in r <==> a <= x <= b
    ensures |r| == if a <= b then b - a + 1 else 0
    ensures forall k :: 0 <= k < |r| ==> r[k] == a + k
    decreases b - a
  {
    if a > b then [] else Range(a, b - 1) + [b]
  }

  /** One part of a list: a number or a range of numbers a process can have. */
  function ParsePart(part: string): Option<(int, int)> {
    var (lo, hi, isRange) := Cut(TrimSpace(part), '-');
    match Atoi(TrimSpace(lo))
    case None => None
    case Some(a) =>
      if a < 0 then None
      else
        match (if isRange then Atoi(TrimSpace(hi)) else Some(a))
        case None => None
        case Some(b) => if b < a || b >= MaxCpus then None else Some((a, b))
  }

  function Listed(parts: seq<string>): Option<seq<int>> {
    if parts == [] then Some([])
    else
      match Listed(parts[..|parts| - 1])
      case None => None
      case Some(l) =>
        match ParsePart(parts[|parts| - 1])
        case None => None
        case Some(r) => Some(l + Range(r.0, r.1))
  }

  function Parse(s: string): Option<seq<int>> {
    var t := TrimSpace(s);
    if t == "" then Some([])
    else
      match Listed(Split(t, ','))
      case None => None
      case Some(l) => Some(Canon(l))
  }

  /** Parse's loops. */
  method ParseList(s: string) returns (r: Option<seq<int>>)
    ensures r == Parse(s)
  {
    var t := TrimSpace(s);
    if t == "" {
      return Some([]);
    }
    hide ParsePart, TrimSpace, Split, Canon;
    var out: seq<int> := [];
    var parts := Split(t, ',');
    for i := 0 to |parts|
      invariant Listed(parts[..i]) == Some(out)
    {
      assert parts[..i + 1][..i] == parts[..i];
      var range := ParsePart(parts[i]);
      if range.None? {
        NotListed(parts, i);
        return None;
      }
      out := AppendRange(out, range.value.0, range.value.1);
    }
    assert parts[..|parts|] == parts;
    r := Some(Canon(out));
  }

  /** Parse's inner loop. */
  method AppendRange(l: seq<int>, a: int, b: int) returns (out: seq<int>)
    ensures out == l + Range(a, b)
  {
    out := l;
    var c := a;
    while c <= b
      invariant (c == a || c <= b + 1) && out == l + Range(a, c - 1)
    {
      out := out + [c];
      c := c + 1;
    }
    if c == a && b < a {
      assert Range(a, b) == [] == Range(a, a - 1);
    }
  }

  lemma {:induction false} NotListed(parts: seq<string>, i: nat)
    requires i < |parts| && ParsePart(parts[i]).None?
    ensures Listed(parts).None?
  {
    hide ParsePart;
    if i < |parts| - 1 {
      NotListed(parts[..|parts| - 1], i);
    }
  }

  /** What parses is sorted, without duplicates, and all CPU numbers a process can have. */
  lemma ParsedIsCanonical(s: string)
    ensures Parse(s).Some? ==> Increasing(Parse(s).value) && Cpus(Parse(s).value)
  {
    var t := TrimSpace(s);
    if t != "" && Listed(Split(t, ',')).Some? {
      var l := Listed(Split(t, ',')).value;
      ListedInRange(Split(t, ','));
      CanonOk(l);
      forall k | 0 <= k < |Canon(l)| ensures 0 <= Canon(l)[k] < MaxCpus {
        assert Canon(l)[k] in l;
      }
    }
  }

  lemma {:induction false} ListedInRange(parts: seq<string>)
    ensures Listed(parts).Some? ==> Cpus(Listed(parts).value)
  {
    if parts != [] {
      ListedInRange(parts[..|parts| - 1]);
      hide Cut, TrimSpace, Atoi;
    }
  }

  // ------------------------------------------------------------- printing

  /** The length of the run of consecutive numbers l starts with. */
  function RunLength(l: seq<int>): (n: nat)
    requires l != []
    ensures 1 <= n <= |l| && forall k :: 0 <= k < n ==> l[k] == l[0] + k
  {
    if |l| > 1 && l[1] == l[0] + 1 then 1 + RunLength(l[1..]) else 1
  }

  function RunText(a: int, n: nat): string
    requires a >= 0 && n >= 1
  {
    if n == 1 then Itoa(a) else Itoa(a) + "-" + Itoa(a + n - 1)
  }

  /** One part for each run, in the list's order. */
  function Parts(l: seq<int>): seq<string>
    requires Cpus(l)
    decreases |l|
  {
    if l == [] then []
    else
      var n := RunLength(l);
      [RunText(l[0], n)] + Parts(l[n..])
  }

  function TextOf(l: seq<int>): string
    requires Cpus(l)
  {
    Join(Parts(l), ',')
  }

  method RunEnd(l: seq<int>, i: nat) returns (j: nat)
    requires i < |l|
    ensures i <= j < |l| && RunLength(l[i..]) == j - i + 1 && l[j] == l[i] + (j - i)
  {
    j := i;
    while j + 1 < |l| && l[j + 1] == l[j] + 1
      invariant i <= j < |l| && l[j] == l[i] + (j - i) && RunLength(l[i..]) == (j - i) + RunLength(l[j..])
      decreases |l| - j
    {
      assert l[j..][1..] == l[j + 1..];
      j := j + 1;
    }
  }

  /** String's loops. */
  method Print(l: seq<int>) returns (s: string)
    requires Cpus(l)
    ensures s == TextOf(l)
  {
    hide Parts, RunLength, Itoa, Join;
    var parts: seq<string> := [];
    var i := 0;
    assert l[0..] == l;
    while i < |l|
      invariant 0 <= i <= |l| && parts + Parts(l[i..]) == Parts(l)
    {
      var j := RunEnd(l, i);
      PartsStep(l, i, j);
      ghost var before := parts;
      var part := if j == i then Itoa(l[i]) else Itoa(l[i]) + "-" + Itoa(l[j]);
      parts := parts + [part];
      assert part == RunText(l[i], j - i + 1);
      hide RunText;
      assert before + ([part] + Parts(l[j + 1..])) == parts + Parts(l[j + 1..]);
      i := j + 1;
    }
    assert l[i..] == [];
    NoParts();
    assert parts + [] == parts;
    s := Join(parts, ',');
  }

  lemma NoParts()
    ensures Parts([]) == []
  {
  }

  lemma PartsStep(l: seq<int>, i: nat, j: nat)
    requires Cpus(l) && i <= j < |l| && RunLength(l[i..]) == j - i + 1
    ensures Parts(l[i..]) == [RunText(l[i], j - i + 1)] + Parts(l[j + 1..])
  {
    assert l[i..][j - i + 1..] == l[j + 1..];
  }

  predicate Plain(s: string) { s != "" && !IsSpace(s[0]) && !IsSpace(s[|s| - 1]) && ',' !in s }

  lemma DigitsPlain(s: string)
    requires AllDigits(s) && s != ""
    ensures Plain(s) && '-' !in s && TrimSpace(s) == s
  {
    DigitNoSpace(s[0]);
    DigitNoSpace(s[|s| - 1]);
    TrimNone(s);
  }

  /** A printed run reads back as that run. */
  lemma RunReadsBack(a: int, n: nat)
    requires a >= 0 && n >= 1 && a + n - 1 < MaxCpus
    ensures Plain(RunText(a, n)) && ParsePart(RunText(a, n)) == Some((a, a + n - 1))
  {
    hide Atoi, Itoa, AllDigits, Plain, TrimSpace, ParsePart;
    var x, y := Itoa(a), Itoa(a + n - 1);
    AtoiItoa(a);
    AtoiItoa(a + n - 1);
    DigitsPlain(x);
    DigitsPlain(y);
    if n == 1 {
      NumberParses(x, a);
    } else {
      assert x + "-" + y == x + ['-'] + y;
      RangeParses(x, y, a, a + n - 1);
    }
  }

  lemma NumberParses(x: string, a: int)
    requires TrimSpace(x) == x && '-' !in x && Atoi(x) == Some(a) && 0 <= a < MaxCpus
    ensures ParsePart(x) == Some((a, a))
  {
    hide Atoi, TrimSpace, Cut;
    CutNone(x, '-');
  }

  lemma RangeParses(x: string, y: string, a: int, b: int)
    requires Plain(x) && Plain(y) && '-' !in x && TrimSpace(x) == x && TrimSpace(y) == y
    requires Atoi(x) == Some(a) && Atoi(y) == Some(b) && 0 <= a <= b < MaxCpus
    ensures Plain(x + ['-'] + y) && ParsePart(x + ['-'] + y) == Some((a, b))
  {
    var part := x + ['-'] + y;
    assert Plain(part) by {
      hide IsSpace;
    }
    TrimNone(part);
    CutFirst(x, y, '-');
    hide Atoi, TrimSpace, Cut, Plain, IsSpace;
  }

  lemma {:induction false} PartsReadBack(l: seq<int>)
    requires Cpus(l)
    ensures l != [] ==> |Parts(l)| > 0
    ensures forall k :: 0 <= k < |Parts(l)| ==> Plain(Parts(l)[k])
    ensures Ranges(Parts(l), l)
    decreases |l|
  {
    hide Plain, RunText, ParsePart, RunLength, Range, Parts, Ranges;
    if l == [] {
      NoParts();
      NoRanges();
    } else {
      var n := RunLength(l);
      assert l[n - 1] == l[0] + n - 1;
      RunReadsBack(l[0], n);
      PartsReadBack(l[n..]);
      FirstRun(l, n);
      assert l[0..] == l;
      PartsStep(l, 0, n - 1);
      OneRange(RunText(l[0], n), Parts(l[n..]), l, n);
    }
  }

  lemma NoRanges()
    ensures Ranges([], [])
  {
  }

  lemma OneRange(first: string, rest: seq<string>, l: seq<int>, n: nat)
    requires 1 <= n <= |l| && ParsePart(first) == Some((l[0], l[0] + n - 1))
    requires Range(l[0], l[0] + n - 1) == l[..n] && Ranges(rest, l[n..])
    ensures Ranges([first] + rest, l)
  {
    hide ParsePart, Range;
    assert ([first] + rest)[1..] == rest;
  }

  lemma FirstRun(l: seq<int>, n: nat)
    requires 1 <= n <= |l| && forall k :: 0 <= k < n ==> l[k] == l[0] + k
    ensures Range(l[0], l[0] + n - 1) == l[..n]
  {
  }

  /** The parts are ranges that give l, one after the other. */
  ghost predicate Ranges(parts: seq<string>, l: seq<int>)
    decreases |parts|
  {
    if parts == [] then l == []
    else
      match ParsePart(parts[0])
      case None => false
      case Some(r) =>
        var first := Range(r.0, r.1);
        first <= l && Ranges(parts[1..], l[|first|..])
  }

  lemma OneListed(done: seq<string>, before: seq<int>, part: string)
    requires Listed(done) == Some(before) && ParsePart(part).Some?
    ensures var r := ParsePart(part).value;
            Listed(done + [part]) == Some(before + Range(r.0, r.1))
  {
    hide ParsePart, Range;
    assert (done + [part])[..|done|] == done;
  }

  lemma {:induction false} RangesListed(done: seq<string>, before: seq<int>, parts: seq<string>, l: seq<int>)
    requires Listed(done) == Some(before) && Ranges(parts, l)
    ensures Listed(done + parts) == Some(before + l)
    decreases |parts|
  {
    hide ParsePart, Listed, Range;
    if parts == [] {
      assert done + parts == done && before + l == before;
    } else {
      var r := ParsePart(parts[0]).value;
      var first := Range(r.0, r.1);
      OneListed(done, before, parts[0]);
      RangesListed(done + [parts[0]], before + first, parts[1..], l[|first|..]);
      assert done + [parts[0]] + parts[1..] == done + parts;
      assert before + first + l[|first|..] == before + l;
    }
  }

  /** Whatever list of CPU numbers is printed, sorted or not, it reads back as the sorted list without duplicates. */
  lemma PrintedReadsBack(l: seq<int>)
    requires Cpus(l)
    ensures Parse(TextOf(l)) == Some(Canon(l))
  {
    if l == [] {
      assert TextOf(l) == "";
    } else {
      var parts := Parts(l);
      PartsReadBack(l);
      JoinPlain(parts);
      TrimNone(TextOf(l));
      SplitJoin(parts, ',');
      RangesListed([], [], parts, l);
      assert [] + parts == parts && [] + l == l;
    }
  }

  lemma {:induction false} JoinPlain(parts: seq<string>)
    requires |parts| > 0 && forall k :: 0 <= k < |parts| ==> Plain(parts[k])
    ensures var s := Join(parts, ','); s != "" && !IsSpace(s[0]) && !IsSpace(s[|s| - 1])
  {
    hide IsSpace;
    if |parts| > 1 {
      JoinPlain(parts[1..]);
    }
  }

  // ----------------------------------------------------------- allocations

  /** Canonical, for one side: what does not parse becomes no restriction. */
  function Canonical(s: string): string {
    ParsedIsCanonical(s);
    match Parse(s) case None => "" case Some(l) => TextOf(l)
  }

  /** A canonical list stays as it is, and says the same CPUs. */
  lemma CanonicalIsStable(s: string)
    ensures Canonical(Canonical(s)) == Canonical(s)
    ensures Parse(s).Some? ==> Parse(Canonical(s)) == Parse(s)
  {
    ParsedIsCanonical(s);
    if Parse(s).Some? {
      var l := Parse(s).value;
      PrintedReadsBack(l);
      CanonKeeps(l);
    }
  }

  method Minus(s: seq<int>, o: seq<int>) returns (out: seq<int>)
    ensures forall x :: x in out <==> x in s && x !in o
    ensures Increasing(s) ==> Increasing(out)
  {
    out := [];
    for i := 0 to |s|
      invariant forall x :: x in out <==> x in s[..i] && x !in o
      invariant Increasing(s) ==> Increasing(out)
    {
      assert s[..i + 1] == s[..i] + [s[i]];
      if s[i] !in o {
        forall k | 0 <= k < |out| && Increasing(s) ensures out[k] < s[i] {
          assert out[k] in out;
        }
        out := out + [s[i]];
      }
    }
    assert s[..|s|] == s;
  }

  method Overlap(s: seq<int>, o: seq<int>) returns (out: seq<int>)
    ensures forall x :: x in out <==> x in s && x in o
    ensures Increasing(s) ==> Increasing(out)
  {
    out := [];
    for i := 0 to |s|
      invariant forall x :: x in out <==> x in s[..i] && x in o
      invariant Increasing(s) ==> Increasing(out)
    {
      assert s[..i + 1] == s[..i] + [s[i]];
      if s[i] in o {
        forall k | 0 <= k < |out| && Increasing(s) ensures out[k] < s[i] {
          assert out[k] in out;
        }
        out := out + [s[i]];
      }
    }
    assert s[..|s|] == s;
  }

  predicate Within(s: seq<int>, allowed: seq<int>) { forall x :: x in s ==> x in allowed }

  predicate Apart(s: seq<int>, o: seq<int>) { forall x :: x in s ==> x !in o }

  datatype Side = Cp | Dp

  datatype FieldError = Unparsed(side: Side) | NotAllowed(side: Side, cpus: seq<int>) | Shared(cpus: seq<int>)

  /** One side's errors: its list does not parse, or it names CPUs that are not allowed, and these. */
  ghost predicate SideErrors(side: Side, text: string, allowed: seq<int>, errs: seq<FieldError>) {
    match Parse(text)
    case None => errs == [Unparsed(side)]
    case Some(s) =>
      if Within(s, allowed) then errs == []
      else
        |errs| == 1 && errs[0].NotAllowed? && errs[0].side == side
        && Increasing(errs[0].cpus) && forall x :: x in errs[0].cpus <==> x in s && x !in allowed
  }

  /** What cpText and dpText share is reported only when neither has an error of its own. */
  ghost predicate Reported(cpText: string, dpText: string, allowed: seq<int>, errs: seq<FieldError>) {
    exists e, f :: SideErrors(Cp, cpText, allowed, e) && SideErrors(Dp, dpText, allowed, f) &&
      if e != [] || f != [] then errs == e + f
      else if Apart(Parse(cpText).value, Parse(dpText).value) then errs == []
      else
        |errs| == 1 && errs[0].Shared? && Increasing(errs[0].cpus)
        && forall x :: x in errs[0].cpus <==> x in Parse(cpText).value && x in Parse(dpText).value
  }

  method CheckSide(side: Side, text: string, allowed: seq<int>) returns (s: seq<int>, errs: seq<FieldError>)
    ensures SideErrors(side, text, allowed, errs)
    ensures Parse(text) == Some(s) || (Parse(text).None? && s == [])
  {
    ParsedIsCanonical(text);
    hide Parse;
    s, errs := [], [];
    var parsed := ParseList(text);
    if parsed.None? {
      return [], [Unparsed(side)];
    }
    s := parsed.value;
    var bad := Minus(s, allowed);
    if |bad| > 0 {
      ghost var x := bad[0];
      assert x in bad;
      assert x in s;
      assert x !in allowed;
      errs := [NotAllowed(side, bad)];
    }
  }

  /** Check finds no error exactly when both lists parse, name allowed CPUs only, and share none. */
  method Check(cpText: string, dpText: string, allowed: seq<int>)
    returns (cp: seq<int>, dp: seq<int>, errs: seq<FieldError>)
    ensures errs == [] <==>
              Parse(cpText).Some? && Parse(dpText).Some?
              && Within(Parse(cpText).value, allowed) && Within(Parse(dpText).value, allowed)
              && Apart(Parse(cpText).value, Parse(dpText).value)
    ensures errs == [] ==> Some(cp) == Parse(cpText) && Some(dp) == Parse(dpText)
    ensures Reported(cpText, dpText, allowed, errs)
  {
    ParsedIsCanonical(cpText);
    hide Parse;
    var e: seq<FieldError>, f: seq<FieldError>;
    cp, e := CheckSide(Cp, cpText, allowed);
    dp, f := CheckSide(Dp, dpText, allowed);
    errs := e + f;
    var both := Overlap(cp, dp);
    if |both| > 0 {
      ghost var x := both[0];
      assert x in both;
      assert x in cp;
      assert x in dp;
    }
    if |errs| == 0 && |both| > 0 {
      errs := errs + [Shared(both)];
    }
    assert SideErrors(Cp, cpText, allowed, e) && SideErrors(Dp, dpText, allowed, f);
  }
}
