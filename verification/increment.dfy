/** Numbers in names: fixed-width increments and "{i}" (tester/profile/increment.go). */
module Increment {
  import opened Basics
  import opened GoStrings

  function DigitChar(d: int): (c: char)
    requires 0 <= d < 16
  {
    if d < 10 then '0' + d as char else 'a' + (d - 10) as char
  }

  /** The digit a character stands for; letters in either case. */
  function CharDigit(c: char): (d: int)
    ensures -1 <= d < 16
  {
    if '0' <= c <= '9' then c as int - '0' as int
    else if 'a' <= c <= 'f' then c as int - 'a' as int + 10
    else if 'A' <= c <= 'F' then c as int - 'A' as int + 10
    else -1
  }

  /** The two bases, with products and quotients by them. */
  datatype Base = Dec | Hex {
    function Size(): int { if Dec? then 10 else 16 }

    function Times(n: int): int { if Dec? then n * 10 else n * 16 }

    function Over(n: nat): nat { if Dec? then n / 10 else n / 16 }

    function Rest(n: nat): nat { if Dec? then n % 10 else n % 16 }
  }

  predicate Digits(s: string, base: Base) { forall k :: 0 <= k < |s| ==> 0 <= CharDigit(s[k]) < base.Size() }

  function Value(s: string, base: Base): (n: nat)
    requires Digits(s, base)
  {
    if s == "" then 0 else base.Times(Value(s[..|s| - 1], base)) + CharDigit(s[|s| - 1])
  }

  /** The number in the base, without leading zeros. */
  function Format(n: nat, base: Base): (s: string)
    ensures |s| > 0 && Digits(s, base)
    decreases n
  {
    if n < base.Size() then [DigitChar(n)] else Format(base.Over(n), base) + [DigitChar(base.Rest(n))]
  }

  function Zeros(k: nat): string { seq(k, i => '0') }

  /** %0*x and %0*s: zeros in front up to the width. */
  function Padded(s: string, width: nat): string { if |s| < width then Zeros(width - |s|) + s else s }

  /** IncrementHex and IncrementDecimal. */
  function Incremented(start: string, step: nat, base: Base): Option<string> {
    if start == "" || !Digits(start, base) || (base.Hex? && |start| % 2 != 0) then None
    else
      var out := Padded(Format(Value(start, base) + step, base), |start|);
      if |out| > |start| then None else Some(out)
  }

  function Pow(base: Base, k: nat): (p: int)
    ensures p >= 1
  {
    if k == 0 then 1 else base.Times(Pow(base, k - 1))
  }

  lemma DigitStands(d: int)
    requires 0 <= d < 16
    ensures CharDigit(DigitChar(d)) == d
  {
  }

  lemma OverRest(n: nat, base: Base)
    ensures base.Times(base.Over(n)) + base.Rest(n) == n && 0 <= base.Rest(n) < base.Size() <= 16
    ensures n >= base.Size() ==> base.Over(n) < n
  {
  }

  lemma LastDigit(front: string, d: int, base: Base)
    requires Digits(front, base) && 0 <= d < base.Size()
    ensures var s := front + [DigitChar(d)];
            Digits(s, base) && Value(s, base) == base.Times(Value(front, base)) + d
  {
    DigitStands(d);
    assert (front + [DigitChar(d)])[..|front|] == front;
    hide CharDigit, DigitChar, Base.Times;
  }

  lemma {:induction false} ValueFormat(n: nat, base: Base)
    ensures Value(Format(n, base), base) == n
    decreases n
  {
    OverRest(n, base);
    hide Value, CharDigit, DigitChar, Base.Times, Base.Over, Base.Rest, Digits;
    if n >= base.Size() {
      ValueFormat(base.Over(n), base);
      LastDigit(Format(base.Over(n), base), base.Rest(n), base);
    } else {
      OneDigit(n, base);
    }
  }

  lemma OneDigit(n: nat, base: Base)
    requires n < base.Size()
    ensures Digits([DigitChar(n)], base) && Value([DigitChar(n)], base) == n
  {
    LastDigit("", n, base);
    assert "" + [DigitChar(n)] == [DigitChar(n)];
  }

  lemma {:induction false} ValueZeros(k: nat, s: string, base: Base)
    requires Digits(s, base)
    ensures Digits(Zeros(k) + s, base) && Value(Zeros(k) + s, base) == Value(s, base)
    decreases |s|, k
  {
    var t := Zeros(k) + s;
    if s != "" {
      ValueZeros(k, s[..|s| - 1], base);
      assert t[..|t| - 1] == Zeros(k) + s[..|s| - 1];
    } else if k > 0 {
      ValueZeros(k - 1, "", base);
      assert t[..k - 1] == Zeros(k - 1) + "";
    }
  }

  /** Formatting takes no more than w digits exactly below the base to the w. */
  lemma {:induction false} FormatWidth(n: nat, base: Base, w: nat)
    requires w >= 1
    ensures |Format(n, base)| <= w <==> n < Pow(base, w)
    decreases w
  {
    if w == 1 {
      assert Pow(base, 0) == 1;
      assert n >= base.Size() ==> |Format(n, base)| >= 2;
    } else {
      FormatWidth(base.Over(n), base, w - 1);
    }
  }

  lemma PaddedValue(s: string, width: nat, base: Base)
    requires Digits(s, base)
    ensures |Padded(s, width)| == (if |s| < width then width else |s|)
    ensures Digits(Padded(s, width), base) && Value(Padded(s, width), base) == Value(s, base)
  {
    if |s| < width {
      ValueZeros(width - |s|, s, base);
    }
  }

  /**
   * The increment adds: the result has the start's width, and its value is the sum; it fails exactly
   * when that does not fit.
   */
  lemma IncrementAdds(start: string, step: nat, base: Base)
    requires start != "" && Digits(start, base) && (base.Hex? ==> |start| % 2 == 0)
    ensures Incremented(start, step, base).Some? <==> Value(start, base) + step < Pow(base, |start|)
    ensures Incremented(start, step, base).Some? ==>
              var out := Incremented(start, step, base).value;
              |out| == |start| && Digits(out, base) && Value(out, base) == Value(start, base) + step
  {
    hide Value, Format, Pow, Padded, Base.Size, Digits;
    var n := Value(start, base) + step;
    FormatWidth(n, base, |start|);
    ValueFormat(n, base);
    PaddedValue(Format(n, base), |start|, base);
  }

  /** If the last of a run of increments fits, all of them do, and they are all different. */
  lemma AllIncrements(start: string, last: nat, base: Base, j: nat, k: nat)
    requires Incremented(start, last, base).Some? && j <= last && k <= last
    ensures Incremented(start, j, base).Some? && Incremented(start, k, base).Some?
    ensures j != k ==> Incremented(start, j, base) != Incremented(start, k, base)
  {
    IncrementAdds(start, last, base);
    IncrementAdds(start, j, base);
    IncrementAdds(start, k, base);
  }

  // ---------------------------------------------------------------- names

  /** The pattern cut at every "{i}". */
  function Pieces(pattern: string): (p: seq<string>)
    ensures |p| > 0
    decreases |pattern|
  {
    if pattern == "" then [""]
    else if |pattern| >= 3 && pattern[..3] == "{i}" then [""] + Pieces(pattern[3..])
    else
      var rest := Pieces(pattern[1..]);
      [[pattern[0]] + rest[0]] + rest[1..]
  }

  /** The pieces with x between them. */
  function Filled(pieces: seq<string>, x: string): string
    requires |pieces| > 0
  {
    if |pieces| == 1 then pieces[0] else pieces[0] + x + Filled(pieces[1..], x)
  }

  function RenderName(pattern: string, index: nat): string { Filled(Pieces(pattern), Itoa(index)) }

  function Lengths(pieces: seq<string>): nat { if pieces == [] then 0 else |pieces[0]| + Lengths(pieces[1..]) }

  lemma {:induction false} FilledLength(pieces: seq<string>, x: string)
    requires |pieces| > 0
    ensures |Filled(pieces, x)| == Lengths(pieces) + (|pieces| - 1) * |x|
    decreases |pieces|
  {
    if |pieces| > 1 {
      FilledLength(pieces[1..], x);
      assert (|pieces| - 1) * |x| == |x| + (|pieces[1..]| - 1) * |x|;
    }
  }

  lemma ItoaDistinct(i: nat, j: nat)
    requires i != j
    ensures Itoa(i) != Itoa(j)
  {
    AtoiItoa(i);
    AtoiItoa(j);
  }

  /** With "{i}" in the pattern, names of different indexes are different. */
  lemma NamesDistinct(pattern: string, i: nat, j: nat)
    requires |Pieces(pattern)| > 1 && i != j
    ensures RenderName(pattern, i) != RenderName(pattern, j)
  {
    var ps := Pieces(pattern);
    var x, y := Itoa(i), Itoa(j);
    FilledLength(ps, x);
    FilledLength(ps, y);
    ItoaDistinct(i, j);
    if |x| == |y| {
      var a, b := Filled(ps, x), Filled(ps, y);
      var n := |ps[0]|;
      assert a[n..n + |x|] == x && b[n..n + |y|] == y;
    } else {
      LengthsDiffer(|ps| - 1, |x|, |y|);
    }
  }

  lemma LengthsDiffer(k: int, a: int, b: int)
    requires k >= 1 && a != b
    ensures k * a != k * b
  {
    assert k * (a - b) != 0;
  }

  predicate IndexAt(pattern: string, k: int) { 0 <= k <= |pattern| - 3 && pattern[k..k + 3] == "{i}" }

  /** A pattern has more than one piece exactly when it contains "{i}". */
  lemma {:induction false} HasIndex(pattern: string)
    ensures |Pieces(pattern)| > 1 <==> exists k :: IndexAt(pattern, k)
    decreases |pattern|
  {
    if |pattern| >= 3 && pattern[..3] == "{i}" {
      assert IndexAt(pattern, 0);
    } else if pattern != "" {
      var rest := pattern[1..];
      HasIndex(rest);
      forall k | IndexAt(rest, k) ensures IndexAt(pattern, k + 1) {
        assert pattern[k + 1..k + 1 + 3] == rest[k..k + 3];
      }
      forall k | IndexAt(pattern, k) ensures IndexAt(rest, k - 1) {
        assert k > 0;
        assert pattern[k..k + 3] == rest[k - 1..k - 1 + 3];
      }
      assert |Pieces(pattern)| == |Pieces(rest)|;
    }
  }
}
