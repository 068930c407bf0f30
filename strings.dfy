/**
 * The pieces of Python's `str` behaviour that the modelled code relies on:
 * substring tests, `startswith`, `rpartition`, `strip`, `splitlines`,
 * `str.join`, slicing with `[:n]`, and the conversions `int(s)` and `str(n)`.
 */
module Strings {
  import opened Wrappers

  /** Python truthiness of an optional string: present and non-empty. */
  predicate Truthy(o: Option<string>) {
    o.Some? && o.value != ""
  }

  /** `s.startswith(p)` */
  predicate StartsWith(s: string, p: string) {
    |p| <= |s| && s[..|p|] == p
  }

  /** `t` occurs in `s` starting at index `i`. */
  predicate OccursAt(s: string, t: string, i: int) {
    0 <= i && i + |t| <= |s| && s[i..i + |t|] == t
  }

  /** `t in s` for two strings (a substring test). */
  predicate Contains(s: string, t: string)
    decreases |s|
  {
    StartsWith(s, t) || (s != [] && Contains(s[1..], t))
  }

  /** The scanning definition of `Contains` agrees with "occurs at some index". */
  lemma {:induction false} ContainsIff(s: string, t: string)
    ensures Contains(s, t) <==> exists i :: OccursAt(s, t, i)
    decreases |s|
  {
    if StartsWith(s, t) {
      assert OccursAt(s, t, 0);
    } else if s != [] {
      ContainsIff(s[1..], t);
      if i :| OccursAt(s, t, i) {
        assert i != 0;
        assert s[1..][i - 1..i - 1 + |t|] == s[i..i + |t|];
        assert OccursAt(s[1..], t, i - 1);
      }
      if i :| OccursAt(s[1..], t, i) {
        assert s[1..][i..i + |t|] == s[i + 1..i + 1 + |t|];
        assert OccursAt(s, t, i + 1);
      }
    }
  }

  /** `s[:n]` for a non-negative `n`. */
  function Take(s: string, n: nat): (r: string)
    ensures |r| == if |s| <= n then |s| else n
    ensures StartsWith(s, r)
  {
    if |s| <= n then s else s[..n]
  }

  // ---------------------------------------------------------------------
  // rpartition

  /** The triple returned by `str.rpartition`. */
  datatype Partition = Partition(head: string, sep: string, tail: string)

  /** Index of the last `c` in `s`, or -1 when there is none (`s.rfind(c)`). */
  function LastIndexOf(s: string, c: char): (r: int)
    ensures -1 <= r < |s|
    ensures r == -1 <==> c !in s
    ensures r >= 0 ==> s[r] == c && c !in s[r + 1..]
  {
    if s == [] then -1
    else if s[|s| - 1] == c then |s| - 1
    else
      var r := LastIndexOf(s[..|s| - 1], c);
      assert s == s[..|s| - 1] + [s[|s| - 1]];
      r
  }

  /** `s.rpartition(c)` for a one-character separator. */
  function RPartition(s: string, c: char): (p: Partition)
    ensures c in s ==> p.sep == [c] && s == p.head + [c] + p.tail && c !in p.tail
    ensures c !in s ==> p == Partition("", "", s)
  {
    var i := LastIndexOf(s, c);
    if i < 0 then Partition("", "", s)
    else
      assert s == s[..i] + [c] + s[i + 1..];
      Partition(s[..i], [c], s[i + 1..])
  }

  /** Splitting at the last `c` is the only split whose tail holds no `c`. */
  lemma RPartitionUnique(h: string, c: char, t: string)
    requires c !in t
    ensures RPartition(h + [c] + t, c) == Partition(h, [c], t)
  {
    var s := h + [c] + t;
    var i := LastIndexOf(s, c);
    assert s[|h|] == c;
    assert s[|h| + 1..] == t;
    assert i == |h|;
    assert s[..i] == h;
    assert s[i + 1..] == t;
  }

  // ---------------------------------------------------------------------
  // strip

  /** Python's `str.isspace()` for one character. */
  predicate IsSpace(c: char) {
    c == ' ' || ('\t' <= c <= '\r') || ('\U{1C}' <= c <= '\U{1F}') ||
    c == '\U{85}' || c == '\U{A0}' || c == '\U{1680}' || ('\U{2000}' <= c <= '\U{200A}') ||
    c == '\U{2028}' || c == '\U{2029}' || c == '\U{202F}' || c == '\U{205F}' || c == '\U{3000}'
  }

  /** `s.lstrip()` */
  function TrimStart(s: string): (r: string)
    ensures |r| <= |s| && r == s[|s| - |r|..]
    ensures r == [] || !IsSpace(r[0])
    ensures forall i :: 0 <= i < |s| - |r| ==> IsSpace(s[i])
  {
    if s != [] && IsSpace(s[0]) then TrimStart(s[1..]) else s
  }

  /** `s.rstrip()` */
  function TrimEnd(s: string): (r: string)
    ensures |r| <= |s| && r == s[..|r|]
    ensures r == [] || !IsSpace(r[|r| - 1])
    ensures forall i :: |r| <= i < |s| ==> IsSpace(s[i])
  {
    if s != [] && IsSpace(s[|s| - 1]) then TrimEnd(s[..|s| - 1]) else s
  }

  /** `r` sits at index `k` of `s` with only whitespace before and after it. */
  predicate StrippedAt(s: string, r: string, k: int) {
    && OccursAt(s, r, k)
    && (forall i :: 0 <= i < k ==> IsSpace(s[i]))
    && (forall i :: k + |r| <= i < |s| ==> IsSpace(s[i]))
  }

  /** `s.strip()`: the longest piece of `s` that neither starts nor ends with whitespace. */
  function Strip(s: string): (r: string)
    ensures r == [] || (!IsSpace(r[0]) && !IsSpace(r[|r| - 1]))
    ensures exists k :: StrippedAt(s, r, k)
  {
    var t := TrimStart(s);
    var r := TrimEnd(t);
    TrimBoth(s, t, r);
    r
  }

  /** Whitespace cut from the front of `s` and then from the back of the rest leaves `r` stripped out of `s`. */
  lemma TrimBoth(s: string, t: string, r: string)
    requires |t| <= |s| && t == s[|s| - |t|..]
    requires forall i :: 0 <= i < |s| - |t| ==> IsSpace(s[i])
    requires |r| <= |t| && r == t[..|r|]
    requires forall i :: |r| <= i < |t| ==> IsSpace(t[i])
    ensures StrippedAt(s, r, |s| - |t|)
  {
    var k := |s| - |t|;
    assert s[k..k + |r|] == r;
    forall i | k + |r| <= i < |s|
      ensures IsSpace(s[i])
    {
      assert s[i] == t[i - k];
    }
  }

  /** Stripping twice is stripping once. */
  lemma StripIdempotent(s: string)
    ensures Strip(Strip(s)) == Strip(s)
  {
    var r := Strip(s);
    if r != [] {
      StripUnspaced(r);
    }
  }

  // ---------------------------------------------------------------------
  // splitlines

  /** The line boundaries recognised by Python's `str.splitlines()`. */
  predicate IsLineBreak(c: char) {
    ('\n' <= c <= '\r') || ('\U{1C}' <= c <= '\U{1E}') ||
    c == '\U{85}' || c == '\U{2028}' || c == '\U{2029}'
  }

  predicate NoLineBreak(l: string) {
    forall i :: 0 <= i < |l| ==> !IsLineBreak(l[i])
  }

  /** Text has no line boundary exactly when neither of its two pieces has one. */
  lemma NoLineBreakAppend(a: string, b: string)
    ensures NoLineBreak(a + b) <==> NoLineBreak(a) && NoLineBreak(b)
  {
    if NoLineBreak(a + b) {
      forall i | 0 <= i < |a| ensures !IsLineBreak(a[i]) {
        assert a[i] == (a + b)[i];
      }
      forall i | 0 <= i < |b| ensures !IsLineBreak(b[i]) {
        assert b[i] == (a + b)[|a| + i];
      }
    }
    if NoLineBreak(a) && NoLineBreak(b) {
      forall i | 0 <= i < |a + b| ensures !IsLineBreak((a + b)[i]) {
        if i >= |a| {
          assert (a + b)[i] == b[i - |a|];
        }
      }
    }
  }

  /** Index of the first line boundary in `s`, or `|s|` when there is none. */
  function FirstBreak(s: string): (r: nat)
    ensures r <= |s|
    ensures forall i :: 0 <= i < r ==> !IsLineBreak(s[i])
    ensures r < |s| ==> IsLineBreak(s[r])
  {
    if s == [] || IsLineBreak(s[0]) then 0 else 1 + FirstBreak(s[1..])
  }

  /** `s.splitlines()`: `\r\n` counts as one boundary and a final boundary opens no empty line. */
  function SplitLines(s: string): (lines: seq<string>)
    ensures s == [] <==> lines == []
    ensures forall k :: 0 <= k < |lines| ==> NoLineBreak(lines[k])
    decreases |s|
  {
    if s == [] then []
    else
      var i := FirstBreak(s);
      if i == |s| then [s]
      else
        var width := if s[i] == '\r' && i + 1 < |s| && s[i + 1] == '\n' then 2 else 1;
        [s[..i]] + SplitLines(s[i + width..])
  }

  /** A non-empty string without line boundaries is one line. */
  lemma SplitLinesSingle(s: string)
    requires s != [] && NoLineBreak(s)
    ensures SplitLines(s) == [s]
  {
    assert FirstBreak(s) == |s|;
  }

  /** One line boundary as `splitlines(keepends=True)` keeps it: `\r\n`, or a single boundary character. */
  predicate IsBoundary(b: string) {
    b == "\r\n" || (|b| == 1 && IsLineBreak(b[0]))
  }

  /** The boundary after each line of `SplitLines(s)`; the last one is empty when the text does not end in a boundary. */
  function LineEnds(s: string): (ends: seq<string>)
    decreases |s|
  {
    if s == [] then []
    else
      var i := FirstBreak(s);
      if i == |s| then [""]
      else
        var width := if s[i] == '\r' && i + 1 < |s| && s[i + 1] == '\n' then 2 else 1;
        [s[i..i + width]] + LineEnds(s[i + width..])
  }

  /** Each line followed by its boundary. */
  function Rejoin(lines: seq<string>, ends: seq<string>): string
    requires |lines| == |ends|
  {
    if lines == [] then "" else lines[0] + ends[0] + Rejoin(lines[1..], ends[1..])
  }

  /**
   * `splitlines` loses nothing but the boundaries: the text is every line
   * followed by its boundary, every boundary but the last is a real one, and
   * a `\r` is split off alone only when no `\n` follows it.
   */
  lemma SplitLinesRejoin(s: string)
    ensures var lines, ends := SplitLines(s), LineEnds(s);
            && |ends| == |lines|
            && s == Rejoin(lines, ends)
            && (forall k :: 0 <= k < |ends| ==> IsBoundary(ends[k]) || (k == |ends| - 1 && ends[k] == ""))
            && (forall k :: 0 <= k < |ends| - 1 && ends[k] == "\r" ==> !(lines[k + 1] == "" && ends[k + 1] == "\n"))
            && (|ends| > 0 && ends[|ends| - 1] == "" ==> lines[|lines| - 1] != "")
  {
    RejoinLines(s);
    LineEndsBoundaries(s);
    LoneCarriageReturns(s);
    UnterminatedLastLine(s);
  }

  /** A string is its three pieces cut at `i` and `j`, put back together. */
  lemma SplitThree(s: string, i: int, j: int)
    requires 0 <= i <= j <= |s|
    ensures s == s[..i] + s[i..j] + s[j..]
  {
    assert s[..i] + s[i..j] == s[..j];
  }

  lemma {:induction false} RejoinLines(s: string)
    ensures |LineEnds(s)| == |SplitLines(s)| && s == Rejoin(SplitLines(s), LineEnds(s))
    decreases |s|
  {
    if s != [] {
      var i := FirstBreak(s);
      if i == |s| {
        assert SplitLines(s) == [s] && LineEnds(s) == [""];
        assert Rejoin([s], [""]) == s + "" + Rejoin([], []);
        assert s == s + "" + "";
      } else {
        var width := if s[i] == '\r' && i + 1 < |s| && s[i + 1] == '\n' then 2 else 1;
        var rest := s[i + width..];
        RejoinLines(rest);
        assert SplitLines(s) == [s[..i]] + SplitLines(rest) && LineEnds(s) == [s[i..i + width]] + LineEnds(rest);
        RejoinCons(s, i, width, SplitLines(rest), LineEnds(rest));
      }
    }
  }

  /** A line cut at `i`, its boundary up to `i + w`, and a rest that rejoins to the remaining text, rejoin to `s`. */
  lemma RejoinCons(s: string, i: int, w: int, lines: seq<string>, ends: seq<string>)
    requires 0 <= i <= i + w <= |s| && |lines| == |ends| && s[i + w..] == Rejoin(lines, ends)
    ensures s == Rejoin([s[..i]] + lines, [s[i..i + w]] + ends)
  {
    var l, e := [s[..i]] + lines, [s[i..i + w]] + ends;
    assert l[1..] == lines && e[1..] == ends;
    SplitThree(s, i, i + w);
  }

  lemma {:induction false} LineEndsBoundaries(s: string)
    ensures RealBoundaries(LineEnds(s))
    decreases |s|
  {
    if s != [] {
      var i := FirstBreak(s);
      if i == |s| {
        assert LineEnds(s) == [""];
      } else {
        var width := if s[i] == '\r' && i + 1 < |s| && s[i + 1] == '\n' then 2 else 1;
        var rest := s[i + width..];
        LineEndsBoundaries(rest);
        BoundaryAt(s, i);
        assert LineEnds(s) == [s[i..i + width]] + LineEnds(rest);
        BoundariesCons(s[i..i + width], LineEnds(rest));
      }
    }
  }

  /** Every boundary but an empty last one is real: a real boundary in front keeps that true. */
  predicate RealBoundaries(ends: seq<string>) {
    forall k :: 0 <= k < |ends| ==> IsBoundary(ends[k]) || (k == |ends| - 1 && ends[k] == "")
  }

  lemma BoundariesCons(b: string, ends: seq<string>)
    requires IsBoundary(b) && RealBoundaries(ends)
    ensures RealBoundaries([b] + ends)
  {
    var e := [b] + ends;
    assert forall k :: 1 <= k < |e| ==> e[k] == ends[k - 1];
  }

  /** The boundary `splitlines` cuts at a line-break character. */
  lemma BoundaryAt(s: string, i: int)
    requires 0 <= i < |s| && IsLineBreak(s[i])
    ensures IsBoundary(s[i..i + if s[i] == '\r' && i + 1 < |s| && s[i + 1] == '\n' then 2 else 1])
  {
  }

  lemma {:induction false} LoneCarriageReturns(s: string)
    ensures var lines, ends := SplitLines(s), LineEnds(s);
            |ends| == |lines| &&
            forall k :: 0 <= k < |ends| - 1 && ends[k] == "\r" ==> !(lines[k + 1] == "" && ends[k + 1] == "\n")
    decreases |s|
  {
    RejoinLines(s);
    if s != [] {
      var i := FirstBreak(s);
      if i < |s| {
        var width := if s[i] == '\r' && i + 1 < |s| && s[i + 1] == '\n' then 2 else 1;
        var rest := s[i + width..];
        LoneCarriageReturns(rest);
        EmptyFirstLine(rest);
        var lines, ends := SplitLines(s), LineEnds(s);
        assert lines == [s[..i]] + SplitLines(rest) && ends == [s[i..i + width]] + LineEnds(rest);
      }
    }
  }

  /** A last line with no boundary after it is not empty: a final boundary opens no empty line. */
  lemma {:induction false} UnterminatedLastLine(s: string)
    ensures var lines, ends := SplitLines(s), LineEnds(s);
            |ends| == |lines| && (|ends| > 0 && ends[|ends| - 1] == "" ==> lines[|lines| - 1] != "")
    decreases |s|
  {
    RejoinLines(s);
    if s != [] {
      var i := FirstBreak(s);
      if i < |s| {
        var width := if s[i] == '\r' && i + 1 < |s| && s[i + 1] == '\n' then 2 else 1;
        var rest := s[i + width..];
        UnterminatedLastLine(rest);
        var lines, ends := SplitLines(s), LineEnds(s);
        assert lines == [s[..i]] + SplitLines(rest) && ends == [s[i..i + width]] + LineEnds(rest);
        assert |s[i..i + width]| == width;
      }
    }
  }

  /** A first line that is empty and ends in `\n` means the text starts with `\n`. */
  lemma EmptyFirstLine(s: string)
    ensures s != [] && SplitLines(s)[0] == "" && LineEnds(s)[0] == "\n" ==> s[0] == '\n'
  {
  }

  /** Each line followed by a newline: what a program writes when it prints lines. */
  function Terminated(lines: seq<string>): string {
    if lines == [] then "" else lines[0] + "\n" + Terminated(lines[1..])
  }

  /** Three lines, each followed by a newline. */
  lemma TerminatedThree(a: string, b: string, c: string)
    ensures Terminated([a, b, c]) == a + "\n" + b + "\n" + c + "\n"
  {
    assert [c][1..] == [];
    assert Terminated([c]) == c + "\n";
    assert [b, c][1..] == [c];
    assert Terminated([b, c]) == b + "\n" + (c + "\n");
    assert [a, b, c][1..] == [b, c];
    assert Terminated([a, b, c]) == a + "\n" + (b + "\n" + (c + "\n"));
  }

  /** `splitlines` recovers the lines of newline-terminated output. */
  lemma {:induction false} SplitLinesTerminated(lines: seq<string>)
    requires forall k :: 0 <= k < |lines| ==> NoLineBreak(lines[k])
    ensures SplitLines(Terminated(lines)) == lines
  {
    if lines != [] {
      var l, rest := lines[0], Terminated(lines[1..]);
      var s := l + "\n" + rest;
      assert NoLineBreak(l);
      var i := FirstBreak(s);
      assert s[|l|] == '\n';
      assert forall j :: 0 <= j < |l| ==> s[j] == l[j];
      assert i == |l|;
      assert s[..i] == l;
      assert s[i + 1..] == rest;
      SplitLinesTerminated(lines[1..]);
    }
  }

  // ---------------------------------------------------------------------
  // str.join

  /** `sep.join(parts)` */
  function Join(sep: string, parts: seq<string>): (r: string)
    ensures parts != [] ==> StartsWith(r, parts[0])
    ensures |r| == TotalLength(parts) + (if parts == [] then 0 else (|parts| - 1) * |sep|)
  {
    if parts == [] then ""
    else if |parts| == 1 then parts[0]
    else parts[0] + sep + Join(sep, parts[1..])
  }

  /** The summed length of the parts. */
  function TotalLength(parts: seq<string>): nat {
    if parts == [] then 0 else |parts[0]| + TotalLength(parts[1..])
  }

  /** Joining one more part puts the separator and that part at the end. */
  lemma {:induction false} JoinSnoc(sep: string, parts: seq<string>, x: string)
    requires parts != []
    ensures Join(sep, parts + [x]) == Join(sep, parts) + sep + x
  {
    var px := parts + [x];
    if |parts| == 1 {
      assert px[1..] == [x];
    } else {
      assert px[1..] == parts[1..] + [x];
      JoinSnoc(sep, parts[1..], x);
    }
  }

  // ---------------------------------------------------------------------
  // Integers as decimal text

  predicate IsDigit(c: char) { '0' <= c <= '9' }

  predicate AllDigits(s: string) {
    forall i :: 0 <= i < |s| ==> IsDigit(s[i])
  }

  function DigitChar(d: nat): (c: char)
    requires d < 10
    ensures IsDigit(c)
  {
    (('0' as int) + d) as char
  }

  function DigitValue(c: char): (d: nat)
    requires IsDigit(c)
    ensures d < 10
  {
    (c as int) - ('0' as int)
  }

  /** Decimal digits of `n`, most significant first, without leading zeros. */
  function NatToString(n: nat): (s: string)
    ensures |s| >= 1 && AllDigits(s)
    ensures n > 0 ==> s[0] != '0'
  {
    if n < 10 then [DigitChar(n)] else NatToString(n / 10) + [DigitChar(n % 10)]
  }

  /** `str(n)` and `f'{n}'` for an `int`. */
  function IntToString(n: int): (r: string)
    ensures |r| >= 1 && (r[0] == '-' <==> n < 0)
    ensures AllDigits(if n < 0 then r[1..] else r)
    ensures var d := if n < 0 then r[1..] else r; d != [] && (d[0] == '0' <==> n == 0)
    ensures n == 0 ==> r == "0"
  {
    if n < 0 then "-" + NatToString(-n) else NatToString(n)
  }

  /** The number a string of decimal digits denotes. */
  function DigitsValue(s: string): nat
    requires AllDigits(s)
  {
    if s == [] then 0 else 10 * DigitsValue(s[..|s| - 1]) + DigitValue(s[|s| - 1])
  }

  /**
   * Python's `int(s)` on decimal text: surrounding whitespace, an optional
   * sign, then one or more ASCII digits; anything else is a ValueError (None).
   */
  function ParseInt(s: string): (r: Option<int>)
    ensures var d := Unsigned(Strip(s)); r.Some? <==> d != [] && AllDigits(d)
    ensures Strip(s) == [] ==> r.None?
    ensures r.Some? ==> var t := Strip(s);
              && (r.value < 0 ==> t[0] == '-')
              && (t[0] != '-' && t[0] != '+' ==> AllDigits(t))
  {
    ParseSigned(Strip(s))
  }

  /** What follows the sign of `t`, or all of `t` when it has none. */
  function Unsigned(t: string): string {
    if t != [] && (t[0] == '-' || t[0] == '+') then t[1..] else t
  }

  /** An optional sign, then one or more ASCII digits. */
  function ParseSigned(t: string): Option<int> {
    if t == [] then None
    else
      var digits := Unsigned(t);
      if digits != [] && AllDigits(digits) then
        var v: int := DigitsValue(digits);
        Some(if t[0] == '-' then -v else v)
      else None
  }

  /** A string that neither starts nor ends with whitespace is its own strip. */
  lemma StripUnspaced(s: string)
    requires s != [] && !IsSpace(s[0]) && !IsSpace(s[|s| - 1])
    ensures Strip(s) == s
  {
    assert TrimStart(s) == s;
    assert TrimEnd(s) == s;
  }

  lemma {:induction false} DigitsOfNat(n: nat)
    ensures DigitsValue(NatToString(n)) == n
  {
    if n >= 10 {
      DigitsOfNat(n / 10);
      var s := NatToString(n);
      assert s[..|s| - 1] == NatToString(n / 10);
    }
  }

  /** A string of decimal digits reads as the number it denotes. */
  lemma ParseIntDigits(d: string)
    requires d != [] && AllDigits(d)
    ensures ParseInt(d) == Some(DigitsValue(d))
  {
    assert IsDigit(d[0]) && IsDigit(d[|d| - 1]);
    StripUnspaced(d);
  }

  /** A minus sign before decimal digits reads as the negated number. */
  lemma ParseIntNegated(d: string)
    requires d != [] && AllDigits(d)
    ensures ParseInt("-" + d) == Some(-(DigitsValue(d) as int))
  {
    var s := "-" + d;
    assert s[0] == '-' && s[|s| - 1] == d[|d| - 1] && IsDigit(d[|d| - 1]);
    StripUnspaced(s);
    SignedNegated(s, d);
  }

  /** A plus sign before decimal digits reads as the number itself. */
  lemma ParseIntPlus(d: string)
    requires d != [] && AllDigits(d)
    ensures ParseInt("+" + d) == Some(DigitsValue(d))
  {
    var s := "+" + d;
    assert s[0] == '+' && s[|s| - 1] == d[|d| - 1] && IsDigit(d[|d| - 1]);
    StripUnspaced(s);
    assert Unsigned(s) == d;
  }

  /** Whitespace around the text does not change what `int()` reads. */
  lemma ParseIntPadded(a: string, t: string, b: string)
    requires forall i :: 0 <= i < |a| ==> IsSpace(a[i])
    requires forall i :: 0 <= i < |b| ==> IsSpace(b[i])
    requires t != [] && !IsSpace(t[0]) && !IsSpace(t[|t| - 1])
    ensures ParseInt(a + t + b) == ParseInt(t)
  {
    StripPadded(a, t, b);
    StripUnspaced(t);
  }

  /** `(a + t + b).strip()` is `t` when `a` and `b` are whitespace and `t` does not start or end with it. */
  lemma StripPadded(a: string, t: string, b: string)
    requires forall i :: 0 <= i < |a| ==> IsSpace(a[i])
    requires forall i :: 0 <= i < |b| ==> IsSpace(b[i])
    requires t != [] && !IsSpace(t[0]) && !IsSpace(t[|t| - 1])
    ensures Strip(a + t + b) == t
  {
    assert a + t + b == a + (t + b);
    TrimStartSpaces(a, t + b);
    TrimEndSpaces(t, b);
  }

  lemma {:induction false} TrimStartSpaces(a: string, u: string)
    requires forall i :: 0 <= i < |a| ==> IsSpace(a[i])
    requires u != [] && !IsSpace(u[0])
    ensures TrimStart(a + u) == u
  {
    if a != [] {
      assert (a + u)[1..] == a[1..] + u;
      TrimStartSpaces(a[1..], u);
    }
  }

  lemma {:induction false} TrimEndSpaces(u: string, b: string)
    requires forall i :: 0 <= i < |b| ==> IsSpace(b[i])
    requires u != [] && !IsSpace(u[|u| - 1])
    ensures TrimEnd(u + b) == u
  {
    if b != [] {
      assert (u + b)[..|u + b| - 1] == u + b[..|b| - 1];
      TrimEndSpaces(u, b[..|b| - 1]);
    }
  }

  lemma SignedNegated(s: string, d: string)
    requires d != [] && AllDigits(d) && s == "-" + d
    ensures ParseSigned(s) == Some(-(DigitsValue(d) as int))
  {
    assert s[0] == '-' && s[1..] == d;
  }

  /** `int(str(n)) == n` */
  lemma ParseIntRoundTrip(n: int)
    ensures ParseInt(IntToString(n)) == Some(n)
  {
    var m: nat := if n < 0 then -n else n;
    var d := NatToString(m);
    DigitsOfNat(m);
    if n < 0 {
      ParseIntNegated(d);
      assert IntToString(n) == "-" + d;
    } else {
      ParseIntDigits(d);
      assert IntToString(n) == d;
    }
  }
}
