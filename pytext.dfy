/**
 * The parts of Python's `str` behaviour that the patch compiler relies on:
 * `isspace`, `strip`, `splitlines`, `split`, `find`, `startswith`, `int()`
 * and `str()` of an integer, each written out so that the rest of the model
 * can state exactly which text the source produces.
 */
module PyText {
  import opened Wrappers

  /** Python's `str.isspace` for a single character (also what `\s` matches in `re`). */
  predicate IsSpace(c: char) {
    ('\t' <= c <= '\r') || ('\U{1C}' <= c <= ' ') || c == '\U{85}' || c == '\U{A0}'
    || c == '\U{1680}' || ('\U{2000}' <= c <= '\U{200A}') || c == '\U{2028}'
    || c == '\U{2029}' || c == '\U{202F}' || c == '\U{205F}' || c == '\U{3000}'
  }

  /** The characters at which `str.splitlines` breaks a string ("\r\n" counts as one break). */
  predicate IsLineBreak(c: char) {
    c == '\n' || c == '\r' || c == '\U{0B}' || c == '\U{0C}' || ('\U{1C}' <= c <= '\U{1E}')
    || c == '\U{85}' || c == '\U{2028}' || c == '\U{2029}'
  }

  predicate NoLineBreak(s: string) {
    forall i :: 0 <= i < |s| ==> !IsLineBreak(s[i])
  }

  predicate StartsWith(s: string, prefix: string) {
    |prefix| <= |s| && s[..|prefix|] == prefix
  }

  predicate EndsWith(s: string, suffix: string) {
    |suffix| <= |s| && s[|s| - |suffix|..] == suffix
  }

  /** `str.removesuffix` */
  function RemoveSuffix(s: string, suffix: string): (r: string)
    ensures EndsWith(s, suffix) ==> r + suffix == s
    ensures !EndsWith(s, suffix) ==> r == s
  {
    if EndsWith(s, suffix) then s[..|s| - |suffix|] else s
  }

  /** `str.lstrip()` with no argument */
  function LStrip(s: string): (r: string)
    ensures |r| <= |s|
  {
    if |s| > 0 && IsSpace(s[0]) then LStrip(s[1..]) else s
  }

  /** What `LStrip` removes is a run of blanks at the front, and what it keeps starts with a non-blank. */
  lemma {:induction false} LStripShape(s: string)
    ensures var r := LStrip(s);
      && r == s[|s| - |r|..]
      && (r == [] || !IsSpace(r[0]))
      && forall i :: 0 <= i < |s| - |r| ==> IsSpace(s[i])
    decreases |s|
  {
    if |s| > 0 && IsSpace(s[0]) {
      LStripShape(s[1..]);
    }
  }

  /** `str.rstrip()` with no argument */
  function RStrip(s: string): (r: string)
    ensures |r| <= |s|
  {
    if |s| > 0 && IsSpace(s[|s| - 1]) then RStrip(s[..|s| - 1]) else s
  }

  /** What `RStrip` removes is a run of blanks at the end, and what it keeps ends with a non-blank. */
  lemma {:induction false} RStripShape(s: string)
    ensures var r := RStrip(s);
      && r == s[..|r|]
      && (r == [] || !IsSpace(r[|r| - 1]))
      && forall i :: |r| <= i < |s| ==> IsSpace(s[i])
    decreases |s|
  {
    if |s| > 0 && IsSpace(s[|s| - 1]) {
      RStripShape(s[..|s| - 1]);
    }
  }

  /** Trailing blanks of `p + t` come from `t` unless `t` is blank throughout. */
  lemma {:induction false} RStripAppend(p: string, t: string)
    ensures RStrip(p + t) == if RStrip(t) == [] then RStrip(p) else p + RStrip(t)
    decreases |t|
  {
    if t == [] {
      assert p + t == p;
    } else {
      var s := p + t;
      var init := t[..|t| - 1];
      assert s[|s| - 1] == t[|t| - 1];
      if IsSpace(t[|t| - 1]) {
        assert s[..|s| - 1] == p + init;
        assert RStrip(s) == RStrip(p + init);
        assert RStrip(t) == RStrip(init);
        RStripAppend(p, init);
      } else {
        assert RStrip(s) == s && RStrip(t) == t;
      }
    }
  }

  /** `str.strip()` with no argument */
  function Strip(s: string): string {
    RStrip(LStrip(s))
  }

  /** Index of the first occurrence of `c` in `s`, or -1 (`str.find` for one character). */
  function IndexOf(s: string, c: char): (i: int)
    ensures -1 <= i < |s|
    ensures i == -1 <==> c !in s
    ensures i >= 0 ==> s[i] == c && c !in s[..i]
    ensures forall k :: 0 <= k < |s| && s[k] == c ==> 0 <= i <= k
  {
    if |s| == 0 then -1
    else if s[0] == c then 0
    else var j := IndexOf(s[1..], c); if j < 0 then -1 else j + 1
  }

  /** `sub` occurs in `s` at index `j`. */
  predicate At(s: string, sub: string, j: int) {
    0 <= j && j + |sub| <= |s| && s[j..j + |sub|] == sub
  }

  /** Index of the first occurrence of a non-empty `sub` in `s`, or -1 (`str.find`). */
  function Find(s: string, sub: string): (i: int)
    requires |sub| > 0
    ensures i == -1 || 0 <= i <= |s| - |sub|
    ensures i >= 0 ==> At(s, sub, i)
    ensures forall j :: 0 <= j && (i < 0 || j < i) ==> !At(s, sub, j)
  {
    if |s| < |sub| then -1
    else if s[..|sub|] == sub then 0
    else
      var j := Find(s[1..], sub);
      assert forall k :: 1 <= k ==> (At(s, sub, k) <==> At(s[1..], sub, k - 1)) by {
        forall k | 1 <= k ensures At(s, sub, k) <==> At(s[1..], sub, k - 1) {
          if k + |sub| <= |s| {
            var a, b := s[k..k + |sub|], s[1..][k - 1..k - 1 + |sub|];
            assert forall m :: 0 <= m < |sub| ==> a[m] == b[m];
            assert a == b;
          }
        }
      }
      if j < 0 then -1 else j + 1
  }

  /** `sub in s` */
  predicate Contains(s: string, sub: string)
    requires |sub| > 0
  {
    Find(s, sub) >= 0
  }

  /** `s.split(c)` for a one-character separator: every piece, empty ones included. */
  function SplitChar(s: string, c: char): (r: seq<string>)
    ensures |r| >= 1
    ensures forall k :: 0 <= k < |r| ==> c !in r[k]
    decreases |s|
  {
    var i := IndexOf(s, c);
    if i < 0 then [s] else [s[..i]] + SplitChar(s[i + 1..], c)
  }

  /** `s.split(c, 1)`: the text before and after the first `c`, if there is one. */
  function SplitOnce(s: string, c: char): (r: Option<(string, string)>)
    ensures r.None? <==> c !in s
    ensures r.Some? ==> r.value.0 + [c] + r.value.1 == s && c !in r.value.0
  {
    var i := IndexOf(s, c);
    if i < 0 then None else Some((s[..i], s[i + 1..]))
  }

  /** `s.split(c, 1)[0]`: everything before the first `c` (all of `s` when there is none). */
  function BeforeFirst(s: string, c: char): (r: string)
    ensures c !in r && StartsWith(s, r)
  {
    match SplitOnce(s, c)
    case None => s
    case Some((head, _)) => head
  }

  /** `s.split(sep)` for a separator of several characters, scanning left to right. */
  function SplitStr(s: string, sep: string): (r: seq<string>)
    requires |sep| > 0
    ensures |r| >= 1
    ensures |r| == 1 <==> !Contains(s, sep)
    ensures forall k :: 0 <= k < |r| ==> !Contains(r[k], sep)
    decreases |s|
  {
    var i := Find(s, sep);
    if i < 0 then [s]
    else
      assert !Contains(s[..i], sep) by {
        forall j | 0 <= j ensures !At(s[..i], sep, j) {
          if At(s[..i], sep, j) {
            assert s[..i][j..j + |sep|] == s[j..j + |sep|];
            assert At(s, sep, j);
          }
        }
      }
      [s[..i]] + SplitStr(s[i + |sep|..], sep)
  }

  /**
   * `s.split(None, 1)`: the first whitespace-delimited word and the remainder with its
   * leading whitespace removed; None when `s` is empty or only whitespace.
   */
  function SplitFirstWord(s: string): (r: Option<(string, string)>)
    ensures r.None? <==> LStrip(s) == []
    ensures r.Some? ==> |r.value.0| > 0 && forall i :: 0 <= i < |r.value.0| ==> !IsSpace(r.value.0[i])
  {
    var t := LStrip(s);
    if t == [] then None
    else
      LStripShape(s);
      var k := WordEnd(t);
      Some((t[..k], LStrip(t[k..])))
  }

  function WordEnd(t: string): (k: nat)
    ensures k <= |t|
    ensures forall i :: 0 <= i < k ==> !IsSpace(t[i])
    ensures k < |t| ==> IsSpace(t[k])
  {
    if |t| == 0 || IsSpace(t[0]) then 0 else 1 + WordEnd(t[1..])
  }

  /** The characters up to the first line break of `s`, or all of `s`. */
  function LineEnd(s: string): (k: nat)
    ensures k <= |s|
    ensures forall i :: 0 <= i < k ==> !IsLineBreak(s[i])
    ensures k < |s| ==> IsLineBreak(s[k])
  {
    if |s| == 0 || IsLineBreak(s[0]) then 0 else 1 + LineEnd(s[1..])
  }

  /**
   * `str.splitlines()`: pieces between line breaks, "\r\n" counting as one break,
   * and no empty piece after a final break.
   */
  function SplitLines(s: string): (r: seq<string>)
    ensures forall k :: 0 <= k < |r| ==> NoLineBreak(r[k])
    ensures s == [] <==> r == []
    decreases |s|
  {
    if s == [] then []
    else
      var k := LineEnd(s);
      if k == |s| then [s]
      else
        var skip := if s[k] == '\r' && k + 1 < |s| && s[k + 1] == '\n' then 2 else 1;
        [s[..k]] + SplitLines(s[k + skip..])
  }

  /** `"".join(parts)` */
  function Concat(parts: seq<string>): string {
    if parts == [] then "" else parts[0] + Concat(parts[1..])
  }

  /** `sep.join(parts)` */
  function Join(sep: string, parts: seq<string>): string {
    if parts == [] then ""
    else if |parts| == 1 then parts[0]
    else parts[0] + sep + Join(sep, parts[1..])
  }

  /** `"".join(f"{line}\n" for line in lines)`: every line followed by a newline. */
  function Terminated(lines: seq<string>): string {
    if lines == [] then "" else lines[0] + "\n" + Terminated(lines[1..])
  }

  lemma ConcatAppend(parts: seq<string>, last: string)
    ensures Concat(parts + [last]) == Concat(parts) + last
  {
    if parts != [] {
      assert (parts + [last])[1..] == parts[1..] + [last];
      ConcatAppend(parts[1..], last);
    }
  }

  lemma TerminatedAppend(lines: seq<string>, last: string)
    ensures Terminated(lines + [last]) == Terminated(lines) + last + "\n"
  {
    if lines != [] {
      assert (lines + [last])[1..] == lines[1..] + [last];
      TerminatedAppend(lines[1..], last);
    }
  }

  lemma {:induction false} TerminatedConcat(a: seq<string>, b: seq<string>)
    ensures Terminated(a + b) == Terminated(a) + Terminated(b)
  {
    if a != [] {
      assert (a + b)[0] == a[0] && (a + b)[1..] == a[1..] + b;
      TerminatedConcat(a[1..], b);
    } else {
      assert a + b == b;
    }
  }

  /** splitlines undoes newline-termination when no line holds a break of its own. */
  lemma {:induction false} SplitLinesTerminated(lines: seq<string>)
    requires forall k :: 0 <= k < |lines| ==> NoLineBreak(lines[k])
    ensures SplitLines(Terminated(lines)) == lines
  {
    if lines != [] {
      SplitLinesCons(lines[0], Terminated(lines[1..]));
      SplitLinesTerminated(lines[1..]);
    }
  }

  lemma SplitLinesCons(l: string, rest: string)
    requires NoLineBreak(l)
    ensures SplitLines(l + "\n" + rest) == [l] + SplitLines(rest)
  {
    var s := l + "\n" + rest;
    LineEndOf(l, "\n" + rest);
    assert s[|l|] == '\n';
    assert s[..|l|] == l;
    assert s[|l| + 1..] == rest;
  }

  lemma LineEndOf(l: string, rest: string)
    requires NoLineBreak(l) && |rest| > 0 && rest[0] == '\n'
    ensures LineEnd(l + rest) == |l|
  {
    if l != [] {
      assert (l + rest)[1..] == l[1..] + rest;
      LineEndOf(l[1..], rest);
    }
  }

  // ---- integers ----

  function DigitChar(d: nat): char
    requires d < 10
  {
    ['0', '1', '2', '3', '4', '5', '6', '7', '8', '9'][d]
  }

  predicate IsDigit(c: char) { '0' <= c <= '9' }

  function DigitValue(c: char): nat
    requires IsDigit(c)
  {
    (c as int - '0' as int) as nat
  }

  /** Decimal digits of a natural number, most significant first, no leading zeros. */
  function NatToStr(n: nat): (r: string)
    ensures |r| > 0 && forall i :: 0 <= i < |r| ==> IsDigit(r[i])
  {
    if n < 10 then [DigitChar(n)] else NatToStr(n / 10) + [DigitChar(n % 10)]
  }

  /** `str(i)` for a Python int */
  function IntToStr(i: int): (r: string)
    ensures |r| > 0
    ensures forall k :: 0 <= k < |r| ==> IsDigit(r[k]) || r[k] == '-'
  {
    if i < 0 then "-" + NatToStr(-i) else NatToStr(i)
  }

  predicate AllDigits(s: string) {
    forall i :: 0 <= i < |s| ==> IsDigit(s[i])
  }

  function DigitsValue(s: string): nat
    requires AllDigits(s)
  {
    if s == [] then 0 else DigitsValue(s[..|s| - 1]) * 10 + DigitValue(s[|s| - 1])
  }

  /**
   * `int(s)` in base 10: surrounding whitespace, an optional sign, then one or more
   * ASCII digits; None where Python raises ValueError.
   */
  function ParseInt(s: string): (r: Option<int>)
  {
    var t := Strip(s);
    if |t| > 0 && (t[0] == '-' || t[0] == '+') then
      var d := t[1..];
      if |d| > 0 && AllDigits(d) then
        var v: int := DigitsValue(d);
        Some(if t[0] == '-' then -v else v)
      else None
    else if |t| > 0 && AllDigits(t) then Some(DigitsValue(t))
    else None
  }

  lemma {:induction false} NatToStrValue(n: nat)
    ensures DigitsValue(NatToStr(n)) == n
  {
    var s := NatToStr(n);
    if n < 10 {
      assert s[..|s| - 1] == [];
    } else {
      assert s[..|s| - 1] == NatToStr(n / 10);
      NatToStrValue(n / 10);
    }
  }

  /** `int(str(i)) == i` */
  lemma IntToStrRoundTrip(i: int)
    ensures ParseInt(IntToStr(i)) == Some(i)
  {
    if i < 0 {
      NegativeRoundTrip(i);
    } else {
      NatToStrValue(i);
      StripOfNoSpace(NatToStr(i));
      ParseUnsigned(NatToStr(i));
    }
  }

  lemma NegativeRoundTrip(i: int)
    requires i < 0
    ensures ParseInt(IntToStr(i)) == Some(i)
  {
    var n: nat := -i;
    var s := IntToStr(i);
    var d := NatToStr(n);
    assert s == "-" + d;
    NatToStrValue(n);
    StripOfNoSpace(s);
    ParseSigned(s, d);
  }

  /** A minus sign and digits, with nothing to strip, parse as the negated digits. */
  lemma ParseSigned(s: string, d: string)
    requires s == "-" + d && |d| > 0 && AllDigits(d) && Strip(s) == s
    ensures ParseInt(s) == Some(-(DigitsValue(d) as int))
  {
    assert s[0] == '-' && s[1..] == d;
  }

  /** Digits alone, with nothing to strip, parse as their value. */
  lemma ParseUnsigned(s: string)
    requires |s| > 0 && AllDigits(s) && Strip(s) == s
    ensures ParseInt(s) == Some(DigitsValue(s))
  {
    assert IsDigit(s[0]);
  }

  /** `str(i)` holds no whitespace, no line break and no colon. */
  lemma IntToStrPlain(i: int)
    ensures forall k :: 0 <= k < |IntToStr(i)| ==> !IsSpace(IntToStr(i)[k]) && !IsLineBreak(IntToStr(i)[k]) && IntToStr(i)[k] != ':'
  {
  }

  lemma StripOfNoSpace(s: string)
    requires forall k :: 0 <= k < |s| ==> IsDigit(s[k]) || s[k] == '-'
    ensures Strip(s) == s
  {
    assert LStrip(s) == s;
    assert RStrip(s) == s;
  }

  /** Distinct integers print differently. */
  lemma IntToStrInjective(i: int, j: int)
    requires IntToStr(i) == IntToStr(j)
    ensures i == j
  {
    IntToStrRoundTrip(i);
    IntToStrRoundTrip(j);
  }

  // ---- lexicographic order of Python strings ----

  /** `a <= b` for Python strings: code point by code point, a proper prefix first. */
  predicate LexLe(a: string, b: string) {
    a == [] || (b != [] && (a[0] < b[0] || (a[0] == b[0] && LexLe(a[1..], b[1..]))))
  }

  lemma {:induction false} LexLeTotal(a: string, b: string)
    ensures LexLe(a, b) || LexLe(b, a)
  {
    if a != [] && b != [] && a[0] == b[0] {
      LexLeTotal(a[1..], b[1..]);
    }
  }

  lemma {:induction false} LexLeTransitive(a: string, b: string, c: string)
    requires LexLe(a, b) && LexLe(b, c)
    ensures LexLe(a, c)
  {
    if a != [] && b != [] && c != [] && a[0] == b[0] && b[0] == c[0] {
      LexLeTransitive(a[1..], b[1..], c[1..]);
    }
  }

  lemma {:induction false} LexLeAntisymmetric(a: string, b: string)
    requires LexLe(a, b) && LexLe(b, a)
    ensures a == b
  {
    if a != [] && b != [] {
      LexLeAntisymmetric(a[1..], b[1..]);
      assert a == [a[0]] + a[1..];
      assert b == [b[0]] + b[1..];
    }
  }
}
