/**
 * The Python string and integer built-ins that both scripts lean on:
 * `str.strip()`, `str.split(sep)`, `str.replace(old, "")`, `sep.join(...)`,
 * `str(n)`, `int(s)` and the `f"{n:02d}"` format. Strings are sequences of
 * Unicode scalar values, as Python 3 `str` is.
 */
module PyText {
  import opened Wrappers

  /** The characters for which `str.isspace()` holds; `str.strip()` removes exactly these. */
  predicate IsSpace(c: char) {
    || c == ' '
    || ('\t' <= c <= '\r')
    || ('\U{1C}' <= c <= '\U{1F}')
    || c == '\U{85}' || c == '\U{A0}' || c == '\U{1680}'
    || ('\U{2000}' <= c <= '\U{200A}')
    || c == '\U{2028}' || c == '\U{2029}' || c == '\U{202F}' || c == '\U{205F}' || c == '\U{3000}'
  }

  predicate IsDigit(c: char) {
    '0' <= c <= '9'
  }

  /** A non-empty run of ASCII decimal digits. */
  predicate IsDigits(s: string) {
    |s| > 0 && forall i :: 0 <= i < |s| ==> IsDigit(s[i])
  }

  // ---------------------------------------------------------------- strip

  /** Drops the leading whitespace: the result is the longest suffix that does not start with a space. */
  function StripLeft(s: string): (r: string)
    ensures |r| <= |s| && r == s[|s| - |r|..]
    ensures |r| > 0 ==> !IsSpace(r[0])
    decreases |s|
  {
    if |s| > 0 && IsSpace(s[0]) then StripLeft(s[1..]) else s
  }

  /** Drops the trailing whitespace: the result is the longest prefix that does not end with a space. */
  function StripRight(s: string): (r: string)
    ensures |r| <= |s| && r == s[..|r|]
    ensures |r| > 0 ==> !IsSpace(r[|r| - 1])
    decreases |s|
  {
    if |s| > 0 && IsSpace(s[|s| - 1]) then StripRight(s[..|s| - 1]) else s
  }

  /** Everything `StripLeft` drops is whitespace. */
  lemma {:induction false} StripLeftDropsSpaces(s: string)
    ensures forall k :: 0 <= k < |s| - |StripLeft(s)| ==> IsSpace(s[k])
    decreases |s|
  {
    if |s| > 0 && IsSpace(s[0]) {
      StripLeftDropsSpaces(s[1..]);
      forall k | 1 <= k < |s| - |StripLeft(s)| ensures IsSpace(s[k]) {
        assert s[k] == s[1..][k - 1];
      }
    }
  }

  /** Everything `StripRight` drops is whitespace. */
  lemma {:induction false} StripRightDropsSpaces(s: string)
    ensures forall k :: |StripRight(s)| <= k < |s| ==> IsSpace(s[k])
    decreases |s|
  {
    if |s| > 0 && IsSpace(s[|s| - 1]) {
      StripRightDropsSpaces(s[..|s| - 1]);
      forall k | |StripRight(s)| <= k < |s| - 1 ensures IsSpace(s[k]) {
        assert s[k] == s[..|s| - 1][k];
      }
    }
  }

  /** `s.strip()`: a slice of `s` that neither starts nor ends with whitespace. */
  function Strip(s: string): (r: string)
    ensures |r| <= |s|
    ensures |r| > 0 ==> !IsSpace(r[0]) && !IsSpace(r[|r| - 1])
    ensures forall c :: c in r ==> c in s
    ensures |r| <= |StripLeft(s)| && r == StripLeft(s)[..|r|]
  {
    StripRight(StripLeft(s))
  }

  /** A leading space never survives `strip()`. */
  lemma StripLeadingSpace(c: char, s: string)
    requires IsSpace(c)
    ensures Strip([c] + s) == Strip(s)
  {
    assert ([c] + s)[1..] == s;
  }

  /** A string with no whitespace at either end is its own `strip()`. */
  lemma StripUntouched(s: string)
    requires |s| > 0 ==> !IsSpace(s[0]) && !IsSpace(s[|s| - 1])
    ensures Strip(s) == s
  {
  }

  // ---------------------------------------------------------------- join / split

  /** `sep.join(parts)`. */
  function Join(sep: string, parts: seq<string>): string
    decreases |parts|
  {
    if |parts| == 0 then ""
    else if |parts| == 1 then parts[0]
    else parts[0] + sep + Join(sep, parts[1..])
  }

  lemma JoinFirstChar(sep: string, c: char, p: string, tail: seq<string>)
    ensures Join(sep, [[c] + p] + tail) == [c] + Join(sep, [p] + tail)
  {
    var a, b := [[c] + p] + tail, [p] + tail;
    assert a[1..] == tail == b[1..];
  }

  /**
   * `s.split(sep)` for a one-character separator: one or more pieces, none
   * holding the separator; the empty string splits into `[""]`.
   */
  function Split(s: string, sep: char): (r: seq<string>)
    ensures |r| >= 1
    ensures forall i :: 0 <= i < |r| ==> sep !in r[i]
    decreases |s|
  {
    if |s| == 0 then [""]
    else
      var rest := Split(s[1..], sep);
      if s[0] == sep then [""] + rest else [[s[0]] + rest[0]] + rest[1..]
  }

  /** Joining the pieces with the separator gives the string back. */
  lemma {:induction false} JoinSplit(s: string, sep: char)
    ensures Join([sep], Split(s, sep)) == s
    decreases |s|
  {
    if |s| > 0 {
      var rest := Split(s[1..], sep);
      JoinSplit(s[1..], sep);
      if s[0] == sep {
        assert [sep] + s[1..] == s;
      } else {
        JoinFirstChar([sep], s[0], rest[0], rest[1..]);
        assert [rest[0]] + rest[1..] == rest;
        assert [s[0]] + s[1..] == s;
      }
    }
  }

  /** A string without the separator is one piece. */
  lemma {:induction false} SplitWithout(s: string, sep: char)
    requires sep !in s
    ensures Split(s, sep) == [s]
    decreases |s|
  {
    if |s| > 0 {
      SplitWithout(s[1..], sep);
      assert [s[0]] + s[1..] == s;
    }
  }

  /** The first separator ends the first piece. */
  lemma {:induction false} SplitAfter(a: string, sep: char, b: string)
    requires sep !in a
    ensures Split(a + [sep] + b, sep) == [a] + Split(b, sep)
    decreases |a|
  {
    if |a| == 0 {
      assert a + [sep] + b == [sep] + b;
      assert ([sep] + b)[1..] == b;
    } else {
      SplitAfter(a[1..], sep, b);
      assert (a + [sep] + b)[1..] == a[1..] + [sep] + b;
      assert [a[0]] + a[1..] == a;
    }
  }

  /** A character other than the separator joins the first piece. */
  lemma SplitLeading(c: char, s: string, sep: char)
    requires c != sep
    ensures Split([c] + s, sep) == [[c] + Split(s, sep)[0]] + Split(s, sep)[1..]
  {
    assert ([c] + s)[1..] == s;
  }

  /** Splitting undoes joining when no part holds the separator. */
  lemma {:induction false} SplitJoin(parts: seq<string>, sep: char)
    requires |parts| >= 1
    requires forall i :: 0 <= i < |parts| ==> sep !in parts[i]
    ensures Split(Join([sep], parts), sep) == parts
    decreases |parts|
  {
    if |parts| == 1 {
      SplitWithout(parts[0], sep);
    } else {
      SplitJoin(parts[1..], sep);
      SplitAfter(parts[0], sep, Join([sep], parts[1..]));
      assert [parts[0]] + parts[1..] == parts;
    }
  }

  // ---------------------------------------------------------------- replace

  /**
   * `s.replace(pat, rep)` for a non-empty `pat`: occurrences are found left to
   * right and do not overlap.
   */
  function Replace(s: string, pat: string, rep: string): string
    requires |pat| > 0
    decreases |s|
  {
    if |s| < |pat| then s
    else if s[..|pat|] == pat then rep + Replace(s[|pat|..], pat, rep)
    else [s[0]] + Replace(s[1..], pat, rep)
  }

  /** Nothing changes where the pattern's first character never occurs. */
  lemma {:induction false} ReplaceAbsent(s: string, pat: string, rep: string)
    requires |pat| > 0 && pat[0] !in s
    ensures Replace(s, pat, rep) == s
    decreases |s|
  {
    if |s| >= |pat| {
      assert s[0] != pat[0];
      ReplaceAbsent(s[1..], pat, rep);
      assert [s[0]] + s[1..] == s;
    }
  }

  /** An occurrence at the front is replaced. */
  lemma ReplaceFront(pat: string, t: string, rep: string)
    requires |pat| > 0
    ensures Replace(pat + t, pat, rep) == rep + Replace(t, pat, rep)
  {
    assert (pat + t)[..|pat|] == pat;
    assert (pat + t)[|pat|..] == t;
  }

  /** A prefix free of the pattern's first character is copied unchanged. */
  lemma {:induction false} ReplaceSkip(a: string, t: string, pat: string, rep: string)
    requires |pat| > 0 && pat[0] !in a
    ensures Replace(a + t, pat, rep) == a + Replace(t, pat, rep)
    decreases |a|
  {
    if |a| > 0 {
      var s := a + t;
      assert s[0] == a[0] != pat[0];
      if |s| >= |pat| {
        assert s[..|pat|] != pat;
        ReplaceSkip(a[1..], t, pat, rep);
        assert s[1..] == a[1..] + t;
        assert [a[0]] + a[1..] == a;
      } else {
        assert |t| < |pat|;
      }
    } else {
      assert a + t == t;
    }
  }

  // ---------------------------------------------------------------- integers

  function DigitValue(c: char): int {
    c as int - '0' as int
  }

  function DigitChar(d: int): (c: char)
    requires 0 <= d < 10
    ensures IsDigit(c) && DigitValue(c) == d
  {
    ('0' as int + d) as char
  }

  /** The value of a run of decimal digits, most significant first; leading zeros are allowed. */
  function DigitsValue(s: string): int
    decreases |s|
  {
    if |s| == 0 then 0 else DigitsValue(s[..|s| - 1]) * 10 + DigitValue(s[|s| - 1])
  }

  /** `str(n)` for `n >= 0`: its decimal digits, without leading zeros. */
  function NatStr(n: nat): (r: string)
    ensures IsDigits(r) && DigitsValue(r) == n
    ensures r[0] == '0' ==> n == 0
    decreases n
  {
    if n < 10 then [DigitChar(n)]
    else
      var r := NatStr(n / 10) + [DigitChar(n % 10)];
      assert r[..|r| - 1] == NatStr(n / 10);
      r
  }

  /** `str(n)` for any integer. */
  function Str(n: int): (r: string)
    ensures |r| > 0
    ensures forall c :: c in r ==> IsDigit(c) || c == '-'
  {
    if n < 0 then "-" + NatStr(-n) else NatStr(n)
  }

  /**
   * `int(s)` in base 10: surrounding whitespace is ignored, then an optional
   * sign and one or more ASCII digits; anything else raises `ValueError`,
   * which is `None` here.
   */
  function PyInt(s: string): Option<int> {
    ReadInt(Strip(s))
  }

  /** What `int()` makes of an already stripped string: an optional sign, then digits. */
  function ReadInt(t: string): Option<int> {
    if |t| > 0 && (t[0] == '+' || t[0] == '-') then
      if IsDigits(t[1..]) then Some(if t[0] == '-' then -DigitsValue(t[1..]) else DigitsValue(t[1..]))
      else None
    else if IsDigits(t) then Some(DigitsValue(t))
    else None
  }

  /** `int(str(n)) == n` for every integer. */
  lemma StrRoundTrip(n: int)
    ensures Strip(Str(n)) == Str(n)
    ensures PyInt(Str(n)) == Some(n)
  {
    if n < 0 {
      NegativeReadsBack(n);
    } else {
      NatStrReadsBack(n);
    }
  }

  /**
   * `f"{n:02d}"`: zero-padded to at least two characters, the sign counting
   * toward the width; 0..99 take exactly two digits.
   */
  function Pad2(n: int): (r: string)
    ensures |r| >= 2
    ensures 0 <= n < 100 ==> |r| == 2 && IsDigits(r)
    ensures ' ' !in r
  {
    if n < 0 then "-" + NatStr(-n)
    else if n < 10 then ['0', DigitChar(n)]
    else
      assert n < 100 ==> NatStr(n / 10) == [DigitChar(n / 10)];
      NatStr(n)
  }

  /** A padded number reads back as itself. */
  lemma Pad2ReadsBack(n: int)
    ensures PyInt(Pad2(n)) == Some(n)
  {
    if n < 0 {
      NegativeReadsBack(n);
    } else if n < 10 {
      OneDigitReadsBack(n);
    } else {
      NatStrReadsBack(n);
    }
  }

  lemma NegativeReadsBack(n: int)
    requires n < 0
    ensures Strip("-" + NatStr(-n)) == "-" + NatStr(-n)
    ensures PyInt("-" + NatStr(-n)) == Some(n)
  {
    var m := NatStr(-n);
    SignedUntouched(m);
    ReadSigned(m);
  }

  /** A minus sign followed by digits has no whitespace to strip. */
  lemma SignedUntouched(m: string)
    requires IsDigits(m)
    ensures Strip("-" + m) == "-" + m
  {
    var r := "-" + m;
    assert r[0] == '-' && r[|r| - 1] == m[|m| - 1] && IsDigit(m[|m| - 1]);
    StripUntouched(r);
  }

  /** A minus sign followed by digits reads as the negated digits. */
  lemma ReadSigned(m: string)
    requires IsDigits(m)
    ensures ReadInt("-" + m) == Some(-DigitsValue(m))
  {
    assert ("-" + m)[1..] == m;
  }

  lemma OneDigitReadsBack(n: int)
    requires 0 <= n < 10
    ensures PyInt(['0', DigitChar(n)]) == Some(n)
  {
    var r := ['0', DigitChar(n)];
    assert r[..1] == ['0'] && ['0'][..0] == [];
    assert DigitsValue(r[..1]) == 0;
    StripUntouched(r);
  }

  lemma NatStrReadsBack(n: nat)
    ensures Strip(NatStr(n)) == NatStr(n)
    ensures PyInt(NatStr(n)) == Some(n)
  {
    var r := NatStr(n);
    assert IsDigit(r[0]) && IsDigit(r[|r| - 1]);
    StripUntouched(r);
  }

  // ---------------------------------------------------------------- sets

  /** `set(xs)`. */
  function SetOf(xs: seq<int>): set<int> {
    set x | x in xs
  }

  /** A list has at least as many entries as its set of values. */
  lemma {:induction false} SetOfSize(xs: seq<int>)
    ensures |SetOf(xs)| <= |xs|
    decreases |xs|
  {
    if |xs| > 0 {
      SetOfSize(xs[1..]);
      assert SetOf(xs) == {xs[0]} + SetOf(xs[1..]);
    }
  }
}
