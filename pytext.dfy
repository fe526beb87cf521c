/**
  The Python `str` operations the analysers rely on, stated over `seq<char>`:
  `strip`, `in`, `startswith`/`endswith`, `find`, `split(sep)`, `join`, `lower`,
  `isdigit`, `int(...)` and `str(int)`.
*/
module PyText {
  import opened Results

  // ---------------------------------------------------------------- whitespace

  /** Python's `str.isspace` for one character (the characters `str.strip()` removes). */
  const SpaceChars: set<char> := {' ', '\t', '\n', '\U{0B}', '\U{0C}', '\r', '\U{1C}', '\U{1D}', '\U{1E}', '\U{1F}',
    '\U{85}', '\U{A0}', '\U{1680}', '\U{2000}', '\U{2001}', '\U{2002}', '\U{2003}', '\U{2004}', '\U{2005}',
    '\U{2006}', '\U{2007}', '\U{2008}', '\U{2009}', '\U{200A}', '\U{2028}', '\U{2029}', '\U{202F}', '\U{205F}', '\U{3000}'}

  predicate IsSpace(c: char)
  {
    c in SpaceChars
  }

  predicate AllSpace(s: string)
  {
    forall i :: 0 <= i < |s| ==> IsSpace(s[i])
  }

  /** Neither end of `s` is whitespace: what `strip()` leaves. */
  predicate Trimmed(s: string)
  {
    s == [] || (!IsSpace(s[0]) && !IsSpace(s[|s| - 1]))
  }

  /** `s.lstrip()`: drops the leading whitespace. */
  function LStrip(s: string): (r: string)
    ensures |r| <= |s|
  {
    if s != [] && IsSpace(s[0]) then LStrip(s[1..]) else s
  }

  /** `s.rstrip()`: drops the trailing whitespace. */
  function RStrip(s: string): (r: string)
    ensures |r| <= |s|
  {
    if s != [] && IsSpace(s[|s| - 1]) then RStrip(s[..|s| - 1]) else s
  }

  /** `s.strip()`. */
  function Strip(s: string): (r: string)
    ensures |r| <= |s|
  {
    RStrip(LStrip(s))
  }

  /** `lstrip` removes a prefix made of whitespace and nothing else. */
  lemma {:induction false} LStripShape(s: string)
    ensures var r := LStrip(s);
      && r == s[|s| - |r|..]
      && AllSpace(s[..|s| - |r|])
      && (r == [] || !IsSpace(r[0]))
  {
    if s != [] && IsSpace(s[0]) {
      LStripShape(s[1..]);
      var r := LStrip(s);
      assert s[..|s| - |r|] == [s[0]] + s[1..][..|s| - 1 - |r|];
    }
  }

  /** `rstrip` removes a suffix made of whitespace and nothing else. */
  lemma {:induction false} RStripShape(s: string)
    ensures var r := RStrip(s);
      && r == s[..|r|]
      && AllSpace(s[|r|..])
      && (r == [] || !IsSpace(r[|r| - 1]))
  {
    if s != [] && IsSpace(s[|s| - 1]) {
      RStripShape(s[..|s| - 1]);
      var r := RStrip(s);
      assert s[|r|..] == s[..|s| - 1][|r|..] + [s[|s| - 1]];
    }
  }

  /** `strip` leaves a trimmed text, and leaves nothing exactly when the text is all whitespace. */
  lemma StripShape(s: string)
    ensures Trimmed(Strip(s))
    ensures Strip(s) == [] <==> AllSpace(s)
  {
    var l := LStrip(s);
    LStripShape(s);
    RStripShape(l);
    assert s == s[..|s| - |l|] + l;
    if Strip(s) == [] {
      assert AllSpace(l[|Strip(s)|..]);
      assert l[|Strip(s)|..] == l;
    }
  }

  lemma {:induction false} LStripPadded(pre: string, s: string)
    requires AllSpace(pre)
    requires s == [] || !IsSpace(s[0])
    ensures LStrip(pre + s) == s
  {
    if pre != [] {
      assert (pre + s)[1..] == pre[1..] + s;
      LStripPadded(pre[1..], s);
    }
  }

  lemma {:induction false} RStripPadded(s: string, post: string)
    requires AllSpace(post)
    requires s == [] || !IsSpace(s[|s| - 1])
    ensures RStrip(s + post) == s
  {
    if post != [] {
      assert (s + post)[..|s + post| - 1] == s + post[..|post| - 1];
      RStripPadded(s, post[..|post| - 1]);
    }
  }

  /** Stripping removes exactly the whitespace padding around a trimmed text. */
  lemma StripPadded(pre: string, s: string, post: string)
    requires AllSpace(pre) && AllSpace(post) && Trimmed(s)
    ensures Strip(pre + s + post) == s
  {
    if s == [] {
      assert AllSpace(pre + s + post);
      StripShape(pre + s + post);
    } else {
      assert pre + s + post == pre + (s + post);
      LStripPadded(pre, s + post);
      RStripPadded(s, post);
    }
  }

  /** `s.strip().strip() == s.strip()`. */
  lemma StripIdempotent(s: string)
    ensures Strip(Strip(s)) == Strip(s)
  {
    StripShape(s);
    StripPadded([], Strip(s), []);
    assert [] + Strip(s) + [] == Strip(s);
  }

  // ---------------------------------------------------------------- searching

  /** `t` occurs in `s` at index `j`. */
  predicate OccursAt(s: string, t: string, j: int)
  {
    0 <= j && j + |t| <= |s| && s[j..j + |t|] == t
  }

  /** `s.find(t)`: the first index where `t` occurs in `s`, or -1. */
  function Find(s: string, t: string): (r: int)
    ensures -1 <= r <= |s|
    ensures r >= 0 ==> r + |t| <= |s|
    decreases |s|
  {
    if |t| > |s| then -1
    else if s[..|t|] == t then 0
    else
      var k := Find(s[1..], t);
      if k < 0 then -1 else k + 1
  }

  /** `find` gives the first occurrence, or -1 exactly when there is none. */
  lemma {:induction false} FindSpec(s: string, t: string)
    ensures var r := Find(s, t);
      && (r >= 0 ==> OccursAt(s, t, r) && forall j :: 0 <= j < r ==> !OccursAt(s, t, j))
      && (r == -1 ==> forall j :: !OccursAt(s, t, j))
    decreases |s|
  {
    if |t| > |s| {
      assert Find(s, t) == -1;
    } else if s[..|t|] == t {
      assert Find(s, t) == 0 && OccursAt(s, t, 0);
    } else {
      var k := Find(s[1..], t);
      FindSpec(s[1..], t);
      assert Find(s, t) == if k < 0 then -1 else k + 1;
      assert !OccursAt(s, t, 0);
      forall j | 1 <= j
        ensures OccursAt(s, t, j) <==> OccursAt(s[1..], t, j - 1)
      {
        if j + |t| <= |s| {
          SliceOfTail(s, j, |t|);
        }
      }
    }
  }

  lemma SliceOfTail(s: string, j: int, n: nat)
    requires 1 <= j && j + n <= |s|
    ensures s[j..j + n] == s[1..][j - 1..j - 1 + n]
  {
    forall m | j <= m < j + n
      ensures s[1..][m - 1] == s[m]
    {
    }
  }

  /** `t in s`. */
  predicate Contains(s: string, t: string)
  {
    Find(s, t) >= 0
  }

  lemma ContainsAt(s: string, t: string, j: int)
    requires OccursAt(s, t, j)
    ensures Contains(s, t)
  {
    FindSpec(s, t);
  }

  /** Whatever contains `t` contains every suffix of `t`. */
  lemma ContainsSuffix(s: string, t: string, k: nat)
    requires Contains(s, t) && k <= |t|
    ensures Contains(s, t[k..])
  {
    var j := Find(s, t);
    FindSpec(s, t);
    assert s[j + k..j + |t|] == s[j..j + |t|][k..];
    ContainsAt(s, t[k..], j + k);
  }

  /** `s.startswith(t)`. */
  predicate StartsWith(s: string, t: string)
  {
    |t| <= |s| && s[..|t|] == t
  }

  /** `s.endswith(t)`. */
  predicate EndsWith(s: string, t: string)
  {
    |t| <= |s| && s[|s| - |t|..] == t
  }

  /** When `t`'s first character appears nowhere in `a`, the first occurrence of `t` in `a + t + b` is right after `a`. */
  lemma FindAfter(a: string, t: string, b: string)
    requires t != [] && t[0] !in a
    ensures Find(a + t + b, t) == |a|
  {
    var s := a + t + b;
    FindSpec(s, t);
    assert s[|a|..|a| + |t|] == t;
    assert OccursAt(s, t, |a|);
    forall j | 0 <= j < |a| ensures !OccursAt(s, t, j) {
      assert s[j] == a[j] != t[0];
      if j + |t| <= |s| {
        assert s[j..j + |t|][0] == s[j];
      }
    }
  }

  /** A text that does not contain `t`'s first character does not contain `t`. */
  lemma FindAbsent(a: string, t: string)
    requires t != [] && t[0] !in a
    ensures Find(a, t) == -1
  {
    FindSpec(a, t);
    forall j | 0 <= j && j + |t| <= |a| ensures !OccursAt(a, t, j) {
      assert a[j..j + |t|][0] == a[j] != t[0];
    }
  }

  // ---------------------------------------------------------------- split and join

  /** `s.split(sep)` for a non-empty separator: the fields between non-overlapping occurrences, scanned left to right. */
  function SplitOn(s: string, sep: string): (r: seq<string>)
    requires sep != []
    ensures |r| >= 1
    ensures Contains(s, sep) ==> |r| >= 2
    decreases |s|
  {
    var k := Find(s, sep);
    if k < 0 then [s] else [s[..k]] + SplitOn(s[k + |sep|..], sep)
  }

  /** `sep.join(parts)`. */
  function Join(sep: string, parts: seq<string>): string
  {
    if parts == [] then ""
    else if |parts| == 1 then parts[0]
    else parts[0] + sep + Join(sep, parts[1..])
  }

  lemma JoinCons(sep: string, head: string, tail: seq<string>)
    requires |tail| >= 1
    ensures Join(sep, [head] + tail) == head + sep + Join(sep, tail)
  {
    var parts := [head] + tail;
    assert parts[0] == head && parts[1..] == tail;
  }

  /** Joining the fields of a split with the same separator gives the text back. */
  lemma {:induction false} JoinSplitOn(s: string, sep: string)
    requires sep != []
    ensures Join(sep, SplitOn(s, sep)) == s
    decreases |s|
  {
    var k := Find(s, sep);
    if k >= 0 {
      var rest := s[k + |sep|..];
      assert s == s[..k] + sep + rest by {
        FindSpec(s, sep);
        assert s == s[..k] + s[k..k + |sep|] + rest;
      }
      assert SplitOn(s, sep) == [s[..k]] + SplitOn(rest, sep);
      JoinSplitOn(rest, sep);
      JoinCons(sep, s[..k], SplitOn(rest, sep));
    }
  }

  /** When `t`'s first character appears nowhere in `a`, the first field of splitting `a + t + b` on `t` is `a`. */
  lemma SplitAfter(a: string, t: string, b: string)
    requires t != [] && t[0] !in a
    ensures SplitOn(a + t + b, t) == [a] + SplitOn(b, t)
  {
    FindAfter(a, t, b);
    var s := a + t + b;
    assert s[..|a|] == a && s[|a| + |t|..] == b;
  }

  lemma SplitFirst(a: string, c: char, b: string)
    requires c !in a
    ensures SplitOn(a + [c] + b, [c]) == [a] + SplitOn(b, [c])
  {
    FindAfter(a, [c], b);
    var s := a + [c] + b;
    assert s[..|a|] == a && s[|a| + 1..] == b;
  }

  lemma SplitNone(a: string, c: char)
    requires c !in a
    ensures SplitOn(a, [c]) == [a]
  {
    FindAbsent(a, [c]);
  }

  /** Splitting a join on a one-character separator that no part contains gives the parts back. */
  lemma {:induction false} SplitOnJoin(c: char, parts: seq<string>)
    requires |parts| >= 1
    requires forall i :: 0 <= i < |parts| ==> c !in parts[i]
    ensures SplitOn(Join([c], parts), [c]) == parts
  {
    if |parts| == 1 {
      SplitNone(parts[0], c);
    } else {
      SplitOnJoin(c, parts[1..]);
      SplitFirst(parts[0], c, Join([c], parts[1..]));
      assert parts == [parts[0]] + parts[1..];
    }
  }

  // ---------------------------------------------------------------- case

  /**
    `str.lower` on one character. Only A-Z and the Kelvin sign lower to ASCII letters;
    every other character is kept, which never changes whether an ASCII pattern occurs.
  */
  function LowerChar(c: char): char
  {
    if 'A' <= c <= 'Z' then (c as int + 32) as char
    else if c == '\U{212A}' then 'k'
    else c
  }

  /** `s.lower()`. */
  function Lower(s: string): (r: string)
    ensures |r| == |s|
    ensures forall i :: 0 <= i < |s| ==> r[i] == LowerChar(s[i])
  {
    if s == [] then [] else [LowerChar(s[0])] + Lower(s[1..])
  }

  /** A lower-case pattern found in `s` is still found after `s.lower()`. */
  lemma LowerKeepsPattern(s: string, t: string)
    requires Contains(s, t)
    requires Lower(t) == t
    ensures Contains(Lower(s), t)
  {
    var j := Find(s, t);
    assert OccursAt(s, t, j) by {
      FindSpec(s, t);
    }
    LowerSlice(s, j, j + |t|);
    ContainsAt(Lower(s), t, j);
  }

  lemma LowerSlice(s: string, a: nat, b: nat)
    requires a <= b <= |s|
    ensures Lower(s)[a..b] == Lower(s[a..b])
  {
    var l, r := Lower(s)[a..b], Lower(s[a..b]);
    forall i | 0 <= i < b - a
      ensures l[i] == r[i]
    {
      assert s[a..b][i] == s[a + i];
    }
  }

  // ---------------------------------------------------------------- digits and integers

  predicate IsDecimal(c: char)
  {
    '0' <= c <= '9'
  }

  /** `str.isdigit` for one character: the ASCII digits and the Latin-1 superscripts one to three. */
  predicate IsDigitChar(c: char)
  {
    IsDecimal(c) || c == '\U{B9}' || c == '\U{B2}' || c == '\U{B3}'
  }

  /** `s.isdigit()`: non-empty and every character a digit. */
  predicate IsDigitString(s: string)
  {
    |s| > 0 && forall i :: 0 <= i < |s| ==> IsDigitChar(s[i])
  }

  predicate DecimalsOrUnderscores(s: string)
  {
    forall i :: 0 <= i < |s| ==> IsDecimal(s[i]) || s[i] == '_'
  }

  /** The digits of an integer literal as `int()` accepts them: decimal digits with single underscores between them. */
  predicate DigitGroups(s: string)
  {
    |s| > 0 && IsDecimal(s[0]) && DecimalsOrUnderscores(s) &&
    forall i :: 0 <= i < |s| ==> IsDecimal(s[i]) || (s[i] == '_' && i + 1 < |s| && IsDecimal(s[i + 1]))
  }

  function DigitValue(c: char): nat
    requires IsDecimal(c)
  {
    c as int - '0' as int
  }

  function DigitChar(d: nat): (c: char)
    requires d < 10
    ensures IsDecimal(c) && DigitValue(c) == d
  {
    ('0' as int + d) as char
  }

  /** The value of a run of decimal digits, underscores skipped. */
  function DecimalValue(s: string): nat
    requires DecimalsOrUnderscores(s)
  {
    if s == [] then 0
    else if s[|s| - 1] == '_' then DecimalValue(s[..|s| - 1])
    else DecimalValue(s[..|s| - 1]) * 10 + DigitValue(s[|s| - 1])
  }

  /** `int(s)` for a `str` argument: `None` where Python raises `ValueError`. */
  function ParseInt(s: string): Option<int>
  {
    var t := Strip(s);
    if t != [] && (t[0] == '+' || t[0] == '-') then
      var body := t[1..];
      if DigitGroups(body) then
        var v: int := DecimalValue(body);
        Some(if t[0] == '-' then -v else v)
      else None
    else if DigitGroups(t) then Some(DecimalValue(t))
    else None
  }

  /** `str(n)` for a non-negative integer. */
  function NatToString(n: nat): (r: string)
    ensures |r| >= 1
    ensures forall i :: 0 <= i < |r| ==> IsDecimal(r[i])
  {
    if n < 10 then [DigitChar(n)] else NatToString(n / 10) + [DigitChar(n % 10)]
  }

  /** `str(i)` for any integer. */
  function IntToString(i: int): string
  {
    if i < 0 then "-" + NatToString(-i) else NatToString(i)
  }

  lemma {:induction false} DecimalValueOfNatToString(n: nat)
    ensures DecimalValue(NatToString(n)) == n
  {
    var r := NatToString(n);
    if n >= 10 {
      DecimalValueOfNatToString(n / 10);
      assert r[..|r| - 1] == NatToString(n / 10);
    }
  }

  lemma StripTrimmed(s: string)
    requires Trimmed(s)
    ensures Strip(s) == s
  {
    StripPadded([], s, []);
    assert [] + s + [] == s;
  }

  lemma DecimalsAreDigitGroups(s: string)
    requires |s| > 0 && forall i :: 0 <= i < |s| ==> IsDecimal(s[i])
    ensures DigitGroups(s) && Trimmed(s)
  {
  }

  /** `int(str(i)) == i`: the decimal rendering parses back to the same integer. */
  lemma ParseIntOfIntToString(i: int)
    ensures ParseInt(IntToString(i)) == Some(i)
  {
    var s := IntToString(i);
    var m: nat := if i < 0 then -i else i;
    var digits := NatToString(m);
    DecimalValueOfNatToString(m);
    DecimalsAreDigitGroups(digits);
    if i < 0 {
      assert s == "-" + digits;
      assert s[0] == '-' && s[|s| - 1] == digits[|digits| - 1];
      StripTrimmed(s);
      assert s[1..] == digits;
    } else {
      assert s == digits;
      StripTrimmed(s);
    }
  }

  /** Distinct numbers have distinct decimal renderings. */
  lemma NatToStringInjective(m: nat, n: nat)
    requires NatToString(m) == NatToString(n)
    ensures m == n
  {
    DecimalValueOfNatToString(m);
    DecimalValueOfNatToString(n);
  }

  /** A string of ASCII digits always parses. */
  lemma ParseIntOfDecimals(s: string)
    requires |s| > 0 && forall i :: 0 <= i < |s| ==> IsDecimal(s[i])
    ensures DecimalsOrUnderscores(s) && ParseInt(s) == Some(DecimalValue(s))
  {
    DecimalsAreDigitGroups(s);
    StripTrimmed(s);
  }
}
