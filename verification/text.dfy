/** String operations of Python's `str` that the modelled code relies on:
    prefix and substring tests, `strip`, ASCII case mapping, `join`,
    `replace`, and `str(n)` for non-negative integers. */
module Text {

  predicate StartsWith(s: string, prefix: string) {
    |prefix| <= |s| && s[..|prefix|] == prefix
  }

  /** Python's `part in s`. */
  predicate Contains(s: string, part: string)
    decreases |s|
  {
    StartsWith(s, part) || (|s| > 0 && Contains(s[1..], part))
  }

  /** The characters Python's `str.isspace` accepts, which `str.strip()` removes. */
  predicate IsSpace(c: char) {
    || ('\t' <= c <= '\r') || ('\U{1c}' <= c <= ' ')
    || c == '\U{85}' || c == '\U{a0}' || c == '\U{1680}'
    || ('\U{2000}' <= c <= '\U{200a}') || c == '\U{2028}' || c == '\U{2029}'
    || c == '\U{202f}' || c == '\U{205f}' || c == '\U{3000}'
  }

  predicate AllSpace(s: string) {
    forall i :: 0 <= i < |s| ==> IsSpace(s[i])
  }

  /** `s.lstrip()`: drops the leading whitespace. */
  function LStrip(s: string): (r: string)
    ensures |r| <= |s| && r == s[|s| - |r|..]
    ensures AllSpace(s[..|s| - |r|])
    ensures r == [] || !IsSpace(r[0])
    decreases |s|
  {
    if |s| > 0 && IsSpace(s[0]) then
      var r := LStrip(s[1..]);
      assert s[..|s| - |r|] == [s[0]] + s[1..][..|s| - 1 - |r|];
      r
    else s
  }

  /** `s.rstrip()`: drops the trailing whitespace. */
  function RStrip(s: string): (r: string)
    ensures |r| <= |s| && r == s[..|r|]
    ensures AllSpace(s[|r|..])
    ensures r == [] || !IsSpace(r[|r| - 1])
    decreases |s|
  {
    if |s| > 0 && IsSpace(s[|s| - 1]) then
      var r := RStrip(s[..|s| - 1]);
      assert s[|r|..] == s[..|s| - 1][|r|..] + [s[|s| - 1]];
      r
    else s
  }

  /** Leading whitespace does not change what `lstrip` leaves. */
  lemma {:induction false} LStripAfterSpace(w: string, s: string)
    requires AllSpace(w)
    ensures LStrip(w + s) == LStrip(s)
    decreases |w|
  {
    if |w| > 0 {
      assert (w + s)[1..] == w[1..] + s;
      LStripAfterSpace(w[1..], s);
    } else {
      assert w + s == s;
    }
  }

  /** `s.strip()`. */
  function Strip(s: string): string {
    RStrip(LStrip(s))
  }

  /** Trailing whitespace does not change what `rstrip` leaves. */
  lemma {:induction false} RStripBeforeSpace(s: string, v: string)
    requires AllSpace(v)
    ensures RStrip(s + v) == RStrip(s)
    decreases |v|
  {
    if |v| > 0 {
      assert (s + v)[..|s + v| - 1] == s + v[..|v| - 1];
      RStripBeforeSpace(s, v[..|v| - 1]);
    } else {
      assert s + v == s;
    }
  }

  /** `rstrip` keeps everything up to the last non-space character. */
  lemma RStripKeeps(s: string, n: nat)
    requires 0 < n <= |s| && !IsSpace(s[n - 1])
    ensures |RStrip(s)| >= n && RStrip(s)[..n] == s[..n]
  {
    var r := RStrip(s);
    assert forall i | |r| <= i < |s| :: s[i] == s[|r|..][i - |r|];
    assert |r| >= n;
  }

  /** Text that starts and ends with a non-space character is its own
      `strip()`, whatever whitespace surrounds it. */
  lemma StripOfTrimmed(w: string, s: string, v: string)
    requires AllSpace(w) && AllSpace(v)
    requires |s| > 0 && !IsSpace(s[0]) && !IsSpace(s[|s| - 1])
    ensures Strip(w + s + v) == s
  {
    assert w + s + v == w + (s + v);
    LStripAfterSpace(w, s + v);
    assert LStrip(s + v) == s + v;
    RStripBeforeSpace(s, v);
  }

  /** The upper case of `c`, as far as a test for an ASCII prefix can
      tell: the ASCII letters, the long s and the dotless i, whose upper
      cases are ASCII letters, and t with diaeresis, whose upper case is T
      followed by a combining diaeresis. */
  function UpperChar(c: char): char {
    if 'a' <= c <= 'z' then (c as int - 32) as char
    else if c == '\U{17f}' then 'S'
    else if c == '\U{131}' then 'I'
    else if c == '\U{1e97}' then 'T'
    else c
  }

  function LowerChar(c: char): char {
    if 'A' <= c <= 'Z' then (c as int + 32) as char else c
  }

  /** `s.upper()`, character by character (see `UpperChar`). */
  function Upper(s: string): (r: string)
    ensures |r| == |s| && forall i :: 0 <= i < |s| ==> r[i] == UpperChar(s[i])
  {
    seq(|s|, i requires 0 <= i < |s| => UpperChar(s[i]))
  }

  /** `s.lower()` restricted to the ASCII letters. */
  function Lower(s: string): (r: string)
    ensures |r| == |s| && forall i :: 0 <= i < |s| ==> r[i] == LowerChar(s[i])
  {
    seq(|s|, i requires 0 <= i < |s| => LowerChar(s[i]))
  }

  /** `part in s` holds as soon as `part` sits at some position of `s`. */
  lemma {:induction false} ContainsAt(s: string, part: string, i: nat)
    requires i + |part| <= |s| && s[i..i + |part|] == part
    ensures Contains(s, part)
    decreases i
  {
    if i > 0 {
      assert s[1..][i - 1..i - 1 + |part|] == s[i..i + |part|];
      ContainsAt(s[1..], part, i - 1);
    }
  }

  /** ... and only then: `part in s` names a position of `s` where `part` sits. */
  lemma {:induction false} ContainsPosition(s: string, part: string) returns (i: nat)
    requires Contains(s, part)
    ensures i + |part| <= |s| && s[i..i + |part|] == part
    decreases |s|
  {
    if StartsWith(s, part) {
      i := 0;
    } else {
      var j := ContainsPosition(s[1..], part);
      i := j + 1;
      assert s[i..i + |part|] == s[1..][j..j + |part|];
    }
  }

  /** A string that contains `part` still contains it inside any longer text. */
  lemma ContainsWithin(a: string, s: string, b: string, part: string)
    requires Contains(s, part)
    ensures Contains(a + s + b, part)
  {
    var i := ContainsPosition(s, part);
    assert (a + s + b)[|a| + i..|a| + i + |part|] == s[i..i + |part|];
    ContainsAt(a + s + b, part, |a| + i);
  }

  /** `part in s` implies `part.lower() in s.lower()`. */
  lemma ContainsLower(s: string, part: string)
    requires Contains(s, part)
    ensures Contains(Lower(s), Lower(part))
  {
    var i := ContainsPosition(s, part);
    assert Lower(s)[i..i + |part|] == Lower(part);
    ContainsAt(Lower(s), Lower(part), i);
  }

  /** A text without the first character of `part` does not contain `part`. */
  lemma {:induction false} MissingFirstChar(s: string, part: string)
    requires |part| > 0 && forall i :: 0 <= i < |s| ==> s[i] != part[0]
    ensures !Contains(s, part)
    decreases |s|
  {
    if |s| > 0 {
      MissingFirstChar(s[1..], part);
      assert |part| <= |s| ==> s[..|part|][0] == s[0];
    }
  }

  /** A text shorter than `part` cannot contain it. */
  lemma {:induction false} ShorterAbsent(s: string, part: string)
    requires |s| < |part|
    ensures !Contains(s, part)
    decreases |s|
  {
    if |s| > 0 {
      ShorterAbsent(s[1..], part);
    }
  }

  /** Python's `s.replace(pat, sub)`: every occurrence of `pat`, scanning
      from the left and never overlapping, becomes `sub`; an empty `pat`
      matches before every character and at the end. */
  function Replace(s: string, pat: string, sub: string): string
    decreases |s|
  {
    if |pat| == 0 then
      if |s| == 0 then sub else sub + [s[0]] + Replace(s[1..], pat, sub)
    else if StartsWith(s, pat) then sub + Replace(s[|pat|..], pat, sub)
    else if |s| == 0 then ""
    else [s[0]] + Replace(s[1..], pat, sub)
  }

  /** Text without an occurrence of `pat` is left as it is. */
  lemma {:induction false} ReplaceAbsent(s: string, pat: string, sub: string)
    requires |pat| > 0 && !Contains(s, pat)
    ensures Replace(s, pat, sub) == s
    decreases |s|
  {
    if |s| > 0 {
      ReplaceAbsent(s[1..], pat, sub);
    }
  }

  /** The first occurrence of `pat` is rewritten and the text before it kept:
      if `pat` first appears right after `u`, the result is `u`, then `sub`,
      then the replacement of what follows. */
  lemma {:induction false} ReplaceFirst(u: string, pat: string, v: string, sub: string)
    requires |pat| > 0 && !Contains(u + pat[..|pat| - 1], pat)
    ensures Replace(u + pat + v, pat, sub) == u + sub + Replace(v, pat, sub)
    decreases |u|
  {
    if |u| == 0 {
      ReplaceAtStart(pat, v, sub);
      assert u + pat + v == pat + v;
    } else {
      var s := u + pat + v;
      var head := u + pat[..|pat| - 1];
      assert head[..|pat|] == s[..|pat|];
      assert s[1..] == u[1..] + pat + v;
      assert head[1..] == u[1..] + pat[..|pat| - 1];
      ReplaceFirst(u[1..], pat, v, sub);
      ConcatAssoc([u[0]], u[1..], sub, Replace(v, pat, sub));
      assert [u[0]] + u[1..] == u;
    }
  }

  /** A match at the very start is replaced and the scan resumes after it. */
  lemma ReplaceAtStart(pat: string, v: string, sub: string)
    requires |pat| > 0
    ensures Replace(pat + v, pat, sub) == sub + Replace(v, pat, sub)
  {
    var s := pat + v;
    assert s[..|pat|] == pat;
    assert s[|pat|..] == v;
  }

  /** A character that does not occur in `pat` splits the replacement: no
      occurrence of `pat` can straddle it. */
  lemma ReplaceAround(a: string, c: char, b: string, pat: string, sub: string)
    requires |pat| > 0 && forall i :: 0 <= i < |pat| ==> pat[i] != c
    ensures Replace(a + [c] + b, pat, sub) == Replace(a, pat, sub) + [c] + Replace(b, pat, sub)
    decreases |a|, 1
  {
    if |a| == 0 {
      ReplaceAroundFirst(c, b, pat, sub);
      assert a + [c] + b == [c] + b;
    } else if StartsWith(a + [c] + b, pat) {
      ReplaceAroundMatch(a, c, b, pat, sub);
    } else {
      ReplaceAroundSkip(a, c, b, pat, sub);
    }
  }

  /** No match can start at the separating character itself. */
  lemma ReplaceAroundFirst(c: char, b: string, pat: string, sub: string)
    requires |pat| > 0 && forall i :: 0 <= i < |pat| ==> pat[i] != c
    ensures Replace([c] + b, pat, sub) == [c] + Replace(b, pat, sub)
  {
    var s := [c] + b;
    assert |pat| <= |s| ==> s[..|pat|][0] == c;
    assert s[1..] == b;
  }

  /** A match at the start of `a` lies wholly inside `a`. */
  lemma {:induction false} ReplaceAroundMatch(a: string, c: char, b: string, pat: string, sub: string)
    requires |pat| > 0 && forall i :: 0 <= i < |pat| ==> pat[i] != c
    requires |a| > 0 && StartsWith(a + [c] + b, pat)
    ensures Replace(a + [c] + b, pat, sub) == Replace(a, pat, sub) + [c] + Replace(b, pat, sub)
    decreases |a|, 0
  {
    var s := a + [c] + b;
    assert s[|a|] == c;
    assert forall i | 0 <= i < |pat| :: s[i] == pat[i] != c;
    assert |pat| <= |a|;
    assert a[..|pat|] == s[..|pat|];
    assert s[|pat|..] == a[|pat|..] + [c] + b;
    ReplaceAround(a[|pat|..], c, b, pat, sub);
    ConcatAssoc(sub, Replace(a[|pat|..], pat, sub), [c], Replace(b, pat, sub));
  }

  /** Regrouping a concatenation of four strings. */
  lemma ConcatAssoc(w: string, x: string, y: string, z: string)
    ensures w + (x + y + z) == w + x + y + z
    ensures w + x + (y + z) == w + x + y + z
  {
  }

  /** Without a match at the start, the first character of `a` is kept. */
  lemma {:induction false} ReplaceAroundSkip(a: string, c: char, b: string, pat: string, sub: string)
    requires |pat| > 0 && forall i :: 0 <= i < |pat| ==> pat[i] != c
    requires |a| > 0 && !StartsWith(a + [c] + b, pat)
    ensures Replace(a + [c] + b, pat, sub) == Replace(a, pat, sub) + [c] + Replace(b, pat, sub)
    decreases |a|, 0
  {
    var s := a + [c] + b;
    assert |pat| <= |a| ==> s[..|pat|] == a[..|pat|];
    assert s[1..] == a[1..] + [c] + b;
    ReplaceAround(a[1..], c, b, pat, sub);
    ConcatAssoc([a[0]], Replace(a[1..], pat, sub), [c], Replace(b, pat, sub));
  }

  /** Case mapping works character by character, so it commutes with slicing. */
  lemma UpperSlice(s: string, i: nat, j: nat)
    requires i <= j <= |s|
    ensures Upper(s)[i..j] == Upper(s[i..j])
  {
  }

  /** `sep.join(parts)`. */
  function Join(parts: seq<string>, sep: string): string
    decreases |parts|
  {
    if |parts| == 0 then ""
    else if |parts| == 1 then parts[0]
    else parts[0] + sep + Join(parts[1..], sep)
  }

  predicate IsDigit(c: char) {
    '0' <= c <= '9'
  }

  function DigitChar(d: nat): (c: char)
    requires d < 10
    ensures IsDigit(c)
  {
    ('0' as int + d) as char
  }

  /** `str(n)` for a non-negative integer: its decimal digits, without
      leading zeros. */
  function Decimal(n: nat): (r: string)
    ensures |r| > 0 && forall i :: 0 <= i < |r| ==> IsDigit(r[i])
    ensures |r| > 1 ==> r[0] != '0'
    decreases n
  {
    if n < 10 then [DigitChar(n)] else Decimal(n / 10) + [DigitChar(n % 10)]
  }

  /** The number a string of decimal digits denotes. */
  function DigitsValue(s: string): nat
    requires forall i :: 0 <= i < |s| ==> IsDigit(s[i])
    decreases |s|
  {
    if |s| == 0 then 0
    else
      assert IsDigit(s[|s| - 1]);
      DigitsValue(s[..|s| - 1]) * 10 + (s[|s| - 1] as int - '0' as int)
  }

  /** Reading back the digits `str(n)` prints gives `n`. */
  lemma {:induction false} DecimalRoundTrip(n: nat)
    ensures DigitsValue(Decimal(n)) == n
    decreases n
  {
    if n >= 10 {
      DecimalRoundTrip(n / 10);
      var r := Decimal(n);
      assert r[..|r| - 1] == Decimal(n / 10);
    }
  }

  /** Different numbers print differently. */
  lemma DecimalInjective(m: nat, n: nat)
    requires Decimal(m) == Decimal(n)
    ensures m == n
  {
    DecimalRoundTrip(m);
    DecimalRoundTrip(n);
  }
}
