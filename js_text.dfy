/**
 * The parts of the JavaScript string library that the quote checker and the
 * prompt builders rely on: the WhiteSpace and LineTerminator character sets
 * (used by `trim()`, by `\s` and by the `.` of a regular expression),
 * `trim()`, `toLowerCase()` (ASCII only), `includes()`, `split('\n')`,
 * `join(sep)` and the decimal rendering of a number inside a template string.
 */
module JsText {

  datatype Option<T> = None | Some(value: T)

  /** LineTerminator of ECMAScript: LF, CR, LINE SEPARATOR, PARAGRAPH SEPARATOR. */
  predicate IsLineTerminator(c: char) {
    c == '\n' || c == '\r' || c == '\U{2028}' || c == '\U{2029}'
  }

  /** WhiteSpace or LineTerminator of ECMAScript: what `trim()` strips and `\s` matches
      (TAB, VT, FF, ZWNBSP and every Space_Separator code point). */
  predicate IsWhiteSpace(c: char) {
    IsLineTerminator(c) || c == '\t' || c == '\U{000B}' || c == '\U{000C}' || c == ' '
    || c == '\U{00A0}' || c == '\U{1680}' || ('\U{2000}' <= c <= '\U{200A}')
    || c == '\U{202F}' || c == '\U{205F}' || c == '\U{3000}' || c == '\U{FEFF}'
  }

  /** Every character of `s` from `lo` up to `hi` is white space. */
  predicate WhiteSpaceBetween(s: string, lo: nat, hi: nat)
    requires lo <= hi <= |s|
  {
    forall i :: lo <= i < hi ==> IsWhiteSpace(s[i])
  }

  /** The first position at or after `i` that does not hold white space (or `|s|`). */
  function SkipWhiteSpace(s: string, i: nat): (n: nat)
    requires i <= |s|
    ensures i <= n <= |s|
    decreases |s| - i
  {
    if i < |s| && IsWhiteSpace(s[i]) then SkipWhiteSpace(s, i + 1) else i
  }

  /** SkipWhiteSpace passes over white space only and stops at the first other character. */
  lemma {:induction false} SkipWhiteSpaceStops(s: string, i: nat)
    requires i <= |s|
    ensures var n := SkipWhiteSpace(s, i);
            WhiteSpaceBetween(s, i, n) && (n < |s| ==> !IsWhiteSpace(s[n]))
    decreases |s| - i
  {
    if i < |s| && IsWhiteSpace(s[i]) {
      SkipWhiteSpaceStops(s, i + 1);
    }
  }

  /** The position just after the last character before `j` that is not white space
      (or 0). */
  function SkipWhiteSpaceBack(s: string, j: nat): (n: nat)
    requires j <= |s|
    ensures n <= j
  {
    if j > 0 && IsWhiteSpace(s[j - 1]) then SkipWhiteSpaceBack(s, j - 1) else j
  }

  /** SkipWhiteSpaceBack passes over white space only and stops just after the last
      other character. */
  lemma {:induction false} SkipWhiteSpaceBackStops(s: string, j: nat)
    requires j <= |s|
    ensures var n := SkipWhiteSpaceBack(s, j);
            WhiteSpaceBetween(s, n, j) && (n > 0 ==> !IsWhiteSpace(s[n - 1]))
  {
    if j > 0 && IsWhiteSpace(s[j - 1]) {
      SkipWhiteSpaceBackStops(s, j - 1);
    }
  }

  /** The characters of `s` from `lo` up to `hi`, copied one by one. */
  function Substring(s: string, lo: nat, hi: nat): (r: string)
    requires lo <= hi <= |s|
    ensures |r| == hi - lo
    decreases hi - lo
  {
    if lo == hi then [] else [s[lo]] + Substring(s, lo + 1, hi)
  }

  /** Character `i` of the copy is character `lo + i` of `s`: the copy is `s[lo..hi]`. */
  lemma {:induction false} SubstringChars(s: string, lo: nat, hi: nat)
    requires lo <= hi <= |s|
    ensures forall i :: 0 <= i < hi - lo ==> Substring(s, lo, hi)[i] == s[lo + i]
    decreases hi - lo
  {
    if lo < hi {
      SubstringChars(s, lo + 1, hi);
      var r := Substring(s, lo, hi);
      assert forall i :: 0 < i < hi - lo ==> r[i] == Substring(s, lo + 1, hi)[i - 1];
    }
  }

  /** `s.trim()`: `s` without its leading and trailing white space. */
  function Trim(s: string): (r: string)
    ensures |r| <= |s|
  {
    var start := SkipWhiteSpace(s, 0);
    var end := SkipWhiteSpaceBack(s, |s|);
    if start < end then Substring(s, start, end) else []
  }

  /** What `trim()` removes: `s` is white space up to `a`, then the result, then white
      space, and the result neither starts nor ends with white space. */
  lemma TrimStrips(s: string)
    ensures var r := Trim(s); var a := SkipWhiteSpace(s, 0);
            a + |r| <= |s| && (forall i :: 0 <= i < |r| ==> r[i] == s[a + i])
            && WhiteSpaceBetween(s, 0, a) && WhiteSpaceBetween(s, a + |r|, |s|)
    ensures var r := Trim(s); r != [] ==> !IsWhiteSpace(r[0]) && !IsWhiteSpace(r[|r| - 1])
  {
    var start := SkipWhiteSpace(s, 0);
    var end := SkipWhiteSpaceBack(s, |s|);
    SkipWhiteSpaceStops(s, 0);
    SkipWhiteSpaceBackStops(s, |s|);
    if start < end {
      SubstringChars(s, start, end);
    } else {
      assert start == |s|;
    }
  }

  /** A text that neither starts nor ends with white space is its own trim. */
  lemma TrimUnchanged(s: string)
    requires s != [] && !IsWhiteSpace(s[0]) && !IsWhiteSpace(s[|s| - 1])
    ensures Trim(s) == s
  {
    SubstringChars(s, 0, |s|);
  }

  /** `toLowerCase()` on one character, for the ASCII letters only. */
  function LowerChar(c: char): char {
    if 'A' <= c <= 'Z' then (c as int + 32) as char else c
  }

  /** `s.toLowerCase()`, ASCII letters only. */
  function ToLower(s: string): (r: string)
    ensures |r| == |s| && forall i :: 0 <= i < |s| ==> r[i] == LowerChar(s[i])
  {
    seq(|s|, i requires 0 <= i < |s| => LowerChar(s[i]))
  }

  predicate NoWhiteSpace(s: string) {
    forall i :: 0 <= i < |s| ==> !IsWhiteSpace(s[i])
  }

  /** `s.split(/\s+/)`: the pieces between the maximal runs of white space, with an empty
      first (last) piece when `s` starts (ends) with white space. */
  function SplitWhiteSpace(s: string): (r: seq<string>)
    ensures |r| >= 1
    ensures forall k :: 0 <= k < |r| ==> NoWhiteSpace(r[k])
    decreases |s|
  {
    if s == [] then [""]
    else if IsWhiteSpace(s[0]) then [""] + SplitWhiteSpace(s[SkipWhiteSpace(s, 0)..])
    else
      var p := SplitWhiteSpace(s[1..]);
      [[s[0]] + p[0]] + p[1..]
  }

  /** Position `i` holds the last character of a maximal run of white space. */
  predicate EndsRun(s: string, i: nat)
    requires i < |s|
  {
    IsWhiteSpace(s[i]) && (i + 1 == |s| || !IsWhiteSpace(s[i + 1]))
  }

  /** The number of maximal runs of white space in `s`, counted by their last characters. */
  function WhiteSpaceRuns(s: string): nat {
    if s == [] then 0
    else (if EndsRun(s, 0) then 1 else 0) + WhiteSpaceRuns(s[1..])
  }

  /** A text that starts with a run of white space up to `n` holds one run more than its
      part from `n` on. */
  lemma {:induction false} RunsOfLeadingWhiteSpace(s: string, i: nat, n: nat)
    requires i < n <= |s| && WhiteSpaceBetween(s, i, n)
    requires n < |s| ==> !IsWhiteSpace(s[n])
    ensures WhiteSpaceRuns(s[i..]) == 1 + WhiteSpaceRuns(s[n..])
    decreases n - i
  {
    assert s[i..][1..] == s[i + 1..];
    if i + 1 < n {
      assert !EndsRun(s[i..], 0);
      RunsOfLeadingWhiteSpace(s, i + 1, n);
    } else {
      assert EndsRun(s[i..], 0);
    }
  }

  /** Splitting at runs of white space gives one piece more than there are runs: so at
      least one piece, even for the empty text. */
  lemma {:induction false} SplitWhiteSpaceCount(s: string)
    ensures |SplitWhiteSpace(s)| == 1 + WhiteSpaceRuns(s)
    decreases |s|
  {
    if s != [] {
      if IsWhiteSpace(s[0]) {
        var n := SkipWhiteSpace(s, 0);
        SkipWhiteSpaceStops(s, 0);
        SplitWhiteSpaceCount(s[n..]);
        RunsOfLeadingWhiteSpace(s, 0, n);
        assert s[0..] == s;
      } else {
        SplitWhiteSpaceCount(s[1..]);
        assert !EndsRun(s, 0);
      }
    }
  }

  /** `needle` occurs in `hay` at offset `i`. */
  predicate OccursAt(hay: string, needle: string, i: int) {
    0 <= i && i + |needle| <= |hay| && hay[i..i + |needle|] == needle
  }

  /** `hay.includes(needle)`: true exactly when `needle` occurs somewhere in `hay`. */
  function Includes(hay: string, needle: string): (r: bool)
    ensures r <==> exists i :: OccursAt(hay, needle, i)
  {
    if |needle| > |hay| then
      assert forall i :: !OccursAt(hay, needle, i);
      false
    else if hay[..|needle|] == needle then
      assert OccursAt(hay, needle, 0);
      true
    else
      var r := Includes(hay[1..], needle);
      ShiftOccurrence(hay, needle);
      assert (exists i :: OccursAt(hay, needle, i)) ==> r by {
        if i :| OccursAt(hay, needle, i) {
          assert i != 0;
          assert OccursAt(hay[1..], needle, i - 1);
        }
      }
      r
  }

  lemma ShiftOccurrence(hay: string, needle: string)
    requires hay != []
    ensures forall i :: 0 <= i ==> (OccursAt(hay[1..], needle, i) <==> OccursAt(hay, needle, i + 1))
  {
    forall i | 0 <= i
      ensures OccursAt(hay[1..], needle, i) <==> OccursAt(hay, needle, i + 1)
    {
      if 0 <= i && i + |needle| <= |hay| - 1 {
        assert hay[1..][i..i + |needle|] == hay[i + 1..i + 1 + |needle|];
      }
    }
  }

  /** Concatenation of sequences is associative. */
  lemma ConcatAssociative<T>(a: seq<T>, b: seq<T>, c: seq<T>)
    ensures (a + b) + c == a + (b + c)
  {
  }

  /** Each of four concatenated parts can be cut back out of the whole. */
  lemma FourParts<T>(a: seq<T>, b: seq<T>, c: seq<T>, d: seq<T>)
    ensures var s := a + b + c + d;
            s[..|a|] == a && s[|a|..|a| + |b|] == b
            && s[|a| + |b|..|s| - |d|] == c && s[|s| - |d|..] == d
  {
    var s := a + b + c + d;
    assert s == a + (b + (c + d));
  }

  /** `prefix` is a prefix of `s`. */
  predicate StartsWith(s: string, prefix: string) {
    |prefix| <= |s| && s[..|prefix|] == prefix
  }

  /** A text starts with its first part, and what follows that part is the rest. */
  lemma StartsWithConcat(a: string, b: string)
    ensures StartsWith(a + b, a) && (a + b)[|a|..] == b
  {
    assert (a + b)[..|a|] == a;
  }

  /** A prefix of a text is a prefix of any extension of it. */
  lemma StartsWithExtend(s: string, prefix: string, more: string)
    requires StartsWith(s, prefix)
    ensures StartsWith(s + more, prefix)
  {
    assert (s + more)[..|prefix|] == s[..|prefix|];
  }

  /** A text includes its first part. */
  lemma IncludesStart(a: string, b: string)
    ensures Includes(a + b, a)
  {
    StartsWithConcat(a, b);
    assert OccursAt(a + b, a, 0);
  }

  /** A prefix of a prefix is a prefix. */
  lemma StartsWithTransitive(s: string, t: string, u: string)
    requires StartsWith(s, t) && StartsWith(t, u)
    ensures StartsWith(s, u)
  {
    assert s[..|u|] == s[..|t|][..|u|];
  }

  /** Each line followed by a line feed, concatenated. */
  function Unlines(lines: seq<string>): string {
    if lines == [] then "" else lines[0] + "\n" + Unlines(lines[1..])
  }

  lemma {:induction false} UnlinesAppend(a: seq<string>, b: seq<string>)
    ensures Unlines(a + b) == Unlines(a) + Unlines(b)
  {
    if a == [] {
      assert a + b == b;
    } else {
      assert (a + b)[1..] == a[1..] + b;
      UnlinesAppend(a[1..], b);
    }
  }

  /** One step of splitting at line feeds: the character `c` put in front of a text
      whose split is `r`. */
  function PrependChar(c: char, r: (seq<string>, string)): (seq<string>, string) {
    if c == '\n' then ([""] + r.0, r.1)
    else if r.0 == [] then ([], [c] + r.1)
    else ([[c] + r.0[0]] + r.0[1..], r.1)
  }

  /** Splits `s` at every line feed: the complete lines (without their line feeds) and the
      text after the last line feed.  `s.split('\n')` is `r.0 + [r.1]`. */
  function SplitLines(s: string): (r: (seq<string>, string))
    ensures Unlines(r.0) + r.1 == s
    ensures '\n' !in r.1
    ensures forall k :: 0 <= k < |r.0| ==> '\n' !in r.0[k]
  {
    if s == [] then ([], "")
    else
      var t := SplitLines(s[1..]);
      PrependCharSound(s[0], s[1..], t);
      assert [s[0]] + s[1..] == s;
      PrependChar(s[0], t)
  }

  lemma PrependCharSound(c: char, rest: string, t: (seq<string>, string))
    requires Unlines(t.0) + t.1 == rest
    requires '\n' !in t.1
    requires forall k :: 0 <= k < |t.0| ==> '\n' !in t.0[k]
    ensures var r := PrependChar(c, t);
            Unlines(r.0) + r.1 == [c] + rest && '\n' !in r.1
            && forall k :: 0 <= k < |r.0| ==> '\n' !in r.0[k]
  {
    var (lines, tail) := t;
    if c == '\n' {
      assert ([""] + lines)[1..] == lines;
    } else if lines != [] {
      var first := [c] + lines[0];
      assert ([first] + lines[1..])[1..] == lines[1..];
      assert Unlines([first] + lines[1..]) == [c] + Unlines(lines);
    }
  }

  /** `s.split('\n')` as JavaScript computes it. */
  function JsSplitLines(s: string): (r: seq<string>)
    ensures |r| >= 1
  {
    SplitLines(s).0 + [SplitLines(s).1]
  }

  /** The split of a text is the split of its first part, with the text after the first
      part's last line feed carried into the split of the rest. */
  lemma {:induction false} SplitLinesAppend(a: string, b: string)
    ensures var ra := SplitLines(a).1;
            SplitLines(a + b) == (SplitLines(a).0 + SplitLines(ra + b).0, SplitLines(ra + b).1)
  {
    if a != [] {
      assert (a + b)[1..] == a[1..] + b;
      assert (a + b)[0] == a[0];
      SplitLinesAppend(a[1..], b);
      var sa := SplitLines(a[1..]);
      var sr := SplitLines(sa.1 + b);
      PrependCharAppend(a[0], sa, sr);
      if a[0] != '\n' && sa.0 == [] {
        var ra := [a[0]] + sa.1;
        assert (ra + b)[1..] == sa.1 + b;
        assert (ra + b)[0] == a[0];
        assert SplitLines(ra + b) == PrependChar(a[0], sr);
        assert SplitLines(a) == PrependChar(a[0], sa) == ([], ra);
        assert SplitLines(a + b) == PrependChar(a[0], SplitLines(a[1..] + b));
        assert SplitLines(a + b) == SplitLines(ra + b);
        assert [] + SplitLines(ra + b).0 == SplitLines(ra + b).0;
      }
    } else {
      assert SplitLines(a) == ([], "");
      assert a + b == b == SplitLines(a).1 + b;
      assert [] + SplitLines(b).0 == SplitLines(b).0;
    }
  }

  /** The step of SplitLinesAppend: prepending a character commutes with appending the
      split of the carried text, except when the character joins the carried text. */
  lemma PrependCharAppend(c: char, sa: (seq<string>, string), sr: (seq<string>, string))
    ensures c == '\n' || sa.0 != [] ==>
      PrependChar(c, (sa.0 + sr.0, sr.1)) == (PrependChar(c, sa).0 + sr.0, sr.1)
    ensures c != '\n' && sa.0 == [] ==>
      PrependChar(c, (sa.0 + sr.0, sr.1)) == PrependChar(c, sr) && PrependChar(c, sa) == ([], [c] + sa.1)
  {
    if c == '\n' {
      assert [""] + (sa.0 + sr.0) == ([""] + sa.0) + sr.0;
    } else if sa.0 != [] {
      assert (sa.0 + sr.0)[0] == sa.0[0];
      assert (sa.0 + sr.0)[1..] == sa.0[1..] + sr.0;
      var first := [c] + sa.0[0];
      assert ([first] + sa.0[1..]) + sr.0 == [first] + (sa.0[1..] + sr.0);
    } else {
      assert sa.0 + sr.0 == sr.0;
    }
  }

  /** A text without line feeds splits into no complete line and itself. */
  lemma {:induction false} SplitLinesNoNewline(s: string)
    requires '\n' !in s
    ensures SplitLines(s) == ([], s)
  {
    if s != [] {
      assert '\n' !in s[1..];
      SplitLinesNoNewline(s[1..]);
      assert [s[0]] + s[1..] == s;
    }
  }

  /** A line without line feeds, a line feed, and then `y`: the line comes first in the
      split, then the split of `y`. */
  lemma {:induction false} SplitLinesLine(x: string, y: string)
    requires '\n' !in x
    ensures SplitLines(x + "\n" + y) == ([x] + SplitLines(y).0, SplitLines(y).1)
  {
    var s := x + "\n" + y;
    if x == [] {
      assert s[1..] == y;
    } else {
      assert s[1..] == x[1..] + "\n" + y;
      assert '\n' !in x[1..];
      SplitLinesLine(x[1..], y);
      assert [x[0]] + x[1..] == x;
    }
  }

  /** `lines.join(sep)`: the empty list joins to "". */
  function Join(lines: seq<string>, sep: string): string {
    if lines == [] then ""
    else if |lines| == 1 then lines[0]
    else lines[0] + sep + Join(lines[1..], sep)
  }

  /** Joining lines that hold no line feed with '\n' and splitting the result again at
      '\n' gives the lines back. */
  lemma {:induction false} SplitJoinRoundTrip(lines: seq<string>)
    requires |lines| >= 1
    requires forall k :: 0 <= k < |lines| ==> '\n' !in lines[k]
    ensures JsSplitLines(Join(lines, "\n")) == lines
  {
    if |lines| == 1 {
      SplitLinesNoNewline(lines[0]);
    } else {
      var rest := Join(lines[1..], "\n");
      SplitJoinRoundTrip(lines[1..]);
      SplitLinesLine(lines[0], rest);
      assert lines == [lines[0]] + lines[1..];
    }
  }

  function DigitChar(d: nat): char
    requires d < 10
  {
    ('0' as int + d) as char
  }

  /** Decimal rendering of `n`, as `${n}` prints it: a non-empty run of digits with no
      leading zero. */
  function NatToString(n: nat): (r: string)
    ensures |r| >= 1
  {
    if n < 10 then [DigitChar(n)] else NatToString(n / 10) + [DigitChar(n % 10)]
  }

  /** The rendering consists of decimal digits only and has no leading zero. */
  lemma {:induction false} NatToStringDigits(n: nat)
    ensures forall i :: 0 <= i < |NatToString(n)| ==> '0' <= NatToString(n)[i] <= '9'
    ensures |NatToString(n)| > 1 ==> NatToString(n)[0] != '0'
  {
    if n >= 10 {
      NatToStringDigits(n / 10);
    }
  }

  /** The decimal rendering is one-to-one, so distinct numbers are told apart. */
  lemma {:induction false} NatToStringInjective(m: nat, n: nat)
    requires NatToString(m) == NatToString(n)
    ensures m == n
  {
    var r := NatToString(m);
    if m >= 10 && n >= 10 {
      assert NatToString(m / 10) == r[..|r| - 1] == NatToString(n / 10);
      NatToStringInjective(m / 10, n / 10);
    }
  }

  /** The number a run of decimal digits denotes. */
  function DigitsValue(s: string): nat {
    if s == [] then 0
    else
      var d := s[|s| - 1] as int - '0' as int;
      DigitsValue(s[..|s| - 1]) * 10 + (if 0 <= d then d else 0)
  }

  /** Reading the decimal rendering back gives the number. */
  lemma {:induction false} NatToStringValue(n: nat)
    ensures DigitsValue(NatToString(n)) == n
  {
    var r := NatToString(n);
    if n >= 10 {
      assert r[..|r| - 1] == NatToString(n / 10);
      NatToStringValue(n / 10);
    } else {
      assert r[..0] == [];
    }
  }

  // ---------------------------------------------------------------------------
  // Lengths

  /** The number of UTF-16 code units of one character: two for a character outside the
      Basic Multilingual Plane, which JavaScript stores as a surrogate pair. */
  function Utf16Units(c: char): nat {
    if c as int < 0x1_0000 then 1 else 2
  }

  /** `s.length`: the number of UTF-16 code units of `s`. */
  function Utf16Length(s: string): (n: nat)
    ensures |s| <= n <= 2 * |s|
  {
    if s == [] then 0 else Utf16Length(s[..|s| - 1]) + Utf16Units(s[|s| - 1])
  }

  /** The length of a concatenation is the sum of the lengths. */
  lemma {:induction false} Utf16LengthAppend(a: string, b: string)
    ensures Utf16Length(a + b) == Utf16Length(a) + Utf16Length(b)
    decreases |b|
  {
    if b == [] {
      assert a + b == a;
    } else {
      assert (a + b)[..|a + b| - 1] == a + b[..|b| - 1];
      Utf16LengthAppend(a, b[..|b| - 1]);
    }
  }

  /** A text of characters outside the Basic Multilingual Plane has two code units per
      character. */
  lemma {:induction false} Utf16LengthAstral(s: string)
    requires forall i :: 0 <= i < |s| ==> s[i] as int >= 0x1_0000
    ensures Utf16Length(s) == 2 * |s|
  {
    if s != [] {
      Utf16LengthAstral(s[..|s| - 1]);
    }
  }

  /** A text of Basic Multilingual Plane characters has one code unit per character, and
      any other text has more code units than characters. */
  lemma {:induction false} Utf16LengthBmp(s: string)
    ensures Utf16Length(s) == |s| <==> forall i :: 0 <= i < |s| ==> s[i] as int < 0x1_0000
  {
    if s != [] {
      var t := s[..|s| - 1];
      Utf16LengthBmp(t);
      assert forall i :: 0 <= i < |t| ==> t[i] == s[i];
    }
  }
}
