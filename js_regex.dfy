/**
 * The two global regular expressions the application uses to find quotations in a
 * draft, and the `while ((match = re.exec(text)) !== null)` loop that drives them.
 *
 * `exec` on a global expression searches from `lastIndex` for the leftmost position
 * where the pattern matches, and then sets `lastIndex` just past the match.  Both
 * patterns consist of an opening delimiter, a lazy or negated-class body and a closing
 * delimiter, so each match is described by the indices of its two delimiters.
 */
module JsRegex {
  import opened JsText

  datatype Pattern =
    | AnyQuotePair  // /["'](.*?)["']/g: either delimiter opens, the nearest either one closes
    | DoubleQuoted  // /"([^"]+)"/g: straight double quotes around at least one character

  predicate IsQuoteDelimiter(c: char) {
    c == '"' || c == '\''
  }

  /** The characters that can open (and close) a match of the pattern. */
  predicate IsDelimiter(pat: Pattern, c: char) {
    match pat
    case AnyQuotePair => IsQuoteDelimiter(c)
    case DoubleQuoted => c == '"'
  }

  /** Characters the body of a match may contain: `.` stops at line terminators, and a
      lazy body stops at the first delimiter; `[^"]` admits anything but `"`. */
  predicate InBody(pat: Pattern, c: char) {
    match pat
    case AnyQuotePair => !IsQuoteDelimiter(c) && !IsLineTerminator(c)
    case DoubleQuoted => c != '"'
  }

  predicate BodyBetween(pat: Pattern, s: string, lo: nat, hi: nat)
    requires lo <= hi <= |s|
  {
    forall m :: lo <= m < hi ==> InBody(pat, s[m])
  }

  /** The pattern matches `s` from the delimiter at `p` to the delimiter at `j`. */
  predicate IsMatch(pat: Pattern, s: string, p: nat, j: nat) {
    p < j < |s| && IsDelimiter(pat, s[p]) && IsDelimiter(pat, s[j])
    && BodyBetween(pat, s, p + 1, j)
    && (pat == DoubleQuoted ==> p + 1 < j)
  }

  /** The nearest closing delimiter at or after `k`, provided only body characters lie
      in between. */
  function CloseFrom(pat: Pattern, s: string, k: nat): (r: Option<nat>)
    requires k <= |s|
    ensures r.Some? ==> k <= r.value < |s| && IsDelimiter(pat, s[r.value])
    decreases |s| - k
  {
    if k == |s| then None
    else if IsDelimiter(pat, s[k]) then Some(k)
    else if !InBody(pat, s[k]) then None
    else CloseFrom(pat, s, k + 1)
  }

  /** Only body characters lie between `k` and the delimiter CloseFrom finds. */
  lemma {:induction false} CloseFromBody(pat: Pattern, s: string, k: nat)
    requires k <= |s| && CloseFrom(pat, s, k).Some?
    ensures BodyBetween(pat, s, k, CloseFrom(pat, s, k).value)
    decreases |s| - k
  {
    if !IsDelimiter(pat, s[k]) {
      CloseFromBody(pat, s, k + 1);
    }
  }

  /** Any delimiter reached through body characters only is the one CloseFrom finds. */
  lemma {:induction false} CloseFromNearest(pat: Pattern, s: string, k: nat, j: nat)
    requires k <= j < |s| && IsDelimiter(pat, s[j]) && BodyBetween(pat, s, k, j)
    ensures CloseFrom(pat, s, k) == Some(j)
    decreases j - k
  {
    if k < j {
      assert InBody(pat, s[k]);
      assert !IsDelimiter(pat, s[k]) by {
        match pat
        case AnyQuotePair =>
        case DoubleQuoted =>
      }
      CloseFromNearest(pat, s, k + 1, j);
    }
  }

  /** Where a match that starts at `p` closes, if the pattern matches at `p` at all. */
  function MatchAt(pat: Pattern, s: string, p: nat): (r: Option<nat>)
    ensures r.Some? ==> p < r.value < |s|
  {
    if p < |s| && IsDelimiter(pat, s[p]) then
      match CloseFrom(pat, s, p + 1)
      case Some(j) => if pat == DoubleQuoted && j == p + 1 then None else Some(j)
      case None => None
    else None
  }

  /** What MatchAt reports is a match of the pattern. */
  lemma MatchAtSound(pat: Pattern, s: string, p: nat)
    requires MatchAt(pat, s, p).Some?
    ensures IsMatch(pat, s, p, MatchAt(pat, s, p).value)
  {
    CloseFromBody(pat, s, p + 1);
  }

  /** MatchAt finds every match: the pattern matches at `p` exactly when MatchAt says so,
      and then with the closing delimiter MatchAt names. */
  lemma MatchAtComplete(pat: Pattern, s: string, p: nat, j: nat)
    requires IsMatch(pat, s, p, j)
    ensures MatchAt(pat, s, p) == Some(j)
  {
    CloseFromNearest(pat, s, p + 1, j);
  }

  /** The indices of a match's two delimiters. */
  datatype Span = Span(open: nat, close: nat)

  predicate NoMatchIn(pat: Pattern, s: string, lo: nat, hi: nat) {
    forall p :: lo <= p < hi ==> MatchAt(pat, s, p).None?
  }

  /** `re.exec(s)` with `re.lastIndex == from`: the leftmost match at or after `from`. */
  function Exec(pat: Pattern, s: string, from: nat): (r: Option<Span>)
    ensures r.Some? ==> from <= r.value.open < r.value.close < |s|
    decreases |s| - from
  {
    if from >= |s| then None
    else match MatchAt(pat, s, from)
      case Some(j) => Some(Span(from, j))
      case None => Exec(pat, s, from + 1)
  }

  /** What `exec` reports is a match of the pattern. */
  lemma {:induction false} ExecSound(pat: Pattern, s: string, from: nat)
    requires Exec(pat, s, from).Some?
    ensures var sp := Exec(pat, s, from).value; IsMatch(pat, s, sp.open, sp.close)
    decreases |s| - from
  {
    if MatchAt(pat, s, from).Some? {
      MatchAtSound(pat, s, from);
    } else {
      ExecSound(pat, s, from + 1);
    }
  }

  /** Where no opening delimiter is left, `exec` finds nothing. */
  lemma {:induction false} ExecNoDelimiter(pat: Pattern, s: string, from: nat)
    requires forall i :: from <= i < |s| ==> !IsDelimiter(pat, s[i])
    ensures Exec(pat, s, from).None?
    decreases |s| - from
  {
    if from < |s| {
      ExecNoDelimiter(pat, s, from + 1);
    }
  }

  /** Exec reports the leftmost match: none starts between `from` and the one it
      reports, or anywhere after `from` when it reports none. */
  lemma {:induction false} ExecLeftmost(pat: Pattern, s: string, from: nat)
    ensures var r := Exec(pat, s, from);
            (r.Some? ==> NoMatchIn(pat, s, from, r.value.open))
            && (r.None? ==> NoMatchIn(pat, s, from, |s|))
    decreases |s| - from
  {
    if from < |s| && MatchAt(pat, s, from).None? {
      ExecLeftmost(pat, s, from + 1);
    }
  }

  /** Where no opening delimiter lies between `from` and a match, `exec` reports that
      match. */
  lemma {:induction false} ExecFindsFirst(pat: Pattern, s: string, from: nat, p: nat, j: nat)
    requires from <= p && IsMatch(pat, s, p, j)
    requires forall i :: from <= i < p ==> !IsDelimiter(pat, s[i])
    ensures Exec(pat, s, from) == Some(Span(p, j))
    decreases p - from
  {
    if from < p {
      ExecFindsFirst(pat, s, from + 1, p, j);
    } else {
      MatchAtComplete(pat, s, p, j);
    }
  }

  /** In a text `a "b" c` where neither `a` nor `b` holds a double quote and `b` is not
      empty, the first match of `/"([^"]+)"/` captures `b`. */
  lemma FirstDoubleQuoted(a: string, b: string, c: string)
    requires '"' !in a && '"' !in b && b != []
    ensures var s := a + ['"'] + b + ['"'] + c;
            Exec(DoubleQuoted, s, 0) == Some(Span(|a|, |a| + |b| + 1))
            && Inner(s, Span(|a|, |a| + |b| + 1)) == b
  {
    var s := a + ['"'] + b + ['"'] + c;
    var p := |a|;
    var j := |a| + |b| + 1;
    forall m | p + 1 <= m < j ensures InBody(DoubleQuoted, s[m]) {
      assert s[m] == b[m - p - 1];
    }
    assert IsMatch(DoubleQuoted, s, p, j);
    forall i | 0 <= i < p ensures !IsDelimiter(DoubleQuoted, s[i]) {
      assert s[i] == a[i];
    }
    ExecFindsFirst(DoubleQuoted, s, 0, p, j);
    SubstringChars(s, p + 1, j);
    assert Inner(s, Span(p, j)) == b;
  }

  /** The loop's first round: the match `exec` finds, then the matches after it. */
  lemma SpansStep(pat: Pattern, s: string, from: nat)
    requires Exec(pat, s, from).Some?
    ensures var sp := Exec(pat, s, from).value;
            Spans(pat, s, from) == [sp] + Spans(pat, s, sp.close + 1)
  {
  }

  /** The matches in `r` lie in order at or after `from`, none overlapping another. */
  predicate Ordered(pat: Pattern, s: string, from: nat, r: seq<Span>) {
    (forall i :: 0 <= i < |r| ==> from <= r[i].open && IsMatch(pat, s, r[i].open, r[i].close))
    && (forall i, j :: 0 <= i < j < |r| ==> r[i].close < r[j].open)
  }

  /** No match starts before the first one, between two neighbours or after the last one. */
  predicate Leftmost(pat: Pattern, s: string, from: nat, r: seq<Span>) {
    (|r| == 0 ==> NoMatchIn(pat, s, from, |s|))
    && (|r| > 0 ==> NoMatchIn(pat, s, from, r[0].open)
                    && NoMatchIn(pat, s, r[|r| - 1].close + 1, |s|))
    && (forall i :: 0 < i < |r| ==> NoMatchIn(pat, s, r[i - 1].close + 1, r[i].open))
  }

  /** Every match the exec loop reports when it starts at `from`, in order. */
  function Spans(pat: Pattern, s: string, from: nat): seq<Span>
    decreases |s| - from
  {
    match Exec(pat, s, from)
    case None => []
    case Some(sp) => [sp] + Spans(pat, s, sp.close + 1)
  }

  /** Every span has its delimiters, in order, inside `s`. */
  predicate InText(s: string, spans: seq<Span>) {
    forall i :: 0 <= i < |spans| ==> spans[i].open < spans[i].close < |s|
  }

  lemma {:induction false} SpansInText(pat: Pattern, s: string, from: nat)
    ensures InText(s, Spans(pat, s, from))
    decreases |s| - from
  {
    match Exec(pat, s, from)
    case None =>
    case Some(sp) =>
      SpansInText(pat, s, sp.close + 1);
      var rest := Spans(pat, s, sp.close + 1);
      assert forall i :: 0 < i < |rest| + 1 ==> ([sp] + rest)[i] == rest[i - 1];
  }

  /** The spans are matches of the pattern and do not overlap. */
  lemma {:induction false} SpansOrdered(pat: Pattern, s: string, from: nat)
    ensures Ordered(pat, s, from, Spans(pat, s, from))
    decreases |s| - from
  {
    match Exec(pat, s, from)
    case None =>
    case Some(sp) =>
      ExecSound(pat, s, from);
      SpansOrdered(pat, s, sp.close + 1);
      OrderedCons(pat, s, from, sp, Spans(pat, s, sp.close + 1));
  }

  lemma OrderedCons(pat: Pattern, s: string, from: nat, sp: Span, rest: seq<Span>)
    requires from <= sp.open && IsMatch(pat, s, sp.open, sp.close)
    requires Ordered(pat, s, sp.close + 1, rest)
    ensures Ordered(pat, s, from, [sp] + rest)
  {
    var r := [sp] + rest;
    forall i, j | 0 <= i < j < |r| ensures r[i].close < r[j].open {
      assert r[j] == rest[j - 1];
      if i > 0 { assert r[i] == rest[i - 1]; }
    }
  }

  /** The exec loop misses no match: none starts before the first span, between two
      neighbouring spans or after the last one. */
  lemma {:induction false} SpansLeftmost(pat: Pattern, s: string, from: nat)
    ensures Leftmost(pat, s, from, Spans(pat, s, from))
    decreases |s| - from
  {
    ExecLeftmost(pat, s, from);
    match Exec(pat, s, from)
    case None =>
    case Some(sp) =>
      SpansLeftmost(pat, s, sp.close + 1);
      LeftmostCons(pat, s, from, sp, Spans(pat, s, sp.close + 1));
  }

  lemma LeftmostCons(pat: Pattern, s: string, from: nat, sp: Span, rest: seq<Span>)
    requires NoMatchIn(pat, s, from, sp.open)
    requires Leftmost(pat, s, sp.close + 1, rest)
    ensures Leftmost(pat, s, from, [sp] + rest)
  {
    var r := [sp] + rest;
    forall i | 0 < i < |r| ensures NoMatchIn(pat, s, r[i - 1].close + 1, r[i].open) {
      assert r[i] == rest[i - 1];
      if i > 1 { assert r[i - 1] == rest[i - 2]; }
    }
  }

  /** `f` applied to the capture of every match the exec loop reports from `from` on,
      in order. */
  function MapCaptures<T>(pat: Pattern, s: string, from: nat, f: string -> T): seq<T>
    decreases |s| - from
  {
    match Exec(pat, s, from)
    case None => []
    case Some(sp) => [f(Inner(s, sp))] + MapCaptures(pat, s, sp.close + 1, f)
  }

  /** The invariant of a loop that pushes `f` of every capture: what has been pushed,
      followed by what the loop will push from `from` on, is `total`. */
  ghost predicate MapInvariant<T>(pat: Pattern, s: string, f: string -> T, done: seq<T>,
                            from: nat, total: seq<T>) {
    done + MapCaptures(pat, s, from, f) == total
  }

  /** One round of such a loop keeps its invariant. */
  lemma MapInvariantStep<T>(pat: Pattern, s: string, f: string -> T, done: seq<T>,
                            from: nat, total: seq<T>, x: T, next: nat)
    requires Exec(pat, s, from).Some? && next == Exec(pat, s, from).value.close + 1
    requires x == f(Inner(s, Exec(pat, s, from).value))
    requires MapInvariant(pat, s, f, done, from, total)
    ensures MapInvariant(pat, s, f, done + [x], next, total)
  {
    ConcatAssociative(done, [x], MapCaptures(pat, s, next, f));
  }

  /** Element `i` of the mapped captures belongs to match `i`. */
  lemma {:induction false} MapCapturesSpans<T>(pat: Pattern, s: string, from: nat, f: string -> T)
    ensures var spans := Spans(pat, s, from);
            var r := MapCaptures(pat, s, from, f);
            InText(s, spans) && |r| == |spans|
            && forall i :: 0 <= i < |spans| ==> r[i] == f(Inner(s, spans[i]))
    decreases |s| - from
  {
    SpansInText(pat, s, from);
    match Exec(pat, s, from)
    case None =>
    case Some(sp) =>
      MapCapturesSpans(pat, s, sp.close + 1, f);
      var rest := Spans(pat, s, sp.close + 1);
      var r := MapCaptures(pat, s, from, f);
      assert forall i :: 0 < i < |rest| + 1 ==> ([sp] + rest)[i] == rest[i - 1];
      assert forall i :: 0 < i < |r| ==> r[i] == MapCaptures(pat, s, sp.close + 1, f)[i - 1];
  }

  /** The text between a match's delimiters: the first capture group. */
  function Inner(s: string, sp: Span): string
    requires sp.open < sp.close <= |s|
  {
    Substring(s, sp.open + 1, sp.close)
  }

}
