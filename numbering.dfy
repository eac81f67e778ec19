/**
 * Numbered lists as both edge functions write them into their prompts: item k (from 1)
 * becomes the line `${k}. ${item}`, and the lines are joined with '\n'.
 */
module Numbering {
  import opened JsText

  /** The line for item number `k`. */
  function NumberedLine(k: nat, item: string): string {
    NatToString(k) + ". " + item
  }

  /** `items.map((item, index) => `${index + 1}. ${item}`)`. */
  function NumberedLines(items: seq<string>): (r: seq<string>)
    ensures |r| == |items|
    ensures forall k :: 0 <= k < |items| ==> r[k] == NumberedLine(k + 1, items[k])
  {
    seq(|items|, k requires 0 <= k < |items| => NumberedLine(k + 1, items[k]))
  }

  /** The numbered list as one text, one item per line. */
  function NumberedList(items: seq<string>): string {
    Join(NumberedLines(items), "\n")
  }

  predicate IsDigit(c: char) {
    '0' <= c <= '9'
  }

  /** The length of the run of decimal digits at the start of `s`. */
  function DigitRun(s: string): (n: nat)
    ensures n <= |s|
    ensures forall i :: 0 <= i < n ==> IsDigit(s[i])
    ensures n < |s| ==> !IsDigit(s[n])
  {
    if s != [] && IsDigit(s[0]) then 1 + DigitRun(s[1..]) else 0
  }

  /** Reads a numbered line back: a number, ". ", and the item. */
  function ItemOf(line: string): (r: Option<string>)
    ensures r.Some? ==> var n := |line| - |r.value| - 2;
                        0 < n && line[n..n + 2] == ". " && line[n + 2..] == r.value
                        && forall i :: 0 <= i < n ==> IsDigit(line[i])
  {
    var n := DigitRun(line);
    if 0 < n && n + 2 <= |line| && line[n..n + 2] == ". " then Some(line[n + 2..]) else None
  }

  /** The digit run of a text that starts with digits and then a non-digit ends there. */
  lemma {:induction false} DigitRunStops(digits: string, rest: string)
    requires forall i :: 0 <= i < |digits| ==> IsDigit(digits[i])
    requires rest != [] && !IsDigit(rest[0])
    ensures DigitRun(digits + rest) == |digits|
  {
    if digits != [] {
      assert (digits + rest)[1..] == digits[1..] + rest;
      DigitRunStops(digits[1..], rest);
    } else {
      assert digits + rest == rest;
    }
  }

  /** Reading a numbered line gives back its item, whatever the item holds. */
  lemma NumberedLineRoundTrip(k: nat, item: string)
    ensures ItemOf(NumberedLine(k, item)) == Some(item)
  {
    var digits := NatToString(k);
    NatToStringDigits(k);
    assert NumberedLine(k, item) == digits + (". " + item);
    DigitRunStops(digits, ". " + item);
    var line := NumberedLine(k, item);
    assert line[|digits|..|digits| + 2] == ". ";
    assert line[|digits| + 2..] == item;
  }

  /** The items read back from the lines of a list. */
  function Items(lines: seq<string>): seq<Option<string>> {
    seq(|lines|, k requires 0 <= k < |lines| => ItemOf(lines[k]))
  }

  /** Splitting a non-empty numbered list at its line feeds and reading every line gives
      back the items, in order, when no item holds a line feed. */
  lemma NumberedListRoundTrip(items: seq<string>)
    requires |items| >= 1
    requires forall k :: 0 <= k < |items| ==> '\n' !in items[k]
    ensures var lines := JsSplitLines(NumberedList(items));
            |lines| == |items| && forall k :: 0 <= k < |items| ==> Items(lines)[k] == Some(items[k])
  {
    var lines := NumberedLines(items);
    forall k | 0 <= k < |lines| ensures '\n' !in lines[k] {
      NatToStringDigits(k + 1);
      assert lines[k] == NatToString(k + 1) + (". " + items[k]);
      assert forall c :: c in NatToString(k + 1) ==> IsDigit(c);
    }
    SplitJoinRoundTrip(lines);
    forall k | 0 <= k < |items| ensures ItemOf(lines[k]) == Some(items[k]) {
      NumberedLineRoundTrip(k + 1, items[k]);
    }
  }

  /** The list is empty text exactly when there are no items: every numbered line holds
      at least its number and ". ". */
  lemma NumberedListEmpty(items: seq<string>)
    ensures NumberedList(items) == "" <==> items == []
  {
    if items != [] {
      var lines := NumberedLines(items);
      assert |lines[0]| >= 3;
      if |lines| > 1 {
        assert NumberedList(items) == lines[0] + "\n" + Join(lines[1..], "\n");
      }
    }
  }
}
