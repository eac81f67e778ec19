/**
 * The check-quotes edge function: it finds the quotations in a draft, assembles one
 * text from the transcript and the supporting sources, asks a fact-checking service
 * about each quotation and falls back to a case-insensitive text search when the
 * service's reply cannot be read or the call fails.
 *
 * The fact-checking service is a parameter: a function from the prompt the function
 * sends to the outcome of the call.
 */
module CheckQuotes {
  import opened JsText
  import opened JsRegex
  import opened Sources

  /** A quotation whose trimmed text is at most this long is not checked.  Lengths are
      JavaScript's `length`: UTF-16 code units (Utf16Length), so a character outside the
      Basic Multilingual Plane counts twice. */
  const MinQuoteLength: nat := 10

  /** What the extraction loop keeps of the matches from `from` on, in order: the
      trimmed capture of each match, when its length exceeds MinQuoteLength. */
  function KeptFrom(draft: string, from: nat): seq<string>
    decreases |draft| - from
  {
    match Exec(AnyQuotePair, draft, from)
    case None => []
    case Some(sp) =>
      var quote := Trim(Inner(draft, sp));
      (if Utf16Length(quote) > MinQuoteLength then [quote] else []) + KeptFrom(draft, sp.close + 1)
  }

  /** The quotations the function checks. */
  function ExtractedQuotes(draft: string): seq<string> {
    KeptFrom(draft, 0)
  }

  /** The extraction loop's invariant: what it has kept, followed by what it will keep
      from `lastIndex` on, is the full list. */
  predicate ExtractInvariant(draft: string, quotes: seq<string>, lastIndex: nat) {
    quotes + KeptFrom(draft, lastIndex) == ExtractedQuotes(draft)
  }

  /** One round of the extraction loop keeps its invariant. */
  lemma ExtractStep(draft: string, quotes: seq<string>, lastIndex: nat, quote: string, next: nat)
    requires Exec(AnyQuotePair, draft, lastIndex).Some?
    requires quote == Trim(Inner(draft, Exec(AnyQuotePair, draft, lastIndex).value))
    requires next == Exec(AnyQuotePair, draft, lastIndex).value.close + 1
    requires ExtractInvariant(draft, quotes, lastIndex)
    ensures Utf16Length(quote) > MinQuoteLength ==> ExtractInvariant(draft, quotes + [quote], next)
    ensures Utf16Length(quote) <= MinQuoteLength ==> ExtractInvariant(draft, quotes, next)
  {
    var rest := KeptFrom(draft, next);
    if Utf16Length(quote) > MinQuoteLength {
      assert KeptFrom(draft, lastIndex) == [quote] + rest;
      ConcatAssociative(quotes, [quote], rest);
    } else {
      assert KeptFrom(draft, lastIndex) == rest;
    }
  }

  /** The extraction loop: `exec` the pattern from `lastIndex`, trim the capture, keep it
      when it is long enough. */
  method ExtractQuotes(draft: string) returns (quotes: seq<string>)
    ensures quotes == ExtractedQuotes(draft)
  {
    quotes := [];
    var lastIndex := 0;
    var m := Exec(AnyQuotePair, draft, lastIndex);
    while m.Some?
      invariant m == Exec(AnyQuotePair, draft, lastIndex)
      invariant ExtractInvariant(draft, quotes, lastIndex)
      decreases |draft| - lastIndex
    {
      var sp := m.value;
      var quote := Trim(Inner(draft, sp));
      var next := sp.close + 1;
      ExtractStep(draft, quotes, lastIndex, quote, next);
      if Utf16Length(quote) > MinQuoteLength {
        quotes := quotes + [quote];
      }
      lastIndex := next;
      m := Exec(AnyQuotePair, draft, lastIndex);
    }
    assert quotes + [] == quotes;
  }

  /** The trimmed capture of every match of the exec loop, in draft order. */
  function Captures(draft: string): seq<string> {
    MapCaptures(AnyQuotePair, draft, 0, Trim)
  }

  /** The quotations whose length exceeds MinQuoteLength, in order. */
  function LongEnough(quotes: seq<string>): seq<string> {
    if quotes == [] then []
    else (if Utf16Length(quotes[0]) > MinQuoteLength then [quotes[0]] else []) + LongEnough(quotes[1..])
  }

  lemma LongEnoughCons(quote: string, rest: seq<string>)
    ensures LongEnough([quote] + rest)
            == (if Utf16Length(quote) > MinQuoteLength then [quote] else []) + LongEnough(rest)
  {
    assert ([quote] + rest)[1..] == rest;
  }

  /** The filter keeps exactly the quotations whose length exceeds MinQuoteLength: one of
      exactly ten code units is dropped. */
  lemma {:induction false} LongEnoughMembers(quotes: seq<string>, q: string)
    ensures q in LongEnough(quotes) <==> q in quotes && Utf16Length(q) > MinQuoteLength
  {
    if quotes != [] {
      LongEnoughMembers(quotes[1..], q);
      assert quotes == [quotes[0]] + quotes[1..];
    }
  }

  /** What the extraction loop keeps from `from` on is the filtered list of the trimmed
      captures of the matches from `from` on. */
  lemma {:induction false} KeptFromFilters(draft: string, from: nat)
    ensures KeptFrom(draft, from) == LongEnough(MapCaptures(AnyQuotePair, draft, from, Trim))
    decreases |draft| - from
  {
    match Exec(AnyQuotePair, draft, from)
    case None =>
    case Some(sp) =>
      KeptFromFilters(draft, sp.close + 1);
      LongEnoughCons(Trim(Inner(draft, sp)), MapCaptures(AnyQuotePair, draft, sp.close + 1, Trim));
  }

  /** The extracted quotations are exactly the trimmed captures of the matches that are
      whose length exceeds MinQuoteLength, in draft order. */
  lemma ExtractedQuotesExactly(draft: string)
    ensures ExtractedQuotes(draft) == LongEnough(Captures(draft))
    ensures forall q :: q in ExtractedQuotes(draft) <==> q in Captures(draft) && Utf16Length(q) > MinQuoteLength
  {
    KeptFromFilters(draft, 0);
    forall q ensures q in ExtractedQuotes(draft) <==> q in Captures(draft) && Utf16Length(q) > MinQuoteLength {
      LongEnoughMembers(Captures(draft), q);
    }
  }

  /** A draft that is one quoted text, with no delimiter and no line terminator inside,
      yields the trimmed text exactly when its length exceeds MinQuoteLength. */
  lemma SingleQuotation(q: string)
    requires forall i :: 0 <= i < |q| ==> InBody(AnyQuotePair, q[i])
    ensures ExtractedQuotes("\"" + q + "\"")
            == (if Utf16Length(Trim(q)) > MinQuoteLength then [Trim(q)] else [])
  {
    var d := "\"" + q + "\"";
    var j := |q| + 1;
    assert forall m :: 1 <= m < j ==> d[m] == q[m - 1];
    assert IsMatch(AnyQuotePair, d, 0, j);
    ExecFindsFirst(AnyQuotePair, d, 0, 0, j);
    ExecNoDelimiter(AnyQuotePair, d, j + 1);
    SubstringChars(d, 1, j);
    assert Inner(d, Span(0, j)) == q;
    assert Exec(AnyQuotePair, d, 0) == Some(Span(0, j));
    assert KeptFrom(d, j + 1) == [];
  }

  /** A quotation of six or more characters outside the Basic Multilingual Plane (six
      emoji, say) has at least twelve code units and is checked, although it has fewer
      than eleven characters. */
  lemma AstralQuotationKept(e: string)
    requires |e| >= 6 && forall i :: 0 <= i < |e| ==> e[i] as int >= 0x1_0000
    ensures ExtractedQuotes("\"" + e + "\"") == [e]
  {
    forall i | 0 <= i < |e| ensures InBody(AnyQuotePair, e[i]) && !IsWhiteSpace(e[i]) {
      AstralChar(e[i]);
    }
    SingleQuotation(e);
    TrimUnchanged(e);
    Utf16LengthAstral(e);
  }

  /** A character outside the Basic Multilingual Plane is neither white space nor a
      delimiter nor a line terminator. */
  lemma AstralChar(c: char)
    requires c as int >= 0x1_0000
    ensures InBody(AnyQuotePair, c) && !IsWhiteSpace(c)
  {
  }

  /** A quotation of exactly ten characters of the Basic Multilingual Plane, with no white
      space at either end, is not checked. */
  lemma TenUnitQuotationDropped(w: string)
    requires |w| == 10
    requires forall i :: 0 <= i < |w| ==> w[i] as int < 0x1_0000 && InBody(AnyQuotePair, w[i])
    requires !IsWhiteSpace(w[0]) && !IsWhiteSpace(w[9])
    ensures ExtractedQuotes("\"" + w + "\"") == []
  {
    SingleQuotation(w);
    TrimUnchanged(w);
    Utf16LengthBmp(w);
  }

  /** Capture `i` is the trimmed text between the delimiters of match `i`. */
  lemma CapturesAreMatches(draft: string)
    ensures var spans := Spans(AnyQuotePair, draft, 0);
            InText(draft, spans) && |Captures(draft)| == |spans|
            && forall i :: 0 <= i < |spans| ==> Captures(draft)[i] == Trim(Inner(draft, spans[i]))
  {
    MapCapturesSpans(AnyQuotePair, draft, 0, Trim);
  }

  /** A draft without any `'` or `"` has nothing to check. */
  lemma NoDelimiterNoQuotes(draft: string)
    requires forall i :: 0 <= i < |draft| ==> !IsQuoteDelimiter(draft[i])
    ensures ExtractedQuotes(draft) == []
  {
    ExecNoDelimiter(AnyQuotePair, draft, 0);
  }

  // ---------------------------------------------------------------------------
  // The source materials

  const TranscriptHeading := "TRANSCRIPT:\n"
  const SourceHeading := "SUPPORTING SOURCE "
  const BlankLine := "\n\n"

  function TranscriptBlock(transcript: string): string {
    TranscriptHeading + transcript + BlankLine
  }

  function TranscriptSection(transcript: string): string {
    if transcript != "" then TranscriptBlock(transcript) else ""
  }

  /** One line of the materials per supporting source, numbered from 1; a source shows
      its value, or its name when it has no value. */
  const KindOpen := " ("
  const KindClose := "): "

  function SourceEntry(k: nat, src: SupportingSource): string {
    SourceHeading + NatToString(k) + KindOpen + src.kind + KindClose
    + (if src.value != "" then src.value else src.name) + BlankLine
  }

  /** The entries of all sources, in input order. */
  function SourceEntries(sources: seq<SupportingSource>): string {
    if sources == [] then ""
    else SourceEntries(sources[..|sources| - 1])
         + SourceEntry(|sources|, sources[|sources| - 1])
  }

  function SourceMaterials(transcript: string, sources: seq<SupportingSource>): string {
    TranscriptSection(transcript) + SourceEntries(sources)
  }

  /** `sourceMaterials +=` for the transcript and then inside `sources.forEach`. */
  method BuildSourceMaterials(transcript: string, sources: seq<SupportingSource>)
    returns (materials: string)
    ensures materials == SourceMaterials(transcript, sources)
  {
    materials := "";
    if transcript != "" {
      materials := materials + TranscriptBlock(transcript);
    }
    ghost var header := materials;
    assert header == TranscriptSection(transcript);
    if |sources| > 0 {
      for index := 0 to |sources|
        invariant materials == header + SourceEntries(sources[..index])
      {
        EntriesStep(sources, index);
        var entry := SourceEntry(index + 1, sources[index]);
        ConcatAssociative(header, SourceEntries(sources[..index]), entry);
        materials := materials + entry;
      }
      assert sources[..|sources|] == sources;
    } else {
      assert materials == header + SourceEntries(sources);
    }
  }

  lemma EntriesStep(sources: seq<SupportingSource>, k: nat)
    requires k < |sources|
    ensures SourceEntries(sources[..k + 1]) == SourceEntries(sources[..k]) + SourceEntry(k + 1, sources[k])
  {
    assert sources[..k + 1][..k] == sources[..k];
  }

  /** The materials are empty exactly when there is no transcript and no source. */
  lemma MaterialsEmptyIff(transcript: string, sources: seq<SupportingSource>)
    ensures SourceMaterials(transcript, sources) == "" <==> transcript == "" && sources == []
  {
    if sources != [] {
      assert |SourceEntry(|sources|, sources[|sources| - 1])| > 0;
    }
  }

  /** A non-empty transcript opens the materials. */
  lemma MaterialsStartWithTranscript(transcript: string, sources: seq<SupportingSource>)
    requires transcript != ""
    ensures StartsWith(SourceMaterials(transcript, sources), TranscriptBlock(transcript))
  {
  }

  /** The entries of the first `k` sources come first, each source's entry right after
      those of the sources before it. */
  lemma {:induction false} EntriesInOrder(sources: seq<SupportingSource>, k: nat)
    requires k < |sources|
    ensures StartsWith(SourceEntries(sources),
                       SourceEntries(sources[..k]) + SourceEntry(k + 1, sources[k]))
  {
    var n := |sources|;
    if k == n - 1 {
      assert sources[..n - 1] == sources[..k];
    } else {
      EntriesInOrder(sources[..n - 1], k);
      assert sources[..n - 1][..k] == sources[..k];
      assert sources[..n - 1][k] == sources[k];
    }
  }

  // ---------------------------------------------------------------------------
  // The verdict for one quotation

  /** What a call to the fact-checking service came to: a reply whose status was not
      OK, a reply parsed into its three fields, a reply whose content was not JSON, or a
      call that threw. */
  datatype FactCheckReply =
    | NotOk
    | Parsed(found: bool, source: string, snippet: string)
    | ParseError
    | Threw

  /** One entry of the function's reply. */
  datatype QuoteResult = QuoteResult(
    text: string,
    verified: bool,
    source: string,
    snippet: Option<string>)

  /** The user message sent to the fact-checking service for one quotation. */
  function UserMessage(quote: string, materials: string): string {
    QuoteHeading + quote + MaterialsHeading + materials
  }

  const QuoteHeading := "Please verify if this quote appears in the source materials:\n\nQUOTE TO VERIFY: \""
  const MaterialsHeading := "\"\n\nSOURCE MATERIALS:\n"

  /** The message carries the quotation right after `QUOTE TO VERIFY: "`, closed by a
      `"`, and ends with the whole of the materials. */
  lemma UserMessageLayout(quote: string, materials: string)
    ensures var m := UserMessage(quote, materials);
            var at := |QuoteHeading|;
            StartsWith(m, QuoteHeading)
            && m[at..at + |quote|] == quote
            && m[at + |quote|] == '"'
            && m[|m| - |materials|..] == materials
  {
    var m := UserMessage(quote, materials);
    var at := |QuoteHeading|;
    assert m == QuoteHeading + (quote + (MaterialsHeading + materials));
    assert MaterialsHeading[0] == '"';
  }

  /** The fallback search: the quotation occurs in the materials, ignoring case. */
  predicate FoundByTextSearch(quote: string, materials: string) {
    Includes(ToLower(materials), ToLower(quote))
  }

  /** The entry for one quotation given the materials and the service's reply. */
  function Verdict(quote: string, materials: string, reply: FactCheckReply): (r: QuoteResult)
    ensures r.text == quote
    ensures !r.verified ==> r.source == "" && r.snippet == None
    ensures r.verified ==> r.source != "" && r.snippet.Some?
    ensures materials == "" ==> !r.verified
    ensures materials != "" && reply.NotOk? ==> !r.verified
    ensures materials != "" && reply.Parsed? ==>
              r.verified == reply.found
              && (r.verified ==> r.source == (if reply.source != "" then reply.source else "Unknown")
                                 && r.snippet == Some(reply.snippet))
    ensures materials != "" && (reply.ParseError? || reply.Threw?) ==>
              (r.verified <==> exists i :: OccursAt(ToLower(materials), ToLower(quote), i))
              && (r.verified ==> r.source == "Source Material" && r.snippet == Some(""))
  {
    var (verified, source, snippet) :=
      if materials == "" then (false, "", "")
      else match reply
        case NotOk => (false, "", "")
        case Parsed(found, src, snip) => (found, if src != "" then src else "Unknown", snip)
        case _ =>
          var v := FoundByTextSearch(quote, materials);
          (v, if v then "Source Material" else "", "");
    QuoteResult(quote, verified, if verified then source else "",
                if verified then Some(snippet) else None)
  }

  /** The body of the per-quotation loop: ask the service only when there are source
      materials, take its parsed answer, fall back to the text search when its reply
      cannot be read or the call throws, and blank the source and snippet of an
      unverified quotation. */
  method VerifyQuote(quote: string, materials: string, factCheck: string -> FactCheckReply)
    returns (entry: QuoteResult)
    ensures entry == Verdict(quote, materials, factCheck(UserMessage(quote, materials)))
  {
    var verified := false;
    var source := "";
    var snippet := "";
    if materials != "" {
      var reply := factCheck(UserMessage(quote, materials));
      match reply {
        case NotOk =>
        case Parsed(found, src, snip) =>
          verified := found;
          source := if src != "" then src else "Unknown";
          snippet := snip;
        case ParseError =>
          verified := FoundByTextSearch(quote, materials);
          source := if verified then "Source Material" else "";
        case Threw =>
          verified := FoundByTextSearch(quote, materials);
          source := if verified then "Source Material" else "";
      }
    }
    entry := QuoteResult(quote, verified, if verified then source else "",
                         if verified then Some(snippet) else None);
  }

  // ---------------------------------------------------------------------------
  // The handler

  datatype CheckResponse =
    | Rejected(status: nat, error: string)
    | Checked(quotes: seq<QuoteResult>)

  /** The entry of every quotation, in order, given the materials and the service. */
  function Verdicts(quotes: seq<string>, materials: string,
                    factCheck: string -> FactCheckReply): (r: seq<QuoteResult>)
    ensures |r| == |quotes|
    ensures forall i :: 0 <= i < |quotes| ==>
              r[i] == Verdict(quotes[i], materials, factCheck(UserMessage(quotes[i], materials)))
  {
    seq(|quotes|, i requires 0 <= i < |quotes| =>
      Verdict(quotes[i], materials, factCheck(UserMessage(quotes[i], materials))))
  }

  /** What the handler answers: 400 without a draft, otherwise one entry per extracted
      quotation. */
  function Response(draft: string, transcript: string, sources: seq<SupportingSource>,
                    factCheck: string -> FactCheckReply): (r: CheckResponse)
    ensures r.Rejected? <==> draft == ""
    ensures r.Rejected? ==> r.status == 400
    ensures r.Checked? ==>
              |r.quotes| == |ExtractedQuotes(draft)|
              && forall i :: 0 <= i < |r.quotes| ==> r.quotes[i].text == ExtractedQuotes(draft)[i]
  {
    if draft == "" then Rejected(400, "Draft text is required")
    else Checked(Verdicts(ExtractedQuotes(draft), SourceMaterials(transcript, sources), factCheck))
  }

  /** The `for (const quote of quotes)` loop: one entry per quotation, in order. */
  method VerifyQuotes(quotes: seq<string>, materials: string, factCheck: string -> FactCheckReply)
    returns (verifiedQuotes: seq<QuoteResult>)
    ensures verifiedQuotes == Verdicts(quotes, materials, factCheck)
  {
    verifiedQuotes := [];
    for k := 0 to |quotes|
      invariant |verifiedQuotes| == k
      invariant forall i :: 0 <= i < k ==>
                  verifiedQuotes[i] == Verdict(quotes[i], materials, factCheck(UserMessage(quotes[i], materials)))
    {
      var entry := VerifyQuote(quotes[k], materials, factCheck);
      verifiedQuotes := verifiedQuotes + [entry];
    }
  }

  /** The body of the `serve` handler after the request has been parsed. */
  method CheckQuotes(draft: string, transcript: string, sources: seq<SupportingSource>,
                     factCheck: string -> FactCheckReply)
    returns (response: CheckResponse)
    ensures response == Response(draft, transcript, sources, factCheck)
  {
    if draft == "" {
      return Rejected(400, "Draft text is required");
    }
    var quotes := ExtractQuotes(draft);
    if |quotes| == 0 {
      assert Verdicts(quotes, SourceMaterials(transcript, sources), factCheck) == [];
      return Checked([]);
    }
    var materials := BuildSourceMaterials(transcript, sources);
    var verifiedQuotes := VerifyQuotes(quotes, materials, factCheck);
    response := Checked(verifiedQuotes);
  }
}
