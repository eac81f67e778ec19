/**
 * The review-and-export page: it loads the generated draft, lists the double-quoted
 * passages of the draft with a simulated source check, and exports the draft and a
 * provenance record.
 *
 * The page state (the draft, which the user may edit, and the detected quotations,
 * which are computed once when the page is shown) is a class; the provenance record is
 * a datatype built by a function.  The clock, the storage and the downloads are
 * parameters or left out.
 */
module ReviewExport {
  import opened JsText
  import opened JsRegex

  /** The phrase whose presence the simulated check takes for a match in the transcript. */
  const KnownPhrase := "users should never have to think"

  /** The two source labels of the simulated check. */
  const FromTranscript := "Interview Transcript"
  const NotFound := "Not Found"

  /** One detected quotation and the outcome of the simulated check. */
  datatype FoundQuote = FoundQuote(quote: string, source: string, found: bool)

  /** The simulated check: a quotation is "found" exactly when it contains KnownPhrase. */
  function SimulatedCheck(quote: string): (r: FoundQuote)
    ensures r.quote == quote
    ensures r.found == Includes(quote, KnownPhrase)
    ensures r.source == (if r.found then FromTranscript else NotFound)
  {
    var isFromTranscript := Includes(quote, KnownPhrase);
    FoundQuote(quote, if isFromTranscript then FromTranscript else NotFound,
               isFromTranscript)
  }

  /** The quotations of a draft, in draft order: the capture of every match of
      `/"([^"]+)"/g`, each with its check. */
  function Detected(draft: string): seq<FoundQuote> {
    MapCaptures(DoubleQuoted, draft, 0, SimulatedCheck)
  }

  /** The page's `useEffect`: `exec` the pattern from `lastIndex` and push each capture
      with its check. */
  method DetectQuotes(savedDraft: string) returns (foundQuotes: seq<FoundQuote>)
    ensures foundQuotes == Detected(savedDraft)
  {
    foundQuotes := [];
    var lastIndex := 0;
    var m := Exec(DoubleQuoted, savedDraft, lastIndex);
    ghost var total := Detected(savedDraft);
    while m.Some?
      invariant m == Exec(DoubleQuoted, savedDraft, lastIndex)
      invariant MapInvariant(DoubleQuoted, savedDraft, SimulatedCheck, foundQuotes, lastIndex, total)
      decreases |savedDraft| - lastIndex
    {
      var sp := m.value;
      var quote := Inner(savedDraft, sp);
      var check := SimulatedCheck(quote);
      var next := sp.close + 1;
      MapInvariantStep(DoubleQuoted, savedDraft, SimulatedCheck, foundQuotes, lastIndex,
                       total, check, next);
      foundQuotes := foundQuotes + [check];
      lastIndex := next;
      m := Exec(DoubleQuoted, savedDraft, lastIndex);
    }
    assert foundQuotes + [] == foundQuotes;
  }

  /** One detected quotation per match of the pattern, in order, each the text between
      the match's two straight double quotes with its simulated check. */
  lemma DetectedMatches(draft: string)
    ensures var spans := Spans(DoubleQuoted, draft, 0);
            InText(draft, spans) && |Detected(draft)| == |spans|
            && forall k :: 0 <= k < |spans| ==>
                 Detected(draft)[k] == SimulatedCheck(Inner(draft, spans[k]))
  {
    MapCapturesSpans(DoubleQuoted, draft, 0, SimulatedCheck);
  }

  /** Every detected quotation is a non-empty run of characters other than `"` (line
      feeds and single quotes included). */
  lemma DetectedShape(draft: string, k: nat)
    requires k < |Detected(draft)|
    ensures var q := Detected(draft)[k].quote;
            q != "" && forall i :: 0 <= i < |q| ==> q[i] != '"'
  {
    DetectedMatches(draft);
    SpansOrdered(DoubleQuoted, draft, 0);
    var sp := Spans(DoubleQuoted, draft, 0)[k];
    assert IsMatch(DoubleQuoted, draft, sp.open, sp.close);
    SubstringChars(draft, sp.open + 1, sp.close);
    var q := Inner(draft, sp);
    forall i | 0 <= i < |q| ensures q[i] != '"' {
      assert q[i] == draft[sp.open + 1 + i];
      assert InBody(DoubleQuoted, draft[sp.open + 1 + i]);
    }
  }

  // ---------------------------------------------------------------------------
  // The provenance record

  datatype Metadata = Metadata(generatedAt: string, tone: string, wordCount: nat)
  datatype TranscriptRecord = TranscriptRecord(content: string, kind: string)
  datatype LinkRecord = LinkRecord(url: string, kind: string)
  datatype SourcesRecord = SourcesRecord(transcript: TranscriptRecord,
                                         supportingSource: Option<LinkRecord>)
  datatype QuoteRecord = QuoteRecord(text: string, verified: bool, source: string)
  datatype DraftRecord = DraftRecord(content: string, characterCount: nat)

  datatype Provenance = Provenance(
    metadata: Metadata,
    sources: SourcesRecord,
    keyPoints: seq<string>,
    quotes: seq<QuoteRecord>,
    draft: DraftRecord)

  /** What storage holds under the four keys the export reads (None: nothing stored). */
  datatype Stored = Stored(
    keyPoints: Option<string>,
    transcript: Option<string>,
    sourceUrl: Option<string>,
    selectedTone: Option<string>)

  /** `localStorage.getItem(key) || fallback`: a missing value and the empty text both
      give the fallback. */
  function OrDefault(value: Option<string>, fallback: string): (r: string)
    ensures value.Some? && value.value != "" ==> r == value.value
    ensures value.None? || value == Some("") ==> r == fallback
  {
    if value.Some? && value.value != "" then value.value else fallback
  }

  /** `draft.split(/\s+/).length`, the word count the page shows and exports. */
  function WordCount(draft: string): (n: nat)
    ensures n == 1 + WhiteSpaceRuns(draft)
  {
    SplitWhiteSpaceCount(draft);
    |SplitWhiteSpace(draft)|
  }

  /** The quotations as the record lists them: text, check outcome and source label. */
  function QuoteRecords(quotes: seq<FoundQuote>): (r: seq<QuoteRecord>)
    ensures |r| == |quotes|
    ensures forall k :: 0 <= k < |quotes| ==>
              r[k] == QuoteRecord(quotes[k].quote, quotes[k].found, quotes[k].source)
  {
    seq(|quotes|, k requires 0 <= k < |quotes| =>
      QuoteRecord(quotes[k].quote, quotes[k].found, quotes[k].source))
  }

  /** The record `handleExportProvenance` downloads, or None when the stored key points
      are not valid JSON (`JSON.parse` throws and nothing is exported).  `parse` stands
      for `JSON.parse`; the empty or missing entry parses as the default "[]". */
  function ProvenanceRecord(draft: string, quotes: seq<FoundQuote>, stored: Stored,
                            parse: string -> Option<seq<string>>, generatedAt: string)
    : (r: Option<Provenance>)
    ensures r.None? <==> OrDefault(stored.keyPoints, "[]") != "[]"
                         && parse(OrDefault(stored.keyPoints, "[]")).None?
    ensures r.Some? ==>
              var p := r.value;
              p.metadata.wordCount == 1 + WhiteSpaceRuns(draft) >= 1
              && p.metadata.tone == OrDefault(stored.selectedTone, "")
              && p.metadata.generatedAt == generatedAt
              && p.sources.transcript == TranscriptRecord(OrDefault(stored.transcript, ""),
                                                          "interview_transcript")
              && (p.sources.supportingSource.None? <==> OrDefault(stored.sourceUrl, "") == "")
              && (p.sources.supportingSource.Some? ==>
                    p.sources.supportingSource.value
                    == LinkRecord(stored.sourceUrl.value, "external_link"))
              && p.keyPoints == (if OrDefault(stored.keyPoints, "[]") == "[]" then []
                                 else parse(OrDefault(stored.keyPoints, "[]")).value)
              && p.draft == DraftRecord(draft, Utf16Length(draft))
              && p.quotes == QuoteRecords(quotes)
              && |p.quotes| == |quotes|
              && (forall k :: 0 <= k < |quotes| ==>
                    p.quotes[k].text == quotes[k].quote && p.quotes[k].verified == quotes[k].found)
  {
    var keyPointsText := OrDefault(stored.keyPoints, "[]");
    var keyPoints: Option<seq<string>> :=
      if keyPointsText == "[]" then Some([]) else parse(keyPointsText);
    if keyPoints.None? then None
    else
      var sourceUrl := OrDefault(stored.sourceUrl, "");
      Some(Provenance(
        Metadata(generatedAt, OrDefault(stored.selectedTone, ""), WordCount(draft)),
        SourcesRecord(
          TranscriptRecord(OrDefault(stored.transcript, ""), "interview_transcript"),
          if sourceUrl != "" then Some(LinkRecord(sourceUrl, "external_link")) else None),
        keyPoints.value,
        QuoteRecords(quotes),
        DraftRecord(draft, Utf16Length(draft))))
  }

  /** The page's state. */
  class ReviewExportPage {
    var draft: string
    var quotes: seq<FoundQuote>

    /** The `useEffect` that runs when the page is shown: the stored draft (or "") and
        its quotations. */
    constructor (savedDraft: Option<string>)
      ensures draft == OrDefault(savedDraft, "")
      ensures quotes == Detected(draft)
    {
      var text := OrDefault(savedDraft, "");
      var found := DetectQuotes(text);
      draft, quotes := text, found;
    }

    /** The text area's `onChange`: the draft changes, the quotation list does not. */
    method EditDraft(text: string)
      modifies this
      ensures draft == text && quotes == old(quotes)
    {
      draft := text;
    }

    /** `handleExportMarkdown`: the content of the downloaded file. */
    method ExportMarkdown() returns (content: string)
      ensures content == draft
    {
      content := draft;
    }

    /** `handleExportProvenance`: the record of the current draft and the quotations
        detected when the page was shown. */
    method ExportProvenance(stored: Stored, parse: string -> Option<seq<string>>,
                            generatedAt: string)
      returns (record: Option<Provenance>)
      ensures record == ProvenanceRecord(draft, quotes, stored, parse, generatedAt)
    {
      record := ProvenanceRecord(draft, quotes, stored, parse, generatedAt);
    }
  }
}
