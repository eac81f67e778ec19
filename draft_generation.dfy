/**
 * The draft-generation page: the user picks a tone and may add a custom direction;
 * "Generate Draft" starts a timer whose callback fills in a fixed, simulated draft built
 * from the tone's title and the custom direction; "Continue" stores the draft and the
 * tone for the review page.
 *
 * The page state is a class.  The timer is modelled by its two halves: the click
 * schedules a job holding the tone and the custom direction the click saw, and the
 * callback writes the draft of that job.  Storage writes are returned values.
 */
module DraftGeneration {
  import opened JsText
  import opened JsRegex
  import opened ReviewExport
  import GenerateDraft

  // ---------------------------------------------------------------------------
  // Tones
  //
  // Texts that must be shown free of double quotation marks are written as short
  // pieces, each of which the verifier can scan on its own.

  const NeutralTitle := "Product" + " Development" + " Update: Key" + " Insights from"
    + " Recent Interview"
  const ExcitedTitle := "Exciting New" + " Product Launch:" + " Behind the"
    + " Scenes with the" + " Development Team"
  const CriticalTitle := "Development" + " Challenges and" + " Opportunities: A"
    + " Critical" + " Analysis"
  const DefaultTitle := "Article Draft"

  /** The three tones the page offers. */
  predicate PageTone(tone: string) {
    tone == "neutral" || tone == "excited" || tone == "critical"
  }

  /** `getToneTitle`. */
  function ToneTitle(tone: string): string {
    match tone
    case "neutral" => NeutralTitle
    case "excited" => ExcitedTitle
    case "critical" => CriticalTitle
    case _ => DefaultTitle
  }

  /** Every tone but the three the page offers gets the default title, and the three get
      titles of their own. */
  lemma ToneTitleFallback(tone: string)
    ensures ToneTitle(tone) == DefaultTitle <==> !PageTone(tone)
  {
    if PageTone(tone) {
      assert |ToneTitle(tone)| > |DefaultTitle|;
    }
  }

  /** No title holds a double quotation mark. */
  lemma TitleQuoteFree(tone: string)
    ensures '"' !in ToneTitle(tone)
  {
    match tone
    case "neutral" => NeutralTitleQuoteFree();
    case "excited" => ExcitedTitleQuoteFree();
    case "critical" => CriticalTitleQuoteFree();
    case _ =>
  }

  lemma NeutralTitleQuoteFree()
    ensures '"' !in NeutralTitle
  {
  }

  lemma ExcitedTitleQuoteFree()
    ensures '"' !in ExcitedTitle
  {
  }

  lemma CriticalTitleQuoteFree()
    ensures '"' !in CriticalTitle
  {
  }

  /** One entry of the tone menu. */
  datatype ToneOption = ToneOption(value: string, caption: string)

  /** `toneOptions`. */
  const ToneOptions := [
    ToneOption("neutral", "Neutral Explainer"),
    ToneOption("excited", "Excited Launch Article"),
    ToneOption("critical", "Critical Analysis")]

  /** Every tone the menu offers has a title of its own here, while the draft-generation
      function knows none of them and writes in its professional tone. */
  lemma ToneOptionsCovered()
    ensures forall i :: 0 <= i < |ToneOptions| ==>
              PageTone(ToneOptions[i].value) && ToneTitle(ToneOptions[i].value) != DefaultTitle
              && GenerateDraft.ToneInstruction(ToneOptions[i].value)
                 == GenerateDraft.ProfessionalInstruction
  {
    forall i | 0 <= i < |ToneOptions|
      ensures ToneTitle(ToneOptions[i].value) != DefaultTitle
      ensures GenerateDraft.ToneInstruction(ToneOptions[i].value)
              == GenerateDraft.ProfessionalInstruction
    {
      ToneTitleFallback(ToneOptions[i].value);
      GenerateDraft.PageTonesAreProfessional(ToneOptions[i].value);
    }
  }

  // ---------------------------------------------------------------------------
  // The draft

  /** The fixed text of the simulated draft: the text from the end of the heading up to
      the quoted sentence, the sentence, the text after it up to the additional context,
      and the closing line. */
  datatype Template = Template(lead: string, quote: string, body: string, closing: string)

  const ContextHeading := "\n## Additional Context\n\n"

  /** The additional-context section, present only for a non-empty custom direction. */
  function AdditionalContext(customPrompt: string): string {
    if customPrompt != "" then ContextHeading + customPrompt else ""
  }

  /** The template literal of `handleGenerateDraft` for a title: its heading, the
      template's text with the sentence in straight double quotes, the additional
      context and the closing line. */
  function Render(t: Template, title: string, customPrompt: string): string {
    "# " + title + t.lead + "\"" + t.quote + "\"" + t.body
    + AdditionalContext(customPrompt) + t.closing
  }

  /** `simulatedDraft`: the template rendered with the tone's title. */
  function SimulatedDraft(t: Template, tone: string, customPrompt: string): string {
    Render(t, ToneTitle(tone), customPrompt)
  }

  /** The draft opens with the heading of the tone's title. */
  lemma DraftHeading(t: Template, tone: string, customPrompt: string)
    ensures StartsWith(SimulatedDraft(t, tone, customPrompt), "# " + ToneTitle(tone))
  {
    var heading := "# " + ToneTitle(tone);
    var s := heading;
    assert StartsWith(s, heading);
    StartsWithExtend(s, heading, t.lead);
    s := s + t.lead;
    StartsWithExtend(s, heading, "\"");
    s := s + "\"";
    StartsWithExtend(s, heading, t.quote);
    s := s + t.quote;
    StartsWithExtend(s, heading, "\"");
    s := s + "\"";
    StartsWithExtend(s, heading, t.body);
    s := s + t.body;
    StartsWithExtend(s, heading, AdditionalContext(customPrompt));
    s := s + AdditionalContext(customPrompt);
    StartsWithExtend(s, heading, t.closing);
  }

  /** A custom direction changes the draft only by inserting its section right before the
      closing line of the draft without one. */
  lemma DraftContext(t: Template, tone: string, customPrompt: string)
    requires customPrompt != ""
    ensures var plain := SimulatedDraft(t, tone, "");
            var k := |plain| - |t.closing|;
            0 <= k
            && SimulatedDraft(t, tone, customPrompt)
               == plain[..k] + ContextHeading + customPrompt + plain[k..]
  {
    var front := "# " + ToneTitle(tone) + t.lead + "\"" + t.quote + "\"" + t.body;
    assert front + "" == front;
    StartsWithConcat(front, t.closing);
    ConcatAssociative(front, ContextHeading, customPrompt);
  }

  /** The template suits the review page: no double quotation mark before the quoted
      sentence, and the sentence is a non-empty run without one that holds the phrase the
      simulated check looks for. */
  predicate QuoteReady(t: Template) {
    '"' !in t.lead && t.quote != "" && '"' !in t.quote && Includes(t.quote, KnownPhrase)
  }

  /** For a template that suits it and a heading without a double quotation mark, the
      review page detects the quoted sentence first and its simulated check marks it as
      found in the interview transcript. */
  lemma RenderQuoteDetected(t: Template, title: string, customPrompt: string)
    requires QuoteReady(t) && '"' !in title
    ensures var found := Detected(Render(t, title, customPrompt));
            |found| >= 1 && found[0] == FoundQuote(t.quote, FromTranscript, true)
  {
    var before := "# " + title + t.lead;
    var after := t.body + AdditionalContext(customPrompt) + t.closing;
    var quoted := before + "\"" + t.quote + "\"";
    ConcatAssociative(quoted + t.body, AdditionalContext(customPrompt), t.closing);
    ConcatAssociative(quoted, t.body, AdditionalContext(customPrompt) + t.closing);
    assert Render(t, title, customPrompt) == before + ['"'] + t.quote + ['"'] + after;
    FirstDoubleQuoted(before, t.quote, after);
  }

  /** Whatever the tone and the custom direction, the review page detects the quoted
      sentence of a suitable template first and marks it as found in the transcript. */
  lemma DraftQuoteDetected(t: Template, tone: string, customPrompt: string)
    requires QuoteReady(t)
    ensures var found := Detected(SimulatedDraft(t, tone, customPrompt));
            |found| >= 1 && found[0] == FoundQuote(t.quote, FromTranscript, true)
  {
    TitleQuoteFree(tone);
    RenderQuoteDetected(t, ToneTitle(tone), customPrompt);
  }

  // ---------------------------------------------------------------------------
  // The page's template

  const Introduction := IntroductionHead + IntroductionTail
  const IntroductionHead := "\n\nIn a recent" + " interview, key" + " insights were"
    + " revealed about" + " the upcoming" + " product launch"
  const IntroductionTail := " that highlight" + " both" + " opportunities"
    + " and challenges" + " facing the" + " development" + " team."
  const ExperienceLead := "\n\n## User" + " Experience as" + " Core" + " Priority\n\nThe"
    + " development team" + " has placed user" + " experience at" + " the center of"
    + " their strategy." + " As noted in the" + " interview, "
  const QuotedSentence := "users should never have to think"
    + " about how to use our product."
  const ExperienceEnd :=
    " This philosophy has guided major design decisions and reflects the company's"
    + " commitment to intuitive interfaces."
  const BudgetSection :=
    "\n\n## Budget and Timeline Pressures\n\n"
    + "The project faces significant constraints that have reshaped the original vision."
    + " Budget limitations have forced the team to reduce scope by approximately 30%"
    + " from the original plan."
    + " Additionally, competitive pressure has accelerated the timeline, moving the"
    + " launch up by two weeks from the initially planned date."
  const BetaSection :=
    "\n\n## Beta Testing Results\n\n"
    + "Customer feedback from the beta testing phase shows promising results, with an"
    + " 85% satisfaction rate among participants."
    + " However, performance issues have emerged as the primary concern, with users"
    + " reporting slow loading times as the main complaint requiring immediate"
    + " attention."
  const FutureSection :=
    "\n\n## Future Implementation Strategy\n\n"
    + "Looking ahead, the team has outlined a measured approach to feature rollout."
    + " A/B testing will be implemented for the new feature set before full deployment,"
    + " ensuring that user experience remains optimal while managing risk."
  const Closing :=
    "\n\n---\n*This draft was generated from interview transcript and supporting materials."
    + " All quotes and data points have been sourced from the provided materials.*"
  const SectionBreak := "\n\n"

  /** The text between the closing quotation mark and the additional context. */
  const PageBody := ExperienceEnd + BudgetSection + BetaSection + FutureSection + SectionBreak

  /** The template of `handleGenerateDraft`. */
  const PageTemplate :=
    Template(Introduction + ExperienceLead, QuotedSentence, PageBody, Closing)

  /** No double quotation mark in the introduction. */
  lemma IntroductionQuoteFree()
    ensures '"' !in Introduction
  {
    IntroductionHeadQuoteFree();
    IntroductionTailQuoteFree();
  }

  lemma IntroductionHeadQuoteFree()
    ensures '"' !in IntroductionHead
  {
  }

  lemma IntroductionTailQuoteFree()
    ensures '"' !in IntroductionTail
  {
  }

  /** No double quotation mark in the text that leads up to the quoted sentence. */
  lemma ExperienceLeadQuoteFree()
    ensures '"' !in ExperienceLead
  {
  }

  /** The quoted sentence is a non-empty run without a double quotation mark. */
  lemma QuotedSentenceQuoteFree()
    ensures QuotedSentence != "" && '"' !in QuotedSentence
  {
  }

  /** The quoted sentence holds the phrase of the simulated check. */
  lemma QuotedSentenceHasPhrase()
    ensures Includes(QuotedSentence, KnownPhrase)
  {
    IncludesStart(KnownPhrase, " about how to use our product.");
  }

  /** The page's template suits the review page, whatever text follows the quoted
      sentence. */
  lemma PageTemplateReady(body: string, closing: string)
    ensures QuoteReady(Template(Introduction + ExperienceLead, QuotedSentence, body, closing))
  {
    IntroductionQuoteFree();
    ExperienceLeadQuoteFree();
    QuotedSentenceQuoteFree();
    QuotedSentenceHasPhrase();
  }

  // ---------------------------------------------------------------------------
  // The page

  /** What the timer callback uses: the tone and the custom direction of the click. */
  datatype PendingDraft = PendingDraft(tone: string, customPrompt: string)

  class DraftGenerationPage {
    /** The fixed text of the draft the timer callback writes. */
    const template: Template
    var selectedTone: string
    var customPrompt: string
    var generatedDraft: string
    var isGenerating: bool

    /** The template suits the review page. */
    predicate Valid() {
      QuoteReady(template)
    }

    constructor ()
      ensures template == PageTemplate && Valid()
      ensures selectedTone == "" && customPrompt == "" && generatedDraft == "" && !isGenerating
    {
      template := PageTemplate;
      selectedTone, customPrompt, generatedDraft, isGenerating := "", "", "", false;
      PageTemplateReady(PageBody, Closing);
    }

    /** The tone menu's `onValueChange`. */
    method SelectTone(tone: string)
      modifies this
      ensures selectedTone == tone
      ensures customPrompt == old(customPrompt) && generatedDraft == old(generatedDraft)
      ensures isGenerating == old(isGenerating)
    {
      selectedTone := tone;
    }

    /** The custom-direction input's `onChange`. */
    method SetCustomPrompt(text: string)
      modifies this
      ensures customPrompt == text
      ensures selectedTone == old(selectedTone) && generatedDraft == old(generatedDraft)
      ensures isGenerating == old(isGenerating)
    {
      customPrompt := text;
    }

    /** `handleGenerateDraft`: nothing without a tone; otherwise the page shows that it is
        generating and the timer is set with the current tone and direction. */
    method HandleGenerateDraft() returns (timer: Option<PendingDraft>)
      modifies this
      ensures selectedTone == old(selectedTone) && customPrompt == old(customPrompt)
      ensures generatedDraft == old(generatedDraft)
      ensures old(selectedTone) == "" ==> timer.None? && isGenerating == old(isGenerating)
      ensures old(selectedTone) != "" ==>
                timer == Some(PendingDraft(selectedTone, customPrompt)) && isGenerating
    {
      if selectedTone == "" {
        return None;
      }
      isGenerating := true;
      timer := Some(PendingDraft(selectedTone, customPrompt));
    }

    /** The timer callback: the simulated draft of the job replaces the draft, and the page
        stops generating.  The review page will find the draft's quoted sentence first. */
    method TimerFired(job: PendingDraft)
      requires Valid()
      modifies this
      ensures generatedDraft == SimulatedDraft(template, job.tone, job.customPrompt)
      ensures !isGenerating
      ensures selectedTone == old(selectedTone) && customPrompt == old(customPrompt)
      ensures var found := Detected(generatedDraft);
              |found| >= 1 && found[0] == FoundQuote(template.quote, FromTranscript, true)
    {
      generatedDraft := SimulatedDraft(template, job.tone, job.customPrompt);
      isGenerating := false;
      DraftQuoteDetected(template, job.tone, job.customPrompt);
    }

    /** The draft text area's `onChange`. */
    method EditDraft(text: string)
      modifies this
      ensures generatedDraft == text
      ensures selectedTone == old(selectedTone) && customPrompt == old(customPrompt)
      ensures isGenerating == old(isGenerating)
    {
      generatedDraft := text;
    }

    /** `handleContinue`: what it stores under "generatedDraft" and "selectedTone". */
    method HandleContinue() returns (storedDraft: string, storedTone: string)
      ensures storedDraft == generatedDraft && storedTone == selectedTone
    {
      storedDraft, storedTone := generatedDraft, selectedTone;
    }
  }
}
