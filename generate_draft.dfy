/**
 * The draft-generation edge function: it checks that the request carries a list of key
 * points, picks the instruction for the requested tone, writes the prompt (system
 * prompt, optional additional instructions, the numbered key points) and accepts or
 * rejects the language model's reply.
 *
 * Everything here is a pure function of the request and of the reply; the call to the
 * language model is a parameter from the prompt text to the reply.
 */
module GenerateDraft {
  import opened JsText
  import opened Numbering

  // ---------------------------------------------------------------------------
  // The request

  /** The `keyPoints` property of the request: a list, or anything else (missing, null,
      a text, a number). */
  datatype KeyPointsField = NotAList | List(points: seq<string>)

  // ---------------------------------------------------------------------------
  // The tone instruction

  const ProfessionalInstruction := "Write in a professional, authoritative tone suitable for business publications. Use clear, direct language and maintain objectivity."
  const ConversationalInstruction := "Write in a friendly, conversational tone as if speaking directly to the reader. Use accessible language and personal pronouns."
  const AnalyticalInstruction := "Write in an analytical, data-driven tone. Focus on insights, implications, and logical conclusions. Use precise language."
  const StorytellingInstruction := "Write in an engaging, narrative style that tells a story. Use vivid descriptions and create emotional connections with readers."

  /** The four tones the function knows. */
  predicate KnownTone(tone: string) {
    tone == "professional" || tone == "conversational" || tone == "analytical"
    || tone == "storytelling"
  }

  /** The names an object literal inherits from `Object.prototype` in the Deno runtime:
      looking one of them up on `toneInstructions` finds the inherited member, which is
      truthy, so the `||` fallback does not apply. */
  predicate InheritedKey(tone: string) {
    tone == "constructor" || tone == "hasOwnProperty" || tone == "isPrototypeOf"
    || tone == "propertyIsEnumerable" || tone == "toLocaleString" || tone == "toString"
    || tone == "valueOf" || tone == "__defineGetter__" || tone == "__defineSetter__"
    || tone == "__lookupGetter__" || tone == "__lookupSetter__" || tone == "__proto__"
  }

  /** How an inherited member reads once it is put into the prompt's template: a
      built-in function prints as its native-code source (the constructor is `Object`),
      the prototype object itself as "[object Object]". */
  function InheritedText(tone: string): (r: string)
    requires InheritedKey(tone)
    ensures |r| < 50
  {
    if tone == "__proto__" then "[object Object]"
    else if tone == "constructor" then "function Object() { [native code] }"
    else "function " + tone + "() { [native code] }"
  }

  /** `toneInstructions[tone] || toneInstructions.professional`: the instruction of a
      known tone, the inherited member's text for a name `Object.prototype` provides,
      the professional instruction for any other (or a missing) tone. */
  function ToneInstruction(tone: string): string {
    if tone == "professional" then ProfessionalInstruction
    else if tone == "conversational" then ConversationalInstruction
    else if tone == "analytical" then AnalyticalInstruction
    else if tone == "storytelling" then StorytellingInstruction
    else if InheritedKey(tone) then InheritedText(tone)
    else ProfessionalInstruction
  }

  /** Every tone that is neither one of the four nor an inherited name gets the
      professional instruction; each known tone other than "professional" gets an
      instruction of its own, and so does each inherited name. */
  lemma ToneFallback(tone: string)
    ensures !KnownTone(tone) && !InheritedKey(tone) ==>
              ToneInstruction(tone) == ProfessionalInstruction
    ensures KnownTone(tone) && tone != "professional" ==>
              ToneInstruction(tone) != ProfessionalInstruction
    ensures InheritedKey(tone) ==> ToneInstruction(tone) != ProfessionalInstruction
  {
    if KnownTone(tone) && tone != "professional" {
      assert |ToneInstruction(tone)| < |ProfessionalInstruction|;
    }
    if InheritedKey(tone) {
      assert |ToneInstruction(tone)| < 50 < |ProfessionalInstruction|;
    }
  }

  /** The tones the draft page offers ("neutral", "excited", "critical") are not among
      the four, so all of them are written in the professional tone. */
  lemma PageTonesAreProfessional(tone: string)
    requires tone == "neutral" || tone == "excited" || tone == "critical"
    ensures ToneInstruction(tone) == ProfessionalInstruction
  {
    assert !InheritedKey(tone);
    ToneFallback(tone);
  }

  // ---------------------------------------------------------------------------
  // The prompt

  const ExpertIntro := "You are an expert article writer. "
  const StructureGuide := "\n\nStructure your article with:\n1. A compelling headline\n2. An engaging introduction\n3. 3-4 main sections with subheadings\n4. A strong conclusion\n\nMake sure to incorporate direct quotes where appropriate and reference supporting sources when relevant."
  const AdditionalInstructions := "\n\nAdditional instructions: "
  const KeyPointsRequest := "\n\nPlease write a comprehensive article based on these key points:\n\n"
  const LengthRequest := "\n\nThe article should be approximately 800-1200 words and include relevant quotes and insights from the key points. Make it engaging and informative for readers."

  /** The system prompt without additional instructions. */
  function BasePrompt(instruction: string): string {
    ExpertIntro + instruction + StructureGuide
  }

  /** `systemPrompt`, with `customPrompt` appended under its heading only when it is
      truthy (a missing prompt is ""). */
  function SystemPrompt(instruction: string, customPrompt: string): (r: string)
    ensures customPrompt == "" ==> r == BasePrompt(instruction)
    ensures customPrompt != "" ==> r == BasePrompt(instruction) + AdditionalInstructions + customPrompt
  {
    var base := BasePrompt(instruction);
    if customPrompt != "" then base + AdditionalInstructions + customPrompt else base
  }

  /** The text sent to the language model, given the tone's instruction. */
  function Prompt(points: seq<string>, instruction: string, customPrompt: string): string {
    SystemPrompt(instruction, customPrompt) + KeyPointsRequest + NumberedList(points) + LengthRequest
  }

  /** The prompt is the system prompt, the request heading, the numbered key points and
      the length request, in that order; the additional instructions are in it exactly
      when a custom prompt is given, right before the request heading. */
  lemma PromptLayout(points: seq<string>, instruction: string, customPrompt: string)
    ensures var p := Prompt(points, instruction, customPrompt);
            var head := SystemPrompt(instruction, customPrompt) + KeyPointsRequest;
            StartsWith(p, BasePrompt(instruction))
            && StartsWith(p, head)
            && p[|head|..] == NumberedList(points) + LengthRequest
            && (customPrompt != "" ==>
                  StartsWith(p, BasePrompt(instruction) + AdditionalInstructions + customPrompt))
  {
    var system := SystemPrompt(instruction, customPrompt);
    var head := system + KeyPointsRequest;
    var tail := NumberedList(points) + LengthRequest;
    ConcatAssociative(head, NumberedList(points), LengthRequest);
    StartsWithConcat(head, tail);
    StartsWithConcat(system, KeyPointsRequest);
    StartsWithTransitive(head + tail, head, system);
    var base := BasePrompt(instruction);
    if customPrompt != "" {
      var extra := AdditionalInstructions + customPrompt;
      ConcatAssociative(base, AdditionalInstructions, customPrompt);
      StartsWithConcat(base, extra);
      StartsWithTransitive(head + tail, system, base);
    } else {
      StartsWithConcat(base, []);
    }
  }

  // ---------------------------------------------------------------------------
  // The reply

  /** The first candidate of the model's reply: its finish reason ("" when missing) and
      the texts of its content parts (None when `content` or `content.parts` is
      missing). */
  datatype Candidate = Candidate(finishReason: string, parts: Option<seq<string>>)

  /** What the call to the language model came to: the call or the reading of the reply
      body threw with a message, or a reply with its `ok` flag and its candidates (None
      when the property is missing). */
  datatype ModelReply =
    | Failed(message: string)
    | Replied(ok: bool, candidates: Option<seq<Candidate>>)

  /** What the function answers. */
  datatype DraftResponse =
    | Rejected(status: nat, error: string)
    | Drafted(draft: string)

  const RequiredError := "Key points are required"
  const FailedError := "Failed to generate draft"
  const InvalidError := "Invalid response from Gemini API"
  const TooLongError := "Draft too long - try with fewer key points"
  const StructureError := "Invalid response structure from Gemini API"

  /** A reply that carries a first candidate. */
  predicate HasCandidate(reply: ModelReply) {
    reply.Replied? && reply.candidates.Some? && |reply.candidates.value| > 0
  }

  /** The checks after the call, in their order: the call failed, the reply is not OK,
      there is no first candidate, the candidate was cut off at the token limit, the
      candidate has no first part; otherwise the draft is the first part's text.  Each
      thrown error becomes a 500 answer carrying its message. */
  function Accept(reply: ModelReply): (r: DraftResponse)
    ensures r.Drafted? <==> HasCandidate(reply) && reply.ok
                            && reply.candidates.value[0].finishReason != "MAX_TOKENS"
                            && reply.candidates.value[0].parts.Some?
                            && |reply.candidates.value[0].parts.value| > 0
    ensures r.Drafted? ==> r.draft == reply.candidates.value[0].parts.value[0]
    ensures r.Rejected? ==> r.status == 500
  {
    match reply
    case Failed(message) => Rejected(500, message)
    case Replied(ok, candidates) =>
      if !ok then Rejected(500, FailedError)
      else if candidates.None? || |candidates.value| == 0 then Rejected(500, InvalidError)
      else
        var candidate := candidates.value[0];
        if candidate.finishReason == "MAX_TOKENS" then Rejected(500, TooLongError)
        else if candidate.parts.None? || |candidate.parts.value| == 0 then
          Rejected(500, StructureError)
        else Drafted(candidate.parts.value[0])
  }

  /** The token-limit check comes before the content check: a cut-off candidate is
      rejected even when it has content, and an OK reply without candidates is rejected
      for that whatever else it holds. */
  lemma MaxTokensRejected(candidates: seq<Candidate>)
    ensures |candidates| > 0 && candidates[0].finishReason == "MAX_TOKENS" ==>
              Accept(Replied(true, Some(candidates))) == Rejected(500, TooLongError)
    ensures candidates == [] ==> Accept(Replied(true, Some(candidates))) == Rejected(500, InvalidError)
  {
  }

  /** The answer to a request: 400 without a key-point list, otherwise the outcome of the
      call with the prompt. */
  function Response(keyPoints: KeyPointsField, tone: string, customPrompt: string,
                    model: string -> ModelReply): (r: DraftResponse)
    ensures keyPoints.NotAList? ==> r == Rejected(400, RequiredError)
    ensures r.Rejected? && r.status == 400 <==> keyPoints.NotAList?
    ensures keyPoints.List? ==>
              r == Accept(model(Prompt(keyPoints.points, ToneInstruction(tone), customPrompt)))
  {
    match keyPoints
    case NotAList => Rejected(400, RequiredError)
    case List(points) => Accept(model(Prompt(points, ToneInstruction(tone), customPrompt)))
  }
}
