/** The two prompts sent with a transcript: a system prompt that sets the
    evaluator persona, the rotation context, the weighted rubric and the
    response format, and a user prompt that embeds the transcript and
    restates the rotation's required elements. */
module Prompts {
  import opened Strings
  import opened Services

  /** The rotation's required presentation elements, joined with ", ". */
  function KeyElementList(ctx: ServiceContext): string
  {
    Join(", ", ctx.keyElements)
  }

  /** The system prompt up to the list of essential elements. */
  function SystemPromptOpening(ctx: ServiceContext): string
  {
    "You are a highly experienced attending physician specializing in "
    + ctx.specialty
    + " working on the "
    + ctx.name
    + " with over 20 years of clinical experience and medical education expertise. You are evaluating a medical student's oral presentation during rounds.\n"
    + "\n"
    + "CRITICAL INSTRUCTIONS:\n"
    + "1. This is a TRANSCRIBED SPEECH presentation - ignore minor transcription errors, grammatical issues, or filler words\n"
    + "2. Focus on MEDICAL CONTENT, CLINICAL REASONING, and PRESENTATION STRUCTURE\n"
    + "3. Do NOT penalize for transcription artifacts like \"um,\" repeated words, or minor speech-to-text errors\n"
    + "4. Evaluate as if you heard this presentation live during rounds\n"
    + "\n"
    + "SERVICE CONTEXT: "
    + ctx.name
    + "\n"
    + "SPECIALTY: "
    + ctx.specialty
    + "\n"
    + "CLINICAL FOCUS: "
    + ctx.focus
    + "\n"
    + "COMMON PRESENTATIONS: "
    + ctx.commonPresentations
    + "\n"
    + "SERVICE EXPECTATIONS: "
    + ctx.expectations
    + "\n"
    + "\n"
    + "EVALUATION CRITERIA:\n"
    + "1. **Clinical Content (40%)**:\n"
    + "   - Accuracy of medical information and terminology\n"
    + "   - Appropriate differential diagnosis for "
    + ctx.specialty
    + "\n"
    + "   - Relevant history taking for "
    + ctx.name
    + "\n"
    + "   - Service-appropriate physical exam elements\n"
    + "\n"
    + "2. **Clinical Reasoning (30%)**:\n"
    + "   - Logical diagnostic approach\n"
    + "   - Risk stratification appropriate for the service\n"
    + "   - Evidence-based management plans\n"
    + "   - Understanding of service-specific protocols\n"
    + "\n"
    + "3. **Presentation Structure (20%)**:\n"
    + "   - Organized flow of information\n"
    + "   - Inclusion of essential elements: "
  }

  /** The system prompt after the list of essential elements. */
  function SystemPromptClosing(ctx: ServiceContext): string
  {
    "\n"
    + "   - Efficient communication for busy rounds\n"
    + "\n"
    + "4. **Professionalism (10%)**:\n"
    + "   - Confident delivery (accounting for transcription limitations)\n"
    + "   - Appropriate medical language\n"
    + "   - Patient-centered approach\n"
    + "\n"
    + "RESPONSE FORMAT - Return valid JSON:\n"
    + "{\n"
    + "    \"overall_score\": \"Numeric score 1-10\",\n"
    + "    \"overall_assessment\": \"2-3 sentence summary focusing on clinical strengths and areas for improvement\",\n"
    + "    \"clinical_content\": \"Detailed feedback on medical accuracy, appropriate for "
    + ctx.name
    + " context\",\n"
    + "    \"clinical_reasoning\": \"Evaluation of diagnostic thinking and management planning\",\n"
    + "    \"presentation_structure\": \"Assessment of organization and completeness for rounds presentation\",\n"
    + "    \"service_specific_feedback\": \"Feedback specific to "
    + ctx.name
    + " expectations and protocols\",\n"
    + "    \"strengths\": [\"List 3-4 specific clinical and presentation strengths\"],\n"
    + "    \"areas_for_improvement\": [\"List 3-4 specific, actionable recommendations\"],\n"
    + "    \"teaching_points\": [\"Key learning points or clinical pearls relevant to this case and "
    + ctx.specialty
    + "\"]\n"
    + "}\n"
    + "\n"
    + "Be constructive, specific, and focused on helping the student improve their clinical presentation skills for "
    + ctx.specialty
    + " rotations, specifically "
    + ctx.name
    + "."
  }

  /** `_create_system_prompt`. */
  function SystemPrompt(ctx: ServiceContext): string
  {
    SystemPromptOpening(ctx) + KeyElementList(ctx) + SystemPromptClosing(ctx)
  }

  /** The line that introduces the transcript in the user prompt. */
  const TranscriptHeader := "PRESENTATION TRANSCRIPT:\n"

  /** The user prompt before the transcript header. */
  function UserPromptOpening(ctx: ServiceContext): string
  {
    "Please evaluate this medical student presentation for "
    + ctx.name
    + " rounds in the "
    + ctx.specialty
    + " department.\n"
    + "\n"
    + "IMPORTANT: This is a transcribed oral presentation. Focus on the medical content and clinical reasoning, not transcription errors or speech patterns.\n"
    + "\n"
  }

  /** The user prompt between the transcript and the list of required elements. */
  function UserPromptChecklist(ctx: ServiceContext): string
  {
    "Evaluate this presentation considering:\n"
    + "- Required elements for "
    + ctx.name
    + ": "
  }

  /** The user prompt after the list of required elements. */
  function UserPromptClosing(ctx: ServiceContext): string
  {
    "\n"
    + "- Service-specific focus: "
    + ctx.focus
    + "\n"
    + "- Clinical reasoning appropriate for "
    + ctx.specialty
    + " patients\n"
    + "- Presentation efficiency for rounds setting\n"
    + "\n"
    + "Provide specific, actionable feedback that will help this student excel on their "
    + ctx.specialty
    + " rotation, specifically on the "
    + ctx.name
    + "."
  }

  /** The transcript under its header, followed by a blank line. */
  function TranscriptBlock(transcription: string): string
  {
    TranscriptHeader + transcription + "\n\n"
  }

  /** The user prompt up to the list of required elements. */
  function UserPromptHead(transcription: string, ctx: ServiceContext): string
  {
    UserPromptOpening(ctx) + TranscriptBlock(transcription) + UserPromptChecklist(ctx)
  }

  /** `_create_user_prompt`: the opening, the transcript block, then the
      checklist with the required elements and the closing request. */
  function UserPrompt(transcription: string, ctx: ServiceContext): string
  {
    UserPromptHead(transcription, ctx) + KeyElementList(ctx) + UserPromptClosing(ctx)
  }

  /** Text around the joined element list holds each element. */
  lemma ElementsWithin(front: string, ctx: ServiceContext, back: string)
    ensures forall k :: 0 <= k < |ctx.keyElements| ==>
      Contains(front + KeyElementList(ctx) + back, ctx.keyElements[k])
  {
    forall k | 0 <= k < |ctx.keyElements|
      ensures Contains(front + KeyElementList(ctx) + back, ctx.keyElements[k])
    {
      JoinContainsEach(", ", ctx.keyElements, k);
      ContainsWithin(front, KeyElementList(ctx), back, ctx.keyElements[k]);
    }
  }

  lemma SystemPromptHasList(ctx: ServiceContext)
    ensures Contains(SystemPrompt(ctx), KeyElementList(ctx))
  {
    ContainsInfix(SystemPromptOpening(ctx), KeyElementList(ctx), SystemPromptClosing(ctx));
  }

  lemma SystemPromptHasEachElement(ctx: ServiceContext)
    ensures forall k :: 0 <= k < |ctx.keyElements| ==> Contains(SystemPrompt(ctx), ctx.keyElements[k])
  {
    ElementsWithin(SystemPromptOpening(ctx), ctx, SystemPromptClosing(ctx));
  }

  /** The system prompt carries the joined element list, and so each element. */
  lemma SystemPromptListsElements(ctx: ServiceContext)
    ensures Contains(SystemPrompt(ctx), KeyElementList(ctx))
    ensures forall k :: 0 <= k < |ctx.keyElements| ==> Contains(SystemPrompt(ctx), ctx.keyElements[k])
  {
    SystemPromptHasList(ctx);
    SystemPromptHasEachElement(ctx);
  }

  /** The head of the user prompt holds the transcript block. */
  lemma HeadHoldsTranscript(transcription: string, ctx: ServiceContext)
    ensures Contains(UserPromptHead(transcription, ctx), TranscriptBlock(transcription))
  {
    ContainsInfix(UserPromptOpening(ctx), TranscriptBlock(transcription), UserPromptChecklist(ctx));
  }

  lemma HeadListHoldsTranscript(transcription: string, ctx: ServiceContext)
    ensures Contains(UserPromptHead(transcription, ctx) + KeyElementList(ctx), TranscriptBlock(transcription))
  {
    HeadHoldsTranscript(transcription, ctx);
    ContainsPrefix(UserPromptHead(transcription, ctx), KeyElementList(ctx), TranscriptBlock(transcription));
  }

  /** The user prompt holds the transcript verbatim, right after the
      transcript header and followed by a blank line. */
  lemma UserPromptEmbedsTranscript(transcription: string, ctx: ServiceContext)
    ensures Contains(UserPrompt(transcription, ctx), TranscriptHeader + transcription + "\n\n")
  {
    HeadListHoldsTranscript(transcription, ctx);
    ContainsPrefix(UserPromptHead(transcription, ctx) + KeyElementList(ctx), UserPromptClosing(ctx),
                   TranscriptBlock(transcription));
  }

  /** The user prompt restates the joined list of required elements, and so
      each element. */
  lemma UserPromptListsElements(transcription: string, ctx: ServiceContext)
    ensures Contains(UserPrompt(transcription, ctx), KeyElementList(ctx))
    ensures forall k :: 0 <= k < |ctx.keyElements| ==>
      Contains(UserPrompt(transcription, ctx), ctx.keyElements[k])
  {
    var head := UserPromptHead(transcription, ctx);
    ContainsInfix(head, KeyElementList(ctx), UserPromptClosing(ctx));
    ElementsWithin(head, ctx, UserPromptClosing(ctx));
  }
}
