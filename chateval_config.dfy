/**
 * `configs/chateval_config.py`: the three prompt templates and the panel table. The
 * templates are reproduced chunk by chunk; their placeholder sets decide what each
 * judge and the moderator can see.
 */
module ChatEvalConfig {
  import opened Config
  import opened Templates

  const ROUND_1_JUDGE_TEMPLATE: Template := Template(
    [
      Chunk(
        "ROUND 1: STRUCTURED INDEPENDENT ANALYSIS\n\n" +
        "Analyze the following multiple-choice question using a systematic approach:\n\n",
        "question_text")
    ],
    "\n\nAPPLY THIS ANALYTICAL STRUCTURE:\n" +
    "1. Clarify what the question is fundamentally asking.\n" +
    "2. Identify and eliminate clearly incorrect options with brief justification.\n" +
    "3. Compare the remaining plausible options in depth.\n" +
    "4. Determine which option has the strongest evidentiary support.\n" +
    "5. Note any assumptions or uncertainties in your reasoning.\n\n" +
    "Provide your structured analysis and final answer in the required format.")

  const ROUND_2_JUDGE_TEMPLATE: Template := Template(
    [
      Chunk(
        "ROUND 2: CRITICAL RE-EVALUATION\n\n" +
        "You previously provided this analysis:\n",
        "my_round1_response"),
      Chunk(
        "\n\nNow critically examine two alternative perspectives from other expert judges:\n\n" +
        "ALTERNATIVE PERSPECTIVE 1:\n",
        "judge2_round1_response"),
      Chunk(
        "\n\nALTERNATIVE PERSPECTIVE 2:\n",
        "judge3_round1_response")
    ],
    "\n\nRE-EVALUATION TASKS:\n" +
    "1. COMPARE REASONING APPROACHES: How do the alternative analyses differ from yours in method or focus?\n" +
    "2. IDENTIFY STRENGTHS: What valid points or considerations do the other analyses raise?\n" +
    "3. ASSESS WEAKNESSES: Are there logical gaps or questionable assumptions in the alternative views?\n" +
    "4. INTEGRATE INSIGHTS: How should your analysis be refined based on this examination?\n\n" +
    "DECISION POINT:\n" +
    "- If other analyses present stronger reasoning, explain why you're revising your position.\n" +
    "- If your original analysis remains strongest, explain why it withstands critical examination.\n" +
    "- Either way, provide enhanced reasoning incorporating this comparative analysis.\n\n" +
    "Provide your updated, more robust analysis and final answer.")

  /** The moderator template's layout: the field that follows each of its seven pieces of text. */
  function ModeratorLayout(texts: seq<string>): Template
    requires |texts| == 8
  {
    Template(
      [
        Chunk(texts[0], "question_text"),
        Chunk(texts[1], "judge1_round1_response"),
        Chunk(texts[2], "judge2_round1_response"),
        Chunk(texts[3], "judge3_round1_response"),
        Chunk(texts[4], "judge1_round2_response"),
        Chunk(texts[5], "judge2_round2_response"),
        Chunk(texts[6], "judge3_round2_response")
      ],
      texts[7])
  }

  /** The text of the moderator template: the seven pieces before its fields, then its tail. */
  const MODERATOR_TEXTS: seq<string> := [
    "FINAL SYNTHESIS: EVIDENCE-BASED DECISION INTEGRATION\n\n" +
    "ORIGINAL QUESTION:\n",
    "\n\nANALYTICAL MATERIALS FOR SYNTHESIS:\n\n" +
    "INITIAL INDEPENDENT ANALYSES:\n" +
    "JUDGE 1: ",
    "\nJUDGE 2: ",
    "\nJUDGE 3: ",
    "\n\nREVISED ANALYSES AFTER PEER EXAMINATION:\n" +
    "JUDGE 1: ",
    "\nJUDGE 2: ",
    "\nJUDGE 3: ",
    "\n\nSYNTHESIS FRAMEWORK:\n\n" +
    "1. REASONING QUALITY ASSESSMENT:\n" +
    "   - Which analyses demonstrate the clearest logical progression?\n" +
    "   - Which arguments are best supported by evidence or principles?\n" +
    "   - Which analyses most thoroughly consider alternatives?\n\n" +
    "2. CONVERGENCE ANALYSIS:\n" +
    "   - Where do multiple analyses independently reach similar conclusions?\n" +
    "   - What specific reasoning points receive consistent support?\n" +
    "   - Do the revised analyses show meaningful convergence?\n\n" +
    "3. DECISION FACTOR IDENTIFICATION:\n" +
    "   - What are the 2-3 most critical factors determining the correct answer?\n" +
    "   - Which analysis best addresses these key factors?\n" +
    "   - Are there important considerations that any analysis overlooks?\n\n" +
    "4. ROBUSTNESS EVALUATION:\n" +
    "   - Which conclusion best withstands critical examination from multiple perspectives?\n" +
    "   - Which reasoning chain has the fewest logical vulnerabilities?\n" +
    "   - Considering all perspectives, what is the most defensible conclusion?\n\n" +
    "INTEGRATED DECISION:\n" +
    "Based on comprehensive evaluation of reasoning quality, evidence support, and analytical robustness across all six evaluations, the most justified answer is option [X].\n\n" +
    "Provide your final decision with brief justification of why this conclusion emerges from the full analytical exchange."
  ]

  const MODERATOR_TEMPLATE: Template := ModeratorLayout(MODERATOR_TEXTS)

  /** One entry of `CHATEVAL_CONFIG["judges"]` (the moderator is the last entry). */
  datatype JudgeEntry = JudgeEntry(
    name: string,
    systemPrompt: SystemPrompt,
    participatesInRounds: seq<RoundLabel>)

  datatype PanelConfig = PanelConfig(
    name: string,
    numJudges: nat,
    rounds: nat,
    judges: seq<JudgeEntry>,
    totalApiCallsPerQuestion: nat)

  const CHATEVAL_CONFIG: PanelConfig := PanelConfig(
    "chateval_optimized",
    3,
    2,
    [
      JudgeEntry("judge_1", JudgeSystemPrompt, [Numbered(1), Numbered(2)]),
      JudgeEntry("judge_2", JudgeSystemPrompt, [Numbered(1), Numbered(2)]),
      JudgeEntry("judge_3", JudgeSystemPrompt, [Numbered(1), Numbered(2)]),
      JudgeEntry("moderator", ModeratorSystemPrompt, [FinalRound])
    ],
    7)

  /** Every round-1 judge sees the question and nothing else. */
  lemma Round1JudgeSlots()
    ensures Slots(ROUND_1_JUDGE_TEMPLATE) == {"question_text"}
  {
    var cs := ROUND_1_JUDGE_TEMPLATE.chunks;
    assert |cs| == 1;
    assert cs[0].field == "question_text";
    assert forall c :: c in cs ==> c == cs[0];
  }

  /** A round-2 judge sees its own first answer and two peer answers; the question is not a field. */
  lemma Round2JudgeSlots()
    ensures Slots(ROUND_2_JUDGE_TEMPLATE) == {"my_round1_response", "judge2_round1_response", "judge3_round1_response"}
  {
    var cs := ROUND_2_JUDGE_TEMPLATE.chunks;
    assert |cs| == 3;
    assert cs[0].field == "my_round1_response";
    assert cs[1].field == "judge2_round1_response";
    assert cs[2].field == "judge3_round1_response";
    assert forall c :: c in cs ==> c == cs[0] || c == cs[1] || c == cs[2];
  }

  /** Whatever its text, the moderator layout names the question and all six judge responses. */
  lemma ModeratorLayoutSlots(texts: seq<string>)
    requires |texts| == 8
    ensures Slots(ModeratorLayout(texts)) == {"question_text", "judge1_round1_response", "judge2_round1_response", "judge3_round1_response", "judge1_round2_response", "judge2_round2_response", "judge3_round2_response"}
  {
    var cs := ModeratorLayout(texts).chunks;
    assert forall c :: c in cs ==> c == cs[0] || c == cs[1] || c == cs[2] || c == cs[3] || c == cs[4] || c == cs[5] || c == cs[6];
  }

  /** The moderator sees the question and all six judge responses. */
  lemma ModeratorSlots()
    ensures Slots(MODERATOR_TEMPLATE) == {"question_text", "judge1_round1_response", "judge2_round1_response", "judge3_round1_response", "judge1_round2_response", "judge2_round2_response", "judge3_round2_response"}
  {
    ModeratorLayoutSlots(MODERATOR_TEXTS);
  }
}
