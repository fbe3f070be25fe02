/**
 * `configs/angel_demon_config.py`: the seven round templates and the persona table.
 * The templates are reproduced chunk by chunk; their placeholder sets decide
 * what each call of the debate can see.
 */
module AngelDemonConfig {
  import opened Config
  import opened Templates

  const ROUND_1_ANGEL: Template := Template(
    [
      Chunk(
        "ROUND 1: ANGEL'S INITIAL ANALYSIS\n\n" +
        "Analyze the following multiple-choice question independently. Provide your reasoned choice and justification.\n\n",
        "question_text")
    ],
    "\n\nYour analysis:")

  const ROUND_1_DEMON: Template := Template(
    [
      Chunk(
        "ROUND 1: DEMON'S INITIAL CRITIQUE\n\n" +
        "The Angel has provided this initial analysis:\n\n" +
        "ANGEL'S ANALYSIS:\n",
        "angel_response_1")
    ],
    "\n\nYour task: Critically analyze the Angel's reasoning. Identify weaknesses, assumptions, or alternative possibilities they may have missed.\n\n" +
    "Your critique:")

  const ROUND_2_ANGEL: Template := Template(
    [
      Chunk(
        "ROUND 2: ANGEL'S DEFENSE\n\n" +
        "You initially analyzed:\n",
        "angel_response_1"),
      Chunk(
        "\n\nThe Demon criticized your reasoning:\n" +
        "DEMON'S CRITIQUE:\n",
        "demon_response_1")
    ],
    "\n\nRespond to the Demon's critique. Defend your position, address valid points, and refine your reasoning if necessary.\n\n" +
    "Your defense:")

  const ROUND_2_DEMON: Template := Template(
    [
      Chunk(
        "ROUND 2: DEMON'S DEEPER CRITIQUE\n\n" +
        "DEBATE HISTORY:\n" +
        "1. Angel's initial analysis: ",
        "angel_response_1"),
      Chunk(
        "\n2. Demon's first critique: ",
        "demon_response_1"),
      Chunk(
        "\n3. Angel's defense: ",
        "angel_response_2")
    ],
    "\n\nYour task: Analyze the Angel's defense. Has it adequately addressed your criticisms? Find new weaknesses or reinforce your previous points.\n\n" +
    "Your critique:")

  const ROUND_3_ANGEL: Template := Template(
    [
      Chunk(
        "ROUND 3: ANGEL'S CONSOLIDATION\n\n" +
        "DEBATE HISTORY:\n" +
        "1. Your initial analysis: ",
        "angel_response_1"),
      Chunk(
        "\n2. Demon's first critique: ",
        "demon_response_1"),
      Chunk(
        "\n3. Your defense: ",
        "angel_response_2"),
      Chunk(
        "\n4. Demon's second critique: ",
        "demon_response_2")
    ],
    "\n\nYour task: After this debate, what is your final position? Synthesize the insights gained. Consider:\n" +
    "- Which of Demon's points were valid?\n" +
    "- How has your reasoning strengthened or changed?\n" +
    "- What is now the most defensible answer?\n\n" +
    "Provide your final analysis and answer in the required format.")

  const ROUND_3_DEMON: Template := Template(
    [
      Chunk(
        "ROUND 3: DEMON'S FINAL CHALLENGE\n\n" +
        "DEBATE HISTORY:\n" +
        "1. Angel's initial analysis: ",
        "angel_response_1"),
      Chunk(
        "\n2. Your first critique: ",
        "demon_response_1"),
      Chunk(
        "\n3. Angel's defense: ",
        "angel_response_2"),
      Chunk(
        "\n4. Your second critique: ",
        "demon_response_2"),
      Chunk(
        "\n5. Angel's consolidation: ",
        "angel_response_3")
    ],
    "\n\nYour task: Deliver your strongest, most comprehensive critique of the Angel's final position. Leave no stone unturned.\n\n" +
    "Your final critique:")

  const FINAL_ANGEL_SYNTHESIS: Template := Template(
    [
      Chunk(
        "FINAL SYNTHESIS: ANGEL'S DECISION\n\n" +
        "ORIGINAL QUESTION: ",
        "question_text"),
      Chunk(
        "\n\nDEBATE CORE EVOLUTION:\n" +
        "- My Initial Answer: ",
        "angel_response_1"),
      Chunk(
        "\n- Demon's Key Challenge: ",
        "demon_response_1"),
      Chunk(
        "\n- My Refined View: ",
        "angel_response_2"),
      Chunk(
        "\n- Demon's Final Push: ",
        "demon_response_2"),
      Chunk(
        "\n- My Settled Position: ",
        "angel_response_3")
    ],
    "\n\nFINAL TASK:\n" +
    "After this adversarial debate, review the exchange. Identify the Demon's most valid point and how it refined your thinking. Then, based on the entire process, commit to the single most defensible answer.\n\n" +
    "**CRITICAL: You MUST output first and foremost in this exact format:**\n" +
    "FINAL_ANSWER: [X]\n" +
    "**where [X] is a single digit from 0 to 9.**\n\n" +
    "**After this line, you may optionally provide a brief rationale.**")

  /** One persona entry of `ANGEL_DEMON_CONFIG["personas"]`. */
  datatype PersonaEntry = PersonaEntry(
    name: string,
    systemPrompt: SystemPrompt,
    participatesInRounds: seq<RoundLabel>,
    finalDecisionMaker: bool)

  datatype DebateConfig = DebateConfig(
    name: string,
    numPersonas: nat,
    rounds: nat,
    personas: seq<PersonaEntry>,
    totalApiCallsPerQuestion: nat)

  const ANGEL_DEMON_CONFIG: DebateConfig := DebateConfig(
    "angel_demon_debate",
    2,
    3,
    [
      PersonaEntry("angel", AngelSystemPrompt, [Numbered(1), Numbered(2), Numbered(3), FinalRound], true),
      PersonaEntry("demon", DemonSystemPrompt, [Numbered(1), Numbered(2), Numbered(3)], false)
    ],
    7)

  /** The opening analysis sees only the question. */
  lemma Round1AngelSlots()
    ensures Slots(ROUND_1_ANGEL) == {"question_text"}
  {
    var cs := ROUND_1_ANGEL.chunks;
    assert |cs| == 1;
    assert cs[0].field == "question_text";
    assert forall c :: c in cs ==> c == cs[0];
  }

  /** The first critique sees only the Angel's first answer, not the question. */
  lemma Round1DemonSlots()
    ensures Slots(ROUND_1_DEMON) == {"angel_response_1"}
  {
    var cs := ROUND_1_DEMON.chunks;
    assert |cs| == 1;
    assert cs[0].field == "angel_response_1";
    assert forall c :: c in cs ==> c == cs[0];
  }

  /** The defence sees the first exchange, not the question. */
  lemma Round2AngelSlots()
    ensures Slots(ROUND_2_ANGEL) == {"angel_response_1", "demon_response_1"}
  {
    var cs := ROUND_2_ANGEL.chunks;
    assert |cs| == 2;
    assert cs[0].field == "angel_response_1";
    assert cs[1].field == "demon_response_1";
    assert forall c :: c in cs ==> c == cs[0] || c == cs[1];
  }

  /** The deeper critique sees the first exchange and the defence. */
  lemma Round2DemonSlots()
    ensures Slots(ROUND_2_DEMON) == {"angel_response_1", "demon_response_1", "angel_response_2"}
  {
    var cs := ROUND_2_DEMON.chunks;
    assert |cs| == 3;
    assert cs[0].field == "angel_response_1";
    assert cs[1].field == "demon_response_1";
    assert cs[2].field == "angel_response_2";
    assert forall c :: c in cs ==> c == cs[0] || c == cs[1] || c == cs[2];
  }

  /** The consolidation sees both earlier exchanges. */
  lemma Round3AngelSlots()
    ensures Slots(ROUND_3_ANGEL) == {"angel_response_1", "demon_response_1", "angel_response_2", "demon_response_2"}
  {
    var cs := ROUND_3_ANGEL.chunks;
    assert |cs| == 4;
    assert cs[0].field == "angel_response_1";
    assert cs[1].field == "demon_response_1";
    assert cs[2].field == "angel_response_2";
    assert cs[3].field == "demon_response_2";
    assert forall c :: c in cs ==> c == cs[0] || c == cs[1] || c == cs[2] || c == cs[3];
  }

  /** The final challenge sees every earlier answer and the consolidation. */
  lemma Round3DemonSlots()
    ensures Slots(ROUND_3_DEMON) == {"angel_response_1", "demon_response_1", "angel_response_2", "demon_response_2", "angel_response_3"}
  {
    var cs := ROUND_3_DEMON.chunks;
    assert |cs| == 5;
    assert cs[0].field == "angel_response_1";
    assert cs[1].field == "demon_response_1";
    assert cs[2].field == "angel_response_2";
    assert cs[3].field == "demon_response_2";
    assert cs[4].field == "angel_response_3";
    assert forall c :: c in cs ==> c == cs[0] || c == cs[1] || c == cs[2] || c == cs[3] || c == cs[4];
  }

  /** The final decision sees the question and every answer except the Demon's last. */
  lemma FinalSynthesisSlots()
    ensures Slots(FINAL_ANGEL_SYNTHESIS) == {"question_text", "angel_response_1", "demon_response_1", "angel_response_2", "demon_response_2", "angel_response_3"}
  {
    var cs := FINAL_ANGEL_SYNTHESIS.chunks;
    assert |cs| == 6;
    assert cs[0].field == "question_text";
    assert cs[1].field == "angel_response_1";
    assert cs[2].field == "demon_response_1";
    assert cs[3].field == "angel_response_2";
    assert cs[4].field == "demon_response_2";
    assert cs[5].field == "angel_response_3";
    assert forall c :: c in cs ==> c == cs[0] || c == cs[1] || c == cs[2] || c == cs[3] || c == cs[4] || c == cs[5];
  }
}
