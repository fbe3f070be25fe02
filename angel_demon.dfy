/**
 * `angel_demon.py`: three rounds of Angel and Demon, then the Angel's final
 * synthesis. Call `j` (from 0) fills the `j`-th template with the question text and
 * every response so far; only the final synthesis is parsed.
 */
module AngelDemon {
  import opened Wrappers
  import opened Text
  import opened Config
  import opened Questions
  import opened AnswerExtractor
  import opened Templates
  import opened AngelDemonConfig
  import opened DebateLogs
  import opened Protocol
  import opened Gateway

  /** The keyword under which each response is passed to later templates, in call order. */
  const RESPONSE_NAMES: seq<string> := [
    "angel_response_1", "demon_response_1",
    "angel_response_2", "demon_response_2",
    "angel_response_3", "demon_response_3"]

  /** `ROUND_1_ANGEL` … `FINAL_ANGEL_SYNTHESIS`: the template of each call, in call order. */
  const AD_TEMPLATES: seq<Template> := [
    ROUND_1_ANGEL, ROUND_1_DEMON, ROUND_2_ANGEL, ROUND_2_DEMON, ROUND_3_ANGEL, ROUND_3_DEMON,
    FINAL_ANGEL_SYNTHESIS]

  /**
   * The placeholders of call `j`'s template: the Angel's opening and the final synthesis
   * see the question; every call sees the responses before it, except that the final
   * synthesis has no placeholder for the Demon's third critique.
   */
  function CallSlots(j: nat): set<string>
    requires j < 7
  {
    match j
    case 0 => {"question_text"}
    case 1 => {"angel_response_1"}
    case 2 => {"angel_response_1", "demon_response_1"}
    case 3 => {"angel_response_1", "demon_response_1", "angel_response_2"}
    case 4 => {"angel_response_1", "demon_response_1", "angel_response_2", "demon_response_2"}
    case 5 => {"angel_response_1", "demon_response_1", "angel_response_2", "demon_response_2", "angel_response_3"}
    case 6 => {"question_text", "angel_response_1", "demon_response_1", "angel_response_2", "demon_response_2",
               "angel_response_3"}
  }

  /** A table of seven templates whose placeholders are those of the debate's calls. */
  ghost predicate Shaped(templates: seq<Template>)
  {
    |templates| == 7
    && Slots(templates[0]) == CallSlots(0) && Slots(templates[1]) == CallSlots(1)
    && Slots(templates[2]) == CallSlots(2) && Slots(templates[3]) == CallSlots(3)
    && Slots(templates[4]) == CallSlots(4) && Slots(templates[5]) == CallSlots(5)
    && Slots(templates[6]) == CallSlots(6)
  }

  /** The configured templates have the debate's placeholders. */
  lemma ConfigTemplatesShaped()
    ensures Shaped(AD_TEMPLATES)
  {
    forall j | 0 <= j < 7
      ensures Slots(AD_TEMPLATES[j]) == CallSlots(j)
    {
      if j == 0 {
        Round1AngelSlots();
      } else if j == 1 {
        Round1DemonSlots();
      } else if j == 2 {
        Round2AngelSlots();
      } else if j == 3 {
        Round2DemonSlots();
      } else if j == 4 {
        Round3AngelSlots();
      } else if j == 5 {
        Round3DemonSlots();
      } else {
        FinalSynthesisSlots();
      }
    }
  }

  /** Template tables with the debate's placeholders; the configured table is one. */
  type DebateTemplates = t: seq<Template> | Shaped(t) ghost witness ConfiguredTemplates()

  /** The configured table, known to have the debate's placeholders. */
  ghost function ConfiguredTemplates(): (t: seq<Template>)
    ensures Shaped(t)
  {
    ConfigTemplatesShaped();
    AD_TEMPLATES
  }

  const AD_FAILURES: seq<string> := [
    "Angel Round 1 failed", "Demon Round 1 failed",
    "Angel Round 2 failed", "Demon Round 2 failed",
    "Angel Round 3 failed", "Demon Round 3 failed",
    "Final synthesis failed"]

  /** `_generate_debate_log`'s sections; entry 0 is the question, entry `k` the `k`-th response. */
  const AD_LAYOUT: seq<Section> := [
    Heading("ORIGINAL QUESTION:"), Entry(0),
    Heading("\nROUND 1: INITIAL POSITIONS"),
    Heading("\nANGEL (Initial Analysis):"), Entry(1),
    Heading("\nDEMON (First Critique):"), Entry(2),
    Heading("\nROUND 2: DEFENSE & COUNTER"),
    Heading("\nANGEL (Defense):"), Entry(3),
    Heading("\nDEMON (Deeper Critique):"), Entry(4),
    Heading("\nROUND 3: FINAL ARGUMENTS"),
    Heading("\nANGEL (Consolidation):"), Entry(5),
    Heading("\nDEMON (Final Challenge):"), Entry(6),
    Heading("\nFINAL SYNTHESIS"),
    Heading("\nANGEL (Final Decision):"), Entry(7)]

  /** Where entry `k` sits in the layout. */
  const AD_ENTRY_POSITIONS: seq<nat> := [1, 4, 6, 9, 11, 14, 16, 19]

  /** The keywords call `|prior|` passes to `format`: the question text, then each earlier response under its name. */
  function Keywords(questionText: string, prior: seq<string>): map<string, string>
    requires |prior| <= 6
  {
    if prior == [] then map["question_text" := questionText]
    else Keywords(questionText, prior[..|prior| - 1])[RESPONSE_NAMES[|prior| - 1] := prior[|prior| - 1]]
  }

  /**
   * The keywords of call `|prior|` are the question text and the earlier responses,
   * each under its own name, and nothing else.
   */
  lemma {:induction false} KeywordsNameThePast(questionText: string, prior: seq<string>)
    requires |prior| <= 6
    ensures var m := Keywords(questionText, prior);
            m.Keys == {"question_text"} + (set i | 0 <= i < |prior| :: RESPONSE_NAMES[i])
            && m["question_text"] == questionText
            && forall i :: 0 <= i < |prior| ==> m[RESPONSE_NAMES[i]] == prior[i]
  {
    if prior != [] {
      var k := |prior| - 1;
      KeywordsNameThePast(questionText, prior[..k]);
      assert forall i :: 0 <= i < k ==> prior[..k][i] == prior[i];
      assert forall i :: 0 <= i < k ==> RESPONSE_NAMES[i] != RESPONSE_NAMES[k];
      assert RESPONSE_NAMES[k] != "question_text";
    }
  }

  /** Call `j` names the question only at the opening and the synthesis, and otherwise only earlier responses. */
  lemma SlotsSeeThePast(j: nat)
    requires j < 7
    ensures forall n :: n in CallSlots(j) && n != "question_text" ==> exists i :: 0 <= i < j && n == RESPONSE_NAMES[i]
    ensures "question_text" in CallSlots(j) <==> j == 0 || j == 6
  {
    assert RESPONSE_NAMES[0] == "angel_response_1" && RESPONSE_NAMES[1] == "demon_response_1";
    assert RESPONSE_NAMES[2] == "angel_response_2" && RESPONSE_NAMES[3] == "demon_response_2";
    assert RESPONSE_NAMES[4] == "angel_response_3";
  }

  /** Every template's placeholders are among the keywords of its call, so no call raises `KeyError`. */
  lemma FillingNeverFails(templates: DebateTemplates, questionText: string, prior: seq<string>)
    requires |prior| < 7
    ensures Slots(templates[|prior|]) <= Keywords(questionText, prior).Keys
    ensures Format(templates[|prior|], Keywords(questionText, prior)).Some?
  {
    KeywordsNameThePast(questionText, prior);
    SlotsSeeThePast(|prior|);
    FormatSucceeds(templates[|prior|], Keywords(questionText, prior));
    assert Slots(templates[|prior|]) == CallSlots(|prior|);
  }

  /** Call `|prior|`: the filled template; the Angel speaks on even calls and last, with 100 tokens for the synthesis. */
  function AngelDemonRequest(templates: DebateTemplates, questionText: string, prior: seq<string>): Request
    requires |prior| < 7
  {
    FillingNeverFails(templates, questionText, prior);
    var j := |prior|;
    Request(if j % 2 == 0 then AngelSystemPrompt else DemonSystemPrompt,
            Format(templates[j], Keywords(questionText, prior)).value,
            TEMPERATURE,
            if j == 6 then 100 else MAX_TOKENS)
  }

  /** The request table of the pipeline; a pipeline never makes a call past its last, so such calls reuse the last request. */
  function AngelDemonTable(templates: DebateTemplates, questionText: string): seq<string> -> Request
  {
    prior => if |prior| < 7 then AngelDemonRequest(templates, questionText, prior)
             else AngelDemonRequest(templates, questionText, prior[..6])
  }

  /** The texts of the log: the question, then the seven responses. */
  function AngelDemonLog(questionText: string, responses: seq<string>): string
    requires |responses| == 7
  {
    Log(AD_LAYOUT, [questionText] + responses)
  }

  function AngelDemonFinish(questionText: string, responses: seq<string>): StrategyResult
    requires |responses| == 7
  {
    StrategyResult(ExtractFinalAnswer(Some(responses[6])), AngelDemonLog(questionText, responses))
  }

  function AngelDemonFinisher(questionText: string): seq<string> --> StrategyResult
  {
    responses requires |responses| == 7 => AngelDemonFinish(questionText, responses)
  }

  /** What `debate_and_decide` does for a question text and a script. */
  function AngelDemonRun(templates: DebateTemplates, questionText: string, script: seq<Outcome>): (r: Run)
    ensures 1 <= |r.requests| <= 7
  {
    PipelineRun(7, AngelDemonTable(templates, questionText), AD_FAILURES, AngelDemonFinisher(questionText), script)
  }

  /**
   * A run that began in `start` is over in `now` with `result`: the result is the
   * run's, and exactly the run's requests went out.
   */
  ghost predicate Ended(templates: DebateTemplates, questionText: string, start: Gauge, now: Gauge, result: StrategyResult)
  {
    var run := AngelDemonRun(templates, questionText, start.script);
    result == run.result && SentFrom(start, now, run.requests)
  }

  /** A run stopped at call `k` ends with call `k`'s failure message, having sent the run's requests. */
  lemma AngelDemonStops(templates: DebateTemplates, questionText: string, start: Gauge, now: Gauge, done: seq<string>)
    requires Stopped(start, now, AngelDemonTable(templates, questionText), 7, done)
    ensures Ended(templates, questionText, start, now, StrategyResult(None, AD_FAILURES[|done|]))
  {
    StoppedRun(start, now, AngelDemonTable(templates, questionText), 7, AD_FAILURES, AngelDemonFinisher(questionText), done);
  }

  /**
   * Seven calls when every call is answered, with the answer parsed from the final
   * synthesis alone; otherwise the first falsy call `k` ends the run after `k + 1`
   * calls with that call's own failure message.
   */
  lemma AngelDemonOutcome(templates: DebateTemplates, questionText: string, script: seq<Outcome>)
    ensures var r := AngelDemonRun(templates, questionText, script);
            var rs := Answers(script, 7);
            (|rs| == 7 ==> |r.requests| == 7 && r.result.finalAnswer == ExtractFinalAnswer(Nth(script, 6)))
            && (|rs| < 7 ==> |r.requests| == |rs| + 1 && r.result == StrategyResult(None, AD_FAILURES[|rs|]))
  {
    PipelineResult(7, AngelDemonTable(templates, questionText), AD_FAILURES, AngelDemonFinisher(questionText), script);
  }

  /** Only the final synthesis is parsed: runs that agree on it agree on the answer, whatever the Demon said. */
  lemma AnswerFromSynthesis(templates: DebateTemplates, questionText: string, script1: seq<Outcome>, script2: seq<Outcome>)
    requires |Answers(script1, 7)| == 7 && |Answers(script2, 7)| == 7
    requires Nth(script1, 6) == Nth(script2, 6)
    ensures AngelDemonRun(templates, questionText, script1).result.finalAnswer
         == AngelDemonRun(templates, questionText, script2).result.finalAnswer
  {
    AngelDemonOutcome(templates, questionText, script1);
    AngelDemonOutcome(templates, questionText, script2);
  }

  /**
   * The speakers and limits, call by call: A1, D1, A2, D2, A3, D3 alternate between
   * the Angel's and the Demon's prompt, the synthesis is the Angel's again, and only
   * the synthesis is limited to 100 tokens.
   */
  lemma Speakers(templates: DebateTemplates, questionText: string, prior: seq<string>)
    requires |prior| < 7
    ensures var r := AngelDemonRequest(templates, questionText, prior);
            (r.system == AngelSystemPrompt <==> |prior| in {0, 2, 4, 6})
            && (r.system == DemonSystemPrompt <==> |prior| in {1, 3, 5})
            && (r.maxTokens == 100 <==> |prior| == 6)
            && (|prior| < 6 ==> r.maxTokens == MAX_TOKENS)
  {
  }

  /**
   * Every call after the Angel's first analysis, up to the Demon's last critique,
   * sends the same prompt whatever the question: none of those templates has a
   * `question_text` placeholder.
   */
  lemma DebateTurnsIgnoreQuestion(templates: DebateTemplates, question1: string, question2: string, prior: seq<string>)
    requires 1 <= |prior| <= 5
    ensures AngelDemonRequest(templates, question1, prior) == AngelDemonRequest(templates, question2, prior)
  {
    var j := |prior|;
    var k1, k2 := Keywords(question1, prior), Keywords(question2, prior);
    KeywordsNameThePast(question1, prior);
    KeywordsNameThePast(question2, prior);
    SlotsSeeThePast(j);
    assert Slots(templates[j]) == CallSlots(j);
    forall n | n in Slots(templates[j])
      ensures n in k1 && n in k2 && k1[n] == k2[n]
    {
      var i :| 0 <= i < j && n == RESPONSE_NAMES[i];
    }
    FormatSeesOnlySlots(templates[j], k1, k2);
  }

  /** The final synthesis does not depend on the Demon's third critique: it has no placeholder for it. */
  lemma SynthesisIgnoresLastCritique(templates: DebateTemplates, questionText: string, prior: seq<string>, other: string)
    requires |prior| == 6
    ensures AngelDemonRequest(templates, questionText, prior)
         == AngelDemonRequest(templates, questionText, prior[..5] + [other])
  {
    var prior' := prior[..5] + [other];
    var k1, k2 := Keywords(questionText, prior), Keywords(questionText, prior');
    KeywordsNameThePast(questionText, prior);
    KeywordsNameThePast(questionText, prior');
    SlotsSeeThePast(6);
    assert Slots(templates[6]) == CallSlots(6);
    forall n | n in Slots(templates[6])
      ensures n in k1 && n in k2 && k1[n] == k2[n]
    {
      if n != "question_text" {
        var i :| 0 <= i < 6 && n == RESPONSE_NAMES[i];
        assert i < 5 by {
          assert RESPONSE_NAMES[5] == "demon_response_3";
        }
        assert prior'[i] == prior[i];
      }
    }
    FormatSeesOnlySlots(templates[6], k1, k2);
  }

  /** A response reaches, verbatim, every later prompt whose template names it. */
  lemma ResponseReachesPrompt(templates: DebateTemplates, questionText: string, prior: seq<string>, i: nat)
    requires i < |prior| < 7 && RESPONSE_NAMES[i] in CallSlots(|prior|)
    ensures Contains(AngelDemonRequest(templates, questionText, prior).user, prior[i])
  {
    FillingNeverFails(templates, questionText, prior);
    KeywordsNameThePast(questionText, prior);
    FormatContainsSlotValue(templates[|prior|], Keywords(questionText, prior), RESPONSE_NAMES[i]);
  }

  /** The log, section by section: each heading followed by its text. */
  lemma LogSections(questionText: string, responses: seq<string>, sections: seq<string>)
    requires |responses| == 7
    requires sections == [
      "ORIGINAL QUESTION:", questionText,
      "\nROUND 1: INITIAL POSITIONS",
      "\nANGEL (Initial Analysis):", responses[0],
      "\nDEMON (First Critique):", responses[1],
      "\nROUND 2: DEFENSE & COUNTER",
      "\nANGEL (Defense):", responses[2],
      "\nDEMON (Deeper Critique):", responses[3],
      "\nROUND 3: FINAL ARGUMENTS",
      "\nANGEL (Consolidation):", responses[4],
      "\nDEMON (Final Challenge):", responses[5],
      "\nFINAL SYNTHESIS",
      "\nANGEL (Final Decision):", responses[6]]
    ensures AngelDemonLog(questionText, responses) == Join("\n", sections)
  {
    var texts := [questionText] + responses;
    assert Fits(AD_LAYOUT, texts);
    assert Render(AD_LAYOUT, texts) == [
      "ORIGINAL QUESTION:", texts[0],
      "\nROUND 1: INITIAL POSITIONS",
      "\nANGEL (Initial Analysis):", texts[1],
      "\nDEMON (First Critique):", texts[2],
      "\nROUND 2: DEFENSE & COUNTER",
      "\nANGEL (Defense):", texts[3],
      "\nDEMON (Deeper Critique):", texts[4],
      "\nROUND 3: FINAL ARGUMENTS",
      "\nANGEL (Consolidation):", texts[5],
      "\nDEMON (Final Challenge):", texts[6],
      "\nFINAL SYNTHESIS",
      "\nANGEL (Final Decision):", texts[7]];
  }

  /** The layout's entries name the eight texts. */
  lemma LayoutFits(texts: seq<string>)
    requires |texts| == 8
    ensures Fits(AD_LAYOUT, texts)
  {
  }

  /** Entry `m` of the layout sits at position `AD_ENTRY_POSITIONS[m]`, and the positions increase. */
  lemma EntryPositions(k: nat, m: nat)
    requires k < m < 8
    ensures AD_ENTRY_POSITIONS[k] < AD_ENTRY_POSITIONS[m] < 20 == |AD_LAYOUT|
    ensures AD_LAYOUT[AD_ENTRY_POSITIONS[m]] == Entry(m)
  {
  }

  /** The log holds the question and the seven responses verbatim, in the order they were produced. */
  lemma LogInOrder(questionText: string, responses: seq<string>, k: nat, m: nat)
    requires |responses| == 7 && k < m < 8
    ensures var texts := [questionText] + responses;
            var log := AngelDemonLog(questionText, responses);
            var at := Offset(AD_LAYOUT, texts, AD_ENTRY_POSITIONS[m]);
            Offset(AD_LAYOUT, texts, AD_ENTRY_POSITIONS[k]) < at
            && at + |texts[m]| <= |log| && log[at..at + |texts[m]|] == texts[m]
  {
    var texts := [questionText] + responses;
    LayoutFits(texts);
    EntryPositions(k, m);
    EntryVerbatim(AD_LAYOUT, texts, AD_ENTRY_POSITIONS[k], AD_ENTRY_POSITIONS[m]);
  }

  /** The persona table's declared call count is the call count of a run in which every call is answered. */
  lemma ConfigCallCount(templates: DebateTemplates, questionText: string, script: seq<Outcome>)
    requires |Answers(script, 7)| == 7
    ensures |AngelDemonRun(templates, questionText, script).requests| == ANGEL_DEMON_CONFIG.totalApiCallsPerQuestion
  {
    AngelDemonOutcome(templates, questionText, script);
  }

  /** The persona table's one final decision maker is the persona that speaks the final synthesis. */
  lemma FinalDecisionMakerSpeaksLast(templates: DebateTemplates, questionText: string, prior: seq<string>)
    requires |prior| == 6
    ensures var personas := ANGEL_DEMON_CONFIG.personas;
            var last := AngelDemonRequest(templates, questionText, prior);
            (forall p :: p in personas && p.finalDecisionMaker ==> p.systemPrompt == last.system)
            && (exists p :: p in personas && p.finalDecisionMaker)
  {
    assert ANGEL_DEMON_CONFIG.personas[0] in ANGEL_DEMON_CONFIG.personas;
  }

  /** `Keywords` at each call, written out as the call site writes its keyword arguments. */
  lemma {:induction false} KeywordsDisplay(questionText: string, done: seq<string>)
    requires |done| <= 6
    ensures |done| == 0 ==> Keywords(questionText, done) == map["question_text" := questionText]
    ensures |done| == 1 ==> (Keywords(questionText, done)
         == map["question_text" := questionText, "angel_response_1" := done[0]])
    ensures |done| == 2 ==> (Keywords(questionText, done)
         == map["question_text" := questionText, "angel_response_1" := done[0], "demon_response_1" := done[1]])
    ensures |done| == 3 ==> (Keywords(questionText, done)
         == map["question_text" := questionText, "angel_response_1" := done[0], "demon_response_1" := done[1],
                "angel_response_2" := done[2]])
    ensures |done| == 4 ==> (Keywords(questionText, done)
         == map["question_text" := questionText, "angel_response_1" := done[0], "demon_response_1" := done[1],
                "angel_response_2" := done[2], "demon_response_2" := done[3]])
    ensures |done| == 5 ==> (Keywords(questionText, done)
         == map["question_text" := questionText, "angel_response_1" := done[0], "demon_response_1" := done[1],
                "angel_response_2" := done[2], "demon_response_2" := done[3], "angel_response_3" := done[4]])
    ensures |done| == 6 ==> (Keywords(questionText, done)
         == map["question_text" := questionText, "angel_response_1" := done[0], "demon_response_1" := done[1],
                "angel_response_2" := done[2], "demon_response_2" := done[3], "angel_response_3" := done[4],
                "demon_response_3" := done[5]])
  {
    if done != [] {
      var k := |done| - 1;
      KeywordsDisplay(questionText, done[..k]);
    }
  }

  /** The Angel's opening: `ROUND_1_ANGEL` filled with the question. */
  lemma AngelRound1Request(templates: DebateTemplates, questionText: string, done: seq<string>)
    requires |done| == 0
    ensures var keywords := map["question_text" := questionText];
            Format(templates[0], keywords).Some?
            && AngelDemonRequest(templates, questionText, done)
               == Request(AngelSystemPrompt, Format(templates[0], keywords).value, TEMPERATURE, MAX_TOKENS)
  {
    KeywordsDisplay(questionText, done);
    FillingNeverFails(templates, questionText, done);
  }

  /** The Demon's first critique: `ROUND_1_DEMON` filled with the responses so far. */
  lemma DemonRound1Request(templates: DebateTemplates, questionText: string, done: seq<string>, a1: string)
    requires done == [a1]
    ensures var keywords := map["question_text" := questionText, "angel_response_1" := a1];
            Format(templates[1], keywords).Some?
            && AngelDemonRequest(templates, questionText, done)
               == Request(DemonSystemPrompt, Format(templates[1], keywords).value, TEMPERATURE, MAX_TOKENS)
  {
    KeywordsDisplay(questionText, done);
    FillingNeverFails(templates, questionText, done);
  }

  /** The Angel's defence: `ROUND_2_ANGEL` filled with the responses so far. */
  lemma AngelRound2Request(templates: DebateTemplates, questionText: string, done: seq<string>, a1: string, d1: string)
    requires done == [a1] + [d1]
    ensures var keywords := map[
                  "question_text" := questionText,
                  "angel_response_1" := a1,
                  "demon_response_1" := d1];
            Format(templates[2], keywords).Some?
            && AngelDemonRequest(templates, questionText, done)
               == Request(AngelSystemPrompt, Format(templates[2], keywords).value, TEMPERATURE, MAX_TOKENS)
  {
    KeywordsDisplay(questionText, done);
    FillingNeverFails(templates, questionText, done);
  }

  /** The Demon's deeper critique: `ROUND_2_DEMON` filled with the responses so far. */
  lemma DemonRound2Request(templates: DebateTemplates, questionText: string, done: seq<string>, a1: string, d1: string, a2: string)
    requires done == [a1] + [d1] + [a2]
    ensures var keywords := map[
                  "question_text" := questionText,
                  "angel_response_1" := a1,
                  "demon_response_1" := d1,
                  "angel_response_2" := a2];
            Format(templates[3], keywords).Some?
            && AngelDemonRequest(templates, questionText, done)
               == Request(DemonSystemPrompt, Format(templates[3], keywords).value, TEMPERATURE, MAX_TOKENS)
  {
    KeywordsDisplay(questionText, done);
    FillingNeverFails(templates, questionText, done);
  }

  /** The Angel's consolidation: `ROUND_3_ANGEL` filled with the responses so far. */
  lemma AngelRound3Request(templates: DebateTemplates, questionText: string, done: seq<string>, a1: string, d1: string, a2: string, d2: string)
    requires done == [a1] + [d1] + [a2] + [d2]
    ensures var keywords := map[
                  "question_text" := questionText,
                  "angel_response_1" := a1,
                  "demon_response_1" := d1,
                  "angel_response_2" := a2,
                  "demon_response_2" := d2];
            Format(templates[4], keywords).Some?
            && AngelDemonRequest(templates, questionText, done)
               == Request(AngelSystemPrompt, Format(templates[4], keywords).value, TEMPERATURE, MAX_TOKENS)
  {
    KeywordsDisplay(questionText, done);
    FillingNeverFails(templates, questionText, done);
  }

  /** The Demon's final challenge: `ROUND_3_DEMON` filled with the responses so far. */
  lemma DemonRound3Request(templates: DebateTemplates, questionText: string, done: seq<string>, a1: string, d1: string, a2: string, d2: string, a3: string)
    requires done == [a1] + [d1] + [a2] + [d2] + [a3]
    ensures var keywords := map[
                  "question_text" := questionText,
                  "angel_response_1" := a1,
                  "demon_response_1" := d1,
                  "angel_response_2" := a2,
                  "demon_response_2" := d2,
                  "angel_response_3" := a3];
            Format(templates[5], keywords).Some?
            && AngelDemonRequest(templates, questionText, done)
               == Request(DemonSystemPrompt, Format(templates[5], keywords).value, TEMPERATURE, MAX_TOKENS)
  {
    KeywordsDisplay(questionText, done);
    FillingNeverFails(templates, questionText, done);
  }

  /** The final synthesis: `FINAL_ANGEL_SYNTHESIS` filled with all six responses, limited to 100 tokens. */
  lemma FinalSynthesisRequest(templates: DebateTemplates, questionText: string, done: seq<string>, a1: string, d1: string, a2: string, d2: string, a3: string, d3: string)
    requires done == [a1] + [d1] + [a2] + [d2] + [a3] + [d3]
    ensures var keywords := map[
                  "question_text" := questionText,
                  "angel_response_1" := a1,
                  "demon_response_1" := d1,
                  "angel_response_2" := a2,
                  "demon_response_2" := d2,
                  "angel_response_3" := a3,
                  "demon_response_3" := d3];
            Format(templates[6], keywords).Some?
            && AngelDemonRequest(templates, questionText, done)
               == Request(AngelSystemPrompt, Format(templates[6], keywords).value, TEMPERATURE, 100)
  {
    KeywordsDisplay(questionText, done);
    FillingNeverFails(templates, questionText, done);
  }

  /** The finish of a run whose seven responses are the given ones. */
  lemma FinishOf(questionText: string, done: seq<string>, a1: string, d1: string, a2: string, d2: string,
                 a3: string, d3: string, final: string)
    requires done == [a1] + [d1] + [a2] + [d2] + [a3] + [d3] + [final]
    ensures AngelDemonFinish(questionText, done)
         == StrategyResult(ExtractFinalAnswer(Some(final)), AngelDemonLog(questionText, [a1, d1, a2, d2, a3, d3, final]))
  {
    assert done == [a1, d1, a2, d2, a3, d3, final];
  }

  /** A run whose seven calls were all answered ends with the answer parsed from the synthesis and the log. */
  lemma AngelDemonFinishes(templates: DebateTemplates, questionText: string, start: Gauge, now: Gauge, done: seq<string>,
                           a1: string, d1: string, a2: string, d2: string, a3: string, d3: string, final: string)
    requires done == [a1] + [d1] + [a2] + [d2] + [a3] + [d3] + [final]
    requires Progressed(start, now, AngelDemonTable(templates, questionText), 7, done)
    ensures Ended(templates, questionText, start, now,
                  StrategyResult(ExtractFinalAnswer(Some(final)), AngelDemonLog(questionText, [a1, d1, a2, d2, a3, d3, final])))
  {
    Finished(start, now, AngelDemonTable(templates, questionText), 7, AD_FAILURES, AngelDemonFinisher(questionText), done);
    FinishOf(questionText, done, a1, d1, a2, d2, a3, d3, final);
  }

  class AngelDemonStrategy {
    const evaluator: DebateEvaluator
    /** The round templates in call order, as imported from the configuration. */
    const templates: DebateTemplates

    constructor(evaluator: DebateEvaluator)
      ensures this.evaluator == evaluator && templates == AD_TEMPLATES
    {
      this.evaluator := evaluator;
      ConfigTemplatesShaped();
      templates := AD_TEMPLATES;
    }

    /**
     * `_call_persona`: `MAX_TOKENS` unless a limit is given. The ghost parameters
     * place the call in a run that began in `start` and has collected `done`; the
     * request it sends must be the debate's next request.
     */
    method CallPersona(systemPrompt: SystemPrompt, userContent: string, personaName: string,
                       ghost questionText: string, ghost start: Gauge, ghost done: seq<string>,
                       maxTokens: Option<nat> := None)
      returns (response: Option<string>)
      modifies evaluator
      requires |done| < 7 && Progressed(start, evaluator.Snapshot(), AngelDemonTable(templates, questionText), 7, done)
      requires AngelDemonRequest(templates, questionText, done)
            == Request(systemPrompt, userContent, TEMPERATURE, if maxTokens.None? then MAX_TOKENS else maxTokens.value)
      ensures response == Nth(start.script, |done|)
      ensures Answered(response) ==>
                Progressed(start, evaluator.Snapshot(), AngelDemonTable(templates, questionText), 7, done + [response.value])
      ensures !Answered(response) ==>
                Ended(templates, questionText, start, evaluator.Snapshot(), StrategyResult(None, AD_FAILURES[|done|]))
    {
      ghost var before := evaluator.Snapshot();
      var limit := if maxTokens.None? then MAX_TOKENS else maxTokens.value;
      response := evaluator.CallModel(systemPrompt, userContent, TEMPERATURE, limit);
      Advance(start.script, |done|);
      if Answered(response) {
        StepAnswered(start, before, evaluator.Snapshot(), AngelDemonTable(templates, questionText), 7, done, response);
      } else {
        StepFails(start, before, evaluator.Snapshot(), AngelDemonTable(templates, questionText), 7, done, response);
        AngelDemonStops(templates, questionText, start, evaluator.Snapshot(), done);
      }
    }

    /** `_generate_debate_log`: the sections appended one by one, then joined with newlines. */
    method GenerateDebateLog(questionText: string, angelResponse1: string, demonResponse1: string,
                             angelResponse2: string, demonResponse2: string, angelResponse3: string,
                             demonResponse3: string, finalResponse: string)
      returns (log: string)
      ensures log == AngelDemonLog(questionText, [angelResponse1, demonResponse1, angelResponse2, demonResponse2,
                                                  angelResponse3, demonResponse3, finalResponse])
    {
      var sections: seq<string> := [];

      sections := sections + ["ORIGINAL QUESTION:"];
      sections := sections + [questionText];

      sections := sections + ["\nROUND 1: INITIAL POSITIONS"];
      sections := sections + ["\nANGEL (Initial Analysis):"];
      sections := sections + [angelResponse1];

      sections := sections + ["\nDEMON (First Critique):"];
      sections := sections + [demonResponse1];

      sections := sections + ["\nROUND 2: DEFENSE & COUNTER"];
      sections := sections + ["\nANGEL (Defense):"];
      sections := sections + [angelResponse2];

      sections := sections + ["\nDEMON (Deeper Critique):"];
      sections := sections + [demonResponse2];

      sections := sections + ["\nROUND 3: FINAL ARGUMENTS"];
      sections := sections + ["\nANGEL (Consolidation):"];
      sections := sections + [angelResponse3];

      sections := sections + ["\nDEMON (Final Challenge):"];
      sections := sections + [demonResponse3];

      sections := sections + ["\nFINAL SYNTHESIS"];
      sections := sections + ["\nANGEL (Final Decision):"];
      sections := sections + [finalResponse];

      LogSections(questionText, [angelResponse1, demonResponse1, angelResponse2, demonResponse2,
                                 angelResponse3, demonResponse3, finalResponse], sections);
      return Join("\n", sections);
    }

    /** `debate_and_decide`. */
    method DebateAndDecide(question: QuestionRecord) returns (result: StrategyResult)
      modifies evaluator
      ensures Ended(templates, QuestionText(question), old(evaluator.Snapshot()), evaluator.Snapshot(), result)
    {
      ghost var start := evaluator.Snapshot();
      var questionText := evaluator.FormatQuestion(question);
      var category := question.category.GetOr("general");
      ProgressedAtStart(start, AngelDemonTable(templates, questionText), 7);
      ghost var done: seq<string> := [];

      // Round 1: Angel
      AngelRound1Request(templates, questionText, done);
      var angelRound1Prompt := Format(templates[0], map["question_text" := questionText]).value;
      var angelResponse1 := CallPersona(AngelSystemPrompt, angelRound1Prompt, "angel_round1",
                                        questionText, start, done);
      if !Answered(angelResponse1) {
        return StrategyResult(None, "Angel Round 1 failed");
      }
      done := done + [angelResponse1.value];

      // Round 1: Demon
      DemonRound1Request(templates, questionText, done, angelResponse1.value);
      var demonRound1Prompt := Format(templates[1], map[
        "question_text" := questionText,
        "angel_response_1" := angelResponse1.value]).value;
      var demonResponse1 := CallPersona(DemonSystemPrompt, demonRound1Prompt, "demon_round1",
                                        questionText, start, done);
      if !Answered(demonResponse1) {
        return StrategyResult(None, "Demon Round 1 failed");
      }
      done := done + [demonResponse1.value];

      // Round 2: Angel
      AngelRound2Request(templates, questionText, done, angelResponse1.value, demonResponse1.value);
      var angelRound2Prompt := Format(templates[2], map[
        "question_text" := questionText,
        "angel_response_1" := angelResponse1.value,
        "demon_response_1" := demonResponse1.value]).value;
      var angelResponse2 := CallPersona(AngelSystemPrompt, angelRound2Prompt, "angel_round2",
                                        questionText, start, done);
      if !Answered(angelResponse2) {
        return StrategyResult(None, "Angel Round 2 failed");
      }
      done := done + [angelResponse2.value];

      // Round 2: Demon
      DemonRound2Request(templates, questionText, done, angelResponse1.value, demonResponse1.value, angelResponse2.value);
      var demonRound2Prompt := Format(templates[3], map[
        "question_text" := questionText,
        "angel_response_1" := angelResponse1.value,
        "demon_response_1" := demonResponse1.value,
        "angel_response_2" := angelResponse2.value]).value;
      var demonResponse2 := CallPersona(DemonSystemPrompt, demonRound2Prompt, "demon_round2",
                                        questionText, start, done);
      if !Answered(demonResponse2) {
        return StrategyResult(None, "Demon Round 2 failed");
      }
      done := done + [demonResponse2.value];

      // Round 3: Angel
      AngelRound3Request(templates, questionText, done, angelResponse1.value, demonResponse1.value, angelResponse2.value, demonResponse2.value);
      var angelRound3Prompt := Format(templates[4], map[
        "question_text" := questionText,
        "angel_response_1" := angelResponse1.value,
        "demon_response_1" := demonResponse1.value,
        "angel_response_2" := angelResponse2.value,
        "demon_response_2" := demonResponse2.value]).value;
      var angelResponse3 := CallPersona(AngelSystemPrompt, angelRound3Prompt, "angel_round3",
                                        questionText, start, done);
      if !Answered(angelResponse3) {
        return StrategyResult(None, "Angel Round 3 failed");
      }
      done := done + [angelResponse3.value];

      // Round 3: Demon
      DemonRound3Request(templates, questionText, done, angelResponse1.value, demonResponse1.value, angelResponse2.value, demonResponse2.value, angelResponse3.value);
      var demonRound3Prompt := Format(templates[5], map[
        "question_text" := questionText,
        "angel_response_1" := angelResponse1.value,
        "demon_response_1" := demonResponse1.value,
        "angel_response_2" := angelResponse2.value,
        "demon_response_2" := demonResponse2.value,
        "angel_response_3" := angelResponse3.value]).value;
      var demonResponse3 := CallPersona(DemonSystemPrompt, demonRound3Prompt, "demon_round3",
                                        questionText, start, done);
      if !Answered(demonResponse3) {
        return StrategyResult(None, "Demon Round 3 failed");
      }
      done := done + [demonResponse3.value];

      // Final synthesis
      FinalSynthesisRequest(templates, questionText, done, angelResponse1.value, demonResponse1.value, angelResponse2.value, demonResponse2.value, angelResponse3.value, demonResponse3.value);
      var finalPrompt := Format(templates[6], map[
        "question_text" := questionText,
        "angel_response_1" := angelResponse1.value,
        "demon_response_1" := demonResponse1.value,
        "angel_response_2" := angelResponse2.value,
        "demon_response_2" := demonResponse2.value,
        "angel_response_3" := angelResponse3.value,
        "demon_response_3" := demonResponse3.value]).value;
      var finalResponse := CallPersona(AngelSystemPrompt, finalPrompt, "angel_final",
                                       questionText, start, done, Some(100));
      if !Answered(finalResponse) {
        return StrategyResult(None, "Final synthesis failed");
      }
      done := done + [finalResponse.value];
      AngelDemonFinishes(templates, questionText, start, evaluator.Snapshot(), done, angelResponse1.value,
                         demonResponse1.value, angelResponse2.value, demonResponse2.value, angelResponse3.value,
                         demonResponse3.value, finalResponse.value);

      var finalAnswer := ExtractFinalAnswer(finalResponse);
      var debateLog := GenerateDebateLog(questionText, angelResponse1.value, demonResponse1.value,
                                         angelResponse2.value, demonResponse2.value, angelResponse3.value,
                                         demonResponse3.value, finalResponse.value);
      return StrategyResult(finalAnswer, debateLog);
    }
  }
}
