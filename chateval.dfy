/**
 * `chateval.py`: three judges answer independently, then each re-evaluates after
 * reading the other two judges' first answers, then a moderator synthesises all six.
 * Call `j` (from 0) is judge `j + 1`'s first answer for `j < 3`, judge `j - 2`'s
 * revision for `3 <= j < 6`, and the moderator's synthesis for `j == 6`; only the
 * synthesis is parsed.
 */
module ChatEval {
  import opened Wrappers
  import opened Text
  import opened Config
  import opened Questions
  import opened AnswerExtractor
  import opened Templates
  import opened ChatEvalConfig
  import opened DebateLogs
  import opened Protocol
  import opened Gateway

  /** The judges of the panel. */
  const JUDGES: nat := 3

  /** `ROUND_1_JUDGE_TEMPLATE`, `ROUND_2_JUDGE_TEMPLATE`, `MODERATOR_TEMPLATE`. */
  const PANEL_TEMPLATES: seq<Template> := [ROUND_1_JUDGE_TEMPLATE, ROUND_2_JUDGE_TEMPLATE, MODERATOR_TEMPLATE]

  /** The placeholders of a round-2 judge's template: its own first answer and two peer answers. */
  const REVISION_SLOTS: set<string> := {"my_round1_response", "judge2_round1_response", "judge3_round1_response"}

  /** The placeholders of the moderator's template: the question and the six judge answers. */
  const SYNTHESIS_SLOTS: set<string> := {"question_text", "judge1_round1_response", "judge2_round1_response",
    "judge3_round1_response", "judge1_round2_response", "judge2_round2_response", "judge3_round2_response"}

  /** A table of the round-1, round-2 and moderator templates with the panel's placeholders. */
  ghost predicate PanelShaped(templates: seq<Template>)
  {
    |templates| == 3
    && Slots(templates[0]) == {"question_text"}
    && Slots(templates[1]) == REVISION_SLOTS
    && Slots(templates[2]) == SYNTHESIS_SLOTS
  }

  /** The configured templates have the panel's placeholders. */
  lemma ConfigPanelShaped()
    ensures PanelShaped(PANEL_TEMPLATES)
  {
    Round1JudgeSlots();
    Round2JudgeSlots();
    ModeratorSlots();
  }

  /** Template tables with the panel's placeholders; the configured table is one. */
  type PanelTemplates = t: seq<Template> | PanelShaped(t) ghost witness ConfiguredPanel()

  /** The configured table, known to have the panel's placeholders. */
  ghost function ConfiguredPanel(): (t: seq<Template>)
    ensures PanelShaped(t)
  {
    ConfigPanelShaped();
    PANEL_TEMPLATES
  }

  const CE_FAILURES: seq<string> := [
    "Judge 1 Round 1 failed", "Judge 2 Round 1 failed", "Judge 3 Round 1 failed",
    "Judge 1 Round 2 failed", "Judge 2 Round 2 failed", "Judge 3 Round 2 failed",
    "Moderator synthesis failed"]

  /** `_generate_debate_log`'s sections; entry 0 is the question, entry `k` the `k`-th response. */
  const CE_LAYOUT: seq<Section> := [
    Heading("ORIGINAL QUESTION:"), Entry(0),
    Heading("\nROUND 1: INDEPENDENT EVALUATIONS"),
    Heading("\nJUDGE 1 (Initial):"), Entry(1),
    Heading("\nJUDGE 2 (Initial):"), Entry(2),
    Heading("\nJUDGE 3 (Initial):"), Entry(3),
    Heading("\nROUND 2: RE-EVALUATION AFTER EXCHANGE"),
    Heading("\nJUDGE 1 (Revised):"), Entry(4),
    Heading("\nJUDGE 2 (Revised):"), Entry(5),
    Heading("\nJUDGE 3 (Revised):"), Entry(6),
    Heading("\nFINAL SYNTHESIS"),
    Heading("\nMODERATOR (Final Decision):"), Entry(7)]

  /** Where entry `k` sits in the layout. */
  const CE_ENTRY_POSITIONS: seq<nat> := [1, 4, 6, 8, 11, 13, 15, 18]

  /** The judges other than judge `i` (from 0), in panel order. */
  function Others(i: nat, n: nat): (peers: seq<nat>)
    requires i < n
    ensures |peers| == n - 1
  {
    seq(n - 1, k requires 0 <= k < n - 1 => if k < i then k else k + 1)
  }

  /** The peers of judge `i` are exactly the other judges, each once, in increasing order. */
  lemma OthersArePeers(i: nat, n: nat)
    requires i < n
    ensures forall k: nat :: k in Others(i, n) <==> k < n && k != i
    ensures forall a, b :: 0 <= a < b < n - 1 ==> Others(i, n)[a] < Others(i, n)[b]
  {
    var peers := Others(i, n);
    forall k: nat | k < n && k != i
      ensures k in peers
    {
      if k < i {
        assert peers[k] == k;
      } else {
        assert peers[k - 1] == k;
      }
    }
  }

  /**
   * The keywords a round-2 judge passes: the question (no field takes it), the judge's
   * own first answer, then its two peers' first answers in panel order, under the
   * template's `judge2_`/`judge3_` names whichever judges they are.
   */
  function RevisionKeywords(questionText: string, round1: seq<string>, i: nat): map<string, string>
    requires |round1| == JUDGES && i < JUDGES
  {
    var peers := Others(i, JUDGES);
    map["question_text" := questionText,
        "my_round1_response" := round1[i],
        "judge2_round1_response" := round1[peers[0]],
        "judge3_round1_response" := round1[peers[1]]]
  }

  /** The keywords the moderator passes: the question and the six judge answers by judge and round. */
  function SynthesisKeywords(questionText: string, responses: seq<string>): map<string, string>
    requires |responses| == 6
  {
    map["question_text" := questionText,
        "judge1_round1_response" := responses[0],
        "judge2_round1_response" := responses[1],
        "judge3_round1_response" := responses[2],
        "judge1_round2_response" := responses[3],
        "judge2_round2_response" := responses[4],
        "judge3_round2_response" := responses[5]]
  }

  /** The keywords of call `|prior|`. */
  function PanelKeywords(questionText: string, prior: seq<string>): map<string, string>
    requires |prior| < 7
  {
    if |prior| < 3 then map["question_text" := questionText]
    else if |prior| < 6 then RevisionKeywords(questionText, prior[..3], |prior| - 3)
    else SynthesisKeywords(questionText, prior)
  }

  /** The template of call `j`. */
  function PanelTemplate(templates: PanelTemplates, j: nat): Template
  {
    if j < 3 then templates[0] else if j < 6 then templates[1] else templates[2]
  }

  /** Every template's placeholders are among the keywords of its call, so no call raises `KeyError`. */
  lemma PanelFillingNeverFails(templates: PanelTemplates, questionText: string, prior: seq<string>)
    requires |prior| < 7
    ensures Format(PanelTemplate(templates, |prior|), PanelKeywords(questionText, prior)).Some?
  {
    var t := PanelTemplate(templates, |prior|);
    var keywords := PanelKeywords(questionText, prior);
    assert Slots(t) <= keywords.Keys;
    FormatSucceeds(t, keywords);
  }

  /** Call `|prior|`: the judges on their templates, then the moderator limited to 200 tokens. */
  function ChatEvalRequest(templates: PanelTemplates, questionText: string, prior: seq<string>): Request
    requires |prior| < 7
  {
    PanelFillingNeverFails(templates, questionText, prior);
    var j := |prior|;
    Request(if j < 6 then JudgeSystemPrompt else ModeratorSystemPrompt,
            Format(PanelTemplate(templates, j), PanelKeywords(questionText, prior)).value,
            TEMPERATURE,
            if j < 6 then MAX_TOKENS else 200)
  }

  /** The request table of the pipeline; a pipeline never makes a call past its last, so such calls reuse the last request. */
  function ChatEvalTable(templates: PanelTemplates, questionText: string): seq<string> -> Request
  {
    prior => if |prior| < 7 then ChatEvalRequest(templates, questionText, prior)
             else ChatEvalRequest(templates, questionText, prior[..6])
  }

  /** The texts of the log: the question, then the seven responses. */
  function ChatEvalLog(questionText: string, responses: seq<string>): string
    requires |responses| == 7
  {
    Log(CE_LAYOUT, [questionText] + responses)
  }

  function ChatEvalFinish(questionText: string, responses: seq<string>): StrategyResult
    requires |responses| == 7
  {
    StrategyResult(ExtractFinalAnswer(Some(responses[6])), ChatEvalLog(questionText, responses))
  }

  function ChatEvalFinisher(questionText: string): seq<string> --> StrategyResult
  {
    responses requires |responses| == 7 => ChatEvalFinish(questionText, responses)
  }

  /** What `debate_and_decide` does for a question text and a script. */
  function ChatEvalRun(templates: PanelTemplates, questionText: string, script: seq<Outcome>): (r: Run)
    ensures 1 <= |r.requests| <= 7
  {
    PipelineRun(7, ChatEvalTable(templates, questionText), CE_FAILURES, ChatEvalFinisher(questionText), script)
  }

  /**
   * A run that began in `start` is over in `now` with `result`: the result is the
   * run's, and exactly the run's requests went out.
   */
  ghost predicate PanelEnded(templates: PanelTemplates, questionText: string, start: Gauge, now: Gauge, result: StrategyResult)
  {
    var run := ChatEvalRun(templates, questionText, start.script);
    result == run.result && SentFrom(start, now, run.requests)
  }

  /** A run stopped at call `k` ends with call `k`'s failure message, having sent the run's requests. */
  lemma ChatEvalStops(templates: PanelTemplates, questionText: string, start: Gauge, now: Gauge, done: seq<string>)
    requires Stopped(start, now, ChatEvalTable(templates, questionText), 7, done)
    ensures PanelEnded(templates, questionText, start, now, StrategyResult(None, CE_FAILURES[|done|]))
  {
    StoppedRun(start, now, ChatEvalTable(templates, questionText), 7, CE_FAILURES, ChatEvalFinisher(questionText), done);
  }

  /**
   * Seven calls when every call is answered, with the answer parsed from the
   * moderator's synthesis alone; otherwise the first falsy call `k` ends the run
   * after `k + 1` calls with that call's own failure message.
   */
  lemma ChatEvalOutcome(templates: PanelTemplates, questionText: string, script: seq<Outcome>)
    ensures var r := ChatEvalRun(templates, questionText, script);
            var rs := Answers(script, 7);
            (|rs| == 7 ==> |r.requests| == 7 && r.result.finalAnswer == ExtractFinalAnswer(Nth(script, 6)))
            && (|rs| < 7 ==> |r.requests| == |rs| + 1 && r.result == StrategyResult(None, CE_FAILURES[|rs|]))
  {
    PipelineResult(7, ChatEvalTable(templates, questionText), CE_FAILURES, ChatEvalFinisher(questionText), script);
  }

  /** Only the moderator is parsed: runs that agree on its synthesis agree on the answer, whatever the judges said. */
  lemma AnswerFromModerator(templates: PanelTemplates, questionText: string, script1: seq<Outcome>, script2: seq<Outcome>)
    requires |Answers(script1, 7)| == 7 && |Answers(script2, 7)| == 7
    requires Nth(script1, 6) == Nth(script2, 6)
    ensures ChatEvalRun(templates, questionText, script1).result.finalAnswer
         == ChatEvalRun(templates, questionText, script2).result.finalAnswer
  {
    ChatEvalOutcome(templates, questionText, script1);
    ChatEvalOutcome(templates, questionText, script2);
  }

  /** The six judge calls use the judge prompt and `MAX_TOKENS`; the seventh is the moderator's, limited to 200 tokens. */
  lemma PanelSpeakers(templates: PanelTemplates, questionText: string, prior: seq<string>)
    requires |prior| < 7
    ensures var r := ChatEvalRequest(templates, questionText, prior);
            (r.system == JudgeSystemPrompt <==> |prior| < 6)
            && (r.system == ModeratorSystemPrompt <==> |prior| == 6)
            && (r.maxTokens == 200 <==> |prior| == 6)
            && (|prior| < 6 ==> r.maxTokens == MAX_TOKENS)
            && r.temperature == TEMPERATURE
  {
  }

  /** Round 1 is independent: the three judges get the same prompt, whatever was answered before. */
  lemma Round1Independent(templates: PanelTemplates, questionText: string, prior1: seq<string>, prior2: seq<string>)
    requires |prior1| < 3 && |prior2| < 3
    ensures ChatEvalRequest(templates, questionText, prior1) == ChatEvalRequest(templates, questionText, prior2)
  {
  }

  /** Round 2 sees only round 1: a judge's revision prompt does not depend on the revisions before it. */
  lemma RevisionSeesOnlyRound1(templates: PanelTemplates, questionText: string, prior: seq<string>, other: seq<string>)
    requires 3 <= |prior| < 6 && |other| == |prior| && other[..3] == prior[..3]
    ensures ChatEvalRequest(templates, questionText, prior) == ChatEvalRequest(templates, questionText, other)
  {
  }

  /** A round-2 judge is not shown the question: its template has no `question_text` placeholder. */
  lemma RevisionIgnoresQuestion(templates: PanelTemplates, question1: string, question2: string, prior: seq<string>)
    requires 3 <= |prior| < 6
    ensures ChatEvalRequest(templates, question1, prior) == ChatEvalRequest(templates, question2, prior)
  {
    var i := |prior| - 3;
    var k1, k2 := RevisionKeywords(question1, prior[..3], i), RevisionKeywords(question2, prior[..3], i);
    assert "question_text" !in REVISION_SLOTS;
    FormatSeesOnlySlots(templates[1], k1, k2);
  }

  /** Each round-2 judge sees all three first answers verbatim: its own and both peers'. */
  lemma RevisionSeesRound1(templates: PanelTemplates, questionText: string, prior: seq<string>, k: nat)
    requires 3 <= |prior| < 6 && k < 3
    ensures Contains(ChatEvalRequest(templates, questionText, prior).user, prior[k])
  {
    var i := |prior| - 3;
    var round1 := prior[..3];
    var keywords := RevisionKeywords(questionText, round1, i);
    OthersArePeers(i, JUDGES);
    var peers := Others(i, JUDGES);
    var name :=
      if k == i then "my_round1_response"
      else if k == peers[0] then "judge2_round1_response"
      else "judge3_round1_response";
    assert k != i && k != peers[0] ==> k == peers[1] by {
      if k != i && k != peers[0] {
        assert k in peers;
      }
    }
    assert keywords[name] == prior[k];
    FormatContainsSlotValue(templates[1], keywords, name);
  }

  /** The moderator sees the question and all six judge answers verbatim. */
  lemma ModeratorSeesAll(templates: PanelTemplates, questionText: string, prior: seq<string>, k: nat)
    requires |prior| == 6 && k < 6
    ensures var user := ChatEvalRequest(templates, questionText, prior).user;
            Contains(user, questionText) && Contains(user, prior[k])
  {
    var keywords := SynthesisKeywords(questionText, prior);
    var names := ["judge1_round1_response", "judge2_round1_response", "judge3_round1_response",
                  "judge1_round2_response", "judge2_round2_response", "judge3_round2_response"];
    assert keywords[names[k]] == prior[k];
    FormatContainsSlotValue(templates[2], keywords, "question_text");
    FormatContainsSlotValue(templates[2], keywords, names[k]);
  }

  /** The log, section by section: each heading followed by its text. */
  lemma PanelLogSections(questionText: string, responses: seq<string>, sections: seq<string>)
    requires |responses| == 7
    requires sections == [
      "ORIGINAL QUESTION:", questionText,
      "\nROUND 1: INDEPENDENT EVALUATIONS",
      "\nJUDGE 1 (Initial):", responses[0],
      "\nJUDGE 2 (Initial):", responses[1],
      "\nJUDGE 3 (Initial):", responses[2],
      "\nROUND 2: RE-EVALUATION AFTER EXCHANGE",
      "\nJUDGE 1 (Revised):", responses[3],
      "\nJUDGE 2 (Revised):", responses[4],
      "\nJUDGE 3 (Revised):", responses[5],
      "\nFINAL SYNTHESIS",
      "\nMODERATOR (Final Decision):", responses[6]]
    ensures ChatEvalLog(questionText, responses) == Join("\n", sections)
  {
    var texts := [questionText] + responses;
    assert Fits(CE_LAYOUT, texts);
    assert Render(CE_LAYOUT, texts) == [
      "ORIGINAL QUESTION:", texts[0],
      "\nROUND 1: INDEPENDENT EVALUATIONS",
      "\nJUDGE 1 (Initial):", texts[1],
      "\nJUDGE 2 (Initial):", texts[2],
      "\nJUDGE 3 (Initial):", texts[3],
      "\nROUND 2: RE-EVALUATION AFTER EXCHANGE",
      "\nJUDGE 1 (Revised):", texts[4],
      "\nJUDGE 2 (Revised):", texts[5],
      "\nJUDGE 3 (Revised):", texts[6],
      "\nFINAL SYNTHESIS",
      "\nMODERATOR (Final Decision):", texts[7]];
  }

  /** The layout's entries name the eight texts. */
  lemma PanelLayoutFits(texts: seq<string>)
    requires |texts| == 8
    ensures Fits(CE_LAYOUT, texts)
  {
  }

  /** Entry `m` of the layout sits at position `CE_ENTRY_POSITIONS[m]`, and the positions increase. */
  lemma PanelEntryPositions(k: nat, m: nat)
    requires k < m < 8
    ensures CE_ENTRY_POSITIONS[k] < CE_ENTRY_POSITIONS[m] < 19 == |CE_LAYOUT|
    ensures CE_LAYOUT[CE_ENTRY_POSITIONS[m]] == Entry(m)
  {
  }

  /** The log holds the question and the seven responses verbatim, in the order they were produced. */
  lemma PanelLogInOrder(questionText: string, responses: seq<string>, k: nat, m: nat)
    requires |responses| == 7 && k < m < 8
    ensures var texts := [questionText] + responses;
            var log := ChatEvalLog(questionText, responses);
            var at := Offset(CE_LAYOUT, texts, CE_ENTRY_POSITIONS[m]);
            Offset(CE_LAYOUT, texts, CE_ENTRY_POSITIONS[k]) < at
            && at + |texts[m]| <= |log| && log[at..at + |texts[m]|] == texts[m]
  {
    var texts := [questionText] + responses;
    PanelLayoutFits(texts);
    PanelEntryPositions(k, m);
    EntryVerbatim(CE_LAYOUT, texts, CE_ENTRY_POSITIONS[k], CE_ENTRY_POSITIONS[m]);
  }

  /** The panel table's declared call count is the call count of a run in which every call is answered. */
  lemma PanelCallCount(templates: PanelTemplates, questionText: string, script: seq<Outcome>)
    requires |Answers(script, 7)| == 7
    ensures |ChatEvalRun(templates, questionText, script).requests| == CHATEVAL_CONFIG.totalApiCallsPerQuestion
  {
    ChatEvalOutcome(templates, questionText, script);
  }

  /**
   * The panel table agrees with the strategy: three judges, each taking part in both
   * rounds, plus one final call, make the declared seven calls.
   */
  lemma PanelConfigAgrees(k: nat)
    requires k < CHATEVAL_CONFIG.numJudges
    ensures var c := CHATEVAL_CONFIG;
            c.totalApiCallsPerQuestion == c.numJudges * c.rounds + 1
            && c.numJudges == JUDGES && c.judges[k].systemPrompt == JudgeSystemPrompt
            && c.judges[k].participatesInRounds == [Numbered(1), Numbered(2)]
  {
  }

  /** The panel table's last entry, the moderator, speaks the final call with its own system prompt. */
  lemma ModeratorSpeaksLast(templates: PanelTemplates, questionText: string, prior: seq<string>)
    requires |prior| == 6
    ensures var judges := CHATEVAL_CONFIG.judges;
            var last := judges[|judges| - 1];
            last.participatesInRounds == [FinalRound]
            && last.systemPrompt == ChatEvalRequest(templates, questionText, prior).system
  {
  }

  /** Every round-1 judge: `ROUND_1_JUDGE_TEMPLATE` filled with the question. */
  lemma Round1Request(templates: PanelTemplates, questionText: string, done: seq<string>)
    requires |done| < 3
    ensures var keywords := map["question_text" := questionText];
            Format(templates[0], keywords).Some?
            && ChatEvalRequest(templates, questionText, done)
               == Request(JudgeSystemPrompt, Format(templates[0], keywords).value, TEMPERATURE, MAX_TOKENS)
  {
    PanelFillingNeverFails(templates, questionText, done);
  }

  /** Judge 1's revision: its own answer, then judge 2's and judge 3's. */
  lemma Judge1Round2Request(templates: PanelTemplates, questionText: string, done: seq<string>,
                            j1: string, j2: string, j3: string)
    requires done == [j1] + [j2] + [j3]
    ensures var keywords := map[
                  "question_text" := questionText,
                  "my_round1_response" := j1,
                  "judge2_round1_response" := j2,
                  "judge3_round1_response" := j3];
            Format(templates[1], keywords).Some?
            && ChatEvalRequest(templates, questionText, done)
               == Request(JudgeSystemPrompt, Format(templates[1], keywords).value, TEMPERATURE, MAX_TOKENS)
  {
    PanelFillingNeverFails(templates, questionText, done);
    assert Others(0, JUDGES) == [1, 2];
  }

  /** Judge 2's revision: its own answer, then judge 1's (under `judge2_round1_response`) and judge 3's. */
  lemma Judge2Round2Request(templates: PanelTemplates, questionText: string, done: seq<string>,
                            j1: string, j2: string, j3: string, r1: string)
    requires done == [j1] + [j2] + [j3] + [r1]
    ensures var keywords := map[
                  "question_text" := questionText,
                  "my_round1_response" := j2,
                  "judge2_round1_response" := j1,
                  "judge3_round1_response" := j3];
            Format(templates[1], keywords).Some?
            && ChatEvalRequest(templates, questionText, done)
               == Request(JudgeSystemPrompt, Format(templates[1], keywords).value, TEMPERATURE, MAX_TOKENS)
  {
    PanelFillingNeverFails(templates, questionText, done);
    assert Others(1, JUDGES) == [0, 2];
  }

  /** Judge 3's revision: its own answer, then judge 1's and judge 2's (under the `judge2_`/`judge3_` names). */
  lemma Judge3Round2Request(templates: PanelTemplates, questionText: string, done: seq<string>,
                            j1: string, j2: string, j3: string, r1: string, r2: string)
    requires done == [j1] + [j2] + [j3] + [r1] + [r2]
    ensures var keywords := map[
                  "question_text" := questionText,
                  "my_round1_response" := j3,
                  "judge2_round1_response" := j1,
                  "judge3_round1_response" := j2];
            Format(templates[1], keywords).Some?
            && ChatEvalRequest(templates, questionText, done)
               == Request(JudgeSystemPrompt, Format(templates[1], keywords).value, TEMPERATURE, MAX_TOKENS)
  {
    PanelFillingNeverFails(templates, questionText, done);
    assert Others(2, JUDGES) == [0, 1];
  }

  /** The moderator: `MODERATOR_TEMPLATE` filled with the question and the six answers, limited to 200 tokens. */
  lemma ModeratorRequest(templates: PanelTemplates, questionText: string, done: seq<string>,
                         j1: string, j2: string, j3: string, r1: string, r2: string, r3: string)
    requires done == [j1] + [j2] + [j3] + [r1] + [r2] + [r3]
    ensures var keywords := map[
                  "question_text" := questionText,
                  "judge1_round1_response" := j1,
                  "judge2_round1_response" := j2,
                  "judge3_round1_response" := j3,
                  "judge1_round2_response" := r1,
                  "judge2_round2_response" := r2,
                  "judge3_round2_response" := r3];
            Format(templates[2], keywords).Some?
            && ChatEvalRequest(templates, questionText, done)
               == Request(ModeratorSystemPrompt, Format(templates[2], keywords).value, TEMPERATURE, 200)
  {
    PanelFillingNeverFails(templates, questionText, done);
  }

  /** The finishing step on the seven answers, named one by one. */
  lemma PanelFinishOf(questionText: string, done: seq<string>, j1: string, j2: string, j3: string,
                      r1: string, r2: string, r3: string, final: string)
    requires done == [j1] + [j2] + [j3] + [r1] + [r2] + [r3] + [final]
    ensures ChatEvalFinish(questionText, done)
         == StrategyResult(ExtractFinalAnswer(Some(final)), ChatEvalLog(questionText, [j1, j2, j3, r1, r2, r3, final]))
  {
    assert done == [j1, j2, j3, r1, r2, r3, final];
  }

  /** A run whose seven calls were all answered ends with the answer parsed from the synthesis and the log. */
  lemma ChatEvalFinishes(templates: PanelTemplates, questionText: string, start: Gauge, now: Gauge, done: seq<string>,
                         j1: string, j2: string, j3: string, r1: string, r2: string, r3: string, final: string)
    requires done == [j1] + [j2] + [j3] + [r1] + [r2] + [r3] + [final]
    requires Progressed(start, now, ChatEvalTable(templates, questionText), 7, done)
    ensures PanelEnded(templates, questionText, start, now,
                       StrategyResult(ExtractFinalAnswer(Some(final)), ChatEvalLog(questionText, [j1, j2, j3, r1, r2, r3, final])))
  {
    Finished(start, now, ChatEvalTable(templates, questionText), 7, CE_FAILURES, ChatEvalFinisher(questionText), done);
    PanelFinishOf(questionText, done, j1, j2, j3, r1, r2, r3, final);
  }

  class ChatEvalStrategy {
    const evaluator: DebateEvaluator
    /** The round-1, round-2 and moderator templates, as imported from the configuration. */
    const templates: PanelTemplates

    constructor(evaluator: DebateEvaluator)
      ensures this.evaluator == evaluator && templates == PANEL_TEMPLATES
    {
      this.evaluator := evaluator;
      ConfigPanelShaped();
      templates := PANEL_TEMPLATES;
    }

    /**
     * `_call_judge`: `MAX_TOKENS` unless a limit is given. The ghost parameters place
     * the call in a run that began in `start` and has collected `done`; the request it
     * sends must be the panel's next request.
     */
    method CallJudge(systemPrompt: SystemPrompt, userContent: string, judgeName: string,
                     ghost questionText: string, ghost start: Gauge, ghost done: seq<string>,
                     maxTokens: Option<nat> := None)
      returns (response: Option<string>)
      modifies evaluator
      requires |done| < 7 && Progressed(start, evaluator.Snapshot(), ChatEvalTable(templates, questionText), 7, done)
      requires ChatEvalRequest(templates, questionText, done)
            == Request(systemPrompt, userContent, TEMPERATURE, if maxTokens.None? then MAX_TOKENS else maxTokens.value)
      ensures response == Nth(start.script, |done|)
      ensures Answered(response) ==>
                Progressed(start, evaluator.Snapshot(), ChatEvalTable(templates, questionText), 7, done + [response.value])
      ensures !Answered(response) ==>
                PanelEnded(templates, questionText, start, evaluator.Snapshot(), StrategyResult(None, CE_FAILURES[|done|]))
    {
      ghost var before := evaluator.Snapshot();
      var limit := if maxTokens.None? then MAX_TOKENS else maxTokens.value;
      response := evaluator.CallModel(systemPrompt, userContent, TEMPERATURE, limit);
      Advance(start.script, |done|);
      if Answered(response) {
        StepAnswered(start, before, evaluator.Snapshot(), ChatEvalTable(templates, questionText), 7, done, response);
      } else {
        StepFails(start, before, evaluator.Snapshot(), ChatEvalTable(templates, questionText), 7, done, response);
        ChatEvalStops(templates, questionText, start, evaluator.Snapshot(), done);
      }
    }

    /** `_generate_debate_log`: the sections appended one by one, then joined with newlines. */
    method GenerateDebateLog(questionText: string, judge1Round1: string, judge2Round1: string, judge3Round1: string,
                             judge1Round2: string, judge2Round2: string, judge3Round2: string, finalResponse: string)
      returns (log: string)
      ensures log == ChatEvalLog(questionText, [judge1Round1, judge2Round1, judge3Round1,
                                                judge1Round2, judge2Round2, judge3Round2, finalResponse])
    {
      var sections: seq<string> := [];

      sections := sections + ["ORIGINAL QUESTION:"];
      sections := sections + [questionText];

      sections := sections + ["\nROUND 1: INDEPENDENT EVALUATIONS"];
      sections := sections + ["\nJUDGE 1 (Initial):"];
      sections := sections + [judge1Round1];

      sections := sections + ["\nJUDGE 2 (Initial):"];
      sections := sections + [judge2Round1];

      sections := sections + ["\nJUDGE 3 (Initial):"];
      sections := sections + [judge3Round1];

      sections := sections + ["\nROUND 2: RE-EVALUATION AFTER EXCHANGE"];
      sections := sections + ["\nJUDGE 1 (Revised):"];
      sections := sections + [judge1Round2];

      sections := sections + ["\nJUDGE 2 (Revised):"];
      sections := sections + [judge2Round2];

      sections := sections + ["\nJUDGE 3 (Revised):"];
      sections := sections + [judge3Round2];

      sections := sections + ["\nFINAL SYNTHESIS"];
      sections := sections + ["\nMODERATOR (Final Decision):"];
      sections := sections + [finalResponse];

      PanelLogSections(questionText, [judge1Round1, judge2Round1, judge3Round1, judge1Round2, judge2Round2,
                                      judge3Round2, finalResponse], sections);
      return Join("\n", sections);
    }

    /** `debate_and_decide`. */
    method DebateAndDecide(question: QuestionRecord) returns (result: StrategyResult)
      modifies evaluator
      ensures PanelEnded(templates, QuestionText(question), old(evaluator.Snapshot()), evaluator.Snapshot(), result)
    {
      ghost var start := evaluator.Snapshot();
      var questionText := evaluator.FormatQuestion(question);
      ProgressedAtStart(start, ChatEvalTable(templates, questionText), 7);
      ghost var done: seq<string> := [];

      // Round 1: Judge 1
      Round1Request(templates, questionText, done);
      var judge1Round1Prompt := Format(templates[0], map["question_text" := questionText]).value;
      var judge1Response1 := CallJudge(JudgeSystemPrompt, judge1Round1Prompt, "judge1_round1",
                                       questionText, start, done);
      if !Answered(judge1Response1) {
        return StrategyResult(None, CE_FAILURES[0]);
      }
      done := done + [judge1Response1.value];

      // Round 1: Judge 2
      Round1Request(templates, questionText, done);
      var judge2Round1Prompt := Format(templates[0], map["question_text" := questionText]).value;
      var judge2Response1 := CallJudge(JudgeSystemPrompt, judge2Round1Prompt, "judge2_round1",
                                       questionText, start, done);
      if !Answered(judge2Response1) {
        return StrategyResult(None, CE_FAILURES[1]);
      }
      done := done + [judge2Response1.value];

      // Round 1: Judge 3
      Round1Request(templates, questionText, done);
      var judge3Round1Prompt := Format(templates[0], map["question_text" := questionText]).value;
      var judge3Response1 := CallJudge(JudgeSystemPrompt, judge3Round1Prompt, "judge3_round1",
                                       questionText, start, done);
      if !Answered(judge3Response1) {
        return StrategyResult(None, CE_FAILURES[2]);
      }
      done := done + [judge3Response1.value];

      // Round 2: Judge 1, seeing judges 2 and 3
      Judge1Round2Request(templates, questionText, done, judge1Response1.value, judge2Response1.value,
                          judge3Response1.value);
      var judge1Round2Prompt := Format(templates[1], map[
        "question_text" := questionText,
        "my_round1_response" := judge1Response1.value,
        "judge2_round1_response" := judge2Response1.value,
        "judge3_round1_response" := judge3Response1.value]).value;
      var judge1Response2 := CallJudge(JudgeSystemPrompt, judge1Round2Prompt, "judge1_round2",
                                       questionText, start, done);
      if !Answered(judge1Response2) {
        return StrategyResult(None, CE_FAILURES[3]);
      }
      done := done + [judge1Response2.value];

      // Round 2: Judge 2, seeing judges 1 and 3
      Judge2Round2Request(templates, questionText, done, judge1Response1.value, judge2Response1.value,
                          judge3Response1.value, judge1Response2.value);
      var judge2Round2Prompt := Format(templates[1], map[
        "question_text" := questionText,
        "my_round1_response" := judge2Response1.value,
        "judge2_round1_response" := judge1Response1.value,
        "judge3_round1_response" := judge3Response1.value]).value;
      var judge2Response2 := CallJudge(JudgeSystemPrompt, judge2Round2Prompt, "judge2_round2",
                                       questionText, start, done);
      if !Answered(judge2Response2) {
        return StrategyResult(None, CE_FAILURES[4]);
      }
      done := done + [judge2Response2.value];

      // Round 2: Judge 3, seeing judges 1 and 2
      Judge3Round2Request(templates, questionText, done, judge1Response1.value, judge2Response1.value,
                          judge3Response1.value, judge1Response2.value, judge2Response2.value);
      var judge3Round2Prompt := Format(templates[1], map[
        "question_text" := questionText,
        "my_round1_response" := judge3Response1.value,
        "judge2_round1_response" := judge1Response1.value,
        "judge3_round1_response" := judge2Response1.value]).value;
      var judge3Response2 := CallJudge(JudgeSystemPrompt, judge3Round2Prompt, "judge3_round2",
                                       questionText, start, done);
      if !Answered(judge3Response2) {
        return StrategyResult(None, CE_FAILURES[5]);
      }
      done := done + [judge3Response2.value];

      // Final: moderator synthesis
      ModeratorRequest(templates, questionText, done, judge1Response1.value, judge2Response1.value,
                       judge3Response1.value, judge1Response2.value, judge2Response2.value, judge3Response2.value);
      var moderatorPrompt := Format(templates[2], map[
        "question_text" := questionText,
        "judge1_round1_response" := judge1Response1.value,
        "judge2_round1_response" := judge2Response1.value,
        "judge3_round1_response" := judge3Response1.value,
        "judge1_round2_response" := judge1Response2.value,
        "judge2_round2_response" := judge2Response2.value,
        "judge3_round2_response" := judge3Response2.value]).value;
      var finalResponse := CallJudge(ModeratorSystemPrompt, moderatorPrompt, "moderator_final",
                                     questionText, start, done, Some(200));
      if !Answered(finalResponse) {
        return StrategyResult(None, CE_FAILURES[6]);
      }
      done := done + [finalResponse.value];
      ChatEvalFinishes(templates, questionText, start, evaluator.Snapshot(), done, judge1Response1.value,
                       judge2Response1.value, judge3Response1.value, judge1Response2.value, judge2Response2.value,
                       judge3Response2.value, finalResponse.value);

      var finalAnswer := ExtractFinalAnswer(finalResponse);
      var debateLog := GenerateDebateLog(questionText, judge1Response1.value, judge2Response1.value,
                                         judge3Response1.value, judge1Response2.value, judge2Response2.value,
                                         judge3Response2.value, finalResponse.value);
      return StrategyResult(finalAnswer, debateLog);
    }
  }
}
