/**
 * `som.py`: the Society-of-Minds pipeline. Five agents run in a fixed order; each
 * sees the question followed by every earlier agent's output, and only the
 * integrator's output is parsed.
 */
module SocietyOfMinds {
  import opened Wrappers
  import opened Text
  import opened Config
  import opened Questions
  import opened AnswerExtractor
  import opened Protocol
  import opened Gateway

  const SOM_AGENTS: seq<string> := ["decomposer", "expert", "reasoner", "critic", "integrator"]

  const SOM_PROMPTS: seq<SystemPrompt> :=
    [DecomposerSystemPrompt, ExpertSystemPrompt, ReasonerSystemPrompt, CriticSystemPrompt, IntegratorSystemPrompt]

  const SOM_FAILURES: seq<string> :=
    ["Decomposer failed", "Expert failed", "Reasoner failed", "Critic failed", "Integrator failed"]

  /** The heading in front of the question and of each agent's output in the log. */
  const SOM_HEADINGS: seq<string> :=
    ["QUESTION:\n", "\nDECOMPOSER:\n", "\nEXPERT:\n", "\nREASONER:\n", "\nCRITIC:\n", "\nINTEGRATOR:\n"]

  /** The context agent `|prior|` receives: the question and all earlier outputs, blank-line separated. */
  function SomContext(questionText: string, prior: seq<string>): string
  {
    Join("\n\n", [questionText] + prior)
  }

  /** Call `j` of the pipeline: agent `j`'s prompt, the context so far, 50 tokens for the last agent. */
  function SomRequest(questionText: string, prior: seq<string>): Request
    requires |prior| < 5
  {
    Request(SOM_PROMPTS[|prior|], SomContext(questionText, prior), TEMPERATURE,
            if |prior| == 4 then 50 else MAX_TOKENS)
  }

  /** The request table of the pipeline; a pipeline never makes a call past its last, so such calls reuse the last request. */
  function SomTable(questionText: string): seq<string> -> Request
  {
    prior => if |prior| < 5 then SomRequest(questionText, prior)
             else SomRequest(questionText, prior[..4])
  }

  /** The log sections: each heading followed by the question or the agent's output. */
  function SomSections(question: string, outputs: seq<string>): (xs: seq<string>)
    requires |outputs| == 5
    ensures |xs| == 6
  {
    seq(6, k requires 0 <= k < 6 => SOM_HEADINGS[k] + ([question] + outputs)[k])
  }

  /** `_generate_debate_log`. */
  function GenerateDebateLog(question: string, decomp: string, expert: string, reason: string,
                             critic: string, final: string): string
  {
    Join("\n", SomSections(question, [decomp, expert, reason, critic, final]))
  }

  function SomFinish(questionText: string, outputs: seq<string>): StrategyResult
    requires |outputs| == 5
  {
    StrategyResult(ExtractFinalAnswer(Some(outputs[4])),
                   GenerateDebateLog(questionText, outputs[0], outputs[1], outputs[2], outputs[3], outputs[4]))
  }

  function SomFinisher(questionText: string): seq<string> --> StrategyResult
  {
    outputs requires |outputs| == 5 => SomFinish(questionText, outputs)
  }

  /** What `debate_and_decide` does for a question text and a script. */
  function SomRun(questionText: string, script: seq<Outcome>): (r: Run)
    ensures 1 <= |r.requests| <= 5
  {
    PipelineRun(5, SomTable(questionText), SOM_FAILURES, SomFinisher(questionText), script)
  }

  /** A run stopped at agent `k` ends with agent `k`'s failure message, having sent the run's requests. */
  lemma SomStops(questionText: string, start: Gauge, now: Gauge, done: seq<string>)
    requires Stopped(start, now, SomTable(questionText), 5, done)
    ensures var run := SomRun(questionText, start.script);
            run.result == StrategyResult(None, SOM_FAILURES[|done|]) && SentFrom(start, now, run.requests)
  {
    StoppedRun(start, now, SomTable(questionText), 5, SOM_FAILURES, SomFinisher(questionText), done);
  }

  /**
   * Five calls when every agent answers, and the answer is parsed from the
   * integrator's output alone; otherwise the first silent agent `k` ends the run after
   * `k + 1` calls with its own failure message.
   */
  lemma SomOutcome(questionText: string, script: seq<Outcome>)
    ensures var r := SomRun(questionText, script);
            var rs := Answers(script, 5);
            (|rs| == 5 ==> |r.requests| == 5 && r.result.finalAnswer == ExtractFinalAnswer(Nth(script, 4)))
            && (|rs| < 5 ==> |r.requests| == |rs| + 1 && r.result == StrategyResult(None, SOM_FAILURES[|rs|]))
  {
    PipelineResult(5, SomTable(questionText), SOM_FAILURES, SomFinisher(questionText), script);
  }

  /** Only the integrator is parsed: runs that agree on its output agree on the answer. */
  lemma SomAnswerFromIntegrator(questionText: string, script1: seq<Outcome>, script2: seq<Outcome>)
    requires |Answers(script1, 5)| == 5 && |Answers(script2, 5)| == 5
    requires Nth(script1, 4) == Nth(script2, 4)
    ensures SomRun(questionText, script1).result.finalAnswer == SomRun(questionText, script2).result.finalAnswer
  {
    SomOutcome(questionText, script1);
    SomOutcome(questionText, script2);
  }

  /** Only the integrator's call is limited to 50 tokens. */
  lemma SomTokenLimits(questionText: string, prior: seq<string>)
    requires |prior| < 5
    ensures SomRequest(questionText, prior).maxTokens == 50 <==> SOM_AGENTS[|prior|] == "integrator"
  {
  }

  /** Each agent's context holds the question first and every earlier output verbatim, in order. */
  lemma SomContextInOrder(questionText: string, prior: seq<string>, i: nat, j: nat)
    requires i < j <= |prior|
    ensures var c := SomContext(questionText, prior);
            var xs := [questionText] + prior;
            |questionText| <= |c| && c[..|questionText|] == questionText
            && Width("\n\n", xs[..i]) + |xs[i]| + 2 <= Width("\n\n", xs[..j])
            && Width("\n\n", xs[..j]) + |prior[j - 1]| <= |c|
            && c[Width("\n\n", xs[..j])..Width("\n\n", xs[..j]) + |prior[j - 1]|] == prior[j - 1]
  {
    var xs := [questionText] + prior;
    JoinSection("\n\n", xs, 0);
    JoinSection("\n\n", xs, j);
    WidthMonotone("\n\n", xs, i, j);
    assert xs[..0] == [];
  }

  /** The log shows the question and each agent's output under its heading, in pipeline order. */
  lemma SomLogInOrder(question: string, outputs: seq<string>, i: nat, j: nat)
    requires |outputs| == 5 && i < j < 6
    ensures var xs := SomSections(question, outputs);
            var log := Join("\n", xs);
            var at := Width("\n", xs[..j]);
            Width("\n", xs[..i]) + |xs[i]| < at && at + |xs[j]| <= |log|
            && log[at..at + |xs[j]|] == SOM_HEADINGS[j] + outputs[j - 1]
  {
    var xs := SomSections(question, outputs);
    JoinSection("\n", xs, j);
    WidthMonotone("\n", xs, i, j);
  }

  /** One more output extends the context by a blank line and that output. */
  lemma SomContextSnoc(q: string, prior: seq<string>, x: string)
    ensures SomContext(q, prior + [x]) == SomContext(q, prior) + "\n\n" + x
  {
    assert [q] + (prior + [x]) == ([q] + prior) + [x];
    JoinSnoc("\n\n", [q] + prior, x);
  }

  // The request of each later call, written out as `debate_and_decide` builds its user message.

  lemma SomSecondRequest(q: string, done: seq<string>)
    requires |done| == 1
    ensures SomRequest(q, done) == Request(ExpertSystemPrompt, q + "\n\n" + done[0], TEMPERATURE, MAX_TOKENS)
  {
    assert done == [] + [done[0]];
    SomContextSnoc(q, [], done[0]);
  }

  lemma SomThirdRequest(q: string, done: seq<string>)
    requires |done| == 2
    ensures SomRequest(q, done)
         == Request(ReasonerSystemPrompt, q + "\n\n" + done[0] + "\n\n" + done[1], TEMPERATURE, MAX_TOKENS)
  {
    SomSecondRequest(q, done[..1]);
    assert done == done[..1] + [done[1]];
    SomContextSnoc(q, done[..1], done[1]);
  }

  lemma SomFourthRequest(q: string, done: seq<string>)
    requires |done| == 3
    ensures SomRequest(q, done)
         == Request(CriticSystemPrompt, q + "\n\n" + done[0] + "\n\n" + done[1] + "\n\n" + done[2],
                    TEMPERATURE, MAX_TOKENS)
  {
    SomThirdRequest(q, done[..2]);
    assert done == done[..2] + [done[2]];
    SomContextSnoc(q, done[..2], done[2]);
  }

  lemma SomFifthRequest(q: string, done: seq<string>)
    requires |done| == 4
    ensures SomRequest(q, done)
         == Request(IntegratorSystemPrompt,
                    q + "\n\n" + done[0] + "\n\n" + done[1] + "\n\n" + done[2] + "\n\n" + done[3],
                    TEMPERATURE, 50)
  {
    SomFourthRequest(q, done[..3]);
    assert done == done[..3] + [done[3]];
    SomContextSnoc(q, done[..3], done[3]);
  }

  class SoMStrategy {
    const evaluator: DebateEvaluator

    constructor(evaluator: DebateEvaluator)
      ensures this.evaluator == evaluator
    {
      this.evaluator := evaluator;
    }

    /**
     * `_call_agent`: the integrator gets 50 tokens, every other agent `MAX_TOKENS`.
     * The ghost parameters place the call in a run that began in `start` and has
     * collected `done`; the request it sends must be the pipeline's next request.
     */
    method CallAgent(agentName: string, systemPrompt: SystemPrompt, userContent: string,
                     ghost questionText: string, ghost start: Gauge, ghost done: seq<string>)
      returns (response: Option<string>)
      modifies evaluator
      requires |done| < 5 && Progressed(start, evaluator.Snapshot(), SomTable(questionText), 5, done)
      requires SomRequest(questionText, done)
            == Request(systemPrompt, userContent, TEMPERATURE, if agentName == "integrator" then 50 else MAX_TOKENS)
      ensures response == Nth(start.script, |done|)
      ensures Answered(response) ==> Progressed(start, evaluator.Snapshot(), SomTable(questionText), 5, done + [response.value])
      ensures !Answered(response) ==>
                var run := SomRun(questionText, start.script);
                run.result == StrategyResult(None, SOM_FAILURES[|done|]) && SentFrom(start, evaluator.Snapshot(), run.requests)
    {
      ghost var before := evaluator.Snapshot();
      var maxTokens := if agentName == "integrator" then 50 else MAX_TOKENS;
      response := evaluator.CallModel(systemPrompt, userContent, TEMPERATURE, maxTokens);
      Advance(start.script, |done|);
      if Answered(response) {
        StepAnswered(start, before, evaluator.Snapshot(), SomTable(questionText), 5, done, response);
      } else {
        StepFails(start, before, evaluator.Snapshot(), SomTable(questionText), 5, done, response);
        SomStops(questionText, start, evaluator.Snapshot(), done);
      }
    }

    /** `debate_and_decide`. */
    method DebateAndDecide(question: QuestionRecord) returns (result: StrategyResult)
      modifies evaluator
      ensures var run := SomRun(QuestionText(question), old(evaluator.script));
              result == run.result && SentFrom(old(evaluator.Snapshot()), evaluator.Snapshot(), run.requests)
    {
      ghost var start := evaluator.Snapshot();
      var questionText := evaluator.FormatQuestion(question);
      ProgressedAtStart(start, SomTable(questionText), 5);
      ghost var done: seq<string> := [];

      // 1. Decomposer
      var decomp := CallAgent("decomposer", DecomposerSystemPrompt, questionText, questionText, start, done);
      if !Answered(decomp) {
        return StrategyResult(None, "Decomposer failed");
      }
      done := done + [decomp.value];

      // 2. Expert
      SomSecondRequest(questionText, done);
      var expert := CallAgent("expert", ExpertSystemPrompt, questionText + "\n\n" + decomp.value,
                              questionText, start, done);
      if !Answered(expert) {
        return StrategyResult(None, "Expert failed");
      }
      done := done + [expert.value];

      // 3. Reasoner
      SomThirdRequest(questionText, done);
      var reason := CallAgent("reasoner", ReasonerSystemPrompt,
                              questionText + "\n\n" + decomp.value + "\n\n" + expert.value,
                              questionText, start, done);
      if !Answered(reason) {
        return StrategyResult(None, "Reasoner failed");
      }
      done := done + [reason.value];

      // 4. Critic
      SomFourthRequest(questionText, done);
      var critic := CallAgent("critic", CriticSystemPrompt,
                              questionText + "\n\n" + decomp.value + "\n\n" + expert.value + "\n\n" + reason.value,
                              questionText, start, done);
      if !Answered(critic) {
        return StrategyResult(None, "Critic failed");
      }
      done := done + [critic.value];

      // 5. Integrator
      var finalContext := questionText + "\n\n" + decomp.value + "\n\n" + expert.value + "\n\n"
                          + reason.value + "\n\n" + critic.value;
      SomFifthRequest(questionText, done);
      var integrator := CallAgent("integrator", IntegratorSystemPrompt, finalContext, questionText, start, done);
      if !Answered(integrator) {
        return StrategyResult(None, "Integrator failed");
      }
      done := done + [integrator.value];
      Finished(start, evaluator.Snapshot(), SomTable(questionText), 5, SOM_FAILURES, SomFinisher(questionText), done);

      var finalAnswer := ExtractFinalAnswer(integrator);
      var debateLog := GenerateDebateLog(questionText, decomp.value, expert.value, reason.value,
                                         critic.value, integrator.value);
      return StrategyResult(finalAnswer, debateLog);
    }
  }
}
