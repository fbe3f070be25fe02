/**
 * `single_agent.py`: the baseline. One completion call with the question and a
 * format reminder; its raw response is both the parsed answer and the debate log.
 */
module SingleAgent {
  import opened Wrappers
  import opened Config
  import opened Questions
  import opened AnswerExtractor
  import opened Protocol
  import opened Gateway

  /** The reminder appended to the question in the user message. */
  const ANSWER_REMINDER: string := "\n\nYour answer (format: FINAL_ANSWER: [0-9]):"

  const SINGLE_AGENT_FAILURES: seq<string> := ["API call failed"]

  /** The only request: system prompt, question plus reminder, temperature 0.1, 50 tokens. */
  function SingleAgentRequest(system: SystemPrompt, questionText: string, prior: seq<string>): Request
  {
    Request(system, questionText + ANSWER_REMINDER, 0.1, 50)
  }

  /** A successful call: its response is parsed and kept verbatim as the log. */
  function SingleAgentFinish(answers: seq<string>): StrategyResult
    requires |answers| == 1
  {
    StrategyResult(ExtractFinalAnswer(Some(answers[0])), answers[0])
  }

  /** What `debate_and_decide` does with a given system prompt, question text and script. */
  function SingleAgentRun(system: SystemPrompt, questionText: string, script: seq<Outcome>): (r: Run)
    ensures |r.requests| == 1
  {
    PipelineRun(1, prior => SingleAgentRequest(system, questionText, prior),
                SINGLE_AGENT_FAILURES, SingleAgentFinish, script)
  }

  /**
   * Exactly one call, with the question and the reminder as its user message and 50
   * tokens; a falsy response gives `None` with "API call failed", and an answered
   * one gives its extracted digit with the response itself as the log.
   */
  lemma SingleAgentOutcome(system: SystemPrompt, questionText: string, script: seq<Outcome>)
    ensures var r := SingleAgentRun(system, questionText, script);
            r.requests == [Request(system, questionText + ANSWER_REMINDER, 0.1, 50)]
            && (Answered(Nth(script, 0)) ==>
                  r.result == StrategyResult(ExtractFinalAnswer(Nth(script, 0)), Nth(script, 0).value))
            && (!Answered(Nth(script, 0)) ==> r.result == StrategyResult(None, "API call failed"))
  {
    var request := prior => SingleAgentRequest(system, questionText, prior);
    if Answered(Nth(script, 0)) {
      PipelineSucceeds(1, request, SINGLE_AGENT_FAILURES, SingleAgentFinish, script, [Nth(script, 0).value]);
    } else {
      PipelineFailsAt(1, request, SINGLE_AGENT_FAILURES, SingleAgentFinish, script, []);
    }
  }

  class SingleAgentStrategy {
    const evaluator: DebateEvaluator
    const systemPrompt: SystemPrompt

    /** `__init__`: the direct-answer prompt unless asked otherwise. */
    constructor(evaluator: DebateEvaluator, useDirectAnswer: bool := true)
      ensures this.evaluator == evaluator
      ensures systemPrompt == if useDirectAnswer then DirectAnswerPrompt else SingleAgentSystemPrompt
    {
      this.evaluator := evaluator;
      systemPrompt := if useDirectAnswer then DirectAnswerPrompt else SingleAgentSystemPrompt;
    }

    /** `debate_and_decide`. */
    method DebateAndDecide(question: QuestionRecord) returns (result: StrategyResult)
      modifies evaluator
      ensures var run := SingleAgentRun(systemPrompt, QuestionText(question), old(evaluator.script));
              result == run.result
              && SentFrom(old(evaluator.Snapshot()), evaluator.Snapshot(), run.requests)
    {
      ghost var script0 := evaluator.script;
      var questionText := evaluator.FormatQuestion(question);
      var response := evaluator.CallModel(systemPrompt, questionText + ANSWER_REMINDER, 0.1, 50);
      SingleAgentOutcome(systemPrompt, questionText, script0);
      if !Answered(response) {
        return StrategyResult(None, "API call failed");
      }
      var finalAnswer := ExtractFinalAnswer(response);
      return StrategyResult(finalAnswer, response.value);
    }
  }
}
