/**
 * `DebateEvaluator` as the strategies use it: the completion call with its counter,
 * and the question formatter. The client, model name and network are replaced by
 * the scripted outcomes of `Protocol`.
 */
module Gateway {
  import opened Wrappers
  import opened Config
  import opened Questions
  import opened Protocol

  class DebateEvaluator {
    /** Outcomes of the completion calls still to come, in order. */
    var script: seq<Outcome>
    /** `api_call_count`. */
    var apiCallCount: nat
    /** Every request sent so far, in order. */
    ghost var requests: seq<Request>

    /** `__init__`: the counter starts at zero. */
    constructor(script: seq<Outcome>)
      ensures this.script == script && apiCallCount == 0 && requests == []
    {
      this.script := script;
      apiCallCount := 0;
      requests := [];
    }

    /**
     * `call_model`: one completion call. It consumes one outcome; the counter goes up
     * by one exactly when the call returns, and a raised call yields `None`.
     */
    method CallModel(system: SystemPrompt, user: string, temperature: real := 0.1, maxTokens: nat := 500)
      returns (response: Option<string>)
      modifies this
      ensures response == Response(Next(old(script)))
      ensures script == Tail(old(script))
      ensures apiCallCount == old(apiCallCount) + (if Next(old(script)).Returned? then 1 else 0)
      ensures requests == old(requests) + [Request(system, user, temperature, maxTokens)]
      ensures SentFrom(old(Snapshot()), Snapshot(), [Request(system, user, temperature, maxTokens)])
    {
      requests := requests + [Request(system, user, temperature, maxTokens)];
      var outcome := Next(script);
      script := Tail(script);
      match outcome
      case Raised =>
        response := None;
      case Returned(content) =>
        apiCallCount := apiCallCount + 1;
        response := content;
    }

    /** The evaluator's state as a value. */
    ghost function Snapshot(): Gauge
      reads this
    {
      Gauge(script, apiCallCount, requests)
    }

    /** `format_question`, built line by line as the source builds it. */
    method FormatQuestion(q: QuestionRecord) returns (formatted: string)
      ensures formatted == QuestionText(q)
    {
      formatted := Header(q.question);
      var i := 0;
      while i < |q.options|
        invariant 0 <= i <= |q.options|
        invariant formatted == Header(q.question) + OptionLines(q.options[..i])
      {
        assert q.options[..i + 1] == q.options[..i] + [q.options[i]];
        OptionLinesSnoc(q.options[..i], q.options[i]);
        formatted := formatted + OptionLine(i, q.options[i]);
        i := i + 1;
      }
      assert q.options[..i] == q.options;
    }
  }
}
