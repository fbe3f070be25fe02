/**
 * `main.py`: the strategy dispatch of `load_strategy`, and the order in which `main`
 * loads the dataset, caps it, loads the strategy and evaluates it. Loading the dataset
 * is I/O and arrives as its outcome; the settings read from the configuration arrive
 * as parameters.
 */
module Benchmark {
  import opened Wrappers
  import opened Config
  import opened Questions
  import opened Protocol
  import opened Gateway
  import opened SingleAgent
  import opened SocietyOfMinds
  import opened AngelDemon
  import opened ChatEval
  import opened Evaluation

  /** The four strategy names `load_strategy` knows. */
  datatype StrategyName = ChatEvalName | AngelDemonName | SomName | SingleAgentName

  function NameOf(k: StrategyName): string
  {
    match k
    case SingleAgentName => "single_agent"
    case SomName => "som"
    case AngelDemonName => "angel_demon"
    case ChatEvalName => "chateval"
  }

  /** The branch of the `if`/`elif` chain a name takes; `None` is the `else` that raises. */
  function ParseStrategyName(name: string): Option<StrategyName>
  {
    if name == "single_agent" then Some(SingleAgentName)
    else if name == "som" then Some(SomName)
    else if name == "angel_demon" then Some(AngelDemonName)
    else if name == "chateval" then Some(ChatEvalName)
    else None
  }

  /** Exactly the four names are known, each naming its own strategy. */
  lemma ParseStrategyNameExact(name: string, k: StrategyName)
    ensures ParseStrategyName(name) == Some(k) <==> name == NameOf(k)
  {
  }

  /** The message of the `ValueError` for an unknown name. */
  function UnknownStrategy(name: string): string
  {
    "Unknown strategy: " + name
  }

  /**
   * The plan a name loads: the single agent with the direct-answer prompt, the Society
   * of Minds, or one of the two debates. Which templates a debate runs with is fixed by
   * its class's constructor (`AngelDemonStrategy`, `ChatEvalStrategy`).
   */
  predicate Loads(k: StrategyName, plan: Plan)
  {
    match k
    case ChatEvalName => plan.ChatEvalPlan?
    case AngelDemonName => plan.AngelDemonPlan?
    case SomName => plan == SomPlan
    case SingleAgentName => plan == SingleAgentPlan(DirectAnswerPrompt)
  }

  /** A new `ChatEvalStrategy` on the evaluator. */
  method NewChatEval(evaluator: DebateEvaluator) returns (s: Strategy)
    ensures EvaluatorOf(s) == evaluator && Loads(ChatEvalName, PlanOf(s))
  {
    var strategy := new ChatEvalStrategy(evaluator);
    s := UseChatEval(strategy);
  }

  /** A new `AngelDemonStrategy` on the evaluator. */
  method NewAngelDemon(evaluator: DebateEvaluator) returns (s: Strategy)
    ensures EvaluatorOf(s) == evaluator && Loads(AngelDemonName, PlanOf(s))
  {
    var strategy := new AngelDemonStrategy(evaluator);
    s := UseAngelDemon(strategy);
  }

  /**
   * `load_strategy`: a known name gives a new strategy of its class on the evaluator,
   * the single agent built with `use_direct_answer=True`; any other name is an error.
   */
  method LoadStrategy(name: string, evaluator: DebateEvaluator) returns (r: Result<Strategy, string>)
    ensures ParseStrategyName(name).None? ==> r == Failure(UnknownStrategy(name))
    ensures ParseStrategyName(name).Some? ==>
              r.Success? && EvaluatorOf(r.value) == evaluator && Loads(ParseStrategyName(name).value, PlanOf(r.value))
  {
    if name == "single_agent" {
      var strategy := new SingleAgentStrategy(evaluator, true);
      return Success(UseSingleAgent(strategy));
    } else if name == "som" {
      var strategy := new SoMStrategy(evaluator);
      return Success(UseSoM(strategy));
    } else if name == "angel_demon" {
      var strategy := NewAngelDemon(evaluator);
      return Success(strategy);
    } else if name == "chateval" {
      var strategy := NewChatEval(evaluator);
      return Success(strategy);
    } else {
      return Failure(UnknownStrategy(name));
    }
  }

  /** How `main` ends: before evaluating, or with the evaluation's report and the final `api_call_count`. */
  datatype MainOutcome =
    | DatasetLoadFailed(error: string)
    | StrategyLoadFailed(error: string)
    | Evaluated(report: EvaluationReport, apiCallCount: nat)

  /**
   * `main`: a failed dataset load returns before any strategy is loaded, an unknown
   * strategy name returns before anything is evaluated, and otherwise the capped
   * questions are evaluated once, in order, on a fresh evaluator whose counter ends
   * at the number of calls that returned.
   */
  method RunBenchmark(strategyName: string, maxQuestions: Option<int>,
                      loaded: Result<seq<QuestionRecord>, string>, script: seq<Outcome>)
    returns (outcome: MainOutcome, ghost plan: Plan)
    ensures loaded.Failure? ==> outcome == DatasetLoadFailed(loaded.error)
    ensures loaded.Success? && ParseStrategyName(strategyName).None? ==>
              outcome == StrategyLoadFailed(UnknownStrategy(strategyName))
    ensures loaded.Success? && ParseStrategyName(strategyName).Some? ==>
              Loads(ParseStrategyName(strategyName).value, plan) &&
              var runner := RunnerOf(plan);
              var questions := Capped(loaded.value, maxQuestions);
              outcome == Evaluated(Report(runner, strategyName, questions, script),
                                   Counted(script, |Session(runner, questions, script).requests|))
  {
    plan := SomPlan;
    var evaluator := new DebateEvaluator(script);
    if loaded.Failure? {
      outcome := DatasetLoadFailed(loaded.error);
      return;
    }
    var dataset := loaded.value;
    if maxQuestions.Some? && maxQuestions.value != 0 && maxQuestions.value < |dataset| {
      dataset := if maxQuestions.value < 0 then [] else dataset[..maxQuestions.value];
    }
    assert dataset == Capped(loaded.value, maxQuestions);
    var strategy := LoadStrategy(strategyName, evaluator);
    if strategy.Failure? {
      outcome := StrategyLoadFailed(strategy.error);
      return;
    }
    CappedIdempotent(loaded.value, maxQuestions);
    plan := PlanOf(strategy.value);
    ghost var sent := Session(RunnerOf(plan), dataset, script).requests;
    var report := EvaluateStrategy(strategy.value, dataset, strategyName, maxQuestions);
    assert report == Report(RunnerOf(plan), strategyName, dataset, script);
    assert evaluator.apiCallCount == Counted(script, |sent|);
    outcome := Evaluated(report, evaluator.apiCallCount);
  }
}
