/**
 * `DebateEvaluator.evaluate_strategy` and `_calculate_category_stats`: the question
 * cap, the loop that runs a strategy on every question in order and records one
 * result and one debate log per question, the overall accuracy, and the per-category
 * counts. A strategy is one of the four classes; `Plan` is the part of it that decides
 * what a run does.
 */
module Evaluation {
  import opened Wrappers
  import opened Questions
  import opened Config
  import opened Protocol
  import opened Gateway
  import opened SingleAgent
  import opened SocietyOfMinds
  import opened AngelDemon
  import opened ChatEval

  /** A loaded strategy object. */
  datatype Strategy =
    | UseChatEval(panel: ChatEvalStrategy)
    | UseAngelDemon(debate: AngelDemonStrategy)
    | UseSoM(som: SoMStrategy)
    | UseSingleAgent(single: SingleAgentStrategy)

  /** The settings of a strategy that shape its runs. */
  datatype Plan =
    | ChatEvalPlan(panelTemplates: PanelTemplates)
    | AngelDemonPlan(debateTemplates: DebateTemplates)
    | SomPlan
    | SingleAgentPlan(system: SystemPrompt)

  /** The evaluator a strategy calls the model through. */
  function EvaluatorOf(s: Strategy): DebateEvaluator
  {
    match s
    case UseChatEval(a) => a.evaluator
    case UseAngelDemon(a) => a.evaluator
    case UseSoM(a) => a.evaluator
    case UseSingleAgent(a) => a.evaluator
  }

  function PlanOf(s: Strategy): Plan
  {
    match s
    case UseChatEval(a) => ChatEvalPlan(a.templates)
    case UseAngelDemon(a) => AngelDemonPlan(a.templates)
    case UseSoM(_) => SomPlan
    case UseSingleAgent(a) => SingleAgentPlan(a.systemPrompt)
  }

  /** The most calls one question can cost. */
  function MaxCalls(plan: Plan): nat
  {
    match plan
    case ChatEvalPlan(_) => 7
    case AngelDemonPlan(_) => 7
    case SomPlan => 5
    case SingleAgentPlan(_) => 1
  }

  /** What one `debate_and_decide` does for a question text and script. */
  function PlanRun(plan: Plan, questionText: string, script: seq<Outcome>): (r: Run)
    ensures 1 <= |r.requests| <= MaxCalls(plan)
  {
    match plan
    case ChatEvalPlan(t) => ChatEvalRun(t, questionText, script)
    case AngelDemonPlan(t) => AngelDemonRun(t, questionText, script)
    case SomPlan => SomRun(questionText, script)
    case SingleAgentPlan(system) => SingleAgentRun(system, questionText, script)
  }

  /** A strategy's runs as a function of the question text and the script. */
  type Runner = (string, seq<Outcome>) -> Run

  function RunnerOf(plan: Plan): Runner
  {
    (questionText, script) => PlanRun(plan, questionText, script)
  }

  /** `runner` gives the runs of the strategy `s`. */
  ghost predicate Decides(s: Strategy, runner: Runner)
  {
    forall questionText, script {:trigger PlanRun(PlanOf(s), questionText, script)} ::
      runner(questionText, script) == PlanRun(PlanOf(s), questionText, script)
  }

  /** `strategy.debate_and_decide(question_data)`, whichever class the strategy is. */
  method Decide(s: Strategy, question: QuestionRecord, ghost runner: Runner) returns (result: StrategyResult)
    requires Decides(s, runner)
    modifies EvaluatorOf(s)
    ensures var run := runner(QuestionText(question), old(EvaluatorOf(s).script));
            result == run.result && SentFrom(old(EvaluatorOf(s).Snapshot()), EvaluatorOf(s).Snapshot(), run.requests)
  {
    ghost var run := PlanRun(PlanOf(s), QuestionText(question), EvaluatorOf(s).script);
    assert runner(QuestionText(question), EvaluatorOf(s).script) == run;
    match s
    case UseChatEval(a) => result := a.DebateAndDecide(question);
    case UseAngelDemon(a) => result := a.DebateAndDecide(question);
    case UseSoM(a) => result := a.DebateAndDecide(question);
    case UseSingleAgent(a) => result := a.DebateAndDecide(question);
  }

  /**
   * The question cap: a truthy `max_questions` below the dataset size keeps the
   * prefix `range(max_questions)`, which is empty when the cap is negative; `None`,
   * `0` and caps at or above the size keep everything.
   */
  function Capped<T>(dataset: seq<T>, maxQuestions: Option<int>): (r: seq<T>)
  {
    if maxQuestions.Some? && maxQuestions.value != 0 && maxQuestions.value < |dataset| then
      (if maxQuestions.value < 0 then [] else dataset[..maxQuestions.value])
    else dataset
  }

  /** The cap keeps a prefix, of exactly the size the cap asks for, and everything when it does not apply. */
  lemma CappedPrefix<T>(dataset: seq<T>, maxQuestions: Option<int>)
    ensures var r := Capped(dataset, maxQuestions);
            r == dataset[..|r|]
            && (maxQuestions.None? || maxQuestions.value == 0 || maxQuestions.value >= |dataset| ==> r == dataset)
            && (maxQuestions.Some? && 0 < maxQuestions.value < |dataset| ==> |r| == maxQuestions.value)
            && (maxQuestions.Some? && maxQuestions.value < 0 ==> r == [])
  {
  }

  /** Capping twice with the same setting, as the entry point and the loop both do, is capping once. */
  lemma CappedIdempotent<T>(dataset: seq<T>, maxQuestions: Option<int>)
    ensures Capped(Capped(dataset, maxQuestions), maxQuestions) == Capped(dataset, maxQuestions)
  {
  }

  /** The results of running the questions in order, each from the script the earlier ones left, and every request sent. */
  datatype Sweep = Sweep(results: seq<StrategyResult>, requests: seq<Request>)

  function Session(run: Runner, questions: seq<QuestionRecord>, script: seq<Outcome>): (r: Sweep)
    ensures |r.results| == |questions|
  {
    if questions == [] then Sweep([], [])
    else
      var prev := Session(run, questions[..|questions| - 1], script);
      var run := run(QuestionText(questions[|questions| - 1]), After(script, |prev.requests|));
      Sweep(prev.results + [run.result], prev.requests + run.requests)
  }

  /** When every run costs between one and `m` calls, every question does: the session costs between `|questions|` and `m` per question. */
  lemma {:induction false} SessionCalls(run: Runner, m: nat, questions: seq<QuestionRecord>, script: seq<Outcome>)
    requires forall questionText, script :: 1 <= |run(questionText, script).requests| <= m
    ensures |questions| <= |Session(run, questions, script).requests| <= m * |questions|
  {
    if questions != [] {
      SessionCalls(run, m, questions[..|questions| - 1], script);
      assert m * (|questions| - 1) + m == m * |questions|;
    }
  }

  /** Later questions cannot change the results of earlier ones. */
  lemma {:induction false} SessionPrefix(run: Runner, questions: seq<QuestionRecord>, script: seq<Outcome>, k: nat)
    requires k <= |questions|
    ensures Session(run, questions[..k], script).results == Session(run, questions, script).results[..k]
  {
    if k < |questions| {
      var init := questions[..|questions| - 1];
      assert init[..k] == questions[..k];
      SessionPrefix(run, init, script, k);
    } else {
      assert questions[..k] == questions;
    }
  }

  /** A `results` entry of `evaluate_strategy` (without `response_time`). */
  datatype ResultRecord = ResultRecord(
    questionId: int,
    category: string,
    modelAnswer: Option<int>,
    correctAnswer: Option<int>,
    isCorrect: bool)

  /** A `debate_logs` entry of `evaluate_strategy` (without `timestamp`). */
  datatype DebateLogRecord = DebateLogRecord(
    questionId: int,
    category: string,
    strategy: string,
    finalAnswer: Option<int>,
    correctAnswer: Option<int>,
    debateProcess: string)

  /** `(accuracy, results, debate_logs)`. */
  datatype EvaluationReport = EvaluationReport(
    accuracy: real,
    results: seq<ResultRecord>,
    debateLogs: seq<DebateLogRecord>)

  /** `question_data.get('id', idx)`. */
  function QuestionId(q: QuestionRecord, index: nat): int
  {
    q.id.GetOr(index)
  }

  /** `question_data.get('category', 'Unknown')`. */
  function CategoryOf(q: QuestionRecord): string
  {
    q.category.GetOr("Unknown")
  }

  function ResultOf(index: nat, q: QuestionRecord, outcome: StrategyResult): ResultRecord
  {
    ResultRecord(QuestionId(q, index), CategoryOf(q), outcome.finalAnswer, q.answerIndex,
                 outcome.finalAnswer.Some? && q.answerIndex.Some? && outcome.finalAnswer.value == q.answerIndex.value)
  }

  function LogOf(index: nat, q: QuestionRecord, strategyName: string, outcome: StrategyResult): DebateLogRecord
  {
    DebateLogRecord(QuestionId(q, index), CategoryOf(q), strategyName, outcome.finalAnswer, q.answerIndex,
                    outcome.debateLog)
  }

  /** The `results` entries for the questions and their strategy results, one each, in order. */
  function Records(questions: seq<QuestionRecord>, outcomes: seq<StrategyResult>): (r: seq<ResultRecord>)
    requires |questions| == |outcomes|
    ensures |r| == |questions|
  {
    if questions == [] then []
    else
      var n := |questions| - 1;
      Records(questions[..n], outcomes[..n]) + [ResultOf(n, questions[n], outcomes[n])]
  }

  /** The `debate_logs` entries for the questions and their strategy results, one each, in order. */
  function Logs(questions: seq<QuestionRecord>, strategyName: string, outcomes: seq<StrategyResult>): (r: seq<DebateLogRecord>)
    requires |questions| == |outcomes|
    ensures |r| == |questions|
  {
    if questions == [] then []
    else
      var n := |questions| - 1;
      Logs(questions[..n], strategyName, outcomes[..n]) + [LogOf(n, questions[n], strategyName, outcomes[n])]
  }

  /** Entry `i` of each list belongs to question `i` and its result. */
  lemma {:induction false} RecordsAt(questions: seq<QuestionRecord>, strategyName: string, outcomes: seq<StrategyResult>, i: nat)
    requires |questions| == |outcomes| && i < |questions|
    ensures Records(questions, outcomes)[i] == ResultOf(i, questions[i], outcomes[i])
    ensures Logs(questions, strategyName, outcomes)[i] == LogOf(i, questions[i], strategyName, outcomes[i])
  {
    var n := |questions| - 1;
    if i < n {
      RecordsAt(questions[..n], strategyName, outcomes[..n], i);
    }
  }

  /** `sum(1 for r in results if r['is_correct'])`. */
  function CorrectCount(results: seq<ResultRecord>): (n: nat)
    ensures n <= |results|
  {
    if results == [] then 0
    else CorrectCount(results[..|results| - 1]) + (if results[|results| - 1].isCorrect then 1 else 0)
  }

  /** `correct_count / total_questions`, or 0 for no questions. */
  function Accuracy(correct: nat, total: nat): real
  {
    if total > 0 then correct as real / total as real else 0.0
  }

  /** What `evaluate_strategy` returns for a plan, a strategy name, the capped questions and the script. */
  function Report(run: Runner, strategyName: string, questions: seq<QuestionRecord>, script: seq<Outcome>): EvaluationReport
  {
    var outcomes := Session(run, questions, script).results;
    var results := Records(questions, outcomes);
    EvaluationReport(Accuracy(CorrectCount(results), |questions|), results, Logs(questions, strategyName, outcomes))
  }

  /**
   * One result and one log per question, in order, agreeing on id and category; the
   * id defaults to the position and the category to "Unknown"; the model answer is
   * the strategy's answer to that question, and the question counts as correct
   * exactly when both answers are present and equal.
   */
  lemma ReportRecords(run: Runner, strategyName: string, questions: seq<QuestionRecord>, script: seq<Outcome>, i: nat)
    requires i < |questions|
    ensures var report := Report(run, strategyName, questions, script);
            var outcome := Session(run, questions, script).results[i];
            var r := report.results[i];
            var log := report.debateLogs[i];
            |report.results| == |report.debateLogs| == |questions|
            && r.questionId == log.questionId == (if questions[i].id.Some? then questions[i].id.value else i)
            && r.category == log.category == (if questions[i].category.Some? then questions[i].category.value else "Unknown")
            && r.modelAnswer == log.finalAnswer == outcome.finalAnswer
            && r.correctAnswer == log.correctAnswer == questions[i].answerIndex
            && (r.isCorrect <==> r.modelAnswer.Some? && r.correctAnswer.Some? && r.modelAnswer == r.correctAnswer)
            && log.strategy == strategyName && log.debateProcess == outcome.debateLog
  {
    RecordsAt(questions, strategyName, Session(run, questions, script).results, i);
  }

  /** The accuracy is a fraction of the questions: 0 with none correct, 1 with all correct. */
  lemma {:induction false} AccuracyBounds(results: seq<ResultRecord>)
    ensures 0.0 <= Accuracy(CorrectCount(results), |results|) <= 1.0
    ensures CorrectCount(results) == 0 ==> Accuracy(CorrectCount(results), |results|) == 0.0
    ensures (forall i :: 0 <= i < |results| ==> results[i].isCorrect) && |results| > 0
            ==> Accuracy(CorrectCount(results), |results|) == 1.0
  {
    if forall i :: 0 <= i < |results| ==> results[i].isCorrect {
      AllCorrect(results);
    }
  }

  lemma {:induction false} AllCorrect(results: seq<ResultRecord>)
    requires forall i :: 0 <= i < |results| ==> results[i].isCorrect
    ensures CorrectCount(results) == |results|
  {
    if results != [] {
      AllCorrect(results[..|results| - 1]);
    }
  }

  /**
   * `evaluate_strategy`: caps the dataset, runs the strategy on each remaining
   * question in order and returns the report; the model sees exactly the requests of
   * those runs, one question after the other.
   */
  method EvaluateStrategy(s: Strategy, dataset: seq<QuestionRecord>, strategyName: string, maxQuestions: Option<int>)
    returns (report: EvaluationReport)
    modifies EvaluatorOf(s)
    ensures var questions := Capped(dataset, maxQuestions);
            report == Report(RunnerOf(PlanOf(s)), strategyName, questions, old(EvaluatorOf(s).script))
            && SentFrom(old(EvaluatorOf(s).Snapshot()), EvaluatorOf(s).Snapshot(),
                        Session(RunnerOf(PlanOf(s)), questions, old(EvaluatorOf(s).script)).requests)
  {
    var questions := if maxQuestions.Some? && maxQuestions.value != 0 && maxQuestions.value < |dataset| then
                       (if maxQuestions.value < 0 then [] else dataset[..maxQuestions.value])
                     else dataset;
    assert Decides(s, RunnerOf(PlanOf(s)));
    var results, debateLogs := EvaluateQuestions(s, questions, strategyName, RunnerOf(PlanOf(s)));
    var accuracy := Accuracy(CorrectCount(results), |questions|);
    var categoryStats := CalculateCategoryStats(results);
    report := EvaluationReport(accuracy, results, debateLogs);
  }

  /**
   * The loop of `evaluate_strategy`: question `idx` is decided from the script the
   * earlier questions left, and adds one `results` entry and one `debate_logs` entry.
   */
  method EvaluateQuestions(s: Strategy, questions: seq<QuestionRecord>, strategyName: string, ghost runner: Runner)
    returns (results: seq<ResultRecord>, debateLogs: seq<DebateLogRecord>)
    requires Decides(s, runner)
    modifies EvaluatorOf(s)
    ensures var sweep := Session(runner, questions, old(EvaluatorOf(s).script));
            results == Records(questions, sweep.results) && debateLogs == Logs(questions, strategyName, sweep.results)
            && SentFrom(old(EvaluatorOf(s).Snapshot()), EvaluatorOf(s).Snapshot(), sweep.requests)
  {
    var evaluator := EvaluatorOf(s);
    ghost var start := evaluator.Snapshot();
    results := [];
    debateLogs := [];
    ghost var outcomes: seq<StrategyResult> := [];
    ghost var sent: seq<Request> := [];
    var idx := 0;
    while idx < |questions|
      invariant 0 <= idx <= |questions|
      invariant Session(runner, questions[..idx], start.script) == Sweep(outcomes, sent)
      invariant SentFrom(start, evaluator.Snapshot(), sent)
      invariant results == Records(questions[..idx], outcomes)
      invariant debateLogs == Logs(questions[..idx], strategyName, outcomes)
    {
      var question := questions[idx];
      ghost var before := evaluator.Snapshot();
      var strategyResult := Decide(s, question, runner);
      ghost var run := runner(QuestionText(question), before.script);
      SentThen(start, before, evaluator.Snapshot(), sent, run.requests);
      assert questions[..idx + 1][..idx] == questions[..idx];
      assert (outcomes + [strategyResult])[..idx] == outcomes;
      results := results + [ResultOf(idx, question, strategyResult)];
      debateLogs := debateLogs + [LogOf(idx, question, strategyName, strategyResult)];
      outcomes := outcomes + [strategyResult];
      sent := sent + run.requests;
      idx := idx + 1;
    }
    assert questions[..idx] == questions;
  }

  /** Two stretches of requests one after the other are one stretch. */
  lemma SentThen(start: Gauge, mid: Gauge, now: Gauge, first: seq<Request>, second: seq<Request>)
    requires SentFrom(start, mid, first) && SentFrom(mid, now, second)
    ensures SentFrom(start, now, first + second)
  {
    AfterAfter(start.script, |first|, |second|);
    CountedThen(start.script, |first|, |second|);
  }

  lemma {:induction false} AfterAfter(script: seq<Outcome>, j: nat, k: nat)
    ensures After(After(script, j), k) == After(script, j + k)
  {
    if k > 0 {
      AfterAfter(script, j, k - 1);
    }
  }

  lemma {:induction false} CountedThen(script: seq<Outcome>, j: nat, k: nat)
    ensures Counted(script, j) + Counted(After(script, j), k) == Counted(script, j + k)
  {
    if k > 0 {
      CountedThen(script, j, k - 1);
      AfterAfter(script, j, k - 1);
    }
  }

  /** One category's counts; `accuracy` is absent until the second pass adds it. */
  datatype CategoryStats = CategoryStats(total: nat, correct: nat, accuracy: Option<real>)

  /** The categories among the results. */
  function CategoriesOf(results: seq<ResultRecord>): set<string>
  {
    set i | 0 <= i < |results| :: results[i].category
  }

  /** How many results are in category `c`. */
  function CountIn(results: seq<ResultRecord>, c: string): nat
  {
    if results == [] then 0
    else CountIn(results[..|results| - 1], c) + (if results[|results| - 1].category == c then 1 else 0)
  }

  /** How many results in category `c` are correct. */
  function CorrectIn(results: seq<ResultRecord>, c: string): (n: nat)
    ensures n <= CountIn(results, c)
  {
    if results == [] then 0
    else CorrectIn(results[..|results| - 1], c)
         + (if results[|results| - 1].category == c && results[|results| - 1].isCorrect then 1 else 0)
  }

  /** A category seen among the results is counted at least once, and an unseen one never. */
  lemma {:induction false} CountInSeen(results: seq<ResultRecord>, c: string)
    ensures CountIn(results, c) > 0 <==> c in CategoriesOf(results)
  {
    if results != [] {
      var init := results[..|results| - 1];
      CountInSeen(init, c);
      assert CategoriesOf(results) == CategoriesOf(init) + {results[|results| - 1].category} by {
        forall x | x in CategoriesOf(results)
          ensures x in CategoriesOf(init) + {results[|results| - 1].category}
        {
          var i :| 0 <= i < |results| && results[i].category == x;
          if i < |results| - 1 {
            assert init[i] == results[i];
          }
        }
      }
    }
  }

  /** Counting one more result changes only the counts of its own category. */
  lemma CountStep(results: seq<ResultRecord>, i: nat)
    requires i < |results|
    ensures CategoriesOf(results[..i + 1]) == CategoriesOf(results[..i]) + {results[i].category}
    ensures forall c :: CountIn(results[..i + 1], c) == CountIn(results[..i], c) + (if results[i].category == c then 1 else 0)
    ensures forall c :: CorrectIn(results[..i + 1], c)
                        == CorrectIn(results[..i], c) + (if results[i].category == c && results[i].isCorrect then 1 else 0)
  {
    assert results[..i + 1][..i] == results[..i];
    forall x | x in CategoriesOf(results[..i + 1])
      ensures x in CategoriesOf(results[..i]) + {results[i].category}
    {
      var k :| 0 <= k < i + 1 && results[..i + 1][k].category == x;
      if k < i {
        assert results[..i][k] == results[k];
      }
    }
    assert results[..i + 1][i] == results[i];
  }

  /** The first pass of `_calculate_category_stats`: each category seen with its total and correct counts. */
  method CountCategories(results: seq<ResultRecord>) returns (counts: map<string, CategoryStats>)
    ensures counts.Keys == CategoriesOf(results)
    ensures forall c :: c in counts ==> counts[c] == CategoryStats(CountIn(results, c), CorrectIn(results, c), None)
  {
    counts := map[];
    var i := 0;
    while i < |results|
      invariant 0 <= i <= |results|
      invariant counts.Keys == CategoriesOf(results[..i])
      invariant forall c :: c in counts ==>
                  counts[c] == CategoryStats(CountIn(results[..i], c), CorrectIn(results[..i], c), None)
    {
      var category := results[i].category;
      CountStep(results, i);
      CountInSeen(results[..i], category);
      var entry := if category in counts then counts[category] else CategoryStats(0, 0, None);
      entry := entry.(total := entry.total + 1);
      if results[i].isCorrect {
        entry := entry.(correct := entry.correct + 1);
      }
      counts := counts[category := entry];
      i := i + 1;
    }
    assert results[..i] == results;
  }

  /**
   * `_calculate_category_stats`: one entry per category seen, holding how many
   * results are in it, how many of those are correct, and their ratio.
   */
  method CalculateCategoryStats(results: seq<ResultRecord>) returns (stats: map<string, CategoryStats>)
    ensures stats.Keys == CategoriesOf(results)
    ensures forall c :: c in stats ==>
              stats[c].total == CountIn(results, c) > 0
              && stats[c].correct == CorrectIn(results, c)
              && stats[c].accuracy == Some(stats[c].correct as real / stats[c].total as real)
  {
    var counts := CountCategories(results);
    forall c | c in counts
      ensures counts[c].total > 0
    {
      CountInSeen(results, c);
    }
    stats := counts;
    var pending := counts.Keys;
    while pending != {}
      invariant pending <= counts.Keys && stats.Keys == counts.Keys
      invariant forall c :: c in stats ==>
                  stats[c].total == counts[c].total && stats[c].correct == counts[c].correct
                  && stats[c].accuracy == (if c in pending then None
                                           else Some(counts[c].correct as real / counts[c].total as real))
      decreases pending
    {
      var category :| category in pending;
      var entry := stats[category];
      var accuracy := if entry.total > 0 then entry.correct as real / entry.total as real else 0.0;
      stats := stats[category := entry.(accuracy := Some(accuracy))];
      pending := pending - {category};
    }
  }

  /** Sum of the category totals over a listing of categories. */
  function TotalOver(results: seq<ResultRecord>, categories: seq<string>): nat
  {
    if categories == [] then 0 else CountIn(results, categories[0]) + TotalOver(results, categories[1..])
  }

  /** Sum of the category corrects over a listing of categories. */
  function CorrectOver(results: seq<ResultRecord>, categories: seq<string>): nat
  {
    if categories == [] then 0 else CorrectIn(results, categories[0]) + CorrectOver(results, categories[1..])
  }

  /** How often `c` appears in the listing. */
  function Mentions(categories: seq<string>, c: string): nat
  {
    if categories == [] then 0 else (if categories[0] == c then 1 else 0) + Mentions(categories[1..], c)
  }

  /** A listing without repeats mentions each of its categories once. */
  lemma {:induction false} MentionsOnce(categories: seq<string>, c: string)
    requires forall i, j :: 0 <= i < j < |categories| ==> categories[i] != categories[j]
    requires c in categories
    ensures Mentions(categories, c) == 1
  {
    if categories[0] != c {
      MentionsOnce(categories[1..], c);
    } else {
      MentionsNone(categories[1..], c);
    }
  }

  lemma {:induction false} MentionsNone(categories: seq<string>, c: string)
    requires c !in categories
    ensures Mentions(categories, c) == 0
  {
    if categories != [] {
      MentionsNone(categories[1..], c);
    }
  }

  /** One more result adds one to the sum of totals for each time its category is listed. */
  lemma {:induction false} OverSnoc(results: seq<ResultRecord>, categories: seq<string>)
    requires results != []
    ensures var last := results[|results| - 1];
            TotalOver(results, categories)
              == TotalOver(results[..|results| - 1], categories) + Mentions(categories, last.category)
            && CorrectOver(results, categories)
              == CorrectOver(results[..|results| - 1], categories) + (if last.isCorrect then Mentions(categories, last.category) else 0)
  {
    if categories != [] {
      OverSnoc(results, categories[1..]);
    }
  }

  /**
   * Over any listing of the categories seen without repeats (the dictionary's keys),
   * the totals add up to the number of results and the corrects to `correct_count`.
   */
  lemma {:induction false} CategoryTotals(results: seq<ResultRecord>, categories: seq<string>)
    requires forall i, j :: 0 <= i < j < |categories| ==> categories[i] != categories[j]
    requires forall i :: 0 <= i < |results| ==> results[i].category in categories
    ensures TotalOver(results, categories) == |results|
    ensures CorrectOver(results, categories) == CorrectCount(results)
  {
    if results == [] {
      ZeroOver(categories);
    } else {
      var init := results[..|results| - 1];
      forall i | 0 <= i < |init|
        ensures init[i].category in categories
      {
        assert init[i] == results[i];
      }
      CategoryTotals(init, categories);
      OverSnoc(results, categories);
      MentionsOnce(categories, results[|results| - 1].category);
    }
  }

  lemma {:induction false} ZeroOver(categories: seq<string>)
    ensures TotalOver([], categories) == 0 && CorrectOver([], categories) == 0
  {
    if categories != [] {
      ZeroOver(categories[1..]);
    }
  }
}
