/**
 * The model gateway seen from the strategies. The language model behind
 * `DebateEvaluator.call_model` is replaced by a script: the outcome of each
 * completion call in order, either `Raised` (the client threw, so `call_model`
 * returns `None`) or `Returned(content)` (the message content, which may itself be
 * `None` or empty). A script that runs out behaves as if every further call raised.
 *
 * Every strategy is a fixed pipeline of at most `n` calls that stops at the first
 * falsy response. `PipelineRun` states what such a pipeline does for a given script
 * (its result and the requests it sends), independently of any one strategy.
 */
module Protocol {
  import opened Wrappers
  import opened Config

  datatype Outcome = Raised | Returned(content: Option<string>)

  /** A chat completion request: `[system, user]` messages, temperature, `max_tokens`. */
  datatype Request = Request(system: SystemPrompt, user: string, temperature: real, maxTokens: nat)

  /** The dictionary every `debate_and_decide` returns. */
  datatype StrategyResult = StrategyResult(finalAnswer: Option<int>, debateLog: string)

  /** What a run did: its result and the requests it sent, one per call, in order. */
  datatype Run = Run(result: StrategyResult, requests: seq<Request>)

  /** The value `call_model` returns for an outcome. */
  function Response(o: Outcome): Option<string>
  {
    match o
    case Raised => None
    case Returned(content) => content
  }

  /** Python truthiness of the response: neither `None` nor the empty string. */
  predicate Answered(r: Option<string>)
  {
    r.Some? && |r.value| > 0
  }

  function Next(script: seq<Outcome>): Outcome
  {
    if script == [] then Raised else script[0]
  }

  function Tail(script: seq<Outcome>): seq<Outcome>
  {
    if script == [] then [] else script[1..]
  }

  /** The script left after `k` calls. */
  function After(script: seq<Outcome>, k: nat): seq<Outcome>
  {
    if k == 0 then script else Tail(After(script, k - 1))
  }

  /** The response to call number `k` (from 0). */
  function Nth(script: seq<Outcome>, k: nat): Option<string>
  {
    Response(Next(After(script, k)))
  }

  /** How much `api_call_count` grows over the first `k` calls: the calls that returned. */
  function Counted(script: seq<Outcome>, k: nat): (c: nat)
    ensures c <= k
  {
    if k == 0 then 0
    else Counted(script, k - 1) + (if Next(After(script, k - 1)).Returned? then 1 else 0)
  }

  /** One more call after `k`: the script, counter and response of call `k` seen from the state after `k` calls. */
  lemma Advance(script: seq<Outcome>, k: nat)
    ensures After(After(script, k), 1) == After(script, k + 1)
    ensures Counted(script, k) + Counted(After(script, k), 1) == Counted(script, k + 1)
    ensures Nth(After(script, k), 0) == Nth(script, k)
  {
  }

  /** Consuming `k` calls drops exactly the first `k` outcomes of the script. */
  lemma {:induction false} AfterDrops(script: seq<Outcome>, k: nat)
    ensures After(script, k) == if k <= |script| then script[k..] else []
  {
    if k > 0 {
      AfterDrops(script, k - 1);
    }
  }

  /** The counter counts exactly the scripted `Returned` outcomes among the first `k`. */
  lemma {:induction false} CountedReturned(script: seq<Outcome>, k: nat)
    requires k <= |script|
    ensures Counted(script, k) == |set i | 0 <= i < k && script[i].Returned?|
  {
    if k > 0 {
      CountedReturned(script, k - 1);
      AfterDrops(script, k - 1);
      var prev := set i | 0 <= i < k - 1 && script[i].Returned?;
      var now := set i | 0 <= i < k && script[i].Returned?;
      if script[k - 1].Returned? {
        assert now == prev + {k - 1};
      } else {
        assert now == prev;
      }
    }
  }

  /**
   * The responses a pipeline of at most `n` calls collects before it stops: the
   * longest prefix of answered responses, cut at `n`.
   */
  function Answers(script: seq<Outcome>, n: nat): (rs: seq<string>)
    ensures |rs| <= n
    ensures forall i :: 0 <= i < |rs| ==> Answered(Nth(script, i)) && rs[i] == Nth(script, i).value
    ensures |rs| < n ==> !Answered(Nth(script, |rs|))
  {
    if n == 0 then []
    else
      var prev := Answers(script, n - 1);
      if |prev| == n - 1 && Answered(Nth(script, n - 1)) then prev + [Nth(script, n - 1).value]
      else prev
  }

  /** The number of calls such a pipeline makes: one more than its answers when it stops early. */
  function Calls(script: seq<Outcome>, n: nat): (k: nat)
    ensures k <= n
  {
    var a := |Answers(script, n)|;
    if a < n then a + 1 else n
  }

  /** The answers are determined by the three facts `Answers` promises. */
  lemma AnswersUnique(script: seq<Outcome>, n: nat, done: seq<string>)
    requires |done| <= n
    requires forall i :: 0 <= i < |done| ==> Answered(Nth(script, i)) && done[i] == Nth(script, i).value
    requires |done| < n ==> !Answered(Nth(script, |done|))
    ensures Answers(script, n) == done
  {
  }

  /** Every answered call returned, so the counter covers at least the answers. */
  lemma {:induction false} CountedCoversAnswers(script: seq<Outcome>, k: nat)
    requires forall i :: 0 <= i < k ==> Answered(Nth(script, i))
    ensures Counted(script, k) == k
  {
    if k > 0 {
      CountedCoversAnswers(script, k - 1);
      assert Answered(Nth(script, k - 1));
    }
  }

  /** The part of `DebateEvaluator` a run changes: the script still to come, `api_call_count`, the requests sent. */
  datatype Gauge = Gauge(script: seq<Outcome>, apiCallCount: nat, requests: seq<Request>)

  /** From `before`, exactly the requests `sent` went out and `now` is what they left. */
  ghost predicate SentFrom(before: Gauge, now: Gauge, sent: seq<Request>)
  {
    now.script == After(before.script, |sent|)
    && now.apiCallCount == before.apiCallCount + Counted(before.script, |sent|)
    && now.requests == before.requests + sent
  }

  /** A finishing step defined on every `n` answers. */
  ghost predicate Finishes(finish: seq<string> --> StrategyResult, n: nat)
  {
    forall answers: seq<string> :: |answers| == n ==> finish.requires(answers)
  }

  /** The requests of the first `k` calls, call `j` being built from the first `j` answers. */
  function Transcript(request: seq<string> -> Request, rs: seq<string>, k: nat): (t: seq<Request>)
    requires k <= |rs| + 1
    ensures |t| == k
  {
    if k == 0 then [] else Transcript(request, rs, k - 1) + [request(rs[..k - 1])]
  }

  /** Call `j` of the transcript sends the table's request on the first `j` answers. */
  lemma {:induction false} TranscriptCalls(request: seq<string> -> Request, rs: seq<string>, k: nat)
    requires k <= |rs| + 1
    ensures forall j :: 0 <= j < k ==> Transcript(request, rs, k)[j] == request(rs[..j])
  {
    if k > 0 {
      TranscriptCalls(request, rs, k - 1);
    }
  }

  /** Later answers cannot change earlier requests. */
  lemma TranscriptPrefix(request: seq<string> -> Request, rs: seq<string>, more: seq<string>, k: nat)
    requires k <= |rs| + 1
    ensures Transcript(request, rs + more, k) == Transcript(request, rs, k)
  {
    var t1 := Transcript(request, rs + more, k);
    var t2 := Transcript(request, rs, k);
    TranscriptCalls(request, rs + more, k);
    TranscriptCalls(request, rs, k);
    forall j | 0 <= j < k
      ensures t1[j] == t2[j]
    {
      assert (rs + more)[..j] == rs[..j];
    }
  }

  /** One call more: its request is the table's request on all the answers so far. */
  lemma TranscriptStep(request: seq<string> -> Request, rs: seq<string>, more: seq<string>, n: nat)
    requires |rs| < n
    ensures Transcript(request, rs + more, |rs| + 1) == Transcript(request, rs, |rs|) + [request(rs)]
  {
    TranscriptPrefix(request, rs, more, |rs| + 1);
    assert rs[..|rs|] == rs;
  }

  /**
   * A pipeline of `n` calls: call `j` sends `request(answers so far)`; the first falsy
   * response ends the run with `failures[j]` as its log; after `n` answers the run
   * ends with `finish(answers)`.
   */
  function PipelineRun(n: nat, request: seq<string> -> Request, failures: seq<string>,
                       finish: seq<string> --> StrategyResult, script: seq<Outcome>): (r: Run)
    requires |failures| == n && Finishes(finish, n)
    ensures |r.requests| == Calls(script, n)
  {
    var rs := Answers(script, n);
    Run(if |rs| < n then StrategyResult(None, failures[|rs|]) else finish(rs),
        Transcript(request, rs, Calls(script, n)))
  }

  /** A falsy response at call `k` ends the run after exactly `k + 1` calls, with that call's failure message. */
  lemma PipelineFailsAt(n: nat, request: seq<string> -> Request, failures: seq<string>,
                        finish: seq<string> --> StrategyResult, script: seq<Outcome>, done: seq<string>)
    requires |failures| == n && Finishes(finish, n) && |done| < n
    requires forall i :: 0 <= i < |done| ==> Answered(Nth(script, i)) && done[i] == Nth(script, i).value
    requires !Answered(Nth(script, |done|))
    ensures PipelineRun(n, request, failures, finish, script)
         == Run(StrategyResult(None, failures[|done|]), Transcript(request, done, |done| + 1))
  {
    AnswersUnique(script, n, done);
  }

  /** When all `n` calls are answered the run makes exactly `n` calls and finishes on those answers. */
  lemma PipelineSucceeds(n: nat, request: seq<string> -> Request, failures: seq<string>,
                         finish: seq<string> --> StrategyResult, script: seq<Outcome>, done: seq<string>)
    requires |failures| == n && Finishes(finish, n) && |done| == n
    requires forall i :: 0 <= i < n ==> Answered(Nth(script, i)) && done[i] == Nth(script, i).value
    ensures PipelineRun(n, request, failures, finish, script) == Run(finish(done), Transcript(request, done, n))
  {
    AnswersUnique(script, n, done);
  }

  /**
   * The two ways a run ends: all `n` calls answered (then exactly `n` calls, all
   * counted, and the result is `finish` of the answers), or a falsy response at some
   * call `k < n` (then exactly `k + 1` calls and `failures[k]`).
   */
  lemma PipelineResult(n: nat, request: seq<string> -> Request, failures: seq<string>,
                       finish: seq<string> --> StrategyResult, script: seq<Outcome>)
    requires |failures| == n && Finishes(finish, n)
    ensures var r := PipelineRun(n, request, failures, finish, script);
            var rs := Answers(script, n);
            (|rs| == n ==> r.result == finish(rs) && |r.requests| == n && Counted(script, n) == n)
            && (|rs| < n ==> r.result == StrategyResult(None, failures[|rs|]) && |r.requests| == |rs| + 1)
  {
    var rs := Answers(script, n);
    if |rs| == n {
      CountedCoversAnswers(script, n);
    }
  }

  /**
   * Part way through a pipeline run that began in `start`: the answers `done` are
   * its first responses, all answered, and exactly their requests have been sent.
   */
  ghost predicate Progressed(start: Gauge, now: Gauge, request: seq<string> -> Request, n: nat, done: seq<string>)
  {
    |done| <= n
    && Answers(start.script, |done|) == done
    && SentFrom(start, now, Transcript(request, done, |done|))
  }

  /** Before the first call nothing has been answered or sent. */
  lemma ProgressedAtStart(start: Gauge, request: seq<string> -> Request, n: nat)
    ensures Progressed(start, start, request, n, [])
  {
  }

  /** Concatenation regroups freely. */
  lemma AppendAssociative<T>(a: seq<T>, b: seq<T>, c: seq<T>)
    ensures a + (b + c) == (a + b) + c
  {
  }

  /** The script and counter after call `k`, seen from the start. */
  lemma ScriptOneMore(script: seq<Outcome>, k: nat, count: nat, mid: Gauge, now: Gauge)
    requires mid.script == After(script, k) && mid.apiCallCount == count + Counted(script, k)
    requires now.script == After(mid.script, 1) && now.apiCallCount == mid.apiCallCount + Counted(mid.script, 1)
    ensures now.script == After(script, k + 1) && now.apiCallCount == count + Counted(script, k + 1)
  {
    Advance(script, k);
  }

  /** The requests after call `|done|`, seen from the start. */
  lemma RequestsOneMore(request: seq<string> -> Request, n: nat, done: seq<string>, sent: seq<Request>,
                        mid: seq<Request>, now: seq<Request>)
    requires |done| < n
    requires mid == sent + Transcript(request, done, |done|) && now == mid + [request(done)]
    ensures now == sent + Transcript(request, done, |done| + 1)
  {
    assert done[..|done|] == done;
    AppendAssociative(sent, Transcript(request, done, |done|), [request(done)]);
  }

  /** Call `|done|` after the transcript of the answers `done` completes the transcript of `|done| + 1` calls. */
  lemma SentOneMore(start: Gauge, before: Gauge, now: Gauge, request: seq<string> -> Request, n: nat,
                    done: seq<string>)
    requires |done| < n
    requires SentFrom(start, before, Transcript(request, done, |done|))
    requires SentFrom(before, now, [request(done)])
    ensures SentFrom(start, now, Transcript(request, done, |done| + 1))
  {
    ScriptOneMore(start.script, |done|, start.apiCallCount, before, now);
    RequestsOneMore(request, n, done, start.requests, before.requests, now.requests);
  }

  /** An answered call after the answered prefix `done` adds its response to the answers. */
  lemma AnswerOneMore(script: seq<Outcome>, done: seq<string>)
    requires Answers(script, |done|) == done && Answered(Nth(script, |done|))
    ensures Answers(script, |done| + 1) == done + [Nth(script, |done|).value]
  {
  }

  /** An answered call of the run, sending the table's request, extends the answers by its response. */
  lemma StepAnswered(start: Gauge, before: Gauge, now: Gauge, request: seq<string> -> Request, n: nat,
                     done: seq<string>, response: Option<string>)
    requires Progressed(start, before, request, n, done) && |done| < n
    requires response == Nth(before.script, 0) && Answered(response)
    requires SentFrom(before, now, [request(done)])
    ensures Progressed(start, now, request, n, done + [response.value])
  {
    Advance(start.script, |done|);
    AnswerOneMore(start.script, done);
    SentOneMore(start, before, now, request, n, done);
    TranscriptPrefix(request, done, [response.value], |done| + 1);
  }

  /**
   * A run that began in `start` has stopped at call `|done|`: the answers `done` came
   * first, that call's response was falsy, and the requests of all `|done| + 1` calls went out.
   */
  ghost predicate Stopped(start: Gauge, now: Gauge, request: seq<string> -> Request, n: nat, done: seq<string>)
  {
    |done| < n
    && Answers(start.script, |done|) == done && !Answered(Nth(start.script, |done|))
    && SentFrom(start, now, Transcript(request, done, |done| + 1))
  }

  /** A falsy call of the run, sending the table's request, stops it. */
  lemma StepFails(start: Gauge, before: Gauge, now: Gauge, request: seq<string> -> Request, n: nat,
                  done: seq<string>, response: Option<string>)
    requires Progressed(start, before, request, n, done) && |done| < n
    requires response == Nth(before.script, 0) && !Answered(response)
    requires SentFrom(before, now, [request(done)])
    ensures Stopped(start, now, request, n, done)
  {
    Advance(start.script, |done|);
    SentOneMore(start, before, now, request, n, done);
  }

  /** A stopped run's result is that call's failure message, and it sent exactly the run's requests. */
  lemma StoppedRun(start: Gauge, now: Gauge, request: seq<string> -> Request, n: nat,
                   failures: seq<string>, finish: seq<string> --> StrategyResult, done: seq<string>)
    requires Stopped(start, now, request, n, done)
    requires |failures| == n && Finishes(finish, n)
    ensures var run := PipelineRun(n, request, failures, finish, start.script);
            run.result == StrategyResult(None, failures[|done|]) && SentFrom(start, now, run.requests)
  {
    PipelineFailsAt(n, request, failures, finish, start.script, done);
  }

  /** After all `n` calls answered, the run finishes on the answers, having sent exactly its requests. */
  lemma Finished(start: Gauge, now: Gauge, request: seq<string> -> Request, n: nat,
                 failures: seq<string>, finish: seq<string> --> StrategyResult, done: seq<string>)
    requires Progressed(start, now, request, n, done) && |done| == n
    requires |failures| == n && Finishes(finish, n)
    ensures var run := PipelineRun(n, request, failures, finish, start.script);
            run.result == finish(done) && SentFrom(start, now, run.requests)
  {
    PipelineSucceeds(n, request, failures, finish, start.script, done);
  }
}
