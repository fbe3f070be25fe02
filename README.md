# MAD: a verified model of the multi-agent debate benchmark

MAD runs multiple-choice questions (options 0 to 9) through one of four answering
strategies and scores the answers. The strategies share one `DebateEvaluator`, which
wraps the chat-completion API and counts the calls that returned. The four strategies are:

- **single agent**: one call.
- **Society of Minds (SoM)**: five specialists in sequence, each seeing the question
  and every earlier answer.
- **Angel & Demon**: three rounds of defence and critique, followed by the Angel's
  final synthesis. There are seven calls.
- **ChatEval**: three judges answer independently, then each revises after reading
  the two peers' first answers, then a moderator decides. There are seven calls.

Every strategy stops at the first call that fails or returns empty text. It then
reports a fixed failure message for that step. Otherwise it extracts the final digit
from the last answer and returns it with a debate log. `evaluate_strategy` caps the
dataset, runs the strategy once per question in order, records each result and log,
and computes the accuracy and the per-category statistics. `main` loads the dataset,
caps it, dispatches on the strategy name and evaluates.

## How the model is built

- **The API is a script.** The remote model is a sequence of `Outcome`s: `Raised` for
  an exception, `Returned(text)` for a completion. `Gateway.DebateEvaluator.CallModel`
  consumes one outcome and raises `apiCallCount` only for a `Returned` one. It also
  records the request (system prompt, user text, temperature, token limit) in a ghost
  list, so every proof can state exactly which requests a strategy sent.
- **Each strategy is a class.** Its `DebateAndDecide` is a straight-line method
  mirroring the Python. It is proved equal to a specification function (`SomRun`,
  `AngelDemonRun`, `ChatEvalRun`, `SingleAgentRun`). Those functions are built from
  two parts:
  - `Protocol.PipelineRun`: "call n times, stop at the first falsy answer".
  - A per-step request table defined independently of the method. It uses
    placeholder maps, the peer list `ChatEval.Others`, and `Text.Join`.
- **Prompt templates are literal.** Each prompt template is the configured text, split
  at its `{placeholders}` into chunks (`Templates.Template`). `Templates.Format` models
  `str.format`: it fails exactly when a placeholder has no keyword.
- **Two evaluation levels.** `Evaluation.EvaluateStrategy` is the loop. `Evaluation.Report`
  and `Evaluation.Session` are its specification: what the records, logs, accuracy and
  request sequence of a whole run are.

## Model

| member | source | states |
|---|---|---|
| Text.Lower | MAD/evaluator.py:43 | ASCII upper-case letters map to lower case and every other character is kept; the tag match compares characters after this ASCII case folding |
| Config.MAX_TOKENS | MAD/configs/config.py:27 | the default token limit, 500; every debate call without an explicit limit uses it (AngelDemon.Speakers, ChatEval.PanelSpeakers, SocietyOfMinds.SomTokenLimits) |
| Config.TEMPERATURE | MAD/configs/config.py:26 | the debate temperature, 0.3; every SoM, Angel & Demon and ChatEval request carries it (the request lemmas below) |
| Text.Join | MAD/som.py:96 | `sep.join(xs)`: the parts in order, one separator between neighbours; its length and the position of each part are proved in Text.JoinLength and Text.JoinSection |
| Text.DigitValue | MAD/evaluator.py:45 | the value `int()` gives a single decimal digit lies in 0..9 |
| Text.DigitChar | MAD/evaluator.py:61 | the digit character for 0..9 is a digit whose value is the input |
| Text.JoinLength | MAD/som.py:96 | the length of `sep.join(xs)` is the sum of the parts' lengths plus one separator between each pair |
| Text.JoinSection | MAD/angel_demon.py:214 | each part of a `'\n'.join` appears verbatim at its computed offset inside the joined text |
| Text.NatToString | MAD/evaluator.py:61 | the decimal rendering of an option index is a non-empty string of digits |
| Text.NatToStringRoundTrip | MAD/evaluator.py:61 | reading the rendered index back gives the index, and there is no leading zero |
| Text.OccurrencesAppend | MAD/evaluator.py:60-61 | counting a character is additive over concatenation |
| AnswerExtractor.RegexTagMatch | MAD/evaluator.py:42 | the meaning of `FINAL_ANSWER:\s*(\d)` at p with its group at g: the tag (ASCII case ignored), any run of whitespace, a digit; the independent definition that AnswerExtractor.TagMatchIsRegexMatch relates the greedy matcher to |
| AnswerExtractor.TagMatchAt | MAD/evaluator.py:42-43 | the tag matches at p when the first non-whitespace character after it is a digit; equivalent to the regex by AnswerExtractor.TagMatchIsRegexMatch |
| AnswerExtractor.SkipSpaces | MAD/evaluator.py:42 | the `\s*` after the tag consumes exactly the maximal run of whitespace |
| AnswerExtractor.TagMatchIsRegexMatch | MAD/evaluator.py:42-43 | a tag match at p, ending at g, is exactly a match of `FINAL_ANSWER:\s*(\d)` (ignoring ASCII case) starting at p |
| AnswerExtractor.TagDigit | MAD/evaluator.py:45 | the captured group converts to a value in 0..9 |
| AnswerExtractor.FindTag | MAD/evaluator.py:43 | `re.search` finds the leftmost tag match, or reports that none exists |
| AnswerExtractor.LastIsolatedDigit | MAD/evaluator.py:48-50 | `digits[-1]` is the last digit with a non-word character (or an end of text) on both sides, or there is none |
| AnswerExtractor.ExtractFinalAnswer | MAD/evaluator.py:37-52 | an absent or empty response gives None, and any extracted answer is a digit 0..9 |
| AnswerExtractor.ExtractTagged | MAD/evaluator.py:42-46 | when a tag occurs, the answer is the digit of the first tag, whatever other digits the text holds |
| AnswerExtractor.ExtractUntagged | MAD/evaluator.py:48-50 | without a tag, the answer is the last isolated digit |
| AnswerExtractor.ExtractNone | MAD/evaluator.py:52 | None for a non-empty text exactly when it has neither a tag nor an isolated digit |
| Questions.QuestionText | MAD/evaluator.py:54-63 | the `format_question` text: the question header, then one line per option; the position and label of each line are proved in Questions.OptionLineAt and Questions.OptionLabel |
| Questions.OptionLines | MAD/evaluator.py:60-61 | the loop's lines for options 0..n-1 in order; see Questions.OptionLineAt and Questions.OneLinePerOption |
| Questions.OptionLineAt | MAD/evaluator.py:60-61 | the line for option i sits in the formatted options right after the lines for options 0..i-1 |
| Questions.OptionLabel | MAD/evaluator.py:61 | each option line starts with its index in decimal followed by ". " |
| Questions.OneLinePerOption | MAD/evaluator.py:60-61 | with single-line options the options block holds exactly one newline per option |
| Questions.DigitsHaveNoNewline | MAD/evaluator.py:61 | an index rendering contains no newline |
| Templates.Format | MAD/angel_demon.py:53 | `template.format(**keywords)`: each placeholder replaced by its keyword's value, None where `format` raises `KeyError`; see Templates.FormatSucceeds, Templates.FormatSeesOnlySlots and Templates.FormatContainsSlotValue |
| Templates.FormatChunks | MAD/angel_demon.py:53 | the fill of a template's literal pieces and placeholders from left to right; see Templates.ChunksFilled |
| Templates.FormatSucceeds | MAD/angel_demon.py:140-148 | `str.format` succeeds exactly when every placeholder has a keyword |
| Templates.FormatSeesOnlySlots | MAD/chateval.py:130-138 | keywords that are not placeholders have no effect on the formatted prompt |
| Templates.FormatContainsSlotValue | MAD/angel_demon.py:63-66 | the value of every placeholder appears verbatim in the formatted prompt |
| Protocol.Counted | MAD/evaluator.py:29 | the counter never rises by more than the number of calls made |
| Protocol.Advance | MAD/evaluator.py:17-35 | consuming one more outcome moves the script on by one, and adds that one outcome's contribution to the counter |
| Protocol.AfterDrops | MAD/evaluator.py:17-35 | the script left after k calls is the script without its first k outcomes, or empty past its end |
| Protocol.CountedReturned | MAD/evaluator.py:29 | the counter after k calls is the number of those k outcomes that returned, so exceptions are not counted |
| Protocol.Answers | MAD/som.py:40-70 | the answers a pipeline gets are the longest prefix of truthy responses, and the next response is falsy when it stops short |
| Protocol.Calls | MAD/som.py:36-70 | a pipeline of n steps makes at most n calls |
| Protocol.AnswersUnique | MAD/som.py:40-70 | any prefix of truthy responses that stops at a falsy one (or at n) is the answers |
| Protocol.CountedCoversAnswers | MAD/evaluator.py:29 | calls that all gave non-empty text were all counted |
| Protocol.Transcript | MAD/som.py:36-70 | k steps send k requests |
| Protocol.TranscriptCalls | MAD/som.py:36-70 | request j is built from exactly the first j answers |
| Protocol.TranscriptPrefix | MAD/som.py:36-70 | later answers do not change earlier requests |
| Protocol.TranscriptStep | MAD/som.py:36-70 | one more step appends exactly one request |
| Protocol.PipelineRun | MAD/som.py:22-84 | a pipeline sends as many requests as it makes calls |
| Protocol.PipelineFailsAt | MAD/som.py:40-41 | a falsy response at step k returns failure message k with no answer, after sending k+1 requests |
| Protocol.PipelineSucceeds | MAD/som.py:72-84 | when all n responses are truthy, the result is the finishing step applied to them, after n requests |
| Protocol.PipelineResult | MAD/som.py:22-84 | a pipeline either completes with n counted calls or stops after \|answers\|+1 requests with that step's message |
| Protocol.StepAnswered | MAD/som.py:44-48 | a call whose response is truthy extends the bookkeeping by that answer and its request |
| Protocol.StepFails | MAD/som.py:47-48 | a call whose response is falsy leaves a stopped pipeline |
| Protocol.StoppedRun | MAD/som.py:47-48 | a stopped pipeline's result is that step's failure message, and exactly its requests were sent |
| Protocol.Finished | MAD/som.py:72-84 | a completed pipeline's result is the finishing step, and exactly its requests were sent |
| Gateway.DebateEvaluator.constructor | MAD/evaluator.py:12-15 | a new evaluator has counted no calls |
| Gateway.DebateEvaluator.CallModel | MAD/evaluator.py:17-35 | the call consumes one outcome, returns its text or None for an exception, counts it only when it returned, and records the request |
| Gateway.DebateEvaluator.FormatQuestion | MAD/evaluator.py:54-63 | the formatted question is the question header, then one numbered line per option |
| DebateLogs.Render | MAD/chateval.py:170-204 | the rendered log has one section per layout item |
| DebateLogs.EntryVerbatim | MAD/angel_demon.py:180-214 | every response appears verbatim in the log, after all sections laid out before it |
| AngelDemonConfig.Round1AngelSlots | MAD/configs/angel_demon_config.py:49-55 | the Angel's first prompt has only the question as placeholder |
| AngelDemonConfig.Round1DemonSlots | MAD/configs/angel_demon_config.py:57-66 | the Demon's first critique sees only the Angel's first answer |
| AngelDemonConfig.Round2AngelSlots | MAD/configs/angel_demon_config.py:68-79 | the Angel's defence sees the first exchange |
| AngelDemonConfig.Round2DemonSlots | MAD/configs/angel_demon_config.py:81-90 | the Demon's second critique sees the first three answers |
| AngelDemonConfig.Round3AngelSlots | MAD/configs/angel_demon_config.py:92-105 | the Angel's consolidation sees the first four answers |
| AngelDemonConfig.Round3DemonSlots | MAD/configs/angel_demon_config.py:107-118 | the Demon's final challenge sees the first five answers |
| AngelDemonConfig.FinalSynthesisSlots | MAD/configs/angel_demon_config.py:122-140 | the final synthesis names the question and five answers, but not the Demon's third critique |
| ChatEvalConfig.Round1JudgeSlots | MAD/configs/chateval_config.py:61-74 | a first-round judge sees only the question |
| ChatEvalConfig.Round2JudgeSlots | MAD/configs/chateval_config.py:78-102 | a revising judge sees three first-round answers and not the question |
| ChatEvalConfig.ModeratorLayoutSlots | MAD/configs/chateval_config.py:106-148 | the moderator layout names the question and all six judge answers |
| ChatEvalConfig.ModeratorSlots | MAD/configs/chateval_config.py:106-148 | the configured moderator prompt has exactly those seven placeholders |
| AngelDemonConfig.ROUND_1_ANGEL | MAD/configs/angel_demon_config.py:49-55 | the configured text of the Angel's opening prompt, split at its placeholders (AngelDemonConfig.Round1AngelSlots) |
| AngelDemonConfig.ROUND_1_DEMON | MAD/configs/angel_demon_config.py:57-66 | the configured text of the Demon's first critique prompt (AngelDemonConfig.Round1DemonSlots) |
| AngelDemonConfig.ROUND_2_ANGEL | MAD/configs/angel_demon_config.py:68-79 | the configured text of the Angel's defence prompt (AngelDemonConfig.Round2AngelSlots) |
| AngelDemonConfig.ROUND_2_DEMON | MAD/configs/angel_demon_config.py:81-90 | the configured text of the Demon's second critique prompt (AngelDemonConfig.Round2DemonSlots) |
| AngelDemonConfig.ROUND_3_ANGEL | MAD/configs/angel_demon_config.py:92-105 | the configured text of the Angel's consolidation prompt (AngelDemonConfig.Round3AngelSlots) |
| AngelDemonConfig.ROUND_3_DEMON | MAD/configs/angel_demon_config.py:107-118 | the configured text of the Demon's final challenge prompt (AngelDemonConfig.Round3DemonSlots) |
| AngelDemonConfig.FINAL_ANGEL_SYNTHESIS | MAD/configs/angel_demon_config.py:122-140 | the configured text of the final synthesis prompt (AngelDemonConfig.FinalSynthesisSlots) |
| AngelDemonConfig.ANGEL_DEMON_CONFIG | MAD/configs/angel_demon_config.py:143-193 | the persona table and the configured 7 calls per question, checked against the run by AngelDemon.ConfigCallCount and AngelDemon.FinalDecisionMakerSpeaksLast |
| ChatEvalConfig.ROUND_1_JUDGE_TEMPLATE | MAD/configs/chateval_config.py:61-74 | the configured first-round judge prompt (ChatEvalConfig.Round1JudgeSlots) |
| ChatEvalConfig.ROUND_2_JUDGE_TEMPLATE | MAD/configs/chateval_config.py:78-102 | the configured revision prompt (ChatEvalConfig.Round2JudgeSlots) |
| ChatEvalConfig.MODERATOR_TEMPLATE | MAD/configs/chateval_config.py:106-148 | the configured moderator prompt (ChatEvalConfig.ModeratorSlots) |
| ChatEvalConfig.CHATEVAL_CONFIG | MAD/configs/chateval_config.py:151-199 | the judge table and the configured 7 calls per question, checked by ChatEval.PanelConfigAgrees, ChatEval.PanelCallCount and ChatEval.ModeratorSpeaksLast |
| SingleAgent.SingleAgentRun | MAD/single_agent.py:13-37 | the single agent sends exactly one request |
| SingleAgent.SingleAgentOutcome | MAD/single_agent.py:19-37 | one request, made with temperature 0.1 and 50 tokens and holding the question plus the answer-format reminder; a truthy response gives its extracted digit with the response as log, otherwise "API call failed" |
| SingleAgent.SingleAgentStrategy.constructor | MAD/single_agent.py:9-11 | `use_direct_answer` selects the direct-answer or the step-by-step system prompt |
| SingleAgent.SingleAgentStrategy.DebateAndDecide | MAD/single_agent.py:13-37 | the result and the requests sent are those of the single-agent run on the evaluator's script |
| SocietyOfMinds.SomSections | MAD/som.py:86-95 | the SoM log has six sections |
| SocietyOfMinds.GenerateDebateLog | MAD/som.py:86-96 | the SoM log: the six sections joined by newlines; the order of the outputs in it is proved in SocietyOfMinds.SomLogInOrder |
| SocietyOfMinds.SomContext | MAD/som.py:45-65 | the user text of agent j: the question and the j earlier outputs, separated by blank lines (SocietyOfMinds.SomContextInOrder) |
| SocietyOfMinds.SomRequest | MAD/som.py:36-70 | the request of agent j: its system prompt, its context, TEMPERATURE, and 50 tokens for the integrator (SocietyOfMinds.SomSecondRequest … SomFifthRequest, SomTokenLimits) |
| SocietyOfMinds.SomRun | MAD/som.py:22-84 | SoM sends between one and five requests |
| SocietyOfMinds.SomStops | MAD/som.py:40-70 | a stopped SoM run reports the failing agent's message and sent exactly its requests |
| SocietyOfMinds.SomOutcome | MAD/som.py:36-84 | when all five agents answer, the answer is the integrator's digit; otherwise the failing agent's message after \|answers\|+1 requests |
| SocietyOfMinds.SomAnswerFromIntegrator | MAD/som.py:73 | the final answer depends only on the integrator's response |
| SocietyOfMinds.SomTokenLimits | MAD/som.py:19 | an agent gets 50 tokens exactly when it is the integrator |
| SocietyOfMinds.SomContextInOrder | MAD/som.py:65 | each agent's context starts with the question, and every earlier answer appears verbatim in it, in order |
| SocietyOfMinds.SomLogInOrder | MAD/som.py:86-96 | each agent's output appears in the log under its heading, after every earlier section |
| SocietyOfMinds.SomSecondRequest | MAD/som.py:44-46 | the expert gets the question and the decomposition |
| SocietyOfMinds.SomThirdRequest | MAD/som.py:51-53 | the reasoner gets the question and the first two answers |
| SocietyOfMinds.SomFourthRequest | MAD/som.py:58-60 | the critic gets the question and the first three answers |
| SocietyOfMinds.SomFifthRequest | MAD/som.py:65-68 | the integrator gets the question and all four answers, with a 50-token limit |
| SocietyOfMinds.SoMStrategy.constructor | MAD/som.py:9-10 | the strategy uses the given evaluator |
| SocietyOfMinds.SoMStrategy.CallAgent | MAD/som.py:12-20 | one call that returns the next scripted outcome, extending or stopping the pipeline bookkeeping |
| SocietyOfMinds.SoMStrategy.DebateAndDecide | MAD/som.py:22-84 | the result and the requests sent are those of the SoM run on the evaluator's script |
| AngelDemon.ConfigTemplatesShaped | MAD/configs/angel_demon_config.py:49-140 | the seven configured templates have, in order, the placeholders the debate fills at each step |
| AngelDemon.Keywords | MAD/angel_demon.py:53-148 | the keyword arguments of call j: the question text and each earlier response under its own name (AngelDemon.KeywordsNameThePast) |
| AngelDemon.AngelDemonRequest | MAD/angel_demon.py:53-155 | the request of call j: the speaking persona's prompt, its template filled from the keywords, TEMPERATURE, and 100 tokens for the synthesis (AngelDemon.Speakers and the per-round request lemmas) |
| AngelDemon.AngelDemonLog | MAD/angel_demon.py:180-214 | the Angel & Demon log: the fixed headings with the question and the seven responses (AngelDemon.LogSections, AngelDemon.LogInOrder) |
| AngelDemon.KeywordsNameThePast | MAD/angel_demon.py:53-148 | the keywords available at a step are the question and exactly the responses received so far |
| AngelDemon.SlotsSeeThePast | MAD/angel_demon.py:53-148 | every prompt names only earlier responses, and the question only in the first and last prompts |
| AngelDemon.FillingNeverFails | MAD/angel_demon.py:53-148 | no `format` call of the debate can fail for a missing keyword |
| AngelDemon.AngelDemonRun | MAD/angel_demon.py:30-178 | the debate sends between one and seven requests |
| AngelDemon.AngelDemonStops | MAD/angel_demon.py:59-158 | a stopped debate reports that step's message ("Angel Round 1 failed" … "Final synthesis failed") |
| AngelDemon.AngelDemonOutcome | MAD/angel_demon.py:30-178 | a complete debate answers with the synthesis' digit after seven requests; otherwise the failing step's message after \|answers\|+1 requests |
| AngelDemon.AnswerFromSynthesis | MAD/angel_demon.py:161 | the final answer depends only on the synthesis response |
| AngelDemon.Speakers | MAD/angel_demon.py:53-158 | the Angel speaks at steps 0, 2, 4 and 6 and the Demon at 1, 3 and 5; only the synthesis is capped at 100 tokens |
| AngelDemon.DebateTurnsIgnoreQuestion | MAD/angel_demon.py:63-137 | the five prompts between the Angel's first analysis and the final synthesis (calls 2–6: Demon 1, Angel 2, Demon 2, Angel 3, Demon 3) do not depend on the question |
| AngelDemon.SynthesisIgnoresLastCritique | MAD/angel_demon.py:140-148 | the synthesis prompt is the same whatever the Demon's third critique says |
| AngelDemon.ResponseReachesPrompt | MAD/angel_demon.py:63-148 | a response reaches, verbatim, every later prompt whose template names it |
| AngelDemon.LogSections | MAD/angel_demon.py:180-214 | the debate log is the fixed headings and the eight texts joined by newlines |
| AngelDemon.LogInOrder | MAD/angel_demon.py:180-214 | the question and each response appear verbatim in the log, in debate order |
| AngelDemon.ConfigCallCount | MAD/configs/angel_demon_config.py:192 | a complete debate sends exactly the configured number of calls per question |
| AngelDemon.FinalDecisionMakerSpeaksLast | MAD/configs/angel_demon_config.py:147-162 | the configured final decision maker is the persona that makes the last call |
| AngelDemon.AngelRound1Request | MAD/angel_demon.py:53-58 | the Angel's first request is its template filled with the question |
| AngelDemon.DemonRound1Request | MAD/angel_demon.py:63-70 | the Demon's first request is its template filled from the Angel's first answer |
| AngelDemon.AngelRound2Request | MAD/angel_demon.py:77-85 | the Angel's defence request is filled from the first exchange |
| AngelDemon.DemonRound2Request | MAD/angel_demon.py:91-100 | the Demon's second request is filled from the first three answers |
| AngelDemon.AngelRound3Request | MAD/angel_demon.py:107-117 | the Angel's consolidation request is filled from the first four answers |
| AngelDemon.DemonRound3Request | MAD/angel_demon.py:123-134 | the Demon's final request is filled from the first five answers |
| AngelDemon.FinalSynthesisRequest | MAD/angel_demon.py:140-155 | the synthesis request is filled from the question and all six answers, with 100 tokens |
| AngelDemon.FinishOf | MAD/angel_demon.py:161-178 | a finished debate returns the synthesis' digit and the structured log |
| AngelDemon.AngelDemonFinishes | MAD/angel_demon.py:161-178 | after seven truthy responses, the method's result and requests are the run's |
| AngelDemon.AngelDemonStrategy.constructor | MAD/angel_demon.py:11-12 | the strategy uses the given evaluator and the configured templates |
| AngelDemon.AngelDemonStrategy.CallPersona | MAD/angel_demon.py:14-28 | one call with the configured temperature and the token limit, or MAX_TOKENS when none is given; it returns the next scripted outcome |
| AngelDemon.AngelDemonStrategy.GenerateDebateLog | MAD/angel_demon.py:180-214 | the method builds the log the specification defines |
| AngelDemon.AngelDemonStrategy.DebateAndDecide | MAD/angel_demon.py:30-178 | the result and the requests sent are those of the Angel & Demon run on the evaluator's script |
| ChatEval.ConfigPanelShaped | MAD/configs/chateval_config.py:61-148 | the three configured templates have the placeholders the panel fills |
| ChatEval.Others | MAD/chateval.py:83-125 | each judge has the two other judges as peers |
| ChatEval.OthersArePeers | MAD/chateval.py:83-125 | a judge's peers are exactly the other judges, in increasing order |
| ChatEval.RevisionKeywords | MAD/chateval.py:83-125 | the keyword arguments of judge i's revision: its own first answer, then its two peers' first answers in panel order (ChatEval.Judge1Round2Request … Judge3Round2Request) |
| ChatEval.SynthesisKeywords | MAD/chateval.py:130-138 | the moderator's keyword arguments: the question and the six judge answers by judge and round (ChatEval.ModeratorRequest) |
| ChatEval.ChatEvalRequest | MAD/chateval.py:50-145 | the request of call j: the judge prompt for calls 0-5 and the moderator's for call 6, the filled template, TEMPERATURE, and 200 tokens for the moderator (ChatEval.PanelSpeakers and the request lemmas) |
| ChatEval.ChatEvalLog | MAD/chateval.py:170-204 | the ChatEval log: the fixed headings with the question and the seven responses (ChatEval.PanelLogSections, ChatEval.PanelLogInOrder) |
| ChatEval.PanelFillingNeverFails | MAD/chateval.py:50-138 | no `format` call of the panel can fail for a missing keyword |
| ChatEval.ChatEvalRun | MAD/chateval.py:30-168 | the panel sends between one and seven requests |
| ChatEval.ChatEvalStops | MAD/chateval.py:56-148 | a stopped panel reports that step's message ("Judge 1 Round 1 failed" … "Moderator synthesis failed") |
| ChatEval.ChatEvalOutcome | MAD/chateval.py:30-168 | a complete panel answers with the moderator's digit after seven requests; otherwise the failing step's message after \|answers\|+1 requests |
| ChatEval.AnswerFromModerator | MAD/chateval.py:151 | the final answer depends only on the moderator's response |
| ChatEval.PanelSpeakers | MAD/chateval.py:50-148 | judges make the six first calls and the moderator the last, the only one capped at 200 tokens |
| ChatEval.Round1Independent | MAD/chateval.py:50-77 | the three first-round judges receive the same request, whatever the others answered |
| ChatEval.RevisionSeesOnlyRound1 | MAD/chateval.py:83-125 | a revision depends only on the first-round answers, not on other revisions |
| ChatEval.RevisionIgnoresQuestion | MAD/chateval.py:83-125 | revision requests do not depend on the question |
| ChatEval.RevisionSeesRound1 | MAD/chateval.py:83-125 | every first-round answer appears verbatim in every revision request |
| ChatEval.ModeratorSeesAll | MAD/chateval.py:130-138 | the question and all six judge answers appear verbatim in the moderator's request |
| ChatEval.PanelLogSections | MAD/chateval.py:170-204 | the panel log is the fixed headings and the eight texts joined by newlines |
| ChatEval.PanelLogInOrder | MAD/chateval.py:170-204 | the question and each response appear verbatim in the log, in panel order |
| ChatEval.PanelCallCount | MAD/configs/chateval_config.py:198 | a complete panel sends exactly the configured number of calls per question |
| ChatEval.PanelConfigAgrees | MAD/configs/chateval_config.py:151-199 | the configured call count is judges × rounds + 1, and every judge takes part in rounds 1 and 2 with the judge prompt |
| ChatEval.ModeratorSpeaksLast | MAD/configs/chateval_config.py:174-179 | the configured final-round participant's prompt is the one of the last call |
| ChatEval.Round1Request | MAD/chateval.py:50-77 | a first-round request is the judge template filled with the question |
| ChatEval.Judge1Round2Request | MAD/chateval.py:83-92 | judge 1 revises with its own answer, then judge 2's and judge 3's |
| ChatEval.Judge2Round2Request | MAD/chateval.py:98-107 | judge 2 revises with its own answer, then judge 1's and judge 3's |
| ChatEval.Judge3Round2Request | MAD/chateval.py:113-122 | judge 3 revises with its own answer, then judge 1's and judge 2's |
| ChatEval.ModeratorRequest | MAD/chateval.py:130-145 | the moderator's request is filled from the question and all six judge answers, with 200 tokens |
| ChatEval.PanelFinishOf | MAD/chateval.py:151-168 | a finished panel returns the moderator's digit and the structured log |
| ChatEval.ChatEvalFinishes | MAD/chateval.py:151-168 | after seven truthy responses, the method's result and requests are the run's |
| ChatEval.ChatEvalStrategy.constructor | MAD/chateval.py:11-12 | the strategy uses the given evaluator and the configured templates |
| ChatEval.ChatEvalStrategy.CallJudge | MAD/chateval.py:14-28 | one call with the configured temperature and the token limit, or MAX_TOKENS when none is given; it returns the next scripted outcome |
| ChatEval.ChatEvalStrategy.GenerateDebateLog | MAD/chateval.py:170-204 | the method builds the log the specification defines |
| ChatEval.ChatEvalStrategy.DebateAndDecide | MAD/chateval.py:30-168 | the result and the requests sent are those of the ChatEval run on the evaluator's script |
| Evaluation.PlanRun | MAD/evaluator.py:92 | any strategy sends at least one and at most its maximum number of requests per question |
| Evaluation.Decide | MAD/evaluator.py:92 | dispatching `debate_and_decide` gives the strategy's run result and sends its requests |
| Evaluation.Capped | MAD/evaluator.py:72-74 | the question cap; its prefix, size and idempotence are proved in Evaluation.CappedPrefix and Evaluation.CappedIdempotent |
| Evaluation.CappedPrefix | MAD/evaluator.py:72-74 | the cap keeps a prefix: all questions when the limit is absent, 0 or not below the size; exactly `max_q` when 0 < `max_q` < size; none for a negative limit |
| Evaluation.CappedIdempotent | MAD/main.py:84-86 | capping twice (in `main` and again in `evaluate_strategy`) is capping once |
| Evaluation.Session | MAD/evaluator.py:84-131 | one result per question |
| Evaluation.SessionCalls | MAD/evaluator.py:84-131 | a session sends at least one request per question and at most the maximum per question times the number of questions |
| Evaluation.SessionPrefix | MAD/evaluator.py:84-131 | the results for the first k questions do not depend on the later questions |
| Evaluation.Records | MAD/evaluator.py:106-113 | one result record per question |
| Evaluation.Logs | MAD/evaluator.py:116-124 | one debate-log record per question |
| Evaluation.RecordsAt | MAD/evaluator.py:85-124 | record i and log i are built from question i and its outcome |
| Evaluation.CorrectCount | MAD/evaluator.py:134 | the correct count never exceeds the number of results |
| Evaluation.Accuracy | MAD/evaluator.py:135 | `correct_count / total_questions`, or 0 with no questions (Evaluation.AccuracyBounds) |
| Evaluation.Report | MAD/evaluator.py:65-155 | the `(accuracy, results, debate_logs)` that `evaluate_strategy` returns on the session's outcomes (Evaluation.ReportRecords, Evaluation.EvaluateStrategy) |
| Evaluation.ReportRecords | MAD/evaluator.py:85-124 | each record carries the question's id (or its index), its category (or "Unknown"), the strategy's answer, and correctness exactly when both the answer and the key are present and equal |
| Evaluation.AccuracyBounds | MAD/evaluator.py:135 | accuracy lies in [0, 1]; it is 0 with no correct answers (or no questions) and 1 when all are correct |
| Evaluation.AllCorrect | MAD/evaluator.py:134 | when every record is correct the count is the number of records |
| Evaluation.EvaluateStrategy | MAD/evaluator.py:65-155 | the returned report is the specification's report on the capped questions, and exactly the session's requests were sent |
| Evaluation.EvaluateQuestions | MAD/evaluator.py:84-131 | the loop's records and logs are the specification's, in question order |
| Evaluation.CorrectIn | MAD/evaluator.py:166-168 | a category's correct count never exceeds its total |
| Evaluation.CountInSeen | MAD/evaluator.py:162-166 | a category has a positive total exactly when some result belongs to it |
| Evaluation.CountCategories | MAD/evaluator.py:159-168 | the counting pass: the keys are exactly the categories that occur, each with its result count and its correct count |
| Evaluation.CalculateCategoryStats | MAD/evaluator.py:157-174 | the keys are exactly the categories that occur; each holds its result count, its correct count and their quotient |
| Evaluation.CategoryTotals | MAD/evaluator.py:157-174 | summed over distinct categories, the totals give the number of results and the correct counts give the overall correct count |
| Benchmark.ParseStrategyNameExact | MAD/main.py:15-30 | exactly the four names are recognised, each selecting its own strategy |
| Benchmark.ParseStrategyName | MAD/main.py:17-30 | the branch of the `if`/`elif` chain a name takes, None for the `else` that raises (Benchmark.ParseStrategyNameExact) |
| Benchmark.NewChatEval | MAD/main.py:26-28 | a new ChatEval strategy on the evaluator |
| Benchmark.NewAngelDemon | MAD/main.py:23-25 | a new Angel & Demon strategy on the evaluator |
| Benchmark.LoadStrategy | MAD/main.py:15-30 | a known name loads its strategy on the evaluator (the single agent with the direct-answer prompt); any other name fails with "Unknown strategy: " + name |
| Benchmark.RunBenchmark | MAD/main.py:33-137 | a failed load stops first; an unknown strategy stops before evaluating; otherwise the report is that of the capped questions, and the final `api_call_count` is the number of calls that returned |

## Left out

- Network, clocks and randomness. The API is a scripted sequence of outcomes, so timeouts and the completion object are not modelled. An exhausted script behaves as a raised exception.
- `response_time`, `timestamp`, `time.sleep(request_delay)` and the elapsed-time printouts are left out. They are clock values and delays.
- The `print` and `tqdm` output, `_print_summary`, `_save_unified_logs`, `visualize_results.py` and the category printout at the end of `main` are left out. They are I/O. The category statistics are computed by `Evaluation.CalculateCategoryStats`, but in the source they feed only printing and saving, so `Evaluation.Report` does not hold them.
- Dataset loading is left out: `load_from_disk`, `load_dataset` and the fallback to the first available split. `Benchmark.RunBenchmark` takes the load's outcome as a parameter.
- The configuration constants of `main` (the strategy name and `max_questions`) are parameters of `Benchmark.RunBenchmark`.
- The `except NotImplementedError` branch of `main` is left out. `load_strategy` only raises `ValueError`, which the second `except` catches.
- The `except` around `evaluate_strategy` in `main` is left out. The modelled evaluation does not raise.
- Accuracy is an exact `real`, not a float. Rounding, and `:.2%` formatting, are not modelled.
- The regular expressions use ASCII classes for `\d`, `\s` and `\b` (word characters are ASCII letters, digits and `_`). Python's Unicode digits and spaces are not modelled.
- AnswerExtractor.TagMatchIsRegexMatch: case-insensitive matching is ASCII-only. Python's `re.IGNORECASE` also matches 'ı' (U+0131) and 'İ' (U+0130) with `I`, and 'ſ' (U+017F) with `S`. For example, Python reads the answer 3 from the tag in `"fınal_answer: 3 then 5"`, but the model finds no tag there and returns 5, the last isolated digit.
- `AnswerExtractor.ExtractFinalAnswer` does not model `.strip()`. It searches the text as given. Stripping whitespace cannot create or remove a tag match or an isolated digit, but that is not proved.
- System prompts are opaque tags (`Config.SystemPrompt`). Their text is only sent to the API and never formatted or inspected.
- `som_config.py` is not part of this model. SoM's five system prompts are opaque tags.
- Angel & Demon reads `category` from the question (default "general") into a local it never uses, and the model does the same in `AngelDemon.AngelDemonStrategy.DebateAndDecide`. That method's contract depends on the question only through `Questions.QuestionText`, which ignores `category`.
- `debate_log` defaults to `''` when absent. Every strategy always returns a log, so that default is never taken and is not modelled.
- The request tables are total: asked for a step past the last, they repeat the last request. That case never arises in a run.
- The debate templates are a field that the constructors of `AngelDemonStrategy` and `ChatEvalStrategy` set to the configured tables. In the source they are module constants imported inside `debate_and_decide`.
- Benchmark.LoadStrategy: for the two debates it states only which strategy class was loaded. That the class uses the configured templates is stated by `AngelDemon.AngelDemonStrategy.constructor` and `ChatEval.ChatEvalStrategy.constructor`.
- Benchmark.RunBenchmark: for the two debates its ghost `plan` is pinned only to the debate kind, for the same reason.
- The ghost request list on `DebateEvaluator` is bookkeeping for the proofs. The source keeps no such list.
