/**
 * Constants of `configs/config.py` and the system prompts of every persona. The
 * system prompts carry no placeholders, so they are named here rather than spelled out.
 */
module Config {

  /** `MAX_TOKENS`. */
  const MAX_TOKENS: nat := 500

  /** `TEMPERATURE`. */
  const TEMPERATURE: real := 0.3

  /** The fixed system prompts, by the constant that holds each. */
  datatype SystemPrompt =
    | DirectAnswerPrompt        // DIRECT_ANSWER_PROMPT
    | SingleAgentSystemPrompt   // SINGLE_AGENT_SYSTEM_PROMPT
    | DecomposerSystemPrompt    // DECOMPOSER_SYSTEM_PROMPT
    | ExpertSystemPrompt        // EXPERT_SYSTEM_PROMPT
    | ReasonerSystemPrompt      // REASONER_SYSTEM_PROMPT
    | CriticSystemPrompt        // CRITIC_SYSTEM_PROMPT
    | IntegratorSystemPrompt    // INTEGRATOR_SYSTEM_PROMPT
    | AngelSystemPrompt         // ANGEL_SYSTEM_PROMPT
    | DemonSystemPrompt         // DEMON_SYSTEM_PROMPT
    | JudgeSystemPrompt         // JUDGE_SYSTEM_PROMPT
    | ModeratorSystemPrompt     // MODERATOR_SYSTEM_PROMPT

  /** A round label in the strategy configuration dictionaries: a number or `"final"`. */
  datatype RoundLabel = Numbered(n: nat) | FinalRound
}
