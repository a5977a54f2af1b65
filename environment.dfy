/** The process environment variables the server reads (`process.env`). */
module Environment {
  import opened Common

  /** The three provider API keys, as read from the environment. */
  datatype ApiKeys = ApiKeys(openai: Option<string>, anthropic: Option<string>, gemini: Option<string>)

  /**
   * `LLM_PROVIDER`, `OPENAI_API_KEY`, `ANTHROPIC_API_KEY` and `GEMINI_API_KEY`;
   * `None` stands for an unset variable. Only the provider switch writes here.
   */
  class ProcessEnv {
    var llmProvider: Option<string>
    var openaiApiKey: Option<string>
    var anthropicApiKey: Option<string>
    var geminiApiKey: Option<string>

    constructor (llmProvider: Option<string>, keys: ApiKeys)
      ensures this.llmProvider == llmProvider
      ensures Keys() == keys
    {
      this.llmProvider := llmProvider;
      openaiApiKey := keys.openai;
      anthropicApiKey := keys.anthropic;
      geminiApiKey := keys.gemini;
    }

    function Keys(): ApiKeys
      reads this
    {
      ApiKeys(openaiApiKey, anthropicApiKey, geminiApiKey)
    }
  }
}
