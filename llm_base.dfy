/** The envelopes of the older LLM package (app/llm/base.py): the provider
    enumeration and the request and response records, with their defaults. The
    abstract adapter classes of that file become the concrete adapter in
    `LlmOpenAI`; their logging helpers have no state worth modelling. */
module LlmBase {

  import opened Wrappers
  import opened Floats

  /** `SupportedLLMProvider`: a one-member enumeration. */
  datatype SupportedLLMProvider = OPENAI

  /** The member's `.value`. */
  function ProviderValue(p: SupportedLLMProvider): (v: string)
    ensures p == OPENAI ==> v == "openai"
  {
    match p
    case OPENAI => "openai"
  }

  /** `str(member)` (also what an f-string renders): the class name, a dot and the member name. */
  function ProviderStr(p: SupportedLLMProvider): (s: string)
    ensures p == OPENAI ==> s == "SupportedLLMProvider.OPENAI"
  {
    match p
    case OPENAI => "SupportedLLMProvider.OPENAI"
  }

  datatype LLMResponse<T> = LLMResponse(content: T, modelName: Option<string>, provider: Option<SupportedLLMProvider>)

  /** `LLMResponse(content=...)` with the other fields left to their defaults. */
  function NewLLMResponse<T>(content: T): (r: LLMResponse<T>)
    ensures r.content == content
    ensures r.modelName == None && r.provider == None
  {
    LLMResponse(content, None, None)
  }

  datatype LLMRequest = LLMRequest(userPrompt: string, systemPrompt: Option<string>, temperature: Float, timeoutSeconds: Float)

  const DEFAULT_TEMPERATURE := Float("0.1")
  const DEFAULT_TIMEOUT_SECONDS := Float("30.0")

  /** `LLMRequest(user_prompt, system_prompt, temperature=..., timeout_seconds=...)`, where
      `None` stands for a keyword argument the caller left out. */
  function NewLLMRequest(userPrompt: string, systemPrompt: Option<string>, temperature: Option<Float>, timeoutSeconds: Option<Float>): (r: LLMRequest)
    ensures r.userPrompt == userPrompt && r.systemPrompt == systemPrompt
    ensures temperature.None? ==> r.temperature == Float("0.1")
    ensures temperature.Some? ==> r.temperature == temperature.value
    ensures timeoutSeconds.None? ==> r.timeoutSeconds == Float("30.0")
    ensures timeoutSeconds.Some? ==> r.timeoutSeconds == timeoutSeconds.value
  {
    LLMRequest(userPrompt, systemPrompt, temperature.GetOr(DEFAULT_TEMPERATURE), timeoutSeconds.GetOr(DEFAULT_TIMEOUT_SECONDS))
  }
}
