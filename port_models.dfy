/** The final draft's LLM envelopes (app/domain/ports/llm/models.py). The request
    carries only the two prompts, with no sampling temperature; the response carries
    its content and two optional labels. */
module PortModels {

  import opened Wrappers

  datatype LLMRequest = LLMRequest(userPrompt: string, systemPrompt: Option<string>)

  datatype LLMResponse<T> = LLMResponse(content: T, modelName: Option<string>, provider: Option<string>)

  /** `LLMResponse(content=...)`: the content is required, the labels default to `None`. */
  function NewLLMResponse<T>(content: T): (r: LLMResponse<T>)
    ensures r.content == content
    ensures r.modelName.None? && r.provider.None?
  {
    LLMResponse(content, None, None)
  }
}
