/** The injected collaborators of the two pipelines (app/domain/ports/llm/llm_port.py,
    app/domain/ports/api/leetcode.py), as function types: each is called once with
    its argument and either answers or raises. `PortCall` records one such call, and
    a pipeline's `Run` lists the calls it made, in order, next to its outcome. */
module Ports {

  import opened Wrappers
  import opened Exceptions
  import opened LeetCode
  import opened PortModels

  /** The pydantic model class handed to a structured-output call, by name. */
  datatype Schema = Schema(name: string)

  /** `QuestionSlugExtractorPort.extract_question_slug`: user text to a slug string. */
  type SlugExtractor = string -> Result<string, Error>

  /** `GetProblemDetailsPort.get_problem_details` (the name the services call). */
  type ProblemFetcher = LeetCodeProblem -> Result<LeetCodeProblemDetails, Error>

  /** `StructuredOutputLLMPort.generate_structured_output`. */
  type StructuredOutputPort<T> = (LLMRequest, Schema) -> Result<LLMResponse<T>, Error>

  /** `TextLLMPort.generate_text_output`. */
  type TextPort = LLMRequest -> Result<string, Error>

  datatype PortCall =
    | ExtractCall(userInput: string)
    | FetchCall(problem: LeetCodeProblem)
    | StructuredCall(request: LLMRequest, schema: Schema)
    | TextCall(request: LLMRequest)

  datatype Run<T> = Run(result: Result<T, Error>, calls: seq<PortCall>)
}
