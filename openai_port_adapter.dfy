/** The final draft's OpenAI adapter (app/infrastructure/adapters/llm/openai.py): it
    implements both LLM ports. The vendor client is not modelled; each vendor call is a
    function from the request the adapter sends to the outcome the client gives back
    (a completed response, or a raised exception), and the adapter's work is to turn
    that outcome into a result or one of the domain's LLM errors. */
module OpenAIPortAdapter {

  import opened Wrappers
  import opened Text
  import opened Floats
  import opened Exceptions
  import opened PortModels
  import opened Ports
  import opened TestCaseModels
  import TestCaseGeneration

  datatype OpenAIAdapter = OpenAIAdapter(modelName: string, temperature: Float)

  const DEFAULT_ADAPTER_TEMPERATURE := Float("0.5")

  /** `OpenAIAdapter(client, model_name, temperature=0.5)`; the client is the vendor
      call passed to each operation. */
  function NewOpenAIAdapter(modelName: string, temperature: Option<Float>): (a: OpenAIAdapter)
    ensures a.modelName == modelName
    ensures temperature.None? ==> a.temperature == Float("0.5")
    ensures temperature.Some? ==> a.temperature == temperature.value
  {
    OpenAIAdapter(modelName, temperature.GetOr(DEFAULT_ADAPTER_TEMPERATURE))
  }

  /** The provider label put on every structured response. */
  const PROVIDER := "OPENAI"

  /** One chat message; the content is `None` when the request has no system prompt. */
  datatype Message = Message(role: string, content: Option<string>)

  /** `__prepare_messages`: always two messages, the system one first, even when there
      is no system prompt, then the user one. */
  function PrepareMessages(request: LLMRequest): (messages: seq<Message>)
    ensures |messages| == 2
    ensures messages[0].role == "system" && messages[0].content == request.systemPrompt
    ensures messages[1].role == "user" && messages[1].content == Some(request.userPrompt)
  {
    [Message("system", request.systemPrompt), Message("user", Some(request.userPrompt))]
  }

  /** What the adapter hands to the vendor: its own model name and temperature, and the
      prepared messages. */
  datatype VendorRequest = VendorRequest(model: string, messages: seq<Message>, temperature: Float)

  function VendorRequestFor(adapter: OpenAIAdapter, request: LLMRequest): (v: VendorRequest)
    ensures v.model == adapter.modelName
    ensures v.temperature == adapter.temperature
    ensures v.messages == PrepareMessages(request)
  {
    VendorRequest(adapter.modelName, PrepareMessages(request), adapter.temperature)
  }

  // ---- text output -------------------------------------------------------------------

  /** One choice of a chat completion; its message content may be `None`. */
  datatype ChatChoice = ChatChoice(content: Option<string>)

  datatype ChatOutcome = ChatCompleted(choices: seq<ChatChoice>) | ChatRaised(error: Error)

  type ChatCreate = VendorRequest -> ChatOutcome

  /** `generate_text_output`: the first choice's non-empty content; no choices or an
      empty or missing content is `EmptyResponseException`, which the handler does not
      catch; a vendor `APIError` becomes `LLMException`; any other exception escapes
      as it was raised. */
  function GenerateTextOutput(adapter: OpenAIAdapter, create: ChatCreate, request: LLMRequest): (r: Result<string, Error>)
    ensures var outcome := create(VendorRequestFor(adapter, request));
      && (r.Success? <==> outcome.ChatCompleted? && |outcome.choices| > 0 && IsTruthy(outcome.choices[0].content))
      && (r.Success? ==> r.value == outcome.choices[0].content.value && r.value != "")
      && (outcome.ChatCompleted? && r.Failure? ==> r.error == NewEmptyResponseException())
      && (outcome.ChatRaised? && outcome.error.OpenAIAPIError? ==> r == Failure(NewLLMException()))
      && (outcome.ChatRaised? && !outcome.error.OpenAIAPIError? ==> r == Failure(outcome.error))
  {
    match create(VendorRequestFor(adapter, request))
    case ChatRaised(e) =>
      if e.OpenAIAPIError? then Failure(NewLLMException()) else Failure(e)
    case ChatCompleted(choices) =>
      if |choices| == 0 || !IsTruthy(choices[0].content) then Failure(NewEmptyResponseException())
      else Success(choices[0].content.value)
  }

  /** Every failure of the text path is one of the domain's LLM exceptions, unless the
      vendor raised something other than an `APIError`, which is passed on as is. */
  lemma TextFailuresAreLLMExceptions(adapter: OpenAIAdapter, create: ChatCreate, request: LLMRequest)
    ensures var r := GenerateTextOutput(adapter, create, request);
      var outcome := create(VendorRequestFor(adapter, request));
      r.Failure? && !(outcome.ChatRaised? && !outcome.error.OpenAIAPIError?) ==> IsLLMException(r.error)
  {
  }

  /** The adapter seen through the text port. */
  function AsTextPort(adapter: OpenAIAdapter, create: ChatCreate): (port: TextPort)
    ensures forall request :: port(request) == GenerateTextOutput(adapter, create, request)
  {
    request => GenerateTextOutput(adapter, create, request)
  }

  // ---- structured output -------------------------------------------------------------

  /** One choice of a parse response: a refusal text, if any, and the parsed object. */
  datatype ParsedChoice<T> = ParsedChoice(refusal: Option<string>, parsed: T)

  datatype ParseOutcome<T> = ParseCompleted(choices: seq<ParsedChoice<T>>) | ParseRaised(error: Error)

  type ResponsesParse<T> = (VendorRequest, Schema) -> ParseOutcome<T>

  /** `generate_structured_output`: the first choice's parsed object, labelled with the
      adapter's model name and the provider; a refusal, a response without choices and
      any exception the vendor raises all become `StructuredOutputNotGeneratedException`. */
  function GenerateStructuredOutput<T>(adapter: OpenAIAdapter, parse: ResponsesParse<T>, request: LLMRequest, schema: Schema): (r: Result<LLMResponse<T>, Error>)
    ensures var outcome := parse(VendorRequestFor(adapter, request), schema);
      && (r.Success? <==> outcome.ParseCompleted? && |outcome.choices| > 0 && !IsTruthy(outcome.choices[0].refusal))
      && (r.Success? ==> r.value == LLMResponse(outcome.choices[0].parsed, Some(adapter.modelName), Some("OPENAI")))
      && (r.Failure? ==> r.error == NewStructuredOutputNotGeneratedException())
  {
    match parse(VendorRequestFor(adapter, request), schema)
    case ParseRaised(_) => Failure(NewStructuredOutputNotGeneratedException())
    case ParseCompleted(choices) =>
      // `choices[0]` on an empty list raises IndexError inside the `try`
      if |choices| == 0 then Failure(NewStructuredOutputNotGeneratedException())
      else if IsTruthy(choices[0].refusal) then Failure(NewStructuredOutputNotGeneratedException())
      else Success(LLMResponse(choices[0].parsed, Some(adapter.modelName), Some(PROVIDER)))
  }

  /** The adapter seen through the structured-output port. */
  function AsStructuredPort<T>(adapter: OpenAIAdapter, parse: ResponsesParse<T>): (port: StructuredOutputPort<T>)
    ensures forall request, schema :: port(request, schema) == GenerateStructuredOutput(adapter, parse, request, schema)
  {
    (request, schema) => GenerateStructuredOutput(adapter, parse, request, schema)
  }

  // ---- structured output as written -------------------------------------------------

  /** What the source's call, `responses.parse(input=..., text_format=...)`, gives back:
      a Responses-API object holding the parsed value (`output_parsed`) and no
      `choices` list, or a raised exception. */
  datatype ResponsesOutcome<T> = ResponseParsed(outputParsed: T) | ResponseRaised(error: Error)

  type ResponsesApiParse<T> = (VendorRequest, Schema) -> ResponsesOutcome<T>

  /** What reading `response.choices` from a Responses-API result raises. */
  const NO_CHOICES_ERROR := Foreign("AttributeError", "'ParsedResponse' object has no attribute 'choices'")

  /** The attribute read `response.choices[0].message` against the object the source's
      call returns: always the `AttributeError`. */
  function ReadFirstChoice<T>(response: ResponsesOutcome<T>): (r: Result<ParsedChoice<T>, Error>)
    requires response.ResponseParsed?
    ensures r == Failure(NO_CHOICES_ERROR)
  {
    Failure(NO_CHOICES_ERROR)
  }

  /** `generate_structured_output` as written: a vendor exception and the failing
      `choices` read alike end in the handler, so no call ever succeeds. */
  function GenerateStructuredOutputAsWritten<T>(adapter: OpenAIAdapter, respond: ResponsesApiParse<T>, request: LLMRequest, schema: Schema): (r: Result<LLMResponse<T>, Error>)
    ensures r == Failure(NewStructuredOutputNotGeneratedException())
  {
    var response := respond(VendorRequestFor(adapter, request), schema);
    if response.ResponseRaised? then Failure(NewStructuredOutputNotGeneratedException())
    else
      match ReadFirstChoice(response)
      case Failure(_) => Failure(NewStructuredOutputNotGeneratedException())
      case Success(choice) =>
        if IsTruthy(choice.refusal) then Failure(NewStructuredOutputNotGeneratedException())
        else Success(LLMResponse(choice.parsed, Some(adapter.modelName), Some(PROVIDER)))
  }

  /** As written, even a vendor that parses the answer cannot make the adapter succeed,
      while the chat-completions call the rest of the code expects succeeds on an
      unrefused first choice. Behind the test-case generator, the written adapter makes
      every generation fail with `TestCaseNotGeneratedException`. */
  lemma ResponsesShapeNeverSucceeds(adapter: OpenAIAdapter, respond: ResponsesApiParse<ProblemTestCases>, parse: ResponsesParse<ProblemTestCases>, temperature: Float, request: TestCaseGenerationRequest)
    ensures var llmRequest := TestCaseGeneration.BuildLLMRequest(request);
      var schema := TestCaseGeneration.PROBLEM_TEST_CASES_SCHEMA;
      var outcome := parse(VendorRequestFor(adapter, llmRequest), schema);
      outcome.ParseCompleted? && |outcome.choices| > 0 && !IsTruthy(outcome.choices[0].refusal) ==>
        && GenerateStructuredOutput(adapter, parse, llmRequest, schema).Success?
        && GenerateStructuredOutputAsWritten(adapter, respond, llmRequest, schema).Failure?
    ensures var port: StructuredOutputPort<ProblemTestCases> := (r, s) => GenerateStructuredOutputAsWritten(adapter, respond, r, s);
      TestCaseGeneration.GenerateTestCases(TestCaseGeneration.TestCaseGenerator(port, temperature), request).result
        == Failure(NewTestCaseNotGeneratedException(None))
  {
  }

  /** With this adapter behind the test-case generator, the generator succeeds exactly
      when the vendor returns an unrefused first choice, and then returns that choice's
      parsed test cases; a refusal reaches the caller as `TestCaseNotGeneratedException`. */
  lemma GeneratorOverAdapter(adapter: OpenAIAdapter, parse: ResponsesParse<ProblemTestCases>, temperature: Float, request: TestCaseGenerationRequest)
    ensures var g := TestCaseGeneration.TestCaseGenerator(AsStructuredPort(adapter, parse), temperature);
      var outcome := parse(VendorRequestFor(adapter, TestCaseGeneration.BuildLLMRequest(request)), TestCaseGeneration.PROBLEM_TEST_CASES_SCHEMA);
      var run := TestCaseGeneration.GenerateTestCases(g, request);
      && (run.result.Success? <==> outcome.ParseCompleted? && |outcome.choices| > 0 && !IsTruthy(outcome.choices[0].refusal))
      && (run.result.Success? ==> run.result.value.testCases == outcome.choices[0].parsed)
      && (run.result.Failure? ==> run.result.error == NewTestCaseNotGeneratedException(None))
  {
    var g := TestCaseGeneration.TestCaseGenerator(AsStructuredPort(adapter, parse), temperature);
    var llmRequest := TestCaseGeneration.BuildLLMRequest(request);
    assert g.llmPort(llmRequest, TestCaseGeneration.PROBLEM_TEST_CASES_SCHEMA)
        == GenerateStructuredOutput(adapter, parse, llmRequest, TestCaseGeneration.PROBLEM_TEST_CASES_SCHEMA);
  }
}
