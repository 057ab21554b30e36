/** The older package's OpenAI adapter (app/llm/openai_adapter.py). The vendor client is
    not modelled: each vendor call is a function from what the adapter sends to the
    outcome the client gives back. The structured path is specified by the function
    `StructuredOutput` and carried out, message list built by appending, by the method
    `GenerateStructuredOutput`.

    Two lines of the source fail on every call; each has an as-written member and a
    lemma showing the failure next to the intended behaviour:
    `_log_response` reads attributes `LLMResponse` lacks, and
    `generate_simple_text_output` reads `output_text` from a coroutine it never awaited. */
module LlmOpenAI {

  import opened Wrappers
  import opened Text
  import opened Floats
  import opened LlmBase
  import opened Exceptions
  import opened Ports

  datatype OpenAIAdapter = OpenAIAdapter(model: string, responseFormat: Option<Schema>, provider: SupportedLLMProvider)

  const MODEL_REQUIRED_MESSAGE := "Model name is required"

  /** `OpenAIAdapter(model_name, response_format=None)`: an empty model name is refused
      before anything else happens. */
  function NewOpenAIAdapter(modelName: string, responseFormat: Option<Schema>): (r: Result<OpenAIAdapter, Error>)
    ensures r.Success? <==> modelName != ""
    ensures r.Failure? ==> r.error == ValueError("Model name is required")
    ensures r.Success? ==> r.value.model == modelName && r.value.responseFormat == responseFormat && r.value.provider == OPENAI
  {
    if modelName == "" then Failure(ValueError(MODEL_REQUIRED_MESSAGE))
    else Success(OpenAIAdapter(modelName, responseFormat, OPENAI))
  }

  const SCHEMA_REQUIRED_MESSAGE := "Response format is required"

  /** `self.response_format or response_format`, then the `None` check. A schema class
      is always truthy, so the adapter's own schema wins whenever it has one. */
  function ChooseSchema(adapter: OpenAIAdapter, responseFormat: Option<Schema>): (r: Result<Schema, Error>)
    ensures r.Failure? <==> adapter.responseFormat.None? && responseFormat.None?
    ensures r.Failure? ==> r.error == ValueError("Response format is required")
    ensures adapter.responseFormat.Some? ==> r == Success(adapter.responseFormat.value)
    ensures adapter.responseFormat.None? && responseFormat.Some? ==> r == Success(responseFormat.value)
  {
    match adapter.responseFormat
    case Some(s) => Success(s)
    case None =>
      match responseFormat
      case Some(s) => Success(s)
      case None => Failure(ValueError(SCHEMA_REQUIRED_MESSAGE))
  }

  datatype ChatMessage = ChatMessage(role: string, content: string)

  /** The message list: a system message only for a non-empty system prompt, and the
      user message always, last. */
  function Messages(request: LLMRequest): (m: seq<ChatMessage>)
    ensures 1 <= |m| <= 2
    ensures m[|m| - 1] == ChatMessage("user", request.userPrompt)
    ensures |m| == 2 <==> IsTruthy(request.systemPrompt)
    ensures |m| == 2 ==> m[0] == ChatMessage("system", request.systemPrompt.value)
  {
    (if IsTruthy(request.systemPrompt) then [ChatMessage("system", request.systemPrompt.value)] else [])
      + [ChatMessage("user", request.userPrompt)]
  }

  /** What `chat.completions.parse` is given: the adapter's model, the messages, the
      chosen schema and the request's temperature. */
  datatype ParseRequest = ParseRequest(model: string, messages: seq<ChatMessage>, schema: Schema, temperature: Float)

  datatype ParsedMessage<T> = ParsedMessage(refusal: Option<string>, parsed: T)

  datatype ParseOutcome<T> = Parsed(choices: seq<ParsedMessage<T>>) | ParseRaised(error: Error)

  type CompletionsParse<T> = ParseRequest -> ParseOutcome<T>

  const REFUSAL_PREFIX := "OpenAI refused to generate a response: "

  /** What `choices[0]` raises on an empty list. */
  const EMPTY_CHOICES_ERROR := Foreign("IndexError", "list index out of range")

  /** `_call_llm_api_with_structured_output`: a vendor exception escapes as raised; no
      choices is an `IndexError`; a refusal is an `LLMError` naming the provider and
      quoting the refusal; otherwise the parsed object labelled with model and provider. */
  function CallWithStructuredOutput<T>(adapter: OpenAIAdapter, parse: CompletionsParse<T>, messages: seq<ChatMessage>, schema: Schema, temperature: Float): (r: Result<LLMResponse<T>, Error>)
    ensures var outcome := parse(ParseRequest(adapter.model, messages, schema, temperature));
      && (r.Success? <==> outcome.Parsed? && |outcome.choices| > 0 && !IsTruthy(outcome.choices[0].refusal))
      && (r.Success? ==> r.value == LLMResponse(outcome.choices[0].parsed, Some(adapter.model), Some(OPENAI)))
      && (outcome.ParseRaised? ==> r == Failure(outcome.error))
      && (outcome.Parsed? && |outcome.choices| == 0 ==> r == Failure(EMPTY_CHOICES_ERROR))
      && (outcome.Parsed? && |outcome.choices| > 0 && IsTruthy(outcome.choices[0].refusal) ==>
            r == Failure(LLMError(PlainLLMError, REFUSAL_PREFIX + outcome.choices[0].refusal.value, Some(OPENAI), None)))
  {
    match parse(ParseRequest(adapter.model, messages, schema, temperature))
    case ParseRaised(e) => Failure(e)
    case Parsed(choices) =>
      if |choices| == 0 then Failure(EMPTY_CHOICES_ERROR)
      else if IsTruthy(choices[0].refusal) then
        Failure(NewLLMError(PlainLLMError, REFUSAL_PREFIX + choices[0].refusal.value, Some(OPENAI), None))
      else Success(LLMResponse(choices[0].parsed, Some(adapter.model), Some(OPENAI)))
  }

  const WRAP_PREFIX := "Unexpected error in OpenAI structured generation: "

  /** The handler: an `LLMError` (or subclass) is re-raised as it is, anything else is
      wrapped into a plain `LLMError` naming the provider and keeping the original. */
  function Wrap(e: Error): (w: Error)
    ensures IsLLMError(e) ==> w == e
    ensures !IsLLMError(e) ==> w == LLMError(PlainLLMError, WRAP_PREFIX + Str(e), Some(OPENAI), Some(e))
    ensures IsLLMError(w)
  {
    if IsLLMError(e) then e else NewLLMError(PlainLLMError, WRAP_PREFIX + Str(e), Some(OPENAI), Some(e))
  }

  /** `generate_structured_output`, as intended (the response logging a no-op): the
      schema is chosen outside the `try`, so its `ValueError` is not wrapped; every
      later failure is an `LLMError`. */
  function StructuredOutput<T>(adapter: OpenAIAdapter, parse: CompletionsParse<T>, request: LLMRequest, responseFormat: Option<Schema>): (r: Result<LLMResponse<T>, Error>)
    ensures ChooseSchema(adapter, responseFormat).Failure? ==> r == Failure(ValueError("Response format is required"))
    ensures ChooseSchema(adapter, responseFormat).Success? ==>
      var outcome := parse(ParseRequest(adapter.model, Messages(request), ChooseSchema(adapter, responseFormat).value, request.temperature));
      && (r.Success? <==> outcome.Parsed? && |outcome.choices| > 0 && !IsTruthy(outcome.choices[0].refusal))
      && (r.Success? ==> r.value.content == outcome.choices[0].parsed && r.value.modelName == Some(adapter.model) && r.value.provider == Some(OPENAI))
      && (r.Failure? ==> IsLLMError(r.error))
      && (outcome.ParseRaised? ==> r == Failure(Wrap(outcome.error)))
      && (outcome.Parsed? && |outcome.choices| > 0 && IsTruthy(outcome.choices[0].refusal) ==>
            r == Failure(LLMError(PlainLLMError, REFUSAL_PREFIX + outcome.choices[0].refusal.value, Some(OPENAI), None)))
  {
    match ChooseSchema(adapter, responseFormat)
    case Failure(e) => Failure(e)
    case Success(schema) =>
      match CallWithStructuredOutput(adapter, parse, Messages(request), schema, request.temperature)
      case Failure(e) => Failure(Wrap(e))
      case Success(response) => Success(response)
  }

  /** A vendor exception that is not an `LLMError` reaches the caller wrapped, with
      the provider named and the original kept; an `LLMError` from the vendor side
      (such as a refusal) is not wrapped twice. */
  lemma VendorErrorsWrappedOnce<T>(adapter: OpenAIAdapter, parse: CompletionsParse<T>, request: LLMRequest, schema: Schema)
    requires adapter.responseFormat == Some(schema)
    requires parse(ParseRequest(adapter.model, Messages(request), schema, request.temperature)).ParseRaised?
    ensures var e := parse(ParseRequest(adapter.model, Messages(request), schema, request.temperature)).error;
      var r := StructuredOutput(adapter, parse, request, None);
      && (IsLLMError(e) ==> r == Failure(e))
      && (!IsLLMError(e) ==>
            r.error.originalError == Some(e) && r.error.provider == Some(OPENAI) && IsPrefix(WRAP_PREFIX, Str(r.error)))
  {
    var e := parse(ParseRequest(adapter.model, Messages(request), schema, request.temperature)).error;
    if !IsLLMError(e) {
      var w := Wrap(e);
      assert (WRAP_PREFIX + Str(e))[..|WRAP_PREFIX|] == WRAP_PREFIX;
      assert Str(w) == WRAP_PREFIX + Str(e);
    }
  }

  /** `generate_structured_output` carried out as the source does: the schema check,
      then the message list built by appending, then the call and the handler. */
  method GenerateStructuredOutput<T>(adapter: OpenAIAdapter, parse: CompletionsParse<T>, request: LLMRequest, responseFormat: Option<Schema>) returns (r: Result<LLMResponse<T>, Error>)
    ensures r == StructuredOutput(adapter, parse, request, responseFormat)
  {
    var chosen := ChooseSchema(adapter, responseFormat);
    if chosen.Failure? {
      return Failure(chosen.error);
    }
    var schema := chosen.value;
    var messages: seq<ChatMessage> := [];
    if IsTruthy(request.systemPrompt) {
      messages := messages + [ChatMessage("system", request.systemPrompt.value)];
    }
    messages := messages + [ChatMessage("user", request.userPrompt)];
    assert messages == Messages(request);
    var called := CallWithStructuredOutput(adapter, parse, messages, schema, request.temperature);
    if called.Failure? {
      r := Failure(Wrap(called.error));
    } else {
      r := Success(called.value);
    }
  }

  /** What `_log_response` raises: the response has no `model` attribute. */
  const LOG_RESPONSE_ERROR := Foreign("AttributeError", "'LLMResponse' object has no attribute 'model'")

  /** `generate_structured_output` as written: the logging call after a successful
      vendor call raises inside the `try`, and the handler wraps that error. */
  function StructuredOutputAsWritten<T>(adapter: OpenAIAdapter, parse: CompletionsParse<T>, request: LLMRequest, responseFormat: Option<Schema>): (r: Result<LLMResponse<T>, Error>)
    ensures r.Failure?
  {
    match ChooseSchema(adapter, responseFormat)
    case Failure(e) => Failure(e)
    case Success(schema) =>
      match CallWithStructuredOutput(adapter, parse, Messages(request), schema, request.temperature)
      case Failure(e) => Failure(Wrap(e))
      case Success(_) => Failure(Wrap(LOG_RESPONSE_ERROR))
  }

  /** As written, the structured path never succeeds: exactly where the intended path
      returns a response, the written one reports the logging error, wrapped. Elsewhere
      the two agree. */
  lemma LogResponseBreaksSuccess<T>(adapter: OpenAIAdapter, parse: CompletionsParse<T>, request: LLMRequest, responseFormat: Option<Schema>)
    ensures StructuredOutput(adapter, parse, request, responseFormat).Success? ==>
      StructuredOutputAsWritten(adapter, parse, request, responseFormat)
        == Failure(LLMError(PlainLLMError, WRAP_PREFIX + "'LLMResponse' object has no attribute 'model'", Some(OPENAI), Some(LOG_RESPONSE_ERROR)))
    ensures StructuredOutput(adapter, parse, request, responseFormat).Failure? ==>
      StructuredOutputAsWritten(adapter, parse, request, responseFormat) == StructuredOutput(adapter, parse, request, responseFormat)
  {
  }

  // ---- plain text ------------------------------------------------------------------

  /** What `responses.create` is given: the system prompt as instructions, the user
      prompt as input, the request's temperature. */
  datatype CreateRequest = CreateRequest(model: string, instructions: Option<string>, input: string, temperature: Float)

  datatype CreateOutcome = Created(outputText: string) | CreateRaised(error: Error)

  type ResponsesCreate = CreateRequest -> CreateOutcome

  function CreateRequestFor(adapter: OpenAIAdapter, request: LLMRequest): (c: CreateRequest)
    ensures c.model == adapter.model && c.instructions == request.systemPrompt
    ensures c.input == request.userPrompt && c.temperature == request.temperature
  {
    CreateRequest(adapter.model, request.systemPrompt, request.userPrompt, request.temperature)
  }

  /** `generate_simple_text_output` as intended: the response's `output_text`; a vendor
      exception escapes unchanged (there is no handler). */
  function SimpleTextOutput(adapter: OpenAIAdapter, create: ResponsesCreate, request: LLMRequest): (r: Result<string, Error>)
    ensures var outcome := create(CreateRequestFor(adapter, request));
      && (r.Success? <==> outcome.Created?)
      && (r.Success? ==> r.value == outcome.outputText)
      && (r.Failure? ==> r.error == outcome.error)
  {
    match create(CreateRequestFor(adapter, request))
    case Created(text) => Success(text)
    case CreateRaised(e) => Failure(e)
  }

  /** What reading `output_text` from an un-awaited coroutine raises. */
  const COROUTINE_ERROR := Foreign("AttributeError", "'coroutine' object has no attribute 'output_text'")

  /** `generate_simple_text_output` as written: `_call_llm_api` returns the client's
      coroutine without awaiting it, so no request is sent and the attribute read fails. */
  function SimpleTextOutputAsWritten(adapter: OpenAIAdapter, create: ResponsesCreate, request: LLMRequest): (r: Result<string, Error>)
    ensures r.Failure? && r.error.Foreign? && r.error.typeName == "AttributeError"
  {
    Failure(COROUTINE_ERROR)
  }

  /** As written, the text path fails even when the vendor would answer, and its
      result does not depend on the vendor at all. */
  lemma UnawaitedCallNeverAnswers(adapter: OpenAIAdapter, create1: ResponsesCreate, create2: ResponsesCreate, request: LLMRequest)
    requires create1(CreateRequestFor(adapter, request)).Created?
    ensures SimpleTextOutput(adapter, create1, request).Success?
    ensures SimpleTextOutputAsWritten(adapter, create1, request) == SimpleTextOutputAsWritten(adapter, create2, request)
    ensures SimpleTextOutputAsWritten(adapter, create1, request).Failure?
  {
  }
}
