/** The older draft's generator (app/features/testcase/v1/generator/generator.py): it
    obtains an adapter from the provider registry, builds both prompts, sends one
    structured request at temperature 1 and returns the parsed content. Nothing is
    caught: registry, factory and adapter errors reach the caller as raised. */
module V1Generation {

  import opened Wrappers
  import opened Text
  import opened Floats
  import opened LlmBase
  import opened Exceptions
  import opened Ports
  import opened V1Models
  import opened LlmFactory
  import LlmOpenAI

  datatype TestCaseGenerator = TestCaseGenerator(modelName: string, provider: SupportedLLMProvider)

  const DEFAULT_MODEL_NAME := "gpt-4o-mini"

  /** `TestCaseGenerator(model_name="gpt-4o-mini", provider=OPENAI)`. */
  function NewTestCaseGenerator(modelName: Option<string>, provider: Option<SupportedLLMProvider>): (g: TestCaseGenerator)
    ensures modelName.None? ==> g.modelName == "gpt-4o-mini"
    ensures modelName.Some? ==> g.modelName == modelName.value
    ensures provider.None? ==> g.provider == OPENAI
    ensures provider.Some? ==> g.provider == provider.value
  {
    TestCaseGenerator(modelName.GetOr(DEFAULT_MODEL_NAME), provider.GetOr(OPENAI))
  }

  /** The schema the adapter is created with. */
  const RESPONSE_SCHEMA := Schema("TestCaseGenerationResponse")

  /** The fixed sampling temperature of every request. */
  const V1_TEMPERATURE := Float("1")

  const BASE_PROMPT: string :=
    "You are an expert at generating LeetCode test cases. Your task is to:\n" +
    "\n" +
    "1. Identify the problem from user input (question slug, name, or description)\n" +
    "2. Generate diverse, non-edge test cases for the specified difficulty level\n" +
    "3. Ensure test cases cover different scenarios but are NOT edge cases\n" +
    "4. Before generating test cases YOU HAVE TO identity the problem.\n" +
    "5. Before generating test cases YOU HAVE TO get to know with the problem description and the constraints.\n" +
    "\n" +
    "You ARE ALLOWED TO generate test cases ONLY for problems present in the LeetCode database.\n" +
    "You ARE NOT ALLOWED TO generate test cases for problems that are not present in the LeetCode database.\n" +
    "\n" +
    "Guidelines:\n" +
    "- Generate NORMAL test cases only, not edge cases\n" +
    "- Cover different input patterns and scenarios\n" +
    "- Ensure expected results are correct\n" +
    "- Use proper input/output format for the problem type\n" +
    "- Make test cases progressively challenging based on difficulty\n" +
    "- The testcases which are included in LeetCode problem description or examples are not allowed to be generated.\n" +
    "- Make sure to generate testcases which give the helping hand to the user while testing his approach to solve the problem.\n" +
    "YOU ARE NOT ALLOWED TO GENERATE EDGE CASES."

  /** The system prompt: the fixed guidelines, a newline, then the difficulty's rules. */
  function SystemPrompt(d: Difficulty): (p: string)
    ensures |p| == |BASE_PROMPT| + 1 + |DifficultyDescription(d)|
    ensures p[..|BASE_PROMPT|] == BASE_PROMPT
    ensures p[|BASE_PROMPT|] == '\n'
    ensures p[|BASE_PROMPT| + 1..] == DifficultyDescription(d)
  {
    BASE_PROMPT + "\n" + DifficultyDescription(d)
  }

  const USER_INTRO := " test cases for the following problem:\n\nUser input: "
  const DIFFICULTY_LABEL := "\nDifficulty level: "
  const USER_OUTRO: string :=
    "\n" +
    "\n" +
    "Please identify the problem and generate appropriate test cases. Ensure each test case has:\n" +
    "- test_case: input data in proper format\n" +
    "- expected_result: correct output for the input\n" +
    "\n" +
    "YOU ARE NOT ALLOWED TO GENERATE EDGE CASES."

  /** The user prompt: the count, the user's message between double quotes, and the
      difficulty as `str` renders it. */
  function UserPrompt(request: TestCaseGenerationRequest): (p: string)
    ensures IsInfix(IntToString(request.numTestCases), p)
    ensures IsInfix("\"" + request.userMessage + "\"", p)
    ensures IsInfix(DifficultyStr(request.difficulty), p)
  {
    var count := IntToString(request.numTestCases);
    var quoted := "\"" + request.userMessage + "\"";
    var difficulty := DifficultyStr(request.difficulty);
    InfixesOfConcat("Generate ", count, USER_INTRO, quoted, DIFFICULTY_LABEL, difficulty, USER_OUTRO);
    "Generate " + count + USER_INTRO + quoted + DIFFICULTY_LABEL + difficulty + USER_OUTRO
  }

  /** The request sent to the adapter: both prompts, temperature 1, default timeout. */
  function BuildLLMRequest(request: TestCaseGenerationRequest): (r: LLMRequest)
    ensures r.userPrompt == UserPrompt(request)
    ensures r.systemPrompt == Some(SystemPrompt(request.difficulty))
    ensures r.temperature == Float("1") && r.timeoutSeconds == Float("30.0")
  {
    NewLLMRequest(UserPrompt(request), Some(SystemPrompt(request.difficulty)), Some(V1_TEMPERATURE), None)
  }

  /** `generate_test_cases` against a registry state: the adapter for the generator's
      provider, model name and the response schema; then one structured call, without
      a schema argument, so the adapter's own is used; the content is returned as is. */
  function Generate(factories: map<SupportedLLMProvider, ProviderFactory<LlmOpenAI.OpenAIAdapter>>, g: TestCaseGenerator, parse: LlmOpenAI.CompletionsParse<TestCaseGenerationResponse>, request: TestCaseGenerationRequest): (r: Result<TestCaseGenerationResponse, Error>)
    ensures var created := Resolve(factories, g.provider, AdapterConfig(g.modelName, Some(RESPONSE_SCHEMA)));
      && (created.Failure? ==> r == Failure(created.error))
      && (created.Success? ==>
            var response := LlmOpenAI.StructuredOutput(created.value, parse, BuildLLMRequest(request), None);
            && (r.Success? <==> response.Success?)
            && (r.Success? ==> r.value == response.value.content)
            && (r.Failure? ==> r.error == response.error))
  {
    match Resolve(factories, g.provider, AdapterConfig(g.modelName, Some(RESPONSE_SCHEMA)))
    case Failure(e) => Failure(e)
    case Success(adapter) =>
      match LlmOpenAI.StructuredOutput(adapter, parse, BuildLLMRequest(request), None)
      case Failure(e) => Failure(e)
      case Success(response) => Success(response.content)
  }

  /** `generate_test_cases` carried out against a live registry. */
  method GenerateTestCases(registry: ProviderRegistry<LlmOpenAI.OpenAIAdapter>, g: TestCaseGenerator, parse: LlmOpenAI.CompletionsParse<TestCaseGenerationResponse>, request: TestCaseGenerationRequest) returns (r: Result<TestCaseGenerationResponse, Error>)
    ensures r == Generate(registry.factories, g, parse, request)
  {
    var created := registry.CreateAdapter(g.provider, g.modelName, Some(RESPONSE_SCHEMA));
    if created.Failure? {
      return Failure(created.error);
    }
    var llmRequest := BuildLLMRequest(request);
    var response := LlmOpenAI.GenerateStructuredOutput(created.value, parse, llmRequest, None);
    if response.Failure? {
      r := Failure(response.error);
    } else {
      r := Success(response.value.content);
    }
  }

  /** With the OpenAI factory registered (it builds `OpenAIAdapter(model_name,
      response_format)`) and a non-empty model name, the vendor is asked with the
      generator's model, the response schema and temperature 1, and the generator
      returns the parsed object exactly when the first choice is there and unrefused. */
  lemma OpenAIFactoryRequest(factories: map<SupportedLLMProvider, ProviderFactory<LlmOpenAI.OpenAIAdapter>>, g: TestCaseGenerator, parse: LlmOpenAI.CompletionsParse<TestCaseGenerationResponse>, request: TestCaseGenerationRequest)
    requires g.provider in factories && g.modelName != ""
    requires forall c :: factories[g.provider](c) == LlmOpenAI.NewOpenAIAdapter(c.modelName, c.responseFormat)
    ensures var outcome := parse(LlmOpenAI.ParseRequest(g.modelName, LlmOpenAI.Messages(BuildLLMRequest(request)), RESPONSE_SCHEMA, Float("1")));
      var r := Generate(factories, g, parse, request);
      && (r.Success? <==> outcome.Parsed? && |outcome.choices| > 0 && !IsTruthy(outcome.choices[0].refusal))
      && (r.Success? ==> r.value == outcome.choices[0].parsed)
  {
    var config := AdapterConfig(g.modelName, Some(RESPONSE_SCHEMA));
    var adapter := LlmOpenAI.NewOpenAIAdapter(config.modelName, config.responseFormat).value;
    assert Resolve(factories, g.provider, config) == Success(adapter);
    assert LlmOpenAI.ChooseSchema(adapter, None) == Success(RESPONSE_SCHEMA);
  }
  /** `generate_test_cases` over the adapter as written: its structured call logs the
      response inside the `try`, so it never returns content (see
      `LlmOpenAI.StructuredOutputAsWritten`). Registry errors are passed on as before. */
  function GenerateAsWritten(factories: map<SupportedLLMProvider, ProviderFactory<LlmOpenAI.OpenAIAdapter>>, g: TestCaseGenerator, parse: LlmOpenAI.CompletionsParse<TestCaseGenerationResponse>, request: TestCaseGenerationRequest): (r: Result<TestCaseGenerationResponse, Error>)
    ensures r.Failure?
    ensures var created := Resolve(factories, g.provider, AdapterConfig(g.modelName, Some(RESPONSE_SCHEMA)));
      && (created.Failure? ==> r == Failure(created.error))
      && (created.Success? ==> r.error == LlmOpenAI.StructuredOutputAsWritten(created.value, parse, BuildLLMRequest(request), None).error)
  {
    match Resolve(factories, g.provider, AdapterConfig(g.modelName, Some(RESPONSE_SCHEMA)))
    case Failure(e) => Failure(e)
    case Success(adapter) =>
      match LlmOpenAI.StructuredOutputAsWritten(adapter, parse, BuildLLMRequest(request), None)
      case Failure(e) => Failure(e)
      case Success(response) => Success(response.content)
  }

  /** With the OpenAI factory registered, exactly where the intended generator returns
      the parsed object the written one raises the wrapped logging error; where the
      intended one fails, both fail alike. */
  lemma LoggingBreaksGenerator(factories: map<SupportedLLMProvider, ProviderFactory<LlmOpenAI.OpenAIAdapter>>, g: TestCaseGenerator, parse: LlmOpenAI.CompletionsParse<TestCaseGenerationResponse>, request: TestCaseGenerationRequest)
    requires g.provider in factories && g.modelName != ""
    requires forall c :: factories[g.provider](c) == LlmOpenAI.NewOpenAIAdapter(c.modelName, c.responseFormat)
    ensures var outcome := parse(LlmOpenAI.ParseRequest(g.modelName, LlmOpenAI.Messages(BuildLLMRequest(request)), RESPONSE_SCHEMA, Float("1")));
      outcome.Parsed? && |outcome.choices| > 0 && !IsTruthy(outcome.choices[0].refusal) ==>
        && Generate(factories, g, parse, request) == Success(outcome.choices[0].parsed)
        && GenerateAsWritten(factories, g, parse, request)
             == Failure(LLMError(PlainLLMError, LlmOpenAI.WRAP_PREFIX + "'LLMResponse' object has no attribute 'model'", Some(OPENAI), Some(LlmOpenAI.LOG_RESPONSE_ERROR)))
    ensures Generate(factories, g, parse, request).Failure? ==>
      GenerateAsWritten(factories, g, parse, request) == Generate(factories, g, parse, request)
  {
    OpenAIFactoryRequest(factories, g, parse, request);
    var config := AdapterConfig(g.modelName, Some(RESPONSE_SCHEMA));
    var adapter := LlmOpenAI.NewOpenAIAdapter(config.modelName, config.responseFormat).value;
    assert Resolve(factories, g.provider, config) == Success(adapter);
    LlmOpenAI.LogResponseBreaksSuccess(adapter, parse, BuildLLMRequest(request), None);
  }
}
