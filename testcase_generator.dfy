/** The final draft's test-case generator (app/application/testcase/generator.py):
    two prompt builders, one structured-output call through the injected port, and a
    handler that turns every failure into `TestCaseNotGeneratedException`. */
module TestCaseGeneration {

  import opened Wrappers
  import opened Text
  import opened Floats
  import opened Exceptions
  import opened LeetCode
  import opened TestCaseModels
  import opened PortModels
  import opened Ports

  /** The generator's two constructor arguments. */
  datatype TestCaseGenerator = TestCaseGenerator(llmPort: StructuredOutputPort<ProblemTestCases>, temperature: Float)

  const DEFAULT_GENERATOR_TEMPERATURE := Float("0.7")

  /** `TestCaseGenerator(llm_port, temperature=...)`; `None` is the default 0.7. */
  function NewTestCaseGenerator(llmPort: StructuredOutputPort<ProblemTestCases>, temperature: Option<Float>): (g: TestCaseGenerator)
    ensures temperature.None? ==> g.temperature == Float("0.7")
    ensures temperature.Some? ==> g.temperature == temperature.value
  {
    TestCaseGenerator(llmPort, temperature.GetOr(DEFAULT_GENERATOR_TEMPERATURE))
  }

  /** The schema every call of this generator asks for. */
  const PROBLEM_TEST_CASES_SCHEMA := Schema("ProblemTestCases")

  const BASE_PROMPT: string :=
        "You are an expert at generating LeetCode test cases. Your task is to:\n" +
    "\n" +
    "1. Identify the problem from user input \n" +
    "2. Generate diverse, non-edge test cases for the specified difficulty level\n" +
    "3. Ensure test cases cover different scenarios but are NOT edge cases\n" +
    "4. Before generating test cases YOU HAVE TO analyze the problem statement and the example testcases.\n" +
    "5. Before generating test cases YOU HAVE TO get to know with the problem description and the constraints.\n" +
    "\n" +
    "You ARE ALLOWED TO generate test cases ONLY for problems present in the LeetCode database.\n" +
    "You ARE NOT ALLOWED TO generate test cases for problems that are not present in the LeetCode database.\n" +
    "\n" +
    "Guidelines:\n" +
    "- Generate NORMAL test cases only, not edge cases\n" +
    "- Cover different input patterns and scenarios\n" +
    "- Ensure expected results are correct\n" +
    "- Use proper input/output format for the problem type\n" +
    "- Make test cases progressively challenging based on difficulty\n" +
    "- The testcases which are included in LeetCode problem description or examples are not allowed to be generated.\n" +
    "- Make sure to generate testcases which give the helping hand to the user while testing his approach to solve the problem.\n" +
    "YOU ARE NOT ALLOWED TO GENERATE EDGE CASES."

  /** The system prompt: the fixed guidelines, a newline, then the rules of the
      requested difficulty. */
  function SystemPrompt(d: Difficulty): (p: string)
    ensures |p| == |BASE_PROMPT| + 1 + |DifficultyDescription(d)|
    ensures p[..|BASE_PROMPT|] == BASE_PROMPT
    ensures p[|BASE_PROMPT|] == '\n'
    ensures p[|BASE_PROMPT| + 1..] == DifficultyDescription(d)
  {
    BASE_PROMPT + "\n" + DifficultyDescription(d)
  }

  /** Different difficulties give different system prompts. */
  lemma SystemPromptInjective(d1: Difficulty, d2: Difficulty)
    requires SystemPrompt(d1) == SystemPrompt(d2)
    ensures d1 == d2
  {
    assert DifficultyDescription(d1) == SystemPrompt(d1)[|BASE_PROMPT| + 1..];
    DifficultyDescriptionInjective(d1, d2);
  }

  const USER_INSTRUCTIONS: string :=
    " test cases for the problem provided in <PROBLEM_STATEMENT> section.:\n" +
    "YOU ARE NOT ALLOWED TO GENERATE EDGE CASES. YOU ARE NOT ALLOWED TO GENERATE TEST CASES WHICH ARE ALREADY PRESENT IN THE PROBLEM STATEMENT - <example_testcases> section.\n"
  const PROBLEM_OPEN := "<PROBLEM_STATEMENT>\n"
  const PROBLEM_CLOSE := "\n</PROBLEM_STATEMENT>"
  const EXAMPLES_OPEN := "<EXAMPLE_TESTCASES>\n"
  const EXAMPLES_CLOSE := "\n</EXAMPLE_TESTCASES>"

  /** The user prompt: the requested count, then the fetched problem text between the
      problem-statement tags, then the fetched examples between the example tags. */
  function UserPrompt(request: TestCaseGenerationRequest): (p: string)
    ensures IsInfix(IntToString(request.numTestCases), p)
    ensures IsInfix(PROBLEM_OPEN + request.problemDetails.questionContent + PROBLEM_CLOSE, p)
    ensures IsInfix(EXAMPLES_OPEN + request.problemDetails.exampleTestcases + EXAMPLES_CLOSE, p)
  {
    var count := IntToString(request.numTestCases);
    var problem := PROBLEM_OPEN + request.problemDetails.questionContent + PROBLEM_CLOSE;
    var examples := EXAMPLES_OPEN + request.problemDetails.exampleTestcases + EXAMPLES_CLOSE;
    InfixesOfConcat("Generate ", count, USER_INSTRUCTIONS, problem, "\n", examples, "\n");
    "Generate " + count + USER_INSTRUCTIONS + problem + "\n" + examples + "\n"
  }

  /** The port request: the user prompt and, always present, the system prompt. */
  function BuildLLMRequest(request: TestCaseGenerationRequest): (r: LLMRequest)
    ensures r.userPrompt == UserPrompt(request)
    ensures r.systemPrompt == Some(SystemPrompt(request.difficulty))
  {
    LLMRequest(UserPrompt(request), Some(SystemPrompt(request.difficulty)))
  }

  /** `generate_test_cases`: exactly one structured call, with the ProblemTestCases
      schema; on success the port's content is returned unchanged under the fetched
      problem's slug; every failure surfaces only as TestCaseNotGeneratedException
      with its default message. */
  function GenerateTestCases(g: TestCaseGenerator, request: TestCaseGenerationRequest): (run: Run<TestCaseGenerationResponse>)
    ensures run.calls == [StructuredCall(BuildLLMRequest(request), Schema("ProblemTestCases"))]
    ensures run.result.Success? <==> g.llmPort(BuildLLMRequest(request), PROBLEM_TEST_CASES_SCHEMA).Success?
    ensures run.result.Failure? ==> run.result.error == NewTestCaseNotGeneratedException(None)
    ensures run.result.Success? ==>
      && run.result.value.questionSlug == request.problemDetails.questionSlug
      && run.result.value.testCases == g.llmPort(BuildLLMRequest(request), PROBLEM_TEST_CASES_SCHEMA).value.content
  {
    var llmRequest := BuildLLMRequest(request);
    var calls := [StructuredCall(llmRequest, PROBLEM_TEST_CASES_SCHEMA)];
    match g.llmPort(llmRequest, PROBLEM_TEST_CASES_SCHEMA)
    case Failure(_) => Run(Failure(NewTestCaseNotGeneratedException(None)), calls)
    case Success(response) =>
      Run(Success(TestCaseGenerationResponse(request.problemDetails.questionSlug, response.content)), calls)
  }

  /** Building the port request as the source writes it: the `temperature` keyword is
      not a field of the final draft's `LLMRequest`, so the call raises `TypeError`. */
  function BuildLLMRequestAsWritten(g: TestCaseGenerator, request: TestCaseGenerationRequest): (r: Result<LLMRequest, Error>)
    ensures r.Failure? && r.error.Foreign? && r.error.typeName == "TypeError"
  {
    Failure(Foreign("TypeError", "LLMRequest.__init__() got an unexpected keyword argument 'temperature'"))
  }

  /** `generate_test_cases` as written: the request is built inside the `try`, so its
      failure, like any other, is caught and replaced. */
  function GenerateTestCasesAsWritten(g: TestCaseGenerator, request: TestCaseGenerationRequest): (run: Run<TestCaseGenerationResponse>)
    ensures run.result.Failure? ==> run.result.error == NewTestCaseNotGeneratedException(None)
    ensures run == Run(Failure(NewTestCaseNotGeneratedException(None)), [])
  {
    match BuildLLMRequestAsWritten(g, request)
    case Failure(_) => Run(Failure(NewTestCaseNotGeneratedException(None)), [])
    case Success(llmRequest) =>
      var calls := [StructuredCall(llmRequest, PROBLEM_TEST_CASES_SCHEMA)];
      match g.llmPort(llmRequest, PROBLEM_TEST_CASES_SCHEMA)
      case Failure(_) => Run(Failure(NewTestCaseNotGeneratedException(None)), calls)
      case Success(response) =>
        Run(Success(TestCaseGenerationResponse(request.problemDetails.questionSlug, response.content)), calls)
  }

  /** As written, the generator never reaches its port and never succeeds, even with
      a port that always answers; the wrap property still holds. */
  lemma AsWrittenNeverCallsPort(g: TestCaseGenerator, request: TestCaseGenerationRequest)
    ensures GenerateTestCasesAsWritten(g, request) == Run(Failure(NewTestCaseNotGeneratedException(None)), [])
    ensures g.llmPort(BuildLLMRequest(request), PROBLEM_TEST_CASES_SCHEMA).Success? ==> GenerateTestCases(g, request).result.Success?
  {
  }
}
