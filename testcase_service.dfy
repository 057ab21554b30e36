/** The final draft's test-case service (app/application/testcase/service.py): extract
    a slug from the user's text, fetch the problem, build the validated request and
    hand it to the generator. There is no `try`, so every error of the first three
    steps reaches the caller as it was raised.

    The source builds the problem with `LeetCodeProblem.of(slug)`, a class method that
    `LeetCodeProblem` does not define; `GenerateTestCases` models the evident intent,
    validating the slug with the `LeetCodeProblemSlug` rules, and
    `GenerateTestCasesAsWritten` the lookup that fails. */
module TestCasePipeline {

  import opened Wrappers
  import opened Exceptions
  import opened LeetCode
  import opened TestCaseModels
  import opened Ports
  import Gen = TestCaseGeneration

  datatype TestCaseService = TestCaseService(
    slugExtractor: SlugExtractor,
    problemFetcher: ProblemFetcher,
    testCaseGenerator: Gen.TestCaseGenerator)

  /** The problem to fetch for an extracted slug: the slug checked by the value type. */
  function ProblemFor(slug: string): (r: Result<LeetCodeProblem, Error>)
    ensures r.Success? <==> IsValidSlug(slug)
    ensures r.Success? ==> r.value.questionSlug.questionSlug == slug
    ensures r.Failure? ==> r.error == NewLeetCodeProblemSlug(slug).error
  {
    match Of(slug)
    case Failure(e) => Failure(e)
    case Success(s) => Success(LeetCodeProblem(s))
  }

  /** The last two steps once the details are fetched: the validated request, built
      with the count defaulting to 1, and the generator's run on it. */
  function Generated(generator: Gen.TestCaseGenerator, userInput: string, difficulty: Difficulty, numTestCases: Option<int>, details: LeetCodeProblemDetails): (run: Run<TestCaseGenerationResponse>)
    ensures var request := NewTestCaseGenerationRequest(userInput, difficulty, Some(numTestCases.GetOr(1)), Some(details));
      && (request.Failure? ==> run == Run(Failure(request.error), []))
      && (request.Success? ==> run == Gen.GenerateTestCases(generator, request.value))
  {
    match NewTestCaseGenerationRequest(userInput, difficulty, Some(numTestCases.GetOr(DEFAULT_NUM_TEST_CASES)), Some(details))
    case Failure(e) => Run(Failure(e), [])
    case Success(request) => Gen.GenerateTestCases(generator, request)
  }

  /** The steps after a valid slug: fetch the problem's details, then build the request
      and generate; a fetcher error ends the run. */
  function Fetched(service: TestCaseService, userInput: string, difficulty: Difficulty, numTestCases: Option<int>, problem: LeetCodeProblem): (run: Run<TestCaseGenerationResponse>)
    ensures 1 <= |run.calls| <= 2 && run.calls[0] == FetchCall(problem)
    ensures service.problemFetcher(problem).Failure? ==>
      run.result == Failure(service.problemFetcher(problem).error) && |run.calls| == 1
    ensures service.problemFetcher(problem).Success? ==>
      var generated := Generated(service.testCaseGenerator, userInput, difficulty, numTestCases, service.problemFetcher(problem).value);
      run.result == generated.result && run.calls[1..] == generated.calls
  {
    match service.problemFetcher(problem)
    case Failure(e) => Run(Failure(e), [FetchCall(problem)])
    case Success(details) =>
      var generated := Generated(service.testCaseGenerator, userInput, difficulty, numTestCases, details);
      Run(generated.result, [FetchCall(problem)] + generated.calls)
  }

  /** The steps after extraction: the slug checked by the value type (a refused slug
      ends the run with the type's `ValueError`, before any fetch), then the fetch of
      that slug and the generation. */
  function FromSlug(service: TestCaseService, userInput: string, slug: string, difficulty: Difficulty, numTestCases: Option<int>): (run: Run<TestCaseGenerationResponse>)
    ensures |run.calls| <= 2
    ensures !IsValidSlug(slug) ==> run == Run(Failure(NewLeetCodeProblemSlug(slug).error), [])
    ensures IsValidSlug(slug) ==>
      var problem := LeetCodeProblem(LeetCodeProblemSlug(slug));
      run == Fetched(service, userInput, difficulty, numTestCases, problem)
  {
    match ProblemFor(slug)
    case Failure(e) => Run(Failure(e), [])
    case Success(problem) => Fetched(service, userInput, difficulty, numTestCases, problem)
  }

  /** `generate_test_cases(user_input, difficulty, num_test_cases=1)`; `None` for the
      count is the default. There is no handler: the slug is extracted first, and an
      extractor error reaches the caller unchanged, with nothing else called. */
  function GenerateTestCases(service: TestCaseService, userInput: string, difficulty: Difficulty, numTestCases: Option<int>): (run: Run<TestCaseGenerationResponse>)
    ensures 1 <= |run.calls| <= 3 && run.calls[0] == ExtractCall(userInput)
    ensures service.slugExtractor(userInput).Failure? ==>
      run == Run(Failure(service.slugExtractor(userInput).error), [ExtractCall(userInput)])
    ensures service.slugExtractor(userInput).Success? ==>
      var rest := FromSlug(service, userInput, service.slugExtractor(userInput).value, difficulty, numTestCases);
      run.result == rest.result && run.calls[1..] == rest.calls
  {
    match service.slugExtractor(userInput)
    case Failure(e) => Run(Failure(e), [ExtractCall(userInput)])
    case Success(slug) =>
      var rest := FromSlug(service, userInput, slug, difficulty, numTestCases);
      Run(rest.result, [ExtractCall(userInput)] + rest.calls)
  }

  /** The order of the service's steps, over all ports: a fetch happens only after an
      extraction that gave a valid slug, and fetches that slug; a refused slug, a
      fetcher error or a refused request ends the run with that error; otherwise the
      generator runs once, on the request built from the user's text, the fetched
      details, the difficulty and the count (default 1), and its outcome is returned. */
  lemma StepsInOrder(service: TestCaseService, userInput: string, difficulty: Difficulty, numTestCases: Option<int>)
    ensures var run := GenerateTestCases(service, userInput, difficulty, numTestCases);
      |run.calls| >= 2 ==>
        && service.slugExtractor(userInput).Success?
        && IsValidSlug(service.slugExtractor(userInput).value)
        && run.calls[1] == FetchCall(LeetCodeProblem(LeetCodeProblemSlug(service.slugExtractor(userInput).value)))
    ensures var run := GenerateTestCases(service, userInput, difficulty, numTestCases);
      var extracted := service.slugExtractor(userInput);
      extracted.Success? && !IsValidSlug(extracted.value) ==>
        run.result == Failure(NewLeetCodeProblemSlug(extracted.value).error) && |run.calls| == 1
    ensures var run := GenerateTestCases(service, userInput, difficulty, numTestCases);
      |run.calls| >= 2 && service.problemFetcher(run.calls[1].problem).Failure? ==>
        run.result == Failure(service.problemFetcher(run.calls[1].problem).error) && |run.calls| == 2
    ensures var run := GenerateTestCases(service, userInput, difficulty, numTestCases);
      |run.calls| >= 2 && service.problemFetcher(run.calls[1].problem).Success? ==>
        var request := NewTestCaseGenerationRequest(userInput, difficulty, Some(numTestCases.GetOr(1)), Some(service.problemFetcher(run.calls[1].problem).value));
        && (request.Failure? ==> run.result == Failure(request.error) && |run.calls| == 2)
        && (request.Success? ==>
              var generated := Gen.GenerateTestCases(service.testCaseGenerator, request.value);
              run.result == generated.result && run.calls[2..] == generated.calls)
  {
    var run := GenerateTestCases(service, userInput, difficulty, numTestCases);
    var extracted := service.slugExtractor(userInput);
    if extracted.Success? && IsValidSlug(extracted.value) {
      var problem := LeetCodeProblem(LeetCodeProblemSlug(extracted.value));
      var fetched := Fetched(service, userInput, difficulty, numTestCases, problem);
      assert run.calls == [ExtractCall(userInput)] + fetched.calls;
      assert run.calls[1] == FetchCall(problem);
      assert run.calls[2..] == fetched.calls[1..];
    }
  }

  /** What `LeetCodeProblem.of` raises: the class has no such attribute. */
  const MISSING_OF_ERROR := Foreign("AttributeError", "type object 'LeetCodeProblem' has no attribute 'of'")

  /** The service as written: once a slug is extracted, the missing class method
      raises, and the error, unwrapped like the others, ends the run. */
  function GenerateTestCasesAsWritten(service: TestCaseService, userInput: string, difficulty: Difficulty, numTestCases: Option<int>): (run: Run<TestCaseGenerationResponse>)
    ensures run.calls == [ExtractCall(userInput)]
    ensures service.slugExtractor(userInput).Failure? ==> run.result == Failure(service.slugExtractor(userInput).error)
  {
    match service.slugExtractor(userInput)
    case Failure(e) => Run(Failure(e), [ExtractCall(userInput)])
    case Success(_) => Run(Failure(MISSING_OF_ERROR), [ExtractCall(userInput)])
  }

  /** As written, even a valid extracted slug never reaches the fetcher, and the run
      fails with `AttributeError`; the intended service fetches that slug. */
  lemma AsWrittenNeverFetches(service: TestCaseService, userInput: string, difficulty: Difficulty, numTestCases: Option<int>)
    requires service.slugExtractor(userInput).Success?
    requires IsValidSlug(service.slugExtractor(userInput).value)
    ensures GenerateTestCasesAsWritten(service, userInput, difficulty, numTestCases).result == Failure(MISSING_OF_ERROR)
    ensures |GenerateTestCases(service, userInput, difficulty, numTestCases).calls| >= 2
  {
  }
}
