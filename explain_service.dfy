/** The final draft's explanation service (app/application/explain/service.py):
    extract, fetch, build a BEGINNER request, explain, all inside one `try` whose
    handler wraps any failure into `ExplanationError` with the failure as its cause.

    As in the test-case service, the source looks up `LeetCodeProblem.of`, which does
    not exist; `Explain` validates the slug with the `LeetCodeProblemSlug` rules, and
    `ExplainAsWritten` models the failing lookup. */
module ExplainPipeline {

  import opened Wrappers
  import opened Text
  import opened Exceptions
  import opened LeetCode
  import opened ExplainModels
  import opened Ports
  import Gen = ExplainGeneration
  import TestCasePipeline

  datatype ExplanationService = ExplanationService(
    questionSlugExtractor: SlugExtractor,
    problemDetailsPort: ProblemFetcher,
    problemStatementExplainer: Gen.ProblemStatementExplainer)

  const EXPLANATION_ERROR_PREFIX := "Failed to generate explanation: "

  /** The handler's `ExplanationError(f"Failed to generate explanation: {e}") from e`. */
  function WrapFailure(cause: Error): (e: Error)
    ensures e.ExplanationError? && e.cause == cause
    ensures |e.message| == |EXPLANATION_ERROR_PREFIX| + |Str(cause)|
    ensures e.message[..|EXPLANATION_ERROR_PREFIX|] == EXPLANATION_ERROR_PREFIX
    ensures e.message[|EXPLANATION_ERROR_PREFIX|..] == Str(cause)
  {
    ExplanationError(EXPLANATION_ERROR_PREFIX + Str(cause), cause)
  }

  /** Building the BEGINNER request for fetched details and explaining it. The
      request's presence check cannot fail, since the details are always there. */
  function Explained(explainer: Gen.ProblemStatementExplainer, details: LeetCodeProblemDetails): (run: Run<ExplainProblemStatementResponse>)
    ensures run == Gen.ExplainProblemStatement(explainer, ExplainProblemStatementRequest(details, BEGINNER))
  {
    match NewExplainProblemStatementRequest(Some(details), Some(BEGINNER))
    case Failure(e) => Run(Failure(e), [])
    case Success(request) => Gen.ExplainProblemStatement(explainer, request)
  }

  /** The body of the `try`: the steps in order, each error as raised. */
  function ExplainSteps(service: ExplanationService, userInput: string): (run: Run<ExplainProblemStatementResponse>)
    // the slug is extracted first; at most three calls follow
    ensures 1 <= |run.calls| <= 3 && run.calls[0] == ExtractCall(userInput)
    // a fetch happens only after an extraction that gave a valid slug, and fetches that slug
    ensures |run.calls| >= 2 ==>
      && service.questionSlugExtractor(userInput).Success?
      && IsValidSlug(service.questionSlugExtractor(userInput).value)
      && run.calls[1].FetchCall?
      && run.calls[1].problem.questionSlug.questionSlug == service.questionSlugExtractor(userInput).value
    ensures service.questionSlugExtractor(userInput).Failure? ==>
      run.result == Failure(service.questionSlugExtractor(userInput).error) && |run.calls| == 1
    ensures |run.calls| >= 2 && service.problemDetailsPort(run.calls[1].problem).Failure? ==>
      run.result == Failure(service.problemDetailsPort(run.calls[1].problem).error) && |run.calls| == 2
    // with the details fetched, the explainer runs once on a BEGINNER request for them
    // and its outcome is the run's outcome
    ensures |run.calls| >= 2 && service.problemDetailsPort(run.calls[1].problem).Success? ==>
      var explained := Explained(service.problemStatementExplainer, service.problemDetailsPort(run.calls[1].problem).value);
      run.result == explained.result && run.calls[2..] == explained.calls
  {
    var extractCall := [ExtractCall(userInput)];
    match service.questionSlugExtractor(userInput)
    case Failure(e) => Run(Failure(e), extractCall)
    case Success(slug) =>
      match TestCasePipeline.ProblemFor(slug)
      case Failure(e) => Run(Failure(e), extractCall)
      case Success(problem) =>
        var fetchCalls := extractCall + [FetchCall(problem)];
        match service.problemDetailsPort(problem)
        case Failure(e) => Run(Failure(e), fetchCalls)
        case Success(details) =>
          var explained := Explained(service.problemStatementExplainer, details);
          Run(explained.result, fetchCalls + explained.calls)
  }

  /** `explain(user_input)`: the steps' calls unchanged; a success is returned as is,
      and every failure, whichever step raised it, becomes an `ExplanationError` whose
      message is the prefix followed by the cause's text and whose cause is chained. */
  function Explain(service: ExplanationService, userInput: string): (run: Run<ExplainProblemStatementResponse>)
    ensures run.calls == ExplainSteps(service, userInput).calls
    ensures run.result.Success? <==> ExplainSteps(service, userInput).result.Success?
    ensures run.result.Success? ==> run.result == ExplainSteps(service, userInput).result
    ensures run.result.Failure? ==>
      && run.result.error.ExplanationError?
      && run.result.error.cause == ExplainSteps(service, userInput).result.error
      && IsPrefix(EXPLANATION_ERROR_PREFIX, run.result.error.message)
  {
    var steps := ExplainSteps(service, userInput);
    match steps.result
    case Success(_) => steps
    case Failure(e) => Run(Failure(WrapFailure(e)), steps.calls)
  }

  /** The explanation service never lets an error of another kind out: an extractor,
      slug, fetcher or port failure alike is reported as `ExplanationError`. */
  lemma FailuresAreExplanationErrors(service: ExplanationService, userInput: string)
    ensures Explain(service, userInput).result.Failure? ==> Explain(service, userInput).result.error.ExplanationError?
    ensures service.questionSlugExtractor(userInput).Failure? ==>
      Explain(service, userInput).result == Failure(WrapFailure(service.questionSlugExtractor(userInput).error))
  {
  }

  /** The try-body as written: the missing class method raises after extraction. */
  function ExplainStepsAsWritten(service: ExplanationService, userInput: string): (run: Run<ExplainProblemStatementResponse>)
    ensures run.calls == [ExtractCall(userInput)] && run.result.Failure?
  {
    match service.questionSlugExtractor(userInput)
    case Failure(e) => Run(Failure(e), [ExtractCall(userInput)])
    case Success(_) => Run(Failure(TestCasePipeline.MISSING_OF_ERROR), [ExtractCall(userInput)])
  }

  /** `explain` as written: the same wrap around the failing steps. */
  function ExplainAsWritten(service: ExplanationService, userInput: string): (run: Run<ExplainProblemStatementResponse>)
    ensures run.result.Failure? && run.result.error.ExplanationError?
    ensures run.result.error.cause == ExplainStepsAsWritten(service, userInput).result.error
  {
    var steps := ExplainStepsAsWritten(service, userInput);
    match steps.result
    case Success(_) => steps
    case Failure(e) => Run(Failure(WrapFailure(e)), steps.calls)
  }

  /** As written, every explanation fails: with a valid extracted slug the user sees
      "Failed to generate explanation: type object 'LeetCodeProblem' has no attribute
      'of'", while the intended service goes on to fetch the problem. */
  lemma AsWrittenAlwaysFails(service: ExplanationService, userInput: string)
    ensures ExplainAsWritten(service, userInput).result.Failure?
    ensures service.questionSlugExtractor(userInput).Success? ==>
      ExplainAsWritten(service, userInput).result.error.message
        == "Failed to generate explanation: " + "type object 'LeetCodeProblem' has no attribute 'of'"
    ensures service.questionSlugExtractor(userInput).Success? && IsValidSlug(service.questionSlugExtractor(userInput).value) ==>
      |Explain(service, userInput).calls| >= 2
  {
    if service.questionSlugExtractor(userInput).Success? {
      var e := WrapFailure(TestCasePipeline.MISSING_OF_ERROR);
      assert ExplainAsWritten(service, userInput).result.error == e;
      assert e.message == EXPLANATION_ERROR_PREFIX + "type object 'LeetCodeProblem' has no attribute 'of'";
    }
  }
}
