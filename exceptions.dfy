/** The error taxonomy as one closed sum type. Each constructor is one exception
    class of the core; the "is-a" predicates give Python's class hierarchy, so that
    an `except SomeBase` clause becomes a test of one predicate. Exceptions that come
    from code outside the model (builtins such as `AttributeError` or `TypeError`,
    the vendor SDK's `APIError`) have constructors of their own.

    Sources: app/domain/shared/exception/base.py,
    app/domain/shared/exception/testcase/testcase_exception.py,
    app/domain/shared/exception/llm/llm_exception.py,
    app/domain/shared/exception/api/api_exception.py,
    app/application/explain/service.py (`ExplanationError`) and
    app/llm/exception/llm_exception.py. */
module Exceptions {

  import opened Wrappers
  import opened LlmBase

  /** The diagnostic context map; its values are `Any` in the source and are carried
      here as their text. */
  type Context = map<string, string>

  /** `LLMError` and its three subclasses, which add no fields and no behaviour. */
  datatype LLMErrorKind = PlainLLMError | RateLimit | Validation | Timeout

  datatype Error =
    // BaseApplicationException and its subclasses: message plus context map
    | BaseApplicationException(message: string, context: Context)
    | TestCaseException(message: string, context: Context)
    | TestCaseNotGeneratedException(message: string, context: Context)
    // the domain LLMException family: plain Exception subclasses
    | LLMException(message: string)
    | StructuredOutputNotGeneratedException(message: string)
    | EmptyResponseException(message: string)
    // the problem-details API family
    | LeetCodeApiError(message: string)
    | LeetCodeProblemNotFoundError(questionSlug: string)
    // the explanation pipeline's wrapper, with its chained cause
    | ExplanationError(message: string, cause: Error)
    // the older package's LLMError hierarchy
    | LLMError(kind: LLMErrorKind, message: string, provider: Option<SupportedLLMProvider>, originalError: Option<Error>)
    // exceptions raised by code outside the model
    | ValueError(message: string)
    | KeyError(message: string)
    // `openai.APIError` or any of its subclasses (connection, rate-limit, status errors)
    | OpenAIAPIError(message: string)
    | Foreign(typeName: string, message: string)

  /** `str(e)`. */
  function Str(e: Error): string {
    match e
    case BaseApplicationException(m, _) => m
    case TestCaseException(m, _) => m
    case TestCaseNotGeneratedException(m, _) => m
    case LLMException(m) => m
    case StructuredOutputNotGeneratedException(m) => m
    case EmptyResponseException(m) => m
    case LeetCodeApiError(m) => m
    case LeetCodeProblemNotFoundError(slug) => NotFoundMessage(slug)
    case ExplanationError(m, _) => m
    case LLMError(_, m, _, _) => m
    case ValueError(m) => m
    case KeyError(m) => m
    case OpenAIAPIError(m) => m
    case Foreign(_, m) => m
  }

  // ---- the class hierarchy ------------------------------------------------------------

  predicate IsBaseApplicationException(e: Error) {
    e.BaseApplicationException? || IsTestCaseException(e)
  }

  predicate IsTestCaseException(e: Error) {
    e.TestCaseException? || e.TestCaseNotGeneratedException?
  }

  predicate IsLLMException(e: Error) {
    e.LLMException? || e.StructuredOutputNotGeneratedException? || e.EmptyResponseException?
  }

  predicate IsLeetCodeApiError(e: Error) {
    e.LeetCodeApiError? || e.LeetCodeProblemNotFoundError?
  }

  /** `isinstance(e, LLMError)` for the older package's hierarchy. */
  predicate IsLLMError(e: Error) {
    e.LLMError?
  }

  /** Only the BaseApplicationException family carries a context map. */
  predicate HasContext(e: Error) {
    IsBaseApplicationException(e)
  }

  // ---- constructors (the classes' `__init__`) --------------------------------------

  /** `BaseApplicationException(message, context)`; `None` for context is the default. */
  function NewBaseApplicationException(message: string, context: Option<Context>): (e: Error)
    ensures IsBaseApplicationException(e) && HasContext(e) && !IsTestCaseException(e)
    ensures Str(e) == message
    ensures context.None? ==> e.context == map[]
    ensures context.Some? ==> e.context == context.value
  {
    // `context or {}`: an empty map supplied by the caller is replaced by an equal one
    BaseApplicationException(message, if context.Some? && context.value != map[] then context.value else map[])
  }

  const TEST_CASE_EXCEPTION_MESSAGE := "An error occurred during test case processing."
  const TEST_CASE_NOT_GENERATED_MESSAGE := "Could not generate test cases."

  /** `TestCaseException(message=...)`; `None` stands for the default message. */
  function NewTestCaseException(message: Option<string>): (e: Error)
    ensures IsTestCaseException(e) && IsBaseApplicationException(e) && !e.TestCaseNotGeneratedException?
    ensures message.None? ==> Str(e) == "An error occurred during test case processing."
    ensures message.Some? ==> Str(e) == message.value
    ensures e.context == map[]
  {
    TestCaseException(message.GetOr(TEST_CASE_EXCEPTION_MESSAGE), map[])
  }

  /** `TestCaseNotGeneratedException(message=...)`; `None` stands for the default message. */
  function NewTestCaseNotGeneratedException(message: Option<string>): (e: Error)
    ensures e.TestCaseNotGeneratedException? && IsTestCaseException(e) && IsBaseApplicationException(e)
    ensures message.None? ==> Str(e) == "Could not generate test cases."
    ensures message.Some? ==> Str(e) == message.value
    ensures e.context == map[]
  {
    TestCaseNotGeneratedException(message.GetOr(TEST_CASE_NOT_GENERATED_MESSAGE), map[])
  }

  /** `LLMException()`, raised without arguments, so its text is empty. */
  function NewLLMException(): (e: Error)
    ensures IsLLMException(e) && !IsBaseApplicationException(e) && !HasContext(e)
    ensures !e.StructuredOutputNotGeneratedException? && !e.EmptyResponseException?
    ensures Str(e) == ""
  {
    LLMException("")
  }

  /** `StructuredOutputNotGeneratedException()`. */
  function NewStructuredOutputNotGeneratedException(): (e: Error)
    ensures IsLLMException(e) && !IsBaseApplicationException(e)
    ensures e.StructuredOutputNotGeneratedException? && !e.EmptyResponseException?
    ensures Str(e) == ""
  {
    StructuredOutputNotGeneratedException("")
  }

  /** `EmptyResponseException()`. */
  function NewEmptyResponseException(): (e: Error)
    ensures IsLLMException(e) && !IsBaseApplicationException(e)
    ensures e.EmptyResponseException? && !e.StructuredOutputNotGeneratedException?
    ensures Str(e) == ""
  {
    EmptyResponseException("")
  }

  /** The text `LeetCodeProblemNotFoundError` hands to `Exception.__init__`. */
  function NotFoundMessage(questionSlug: string): string {
    "Problem with slug '" + questionSlug + "' not found."
  }

  /** `LeetCodeProblemNotFoundError(question_slug)`. */
  function NewLeetCodeProblemNotFoundError(questionSlug: string): (e: Error)
    ensures IsLeetCodeApiError(e) && !IsBaseApplicationException(e) && !HasContext(e)
    ensures e.LeetCodeProblemNotFoundError? && e.questionSlug == questionSlug
    ensures Str(e) == "Problem with slug '" + questionSlug + "' not found."
  {
    LeetCodeProblemNotFoundError(questionSlug)
  }

  /** `LLMError(message, provider=..., original_error=...)` or one of its subclasses;
      `None` is both the default and an explicit `None`. */
  function NewLLMError(kind: LLMErrorKind, message: string, provider: Option<SupportedLLMProvider>, originalError: Option<Error>): (e: Error)
    ensures IsLLMError(e) && !IsLLMException(e) && !IsBaseApplicationException(e)
    ensures e.kind == kind && Str(e) == message
    ensures e.provider == provider && e.originalError == originalError
  {
    LLMError(kind, message, provider, originalError)
  }
}
