/** The test-case domain records (app/domain/testcase/models/models.py): the
    difficulty enumeration with its rule texts, the generated test case records and
    the validated generation request. */
module TestCaseModels {

  import opened Wrappers
  import opened Text
  import opened Exceptions
  import opened LeetCode

  datatype Difficulty = EASY | MEDIUM | HARD

  datatype TestCase = TestCase(testCaseContent: string, expectedResult: string, isEdgeCase: bool)

  /** `TestCase(test_case_content=..., expected_result=..., is_edge_case=...)`; the flag
      defaults to false. */
  function NewTestCase(content: string, expected: string, isEdgeCase: Option<bool>): (t: TestCase)
    ensures t.testCaseContent == content && t.expectedResult == expected
    ensures isEdgeCase.None? ==> !t.isEdgeCase
    ensures isEdgeCase.Some? ==> t.isEdgeCase == isEdgeCase.value
  {
    TestCase(content, expected, isEdgeCase.GetOr(false))
  }

  /** The text pydantic gives when a `Literal[True]` field receives another value. */
  const LITERAL_TRUE_MESSAGE := "Input should be True"

  /** `EdgeTestCase(...)`: the flag is `Literal[True]`, so it defaults to true and an
      explicit false is a validation error (pydantic's ValidationError is a ValueError). */
  function NewEdgeTestCase(content: string, expected: string, isEdgeCase: Option<bool>): (r: Result<TestCase, Error>)
    ensures r.Success? <==> isEdgeCase != Some(false)
    ensures r.Success? ==> r.value == TestCase(content, expected, true)
    ensures r.Failure? ==> r.error == ValueError(LITERAL_TRUE_MESSAGE)
  {
    if isEdgeCase == Some(false) then Failure(ValueError(LITERAL_TRUE_MESSAGE))
    else Success(TestCase(content, expected, true))
  }

  /** The structured-output schema of the final draft. */
  datatype ProblemTestCases = ProblemTestCases(testCases: seq<TestCase>)

  datatype TestCaseGenerationRequest = TestCaseGenerationRequest(
    userMessage: string,
    difficulty: Difficulty,
    numTestCases: int,
    problemDetails: LeetCodeProblemDetails)

  datatype TestCaseGenerationResponse = TestCaseGenerationResponse(questionSlug: string, testCases: ProblemTestCases)

  const DEFAULT_NUM_TEST_CASES := 1
  const MAX_NUM_TEST_CASES := 10

  const COUNT_TOO_SMALL_MESSAGE := "Number of test cases must be at least 1"
  const DETAILS_REQUIRED_MESSAGE := "Problem details are required"
  const USER_MESSAGE_REQUIRED_MESSAGE := "User message is required"

  /** `TestCaseGenerationRequest(...)` with its `__post_init__`: the count is checked
      first, then clamped, then the problem details, then the user message. `None`
      for the count is the default; `None` for the details is a missing value. The
      difficulty check of the source cannot fail here, since `Difficulty` is closed. */
  function NewTestCaseGenerationRequest(userMessage: string, difficulty: Difficulty, numTestCases: Option<int>, problemDetails: Option<LeetCodeProblemDetails>): (r: Result<TestCaseGenerationRequest, Error>)
    ensures var n := numTestCases.GetOr(1);
      && (r.Success? <==> n >= 1 && problemDetails.Some? && !IsBlank(userMessage))
      && (n < 1 ==> r == Failure(ValueError(COUNT_TOO_SMALL_MESSAGE)))
      && (n >= 1 && problemDetails.None? ==> r == Failure(ValueError(DETAILS_REQUIRED_MESSAGE)))
      && (n >= 1 && problemDetails.Some? && IsBlank(userMessage) ==> r == Failure(ValueError(USER_MESSAGE_REQUIRED_MESSAGE)))
    ensures r.Success? ==> 1 <= r.value.numTestCases <= 10
    ensures r.Success? ==> r.value.numTestCases == (if numTestCases.GetOr(1) > 10 then 10 else numTestCases.GetOr(1))
    ensures r.Success? ==> r.value.userMessage == userMessage && r.value.difficulty == difficulty
    ensures r.Success? ==> r.value.problemDetails == problemDetails.value
  {
    var n := numTestCases.GetOr(DEFAULT_NUM_TEST_CASES);
    if n < 1 then Failure(ValueError(COUNT_TOO_SMALL_MESSAGE))
    else
      var clamped := if n > MAX_NUM_TEST_CASES then MAX_NUM_TEST_CASES else n;
      if problemDetails.None? then Failure(ValueError(DETAILS_REQUIRED_MESSAGE))
      else if IsBlank(userMessage) then Failure(ValueError(USER_MESSAGE_REQUIRED_MESSAGE))
      else Success(TestCaseGenerationRequest(userMessage, difficulty, clamped, problemDetails.value))
  }

  /** The clamp as the source writes it: the assignment at the clamp targets a frozen
      dataclass, whose `__setattr__` raises `FrozenInstanceError` (a subclass of
      `AttributeError`) instead of storing 10. */
  function NewTestCaseGenerationRequestAsWritten(userMessage: string, difficulty: Difficulty, numTestCases: Option<int>, problemDetails: Option<LeetCodeProblemDetails>): (r: Result<TestCaseGenerationRequest, Error>)
    ensures numTestCases.GetOr(1) > 10 ==> r.Failure? && r.error.Foreign? && r.error.typeName == "FrozenInstanceError"
    ensures numTestCases.GetOr(1) <= 10 ==> r == NewTestCaseGenerationRequest(userMessage, difficulty, numTestCases, problemDetails)
  {
    var n := numTestCases.GetOr(DEFAULT_NUM_TEST_CASES);
    if n < 1 then Failure(ValueError(COUNT_TOO_SMALL_MESSAGE))
    else if n > MAX_NUM_TEST_CASES then Failure(Foreign("FrozenInstanceError", "cannot assign to field 'num_test_cases'"))
    else if problemDetails.None? then Failure(ValueError(DETAILS_REQUIRED_MESSAGE))
    else if IsBlank(userMessage) then Failure(ValueError(USER_MESSAGE_REQUIRED_MESSAGE))
    else Success(TestCaseGenerationRequest(userMessage, difficulty, n, problemDetails.value))
  }

  /** With a count of 15 the request as written cannot be built, while the intended
      request is built with the count capped at 10: 15 behaves like 10. */
  lemma ClampAsWrittenRefusesLargeCount(userMessage: string, difficulty: Difficulty, details: LeetCodeProblemDetails)
    requires !IsBlank(userMessage)
    ensures NewTestCaseGenerationRequestAsWritten(userMessage, difficulty, Some(15), Some(details)).Failure?
    ensures NewTestCaseGenerationRequest(userMessage, difficulty, Some(15), Some(details))
         == NewTestCaseGenerationRequest(userMessage, difficulty, Some(10), Some(details))
    ensures NewTestCaseGenerationRequest(userMessage, difficulty, Some(15), Some(details)).Success?
  {
  }

  const EASY_RULES: string :=
    "\n" +
    "- Focus on basic functionality testing\n" +
    "- Use simple, straightforward inputs\n" +
    "- Keep test cases relatively small in size\n" +
    "- Test core algorithm behavior"

  const MEDIUM_RULES: string :=
    "\n" +
    "- Include moderate complexity scenarios\n" +
    "- Test boundary conditions (but not edge cases)\n" +
    "- Use medium-sized inputs\n" +
    "- Cover multiple solution paths"

  const HARD_RULES: string :=
    "\n" +
    "- Generate complex, challenging scenarios\n" +
    "- Use larger input sizes where appropriate\n" +
    "- Test algorithmic efficiency requirements\n" +
    "- Include intricate cases that test deep understanding"

  /** The `difficulty_description` map: a rule text for every difficulty, a different
      text for each. */
  function DifficultyDescription(d: Difficulty): (rules: string)
    ensures rules != ""
    ensures d == EASY ==> rules == EASY_RULES
    ensures d == MEDIUM ==> rules == MEDIUM_RULES
    ensures d == HARD ==> rules == HARD_RULES
  {
    match d
    case EASY => EASY_RULES
    case MEDIUM => MEDIUM_RULES
    case HARD => HARD_RULES
  }

  /** No two difficulties share a rule text. */
  lemma DifficultyDescriptionInjective(d1: Difficulty, d2: Difficulty)
    requires DifficultyDescription(d1) == DifficultyDescription(d2)
    ensures d1 == d2
  {
    assert EASY_RULES[3] != MEDIUM_RULES[3];
    assert EASY_RULES[3] != HARD_RULES[3];
    assert MEDIUM_RULES[3] != HARD_RULES[3];
  }
}
