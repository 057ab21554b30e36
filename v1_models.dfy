/** The older draft's records (app/features/testcase/v1/models/models.py): pydantic
    models with defaults and no further validation, and its own copy of the
    per-difficulty rule texts. */
module V1Models {

  import opened Wrappers
  import opened Exceptions
  import Domain = TestCaseModels
  import LeetCode

  datatype Difficulty = EASY | MEDIUM | HARD

  /** `str(member)`, which is what an f-string renders: "Difficulty.EASY" and so on. */
  function DifficultyStr(d: Difficulty): (s: string)
    ensures d == EASY ==> s == "Difficulty.EASY"
    ensures d == MEDIUM ==> s == "Difficulty.MEDIUM"
    ensures d == HARD ==> s == "Difficulty.HARD"
  {
    match d
    case EASY => "Difficulty.EASY"
    case MEDIUM => "Difficulty.MEDIUM"
    case HARD => "Difficulty.HARD"
  }

  datatype TestCase = TestCase(questionSlug: string, testCase: string, expectedResult: string, isEdgeCase: bool)

  /** `TestCase(...)`: the edge flag defaults to false. */
  function NewTestCase(questionSlug: string, testCase: string, expectedResult: string, isEdgeCase: Option<bool>): (t: TestCase)
    ensures t.questionSlug == questionSlug && t.testCase == testCase && t.expectedResult == expectedResult
    ensures isEdgeCase.None? ==> !t.isEdgeCase
    ensures isEdgeCase.Some? ==> t.isEdgeCase == isEdgeCase.value
  {
    TestCase(questionSlug, testCase, expectedResult, isEdgeCase.GetOr(false))
  }

  /** `EdgeTestCase(...)`: the flag is `Literal[True]`, so it is true or the model is refused. */
  function NewEdgeTestCase(questionSlug: string, testCase: string, expectedResult: string, isEdgeCase: Option<bool>): (r: Result<TestCase, Error>)
    ensures r.Success? <==> isEdgeCase != Some(false)
    ensures r.Success? ==> r.value == TestCase(questionSlug, testCase, expectedResult, true)
    ensures r.Failure? ==> r.error == ValueError(Domain.LITERAL_TRUE_MESSAGE)
  {
    if isEdgeCase == Some(false) then Failure(ValueError(Domain.LITERAL_TRUE_MESSAGE))
    else Success(TestCase(questionSlug, testCase, expectedResult, true))
  }

  datatype TestCaseGenerationRequest = TestCaseGenerationRequest(userMessage: string, difficulty: Difficulty, numTestCases: int)

  const DEFAULT_NUM_TEST_CASES := 3

  /** `TestCaseGenerationRequest(user_message=..., difficulty=..., num_test_cases=...)`:
      the count defaults to 3 and any integer is kept, zero and negatives included. */
  function NewTestCaseGenerationRequest(userMessage: string, difficulty: Difficulty, numTestCases: Option<int>): (r: TestCaseGenerationRequest)
    ensures r.userMessage == userMessage && r.difficulty == difficulty
    ensures numTestCases.None? ==> r.numTestCases == 3
    ensures numTestCases.Some? ==> r.numTestCases == numTestCases.value
  {
    TestCaseGenerationRequest(userMessage, difficulty, numTestCases.GetOr(DEFAULT_NUM_TEST_CASES))
  }

  /** Unlike the final draft's request, which refuses a count below 1 and caps it at
      10, the older request keeps 0 and 50 as given. */
  lemma CountsNotBounded(userMessage: string, difficulty: Difficulty, details: LeetCode.LeetCodeProblemDetails)
    ensures NewTestCaseGenerationRequest(userMessage, difficulty, Some(0)).numTestCases == 0
    ensures NewTestCaseGenerationRequest(userMessage, difficulty, Some(50)).numTestCases == 50
    ensures Domain.NewTestCaseGenerationRequest(userMessage, Domain.EASY, Some(0), Some(details)).Failure?
    ensures Domain.NewTestCaseGenerationRequest(userMessage, Domain.EASY, Some(50), Some(details)).Success? ==>
      Domain.NewTestCaseGenerationRequest(userMessage, Domain.EASY, Some(50), Some(details)).value.numTestCases == 10
  {
  }

  /** The structured-output schema of the older draft. */
  datatype TestCaseGenerationResponse = TestCaseGenerationResponse(questionSlug: string, testCases: seq<TestCase>, reasoning: string)

  const EASY_RULES: string :=
    "\n" +
    "- Focus on basic functionality testing\n" +
    "- Use simple, straightforward inputs\n" +
    "- Keep test cases relatively small in size\n" +
    "- Test core algorithm behavior"

  const MEDIUM_RULES: string :=
    "\n" +
    "- Include moderate complexity scenarios\n" +
    "- Test boundary conditions (but not edge cases)\n" +
    "- Use medium-sized inputs\n" +
    "- Cover multiple solution paths"

  const HARD_RULES: string :=
    "\n" +
    "- Generate complex, challenging scenarios\n" +
    "- Use larger input sizes where appropriate\n" +
    "- Test algorithmic efficiency requirements\n" +
    "- Include intricate cases that test deep understanding"

  /** The older draft's `difficulty_description`: a rule text for each difficulty. */
  function DifficultyDescription(d: Difficulty): (rules: string)
    ensures rules != ""
    ensures d == EASY ==> rules == EASY_RULES
    ensures d == MEDIUM ==> rules == MEDIUM_RULES
    ensures d == HARD ==> rules == HARD_RULES
  {
    match d
    case EASY => EASY_RULES
    case MEDIUM => MEDIUM_RULES
    case HARD => HARD_RULES
  }

  /** The same-named difficulty of the final draft. */
  function ToDomain(d: Difficulty): (e: Domain.Difficulty)
    ensures d == EASY <==> e == Domain.EASY
    ensures d == MEDIUM <==> e == Domain.MEDIUM
    ensures d == HARD <==> e == Domain.HARD
  {
    match d
    case EASY => Domain.EASY
    case MEDIUM => Domain.MEDIUM
    case HARD => Domain.HARD
  }

  /** Both drafts give every difficulty the same rule text. */
  lemma DescriptionsAgreeWithDomain(d: Difficulty)
    ensures DifficultyDescription(d) == Domain.DifficultyDescription(ToDomain(d))
  {
    match d
    case EASY => assert EASY_RULES == Domain.EASY_RULES;
    case MEDIUM => assert MEDIUM_RULES == Domain.MEDIUM_RULES;
    case HARD => assert HARD_RULES == Domain.HARD_RULES;
  }
}
