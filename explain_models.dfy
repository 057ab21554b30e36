/** The explanation records (app/domain/explain/models/models.py): the mode
    enumeration, and the request and response whose `__post_init__` check only that
    their fields are present. */
module ExplainModels {

  import opened Wrappers
  import opened Exceptions
  import opened LeetCode

  /** `ExplainationMode` (the source's spelling): exactly three members. */
  datatype ExplainationMode = BEGINNER | INTERMEDIATE | ADVANCED

  /** The members' `.value`: the lower-case names. */
  function ModeValue(m: ExplainationMode): (v: string)
    ensures m == BEGINNER ==> v == "beginner"
    ensures m == INTERMEDIATE ==> v == "intermediate"
    ensures m == ADVANCED ==> v == "advanced"
  {
    match m
    case BEGINNER => "beginner"
    case INTERMEDIATE => "intermediate"
    case ADVANCED => "advanced"
  }

  lemma ModeValueInjective(m1: ExplainationMode, m2: ExplainationMode)
    requires ModeValue(m1) == ModeValue(m2)
    ensures m1 == m2
  {
    assert "beginner"[0] != "intermediate"[0] && "beginner"[0] != "advanced"[0];
    assert "intermediate"[0] != "advanced"[0];
  }

  datatype ExplainProblemStatementRequest = ExplainProblemStatementRequest(problemStatement: LeetCodeProblemDetails, mode: ExplainationMode)

  const STATEMENT_REQUIRED_MESSAGE := "Problem statement is required"

  /** `ExplainProblemStatementRequest(problem_statement=..., mode=...)`: `None` for the
      statement is a missing value, `None` for the mode the default BEGINNER. */
  function NewExplainProblemStatementRequest(problemStatement: Option<LeetCodeProblemDetails>, mode: Option<ExplainationMode>): (r: Result<ExplainProblemStatementRequest, Error>)
    ensures r.Success? <==> problemStatement.Some?
    ensures r.Failure? ==> r.error == ValueError(STATEMENT_REQUIRED_MESSAGE)
    ensures r.Success? ==> r.value.problemStatement == problemStatement.value
    ensures r.Success? && mode.None? ==> r.value.mode == BEGINNER
    ensures r.Success? && mode.Some? ==> r.value.mode == mode.value
  {
    if problemStatement.None? then Failure(ValueError(STATEMENT_REQUIRED_MESSAGE))
    else Success(ExplainProblemStatementRequest(problemStatement.value, mode.GetOr(BEGINNER)))
  }

  datatype ExplainProblemStatementResponse = ExplainProblemStatementResponse(questionSlug: string, explaination: string)

  const SLUG_REQUIRED_MESSAGE := "Question slug is required"
  const EXPLAINATION_REQUIRED_MESSAGE := "Explaination is required"

  /** `ExplainProblemStatementResponse(question_slug=..., explaination=...)`: only a
      missing (`None`) field is refused, so an empty explanation is accepted. */
  function NewExplainProblemStatementResponse(questionSlug: Option<string>, explaination: Option<string>): (r: Result<ExplainProblemStatementResponse, Error>)
    ensures r.Success? <==> questionSlug.Some? && explaination.Some?
    ensures questionSlug.None? ==> r == Failure(ValueError(SLUG_REQUIRED_MESSAGE))
    ensures questionSlug.Some? && explaination.None? ==> r == Failure(ValueError(EXPLAINATION_REQUIRED_MESSAGE))
    ensures r.Success? ==> r.value.questionSlug == questionSlug.value && r.value.explaination == explaination.value
  {
    if questionSlug.None? then Failure(ValueError(SLUG_REQUIRED_MESSAGE))
    else if explaination.None? then Failure(ValueError(EXPLAINATION_REQUIRED_MESSAGE))
    else Success(ExplainProblemStatementResponse(questionSlug.value, explaination.value))
  }

  /** An empty explanation passes validation. */
  lemma EmptyExplainationAccepted(questionSlug: string)
    ensures NewExplainProblemStatementResponse(Some(questionSlug), Some("")).Success?
    ensures NewExplainProblemStatementResponse(Some(questionSlug), Some("")).value.explaination == ""
  {
  }
}
