/** The final draft's explainer (app/application/explain/generator.py): a system
    prompt that embeds the problem text between tags, a user prompt that never
    changes, and one call of the text port, whose answer becomes the explanation. */
module ExplainGeneration {

  import opened Wrappers
  import opened Text
  import opened Exceptions
  import opened LeetCode
  import opened ExplainModels
  import opened PortModels
  import opened Ports

  datatype ProblemStatementExplainer = ProblemStatementExplainer(llmPort: TextPort)

  /** The system prompt's text before the problem statement, up to its opening tag. */
  const SYSTEM_HEAD: string :=
    "\n" +
    "        You are an expert teacher with several years of experience who explains the LeetCode problem statement and makes it easy to understand.\n" +
    "        You HAVE TO understand that very often the statement is complex and can lead to incorrect solution and approach.\n" +
    "        Your task is to explain the problem statement in a way that is easy to understand and helps the user to understand what he has to do.\n" +
    "        Explain the problem like you are explaining to a beginner or 5 - year old child.\n" +
    "        <GUIDELINES>\n" +
    "            - YOU ARE NOT ALLOWED to provide any code or solution to the problem.\n" +
    "            - YOU ARE NOT ALLOWED TO go beyond the borders of the problem\n" +
    "            - YOU HAVE TO focus on the problem statement provided in <PROBLEM_STATEMENT> section.\n" +
    "            - YOU HAVE TO take into account the edge cases and the constraints provided within the problem statement.\n" +
    "        </GUIDELINES>\n" +
    "        <OUTPUT_FORMAT>\n" +
    "            - Provide simple explaination in plain text\n" +
    "            - YOU ARE NOT ALLOWED to provide any code or solution to the problem.\n" +
    "        </OUTPUT_FORMAT>\n"

  const STATEMENT_OPEN := "        <PROBLEM_STATEMENT>\n        "
  const STATEMENT_CLOSE := "\n        </PROBLEM_STATEMENT>"
  const SYSTEM_TAIL := "\n        "

  /** The system prompt: the fixed instructions, then the problem's content between
      the problem-statement tags. The content can be read back from the prompt. */
  function SystemPrompt(request: ExplainProblemStatementRequest): (p: string)
    ensures IsInfix(STATEMENT_OPEN + request.problemStatement.questionContent + STATEMENT_CLOSE, p)
    ensures |p| == |SYSTEM_HEAD| + |STATEMENT_OPEN| + |request.problemStatement.questionContent| + |STATEMENT_CLOSE| + |SYSTEM_TAIL|
    ensures p[..|SYSTEM_HEAD|] == SYSTEM_HEAD
    ensures p[|SYSTEM_HEAD| + |STATEMENT_OPEN|..|p| - |STATEMENT_CLOSE| - |SYSTEM_TAIL|] == request.problemStatement.questionContent
  {
    var embedded := STATEMENT_OPEN + request.problemStatement.questionContent + STATEMENT_CLOSE;
    InfixOfConcat(SYSTEM_HEAD, embedded, SYSTEM_TAIL);
    SYSTEM_HEAD + embedded + SYSTEM_TAIL
  }

  /** Two requests give the same system prompt exactly when their problem contents
      agree: nothing else of the request enters it. */
  lemma SystemPromptDeterminedByContent(r1: ExplainProblemStatementRequest, r2: ExplainProblemStatementRequest)
    ensures SystemPrompt(r1) == SystemPrompt(r2) <==> r1.problemStatement.questionContent == r2.problemStatement.questionContent
  {
    if SystemPrompt(r1) == SystemPrompt(r2) {
      var p := SystemPrompt(r1);
      assert r1.problemStatement.questionContent == p[|SYSTEM_HEAD| + |STATEMENT_OPEN|..|p| - |STATEMENT_CLOSE| - |SYSTEM_TAIL|];
    }
  }

  const USER_PROMPT: string :=
    "\n" +
    "        Explain the problem statement like you are explaining to a beginner or 5 - year old child.\n" +
    "        "

  /** The user prompt: one fixed text, whatever the request. */
  function UserPrompt(request: ExplainProblemStatementRequest): (p: string)
    ensures p == USER_PROMPT
  {
    USER_PROMPT
  }

  /** The port request: the fixed user prompt and the request's system prompt. */
  function BuildLLMRequest(request: ExplainProblemStatementRequest): (r: LLMRequest)
    ensures r.userPrompt == USER_PROMPT
    ensures r.systemPrompt == Some(SystemPrompt(request))
  {
    LLMRequest(UserPrompt(request), Some(SystemPrompt(request)))
  }

  /** `explain_problem_statement`: exactly one text call; a port error reaches the
      caller unchanged; on success the response carries the problem's slug and the
      port's text verbatim (the response's presence checks cannot fail here). */
  function ExplainProblemStatement(explainer: ProblemStatementExplainer, request: ExplainProblemStatementRequest): (run: Run<ExplainProblemStatementResponse>)
    ensures run.calls == [TextCall(BuildLLMRequest(request))]
    ensures explainer.llmPort(BuildLLMRequest(request)).Failure? ==>
      run.result == Failure(explainer.llmPort(BuildLLMRequest(request)).error)
    ensures explainer.llmPort(BuildLLMRequest(request)).Success? ==>
      && run.result.Success?
      && run.result.value.questionSlug == request.problemStatement.questionSlug
      && run.result.value.explaination == explainer.llmPort(BuildLLMRequest(request)).value
  {
    var llmRequest := BuildLLMRequest(request);
    var calls := [TextCall(llmRequest)];
    match explainer.llmPort(llmRequest)
    case Failure(e) => Run(Failure(e), calls)
    case Success(text) =>
      Run(NewExplainProblemStatementResponse(Some(request.problemStatement.questionSlug), Some(text)), calls)
  }
}
