# LeetCode Help Buddy, modelled in Dafny

This project models the core of LeetCode Help Buddy. The assistant takes a
user's message naming a LeetCode problem and then does one of two things:

- it generates test cases at a chosen difficulty;
- it explains the problem statement for a beginner.

The work goes through abstract ports. One extracts the problem slug, one
fetches the problem's details, and language-model ports return text or
structured output. OpenAI adapters implement the language-model ports.

The model covers these parts of the source:

- **Domain values and their validation** (`leetcode.dfy`, `testcase_models.dfy`,
  `explain_models.dfy`, `port_models.dfy`, `v1_models.dfy`, `llm_base.dfy`):
  - slug validation;
  - the test-case generation request, with its count defaulting and bounds;
  - the edge-test-case rule;
  - the explanation request and response presence checks;
  - the difficulty rule texts.
- **The exception hierarchy** (`exceptions.dfy`). It is one closed `Error`
  datatype. "Is-a" predicates give Python's subclass relation, and `Str` gives
  what `str(e)` prints.
- **The application pipelines**:
  - The test-case generator and service (`testcase_generator.dfy`,
    `testcase_service.dfy`) build the exact prompts, call the structured port
    once, and pass errors through.
  - The explainer and explanation service (`explain_generator.dfy`,
    `explain_service.dfy`) wrap every failure into `ExplanationError` with the
    cause chained.
  - Each pipeline returns a `Run`: its result together with the sequence of
    port calls it made. The contracts can therefore state order: the slug is
    extracted first, the fetch only follows a valid slug, and nothing is
    called after a failure.
- **The OpenAI adapters**:
  - the final draft's port adapter (`openai_port_adapter.dfy`), which maps
    vendor outcomes to domain LLM exceptions;
  - the feature-slice adapter (`llm_openai.dfy`), which checks the schema,
    builds the messages, handles refusals and wraps errors into `LLMError`
    exactly once.
- **The provider registry** (`llm_factory.dfy`). It is a class whose map field
  `register_factory` updates and `create_adapter` reads.
- **The v1 generator** (`v1_generator.dfy`), which resolves its adapter
  through that registry.
- **The test-case text formatter** (`formatter.dfy`). Its loop is a `while`
  loop, proved against a specification function.

The vendor client, the slug extractor and the problem fetcher are parameters.
A vendor call is a function from the request the adapter sends to the outcome
the client returns: a completed response or a raised exception. Float
settings (temperatures, timeouts) are opaque literals, because the code only
stores and forwards them.

Where the system's documented behaviour and its code disagree, the model
follows the code:

- **Over-large counts.** The documented behaviour is that a count above 10 is
  clamped to 10. The code tries to assign to a frozen dataclass, which raises;
  see Findings. The model proves the clamp as intended, and models the raise
  in a separate member.
- **Extractor errors.** The documented behaviour is that an unrecognised
  problem is reported as "problem not found". In the code the extractor is an
  abstract port. Its errors pass through unchanged, and an extracted slug that
  fails validation raises `ValueError` from `LeetCodeProblemSlug`.
- **LLM exceptions.** The documented behaviour is that a structured-output
  failure carries a context. The domain's `LLMException`,
  `StructuredOutputNotGeneratedException` and `EmptyResponseException` take no
  arguments: their message is empty and they have no context.
- **Unknown provider.** The documented behaviour is an "unknown provider"
  error. The code raises `ValueError("No factory registered for
  SupportedLLMProvider.OPENAI")`, rendering the provider with `str`.
- **Explanation result.** The documented behaviour is that an explanation
  returns prose text. The code's service returns the
  `ExplainProblemStatementResponse` object, which holds the slug and the text,
  although it is annotated `-> str`.
- **Temperature.** The documented behaviour puts a temperature on generation
  requests. The final draft's `LLMRequest` has no temperature field; the
  adapter's own temperature is used instead.

## Model

| member | source | states |
|---|---|---|
| `LeetCode.ChecksAcceptExactlyValidSlugs` | app/domain/shared/leetcode/models.py:9-13 | The blank check and the two full-match checks, taken together, accept exactly the slugs that are non-empty, drawn from `a-z` and `-`, and contain a letter. |
| `LeetCode.NewLeetCodeProblemSlug` | app/domain/shared/leetcode/models.py:9-13 | Succeeds iff the slug is valid, and then stores it unchanged. A blank slug fails with the "cannot be empty" `ValueError`; any other invalid slug fails with the invalid-format `ValueError`. |
| `LeetCode.Of` | app/domain/shared/leetcode/models.py:15-17 | Same outcome as the constructor, for every string. |
| `LeetCode.BlankSlugRejected` | app/domain/shared/leetcode/models.py:10-11 | Every empty or all-whitespace string is refused with the "empty" error. |
| `LeetCode.ForeignCharacterRejected` | app/domain/shared/leetcode/models.py:12-13 | Any string holding a character outside `a-z` and `-` is refused. |
| `LeetCode.AcceptedExamples` | app/domain/shared/leetcode/models.py:12-13 | "two-sum", "a--b" and "-a" are accepted: repeated and leading hyphens are allowed. |
| `LeetCode.HyphensOnlyRejected` | app/domain/shared/leetcode/models.py:12-13 | "---" is refused with the invalid-format error: it passes the character check but has no letter. |
| `LeetCode.RejectedExamples` | app/domain/shared/leetcode/models.py:12-13 | "two_sum", "Two-Sum" and "1-two-sum" are refused with the invalid-format error. |
| `TestCaseModels.NewTestCase` | app/domain/testcase/models/models.py:13-16 | The test case keeps its content and expected output. The edge flag defaults to false. |
| `TestCaseModels.NewEdgeTestCase` | app/domain/testcase/models/models.py:18-19 | An edge test case always has the flag set. Passing false is refused with the literal-true validation error. |
| `TestCaseModels.NewTestCaseGenerationRequest` | app/domain/testcase/models/models.py:24-41 | A missing count becomes 1. A count below 1 fails, a count above 10 becomes 10, and otherwise the count is kept. Missing details and a blank message each fail with their own `ValueError`. On success every field is the given one and 1 <= count <= 10. |
| `TestCaseModels.NewTestCaseGenerationRequestAsWritten` | app/domain/testcase/models/models.py:31-41 | A count above 10 fails with `FrozenInstanceError`; for every count up to 10 the outcome is the intended constructor's. |
| `TestCaseModels.ClampAsWrittenRefusesLargeCount` | app/domain/testcase/models/models.py:34-35 | With a count of 15, details and a non-blank message, the written constructor fails, while the intended one succeeds and builds the same request as for a count of 10. |
| `TestCaseModels.DifficultyDescription` | app/domain/testcase/models/models.py:47-63 | Every difficulty has a non-empty rules text, the one written for it. |
| `TestCaseModels.DifficultyDescriptionInjective` | app/domain/testcase/models/models.py:47-63 | Different difficulties have different rule texts. |
| `ExplainModels.ModeValue` | app/domain/explain/models/models.py:6-9 | The three modes' values are "beginner", "intermediate" and "advanced". |
| `ExplainModels.ModeValueInjective` | app/domain/explain/models/models.py:6-9 | Different modes have different values. |
| `ExplainModels.NewExplainProblemStatementRequest` | app/domain/explain/models/models.py:11-20 | Missing details fail with `ValueError`. A missing mode defaults to BEGINNER. On success the given details are stored. |
| `ExplainModels.NewExplainProblemStatementResponse` | app/domain/explain/models/models.py:22-31 | Succeeds iff both the slug and the explanation are present; then both are stored unchanged. |
| `ExplainModels.EmptyExplainationAccepted` | app/domain/explain/models/models.py:30-31 | The presence check accepts an empty explanation: it tests for `None`, not for emptiness. |
| `PortModels.NewLLMResponse` | app/domain/ports/llm/models.py:13-17 | The content is stored. The model name and provider default to absent. |
| `Exceptions.NewBaseApplicationException` | app/domain/shared/exception/base.py:8-14 | The message is kept. A missing context becomes the empty map. `str` of the exception is its message. |
| `Exceptions.NewTestCaseException` | app/domain/shared/exception/testcase/testcase_exception.py:6-10 | A test-case exception, and therefore an application exception, whose text is the given message or the default one, with an empty context. |
| `Exceptions.NewTestCaseNotGeneratedException` | app/domain/shared/exception/testcase/testcase_exception.py:13-17 | A test-case exception whose text is the given message or "Could not generate test cases.", with an empty context. |
| `Exceptions.NewLLMException` | app/domain/shared/exception/llm/llm_exception.py:1-3 | An LLM exception, outside the application-exception tree, with an empty text and no context. |
| `Exceptions.NewStructuredOutputNotGeneratedException` | app/domain/shared/exception/llm/llm_exception.py:5-7 | An LLM exception of that subclass, with an empty text. |
| `Exceptions.NewEmptyResponseException` | app/domain/shared/exception/llm/llm_exception.py:9-11 | An LLM exception of that subclass, with an empty text. |
| `Exceptions.NewLeetCodeProblemNotFoundError` | app/domain/shared/exception/api/api_exception.py:6-10 | A LeetCode API error that keeps the slug. Its text is "Problem with slug '<slug>' not found." |
| `Exceptions.NewLLMError` | app/llm/exception/llm_exception.py:4-26 | An `LLMError` of the given kind (plain or a subclass) that keeps the message, provider and original error. |
| `LlmBase.ProviderValue` | app/llm/base.py:23-24 | OPENAI's value is "openai". |
| `LlmBase.ProviderStr` | app/llm/base.py:23-24 | `str(OPENAI)` is "SupportedLLMProvider.OPENAI". |
| `LlmBase.NewLLMResponse` | app/llm/base.py:26-31 | The content is stored. The model name and provider default to absent. |
| `LlmBase.NewLLMRequest` | app/llm/base.py:33-38 | The prompts are stored. The temperature defaults to 0.1 and the timeout to 30.0. |
| `TestCaseGeneration.NewTestCaseGenerator` | app/application/testcase/generator.py:10-12 | The temperature defaults to 0.7 and is otherwise the given one. |
| `TestCaseGeneration.SystemPrompt` | app/application/testcase/generator.py:32-54 | The prompt is the base instructions, a newline, then the difficulty's rules text, which ends the prompt. |
| `TestCaseGeneration.SystemPromptInjective` | app/application/testcase/generator.py:32-54 | Different difficulties give different system prompts. |
| `TestCaseGeneration.UserPrompt` | app/application/testcase/generator.py:56-65 | The prompt contains the decimal count. The problem content appears between the problem-statement tags, and the examples appear between the examples tags. |
| `TestCaseGeneration.BuildLLMRequest` | app/application/testcase/generator.py:17-21 | The request carries the user prompt and, as system prompt, the difficulty's system prompt. |
| `TestCaseGeneration.GenerateTestCases` | app/application/testcase/generator.py:16-30 | Exactly one structured call, with schema `ProblemTestCases`. Success iff the port succeeds, returning the request's slug and the port's content. Any port failure becomes `TestCaseNotGeneratedException`. |
| `TestCaseGeneration.BuildLLMRequestAsWritten` | app/application/testcase/generator.py:17-21 | The `temperature=` argument is refused with a `TypeError`. |
| `TestCaseGeneration.GenerateTestCasesAsWritten` | app/application/testcase/generator.py:16-30 | For every generator and request, the run fails with `TestCaseNotGeneratedException` and makes no call. |
| `TestCaseGeneration.AsWrittenNeverCallsPort` | app/application/testcase/generator.py:17-30 | For every generator and request, the written version never reaches the port. The intended version always calls it once. |
| `TestCasePipeline.ProblemFor` | app/application/testcase/service.py:24 | A problem can be made for the extracted slug iff the slug is valid, and then it carries that slug. |
| `TestCasePipeline.Generated` | app/application/testcase/service.py:28-35 | Once the details are fetched, the request is built with the count defaulting to 1. A refused request ends the run with its `ValueError` and no call; otherwise the generator's run on that request is the outcome. |
| `TestCasePipeline.Fetched` | app/application/testcase/service.py:26-35 | The fetch is the first call. A fetcher error is returned unchanged and ends the run. After a successful fetch, the request-and-generate step on the fetched details gives the outcome and the remaining calls. |
| `TestCasePipeline.FromSlug` | app/application/testcase/service.py:24-35 | A slug the value type refuses ends the run with the type's `ValueError` and no call. A valid slug goes on to the fetch of exactly that slug. |
| `TestCasePipeline.GenerateTestCases` | app/application/testcase/service.py:16-35 | The slug is extracted first, and at most three calls happen. An extractor error is returned unchanged with nothing else called. Otherwise the remaining steps on the extracted slug give the outcome and the later calls. |
| `TestCasePipeline.StepsInOrder` | app/application/testcase/service.py:16-35 | A fetch happens only after an extraction that gave a valid slug, and fetches that slug. A refused slug, a fetcher error or a refused request each end the run with that error. Otherwise the generator runs once, on the request built from the user's text, the fetched details, the difficulty and the count (default 1), and its outcome and calls are the run's. |
| `TestCasePipeline.GenerateTestCasesAsWritten` | app/application/testcase/service.py:22-35 | The run stops after the extraction; an extractor error is passed on unchanged. |
| `TestCasePipeline.AsWrittenNeverFetches` | app/application/testcase/service.py:23-26 | As written, no fetch ever happens. Whenever the extractor gives a valid slug, the intended service does fetch. |
| `ExplainGeneration.SystemPrompt` | app/application/explain/generator.py:21-40 | The prompt starts with the fixed instructions, and the problem content stands, unchanged, between the statement tags. |
| `ExplainGeneration.SystemPromptDeterminedByContent` | app/application/explain/generator.py:37-39 | Two requests give the same system prompt iff their problem contents are equal. |
| `ExplainGeneration.UserPrompt` | app/application/explain/generator.py:42-45 | The user prompt is the fixed beginner instruction, whatever the request. |
| `ExplainGeneration.BuildLLMRequest` | app/application/explain/generator.py:11-14 | Both prompts come from the request as above. |
| `ExplainGeneration.ExplainProblemStatement` | app/application/explain/generator.py:10-19 | Exactly one text call. A port error is passed on unchanged. On success the response holds the request's slug and the text verbatim. |
| `ExplainPipeline.WrapFailure` | app/application/explain/service.py:32-33 | The wrapper is an `ExplanationError` whose message is the fixed prefix followed by the cause's text, with the cause chained. |
| `ExplainPipeline.Explained` | app/application/explain/service.py:27-31 | The explanation of fetched details is always done on a BEGINNER request for them. |
| `ExplainPipeline.ExplainSteps` | app/application/explain/service.py:24-31 | Extract first, at most three calls, and a fetch only after a valid slug, of that slug. Extractor, slug and fetcher errors end the run. After a successful fetch the explainer's outcome is the run's outcome. |
| `ExplainPipeline.Explain` | app/application/explain/service.py:22-33 | The same calls as the steps. Success iff the steps succeed, and then with the same value. Every failure is an `ExplanationError` carrying the steps' error as its cause and a message that starts with the prefix. |
| `ExplainPipeline.FailuresAreExplanationErrors` | app/application/explain/service.py:22-33 | No other exception type leaves the service. An extractor error is reported wrapped. |
| `ExplainPipeline.ExplainStepsAsWritten` | app/application/explain/service.py:24-25 | The steps stop after the extraction, with a failure. |
| `ExplainPipeline.ExplainAsWritten` | app/application/explain/service.py:22-33 | Always an `ExplanationError`, caused by the written steps' error. |
| `ExplainPipeline.AsWrittenAlwaysFails` | app/application/explain/service.py:24-33 | As written, every explanation fails. With a slug extracted, the message is the missing-attribute text behind the prefix, while the intended service fetches whenever the slug is valid. |
| `OpenAIPortAdapter.NewOpenAIAdapter` | app/infrastructure/adapters/llm/openai.py:14-18 | The adapter keeps the model name. The temperature defaults to 0.5. |
| `OpenAIPortAdapter.PrepareMessages` | app/infrastructure/adapters/llm/openai.py:54-59 | Always two messages: the system one, present even when its content is `None`, then the user prompt. |
| `OpenAIPortAdapter.VendorRequestFor` | app/infrastructure/adapters/llm/openai.py:23-27 | The vendor gets the adapter's model and temperature and the prepared messages. |
| `OpenAIPortAdapter.GenerateTextOutput` | app/infrastructure/adapters/llm/openai.py:20-32 | Success iff the vendor completed with a first choice whose content is non-empty, and that content is returned. A completed but empty answer is `EmptyResponseException`. An `APIError` becomes `LLMException`. Any other exception escapes unchanged. |
| `OpenAIPortAdapter.TextFailuresAreLLMExceptions` | app/infrastructure/adapters/llm/openai.py:28-32 | Apart from non-API vendor exceptions, every text failure is an LLM exception. |
| `OpenAIPortAdapter.GenerateStructuredOutput` | app/infrastructure/adapters/llm/openai.py:34-52 | Success iff the vendor completed with an unrefused first choice, giving its parsed value labelled with the adapter's model and "OPENAI". Every failure is `StructuredOutputNotGeneratedException`. |
| `OpenAIPortAdapter.ReadFirstChoice` | app/infrastructure/adapters/llm/openai.py:43 | Reading `choices` from the Responses-API result is always the `AttributeError`. |
| `OpenAIPortAdapter.GenerateStructuredOutputAsWritten` | app/infrastructure/adapters/llm/openai.py:34-52 | As written, every call fails with `StructuredOutputNotGeneratedException`, whatever the vendor returns. |
| `OpenAIPortAdapter.ResponsesShapeNeverSucceeds` | app/infrastructure/adapters/llm/openai.py:37-52 | Where the chat-shaped adapter succeeds on an unrefused first choice, the written one fails. Behind the test-case generator, the written adapter makes every generation fail with `TestCaseNotGeneratedException`. |
| `OpenAIPortAdapter.GeneratorOverAdapter` | app/infrastructure/adapters/llm/openai.py:34-52 | With this adapter behind the test-case generator, the generator succeeds iff the vendor's first choice is there and unrefused, and returns its parsed test cases. Otherwise it fails with `TestCaseNotGeneratedException`. |
| `LlmOpenAI.NewOpenAIAdapter` | app/llm/openai_adapter.py:41-53 | An empty model name fails with "Model name is required". Otherwise the model and the schema are kept. |
| `LlmOpenAI.ChooseSchema` | app/llm/openai_adapter.py:75-77 | The adapter's schema wins over the argument. With neither, the result is "Response format is required". |
| `LlmOpenAI.Messages` | app/llm/openai_adapter.py:80-83 | The user message is always last. The system message is included iff the system prompt is non-empty. |
| `LlmOpenAI.CallWithStructuredOutput` | app/llm/openai_adapter.py:111-134 | Success iff there is an unrefused first choice, with its parsed value, the adapter's model and OPENAI. A refusal gives an `LLMError` naming it. No choices gives an `IndexError`. |
| `LlmOpenAI.Wrap` | app/llm/openai_adapter.py:93-100 | An `LLMError` or subclass is re-raised unchanged. Anything else becomes a plain `LLMError` with the prefixed text, the provider and the original error. The result is always an `LLMError`. |
| `LlmOpenAI.StructuredOutput` | app/llm/openai_adapter.py:67-100 | The schema error is unwrapped. Otherwise: success iff there is an unrefused first choice, with its parsed content. A refusal keeps its message. Every failure is an `LLMError`. |
| `LlmOpenAI.VendorErrorsWrappedOnce` | app/llm/openai_adapter.py:93-100 | A vendor exception reaches the caller wrapped exactly once: an `LLMError` as itself, anything else with the provider and original error and the prefix. |
| `LlmOpenAI.GenerateStructuredOutput` | app/llm/openai_adapter.py:74-100 | Building the message list by appending and then calling gives exactly the specification function's result. |
| `LlmOpenAI.StructuredOutputAsWritten` | app/llm/openai_adapter.py:85-100 | The written structured path never succeeds. |
| `LlmOpenAI.LogResponseBreaksSuccess` | app/llm/base.py:68-73 | Where the intended path succeeds, the written one fails with the wrapped `AttributeError` from logging. Elsewhere the two agree. |
| `LlmOpenAI.CreateRequestFor` | app/llm/openai_adapter.py:55-60 | The vendor gets the model, the system prompt as instructions, the user prompt as input, and the temperature. |
| `LlmOpenAI.SimpleTextOutput` | app/llm/openai_adapter.py:62-64 | Success iff the vendor answers, returning its `output_text`. Otherwise the vendor's exception is passed on unchanged. |
| `LlmOpenAI.SimpleTextOutputAsWritten` | app/llm/openai_adapter.py:55-64 | Always an `AttributeError`. |
| `LlmOpenAI.UnawaitedCallNeverAnswers` | app/llm/openai_adapter.py:55-64 | When the vendor would answer, the intended path succeeds. The written path fails, whatever the vendor does. |
| `LlmFactory.NotRegisteredMessage` | app/llm/factory/factory.py:42-43 | For OPENAI the text is "No factory registered for SupportedLLMProvider.OPENAI". |
| `LlmFactory.Resolve` | app/llm/factory/factory.py:32-43 | An unregistered provider, or a factory that raises `KeyError`, gives the "not registered" `ValueError`. Otherwise the result is the factory's outcome for the forwarded name and schema. |
| `LlmFactory.ProviderRegistry.constructor` | app/llm/factory/factory.py:27 | The registry starts empty. |
| `LlmFactory.ProviderRegistry.RegisterFactory` | app/llm/factory/factory.py:29-30 | The new map is the old one with `p` bound to `f`. |
| `LlmFactory.ProviderRegistry.CreateAdapter` | app/llm/factory/factory.py:32-43 | The result is `Resolve` on the current map. |
| `LlmFactory.RegisterThenResolve` | app/llm/factory/factory.py:29-43 | After registering `f` for `p`, creating for `p` yields `f`'s outcome whatever was registered before. A `KeyError` is the exception. |
| `LlmFactory.RegistryScenario` | app/llm/factory/factory.py:27-43 | On a fresh registry creation fails with the "not registered" error. After one registration it delegates to the new factory. |
| `V1Models.DifficultyStr` | app/features/testcase/v1/models/models.py:8-11 | `str` of each difficulty is "Difficulty." followed by its name. |
| `V1Models.NewTestCase` | app/features/testcase/v1/models/models.py:13-17 | All fields are stored. The edge flag defaults to false. |
| `V1Models.NewEdgeTestCase` | app/features/testcase/v1/models/models.py:19-20 | The flag is always true; false is refused. |
| `V1Models.NewTestCaseGenerationRequest` | app/features/testcase/v1/models/models.py:22-25 | The count defaults to 3 and is otherwise kept as given. |
| `V1Models.CountsNotBounded` | app/features/testcase/v1/models/models.py:22-25 | The v1 request keeps counts of 0 and 50 as given, while the final domain request refuses 0 and caps 50 at 10. |
| `V1Models.ToDomain` | app/features/testcase/v1/models/models.py:8-11 | The v1 difficulties map one-to-one onto the domain's. |
| `V1Models.DifficultyDescription` | app/features/testcase/v1/models/models.py:32-48 | Every difficulty has a non-empty rules text, the one written for it. |
| `V1Models.DescriptionsAgreeWithDomain` | app/features/testcase/v1/models/models.py:32-48 | The v1 rule texts are the same as the domain's, difficulty by difficulty. |
| `V1Generation.NewTestCaseGenerator` | app/features/testcase/v1/generator/generator.py:34-47 | The model name defaults to "gpt-4o-mini" and the provider to OPENAI; given values are kept. |
| `V1Generation.SystemPrompt` | app/features/testcase/v1/generator/generator.py:96-118 | The prompt is the base instructions followed by the difficulty's rules, which end it. |
| `V1Generation.UserPrompt` | app/features/testcase/v1/generator/generator.py:120-130 | The prompt contains the count, the quoted user message and `str` of the difficulty. |
| `V1Generation.BuildLLMRequest` | app/features/testcase/v1/generator/generator.py:81-85 | The request has the two prompts, temperature 1 and the default timeout. |
| `V1Generation.Generate` | app/features/testcase/v1/generator/generator.py:50-94 | Over the corrected adapter. A registry failure is passed on. Otherwise the adapter's structured output, with no schema argument, decides: success iff it succeeds, returning its content. Its error is returned unchanged. |
| `V1Generation.GenerateTestCases` | app/features/testcase/v1/generator/generator.py:50-94 | Resolving the adapter from the live registry and calling it gives exactly `Generate` on the registry's map. |
| `V1Generation.OpenAIFactoryRequest` | app/features/testcase/v1/generator/generator.py:72-87 | With the OpenAI factory registered, the vendor is asked with the generator's model, the response schema and temperature 1. Over the corrected adapter, the result is the parsed object iff the first choice is present and unrefused. |
| `V1Generation.GenerateAsWritten` | app/features/testcase/v1/generator/generator.py:72-94 | Over the adapter as written the generator never returns content. A registry failure is passed on; otherwise the adapter's written error is raised. |
| `V1Generation.LoggingBreaksGenerator` | app/llm/base.py:68-73 | With the OpenAI factory registered: where the intended generator returns the parsed object, the written one raises the wrapped "'LLMResponse' object has no attribute 'model'" `LLMError`. Where the intended one fails, both fail alike. |
| `Formatter.CaseLines` | app/0ld_deprecated/ui/formatters/testcase/testcase_formatter.py:10-13 | Four lines per test case: input, expected output, edge flag, then an empty line. |
| `Formatter.FormattedLinesShape` | app/0ld_deprecated/ui/formatters/testcase/testcase_formatter.py:8-13 | The line list has four lines per test case, and the case's lines sit at positions `4i` to `4i+3`. |
| `Formatter.FormatTestcase` | app/0ld_deprecated/ui/formatters/testcase/testcase_formatter.py:7-14 | The loop's text is the newline-join of the lines of all cases in order. |
| `Formatter.EmptyFormatsToEmpty` | app/0ld_deprecated/ui/formatters/testcase/testcase_formatter.py:8-14 | No test cases gives the empty string. |
| `Formatter.NewlineCount` | app/0ld_deprecated/ui/formatters/testcase/testcase_formatter.py:8-14 | With no newlines inside the fields, the text of `n >= 1` cases has exactly `4n - 1` newlines. |

## Left out

- The user interface, bootstrap and wiring (`service_factory`, `openai_factory`,
  the feature router, the package re-exports) are not part of this model. They
  do more than assemble the modelled parts, because they name code that does
  not exist:
  - app/infrastructure/factories/service_factory.py:8 imports
    `AlfaLCGetProblemDetailsAdapter` and `SimpleQuestionSlugExtractorAdapter`,
    but app/infrastructure/adapters/api/leetcode.py defines only
    `GetProblemDetailsAdapter` (:9).
  - service_factory.py:9 imports `OpenAITemperatureConfigurableAdapter`, but
    app/infrastructure/adapters/llm/openai.py defines only `OpenAIAdapter`
    (:11). The test-case service is wired to that missing class
    (service_factory.py:21-25), not to the adapter modelled as
    `OpenAIPortAdapter`. The model instead composes the test-case generator
    with `OpenAIPortAdapter` (`OpenAIPortAdapter.GeneratorOverAdapter`).
  - app/features/router/feature_router.py:13-14 registers the v1
    `TestCaseGenerator()`, and `dispatch` (:17-18) calls `handleRequest` on it.
    The v1 generator has no `handleRequest`; its operation is
    `generate_test_cases` (app/features/testcase/v1/generator/generator.py:50).
    So every dispatch, such as the one at app/0ld_deprecated/ui/gradio_app.py:176,
    raises `AttributeError`. The model describes `generate_test_cases` itself
    (`V1Generation.Generate`).
- The problem fetcher over HTTP and the slug extractor's internals are not
  modelled. Both are abstract ports, and here they are parameters.
- The port declarations are not modelled. The test-case service calls
  `get_problem_details` while the fetcher port declares
  `get_by_question_slug`; the model uses one fetcher function.
- The vendor client's objects are reduced to the fields the adapters read.
- `async`/`await` scheduling, timeouts and `_log_request` logging are not
  modelled. Only the logging call that raises matters to the outcome; see
  Findings.
- `validate_connection` is not modelled. It refers to `openai`, which the
  module does not import, and nothing in the core calls it.
- The `**kw` extra arguments of `create_adapter` are not modelled; nothing
  passes any.
- Float arithmetic is out of scope: temperatures and timeouts are opaque
  literals.
- `LlmFactory.ProviderRegistry.RegisterFactory` leaves other providers'
  entries alone. That is stated only through the map update, because the
  provider enumeration has a single member.
- The enum membership checks on difficulty and mode cannot fail with closed
  datatypes, so they have no error path here.
- Import-time failures of the final draft are not modelled; the model assumes
  every module imports as intended. Three are known:
  - The port adapter imports from `domain.ports...` instead of `app.domain...`
    (app/infrastructure/adapters/llm/openai.py:5).
  - The same module imports `Dict` from `ast` (openai.py:1). The annotation
    `List[Dict[str, str]]` at openai.py:55 is evaluated when the class body
    runs, and subscripting `ast.Dict` raises `TypeError` on Python versions
    that evaluate annotations eagerly. So the adapter module cannot be
    imported there.
  - Both services import `QuestionSlugExtractorPort` from
    `app.domain.ports.api.leetcode` (app/application/testcase/service.py:2,
    app/application/explain/service.py:1). That module defines only
    `GetProblemDetailsPort` (app/domain/ports/api/leetcode.py:4), so both raise
    `ImportError` before the missing `LeetCodeProblem.of` is ever reached.
  - The older `app.llm` package re-exports `BaseLLMAdapter` from its base
    module (app/llm/__init__.py:11), which defines no such class (its classes
    are at app/llm/base.py:23, :27, :34, :40 and :76). Importing any `app.llm`
    module therefore raises `ImportError`. That covers the base module, the
    OpenAI adapter, the LLM exceptions and the factory, and through them the v1
    generator (app/features/testcase/v1/generator/generator.py:13-15).
  - The OpenAI factory annotates its result as `SimpleLLMAdapter[T]`
    (app/llm/factory/openai_factory.py:16) without postponed annotations, and
    `SimpleLLMAdapter` (app/llm/base.py:40) is not generic. On Pythons that
    evaluate annotations eagerly the `def` raises `TypeError`, before
    `register_factory` at openai_factory.py:19 runs, so OPENAI is never
    registered there.
  - Every `OpenAIPortAdapter`, `TestCasePipeline` and `ExplainPipeline` member
    describes the code as it runs once these imports are repaired. So does every
    `LlmBase`, `LlmOpenAI`, `LlmFactory` and `V1Generation` member and
    `Exceptions.NewLLMError`; `V1Generation.OpenAIFactoryRequest` and
    `V1Generation.LoggingBreaksGenerator` take the OpenAI factory's registration
    as a precondition for that reason.
- Concurrency is not modelled.
- `V1Generation.Generate` and `V1Generation.GenerateTestCases` are composed over
  the corrected adapter, `LlmOpenAI.StructuredOutput`. As written, the adapter
  logs every unrefused answer through `_log_response`, which raises, so the
  source's `generate_test_cases` never returns content; see Findings.
  `V1Generation.GenerateAsWritten` models that path, and
  `V1Generation.LoggingBreaksGenerator` relates the two.
- `OpenAIPortAdapter.GenerateStructuredOutput` gives the vendor the
  chat-completions shape: a `choices` list whose first entry carries a refusal
  and the parsed value. The source's call, `responses.parse`, returns a
  Responses-API object with no `choices` (see Findings). The success case of
  this member and of `OpenAIPortAdapter.GeneratorOverAdapter` holds only for
  that assumed shape. `OpenAIPortAdapter.GenerateStructuredOutputAsWritten`
  models the call as written.
- `ExplainGeneration.UserPrompt`: the contract states the constant prompt
  text. The f-string has no placeholders, so there is nothing more to relate.

## Findings

| source | as written | input that shows it | evidently intended | confidence | as-written member | corrected member |
|---|---|---|---|---|---|---|
| app/application/testcase/service.py:24 | `LeetCodeProblem.of(slug)` is called, but `LeetCodeProblem` has no `of` | any input the extractor turns into a slug, e.g. "two-sum" | build the problem from a validated `LeetCodeProblemSlug` and fetch it | not executed | `TestCasePipeline.GenerateTestCasesAsWritten` | `TestCasePipeline.GenerateTestCases` |
| app/application/explain/service.py:25 | the same missing `LeetCodeProblem.of`, inside the `try`, so every explanation becomes an `ExplanationError` | any input the extractor turns into a slug | fetch the problem and explain it | not executed | `ExplainPipeline.ExplainAsWritten` | `ExplainPipeline.Explain` |
| app/application/testcase/generator.py:17-21 | `LLMRequest(..., temperature=...)`, but the final draft's `LLMRequest` has no temperature field, so the `TypeError` is caught and reported as `TestCaseNotGeneratedException` | any request | call the structured port with the two prompts | not executed | `TestCaseGeneration.GenerateTestCasesAsWritten` | `TestCaseGeneration.GenerateTestCases` |
| app/domain/testcase/models/models.py:34-35 | `self.num_test_cases = 10` in `__post_init__` of a frozen dataclass raises `FrozenInstanceError` | num_test_cases = 11 | clamp the count to 10 | not executed | `TestCaseModels.NewTestCaseGenerationRequestAsWritten` | `TestCaseModels.NewTestCaseGenerationRequest` |
| app/llm/base.py:68-73 | `_log_response` reads `response.model`, which `LLMResponse` does not have; it is called inside the `try` at app/llm/openai_adapter.py:90 | any vendor answer with an unrefused first choice | log and return the response | not executed | `LlmOpenAI.StructuredOutputAsWritten` | `LlmOpenAI.StructuredOutput` |
| app/features/testcase/v1/generator/generator.py:87 | the v1 generator awaits the adapter whose `_log_response` raises on every unrefused answer, so `generate_test_cases` never returns content and raises the wrapped `LLMError` instead | any request the vendor answers with an unrefused first choice | return the parsed test cases | not executed | `V1Generation.GenerateAsWritten` | `V1Generation.Generate` |
| app/infrastructure/adapters/llm/openai.py:37-43 | `client.responses.parse(input=..., text_format=...)` returns a Responses-API object, and `response.choices[0].message` then raises `AttributeError`, which the handler turns into `StructuredOutputNotGeneratedException` | any request, even one the vendor parses without refusal | call the chat-completions parse endpoint, as app/llm/openai_adapter.py:118 does, and read its first choice | not executed; depends on the vendor SDK's response shape | `OpenAIPortAdapter.GenerateStructuredOutputAsWritten` | `OpenAIPortAdapter.GenerateStructuredOutput` |
| app/llm/openai_adapter.py:55-64 | `_call_llm_api` returns the client coroutine without awaiting it, so reading `output_text` raises `AttributeError` | any request, even one the vendor would answer | await the call and return its `output_text` | not executed | `LlmOpenAI.SimpleTextOutputAsWritten` | `LlmOpenAI.SimpleTextOutput` |
