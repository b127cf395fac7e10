# Multi-provider AI refinement framework — a Dafny model

This project models the logic-bearing core of a Python package that runs large-language-model
calls under named roles and drives a draft through a bounded review/refine loop ("CAIR").
Everything is modelled as immutable datatypes and pure functions:

- `Core` (`core.dfy`): the `Role` and `ModelTier` enumerations with their string values,
  an opaque `Value` for Python's dynamically typed payloads, and the `RefinementResult` record.
- `Exceptions` (`exceptions.dfy`): the exception class hierarchy (`IsA` is "caught by
  `except`"), the raised error values with their payloads, and their messages.
- `Providers` (`providers.dfy`): the deterministic `MockProvider` (a call counter and a fixed
  answer format), the vendor kinds, and the provider-name lookup `_get_provider`.
- `Cost` (`cost.dfy`): the price table and the `CostTracker` accumulator.
- `Framework` (`framework.dfy`): the `AIFramework` state (role → agent configuration,
  provider name → provider instance, prompt name → text), `configure_agent`, `dispatch`,
  `load_prompt`, `get_prompt`, and the reachable-state invariant `Valid`.
- `Pipeline` (`pipeline.dfy`): `CAIRPipeline` with its defaults, and `execute`, both as a
  recursive function (`Execute`, over `Pass`/`Passes`) and as Python's `for` loop with
  `break` (`ExecuteLoop`, proved equal to `Execute`).
- `Wrappers` (`wrappers.dfy`): `Option` and `Result`, standing for `None` and for raised errors.

Raised exceptions become `Failure` values. A dispatch returns the new framework state (a mock
provider's call counter moves) together with the response. A pipeline run that raises returns
the error together with the framework as the dispatches before the raise left it (`Aborted`),
since Python's `execute` has already moved those counters when it raises. The pipeline also returns the list
of dispatches it made (`calls`), so that statements like "the generator is dispatched once and the
QA role never" can be written down; `Perform` replays such a list on a framework, and a
successful run's framework is exactly the replay of its list on the framework it started from.

Behaviour of the code worth knowing:

- `history` holds the output texts, starting with the generator's draft, so `iterations` is one
  more than the number of review/refine passes.
- A budget `max_iterations <= 0` runs no pass; the score is then `0.0`.
- The refine prompt is built from the reviewer's feedback alone, not from the draft.
- Scoring is the placeholder `0.7 + 0.1 * i`; the QA role is never dispatched.
- The score exceeds 1.0 when the threshold is above 1.0 and the budget allows more than four passes.
- A role is always one of the five `Role` members, so an unconfigured role is the only
  role-related error `dispatch` raises.
- A non-mock provider is never called; `dispatch` returns a placeholder text quoting the role.

## Model

| member | source | states |
|---|---|---|
| Core.ParseRole | src/ai_refinement_framework/core.py:25-29 | looking a role up by value succeeds only for a string that is that role's value |
| Core.RoleValueRoundTrip | src/ai_refinement_framework/core.py:25-29 | each role's value ("generator", "reviewer", "refiner", "qa_analyst", "orchestrator") looks up that role |
| Core.RoleValueInjective | src/ai_refinement_framework/core.py:25-29 | the five role values are pairwise distinct, so `role.value` identifies the role |
| Core.ParseTier | src/ai_refinement_framework/core.py:39-40 | looking a tier up by value succeeds only for that tier's value |
| Core.TierValueRoundTrip | src/ai_refinement_framework/core.py:39-40 | "pro" and "flash" look up PRO and FLASH, and differ |
| Core.NewResult | src/ai_refinement_framework/core.py:55-67 | the record stores output, score, iterations and history verbatim; omitted metadata becomes the empty map |
| Exceptions.AllAreFrameworkErrors | src/ai_refinement_framework/exceptions.py:9-45 | every framework exception class derives from AIFrameworkError |
| Exceptions.IsADepth | src/ai_refinement_framework/exceptions.py:9-45 | a proper ancestor sits strictly nearer the root of the hierarchy |
| Exceptions.IsATransitive | src/ai_refinement_framework/exceptions.py:9-45 | the subclass relation is transitive |
| Exceptions.IsAAntisymmetric | src/ai_refinement_framework/exceptions.py:9-45 | two distinct classes are never subclasses of each other |
| Exceptions.FamiliesDisjoint | src/ai_refinement_framework/exceptions.py:14-21 | no class is both a ConfigurationError and a ProviderError |
| Exceptions.RoleFromMessage | src/ai_refinement_framework/exceptions.py:27-29 | a role read back from a message is one the message was built from |
| Exceptions.PromptNameFromMessage | src/ai_refinement_framework/exceptions.py:35-37 | a prompt name read back from a message is one the message was built from |
| Exceptions.RoleNotConfiguredMessage | src/ai_refinement_framework/exceptions.py:24-29 | the message "No agent configured for role: " + role gives back exactly the role; the error is a ConfigurationError |
| Exceptions.PromptNotFoundMessage | src/ai_refinement_framework/exceptions.py:32-37 | the message "Prompt not found: " + name gives back exactly the name; the error is not a ConfigurationError |
| Exceptions.ModelNotFoundMessage | src/ai_refinement_framework/exceptions.py:40-46 | ModelNotFound is a ProviderError and not a ConfigurationError; its message quotes the model and the provider |
| Providers.NewMock | src/ai_refinement_framework/providers.py:61-63 | a new mock provider has made no calls |
| Providers.Take | src/ai_refinement_framework/providers.py:87 | `s[:n]` is the prefix of length min(len(s), n), and all of s when it is no longer than n |
| Providers.MockTextQuotesPrompt | src/ai_refinement_framework/providers.py:87 | the mock answer quotes the model and exactly the first 50 characters of the prompt (the whole prompt when it is at most 50 long) between its fixed head and the trailing "..." |
| Providers.Generate | src/ai_refinement_framework/providers.py:65-87 | generate raises the call count by exactly one and returns the mock text |
| Providers.GenerateIgnoresParameters | src/ai_refinement_framework/providers.py:65-87 | temperature, max_tokens, kwargs and the call count never change the answer |
| Providers.AvailableModels | src/ai_refinement_framework/providers.py:89-96 | three distinct model names, each starting with "mock-" |
| Providers.GetProvider | src/ai_refinement_framework/framework.py:154-182 | "openai", "anthropic", "google"/"gemini" select their vendor when its SDK is installed; otherwise, and for every other name, a fresh mock |
| Cost.PricesNonNegative | src/ai_refinement_framework/cost.py:12-62 | no listed price is negative |
| Cost.NewTracker | src/ai_refinement_framework/cost.py:73-78 | a new tracker has an empty log and totals consistent with it |
| Cost.SumsAppend | src/ai_refinement_framework/cost.py:99-108 | appending one record adds exactly its tokens and cost to the sums over the log |
| Cost.EstimateCost | src/ai_refinement_framework/cost.py:110-134 | zero for an unpriced model; otherwise 1000 times the estimate equals tokens times price, input plus output |
| Cost.EstimateCostMonotone | src/ai_refinement_framework/cost.py:127-134 | the estimate is monotone in both token counts and non-negative for non-negative counts |
| Cost.AddCall | src/ai_refinement_framework/cost.py:80-108 | appends exactly one record (explicit cost verbatim, else the estimate), adds the token counts to the totals, and keeps the totals equal to the sums over the log |
| Cost.GetSummary | src/ai_refinement_framework/cost.py:136-149 | total_calls is the log length, total_tokens is input plus output, and for a consistent tracker the totals are the sums over the log |
| Cost.Reset | src/ai_refinement_framework/cost.py:151-156 | reset yields exactly the freshly constructed tracker: empty log, zero totals |
| Cost.Replay | src/ai_refinement_framework/cost.py:73-108 | after any sequence of recorded calls on a new tracker, the log is that sequence and the totals are its sums |
| Framework.ReplyDependsOnWiring | src/ai_refinement_framework/framework.py:107-124 | the answer to a role depends only on the configuration and provider kinds, not on mock call counters |
| Framework.Init | src/ai_refinement_framework/framework.py:44-48 | a new framework has no agents, providers or prompts, and satisfies the invariant |
| Framework.ConfigureAgent | src/ai_refinement_framework/framework.py:50-80 | the role's entry is replaced wholesale, every other role's entry is unchanged, a provider instance is created only for a new name, and the invariant is kept |
| Framework.ConfigureDefaults | src/ai_refinement_framework/framework.py:55-56 | omitted tier and temperature are PRO and 0.7 |
| Framework.ReconfigureReplaces | src/ai_refinement_framework/framework.py:70-80 | configuring a role twice leaves only the second settings, and the first provider instance for a name is kept |
| Framework.Dispatch | src/ai_refinement_framework/framework.py:82-124 | fails with RoleNotConfigured(role.value) exactly for an unconfigured role; otherwise a mock answers with its text and counts one call, any other provider yields "[role] Response to: " + prompt[:50] + "..." and nothing changes |
| Framework.DispatchIgnoresContext | src/ai_refinement_framework/framework.py:82-124 | the context argument never changes the outcome of a dispatch |
| Framework.LoadPrompt | src/ai_refinement_framework/framework.py:126-135 | stores the text under the name and changes nothing else |
| Framework.GetPrompt | src/ai_refinement_framework/framework.py:137-152 | returns the stored text exactly when the name is stored, otherwise PromptNotFound(name) |
| Framework.PromptStoreRoundTrip | src/ai_refinement_framework/framework.py:126-152 | get after load returns the loaded text, other names are undisturbed, a fresh framework has no prompt |
| Framework.Apply | src/ai_refinement_framework/framework.py:50-152 | every public call, failing or not, keeps each configured agent's provider present, and only `configure_agent` changes the set of configured roles (adding its role) |
| Framework.Replay | src/ai_refinement_framework/framework.py:79-80 | every state a new framework reaches through calls that return or raise as modelled satisfies the invariant, and a role is configured exactly when some call configured it |
| Framework.OpenAIDispatchScenario | src/ai_refinement_framework/framework.py:114-124 | a generator on "openai" answers "[generator] Response to: Test prompt..." with the SDK and "[Mock gpt-4] Response to: Test prompt..." without it |
| Pipeline.NewPipeline | src/ai_refinement_framework/pipeline.py:39-65 | the constructor stores its arguments and starts with an empty framework |
| Pipeline.PipelineDefaults | src/ai_refinement_framework/pipeline.py:41-46 | defaults are GENERATOR, REVIEWER, REFINER, QA_ANALYST, 3 passes and threshold 0.85 |
| Pipeline.Pass | src/ai_refinement_framework/pipeline.py:97-112 | one pass reviews the current output, refines from the feedback only, appends exactly one output and scores 0.7 + 0.1·i; on success the framework is what its two logged dispatches, performed in order, make of the one before (each mock counter it reaches moves); it fails exactly when the reviewer or refiner is unconfigured, leaving the framework untouched when the reviewer is missing and as the review left it when the refiner is |
| Pipeline.Passes | src/ai_refinement_framework/pipeline.py:95-115 | the remaining passes extend the history append-only, stop at the first pass meeting the threshold or at the budget; the framework afterwards is what the logged dispatches of these passes make of the one before; a failure is the first pass's, with its error and the framework it left |
| Pipeline.RunMetadata | src/ai_refinement_framework/pipeline.py:123-126 | the metadata holds exactly the initial prompt and the context, verbatim |
| Pipeline.Finish | src/ai_refinement_framework/pipeline.py:118-127 | the result's output is the last history entry, iterations is the history length, the score is the last one computed |
| Pipeline.Execute | src/ai_refinement_framework/pipeline.py:67-127 | succeeds exactly when the roles it reaches are configured; otherwise raises the first missing role's error and leaves the framework untouched (generator missing), as the generator's dispatch left it (reviewer missing) or as the first review left it (refiner missing); history[0] is the generator's answer, each later entry refines the previous one, iterations = len(history) = 1 + passes ≤ 1 + max(0, budget), the stop rule holds, score ≥ 0, the metadata keeps the prompt and context, the dispatches are the generator's then review/refine per pass, and the framework afterwards is what those dispatches, performed in order, make of the starting one (all gathered in `RunShape`) |
| Pipeline.RunPasses | src/ai_refinement_framework/pipeline.py:95-115 | the `for` loop with `break` computes exactly what the recursive passes compute |
| Pipeline.ExecuteLoop | src/ai_refinement_framework/pipeline.py:67-127 | the imperative run equals the functional one |
| Pipeline.DispatchedRoles | src/ai_refinement_framework/pipeline.py:87-109 | the generator is dispatched first with the prompt, then reviewer and refiner alternate; the QA role is never dispatched unless it doubles as one of them |
| Pipeline.LowThresholdSinglePass | src/ai_refinement_framework/pipeline.py:112-115 | a threshold of at most 0.7 with a budget of at least one gives exactly one pass and score 0.7 |
| Pipeline.ScoreWithinUnitInterval | src/ai_refinement_framework/pipeline.py:112-115 | with a threshold of at most 1.0 there are at most four passes and the score lies in [0, 1] |
| Pipeline.ExhaustsBudget | src/ai_refinement_framework/pipeline.py:95-115 | if the last pass of the budget would still score below the threshold, the whole budget is spent and the final score is below the threshold |
| Pipeline.DefaultRun | src/ai_refinement_framework/pipeline.py:41-46 | the default pipeline with its three roles configured makes three passes and ends at score 0.9 |
| Pipeline.MockPipelineScenario | src/ai_refinement_framework/pipeline.py:95-127 | a two-pass budget on a mock provider gives three outputs, score 0.8 and the prompt and context in the metadata |
| Pipeline.MissingReviewerKeepsGeneratorCall | src/ai_refinement_framework/pipeline.py:87-101 | with only the generator configured on a mock, the run raises RoleNotConfiguredError("reviewer") after the mock has counted one call |
| Pipeline.MissingRefinerKeepsReviewerCall | src/ai_refinement_framework/pipeline.py:87-108 | with generator and reviewer on one mock and no refiner, the run raises RoleNotConfiguredError("refiner") after the mock has counted two calls |
| Pipeline.MockPipelineCallCount | src/ai_refinement_framework/providers.py:86 | after that two-pass run the shared mock has counted five calls |
| Pipeline.RunCounts | src/ai_refinement_framework/pipeline.py:87-109 | when the three roles share one mock, a successful run adds 2·iterations − 1 to its call counter (one generation, two dispatches per pass) |
| Pipeline.PerformCounts | src/ai_refinement_framework/providers.py:86 | performing a log of dispatches that all reach one mock adds the log's length to its call counter |
| Pipeline.PerformAppend | src/ai_refinement_framework/framework.py:82-124 | performing two logs one after the other is performing their concatenation |
| Pipeline.Perform | src/ai_refinement_framework/framework.py:82-124 | performing a log of dispatches keeps the invariant and the wiring |
| Pipeline.MockPipelineFirstOutput | src/ai_refinement_framework/pipeline.py:87-92 | in that setting the first output is "[Mock test-model] Response to: Test prompt..." |

## Left out

- Vendor adapters: `OpenAIProvider`, `AnthropicProvider` and `GeminiProvider` (providers.py:99-296) call foreign SDKs over the network; they appear only as provider kinds, which `dispatch` never calls.
- The `Provider` protocol is not a Dafny trait; the closed `Instance` datatype (mock or vendor) stands for it.
- SDK availability: whether a vendor SDK can be imported is the parameter `installed`. Constructor failures other than `ImportError` (for example a missing API key) propagate out of `configure_agent` in Python and are not modelled.
- File reading in `load_prompt` is I/O; the model stores the given content.
- Floating point: scores, prices and costs are exact reals. Python's `0.7 + 1 * 0.1` is 0.7999999999999999 and `0.7 + 2 * 0.1` is 0.8999999999999999, so at a threshold of exactly 0.8 or 0.9 the Python loop runs one pass more than the model when the budget allows one; otherwise both stop after the same pass and Python's score is just below the model's.
- `RefinementResult.__repr__` is float formatting.
- Packaging (`__init__.py`, version string) and the printing demos carry no logic.
- Concurrency: every run is sequential; nothing is shared between runs except the framework value passed in.
- Python's dynamically typed dictionaries (keyword arguments, context, metadata values) are the `Value` datatype; a missing context is `Null`.
- The `**kwargs` of `dispatch` are not modelled: they are forwarded to the mock's `generate`, which ignores them, except that the names `model` and `temperature` make Python raise `TypeError` there.
- Cost: token counts are unbounded integers as in Python (negative counts are accepted there and here), not naturals.
- Framework.Dispatch: requires `Valid`, that every configured agent's provider has an instance; Python would raise `KeyError` otherwise (framework.py:111). No sequence of calls that all return normally, or raise only the modelled errors, reaches such a state (`Framework.Replay`); a `configure_agent` whose provider constructor raises does (see the next line).
- Framework.ConfigureAgent: the partial update of a `configure_agent` whose provider constructor raises something other than `ImportError` is not modelled. Python has already stored the role's configuration (framework.py:70-76) when the constructor fails (framework.py:79-80, e.g. a missing API key), leaving a configured role without a provider instance.
