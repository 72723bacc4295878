# notion-agent core, modelled in Dafny

notion-agent is a terminal agent. It reads and writes pages of a Notion workspace and
asks a large-language-model provider (Anthropic or OpenAI) to generate text about them.
This project models the deterministic core of that agent and proves properties of it:

- **ai_client.py.** The `AIClient` facade holds the current (provider, model) selection.
  `switch_model` validates a request against the configured registry
  `ai_models.providers.<provider>.models.model[]` before it changes anything.
  `generate_text` routes a request to the Anthropic or OpenAI adapter and raises
  "Unsupported provider" for any other tag. Each adapter picks its `max_tokens`.
- **notion_wrapper.py.** The `NotionClient` retry loop retries an operation a bounded
  number of times with exponential backoff. Four block operations run through it.
  The client also keeps the list of supported block types read from the configuration.
- **config.py.** `get_setting` looks a setting up by a dot-separated path.
  `_validate_env_vars` checks the required environment variables.
- **example.py.** Page-content extraction, page-title extraction, the numeric page
  selection, and the "two empty lines end the input" loop of `write_to_page`.

The files:

- `wrappers.dfy` holds `Option` and `Result`.
- `python.dfy` holds the Python values a parsed YAML configuration is made of. It also
  holds the exceptions the code can raise, and the Python operations the code applies to
  configuration values: `.get(key, default)`, `in`, `[key]`, `[0]`, and iteration inside
  a comprehension. A configuration that is shaped differently from what the code expects
  therefore raises the AttributeError, TypeError, KeyError or IndexError Python would raise.
- `strings.dfy` holds `split`, `join`, `isdigit`, `int` and `str`, with the round trips
  between them.
- `config.dfy`, `notion_wrapper.dfy`, `ai_client.dfy` and `example.dfy` hold one module
  per source file.

Objects whose fields the source updates become classes:

- `AIClient` has mutable `currentProvider` and `currentModel` fields.
- `Config` and `NotionClient` have fields that are set once, so they are `const`.

Loops in the source become methods with loop invariants. Each method is proved against a
specification function: `GetSetting` against `Lookup`, `RunWithRetry` against `Retry`,
`GetPageContent` against `KeptTexts`, and `CollectLines` against `StopIndex`.

Nothing external runs in the model:

- Each SDK is a function parameter. A Notion operation is the outcome of its k-th call.
  An LLM backend maps the request it receives to its answer.
- Sleeps are recorded as a ghost list of durations.
- The environment, the parsed configuration, the search results, a page's blocks and the
  lines the user types are all inputs.

Behaviour of the code worth knowing:

- Without `max_tokens`, an adapter uses the limit of the provider's **first** listed model,
  not the selected model's. When that model declares no limit, the fallback is 100000 for
  Anthropic and 2000 for OpenAI.
- `switch_model` raises, rather than returning False, when the registry itself is
  malformed (for example a provider entry that is not a mapping). The model therefore
  returns `Result<bool, PyError>`.
- The initial selection from `ai_models.default` is never validated against the registry.
  So an invalid selection can be held until the first successful switch.
- The retry policy is not range-checked. `max_attempts <= 0` never calls the operation and
  returns None. A non-integral `max_attempts` (say 2.5) steps over the bound: the loop then
  ends after a final sleep and returns None instead of re-raising. A negative wait makes
  `time.sleep` raise ValueError, which ends the retry with that error. The first wait is
  negative when `initial_backoff_seconds` is; a negative multiplier with a positive initial
  backoff makes the second wait negative, and a zero initial
  backoff makes every wait 0. A wait beyond `time.sleep`'s limit (about 9.2e9 seconds)
  raises OverflowError in the same way.
- Three environment variables are required: `NOTION_WORKSPACE_A_TOKEN`, `OPENAI_API_KEY`
  and `ANTHROPIC_API_KEY`.

## Model

| member | source | states |
|---|---|---|
| `Strings.Split` | config.py:69 | `split('.')` gives at least one piece, and no piece contains the separator |
| `Strings.JoinSplit` | config.py:69 | joining the pieces of a split with the separator gives back the string |
| `Strings.SplitJoin` | example.py:50 | splitting a newline-join of lines that contain no newline gives back those lines |
| `Strings.ParseShowNat` | example.py:21-28 | the number `enumerate` prints for a page is all digits, and `int()` of it gives the number back |
| `Python.GetEachItem` | notion_wrapper.py:17 | the comprehension succeeds iff every entry is a dict; the result then has one element per entry, each the entry's value for the key or the default |
| `Config.MissingVars` | config.py:62 | a name is reported missing iff it is required and unset or empty |
| `Config.MissingRequiredInOrder` | config.py:56-62 | the missing variables appear in the fixed order NOTION_WORKSPACE_A_TOKEN, OPENAI_API_KEY, ANTHROPIC_API_KEY |
| `Config.ValidateEnvVars` | config.py:54-65 | a RuntimeError is raised iff some required variable is unset or empty, and its message lists exactly the missing ones, comma-separated |
| `Config.Config.constructor` | config.py:8-11 | a Config exists only when the environment check passes, and it holds the parsed tree unchanged |
| `Config.Config.GetSetting` | config.py:67-78 | the loop computes `Lookup` over the `.`-split path: one dict level per key, left to right, with an early return of `default` at a non-dict; the tree is a constant and is never modified |
| `Config.LookupFound` | config.py:72-78 | when every key of the path exists, the result is the nested value at that path |
| `Config.LookupMissing` | config.py:73-76 | with a non-dict default, a path that does not fully exist yields the default |
| `Config.LookupAfterPrefix` | config.py:72-74 | walking an existing prefix of the path and then the rest gives the same result as walking the whole path |
| `Config.LookupHitsNonDict` | config.py:75-76 | reaching a non-dict while keys remain yields the default at once |
| `Config.LookupContinuesInDefault` | config.py:74 | a missing key replaces the current value with the default, and the walk continues inside the default with the remaining keys |
| `NotionWrapper.PolicyOf` | notion_wrapper.py:21-24 | each of `max_attempts`, `initial_backoff_seconds` and `backoff_multiplier` is the configured number when its key is present and falls back on its own to 3, 1.0 or 2.0 when absent; a configured value that is not a number is a TypeError; a non-dict on the path raises |
| `NotionWrapper.RetryFromSpec` | notion_wrapper.py:26-37 | calls happen only while the counter is below the bound; every call but the last failed; a success is returned at once; the last failure is re-raised unchanged when the counter reaches the bound, and below it a negative wait raises the ValueError of `time.sleep` instead; None is returned only when a non-integral bound is stepped over, or when the bound is 0 or less and nothing is called; there is one sleep per failure, except for a final failure that is re-raised or whose sleep raises; sleep i lasts initial * multiplier^i, and no sleep is negative |
| `NotionWrapper.RunWithRetry` | notion_wrapper.py:26-37 | the while loop returns exactly the result, call count and sleep list of `Retry` |
| `NotionWrapper.RetryReturnsFirstSuccess` | notion_wrapper.py:27-37 | if the first success is call k (within the bound, with no negative wait before it), its value is returned after exactly k+1 calls and k sleeps of initial * multiplier^i |
| `NotionWrapper.RetryExhausted` | notion_wrapper.py:30-37 | with max_attempts = n >= 1, no negative wait and an always-failing operation, there are exactly n calls, the n-th exception is re-raised, and there are n-1 sleeps of initial * multiplier^i |
| `NotionWrapper.RetryNegativeBackoff` | notion_wrapper.py:30-37 | with a negative initial backoff and a bound above 1, the first failure ends the run with the ValueError `time.sleep` raises, after one call and no sleep |
| `NotionWrapper.DelayNonNegative` | notion_wrapper.py:35 | a non-negative initial backoff and multiplier give a non-negative wait after every failure, so `time.sleep` never raises its ValueError |
| `NotionWrapper.RetryNeverCalls` | notion_wrapper.py:26-27 | with max_attempts <= 0, the operation is never called and None is returned |
| `NotionWrapper.DefaultPolicyTwoFailures` | notion_wrapper.py:21-37 | under the default policy, failing twice and then succeeding gives sleeps [1.0, 2.0] and the third call's value |
| `NotionWrapper.SupportedBlocks` | notion_wrapper.py:14-17 | a malformed path raises; when `block` is a list of dicts, the result has one element per entry, in order, each that entry's `@type` or None |
| `NotionWrapper.NoBlocksConfigured` | notion_wrapper.py:14-17 | without `block_support.supported_types.block`, the supported list is empty |
| `NotionWrapper.SupportedTypeListed` | notion_wrapper.py:14-17 | a type is in the supported list iff some configured block entry has it as `@type` |
| `NotionWrapper.NotionClient.constructor` | notion_wrapper.py:9-12 | the client keeps the config and the `@type` list computed from it |
| `NotionWrapper.NotionClient.ImplementRetry` | notion_wrapper.py:19-37 | the result is the retry run under the policy read from the config; a malformed policy raises before any call |
| `NotionWrapper.NotionClient.GetBlock` | notion_wrapper.py:39-41 | retrieves exactly `block_id` through the retry and returns its run unchanged |
| `NotionWrapper.NotionClient.UpdateBlock` | notion_wrapper.py:43-45 | updates exactly `block_id` with the given properties through the retry and returns its run unchanged |
| `NotionWrapper.NotionClient.CreateBlock` | notion_wrapper.py:47-49 | appends children to exactly `parent_id` with the given properties through the retry and returns its run unchanged |
| `NotionWrapper.NotionClient.DeleteBlock` | notion_wrapper.py:51-53 | deletes exactly `block_id` through the retry and returns its run unchanged |
| `NotionWrapper.NotionClient.IsSupportedBlock` | notion_wrapper.py:55-57 | true iff the type is in the configured list, so always false for an empty list |
| `AiClient.Dispatch` | ai_client.py:39-44 | the Anthropic adapter is chosen iff the provider is "anthropic", the OpenAI adapter iff it is "openai", and none otherwise |
| `AiClient.DefaultFromFirstModel` | ai_client.py:52 | the default limit is the first listed model's `@max_tokens`, or the provider fallback when that model declares none |
| `AiClient.DefaultMaxTokens` | ai_client.py:64 | the lookup of both adapters (line 52 for Anthropic): an error on the path to the provider's `models` propagates, and an empty or missing model list raises an IndexError |
| `AiClient.BuildRequest` | ai_client.py:51-56 | an explicit `max_tokens` is sent unchanged and the configuration is not consulted; otherwise the configured default is sent, or its error is raised; the request always carries the given model and prompt |
| `AiClient.Adapter` | ai_client.py:49-71 | a failed limit lookup raises; otherwise the backend receives exactly (provider, current model, prompt, limit), the limit being the explicit one or else the first model's default, and its answer or error comes back unchanged (OpenAI: the first choice) |
| `AiClient.FirstChoice` | ai_client.py:71 | `choices[0]` of a successful response, an IndexError when there are no choices, and the SDK's error unchanged |
| `AiClient.DefaultSelection` | ai_client.py:11-12 | `ai_models.default.provider` and `.model` are taken when present, each falling back on its own to "anthropic" and "Sonnet 3.5"; a non-dict on the path raises |
| `AiClient.AnyNamedItem` | ai_client.py:27 | on a list of dicts, the result is Ok(true) iff some entry's `@name` equals the model; true is only ever returned for such an entry |
| `AiClient.AnyNamed` | ai_client.py:27 | true only for a list holding a dict named `model`; on a list of dicts, exactly whether such an entry exists; a value that cannot be iterated raises a TypeError |
| `AiClient.ValidateSwitch` | ai_client.py:20-29 | an error reading `ai_models.providers` propagates; an unknown provider is refused with False; True is returned only when the provider is a key of the registry and some dict in its `models.model` list has `@name` equal to the model |
| `AiClient.ValidateSwitchIffRegistered` | ai_client.py:20-34 | on a well-formed registry, validation never raises, and it accepts exactly the pairs whose provider is a key and whose model is named under it |
| `AiClient.ScenarioRegistry` | ai_client.py:11-64 | on a two-provider registry: the default selection, refusal of an unknown model, acceptance of a known one, and OpenAI's first-model limit of 2000 |
| `AiClient.SwitchScenario` | ai_client.py:18-71 | through the client on the two-provider registry: switching to an unlisted OpenAI model returns False, switching to a listed one returns True, and generation then sends OpenAI the request for that model with the first OpenAI model's limit of 2000, returning its first choice |
| `AiClient.AIClient.constructor` | ai_client.py:9-12 | the initial selection is the configured default |
| `AiClient.AIClient.SwitchModel` | ai_client.py:18-34 | the result is the validation outcome; on Ok(true) both fields become the requested pair; otherwise both fields are unchanged |
| `AiClient.AIClient.GenerateText` | ai_client.py:36-47 | an unsupported provider raises "Unsupported provider" with that provider; otherwise the result is the selected adapter's result for the current model, with errors passed on unchanged |
| `Example.BlockText` | example.py:38-49 | a block contributes text iff it is a paragraph or numbered list item whose first rich-text element has non-empty plain text, and that text is what it contributes |
| `Example.KeptTexts` | example.py:37-49 | no kept text is empty, and there are at most as many texts as blocks |
| `Example.KeptTextsAppend` | example.py:37-49 | the texts follow block order: extracting from two runs of blocks gives the first run's texts followed by the second's |
| `Example.KeptTextsMembers` | example.py:37-49 | a text is in the result iff some block contributes it |
| `Example.GetPageContent` | example.py:34-50 | the loop's content is the kept texts joined by newlines |
| `Example.PageContentLines` | example.py:50 | the content is empty iff no text is kept; splitting it at newlines gives back the kept texts when none of them holds a newline |
| `Example.PageTitle` | example.py:22-23 | the title is the first title element's plain text, or "Untitled" when the title list is empty or that text is absent |
| `Example.SelectPage` | example.py:26-32 | a selection is accepted iff it is all digits and 1 <= n <= the number of results; it then gives results[n-1]'s id and title |
| `Example.SearchPages` | example.py:16-18 | an empty search result gives (None, None) |
| `Example.SelectListedNumber` | example.py:21-31 | typing the number listed beside a page selects that page, with the title listed for it |
| `Example.StopIndex` | example.py:80-84 | the input loop stops at the first empty line that directly follows an empty line, and at no earlier line |
| `Example.CollectLines` | example.py:79-84 | the loop collects exactly the lines before that stopping line, or raises EOFError if the input ends first |
| `Example.ContentOf` | example.py:86 | the content is empty iff at most one line was collected, or two of which the first is empty |
| `Example.CollectedContent` | example.py:86-88 | the content is empty iff the input starts with two empty lines; otherwise its newline-split gives back the typed lines before the blank pair |
| `Example.WriteToPage` | example.py:77-104 | nothing is appended when the content is empty; otherwise one paragraph holding the content is appended to the page, and the SDK's error propagates |

## Left out

- Terminal I/O is not modelled: `input()`, `print`, the menu loop of `main` and `chat_mode` (example.py:52-75, 106-184). The parsing those loops feed is modelled above.
- The Anthropic, OpenAI and Notion SDKs are function parameters. Only `response.content`, and the first choice's `message.content`, are modelled from their responses.
- The `search` and `blocks.children.list` calls themselves are not modelled. Their results are inputs, and pagination beyond one result page is not modelled.
- `time.sleep` is recorded as a ghost list of requested durations. No time passes, and no cancellation exists in the source. Its ValueError on a negative duration is modelled.
- `NotionWrapper.RetryFrom`: the OverflowError that `time.sleep` raises for a duration beyond its limit (about 9.2e9 seconds, the range of its 64-bit nanosecond count), and the float overflow of `multiplier ** k` or of its product with the initial backoff, are not modelled: such a wait is recorded as a sleep and the retry goes on, where the source ends it with OverflowError after that failure.
- Backoff arithmetic is on `real`. Floating-point rounding of `initial * multiplier ** k` is not modelled.
- Logging calls are not modelled.
- YAML loading, logging setup and `os.getenv` reads in config.py are not modelled. The parsed tree and the environment map are inputs.
- fetch_page.py is not part of this model. It repeats the block extraction of example.py with `print` and a fixed page id.
- `NotionWrapper.PolicyOf`: a non-numeric `initial_backoff_seconds` or `backoff_multiplier` is refused with a TypeError before the first call. The source raises that TypeError only when it first computes a wait, so a first-call success would still be returned there.
- `NotionWrapper.NotionClient.constructor`: a malformed `block_support` section is a precondition here, not a raised constructor error. The error the source raises is the `Err` of `SupportedBlocks`.
- `AiClient.AIClient.constructor`: a malformed `ai_models.default` is a precondition here. The error the source raises is the `Err` of `DefaultSelection`.
- `Config.Config.constructor`: it takes the parsed tree. Only the environment check is modelled, as a precondition whose failing case is `ValidateEnvVars`.
- `Example.SelectPage`: `isdigit` and `int` are modelled on ASCII digits only. The selection is taken after `.strip()`.
- `AiClient.Adapter`: the backend parameters stand for the awaited SDK calls. The clients built at ai_client.py:15-16 are the synchronous `anthropic.Anthropic()` and `openai.OpenAI()`, whose `create` calls return a plain response object, so the `await` at ai_client.py:54 and :66 raises TypeError after the backend call has succeeded; with those clients `generate_text` never returns text. The model covers this only as a backend that answers `Err(TypeError)`.
- `AiClient.AIClient.GenerateText`: the "Unsupported provider" ValueError carries the provider value instead of its formatted message.
- Configuration keys are strings. A dict's key order is not modelled, since every comprehension over a non-empty dict fails on its first key whatever the order.
- Notion API responses are typed records (`Block`, `Page`, `RichText`). A block without a `type` (a KeyError in the source) and a non-string `plain_text` are not modelled.
