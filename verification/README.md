# sidekickAI callback core and helpers, modelled in Dafny

This project models the core of the sidekickAI repository. That core is a small LangChain-style
library made of:

- the callback machinery of `core/callbacks/manager.py`;
- a handful of pure helpers around it.

Every member is a pure function over immutable datatypes, apart from three methods:
`Utils.BuildExtraKwargs` and `RunManager.StartEach` loop, and `RunManager.OnLlmStart` checks its
keyword arguments and then calls `RunManager.StartEach`.

- **Event dispatch** (`Dispatch`, `DispatchSpec`, `DispatchProperties`). `handle_event` fans one
  event out over an ordered list of handlers. A handler is a tagged record with:
  - an id;
  - a class (`Kind`);
  - the set of ignore attributes that are true on it;
  - `raise_error`;
  - a scripted outcome per event: returns, returns a coroutine, raises `NotImplementedError`,
    or raises another error.

  Dispatch returns a `Trace` record. It holds the calls made, the warnings logged, the coroutine
  batches handed to the drain, and the error that escaped, if any.

  `DispatchSpec` gives an independent per-handler description of what one handler contributes.
  `HandleEventMeetsSpec` proves that the dispatcher equals it. The caller-facing properties in
  `DispatchProperties` follow from that.
- **Batch run ids** (`RunManager`). `CallbackManager.on_llm_start` makes one dispatch and one
  child run manager per prompt. `uuid4` is an oracle: the sequence of ids it would return, one
  per prompt position.
- **Manager configuration** (`Configure`, `ConfigureProperties`). `_configure` does two things:
  - it merges the handlers, tags and metadata;
  - it attaches the verbose, debug, tracer and hook handlers.

  `add_handler`, `add_tags` and `add_metadata` are modelled as appends with the `inherit` flag
  each call site passes, and every call is logged as an `Op`. The process state it reads is one
  `Ambient` parameter:
  - the run tree's id;
  - the environment switches;
  - the tracer context variables;
  - the debug flag;
  - the hooks;
  - what the handler constructors return.
- **Helpers**:
  - `build_extra_kwargs`, `get_pydantic_field_names` and `convert_to_secret_str` (`Utils`);
  - `get_from_env` and `get_from_dict_or_env` (`Env`), with the environment as a map parameter;
  - `Runnable.get_name` (`Runnable`), with ASCII `str.title`/`str.lower`;
  - `_get_anthropic_stop` and `_default_params` (`SideKick`);
  - `StringPromptValue` (`PromptValues`), over the `HumanMessage` of `Messages`;
  - `Response.__str__` and `get_formatted_sources` (`Response`);
  - the chain-name selection of `StdOutCallbackHandler.on_chain_start` (`StdOut`).

Every line of `core/callbacks/manager.py` is commented out in the repository. This model follows
the commented text as written.

**The re-raise is immediate.** A handler error that escapes is re-raised inside the handler
loop (`core/callbacks/manager.py:61-62`). The handlers after the raising one are never called,
although the `finally` block still drains the coroutines collected so far; see
`DispatchProperties.RaiseIsImmediate`.

**Errors raised inside the `except NotImplementedError` block** escape the outer `try` whatever
the handler's `raise_error` is. This applies to three cases:

- `args[1]` is missing (`ArgIndexError`);
- `args[1]` is not a list of message lists (`ArgTypeError`; see "## Left out" for how the model
  encodes `args[1]`);
- the nested `on_llm_start` dispatch re-raises.

Python does not route an exception raised in one `except` clause to a sibling clause.

## Model

| member | source | states |
|---|---|---|
| Dispatch.HandleEvent | core/callbacks/manager.py:6-82 | messages are converted to strings at most once per dispatch, and never for an event other than `on_chat_model_start` |
| Dispatch.RunCoros | core/callbacks/manager.py:95-99 | every coroutine is run, in order; a failure is logged and does not stop the rest; warnings are logged exactly when some coroutine fails, and every warning names a failing coroutine and its error |
| Dispatch.BufferStrings | core/callbacks/manager.py:39-40 | one buffer string per message list, in order |
| DispatchSpec.StepMeetsSpec | core/callbacks/manager.py:30-62 | one loop iteration adds exactly the handler's own contribution (call, coroutine, warning, fallback dispatch, escaping error) |
| DispatchSpec.SingleDispatchMeetsSpec | core/callbacks/manager.py:41-49 | the nested `on_llm_start` dispatch to one handler makes that handler's calls and drains its coroutines itself; an error escapes only when that handler's `on_llm_start` fails with `raise_error` set |
| DispatchSpec.LoopMeetsSpec | core/callbacks/manager.py:28-62 | the handler loop adds the contributions of the handlers up to and including the first one whose error escapes, and shares one conversion of the messages |
| DispatchSpec.HandleEventMeetsSpec | core/callbacks/manager.py:25-82 | the whole dispatch equals the per-handler description: calls, warnings, drained batches, the escaping error, and whether messages were converted |
| DispatchProperties.HandlerCallsOfEvent | core/callbacks/manager.py:31-34 | one handler receives the dispatched event exactly once with the caller's arguments unless its ignore attribute is true |
| DispatchProperties.DeliveredInOrder | core/callbacks/manager.py:29-34 | the event reaches the eligible handlers in list order with unchanged arguments, up to the first escaping error |
| DispatchProperties.RaisedByFirst | core/callbacks/manager.py:56-62 | the escaping error exists exactly when some handler has one; without one every handler is processed |
| DispatchProperties.IsolationUnlessRaising | core/callbacks/manager.py:50-62 | an error escapes the dispatch if and only if some handler's error escapes; otherwise all handlers were processed |
| DispatchProperties.ProcessedStopsAtFirst | core/callbacks/manager.py:61-62 | processing stops at the first handler whose error escapes, and that error is the one raised |
| DispatchProperties.RaiseIsImmediate | core/callbacks/manager.py:56-62 | the first escaping error is raised at once: the calls made are exactly those of the handlers up to and including the raising one |
| DispatchProperties.CollectedAreCoroutines | core/callbacks/manager.py:34-36 | the collected coroutines are exactly those returned by the reached, non-skipped handlers, in order; outside the chat event nothing is drained inside the loop |
| DispatchProperties.DrainedOnceInFinally | core/callbacks/manager.py:63-82 | the collected coroutines are drained once, as one batch, also when an error escapes; nothing is drained when none was collected |
| DispatchProperties.UnscriptedChatFallsBack | core/callbacks/manager.py:37-49 | a handler with no chat method of its own gets the chat event through the fallback: the messages are flattened once and its `on_llm_start` is called with them, unless it ignores LLM events |
| DispatchProperties.HandlerFallbackCalls | core/callbacks/manager.py:37-49 | a chat handler's `on_llm_start` calls are its own fallback, with `args[0]`, the shared strings and the remaining arguments |
| DispatchProperties.ListFallbackCalls | core/callbacks/manager.py:37-49 | the `on_llm_start` calls of a chat dispatch are the fallbacks of the handlers that raised `NotImplementedError`, in order |
| DispatchProperties.ChatFallbackRedispatch | core/callbacks/manager.py:37-49 | each unimplemented chat handler alone gets `on_llm_start` with `ignore_llm`, `args[0]`, the converted strings and the rest of the arguments |
| DispatchProperties.NoFallbackWithoutMessages | core/callbacks/manager.py:38-40 | without a message list in `args[1]` no fallback dispatch happens and nothing is converted |
| DispatchProperties.DrainLogsEachFailure | core/callbacks/manager.py:95-99 | the drain logs exactly one warning per failing coroutine, naming it and its error, in run order, and nothing else |
| DispatchProperties.DrainLogAppends | core/callbacks/manager.py:95-99 | draining two runs back to back logs the first run's warnings then the second's: no failure stops or hides a later one |
| DispatchProperties.FailureLogged | core/callbacks/manager.py:95-99 | every coroutine that fails leaves a warning naming it and its error in the log of the drain |
| DispatchProperties.DrainIsolation | core/callbacks/manager.py:95-99 | a failing coroutine is logged and the coroutines after it still run |
| RunManager.StartEventCarriesRun | core/callbacks/manager.py:139-150 | each prompt is dispatched alone, as `[prompt]` after `serialized`; the keyword arguments are exactly the caller's plus the four reserved ones, carrying the run id, the manager's parent run id, tags and metadata, with the caller's other arguments unchanged |
| RunManager.StartEach | core/callbacks/manager.py:135-165 | the i-th dispatch is prompt i's start event under its run id; every dispatch but the last returned normally; on success there is one manager per prompt; a failure is the error the last dispatch raised |
| RunManager.OnLlmStart | core/callbacks/manager.py:117-165 | one dispatch per prompt in order; on success one manager per prompt carrying that prompt's run id and the caller's scope; a caller keyword argument that repeats one of the run keywords or names a parameter of `handle_event` fails before any dispatch, and that is the only way it fails without dispatching; an escaping error stops the batch |
| RunManager.RefusedNames | core/callbacks/manager.py:6-9 | the refused caller keywords are exactly the four run keywords and the three parameters of `handle_event` |
| RunManager.BatchRunIds | core/callbacks/manager.py:136-138 | the caller's run id is reused for the first prompt only; with fresh `uuid4` ids no two managers share a run id |
| Configure.AddHandlers | core/callbacks/manager.py:279-280 | local handlers are appended in order with `inherit` false, leaving the inheritable handlers, parent, tags and metadata alone |
| Configure.MergeHandlers | core/callbacks/manager.py:253-280 | with a list, the visible and the inheritable handlers both start from it under the run tree's parent, with no tags and no metadata; with a manager, its whole state is copied; local handlers are added non-inheritably; with neither, an empty manager |
| Configure.MergeTags | core/callbacks/manager.py:281-283 | inheritable tags are added inheritably, then local tags non-inheritably, only when either is non-empty; handlers, metadata and parent run are kept |
| Configure.MergeMetadata | core/callbacks/manager.py:284-286 | inheritable metadata is added inheritably, then local metadata non-inheritably, only when either is non-empty; handlers, tags and parent run are kept |
| Configure.AttachVerbose | core/callbacks/manager.py:304-311 | a non-inheritable StdOut handler is added exactly when verbose, debug is off and none is present |
| Configure.AttachDebug | core/callbacks/manager.py:312-316 | an inheritable Console handler is added exactly when debug is on and none is present |
| Configure.AttachTracerV1 | core/callbacks/manager.py:317-326 | the context tracer, else a new v1 tracer, is added inheritably exactly when tracing is enabled and no v1 tracer is present |
| Configure.AttachTracerV2 | core/callbacks/manager.py:327-343 | the context v2 tracer, else a new one if it could be built, is added inheritably exactly when v2 tracing is enabled and no v2 tracer is present |
| Configure.AttachHook | core/callbacks/manager.py:344-363 | an active hook adds its handler with its own inherit flag unless one of its class (or, with no class, the same handler) is present |
| Configure.Configure | core/callbacks/manager.py:253-364 | the result is the merged manager with the handlers of exactly the stages that fire appended, in the order verbose, debug, tracing v1, tracing v2, hooks in list order; a stage fires when its switch asks for it and its class (or, for a hook without a class, its handler) is not on the list built so far; each keeps its own `inherit` flag |
| ConfigureProperties.FiredSubsequence | core/callbacks/manager.py:299-363 | only enabled stages fire, each at most once, in stage order |
| ConfigureProperties.DiagnosticsAttached | core/callbacks/manager.py:299-343 | the diagnostic stage only appends, and afterwards every handler the switches ask for is present |
| ConfigureProperties.HooksAttachedAfter | core/callbacks/manager.py:344-363 | the hook stage only appends, and afterwards every active hook is represented |
| ConfigureProperties.ConfigureAttaches | core/callbacks/manager.py:253-364 | the configured manager keeps the merged handlers as a prefix and the merged parent, tags and metadata, and holds everything the switches and hooks ask for |
| ConfigureProperties.NothingAttachedTwice | core/callbacks/manager.py:299-363 | on handlers that already hold everything asked for, attachment changes nothing |
| ConfigureProperties.ReconfigureAddsNothing | core/callbacks/manager.py:253-364 | configuring again from a configured manager with nothing local gives back the same manager |
| ConfigureProperties.VerboseScenario | core/callbacks/manager.py:253-311 | inheritable `[a]`, local `[b]`, verbose: the handlers are `a`, `b`, a new StdOut handler; only `a` is inherited |
| Utils.FieldNames | core/utils.py:7-17 | a string is in the result exactly when it is some field's name or alias |
| Utils.BuildExtraKwargs | core/utils.py:20-50 | fails as supplied twice exactly when the dictionaries share a key (the first in order is named); fails as explicit exactly when the incoming extra arguments hold required names; otherwise non-required keys move with their values, required keys stay, and the result avoids required names |
| Utils.ConvertToSecretStr | core/utils.py:53-57 | a secret passes through unchanged, a plain string is wrapped |
| Utils.ConvertIdempotent | core/utils.py:53-57 | converting a converted value changes nothing, and the wrapped string is recovered |
| Env.GetFromEnv | core/env.py:31-43 | succeeds exactly when the variable is set non-empty or a default is given; the environment wins over the default, even an empty default counts; the error names both keys |
| Env.GetFromDictOrEnv | core/env.py:21-28 | a truthy dictionary entry is returned; otherwise the environment lookup decides; success exactly when some source has a value |
| Env.DataShadowsEnvironment | core/env.py:25-26 | with a truthy entry, the environment cannot change the result |
| Env.FalsyEntryFallsThrough | core/env.py:25-28 | a present but empty or `None` entry behaves like a missing one |
| Env.ValueFromASource | core/env.py:21-43 | a returned value comes from the dictionary, the environment or the default, in that priority |
| Runnable.Lower | core/runnables/base.py:68-69 | each character is lower-cased in place: an upper-case letter becomes the same letter in lower case, every other character is kept |
| Runnable.Title | core/runnables/base.py:66-67 | a letter is upper-cased when the character just before it is not cased (or it is first) and lower-cased otherwise, staying the same letter; other characters are kept |
| Runnable.BaseName | core/runnables/base.py:64 | the first truthy of the argument name, the runnable's name, the class name |
| Runnable.GetName | core/runnables/base.py:60-71 | the base name is always a prefix; an absent or empty suffix returns it unchanged; after an upper-case base each suffix character follows upper-cased when the one before it is not cased and lower-cased otherwise; after any other base come an underscore and each suffix character lower-cased |
| Runnable.CaseFoldingIdempotent | core/runnables/base.py:66-69 | title-casing and lower-casing are idempotent |
| Runnable.SuffixFollowsBase | core/runnables/base.py:64-71 | the result is base, optional underscore, then the suffix's characters in order, each the same letter up to case and uncased characters unchanged |
| SideKick.GetAnthropicStop | core/language_models/model.py:130-141 | fails exactly when either prompt marker is missing or empty; otherwise the stop list keeps its elements and gains the human marker at the end |
| SideKick.StopAddsOneMarker | core/language_models/model.py:139-141 | no deduplication: the human marker gains exactly one occurrence |
| SideKick.DefaultParams | core/language_models/model.py:143-160 | the two mandatory keys with the instance's values, plus temperature, top_k and top_p exactly when set |
| SideKick.ModelKwargsNotMerged | core/language_models/model.py:143-160 | `model_kwargs` does not affect the default parameters |
| SideKick.DefaultsGiveTwoKeys | core/language_models/model.py:27-39 | with default fields, exactly the token limit 256 and the model "sidekick" are sent |
| Messages.NewHumanMessage | core/messages.py:53-61 | a human message has type "human", is not an example, and holds the content |
| PromptValues.LcNamespace | core/prompt_values.py:20-44 | the base class's namespace is langchain/schema/prompt and the string prompt value's is langchain/prompts/base |
| PromptValues.ToString | core/prompt_values.py:46-48 | the string form is the text |
| PromptValues.ToMessages | core/prompt_values.py:50-52 | exactly one human, non-example message whose content is the string form |
| PromptValues.MessagesRoundTrip | core/prompt_values.py:46-52 | the text is recovered from the message form, so distinct prompt values give distinct messages |
| PromptValues.NamespacesDiffer | core/prompt_values.py:20-44 | the subclass overrides the namespace, so the two classes serialize under different namespaces |
| Response.NewResponse | core/response/schema.py:14-15 | the metadata defaults to None |
| Response.Str | core/response/schema.py:17-19 | a non-empty response prints as itself, a missing or empty one as "None"; never empty |
| Response.GetFormattedSources | core/response/schema.py:21-24 | empty whatever the length |
| Response.StrIgnoresMetadata | core/response/schema.py:14-19 | the string form ignores the metadata, and an empty response prints like a missing one |
| StdOut.Last | core/callbacks/stdout.py:21 | `[-1]` succeeds exactly on a non-empty list or string and gives its last element |
| StdOut.ClassName | core/callbacks/stdout.py:21 | fails exactly when an "id" entry has no last element, even when "name" is present; otherwise the name, else the last id element, else "<unknown>" |
| StdOut.EagerIdDefault | core/callbacks/stdout.py:21 | a present name with an empty id list still fails; with a usable id the name wins |

## Left out

- Concurrency. The event-loop detection, the `ThreadPoolExecutor` with `copy_context` and
  `asyncio.Runner` (`core/callbacks/manager.py:64-82`, `86-103`) are not modelled. Draining is
  one sequential pass over the collected coroutines. The loop inside `_run_coros` that runs
  pending tasks until none is left (`core/callbacks/manager.py:101-103`) is left out.
- Logging text and `print` output. Warnings are recorded as data naming the handler, event and
  message, not as formatted text.
- `core/callbacks/base.py` is not part of this model. `add_handler`, `add_tags` and
  `add_metadata` are plain appends carrying the `inherit` flag; any deduplication they may do
  is not modelled.
- `uuid.uuid4`, `get_run_tree_context`, `env_var_is_set`, the tracer context variables,
  `_tracing_v2_is_enabled`, `_get_debug` and the handler constructors are external. They are
  the parameters `uuids` and `Ambient`. `load_session` and the tracer project name are not
  modelled.
- `get_buffer_string` is the parameter `bufferString`.
- The chat fallback's `args[1]` is read only in the `MessageBatches` shape; the empty list is
  `MessageBatches([])`. Every other shape counts as unreadable and raises `ArgTypeError`. In
  Python an empty string or dictionary, or a list of empty strings, would also iterate without
  error and flatten to empty strings; the model does not follow those values.
- `core/callbacks/base.py` is not part of this model; its defaults are taken as LangChain's base
  handler has them: an unscripted `on_chat_model_start` raises `NotImplementedError`, every
  other unscripted event method is a no-op.
- The child managers of `on_llm_start` share the parent's handler, tag and metadata lists
  rather than copies (`core/callbacks/manager.py:155-161`). The model's values are immutable,
  so that aliasing is not modelled.
- ConfigureProperties.ConfigureAttaches, ConfigureProperties.ReconfigureAddsNothing and
  ConfigureProperties.DiagnosticsAttached assume `WellKinded`, and
  ConfigureProperties.HooksAttachedAfter assumes its hook part, `HookWellKinded`: every handler constructor, context variable and hook class yields a handler of
  the class it is checked against. Without that, a stage can add a handler that its own
  presence test does not recognise, and configuring again adds it a second time.
  `Configure.Configure` does not need this assumption.
- `isinstance` is modelled as equality of the handler's `Kind`; subclass relationships between
  handler classes are not modelled.
- Python truthiness of handler objects and context-variable values is assumed true for every
  handler.
- `None` and the empty list or dictionary behave identically for callbacks, tags and metadata
  in `_configure`, so both are the empty value.
- Dictionary insertion order is not modelled for keyword arguments, `_default_params` or the
  managers' metadata. The one place it matters, which duplicate key `build_extra_kwargs`
  names, takes the key order as the parameter `order`.
- Utils.BuildExtraKwargs: the caller's dictionaries are mutated in place before an error can be
  raised; the model returns new maps and does not describe the partially mutated state after a
  failure.
- SideKick.GetAnthropicStop: the caller's stop list is extended in place; aliasing is not
  modelled, only the returned list.
- Env.GetFromDictOrEnv: dictionary values are strings or `None`; other value types and their
  truthiness are not modelled.
- Runnable.Title: Python's `str.title`, `str.lower` and `str.isupper` are modelled over ASCII.
  Other characters count as uncased and are kept unchanged. `Runnable.GetName` requires a
  non-empty class name, which Python class names always are.
- `PromptValue.is_lc_serializable` (`core/prompt_values.py:15-18`) returns `True` for every
  class, the subclass inheriting it; as a constant it has no member of its own.
- SideKick.DefaultParams: the float fields `temperature` and `top_p` are opaque pass-through
  values.
- The placeholder generation pipeline, pydantic validators and schemas, the document loaders,
  the wandb callback, `core/dump.py`, `get_runtime_environment` and the rest of
  `core/runnables/base.py` are not part of this model: they are I/O, foreign libraries or
  constant placeholders.
