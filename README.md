# OpenWebUI conversation agent for Home Assistant, in Dafny

This project models the core of the `openwebui_conversation` integration. The integration lets
Home Assistant's assist pipeline talk to an OpenWebUI server's chat-completion endpoint.

- **Conversation turns** (`conversation.py`) are modelled in module `Conversation`. The agent
  keeps a table from conversation id to an ordered list of messages. Each turn does the following:
  - resolves the conversation id;
  - asks the phrase matcher whether the utterance is a web-search request, and if so rewrites
    the prompt to the captured query;
  - sends the history plus the prompt to the server;
  - post-processes the reply (optional markdown stripping, optional search prefix);
  - on success, appends the utterance and the reply to the list.

  `Agent` is a class whose `history` field the `Process` method updates. `Process` is proved
  equal to the pure function `Turn` of the old table. The lemmas about `Turn` state what a turn
  promises.
- **The HTTP client** (`api.py`) is modelled in module `Api`. It trims the base URL and shapes
  the three requests (health, model list, chat completion) with their bearer header. It also
  classifies every transport outcome into a decoded reply or one of four error kinds. The
  exception cascade becomes the total function `ApiWrapper` over an `Outcome` datatype.
- **The message value** (`message.py`) is modelled in module `Messages`: its constructor and
  its `role @ timestamp : message` rendering.
- **The setup and options flows** (`config_flow.py`) are modelled in module `ConfigFlow`:
  - the user step, as a method with the source's loop over existing entries, covering the
    duplicate check, the server probe, the error key table and the entry split into data and
    options;
  - the three options steps, as a class whose `options` field they merge into;
  - the model list offered for selection;
  - the suggested values of the option forms.

The supporting modules are:
- `Values`: Option, Result, a JSON datatype with integer numbers, and Python's `x[key]` and
  `v == True`;
- `Text`: Python's `strip`, `splitlines`, `rstrip("/")` and `str(int)`, written out character by
  character;
- `Const`: the option keys and defaults.

The foreign pieces are parameters:
- the HTTP session: `send: Request -> Outcome`;
- the phrase matcher: `recognize`;
- the markdown renderer: `render`;
- URL validation (`cv.url_no_path`): `acceptsUrl`;
- the ULID source and the nanosecond clock: `freshId`, `userClock`, `replyClock`.

Details of the code that the model keeps exactly:
- `raise_for_status` fails for every status of 400 and above, not for every non-2xx status.
  Redirects and 1xx/3xx answers are not errors.
- The health check compares `status` with `True` using Python equality. The integer 1 passes
  as well as the boolean true (`Values.EqualsTrue`).
- The comment above the duplicate check speaks of the base URL, but the code compares the
  service name (`ConfigFlow.SameServiceName`).

URL validation rejects a URL that has a path and otherwise returns it unchanged. The setup
probe, the model listing and the agent therefore all talk to the URL as typed, with only its
trailing '/' removed (`ConfigFlow.NewEntryConfiguresAgent`, `ConfigFlow.AvailableModels`).

aiohttp's own timeout errors (`ServerTimeoutError` and its subclasses) are client-library errors
and `asyncio.TimeoutError`s at once. The timeout handler comes first, so they are reported as
timeouts, and the model counts them as the `TimedOut` outcome, not as `ConnectionFailed`.

`exceptions.py` is not part of this model. As the handler order in `config_flow.py` implies, the
timeout, communication and JSON errors are taken to refine the generic client error. The generic
client error is taken to be a `HomeAssistantError`, so in a turn it takes the generic
"please check the logs" branch (`Conversation.Classify`).

## Model

| member | source | states |
|---|---|---|
| Text.Strip | custom_components/openwebui_conversation/conversation.py:94 | the stripped text is empty exactly when the text is whitespace only, and otherwise starts and ends with a non-space character |
| Text.StripOfPadded | custom_components/openwebui_conversation/conversation.py:94 | stripping removes exactly the surrounding whitespace: a trimmed text padded on both sides strips back to itself |
| Text.Lines | custom_components/openwebui_conversation/conversation.py:86-88 | `splitlines`: no line contains a boundary, and there are no lines exactly when the text is empty |
| Text.LinesOfWellSplit | custom_components/openwebui_conversation/conversation.py:86-88 | lines without boundaries, each followed by "\r\n" or one boundary character (the last possibly by nothing, if it is not empty, and no lone "\r" followed by an empty line and "\n"), split back into exactly those lines |
| Text.SplitLines | custom_components/openwebui_conversation/conversation.py:86-88 | every text is such a well-formed join of its lines and its separators, so together with the previous row `splitlines` is fixed on every text |
| Text.TrailingBoundaryOpensNoLine | custom_components/openwebui_conversation/conversation.py:86-88 | a line followed by any one boundary, a trailing newline included, splits into that line alone |
| Text.TrimTrailingSlashes | custom_components/openwebui_conversation/api.py:26 | `rstrip("/")`: the result is a prefix of the text, only '/' was removed, and it does not end in '/' |
| Text.TrimTrailingSlashesOf | custom_components/openwebui_conversation/api.py:26 | a text not ending in '/' followed by any run of '/' trims back to that text |
| Text.IntToString | custom_components/openwebui_conversation/message.py:16 | `str(int)` is non-empty, contains no space, starts with '-' exactly for a negative number, and after the sign holds the decimal digits of the magnitude with no leading zero |
| Text.DecimalRoundTrip | custom_components/openwebui_conversation/message.py:16 | the decimal digits of a natural number read back as that number |
| Text.IntToStringInjective | custom_components/openwebui_conversation/message.py:16 | distinct integers have distinct decimal renderings |
| Messages.Create | custom_components/openwebui_conversation/message.py:10-13 | the effective two-argument constructor keeps the role and text unchanged and stamps the clock reading |
| Messages.Render | custom_components/openwebui_conversation/message.py:15-16 | the rendering starts with `role @ `, ends with ` : message`, and what lies between is the timestamp's decimal text |
| Messages.RenderInjective | custom_components/openwebui_conversation/message.py:15-16 | two messages of the same role with the same rendering are equal: the rendering determines timestamp and text |
| Api.NewClient | custom_components/openwebui_conversation/api.py:17-30 | the stored base is the configured URL without its trailing run of '/', and the other settings are kept |
| Api.NewClientIgnoresTrailingSlashes | custom_components/openwebui_conversation/api.py:26 | an extra trailing '/' makes no difference, and building a client from a stored base is idempotent |
| Api.AuthHeaders | custom_components/openwebui_conversation/api.py:42-45 | exactly two headers: the JSON content type and `Bearer <api key>` |
| Api.HeartbeatRequest | custom_components/openwebui_conversation/api.py:32-34 | GET base + "/health" with no headers and no body, under the client's TLS flag and deadline |
| Api.ModelsRequest | custom_components/openwebui_conversation/api.py:37-46 | GET base + "/api/models" with the authorisation headers, under the client's TLS flag and deadline |
| Api.GenerateRequest | custom_components/openwebui_conversation/api.py:48-61 | POST base + "/api/chat/completions" with the authorisation headers and the payload, under the client's TLS flag and deadline |
| Api.EndpointSeparator | custom_components/openwebui_conversation/api.py:34-55 | with a trimmed base, every endpoint URL has exactly one '/' between the base and the path |
| Api.ApiWrapper | custom_components/openwebui_conversation/api.py:63-98 | success exactly on a status below 400 that is not a decoded 404 (with a parsed body when decoding), returning the JSON or the text; a timeout (the deadline, or the HTTP library's own timeouts, which are caught as timeouts first) and only a timeout gives a timeout error; a JSON error exactly for a decoded 404 whose body has an "error" field, carrying it; a communication error exactly for a transport or name-resolution failure, any other failing status, or a body that should be JSON but has another content type; the generic client error exactly for any other exception, a body that should be JSON but does not parse, or a decoded 404 body without "error" |
| Api.Heartbeat | custom_components/openwebui_conversation/api.py:32-35 | client errors pass through; a missing "status" raises outside the client; otherwise true exactly when "status" equals True |
| Api.GetModels | custom_components/openwebui_conversation/api.py:37-46 | succeeds exactly when the wrapper does, with the decoded body; otherwise fails with the wrapper's own error, unchanged |
| Api.Generate | custom_components/openwebui_conversation/api.py:48-61 | succeeds exactly when the wrapper does, with the decoded body; otherwise fails with the wrapper's own error, unchanged, so a timeout error exactly on a timeout |
| Conversation.KeepNonBlank | custom_components/openwebui_conversation/conversation.py:84-90 | no kept line is whitespace only, and no more lines come out than went in |
| Conversation.KeepNonBlankMembers | custom_components/openwebui_conversation/conversation.py:84-90 | a line is kept exactly when it is one of the lines and is not whitespace only |
| Conversation.KeepNonBlankAppend | custom_components/openwebui_conversation/conversation.py:84-90 | filtering distributes over concatenation, so kept lines keep their order |
| Conversation.KeepsAll | custom_components/openwebui_conversation/conversation.py:84-90 | lines that are all non-blank are kept as they are |
| Conversation.SearchSentences | custom_components/openwebui_conversation/conversation.py:84-90 | the sentences are the text's `splitlines` lines with the whitespace-only ones dropped, in order: a text is a sentence exactly when it is a line and not blank, and no sentence holds a line boundary |
| Conversation.SearchSentencesOfJoined | custom_components/openwebui_conversation/conversation.py:84-90 | non-blank sentences written one per line, under any mix of line boundaries, are read back as written, in order |
| Conversation.DefaultSearchSentences | custom_components/openwebui_conversation/const.py:32-33 | the default text yields exactly its two templates |
| Conversation.ConfigFromEntry | custom_components/openwebui_conversation/conversation.py:68-100 | the client is built from the entry's URL and key with the timeout and TLS options or their defaults, and the agent's timeout is the client's; the model, search flag, search prefix and markdown flag are the options or their defaults; the sentences are the search sentences of the option text or the default text; the language code is the option or its default, stripped |
| Conversation.SearchIntents | custom_components/openwebui_conversation/conversation.py:141-152 | the grammar has the agent's language, ignores whitespace, and holds the single DoSearch intent over the configured sentences with the wildcard list "query" |
| Conversation.ResolveConversation | custom_components/openwebui_conversation/conversation.py:128-133 | an id the table knows is reused with its list; any other id, or none, gives the fresh id and an empty list |
| Conversation.DecidePrompt | custom_components/openwebui_conversation/conversation.py:135-160 | a search turn exactly when search is on, sentences exist, the matcher returns DoSearch and a "query" entity; the prompt is then that query, otherwise the utterance |
| Conversation.MatcherUnusedWhenSearchOff | custom_components/openwebui_conversation/conversation.py:140 | with search off or no sentences the matcher's answer does not matter |
| Conversation.ChatMessages | custom_components/openwebui_conversation/conversation.py:211-212 | the history as (role, content) in order, then one user entry with the prompt: length is the history's plus one |
| Conversation.ChatPayload | custom_components/openwebui_conversation/conversation.py:214-222 | the payload carries the model, the messages, `stream` false, `web_search` equal to the search flag and `keep_alive` "-1m"; the payload has exactly the keys features, model, messages, params and stream, and the two nested objects exactly `web_search` and `keep_alive` |
| Conversation.ReplyContent | custom_components/openwebui_conversation/conversation.py:187 | `reply["choices"][0]["message"]["content"]` is found exactly when each step of the lookup meets an object holding the key or a non-empty array, and is then that value |
| Conversation.Query | custom_components/openwebui_conversation/conversation.py:205-226 | client errors pass through; success exactly when the generated reply has `choices[0].message.content`, returning the reply |
| Conversation.PostProcess | custom_components/openwebui_conversation/conversation.py:187-191 | the reply is markdown-stripped if enabled, then prefixed with the search prefix and one space if the turn searched |
| Conversation.Classify | custom_components/openwebui_conversation/conversation.py:166-185 | the generic client error is reported generically; the timeout, communication and JSON errors with their detail |
| Conversation.ErrorText | custom_components/openwebui_conversation/conversation.py:166-185 | every error text starts with "Something went wrong, "; it is followed by "timeout while talking to the server" for a timeout, "unknown error while talking to the server" for a communication error, a JSON error's payload text, and "please check the logs for more information." for the host's errors |
| Conversation.Conclude | custom_components/openwebui_conversation/conversation.py:162-203 | spoken exactly when the reply content is a text: the speech is the post-processed reply and the list for the id gains the utterance and the speech; a failure is reported exactly for a client error, with the resolved id; the table is untouched on every other path |
| Conversation.Turn | custom_components/openwebui_conversation/conversation.py:123-203 | a handled turn reports the resolved conversation id and the input's language; only a spoken turn changes the table |
| Conversation.SuccessfulTurn | custom_components/openwebui_conversation/conversation.py:192-196 | a spoken turn writes only its own id: its list grows by the original utterance then the spoken reply, and other keys are unchanged |
| Conversation.FailedTurn | custom_components/openwebui_conversation/conversation.py:162-185 | a turn that is not spoken leaves the table as it was; a reported failure carries the resolved id |
| Conversation.DeadlineEndsTurn | custom_components/openwebui_conversation/conversation.py:162-175 | a server that misses the deadline gives a reported timeout, whose text is "Something went wrong, timeout while talking to the server", and no change to the table |
| Conversation.FailedTurnMessage | custom_components/openwebui_conversation/conversation.py:162-185 | a failed turn's message is the error text of its error: the logs text for the host's errors, the error's own text for the backend's, missing only for a JSON error whose payload is not a string; the generic client error never reaches the backend branch |
| Conversation.TurnGrowsByTwo | custom_components/openwebui_conversation/conversation.py:194-196 | a spoken turn adds two messages to a known conversation, and starts an unused fresh id with two |
| Conversation.ExchangeAlternates | custom_components/openwebui_conversation/conversation.py:194-195 | appending a user message then an assistant message keeps a list alternating |
| Conversation.TurnKeepsExchanges | custom_components/openwebui_conversation/conversation.py:194-196 | every conversation stays a sequence of complete user/assistant exchanges across any turn |
| Conversation.ReplayedExchange | custom_components/openwebui_conversation/conversation.py:211-212 | the message list of a conversation extended by one exchange is the earlier list, the reply, then the next prompt |
| Conversation.NextRequestReplaysTurn | custom_components/openwebui_conversation/conversation.py:194-212 | the next request of a conversation replays the previous one with the original utterance (not the search query) and the spoken reply |
| Conversation.Agent.constructor | custom_components/openwebui_conversation/conversation.py:68-100 | the agent starts with the entry's configuration and an empty table |
| Conversation.Agent.Process | custom_components/openwebui_conversation/conversation.py:123-203 | the new table and the result are those of one turn over the old table |
| Conversation.Agent.Respond | custom_components/openwebui_conversation/conversation.py:186-203 | the table and result after the backend answered are the turn's conclusion over the old table |
| ConfigFlow.ErrorKey | custom_components/openwebui_conversation/config_flow.py:117-125 | "invalid_url" for an invalid URL or a false health answer, "timeout_connect" for a timeout, "cannot_connect" for a communication error, "unknown" for the other client errors |
| ConfigFlow.SameServiceName | custom_components/openwebui_conversation/config_flow.py:99-102 | an entry matches exactly when `data.get(service_name)` equals the submitted name, so an entry without a name never matches |
| ConfigFlow.IsDuplicate | custom_components/openwebui_conversation/config_flow.py:98-103 | a duplicate exactly when some existing entry matches the service name |
| ConfigFlow.ProbeClient | custom_components/openwebui_conversation/config_flow.py:107-113 | the probe's client is built on the URL as typed (validation returns it unchanged) with the submitted key, timeout and TLS flag |
| ConfigFlow.ProbeServer | custom_components/openwebui_conversation/config_flow.py:106-125 | a URL that validation rejects is an invalid URL; otherwise healthy exactly when the health answer succeeds with a "status" equal to True; a false health answer is an invalid URL; a client error is kept as raised, so a timeout error exactly on a timeout; unhandled exactly when "status" is missing |
| ConfigFlow.NewEntry | custom_components/openwebui_conversation/config_flow.py:127-138 | title "OpenWebUI - " + name; data exactly {service_name, base_url, api_key}; options exactly {timeout, verify_ssl} |
| ConfigFlow.NewEntryKeepsInput | custom_components/openwebui_conversation/config_flow.py:127-138 | data and options share no key and together give the submission back |
| ConfigFlow.NewEntryConfiguresAgent | custom_components/openwebui_conversation/config_flow.py:127-138 | the created entry is one the agent accepts, whose client is the one the probe used, with the default model and search off |
| ConfigFlow.Submit | custom_components/openwebui_conversation/config_flow.py:105-142 | an entry is created exactly when the server is healthy; a rejection re-shows the form with exactly one error, under "base", and creates nothing |
| ConfigFlow.DeadlineReportsTimeout | custom_components/openwebui_conversation/config_flow.py:119-120 | a server that misses the deadline re-shows the form with "timeout_connect" |
| ConfigFlow.StepUser | custom_components/openwebui_conversation/config_flow.py:88-142 | no input shows the empty form; an existing entry with the same service name aborts with "already_configured" before any request; otherwise the probe decides, with only the health request sent |
| ConfigFlow.Effective | custom_components/openwebui_conversation/config_flow.py:224-225 | empty options are replaced by the default options, any other options are used as they are, and the result is never empty |
| ConfigFlow.GeneralForm | custom_components/openwebui_conversation/config_flow.py:222-250 | fields timeout (optional, default 60), language code (optional, default "en") and TLS flag (required, default true), each suggesting the entry's option or that default, whether or not the default options were substituted |
| ConfigFlow.ModelForm | custom_components/openwebui_conversation/config_flow.py:253-282 | fields model (required, default "llama2:latest") and markdown stripping (required, default false), each suggesting the entry's option or that default, with the fetched models as choices |
| ConfigFlow.SearchForm | custom_components/openwebui_conversation/config_flow.py:285-317 | fields search flag (required, default false), sentences (required, the two default templates) and prefix (optional, the default prefix), each suggesting the entry's option or that default |
| ConfigFlow.Update | custom_components/openwebui_conversation/config_flow.py:171 | submitted keys overwrite and every other option is kept |
| ConfigFlow.ModelIds | custom_components/openwebui_conversation/config_flow.py:202 | the ids of the models in order, one per model, or a raise when one lacks an id |
| ConfigFlow.ModelChoices | custom_components/openwebui_conversation/config_flow.py:195-202 | no choices when the client raised; a raise without "data"; the ids of the models in a listed array; for any other listing, no choices when it is an empty mapping or text and a raise otherwise |
| ConfigFlow.AvailableModels | custom_components/openwebui_conversation/config_flow.py:187-202 | a URL that validation rejects raises out of the step; otherwise the choices are read from the model listing fetched through the same client the agent uses |
| ConfigFlow.UnreachableServerOffersNoModels | custom_components/openwebui_conversation/config_flow.py:187-199 | a server that cannot be reached leaves the model form with no choices |
| ConfigFlow.OptionsFlow.constructor | custom_components/openwebui_conversation/config_flow.py:155-158 | the flow's options start as a copy of the entry's |
| ConfigFlow.OptionsFlow.StepGeneralConfig | custom_components/openwebui_conversation/config_flow.py:166-177 | input is merged into the options and saved; without input the options are unchanged and the general form is shown |
| ConfigFlow.OptionsFlow.StepModelConfig | custom_components/openwebui_conversation/config_flow.py:179-206 | input is merged and saved; without input the form offers the models the server lists, or the step raises |
| ConfigFlow.OptionsFlow.StepSearchConfig | custom_components/openwebui_conversation/config_flow.py:208-219 | input is merged and saved; without input the search form is shown |

## Left out

- I/O is replaced by parameters: the aiohttp session, TLS verification and the `async_timeout` deadline become `send` and the `Outcome` it returns; each request carries the client's deadline in seconds, so `send` may depend on it.
- The phrase matcher (hassil `recognize`, `Intents.from_dict`) is the parameter `recognize`. The grammar handed to it is the `Intents` value.
- The markdown-it plain renderer is the parameter `render`.
- `ulid.ulid()` and `time_ns()` are the parameters `freshId`, `userClock` and `replyClock`. A fresh id is assumed unused only where a lemma says so (`TurnGrowsByTwo`).
- `cv.url_no_path` (voluptuous URL validation) is the parameter `acceptsUrl`, which says whether the URL is let through; a URL it lets through is returned unchanged.
- JSON numbers are integers; floating-point values are not modelled.
- Conversation.ErrorText: Python's `str()` of a JSON error payload that is not a string is not modelled (`None`).
- Conversation.Conclude: a reply whose `content` is not a string is treated as an unhandled failure. Depending on the options, the source would raise in the renderer or speak the value as is.
- Reading the response text cannot fail in the model. A body that does not decode as text is not modelled.
- Concurrency: a turn is atomic. Overlapping turns on one conversation id are not modelled.
- The source appends to the list object it shares with the table and then stores it back. The model builds the new sequence and stores it, which gives the same table for an atomic turn. Aliasing is not modelled.
- Voluptuous schema validation is not modelled. The user step's input is the already-typed `UserInput`, and an options step's input is the mapping it submits.
- Form widgets are reduced to key, required flag, suggested value and default. Selector settings (password field, multiline, dropdown sorting, custom values) are not modelled.
- The options menu (`async_step_init`, `MENU_OPTIONS`), `async_get_options_flow`, the entity attributes and the update listener are left out as host UI and plumbing, and so is logging.
- The user step's assignment of its probe client to `self.client` is not kept. Nothing reads it afterwards.
- The three-argument `Message` initialiser is shadowed by the two-argument one and is not modelled.
- `__init__.py` (entry setup, unload and reload) is host plumbing. `exceptions.py` and `coordinator.py` are not part of this model.
- Conversation.Agent.constructor requires options of the types the option forms produce (`OptionsWellTyped`) and entry data holding the URL and key as text. The source would fail later, in ways not modelled, on other values.
