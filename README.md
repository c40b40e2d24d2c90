# matrix-agent-room core, modelled in Dafny

matrix-agent-room puts several AI personas into Matrix rooms. Each persona
is an `AgentBot` with its own Matrix account and an LLM backend. The
backend is either a local Ollama server or any OpenAI-compatible
chat-completions endpoint. A `BotOrchestrator` registers one message
callback per bot. That callback decides whether its bot answers a room
event. When it does, it cleans the message, asks the bot's backend for a
reply and posts it.

This project models that decision logic and the two backends:

- `text.dfy` (module `Text`): the Python string operations the code uses.
  These are `strip`, `rstrip`, ASCII `lower`, substring `in`,
  `replace(tok, "")` and decimal formatting of a status code.
- `values.dfy` (module `Values`): decoded JSON and YAML values. It covers
  their truthiness, `d.get(k, default)`, `x[0]`, and an expression that
  may raise.
- `http.dfy` (module `Http`): what the two backends share. That is the
  outcome of one HTTP exchange, base-URL normalisation and the
  `list_models` comprehension.
- `openai.dfy` (module `OpenAI`) and `ollama.dfy` (module `Ollama`): each
  backend's stored configuration, session headers, request payload,
  endpoint, reply classification, `health_check` and `list_models`.
- `rate_limit.dfy` (module `RateLimit`): the per-user sliding-window
  `RateLimiter`. It is a class whose log map is updated in place by
  `IsAllowed`.
- `agent.dfy` (module `Agent`): `_create_backend` and `generate_response`.
- `orchestration.dfy` (module `Orchestration`): `_load_config` validation
  and the callback. The callback is `Orchestrator.HandleEvent`, over the
  shared processed-id set and the shared limiter.

Each HTTP exchange is an input to the model, either as an `HttpOutcome`
value or as a `server` function that answers the request. The backends
are therefore modelled as pure functions from that outcome to the value
`chat` returns. The code's one loop that builds a list is
`_build_messages`, modelled as the method `OpenAI.BuildMessages`. Its
specification function is `Messages`. The cleaning loop of the callback is
`Orchestration.CleanMessage`, specified by `Cleaned`.

Where docstrings and code disagree, the model follows the code:

- `RateLimiter` calls itself a token bucket. It is a sliding-window log
  with no refill.
- `_build_messages` promises role "assistant" for the bot's own turns.
  Every history turn is a "user" turn (`OpenAI.MessagesShape`).
- `chat` is annotated `-> str`. On success it returns the decoded
  `content` value as it is, so a truthy non-string `content` (a number, a
  list) is returned as that value. `Reply` therefore yields a `Json`.
  `Agent.GenerateResponse` states that the reply is always truthy; it is
  a string in every branch except that one.

The processed-id set is shared by every bot's callback. When the callback
of a bot that is not addressed runs first for a new event, it records the
id, and the callback of the mentioned bot then skips the event as already
processed, so that mention gets no reply (`Orchestration.DeliverToTwo`).

## Model

| member | source | states |
|---|---|---|
| Text.Strip | bots/base_bot.py:285 | `str.strip()` with Python's whitespace set: the result is a slice of the input with only whitespace before and after it, and has no whitespace at either end |
| Text.StripIdempotent | bots/base_bot.py:285 | stripping twice is the same as stripping once |
| Text.ContainsStrip | bots/base_bot.py:284-285 | a substring of the stripped message is a substring of the message |
| Text.RemoveAbsent | bots/base_bot.py:285 | `replace(tok, "")` leaves a message without `tok` unchanged |
| Text.RemovePresent | bots/base_bot.py:285 | `replace(tok, "")` with a non-empty `tok` that occurs makes the message strictly shorter |
| Text.DecimalRoundTrip | bots/openai_bot.py:109 | the decimal digits written for a status read back as that status |
| Text.DecimalInjective | bots/openai_bot.py:109 | different statuses are written as different digit strings |
| Http.StatusTextInjective | bots/openai_bot.py:109 | an HTTP error text names its status: two equal texts with the same lead carry the same status |
| Http.NamedTextsInjective | bots/openai_bot.py:142-147 | the request-failed and unexpected-error texts determine the exception class they name |
| Http.NormalizeUrl | bots/openai_bot.py:28 | `rstrip("/")`: the result does not end in '/', is a prefix of the input, and only '/' characters were removed |
| Http.NormalizeUrlIdempotent | bots/ollama_bot.py:25 | normalising a stored URL again changes nothing |
| Http.ListModels | bots/openai_bot.py:153-161 | the comprehension of `OpenAI.ListModelIds` (key `id`) and `Ollama.ListModelNames` (key `name`): `[]` unless the status is 200; for a list whose every entry holds the key, the keys' values in order |
| Http.ListModelsAllOrNothing | bots/ollama_bot.py:108-116 | a non-empty listing comes only from a 200 response whose list holds the key in every entry |
| OpenAI.New | bots/openai_bot.py:28-33 | the stored URL is normalised; an empty key falls back to the OPENAI_API_KEY value; the other settings are kept |
| OpenAI.SessionHeaders | bots/openai_bot.py:40-42 | JSON content type first; a Bearer Authorization header exactly when the key is non-empty |
| OpenAI.EndpointsJoin | bots/openai_bot.py:92 | the chat and models endpoints join the stored URL and the path with exactly one '/' |
| OpenAI.BuildMessages | bots/openai_bot.py:48-66 | the list built by the loop equals `Messages`: system prompt, one user turn per history entry but the last, then the current turn |
| OpenAI.MessagesShape | bots/openai_bot.py:56-64 | length 2 for no history and history length + 1 otherwise; system turn first; "sender: message" last; every other turn is a user turn for the matching history entry |
| OpenAI.ChatPayload | bots/openai_bot.py:84-90 | the payload carries the model, those messages, max_tokens, temperature and `stream` false |
| OpenAI.StatusRule | bots/openai_bot.py:96-109 | 401 is the authentication failure; 429 is the provider's rate limit; every other non-200 status is an HTTP error carrying that status |
| OpenAI.AnswerRule | bots/openai_bot.py:111-134 | the content is returned exactly when the status is 200, the body has the expected shape and the first choice's content is truthy |
| OpenAI.EmptyRules | bots/openai_bot.py:114-123 | missing or empty `choices` gives the empty-response text; empty content in a well-formed body gives the rephrase text |
| OpenAI.ExceptionRule | bots/openai_bot.py:136-147 | connection failure, another client error and any other exception are told apart in handler order, each naming its class where the text does |
| OpenAI.Chat | bots/openai_bot.py:68-147 | `chat` posts the built payload to the chat endpoint and never returns an empty value; an unreachable server gives the cannot-connect text |
| OpenAI.ReplyTruthy | bots/openai_bot.py:94-147 | `chat` never returns an empty value |
| OpenAI.KeyOf | bots/openai_bot.py:98-147 | the characters at positions 0, 3 and 4 of every failure text, which differ from branch to branch |
| OpenAI.FailureTextsDistinct | bots/openai_bot.py:96-147 | two failure replies are equal only for the same branch, the same HTTP status and the same exception name |
| OpenAI.HealthCheck | bots/openai_bot.py:163-171 | up exactly when the models endpoint answered 200 or 401; down on any exception |
| Ollama.New | bots/ollama_bot.py:25-29 | the stored URL is normalised; the other settings are kept |
| Ollama.EndpointsJoin | bots/ollama_bot.py:67 | `/api/chat` and `/api/tags` are joined to the stored URL with exactly one '/' |
| Ollama.PayloadShape | bots/ollama_bot.py:52-63 | exactly the system prompt and the bare message, `stream` false, `num_predict` = max_tokens, the temperature passed through, and no dependence on the sender |
| Ollama.StatusRule | bots/ollama_bot.py:69-74 | every non-200 status, 401 and 429 included, is one HTTP error carrying that status |
| Ollama.AnswerRule | bots/ollama_bot.py:76-89 | the content is returned exactly when it is truthy; empty or missing content gives the rephrase text; a body of the wrong shape is an AttributeError |
| Ollama.ExceptionRule | bots/ollama_bot.py:91-102 | connection failure, another client error and any other exception in handler order |
| Ollama.Chat | bots/ollama_bot.py:39-102 | `chat` posts the built payload to `/api/chat` and never returns an empty value; an unreachable server gives the cannot-connect text |
| Ollama.ReplyTruthy | bots/ollama_bot.py:65-102 | `chat` never returns an empty value |
| Ollama.KeyOf | bots/ollama_bot.py:74-102 | the characters at positions 0, 3 and 4 of every failure text, which differ from branch to branch |
| Ollama.FailureTextsDistinct | bots/ollama_bot.py:69-102 | two failure replies are equal only for the same branch, status and exception name |
| Ollama.HealthCheck | bots/ollama_bot.py:118-126 | up exactly when the tags endpoint answered 200 |
| RateLimit.InWindow | bots/base_bot.py:43-46 | keeps exactly the timestamps `t` with `now - t < window`, each as often as it occurs, and no more entries than it was given |
| RateLimit.RateLimiter.constructor | bots/base_bot.py:33-36 | the limits are stored and the log starts empty |
| RateLimit.RateLimiter.IsAllowed | bots/base_bot.py:38-52 | the answer and the new log are those of `Check` on the old log, and the bound on every log's length is kept |
| RateLimit.CheckVerdict | bots/base_bot.py:48-52 | refused exactly when `max_requests` in-window entries remain; a refusal appends nothing, an admission appends `now` last |
| RateLimit.CheckFrame | bots/base_bot.py:39-51 | the log of every other user is unchanged |
| RateLimit.CheckWindow | bots/base_bot.py:43-51 | with a positive window, every timestamp kept for the user is inside the window |
| RateLimit.CheckBounded | bots/base_bot.py:43-51 | no log grows beyond `max_requests` entries |
| RateLimit.AdmissionsPerWindow | bots/base_bot.py:38-52 | over repeated checks at non-decreasing times, from an empty log, the log is exactly the admitted requests still inside the window, and no more than `max_requests` of them were admitted within any trailing window |
| Agent.CreateBackend | bots/base_bot.py:77-97 | Ollama for "ollama"; OpenAI-compatible for "openai", "anthropic" and "custom"; "Unknown backend type: …" for anything else; the backend is built from the persona's settings |
| Agent.PromptHasNoHistory | bots/base_bot.py:124 | no history is passed, so both backends send exactly the system prompt and one user turn |
| Agent.GenerateResponse | bots/base_bot.py:121-127 | the reply is the backend's `chat` reply and is never empty; an exception escaping `chat` becomes the apology naming its class |
| Orchestration.LoadConfig | bots/base_bot.py:162-167 | accepted exactly when `homeserver` is present and `models` is present and non-empty, and then returned unchanged; otherwise the matching error, with `homeserver` checked first |
| Orchestration.CleanMessage | bots/base_bot.py:283-285 | the loop's result equals `Cleaned`: each token removed in order and the result stripped after each |
| Orchestration.CleanedTrimmed | bots/base_bot.py:283-285 | the cleaned message has no whitespace at either end |
| Orchestration.CleanedWithoutTokens | bots/base_bot.py:283-285 | when neither token occurs, the cleaned message is the stripped body |
| Orchestration.CaseMismatchedMentionSurvives | bots/base_bot.py:261-285 | a mention found only after lower-casing addresses the bot, and stripping leaves it in the prompt |
| Orchestration.CaseMismatchedMentionExample | bots/base_bot.py:261-263 | for the bot "bo" with user id "@bo:x.org", "@Bo hi" is a mention and its cleaned prompt is exactly "@Bo hi": the case-mismatched mention is not removed |
| Orchestration.GateRule | bots/base_bot.py:266-268 | in mention-only mode the event passes exactly when the bot is mentioned, or direct rooms are allowed and the room has at most two members |
| Orchestration.TakeSubset | bots/base_bot.py:241-244 | the trimmed set is a subset of the old one with exactly 5000 ids |
| Orchestration.Orchestrator.constructor | bots/base_bot.py:145-152 | the trigger flags and the limiter settings are stored; no event has been processed |
| Orchestration.Orchestrator.HandleEvent | bots/base_bot.py:230-287 | each step in source order: own messages skipped and not recorded; repeated ids skipped; other ids recorded with the trim; events older than 30000 ms dropped; the limiter checked before the mention gate, so an unaddressed event still uses a request; the reply is the bot's response to the cleaned message; the id set never exceeds 10000 |
| Orchestration.DeliverToTwo | bots/base_bot.py:236-238 | when two bots' callbacks receive one event and the id set is below its cap, at most one of them gets past the duplicate check; when neither bot sent a new event, the second always skips it, even if only the second is mentioned |

## Left out

- Matrix I/O is not modelled: login, display names, syncing, typing indicators, posting the reply, and picking the listener client in `start`. The callback returns its decision and the reply it would post.
- HTTP plumbing is not modelled: aiohttp sessions, timeouts, reading `resp.text()` for the log, and closing sessions. Each exchange's outcome is an input.
- The asyncio concurrency between callbacks is not modelled. Callbacks run one at a time, which is what the single event loop gives between awaits.
- The clock is not modelled. The two `time.time()` readings are integer parameters: seconds for the limiter and milliseconds for the age check. Fractional seconds are not represented.
- Environment and files are not modelled: reading the YAML file, resolving `api_key_env` and `password_env`, and OPENAI_API_KEY, which is a parameter of `OpenAI.New`.
- Logging is left out, except for the usage debug line of the OpenAI-compatible `chat`. That line can raise, so it is modelled in `OpenAI.FromBody`.
- Temperatures are passed through as opaque `real` values. No floating-point arithmetic happens on them.
- JSON numbers are integers. Nothing in the core computes with them; only their truthiness counts.
- Orchestration.LoadConfig: a YAML document that is not a mapping is not modelled, because `config` is a map from keys to values.
- The defaults `AgentBot.__init__` applies to a model entry are not modelled. `AgentConfig` holds the values after defaulting.
- Reading `triggers` and `rate_limit` in `BotOrchestrator.__init__` is not modelled. The constructor takes the values that were read.
- The backends' `__init__` defaults are not modelled. `AgentBot` always passes every argument, so they are never used.
- Orchestration.Mentioned: lower-casing is ASCII only. Python's `str.lower` also maps non-ASCII letters.
- Orchestration.TakeSubset: which 5000 ids survive the trim depends on the set's iteration order. The model picks any 5000. A trim that drops the id just added would let a later callback for that event through; `DeliverToTwo` therefore assumes the set is below its cap.
- Per-room conversation windows are not modelled: `generate_response` never passes history. So are retries and backoff, and serialisation per persona and room, none of which the code has.
- `main`, `start`'s callback registration, and `stop` are process wiring, not modelled.
- OpenAI.HealthCheck, Ollama.HealthCheck, OpenAI.ListModelIds and Ollama.ListModelNames: an exception raised while creating the session is not modelled separately. It happens before the `try` and would propagate instead of giving False or `[]`.
