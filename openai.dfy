/** The OpenAI-compatible chat-completions backend (bots/openai_bot.py):
    its stored configuration, the request `chat` sends, and how the reply
    string is chosen from the outcome of the POST. The HTTP session and the
    socket traffic are not modelled: the outcome of each request is an input. */
module OpenAI {
  import opened Text
  import opened Values
  import opened Http

  /** The configuration an `OpenAIBackend` keeps after `__init__`. */
  datatype Backend = Backend(
    apiUrl: string,
    apiKey: string,
    model: string,
    systemPrompt: string,
    maxTokens: int,
    temperature: real)

  /** `OpenAIBackend.__init__`: the base URL loses its trailing slashes and an
      empty key falls back to the OPENAI_API_KEY environment value, which the
      caller passes as `envKey` ("" when the variable is unset). */
  function New(apiUrl: string, apiKey: string, envKey: string, model: string,
               systemPrompt: string, maxTokens: int, temperature: real): (b: Backend)
    ensures b.apiUrl == NormalizeUrl(apiUrl)
    ensures b.apiKey == (if apiKey != "" then apiKey else envKey)
    ensures b.model == model && b.systemPrompt == systemPrompt
    ensures b.maxTokens == maxTokens && b.temperature == temperature
  {
    Backend(NormalizeUrl(apiUrl), if apiKey != "" then apiKey else envKey,
            model, systemPrompt, maxTokens, temperature)
  }

  /** The default headers of the session `_get_session` creates. */
  function SessionHeaders(b: Backend): (h: seq<(string, string)>)
    ensures |h| > 0 && h[0] == ("Content-Type", "application/json")
    ensures b.apiKey != "" <==> ("Authorization", "Bearer " + b.apiKey) in h
    ensures forall i :: 0 <= i < |h| && h[i].0 == "Authorization" ==> b.apiKey != ""
  {
    [("Content-Type", "application/json")]
    + (if b.apiKey != "" then [("Authorization", "Bearer " + b.apiKey)] else [])
  }

  function ChatEndpoint(b: Backend): string {
    b.apiUrl + "/chat/completions"
  }

  function ModelsEndpoint(b: Backend): string {
    b.apiUrl + "/models"
  }

  /** The stored URL is joined to the path with exactly one slash. */
  lemma EndpointsJoin(apiUrl: string, apiKey: string, envKey: string, model: string,
                      systemPrompt: string, maxTokens: int, temperature: real)
    ensures var b := New(apiUrl, apiKey, envKey, model, systemPrompt, maxTokens, temperature);
            var n := |b.apiUrl|;
            && ChatEndpoint(b) == NormalizeUrl(apiUrl) + "/chat/completions"
            && ModelsEndpoint(b) == NormalizeUrl(apiUrl) + "/models"
            && ChatEndpoint(b)[n] == '/' && ModelsEndpoint(b)[n] == '/'
            && (n > 0 ==> ChatEndpoint(b)[n - 1] != '/' && ModelsEndpoint(b)[n - 1] != '/')
  {
  }

  /** One entry of the `history` list: a dict with sender, message and
      timestamp keys. */
  datatype HistoryEntry = HistoryEntry(sender: string, message: string, timestamp: int)

  function Turn(sender: string, message: string): ChatMessage {
    ChatMessage("user", sender + ": " + message)
  }

  /** What `_build_messages` returns: the system prompt, one user turn for
      every history entry but the last, then the current message. */
  function Messages(systemPrompt: string, message: string, sender: string,
                    history: seq<HistoryEntry>): seq<ChatMessage>
  {
    var prior := if history == [] then [] else history[..|history| - 1];
    [ChatMessage("system", systemPrompt)]
    + seq(|prior|, i requires 0 <= i < |prior| => Turn(prior[i].sender, prior[i].message))
    + [Turn(sender, message)]
  }

  /** `_build_messages`: the list starts with the system turn and is extended
      by `append` in a loop over `history[:-1]`. */
  method BuildMessages(systemPrompt: string, message: string, sender: string,
                       history: seq<HistoryEntry>) returns (msgs: seq<ChatMessage>)
    ensures msgs == Messages(systemPrompt, message, sender, history)
  {
    msgs := [ChatMessage("system", systemPrompt)];
    var prior := if history == [] then [] else history[..|history| - 1];
    for i := 0 to |prior|
      invariant |msgs| == i + 1 && msgs[0] == ChatMessage("system", systemPrompt)
      invariant forall k :: 0 <= k < i ==> msgs[k + 1] == Turn(prior[k].sender, prior[k].message)
    {
      msgs := msgs + [Turn(prior[i].sender, prior[i].message)];
    }
    msgs := msgs + [Turn(sender, message)];
    assert msgs == Messages(systemPrompt, message, sender, history);
  }

  /** The shape of the message list: every turn after the system prompt is a
      user turn (the docstring's "assistant" role is never produced), the
      history's last entry is left out, and the current message comes last. */
  lemma MessagesShape(systemPrompt: string, message: string, sender: string,
                      history: seq<HistoryEntry>)
    ensures var m := Messages(systemPrompt, message, sender, history);
            && |m| == (if history == [] then 2 else |history| + 1)
            && m[0] == ChatMessage("system", systemPrompt)
            && m[|m| - 1] == ChatMessage("user", sender + ": " + message)
            && (forall k :: 1 <= k < |m| ==> m[k].role == "user")
            && (forall k :: 1 <= k < |m| - 1 ==>
                  m[k].content == history[k - 1].sender + ": " + history[k - 1].message)
  {
    var prior := if history == [] then [] else history[..|history| - 1];
    var m := Messages(systemPrompt, message, sender, history);
    assert |m| == |prior| + 2;
    forall k | 1 <= k < |m|
      ensures m[k].role == "user"
      ensures k < |m| - 1 ==>
                m[k].content == history[k - 1].sender + ": " + history[k - 1].message
    {
      if k < |m| - 1 {
        assert m[k] == Turn(prior[k - 1].sender, prior[k - 1].message);
      }
    }
  }

  /** The JSON payload `chat` posts. */
  datatype Payload = Payload(
    model: string,
    messages: seq<ChatMessage>,
    maxTokens: int,
    temperature: real,
    stream: bool)

  function ChatPayload(b: Backend, message: string, sender: string,
                       history: seq<HistoryEntry>): (p: Payload)
    ensures p.messages == Messages(b.systemPrompt, message, sender, history)
    ensures p.model == b.model && p.maxTokens == b.maxTokens
    ensures p.temperature == b.temperature && !p.stream
  {
    Payload(b.model, Messages(b.systemPrompt, message, sender, history),
            b.maxTokens, b.temperature, false)
  }

  /** Which branch of `chat` produced the reply. */
  datatype ChatResult =
    | Answer(content: Json)
    | AuthFailed
    | ProviderRateLimited
    | HttpError(status: nat)
    | NoChoices
    | EmptyContent
    | CannotConnect
    | RequestFailed(name: string)
    | Unexpected(name: string)

  /** The 200 branch of `chat`, over the decoded body `data`. The debug line
      that reports token usage is an f-string and is evaluated whenever
      `usage` is truthy, so a truthy `usage` that is not a dict raises. */
  function FromBody(data: Json): ChatResult {
    match Get(data, "choices", JArr([]))
    case Raised(e) => Unexpected(e)
    case Value(choices) =>
      if !Truthy(choices) then NoChoices
      else match First(choices)
        case Raised(e) => Unexpected(e)
        case Value(choice) =>
          match Get(choice, "message", JObj(map[]))
          case Raised(e) => Unexpected(e)
          case Value(msg) =>
            match Get(msg, "content", JStr(""))
            case Raised(e) => Unexpected(e)
            case Value(text) =>
              if !Truthy(text) then EmptyContent
              else match Get(data, "usage", JObj(map[]))
                case Raised(e) => Unexpected(e)
                case Value(usage) =>
                  if Truthy(usage) && !usage.JObj? then Unexpected("AttributeError")
                  else Answer(text)
  }

  /** The status checks and exception handlers of `chat`, in source order. */
  function Classify(o: HttpOutcome): ChatResult {
    match o
    case Response(status, data) =>
      if status == 401 then AuthFailed
      else if status == 429 then ProviderRateLimited
      else if status != 200 then HttpError(status)
      else FromBody(data)
    case ConnectorError => CannotConnect
    case ClientError(name) => RequestFailed(name)
    case OtherError(name) => Unexpected(name)
  }

  /** The reply texts of `chat`, split after a short lead as `Http.WarningChars`
      explains. */
  const AuthFailedText := Warning + "Authentication failed." + " Check the API key configuration."
  const ProviderLimitText := Warning + "Rate limited" + " by the API provider. Try again in a moment."
  const NoChoicesText := Thinking + "The model returned" + " an empty response."
  const CannotConnectText := Warning + "Cannot reach" + " the API server. Check the api_url in your config."

  function HttpErrorText(status: nat): string {
    StatusText("API returned an error", status)
  }

  /** The value `chat` returns: the content itself on success (whatever JSON
      value it is), a fixed warning string otherwise. */
  function Reply(r: ChatResult): Json {
    match r
    case Answer(content) => content
    case AuthFailed => JStr(AuthFailedText)
    case ProviderRateLimited => JStr(ProviderLimitText)
    case HttpError(status) => JStr(HttpErrorText(status))
    case NoChoices => JStr(NoChoicesText)
    case EmptyContent => JStr(EmptyContentText)
    case CannotConnect => JStr(CannotConnectText)
    case RequestFailed(name) => JStr(RequestFailedText(name))
    case Unexpected(name) => JStr(UnexpectedText(name))
  }

  /** `chat` as a whole: the request it sends and the value it returns once
      the server (an input) has answered that request. */
  function Chat(b: Backend, message: string, sender: string, history: seq<HistoryEntry>,
                server: (string, Payload) -> HttpOutcome): (r: Json)
    ensures Truthy(r)
    ensures server(ChatEndpoint(b), ChatPayload(b, message, sender, history)).ConnectorError? ==>
              r == JStr(CannotConnectText)
  {
    var o := server(ChatEndpoint(b), ChatPayload(b, message, sender, history));
    ReplyTruthy(o);
    Reply(Classify(o))
  }

  /** A 200 body in the shape the code expects: a dict whose `choices` is a
      non-empty list starting with a dict whose `message` is a dict, and with
      a `usage` entry, if any, that is a dict or falsy. */
  predicate WellFormed(data: Json) {
    && data.JObj?
    && "choices" in data.fields
    && data.fields["choices"].JArr?
    && |data.fields["choices"].items| > 0
    && data.fields["choices"].items[0].JObj?
    && (var choice := data.fields["choices"].items[0].fields;
        "message" in choice ==> choice["message"].JObj?)
    && ("usage" in data.fields ==>
          data.fields["usage"].JObj? || !Truthy(data.fields["usage"]))
  }

  /** `choices[0].message.content` of a well-formed body, "" when absent. */
  function Content(data: Json): Json
    requires WellFormed(data)
  {
    var choice := data.fields["choices"].items[0].fields;
    if "message" in choice && "content" in choice["message"].fields
    then choice["message"].fields["content"] else JStr("")
  }

  /** The status rules, checked in this order: 401, 429, any other non-200. */
  lemma StatusRule(o: HttpOutcome)
    ensures Classify(o) == AuthFailed <==> o.Response? && o.status == 401
    ensures Classify(o) == ProviderRateLimited <==> o.Response? && o.status == 429
    ensures Classify(o).HttpError? <==> o.Response? && o.status !in {200, 401, 429}
    ensures Classify(o).HttpError? ==> Classify(o).status == o.status
  {
  }

  /** Transport exceptions are caught in handler order: a connection failure,
      another client error, anything else. */
  lemma ExceptionRule(o: HttpOutcome, name: string)
    ensures Classify(o) == CannotConnect <==> o == ConnectorError
    ensures Classify(o) == RequestFailed(name) <==> o == ClientError(name)
    ensures o == OtherError(name) ==> Classify(o) == Unexpected(name)
  {
  }

  /** The content is returned exactly when the status is 200, the body has the
      expected shape and the first choice's content is truthy; that content is
      what is returned. */
  lemma AnswerRule(o: HttpOutcome)
    ensures Classify(o).Answer? <==>
              o.Response? && o.status == 200 && WellFormed(o.body) && Truthy(Content(o.body))
    ensures Classify(o).Answer? ==> Classify(o).content == Content(o.body)
  {
  }

  /** A well-formed 200 body without choices' content yields the rephrase
      message, and one whose `choices` is missing or empty the empty-response
      message. */
  lemma EmptyRules(data: Json)
    ensures WellFormed(data) && !Truthy(Content(data)) ==>
              Classify(Response(200, data)) == EmptyContent
    ensures data.JObj? && ("choices" !in data.fields || !Truthy(data.fields["choices"])) ==>
              Classify(Response(200, data)) == NoChoices
  {
  }

  /** `chat` never answers with an empty value. */
  lemma ReplyTruthy(o: HttpOutcome)
    ensures Truthy(Reply(Classify(o)))
  {
    match Classify(o)
    case Answer(content) =>
      AnswerRule(o);
    case _ =>
  }

  function Code(r: ChatResult): nat {
    match r
    case Answer(_) => 0
    case AuthFailed => 1
    case ProviderRateLimited => 2
    case HttpError(_) => 3
    case NoChoices => 4
    case EmptyContent => 5
    case CannotConnect => 6
    case RequestFailed(_) => 7
    case Unexpected(_) => 8
  }

  lemma KeyOfStatus(r: ChatResult)
    ensures r.AuthFailed? ==> Key(Reply(r)) == ('\U{26A0}', 'A', 'u')
    ensures r.ProviderRateLimited? ==> Key(Reply(r)) == ('\U{26A0}', 'R', 'a')
    ensures r.HttpError? ==> Key(Reply(r)) == ('\U{26A0}', 'A', 'P')
  {
    match r
    case AuthFailed => WarningChars("Authentication failed.", " Check the API key configuration.");
    case ProviderRateLimited => WarningChars("Rate limited", " by the API provider. Try again in a moment.");
    case HttpError(status) => StatusKey("API returned an error", status);
    case _ =>
  }

  lemma KeyOfBody(r: ChatResult)
    ensures r.NoChoices? ==> Key(Reply(r)) == ('\U{1F914}', 'h', 'e')
    ensures r.EmptyContent? ==> Key(Reply(r)) == ('\U{1F914}', ' ', 'g')
  {
    match r
    case NoChoices => ThinkingChars("The model returned", " an empty response.");
    case EmptyContent => SharedKeys("");
    case _ =>
  }

  lemma KeyOfException(r: ChatResult)
    ensures r.CannotConnect? ==> Key(Reply(r)) == ('\U{26A0}', 'C', 'a')
    ensures r.RequestFailed? ==> Key(Reply(r)) == ('\U{26A0}', 'R', 'e')
    ensures r.Unexpected? ==> Key(Reply(r)) == ('\U{26A0}', 'U', 'n')
  {
    match r
    case CannotConnect => WarningChars("Cannot reach", " the API server. Check the api_url in your config.");
    case RequestFailed(name) => SharedKeys(name);
    case Unexpected(name) => SharedKeys(name);
    case _ =>
  }

  /** The first characters of every failure text, which tell the branches
      apart. */
  lemma KeyOf(r: ChatResult)
    requires !r.Answer?
    ensures r.AuthFailed? ==> Key(Reply(r)) == ('\U{26A0}', 'A', 'u')
    ensures r.ProviderRateLimited? ==> Key(Reply(r)) == ('\U{26A0}', 'R', 'a')
    ensures r.HttpError? ==> Key(Reply(r)) == ('\U{26A0}', 'A', 'P')
    ensures r.NoChoices? ==> Key(Reply(r)) == ('\U{1F914}', 'h', 'e')
    ensures r.EmptyContent? ==> Key(Reply(r)) == ('\U{1F914}', ' ', 'g')
    ensures r.CannotConnect? ==> Key(Reply(r)) == ('\U{26A0}', 'C', 'a')
    ensures r.RequestFailed? ==> Key(Reply(r)) == ('\U{26A0}', 'R', 'e')
    ensures r.Unexpected? ==> Key(Reply(r)) == ('\U{26A0}', 'U', 'n')
  {
    KeyOfStatus(r);
    KeyOfBody(r);
    KeyOfException(r);
  }

  /** Different failures are reported with different texts: the reply names
      the branch, the HTTP status and the exception class. */
  lemma {:induction false} FailureTextsDistinct(r1: ChatResult, r2: ChatResult)
    requires !r1.Answer? && !r2.Answer?
    requires Reply(r1) == Reply(r2)
    ensures r1 == r2
  {
    if Code(r1) != Code(r2) {
      KeyOf(r1);
      KeyOf(r2);
      assert false;
    }
    match r1
    case HttpError(s1) => StatusTextInjective("API returned an error", s1, r2.status);
    case RequestFailed(n1) => NamedTextsInjective(n1, r2.name);
    case Unexpected(n1) => NamedTextsInjective(n1, r2.name);
    case _ =>
  }

  /** `health_check`: the models endpoint answered 200, or 401 (reachable but
      refusing the key); an exception means unreachable. */
  function HealthCheck(o: HttpOutcome): (up: bool)
    ensures up ==> o.Response?
    ensures o.Response? ==> (up <==> o.status in {200, 401})
  {
    o.Response? && (o.status == 200 || o.status == 401)
  }

  /** `list_models`: the `id` of every entry of `data`. */
  function ListModelIds(o: HttpOutcome): seq<Json> {
    ListModels(o, "data", "id")
  }
}
