/** The Ollama backend (bots/ollama_bot.py): its stored configuration, the
    fixed two-message payload `chat` sends to `/api/chat`, and how the reply
    is chosen from the outcome of the POST. The HTTP session and the socket
    traffic are not modelled: the outcome of each request is an input. */
module Ollama {
  import opened Text
  import opened Values
  import opened Http

  /** The configuration an `OllamaBackend` keeps after `__init__`. */
  datatype Backend = Backend(
    apiUrl: string,
    model: string,
    systemPrompt: string,
    maxTokens: int,
    temperature: real)

  /** `OllamaBackend.__init__`: the base URL loses its trailing slashes. */
  function New(apiUrl: string, model: string, systemPrompt: string,
               maxTokens: int, temperature: real): (b: Backend)
    ensures b.apiUrl == NormalizeUrl(apiUrl)
    ensures b.model == model && b.systemPrompt == systemPrompt
    ensures b.maxTokens == maxTokens && b.temperature == temperature
  {
    Backend(NormalizeUrl(apiUrl), model, systemPrompt, maxTokens, temperature)
  }

  function ChatEndpoint(b: Backend): string {
    b.apiUrl + "/api/chat"
  }

  function TagsEndpoint(b: Backend): string {
    b.apiUrl + "/api/tags"
  }

  /** The stored URL is joined to the path with exactly one slash. */
  lemma EndpointsJoin(apiUrl: string, model: string, systemPrompt: string,
                      maxTokens: int, temperature: real)
    ensures var b := New(apiUrl, model, systemPrompt, maxTokens, temperature);
            var n := |b.apiUrl|;
            && ChatEndpoint(b) == NormalizeUrl(apiUrl) + "/api/chat"
            && TagsEndpoint(b) == NormalizeUrl(apiUrl) + "/api/tags"
            && ChatEndpoint(b)[n] == '/' && TagsEndpoint(b)[n] == '/'
            && (n > 0 ==> ChatEndpoint(b)[n - 1] != '/' && TagsEndpoint(b)[n - 1] != '/')
  {
  }

  /** The `options` object of the payload. */
  datatype Options = Options(numPredict: int, temperature: real)

  /** The JSON payload `chat` posts. */
  datatype Payload = Payload(
    model: string,
    messages: seq<ChatMessage>,
    stream: bool,
    options: Options)

  /** The payload of `chat(message, sender)`: `sender` is accepted and not
      used, and no history is sent. */
  function ChatPayload(b: Backend, message: string, sender: string): Payload {
    Payload(b.model,
            [ChatMessage("system", b.systemPrompt), ChatMessage("user", message)],
            false,
            Options(b.maxTokens, b.temperature))
  }

  /** The payload holds exactly the system prompt and the bare message, sets
      `stream` to false, maps max_tokens to `num_predict`, passes the
      temperature through, and does not depend on the sender. */
  lemma PayloadShape(b: Backend, message: string, sender: string, other: string)
    ensures var p := ChatPayload(b, message, sender);
            && p.messages == [ChatMessage("system", b.systemPrompt), ChatMessage("user", message)]
            && !p.stream && p.model == b.model
            && p.options.numPredict == b.maxTokens && p.options.temperature == b.temperature
            && p == ChatPayload(b, message, other)
  {
  }

  /** Which branch of `chat` produced the reply. */
  datatype ChatResult =
    | Answer(content: Json)
    | HttpError(status: nat)
    | EmptyContent
    | CannotConnect
    | RequestFailed(name: string)
    | Unexpected(name: string)

  /** The 200 branch of `chat`, over the decoded body `data`. */
  function FromBody(data: Json): ChatResult {
    match Get(data, "message", JObj(map[]))
    case Raised(e) => Unexpected(e)
    case Value(msg) =>
      match Get(msg, "content", JStr(""))
      case Raised(e) => Unexpected(e)
      case Value(text) => if Truthy(text) then Answer(text) else EmptyContent
  }

  /** The status check and exception handlers of `chat`, in source order:
      every status other than 200 is the same error, 401 and 429 included. */
  function Classify(o: HttpOutcome): ChatResult {
    match o
    case Response(status, data) => if status != 200 then HttpError(status) else FromBody(data)
    case ConnectorError => CannotConnect
    case ClientError(name) => RequestFailed(name)
    case OtherError(name) => Unexpected(name)
  }

  /** The reply texts of `chat`, split after a short lead as `Http.WarningChars`
      explains. */
  const CannotConnectText :=
    Warning + "Cannot reach" + " the Ollama server. Is it running? Check OLLAMA_URL in your config."

  function HttpErrorText(status: nat): string {
    StatusText("Model returned an error", status)
  }

  /** The value `chat` returns: the content itself on success (whatever JSON
      value it is), a fixed warning string otherwise. */
  function Reply(r: ChatResult): Json {
    match r
    case Answer(content) => content
    case HttpError(status) => JStr(HttpErrorText(status))
    case EmptyContent => JStr(EmptyContentText)
    case CannotConnect => JStr(CannotConnectText)
    case RequestFailed(name) => JStr(RequestFailedText(name))
    case Unexpected(name) => JStr(UnexpectedText(name))
  }

  /** `chat` as a whole: the request it sends and the value it returns once
      the server (an input) has answered that request. */
  function Chat(b: Backend, message: string, sender: string,
                server: (string, Payload) -> HttpOutcome): (r: Json)
    ensures Truthy(r)
    ensures server(ChatEndpoint(b), ChatPayload(b, message, sender)).ConnectorError? ==>
              r == JStr(CannotConnectText)
  {
    var o := server(ChatEndpoint(b), ChatPayload(b, message, sender));
    ReplyTruthy(o);
    Reply(Classify(o))
  }

  /** `message.content` of a 200 body, "" when absent; None when the body or
      its `message` is not a dict, so that reading it raises. */
  function Content(data: Json): Option<Json> {
    if !data.JObj? then None
    else if "message" !in data.fields then Some(JStr(""))
    else if !data.fields["message"].JObj? then None
    else if "content" in data.fields["message"].fields then Some(data.fields["message"].fields["content"])
    else Some(JStr(""))
  }

  /** Every status other than 200 is reported as an HTTP error with that
      status; 401 and 429 get no message of their own. */
  lemma StatusRule(o: HttpOutcome)
    ensures Classify(o).HttpError? <==> o.Response? && o.status != 200
    ensures Classify(o).HttpError? ==> Classify(o).status == o.status
  {
  }

  /** Transport exceptions are caught in handler order: a connection failure,
      another client error, anything else. */
  lemma ExceptionRule(o: HttpOutcome, name: string)
    ensures Classify(o) == CannotConnect <==> o == ConnectorError
    ensures Classify(o) == RequestFailed(name) <==> o == ClientError(name)
    ensures o == OtherError(name) ==> Classify(o) == Unexpected(name)
  {
  }

  /** On 200 the content is returned when it is truthy, the rephrase message
      is returned when it is empty or missing, and a body of the wrong shape
      is an unexpected AttributeError. */
  lemma AnswerRule(o: HttpOutcome)
    ensures Classify(o).Answer? <==>
              o.Response? && o.status == 200 && Content(o.body).Some? && Truthy(Content(o.body).value)
    ensures Classify(o).Answer? ==> Classify(o).content == Content(o.body).value
    ensures o.Response? && o.status == 200 && Content(o.body).Some? && !Truthy(Content(o.body).value) ==>
              Classify(o) == EmptyContent
    ensures o.Response? && o.status == 200 && Content(o.body).None? ==>
              Classify(o) == Unexpected("AttributeError")
  {
  }

  /** `chat` never answers with an empty value. */
  lemma ReplyTruthy(o: HttpOutcome)
    ensures Truthy(Reply(Classify(o)))
  {
    match Classify(o)
    case Answer(content) =>
      AnswerRule(o);
    case _ =>
  }

  function Code(r: ChatResult): nat {
    match r
    case Answer(_) => 0
    case HttpError(_) => 1
    case EmptyContent => 2
    case CannotConnect => 3
    case RequestFailed(_) => 4
    case Unexpected(_) => 5
  }

  lemma KeyOfBody(r: ChatResult)
    ensures r.HttpError? ==> Key(Reply(r)) == ('\U{26A0}', 'M', 'o')
    ensures r.EmptyContent? ==> Key(Reply(r)) == ('\U{1F914}', ' ', 'g')
  {
    match r
    case HttpError(status) => StatusKey("Model returned an error", status);
    case EmptyContent => SharedKeys("");
    case _ =>
  }

  lemma KeyOfException(r: ChatResult)
    ensures r.CannotConnect? ==> Key(Reply(r)) == ('\U{26A0}', 'C', 'a')
    ensures r.RequestFailed? ==> Key(Reply(r)) == ('\U{26A0}', 'R', 'e')
    ensures r.Unexpected? ==> Key(Reply(r)) == ('\U{26A0}', 'U', 'n')
  {
    match r
    case CannotConnect =>
      WarningChars("Cannot reach", " the Ollama server. Is it running? Check OLLAMA_URL in your config.");
    case RequestFailed(name) => SharedKeys(name);
    case Unexpected(name) => SharedKeys(name);
    case _ =>
  }

  /** The first characters of every failure text, which tell the branches
      apart. */
  lemma KeyOf(r: ChatResult)
    requires !r.Answer?
    ensures r.HttpError? ==> Key(Reply(r)) == ('\U{26A0}', 'M', 'o')
    ensures r.EmptyContent? ==> Key(Reply(r)) == ('\U{1F914}', ' ', 'g')
    ensures r.CannotConnect? ==> Key(Reply(r)) == ('\U{26A0}', 'C', 'a')
    ensures r.RequestFailed? ==> Key(Reply(r)) == ('\U{26A0}', 'R', 'e')
    ensures r.Unexpected? ==> Key(Reply(r)) == ('\U{26A0}', 'U', 'n')
  {
    KeyOfBody(r);
    KeyOfException(r);
  }

  /** Different failures are reported with different texts: the reply names
      the branch, the HTTP status and the exception class. */
  lemma {:induction false} FailureTextsDistinct(r1: ChatResult, r2: ChatResult)
    requires !r1.Answer? && !r2.Answer?
    requires Reply(r1) == Reply(r2)
    ensures r1 == r2
  {
    if Code(r1) != Code(r2) {
      KeyOf(r1);
      KeyOf(r2);
      assert false;
    }
    match r1
    case HttpError(s1) => StatusTextInjective("Model returned an error", s1, r2.status);
    case RequestFailed(n1) => NamedTextsInjective(n1, r2.name);
    case Unexpected(n1) => NamedTextsInjective(n1, r2.name);
    case _ =>
  }

  /** `health_check`: only a 200 from the tags endpoint counts as up; an
      exception means unreachable. */
  function HealthCheck(o: HttpOutcome): (up: bool)
    ensures up <==> o.Response? && o.status == 200
  {
    o.Response? && o.status == 200
  }

  /** `list_models`: the `name` of every entry of `models`. */
  function ListModelNames(o: HttpOutcome): seq<Json> {
    ListModels(o, "models", "name")
  }
}
