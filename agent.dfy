/** `AgentBot` (bots/base_bot.py): one persona's configuration, the backend
    it builds from it, and `generate_response`, which asks that backend for
    a reply. Logging in to Matrix and closing the client are transport I/O
    and are not modelled. */
module Agent {
  import opened Values
  import opened Http
  import OpenAI
  import Ollama

  /** The fields `AgentBot.__init__` reads from one model entry, after its
      defaults have been applied. */
  datatype AgentConfig = AgentConfig(
    name: string,
    matrixUser: string,
    backendType: string,
    model: string,
    systemPrompt: string,
    apiUrl: string,
    apiKey: string,
    maxTokens: int,
    temperature: real)

  datatype Backend = UseOllama(ollama: Ollama.Backend) | UseOpenAI(openai: OpenAI.Backend)

  predicate IsOpenAIType(backendType: string) {
    backendType == "openai" || backendType == "anthropic" || backendType == "custom"
  }

  /** `_create_backend`; `envKey` is the OPENAI_API_KEY environment value the
      OpenAI-compatible backend falls back on. */
  function CreateBackend(c: AgentConfig, envKey: string): (r: Result<Backend>)
    ensures r.Ok? && r.value.UseOllama? <==> c.backendType == "ollama"
    ensures r.Ok? && r.value.UseOpenAI? <==> IsOpenAIType(c.backendType)
    ensures r.Failure? <==> c.backendType != "ollama" && !IsOpenAIType(c.backendType)
    ensures r.Failure? ==> r.error == "Unknown backend type: " + c.backendType
    ensures r.Ok? && r.value.UseOllama? ==>
              r.value.ollama == Ollama.New(c.apiUrl, c.model, c.systemPrompt, c.maxTokens, c.temperature)
    ensures r.Ok? && r.value.UseOpenAI? ==>
              r.value.openai == OpenAI.New(c.apiUrl, c.apiKey, envKey, c.model, c.systemPrompt,
                                           c.maxTokens, c.temperature)
  {
    if c.backendType == "ollama" then
      Ok(UseOllama(Ollama.New(c.apiUrl, c.model, c.systemPrompt, c.maxTokens, c.temperature)))
    else if IsOpenAIType(c.backendType) then
      Ok(UseOpenAI(OpenAI.New(c.apiUrl, c.apiKey, envKey, c.model, c.systemPrompt,
                              c.maxTokens, c.temperature)))
    else
      Failure("Unknown backend type: " + c.backendType)
  }

  /** The request `backend.chat(message, sender)` sends. */
  datatype Request =
    | OpenAIRequest(endpoint: string, openai: OpenAI.Payload)
    | OllamaRequest(endpoint: string, ollama: Ollama.Payload)

  /** What the call of `chat` itself does: its POST ends with an outcome, or
      an exception escapes `chat` from before its `try` (creating the HTTP
      session). */
  datatype ChatCall = Returned(outcome: HttpOutcome) | Escaped(name: string)

  /** The request `generate_response` makes `chat` send: no history is passed,
      so the OpenAI-compatible backend sends just the system prompt and the
      current turn. */
  function ChatRequest(b: Backend, message: string, sender: string): Request {
    match b
    case UseOllama(o) => OllamaRequest(Ollama.ChatEndpoint(o), Ollama.ChatPayload(o, message, sender))
    case UseOpenAI(a) => OpenAIRequest(OpenAI.ChatEndpoint(a), OpenAI.ChatPayload(a, message, sender, []))
  }

  /** The messages that request carries. */
  function PromptOf(q: Request): seq<ChatMessage> {
    match q
    case OpenAIRequest(_, p) => p.messages
    case OllamaRequest(_, p) => p.messages
  }

  const SorryPrefix: string := Warning + "Sorry, I encountered an error: "

  /** `generate_response(message, sender)`: the backend's `chat` reply for the
      request it sends, as answered by `server`; an exception escaping `chat`
      becomes an apology naming the exception class. The reply is never empty;
      it is a string unless the model's content itself was a non-string JSON
      value. */
  function GenerateResponse(b: Backend, message: string, sender: string,
                            server: Request -> ChatCall): (r: Json)
    ensures Truthy(r)
    ensures server(ChatRequest(b, message, sender)).Escaped? ==>
              r == JStr(SorryPrefix + server(ChatRequest(b, message, sender)).name)
  {
    var q := ChatRequest(b, message, sender);
    match server(q)
    case Escaped(name) => JStr(SorryPrefix + name)
    case Returned(o) =>
      match b
      case UseOllama(ol) => Ollama.Chat(ol, message, sender, (_, _) => o)
      case UseOpenAI(a) => OpenAI.Chat(a, message, sender, [], (_, _) => o)
  }

  /** Every prompt is exactly two turns, the system prompt then the message:
      the Ollama backend sends the message bare, the OpenAI-compatible one
      prefixes it with the sender. */
  lemma PromptHasNoHistory(b: Backend, message: string, sender: string)
    ensures var m := PromptOf(ChatRequest(b, message, sender));
            && |m| == 2
            && (b.UseOllama? ==> m == [ChatMessage("system", b.ollama.systemPrompt),
                                      ChatMessage("user", message)])
            && (b.UseOpenAI? ==> m == [ChatMessage("system", b.openai.systemPrompt),
                                      ChatMessage("user", sender + ": " + message)])
  {
    if b.UseOpenAI? {
      OpenAI.MessagesShape(b.openai.systemPrompt, message, sender, []);
    }
  }
}
