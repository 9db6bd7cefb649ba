/**
 * The LLM gateway client of the run-workflow function (`callLLM`): one chat
 * completion call normalised over three providers. Building the HTTP request
 * and reading the JSON reply are pure functions; the HTTP exchange itself is a
 * parameter `fetch` that maps the request to the provider's reply.
 */
module Gateway {
  import opened Wrappers
  import Text

  datatype Provider = OpenAI | Anthropic | Groq

  const OpenAIUrl: string := "https://api.openai.com/v1/chat/completions"
  const AnthropicUrl: string := "https://api.anthropic.com/v1/messages"
  const GroqUrl: string := "https://api.groq.com/openai/v1/chat/completions"
  const AnthropicVersion: string := "2023-06-01"
  const AnthropicMaxTokens: nat := 4096

  function ProviderName(p: Provider): string {
    match p
    case OpenAI => "openai"
    case Anthropic => "anthropic"
    case Groq => "groq"
  }

  /** The provider a `model_provider` string selects; the comparison is exact (case-sensitive). */
  function ParseProvider(name: string): (p: Option<Provider>)
    ensures p.Some? <==> name == "openai" || name == "anthropic" || name == "groq"
    ensures p.Some? ==> ProviderName(p.value) == name
  {
    if name == "openai" then Some(OpenAI)
    else if name == "anthropic" then Some(Anthropic)
    else if name == "groq" then Some(Groq)
    else None
  }

  /** The arguments of one `callLLM` invocation. The temperature is passed through untouched. */
  datatype LlmCall = LlmCall(
    apiKey: string,
    provider: string,
    model: string,
    systemPrompt: string,
    userMessage: string,
    temperature: real)

  datatype Header = Header(name: string, value: string)
  datatype ChatMessage = ChatMessage(role: string, content: string)

  /** The JSON body sent: the chat-completions shape (OpenAI, Groq) or the messages shape (Anthropic). */
  datatype RequestBody =
    | ChatCompletionBody(model: string, messages: seq<ChatMessage>, temperature: real)
    | MessagesBody(model: string, maxTokens: nat, system: string, messages: seq<ChatMessage>, temperature: real)

  /** A POST request; the method is always POST and is not represented. */
  datatype HttpRequest = HttpRequest(url: string, headers: seq<Header>, body: RequestBody)

  /**
   * The fields of the reply's JSON that `callLLM` reads, each absent when the
   * optional chain `?.` stops early: `content[0].text`, `usage.input_tokens`,
   * `usage.output_tokens`, `choices[0].message.content`, `usage.total_tokens`.
   */
  datatype Payload = Payload(
    contentText: Option<string>,
    inputTokens: Option<int>,
    outputTokens: Option<int>,
    choiceContent: Option<string>,
    totalTokens: Option<int>)

  /**
   * The outcome of `fetch`: a reply, or a rejection (a network, DNS or TLS
   * failure) with the message of the error it rejects with. A reply carries the
   * status code, the body as text, and the body parsed as JSON or the parser's
   * message; the parsed body is `None` when it is the JSON literal `null`.
   */
  datatype HttpResponse =
    | HttpResponse(status: nat, text: string, json: Result<Option<Payload>, string>)
    | Rejected(reason: string)

  datatype Completion = Completion(content: string, tokens: int)

  /** `resp.ok` of the Fetch standard: a reply with a status in 200..299. */
  predicate IsOk(r: HttpResponse) {
    r.HttpResponse? && 200 <= r.status <= 299
  }

  function Endpoint(p: Provider): string {
    match p
    case OpenAI => OpenAIUrl
    case Anthropic => AnthropicUrl
    case Groq => GroqUrl
  }

  function RequestFor(p: Provider, call: LlmCall): HttpRequest {
    match p
    case Anthropic =>
      HttpRequest(AnthropicUrl,
        [Header("x-api-key", call.apiKey), Header("Content-Type", "application/json"),
         Header("anthropic-version", AnthropicVersion)],
        MessagesBody(call.model, AnthropicMaxTokens, call.systemPrompt,
          [ChatMessage("user", call.userMessage)], call.temperature))
    case _ =>
      HttpRequest(Endpoint(p),
        [Header("Authorization", "Bearer " + call.apiKey), Header("Content-Type", "application/json")],
        ChatCompletionBody(call.model,
          [ChatMessage("system", call.systemPrompt), ChatMessage("user", call.userMessage)],
          call.temperature))
  }

  /** The value of the first header with the given name, as a server would read it. */
  function HeaderValue(hs: seq<Header>, name: string): Option<string> {
    if hs == [] then None
    else if hs[0].name == name then Some(hs[0].value)
    else HeaderValue(hs[1..], name)
  }

  /**
   * What the provider behind `req.url` reads from a request: the API key (from
   * `x-api-key` for Anthropic, from a `Bearer` authorization otherwise), and the
   * system prompt and user message. An independent reading of the wire format,
   * used to state what BuildRequest delivers.
   */
  function ReceivedKey(req: HttpRequest): Option<string> {
    if req.url == AnthropicUrl then HeaderValue(req.headers, "x-api-key")
    else
      match HeaderValue(req.headers, "Authorization")
      case Some(v) => if |v| >= 7 && v[..7] == "Bearer " then Some(v[7..]) else None
      case None => None
  }

  function ReceivedPrompt(req: HttpRequest): Option<(string, string)> {
    match req.body
    case ChatCompletionBody(_, ms, _) =>
      if |ms| == 2 && ms[0].role == "system" && ms[1].role == "user" then Some((ms[0].content, ms[1].content)) else None
    case MessagesBody(_, _, sys, ms, _) =>
      if |ms| == 1 && ms[0].role == "user" then Some((sys, ms[0].content)) else None
  }

  function ReceivedModel(req: HttpRequest): string {
    req.body.model
  }

  /**
   * The request `callLLM` sends, or the error it throws before sending anything:
   * an unknown provider is refused with "Unsupported provider: <p>"; a known one
   * gets its own endpoint, and the provider receives exactly the call's key,
   * model, temperature, system prompt and user message.
   */
  function BuildRequest(call: LlmCall): (r: Result<HttpRequest, string>)
    ensures r.Failure? <==> ParseProvider(call.provider).None?
    ensures r.Failure? ==> r.error == "Unsupported provider: " + call.provider
    ensures r.Success? ==>
      && r.value.url == Endpoint(ParseProvider(call.provider).value)
      && ReceivedKey(r.value) == Some(call.apiKey)
      && ReceivedModel(r.value) == call.model
      && r.value.body.temperature == call.temperature
      && ReceivedPrompt(r.value) == Some((call.systemPrompt, call.userMessage))
    ensures r.Success? && call.provider == "anthropic" ==>
      && r.value.body.MessagesBody? && r.value.body.maxTokens == AnthropicMaxTokens
      && HeaderValue(r.value.headers, "anthropic-version") == Some(AnthropicVersion)
  {
    match ParseProvider(call.provider)
    case None => Failure("Unsupported provider: " + call.provider)
    case Some(p) =>
      var req := RequestFor(p, call);
      assert p != Anthropic ==> HeaderValue(req.headers, "Authorization") == Some("Bearer " + call.apiKey);
      assert p != Anthropic ==> ("Bearer " + call.apiKey)[7..] == call.apiKey;
      assert p == Anthropic ==> HeaderValue(req.headers[2..], "anthropic-version") == Some(AnthropicVersion);
      assert p == Anthropic ==> HeaderValue(req.headers[1..], "anthropic-version") == Some(AnthropicVersion);
      Success(req)
  }

  /**
   * Reading the reply of a successful call. Anthropic reports two counts that are
   * added, each counting 0 when absent; OpenAI and Groq report one total, 0 when
   * absent. Absent text gives "". Each provider reads only its own fields.
   */
  function Normalise(p: Provider, data: Payload): (c: Completion)
    ensures p == Anthropic ==>
      c.tokens == data.inputTokens.GetOr(0) + data.outputTokens.GetOr(0) && c.content == data.contentText.GetOr("")
    ensures p != Anthropic ==>
      c.tokens == data.totalTokens.GetOr(0) && c.content == data.choiceContent.GetOr("")
  {
    if p == Anthropic then
      Completion(data.contentText.GetOr(""), data.inputTokens.GetOr(0) + data.outputTokens.GetOr(0))
    else
      Completion(data.choiceContent.GetOr(""), data.totalTokens.GetOr(0))
  }

  /** Each provider reads only its own reply shape: the other shape's fields never affect the completion. */
  lemma NormaliseReadsOwnShape(p: Provider, a: Payload, b: Payload)
    requires p == Anthropic ==> a.contentText == b.contentText && a.inputTokens == b.inputTokens && a.outputTokens == b.outputTokens
    requires p != Anthropic ==> a.choiceContent == b.choiceContent && a.totalTokens == b.totalTokens
    ensures Normalise(p, a) == Normalise(p, b)
  {
  }

  function ApiErrorMessage(provider: string, status: nat, body: string): string {
    provider + " API error (" + Text.NatToString(status) + "): " + body
  }

  /**
   * The TypeError a property read on `null` throws, in the wording of the V8
   * engine the function runs on: the first field read is `content` for
   * Anthropic and `choices` otherwise.
   */
  function NullBodyMessage(p: Provider): string {
    "Cannot read properties of null (reading '" + (if p == Anthropic then "content" else "choices") + "')"
  }

  /**
   * `callLLM`: the completion, or the message of the error it throws. An unknown
   * provider fails without a request; a rejected `fetch` fails with its
   * message; a reply that is not ok fails with "<provider> API error
   * (<status>): <body>"; a body that is not JSON fails with the parser's
   * message; a `null` body fails on the first field read; otherwise the reply
   * is normalised.
   */
  function CallLlm(call: LlmCall, fetch: HttpRequest -> HttpResponse): (r: Result<Completion, string>)
    ensures ParseProvider(call.provider).None? ==> r == Failure("Unsupported provider: " + call.provider)
    ensures ParseProvider(call.provider).Some? ==>
      var p := ParseProvider(call.provider).value;
      var resp := fetch(RequestFor(p, call));
      && (resp.Rejected? ==> r == Failure(resp.reason))
      && (resp.HttpResponse? && !IsOk(resp) ==> r == Failure(ApiErrorMessage(call.provider, resp.status, resp.text)))
      && (IsOk(resp) && resp.json.Failure? ==> r == Failure(resp.json.error))
      && (IsOk(resp) && resp.json == Success(None) ==> r == Failure(NullBodyMessage(p)))
      && (IsOk(resp) && resp.json.Success? && resp.json.value.Some? ==> r == Success(Normalise(p, resp.json.value.value)))
  {
    match BuildRequest(call)
    case Failure(e) => Failure(e)
    case Success(req) =>
      var p := ParseProvider(call.provider).value;
      var resp := fetch(req);
      if resp.Rejected? then Failure(resp.reason)
      else if !IsOk(resp) then Failure(ApiErrorMessage(call.provider, resp.status, resp.text))
      else match resp.json
        case Failure(e) => Failure(e)
        case Success(None) => Failure(NullBodyMessage(p))
        case Success(Some(data)) => Success(Normalise(p, data))
  }

  /** A call succeeds only on an ok reply whose body is a JSON value other than `null`, and then it is that reply normalised. */
  lemma SuccessNeedsOkReply(call: LlmCall, fetch: HttpRequest -> HttpResponse)
    requires CallLlm(call, fetch).Success?
    ensures BuildRequest(call).Success?
    ensures var resp := fetch(BuildRequest(call).value);
      && IsOk(resp) && resp.json.Success? && resp.json.value.Some?
      && CallLlm(call, fetch).value == Normalise(ParseProvider(call.provider).value, resp.json.value.value)
  {
  }

  /** An unsupported provider's call never consults the network: its result is the same whatever `fetch` does. */
  lemma UnsupportedProviderSendsNothing(call: LlmCall, f: HttpRequest -> HttpResponse, g: HttpRequest -> HttpResponse)
    requires ParseProvider(call.provider).None?
    ensures CallLlm(call, f) == CallLlm(call, g)
    ensures CallLlm(call, f).Failure? && CallLlm(call, f).error == "Unsupported provider: " + call.provider
  {
  }

  /** A supported call's result depends on `fetch` only through the reply to the one request built from the call. */
  lemma OneRequestPerCall(call: LlmCall, f: HttpRequest -> HttpResponse, g: HttpRequest -> HttpResponse)
    requires BuildRequest(call).Success?
    requires f(BuildRequest(call).value) == g(BuildRequest(call).value)
    ensures CallLlm(call, f) == CallLlm(call, g)
  {
  }

  /** A reply that is not ok always fails the call, with a message that starts with the provider's name and keeps the body verbatim. */
  lemma NotOkFails(call: LlmCall, fetch: HttpRequest -> HttpResponse)
    requires BuildRequest(call).Success?
    requires fetch(BuildRequest(call).value).HttpResponse? && !IsOk(fetch(BuildRequest(call).value))
    ensures CallLlm(call, fetch).Failure?
    ensures var resp := fetch(BuildRequest(call).value);
      var m := CallLlm(call, fetch).error;
      |m| >= |call.provider| && m[..|call.provider|] == call.provider
      && m[|m| - |resp.text|..] == resp.text
  {
  }
}
