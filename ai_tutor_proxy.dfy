/**
 * The `ai-tutor` edge function (`supabase/functions/ai-tutor/index.ts`): a CORS-enabled
 * proxy that prepends a tutoring system prompt to the client's messages, forwards them
 * to the chat-completions gateway, and maps the gateway's answer to a response. The
 * request parsing, the environment lookup and the `fetch` are inputs; the handler is
 * split at the `fetch` into `Prepare` (up to the outgoing request) and `Complete`
 * (from the gateway's reply). The deployed function's prompt is `SourcePrompt()`; the
 * handler takes it as a value so that its proofs need not unfold the long text.
 */
module AITutorProxy {
  import opened Common
  import opened Text

  datatype ChatMessage = ChatMessage(role: string, content: string)

  /** What `await req.json()` yields: the two fields read from it, or the parse failure's message. */
  datatype RequestBody =
    | Parsed(messages: Option<seq<ChatMessage>>, includeWebSearch: bool)
    | Unparsable(reason: string)

  datatype Request = Request(verb: string, body: RequestBody)

  datatype UpstreamRequest = UpstreamRequest(
    url: string,
    verb: string,
    headers: map<string, string>,
    model: string,
    messages: seq<ChatMessage>,
    stream: bool,
    temperature: real,
    maxTokens: nat)

  /** The gateway's JSON body: `choices[i].message.content`, `model` and `usage` (kept as text). */
  datatype GatewayJson =
    | Completion(choices: seq<string>, model: string, usage: string)
    | Malformed(reason: string)

  /** The outcome of the `fetch`. */
  datatype UpstreamReply =
    | NetworkFailure(reason: string)
    | Reply(status: nat, text: string, json: GatewayJson)

  datatype ResponseBody =
    | NoBody
    | ErrorBody(error: string, kind: string)
    | ContentBody(content: string, model: string, usage: string)

  datatype Response = Response(status: nat, headers: map<string, string>, body: ResponseBody)

  /** Either the handler answers before calling the gateway, or it sends this request to it. */
  datatype Stage = Respond(response: Response) | Forward(request: UpstreamRequest)

  function CorsHeaders(): map<string, string>
  {
    map["Access-Control-Allow-Origin" := "*",
        "Access-Control-Allow-Headers" := "authorization, x-client-info, apikey, content-type"]
  }

  function JsonHeaders(): map<string, string>
  {
    CorsHeaders()["Content-Type" := "application/json"]
  }

  /** Every CORS header is present with its value. */
  predicate CarriesCors(headers: map<string, string>)
  {
    forall k :: k in CorsHeaders() ==> k in headers && headers[k] == CorsHeaders()[k]
  }

  function ServerError(message: string): (r: Response)
    ensures r.status == 500 && r.body.ErrorBody? && r.body.kind == "server_error" && CarriesCors(r.headers)
  {
    Response(500, JsonHeaders(), ErrorBody(message, "server_error"))
  }

  /** The system prompt's three parts: the fixed text before and after, and the web-search sentence. */
  datatype PromptParts = PromptParts(head: string, webSentence: string, tail: string)

  function SourcePrompt(): PromptParts
  {
    PromptParts(
      head :=
        "You are an expert AI tutor " + "with deep knowledge across " +
        "all subjects. Your goal is " + "to help students learn " + "effectively by:\n\n1. " +
        "Breaking down complex " + "concepts into simple, " + "understandable explanations\n" +
        "2. Providing step-by-step " + "solutions with clear " + "reasoning\n3. Encouraging " +
        "critical thinking by asking " + "guiding questions\n4. Using " +
        "real-world examples and " + "analogies\n5. Adapting your " + "teaching style to the " +
        "student's level\n6. Being " + "patient, encouraging, and " + "supportive\n7. Citing " +
        "sources when using web " + "research\n\nWhen solving " + "problems:\n- Show each step " +
        "clearly\n- Explain the " + "reasoning behind each step\n" +
        "- Point out common mistakes " + "to avoid\n- Provide practice " +
        "suggestions\n\nWhen " + "explaining concepts:\n- " + "Start with the big picture\n" +
        "- Use simple language " + "first, then introduce " + "technical terms\n- Use " +
        "examples and analogies\n- " + "Check for understanding\n\n",
      webSentence :=
        "You have access to current " + "web information. Use it to " + "provide accurate, " +
        "up-to-date facts and " + "real-world examples.",
      tail :=
        "\n\nBe conversational but " + "professional. Format your " + "responses with clear " +
        "sections when appropriate.")
  }

  lemma SourcePromptHasWebSentence()
    ensures |SourcePrompt().webSentence| > 0
  {
  }

  /** The system prompt; the web-search sentence sits between the two fixed parts only when asked for. */
  function SystemPrompt(p: PromptParts, includeWebSearch: bool): string
  {
    p.head + (if includeWebSearch then p.webSentence else "") + p.tail
  }

  /**
   * With web search the prompt contains the web-search sentence; without it the prompt is
   * the two fixed parts alone, exactly that sentence shorter.
   */
  lemma SystemPromptWebSentence(p: PromptParts, includeWebSearch: bool)
    requires |p.webSentence| > 0
    ensures includeWebSearch ==> Contains(SystemPrompt(p, includeWebSearch), p.webSentence)
    ensures !includeWebSearch ==> SystemPrompt(p, includeWebSearch) == p.head + p.tail
    ensures |SystemPrompt(p, includeWebSearch)| == |SystemPrompt(p, false)| + |p.webSentence| <==> includeWebSearch
  {
    var s := SystemPrompt(p, includeWebSearch);
    if includeWebSearch {
      assert s == p.head + p.webSentence + p.tail;
      assert s[|p.head|..|p.head| + |p.webSentence|] == p.webSentence;
      ContainsAt(s, p.webSentence, |p.head|);
    }
  }

  function GatewayUrl(): string
  {
    "https://ai.gateway.lovable.dev/" + "v1/chat/completions"
  }

  /** The gateway request: the system message, then every client message in order. */
  function BuildUpstream(prompt: PromptParts, apiKey: string, messages: seq<ChatMessage>, includeWebSearch: bool): (u: UpstreamRequest)
    ensures |u.messages| == |messages| + 1
    ensures u.messages[0] == ChatMessage("system", SystemPrompt(prompt, includeWebSearch))
    ensures u.messages[1..] == messages
    ensures u.verb == "POST" && "Authorization" in u.headers && u.headers["Authorization"] == "Bearer " + apiKey
    ensures u.model == "google/gemini-2.5-flash" && !u.stream && u.temperature == 0.7 && u.maxTokens == 2000
  {
    UpstreamRequest(
      GatewayUrl(), "POST",
      map["Authorization" := "Bearer " + apiKey, "Content-Type" := "application/json"],
      "google/gemini-2.5-flash",
      [ChatMessage("system", SystemPrompt(prompt, includeWebSearch))] + messages,
      false, 0.7, 2000)
  }

  function MissingKeyMessage(): string
  {
    "LOVABLE_API_KEY is not " + "configured"
  }

  /** The `TypeError` that `messages.length` throws when the body has no `messages`. */
  function NoMessagesError(): string
  {
    "Cannot read properties of " + "undefined (reading 'length')"
  }

  /** The `TypeError` that `data.choices[0].message` throws on an empty `choices`. */
  function NoChoiceError(): string
  {
    "Cannot read properties of " + "undefined (reading 'message')"
  }

  /** The handler up to the `fetch`: preflight, body, key and message checks, then the gateway request. */
  function Prepare(prompt: PromptParts, req: Request, apiKey: Option<string>): (s: Stage)
    ensures s.Respond? ==> CarriesCors(s.response.headers)
    ensures req.verb == "OPTIONS" <==> s.Respond? && s.response.body.NoBody?
    ensures s.Forward? <==>
      req.verb != "OPTIONS" && req.body.Parsed? && apiKey.Some? && apiKey.value != "" &&
      req.body.messages.Some?
    ensures s.Forward? ==>
      s.request == BuildUpstream(prompt, apiKey.value, req.body.messages.value, req.body.includeWebSearch)
    ensures s.Respond? && req.verb != "OPTIONS" ==>
      s.response.status == 500 && s.response.body.ErrorBody? && s.response.body.kind == "server_error"
  {
    if req.verb == "OPTIONS" then Respond(Response(200, CorsHeaders(), NoBody))
    else match req.body
      case Unparsable(reason) => Respond(ServerError(reason))
      case Parsed(messages, includeWebSearch) =>
        if apiKey.None? || apiKey.value == "" then Respond(ServerError(MissingKeyMessage()))
        else if messages.None? then Respond(ServerError(NoMessagesError()))
        else Forward(BuildUpstream(prompt, apiKey.value, messages.value, includeWebSearch))
  }

  predicate IsOk(status: nat)
  {
    200 <= status <= 299
  }

  /** The handler after the `fetch`: status mapping, or the first choice's content on success. */
  function Complete(reply: UpstreamReply): (r: Response)
    ensures CarriesCors(r.headers)
    ensures r.status in {200, 402, 429, 500}
    ensures r.status == 429 <==> reply.Reply? && reply.status == 429
    ensures r.status == 402 <==> reply.Reply? && reply.status == 402
    ensures r.status == 429 ==> r.body == ErrorBody("Rate limit exceeded. " + "Please wait a moment before " + "trying again.", "rate_limit")
    ensures r.status == 402 ==> r.body == ErrorBody("AI credits exhausted. " + "Please contact support.", "payment_required")
    ensures r.status == 500 ==> r.body.ErrorBody? && r.body.kind == "server_error"
    ensures r.status == 200 <==>
      reply.Reply? && IsOk(reply.status) && reply.json.Completion? && |reply.json.choices| > 0
    ensures r.status == 200 ==>
      r.body == ContentBody(reply.json.choices[0], reply.json.model, reply.json.usage)
  {
    match reply
    case NetworkFailure(reason) => ServerError(reason)
    case Reply(status, text, json) =>
      if !IsOk(status) then
        if status == 429 then
          Response(429, JsonHeaders(), ErrorBody("Rate limit exceeded. " + "Please wait a moment before " + "trying again.", "rate_limit"))
        else if status == 402 then
          Response(402, JsonHeaders(), ErrorBody("AI credits exhausted. " + "Please contact support.", "payment_required"))
        else ServerError("AI Gateway error: " + NatToString(status) + " " + text)
      else match json
        case Malformed(reason) => ServerError(reason)
        case Completion(choices, model, usage) =>
          if |choices| == 0 then ServerError(NoChoiceError())
          else Response(200, JsonHeaders(), ContentBody(choices[0], model, usage))
  }

  /** The whole handler: the gateway's reply matters only when the request was forwarded. */
  function Handle(prompt: PromptParts, req: Request, apiKey: Option<string>, reply: UpstreamReply): (r: Response)
    ensures CarriesCors(r.headers)
    ensures Prepare(prompt, req, apiKey).Respond? ==> r == Prepare(prompt, req, apiKey).response
    ensures Prepare(prompt, req, apiKey).Forward? ==> r == Complete(reply)
  {
    match Prepare(prompt, req, apiKey)
    case Respond(response) => response
    case Forward(_) => Complete(reply)
  }

  /** A preflight is answered with an empty 200 carrying the CORS headers, whatever the gateway would say. */
  lemma PreflightNeverForwards(prompt: PromptParts, body: RequestBody, apiKey: Option<string>, reply: UpstreamReply)
    ensures Prepare(prompt, Request("OPTIONS", body), apiKey) == Respond(Response(200, CorsHeaders(), NoBody))
    ensures Handle(prompt, Request("OPTIONS", body), apiKey, reply) == Response(200, CorsHeaders(), NoBody)
  {
  }

  /** Without a configured key no request leaves the proxy and the client gets a 500 `server_error`. */
  lemma MissingKeyIsServerError(prompt: PromptParts, req: Request, apiKey: Option<string>, reply: UpstreamReply)
    requires req.verb != "OPTIONS" && req.body.Parsed?
    requires apiKey.None? || apiKey.value == ""
    ensures Handle(prompt, req, apiKey, reply) == ServerError(MissingKeyMessage())
  {
  }

  /** Any failing gateway status other than 429 and 402 becomes a 500 `server_error` naming the status. */
  lemma OtherFailuresAreServerErrors(status: nat, text: string, json: GatewayJson)
    requires !IsOk(status) && status != 429 && status != 402
    ensures Complete(Reply(status, text, json)) == ServerError("AI Gateway error: " + NatToString(status) + " " + text)
  {
  }
}
