/** `POST /api/chat` of src/app/api/chat/route.ts: from the parsed request
    body to either a validation error or one call of the OpenAI Responses
    API, and from that call's reply or fault to the JSON response. The
    vendor call is a function parameter; a `Trace` records the response
    together with the client that was built and the request that was sent,
    so that "no client" and "no vendor call" can be stated. */
module ChatRoute {
  import opened Values
  import opened Text
  import OpenAIClient

  const DefaultModel := "gpt-4.1-mini"
  const DefaultTemperature := Number("0.6")
  const InvalidJsonMessage := "Invalid JSON payload."
  const MissingMessagesMessage := "Messages array is required."
  const VendorFallbackMessage := "OpenAI API error."

  /** The body members the route reads; any other member is ignored. */
  const Fields: set<string> := {"messages", "systemPrompt", "model", "temperature", "apiKey"}

  /** One element of the outbound `input`, `{role: message.role, content:
      message.content}`, where None is `undefined`. */
  datatype InputMessage = InputMessage(role: Option<Json>, content: Option<Json>)

  /** The argument of `client.responses.create`. */
  datatype VendorRequest = VendorRequest(
    model: Json,
    instructions: Option<string>,
    temperature: Number,
    input: seq<InputMessage>)

  /** The members of the Responses API reply the route reads. */
  datatype VendorResponse = VendorResponse(outputText: Option<Json>, usage: Option<Json>, model: Option<Json>)

  datatype VendorOutcome = Replied(response: VendorResponse) | Threw(fault: Fault)

  /** The network call, as seen by the route. */
  type Vendor = (OpenAIClient.Client, VendorRequest) -> VendorOutcome

  datatype ResponseBody = ErrorBody(error: string) | ChatBody(text: Json, usage: Json, model: Json)

  /** `Response.json(body, {status})`, or an exception that leaves the
      handler (the framework then answers without a JSON body). */
  datatype Response = Respond(status: int, body: ResponseBody) | Uncaught(fault: Fault)

  datatype Trace = Trace(
    response: Response,
    client: Option<OpenAIClient.Client>,
    request: Option<VendorRequest>)

  /** Passes `!body?.messages || !Array.isArray(body.messages)`. */
  predicate HasMessagesArray(body: Json) {
    var m := Member(body, "messages");
    Truthy(m) && m.value.JArray?
  }

  /** `body.systemPrompt?.trim()`: absent for null or undefined, trimmed for
      a string, and a `TypeError` for any other value. */
  function SystemPromptOf(v: Option<Json>): (r: Result<Option<string>, Fault>)
    ensures Nullish(v) ==> r == Success(None)
    ensures v.Some? && v.value.JString? ==> r == Success(Some(Trim(v.value.s)))
    ensures r.Failure? <==> !Nullish(v) && !v.value.JString?
  {
    if Nullish(v) then Success(None)
    else if v.value.JString? then Success(Some(Trim(v.value.s)))
    else Failure(NotAFunction("body.systemPrompt?.trim"))
  }

  /** `typeof t === "number" ? t : 0.6` */
  function TemperatureOf(v: Option<Json>): (r: Number)
    ensures (v.Some? && v.value.JNumber?) ==> r == v.value.n
    ensures !(v.Some? && v.value.JNumber?) ==> r == DefaultTemperature
  {
    match v
    case Some(JNumber(n)) => n
    case _ => DefaultTemperature
  }

  /** `messages.map(m => ({role: m.role, content: m.content}))`: one element
      per message, in order; reading a property of a `null` element throws. */
  function MapMessages(elems: seq<Json>): (r: Result<seq<InputMessage>, Fault>)
    ensures r.Success? <==> forall i | 0 <= i < |elems| :: !elems[i].JNull?
    ensures r.Failure? ==> r.error == NullRead("role")
    ensures r.Success? ==> |r.value| == |elems|
    ensures r.Success? ==> forall i | 0 <= i < |elems| ::
              r.value[i] == InputMessage(Member(elems[i], "role"), Member(elems[i], "content"))
  {
    if elems == [] then Success([])
    else if elems[0].JNull? then Failure(NullRead("role"))
    else
      match MapMessages(elems[1..])
      case Failure(f) => Failure(f)
      case Success(rest) =>
        Success([InputMessage(Member(elems[0], "role"), Member(elems[0], "content"))] + rest)
  }

  /** The success body: `text`, `usage` and `model` of the reply, each
      replaced by its default when the reply leaves it null or undefined. */
  function ChatReply(reply: VendorResponse, requested: Json): (body: ResponseBody)
    ensures body.ChatBody?
    ensures body.text == (if Nullish(reply.outputText) then JString("") else reply.outputText.value)
    ensures body.usage == (if Nullish(reply.usage) then JNull else reply.usage.value)
    ensures body.model == (if Nullish(reply.model) then requested else reply.model.value)
  {
    ChatBody(Coalesce(reply.outputText, JString("")), Coalesce(reply.usage, JNull), Coalesce(reply.model, requested))
  }

  /** The `catch` at the end of the handler: every fault is a 500 whose
      error is the fault's message, or a fixed text for non-`Error`s. */
  function FaultResponse(f: Fault): (r: Response)
    ensures r.Respond? && r.status == 500 && r.body.ErrorBody?
    ensures r.body.error == MessageOr(f, VendorFallbackMessage)
  {
    Respond(500, ErrorBody(MessageOr(f, VendorFallbackMessage)))
  }

  /** The handler. `body` is None when `req.json()` fails; `envKey` is
      `process.env.OPENAI_API_KEY`. */
  function Post(body: Option<Json>, envKey: Option<string>, vendor: Vendor): (t: Trace)
    ensures body.None? ==> t == Trace(Respond(400, ErrorBody(InvalidJsonMessage)), None, None)
    ensures body.Some? && !HasMessagesArray(body.value)
            ==> t == Trace(Respond(400, ErrorBody(MissingMessagesMessage)), None, None)
    ensures (t.response.Respond? && t.response.status == 400)
            <==> body.None? || !HasMessagesArray(body.value)
    ensures t.response.Respond? ==> t.response.status in {200, 400, 500}
    ensures t.response.Respond? ==> (t.response.status == 200 <==> t.response.body.ChatBody?)
    ensures t.request.Some? ==> t.client.Some?
    ensures t.response.Uncaught? ==> t.client.None? && t.request.None?
  {
    if body.None? then Trace(Respond(400, ErrorBody(InvalidJsonMessage)), None, None)
    else if !HasMessagesArray(body.value) then
      Trace(Respond(400, ErrorBody(MissingMessagesMessage)), None, None)
    else
      var b := body.value;
      match SystemPromptOf(Member(b, "systemPrompt"))
      case Failure(f) => Trace(Uncaught(f), None, None)
      case Success(instructions) =>
        var model := Coalesce(Member(b, "model"), JString(DefaultModel));
        var temperature := TemperatureOf(Member(b, "temperature"));
        match OpenAIClient.GetClient(Member(b, "apiKey"), envKey)
        case Failure(f) => Trace(FaultResponse(f), None, None)
        case Success(client) =>
          match MapMessages(Member(b, "messages").value.elems)
          case Failure(f) => Trace(FaultResponse(f), Some(client), None)
          case Success(input) =>
            var request := VendorRequest(model, instructions, temperature, input);
            match vendor(client, request)
            case Threw(f) => Trace(FaultResponse(f), Some(client), Some(request))
            case Replied(reply) => Trace(Respond(200, ChatReply(reply, model)), Some(client), Some(request))
  }

  /** Once validation, the system prompt and the messages pass, the
      answer depends only on the client: a client failure is its 500, and
      a client makes the vendor request from the body's parts. */
  lemma PostAfterChecks(b: Json, envKey: Option<string>, vendor: Vendor)
    requires HasMessagesArray(b)
    requires SystemPromptOf(Member(b, "systemPrompt")).Success?
    requires MapMessages(Member(b, "messages").value.elems).Success?
    ensures var t := Post(Some(b), envKey, vendor);
            var c := OpenAIClient.GetClient(Member(b, "apiKey"), envKey);
            && t.response.Respond? && t.response.status != 400
            && (t.request.Some? <==> c.Success?)
            && (c.Failure? ==> t.response == FaultResponse(c.error))
            && (c.Success? ==>
                  && t.client == Some(c.value)
                  && t.request == Some(VendorRequest(
                       Coalesce(Member(b, "model"), JString(DefaultModel)),
                       SystemPromptOf(Member(b, "systemPrompt")).value,
                       TemperatureOf(Member(b, "temperature")),
                       MapMessages(Member(b, "messages").value.elems).value)))
  {
  }

  /** The messages check accepts exactly a body whose `messages` is an
      array, the empty array included. */
  lemma MessagesCheck(body: Json)
    ensures HasMessagesArray(body) <==> Member(body, "messages").Some? && Member(body, "messages").value.JArray?
  {
  }

  /** When the vendor is called, the request it gets: the body's model
      unless null or undefined (an empty string is kept), its temperature
      if it is a number, its trimmed system prompt, and one input element
      per message with that message's role and content, in order. */
  lemma RequestShape(b: Json, envKey: Option<string>, vendor: Vendor)
    requires Post(Some(b), envKey, vendor).request.Some?
    ensures var req := Post(Some(b), envKey, vendor).request.value;
            var msgs := Member(b, "messages").value.elems;
            && HasMessagesArray(b)
            && req.model == (if Nullish(Member(b, "model")) then JString(DefaultModel) else Member(b, "model").value)
            && (req.model == JString("") <==> Member(b, "model") == Some(JString("")))
            && req.temperature == TemperatureOf(Member(b, "temperature"))
            && (Nullish(Member(b, "systemPrompt")) ==> req.instructions.None?)
            && (!Nullish(Member(b, "systemPrompt")) ==>
                  Member(b, "systemPrompt").value.JString?
                  && req.instructions == Some(Trim(Member(b, "systemPrompt").value.s)))
            && |req.input| == |msgs|
            && forall i | 0 <= i < |msgs| ::
                 req.input[i].role == Member(msgs[i], "role") && req.input[i].content == Member(msgs[i], "content")
  {
  }

  /** Exactly when the vendor is called: valid messages, a string or absent
      system prompt, a resolvable key and no `null` message; and then with
      a client built from the resolved key. */
  lemma VendorCalledIff(b: Json, envKey: Option<string>, vendor: Vendor)
    ensures var t := Post(Some(b), envKey, vendor);
            t.request.Some? <==>
              && HasMessagesArray(b)
              && SystemPromptOf(Member(b, "systemPrompt")).Success?
              && OpenAIClient.GetClient(Member(b, "apiKey"), envKey).Success?
              && forall i | 0 <= i < |Member(b, "messages").value.elems| ::
                   !Member(b, "messages").value.elems[i].JNull?
    ensures var t := Post(Some(b), envKey, vendor);
            t.request.Some? ==> t.client == Some(OpenAIClient.GetClient(Member(b, "apiKey"), envKey).value)
  {
  }

  /** A reply from the vendor becomes a 200 whose text, usage and model are
      the reply's or their defaults (empty text, null usage, the requested
      model). */
  lemma ReplyShaping(b: Json, envKey: Option<string>, vendor: Vendor)
    requires Post(Some(b), envKey, vendor).request.Some?
    ensures var t := Post(Some(b), envKey, vendor);
            var req := t.request.value;
            match vendor(t.client.value, req)
            case Replied(reply) =>
              t.response == Respond(200, ChatBody(
                if Nullish(reply.outputText) then JString("") else reply.outputText.value,
                if Nullish(reply.usage) then JNull else reply.usage.value,
                if Nullish(reply.model) then req.model else reply.model.value))
            case Threw(f) =>
              t.response == Respond(500, ErrorBody(MessageOr(f, VendorFallbackMessage)))
  {
  }

  /** With no usable key anywhere, a valid request ends in a 500 carrying
      "Missing OpenAI API key.", with no client built and no vendor call. */
  lemma MissingKeyIsServerError(b: Json, envKey: Option<string>, vendor: Vendor)
    requires HasMessagesArray(b)
    requires SystemPromptOf(Member(b, "systemPrompt")).Success?
    requires Nullish(Member(b, "apiKey")) || (Member(b, "apiKey").value.JString? && IsBlank(Member(b, "apiKey").value.s))
    requires envKey.None? || envKey.value == ""
    ensures Post(Some(b), envKey, vendor)
         == Trace(Respond(500, ErrorBody(OpenAIClient.MissingKeyMessage)), None, None)
  {
    if !Nullish(Member(b, "apiKey")) {
      TrimEmptyIffBlank(Member(b, "apiKey").value.s);
    }
  }

  /** A `null` among the messages is a 500 with V8's message for reading
      `role` of `null`; the client was already built, the vendor is not
      called. */
  lemma NullMessageIsServerError(b: Json, envKey: Option<string>, vendor: Vendor, i: nat)
    requires HasMessagesArray(b)
    requires SystemPromptOf(Member(b, "systemPrompt")).Success?
    requires OpenAIClient.GetClient(Member(b, "apiKey"), envKey).Success?
    requires i < |Member(b, "messages").value.elems| && Member(b, "messages").value.elems[i].JNull?
    ensures Post(Some(b), envKey, vendor)
         == Trace(Respond(500, ErrorBody(NullRead("role").message)),
                  Some(OpenAIClient.GetClient(Member(b, "apiKey"), envKey).value), None)
  {
  }

  /** A non-string, non-null `apiKey` makes `?.trim()` throw inside the
      `try`: a 500 with the `TypeError`'s message and no client. */
  lemma NonStringKeyIsServerError(b: Json, envKey: Option<string>, vendor: Vendor)
    requires HasMessagesArray(b)
    requires SystemPromptOf(Member(b, "systemPrompt")).Success?
    requires !Nullish(Member(b, "apiKey")) && !Member(b, "apiKey").value.JString?
    ensures Post(Some(b), envKey, vendor)
         == Trace(Respond(500, ErrorBody(NotAFunction("apiKey?.trim").message)), None, None)
  {
  }

  /** A system prompt that is neither a string nor null/undefined makes
      `?.trim()` throw before the `try`: the exception leaves the handler
      and no `{error}` body is produced. */
  lemma NonStringPromptEscapes(b: Json, envKey: Option<string>, vendor: Vendor)
    requires HasMessagesArray(b)
    requires !Nullish(Member(b, "systemPrompt")) && !Member(b, "systemPrompt").value.JString?
    ensures Post(Some(b), envKey, vendor) == Trace(Uncaught(NotAFunction("body.systemPrompt?.trim")), None, None)
  {
  }

  /** The route reads only the five members it declares: bodies that agree
      on those give the same trace, whatever else they carry (such as the
      `provider` and `baseUrl` the console sends). */
  lemma {:induction false} OnlyDeclaredFieldsMatter(m1: map<string, Json>, m2: map<string, Json>, envKey: Option<string>, vendor: Vendor)
    requires forall k | k in Fields :: (k in m1 <==> k in m2)
    requires forall k | k in Fields && k in m1 :: m1[k] == m2[k]
    ensures Post(Some(JObject(m1)), envKey, vendor) == Post(Some(JObject(m2)), envKey, vendor)
  {
    assert "messages" in Fields && "systemPrompt" in Fields && "model" in Fields;
    assert "temperature" in Fields && "apiKey" in Fields;
  }
}
