/** The console and the chat route together: what the server does with the
    body `sendMessage` posts. The page sends every provider's conversation
    to the same route, and the route reads only `messages`, `systemPrompt`,
    `model`, `temperature` and `apiKey`, so the selected provider and its
    base URL change nothing and the stored key of whichever provider is
    selected is handed to the OpenAI client. */
module SendPath {
  import opened Values
  import opened Text
  import opened OpenAIClient
  import opened ChatRoute
  import opened Console

  /** The key the route resolves from the page's active key. */
  function KeyFromPage(activeKey: string, envKey: Option<string>): Result<string, Fault> {
    ResolveKey(if activeKey == "" then None else Some(activeKey), envKey)
  }

  /** The serialised messages are objects, never `null`, and carry each
      message's role name and content. */
  lemma SentMessagesMap(messages: seq<ChatMessage>)
    ensures var elems := MessagesJson(messages);
            && MapMessages(elems).Success?
            && |MapMessages(elems).value| == |messages|
            && forall i | 0 <= i < |messages| ::
                 MapMessages(elems).value[i] == InputMessage(Some(JString(RoleName(messages[i].role))), Some(messages[i].content))
  {
    var elems := MessagesJson(messages);
    forall i | 0 <= i < |elems| ensures !elems[i].JNull? {
      assert elems[i] == MessageJson(messages[i]);
    }
  }

  /** A sent body passes the messages check, and its messages all map. */
  lemma SentBodyValidates(
    messages: seq<ChatMessage>, systemPrompt: string, model: string, temperature: Number,
    providerId: string, activeKey: string, baseInput: string)
    ensures var b := RequestBody(messages, systemPrompt, model, temperature, providerId, activeKey, baseInput);
            && HasMessagesArray(b)
            && MapMessages(Member(b, "messages").value.elems) == Success(MapMessages(MessagesJson(messages)).value)
  {
    SentMessagesMap(messages);
  }

  /** The route reads a sent body's settings as the page sent them: the
      system prompt trimmed, the model and the temperature unchanged. */
  lemma SentSettings(
    messages: seq<ChatMessage>, systemPrompt: string, model: string, temperature: Number,
    providerId: string, activeKey: string, baseInput: string)
    ensures var b := RequestBody(messages, systemPrompt, model, temperature, providerId, activeKey, baseInput);
            && SystemPromptOf(Member(b, "systemPrompt")) == Success(Some(Trim(systemPrompt)))
            && Coalesce(Member(b, "model"), JString(ChatRoute.DefaultModel)) == JString(model)
            && TemperatureOf(Member(b, "temperature")) == temperature
  {
  }

  /** The client the route builds for a sent body comes from the page's
      active key or, failing that, the environment. */
  lemma SentClient(
    messages: seq<ChatMessage>, systemPrompt: string, model: string, temperature: Number,
    providerId: string, activeKey: string, baseInput: string, envKey: Option<string>)
    ensures var b := RequestBody(messages, systemPrompt, model, temperature, providerId, activeKey, baseInput);
            GetClient(Member(b, "apiKey"), envKey)
            == (match KeyFromPage(activeKey, envKey)
                case Success(k) => Success(Client(k))
                case Failure(f) => Failure(f))
  {
  }

  /** A body the page sends always passes the route's validation and never
      escapes the handler; the vendor is called exactly when a key
      resolves from the page's active key or the environment, and then
      with that key, the page's model and temperature, its trimmed system
      prompt (possibly empty), and its messages one for one, in order. */
  lemma SentBodyIsServed(
    messages: seq<ChatMessage>, systemPrompt: string, model: string, temperature: Number,
    providerId: string, activeKey: string, baseInput: string, envKey: Option<string>, vendor: Vendor)
    ensures var t := Post(Some(RequestBody(messages, systemPrompt, model, temperature, providerId, activeKey, baseInput)), envKey, vendor);
            && t.response.Respond?
            && t.response.status != 400
            && (t.request.Some? <==> KeyFromPage(activeKey, envKey).Success?)
            && (t.request.None? ==> t.response == FaultResponse(ErrorObject(MissingKeyMessage)))
    ensures var t := Post(Some(RequestBody(messages, systemPrompt, model, temperature, providerId, activeKey, baseInput)), envKey, vendor);
            t.request.Some? ==>
              && t.client == Some(Client(KeyFromPage(activeKey, envKey).value))
              && t.request.value.model == JString(model)
              && t.request.value.temperature == temperature
              && t.request.value.instructions == Some(Trim(systemPrompt))
              && |t.request.value.input| == |messages|
              && forall i | 0 <= i < |messages| ::
                   t.request.value.input[i] == InputMessage(Some(JString(RoleName(messages[i].role))), Some(messages[i].content))
  {
    var b := RequestBody(messages, systemPrompt, model, temperature, providerId, activeKey, baseInput);
    SentBodyValidates(messages, systemPrompt, model, temperature, providerId, activeKey, baseInput);
    SentSettings(messages, systemPrompt, model, temperature, providerId, activeKey, baseInput);
    SentClient(messages, systemPrompt, model, temperature, providerId, activeKey, baseInput, envKey);
    SentMessagesMap(messages);
    PostAfterChecks(b, envKey, vendor);
  }

  /** Switching provider or base URL with the same key and conversation
      gives the same server behaviour. */
  lemma ProviderAndBaseIgnored(
    messages: seq<ChatMessage>, systemPrompt: string, model: string, temperature: Number,
    provider1: string, provider2: string, activeKey: string, base1: string, base2: string,
    envKey: Option<string>, vendor: Vendor)
    ensures Post(Some(RequestBody(messages, systemPrompt, model, temperature, provider1, activeKey, base1)), envKey, vendor)
         == Post(Some(RequestBody(messages, systemPrompt, model, temperature, provider2, activeKey, base2)), envKey, vendor)
  {
    var b1 := RequestBody(messages, systemPrompt, model, temperature, provider1, activeKey, base1);
    var b2 := RequestBody(messages, systemPrompt, model, temperature, provider2, activeKey, base2);
    forall k | k in Fields ensures (k in b1.members <==> k in b2.members) && (k in b1.members ==> b1.members[k] == b2.members[k]) {
      assert Member(b1, k) == Member(b2, k);
    }
    OnlyDeclaredFieldsMatter(b1.members, b2.members, envKey, vendor);
  }

  /** The key saved for a provider other than "openai" reaches the OpenAI
      client when that provider is selected: with a non-blank stored key
      the client is built from it, whatever the environment holds. */
  lemma OtherProvidersKeyGoesToOpenAI(
    messages: seq<ChatMessage>, systemPrompt: string, model: string, temperature: Number,
    providerId: string, keys: map<string, string>, baseInput: string, envKey: Option<string>, vendor: Vendor)
    requires providerId in keys && !IsBlank(keys[providerId])
    ensures var t := Post(Some(RequestBody(messages, systemPrompt, model, temperature, providerId,
                                           Registry.Stored(keys, providerId), baseInput)), envKey, vendor);
            t.client == Some(Client(Trim(keys[providerId])))
  {
    TrimEmptyIffBlank(keys[providerId]);
    SentBodyIsServed(messages, systemPrompt, model, temperature, providerId,
                     Registry.Stored(keys, providerId), baseInput, envKey, vendor);
  }
}
