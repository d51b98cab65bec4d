/** The state logic of the console page (`AppPage` in
    src/app/app/page.tsx): the component's state as a class whose fields are
    the `useState` variables, one method per event handler or effect, and
    the pure reducers and derived values those methods are specified by.
    Rendering, browser storage and the network are outside the model: the
    reply to a chat request is passed in. */
module Console {
  import opened Values
  import opened Text
  import opened Arrays
  import opened Registry
  import opened Dataset

  datatype Role = User | Assistant

  /** A chat message. Its content is kept as the JSON value it arrived as:
      the page stores whatever `data.text` the server returned. */
  datatype ChatMessage = ChatMessage(role: Role, content: Json)

  datatype PromptPreset = PromptPreset(id: string, name: string, content: string)

  /** The `key` argument of `updateExample`. */
  datatype ExampleField = UserText | AssistantText

  const DefaultPrompt := "You are UnlockedGPT, a calm, direct assistant.\nYou speak with confident brevity and give actionable steps.\nIf the user asks for a build plan, you respond with a crisp plan and then ask a concrete question."
  const WelcomeText := "Welcome to OZZGPT. Select a provider, add your key, and prompt away."
  const DefaultModel := "gpt-4.1-mini"
  const DefaultTemperature := Number("0.6")
  const RequestFailedMessage := "Request failed."
  const SendFallbackMessage := "Something went wrong."
  const HealthFallbackMessage := "Health check failed."

  /** The example the dataset starts with. */
  const InitialExample := TrainingExample("example-1", "Explain the project architecture in 3 bullets.",
    "The UI is a Next.js client page.\nThe server routes handle provider requests.\nPrompt settings live in local storage.")

  /** A snapshot of every modelled state variable of the page. */
  datatype PageState = PageState(
    messages: seq<ChatMessage>,
    input: string,
    systemPrompt: string,
    model: string,
    temperature: Number,
    loading: bool,
    error: Option<string>,
    hasServerKey: Option<bool>,
    healthError: Option<string>,
    providerId: string,
    providerKeys: map<string, string>,
    providerBases: map<string, string>,
    keyInput: string,
    baseInput: string,
    showKeyModal: bool,
    presetName: string,
    presets: seq<PromptPreset>,
    trainingExamples: seq<TrainingExample>)

  /** What `fetch("/api/chat")` and `response.json()` gave: the status's
      `ok` flag and the parsed body, or a thrown fault. */
  datatype ChatReply = Answered(ok: bool, data: Json) | FetchFailed(fault: Fault)

  /** What `fetch("/api/health")` and `res.json()` gave: the parsed body,
      or a thrown fault. */
  datatype HealthReply = HealthAnswered(data: Json) | HealthFailed(fault: Fault)

  /** `canSend`: something to send besides white space, and no request in
      flight. */
  function CanSend(input: string, loading: bool): bool {
    Trim(input) != "" && !loading
  }

  /** A message can go out exactly when the input holds something other
      than white space and no request is in flight. */
  lemma CanSendIffNotBlank(input: string, loading: bool)
    ensures CanSend(input, loading) <==> !IsBlank(input) && !loading
  {
    TrimEmptyIffBlank(input);
  }

  function RoleName(r: Role): string {
    match r
    case User => "user"
    case Assistant => "assistant"
  }

  /** A message as it is serialised into the request. */
  function MessageJson(m: ChatMessage): Json {
    JObject(map["role" := JString(RoleName(m.role)), "content" := m.content])
  }

  function MessagesJson(ms: seq<ChatMessage>): (r: seq<Json>)
    ensures |r| == |ms|
    ensures forall i | 0 <= i < |ms| :: r[i] == MessageJson(ms[i])
  {
    if ms == [] then [] else [MessageJson(ms[0])] + MessagesJson(ms[1..])
  }

  /** The body `sendMessage` posts: the conversation and the settings, with
      `apiKey` and `baseUrl` left out (`|| undefined`) when empty. */
  function RequestBody(
    messages: seq<ChatMessage>, systemPrompt: string, model: string, temperature: Number,
    providerId: string, activeKey: string, baseInput: string): (body: Json)
    ensures body.JObject?
    ensures body.members.Keys <= {"messages", "systemPrompt", "model", "temperature", "provider", "apiKey", "baseUrl"}
    ensures "messages" in body.members && body.members["messages"] == JArray(MessagesJson(messages))
    ensures "systemPrompt" in body.members && body.members["systemPrompt"] == JString(systemPrompt)
    ensures "model" in body.members && body.members["model"] == JString(model)
    ensures "temperature" in body.members && body.members["temperature"] == JNumber(temperature)
    ensures "provider" in body.members && body.members["provider"] == JString(providerId)
    ensures "apiKey" in body.members <==> activeKey != ""
    ensures "apiKey" in body.members ==> body.members["apiKey"] == JString(activeKey)
    ensures "baseUrl" in body.members <==> baseInput != ""
    ensures "baseUrl" in body.members ==> body.members["baseUrl"] == JString(baseInput)
  {
    var required := map[
      "messages" := JArray(MessagesJson(messages)),
      "systemPrompt" := JString(systemPrompt),
      "model" := JString(model),
      "temperature" := JNumber(temperature),
      "provider" := JString(providerId)];
    var withKey := if activeKey != "" then required["apiKey" := JString(activeKey)] else required;
    JObject(if baseInput != "" then withKey["baseUrl" := JString(baseInput)] else withKey)
  }

  /** The message shown for a non-OK reply. `new Error(data?.error ??
      "Request failed.")` converts the error value with `String`; when that
      conversion throws, the `TypeError` is caught by the same `catch` and
      its message is shown instead. */
  function FailureMessage(data: Json): (m: string)
    ensures Nullish(Member(data, "error")) ==> m == RequestFailedMessage
    ensures Member(data, "error").Some? && Member(data, "error").value.JString? ==> m == Member(data, "error").value.s
    ensures Member(data, "error").Some? && Member(data, "error").value.JObject? ==>
              m == if "toString" in Member(data, "error").value.members then CannotConvertMessage else "[object Object]"
    ensures !Nullish(Member(data, "error")) && ToJsString(Member(data, "error").value).Failure? ==> m == CannotConvertMessage
    ensures !Nullish(Member(data, "error")) && ToJsString(Member(data, "error").value).Success? ==>
              m == ToJsString(Member(data, "error").value).value
  {
    var e := Member(data, "error");
    if Nullish(e) then RequestFailedMessage
    else
      match ToJsString(e.value)
      case Success(text) => text
      case Failure(f) => MessageOr(f, SendFallbackMessage)
  }

  /** What a reply makes of the conversation: the assistant message to
      append, or the error text to show. An OK reply appends `data.text`
      (or ""); a `null` OK body fails on reading `text`; anything else sets
      the error. */
  function ReplyOutcome(reply: ChatReply): (r: Result<ChatMessage, string>)
    ensures r.Success? <==> reply.Answered? && reply.ok && !reply.data.JNull?
    ensures r.Success? ==> (r.value.role == Assistant
                            && r.value.content == Coalesce(Member(reply.data, "text"), JString("")))
    ensures reply.Answered? && !reply.ok ==> r == Failure(FailureMessage(reply.data))
    ensures reply.FetchFailed? ==> r == Failure(MessageOr(reply.fault, SendFallbackMessage))
    ensures reply.Answered? && reply.ok && reply.data.JNull? ==> r == Failure(NullRead("text").message)
  {
    match reply
    case FetchFailed(f) => Failure(MessageOr(f, SendFallbackMessage))
    case Answered(ok, data) =>
      if !ok then Failure(FailureMessage(data))
      else if data.JNull? then Failure(NullRead("text").message)
      else Success(ChatMessage(Assistant, Coalesce(Member(data, "text"), JString(""))))
  }

  /** `{...prev, [k]: v}` */
  function SaveEntry(m: map<string, string>, k: string, v: string): (r: map<string, string>)
    ensures r.Keys == m.Keys + {k} && r[k] == v
    ensures forall k' | k' in m && k' != k :: r[k'] == m[k']
  {
    m[k := v]
  }

  /** `const next = {...prev}; delete next[k]` */
  function ClearEntry(m: map<string, string>, k: string): (r: map<string, string>)
    ensures r.Keys == m.Keys - {k}
    ensures forall k' | k' in r :: r[k'] == m[k']
  {
    m - {k}
  }

  /** `{...example, [field]: value}` */
  function SetField(e: TrainingExample, field: ExampleField, value: string): TrainingExample {
    match field
    case UserText => e.(user := value)
    case AssistantText => e.(assistant := value)
  }

  /** `prev.map(e => e.id === id ? {...e, [field]: value} : e)` */
  function UpdateById(es: seq<TrainingExample>, id: string, field: ExampleField, value: string)
    : (r: seq<TrainingExample>)
    ensures |r| == |es|
    ensures forall i | 0 <= i < |es| :: r[i].id == es[i].id
    ensures forall i | 0 <= i < |es| && es[i].id != id :: r[i] == es[i]
    ensures forall i | 0 <= i < |es| && es[i].id == id ::
              && (field == UserText ==> r[i].user == value && r[i].assistant == es[i].assistant)
              && (field == AssistantText ==> r[i].assistant == value && r[i].user == es[i].user)
  {
    if es == [] then []
    else
      var head := if es[0].id == id then SetField(es[0], field, value) else es[0];
      [head] + UpdateById(es[1..], id, field, value)
  }

  function DigitChar(d: nat): char
    requires d < 10
  {
    ('0' as int + d) as char
  }

  /** The decimal rendering of a timestamp, as in a template literal. */
  function Decimal(n: nat): string {
    if n < 10 then [DigitChar(n)] else Decimal(n / 10) + [DigitChar(n % 10)]
  }

  /** The page component. `now` parameters stand for `Date.now()`. */
  class AppPage {
    var messages: seq<ChatMessage>
    var input: string
    var systemPrompt: string
    var model: string
    var temperature: Number
    var loading: bool
    var error: Option<string>
    var hasServerKey: Option<bool>
    var healthError: Option<string>
    var providerId: string
    var providerKeys: map<string, string>
    var providerBases: map<string, string>
    var keyInput: string
    var baseInput: string
    var showKeyModal: bool
    var presetName: string
    var presets: seq<PromptPreset>
    var trainingExamples: seq<TrainingExample>

    function State(): PageState
      reads this
    {
      PageState(messages, input, systemPrompt, model, temperature, loading, error, hasServerKey,
                healthError, providerId, providerKeys, providerBases, keyInput, baseInput, showKeyModal,
                presetName, presets, trainingExamples)
    }

    /** The initial `useState` values. */
    constructor ()
      ensures State() == PageState(
        [ChatMessage(Assistant, JString(WelcomeText))], "", DefaultPrompt, DefaultModel,
        DefaultTemperature, false, None, None, None, "openai", map[], map[], "", "", false, "", [],
        [InitialExample])
    {
      messages := [ChatMessage(Assistant, JString(WelcomeText))];
      input := "";
      systemPrompt := DefaultPrompt;
      model := DefaultModel;
      temperature := DefaultTemperature;
      loading := false;
      error := None;
      hasServerKey := None;
      healthError := None;
      providerId := "openai";
      providerKeys := map[];
      providerBases := map[];
      keyInput := "";
      baseInput := "";
      showKeyModal := false;
      presetName := "";
      presets := [];
      trainingExamples := [InitialExample];
    }

    /** Typing in the prompt box. */
    method EditInput(text: string)
      modifies this
      ensures State() == old(State()).(input := text)
    {
      input := text;
    }

    /** The model box. */
    method EditModel(text: string)
      modifies this
      ensures State() == old(State()).(model := text)
    {
      model := text;
    }

    /** The system prompt editor. */
    method EditSystemPrompt(text: string)
      modifies this
      ensures State() == old(State()).(systemPrompt := text)
    {
      systemPrompt := text;
    }

    /** The temperature slider, whose value arrives as a number. */
    method EditTemperature(value: Number)
      modifies this
      ensures State() == old(State()).(temperature := value)
    {
      temperature := value;
    }

    /** The dialog's "Skip for now" button: close it until the dialog
        effect runs again. */
    method DismissKeyModal()
      modifies this
      ensures State() == old(State()).(showKeyModal := false)
    {
      showKeyModal := false;
    }

    /** Choosing a provider in the selector. */
    method SelectProvider(id: string)
      modifies this
      ensures State() == old(State()).(providerId := id)
    {
      providerId := id;
    }

    method EditKeyInput(text: string)
      modifies this
      ensures State() == old(State()).(keyInput := text)
    {
      keyInput := text;
    }

    method EditBaseInput(text: string)
      modifies this
      ensures State() == old(State()).(baseInput := text)
    {
      baseInput := text;
    }

    method EditPresetName(text: string)
      modifies this
      ensures State() == old(State()).(presetName := text)
    {
      presetName := text;
    }

    /** The end of the health probe: the server's `hasServerKey` flag,
        read with `Boolean(data?.hasServerKey)`, and no health error; or,
        when the request or its parsing threw, no server key and the
        fault's message. The request itself is outside the model. */
    method RecordHealth(reply: HealthReply)
      modifies this
      ensures reply.HealthAnswered? ==>
                State() == old(State()).(hasServerKey := Some(Truthy(Member(reply.data, "hasServerKey"))),
                                         healthError := None)
      ensures reply.HealthFailed? ==>
                State() == old(State()).(hasServerKey := Some(false),
                                         healthError := Some(MessageOr(reply.fault, HealthFallbackMessage)))
    {
      match reply
      case HealthAnswered(data) =>
        hasServerKey := Some(Truthy(Member(data, "hasServerKey")));
        healthError := None;
      case HealthFailed(f) =>
        hasServerKey := Some(false);
        healthError := Some(MessageOr(f, HealthFallbackMessage));
    }

    /** The effect on provider, keys and bases: reset the key input to the
        stored key and the base-URL input to the stored or default base. */
    method SyncProviderInputs()
      modifies this
      ensures State() == old(State()).(keyInput := Stored(providerKeys, providerId),
                                       baseInput := BaseInputFor(providerBases, providerId))
    {
      keyInput := Stored(providerKeys, providerId);
      baseInput := BaseInputFor(providerBases, providerId);
    }

    /** The effect that shows or hides the key dialog. */
    method SyncKeyModal()
      modifies this
      ensures State() == old(State()).(showKeyModal := ShowKeyModal(providerId, providerKeys, hasServerKey))
    {
      showKeyModal := ShowKeyModal(providerId, providerKeys, hasServerKey);
    }

    /** The synchronous part of `sendMessage`, up to the `fetch`: when
        sending is allowed, clear the error, append the trimmed user
        message, clear the input, start loading, and return the request
        body, whose messages are the earlier ones followed by the new one.
        Otherwise nothing happens and nothing is sent. */
    method BeginSend() returns (body: Option<Json>)
      modifies this
      ensures body.None? <==> !CanSend(old(input), old(loading))
      ensures body.None? ==> State() == old(State())
      ensures CanSend(old(input), old(loading)) ==>
                body == Some(RequestBody(old(messages) + [ChatMessage(User, JString(Trim(old(input))))],
                                         old(systemPrompt), old(model), old(temperature), old(providerId),
                                         Stored(old(providerKeys), old(providerId)), old(baseInput)))
      ensures CanSend(old(input), old(loading)) ==>
                State() == old(State()).(error := None,
                                         messages := old(messages) + [ChatMessage(User, JString(Trim(old(input))))],
                                         input := "", loading := true)
    {
      if CanSend(input, loading) {
        var sent := messages + [ChatMessage(User, JString(Trim(input)))];
        body := Some(RequestBody(sent, systemPrompt, model, temperature, providerId,
                                 Stored(providerKeys, providerId), baseInput));
        error := None;
        messages := sent;
        input := "";
        loading := true;
      } else {
        body := None;
      }
    }

    /** The rest of `sendMessage`, once the reply is in: append the
        assistant's message or set the error, and stop loading either way. */
    method CompleteSend(reply: ChatReply)
      modifies this
      ensures State() == match ReplyOutcome(reply)
                         case Success(m) => old(State()).(messages := old(messages) + [m], loading := false)
                         case Failure(e) => old(State()).(error := Some(e), loading := false)
    {
      var outcome := ReplyOutcome(reply);
      if outcome.Success? {
        messages := messages + [outcome.value];
      } else {
        error := Some(outcome.error);
      }
      loading := false;
    }

    /** `savePreset`: a blank name does nothing; otherwise a preset with the
        trimmed name and the current system prompt goes first, and the name
        box is cleared. */
    method SavePreset(now: nat)
      modifies this
      ensures IsBlank(old(presetName)) ==> State() == old(State())
      ensures !IsBlank(old(presetName)) ==>
                State() == old(State()).(
                  presets := [PromptPreset("preset-" + Decimal(now), Trim(old(presetName)), systemPrompt)] + old(presets),
                  presetName := "")
    {
      TrimEmptyIffBlank(presetName);
      if Trim(presetName) == "" {
        return;
      }
      var next := PromptPreset("preset-" + Decimal(now), Trim(presetName), systemPrompt);
      presets := [next] + presets;
      presetName := "";
    }

    /** `applyPreset`: the preset's text becomes the system prompt. */
    method ApplyPreset(preset: PromptPreset)
      modifies this
      ensures State() == old(State()).(systemPrompt := preset.content)
    {
      systemPrompt := preset.content;
    }

    /** `deletePreset`: drop every preset with that id. */
    method DeletePreset(id: string)
      modifies this
      ensures State() == old(State()).(presets := Filter(old(presets), (p: PromptPreset) => p.id != id))
    {
      presets := Filter(presets, (p: PromptPreset) => p.id != id);
    }

    /** `addExample`: append an empty example. */
    method AddExample(now: nat)
      modifies this
      ensures State() == old(State()).(
                trainingExamples := old(trainingExamples) + [TrainingExample("example-" + Decimal(now), "", "")])
    {
      trainingExamples := trainingExamples + [TrainingExample("example-" + Decimal(now), "", "")];
    }

    /** `updateExample` */
    method UpdateExample(id: string, field: ExampleField, value: string)
      modifies this
      ensures State() == old(State()).(trainingExamples := UpdateById(old(trainingExamples), id, field, value))
    {
      trainingExamples := UpdateById(trainingExamples, id, field, value);
    }

    /** `removeExample`: drop every example with that id. */
    method RemoveExample(id: string)
      modifies this
      ensures State() == old(State()).(
                trainingExamples := Filter(old(trainingExamples), (e: TrainingExample) => e.id != id))
    {
      trainingExamples := Filter(trainingExamples, (e: TrainingExample) => e.id != id);
    }

    /** `handleSaveKey`: a blank key input does nothing; otherwise the
        trimmed input becomes the current provider's key and the dialog
        closes (`SavedKeyHidesModal`: the dialog effect agrees). */
    method HandleSaveKey()
      modifies this
      ensures IsBlank(old(keyInput)) ==> State() == old(State())
      ensures !IsBlank(old(keyInput)) ==>
                State() == old(State()).(
                  providerKeys := SaveEntry(old(providerKeys), providerId, Trim(old(keyInput))),
                  showKeyModal := false)
    {
      TrimEmptyIffBlank(keyInput);
      if Trim(keyInput) == "" {
        return;
      }
      providerKeys := SaveEntry(providerKeys, providerId, Trim(keyInput));
      showKeyModal := false;
    }

    /** `handleSaveBase`: a blank base input does nothing; otherwise the
        trimmed input becomes the current provider's base URL. */
    method HandleSaveBase()
      modifies this
      ensures IsBlank(old(baseInput)) ==> State() == old(State())
      ensures !IsBlank(old(baseInput)) ==>
                State() == old(State()).(providerBases := SaveEntry(old(providerBases), providerId, Trim(old(baseInput))))
    {
      TrimEmptyIffBlank(baseInput);
      if Trim(baseInput) == "" {
        return;
      }
      providerBases := SaveEntry(providerBases, providerId, Trim(baseInput));
    }

    /** `handleClearKey`: forget the current provider's key only. */
    method HandleClearKey()
      modifies this
      ensures State() == old(State()).(providerKeys := ClearEntry(old(providerKeys), providerId))
    {
      providerKeys := ClearEntry(providerKeys, providerId);
    }
  }

  /** Deleting by id removes exactly the items with that id and keeps the
      others in their order: the result for a concatenation is the two
      results concatenated, and an id nobody has changes nothing. */
  lemma DeleteById(presets: seq<PromptPreset>, more: seq<PromptPreset>, id: string)
    ensures var keep := (p: PromptPreset) => p.id != id;
            && (forall p | p in Filter(presets, keep) :: p in presets && p.id != id)
            && (forall p | p in presets && p.id != id :: p in Filter(presets, keep))
            && Filter(presets + more, keep) == Filter(presets, keep) + Filter(more, keep)
            && ((forall p | p in presets :: p.id != id) ==> Filter(presets, keep) == presets)
  {
    var keep := (p: PromptPreset) => p.id != id;
    FilterAppend(presets, more, keep);
    FilterKeepsAll(presets, keep);
  }

  /** Updating an example changes one field of the matching examples and
      leaves the dataset's other lines alone: an example with another id
      writes the same line as before. */
  lemma UpdateKeepsOtherLines(es: seq<TrainingExample>, id: string, field: ExampleField, value: string, i: nat)
    requires i < |es| && es[i].id != id
    ensures LineOf(UpdateById(es, id, field, value)[i]) == LineOf(es[i])
    ensures Complete(UpdateById(es, id, field, value)[i]) == Complete(es[i])
  {
  }

  /** Clearing a key reopens the dialog for a key-needing provider other
      than "openai", and for "openai" unless the server has a key. */
  lemma ClearedKeyShowsModal(keys: map<string, string>, id: string, hasServerKey: Option<bool>)
    requires id != "ollama"
    ensures ShowKeyModal(id, ClearEntry(keys, id), hasServerKey) <==> id != "openai" || hasServerKey != Some(true)
  {
    KeyModalCases(id, ClearEntry(keys, id), hasServerKey);
  }
  /** After a key is saved, the dialog effect keeps the dialog closed,
      whatever the provider and the server report: closing it in
      `handleSaveKey` agrees with what the effect computes next. */
  lemma SavedKeyHidesModal(keys: map<string, string>, id: string, keyInput: string, hasServerKey: Option<bool>)
    requires !IsBlank(keyInput)
    ensures !ShowKeyModal(id, SaveEntry(keys, id, Trim(keyInput)), hasServerKey)
  {
    TrimEmptyIffBlank(keyInput);
    StoredKeyHidesModal(id, SaveEntry(keys, id, Trim(keyInput)), hasServerKey);
  }

  /** Removing the example just added, whose id no other example has,
      gives back the examples as they were. */
  lemma RemoveUndoesAdd(es: seq<TrainingExample>, now: nat)
    requires forall e | e in es :: e.id != "example-" + Decimal(now)
    ensures var added := TrainingExample("example-" + Decimal(now), "", "");
            Filter(es + [added], (e: TrainingExample) => e.id != added.id) == es
  {
    var added := TrainingExample("example-" + Decimal(now), "", "");
    var keep := (e: TrainingExample) => e.id != added.id;
    FilterAppend(es, [added], keep);
    FilterKeepsAll(es, keep);
    assert Filter([added], keep) == Filter([added][1..], keep);
    assert [added][1..] == [];
  }

  /** Deleting the preset just saved, whose id no other preset has, gives
      back the presets as they were. */
  lemma DeleteUndoesSave(presets: seq<PromptPreset>, saved: PromptPreset)
    requires forall p | p in presets :: p.id != saved.id
    ensures Filter([saved] + presets, (p: PromptPreset) => p.id != saved.id) == presets
  {
    var keep := (p: PromptPreset) => p.id != saved.id;
    FilterAppend([saved], presets, keep);
    FilterKeepsAll(presets, keep);
    assert Filter([saved], keep) == Filter([saved][1..], keep);
    assert [saved][1..] == [];
  }

  /** A saved key is what the page then reads as the provider's key, and
      clearing it afterwards is the same as clearing it without saving:
      other providers' keys are untouched either way. */
  lemma SaveThenClearKey(keys: map<string, string>, id: string, key: string)
    requires key != ""
    ensures Registry.Stored(SaveEntry(keys, id, key), id) == key
    ensures ClearEntry(SaveEntry(keys, id, key), id) == ClearEntry(keys, id)
    ensures Registry.Stored(ClearEntry(keys, id), id) == ""
  {
  }

  lemma {:induction false} DecimalNonEmpty(n: nat)
    ensures |Decimal(n)| >= 1
    ensures Decimal(n)[|Decimal(n)| - 1] == DigitChar(n % 10)
  {
  }

  /** Different timestamps give different ids. */
  lemma {:induction false} DecimalInjective(a: nat, b: nat)
    requires Decimal(a) == Decimal(b)
    ensures a == b
  {
    DecimalNonEmpty(a);
    DecimalNonEmpty(b);
    assert a % 10 == b % 10 by {
      assert DigitChar(a % 10) == DigitChar(b % 10);
    }
    if a < 10 && b < 10 {
    } else if a < 10 {
      assert false;
    } else if b < 10 {
      assert false;
    } else {
      assert Decimal(a / 10) == Decimal(a)[..|Decimal(a)| - 1];
      assert Decimal(b / 10) == Decimal(b)[..|Decimal(b)| - 1];
      DecimalInjective(a / 10, b / 10);
    }
  }
}
