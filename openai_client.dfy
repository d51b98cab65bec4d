/** `getOpenAIClient` of src/lib/openai.ts: which API key the server-side
    OpenAI client is built with. Building the client itself is outside the
    model; a `Client` records only the key it was given. */
module OpenAIClient {
  import opened Values
  import opened Text

  const MissingKeyMessage := "Missing OpenAI API key."

  datatype Client = Client(apiKey: string)

  /** `apiKey?.trim() || envKey`, then the throw on a falsy key. Only the
      per-request key is trimmed; the process-wide `OPENAI_API_KEY` is
      taken as it is. */
  function ResolveKey(apiKey: Option<string>, envKey: Option<string>): (r: Result<string, Fault>)
    ensures r.Success? ==> r.value != ""
    ensures r.Failure? ==> r.error == ErrorObject(MissingKeyMessage)
    ensures apiKey.Some? && Trim(apiKey.value) != "" ==> r == Success(Trim(apiKey.value))
    ensures (apiKey.None? || Trim(apiKey.value) == "") && envKey.Some? && envKey.value != ""
            ==> r == Success(envKey.value)
    ensures r.Failure? <==> (apiKey.None? || Trim(apiKey.value) == "") && (envKey.None? || envKey.value == "")
  {
    var trimmed := if apiKey.Some? then Trim(apiKey.value) else "";
    var key := if trimmed != "" then Some(trimmed) else envKey;
    if key.None? || key.value == "" then Failure(ErrorObject(MissingKeyMessage))
    else Success(key.value)
  }

  /** `getOpenAIClient(apiKey)` called with whatever JSON value the request
      carried. `undefined` and `null` short-circuit `?.trim()`; a string is
      trimmed; any other value has no `trim` method, so the call throws a
      `TypeError` before any key is looked at. */
  function GetClient(apiKey: Option<Json>, envKey: Option<string>): (r: Result<Client, Fault>)
    ensures !Nullish(apiKey) && !apiKey.value.JString? ==> r == Failure(NotAFunction("apiKey?.trim"))
    ensures Nullish(apiKey) ==> r == (match ResolveKey(None, envKey)
                                       case Success(k) => Success(Client(k))
                                       case Failure(f) => Failure(f))
    ensures apiKey.Some? && apiKey.value.JString? ==>
              r == (match ResolveKey(Some(apiKey.value.s), envKey)
                    case Success(k) => Success(Client(k))
                    case Failure(f) => Failure(f))
  {
    var arg :=
      if Nullish(apiKey) then Success(None)
      else if apiKey.value.JString? then Success(Some(apiKey.value.s))
      else Failure(NotAFunction("apiKey?.trim"));
    match arg
    case Failure(f) => Failure(f)
    case Success(a) =>
      match ResolveKey(a, envKey)
      case Success(k) => Success(Client(k))
      case Failure(f) => Failure(f)
  }

  /** A usable per-request key wins whatever the environment holds. */
  lemma RequestKeyWins(apiKey: string, envKey1: Option<string>, envKey2: Option<string>)
    requires !IsBlank(apiKey)
    ensures ResolveKey(Some(apiKey), envKey1) == ResolveKey(Some(apiKey), envKey2)
    ensures ResolveKey(Some(apiKey), envKey1) == Success(Trim(apiKey))
  {
    TrimEmptyIffBlank(apiKey);
  }

  /** A whitespace-only per-request key counts as no key at all. */
  lemma BlankKeyIsAbsent(apiKey: string, envKey: Option<string>)
    requires IsBlank(apiKey)
    ensures ResolveKey(Some(apiKey), envKey) == ResolveKey(None, envKey)
  {
    TrimEmptyIffBlank(apiKey);
  }

  /** The resolved key is the trimmed request key or the environment key
      verbatim; nothing else can come out. */
  lemma ResolvedKeyOrigin(apiKey: Option<string>, envKey: Option<string>)
    requires ResolveKey(apiKey, envKey).Success?
    ensures var k := ResolveKey(apiKey, envKey).value;
            (apiKey.Some? && k == Trim(apiKey.value)) || envKey == Some(k)
  {
  }

  /** Without a usable request key, any non-empty environment key is used
      exactly as it is set: its padding is not trimmed away. */
  lemma EnvKeyTakenVerbatim(apiKey: Option<string>, envKey: string)
    requires apiKey.None? || IsBlank(apiKey.value)
    requires envKey != ""
    ensures ResolveKey(apiKey, Some(envKey)) == Success(envKey)
  {
    if apiKey.Some? {
      TrimEmptyIffBlank(apiKey.value);
    }
  }
}
