/** The console's provider catalogue (src/app/app/page.tsx) and the values
    the page derives from it and from the stored per-provider keys and base
    URLs: `currentProvider`, `needsKey`, `activeKey`, whether the key dialog
    shows, and what the key and base-URL inputs are reset to. */
module Registry {
  import opened Values

  datatype ProviderType = OpenAICompat | Anthropic | Gemini | Cohere | Ollama

  datatype Provider = Provider(
    id: string,
    name: string,
    kind: ProviderType,
    defaultBaseUrl: Option<string>,
    needsKey: bool)

  const Providers: seq<Provider> := [
    Provider("openai", "OpenAI", OpenAICompat, None, true),
    Provider("openrouter", "OpenRouter (gateway)", OpenAICompat, Some("https://openrouter.ai/api/v1"), true),
    Provider("groq", "Groq", OpenAICompat, Some("https://api.groq.com/openai/v1"), true),
    Provider("together", "Together", OpenAICompat, Some("https://api.together.xyz/v1"), true),
    Provider("fireworks", "Fireworks", OpenAICompat, Some("https://api.fireworks.ai/inference/v1"), true),
    Provider("deepseek", "DeepSeek", OpenAICompat, Some("https://api.deepseek.com/v1"), true),
    Provider("mistral", "Mistral", OpenAICompat, Some("https://api.mistral.ai/v1"), true),
    Provider("anthropic", "Anthropic (Claude)", Anthropic, None, true),
    Provider("gemini", "Google Gemini", Gemini, None, true),
    Provider("cohere", "Cohere", Cohere, None, true),
    Provider("ollama", "Ollama (local)", Ollama, Some("http://localhost:11434"), false),
    Provider("custom", "Custom (OpenAI-compatible)", OpenAICompat, None, true)
  ]

  /** `ps.find(p => p.id === id)`: the first entry with that id. */
  function Find(ps: seq<Provider>, id: string): (r: Option<Provider>)
    ensures r.Some? ==> r.value in ps && r.value.id == id
    ensures r.None? <==> forall p | p in ps :: p.id != id
  {
    if ps == [] then None
    else if ps[0].id == id then Some(ps[0])
    else Find(ps[1..], id)
  }

  /** `currentProvider` */
  function CurrentProvider(id: string): Option<Provider> {
    Find(Providers, id)
  }

  /** `currentProvider?.needsKey ?? true` */
  function NeedsKey(id: string): bool {
    match CurrentProvider(id)
    case Some(p) => p.needsKey
    case None => true
  }

  /** `m[k] || ""`: the stored string, with a missing or empty entry both
      reading as "". Used for `activeKey` and for the key input. */
  function Stored(m: map<string, string>, k: string): (r: string)
    ensures r != "" <==> k in m && m[k] != ""
    ensures r != "" ==> r == m[k]
  {
    if k in m then m[k] else ""
  }

  /** The effect that decides whether the key dialog shows. A provider other
      than "openai" shows it when it needs a key and none is stored;
      "openai" shows it when no key is stored and the server has not
      reported a key of its own (`hasServerKey` is null until the health
      probe answers). */
  function ShowKeyModal(id: string, keys: map<string, string>, hasServerKey: Option<bool>): bool {
    var activeKey := Stored(keys, id);
    if NeedsKey(id) && activeKey == "" && id != "openai" then true
    else if id == "openai" && activeKey == "" && hasServerKey != Some(true) then true
    else false
  }

  /** `providerBases[id] || currentProvider?.defaultBaseUrl || ""` */
  function BaseInputFor(bases: map<string, string>, id: string): (r: string)
    ensures id in bases && bases[id] != "" ==> r == bases[id]
    ensures Stored(bases, id) == "" && CurrentProvider(id).Some?
            ==> r == (match CurrentProvider(id).value.defaultBaseUrl case Some(u) => u case None => "")
    ensures Stored(bases, id) == "" && CurrentProvider(id).None? ==> r == ""
  {
    var stored := Stored(bases, id);
    if stored != "" then stored
    else match CurrentProvider(id)
      case Some(Provider(_, _, _, Some(u), _)) => u
      case _ => ""
  }

  /** No two registry entries share an id, so `find` is a plain lookup. */
  lemma IdsDistinct()
    ensures forall i, j | 0 <= i < j < |Providers| :: Providers[i].id != Providers[j].id
  {
    forall i, j | 0 <= i < j < |Providers| ensures Providers[i].id != Providers[j].id {
      var a, b := Providers[i].id, Providers[j].id;
      assert |a| != |b| || a[0] != b[0] || a[1] != b[1] || a[2] != b[2];
    }
  }

  /** Only "ollama" is registered as keyless. */
  lemma OnlyOllamaIsKeyless()
    ensures forall p | p in Providers :: !p.needsKey <==> p.id == "ollama"
  {
    forall k | 0 <= k < |Providers| ensures !Providers[k].needsKey <==> Providers[k].id == "ollama" {
      var id := Providers[k].id;
      if k != 10 {
        assert Providers[k].needsKey;
        assert |id| != 6 || id[1] != 'l';
      }
    }
  }

  /** A key is needed for every id except "ollama": registered entries say
      so themselves and unknown ids default to needing one. */
  lemma {:induction false} NeedsKeyUnlessOllama(id: string)
    ensures !NeedsKey(id) <==> id == "ollama"
  {
    OnlyOllamaIsKeyless();
    var r := CurrentProvider(id);
    if id == "ollama" {
      assert Providers[10].id == "ollama";
      assert r.Some?;
    }
  }

  /** A stored non-empty key always hides the dialog, whatever the
      provider and the server report. */
  lemma StoredKeyHidesModal(id: string, keys: map<string, string>, hasServerKey: Option<bool>)
    requires id in keys && keys[id] != ""
    ensures !ShowKeyModal(id, keys, hasServerKey)
  {
  }

  /** The dialog shows, per provider: never for "ollama"; for "openai" when
      no key is stored and the server has not confirmed a key; for every
      other id exactly when no key is stored. */
  lemma {:induction false} KeyModalCases(id: string, keys: map<string, string>, hasServerKey: Option<bool>)
    ensures id == "ollama" ==> !ShowKeyModal(id, keys, hasServerKey)
    ensures id == "openai" ==>
              (ShowKeyModal(id, keys, hasServerKey) <==> Stored(keys, id) == "" && hasServerKey != Some(true))
    ensures id != "ollama" && id != "openai" ==>
              (ShowKeyModal(id, keys, hasServerKey) <==> Stored(keys, id) == "")
  {
    NeedsKeyUnlessOllama(id);
  }

  /** With distinct ids, `find` by an entry's id returns that entry. */
  lemma {:induction false} FindDistinct(ps: seq<Provider>, k: nat)
    requires forall i, j | 0 <= i < j < |ps| :: ps[i].id != ps[j].id
    requires k < |ps|
    ensures Find(ps, ps[k].id) == Some(ps[k])
  {
    if k > 0 {
      assert ps[0].id != ps[k].id;
      assert ps[1..][k - 1] == ps[k];
      FindDistinct(ps[1..], k - 1);
    }
  }

  /** Looking up a registered id yields its registry entry. */
  lemma LookupRegistered(k: nat)
    requires k < |Providers|
    ensures CurrentProvider(Providers[k].id) == Some(Providers[k])
  {
    IdsDistinct();
    FindDistinct(Providers, k);
  }

  /** Without a stored base, a registered provider's input falls back to
      its registered default URL, or "" when it has none (as for "openai",
      "anthropic", "gemini", "cohere" and "custom"). */
  lemma DefaultBase(bases: map<string, string>, k: nat)
    requires k < |Providers|
    requires Stored(bases, Providers[k].id) == ""
    ensures BaseInputFor(bases, Providers[k].id)
         == match Providers[k].defaultBaseUrl case Some(u) => u case None => ""
  {
    LookupRegistered(k);
  }
}
