# OZZGPT console and chat route, modelled in Dafny

OZZGPT is a Next.js application. Its console page (`AppPage`) keeps a
conversation, a system prompt, per-provider API keys and base URLs, prompt
presets and fine-tuning examples. It posts the conversation to a server
route, `POST /api/chat`. That route validates the body, picks the API key
and builds an OpenAI client, and answers with the model's text or an error.

This project models three pieces:

- **The route** (`ChatRoute.Post`): a pure function from the parsed body,
  `process.env.OPENAI_API_KEY` and the vendor call (a function parameter)
  to a `Trace`. A trace records the response and the client and request
  handed to the vendor, if any.
- **The credential resolver** (`OpenAIClient.GetClient`, `ResolveKey`).
- **The page's state logic** (`Console.AppPage`): a class whose fields are
  the page's `useState` variables that the chat console, the prompt studio,
  the key dialog and the dataset editor use. Their event handlers, setters
  and effects are methods specified by a snapshot `State()` and by pure
  functions: the provider registry, the key-dialog rule, the request body,
  the reply handling, the list reducers and the JSONL export. The
  fine-tuning and Puter state is left out (see below).

Module `SendPath` joins page and route: it proves what the server does
with every body the page can send.

Supporting modules:

- `Values`: JSON values and the JavaScript operators the code uses
  (`?.`, `??`, truthiness, `String(v)`, `instanceof Error`).
- `Text`: `String.prototype.trim` over ECMAScript white space.
- `Arrays`: `filter` and `join("\n")` with their inverse `split`.
- `JsonText`: the string escaping of `JSON.stringify` and a reader for it.
- `Dataset`: the JSONL export.

## Behaviour of note

The model follows the code in each of these places:

- The route ignores `provider` and `baseUrl`. Every provider's
  conversation goes to OpenAI's Responses API. The key stored for the
  selected provider, for example an Anthropic key, becomes the OpenAI key
  (`SendPath.OtherProvidersKeyGoesToOpenAI`). There are no per-provider
  adapters, and vendor statuses are not passed through: every failure
  after validation is a 500.
- An empty `messages` array passes validation and reaches the vendor.
- A system prompt that trims to `""` is sent as `""`. It is not dropped.
- A non-string, non-null `systemPrompt` throws a `TypeError` at
  route.ts:33, which is outside the `try`. The handler then does not answer
  with an `{error}` body (`Uncaught`).
- The `OPENAI_API_KEY` fallback applies whatever provider is selected. It
  is used untrimmed; only the per-request key is trimmed.

## Model

| member | source | states |
|---|---|---|
| ChatRoute.Post | src/app/api/chat/route.ts:18-60 | An unparseable body is a 400 "Invalid JSON payload."; a body without a truthy array `messages` is a 400 "Messages array is required."; those are the only 400s; every answer is 200, 400 or 500; 200 exactly for a chat body; a request is only made with a client; an escaping exception makes neither |
| ChatRoute.HasMessagesArray | src/app/api/chat/route.ts:26 | The negation of `!body?.messages \|\| !Array.isArray(body.messages)`; `MessagesCheck` shows it accepts exactly an array `messages`, the empty one included |
| ChatRoute.SystemPromptOf | src/app/api/chat/route.ts:33 | `systemPrompt?.trim()`: absent for null/undefined, the trimmed string for a string, and a TypeError for exactly the other values |
| ChatRoute.TemperatureOf | src/app/api/chat/route.ts:35-36 | A JSON number is used as is; anything else becomes 0.6 |
| ChatRoute.MapMessages | src/app/api/chat/route.ts:44-47 | Succeeds iff no element is null, and then gives one `{role, content}` per element in order; a null element fails with the null-read TypeError for `role` |
| ChatRoute.ChatReply | src/app/api/chat/route.ts:50-54 | The 200 body: `output_text` or "", `usage` or null, the reply's model or the requested one |
| ChatRoute.FaultResponse | src/app/api/chat/route.ts:55-59 | Every caught fault is a 500 whose error is the Error's message, or "OpenAI API error." for a non-Error |
| ChatRoute.PostAfterChecks | src/app/api/chat/route.ts:33-59 | Once validation, the system prompt and the messages pass, a client failure is its 500, and a client receives the request built from the body's model, prompt, temperature and messages |
| ChatRoute.MessagesCheck | src/app/api/chat/route.ts:26 | Validation accepts exactly the bodies whose `messages` is an array, including the empty array |
| ChatRoute.RequestShape | src/app/api/chat/route.ts:33-47 | The vendor request carries the body's model unless nullish (an empty string is kept), the numeric temperature, the trimmed system prompt, and the messages one for one |
| ChatRoute.VendorCalledIff | src/app/api/chat/route.ts:33-48 | The vendor is called exactly when the messages are an array, the system prompt is a string or absent, a key resolves and no message is null; the client is the resolved one |
| ChatRoute.ReplyShaping | src/app/api/chat/route.ts:40-54 | When the vendor is called, a reply becomes a 200 shaped by `ChatReply` and a throw becomes the fault's 500 |
| ChatRoute.MissingKeyIsServerError | src/app/api/chat/route.ts:38-39 | With no usable request key and no environment key, the answer is a 500 "Missing OpenAI API key." and the vendor is not called |
| ChatRoute.NullMessageIsServerError | src/app/api/chat/route.ts:44-47 | A null message, once a client exists, is a 500 with the null-read message; the vendor is not called |
| ChatRoute.NonStringKeyIsServerError | src/app/api/chat/route.ts:39 | A non-string, non-null `apiKey` is a 500 with the "is not a function" TypeError message, before any key lookup |
| ChatRoute.NonStringPromptEscapes | src/app/api/chat/route.ts:33 | A non-string, non-null `systemPrompt` throws outside the try: no JSON answer, no client, no request |
| ChatRoute.OnlyDeclaredFieldsMatter | src/app/api/chat/route.ts:8-14 | Two bodies that agree on `messages`, `systemPrompt`, `model`, `temperature` and `apiKey` get identical treatment: every other member is ignored |
| OpenAIClient.ResolveKey | src/lib/openai.ts:4-7 | A key that trims to non-empty wins, trimmed; otherwise a non-empty environment key is used verbatim; it fails with "Missing OpenAI API key." exactly when neither exists; a success is never empty |
| OpenAIClient.GetClient | src/lib/openai.ts:3-9 | A non-string, non-null key throws before lookup; otherwise the client is built from `ResolveKey`'s key or the same error is thrown |
| OpenAIClient.RequestKeyWins | src/lib/openai.ts:4 | A non-blank request key gives the same result whatever the environment holds |
| OpenAIClient.BlankKeyIsAbsent | src/lib/openai.ts:4 | A whitespace-only request key behaves as no key |
| OpenAIClient.ResolvedKeyOrigin | src/lib/openai.ts:4 | A resolved key is the trimmed request key or the environment key, nothing else |
| OpenAIClient.EnvKeyTakenVerbatim | src/lib/openai.ts:4 | Without a usable request key, any non-empty environment key is the resolved key exactly as set, padding included |
| Registry.Find | src/app/app/page.tsx:193-195 | `find` by id returns an entry with that id, and none exactly when no entry has it |
| Registry.CurrentProvider | src/app/app/page.tsx:193-195 | `currentProvider`: `Find` in the registry; `LookupRegistered` shows each registered id finds its own entry |
| Registry.NeedsKey | src/app/app/page.tsx:197 | `currentProvider?.needsKey ?? true`; `NeedsKeyUnlessOllama` shows it is false exactly for "ollama" |
| Registry.Stored | src/app/app/page.tsx:196 | The stored value, or "" when missing, is non-empty exactly when a non-empty value is stored, and is then that value |
| Registry.BaseInputFor | src/app/app/page.tsx:256-258 | The base input is the stored base, else the registered default, else "" |
| Registry.ShowKeyModal | src/app/app/page.tsx:301-311 | The dialog effect's two show conditions; `KeyModalCases` gives its value per provider and `StoredKeyHidesModal` shows a stored key hides it |
| Registry.IdsDistinct | src/app/app/page.tsx:39-114 | No two registry entries share an id |
| Registry.OnlyOllamaIsKeyless | src/app/app/page.tsx:39-114 | Exactly the "ollama" entry is registered as not needing a key |
| Registry.NeedsKeyUnlessOllama | src/app/app/page.tsx:197 | `needsKey` is false exactly for "ollama"; unknown ids need a key |
| Registry.StoredKeyHidesModal | src/app/app/page.tsx:301-311 | A stored non-empty key always hides the key dialog |
| Registry.KeyModalCases | src/app/app/page.tsx:301-311 | The dialog never shows for "ollama"; for "openai" iff no key is stored and the server has not confirmed a key; for any other id iff no key is stored |
| Registry.FindDistinct | src/app/app/page.tsx:193-195 | With distinct ids, `find` by an entry's id returns that entry |
| Registry.LookupRegistered | src/app/app/page.tsx:193-195 | Looking up a registered id gives its own entry |
| Registry.DefaultBase | src/app/app/page.tsx:256-258 | Without a stored base, a registered provider's input is its default URL or "" |
| Console.CanSendIffNotBlank | src/app/app/page.tsx:313-316 | Sending is possible exactly when the input is not all white space and nothing is in flight |
| Console.CanSend | src/app/app/page.tsx:313-316 | `input.trim().length > 0 && !loading`; `CanSendIffNotBlank` states what it means |
| Console.MessagesJson | src/app/app/page.tsx:345 | The messages are serialised one for one, each as `{role, content}` |
| Console.RequestBody | src/app/app/page.tsx:344-352 | The posted body holds the messages, system prompt, model, temperature and provider as given, `apiKey` exactly when the active key is non-empty and `baseUrl` exactly when the base input is, each with its value, and no other member |
| Console.FailureMessage | src/app/app/page.tsx:356-358 | A non-OK reply's message is "Request failed." for a null or missing `data.error`, and otherwise `String(data.error)` when that conversion succeeds: the string itself for a string, "[object Object]" for an object without a `toString` member. When the conversion throws, as for an object with one, the message is that of the "Cannot convert object to primitive value" TypeError |
| Console.ReplyOutcome | src/app/app/page.tsx:355-367 | A reply appends an assistant message exactly when it is OK and its body is not null, with content `data.text ?? ""`. A non-OK reply sets `FailureMessage` of its body. An OK null body sets "Cannot read properties of null (reading 'text')". A thrown fault sets its message or "Something went wrong." |
| Console.SaveEntry | src/app/app/page.tsx:487-490 | Saving a key or base sets that provider's entry and keeps every other entry |
| Console.ClearEntry | src/app/app/page.tsx:503-507 | Clearing removes only that provider's entry |
| Console.UpdateById | src/app/app/page.tsx:409-413 | Updating keeps length and ids; examples with another id are unchanged; matching examples get the new value in the chosen field and keep the other field |
| Console.SetField | src/app/app/page.tsx:411 | `{...example, [field]: value}`: `UpdateById` states that the chosen field takes the value and the other is kept |
| Console.AppPage.constructor | src/app/app/page.tsx:141-176 | The initial state: the welcome message, the default prompt, model "gpt-4.1-mini", temperature 0.6, no server-key answer and no health error yet, provider "openai", no keys, bases or presets, and the sample example |
| Console.AppPage.EditInput | src/app/app/page.tsx:726 | Typing changes only the input |
| Console.AppPage.SelectProvider | src/app/app/page.tsx:616 | Choosing a provider changes only the provider id |
| Console.AppPage.EditModel | src/app/app/page.tsx:633 | Typing a model changes only the model |
| Console.AppPage.EditSystemPrompt | src/app/app/page.tsx:770 | Editing the prompt changes only the system prompt |
| Console.AppPage.EditTemperature | src/app/app/page.tsx:783-785 | Moving the slider changes only the temperature |
| Console.AppPage.DismissKeyModal | src/app/app/page.tsx:1027-1030 | "Skip for now" closes the dialog and changes nothing else |
| Console.AppPage.EditKeyInput | src/app/app/page.tsx:647 | Typing a key changes only the key input |
| Console.AppPage.EditBaseInput | src/app/app/page.tsx:664 | Typing a base URL changes only the base input |
| Console.AppPage.EditPresetName | src/app/app/page.tsx:801 | Typing a preset name changes only that name |
| Console.AppPage.RecordHealth | src/app/app/page.tsx:286-296 | An answer sets `hasServerKey` to the truthiness of `data?.hasServerKey` and clears the health error; a thrown fault sets it false and the health error to the fault's message or "Health check failed."; nothing else changes |
| Console.AppPage.SyncProviderInputs | src/app/app/page.tsx:253-264 | The provider effect resets the key input to the stored key and the base input to `BaseInputFor`; nothing else changes |
| Console.AppPage.SyncKeyModal | src/app/app/page.tsx:301-311 | The dialog effect sets only `showKeyModal`, to `ShowKeyModal` |
| Console.AppPage.BeginSend | src/app/app/page.tsx:332-353 | A body is sent iff `canSend`. Then the error is cleared, the trimmed user message is appended, the input is emptied, loading starts, and the body carries the earlier messages plus the new one with the active key and base. Otherwise nothing changes |
| Console.AppPage.CompleteSend | src/app/app/page.tsx:355-370 | The reply appends the assistant message or sets the error, per `ReplyOutcome`, and loading stops either way |
| Console.AppPage.SavePreset | src/app/app/page.tsx:373-383 | A blank name does nothing; otherwise a preset whose id is made from the timestamp (`preset-<now>`), with the trimmed name and the current prompt, goes first, and the name is cleared |
| Console.AppPage.ApplyPreset | src/app/app/page.tsx:385-387 | Applying sets only the system prompt, to the preset's content |
| Console.AppPage.DeletePreset | src/app/app/page.tsx:389-391 | Deleting keeps exactly the presets with another id |
| Console.AppPage.AddExample | src/app/app/page.tsx:393-402 | Adding appends one empty example with a timestamp id |
| Console.AppPage.UpdateExample | src/app/app/page.tsx:404-414 | Updating replaces the examples by `UpdateById` of them |
| Console.AppPage.RemoveExample | src/app/app/page.tsx:416-418 | Removing keeps exactly the examples with another id |
| Console.AppPage.HandleSaveKey | src/app/app/page.tsx:485-492 | A blank key input does nothing; otherwise the trimmed key is stored for the current provider and the dialog closes |
| Console.AppPage.HandleSaveBase | src/app/app/page.tsx:494-500 | A blank base input does nothing; otherwise the trimmed base is stored for the current provider |
| Console.AppPage.HandleClearKey | src/app/app/page.tsx:502-508 | Clearing forgets the current provider's key only |
| Console.DeleteById | src/app/app/page.tsx:389-391 | Deleting by id removes exactly the items with that id, keeps order, and changes nothing when no item has the id |
| Console.UpdateKeepsOtherLines | src/app/app/page.tsx:409-413 | Updating one example leaves every other example's dataset line and completeness unchanged |
| Console.ClearedKeyShowsModal | src/app/app/page.tsx:301-311 | After clearing its key, a key-needing provider shows the dialog, except "openai" when the server has a key |
| Console.SavedKeyHidesModal | src/app/app/page.tsx:485-492 | After a non-blank key is saved, the dialog rule keeps the dialog closed, so `handleSaveKey` closing it agrees with the effect |
| Console.RemoveUndoesAdd | src/app/app/page.tsx:393-418 | Removing the example just added gives back the earlier examples |
| Console.DeleteUndoesSave | src/app/app/page.tsx:373-391 | Deleting the preset just saved gives back the earlier presets |
| Console.SaveThenClearKey | src/app/app/page.tsx:485-508 | A saved key is then the active key; clearing after saving equals clearing alone |
| Console.DecimalInjective | src/app/app/page.tsx:375 | Distinct timestamps give distinct preset and example ids |
| Console.Decimal | src/app/app/page.tsx:375 | The digits of `${Date.now()}` in an id; `DecimalInjective` shows distinct timestamps give distinct texts |
| Dataset.FramedRoundTrip | src/app/app/page.tsx:322-327 | Two strings escaped into a fixed frame read back as exactly those strings |
| Dataset.Complete | src/app/app/page.tsx:320 | Both trimmed texts truthy; `JsonlEmptyIffNothingComplete` and `LinesParse` use it as the filter |
| Dataset.LineOf | src/app/app/page.tsx:321-327 | The `JSON.stringify` line of an example's trimmed texts; `LineRoundTrip` reads it back and `LineIsOneLine` shows it has no newline |
| Dataset.Line | src/app/app/page.tsx:322-327 | `JSON.stringify` of the user and assistant message pair, members in insertion order; `LineRoundTrip` reads both texts back in order and `LineIsOneLine` shows it has no raw newline |
| Dataset.Jsonl | src/app/app/page.tsx:318-330 | `filter`, `map`, `join("\n")`; `JsonlLines` and `JsonlEmptyIffNothingComplete` state what it holds |
| Dataset.LineIsOneLine | src/app/app/page.tsx:322-327 | A serialised example holds no raw newline |
| Dataset.FramedIsOneLine | src/app/app/page.tsx:322-327 | Two escaped strings in a newline-free frame contain no newline |
| Dataset.LineRoundTrip | src/app/app/page.tsx:322-327 | A dataset line parses back to exactly its user and assistant texts |
| Dataset.JsonlSplit | src/app/app/page.tsx:318-330 | With at least one complete example, splitting the JSONL on newlines gives exactly the lines of the complete examples, in order |
| Dataset.LinesParse | src/app/app/page.tsx:320-327 | The line of each complete example parses to its trimmed texts, both non-empty |
| Dataset.JsonlLines | src/app/app/page.tsx:318-330 | Splitting the JSONL on newlines gives one line per complete example, in order, each parsing to that example's trimmed texts, both non-empty |
| Dataset.LineEndsWithBrace | src/app/app/page.tsx:322-327 | Each line ends with the closing brace of its object |
| Dataset.JsonlEmptyIffNothingComplete | src/app/app/page.tsx:318-330 | The JSONL is empty iff no example is complete; otherwise it ends with "}", not a newline |
| Dataset.JsonlAppend | src/app/app/page.tsx:319-328 | Filtering and serialising a concatenation equals doing it part by part |
| JsonText.EscapeHasNoNewline | src/app/app/page.tsx:322-327 | `JSON.stringify` escapes every newline in a string |
| JsonText.ReadEscapedChar | src/app/app/page.tsx:322-327 | Each escaped character reads back as itself |
| JsonText.ReadShortEscape | src/app/app/page.tsx:322-327 | A two-character escape (`\b`, `\t`, `\n`, `\f`, `\r`, quote, backslash) reads back as its character |
| JsonText.ReadHexEscape | src/app/app/page.tsx:322-327 | A `\u00xx` escape of another control character reads back as that character |
| JsonText.ReadPlainChar | src/app/app/page.tsx:322-327 | A character written as itself reads back as itself |
| JsonText.ReadEscaped | src/app/app/page.tsx:322-327 | An escaped string followed by a closing quote reads back as the string and the rest |
| JsonText.QuoteRoundTrip | src/app/app/page.tsx:322-327 | A quoted string reads back as itself |
| JsonText.HexRoundTrip | src/app/app/page.tsx:322-327 | The `\u00XX` hex digits read back as the digit written |
| JsonText.EscapeChar | src/app/app/page.tsx:322-327 | One character as QuoteJSONString writes it; `ReadShortEscape`, `ReadHexEscape` and `ReadPlainChar` read each case back |
| JsonText.Escape | src/app/app/page.tsx:322-327 | A string's characters escaped one by one; `ReadEscaped` reads it back and `EscapeHasNoNewline` shows it holds no raw newline |
| JsonText.Quote | src/app/app/page.tsx:322-327 | `JSON.stringify(s)` for a string; `QuoteRoundTrip` reads it back whole |
| Arrays.Filter | src/app/app/page.tsx:390 | `filter` keeps exactly the elements that pass, and never grows the list |
| Arrays.FilterAppend | src/app/app/page.tsx:390 | `filter` distributes over concatenation, so order is kept |
| Arrays.FilterKeepsAll | src/app/app/page.tsx:390 | `filter` changes nothing iff every element passes |
| Arrays.Map | src/app/app/page.tsx:321-328 | `map` gives one image per element, in order |
| Arrays.MapAppend | src/app/app/page.tsx:321-328 | `map` distributes over concatenation |
| Arrays.SplitJoinMap | src/app/app/page.tsx:321-329 | Newline-free lines made one per item are recovered by splitting their join |
| Arrays.SplitJoin | src/app/app/page.tsx:329 | Splitting lines joined by "\n" gives them back when none holds a newline |
| Arrays.SplitLinePrefix | src/app/app/page.tsx:329 | A newline-free line followed by a tail splits into that line and the tail's pieces |
| Arrays.SplitNonNewline | src/app/app/page.tsx:329 | A character other than a newline joins the first piece of the split |
| Arrays.JoinLinesLast | src/app/app/page.tsx:329 | A join of non-empty lines ends with the last line's last character |
| Arrays.JoinLines | src/app/app/page.tsx:329 | `join("\n")`: "" for no lines and the line itself for one; `SplitJoin` shows splitting gives newline-free lines back and `JoinLinesLast` gives its last character |
| Text.TrimStart | src/app/api/chat/route.ts:33 | The leading trim never lengthens the input; `TrimStartSuffix` and `TrimStartDropsBlank` state what it keeps and drops |
| Text.TrimEnd | src/app/api/chat/route.ts:33 | The trailing trim never lengthens the input; `TrimEndPrefix` and `TrimEndDropsBlank` state what it keeps and drops |
| Text.TrimStartSuffix | src/app/api/chat/route.ts:33 | The leading trim leaves a suffix of the input that does not start with white space |
| Text.TrimEndPrefix | src/app/api/chat/route.ts:33 | The trailing trim leaves a prefix of the input that does not end with white space |
| Text.Trim | src/app/api/chat/route.ts:33 | `trim()` as the trailing trim of the leading trim; `TrimIsSlice`, `TrimEmptyIffBlank` and `TrimIdempotent` state its properties |
| Text.IsWhiteSpace | src/app/api/chat/route.ts:33 | The ECMAScript WhiteSpace and LineTerminator code points that `trim()` strips; `TrimIsSlice` and `TrimEnds` show these are exactly what is removed from the ends |
| Text.TrimStartDropsBlank | src/app/api/chat/route.ts:33 | What the leading trim removes is all white space |
| Text.TrimEndDropsBlank | src/app/api/chat/route.ts:33 | What the trailing trim removes is all white space |
| Text.BlankOutside | src/lib/openai.ts:4 | Removing a blank prefix and then a blank suffix leaves a slice with only white space around it |
| Text.TrimEnds | src/lib/openai.ts:4 | A non-empty trimmed string neither starts nor ends with white space |
| Text.TrimIsSlice | src/lib/openai.ts:4 | `trim()` is a contiguous slice of the input with only white space outside it |
| Text.TrimEmptyIffBlank | src/app/app/page.tsx:314 | `trim()` is empty exactly for all-white-space strings |
| Text.TrimIdempotent | src/app/app/page.tsx:489 | Trimming twice is trimming once |
| Values.Member | src/app/api/chat/route.ts:26 | Property access gives a value exactly for an object holding that key |
| Values.Coalesce | src/app/api/chat/route.ts:34 | `??` gives the fallback exactly for null/undefined |
| Values.Nullish | src/app/api/chat/route.ts:33-34 | What `?.` and `??` treat as absent: undefined or null; `Coalesce` falls back exactly on it |
| Values.Truthy | src/app/api/chat/route.ts:26 | JavaScript truthiness of a JSON value: false exactly for undefined, null, false, 0 and ""; `MessagesCheck` relies on it for route.ts:26 and `RecordHealth` for `Boolean(data?.hasServerKey)` at page.tsx:289 |
| Values.ToJsString | src/app/app/page.tsx:357 | `String(v)`: null is "null", a boolean "true" or "false", a number its canonical text and a string itself. An object is "[object Object]", and throws the "Cannot convert object to primitive value" TypeError exactly when it has an own `toString` member. An array throws exactly when one of its elements does |
| Values.JoinElements | src/app/app/page.tsx:357 | `join(",")` over an array's elements throws exactly when converting one of them throws, always with that TypeError |
| Values.MessageOr | src/app/api/chat/route.ts:56-57 | `instanceof Error ? message : fallback` |
| SendPath.SentMessagesMap | src/app/api/chat/route.ts:44-47 | The page's serialised messages are never null and map to their role names and contents |
| SendPath.SentBodyValidates | src/app/api/chat/route.ts:26-47 | A body the page sends passes the messages check and all its messages map |
| SendPath.SentSettings | src/app/api/chat/route.ts:33-36 | The route reads a sent body's system prompt trimmed and its model and temperature as sent |
| SendPath.SentClient | src/app/api/chat/route.ts:38-39 | The client for a sent body comes from the page's active key or, failing that, the environment |
| SendPath.SentBodyIsServed | src/app/app/page.tsx:332-353 | A body the page sends never gets a 400 or escapes the handler. The vendor is called iff a key resolves, with that key, the page's model and temperature, the trimmed prompt and the messages in order; otherwise the answer is the missing-key 500 |
| SendPath.ProviderAndBaseIgnored | src/app/app/page.tsx:349-351 | Changing provider or base URL with the same key and conversation changes nothing on the server |
| SendPath.OtherProvidersKeyGoesToOpenAI | src/app/app/page.tsx:196 | The non-blank key stored for the selected provider, whichever it is, becomes the OpenAI client's key |

## Left out

- Browser storage (`localStorage` loading and saving, page.tsx:199-251 and 266-278), the sign-in redirect, scrolling and all rendering: these are I/O and presentation.
- The health probe's request (page.tsx:284-299) is I/O: `RecordHealth` takes its outcome, a parsed body or a thrown fault, as a parameter.
- `downloadJsonl`, `uploadJsonl`, `createFineTuneJob`, `handleSignOut` and the Puter demo: file download, other routes and a browser SDK. The JSONL they use is modelled.
- The fine-tune and health routes are not part of this model.
- The OpenAI SDK and the network: the vendor call is a function parameter, and a `Client` records only its key.
- `req.json()` and `response.json()` parsing: a body is given as a parsed JSON value or as a parse failure.
- Numbers are opaque canonical texts: floating-point arithmetic plays no part, and `temperature` is passed through unchanged.
- `Date.now()` is a parameter `now` of `SavePreset` and `AddExample`.
- React scheduling: each effect is a method the caller runs after the state it depends on changes. Batching and render order are not modelled.
- `sendMessage` is split at its `await` into `BeginSend` and `CompleteSend`. Other handlers may run in between, as in the browser. The model appends to the current messages where the page uses functional updates.
- TypeError messages follow V8's wording ("X is not a function", "Cannot read properties of null (reading 'p')").
- The message of a parse failure in `response.json()` is whatever fault is passed to `CompleteSend`.
- JSON.stringify of a message whose content is not a string, and any member order other than insertion order, are not modelled. The request body is a JSON value, not text.
- Registry.Find: the "first match" property of `find` is not stated; ids are proved distinct, so a match is unique.
- Registry.Stored: only a map's own entries are modelled. A provider id that names an inherited `Object.prototype` member, such as "constructor", reads a function in the source, which counts as a stored key; the model reads "" for it. The registry's ids name no such member.
- Strings are sequences of Unicode scalar values, not UTF-16 code units: a lone surrogate cannot be represented, so the `\udxxx` branch of QuoteJSONString does not arise and is not modelled.
