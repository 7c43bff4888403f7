# AI agent playground: verified model of the chat tool executor

This project models the core of a Next.js demo in Dafny. In the demo, a chat assistant reads and writes four browser-storage values through tool calls:

- `calculation`, `flag`, `note` and `theme`.

The model covers these parts:

- **The client chat box** (`SimpleChatBoxRest.tsx`), modelled as the class `ChatBoxRest.ChatBox`. Its fields are the storage map, the display list, the AI transcript, the input box and a count of continuation requests.
  - `ProcessToolCalls` runs the tool-call batch in order. Each call goes through the `switch` in `ExecuteToolCall`.
  - `SendMessage` appends one conversational turn.
  - `HandleClear` resets the lists.
  - `ExecuteToolCall`, `ProcessToolCalls` and `SendMessage` are each proved equal to a specification function on a `ChatState` value: `Step`, `Run` or `Send`. The lemmas about those functions carry the behavioural properties. The constructor, `SetInput` and `HandleClear` state their new state directly.
- **The server route** (`route.ts`), modelled as `RestRoute`. It holds:
  - the three string validators;
  - the tool catalogue derived from the schema keys;
  - the key-behaviour lines of the system prompt;
  - transcript assembly and the request parameters;
  - post-processing of the completion into `{reply, toolcalls, onlyToolCalled, fulltrace}` (the method `Post`);
  - the error envelope.
- **API key settings** (`SettingsPage.tsx`), modelled as `Settings`:
  - XOR obfuscation over UTF-16 code units: the loop `XorObfuscate` and the reference `Obfuscate`;
  - `getGeminiApiKey` and `hasGeminiApiKey`;
  - the class `ApiKeySettings` with the mount effect and the save and remove handlers.
- **Model selection** (`models.ts`), modelled as `Models`: the catalogue, the defaulting read, the validated save, reset, and the projections.
- **The values panel** (`ComponentsUI.tsx`), modelled as `ComponentsUi`: note truncation, the show-more button, the toggle and the flag label.
- **The sitemap** (`sitemap.ts`), modelled as `Sitemap`: ampersand escaping and the static route table.
- **The defaults table** (`useLocalStorageValue.ts`), modelled as `StorageConfig`: the `THEME` enum, `LOCAL_STORAGE_CONFIG`, `getConfig` and the hook fallbacks.
- **Shared helpers.** `JsText` holds JavaScript's `trim` and an ASCII `toLowerCase`. `ChatTypes` holds the tool-call and role types. `Wrappers` holds `Option`.

The executor is modelled as the code behaves, not as its documentation describes it. The schema's behaviour notes in `route.ts` (lines 10, 17, 23 and 30) and the set tool's description (line 51) say that stored values are normalised and validated: flag aliases such as "yes", trimmed text, lower-cased themes. The client code does neither:

- `setLocalStorage` stores the raw `value` whenever `key` and `value` are non-empty.
- The route's validators are never called on the client side.

The model follows the code. For example, `ChatBoxRest.StepEffects` states that the store gains exactly `key := value`, verbatim.

## Model

| member | source | states |
|---|---|---|
| ChatBoxRest.ChatBox.ProcessToolCalls | src/components/SimpleChatBoxRest.tsx:160-265 | The new state is `Run` of the old state over the batch. The method reports a throw exactly when some call has malformed get/set arguments. Calls after the throwing one are skipped, and everything appended before it stays. |
| ChatBoxRest.ChatBox.ExecuteToolCall | src/components/SimpleChatBoxRest.tsx:163-261 | One pass through the `switch`. It throws exactly for get/set with malformed arguments, and then nothing changes. Otherwise the new state is `Step` of the old one. |
| ChatBoxRest.StepEffects | src/components/SimpleChatBoxRest.tsx:162-261 | One call throws iff it is a get/set with malformed arguments. Otherwise it appends exactly one display entry with the call's id. It appends one AI entry with that id for get, set and continue, and none for an unknown name. The store changes only for set with a non-empty key and value, and then by exactly `key := value`. The continuation count grows by one only for continueConversation. |
| ChatBoxRest.GetEntries | src/components/SimpleChatBoxRest.tsx:164-196 | A get produces a display entry and an AI entry, both with role tool and the call's id. With a non-empty key, both end with the value read. With an empty or missing key they are the fixed error pair, and nothing is read. |
| ChatBoxRest.SetEntries | src/components/SimpleChatBoxRest.tsx:198-232 | A set produces a tool display entry flagged as a set call and an AI entry, both with the call's id. With a non-empty key and value, both end with the value written; otherwise they are the fixed error pair. |
| ChatBoxRest.ContinueEntries | src/components/SimpleChatBoxRest.tsx:234-250 | A continue produces a tool display entry marked as a continuation (and not as a set call) and a tool AI entry, both with the call's id. |
| ChatBoxRest.UnknownEntry | src/components/SimpleChatBoxRest.tsx:252-260 | An unknown tool gives one tool display entry with the call's id. The function's name follows the error prefix in its text. |
| ChatBoxRest.Run | src/components/SimpleChatBoxRest.tsx:162-263 | A batch finishes iff no call throws. Both lists only grow. Every appended display entry is a tool entry. The input box is untouched. |
| ChatBoxRest.RunProcessesInOrder | src/components/SimpleChatBoxRest.tsx:162-261 | A batch with no throwing call appends exactly one display entry per call, and entry i carries the id of call i. |
| ChatBoxRest.RunExtend | src/components/SimpleChatBoxRest.tsx:162-263 | After a finished prefix, the next loop pass throws exactly when that call's step fails; otherwise the batch so far ends in the state the step produces. |
| ChatBoxRest.RunThrewSticks | src/components/SimpleChatBoxRest.tsx:148-154 | Once a prefix of the batch has thrown, the whole batch ends in that same state. |
| ChatBoxRest.RunStopsAtFirstThrow | src/components/SimpleChatBoxRest.tsx:165-199 | If call j is the first throwing call, the batch ends in the state after calls 0..j-1. |
| ChatBoxRest.RunCounts | src/components/SimpleChatBoxRest.tsx:178-248 | A batch with no throwing call appends one AI entry per known tool call. The continuation count grows by the number of continueConversation calls. |
| ChatBoxRest.RunAiIdsFollowCalls | src/components/SimpleChatBoxRest.tsx:162-252 | A finished batch appends exactly one AI entry per known-tool call, and the i-th appended entry carries the id of the i-th known-tool call, so the transcript sent back answers the calls in order. |
| ChatBoxRest.RunAiEntriesAreTools | src/components/SimpleChatBoxRest.tsx:179-248 | Every AI transcript entry a batch appends has role tool. |
| ChatBoxRest.RunWithoutSetKeepsStore | src/components/SimpleChatBoxRest.tsx:164-196 | A batch without setLocalStorage calls leaves the store unchanged, because get performs only reads. |
| ChatBoxRest.SetThenGetReadsValue | src/components/SimpleChatBoxRest.tsx:198-214 | Calling set(k, v) then get(k), with k and v non-empty, finishes with the store updated to k := v. The AI transcript gains exactly the write confirmation and a read result that reports v. |
| ChatBoxRest.SendWithoutCredentials | src/components/SimpleChatBoxRest.tsx:101-103 | Without an API key or a model, a send changes nothing. |
| ChatBoxRest.SendAppendsOneTurn | src/components/SimpleChatBoxRest.tsx:105-149 | With credentials, a non-empty input adds one user entry with the trimmed text to both lists. The AI transcript then gains one assistant entry, which carries tool_calls only when the list is non-empty, followed only by tool entries. The display list gains the "Calling tools " placeholder iff onlyToolCalled is false. The input box is cleared. |
| ChatBoxRest.SendDisplayCount | src/components/SimpleChatBoxRest.tsx:127-149 | A send whose batch finishes grows the display list by the user entry (if any), the assistant entry, the placeholder (unless only tools were called) and one entry per tool call. |
| ChatBoxRest.ChatBox.SendMessage | src/components/SimpleChatBoxRest.tsx:97-158 | The new state is `Send` of the old state. A throw inside the tool batch keeps the turn's earlier appends. |
| ChatBoxRest.ChatBox.constructor | src/components/SimpleChatBoxRest.tsx:57-60 | The component starts with the given store, empty display and AI lists, an empty input box and no continuation requested. |
| ChatBoxRest.ChatBox.SetInput | src/components/SimpleChatBoxRest.tsx:355 | Typing replaces the input box's text; the store, both lists and the continuation count are unchanged. |
| ChatBoxRest.ChatBox.HandleClear | src/components/SimpleChatBoxRest.tsx:91-95 | Empties the display list, the AI transcript and the input. The store is left unchanged. |
| RestRoute.FlagValidIff | src/app/api/rest/route.ts:14 | The flag validator accepts exactly the strings that match "true" or "false" ignoring ASCII case. |
| RestRoute.ThemeValidIff | src/app/api/rest/route.ts:27 | The theme validator accepts exactly the strings that match "light" or "dark" ignoring ASCII case. |
| RestRoute.NoteValidIff | src/app/api/rest/route.ts:21 | The note validator accepts exactly the strings that contain a non-whitespace character. |
| RestRoute.FlagValidatorRejectsAliases | src/app/api/rest/route.ts:14-17 | The validator rejects "yes", "on" and "1", although the behaviour notes promise to convert them. |
| RestRoute.ThemeValidatorExamples | src/app/api/rest/route.ts:27 | Case-insensitive acceptance of "LIGHT" and "Dark"; "blue" is rejected. |
| RestRoute.NoteValidatorExamples | src/app/api/rest/route.ts:21 | A note with surrounding spaces is accepted; a whitespace-only note is rejected. |
| RestRoute.KeysOf | src/app/api/rest/route.ts:46 | `Object.keys` keeps the schema's order and length. |
| RestRoute.ToolCatalogShape | src/app/api/rest/route.ts:35-88 | There are three tools: set, get, continue. Set and get allow exactly the schema keys, in order. Set requires [key, value], get requires [key], and continue requires nothing and has no properties. |
| RestRoute.RequiredAreDeclared | src/app/api/rest/route.ts:35-88 | Every name a tool lists under `required` is one of that tool's declared properties. |
| RestRoute.SchemaKeysInOrder | src/app/api/rest/route.ts:46 | `Object.keys(STORAGE_SCHEMA)` is calculation, flag, note, theme, in declaration order. |
| RestRoute.KeyBehaviorLinesFollowSchema | src/app/api/rest/route.ts:149-153 | The prompt's key lines and the tool catalogue's key enum agree: line i starts with "- " and the i-th key of `Object.keys`, for all four keys. |
| RestRoute.InitialTranscript | src/app/api/rest/route.ts:163-169 | The model transcript is one system entry carrying the prompt, followed by the client's messages unchanged. |
| RestRoute.ErrorReply | src/app/api/rest/route.ts:202-207 | The error body is "Error: " followed by the message, or "Unknown error." when the message is empty or absent. |
| RestRoute.Post | src/app/api/rest/route.ts:163-207 | The request sent is the system entry followed by the client's messages, with the fixed parameters (0.7, 150 tokens, the catalogue, "auto"), and a successful response's fulltrace starts with exactly that transcript and adds at most one entry. `toolcalls` equals the message's tool calls in order (empty when there are none). The assistant message is added to fulltrace only when it has tool calls. onlyToolCalled holds iff the content is falsy and some tool was called. The reply is "Calling tools " in that case, else the content. A failed completion gives the error envelope. |
| Settings.XorObfuscate | src/components/SettingsPage.tsx:16-23 | The output has the input's length, and unit i is input unit i XOR key unit (i mod key length). |
| Settings.ObfuscationKey | src/components/SettingsPage.tsx:17 | The key is never empty. A non-empty configured key is used as it is; an absent or empty one gives the fallback 'gmchajkhsakdh'. |
| Settings.ObfuscateInvolution | src/components/SettingsPage.tsx:16-23 | Obfuscation preserves length, and obfuscating twice returns the original. |
| Settings.SaveThenGet | src/components/SettingsPage.tsx:56-62 | Saving key k and reading it back returns k, for every k including "". |
| Settings.HasAfterSave | src/components/SettingsPage.tsx:5-8 | After saving k, a key is reported present iff k is non-empty. |
| Settings.HasIffKeyNonEmpty | src/components/SettingsPage.tsx:5-8 | `hasGeminiApiKey` holds iff `getGeminiApiKey` returns a non-empty key. |
| Settings.RemoveThenGet | src/components/SettingsPage.tsx:64-70 | After removal the key reads as "" and is reported absent. |
| Settings.ApiKeySettings.constructor | src/components/SettingsPage.tsx:44-49 | On mount the text box holds `getGeminiApiKey` of the storage. |
| Settings.ApiKeySettings.HandleApiKeyChange | src/components/SettingsPage.tsx:51-53 | The text box takes the typed value; storage is untouched. |
| Settings.ApiKeySettings.HandleApiKeySave | src/components/SettingsPage.tsx:56-62 | Stores the obfuscated text-box value under "gemini_api_key", which then reads back as that value. |
| Settings.ApiKeySettings.HandleApiKeyRemove | src/components/SettingsPage.tsx:64-70 | Removes the stored key and clears the text box. |
| Models.CatalogueShape | src/app/lib/models.ts:11-56 | There are seven models, the default is the first model's id, and all ids are distinct. |
| Models.GetSelectedModel | src/app/lib/models.ts:63-70 | Returns the stored id when it is non-empty, else the default. It never returns "". |
| Models.FindById | src/app/lib/models.ts:97 | A found model is the first model in the list with the id. Nothing is found iff no model has the id. |
| Models.GetSelectedModelInfo | src/app/lib/models.ts:95-98 | Always a catalogue member: the model with the selected id, else the second catalogue entry. |
| Models.MapSeq | src/app/lib/models.ts:116 | `map` keeps length and order. |
| Models.GetAvailableModelIds | src/app/lib/models.ts:115-117 | The catalogue ids in catalogue order. |
| Models.GetAvailableModelNames | src/app/lib/models.ts:123-125 | The catalogue names in catalogue order. |
| Models.GetAvailableModelsInfo | src/app/lib/models.ts:131-136 | Each catalogue entry's id and name, in catalogue order. |
| Models.ListedIdsExist | src/app/lib/models.ts:82 | Every listed id passes the save validation. |
| Models.CatalogueIdsNonEmpty | src/app/lib/models.ts:11-54 | No catalogue id is empty. |
| Models.SaveThenGet | src/app/lib/models.ts:69-88 | After saving a catalogue id, the selection reads that id. |
| Models.ResetThenGet | src/app/lib/models.ts:103-109 | After a reset the selection is the default, and its info is the first catalogue entry. |
| Models.ModelSelection.SaveSelectedModel | src/app/lib/models.ts:76-89 | Stores only catalogue ids. An unknown id leaves storage unchanged. |
| Models.ModelSelection.ResetSelectedModel | src/app/lib/models.ts:103-109 | Removes the stored id, so the default is selected again. |
| ComponentsUi.TruncatedNote | src/components/ComponentsUI.tsx:18-22 | A note of at most 20 characters is unchanged. A longer one becomes its first 20 characters plus "...", 23 in all. |
| ComponentsUi.TruncationIdempotent | src/components/ComponentsUI.tsx:20-22 | Truncating a truncated note changes nothing. |
| ComponentsUi.ToggleNote | src/components/ComponentsUI.tsx:24 | The toggle flips the full-note switch. |
| ComponentsUi.DisplayedNoteCases | src/components/ComponentsUI.tsx:50-52 | Without the show-more button (note of at most 20 characters), both views show the note whole. With it, the collapsed view has 23 characters and the expanded view is the note. |
| ComponentsUi.FlagLabel | src/components/ComponentsUI.tsx:43 | "TRUE" iff the flag value is truthy, else "FALSE". |
| ComponentsUi.FlagLabelOfStoredText | src/components/ComponentsUI.tsx:43 | A flag read back as the text "false" is labelled "TRUE"; "" and `false` show "FALSE". |
| Sitemap.EscapeXmlUrl | src/app/sitemap.ts:8-10 | The output length is the input length plus 4 per "&". A string without "&" is unchanged. |
| Sitemap.UnescapeEscape | src/app/sitemap.ts:9 | Replacing "&amp;" by "&" left to right on the output recovers the input. |
| Sitemap.EscapeConcat | src/app/sitemap.ts:9 | Escaping distributes over concatenation. |
| Sitemap.BaseUrlsHaveNoAmpersand | src/app/sitemap.ts:3-4 | Neither base URL contains "&". |
| Sitemap.RoutesShape | src/app/sitemap.ts:12-37 | There are four routes: base, settings, rest and webhook. Each has priority 1 and the logo as its only image. Escaping leaves the URLs as written. |
| StorageConfig.ThemeValue | src/lib/useLocalStorageValue.ts:4-7 | A theme value is "light" or "dark". |
| StorageConfig.ThemeValuesDistinct | src/lib/useLocalStorageValue.ts:4-7 | The two theme values are "light" and "dark", and they differ. |
| StorageConfig.ConfigTable | src/lib/useLocalStorageValue.ts:9-21 | There are four entries (calculation, note, flag, theme) with distinct keys. |
| StorageConfig.Find | src/lib/useLocalStorageValue.ts:25 | `find` returns the first entry with the key, or nothing when no entry has it. |
| StorageConfig.FindUnique | src/lib/useLocalStorageValue.ts:25 | Over distinct keys, `find` returns e iff e is the entry with that key. |
| StorageConfig.GetConfigUnique | src/lib/useLocalStorageValue.ts:24-26 | `getConfig(k)` is the unique entry with key k, and nothing for any other key. |
| StorageConfig.HookDefaultsAgree | src/lib/useLocalStorageValue.ts:29-46 | Each hook finds its config entry, and its fallback equals the table default. |
| StorageConfig.UnsetKeyReads | src/lib/useLocalStorageValue.ts:9-21 | An unset key reads as its table default as text: calculation "0", note "", flag "false", theme "light"; any other key reads "null". |
| JsText.Trim | src/app/api/rest/route.ts:21 | `trim`'s result is no longer than the input, does not start or end with whitespace, and is empty iff the input is all whitespace. |
| JsText.TrimSurroundedByWhitespace | src/app/api/rest/route.ts:21 | `trim` returns a slice of the input with only whitespace before and after it. |
| JsText.ToLowerEqualsIff | src/app/api/rest/route.ts:14 | The lower-cased string equals a lower-case word iff the string matches the word ignoring ASCII case. |

## Left out

- Rendering, effects that only touch the DOM, textarea resizing, scrolling, and the `loading`/`isProcessingTools` flags are left out. They are UI with no state the executor depends on. On the throw path `setIsProcessingTools(false)` (SimpleChatBoxRest.tsx:264) never runs, so the send button stays disabled and Enter stays blocked until a later batch completes; in the model that is the `Threw` outcome.
- `sendMessage` calls are not interleaved. The un-awaited `sendMessage()` of continueConversation is a concurrent follow-up, and the model only counts it (`continuations`). The input box is cleared before the completion is awaited but stays editable while it is pending. Text typed in that time is appended by the follow-up, as a user entry in both lists, between the batch's tool entries, and the box is cleared again. The model does not capture that case: it assumes the box is still empty when a continuation fires.
- Network I/O is left out: `fetchAIChat.ts`, the SDK constructor in `openai.ts`, and the completion call. The completion is an input value (`ApiResponse` on the client, `ProviderResult` on the server). The fetch helper's error-fallback object is not part of this model.
- The `atomhooks` storage library is not part of this model. The store is an abstract `map<string, string>`. A key that is absent reads as its table default rendered as text, and as "null" outside the table. That default is an assumption about the library.
- `JSON.parse` of tool arguments is replaced by the pre-parsed `Parsed(key?, value?) | Malformed` value. Malformed stands for the parse throwing. Only string properties are represented. A falsy JSON value (`false`, `0`, `null`, missing) maps to `None`, and takes the error branch just as the empty string does. A truthy non-string value (`true`, `1`, an object) maps to `Some` of its template text. A truthy value whose template text is empty (`[]`, `[""]`) takes the read or write branch in the source (for a set it stores the array and shows "I have set the value of k to "), but the model sees `Some("")` and takes the error branch. The JSON type of a stored value, for example the boolean `true` that `setLocalStorage` would store, is therefore not kept.
- The calculation validator (route.ts:8) is left out. It depends on JavaScript's floating-point `Number()` coercion.
- The system prompt's prose is left out. Only its per-key behaviour lines are modelled.
- Dates in the sitemap, `process.env` other than the XOR key, `typeof window` server-side branches, `alert`, `console` and the try/catch around `xorObfuscate` (which cannot throw) are left out.
- JsText.ToLower: only ASCII letters are lower-cased. JavaScript's full Unicode `toLowerCase` (for example the Kelvin sign, which lower-cases to "k") is not modelled, so the validator lemmas hold for ASCII case only.
- ComponentsUi.TruncatedNote: counts characters, whereas `slice` and `length` count UTF-16 code units. Notes with characters outside the basic plane are not modelled.
- Each module has its own storage map, but in the browser the chat box, the settings page and the model selection share one `localStorage`. The executor passes any non-empty key to the storage calls. So `getLocalStorage` on "gemini_api_key" copies the obfuscated API key into the AI transcript sent to the server. And `setLocalStorage` on "selected_ai_model" can store an id that `saveSelectedModel` would refuse, which `GetSelectedModelInfo` then maps to its fallback entry. The separate maps do not capture this sharing.
- The modelled client messages always carry a string content. A provider message whose content is null is modelled only on the server side (`Option<string>`).
- Models.ModelSelection.SaveSelectedModel: the `console.warn` for an unknown id is not modelled.
