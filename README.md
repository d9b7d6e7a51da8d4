# AI Translator — a verified model of its core rules

AI Translator is an Electron desktop application that translates between
Japanese and English through a hosted chat-completion API. The main process
keeps a small settings document: the API key encrypted under a passphrase
derived from the machine, the proxy settings and the theme. It answers the
renderer's IPC calls. The most important of these is `translate-text`,
which validates the text, detects its script, picks the language labels,
builds the proxy URL and wraps every failure as an `{error}` value. The
renderer has three components:

- the translator page, with its translate, clear, copy and paste actions
  and a double Ctrl+C shortcut;
- the settings form, which loads the stored values with fallbacks and
  saves them;
- the application shell, which applies the theme to the document body.

This project models those rules in Dafny, one module per component of the
application, plus `Js` for the JavaScript built-ins the components rely on:

| module | file | models |
|---|---|---|
| `Js` | `js.dfy` | JavaScript built-ins: strings as UTF-16 code units, `trim`, `parseInt(s, 10)` and integer-to-string |
| `Schema` | `schema.dfy` | the settings document, its defaults and the theme enumeration |
| `Vault` | `vault.dfy` | the machine passphrase, `encrypt`, `decrypt` and reading the stored key |
| `Gateway` | `gateway.dfy` | the `translate-text` handler as a total function |
| `MainProcess` | `main_process.dfy` | the settings store as a class, and the IPC handlers that read and write it |
| `TranslatorPage` | `translator_page.dfy` | the translator page's state and handlers as a class |
| `SettingsModal` | `settings_modal.dfy` | the settings form's state and handlers as a class |
| `App` | `app.dfy` | the theme rule on the body's class list, and loading and changing the theme |

Parts the model cannot see are handled as follows:

- Foreign computations are fields of a `Vault.Platform` value, which every
  vault lemma quantifies over. These are the host lookups (`os.hostname`,
  `os.platform`, `os.arch` and the first CPU's model), SHA-256 and AES.
- The cipher's round trip on well-formed text (no unpaired surrogate) is a
  predicate, `Vault.CipherRoundTrips`. That UTF-8 decoding only yields
  well-formed text is another, `Vault.DecodesWellFormed`. Lemmas that rely
  on them take them as hypotheses, and `Vault.CipherHypothesesSatisfiable`
  shows that a platform can meet both.
- The chat-completion call is an input, `Gateway.ApiOutcome`.
- Every awaited IPC call's outcome is an input (`Js.Settled`, `Js.Completion`).
- The calls by which a component acts on the outside world are recorded,
  in order, in a ghost sequence on its class. Examples are `onOpenSettings`,
  the IPC calls that save or translate, the clipboard calls and the delayed
  close. The reads `get-api-key`, `get-proxy-config` and `get-theme` are not
  recorded. Their outcomes appear only as parameters, so an unchanged
  sequence does not mean that nothing was read.
- An async handler that changes state before its `await` is split into two
  methods, the part before the `await` and the part after. A third method
  composes them.

Five behaviours of the code a reader might not expect, all modelled as
written:

- Empty credentials are kept in the proxy URL. When the proxy is enabled
  without a user name or password, the URL still reads `http://:@host:port`
  (`Gateway.ProxyUrlWithoutCredentials`).
- The main process does not reject empty text. Only the translator page
  refuses blank input. The `translate-text` handler itself sends an empty
  text to the endpoint (`Gateway.EmptyTextIsSent`).
- Deriving the passphrase can throw. When the host lists no CPU,
  `os.cpus()[0].model` throws. `decrypt` turns that into `''`, but `encrypt`
  (and so `save-api-key`) propagates it (`Vault.Encrypt`,
  `MainProcess.SettingsStore.SaveApiKey`).
- The machine identifier is not injective. Its parts are joined by hyphens
  that may also occur inside them, so two different hosts can derive the
  same passphrase (`Vault.MachineIdCollides`, `Vault.PassphraseCollides`).
- A key with an unpaired surrogate cannot be saved. The cipher encodes its
  input as UTF-8, which throws on such text, so `encrypt` and `save-api-key`
  throw and nothing is written (`Vault.LoneSurrogateRefused`,
  `MainProcess.SettingsStore.SaveApiKey`).

## Model

| member | source | states |
|---|---|---|
| `Js.OrEmpty` | src/renderer/components/TranslatorPage.tsx:97-99 | the `''` fallback for an optional string: the string when present, `''` otherwise |
| `Js.TrimStart` | src/renderer/components/TranslatorPage.tsx:77 | the result does not start with whitespace and is empty if and only if the input is blank |
| `Js.TrimStartKeepsSuffix` | src/renderer/components/TranslatorPage.tsx:77 | leading trimming keeps a suffix of the input and drops only whitespace before it |
| `Js.TrimEnd` | src/renderer/components/TranslatorPage.tsx:77 | the result does not end with whitespace and is empty if and only if the input is blank |
| `Js.TrimEndKeepsPrefix` | src/renderer/components/TranslatorPage.tsx:77 | trailing trimming keeps a prefix of the input and drops only whitespace after it |
| `Js.Trim` | src/renderer/components/TranslatorPage.tsx:77-80 | `s.trim()` is empty exactly when every code unit of `s` is ECMAScript whitespace |
| `Js.Digits` | src/main/main.ts:306 | the decimal digits of a natural number: at least one, all digits, no leading zero |
| `Js.Decimal` | src/renderer/components/SettingsModal.tsx:39 | `String(n)` is non-empty and starts with `-` or a digit |
| `Js.DigitRun` | src/renderer/components/SettingsModal.tsx:65 | the longest prefix made of digits: all of it digits, and the next code unit is not a digit |
| `Js.DigitsValueOfDigits` | src/renderer/components/SettingsModal.tsx:65 | the digits of `n` read back as `n` |
| `Js.DigitRunStopsAtNonDigit` | src/renderer/components/SettingsModal.tsx:65 | a run of digits followed by a non-digit, or by nothing, is read exactly to its end |
| `Js.ParseInt` | src/renderer/components/SettingsModal.tsx:65 | `parseInt(s, 10)`: blank text gives `NaN`, and a negative value needs a leading `-`; the `Js.ParseInt*` lemmas below complete its specification |
| `Js.ParseIntNaN` | src/renderer/components/SettingsModal.tsx:65 | `parseInt(s, 10)` is `NaN` exactly when, after the leading whitespace, there is nothing, or the first code unit is neither a digit nor a sign followed by a digit |
| `Js.TrimStartBlankPrefix` | src/renderer/components/SettingsModal.tsx:65 | leading trimming removes a blank prefix entirely |
| `Js.ParseIntSkipsWhitespace` | src/renderer/components/SettingsModal.tsx:65 | a blank prefix does not change what `parseInt` reads |
| `Js.ParseIntStopsAtNonDigit` | src/renderer/components/SettingsModal.tsx:65 | a run of digits is read as its value, and whatever follows its first non-digit is ignored |
| `Js.ParseIntSign` | src/renderer/components/SettingsModal.tsx:65 | a leading `-` negates the value, a leading `+` changes nothing, and neither turns `NaN` into a number |
| `Js.ParseIntDigits` | src/renderer/components/SettingsModal.tsx:65 | the digits of a natural number parse back to it |
| `Js.ParseIntNegativeDigits` | src/renderer/components/SettingsModal.tsx:65 | a minus sign followed by the digits of a number parses to its negation |
| `Js.ParseIntDecimal` | src/renderer/components/SettingsModal.tsx:39-65 | `parseInt(String(n), 10) == n` for every integer `n`, derived from the digit and sign lemmas |
| `Schema.ThemeName` | src/main/main.ts:39 | each theme's stored name is `light`, `dark` or `system` respectively |
| `Schema.ParseTheme` | src/main/main.ts:66-70 | the enum check accepts a string only when it names a theme |
| `Schema.ParseThemeName` | src/main/main.ts:66-70 | every theme's name passes the enum check as that theme, and only that name does |
| `Vault.MachineId` | src/main/main.ts:11 | host name, platform, architecture and first CPU model joined by hyphens; no identifier (a throw) exactly when no CPU is listed |
| `Vault.MachineIdCollides` | src/main/main.ts:11 | two different hosts yield the same identifier |
| `Vault.PassphraseCollides` | src/main/main.ts:10-13 | on any platform, two different hosts derive the same passphrase |
| `Vault.CipherHypothesesSatisfiable` | src/main/main.ts:16-28 | some platform meets both the round trip on well-formed text and well-formed decoding |
| `Vault.MachineSecret` | src/main/main.ts:10-13 | the passphrase exists exactly when a CPU is listed, and is then the SHA-256 hex digest of the machine identifier |
| `Vault.Encrypt` | src/main/main.ts:16-18 | a ciphertext, AES under the machine passphrase, exactly when a CPU is listed and the text is well-formed; otherwise the missing-CPU error, which comes first, or `URI malformed` |
| `Vault.LoneSurrogateRefused` | src/main/main.ts:16-18 | encrypting `'\uD800'` throws `URI malformed` |
| `Vault.Decrypt` | src/main/main.ts:20-28 | total: a successful decoding under the machine passphrase gives its text; a passphrase or decoding failure gives `''` |
| `Vault.DecryptWellFormed` | src/main/main.ts:20-28 | when UTF-8 decoding yields only well-formed text, so does `decrypt` |
| `Vault.StoredApiKey` | src/main/main.ts:75-79 | an empty stored ciphertext reads as `''`, any other as its decryption |
| `Vault.DecryptEncrypt` | src/main/main.ts:16-28 | under the cipher's round trip, decrypting what `encrypt` produced gives the plaintext; it applies to every key `encrypt` accepts |
| `Vault.StoredApiKeyRoundTrip` | src/main/main.ts:75-85 | under the round trip, every key `encrypt` accepts reads back as itself, or as `''` when its ciphertext is empty |
| `Vault.EmptyCiphertextSkipsDecrypt` | src/main/main.ts:77 | an empty ciphertext reads as `''` even when the cipher would decrypt it to something else |
| `Gateway.ContainsJapanese` | src/main/main.ts:321 | true if and only if some code unit lies in 0x3000–0x303F, 0x3040–0x309F, 0x30A0–0x30FF, 0xFF00–0xFF9F or 0x4E00–0x9FAF |
| `Gateway.Labels` | src/main/main.ts:322 | the source and target labels always differ: (日本語, 英語) for Japanese, (英語, 日本語) otherwise |
| `Gateway.SystemPrompt` | src/main/main.ts:325-328 | the prompt names the target language right after its fixed opening |
| `Gateway.ProxyUrl` | src/main/main.ts:305-306 | a URL exists if and only if the proxy is enabled and the host is non-empty, and it is `http://` user `:` password `@` host `:` port |
| `Gateway.ProxyUrlWithoutCredentials` | src/main/main.ts:306 | with empty credentials the URL starts `http://:@`, the host follows, and the port reads back from the tail |
| `Gateway.TranslateText` | src/main/main.ts:287-351 | no request if and only if the key is empty or the text exceeds 3000 code units; the key check is first; the error values; the request carries the key, text, proxy URL, model and token limit; a failure's error is non-empty |
| `Gateway.RejectionMakesNoCall` | src/main/main.ts:289-297 | a rejected text gives the same result whatever the endpoint would do |
| `Gateway.LengthLimitIsInclusive` | src/main/main.ts:295-297 | exactly 3000 code units pass the length check, 3001 do not |
| `Gateway.LabelsFollowDetection` | src/main/main.ts:320-349 | a reply's labels are complementary and follow the detection, the prompt asks for the reported target, and an endpoint failure comes back as `翻訳エラー: ` plus its message |
| `Gateway.EmptyTextIsSent` | src/main/main.ts:287-297 | empty text with a key set is sent, with Japanese as the target |
| `Gateway.BelowIdeographicIsEnglish` | src/main/main.ts:321 | text whose code units all lie below U+3000 is detected as English |
| `Gateway.HelloWorldExample` | src/main/main.ts:342-346 | an English sentence gets the labels (英語, 日本語) and the endpoint's text as its translation |
| `MainProcess.SettingsStore.constructor` | src/main/main.ts:43-72 | a new store holds the schema defaults: no ciphertext, proxy disabled on port 8080, theme `system` |
| `MainProcess.SettingsStore.GetApiKey` | src/main/main.ts:75-79 | the stored key as `Vault.StoredApiKey` reads it: `''` for an empty ciphertext, the decryption otherwise |
| `MainProcess.SettingsStore.SaveApiKey` | src/main/main.ts:82-85 | only the ciphertext changes, to `encrypt(k)`; the save succeeds exactly when a CPU is listed and `k` is well-formed, and otherwise throws `encrypt`'s error and writes nothing; under the round trip a non-empty ciphertext reads back as `k` |
| `MainProcess.SettingsStore.SaveProxyConfig` | src/main/main.ts:365-368 | the proxy settings are replaced whole; the call succeeds |
| `MainProcess.SettingsStore.GetProxyConfig` | src/main/main.ts:371-373 | the stored proxy settings |
| `MainProcess.SettingsStore.SaveTheme` | src/main/main.ts:376-379 | a valid theme name is stored; any other name throws the schema error and changes nothing |
| `MainProcess.SettingsStore.GetTheme` | src/main/main.ts:382-384 | the returned name always passes the enum check as the stored theme |
| `MainProcess.SettingsStore.TranslateText` | src/main/main.ts:287-292 | the handler runs the gateway on the decrypted stored key and the stored proxy settings; with no ciphertext it answers the missing-key error |
| `MainProcess.SaveThenTranslate` | src/main/main.ts:82-85 | for any key, including `''`: the save succeeds exactly when a CPU is listed and the key is well-formed; after it, the translation runs on that key, or answers the missing-key error when the key or its ciphertext is empty; a failed save throws `encrypt`'s error and keeps the stored ciphertext; the proxy settings and theme are untouched |
| `TranslatorPage.Received` | src/renderer/components/TranslatorPage.tsx:92-100 | the reply as the page reads it: it carries an error exactly when the gateway failed |
| `TranslatorPage.GatewayFailuresAreShown` | src/renderer/components/TranslatorPage.tsx:94-95 | every gateway failure reaches the page as a truthy error, and nothing else does |
| `TranslatorPage.Page.constructor` | src/renderer/components/TranslatorPage.tsx:8-15 | empty texts and labels, not translating, no error, no key known |
| `TranslatorPage.Page.TranslateEnabled` | src/renderer/components/TranslatorPage.tsx:198 | the translate button is enabled if and only if not translating and the source is not blank |
| `TranslatorPage.Page.CheckApiKey` | src/renderer/components/TranslatorPage.tsx:21-37 | `isApiKeySet` records whether the key is non-empty and the settings open when it is empty; a rejection changes nothing |
| `TranslatorPage.Page.EditSource` | src/renderer/components/TranslatorPage.tsx:150-151 | typing replaces the source text |
| `TranslatorPage.Page.StartTranslate` | src/renderer/components/TranslatorPage.tsx:77-89 | blank text sets the empty-text error and makes no call; no key sets the key error and opens the settings; otherwise busy, error cleared, one translate call |
| `TranslatorPage.Page.FinishTranslate` | src/renderer/components/TranslatorPage.tsx:91-105 | an error reply or a rejection sets the error and leaves the result alone; otherwise the three fields take the reply with `''` fallbacks; busy is cleared on every path |
| `TranslatorPage.Page.HandleTranslate` | src/renderer/components/TranslatorPage.tsx:76-106 | the whole handler: the guards in order, the single call, `isTranslating` false afterwards, the reply's fields taken on success, and the result and both language labels left alone on an error reply or a rejection |
| `TranslatorPage.Page.HandleClear` | src/renderer/components/TranslatorPage.tsx:109-112 | both texts become `''` and the error is cleared |
| `TranslatorPage.Page.HandleCopy` | src/renderer/components/TranslatorPage.tsx:121-135 | nothing happens without a result; otherwise one copy call, and the indicator shows once the copy succeeds |
| `TranslatorPage.Page.HandlePaste` | src/renderer/components/TranslatorPage.tsx:138-147 | one clipboard read; the source is replaced only by non-empty clipboard text |
| `TranslatorPage.Page.OnKeyDown` | src/renderer/components/TranslatorPage.tsx:44-66 | a Ctrl/Cmd+C within 500 ms of the previous one is taken over and pastes; every Ctrl/Cmd+C sets `lastCopyTime` to now; other keys change nothing |
| `TranslatorPage.DoublePress` | src/renderer/components/TranslatorPage.tsx:41-64 | on a fresh listener, the first press does not paste and the second pastes if and only if it comes less than 500 ms later |
| `SettingsModal.DefaultPortText` | src/renderer/components/SettingsModal.tsx:17 | the initial port text `'8080'` is the decimal rendering of the default port |
| `SettingsModal.PortText` | src/renderer/components/SettingsModal.tsx:39 | the loaded port text is never empty, is `'8080'` without a stored port, and parses back to the stored port |
| `SettingsModal.SavedPort` | src/renderer/components/SettingsModal.tsx:65 | `parseInt(text, 10)` with the 8080 fallback: the parsed value when non-zero, 8080 for `NaN` or 0, never 0 |
| `SettingsModal.PortSurvivesReload` | src/renderer/components/SettingsModal.tsx:39-65 | a stored port survives loading and saving again, except that 0 becomes 8080 |
| `SettingsModal.Form.constructor` | src/renderer/components/SettingsModal.tsx:14-22 | empty fields, port `'8080'`, proxy disabled, not saving, no error, no success |
| `SettingsModal.Form.ProxyConfigToSave` | src/renderer/components/SettingsModal.tsx:62-68 | `enabled`, host, user name and password pass through unchanged; the port is the parsed field |
| `SettingsModal.Form.LoadSettings` | src/renderer/components/SettingsModal.tsx:26-46 | a non-empty saved key replaces the field; stored proxy settings replace the fields with `''` and `'8080'` fallbacks; a rejection ends the load where it happens |
| `SettingsModal.Form.ShowProxy` | src/renderer/components/SettingsModal.tsx:37-41 | each proxy field takes the stored value; host, user name and password fall back to `''` and the port text to `'8080'` |
| `SettingsModal.Form.EditPort` | src/renderer/components/SettingsModal.tsx:164 | typing replaces the port text |
| `SettingsModal.Form.SelectTheme` | src/renderer/components/SettingsModal.tsx:117 | the chosen theme is handed to the shell |
| `SettingsModal.Form.HandleCancel` | src/renderer/components/SettingsModal.tsx:82-84 | the form closes without saving |
| `SettingsModal.Form.BeginSave` | src/renderer/components/SettingsModal.tsx:53-55 | saving, no error, no success |
| `SettingsModal.Form.FinishSave` | src/renderer/components/SettingsModal.tsx:57-78 | the key is saved, then the proxy settings; success schedules the close; the first failure stops the sequence and sets the prefixed error; not saving afterwards |
| `SettingsModal.Form.HandleSave` | src/renderer/components/SettingsModal.tsx:52-79 | not saving afterwards; success if and only if both saves completed; success and error exclude each other; the calls made, in order |
| `App.Added` | src/renderer/components/App.tsx:58 | `classList.add`: the token is present afterwards and no other token's presence changes |
| `App.Removed` | src/renderer/components/App.tsx:60 | `classList.remove`: the token is absent afterwards and no other token's presence changes |
| `App.RemovedAbsent` | src/renderer/components/App.tsx:60 | removing an absent token leaves the list as it was |
| `App.ThemedClasses` | src/renderer/components/App.tsx:56-62 | `dark-theme` is present if and only if the theme is dark, or system under a dark OS preference; no other class changes |
| `App.ThemedClassesIdempotent` | src/renderer/components/App.tsx:56-62 | applying a theme twice is the same as applying it once |
| `App.LightOnlyWhenAsked` | src/renderer/components/App.tsx:57-61 | the class is absent if and only if the theme is light, or system under a light OS preference |
| `App.ThemeOrSystem` | src/renderer/components/App.tsx:28-29 | a missing or empty stored theme falls back to `system` |
| `App.Shell.constructor` | src/renderer/components/App.tsx:9-10 | theme `system`, no error |
| `App.Shell.ApplyTheme` | src/renderer/components/App.tsx:56-62 | the body's class list becomes the themed list; nothing else on the page changes |
| `App.Shell.LoadTheme` | src/renderer/components/App.tsx:16-34 | without the bridge, an error and the theme neither read nor applied; otherwise the stored theme, or `system`, is both the state and the applied theme; a rejection sets the prefixed error |
| `App.Shell.HandleThemeChange` | src/renderer/components/App.tsx:65-72 | the state becomes the new theme and it is applied before it is saved; it is saved only when the bridge is present |

## Left out

- Window, menu, about dialog and the Electron lifecycle (src/main/main.ts:88-285, 398-412): user-interface plumbing with no rule to state.
- AES, SHA-256 and the `os` lookups are not modelled internally. They are opaque fields of `Vault.Platform`. AES's random salt is a parameter. The round trip on well-formed text and the well-formedness of decoded text are hypotheses, not proved facts. Only the UTF-8 encoding step of the cipher is modelled, as the well-formedness test in `Vault.Encrypt`.
- The chat-completion client: its outcome is an input. The `temperature` of 0.3 is a floating-point constant passed through and is not part of the request record. A reply with no `choices[0]` is not modelled.
- The `fetch` wrapper and how the proxy is used for transport: only the URL string is modelled.
- The `copy-to-clipboard` and `paste-from-clipboard` handlers (src/main/main.ts:387-395): operating-system I/O. The renderer sees their outcomes as inputs.
- src/main/preload.ts, src/renderer/types.d.ts and src/renderer/index.tsx: a bridge with no logic, type declarations and the React bootstrap.
- JSX rendering, focus handling, console logging and the `onOpenSettings` subscription that opens the form in the shell.
- `setTimeout`: the copy indicator's reset after 1500 ms is not modelled. The form's delayed close is only recorded as a call.
- Async interleaving: each handler runs atomically on the outcomes of its awaits. In the keydown listener `lastCopyTime` is updated after the awaited paste, so a press arriving while a paste is pending sees the older time. `TranslatorPage.Page.OnKeyDown` does not model that interleaving.
- `Js.ParseInt`: the digits are read as an exact integer. JavaScript rounds values beyond 2^53 to the nearest double, and that rounding is not modelled.
- `Js.Decimal`: JavaScript writes numbers of 10^21 or more in exponent form, and a stored non-integer port would print with a fraction. The model writes plain integer digits.
- `MainProcess.SettingsStore.SaveApiKey`: the messages of the errors thrown when no CPU is listed and when the key has an unpaired surrogate are the ones V8 produces, fixed in `Vault.MissingCpuError` and `Vault.UriMalformedError`.
- `MainProcess.SettingsStore.SaveTheme`: the store's schema check is modelled as the enumeration test alone. The text of the error it throws, fixed in `MainProcess.ThemeSchemaError`, follows the schema library's message format; it does not occur in the application's source.
- `MainProcess.SettingsStore.SaveProxyConfig`: the store's schema checks on proxy field types are not modelled. The form only ever sends well-typed values.
- `SettingsModal.Form.LoadSettings`: `enabled` is copied as stored, even when it is absent. A stored `port` is taken to be an integer.
