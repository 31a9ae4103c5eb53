# Chlorocode in Dafny

A model of the core of Chlorocode. Chlorocode is a Next.js front end to the Jules coding agent. The model covers:

- **The Jules client** (`Jules`): key handling, listing sources, creating a session and sending a message. Each remote call is a function of the key and of the outcome of its `fetch`. The `JulesClient` methods are proved equal to those functions. The request each call issues is returned, so "no request is made" can be stated.
- **The chat screen** (`Chat`): `handleSendMessage` with its one-level fallback of creating a session and retrying; the live message subscription; and loading and saving the agent configuration. `ChatPage.HandleSendMessage` is proved equal to the pure `Submit`. The lemmas about `Submit` are stated over `Handle`, for any result of the resolver, and over `Resolve`.
- **The configuration modal** (`ConfigurationModal`, and its use on the chat page in `Chat`): form edits, the required-key check, and the rule, proved for the chat page, that while the client has no key the modal closes only on a submit that installs a non-blank key.
- **The settings page** (`Settings`): loading and saving the five stored fields, including a save that fails part-way; the save notification; and deleting a chat from the history.
- **The landing page** (`Landing`): the hidden five-click switch that toggles gravity.
- **The Konami-code easter egg** (`Konami`).
- **The typewriter** (`Typing`): the invariant it keeps, and proof that it finishes.
- **Shared modules**:
  - `Json`: the values the API exchanges and `JSON.stringify(data, null, 2)` as printer. `ParseNat` and `Unescape` read printed numbers and strings back; they model no code of the application and serve only as partners for the printer's round-trip lemmas.
  - `Firestore`: the chat documents and their message collections.
  - `LocalStorage`: the browser's key-value store.
  - `Text`: JavaScript `trim` and `substring`.
  - `Results`: Option and Result.

## Behaviour of the code worth knowing

- **No in-flight guard.** `handleSendMessage` does not check `isLoading` on entry. Only the send button is disabled while a send is under way. Enter without Shift in the textarea calls the handler directly, so a second send can start while the first is running (`Chat.SubmitNoEntryGuard`).
- **The created session is used once.** On fallback, the session's `name` is used only for the one retried send. The chat keeps its Firestore document id and nothing stores the created session's id, so later sends first try the Firestore document id again, and fall back whenever that request fails (`Chat.ResolveFallback`).
- **No key means an error, not an empty list.** `listSources` throws "API Key not set" before its `try` block, so without a key it fails rather than returning `[]` (`Jules.NoKeyNoRequest`). With a key, every failure becomes `[]` (`Jules.ListSourcesNeverFailsWithKey`).
- **Settings save always writes.** The settings page writes all five keys unconditionally, empty values included. The chat screen's `handleSaveConfig` writes the GitHub fields only when they are non-empty (`Settings.SaveWritesAllFive`, `Chat.ConfigRoundTrip`).

## Model

| member | source | states |
|---|---|---|
| Jules.JulesClient.constructor | chlorocode/lib/jules.ts:40-43 | the key is the argument, else the environment key, else the built-in key; it is never empty; the client keeps the build environment |
| Jules.JulesClient.SetApiKey | chlorocode/lib/jules.ts:45-47 | the key becomes the given one |
| Jules.JulesClient.HasApiKey | chlorocode/lib/jules.ts:49-51 | true exactly when the key is non-empty |
| Jules.ListSourcesRun | chlorocode/lib/jules.ts:60-80 | definition of `listSources` as a function of the key and the fetch outcome; its properties are `Jules.NoKeyNoRequest`, `Jules.ListSourcesNeverFailsWithKey` and `Jules.ListSourcesReturnsSources` |
| Jules.JulesClient.ListSources | chlorocode/lib/jules.ts:60-80 | no key: no request and "API Key not set"; with a key: one GET of the sources under that key, and the call never fails |
| Jules.NoKeyNoRequest | chlorocode/lib/jules.ts:60-131 | without a key, none of the three operations issues a request, and each fails with "API Key not set" |
| Jules.ListSourcesNeverFailsWithKey | chlorocode/lib/jules.ts:63-79 | with a key, listing succeeds; a network error or a non-2xx status gives [] |
| Jules.ListSourcesReturnsSources | chlorocode/lib/jules.ts:74-75 | a 2xx object reply gives its `sources` when truthy, else [] |
| Jules.CreateRequestShape | chlorocode/lib/jules.ts:82-113 | with a key, one POST of the session payload; an omitted owner or repo takes the environment's value, else `google` or `jules-samples`; an omitted branch takes `main` |
| Jules.CreatePayloadShape | chlorocode/lib/jules.ts:84-107 | the payload carries the prompt, the source `sources/github/<owner>/<repo>` with the environment or literal defaults, the starting branch, and a title of the prompt's first 50 characters |
| Jules.CreateSessionOutcome | chlorocode/lib/jules.ts:115-127 | non-2xx fails with its status and body; 2xx with a string `name` gives the session with that name and its short id |
| Jules.SessionOf | chlorocode/lib/jules.ts:121-127 | a session exists exactly when the reply is an object with a string `name`; its id is the last segment of the name |
| Jules.SessionPayload | chlorocode/lib/jules.ts:97-107 | definition of the create payload; its fields are stated by `Jules.CreatePayloadShape` |
| Jules.CreateSessionRun | chlorocode/lib/jules.ts:82-128 | definition of `createSession` as a function of the key, the build environment, the arguments and the fetch outcome; its properties are `Jules.CreateRequestShape`, `Jules.CreatePayloadShape` and `Jules.CreateSessionOutcome` |
| Jules.JulesClient.CreateSession | chlorocode/lib/jules.ts:82-128 | the request issued and the result match the specification of create |
| Jules.LastSegment | chlorocode/lib/jules.ts:126 | `split('/').pop()`: a suffix with no '/', either the whole name or preceded by '/' |
| Jules.LastSegmentAfterSlash | chlorocode/lib/jules.ts:126 | the text after the last '/' is the last segment |
| Jules.ShortIdOfSessionPath | chlorocode/lib/jules.ts:124-134 | a bare id, normalised to a path and split again, is that id |
| Jules.SessionPath | chlorocode/lib/jules.ts:134 | an id containing '/' is kept; any other id gets the `sessions/` prefix |
| Jules.SessionPathIdempotent | chlorocode/lib/jules.ts:134 | normalising twice is normalising once |
| Jules.MessagePayload | chlorocode/lib/jules.ts:141-143 | definition of the send payload `{prompt: message}`; stated by `Jules.SendRequestShape` |
| Jules.SendRequestShape | chlorocode/lib/jules.ts:130-144 | with a key, one POST of `{prompt}` to the normalised session path |
| Jules.SendFailsOnStatus | chlorocode/lib/jules.ts:146-150 | a non-2xx reply fails with its status and body |
| Jules.ReplyContent | chlorocode/lib/jules.ts:155-169 | the first truthy field of `response`, `text`, `content`; else the string payload; for every other non-null payload (an object without those fields, a number, a boolean, an array) its pretty print; a null payload fails |
| Jules.ReplyNeverPlaceholder | chlorocode/lib/jules.ts:156-169 | every non-null payload gives a reply, and the placeholder text appears only when the payload carries it |
| Jules.ReplyFieldExamples | chlorocode/lib/jules.ts:158-163 | `{content:"X"}` gives "X"; `{text:…}` gives that text |
| Jules.ReplyUnknownObject | chlorocode/lib/jules.ts:166-168 | an unrecognised object gives its two-space pretty print |
| Jules.StringifyHead | chlorocode/lib/jules.ts:168 | printed JSON starts with a quote, a bracket, a brace, a literal's letter, a minus sign or a digit |
| Jules.SendActivityShape | chlorocode/lib/jules.ts:171-177 | a successful send gives a `message` activity named `sessions/<raw id>/activities/latest`, with the payload as metadata |
| Jules.SendMessageRun | chlorocode/lib/jules.ts:130-178 | definition of `sendMessage` as a function of the key, the arguments and the fetch outcome; its properties are `Jules.SendRequestShape`, `Jules.SendFailsOnStatus` and `Jules.SendActivityShape` |
| Jules.JulesClient.SendMessage | chlorocode/lib/jules.ts:130-178 | the request issued and the result match the specification of send |
| Json.Put | chlorocode/lib/jules.ts:124-127 | after the update, the key reads back the value, and every other key reads as before |
| Json.Truthy | chlorocode/lib/jules.ts:158-163 | definition of JavaScript truthiness of a property read: `undefined`, `null`, `false`, `0` and `""` are falsy |
| Json.Escape | chlorocode/lib/jules.ts:168 | definition of the string escaping of `JSON.stringify`; stated by `Json.EscapeRoundTrip` and `Json.EscapePlain` |
| Json.Pretty | chlorocode/lib/jules.ts:168 | definition of the two-space indented printing of `JSON.stringify(data, null, 2)`; stated by `Jules.StringifyHead` and `Jules.ReplyUnknownObject` |
| Json.Stringify | chlorocode/lib/jules.ts:168 | definition: `Pretty` at the outermost level |
| Json.Get | chlorocode/lib/jules.ts:158-163 | a field is found exactly when a member has that key |
| Json.NatToStringRoundTrip | chlorocode/lib/jules.ts:168 | printed numbers are digit runs that read back as the number printed |
| Json.EscapeRoundTrip | chlorocode/lib/jules.ts:168 | reading an escaped string back gives the original string |
| Json.EscapePlain | chlorocode/lib/jules.ts:168 | a string with no quote, backslash or control character is printed unchanged between quotes |
| Text.Take | chlorocode/lib/jules.ts:105 | `substring(0, n)`: a prefix of length min(n, length) |
| Text.Trim | chlorocode/app/chat/page.tsx:95 | `trim()` gives a contiguous slice `s[i..j]` of the string that neither starts nor ends with white space |
| Text.IsJsSpace | chlorocode/app/chat/page.tsx:95 | definition of the characters `trim()` removes (ECMAScript WhiteSpace and LineTerminator) |
| Text.BlankIffAllSpace | chlorocode/app/chat/page.tsx:95 | `!s.trim()` exactly when every character is JavaScript white space |
| Chat.ChatPage.constructor | chlorocode/app/chat/page.tsx:22-32 | empty input, not loading, no messages, closed modal, branch "main" |
| Chat.ChatPage.LoadConfig | chlorocode/app/chat/page.tsx:44-62 | fields as loaded; a saved key is installed; otherwise the modal opens when the client has no key; afterwards the modal is never closed while the key is empty |
| LocalStorage.GetItem | chlorocode/app/chat/page.tsx:45 | an item is present exactly when its key is stored |
| LocalStorage.ItemOr | chlorocode/app/chat/page.tsx:45-48 | the stored value when present and non-empty, else the fallback |
| Chat.ChatPage.Subscribe | chlorocode/app/chat/page.tsx:64-84 | no chat or no user: no listener and no messages; otherwise one listener on the current chat |
| Chat.ChatPage.DeliverSnapshot | chlorocode/app/chat/page.tsx:75-81 | the rendered messages become the listened chat's snapshot |
| Firestore.Snapshot | chlorocode/app/chat/page.tsx:76-79 | the role and content of each stored record, in order |
| Chat.Accepted | chlorocode/app/chat/page.tsx:95 | definition of the handler's guard: a non-blank input and a signed-in user; stated by `Chat.HandleIgnoredIff` |
| Chat.Target | chlorocode/app/chat/page.tsx:102-111 | definition of the chat the send goes to: the URL id, else the id of the chat document just created |
| Chat.Handle | chlorocode/app/chat/page.tsx:94-152 | definition of the handler over any result of the resolver; its properties are `Chat.HandleIgnoredIff`, `Chat.HandleBracketsLoading`, `Chat.HandleChatDocument`, `Chat.HandleMessages`, `Chat.HandleRequests` and `Chat.HandleKeepsStore` |
| Chat.Submit | chlorocode/app/chat/page.tsx:94-152 | definition of the whole handler: `Handle` with `Resolve` as resolver; `Chat.ChatPage.HandleSendMessage` is proved equal to it |
| Chat.ChatPage.HandleSendMessage | chlorocode/app/chat/page.tsx:94-152 | screen, store and effects are those of `Submit` on the old state |
| Chat.HandleIgnoredIff | chlorocode/app/chat/page.tsx:95 | nothing happens exactly when the input is blank or no one is signed in |
| Chat.SubmitNoEntryGuard | chlorocode/app/chat/page.tsx:94-99 | a send starts the same way whether or not a send is under way |
| Chat.HandleBracketsLoading | chlorocode/app/chat/page.tsx:94-151 | an accepted send clears the input, sets loading first and clears it last, and ends not loading |
| Chat.HandleChatDocument | chlorocode/app/chat/page.tsx:102-113 | without a URL id: one chat document under the new id, titled with the first 30 characters, then navigation to it; with one: none |
| Chat.ChatPage.StartChat | chlorocode/app/chat/page.tsx:104-113 | the store gains the chat document titled with the message's first 30 characters; the effects are its creation and the navigation; the id becomes the new one |
| Firestore.AddChatKeepsValid | chlorocode/app/chat/page.tsx:105-110 | creating a chat document keeps the store's order invariant |
| Firestore.Database.AddChat | chlorocode/app/chat/page.tsx:105-110 | the store gains the chat document |
| Chat.Converse | chlorocode/app/chat/page.tsx:115-151 | definition of the handler from `if (currentSessionId)` on; its properties are `Chat.ConverseEnds`, `Chat.ConverseMessages`, `Chat.ConverseRequests` and `Chat.ConverseKeepsStore` |
| Chat.ChatPage.Reply | chlorocode/app/chat/page.tsx:115-151 | screen, store and effects are those of `Converse` with the resolver's result |
| Chat.HandleMessages | chlorocode/app/chat/page.tsx:115-145 | the target chat's snapshot grows by the user message, then the agent reply when both writes take; every other chat is unchanged |
| Chat.ConverseMessages | chlorocode/app/chat/page.tsx:115-145 | the same, for the part from `if (currentSessionId)` on |
| Chat.HandleRequests | chlorocode/app/chat/page.tsx:115-139 | the requests are the resolver's exactly when the user message was stored, and none otherwise |
| Chat.ConverseRequests | chlorocode/app/chat/page.tsx:115-139 | the same, for the part from `if (currentSessionId)` on |
| Chat.HandleKeepsStore | chlorocode/app/chat/page.tsx:116-145 | a send keeps the store's order invariant, and every chat's messages only grow |
| Chat.ConverseKeepsStore | chlorocode/app/chat/page.tsx:116-145 | the same, for the part from `if (currentSessionId)` on |
| Chat.ConverseEnds | chlorocode/app/chat/page.tsx:115-151 | the part from `if (currentSessionId)` on keeps the earlier effects, ends with lowering the loading flag, and changes nothing else on screen |
| Firestore.DbState.Append | chlorocode/app/chat/page.tsx:116-120 | the chat's log gains one record stamped with the clock; other logs are unchanged |
| Firestore.AppendKeepsValid | chlorocode/app/chat/page.tsx:116-120 | appends keep every log in strictly increasing creation order |
| Firestore.SnapshotAfterAppend | chlorocode/app/chat/page.tsx:116-120 | after one append, a listener sees the earlier messages followed by the new one |
| Firestore.AppendAll | chlorocode/app/chat/page.tsx:116-145 | definition of several message writes to one chat in a row |
| Firestore.SnapshotAfterAppends | chlorocode/app/chat/page.tsx:70-81 | after any number of appends to one chat, a listener ordered by creation time sees the earlier messages followed by exactly the new ones, in write order |
| Firestore.Database.AddMessage | chlorocode/app/chat/page.tsx:116-120 | the store's state is the append of the old state |
| Chat.Fallback | chlorocode/app/chat/page.tsx:122-139 | definition of the try/catch structure over the three exchanges; stated by `Chat.ResolveOkIff` and `Chat.ResolveNoFallbackOnSuccess` |
| Chat.Created | chlorocode/app/chat/page.tsx:128-133 | definition of the fallback's create call, each empty configured field passed as `undefined`; stated by `Chat.ResolveFallback` |
| Chat.Resolve | chlorocode/app/chat/page.tsx:122-139 | definition of the resolver: first send, create, retry; its properties are `Chat.ResolveShape`, `Chat.ResolveOkIff`, `Chat.ResolveNoFallbackOnSuccess` and `Chat.ResolveFallback` |
| Chat.ChatPage.SendWithFallback | chlorocode/app/chat/page.tsx:122-139 | the requests and the reply are those of `Resolve` |
| Chat.ResolveShape | chlorocode/app/chat/page.tsx:122-139 | no key: no requests; otherwise one to three requests under the one key, the first a send to the chat, only the second a create |
| Chat.ResolveOkIff | chlorocode/app/chat/page.tsx:122-139 | the send succeeds exactly when the first send or the retry does |
| Chat.ResolveNoFallbackOnSuccess | chlorocode/app/chat/page.tsx:123-125 | a successful first send is the only request and gives the reply |
| Chat.ResolveFallback | chlorocode/app/chat/page.tsx:125-138 | a failed first send creates one session with the configured fields or defaults; a failed create ends with its error; otherwise one retry goes to the created session's name |
| Chat.LoadedConfig | chlorocode/app/chat/page.tsx:45-55 | definition of the configuration read on mount; stated by `Chat.ConfigRoundTrip` |
| Chat.SavedConfig | chlorocode/app/chat/page.tsx:155-158 | definition of the storage after `handleSaveConfig`; stated by `Chat.ConfigRoundTrip` and `Chat.SavedConfigFrame` |
| Chat.ChatPage.HandleSaveConfig | chlorocode/app/chat/page.tsx:154-163 | storage as `SavedConfig`; the configuration and the client key take the new data; the modal closes |
| Chat.ConfigRoundTrip | chlorocode/app/chat/page.tsx:154-158 | loading after a save gives the key exactly, and each GitHub field as saved when non-empty, else as before |
| Chat.SavedConfigFrame | chlorocode/app/chat/page.tsx:154-158 | a save touches none of the other keys |
| LocalStorage.KeyValueStore.SetItem | chlorocode/app/chat/page.tsx:155 | the key maps to the value; nothing else changes |
| Chat.ChatPage.CloseConfig | chlorocode/app/chat/page.tsx:172 | the modal closes; nothing else changes |
| Chat.ChatPage.DismissConfig | chlorocode/app/chat/page.tsx:167-173 | a backdrop or X click leaves the modal as it was while the client has no key, and closes it otherwise; the key and the rest of the page are unchanged; the result is `ModalStep` of a dismissal |
| Chat.ChatPage.SubmitConfig | chlorocode/app/chat/page.tsx:154-173 | a submit passing `Validate` saves the form as `handleSaveConfig` does and closes the modal with the form's key; a rejected one shows the error and changes no storage, configuration, key or modal state; the result is `ModalStep` of the submit |
| Chat.ModalStepCloses | chlorocode/app/chat/page.tsx:167-173 | with no key, one event closes the open modal exactly when it is a submit passing validation, which leaves a non-blank key; with a key, either dismissal closes it and keeps the key |
| Chat.MandatoryModalStaysOpen | chlorocode/app/chat/page.tsx:167-173 | with no key, any run of dismissals and rejected submits leaves the modal open and the key empty |
| Chat.ModalStepsClosedOnlyWithKey | chlorocode/app/chat/page.tsx:154-173 | from a state where the modal is closed only with a key, every run of modal events keeps that so |
| Chat.ChatPage.ModalMandatory | chlorocode/app/chat/page.tsx:171 | definition of `isMandatory={!julesApi.hasApiKey()}`; used by the contract of `Chat.ChatPage.DismissConfig` |
| Chat.ModalStep | chlorocode/app/chat/page.tsx:154-173 | definition of one modal event's effect on the page's modal flag and key; the page's methods are proved equal to it and its properties are `Chat.ModalStepCloses`, `Chat.MandatoryModalStaysOpen` and `Chat.ModalStepsClosedOnlyWithKey` |
| Chat.ChatPage.SendDisabled | chlorocode/app/chat/page.tsx:325 | definition of the send button's `disabled`: a blank input or a send under way; the handler itself does not test it (`Chat.SubmitNoEntryGuard`) |
| Chat.ChatPage.EditInput | chlorocode/app/chat/page.tsx:305 | the input takes the typed value |
| Chat.ChatPage.OnKeyDown | chlorocode/app/chat/page.tsx:306-311 | Enter without Shift is exactly a send; any other key changes nothing |
| Landing.LandingPage.constructor | chlorocode/app/page.tsx:28-29 | count 0, gravity off |
| Landing.Click | chlorocode/app/page.tsx:31-42 | definition of one logo click; its properties are `Landing.ClickCases`, `Landing.ClickKeepsCountInRange`, `Landing.FiveClicksToggle` and `Landing.FiveKClicks` |
| Landing.LandingPage.HandleLogoClick | chlorocode/app/page.tsx:31-42 | the state becomes `Click` of the old state, and the count stays below five |
| Landing.ClickKeepsCountInRange | chlorocode/app/page.tsx:31-42 | the count stays in 0..4 |
| Landing.ClickCases | chlorocode/app/page.tsx:33-40 | below the fifth click, count + 1 with gravity unchanged; the fifth resets to 0 and toggles |
| Landing.FiveClicksToggle | chlorocode/app/page.tsx:34-38 | five clicks from 0 toggle gravity and return to 0 |
| Landing.FewClicksCount | chlorocode/app/page.tsx:32-40 | fewer than five clicks from 0 count up without toggling |
| Landing.FiveKClicks | chlorocode/app/page.tsx:31-42 | after 5k clicks from the start, gravity is on exactly when k is odd |
| Landing.RootClasses | chlorocode/app/page.tsx:45 | definition of the root element's class list; stated by `Landing.GravityClasses` |
| Landing.GravityClasses | chlorocode/app/page.tsx:45 | `grayscale` and `invert` are root classes exactly while gravity is on |
| Konami.KonamiCode.constructor | chlorocode/components/ui/KonamiCode.tsx:7-8 | inactive, empty sequence |
| Konami.CaseSensitive | chlorocode/components/ui/KonamiCode.tsx:9-30 | a final "A" in place of "a" never matches, and neither does an "a" pressed right after a "B" |
| Konami.Window | chlorocode/components/ui/KonamiCode.tsx:25 | definition of `[...sequence, key].slice(-10)`; stated by `Konami.WindowBounded` and `Konami.PressesAreLastKeys` |
| Konami.KeyDown | chlorocode/components/ui/KonamiCode.tsx:23-31 | definition of one key press; stated by `Konami.ActivationIff` |
| Konami.KonamiCode.HandleKeyDown | chlorocode/components/ui/KonamiCode.tsx:23-31 | the state becomes `KeyDown` of the old state; the window stays within ten keys |
| Konami.Last | chlorocode/components/ui/KonamiCode.tsx:25 | `slice(-n)` for n ≥ 1 (the component uses n = 10): the last min(n, length) elements; for n = 0 it gives the empty sequence, whereas `slice(-0)` gives the whole array |
| Konami.WindowBounded | chlorocode/components/ui/KonamiCode.tsx:25 | the window holds at most ten keys, ending with the key pressed after the earlier last nine |
| Konami.PressesAreLastKeys | chlorocode/components/ui/KonamiCode.tsx:25 | after any presses, the window is the last ten of the old window followed by the keys |
| Konami.PressesFromStart | chlorocode/components/ui/KonamiCode.tsx:25 | from the start, the window is the last ten keys pressed |
| Konami.ActivationIff | chlorocode/components/ui/KonamiCode.tsx:28-30 | a press activates exactly when the new window is the pattern, and that needs "a" after the first nine |
| Konami.FewPressesNeverActivate | chlorocode/components/ui/KonamiCode.tsx:25-30 | fewer than ten presses from the start never match |
| Konami.PatternAlwaysActivates | chlorocode/components/ui/KonamiCode.tsx:9-30 | typing the pattern matches, whatever came before |
| Konami.Activate | chlorocode/components/ui/KonamiCode.tsx:37-40 | the overlay shows, and one more expiry is pending |
| Konami.KonamiCode.ActivateCheat | chlorocode/components/ui/KonamiCode.tsx:37-40 | the state becomes `Activate` of the old state |
| Konami.Expire | chlorocode/components/ui/KonamiCode.tsx:39 | definition of a pending timer going off: inactive, one expiry fewer |
| Konami.KonamiCode.TimerFires | chlorocode/components/ui/KonamiCode.tsx:39 | the overlay hides, and one expiry fewer is pending |
| Typing.InitialConsistent | chlorocode/components/ui/TypingCode.tsx:16-18 | the initial state satisfies the typewriter's invariant |
| Typing.TypingCode.constructor | chlorocode/components/ui/TypingCode.tsx:6-18 | the script is the six source lines; the state is initial and consistent |
| Typing.StepDoneNoop | chlorocode/components/ui/TypingCode.tsx:21 | once every line is done, a step changes nothing |
| Typing.StepKeepsConsistent | chlorocode/components/ui/TypingCode.tsx:20-60 | a step keeps the invariant: earlier lines in full, later ones absent, the current one a typed prefix |
| Typing.Step | chlorocode/components/ui/TypingCode.tsx:20-60 | definition of one tick of the typing effect; its properties are `Typing.StepKeepsConsistent`, `Typing.StepFrame`, `Typing.StepProgress`, `Typing.StepDoneNoop` and `Typing.Finishes` |
| Typing.TypingCode.Tick | chlorocode/components/ui/TypingCode.tsx:20-60 | the state becomes `Step` of the old state, and stays consistent |
| Typing.StepFrame | chlorocode/components/ui/TypingCode.tsx:26-56 | a step writes only the current slot; the line index never decreases; the char index resets exactly when the line moves on |
| Typing.ShownIsPrefix | chlorocode/components/ui/TypingCode.tsx:40-48 | every shown line is its source line with a prefix of its text |
| Typing.StepProgress | chlorocode/components/ui/TypingCode.tsx:51-56 | each step before the end removes exactly one remaining tick |
| Typing.RemainingZeroIff | chlorocode/components/ui/TypingCode.tsx:20-60 | nothing remains exactly when every line is done |
| Typing.StepsKeepConsistent | chlorocode/components/ui/TypingCode.tsx:20-60 | n steps keep the invariant and remove n ticks |
| Typing.Finishes | chlorocode/components/ui/TypingCode.tsx:66-70 | after the remaining ticks, every line renders its full text |
| Typing.Classify | chlorocode/components/ui/TypingCode.tsx:101-106 | definition of a word's colour, in the source's order of tests; stated by `Typing.ColourClasses` and `Typing.GreenIffQuoted` |
| Typing.ColourClasses | chlorocode/components/ui/TypingCode.tsx:101-106 | purple, yellow and blue pick out exactly their word lists; plain is exactly the rest |
| Typing.GreenIffQuoted | chlorocode/components/ui/TypingCode.tsx:104 | green exactly for the words that start with a quote |
| ConfigurationModal.ConfigurationModal.constructor | chlorocode/components/ui/ConfigurationModal.tsx:23-24 | the form is the initial data, with no error |
| ConfigurationModal.ConfigurationModal.Reset | chlorocode/components/ui/ConfigurationModal.tsx:26-28 | the form is reset to the initial data |
| ConfigurationModal.Validate | chlorocode/components/ui/ConfigurationModal.tsx:30-39 | accepted exactly when the key has a non-space character; the accepted form is unchanged; a rejection is the required-key error |
| ConfigurationModal.ConfigurationModal.HandleSubmit | chlorocode/components/ui/ConfigurationModal.tsx:30-39 | a rejected form saves nothing and shows the error; an accepted one is passed to `onSave` |
| ConfigurationModal.ConfigurationModal.Dismiss | chlorocode/components/ui/ConfigurationModal.tsx:50-68 | a backdrop click or a click on the X reaches `onClose` exactly when the modal is not mandatory |
| ConfigurationModal.ShowsCloseButton | chlorocode/components/ui/ConfigurationModal.tsx:64-68 | definition: the X is rendered only when the modal is not mandatory; used by `Dismiss` |
| ConfigurationModal.ConfigurationModal.EditApiKey | chlorocode/components/ui/ConfigurationModal.tsx:80-83 | the key takes the value and the error clears |
| ConfigurationModal.ConfigurationModal.EditOwner | chlorocode/components/ui/ConfigurationModal.tsx:106 | the owner takes the value |
| ConfigurationModal.ConfigurationModal.EditRepo | chlorocode/components/ui/ConfigurationModal.tsx:116 | the repository takes the value |
| ConfigurationModal.ConfigurationModal.EditBranch | chlorocode/components/ui/ConfigurationModal.tsx:128 | the branch takes the value |
| Settings.SettingsPage.constructor | chlorocode/app/settings/page.tsx:40-52 | empty fields, branch "main", the default model, no notification, empty history |
| Settings.Loaded | chlorocode/app/settings/page.tsx:55-61 | definition of the form read from storage; stated by `Settings.SaveLoadRoundTrip` |
| Settings.Saved | chlorocode/app/settings/page.tsx:94-99 | definition of the storage after a save whose writes are accepted up to a point; stated by `Settings.SaveWritesAllFive`, `Settings.SavedInFull` and `Settings.PartialSave` |
| Settings.SettingsPage.LoadConfig | chlorocode/app/settings/page.tsx:55-61 | the form is the stored fields with their fallbacks |
| Settings.SaveLoadRoundTrip | chlorocode/app/settings/page.tsx:57-99 | loading after a full save gives the form back, with an empty branch or model read as its default |
| Settings.SaveWritesAllFive | chlorocode/app/settings/page.tsx:95-99 | a full save writes all five keys, empty values included, and no other key |
| Settings.SavedInFull | chlorocode/app/settings/page.tsx:95-99 | a full save sets the five keys in order |
| Settings.SettingsPage.TrySet | chlorocode/app/settings/page.tsx:95-99 | one write, skipped once a write has thrown |
| Settings.SaveStep | chlorocode/app/settings/page.tsx:95-99 | each write runs when accepted, and changes nothing when it throws or follows a throw |
| Settings.SettingsPage.WriteAll | chlorocode/app/settings/page.tsx:94-99 | storage as `Saved`; a write threw exactly when fewer than five were accepted |
| Settings.PartialSave | chlorocode/app/settings/page.tsx:94-104 | a refused save keeps exactly the writes before the first that throws |
| Settings.SettingsPage.HandleSave | chlorocode/app/settings/page.tsx:90-108 | storage as `Saved`; success and a pending dismissal exactly when all writes succeed, else the error; ends not loading |
| Settings.SettingsPage.DismissalFires | chlorocode/app/settings/page.tsx:102 | the notification clears |
| Settings.SettingsPage.EditApiKey | chlorocode/app/settings/page.tsx:253 | the key takes the value |
| Settings.SettingsPage.EditOwner | chlorocode/app/settings/page.tsx:269 | the owner takes the value |
| Settings.SettingsPage.EditRepo | chlorocode/app/settings/page.tsx:278 | the repository takes the value |
| Settings.SettingsPage.SelectModel | chlorocode/app/settings/page.tsx:206-222 | the model becomes flash or pro |
| Settings.SettingsPage.HandleDeleteChat | chlorocode/app/settings/page.tsx:110-120 | a declined confirm or a rejected delete changes nothing; otherwise the document goes and its entries leave the history |
| Firestore.Database.DeleteChat | chlorocode/app/settings/page.tsx:115 | the chat document goes |
| Firestore.WithoutChat | chlorocode/app/settings/page.tsx:116 | an entry is kept exactly when it is in the list and has another id |
| Firestore.WithoutChatAppend | chlorocode/app/settings/page.tsx:116 | filtering distributes over concatenation, so the kept entries stay in order |
| Firestore.WithoutChatKeepsOthers | chlorocode/app/settings/page.tsx:116 | a list with no entry of that id is unchanged |
| Firestore.WithoutChatIdempotent | chlorocode/app/settings/page.tsx:116 | deleting twice is deleting once |

## Left out

- Rendering, styling, animation and scrolling are left out. The model keeps only the state the handlers read and write, and the root class list of the landing page.
- Timers are pending counts, not durations. Activating the Konami code adds one expiry, and a successful settings save adds one dismissal; each firing later is a separate operation. The typewriter's random 30–80 ms delay is not modelled: a tick is its effect's next step.
- Network and Firestore transport are left out. Each `fetch` outcome is a parameter (`Jules.Fetched`), and so is each store write's acknowledgement (`Chat.Network`). Server timestamps are a counter in the store.
- Concurrency is left out. Each handler runs to its end before the next event. Two overlapping sends, which the missing entry guard allows, are not interleaved in the model.
- Authentication is left out: the signed-in user's uid is a parameter.
- `loadHistory` on the settings page is not modelled (its Firestore query, ordering and loading flag). The history list is a field with the chat documents' ids.
- `createTime` of the activity comes from the clock and is not modelled.
- JSON numbers are integers; floating point is left out. Objects are member lists, assumed to have distinct keys, as `JSON.parse` produces.
- Jules.JulesClient.constructor: the built-in test key is an arbitrary non-empty constant, not the literal of the source. The build environment (`NEXT_PUBLIC_JULES_API_KEY`, `NEXT_PUBLIC_GITHUB_OWNER`, `NEXT_PUBLIC_GITHUB_REPO`) is a parameter, `Jules.Environment`.
- Request bodies are kept as `Json` values; the `JSON.stringify` that turns them into text at jules.ts lines 112 and 141-143 is not modelled. The printer is modelled only where its text is the reply (line 168).
- Text.Take: counts characters rather than UTF-16 code units.
- Json.EscapeRoundTrip: printing escapes only the quote, the backslash and control characters. A `\u` escape of a lone surrogate half does not read back to a character, since such halves are not characters in the model.
- The chat document's `updatedAt` is not modelled.
- Jules.JulesClient.ListSources: its result is the JSON value of `sources`, not typed source records. Nothing in the core calls it.
- The TypingCode syntax highlighter's regular-expression split is not modelled; `Typing.Classify` colours one word at a time.
- TextScramble, NeonGradientBackground, the sidebar, the dashboard, the login page and the `/chat/[sessionId]` page are not part of this model.
