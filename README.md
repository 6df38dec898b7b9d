# Nano Banana Pro AI Marketing Suite — a Dafny model of its orchestration core

The application is a thin browser front end over a remote generative-AI service. A
user types a campaign prompt; the app asks the service for a structured email
campaign, then for a hero image seeded by the campaign's visual prompt; a chat side
panel holds a conversation with a marketing assistant. All the work is remote. The
repository's own logic is the state around those calls, and that is what this
project models and proves things about:

- `Text` (`text.dfy`): JavaScript's `String.prototype.trim`, by its two scans, proved
  to return the unique infix of the input with blank margins and non-blank ends;
  and JavaScript's `length`, which counts UTF-16 code units.
- `AI` (`ai_service.dfy`), the client `AIService`: the `EmailCampaign` record; the
  request it sends for a campaign; the mapping of the campaign response to a campaign
  or an error (`"Could not parse AI response."` when the text is not JSON); the image
  request, with its fixed prompt suffix, one image, JPEG and 16:9; the data URI built
  from the first image; the lazily created chat session.
- `Chat` (`chat_sidebar.dfy`), `ChatSidebarComponent`: a class with the transcript,
  input and typing flag. `sendMessage` is split at its `await` into `BeginSend` and
  `CompleteSend`, and `SendMessage` runs both. The class invariant states that the
  transcript is a sequence of (trimmed user text, model reply) exchanges. The one
  exception is a trailing user message while a reply is awaited.
- `App` (`app_component.dfy`), `AppComponent`: a class with the fields `prompt`,
  `loading`, `campaign`, `currentImage`, `imageSize`, `isChatOpen` and
  `imageLoading`. `generateAll` and `regenerateImage` are split at their `await`s.
  A ghost field records which call is in flight. The invariant ties `loading` and
  `imageLoading` to that field. It also says that an image is shown only beside a
  campaign, and always as a JPEG data URI.

Every remote call is an input to the model: an `Outcome<T>` (`Success(value)` or
`Failure`) passed to the step that completes the call. The steps return the requests
that the app would send. For a campaign the outcome is `Success(Some(c))` when the
text parsed to `c`, and `Success(None)` when the text was not JSON. For an image it
is the list of generated images' base64 bytes. The identity of a newly created
chat session is a parameter (`handle`).

The prompt and size bindings (`SetPrompt`, `SetImageSize`) may run between the
steps of a request, as in the application. The campaign request uses the prompt
current when generation starts. The first image uses the size current when the
campaign arrives, because `regenerateImage` reads it only then. A manual
regeneration uses the size current when it starts.

Two behaviours of the code worth knowing:

- The code rejects only campaign text that is not JSON. Text that parses to some other
  shape is not detected.
- `canGenerate` compares JavaScript's `length` with 10. That is a count of UTF-16 code
  units, not of characters. A prompt of six characters above U+FFFF, such as six 😀 (U+1F600), passes the gate.

## Model

| member | source | states |
|---|---|---|
| `Text.SkipLeading` | src/components/chat-sidebar.component.ts:70 | the front scan of `trim` stops at the first non-whitespace index, and everything it skipped is whitespace |
| `Text.SkipTrailing` | src/components/chat-sidebar.component.ts:70 | the back scan of `trim` stops after the last non-whitespace character, never crossing the front scan, and everything it skipped is whitespace |
| `Text.Trim` | src/components/chat-sidebar.component.ts:70 | `trim()` returns an infix of the input whose margins are blank. It is empty exactly when the input is blank, and otherwise starts and ends with a non-whitespace character |
| `Text.TrimUnique` | src/components/chat-sidebar.component.ts:70 | any infix with blank margins and non-whitespace ends is the result of `trim()`, so the characterisation above determines it |
| `Text.TrimIdempotent` | src/components/chat-sidebar.component.ts:70 | trimming twice is trimming once |
| `Text.Utf16Length` | src/app.component.ts:26 | the `length` of a string lies between its character count and twice that |
| `Text.Utf16LengthIsLengthIffBmp` | src/app.component.ts:26 | `length` equals the character count exactly when no character lies above the Basic Multilingual Plane |
| `App.CanGenerate` | src/app.component.ts:26 | generation is allowed only when not loading and the prompt has more than 5 characters; it is always allowed when not loading and the prompt has more than 10 characters |
| `App.CanGenerateOnBmp` | src/app.component.ts:26 | without surrogate pairs, `canGenerate` holds iff the prompt has more than 10 characters and `loading` is false |
| `AI.CampaignRequestRoundTrip` | src/services/ai.service.ts:23-25 | the campaign request goes to `gemini-2.5-flash` as JSON. Its contents are exactly the fixed prefix followed by the prompt, both directions of the round trip |
| `AI.CampaignResult` | src/services/ai.service.ts:58-63 | `generateCampaign` yields a campaign iff the call succeeded and the text parsed, and then it is that campaign. Unparseable text fails with "Could not parse AI response.", and a failed call propagates |
| `AI.ImagePromptRoundTrip` | src/services/ai.service.ts:71 | the image prompt is exactly the visual prompt + ", high resolution, professional photography, marketing style, " + size, and the size is recovered from it |
| `AI.SizeOnlyReachesPrompt` | src/services/ai.service.ts:69-77 | whatever the size label, the request asks `imagen-4.0-generate-001` for one JPEG at 16:9. Two labels change only the prompt, and give equal requests iff they are equal |
| `AI.DataUriRoundTrip` | src/services/ai.service.ts:79 | the returned string is "data:image/jpeg;base64," + bytes, and the bytes are recovered from it exactly |
| `AI.ImageResult` | src/services/ai.service.ts:69-79 | `generateImage` returns a value iff the call succeeded with at least one image. The value is a JPEG data URI of the first image's bytes, and a failed call propagates |
| `AI.AIService.constructor` | src/services/ai.service.ts:16-20 | a new service has no chat session |
| `AI.AIService.GetChat` | src/services/ai.service.ts:82-92 | returns the existing session unchanged. Otherwise it creates one with the text model and the fixed system instruction. Afterwards the session is always set |
| `AI.GetChatTwice` | src/services/ai.service.ts:82-92 | two calls on one service return the same session, which is the earlier one if it existed |
| `Chat.SendableIsTrimmed` | src/components/chat-sidebar.component.ts:70-71 | a sendable text (non-empty, no whitespace at either end) is exactly a non-empty text that `trim()` leaves unchanged |
| `Chat.AcceptedText` | src/components/chat-sidebar.component.ts:70-71 | the send gate accepts iff not typing and the input is not blank, and the accepted text is the trimmed input, which is sendable |
| `Chat.ExchangesIffAlternates` | src/components/chat-sidebar.component.ts:73-83 | a settled transcript is a list of exchanges iff it has even length, user messages at even positions with sendable text, and model messages at odd positions |
| `Chat.ExchangesAppend` | src/components/chat-sidebar.component.ts:73-83 | appending one (sendable user message, model message) exchange keeps a settled transcript settled |
| `Chat.SentTexts` | src/components/chat-sidebar.component.ts:73 | the sent texts are the user messages' texts in order: the i-th is the text at position 2i, and there are half as many as messages |
| `Chat.SentTextsAppend` | src/components/chat-sidebar.component.ts:73-83 | each completed exchange adds exactly its own user text to the end of the sent texts |
| `Chat.ChatSidebar.constructor` | src/components/chat-sidebar.component.ts:65-67 | a new panel has an empty transcript, empty input and is not typing |
| `Chat.ChatSidebar.SetUserInput` | src/components/chat-sidebar.component.ts:45 | the input binding changes only the input |
| `Chat.ChatSidebar.BeginSend` | src/components/chat-sidebar.component.ts:69-80 | a blank input or typing changes nothing and sends nothing. Otherwise exactly one user message with the trimmed text is appended, the input is cleared, typing starts, and the trimmed text is sent in the service's single session |
| `Chat.ChatSidebar.CompleteSend` | src/components/chat-sidebar.component.ts:80-86 | appends exactly one model message, the reply or "Sorry, I encountered an error. Please try again.", and typing ends on both paths |
| `Chat.ChatSidebar.SendMessage` | src/components/chat-sidebar.component.ts:69-87 | a rejected send changes nothing. An accepted send makes the transcript old ++ [user(trimmed), model(reply or fallback)]: the old one is a prefix and it grows by 2. The input is cleared and typing ends |
| `Chat.FirstExchange` | src/components/chat-sidebar.component.ts:69-87 | a fresh panel sending a trimmed question records exactly that question and its reply, on a newly created session |
| `App.AppComponent.constructor` | src/app.component.ts:17-23 | the initial state: empty prompt, no campaign or image, size "1K", chat closed, no flag set |
| `App.AppComponent.SetPrompt` | src/app.component.ts:17 | the prompt binding changes only the prompt |
| `App.AppComponent.SetImageSize` | src/app.component.ts:21 | the size binding changes only the size and requests no image |
| `App.AppComponent.BeginGenerateAll` | src/app.component.ts:28-36 | when `canGenerate` is false, nothing changes and no request is issued. Otherwise `loading` is set, campaign and image are cleared, and the request is built from the prompt |
| `App.AppComponent.CompleteCampaign` | src/app.component.ts:36-56 | on success the campaign is stored, and an image is requested at once from its `visualPrompt` and the current size, with `loading` still set. On failure the alert is raised, there is no campaign or image, and `loading` is cleared |
| `App.AppComponent.BeginRegenerateImage` | src/app.component.ts:49-56 | without a campaign nothing changes. Otherwise `imageLoading` is set and the image is requested from the campaign's `visualPrompt` and the current size |
| `App.AppComponent.CompleteImage` | src/app.component.ts:56-62 | a returned image replaces the current one, and a failure keeps it. `imageLoading` and `loading` both end cleared |
| `App.AppComponent.GenerateAll` | src/app.component.ts:28-47 | a gated-off call is a no-op. Otherwise it ends with no flag set. On success it holds the campaign and the generated image (if any), and the image request used the campaign's `visualPrompt`. On failure there is no campaign or image, and the alert is raised |
| `App.AppComponent.RegenerateImage` | src/app.component.ts:49-63 | a no-op without a campaign. Otherwise the image is replaced on success and kept on failure, and `imageLoading` ends cleared |
| `App.AppComponent.ToggleChat` | src/app.component.ts:65-67 | negates `isChatOpen` and changes no other field |

## Left out

- The generative service itself is left out: `generateContent`, `generateImages`, `chats.create` and `chat.sendMessage`. Their results are parameters of the steps that complete them.
- `JSON.parse` is not modelled. Neither is the response schema. The parse result is an input (`Some(campaign)` or `None`). JSON that parses to `null` or to another shape is not modelled. The code stores it unchecked.
- If `chats.create` throws inside `sendMessage`, the code would record the fallback message. The model assumes session creation succeeds.
- If the image response's first image lacks `imageBytes`, the code builds a URI ending in "undefined". The model always takes the bytes as present.
- The model leaves out Angular plumbing: signals, `computed`, `inject`, the panel's `isOpen` input and `close` output, and templates.
- `alert` is modelled only as the notification text that `CompleteCampaign` returns. `console.error` is not modelled.
- `copyToClipboard` is left out. It is I/O with no result.
- The API key from the process environment is left out.
- Lone UTF-16 surrogates cannot occur in Dafny strings, so the model has none.
- App.AppComponent.BeginRegenerateImage: requires that no image request is in flight. The code has no such guard, but overlapping image requests are a concurrency question the code does not coordinate.
- App.AppComponent.RegenerateImage: requires `!imageLoading`, for the same reason as `BeginRegenerateImage`: overlapping image requests are not modelled.
- App.AppComponent.BeginGenerateAll: requires that no user-started image request is in flight. In the code, a generation could start during one, and the late image would then land on the new, empty campaign.
- App.AppComponent.GenerateAll: requires `!inFlight.AwaitingImage?`, as `BeginGenerateAll` does, so a generation started during a user-started image request is not modelled.
- `chat.sendMessage`'s reply text can be `undefined` (a reply without a text part), and the code then stores an undefined text in the transcript. The model's reply is always a string.
