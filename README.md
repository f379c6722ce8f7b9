# Gemini creative studio: a Dafny model of its client core

The application is a browser client with four panels over Google's generative-AI SDK:
- a chatbot grounded in Google Search, and in Google Maps when the question is about a place and a location is known;
- an image creator;
- an image editor;
- an image analyzer.

This project models the core of that client in Dafny:
- the service layer that builds each request and interprets each reply (`services/geminiService.ts`);
- the geolocation hook (`hooks/useGeolocation.ts`);
- the state machine of each of the four panels (`components/*.tsx`).

Each panel's `useState` variables become the fields of a class. Each event handler becomes a method with a `modifies` clause. The SDK call `ai.models.generateContent` becomes a function parameter `generateContent: Request -> Outcome<Response>`. So every handler's contract says what the panel shows for *any* reply the SDK could give.

Files and modules:

- `platform.dfy` (`Platform`): what the runtime hands over.
  - `Option`.
  - A thrown value: an `Error` with a message, or anything else.
  - How an awaited promise settles (`Outcome`).
  - The message a panel shows for a caught value (`ErrorText`).
  - Coordinates, and a picked file.
- `text.dfy` (`Text`): the JavaScript string built-ins the core uses.
  - `includes`.
  - `toLowerCase` on ASCII letters.
  - `trim`, with ECMAScript's whitespace set.
  - `split` on one separator character, and `join`.
- `genai.dfy` (`GenAI`): the SDK's request and response shapes, as far as the core touches them.
- `gemini_service.dfy` (`GeminiService`):
  - `fileToBase64`, `createImage`, `editImage`, `analyzeImage` and `generateChatResponse`;
  - the requests they send;
  - how they read a reply and how they turn failures into fixed messages.
- `types.dfy` (`Types`): the chat turn record.
- `use_geolocation.dfy` (`UseGeolocation`): the hook as a class with its mount effect and its two callbacks.
- `chatbot.dfy`, `image_editor.dfy`, `image_analyzer.dfy`, `image_creator.dfy`: one module per panel.

Each panel's `handleSubmit`/`handleSend` is split at its first `await`:
- `Begin…` runs the validation guard and the synchronous state updates, and returns the call to make;
- `Complete…` runs the `try`'s success branch, the `catch` and the `finally`;
- `Handle…` composes the two with the service call, and states the end state in terms of the SDK's reply.

A control that the page disables while loading (`disabled={isLoading}`) becomes a `requires !isLoading` on its handler.

## Model

| member | source | states |
|---|---|---|
| Text.Includes | services/geminiService.ts:111 | `s.includes(sub)` as a left-to-right search; `IncludesIffOccurs` characterises it |
| Text.LowerCase | services/geminiService.ts:111 | `prompt.toLowerCase()`, character by character, on ASCII letters |
| Text.Trim | components/Chatbot.tsx:24 | `input.trim()`: leading then trailing ECMAScript whitespace removed; `TrimEmptyIffBlank` characterises when it is empty |
| Text.Split | services/geminiService.ts:13 | `s.split(sep)` on one character; there is always at least one piece (the lemmas below state the rest) |
| Text.IncludesIffOccurs | services/geminiService.ts:111 | the left-to-right `includes` search answers true exactly when the keyword occurs at some position of the string |
| Text.TrimEmptyIffBlank | components/Chatbot.tsx:24 | `input.trim()` is the empty (falsy) string exactly when every character of the input is ECMAScript whitespace |
| Text.SplitJoin | services/geminiService.ts:13 | `split(',')` loses nothing: joining the pieces with the separator gives the string back, and no piece contains the separator |
| Text.SplitWithoutSeparator | services/geminiService.ts:13 | a string without the separator splits into itself alone |
| Text.SplitAfterHead | services/geminiService.ts:13 | a separator-free head, the separator, then a tail split into the head followed by the tail's pieces |
| Text.SplitManyIffSeparator | services/geminiService.ts:13 | there is a second piece (index 1 is defined) exactly when the separator occurs |
| GeminiService.StripDataUrlPrefix | services/geminiService.ts:13 | `result.split(',')[1]`: absent (undefined) exactly when the string has no comma, and otherwise comma-free |
| GeminiService.StripDataUrlPrefixSpec | services/geminiService.ts:10-14 | `result.split(',')[1]` is undefined exactly when the data URL has no comma; otherwise it is the comma-free text that starts right after the first comma and runs to the next comma or the end |
| GeminiService.DataUrlRoundTrip | services/geminiService.ts:9-13 | stripping the `data:<mime>;base64,` header from a data URL gives back exactly the base64 payload (for a comma-free MIME type and payload) |
| GeminiService.FileToBase64 | services/geminiService.ts:6-17 | a read error rejects with a value that is not an `Error`; a data URL resolves to its comma-free payload, the piece after the header |
| GeminiService.PngDataUrl | components/ImageEditor.tsx:31 | `data:image/png;base64,${data}`, the one URL form both image panels show returned data under (also components/ImageCreator.tsx line 22) |
| GeminiService.RequestShapes | services/geminiService.ts:21-98 | a summary of the request literals, read off the request functions rather than proved: the create request holds only the prompt text, the edit and analyze requests send the image part before the prompt, both image tasks ask for image output, and the analyze request has no config |
| GeminiService.CreateImageRequest | services/geminiService.ts:21-33 | the create request: the image model, one text part with the prompt, IMAGE output |
| GeminiService.EditImageRequest | services/geminiService.ts:49-67 | the edit request: the image model, the inline image part with the file's MIME type, then the prompt, IMAGE output |
| GeminiService.AnalyzeImageRequest | services/geminiService.ts:83-98 | the analyze request: the text model, the inline image part, then the prompt, no config |
| GeminiService.FirstCandidate | services/geminiService.ts:135 | `response.candidates?.[0]`: the first candidate, absent when there are no candidates or the list is empty; `FirstCandidateParts` and `GroundingSources` read through it |
| GeminiService.FirstCandidateParts | services/geminiService.ts:35 | `response.candidates[0].content.parts`: when the first candidate has content, exactly that content's parts; when defined, the first candidate's content; absent wherever that read would throw a TypeError |
| GeminiService.FirstInlineData | services/geminiService.ts:35-39 | the data of the first part, in order, that carries inline data; `FirstInlineDataIsFirst` characterises it |
| GeminiService.ImageResult | services/geminiService.ts:34-44 | the value an image task settles to for a reply; `ImageResultSpec` characterises it |
| GeminiService.FirstInlineDataIsFirst | services/geminiService.ts:35-39 | the scan finds nothing exactly when no part carries inline data; otherwise it yields the data of the first part that does, wherever it stands |
| GeminiService.ScanForInlineData | services/geminiService.ts:35-39 | the `for … of` loop with its early `return` yields the first inline data of the parts, or nothing |
| GeminiService.ImageResultSpec | services/geminiService.ts:34-44 | an image task succeeds exactly when the reply has a first candidate with parts and some part carries inline data, and then yields the first such part's data; every failure carries the task's own fixed message and nothing else |
| GeminiService.GenerateImage | services/geminiService.ts:20-44 | the shared try/catch of the image tasks: one call, the scan, and every failure (a rejected call, a missing candidate, content or parts, or no inline part) becomes the fixed message |
| GeminiService.CreateImage | services/geminiService.ts:19-45 | `createImage` resolves exactly as the create request's reply dictates, and otherwise rejects with "Failed to create image. …" |
| GeminiService.EditImage | services/geminiService.ts:47-79 | `editImage` resolves exactly as the edit request's reply dictates, and otherwise rejects with "Failed to edit image. …" |
| GeminiService.AnalyzeImage | services/geminiService.ts:81-104 | `analyzeImage` resolves exactly when the call does, to the reply's text verbatim, and otherwise rejects with "Failed to analyze image. …" |
| GeminiService.IsLocationQuery | services/geminiService.ts:110-111 | some location keyword is included in the lower-cased prompt |
| GeminiService.ChatConfigFor | services/geminiService.ts:113-127 | the chat `config` for a prompt and the known location; `ChatToolSelection` characterises it |
| GeminiService.ChatToolSelection | services/geminiService.ts:109-127 | Google Search is always the first tool; Google Maps is added together with a retrieval config exactly when a location is known and some keyword occurs in the lower-cased prompt, and then the tools are exactly Search followed by Maps and the config carries that location's latitude and longitude unchanged; otherwise Search is the only tool and there is no tool config |
| GeminiService.BuildChatConfig | services/geminiService.ts:113-127 | the statements that build `config` (start with search, push maps, set `toolConfig`) produce exactly the configuration `ChatToolSelection` characterises |
| GeminiService.ChatRequest | services/geminiService.ts:129-133 | the chat request: the text model, the prompt as plain contents, and the config `ChatConfigFor` builds |
| GeminiService.GroundingSources | services/geminiService.ts:135-139 | `response.candidates?.[0]?.groundingMetadata?.groundingChunks`, defaulted: equal to the first candidate's grounding chunks when they are present, and empty otherwise |
| GeminiService.GenerateChatResponse | services/geminiService.ts:107-145 | resolves exactly when the call does, to the reply's text and the first candidate's grounding chunks (an empty list when any link of that optional chain is missing); otherwise rejects with "Failed to get response from chatbot. …" |
| GeminiService.ChatScenarios | services/geminiService.ts:110-127 | a question with no location gets Search only; "find restaurants nearby" with a known location gets Search and Maps, with exactly that location |
| GeminiService.ImageScenarios | services/geminiService.ts:35-43 | a reply whose image follows a text part yields that image's data; a reply with text only fails with the task's message |
| Platform.ErrorText | components/Chatbot.tsx:37 | `e instanceof Error ? e.message : 'An unknown error occurred.'`, the text every panel's `catch` shows |
| UseGeolocation.GeolocationHook.constructor | hooks/useGeolocation.ts:10-14 | the hook starts with no location, no error and loading, and has requested no position |
| UseGeolocation.GeolocationHook.RunMountEffect | hooks/useGeolocation.ts:16-44 | without geolocation support the state settles on the "not supported" error with no request; otherwise exactly one position request is made and loading continues; a second run changes nothing |
| UseGeolocation.GeolocationHook.OnSuccess | hooks/useGeolocation.ts:26-32 | the position's coordinates, no longer loading, no error; the state stays consistent |
| UseGeolocation.GeolocationHook.OnError | hooks/useGeolocation.ts:34-40 | no location, no longer loading, the error is the browser's message after "Failed to get location: " |
| Chatbot.RenderSource | components/Chatbot.tsx:43-51 | a source renders as a link exactly when it has a web or a maps reference; the web reference wins; the link shows that reference's own uri and title |
| Chatbot.StatusLine | components/Chatbot.tsx:103 | the status line reads "Location services enabled." exactly when a location is known, "Loading location..." exactly when there is neither a location nor a non-empty error, and the error after "Location Error: " otherwise |
| Chatbot.StatusLineFollowsGeolocation | components/Chatbot.tsx:103 | over every state the hook can reach, the status line reads "Loading location..." exactly while loading, "Location services enabled." exactly when a location is known, and the error after "Location Error: " otherwise |
| Chatbot.ChatPanel.constructor | components/Chatbot.tsx:10-14 | an empty conversation and input, not loading, no error, and a fresh geolocation hook in its initial state |
| Chatbot.ChatPanel.SetInput | components/Chatbot.tsx:91 | typing replaces the input and changes nothing else |
| Chatbot.ChatPanel.BeginSend | components/Chatbot.tsx:23-30 | blank input changes nothing and makes no call; other input is appended untrimmed as a user turn, the input is cleared, loading starts, the error is cleared, and the call carries that input and the current location |
| Chatbot.ChatPanel.CompleteSend | components/Chatbot.tsx:32-40 | a reply appends a model turn with its text and sources; a failure appends nothing and shows the error's message (or the unknown-error text); loading always ends; the conversation keeps its shape |
| Chatbot.ChatPanel.HandleSend | components/Chatbot.tsx:23-41 | a send of non-blank input appends the user turn, then the model turn built from the reply, or only the user turn plus the chat failure message; messages are only ever appended |
| ImageEditor.EditorPanel.constructor | components/ImageEditor.tsx:8-12 | no image, no edited image, an empty prompt, not loading, no error |
| ImageEditor.EditorPanel.GenerateEnabled | components/ImageEditor.tsx:85 | the Generate button is enabled (it is disabled while loading or while the prompt is empty): not loading and a non-empty prompt; `BeginSubmit` makes the call exactly when it holds and an image is picked |
| ImageEditor.EditorPanel.SelectFile | components/ImageEditor.tsx:14-18 | the picked file becomes the original image; the edited image and the error are cleared |
| ImageEditor.EditorPanel.SetPrompt | components/ImageEditor.tsx:69-73 | typing replaces the prompt and changes nothing else |
| ImageEditor.EditorPanel.BeginSubmit | components/ImageEditor.tsx:20-27 | the call is made exactly when the prompt is non-empty and an image is picked; otherwise only the validation message is set; starting clears the error and the edited image |
| ImageEditor.EditorPanel.Complete | components/ImageEditor.tsx:31-36 | the returned data is shown as a PNG data URL, or the caught error's message is shown; loading ends |
| ImageEditor.EditorPanel.HandleSubmit | components/ImageEditor.tsx:20-37 | the picked file's payload is sent with the prompt and the file's MIME type; the reply's first inline image is shown as PNG; a read failure shows the unknown-error text and a failed edit shows the edit failure message |
| ImageEditor.EditorPanel.StartOver | components/ImageEditor.tsx:76-80 | the image, the edited image and the prompt are cleared; the error stays |
| ImageEditor.EditedImageIsPng | components/ImageEditor.tsx:31 | definitional: `PngDataUrl(d)` starts with the PNG data-URL header for every `d`; that the panel shows every edit as PNG, whatever the picked file's type, is stated by `EditorPanel.HandleSubmit` and kept by `EditorPanel.Valid` |
| ImageEditor.EditedImageRoundTrip | components/ImageEditor.tsx:31 | stripping the header of the URL shown gives the returned data back, for comma-free (base64) data |
| ImageAnalyzer.NewlinesToBreaks | components/ImageAnalyzer.tsx:87 | `analysis.replace(/\n/g, '<br />')`: no newline is left, a text without newlines renders as itself, and only the empty text renders as nothing |
| ImageAnalyzer.RenderingRoundTrip | components/ImageAnalyzer.tsx:87 | for an analysis with no `<` of its own, turning each `<br />` back into a newline recovers the analysis |
| ImageAnalyzer.AnalysisBlock | components/ImageAnalyzer.tsx:83-89 | the result block is absent exactly when the analysis is empty, and otherwise holds no newline |
| ImageAnalyzer.AnalyzerPanel.constructor | components/ImageAnalyzer.tsx:8-12 | no image, the default prompt "Describe this image in detail.", an empty analysis, not loading, no error |
| ImageAnalyzer.AnalyzerPanel.AnalyzeEnabled | components/ImageAnalyzer.tsx:72 | the Analyze button is enabled: not loading and a non-empty prompt; `BeginSubmit` makes the call exactly when it holds and an image is picked |
| ImageAnalyzer.AnalyzerPanel.SelectFile | components/ImageAnalyzer.tsx:14-18 | the picked file becomes the image; the analysis and the error are cleared |
| ImageAnalyzer.AnalyzerPanel.SetPrompt | components/ImageAnalyzer.tsx:64-68 | typing replaces the prompt and changes nothing else |
| ImageAnalyzer.AnalyzerPanel.BeginSubmit | components/ImageAnalyzer.tsx:20-27 | the call is made exactly when the prompt is non-empty and an image is picked; otherwise only the validation message is set; starting clears the error and the analysis |
| ImageAnalyzer.AnalyzerPanel.Complete | components/ImageAnalyzer.tsx:31-36 | the returned text becomes the analysis verbatim, or the caught error's message is shown; loading ends |
| ImageAnalyzer.AnalyzerPanel.HandleSubmit | components/ImageAnalyzer.tsx:20-37 | the picked file's payload is sent with the prompt and the file's MIME type; the reply's text becomes the analysis; a read failure shows the unknown-error text and a failed call the analyze failure message |
| ImageAnalyzer.AnalyzerPanel.ChangeImage | components/ImageAnalyzer.tsx:53-55 | the image is dropped, the analysis is cleared and the prompt returns to its default; the error stays |
| ImageCreator.CreatorPanel.constructor | components/ImageCreator.tsx:7-10 | an empty prompt, no image, not loading, no error |
| ImageCreator.CreatorPanel.GenerateEnabled | components/ImageCreator.tsx:48 | the Generate Image button is enabled: not loading and a non-empty prompt; `BeginSubmit` makes the call exactly when it holds |
| ImageCreator.CreatorPanel.SetPrompt | components/ImageCreator.tsx:40-44 | typing replaces the prompt and changes nothing else |
| ImageCreator.CreatorPanel.BeginSubmit | components/ImageCreator.tsx:12-19 | the call is made exactly when the prompt is non-empty; otherwise only the validation message is set; starting clears the error and the image |
| ImageCreator.CreatorPanel.Complete | components/ImageCreator.tsx:21-27 | the returned data is shown as a PNG data URL, or the caught error's message is shown; loading ends |
| ImageCreator.CreatorPanel.HandleSubmit | components/ImageCreator.tsx:12-28 | the prompt is sent; the reply's first inline image is shown as PNG, and any failure, a reply without an image included, shows the create failure message |

The panel classes also keep invariants (`Valid`) that every handler preserves:
- While loading, the input that started the call was valid, and nothing from an earlier result is shown.
- The chat log keeps its shape: each model turn follows a user turn, and every user turn is non-blank.
- Every image the editor shows is a PNG data URL.
- The geolocation state is always consistent: loading, or exactly one of a location and an error.

## Left out

- The network, the API key and the SDK client are not modelled. `ai.models.generateContent` is a function parameter from request to settled reply, so every contract holds for any reply.
- `FileReader` is not modelled. Its base64 encoding of the file's bytes is replaced by a parameter: the data URL it produced, or `None` when reading failed. The data URL of a non-empty file contains the comma that ends its `data:<mime>;base64,` header, and the data URL parameter is required to contain one.
- GeminiService.FileToBase64: a comma-free reader result is not modelled. A browser may produce one, a bare `data:`, for an empty file. `fileToBase64` would then resolve to `undefined`, and the edit or analyze call would send that as the image data. `StripDataUrlPrefixSpec` shows that `split(',')[1]` is undefined exactly in this case, but the requirement above keeps it from reaching the panels.
- The SDK's optional `text` getter and `inlineData.data` are modelled as always-present strings. An `undefined` passed on from them is not modelled.
- Asynchrony is not modelled. A handler runs from its start to its `finally` without interleaving. A second click is ruled out by the disabled controls, and no cancellation exists in the application.
- The geolocation callbacks arriving while a chat send is pending are not modelled. The chat panel reads the location when the send starts.
- JSX layout, CSS, icons, spinners, scrolling to the newest message, and `URL.createObjectURL` are not modelled. The object URL is a parameter of `SelectFile`.
- `App.tsx` (tab switching), `FileUpload`, `Spinner` and the cursor glow are not part of this model.
- `console.error` logging in the service's `catch` blocks is not modelled. It does not change what is thrown.
- Text.LowerCase: lower-cases only the ASCII letters `A`-`Z`. JavaScript's `toLowerCase` also folds other scripts, which does not affect the ASCII location keywords.
- Coordinates are opaque reals. The browser's other `GeolocationCoordinates` fields (accuracy, altitude, and so on) are not modelled.
- React StrictMode's double run of the mount effect in development is not modelled. `RunMountEffect` is idempotent instead.
- Neither the list of source links nor the message bubbles' markup is modelled; only `renderSource` on one chunk is.
- The HTML sanitisation question of `dangerouslySetInnerHTML` is not modelled. The round trip of the newline rendering is proved only for an analysis without `<`.
- Through the page, the image panels' validation guards cannot fire, because the buttons are disabled on an empty prompt and shown only once an image is picked. They are modelled anyway, for calls that bypass the button.
