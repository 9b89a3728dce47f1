# Soul: request, response and session logic

Soul is a Next.js application. It places a person from a subject photo into a reference scene using a hosted image model, lets the user refine the result in a chat, and turns it into a short video. Nearly all of it is UI and calls to hosted models. This project models the deterministic logic around those calls and proves what it does:

- **Image-generation endpoint** (`generate_route.dfy`, `prompt_builder.dfy`, `response_parts.dfy`, `data_url.dfy`):
  - checks the input;
  - builds the composite prompt from the generation parameters;
  - sends two requests, each with a variation suffix;
  - takes the first inline image of the first candidate and wraps it as a PNG data URL;
  - succeeds only when both variations succeed.

  The prompt builder comes with a decoder. Composing a prompt and decoding it gives back the parameters, so the prompt determines them.
- **Chat-edit endpoint** (`chat_edit_route.dfy`):
  - validates the body;
  - keeps the payload between the first and second comma of the image's data URL;
  - builds the parts list (history texts, then the instruction, then the image);
  - scans the reply, where the last image and the last text win.
- **Video service** (`fal_service.dfy`):
  - the parameter validator, which collects every error in a fixed order;
  - the supported durations and resolutions;
  - the API-key check;
  - the defaults and the missing-URL error of `generateVideo`.
- **Video-prompt helper** (`gemini_service.dfy`):
  - data-URL payload extraction;
  - the candidate check and 600-character truncation of `generateVideoPrompt`;
  - the status-bearing API error;
  - the fixed fallback record of `analyzeImageContext`.
- **Two chat sessions**:
  - the editing panel (`chat_to_edit.dfy`) proposes images and commits one only through "Add to Canvas";
  - the chat page (`chat_page.dfy`) replaces its image as soon as one arrives and can reset to the original.
- **Home page** (`home_page.dfy`): the generate guard, the state updates after a reply, and the per-index image replacement.
- **Recent faces** (`recent_faces.dfy`): the most-recent-first, de-duplicated list capped at five, and the upload component that keeps it.
- **Advanced parameters** (`advanced_parameters.dfy`): single-key update, toggles, and the panel's expanded flag.

Hosted models, `fetch`, `fal.subscribe`, the file reader and `JSON.parse` are function-typed parameters. Each returns an outcome datatype (a reply, or the error it throws). Async handlers are split at their first `await` into a `Begin…` and a `Finish…` method, so the busy-guards can be stated. Strings are `seq<char>`.

## Model

| member | source | states |
|---|---|---|
| JsString.Trim | src/utils/fal.ts:94 | trimming gives the empty string exactly when the text is empty or all whitespace |
| JsString.Split | src/app/api/chat-edit/route.ts:18 | `split` yields at least one piece, no piece contains the separator, and joining the pieces with it restores the text |
| JsString.NatToStringRoundTrip | src/utils/fal.ts:155 | the decimal text of a number reads back as that number |
| DataUrl.Payload | src/app/api/chat-edit/route.ts:18 | index 1 of the comma split is missing exactly when the URL has no comma; when present it holds no comma |
| DataUrl.PayloadBetweenCommas | src/utils/gemini.ts:34 | the payload is the segment between the first and second comma, not the whole tail |
| DataUrl.PayloadOfPngDataUrl | src/app/api/generate/route.ts:115 | stripping the header of a `data:image/png;base64,` URL gives back the data it wraps |
| ResponseParts.FirstImageData | src/app/api/generate/route.ts:102-109 | none exactly when no part carries non-empty inline data; otherwise the data of the first such part, with none before it |
| ResponseParts.LastImageData | src/app/api/chat-edit/route.ts:75-81 | none exactly when no part carries inline data; otherwise the data of the last such part, with none after it |
| ResponseParts.LastText | src/app/api/chat-edit/route.ts:72-81 | the default text when no part is a text part, otherwise the text of the last one |
| ResponseParts.FirstAndLastImageDiffer | src/app/api/generate/route.ts:103-108 | with two image parts, the generate scan picks the first and the chat-edit scan the last |
| PromptBuilder.Preservations | src/app/api/generate/route.ts:33-42 | at most three instructions, and none exactly when no preservation flag is set |
| PromptBuilder.CollectPreservations | src/app/api/generate/route.ts:33-42 | the pushed instructions are the preservation list in the order clothing, accessories, expression |
| PromptBuilder.BuildPrompt | src/app/api/generate/route.ts:29-57 | the step-by-step prompt equals the composed prompt: base, However sentence, pose clause, custom clause, closing |
| PromptBuilder.PromptFrame | src/app/api/generate/route.ts:30-57 | every prompt starts with the base template and ends with the closing clause |
| PromptBuilder.EmptyParamsPrompt | src/app/api/generate/route.ts:20-57 | with no parameters the prompt is exactly the base template followed by the closing clause |
| PromptBuilder.AllPreservationsSentence | src/app/api/generate/route.ts:44-46 | with all three flags the sentence is " However, " and the three instructions joined by ", ", ending in "." |
| PromptBuilder.CustomRoundTrip | src/app/api/generate/route.ts:53-55 | the custom clause decodes back to the custom text; empty text adds nothing |
| PromptBuilder.PoseAndCustomRoundTrip | src/app/api/generate/route.ts:48-55 | the pose clause and the custom clause that follows it decode back to `copyPose` and the custom text |
| PromptBuilder.PreservationsRoundTrip | src/app/api/generate/route.ts:33-46 | a non-empty joined preservation list decodes back to the three flags and the text after it |
| PromptBuilder.MiddleRoundTrip | src/app/api/generate/route.ts:33-55 | the optional middle of the prompt decodes back to all five parameters |
| PromptBuilder.PromptRoundTrip | src/app/api/generate/route.ts:29-57 | decoding a composed prompt gives back the parameters it was built from |
| PromptBuilder.PromptInjective | src/app/api/generate/route.ts:29-57 | different parameters give different prompts |
| GenerateRoute.VariedPrompt | src/app/api/generate/route.ts:64 | the request text is the prompt, one space, then the variation |
| GenerateRoute.RequestParts | src/app/api/generate/route.ts:66-88 | five parts: reference label, reference image, subject label, subject image, varied prompt last |
| GenerateRoute.ImageResult | src/app/api/generate/route.ts:90-115 | success exactly when the call answers with candidates and some part of the first carries data; the value is a PNG data URL of the first such data; a thrown call gives its own message; no candidates gives "No image generated"; candidates without image data give "No image data in response" |
| GenerateRoute.Requests | src/app/api/generate/route.ts:13-128 | nothing is sent exactly when an image is missing or the params do not parse; otherwise one request per variation |
| GenerateRoute.RequestContents | src/app/api/generate/route.ts:63-128 | request i has five parts: the reference image and the subject image as uploaded, and last the composed prompt with variation i |
| GenerateRoute.Combine | src/app/api/generate/route.ts:125-145 | both results succeeding gives the success reply with their images in order and the unvaried prompt; otherwise a 500 "Failed to generate image" whose details are one failure's message; never a 400 |
| GenerateRoute.CombinedResults | src/app/api/generate/route.ts:111-134 | for any two requests: success exactly when both calls yield an image, the images are the calls' results in order, each a PNG data URL of non-empty data |
| GenerateRoute.Respond | src/app/api/generate/route.ts:6-147 | the 400 reply exactly when an image is missing; malformed params give a 500 whose details are the parse error; every 500 says "Failed to generate image", and after the model was asked its details are the error of one of the sent requests |
| GenerateRoute.ExtractImage | src/app/api/generate/route.ts:100-109 | the loop with `break` finds the first part's image data |
| GenerateRoute.GenerateImage | src/app/api/generate/route.ts:63-116 | one generation sends the five parts with the varied prompt, records them, and yields the extraction result of the model's answer to them |
| GenerateRoute.Post | src/app/api/generate/route.ts:6-147 | the handler answers as `Respond` does, and the parts lists it actually passes to the two generations are exactly the requests `Requests` lists |
| GenerateRoute.GeneratedIffAllSucceed | src/app/api/generate/route.ts:119-134 | success exactly when both generations succeed; then the images are their results in variation order and the prompt is the unvaried one |
| GenerateRoute.GeneratedImagesAreDataUrls | src/app/api/generate/route.ts:111-115 | every returned image is a PNG data URL around non-empty data, whatever the input MIME type |
| GenerateRoute.MissingImageSendsNothing | src/app/api/generate/route.ts:13-18 | with an image missing the reply is 400 and no model call is made |
| GenerateRoute.EitherFailureFails | src/app/api/generate/route.ts:125-145 | a single failing generation makes the whole reply a 500 |
| ChatEditRoute.InstructionQuotesMessage | src/app/api/chat-edit/route.ts:39-41 | the instruction holds the message verbatim between its fixed head and tail |
| ChatEditRoute.InstructionInjective | src/app/api/chat-edit/route.ts:39-41 | different messages give different instructions |
| ChatEditRoute.ConversationParts | src/app/api/chat-edit/route.ts:27-49 | the history length plus two parts: one "role: content" text per entry in order, then the instruction, then the `image/png` part |
| ChatEditRoute.BuildConversationParts | src/app/api/chat-edit/route.ts:27-49 | the `forEach`/`push` loop builds those parts; absent history counts as empty |
| ChatEditRoute.Request | src/app/api/chat-edit/route.ts:10-49 | a request is built exactly when message and image URL are non-empty and the payload segment exists and is non-empty |
| ChatEditRoute.EditResult | src/app/api/chat-edit/route.ts:55-93 | a thrown call is the 500 with its message; no candidates is the fixed apology without image; otherwise the text is the last text part (or the default) and the image, present exactly when some part has data, is the PNG data URL of the last image data |
| ChatEditRoute.Respond | src/app/api/chat-edit/route.ts:8-104 | a body that is not JSON gives the 500; missing fields give 400; present fields without a non-empty payload give 400 "Invalid image data"; a well-formed request answers with the edit result of the model's reply |
| ChatEditRoute.ScanParts | src/app/api/chat-edit/route.ts:71-82 | the loop ends with the last image data and the last text, or the default text |
| ChatEditRoute.Post | src/app/api/chat-edit/route.ts:6-106 | the handler answers as `Respond` does and sends the request only when it is well formed |
| ChatEditRoute.NoCommaIsInvalidImage | src/app/api/chat-edit/route.ts:18-24 | an image URL without a comma gives the 400 "Invalid image data" and no model call |
| ChatEditRoute.EmptyPayloadIsInvalidImage | src/app/api/chat-edit/route.ts:18-24 | a PNG data URL with an empty payload gives the 400 "Invalid image data" and no model call |
| ChatEditRoute.ReturnedImageRoundTrips | src/app/api/chat-edit/route.ts:18-93 | for every reply with image data, the returned image sent back as the next current image makes the model receive exactly that data |
| ChatEditRoute.OwnImageAccepted | src/app/api/chat-edit/route.ts:18-49 | a PNG data URL like those the endpoints return is accepted, and its data is sent as the image part |
| ChatEditRoute.ZeroCandidatesIsSuccess | src/app/api/chat-edit/route.ts:60-66 | zero candidates is a success with the fixed apology and no image |
| ChatEditRoute.LastImageWins | src/app/api/chat-edit/route.ts:74-87 | with two image parts the reply carries the second |
| FalVideo.Collect | src/utils/fal.ts:139-162 | the collected errors are no more than the checks, and none exactly when no check failed |
| FalVideo.CollectMembership | src/utils/fal.ts:139-162 | with distinct messages, a message is reported exactly when its check failed |
| FalVideo.CollectSubsequence | src/utils/fal.ts:139-162 | the reported errors keep the order in which the checks run |
| FalVideo.ValidationErrors | src/utils/fal.ts:139-162 | at most five errors |
| FalVideo.Reported | src/utils/fal.ts:139-162 | each of the five messages is reported exactly when its own check fails |
| FalVideo.ErrorsIff | src/utils/fal.ts:141-161 | bad URL (empty, or neither "http" nor "data:" prefix), blank prompt, prompt over 600, duration outside [1, 10] and unknown resolution are each reported exactly when they hold |
| FalVideo.ErrorsInFixedOrder | src/utils/fal.ts:139-162 | the errors are distinct and in the order image, prompt required, prompt length, duration, resolution |
| FalVideo.PromptLengthBoundary | src/utils/fal.ts:149-151 | a 600-character prompt passes the length check and a 601-character one fails it |
| FalVideo.DurationErrorText | src/utils/fal.ts:153-156 | the duration error names both bounds: "between 1 and 10 seconds" |
| FalVideo.ResolutionErrorText | src/utils/fal.ts:158-161 | the resolution error lists "720p, 1080p, 480p" |
| FalVideo.DefaultsAreValid | src/utils/fal.ts:41-42 | the default duration and resolution pass validation for any good URL and prompt |
| FalVideo.EverythingWrong | src/utils/fal.ts:139-166 | an empty URL, empty prompt, zero duration and unknown resolution give exactly four errors in order |
| FalVideo.FalService.constructor | src/utils/fal.ts:27-33 | the service keeps the key it was given |
| FalVideo.FalService.ValidateApiKey | src/utils/fal.ts:91-105 | the key is accepted exactly when it has a non-whitespace character |
| FalVideo.FalService.SupportedResolutions | src/utils/fal.ts:110-112 | three resolutions, including the default "720p" |
| FalVideo.FalService.SupportedDurations | src/utils/fal.ts:117-123 | the default duration lies within the range |
| FalVideo.ValidationSteps | src/utils/fal.ts:139-162 | the five conditional pushes, one after another, leave exactly the collected validation errors |
| FalVideo.FalService.ValidateParameters | src/utils/fal.ts:128-167 | the pushed errors are the validation errors, and `valid` holds exactly when there are none |
| FalVideo.FalService.GenerateVideo | src/utils/fal.ts:38-86 | the request carries duration 6 and resolution "720p" unless given, is sent unvalidated, and the result is the video outcome of the reply |
| FalVideo.VideoOutcome | src/utils/fal.ts:57-81 | success exactly when the reply has a non-empty video URL, which is returned; a reply without one is "No video URL returned from Fal.ai API" |
| GeminiVideo.TruncateVideoPrompt | src/utils/gemini.ts:110-112 | never over 600 characters; text of at most 600 is unchanged; longer text keeps its first 597 characters and ends in "..." |
| GeminiVideo.TruncateIdempotent | src/utils/gemini.ts:110-112 | truncating twice is truncating once |
| GeminiVideo.TruncatedPromptFitsValidator | src/utils/gemini.ts:110-112 | a truncated prompt never draws the video validator's length error |
| GeminiVideo.ImageToBase64 | src/utils/gemini.ts:24-43 | fetch failures are wrapped with the conversion prefix, reader failures pass through, and a read gives the payload, missing exactly when there is no comma |
| GeminiVideo.ImageToBase64OfDataUrl | src/utils/gemini.ts:33-35 | a data URL gives back the data after its comma |
| GeminiVideo.ApiErrorNamesStatus | src/utils/gemini.ts:96-99 | the API error starts with "Gemini API error: " followed by the status digits, which read back as the status |
| GeminiVideo.GeminiService.constructor | src/utils/gemini.ts:13-19 | the service keeps the key and uses the fixed base URL |
| GeminiVideo.GeminiService.Endpoint | src/utils/gemini.ts:85-86 | the endpoint starts with the base URL and ends with the key |
| GeminiVideo.VideoPromptReply | src/utils/gemini.ts:48-118 | a network or body error passes through; a non-OK status fails with the API error built from the status and the body's error message; no candidates fails with "No response generated from Gemini"; a first part without text is a type error; otherwise the result is that text cut to 600 characters |
| GeminiVideo.AnalysisReply | src/utils/gemini.ts:123-194 | a network or body error passes through; a non-OK status fails with "Gemini API error: " and the status; a missing candidate or first part is a type error; a first part without text gives the fallback; text gives its parse, or the fallback when it does not parse |
| GeminiVideo.AnalysisErrorNamesStatus | src/utils/gemini.ts:172-174 | the analysis error is the prefix followed by digits that read back as the status |
| GeminiVideo.FirstCandidate | src/utils/gemini.ts:101-107 | the first candidate, missing exactly when `candidates` is missing or empty |
| GeminiVideo.ErrorMessageOf | src/utils/gemini.ts:96-99 | the body's error message, or none when the body does not parse |
| GeminiVideo.GeminiService.GenerateVideoPrompt | src/utils/gemini.ts:48-118 | a failed read fails with `imageToBase64`'s error; otherwise the result is `VideoPromptReply` of the reply to the request with the video instruction, the payload and 200 tokens; a returned prompt is never over 600 characters |
| GeminiVideo.GeminiService.AnalyzeImageContext | src/utils/gemini.ts:123-194 | a failed read fails with `imageToBase64`'s error; otherwise the result is `AnalysisReply` of the reply to the request with the analysis instruction, the payload and 300 tokens |
| GeminiVideo.GeminiService.AnalysisOfText | src/utils/gemini.ts:176-189 | for every OK reply whose first part has text: the parsed record when it parses, the fallback record when it does not |
| GeminiVideo.GeminiService.RequestFor | src/utils/gemini.ts:64-94 | the request goes to the endpoint with the given instruction, token budget and the image payload |
| GeminiVideo.GeminiService.UnparsableTextFallsBack | src/utils/gemini.ts:176-189 | text that does not parse gives the fallback record, whatever the status, error message and further candidates |
| ChatToEditPanel.ReplyMessage | src/components/ChatToEdit.tsx:47-78 | an assistant message; only a success with a non-empty image offers "Add to Canvas", carrying the image with "Here's your updated image:"; a success without one shows the reply text and no image; every failure is the one fixed error message |
| ChatToEditPanel.ConsistentAppend | src/components/ChatToEdit.tsx:19-82 | appending the message whose turn it is keeps the history alternating, user messages non-blank, "Add to Canvas" only on messages with an image, and one loading report per message |
| ChatToEditPanel.ChatToEdit.constructor | src/components/ChatToEdit.tsx:14-17 | no messages, empty input, not processing |
| ChatToEditPanel.ChatToEdit.SetInput | src/components/ChatToEdit.tsx:181-184 | the input takes the typed value unless a request is processing; nothing else changes |
| ChatToEditPanel.ChatToEdit.BeginSend | src/components/ChatToEdit.tsx:19-45 | a send goes out exactly when the input is not blank and nothing is processing; it appends the user message, clears the input, reports loading, and carries the canvas image and the earlier messages |
| ChatToEditPanel.ChatToEdit.FinishSend | src/components/ChatToEdit.tsx:47-82 | exactly one reply or error message is appended, processing ends, loading is reported false, and the canvas image is unchanged |
| ChatToEditPanel.ChatToEdit.AddToCanvas | src/components/ChatToEdit.tsx:140-146 | the canvas image becomes that message's image; the messages are unchanged |
| ChatToEditPanel.TwoUncommittedEdits | src/components/ChatToEdit.tsx:19-82 | without "Add to Canvas", a second edit still sends the original canvas image, with the first exchange as history |
| ChatPageSession.History | src/app/chat/page.tsx:73-76 | one entry per message, in order, keeping only role and content |
| ChatPageSession.ReplyMessage | src/app/chat/page.tsx:82-108 | a success shows the reply text and its image; any failure shows the one fixed error message |
| ChatPageSession.ChatPage.constructor | src/app/chat/page.tsx:28-47 | a stored session sets the image and one welcome message; a missing or unparsable one leaves no session and no messages |
| ChatPageSession.ChatPage.SetInput | src/app/chat/page.tsx:242-246 | the input takes the typed value unless loading; nothing else changes |
| ChatPageSession.ChatPage.BeginSend | src/app/chat/page.tsx:50-78 | a send goes out exactly when the input is not blank, there is an image and nothing is loading; the body carries the image and the earlier messages' history |
| ChatPageSession.ChatPage.FinishSend | src/app/chat/page.tsx:80-111 | one message is appended, the image is replaced exactly when the reply brings one, and loading ends |
| ChatPageSession.ChatPage.Reset | src/app/chat/page.tsx:125-135 | with a session the image returns to the original and the messages become one reset message; without one nothing changes |
| ChatPageSession.RequestsHaveRequiredFields | src/app/chat/page.tsx:51-77 | a body the page sends never gets the endpoint's missing-fields error |
| ChatPageSession.AutoCommitVersusTwoStep | src/app/chat/page.tsx:94-96 | the same reply replaces the page's image at once, while the editing panel keeps its canvas and only proposes the image |
| HomePage.OutcomeOf | src/app/page.tsx:44-50 | the page sees an answer exactly when the endpoint generated, with its images and prompt |
| HomePage.Home.constructor | src/app/page.tsx:11-22 | no images chosen, nothing generated, all flags off and empty instructions |
| HomePage.Home.SetReferenceImage | src/app/page.tsx:95 | only the reference image changes |
| HomePage.Home.SetSubjectImage | src/app/page.tsx:107 | only the subject image changes |
| HomePage.Home.SetGenerationParams | src/app/page.tsx:114 | only the parameters change |
| HomePage.Home.BeginGenerate | src/app/page.tsx:24-42 | a request goes out exactly when both images are chosen, carrying them, the current parameters and the regeneration flag; otherwise only an alert is added |
| HomePage.Home.FinishGenerate | src/app/page.tsx:44-56 | an answer sets the images (or none) and the prompt (or empty); a failure keeps both; generating ends |
| HomePage.Home.ImageUpdate | src/app/page.tsx:59-65 | replaces the image at the index only; length and every other image are unchanged |
| HomePage.GenerateThroughEndpoint | src/app/page.tsx:24-57 | through the endpoint, success shows two images and the prompt composed from the page's parameters; failure keeps the images |
| RecentFaces.FilterOutUrl | src/components/SubjectImageUpload.tsx:39 | an order-keeping subsequence with no face of that URL, containing every face whose URL differs |
| RecentFaces.FilterKeepsEveryCopy | src/components/SubjectImageUpload.tsx:39 | every copy of a face with another URL survives, repeats included, and no face with the URL does |
| RecentFaces.NewFace | src/components/SubjectImageUpload.tsx:32-37 | the thumbnail is the image URL |
| RecentFaces.SaveToRecentFaces | src/components/SubjectImageUpload.tsx:31-42 | the new face first, then the faces with another URL in their old order, as many as fit in five; no other face with its URL |
| RecentFaces.FilterKeepsDistinct | src/components/SubjectImageUpload.tsx:39 | filtering keeps URLs distinct |
| RecentFaces.SaveKeepsDistinct | src/components/SubjectImageUpload.tsx:39 | saving keeps URLs distinct |
| RecentFaces.SaveExistingKeepsOthers | src/components/SubjectImageUpload.tsx:39 | re-saving a face already in a full list drops no other face |
| RecentFaces.SaveWithRoomKeepsOthers | src/components/SubjectImageUpload.tsx:39 | while the other faces fit in the four remaining places, saving drops none of them |
| RecentFaces.LoadRecentFaces | src/components/SubjectImageUpload.tsx:18-29 | the first five stored faces; nothing when absent or unparsable |
| RecentFaces.SubjectImageUpload.constructor | src/components/SubjectImageUpload.tsx:15-29 | the list is the loaded one; no preview or selection |
| RecentFaces.SubjectImageUpload.OnDrop | src/components/SubjectImageUpload.tsx:44-47 | the first dropped file is selected; the list is untouched |
| RecentFaces.SubjectImageUpload.OnFileLoaded | src/components/SubjectImageUpload.tsx:48-53 | the preview is the data URL, the face is saved, and the stored list equals the list in memory |
| RecentFaces.SubjectImageUpload.SelectRecentFace | src/components/SubjectImageUpload.tsx:67-79 | a fetched face becomes the selection and the preview; a failed fetch changes nothing |
| RecentFaces.SubjectImageUpload.ClearImage | src/components/SubjectImageUpload.tsx:81-84 | selection and preview are cleared; the list is untouched |
| AdvancedParameters.Get | src/components/AdvancedParameters.tsx:92 | a field reads as text exactly for the custom instructions |
| AdvancedParameters.UpdateParam | src/components/AdvancedParameters.tsx:16-21 | the named field takes the value and every other field is unchanged |
| AdvancedParameters.Toggle | src/components/AdvancedParameters.tsx:23-92 | a toggle flips the flag it names and nothing else |
| AdvancedParameters.ToggleTwice | src/components/AdvancedParameters.tsx:92 | toggling twice restores the parameters |
| AdvancedParameters.ToggleChangesPrompt | src/components/AdvancedParameters.tsx:92 | every toggle changes the prompt the generate endpoint builds |
| AdvancedParameters.ParametersPanel.constructor | src/components/AdvancedParameters.tsx:14 | the panel starts collapsed |
| AdvancedParameters.ParametersPanel.ToggleExpanded | src/components/AdvancedParameters.tsx:49 | expanding or collapsing never changes the parameters |
| AdvancedParameters.ParametersPanel.OnToggle | src/components/AdvancedParameters.tsx:92 | clicking a toggle applies that toggle |
| AdvancedParameters.ParametersPanel.OnCustomInstructions | src/components/AdvancedParameters.tsx:115-117 | the custom instructions are the textarea value verbatim |

## Left out

- Hosted model calls, `fetch`, `fal.subscribe`, `response.json()`, `blob()`, `FileReader` and `JSON.parse` are parameters returning outcome values. Their own behaviour is not modelled.
- Base64 encoding of uploaded files is opaque: an `ImageFile` carries its base64 text as given.
- `localStorage` is a field holding the stored value; `Date.now()` ids and upload timestamps are parameters, and id collisions are not considered.
- `Promise.all` concurrency is not modelled. Both generations are required; when both fail, the reported error is the first variation's.
- Console logging, the generation-config floats (`temperature`, `topK`, `topP`), the request MIME type `image/jpeg` and the `onQueueUpdate` callback are not modelled.
- `catch` blocks that report `'Unknown error'` for non-`Error` throwables are not modelled: every thrown value is taken to carry a message.
- JSON values are typed. A non-object `params`, a truthy non-boolean flag, or a non-string field is not modelled.
- String lengths count characters rather than UTF-16 code units, so the 600-character limits match JavaScript only for text without surrogate pairs.
- `FalVideo.DurationOutOfRange`: a `NaN` duration, which passes both comparisons in JavaScript, is not modelled.
- `HomePage.Home.ImageUpdate`: requires an index inside the list. JavaScript would extend the array with holes for a larger index; the page only passes indices of displayed images.
- `AdvancedParameters.UpdateParam`: requires the value to have the field's type (boolean for flags, text for the instructions), as the TypeScript signature implies.
- `GeminiVideo.GeminiService.AnalyzeImageContext`: the parser returns the four-field record or nothing. `JSON.parse` can return any JSON value, which is not modelled.
- `ChatPageSession.ChatPage.FinishSend`: the page does not check `response.ok`. An error body is modelled by its `success` field alone.
- The typing indicator of the editing panel is derived from its processing flag and is never a message. The panel's `onImageUpdate` prop is never called.
- Stale React closures, render batching and events delivered while a handler is suspended are not modelled; each handler step runs atomically.
- The `GeminiVideo` instruction texts are sent unchanged; their wording is not reasoned about.
- The pure UI files, the download-extension route and the browser extension are not part of this model.
