# mobilejs voice assistant, chat and navigation core — a Dafny model

This project models the decision-making core of the mobilejs React Native app:

- **The voice turn.** This is the `useOpenAI` hook in `hooks/useOpenAi.js`. A recording is transcribed. The transcript is sent as both the system and the user message of a chat completion. The completion's text is synthesised to speech, written to `sound.m4a` in the document directory, and played. Every request goes through one wrapper. The wrapper registers an abort controller, keeps `isLoading`, and turns a failure into one error string. Each stage raises its own flag and lowers it only after everything downstream has returned.
- **The AI video screen.** `screens/AiModules/AiVideo.js` toggles the microphone. The toggle starts or stops a recording. The recording's URI is handed to the voice turn.
- **The chat screen.** `screens/Threads/Chat.js` renders the first `"message"` item of a JSON answer. It decides whether a typed message may be sent and which thread and assistant it goes to. It decides when history is fetched. It also plays, pauses and stops a message's audio.
- **The auth forms.** These are `screens/Auth/SignIn.js` and `screens/Auth/SignUp.js`. They cover field validation, the request guard, and the alert chosen for each registration reply.
- **Navigation.** From `navigation/navigation.js`: the recursive active-route resolver, route tracking, the screen set chosen by sign-in state, and the tab options. From `utils/helpers.js`: the header mappings.

## How the model is built

**Modules.** Each source file becomes one module:

| module | source file |
|---|---|
| `OpenAi` | `hooks/useOpenAi.js` |
| `AiVideo` | `screens/AiModules/AiVideo.js` |
| `Chat` | `screens/Threads/Chat.js` |
| `SignIn` | `screens/Auth/SignIn.js` |
| `SignUp` | `screens/Auth/SignUp.js` |
| `Navigation` | `navigation/navigation.js` |
| `Helpers` | `utils/helpers.js` |

Two supporting modules sit beside them:

- `Wrappers` holds an `Option` type. `None` stands for JavaScript `undefined`.
- `Media` holds the `Sound` object of the audio library (`loaded`, `playing`). Sounds are objects, so overwriting a reference without stopping the old sound shows up as a fact about which objects change.

**Remote calls become parameters.** Every remote call (axios, FileReader, the file system, the audio library) is replaced by an outcome value the caller supplies:

- `Outcome` is `Ok`, `Cancelled` or `Failed`.
- `TurnReplies` nests these outcomes stage by stage: transcription, then completion, then speech, then persist and play.

**Recorded state.** The hook's state is the class `OpenAi.VoicePipeline`. The requests handed to the transport are recorded in `sent`, in order, each with the stage flags in effect when it left. This lets stage gating and flag timing be stated about the turn. Written files are a map from path to the written text. The FileReader is modelled by the data URL it produces: `data:`, the blob's media type (a supplied reply), `;base64,`, then the RFC 4648 base64 encoding of the blob's bytes. `None` is the `undefined` that `split(",")[1]` yields when the data URL has no comma.

**Each method against a function.** Each stage method is proved against pure functions of the supplied replies (`TurnIssued`, `TurnError`, `TurnFiles`, `TurnThrows`, …). The properties of a turn are lemmas about those functions.

**Deviations.** The following behaviours of the code are modelled as written:

- The transcription's status-200 check does not look at the text. An empty transcript is still sent to the completion endpoint.
- The completion stage checks only that `response.data` is present, not the status.
- `blobToBase64` is awaited outside the `try` in `writeToFileSystem`. A FileReader error therefore escapes every stage. `isGeneratingSpeech`, `isFetchingResponse` and `isTranscribing` stay raised (`thrown`), and `error` is left unchanged.
- `split(",")[1]` cuts the data URL at its first comma. A media type holding a comma would therefore write a piece of the type instead of the audio; the model keeps this (`OpenAi.BlobEncoding` covers only comma-free types).
- A new sound replaces `soundRef` without stopping or unloading the previous one.
- `cancelRequests` aborts the registered controllers and empties the list. It does not stop playback, lower any flag or touch `isLoading`.
- Controllers are never removed after their request settles. The list only grows until `cancelRequests` runs.
- Starting a new turn does not cancel the previous one.
- In `Chat.js`, `handleStop` unloads the sound but keeps it. After a clip has finished, pressing play raises `isPlaying` while nothing plays (`Chat.MessagePlayer.ReplayAfterFinish`).
- In `SignUp.js`, the two hints under the confirm field can never render. Their guard already demands a `.length` of at least 8 and a false `validConfirmPassword`, and the change handler sets that flag to true whenever the value has 8 UTF-16 units (`SignUp.SignUpForm.ConfirmHintsNeverShown`).

## Model

| member | source | states |
|---|---|---|
| OpenAi.ErrorMessage | hooks/useOpenAi.js:55-64 | The provider's `error.message` wins. Otherwise a string body is shown verbatim, and any other body gives the fixed text. `error.message` is used only when there is no body. The result is never empty. |
| OpenAi.ChooseVoice | hooks/useOpenAi.js:168 | A truthy voice is used as given; otherwise `"shimmer"`. Never empty. |
| OpenAi.FirstComma | hooks/useOpenAi.js:209 | `CommaIndex` is the index of the first comma: no comma lies before it, and a comma lies at it unless it is the length. |
| OpenAi.SecondPiece | hooks/useOpenAi.js:209 | `split(",")[1]` (`Base64Part`) is undefined iff the text has no comma. When defined, it contains no comma. |
| OpenAi.Base64 | hooks/useOpenAi.js:211 | The base64 text that `readAsDataURL` embeds (RFC 4648, section 4): four digits for every started group of three bytes, and never a comma. |
| OpenAi.Base64RoundTrip | hooks/useOpenAi.js:196-197 | Decoding the base64 text gives back exactly the blob's bytes, the bytes the Base64-encoded write puts on disk. |
| OpenAi.DataUrlSplit | hooks/useOpenAi.js:206-213 | Splitting a base64 data URL recovers exactly the base64 text (round trip), provided neither part holds a comma. |
| OpenAi.BlobEncoding | hooks/useOpenAi.js:206-213 | `blobToBase64` on a read blob is never undefined. Unless the media type holds a comma, it is exactly the base64 encoding of the blob. |
| OpenAi.StageGating | hooks/useOpenAi.js:104-188 | A turn issues 1 to 3 requests. The completion is issued iff transcription returned status 200, and it carries exactly the transcript. Synthesis is issued iff the completion has data, and it carries that content with the default voice. |
| OpenAi.CompletionPayload | hooks/useOpenAi.js:125-137 | The completion names model `gpt-4-1106-preview` and has two messages, system then user, both holding the instructions. |
| OpenAi.FlagsHeldDownstream | hooks/useOpenAi.js:111-157 | The completion request leaves with `isTranscribing` raised. The speech request leaves with all three stage flags raised. |
| OpenAi.CancelledTurnHasNoError | hooks/useOpenAi.js:51-52 | A cancelled stage ends the turn without setting `error`. |
| OpenAi.FailedStageSetsMessage | hooks/useOpenAi.js:50-68 | A failed remote stage ends the turn with that failure's classified message. |
| OpenAi.TranscriptionRequest | hooks/useOpenAi.js:89-109 | The transcription form goes to the transcription endpoint as multipart data. It carries the recording's URI, language `en` and model `whisper-1`. |
| OpenAi.CompletionRequest | hooks/useOpenAi.js:125-149 | The completion goes to the completions endpoint as JSON, naming model `gpt-4-1106-preview`. |
| OpenAi.SpeechRequest | hooks/useOpenAi.js:165-182 | The speech request goes to the speech endpoint as JSON. It asks `tts-1-hd` to speak exactly the given text in the chosen voice. |
| OpenAi.RequestsShareAuthorization | hooks/useOpenAi.js:99-181 | All three requests are POSTs with the key as bearer token, each to its own endpoint. Only speech asks for a blob. |
| OpenAi.AudioPath | hooks/useOpenAi.js:185 | The audio path is the document directory followed by `sound.m4a`. |
| OpenAi.PersistOnlyToFixedPath | hooks/useOpenAi.js:183-204 | The file map changes only at the fixed audio path. That happens only after all three remote stages succeed. A failed write stores its error object and creates no sound. |
| OpenAi.WrittenAudioIsTheSpeech | hooks/useOpenAi.js:183-213 | When all three remote stages succeed and the write does too, the audio file holds the base64 encoding of the speech response's bytes, and decoding it gives those bytes back. |
| OpenAi.VoicePipeline.constructor | hooks/useOpenAi.js:16-25 | Empty texts, all flags false, no error, no controllers, no sound. |
| OpenAi.VoicePipeline.HandleApiRequest | hooks/useOpenAi.js:27-75 | Appends one fresh controller and records the request. Returns the response only on success. `error` becomes the classified message only on a non-cancel failure. Stage flags, sound, files and texts are unchanged. |
| OpenAi.VoicePipeline.CancelRequests | hooks/useOpenAi.js:77-80 | Every registered controller is aborted and the list is emptied. Nothing else changes; playback and flags are untouched. |
| OpenAi.VoicePipeline.TranscribeAudio | hooks/useOpenAi.js:84-116 | Requests, controllers, error, files, sound and both texts equal the turn functions of the replies. Each stage that ran lowers its own flag, unless the reader error escaped, which leaves it raised. |
| OpenAi.VoicePipeline.SendTextToChatGpt | hooks/useOpenAi.js:119-158 | Issues the completion, then speech iff the completion answered. `chatGptResponse` is the answer's content. Error, files and sound follow the completion functions. `isFetchingResponse` ends false unless an exception escaped. |
| OpenAi.VoicePipeline.GenerateSpeechFromText | hooks/useOpenAi.js:161-191 | Issues one speech request with the chosen voice. It persists to the fixed path iff the status is 200. `isGeneratingSpeech` is lowered unless the reader error escaped. |
| OpenAi.VoicePipeline.WriteToFileSystem | hooks/useOpenAi.js:193-213 | A reader error escapes with no write and no error set. A failed write stores the error object. A successful write stores `split(",")[1]` of the blob's data URL at the path and then plays. With a comma-free media type, that text is the base64 encoding of the blob. |
| OpenAi.VoicePipeline.PlayAudioFromFileSystem | hooks/useOpenAi.js:215-231 | A missing file changes nothing. A load failure stores its error and keeps the old sound. Otherwise a fresh sound replaces the reference, and the old sound is left as it was (still playing). |
| OpenAi.VoicePipeline.StopAudioPlayback | hooks/useOpenAi.js:233-238 | A held sound is stopped (not unloaded) and the reference is cleared. Nothing else changes. |
| AiVideo.AiVideoScreen.constructor | screens/AiModules/AiVideo.js:16-21 | Camera and mic off, not recording, no recording, no sound. |
| AiVideo.AiVideoScreen.StartRecording | screens/AiModules/AiVideo.js:36-51 | `isRecording` is raised only together with a fresh recording object. A failure changes nothing. |
| AiVideo.AiVideoScreen.StopRecording | screens/AiModules/AiVideo.js:54-61 | Lowers `isRecording` and stops the recording. If the stop resolves, only the URI is kept and a voice turn runs on that same URI. The hook's requests, controllers, error, files, sound, texts and flags are then the turn functions of the replies (`TurnRanOn`). If the stop rejects, the recording is kept and the hook is untouched. |
| AiVideo.AiVideoScreen.HandleMic | screens/AiModules/AiVideo.js:106-113 | Always flips `micStatus`. While recording, it stops and runs the turn on exactly the held recording's URI. Otherwise it starts a fresh recording on the created URI and leaves the hook untouched. |
| AiVideo.AiVideoScreen.HandleVideo | screens/AiModules/AiVideo.js:102-104 | Flips `cameraStatus` only; the argument is ignored. |
| AiVideo.AiVideoScreen.SetSound | screens/AiModules/AiVideo.js:74-81 | Replacing the sound unloads the previous one. Setting the same sound leaves it untouched. |
| AiVideo.AiVideoScreen.PlayRecording | screens/AiModules/AiVideo.js:63-72 | With a truthy recording and a created sound, a fresh sound plays and the previous one is unloaded. Otherwise nothing changes. |
| AiVideo.AiVideoScreen.Unmount | screens/AiModules/AiVideo.js:74-81 | Leaving the screen unloads the held sound. |
| Chat.AnswerArray | screens/Threads/Chat.js:44-50 | An answer that fails to parse becomes the empty array; otherwise the parsed value. |
| Chat.RenderFirst | screens/Threads/Chat.js:53-54 | The first element's `content` is shown exactly when its `type` is `"message"`; otherwise `""`. A TypeError is thrown iff the element is null or undefined. |
| Chat.FirstMessageContent | screens/Threads/Chat.js:40-55 | An empty array shows `""`, and a non-empty one renders its first element. A plain object is read as an array: a positive `length` renders its `"0"` entry, otherwise `""`. Numbers, booleans and strings show `""`. A TypeError is thrown iff the answer is null or undefined, or a non-empty answer's first element is. |
| Chat.TrimStart | screens/Threads/Chat.js:315 | The result is a suffix of the input, everything cut from the front is white space, and the result does not start with white space. |
| Chat.TrimEnd | screens/Threads/Chat.js:315 | The result is a prefix of the input, everything cut from the back is white space, and the result does not end with white space. |
| Chat.Trim | screens/Threads/Chat.js:315 | The result is a prefix of the front-trimmed string with white space at neither end. |
| Chat.TrimCutsOnlyWhiteSpace | screens/Threads/Chat.js:315 | `trim` cuts only white space: the result is the slice of the input that starts where front trimming stops, and everything before and after that slice is white space. |
| Chat.TrimStartEmpty | screens/Threads/Chat.js:315 | Trimming the front empties a string iff every character is white space. |
| Chat.TrimEndEmpty | screens/Threads/Chat.js:315 | For a string not starting with white space, trimming the back empties it iff it was empty. |
| Chat.TrimEmpty | screens/Threads/Chat.js:315 | `message.trim()` is truthy iff the message has a non-white-space character. |
| Chat.MaySend | screens/Threads/Chat.js:315 | The send guard holds iff the message is a string with a non-white-space character. |
| Chat.SendMessage | screens/Threads/Chat.js:313-320 | A payload exists iff the message is a string with a non-white-space character. The thread comes from the session, or is null without one. The assistant comes from the session, or from the assistant record. |
| Chat.HistoryPath | screens/Threads/Chat.js:394 | The history path is the fixed `chat/history?sessionId=` prefix followed by the session id. |
| Chat.HistoryPathNamesSession | screens/Threads/Chat.js:394 | The session id can be read back from the path, so different sessions request different paths. |
| Chat.ChatHistory.constructor | screens/Threads/Chat.js:307 | No requests sent and an empty history. |
| Chat.ChatHistory.OnSessionChange | screens/Threads/Chat.js:389-411 | Exactly one history request is added iff the token is truthy and session data is present. It asks for that session's path with the token as bearer. The shown records become the reply's records, or stay as they were when the request fails. Otherwise nothing changes. |
| Chat.MessagePlayer.constructor | screens/Threads/Chat.js:34-36 | No sound and not playing. |
| Chat.MessagePlayer.HandleAudio | screens/Threads/Chat.js:83-101 | Resumes a held sound, or creates and plays a fresh one. Either way `isPlaying` is raised; a failed creation changes nothing. |
| Chat.MessagePlayer.HandlePause | screens/Threads/Chat.js:68-73 | With a sound held: it is paused and `isPlaying` drops. Without one: no change. |
| Chat.MessagePlayer.HandleStop | screens/Threads/Chat.js:75-81 | With a sound held: it is stopped and unloaded but kept, and `isPlaying` drops. |
| Chat.MessagePlayer.OnStatus | screens/Threads/Chat.js:103-107 | A finished status stops and unloads the sound. Any other status changes nothing. |
| Chat.MessagePlayer.OnPress | screens/Threads/Chat.js:151-152 | While playing with a sound, the sound is kept and paused and `isPlaying` drops. Not playing with a sound held, it resumes and `isPlaying` rises. With no sound, a successful creation gives a fresh, loaded, playing sound; a failed one changes nothing. |
| Chat.MessagePlayer.ReplayAfterFinish | screens/Threads/Chat.js:103-107 | After a clip finishes, pressing play again leaves `isPlaying` true with the kept sound unloaded and silent. |
| SignIn.SignInScreen.constructor | screens/Auth/SignIn.js:41-45 | Both error fields empty; no token; no requests. |
| SignIn.SignInScreen.HandleLogin | screens/Auth/SignIn.js:95-133 | Email is required, then its format is checked; the password is required. Each error is `''` when its check passes. A request is sent iff both fields are clear. The stored token is exactly `data.data.token` of the response. |
| SignUp.JsLength | screens/Auth/SignUp.js:51 | JavaScript's `.length`: a count of UTF-16 code units, between the character count and twice it. |
| SignUp.JsLengthCountsCharacters | screens/Auth/SignUp.js:51 | `.length` equals the character count exactly when no character lies outside the Basic Multilingual Plane. |
| SignUp.IsValidPassword | screens/Auth/SignUp.js:51 | True iff the password is defined, has at least 8 UTF-16 units (so it is truthy), and the input reported it invalid. |
| SignUp.IsConfirmPasswordValid | screens/Auth/SignUp.js:52 | The same test, for the confirmation field. |
| SignUp.LengthHintUnsatisfiable | screens/Auth/SignUp.js:274 | The "at least 8 characters" hint's guard can never hold. |
| SignUp.PasswordHintNeedsDisagreement | screens/Auth/SignUp.js:247-259 | When the input's report agrees with its 8-character pattern, the password hint never shows. |
| SignUp.SignUpForm.constructor | screens/Auth/SignUp.js:39-47 | Names empty, the other fields undefined, all validity flags false. |
| SignUp.SignUpForm.OnPasswordChange | screens/Auth/SignUp.js:257 | Stores the password; the confirmation state is unchanged. |
| SignUp.SignUpForm.OnPasswordValidation | screens/Auth/SignUp.js:258 | Stores the input's validity report. |
| SignUp.SignUpForm.OnConfirmChange | screens/Auth/SignUp.js:285-288 | Stores the confirmation. Sets `validConfirmPassword` iff its `.length` is at least 8 UTF-16 units. |
| SignUp.SignUpForm.MismatchHintShown | screens/Auth/SignUp.js:269 | The mismatch hint shows only for a defined confirmation that differs from the password while the flag is false. |
| SignUp.SignUpForm.LengthHintShown | screens/Auth/SignUp.js:274 | The length hint never shows. |
| SignUp.SignUpForm.ConfirmHintsNeverShown | screens/Auth/SignUp.js:269-278 | With the flag kept by the change handler, neither confirm-field hint can render. |
| SignUp.SignUpForm.HandleSignup | screens/Auth/SignUp.js:55-91 | No request unless password equals confirmation; a mismatch gives the mismatch alert. Status 200 gives success with navigation to SignIn. Another status shows the server's message. The request carries the form fields and the fixed `en`, `09210900799`, `PH`, `mobileApp`. A thrown error shows its message or a fallback, or the network alert when there is no response. A response without `data` makes the catch block throw, and then no alert appears. |
| Navigation.ActiveRouteName | navigation/navigation.js:143-152 | A name comes back only when the top-level index is in bounds. A focused route without nested state is itself the answer. |
| Navigation.ActiveRouteNameFollowsChain | navigation/navigation.js:143-152 | The resolver returns a name iff a chain of in-bounds focused routes ends at a route with no nested state. The name is that chain's last route. |
| Navigation.RouteTracker.constructor | navigation/navigation.js:685 | No route name recorded; no log lines. |
| Navigation.RouteTracker.OnReady | navigation/navigation.js:693-695 | Records the current route's name without logging. |
| Navigation.RouteTracker.OnStateChange | navigation/navigation.js:696-706 | The ref ends as the active route name, and a line is logged iff that name differs from the previous one. A resolver error changes nothing. |
| Navigation.Screens | navigation/navigation.js:709-917 | A truthy token gives the main-app set. Otherwise the set is exactly SignIn, SignUp, ResetPassword. |
| Navigation.ScreenSetsDisjoint | navigation/navigation.js:709-917 | The two sets share no name and neither repeats one. |
| Navigation.TabScreenOptions | navigation/navigation.js:169-204 | The tab bar is visible iff the route is not AiVideo. Only the six tabs get an icon. The tint is primary iff focused. |
| Navigation.TabsTitle | navigation/navigation.js:119-123 | The focused route's name, or `"DefaultRouteName"` when there is none. |
| Navigation.TabsTitleVersusHeaderTitle | navigation/navigation.js:119-123 | The stack title agrees with the tab header title on Home, Events and Threads. With no focused tab they differ: `"DefaultRouteName"` against `"Home"`. |
| Helpers.FocusedName | utils/helpers.js:15 | A missing focused name counts as `"Home"`. |
| Helpers.HeaderTitle | utils/helpers.js:14-25 | Returns its input for Home, Events and Threads, and undefined otherwise; `"Home"` when no name is given. |
| Helpers.HeaderButtons | utils/helpers.js:27-73 | Defined for the six known names only. `headerShown` is true exactly for Home, Events, Threads and AiVideo. Events' right button targets NewEvent. AiVideo has a null `headerRight` and is the only one restyled. |
| Helpers.MissingNameIsHome | utils/helpers.js:15-28 | Both mappings treat a missing name exactly as `"Home"`. |
| Helpers.TitledTabsShowHeader | utils/helpers.js:14-73 | A titled tab always shows its header. The untitled tabs with options are exactly MyProfile, NewPost and AiVideo. |

## Left out

- Network I/O (axios, `fetch`, the streaming reader of `Chat.js`), FileReader, the file system, the camera and the audio library are not executed. Their results are parameters (`Outcome`, `TurnReplies`, `StartOutcome`, `LoginReply`, `RegisterReply`, and booleans for `createAsync`).
- Asynchrony and interleaving: each awaited call completes before the next step. Overlapping turns, a second tap during a turn, and `transcribeAudio` not being awaited in `stopRecording` are not modelled. Setter batching of React state is not modelled either; each setter takes effect at once.
- OpenAi.VoicePipeline.SendTextToChatGpt: a completion body without `choices[0].message.content` (a TypeError in the code) is not modelled. The supplied reply already holds the content.
- OpenAi.VoicePipeline.StopAudioPlayback: a rejected `stopAsync` (which would leave the reference set) is not modelled.
- OpenAi.VoicePipeline.PlayAudioFromFileSystem: `getInfoAsync` is modelled as "the path was written earlier". Files placed by other code are not seen. A rejected `getInfoAsync` is not modelled; it sits outside the `try`, and `writeToFileSystem` does not await the call, so the rejection would go unhandled.
- OpenAi.VoicePipeline.TranscribeAudio: the supplied transcription reply always carries a `text` string. A status-200 response without `data` is not modelled; reading `data.text` would throw and leave `isTranscribing` raised. Neither is an undefined `text`, which would be forwarded as the completion's content.
- Chat.FirstMessageContent: a `length` property holding a string or an array is treated as not positive. The numeric coercion JavaScript applies to such values in `length > 0` is not modelled.
- The email and password regular expressions: `validEmail` and `validPassword` are inputs, as the input component reports them.
- The token store behind `setToken` (SecureStore, `hooks/useToken.js`, `store/auth/authStore.js`) is not part of this model. The stored token is a field.
- `JSON.parse` is not modelled. Its result is a parameter, with `None` for a parse error.
- Console logging is not modelled, except the "Current screen:" line, which `RouteTracker.log` records.
- Layout, styles, JSX rendering, progress arithmetic and the header/button components are left out.
- Kakao login and the rest of `SignIn.js` outside `handleLogin` are left out.
- The rendered icons and header buttons are names only.
- `error` stores a thrown error object as it is. Its JavaScript identity and fields beyond name and message are not modelled.
