/**
 * The voice-turn pipeline of hooks/useOpenAi.js: transcription, chat
 * completion, speech synthesis, then persist-then-play, all funnelled through
 * one request wrapper that registers an abort controller, keeps `isLoading`
 * and turns a failure into one error string.
 *
 * Every remote call is replaced by an outcome the caller supplies
 * (`Outcome`, `TurnReplies`); the requests handed to the transport are
 * recorded, in order, in `sent`.
 */
module OpenAi {
  import opened Wrappers
  import Media

  // ---------------------------------------------------------------------------
  // Error classification (hooks/useOpenAi.js:55-64)
  // ---------------------------------------------------------------------------

  /** The body of a failed response (`error.response.data`). */
  datatype ErrorBody =
    | TextBody(text: string)
      /** any non-string body; `providerMessage` is its `error.message`, when present */
    | ObjectBody(providerMessage: Option<string>)

  /**
   * A rejected request that is not a cancellation: `body` is None when there is
   * no response or the response carries no data; `message` is `error.message`.
   */
  datatype Failure = Failure(body: Option<ErrorBody>, message: Option<string>)

  const UnknownError := "An unknown error occurred"

  /** `error.response && error.response.data`: an empty string body is falsy. */
  predicate HasBody(f: Failure) {
    f.body.Some? && (f.body.value.TextBody? ==> f.body.value.text != "")
  }

  /** The provider's own message, when the body carries a truthy one. */
  function ProviderMessage(f: Failure): Option<string> {
    if HasBody(f) && f.body.value.ObjectBody? && Truthy(f.body.value.providerMessage)
    then f.body.value.providerMessage else None
  }

  /** The message `handleApiRequest` stores in `error` for a failed request. */
  function ErrorMessage(f: Failure): (r: string)
    // 1. the provider's message wins whenever it is present
    ensures ProviderMessage(f).Some? ==> r == ProviderMessage(f).value
    // 2. otherwise a string body is shown as it is
    ensures HasBody(f) && f.body.value.TextBody? ==> r == f.body.value.text
    // 3. a body that is neither gives the fixed text, whatever error.message says
    ensures HasBody(f) && ProviderMessage(f).None? && f.body.value.ObjectBody? ==> r == UnknownError
    // 4. error.message is consulted only when there is no body
    ensures !HasBody(f) && Truthy(f.message) ==> r == f.message.value
    ensures !HasBody(f) && !Truthy(f.message) ==> r == UnknownError
    // a failure always leaves a non-empty (truthy) message behind
    ensures r != ""
  {
    var errorMessage := UnknownError;
    if HasBody(f) then
      match f.body.value
      case ObjectBody(m) => if Truthy(m) then m.value else errorMessage
      case TextBody(t) => t
    else if Truthy(f.message) then f.message.value
    else errorMessage
  }

  // ---------------------------------------------------------------------------
  // Requests and their outcomes
  // ---------------------------------------------------------------------------

  datatype Endpoint = TranscriptionEndpoint | CompletionsEndpoint | SpeechEndpoint

  datatype ChatMessage = ChatMessage(role: string, content: string)

  datatype Payload =
    | TranscriptionForm(language: string, fileUri: string, fileType: string, fileName: string, model: string)
    | CompletionBody(model: string, messages: seq<ChatMessage>)
    | SpeechBody(model: string, input: string, voice: string)

  datatype Request = Request(
    endpoint: Endpoint,
    httpMethod: string,
    payload: Payload,
    authorization: string,
    contentType: string,
    responseType: Option<string>)

  function Bearer(apiKey: string): string {
    "Bearer " + apiKey
  }

  /** The multipart form of `transcribeAudio` (hooks/useOpenAi.js:89-109). */
  function TranscriptionRequest(apiKey: string, audioFilePath: string): (q: Request)
    ensures q.endpoint == TranscriptionEndpoint && q.contentType == "multipart/form-data"
    ensures q.payload.TranscriptionForm? && q.payload.fileUri == audioFilePath
    ensures q.payload.language == "en" && q.payload.model == "whisper-1"
  {
    Request(TranscriptionEndpoint, "post",
            TranscriptionForm("en", audioFilePath, "audio/mp3", "audio.mp3", "whisper-1"),
            Bearer(apiKey), "multipart/form-data", None)
  }

  const CompletionModel := "gpt-4-1106-preview"

  /** The JSON body of `sendTextToChatGpt` (hooks/useOpenAi.js:125-149). */
  function CompletionRequest(apiKey: string, instructions: string): (q: Request)
    ensures q.endpoint == CompletionsEndpoint && q.contentType == "application/json"
    ensures q.payload.CompletionBody? && q.payload.model == CompletionModel
  {
    Request(CompletionsEndpoint, "post",
            CompletionBody(CompletionModel, [ChatMessage("system", instructions), ChatMessage("user", instructions)]),
            Bearer(apiKey), "application/json", None)
  }

  const DefaultVoice := "shimmer"

  /** `voice ? voice : "shimmer"` */
  function ChooseVoice(voice: Option<string>): (v: string)
    ensures Truthy(voice) ==> v == voice.value
    ensures !Truthy(voice) ==> v == DefaultVoice
    ensures v != ""
  {
    if Truthy(voice) then voice.value else DefaultVoice
  }

  /** The JSON body of `generateSpeechFromText`, asking for a blob (hooks/useOpenAi.js:165-182). */
  function SpeechRequest(apiKey: string, text: string, voice: Option<string>): (q: Request)
    ensures q.endpoint == SpeechEndpoint && q.contentType == "application/json"
    ensures q.payload.SpeechBody? && q.payload.input == text && q.payload.model == "tts-1-hd"
    ensures q.payload.voice == ChooseVoice(voice)
  {
    Request(SpeechEndpoint, "post", SpeechBody("tts-1-hd", text, ChooseVoice(voice)),
            Bearer(apiKey), "application/json", Some("blob"))
  }

  datatype Response<D> = Response(status: int, data: D)

  /** What the transport did with one request. */
  datatype Outcome<D> = Ok(response: Response<D>) | Cancelled | Failed(failure: Failure)

  type Byte = b: int | 0 <= b < 256

  /** Raw synthesized audio. */
  type Blob = seq<Byte>

  /** A thrown JavaScript error object, stored in `error` as it is. */
  datatype ErrorObject = ErrorObject(name: string, message: string)

  /** The `error` state: a message from `handleApiRequest`, or an error object stored by the file and playback steps. */
  datatype ErrorValue = Message(text: string) | Thrown(e: ErrorObject)

  /** How FileReader's `readAsDataURL` ended: a data URL of the blob with this media type, or an error. */
  datatype ReaderOutcome = DataUrl(mediaType: string) | ReaderError

  datatype WriteOutcome = Written | WriteFailed(e: ErrorObject)

  /** Loading the sound failed, starting it failed, or it plays. */
  datatype PlayOutcome = Played | LoadFailed(e: ErrorObject) | StartFailed(e: ErrorObject)

  datatype PersistReplies = PersistReplies(reader: ReaderOutcome, write: WriteOutcome, play: PlayOutcome)

  datatype SpeechReplies = SpeechReplies(speech: Outcome<Blob>, next: PersistReplies)

  /** `data` is None when the completion response has no (truthy) data, else `choices[0].message.content`. */
  datatype CompletionReplies = CompletionReplies(completion: Outcome<Option<string>>, next: SpeechReplies)

  /** `data` of a transcription response is `response.data.text`. */
  datatype TurnReplies = TurnReplies(transcription: Outcome<string>, next: CompletionReplies)

  // ---------------------------------------------------------------------------
  // Base64 as `readAsDataURL` writes it (the alphabet and padding of RFC 4648, section 4)
  // ---------------------------------------------------------------------------

  /** The base64 digit of a 6-bit value. */
  function Digit(x: int): (c: char)
    requires 0 <= x < 64
    ensures c != ',' && c != '='
    ensures DigitValue(c) == x
  {
    if x < 26 then ('A' as int + x) as char
    else if x < 52 then ('a' as int + x - 26) as char
    else if x < 62 then ('0' as int + x - 52) as char
    else if x == 62 then '+'
    else '/'
  }

  /** The 6-bit value of a base64 digit; any other character reads as 0. */
  function DigitValue(c: char): (x: int)
    ensures 0 <= x < 64
  {
    if 'A' <= c <= 'Z' then c as int - 'A' as int
    else if 'a' <= c <= 'z' then c as int - 'a' as int + 26
    else if '0' <= c <= '9' then c as int - '0' as int + 52
    else if c == '+' then 62
    else if c == '/' then 63
    else 0
  }

  /** The four digits of one group of one to three bytes; a short group is padded with `=`. */
  function Group(b: Blob): (s: string)
    requires 1 <= |b| <= 3
    ensures |s| == 4 && ',' !in s
    ensures s[0] != '=' && s[1] != '='
    ensures (s[2] == '=') == (|b| == 1) && (s[3] == '=') == (|b| <= 2)
  {
    var b1 := if |b| > 1 then b[1] else 0;
    var b2 := if |b| > 2 then b[2] else 0;
    [Digit(b[0] / 4), Digit(b[0] % 4 * 16 + b1 / 16),
     if |b| > 1 then Digit(b1 % 16 * 4 + b2 / 64) else '=',
     if |b| > 2 then Digit(b2 % 64) else '=']
  }

  /** Base64 encoding: each three bytes become four digits, the last group padded. */
  function Base64(b: Blob): (s: string)
    ensures |s| == 4 * ((|b| + 2) / 3)
    ensures ',' !in s
  {
    if |b| == 0 then ""
    else if |b| <= 3 then Group(b)
    else
      assert (|b| + 2) / 3 == (|b| - 1) / 3 + 1;
      Group(b[..3]) + Base64(b[3..])
  }

  /** The bytes of one group of four digits: two `=` leave one byte, one `=` two. */
  function Ungroup(s: string): Blob
    requires |s| == 4
  {
    var x0, x1, x2, x3 := DigitValue(s[0]), DigitValue(s[1]), DigitValue(s[2]), DigitValue(s[3]);
    if s[2] == '=' then [x0 * 4 + x1 / 16]
    else if s[3] == '=' then [x0 * 4 + x1 / 16, x1 % 16 * 16 + x2 / 4]
    else [x0 * 4 + x1 / 16, x1 % 16 * 16 + x2 / 4, x2 % 4 * 64 + x3]
  }

  /** Base64 decoding, the reference the encoding is checked against: a padded group is the last. */
  function Unbase64(s: string): Blob {
    if |s| < 4 then []
    else if s[2] == '=' || s[3] == '=' then Ungroup(s[..4])
    else Ungroup(s[..4]) + Unbase64(s[4..])
  }

  /** A value packed as `hi * k + lo` with `lo < k` unpacks into `hi` and `lo`. */
  lemma Unpack(hi: int, lo: int, k: int)
    requires k == 4 || k == 16
    requires 0 <= lo < k
    ensures (hi * k + lo) / k == hi && (hi * k + lo) % k == lo
  {
    if k == 4 {
      assert hi * k + lo == hi * 4 + lo;
    } else {
      assert hi * k + lo == hi * 16 + lo;
    }
  }

  /** Decoding a group gives back its one to three bytes. */
  lemma GroupRoundTrip(b: Blob)
    requires 1 <= |b| <= 3
    ensures Ungroup(Group(b)) == b
  {
    var s := Group(b);
    var b1 := if |b| > 1 then b[1] else 0;
    var b2 := if |b| > 2 then b[2] else 0;
    Unpack(b[0] % 4, b1 / 16, 16);
    assert DigitValue(s[0]) * 4 + DigitValue(s[1]) / 16 == b[0];
    if |b| >= 2 {
      Unpack(b1 % 16, b2 / 64, 4);
      assert DigitValue(s[1]) % 16 * 16 + DigitValue(s[2]) / 4 == b[1];
    }
    if |b| == 3 {
      assert DigitValue(s[2]) % 4 * 64 + DigitValue(s[3]) == b[2];
    }
  }

  /** Decoding the encoding gives back the bytes, whatever their number. */
  lemma {:induction false} Base64RoundTrip(b: Blob)
    ensures Unbase64(Base64(b)) == b
  {
    if |b| == 0 {
    } else if |b| <= 3 {
      var s := Group(b);
      GroupRoundTrip(b);
      assert s[..4] == s;
      if |b| == 3 {
        assert s[4..] == [];
      }
    } else {
      var g, rest := Group(b[..3]), Base64(b[3..]);
      var s := g + rest;
      assert s[..4] == g && s[4..] == rest;
      GroupRoundTrip(b[..3]);
      Base64RoundTrip(b[3..]);
      assert b == b[..3] + b[3..];
    }
  }

  // ---------------------------------------------------------------------------
  // The comma split of blobToBase64 (hooks/useOpenAi.js:209)
  // ---------------------------------------------------------------------------

  /** Index of the first comma, or |s| when there is none. */
  function CommaIndex(s: string): (i: nat)
    ensures i <= |s|
  {
    if s == [] then 0
    else if s[0] == ',' then 0
    else 1 + CommaIndex(s[1..])
  }

  /** `CommaIndex` finds the first comma: none lies before it, and one lies at it unless it is the length. */
  lemma {:induction false} FirstComma(s: string)
    ensures forall k :: 0 <= k < CommaIndex(s) ==> s[k] != ','
    ensures CommaIndex(s) < |s| ==> s[CommaIndex(s)] == ','
  {
    if s != [] && s[0] != ',' {
      FirstComma(s[1..]);
      assert forall k :: 1 <= k < CommaIndex(s) ==> s[k] == s[1..][k - 1];
    }
  }

  /** `s.split(",")[1]`: the text between the first and the second comma; undefined when there is no comma. */
  function Base64Part(s: string): Option<string> {
    var i := CommaIndex(s);
    if i == |s| then None
    else
      var rest := s[i + 1..];
      Some(rest[..CommaIndex(rest)])
  }

  /** The second piece of the split is undefined iff the text has no comma, and holds no comma itself. */
  lemma SecondPiece(s: string)
    ensures Base64Part(s).None? <==> ',' !in s
    ensures Base64Part(s).Some? ==> ',' !in Base64Part(s).value
  {
    FirstComma(s);
    if CommaIndex(s) < |s| {
      var rest := s[CommaIndex(s) + 1..];
      FirstComma(rest);
      var piece := Base64Part(s).value;
      assert forall k :: 0 <= k < |piece| ==> piece[k] == rest[k];
    }
  }

  /** The text of a base64 data URL, as FileReader's readAsDataURL produces it. */
  function DataUrlText(mediaType: string, base64: string): string {
    "data:" + mediaType + ";base64," + base64
  }

  /** The split recovers exactly the base64 text, when neither part contains a comma. */
  lemma {:induction false} DataUrlSplit(mediaType: string, base64: string)
    requires ',' !in mediaType && ',' !in base64
    ensures Base64Part(DataUrlText(mediaType, base64)) == Some(base64)
  {
    var head := "data:" + mediaType + ";base64";
    var s := DataUrlText(mediaType, base64);
    assert s == head + [','] + base64;
    assert ',' !in head;
    FirstComma(s);
    var i := CommaIndex(s);
    assert forall k :: 0 <= k < |head| ==> s[k] == head[k] && s[k] in head;
    assert s[|head|] == ',';
    assert i == |head|;
    assert s[i + 1..] == base64;
    FirstComma(base64);
    var j := CommaIndex(base64);
    assert forall k :: 0 <= k < |base64| ==> base64[k] in base64;
    assert j == |base64|;
    assert base64[..j] == base64;
  }

  /** `blobToBase64` once the reader succeeded: the part after the first comma of the blob's data URL. */
  function BlobToBase64(mediaType: string, blob: Blob): Option<string> {
    Base64Part(DataUrlText(mediaType, Base64(blob)))
  }

  /**
   * The converted text is never undefined, and it is the encoding of the
   * blob unless the media type itself holds a comma.
   */
  lemma BlobEncoding(mediaType: string, blob: Blob)
    ensures BlobToBase64(mediaType, blob).Some?
    ensures ',' !in mediaType ==> BlobToBase64(mediaType, blob) == Some(Base64(blob))
  {
    var url := DataUrlText(mediaType, Base64(blob));
    assert url[|"data:" + mediaType + ";base64"|] == ',';
    SecondPiece(url);
    if ',' !in mediaType {
      DataUrlSplit(mediaType, Base64(blob));
    }
  }

  // ---------------------------------------------------------------------------
  // The turn, stage by stage, as functions of the supplied replies
  // ---------------------------------------------------------------------------

  /** The three stage flags, as recorded with each request. */
  datatype StageFlags = StageFlags(transcribing: bool, fetching: bool, generating: bool)

  /** A request handed to the transport, with the stage flags in effect at that moment. */
  datatype Issued = Issued(request: Request, flags: StageFlags)

  /** `response && response.status === 200` */
  predicate Accepted<D>(o: Outcome<D>) {
    o.Ok? && o.response.status == 200
  }

  /** `response && response.data` for the completion stage (its status is not checked). */
  predicate Answered(o: Outcome<Option<string>>) {
    o.Ok? && o.response.data.Some?
  }

  function FailureError<D>(o: Outcome<D>): Option<ErrorValue> {
    if o.Failed? then Some(Message(ErrorMessage(o.failure))) else None
  }

  const AudioFileName := "sound.m4a"

  /** The single file every synthesized clip is written to. */
  function AudioPath(documentDirectory: string): (p: string)
    ensures documentDirectory <= p && |p| == |documentDirectory| + |AudioFileName|
    ensures p[|documentDirectory|..] == "sound.m4a"
  {
    documentDirectory + AudioFileName
  }

  // Persist-then-play (writeToFileSystem, playAudioFromFileSystem)

  /** The reader rejected: the await sits outside the try, so the exception escapes. */
  predicate PersistThrows(r: PersistReplies) {
    r.reader.ReaderError?
  }

  predicate PersistWrites(r: PersistReplies) {
    r.reader.DataUrl? && r.write.Written?
  }

  /** A new sound object is created (and stored in `soundRef`). */
  predicate PersistCreatesSound(r: PersistReplies) {
    PersistWrites(r) && !r.play.LoadFailed?
  }

  function PlayError(before: Option<ErrorValue>, exists_: bool, p: PlayOutcome): Option<ErrorValue> {
    if !exists_ then before
    else match p
      case Played => before
      case LoadFailed(e) => Some(Thrown(e))
      case StartFailed(e) => Some(Thrown(e))
  }

  function PersistError(before: Option<ErrorValue>, r: PersistReplies): Option<ErrorValue> {
    if r.reader.ReaderError? then before
    else if r.write.WriteFailed? then Some(Thrown(r.write.e))
    else PlayError(before, true, r.play)
  }

  function PersistFiles(files: map<string, Option<string>>, path: string, blob: Blob, r: PersistReplies): map<string, Option<string>> {
    if PersistWrites(r) then files[path := BlobToBase64(r.reader.mediaType, blob)] else files
  }

  // Speech synthesis (generateSpeechFromText)

  function SpeechIssued(apiKey: string, text: string, voice: Option<string>, f: StageFlags): seq<Issued> {
    [Issued(SpeechRequest(apiKey, text, voice), f.(generating := true))]
  }

  predicate SpeechThrows(r: SpeechReplies) {
    Accepted(r.speech) && PersistThrows(r.next)
  }

  function SpeechError(r: SpeechReplies): Option<ErrorValue> {
    if Accepted(r.speech) then PersistError(None, r.next) else FailureError(r.speech)
  }

  predicate SpeechCreatesSound(r: SpeechReplies) {
    Accepted(r.speech) && PersistCreatesSound(r.next)
  }

  function SpeechFiles(files: map<string, Option<string>>, path: string, r: SpeechReplies): map<string, Option<string>> {
    if Accepted(r.speech) then PersistFiles(files, path, r.speech.response.data, r.next) else files
  }

  // Chat completion (sendTextToChatGpt)

  function CompletionIssued(apiKey: string, instructions: string, f: StageFlags, r: CompletionReplies): seq<Issued> {
    [Issued(CompletionRequest(apiKey, instructions), f.(fetching := true))]
    + if Answered(r.completion)
      then SpeechIssued(apiKey, r.completion.response.data.value, None, f.(fetching := true))
      else []
  }

  predicate CompletionThrows(r: CompletionReplies) {
    Answered(r.completion) && SpeechThrows(r.next)
  }

  function CompletionError(r: CompletionReplies): Option<ErrorValue> {
    if Answered(r.completion) then SpeechError(r.next) else FailureError(r.completion)
  }

  predicate CompletionCreatesSound(r: CompletionReplies) {
    Answered(r.completion) && SpeechCreatesSound(r.next)
  }

  function CompletionFiles(files: map<string, Option<string>>, path: string, r: CompletionReplies): map<string, Option<string>> {
    if Answered(r.completion) then SpeechFiles(files, path, r.next) else files
  }

  // Transcription (transcribeAudio): the whole turn

  function TurnIssued(apiKey: string, audioFilePath: string, f: StageFlags, r: TurnReplies): seq<Issued> {
    [Issued(TranscriptionRequest(apiKey, audioFilePath), f.(transcribing := true))]
    + if Accepted(r.transcription)
      then CompletionIssued(apiKey, r.transcription.response.data, f.(transcribing := true), r.next)
      else []
  }

  predicate TurnThrows(r: TurnReplies) {
    Accepted(r.transcription) && CompletionThrows(r.next)
  }

  function TurnError(r: TurnReplies): Option<ErrorValue> {
    if Accepted(r.transcription) then CompletionError(r.next) else FailureError(r.transcription)
  }

  predicate TurnCreatesSound(r: TurnReplies) {
    Accepted(r.transcription) && CompletionCreatesSound(r.next)
  }

  function TurnFiles(files: map<string, Option<string>>, path: string, r: TurnReplies): map<string, Option<string>> {
    if Accepted(r.transcription) then CompletionFiles(files, path, r.next) else files
  }

  // ---------------------------------------------------------------------------
  // Properties of a turn
  // ---------------------------------------------------------------------------

  /**
   * Stage gating: completion runs iff the transcription came back with status
   * 200, and is sent exactly the transcript, empty or not; synthesis runs iff
   * the completion response has data, is sent its content and uses the
   * default voice.
   */
  lemma StageGating(apiKey: string, audioFilePath: string, f: StageFlags, r: TurnReplies)
    ensures var s := TurnIssued(apiKey, audioFilePath, f, r);
      && 1 <= |s| <= 3
      && s[0].request == TranscriptionRequest(apiKey, audioFilePath)
      && (|s| >= 2 <==> Accepted(r.transcription))
      && (|s| >= 2 ==> s[1].request == CompletionRequest(apiKey, r.transcription.response.data))
      && (|s| == 3 <==> Accepted(r.transcription) && Answered(r.next.completion))
      && (|s| == 3 ==> s[2].request == SpeechRequest(apiKey, r.next.completion.response.data.value, None)
                       && s[2].request.payload.voice == DefaultVoice)
  {
  }

  /**
   * The completion request names model gpt-4-1106-preview and carries two
   * messages, system then user, both holding the instructions.
   */
  lemma CompletionPayload(apiKey: string, instructions: string)
    ensures var q := CompletionRequest(apiKey, instructions);
      && q.endpoint == CompletionsEndpoint
      && q.payload.model == CompletionModel
      && |q.payload.messages| == 2
      && q.payload.messages[0] == ChatMessage("system", instructions)
      && q.payload.messages[1] == ChatMessage("user", instructions)
  {
  }

  /**
   * All three requests are POSTs carrying the key as a bearer token, each to
   * its own endpoint, and only the speech request asks for a blob.
   */
  lemma RequestsShareAuthorization(apiKey: string, audioFilePath: string, instructions: string,
                                   text: string, voice: Option<string>)
    ensures var qs := [TranscriptionRequest(apiKey, audioFilePath), CompletionRequest(apiKey, instructions),
                       SpeechRequest(apiKey, text, voice)];
      && (forall q :: q in qs ==> q.httpMethod == "post" && q.authorization == "Bearer " + apiKey)
      && qs[0].endpoint != qs[1].endpoint && qs[1].endpoint != qs[2].endpoint && qs[0].endpoint != qs[2].endpoint
      && qs[0].responseType.None? && qs[1].responseType.None? && qs[2].responseType == Some("blob")
  {
  }

  /**
   * A stage lowers its flag only after the downstream chain returns: the
   * completion request goes out with `isTranscribing` still raised, the
   * speech request with both `isTranscribing` and `isFetchingResponse`.
   */
  lemma FlagsHeldDownstream(apiKey: string, audioFilePath: string, f: StageFlags, r: TurnReplies)
    ensures var s := TurnIssued(apiKey, audioFilePath, f, r);
      && s[0].flags.transcribing
      && (|s| >= 2 ==> s[1].flags.transcribing && s[1].flags.fetching)
      && (|s| == 3 ==> s[2].flags == StageFlags(true, true, true))
  {
  }

  /** A cancelled stage ends the turn without an error. */
  lemma CancelledTurnHasNoError(r: TurnReplies)
    requires || r.transcription.Cancelled?
             || (Accepted(r.transcription) && r.next.completion.Cancelled?)
             || (Accepted(r.transcription) && Answered(r.next.completion) && r.next.next.speech.Cancelled?)
    ensures TurnError(r) == None
  {
  }

  /** A failed remote stage ends the turn with the classified message of that failure. */
  lemma FailedStageSetsMessage(r: TurnReplies)
    ensures r.transcription.Failed? ==> TurnError(r) == Some(Message(ErrorMessage(r.transcription.failure)))
    ensures Accepted(r.transcription) && r.next.completion.Failed? ==>
              TurnError(r) == Some(Message(ErrorMessage(r.next.completion.failure)))
    ensures Accepted(r.transcription) && Answered(r.next.completion) && r.next.next.speech.Failed? ==>
              TurnError(r) == Some(Message(ErrorMessage(r.next.next.speech.failure)))
  {
  }

  /**
   * Audio is written only to the fixed path, only once all three remote
   * stages succeeded; a failed write leaves the error object in `error` and
   * no sound is created.
   */
  lemma PersistOnlyToFixedPath(files: map<string, Option<string>>, path: string, r: TurnReplies)
    ensures TurnFiles(files, path, r).Keys <= files.Keys + {path}
    ensures forall p :: p in files && p != path ==> TurnFiles(files, path, r)[p] == files[p]
    ensures TurnFiles(files, path, r) != files ==>
              Accepted(r.transcription) && Answered(r.next.completion) && Accepted(r.next.next.speech)
    ensures TurnCreatesSound(r) ==> PersistWrites(r.next.next.next)
    ensures Accepted(r.transcription) && Answered(r.next.completion) && Accepted(r.next.next.speech)
            && r.next.next.next.reader.DataUrl? && r.next.next.next.write.WriteFailed? ==>
              !TurnCreatesSound(r) && TurnError(r) == Some(Thrown(r.next.next.next.write.e))
  {
  }

  /**
   * After a turn whose write succeeded, the audio file holds the base64 text
   * of the speech response's blob, and decoding that text gives the blob back.
   */
  lemma WrittenAudioIsTheSpeech(files: map<string, Option<string>>, path: string, r: TurnReplies)
    requires Accepted(r.transcription) && Answered(r.next.completion) && Accepted(r.next.next.speech)
    requires PersistWrites(r.next.next.next) && ',' !in r.next.next.next.reader.mediaType
    ensures TurnFiles(files, path, r) == files[path := Some(Base64(r.next.next.speech.response.data))]
    ensures Unbase64(TurnFiles(files, path, r)[path].value) == r.next.next.speech.response.data
  {
    BlobEncoding(r.next.next.next.reader.mediaType, r.next.next.speech.response.data);
    Base64RoundTrip(r.next.next.speech.response.data);
  }

  lemma LogAppend(log: seq<Issued>, first: seq<Issued>, rest: seq<Issued>)
    ensures log + (first + rest) == (log + first) + rest
  {
  }

  // ---------------------------------------------------------------------------
  // The hook's state
  // ---------------------------------------------------------------------------

  class AbortController {
    var aborted: bool

    constructor ()
      ensures !aborted
    {
      aborted := false;
    }

    method Abort()
      modifies this
      ensures aborted
    {
      aborted := true;
    }
  }

  class VoicePipeline {
    const apiKey: string
    const documentDirectory: string

    var transcribedText: string
    var chatGptResponse: string
    var isLoading: bool
    var isTranscribing: bool
    var isFetchingResponse: bool
    var isGeneratingSpeech: bool
    var error: Option<ErrorValue>

    /** `abortControllersRef.current` */
    var controllers: seq<AbortController>
    /** `soundRef.current` */
    var sound: Media.Sound?
    /** The device's file system: each written path and the contents passed to its last successful write. */
    var files: map<string, Option<string>>
    /** The requests handed to the transport, in order. */
    var sent: seq<Issued>

    /**
     * At rest no request is loading, and every registered controller is
     * still live: only `CancelRequests` aborts, and it empties the list.
     */
    ghost predicate Valid()
      reads this`isLoading, this`controllers, controllers
    {
      && !isLoading
      && forall i :: 0 <= i < |controllers| ==> !controllers[i].aborted
    }

    function Flags(): StageFlags
      reads this
    {
      StageFlags(isTranscribing, isFetchingResponse, isGeneratingSpeech)
    }

    constructor (apiKey: string, documentDirectory: string, files: map<string, Option<string>>)
      ensures Valid()
      ensures this.apiKey == apiKey && this.documentDirectory == documentDirectory && this.files == files
      ensures transcribedText == "" && chatGptResponse == ""
      ensures !isLoading && Flags() == StageFlags(false, false, false) && error == None
      ensures controllers == [] && sound == null && sent == []
    {
      this.apiKey := apiKey;
      this.documentDirectory := documentDirectory;
      this.files := files;
      transcribedText, chatGptResponse := "", "";
      isLoading, isTranscribing, isFetchingResponse, isGeneratingSpeech := false, false, false, false;
      error := None;
      controllers, sound, sent := [], null, [];
    }

    /**
     * `handleApiRequest`: registers one fresh controller, sends the request,
     * and returns the response on success; a cancellation leaves `error`
     * alone, any other failure stores its classified message. `isLoading`
     * is false again on every exit path.
     */
    method HandleApiRequest<D>(request: Request, outcome: Outcome<D>) returns (response: Option<Response<D>>)
      requires Valid()
      modifies this
      ensures Valid()
      ensures |controllers| == |old(controllers)| + 1
      ensures old(controllers) <= controllers && fresh(controllers[|old(controllers)|..])
      ensures sent == old(sent) + [Issued(request, old(Flags()))]
      ensures response == if outcome.Ok? then Some(outcome.response) else None
      ensures error == if outcome.Failed? then Some(Message(ErrorMessage(outcome.failure))) else old(error)
      ensures Flags() == old(Flags()) && sound == old(sound) && files == old(files)
      ensures transcribedText == old(transcribedText) && chatGptResponse == old(chatGptResponse)
    {
      var abortController := new AbortController();
      controllers := controllers + [abortController];
      isLoading := true;
      sent := sent + [Issued(request, Flags())];
      if outcome.Ok? {
        isLoading := false;
        response := Some(outcome.response);
      } else {
        if outcome.Failed? {
          error := Some(Message(ErrorMessage(outcome.failure)));
        }
        isLoading := false;
        response := None;
      }
    }

    /** `cancelRequests`: aborts every registered controller and empties the list; nothing else changes. */
    method CancelRequests()
      requires Valid()
      modifies this, controllers
      ensures Valid()
      ensures controllers == []
      ensures forall i :: 0 <= i < |old(controllers)| ==> old(controllers)[i].aborted
      ensures sent == old(sent) && sound == old(sound) && files == old(files) && error == old(error)
      ensures Flags() == old(Flags()) && isLoading == old(isLoading)
      ensures transcribedText == old(transcribedText) && chatGptResponse == old(chatGptResponse)
    {
      var i := 0;
      while i < |controllers|
        invariant 0 <= i <= |controllers|
        invariant controllers == old(controllers)
        invariant forall j :: 0 <= j < i ==> controllers[j].aborted
        modifies controllers
      {
        controllers[i].Abort();
        i := i + 1;
      }
      controllers := [];
    }

    /**
     * `playAudioFromFileSystem`: a missing file changes nothing; otherwise a
     * new sound replaces whatever `soundRef` held, without stopping it.
     */
    method PlayAudioFromFileSystem(audioPath: string, play: PlayOutcome)
      requires Valid()
      modifies this
      ensures Valid()
      ensures audioPath !in old(files) || play.LoadFailed? ==> sound == old(sound)
      ensures audioPath in old(files) && !play.LoadFailed? ==>
                sound != null && fresh(sound) && sound.loaded && sound.playing == play.Played?
      ensures old(sound) != null ==> unchanged(old(sound))
      ensures error == PlayError(old(error), audioPath in old(files), play)
      ensures controllers == old(controllers) && sent == old(sent) && files == old(files)
      ensures Flags() == old(Flags())
      ensures transcribedText == old(transcribedText) && chatGptResponse == old(chatGptResponse)
    {
      if audioPath !in files {
        return;
      }
      if play.LoadFailed? {
        error := Some(Thrown(play.e));
        return;
      }
      var s := new Media.Sound.Create();
      sound := s;
      if play.StartFailed? {
        error := Some(Thrown(play.e));
      } else {
        var started := s.Play();
      }
    }

    /** `stopAudioPlayback`: stops and clears the slot when it is set, else does nothing. */
    method StopAudioPlayback()
      requires Valid()
      modifies this, sound
      ensures Valid()
      ensures sound == null
      ensures old(sound) != null ==> !old(sound).playing && old(sound).loaded == old(sound.loaded)
      ensures error == old(error) && controllers == old(controllers) && sent == old(sent) && files == old(files)
      ensures Flags() == old(Flags())
      ensures transcribedText == old(transcribedText) && chatGptResponse == old(chatGptResponse)
    {
      if sound != null {
        sound.Stop();
        sound := null;
      }
    }

    /**
     * `writeToFileSystem`: converts the blob (FileReader), writes the base64
     * part to `filePath` and, after a successful write only, plays it. A
     * reader failure escapes as an exception (`thrown`).
     */
    method WriteToFileSystem(blob: Blob, filePath: string, r: PersistReplies) returns (thrown: bool)
      requires Valid()
      modifies this
      ensures Valid()
      ensures thrown == PersistThrows(r)
      ensures files == PersistFiles(old(files), filePath, blob, r)
      ensures PersistWrites(r) && ',' !in r.reader.mediaType ==> files == old(files)[filePath := Some(Base64(blob))]
      ensures error == PersistError(old(error), r)
      ensures PersistCreatesSound(r) ==> sound != null && fresh(sound) && sound.playing == r.play.Played?
      ensures !PersistCreatesSound(r) ==> sound == old(sound)
      ensures controllers == old(controllers) && sent == old(sent) && Flags() == old(Flags())
      ensures transcribedText == old(transcribedText) && chatGptResponse == old(chatGptResponse)
    {
      if r.reader.ReaderError? {
        return true;
      }
      var base64data := BlobToBase64(r.reader.mediaType, blob);
      BlobEncoding(r.reader.mediaType, blob);
      thrown := false;
      if r.write.WriteFailed? {
        error := Some(Thrown(r.write.e));
      } else {
        files := files[filePath := base64data];
        PlayAudioFromFileSystem(filePath, r.play);
      }
    }

    /** `generateSpeechFromText`: persists the audio iff the response came back with status 200. */
    method GenerateSpeechFromText(text: string, voice: Option<string>, r: SpeechReplies) returns (thrown: bool)
      requires Valid()
      modifies this
      ensures Valid()
      ensures thrown == SpeechThrows(r)
      ensures sent == old(sent) + SpeechIssued(apiKey, text, voice, old(Flags()))
      ensures |controllers| == |old(controllers)| + 1 && old(controllers) <= controllers
      ensures fresh(controllers[|old(controllers)|..])
      ensures error == SpeechError(r)
      ensures files == SpeechFiles(old(files), AudioPath(documentDirectory), r)
      ensures SpeechCreatesSound(r) ==> sound != null && fresh(sound) && sound.playing == r.next.play.Played?
      ensures !SpeechCreatesSound(r) ==> sound == old(sound)
      ensures Flags() == old(Flags()).(generating := thrown)
      ensures transcribedText == old(transcribedText) && chatGptResponse == old(chatGptResponse)
    {
      isGeneratingSpeech := true;
      error := None;
      var response := HandleApiRequest(SpeechRequest(apiKey, text, voice), r.speech);
      thrown := false;
      if response.Some? && response.value.status == 200 {
        var audioPath := AudioPath(documentDirectory);
        thrown := WriteToFileSystem(response.value.data, audioPath, r.next);
      }
      if !thrown {
        isGeneratingSpeech := false;
      }
    }

    /** `sendTextToChatGpt`: synthesizes speech from the answer iff the response has data. */
    method SendTextToChatGpt(instructions: string, r: CompletionReplies) returns (thrown: bool)
      requires Valid()
      modifies this
      ensures Valid()
      ensures thrown == CompletionThrows(r)
      ensures sent == old(sent) + CompletionIssued(apiKey, instructions, old(Flags()), r)
      ensures |controllers| - |old(controllers)| == |sent| - |old(sent)|
      ensures old(controllers) <= controllers
      ensures fresh(controllers[|old(controllers)|..])
      ensures error == CompletionError(r)
      ensures files == CompletionFiles(old(files), AudioPath(documentDirectory), r)
      ensures CompletionCreatesSound(r) ==> sound != null && fresh(sound) && sound.playing == r.next.next.play.Played?
      ensures !CompletionCreatesSound(r) ==> sound == old(sound)
      ensures chatGptResponse == if Answered(r.completion) then r.completion.response.data.value else old(chatGptResponse)
      ensures Flags() == StageFlags(old(isTranscribing), thrown,
                                    if Answered(r.completion) then thrown else old(isGeneratingSpeech))
      ensures transcribedText == old(transcribedText)
    {
      ghost var f := old(Flags()).(fetching := true);
      ghost var first := [Issued(CompletionRequest(apiKey, instructions), f)];
      isFetchingResponse := true;
      error := None;
      var response := HandleApiRequest(CompletionRequest(apiKey, instructions), r.completion);
      ghost var mid := controllers;
      thrown := false;
      if response.Some? && response.value.data.Some? {
        chatGptResponse := response.value.data.value;
        var chatResponseText := response.value.data.value;
        thrown := GenerateSpeechFromText(chatResponseText, None, r.next);
        LogAppend(old(sent), first, SpeechIssued(apiKey, chatResponseText, None, f));
        assert controllers[|old(controllers)|..] == mid[|old(controllers)|..] + controllers[|mid|..];
      }
      if !thrown {
        isFetchingResponse := false;
      }
    }

    /**
     * `transcribeAudio`: the whole turn. Completion runs iff the transcription
     * came back with status 200, on exactly its text.
     */
    method TranscribeAudio(audioFilePath: string, r: TurnReplies) returns (thrown: bool)
      requires Valid()
      modifies this
      ensures Valid()
      ensures thrown == TurnThrows(r)
      ensures sent == old(sent) + TurnIssued(apiKey, audioFilePath, old(Flags()), r)
      ensures |controllers| - |old(controllers)| == |sent| - |old(sent)|
      ensures old(controllers) <= controllers
      ensures fresh(controllers[|old(controllers)|..])
      ensures error == TurnError(r)
      ensures files == TurnFiles(old(files), AudioPath(documentDirectory), r)
      ensures TurnCreatesSound(r) ==> sound != null && fresh(sound) && sound.playing == r.next.next.next.play.Played?
      ensures !TurnCreatesSound(r) ==> sound == old(sound)
      ensures transcribedText == if Accepted(r.transcription) then r.transcription.response.data else old(transcribedText)
      ensures chatGptResponse == if Accepted(r.transcription) && Answered(r.next.completion)
                                 then r.next.completion.response.data.value else old(chatGptResponse)
      ensures Flags() == StageFlags(thrown,
                                    if Accepted(r.transcription) then thrown else old(isFetchingResponse),
                                    if Accepted(r.transcription) && Answered(r.next.completion) then thrown
                                    else old(isGeneratingSpeech))
    {
      ghost var f := old(Flags()).(transcribing := true);
      ghost var first := [Issued(TranscriptionRequest(apiKey, audioFilePath), f)];
      isTranscribing := true;
      error := None;
      var response := HandleApiRequest(TranscriptionRequest(apiKey, audioFilePath), r.transcription);
      ghost var mid := controllers;
      assert sent == old(sent) + first;
      thrown := false;
      if response.Some? && response.value.status == 200 {
        transcribedText := response.value.data;
        thrown := SendTextToChatGpt(response.value.data, r.next);
        LogAppend(old(sent), first, CompletionIssued(apiKey, r.transcription.response.data, f, r.next));
        assert controllers[|old(controllers)|..] == mid[|old(controllers)|..] + controllers[|mid|..];
      } else {
        assert TurnIssued(apiKey, audioFilePath, old(Flags()), r) == first;
      }
      if !thrown {
        isTranscribing := false;
      }
    }
  }
}
