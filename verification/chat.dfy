/**
 * The self-contained logic of screens/Threads/Chat.js: how a stored answer
 * is parsed into its first message, the per-message play/pause/stop state,
 * the guard and payload of `sendMessage`, and the chat-history guard.
 * JSON parsing, the audio library and the network are replaced by values
 * the caller supplies.
 */
module Chat {
  import opened Wrappers
  import Media

  /** A JavaScript value, as far as this screen inspects it; a JSON number is any real, fractions included. */
  datatype JsValue =
    | Undefined
    | Null
    | Bool(b: bool)
    | Num(n: real)
    | Str(s: string)
    | Arr(items: seq<JsValue>)
    | Obj(fields: map<string, JsValue>)

  // ---------------------------------------------------------------------------
  // Answer parsing (screens/Threads/Chat.js:40-55)
  // ---------------------------------------------------------------------------

  /** `answerArray`: the parsed answer, or `[]` when `JSON.parse` threw (`parsed` is None). */
  function AnswerArray(parsed: Option<JsValue>): (a: JsValue)
    ensures parsed.None? ==> a == Arr([])
    ensures parsed.Some? ==> a == parsed.value
  {
    if parsed.Some? then parsed.value else Arr([])
  }

  /** Reading a property; `None` means the read throws a TypeError (on null or undefined). */
  function Property(v: JsValue, name: string): Option<JsValue> {
    match v
    case Undefined => None
    case Null => None
    case Obj(fields) => Some(if name in fields then fields[name] else Undefined)
    case _ => Some(Undefined)
  }

  /**
   * `length > 0` for the `length` property of a plain object. A missing
   * length is `undefined > 0`, which is false; a boolean compares as 0 or 1.
   */
  predicate PositiveLength(fields: map<string, JsValue>) {
    && "length" in fields
    && match fields["length"]
       case Num(n) => n > 0.0
       case Bool(b) => b
       case _ => false
  }

  /** The `"0"` property of a plain object, `undefined` when it is missing. */
  function ElementZero(fields: map<string, JsValue>): JsValue {
    if "0" in fields then fields["0"] else Undefined
  }

  /** `v[0]`; `None` when the read throws. */
  function First(v: JsValue): Option<JsValue> {
    match v
    case Undefined => None
    case Null => None
    case Arr(items) => Some(if |items| > 0 then items[0] else Undefined)
    case Str(s) => Some(if |s| > 0 then Str([s[0]]) else Undefined)
    case Obj(fields) => Some(ElementZero(fields))
    case _ => Some(Undefined)
  }

  /** `v.length > 0`; `None` when `v.length` throws. */
  function NonEmpty(v: JsValue): Option<bool> {
    match v
    case Undefined => None
    case Null => None
    case Arr(items) => Some(|items| > 0)
    case Str(s) => Some(|s| > 0)
    case Obj(fields) => Some(PositiveLength(fields))
    case _ => Some(false)
  }

  /** The rendered message, or a TypeError thrown while computing it. */
  datatype Rendered = Content(value: JsValue) | TypeError

  /**
   * What the screen shows for the first element of a non-empty answer: its
   * `content` when its `type` is `"message"`, otherwise `""`.
   */
  function RenderFirst(first: JsValue): (r: Rendered)
    // reading `type` throws exactly on null and undefined
    ensures r.TypeError? <==> first in {Null, Undefined}
    // only an object typed "message" shows its content, and it shows exactly that content
    ensures forall fields :: first == Obj(fields) && "type" in fields && fields["type"] == Str("message")
              ==> r == Content(if "content" in fields then fields["content"] else Undefined)
    ensures r.Content? && r.value != Str("") ==>
              first.Obj? && "type" in first.fields && first.fields["type"] == Str("message")
  {
    match Property(first, "type")
    case None => TypeError
    case Some(t) =>
      if t != Str("message") then Content(Str(""))
      else
        match Property(first, "content")
        case None => TypeError
        case Some(c) => Content(c)
  }

  /**
   * `firstMessageContent`: the first element's `content` when the answer is
   * non-empty (an array, or an object whose `length` is positive) and its
   * first element has `type === "message"`; otherwise `""`. Reading through
   * `null` or `undefined` throws.
   */
  function FirstMessageContent(parsed: Option<JsValue>): (r: Rendered)
    // an answer that is not valid JSON shows the empty string
    ensures parsed.None? ==> r == Content(Str(""))
    // an empty array shows the empty string; a non-empty one renders its first element
    ensures forall items :: parsed == Some(Arr(items)) ==>
              r == (if |items| > 0 then RenderFirst(items[0]) else Content(Str("")))
    // an object is read as an array: its "length" decides, its "0" is the first element
    ensures forall fields :: parsed == Some(Obj(fields)) ==>
              r == (if PositiveLength(fields) then RenderFirst(ElementZero(fields)) else Content(Str("")))
    // numbers, booleans and strings never show content
    ensures parsed.Some? && (parsed.value.Num? || parsed.value.Bool? || parsed.value.Str?) ==> r == Content(Str(""))
    // the only ways to throw: the answer is null or undefined, or a non-empty answer's first element is
    ensures r.TypeError? <==>
              || parsed in {Some(Null), Some(Undefined)}
              || (parsed.Some? && parsed.value.Arr? && |parsed.value.items| > 0
                  && parsed.value.items[0] in {Null, Undefined})
              || (parsed.Some? && parsed.value.Obj? && PositiveLength(parsed.value.fields)
                  && ElementZero(parsed.value.fields) in {Null, Undefined})
  {
    var answerArray := AnswerArray(parsed);
    match NonEmpty(answerArray)
    case None => TypeError
    case Some(nonEmpty) =>
      if !nonEmpty then Content(Str(""))
      else
        match First(answerArray)
        case None => TypeError
        case Some(first) => RenderFirst(first)
  }

  // ---------------------------------------------------------------------------
  // The send guard (screens/Threads/Chat.js:313-320, 370-372)
  // ---------------------------------------------------------------------------

  /** The characters `String.prototype.trim` removes: white space and line terminators. */
  predicate IsTrimmed(c: char) {
    || c == '\t' || c == '\n' || c == '\U{000B}' || c == '\U{000C}' || c == '\r' || c == ' '
    || c == '\U{00A0}' || c == '\U{1680}' || ('\U{2000}' <= c <= '\U{200A}')
    || c == '\U{2028}' || c == '\U{2029}' || c == '\U{202F}' || c == '\U{205F}'
    || c == '\U{3000}' || c == '\U{FEFF}'
  }

  /** Every character of `t` is one that `trim` removes. */
  predicate AllTrimmed(t: string) {
    t == [] || (IsTrimmed(t[0]) && AllTrimmed(t[1..]))
  }

  /** A concatenation is all white space iff both of its parts are. */
  lemma {:induction false} AllTrimmedConcat(a: string, b: string)
    ensures AllTrimmed(a + b) <==> AllTrimmed(a) && AllTrimmed(b)
  {
    if a != [] {
      assert (a + b)[0] == a[0] && (a + b)[1..] == a[1..] + b;
      AllTrimmedConcat(a[1..], b);
    } else {
      assert a + b == b;
    }
  }

  /** `s.trimStart()`: only white space is cut from the front, and what is left does not start with white space. */
  function TrimStart(s: string): (r: string)
    ensures |r| <= |s| && r == s[|s| - |r|..]
    ensures AllTrimmed(s[..|s| - |r|])
    ensures r == [] || !IsTrimmed(r[0])
  {
    if s != [] && IsTrimmed(s[0]) then
      var r := TrimStart(s[1..]);
      assert s[..|s| - |r|][1..] == s[1..][..|s| - 1 - |r|];
      r
    else s
  }

  /** `s.trimEnd()`: only white space is cut from the back, and what is left does not end with white space. */
  function TrimEnd(s: string): (r: string)
    ensures |r| <= |s| && r == s[..|r|]
    ensures AllTrimmed(s[|r|..])
    ensures r == [] || !IsTrimmed(r[|r| - 1])
  {
    if s != [] && IsTrimmed(s[|s| - 1]) then
      var init := s[..|s| - 1];
      var r := TrimEnd(init);
      assert s[|r|..] == init[|r|..] + [s[|s| - 1]];
      assert AllTrimmed([s[|s| - 1]]);
      AllTrimmedConcat(init[|r|..], [s[|s| - 1]]);
      r
    else s
  }

  /** `s.trim()`: a slice of `s` with white space at neither end. */
  function Trim(s: string): (r: string)
    ensures |r| <= |s|
    // a prefix of the suffix `TrimStart` leaves, so a slice of `s`
    ensures r <= TrimStart(s)
    ensures r == [] || (!IsTrimmed(r[0]) && !IsTrimmed(r[|r| - 1]))
  {
    var front := TrimStart(s);
    var r := TrimEnd(front);
    assert r == [] || r[0] == front[0];
    r
  }

  /**
   * `trim` cuts only white space: the result is the slice of `s` that starts
   * where `TrimStart` stops, and everything before and after it is white space.
   */
  lemma {:induction false} TrimCutsOnlyWhiteSpace(s: string)
    ensures |s| - |TrimStart(s)| + |Trim(s)| <= |s|
    ensures Trim(s) == s[|s| - |TrimStart(s)|..|s| - |TrimStart(s)| + |Trim(s)|]
    ensures AllTrimmed(s[..|s| - |TrimStart(s)|])
    ensures AllTrimmed(s[|s| - |TrimStart(s)| + |Trim(s)|..])
  {
    var front := TrimStart(s);
    var k := |s| - |front|;
    var r := Trim(s);
    assert r == TrimEnd(front);
    SliceOfSuffix(s, front, r);
  }

  /** A prefix `r` of the suffix `front` of `s` is a slice of `s`, and what follows it in `front` follows it in `s`. */
  lemma SliceOfSuffix(s: string, front: string, r: string)
    requires |front| <= |s| && front == s[|s| - |front|..]
    requires |r| <= |front| && r == front[..|r|]
    ensures r == s[|s| - |front|..|s| - |front| + |r|]
    ensures s[|s| - |front| + |r|..] == front[|r|..]
  {
  }

  /** Trimming the front leaves the string empty exactly when every character is white space. */
  lemma {:induction false} TrimStartEmpty(s: string)
    ensures TrimStart(s) == "" <==> forall i :: 0 <= i < |s| ==> IsTrimmed(s[i])
  {
    if s != [] && IsTrimmed(s[0]) {
      TrimStartEmpty(s[1..]);
      assert forall i :: 1 <= i < |s| ==> s[i] == s[1..][i - 1];
    }
  }

  /** Trimming the back of a string empties it only when it was empty. */
  lemma {:induction false} TrimEndEmpty(s: string)
    requires s == [] || !IsTrimmed(s[0])
    ensures TrimEnd(s) == "" <==> s == ""
  {
    if s != [] && IsTrimmed(s[|s| - 1]) {
      assert |s| > 1;
      TrimEndEmpty(s[..|s| - 1]);
    }
  }

  /** `message.trim()` is truthy exactly when the message has a character that is not white space. */
  lemma TrimEmpty(s: string)
    ensures Trim(s) != "" <==> exists i :: 0 <= i < |s| && !IsTrimmed(s[i])
  {
    TrimStartEmpty(s);
    TrimEndEmpty(TrimStart(s));
  }

  /** The session the chat belongs to, when there is one. */
  datatype SessionData = SessionData(/** `_id` */ id: string, openAiThreadId: JsValue, openAiAssistantId: JsValue)

  datatype MessagePayload = MessagePayload(message: string, threadId: JsValue, assistantId: JsValue)

  /** `typeof message === 'string' && message.trim()` */
  predicate MaySend(message: JsValue): (b: bool)
    ensures b <==> message.Str? && exists i :: 0 <= i < |message.s| && !IsTrimmed(message.s[i])
  {
    assert message.Str? ==> (Trim(message.s) != "" <==> exists i :: 0 <= i < |message.s| && !IsTrimmed(message.s[i])) by {
      if message.Str? {
        TrimEmpty(message.s);
      }
    }
    message.Str? && Trim(message.s) != ""
  }

  /**
   * `sendMessage`: the payload posted to the streaming endpoint, or None when
   * the guard rejects the message and nothing is sent.
   */
  function SendMessage(message: JsValue, sessionData: Option<SessionData>, assistantId: JsValue): (r: Option<MessagePayload>)
    // nothing is sent unless the input is a string with a non-white-space character
    ensures r.Some? <==> message.Str? && exists i :: 0 <= i < |message.s| && !IsTrimmed(message.s[i])
    ensures r.Some? ==> r.value.message == message.s
    // the thread comes from the session, and is null without one
    ensures r.Some? ==> r.value.threadId == (if sessionData.Some? then sessionData.value.openAiThreadId else Null)
    // the assistant comes from the session when there is one, else from the assistant record
    ensures r.Some? ==> r.value.assistantId == (if sessionData.Some? then sessionData.value.openAiAssistantId else assistantId)
  {
    if MaySend(message) then
      Some(MessagePayload(
        message.s,
        if sessionData.Some? then sessionData.value.openAiThreadId else Null,
        if sessionData.Some? then sessionData.value.openAiAssistantId else assistantId))
    else None
  }

  // ---------------------------------------------------------------------------
  // Chat history (screens/Threads/Chat.js:389-411)
  // ---------------------------------------------------------------------------

  const HistoryPrefix := "chat/history?sessionId="

  /** The path of the history request for a session. */
  function HistoryPath(sessionId: string): (p: string)
    ensures |p| == |HistoryPrefix| + |sessionId|
    ensures p[..|HistoryPrefix|] == HistoryPrefix
  {
    HistoryPrefix + sessionId
  }

  /** The session id can be read back from the path: different sessions ask for different paths. */
  lemma HistoryPathNamesSession(a: string, b: string)
    ensures HistoryPath(a)[|HistoryPrefix|..] == a
    ensures HistoryPath(a) == HistoryPath(b) ==> a == b
  {
    assert HistoryPath(a)[|HistoryPrefix|..] == a;
    assert HistoryPath(b)[|HistoryPrefix|..] == b;
  }

  datatype HistoryRequest = HistoryRequest(path: string, authorization: string)

  /** The history part of the chat screen: the requests it sent and the records it shows. */
  class ChatHistory {
    var requests: seq<HistoryRequest>
    var chatHistory: seq<JsValue>

    constructor ()
      ensures requests == [] && chatHistory == []
    {
      requests, chatHistory := [], [];
    }

    /**
     * The effect on `[token, sessionData]` running `fetchChatHistory`: one
     * request for the session's history iff the token is truthy and there is
     * session data; `records` is the reply's `data.records`, None when the
     * request failed (the error is caught and logged).
     */
    method OnSessionChange(token: Option<string>, sessionData: Option<SessionData>, records: Option<seq<JsValue>>)
      modifies this
      ensures |requests| == |old(requests)| + 1 <==> Truthy(token) && sessionData.Some?
      ensures !(Truthy(token) && sessionData.Some?) ==> requests == old(requests) && chatHistory == old(chatHistory)
      ensures Truthy(token) && sessionData.Some? ==>
                && requests == old(requests) + [HistoryRequest(HistoryPath(sessionData.value.id), "Bearer " + token.value)]
                && chatHistory == if records.Some? then records.value else old(chatHistory)
    {
      if Truthy(token) && sessionData.Some? {
        requests := requests + [HistoryRequest(HistoryPath(sessionData.value.id), "Bearer " + token.value)];
        if records.Some? {
          chatHistory := records.value;
        }
      }
    }
  }

  // ---------------------------------------------------------------------------
  // Per-message playback (screens/Threads/Chat.js:68-107, 151-152)
  // ---------------------------------------------------------------------------

  class MessagePlayer {
    var sound: Media.Sound?
    var isPlaying: bool

    constructor ()
      ensures sound == null && !isPlaying
    {
      sound, isPlaying := null, false;
    }

    /**
     * `handleAudio`: resumes the held sound, or creates one when none is held
     * (`created` says whether `Sound.createAsync` succeeded); both paths raise
     * `isPlaying`.
     */
    method HandleAudio(created: bool)
      modifies this, sound
      ensures old(sound) != null ==>
                sound == old(sound) && isPlaying
                && sound.loaded == old(sound.loaded) && sound.playing == (old(sound.loaded) || old(sound.playing))
      ensures old(sound) == null && created ==> sound != null && fresh(sound) && sound.loaded && sound.playing && isPlaying
      ensures old(sound) == null && !created ==> sound == null && isPlaying == old(isPlaying)
    {
      if sound != null {
        isPlaying := true;
        var resumed := sound.Play();
      } else if created {
        var s := new Media.Sound.Create();
        sound := s;
        isPlaying := true;
        var started := s.Play();
      }
    }

    /** `handlePause`: without a sound nothing happens; otherwise it pauses and `isPlaying` drops. */
    method HandlePause()
      modifies this, sound
      ensures sound == old(sound)
      ensures old(sound) == null ==> isPlaying == old(isPlaying)
      ensures old(sound) != null ==> !isPlaying && !sound.playing && sound.loaded == old(sound.loaded)
    {
      if sound != null {
        isPlaying := false;
        sound.Pause();
      }
    }

    /** `handleStop`: stops and unloads the held sound but keeps it in `sound`. */
    method HandleStop()
      modifies this, sound
      ensures sound == old(sound)
      ensures old(sound) == null ==> isPlaying == old(isPlaying)
      ensures old(sound) != null ==> !isPlaying && !sound.playing && !sound.loaded
    {
      if sound != null {
        isPlaying := false;
        sound.Stop();
        sound.Unload();
      }
    }

    /** The status effect: a status with `didJustFinish` stops the sound. */
    method OnStatus(didJustFinish: bool)
      modifies this, sound
      ensures sound == old(sound)
      ensures didJustFinish && old(sound) != null ==> !isPlaying && !sound.loaded && !sound.playing
      ensures !didJustFinish ==> isPlaying == old(isPlaying) && (sound != null ==> unchanged(sound))
    {
      if didJustFinish {
        HandleStop();
      }
    }

    /** The play button: pause while playing, play otherwise. */
    method OnPress(created: bool)
      modifies this, sound
      // playing: the pause handler; the held sound is kept and paused
      ensures old(isPlaying) && old(sound) != null ==>
                sound == old(sound) && !isPlaying && !sound.playing && sound.loaded == old(sound.loaded)
      ensures old(isPlaying) && old(sound) == null ==> isPlaying && sound == null
      // not playing: the audio handler; a held sound resumes, otherwise a fresh one starts
      ensures !old(isPlaying) && old(sound) != null ==>
                sound == old(sound) && isPlaying && sound.loaded == old(sound.loaded)
                && sound.playing == (old(sound.loaded) || old(sound.playing))
      ensures !old(isPlaying) && old(sound) == null && created ==>
                sound != null && fresh(sound) && sound.loaded && sound.playing && isPlaying
      ensures !old(isPlaying) && old(sound) == null && !created ==> sound == null && !isPlaying
    {
      if isPlaying {
        HandlePause();
      } else {
        HandleAudio(created);
      }
    }

    /**
     * Once a clip has finished, the sound is kept but unloaded: pressing play
     * again raises `isPlaying` although nothing plays.
     */
    method ReplayAfterFinish(created: bool)
      requires sound != null
      modifies this, sound
      ensures isPlaying && sound == old(sound) && !sound.loaded && !sound.playing
    {
      OnStatus(true);
      OnPress(created);
    }
  }
}
