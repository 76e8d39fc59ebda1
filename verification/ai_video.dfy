/**
 * The capture side of screens/AiModules/AiVideo.js: the microphone toggle
 * starts and stops a recording, and a stopped recording's URI is handed to
 * the voice pipeline. Microphone permission, the audio mode and the
 * recording library are replaced by supplied outcomes.
 */
module AiVideo {
  import opened Wrappers
  import Media
  import OpenAi

  /** A recording object of the audio library: its file URI and whether it was stopped and unloaded. */
  class Recording {
    const uri: string
    var stopped: bool

    constructor Create(uri: string)
      ensures this.uri == uri && !stopped
    {
      this.uri := uri;
      stopped := false;
    }

    /** `stopAndUnloadAsync`; `ok` says whether it resolved (a rejection leaves the object as it was). */
    method StopAndUnload(ok: bool)
      modifies this
      ensures stopped == (ok || old(stopped))
    {
      if ok {
        stopped := true;
      }
    }
  }

  /** The `recording` state: undefined, a recording object, or (after a stop) only its URI. */
  datatype RecordingSlot = NoRecording | Held(recording: Recording) | Uri(uri: string)

  /** JavaScript truthiness of the `recording` state: an object is truthy, a URI iff it is non-empty. */
  predicate RecordingTruthy(slot: RecordingSlot) {
    match slot
    case NoRecording => false
    case Held(_) => true
    case Uri(u) => u != ""
  }

  /** What the permission request, audio mode and `Recording.createAsync` did together. */
  datatype StartOutcome = Created(uri: string) | StartFailed

  /**
   * The hook's state after `transcribeAudio(uri)` ran to its end with
   * `replies`, relative to its state before: every field the turn touches is
   * the turn function of the replies.
   */
  twostate predicate TurnRanOn(p: OpenAi.VoicePipeline, uri: string, replies: OpenAi.TurnReplies)
    reads p, p.sound
  {
    && p.sent == old(p.sent) + OpenAi.TurnIssued(p.apiKey, uri, old(p.Flags()), replies)
    && |p.controllers| == |old(p.controllers)| + |OpenAi.TurnIssued(p.apiKey, uri, old(p.Flags()), replies)|
    && old(p.controllers) <= p.controllers
    && p.error == OpenAi.TurnError(replies)
    && p.files == OpenAi.TurnFiles(old(p.files), OpenAi.AudioPath(p.documentDirectory), replies)
    && (OpenAi.TurnCreatesSound(replies) ==> p.sound != null && fresh(p.sound) && p.sound.playing == replies.next.next.next.play.Played?)
    && (!OpenAi.TurnCreatesSound(replies) ==> p.sound == old(p.sound))
    && p.transcribedText == (if OpenAi.Accepted(replies.transcription) then replies.transcription.response.data
                             else old(p.transcribedText))
    && p.chatGptResponse == (if OpenAi.Accepted(replies.transcription) && OpenAi.Answered(replies.next.completion)
                             then replies.next.completion.response.data.value else old(p.chatGptResponse))
    && var thrown := OpenAi.TurnThrows(replies);
       p.Flags() == OpenAi.StageFlags(
                      thrown,
                      if OpenAi.Accepted(replies.transcription) then thrown else old(p.isFetchingResponse),
                      if OpenAi.Accepted(replies.transcription) && OpenAi.Answered(replies.next.completion)
                      then thrown else old(p.isGeneratingSpeech))
  }

  class AiVideoScreen {
    var cameraStatus: bool
    var micStatus: bool
    var recording: RecordingSlot
    var isRecording: bool
    var sound: Media.Sound?
    /** The `useOpenAI` hook this screen uses. */
    const openAi: OpenAi.VoicePipeline

    /** A recording is under way only while a recording object is held. */
    ghost predicate Valid()
      reads this, openAi, openAi.controllers
    {
      && (isRecording ==> recording.Held?)
      && openAi.Valid()
    }

    constructor (openAi: OpenAi.VoicePipeline)
      requires openAi.Valid()
      ensures Valid() && this.openAi == openAi
      ensures !cameraStatus && !micStatus && !isRecording && recording == NoRecording && sound == null
    {
      this.openAi := openAi;
      cameraStatus, micStatus, isRecording := false, false, false;
      recording, sound := NoRecording, null;
    }

    /**
     * `startRecording`: `isRecording` is raised only once the recording object
     * exists; any failure leaves the screen as it was.
     */
    method StartRecording(start: StartOutcome)
      requires Valid()
      modifies this
      ensures Valid()
      ensures start.StartFailed? ==> recording == old(recording) && isRecording == old(isRecording)
      ensures start.Created? ==> isRecording && recording.Held? && fresh(recording.recording)
                                 && recording.recording.uri == start.uri && !recording.recording.stopped
      ensures micStatus == old(micStatus) && cameraStatus == old(cameraStatus) && sound == old(sound)
    {
      if start.StartFailed? {
        return;
      }
      var created := new Recording.Create(start.uri);
      recording := Held(created);
      isRecording := true;
    }

    /**
     * `stopRecording`: lowers `isRecording` first, then stops the recording.
     * When the stop resolves it keeps only the URI and hands that same URI to
     * the transcription; when it rejects, the rejection escapes and nothing
     * else happens.
     */
    method StopRecording(stop: bool, replies: OpenAi.TurnReplies)
      requires Valid() && isRecording
      modifies this, recording.recording, openAi
      ensures Valid()
      ensures !isRecording
      ensures old(recording).recording.stopped == (stop || old(recording.recording.stopped))
      ensures stop ==> recording == Uri(old(recording).recording.uri)
                       && TurnRanOn(openAi, old(recording).recording.uri, replies)
      ensures !stop ==> recording == old(recording) && unchanged(openAi)
      ensures micStatus == old(micStatus) && cameraStatus == old(cameraStatus) && sound == old(sound)
    {
      isRecording := false;
      var held := recording.recording;
      held.StopAndUnload(stop);
      if !stop {
        return;
      }
      var uri := held.uri;
      recording := Uri(uri);
      var _ := openAi.TranscribeAudio(uri, replies);
    }

    /**
     * `handleMic`: always flips `micStatus`, then stops if recording, else
     * starts. `stop` is the outcome of stopping, `start` that of starting.
     */
    method HandleMic(start: StartOutcome, stop: bool, replies: OpenAi.TurnReplies)
      requires Valid()
      modifies this, openAi, if recording.Held? then {recording.recording} else {}
      ensures Valid()
      ensures micStatus == !old(micStatus)
      ensures cameraStatus == old(cameraStatus) && sound == old(sound)
      // stopping: the turn runs on exactly the held recording's URI
      ensures old(isRecording) ==> !isRecording
      ensures old(isRecording) && stop ==>
                recording == Uri(old(recording).recording.uri)
                && TurnRanOn(openAi, old(recording).recording.uri, replies)
      ensures old(isRecording) && !stop ==> recording == old(recording) && unchanged(openAi)
      // starting: a fresh recording on the created URI, and no request
      ensures !old(isRecording) && start.Created? ==>
                isRecording && recording.Held? && fresh(recording.recording)
                && recording.recording.uri == start.uri && !recording.recording.stopped
      ensures !old(isRecording) && start.StartFailed? ==> !isRecording && recording == old(recording)
      ensures !old(isRecording) ==> unchanged(openAi)
    {
      micStatus := !micStatus;
      if isRecording {
        StopRecording(stop, replies);
      } else {
        StartRecording(start);
      }
    }

    /** `handleVideo`: toggles the camera; its argument is ignored. */
    method HandleVideo(action: bool)
      requires Valid()
      modifies this
      ensures Valid()
      ensures cameraStatus == !old(cameraStatus)
      ensures micStatus == old(micStatus) && isRecording == old(isRecording)
      ensures recording == old(recording) && sound == old(sound)
    {
      cameraStatus := !cameraStatus;
    }

    /**
     * `setSound` together with the effect on `sound`: whenever the held sound
     * changes, the previous one is unloaded.
     */
    method SetSound(next: Media.Sound?)
      requires Valid()
      modifies this, sound
      ensures Valid()
      ensures sound == next
      ensures old(sound) != null && old(sound) != next ==> !old(sound).loaded && !old(sound).playing
      ensures old(sound) == next ==> old(sound) == null || unchanged(old(sound))
      ensures micStatus == old(micStatus) && cameraStatus == old(cameraStatus)
      ensures isRecording == old(isRecording) && recording == old(recording)
    {
      if sound != null && sound != next {
        sound.Unload();
      }
      sound := next;
    }

    /**
     * `playRecording`: nothing without a (truthy) recording; otherwise a newly
     * created sound becomes `sound`, the previous one is unloaded, and the
     * new one plays. `created` says whether `Sound.createAsync` succeeded.
     */
    method PlayRecording(created: bool)
      requires Valid()
      modifies this, sound
      ensures Valid()
      ensures !RecordingTruthy(old(recording)) || !created ==> sound == old(sound)
      ensures RecordingTruthy(old(recording)) && created ==>
                sound != null && fresh(sound) && sound.playing
                && (old(sound) != null ==> !old(sound).loaded)
      ensures micStatus == old(micStatus) && cameraStatus == old(cameraStatus)
      ensures isRecording == old(isRecording) && recording == old(recording)
    {
      if !RecordingTruthy(recording) || !created {
        return;
      }
      var s := new Media.Sound.Create();
      SetSound(s);
      var started := s.Play();
    }

    /** Leaving the screen runs the effect's cleanup: the held sound is unloaded. */
    method Unmount()
      requires Valid()
      modifies sound
      ensures Valid()
      ensures sound != null ==> !sound.loaded && !sound.playing
    {
      if sound != null {
        sound.Unload();
      }
    }
  }
}
