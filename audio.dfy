/** Audio extraction and transcription. The transcoder, the speech models
    and the filesystem are not modelled: each is a function from the
    arguments of the call to the outcome of the call. */
module Audio {
  import opened Wrappers
  import opened Text

  /** How running an external program ended: its exit status, the program
      missing from the PATH, or another operating-system error. */
  datatype ToolRun = Exited(code: int) | NotFound | OsError(message: string)

  /** How a call into an optional library ended: the library not
      installed, an exception, or a value. */
  datatype Backend<T> = NotInstalled | Raised(message: string) | Returned(value: T)

  datatype Segment = Segment(start: real, end: real, text: string)

  /** The `info` that the local model reports beside its segments. */
  datatype WhisperInfo = WhisperInfo(language: string, duration: real)

  /** The arguments the local model is loaded and run with. */
  datatype WhisperSetup = WhisperSetup(model: string, device: string, computeType: string, audioPath: string)

  /** The attributes of a remote transcription response; `None` is an
      attribute the response does not carry. */
  datatype RemoteReply = RemoteReply(
    text: string,
    language: Option<string>,
    duration: Option<real>,
    segments: Option<seq<Segment>>)

  datatype RemoteSetup = RemoteSetup(apiKey: string, model: string, audioPath: string)

  /** The transcript record both backends return. */
  datatype Transcript = Transcript(
    text: string,
    language: string,
    duration: Option<real>,
    segments: seq<Segment>)

  /** The dict `get_audio_metadata` returns. */
  datatype AudioMetadata = NoAudioFile | AudioFile(path: string, sizeBytes: nat, format: string)

  const NoAudioMessage := "No audio file available. Extract audio first."
  const WhisperMissingMessage := "faster-whisper not installed. Install with: pip install faster-whisper"
  const OpenAIMissingMessage := "OpenAI library not installed. Install with: pip install openai"

  /** The message of the exception that wraps any other failure of a transcriber. */
  function FailedMessage(message: string): string {
    "Transcription failed: " + message
  }

  // ---------------------------------------------------------------------
  // Extraction

  /** `output_dir/<stem of the video>.<format>`. */
  function AudioPathFor(videoPath: string, outputDir: string, audioFormat: string): string {
    PathJoin(outputDir, Stem(videoPath) + "." + audioFormat)
  }

  function Codec(audioFormat: string): (c: string)
    ensures c == "pcm_s16le" <==> audioFormat == "wav"
    ensures c == "libmp3lame" <==> audioFormat != "wav"
  {
    if audioFormat == "wav" then "pcm_s16le" else "libmp3lame"
  }

  /** The transcoder's command line: no video, the codec for the format,
      16000 Hz, one channel, overwriting the output. */
  function FfmpegCommand(videoPath: string, audioFormat: string, audioPath: string): seq<string> {
    ["ffmpeg", "-y", "-i", videoPath, "-vn", "-acodec", Codec(audioFormat), "-ar", "16000", "-ac", "1", audioPath]
  }

  lemma FfmpegCommandShape(videoPath: string, audioFormat: string, audioPath: string)
    ensures var cmd := FfmpegCommand(videoPath, audioFormat, audioPath);
            && |cmd| == 12 && cmd[0] == "ffmpeg" && cmd[3] == videoPath && cmd[11] == audioPath
            && cmd[6] == Codec(audioFormat) && cmd[7..11] == ["-ar", "16000", "-ac", "1"]
  {
  }

  /** What `extract_audio` returns: the path when the transcoder exits with
      status 0, None when it fails or is missing, and the error when running
      it raises anything else. */
  function ExtractOutcome(videoPath: string, outputDir: string, audioFormat: string, run: seq<string> -> ToolRun)
    : Result<Option<string>, string>
  {
    var audioPath := AudioPathFor(videoPath, outputDir, audioFormat);
    match run(FfmpegCommand(videoPath, audioFormat, audioPath))
    case Exited(code) => if code == 0 then Success(Some(audioPath)) else Success(None)
    case NotFound => Success(None)
    case OsError(message) => Failure(message)
  }

  /** The path is returned exactly when the transcoder exits with status 0;
      None exactly when it fails or is missing; an error exactly when running
      it raises anything else. */
  lemma ExtractOutcomeCases(videoPath: string, outputDir: string, audioFormat: string, run: seq<string> -> ToolRun)
    ensures var r := ExtractOutcome(videoPath, outputDir, audioFormat, run);
            var audioPath := AudioPathFor(videoPath, outputDir, audioFormat);
            var outcome := run(FfmpegCommand(videoPath, audioFormat, audioPath));
            && (r == Success(Some(audioPath)) <==> outcome == Exited(0))
            && (r == Success(None) <==> outcome == NotFound || (outcome.Exited? && outcome.code != 0))
            && (r.Failure? <==> outcome.OsError?)
  {
  }

  // ---------------------------------------------------------------------
  // Transcription

  /** The device the local model runs on: "auto" becomes "cuda" when the
      tensor library is installed and sees a GPU, "cpu" otherwise; any other
      request is kept. `cuda` is None when the library is not installed. */
  function ChooseDevice(device: string, cuda: Option<bool>): string {
    if device == "auto" then (if cuda == Some(true) then "cuda" else "cpu") else device
  }

  function ComputeType(device: string): string {
    if device == "cuda" then "float16" else "int8"
  }

  /** With automatic device selection, half precision is used exactly when
      a GPU is available; otherwise the model runs quantised on the CPU. */
  lemma AutoDevicePrecision(cuda: Option<bool>)
    ensures ComputeType(ChooseDevice("auto", cuda)) == "float16" <==> cuda == Some(true)
    ensures ComputeType(ChooseDevice("auto", cuda)) == "int8" <==> ChooseDevice("auto", cuda) == "cpu"
  {
  }

  function SegmentTexts(segments: seq<Segment>): (texts: seq<string>)
    ensures |texts| == |segments| && forall j :: 0 <= j < |segments| ==> texts[j] == segments[j].text
  {
    seq(|segments|, j requires 0 <= j < |segments| => segments[j].text)
  }

  /** `transcribe_audio_local` as a value. */
  function LocalTranscript(audioPath: Option<string>, model: string, device: string, cuda: Option<bool>,
                           whisper: WhisperSetup -> Backend<(seq<Segment>, WhisperInfo)>)
    : (r: Result<Transcript, string>)
    ensures (audioPath.None? || audioPath.value == "") ==> r == Failure(NoAudioMessage)
    ensures r.Success? ==>
              var dev := ChooseDevice(device, cuda);
              exists segments: seq<Segment>, info: WhisperInfo :: whisper(WhisperSetup(model, dev, ComputeType(dev), audioPath.value))
                                         == Returned((segments, info))
                                       && r.value.segments == segments
                                       && r.value.text == JoinWith(" ", SegmentTexts(segments))
                                       && r.value.language == info.language
                                       && r.value.duration == Some(info.duration)
    ensures audioPath.Some? && audioPath.value != "" ==>
              var dev := ChooseDevice(device, cuda);
              var outcome := whisper(WhisperSetup(model, dev, ComputeType(dev), audioPath.value));
              && (outcome.NotInstalled? ==> r == Failure(WhisperMissingMessage))
              && (outcome.Raised? ==> r == Failure(FailedMessage(outcome.message)))
              && (outcome.Returned? ==> r.Success? && r.value.segments == outcome.value.0
                                        && r.value.text == JoinWith(" ", SegmentTexts(outcome.value.0))
                                        && r.value.language == outcome.value.1.language
                                        && r.value.duration == Some(outcome.value.1.duration))
  {
    if audioPath.None? || audioPath.value == "" then Failure(NoAudioMessage)
    else
      var dev := ChooseDevice(device, cuda);
      match whisper(WhisperSetup(model, dev, ComputeType(dev), audioPath.value))
      case NotInstalled => Failure(WhisperMissingMessage)
      case Raised(message) => Failure(FailedMessage(message))
      case Returned((segments, info)) =>
        Success(Transcript(JoinWith(" ", SegmentTexts(segments)), info.language, Some(info.duration), segments))
  }

  /** `transcribe_audio_openai` as a value: attributes the response lacks
      default to language "en", no duration and no segments. */
  function RemoteTranscript(audioPath: Option<string>, apiKey: string, model: string,
                            openai: RemoteSetup -> Backend<RemoteReply>)
    : (r: Result<Transcript, string>)
    ensures (audioPath.None? || audioPath.value == "") ==> r == Failure(NoAudioMessage)
    ensures r.Success? ==> exists reply :: openai(RemoteSetup(apiKey, model, audioPath.value)) == Returned(reply)
                                           && r.value.text == reply.text
                                           && r.value.language == reply.language.GetOr("en")
                                           && r.value.duration == reply.duration
                                           && r.value.segments == reply.segments.GetOr([])
    ensures audioPath.Some? && audioPath.value != "" ==>
              var outcome := openai(RemoteSetup(apiKey, model, audioPath.value));
              && (outcome.NotInstalled? ==> r == Failure(OpenAIMissingMessage))
              && (outcome.Raised? ==> r == Failure(FailedMessage(outcome.message)))
              && (outcome.Returned? ==> r.Success? && r.value.text == outcome.value.text
                                        && r.value.language == outcome.value.language.GetOr("en")
                                        && r.value.duration == outcome.value.duration
                                        && r.value.segments == outcome.value.segments.GetOr([]))
  {
    if audioPath.None? || audioPath.value == "" then Failure(NoAudioMessage)
    else
      match openai(RemoteSetup(apiKey, model, audioPath.value))
      case NotInstalled => Failure(OpenAIMissingMessage)
      case Raised(message) => Failure(FailedMessage(message))
      case Returned(reply) =>
        Success(Transcript(reply.text, reply.language.GetOr("en"), reply.duration, reply.segments.GetOr([])))
  }

  // ---------------------------------------------------------------------
  // The processor

  class AudioProcessor {
    const videoPath: string
    const outputDir: string
    /** The last audio file extracted successfully, if any. */
    var audioPath: Option<string>

    constructor (videoPath: string, outputDir: string)
      ensures this.videoPath == videoPath && this.outputDir == outputDir && audioPath == None
    {
      this.videoPath := videoPath;
      this.outputDir := outputDir;
      audioPath := None;
    }

    /** `extract_audio`: on success the new path is remembered; on failure
        the previous one is kept. */
    method ExtractAudio(audioFormat: string, run: seq<string> -> ToolRun) returns (r: Result<Option<string>, string>)
      modifies this`audioPath
      ensures r == ExtractOutcome(videoPath, outputDir, audioFormat, run)
      ensures audioPath == if r.Success? && r.value.Some? then r.value else old(audioPath)
    {
      var path := AudioPathFor(videoPath, outputDir, audioFormat);
      var cmd := FfmpegCommand(videoPath, audioFormat, path);
      match run(cmd)
      case Exited(code) =>
        if code == 0 {
          audioPath := Some(path);
          return Success(Some(path));
        }
        return Success(None);
      case NotFound =>
        return Success(None);
      case OsError(message) =>
        return Failure(message);
    }

    /** `transcribe_audio_local`: collects the segments in order and joins
        their texts with single spaces. */
    method TranscribeLocal(model: string, device: string, cuda: Option<bool>,
                           whisper: WhisperSetup -> Backend<(seq<Segment>, WhisperInfo)>)
      returns (r: Result<Transcript, string>)
      ensures r == LocalTranscript(audioPath, model, device, cuda, whisper)
    {
      if audioPath.None? || audioPath.value == "" {
        return Failure(NoAudioMessage);
      }
      var dev := ChooseDevice(device, cuda);
      var computeType := ComputeType(dev);
      match whisper(WhisperSetup(model, dev, computeType, audioPath.value))
      case NotInstalled =>
        return Failure(WhisperMissingMessage);
      case Raised(message) =>
        return Failure(FailedMessage(message));
      case Returned((segments, info)) =>
        var segmentList: seq<Segment> := [];
        var fullText: seq<string> := [];
        for i := 0 to |segments|
          invariant segmentList == segments[..i]
          invariant fullText == SegmentTexts(segments[..i])
        {
          segmentList := segmentList + [segments[i]];
          fullText := fullText + [segments[i].text];
        }
        assert segments[..|segments|] == segments;
        return Success(Transcript(JoinWith(" ", fullText), info.language, Some(info.duration), segmentList));
    }

    /** `transcribe_audio_openai`: the remote transcript of the recorded
        audio path. */
    function TranscribeOpenAI(apiKey: string, model: string, openai: RemoteSetup -> Backend<RemoteReply>)
      : (r: Result<Transcript, string>)
      reads this
      ensures (audioPath.None? || audioPath.value == "") ==> r == Failure(NoAudioMessage)
      ensures r.Success? ==> exists reply :: openai(RemoteSetup(apiKey, model, audioPath.value)) == Returned(reply)
                                             && r.value.text == reply.text
                                             && r.value.language == reply.language.GetOr("en")
      ensures audioPath.Some? && audioPath.value != "" ==>
                var outcome := openai(RemoteSetup(apiKey, model, audioPath.value));
                && (outcome.NotInstalled? ==> r == Failure(OpenAIMissingMessage))
                && (outcome.Raised? ==> r == Failure(FailedMessage(outcome.message)))
                && (outcome.Returned? ==> r.Success? && r.value.text == outcome.value.text)
    {
      RemoteTranscript(audioPath, apiKey, model, openai)
    }

    /** `get_audio_metadata`: "no audio file" unless a path is set and the
        file exists; otherwise its path, size and extension without the dot.
        `sizeOf` gives the size of an existing file, None for a missing one. */
    function GetAudioMetadata(sizeOf: string -> Option<nat>): (m: AudioMetadata)
      reads this
      ensures m == NoAudioFile <==> audioPath.None? || audioPath.value == "" || sizeOf(audioPath.value).None?
      ensures m.AudioFile? ==> m.path == audioPath.value && m.sizeBytes == sizeOf(audioPath.value).value
    {
      if audioPath.None? || audioPath.value == "" || sizeOf(audioPath.value).None? then NoAudioFile
      else
        var suffix := Suffix(audioPath.value);
        AudioFile(audioPath.value, sizeOf(audioPath.value).value, if suffix == "" then "" else suffix[1..])
    }
  }

  /** After a successful extraction the metadata reports the requested
      format, provided the video's name has a stem and the format is a plain
      extension. */
  lemma ExtractedFormatReported(p: AudioProcessor, audioFormat: string, sizeOf: string -> Option<nat>)
    requires p.audioPath == Some(AudioPathFor(p.videoPath, p.outputDir, audioFormat))
    requires Stem(p.videoPath) != ""
    requires audioFormat != "" && '/' !in audioFormat && '.' !in audioFormat
    requires sizeOf(p.audioPath.value).Some?
    ensures p.GetAudioMetadata(sizeOf) == AudioFile(p.audioPath.value, sizeOf(p.audioPath.value).value, audioFormat)
  {
    SuffixOfName(p.outputDir, Stem(p.videoPath), audioFormat);
  }
}
