/** The orchestrator: five stages run in order over one results map that
    lives as long as the analyzer. Each stage records what it produced or a
    fixed placeholder, and no stage stops the run. Everything the stages ask
    of the outside world (the decoded video, the transcoder, the speech
    models, the chat endpoint, the JSON parser, the clock, the filesystem)
    is a field of a `World` value. */
module Analyzer {
  import opened Wrappers
  import opened Text
  import opened Json
  import opened Video
  import opened Audio
  import opened Ai
  import Srs

  /** Outcomes of the calls into the outside world during one run. */
  datatype World = World(
    capture: Capture,            // what the extraction's own `cv2.VideoCapture` reads
    metadataCapture: Capture,    // what `get_video_metadata`'s separate `cv2.VideoCapture` reads
    diff: (Frame, Frame) -> real,
    ffmpeg: seq<string> -> ToolRun,
    cuda: Option<bool>,
    whisper: WhisperSetup -> Backend<(seq<Segment>, WhisperInfo)>,
    openai: RemoteSetup -> Backend<RemoteReply>,
    vision: string -> Result<Option<string>, string>,
    complete: Prompt -> Result<Option<string>, string>,
    parse: string -> Option<Json>,
    timestamp: string,
    date: string,
    docxInstalled: bool,
    writeError: string -> Option<string>)   // the error opening a path for writing raises, if any

  /** The arguments of `analyze`. */
  datatype Options = Options(
    intervalSeconds: int,
    keyFrames: bool,
    maxKeyFrames: int,
    maxFramesToAnalyze: int,
    projectName: string)

  /** The record stored under "transcription". */
  datatype Transcription =
    | Transcribed(transcript: Transcript)
    | Skipped                          // no audio was extracted
    | AudioError(message: string)      // extraction or transcription raised

  /** A value of the results map. */
  datatype Entry =
    | MetadataEntry(metadata: VideoMetadata)
    | PathsEntry(paths: seq<string>)
    | TranscriptionEntry(transcription: Transcription)
    | AnalysesEntry(analyses: seq<FrameAnalysis>)
    | RequirementsEntry(requirements: Json)
    | PathEntry(path: string)
    | CountEntry(count: nat)

  const KeyFrameThreshold: real := 30.0
  const SkippedText := "Audio transcription not available. Install ffmpeg for audio support."

  function TranscriptionText(t: Transcription): string {
    match t
    case Transcribed(transcript) => transcript.text
    case Skipped => SkippedText
    case AudioError(message) => "Error: " + message
  }

  /** The "status" of a placeholder record; a transcript carries none. */
  function TranscriptionStatus(t: Transcription): Option<string> {
    match t
    case Transcribed(_) => None
    case Skipped => Some("skipped")
    case AudioError(_) => Some("error")
  }

  /** `dict.get(key)`. */
  function DictGet(results: map<string, Entry>, key: string): Option<Entry> {
    if key in results then Some(results[key]) else None
  }

  /** `results.get('transcription', {}).get('text', '')`, before the default. */
  function TextOf(e: Option<Entry>): Option<string> {
    if e.Some? && e.value.TranscriptionEntry? then Some(TranscriptionText(e.value.transcription)) else None
  }

  /** `results.get('frame_analyses', [])`. */
  function AnalysesOf(e: Option<Entry>): seq<FrameAnalysis> {
    if e.Some? && e.value.AnalysesEntry? then e.value.analyses else []
  }

  /** `results.get('requirements', {})`. */
  function RequirementsOf(e: Option<Entry>): Json {
    if e.Some? && e.value.RequirementsEntry? then e.value.requirements else JObj([])
  }

  /** `len(results.get('frame_paths', []))`. */
  function FrameCount(e: Option<Entry>): nat {
    if e.Some? && e.value.PathsEntry? then |e.value.paths| else 0
  }

  /** The stop of Python's slice `s[:m]`: a negative `m` counts from the
      end, and the stop is clamped to the sequence. */
  function SliceStop(length: nat, m: int): (stop: nat)
    ensures stop <= length
    ensures m >= 0 ==> stop == if m < length then m else length
    ensures m < 0 ==> stop == if length + m > 0 then length + m else 0
  {
    if m >= 0 then (if m < length then m else length)
    else if length + m > 0 then length + m else 0
  }

  /** `s[:m]`. */
  function PySlicePrefix<T>(s: seq<T>, m: int): (r: seq<T>)
    ensures r == s[..SliceStop(|s|, m)]
  {
    s[..SliceStop(|s|, m)]
  }

  /** The file the results snapshot is written to: every entry except the
      frame paths, plus their number. */
  function Snapshot(results: map<string, Entry>): (s: map<string, Entry>)
    ensures "frame_paths" !in s
    ensures "frame_count" in s && s["frame_count"] == CountEntry(FrameCount(DictGet(results, "frame_paths")))
    ensures forall k :: k != "frame_paths" && k != "frame_count" ==> (k in s <==> k in results)
    ensures forall k :: k in s && k != "frame_count" ==> k in results && s[k] == results[k]
  {
    (map k | k in results && k != "frame_paths" :: results[k])["frame_count" := CountEntry(FrameCount(DictGet(results, "frame_paths")))]
  }

  // ---------------------------------------------------------------------
  // The stages as functions of their outcomes

  /** Step 1: the frame paths and, when the metadata could be read, the
      metadata; [] as the frame paths when either call raised. */
  function FrameStage(results: map<string, Entry>, extracted: Result<seq<SavedFrame>, VideoError>,
                      metadata: Result<VideoMetadata, VideoError>): map<string, Entry>
  {
    if extracted.Success? && metadata.Success? then
      results["video_metadata" := MetadataEntry(metadata.value)]["frame_paths" := PathsEntry(Paths(extracted.value))]
    else results["frame_paths" := PathsEntry([])]
  }

  /** The local variable `frame_paths` after step 1: unbound when the
      extraction itself raised. */
  function LocalFramePaths(extracted: Result<seq<SavedFrame>, VideoError>): Option<seq<string>> {
    if extracted.Success? then Some(Paths(extracted.value)) else None
  }

  /** Step 2's record, from the outcome of the extraction and of the
      transcription of the extracted file. */
  function TranscriptionOf(extracted: Result<Option<string>, string>, transcript: Result<Transcript, string>)
    : Transcription
  {
    match extracted
    case Failure(message) => AudioError(message)
    case Success(path) =>
      if path.Some? && path.value != "" then
        match transcript
        case Success(t) => Transcribed(t)
        case Failure(message) => AudioError(message)
      else Skipped
  }

  /** Step 3's record: the analyses of the first frames, or [] when there is
      no frame or the local `frame_paths` is unbound (the error that raises
      is caught). */
  function AnalysesStage(local: Option<seq<string>>, maxFramesToAnalyze: int,
                         vision: string -> Result<Option<string>, string>): seq<FrameAnalysis>
  {
    if local.Some? && local.value != [] then FrameAnalyses(PySlicePrefix(local.value, maxFramesToAnalyze), vision)
    else []
  }

  /** Step 5: the three documents share one handler, so a write that raises
      skips what follows it. `docxPath` is None when the library is missing. */
  function DocumentStage(results: map<string, Entry>, markdownPath: string, docxPath: Option<string>,
                         jsonPath: string, writeError: string -> Option<string>): map<string, Entry>
  {
    if writeError(markdownPath).Some? then results
    else DocxJsonStage(results["srs_markdown" := PathEntry(markdownPath)], docxPath, jsonPath, writeError)
  }

  /** The part of step 5 after the Markdown document was written. */
  function DocxJsonStage(results: map<string, Entry>, docxPath: Option<string>,
                         jsonPath: string, writeError: string -> Option<string>): map<string, Entry>
  {
    if docxPath.Some? && writeError(docxPath.value).Some? then results
    else
      var withDocx := if docxPath.Some? && docxPath.value != "" then results["srs_docx" := PathEntry(docxPath.value)]
                      else results;
      if writeError(jsonPath).Some? then withDocx
      else withDocx["requirements_json" := PathEntry(jsonPath)]
  }

  /** The keys a run may set; every other key of the map is left alone. */
  predicate StageKey(k: string) {
    k in {"video_metadata", "frame_paths", "transcription", "frame_analyses",
          "requirements", "srs_markdown", "srs_docx", "requirements_json"}
  }

  /** Step 5 sets each document key exactly when every write up to and
      including its own succeeded, and leaves every other key alone; a
      Markdown failure therefore keeps the previous run's document keys. */
  lemma DocumentStageKeys(results: map<string, Entry>, markdownPath: string, docxPath: Option<string>,
                          jsonPath: string, writeError: string -> Option<string>)
    ensures var r := DocumentStage(results, markdownPath, docxPath, jsonPath, writeError);
            var markdownOk := writeError(markdownPath).None?;
            var docxOk := markdownOk && (docxPath.None? || writeError(docxPath.value).None?);
            && DictGet(r, "srs_markdown") == (if markdownOk then Some(PathEntry(markdownPath)) else DictGet(results, "srs_markdown"))
            && DictGet(r, "srs_docx") == (if docxOk && docxPath.Some? && docxPath.value != "" then Some(PathEntry(docxPath.value))
                                          else DictGet(results, "srs_docx"))
            && DictGet(r, "requirements_json") == (if docxOk && writeError(jsonPath).None? then Some(PathEntry(jsonPath))
                                                   else DictGet(results, "requirements_json"))
            && forall k :: k != "srs_markdown" && k != "srs_docx" && k != "requirements_json" ==> DictGet(r, k) == DictGet(results, k)
  {
    var r := DocumentStage(results, markdownPath, docxPath, jsonPath, writeError);
    if writeError(markdownPath).None? {
      var afterMarkdown := results["srs_markdown" := PathEntry(markdownPath)];
      assert r == DocxJsonStage(afterMarkdown, docxPath, jsonPath, writeError);
    }
  }

  /** What the document step keeps of the stages before it: every entry
      of the map it was given, and the requirements that were just added. */
  lemma StageEntriesKept(gathered: map<string, Entry>, requirements: Json, r: map<string, Entry>)
    requires forall k :: k != "srs_markdown" && k != "srs_docx" && k != "requirements_json"
                         ==> DictGet(r, k) == DictGet(gathered["requirements" := RequirementsEntry(requirements)], k)
    ensures DictGet(r, "frame_paths") == DictGet(gathered, "frame_paths")
    ensures DictGet(r, "video_metadata") == DictGet(gathered, "video_metadata")
    ensures DictGet(r, "transcription") == DictGet(gathered, "transcription")
    ensures DictGet(r, "frame_analyses") == DictGet(gathered, "frame_analyses")
    ensures DictGet(r, "requirements") == Some(RequirementsEntry(requirements))
  {
    var withRequirements := gathered["requirements" := RequirementsEntry(requirements)];
    assert DictGet(r, "frame_paths") == DictGet(withRequirements, "frame_paths");
    assert DictGet(r, "video_metadata") == DictGet(withRequirements, "video_metadata");
    assert DictGet(r, "transcription") == DictGet(withRequirements, "transcription");
    assert DictGet(r, "frame_analyses") == DictGet(withRequirements, "frame_analyses");
    assert DictGet(r, "requirements") == DictGet(withRequirements, "requirements");
  }

  /** The frames sent to analysis are the first ones, at most
      `maxFramesToAnalyze` of them when that is not negative, each analysed
      under its own path; a negative bound drops that many from the end. */
  lemma AnalysedFramesAreFirst(paths: seq<string>, maxFramesToAnalyze: int,
                               vision: string -> Result<Option<string>, string>)
    ensures var a := AnalysesStage(Some(paths), maxFramesToAnalyze, vision);
            && |a| == SliceStop(|paths|, maxFramesToAnalyze)
            && (maxFramesToAnalyze >= 0 ==> |a| <= maxFramesToAnalyze)
            && (0 <= maxFramesToAnalyze <= |paths| ==> |a| == maxFramesToAnalyze)
            && forall j :: 0 <= j < |a| ==> a[j].frame == paths[j] && a[j].analysis == AnalysisOf(vision(paths[j]))
  {
    if paths != [] {
      var front := PySlicePrefix(paths, maxFramesToAnalyze);
      assert forall j :: 0 <= j < |front| ==> front[j] == paths[j];
    }
  }

  /** A reply that is not JSON still gives the full document: the six
      numbered sections, each holding its placeholder, then a "Raw Analysis"
      section holding the reply as it came, then the appendix. */
  lemma RawFallbackDocument(content: string, projectName: string, timestamp: string)
    ensures Srs.Body(RawShape(content))
            == Srs.Sections(RawShape(content).members, Srs.SectionCount)
               + [Srs.Rule, Srs.Heading(2, "Raw Analysis"), Srs.Para(content)]
    ensures forall k :: 0 <= k < Srs.SectionCount ==>
              Srs.Section(RawShape(content).members, k) == [Srs.Heading(2, Srs.Titles[k]), Srs.Para(Srs.Placeholders[k])]
    ensures Srs.TopHeadings(Srs.MarkdownBlocks(RawShape(content), projectName, timestamp))
            == ["Table of Contents", "1. Introduction"] + Srs.Titles + ["Raw Analysis", "Appendix"]
  {
    var ms := RawShape(content).members;
    assert ms[0].key == "raw_analysis";
    forall k | 0 <= k < Srs.SectionCount
      ensures Srs.Section(ms, k) == [Srs.Heading(2, Srs.Titles[k]), Srs.Para(Srs.Placeholders[k])]
    {
      assert !Has(ms, Srs.UpperKeys[k]) && !Has(ms, Srs.SnakeKeys[k]);
      Srs.MissingSectionPlaceholder(ms, k);
    }
    Srs.MarkdownHeadings(RawShape(content), projectName, timestamp);
  }

  /** A failed request gives a document whose six sections all hold their
      placeholders, with no raw analysis. */
  lemma FailedRequestDocument(message: string, projectName: string, timestamp: string)
    ensures forall k :: 0 <= k < Srs.SectionCount ==>
              Srs.Section(ErrorShape(message).members, k) == [Srs.Heading(2, Srs.Titles[k]), Srs.Para(Srs.Placeholders[k])]
    ensures Srs.TopHeadings(Srs.MarkdownBlocks(ErrorShape(message), projectName, timestamp))
            == ["Table of Contents", "1. Introduction"] + Srs.Titles + ["Appendix"]
  {
    var ms := ErrorShape(message).members;
    forall k | 0 <= k < Srs.SectionCount
      ensures Srs.Section(ms, k) == [Srs.Heading(2, Srs.Titles[k]), Srs.Para(Srs.Placeholders[k])]
    {
      assert !Has(ms, Srs.UpperKeys[k]) && !Has(ms, Srs.SnakeKeys[k]);
      Srs.MissingSectionPlaceholder(ms, k);
    }
    assert !Has(ms, "raw_analysis");
    Srs.MarkdownHeadings(ErrorShape(message), projectName, timestamp);
  }

  // ---------------------------------------------------------------------
  // The analyzer

  class MeetingAnalyzer {
    const videoPath: string
    const lmStudioUrl: string
    const textModel: string
    const visionModel: string
    const whisperModel: string
    const visionOnCpu: bool
    const outputDir: string
    const openaiApiKey: Option<string>
    const openaiModel: Option<string>
    const openaiWhisperModel: Option<string>
    const framesDir: string
    const audioDir: string
    const videoProcessor: VideoProcessor
    const audioProcessor: AudioProcessor
    const aiAnalyzer: AIAnalyzer
    const srsGenerator: Srs.SrsGenerator
    /** The results of every run so far; a run overwrites the keys it sets. */
    var results: map<string, Entry>

    /** The processors work on this analyzer's paths and models. */
    predicate Valid() {
      && framesDir == PathJoin(outputDir, "frames") && audioDir == PathJoin(outputDir, "audio")
      && videoProcessor.videoPath == videoPath && videoProcessor.outputDir == framesDir
      && audioProcessor.videoPath == videoPath && audioProcessor.outputDir == audioDir
      && aiAnalyzer.textModel == textModel && aiAnalyzer.visionModel == visionModel
      && aiAnalyzer.visionOnCpu == visionOnCpu
      && srsGenerator.outputDir == outputDir
    }

    constructor (videoPath: string, lmStudioUrl: string, textModel: string, visionModel: string,
                 whisperModel: string, visionOnCpu: bool, outputDir: string,
                 openaiApiKey: Option<string>, openaiModel: Option<string>, openaiWhisperModel: Option<string>)
      ensures Valid()
      ensures this.videoPath == videoPath && this.outputDir == outputDir
      ensures this.textModel == textModel && this.whisperModel == whisperModel
      ensures this.openaiApiKey == openaiApiKey && this.openaiWhisperModel == openaiWhisperModel
      ensures fresh(videoProcessor) && videoProcessor.frames == []
      ensures fresh(audioProcessor) && audioProcessor.audioPath == None
      ensures fresh(aiAnalyzer) && !aiAnalyzer.cpuModeWarned
      ensures results == map[]
    {
      this.videoPath := videoPath;
      this.lmStudioUrl := lmStudioUrl;
      this.textModel := textModel;
      this.visionModel := visionModel;
      this.whisperModel := whisperModel;
      this.visionOnCpu := visionOnCpu;
      this.outputDir := outputDir;
      this.openaiApiKey := openaiApiKey;
      this.openaiModel := openaiModel;
      this.openaiWhisperModel := openaiWhisperModel;
      var frames, audio := PathJoin(outputDir, "frames"), PathJoin(outputDir, "audio");
      framesDir := frames;
      audioDir := audio;
      videoProcessor := new VideoProcessor(videoPath, frames);
      audioProcessor := new AudioProcessor(videoPath, audio);
      aiAnalyzer := new AIAnalyzer(lmStudioUrl, textModel, visionModel, visionOnCpu);
      srsGenerator := new Srs.SrsGenerator(outputDir);
      results := map[];
    }

    /** The remote speech service is used exactly when both the key and the
        model are set and non-empty. */
    predicate UsesRemote() {
      openaiApiKey.Some? && openaiApiKey.value != "" && openaiWhisperModel.Some? && openaiWhisperModel.value != ""
    }

    /** Step 1's call: key frames above the fixed threshold, or interval
        sampling. */
    function Extracted(world: World, options: Options): Result<seq<SavedFrame>, VideoError> {
      if options.keyFrames then KeyFrames(world.capture, world.diff, KeyFrameThreshold, options.maxKeyFrames, framesDir, videoPath)
      else IntervalFrames(world.capture, options.intervalSeconds, framesDir, videoPath)
    }

    /** Step 2's transcription of an extracted file. */
    function TranscriptFor(world: World, audioPath: string): Result<Transcript, string> {
      if UsesRemote() then RemoteTranscript(Some(audioPath), openaiApiKey.value, openaiWhisperModel.value, world.openai)
      else LocalTranscript(Some(audioPath), whisperModel, "auto", world.cuda, world.whisper)
    }

    /** The images step 1 adds to the video processor's `frames`: interval
        sampling appends every frame it saves, key-frame extraction keeps
        none, and a failed extraction adds nothing. */
    function FramesAdded(world: World, options: Options): seq<Frame> {
      var extracted := Extracted(world, options);
      if !options.keyFrames && extracted.Success? then Images(extracted.value) else []
    }

    function AudioExtracted(world: World): Result<Option<string>, string> {
      ExtractOutcome(videoPath, audioDir, "wav", world.ffmpeg)
    }

    function TranscriptionFor(world: World): Transcription {
      var extracted := AudioExtracted(world);
      TranscriptionOf(extracted,
                      if extracted.Success? && extracted.value.Some? then TranscriptFor(world, extracted.value.value)
                      else Failure(NoAudioMessage))
    }

    /** The results after steps 1 to 3. */
    function Gathered(before: map<string, Entry>, world: World, options: Options): map<string, Entry> {
      var extracted := Extracted(world, options);
      var afterFrames := FrameStage(before, extracted, videoProcessor.GetVideoMetadata(world.metadataCapture));
      var afterAudio := afterFrames["transcription" := TranscriptionEntry(TranscriptionFor(world))];
      afterAudio["frame_analyses" := AnalysesEntry(AnalysesStage(LocalFramePaths(extracted), options.maxFramesToAnalyze, world.vision))]
    }

    /** Step 4's value, computed from what steps 2 and 3 recorded. */
    function RequirementsAfter(gathered: map<string, Entry>, world: World): Json {
      aiAnalyzer.GenerateRequirements(TextOf(DictGet(gathered, "transcription")),
                                      AnalysesOf(DictGet(gathered, "frame_analyses")),
                                      world.complete, world.parse)
    }

    function DocxPath(world: World, projectName: string): Option<string> {
      if world.docxInstalled then Some(PathJoin(outputDir, Srs.DocxName(projectName))) else None
    }

    /** The results map after a whole run that started from `before`. */
    function Expected(before: map<string, Entry>, world: World, options: Options): map<string, Entry> {
      var gathered := Gathered(before, world, options);
      var withRequirements := gathered["requirements" := RequirementsEntry(RequirementsAfter(gathered, world))];
      DocumentStage(withRequirements,
                    PathJoin(outputDir, Srs.MarkdownName(options.projectName)),
                    DocxPath(world, options.projectName),
                    PathJoin(outputDir, Srs.JsonName(options.projectName)),
                    world.writeError)
    }

    function ResultsPath(): string {
      PathJoin(outputDir, "analysis_results.json")
    }

    /** The map after steps 1 to 3, entry by entry. */
    lemma GatheredEntries(before: map<string, Entry>, world: World, options: Options)
      ensures var g := Gathered(before, world, options);
              var extracted := Extracted(world, options);
              var metadata := videoProcessor.GetVideoMetadata(world.metadataCapture);
              var framesOk := extracted.Success? && metadata.Success?;
              && DictGet(g, "frame_paths") == Some(PathsEntry(if framesOk then Paths(extracted.value) else []))
              && DictGet(g, "video_metadata") == (if framesOk then Some(MetadataEntry(metadata.value))
                                                  else DictGet(before, "video_metadata"))
              && DictGet(g, "transcription") == Some(TranscriptionEntry(TranscriptionFor(world)))
              && DictGet(g, "frame_analyses")
                 == Some(AnalysesEntry(AnalysesStage(LocalFramePaths(extracted), options.maxFramesToAnalyze, world.vision)))
    {
      var extracted := Extracted(world, options);
      var metadata := videoProcessor.GetVideoMetadata(world.metadataCapture);
      var afterFrames := FrameStage(before, extracted, metadata);
      var transcription := TranscriptionFor(world);
      var analyses := AnalysesStage(LocalFramePaths(extracted), options.maxFramesToAnalyze, world.vision);
      assert Gathered(before, world, options)
             == afterFrames["transcription" := TranscriptionEntry(transcription)]["frame_analyses" := AnalysesEntry(analyses)];
    }

    /** Steps 1 to 3 set no key outside their own. */
    lemma GatheredKeepsOtherKeys(before: map<string, Entry>, world: World, options: Options)
      ensures forall k :: !StageKey(k) ==> DictGet(Gathered(before, world, options), k) == DictGet(before, k)
    {
      var extracted := Extracted(world, options);
      var afterFrames := FrameStage(before, extracted, videoProcessor.GetVideoMetadata(world.metadataCapture));
      var transcription := TranscriptionFor(world);
      var analyses := AnalysesStage(LocalFramePaths(extracted), options.maxFramesToAnalyze, world.vision);
      assert Gathered(before, world, options)
             == afterFrames["transcription" := TranscriptionEntry(transcription)]["frame_analyses" := AnalysesEntry(analyses)];
    }

    /** The document step of a run, as a call of `DocumentStage`. */
    lemma ExpectedDocuments(before: map<string, Entry>, world: World, options: Options)
      ensures var gathered := Gathered(before, world, options);
              Expected(before, world, options)
              == DocumentStage(gathered["requirements" := RequirementsEntry(RequirementsAfter(gathered, world))],
                               PathJoin(outputDir, Srs.MarkdownName(options.projectName)),
                               DocxPath(world, options.projectName),
                               PathJoin(outputDir, Srs.JsonName(options.projectName)), world.writeError)
    {
    }

    /** A run records every stage, whatever its outcome: the frame paths
        ([] unless both frame calls succeeded), the transcription record, the
        analyses and the requirements; the metadata is replaced only when
        both frame calls succeeded. */
    lemma RunRecordsEveryStage(before: map<string, Entry>, world: World, options: Options)
      ensures var r := Expected(before, world, options);
              var extracted := Extracted(world, options);
              var metadata := videoProcessor.GetVideoMetadata(world.metadataCapture);
              var framesOk := extracted.Success? && metadata.Success?;
              && DictGet(r, "frame_paths") == Some(PathsEntry(if framesOk then Paths(extracted.value) else []))
              && DictGet(r, "video_metadata") == (if framesOk then Some(MetadataEntry(metadata.value))
                                                  else DictGet(before, "video_metadata"))
              && DictGet(r, "transcription") == Some(TranscriptionEntry(TranscriptionFor(world)))
              && DictGet(r, "frame_analyses")
                 == Some(AnalysesEntry(AnalysesStage(LocalFramePaths(extracted), options.maxFramesToAnalyze, world.vision)))
              && DictGet(r, "requirements") == Some(RequirementsEntry(RequirementsAfter(Gathered(before, world, options), world)))
    {
      var gathered := Gathered(before, world, options);
      var requirements := RequirementsAfter(gathered, world);
      GatheredEntries(before, world, options);
      ExpectedDocuments(before, world, options);
      DocumentStageKeys(gathered["requirements" := RequirementsEntry(requirements)],
                        PathJoin(outputDir, Srs.MarkdownName(options.projectName)),
                        DocxPath(world, options.projectName), PathJoin(outputDir, Srs.JsonName(options.projectName)),
                        world.writeError);
      StageEntriesKept(gathered, requirements, Expected(before, world, options));
    }

    /** Every key a run does not set keeps its previous value, or stays
        absent. */
    lemma RunKeepsOtherKeys(before: map<string, Entry>, world: World, options: Options)
      ensures forall k :: !StageKey(k) ==> DictGet(Expected(before, world, options), k) == DictGet(before, k)
    {
      var gathered := Gathered(before, world, options);
      GatheredKeepsOtherKeys(before, world, options);
      var withRequirements := gathered["requirements" := RequirementsEntry(RequirementsAfter(gathered, world))];
      ExpectedDocuments(before, world, options);
      DocumentStageKeys(withRequirements, PathJoin(outputDir, Srs.MarkdownName(options.projectName)),
                        DocxPath(world, options.projectName), PathJoin(outputDir, Srs.JsonName(options.projectName)),
                        world.writeError);
    }

    /** When the extraction raises, the frame paths and the analyses are
        both empty and the metadata is whatever the map held before. */
    lemma ExtractionFailure(before: map<string, Entry>, world: World, options: Options)
      requires Extracted(world, options).Failure?
      ensures var g := Gathered(before, world, options);
              && g["frame_paths"] == PathsEntry([])
              && g["frame_analyses"] == AnalysesEntry([])
              && DictGet(g, "video_metadata") == DictGet(before, "video_metadata")
    {
    }

    /** When only the metadata call raises (its capture is opened apart
        from the extraction's), the recorded frame paths are empty but the
        frames that were extracted are still analysed. */
    lemma MetadataFailureStillAnalyses(before: map<string, Entry>, world: World, options: Options)
      requires Extracted(world, options).Success? && Extracted(world, options).value != []
      requires videoProcessor.GetVideoMetadata(world.metadataCapture).Failure?
      requires options.maxFramesToAnalyze > 0
      ensures var g := Gathered(before, world, options);
              && g["frame_paths"] == PathsEntry([])
              && g["frame_analyses"].AnalysesEntry? && g["frame_analyses"].analyses != []
    {
      var paths := Paths(Extracted(world, options).value);
      AnalysedFramesAreFirst(paths, options.maxFramesToAnalyze, world.vision);
    }

    /** Key frames from a video whose frame rate reads as 0: once a frame is
        selected the extraction raises, so no frame is recorded or analysed
        and the metadata is left as it was. */
    lemma ZeroRateKeyFramesAnalyseNothing(before: map<string, Entry>, world: World, options: Options)
      requires options.keyFrames && world.capture.isOpen && world.capture.fps == 0.0 && options.maxKeyFrames > 0
      requires SceneChanges(world.capture.frames, world.diff, KeyFrameThreshold, |world.capture.frames|) != []
      ensures var g := Gathered(before, world, options);
              && g["frame_paths"] == PathsEntry([])
              && g["frame_analyses"] == AnalysesEntry([])
              && DictGet(g, "video_metadata") == DictGet(before, "video_metadata")
    {
      KeyFramesSelection(world.capture, world.diff, KeyFrameThreshold, options.maxKeyFrames, framesDir, videoPath);
      ExtractionFailure(before, world, options);
    }

    /** No extracted audio gives the "skipped" record; a failing transcoder
        gives the "error" record with its message. */
    lemma AudioPlaceholders(world: World)
      ensures AudioExtracted(world) == Success(None) ==> TranscriptionFor(world) == Skipped
      ensures AudioExtracted(world).Failure? ==> TranscriptionFor(world) == AudioError(AudioExtracted(world).error)
      ensures TranscriptionStatus(TranscriptionFor(world)) == Some("skipped")
              <==> AudioExtracted(world).Success? && (AudioExtracted(world).value.None? || AudioExtracted(world).value.value == "")
    {
    }

    /** With audio extracted and the local model in use, a model that returns
        segments gives a transcript record holding their joined text; a
        missing library or a failing model gives the "error" record with the
        transcriber's message. */
    lemma LocalTranscriptionRecorded(world: World, audioPath: string)
      requires !UsesRemote()
      requires AudioExtracted(world) == Success(Some(audioPath)) && audioPath != ""
      ensures var dev := ChooseDevice("auto", world.cuda);
              var outcome := world.whisper(WhisperSetup(whisperModel, dev, ComputeType(dev), audioPath));
              && (outcome.Returned? ==> TranscriptionFor(world).Transcribed?
                                        && TranscriptionFor(world).transcript.text == JoinWith(" ", SegmentTexts(outcome.value.0))
                                        && TranscriptionFor(world).transcript.language == outcome.value.1.language)
              && (outcome.NotInstalled? ==> TranscriptionFor(world) == AudioError(WhisperMissingMessage))
              && (outcome.Raised? ==> TranscriptionFor(world) == AudioError(FailedMessage(outcome.message)))
    {
      TranscriberChoice(world, audioPath);
    }

    /** The same for the remote service, when it is configured. */
    lemma RemoteTranscriptionRecorded(world: World, audioPath: string)
      requires UsesRemote()
      requires AudioExtracted(world) == Success(Some(audioPath)) && audioPath != ""
      ensures var outcome := world.openai(RemoteSetup(openaiApiKey.value, openaiWhisperModel.value, audioPath));
              && (outcome.Returned? ==> TranscriptionFor(world).Transcribed?
                                        && TranscriptionFor(world).transcript.text == outcome.value.text
                                        && TranscriptionFor(world).transcript.language == outcome.value.language.GetOr("en"))
              && (outcome.NotInstalled? ==> TranscriptionFor(world) == AudioError(OpenAIMissingMessage))
              && (outcome.Raised? ==> TranscriptionFor(world) == AudioError(FailedMessage(outcome.message)))
    {
      TranscriberChoice(world, audioPath);
    }

    /** The remote service transcribes the extracted file exactly when it is
        configured; otherwise the local model does, choosing its device. */
    lemma TranscriberChoice(world: World, audioPath: string)
      ensures UsesRemote() ==> TranscriptFor(world, audioPath)
                               == RemoteTranscript(Some(audioPath), openaiApiKey.value, openaiWhisperModel.value, world.openai)
      ensures !UsesRemote() ==> TranscriptFor(world, audioPath)
                                == LocalTranscript(Some(audioPath), whisperModel, "auto", world.cuda, world.whisper)
    {
    }

    /** The requirements request is built from what steps 2 and 3 recorded:
        its audio context is the transcription record's text (the
        placeholder text when there was no transcript), its visual context
        the analyses of this run. */
    lemma RequirementsInputs(before: map<string, Entry>, world: World, options: Options)
      requires Valid()
      ensures RequirementsAfter(Gathered(before, world, options), world)
              == Requirements(Prompt(textModel, TranscriptionText(TranscriptionFor(world)),
                                     VisualContext(AnalysesStage(LocalFramePaths(Extracted(world, options)),
                                                                 options.maxFramesToAnalyze, world.vision))),
                              world.complete, world.parse)
    {
      var gathered := Gathered(before, world, options);
      GatheredEntries(before, world, options);
      var text := TextOf(DictGet(gathered, "transcription"));
      var analyses := AnalysesOf(DictGet(gathered, "frame_analyses"));
      assert text == Some(TranscriptionText(TranscriptionFor(world)));
      assert analyses == AnalysesStage(LocalFramePaths(Extracted(world, options)), options.maxFramesToAnalyze, world.vision);
      assert aiAnalyzer.PromptFor(text, analyses) == Prompt(textModel, TranscriptionText(TranscriptionFor(world)), VisualContext(analyses));
    }

    /** `analyze`: runs the five stages, then writes the snapshot. It returns
        the results map, or fails with the error raised when the snapshot
        file cannot be opened; the map is updated either way. `snapshot` is
        what was written. */
    method Analyze(world: World, options: Options)
      returns (r: Result<map<string, Entry>, string>, snapshot: Option<map<string, Entry>>)
      requires Valid()
      modifies this`results, videoProcessor`frames, audioProcessor`audioPath, aiAnalyzer`cpuModeWarned
      ensures results == Expected(old(results), world, options)
      ensures world.writeError(ResultsPath()).None? ==> r == Success(results) && snapshot == Some(Snapshot(results))
      ensures world.writeError(ResultsPath()).Some? ==> r == Failure(world.writeError(ResultsPath()).value) && snapshot == None
      ensures audioProcessor.audioPath == (if AudioExtracted(world).Success? && AudioExtracted(world).value.Some?
                                           then AudioExtracted(world).value else old(audioProcessor.audioPath))
      ensures aiAnalyzer.cpuModeWarned <==> old(aiAnalyzer.cpuModeWarned)
                                            || (visionOnCpu && Extracted(world, options).Success?
                                                && Extracted(world, options).value != [])
      ensures videoProcessor.frames == old(videoProcessor.frames) + FramesAdded(world, options)
    {
      var framePaths := FramesStep(world, options);
      var transcription := AudioStep(world);
      var analyses := AnalysisStep(world, options.maxFramesToAnalyze, framePaths);
      assert results == Gathered(old(results), world, options);

      // Step 4: generate requirements
      var requirements := aiAnalyzer.GenerateRequirements(TextOf(DictGet(results, "transcription")),
                                                          AnalysesOf(DictGet(results, "frame_analyses")),
                                                          world.complete, world.parse);
      results := results["requirements" := RequirementsEntry(requirements)];

      DocumentsStep(world, options.projectName);

      // Save the snapshot
      var resultsPath := PathJoin(outputDir, "analysis_results.json");
      match world.writeError(resultsPath)
      case Some(error) =>
        r, snapshot := Failure(error), None;
      case None =>
        r, snapshot := Success(results), Some(Snapshot(results));
    }

    /** Step 1: extract the frames, then read the metadata. Returns the
        local `frame_paths`, None when the extraction raised. */
    method FramesStep(world: World, options: Options) returns (framePaths: Option<seq<string>>)
      requires Valid()
      modifies this`results, videoProcessor`frames
      ensures framePaths == LocalFramePaths(Extracted(world, options))
      ensures results == FrameStage(old(results), Extracted(world, options), videoProcessor.GetVideoMetadata(world.metadataCapture))
      ensures videoProcessor.frames == old(videoProcessor.frames) + FramesAdded(world, options)
      ensures unchanged(audioProcessor) && unchanged(aiAnalyzer)
    {
      var extracted: Result<seq<SavedFrame>, VideoError>;
      if options.keyFrames {
        extracted := videoProcessor.ExtractKeyFrames(world.capture, world.diff, KeyFrameThreshold, options.maxKeyFrames);
      } else {
        extracted := videoProcessor.ExtractFrames(world.capture, options.intervalSeconds);
      }
      framePaths := None;
      if extracted.Success? {
        framePaths := Some(Paths(extracted.value));
        var metadata := videoProcessor.GetVideoMetadata(world.metadataCapture);
        if metadata.Success? {
          results := results["video_metadata" := MetadataEntry(metadata.value)];
          results := results["frame_paths" := PathsEntry(framePaths.value)];
        } else {
          results := results["frame_paths" := PathsEntry([])];
        }
      } else {
        results := results["frame_paths" := PathsEntry([])];
      }
    }

    /** Step 2: extract the audio and transcribe it, locally unless the
        remote service is configured. */
    method AudioStep(world: World) returns (transcription: Transcription)
      requires Valid()
      modifies this`results, audioProcessor`audioPath
      ensures transcription == TranscriptionFor(world)
      ensures results == old(results)["transcription" := TranscriptionEntry(transcription)]
      ensures audioProcessor.audioPath == (if AudioExtracted(world).Success? && AudioExtracted(world).value.Some?
                                           then AudioExtracted(world).value else old(audioProcessor.audioPath))
      ensures unchanged(videoProcessor) && unchanged(aiAnalyzer)
    {
      var audio := audioProcessor.ExtractAudio("wav", world.ffmpeg);
      assert audio == AudioExtracted(world);
      ghost var extractedPath := audioProcessor.audioPath;
      assert extractedPath == if audio.Success? && audio.value.Some? then audio.value else old(audioProcessor.audioPath);
      if audio.Failure? {
        transcription := AudioError(audio.error);
      } else if audio.value.Some? && audio.value.value != "" {
        var transcript := Transcribe(world);
        transcription := if transcript.Success? then Transcribed(transcript.value) else AudioError(transcript.error);
      } else {
        transcription := Skipped;
      }
      assert audioProcessor.audioPath == extractedPath;
      results := results["transcription" := TranscriptionEntry(transcription)];
    }

    /** The transcription of the extracted file, locally unless the remote
        service is configured. */
    method Transcribe(world: World) returns (transcript: Result<Transcript, string>)
      requires Valid()
      requires audioProcessor.audioPath.Some?
      ensures transcript == TranscriptFor(world, audioProcessor.audioPath.value)
    {
      if UsesRemote() {
        transcript := audioProcessor.TranscribeOpenAI(openaiApiKey.value, openaiWhisperModel.value, world.openai);
      } else {
        transcript := audioProcessor.TranscribeLocal(whisperModel, "auto", world.cuda, world.whisper);
      }
    }

    /** Step 3: analyse at most `maxFramesToAnalyze` frames. */
    method AnalysisStep(world: World, maxFramesToAnalyze: int, framePaths: Option<seq<string>>)
      returns (analyses: seq<FrameAnalysis>)
      requires Valid()
      modifies this`results, aiAnalyzer`cpuModeWarned
      ensures analyses == AnalysesStage(framePaths, maxFramesToAnalyze, world.vision)
      ensures results == old(results)["frame_analyses" := AnalysesEntry(analyses)]
      ensures aiAnalyzer.cpuModeWarned <==> old(aiAnalyzer.cpuModeWarned)
                                            || (visionOnCpu && framePaths.Some? && framePaths.value != [])
      ensures unchanged(videoProcessor) && unchanged(audioProcessor)
    {
      analyses := [];
      if framePaths.Some? && framePaths.value != [] {
        var framesToAnalyze := PySlicePrefix(framePaths.value, maxFramesToAnalyze);
        var noted;
        analyses, noted := aiAnalyzer.AnalyzeFrames(framesToAnalyze, world.vision);
      }
      results := results["frame_analyses" := AnalysesEntry(analyses)];
    }

    /** Step 5: the Markdown document, the DOCX document and the JSON copy,
        under one handler. */
    method DocumentsStep(world: World, projectName: string)
      requires Valid()
      modifies this`results
      ensures results == DocumentStage(old(results), PathJoin(outputDir, Srs.MarkdownName(projectName)),
                                       DocxPath(world, projectName), PathJoin(outputDir, Srs.JsonName(projectName)),
                                       world.writeError)
    {
      var documentInput := RequirementsOf(DictGet(results, "requirements"));
      var markdownPath := WriteMarkdown(documentInput, projectName, world.timestamp);
      if world.writeError(markdownPath).None? {
        results := results["srs_markdown" := PathEntry(markdownPath)];
        DocxJsonStep(world, projectName, documentInput);
      }
    }

    /** `generate_markdown`, of which the run keeps only the path; the text
        goes to the file. */
    method WriteMarkdown(documentInput: Json, projectName: string, timestamp: string) returns (path: string)
      requires Valid()
      ensures path == PathJoin(outputDir, Srs.MarkdownName(projectName))
    {
      var content;
      path, content := srsGenerator.GenerateMarkdown(documentInput, projectName, timestamp);
    }

    /** The DOCX document, then the JSON copy. */
    method DocxJsonStep(world: World, projectName: string, documentInput: Json)
      requires Valid()
      modifies this`results
      ensures results == DocxJsonStage(old(results), DocxPath(world, projectName),
                                       PathJoin(outputDir, Srs.JsonName(projectName)), world.writeError)
    {
      var docxPath, doc := srsGenerator.GenerateDocx(documentInput, projectName, world.date, world.docxInstalled);
      assert docxPath == DocxPath(world, projectName);
      if docxPath.None? || world.writeError(docxPath.value).None? {
        if docxPath.Some? && docxPath.value != "" {
          results := results["srs_docx" := PathEntry(docxPath.value)];
        }
        var jsonPath := srsGenerator.SaveJson(documentInput, projectName);
        if world.writeError(jsonPath).None? {
          results := results["requirements_json" := PathEntry(jsonPath)];
        }
      }
    }
  }
}
