# Meeting Analyzer, modelled in Dafny

The meeting analyzer turns a recorded meeting video into a Software
Requirements Specification. This project models it in Dafny. The pipeline
has five steps:

1. extract frames from the video, either by scene changes (key frames) or at a
   fixed interval;
2. extract the audio track with ffmpeg and transcribe it, either locally with
   faster-whisper or through the OpenAI Whisper API;
3. describe the first frames with a vision model;
4. ask a text model for requirements as JSON, with a fallback shape when the
   reply is not JSON or the request fails;
5. write the SRS as Markdown, as DOCX (when python-docx is installed) and as
   JSON, then save a snapshot of all results.

Around the pipeline sit the hardware profiles (`laptop`, `pc`) and the command
line, which settles each setting from an argument, an environment variable or
a default.

## Files

- `wrappers.dfy` (`Wrappers`): `Option` and `Result`. A `Failure` carries the
  message of the exception that the Python caller catches.
- `text.dfy` (`Text`): the parts of Python's standard library the code relies
  on. These are POSIX `os.path.join`, `Path.name`, `stem` and `suffix`,
  `{n:0Wd}` padding, `str.replace`, `str.title` on ASCII and `str.join`.
- `json.dfy` (`Json`): the values `json.loads` yields. A dict keeps insertion
  order, so it is a sequence of members. Also `str`/`repr` of a value.
- `profiles.dfy` (`Profiles`): the profile table and its three lookups.
- `video.dfy` (`Video`): the `VideoProcessor` class. The capture device becomes
  a value: an open flag, its fps, its frame-count property and its frames. The
  frame difference is a parameter.
- `audio.dfy` (`Audio`): the `AudioProcessor` class. ffmpeg, faster-whisper,
  CUDA detection, the OpenAI client and file sizes are parameters.
- `ai.dfy` (`Ai`): the `AIAnalyzer` class. The vision request, the text request
  and `json.loads` are parameters.
- `srs.dfy` (`Srs`): the `SrsGenerator` class.
  - The Markdown document is a list of blocks with one renderer. The method
    that builds the text step by step is proved equal to the rendering.
  - The DOCX document is the list of `python-docx` calls it makes.
- `analyzer.dfy` (`Analyzer`): the `MeetingAnalyzer` class and its `analyze`
  pipeline. Everything outside the program is a `World` value. The
  extraction and `get_video_metadata` each open the video themselves, so
  each has its own capture in `World`. `Expected` is
  the results dictionary a whole run leaves behind.
- `cli.dfy` (`Cli`): argument/environment/default resolution and the start of
  `main`.

## Model

| member | source | states |
|---|---|---|
| Profiles.GetProfile | meeting_analyzer/profiles.py:23-41 | succeeds exactly for a name in the table and returns that row; otherwise the error is "Unknown profile: <name>. Available profiles: laptop, pc" |
| Profiles.ListProfiles | meeting_analyzer/profiles.py:44-51 | exactly the names in the table, two of them, with no duplicates |
| Profiles.GetProfileDescription | meeting_analyzer/profiles.py:54-66 | an unknown name gives "Unknown profile: <name>"; a known one gives its description, or "No description" when it has none |
| Profiles.KnownProfiles | meeting_analyzer/profiles.py:5-20 | laptop uses whisper "small" with vision on the CPU; pc uses "large-v3" with vision off the CPU; both have a description |
| Profiles.LookupIsACopy | meeting_analyzer/profiles.py:41 | the profile handed out equals the table row; the claim that editing the copy leaves the table alone holds by value semantics |
| Cli.ResolvePrecedence | meeting_analyzer/cli.py:132-135 | a non-empty argument wins; an empty or missing one defers to the environment, even to an empty variable; the default applies only when the variable is unset (both directions) |
| Cli.ResolveOptionalPrecedence | meeting_analyzer/cli.py:138-139 | the OpenAI key and model come from the argument, else from the environment; the result is None exactly when both are missing |
| Cli.SettingsPrecedence | meeting_analyzer/cli.py:132-140 | for the LM Studio URL, text and vision models and the whisper model: a given argument wins, else a set variable, else the default; the OpenAI key and model are the argument when given, else the variable, None when both are missing |
| Cli.WhisperModelIgnoresEnvironment | meeting_analyzer/cli.py:140 | the OpenAI whisper model is taken from the argument alone, whatever the environment holds |
| Cli.Start | meeting_analyzer/cli.py:142-179 | the program exits with status 1 exactly when the video does not exist; otherwise it runs with the resolved settings and options, on that video, with key frames unless `--no-key-frames` is given |
| Cli.NothingGivenGivesDefaults | meeting_analyzer/cli.py:70-140 | with no arguments and an empty environment, the settings and analysis options are the documented defaults |
| Video.Truncate | meeting_analyzer/video_processor.py:46 | `int()` of a float truncates toward zero |
| Video.IntervalIndicesMembership | meeting_analyzer/video_processor.py:52-68 | interval sampling keeps frame i exactly when i < frame count and the stride divides i, in increasing order |
| Video.IntervalIndicesAreMultiples | meeting_analyzer/video_processor.py:52-68 | with a positive stride k, the kept frames are 0, k, 2k, … — ceil(n/k) of them |
| Video.ThirtySecondsEveryFive | meeting_analyzer/video_processor.py:46-68 | 300 frames at 10 fps sampled every 5 s keep frames 0, 50, 100, 150, 200 and 250 |
| Video.IntervalFramesSelection | meeting_analyzer/video_processor.py:40-72 | for an open video: a zero stride fails with a modulo by zero unless the video is empty; a positive stride saves ceil(n/k) frames, the j-th being frame j·k under `frame_<j·k, 6 digits>.jpg` |
| Video.SceneChangesMembership | meeting_analyzer/video_processor.py:97-121 | a frame is a scene change exactly when it has a predecessor and its difference from it exceeds the threshold; changes come in increasing order |
| Video.SceneChangesPrefix | meeting_analyzer/video_processor.py:97-121 | reading fewer frames yields a prefix of the scene changes |
| Video.Take | meeting_analyzer/video_processor.py:97 | stopping at `max_frames` keeps a prefix of length min(count, max_frames), and nothing for a non-positive limit |
| Video.KeyFramesSelection | meeting_analyzer/video_processor.py:74-125 | for an open video with a frame rate of 0, extraction fails with a division by zero as soon as one frame is selected (max > 0 and some scene change); otherwise it succeeds with the first min(changes, max) scene changes, in order, the j-th saved as `keyframe_<j, 4 digits>.jpg` |
| Video.KeyFramePathsDistinct | meeting_analyzer/video_processor.py:112-115 | different key-frame positions are saved under different paths |
| Video.KeyFrameNamesDistinct | meeting_analyzer/video_processor.py:114 | different key-frame positions get different file names |
| Video.KeyFrameNamePlain | meeting_analyzer/video_processor.py:114 | a key-frame file name is a plain non-empty file name, free of '/' |
| Video.VideoProcessor.constructor | meeting_analyzer/video_processor.py:16-26 | keeps the video path and output directory, with no frames loaded |
| Video.VideoProcessor.ExtractFrames | meeting_analyzer/video_processor.py:30-72 | returns the interval selection (or its error), and appends exactly the saved images to `frames` |
| Video.VideoProcessor.ExtractKeyFrames | meeting_analyzer/video_processor.py:74-125 | the reading loop returns the key-frame selection, the open error, or the division by zero that reporting the first saved frame's time raises at a frame rate of 0 |
| Video.VideoProcessor.GetVideoMetadata | meeting_analyzer/video_processor.py:127-148 | fails when the video cannot be opened, and on a zero fps; an open video with a non-zero fps succeeds, reporting its fps, frame count, width and height, with duration × fps = frame count |
| Audio.Codec | meeting_analyzer/audio_processor.py:48 | 16-bit PCM exactly for "wav", MP3 otherwise |
| Audio.FfmpegCommandShape | meeting_analyzer/audio_processor.py:46-52 | ffmpeg reads the video, drops the picture, and writes 16 kHz mono audio to the audio path |
| Audio.ExtractOutcomeCases | meeting_analyzer/audio_processor.py:54-75 | the path is returned exactly when ffmpeg exits 0; None exactly when ffmpeg is missing or fails; an error exactly on an OS error |
| Audio.AutoDevicePrecision | meeting_analyzer/audio_processor.py:96-104 | automatic selection uses float16 exactly when CUDA is available, and int8 exactly on the CPU |
| Audio.LocalTranscript | meeting_analyzer/audio_processor.py:77-157 | no audio path gives the "No audio file" error; otherwise a model that returns gives Success with the segments joined by spaces, the detected language and the duration; a missing library gives the "faster-whisper not installed…" error and any other failure "Transcription failed: <message>"; every Success comes from a returned result |
| Audio.RemoteTranscript | meeting_analyzer/audio_processor.py:159-211 | no audio path gives the same error; otherwise a returned reply gives Success with its text, language defaulting to "en", and segments defaulting to []; a missing library gives the "OpenAI library not installed…" error and any other failure "Transcription failed: <message>"; every Success comes from a returned reply |
| Audio.AudioProcessor.constructor | meeting_analyzer/audio_processor.py:15-25 | keeps the video path and output directory, with no audio path yet |
| Audio.AudioProcessor.ExtractAudio | meeting_analyzer/audio_processor.py:29-75 | returns the extraction outcome, and records the audio path only when a path was returned |
| Audio.AudioProcessor.TranscribeOpenAI | meeting_analyzer/audio_processor.py:159-211 | the remote transcript of the recorded audio path: the no-audio error, the missing-library and failure messages, and on a returned reply its text and language (default "en") |
| Audio.AudioProcessor.TranscribeLocal | meeting_analyzer/audio_processor.py:77-157 | returns the local transcript of the recorded audio path |
| Audio.AudioProcessor.GetAudioMetadata | meeting_analyzer/audio_processor.py:213-230 | reports no audio file exactly when there is no path or the file is missing; otherwise its path and size |
| Audio.ExtractedFormatReported | meeting_analyzer/audio_processor.py:220-227 | after a successful extraction, the metadata reports the requested format, read back from the file suffix |
| Ai.FrameAnalyses | meeting_analyzer/ai_analyzer.py:78-124 | one result per frame, in order: the frame path and either the model's answer or "Error: <message>" |
| Ai.FailureIsolated | meeting_analyzer/ai_analyzer.py:119-124 | a failure on one frame does not change the result for any other frame |
| Ai.VisualContext | meeting_analyzer/ai_analyzer.py:144-147 | no analyses give empty context; one gives its "Frame 1: …" line |
| Ai.VisualContextAppend | meeting_analyzer/ai_analyzer.py:144-147 | each further analysis adds a blank line and its numbered "Frame i: …" line |
| Ai.AudioContext | meeting_analyzer/ai_analyzer.py:149 | the transcript text, or "" when there is none |
| Ai.RequirementsShapes | meeting_analyzer/ai_analyzer.py:194-232 | a failed request gives {"error", "status": "failed"}; a None reply the same error shape, with status "failed"; parseable JSON the parsed value; anything else {"raw_analysis", "note"} |
| Ai.AIAnalyzer.constructor | meeting_analyzer/ai_analyzer.py:29-33 | keeps the URL, models and CPU flag, with no CPU notice shown yet |
| Ai.AIAnalyzer.AnalyzeFrames | meeting_analyzer/ai_analyzer.py:61-126 | returns the per-frame analyses; the CPU notice is shown once, on the first call with vision on the CPU |
| Ai.AIAnalyzer.GenerateRequirements | meeting_analyzer/ai_analyzer.py:128-232 | the request goes to the text model with both contexts; a failed request or None reply gives the error shape, parseable JSON the parsed value, other text the raw_analysis shape |
| Ai.AIAnalyzer.PromptFor | meeting_analyzer/ai_analyzer.py:143-205 | the request goes to the text model with the audio and visual contexts |
| Srs.Lookup | meeting_analyzer/srs_generator.py:71-72 | a section is present when either key is; the upper-case key's value wins over the snake-case key's |
| Srs.UpperCaseKeyWins | meeting_analyzer/srs_generator.py:71-72 | with the upper-case key present, a section is its heading followed by that key's content |
| Srs.MissingSectionPlaceholder | meeting_analyzer/srs_generator.py:68-139 | a section with neither key is its heading followed by its placeholder sentence |
| Srs.FunctionalRequirementsNumbered | meeting_analyzer/srs_generator.py:85-87 | a list of functional requirements becomes FR-001, FR-002, … headings, each over its item, all distinct |
| Srs.NumberedHeadingNumber | meeting_analyzer/srs_generator.py:87 | the digits after "FR-" read back as the item's 1-based position |
| Srs.IssuesAsBullets | meeting_analyzer/srs_generator.py:132-137 | a list of issues becomes one bullet per item, then a blank line |
| Srs.SectionsHeadings | meeting_analyzer/srs_generator.py:68-139 | the sections' second-level headings are the section titles, in order |
| Srs.PreambleHeadings | meeting_analyzer/srs_generator.py:39-65 | the preamble's second-level headings are "Table of Contents" and "1. Introduction" |
| Srs.AppendixHeadings | meeting_analyzer/srs_generator.py:150-163 | the appendix has the single second-level heading "Appendix" |
| Srs.RawHeadings | meeting_analyzer/srs_generator.py:142-144 | "Raw Analysis" appears exactly when the dict has a raw_analysis key |
| Srs.BodyHeadings | meeting_analyzer/srs_generator.py:68-144 | a dict's body has the six section headings, then "Raw Analysis" when present |
| Srs.MarkdownHeadings | meeting_analyzer/srs_generator.py:39-163 | the document's second-level headings: ToC, introduction, the six sections, Raw Analysis if present, Appendix; for a non-dict only ToC, introduction, Appendix |
| Srs.MarkdownRendered | meeting_analyzer/srs_generator.py:39-163 | the document text is the preamble, then the body, then the appendix |
| Srs.FileStem | meeting_analyzer/srs_generator.py:166 | the project name with its spaces replaced: same length, no space |
| Srs.OutputNamesDistinct | meeting_analyzer/srs_generator.py:166-254 | the Markdown, DOCX and JSON file names of a project differ pairwise, and none contains a space |
| Srs.OutputPathsNamed | meeting_analyzer/srs_generator.py:166-254 | each output path, joined onto the output directory, has the generated file name as its name |
| Srs.DocxSectionTitles | meeting_analyzer/srs_generator.py:203-230 | the DOCX level-1 headings are exactly the seven section titles, whatever the requirements |
| Srs.DocSectionsTitles | meeting_analyzer/srs_generator.py:213-230 | the first n DOCX sections carry the first n titles |
| Srs.DocSectionTitle | meeting_analyzer/srs_generator.py:213-230 | each DOCX section has exactly its own title as its level-1 heading |
| Srs.DocBodyHasNoSectionHeading | meeting_analyzer/srs_generator.py:216-230 | the content of a DOCX section never adds a level-1 heading |
| Srs.DocxIgnoresOtherKeys | meeting_analyzer/srs_generator.py:216-228 | a dict holding none of the snake-case section keys produces the same DOCX as a non-dict: all placeholders |
| Srs.AppendFields | meeting_analyzer/srs_generator.py:74-75 | the loop appends one "**Label:** value" line per member, as rendered |
| Srs.AppendNumbered | meeting_analyzer/srs_generator.py:86-87 | the loop appends the numbered FR blocks, as rendered |
| Srs.AppendKeyed | meeting_analyzer/srs_generator.py:89-90 | the loop appends a heading with the raw key and its value, per member |
| Srs.AppendLabelled | meeting_analyzer/srs_generator.py:98-102 | the loop appends a heading with the titled label and its value, per member |
| Srs.AppendBullets | meeting_analyzer/srs_generator.py:133-134 | the loop appends one bullet per item |
| Srs.SectionText | meeting_analyzer/srs_generator.py:73-139 | a section's content text is the rendering of its body |
| Srs.AppendSection | meeting_analyzer/srs_generator.py:68-139 | appends one section's heading and content, as rendered |
| Srs.AppendSections | meeting_analyzer/srs_generator.py:68-139 | appends the six sections, as rendered |
| Srs.AppendBody | meeting_analyzer/srs_generator.py:68-147 | appends the sections and raw analysis of a dict, or the value itself for anything else |
| Srs.AppendDocSection | meeting_analyzer/srs_generator.py:213-230 | adds one DOCX section: its heading, its content, an empty paragraph |
| Srs.AppendMembers | meeting_analyzer/srs_generator.py:218-221 | adds a level-2 heading and a paragraph per member |
| Srs.AppendItems | meeting_analyzer/srs_generator.py:222-224 | adds one bullet paragraph per item |
| Srs.AppendDocSections | meeting_analyzer/srs_generator.py:213-230 | adds the seven DOCX sections in order |
| Srs.SrsGenerator.constructor | meeting_analyzer/srs_generator.py:15-23 | keeps the output directory |
| Srs.SrsGenerator.GenerateMarkdown | meeting_analyzer/srs_generator.py:25-171 | writes the rendered document to `SRS_<project>.md` in the output directory and returns that path |
| Srs.SrsGenerator.GenerateDocx | meeting_analyzer/srs_generator.py:173-241 | with python-docx, builds the DOCX blocks and returns `SRS_<project>.docx`; without it, returns None and builds nothing |
| Srs.SrsGenerator.SaveJson | meeting_analyzer/srs_generator.py:243-260 | returns `requirements_<project>.json` joined onto the output directory; for a project name without '/', that file name is the path's name |
| Text.PaddedRoundTrip | meeting_analyzer/video_processor.py:61 | a zero-padded frame number is all digits and reads back as the number |
| Text.PaddedInjective | meeting_analyzer/video_processor.py:61 | different numbers never get the same padded numeral, so frame file names never collide |
| Analyzer.SliceStop | meeting_analyzer/analyzer.py:158 | `frame_paths[:m]` stops at min(m, length) for m ≥ 0, and counts from the end for a negative m |
| Analyzer.Snapshot | meeting_analyzer/analyzer.py:216-225 | the saved snapshot drops frame_paths, adds frame_count = the number of frame paths, and keeps every other entry |
| Analyzer.AnalysedFramesAreFirst | meeting_analyzer/analyzer.py:155-163 | the frames analysed are the first `max_frames_to_analyze` extracted ones, in order, each with its analysis |
| Analyzer.DocumentStageKeys | meeting_analyzer/analyzer.py:187-214 | each document key is set exactly when every write up to its own succeeded; otherwise the previous value stays; no other key changes |
| Analyzer.RawFallbackDocument | meeting_analyzer/analyzer.py:176-194 | a reply that is not JSON yields a document whose six sections each hold their placeholder, followed by a "Raw Analysis" section holding the reply text, then the appendix |
| Analyzer.FailedRequestDocument | meeting_analyzer/analyzer.py:176-194 | a failed request yields a document whose six sections all hold their placeholders |
| Analyzer.MeetingAnalyzer.constructor | meeting_analyzer/analyzer.py:19-67 | builds the four components on the frames and audio subdirectories with the given models, with empty results |
| Analyzer.MeetingAnalyzer.GatheredEntries | meeting_analyzer/analyzer.py:95-170 | after steps 1–3: frame paths only if extraction and metadata both worked; metadata otherwise kept from before; the transcription record; the analyses |
| Analyzer.MeetingAnalyzer.GatheredKeepsOtherKeys | meeting_analyzer/analyzer.py:95-170 | steps 1–3 touch no key outside the pipeline's own |
| Analyzer.MeetingAnalyzer.RunRecordsEveryStage | meeting_analyzer/analyzer.py:95-214 | a whole run leaves each stage's entry as computed from the earlier stages |
| Analyzer.MeetingAnalyzer.RunKeepsOtherKeys | meeting_analyzer/analyzer.py:95-214 | a run touches no key outside the pipeline's own |
| Analyzer.MeetingAnalyzer.ExtractionFailure | meeting_analyzer/analyzer.py:114-170 | failed extraction records no frame paths and no analyses, and keeps the old metadata |
| Analyzer.MeetingAnalyzer.MetadataFailureStillAnalyses | meeting_analyzer/analyzer.py:109-161 | when the extraction succeeds but `get_video_metadata`'s own capture (video_processor.py:134) fails, frame_paths is recorded empty yet the extracted frames are still analysed |
| Analyzer.MeetingAnalyzer.ZeroRateKeyFramesAnalyseNothing | meeting_analyzer/analyzer.py:97-170 | key frames from a video whose frame rate reads as 0, with a frame selected, raise inside step 1: no frame paths, no analyses, and the old metadata kept |
| Analyzer.MeetingAnalyzer.AudioPlaceholders | meeting_analyzer/analyzer.py:121-150 | no audio gives the "skipped" record and an extraction error the "error" record; the status is "skipped" exactly when no audio path came back |
| Analyzer.MeetingAnalyzer.TranscriberChoice | meeting_analyzer/analyzer.py:124-135 | the OpenAI transcriber is used exactly when both the key and the whisper model are non-empty |
| Analyzer.MeetingAnalyzer.LocalTranscriptionRecorded | meeting_analyzer/analyzer.py:121-150 | with audio extracted and the local model in use, a returning model yields a transcript record with the joined segment text and language; a missing library or a failure yields the "error" record with the transcriber's message |
| Analyzer.MeetingAnalyzer.RemoteTranscriptionRecorded | meeting_analyzer/analyzer.py:121-150 | the same for the OpenAI transcriber: a returned reply yields a transcript record with its text and language (default "en"); otherwise the "error" record with its message |
| Analyzer.MeetingAnalyzer.RequirementsInputs | meeting_analyzer/analyzer.py:175-180 | requirements are asked of the text model with the recorded transcript text and the visual context of the analysed frames |
| Analyzer.MeetingAnalyzer.Analyze | meeting_analyzer/analyzer.py:69-233 | the results after the run are `Expected` of the results before; the snapshot is written unless its write fails; the audio path and CPU notice evolve as the steps say; the video processor's `frames` grows by the interval-sampled images only |
| Analyzer.MeetingAnalyzer.FramesStep | meeting_analyzer/analyzer.py:95-116 | step 1 records metadata and paths, or the empty paths on failure, and hands the extracted paths to step 3; `frames` grows by the saved images in interval mode and is unchanged in key-frame mode or on failure |
| Analyzer.MeetingAnalyzer.AudioStep | meeting_analyzer/analyzer.py:118-150 | step 2 records the transcription or a placeholder, and nothing else |
| Analyzer.MeetingAnalyzer.Transcribe | meeting_analyzer/analyzer.py:124-135 | the transcript of the extracted audio, from the chosen transcriber |
| Analyzer.MeetingAnalyzer.AnalysisStep | meeting_analyzer/analyzer.py:152-170 | step 3 records the analyses of the first frames, or [] without frames |
| Analyzer.MeetingAnalyzer.DocumentsStep | meeting_analyzer/analyzer.py:187-214 | step 5 sets the document keys as `DocumentStage` says |
| Analyzer.MeetingAnalyzer.WriteMarkdown | meeting_analyzer/analyzer.py:191-195 | the Markdown document goes to `SRS_<project>.md` in the output directory |
| Analyzer.MeetingAnalyzer.DocxJsonStep | meeting_analyzer/analyzer.py:198-211 | records the DOCX path when one was made, then the JSON path, each only once its write succeeded |

## Left out

- Printing, progress messages and the `gui` module, including its progress callback, are not modelled.
- Pixels, image encoding (`encode_image`) and frame differencing are not modelled. A frame is an opaque value and the difference is a parameter.
- Floating point is not modelled. fps and durations are reals, and the 30.0 threshold is exact.
- The contents of written files are not modelled. Only whether a write fails is a parameter (`writeError`).
  - The JSON snapshot, the requirements JSON and the transcript JSON that the transcribers save are out.
  - The DOCX styles, alignment and `doc.save` are out.
- The clock (timestamp and date) is a parameter.
- The LM Studio and OpenAI HTTP requests, faster-whisper, ffmpeg, CUDA detection and file sizes are parameters. The wording of the prompts is out.
- `json.loads` is a parameter. The model does not parse JSON text.
- The `ImportError` that `AIAnalyzer.__init__` re-raises when the OpenAI client library is missing (ai_analyzer.py:42-46) is not modelled. The constructor always succeeds.
- `json.loads` would keep the last value of a duplicated key, and a Python dict never has duplicate keys. A `Json` object here may repeat a key, and `Get` returns the first match. `parse` is not constrained to yield unique keys.
- JSON floats are not part of the `Json` values.
- The extraction's capture and the one `get_video_metadata` opens are independent inputs. Nothing ties them to the same file contents.
- Video.VideoProcessor.ExtractKeyFrames: at a frame rate of 0 the first key frame's image is written to disk before the division raises. The write is not modelled, because the method changes no state here.
- Video.VideoProcessor.GetVideoMetadata: the frame-count property of the capture is an input. It is not tied to the frames actually read.
- `KeyboardInterrupt` and the exceptions caught after the analyzer starts (cli.py:189-197) are not modelled.
- `repr` does not escape quotes or backslashes inside strings.
- `str.title` is modelled on ASCII letters only.
- Paths are POSIX only.
- Ai.AIAnalyzer.PromptFor: the prompt text itself is not modelled, only its model and its two contexts.
- Step 4's own `except` (analyzer.py:183-185) is not modelled. `generate_requirements` catches every exception itself, so that branch cannot be reached.
- The command line passes neither a profile nor `vision_on_cpu`, so its analyzer keeps the default, vision off the CPU. `Settings` therefore has no such field.
- `argparse` parsing itself is not modelled: the parsed arguments are the input.
