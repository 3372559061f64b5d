/** The command line: how each setting is chosen from the arguments, the
    environment and the built-in defaults, and what is handed to the
    analyzer. Parsing itself is not modelled: an argument is None when it
    was not given, and `env` is `os.getenv` without a default. */
module Cli {
  import opened Wrappers
  import Analyzer

  /** The arguments after parsing; None for an option that was not given. */
  datatype Arguments = Arguments(
    video: string,
    lmStudioUrl: Option<string>,
    textModel: Option<string>,
    visionModel: Option<string>,
    whisperModel: Option<string>,
    project: Option<string>,
    output: Option<string>,
    interval: Option<int>,
    noKeyFrames: bool,
    maxFrames: Option<int>,
    maxAnalyze: Option<int>,
    apiKey: Option<string>,
    model: Option<string>,
    openaiWhisperModel: Option<string>)

  /** What the analyzer is constructed with. The CPU placement of the vision
      model is not passed, so it keeps its default of false. */
  datatype Settings = Settings(
    videoPath: string,
    lmStudioUrl: string,
    textModel: string,
    visionModel: string,
    whisperModel: string,
    outputDir: string,
    openaiApiKey: Option<string>,
    openaiModel: Option<string>,
    openaiWhisperModel: Option<string>)

  /** How a start ends before the analysis: with an exit status, or with an
      analyzer to build and the arguments of its run. */
  datatype Launch = Exit(status: int) | Run(settings: Settings, options: Analyzer.Options)

  const DefaultUrl := "http://localhost:1234/v1"
  const DefaultTextModel := "phi-3-mini"
  const DefaultVisionModel := "llava-7b-q4"
  const DefaultWhisperModel := "small"
  const DefaultProject := "Meeting Project"
  const DefaultOutput := "output"
  const DefaultInterval := 10
  const DefaultMaxFrames := 15
  const DefaultMaxAnalyze := 10

  /** Python's truthiness of an optional string. */
  predicate Given(s: Option<string>) {
    s.Some? && s.value != ""
  }

  /** `arg or os.getenv(name, default)`. */
  function Resolve(arg: Option<string>, env: Option<string>, default: string): string {
    if Given(arg) then arg.value else env.GetOr(default)
  }

  /** `arg or os.getenv(name)`: there is no default, so the result may be
      None, or the empty string the environment holds. */
  function ResolveOptional(arg: Option<string>, env: Option<string>): Option<string> {
    if Given(arg) then arg else env
  }

  /** A non-empty argument wins; an empty or missing one defers to the
      environment, even when the environment holds the empty string; the
      default is used only when the variable is not set at all. */
  lemma ResolvePrecedence(arg: Option<string>, env: Option<string>, default: string)
    ensures Given(arg) ==> Resolve(arg, env, default) == arg.value
    ensures Resolve(Some(""), env, default) == Resolve(None, env, default)
    ensures !Given(arg) && env.Some? ==> Resolve(arg, env, default) == env.value
    ensures Resolve(None, Some(""), default) == ""
    ensures Resolve(arg, env, default) == default
            <==> ((Given(arg) && arg.value == default) || (!Given(arg) && (env == Some(default) || env.None?)))
  {
  }

  /** The optional settings: the argument, else the environment, else
      nothing; an empty argument with the variable unset gives None. */
  lemma ResolveOptionalPrecedence(arg: Option<string>, env: Option<string>)
    ensures Given(arg) ==> ResolveOptional(arg, env) == arg
    ensures !Given(arg) ==> ResolveOptional(arg, env) == env
    ensures ResolveOptional(arg, env).None? <==> !Given(arg) && env.None?
  {
  }

  function SettingsOf(args: Arguments, env: string -> Option<string>): Settings {
    Settings(
      args.video,
      Resolve(args.lmStudioUrl, env("LM_STUDIO_URL"), DefaultUrl),
      Resolve(args.textModel, env("LM_STUDIO_MODEL"), DefaultTextModel),
      Resolve(args.visionModel, env("LM_STUDIO_VISION_MODEL"), DefaultVisionModel),
      Resolve(args.whisperModel, env("WHISPER_MODEL"), DefaultWhisperModel),
      args.output.GetOr(DefaultOutput),
      ResolveOptional(args.apiKey, env("OPENAI_API_KEY")),
      ResolveOptional(args.model, env("OPENAI_MODEL")),
      args.openaiWhisperModel)
  }

  function OptionsOf(args: Arguments): Analyzer.Options {
    Analyzer.Options(
      args.interval.GetOr(DefaultInterval),
      !args.noKeyFrames,
      args.maxFrames.GetOr(DefaultMaxFrames),
      args.maxAnalyze.GetOr(DefaultMaxAnalyze),
      args.project.GetOr(DefaultProject))
  }

  /** `main` up to the construction of the analyzer: exit with status 1
      when the video does not exist, before anything is built. */
  function Start(args: Arguments, env: string -> Option<string>, videoExists: bool): (r: Launch)
    ensures !videoExists <==> r == Exit(1)
    ensures r.Run? ==> r.settings == SettingsOf(args, env) && r.options == OptionsOf(args)
    ensures r.Run? ==> r.settings.videoPath == args.video && r.options.keyFrames == !args.noKeyFrames
  {
    if !videoExists then Exit(1) else Run(SettingsOf(args, env), OptionsOf(args))
  }

  /** With no option given and no variable set, every setting takes its
      built-in default, key frames are used, and nothing selects the remote
      service. */
  lemma NothingGivenGivesDefaults(video: string)
    ensures var args := Arguments(video, None, None, None, None, None, None, None, false, None, None, None, None, None);
            var r := Start(args, _ => None, true);
            && r.Run?
            && r.settings == Settings(video, "http://localhost:1234/v1", "phi-3-mini", "llava-7b-q4", "small",
                                      "output", None, None, None)
            && r.options == Analyzer.Options(10, true, 15, 10, "Meeting Project")
  {
  }

  /** Each model setting follows the precedence of `Resolve` under its own
      variable; the API key and OpenAI model have no default. */
  lemma SettingsPrecedence(args: Arguments, env: string -> Option<string>)
    ensures var s := SettingsOf(args, env);
            && (Given(args.textModel) ==> s.textModel == args.textModel.value)
            && (!Given(args.textModel) && env("LM_STUDIO_MODEL").Some? ==> s.textModel == env("LM_STUDIO_MODEL").value)
            && (!Given(args.textModel) && env("LM_STUDIO_MODEL").None? ==> s.textModel == DefaultTextModel)
            && (Given(args.lmStudioUrl) ==> s.lmStudioUrl == args.lmStudioUrl.value)
            && (!Given(args.lmStudioUrl) && env("LM_STUDIO_URL").Some? ==> s.lmStudioUrl == env("LM_STUDIO_URL").value)
            && (!Given(args.lmStudioUrl) && env("LM_STUDIO_URL").None? ==> s.lmStudioUrl == DefaultUrl)
            && (Given(args.visionModel) ==> s.visionModel == args.visionModel.value)
            && (!Given(args.visionModel) && env("LM_STUDIO_VISION_MODEL").Some? ==> s.visionModel == env("LM_STUDIO_VISION_MODEL").value)
            && (!Given(args.visionModel) && env("LM_STUDIO_VISION_MODEL").None? ==> s.visionModel == DefaultVisionModel)
            && (Given(args.whisperModel) ==> s.whisperModel == args.whisperModel.value)
            && (!Given(args.whisperModel) && env("WHISPER_MODEL").Some? ==> s.whisperModel == env("WHISPER_MODEL").value)
            && (!Given(args.whisperModel) && env("WHISPER_MODEL").None? ==> s.whisperModel == DefaultWhisperModel)
            && (Given(args.apiKey) ==> s.openaiApiKey == args.apiKey)
            && (!Given(args.apiKey) ==> s.openaiApiKey == env("OPENAI_API_KEY"))
            && (!Given(args.apiKey) && env("OPENAI_API_KEY").None? ==> s.openaiApiKey.None?)
            && (Given(args.model) ==> s.openaiModel == args.model)
            && (!Given(args.model) ==> s.openaiModel == env("OPENAI_MODEL"))
            && (!Given(args.model) && env("OPENAI_MODEL").None? ==> s.openaiModel.None?)
  {
  }

  /** The OpenAI speech model comes from its argument alone: no variable of
      the environment changes it. */
  lemma WhisperModelIgnoresEnvironment(args: Arguments, env: string -> Option<string>, other: string -> Option<string>)
    ensures SettingsOf(args, env).openaiWhisperModel == SettingsOf(args, other).openaiWhisperModel == args.openaiWhisperModel
  {
  }
}
