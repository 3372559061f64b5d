/** The AI analyzer: one vision request per frame, then one text request
    that turns the transcript and the frame descriptions into requirements.
    The chat endpoint is not modelled; each request is a function from what
    is sent to what comes back. */
module Ai {
  import opened Wrappers
  import opened Text
  import opened Json

  /** The analysis of one frame. `analysis` is None when the endpoint
      answered without any message content. */
  datatype FrameAnalysis = FrameAnalysis(frame: string, analysis: Option<string>)

  /** What the text request is asked to work on. The surrounding prompt
      wording is fixed and not modelled. */
  datatype Prompt = Prompt(model: string, audioContext: string, visualContext: string)

  const JsonNote := "AI returned text format instead of JSON"

  /** The message Python's `json.loads` raises when given `None`. */
  const NoneContentMessage := "the JSON object must be str, bytes or bytearray, not NoneType"

  /** How `str()` shows an optional string inside an f-string. */
  function Show(s: Option<string>): string {
    if s.Some? then s.value else "None"
  }

  // ---------------------------------------------------------------------
  // Frames

  /** The entry stored for one frame: the content of the answer, or
      "Error: <message>" when encoding the image or the request raised. */
  function AnalysisOf(outcome: Result<Option<string>, string>): Option<string> {
    match outcome
    case Success(content) => content
    case Failure(message) => Some("Error: " + message)
  }

  /** The results of `analyze_frames`, built from the last frame back. */
  function FrameAnalyses(paths: seq<string>, vision: string -> Result<Option<string>, string>)
    : (rs: seq<FrameAnalysis>)
    ensures |rs| == |paths|
    ensures forall j :: 0 <= j < |paths| ==> rs[j].frame == paths[j]
    ensures forall j :: 0 <= j < |paths| ==> rs[j].analysis == AnalysisOf(vision(paths[j]))
  {
    if paths == [] then []
    else
      var last := paths[|paths| - 1];
      FrameAnalyses(paths[..|paths| - 1], vision) + [FrameAnalysis(last, AnalysisOf(vision(last)))]
  }

  /** A failing frame only affects its own slot: two endpoints that agree
      on every path but `p` give the same entry for every other frame. */
  lemma {:induction false} FailureIsolated(paths: seq<string>, vision: string -> Result<Option<string>, string>,
                                           other: string -> Result<Option<string>, string>, p: string)
    requires forall q :: q != p ==> vision(q) == other(q)
    ensures var a, b := FrameAnalyses(paths, vision), FrameAnalyses(paths, other);
            forall j :: 0 <= j < |paths| && paths[j] != p ==> a[j] == b[j]
  {
    if paths != [] {
      FailureIsolated(paths[..|paths| - 1], vision, other, p);
    }
  }

  // ---------------------------------------------------------------------
  // Requirements

  /** The line for the analysis at position `i`, numbered from 1. */
  function FrameLine(i: nat, a: FrameAnalysis): string {
    "Frame " + Decimal(i + 1) + ": " + Show(a.analysis)
  }

  function FrameLines(analyses: seq<FrameAnalysis>): (lines: seq<string>)
    ensures |lines| == |analyses|
  {
    seq(|analyses|, i requires 0 <= i < |analyses| => FrameLine(i, analyses[i]))
  }

  /** The visual context: the frame lines separated by blank lines. */
  function VisualContext(analyses: seq<FrameAnalysis>): (s: string)
    ensures analyses == [] ==> s == ""
    ensures |analyses| == 1 ==> s == FrameLine(0, analyses[0])
  {
    JoinWith("\n\n", FrameLines(analyses))
  }

  /** One more analysed frame adds a blank line and its numbered line. */
  lemma VisualContextAppend(analyses: seq<FrameAnalysis>, a: FrameAnalysis)
    requires analyses != []
    ensures VisualContext(analyses + [a]) == VisualContext(analyses) + "\n\n" + FrameLine(|analyses|, a)
  {
    var all := analyses + [a];
    var lines := FrameLines(all);
    var front := FrameLines(analyses);
    forall i | 0 <= i < |front|
      ensures lines[i] == front[i]
    {
      assert all[i] == analyses[i];
    }
    assert lines == front + [FrameLine(|analyses|, a)];
    JoinWithAppend("\n\n", front, FrameLine(|analyses|, a));
  }

  /** `transcription.get('text', '')`: `text` is None when the record has
      no such key. */
  function AudioContext(text: Option<string>): (s: string)
    ensures text.Some? ==> s == text.value
    ensures text.None? ==> s == ""
  {
    text.GetOr("")
  }

  function ErrorShape(message: string): Json {
    JObj([Member("error", JStr(message)), Member("status", JStr("failed"))])
  }

  function RawShape(content: string): Json {
    JObj([Member("raw_analysis", JStr(content)), Member("note", JStr(JsonNote))])
  }

  /** `generate_requirements` as a value. `complete` is the text request,
      failing with the message of what it raised; `parse` is `json.loads`,
      None for text that is not JSON. */
  function Requirements(prompt: Prompt, complete: Prompt -> Result<Option<string>, string>,
                        parse: string -> Option<Json>): Json
  {
    match complete(prompt)
    case Failure(message) => ErrorShape(message)
    case Success(None) => ErrorShape(NoneContentMessage)
    case Success(Some(content)) =>
      match parse(content)
      case Some(value) => value
      case None => RawShape(content)
  }

  /** The three shapes a requirements value can take, and which outcome of
      the request gives which. */
  lemma RequirementsShapes(prompt: Prompt, complete: Prompt -> Result<Option<string>, string>,
                           parse: string -> Option<Json>)
    ensures var r := Requirements(prompt, complete, parse);
            var reply := complete(prompt);
            && (reply.Failure? ==> r == ErrorShape(reply.error) && Get(r.members, "status") == Some(JStr("failed")))
            && (reply == Success(None) ==> r == ErrorShape(NoneContentMessage) && Get(r.members, "error") == Some(JStr(NoneContentMessage))
                                           && Get(r.members, "status") == Some(JStr("failed")))
            && ((reply.Success? && reply.value.Some? && parse(reply.value.value).Some?)
                ==> r == parse(reply.value.value).value)
            && ((reply.Success? && reply.value.Some? && parse(reply.value.value).None?)
                ==> (r.JObj? && Get(r.members, "raw_analysis") == Some(JStr(reply.value.value))
                     && Get(r.members, "note") == Some(JStr(JsonNote))))
  {
    var r := Requirements(prompt, complete, parse);
    var reply := complete(prompt);
    if reply.Failure? {
      assert r.members[1].key == "status";
    } else if reply == Success(None) {
      assert r.members[0].key == "error";
    } else if parse(reply.value.value).None? {
      assert r.members[0].key == "raw_analysis";
      assert r.members[1].key == "note";
    }
  }

  // ---------------------------------------------------------------------
  // The analyzer

  class AIAnalyzer {
    const lmStudioUrl: string
    const textModel: string
    const visionModel: string
    const visionOnCpu: bool
    /** Whether the CPU-mode note has been shown. */
    var cpuModeWarned: bool

    constructor (lmStudioUrl: string, textModel: string, visionModel: string, visionOnCpu: bool)
      ensures this.lmStudioUrl == lmStudioUrl && this.textModel == textModel
      ensures this.visionModel == visionModel && this.visionOnCpu == visionOnCpu
      ensures !cpuModeWarned
    {
      this.lmStudioUrl := lmStudioUrl;
      this.textModel := textModel;
      this.visionModel := visionModel;
      this.visionOnCpu := visionOnCpu;
      cpuModeWarned := false;
    }

    /** `analyze_frames`: one entry per path, in order. `noted` tells whether
        this call showed the CPU-mode note, which happens on the first call
        of an analyzer whose vision model runs on the CPU and never again. */
    method AnalyzeFrames(framePaths: seq<string>, vision: string -> Result<Option<string>, string>)
      returns (results: seq<FrameAnalysis>, noted: bool)
      modifies this`cpuModeWarned
      ensures results == FrameAnalyses(framePaths, vision)
      ensures noted <==> visionOnCpu && !old(cpuModeWarned)
      ensures cpuModeWarned <==> old(cpuModeWarned) || visionOnCpu
    {
      results := [];
      noted := false;
      if visionOnCpu && !cpuModeWarned {
        noted := true;
        cpuModeWarned := true;
      }
      for i := 0 to |framePaths|
        invariant results == FrameAnalyses(framePaths[..i], vision)
      {
        var framePath := framePaths[i];
        assert framePaths[..i + 1][..i] == framePaths[..i];
        match vision(framePath)
        case Success(content) =>
          results := results + [FrameAnalysis(framePath, content)];
        case Failure(message) =>
          results := results + [FrameAnalysis(framePath, Some("Error: " + message))];
      }
      assert framePaths[..|framePaths|] == framePaths;
    }

    /** The request `generate_requirements` sends for a transcript text and
        the frame analyses. */
    function PromptFor(transcriptionText: Option<string>, frameAnalyses: seq<FrameAnalysis>): (p: Prompt)
      ensures p.model == textModel
      ensures p.audioContext == AudioContext(transcriptionText)
      ensures p.visualContext == VisualContext(frameAnalyses)
    {
      Prompt(textModel, AudioContext(transcriptionText), VisualContext(frameAnalyses))
    }

    /** `generate_requirements`; it never raises. The request carries the
        text model and both contexts; its reply is shaped as in
        `RequirementsShapes`. */
    function GenerateRequirements(transcriptionText: Option<string>, frameAnalyses: seq<FrameAnalysis>,
                                  complete: Prompt -> Result<Option<string>, string>,
                                  parse: string -> Option<Json>): (r: Json)
      ensures var p := PromptFor(transcriptionText, frameAnalyses);
              var reply := complete(p);
              && p.model == textModel
              && p.audioContext == AudioContext(transcriptionText)
              && p.visualContext == VisualContext(frameAnalyses)
              && (reply.Failure? ==> r == ErrorShape(reply.error) && Get(r.members, "status") == Some(JStr("failed")))
              && (reply == Success(None) ==> r == ErrorShape(NoneContentMessage))
              && ((reply.Success? && reply.value.Some? && parse(reply.value.value).Some?)
                  ==> r == parse(reply.value.value).value)
              && ((reply.Success? && reply.value.Some? && parse(reply.value.value).None?)
                  ==> (r.JObj? && Get(r.members, "raw_analysis") == Some(JStr(reply.value.value))))
    {
      RequirementsShapes(PromptFor(transcriptionText, frameAnalyses), complete, parse);
      Requirements(PromptFor(transcriptionText, frameAnalyses), complete, parse)
    }
  }
}
