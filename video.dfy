/** Frame selection of the video processor. Decoding, grayscale conversion
    and the pixel difference are not modelled: a capture is the sequence of
    frames that reading the file yields, and the difference score of two
    frames is a function supplied by the caller. */
module Video {
  import opened Wrappers
  import opened Text

  /** A decoded frame; its pixels only matter to the difference function. */
  datatype Frame = Frame(pixels: seq<int>)

  /** What `cv2.VideoCapture(path)` gives: whether it isOpen, the frames
      that successive reads return, and the properties it reports. */
  datatype Capture = Capture(
    isOpen: bool,
    frames: seq<Frame>,
    fps: real,
    frameCountProperty: int,
    width: int,
    height: int)

  datatype VideoError =
    | CannotOpen(message: string)   // the ValueError raised before reading
    | ModuloByZero                  // `frame_count % 0` when the stride is 0
    | FloatDivisionByZero           // the duration when the frame rate is 0

  /** A frame written to disk: the path returned to the caller and the image
      written at that path. */
  datatype SavedFrame = SavedFrame(path: string, image: Frame)

  datatype VideoMetadata = VideoMetadata(
    fps: real,
    frameCount: int,
    width: int,
    height: int,
    durationSeconds: real)

  function Paths(saved: seq<SavedFrame>): (ps: seq<string>)
    ensures |ps| == |saved| && forall j :: 0 <= j < |saved| ==> ps[j] == saved[j].path
  {
    seq(|saved|, j requires 0 <= j < |saved| => saved[j].path)
  }

  function Images(saved: seq<SavedFrame>): (fs: seq<Frame>)
    ensures |fs| == |saved| && forall j :: 0 <= j < |saved| ==> fs[j] == saved[j].image
  {
    seq(|saved|, j requires 0 <= j < |saved| => saved[j].image)
  }

  function OpenError(path: string): VideoError {
    CannotOpen("Unable to open video file: " + path)
  }

  predicate Increasing(idx: seq<nat>) {
    forall a, b :: 0 <= a < b < |idx| ==> idx[a] < idx[b]
  }

  // ---------------------------------------------------------------------
  // Interval sampling

  /** Python's `int(x)` of a float: truncation toward zero. */
  function Truncate(x: real): (n: int)
    ensures x >= 0.0 ==> n as real <= x < n as real + 1.0
    ensures x < 0.0 ==> n as real - 1.0 < x <= n as real
  {
    if x >= 0.0 then x.Floor else -((-x).Floor)
  }

  /** `int(fps * interval_seconds)`, the number of frames between samples. */
  function FrameInterval(fps: real, intervalSeconds: int): int {
    Truncate(fps * intervalSeconds as real)
  }

  /** The indices below `n` that the stride `k` divides, in increasing
      order: the frames interval sampling keeps out of `n` frames. */
  function IntervalIndices(n: nat, k: int): (idx: seq<nat>)
    requires k != 0
    ensures forall j :: 0 <= j < |idx| ==> idx[j] < n
  {
    if n == 0 then [] else IntervalIndices(n - 1, k) + (if (n - 1) % k == 0 then [n - 1] else [])
  }

  function FrameFileName(index: nat): string {
    "frame_" + Padded(index, 6) + ".jpg"
  }

  /** The frames at `idx`, each saved under the name of its frame index. */
  function IntervalSaved(dir: string, frames: seq<Frame>, idx: seq<nat>): (saved: seq<SavedFrame>)
    requires forall j :: 0 <= j < |idx| ==> idx[j] < |frames|
    ensures |saved| == |idx|
  {
    seq(|idx|, j requires 0 <= j < |idx| => SavedFrame(PathJoin(dir, FrameFileName(idx[j])), frames[idx[j]]))
  }

  /** `extract_frames(interval_seconds)` as a value. */
  function IntervalFrames(cap: Capture, intervalSeconds: int, dir: string, videoPath: string): Result<seq<SavedFrame>, VideoError> {
    var k := FrameInterval(cap.fps, intervalSeconds);
    if !cap.isOpen then Failure(OpenError(videoPath))
    else if k == 0 then (if cap.frames == [] then Success([]) else Failure(ModuloByZero))
    else Success(IntervalSaved(dir, cap.frames, IntervalIndices(|cap.frames|, k)))
  }

  // ---------------------------------------------------------------------
  // Scene-change selection

  /** The indices below `n` of the frames whose difference from the frame
      just before them exceeds `threshold`, in increasing order. */
  function SceneChanges(frames: seq<Frame>, diff: (Frame, Frame) -> real, threshold: real, n: nat): (idx: seq<nat>)
    requires n <= |frames|
    ensures forall j :: 0 <= j < |idx| ==> 1 <= idx[j] < n
  {
    if n <= 1 then []
    else SceneChanges(frames, diff, threshold, n - 1)
         + (if diff(frames[n - 1], frames[n - 2]) > threshold then [n - 1] else [])
  }

  /** The first `limit` elements, or none when `limit` is not positive. */
  function Take(idx: seq<nat>, limit: int): (r: seq<nat>)
    ensures |r| <= |idx| && r == idx[..|r|]
    ensures limit <= 0 ==> r == []
    ensures limit > 0 ==> |r| == if |idx| <= limit then |idx| else limit
  {
    if limit <= 0 then [] else if |idx| <= limit then idx else idx[..limit]
  }

  function KeyFrameFileName(position: nat): string {
    "keyframe_" + Padded(position, 4) + ".jpg"
  }

  /** The frames at `idx`, each saved under the name of its position among
      the saved frames. */
  function KeySaved(dir: string, frames: seq<Frame>, idx: seq<nat>): (saved: seq<SavedFrame>)
    requires forall j :: 0 <= j < |idx| ==> idx[j] < |frames|
    ensures |saved| == |idx|
  {
    seq(|idx|, j requires 0 <= j < |idx| => SavedFrame(PathJoin(dir, KeyFrameFileName(j)), frames[idx[j]]))
  }

  /** `extract_key_frames(threshold, max_frames)` as a value. The time of
      each saved frame is reported as `frame_count / fps`, so with a frame
      rate of 0 the first saved key frame raises a division by zero. */
  function KeyFrames(cap: Capture, diff: (Frame, Frame) -> real, threshold: real, maxFrames: int,
                     dir: string, videoPath: string): Result<seq<SavedFrame>, VideoError>
  {
    if !cap.isOpen then Failure(OpenError(videoPath))
    else
      var selected := Take(SceneChanges(cap.frames, diff, threshold, |cap.frames|), maxFrames);
      if cap.fps == 0.0 && selected != [] then Failure(FloatDivisionByZero)
      else Success(KeySaved(dir, cap.frames, selected))
  }

  // ---------------------------------------------------------------------
  // Properties of the selection rules

  /** Interval sampling keeps a frame exactly when its index is a multiple
      of the stride, and keeps the frames in increasing order. */
  lemma {:induction false} IntervalIndicesMembership(n: nat, k: int)
    requires k != 0
    ensures var idx := IntervalIndices(n, k);
            && (forall i: nat :: i in idx <==> i < n && i % k == 0)
            && Increasing(idx)
  {
    if n > 0 {
      IntervalIndicesMembership(n - 1, k);
    }
  }

  lemma {:induction false} MultipleAtLeast(k: int, d: int)
    requires k > 0 && d >= 1
    ensures k * d >= k
  {
    if d > 1 {
      MultipleAtLeast(k, d - 1);
      assert k * d == k * (d - 1) + k;
    }
  }

  lemma DivisionOfSum(q: int, k: int, r: int)
    requires k > 0 && 0 <= r < k
    ensures (q * k + r) / k == q
  {
    var a := q * k + r;
    var d := a / k - q;
    assert a == k * (a / k) + a % k;
    assert k * d == r - a % k;
    if d >= 1 {
      MultipleAtLeast(k, d);
    } else if d <= -1 {
      MultipleAtLeast(k, -d);
    }
  }

  /** The first `count` multiples of `k`: 0, k, 2k, ... */
  function Multiples(count: nat, k: int): (m: seq<nat>)
    requires k > 0
    ensures |m| == count
  {
    seq(count, j requires 0 <= j < count => j * k)
  }

  lemma CeilingStep(n: nat, k: int)
    requires k > 0 && n > 0
    ensures (n - 1) % k == 0 ==> (n + k - 1) / k == (n - 1 + k - 1) / k + 1 && n - 1 == ((n - 1 + k - 1) / k) * k
    ensures (n - 1) % k != 0 ==> (n + k - 1) / k == (n - 1 + k - 1) / k
  {
    var m := n - 1;
    var q, r := m / k, m % k;
    assert m == q * k + r;
    if r == 0 {
      assert m + k - 1 == q * k + (k - 1);
      DivisionOfSum(q, k, k - 1);
      assert m + k == (q + 1) * k + 0;
      DivisionOfSum(q + 1, k, 0);
    } else {
      assert m + k - 1 == (q + 1) * k + (r - 1);
      DivisionOfSum(q + 1, k, r - 1);
      assert m + k == (q + 1) * k + r;
      DivisionOfSum(q + 1, k, r);
    }
  }

  /** For a positive stride k, interval sampling of n frames keeps frames
      0, k, 2k, ..., which are ceil(n/k) many. */
  lemma {:induction false} IntervalIndicesAreMultiples(n: nat, k: int)
    requires k > 0
    ensures IntervalIndices(n, k) == Multiples((n + k - 1) / k, k)
  {
    if n == 0 {
      DivisionOfSum(0, k, k - 1);
    } else {
      IntervalIndicesAreMultiples(n - 1, k);
      CeilingStep(n, k);
      var c := (n - 1 + k - 1) / k;
      if (n - 1) % k == 0 {
        assert Multiples(c + 1, k) == Multiples(c, k) + [c * k];
      }
    }
  }

  /** 30 seconds at 10 frames per second sampled every 5 seconds keeps the
      frames 0, 50, 100, 150, 200 and 250. */
  lemma ThirtySecondsEveryFive(frameCount: nat, stride: int)
    requires frameCount == 300 && stride == FrameInterval(10.0, 5)
    ensures stride == 50
    ensures IntervalIndices(frameCount, stride) == [0, 50, 100, 150, 200, 250]
  {
    assert 10.0 * 5 as real == 50.0;
    assert stride == 50;
    IntervalIndicesAreMultiples(frameCount, stride);
    assert frameCount + stride - 1 == 6 * 50 + 49;
    DivisionOfSum(6, 50, 49);
    var m := Multiples(6, 50);
    assert m[0] == 0 && m[1] == 50 && m[2] == 100 && m[3] == 150 && m[4] == 200 && m[5] == 250;
  }

  /** Interval extraction from an open video: a stride of 0 fails as soon
      as there is a frame to test; a positive stride k keeps ceil(n/k)
      frames, the j-th being frame j*k saved under its own index. */
  lemma IntervalFramesSelection(cap: Capture, intervalSeconds: int, dir: string, videoPath: string)
    requires cap.isOpen
    ensures var r := IntervalFrames(cap, intervalSeconds, dir, videoPath);
            var k, n := FrameInterval(cap.fps, intervalSeconds), |cap.frames|;
            && (k == 0 ==> (r == Success([]) <==> n == 0) && (n > 0 ==> r == Failure(ModuloByZero)))
            && (k > 0 ==> r.Success? && |r.value| == (n + k - 1) / k
                          && forall j :: 0 <= j < |r.value| ==>
                               j * k < n && r.value[j] == SavedFrame(PathJoin(dir, FrameFileName(j * k)), cap.frames[j * k]))
  {
    var k, n := FrameInterval(cap.fps, intervalSeconds), |cap.frames|;
    if k > 0 {
      var idx := IntervalIndices(n, k);
      IntervalIndicesAreMultiples(n, k);
      var saved := IntervalSaved(dir, cap.frames, idx);
      assert IntervalFrames(cap, intervalSeconds, dir, videoPath) == Success(saved);
      forall j | 0 <= j < |saved|
        ensures j * k < n && saved[j] == SavedFrame(PathJoin(dir, FrameFileName(j * k)), cap.frames[j * k])
      {
        assert idx[j] == Multiples((n + k - 1) / k, k)[j] == j * k;
      }
    }
  }

  /** A frame is a scene change exactly when it has a predecessor and its
      difference from that predecessor (not from the last key frame) exceeds
      the threshold; scene changes come in increasing order. */
  lemma {:induction false} SceneChangesMembership(frames: seq<Frame>, diff: (Frame, Frame) -> real, threshold: real, n: nat)
    requires n <= |frames|
    ensures var idx := SceneChanges(frames, diff, threshold, n);
            && (forall i: nat :: i in idx <==> 1 <= i < n && diff(frames[i], frames[i - 1]) > threshold)
            && Increasing(idx)
  {
    if n > 1 {
      SceneChangesMembership(frames, diff, threshold, n - 1);
    }
  }

  /** Scene changes found in a prefix of the video are the first of those
      found in the whole video. */
  lemma {:induction false} SceneChangesPrefix(frames: seq<Frame>, diff: (Frame, Frame) -> real, threshold: real, m: nat, n: nat)
    requires m <= n <= |frames|
    ensures var small, large := SceneChanges(frames, diff, threshold, m), SceneChanges(frames, diff, threshold, n);
            |small| <= |large| && small == large[..|small|]
  {
    if m < n {
      SceneChangesPrefix(frames, diff, threshold, m, n - 1);
      var mid := SceneChanges(frames, diff, threshold, n - 1);
      var large := SceneChanges(frames, diff, threshold, n);
      assert large[..|mid|] == mid;
    }
  }

  /** Once a frame among the first `m` is selected, a frame rate of 0 makes
      the extraction fail. */
  lemma KeyFramesZeroRate(cap: Capture, diff: (Frame, Frame) -> real, threshold: real, maxFrames: int,
                          dir: string, videoPath: string, m: nat)
    requires cap.isOpen && cap.fps == 0.0 && maxFrames > 0
    requires m <= |cap.frames| && SceneChanges(cap.frames, diff, threshold, m) != []
    ensures KeyFrames(cap, diff, threshold, maxFrames, dir, videoPath) == Failure(FloatDivisionByZero)
  {
    SceneChangesPrefix(cap.frames, diff, threshold, m, |cap.frames|);
  }

  /** Reading stops after `n` frames, either at the end of the video or with
      `max_frames` saved: the frames selected so far are the result. */
  lemma KeyFramesStopped(cap: Capture, diff: (Frame, Frame) -> real, threshold: real, maxFrames: int,
                         dir: string, videoPath: string, n: nat)
    requires cap.isOpen && n <= |cap.frames|
    requires var idx := SceneChanges(cap.frames, diff, threshold, n);
             && (n == |cap.frames| || |idx| >= maxFrames)
             && (n > 0 ==> |idx| <= maxFrames)
             && (cap.fps == 0.0 ==> idx == [])
    ensures KeyFrames(cap, diff, threshold, maxFrames, dir, videoPath)
            == Success(KeySaved(dir, cap.frames, SceneChanges(cap.frames, diff, threshold, n)))
  {
    SceneChangesPrefix(cap.frames, diff, threshold, n, |cap.frames|);
  }

  /** Key-frame extraction returns at most `max_frames` frames, never the
      first frame, and only frames that differ from their predecessor by more
      than the threshold, in video order; the saved names are keyframe_0000,
      keyframe_0001, ... in order. With a frame rate of 0 it fails as soon
      as one frame is selected. */
  lemma KeyFramesSelection(cap: Capture, diff: (Frame, Frame) -> real, threshold: real, maxFrames: int,
                           dir: string, videoPath: string)
    requires cap.isOpen
    ensures var r := KeyFrames(cap, diff, threshold, maxFrames, dir, videoPath);
            var all := SceneChanges(cap.frames, diff, threshold, |cap.frames|);
            cap.fps == 0.0 && maxFrames > 0 && all != [] ==> r == Failure(FloatDivisionByZero)
    ensures var r := KeyFrames(cap, diff, threshold, maxFrames, dir, videoPath);
            var all := SceneChanges(cap.frames, diff, threshold, |cap.frames|);
            !(cap.fps == 0.0 && maxFrames > 0 && all != []) ==>
            && r.Success?
            && |r.value| == (if maxFrames <= 0 then 0 else if |all| <= maxFrames then |all| else maxFrames)
            && (forall j :: 0 <= j < |r.value| ==>
                  && 1 <= all[j] < |cap.frames|
                  && r.value[j].image == cap.frames[all[j]]
                  && r.value[j].path == PathJoin(dir, KeyFrameFileName(j))
                  && diff(cap.frames[all[j]], cap.frames[all[j] - 1]) > threshold)
            && (forall a, b :: 0 <= a < b < |r.value| ==> all[a] < all[b])
  {
    var all := SceneChanges(cap.frames, diff, threshold, |cap.frames|);
    SceneChangesMembership(cap.frames, diff, threshold, |cap.frames|);
    forall j | 0 <= j < |all|
      ensures diff(cap.frames[all[j]], cap.frames[all[j] - 1]) > threshold
    {
      assert all[j] in all;
    }
  }

  /** No two saved key frames share a path. */
  lemma KeyFramePathsDistinct(dir: string, a: nat, b: nat)
    requires a != b
    ensures PathJoin(dir, KeyFrameFileName(a)) != PathJoin(dir, KeyFrameFileName(b))
  {
    var na, nb := KeyFrameFileName(a), KeyFrameFileName(b);
    KeyFrameNamesDistinct(a, b);
    KeyFrameNamePlain(a);
    KeyFrameNamePlain(b);
    NameOfJoin(dir, na);
    NameOfJoin(dir, nb);
  }

  lemma KeyFrameNamesDistinct(a: nat, b: nat)
    requires a != b
    ensures KeyFrameFileName(a) != KeyFrameFileName(b)
  {
    PaddedInjective(a, b, 4);
    var na, nb := KeyFrameFileName(a), KeyFrameFileName(b);
    assert na[9..|na| - 4] == Padded(a, 4);
    assert nb[9..|nb| - 4] == Padded(b, 4);
  }

  /** A key-frame name is a plain file name: no separator, not empty, not ".". */
  lemma KeyFrameNamePlain(position: nat)
    ensures var n := KeyFrameFileName(position); '/' !in n && n != "" && n != "."
  {
    var digits := Padded(position, 4);
    PaddedRoundTrip(position, 4);
    var n := KeyFrameFileName(position);
    assert n == "keyframe_" + digits + ".jpg";
    forall i | 0 <= i < |n|
      ensures n[i] != '/'
    {
      if 9 <= i < 9 + |digits| {
        assert n[i] == digits[i - 9];
      }
    }
  }


  lemma IntervalSavedAppend(dir: string, frames: seq<Frame>, idx: seq<nat>, i: nat)
    requires forall j :: 0 <= j < |idx| ==> idx[j] < |frames|
    requires i < |frames|
    ensures IntervalSaved(dir, frames, idx + [i])
            == IntervalSaved(dir, frames, idx) + [SavedFrame(PathJoin(dir, FrameFileName(i)), frames[i])]
  {
    var longer := idx + [i];
    var a := IntervalSaved(dir, frames, longer);
    var c := IntervalSaved(dir, frames, idx);
    forall j | 0 <= j < |c|
      ensures a[j] == c[j]
    {
      assert longer[j] == idx[j];
    }
    assert a == c + [a[|c|]];
  }

  lemma KeySavedAppend(dir: string, frames: seq<Frame>, idx: seq<nat>, i: nat)
    requires forall j :: 0 <= j < |idx| ==> idx[j] < |frames|
    requires i < |frames|
    ensures KeySaved(dir, frames, idx + [i])
            == KeySaved(dir, frames, idx) + [SavedFrame(PathJoin(dir, KeyFrameFileName(|idx|)), frames[i])]
  {
    var longer := idx + [i];
    var a := KeySaved(dir, frames, longer);
    var c := KeySaved(dir, frames, idx);
    forall j | 0 <= j < |c|
      ensures a[j] == c[j]
    {
      assert longer[j] == idx[j];
    }
    assert longer[|idx|] == i;
    assert a[|idx|] == SavedFrame(PathJoin(dir, KeyFrameFileName(|idx|)), frames[i]);
    assert a == c + [a[|c|]];
  }

  lemma ImagesAppend(saved: seq<SavedFrame>, s: SavedFrame)
    ensures Images(saved + [s]) == Images(saved) + [s.image]
  {
  }

  // ---------------------------------------------------------------------
  // The processor

  class VideoProcessor {
    const videoPath: string
    const outputDir: string
    /** Every frame image interval sampling has kept, over all calls. */
    var frames: seq<Frame>

    constructor (videoPath: string, outputDir: string)
      ensures this.videoPath == videoPath && this.outputDir == outputDir && frames == []
    {
      this.videoPath := videoPath;
      this.outputDir := outputDir;
      frames := [];
    }

    /** `extract_frames`: keeps every `int(fps * interval_seconds)`-th frame
        and appends its image to `frames`. */
    method ExtractFrames(cap: Capture, intervalSeconds: int) returns (r: Result<seq<SavedFrame>, VideoError>)
      modifies this`frames
      ensures r == IntervalFrames(cap, intervalSeconds, outputDir, videoPath)
      ensures frames == old(frames) + (if r.Success? then Images(r.value) else [])
    {
      if !cap.isOpen {
        return Failure(OpenError(videoPath));
      }
      var frameInterval := FrameInterval(cap.fps, intervalSeconds);
      var frameCount := 0;
      var saved: seq<SavedFrame> := [];
      while frameCount < |cap.frames|
        invariant 0 <= frameCount <= |cap.frames|
        invariant frameInterval == 0 ==> frameCount == 0 && saved == []
        invariant frameInterval != 0 ==> saved == IntervalSaved(outputDir, cap.frames, IntervalIndices(frameCount, frameInterval))
        invariant frames == old(frames) + Images(saved)
      {
        var frame := cap.frames[frameCount];
        if frameInterval == 0 {
          return Failure(ModuloByZero);
        }
        if frameCount % frameInterval == 0 {
          var framePath := PathJoin(outputDir, FrameFileName(frameCount));
          IntervalSavedAppend(outputDir, cap.frames, IntervalIndices(frameCount, frameInterval), frameCount);
          ImagesAppend(saved, SavedFrame(framePath, frame));
          saved := saved + [SavedFrame(framePath, frame)];
          frames := frames + [frame];
        }
        frameCount := frameCount + 1;
      }
      return Success(saved);
    }

    /** `extract_key_frames`: keeps the frames that differ from the previous
        frame by more than `threshold`, stopping after `maxFrames`. The
        processor's state is not changed. */
    method ExtractKeyFrames(cap: Capture, diff: (Frame, Frame) -> real, threshold: real, maxFrames: int)
      returns (r: Result<seq<SavedFrame>, VideoError>)
      ensures r == KeyFrames(cap, diff, threshold, maxFrames, outputDir, videoPath)
    {
      if !cap.isOpen {
        return Failure(OpenError(videoPath));
      }
      var prevFrame: Option<Frame> := None;
      var frameCount := 0;
      var saved: seq<SavedFrame> := [];
      while |saved| < maxFrames
        invariant 0 <= frameCount <= |cap.frames|
        invariant prevFrame == if frameCount == 0 then None else Some(cap.frames[frameCount - 1])
        invariant saved == KeySaved(outputDir, cap.frames, SceneChanges(cap.frames, diff, threshold, frameCount))
        invariant frameCount > 0 ==> |saved| <= maxFrames
        invariant cap.fps == 0.0 ==> saved == []
        decreases |cap.frames| - frameCount
      {
        if frameCount == |cap.frames| {
          break;
        }
        var frame := cap.frames[frameCount];
        if prevFrame.Some? {
          var diffScore := diff(frame, prevFrame.value);
          if diffScore > threshold {
            var framePath := PathJoin(outputDir, KeyFrameFileName(|saved|));
            KeySavedAppend(outputDir, cap.frames, SceneChanges(cap.frames, diff, threshold, frameCount), frameCount);
            saved := saved + [SavedFrame(framePath, frame)];
            if cap.fps == 0.0 {
              // reporting the key frame's time divides by the frame rate
              KeyFramesZeroRate(cap, diff, threshold, maxFrames, outputDir, videoPath, frameCount + 1);
              return Failure(FloatDivisionByZero);
            }
          }
        }
        prevFrame := Some(frame);
        frameCount := frameCount + 1;
      }
      KeyFramesStopped(cap, diff, threshold, maxFrames, outputDir, videoPath, frameCount);
      return Success(saved);
    }

    /** `get_video_metadata`: the reported properties, with the duration as
        frame count over frame rate. */
    function GetVideoMetadata(cap: Capture): (r: Result<VideoMetadata, VideoError>)
      ensures !cap.isOpen ==> r == Failure(OpenError(videoPath))
      ensures cap.isOpen && cap.fps == 0.0 ==> r == Failure(FloatDivisionByZero)
      ensures r.Success? ==> r.value.fps == cap.fps && r.value.frameCount == cap.frameCountProperty
                             && r.value.durationSeconds * cap.fps == cap.frameCountProperty as real
      ensures cap.isOpen && cap.fps != 0.0 ==> r.Success? && r.value.width == cap.width && r.value.height == cap.height
    {
      if !cap.isOpen then Failure(OpenError(videoPath))
      else if cap.fps == 0.0 then Failure(FloatDivisionByZero)
      else Success(VideoMetadata(cap.fps, cap.frameCountProperty, cap.width, cap.height,
                                 cap.frameCountProperty as real / cap.fps))
    }
  }
}
