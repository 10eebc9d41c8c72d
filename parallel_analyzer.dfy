/** The orchestrator's buffers and the audio loop's speech endpointer, taken one
    step at a time: the per-chunk body of the audio loop, the bounded frame queue,
    the ring of the last 30 processed frames and one pass of the video loop.
    Threads, the microphone stream and the WAV file are not modelled: a finalized
    utterance is returned to the caller instead of being written and analysed. */
module Parallel {
  import opened Text
  import FaceEmotion

  /** A camera image as captured. */
  type RawFrame = seq<int>

  /** One read from the microphone: signed 16-bit samples. */
  type Chunk = seq<Sample>

  const QueueCapacity: nat := 10
  const ProcessedCapacity: nat := 30

  const SampleRate: nat := 16000
  const ChunkSize: nat := 1024
  const SilenceThreshold: real := 0.01
  const SilenceLimit: real := 1.0
  const SpeechLimit: real := 10.0

  /** One second of chunks, rounded down. */
  const MaxSilentFrames: nat := 15
  /** Ten seconds of chunks, rounded down. */
  const MaxSpeechFrames: nat := 156

  /** The two limits are `int(limit * sample_rate / chunk_size)`: truncation of 15.625 and 156.25. */
  lemma FrameLimits()
    ensures MaxSilentFrames == (SilenceLimit * SampleRate as real / ChunkSize as real).Floor
    ensures MaxSpeechFrames == (SpeechLimit * SampleRate as real / ChunkSize as real).Floor
  {
    assert SilenceLimit * SampleRate as real / ChunkSize as real == 15.625;
    assert SpeechLimit * SampleRate as real / ChunkSize as real == 156.25;
  }

  /** A 16-bit sample as `np.frombuffer(data, dtype=np.int16)` yields it. */
  type Sample = x: int | -32768 <= x < 32768

  /** The magnitude of a sample. */
  function Magnitude(x: Sample): nat { if x < 0 then -(x as int) else x as int }

  function SumMagnitudes(s: seq<Sample>): nat
  {
    if |s| == 0 then 0 else SumMagnitudes(s[..|s| - 1]) + Magnitude(s[|s| - 1])
  }

  /** `np.sum(np.abs(d)) / len(d) / 32768.0`: mean magnitude as a fraction of full scale. */
  function Energy(c: Chunk): real
    requires |c| > 0
  {
    SumMagnitudes(c) as real / |c| as real / 32768.0
  }

  /** The speech test, stated without division: the summed magnitude exceeds
      327.68 per sample. An empty read makes numpy divide zero by zero, which gives
      NaN, and NaN compares false, so an empty read is never loud. */
  predicate Loud(c: Chunk)
  {
    |c| > 0 && 100 * SumMagnitudes(c) > 32768 * |c|
  }

  lemma DivAbove(s: real, d: real, t: real)
    requires d > 0.0
    ensures s / d > t <==> s > t * d
  {
    var q := s / d;
    assert q * d == s;
    if q > t {
      assert q * d > t * d;
    } else {
      assert q * d <= t * d;
    }
  }

  /** `Loud` is exactly `energy_normalized > silence_threshold`. */
  lemma LoudIffEnergyAboveThreshold(c: Chunk)
    ensures Loud(c) <==> |c| > 0 && Energy(c) > SilenceThreshold
  {
    if |c| > 0 {
      var n := |c| as real;
      var s := SumMagnitudes(c) as real;
      var d := n * 32768.0;
      assert Energy(c) == s / d;
      DivAbove(s, d, SilenceThreshold);
      assert (100 * SumMagnitudes(c)) as real == 100.0 * s;
      assert (32768 * |c|) as real == 32768.0 * n;
    }
  }

  /** `np.abs` on an `int16` array as written: the absolute value stays 16-bit,
      so the most negative sample wraps back onto itself. */
  function WrappedMagnitude(x: Sample): int { if x == -32768 then -32768 else Magnitude(x) }

  function SumWrappedMagnitudes(s: seq<Sample>): int
  {
    if |s| == 0 then 0 else SumWrappedMagnitudes(s[..|s| - 1]) + WrappedMagnitude(s[|s| - 1])
  }

  /** The speech test as written, wrap-around included. */
  predicate LoudAsWritten(c: Chunk)
  {
    |c| > 0 && 100 * SumWrappedMagnitudes(c) > 32768 * |c|
  }

  /** A read clipped at full negative scale counts as silence as written
      (its wrapped energy is -1.0), although it is as loud as a chunk can be. */
  lemma {:induction false} ClippedChunkIsQuietAsWritten(c: Chunk)
    requires |c| > 0
    requires forall i :: 0 <= i < |c| ==> c[i] == -32768
    ensures SumWrappedMagnitudes(c) == -32768 * |c|
    ensures SumMagnitudes(c) == 32768 * |c|
    ensures !LoudAsWritten(c) && Loud(c)
  {
    if |c| > 1 {
      ClippedChunkIsQuietAsWritten(c[..|c| - 1]);
    }
  }

  /** Without such a sample both tests agree. */
  lemma {:induction false} NoClippingNoDifference(c: Chunk)
    requires forall i :: 0 <= i < |c| ==> c[i] != -32768
    ensures SumWrappedMagnitudes(c) == SumMagnitudes(c)
    ensures LoudAsWritten(c) <==> Loud(c)
  {
    if |c| > 0 {
      NoClippingNoDifference(c[..|c| - 1]);
    }
  }

  /** The audio loop's state: `self.speaking`, `self.speech_frames` and the loop's
      locals `silent_frames` and `speech_frames_count`. */
  datatype Endpoint = Endpoint(speaking: bool, buffer: seq<Chunk>, silent: nat, count: nat)

  const Idle := Endpoint(false, [], 0, 0)

  /** What holds between chunks: idle means nothing buffered and both counters at zero;
      speaking means every chunk since the start is buffered and counted, the silence
      limit is not reached, and the duration limit was not reached at the last loud
      chunk. Quiet chunks are counted but never checked against the duration limit. */
  predicate Consistent(e: Endpoint)
  {
    && (!e.speaking ==> e.buffer == [] && e.silent == 0 && e.count == 0)
    && (e.speaking ==> 1 <= e.count == |e.buffer| < MaxSpeechFrames + e.silent && e.silent < MaxSilentFrames)
  }

  /** One pass of the audio loop's body: the new state and, when `_process_speech`
      was called, the utterance it was handed. Every finalize goes back to idle,
      the max-duration cutoff included, and that cutoff is only checked on loud chunks. */
  function Step(e: Endpoint, c: Chunk): (Endpoint, Option<seq<Chunk>>)
  {
    if Loud(c) then
      var buffer := (if e.speaking then e.buffer else []) + [c];
      var count := e.count + 1;
      if count >= MaxSpeechFrames then (Idle, Some(buffer))
      else (Endpoint(true, buffer, 0, count), None)
    else if e.speaking then
      var buffer := e.buffer + [c];
      if e.silent + 1 >= MaxSilentFrames then (Idle, Some(buffer))
      else (Endpoint(true, buffer, e.silent + 1, e.count + 1), None)
    else
      (e, None)
  }

  /** Every step keeps the state consistent; a finalize always returns to idle with a
      non-empty utterance that ends in the chunk just read; a quiet finalize comes after
      exactly 15 quiet chunks; a loud one after at least 156 chunks. Because quiet chunks
      are never checked against the duration limit, an utterance can run to 170 chunks. */
  lemma {:induction false} StepKeepsConsistent(e: Endpoint, c: Chunk)
    requires Consistent(e)
    ensures Consistent(Step(e, c).0)
    ensures Step(e, c).1.Some? ==> Step(e, c).0 == Idle
    ensures Step(e, c).1.Some? ==> 1 <= |Step(e, c).1.value| <= MaxSpeechFrames + MaxSilentFrames - 1
    ensures Step(e, c).1.Some? ==> Step(e, c).1.value[|Step(e, c).1.value| - 1] == c
    ensures Step(e, c).1.Some? && !Loud(c) ==> e.silent + 1 == MaxSilentFrames
    ensures Step(e, c).1.Some? && Loud(c) ==> |Step(e, c).1.value| >= MaxSpeechFrames
    ensures Step(e, c).1.None? && e.speaking ==> Step(e, c).0.buffer == e.buffer + [c]
    ensures !Loud(c) && !e.speaking ==> Step(e, c) == (e, None)
  {
  }

  datatype Finalized = Finalized(at: nat, utterance: seq<Chunk>)

  /** The audio loop over a sequence of chunks: the final state and every finalize,
      with the 1-based position of the chunk that triggered it. */
  function Run(e: Endpoint, cs: seq<Chunk>): (Endpoint, seq<Finalized>)
  {
    if |cs| == 0 then (e, [])
    else
      var before := Run(e, cs[..|cs| - 1]);
      var step := Step(before.0, cs[|cs| - 1]);
      (step.0, before.1 + if step.1.Some? then [Finalized(|cs|, step.1.value)] else [])
  }

  /** A run keeps the state consistent and only ever finalizes non-empty utterances. */
  lemma {:induction false} RunKeepsConsistent(e: Endpoint, cs: seq<Chunk>)
    requires Consistent(e)
    ensures Consistent(Run(e, cs).0)
    ensures forall k :: 0 <= k < |Run(e, cs).1| ==>
              1 <= Run(e, cs).1[k].at <= |cs| && 1 <= |Run(e, cs).1[k].utterance| <= MaxSpeechFrames + MaxSilentFrames - 1
  {
    if |cs| > 0 {
      RunKeepsConsistent(e, cs[..|cs| - 1]);
      StepKeepsConsistent(Run(e, cs[..|cs| - 1]).0, cs[|cs| - 1]);
    }
  }

  /** Running one more chunk is one more step after the run so far. */
  lemma RunSnoc(e: Endpoint, cs: seq<Chunk>, c: Chunk)
    ensures Run(e, cs + [c]).0 == Step(Run(e, cs).0, c).0
    ensures Run(e, cs + [c]).1 == Run(e, cs).1 + if Step(Run(e, cs).0, c).1.Some? then [Finalized(|cs| + 1, Step(Run(e, cs).0, c).1.value)] else []
  {
    assert (cs + [c])[..|cs|] == cs;
  }

  /** A run that ends inside an utterance without finalizing, then a quiet chunk before
      the silence limit: the chunk is buffered and counted. */
  lemma QuietExtends(e: Endpoint, cs: seq<Chunk>, mid: Endpoint)
    requires |cs| > 0 && Run(e, cs[..|cs| - 1]) == (mid, [])
    requires mid.speaking && !Loud(cs[|cs| - 1]) && mid.silent + 1 < MaxSilentFrames
    ensures Run(e, cs) == (Endpoint(true, mid.buffer + [cs[|cs| - 1]], mid.silent + 1, mid.count + 1), [])
  {
    assert Run(e, cs[..|cs| - 1]).1 + [] == [];
  }

  /** ... and the quiet chunk that reaches the silence limit finalizes the utterance. */
  lemma QuietFinalizes(e: Endpoint, cs: seq<Chunk>, mid: Endpoint)
    requires |cs| > 0 && Run(e, cs[..|cs| - 1]) == (mid, [])
    requires mid.speaking && !Loud(cs[|cs| - 1]) && mid.silent + 1 == MaxSilentFrames
    ensures Run(e, cs) == (Idle, [Finalized(|cs|, mid.buffer + [cs[|cs| - 1]])])
  {
    assert [] + [Finalized(|cs|, mid.buffer + [cs[|cs| - 1]])] == [Finalized(|cs|, mid.buffer + [cs[|cs| - 1]])];
  }

  /** A run without finalizes, then a loud chunk before the duration cutoff: the chunk
      is buffered and counted, and the silence count is reset. */
  lemma LoudExtends(e: Endpoint, cs: seq<Chunk>, mid: Endpoint)
    requires |cs| > 0 && Run(e, cs[..|cs| - 1]) == (mid, [])
    requires Loud(cs[|cs| - 1]) && mid.count + 1 < MaxSpeechFrames
    ensures Run(e, cs) == (Endpoint(true, (if mid.speaking then mid.buffer else []) + [cs[|cs| - 1]], 0, mid.count + 1), [])
  {
    assert Run(e, cs[..|cs| - 1]).1 + [] == [];
  }

  /** ... and the loud chunk that reaches the duration cutoff finalizes the utterance. */
  lemma LoudFinalizes(e: Endpoint, cs: seq<Chunk>, mid: Endpoint)
    requires |cs| > 0 && Run(e, cs[..|cs| - 1]) == (mid, [])
    requires Loud(cs[|cs| - 1]) && mid.count + 1 >= MaxSpeechFrames
    ensures Run(e, cs) == (Idle, [Finalized(|cs|, (if mid.speaking then mid.buffer else []) + [cs[|cs| - 1]])])
  {
    var u := (if mid.speaking then mid.buffer else []) + [cs[|cs| - 1]];
    assert [] + [Finalized(|cs|, u)] == [Finalized(|cs|, u)];
  }

  /** From idle, fewer loud chunks than the cutoff build up one utterance. */
  lemma {:induction false} LoudPhase(u: seq<Chunk>)
    requires 1 <= |u| < MaxSpeechFrames
    requires forall i :: 0 <= i < |u| ==> Loud(u[i])
    ensures Run(Idle, u) == (Endpoint(true, u, 0, |u|), [])
  {
    var p := u[..|u| - 1];
    if |u| > 1 {
      LoudPhase(p);
      LoudExtends(Idle, u, Endpoint(true, p, 0, |p|));
    } else {
      assert Run(Idle, p) == (Idle, []);
      LoudExtends(Idle, u, Idle);
    }
    ButLastLast(u);
  }

  /** ... and, the first `n` chunks loud and fewer than 15 quiet ones after them, the
      quiet chunks extend it. */
  lemma {:induction false} QuietPhase(u: seq<Chunk>, n: nat)
    requires 1 <= n < MaxSpeechFrames && n <= |u| < n + MaxSilentFrames
    requires forall i :: 0 <= i < n ==> Loud(u[i])
    requires forall i :: n <= i < |u| ==> !Loud(u[i])
    ensures Run(Idle, u) == (Endpoint(true, u, |u| - n, |u|), [])
  {
    if |u| == n {
      LoudPhase(u);
    } else {
      var p := u[..|u| - 1];
      QuietPhase(p, n);
      QuietExtends(Idle, u, Endpoint(true, p, |p| - n, |p|));
      ButLastLast(u);
    }
  }

  /** N loud chunks (fewer than the cutoff) and then 15 quiet ones: exactly one finalize,
      at chunk N + 15, over all N + 15 chunks, and the loop is idle again. */
  lemma EndpointScenario(loud: seq<Chunk>, quiet: seq<Chunk>)
    requires 1 <= |loud| < MaxSpeechFrames
    requires |quiet| == MaxSilentFrames
    requires forall i :: 0 <= i < |loud| ==> Loud(loud[i])
    requires forall i :: 0 <= i < |quiet| ==> !Loud(quiet[i])
    ensures Run(Idle, loud + quiet) == (Idle, [Finalized(|loud| + 15, loud + quiet)])
  {
    var u := loud + quiet;
    var n := |loud|;
    var p := u[..|u| - 1];
    assert forall i :: n <= i < |p| ==> p[i] == quiet[i - n];
    QuietPhase(p, n);
    QuietFinalizes(Idle, u, Endpoint(true, p, 14, |p|));
    ButLastLast(u);
  }

  /** The longest utterance: 155 loud chunks, 14 quiet ones, then one more loud chunk,
      which is finalized at chunk 170 by the duration cutoff. */
  lemma LongestUtterance(loud: seq<Chunk>, quiet: seq<Chunk>, last: Chunk)
    requires |loud| == MaxSpeechFrames - 1 && |quiet| == MaxSilentFrames - 1
    requires forall i :: 0 <= i < |loud| ==> Loud(loud[i])
    requires forall i :: 0 <= i < |quiet| ==> !Loud(quiet[i])
    requires Loud(last)
    ensures Run(Idle, loud + quiet + [last]) == (Idle, [Finalized(170, loud + quiet + [last])])
  {
    var p := loud + quiet;
    var u := p + [last];
    assert u[..|u| - 1] == p;
    assert forall i :: |loud| <= i < |p| ==> p[i] == quiet[i - |loud|];
    QuietPhase(p, |loud|);
    LoudFinalizes(Idle, u, Endpoint(true, p, 14, 169));
  }

  /** A frame as stored for display: the raw frame while fewer than three are buffered,
      otherwise the frame with the detected label and confidence drawn on it, plus the
      "Speaking..." line when the audio loop is in an utterance. */
  datatype ProcessedFrame =
    | Raw(frame: RawFrame)
    | Annotated(frame: RawFrame, emotion: string, confidence: real, speakingIndicator: bool)

  /** `deque(maxlen=30).append`: the oldest entry falls out once the ring is full. */
  function PushRing(ring: seq<ProcessedFrame>, f: ProcessedFrame): (r: seq<ProcessedFrame>)
    requires |ring| <= ProcessedCapacity
    ensures |r| <= ProcessedCapacity && |r| >= 1 && r[|r| - 1] == f
    ensures |ring| < ProcessedCapacity ==> r == ring + [f]
    ensures |ring| == ProcessedCapacity ==> r == ring[1..] + [f]
  {
    if |ring| < ProcessedCapacity then ring + [f] else ring[1..] + [f]
  }

  /** The estimator's window after `add_frame`; a frame whose preprocessing failed is not added. */
  function Buffered(window: seq<FaceEmotion.Frame>, preprocessed: Option<FaceEmotion.Frame>): seq<FaceEmotion.Frame>
  {
    if preprocessed.Some? then FaceEmotion.Evict(window + [preprocessed.value]) else window
  }

  /** The display ring and the current face result after one dequeued frame, given how
      many frames the estimator holds and what it answered. With fewer than three frames
      the plain frame is stored; with three, only a detected emotion is stored (annotated)
      and becomes current, and a waiting or failed answer changes neither. */
  function Display(ring: seq<ProcessedFrame>, current: Option<FaceEmotion.FaceResult>, frame: RawFrame,
                   buffered: nat, result: FaceEmotion.FaceResult, speaking: bool): (r: (seq<ProcessedFrame>, Option<FaceEmotion.FaceResult>))
    requires |ring| <= ProcessedCapacity
    ensures |r.0| <= ProcessedCapacity && (r.0 == ring || |r.0| >= 1)
    ensures r.1 == current || (buffered >= FaceEmotion.WindowSize && result.Detected? && r.1 == Some(result))
    ensures r.0 != ring ==> r.0[|r.0| - 1].frame == frame
    ensures buffered < FaceEmotion.WindowSize ==> |r.0| >= 1 && r.0[|r.0| - 1] == Raw(frame) && r.1 == current
    ensures buffered >= FaceEmotion.WindowSize && result.Detected? ==>
              |r.0| >= 1 && r.0[|r.0| - 1] == Annotated(frame, result.emotion, result.confidence, speaking)
    ensures buffered >= FaceEmotion.WindowSize && !result.Detected? ==> r == (ring, current)
  {
    if buffered < FaceEmotion.WindowSize then (PushRing(ring, Raw(frame)), current)
    else if result.Detected? then
      (PushRing(ring, Annotated(frame, result.emotion, result.confidence, speaking)), Some(result))
    else (ring, current)
  }

  class ParallelAnalyzer {
    const emotionAnalyzer: FaceEmotion.EmotionAnalyzer

    var frameQueue: seq<RawFrame>
    var processedFrames: seq<ProcessedFrame>
    var currentEmotion: Option<FaceEmotion.FaceResult>

    var speaking: bool
    var speechFrames: seq<Chunk>
    var silentFrames: nat
    var speechFramesCount: nat

    ghost function State(): Endpoint
      reads this
    {
      Endpoint(speaking, speechFrames, silentFrames, speechFramesCount)
    }

    ghost predicate Valid()
      reads this, emotionAnalyzer
    {
      && |frameQueue| <= QueueCapacity
      && |processedFrames| <= ProcessedCapacity
      && Consistent(State())
      && emotionAnalyzer.Valid()
    }

    constructor (emotionAnalyzer: FaceEmotion.EmotionAnalyzer)
      requires emotionAnalyzer.Valid()
      ensures Valid() && this.emotionAnalyzer == emotionAnalyzer
      ensures frameQueue == [] && processedFrames == [] && currentEmotion == None
      ensures State() == Idle
    {
      this.emotionAnalyzer := emotionAnalyzer;
      frameQueue := [];
      processedFrames := [];
      currentEmotion := None;
      speaking := false;
      speechFrames := [];
      silentFrames := 0;
      speechFramesCount := 0;
    }

    /** `add_frame`: offered to the queue, silently dropped when it already holds ten. */
    method AddFrame(frame: RawFrame)
      requires Valid()
      modifies this`frameQueue
      ensures Valid()
      ensures |old(frameQueue)| < QueueCapacity ==> frameQueue == old(frameQueue) + [frame]
      ensures |old(frameQueue)| >= QueueCapacity ==> frameQueue == old(frameQueue)
    {
      if |frameQueue| < QueueCapacity {
        frameQueue := frameQueue + [frame];
      }
    }

    /** `get_latest_processed_frame` */
    function GetLatestProcessedFrame(): (r: Option<ProcessedFrame>)
      reads this
      ensures processedFrames == [] <==> r == None
      ensures r.Some? ==> r.value == processedFrames[|processedFrames| - 1]
    {
      if |processedFrames| > 0 then Some(processedFrames[|processedFrames| - 1]) else None
    }

    /** One pass of the video loop. `preprocess` stands for the analyzer's OpenCV
        preprocessing and `now` for the clock read when a result is stamped. */
    method ProcessVideo(preprocess: RawFrame -> Option<FaceEmotion.Frame>, now: real)
      requires Valid()
      modifies this`frameQueue, this`processedFrames, this`currentEmotion, emotionAnalyzer`frameBuffer
      ensures Valid()
      ensures old(frameQueue) == [] ==> unchanged(this, emotionAnalyzer)
      ensures old(frameQueue) != [] ==> frameQueue == old(frameQueue)[1..]
      ensures old(frameQueue) != [] ==>
                emotionAnalyzer.frameBuffer == Buffered(old(emotionAnalyzer.frameBuffer), preprocess(old(frameQueue)[0]))
      ensures old(frameQueue) != [] ==>
                (processedFrames, currentEmotion)
                == Display(old(processedFrames), old(currentEmotion), old(frameQueue)[0],
                           |emotionAnalyzer.frameBuffer|, emotionAnalyzer.GetEmotion(now), speaking)
    {
      if frameQueue != [] {
        var frame := frameQueue[0];
        frameQueue := frameQueue[1..];
        emotionAnalyzer.AddFrame(preprocess(frame));
        var result := emotionAnalyzer.GetEmotion(now);
        processedFrames, currentEmotion :=
          Display(processedFrames, currentEmotion, frame, |emotionAnalyzer.frameBuffer|, result, speaking).0,
          Display(processedFrames, currentEmotion, frame, |emotionAnalyzer.frameBuffer|, result, speaking).1;
      }
    }

    /** `_process_speech`'s effect on the loop state: hand over the buffered utterance
        (nothing when the buffer is empty) and go back to not speaking. The analysis it
        starts, and the exception path, end in the same reset. */
    method ProcessSpeech() returns (utterance: Option<seq<Chunk>>)
      modifies this`speaking, this`speechFrames
      ensures !speaking && speechFrames == []
      ensures utterance == if old(speechFrames) == [] then None else Some(old(speechFrames))
    {
      if speechFrames == [] {
        speaking := false;
        return None;
      }
      utterance := Some(speechFrames);
      speaking := false;
      speechFrames := [];
    }

    /** One pass of the audio loop's body over the chunk just read. */
    method ProcessChunk(chunk: Chunk) returns (utterance: Option<seq<Chunk>>)
      requires Valid()
      modifies this`speaking, this`speechFrames, this`silentFrames, this`speechFramesCount
      ensures Valid()
      ensures (State(), utterance) == Step(old(State()), chunk)
    {
      utterance := None;
      StepKeepsConsistent(State(), chunk);
      if Loud(chunk) {
        if !speaking {
          speaking := true;
          speechFrames := [];
        }
        speechFrames := speechFrames + [chunk];
        speechFramesCount := speechFramesCount + 1;
        silentFrames := 0;
        if speechFramesCount >= MaxSpeechFrames {
          utterance := ProcessSpeech();
          speechFramesCount := 0;
        }
      } else if speaking {
        speechFrames := speechFrames + [chunk];
        silentFrames := silentFrames + 1;
        speechFramesCount := speechFramesCount + 1;
        if silentFrames >= MaxSilentFrames {
          utterance := ProcessSpeech();
          speechFramesCount := 0;
          silentFrames := 0;
        }
      }
    }
  }
}
