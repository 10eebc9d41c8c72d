/** The facial-emotion estimator: a window of the last three preprocessed face
    images and windowed inference over a fixed five-label table. The classifier
    itself (a Keras model) and the image preprocessing (OpenCV) are parameters. */
module FaceEmotion {
  import opened Text
  import opened Dicts

  /** A preprocessed face: 48x48 grayscale values scaled to [0, 1]. */
  type Frame = seq<seq<real>>

  /** The loaded classifier: one score per label for a stack of three frames. */
  type Classifier = seq<Frame> -> seq<real>

  const WindowSize: nat := 3

  /** `self.emotions`: classifier output index to label. There is no neutral label. */
  const Labels: seq<string> := ["surprise", "happy", "anger", "sadness", "fear"]

  datatype FaceResult =
    | Waiting   // {"status": "waiting"}: fewer than three frames, or no model
    | Failed    // {"status": "error"}: the inference call raised
    | Detected(emotion: string, confidence: real, scores: seq<Entry>, timestamp: real)

  /** The window after appending one frame: `append` then one `pop(0)` when over three. */
  function Evict(s: seq<Frame>): seq<Frame>
  {
    if |s| > WindowSize then s[1..] else s
  }

  /** The window keeps at most three frames, the newest last, and drops the oldest first. */
  lemma {:induction false} EvictKeepsNewest(s: seq<Frame>, f: Frame)
    requires |s| <= WindowSize
    ensures |Evict(s + [f])| <= WindowSize
    ensures Evict(s + [f])[|Evict(s + [f])| - 1] == f
    ensures |s| < WindowSize ==> Evict(s + [f]) == s + [f]
    ensures |s| == WindowSize ==> Evict(s + [f]) == s[1..] + [f]
  {
    if |s| == WindowSize {
      assert (s + [f])[1..] == s[1..] + [f];
    }
  }

  /** What `get_emotion` makes of one classifier output `p` (`prediction[0]`).
      `np.argmax` of an empty vector raises, and so does looking up a label
      for an index past the table, so both lengths end in the error answer. */
  function Interpret(p: seq<real>, now: real): (r: FaceResult)
    ensures r.Failed? <==> |p| == 0 || |p| > |Labels|
    ensures !r.Waiting?
    ensures r.Detected? ==> r.timestamp == now && |r.scores| == |p|
    ensures r.Detected? ==> forall j :: 0 <= j < |p| ==> r.scores[j] == Entry(Labels[j], p[j])
    ensures r.Detected? ==>
              exists i :: (0 <= i < |p| && r.emotion == Labels[i] && r.confidence == p[i]
                           && (forall j :: 0 <= j < |p| ==> p[j] <= p[i])
                           && (forall j :: 0 <= j < i ==> p[j] < p[i]))
  {
    if |p| == 0 || |p| > |Labels| then Failed
    else
      var scores := seq(|p|, j requires 0 <= j < |p| => Entry(Labels[j], p[j]));
      var i := ArgMax(scores);
      assert scores[i].value == p[i];
      Detected(Labels[i], p[i], scores, now)
  }

  /** With a full five-score output every label appears exactly once, each with its own score. */
  lemma FiveScoresNameEveryLabel(p: seq<real>, now: real)
    requires |p| == |Labels|
    ensures Interpret(p, now).Detected?
    ensures Keys(Interpret(p, now).scores) == Labels
    ensures DistinctKeys(Interpret(p, now).scores)
  {
    var r := Interpret(p, now);
    assert Keys(r.scores) == Labels;
  }

  class EmotionAnalyzer {
    var frameBuffer: seq<Frame>
    var model: Option<Classifier>

    ghost predicate Valid()
      reads this
    {
      |frameBuffer| <= WindowSize
    }

    /** The model file is loaded elsewhere; `model` is `None` when it was missing. */
    constructor (model: Option<Classifier>)
      ensures Valid() && frameBuffer == [] && this.model == model
    {
      this.frameBuffer := [];
      this.model := model;
    }

    /** `add_frame`: `preprocessed` is `preprocess_frame`'s answer, `None` when it raised. */
    method AddFrame(preprocessed: Option<Frame>)
      requires Valid()
      modifies this`frameBuffer
      ensures Valid()
      ensures preprocessed.None? ==> frameBuffer == old(frameBuffer)
      ensures preprocessed.Some? ==> frameBuffer == Evict(old(frameBuffer) + [preprocessed.value])
    {
      if preprocessed.Some? {
        frameBuffer := frameBuffer + [preprocessed.value];
        if |frameBuffer| > WindowSize {
          frameBuffer := frameBuffer[1..];
        }
      }
    }

    /** `get_emotion`: waits until three frames are buffered and a model is loaded,
        then classifies exactly the last three frames. */
    function GetEmotion(now: real): (r: FaceResult)
      reads this
      ensures r.Waiting? <==> |frameBuffer| < WindowSize || model.None?
      ensures !r.Waiting? ==> r == Interpret(model.value(frameBuffer[|frameBuffer| - WindowSize..]), now)
    {
      if |frameBuffer| < WindowSize || model.None? then Waiting
      else Interpret(model.value(frameBuffer[|frameBuffer| - WindowSize..]), now)
    }

    method Reset()
      modifies this`frameBuffer
      ensures Valid() && frameBuffer == []
    {
      frameBuffer := [];
    }
  }

  /** Two analyzers with the same model whose last three frames agree give the same answer:
      older frames play no part in inference. */
  lemma OnlyLastThreeMatter(a: EmotionAnalyzer, b: EmotionAnalyzer, now: real)
    requires a.model == b.model
    requires |a.frameBuffer| >= WindowSize && |b.frameBuffer| >= WindowSize
    requires a.frameBuffer[|a.frameBuffer| - WindowSize..] == b.frameBuffer[|b.frameBuffer| - WindowSize..]
    ensures a.GetEmotion(now) == b.GetEmotion(now)
  {
  }
}
