/** Voice-tone scoring: the mapping from a VADER compound score to an emotion,
    the threshold table over acoustic features, and the 0.3/0.7 fusion of the two.
    VADER, librosa feature extraction and speech recognition are not modelled:
    their answers are parameters. */
module Voice {
  import opened Text
  import opened Dicts

  /** The five voice labels, in the order every score dict is built. */
  const Emotions: seq<string> := ["anger", "happiness", "sadness", "fear", "neutral"]

  const AngerWords: seq<string> := ["angry", "mad", "furious", "annoyed", "irritated", "hate"]
  const FearWords: seq<string> := ["scared", "afraid", "terrified", "anxious", "nervous", "worried", "fear"]

  /** What `polarity_scores` returns for a text. */
  datatype Polarity = Polarity(compound: real, pos: real, neg: real, neu: real)

  /** The sentiment dict: VADER's four scores plus the derived emotion and confidence. */
  datatype TextSentiment = TextSentiment(polarity: Polarity, emotion: string, confidence: real)

  function Abs(x: real): real { if x < 0.0 then -x else x }

  function Min(a: real, b: real): real { if a <= b then a else b }

  /** `analyze_text_sentiment`. `vader` stands for the sentiment analyzer; it is not
      consulted for an empty text. */
  function AnalyzeTextSentiment(text: string, vader: string -> Polarity): (r: TextSentiment)
    ensures text == [] ==> r == TextSentiment(Polarity(0.0, 0.0, 0.0, 0.0), "neutral", 0.5)
    ensures text != [] ==> r.polarity == vader(text)
    ensures r.emotion in Emotions && 0.5 <= r.confidence <= 0.95
    ensures r.emotion in Emotions && r.emotion != "neutral" ==> 0.75 <= r.confidence <= 0.95
    ensures r.emotion == "neutral" ==> 0.5 <= r.confidence <= 0.75
    ensures text != [] && -0.5 < vader(text).compound < 0.5 ==> r.emotion == "neutral" && r.confidence > 0.5
    ensures r.emotion == "happiness" <==> text != [] && vader(text).compound >= 0.5
    ensures r.emotion == "anger" <==>
              text != [] && vader(text).compound <= -0.5 && ContainsAny(Lower(text), AngerWords)
    ensures r.emotion == "fear" <==>
              (text != [] && vader(text).compound <= -0.5
               && !ContainsAny(Lower(text), AngerWords) && ContainsAny(Lower(text), FearWords))
    ensures r.emotion == "sadness" <==>
              (text != [] && vader(text).compound <= -0.5
               && !ContainsAny(Lower(text), AngerWords) && !ContainsAny(Lower(text), FearWords))
  {
    if text == [] then TextSentiment(Polarity(0.0, 0.0, 0.0, 0.0), "neutral", 0.5)
    else
      var p := vader(text);
      var c := p.compound;
      if c >= 0.5 then TextSentiment(p, "happiness", Min(0.5 + c / 2.0, 0.95))
      else if c <= -0.5 then
        var lowered := Lower(text);
        var emotion :=
          if ContainsAny(lowered, AngerWords) then "anger"
          else if ContainsAny(lowered, FearWords) then "fear"
          else "sadness";
        TextSentiment(p, emotion, Min(0.5 + Abs(c) / 2.0, 0.95))
      else TextSentiment(p, "neutral", 0.5 + (0.5 - Abs(c)) / 2.0)
  }

  /** A clearly negative text naming both an anger word and a fear word reads as anger. */
  lemma AngerBeforeFear(text: string, vader: string -> Polarity, i: nat, j: nat)
    requires text != [] && vader(text).compound <= -0.5
    requires i < |AngerWords| && j < |FearWords|
    requires Contains(Lower(text), AngerWords[i]) && Contains(Lower(text), FearWords[j])
    ensures AnalyzeTextSentiment(text, vader).emotion == "anger"
  {
  }

  /** The feature dict as `extract_features` returns it; empty when extraction failed. */
  type Features = map<string, real>

  /** The seven features the scorer reads; a missing one raises `KeyError`. */
  predicate HasScoredFeatures(f: Features)
  {
    && "energy" in f && "zero_crossing_rate" in f && "pitch_mean" in f && "pitch_std" in f
    && "speech_rate" in f && "spectral_centroid" in f && "tempo" in f
  }


  /** The rule weights each emotion collects from the features, before neutral is adjusted. */
  function Indicator(b: bool, w: real): (r: real)
    requires 0.0 <= w
    ensures 0.0 <= r <= w
  {
    if b then w else 0.0
  }

  function AngerCue(f: Features): (r: real)
    requires HasScoredFeatures(f)
    ensures 0.0 <= r <= 0.9
  {
    Indicator(f["energy"] > 0.05, 0.3) + Indicator(f["pitch_mean"] > 200.0, 0.2)
    + Indicator(f["speech_rate"] > 3.5, 0.2) + Indicator(f["spectral_centroid"] > 2000.0, 0.2)
  }

  function HappinessCue(f: Features): (r: real)
    requires HasScoredFeatures(f)
    ensures 0.0 <= r <= 0.9
  {
    Indicator(f["energy"] > 0.04, 0.2) + Indicator(f["pitch_std"] > 40.0, 0.3)
    + Indicator(3.0 < f["speech_rate"] < 3.5, 0.2) + Indicator(1500.0 < f["spectral_centroid"] < 2000.0, 0.2)
  }

  function SadnessCue(f: Features): (r: real)
    requires HasScoredFeatures(f)
    ensures 0.0 <= r <= 0.9
  {
    Indicator(f["energy"] < 0.03, 0.3) + Indicator(f["pitch_mean"] < 180.0, 0.2)
    + Indicator(f["speech_rate"] < 2.5, 0.2) + Indicator(f["spectral_centroid"] < 1500.0, 0.2)
  }

  function FearCue(f: Features): (r: real)
    requires HasScoredFeatures(f)
    ensures 0.0 <= r <= 0.8
  {
    Indicator(0.02 < f["energy"] < 0.04, 0.2) + Indicator(f["pitch_std"] > 30.0, 0.2)
    + Indicator(f["tempo"] > 120.0, 0.2) + Indicator(f["zero_crossing_rate"] > 0.1, 0.2)
  }

  function Max4(a: real, b: real, c: real, d: real): (m: real)
    ensures m >= a && m >= b && m >= c && m >= d
    ensures m == a || m == b || m == c || m == d
  {
    var ab := if a >= b then a else b;
    var cd := if c >= d then c else d;
    if ab >= cd then ab else cd
  }

  /** The neutral baseline of 0.3, lowered by `min(0.2, max - 0.5)` when another
      emotion scores above 0.5. */
  function NeutralAfterCues(otherMax: real): (n: real)
    ensures 0.1 <= n <= 0.3
    ensures otherMax <= 0.5 ==> n == 0.3
    ensures otherMax >= 0.7 ==> n == 0.1
  {
    if otherMax > 0.5 then 0.3 - Min(0.2, otherMax - 0.5) else 0.3
  }

  /** The score dict just before normalisation, in the dict's insertion order. */
  function RawScores(f: Features): (d: seq<Entry>)
    requires HasScoredFeatures(f)
    ensures Keys(d) == Emotions && NonNegative(d)
    ensures forall i :: 0 <= i < 4 ==> d[i].value <= 0.9
    ensures d[3].value <= 0.8
    ensures 0.1 <= d[4].value <= 0.3
    ensures Sum(d) >= 0.1
  {
    ScoreDict(AngerCue(f), HappinessCue(f), SadnessCue(f), FearCue(f))
  }

  /** The dict built from the four cue sums, with neutral adjusted. */
  function ScoreDict(a: real, h: real, s: real, fe: real): (d: seq<Entry>)
    requires 0.0 <= a <= 0.9 && 0.0 <= h <= 0.9 && 0.0 <= s <= 0.9 && 0.0 <= fe <= 0.8
    ensures Keys(d) == Emotions && NonNegative(d)
    ensures forall i :: 0 <= i < 4 ==> d[i].value <= 0.9
    ensures d[3].value <= 0.8
    ensures 0.1 <= d[4].value <= 0.3
    ensures Sum(d) >= 0.1
  {
    var d := [Entry("anger", a), Entry("happiness", h), Entry("sadness", s), Entry("fear", fe),
              Entry("neutral", NeutralAfterCues(Max4(a, h, s, fe)))];
    Sum5(d[0], d[1], d[2], d[3], d[4]);
    SumNonNegative(d[..4]);
    d
  }

  /** What `analyze_acoustic_emotion` returns. */
  datatype AcousticResult = AcousticResult(emotion: string, confidence: real, allEmotions: seq<Entry>)

  /** The answer of the `except` branch. */
  const AcousticFallback := AcousticResult("neutral", 0.5, [Entry("neutral", 1.0)])

  /** The acoustic classification: a missing feature gives the fallback; otherwise the
      scores are normalised to a distribution over the five labels and the answer is
      the first maximal one. */
  function AcousticEmotion(f: Features): (r: AcousticResult)
    ensures !HasScoredFeatures(f) ==> r == AcousticFallback
    ensures NonNegative(r.allEmotions) && Sum(r.allEmotions) == 1.0
    ensures HasScoredFeatures(f) ==> Keys(r.allEmotions) == Emotions
    ensures HasScoredFeatures(f) ==>
              exists i :: (0 <= i < |r.allEmotions| && r.allEmotions[i] == Entry(r.emotion, r.confidence)
                         && (forall j :: 0 <= j < |r.allEmotions| ==> r.allEmotions[j].value <= r.confidence)
                         && (forall j :: 0 <= j < i ==> r.allEmotions[j].value < r.confidence))
  {
    if !HasScoredFeatures(f) then
      assert Sum(AcousticFallback.allEmotions) == 1.0 + Sum([]);
      assert AcousticFallback.allEmotions[0] == Entry("neutral", 0.5 * 2.0);
      AcousticFallback
    else
      var d := Normalised(RawScores(f));
      var i := ArgMax(d);
      AcousticResult(d[i].key, d[i].value, d)
  }

  /** The sixteen threshold rules of `analyze_acoustic_emotion`, each adding its weight
      to one emotion's score. */
  method ScoreCues(f: Features) returns (anger: real, happiness: real, sadness: real, fear: real)
    requires HasScoredFeatures(f)
    ensures anger == AngerCue(f) && happiness == HappinessCue(f)
    ensures sadness == SadnessCue(f) && fear == FearCue(f)
  {
    var energy, zcr, pitchMean, pitchStd := f["energy"], f["zero_crossing_rate"], f["pitch_mean"], f["pitch_std"];
    var speechRate, centroid := f["speech_rate"], f["spectral_centroid"];
    anger, happiness, sadness, fear := 0.0, 0.0, 0.0, 0.0;
    if energy > 0.05 { anger := anger + 0.3; }
    if pitchMean > 200.0 { anger := anger + 0.2; }
    if speechRate > 3.5 { anger := anger + 0.2; }
    if centroid > 2000.0 { anger := anger + 0.2; }
    assert anger == AngerCue(f);
    if energy > 0.04 { happiness := happiness + 0.2; }
    if pitchStd > 40.0 { happiness := happiness + 0.3; }
    if 3.0 < speechRate < 3.5 { happiness := happiness + 0.2; }
    if 1500.0 < centroid < 2000.0 { happiness := happiness + 0.2; }
    assert happiness == HappinessCue(f);
    if energy < 0.03 { sadness := sadness + 0.3; }
    if pitchMean < 180.0 { sadness := sadness + 0.2; }
    if speechRate < 2.5 { sadness := sadness + 0.2; }
    if centroid < 1500.0 { sadness := sadness + 0.2; }
    assert sadness == SadnessCue(f);
    if 0.02 < energy < 0.04 { fear := fear + 0.2; }
    if pitchStd > 30.0 { fear := fear + 0.2; }
    if f["tempo"] > 120.0 { fear := fear + 0.2; }
    if zcr > 0.1 { fear := fear + 0.2; }
  }

  /** `analyze_acoustic_emotion`: the score dict filled rule by rule, neutral lowered
      on a clear signal, then normalised, and its first maximum reported. */
  method AnalyzeAcousticEmotion(f: Features) returns (r: AcousticResult)
    ensures r == AcousticEmotion(f)
  {
    if !HasScoredFeatures(f) {
      return AcousticFallback;
    }
    var anger, happiness, sadness, fear := ScoreCues(f);
    var neutral := 0.3;
    var maxOther := Max4(anger, happiness, sadness, fear);
    if maxOther > 0.5 {
      neutral := neutral - Min(0.2, maxOther - 0.5);
    }
    var scores := [Entry("anger", anger), Entry("happiness", happiness), Entry("sadness", sadness),
                   Entry("fear", fear), Entry("neutral", neutral)];
    assert scores == RawScores(f);
    scores := Normalise(scores);
    var i := ArgMax(scores);
    r := AcousticResult(scores[i].key, scores[i].value, scores);
  }

  /** Neutral never drops below 0.1, so the total is always positive and the
      normalising branch is always taken. */
  lemma AcousticAlwaysNormalised(f: Features)
    requires HasScoredFeatures(f)
    ensures AcousticEmotion(f).allEmotions == Scale(RawScores(f), Sum(RawScores(f)))
    ensures AcousticEmotion(f).allEmotions[4].value > 0.0
  {
    var d := RawScores(f);
    assert AcousticEmotion(f).allEmotions == Normalised(d);
    PositiveNeutralNormalised(d);
  }

  /** A dict with a positive total is scaled by it, and keeps a positive fifth entry. */
  lemma PositiveNeutralNormalised(d: seq<Entry>)
    requires |d| == 5 && d[4].value > 0.0 && Sum(d) > 0.0
    ensures Normalised(d) == Scale(d, Sum(d))
    ensures Normalised(d)[4].value > 0.0
  {
    assert Scale(d, Sum(d))[4].value == d[4].value / Sum(d);
  }

  /** Adds `delta` under `k` only when `k` is one of the dict's keys
      (`if emotion in combined_emotions: combined_emotions[emotion] += ...`). */
  function AddKnown(d: seq<Entry>, k: string, delta: real): (r: seq<Entry>)
    ensures Keys(r) == Keys(d)
  {
    if HasKey(d, k) then
      var r := AddTo(d, k, delta);
      assert Keys(r) == Keys(d);
      r
    else d
  }

  const AcousticWeight: real := 0.3
  const TextWeight: real := 0.7

  const ZeroScores: seq<Entry> :=
    [Entry("anger", 0.0), Entry("happiness", 0.0), Entry("sadness", 0.0), Entry("fear", 0.0), Entry("neutral", 0.0)]

  /** The combined dict after the acoustic loop has seen the first `k` items. */
  function AddAcoustic(items: seq<Entry>, k: nat): (r: seq<Entry>)
    requires k <= |items|
    ensures Keys(r) == Emotions
  {
    if k == 0 then ZeroScores
    else AddKnown(AddAcoustic(items, k - 1), items[k - 1].key, items[k - 1].value * AcousticWeight)
  }

  /** The combined dict after the whole acoustic loop. */
  function AcousticScores(items: seq<Entry>): (r: seq<Entry>)
    ensures Keys(r) == Emotions
  {
    AddAcoustic(items, |items|)
  }

  /** The combined dict before normalisation: the weighted acoustic scores plus
      0.7 times the text confidence under the text's label. */
  function Combined(acoustic: AcousticResult, text: TextSentiment): (r: seq<Entry>)
    ensures Keys(r) == Emotions
  {
    AddKnown(AcousticScores(acoustic.allEmotions), text.emotion, text.confidence * TextWeight)
  }

  /** The fusion block's answer: label and confidence of the first maximum of the
      UNNORMALISED combined scores, and the normalised scores. */
  datatype Fusion = Fusion(emotion: string, confidence: real, allEmotions: seq<Entry>)

  function Fuse(acoustic: AcousticResult, text: TextSentiment): (r: Fusion)
    ensures r.emotion in Emotions
    ensures forall j :: 0 <= j < 5 ==> Combined(acoustic, text)[j].value <= r.confidence
    ensures exists i :: (0 <= i < 5 && Combined(acoustic, text)[i] == Entry(r.emotion, r.confidence)
                         && forall j :: 0 <= j < i ==> Combined(acoustic, text)[j].value < r.confidence)
    ensures r.allEmotions == Normalised(Combined(acoustic, text))
  {
    var c := Combined(acoustic, text);
    assert Keys(c) == Emotions;
    var i := ArgMax(c);
    assert c[i].key == Emotions[i];
    Fusion(c[i].key, c[i].value, Normalised(c))
  }

  /** The fusion block of `analyze_emotion` (the two accumulation loops, `max`, and the
      normalising loop). */
  method FuseScores(acoustic: AcousticResult, text: TextSentiment) returns (r: Fusion)
    ensures r == Fuse(acoustic, text)
  {
    var combined := AccumulateAcoustic(acoustic.allEmotions);
    combined := AddKnown(combined, text.emotion, text.confidence * TextWeight);
    CombinedUnfold(acoustic, text);
    FuseUnfold(acoustic, text);
    var i := ArgMax(combined);
    var emotion, confidence := combined[i].key, combined[i].value;
    var all := Normalise(combined);
    r := Fusion(emotion, confidence, all);
  }

  lemma FuseUnfold(a: AcousticResult, t: TextSentiment)
    ensures |Combined(a, t)| == 5
    ensures var c := Combined(a, t);
            Fuse(a, t) == Fusion(c[ArgMax(c)].key, c[ArgMax(c)].value, Normalised(c))
  {
    assert |Keys(Combined(a, t))| == 5;
  }

  /** The acoustic accumulation loop of the fusion block. */
  method AccumulateAcoustic(items: seq<Entry>) returns (combined: seq<Entry>)
    ensures combined == AcousticScores(items)
  {
    combined := ZeroScores;
    for k := 0 to |items|
      invariant combined == AddAcoustic(items, k)
    {
      combined := AddKnown(combined, items[k].key, items[k].value * AcousticWeight);
    }
  }

  /** The sum of the values among the first `k` whose label is one of the five. */
  function KnownSum(items: seq<Entry>, k: nat): real
    requires k <= |items|
  {
    if k == 0 then 0.0
    else KnownSum(items, k - 1) + (if items[k - 1].key in Emotions then items[k - 1].value else 0.0)
  }

  lemma {:induction false} AddKnownSum(d: seq<Entry>, k: string, delta: real)
    requires Keys(d) == Emotions
    ensures Sum(AddKnown(d, k, delta)) == Sum(d) + (if k in Emotions then delta else 0.0)
  {
    HasKeyIffInKeys(d, k);
    if HasKey(d, k) {
      AddToGet(d, k, delta);
    }
  }

  lemma {:induction false} AddAcousticSum(items: seq<Entry>, k: nat)
    requires k <= |items|
    ensures Sum(AddAcoustic(items, k)) == AcousticWeight * KnownSum(items, k)
  {
    if k == 0 {
      Sum5(ZeroScores[0], ZeroScores[1], ZeroScores[2], ZeroScores[3], ZeroScores[4]);
    } else {
      AddAcousticSum(items, k - 1);
      AddKnownSum(AddAcoustic(items, k - 1), items[k - 1].key, items[k - 1].value * AcousticWeight);
    }
  }

  lemma {:induction false} KnownSumOfKnown(items: seq<Entry>, k: nat)
    requires k <= |items|
    requires forall i :: 0 <= i < |items| ==> items[i].key in Emotions
    ensures KnownSum(items, k) == Sum(items[..k])
  {
    if k > 0 {
      KnownSumOfKnown(items, k - 1);
      SumAppend(items[..k - 1], items[k - 1]);
      assert items[..k - 1] + [items[k - 1]] == items[..k];
    }
  }

  /** Every label an acoustic result scores is one of the five. */
  lemma AcousticLabelsKnown(f: Features)
    ensures forall i :: 0 <= i < |AcousticEmotion(f).allEmotions| ==> AcousticEmotion(f).allEmotions[i].key in Emotions
  {
    var a := AcousticEmotion(f);
    forall i | 0 <= i < |a.allEmotions|
      ensures a.allEmotions[i].key in Emotions
    {
      if HasScoredFeatures(f) {
        assert Keys(a.allEmotions)[i] == a.allEmotions[i].key;
      }
    }
  }

  /** The combined total is 0.3 times the acoustic total plus 0.7 times the text confidence. */
  lemma CombinedTotal(a: AcousticResult, t: TextSentiment)
    requires forall i :: 0 <= i < |a.allEmotions| ==> a.allEmotions[i].key in Emotions
    requires t.emotion in Emotions
    ensures Sum(Combined(a, t)) == 0.3 * Sum(a.allEmotions) + 0.7 * t.confidence
  {
    TextShareSum(a, t);
    AcousticPartSum(a.allEmotions);
  }

  lemma CombinedUnfold(a: AcousticResult, t: TextSentiment)
    ensures Combined(a, t) == AddKnown(AcousticScores(a.allEmotions), t.emotion, t.confidence * TextWeight)
  {
  }

  lemma TextShareSum(a: AcousticResult, t: TextSentiment)
    requires t.emotion in Emotions
    ensures Sum(Combined(a, t)) == Sum(AcousticScores(a.allEmotions)) + t.confidence * TextWeight
  {
    CombinedUnfold(a, t);
    AddKnownSum(AcousticScores(a.allEmotions), t.emotion, t.confidence * TextWeight);
  }

  lemma AcousticPartSum(items: seq<Entry>)
    requires forall i :: 0 <= i < |items| ==> items[i].key in Emotions
    ensures Sum(AcousticScores(items)) == 0.3 * Sum(items)
  {
    KnownSumOfKnown(items, |items|);
    assert items[..|items|] == items;
    AddAcousticSum(items, |items|);
  }

  /** For real inputs (an acoustic distribution over the five labels and a text
      sentiment from the mapping) the combined total is 0.3 + 0.7 * text confidence,
      which lies between 0.65 and 0.965. */
  lemma FusedTotal(f: Features, text: string, vader: string -> Polarity)
    ensures Sum(Combined(AcousticEmotion(f), AnalyzeTextSentiment(text, vader)))
            == 0.3 + 0.7 * AnalyzeTextSentiment(text, vader).confidence
    ensures 0.65 <= Sum(Combined(AcousticEmotion(f), AnalyzeTextSentiment(text, vader))) < 1.0
  {
    var a := AcousticEmotion(f);
    var t := AnalyzeTextSentiment(text, vader);
    AcousticLabelsKnown(f);
    CombinedTotal(a, t);
  }

  /** Because that total is below 1, the reported (unnormalised) confidence is strictly
      below the dominant label's own score in the normalised `all_emotions`. */
  lemma FusedConfidenceIsUnnormalised(f: Features, text: string, vader: string -> Polarity)
    ensures var r := Fuse(AcousticEmotion(f), AnalyzeTextSentiment(text, vader));
            r.confidence > 0.0 ==>
              exists i :: 0 <= i < 5 && r.allEmotions[i].key == r.emotion && r.allEmotions[i].value > r.confidence
  {
    var a := AcousticEmotion(f);
    var t := AnalyzeTextSentiment(text, vader);
    var c := Combined(a, t);
    FusedTotal(f, text, vader);
    var total := Sum(c);
    var r := Fuse(a, t);
    if r.confidence > 0.0 {
      var i :| 0 <= i < 5 && c[i] == Entry(r.emotion, r.confidence);
      assert r.allEmotions == Scale(c, total);
      assert r.allEmotions[i].value == r.confidence / total;
      DivBelowOne(r.confidence, total);
    }
  }

  lemma DivBelowOne(x: real, t: real)
    requires x > 0.0 && 0.0 < t < 1.0
    ensures x / t > x
  {
    var d := 1.0 - t;
    assert x / t - x == x * d / t;
    assert x * d > 0.0;
  }

  /** On a dict over the five labels, adding under the i-th label updates the i-th entry. */
  lemma AddKnownAt(d: seq<Entry>, i: nat, delta: real)
    requires Keys(d) == Emotions && i < 5
    ensures AddKnown(d, Emotions[i], delta) == d[i := Entry(Emotions[i], d[i].value + delta)]
  {
    assert d[i].key == Keys(d)[i];
    assert HasKey(d, Emotions[i]);
    forall j | 0 <= j < i
      ensures d[j].key != Emotions[i]
    {
      assert d[j].key == Keys(d)[j];
    }
    AddToAt(d, i, Emotions[i], delta);
  }

  /** After the acoustic loop has seen the first k entries of a five-label dict, each
      of those labels holds 0.3 times its score and the others are still zero. */
  lemma {:induction false} AddAcousticPrefix(items: seq<Entry>, k: nat)
    requires Keys(items) == Emotions && k <= 5
    ensures forall j :: 0 <= j < 5 ==>
              AddAcoustic(items, k)[j].value == (if j < k then items[j].value * AcousticWeight else 0.0)
  {
    if k > 0 {
      AddAcousticPrefix(items, k - 1);
      assert items[k - 1].key == Keys(items)[k - 1];
      AddKnownAt(AddAcoustic(items, k - 1), k - 1, items[k - 1].value * AcousticWeight);
    }
  }

  /** Fusion over a five-label acoustic dict: each label's combined score is 0.3 times its
      acoustic score, plus 0.7 times the text confidence for the text's label. */
  lemma CombinedScores(a: AcousticResult, t: TextSentiment, m: nat)
    requires Keys(a.allEmotions) == Emotions
    requires m < 5 && t.emotion == Emotions[m]
    ensures forall j :: 0 <= j < 5 ==>
              Combined(a, t)[j].value
              == AcousticWeight * a.allEmotions[j].value + (if j == m then TextWeight * t.confidence else 0.0)
  {
    AddAcousticPrefix(a.allEmotions, 5);
    CombinedUnfold(a, t);
    assert AcousticScores(a.allEmotions) == AddAcoustic(a.allEmotions, 5);
    AddKnownAt(AcousticScores(a.allEmotions), m, t.confidence * TextWeight);
  }

  /** Acoustic scores leaning to anger, text sadness at 0.9: sadness wins with the
      unnormalised confidence 0.3 * 0.2 + 0.7 * 0.9 = 0.69 against anger's 0.15. */
  lemma FusionExample(a: AcousticResult, t: TextSentiment)
    requires a.allEmotions == [Entry("anger", 0.5), Entry("happiness", 0.0), Entry("sadness", 0.2),
                               Entry("fear", 0.0), Entry("neutral", 0.3)]
    requires t.emotion == "sadness" && t.confidence == 0.9
    ensures Fuse(a, t).emotion == "sadness" && Fuse(a, t).confidence == 0.69
  {
    assert Keys(a.allEmotions) == Emotions;
    CombinedScores(a, t, 2);
    ExampleWinner(Combined(a, t), a.allEmotions, Fuse(a, t).emotion, Fuse(a, t).confidence);
  }

  /** The arithmetic of the example above, on the combined dict alone. */
  lemma ExampleWinner(c: seq<Entry>, w: seq<Entry>, e: string, v: real)
    requires w == [Entry("anger", 0.5), Entry("happiness", 0.0), Entry("sadness", 0.2),
                   Entry("fear", 0.0), Entry("neutral", 0.3)]
    requires Keys(c) == Emotions
    requires forall j :: 0 <= j < 5 ==>
               c[j].value == AcousticWeight * w[j].value + (if j == 2 then TextWeight * 0.9 else 0.0)
    requires exists i :: 0 <= i < 5 && c[i] == Entry(e, v)
    requires forall j :: 0 <= j < 5 ==> c[j].value <= v
    ensures e == "sadness" && v == 0.69
  {
    assert c[2].value == 0.69;
    assert c[2].key == Keys(c)[2];
    var i :| 0 <= i < 5 && c[i] == Entry(e, v);
    assert c[i].value == AcousticWeight * w[i].value + (if i == 2 then TextWeight * 0.9 else 0.0);
  }

  /** What `analyze_emotion` returns. */
  datatype VoiceResult =
    | VoiceError(message: string)
    | VoiceAnalysis(emotion: string, confidence: real, transcribedText: string, textSentiment: TextSentiment,
                    acoustic: AcousticResult, allEmotions: seq<Entry>, features: Features, audioFile: string)

  /** `analyze_emotion`. `audioFile` is the argument and `latestRecording` the last
      recording ("" for none); `fileExists`, `features`, `transcript` and `vader` stand for
      the file-system check, librosa, speech recognition and VADER. */
  method AnalyzeEmotion(audioFile: string, latestRecording: string, fileExists: string -> bool,
                        features: string -> Features, transcript: string -> string,
                        vader: string -> Polarity) returns (r: VoiceResult)
    ensures var file := if audioFile != "" then audioFile else latestRecording;
            if file == "" || !fileExists(file) then r == VoiceError("No valid audio file to analyze")
            else if features(file) == map[] then r == VoiceError("Failed to extract audio features")
            else
              var text := transcript(file);
              var t := AnalyzeTextSentiment(text, vader);
              var a := AcousticEmotion(features(file));
              var fused := Fuse(a, t);
              r == VoiceAnalysis(fused.emotion, fused.confidence, text, t, a, fused.allEmotions, features(file), file)
  {
    var file := if audioFile != "" then audioFile else latestRecording;
    if file == "" || !fileExists(file) {
      return VoiceError("No valid audio file to analyze");
    }
    var f := features(file);
    if f == map[] {
      return VoiceError("Failed to extract audio features");
    }
    var text := transcript(file);
    var t := AnalyzeTextSentiment(text, vader);
    var a := AnalyzeAcousticEmotion(f);
    var fused := FuseScores(a, t);
    r := VoiceAnalysis(fused.emotion, fused.confidence, text, t, a, fused.allEmotions, f, file);
  }
}
