/** The multimodal analyzer: a session history of face, voice and text results,
    a rolling vote over the last ten face and voice emotions, a valence/arousal
    estimate, emotion-triggered follow-up questions and the priority merge of all
    follow-ups. The text, face and voice analyzers are the other modules. */
module Multimodal {
  import opened Text
  import opened Dicts
  import FaceEmotion
  import Voice
  import Intent

  type Followup = Intent.Followup

  // ---------------------------------------------------------------- emotion weights

  datatype Weight = Weight(valence: real, arousal: real)

  /** `self.emotion_weights[label]`, `None` when the label is not in the table. */
  function WeightOf(e: string): (w: Option<Weight>)
    ensures w.Some? ==> -0.8 <= w.value.valence <= 0.9 && -0.4 <= w.value.arousal <= 0.9
  {
    if e == "surprise" then Some(Weight(0.1, 0.8))
    else if e == "happy" then Some(Weight(0.9, 0.6))
    else if e == "happiness" then Some(Weight(0.9, 0.6))
    else if e == "anger" then Some(Weight(-0.8, 0.9))
    else if e == "sadness" then Some(Weight(-0.7, -0.4))
    else if e == "fear" then Some(Weight(-0.8, 0.7))
    else if e == "neutral" then Some(Weight(0.0, 0.0))
    else None
  }

  // ---------------------------------------------------------------- _estimate_emotional_state

  const HistoryWindow: nat := 10
  const FaceVote: real := 0.6
  const VoiceVote: real := 0.4

  /** `history[-10:]` */
  function Recent(s: seq<string>): (r: seq<string>)
    ensures |r| <= HistoryWindow && |r| <= |s| && r == s[|s| - |r|..]
    ensures |s| <= HistoryWindow ==> r == s
    ensures |s| >= HistoryWindow ==> |r| == HistoryWindow
  {
    if |s| <= HistoryWindow then s else s[|s| - HistoryWindow..]
  }

  /** The counting loop over `labels`, each non-empty label adding `w` to its count. */
  function Votes(d: seq<Entry>, labels: seq<string>, w: real): seq<Entry>
  {
    if |labels| == 0 then d
    else
      var before := Votes(d, labels[..|labels| - 1], w);
      var e := labels[|labels| - 1];
      if e != "" then AddTo(before, e, w) else before
  }

  /** How often `e` occurs in `labels`. */
  function Occurrences(labels: seq<string>, e: string): nat
  {
    if |labels| == 0 then 0
    else Occurrences(labels[..|labels| - 1], e) + (if labels[|labels| - 1] == e then 1 else 0)
  }

  /** The weighted tally of `e` over the two windows. */
  function Tally(face: seq<string>, voice: seq<string>, e: string): real
  {
    FaceVote * Occurrences(face, e) as real + VoiceVote * Occurrences(voice, e) as real
  }

  /** The total weight of the entries whose label has a table entry. */
  function Mass(labels: seq<string>, w: real): real
  {
    if |labels| == 0 then 0.0
    else Mass(labels[..|labels| - 1], w) + (if WeightOf(labels[|labels| - 1]).Some? then w else 0.0)
  }

  function ValenceSum(labels: seq<string>, w: real): real
  {
    if |labels| == 0 then 0.0
    else
      var x := WeightOf(labels[|labels| - 1]);
      ValenceSum(labels[..|labels| - 1], w) + (if x.Some? then x.value.valence * w else 0.0)
  }

  function ArousalSum(labels: seq<string>, w: real): real
  {
    if |labels| == 0 then 0.0
    else
      var x := WeightOf(labels[|labels| - 1]);
      ArousalSum(labels[..|labels| - 1], w) + (if x.Some? then x.value.arousal * w else 0.0)
  }

  /** `{'valence', 'arousal', 'dominant_emotion'}` plus `'emotion_distribution'`
      except for the empty-history answer. */
  datatype EmotionalState = EmotionalState(valence: real, arousal: real, dominant: Option<string>,
                                           distribution: Option<seq<Entry>>)

  const NoEmotionalState: EmotionalState := EmotionalState(0.0, 0.0, None, None)

  function Counts(face: seq<string>, voice: seq<string>): seq<Entry>
  {
    Votes(Votes([], face, FaceVote), voice, VoiceVote)
  }

  /** `max(emotion_counts.items(), key=...)[0] if emotion_counts else None` */
  function Dominant(counts: seq<Entry>): Option<string>
  {
    if counts == [] then None else Some(counts[ArgMax(counts)].key)
  }

  /** A weighted sum divided by its total weight, 0 without any weight
      (`total / count if count > 0 else 0`). */
  function Mean(total: real, mass: real): real
  {
    if mass > 0.0 then total / mass else 0.0
  }

  /** The 0.6/0.4-weighted mean valence over the two windows. */
  function Valence(f: seq<string>, v: seq<string>): real
  {
    Mean(ValenceSum(f, FaceVote) + ValenceSum(v, VoiceVote), Mass(f, FaceVote) + Mass(v, VoiceVote))
  }

  function Arousal(f: seq<string>, v: seq<string>): real
  {
    Mean(ArousalSum(f, FaceVote) + ArousalSum(v, VoiceVote), Mass(f, FaceVote) + Mass(v, VoiceVote))
  }

  /** What `_estimate_emotional_state` returns for the two session histories of labels. */
  function EmotionalStateOf(face: seq<string>, voice: seq<string>): EmotionalState
  {
    if face == [] && voice == [] then NoEmotionalState
    else
      var f, v := Recent(face), Recent(voice);
      var counts := Counts(f, v);
      EmotionalState(Valence(f, v), Arousal(f, v), Dominant(counts), Some(counts))
  }

  /** One counting loop of `_estimate_emotional_state`: `w` added to each non-empty label. */
  method CountVotes(d: seq<Entry>, labels: seq<string>, w: real) returns (counts: seq<Entry>)
    ensures counts == Votes(d, labels, w)
  {
    counts := d;
    for k := 0 to |labels|
      invariant counts == Votes(d, labels[..k], w)
    {
      assert labels[..k + 1][..k] == labels[..k];
      if labels[k] != "" {
        counts := AddTo(counts, labels[k], w);
      }
    }
    assert labels[..|labels|] == labels;
  }

  /** One weighted-sum loop of `_estimate_emotional_state`, over the labels in the table. */
  method SumWeights(labels: seq<string>, w: real) returns (valence: real, arousal: real, count: real)
    ensures valence == ValenceSum(labels, w) && arousal == ArousalSum(labels, w) && count == Mass(labels, w)
  {
    valence, arousal, count := 0.0, 0.0, 0.0;
    for k := 0 to |labels|
      invariant valence == ValenceSum(labels[..k], w) && arousal == ArousalSum(labels[..k], w)
      invariant count == Mass(labels[..k], w)
    {
      assert labels[..k + 1][..k] == labels[..k];
      var x := WeightOf(labels[k]);
      if labels[k] != "" && x.Some? {
        valence := valence + x.value.valence * w;
        arousal := arousal + x.value.arousal * w;
        count := count + w;
      }
    }
    assert labels[..|labels|] == labels;
  }

  /** `_estimate_emotional_state`: the face and voice counting loops, `max` over the
      counts, and the face and voice weighted-sum loops. */
  method EstimateEmotionalState(face: seq<string>, voice: seq<string>) returns (r: EmotionalState)
    ensures r == EmotionalStateOf(face, voice)
  {
    if face == [] && voice == [] {
      return NoEmotionalState;
    }
    var f, v := Recent(face), Recent(voice);
    var counts := CountVotes([], f, FaceVote);
    counts := CountVotes(counts, v, VoiceVote);
    var dominant := if counts == [] then None else Some(counts[ArgMax(counts)].key);
    var faceValence, faceArousal, faceCount := SumWeights(f, FaceVote);
    var voiceValence, voiceArousal, voiceCount := SumWeights(v, VoiceVote);
    var valenceSum, arousalSum, count := faceValence + voiceValence, faceArousal + voiceArousal, faceCount + voiceCount;
    r := EmotionalState(Mean(valenceSum, count), Mean(arousalSum, count), dominant, Some(counts));
    EmotionalStateFromSums(face, voice, valenceSum, arousalSum, count);
  }

  /** The estimate of a non-empty session, in terms of the sums the loops computed. */
  lemma EmotionalStateFromSums(face: seq<string>, voice: seq<string>, valenceSum: real, arousalSum: real, count: real)
    requires face != [] || voice != []
    requires var f, v := Recent(face), Recent(voice);
             && valenceSum == ValenceSum(f, FaceVote) + ValenceSum(v, VoiceVote)
             && arousalSum == ArousalSum(f, FaceVote) + ArousalSum(v, VoiceVote)
             && count == Mass(f, FaceVote) + Mass(v, VoiceVote)
    ensures var counts := Counts(Recent(face), Recent(voice));
            EmotionalStateOf(face, voice)
            == EmotionalState(Mean(valenceSum, count), Mean(arousalSum, count), Dominant(counts), Some(counts))
  {
  }

  /** Counting keeps the keys distinct. */
  lemma {:induction false} VotesDistinct(d: seq<Entry>, labels: seq<string>, w: real)
    requires DistinctKeys(d)
    ensures DistinctKeys(Votes(d, labels, w))
  {
    if |labels| > 0 {
      VotesDistinct(d, labels[..|labels| - 1], w);
      if labels[|labels| - 1] != "" {
        AddToDistinct(Votes(d, labels[..|labels| - 1], w), labels[|labels| - 1], w);
      }
    }
  }

  /** Each non-empty label's count rises by `w` per occurrence. */
  lemma {:induction false} VotesGet(d: seq<Entry>, labels: seq<string>, w: real, e: string)
    requires e != ""
    ensures Get(Votes(d, labels, w), e, 0.0) == Get(d, e, 0.0) + w * Occurrences(labels, e) as real
  {
    VotesGetWeighted(d, labels, w, e);
    WeightedOccurrences(labels, w, e);
  }

  /** `w` added once per occurrence of `e`. */
  function Weighted(labels: seq<string>, w: real, e: string): real
  {
    if |labels| == 0 then 0.0
    else Weighted(labels[..|labels| - 1], w, e) + (if labels[|labels| - 1] == e then w else 0.0)
  }

  lemma {:induction false} WeightedOccurrences(labels: seq<string>, w: real, e: string)
    ensures Weighted(labels, w, e) == w * Occurrences(labels, e) as real
  {
    if |labels| > 0 {
      var n := Occurrences(labels[..|labels| - 1], e);
      WeightedOccurrences(labels[..|labels| - 1], w, e);
      assert w * (n + 1) as real == w * n as real + w;
    }
  }

  lemma {:induction false} VotesGetWeighted(d: seq<Entry>, labels: seq<string>, w: real, e: string)
    requires e != ""
    ensures Get(Votes(d, labels, w), e, 0.0) == Get(d, e, 0.0) + Weighted(labels, w, e)
  {
    if |labels| > 0 {
      var init := labels[..|labels| - 1];
      var last := labels[|labels| - 1];
      var before := Votes(d, init, w);
      VotesGetWeighted(d, init, w, e);
      if last == e {
        AddToGetSame(before, e, w);
      } else if last != "" {
        AddToGetOther(before, last, w, e);
      }
    }
  }

  /** A label gets a count exactly when it is non-empty and occurs; empty labels count for nothing. */
  lemma {:induction false} VotesKeys(d: seq<Entry>, labels: seq<string>, w: real, e: string)
    ensures HasKey(Votes(d, labels, w), e) <==> HasKey(d, e) || (e != "" && e in labels)
  {
    if |labels| > 0 {
      var init := labels[..|labels| - 1];
      var last := labels[|labels| - 1];
      VotesKeys(d, init, w, e);
      var before := Votes(d, init, w);
      assert labels == init + [last];
      if last != "" {
        AddToGet(before, last, w);
        if e != last {
          AddToKeys(before, last, w, e);
        }
      }
    }
  }

  lemma AddToKeys(d: seq<Entry>, k: string, delta: real, e: string)
    requires e != k
    ensures HasKey(AddTo(d, k, delta), e) <==> HasKey(d, e)
  {
    var r := AddTo(d, k, delta);
    if HasKey(r, e) {
      var i :| 0 <= i < |r| && r[i].key == e;
      assert i < |d|;
    }
    if HasKey(d, e) {
      var i :| 0 <= i < |d| && d[i].key == e;
      assert r[i].key == e;
    }
  }

  /** A voted label's count is exactly its weighted tally over the two windows. */
  lemma CountsTally(face: seq<string>, voice: seq<string>, e: string)
    ensures DistinctKeys(Counts(face, voice))
    ensures e != "" ==> Get(Counts(face, voice), e, 0.0) == Tally(face, voice, e)
    ensures HasKey(Counts(face, voice), e) <==> e != "" && (e in face || e in voice)
  {
    VotesDistinct([], face, FaceVote);
    VotesDistinct(Votes([], face, FaceVote), voice, VoiceVote);
    VotesKeys([], face, FaceVote, e);
    VotesKeys(Votes([], face, FaceVote), voice, VoiceVote, e);
    if e != "" {
      VotesGet([], face, FaceVote, e);
      VotesGet(Votes([], face, FaceVote), voice, VoiceVote, e);
    }
  }

  /** The distinct non-empty labels of `labels` not already in `ks`, appended to `ks`
      in the order of their first appearance. */
  function NewKeys(ks: seq<string>, labels: seq<string>): seq<string>
  {
    if |labels| == 0 then ks
    else
      var before := NewKeys(ks, labels[..|labels| - 1]);
      var e := labels[|labels| - 1];
      if e != "" && e !in before then before + [e] else before
  }

  /** Counting appends each new label's key at the end: the keys of the counts are the
      labels in order of first appearance. */
  lemma {:induction false} VotesKeysInOrder(d: seq<Entry>, labels: seq<string>, w: real)
    ensures Keys(Votes(d, labels, w)) == NewKeys(Keys(d), labels)
  {
    if |labels| > 0 {
      var init := labels[..|labels| - 1];
      var e := labels[|labels| - 1];
      VotesKeysInOrder(d, init, w);
      var before := Votes(d, init, w);
      if e != "" {
        var r := AddTo(before, e, w);
        HasKeyIffInKeys(before, e);
        if HasKey(before, e) {
          assert Keys(r) == Keys(before);
        } else {
          assert Keys(r) == Keys(before) + [e];
        }
      }
    }
  }

  lemma {:induction false} NewKeysPrefix(ks: seq<string>, labels: seq<string>)
    ensures ks <= NewKeys(ks, labels)
  {
    if |labels| > 0 {
      NewKeysPrefix(ks, labels[..|labels| - 1]);
    }
  }

  lemma {:induction false} NewKeysAppend(ks: seq<string>, a: seq<string>, b: seq<string>)
    ensures NewKeys(ks, a + b) == NewKeys(NewKeys(ks, a), b)
  {
    if |b| == 0 {
      assert a + b == a;
    } else {
      assert (a + b)[..|a + b| - 1] == a + b[..|b| - 1];
      NewKeysAppend(ks, a, b[..|b| - 1]);
    }
  }

  lemma {:induction false} NewKeysMembers(ks: seq<string>, labels: seq<string>, e: string)
    ensures e in NewKeys(ks, labels) <==> e in ks || (e != "" && e in labels)
  {
    if |labels| > 0 {
      var init := labels[..|labels| - 1];
      NewKeysMembers(ks, init, e);
      ButLastLast(labels);
      assert e in labels <==> e in init || e == labels[|labels| - 1];
    }
  }

  /** The counts' keys are the labels of the face window, then the voice window, in
      order of first appearance. */
  lemma CountsKeysInOrder(f: seq<string>, v: seq<string>)
    ensures Keys(Counts(f, v)) == NewKeys([], f + v)
  {
    VotesKeysInOrder([], f, FaceVote);
    VotesKeysInOrder(Votes([], f, FaceVote), v, VoiceVote);
    assert Keys([]) == [];
    NewKeysAppend([], f, v);
  }

  /** In the first-appearance order of `s`, a label seen before the first occurrence of
      the label at position `i` has an earlier position. */
  lemma NewKeysBefore(s: seq<string>, k: nat, i: nat) returns (j: nat)
    requires i < |NewKeys([], s)| && k < |s|
    requires s[k] != "" && s[k] != NewKeys([], s)[i] && NewKeys([], s)[i] !in s[..k]
    ensures j < i && NewKeys([], s)[j] == s[k]
  {
    var ks := NewKeys([], s);
    var e, top := s[k], ks[i];
    var pre := s[..k + 1];
    assert s == pre + s[k + 1..];
    NewKeysAppend([], pre, s[k + 1..]);
    var p := NewKeys([], pre);
    NewKeysPrefix(p, s[k + 1..]);
    NewKeysMembers([], pre, e);
    assert pre[k] == e;
    NewKeysMembers([], pre, top);
    assert pre == s[..k] + [e];
    j :| 0 <= j < |p| && p[j] == e;
  }

  /** A label that occurs in `f + v` before the first occurrence of the label counted at
      position `i` is counted at an earlier position. */
  lemma CountedBefore(f: seq<string>, v: seq<string>, k: nat, i: nat) returns (j: nat)
    requires i < |Counts(f, v)| && k < |f + v|
    requires (f + v)[k] != "" && (f + v)[k] != Counts(f, v)[i].key
    requires Counts(f, v)[i].key !in (f + v)[..k]
    ensures j < i && Counts(f, v)[j].key == (f + v)[k]
  {
    CountsKeysInOrder(f, v);
    var ks := Keys(Counts(f, v));
    assert ks[i] == Counts(f, v)[i].key;
    j := NewKeysBefore(f + v, k, i);
    assert ks[j] == Counts(f, v)[j].key;
  }

  /** Among the labels with the highest tally, the dominant one comes first in `f + v`:
      every label seen before its first occurrence has a strictly lower tally. */
  lemma DominantBeatsEarlierLabels(f: seq<string>, v: seq<string>, i: nat)
    requires i < |Counts(f, v)| && i == ArgMax(Counts(f, v))
    ensures var top := Counts(f, v)[i].key;
            forall k :: 0 <= k < |f + v| && (f + v)[k] != "" && (f + v)[k] != top && top !in (f + v)[..k]
                    ==> Tally(f, v, (f + v)[k]) < Tally(f, v, top)
  {
    var counts := Counts(f, v);
    var top := counts[i].key;
    CountsTally(f, v, top);
    assert HasKey(counts, top);
    GetDistinct(counts, i);
    forall k | 0 <= k < |f + v| && (f + v)[k] != "" && (f + v)[k] != top && top !in (f + v)[..k]
      ensures Tally(f, v, (f + v)[k]) < Tally(f, v, top)
    {
      var j := CountedBefore(f, v, k, i);
      CountsTally(f, v, (f + v)[k]);
      GetDistinct(counts, j);
    }
  }

  /** The dominant emotion is a label with the highest weighted tally, and the first such
      label to be counted (the face window before the voice window); there is none exactly
      when the windows hold no non-empty label. */
  lemma DominantIsMostVoted(face: seq<string>, voice: seq<string>)
    requires face != [] || voice != []
    ensures var s := EmotionalStateOf(face, voice);
            var f, v := Recent(face), Recent(voice);
            && (s.dominant.None? <==> forall e :: e != "" ==> e !in f && e !in v)
            && (s.dominant.Some? ==>
                  s.dominant.value != "" && (s.dominant.value in f || s.dominant.value in v)
                  && (forall e :: e != "" ==> Tally(f, v, e) <= Tally(f, v, s.dominant.value))
                  && forall k :: 0 <= k < |f + v| && (f + v)[k] != "" && (f + v)[k] != s.dominant.value
                                 && s.dominant.value !in (f + v)[..k]
                                 ==> Tally(f, v, (f + v)[k]) < Tally(f, v, s.dominant.value))
  {
    var f, v := Recent(face), Recent(voice);
    var counts := Counts(f, v);
    var s := EmotionalStateOf(face, voice);
    if counts == [] {
      forall e | e != ""
        ensures e !in f && e !in v
      {
        CountsTally(f, v, e);
      }
    } else {
      var i := ArgMax(counts);
      var top := counts[i].key;
      CountsTally(f, v, top);
      assert HasKey(counts, top);
      GetDistinct(counts, i);
      forall e | e != ""
        ensures Tally(f, v, e) <= Tally(f, v, top)
      {
        CountsTally(f, v, e);
        if HasKey(counts, e) {
          var j :| 0 <= j < |counts| && counts[j].key == e;
          GetDistinct(counts, j);
        } else {
          assert e !in f && e !in v;
          OccurrencesAbsent(f, e);
          OccurrencesAbsent(v, e);
        }
      }
      var e := top;
      assert e != "" && (e in f || e in v);
      DominantBeatsEarlierLabels(f, v, i);
    }
  }

  lemma {:induction false} OccurrencesAbsent(labels: seq<string>, e: string)
    requires e !in labels
    ensures Occurrences(labels, e) == 0
  {
    if |labels| > 0 {
      assert labels[..|labels| - 1] <= labels;
      OccurrencesAbsent(labels[..|labels| - 1], e);
    }
  }

  lemma {:induction false} WeightedSumsBounded(labels: seq<string>, w: real)
    requires w >= 0.0
    ensures Mass(labels, w) >= 0.0
    ensures -0.8 * Mass(labels, w) <= ValenceSum(labels, w) <= 0.9 * Mass(labels, w)
    ensures -0.4 * Mass(labels, w) <= ArousalSum(labels, w) <= 0.9 * Mass(labels, w)
  {
    if |labels| > 0 {
      WeightedSumsBounded(labels[..|labels| - 1], w);
      var x := WeightOf(labels[|labels| - 1]);
      if x.Some? {
        assert -0.8 * w <= x.value.valence * w <= 0.9 * w;
        assert -0.4 * w <= x.value.arousal * w <= 0.9 * w;
      }
    }
  }

  lemma DivideBounded(s: real, m: real, lo: real, hi: real)
    requires m > 0.0 && lo * m <= s <= hi * m
    ensures lo <= s / m <= hi
  {
  }

  /** Valence and arousal are weighted means of table values, so they stay within the
      table's range: valence in [-0.8, 0.9], arousal in [-0.4, 0.9]. */
  lemma MeansBounded(f: seq<string>, v: seq<string>)
    ensures -0.8 <= Valence(f, v) <= 0.9
    ensures -0.4 <= Arousal(f, v) <= 0.9
  {
    WeightedSumsBounded(f, FaceVote);
    WeightedSumsBounded(v, VoiceVote);
    var mass := Mass(f, FaceVote) + Mass(v, VoiceVote);
    if mass > 0.0 {
      DivideBounded(ValenceSum(f, FaceVote) + ValenceSum(v, VoiceVote), mass, -0.8, 0.9);
      DivideBounded(ArousalSum(f, FaceVote) + ArousalSum(v, VoiceVote), mass, -0.4, 0.9);
    }
  }

  /** The estimate for any session: the neutral answer with empty histories, and
      valence and arousal within the table's range (so within [-1, 1]). */
  lemma EmotionalStateBounded(face: seq<string>, voice: seq<string>)
    ensures face == [] && voice == [] ==> EmotionalStateOf(face, voice) == NoEmotionalState
    ensures -0.8 <= EmotionalStateOf(face, voice).valence <= 0.9
    ensures -0.4 <= EmotionalStateOf(face, voice).arousal <= 0.9
  {
    MeansBounded(Recent(face), Recent(voice));
  }

  lemma RecentSuffix(older: seq<string>, s: seq<string>)
    requires |s| >= HistoryWindow
    ensures Recent(older + s) == Recent(s)
  {
    assert (older + s)[|older + s| - HistoryWindow..] == s[|s| - HistoryWindow..];
  }

  /** Entries older than the last ten of the face history play no part. */
  lemma OlderEntriesIgnored(older: seq<string>, face: seq<string>, voice: seq<string>)
    requires |face| >= HistoryWindow
    ensures EmotionalStateOf(older + face, voice) == EmotionalStateOf(face, voice)
  {
    RecentSuffix(older, face);
  }

  // ---------------------------------------------------------------- _generate_emotion_followups

  const SadFaceFollowup: Followup := Intent.Followup("medium", "emotion_exploration",
    "I notice you seem sad. Would you like to talk about what's troubling you?")
  const FearFaceFollowup: Followup := Intent.Followup("medium", "emotion_exploration",
    "You appear anxious. Is there something specific that's causing you to feel afraid?")
  const AngerFaceFollowup: Followup := Intent.Followup("medium", "emotion_exploration",
    "You seem frustrated. Can you tell me what's making you feel this way?")
  const SurpriseFaceFollowup: Followup := Intent.Followup("low", "emotion_exploration",
    "You look surprised. Did something I said catch you off guard?")

  /** The face rules: sadness, fear and anger above 0.7 ask a medium question, surprise a low one. */
  function FaceFollowups(emotion: string, confidence: real): (r: seq<Followup>)
    ensures |r| <= 1
    ensures r != [] <==> confidence > 0.7 && IsFaceCue(emotion)
    ensures forall i :: 0 <= i < |r| ==> r[i].kind == "emotion_exploration"
    ensures forall i :: 0 <= i < |r| ==> r[i].priority == "medium" || r[i] == SurpriseFaceFollowup
  {
    if confidence <= 0.7 then []
    else if emotion == "sadness" then [SadFaceFollowup]
    else if emotion == "fear" then [FearFaceFollowup]
    else if emotion == "anger" then [AngerFaceFollowup]
    else if emotion == "surprise" then [SurpriseFaceFollowup]
    else []
  }

  /** The voice rules: sadness or anger above 0.7, quoting the transcript when there is one. */
  function VoiceFollowups(emotion: string, confidence: real, transcript: string): (r: seq<Followup>)
    ensures |r| <= 1
    ensures r != [] <==> confidence > 0.7 && IsVoiceCue(emotion)
    ensures forall i :: 0 <= i < |r| ==> r[i].kind == "voice_emotion_exploration" && r[i].priority == "medium"
  {
    if confidence > 0.7 && IsVoiceCue(emotion) then
      [Intent.Followup("medium", "voice_emotion_exploration", VoiceQuestion(emotion, transcript))]
    else []
  }

  /** The question a sad or angry voice asks, quoting the transcript when there is one. */
  function VoiceQuestion(emotion: string, transcript: string): string
  {
    if emotion == "sadness" then
      if transcript != "" then
        "When you said \"" + transcript + "\", you sounded sad. Would you like to talk more about that?"
      else
        "I notice from your tone of voice that you might be feeling down. Would you like to talk about that?"
    else if transcript != "" then
      "I sense some frustration when you said \"" + transcript + "\". What specifically is bothering you?"
    else
      "Your voice suggests you might be frustrated or upset. Is there something specific bothering you?"
  }

  /** The face emotions with a follow-up rule. */
  predicate IsFaceCue(e: string)
  {
    e == "sadness" || e == "fear" || e == "anger" || e == "surprise"
  }

  /** The voice emotions with a follow-up rule. */
  predicate IsVoiceCue(e: string)
  {
    e == "sadness" || e == "anger"
  }

  predicate HasKind(r: seq<Followup>, k: string)
  {
    exists i :: 0 <= i < |r| && r[i].kind == k
  }

  lemma HasKindAppend(a: seq<Followup>, b: seq<Followup>, k: string)
    ensures HasKind(a + b, k) <==> HasKind(a, k) || HasKind(b, k)
  {
    if HasKind(b, k) {
      var i :| 0 <= i < |b| && b[i].kind == k;
      assert (a + b)[|a| + i] == b[i];
    }
    if HasKind(a, k) {
      var i :| 0 <= i < |a| && a[i].kind == k;
      assert (a + b)[i] == a[i];
    }
    if HasKind(a + b, k) {
      var i :| 0 <= i < |a + b| && (a + b)[i].kind == k;
      if i >= |a| {
        assert b[i - |a|].kind == k;
        assert HasKind(b, k);
      } else {
        assert a[i].kind == k;
        assert HasKind(a, k);
      }
    }
  }

  predicate FaceSeen(face: Option<FaceEmotion.FaceResult>)
  {
    face.Some? && face.value.Detected?
  }

  predicate VoiceHeard(voice: Option<Voice.VoiceResult>)
  {
    voice.Some? && voice.value.VoiceAnalysis?
  }

  /** `_generate_emotion_followups`. A face emotion under 0.6 ends the search with no
      question at all, before the voice is looked at; the voice's own 0.65 gate lets
      nothing through that its 0.7 rules would not. */
  function EmotionFollowups(face: Option<FaceEmotion.FaceResult>, voice: Option<Voice.VoiceResult>): seq<Followup>
  {
    if FaceSeen(face) && face.value.confidence < 0.6 then []
    else
      var fromFace := if FaceSeen(face) then FaceFollowups(face.value.emotion, face.value.confidence) else [];
      if VoiceHeard(voice) && voice.value.confidence >= 0.65 then
        fromFace + VoiceFollowups(voice.value.emotion, voice.value.confidence, voice.value.transcribedText)
      else fromFace
  }

  /** A low face confidence suppresses every emotion question; otherwise the face and
      voice questions appear exactly under their own rules, at most one of each. */
  lemma EmotionFollowupsShape(face: Option<FaceEmotion.FaceResult>, voice: Option<Voice.VoiceResult>)
    ensures var r := EmotionFollowups(face, voice);
      && (FaceSeen(face) && face.value.confidence < 0.6 ==> r == [])
      && |r| <= 2
      && (forall i :: 0 <= i < |r| ==> r[i].priority == "medium" || r[i] == SurpriseFaceFollowup)
      && (HasKind(r, "emotion_exploration") <==>
            FaceSeen(face) && face.value.confidence > 0.7 && IsFaceCue(face.value.emotion))
      && (HasKind(r, "voice_emotion_exploration") <==>
            !(FaceSeen(face) && face.value.confidence < 0.6)
            && VoiceHeard(voice) && voice.value.confidence > 0.7 && IsVoiceCue(voice.value.emotion))
  {
    if !(FaceSeen(face) && face.value.confidence < 0.6) {
      var fromFace := if FaceSeen(face) then FaceFollowups(face.value.emotion, face.value.confidence) else [];
      var fromVoice := if VoiceHeard(voice) && voice.value.confidence >= 0.65
                       then VoiceFollowups(voice.value.emotion, voice.value.confidence, voice.value.transcribedText)
                       else [];
      assert EmotionFollowups(face, voice) == fromFace + fromVoice;
      FollowupPair(fromFace, fromVoice);
    }
  }

  /** At most one face question followed by at most one voice question. */
  lemma FollowupPair(a: seq<Followup>, b: seq<Followup>)
    requires |a| <= 1 && |b| <= 1
    requires forall i :: 0 <= i < |a| ==> a[i].kind == "emotion_exploration"
    requires forall i :: 0 <= i < |a| ==> a[i].priority == "medium" || a[i] == SurpriseFaceFollowup
    requires forall i :: 0 <= i < |b| ==> b[i].kind == "voice_emotion_exploration" && b[i].priority == "medium"
    ensures |a + b| <= 2
    ensures forall i :: 0 <= i < |a + b| ==> (a + b)[i].priority == "medium" || (a + b)[i] == SurpriseFaceFollowup
    ensures HasKind(a + b, "emotion_exploration") <==> a != []
    ensures HasKind(a + b, "voice_emotion_exploration") <==> b != []
  {
    assert !HasKind(a, "voice_emotion_exploration");
    assert a != [] ==> a[0].kind == "emotion_exploration";
    assert !HasKind(b, "emotion_exploration");
    assert b != [] ==> b[0].kind == "voice_emotion_exploration";
    HasKindAppend(a, b, "emotion_exploration");
    HasKindAppend(a, b, "voice_emotion_exploration");
    assert forall i :: |a| <= i < |a + b| ==> (a + b)[i] == b[i - |a|];
  }

  // ---------------------------------------------------------------- _integrate_analyses

  /** The follow-ups of `fs` with priority `p` whose type is not in `excluded`, in order. */
  function Pick(fs: seq<Followup>, p: string, excluded: seq<string>): seq<Followup>
  {
    if |fs| == 0 then []
    else (if fs[0].priority == p && fs[0].kind !in excluded then [fs[0]] else []) + Pick(fs[1..], p, excluded)
  }

  /** `Pick` keeps exactly the follow-ups of priority `p` whose type is not excluded. */
  lemma {:induction false} PickMembers(fs: seq<Followup>, p: string, excluded: seq<string>)
    ensures forall f :: f in Pick(fs, p, excluded) <==> f in fs && f.priority == p && f.kind !in excluded
    ensures forall i :: 0 <= i < |Pick(fs, p, excluded)| ==> Pick(fs, p, excluded)[i].priority == p
  {
    if |fs| > 0 {
      PickMembers(fs[1..], p, excluded);
      assert forall f :: f in fs <==> f == fs[0] || f in fs[1..];
    }
  }

  function Kinds(fs: seq<Followup>): seq<string>
  {
    if |fs| == 0 then [] else [fs[0].kind] + Kinds(fs[1..])
  }

  /** `Kinds` lists the type of every follow-up and nothing else. */
  lemma {:induction false} KindsMembers(fs: seq<Followup>)
    ensures forall k :: k in Kinds(fs) <==> exists f :: f in fs && f.kind == k
  {
    if |fs| > 0 {
      KindsMembers(fs[1..]);
      assert forall f :: f in fs <==> f == fs[0] || f in fs[1..];
    }
  }

  /** The merged follow-ups: the high text ones, then the medium ones (text first)
      of a type no high one has, then the low ones of a type neither has. */
  function MergeFollowups(text: seq<Followup>, emotion: seq<Followup>): seq<Followup>
  {
    var high := Pick(text, "high", []);
    var medium := Pick(text + emotion, "medium", Kinds(high));
    var low := Pick(text + emotion, "low", Kinds(high + medium));
    high + medium + low
  }

  function Rank(f: Followup): nat
  {
    if f.priority == "high" then 0 else if f.priority == "medium" then 1 else 2
  }

  /** What survives the merge: a high emotion follow-up is dropped, every high text one
      kept, and a medium or low one kept exactly when no higher kept follow-up has its
      type; nothing of another priority survives. */
  lemma MergeMembership(text: seq<Followup>, emotion: seq<Followup>)
    ensures var r := MergeFollowups(text, emotion);
            && (forall f: Followup :: f.priority == "high" ==> (f in r <==> f in text))
            && (forall f: Followup :: f.priority == "medium" ==>
                  (f in r <==> (f in text || f in emotion)
                               && forall g :: g in r && g.priority == "high" ==> g.kind != f.kind))
            && (forall f: Followup :: f.priority == "low" ==>
                  (f in r <==> (f in text || f in emotion)
                               && forall g :: g in r && g.priority != "low" ==> g.kind != f.kind))
            && (forall f :: f in r ==> f.priority == "high" || f.priority == "medium" || f.priority == "low")
  {
    var high := Pick(text, "high", []);
    var medium := Pick(text + emotion, "medium", Kinds(high));
    var low := Pick(text + emotion, "low", Kinds(high + medium));
    PickMembers(text, "high", []);
    PickMembers(text + emotion, "medium", Kinds(high));
    PickMembers(text + emotion, "low", Kinds(high + medium));
    KindsMembers(high);
    KindsMembers(high + medium);
    var r := high + medium + low;
    assert forall f :: f in r <==> f in high || f in medium || f in low;
    assert forall f :: f in text + emotion <==> f in text || f in emotion;
    assert forall f :: f in high + medium <==> f in high || f in medium;
    assert forall g: Followup :: g in r && g.priority == "high" <==> g in high;
    assert forall g: Followup :: g in r && g.priority != "low" <==> g in high + medium;
  }

  /** The merged list runs high, then medium, then low. */
  lemma MergeOrder(text: seq<Followup>, emotion: seq<Followup>)
    ensures var r := MergeFollowups(text, emotion);
            forall i, j :: 0 <= i < j < |r| ==> Rank(r[i]) <= Rank(r[j])
  {
    var high := Pick(text, "high", []);
    var medium := Pick(text + emotion, "medium", Kinds(high));
    var low := Pick(text + emotion, "low", Kinds(high + medium));
    PickMembers(text, "high", []);
    PickMembers(text + emotion, "medium", Kinds(high));
    PickMembers(text + emotion, "low", Kinds(high + medium));
    RanksAscend(high, medium, low);
  }

  /** Three runs of one rank each, in rising rank, make a list ordered by rank. */
  lemma RanksAscend(high: seq<Followup>, medium: seq<Followup>, low: seq<Followup>)
    requires forall i :: 0 <= i < |high| ==> Rank(high[i]) == 0
    requires forall i :: 0 <= i < |medium| ==> Rank(medium[i]) == 1
    requires forall i :: 0 <= i < |low| ==> Rank(low[i]) == 2
    ensures var r := high + medium + low;
            forall i, j :: 0 <= i < j < |r| ==> Rank(r[i]) <= Rank(r[j])
  {
    var r := high + medium + low;
    forall i | 0 <= i < |r|
      ensures Rank(r[i]) == if i < |high| then 0 else if i < |high| + |medium| then 1 else 2
    {
      if i < |high| {
        assert r[i] == high[i];
      } else if i < |high| + |medium| {
        assert r[i] == medium[i - |high|];
      } else {
        assert r[i] == low[i - |high| - |medium|];
      }
    }
  }

  lemma {:induction false} PickAppend(a: seq<Followup>, b: seq<Followup>, p: string, excluded: seq<string>)
    ensures Pick(a + b, p, excluded) == Pick(a, p, excluded) + Pick(b, p, excluded)
  {
    if |a| == 0 {
      assert a + b == b;
    } else {
      assert (a + b)[1..] == a[1..] + b;
      PickAppend(a[1..], b, p, excluded);
    }
  }

  /** `Pick` leaves follow-ups out but never reorders or repeats them. */
  lemma {:induction false} PickSubsequence(fs: seq<Followup>, p: string, excluded: seq<string>)
    ensures Subsequence(Pick(fs, p, excluded), fs)
  {
    if |fs| == 0 {
      SubsequenceEmpty(fs);
    } else {
      PickSubsequence(fs[1..], p, excluded);
      var keep := fs[0].priority == p && fs[0].kind !in excluded;
      SubsequenceMaybe(keep, fs[0], Pick(fs[1..], p, excluded), fs[1..]);
      assert Pick(fs, p, excluded) == (if keep then [fs[0]] else []) + Pick(fs[1..], p, excluded);
      assert [fs[0]] + fs[1..] == fs;
    }
  }

  /** Picking a priority from a list that has only that priority keeps it whole. */
  lemma {:induction false} PickAll(fs: seq<Followup>, p: string)
    requires forall i :: 0 <= i < |fs| ==> fs[i].priority == p
    ensures Pick(fs, p, []) == fs
  {
    if |fs| > 0 {
      PickAll(fs[1..], p);
    }
  }

  /** Picking a priority from a list without it gives nothing. */
  lemma {:induction false} PickNone(fs: seq<Followup>, p: string)
    requires forall i :: 0 <= i < |fs| ==> fs[i].priority != p
    ensures Pick(fs, p, []) == []
  {
    if |fs| > 0 {
      PickNone(fs[1..], p);
    }
  }

  /** The follow-ups of one priority in `high + medium + low` are the run of that priority. */
  lemma RunsOfMerge(high: seq<Followup>, medium: seq<Followup>, low: seq<Followup>)
    requires forall i :: 0 <= i < |high| ==> high[i].priority == "high"
    requires forall i :: 0 <= i < |medium| ==> medium[i].priority == "medium"
    requires forall i :: 0 <= i < |low| ==> low[i].priority == "low"
    ensures Pick(high + medium + low, "high", []) == high
    ensures Pick(high + medium + low, "medium", []) == medium
    ensures Pick(high + medium + low, "low", []) == low
  {
    PickAppend(high + medium, low, "high", []);
    PickAppend(high, medium, "high", []);
    PickAll(high, "high");
    PickNone(medium, "high");
    PickNone(low, "high");
    PickAppend(high + medium, low, "medium", []);
    PickAppend(high, medium, "medium", []);
    PickNone(high, "medium");
    PickAll(medium, "medium");
    PickNone(low, "medium");
    PickAppend(high + medium, low, "low", []);
    PickAppend(high, medium, "low", []);
    PickNone(high, "low");
    PickNone(medium, "low");
    PickAll(low, "low");
  }

  /** The merge keeps input order within each priority: the high follow-ups of the result
      are a subsequence of the text ones, and the medium and low ones a subsequence of the
      text ones followed by the emotion ones; the result is those three runs in turn. */
  lemma MergeKeepsOrder(text: seq<Followup>, emotion: seq<Followup>)
    ensures var r := MergeFollowups(text, emotion);
            && r == Pick(r, "high", []) + Pick(r, "medium", []) + Pick(r, "low", [])
            && Subsequence(Pick(r, "high", []), text)
            && Subsequence(Pick(r, "medium", []), text + emotion)
            && Subsequence(Pick(r, "low", []), text + emotion)
  {
    var high := Pick(text, "high", []);
    var medium := Pick(text + emotion, "medium", Kinds(high));
    var low := Pick(text + emotion, "low", Kinds(high + medium));
    PickMembers(text, "high", []);
    PickMembers(text + emotion, "medium", Kinds(high));
    PickMembers(text + emotion, "low", Kinds(high + medium));
    RunsOfMerge(high, medium, low);
    PickSubsequence(text, "high", []);
    PickSubsequence(text + emotion, "medium", Kinds(high));
    PickSubsequence(text + emotion, "low", Kinds(high + medium));
  }

  // ---------------------------------------------------------------- the analyzer object

  /** The `text_analysis` entry: none without a classifier, the classifier's analysis,
      or the stand-in built when the classifier raised. */
  datatype TextAnalysis =
    | NoTextAnalysis
    | Analyzed(analysis: Intent.Analysis)
    | TextFailed(text: string)

  const FallbackFollowup: Followup := Intent.Followup("low", "general_exploration",
    "Could you tell me more about how you've been feeling lately?")

  function TextFollowups(t: TextAnalysis): seq<Followup>
  {
    match t
    case NoTextAnalysis => []
    case Analyzed(a) => a.followups
    case TextFailed(_) => [FallbackFollowup]
  }

  datatype IntegratedAnalysis = IntegratedAnalysis(
    text: TextAnalysis, face: Option<FaceEmotion.FaceResult>, voice: Option<Voice.VoiceResult>,
    state: EmotionalState, relevance: Option<Intent.Relevance>, followups: seq<Followup>)

  function FaceLabel(r: FaceEmotion.FaceResult): string
  {
    if r.Detected? then r.emotion else ""
  }

  function VoiceLabel(r: Voice.VoiceResult): string
  {
    if r.VoiceAnalysis? then r.emotion else ""
  }
  /** The labels of a session history, as `entry.get('emotion')` reads them. */
  function FaceLabelsOf(h: seq<FaceEmotion.FaceResult>): (ls: seq<string>)
    ensures |ls| == |h| && forall i :: 0 <= i < |h| ==> ls[i] == FaceLabel(h[i])
  {
    seq(|h|, i requires 0 <= i < |h| => FaceLabel(h[i]))
  }

  function VoiceLabelsOf(h: seq<Voice.VoiceResult>): (ls: seq<string>)
    ensures |ls| == |h| && forall i :: 0 <= i < |h| ==> ls[i] == VoiceLabel(h[i])
  {
    seq(|h|, i requires 0 <= i < |h| => VoiceLabel(h[i]))
  }


  /** The record `_integrate_analyses` returns for the given analyses and session
      histories: the emotional state of the histories, the text's clinical relevance and
      the merged follow-ups. */
  function Integrate(text: TextAnalysis, face: Option<FaceEmotion.FaceResult>, voice: Option<Voice.VoiceResult>,
                     faceHistory: seq<FaceEmotion.FaceResult>, voiceHistory: seq<Voice.VoiceResult>): IntegratedAnalysis
  {
    IntegratedAnalysis(text, face, voice,
      EmotionalStateOf(FaceLabelsOf(faceHistory), VoiceLabelsOf(voiceHistory)),
      if text.Analyzed? then Some(text.analysis.relevance) else None,
      MergeFollowups(TextFollowups(text), EmotionFollowups(face, voice)))
  }

  class MultimodalAnalyzer {
    const emotionAnalyzer: Option<FaceEmotion.EmotionAnalyzer>
    var sessionEmotions: seq<FaceEmotion.FaceResult>
    var sessionVoiceEmotions: seq<Voice.VoiceResult>
    var sessionIntents: seq<Intent.Analysis>

    ghost predicate Valid()
      reads this, if emotionAnalyzer.Some? then {emotionAnalyzer.value} else {}
    {
      emotionAnalyzer.Some? ==> emotionAnalyzer.value.Valid()
    }

    constructor (emotionAnalyzer: Option<FaceEmotion.EmotionAnalyzer>)
      requires emotionAnalyzer.Some? ==> emotionAnalyzer.value.Valid()
      ensures Valid() && this.emotionAnalyzer == emotionAnalyzer
      ensures sessionEmotions == [] && sessionVoiceEmotions == [] && sessionIntents == []
    {
      this.emotionAnalyzer := emotionAnalyzer;
      sessionEmotions := [];
      sessionVoiceEmotions := [];
      sessionIntents := [];
    }

    /** `_integrate_analyses` over the current session. */
    method IntegrateAnalyses(text: TextAnalysis, face: Option<FaceEmotion.FaceResult>,
                             voice: Option<Voice.VoiceResult>) returns (r: IntegratedAnalysis)
      ensures r.face == face
      ensures r == Integrate(text, face, voice, sessionEmotions, sessionVoiceEmotions)
    {
      var state := EstimateEmotionalState(FaceLabelsOf(sessionEmotions), VoiceLabelsOf(sessionVoiceEmotions));
      var relevance := if text.Analyzed? then Some(text.analysis.relevance) else None;
      var followups := MergeFollowups(TextFollowups(text), EmotionFollowups(face, voice));
      r := IntegratedAnalysis(text, face, voice, state, relevance, followups);
    }

    /** The face step of `analyze_response`: the frame goes into the analyzer's window,
        and once the window is full its answer is taken and, when it names an emotion,
        recorded in the session. */
    method ObserveFace(faceImage: Option<Option<FaceEmotion.Frame>>, now: real) returns (face: Option<FaceEmotion.FaceResult>)
      requires Valid()
      modifies this`sessionEmotions, if emotionAnalyzer.Some? then {emotionAnalyzer.value} else {}
      ensures Valid()
      ensures emotionAnalyzer.None? || faceImage.None? ==> face == None && sessionEmotions == old(sessionEmotions)
      ensures face.Some? ==> emotionAnalyzer.Some? && faceImage.Some?
                             && face.value == emotionAnalyzer.value.GetEmotion(now)
                             && |emotionAnalyzer.value.frameBuffer| >= FaceEmotion.WindowSize
      ensures sessionEmotions == old(sessionEmotions)
                                 + (if face.Some? && face.value.Detected? then [face.value] else [])
    {
      face := None;
      if emotionAnalyzer.Some? && faceImage.Some? {
        var analyzer := emotionAnalyzer.value;
        analyzer.AddFrame(faceImage.value);
        if |analyzer.frameBuffer| >= FaceEmotion.WindowSize {
          var result := analyzer.GetEmotion(now);
          face := Some(result);
          if result.Detected? {
            sessionEmotions := sessionEmotions + [result];
          }
        }
      }
    }

    /** The voice step of `analyze_response`: an analysis that names an emotion is recorded. */
    method HearVoice(voice: Option<Voice.VoiceResult>)
      modifies this`sessionVoiceEmotions
      ensures sessionVoiceEmotions == old(sessionVoiceEmotions) + (if VoiceHeard(voice) then [voice.value] else [])
    {
      if VoiceHeard(voice) {
        sessionVoiceEmotions := sessionVoiceEmotions + [voice.value];
      }
    }

    /** `analyze_response`. `text` is what the intent classifier produced (or
        `NoTextAnalysis` without one), `faceImage` is `None` when no image was given and
        otherwise the preprocessing result of the image, and `voice` is the voice
        analyzer's answer when it ran on a given file. */
    method AnalyzeResponse(text: TextAnalysis, faceImage: Option<Option<FaceEmotion.Frame>>, now: real,
                           voice: Option<Voice.VoiceResult>) returns (r: IntegratedAnalysis)
      requires Valid()
      modifies this, if emotionAnalyzer.Some? then {emotionAnalyzer.value} else {}
      ensures Valid()
      ensures sessionIntents == old(sessionIntents) + (if text.Analyzed? then [text.analysis] else [])
      ensures emotionAnalyzer.None? || faceImage.None? ==> r.face == None && sessionEmotions == old(sessionEmotions)
      ensures r.face.Some? ==> emotionAnalyzer.Some? && faceImage.Some?
                               && r.face.value == emotionAnalyzer.value.GetEmotion(now)
                               && |emotionAnalyzer.value.frameBuffer| >= FaceEmotion.WindowSize
      ensures sessionEmotions == old(sessionEmotions)
                                 + (if r.face.Some? && r.face.value.Detected? then [r.face.value] else [])
      ensures sessionVoiceEmotions == old(sessionVoiceEmotions)
                                      + (if VoiceHeard(voice) then [voice.value] else [])
      ensures r == Integrate(text, r.face, voice, sessionEmotions, sessionVoiceEmotions)
    {
      if text.Analyzed? {
        sessionIntents := sessionIntents + [text.analysis];
      }
      var face := ObserveFace(faceImage, now);
      assert sessionVoiceEmotions == old(sessionVoiceEmotions);
      ghost var emotions, intents := sessionEmotions, sessionIntents;
      HearVoice(voice);
      assert sessionEmotions == emotions && sessionIntents == intents;
      r := IntegrateAnalyses(text, face, voice);
    }

    /** `reset_session`: all three histories emptied and the face window cleared. */
    method ResetSession()
      requires Valid()
      modifies this, if emotionAnalyzer.Some? then {emotionAnalyzer.value} else {}
      ensures Valid()
      ensures sessionEmotions == [] && sessionVoiceEmotions == [] && sessionIntents == []
      ensures emotionAnalyzer.Some? ==> emotionAnalyzer.value.frameBuffer == []
      ensures EmotionalStateOf(FaceLabelsOf(sessionEmotions), VoiceLabelsOf(sessionVoiceEmotions)) == NoEmotionalState
    {
      sessionEmotions := [];
      sessionVoiceEmotions := [];
      sessionIntents := [];
      if emotionAnalyzer.Some? {
        emotionAnalyzer.value.Reset();
      }
    }
  }
}
