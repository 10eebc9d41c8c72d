/** The rule-based part of the intent classifier: text normalisation, the
    threshold/sort/top-five filter over the classifier's probabilities, the
    suicide-risk phrase check, clinical relevance scoring, follow-up rules and
    the bookkeeping of known intents during training. The TF-IDF vectorizer,
    the one-vs-rest classifier and the regex entity extractor are inputs. */
module Intent {
  import opened Text
  import opened Dicts

  // ---------------------------------------------------------------- _preprocess_text

  /** The 32 characters of `string.punctuation`. */
  predicate IsPunctuation(c: char)
  {
    ('!' <= c <= '/') || (':' <= c <= '@') || ('[' <= c <= '`') || ('{' <= c <= '~')
  }

  /** `text.translate(str.maketrans('', '', string.punctuation))` */
  function RemovePunctuation(s: string): (r: string)
    ensures forall i :: 0 <= i < |r| ==> !IsPunctuation(r[i]) && r[i] in s
    ensures (forall i :: 0 <= i < |s| ==> !IsPunctuation(s[i])) ==> r == s
  {
    if |s| == 0 then []
    else (if IsPunctuation(s[0]) then [] else [s[0]]) + RemovePunctuation(s[1..])
  }

  /** Every whitespace character is a single blank standing alone. */
  predicate Collapsed(s: string)
  {
    && (forall i :: 0 <= i < |s| && IsSpace(s[i]) ==> s[i] == ' ')
    && (forall i, j :: 0 <= i < |s| && 0 <= j < |s| && j == i + 1 ==> !IsSpace(s[i]) || !IsSpace(s[j]))
  }

  /** No upper-case letter and no punctuation. */
  predicate Plain(s: string)
  {
    forall i :: 0 <= i < |s| ==> !IsUpper(s[i]) && !IsPunctuation(s[i])
  }

  lemma CollapsedCons(c: char, t: string)
    requires Collapsed(t)
    requires IsSpace(c) ==> c == ' ' && (t == [] || !IsSpace(t[0]))
    ensures Collapsed([c] + t)
  {
    var u := [c] + t;
    forall i | 0 <= i < |u| && IsSpace(u[i])
      ensures u[i] == ' ' && (i + 1 < |u| ==> !IsSpace(u[i + 1]))
    {
      if i > 0 {
        assert u[i] == t[i - 1];
        if i + 1 < |u| { assert u[i + 1] == t[i]; }
      }
    }
  }

  lemma PlainCons(c: char, t: string)
    requires Plain(t) && !IsUpper(c) && !IsPunctuation(c)
    ensures Plain([c] + t)
  {
    assert forall i :: 1 <= i < |t| + 1 ==> ([c] + t)[i] == t[i - 1];
  }

  /** `re.sub(r'\s+', ' ', text)`: each maximal run of whitespace becomes one blank. */
  function CollapseSpaces(s: string): (r: string)
    ensures Collapsed(r)
    ensures Plain(s) ==> Plain(r)
    ensures |s| > 0 && !IsSpace(s[0]) ==> |r| > 0 && r[0] == s[0]
    ensures |s| > 0 ==> |r| > 0
    decreases |s|
  {
    if |s| == 0 then []
    else if IsSpace(s[0]) then
      var rest := TrimStart(s);
      assert |rest| < |s|;
      var t := CollapseSpaces(rest);
      CollapsedCons(' ', t);
      assert Plain(s) ==> Plain(rest) by {
        if Plain(s) {
          forall i | 0 <= i < |rest| ensures !IsUpper(rest[i]) && !IsPunctuation(rest[i]) {
            assert rest[i] == s[|s| - |rest| + i];
          }
        }
      }
      if Plain(s) then PlainCons(' ', t); " " + t else " " + t
    else
      var t := CollapseSpaces(s[1..]);
      CollapsedCons(s[0], t);
      assert Plain(s) ==> Plain(s[1..]);
      if Plain(s) then PlainCons(s[0], t); [s[0]] + t else [s[0]] + t
  }

  /** A collapsed text passes through untouched. */
  lemma {:induction false} CollapseFixed(s: string)
    requires Collapsed(s)
    ensures CollapseSpaces(s) == s
    decreases |s|
  {
    if |s| > 0 {
      CollapsedInfix(s, 1, |s|);
      CollapseFixed(s[1..]);
      if IsSpace(s[0]) {
        TrimOneSpace(s);
        assert s == " " + s[1..];
      } else {
        assert s == [s[0]] + s[1..];
      }
    }
  }

  /** In a collapsed text a blank is never followed by another, so trimming the front
      of a text starting with one removes exactly that one. */
  lemma TrimOneSpace(s: string)
    requires Collapsed(s) && |s| > 0 && IsSpace(s[0])
    ensures s[0] == ' ' && TrimStart(s) == s[1..]
  {
    if |s| > 1 {
      assert !IsSpace(s[1]);
      assert TrimStart(s[1..]) == s[1..];
    }
  }

  /** What `_preprocess_text` guarantees of its output. */
  predicate Clean(s: string)
  {
    Plain(s) && Collapsed(s) && (s == [] || (!IsSpace(s[0]) && !IsSpace(s[|s| - 1])))
  }

  lemma CollapsedInfix(s: string, a: nat, b: nat)
    requires Collapsed(s) && a <= b <= |s|
    ensures Collapsed(s[a..b])
  {
    var t := s[a..b];
    forall i | 0 <= i < |t| && IsSpace(t[i])
      ensures t[i] == ' ' && (i + 1 < |t| ==> !IsSpace(t[i + 1]))
    {
      assert t[i] == s[a + i];
      if i + 1 < |t| { assert t[i + 1] == s[a + i + 1]; }
    }
  }

  lemma PlainInfix(s: string, a: nat, b: nat)
    requires Plain(s) && a <= b <= |s|
    ensures Plain(s[a..b])
  {
    assert forall i :: 0 <= i < b - a ==> s[a..b][i] == s[a + i];
  }

  /** Stripping a plain collapsed text leaves a clean one. */
  lemma StripClean(c: string)
    requires Plain(c) && Collapsed(c)
    ensures Clean(Strip(c))
  {
    var front := TrimStart(c);
    CollapsedInfix(c, |c| - |front|, |c|);
    PlainInfix(c, |c| - |front|, |c|);
    var r := TrimEnd(front);
    CollapsedInfix(front, 0, |r|);
    PlainInfix(front, 0, |r|);
  }

  lemma PlainLowered(s: string)
    ensures Plain(RemovePunctuation(Lower(s)))
  {
    var l := Lower(s);
    var b := RemovePunctuation(l);
    forall i | 0 <= i < |b| ensures !IsUpper(b[i]) && !IsPunctuation(b[i]) {
      var j :| 0 <= j < |l| && l[j] == b[i];
    }
  }

  /** `_preprocess_text`: lower-case, drop punctuation, collapse whitespace, strip. */
  function Preprocess(s: string): (r: string)
    ensures Clean(r)
  {
    PlainLowered(s);
    var collapsed := CollapseSpaces(RemovePunctuation(Lower(s)));
    StripClean(collapsed);
    Strip(collapsed)
  }

  /** A clean text passes through untouched. */
  lemma CleanIsFixed(s: string)
    requires Clean(s)
    ensures Preprocess(s) == s
  {
    LowerIsLower(s);
    assert RemovePunctuation(s) == s;
    CollapseFixed(s);
    StripUntouched(s);
  }

  /** Normalising twice is normalising once. */
  lemma PreprocessIdempotent(s: string)
    ensures Preprocess(Preprocess(s)) == Preprocess(s)
  {
    CleanIsFixed(Preprocess(s));
  }

  /** Punctuation removal works character by character: it distributes over `+` ... */
  lemma {:induction false} RemovePunctuationAppend(a: string, b: string)
    ensures RemovePunctuation(a + b) == RemovePunctuation(a) + RemovePunctuation(b)
  {
    if |a| == 0 {
      assert a + b == b;
    } else {
      assert (a + b)[1..] == a[1..] + b;
      RemovePunctuationAppend(a[1..], b);
    }
  }

  /** ... dropping a punctuation character and keeping any other. */
  lemma RemovePunctuationChar(c: char)
    ensures RemovePunctuation([c]) == if IsPunctuation(c) then [] else [c]
  {
    assert [c][1..] == [];
  }

  /** Collapsing whitespace keeps every other character, in order. */
  lemma {:induction false} CollapseKeepsWords(s: string)
    ensures NonSpace(CollapseSpaces(s)) == NonSpace(s)
    decreases |s|
  {
    if |s| > 0 {
      if IsSpace(s[0]) {
        var rest := TrimStart(s);
        assert |rest| < |s|;
        var t := CollapseSpaces(rest);
        CollapseKeepsWords(rest);
        NonSpaceTrimStart(s);
        assert (" " + t)[1..] == t;
      } else {
        var t := CollapseSpaces(s[1..]);
        CollapseKeepsWords(s[1..]);
        assert ([s[0]] + t)[1..] == t;
      }
    }
  }

  /** Normalising changes only case, punctuation and whitespace: the words of the lowered,
      punctuation-free text all survive, in order. */
  lemma PreprocessKeepsWords(s: string)
    ensures NonSpace(Preprocess(s)) == NonSpace(RemovePunctuation(Lower(s)))
  {
    var collapsed := CollapseSpaces(RemovePunctuation(Lower(s)));
    CollapseKeepsWords(RemovePunctuation(Lower(s)));
    NonSpaceStrip(collapsed);
  }

  /** A character other than whitespace is kept as it is. */
  lemma CollapseCons(c: char, x: string)
    requires !IsSpace(c)
    ensures CollapseSpaces([c] + x) == [c] + CollapseSpaces(x)
  {
    assert ([c] + x)[1..] == x;
  }

  /** Leading whitespace becomes one blank. */
  lemma CollapseSpaceStart(x: string)
    requires |x| > 0 && IsSpace(x[0])
    ensures CollapseSpaces(x) == " " + CollapseSpaces(TrimStart(x))
  {
  }

  lemma ConsAppend(w: string, x: string)
    requires |w| > 0
    ensures [w[0]] + (w[1..] + x) == w + x
  {
  }

  /** A run without whitespace passes through collapsing untouched. */
  lemma {:induction false} CollapseWord(w: string, rest: string)
    requires NoSpace(w)
    ensures CollapseSpaces(w + rest) == w + CollapseSpaces(rest)
  {
    if |w| > 0 {
      var x := w[1..] + rest;
      assert w + rest == [w[0]] + x;
      CollapseCons(w[0], x);
      CollapseWord(w[1..], rest);
      ConsAppend(w, CollapseSpaces(rest));
    } else {
      assert w + rest == rest;
    }
  }

  /** A blank when `t` ends with whitespace. */
  function Trail(t: string): string
  {
    if |t| > 0 && IsSpace(t[|t| - 1]) then " " else ""
  }

  /** A text starting with a word: that word, then the words of the rest. */
  lemma WordsStartingWithWord(t: string)
    requires t != [] && !IsSpace(t[0])
    ensures WordLength(t) > 0 && Words(t) == [t[..WordLength(t)]] + Words(t[WordLength(t)..])
  {
  }

  /** Leading whitespace does not change the words. */
  lemma WordsTrimStart(x: string)
    ensures Words(x) == Words(TrimStart(x))
  {
    assert TrimStart(TrimStart(x)) == TrimStart(x);
  }

  lemma JoinCons(w: string, ws: seq<string>)
    requires ws != []
    ensures Join([w] + ws, " ") == w + " " + Join(ws, " ")
  {
    assert ([w] + ws)[1..] == ws;
  }

  /** Collapsing a text that starts with a word joins its words with single blanks,
      keeping one blank for trailing whitespace. */
  lemma {:induction false} CollapseStartingWithWord(t: string)
    requires t == [] || !IsSpace(t[0])
    ensures CollapseSpaces(t) == Join(Words(t), " ") + Trail(t)
    decreases |t|, 1
  {
    if t != [] {
      WordsStartingWithWord(t);
      var n := WordLength(t);
      var w, rest := t[..n], t[n..];
      assert t == w + rest;
      CollapseWord(w, rest);
      if rest == [] {
        CollapseOneWord(t, w, rest);
      } else {
        CollapseWordThenRest(t, w, rest);
      }
    }
  }

  /** The case of a word followed by whitespace. */
  lemma {:induction false} CollapseWordThenRest(t: string, w: string, rest: string)
    requires t == w + rest && w != [] && rest != [] && NoSpace(w) && IsSpace(rest[0])
    requires Words(t) == [w] + Words(rest)
    requires CollapseSpaces(t) == w + CollapseSpaces(rest)
    ensures CollapseSpaces(t) == Join(Words(t), " ") + Trail(t)
    decreases |rest|, 0
  {
    var u := TrimStart(rest);
    CollapseSpaceStart(rest);
    WordsTrimStart(rest);
    if u == [] {
      CollapseWordThenSpace(t, w, rest);
    } else {
      CollapseStartingWithWord(u);
      WordsStartingWithWord(u);
      TrailAppend(w, rest);
      TrailTrimStart(rest);
      CollapseWordThenWords(t, w, rest, u);
    }
  }

  /** The case of a word, a whitespace run and at least one more word. */
  lemma CollapseWordThenWords(t: string, w: string, rest: string, u: string)
    requires CollapseSpaces(t) == w + CollapseSpaces(rest)
    requires CollapseSpaces(rest) == " " + CollapseSpaces(u)
    requires CollapseSpaces(u) == Join(Words(u), " ") + Trail(u)
    requires Words(t) == [w] + Words(rest) && Words(rest) == Words(u) && Words(u) != []
    requires Trail(t) == Trail(u)
    ensures CollapseSpaces(t) == Join(Words(t), " ") + Trail(t)
  {
    JoinCons(w, Words(u));
    Assemble(CollapseSpaces(t), CollapseSpaces(rest), CollapseSpaces(u), Join(Words(t), " "),
             Join(Words(u), " "), w, Trail(t), Trail(u));
  }

  /** The case of a text that is one word. */
  lemma CollapseOneWord(t: string, w: string, rest: string)
    requires t == w + rest && w != [] && rest == [] && NoSpace(w)
    requires Words(t) == [w] + Words(rest)
    requires CollapseSpaces(t) == w + CollapseSpaces(rest)
    ensures CollapseSpaces(t) == Join(Words(t), " ") + Trail(t)
  {
    assert Words(rest) == [];
    assert t == w;
  }

  /** The case of a text that is one word followed by whitespace. */
  lemma CollapseWordThenSpace(t: string, w: string, rest: string)
    requires t == w + rest && w != [] && rest != [] && NoSpace(w) && TrimStart(rest) == []
    requires Words(t) == [w] + Words(rest) && Words(rest) == Words(TrimStart(rest))
    requires CollapseSpaces(t) == w + CollapseSpaces(rest)
    requires CollapseSpaces(rest) == " " + CollapseSpaces(TrimStart(rest))
    ensures CollapseSpaces(t) == Join(Words(t), " ") + Trail(t)
  {
    assert Words(rest) == [];
    assert IsSpace(rest[|rest| - 1]);
    assert t[|t| - 1] == rest[|rest| - 1];
  }

  lemma TrailAppend(w: string, rest: string)
    requires rest != []
    ensures Trail(w + rest) == Trail(rest)
  {
    assert (w + rest)[|w + rest| - 1] == rest[|rest| - 1];
  }

  lemma TrailTrimStart(rest: string)
    requires TrimStart(rest) != []
    ensures Trail(TrimStart(rest)) == Trail(rest)
  {
    var u := TrimStart(rest);
    assert u[|u| - 1] == rest[|rest| - 1];
  }

  /** The string algebra of one word, a whitespace run and the words after it. */
  lemma Assemble(ct: string, cr: string, cu: string, jt: string, ju: string, w: string, tt: string, tu: string)
    requires ct == w + cr && cr == " " + cu && cu == ju + tu && jt == w + " " + ju && tt == tu
    ensures ct == jt + tt
  {
  }

  /** `re.sub(r'\s+', ' ', x).strip()` is `' '.join(x.split())`: the words of `x`, each
      whitespace run between two of them replaced by one blank. */
  lemma CollapseStripJoinsWords(x: string)
    ensures Strip(CollapseSpaces(x)) == Join(Words(x), " ")
  {
    if x == [] {
    } else if !IsSpace(x[0]) {
      StripWordStart(x);
    } else {
      StripSpaceStart(x);
    }
  }

  lemma StripWordStart(x: string)
    requires x != [] && !IsSpace(x[0])
    ensures Strip(CollapseSpaces(x)) == Join(Words(x), " ")
  {
    CollapseStartingWithWord(x);
    WordsAreWords(x);
    StripJoined(CollapseSpaces(x), "", Words(x), Trail(x));
  }

  lemma StripSpaceStart(x: string)
    requires x != [] && IsSpace(x[0])
    ensures Strip(CollapseSpaces(x)) == Join(Words(x), " ")
  {
    var u := TrimStart(x);
    CollapseSpaceStart(x);
    WordsTrimStart(x);
    CollapseStartingWithWord(u);
    WordsAreWords(u);
    StripBlankJoined(CollapseSpaces(x), CollapseSpaces(u), Words(u), Trail(u));
  }

  /** A blank, then words joined with blanks and maybe a blank, strips to the joined words. */
  lemma StripBlankJoined(c: string, cu: string, ws: seq<string>, b: string)
    requires b == "" || b == " "
    requires forall k :: 0 <= k < |ws| ==> ws[k] != [] && NoSpace(ws[k])
    requires c == " " + cu && cu == Join(ws, " ") + b
    ensures Strip(c) == Join(ws, " ")
  {
    StripJoined(c, " ", ws, b);
  }

  /** Stripping a blank or nothing around words joined with blanks gives the joined words. */
  lemma StripJoined(c: string, a: string, ws: seq<string>, b: string)
    requires a == "" || a == " "
    requires b == "" || b == " "
    requires forall k :: 0 <= k < |ws| ==> ws[k] != [] && NoSpace(ws[k])
    requires c == a + (Join(ws, " ") + b)
    ensures Strip(c) == Join(ws, " ")
  {
    JoinWordsEnds(ws);
    StripAround(c, a, Join(ws, " "), b);
  }

  lemma StripAround(c: string, a: string, j: string, b: string)
    requires a == "" || a == " "
    requires b == "" || b == " "
    requires j == [] || (!IsSpace(j[0]) && !IsSpace(j[|j| - 1]))
    requires c == a + (j + b)
    ensures Strip(c) == j
  {
    assert c == a + j + b;
    assert forall i :: 0 <= i < |a| ==> IsSpace(a[i]);
    assert forall i :: 0 <= i < |b| ==> IsSpace(b[i]);
    StripPadded(a, j, b);
  }

  /** `_preprocess_text` is the words of the lowered, punctuation-free text joined with
      single blanks. */
  lemma PreprocessJoinsWords(s: string)
    ensures Preprocess(s) == Join(Words(RemovePunctuation(Lower(s))), " ")
  {
    CollapseStripJoinsWords(RemovePunctuation(Lower(s)));
  }

  // ---------------------------------------------------------------- predict

  const SuicidalContent: string := "suicidal_content"
  const DefaultThreshold: real := 0.3
  const SuicideThreshold: real := 0.6
  const MaxIntents: nat := 5
  const NotLoaded: string := "Models not loaded"

  /** The intents map: `{"error": "Models not loaded"}` when the models are missing,
      possibly joined later by a forced `suicidal_content` score; otherwise label to score. */
  datatype Intents = Intents(error: Option<string>, scores: seq<Entry>)

  /** The two branches of the filter: the suicide label at 0.6 or more, any label at the threshold. */
  predicate Kept(name: string, score: real, threshold: real)
  {
    (name == SuicidalContent && score >= SuicideThreshold) || score >= threshold
  }

  /** At the default threshold the suicide branch lets nothing extra through. */
  lemma DefaultThresholdUniform(name: string, score: real)
    ensures Kept(name, score, DefaultThreshold) <==> score >= DefaultThreshold
  {
  }

  /** Above 0.6 the suicide branch is what keeps a suicide score the threshold would drop. */
  lemma SuicideKeptBelowThreshold(score: real, threshold: real)
    requires SuicideThreshold <= score < threshold
    ensures Kept(SuicidalContent, score, threshold) && !Kept("symptom_report", score, threshold)
  {
  }

  predicate DistinctStrings(s: seq<string>)
  {
    forall i, j :: 0 <= i < j < |s| ==> s[i] != s[j]
  }

  /** The results dict after the filter loop has seen the first `k` labels. */
  function Selected(labels: seq<string>, proba: seq<real>, threshold: real, k: nat): (r: seq<Entry>)
    requires k <= |labels| <= |proba|
    ensures forall e :: e in r ==> exists j :: 0 <= j < k && e == Entry(labels[j], proba[j]) && Kept(labels[j], proba[j], threshold)
    ensures forall j :: 0 <= j < k && Kept(labels[j], proba[j], threshold) ==> Entry(labels[j], proba[j]) in r
    ensures |r| <= k
  {
    if k == 0 then []
    else
      var before := Selected(labels, proba, threshold, k - 1);
      if Kept(labels[k - 1], proba[k - 1], threshold) then before + [Entry(labels[k - 1], proba[k - 1])]
      else before
  }

  predicate SortedDesc(s: seq<Entry>)
  {
    forall i, j :: 0 <= i < j < |s| ==> s[i].value >= s[j].value
  }

  /** Places `x` after every entry scoring at least as much: the stable position. */
  function Insert(x: Entry, s: seq<Entry>): (r: seq<Entry>)
    requires SortedDesc(s)
    ensures |r| == |s| + 1
    ensures r[0] == (if |s| > 0 && s[0].value >= x.value then s[0] else x)
    ensures SortedDesc(r)
    ensures multiset(r) == multiset(s) + multiset{x}
  {
    if |s| == 0 then [x]
    else if s[0].value >= x.value then
      var rest := Insert(x, s[1..]);
      assert s == [s[0]] + s[1..];
      ConsSorted(s[0], rest);
      [s[0]] + rest
    else
      ConsSorted(x, s);
      [x] + s
  }

  /** A head scoring at least as much as the first entry of a descending tail keeps it descending. */
  lemma ConsSorted(h: Entry, t: seq<Entry>)
    requires SortedDesc(t) && (|t| > 0 ==> t[0].value <= h.value)
    ensures SortedDesc([h] + t)
  {
    var r := [h] + t;
    forall i, j | 0 <= i < j < |r|
      ensures r[i].value >= r[j].value
    {
      assert r[j] == t[j - 1];
      if i > 0 {
        assert r[i] == t[i - 1];
      }
    }
  }

  /** `sorted(results.items(), key=score, reverse=True)`: Python's sort is stable, and
      stays stable under `reverse=True`. */
  function SortDesc(s: seq<Entry>): (r: seq<Entry>)
    ensures SortedDesc(r)
    ensures multiset(r) == multiset(s)
    ensures |r| == |s|
  {
    if |s| == 0 then []
    else
      assert s == s[..|s| - 1] + [s[|s| - 1]];
      Insert(s[|s| - 1], SortDesc(s[..|s| - 1]))
  }

  /** The entries with score exactly `v`, in their order. */
  function WithScore(s: seq<Entry>, v: real): seq<Entry>
  {
    if |s| == 0 then [] else (if s[0].value == v then [s[0]] else []) + WithScore(s[1..], v)
  }

  lemma {:induction false} WithScoreAppend(a: seq<Entry>, b: seq<Entry>, v: real)
    ensures WithScore(a + b, v) == WithScore(a, v) + WithScore(b, v)
  {
    if |a| > 0 {
      assert (a + b)[1..] == a[1..] + b;
      assert (a + b)[0] == a[0];
      WithScoreAppend(a[1..], b, v);
    } else {
      assert a + b == b;
    }
  }

  lemma {:induction false} WithScoreNone(s: seq<Entry>, v: real)
    requires forall i :: 0 <= i < |s| ==> s[i].value < v
    ensures WithScore(s, v) == []
  {
    if |s| > 0 {
      WithScoreNone(s[1..], v);
    }
  }

  lemma {:induction false} InsertStable(x: Entry, s: seq<Entry>, v: real)
    requires SortedDesc(s)
    ensures WithScore(Insert(x, s), v) == WithScore(s, v) + WithScore([x], v)
  {
    if |s| == 0 {
      assert Insert(x, s) == [x];
      assert WithScore(s, v) == [];
    } else if s[0].value >= x.value {
      InsertStable(x, s[1..], v);
      assert Insert(x, s) == [s[0]] + Insert(x, s[1..]);
      WithScoreCons(s[0], s[1..], Insert(x, s[1..]), WithScore([x], v), v);
      assert [s[0]] + s[1..] == s;
    } else {
      assert Insert(x, s) == [x] + s;
      WithScoreFront(x, s, v);
    }
  }

  /** The step of `InsertStable` where `x` goes in front of every entry of `s`. */
  lemma WithScoreFront(x: Entry, s: seq<Entry>, v: real)
    requires SortedDesc(s) && |s| > 0 && s[0].value < x.value
    ensures WithScore([x] + s, v) == WithScore(s, v) + WithScore([x], v)
  {
    WithScoreAppend([x], s, v);
    if x.value == v {
      WithScoreNone(s, v);
    }
  }

  /** The step of `InsertStable` behind a head entry `h`. */
  lemma WithScoreCons(h: Entry, t: seq<Entry>, r: seq<Entry>, w: seq<Entry>, v: real)
    requires WithScore(r, v) == WithScore(t, v) + w
    ensures WithScore([h] + r, v) == WithScore([h] + t, v) + w
  {
    WithScoreAppend([h], r, v);
    WithScoreAppend([h], t, v);
  }

  /** Stability: among equal scores the input order is kept. Together with
      `SortedDesc` and the multiset equality this pins the sort down completely. */
  lemma {:induction false} SortDescStable(s: seq<Entry>, v: real)
    ensures WithScore(SortDesc(s), v) == WithScore(s, v)
  {
    if |s| > 0 {
      var init := s[..|s| - 1];
      SortDescStable(init, v);
      InsertStable(s[|s| - 1], SortDesc(init), v);
      ButLastLast(s);
      WithScoreAppend(init, [s[|s| - 1]], v);
    }
  }

  /** `dict(list(results.items())[:5])` */
  function Top(s: seq<Entry>): (r: seq<Entry>)
    ensures |r| <= MaxIntents && |r| <= |s| && r == s[..|r|]
    ensures |s| <= MaxIntents ==> r == s
  {
    if |s| <= MaxIntents then s else s[..MaxIntents]
  }

  /** The answer of `predict` for loaded models, as a function of the classifier's row. */
  function Predicted(labels: seq<string>, proba: seq<real>, threshold: real): seq<Entry>
    requires |labels| <= |proba|
  {
    Top(SortDesc(Selected(labels, proba, threshold, |labels|)))
  }

  /** Every returned intent is a class with its own score that passed the filter. */
  lemma PredictedKept(labels: seq<string>, proba: seq<real>, threshold: real)
    requires |labels| <= |proba|
    ensures forall e :: e in Predicted(labels, proba, threshold) ==>
              exists j :: 0 <= j < |labels| && e == Entry(labels[j], proba[j]) && Kept(labels[j], proba[j], threshold)
  {
    var sel := Selected(labels, proba, threshold, |labels|);
    var all := SortDesc(sel);
    forall e | e in Predicted(labels, proba, threshold)
      ensures e in sel
    {
      assert e in all;
      assert e in multiset(all);
    }
  }

  /** The returned intents are at most five, best first, and no kept class left
      out scores above a returned one; with at most five kept classes all are returned. */
  lemma PredictedBest(labels: seq<string>, proba: seq<real>, threshold: real)
    requires |labels| <= |proba|
    ensures var all := SortDesc(Selected(labels, proba, threshold, |labels|));
            var r := Predicted(labels, proba, threshold);
            && |r| <= MaxIntents
            && SortedDesc(r)
            && (forall i, j :: 0 <= i < |r| <= j < |all| ==> all[j].value <= r[i].value)
            && (|all| <= MaxIntents ==>
                  forall j :: 0 <= j < |labels| && Kept(labels[j], proba[j], threshold) ==> Entry(labels[j], proba[j]) in r)
  {
    var sel := Selected(labels, proba, threshold, |labels|);
    var all := SortDesc(sel);
    TopBest(all);
    if |all| <= MaxIntents {
      forall j | 0 <= j < |labels| && Kept(labels[j], proba[j], threshold)
        ensures Entry(labels[j], proba[j]) in all
      {
        SameElements(sel, all, Entry(labels[j], proba[j]));
      }
    }
  }

  /** The first five of a descending list are descending, and none after them scores more. */
  lemma TopBest(all: seq<Entry>)
    requires SortedDesc(all)
    ensures |Top(all)| <= MaxIntents && SortedDesc(Top(all))
    ensures forall i, j :: 0 <= i < |Top(all)| <= j < |all| ==> all[j].value <= Top(all)[i].value
  {
    var r := Top(all);
    forall i, j | 0 <= i < |r| <= j < |all|
      ensures all[j].value <= r[i].value
    {
      assert r[i] == all[i];
    }
  }

  /** Two sequences with the same multiset have the same elements. */
  lemma SameElements(a: seq<Entry>, b: seq<Entry>, x: Entry)
    requires multiset(a) == multiset(b) && x in a
    ensures x in b
  {
    assert x in multiset(a);
  }

  // ---------------------------------------------------------------- _check_suicide_risk

  const HighRiskPhrases: seq<string> := [
    "better off without me", "better off if i wasn't here", "better off if i wasn't around",
    "no reason to live", "don't want to be here anymore", "want to end it all", "want to die"]

  const SuicideTerms: seq<string> := [
    "suicide", "kill myself", "end my life", "take my own life", "death wish", "better off dead"]

  /** `_check_suicide_risk`. `symptoms` are the symptom types the entity extractor found
      in the text; a "suicidal" one is the regex fallback of the last check. */
  function CheckSuicideRisk(text: string, symptoms: seq<string>): (risk: bool)
    ensures risk <==> ContainsAny(Lower(text), HighRiskPhrases) || ContainsAny(Lower(text), SuicideTerms)
                      || "suicidal" in symptoms
  {
    var lowered := Lower(text);
    PhraseScan(lowered, HighRiskPhrases, 0) || PhraseScan(lowered, SuicideTerms, 0) || "suicidal" in symptoms
  }

  /** The `for phrase in ...: if phrase in text_lower: return True` scan from position `k`. */
  function PhraseScan(s: string, phrases: seq<string>, k: nat): (found: bool)
    requires k <= |phrases|
    ensures found <==> exists i :: k <= i < |phrases| && Contains(s, phrases[i])
    decreases |phrases| - k
  {
    if k == |phrases| then false
    else Contains(s, phrases[k]) || PhraseScan(s, phrases, k + 1)
  }

  /** A risk phrase anywhere in the text, in any letter case, is detected. */
  lemma RiskPhraseDetected(text: string, symptoms: seq<string>, i: nat, at: nat)
    requires i < |HighRiskPhrases|
    requires at + |HighRiskPhrases[i]| <= |text| && Lower(text[at..at + |HighRiskPhrases[i]|]) == HighRiskPhrases[i]
    ensures CheckSuicideRisk(text, symptoms)
  {
    var p := HighRiskPhrases[i];
    assert Lower(text)[at..at + |p|] == Lower(text[at..at + |p|]);
    ContainsAt(Lower(text), p, at);
  }

  // ---------------------------------------------------------------- _assess_clinical_relevance

  const ClinicalIntents: seq<string> := [
    "symptom_report", "emotional_distress", "treatment_discussion",
    "medication_mention", "side_effect_report", "suicidal_content"]

  datatype Relevance = Relevance(score: real, factors: seq<string>)

  function Min(a: real, b: real): real { if a <= b then a else b }

  /** Half of each listed clinical intent's score, over the first `k` names. */
  function IntentShare(intents: seq<Entry>, k: nat): real
    requires k <= |ClinicalIntents|
  {
    if k == 0 then 0.0
    else IntentShare(intents, k - 1)
         + (if HasKey(intents, ClinicalIntents[k - 1]) then Get(intents, ClinicalIntents[k - 1], 0.0) * 0.5 else 0.0)
  }

  function IntentFactors(intents: seq<Entry>, k: nat): seq<string>
    requires k <= |ClinicalIntents|
  {
    if k == 0 then []
    else IntentFactors(intents, k - 1)
         + (if HasKey(intents, ClinicalIntents[k - 1]) then ["Intent: " + ClinicalIntents[k - 1]] else [])
  }

  /** How many of the extracted symptom types are "suicidal". */
  function SuicidalCount(symptoms: seq<string>): nat
  {
    if |symptoms| == 0 then 0
    else SuicidalCount(symptoms[..|symptoms| - 1]) + (if symptoms[|symptoms| - 1] == "suicidal" then 1 else 0)
  }

  function SymptomShare(symptoms: seq<string>): real
  {
    if |symptoms| == 0 then 0.0
    else Min(0.2 * |symptoms| as real, 0.6) + 0.5 * SuicidalCount(symptoms) as real
  }

  function SymptomFactors(symptoms: seq<string>): seq<string>
  {
    if |symptoms| == 0 then []
    else ["Symptom mentions: " + NatToString(|symptoms|)] + SuicideFactors(symptoms)
  }

  function SuicideFactors(symptoms: seq<string>): seq<string>
  {
    if |symptoms| == 0 then []
    else SuicideFactors(symptoms[..|symptoms| - 1])
         + (if symptoms[|symptoms| - 1] == "suicidal" then ["Suicide-related content"] else [])
  }

  /** What `_assess_clinical_relevance` returns. */
  function ClinicalRelevance(intents: seq<Entry>, symptoms: seq<string>): Relevance
  {
    Relevance(Min(IntentShare(intents, |ClinicalIntents|) + SymptomShare(symptoms), 1.0),
              IntentFactors(intents, |ClinicalIntents|) + SymptomFactors(symptoms))
  }

  lemma {:induction false} IntentShareNonNegative(intents: seq<Entry>, k: nat)
    requires k <= |ClinicalIntents| && NonNegative(intents)
    ensures IntentShare(intents, k) >= 0.0
  {
    if k > 0 {
      IntentShareNonNegative(intents, k - 1);
      var name := ClinicalIntents[k - 1];
      if HasKey(intents, name) {
        GetInRange(intents, name);
      }
    }
  }

  /** On a dict with non-negative scores, `get` of a present key is non-negative. */
  lemma {:induction false} GetInRange(d: seq<Entry>, k: string)
    requires NonNegative(d)
    ensures Get(d, k, 0.0) >= 0.0
  {
    if |d| > 0 && d[0].key != k {
      GetInRange(d[1..], k);
    }
  }

  lemma {:induction false} SuicidalCountPositive(symptoms: seq<string>)
    requires "suicidal" in symptoms
    ensures SuicidalCount(symptoms) >= 1
  {
    var last := symptoms[|symptoms| - 1];
    if last != "suicidal" {
      assert symptoms == symptoms[..|symptoms| - 1] + [last];
      assert "suicidal" in symptoms[..|symptoms| - 1];
      SuicidalCountPositive(symptoms[..|symptoms| - 1]);
    }
  }

  /** The score is capped at 1; with non-negative intent scores it is at least 0, at
      least 0.2 once any symptom is mentioned, and at least 0.7 for a suicidal mention. */
  lemma RelevanceBounds(intents: seq<Entry>, symptoms: seq<string>)
    requires NonNegative(intents)
    ensures 0.0 <= ClinicalRelevance(intents, symptoms).score <= 1.0
    ensures |symptoms| > 0 ==> ClinicalRelevance(intents, symptoms).score >= 0.2
    ensures "suicidal" in symptoms ==> ClinicalRelevance(intents, symptoms).score >= 0.7
  {
    IntentShareNonNegative(intents, |ClinicalIntents|);
    if "suicidal" in symptoms {
      SuicidalCountPositive(symptoms);
    }
  }

  /** Without clinical intents or symptoms nothing is relevant. */
  lemma {:induction false} NothingRelevant(intents: seq<Entry>, k: nat)
    requires k <= |ClinicalIntents|
    requires forall j :: 0 <= j < k ==> !HasKey(intents, ClinicalIntents[j])
    ensures IntentShare(intents, k) == 0.0 && IntentFactors(intents, k) == []
  {
    if k > 0 {
      NothingRelevant(intents, k - 1);
    }
  }

  /** `_assess_clinical_relevance`: the loop over the clinical intents, the symptom
      bonus and the loop over the suicidal mentions, then the cap. */
  method AssessClinicalRelevance(intents: seq<Entry>, symptoms: seq<string>) returns (r: Relevance)
    ensures r == ClinicalRelevance(intents, symptoms)
  {
    var score := 0.0;
    var factors: seq<string> := [];
    for k := 0 to |ClinicalIntents|
      invariant score == IntentShare(intents, k) && factors == IntentFactors(intents, k)
    {
      var intent := ClinicalIntents[k];
      if HasKey(intents, intent) {
        score := score + Get(intents, intent, 0.0) * 0.5;
        factors := factors + ["Intent: " + intent];
      }
    }
    var base, baseFactors := score, factors;
    if |symptoms| > 0 {
      score := score + Min(0.2 * |symptoms| as real, 0.6);
      factors := factors + ["Symptom mentions: " + NatToString(|symptoms|)];
      var afterMentions := factors;
      for k := 0 to |symptoms|
        invariant score == base + Min(0.2 * |symptoms| as real, 0.6) + 0.5 * SuicidalCount(symptoms[..k]) as real
        invariant factors == afterMentions + SuicideFactors(symptoms[..k])
      {
        assert symptoms[..k + 1][..k] == symptoms[..k];
        if symptoms[k] == "suicidal" {
          score := score + 0.5;
          factors := factors + ["Suicide-related content"];
        }
      }
      assert symptoms[..|symptoms|] == symptoms;
    }
    r := Relevance(Min(score, 1.0), factors);
  }

  // ---------------------------------------------------------------- _suggest_followups

  datatype Followup = Followup(priority: string, kind: string, text: string)

  const RiskFollowup: Followup := Followup("high", "risk_assessment",
    "I notice you mentioned something that makes me concerned about your safety. Are you having thoughts of harming yourself?")
  const SleepFollowup: Followup := Followup("medium", "symptom_exploration",
    "Can you tell me more about the sleep issues you're experiencing? How has this affected your daily life?")
  const MoodFollowup: Followup := Followup("medium", "symptom_exploration",
    "You mentioned something about your mood. Could you describe how your mood has been over the past two weeks?")
  const AppetiteFollowup: Followup := Followup("medium", "symptom_exploration",
    "I'd like to understand more about the changes in your appetite or eating habits. Could you elaborate on that?")
  const MedicationFollowup: Followup := Followup("medium", "medication_exploration",
    "You mentioned something about medication. Could you tell me more about your experience with it?")
  const GeneralFollowup: Followup := Followup("low", "general_exploration",
    "Could you tell me more about how you've been feeling lately?")

  /** `"x" in intents and intents["x"] > bound` */
  predicate ScoreAbove(intents: seq<Entry>, key: string, bound: real)
  {
    HasKey(intents, key) && Get(intents, key, 0.0) > bound
  }

  /** `_suggest_followups`: the risk question first when risk was detected or the suicide
      score exceeds 0.6, symptom questions only without detected risk, a medication
      question above 0.5, and the general question when nothing else fired. */
  function SuggestFollowups(intents: seq<Entry>, symptoms: seq<string>, risk: bool): (r: seq<Followup>)
    ensures 1 <= |r| <= 5
    ensures r[0] == RiskFollowup <==> risk || ScoreAbove(intents, SuicidalContent, 0.6)
    ensures risk ==> forall i :: 0 <= i < |r| ==> r[i].kind != "symptom_exploration"
    ensures r == [GeneralFollowup] <==>
              !(risk || ScoreAbove(intents, SuicidalContent, 0.6))
              && (risk || ("sleep" !in symptoms && "mood" !in symptoms && "appetite" !in symptoms))
              && !ScoreAbove(intents, "medication_mention", 0.5)
    ensures MedicationFollowup in r <==> ScoreAbove(intents, "medication_mention", 0.5)
    ensures SleepFollowup in r <==> "sleep" in symptoms && !risk
    ensures MoodFollowup in r <==> "mood" in symptoms && !risk
    ensures AppetiteFollowup in r <==> "appetite" in symptoms && !risk
    ensures Subsequence(r, FollowupOrder)
  {
    var found :=
      (if risk || ScoreAbove(intents, SuicidalContent, 0.6) then [RiskFollowup] else [])
      + (if "sleep" in symptoms && !risk then [SleepFollowup] else [])
      + (if "mood" in symptoms && !risk then [MoodFollowup] else [])
      + (if "appetite" in symptoms && !risk then [AppetiteFollowup] else [])
      + (if ScoreAbove(intents, "medication_mention", 0.5) then [MedicationFollowup] else []);
    var p1, p2, p3 := risk || ScoreAbove(intents, SuicidalContent, 0.6), "sleep" in symptoms && !risk,
                      "mood" in symptoms && !risk;
    var p4, p5 := "appetite" in symptoms && !risk, ScoreAbove(intents, "medication_mention", 0.5);
    FollowupsDistinct();
    FollowupsInOrder(p1, p2, p3, p4, p5,
                     RiskFollowup, SleepFollowup, MoodFollowup, AppetiteFollowup, MedicationFollowup, GeneralFollowup);
    RulesFire(p1, p2, p3, p4, p5,
              RiskFollowup, SleepFollowup, MoodFollowup, AppetiteFollowup, MedicationFollowup, GeneralFollowup);
    if |found| == 0 then [GeneralFollowup] else found
  }

  /** Six pairwise different values. */
  ghost predicate Distinct<T>(x1: T, x2: T, x3: T, x4: T, x5: T, g: T)
  {
    && x1 != x2 && x1 != x3 && x1 != x4 && x1 != x5 && x1 != g
    && x2 != x3 && x2 != x4 && x2 != x5 && x2 != g
    && x3 != x4 && x3 != x5 && x3 != g
    && x4 != x5 && x4 != g && x5 != g
  }

  /** The six questions are pairwise different. */
  lemma FollowupsDistinct()
    ensures Distinct(RiskFollowup, SleepFollowup, MoodFollowup, AppetiteFollowup, MedicationFollowup, GeneralFollowup)
  {
    assert SleepFollowup.text != MoodFollowup.text;
    assert SleepFollowup.text != AppetiteFollowup.text;
    assert MoodFollowup.text != AppetiteFollowup.text;
  }

  /** Which of five rule questions, or the fallback `g`, a list of fired rules holds. */
  lemma RulesFire<T>(p1: bool, p2: bool, p3: bool, p4: bool, p5: bool, x1: T, x2: T, x3: T, x4: T, x5: T, g: T)
    requires Distinct(x1, x2, x3, x4, x5, g)
    ensures var found := (if p1 then [x1] else []) + (if p2 then [x2] else []) + (if p3 then [x3] else [])
                         + (if p4 then [x4] else []) + (if p5 then [x5] else []);
            var r := if |found| == 0 then [g] else found;
            && 1 <= |r| <= 5
            && (r[0] == x1 <==> p1)
            && (x1 in r <==> p1) && (x2 in r <==> p2) && (x3 in r <==> p3) && (x4 in r <==> p4) && (x5 in r <==> p5)
            && (r == [g] <==> !p1 && !p2 && !p3 && !p4 && !p5)
            && forall y :: y in r ==> (p1 && y == x1) || (p2 && y == x2) || (p3 && y == x3)
                                      || (p4 && y == x4) || (p5 && y == x5) || y == g
  {
    var found := (if p1 then [x1] else []) + (if p2 then [x2] else []) + (if p3 then [x3] else [])
                 + (if p4 then [x4] else []) + (if p5 then [x5] else []);
    FiredMembers(p1, p2, p3, p4, p5, x1, x2, x3, x4, x5);
    FallbackMembers(found, if |found| == 0 then [g] else found, p1, p2, p3, p4, p5, x1, x2, x3, x4, x5, g);
  }

  /** What the answer holds, given what the fired rules hold. */
  lemma FallbackMembers<T>(found: seq<T>, r: seq<T>, p1: bool, p2: bool, p3: bool, p4: bool, p5: bool,
                           x1: T, x2: T, x3: T, x4: T, x5: T, g: T)
    requires Distinct(x1, x2, x3, x4, x5, g)
    requires |found| <= 5
    requires |found| == 0 <==> !p1 && !p2 && !p3 && !p4 && !p5
    requires p1 ==> found[0] == x1
    requires !p1 && |found| > 0 ==> found[0] in [x2, x3, x4, x5]
    requires forall y :: y in found <==> (p1 && y == x1) || (p2 && y == x2) || (p3 && y == x3)
                                         || (p4 && y == x4) || (p5 && y == x5)
    requires r == if |found| == 0 then [g] else found
    ensures 1 <= |r| <= 5
    ensures r[0] == x1 <==> p1
    ensures (x1 in r <==> p1) && (x2 in r <==> p2) && (x3 in r <==> p3) && (x4 in r <==> p4) && (x5 in r <==> p5)
    ensures r == [g] <==> !p1 && !p2 && !p3 && !p4 && !p5
    ensures forall y :: y in r ==> (p1 && y == x1) || (p2 && y == x2) || (p3 && y == x3)
                                   || (p4 && y == x4) || (p5 && y == x5) || y == g
  {
    if |found| > 0 {
      assert found[0] in found;
    }
  }

  /** The rules that fired, each once and in order, and nothing else. */
  lemma FiredMembers<T>(p1: bool, p2: bool, p3: bool, p4: bool, p5: bool, x1: T, x2: T, x3: T, x4: T, x5: T)
    ensures var found := (if p1 then [x1] else []) + (if p2 then [x2] else []) + (if p3 then [x3] else [])
                         + (if p4 then [x4] else []) + (if p5 then [x5] else []);
            && |found| <= 5
            && (|found| == 0 <==> !p1 && !p2 && !p3 && !p4 && !p5)
            && (p1 ==> found[0] == x1)
            && (!p1 && |found| > 0 ==> found[0] in [x2, x3, x4, x5])
            && forall y :: y in found <==> (p1 && y == x1) || (p2 && y == x2) || (p3 && y == x3)
                                           || (p4 && y == x4) || (p5 && y == x5)
  {
    var o1, o2, o3 := (if p1 then [x1] else []), (if p2 then [x2] else []), (if p3 then [x3] else []);
    var o4, o5 := (if p4 then [x4] else []), (if p5 then [x5] else []);
    var found := o1 + o2 + o3 + o4 + o5;
    assert forall y :: y in found <==> y in o1 || y in o2 || y in o3 || y in o4 || y in o5;
    if p1 {
      assert found[0] == x1;
    } else if |found| > 0 {
      assert found[0] in found;
    }
  }

  /** The order in which `_suggest_followups` can ask its questions. */
  const FollowupOrder: seq<Followup> :=
    [RiskFollowup, SleepFollowup, MoodFollowup, AppetiteFollowup, MedicationFollowup, GeneralFollowup]

  /** The rule questions that fire keep the order of the rules. */
  lemma FiredInOrder<T>(o1: seq<T>, o2: seq<T>, o3: seq<T>, o4: seq<T>, o5: seq<T>, x1: T, x2: T, x3: T, x4: T, x5: T)
    requires Subsequence(o1, [x1]) && Subsequence(o2, [x2]) && Subsequence(o3, [x3])
    requires Subsequence(o4, [x4]) && Subsequence(o5, [x5])
    ensures Subsequence(o1 + o2 + o3 + o4 + o5, [x1, x2, x3, x4, x5])
  {
    SubsequenceAppend(o1, [x1], o2, [x2]);
    SubsequenceAppend(o1 + o2, [x1] + [x2], o3, [x3]);
    SubsequenceAppend(o1 + o2 + o3, [x1] + [x2] + [x3], o4, [x4]);
    SubsequenceAppend(o1 + o2 + o3 + o4, [x1] + [x2] + [x3] + [x4], o5, [x5]);
    assert [x1] + [x2] + [x3] + [x4] + [x5] == [x1, x2, x3, x4, x5];
  }

  /** The questions that fire, each asked at most once, in the fixed order; the general
      question exactly when no other fires. */
  lemma FollowupsInOrder<T>(p1: bool, p2: bool, p3: bool, p4: bool, p5: bool, x1: T, x2: T, x3: T, x4: T, x5: T, g: T)
    ensures var found := (if p1 then [x1] else []) + (if p2 then [x2] else []) + (if p3 then [x3] else [])
                         + (if p4 then [x4] else []) + (if p5 then [x5] else []);
            Subsequence(if |found| == 0 then [g] else found, [x1, x2, x3, x4, x5, g])
  {
    var o1, o2, o3 := (if p1 then [x1] else []), (if p2 then [x2] else []), (if p3 then [x3] else []);
    var o4, o5 := (if p4 then [x4] else []), (if p5 then [x5] else []);
    var found := o1 + o2 + o3 + o4 + o5;
    var tail := if |found| == 0 then [g] else [];
    SubsequenceOne(p1, x1);
    SubsequenceOne(p2, x2);
    SubsequenceOne(p3, x3);
    SubsequenceOne(p4, x4);
    SubsequenceOne(p5, x5);
    FiredInOrder(o1, o2, o3, o4, o5, x1, x2, x3, x4, x5);
    SubsequenceOne(|found| == 0, g);
    SubsequenceAppend(found, [x1, x2, x3, x4, x5], tail, [g]);
    assert [x1, x2, x3, x4, x5] + [g] == [x1, x2, x3, x4, x5, g];
    if |found| == 0 {
      assert found + tail == [g];
    } else {
      assert found + tail == found;
    }
  }

  // ---------------------------------------------------------------- analyze_response

  datatype Analysis = Analysis(text: string, intents: Intents, symptoms: seq<string>,
                               relevance: Relevance, suicideRisk: bool, followups: seq<Followup>)

  /** The intents after the risk override: a detected risk with no suicide score
      adds one of 0.85 at the end; an existing score is never replaced. */
  function WithRiskOverride(intents: Intents, risk: bool): (r: Intents)
    ensures r.error == intents.error
    ensures risk ==> HasKey(r.scores, SuicidalContent)
    ensures !risk || HasKey(intents.scores, SuicidalContent) ==> r == intents
    ensures risk && !HasKey(intents.scores, SuicidalContent) ==>
              r.scores == intents.scores + [Entry(SuicidalContent, 0.85)]
  {
    if risk && !HasKey(intents.scores, SuicidalContent) then
      var r := Intents(intents.error, intents.scores + [Entry(SuicidalContent, 0.85)]);
      assert r.scores[|intents.scores|].key == SuicidalContent;
      r
    else intents
  }

  // ---------------------------------------------------------------- train

  datatype IntentInfo = IntentInfo(name: string, description: string, examples: seq<string>)

  datatype TrainingItem = TrainingItem(text: string, intents: seq<string>)

  function Names(d: seq<IntentInfo>): (ns: seq<string>)
    ensures |ns| == |d| && forall i :: 0 <= i < |d| ==> ns[i] == d[i].name
  {
    seq(|d|, i requires 0 <= i < |d| => d[i].name)
  }

  predicate NoDuplicates(s: seq<string>)
  {
    forall i, j :: 0 <= i < j < |s| ==> s[i] != s[j]
  }

  /** The shape `self.intents` keeps: one entry per intent, no repeated example. */
  predicate WellFormed(d: seq<IntentInfo>)
  {
    NoDuplicates(Names(d)) && forall i :: 0 <= i < |d| ==> NoDuplicates(d[i].examples)
  }

  predicate Recorded(d: seq<IntentInfo>, name: string, text: string)
  {
    exists i :: 0 <= i < |d| && d[i].name == name && text in d[i].examples
  }

  /** `d` grows into `e`: same entries in the same order, each example list extended
      at its end, possibly followed by new entries. */
  predicate Extends(d: seq<IntentInfo>, e: seq<IntentInfo>)
  {
    |d| <= |e| && forall i :: 0 <= i < |d| ==>
      e[i].name == d[i].name && e[i].description == d[i].description
      && |d[i].examples| <= |e[i].examples| && e[i].examples[..|d[i].examples|] == d[i].examples
  }

  lemma ExtendsTransitive(a: seq<IntentInfo>, b: seq<IntentInfo>, c: seq<IntentInfo>)
    requires Extends(a, b) && Extends(b, c)
    ensures Extends(a, c)
  {
    forall i | 0 <= i < |a|
      ensures c[i].examples[..|a[i].examples|] == a[i].examples
    {
      assert c[i].examples[..|a[i].examples|] == c[i].examples[..|b[i].examples|][..|a[i].examples|];
    }
  }

  /** Where `intent in self.intents` finds the intent: the first entry with that
      name, or `|d|` when there is none. */
  function Find(d: seq<IntentInfo>, name: string): (i: nat)
    ensures i <= |d|
    ensures forall j :: 0 <= j < i ==> d[j].name != name
    ensures i < |d| ==> d[i].name == name
  {
    if |d| == 0 then 0
    else if d[0].name == name then 0
    else 1 + Find(d[1..], name)
  }

  /** The search runs off the end exactly when the name is not in the dictionary. */
  lemma FindAbsent(d: seq<IntentInfo>, name: string)
    ensures Find(d, name) == |d| <==> name !in Names(d)
  {
    var i := Find(d, name);
    if name in Names(d) {
      var k :| 0 <= k < |d| && Names(d)[k] == name;
      assert d[k].name == name;
    }
    if i < |d| {
      assert Names(d)[i] == name;
    }
  }

  /** `examples.append(text)` unless `text` is already listed. */
  function AddExample(info: IntentInfo, text: string): (r: IntentInfo)
    ensures r.name == info.name && r.description == info.description
    ensures text in r.examples
    ensures r.examples == info.examples + (if text in info.examples then [] else [text])
  {
    if text in info.examples then info else info.(examples := info.examples + [text])
  }

  /** One round of the inner loop of `train`: create the intent when new, then append
      the example unless it is already listed. */
  function Record(d: seq<IntentInfo>, name: string, text: string): seq<IntentInfo>
  {
    var i := Find(d, name);
    if i == |d| then d + [IntentInfo(name, "Intent: " + name, [text])]
    else d[i := AddExample(d[i], text)]
  }

  lemma RecordExtends(d: seq<IntentInfo>, name: string, text: string)
    ensures Extends(d, Record(d, name, text))
    ensures Names(Record(d, name, text)) == Names(d) + (if name in Names(d) then [] else [name])
  {
    var r := Record(d, name, text);
    FindAbsent(d, name);
    assert Names(r) == Names(d) + (if name in Names(d) then [] else [name]);
  }

  lemma NoDuplicatesSnoc(s: seq<string>, x: string)
    requires NoDuplicates(s) && x !in s
    ensures NoDuplicates(s + [x])
  {
  }

  /** Recording keeps the dictionary well formed and records the pair. */
  lemma RecordWellFormed(d: seq<IntentInfo>, name: string, text: string)
    requires WellFormed(d)
    ensures WellFormed(Record(d, name, text))
    ensures Recorded(Record(d, name, text), name, text)
  {
    var r := Record(d, name, text);
    var i := Find(d, name);
    FindAbsent(d, name);
    RecordExtends(d, name, text);
    if i == |d| {
      NoDuplicatesSnoc(Names(d), name);
      assert r[|d|].name == name && text in r[|d|].examples;
    } else {
      assert r[i].name == name && text in r[i].examples;
    }
  }

  /** Recording keeps every pair recorded before. */
  lemma RecordKeeps(d: seq<IntentInfo>, name: string, text: string)
    ensures forall n, t :: Recorded(d, n, t) ==> Recorded(Record(d, name, text), n, t)
  {
    var r := Record(d, name, text);
    RecordExtends(d, name, text);
    forall n, t | Recorded(d, n, t)
      ensures Recorded(r, n, t)
    {
      var i :| 0 <= i < |d| && d[i].name == n && t in d[i].examples;
      assert r[i].examples[..|d[i].examples|] == d[i].examples;
      var k :| 0 <= k < |d[i].examples| && d[i].examples[k] == t;
      assert r[i].examples[k] == t;
    }
  }

  /** The intents recorded for one item: `for intent in item['intents']`. */
  function RecordItem(d: seq<IntentInfo>, text: string, names: seq<string>): seq<IntentInfo>
  {
    if |names| == 0 then d
    else Record(RecordItem(d, text, names[..|names| - 1]), names[|names| - 1], text)
  }

  /** The intents dictionary after `train` has gone over `items`. */
  function RecordAll(d: seq<IntentInfo>, items: seq<TrainingItem>): seq<IntentInfo>
  {
    if |items| == 0 then d
    else
      var last := items[|items| - 1];
      RecordItem(RecordAll(d, items[..|items| - 1]), last.text, last.intents)
  }

  lemma {:induction false} RecordItemProperties(d: seq<IntentInfo>, text: string, names: seq<string>)
    requires WellFormed(d)
    ensures WellFormed(RecordItem(d, text, names))
    ensures Extends(d, RecordItem(d, text, names))
    ensures forall n, t :: Recorded(d, n, t) ==> Recorded(RecordItem(d, text, names), n, t)
    ensures forall k :: 0 <= k < |names| ==> Recorded(RecordItem(d, text, names), names[k], text)
  {
    if |names| > 0 {
      var init := names[..|names| - 1];
      var before := RecordItem(d, text, init);
      RecordItemProperties(d, text, init);
      RecordWellFormed(before, names[|names| - 1], text);
      RecordKeeps(before, names[|names| - 1], text);
      RecordExtends(before, names[|names| - 1], text);
      ExtendsTransitive(d, before, RecordItem(d, text, names));
    }
  }

  /** After `train`: every (intent, text) pair of the data is recorded, nothing recorded
      before is lost, existing entries keep their order and their examples as a prefix,
      and no intent or example is listed twice. */
  lemma {:induction false} RecordAllProperties(d: seq<IntentInfo>, items: seq<TrainingItem>)
    requires WellFormed(d)
    ensures WellFormed(RecordAll(d, items))
    ensures Extends(d, RecordAll(d, items))
    ensures forall n, t :: Recorded(d, n, t) ==> Recorded(RecordAll(d, items), n, t)
    ensures forall i, k :: 0 <= i < |items| && 0 <= k < |items[i].intents| ==>
              Recorded(RecordAll(d, items), items[i].intents[k], items[i].text)
  {
    if |items| > 0 {
      var init := items[..|items| - 1];
      var last := items[|items| - 1];
      var before := RecordAll(d, init);
      RecordAllProperties(d, init);
      RecordItemProperties(before, last.text, last.intents);
      ExtendsTransitive(d, before, RecordAll(d, items));
      forall i, k | 0 <= i < |items| && 0 <= k < |items[i].intents|
        ensures Recorded(RecordAll(d, items), items[i].intents[k], items[i].text)
      {
        if i < |items| - 1 {
          assert items[i] == init[i];
        }
      }
    }
  }

  // ---------------------------------------------------------------- the classifier object

  /** The vectorizer maps cleaned text to features, the classifier features to one
      probability per class, and the label encoder holds the class names. */
  type Features = seq<real>

  class IntentClassifier {
    var vectorizer: Option<string -> Features>
    var classifier: Option<Features -> seq<real>>
    var labelEncoder: Option<seq<string>>
    var intents: seq<IntentInfo>

    /** The state `_load_models` leaves: each model present only when its file was found. */
    constructor (vectorizer: Option<string -> Features>, classifier: Option<Features -> seq<real>>,
                 labelEncoder: Option<seq<string>>, intents: seq<IntentInfo>)
      ensures this.vectorizer == vectorizer && this.classifier == classifier
      ensures this.labelEncoder == labelEncoder && this.intents == intents
    {
      this.vectorizer := vectorizer;
      this.classifier := classifier;
      this.labelEncoder := labelEncoder;
      this.intents := intents;
    }

    predicate Loaded()
      reads this
    {
      vectorizer.Some? && classifier.Some? && labelEncoder.Some?
    }

    /** The classifier's probability row for a text: computed on the cleaned text. */
    function Row(text: string): seq<real>
      reads this
      requires Loaded()
    {
      classifier.value(vectorizer.value(Preprocess(text)))
    }

    /** `predict`: the error map when any model is missing; otherwise the filter loop,
        the stable descending sort and the first five. The label encoder's classes are
        distinct and the row has one probability per class. */
    method Predict(text: string, threshold: real) returns (r: Intents)
      requires Loaded() ==> |Row(text)| == |labelEncoder.value| && DistinctStrings(labelEncoder.value)
      ensures !Loaded() ==> r == Intents(Some(NotLoaded), [])
      ensures Loaded() ==> r == Intents(None, Predicted(labelEncoder.value, Row(text), threshold))
    {
      if classifier.None? || vectorizer.None? || labelEncoder.None? {
        return Intents(Some(NotLoaded), []);
      }
      var cleaned := Preprocess(text);
      var proba := classifier.value(vectorizer.value(cleaned));
      var labels := labelEncoder.value;
      var results: seq<Entry> := [];
      for i := 0 to |labels|
        invariant results == Selected(labels, proba, threshold, i)
      {
        var score := proba[i];
        if labels[i] == SuicidalContent && score >= SuicideThreshold {
          results := results + [Entry(labels[i], score)];
        } else if score >= threshold {
          results := results + [Entry(labels[i], score)];
        }
      }
      r := Intents(None, Top(SortDesc(results)));
    }

    /** `analyze_response`: prediction at the default threshold, the risk override,
        relevance and follow-ups. `symptoms` are the symptom types the entity
        extractor reports for the text. */
    method AnalyzeResponse(text: string, symptoms: seq<string>) returns (a: Analysis)
      requires Loaded() ==> |Row(text)| == |labelEncoder.value| && DistinctStrings(labelEncoder.value)
      ensures var risk := CheckSuicideRisk(text, symptoms);
              var predicted := if Loaded() then Intents(None, Predicted(labelEncoder.value, Row(text), DefaultThreshold))
                               else Intents(Some(NotLoaded), []);
              var intents := WithRiskOverride(predicted, risk);
              a == Analysis(text, intents, symptoms, ClinicalRelevance(intents.scores, symptoms), risk,
                            SuggestFollowups(intents.scores, symptoms, risk))
    {
      var intents := Predict(text, DefaultThreshold);
      var risk := CheckSuicideRisk(text, symptoms);
      if risk && !HasKey(intents.scores, SuicidalContent) {
        intents := intents.(scores := intents.scores + [Entry(SuicidalContent, 0.85)]);
      }
      var relevance := AssessClinicalRelevance(intents.scores, symptoms);
      a := Analysis(text, intents, symptoms, relevance, risk, SuggestFollowups(intents.scores, symptoms, risk));
    }

    /** The intents-dictionary part of `train`; the fitted vectorizer, classifier and
        label encoder come from the training library. */
    method Train(items: seq<TrainingItem>, fittedVectorizer: string -> Features,
                 fittedClassifier: Features -> seq<real>, classes: seq<string>)
      modifies this
      ensures intents == RecordAll(old(intents), items)
      ensures vectorizer == Some(fittedVectorizer) && classifier == Some(fittedClassifier)
      ensures labelEncoder == Some(classes)
    {
      for i := 0 to |items|
        invariant intents == RecordAll(old(intents), items[..i])
      {
        assert items[..i + 1][..i] == items[..i];
        var names := items[i].intents;
        var start := intents;
        for k := 0 to |names|
          invariant intents == RecordItem(start, items[i].text, names[..k])
        {
          assert names[..k + 1][..k] == names[..k];
          intents := Record(intents, names[k], items[i].text);
        }
        assert names[..|names|] == names;
      }
      assert items[..|items|] == items;
      vectorizer := Some(fittedVectorizer);
      classifier := Some(fittedClassifier);
      labelEncoder := Some(classes);
    }
  }
}
