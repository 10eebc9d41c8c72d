/** String operations the core relies on: ASCII lower-casing (`str.lower`),
    substring search (`x in s`), whitespace stripping (`str.strip`) and
    splitting on a set of separator characters (`re.split(r'[,;]', s)`). */
module Text {

  datatype Option<T> = None | Some(value: T)

  predicate IsUpper(c: char) { 'A' <= c <= 'Z' }

  function LowerChar(c: char): (r: char)
    ensures !IsUpper(r)
    ensures !IsUpper(c) ==> r == c
  {
    if IsUpper(c) then (c as int + 32) as char else c
  }

  /** `s.lower()` restricted to ASCII letters. */
  function Lower(s: string): (r: string)
    ensures |r| == |s|
    ensures forall i :: 0 <= i < |s| ==> r[i] == LowerChar(s[i])
  {
    seq(|s|, i requires 0 <= i < |s| => LowerChar(s[i]))
  }

  predicate IsLower(s: string) { forall i :: 0 <= i < |s| ==> !IsUpper(s[i]) }

  lemma LowerIsLower(s: string)
    ensures IsLower(Lower(s))
    ensures IsLower(s) ==> Lower(s) == s
  {
  }

  /** The characters `str.isspace` accepts in the ASCII range. */
  predicate IsSpace(c: char)
  {
    c == ' ' || c == '\t' || c == '\n' || c == '\r' || c == '\U{0B}' || c == '\U{0C}'
    || ('\U{1C}' <= c <= '\U{1F}')
  }

  predicate StartsWith(s: string, p: string)
  {
    |p| <= |s| && s[..|p|] == p
  }

  /** Python's `p in s` for strings. */
  function Contains(s: string, p: string): bool
    decreases |s|
  {
    if StartsWith(s, p) then true
    else if |s| == 0 then false
    else Contains(s[1..], p)
  }

  /** An occurrence of `p` at position `i` makes `Contains` true. */
  lemma {:induction false} ContainsAt(s: string, p: string, i: nat)
    requires i + |p| <= |s| && s[i..i + |p|] == p
    ensures Contains(s, p)
    decreases i
  {
    if i > 0 && !StartsWith(s, p) {
      assert s[1..][i - 1..i - 1 + |p|] == s[i..i + |p|];
      ContainsAt(s[1..], p, i - 1);
    }
  }

  /** `any(w in s for w in words)` */
  predicate ContainsAny(s: string, words: seq<string>)
  {
    exists k :: 0 <= k < |words| && Contains(s, words[k])
  }

  function TrimStart(s: string): (r: string)
    ensures |r| <= |s| && r == s[|s| - |r|..]
    ensures r == [] || !IsSpace(r[0])
    ensures forall i :: 0 <= i < |s| - |r| ==> IsSpace(s[i])
  {
    if |s| > 0 && IsSpace(s[0]) then TrimStart(s[1..]) else s
  }

  function TrimEnd(s: string): (r: string)
    ensures |r| <= |s| && r == s[..|r|]
    ensures r == [] || !IsSpace(r[|r| - 1])
    ensures forall i :: |r| <= i < |s| ==> IsSpace(s[i])
  {
    if |s| > 0 && IsSpace(s[|s| - 1]) then TrimEnd(s[..|s| - 1]) else s
  }

  /** `s.strip()`: the longest infix of `s` that neither starts nor ends with whitespace. */
  function Strip(s: string): (r: string)
    ensures r == [] || (!IsSpace(r[0]) && !IsSpace(r[|r| - 1]))
    ensures |r| <= |s|
    ensures (forall i :: 0 <= i < |s| ==> IsSpace(s[i])) ==> r == []
  {
    TrimEnd(TrimStart(s))
  }

  /** The characters of `s` that are not whitespace, in their order. */
  function NonSpace(s: string): (r: string)
    ensures |r| <= |s|
    ensures forall i :: 0 <= i < |r| ==> !IsSpace(r[i])
  {
    if |s| == 0 then [] else (if IsSpace(s[0]) then [] else [s[0]]) + NonSpace(s[1..])
  }

  lemma {:induction false} NonSpaceAppend(a: string, b: string)
    ensures NonSpace(a + b) == NonSpace(a) + NonSpace(b)
  {
    if |a| == 0 {
      assert a + b == b;
    } else {
      assert (a + b)[1..] == a[1..] + b;
      NonSpaceAppend(a[1..], b);
    }
  }

  /** Trimming the front removes whitespace only. */
  lemma {:induction false} NonSpaceTrimStart(s: string)
    ensures NonSpace(TrimStart(s)) == NonSpace(s)
  {
    if |s| > 0 && IsSpace(s[0]) {
      NonSpaceTrimStart(s[1..]);
    }
  }

  /** Trimming the end removes whitespace only. */
  lemma {:induction false} NonSpaceTrimEnd(s: string)
    ensures NonSpace(TrimEnd(s)) == NonSpace(s)
  {
    if |s| > 0 && IsSpace(s[|s| - 1]) {
      var init := s[..|s| - 1];
      NonSpaceTrimEnd(init);
      NonSpaceAppend(init, [s[|s| - 1]]);
      assert init + [s[|s| - 1]] == s;
      assert NonSpace([s[|s| - 1]]) == [] + NonSpace([]);
    }
  }

  /** `strip` removes whitespace only: every other character survives, in order. */
  lemma NonSpaceStrip(s: string)
    ensures NonSpace(Strip(s)) == NonSpace(s)
  {
    NonSpaceTrimStart(s);
    NonSpaceTrimEnd(TrimStart(s));
  }

  /** What `strip` keeps is one contiguous infix of its input. */
  lemma StripInfix(s: string) returns (a: nat)
    ensures a + |Strip(s)| <= |s| && Strip(s) == s[a..a + |Strip(s)|]
  {
    var t := TrimStart(s);
    var r := TrimEnd(t);
    assert Strip(s) == r;
    a := |s| - |t|;
    PrefixOfSuffix(s, t, r);
  }

  /** A prefix of a suffix is an infix. */
  lemma PrefixOfSuffix(s: string, t: string, r: string)
    requires |t| <= |s| && t == s[|s| - |t|..]
    requires |r| <= |t| && r == t[..|r|]
    ensures |s| - |t| + |r| <= |s| && r == s[|s| - |t|..|s| - |t| + |r|]
  {
  }

  lemma StripUntouched(s: string)
    requires s == [] || (!IsSpace(s[0]) && !IsSpace(s[|s| - 1]))
    ensures Strip(s) == s
  {
  }

  /** No character of `s` is in `seps`. */
  predicate Avoids(s: string, seps: set<char>)
  {
    forall i :: 0 <= i < |s| ==> s[i] !in seps
  }

  /** `re.split('[' + seps + ']', s)`: the pieces between separator characters.
      There is always one piece more than there are separators. */
  function Split(s: string, seps: set<char>): (pieces: seq<string>)
    ensures |pieces| >= 1
    ensures forall k :: 0 <= k < |pieces| ==> Avoids(pieces[k], seps)
    decreases |s|
  {
    if |s| == 0 then [""]
    else
      var rest := Split(s[1..], seps);
      if s[0] in seps then [""] + rest
      else
        var first := [s[0]] + rest[0];
        assert Avoids(first, seps) by {
          assert Avoids(rest[0], seps);
          assert forall i :: 1 <= i < |first| ==> first[i] == rest[0][i - 1];
        }
        [first] + rest[1..]
  }

  /** A leading non-separator joins the first piece. */
  lemma SplitCons(c: char, s: string, seps: set<char>)
    requires c !in seps
    ensures Split([c] + s, seps) == [[c] + Split(s, seps)[0]] + Split(s, seps)[1..]
  {
    assert ([c] + s)[1..] == s;
  }

  /** Gluing the pieces back with the separators that stood between them gives the input. */
  function Separators(s: string, seps: set<char>): seq<char>
  {
    if |s| == 0 then [] else (if s[0] in seps then [s[0]] else []) + Separators(s[1..], seps)
  }

  function Interleave(pieces: seq<string>, glue: seq<char>): string
    requires |pieces| == |glue| + 1
  {
    if |glue| == 0 then pieces[0] else pieces[0] + [glue[0]] + Interleave(pieces[1..], glue[1..])
  }

  lemma {:induction false} SplitRoundTrip(s: string, seps: set<char>)
    ensures |Split(s, seps)| == |Separators(s, seps)| + 1
    ensures Interleave(Split(s, seps), Separators(s, seps)) == s
    decreases |s|
  {
    if |s| > 0 {
      SplitRoundTrip(s[1..], seps);
      var rest := Split(s[1..], seps);
      var g := Separators(s[1..], seps);
      if s[0] in seps {
        assert Split(s, seps) == [""] + rest;
        assert Separators(s, seps) == [s[0]] + g;
        assert ([""] + rest)[1..] == rest;
        assert ([s[0]] + g)[1..] == g;
        assert s == [s[0]] + s[1..];
      } else {
        assert Separators(s, seps) == g;
        var pieces := [[s[0]] + rest[0]] + rest[1..];
        assert Split(s, seps) == pieces;
        if |g| == 0 {
          assert s == [s[0]] + s[1..];
        } else {
          assert pieces[1..] == rest[1..];
          assert Interleave(rest, g) == rest[0] + [g[0]] + Interleave(rest[1..], g[1..]);
          assert s == [s[0]] + s[1..];
        }
      }
    }
  }

  /** `", ".join(items)` */
  function Join(items: seq<string>, glue: string): (r: string)
    ensures |items| == 1 ==> r == items[0]
  {
    if |items| == 0 then "" else if |items| == 1 then items[0] else items[0] + glue + Join(items[1..], glue)
  }

  /** No character of `s` is whitespace. */
  predicate NoSpace(s: string)
  {
    forall i :: 0 <= i < |s| ==> !IsSpace(s[i])
  }

  /** The length of the run of non-whitespace characters `s` starts with. */
  function WordLength(s: string): (n: nat)
    ensures n <= |s| && NoSpace(s[..n])
    ensures n < |s| ==> IsSpace(s[n])
  {
    if |s| == 0 || IsSpace(s[0]) then 0
    else
      var n := WordLength(s[1..]);
      assert s[..n + 1] == [s[0]] + s[1..][..n];
      n + 1
  }

  /** `s.split()`: the maximal runs of non-whitespace characters, in order. */
  function Words(s: string): seq<string>
    decreases |s|
  {
    var t := TrimStart(s);
    if t == [] then []
    else
      var n := WordLength(t);
      [t[..n]] + Words(t[n..])
  }

  /** Every word is a non-empty run without whitespace. */
  lemma {:induction false} WordsAreWords(s: string)
    ensures forall k :: 0 <= k < |Words(s)| ==> Words(s)[k] != [] && NoSpace(Words(s)[k])
    decreases |s|
  {
    var t := TrimStart(s);
    if t != [] {
      var n := WordLength(t);
      assert n > 0;
      WordsAreWords(t[n..]);
      WordsCons(t[..n], Words(t[n..]));
    }
  }

  lemma WordsCons(w: string, rest: seq<string>)
    requires w != [] && NoSpace(w)
    requires forall k :: 0 <= k < |rest| ==> rest[k] != [] && NoSpace(rest[k])
    ensures forall k :: 0 <= k < |[w] + rest| ==> ([w] + rest)[k] != [] && NoSpace(([w] + rest)[k])
  {
    assert forall k :: 1 <= k < |rest| + 1 ==> ([w] + rest)[k] == rest[k - 1];
  }

  /** Words glued with single blanks neither start nor end with whitespace. */
  lemma {:induction false} JoinWordsEnds(ws: seq<string>)
    requires forall k :: 0 <= k < |ws| ==> ws[k] != [] && NoSpace(ws[k])
    ensures var j := Join(ws, " "); j == [] <==> ws == []
    ensures var j := Join(ws, " "); j != [] ==> !IsSpace(j[0]) && !IsSpace(j[|j| - 1])
  {
    if |ws| >= 2 {
      JoinWordsEnds(ws[1..]);
      var rest := Join(ws[1..], " ");
      assert Join(ws, " ") == ws[0] + " " + rest;
    }
  }

  /** Leading whitespace in front of a text that does not start with any is trimmed away. */
  lemma {:induction false} TrimStartSpaces(a: string, x: string)
    requires forall i :: 0 <= i < |a| ==> IsSpace(a[i])
    requires x == [] || !IsSpace(x[0])
    ensures TrimStart(a + x) == x
  {
    if |a| == 0 {
      assert a + x == x;
    } else {
      assert (a + x)[1..] == a[1..] + x;
      TrimStartSpaces(a[1..], x);
    }
  }

  /** Trailing whitespace after a text that does not end with any is trimmed away. */
  lemma {:induction false} TrimEndSpaces(x: string, b: string)
    requires forall i :: 0 <= i < |b| ==> IsSpace(b[i])
    requires x == [] || !IsSpace(x[|x| - 1])
    ensures TrimEnd(x + b) == x
  {
    if |b| == 0 {
      assert x + b == x;
    } else {
      assert (x + b)[..|x + b| - 1] == x + b[..|b| - 1];
      TrimEndSpaces(x, b[..|b| - 1]);
    }
  }

  /** Stripping whitespace padding off a text that has none at its ends gives the text. */
  lemma StripPadded(a: string, x: string, b: string)
    requires forall i :: 0 <= i < |a| ==> IsSpace(a[i])
    requires forall i :: 0 <= i < |b| ==> IsSpace(b[i])
    requires x == [] || (!IsSpace(x[0]) && !IsSpace(x[|x| - 1]))
    ensures Strip(a + x + b) == x
  {
    if x == [] {
      assert a + x + b == a + b;
      assert forall i :: 0 <= i < |a + b| ==> IsSpace((a + b)[i]);
    } else {
      assert a + x + b == a + (x + b);
      TrimStartSpaces(a, x + b);
      TrimEndSpaces(x, b);
    }
  }

  /** `str(n)` for a natural number. */
  function NatToString(n: nat): (r: string)
    ensures |r| >= 1
    ensures forall i :: 0 <= i < |r| ==> '0' <= r[i] <= '9'
  {
    var d := ['0' + (n % 10) as char];
    if n < 10 then d else NatToString(n / 10) + d
  }

  /** `idx` picks, in strictly increasing positions of `y`, the elements of `x`. */
  ghost predicate Embeds<T>(idx: seq<nat>, x: seq<T>, y: seq<T>)
  {
    && |idx| == |x|
    && (forall i :: 0 <= i < |idx| ==> idx[i] < |y| && x[i] == y[idx[i]])
    && (forall i, j :: 0 <= i < j < |idx| ==> idx[i] < idx[j])
  }

  /** `x` is `y` with some elements left out: the elements of `x` occur in `y` in the
      same order, each occurrence in `y` used at most once. */
  ghost predicate Subsequence<T>(x: seq<T>, y: seq<T>)
  {
    exists idx: seq<nat> :: Embeds(idx, x, y)
  }

  /** Every position moved one place on. */
  function Shifted(idx: seq<nat>): (r: seq<nat>)
    ensures |r| == |idx| && forall i :: 0 <= i < |idx| ==> r[i] == idx[i] + 1
  {
    seq(|idx|, i requires 0 <= i < |idx| => idx[i] + 1)
  }

  lemma SubsequenceEmpty<T>(y: seq<T>)
    ensures Subsequence([], y)
  {
    assert Embeds([], [], y);
  }

  lemma SubsequenceKeep<T>(e: T, x: seq<T>, y: seq<T>)
    requires Subsequence(x, y)
    ensures Subsequence([e] + x, [e] + y)
  {
    var idx :| Embeds(idx, x, y);
    var r := [0] + Shifted(idx);
    assert Embeds(r, [e] + x, [e] + y);
  }

  lemma SubsequenceSkip<T>(e: T, x: seq<T>, y: seq<T>)
    requires Subsequence(x, y)
    ensures Subsequence(x, [e] + y)
  {
    var idx :| Embeds(idx, x, y);
    assert Embeds(Shifted(idx), x, [e] + y);
  }

  /** Subsequences of two parts make a subsequence of the joined parts. */
  lemma SubsequenceAppend<T>(a: seq<T>, b: seq<T>, c: seq<T>, d: seq<T>)
    requires Subsequence(a, b) && Subsequence(c, d)
    ensures Subsequence(a + c, b + d)
  {
    var idx :| Embeds(idx, a, b);
    var jdx :| Embeds(jdx, c, d);
    var r := idx + seq(|jdx|, i requires 0 <= i < |jdx| => jdx[i] + |b|);
    assert Embeds(r, a + c, b + d);
  }

  /** An element kept or left out is a subsequence of that element alone. */
  lemma SubsequenceOne<T>(keep: bool, e: T)
    ensures Subsequence(if keep then [e] else [], [e])
  {
    if keep {
      assert Embeds([0], [e], [e]);
    } else {
      SubsequenceEmpty([e]);
    }
  }

  /** An element kept or left out in front of a subsequence. */
  lemma SubsequenceMaybe<T>(keep: bool, e: T, x: seq<T>, y: seq<T>)
    requires Subsequence(x, y)
    ensures Subsequence((if keep then [e] else []) + x, [e] + y)
  {
    if keep {
      SubsequenceKeep(e, x, y);
    } else {
      assert [] + x == x;
      SubsequenceSkip(e, x, y);
    }
  }

  /** A non-empty sequence is its prefix without the last element, followed by that element. */
  lemma ButLastLast<T>(s: seq<T>)
    requires |s| > 0
    ensures s[..|s| - 1] + [s[|s| - 1]] == s
  {
  }
}
