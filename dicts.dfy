/** Python dicts from labels to scores, as the core uses them: insertion-ordered
    association lists with distinct keys. Iteration order matters to the core,
    because `max(d.items(), key=...)` keeps the FIRST maximal entry. */
module Dicts {

  datatype Entry = Entry(key: string, value: real)

  function Keys(d: seq<Entry>): (ks: seq<string>)
    ensures |ks| == |d| && forall i :: 0 <= i < |d| ==> ks[i] == d[i].key
  {
    seq(|d|, i requires 0 <= i < |d| => d[i].key)
  }

  predicate HasKey(d: seq<Entry>, k: string)
  {
    exists i :: 0 <= i < |d| && d[i].key == k
  }

  lemma HasKeyIffInKeys(d: seq<Entry>, k: string)
    ensures HasKey(d, k) <==> k in Keys(d)
  {
    if HasKey(d, k) {
      var i :| 0 <= i < |d| && d[i].key == k;
      assert Keys(d)[i] == k;
    }
    if k in Keys(d) {
      var i :| 0 <= i < |Keys(d)| && Keys(d)[i] == k;
      assert d[i].key == k;
    }
  }

  predicate DistinctKeys(d: seq<Entry>)
  {
    forall i, j :: 0 <= i < j < |d| ==> d[i].key != d[j].key
  }

  /** `d.get(k, default)` */
  function Get(d: seq<Entry>, k: string, default: real): (v: real)
    ensures !HasKey(d, k) ==> v == default
    ensures forall i :: 0 <= i < |d| && d[i].key == k && (forall j :: 0 <= j < i ==> d[j].key != k) ==> v == d[i].value
  {
    if |d| == 0 then default
    else if d[0].key == k then d[0].value
    else
      assert forall i :: 1 <= i < |d| && d[i].key == k ==> d[1..][i - 1].key == k;
      Get(d[1..], k, default)
  }

  /** `sum(d.values())` */
  function Sum(d: seq<Entry>): real
  {
    if |d| == 0 then 0.0 else d[0].value + Sum(d[1..])
  }

  predicate NonNegative(d: seq<Entry>)
  {
    forall i :: 0 <= i < |d| ==> d[i].value >= 0.0
  }

  lemma {:induction false} SumNonNegative(d: seq<Entry>)
    requires NonNegative(d)
    ensures Sum(d) >= 0.0
  {
    if |d| > 0 {
      SumNonNegative(d[1..]);
    }
  }

  lemma {:induction false} SumAppend(d: seq<Entry>, e: Entry)
    ensures Sum(d + [e]) == Sum(d) + e.value
  {
    if |d| > 0 {
      assert (d + [e])[1..] == d[1..] + [e];
      SumAppend(d[1..], e);
    }
  }

  lemma Sum5(a: Entry, b: Entry, c: Entry, d: Entry, e: Entry)
    ensures Sum([a, b, c, d, e]) == a.value + b.value + c.value + d.value + e.value
  {
    assert [a, b, c, d, e][1..] == [b, c, d, e];
    assert [b, c, d, e][1..] == [c, d, e];
    assert [c, d, e][1..] == [d, e];
    assert [d, e][1..] == [e];
    assert Sum([e]) == e.value;
    assert Sum([d, e]) == d.value + e.value;
    assert Sum([c, d, e]) == c.value + d.value + e.value;
    assert Sum([b, c, d, e]) == b.value + c.value + d.value + e.value;
  }

  /** Every value divided by `total`: the `for k in d: d[k] /= total` loop. */
  function Scale(d: seq<Entry>, total: real): (r: seq<Entry>)
    requires total != 0.0
    ensures |r| == |d| && Keys(r) == Keys(d)
    ensures forall i :: 0 <= i < |d| ==> r[i] == Entry(d[i].key, d[i].value / total)
  {
    seq(|d|, i requires 0 <= i < |d| => Entry(d[i].key, d[i].value / total))
  }

  lemma {:induction false} SumScale(d: seq<Entry>, total: real)
    requires total != 0.0
    ensures Sum(Scale(d, total)) == Sum(d) / total
  {
    if |d| > 0 {
      SumScale(d[1..], total);
      assert Scale(d, total)[1..] == Scale(d[1..], total);
    }
  }

  lemma DivNonNegative(x: real, t: real)
    requires x >= 0.0 && t > 0.0
    ensures x / t >= 0.0
  {
  }

  lemma DivSelf(t: real)
    requires t > 0.0
    ensures t / t == 1.0
  {
  }

  /** Dividing by a positive total equal to the sum gives a distribution. */
  lemma NormalisedIsDistribution(d: seq<Entry>)
    requires NonNegative(d) && Sum(d) > 0.0
    ensures NonNegative(Scale(d, Sum(d)))
    ensures Sum(Scale(d, Sum(d))) == 1.0
  {
    var t := Sum(d);
    var r := Scale(d, t);
    SumScale(d, t);
    DivSelf(t);
    forall i | 0 <= i < |r|
      ensures r[i].value >= 0.0
    {
      DivNonNegative(d[i].value, t);
    }
  }

  /** `total = sum(d.values())` and, when it is positive, every value divided by it. */
  function Normalised(d: seq<Entry>): (r: seq<Entry>)
    ensures Keys(r) == Keys(d)
    ensures NonNegative(d) && Sum(d) > 0.0 ==> NonNegative(r) && Sum(r) == 1.0
    ensures Sum(d) <= 0.0 ==> r == d
  {
    if Sum(d) > 0.0 then
      if NonNegative(d) then NormalisedIsDistribution(d); Scale(d, Sum(d))
      else Scale(d, Sum(d))
    else d
  }

  /** The normalising loop: `for k in d: d[k] = d[k] / total`, run only when `total > 0`. */
  method Normalise(d: seq<Entry>) returns (r: seq<Entry>)
    ensures r == Normalised(d)
  {
    r := d;
    var total := Sum(d);
    if total > 0.0 {
      var i := 0;
      while i < |r|
        invariant 0 <= i <= |r| == |d|
        invariant forall j :: 0 <= j < i ==> r[j] == Entry(d[j].key, d[j].value / total)
        invariant forall j :: i <= j < |r| ==> r[j] == d[j]
      {
        r := r[i := Entry(r[i].key, r[i].value / total)];
        i := i + 1;
      }
    }
  }

  /** Index of the entry `max(d.items(), key=lambda x: x[1])` returns:
      a maximal value, and no earlier entry reaches it. */
  function ArgMax(d: seq<Entry>): (i: nat)
    requires |d| > 0
    ensures i < |d|
    ensures forall j :: 0 <= j < |d| ==> d[j].value <= d[i].value
    ensures forall j :: 0 <= j < i ==> d[j].value < d[i].value
  {
    ArgMaxFrom(d, 0, 1)
  }

  /** The left-to-right scan of `max`: `best` is the first maximum of `d[..k]`. */
  function ArgMaxFrom(d: seq<Entry>, best: nat, k: nat): (i: nat)
    requires best < k <= |d|
    requires forall j :: 0 <= j < k ==> d[j].value <= d[best].value
    requires forall j :: 0 <= j < best ==> d[j].value < d[best].value
    ensures i < |d|
    ensures forall j :: 0 <= j < |d| ==> d[j].value <= d[i].value
    ensures forall j :: 0 <= j < i ==> d[j].value < d[i].value
    decreases |d| - k
  {
    if k == |d| then best
    else if d[k].value > d[best].value then ArgMaxFrom(d, k, k + 1)
    else ArgMaxFrom(d, best, k + 1)
  }

  /** `d[k] = d.get(k, 0) + delta`: update in place, or append a new key at the end. */
  function AddTo(d: seq<Entry>, k: string, delta: real): (r: seq<Entry>)
    ensures HasKey(d, k) ==> |r| == |d|
    ensures !HasKey(d, k) ==> r == d + [Entry(k, delta)]
    ensures forall i :: 0 <= i < |d| ==> r[i].key == d[i].key
    ensures forall i :: 0 <= i < |d| && d[i].key != k ==> r[i] == d[i]
  {
    if |d| == 0 then [Entry(k, delta)]
    else if d[0].key == k then [Entry(k, d[0].value + delta)] + d[1..]
    else
      assert HasKey(d, k) ==> HasKey(d[1..], k) by {
        if HasKey(d, k) {
          var i :| 0 <= i < |d| && d[i].key == k;
          assert d[1..][i - 1].key == k;
        }
      }
      [d[0]] + AddTo(d[1..], k, delta)
  }

  /** With `k` first found at index `i`, adding under `k` updates exactly that entry. */
  lemma {:induction false} AddToAt(d: seq<Entry>, i: nat, k: string, delta: real)
    requires i < |d| && d[i].key == k
    requires forall j :: 0 <= j < i ==> d[j].key != k
    ensures AddTo(d, k, delta) == d[i := Entry(k, d[i].value + delta)]
  {
    if i > 0 {
      AddToAt(d[1..], i - 1, k, delta);
      assert d[1..][i - 1 := Entry(k, d[i].value + delta)] == d[i := Entry(k, d[i].value + delta)][1..];
    }
  }

  /** Adding under a key keeps the keys distinct. */
  lemma AddToDistinct(d: seq<Entry>, k: string, delta: real)
    requires DistinctKeys(d)
    ensures DistinctKeys(AddTo(d, k, delta))
  {
    var r := AddTo(d, k, delta);
    if !HasKey(d, k) {
      forall i, j | 0 <= i < j < |r|
        ensures r[i].key != r[j].key
      {
        if j == |d| {
          assert !(d[i].key == k);
        }
      }
    }
  }

  /** With distinct keys, `get` of an entry's key is that entry's value. */
  lemma GetDistinct(d: seq<Entry>, i: nat)
    requires DistinctKeys(d) && i < |d|
    ensures Get(d, d[i].key, 0.0) == d[i].value
  {
  }

  lemma AddToHasKey(d: seq<Entry>, k: string, delta: real)
    ensures HasKey(AddTo(d, k, delta), k)
  {
    var r := AddTo(d, k, delta);
    if HasKey(d, k) {
      var i :| 0 <= i < |d| && d[i].key == k;
      assert r[i].key == k;
    } else {
      assert r[|d|].key == k;
    }
  }

  lemma {:induction false} AddToGetSame(d: seq<Entry>, k: string, delta: real)
    ensures Get(AddTo(d, k, delta), k, 0.0) == Get(d, k, 0.0) + delta
  {
    if |d| > 0 && d[0].key != k {
      AddToGetSame(d[1..], k, delta);
      assert AddTo(d, k, delta)[1..] == AddTo(d[1..], k, delta);
    }
  }

  lemma {:induction false} AddToGetOther(d: seq<Entry>, k: string, delta: real, k': string)
    requires k' != k
    ensures Get(AddTo(d, k, delta), k', 0.0) == Get(d, k', 0.0)
  {
    if |d| > 0 && d[0].key != k {
      AddToGetOther(d[1..], k, delta, k');
      assert AddTo(d, k, delta)[1..] == AddTo(d[1..], k, delta);
    } else if |d| > 0 {
      assert AddTo(d, k, delta)[1..] == d[1..];
    }
  }

  lemma {:induction false} AddToSum(d: seq<Entry>, k: string, delta: real)
    ensures Sum(AddTo(d, k, delta)) == Sum(d) + delta
  {
    if |d| > 0 && d[0].key != k {
      AddToSum(d[1..], k, delta);
      assert AddTo(d, k, delta)[1..] == AddTo(d[1..], k, delta);
    } else if |d| > 0 {
      assert AddTo(d, k, delta)[1..] == d[1..];
    }
  }

  /** Adding `delta` under `k` raises the value `get` reports for `k` by `delta`,
      leaves every other key's value alone, and raises the total by `delta`. */
  lemma AddToGet(d: seq<Entry>, k: string, delta: real)
    ensures HasKey(AddTo(d, k, delta), k)
    ensures Get(AddTo(d, k, delta), k, 0.0) == Get(d, k, 0.0) + delta
    ensures forall k' :: k' != k ==> Get(AddTo(d, k, delta), k', 0.0) == Get(d, k', 0.0)
    ensures Sum(AddTo(d, k, delta)) == Sum(d) + delta
  {
    AddToHasKey(d, k, delta);
    AddToGetSame(d, k, delta);
    AddToSum(d, k, delta);
    forall k' | k' != k
      ensures Get(AddTo(d, k, delta), k', 0.0) == Get(d, k', 0.0)
    {
      AddToGetOther(d, k, delta, k');
    }
  }
}
