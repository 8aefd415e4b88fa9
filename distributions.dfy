/**
 * The `Dict[str, float]` of per-specialist weights.  A Python dict keeps
 * insertion order and has distinct keys, so it is a sequence of pairs with
 * distinct keys here.
 */
module Distributions {

  predicate DistinctKeys(d: seq<(string, real)>) {
    forall i, j | 0 <= i < j < |d| :: d[i].0 != d[j].0
  }

  type Distribution = d: seq<(string, real)> | DistinctKeys(d) witness []

  predicate Distinct(ks: seq<string>) {
    forall i, j | 0 <= i < j < |ks| :: ks[i] != ks[j]
  }

  /** `list(d.keys())`. */
  function Keys(d: seq<(string, real)>): (ks: seq<string>)
    ensures |ks| == |d|
    ensures forall i | 0 <= i < |d| :: ks[i] == d[i].0
  {
    if d == [] then [] else [d[0].0] + Keys(d[1..])
  }

  lemma KeysAppend(d: seq<(string, real)>, e: (string, real))
    ensures Keys(d + [e]) == Keys(d) + [e.0]
  {
    var a, b := Keys(d + [e]), Keys(d) + [e.0];
    forall i | 0 <= i < |a|
      ensures a[i] == b[i]
    {
      if i < |d| {
        assert (d + [e])[i] == d[i];
      }
    }
  }

  lemma KeysDistinct(d: Distribution)
    ensures Distinct(Keys(d))
  {
  }

  /** `d.get(k, 0.0)`. */
  function Get(d: seq<(string, real)>, k: string): real {
    if d == [] then 0.0 else if d[0].0 == k then d[0].1 else Get(d[1..], k)
  }

  lemma {:induction false} GetAbsent(d: seq<(string, real)>, k: string)
    requires k !in Keys(d)
    ensures Get(d, k) == 0.0
  {
    if d != [] {
      GetAbsent(d[1..], k);
    }
  }

  lemma {:induction false} GetAt(d: Distribution, i: nat)
    requires i < |d|
    ensures Get(d, d[i].0) == d[i].1
  {
    if i > 0 {
      GetAt(d[1..], i - 1);
    }
  }

  /** Looking a key up after appending a pair finds the old value first, then the new one. */
  lemma {:induction false} GetAppend(d: seq<(string, real)>, k: string, v: real, x: string)
    ensures Get(d + [(k, v)], x) == if x in Keys(d) then Get(d, x) else if x == k then v else 0.0
  {
    if d == [] {
      assert [(k, v)][1..] == [];
    } else {
      assert (d + [(k, v)])[1..] == d[1..] + [(k, v)];
      GetAppend(d[1..], k, v, x);
    }
  }

  /** `sum(d.values())`. */
  function Total(d: seq<(string, real)>): real {
    if d == [] then 0.0 else d[0].1 + Total(d[1..])
  }

  lemma {:induction false} TotalAppend(d: seq<(string, real)>, e: (string, real))
    ensures Total(d + [e]) == Total(d) + e.1
  {
    if d != [] {
      assert (d + [e])[1..] == d[1..] + [e];
      TotalAppend(d[1..], e);
    }
  }

  predicate NonNegative(d: seq<(string, real)>) {
    forall i | 0 <= i < |d| :: d[i].1 >= 0.0
  }

  predicate WithinUnit(d: seq<(string, real)>) {
    forall i | 0 <= i < |d| :: 0.0 <= d[i].1 <= 1.0
  }

  lemma {:induction false} TotalNonNegative(d: seq<(string, real)>)
    requires NonNegative(d)
    ensures Total(d) >= 0.0
    ensures forall i | 0 <= i < |d| :: d[i].1 <= Total(d)
  {
    if d != [] {
      TotalNonNegative(d[1..]);
      assert forall i | 1 <= i < |d| :: d[i].1 == d[1..][i - 1].1;
    }
  }

  lemma Total4(d: seq<(string, real)>)
    requires |d| == 4
    ensures Total(d) == d[0].1 + d[1].1 + d[2].1 + d[3].1
  {
    var d1 := d[1..];
    var d2 := d1[1..];
    var d3 := d2[1..];
    assert d3[1..] == [];
    assert Total(d3) == d[3].1;
    assert Total(d2) == d[2].1 + d[3].1;
    assert Total(d1) == d[1].1 + d[2].1 + d[3].1;
  }

  /** Non-negative weights sum to 0 exactly when every weight is 0. */
  lemma {:induction false} TotalZero(d: seq<(string, real)>)
    requires NonNegative(d)
    ensures Total(d) == 0.0 <==> forall i | 0 <= i < |d| :: d[i].1 == 0.0
  {
    if d != [] {
      TotalZero(d[1..]);
      TotalNonNegative(d[1..]);
      assert forall i | 1 <= i < |d| :: d[i].1 == d[1..][i - 1].1;
    }
  }

  /** `max(d.values())`. */
  function MaxValue(d: seq<(string, real)>): (m: real)
    requires d != []
    ensures forall i | 0 <= i < |d| :: d[i].1 <= m
    ensures exists i | 0 <= i < |d| :: d[i].1 == m
  {
    if |d| == 1 then d[0].1
    else
      var rest := MaxValue(d[1..]);
      assert forall i | 1 <= i < |d| :: d[i].1 == d[1..][i - 1].1;
      if d[0].1 >= rest then d[0].1 else rest
  }

  lemma AverageStep(b: real, x: real, t: real, n: real)
    requires b >= x && b * n >= t
    ensures b * (n + 1.0) >= x + t
  {
  }

  /** A bound on every weight, times the number of weights, bounds the total. */
  lemma {:induction false} TotalAtMost(d: seq<(string, real)>, b: real)
    requires forall i | 0 <= i < |d| :: d[i].1 <= b
    ensures b * (|d| as real) >= Total(d)
  {
    if d != [] {
      var r := d[1..];
      assert forall i | 0 <= i < |r| :: r[i].1 == d[i + 1].1;
      TotalAtMost(r, b);
      AverageStep(b, d[0].1, Total(r), |r| as real);
      assert |r| as real + 1.0 == |d| as real;
    }
  }

  /** Some weight reaches `t`: the test `max(d.values()) >= t`. */
  predicate SomeAtLeast(d: seq<(string, real)>, t: real) {
    exists i | 0 <= i < |d| :: d[i].1 >= t
  }

  lemma SomeAtLeastIsMax(d: seq<(string, real)>, t: real)
    requires d != []
    ensures SomeAtLeast(d, t) <==> MaxValue(d) >= t
  {
  }

  /** `k` is a key whose weight no other weight exceeds. */
  predicate IsLeading(k: string, d: seq<(string, real)>) {
    k in Keys(d) && forall i | 0 <= i < |d| :: d[i].1 <= Get(d, k)
  }

  /** The sum of `d.get(k, 0.0)` over the listed keys. */
  function SumGet(ks: seq<string>, d: seq<(string, real)>): real {
    if ks == [] then 0.0 else Get(d, ks[0]) + SumGet(ks[1..], d)
  }

  lemma {:induction false} SumGetConcat(xs: seq<string>, ys: seq<string>, d: seq<(string, real)>)
    ensures SumGet(xs + ys, d) == SumGet(xs, d) + SumGet(ys, d)
  {
    if xs != [] {
      assert (xs + ys)[1..] == xs[1..] + ys;
      SumGetConcat(xs[1..], ys, d);
    } else {
      assert xs + ys == ys;
    }
  }

  lemma {:induction false} SumGetAbsent(ks: seq<string>, d: seq<(string, real)>)
    requires forall i | 0 <= i < |ks| :: ks[i] !in Keys(d)
    ensures SumGet(ks, d) == 0.0
  {
    if ks != [] {
      GetAbsent(d, ks[0]);
      SumGetAbsent(ks[1..], d);
    }
  }

  lemma {:induction false} SumGetTail(ks: seq<string>, d: seq<(string, real)>)
    requires d != [] && d[0].0 !in ks
    ensures SumGet(ks, d) == SumGet(ks, d[1..])
  {
    if ks != [] {
      SumGetTail(ks[1..], d);
    }
  }

  /** Summing a distribution's own keys gives its total. */
  lemma {:induction false} SumGetKeys(d: Distribution)
    ensures SumGet(Keys(d), d) == Total(d)
  {
    if d != [] {
      var r: Distribution := d[1..];
      assert Keys(d) == [d[0].0] + Keys(r);
      assert d[0].0 !in Keys(r);
      SumGetTail(Keys(r), d);
      SumGetKeys(r);
    }
  }

  /**
   * Two duplicate-free key lists that agree on which keys of `d` they list
   * give the same sum, whatever their order and whatever else they list.
   */
  lemma {:induction false} SumGetSameSupport(xs: seq<string>, ys: seq<string>, d: seq<(string, real)>)
    requires Distinct(xs) && Distinct(ys)
    requires forall k | k in Keys(d) :: k in xs <==> k in ys
    ensures SumGet(xs, d) == SumGet(ys, d)
    decreases |xs|
  {
    if xs == [] {
      SumGetAbsent(ys, d);
    } else {
      var x, xs' := xs[0], xs[1..];
      assert Distinct(xs') && x !in xs' by {
        assert forall j | 0 <= j < |xs'| :: xs'[j] == xs[j + 1];
      }
      if x in ys {
        var i :| 0 <= i < |ys| && ys[i] == x;
        var ys' := ys[..i] + ys[i + 1..];
        RemoveAt(ys, i);
        assert SumGet(ys, d) == Get(d, x) + SumGet(ys', d) by {
          assert ys == ys[..i] + [x] + ys[i + 1..];
          SumGetConcat(ys[..i] + [x], ys[i + 1..], d);
          SumGetConcat(ys[..i], [x], d);
          SumGetConcat(ys[..i], ys[i + 1..], d);
        }
        SumGetSameSupport(xs', ys', d);
      } else {
        GetAbsent(d, x);
        SumGetSameSupport(xs', ys, d);
      }
    }
  }

  /** Removing the entry at `i` from a duplicate-free list removes exactly that key. */
  lemma RemoveAt(ks: seq<string>, i: nat)
    requires Distinct(ks) && i < |ks|
    ensures Distinct(ks[..i] + ks[i + 1..])
    ensures forall k :: k in ks[..i] + ks[i + 1..] <==> k in ks && k != ks[i]
  {
    var r := ks[..i] + ks[i + 1..];
    assert forall j | 0 <= j < |r| :: r[j] == if j < i then ks[j] else ks[j + 1];
    assert forall k | k in ks && k != ks[i] :: k in r by {
      forall k | k in ks && k != ks[i]
        ensures k in r
      {
        var j :| 0 <= j < |ks| && ks[j] == k;
        if j < i {
          assert r[j] == k;
        } else {
          assert r[j - 1] == k;
        }
      }
    }
  }

  /** `max(0.0, min(1.0, x))`. */
  function Clamp01(x: real): (r: real)
    ensures 0.0 <= r <= 1.0
    ensures 0.0 <= x <= 1.0 ==> r == x
  {
    if x < 0.0 then 0.0 else if x > 1.0 then 1.0 else x
  }

  /** `d` with a new key `k` appended. */
  function AppendFresh(d: Distribution, k: string, v: real): (r: Distribution)
    requires k !in Keys(d)
    ensures r == d + [(k, v)]
  {
    var r := d + [(k, v)];
    assert forall i | 0 <= i < |d| :: r[i].0 == Keys(d)[i];
    r
  }

  /** `{k: v / t for k, v in d.items()}`. */
  function Scale(d: Distribution, t: real): (r: Distribution)
    requires t != 0.0
    ensures |r| == |d|
    ensures forall i | 0 <= i < |d| :: r[i] == (d[i].0, d[i].1 / t)
  {
    if d == [] then []
    else
      var rest := Scale(d[1..], t);
      assert forall i | 0 <= i < |rest| :: rest[i].0 == d[i + 1].0;
      [(d[0].0, d[0].1 / t)] + rest
  }

  /** `{k: max(0.0, min(1.0, v / t)) for k, v in d.items()}`. */
  function DivideClamped(d: Distribution, t: real): (r: Distribution)
    requires t != 0.0
    ensures |r| == |d|
    ensures forall i | 0 <= i < |d| :: r[i] == (d[i].0, Clamp01(d[i].1 / t))
  {
    if d == [] then []
    else
      var rest := DivideClamped(d[1..], t);
      assert forall i | 0 <= i < |rest| :: rest[i].0 == d[i + 1].0;
      [(d[0].0, Clamp01(d[0].1 / t))] + rest
  }

  lemma DivAdd(a: real, b: real, t: real)
    requires t != 0.0
    ensures a / t + b / t == (a + b) / t
  {
  }

  lemma DivSelf(t: real)
    requires t != 0.0
    ensures t / t == 1.0
  {
  }

  lemma DivWithinUnit(v: real, t: real)
    requires 0.0 <= v <= t && t > 0.0
    ensures 0.0 <= v / t <= 1.0
  {
  }

  /** Dividing every weight by `t` divides the total by `t`. */
  lemma {:induction false} ScaleTotal(d: Distribution, t: real)
    requires t != 0.0
    ensures Total(Scale(d, t)) == Total(d) / t
  {
    if d != [] {
      var r := Scale(d, t);
      assert r[1..] == Scale(d[1..], t);
      ScaleTotal(d[1..], t);
      DivAdd(d[0].1, Total(d[1..]), t);
    }
  }

  /** Dividing non-negative weights by their positive total makes them sum to 1, each in [0, 1]. */
  lemma Normalized(d: Distribution)
    requires NonNegative(d) && Total(d) > 0.0
    ensures Total(Scale(d, Total(d))) == 1.0
    ensures WithinUnit(Scale(d, Total(d)))
  {
    ScaleTotal(d, Total(d));
    DivSelf(Total(d));
    TotalNonNegative(d);
    forall i | 0 <= i < |d|
      ensures 0.0 <= Scale(d, Total(d))[i].1 <= 1.0
    {
      DivWithinUnit(d[i].1, Total(d));
    }
  }

  /** On non-negative weights and their positive total the clamp changes nothing. */
  lemma DivideClampedIsScale(d: Distribution)
    requires NonNegative(d) && Total(d) > 0.0
    ensures DivideClamped(d, Total(d)) == Scale(d, Total(d))
  {
    Normalized(d);
  }
}
