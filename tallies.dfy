/**
 * The vote and weight tallies of the ensemble: a Python dict from label to
 * a running sum, filled as `d[k] = d.get(k, 0) + w` in input order, and
 * read back with `max(d, key=d.get)` or `max(d.values())`.
 *
 * A dict iterates its keys in insertion order, which for these tallies is
 * the order in which labels are first seen; `max` keeps the first of
 * several equal maxima. Weights are exact reals: vote counts are whole
 * numbers held as reals, and summed float weights are not rounded.
 */
module Tallies {

  // ---------------------------------------------------------------------
  // Specification over the input labels

  /** The sum of the weights of the occurrences of x. */
  function Total(labels: seq<string>, weights: seq<real>, x: string): real
    requires |labels| == |weights|
  {
    if labels == [] then 0.0
    else
      var n := |labels| - 1;
      Total(labels[..n], weights[..n], x) + (if labels[n] == x then weights[n] else 0.0)
  }

  lemma {:induction false} TotalAbsent(labels: seq<string>, weights: seq<real>, x: string)
    requires |labels| == |weights| && x !in labels
    ensures Total(labels, weights, x) == 0.0
  {
    if labels != [] {
      var n := |labels| - 1;
      assert labels[..n] <= labels;
      TotalAbsent(labels[..n], weights[..n], x);
    }
  }

  /** The number of occurrences of x. */
  function Count(labels: seq<string>, x: string): nat {
    if labels == [] then 0
    else Count(labels[..|labels| - 1], x) + (if labels[|labels| - 1] == x then 1 else 0)
  }

  /** A weight of one per label. */
  function Ones(n: nat): (ws: seq<real>)
    ensures |ws| == n && forall i :: 0 <= i < n ==> ws[i] == 1.0
  {
    seq(n, _ => 1.0)
  }

  /** With every weight one, the total is the count. */
  lemma {:induction false} TotalOfOnes(labels: seq<string>, x: string)
    ensures Total(labels, Ones(|labels|), x) == Count(labels, x) as real
  {
    if labels != [] {
      var n := |labels| - 1;
      assert Ones(|labels|)[..n] == Ones(n);
      TotalOfOnes(labels[..n], x);
    }
  }

  lemma {:induction false} CountBounded(labels: seq<string>, x: string)
    ensures Count(labels, x) <= |labels|
    ensures Count(labels, x) == |labels| <==> forall i :: 0 <= i < |labels| ==> labels[i] == x
  {
    if labels != [] {
      var n := |labels| - 1;
      CountBounded(labels[..n], x);
      if labels[n] == x && Count(labels[..n], x) == n {
        assert forall i :: 0 <= i < n ==> labels[..n][i] == x;
      }
      if Count(labels, x) == |labels| {
        assert Count(labels[..n], x) == n;
      }
    }
  }

  lemma {:induction false} CountPositive(labels: seq<string>, x: string)
    requires x in labels
    ensures Count(labels, x) > 0
  {
    var n := |labels| - 1;
    if labels[n] != x {
      assert x in labels[..n] by {
        var i :| 0 <= i < |labels| && labels[i] == x;
        assert labels[..n][i] == x;
      }
      CountPositive(labels[..n], x);
    }
  }

  predicate Distinct(s: seq<string>) {
    forall i, j :: 0 <= i < j < |s| ==> s[i] != s[j]
  }

  /** The distinct labels in the order of their first occurrence. */
  function FirstSeen(labels: seq<string>): (keys: seq<string>) {
    if labels == [] then []
    else
      var n := |labels| - 1;
      var keys := FirstSeen(labels[..n]);
      if labels[n] in keys then keys else keys + [labels[n]]
  }

  /** Each label appears in the first-seen order exactly once. */
  lemma {:induction false} FirstSeenSpec(labels: seq<string>)
    ensures forall x :: x in FirstSeen(labels) <==> x in labels
    ensures Distinct(FirstSeen(labels))
  {
    if labels != [] {
      var n := |labels| - 1;
      FirstSeenSpec(labels[..n]);
      assert forall x :: x in labels <==> x in labels[..n] || x == labels[n];
    }
  }

  /** Appending labels only appends to the first-seen order. */
  lemma {:induction false} FirstSeenPrefix(labels: seq<string>, m: nat)
    requires m <= |labels|
    ensures |FirstSeen(labels[..m])| <= |FirstSeen(labels)|
    ensures FirstSeen(labels)[..|FirstSeen(labels[..m])|] == FirstSeen(labels[..m])
    decreases |labels| - m
  {
    if m < |labels| {
      FirstSeenPrefix(labels, m + 1);
      assert labels[..m + 1][..m] == labels[..m];
    } else {
      assert labels[..m] == labels;
    }
  }

  // ---------------------------------------------------------------------
  // The dict itself

  /** An insertion-ordered dict from label to running weight. */
  datatype Tally = Tally(order: seq<string>, weight: map<string, real>)

  /** Every key in the iteration order has a weight. */
  predicate Keyed(t: Tally) {
    |t.order| > 0 && forall x :: x in t.order ==> x in t.weight
  }

  const Empty: Tally := Tally([], map[])

  /** `d[key] = d.get(key, 0) + w` */
  function Add(t: Tally, key: string, w: real): Tally {
    if key in t.weight then Tally(t.order, t.weight[key := t.weight[key] + w])
    else Tally(t.order + [key], t.weight[key := 0.0 + w])
  }

  /** The tally after feeding it every (label, weight) pair in order. */
  function Build(labels: seq<string>, weights: seq<real>): Tally
    requires |labels| == |weights|
  {
    if labels == [] then Empty
    else
      var n := |labels| - 1;
      Add(Build(labels[..n], weights[..n]), labels[n], weights[n])
  }

  /**
   * The built dict iterates its labels in first-seen order, has a key for
   * exactly the labels that occur, and holds each label's total weight.
   */
  lemma {:induction false} BuildSpec(labels: seq<string>, weights: seq<real>)
    requires |labels| == |weights|
    ensures Build(labels, weights).order == FirstSeen(labels)
    ensures forall x :: x in Build(labels, weights).weight <==> x in labels
    ensures forall x :: x in Build(labels, weights).weight ==>
      Build(labels, weights).weight[x] == Total(labels, weights, x)
  {
    if labels != [] {
      var n := |labels| - 1;
      BuildSpec(labels[..n], weights[..n]);
      FirstSeenSpec(labels[..n]);
      var t := Build(labels[..n], weights[..n]);
      var r := Build(labels, weights);
      assert forall x :: x in labels <==> x in labels[..n] || x == labels[n];
      forall x | x in r.weight
        ensures r.weight[x] == Total(labels, weights, x)
      {
        if x !in labels[..n] {
          TotalAbsent(labels[..n], weights[..n], x);
        }
      }
    }
  }

  /** A tally built from at least one label has its keys in order. */
  lemma BuildKeyed(labels: seq<string>, weights: seq<real>)
    requires |labels| == |weights| > 0
    ensures Keyed(Build(labels, weights))
  {
    BuildSpec(labels, weights);
    FirstSeenSpec(labels);
    assert labels[0] in FirstSeen(labels);
  }

  /**
   * `max(d, key=d.get)`: the first key with the largest weight.
   * It scans the keys in order and moves on only to a strictly larger one.
   */
  function ArgMax(keys: seq<string>, score: map<string, real>): (k: string)
    requires |keys| > 0 && forall x :: x in keys ==> x in score
    ensures k in keys
  {
    if |keys| == 1 then keys[0]
    else
      var n := |keys| - 1;
      assert keys == keys[..n] + [keys[n]];
      var best := ArgMax(keys[..n], score);
      if score[keys[n]] > score[best] then keys[n] else best
  }

  /** No key scores more than the chosen one. */
  lemma {:induction false} ArgMaxSpec(keys: seq<string>, score: map<string, real>)
    requires |keys| > 0 && forall x :: x in keys ==> x in score
    ensures forall x :: x in keys ==> score[x] <= score[ArgMax(keys, score)]
  {
    if |keys| > 1 {
      var n := |keys| - 1;
      assert keys == keys[..n] + [keys[n]];
      ArgMaxSpec(keys[..n], score);
    }
  }

  /** Every key before the chosen one scores strictly less. */
  lemma {:induction false} ArgMaxIsFirst(keys: seq<string>, score: map<string, real>)
    requires |keys| > 0 && forall x :: x in keys ==> x in score
    ensures var k := ArgMax(keys, score);
      forall i :: 0 <= i < |keys| && k !in keys[..i + 1] ==> score[keys[i]] < score[k]
  {
    if |keys| > 1 {
      var n := |keys| - 1;
      assert keys == keys[..n] + [keys[n]];
      ArgMaxIsFirst(keys[..n], score);
      ArgMaxSpec(keys[..n], score);
      var k := ArgMax(keys, score);
      assert keys[..|keys|] == keys;
      forall i | 0 <= i < |keys| && k !in keys[..i + 1]
        ensures score[keys[i]] < score[k]
      {
        if i < n {
          assert keys[..i + 1] == keys[..n][..i + 1];
        }
      }
    }
  }

  /** `max(d.values())` */
  function MaxWeight(keys: seq<string>, score: map<string, real>): real
    requires |keys| > 0 && forall x :: x in keys ==> x in score
  {
    if |keys| == 1 then score[keys[0]]
    else
      var n := |keys| - 1;
      var m := MaxWeight(keys[..n], score);
      if score[keys[n]] > m then score[keys[n]] else m
  }

  /** The largest value is the value of the first largest key. */
  lemma {:induction false} MaxWeightIsArgMaxWeight(keys: seq<string>, score: map<string, real>)
    requires |keys| > 0 && forall x :: x in keys ==> x in score
    ensures MaxWeight(keys, score) == score[ArgMax(keys, score)]
  {
    if |keys| > 1 {
      var n := |keys| - 1;
      assert keys == keys[..n] + [keys[n]];
      MaxWeightIsArgMaxWeight(keys[..n], score);
    }
  }

  /** The label a tally of (labels, weights) elects; it occurs in the input. */
  function Winner(labels: seq<string>, weights: seq<real>): (w: string)
    requires |labels| == |weights| > 0
    ensures w in labels
  {
    var t := Build(labels, weights);
    BuildKeyed(labels, weights);
    BuildSpec(labels, weights);
    FirstSeenSpec(labels);
    ArgMax(t.order, t.weight)
  }

  /**
   * No label has a larger total than the winner, and every label first
   * seen before the winner has a strictly smaller total.
   */
  lemma WinnerIsFirstMaximum(labels: seq<string>, weights: seq<real>)
    requires |labels| == |weights| > 0
    ensures var w := Winner(labels, weights);
      && (forall x :: x in labels ==> Total(labels, weights, x) <= Total(labels, weights, w))
      && (forall i :: 0 <= i < |labels| && w !in labels[..i + 1] ==>
            Total(labels, weights, labels[i]) < Total(labels, weights, w))
  {
    var t := Build(labels, weights);
    var w := Winner(labels, weights);
    BuildSpec(labels, weights);
    BuildKeyed(labels, weights);
    FirstSeenSpec(labels);
    assert w == ArgMax(t.order, t.weight);
    ArgMaxSpec(t.order, t.weight);
    ArgMaxIsFirst(t.order, t.weight);
    forall x | x in labels
      ensures Total(labels, weights, x) <= Total(labels, weights, w)
    {
      assert x in t.order;
    }
    forall i | 0 <= i < |labels| && w !in labels[..i + 1]
      ensures Total(labels, weights, labels[i]) < Total(labels, weights, w)
    {
      FirstSeenBefore(labels, i, w);
      var p :| 0 <= p < |t.order| && t.order[p] == labels[i] && w !in t.order[..p + 1];
      assert t.weight[t.order[p]] < t.weight[w];
    }
  }

  /**
   * A label seen at index i comes, in first-seen order, before any label
   * that has not yet been seen by then.
   */
  lemma FirstSeenBefore(labels: seq<string>, i: nat, w: string)
    requires i < |labels| && w in labels && w !in labels[..i + 1]
    ensures exists p ::
      0 <= p < |FirstSeen(labels)| && FirstSeen(labels)[p] == labels[i] && w !in FirstSeen(labels)[..p + 1]
  {
    var pre := FirstSeen(labels[..i + 1]);
    FirstSeenPrefix(labels, i + 1);
    FirstSeenSpec(labels[..i + 1]);
    assert labels[i] in labels[..i + 1];
    var p :| 0 <= p < |pre| && pre[p] == labels[i];
    var keys := FirstSeen(labels);
    assert keys[..p + 1] == pre[..p + 1];
    assert w !in pre;
  }

  /** The largest total, `max(d.values())` of the built tally. */
  function TopWeight(labels: seq<string>, weights: seq<real>): (m: real)
    requires |labels| == |weights| > 0
    ensures m == Total(labels, weights, Winner(labels, weights))
  {
    var t := Build(labels, weights);
    BuildKeyed(labels, weights);
    BuildSpec(labels, weights);
    FirstSeenSpec(labels);
    MaxWeightIsArgMaxWeight(t.order, t.weight);
    ArgMaxSpec(t.order, t.weight);
    MaxWeight(t.order, t.weight)
  }
}
