/** The two selection rules the benchmark uses to pick a best vendor.

    - Python's built-in `min(items, key=...)` keeps the first item and moves
      to a later one only when its key is strictly smaller.
    - The hand-written loop in the benchmark engine starts from
      `float('inf')`, moves to a candidate whose MAPE is strictly smaller,
      and so also keeps the first of equal candidates.

    A key is a `Float`. Every `<` comparison with NaN is false, and +infinity
    is above every number. */
module Ranking {
  import opened Series

  /** Python's `x < y` on floats. */
  predicate Lt(x: Float, y: Float)
  {
    x.Num? && (y.Inf? || (y.Num? && x.value < y.value))
  }

  /** `x <= y` on floats that are not NaN. */
  predicate Le(x: Float, y: Float)
  {
    (x.Num? && y.Num? && x.value <= y.value) || (!x.NaN? && y.Inf?)
  }

  /** Index k holds a key that is not NaN, no larger than any other key that
      is not NaN, and strictly smaller than every such key before it. */
  predicate IsFirstMinimum(keys: seq<Float>, k: nat)
  {
    && k < |keys|
    && !keys[k].NaN?
    && (forall i :: 0 <= i < |keys| && !keys[i].NaN? ==> Le(keys[k], keys[i]))
    && (forall i :: 0 <= i < k && !keys[i].NaN? ==> Lt(keys[k], keys[i]))
  }

  /** k is a position `min` may return: the first one, when it holds NaN,
      and otherwise the first minimum. */
  predicate IsMinChoice(keys: seq<Float>, k: nat)
  {
    k < |keys| && (if keys[0].NaN? then k == 0 else IsFirstMinimum(keys, k))
  }

  /** The position `min` returns for a non-empty sequence of keys. A NaN in
      first place is never displaced, since nothing compares below it;
      otherwise the NaN keys are passed over. */
  function MinIndex(keys: seq<Float>): (k: nat)
    requires |keys| > 0
    ensures k < |keys|
    ensures !keys[0].NaN? ==> IsFirstMinimum(keys, k)
    ensures keys[0].NaN? ==> k == 0
  {
    if |keys| == 1 then 0
    else
      var j := MinIndex(keys[..|keys| - 1]);
      if Lt(keys[|keys| - 1], keys[j]) then |keys| - 1 else j
  }

  /** The position the running-minimum loop ends on, or None when no
      candidate ever beat the starting +infinity: then no key is a number. */
  function RunningMin(keys: seq<Float>): (r: Option<nat>)
    ensures r.None? <==> forall i :: 0 <= i < |keys| ==> !keys[i].Num?
    ensures r.Some? ==> IsFirstMinimum(keys, r.value) && keys[r.value].Num?
  {
    if |keys| == 0 then None
    else
      var r := RunningMin(keys[..|keys| - 1]);
      var best := if r.Some? then keys[r.value] else Inf;
      if Lt(keys[|keys| - 1], best) then Some(|keys| - 1) else r
  }

  /** One more step of the running-minimum loop. */
  lemma RunningMinStep(keys: seq<Float>, i: nat)
    requires i < |keys|
    ensures RunningMin(keys[..i]).Some? ==> RunningMin(keys[..i]).value < i
    ensures RunningMin(keys[..i + 1]) ==
      var r := RunningMin(keys[..i]);
      var best := if r.Some? then keys[r.value] else Inf;
      if Lt(keys[i], best) then Some(i) else r
  {
    assert keys[..i + 1][..i] == keys[..i];
  }

  /** When the first key is not NaN and some key is a number, `min` and the
      loop pick the same item. */
  lemma SameChoice(keys: seq<Float>, i: nat)
    requires i < |keys| && keys[i].Num? && !keys[0].NaN?
    ensures RunningMin(keys) == Some(MinIndex(keys))
  {
    var a, b := RunningMin(keys).value, MinIndex(keys);
    assert Le(keys[a], keys[b]) && Le(keys[b], keys[a]);
  }
}
