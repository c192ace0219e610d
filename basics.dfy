/** Shared value types and arithmetic over sequences of reals. */
module Basics {

  /** JavaScript's `T | null`. */
  datatype Option<T> = None | Some(value: T) {
    /** The `??` operator: the value when present, `d` otherwise. */
    function OrElse(d: T): T {
      match this
      case Some(v) => v
      case None => d
    }
  }

  /** JavaScript truthiness of a nullable number: present and not zero. */
  predicate Truthy(x: Option<real>) {
    x.Some? && x.value != 0.0
  }

  /** Sum of a sequence of reals, folded from the left. */
  function Sum(xs: seq<real>): real {
    if |xs| == 0 then 0.0 else Sum(xs[..|xs| - 1]) + xs[|xs| - 1]
  }

  lemma SumAppend(xs: seq<real>, x: real)
    ensures Sum(xs + [x]) == Sum(xs) + x
  {
    assert (xs + [x])[..|xs|] == xs;
  }

  lemma SumPrefix(xs: seq<real>, i: nat)
    requires i < |xs|
    ensures Sum(xs[..i + 1]) == Sum(xs[..i]) + xs[i]
  {
    assert xs[..i + 1][..i] == xs[..i];
  }

  /** The arithmetic mean of a non-empty sequence. */
  function Mean(xs: seq<real>): real
    requires |xs| > 0
  {
    Sum(xs) / (|xs| as real)
  }

  /**
   * `+x.toFixed(2)`: rounded to two decimals, halves away from zero (on exact reals; the
   * binary representation of the double is not modelled).
   */
  function Fixed2(x: real): real {
    if x >= 0.0 then ((x * 100.0 + 0.5).Floor as real) / 100.0
    else -((((-x) * 100.0 + 0.5).Floor as real) / 100.0)
  }

  /** Rounding moves a value by at most half a hundredth. */
  lemma Fixed2Close(x: real)
    ensures x - 0.005 <= Fixed2(x) <= x + 0.005
  {
    if x >= 0.0 {
      var y := x * 100.0 + 0.5;
      assert y - 1.0 < y.Floor as real <= y;
    } else {
      var y := (-x) * 100.0 + 0.5;
      assert y - 1.0 < y.Floor as real <= y;
    }
  }

  /** A non-negative value rounds to zero exactly when it is below half a hundredth. */
  lemma Fixed2Zero(x: real)
    requires x >= 0.0
    ensures Fixed2(x) == 0.0 <==> x < 0.005
  {
    var y := x * 100.0 + 0.5;
    assert y - 1.0 < y.Floor as real <= y;
    if x < 0.005 {
      assert 0.0 <= y < 1.0;
      assert y.Floor == 0;
    } else {
      assert y >= 1.0;
      assert y.Floor >= 1;
    }
  }

  /** A part of a positive whole, divided by it, lies in [0, 1]. */
  lemma FractionBounds(e: real, d: real)
    requires 0.0 <= e <= d && d > 0.0
    ensures 0.0 <= e / d <= 1.0
  {
    var q := e / d;
    assert q * d == e;
  }

  /** A fraction is below 1/200 exactly when two hundred times the part falls short of the whole. */
  lemma FractionBelowHalfPercent(e: real, d: real)
    requires 0.0 <= e && d > 0.0
    ensures e / d < 0.005 <==> 200.0 * e < d
  {
    var q := e / d;
    assert q * d == e;
    if q < 0.005 {
      assert (0.005 - q) * d > 0.0;
      assert 0.005 * d - q * d > 0.0;
    } else {
      assert (q - 0.005) * d >= 0.0;
      assert q * d - 0.005 * d >= 0.0;
    }
  }

  function Init<T>(xs: seq<T>): seq<T>
    requires |xs| > 0
  {
    xs[..|xs| - 1]
  }

  function Last<T>(xs: seq<T>): T
    requires |xs| > 0
  {
    xs[|xs| - 1]
  }

  /** `if (t > (o ?? -Infinity)) o = t`. */
  function RaiseMax(o: Option<real>, t: real): Option<real> {
    if o.None? || t > o.value then Some(t) else o
  }

  /** `if (t < (o ?? Infinity)) o = t`. */
  function LowerMin(o: Option<real>, t: real): Option<real> {
    if o.None? || t < o.value then Some(t) else o
  }

  /** The running maximum after seeing `xs`, starting from `o`. */
  function MaxOf(o: Option<real>, xs: seq<real>): Option<real> {
    if |xs| == 0 then o else RaiseMax(MaxOf(o, Init(xs)), Last(xs))
  }

  /** The running minimum after seeing `xs`, starting from `o`. */
  function MinOf(o: Option<real>, xs: seq<real>): Option<real> {
    if |xs| == 0 then o else LowerMin(MinOf(o, Init(xs)), Last(xs))
  }

  /**
   * The running maximum bounds the start value and every element from above, is
   * absent only when there was nothing to see, and is the start value or an element.
   */
  lemma {:induction false} MaxOfBounds(o: Option<real>, xs: seq<real>)
    ensures MaxOf(o, xs).None? <==> o.None? && |xs| == 0
    ensures o.Some? ==> MaxOf(o, xs).value >= o.value
    ensures forall i :: 0 <= i < |xs| ==> MaxOf(o, xs).Some? && xs[i] <= MaxOf(o, xs).value
    ensures MaxOf(o, xs) == o || exists i :: 0 <= i < |xs| && MaxOf(o, xs) == Some(xs[i])
  {
    if |xs| > 0 {
      var xs' := Init(xs);
      MaxOfBounds(o, xs');
      assert forall i :: 0 <= i < |xs'| ==> xs'[i] == xs[i];
      if MaxOf(o, xs) != o && MaxOf(o, xs) != Some(Last(xs)) {
        var i :| 0 <= i < |xs'| && MaxOf(o, xs') == Some(xs'[i]);
        assert MaxOf(o, xs) == Some(xs[i]);
      }
    }
  }

  /** The mirror image of MaxOfBounds for the running minimum. */
  lemma {:induction false} MinOfBounds(o: Option<real>, xs: seq<real>)
    ensures MinOf(o, xs).None? <==> o.None? && |xs| == 0
    ensures o.Some? ==> MinOf(o, xs).value <= o.value
    ensures forall i :: 0 <= i < |xs| ==> MinOf(o, xs).Some? && MinOf(o, xs).value <= xs[i]
    ensures MinOf(o, xs) == o || exists i :: 0 <= i < |xs| && MinOf(o, xs) == Some(xs[i])
  {
    if |xs| > 0 {
      var xs' := Init(xs);
      MinOfBounds(o, xs');
      assert forall i :: 0 <= i < |xs'| ==> xs'[i] == xs[i];
      if MinOf(o, xs) != o && MinOf(o, xs) != Some(Last(xs)) {
        var i :| 0 <= i < |xs'| && MinOf(o, xs') == Some(xs'[i]);
        assert MinOf(o, xs) == Some(xs[i]);
      }
    }
  }

  /** The values of the truthy entries, in order. */
  function TruthyValues(xs: seq<Option<real>>): (vs: seq<real>)
    ensures forall j :: 0 <= j < |vs| ==> vs[j] != 0.0
  {
    if |xs| == 0 then []
    else TruthyValues(Init(xs)) + (if Truthy(Last(xs)) then [Last(xs).value] else [])
  }

  lemma {:induction false} TruthyListed(xs: seq<Option<real>>, i: nat)
    requires i < |xs| && Truthy(xs[i])
    ensures xs[i].value in TruthyValues(xs)
  {
    if i < |xs| - 1 {
      assert Init(xs)[i] == xs[i];
      TruthyListed(Init(xs), i);
    }
  }
}
