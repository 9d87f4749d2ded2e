/** The range of an axis (RangeGroup): either fixed by `from` and `to`, or
    computed from the data sources, then clamped to a minimum and rounded up to
    a multiple of an increment. qreal is modelled as `real`. */
module Ranges {

  /** std::numeric_limits<double>::max(), exactly: 2^1024 - 2^971. */
  const DoubleMax: real := 179769313486231570814527423731704356798070567525844996598917476803157260780028538760589558632766878171540458953514382464234321326889464182768467546703537516986049910576551282076245490090389328944075868508455133942304583236903222948165808559332123348274797826204144723168738177180919299881250404026184124858368.0

  /** std::numeric_limits<double>::min(), exactly: 2^-1022, the smallest
      positive normalised double (not the most negative one). */
  const DoubleMinPositive: real := 1.0 / 44942328371557897693232629769725618340449424473557664318357520289433168951375240783177119330601884005280028469967848339414697442203604155623211857659868531094441973356216371319075554900311523529863270738021251442209537670585615720368478277635206809290837627671146574559986811484619929076208839082406056034304.0

  datatype RangeResult = RangeResult(start: real, end: real, distance: real)

  /** qFuzzyCompare, taken as exact equality. */
  predicate FuzzyCompare(a: real, b: real)
  {
    a == b
  }

  /** std::min and std::max: the first argument wins a tie. */
  function Min(a: real, b: real): real
  {
    if b < a then b else a
  }

  function Max(a: real, b: real): real
  {
    if a < b then b else a
  }

  /** The minimum the for_each loop has accumulated after visiting `sources`,
      starting from `init`. */
  function Lowest<S>(init: real, sources: seq<S>, minimumOf: S -> real): real
    decreases |sources|
  {
    if |sources| == 0 then init
    else Min(Lowest(init, sources[..|sources| - 1], minimumOf), minimumOf(sources[|sources| - 1]))
  }

  /** The maximum the for_each loop has accumulated after visiting `sources`,
      starting from `init`. */
  function Highest<S>(init: real, sources: seq<S>, maximumOf: S -> real): real
    decreases |sources|
  {
    if |sources| == 0 then init
    else Max(Highest(init, sources[..|sources| - 1], maximumOf), maximumOf(sources[|sources| - 1]))
  }

  /** The accumulated minimum is below the start value and every source's
      minimum, and it is one of them. */
  lemma {:induction false} LowestIsMinimum<S>(init: real, sources: seq<S>, minimumOf: S -> real)
    ensures Lowest(init, sources, minimumOf) <= init
    ensures forall k :: 0 <= k < |sources| ==> Lowest(init, sources, minimumOf) <= minimumOf(sources[k])
    ensures Lowest(init, sources, minimumOf) == init
         || exists k :: 0 <= k < |sources| && Lowest(init, sources, minimumOf) == minimumOf(sources[k])
    decreases |sources|
  {
    if |sources| > 0 {
      var front := sources[..|sources| - 1];
      LowestIsMinimum(init, front, minimumOf);
      assert forall k :: 0 <= k < |front| ==> front[k] == sources[k];
    }
  }

  /** The accumulated maximum is above the start value and every source's
      maximum, and it is one of them. */
  lemma {:induction false} HighestIsMaximum<S>(init: real, sources: seq<S>, maximumOf: S -> real)
    ensures Highest(init, sources, maximumOf) >= init
    ensures forall k :: 0 <= k < |sources| ==> Highest(init, sources, maximumOf) >= maximumOf(sources[k])
    ensures Highest(init, sources, maximumOf) == init
         || exists k :: 0 <= k < |sources| && Highest(init, sources, maximumOf) == maximumOf(sources[k])
    decreases |sources|
  {
    if |sources| > 0 {
      var front := sources[..|sources| - 1];
      HighestIsMaximum(init, front, maximumOf);
      assert forall k :: 0 <= k < |front| ==> front[k] == sources[k];
    }
  }

  /** std::ceil on an exact real. */
  function Ceil(x: real): (c: int)
    ensures x <= c as real < x + 1.0
  {
    -((-x).Floor)
  }

  /** The end of a range once clamped to `minimum` and, for a positive
      `increment`, rounded up to the next multiple of `increment`. */
  function ClampedEnd(end: real, minimum: real, increment: real): (r: real)
    ensures r >= minimum && r >= end
    ensures increment <= 0.0 ==> r == Max(end, minimum)
    ensures increment > 0.0 ==> Max(end, minimum) <= r < Max(end, minimum) + increment
    ensures increment > 0.0 ==> (r / increment).Floor as real == r / increment
  {
    var clamped := Max(end, minimum);
    if increment > 0.0 then
      var c := Ceil(clamped / increment);
      RoundedUpBounds(clamped, increment, c);
      WholeMultiple(increment, c);
      increment * (c as real)
    else
      clamped
  }

  /** Multiplying the ceiling of x / d back by a positive d lands in [x, x + d). */
  lemma RoundedUpBounds(x: real, d: real, c: int)
    requires d > 0.0
    requires x / d <= c as real < x / d + 1.0
    ensures x <= d * (c as real) < x + d
  {
    var q := x / d;
    var e := c as real - q;
    var p := d * (c as real);
    assert x == d * q;
    assert 0.0 <= e < 1.0;
    assert p == d * q + d * e;
    assert d * e >= 0.0 by {
      assert d * e >= 0.0 * e;
    }
    assert d * e < d by {
      assert d * (1.0 - e) > 0.0;
    }
    assert p == x + d * e;
  }

  /** A whole number of positive steps d, divided by d, is a whole number. */
  lemma WholeMultiple(d: real, c: int)
    requires d > 0.0
    ensures (d * (c as real) / d).Floor as real == d * (c as real) / d
  {
    assert d * (c as real) / d == c as real;
  }

  class RangeGroup {
    var from: real
    var to: real
    var automatic: bool
    var minimum: real
    var increment: real

    /** The header with the default values is not part of this model: the
        initial values are given by the caller. */
    constructor (from: real, to: real, automatic: bool, minimum: real, increment: real)
      ensures this.from == from && this.to == to && this.automatic == automatic
      ensures this.minimum == minimum && this.increment == increment
    {
      this.from := from;
      this.to := to;
      this.automatic := automatic;
      this.minimum := minimum;
      this.increment := increment;
    }

    /** The span covered by a fixed range. */
    function Distance(): (d: real)
      reads this
      ensures from + d == to
    {
      to - from
    }

    /** A range is usable when it is computed, or when it is fixed and spans a
        positive distance. */
    predicate IsValid()
      reads this
      ensures IsValid() <==> automatic || Distance() > 0.0
    {
      automatic || to > from
    }

    /** Each setter returns whether the corresponding change signal is emitted. */
    method SetFrom(v: real) returns (changed: bool)
      modifies this`from
      ensures changed <==> !FuzzyCompare(old(from), v)
      ensures from == if changed then v else old(from)
    {
      if FuzzyCompare(from, v) {
        return false;
      }
      from := v;
      changed := true;
    }

    method SetTo(v: real) returns (changed: bool)
      modifies this`to
      ensures changed <==> !FuzzyCompare(old(to), v)
      ensures to == if changed then v else old(to)
    {
      if FuzzyCompare(to, v) {
        return false;
      }
      to := v;
      changed := true;
    }

    method SetAutomatic(v: bool) returns (changed: bool)
      modifies this`automatic
      ensures changed <==> old(automatic) != v
      ensures automatic == v
    {
      if automatic == v {
        return false;
      }
      automatic := v;
      changed := true;
    }

    method SetMinimum(v: real) returns (changed: bool)
      modifies this`minimum
      ensures changed <==> old(minimum) != v
      ensures minimum == v
    {
      if v == minimum {
        return false;
      }
      minimum := v;
      changed := true;
    }

    method SetIncrement(v: real) returns (changed: bool)
      modifies this`increment
      ensures changed <==> old(increment) != v
      ensures increment == v
    {
      if v == increment {
        return false;
      }
      increment := v;
      changed := true;
    }

    /** The range for `sources`, whose minimum and maximum are read through the
        two callbacks. */
    method CalculateRange<S>(sources: seq<S>, minimumOf: S -> real, maximumOf: S -> real)
      returns (result: RangeResult)
      ensures !automatic ==> result.start == from && result.end == ClampedEnd(to, minimum, increment)
      ensures automatic ==> result.start == Lowest(DoubleMax, sources, minimumOf)
      ensures automatic ==> result.end == ClampedEnd(Highest(DoubleMinPositive, sources, maximumOf), minimum, increment)
      ensures automatic ==> forall k :: 0 <= k < |sources| ==>
                result.start <= minimumOf(sources[k]) && result.end >= maximumOf(sources[k])
      ensures automatic ==> result.end > 0.0
      ensures !automatic ==> result.distance >= Distance()
      ensures result.end >= minimum
      ensures result.distance == result.end - result.start
    {
      var min := DoubleMax;
      var max := DoubleMinPositive;
      if !automatic {
        min := from;
        max := to;
      } else {
        var i := 0;
        while i < |sources|
          invariant 0 <= i <= |sources|
          invariant min == Lowest(DoubleMax, sources[..i], minimumOf)
          invariant max == Highest(DoubleMinPositive, sources[..i], maximumOf)
        {
          assert sources[..i + 1][..i] == sources[..i];
          min := Min(min, minimumOf(sources[i]));
          max := Max(max, maximumOf(sources[i]));
          i := i + 1;
        }
        assert sources[..i] == sources;
        LowestIsMinimum(DoubleMax, sources, minimumOf);
        HighestIsMaximum(DoubleMinPositive, sources, maximumOf);
      }
      max := ClampedEnd(max, minimum, increment);
      result := RangeResult(min, max, max - min);
    }
  }
}
