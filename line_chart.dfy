/** The bookkeeping of a line chart (LineChart): one child line node per value
    source, one normalised point per X step, optional stacking of each series on
    the one drawn before it, and the flag that makes the next paint recompute
    the range. */
module LineCharts {
  import opened DataSources

  /** A QVector2D, with its float coordinates taken as reals. */
  datatype Point = Point(x: real, y: real)

  datatype Direction = ZeroAtStart | ZeroAtEnd

  /** The part of the chart's computed range that drawing a line reads. How
      the range is computed (XYChart) is not part of this model. */
  datatype ComputedRange = ComputedRange(startX: int, distanceX: int, startY: real, distanceY: real)

  /** What a line node is handed: the points as they are, or the spline that
      the smoothing step draws through them. */
  datatype Curve = Raw(points: seq<Point>) | Spline(points: seq<Point>)

  /** Everything that decides where the points of a series go. */
  datatype Layout = Layout(range: ComputedRange, direction: Direction, width: real, stacked: bool)

  /** Division that yields 0 for a zero divisor, where the source's floats
      would yield an infinity or NaN. */
  function Quotient(a: real, b: real): real
  {
    if b == 0.0 then 0.0 else a / b
  }

  /** The horizontal distance between two neighbouring points. */
  function StepSize(layout: Layout): real
  {
    Quotient(layout.width, (layout.range.distanceX - 1) as real)
  }

  /** The point the generator yields on its k-th call: item startX + k of the
      source, its x measured from the left for ZeroAtStart and from the right
      edge otherwise, its y normalised against the range. */
  function Generated(source: Source, layout: Layout, k: int): Point
  {
    var i := layout.range.startX + k;
    Point(XOf(layout, i), Quotient(ToReal(source.item(i)) - layout.range.startY, layout.range.distanceY))
  }

  /** The x at which item i is drawn. */
  function XOf(layout: Layout, i: int): real
  {
    var step := StepSize(layout);
    if layout.direction == ZeroAtStart then i as real * step else layout.width - i as real * step
  }

  /** The series of one source: distanceX generated points, stored front to
      back for ZeroAtStart and back to front otherwise. */
  function Series(source: Source, layout: Layout): seq<Point>
    requires layout.range.distanceX >= 0
  {
    var n := layout.range.distanceX;
    seq(n, j => Generated(source, layout, if layout.direction == ZeroAtStart then j else n - 1 - j))
  }

  /** A series has one point per X step. Item startX + k of the source lands
      at index k for ZeroAtStart and at index distanceX - 1 - k otherwise, its y
      being its offset from startY divided by distanceY. */
  lemma SeriesPoints(source: Source, layout: Layout)
    requires layout.range.distanceX >= 0
    ensures |Series(source, layout)| == layout.range.distanceX
    ensures layout.direction == ZeroAtStart ==>
              forall j :: 0 <= j < layout.range.distanceX ==>
                var i := layout.range.startX + j;
                Series(source, layout)[j]
                  == Point(XOf(layout, i), Quotient(ToReal(source.item(i)) - layout.range.startY, layout.range.distanceY))
    ensures layout.direction == ZeroAtEnd ==>
              forall j :: 0 <= j < layout.range.distanceX ==>
                var i := layout.range.startX + layout.range.distanceX - 1 - j;
                Series(source, layout)[j]
                  == Point(XOf(layout, i), Quotient(ToReal(source.item(i)) - layout.range.startY, layout.range.distanceY))
  {
  }

  /** Stacking a series onto the one drawn before it: only when stacking is on,
      there is a previous series and it has the same length; then every y grows
      by the previous y at that index. */
  function StackOnto(stacked: bool, values: seq<Point>, previous: seq<Point>): (r: seq<Point>)
    ensures |r| == |values|
  {
    if stacked && |previous| > 0 && |values| == |previous| then
      seq(|values|, k requires 0 <= k < |values| => Point(values[k].x, values[k].y + previous[k].y))
    else
      values
  }

  /** Stacking keeps every x; with stacking on and a previous series of the
      same length every y is the sum of the two; otherwise nothing changes. */
  lemma StackingRule(stacked: bool, values: seq<Point>, previous: seq<Point>)
    ensures var r := StackOnto(stacked, values, previous);
            && (forall k :: 0 <= k < |r| ==> r[k].x == values[k].x)
            && (stacked && |previous| == |values| ==>
                  forall k :: 0 <= k < |r| ==> r[k].y == values[k].y + previous[k].y)
            && (!stacked || |previous| != |values| ==> r == values)
  {
  }

  /** The smoothing step. Only its guard is modelled: fewer than four points
      are handed on unchanged; otherwise a spline through them is drawn. */
  function Interpolate(points: seq<Point>): (r: Curve)
    ensures r.points == points
    ensures |points| < 4 ==> r == Raw(points)
  {
    if |points| < 4 then Raw(points) else Spline(points)
  }

  function Shape(smooth: bool, points: seq<Point>): Curve
  {
    if smooth then Interpolate(points) else Raw(points)
  }

  /** The last series drawn, or `previous` when none has been drawn yet. */
  function Last(series: seq<seq<Point>>, previous: seq<Point>): seq<Point>
  {
    if |series| == 0 then previous else series[|series| - 1]
  }

  /** The series drawn for the first `count` sources, in source order, during
      one paint that starts with `previous` as the remembered series. */
  function Painted(sources: seq<Source>, count: nat, previous: seq<Point>, layout: Layout): (r: seq<seq<Point>>)
    requires count <= |sources| && layout.range.distanceX >= 0
    ensures |r| == count
  {
    if count == 0 then []
    else
      var earlier := Painted(sources, count - 1, previous, layout);
      earlier + [StackOnto(layout.stacked, Series(sources[count - 1], layout), Last(earlier, previous))]
  }

  /** Every series drawn in a paint has distanceX points. */
  lemma {:induction false} PaintedLengths(sources: seq<Source>, count: nat, previous: seq<Point>, layout: Layout)
    requires count <= |sources| && layout.range.distanceX >= 0
    ensures forall i :: 0 <= i < count ==> |Painted(sources, count, previous, layout)[i]| == layout.range.distanceX
  {
    if count > 0 {
      PaintedLengths(sources, count - 1, previous, layout);
    }
  }

  /** Drawing fewer sources draws a prefix of the same series. */
  lemma {:induction false} PaintedPrefix(sources: seq<Source>, m: nat, count: nat, previous: seq<Point>, layout: Layout)
    requires m <= count <= |sources| && layout.range.distanceX >= 0
    ensures Painted(sources, m, previous, layout) == Painted(sources, count, previous, layout)[..m]
    decreases count
  {
    if m < count {
      PaintedPrefix(sources, m, count - 1, previous, layout);
    }
  }

  /** With stacking on, the remembered series is cleared before a paint, so the
      first source is drawn exactly as generated. */
  lemma {:induction false} FirstSeriesNeverStacked(sources: seq<Source>, layout: Layout)
    requires layout.range.distanceX >= 0
    requires |sources| > 0
    ensures Painted(sources, |sources|, [], layout)[0] == Series(sources[0], layout)
  {
    PaintedPrefix(sources, 1, |sources|, [], layout);
  }

  /** The sum of the y values at index k of the series generated for the first
      `count` sources. */
  function ColumnSum(sources: seq<Source>, count: nat, layout: Layout, k: nat): real
    requires count <= |sources| && layout.range.distanceX >= 0
    requires k < layout.range.distanceX
  {
    if count == 0 then 0.0
    else ColumnSum(sources, count - 1, layout, k) + Series(sources[count - 1], layout)[k].y
  }

  /** In a stacked paint the last series drawn lies at the column sums of the
      series generated so far, with the x of the last source's own series. */
  lemma {:induction false} TopIsColumnSum(sources: seq<Source>, count: nat, layout: Layout, k: nat)
    requires layout.stacked && layout.range.distanceX >= 0
    requires 0 < count <= |sources| && k < layout.range.distanceX
    ensures |Last(Painted(sources, count, [], layout), [])| == layout.range.distanceX
    ensures Last(Painted(sources, count, [], layout), [])[k]
              == Point(Series(sources[count - 1], layout)[k].x, ColumnSum(sources, count, layout, k))
  {
    var earlier := Painted(sources, count - 1, [], layout);
    var values := Series(sources[count - 1], layout);
    StackingRule(true, values, Last(earlier, []));
    if count > 1 {
      TopIsColumnSum(sources, count - 1, layout, k);
    }
  }

  /** Within one stacked paint every series has the same length, so series i is
      drawn at the sum of the y values of sources 0..i, with its own x. */
  lemma StackedIsCumulative(sources: seq<Source>, layout: Layout)
    requires layout.stacked && layout.range.distanceX >= 0
    ensures forall i :: 0 <= i < |sources| ==>
              |Painted(sources, |sources|, [], layout)[i]| == layout.range.distanceX
    ensures forall i, k :: 0 <= i < |sources| && 0 <= k < layout.range.distanceX ==>
              Painted(sources, |sources|, [], layout)[i][k]
                == Point(Series(sources[i], layout)[k].x, ColumnSum(sources, i + 1, layout, k))
  {
    var painted := Painted(sources, |sources|, [], layout);
    PaintedLengths(sources, |sources|, [], layout);
    forall i, k | 0 <= i < |sources| && 0 <= k < layout.range.distanceX
      ensures painted[i][k] == Point(Series(sources[i], layout)[k].x, ColumnSum(sources, i + 1, layout, k))
    {
      PaintedPrefix(sources, i + 1, |sources|, [], layout);
      assert Last(Painted(sources, i + 1, [], layout), []) == painted[i];
      TopIsColumnSum(sources, i + 1, layout, k);
    }
  }

  /** In both directions the stored points run from left to right. */
  lemma SeriesRunsLeftToRight(source: Source, layout: Layout)
    requires layout.range.distanceX >= 0 && layout.width >= 0.0
    ensures forall j1, j2 :: 0 <= j1 <= j2 < layout.range.distanceX ==>
              Series(source, layout)[j1].x <= Series(source, layout)[j2].x
  {
    var s := Series(source, layout);
    var n := layout.range.distanceX;
    var start := layout.range.startX;
    forall j1, j2 | 0 <= j1 <= j2 < n
      ensures s[j1].x <= s[j2].x
    {
      if layout.direction == ZeroAtStart {
        XOfGrows(layout, start + j1, start + j2);
      } else {
        XOfGrows(layout, start + n - 1 - j2, start + n - 1 - j1);
      }
    }
  }

  /** For a non-negative width, ZeroAtStart places later items further right
      and the other direction places them further left. */
  lemma XOfGrows(layout: Layout, i1: int, i2: int)
    requires layout.range.distanceX >= 1 && layout.width >= 0.0
    requires i1 <= i2
    ensures layout.direction == ZeroAtStart ==> XOf(layout, i1) <= XOf(layout, i2)
    ensures layout.direction != ZeroAtStart ==> XOf(layout, i2) <= XOf(layout, i1)
  {
    StepIsNonNegative(layout);
    Scale(i1 as real, i2 as real, StepSize(layout));
  }

  lemma StepIsNonNegative(layout: Layout)
    requires layout.range.distanceX >= 1 && layout.width >= 0.0
    ensures StepSize(layout) >= 0.0
  {
    if layout.range.distanceX > 1 {
      var d := (layout.range.distanceX - 1) as real;
      assert layout.width / d >= 0.0;
    }
  }

  lemma Scale(a: real, b: real, c: real)
    requires a <= b && c >= 0.0
    ensures a * c <= b * c
  {
    assert (b - a) * c >= 0.0;
  }

  /** The two directions store the same values mirrored: point j of one is
      point n - 1 - j of the other, with x measured from the other edge. */
  lemma DirectionsMirror(source: Source, range: ComputedRange, width: real, stacked: bool)
    requires range.distanceX >= 0
    ensures var ahead := Series(source, Layout(range, ZeroAtStart, width, stacked));
            var back := Series(source, Layout(range, ZeroAtEnd, width, stacked));
            forall j :: 0 <= j < range.distanceX ==>
              back[j].y == ahead[range.distanceX - 1 - j].y
              && back[j].x == width - ahead[range.distanceX - 1 - j].x
  {
  }

  /** Fills a fresh buffer of distanceX points by calling the generator once
      per point, writing from the front for ZeroAtStart and from the back
      otherwise. */
  method GenerateSeries(source: Source, layout: Layout) returns (values: array<Point>)
    requires layout.range.distanceX >= 0
    ensures fresh(values)
    ensures values[..] == Series(source, layout)
  {
    var n := layout.range.distanceX;
    ghost var series := Series(source, layout);
    values := new Point[n];
    var k := 0;
    if layout.direction == ZeroAtStart {
      while k < n
        invariant 0 <= k <= n
        invariant forall m :: 0 <= m < k ==> values[m] == series[m]
      {
        values[k] := Generated(source, layout, k);
        k := k + 1;
      }
    } else {
      while k < n
        invariant 0 <= k <= n
        invariant forall m :: n - k <= m < n ==> values[m] == series[m]
      {
        values[n - 1 - k] := Generated(source, layout, k);
        k := k + 1;
      }
    }
  }

  /** Adds the y of each remembered point to the point at the same index,
      leaving every x as it is. */
  method StackInPlace(values: array<Point>, previous: seq<Point>)
    requires values.Length == |previous|
    modifies values
    ensures values[..] == StackOnto(true, old(values[..]), previous)
  {
    var k := 0;
    while k < values.Length
      invariant 0 <= k <= values.Length
      invariant forall m :: 0 <= m < k ==> values[m] == Point(old(values[m]).x, old(values[m]).y + previous[m].y)
      invariant forall m :: k <= m < values.Length ==> values[m] == old(values[m])
    {
      values[k] := Point(values[k].x, values[k].y + previous[k].y);
      k := k + 1;
    }
  }

  /** The scene-graph node of the chart, whose children are the line nodes,
      each represented by the curve it was last handed. */
  class PaintNode {
    var children: seq<Curve>

    constructor ()
      ensures children == []
    {
      children := [];
    }

    /** Appends a new, empty line node. */
    method AppendChild()
      modifies this
      ensures children == old(children) + [Raw([])]
    {
      children := children + [Raw([])];
    }

    /** Appends empty line nodes until there are at least `count` children. */
    method GrowTo(count: nat)
      modifies this
      ensures |children| == if count > |old(children)| then count else |old(children)|
      ensures children[..|old(children)|] == old(children)
      ensures forall m :: |old(children)| <= m < |children| ==> children[m] == Raw([])
    {
      while count > |children|
        invariant |old(children)| <= |children| <= if count > |old(children)| then count else |old(children)|
        invariant children[..|old(children)|] == old(children)
        invariant forall m :: |old(children)| <= m < |children| ==> children[m] == Raw([])
      {
        AppendChild();
      }
    }

    /** Removes the last child until at most `count` children remain. */
    method ShrinkTo(count: nat)
      modifies this
      ensures children == if count < |old(children)| then old(children)[..count] else old(children)
    {
      while |children| > count
        invariant |children| >= (if count < |old(children)| then count else |old(children)|)
        invariant children == old(children)[..|children|]
      {
        RemoveLastChild();
      }
    }

    method RemoveLastChild()
      requires |children| > 0
      modifies this
      ensures children == old(children)[..|old(children)| - 1]
    {
      children := children[..|children| - 1];
    }

    /** Hands `curve` to the line node at `index`. */
    method SetChild(index: nat, curve: Curve)
      requires index < |children|
      modifies this
      ensures children == old(children)[index := curve]
    {
      children := children[index := curve];
    }
  }

  /** Child n - 1 - j of a node holds the shape of series j, for every series
      drawn so far: the first source ends up in the last child. */
  ghost predicate DrawnInReverse(children: seq<Curve>, n: int, smooth: bool, painted: seq<seq<Point>>)
  {
    forall j :: 0 <= j < |painted| ==> 0 <= n - 1 - j < |children| && children[n - 1 - j] == Shape(smooth, painted[j])
  }

  /** Drawing the next series into its child keeps the children drawn before. */
  lemma {:induction false} DrawnStep(drawn: seq<Curve>, children: seq<Curve>, n: int, smooth: bool,
                                     painted: seq<seq<Point>>, next: seq<Point>)
    requires DrawnInReverse(drawn, n, smooth, painted)
    requires |painted| < n <= |children| && |drawn| <= |children|
    requires forall m :: 0 <= m < |drawn| && m != n - 1 - |painted| ==> children[m] == drawn[m]
    requires children[n - 1 - |painted|] == Shape(smooth, next)
    ensures DrawnInReverse(children, n, smooth, painted + [next])
  {
    forall j | 0 <= j < |painted| + 1
      ensures 0 <= n - 1 - j < |children| && children[n - 1 - j] == Shape(smooth, (painted + [next])[j])
    {
      if j < |painted| {
        var earlier := painted[j];
        assert 0 <= n - 1 - j < |drawn|;
        assert children[n - 1 - j] == drawn[n - 1 - j];
      }
    }
  }

  class LineChart {
    var valueSources: seq<Source>
    var stacked: bool
    var smooth: bool
    var direction: Direction
    var width: real
    var computedRange: ComputedRange
    var rangeInvalid: bool
    var previousValues: seq<Point>

    /** The header with the field defaults is not part of this model: the
        settings, the range and the range flag are given by the caller. */
    constructor (sources: seq<Source>, stacked: bool, smooth: bool, direction: Direction,
                 width: real, range: ComputedRange, rangeInvalid: bool)
      ensures valueSources == sources && this.stacked == stacked && this.smooth == smooth
      ensures this.direction == direction && this.width == width
      ensures computedRange == range && this.rangeInvalid == rangeInvalid
      ensures previousValues == []
    {
      valueSources := sources;
      this.stacked := stacked;
      this.smooth := smooth;
      this.direction := direction;
      this.width := width;
      computedRange := range;
      this.rangeInvalid := rangeInvalid;
      previousValues := [];
    }

    function CurrentLayout(): Layout
      reads this`computedRange, this`direction, this`width, this`stacked
    {
      Layout(computedRange, direction, width, stacked)
    }

    /** A source reported new data: the next paint recomputes the range. */
    method OnDataChanged()
      modifies this`rangeInvalid
      ensures rangeInvalid
    {
      rangeInvalid := true;
    }

    /** Generates the series of `source`, stacks it onto the remembered series,
        remembers the result and returns what the line node is handed. */
    method UpdateLineNode(source: Source) returns (curve: Curve)
      requires computedRange.distanceX >= 0
      modifies this`previousValues
      ensures previousValues == StackOnto(stacked, Series(source, CurrentLayout()), old(previousValues))
      ensures curve == Shape(smooth, previousValues)
    {
      var values := GenerateSeries(source, CurrentLayout());
      if stacked && |previousValues| > 0 {
        if values.Length == |previousValues| {
          StackInPlace(values, previousValues);
        }
        // With a different length the source only logs a warning.
      }
      previousValues := values[..];
      curve := Shape(smooth, previousValues);
    }

    /** One paint: recompute the range if it was invalidated, forget the
        remembered series when stacking, then draw every source. */
    method UpdatePaintNode(node: PaintNode?, freshRange: ComputedRange) returns (r: PaintNode)
      requires (if rangeInvalid then freshRange else computedRange).distanceX >= 0
      modifies this`computedRange, this`rangeInvalid, this`previousValues, node
      ensures node != null ==> r == node
      ensures node == null ==> fresh(r)
      ensures !rangeInvalid
      ensures computedRange == if old(rangeInvalid) then freshRange else old(computedRange)
      ensures |r.children| == |valueSources|
      ensures var start := if stacked then [] else old(previousValues);
              var painted := Painted(valueSources, |valueSources|, start, CurrentLayout());
              && (forall i :: 0 <= i < |valueSources| ==>
                    r.children[|valueSources| - 1 - i] == Shape(smooth, painted[i]))
              && previousValues == Last(painted, start)
    {
      if node == null {
        r := new PaintNode();
      } else {
        r := node;
      }
      if rangeInvalid {
        computedRange := freshRange;
        rangeInvalid := false;
      }
      if stacked {
        previousValues := [];
      }
      DrawSources(r);
    }

    /** Draws every source, then drops surplus trailing children. */
    method DrawSources(r: PaintNode)
      requires computedRange.distanceX >= 0
      modifies this`previousValues, r
      ensures |r.children| == |valueSources|
      ensures var painted := Painted(valueSources, |valueSources|, old(previousValues), CurrentLayout());
              && (forall i :: 0 <= i < |valueSources| ==>
                    r.children[|valueSources| - 1 - i] == Shape(smooth, painted[i]))
              && previousValues == Last(painted, old(previousValues))
    {
      DrawEach(r);
      r.ShrinkTo(|valueSources|);
    }

    /** Draws `source` into the child at `childIndex`, appending empty
        children first when there are not enough. */
    method DrawSource(r: PaintNode, childIndex: nat, source: Source)
      requires computedRange.distanceX >= 0
      modifies this`previousValues, r
      ensures |r.children| == if childIndex < |old(r.children)| then |old(r.children)| else childIndex + 1
      ensures forall m :: 0 <= m < |old(r.children)| && m != childIndex ==> r.children[m] == old(r.children)[m]
      ensures forall m :: |old(r.children)| <= m < |r.children| && m != childIndex ==> r.children[m] == Raw([])
      ensures previousValues == StackOnto(stacked, Series(source, CurrentLayout()), old(previousValues))
      ensures r.children[childIndex] == Shape(smooth, previousValues)
    {
      r.GrowTo(childIndex + 1);
      var curve := UpdateLineNode(source);
      r.SetChild(childIndex, curve);
    }

    /** Draws source i into child sources - 1 - i, appending children as
        needed. */
    method DrawEach(r: PaintNode)
      requires computedRange.distanceX >= 0
      modifies this`previousValues, r
      ensures |valueSources| > 0 ==> |r.children| >= |valueSources|
      ensures var painted := Painted(valueSources, |valueSources|, old(previousValues), CurrentLayout());
              && DrawnInReverse(r.children, |valueSources|, smooth, painted)
              && previousValues == Last(painted, old(previousValues))
    {
      ghost var start := previousValues;
      var i := 0;
      while i < |valueSources|
        invariant 0 <= i <= |valueSources|
        invariant i > 0 ==> |r.children| >= |valueSources|
        invariant DrawnInReverse(r.children, |valueSources|, smooth, Painted(valueSources, i, start, CurrentLayout()))
        invariant previousValues == Last(Painted(valueSources, i, start, CurrentLayout()), start)
      {
        DrawNext(r, i, start);
        i := i + 1;
      }
    }

    /** One step of DrawEach: draws source i, after sources 0..i - 1 have been
        drawn in a paint that started with `start` remembered. */
    method DrawNext(r: PaintNode, i: nat, ghost start: seq<Point>)
      requires computedRange.distanceX >= 0 && i < |valueSources|
      requires i > 0 ==> |r.children| >= |valueSources|
      requires DrawnInReverse(r.children, |valueSources|, smooth, Painted(valueSources, i, start, CurrentLayout()))
      requires previousValues == Last(Painted(valueSources, i, start, CurrentLayout()), start)
      modifies this`previousValues, r
      ensures |r.children| >= |valueSources|
      ensures DrawnInReverse(r.children, |valueSources|, smooth, Painted(valueSources, i + 1, start, CurrentLayout()))
      ensures previousValues == Last(Painted(valueSources, i + 1, start, CurrentLayout()), start)
    {
      ghost var painted := Painted(valueSources, i, start, CurrentLayout());
      ghost var drawn := r.children;
      DrawSource(r, |valueSources| - 1 - i, valueSources[i]);
      DrawnStep(drawn, r.children, |valueSources|, smooth, painted, previousValues);
    }
  }
}
