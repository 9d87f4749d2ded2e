/** Values held by data sources, the read-only view every chart component has of a
    data source, and the one-value source. */
module DataSources {

  datatype Option<+T> = None | Some(value: T)

  /** A QVariant as the charts use it: empty, a number or a piece of text. */
  datatype Variant = Null | Number(x: real) | Text(s: string)

  /** QVariant::toFloat: the number held, 0 for anything that is not a number. */
  function ToReal(v: Variant): (r: real)
    ensures v.Number? ==> r == v.x
    ensures !v.Number? ==> r == 0.0
  {
    if v.Number? then v.x else 0.0
  }

  /** What a chart sees of a ChartDataSource at one moment: its item count and
      the item it answers for every index (sources decide themselves what an
      index outside 0..itemCount yields). */
  datatype Source = Source(itemCount: int, item: int -> Variant)

  /** A data source holding a single value. */
  class SingleValueSource {
    var value: Variant

    /** A default-constructed QVariant is empty. */
    constructor ()
      ensures value == Null
    {
      value := Null;
    }

    /** The stored value, whatever index is asked for. */
    function Item(index: int): (r: Variant)
      reads this
      ensures r == value
    {
      value
    }

    function ItemCount(): (r: int)
      ensures r == 1
    {
      1
    }

    function Value(): (r: Variant)
      reads this
      ensures r == value
    {
      value
    }

    /** The source as a chart sees it: one item, and that item at every index. */
    function AsSource(): (s: Source)
      reads this
      ensures s.itemCount == 1
      ensures forall i :: s.item(i) == Item(i)
    {
      var v := value;
      Source(ItemCount(), _ => v)
    }

    /** Stores `v`; `changed` tells whether dataChanged is emitted, which is
        exactly when `v` differs from the value held before. */
    method SetValue(v: Variant) returns (changed: bool)
      modifies this
      ensures Value() == v
      ensures changed <==> old(value) != v
    {
      if value == v {
        return false;
      }
      value := v;
      changed := true;
    }
  }
}
