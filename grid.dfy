// Utils::Grid<T>: a w x h grid stored column-major in one vector, cell
// (x, y) at index x * h + y. `at` is checked, `operator()` is not, and
// `operator[]` checks the column only and hands back the address of its
// first cell. A thrown std::out_of_range is a None / false result here.

module Grids {
  import opened Common

  /** index(x, y) = x * h + y. */
  function CellIndex(h: nat, x: nat, y: nat): nat
  {
    x * h + y
  }

  /** inBounds(x, y). */
  predicate InBounds(w: nat, h: nat, x: nat, y: nat)
  {
    x < w && y < h
  }

  lemma MulMono(a: nat, b: nat, h: nat)
    requires a <= b
    ensures a * h <= b * h
  {
  }

  /** An in-bounds cell has an index inside the vector. */
  lemma CellIndexInRange(w: nat, h: nat, x: nat, y: nat)
    requires InBounds(w, h, x, y)
    ensures CellIndex(h, x, y) < w * h
  {
    MulMono(x + 1, w, h);
    assert (x + 1) * h == x * h + h;
  }

  /** Distinct in-bounds cells have distinct indices. */
  lemma CellIndexInjective(h: nat, x1: nat, y1: nat, x2: nat, y2: nat)
    requires y1 < h && y2 < h
    requires CellIndex(h, x1, y1) == CellIndex(h, x2, y2)
    ensures x1 == x2 && y1 == y2
  {
    if x1 < x2 {
      MulMono(x1 + 1, x2, h);
    } else if x2 < x1 {
      MulMono(x2 + 1, x1, h);
    }
  }

  /** at(x, y) over a cell vector: the cell, or None where the source throws out_of_range. */
  function Lookup<T>(data: seq<T>, w: nat, h: nat, x: nat, y: nat): (r: Option<T>)
    requires |data| == w * h
    ensures r.Some? <==> InBounds(w, h, x, y)
  {
    if InBounds(w, h, x, y) then
      CellIndexInRange(w, h, x, y);
      Some(data[CellIndex(h, x, y)])
    else None
  }

  /** Writing one cell through at() changes that cell and no other. */
  lemma LookupAfterWrite<T>(data: seq<T>, w: nat, h: nat, x: nat, y: nat, v: T, x': nat, y': nat)
    requires |data| == w * h && InBounds(w, h, x, y)
    ensures CellIndex(h, x, y) < |data|
    ensures Lookup(data[CellIndex(h, x, y) := v], w, h, x', y') ==
              if x' == x && y' == y then Some(v) else Lookup(data, w, h, x', y')
  {
    CellIndexInRange(w, h, x, y);
    if InBounds(w, h, x', y') && (x' != x || y' != y) {
      CellIndexInRange(w, h, x', y');
      if CellIndex(h, x, y) == CellIndex(h, x', y') {
        CellIndexInjective(h, x, y, x', y');
      }
    }
  }

  /**
   * operator[](x): the offset of column x, or None where the source throws
   * (x >= w). The row is not checked by the caller of the pointer.
   */
  function ColumnOffset(w: nat, h: nat, x: nat): (r: Option<nat>)
    ensures r.Some? <==> x < w
    ensures r.Some? ==> r.value + h <= w * h
  {
    if x >= w then None
    else
      MulMono(x + 1, w, h);
      assert (x + 1) * h == x * h + h;
      Some(x * h)
  }

  /** Through the column pointer, row y of column x is the cell (x, y). */
  lemma ColumnPointerReadsCell<T>(data: seq<T>, w: nat, h: nat, x: nat, y: nat)
    requires |data| == w * h && InBounds(w, h, x, y)
    ensures ColumnOffset(w, h, x).Some?
    ensures ColumnOffset(w, h, x).value + y < |data|
    ensures Lookup(data, w, h, x, y) == Some(data[ColumnOffset(w, h, x).value + y])
  {
    CellIndexInRange(w, h, x, y);
  }

  /**
   * The row behind the column pointer is not checked: row h + y of
   * column x is the cell (x + 1, y) of the next column.
   */
  lemma ColumnPointerOverrun<T>(data: seq<T>, w: nat, h: nat, x: nat, y: nat)
    requires |data| == w * h && InBounds(w, h, x + 1, y)
    ensures ColumnOffset(w, h, x).Some?
    ensures ColumnOffset(w, h, x).value + (h + y) < |data|
    ensures Lookup(data, w, h, x + 1, y) == Some(data[ColumnOffset(w, h, x).value + (h + y)])
  {
    CellIndexInRange(w, h, x + 1, y);
    assert (x + 1) * h == x * h + h;
  }

  class Grid<T> {
    var w: nat
    var h: nat
    var data: seq<T>

    ghost predicate Valid()
      reads this
    {
      |data| == w * h
    }

    /** Grid(): 0 x 0 and no cells. */
    constructor()
      ensures Valid() && w == 0 && h == 0 && data == []
    {
      w, h, data := 0, 0, [];
    }

    /** Grid(w, h) and Grid(w, h, fill); the first fills with T{}, passed here as `fill`. */
    constructor Filled(width: nat, height: nat, fill: T)
      ensures Valid() && w == width && h == height
      ensures forall i :: 0 <= i < |data| ==> data[i] == fill
    {
      w, h := width, height;
      data := seq(width * height, _ => fill);
    }

    /** The copy constructor: the same dimensions and cells. */
    constructor Copy(other: Grid<T>)
      requires other.Valid()
      ensures Valid() && w == other.w && h == other.h && data == other.data
    {
      w, h, data := other.w, other.h, other.data;
    }

    /** The move constructor: takes the cells; the source is left 0 x 0 and empty. */
    constructor Move(other: Grid<T>)
      requires other.Valid()
      modifies other
      ensures Valid() && w == old(other.w) && h == old(other.h) && data == old(other.data)
      ensures other.Valid() && other.w == 0 && other.h == 0 && other.data == []
    {
      w, h, data := other.w, other.h, other.data;
      new;
      other.w, other.h, other.data := 0, 0, [];
    }

    /** Copy assignment; assigning a grid to itself changes nothing. */
    method CopyAssign(other: Grid<T>)
      requires Valid() && other.Valid()
      modifies this
      ensures Valid() && w == old(other.w) && h == old(other.h) && data == old(other.data)
      ensures other == this ==> unchanged(this)
    {
      if this != other {
        w, h, data := other.w, other.h, other.data;
      }
    }

    /** Move assignment: takes the cells and empties the source; a self-move changes nothing. */
    method MoveAssign(other: Grid<T>)
      requires Valid() && other.Valid()
      modifies this, other
      ensures Valid() && other.Valid()
      ensures other == this ==> unchanged(this)
      ensures other != this ==> w == old(other.w) && h == old(other.h) && data == old(other.data)
      ensures other != this ==> other.w == 0 && other.h == 0 && other.data == []
    {
      if this != other {
        w, h, data := other.w, other.h, other.data;
        other.w, other.h, other.data := 0, 0, [];
      }
    }

    /** at(x, y) read: the cell, or None for out_of_range. */
    function At(x: nat, y: nat): (r: Option<T>)
      reads this
      requires Valid()
      ensures r.Some? <==> x < w && y < h
    {
      Lookup(data, w, h, x, y)
    }

    /** at(x, y) = v: writes one cell, or reports out_of_range and changes nothing. */
    method SetAt(x: nat, y: nat, v: T) returns (ok: bool)
      requires Valid()
      modifies this
      ensures Valid() && w == old(w) && h == old(h)
      ensures ok <==> InBounds(w, h, x, y)
      ensures !ok ==> data == old(data)
      ensures forall x', y' :: At(x', y') == if ok && x' == x && y' == y then Some(v) else Lookup(old(data), w, h, x', y')
    {
      if !InBounds(w, h, x, y) {
        return false;
      }
      CellIndexInRange(w, h, x, y);
      data := data[CellIndex(h, x, y) := v];
      ok := true;
      forall x', y' ensures At(x', y') == if x' == x && y' == y then Some(v) else Lookup(old(data), w, h, x', y') {
        LookupAfterWrite(old(data), w, h, x, y, v, x', y');
      }
    }

    /** operator()(x, y): unchecked, so the caller must stay in bounds. */
    function Cell(x: nat, y: nat): (r: T)
      reads this
      requires Valid() && InBounds(w, h, x, y)
      ensures At(x, y) == Some(r)
    {
      CellIndexInRange(w, h, x, y);
      data[CellIndex(h, x, y)]
    }

    /** fill(v): every cell becomes v; the dimensions stay. */
    method Fill(v: T)
      requires Valid()
      modifies this
      ensures Valid() && w == old(w) && h == old(h) && |data| == old(|data|)
      ensures forall x, y :: InBounds(w, h, x, y) ==> At(x, y) == Some(v)
    {
      data := seq(|data|, _ => v);
      forall x, y | InBounds(w, h, x, y) ensures At(x, y) == Some(v) {
        CellIndexInRange(w, h, x, y);
      }
    }

    /** clear(): no cells and 0 x 0. */
    method Clear()
      requires Valid()
      modifies this
      ensures Valid() && w == 0 && h == 0 && data == []
    {
      data := [];
      w, h := 0, 0;
    }

    /** resize(w, h) and resize(w, h, fill): the old cells are discarded. */
    method Resize(width: nat, height: nat, fill: T)
      requires Valid()
      modifies this
      ensures Valid() && w == width && h == height
      ensures forall x, y :: InBounds(w, h, x, y) ==> At(x, y) == Some(fill)
    {
      w, h := width, height;
      data := seq(width * height, _ => fill);
      forall x, y | InBounds(w, h, x, y) ensures At(x, y) == Some(fill) {
        CellIndexInRange(w, h, x, y);
      }
    }

    /** size() and empty(). */
    function Size(): (n: nat)
      reads this
      requires Valid()
      ensures n == w * h
    {
      |data|
    }

    function Empty(): (b: bool)
      reads this
      requires Valid()
      ensures b <==> w == 0 || h == 0
    {
      |data| == 0
    }
  }
}
