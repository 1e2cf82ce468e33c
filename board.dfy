/**
 * The game board of Swiftris/Array2D.swift: a fixed `columns x rows` grid of
 * optional slots, stored row-major in one flat array.
 */
module Board {
  import opened Wrappers

  /** The flat position of `(column, row)` in the backing array. */
  function FlatIndex(columns: int, column: int, row: int): int
  {
    row * columns + column
  }

  /** An in-bounds coordinate pair addresses a slot of a `columns x rows` store. */
  lemma FlatIndexInBounds(columns: nat, rows: nat, column: int, row: int)
    requires 0 <= column < columns && 0 <= row < rows
    ensures 0 <= FlatIndex(columns, column, row) < rows * columns
  {
    assert row * columns <= (rows - 1) * columns by {
      MulMonotone(row, rows - 1, columns);
    }
    assert (rows - 1) * columns + columns == rows * columns;
  }

  lemma MulMonotone(a: int, b: int, c: nat)
    requires a <= b
    ensures a * c <= b * c
  {
    assert b * c - a * c == (b - a) * c;
  }

  /** Distinct in-bounds coordinate pairs never share a slot. */
  lemma FlatIndexInjective(columns: nat, c1: int, r1: int, c2: int, r2: int)
    requires 0 <= c1 < columns && 0 <= c2 < columns
    requires FlatIndex(columns, c1, r1) == FlatIndex(columns, c2, r2)
    ensures c1 == c2 && r1 == r2
  {
    if r1 != r2 {
      // The rows differ by at least one, so the row parts differ by at least
      // `columns`, more than any difference of two in-bounds columns.
      assert (r1 - r2) * columns == c2 - c1;
      if r1 > r2 {
        MulMonotone(1, r1 - r2, columns);
      } else {
        MulMonotone(1, r2 - r1, columns);
      }
      assert false;
    }
  }

  class Array2D<T> {
    const columns: nat
    const rows: nat
    /** The backing store; its slots change, the array object does not. */
    const slots: array<Option<T>>

    ghost predicate Valid()
      reads this
    {
      slots.Length == rows * columns
    }

    /** A board of `rows * columns` empty slots. */
    constructor (columns: nat, rows: nat)
      ensures Valid() && fresh(slots)
      ensures this.columns == columns && this.rows == rows
      ensures forall i :: 0 <= i < slots.Length ==> slots[i] == None
    {
      this.columns := columns;
      this.rows := rows;
      slots := new Option<T>[rows * columns](_ => None);
    }

    /** The subscript getter: the slot at `row * columns + column`. */
    function Get(column: int, row: int): (r: Option<T>)
      reads this, slots
      requires 0 <= FlatIndex(columns, column, row) < slots.Length
    {
      slots[FlatIndex(columns, column, row)]
    }

    /**
     * The subscript setter: stores `newValue` in the slot of `(column, row)` and
     * in no other slot.
     */
    method Set(column: int, row: int, newValue: Option<T>)
      requires 0 <= FlatIndex(columns, column, row) < slots.Length
      modifies slots
      ensures slots[..] == old(slots[..])[FlatIndex(columns, column, row) := newValue]
      ensures Get(column, row) == newValue
      ensures 0 <= column < columns ==>
                forall c, r {:trigger Get(c, r)} ::
                  0 <= c < columns && 0 <= FlatIndex(columns, c, r) < slots.Length && (c != column || r != row) ==>
                  Get(c, r) == old(Get(c, r))
    {
      slots[FlatIndex(columns, column, row)] := newValue;
      forall c, r | 0 <= column < columns && 0 <= c < columns && 0 <= FlatIndex(columns, c, r) < slots.Length && (c != column || r != row)
        ensures Get(c, r) == old(Get(c, r))
      {
        if FlatIndex(columns, c, r) == FlatIndex(columns, column, row) {
          FlatIndexInjective(columns, c, r, column, row);
        }
      }
    }
  }
}
