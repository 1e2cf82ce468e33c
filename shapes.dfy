/**
 * Tetromino shapes, as in Swiftris/Shape.swift: four orientations, an anchored
 * and oriented arrangement of blocks, and the moves that update it in place.
 *
 * The seven shape subclasses, which hold the per-orientation offset tables and
 * bottom-block tables, are not part of this model; a `Variant` value stands for
 * the tables of one subclass.
 */
module Shapes {
  import opened Wrappers
  import opened Blocks

  const NumOrientations: nat := 4
  const NumShapeTypes: nat := 7

  datatype Orientation = Zero | Ninety | OneEighty | TwoSeventy
  {
    /** The enum's raw value: Zero is 0, then one more per quarter turn. */
    function Raw(): (r: nat)
      ensures r < NumOrientations
    {
      match this
      case Zero => 0
      case Ninety => 1
      case OneEighty => 2
      case TwoSeventy => 3
    }

    /** The failable initialiser `Orientation(rawValue:)`. */
    static function FromRaw(raw: int): (r: Option<Orientation>)
      ensures r.Some? <==> 0 <= raw < NumOrientations
      ensures r.Some? ==> r.value.Raw() == raw
    {
      if raw == 0 then Some(Zero)
      else if raw == 1 then Some(Ninety)
      else if raw == 2 then Some(OneEighty)
      else if raw == 3 then Some(TwoSeventy)
      else None
    }
  }

  /**
   * `Orientation.rotate`: one quarter step clockwise or counter-clockwise,
   * wrapping past 270 to 0 and below 0 to 270. The wrapped raw value is always
   * a valid orientation, so the forced unwrap never fails.
   */
  function Rotate(orientation: Orientation, clockwise: bool): (r: Orientation)
    ensures r.Raw() == (orientation.Raw() + (if clockwise then 1 else -1)) % NumOrientations
  {
    var rotated := orientation.Raw() + (if clockwise then 1 else -1);
    var wrapped :=
      if rotated > TwoSeventy.Raw() then Zero.Raw()
      else if rotated < 0 then TwoSeventy.Raw()
      else rotated;
    Orientation.FromRaw(wrapped).value
  }

  lemma OrientationRawInjective(a: Orientation, b: Orientation)
    ensures a.Raw() == b.Raw() <==> a == b
  {
  }

  /** Four quarter turns the same way bring a shape back to where it started. */
  lemma RotateFourTimes(orientation: Orientation, clockwise: bool)
    ensures Rotate(Rotate(Rotate(Rotate(orientation, clockwise), clockwise), clockwise), clockwise) == orientation
  {
    OrientationRawInjective(Rotate(Rotate(Rotate(Rotate(orientation, clockwise), clockwise), clockwise), clockwise), orientation);
  }

  /** A quarter turn one way, then the other, changes nothing. */
  lemma RotateBack(orientation: Orientation, clockwise: bool)
    ensures Rotate(Rotate(orientation, clockwise), !clockwise) == orientation
  {
    OrientationRawInjective(Rotate(Rotate(orientation, clockwise), !clockwise), orientation);
  }

  /**
   * `Orientation.random()`: `arc4random_uniform(NumOrientations)` yields some
   * raw value below `NumOrientations`, modelled as a free choice.
   */
  method RandomOrientation() returns (orientation: Orientation)
    ensures exists raw :: 0 <= raw < NumOrientations && Orientation.FromRaw(raw) == Some(orientation)
  {
    var raw: int :| 0 <= raw < NumOrientations;
    var drawn := Orientation.FromRaw(raw);
    orientation := drawn.value;
  }

  /** One entry of an offset table: a block's position relative to the anchor. */
  datatype Offset = Offset(columnDiff: int, rowDiff: int)

  /** The seven subclasses of `Shape`. */
  datatype Kind = SquareShape | LineShape | TShape | LShape | JShape | SShape | ZShape

  /**
   * The tables one subclass supplies: `blockRowColumnPositions`, the offsets of
   * its blocks per orientation, and `bottomBlocksForOrientations`, given here as
   * the indices of the blocks that are bottom blocks per orientation.
   */
  datatype Variant = Variant(positions: map<Orientation, seq<Offset>>, bottoms: map<Orientation, seq<nat>>)
  {
    /** The offset table entry for `orientation`, or no offsets without one. */
    function Offsets(orientation: Orientation): seq<Offset>
    {
      if orientation in positions then positions[orientation] else []
    }

    /** Every bottom-block index names one of the blocks of its orientation. */
    ghost predicate WellFormed()
    {
      forall o, k :: o in bottoms && 0 <= k < |bottoms[o]| ==> bottoms[o][k] < |Offsets(o)|
    }
  }

  /** The tables of all seven subclasses. */
  type Catalogue = Kind -> Variant

  ghost predicate CatalogueWellFormed(catalogue: Catalogue)
  {
    forall k :: catalogue(k).WellFormed()
  }

  /** The cells of a shape anchored at `(column, row)`, one per table offset. */
  function Placed(column: int, row: int, color: BlockColor, offsets: seq<Offset>): seq<Cell>
  {
    seq(|offsets|, i requires 0 <= i < |offsets| =>
      Cell(column + offsets[i].columnDiff, row + offsets[i].rowDiff, color))
  }

  /** The cells moved by `columns` columns and `rows` rows, colours kept. */
  function Shifted(cells: seq<Cell>, columns: int, rows: int): seq<Cell>
  {
    seq(|cells|, i requires 0 <= i < |cells| =>
      Cell(cells[i].column + columns, cells[i].row + rows, cells[i].color))
  }

  /** Shifting a placed shape is placing it at the shifted anchor. */
  lemma ShiftedPlaced(column: int, row: int, color: BlockColor, offsets: seq<Offset>, columns: int, rows: int)
    ensures Shifted(Placed(column, row, color, offsets), columns, rows)
         == Placed(column + columns, row + rows, color, offsets)
  {
  }

  /** A shift is undone by the opposite shift. */
  lemma ShiftedInverse(cells: seq<Cell>, columns: int, rows: int)
    ensures Shifted(Shifted(cells, columns, rows), -columns, -rows) == cells
  {
  }

  /** Two shifts in a row are one shift by the sum. */
  lemma ShiftedComposes(cells: seq<Cell>, c1: int, r1: int, c2: int, r2: int)
    ensures Shifted(Shifted(cells, c1, r1), c2, r2) == Shifted(cells, c1 + c2, r1 + r2)
  {
  }

  /** The cells of a sequence of blocks, in order. */
  function Views(bs: seq<Block>): seq<Cell>
    reads bs
  {
    seq(|bs|, i requires 0 <= i < |bs| reads bs => bs[i].View())
  }

  ghost predicate Distinct(bs: seq<Block>)
  {
    forall i, j :: 0 <= i < j < |bs| ==> bs[i] != bs[j]
  }

  /** `Shape.random`'s switch: the kind drawn for a pick below `NumShapeTypes`. */
  function KindOf(pick: int): Kind
  {
    match pick
    case 0 => SquareShape
    case 1 => LineShape
    case 2 => TShape
    case 3 => LShape
    case 4 => JShape
    case 5 => SShape
    case _ => ZShape
  }

  /** Each of the seven kinds is drawn by some pick. */
  lemma EveryKindDrawable(kind: Kind)
    ensures exists pick :: 0 <= pick < NumShapeTypes && KindOf(pick) == kind
  {
    var pick := match kind
      case SquareShape => 0
      case LineShape => 1
      case TShape => 2
      case LShape => 3
      case JShape => 4
      case SShape => 5
      case ZShape => 6;
    assert KindOf(pick) == kind;
  }

  /**
   * The loop of `shiftBy`: `for block in blocks` moves each block, in place,
   * by the same amount. The blocks are distinct, so each moves once.
   */
  method ShiftEach(bs: seq<Block>, columns: int, rows: int)
    requires Distinct(bs)
    modifies bs
    ensures Views(bs) == Shifted(old(Views(bs)), columns, rows)
  {
    for i := 0 to |bs|
      invariant forall k :: 0 <= k < i ==>
                  bs[k].column == old(bs[k].column) + columns && bs[k].row == old(bs[k].row) + rows
      invariant forall k :: i <= k < |bs| ==>
                  bs[k].column == old(bs[k].column) && bs[k].row == old(bs[k].row)
    {
      var block := bs[i];
      block.column := block.column + columns;
      block.row := block.row + rows;
    }
  }

  class Shape {
    const color: BlockColor
    /** The offset and bottom-block tables of this shape's subclass. */
    const variant: Variant
    var blocks: seq<Block>
    var orientation: Orientation
    /** The anchor. */
    var column: int
    var row: int

    /**
     * The shape's own blocks are distinct objects of its colour, one per offset
     * of its orientation's table entry, and its bottom-block table names them.
     */
    ghost predicate Valid()
      reads this
    {
      && variant.WellFormed()
      && Distinct(blocks)
      && (forall i :: 0 <= i < |blocks| ==> blocks[i].color == color)
      && |blocks| == |variant.Offsets(orientation)|
    }

    function Cells(): seq<Cell>
      reads this, blocks
    {
      Views(blocks)
    }

    /** Every block sits at the anchor plus its offset for the orientation. */
    ghost predicate InFormation()
      reads this, blocks
    {
      Cells() == Placed(column, row, color, variant.Offsets(orientation))
    }

    /** The designated initialiser: anchor, colour, orientation, then the blocks. */
    constructor (column: int, row: int, color: BlockColor, orientation: Orientation, variant: Variant)
      requires variant.WellFormed()
      ensures Valid() && InFormation()
      ensures this.column == column && this.row == row
      ensures this.color == color && this.orientation == orientation && this.variant == variant
      ensures forall i :: 0 <= i < |blocks| ==> fresh(blocks[i])
    {
      this.column := column;
      this.row := row;
      this.color := color;
      this.orientation := orientation;
      this.variant := variant;
      blocks := [];
      new;
      InitializeBlocks();
    }

    /**
     * `initializeBlocks`: appends one new block of the shape's colour at the
     * anchor plus each offset of the orientation's table entry, if there is one.
     */
    method InitializeBlocks()
      modifies this
      ensures column == old(column) && row == old(row) && orientation == old(orientation)
      ensures |blocks| >= |old(blocks)| && blocks[..|old(blocks)|] == old(blocks)
      ensures Cells() == old(Cells()) + Placed(column, row, color, variant.Offsets(orientation))
      ensures forall i :: |old(blocks)| <= i < |blocks| ==> fresh(blocks[i]) && blocks[i].color == color
      ensures Distinct(old(blocks)) ==> Distinct(blocks)
    {
      if orientation in variant.positions {
        var translations := variant.positions[orientation];
        for i := 0 to |translations|
          invariant column == old(column) && row == old(row) && orientation == old(orientation)
          invariant |blocks| == |old(blocks)| + i && blocks[..|old(blocks)|] == old(blocks)
          invariant forall k :: 0 <= k < i ==>
                      blocks[|old(blocks)| + k].View()
                      == Cell(column + translations[k].columnDiff, row + translations[k].rowDiff, color)
          invariant forall k :: |old(blocks)| <= k < |blocks| ==> fresh(blocks[k]) && blocks[k].color == color
          invariant Distinct(old(blocks)) ==> Distinct(blocks)
        {
          var blockRow := row + translations[i].rowDiff;
          var blockColumn := column + translations[i].columnDiff;
          var newBlock := new Block(blockColumn, blockRow, color);
          blocks := blocks + [newBlock];
        }
      }
      assert Cells() == old(Cells()) + Placed(column, row, color, variant.Offsets(orientation)) by {
        var placed := Placed(column, row, color, variant.Offsets(orientation));
        forall k | 0 <= k < |blocks|
          ensures Cells()[k] == (old(Cells()) + placed)[k]
        {
          if k < |old(blocks)| {
            assert blocks[k] == old(blocks)[k];
          }
        }
      }
    }

    /**
     * `rotateBlocks`: moves the first blocks to the anchor plus the offsets of
     * `target`'s table entry; without an entry nothing changes. The shape's own
     * orientation, anchor and colour stay as they are.
     */
    method RotateBlocks(target: Orientation)
      requires Valid()
      requires target in variant.positions ==> |variant.positions[target]| <= |blocks|
      modifies blocks
      ensures Valid()
      ensures target in variant.positions ==>
                Cells() == Placed(column, row, color, variant.positions[target])
                           + old(Cells())[|variant.positions[target]|..]
      ensures target !in variant.positions ==> Cells() == old(Cells())
      ensures column == old(column) && row == old(row) && orientation == old(orientation)
      ensures blocks == old(blocks)
    {
      if target in variant.positions {
        var translation := variant.positions[target];
        for idx := 0 to |translation|
          invariant forall k :: 0 <= k < idx ==>
                      blocks[k].column == column + translation[k].columnDiff
                      && blocks[k].row == row + translation[k].rowDiff
          invariant forall k :: idx <= k < |blocks| ==>
                      blocks[k].column == old(blocks[k].column) && blocks[k].row == old(blocks[k].row)
        {
          blocks[idx].column := column + translation[idx].columnDiff;
          blocks[idx].row := row + translation[idx].rowDiff;
        }
        var expected := Placed(column, row, color, translation) + old(Cells())[|translation|..];
        forall k | 0 <= k < |blocks|
          ensures Cells()[k] == expected[k]
        {
          if k >= |translation| {
            assert expected[k] == old(Cells())[k] == old(blocks[k].View());
          }
        }
        assert |Cells()| == |expected|;
      }
    }

    /** `shiftBy`: moves the anchor and every block by the same amount. */
    method ShiftBy(columns: int, rows: int)
      requires Valid()
      modifies this, blocks
      ensures Valid()
      ensures column == old(column) + columns && row == old(row) + rows
      ensures orientation == old(orientation) && blocks == old(blocks)
      ensures Cells() == Shifted(old(Cells()), columns, rows)
      ensures old(InFormation()) ==> InFormation()
    {
      ghost var before := Cells();
      ghost var formation := Placed(column, row, color, variant.Offsets(orientation));
      this.column := this.column + columns;
      this.row := this.row + rows;
      assert Views(blocks) == before;
      ShiftEach(blocks, columns, rows);
      ShiftedPlaced(old(column), old(row), color, variant.Offsets(orientation), columns, rows);
      assert before == formation ==> Cells() == Placed(column, row, color, variant.Offsets(orientation));
    }

    /** `lowerShapeByOneRow`: a shift by one row down. */
    method LowerShapeByOneRow()
      requires Valid()
      modifies this, blocks
      ensures Valid()
      ensures column == old(column) && row == old(row) + 1
      ensures orientation == old(orientation) && blocks == old(blocks)
      ensures Cells() == Shifted(old(Cells()), 0, 1)
      ensures old(InFormation()) ==> InFormation()
    {
      ShiftBy(0, 1);
    }

    /**
     * `moveTo`: sets the anchor and recomputes every block from the table entry
     * of the current orientation.
     */
    method MoveTo(column: int, row: int)
      requires Valid()
      modifies this, blocks
      ensures Valid() && InFormation()
      ensures this.column == column && this.row == row
      ensures orientation == old(orientation) && blocks == old(blocks)
    {
      this.column := column;
      this.row := row;
      RotateBlocks(orientation);
    }

    /**
     * `bottomBlocks`: the blocks the bottom-block table names for the current
     * orientation, or none without an entry.
     */
    function BottomBlocks(): (r: seq<Block>)
      reads this
      requires Valid()
      ensures orientation !in variant.bottoms ==> r == []
      ensures orientation in variant.bottoms ==> |r| == |variant.bottoms[orientation]|
      ensures orientation in variant.bottoms ==>
                forall k :: 0 <= k < |r| ==> r[k] == blocks[variant.bottoms[orientation][k]]
      ensures forall i :: 0 <= i < |r| ==> r[i] in blocks
    {
      if orientation in variant.bottoms then
        var indices := variant.bottoms[orientation];
        var shapeBlocks := blocks;
        seq(|indices|, k requires 0 <= k < |indices| => shapeBlocks[indices[k]])
      else
        []
    }

    /**
     * For a shape in formation, the k-th bottom block sits at the anchor plus
     * the offset whose index the bottom-block table names at position k.
     */
    lemma BottomBlocksPlaced()
      requires Valid() && InFormation()
      ensures orientation in variant.bottoms ==>
                forall k :: 0 <= k < |BottomBlocks()| ==>
                  var offset := variant.Offsets(orientation)[variant.bottoms[orientation][k]];
                  BottomBlocks()[k].View() == Cell(column + offset.columnDiff, row + offset.rowDiff, color)
    {
      if orientation in variant.bottoms {
        forall k | 0 <= k < |BottomBlocks()|
          ensures BottomBlocks()[k].View() == Placed(column, row, color, variant.Offsets(orientation))[variant.bottoms[orientation][k]]
        {
          var j := variant.bottoms[orientation][k];
          assert BottomBlocks()[k] == blocks[j];
          assert Cells()[j] == blocks[j].View();
        }
      }
    }

    /** The `==` operator on shapes: the anchors alone are compared. */
    function SameAnchor(other: Shape): bool
      reads this, other
    {
      row == other.row && column == other.column
    }
  }

  /** Shape `==` is an equivalence relation. */
  lemma SameAnchorIsEquivalence(a: Shape, b: Shape, c: Shape)
    ensures a.SameAnchor(a)
    ensures a.SameAnchor(b) ==> b.SameAnchor(a)
    ensures a.SameAnchor(b) && b.SameAnchor(c) ==> a.SameAnchor(c)
  {
  }

  /**
   * `Shape.random`: a new shape of one of the seven kinds, with a random colour
   * and orientation, anchored at `(startingColumn, startingRow)`.
   */
  method RandomShape(catalogue: Catalogue, startingColumn: int, startingRow: int) returns (shape: Shape)
    requires CatalogueWellFormed(catalogue)
    ensures fresh(shape) && shape.Valid() && shape.InFormation()
    ensures shape.column == startingColumn && shape.row == startingRow
    ensures exists pick :: 0 <= pick < NumShapeTypes && shape.variant == catalogue(KindOf(pick))
    ensures forall i :: 0 <= i < |shape.blocks| ==> fresh(shape.blocks[i])
  {
    var pick: int :| 0 <= pick < NumShapeTypes;
    var kind := KindOf(pick);
    var color := RandomColor();
    var orientation := RandomOrientation();
    shape := new Shape(startingColumn, startingRow, color, orientation, catalogue(kind));
  }

  /**
   * Two shapes at one anchor compare equal whatever their colours,
   * orientations and blocks.
   */
  method EqualityIgnoresColorAndOrientation(variant: Variant, column: int, row: int) returns (a: Shape, b: Shape)
    requires variant.WellFormed()
    ensures a.SameAnchor(b) && a.color != b.color && a.orientation != b.orientation
  {
    a := new Shape(column, row, Blue, Zero, variant);
    b := new Shape(column, row, Red, Ninety, variant);
  }
}
