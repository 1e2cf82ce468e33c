/**
 * The game session of Swiftris/Swiftris.swift: the board, the preview shape
 * and the falling shape, and the two steps that fill them.
 */
module Game {
  import opened Wrappers
  import opened Board
  import opened Blocks
  import opened Shapes

  /** The board's dimensions. */
  const NumColumns: nat := 10
  const NumRows: nat := 20

  /** Where a shape starts falling. */
  const StartingColumn: int := 4
  const StartingRow: int := 0

  /** Where the preview shape waits. */
  const PreviewColumn: int := 12
  const PreviewRow: int := 1

  class Swiftris {
    var blockArray: Array2D<Block>
    var nextShape: Shape?
    var fallingShape: Shape?
    /** The offset tables of the seven shape kinds that `Shape.random` draws from. */
    const catalogue: Catalogue

    /** `shape` carries the tables of one of the seven kinds `Shape.random` draws. */
    ghost predicate Drawn(shape: Shape)
    {
      exists pick :: 0 <= pick < NumShapeTypes && shape.variant == catalogue(KindOf(pick))
    }

    /**
     * The board is 10 x 20; each shape present is valid and drawn from the
     * catalogue; the falling and the preview shape are different objects that
     * share no block.
     */
    ghost predicate Valid()
      reads this, blockArray, nextShape, fallingShape
    {
      && blockArray.Valid()
      && blockArray.columns == NumColumns && blockArray.rows == NumRows
      && CatalogueWellFormed(catalogue)
      && (nextShape != null ==> nextShape.Valid() && Drawn(nextShape))
      && (fallingShape != null ==> fallingShape.Valid() && Drawn(fallingShape))
      && (fallingShape != null && nextShape != null ==>
            && fallingShape != nextShape
            && forall i, j :: 0 <= i < |fallingShape.blocks| && 0 <= j < |nextShape.blocks| ==>
                 fallingShape.blocks[i] != nextShape.blocks[j])
    }

    /** No shapes yet, and an empty 10 x 20 board. */
    constructor (catalogue: Catalogue)
      requires CatalogueWellFormed(catalogue)
      ensures Valid() && fresh(blockArray) && fresh(blockArray.slots)
      ensures nextShape == null && fallingShape == null
      ensures this.catalogue == catalogue
      ensures blockArray.slots.Length == NumColumns * NumRows
      ensures forall i :: 0 <= i < blockArray.slots.Length ==> blockArray.slots[i] == None
    {
      fallingShape := null;
      nextShape := null;
      blockArray := new Array2D<Block>(NumColumns, NumRows);
      this.catalogue := catalogue;
    }

    /**
     * `beginGame`: draws a preview shape at the preview anchor, unless there is
     * one already, which is then kept as it is.
     */
    method BeginGame()
      requires Valid()
      modifies this
      ensures Valid() && nextShape != null
      ensures fallingShape == old(fallingShape) && blockArray == old(blockArray)
      ensures old(nextShape) != null ==> nextShape == old(nextShape)
      ensures old(nextShape) == null ==>
                && fresh(nextShape) && nextShape.InFormation()
                && nextShape.column == PreviewColumn && nextShape.row == PreviewRow
                && (forall i :: 0 <= i < |nextShape.blocks| ==> fresh(nextShape.blocks[i]))
                && Drawn(nextShape)
    {
      if nextShape == null {
        nextShape := RandomShape(catalogue, PreviewColumn, PreviewRow);
      }
    }

    /**
     * `newShape`: the preview shape, the very same object, becomes the falling
     * shape and moves to the starting anchor, its blocks recomputed from its
     * orientation's table entry; a new preview shape is drawn. Returns the two
     * new values of the fields. The board is not touched.
     */
    method NewShape() returns (falling: Shape?, next: Shape?)
      requires Valid()
      modifies this, nextShape, if nextShape == null then [] else nextShape.blocks
      ensures Valid()
      ensures fallingShape == old(nextShape)
      ensures nextShape != null && fresh(nextShape) && nextShape.InFormation()
      ensures nextShape.column == PreviewColumn && nextShape.row == PreviewRow
      ensures forall i :: 0 <= i < |nextShape.blocks| ==> fresh(nextShape.blocks[i])
      ensures Drawn(nextShape)
      ensures fallingShape != null ==>
                && fallingShape.column == StartingColumn && fallingShape.row == StartingRow
                && fallingShape.orientation == old(nextShape.orientation)
                && fallingShape.blocks == old(nextShape.blocks)
                && fallingShape.InFormation()
      ensures falling == fallingShape && next == nextShape
      ensures blockArray == old(blockArray) && unchanged(blockArray, blockArray.slots)
    {
      fallingShape := nextShape;
      nextShape := RandomShape(catalogue, PreviewColumn, PreviewRow);
      if fallingShape != null {
        fallingShape.MoveTo(StartingColumn, StartingRow);
      }
      falling, next := fallingShape, nextShape;
    }
  }

  /**
   * `beginGame` is idempotent: a second call keeps the preview shape that the
   * first call left.
   */
  method BeginGameTwice(game: Swiftris) returns (first: Shape?, second: Shape?)
    requires game.Valid()
    modifies game
    ensures first != null && first == second && second == game.nextShape
    ensures old(game.nextShape) != null ==> first == old(game.nextShape)
  {
    game.BeginGame();
    first := game.nextShape;
    game.BeginGame();
    second := game.nextShape;
  }

  /**
   * A session from its start: `init`, `beginGame`, then `newShape` twice. The
   * first falling shape is displaced by the second one and is left, with its
   * blocks, where the first `newShape` put it, at the starting anchor.
   */
  method OpeningSequence(catalogue: Catalogue) returns (game: Swiftris, first: Shape, second: Shape)
    requires CatalogueWellFormed(catalogue)
    ensures game.Valid() && game.fallingShape == second && first != second
    ensures first.column == StartingColumn && first.row == StartingRow && first.InFormation()
    ensures second.column == StartingColumn && second.row == StartingRow && second.InFormation()
  {
    game := new Swiftris(catalogue);
    game.BeginGame();
    var f1, n1 := game.NewShape();
    first := f1;
    ghost var firstCells := first.Cells();
    var f2, n2 := game.NewShape();
    second := f2;
    assert first.Cells() == firstCells;
  }

  /**
   * In any valid session, `newShape` leaves the shape it displaces from the
   * falling slot, and that shape's blocks, where they were.
   */
  method NewShapeKeepsDisplaced(game: Swiftris) returns (displaced: Shape?)
    requires game.Valid()
    modifies game, game.nextShape, if game.nextShape == null then [] else game.nextShape.blocks
    ensures displaced == old(game.fallingShape)
    ensures displaced != null ==>
              displaced.Cells() == old(displaced.Cells())
              && displaced.column == old(displaced.column) && displaced.row == old(displaced.row)
  {
    displaced := game.fallingShape;
    var falling, next := game.NewShape();
  }
}
