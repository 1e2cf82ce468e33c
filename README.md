# Swiftris board and shape model

A Dafny model of the core of Swiftris, a falling-block puzzle game written in Swift. It covers four parts:

- **The board** (`Array2D`). It is a fixed `columns x rows` grid of optional slots, stored row-major in one flat array.
- **The block** (`Block`). It is one board cell: a colour from six values and a mutable column and row.
- **The shape** (`Shape`). It has an anchor, a colour, an orientation and a list of blocks. Its moves change the blocks in place.
- **The game session** (`Swiftris`). It owns the board, a preview shape and a falling shape.

Files and modules:

- `option.dfy`, module `Wrappers`: Swift's optional `T?` as `Option<T>`.
- `board.dfy`, module `Board`: `Array2D` as a class over a Dafny `array<Option<T>>`. `Get` is the subscript getter and `Set` the setter. Both use the flat index `row * columns + column`.
- `blocks.dfy`, module `Blocks`: the items below.
  - `BlockColor` with its raw values, `FromRaw` (the failable `init(rawValue:)`), `SpriteName` and `Description`.
  - `RandomColor`.
  - `Block` as a class with `const color` and mutable `column`/`row`.
  - Block `==` as `SameBlock`, and `hashValue` as `Hash`. `Hash` uses `Int64Xor`, an explicit 64-bit two's-complement xor.
- `shapes.dfy`, module `Shapes`: the items below.
  - `Orientation`, `Rotate` and `RandomOrientation`.
  - `Shape` as a class whose blocks are `Block` objects. Its methods update those objects in place.
  - `Shape.random` as `RandomShape`.
  - Shape `==` as `SameAnchor`.
- `game.dfy`, module `Game`: the board and anchor constants, and `Swiftris` as a class with `BeginGame` and `NewShape`.

Notes on the modelling:

- **Offset tables.** The seven shape subclasses supply the per-orientation tables, and they are not part of this model. A `Variant` value stands for one subclass's tables:
  - `positions` is `blockRowColumnPositions`.
  - `bottoms` is `bottomBlocksForOrientations`, given as indices into the shape's blocks.

  A `Catalogue` (`Kind -> Variant`) gives the tables of all seven kinds. `Shape.random` (Shape.swift:193-210) picks a subclass and so reaches these tables; `beginGame` and `newShape` call it. The model passes the same tables to `RandomShape` explicitly. The `Swiftris` constructor therefore takes a `Catalogue` once and keeps it for those calls. The Swift `init()` takes no argument: it only clears both shape slots and builds the board.
- **Positions as values.** `Shape.Cells()` gives the current `(column, row, color)` of every block as a value sequence. The pure functions `Placed` (anchor plus offsets) and `Shifted` (every cell moved by a delta) specify the shape's moves.
- **The shape's invariant.** `Shape.Valid()` says four things:
  - the blocks are distinct objects;
  - every block has the shape's colour;
  - there is one block per offset of the current orientation's table entry;
  - the tables are well formed.

  `Shape.InFormation()` says every block sits at the anchor plus its offset. The constructor and `MoveTo` establish it, and `ShiftBy` and `LowerShapeByOneRow` keep it.
- **Randomness.** `arc4random_uniform(n)` is a free choice of a value in `[0, n)`. It is written `:|` in `RandomColor`, `RandomOrientation` and `RandomShape`.
- **Shifting.** The loop of `shiftBy` over the blocks is the helper `ShiftEach`. `ShiftBy` calls it after updating the anchor, in the source's order.
- **The session's invariant.** `Swiftris.Valid()` says four things:
  - the board is 10 x 20;
  - each shape present is valid;
  - each shape present carries the catalogue's tables for one of the seven kinds;
  - the falling and preview shapes are different objects that share no block.

  `beginGame` and `newShape` keep it, because every drawn shape and its blocks are new.
- **Object identity.** `NewShape` hands the very same `Shape` object from the preview slot to the falling slot. Its postcondition says so with reference equality.
- **Block count.** A shape has one block per offset in its table entry, not always four, and no blocks when there is no entry.
- **Order of calls.** `newShape` before `beginGame` leaves the falling shape nil, because it copies the empty preview slot.
- **Absent rules.** Swiftris.swift and Shape.swift contain no line clearing, collision check or game over.

## Model

| member | source | states |
|---|---|---|
| `Board.FlatIndexInBounds` | Swiftris/Array2D.swift:42-48 | for `0 <= column < columns` and `0 <= row < rows`, the flat index `row*columns + column` lies in `[0, rows*columns)` |
| `Board.FlatIndexInjective` | Swiftris/Array2D.swift:42-48 | two coordinate pairs with in-range columns and the same flat index are the same pair |
| `Board.Array2D.constructor` | Swiftris/Array2D.swift:34-39 | the backing array has `rows*columns` slots, all empty, and the dimensions are the given ones (they are `const`, so they never change) |
| `Board.Array2D.Set` | Swiftris/Array2D.swift:46-48 | the setter stores the value at the flat index and changes no other slot; a get at the same coordinates returns it; for an in-range column, every other in-range coordinate pair reads as before; the array keeps its length |
| `Blocks.BlockColor.Raw` | Swiftris/Block.swift:12-17 | every colour's raw value is below `NumberOfColors` (6) |
| `Blocks.BlockColor.FromRaw` | Swiftris/Block.swift:14-17 | `BlockColor(rawValue:)` succeeds exactly on `[0, 6)` and gives the colour with that raw value |
| `Blocks.RawInjective` | Swiftris/Block.swift:14-17 | two colours are equal iff their raw values are |
| `Blocks.FromRawOfRaw` | Swiftris/Block.swift:14-17 | reading a colour's raw value back gives the colour |
| `Blocks.SpriteNameInjective` | Swiftris/Block.swift:20-39 | six colours, six distinct sprite names; the description equals the sprite name, so descriptions are distinct too |
| `Blocks.RandomColor` | Swiftris/Block.swift:41-43 | the draw is some raw value below `NumberOfColors`; every colour can result, so the contract does not narrow the result; the content is the body's proof that the forced unwrap on that raw value never fails |
| `Blocks.Int64Xor` | Swiftris/Block.swift:69-71 | Swift's `^` on 64-bit `Int` always yields a value in the 64-bit signed range |
| `Blocks.Block.constructor` | Swiftris/Block.swift:78-82 | the new block holds exactly the given column, row and colour |
| `Blocks.Block.SameBlock` | Swiftris/Block.swift:86-88 | block `==` (column, row and colour raw value equal) holds iff the two blocks carry the same `(column, row, color)` |
| `Blocks.SameBlockIsEquivalence` | Swiftris/Block.swift:86-88 | block `==` is reflexive, symmetric and transitive |
| `Blocks.HashConsistent` | Swiftris/Block.swift:69-71 | blocks that are `==` have equal `hashValue = column ^ row` |
| `Shapes.Orientation.Raw` | Swiftris/Shape.swift:12-18 | every orientation's raw value is below `NumOrientations` (4) |
| `Shapes.Orientation.FromRaw` | Swiftris/Shape.swift:16-18 | `Orientation(rawValue:)` succeeds exactly on `[0, 4)` and gives the orientation with that raw value |
| `Shapes.OrientationRawInjective` | Swiftris/Shape.swift:16-18 | two orientations are equal iff their raw values are |
| `Shapes.Rotate` | Swiftris/Shape.swift:37-45 | the rotated raw value is `raw + 1 mod 4` clockwise and `raw - 1 mod 4` counter-clockwise; it is always in `[0, 3]`, so the forced unwrap never fails |
| `Shapes.RotateFourTimes` | Swiftris/Shape.swift:37-45 | four rotations in the same direction give back the original orientation |
| `Shapes.RotateBack` | Swiftris/Shape.swift:37-45 | one rotation followed by one in the other direction is the identity |
| `Shapes.RandomOrientation` | Swiftris/Shape.swift:33-35 | the draw is some raw value below `NumOrientations`; every orientation can result, so the contract does not narrow the result; the content is the body's proof that the forced unwrap on that raw value never fails |
| `Shapes.ShiftedPlaced` | Swiftris/Shape.swift:164-171 | shifting the cells of a shape placed at an anchor gives the shape placed at the shifted anchor, so a shift keeps the blocks in formation |
| `Shapes.ShiftedInverse` | Swiftris/Shape.swift:164-171 | a shift by `(dc, dr)` is undone by a shift by `(-dc, -dr)` |
| `Shapes.ShiftedComposes` | Swiftris/Shape.swift:164-171 | two shifts in a row are one shift by the summed deltas |
| `Shapes.EveryKindDrawable` | Swiftris/Shape.swift:193-210 | each of the seven shape kinds is produced by some pick in `[0, NumShapeTypes)` |
| `Shapes.ShiftEach` | Swiftris/Shape.swift:167-170 | the `for block in blocks` loop moves every block by `(columns, rows)` and keeps its colour |
| `Shapes.Shape.constructor` | Swiftris/Shape.swift:106-112 | a new shape holds the given anchor, colour and orientation; its blocks are fresh objects and exactly anchor plus offset for each entry of its orientation's table, all of its colour; there are none if the table has no entry |
| `Shapes.Shape.InitializeBlocks` | Swiftris/Shape.swift:127-136 | appends one fresh block of the shape's colour per table offset, at anchor plus offset, after the existing blocks, which stay as they were |
| `Shapes.Shape.RotateBlocks` | Swiftris/Shape.swift:142-149 | needs the blocks to cover the table entry; sets each block the entry covers to anchor plus offset; sets nothing when there is no entry; leaves the remaining blocks, the anchor, the colour and the shape's orientation unchanged |
| `Shapes.Shape.ShiftBy` | Swiftris/Shape.swift:164-171 | adds the delta to the anchor and to every block; the block objects, their count and colours, and the orientation are unchanged; a shape in formation stays in formation |
| `Shapes.Shape.LowerShapeByOneRow` | Swiftris/Shape.swift:154-156 | the shift by `(0, 1)`: the anchor and every block move one row down and keep their column |
| `Shapes.Shape.MoveTo` | Swiftris/Shape.swift:179-183 | the anchor becomes `(column, row)` and every block becomes anchor plus offset for the unchanged orientation |
| `Shapes.Shape.BottomBlocks` | Swiftris/Shape.swift:81-86 | the bottom blocks are exactly the entries of the bottom-block table for the current orientation: the k-th is the shape's block at the k-th listed index, so each is one of the shape's own blocks; there are none if there is no entry |
| `Shapes.Shape.BottomBlocksPlaced` | Swiftris/Shape.swift:81-86 | for a shape in formation, the k-th bottom block sits at the anchor plus the offset whose index the table lists at position k |
| `Shapes.SameAnchorIsEquivalence` | Swiftris/Shape.swift:221-223 | shape `==` (rows and columns of the anchors equal) is reflexive, symmetric and transitive |
| `Shapes.EqualityIgnoresColorAndOrientation` | Swiftris/Shape.swift:221-223 | two shapes at one anchor with different colours and orientations compare equal |
| `Shapes.RandomShape` | Swiftris/Shape.swift:193-210 | a fresh shape of one of the seven kinds, anchored at the given position, with its blocks in formation |
| `Game.Swiftris.constructor` | Swiftris/Swiftris.swift:29-33 | both shape slots are nil and the board is 10 x 20 (`NumColumns x NumRows`) with every slot empty |
| `Game.Swiftris.BeginGame` | Swiftris/Swiftris.swift:38-42 | afterwards there is a preview shape; an existing one is kept; a new one is fresh, with fresh blocks in formation, anchored at `(PreviewColumn, PreviewRow) = (12, 1)`, and carries the catalogue's tables for one of the seven kinds (`Drawn`); the falling shape and the board are untouched |
| `Game.BeginGameTwice` | Swiftris/Swiftris.swift:38-42 | `beginGame` is idempotent: a second call leaves the same preview object |
| `Game.Swiftris.NewShape` | Swiftris/Swiftris.swift:50-55 | see the list below the table |
| `Game.NewShapeKeepsDisplaced` | Swiftris/Swiftris.swift:50-55 | in any valid session, `newShape` leaves the shape it displaces from the falling slot, its anchor and its cells unchanged |
| `Game.OpeningSequence` | Swiftris/Swiftris.swift:29-55 | a session run through `init`, `beginGame` and two `newShape` calls: the second falling shape is a different object, at the starting anchor in formation, and the displaced first falling shape keeps its cells at the starting anchor |

`Game.Swiftris.NewShape` states five things:

- The falling shape is the very object that was the preview shape.
- A non-nil falling shape ends at `(StartingColumn, StartingRow) = (4, 0)`. It keeps its orientation and block objects, and its blocks are recomputed from the table.
- The preview is a fresh shape at `(12, 1)`, drawn from the catalogue (one of the seven kinds). Its blocks are fresh too: the session owns them, so `newShape` can be called again. Before `beginGame`, the falling shape is nil.
- The method returns exactly the two new field values.
- The board is neither replaced nor changed.

`Board.Array2D.Get` (the subscript getter), `BlockColor.SpriteName`/`Description`, `Block.Hash`, `Block.SpriteName`, `Shape.Cells`, `Shape.SameAnchor`, `KindOf`, `Placed`, `Shifted` and `Views` are plain definitions. The members in the table state their properties.

## Left out

- The rendering scene (`GameScene.swift`) is not modelled. It holds sprites, textures, sound, timers and animation, and no game rules.
- The seven shape subclasses and their concrete offset and bottom-block tables are not modelled. Shape.swift declares the tables as overridable properties that return empty dictionaries, and does not define the subclasses. The tables are therefore a parameter (`Variant`, `Catalogue`).
- The distribution of `arc4random_uniform` is not modelled. Each random draw is a free choice in its range, and nothing is claimed about uniformity.
- `Block.sprite` is not modelled. It is an opaque render handle that the core never reads.
- The `description` strings of `Block`, `Shape` and `Orientation` are not modelled. They are debug text built by string interpolation.
- `Shape.hashValue` is not modelled. It is an xor fold over the block hashes, and it is not consistent with the anchor-only shape `==`: two shapes at one anchor with different orientations can hash differently.
- Swift's trap on `Int` overflow is not modelled. This covers `+=` in `shiftBy`, and `+` in `initializeBlocks` and `rotateBlocks`. It also covers `*` and `+` in the `Array2D` subscript and `*` in its `init`. Coordinates and the flat index are unbounded `int`.
- Swift's `Int` is the platform word size. The model takes a 64-bit platform: `^` is modelled bit-exactly as 64-bit two's complement, even for arguments outside the 64-bit range, which Swift would never produce.
- `Shapes.Shape.RotateBlocks`: requires the target's table entry to be no longer than `blocks`. Where it is longer, Swift's `blocks[idx]` traps with index out of range, and the model does not cover that case. `moveTo`, the only caller, rotates to the shape's own orientation, whose table entry has exactly one offset per block, so it never reaches that trap.
- `Board.Array2D.constructor`: negative dimensions are not modelled; `columns` and `rows` are `nat`. Swift traps on a negative count, which happens when exactly one dimension is negative and the other is non-zero.
- `Board.Array2D.Set`: the getter and setter require the flat index to be in range, where Swift would trap. A column outside `[0, columns)` whose flat index is in range reaches a slot of another row, as in Swift. The "other slots read as before" clause is stated only for in-range columns. The exact sequence update holds for every call.
- `Shapes.Shape.constructor`: requires the bottom-block table to be well formed, which Swift's `init` never checks. The model assumes each bottom-block index lies within its orientation's offset list, as it does for tables that name the shape's own blocks.
- The model keeps the shape's blocks distinct objects. `initializeBlocks` always creates fresh blocks, and nothing in Shape.swift or Swiftris.swift shares them.
- Line clearing, collision and legality checks, locking and game over are not modelled. Swiftris.swift and Shape.swift contain none of them.
