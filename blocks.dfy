/**
 * One board cell, as in Swiftris/Block.swift: a colour drawn from six values and
 * a mutable position.
 */
module Blocks {
  import opened Wrappers

  /** How many colours there are; `random` draws a raw value below this. */
  const NumberOfColors: nat := 6

  datatype BlockColor = Blue | Orange | Purple | Red | Teal | Yellow
  {
    /** The enum's raw value: Blue is 0, then one more per case. */
    function Raw(): (r: nat)
      ensures r < NumberOfColors
    {
      match this
      case Blue => 0
      case Orange => 1
      case Purple => 2
      case Red => 3
      case Teal => 4
      case Yellow => 5
    }

    /** The failable initialiser `BlockColor(rawValue:)`. */
    static function FromRaw(raw: int): (r: Option<BlockColor>)
      ensures r.Some? <==> 0 <= raw < NumberOfColors
      ensures r.Some? ==> r.value.Raw() == raw
    {
      if raw == 0 then Some(Blue)
      else if raw == 1 then Some(Orange)
      else if raw == 2 then Some(Purple)
      else if raw == 3 then Some(Red)
      else if raw == 4 then Some(Teal)
      else if raw == 5 then Some(Yellow)
      else None
    }

    /** The name of the sprite texture for this colour. */
    function SpriteName(): string
    {
      match this
      case Blue => "blue"
      case Orange => "orange"
      case Purple => "purple"
      case Red => "red"
      case Teal => "teal"
      case Yellow => "yellow"
    }

    function Description(): string
    {
      SpriteName()
    }
  }

  /** The raw value determines the colour. */
  lemma RawInjective(a: BlockColor, b: BlockColor)
    ensures a.Raw() == b.Raw() <==> a == b
  {
  }

  /** Reading a colour's raw value back through `FromRaw` gives the colour. */
  lemma FromRawOfRaw(c: BlockColor)
    ensures BlockColor.FromRaw(c.Raw()) == Some(c)
  {
  }

  /** The six colours have six different sprite names, and so six descriptions. */
  lemma SpriteNameInjective(a: BlockColor, b: BlockColor)
    ensures a.SpriteName() == b.SpriteName() <==> a == b
    ensures a.Description() == b.Description() <==> a == b
  {
  }

  /**
   * `BlockColor.random()`: `arc4random_uniform(NumberOfColors)` yields some raw
   * value below `NumberOfColors`, modelled as a free choice, and the forced
   * unwrap of `BlockColor(rawValue:)` succeeds on it.
   */
  method RandomColor() returns (c: BlockColor)
    ensures exists raw :: 0 <= raw < NumberOfColors && BlockColor.FromRaw(raw) == Some(c)
  {
    var raw: int :| 0 <= raw < NumberOfColors;
    var drawn := BlockColor.FromRaw(raw);
    c := drawn.value;
  }

  /** The value a block carries: its position and colour. */
  datatype Cell = Cell(column: int, row: int, color: BlockColor)

  const Word: int := 0x1_0000_0000_0000_0000
  const MinInt64: int := -0x8000_0000_0000_0000
  const MaxInt64: int := 0x7FFF_FFFF_FFFF_FFFF

  /** Swift's `^` on 64-bit `Int`: bitwise exclusive or in two's complement. */
  function Int64Xor(a: int, b: int): (r: int)
    ensures MinInt64 <= r <= MaxInt64
  {
    var x := ((a % Word) as bv64) ^ ((b % Word) as bv64);
    var u := x as int;
    if u <= MaxInt64 then u else u - Word
  }

  class Block {
    const color: BlockColor
    var column: int
    var row: int

    constructor (column: int, row: int, color: BlockColor)
      ensures this.column == column && this.row == row && this.color == color
    {
      this.column := column;
      this.row := row;
      this.color := color;
    }

    function View(): Cell
      reads this
    {
      Cell(column, row, color)
    }

    function SpriteName(): string
    {
      color.SpriteName()
    }

    /** `hashValue`: the column xor the row. */
    function Hash(): int
      reads this
    {
      Int64Xor(column, row)
    }

    /** The `==` operator on blocks, which compares the colours by raw value. */
    function SameBlock(other: Block): (r: bool)
      reads this, other
      ensures r <==> View() == other.View()
    {
      RawInjective(color, other.color);
      column == other.column && row == other.row && color.Raw() == other.color.Raw()
    }
  }

  /** Block `==` is an equivalence relation. */
  lemma SameBlockIsEquivalence(a: Block, b: Block, c: Block)
    ensures a.SameBlock(a)
    ensures a.SameBlock(b) ==> b.SameBlock(a)
    ensures a.SameBlock(b) && b.SameBlock(c) ==> a.SameBlock(c)
  {
  }

  /** Equal blocks hash alike, as `Hashable` demands. */
  lemma HashConsistent(a: Block, b: Block)
    requires a.SameBlock(b)
    ensures a.Hash() == b.Hash()
  {
  }
}
