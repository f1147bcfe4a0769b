/** The board: a flat vector behind two coordinates. */
module Boards {
  import opened Model

  function ColourOf(value: Stone): Player
    requires value != Stone.Empty
  {
    if value.White? then Player.White else Player.Black
  }

  function FlatIndex(size: nat, c: Coord): nat {
    c.y * size + c.x
  }

  lemma FlatIndexInRange(size: nat, c: Coord)
    requires InBounds(size, c)
    ensures FlatIndex(size, c) < size * size
  {
    assert c.y * size <= (size - 1) * size;
    assert (size - 1) * size + size == size * size;
  }

  lemma LaterRowLaterSlot(size: nat, a: Coord, b: Coord)
    requires a.x < size && a.y < b.y
    ensures FlatIndex(size, a) < FlatIndex(size, b)
  {
    var gap := b.y - a.y;
    assert b.y * size == a.y * size + gap * size;
    assert gap * size == (gap - 1) * size + size;
    assert (gap - 1) * size >= 0;
  }

  /** Two points of the board never share a slot of the vector. */
  lemma FlatIndexInjective(size: nat, a: Coord, b: Coord)
    requires InBounds(size, a) && InBounds(size, b)
    requires FlatIndex(size, a) == FlatIndex(size, b)
    ensures a == b
  {
    if a.y < b.y {
      LaterRowLaterSlot(size, a, b);
    } else if b.y < a.y {
      LaterRowLaterSlot(size, b, a);
    }
  }

  class Board {
    const size: nat
    const cells: array<Stone>

    ghost predicate Valid() {
      cells.Length == size * size
    }

    /** The slot of a point in the vector. */
    function Slot(c: Coord): Stone
      requires Valid() && InBounds(size, c)
      reads cells
    {
      FlatIndexInRange(size, c);
      cells[FlatIndex(size, c)]
    }

    ghost function Contents(): (stones: Stones)
      requires Valid()
      reads cells
      ensures Fits(size, stones)
    {
      map c | c in AllCells(size) && Slot(c) != Stone.Empty :: ColourOf(Slot(c))
    }

    function Get(c: Coord): (value: Stone)
      requires Valid() && InBounds(size, c)
      reads cells
      ensures value == if c in Contents() then ToStone(Contents()[c]) else Stone.Empty
    {
      Slot(c)
    }

    predicate IsEmpty(c: Coord)
      requires Valid() && InBounds(size, c)
      reads cells
      ensures IsEmpty(c) <==> c !in Contents()
    {
      Get(c) == Stone.Empty
    }

    constructor (size: nat)
      ensures Valid() && this.size == size && fresh(cells)
      ensures Contents() == map[]
    {
      this.size := size;
      this.cells := new Stone[size * size](_ => Stone.Empty);
      new;
      forall c | c in AllCells(size) ensures Slot(c) == Stone.Empty {
        FlatIndexInRange(size, c);
      }
    }

    /** Copying a board copies its vector: later changes to one do not show in the other. */
    constructor Copy(other: Board)
      requires other.Valid()
      ensures Valid() && size == other.size && fresh(cells)
      ensures Contents() == other.Contents()
    {
      size := other.size;
      cells := new Stone[other.cells.Length](i requires 0 <= i < other.cells.Length reads other.cells => other.cells[i]);
      new;
      forall c | c in AllCells(size) ensures Slot(c) == other.Slot(c) {
        FlatIndexInRange(size, c);
      }
    }

    method Place(c: Coord, value: Stone) returns (placed: bool)
      requires Valid() && InBounds(size, c) && value != Stone.Empty
      modifies cells
      ensures placed <==> c !in old(Contents())
      ensures Contents() == if placed then old(Contents())[c := ColourOf(value)] else old(Contents())
    {
      if IsEmpty(c) {
        Write(c, value);
        return true;
      }
      return false;
    }

    method Remove(c: Coord) returns (removed: bool)
      requires Valid() && InBounds(size, c)
      modifies cells
      ensures removed <==> c in old(Contents())
      ensures Contents() == old(Contents()) - {c}
    {
      if !IsEmpty(c) {
        Write(c, Stone.Empty);
        return true;
      }
      return false;
    }

    /** Writing one slot changes one point and no other. */
    method Write(c: Coord, value: Stone)
      requires Valid() && InBounds(size, c)
      modifies cells
      ensures Contents() == if value == Stone.Empty then old(Contents()) - {c} else old(Contents())[c := ColourOf(value)]
    {
      FlatIndexInRange(size, c);
      cells[FlatIndex(size, c)] := value;
      forall d | d in AllCells(size) ensures Slot(d) == if d == c then value else old(Slot(d)) {
        FlatIndexInRange(size, d);
        if FlatIndex(size, d) == FlatIndex(size, c) {
          FlatIndexInjective(size, c, d);
        }
      }
    }
  }
}
