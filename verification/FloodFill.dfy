/** The flood fill behind every rule check: an explicit stack and two visited grids. */
module FloodFill {
  import opened Model
  import opened Topology
  import opened Boards

  const DX: seq<int> := [1, -1, 0, 0]
  const DY: seq<int> := [0, 0, 1, -1]

  /** The i-th point in scan direction, or None when it lies off the board. The source reckons in 32-bit
      signed integers, which is the same for sizes and coordinates below 2^31. */
  function NeighbourAt(size: nat, c: Coord, i: nat): (neighbour: Option<Coord>)
    requires i < 4
    ensures neighbour.Some? ==> InBounds(size, neighbour.value) && Adjacent(c, neighbour.value)
  {
    var nx := c.x + DX[i];
    var ny := c.y + DY[i];
    if nx < 0 || ny < 0 || nx >= size || ny >= size then None else Some(Coord(nx, ny))
  }

  /** The neighbours met in the first k directions. */
  ghost function FirstNeighbours(size: nat, c: Coord, k: nat): set<Coord>
    requires k <= 4
  {
    set d | d in Neighbours(size, c) && exists i :: 0 <= i < k && NeighbourAt(size, c, i) == Some(d)
  }

  lemma FirstNeighboursStart(size: nat, c: Coord)
    ensures FirstNeighbours(size, c, 0) == {}
  {
  }

  lemma FirstNeighboursInside(size: nat, c: Coord, k: nat)
    requires k <= 4
    ensures FirstNeighbours(size, c, k) <= Neighbours(size, c)
  {
  }

  lemma FirstNeighboursStep(size: nat, c: Coord, k: nat)
    requires k < 4
    ensures FirstNeighbours(size, c, k + 1) ==
            FirstNeighbours(size, c, k) + match NeighbourAt(size, c, k) case Some(d) => {d} case None => {}
  {
    match NeighbourAt(size, c, k)
    case Some(d) => assert d in FirstNeighbours(size, c, k + 1);
    case None =>
  }

  /** The four directions reach every neighbour. */
  lemma FourDirectionsSuffice(size: nat, c: Coord)
    ensures FirstNeighbours(size, c, 4) == Neighbours(size, c)
  {
    forall d | d in Neighbours(size, c) ensures d in FirstNeighbours(size, c, 4) {
      assert NeighbourAt(size, c, 0) == Some(d) || NeighbourAt(size, c, 1) == Some(d)
          || NeighbourAt(size, c, 2) == Some(d) || NeighbourAt(size, c, 3) == Some(d);
    }
  }

  /** A board-sized grid of flags. */
  class Grid {
    const size: nat
    const flags: array2<bool>
    ghost var marked: set<Coord>

    ghost predicate Valid()
      reads this, flags
    {
      && flags.Length0 == size && flags.Length1 == size
      && forall c: Coord {:trigger c in marked} {:trigger InBounds(size, c)} ::
           c in marked <==> InBounds(size, c) && flags[c.x, c.y]
    }

    constructor (size: nat)
      ensures Valid() && this.size == size && marked == {} && fresh(flags)
    {
      this.size := size;
      flags := new bool[size, size]((_, _) => false);
      marked := {};
    }

    predicate Has(c: Coord)
      requires Valid() && InBounds(size, c)
      reads this, flags
      ensures Has(c) <==> c in marked
    {
      flags[c.x, c.y]
    }

    method Mark(c: Coord)
      requires Valid() && InBounds(size, c)
      modifies this, flags
      ensures Valid() && marked == old(marked) + {c}
    {
      flags[c.x, c.y] := true;
      marked := marked + {c};
    }
  }

  /** The points that count as the player's stones: those on the board and the pretend stone. */
  ghost function PlayerCells(stones: Stones, player: Player, pretend: Option<Coord>): set<Coord> {
    Region(stones, player) + match pretend case Some(c) => {c} case None => {}
  }

  /** The liberties a group analysis counts: empty neighbours of the group other than the
      pretend stone and the blocked point. */
  ghost function CountedLiberties(size: nat, stones: Stones, group: set<Coord>,
                                  pretend: Option<Coord>, blocked: Option<Coord>): set<Coord> {
    set e | e in Liberties(size, stones, group) && pretend != Some(e) && blocked != Some(e)
  }

  predicate IsPlayerStone(board: Board, c: Coord, player: Player, pretend: Option<Coord>)
    requires board.Valid() && InBounds(board.size, c)
    reads board.cells
    ensures IsPlayerStone(board, c, player, pretend) <==> c in PlayerCells(board.Contents(), player, pretend)
  {
    pretend == Some(c) || board.Get(c) == ToStone(player)
  }

  /** An empty point the analysis counts when it meets it. */
  ghost predicate Counts(stones: Stones, pretend: Option<Coord>, blocked: Option<Coord>, e: Coord) {
    e !in stones && pretend != Some(e) && blocked != Some(e)
  }

  ghost function CountedAmong(cells: set<Coord>, stones: Stones,
                              pretend: Option<Coord>, blocked: Option<Coord>): set<Coord> {
    set e | e in cells && Counts(stones, pretend, blocked, e)
  }

  lemma NothingCounted(stones: Stones, pretend: Option<Coord>, blocked: Option<Coord>)
    ensures CountedAmong({}, stones, pretend, blocked) == {}
  {
  }

  lemma NothingListed()
    ensures Elems([]) == {}
  {
  }

  /** The liberty a neighbour is, if it is one. */
  ghost function LibertyAt(stones: Stones, player: Player, pretend: Option<Coord>, blocked: Option<Coord>, d: Coord): set<Coord> {
    if d !in PlayerCells(stones, player, pretend) && d !in stones && blocked != Some(d) then {d} else {}
  }

  /** What one more direction adds to the stones found. */
  lemma StoneStep(region: set<Coord>, visited: set<Coord>, seen: set<Coord>, found: seq<Coord>, d: Coord)
    requires Elems(found) == seen * region - visited
    ensures Elems(if d in region && d !in visited then found + [d] else found) == (seen + {d}) * region - visited
  {
  }

  /** What one more direction adds to the liberties marked. */
  lemma LibertyMarked(stones: Stones, player: Player, pretend: Option<Coord>, blocked: Option<Coord>,
                      before: set<Coord>, marked: set<Coord>, seen: set<Coord>, d: Coord)
    requires marked == before + CountedAmong(seen, stones, pretend, blocked)
    ensures marked + LibertyAt(stones, player, pretend, blocked, d) ==
            before + CountedAmong(seen + {d}, stones, pretend, blocked)
  {
  }

  /** Looks at one neighbour: an unvisited stone of the player is to be stacked, a liberty not met before is
      marked and to be counted. */
  method Look(board: Board, neighbour: Coord, player: Player, pretend: Option<Coord>, blocked: Option<Coord>,
              visited: Grid, libertyVisited: Grid)
    returns (stone: bool, liberty: bool)
    requires board.Valid() && InBounds(board.size, neighbour)
    requires visited.Valid() && libertyVisited.Valid() && visited.size == libertyVisited.size == board.size
    requires visited != libertyVisited && visited.flags != libertyVisited.flags
    modifies libertyVisited, libertyVisited.flags
    ensures stone <==> neighbour in PlayerCells(board.Contents(), player, pretend) && neighbour !in visited.marked
    ensures libertyVisited.Valid()
    ensures libertyVisited.marked ==
            old(libertyVisited.marked) + LibertyAt(board.Contents(), player, pretend, blocked, neighbour)
    ensures |libertyVisited.marked| == |old(libertyVisited.marked)| + if liberty then 1 else 0
  {
    hide PlayerCells, AllCells, Grid.Valid, Grid.Has, IsPlayerStone, Board.Valid, Board.Contents, Board.Slot, Board.Get;
    stone, liberty := false, false;
    if IsPlayerStone(board, neighbour, player, pretend) {
      stone := !visited.Has(neighbour);
    } else if board.Get(neighbour) == Stone.Empty && blocked != Some(neighbour) && !libertyVisited.Has(neighbour) {
      libertyVisited.Mark(neighbour);
      liberty := true;
    }
  }

  /** Looks at the four neighbours of a point just visited: unvisited stones of the player go on
      the stack and into the group, fresh liberties are marked and counted. */
  method Expand(board: Board, c: Coord, player: Player, pretend: Option<Coord>, blocked: Option<Coord>,
                visited: Grid, libertyVisited: Grid, stack0: seq<Coord>, group0: seq<Coord>, liberties0: nat)
    returns (stack: seq<Coord>, group: seq<Coord>, liberties: nat, ghost found: seq<Coord>)
    requires board.Valid() && InBounds(board.size, c)
    requires visited.Valid() && libertyVisited.Valid() && visited.size == libertyVisited.size == board.size
    requires visited != libertyVisited && visited.flags != libertyVisited.flags
    requires liberties0 == |libertyVisited.marked|
    modifies libertyVisited, libertyVisited.flags
    ensures stack == stack0 + found && group == group0 + found
    ensures Elems(found) == Neighbours(board.size, c) * PlayerCells(board.Contents(), player, pretend) - visited.marked
    ensures libertyVisited.Valid() && liberties == |libertyVisited.marked|
    ensures libertyVisited.marked == old(libertyVisited.marked) +
                                     CountedAmong(Neighbours(board.size, c), board.Contents(), pretend, blocked)
  {
    hide PlayerCells, AllCells, Neighbours, FirstNeighbours, NeighbourAt, CountedAmong, LibertyAt, Elems, IsPlayerStone;
    hide Grid.Valid, Grid.Has;
    hide Board.Valid, Board.Contents, Board.Slot, Board.Get;
    NothingCounted(board.Contents(), pretend, blocked);
    NothingListed();
    FirstNeighboursStart(board.size, c);
    stack, group, liberties, found := stack0, group0, liberties0, [];
    ghost var region, stones := PlayerCells(board.Contents(), player, pretend), board.Contents();
    ghost var seen, marked0 := {}, libertyVisited.marked;
    for i := 0 to 4
      invariant board.Contents() == stones && visited.Valid() && libertyVisited.Valid()
      invariant stack == stack0 + found && group == group0 + found
      invariant seen == FirstNeighbours(board.size, c, i)
      invariant Elems(found) == seen * region - visited.marked
      invariant libertyVisited.marked == marked0 + CountedAmong(seen, stones, pretend, blocked)
      invariant liberties == |libertyVisited.marked|
    {
      FirstNeighboursStep(board.size, c, i);
      match NeighbourAt(board.size, c, i)
      case None =>
      case Some(neighbour) =>
        StoneStep(region, visited.marked, seen, found, neighbour);
        LibertyMarked(stones, player, pretend, blocked, marked0, libertyVisited.marked, seen, neighbour);
        seen := seen + {neighbour};
        var stone, liberty := Look(board, neighbour, player, pretend, blocked, visited, libertyVisited);
        if stone {
          stack := stack + [neighbour];
          group := group + [neighbour];
          found := found + [neighbour];
        }
        if liberty {
          liberties := liberties + 1;
        }
    }
    FourDirectionsSuffice(board.size, c);
  }

  /** What the search knows between two pops of the stack. */
  ghost predicate Searching(size: nat, region: set<Coord>, start: Coord,
                            visited: set<Coord>, stack: seq<Coord>, group: seq<Coord>) {
    && start in group
    && Elems(group) == visited + Elems(stack)
    && Elems(group) <= Group(region, start)
    && forall v, d :: v in visited && d in Neighbours(size, v) && d in region ==> d in group
  }

  lemma SearchStep(size: nat, region: set<Coord>, start: Coord, visited: set<Coord>,
                   stack: seq<Coord>, group: seq<Coord>, found: seq<Coord>)
    requires |stack| > 0
    requires Searching(size, region, start, visited, stack, group)
    requires Elems(found) == Neighbours(size, stack[|stack| - 1]) * region - (visited + {stack[|stack| - 1]})
    ensures Searching(size, region, start, visited + {stack[|stack| - 1]}, stack[..|stack| - 1] + found, group + found)
  {
    var c := stack[|stack| - 1];
    assert stack == stack[..|stack| - 1] + [c];
    GroupIsClosed(region, start);
    assert c in Elems(group);
    forall d | d in group + found ensures d in visited + {c} + Elems(stack[..|stack| - 1] + found) {}
  }

  lemma SearchSkip(size: nat, region: set<Coord>, start: Coord, visited: set<Coord>, stack: seq<Coord>, group: seq<Coord>)
    requires |stack| > 0 && stack[|stack| - 1] in visited
    requires Searching(size, region, start, visited, stack, group)
    ensures Searching(size, region, start, visited, stack[..|stack| - 1], group)
  {
    assert stack == stack[..|stack| - 1] + [stack[|stack| - 1]];
  }

  lemma SearchDone(size: nat, region: set<Coord>, start: Coord, visited: set<Coord>, group: seq<Coord>)
    requires Searching(size, region, start, visited, [], group)
    requires forall c :: c in region ==> InBounds(size, c)
    ensures Elems(group) == visited == Group(region, start)
  {
    GroupIsLeast(region, start, visited);
  }

  lemma LibertyStep(size: nat, stones: Stones, visited: set<Coord>, c: Coord, pretend: Option<Coord>, blocked: Option<Coord>)
    ensures CountedLiberties(size, stones, visited + {c}, pretend, blocked) ==
            CountedLiberties(size, stones, visited, pretend, blocked)
            + CountedAmong(Neighbours(size, c), stones, pretend, blocked)
  {
  }

  lemma NoLibertiesYet(size: nat, stones: Stones, pretend: Option<Coord>, blocked: Option<Coord>)
    ensures CountedLiberties(size, stones, {}, pretend, blocked) == {}
  {
  }

  lemma SearchStart(size: nat, region: set<Coord>, start: Coord)
    requires start in region
    ensures Searching(size, region, start, {}, [start], [start])
  {
    StartInGroup(region, start);
  }

  lemma StackInBounds(size: nat, region: set<Coord>, start: Coord, visited: set<Coord>, stack: seq<Coord>, group: seq<Coord>)
    requires Searching(size, region, start, visited, stack, group)
    requires forall c :: c in region ==> InBounds(size, c)
    ensures forall c :: c in stack ==> InBounds(size, c)
  {
    assert forall c :: c in stack ==> c in Elems(group);
  }

  lemma PlayerCellsInBounds(size: nat, stones: Stones, player: Player, pretend: Option<Coord>)
    requires Fits(size, stones) && (pretend.Some? ==> InBounds(size, pretend.value))
    ensures forall c :: c in PlayerCells(stones, player, pretend) ==> InBounds(size, c)
  {
  }

  /** The flood fill. The group it collects is, as a set, exactly the group of start by paths, and
      its result is the number of distinct liberties it counts. */
  method GroupAnalysis(board: Board, start: Coord, player: Player, pretend: Option<Coord>, blocked: Option<Coord>)
    returns (liberties: nat, group: seq<Coord>)
    requires board.Valid() && InBounds(board.size, start)
    requires pretend.Some? ==> InBounds(board.size, pretend.value)
    ensures start !in PlayerCells(board.Contents(), player, pretend) ==> liberties == 0 && group == []
    ensures start in PlayerCells(board.Contents(), player, pretend) ==>
              && Elems(group) == Group(PlayerCells(board.Contents(), player, pretend), start)
              && liberties == |CountedLiberties(board.size, board.Contents(), Elems(group), pretend, blocked)|
  {
    hide Searching, CountedLiberties, CountedAmong, PlayerCells, Group, Neighbours, AllCells, Elems;
    hide Board.Contents, Board.Valid, Grid.Valid;
    ghost var size, stones := board.size, board.Contents();
    ghost var region := PlayerCells(stones, player, pretend);
    PlayerCellsInBounds(size, stones, player, pretend);
    var visited := new Grid(board.size);
    var libertyVisited := new Grid(board.size);
    if !IsPlayerStone(board, start, player, pretend) {
      return 0, [];
    }
    var stack := [start];
    group := [start];
    liberties := 0;
    SearchStart(size, region, start);
    NoLibertiesYet(size, stones, pretend, blocked);
    while |stack| > 0
      invariant board.Contents() == stones
      invariant visited.Valid() && libertyVisited.Valid()
      invariant Searching(size, region, start, visited.marked, stack, group)
      invariant libertyVisited.marked == CountedLiberties(size, stones, visited.marked, pretend, blocked)
      invariant liberties == |libertyVisited.marked|
      decreases AllCells(size) - visited.marked, |stack|
    {
      StackInBounds(size, region, start, visited.marked, stack, group);
      ghost var stack0, group0, visited0 := stack, group, visited.marked;
      var c := stack[|stack| - 1];
      stack := stack[..|stack| - 1];
      if visited.Has(c) {
        SearchSkip(size, region, start, visited0, stack0, group);
        continue;
      }
      visited.Mark(c);
      ghost var found;
      stack, group, liberties, found :=
        Expand(board, c, player, pretend, blocked, visited, libertyVisited, stack, group, liberties);
      SearchStep(size, region, start, visited0, stack0, group0, found);
      LibertyStep(size, stones, visited0, c, pretend, blocked);
    }
    SearchDone(size, region, start, visited.marked, group);
  }
}
