/** Legality of a move and the position it leads to. */
module MoveChecker {
  import opened Model
  import opened Topology
  import opened Rules
  import opened Boards
  import opened FloodFill
  import opened Positions
  import opened Scans
  import opened Zobrist

  /** Analysing a group with a pretend stone is analysing it on the board with the stone placed. */
  lemma PretendIsPlacing(size: nat, stones: Stones, start: Coord, player: Player)
    ensures PlayerCells(stones, player, Some(start)) == Region(stones[start := player], player)
    ensures start in PlayerCells(stones, player, Some(start))
    ensures CountedLiberties(size, stones, Group(PlayerCells(stones, player, Some(start)), start), Some(start), None)
            == DirectLiberties(size, stones, start, player)
  {
    hide Group, Liberties;
    RegionsAfterPlacing(stones, start, player);
  }

  method ComputeGroupLiberties(board: Board, start: Coord, player: Player) returns (liberties: nat)
    requires board.Valid()
    ensures liberties == if InBounds(board.size, start)
                         then |DirectLiberties(board.size, board.Contents(), start, player)| else 0
  {
    if !InBounds(board.size, start) {
      return 0;
    }
    PretendIsPlacing(board.size, board.Contents(), start, player);
    var group;
    liberties, group := GroupAnalysis(board, start, player, Some(start), None);
  }

  // ----- The scan of the four neighbours -----

  /** The enemy groups met among the given points, whole. */
  ghost function Met(enemies: set<Coord>, cells: set<Coord>): set<Coord> {
    set c | c in enemies && exists d :: d in cells && d in enemies && c in Group(enemies, d)
  }

  /** The stones of those groups that have no liberty but the move. */
  ghost function SurroundedAmong(size: nat, stones: Stones, move: Coord, player: Player, cells: set<Coord>): set<Coord> {
    var enemies := Region(stones, Opponent(player));
    set c | c in Met(enemies, cells) && Liberties(size, stones, Group(enemies, c)) <= {move}
  }

  lemma NothingMet(size: nat, stones: Stones, move: Coord, player: Player)
    ensures Met(Region(stones, Opponent(player)), {}) == {} && SurroundedAmong(size, stones, move, player, {}) == {}
  {
  }

  lemma AllNeighboursMet(size: nat, stones: Stones, move: Coord, player: Player)
    requires Fits(size, stones)
    ensures SurroundedAmong(size, stones, move, player, Neighbours(size, move)) == Surrounded(size, stones, move, player)
  {
    hide Group, Liberties, AllCells;
    var enemies := Region(stones, Opponent(player));
    forall c | c in Surrounded(size, stones, move, player)
      ensures c in Met(enemies, Neighbours(size, move))
    {
      var d :| d in Group(enemies, c) && Adjacent(move, d);
      GroupInRegion(enemies, c);
      GroupIsSymmetric(enemies, c, d);
    }
    forall c | c in Met(enemies, Neighbours(size, move)) ensures Touches(Group(enemies, c), move) {
      var d :| d in Neighbours(size, move) && d in enemies && c in Group(enemies, d);
      GroupIsSymmetric(enemies, d, c);
    }
  }

  lemma AmongSomeNeighbours(size: nat, stones: Stones, move: Coord, player: Player, cells: set<Coord>)
    requires Fits(size, stones) && cells <= Neighbours(size, move)
    ensures SurroundedAmong(size, stones, move, player, cells) <= Surrounded(size, stones, move, player)
  {
    hide Group, Liberties, AllCells, Neighbours;
    AllNeighboursMet(size, stones, move, player);
  }

  lemma GroupInRegion(region: set<Coord>, start: Coord)
    ensures Group(region, start) <= region
  {
  }

  lemma SkipOther(size: nat, stones: Stones, move: Coord, player: Player, cells: set<Coord>, d: Coord)
    requires d !in Region(stones, Opponent(player)) || d in Met(Region(stones, Opponent(player)), cells)
    ensures Met(Region(stones, Opponent(player)), cells + {d}) == Met(Region(stones, Opponent(player)), cells)
    ensures SurroundedAmong(size, stones, move, player, cells + {d}) == SurroundedAmong(size, stones, move, player, cells)
  {
    hide Group, Liberties;
    var enemies := Region(stones, Opponent(player));
    if d in enemies {
      var e :| e in cells && e in enemies && d in Group(enemies, e);
      SameGroup(enemies, e, d);
    }
  }

  lemma MeetGroup(size: nat, stones: Stones, move: Coord, player: Player, cells: set<Coord>, d: Coord)
    requires d in Region(stones, Opponent(player))
    ensures
      var enemies := Region(stones, Opponent(player));
      var dead := Liberties(size, stones, Group(enemies, d)) <= {move};
      && d in Group(enemies, d)
      && Met(enemies, cells + {d}) == Met(enemies, cells) + Group(enemies, d)
      && SurroundedAmong(size, stones, move, player, cells + {d}) ==
         SurroundedAmong(size, stones, move, player, cells) + (if dead then Group(enemies, d) else {})
  {
    hide Group, Liberties;
    var enemies := Region(stones, Opponent(player));
    GroupInRegion(enemies, d);
    StartInGroup(enemies, d);
    forall c | c in Group(enemies, d) ensures Group(enemies, c) == Group(enemies, d) {
      SameGroup(enemies, d, c);
    }
  }

  lemma BlockedCount(size: nat, stones: Stones, enemy: Player, group: set<Coord>, move: Coord)
    ensures PlayerCells(stones, enemy, None) == Region(stones, enemy)
    ensures |CountedLiberties(size, stones, group, None, Some(move))| == 0 <==> Liberties(size, stones, group) <= {move}
  {
    hide Liberties;
    var counted := CountedLiberties(size, stones, group, None, Some(move));
    if |counted| == 0 {
      assert counted == {};
    } else {
      var e :| e in counted;
    }
  }

  method MarkAll(grid: Grid, group: seq<Coord>)
    requires grid.Valid() && forall c :: c in group ==> InBounds(grid.size, c)
    modifies grid, grid.flags
    ensures grid.Valid() && grid.marked == old(grid.marked) + Elems(group)
  {
    for i := 0 to |group|
      invariant grid.Valid() && grid.marked == old(grid.marked) + Elems(group[..i])
    {
      assert group[..i + 1] == group[..i] + [group[i]];
      grid.Mark(group[i]);
    }
    assert group[..|group|] == group;
  }

  lemma GroupFits(size: nat, stones: Stones, enemy: Player, d: Coord)
    requires Fits(size, stones)
    ensures forall c :: c in Group(Region(stones, enemy), d) ==> InBounds(size, c)
  {
  }

  /** The search that stops at the first captured group agrees with the full one: it answers true
      exactly when some enemy group touching the point has no other liberty. */
  method WouldCapture(board: Board, c: Coord, player: Player) returns (captures: bool)
    requires board.Valid()
    ensures captures <==> Surrounded(board.size, board.Contents(), c, player) != {}
  {
    hide Met, SurroundedAmong, Surrounded, Region, Group, Neighbours, FirstNeighbours, AllCells, Board.Contents, Board.Valid,
         Grid.Valid, Elems, CountedLiberties, PlayerCells, NeighbourAt;
    ghost var size, stones := board.size, board.Contents();
    ghost var enemies := Region(stones, Opponent(player));
    var visited := new Grid(board.size);
    ghost var seen := {};
    FirstNeighboursStart(size, c);
    NothingMet(size, stones, c, player);
    for i := 0 to 4
      invariant board.Contents() == stones && visited.Valid() && visited.size == size
      invariant seen == FirstNeighbours(size, c, i)
      invariant visited.marked == Met(enemies, seen)
      invariant SurroundedAmong(size, stones, c, player, seen) == {}
    {
      FirstNeighboursStep(size, c, i);
      match NeighbourAt(board.size, c, i)
      case None =>
      case Some(neighbour) =>
        var skip := board.Get(neighbour) != ToStone(Opponent(player)) || visited.Has(neighbour);
        EnemyAt(board, neighbour, player);
        if skip {
          SkipOther(size, stones, c, player, seen, neighbour);
        } else {
          var liberties, group := GroupAnalysis(board, neighbour, Opponent(player), None, Some(c));
          BlockedCount(size, stones, Opponent(player), Elems(group), c);
          GroupFits(size, stones, Opponent(player), neighbour);
          MarkAll(visited, group);
          MeetGroup(size, stones, c, player, seen, neighbour);
          if liberties == 0 {
            FirstNeighboursInside(size, c, i + 1);
            AmongSomeNeighbours(size, stones, c, player, seen + {neighbour});
            return true;
          }
        }
        seen := seen + {neighbour};
    }
    FourDirectionsSuffice(size, c);
    AllNeighboursMet(size, stones, c, player);
    return false;
  }

  lemma EnemyAt(board: Board, c: Coord, player: Player)
    requires board.Valid() && InBounds(board.size, c)
    ensures board.Get(c) == ToStone(Opponent(player)) <==> c in Region(board.Contents(), Opponent(player))
  {
  }

  /** A stone put on the point would have no liberty of its own and capture nothing. */
  method IsSuicide(board: Board, player: Player, c: Coord) returns (suicide: bool)
    requires board.Valid()
    ensures suicide <==>
            && (InBounds(board.size, c) ==> DirectLiberties(board.size, board.Contents(), c, player) == {})
            && Surrounded(board.size, board.Contents(), c, player) == {}
  {
    hide DirectLiberties, Surrounded, Board.Contents;
    var liberties := ComputeGroupLiberties(board, c, player);
    if liberties > 0 {
      return false;
    }
    var captures := WouldCapture(board, c, player);
    return !captures;
  }

  /** The legality test on the old board is exact: it accepts a point exactly when it is free and the
      stone's group has a liberty on the board after the move. */
  method IsValidMove(board: Board, player: Player, c: Coord) returns (valid: bool)
    requires board.Valid()
    ensures valid <==> LegalWithoutKo(board.size, board.Contents(), c, player)
  {
    hide DirectLiberties, Surrounded, Board.Contents, Suicide;
    if !InBounds(board.size, c) || board.Get(c) != Stone.Empty {
      return false;
    }
    SuicideTestIsExact(board.size, board.Contents(), c, player);
    SurroundedIsCaptured(board.size, board.Contents(), c, player);
    var suicide := IsSuicide(board, player, c);
    return !suicide;
  }

  // ----- The position after a move -----

  /** The four-neighbour scan that marks what a move captures. */
  method FindCaptures(board: Board, move: Coord, player: Player) returns (captured: Grid)
    requires board.Valid()
    ensures fresh(captured) && fresh(captured.flags) && captured.Valid() && captured.size == board.size
    ensures captured.marked == Surrounded(board.size, board.Contents(), move, player)
  {
    hide Met, SurroundedAmong, Surrounded, Region, Group, Neighbours, FirstNeighbours, AllCells, Board.Contents, Board.Valid,
         Grid.Valid, Elems, CountedLiberties, PlayerCells, NeighbourAt;
    ghost var size, stones := board.size, board.Contents();
    ghost var enemies := Region(stones, Opponent(player));
    var visited := new Grid(board.size);
    captured := new Grid(board.size);
    ghost var seen := {};
    FirstNeighboursStart(size, move);
    NothingMet(size, stones, move, player);
    for i := 0 to 4
      invariant board.Contents() == stones && visited.Valid() && captured.Valid()
      invariant seen == FirstNeighbours(size, move, i)
      invariant visited.marked == Met(enemies, seen)
      invariant captured.marked == SurroundedAmong(size, stones, move, player, seen)
    {
      FirstNeighboursStep(size, move, i);
      match NeighbourAt(board.size, move, i)
      case None =>
      case Some(neighbour) =>
        var skip := board.Get(neighbour) != ToStone(Opponent(player)) || visited.Has(neighbour);
        EnemyAt(board, neighbour, player);
        if skip {
          SkipOther(size, stones, move, player, seen, neighbour);
        } else {
          var liberties, group := GroupAnalysis(board, neighbour, Opponent(player), None, Some(move));
          BlockedCount(size, stones, Opponent(player), Elems(group), move);
          GroupFits(size, stones, Opponent(player), neighbour);
          MarkAll(visited, group);
          MeetGroup(size, stones, move, player, seen, neighbour);
          if liberties == 0 {
            MarkAll(captured, group);
          }
        }
        seen := seen + {neighbour};
    }
    FourDirectionsSuffice(size, move);
    AllNeighboursMet(size, stones, move, player);
  }

  /** The points scanned before column x, row y. */
  predicate Before(x: nat, y: nat, c: Coord) {
    ScanLess(c, Coord(x, y))
  }

  ghost function Kept(size: nat, stones: Stones, captured: set<Coord>, move: Coord, x: nat, y: nat): Stones {
    map c | c in stones && InBounds(size, c) && Before(x, y, c) && c !in captured && c != move :: stones[c]
  }

  lemma KeepStep(size: nat, stones: Stones, captured: set<Coord>, move: Coord, x: nat, y: nat)
    requires x < size && y < size
    ensures Coord(x, y) !in Kept(size, stones, captured, move, x, y)
    ensures Kept(size, stones, captured, move, x, y + 1) ==
            var c := Coord(x, y);
            var kept := Kept(size, stones, captured, move, x, y);
            if c in stones && c !in captured && c != move then kept[c := stones[c]] else kept
  {
  }

  lemma KeepColumn(size: nat, stones: Stones, captured: set<Coord>, move: Coord, x: nat)
    ensures Kept(size, stones, captured, move, x + 1, 0) == Kept(size, stones, captured, move, x, size)
    ensures Kept(size, stones, captured, move, 0, 0) == map[]
  {
  }

  /** Rebuilds the board point by point without the captured stones, then places the move. */
  method Rebuild(board: Board, captured: Grid, move: Coord, player: Player) returns (next: Board)
    requires board.Valid() && captured.Valid() && captured.size == board.size
    requires InBounds(board.size, move) && move !in board.Contents()
    ensures fresh(next) && fresh(next.cells) && next.Valid() && next.size == board.size
    ensures next.Contents() == (board.Contents() - captured.marked)[move := player]
  {
    hide AllCells, Board.Contents, Board.Valid, Grid.Valid, Kept, Board.Slot;
    ghost var size, stones, gone := board.size, board.Contents(), captured.marked;
    next := new Board(board.size);
    KeepColumn(size, stones, gone, move, 0);
    for x := 0 to board.size
      invariant board.Contents() == stones && captured.Valid() && next.Valid()
      invariant next.Contents() == Kept(size, stones, gone, move, x, 0)
    {
      for y := 0 to board.size
        invariant board.Contents() == stones && captured.Valid() && next.Valid()
        invariant next.Contents() == Kept(size, stones, gone, move, x, y)
      {
        KeepStep(size, stones, gone, move, x, y);
        var pos := Coord(x, y);
        if !captured.Has(pos) && pos != move {
          var value := board.Get(pos);
          if value != Stone.Empty {
            var placed := next.Place(pos, value);
          }
        }
      }
      KeepColumn(size, stones, gone, move, x);
    }
    KeepAll(size, stones, gone, move);
    var placed := next.Place(move, ToStone(player));
  }

  lemma KeepAll(size: nat, stones: Stones, captured: set<Coord>, move: Coord)
    requires Fits(size, stones) && move !in stones
    ensures Kept(size, stones, captured, move, size, 0) == stones - captured
  {
  }

  /** Lists the marked points in scan order. */
  method ListCaptures(captured: Grid) returns (captures: seq<Coord>)
    requires captured.Valid()
    ensures Elems(captures) == captured.marked && Sorted(captures)
  {
    captures := [];
    for x := 0 to captured.size
      invariant forall c :: c in captures <==> c in captured.marked && Before(x, 0, c)
      invariant Sorted(captures)
    {
      for y := 0 to captured.size
        invariant forall c :: c in captures <==> c in captured.marked && Before(x, y, c)
        invariant Sorted(captures)
      {
        if captured.Has(Coord(x, y)) {
          SortedAppend(captures, Coord(x, y));
          captures := captures + [Coord(x, y)];
        }
      }
    }
  }

  method FoldCaptures(keys: Keys, hash: bv64, captures: seq<Coord>, enemy: Player) returns (next: bv64)
    ensures next == FoldKeys(keys, hash, captures, enemy)
  {
    next := hash;
    for i := 0 to |captures|
      invariant next == FoldKeys(keys, hash, captures[..i], enemy)
    {
      assert captures[..i + 1][..i] == captures[..i];
      next := Xor(next, keys.stone(captures[i], enemy));
    }
    assert captures[..|captures|] == captures;
  }

  /** The stones a move captures, listed as the engine lists them. */
  ghost function CaptureList(size: nat, stones: Stones, move: Coord, player: Player): seq<Coord> {
    ListOf(size, Captured(size, stones, move, player))
  }

  lemma CaptureListElems(size: nat, stones: Stones, move: Coord, player: Player, captures: seq<Coord>)
    requires Fits(size, stones) && move !in stones
    requires Sorted(captures) && Elems(captures) == Captured(size, stones, move, player)
    ensures captures == CaptureList(size, stones, move, player)
  {
    CapturedIsWhole(size, stones, move, player);
    SortedIsUnique(captures, CaptureList(size, stones, move, player));
  }

  /** The search that stops early and the full simulation agree on whether a move captures. */
  lemma EarlyExitAgrees(size: nat, stones: Stones, move: Coord, player: Player)
    requires Fits(size, stones) && move !in stones
    ensures Surrounded(size, stones, move, player) != {} <==> CaptureList(size, stones, move, player) != []
  {
    hide Surrounded, Captured;
    SurroundedIsCaptured(size, stones, move, player);
    CapturedIsWhole(size, stones, move, player);
    var captures := CaptureList(size, stones, move, player);
    assert Elems(captures) == Captured(size, stones, move, player);
    assert |captures| > 0 ==> captures[0] in Elems(captures);
  }

  /** The position after a move on an empty point: the captured stones are gone, the mover's stone is
      there, the captures are listed once each in scan order, and their keys are in the new hash. */
  method SimulatePosition(start: GamePosition, move: Coord, player: Player, keys: Keys)
    returns (next: GamePosition, captures: seq<Coord>)
    requires start.Valid() && InBounds(start.board.size, move) && move !in start.board.Contents()
    ensures fresh(next) && fresh(next.board) && fresh(next.board.cells)
    ensures next.Valid() && next.board.size == start.board.size && next.moveId == start.moveId + 1
    ensures next.Current() == Situation(Play(start.board.size, start.board.Contents(), move, player), Opponent(player))
    ensures captures == CaptureList(start.board.size, start.board.Contents(), move, player)
    ensures next.hash == HashAfterMove(keys, start.hash, move, player, captures)
  {
    hide Surrounded, Captured, Board.Contents, Board.Valid, Grid.Valid, Xor, FoldKeys, Sorted, Elems, CaptureList;
    SurroundedIsCaptured(start.board.size, start.board.Contents(), move, player);
    MoveIsNotCaptured(start.board.size, start.board.Contents(), move, player);
    var captured := FindCaptures(start.board, move, player);
    var nextBoard := Rebuild(start.board, captured, move, player);
    captures := ListCaptures(captured);
    CaptureListElems(start.board.size, start.board.Contents(), move, player, captures);
    var nextHash := FoldCaptures(keys, Xor(start.hash, keys.stone(move, player)), captures, Opponent(player));
    nextHash := Xor(nextHash, keys.toggle);
    next := new GamePosition.Copy(start);
    next.board := nextBoard;
    next.currentPlayer := Opponent(player);
    next.hash := nextHash;
    next.moveId := start.moveId + 1;
  }

  lemma MoveIsNotCaptured(size: nat, stones: Stones, move: Coord, player: Player)
    requires move !in stones
    ensures Play(size, stones, move, player) == (stones - Captured(size, stones, move, player))[move := player]
  {
    CapturedIsWhole(size, stones, move, player);
  }

  /** Accepts a move exactly when it is legal and the hash it leads to is new. */
  method IsNextPositionLegal(current: GamePosition, player: Player, c: Coord, keys: Keys, history: set<bv64>)
    returns (legal: Option<(GamePosition, seq<Coord>)>)
    requires current.Valid()
    ensures legal.Some? <==>
            && LegalWithoutKo(current.board.size, current.board.Contents(), c, player)
            && HashAfterMove(keys, current.hash, c, player,
                             CaptureList(current.board.size, current.board.Contents(), c, player)) !in history
    ensures legal.Some? ==>
              var (next, captures) := legal.value;
              && fresh(next) && fresh(next.board) && fresh(next.board.cells)
              && next.Valid() && next.board.size == current.board.size && next.moveId == current.moveId + 1
              && next.Current() == Situation(Play(current.board.size, current.board.Contents(), c, player), Opponent(player))
              && captures == CaptureList(current.board.size, current.board.Contents(), c, player)
              && next.hash == HashAfterMove(keys, current.hash, c, player, captures)
  {
    hide Captured, Suicide, Play, CaptureList, Board.Contents, Board.Valid, HashAfterMove, Sorted, Elems;
    var valid := IsValidMove(current.board, player, c);
    if !valid {
      return None;
    }
    var simulated, captures := SimulatePosition(current, c, player, keys);
    if simulated.hash in history {
      return None;
    }
    return Some((simulated, captures));
  }
}
