/** The rules of Go as statements about boards: what a placed stone captures, when placing one is
    suicide, and why no group ever stays on the board without a liberty. */
module Rules {
  import opened Model
  import opened Topology

  /** The enemy stones a move captures: with the stone on the board, the groups that touch it and
      have no liberty. */
  ghost function Captured(size: nat, stones: Stones, move: Coord, player: Player): set<Coord> {
    var placed := stones[move := player];
    var enemies := Region(placed, Opponent(player));
    set c | c in enemies && Touches(Group(enemies, c), move) && Liberties(size, placed, Group(enemies, c)) == {}
  }

  ghost predicate Touches(group: set<Coord>, move: Coord) {
    exists d :: d in group && Adjacent(move, d)
  }

  /** The board after a move: the stone is placed and what it captures is gone. */
  ghost function Play(size: nat, stones: Stones, move: Coord, player: Player): Stones {
    stones[move := player] - Captured(size, stones, move, player)
  }

  /** A move on an empty point that leaves its own group without a liberty. */
  ghost predicate Suicide(size: nat, stones: Stones, move: Coord, player: Player) {
    var next := Play(size, stones, move, player);
    move in next && !HasLiberty(size, next, move)
  }

  ghost predicate LegalWithoutKo(size: nat, stones: Stones, move: Coord, player: Player) {
    InBounds(size, move) && move !in stones && !Suicide(size, stones, move, player)
  }

  // ----- Groups of related regions -----

  lemma SameGroupInBoth(region: set<Coord>, other: set<Coord>, start: Coord)
    requires start in region
    requires Group(region, start) <= other && Closed(other, Group(region, start))
    ensures Group(other, start) == Group(region, start)
  {
    var part := Group(region, start);
    StartInGroup(region, start);
    StartInGroup(other, start);
    GroupIsClosed(region, start);
    GroupIsClosed(other, start);
    GroupIsLeast(other, start, part);
    GroupIsLeast(region, start, part * Group(other, start));
  }

  /** Adding a point changes no group that does not come to contain it. */
  lemma GroupWithoutNewStone(region: set<Coord>, move: Coord, start: Coord)
    requires start in region && start !in Group(region + {move}, move)
    ensures Group(region + {move}, start) == Group(region, start)
    ensures !Touches(Group(region, start), move)
  {
    var larger := region + {move};
    StartInGroup(larger, start);
    GroupIsClosed(larger, start);
    if move in Group(larger, start) {
      GroupIsSymmetric(larger, start, move);
    }
    GroupIsClosed(region, start);
    GroupIsLeast(region, start, Group(larger, start));
    forall d | d in Group(region, start) ensures !Adjacent(move, d) {
      AdjacentIsSymmetric(move, d);
    }
    SameGroupInBoth(region, larger, start);
  }

  /** Removing whole groups changes none of the groups that stay. */
  lemma GroupAfterRemoval(region: set<Coord>, gone: set<Coord>, start: Coord)
    requires start in region && start !in gone
    requires forall c :: c in gone ==> c in region && Group(region, c) <= gone
    ensures Group(region - gone, start) == Group(region, start)
  {
    GroupIsClosed(region, start);
    forall c | c in Group(region, start) ensures c !in gone {
      SameGroup(region, start, c);
      StartInGroup(region, start);
    }
    SameGroupInBoth(region, region - gone, start);
  }

  // ----- Capture -----

  lemma RegionsAfterPlacing(stones: Stones, move: Coord, player: Player)
    ensures Region(stones[move := player], Opponent(player)) == Region(stones, Opponent(player)) - {move}
    ensures Region(stones[move := player], player) == Region(stones, player) + {move}
    ensures move !in stones ==> Region(stones[move := player], Opponent(player)) == Region(stones, Opponent(player))
  {
  }

  /** Captures are whole groups of the enemy. */
  lemma CapturedIsWhole(size: nat, stones: Stones, move: Coord, player: Player)
    requires move !in stones
    ensures forall c :: c in Captured(size, stones, move, player) ==>
              c in Region(stones, Opponent(player))
              && Group(Region(stones, Opponent(player)), c) <= Captured(size, stones, move, player)
  {
    RegionsAfterPlacing(stones, move, player);
    var enemies := Region(stones, Opponent(player));
    forall c, d | c in Captured(size, stones, move, player) && d in Group(enemies, c)
      ensures d in Captured(size, stones, move, player)
    {
      SameGroup(enemies, c, d);
    }
  }

  lemma RegionsAfterPlay(size: nat, stones: Stones, move: Coord, player: Player)
    requires move !in stones
    ensures Region(Play(size, stones, move, player), player) == Region(stones, player) + {move}
    ensures Region(Play(size, stones, move, player), Opponent(player)) ==
            Region(stones, Opponent(player)) - Captured(size, stones, move, player)
    ensures move in Play(size, stones, move, player) && Play(size, stones, move, player)[move] == player
  {
    CapturedIsWhole(size, stones, move, player);
    assert move !in Captured(size, stones, move, player);
  }

  /** The scan of the four neighbours loses nothing: on a board where every group has a liberty, the
      captured stones are exactly the enemy stones, anywhere, left without one. */
  lemma LocalCaptureIsGlobal(size: nat, stones: Stones, move: Coord, player: Player)
    requires AllAlive(size, stones) && move !in stones
    ensures forall c :: c in Captured(size, stones, move, player) <==>
              && c in Region(stones, Opponent(player))
              && !HasLiberty(size, stones[move := player], c)
  {
    hide Group, Liberties, AllCells, Connected, Closed;
    var placed := stones[move := player];
    var enemies := Region(stones, Opponent(player));
    RegionsAfterPlacing(stones, move, player);
    forall c | c in enemies && !HasLiberty(size, placed, c) ensures c in Captured(size, stones, move, player) {
      assert HasLiberty(size, stones, c);
      var e :| e in Liberties(size, stones, Group(enemies, c));
      assert e !in Liberties(size, placed, Group(enemies, c));
      assert e == move;
      var d :| d in Group(enemies, c) && Adjacent(d, e);
      AdjacentIsSymmetric(d, e);
      assert Touches(Group(enemies, c), move);
    }
  }

  /** The same stones as the search sees them before the move: enemy groups that touch the point and
      have no liberty but that point. */
  ghost function Surrounded(size: nat, stones: Stones, move: Coord, player: Player): set<Coord> {
    var enemies := Region(stones, Opponent(player));
    set c | c in enemies && Touches(Group(enemies, c), move) && Liberties(size, stones, Group(enemies, c)) <= {move}
  }

  lemma SurroundedIsCaptured(size: nat, stones: Stones, move: Coord, player: Player)
    requires move !in stones
    ensures Surrounded(size, stones, move, player) == Captured(size, stones, move, player)
  {
    hide Group, Liberties, AllCells, Touches;
    RegionsAfterPlacing(stones, move, player);
    var enemies := Region(stones, Opponent(player));
    forall c | c in enemies
      ensures Liberties(size, stones[move := player], Group(enemies, c)) ==
              Liberties(size, stones, Group(enemies, c)) - {move}
    {
    }
  }

  // ----- Suicide -----

  /** The liberties of the group a stone would join if it were put on the point, nothing else changing. */
  ghost function DirectLiberties(size: nat, stones: Stones, move: Coord, player: Player): set<Coord> {
    Liberties(size, stones[move := player], Group(Region(stones[move := player], player), move))
  }

  /** A captured stone next to the move leaves the mover's group a liberty. */
  lemma CaptureGivesLiberty(size: nat, stones: Stones, move: Coord, player: Player, own: set<Coord>)
    requires Fits(size, stones) && move !in stones && move in own
    requires Captured(size, stones, move, player) != {}
    ensures Liberties(size, Play(size, stones, move, player), own) != {}
  {
    hide Group, Liberties, AllCells;
    var c :| c in Captured(size, stones, move, player);
    CapturedIsWhole(size, stones, move, player);
    RegionsAfterPlacing(stones, move, player);
    var d :| d in Group(Region(stones, Opponent(player)), c) && Adjacent(move, d);
    assert d in Liberties(size, Play(size, stones, move, player), own);
  }

  lemma DirectLibertyStays(size: nat, stones: Stones, move: Coord, player: Player)
    requires move !in stones && DirectLiberties(size, stones, move, player) != {}
    ensures Liberties(size, Play(size, stones, move, player), Group(Region(stones, player) + {move}, move)) != {}
  {
    hide Group, Liberties, AllCells, Captured;
    RegionsAfterPlacing(stones, move, player);
    var e :| e in DirectLiberties(size, stones, move, player);
    assert e in Liberties(size, Play(size, stones, move, player), Group(Region(stones, player) + {move}, move));
  }

  /** The test the engine makes before the move, direct liberties or a capture, decides exactly
      whether the mover's group has a liberty after it. */
  lemma SuicideTestIsExact(size: nat, stones: Stones, move: Coord, player: Player)
    requires InBounds(size, move) && move !in stones && Fits(size, stones)
    ensures Suicide(size, stones, move, player) <==>
            DirectLiberties(size, stones, move, player) == {} && Captured(size, stones, move, player) == {}
  {
    hide Group, Liberties, AllCells, Connected, Closed, Captured;
    RegionsAfterPlay(size, stones, move, player);
    RegionsAfterPlacing(stones, move, player);
    var own := Group(Region(stones, player) + {move}, move);
    StartInGroup(Region(stones, player) + {move}, move);
    if DirectLiberties(size, stones, move, player) != {} {
      DirectLibertyStays(size, stones, move, player);
    } else if Captured(size, stones, move, player) != {} {
      CaptureGivesLiberty(size, stones, move, player, own);
    } else {
      assert Play(size, stones, move, player) == stones[move := player];
    }
  }

  // ----- The rule every position keeps -----

  lemma OwnGroupsStayAlive(size: nat, stones: Stones, move: Coord, player: Player, c: Coord)
    requires AllAlive(size, stones) && LegalWithoutKo(size, stones, move, player)
    requires c == move || (c in stones && stones[c] == player)
    ensures c in Play(size, stones, move, player) && HasLiberty(size, Play(size, stones, move, player), c)
  {
    hide Group, Liberties, AllCells, Connected, Closed;
    RegionsAfterPlay(size, stones, move, player);
    var own := Region(stones, player);
    var next := Play(size, stones, move, player);
    StartInGroup(own + {move}, move);
    assert c in own + {move};
    if c in Group(own + {move}, move) {
      SameGroup(own + {move}, move, c);
    } else {
      GroupWithoutNewStone(own, move, c);
      assert HasLiberty(size, stones, c);
      var e :| e in Liberties(size, stones, Group(own, c));
      forall d | d in Group(own, c) && Adjacent(d, e) ensures e != move { AdjacentIsSymmetric(d, e); }
      assert e in Liberties(size, next, Group(own, c));
    }
  }

  lemma EnemyGroupsStayAlive(size: nat, stones: Stones, move: Coord, player: Player, c: Coord)
    requires AllAlive(size, stones) && LegalWithoutKo(size, stones, move, player)
    requires c in Play(size, stones, move, player) && c in stones && stones[c] == Opponent(player)
    ensures HasLiberty(size, Play(size, stones, move, player), c)
  {
    hide Group, Liberties, AllCells, Connected, Closed;
    RegionsAfterPlay(size, stones, move, player);
    RegionsAfterPlacing(stones, move, player);
    CapturedIsWhole(size, stones, move, player);
    LocalCaptureIsGlobal(size, stones, move, player);
    var enemies := Region(stones, Opponent(player));
    var next := Play(size, stones, move, player);
    assert c in Region(next, Opponent(player));
    GroupAfterRemoval(enemies, Captured(size, stones, move, player), c);
    var e :| e in Liberties(size, stones[move := player], Group(enemies, c));
    assert e in Liberties(size, next, Group(enemies, c));
  }

  /** A legal move keeps a liberty for every group of either colour. */
  lemma LegalMoveKeepsAllAlive(size: nat, stones: Stones, move: Coord, player: Player)
    requires AllAlive(size, stones) && LegalWithoutKo(size, stones, move, player)
    ensures AllAlive(size, Play(size, stones, move, player))
  {
    hide Group, Liberties, AllCells, Connected, Closed;
    var next := Play(size, stones, move, player);
    forall c | c in next ensures HasLiberty(size, next, c) {
      if c == move || stones[c] == player {
        OwnGroupsStayAlive(size, stones, move, player, c);
      } else {
        EnemyGroupsStayAlive(size, stones, move, player, c);
      }
    }
  }
}
