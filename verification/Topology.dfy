/** Groups and liberties, defined by paths over the four-neighbour grid and independent of
    how the engine searches for them. */
module Topology {
  import opened Model

  predicate Adjacent(a: Coord, b: Coord) {
    || (a.x == b.x && (a.y == b.y + 1 || b.y == a.y + 1))
    || (a.y == b.y && (a.x == b.x + 1 || b.x == a.x + 1))
  }

  ghost function Neighbours(size: nat, c: Coord): (cells: set<Coord>)
    ensures forall d :: d in cells <==> InBounds(size, d) && Adjacent(c, d)
  {
    set d | d in AllCells(size) && Adjacent(c, d)
  }

  ghost predicate IsPath(region: set<Coord>, path: seq<Coord>) {
    && |path| > 0
    && (forall i :: 0 <= i < |path| ==> path[i] in region)
    && (forall i :: 0 < i < |path| ==> Adjacent(path[i - 1], path[i]))
  }

  ghost predicate Connected(region: set<Coord>, a: Coord, b: Coord) {
    exists path :: IsPath(region, path) && path[0] == a && path[|path| - 1] == b
  }

  /** The group of start: every point of the region that a path inside the region links to it. */
  ghost function Group(region: set<Coord>, start: Coord): set<Coord> {
    set c | c in region && Connected(region, start, c)
  }

  ghost predicate Closed(region: set<Coord>, part: set<Coord>) {
    forall a, b :: a in part && b in region && Adjacent(a, b) ==> b in part
  }

  /** The points of one colour. */
  ghost function Region(stones: Stones, player: Player): set<Coord> {
    set c | c in stones && stones[c] == player
  }

  /** The empty points next to a set of points. */
  ghost function Liberties(size: nat, stones: Stones, group: set<Coord>): (cells: set<Coord>)
    ensures forall e :: e in cells <==> InBounds(size, e) && e !in stones && exists c :: c in group && Adjacent(c, e)
  {
    set e | e in AllCells(size) && e !in stones && exists c :: c in group && Adjacent(c, e)
  }

  ghost predicate HasLiberty(size: nat, stones: Stones, c: Coord)
    requires c in stones
  {
    Liberties(size, stones, Group(Region(stones, stones[c]), c)) != {}
  }

  /** The rule that no group may stand on the board without a liberty. */
  ghost predicate AllAlive(size: nat, stones: Stones) {
    forall c {:trigger HasLiberty(size, stones, c)} :: c in stones ==> HasLiberty(size, stones, c)
  }

  lemma AdjacentIsSymmetric(a: Coord, b: Coord)
    ensures Adjacent(a, b) == Adjacent(b, a)
  {
  }

  lemma StartInGroup(region: set<Coord>, start: Coord)
    requires start in region
    ensures start in Group(region, start)
  {
    assert IsPath(region, [start]);
  }

  lemma GroupIsClosed(region: set<Coord>, start: Coord)
    ensures Closed(region, Group(region, start))
  {
    forall a, b | a in Group(region, start) && b in region && Adjacent(a, b) ensures b in Group(region, start) {
      var path :| IsPath(region, path) && path[0] == start && path[|path| - 1] == a;
      assert IsPath(region, path + [b]);
      assert (path + [b])[0] == start && (path + [b])[|path|] == b;
    }
  }

  lemma {:induction false} PathStaysInside(region: set<Coord>, part: set<Coord>, path: seq<Coord>)
    requires Closed(region, part) && IsPath(region, path) && path[0] in part
    ensures path[|path| - 1] in part
  {
    if |path| == 1 {
    } else {
      var init := path[..|path| - 1];
      assert IsPath(region, init);
      PathStaysInside(region, part, init);
      assert Adjacent(path[|path| - 2], path[|path| - 1]);
    }
  }

  /** A group is the smallest closed set around its start: the induction principle behind flood fill. */
  lemma GroupIsLeast(region: set<Coord>, start: Coord, part: set<Coord>)
    requires Closed(region, part) && start in part
    ensures Group(region, start) <= part
  {
    forall c | c in Group(region, start) ensures c in part {
      var path :| IsPath(region, path) && path[0] == start && path[|path| - 1] == c;
      PathStaysInside(region, part, path);
    }
  }

  lemma GroupIsSymmetric(region: set<Coord>, a: Coord, b: Coord)
    requires a in region && b in Group(region, a)
    ensures a in Group(region, b)
  {
    var back := set d | d in region && a in Group(region, d);
    forall d, e | d in back && e in region && Adjacent(d, e) ensures e in back {
      StartInGroup(region, e);
      GroupIsClosed(region, e);
      AdjacentIsSymmetric(d, e);
      assert d in Group(region, e);
      GroupIsLeast(region, d, Group(region, e));
    }
    StartInGroup(region, a);
    GroupIsLeast(region, a, back);
  }

  /** Groups partition the region: two points of one group have the same group. */
  lemma SameGroup(region: set<Coord>, a: Coord, b: Coord)
    requires a in region && b in Group(region, a)
    ensures Group(region, b) == Group(region, a)
  {
    GroupIsSymmetric(region, a, b);
    GroupIsClosed(region, a);
    GroupIsClosed(region, b);
    GroupIsLeast(region, a, Group(region, b));
    GroupIsLeast(region, b, Group(region, a));
  }
}
