/** The value types shared by the rules engine, the server and the clients, and the
    abstract board they all talk about: which point holds a stone of which colour. */
module Model {

  datatype Option<+T> = None | Some(value: T)

  datatype Player = Black | White

  datatype Coord = Coord(x: nat, y: nat)

  /** One field of the board vector. */
  datatype Stone = Empty | Black | White

  /** The stones on a board. A point that is not a key is empty. */
  type Stones = map<Coord, Player>

  /** Who stands where and who is to move: what situational superko compares. */
  datatype Situation = Situation(stones: Stones, toMove: Player)

  function Opponent(player: Player): Player {
    if player.White? then Player.Black else Player.White
  }

  function ToStone(player: Player): Stone {
    if player.White? then Stone.White else Stone.Black
  }

  predicate InBounds(size: nat, c: Coord) {
    c.x < size && c.y < size
  }

  ghost function AllCells(size: nat): (cells: set<Coord>)
    ensures forall c :: c in cells <==> InBounds(size, c)
  {
    set x, y | 0 <= x < size && 0 <= y < size :: Coord(x, y)
  }

  ghost predicate Fits(size: nat, stones: Stones) {
    forall c :: c in stones ==> InBounds(size, c)
  }

  function Elems(s: seq<Coord>): (elems: set<Coord>)
    ensures forall c :: c in elems <==> c in s
  {
    set c | c in s
  }

  /** The order in which the board is scanned: column by column. */
  predicate ScanLess(a: Coord, b: Coord) {
    a.x < b.x || (a.x == b.x && a.y < b.y)
  }

  ghost predicate Sorted(s: seq<Coord>) {
    forall i, j :: 0 <= i < j < |s| ==> ScanLess(s[i], s[j])
  }

  ghost predicate NoDup<T>(s: seq<T>) {
    forall i, j :: 0 <= i < j < |s| ==> s[i] != s[j]
  }

  lemma SubsetIsNoLarger<T>(part: set<T>, whole: set<T>)
    requires part <= whole
    ensures |part| <= |whole|
  {
    assert whole == part + (whole - part);
  }
}
