/** Zobrist hashing for an arbitrary table of keys: the hash kept move by move against the hash
    computed from the board. */
module Zobrist {
  import opened Model
  import opened Rules
  import opened Scans

  /** The key table: one key for every point and colour, and one for the player to move. */
  datatype Keys = Keys(stone: (Coord, Player) -> bv64, toggle: bv64)

  function Xor(a: bv64, b: bv64): bv64 {
    a ^ b
  }

  lemma XorLaws(a: bv64, b: bv64, c: bv64)
    ensures Xor(Xor(a, b), c) == Xor(Xor(a, c), b)
    ensures Xor(a, 0) == a && Xor(Xor(a, b), b) == a
  {
  }

  // ----- The hash of a situation -----

  ghost function KeyAt(keys: Keys, stones: Stones, c: Coord): bv64 {
    if c in stones then keys.stone(c, stones[c]) else 0
  }

  /** The XOR of the keys of all stones on the given points. */
  ghost function StonesHash(keys: Keys, stones: Stones, cells: seq<Coord>): bv64 {
    if cells == [] then 0
    else Xor(StonesHash(keys, stones, cells[..|cells| - 1]), KeyAt(keys, stones, cells[|cells| - 1]))
  }

  ghost function PlayerKey(keys: Keys, toMove: Player): bv64 {
    if toMove.White? then keys.toggle else 0
  }

  /** The hash of a situation computed from scratch: every stone on the board, and the toggle key
      when White is to move. */
  ghost function HashOf(keys: Keys, size: nat, at: Situation): bv64 {
    Xor(StonesHash(keys, at.stones, Scan(size, size)), PlayerKey(keys, at.toMove))
  }

  /** Folds the keys of a list of stones of one colour into a hash, first to last. */
  function FoldKeys(keys: Keys, hash: bv64, cells: seq<Coord>, colour: Player): bv64 {
    if cells == [] then hash
    else Xor(FoldKeys(keys, hash, cells[..|cells| - 1], colour), keys.stone(cells[|cells| - 1], colour))
  }

  lemma {:induction false} HashElsewhere(keys: Keys, stones: Stones, other: Stones, cells: seq<Coord>)
    requires forall c :: c in cells ==> KeyAt(keys, stones, c) == KeyAt(keys, other, c)
    ensures StonesHash(keys, stones, cells) == StonesHash(keys, other, cells)
  {
    if cells == [] {
    } else {
      HashElsewhere(keys, stones, other, cells[..|cells| - 1]);
    }
  }

  /** Changing one point changes the hash by the old and the new key of that point. */
  lemma {:induction false} HashOneChange(keys: Keys, stones: Stones, other: Stones, cells: seq<Coord>, c: Coord)
    requires NoDup(cells) && c in cells
    requires forall d :: d in cells && d != c ==> KeyAt(keys, stones, d) == KeyAt(keys, other, d)
    ensures StonesHash(keys, other, cells) ==
            Xor(Xor(StonesHash(keys, stones, cells), KeyAt(keys, stones, c)), KeyAt(keys, other, c))
  {
    hide Xor, KeyAt;
    var init, last := cells[..|cells| - 1], cells[|cells| - 1];
    assert cells == init + [last];
    if last == c {
      HashElsewhere(keys, stones, other, init);
      XorLaws(StonesHash(keys, stones, init), KeyAt(keys, stones, c), 0);
    } else {
      HashOneChange(keys, stones, other, init, c);
      var hash, was, now := StonesHash(keys, stones, init), KeyAt(keys, stones, c), KeyAt(keys, other, c);
      XorLaws(Xor(hash, was), now, KeyAt(keys, stones, last));
      XorLaws(hash, was, KeyAt(keys, stones, last));
    }
  }

  lemma ScanHash(keys: Keys, size: nat, stones: Stones, other: Stones, c: Coord)
    requires InBounds(size, c)
    requires forall d :: d != c ==> KeyAt(keys, stones, d) == KeyAt(keys, other, d)
    ensures StonesHash(keys, other, Scan(size, size)) ==
            Xor(Xor(StonesHash(keys, stones, Scan(size, size)), KeyAt(keys, stones, c)), KeyAt(keys, other, c))
  {
    hide Xor, Scan;
    SortedHasNoDup(Scan(size, size));
    HashOneChange(keys, stones, other, Scan(size, size), c);
  }

  /** Taking a list of stones without repeats off the board folds their keys out of the hash. */
  lemma {:induction false} HashAfterRemoval(keys: Keys, size: nat, stones: Stones, cells: seq<Coord>, colour: Player)
    requires NoDup(cells)
    requires forall c :: c in cells ==> InBounds(size, c) && c in stones && stones[c] == colour
    ensures StonesHash(keys, stones - Elems(cells), Scan(size, size)) ==
            FoldKeys(keys, StonesHash(keys, stones, Scan(size, size)), cells, colour)
  {
    hide Xor, Scan, StonesHash;
    if cells == [] {
      assert stones - Elems(cells) == stones;
    } else {
      var init, last := cells[..|cells| - 1], cells[|cells| - 1];
      assert cells == init + [last];
      HashAfterRemoval(keys, size, stones, init, colour);
      ScanHash(keys, size, stones - Elems(init), stones - Elems(cells), last);
      XorLaws(FoldKeys(keys, StonesHash(keys, stones, Scan(size, size)), cells, colour), 0, 0);
    }
  }

  /** The hash simulatePosition computes from the old one. */
  function HashAfterMove(keys: Keys, hash: bv64, move: Coord, player: Player, captures: seq<Coord>): bv64 {
    Xor(FoldKeys(keys, Xor(hash, keys.stone(move, player)), captures, Opponent(player)), keys.toggle)
  }

  lemma {:induction false} FoldShifts(keys: Keys, hash: bv64, extra: bv64, cells: seq<Coord>, colour: Player)
    ensures FoldKeys(keys, Xor(hash, extra), cells, colour) == Xor(FoldKeys(keys, hash, cells, colour), extra)
  {
    hide Xor;
    if cells == [] {
    } else {
      FoldShifts(keys, hash, extra, cells[..|cells| - 1], colour);
      XorLaws(FoldKeys(keys, hash, cells[..|cells| - 1], colour), extra, keys.stone(cells[|cells| - 1], colour));
    }
  }

  lemma TogglePlayer(keys: Keys, hash: bv64, player: Player)
    ensures Xor(Xor(hash, PlayerKey(keys, player)), keys.toggle) == Xor(hash, PlayerKey(keys, Opponent(player)))
  {
    hide Xor;
    XorLaws(hash, keys.toggle, 0);
    XorLaws(Xor(hash, keys.toggle), 0, 0);
  }

  /** The incremental hash of a move is the hash of the new situation computed from scratch. It rests
      on the captures being listed without repeats. */
  lemma HashOfMove(keys: Keys, size: nat, stones: Stones, move: Coord, player: Player, captures: seq<Coord>)
    requires Fits(size, stones) && InBounds(size, move) && move !in stones
    requires NoDup(captures) && Elems(captures) == Captured(size, stones, move, player)
    ensures HashAfterMove(keys, HashOf(keys, size, Situation(stones, player)), move, player, captures) ==
            HashOf(keys, size, Situation(Play(size, stones, move, player), Opponent(player)))
  {
    hide Xor, Scan, StonesHash, FoldKeys, PlayerKey, Captured;
    var placed, enemy := stones[move := player], Opponent(player);
    var board, w := StonesHash(keys, stones, Scan(size, size)), PlayerKey(keys, player);
    CapturedIsWhole(size, stones, move, player);
    ScanHash(keys, size, stones, placed, move);
    HashAfterRemoval(keys, size, placed, captures, enemy);
    XorLaws(board, 0, 0);
    XorLaws(board, w, keys.stone(move, player));
    FoldShifts(keys, Xor(board, keys.stone(move, player)), w, captures, enemy);
    TogglePlayer(keys, FoldKeys(keys, Xor(board, keys.stone(move, player)), captures, enemy), player);
  }

  lemma HashOfPass(keys: Keys, size: nat, stones: Stones, player: Player)
    ensures Xor(HashOf(keys, size, Situation(stones, player)), keys.toggle) ==
            HashOf(keys, size, Situation(stones, Opponent(player)))
  {
    hide Xor, Scan, StonesHash, PlayerKey;
    TogglePlayer(keys, StonesHash(keys, stones, Scan(size, size)), player);
  }
}
