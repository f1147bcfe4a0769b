/** The position a game keeps: board, player to move, hash and move number, updated in place. */
module Positions {
  import opened Model
  import opened Boards
  import opened Scans
  import opened Zobrist

  class GamePosition {
    var board: Board
    var currentPlayer: Player
    var hash: bv64
    var moveId: nat

    ghost predicate Valid()
      reads this
    {
      board.Valid()
    }

    ghost function Current(): (at: Situation)
      requires Valid()
      reads this, board.cells
      ensures Fits(board.size, at.stones) && at.toMove == currentPlayer
    {
      Situation(board.Contents(), currentPlayer)
    }

    /** What separates the kept hash from the hash of the board computed from scratch: 0 when they agree. */
    ghost function HashError(keys: Keys): bv64
      requires Valid()
      reads this, board.cells
    {
      Xor(hash, HashOf(keys, board.size, Current()))
    }

    constructor (size: nat)
      ensures Valid() && fresh(board) && fresh(board.cells) && board.size == size
      ensures Current() == Situation(map[], Player.Black) && hash == 0 && moveId == 0
    {
      board := new Board(size);
      currentPlayer, hash, moveId := Player.Black, 0, 0;
    }

    constructor Copy(other: GamePosition)
      requires other.Valid()
      ensures Valid() && fresh(board) && fresh(board.cells) && board.size == other.board.size
      ensures Current() == other.Current() && hash == other.hash && moveId == other.moveId
    {
      board := new Board.Copy(other.board);
      currentPlayer, hash, moveId := other.currentPlayer, other.hash, other.moveId;
    }

    /** The current player puts a stone. The hash follows the board exactly when the point was free:
        on a stone already there the board stays, but the key is folded in all the same. */
    method PutStone(c: Coord, keys: Keys)
      requires Valid() && InBounds(board.size, c)
      modifies this, board.cells
      ensures Valid() && board == old(board) && moveId == old(moveId) + 1
      ensures currentPlayer == Opponent(old(currentPlayer))
      ensures board.Contents() == if c in old(board.Contents()) then old(board.Contents())
                                  else old(board.Contents())[c := old(currentPlayer)]
      ensures hash == Xor(Xor(old(hash), keys.stone(c, old(currentPlayer))), keys.toggle)
      ensures HashError(keys) == old(HashError(keys)) <==>
              c !in old(board.Contents()) || keys.stone(c, old(currentPlayer)) == 0
    {
      hide Xor, Scan, Board.Contents, Board.Valid, StonesHash, PlayerKey, FoldKeys;
      ghost var stones, toMove := board.Contents(), currentPlayer;
      ghost var hash0 := hash;
      var placed := board.Place(c, ToStone(currentPlayer));
      hash := Xor(hash, keys.stone(c, currentPlayer));
      currentPlayer := Opponent(currentPlayer);
      hash := Xor(hash, keys.toggle);
      moveId := moveId + 1;
      PutStoneHash(keys, board.size, stones, c, toMove, hash0);
    }

    method Pass(keys: Keys)
      requires Valid()
      modifies this
      ensures Valid() && board == old(board) && moveId == old(moveId) + 1
      ensures currentPlayer == Opponent(old(currentPlayer))
      ensures Current() == Situation(old(Current()).stones, Opponent(old(currentPlayer)))
      ensures hash == Xor(old(hash), keys.toggle)
      ensures HashError(keys) == old(HashError(keys))
    {
      hide Xor, Scan, StonesHash, PlayerKey, Board.Contents;
      currentPlayer := Opponent(currentPlayer);
      hash := Xor(hash, keys.toggle);
      moveId := moveId + 1;
      HashOfPass(keys, board.size, board.Contents(), old(currentPlayer));
      XorCancels(old(hash), HashOf(keys, board.size, old(Current())), keys.toggle);
    }
  }

  lemma XorAssociates(a: bv64, b: bv64, c: bv64)
    ensures Xor(a, Xor(b, c)) == Xor(Xor(a, b), c)
  {
  }

  lemma XorCancels(a: bv64, b: bv64, t: bv64)
    ensures Xor(Xor(a, t), Xor(b, t)) == Xor(a, b)
  {
    hide Xor;
    XorAssociates(Xor(a, t), b, t);
    XorLaws(a, t, b);
    XorLaws(Xor(a, b), t, 0);
  }

  lemma XorWithKey(a: bv64, b: bv64, k: bv64)
    ensures Xor(Xor(a, k), b) == Xor(a, b) <==> k == 0
  {
  }

  lemma PutStoneHash(keys: Keys, size: nat, stones: Stones, c: Coord, player: Player, hash: bv64)
    requires InBounds(size, c)
    ensures
      var next := if c in stones then stones else stones[c := player];
      var nextHash := Xor(Xor(hash, keys.stone(c, player)), keys.toggle);
      (Xor(nextHash, HashOf(keys, size, Situation(next, Opponent(player))))
       == Xor(hash, HashOf(keys, size, Situation(stones, player))))
      <==> (c !in stones || keys.stone(c, player) == 0)
  {
    hide Xor, Scan, StonesHash;
    var key, w := keys.stone(c, player), PlayerKey(keys, player);
    var board := StonesHash(keys, stones, Scan(size, size));
    var next := if c in stones then stones else stones[c := player];
    HashOfPass(keys, size, next, player);
    XorCancels(Xor(hash, key), HashOf(keys, size, Situation(next, player)), keys.toggle);
    if c in stones {
      XorWithKey(hash, HashOf(keys, size, Situation(stones, player)), key);
    } else {
      ScanHash(keys, size, stones, next, c);
      XorLaws(board, 0, 0);
      XorLaws(board, key, w);
      XorCancels(hash, Xor(board, w), key);
    }
  }
}
