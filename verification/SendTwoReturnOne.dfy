/** A game in which superko drops a pass and one player makes both passes that end it: Black sends two
    stones, White takes them, and Black takes one back. */
module SendTwoReturnOne {
  import opened Model
  import opened Topology
  import opened Rules
  import opened Scans
  import opened Zobrist
  import opened GameSpec
  import opened GameTheorems

  const MOVES := [Coord(1, 0), Coord(0, 1), Coord(2, 1), Coord(1, 1), Coord(3, 0), Coord(5, 5),
                  Coord(0, 0), Coord(2, 0), Coord(1, 0)]

  const B := Player.Black
  const W := Player.White

  const S1: Stones := map[Coord(1, 0) := B]
  const S2: Stones := S1[Coord(0, 1) := W]
  const S3: Stones := S2[Coord(2, 1) := B]
  const S4: Stones := S3[Coord(1, 1) := W]
  const S5: Stones := S4[Coord(3, 0) := B]
  const S6: Stones := S5[Coord(5, 5) := W]
  const S7: Stones := S6[Coord(0, 0) := B]
  const S8: Stones := S7[Coord(2, 0) := W] - {Coord(0, 0), Coord(1, 0)}

  const BOARDS := [map[], S1, S2, S3, S4, S5, S6, S7, S8]

  /** The situations of the game on its boards. After the ninth move the board is again that after the sixth,
      with the other player to move. */
  function LineOn(b: seq<Stones>): (line: seq<Situation>)
    requires |b| == 9
    ensures |line| == 10
  {
    [Situation(b[0], B), Situation(b[1], W), Situation(b[2], B), Situation(b[3], W), Situation(b[4], B),
     Situation(b[5], W), Situation(b[6], B), Situation(b[7], W), Situation(b[8], B), Situation(b[6], W)]
  }

  const LINE := LineOn(BOARDS)

  /** A stone next to an empty point is in a group with a liberty. */
  lemma NextToEmpty(size: nat, stones: Stones, c: Coord, e: Coord)
    requires c in stones && InBounds(size, e) && e !in stones && Adjacent(c, e)
    ensures e in Liberties(size, stones, Group(Region(stones, stones[c]), c))
  {
    hide Group;
    StartInGroup(Region(stones, stones[c]), c);
  }

  /** Every given stone has an exit: an empty point of the board next to it. */
  ghost predicate Exits(size: nat, stones: Stones, exits: map<Coord, Coord>) {
    forall c :: c in exits ==> c in stones && InBounds(size, exits[c]) && exits[c] !in stones && Adjacent(c, exits[c])
  }

  /** A move after which it and all enemy stones have exits is legal and captures nothing. */
  lemma QuietMove(size: nat, stones: Stones, move: Coord, player: Player, exits: map<Coord, Coord>)
    requires InBounds(size, move) && move !in stones && move in exits
    requires Exits(size, stones[move := player], exits)
    requires forall c :: c in stones && stones[c] == Opponent(player) ==> c in exits
    ensures LegalWithoutKo(size, stones, move, player)
    ensures Play(size, stones, move, player) == stones[move := player]
  {
    hide Group, Liberties;
    NothingCaptured(size, stones, move, player, exits);
    NextToEmpty(size, stones[move := player], move, exits[move]);
  }

  lemma NothingCaptured(size: nat, stones: Stones, move: Coord, player: Player, exits: map<Coord, Coord>)
    requires move !in stones && Exits(size, stones[move := player], exits)
    requires forall c :: c in stones && stones[c] == Opponent(player) ==> c in exits
    ensures Captured(size, stones, move, player) == {}
    ensures Play(size, stones, move, player) == stones[move := player]
  {
    hide Group, Liberties;
    forall c | c in Captured(size, stones, move, player) ensures false {
      NextToEmpty(size, stones[move := player], c, exits[c]);
    }
  }

  /** A dead group: stones closed among the enemies, connected, touching the move, with no empty neighbour. */
  lemma DeadStone(size: nat, stones: Stones, move: Coord, player: Player, group: set<Coord>, c: Coord, d: Coord)
    requires move !in stones && c in group && d in group && Adjacent(move, d) && (d == c || Adjacent(c, d))
    requires forall g :: g in group ==> g in stones && stones[g] == Opponent(player)
    requires Closed(Region(stones, Opponent(player)), group)
    requires forall g, e :: g in group && InBounds(size, e) && Adjacent(g, e) ==> e in stones || e == move
    ensures c in Captured(size, stones, move, player)
  {
    hide Group;
    RegionsAfterPlacing(stones, move, player);
    var enemies := Region(stones, Opponent(player));
    GroupIsLeast(enemies, c, group);
    StartInGroup(enemies, c);
    GroupIsClosed(enemies, c);
    assert d in Group(enemies, c);
    assert Liberties(size, stones[move := player], Group(enemies, c)) == {};
  }

  lemma AliveStone(size: nat, stones: Stones, move: Coord, player: Player, c: Coord, e: Coord)
    requires c in stones[move := player] && InBounds(size, e) && e !in stones[move := player] && Adjacent(c, e)
    ensures c !in Captured(size, stones, move, player)
  {
    hide Group, Liberties;
    NextToEmpty(size, stones[move := player], c, e);
  }

  lemma WhiteTakesTwo(size: nat)
    requires size >= 6
    ensures Captured(size, S7, Coord(2, 0), W) == {Coord(0, 0), Coord(1, 0)}
  {
    hide Captured, Group, Liberties;
    var move, group := Coord(2, 0), {Coord(0, 0), Coord(1, 0)};
    CapturedIsWhole(size, S7, move, W);
    assert Closed(Region(S7, B), group);
    DeadStone(size, S7, move, W, group, Coord(0, 0), Coord(1, 0));
    DeadStone(size, S7, move, W, group, Coord(1, 0), Coord(1, 0));
    AliveStone(size, S7, move, W, Coord(2, 1), Coord(3, 1));
    AliveStone(size, S7, move, W, Coord(3, 0), Coord(4, 0));
  }

  lemma BlackTakesOne(size: nat)
    requires size >= 6
    ensures Captured(size, S8, Coord(1, 0), B) == {Coord(2, 0)}
  {
    hide Captured, Group, Liberties;
    var move, group := Coord(1, 0), {Coord(2, 0)};
    CapturedIsWhole(size, S8, move, B);
    DeadStone(size, S8, move, B, group, Coord(2, 0), Coord(2, 0));
    AliveStone(size, S8, move, B, Coord(0, 1), Coord(0, 2));
    AliveStone(size, S8, move, B, Coord(1, 1), Coord(1, 2));
    AliveStone(size, S8, move, B, Coord(5, 5), Coord(5, 4));
  }

  /** A move of the game: legal, and leading from one board to the next. */
  ghost predicate Leads(size: nat, stones: Stones, move: Coord, player: Player, next: Stones) {
    LegalWithoutKo(size, stones, move, player) && Play(size, stones, move, player) == next
  }

  /** The first seven moves capture nothing. */
  lemma FirstMoves(size: nat)
    requires size >= 6
    ensures Leads(size, map[], MOVES[0], B, S1) && Leads(size, S1, MOVES[1], W, S2) && Leads(size, S2, MOVES[2], B, S3)
  {
    hide LegalWithoutKo, Play;
    QuietMove(size, map[], MOVES[0], B, map[MOVES[0] := Coord(2, 0)]);
    QuietMove(size, S1, MOVES[1], W, map[MOVES[1] := Coord(0, 2), MOVES[0] := Coord(2, 0)]);
    QuietMove(size, S2, MOVES[2], B, map[MOVES[2] := Coord(3, 1), MOVES[1] := Coord(0, 2)]);
  }

  lemma MoreMoves(size: nat)
    requires size >= 6
    ensures Leads(size, S3, MOVES[3], W, S4) && Leads(size, S4, MOVES[4], B, S5)
  {
    hide LegalWithoutKo, Play;
    QuietMove(size, S3, MOVES[3], W, map[MOVES[3] := Coord(1, 2), MOVES[0] := Coord(2, 0), MOVES[2] := Coord(3, 1)]);
    QuietMove(size, S4, MOVES[4], B, map[MOVES[4] := Coord(4, 0), MOVES[1] := Coord(0, 2), MOVES[3] := Coord(1, 2)]);
  }

  lemma SixthMove(size: nat)
    requires size >= 6
    ensures Leads(size, S5, MOVES[5], W, S6)
  {
    hide LegalWithoutKo, Play;
    QuietMove(size, S5, MOVES[5], W, map[MOVES[5] := Coord(5, 4), MOVES[0] := Coord(2, 0), MOVES[2] := Coord(3, 1),
                                         MOVES[4] := Coord(4, 0)]);
  }

  lemma SeventhMove(size: nat)
    requires size >= 6
    ensures Leads(size, S6, MOVES[6], B, S7)
  {
    hide Captured, Group, Liberties;
    NothingCaptured(size, S6, MOVES[6], B, map[MOVES[1] := Coord(0, 2), MOVES[3] := Coord(1, 2), MOVES[5] := Coord(5, 4)]);
    var own := Region(S7, B);
    StartInGroup(own, MOVES[6]);
    GroupIsClosed(own, MOVES[6]);
    assert Coord(1, 0) in Group(own, MOVES[6]);
    assert Coord(2, 0) in Liberties(size, S7, Group(own, MOVES[6]));
  }

  /** Sending a stone, losing it with its neighbour and taking the neighbour back restores the board. */
  lemma SentAndReturned(stones: Stones, sent: Coord, neighbour: Coord, taker: Coord, player: Player)
    requires sent !in stones && taker !in stones && sent != taker
    requires neighbour in stones && stones[neighbour] == player
    ensures (stones[sent := player][taker := Opponent(player)] - {sent, neighbour})[neighbour := player] - {taker} == stones
  {
  }

  lemma LastMoves(size: nat)
    requires size >= 6
    ensures Leads(size, S7, MOVES[7], W, S8)
    ensures Leads(size, S8, MOVES[8], B, S6)
  {
    hide Captured, Group, Liberties;
    WhiteTakesTwo(size);
    BlackTakesOne(size);
    NextToEmpty(size, S8, MOVES[7], Coord(1, 0));
    SentAndReturned(S6, MOVES[6], MOVES[0], MOVES[7], B);
    NextToEmpty(size, S6, MOVES[8], Coord(0, 0));
  }

  /** Moves that lead from board to board and back to the seventh make a line. */
  lemma LineOfLeads(size: nat, b: seq<Stones>, moves: seq<Coord>)
    requires |b| == |moves| == 9 && b[0] == map[]
    requires Leads(size, b[0], moves[0], B, b[1]) && Leads(size, b[1], moves[1], W, b[2])
    requires Leads(size, b[2], moves[2], B, b[3]) && Leads(size, b[3], moves[3], W, b[4])
    requires Leads(size, b[4], moves[4], B, b[5]) && Leads(size, b[5], moves[5], W, b[6])
    requires Leads(size, b[6], moves[6], B, b[7]) && Leads(size, b[7], moves[7], W, b[8])
    requires Leads(size, b[8], moves[8], B, b[6])
    ensures IsLine(size, LineOn(b), moves)
  {
    hide LegalWithoutKo, Play, Leads, After;
    var line := LineOn(b);
    forall i | 0 <= i < 9
      ensures LegalWithoutKo(size, line[i].stones, moves[i], line[i].toMove) && line[i + 1] == After(size, line[i], moves[i])
    {
      LeadsOn(size, line[i], moves[i], line[i + 1]);
    }
  }

  /** What Leads says of the boards, said of the situations. */
  lemma LeadsOn(size: nat, at: Situation, move: Coord, next: Situation)
    requires Leads(size, at.stones, move, at.toMove, next.stones) && next.toMove == Opponent(at.toMove)
    ensures LegalWithoutKo(size, at.stones, move, at.toMove) && next == After(size, at, move)
  {
    hide LegalWithoutKo, Play;
  }

  lemma TheLine(size: nat)
    requires size >= 6
    ensures IsLine(size, LINE, MOVES)
  {
    hide Leads, LineOn, IsLine;
    FirstMoves(size);
    MoreMoves(size);
    SixthMove(size);
    SeventhMove(size);
    LastMoves(size);
    LineOfLeads(size, BOARDS, MOVES);
  }

  lemma TwoEvents(keys: Keys, size: nat, t: Trace, first: GameEvent, second: GameEvent)
    requires t.state.active && Step(keys, size, t, first).state.active
    ensures Run(keys, size, t, [first, second]) == Step(keys, size, Step(keys, size, t, first), second)
  {
    hide Step;
    assert [first, second][1..] == [second];
    assert Run(keys, size, Step(keys, size, t, first), [second]) ==
           Run(keys, size, Step(keys, size, Step(keys, size, t, first), second), []);
  }

  /** The two passes that end a game can both be White's: White's first pass would bring back the situation
      after the sixth move and is dropped, and the second ends the game. It happens on every board of at
      least 6 by 6 and with every key table that does not collide on the situations of this game. */
  lemma OnePlayerCanPassTwice(keys: Keys, size: nat)
    requires size >= 6 && NoCollision(keys, size, LINE)
    ensures
      var played := GameOf(keys, size, Puts(LINE, MOVES));
      var t := GameOf(keys, size, Puts(LINE, MOVES) + [PassTurn(W), PassTurn(W)]);
      && played.history == LINE && played.state.active
      && !t.state.active && t.history == LINE
      && t.deltas == played.deltas + [PassDelta(10, W, false)]
  {
    hide HashOf, IsLine, StepPass, NoCollision, Run;
    TheLine(size);
    LineIsPlayed(keys, size, LINE, MOVES);
    var puts, pass := Puts(LINE, MOVES), PassTurn(W);
    var t := GameOf(keys, size, puts);
    TwoPassesEndTheGame(keys, size, puts, W);
    RunInBatches(keys, size, Start(), puts, [pass, pass]);
    EveryRunIsGood(keys, size, puts);
    assert LINE[6] in t.history;
    TwoEvents(keys, size, t, pass, pass);
    NoNewHistory(keys, t, W);
    NoNewHistory(keys, StepPass(keys, t, W), W);
  }

  lemma NoNewHistory(keys: Keys, t: Trace, player: Player)
    ensures StepPass(keys, t, player).deltas == t.deltas ==> StepPass(keys, t, player).history == t.history
    ensures !StepPass(keys, t, player).state.active && t.state.active ==> StepPass(keys, t, player).history == t.history
  {
  }

  // ----- Tables that do not collide on this game -----

  /** The keys of the stones placed by the first eight moves, and the toggle key. */
  ghost function KeysOfLine(keys: Keys): (k: seq<bv64>)
    ensures |k| == 9
  {
    [keys.stone(Coord(1, 0), B), keys.stone(Coord(0, 1), W), keys.stone(Coord(2, 1), B), keys.stone(Coord(1, 1), W),
     keys.stone(Coord(3, 0), B), keys.stone(Coord(5, 5), W), keys.stone(Coord(0, 0), B), keys.stone(Coord(2, 0), W),
     keys.toggle]
  }

  /** The hashes of the boards S1, ..., S8 from the keys of the stones, the empty board first. */
  ghost function BoardHashes(k: seq<bv64>): (h: seq<bv64>)
    requires |k| == 9
    ensures |h| == 9
  {
    var h1 := Xor(0, k[0]);
    var h2 := Xor(h1, k[1]);
    var h3 := Xor(h2, k[2]);
    var h4 := Xor(h3, k[3]);
    var h5 := Xor(h4, k[4]);
    var h6 := Xor(h5, k[5]);
    var h7 := Xor(h6, k[6]);
    var h8 := Xor(Xor(Xor(h7, k[7]), k[6]), k[0]);
    [0, h1, h2, h3, h4, h5, h6, h7, h8]
  }

  /** The hashes of the ten situations. */
  ghost function HashesOfLine(k: seq<bv64>): (hashes: seq<bv64>)
    requires |k| == 9
    ensures |hashes| == 10
  {
    var h := BoardHashes(k);
    [h[0], Xor(h[1], k[8]), h[2], Xor(h[3], k[8]), h[4], Xor(h[5], k[8]), h[6], Xor(h[7], k[8]), h[8], Xor(h[6], k[8])]
  }

  ghost function BoardHash(keys: Keys, size: nat, stones: Stones): bv64 {
    StonesHash(keys, stones, Scan(size, size))
  }

  lemma AddStone(keys: Keys, size: nat, stones: Stones, c: Coord, player: Player)
    requires InBounds(size, c) && c !in stones
    ensures BoardHash(keys, size, stones[c := player]) == Xor(BoardHash(keys, size, stones), keys.stone(c, player))
  {
    hide Xor, Scan, StonesHash;
    ScanHash(keys, size, stones, stones[c := player], c);
    XorLaws(BoardHash(keys, size, stones), 0, 0);
  }

  lemma RemoveStone(keys: Keys, size: nat, stones: Stones, c: Coord)
    requires InBounds(size, c) && c in stones
    ensures BoardHash(keys, size, stones - {c}) == Xor(BoardHash(keys, size, stones), keys.stone(c, stones[c]))
  {
    hide Xor, Scan, StonesHash;
    ScanHash(keys, size, stones, stones - {c}, c);
    XorLaws(Xor(BoardHash(keys, size, stones), keys.stone(c, stones[c])), 0, 0);
  }

  lemma EmptyHash(keys: Keys, size: nat)
    ensures BoardHash(keys, size, map[]) == 0
  {
    EmptyBoardHash(keys, Scan(size, size));
  }

  lemma HashToMove(keys: Keys, size: nat, stones: Stones)
    ensures HashOf(keys, size, Situation(stones, B)) == BoardHash(keys, size, stones)
    ensures HashOf(keys, size, Situation(stones, W)) == Xor(BoardHash(keys, size, stones), keys.toggle)
  {
    hide Xor, Scan, StonesHash;
    XorLaws(BoardHash(keys, size, stones), 0, 0);
  }

  ghost predicate HaveHashes(keys: Keys, size: nat, boards: seq<Stones>, hashes: seq<bv64>) {
    |boards| == |hashes| && forall i :: 0 <= i < |boards| ==> BoardHash(keys, size, boards[i]) == hashes[i]
  }

  /** White's eighth move takes two stones off. */
  lemma TakenHash(keys: Keys, size: nat)
    requires size >= 6
    ensures BoardHash(keys, size, S8) ==
            Xor(Xor(Xor(BoardHash(keys, size, S7), keys.stone(MOVES[7], W)), keys.stone(MOVES[6], B)), keys.stone(MOVES[0], B))
  {
    hide BoardHash, Xor;
    var taken := S7[MOVES[7] := W];
    AddStone(keys, size, S7, MOVES[7], W);
    RemoveStone(keys, size, taken, MOVES[6]);
    RemoveStone(keys, size, taken - {MOVES[6]}, MOVES[0]);
    assert taken - {MOVES[6]} - {MOVES[0]} == S8;
  }

  /** The boards differ by the stone of the move, the last one also by the two stones taken. */
  ghost predicate Chained(keys: Keys, size: nat, b: seq<Stones>, k: seq<bv64>)
    requires |b| == 9 && |k| == 9
  {
    && BoardHash(keys, size, b[0]) == 0
    && BoardHash(keys, size, b[1]) == Xor(BoardHash(keys, size, b[0]), k[0])
    && BoardHash(keys, size, b[2]) == Xor(BoardHash(keys, size, b[1]), k[1])
    && BoardHash(keys, size, b[3]) == Xor(BoardHash(keys, size, b[2]), k[2])
    && BoardHash(keys, size, b[4]) == Xor(BoardHash(keys, size, b[3]), k[3])
    && BoardHash(keys, size, b[5]) == Xor(BoardHash(keys, size, b[4]), k[4])
    && BoardHash(keys, size, b[6]) == Xor(BoardHash(keys, size, b[5]), k[5])
    && BoardHash(keys, size, b[7]) == Xor(BoardHash(keys, size, b[6]), k[6])
    && BoardHash(keys, size, b[8]) == Xor(Xor(Xor(BoardHash(keys, size, b[7]), k[7]), k[6]), k[0])
  }

  lemma BoardsAreChained(keys: Keys, size: nat)
    requires size >= 6
    ensures Chained(keys, size, BOARDS, KeysOfLine(keys))
  {
    hide BoardHash, Xor;
    EmptyHash(keys, size);
    AddStone(keys, size, map[], MOVES[0], B);
    AddStone(keys, size, S1, MOVES[1], W);
    AddStone(keys, size, S2, MOVES[2], B);
    AddStone(keys, size, S3, MOVES[3], W);
    AddStone(keys, size, S4, MOVES[4], B);
    AddStone(keys, size, S5, MOVES[5], W);
    AddStone(keys, size, S6, MOVES[6], B);
    TakenHash(keys, size);
  }

  lemma HashesOfBoards(keys: Keys, size: nat, b: seq<Stones>, k: seq<bv64>)
    requires |b| == 9 && |k| == 9 && Chained(keys, size, b, k)
    ensures HaveHashes(keys, size, b, BoardHashes(k))
  {
    hide BoardHash, Xor;
  }

  ghost predicate HasHash(keys: Keys, size: nat, at: Situation, hash: bv64) {
    HashOf(keys, size, at) == hash
  }

  /** The hashes of the situations from those of the boards. */
  lemma HashesToMove(keys: Keys, size: nat, b: seq<Stones>, k: seq<bv64>)
    requires |b| == 9 && |k| == 9 && k[8] == keys.toggle && HaveHashes(keys, size, b, BoardHashes(k))
    ensures
      var hashes := HashesOfLine(k);
      && HasHash(keys, size, Situation(b[0], B), hashes[0]) && HasHash(keys, size, Situation(b[1], W), hashes[1])
      && HasHash(keys, size, Situation(b[2], B), hashes[2]) && HasHash(keys, size, Situation(b[3], W), hashes[3])
      && HasHash(keys, size, Situation(b[4], B), hashes[4]) && HasHash(keys, size, Situation(b[5], W), hashes[5])
      && HasHash(keys, size, Situation(b[6], B), hashes[6]) && HasHash(keys, size, Situation(b[7], W), hashes[7])
      && HasHash(keys, size, Situation(b[8], B), hashes[8]) && HasHash(keys, size, Situation(b[6], W), hashes[9])
  {
    hide HashOf, BoardHash, BoardHashes, Xor;
    forall i | 0 <= i < 9
      ensures HashOf(keys, size, Situation(b[i], B)) == BoardHash(keys, size, b[i])
      ensures HashOf(keys, size, Situation(b[i], W)) == Xor(BoardHash(keys, size, b[i]), keys.toggle)
    {
      HashToMove(keys, size, b[i]);
    }
  }

  lemma SameCollisions(keys: Keys, size: nat, line: seq<Situation>, hashes: seq<bv64>)
    requires |line| == |hashes| == 10
    requires HasHash(keys, size, line[0], hashes[0]) && HasHash(keys, size, line[1], hashes[1])
    requires HasHash(keys, size, line[2], hashes[2]) && HasHash(keys, size, line[3], hashes[3])
    requires HasHash(keys, size, line[4], hashes[4]) && HasHash(keys, size, line[5], hashes[5])
    requires HasHash(keys, size, line[6], hashes[6]) && HasHash(keys, size, line[7], hashes[7])
    requires HasHash(keys, size, line[8], hashes[8]) && HasHash(keys, size, line[9], hashes[9])
    ensures NoCollision(keys, size, line) <==> NoDup(hashes)
  {
    hide HashOf;
    assert forall i :: 0 <= i < 10 ==> HasHash(keys, size, line[i], hashes[i]);
  }

  /** Whether a table collides on the game is a matter of nine of its keys, whatever the size of the board. */
  lemma NineKeysDecide(keys: Keys, size: nat)
    requires size >= 6
    ensures NoCollision(keys, size, LINE) <==> NoDup(HashesOfLine(KeysOfLine(keys)))
  {
    hide HaveHashes, NoCollision, HashesOfLine, HasHash, Chained;
    BoardsAreChained(keys, size);
    HashesOfBoards(keys, size, BOARDS, KeysOfLine(keys));
    HashesToMove(keys, size, BOARDS, KeysOfLine(keys));
    SameCollisions(keys, size, LINE, HashesOfLine(KeysOfLine(keys)));
  }

  /** The keys of these stones as the seeded generator draws them for a board of the given size. */
  function SeededKeys(size: nat): seq<bv64>
    requires size == 9 || size == 13 || size == 19
  {
    if size == 9 then
      [0xbc1279e1191562a4, 0x519bdc529bd66d02, 0x30952426ad1cfec0, 0xda4f671990ab4ff8, 0x2f2a5e076d8a371f,
       0x6eda2ba016de618f, 0x80f5e92f8b04f985, 0x1a9d1befb6aa05a0, 0x995638951e1198dd]
    else if size == 13 then
      [0xa64ae9094be3da65, 0x519bdc529bd66d02, 0x2f2a5e076d8a371f, 0x26bb7cb9d679235b, 0xd37dedcd02f588b0,
       0xb86d06ac769e24c4, 0x80f5e92f8b04f985, 0xbdaec736bb8026a4, 0x258e1fa8f0f73dd8]
    else
      [0x30952426ad1cfec0, 0x519bdc529bd66d02, 0xd37dedcd02f588b0, 0x519a3acd57766eea, 0xe4ae21f32bca1e10,
       0xa4bb717fb822d5f8, 0x80f5e92f8b04f985, 0xf6ceac6207a9845b, 0x0b68260d1cdd5df7]
  }

  lemma SeededKeysDiffer(size: nat)
    requires size == 9 || size == 13 || size == 19
    ensures NoDup(HashesOfLine(SeededKeys(size)))
  {
  }

  /** The seeded tables do not collide on the game, so on every board the program creates one player can
      make both passes. */
  lemma SeededTablesDoNotCollide(keys: Keys, size: nat)
    requires size == 9 || size == 13 || size == 19
    requires KeysOfLine(keys) == SeededKeys(size)
    ensures NoCollision(keys, size, LINE)
  {
    hide KeysOfLine, SeededKeys, HashesOfLine;
    NineKeysDecide(keys, size);
    SeededKeysDiffer(size);
  }
}
