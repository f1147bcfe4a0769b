/** What a reader of the rules expects of every game, stated for every run of events from the empty
    board, every board size and every table of hash keys. */
module GameTheorems {
  import opened Model
  import opened Topology
  import opened Rules
  import opened Scans
  import opened Zobrist
  import opened MoveChecker
  import opened GameSpec

  lemma EveryRunIsGood(keys: Keys, size: nat, events: seq<GameEvent>)
    ensures Good(keys, size, GameOf(keys, size, events))
  {
    hide Good, Run;
    StartIsGood(keys, size);
    RunIsGood(keys, size, Start(), events);
  }

  /** No situation of any game has a group, of either colour, without a liberty. */
  lemma EveryGroupHasALiberty(keys: Keys, size: nat, events: seq<GameEvent>, at: Situation, c: Coord)
    requires at in GameOf(keys, size, events).history && c in at.stones
    ensures InBounds(size, c) && HasLiberty(size, at.stones, c)
  {
    hide HashOf, HasLiberty, Run;
    EveryRunIsGood(keys, size, events);
  }

  /** In every game a put lists as captures exactly the enemy stones, anywhere on the board, that have
      no liberty once the stone is placed. */
  lemma EveryCaptureIsGlobal(keys: Keys, size: nat, events: seq<GameEvent>, c: Coord, d: Coord)
    requires c !in GameOf(keys, size, events).state.at.stones
    ensures
      var at := GameOf(keys, size, events).state.at;
      d in CaptureList(size, at.stones, c, at.toMove) <==>
        && d in at.stones && at.stones[d] == Opponent(at.toMove)
        && !HasLiberty(size, at.stones[c := at.toMove], d)
  {
    hide HashOf, Run, Captured, GoodHistory, GoodStream, HasLiberty;
    EveryRunIsGood(keys, size, events);
    var at := GameOf(keys, size, events).state.at;
    LocalCaptureIsGlobal(size, at.stones, c, at.toMove);
  }

  /** The hash kept move by move is always the hash of the board computed from scratch. */
  lemma HashIsAlwaysExact(keys: Keys, size: nat, events: seq<GameEvent>)
    ensures GameOf(keys, size, events).state.hash == HashOf(keys, size, GameOf(keys, size, events).state.at)
  {
    hide HashOf, AllAlive, Run;
    EveryRunIsGood(keys, size, events);
  }

  /** Situational superko: no game is ever twice in the same situation. No assumption about
      collisions is needed, since equal situations have equal hashes. */
  lemma NoSituationRepeats(keys: Keys, size: nat, events: seq<GameEvent>)
    ensures NoDup(GameOf(keys, size, events).history)
  {
    hide HashOf, AllAlive, Fits, Run;
    EveryRunIsGood(keys, size, events);
    var t := GameOf(keys, size, events);
    forall i, j | 0 <= i < j < |t.history| ensures t.history[i] != t.history[j] {
      assert HashOf(keys, size, t.history[i]) != HashOf(keys, size, t.history[j]);
    }
  }

  /** The delta stream of every game counts 1, 2, 3, ... without a gap, alternates the players
      starting with Black, links each situation to the next, and only its last delta can end the game. */
  lemma StreamOfEveryRun(keys: Keys, size: nat, events: seq<GameEvent>)
    ensures
      var t := GameOf(keys, size, events);
      && |t.history| == t.state.moveId + 1
      && t.history[0] == FIRST_SITUATION && t.history[t.state.moveId] == t.state.at
      && t.state.moveId <= |t.deltas| <= t.state.moveId + 1
      && (t.state.active ==> |t.deltas| == t.state.moveId)
      && Numbered(t)
      && Linked(size, t)
      && (|t.deltas| == t.state.moveId + 1 ==> Ending(t.deltas[t.state.moveId]))
  {
    hide HashOf, AllAlive, Fits, Run, Numbered, Link, Ending;
    EveryRunIsGood(keys, size, events);
  }

  // ----- Legality -----

  /** A put changes the game exactly when it comes from the player to move, falls on a free point of
      the board, is no suicide and its situation has a hash not seen in the game. */
  lemma PutVerdict(keys: Keys, size: nat, events: seq<GameEvent>, player: Player, c: Coord)
    ensures
      var t := GameOf(keys, size, events);
      var next := StepPut(keys, size, t, player, c);
      && (next != t <==>
            && player == t.state.at.toMove
            && LegalWithoutKo(size, t.state.at.stones, c, player)
            && forall i :: 0 <= i < |t.history| ==>
                 HashOf(keys, size, t.history[i]) != HashOf(keys, size, After(size, t.state.at, c)))
      && (next != t ==>
            && next.state.at == After(size, t.state.at, c) && next.state.passes == 0
            && next.history == t.history + [next.state.at]
            && |next.deltas| == |t.deltas| + 1)
  {
    hide HashOf, AllAlive, Fits, Run, HashAfterMove, GoodStream, LegalWithoutKo, After, CaptureList;
    EveryRunIsGood(keys, size, events);
    var t := GameOf(keys, size, events);
    if LegalWithoutKo(size, t.state.at.stones, c, player) && player == t.state.at.toMove {
      LegalIsFree(size, t.state.at.stones, c, player);
      PutHash(keys, size, t.state, c);
    }
  }

  lemma LegalIsFree(size: nat, stones: Stones, c: Coord, player: Player)
    requires LegalWithoutKo(size, stones, c, player)
    ensures InBounds(size, c) && c !in stones
  {
  }

  /** Two different situations of a game never share a hash. */
  lemma SeenSituationsDoNotCollide(keys: Keys, size: nat, events: seq<GameEvent>, a: Situation)
    requires a in GameOf(keys, size, events).history
    ensures forall b :: b in GameOf(keys, size, events).history && b != a ==> HashOf(keys, size, b) != HashOf(keys, size, a)
  {
    hide HashOf, Sound, GoodStream, GoodPosition, Run;
    EveryRunIsGood(keys, size, events);
    var history := GameOf(keys, size, events).history;
    var i :| 0 <= i < |history| && history[i] == a;
    forall b | b in history && b != a ensures HashOf(keys, size, b) != HashOf(keys, size, a) {
      var j :| 0 <= j < |history| && history[j] == b;
      assert HashOf(keys, size, history[i]) != HashOf(keys, size, history[j]);
    }
  }

  /** No different situation of the game shares the hash of the one the put leads to. */
  ghost predicate NoCollisionAfter(keys: Keys, size: nat, t: Trace, c: Coord) {
    var after := After(size, t.state.at, c);
    forall at :: at in t.history && at != after ==> HashOf(keys, size, at) != HashOf(keys, size, after)
  }

  /** A put is judged as the rules of situational superko judge it: accepted exactly when it is the mover's,
      legal, and leads to a situation the game has not been in; otherwise nothing changes. */
  ghost predicate JudgedByTheRules(keys: Keys, size: nat, t: Trace, player: Player, c: Coord) {
    var next := StepPut(keys, size, t, player, c);
    var after := After(size, t.state.at, c);
    if player == t.state.at.toMove && LegalWithoutKo(size, t.state.at.stones, c, player) && after !in t.history
    then next.state.at == after && next.history == t.history + [after] && |next.deltas| == |t.deltas| + 1
    else next == t
  }

  /** In every game, any put by any player on any point is judged by the rules if and only if, when it is the
      mover's and legal, no different situation of the game shares the hash it leads to. */
  lemma LegalityIsExactWithoutCollision(keys: Keys, size: nat, events: seq<GameEvent>, player: Player, c: Coord)
    ensures
      var t := GameOf(keys, size, events);
      var playable := player == t.state.at.toMove && LegalWithoutKo(size, t.state.at.stones, c, player);
      JudgedByTheRules(keys, size, t, player, c) <==> (playable ==> NoCollisionAfter(keys, size, t, c))
  {
    hide HashOf, Run, StepPut, After, LegalWithoutKo;
    PutVerdict(keys, size, events, player, c);
    var t := GameOf(keys, size, events);
    var after := After(size, t.state.at, c);
    if player == t.state.at.toMove && LegalWithoutKo(size, t.state.at.stones, c, player) {
      if after in t.history {
        SeenSituationsDoNotCollide(keys, size, events, after);
        var i :| 0 <= i < |t.history| && t.history[i] == after;
      } else if at :| at in t.history && at != after && HashOf(keys, size, at) == HashOf(keys, size, after) {
        var i :| 0 <= i < |t.history| && t.history[i] == at;
      }
    }
  }

  // ----- The end of a game -----

  /** Handling events in two batches is handling them in one. */
  lemma {:induction false} RunInBatches(keys: Keys, size: nat, t: Trace, events: seq<GameEvent>, more: seq<GameEvent>)
    ensures Run(keys, size, t, events + more) == Run(keys, size, Run(keys, size, t, events), more)
    decreases |events|
  {
    hide Step;
    if events == [] {
      assert events + more == more;
    } else if t.state.active {
      assert (events + more)[1..] == events[1..] + more;
      RunInBatches(keys, size, Step(keys, size, t, events[0]), events[1..], more);
    }
  }

  /** While a game is active, the loop handles the next event by one step. */
  lemma OneMoreEvent(keys: Keys, size: nat, events: seq<GameEvent>, event: GameEvent)
    requires GameOf(keys, size, events).state.active
    ensures GameOf(keys, size, events + [event]) == Step(keys, size, GameOf(keys, size, events), event)
  {
    hide Step;
    RunInBatches(keys, size, Start(), events, [event]);
    var t := GameOf(keys, size, events);
    assert Run(keys, size, t, [event]) == Run(keys, size, Step(keys, size, t, event), []);
  }

  /** The game has ended, in the situation it was in, and has sent the given deltas last. */
  ghost predicate EndsWith(t: Trace, ended: Trace, last: seq<GameDelta>) {
    && !ended.state.active
    && ended.state.at == t.state.at && ended.state.moveId == t.state.moveId
    && ended.history == t.history
    && ended.deltas == t.deltas + last
  }

  /** A resignation ends every game at once, under the name of the player to move. */
  lemma ResigningEndsTheGame(keys: Keys, size: nat, events: seq<GameEvent>)
    requires GameOf(keys, size, events).state.active
    ensures
      var t := GameOf(keys, size, events);
      var toMove := t.state.at.toMove;
      EndsWith(t, GameOf(keys, size, events + [Resign]),
               [GameDelta(|t.history|, Resigned, toMove, None, [], Opponent(toMove), false)])
  {
    hide Run, HashOf, AllAlive, Fits;
    EveryRunIsGood(keys, size, events);
    OneMoreEvent(keys, size, events, Resign);
  }

  /** A shutdown ends every game at once and says nothing. */
  lemma ShutdownEndsTheGame(keys: Keys, size: nat, events: seq<GameEvent>)
    requires GameOf(keys, size, events).state.active
    ensures EndsWith(GameOf(keys, size, events), GameOf(keys, size, events + [Shutdown]), [])
  {
    hide Run;
    OneMoreEvent(keys, size, events, Shutdown);
  }

  /** Once a game has ended nothing is played, remembered or sent, whatever is pushed. A game that ends
      without an ending delta was shut down; the ending delta says whether it was a pass or a resignation. */
  lemma NothingHappensAfterTheEnd(keys: Keys, size: nat, events: seq<GameEvent>, event: GameEvent, more: seq<GameEvent>)
    requires GameOf(keys, size, events).state.active && !GameOf(keys, size, events + [event]).state.active
    ensures
      var ended := GameOf(keys, size, events + [event]);
      && GameOf(keys, size, events + [event] + more) == ended
      && ended.history == GameOf(keys, size, events).history
      && (|ended.deltas| == ended.state.moveId <==> event == Shutdown)
      && (|ended.deltas| > 0 && event != Shutdown ==>
            ended.deltas[|ended.deltas| - 1].action == if event == Resign then Resigned else Pass)
  {
    hide HashOf, AllAlive, Fits, Accepts, After, HashAfterMove, CaptureList;
    EveryRunIsGood(keys, size, events);
    EveryRunIsGood(keys, size, events + [event]);
    RunInBatches(keys, size, Start(), events, [event]);
    RunInBatches(keys, size, Start(), events + [event], more);
    var t := GameOf(keys, size, events);
    assert Run(keys, size, t, [event]) == Run(keys, size, Step(keys, size, t, event), []);
    match event
    case PutStone(player, c) =>
    case PassTurn(player) =>
    case Resign =>
    case Shutdown =>
  }

  // ----- Passes -----

  /** A pass out of turn changes nothing. A pass by the player to move ends the game when one was taken since
      the last stone. Otherwise it counts as taken, and the other player is to move unless the game has been
      in that situation, by its hash, before. */
  lemma PassVerdict(keys: Keys, size: nat, events: seq<GameEvent>, player: Player)
    requires GameOf(keys, size, events).state.active
    ensures
      var t := GameOf(keys, size, events);
      var next := GameOf(keys, size, events + [PassTurn(player)]);
      var at := Situation(t.state.at.stones, Opponent(player));
      if player != t.state.at.toMove then next == t
      else if t.state.passes > 0 then EndsWith(t, next, [PassDelta(|t.history|, player, false)])
      else
        && next.state.active && next.state.passes == 1
        && if exists seen :: seen in t.history && HashOf(keys, size, seen) == HashOf(keys, size, at)
           then next.state.at == t.state.at && next.history == t.history && next.deltas == t.deltas
           else next.state.at == at && next.history == t.history + [at]
                && next.deltas == t.deltas + [PassDelta(|t.history|, player, true)]
  {
    hide HashOf, AllAlive, Fits, Run, Xor, GoodStream;
    EveryRunIsGood(keys, size, events);
    OneMoreEvent(keys, size, events, PassTurn(player));
    var t := GameOf(keys, size, events);
    HashOfPass(keys, size, t.state.at.stones, t.state.at.toMove);
  }

  /** After a first pass by the player to move, the next pass the loop takes ends the game. It is the
      other player's, except when superko dropped the first one: then it is the same player's. */
  lemma TwoPassesEndTheGame(keys: Keys, size: nat, events: seq<GameEvent>, second: Player)
    requires GameOf(keys, size, events).state.active && GameOf(keys, size, events).state.passes == 0
    ensures
      var t := GameOf(keys, size, events);
      var first := t.state.at.toMove;
      var passed := StepPass(keys, t, first);
      var ended := StepPass(keys, passed, second);
      var passes := Situation(t.state.at.stones, Opponent(first));
      var dropped := exists at :: at in t.history && HashOf(keys, size, at) == HashOf(keys, size, passes);
      && passed.state.active
      && (ended.state.active <==> second == (if dropped then Opponent(first) else first))
      && (!ended.state.active ==>
            ended.deltas == passed.deltas + [PassDelta(t.state.moveId + (if dropped then 1 else 2), second, false)])
      && (dropped <==> passed.deltas == t.deltas)
  {
    hide HashOf, AllAlive, Fits, Run, Xor, GoodStream;
    EveryRunIsGood(keys, size, events);
    var t := GameOf(keys, size, events);
    HashOfPass(keys, size, t.state.at.stones, t.state.at.toMove);
  }

  // ----- Playing a given line of moves -----

  /** A line of moves: each is legal and leads from one situation to the next, from the empty board. */
  ghost predicate IsLine(size: nat, line: seq<Situation>, moves: seq<Coord>) {
    && |line| == |moves| + 1
    && line[0] == FIRST_SITUATION
    && forall i :: 0 <= i < |moves| ==>
         && LegalWithoutKo(size, line[i].stones, moves[i], line[i].toMove)
         && line[i + 1] == After(size, line[i], moves[i])
  }

  ghost predicate NoCollision(keys: Keys, size: nat, line: seq<Situation>) {
    forall i, j :: 0 <= i < j < |line| ==> HashOf(keys, size, line[i]) != HashOf(keys, size, line[j])
  }

  /** The puts of a line, each by the player to move. */
  ghost function Puts(line: seq<Situation>, moves: seq<Coord>): (events: seq<GameEvent>)
    requires |line| == |moves| + 1
    ensures |events| == |moves|
  {
    seq(|moves|, i requires 0 <= i < |moves| => PutStone(line[i].toMove, moves[i]))
  }

  /** A line whose situations do not collide is played as it stands. */
  lemma {:induction false} LineIsPlayed(keys: Keys, size: nat, line: seq<Situation>, moves: seq<Coord>)
    requires IsLine(size, line, moves) && NoCollision(keys, size, line)
    ensures
      var t := GameOf(keys, size, Puts(line, moves));
      t.history == line && t.state.active && t.state.passes == 0 && |t.deltas| == |moves|
  {
    hide HashOf, LegalWithoutKo, After, StepPut, GoodPosition;
    var t := GameOf(keys, size, Puts(line, moves));
    if moves == [] {
      assert line == [FIRST_SITUATION];
    } else {
      var before, init, c := line[..|line| - 1], moves[..|moves| - 1], moves[|moves| - 1];
      LineIsPlayed(keys, size, before, init);
      var earlier := GameOf(keys, size, Puts(before, init));
      var put := PutStone(line[|moves| - 1].toMove, c);
      assert Puts(line, moves) == Puts(before, init) + [put];
      RunInBatches(keys, size, Start(), Puts(before, init), [put]);
      assert t == Run(keys, size, Step(keys, size, earlier, put), []);
      EveryRunIsGood(keys, size, Puts(before, init));
      PutVerdict(keys, size, Puts(before, init), put.player, c);
      assert earlier.state.at == line[|moves| - 1];
      assert forall i :: 0 <= i < |moves| ==> earlier.history[i] == line[i];
      PutGoesOn(keys, size, earlier, put.player, c);
      assert line == before + [line[|moves|]];
    }
  }

  lemma PutGoesOn(keys: Keys, size: nat, t: Trace, player: Player, c: Coord)
    ensures StepPut(keys, size, t, player, c).state.active == t.state.active
  {
  }

  // ----- Conservation -----

  lemma {:induction false} ListLength(cells: seq<Coord>)
    requires NoDup(cells)
    ensures |Elems(cells)| == |cells|
  {
    if cells == [] {
    } else {
      var init := cells[..|cells| - 1];
      assert cells == init + [cells[|cells| - 1]];
      ListLength(init);
      assert Elems(cells) == Elems(init) + {cells[|cells| - 1]};
    }
  }

  /** Every legal put: the mover gains one stone, the enemy loses exactly the listed captures, each
      listed once in scan order, and no other point changes. */
  lemma StonesAreConserved(size: nat, stones: Stones, c: Coord, player: Player)
    requires Fits(size, stones) && LegalWithoutKo(size, stones, c, player)
    ensures
      var next := Play(size, stones, c, player);
      var captures := CaptureList(size, stones, c, player);
      && |Region(next, player)| == |Region(stones, player)| + 1
      && |Region(next, Opponent(player))| + |captures| == |Region(stones, Opponent(player))|
      && Sorted(captures)
      && (forall d :: d in captures ==> d in stones && stones[d] == Opponent(player) && d !in next)
      && (forall d :: d != c && d !in captures ==> (d in next <==> d in stones) && (d in stones ==> next[d] == stones[d]))
  {
    hide Captured, Suicide;
    var captures := CaptureList(size, stones, c, player);
    var enemies := Region(stones, Opponent(player));
    CapturedIsWhole(size, stones, c, player);
    RegionsAfterPlay(size, stones, c, player);
    SortedHasNoDup(captures);
    ListLength(captures);
    assert Elems(captures) == Captured(size, stones, c, player);
    assert Captured(size, stones, c, player) <= enemies;
  }

  // ----- Every game is bounded -----

  ghost function Power(base: nat, exponent: nat): nat {
    if exponent == 0 then 1 else base * Power(base, exponent - 1)
  }

  /** Every way to put stones on the given points. */
  ghost function BoardsOn(cells: seq<Coord>): set<Stones> {
    if cells == [] then {map[]} else
      var fewer, last := BoardsOn(cells[..|cells| - 1]), cells[|cells| - 1];
      fewer + (set b | b in fewer :: Put(b, last, Player.Black)) + (set b | b in fewer :: Put(b, last, Player.White))
  }

  ghost function Put(stones: Stones, c: Coord, player: Player): Stones {
    stones[c := player]
  }

  lemma {:induction false} ImageIsNoLarger<A, B>(domain: set<A>, f: A -> B, image: set<B>)
    requires image == set a | a in domain :: f(a)
    ensures |image| <= |domain|
    decreases |domain|
  {
    if domain == {} {
    } else {
      var a :| a in domain;
      var fewer := domain - {a};
      var smaller := set b | b in fewer :: f(b);
      ImageIsNoLarger(fewer, f, smaller);
      assert image == smaller + {f(a)};
    }
  }

  lemma {:induction false} CountBoards(cells: seq<Coord>)
    ensures |BoardsOn(cells)| <= Power(3, |cells|)
  {
    if cells == [] {
    } else {
      var fewer, last := BoardsOn(cells[..|cells| - 1]), cells[|cells| - 1];
      CountBoards(cells[..|cells| - 1]);
      var black := set b | b in fewer :: Put(b, last, Player.Black);
      var white := set b | b in fewer :: Put(b, last, Player.White);
      ImageIsNoLarger(fewer, b => Put(b, last, Player.Black), black);
      ImageIsNoLarger(fewer, b => Put(b, last, Player.White), white);
      assert |BoardsOn(cells)| <= |fewer| + |black| + |white|;
    }
  }

  lemma {:induction false} EveryBoardIsListed(cells: seq<Coord>, stones: Stones)
    requires NoDup(cells) && forall c :: c in stones ==> c in cells
    ensures stones in BoardsOn(cells)
  {
    if cells == [] {
      assert stones == map[];
    } else {
      var init, last := cells[..|cells| - 1], cells[|cells| - 1];
      assert cells == init + [last];
      EveryBoardIsListed(init, stones - {last});
      var fewer := BoardsOn(init);
      if last !in stones {
        assert stones == stones - {last};
      } else if stones[last] == Player.Black {
        assert stones == Put(stones - {last}, last, Player.Black);
        assert stones in set b | b in fewer :: Put(b, last, Player.Black);
      } else {
        assert stones == Put(stones - {last}, last, Player.White);
        assert stones in set b | b in fewer :: Put(b, last, Player.White);
      }
    }
  }

  /** No game is longer than the number of situations: at most 2 * 3^(size * size) of them. */
  lemma EveryGameIsBounded(keys: Keys, size: nat, events: seq<GameEvent>)
    ensures
      var s := GameOf(keys, size, events).state;
      && |s.seen| == s.moveId + 1
      && s.moveId + 1 <= 2 * Power(3, size * size)
  {
    hide HashOf, AllAlive, Run, BoardsOn, Scan, GoodStream, Power;
    EveryRunIsGood(keys, size, events);
    var t := GameOf(keys, size, events);
    var cells := Scan(size, size);
    ScanLength(size, size);
    SortedHasNoDup(cells);
    CountBoards(cells);
    var black := set b | b in BoardsOn(cells) :: HashOf(keys, size, Situation(b, Player.Black));
    var white := set b | b in BoardsOn(cells) :: HashOf(keys, size, Situation(b, Player.White));
    ImageIsNoLarger(BoardsOn(cells), b => HashOf(keys, size, Situation(b, Player.Black)), black);
    ImageIsNoLarger(BoardsOn(cells), b => HashOf(keys, size, Situation(b, Player.White)), white);
    forall h | h in t.state.seen ensures h in black + white {
      var i :| 0 <= i < |t.history| && h == HashOf(keys, size, t.history[i]);
      var at := t.history[i];
      EveryBoardIsListed(cells, at.stones);
      if at.toMove == Player.Black {
        assert at == Situation(at.stones, Player.Black);
      } else {
        assert at == Situation(at.stones, Player.White);
      }
    }
    SubsetIsNoLarger(t.state.seen, black + white);
  }
}
