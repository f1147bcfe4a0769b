/** The game object: fields updated event by event, proved against the state machine. */
module Games {
  import opened Model
  import opened Boards
  import opened Positions
  import opened Rules
  import opened Zobrist
  import opened MoveChecker
  import opened GameSpec
  import opened GameTheorems

  class Game {
    const keys: Keys
    const size: nat
    var gameActive: bool
    var consecutivePasses: nat
    var position: GamePosition
    var seenHashes: set<bv64>
    var emitted: seq<GameDelta>        // what the state listeners have received
    ghost var history: seq<Situation>  // every situation the game has been in

    ghost predicate Valid()
      reads this, position
    {
      position.Valid() && position.board.size == size
    }

    ghost function View(): Trace
      requires Valid()
      reads this, position, position.board.cells
    {
      Trace(GameState(position.Current(), position.hash, position.moveId, seenHashes, consecutivePasses, gameActive),
            history, emitted)
    }

    /** A new game is set up but not running: no event is handled before Run. */
    constructor (boardSize: nat, keys: Keys)
      ensures Valid() && size == boardSize && this.keys == keys
      ensures View() == Start().(state := Start().state.(active := false))
    {
      this.keys := keys;
      size := boardSize;
      gameActive, consecutivePasses := false, 0;
      position := new GamePosition(boardSize);
      seenHashes := {0};
      emitted, history := [], [FIRST_SITUATION];
    }

    /** The game loop over the events pushed so far. */
    method RunLoop(queue: seq<GameEvent>) returns (rest: seq<GameEvent>)
      requires Valid()
      modifies this
      ensures Valid() && View() == Run(keys, size, old(View()).(state := old(View()).state.(active := true)), queue)
      ensures |rest| <= |queue| && rest == queue[|queue| - |rest|..] && (rest != [] ==> !gameActive)
    {
      hide Step;
      gameActive := true;
      ghost var start := View();
      rest := queue;
      while rest != [] && gameActive
        invariant Valid() && |rest| <= |queue| && rest == queue[|queue| - |rest|..]
        invariant Run(keys, size, start, queue) == Run(keys, size, View(), rest)
        decreases |rest|
      {
        var event := rest[0];
        rest := rest[1..];
        HandleEvent(event);
      }
    }

    method HandleEvent(event: GameEvent)
      requires Valid()
      modifies this
      ensures Valid() && View() == Step(keys, size, old(View()), event)
    {
      match event
      case PutStone(player, c) => HandlePut(player, c);
      case PassTurn(player) => HandlePass(player);
      case Resign => HandleResign();
      case Shutdown => gameActive := false;
    }

    /** Moves to the next position, remembers its hash and tells the listeners. */
    method Adopt(next: GamePosition, delta: GameDelta)
      requires Valid() && next.Valid() && next.board.size == size && next.moveId == position.moveId + 1
      modifies this
      ensures Valid() && position == next && gameActive == old(gameActive) && consecutivePasses == old(consecutivePasses)
      ensures View() == Advance(old(View()), next.Current(), next.hash, consecutivePasses, delta)
    {
      hide GamePosition.Current;
      position := next;
      seenHashes := seenHashes + {position.hash};
      history := history + [position.Current()];
      emitted := emitted + [delta];
    }

    method HandlePut(player: Player, c: Coord)
      requires Valid()
      modifies this
      ensures Valid() && View() == StepPut(keys, size, old(View()), player, c)
    {
      hide LegalWithoutKo, HashAfterMove, CaptureList, Play, Board.Contents, Board.Valid;
      if player != position.currentPlayer {
        return;
      }
      var legal := IsNextPositionLegal(position, position.currentPlayer, c, keys, seenHashes);
      if legal.Some? {
        var (next, captures) := legal.value;
        consecutivePasses := 0;
        Adopt(next, GameDelta(next.moveId, Place, player, Some(c), captures, next.currentPlayer, gameActive));
      }
    }

    method HandlePass(player: Player)
      requires Valid()
      modifies this
      ensures Valid() && View() == StepPass(keys, old(View()), player)
    {
      hide Xor, HashOf, Fits, Board.Contents, Board.Valid, GamePosition.HashError, GamePosition.Current;
      if player != position.currentPlayer {
        return;
      }
      consecutivePasses := consecutivePasses + 1;
      if consecutivePasses == 2 {
        gameActive := false;
        emitted := emitted + [GameDelta(position.moveId + 1, Pass, player, None, [], Opponent(player), gameActive)];
        return;
      }
      var next := new GamePosition.Copy(position);
      next.Pass(keys);
      if next.hash in seenHashes {
        return;
      }
      Adopt(next, GameDelta(next.moveId, Pass, player, None, [], next.currentPlayer, gameActive));
    }

    method HandleResign()
      requires Valid()
      modifies this
      ensures Valid() && View() == StepResign(old(View()))
      ensures !gameActive && position == old(position) && seenHashes == old(seenHashes) && history == old(history)
      ensures emitted == old(emitted) + [GameDelta(position.moveId + 1, Resigned, position.currentPlayer, None, [],
                                                   Opponent(position.currentPlayer), false)]
    {
      gameActive := false;
      emitted := emitted + [GameDelta(position.moveId + 1, Resigned, position.currentPlayer, None, [],
                                      Opponent(position.currentPlayer), gameActive)];
    }
  }

  /** A game run from its start ends in a good state of the machine, whatever is pushed. */
  method PlayGame(boardSize: nat, keys: Keys, queue: seq<GameEvent>) returns (game: Game)
    ensures game.Valid() && game.View() == GameOf(keys, boardSize, queue)
    ensures Good(keys, boardSize, game.View())
  {
    hide Good, Step;
    game := new Game(boardSize, keys);
    assert game.View().(state := game.View().state.(active := true)) == Start();
    var rest := game.RunLoop(queue);
    EveryRunIsGood(keys, boardSize, queue);
  }
}
