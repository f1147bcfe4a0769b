/** One game as a state machine over its events, on values, and what holds in every run. */
module GameSpec {
  import opened Model
  import opened Topology
  import opened Rules
  import opened Scans
  import opened Zobrist
  import opened MoveChecker

  datatype GameEvent = PutStone(player: Player, c: Coord) | PassTurn(player: Player) | Resign | Shutdown

  datatype GameAction = Place | Pass | Resigned

  datatype GameDelta = GameDelta(moveId: nat, action: GameAction, player: Player, coord: Option<Coord>,
                                 captures: seq<Coord>, nextPlayer: Player, gameActive: bool)

  datatype GameState = GameState(at: Situation, hash: bv64, moveId: nat, seen: set<bv64>, passes: nat, active: bool)

  /** A game so far: its state, every situation it has been in, and every delta it has sent. */
  datatype Trace = Trace(state: GameState, history: seq<Situation>, deltas: seq<GameDelta>)

  const FIRST_SITUATION := Situation(map[], Player.Black)

  ghost function Start(): Trace {
    Trace(GameState(FIRST_SITUATION, 0, 0, {0}, 0, true), [FIRST_SITUATION], [])
  }

  ghost function PassDelta(moveId: nat, player: Player, active: bool): GameDelta {
    GameDelta(moveId, Pass, player, None, [], Opponent(player), active)
  }

  /** The situation a put leads to. */
  ghost function After(size: nat, at: Situation, c: Coord): Situation {
    Situation(Play(size, at.stones, c, at.toMove), Opponent(at.toMove))
  }

  ghost predicate Accepts(keys: Keys, size: nat, s: GameState, player: Player, c: Coord) {
    && player == s.at.toMove
    && LegalWithoutKo(size, s.at.stones, c, player)
    && HashAfterMove(keys, s.hash, c, player, CaptureList(size, s.at.stones, c, player)) !in s.seen
  }

  ghost function Advance(t: Trace, at: Situation, hash: bv64, passes: nat, delta: GameDelta): Trace {
    Trace(GameState(at, hash, t.state.moveId + 1, t.state.seen + {hash}, passes, t.state.active),
          t.history + [at], t.deltas + [delta])
  }

  ghost function StepPut(keys: Keys, size: nat, t: Trace, player: Player, c: Coord): Trace {
    var s := t.state;
    if Accepts(keys, size, s, player, c) then
      var captures := CaptureList(size, s.at.stones, c, player);
      Advance(t, After(size, s.at, c), HashAfterMove(keys, s.hash, c, player, captures), 0,
              GameDelta(s.moveId + 1, Place, player, Some(c), captures, Opponent(player), s.active))
    else t
  }

  ghost function StepPass(keys: Keys, t: Trace, player: Player): Trace {
    var s := t.state;
    var next := Situation(s.at.stones, Opponent(player));
    if player != s.at.toMove then t
    else if s.passes + 1 == 2 then
      t.(state := s.(passes := 2, active := false), deltas := t.deltas + [PassDelta(s.moveId + 1, player, false)])
    else if Xor(s.hash, keys.toggle) in s.seen then t.(state := s.(passes := s.passes + 1))
    else Advance(t, next, Xor(s.hash, keys.toggle), s.passes + 1, PassDelta(s.moveId + 1, player, s.active))
  }

  ghost function StepResign(t: Trace): Trace {
    var s := t.state;
    var delta := GameDelta(s.moveId + 1, Resigned, s.at.toMove, None, [], Opponent(s.at.toMove), false);
    t.(state := s.(active := false), deltas := t.deltas + [delta])
  }

  ghost function Step(keys: Keys, size: nat, t: Trace, event: GameEvent): Trace {
    match event
    case PutStone(player, c) => StepPut(keys, size, t, player, c)
    case PassTurn(player) => StepPass(keys, t, player)
    case Resign => StepResign(t)
    case Shutdown => t.(state := t.state.(active := false))
  }

  /** The loop: events are handled while the game is active and left in the queue afterwards. */
  ghost function Run(keys: Keys, size: nat, t: Trace, events: seq<GameEvent>): Trace
    decreases |events|
  {
    if events == [] || !t.state.active then t else Run(keys, size, Step(keys, size, t, events[0]), events[1..])
  }

  /** The game played by a sequence of events from the empty board. */
  ghost function GameOf(keys: Keys, size: nat, events: seq<GameEvent>): Trace {
    Run(keys, size, Start(), events)
  }

  // ----- What every run keeps -----

  /** Move i of the history: how one situation became the next and what was sent about it. */
  ghost predicate Link(size: nat, before: Situation, delta: GameDelta, after: Situation) {
    && delta.player == before.toMove
    && match delta.action
       case Place =>
         && delta.coord.Some?
         && LegalWithoutKo(size, before.stones, delta.coord.value, before.toMove)
         && delta.captures == CaptureList(size, before.stones, delta.coord.value, before.toMove)
         && after == After(size, before, delta.coord.value)
       case Pass =>
         delta.coord == None && delta.captures == [] && after == Situation(before.stones, Opponent(before.toMove))
       case Resigned => false
  }

  /** A board a game may show: its stones are on the board and every group has a liberty. */
  ghost predicate Sound(size: nat, stones: Stones) {
    Fits(size, stones) && AllAlive(size, stones)
  }

  ghost function Hashes(keys: Keys, size: nat, history: seq<Situation>): set<bv64> {
    set i | 0 <= i < |history| :: HashOf(keys, size, history[i])
  }

  lemma HashesStep(keys: Keys, size: nat, history: seq<Situation>, at: Situation)
    ensures Hashes(keys, size, history + [at]) == Hashes(keys, size, history) + {HashOf(keys, size, at)}
  {
    hide HashOf;
    var longer := history + [at];
    assert longer[|history|] == at;
    forall h | h in Hashes(keys, size, history) ensures h in Hashes(keys, size, longer) {
      var i :| 0 <= i < |history| && h == HashOf(keys, size, history[i]);
      assert longer[i] == history[i];
    }
  }

  ghost predicate GoodPosition(keys: Keys, size: nat, s: GameState) {
    && Sound(size, s.at.stones)
    && s.hash == HashOf(keys, size, s.at)
    && s.passes <= 2 && (s.active ==> s.passes < 2)
  }

  ghost predicate GoodHistory(keys: Keys, size: nat, t: Trace) {
    && |t.history| == t.state.moveId + 1
    && t.history[0] == FIRST_SITUATION
    && t.history[t.state.moveId] == t.state.at
    && (forall i :: 0 <= i < |t.history| ==> Sound(size, t.history[i].stones))
    && t.state.seen == Hashes(keys, size, t.history)
    && (forall i, j :: 0 <= i < j < |t.history| ==> HashOf(keys, size, t.history[i]) != HashOf(keys, size, t.history[j]))
    && |t.state.seen| == |t.history|
  }

  /** Delta i is linked to the move from situation i to situation i + 1. */
  ghost predicate Linked(size: nat, t: Trace) {
    && |t.deltas| >= t.state.moveId && |t.history| == t.state.moveId + 1
    && forall i :: 0 <= i < t.state.moveId ==> Link(size, t.history[i], t.deltas[i], t.history[i + 1])
  }

  /** Ids count 1, 2, 3, ...; Black has the odd ones; the next player is always the opponent; a delta
      says the game goes on exactly when a move of the history stands behind it. */
  ghost predicate Numbered(t: Trace) {
    forall i :: 0 <= i < |t.deltas| ==>
      var d := t.deltas[i];
      && d.moveId == i + 1
      && (d.player == Player.Black <==> d.moveId % 2 == 1)
      && d.nextPlayer == Opponent(d.player)
      && d.gameActive == (i < t.state.moveId)
  }

  /** The stream has one delta for every move of the history, and at most one more that ends the game. */
  ghost predicate GoodStream(size: nat, t: Trace) {
    && Linked(size, t)
    && Numbered(t)
    && (t.state.active ==> |t.deltas| == t.state.moveId)
    && |t.deltas| <= t.state.moveId + 1
    && (|t.deltas| == t.state.moveId + 1 ==> Ending(t.deltas[t.state.moveId]))
    && (t.state.at.toMove == Player.Black <==> t.state.moveId % 2 == 0)
  }

  ghost predicate Ending(d: GameDelta) {
    d.action != Place && d.coord == None && d.captures == [] && !d.gameActive
  }

  ghost predicate Good(keys: Keys, size: nat, t: Trace) {
    GoodPosition(keys, size, t.state) && GoodHistory(keys, size, t) && GoodStream(size, t)
  }

  lemma {:induction false} EmptyBoardHash(keys: Keys, cells: seq<Coord>)
    ensures StonesHash(keys, map[], cells) == 0
  {
    hide Xor;
    XorLaws(0, 0, 0);
    if cells == [] {
    } else {
      EmptyBoardHash(keys, cells[..|cells| - 1]);
    }
  }

  lemma StartIsGood(keys: Keys, size: nat)
    ensures Good(keys, size, Start())
  {
    hide Xor, StonesHash, Scan;
    EmptyBoardHash(keys, Scan(size, size));
    XorLaws(0, 0, 0);
    assert HashOf(keys, size, FIRST_SITUATION) == 0;
    hide HashOf;
    assert Hashes(keys, size, [FIRST_SITUATION]) == {0} by { HashesStep(keys, size, [], FIRST_SITUATION); }
  }

  /** A move to a new hash extends the history. */
  lemma AdvanceHistory(keys: Keys, size: nat, t: Trace, at: Situation, hash: bv64, passes: nat, delta: GameDelta)
    requires GoodHistory(keys, size, t)
    requires Sound(size, at.stones)
    requires hash == HashOf(keys, size, at) && hash !in t.state.seen
    ensures GoodHistory(keys, size, Advance(t, at, hash, passes, delta))
  {
    hide HashOf, Sound, Hashes;
    HashesStep(keys, size, t.history, at);
    forall i | 0 <= i < |t.history| ensures HashOf(keys, size, t.history[i]) != hash {
      HashIsSeen(keys, size, t.history, i);
    }
  }

  lemma HashIsSeen(keys: Keys, size: nat, history: seq<Situation>, i: nat)
    requires i < |history|
    ensures HashOf(keys, size, history[i]) in Hashes(keys, size, history)
  {
    hide HashOf;
  }

  lemma AdvanceStream(size: nat, t: Trace, at: Situation, hash: bv64, passes: nat, delta: GameDelta)
    requires GoodStream(size, t) && t.state.active && t.history[t.state.moveId] == t.state.at
    requires Link(size, t.state.at, delta, at)
    requires at.toMove == Opponent(t.state.at.toMove) && delta.player == t.state.at.toMove
    requires delta.moveId == t.state.moveId + 1 && delta.gameActive && delta.nextPlayer == Opponent(delta.player)
    ensures GoodStream(size, Advance(t, at, hash, passes, delta))
  {
    hide Link;
    var next := Advance(t, at, hash, passes, delta);
    forall i | 0 <= i < next.state.moveId ensures Link(size, next.history[i], next.deltas[i], next.history[i + 1]) {
      if i < t.state.moveId {
        assert Link(size, t.history[i], t.deltas[i], t.history[i + 1]);
      }
    }
  }

  /** The last delta of a game that ends by passing or resigning. */
  lemma EndStream(size: nat, t: Trace, delta: GameDelta, state: GameState)
    requires GoodStream(size, t) && t.state.active && Ending(delta)
    requires delta.moveId == t.state.moveId + 1 && delta.player == t.state.at.toMove
    requires delta.nextPlayer == Opponent(delta.player)
    requires state.moveId == t.state.moveId && state.at == t.state.at && !state.active
    ensures GoodStream(size, Trace(state, t.history, t.deltas + [delta]))
  {
    hide Link;
    var next := Trace(state, t.history, t.deltas + [delta]);
    forall i | 0 <= i < next.state.moveId ensures Link(size, next.history[i], next.deltas[i], next.history[i + 1]) {
      assert Link(size, t.history[i], t.deltas[i], t.history[i + 1]);
    }
  }

  lemma PlayFits(size: nat, stones: Stones, c: Coord, player: Player)
    requires Fits(size, stones) && InBounds(size, c)
    ensures Fits(size, Play(size, stones, c, player))
  {
  }

  /** The hash computed move by move is the hash of the new situation. */
  lemma PutHash(keys: Keys, size: nat, s: GameState, c: Coord)
    requires GoodPosition(keys, size, s) && InBounds(size, c) && c !in s.at.stones
    ensures HashAfterMove(keys, s.hash, c, s.at.toMove, CaptureList(size, s.at.stones, c, s.at.toMove))
            == HashOf(keys, size, After(size, s.at, c))
  {
    hide HashOf, HashAfterMove, Play, AllAlive;
    var captures := CaptureList(size, s.at.stones, c, s.at.toMove);
    CapturedIsWhole(size, s.at.stones, c, s.at.toMove);
    assert Elems(captures) == Captured(size, s.at.stones, c, s.at.toMove);
    SortedHasNoDup(captures);
    HashOfMove(keys, size, s.at.stones, c, s.at.toMove, captures);
  }

  lemma PutIsGood(keys: Keys, size: nat, t: Trace, player: Player, c: Coord)
    requires Good(keys, size, t) && t.state.active
    ensures Good(keys, size, StepPut(keys, size, t, player, c))
  {
    hide HashOf, HashAfterMove, Play, AllAlive, CaptureList, Fits, GoodHistory, GoodStream;
    var s := t.state;
    if Accepts(keys, size, s, player, c) {
      var at, captures := After(size, s.at, c), CaptureList(size, s.at.stones, c, player);
      var hash := HashAfterMove(keys, s.hash, c, player, captures);
      var delta := GameDelta(s.moveId + 1, Place, player, Some(c), captures, Opponent(player), s.active);
      PutHash(keys, size, s, c);
      PlayFits(size, s.at.stones, c, player);
      LegalMoveKeepsAllAlive(size, s.at.stones, c, player);
      LastOfHistory(keys, size, t);
      AdvanceHistory(keys, size, t, at, hash, 0, delta);
      AdvanceStream(size, t, at, hash, 0, delta);
    }
  }

  lemma LastOfHistory(keys: Keys, size: nat, t: Trace)
    requires GoodHistory(keys, size, t)
    ensures |t.history| == t.state.moveId + 1 && t.history[t.state.moveId] == t.state.at
  {
  }

  lemma PassIsGood(keys: Keys, size: nat, t: Trace, player: Player)
    requires Good(keys, size, t) && t.state.active
    ensures Good(keys, size, StepPass(keys, t, player))
  {
    hide HashOf, Play, AllAlive, Xor, CaptureList, Fits, GoodHistory, GoodStream;
    var s := t.state;
    HashOfPass(keys, size, s.at.stones, s.at.toMove);
    LastOfHistory(keys, size, t);
    if player == s.at.toMove {
      if s.passes + 1 == 2 {
        EndStream(size, t, PassDelta(s.moveId + 1, player, false), s.(passes := 2, active := false));
        SameHistory(keys, size, t, StepPass(keys, t, player));
      } else if Xor(s.hash, keys.toggle) !in s.seen {
        var next, delta := Situation(s.at.stones, Opponent(player)), PassDelta(s.moveId + 1, player, s.active);
        AdvanceHistory(keys, size, t, next, Xor(s.hash, keys.toggle), s.passes + 1, delta);
        AdvanceStream(size, t, next, Xor(s.hash, keys.toggle), s.passes + 1, delta);
      } else {
        SameHistory(keys, size, t, StepPass(keys, t, player));
        SameStream(size, t, StepPass(keys, t, player));
      }
    }
  }

  lemma SameHistory(keys: Keys, size: nat, t: Trace, next: Trace)
    requires GoodHistory(keys, size, t) && next.history == t.history
    requires next.state.at == t.state.at && next.state.moveId == t.state.moveId && next.state.seen == t.state.seen
    ensures GoodHistory(keys, size, next)
  {
    hide HashOf, AllAlive, Fits;
  }

  lemma SameStream(size: nat, t: Trace, next: Trace)
    requires GoodStream(size, t) && next.history == t.history && next.deltas == t.deltas
    requires next.state.at == t.state.at && next.state.moveId == t.state.moveId
    requires next.state.active ==> t.state.active
    ensures GoodStream(size, next)
  {
    hide Link, Ending;
  }

  lemma StepIsGood(keys: Keys, size: nat, t: Trace, event: GameEvent)
    requires Good(keys, size, t) && t.state.active
    ensures Good(keys, size, Step(keys, size, t, event))
  {
    hide HashOf, AllAlive, Fits, GoodHistory, GoodStream, StepPut, StepPass;
    match event
    case PutStone(player, c) => PutIsGood(keys, size, t, player, c);
    case PassTurn(player) => PassIsGood(keys, size, t, player);
    case Resign =>
      var s := t.state;
      EndStream(size, t, StepResign(t).deltas[|t.deltas|], s.(active := false));
      SameHistory(keys, size, t, StepResign(t));
    case Shutdown =>
      SameHistory(keys, size, t, Step(keys, size, t, event));
      SameStream(size, t, Step(keys, size, t, event));
  }

  lemma {:induction false} RunIsGood(keys: Keys, size: nat, t: Trace, events: seq<GameEvent>)
    requires Good(keys, size, t)
    ensures Good(keys, size, Run(keys, size, t, events))
    decreases |events|
  {
    hide Good, Step;
    if events == [] || !t.state.active {
    } else {
      StepIsGood(keys, size, t, events[0]);
      RunIsGood(keys, size, Step(keys, size, t, events[0]), events[1..]);
    }
  }
}
