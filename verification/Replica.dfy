/** The client's copy of the game, built from the server's messages alone. */
module Replica {
  import opened Model
  import opened Boards
  import opened Topology
  import opened Rules
  import opened Zobrist
  import opened MoveChecker
  import opened GameSpec
  import opened GameTheorems
  import opened Wire

  datatype ClientStatus = Idle | Ready | Active | Done

  datatype ReplicaState = ReplicaState(moveId: nat, status: ClientStatus, player: Player, size: nat, stones: Stones)

  predicate IsApplicable(s: ReplicaState, d: ServerDelta) {
    s.status == Active && d.turn == s.moveId + 1 && IsPlayer(d.seat) && IsPlayer(d.next)
  }

  function Placed(stones: Stones, c: Coord, player: Player): Stones {
    if c in stones then stones else stones[c := player]
  }

  /** What applying a delta makes of the replica. A delta that is not the next one changes nothing. */
  function Applied(s: ReplicaState, d: ServerDelta): ReplicaState {
    if !IsApplicable(s, d) then s
    else
      var stones := if d.action == PlaceAction && d.coord.Some?
                    then Placed(s.stones, d.coord.value, PlayerOf(d.seat)) - Elems(d.captures) else s.stones;
      ReplicaState(d.turn, if d.status == ActiveStatus then Active else Done, PlayerOf(d.next), s.size, stones)
  }

  function Initialised(s: ReplicaState, boardSize: nat): ReplicaState {
    if s.status == Active then s else ReplicaState(0, Active, Player.Black, boardSize, map[])
  }

  class Position {
    var moveId: nat
    var status: ClientStatus
    var player: Player
    var board: Board

    ghost predicate Valid()
      reads this
    {
      board.Valid()
    }

    ghost function View(): ReplicaState
      requires Valid()
      reads this, board.cells
    {
      ReplicaState(moveId, status, player, board.size, board.Contents())
    }

    constructor ()
      ensures Valid() && View() == ReplicaState(0, Idle, Player.Black, 9, map[])
      ensures fresh(board) && fresh(board.cells)
    {
      moveId, status, player := 0, Idle, Player.Black;
      board := new Board(9);
    }

    method Reset(boardSize: nat)
      requires Valid()
      modifies this
      ensures Valid() && View() == ReplicaState(0, Idle, Player.Black, boardSize, map[])
      ensures fresh(board) && fresh(board.cells)
    {
      moveId, status, player := 0, Idle, Player.Black;
      board := new Board(boardSize);
    }

    method Init(boardSize: nat) returns (changed: bool)
      requires Valid()
      modifies this
      ensures Valid() && View() == Initialised(old(View()), boardSize)
      ensures changed <==> old(status) != Active
    {
      if status == Active {
        return false;
      }
      moveId, status, player := 0, Active, Player.Black;
      board := new Board(boardSize);
      return true;
    }

    /** The board demands points inside it, so an applied place must name only such points. */
    method Apply(delta: ServerDelta) returns (applied: bool)
      requires Valid()
      requires IsApplicable(View(), delta) && delta.action == PlaceAction && delta.coord.Some? ==>
                 InBounds(board.size, delta.coord.value) && forall c :: c in delta.captures ==> InBounds(board.size, c)
      modifies this, board.cells
      ensures Valid() && View() == Applied(old(View()), delta)
      ensures applied <==> IsApplicable(old(View()), delta)
    {
      hide Board.Contents, Board.Valid;
      if !IsDeltaApplicable(delta) {
        return false;
      }
      moveId := delta.turn;
      status := if delta.status == ActiveStatus then Active else Done;
      player := PlayerOf(delta.next);
      if delta.action == PlaceAction && delta.coord.Some? {
        var placed := board.Place(delta.coord.value, ToStone(PlayerOf(delta.seat)));
        ghost var stones := board.Contents();
        for i := 0 to |delta.captures|
          invariant Valid() && board == old(board)
          invariant moveId == delta.turn && player == PlayerOf(delta.next)
          invariant status == if delta.status == ActiveStatus then Active else Done
          invariant board.Contents() == stones - Elems(delta.captures[..i])
        {
          assert delta.captures[..i + 1] == delta.captures[..i] + [delta.captures[i]];
          var removed := board.Remove(delta.captures[i]);
        }
        assert delta.captures[..|delta.captures|] == delta.captures;
      }
      return true;
    }

    predicate IsDeltaApplicable(delta: ServerDelta)
      requires Valid()
      reads this, board.cells
      ensures IsDeltaApplicable(delta) <==> IsApplicable(View(), delta)
    {
      if status != Active then false
      else if delta.turn <= moveId then false
      else if delta.turn > moveId + 1 then false
      else IsPlayer(delta.seat) && IsPlayer(delta.next)
    }
  }

  // ----- From the game to the wire -----

  /** How the server words a delta of the game. */
  function Translate(d: GameDelta): ServerDelta {
    ServerDelta(d.moveId, SeatOf(d.player),
                match d.action case Place => PlaceAction case Pass => PassAction case Resigned => ResignAction,
                d.coord, d.captures, SeatOf(d.nextPlayer),
                if d.gameActive then ActiveStatus else Draw)
  }

  /** The message says of a delta what was played: a place is action 0, a pass 1, a resignation 2; Black is seat
      2, White 4; a game that goes on has status 0, one that has ended 3. */
  ghost predicate Reports(message: Json, d: GameDelta) {
    && IsKind(message, "delta")
    && var f := message.fields;
      && {"turn", "seat", "action", "next", "status"} <= f.Keys
      && f["turn"] == Unsigned(d.moveId)
      && f["seat"] == Unsigned(if d.player == Player.Black then 2 else 4)
      && f["action"] == Unsigned(if d.action == Place then 0 else if d.action == Pass then 1 else 2)
      && f["next"] == Unsigned(if d.nextPlayer == Player.Black then 2 else 4)
      && f["status"] == Unsigned(if d.gameActive then 0 else 3)
      && (if d.action == Place
          then d.coord.Some? && {"x", "y"} <= f.Keys
               && f["x"] == Unsigned(d.coord.value.x) && f["y"] == Unsigned(d.coord.value.y)
          else "x" !in f && "y" !in f)
      && (if d.action == Place && d.captures != []
          then "captures" in f && f["captures"].Array? && |f["captures"].items| == |d.captures|
               && forall i :: 0 <= i < |d.captures| ==>
                    f["captures"].items[i] == Array([Unsigned(d.captures[i].x), Unsigned(d.captures[i].y)])
          else "captures" !in f)
  }

  lemma EveryDeltaIsReported(d: GameDelta)
    requires d.action == Place ==> d.coord.Some?
    ensures EncodeServer(Delta(Translate(d))).Some? && Reports(EncodeServer(Delta(Translate(d))).value, d)
  {
    hide EncodeDelta;
    NoDeltaWithoutPoint(Translate(d));
    EncodedFields(Translate(d));
    EncodedPoints(Translate(d));
  }

  /** Every delta of every game, captures of any number included, is sent as a message that reports it and
      crosses the wire unchanged. */
  lemma EveryDeltaCrossesTheWire(keys: Keys, size: nat, events: seq<GameEvent>, i: nat)
    requires i < |GameOf(keys, size, events).deltas| < UINT32 && size < UINT32
    ensures
      var d := GameOf(keys, size, events).deltas[i];
      var sent := Delta(Translate(d));
      && EncodeServer(sent).Some? && Reports(EncodeServer(sent).value, d)
      && DecodeServer(EncodeServer(sent).value) == Some(sent)
  {
    hide Run, Captured, Suicide, Canonical, EncodeServer, DecodeServer, After, Reports, Translate;
    StreamOfEveryRun(keys, size, events);
    var t := GameOf(keys, size, events);
    DeltaRoundTrip(Translate(t.deltas[i]));
    if i < t.state.moveId {
      LinkedDeltaIsCanonical(size, t.history[i], t.deltas[i], t.history[i + 1]);
    } else {
      EndingDeltaIsCanonical(t.deltas[i]);
    }
    EveryDeltaIsReported(t.deltas[i]);
  }

  lemma LinkedDeltaIsCanonical(size: nat, before: Situation, d: GameDelta, after: Situation)
    requires Link(size, before, d, after) && size < UINT32 && d.moveId < UINT32
    ensures Canonical(Translate(d))
  {
    hide Captured, Suicide, After;
    forall c | c in d.captures ensures Fits32(c) {
      assert d.action == Place;
      assert c in CaptureList(size, before.stones, d.coord.value, before.toMove);
    }
    assert forall i :: 0 <= i < |d.captures| ==> d.captures[i] in d.captures;
  }

  lemma EndingDeltaIsCanonical(d: GameDelta)
    requires Ending(d) && d.moveId < UINT32
    ensures Canonical(Translate(d))
  {
  }

  // ----- Delivery -----

  /** What a client does with one message. */
  function Received(s: ReplicaState, message: Json): ReplicaState {
    match DecodeServer(message)
    case Some(GameConfig(boardSize, _, _)) => Initialised(s, boardSize)
    case Some(Delta(delta)) => Applied(s, delta)
    case _ => s
  }

  function ReceivedAll(s: ReplicaState, messages: seq<Json>): ReplicaState {
    if messages == [] then s
    else Received(ReceivedAll(s, messages[..|messages| - 1]), messages[|messages| - 1])
  }

  /** Whatever a client receives, it goes on by at most one move and never back: only a configuration that
      reaches a client in no game starts over, with an empty board of the size it names. */
  lemma ReplicaNeverGoesBack(s: ReplicaState, message: Json)
    ensures
      var next := Received(s, message);
      || next == s
      || (s.status == Active && next.moveId == s.moveId + 1 && next.size == s.size)
      || (exists size: nat, komi: real, time: nat ::
            s.status != Active && Tells(message, GameConfig(size, komi, time))
            && next == ReplicaState(0, Active, Player.Black, size, map[]))
  {
    hide DecodeServer, Tells;
    if DecodeServer(message).Some? {
      ServerMessagesMean(message, DecodeServer(message).value);
    }
  }

  /** A repeated configuration leaves an active replica as it is. */
  lemma ActiveReplicaKeepsItsGame(s: ReplicaState, message: Json, size: nat, komi: real, time: nat)
    requires Tells(message, GameConfig(size, komi, time))
    ensures Received(s, message) == if s.status == Active then s else ReplicaState(0, Active, Player.Black, size, map[])
  {
    hide DecodeServer, Tells;
    ServerMessagesMean(message, GameConfig(size, komi, time));
  }

  /** A message the server of this game sends: its configuration, one of its deltas, or anything that
      is neither, such as chat. */
  ghost predicate SentBy(size: nat, deltas: seq<GameDelta>, message: Json) {
    || (exists komi: real, time: nat :: time < UINT32 && EncodeServer(GameConfig(size, komi, time)) == Some(message))
    || (exists i :: 0 <= i < |deltas| && EncodeServer(Delta(Translate(deltas[i]))) == Some(message))
    || (match DecodeServer(message) case Some(event) => !event.GameConfig? && !event.Delta? case None => true)
  }

  /** The situation after the first k deltas of a game. */
  ghost function SituationAfter(t: Trace, k: nat): Situation
    requires |t.history| > 0
  {
    if k < |t.history| then t.history[k]
    else var last := t.history[|t.history| - 1]; Situation(last.stones, Opponent(last.toMove))
  }

  /** The replica shows the server's game as it was after the replica's last move. */
  ghost predicate Shows(size: nat, t: Trace, s: ReplicaState) {
    && |t.history| > 0
    && s.size == size
    && s.moveId <= |t.deltas|
    && s.stones == SituationAfter(t, s.moveId).stones
    && s.player == SituationAfter(t, s.moveId).toMove
    && s.status == if s.moveId == 0 || t.deltas[s.moveId - 1].gameActive then Active else Done
  }

  lemma NextDeltaShows(keys: Keys, size: nat, t: Trace, s: ReplicaState)
    requires Good(keys, size, t) && Shows(size, t, s)
    requires s.status == Active && s.moveId < |t.deltas|
    ensures Shows(size, t, Applied(s, Translate(t.deltas[s.moveId])))
    ensures Applied(s, Translate(t.deltas[s.moveId])).moveId == s.moveId + 1
  {
    hide LegalWithoutKo, HashOf, AllAlive, Fits, CaptureList, Play;
    var d := t.deltas[s.moveId];
    if s.moveId < t.state.moveId {
      assert Link(size, t.history[s.moveId], d, t.history[s.moveId + 1]);
      if d.action == Place {
        PlaceShows(size, t.history[s.moveId].stones, d.coord.value, t.history[s.moveId].toMove);
      }
    }
  }

  /** Placing the stone and then removing the captures gives the board the server rebuilds. */
  lemma PlaceShows(size: nat, stones: Stones, c: Coord, player: Player)
    requires Fits(size, stones) && LegalWithoutKo(size, stones, c, player)
    ensures Placed(stones, c, player) - Elems(CaptureList(size, stones, c, player)) == Play(size, stones, c, player)
  {
    hide Suicide, Captured;
    CapturedIsWhole(size, stones, c, player);
    assert Elems(CaptureList(size, stones, c, player)) == Captured(size, stones, c, player);
  }

  lemma DeliveredDelta(keys: Keys, size: nat, t: Trace, s: ReplicaState, i: nat)
    requires Good(keys, size, t) && Shows(size, t, s) && i < |t.deltas|
    ensures Shows(size, t, Applied(s, Translate(t.deltas[i])))
  {
    hide GoodPosition, GoodHistory, Linked, Ending, Shows;
    assert t.deltas[i].moveId == i + 1;
    if IsApplicable(s, Translate(t.deltas[i])) {
      NextDeltaShows(keys, size, t, s);
    }
  }

  /** A delta of the game that a replica applies names only points of its board, as Apply demands. */
  lemma GameDeltasStayOnTheBoard(keys: Keys, size: nat, events: seq<GameEvent>, s: ReplicaState, i: nat)
    requires i < |GameOf(keys, size, events).deltas| && Shows(size, GameOf(keys, size, events), s)
    requires var d := Translate(GameOf(keys, size, events).deltas[i]); IsApplicable(s, d) && d.action == PlaceAction
    ensures
      var d := Translate(GameOf(keys, size, events).deltas[i]);
      d.coord.Some? && InBounds(s.size, d.coord.value) && forall c :: c in d.captures ==> InBounds(s.size, c)
  {
    hide Run, Captured, Suicide, HashOf, AllAlive, Fits;
    StreamOfEveryRun(keys, size, events);
    var t := GameOf(keys, size, events);
    if i < t.state.moveId {
      assert Link(size, t.history[i], t.deltas[i], t.history[i + 1]);
    }
  }

  lemma FreshReplicaShows(keys: Keys, size: nat, t: Trace)
    requires Good(keys, size, t)
    ensures Shows(size, t, ReplicaState(0, Active, Player.Black, size, map[]))
  {
    hide GoodPosition, GoodStream, AllAlive, HashOf;
  }

  lemma DeliveredMessage(keys: Keys, size: nat, events: seq<GameEvent>, s: ReplicaState, message: Json)
    requires
      var t := GameOf(keys, size, events);
      && size < UINT32 && |t.deltas| < UINT32
      && SentBy(size, t.deltas, message)
      && (Shows(size, t, s) || s.status != Active)
    ensures Shows(size, GameOf(keys, size, events), Received(s, message)) || Received(s, message) == s
  {
    hide Run, Good, Shows, Translate, EncodeServer, DecodeServer, Applied;
    var t := GameOf(keys, size, events);
    EveryRunIsGood(keys, size, events);
    if komi: real, time: nat :| time < UINT32 && EncodeServer(GameConfig(size, komi, time)) == Some(message) {
      ServerEventRoundTrip(GameConfig(size, komi, time));
      FreshReplicaShows(keys, size, t);
    } else if i :| 0 <= i < |t.deltas| && EncodeServer(Delta(Translate(t.deltas[i]))) == Some(message) {
      EveryDeltaCrossesTheWire(keys, size, events, i);
      if Shows(size, t, s) {
        DeliveredDelta(keys, size, t, s, i);
      } else {
        InactiveRejects(s, Translate(t.deltas[i]));
      }
    }
  }

  lemma InactiveRejects(s: ReplicaState, d: ServerDelta)
    requires s.status != Active
    ensures Applied(s, d) == s
  {
  }

  /** Replica safety: whatever messages of one game are delivered to a client that was in no game, in any
      order, with losses and repeats, its replica is untouched or shows the server's board, player and
      status after exactly the moves it counts. */
  lemma {:induction false} ReplicaIsSafe(keys: Keys, size: nat, events: seq<GameEvent>, s: ReplicaState, messages: seq<Json>)
    requires s.status != Active
    requires size < UINT32 && |GameOf(keys, size, events).deltas| < UINT32
    requires forall i :: 0 <= i < |messages| ==> SentBy(size, GameOf(keys, size, events).deltas, messages[i])
    ensures ReceivedAll(s, messages) == s || Shows(size, GameOf(keys, size, events), ReceivedAll(s, messages))
  {
    hide Run, Shows, SentBy, Received;
    if messages == [] {
    } else {
      var init := messages[..|messages| - 1];
      ReplicaIsSafe(keys, size, events, s, init);
      DeliveredMessage(keys, size, events, ReceivedAll(s, init), messages[|messages| - 1]);
    }
  }

  // ----- How far a replica gets -----

  /** The configuration of a game and then some of its deltas, chosen by position, as messages. */
  ghost function MessagesOf(size: nat, deltas: seq<GameDelta>, ids: seq<nat>): seq<Json>
    requires forall i :: 0 <= i < |ids| ==> ids[i] < |deltas|
  {
    if ids == [] then [EncodeServer(GameConfig(size, 6.5, 0)).value]
    else
      var message := EncodeServer(Delta(Translate(deltas[ids[|ids| - 1]])));
      MessagesOf(size, deltas, ids[..|ids| - 1]) + [if message.Some? then message.value else Null]
  }

  /** The numbers 0, 1, ..., m - 1 occur in this order, not necessarily side by side. */
  ghost predicate CountsUpTo(ids: seq<nat>, m: nat) {
    exists places: seq<nat> :: IsCount(ids, places) && |places| == m
  }

  ghost predicate IsCount(ids: seq<nat>, places: seq<nat>) {
    && (forall j :: 0 <= j < |places| ==> places[j] < |ids| && ids[places[j]] == j)
    && (forall i, j :: 0 <= i < j < |places| ==> places[i] < places[j])
  }

  /** How far a reader gets that waits for the next number and skips every other. */
  ghost function Reached(ids: seq<nat>): nat {
    if ids == [] then 0
    else
      var m := Reached(ids[..|ids| - 1]);
      if ids[|ids| - 1] == m then m + 1 else m
  }

  lemma {:induction false} ReachedCounts(ids: seq<nat>) returns (places: seq<nat>)
    ensures IsCount(ids, places) && |places| == Reached(ids)
  {
    if ids == [] {
      places := [];
    } else {
      places := ReachedCounts(ids[..|ids| - 1]);
      if ids[|ids| - 1] == |places| {
        places := places + [|ids| - 1];
      }
    }
  }

  lemma {:induction false} NoCountGoesFurther(ids: seq<nat>, places: seq<nat>)
    requires IsCount(ids, places)
    ensures |places| <= Reached(ids)
  {
    if places == [] {
    } else {
      var init, last := places[..|places| - 1], places[|places| - 1];
      if last == |ids| - 1 {
        NoCountGoesFurther(ids[..|ids| - 1], init);
      } else {
        forall j | 0 <= j < |places| ensures places[j] < |ids| - 1 {
          assert j < |places| - 1 ==> places[j] < last;
        }
        NoCountGoesFurther(ids[..|ids| - 1], places);
      }
    }
  }

  lemma {:induction false} ReplicaReaches(keys: Keys, size: nat, events: seq<GameEvent>, s: ReplicaState, ids: seq<nat>)
    requires s.status != Active && size < UINT32 && |GameOf(keys, size, events).deltas| < UINT32
    requires forall i :: 0 <= i < |ids| ==> ids[i] < |GameOf(keys, size, events).deltas|
    ensures
      var t := GameOf(keys, size, events);
      var shown := ReceivedAll(s, MessagesOf(size, t.deltas, ids));
      Shows(size, t, shown) && shown.moveId == Reached(ids)
  {
    hide Run, Good, Shows, Translate, EncodeServer, DecodeServer, Applied;
    var t := GameOf(keys, size, events);
    EveryRunIsGood(keys, size, events);
    var messages := MessagesOf(size, t.deltas, ids);
    if ids == [] {
      ConfigCrosses(size);
      FreshReplicaShows(keys, size, t);
      assert ReceivedAll(s, messages[..0]) == s;
    } else {
      var init, next := ids[..|ids| - 1], ids[|ids| - 1];
      ReplicaReaches(keys, size, events, s, init);
      EveryDeltaCrossesTheWire(keys, size, events, next);
      assert messages[..|messages| - 1] == MessagesOf(size, t.deltas, init);
      var shown := ReceivedAll(s, MessagesOf(size, t.deltas, init));
      if next == shown.moveId {
        StillActive(keys, size, t, shown);
        NextDeltaShows(keys, size, t, shown);
      } else {
        OtherDeltaIsSkipped(keys, size, t, shown, next);
      }
    }
  }

  lemma OtherDeltaIsSkipped(keys: Keys, size: nat, t: Trace, s: ReplicaState, i: nat)
    requires Good(keys, size, t) && i < |t.deltas| && i != s.moveId
    ensures Applied(s, Translate(t.deltas[i])) == s
  {
    hide GoodPosition, GoodHistory, Linked, Ending;
    assert t.deltas[i].moveId == i + 1;
  }

  /** A replica takes all it can and no more: after the configuration and any deliveries of deltas, it
      shows the game after m moves for the largest m such that deltas 1 to m came in this order. */
  lemma ReplicaTakesAllItCan(keys: Keys, size: nat, events: seq<GameEvent>, s: ReplicaState, ids: seq<nat>)
    requires s.status != Active && size < UINT32 && |GameOf(keys, size, events).deltas| < UINT32
    requires forall i :: 0 <= i < |ids| ==> ids[i] < |GameOf(keys, size, events).deltas|
    ensures
      var t := GameOf(keys, size, events);
      var shown := ReceivedAll(s, MessagesOf(size, t.deltas, ids));
      && Shows(size, t, shown)
      && CountsUpTo(ids, shown.moveId)
      && forall m: nat :: CountsUpTo(ids, m) ==> m <= shown.moveId
  {
    hide Shows, Run, IsCount, MessagesOf;
    ReplicaReaches(keys, size, events, s, ids);
    var places := ReachedCounts(ids);
    forall m: nat | CountsUpTo(ids, m) ensures m <= Reached(ids) {
      var count: seq<nat> :| IsCount(ids, count) && |count| == m;
      NoCountGoesFurther(ids, count);
    }
  }

  /** Delivery in order is never rejected: the replica ends on the server's last board and status. */
  lemma InOrderDeliveryIsComplete(keys: Keys, size: nat, events: seq<GameEvent>, s: ReplicaState, ids: seq<nat>)
    requires s.status != Active && size < UINT32
    requires |ids| == |GameOf(keys, size, events).deltas| < UINT32 && forall i :: 0 <= i < |ids| ==> ids[i] == i
    ensures
      var t := GameOf(keys, size, events);
      var shown := ReceivedAll(s, MessagesOf(size, t.deltas, ids));
      shown.moveId == |t.deltas| && shown.stones == t.state.at.stones
      && (shown.status == Done <==> |t.deltas| > t.state.moveId)
  {
    hide Run, MessagesOf, HashOf, AllAlive, Link;
    ReplicaTakesAllItCan(keys, size, events, s, ids);
    assert IsCount(ids, ids);
    assert CountsUpTo(ids, |ids|);
    StreamOfEveryRun(keys, size, events);
  }

  lemma ConfigCrosses(size: nat)
    requires size < UINT32
    ensures EncodeServer(GameConfig(size, 6.5, 0)).Some?
    ensures DecodeServer(EncodeServer(GameConfig(size, 6.5, 0)).value) == Some(GameConfig(size, 6.5, 0))
  {
    ServerEventRoundTrip(GameConfig(size, 6.5, 0));
  }

  lemma StillActive(keys: Keys, size: nat, t: Trace, s: ReplicaState)
    requires Good(keys, size, t) && Shows(size, t, s) && s.moveId < |t.deltas|
    ensures s.status == Active
  {
    hide GoodPosition, GoodHistory, Linked, Ending;
  }
}
