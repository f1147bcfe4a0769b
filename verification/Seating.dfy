/** The server: seats for connecting clients, the players of the game, the start of the game, and what the
    messages of the seated clients become. */
module Seating {
  import opened Model
  import opened Wire
  import opened Sessions
  import opened GameSpec
  import ChatLog

  /** The thread that runs the game: not there, started, in the loop, or done but not yet joined. */
  datatype GameThread = NoThread | Started | Playing | Finished

  /** What the game side knows: who plays which colour, the thread, and how often a game was announced. */
  datatype GameSide = GameSide(players: map<Player, nat>, thread: GameThread, configs: nat)

  datatype ServerState = ServerState(table: Table, game: GameSide, handler: bool, running: bool, nextConnection: nat)

  // ----- Operations on values -----

  ghost predicate Taken(t: Table, seat: Seat) {
    exists id :: Holds(t, id, seat)
  }

  ghost function FreeSeat(t: Table): Seat {
    if !Taken(t, BlackSeat) then BlackSeat else if !Taken(t, WhiteSeat) then WhiteSeat else Observer
  }

  /** A seated player joins when no game runs and the colour is free; the second player starts the game. */
  function Joined(g: GameSide, sessionId: nat, seat: Seat): GameSide {
    if !IsPlayer(seat) || g.thread == Playing || PlayerOf(seat) in g.players then g
    else
      var players := g.players[PlayerOf(seat) := sessionId];
      if |players| == 2 && g.thread == NoThread then GameSide(players, Started, g.configs + 1) else g.(players := players)
  }

  /** The session leaves the colour it plays. */
  function Left(g: GameSide, sessionId: nat): GameSide {
    if Player.Black in g.players && g.players[Player.Black] == sessionId then g.(players := g.players - {Player.Black})
    else if Player.White in g.players && g.players[Player.White] == sessionId then g.(players := g.players - {Player.White})
    else g
  }

  ghost function ClientConnected(s: ServerState, connectionId: nat): ServerState {
    var (added, id) := Added(s.table, connectionId);
    var seat := FreeSeat(added);
    s.(table := Seated(added, id, seat), game := if s.handler then Joined(s.game, id, seat) else s.game)
  }

  function ClientDisconnected(s: ServerState, connectionId: nat): ServerState {
    var id := if connectionId in s.table.connections then s.table.connections[connectionId] else 0;
    if id == 0 then s
    else
      var seat := if id in s.table.sessions then s.table.sessions[id].seat else NoSeat;
      s.(table := Disconnected(s.table, id), game := if s.handler && IsPlayer(seat) then Left(s.game, id) else s.game)
  }

  /** The event that a client's move becomes. */
  function MoveOf(player: Player, event: ClientEvent): Option<GameEvent> {
    match event
    case ClientPutStone(c) => Some(PutStone(player, c))
    case ClientPass => Some(PassTurn(player))
    case ClientResign => Some(Resign)
    case ClientChat(_) => None
  }

  /** The line that a client's chat becomes. */
  function LineOf(player: Player, event: ClientEvent): Option<ChatLog.ChatLine> {
    match event
    case ClientChat(text) => Some(ChatLog.ChatLine(player, text))
    case _ => None
  }

  function LinesOf(line: Option<ChatLog.ChatLine>): seq<ChatLog.ChatLine> {
    if line.Some? then [line.value] else []
  }

  /** The seat of a connection's session, whether the session is active or not. */
  function SeatAt(t: Table, connectionId: nat): Seat {
    var id := if connectionId in t.connections then t.connections[connectionId] else 0;
    if id != 0 && id in t.sessions then t.sessions[id].seat else NoSeat
  }

  /** What a client's message becomes in the queue of the game: it is dropped unless it decodes, its
      session has a colour and a game is being played, and it always acts for that colour. */
  function Forwarded(s: ServerState, connectionId: nat, message: Json): Option<GameEvent> {
    var seat := SeatAt(s.table, connectionId);
    if !IsPlayer(seat) || s.game.thread != Playing then None
    else
      match DecodeClient(message)
      case Some(event) => MoveOf(PlayerOf(seat), event)
      case None => None
  }

  /** What it becomes in the chat: a line of its session's colour, whether a game is being played or not. */
  function Spoken(s: ServerState, connectionId: nat, message: Json): Option<ChatLog.ChatLine> {
    var seat := SeatAt(s.table, connectionId);
    if !IsPlayer(seat) then None
    else
      match DecodeClient(message)
      case Some(event) => LineOf(PlayerOf(seat), event)
      case None => None
  }

  /** The message asks the game for the event: a put, pass or resignation from a session in a colour's seat,
      under that colour. */
  ghost predicate AsksGame(t: Table, connectionId: nat, message: Json, event: GameEvent) {
    match event
    case PutStone(player, c) =>
      SeatAt(t, connectionId) == SeatOf(player) && DecodeClient(message) == Some(ClientPutStone(c))
    case PassTurn(player) => SeatAt(t, connectionId) == SeatOf(player) && DecodeClient(message) == Some(ClientPass)
    case Resign => IsPlayer(SeatAt(t, connectionId)) && DecodeClient(message) == Some(ClientResign)
    case Shutdown => false
  }

  /** A game that is played is given exactly what messages ask of it, and no other game is given anything. */
  lemma MovesReachTheGame(s: ServerState, connectionId: nat, message: Json, event: GameEvent)
    ensures Forwarded(s, connectionId, message) == Some(event) <==>
            s.game.thread == Playing && AsksGame(s.table, connectionId, message, event)
  {
    hide DecodeClient, SeatAt;
  }

  // ----- The objects -----

  class GameServer {
    var players: map<Player, nat>
    var gameThread: GameThread
    var configs: nat  // game configurations broadcast so far
    const chat: ChatLog.ServerChatLog

    ghost function View(): GameSide
      reads this
    {
      GameSide(players, gameThread, configs)
    }

    constructor ()
      ensures View() == GameSide(map[], NoThread, 0)
      ensures fresh(chat) && chat.Valid() && chat.history == []
    {
      players, gameThread, configs := map[], NoThread, 0;
      chat := new ChatLog.ServerChatLog();
    }

    method OnClientConnected(sessionId: nat, seat: Seat)
      modifies this
      ensures View() == Joined(old(View()), sessionId, seat)
    {
      if !IsPlayer(seat) {
        return;
      }
      var player := PlayerOf(seat);
      if gameThread == Playing {
        return;
      }
      if player in players {
        return;
      }
      players := players[player := sessionId];
      if |players| == 2 && gameThread == NoThread {
        gameThread := Started;
        configs := configs + 1;
      }
    }

    /** The game takes puts, passes and resignations while it is in its loop; the chat takes lines at any time. */
    method OnNetworkEvent(player: Player, event: ClientEvent) returns (pushed: Option<GameEvent>)
      requires chat.Valid()
      modifies chat
      ensures chat.Valid()
      ensures pushed == if gameThread == Playing then MoveOf(player, event) else None
      ensures gameThread == Playing ==>
                match event
                case ClientPutStone(c) => pushed == Some(PutStone(player, c))
                case ClientPass => pushed == Some(PassTurn(player))
                case ClientResign => pushed == Some(Resign)
                case ClientChat(_) => pushed == None
      ensures chat.history == old(chat.history) + LinesOf(LineOf(player, event))
    {
      match event
      case ClientPutStone(c) =>
        if gameThread != Playing {
          return None;
        }
        return Some(PutStone(player, c));
      case ClientPass =>
        if gameThread != Playing {
          return None;
        }
        return Some(PassTurn(player));
      case ClientResign =>
        if gameThread != Playing {
          return None;
        }
        return Some(Resign);
      case ClientChat(text) =>
        var _ := chat.Say(player, text);
        return None;
    }

    /** Erases one entry of the session, the first the iteration meets. When no session plays both
        colours the order of iteration makes no difference. */
    method OnClientDisconnected(sessionId: nat)
      modifies this
      ensures gameThread == old(gameThread) && configs == old(configs)
      ensures if PlaysSome(old(players), sessionId)
              then exists p :: p in old(players) && old(players)[p] == sessionId && players == old(players) - {p}
              else players == old(players)
      ensures Distinct(old(players)) ==> View() == Left(old(View()), sessionId)
    {
      var left := players.Keys;
      while left != {}
        invariant left <= players.Keys && View() == old(View())
        invariant forall p :: p in players && p !in left ==> players[p] != sessionId
        decreases |left|
      {
        var p :| p in left;
        if players[p] == sessionId {
          players := players - {p};
          return;
        }
        left := left - {p};
      }
    }
  }

  ghost predicate PlaysSome(players: map<Player, nat>, sessionId: nat) {
    exists p :: p in players && players[p] == sessionId
  }

  ghost predicate Distinct(players: map<Player, nat>) {
    forall p, q :: p in players && q in players && players[p] == players[q] ==> p == q
  }

  class NetworkServer {
    const sessionManager: SessionManager
    const handler: GameServer

    constructor (firstId: nat)
      ensures fresh(sessionManager) && fresh(handler) && fresh(handler.chat)
      ensures handler.chat.Valid() && handler.chat.history == []
      ensures sessionManager.View() == Table(map[], map[], firstId) && handler.View() == GameSide(map[], NoThread, 0)
    {
      sessionManager := new SessionManager(firstId);
      handler := new GameServer();
    }

    /** The state the handlers work on, once the game server is registered and running. */
    ghost function View(nextConnection: nat): ServerState
      reads sessionManager, handler
    {
      ServerState(sessionManager.View(), handler.View(), true, true, nextConnection)
    }

    method ProcessClientConnect(connectionId: nat, ghost nextConnection: nat)
      requires !Knows(sessionManager.View(), connectionId) ==>
                 sessionManager.nextSessionId < UINT32 && |sessionManager.sessions| < IDS
      requires NonZero(sessionManager.View()) && connectionId != 0
      modifies sessionManager, handler
      ensures View(nextConnection) == ClientConnected(old(View(nextConnection)), connectionId)
    {
      var sessionId := sessionManager.Add(connectionId);
      AddedStaysNonZero(old(sessionManager.View()), connectionId);
      var seat := FindFreeSeat();
      sessionManager.SetSeat(sessionId, seat);
      handler.OnClientConnected(sessionId, seat);
    }

    method FindFreeSeat() returns (seat: Seat)
      requires NonZero(sessionManager.View())
      ensures seat == FreeSeat(sessionManager.View())
      ensures if forall id :: !Holds(sessionManager.View(), id, BlackSeat) then seat == BlackSeat
              else if forall id :: !Holds(sessionManager.View(), id, WhiteSeat) then seat == WhiteSeat
              else seat == Observer
    {
      var black := sessionManager.GetConnectionIdBySeat(BlackSeat);
      if black == 0 {
        return BlackSeat;
      }
      var white := sessionManager.GetConnectionIdBySeat(WhiteSeat);
      if white == 0 {
        return WhiteSeat;
      }
      return Observer;
    }

    method ProcessClientDisconnect(connectionId: nat, ghost nextConnection: nat)
      modifies sessionManager, handler
      ensures sessionManager.View() == ClientDisconnected(old(View(nextConnection)), connectionId).table
      ensures
        var id := old(sessionManager.GetSessionId(connectionId));
        forall other, seat :: Holds(sessionManager.View(), other, seat) <==>
          old(Holds(sessionManager.View(), other, seat)) && (other != id || id == 0)
      ensures Distinct(old(handler.players)) ==>
                View(nextConnection) == ClientDisconnected(old(View(nextConnection)), connectionId)
    {
      var sessionId := sessionManager.GetSessionId(connectionId);
      if sessionId == 0 {
        return;
      }
      var seat := sessionManager.GetSeat(sessionId);
      sessionManager.SetDisconnected(sessionId);
      if IsPlayer(seat) {
        handler.OnClientDisconnected(sessionId);
      }
    }

    /** Passes a message on to the game or the chat, if it is one for them. */
    method ProcessClientMessage(connectionId: nat, message: Json, ghost nextConnection: nat) returns (pushed: Option<GameEvent>)
      requires handler.chat.Valid()
      modifies handler.chat
      ensures handler.chat.Valid()
      ensures pushed == Forwarded(View(nextConnection), connectionId, message)
      ensures forall event :: pushed == Some(event) <==>
                handler.gameThread == Playing && AsksGame(sessionManager.View(), connectionId, message, event)
      ensures handler.chat.history == old(handler.chat.history) + LinesOf(Spoken(View(nextConnection), connectionId, message))
    {
      hide AsksGame, DecodeClient;
      forall event
        ensures Forwarded(View(nextConnection), connectionId, message) == Some(event) <==>
                handler.gameThread == Playing && AsksGame(sessionManager.View(), connectionId, message, event)
      {
        MovesReachTheGame(View(nextConnection), connectionId, message, event);
      }
      var sessionId := sessionManager.GetSessionId(connectionId);
      if sessionId == 0 {
        return None;
      }
      var seat := sessionManager.GetSeat(sessionId);
      if !IsPlayer(seat) {
        return None;
      }
      var event := DecodeClient(message);
      if event.None? {
        return None;
      }
      pushed := handler.OnNetworkEvent(PlayerOf(seat), event.value);
    }
  }

  /** Connection id 0 stands for none, so no session may have it. */
  ghost predicate NonZero(t: Table) {
    forall id :: id in t.sessions ==> t.sessions[id].connectionId != 0
  }

  lemma AddedStaysNonZero(t: Table, connectionId: nat)
    requires NonZero(t) && connectionId != 0
    ensures NonZero(Added(t, connectionId).0)
  {
    hide NewId;
  }

  // ----- Runs -----

  /** The events of a server: starting and stopping it, a client accepted under the next connection id,
      a connection lost, and the game thread entering and leaving its loop. */
  datatype ServerStep = StartServer | StopServer | Accept | Lost(connectionId: nat) | GameBegins | GameEnds

  ghost function Next(s: ServerState, step: ServerStep): ServerState {
    match step
    case StartServer => if s.handler then s else s.(handler := true, running := true)
    case StopServer => s.(running := false, game := s.game.(players := map[], thread := NoThread))
    case Accept => if s.running then ClientConnected(s, s.nextConnection).(nextConnection := s.nextConnection + 1) else s
    case Lost(c) => if s.running then ClientDisconnected(s, c) else s
    case GameBegins => if s.game.thread == Started then s.(game := s.game.(thread := Playing)) else s
    case GameEnds => if s.game.thread == Playing then s.(game := s.game.(thread := Finished)) else s
  }

  /** The process-wide counters as a server finds them: earlier servers of the process may have used ids. */
  datatype Counters = Counters(nextSessionId: nat, nextConnection: nat)

  /** The server has found usable counters and the transport has not come to wrap around its own. */
  predicate CountersLast(ids: Counters, s: ServerState) {
    IsId(ids.nextSessionId) && 1 <= ids.nextConnection && s.nextConnection < UINT32
  }

  function NewServer(ids: Counters): ServerState {
    ServerState(Table(map[], map[], ids.nextSessionId), GameSide(map[], NoThread, 0), false, false, ids.nextConnection)
  }

  ghost function ServerRun(ids: Counters, steps: seq<ServerStep>): ServerState {
    if steps == [] then NewServer(ids) else Next(ServerRun(ids, steps[..|steps| - 1]), steps[|steps| - 1])
  }

  /** No two active sessions hold the same colour. */
  ghost predicate OneEach(t: Table) {
    forall a, b, seat :: IsPlayer(seat) && Holds(t, a, seat) && Holds(t, b, seat) ==> a == b
  }

  /** Every player of the game is the active session in that seat. */
  ghost predicate PlayersSeated(t: Table, g: GameSide) {
    forall p :: p in g.players ==> Holds(t, g.players[p], SeatOf(p))
  }

  /** The game has been announced at most once: not before its thread exists, and never again. */
  ghost predicate AnnouncedOnce(g: GameSide, running: bool) {
    && g.configs <= 1
    && (g.thread != NoThread ==> g.configs == 1)
    && (running && g.thread == NoThread ==> g.configs == 0)
  }

  /** Every active session in a colour's seat plays that colour. */
  ghost predicate AllJoined(t: Table, g: GameSide) {
    forall id, seat :: IsPlayer(seat) && Holds(t, id, seat) ==>
      PlayerOf(seat) in g.players && g.players[PlayerOf(seat)] == id
  }

  /** Before its game starts, a server has seated everyone it could and still lacks a player. */
  ghost predicate Waiting(t: Table, g: GameSide) {
    AllJoined(t, g) && !(Player.Black in g.players && Player.White in g.players)
  }

  ghost predicate GoodServer(s: ServerState) {
    && Inverse(s.table) && NonZero(s.table)
    && (forall c :: c in s.table.connections ==> c < s.nextConnection)
    && s.nextConnection >= 1
    && |s.table.sessions| < s.nextConnection
    && OneEach(s.table)
    && PlayersSeated(s.table, s.game)
    && (s.running ==> s.handler)
    && (!s.handler ==> s.game.configs == 0 && s.table.sessions == map[] && s.game.players == map[])
    && AnnouncedOnce(s.game, s.running)
    && (s.running && s.game.thread == NoThread ==> Waiting(s.table, s.game))
  }

  /** Two distinct active sessions hold the two colours and are the players. */
  ghost predicate BothSeated(t: Table, g: GameSide) {
    && Player.Black in g.players && Player.White in g.players
    && g.players[Player.Black] != g.players[Player.White]
    && Holds(t, g.players[Player.Black], BlackSeat) && Holds(t, g.players[Player.White], WhiteSeat)
  }

  lemma SeatingIsFair(t: Table, id: nat)
    requires OneEach(t) && id in t.sessions && t.sessions[id].seat == NoSeat
    ensures OneEach(Seated(t, id, FreeSeat(t)))
    ensures forall other, seat :: other != id ==> (Holds(Seated(t, id, FreeSeat(t)), other, seat) <==> Holds(t, other, seat))
  {
    var seated := Seated(t, id, FreeSeat(t));
    forall a, b, seat | IsPlayer(seat) && Holds(seated, a, seat) && Holds(seated, b, seat) ensures a == b {
      assert a != id ==> Holds(t, a, seat);
      assert b != id ==> Holds(t, b, seat);
    }
  }

  lemma JoiningIsFair(t: Table, g: GameSide, id: nat, seat: Seat)
    requires PlayersSeated(t, g) && AnnouncedOnce(g, true) && Holds(t, id, seat)
    ensures PlayersSeated(t, Joined(g, id, seat)) && AnnouncedOnce(Joined(g, id, seat), true)
    ensures Joined(g, id, seat).configs > g.configs ==> BothSeated(t, Joined(g, id, seat))
  {
    if IsPlayer(seat) {
      TwoPlayersAreBoth(g.players[PlayerOf(seat) := id]);
    }
  }

  lemma SubsetOfOne(players: set<Player>, p: Player)
    requires players <= {p}
    ensures |players| <= 1
  {
    if p in players {
      assert players == {p};
    } else {
      assert players == {};
    }
  }

  lemma AddedIsFair(t: Table, g: GameSide, c: nat)
    requires Inverse(t) && OneEach(t) && PlayersSeated(t, g) && |t.sessions| < IDS && c !in t.connections
    ensures
      var (added, id) := Added(t, c);
      OneEach(added) && PlayersSeated(added, g) && id in added.sessions
      && added.sessions[id] == SessionContext(c, id, NoSeat, true)
      && forall p :: p in g.players ==> g.players[p] != id
  {
    hide Inverse, NewId;
    NewConnection(t, c);
    var added := Added(t, c).0;
    forall a, seat | IsPlayer(seat) && Holds(added, a, seat) ensures Holds(t, a, seat) {
    }
    forall p | p in g.players ensures Holds(added, g.players[p], SeatOf(p)) {
      assert Holds(t, g.players[p], SeatOf(p));
    }
  }

  lemma TwoPlayersAreBoth(players: map<Player, nat>)
    ensures |players| == 2 <==> Player.Black in players && Player.White in players
  {
    forall p | p in players.Keys ensures p in {Player.Black, Player.White} {
      if p.Black? {
        assert p == Player.Black;
      } else {
        assert p == Player.White;
      }
    }
    if Player.Black !in players {
      SubsetOfOne(players.Keys, Player.White);
    } else if Player.White !in players {
      SubsetOfOne(players.Keys, Player.Black);
    } else {
      assert players.Keys == {Player.Black, Player.White};
    }
  }

  /** The new session either plays or finds both seats taken; with two players the game starts. */
  lemma WaitingOrStarted(t: Table, g: GameSide, c: nat)
    requires Inverse(t) && PlayersSeated(t, g) && |t.sessions| < IDS && c !in t.connections
    requires g.thread == NoThread && Waiting(t, g)
    ensures
      var (added, id) := Added(t, c);
      var seat := FreeSeat(added);
      Joined(g, id, seat).thread == NoThread ==> Waiting(Seated(added, id, seat), Joined(g, id, seat))
  {
    hide Inverse, NewId;
    NewConnection(t, c);
    var (added, id) := Added(t, c);
    var seat := FreeSeat(added);
    var seated, joined := Seated(added, id, seat), Joined(g, id, seat);
    forall p | p in g.players ensures Holds(added, g.players[p], SeatOf(p)) {
      assert Holds(t, g.players[p], SeatOf(p));
    }
    assert IsPlayer(seat) ==> PlayerOf(seat) !in g.players;
    forall other, taken | IsPlayer(taken) && other != id && Holds(seated, other, taken) ensures Holds(t, other, taken) {
    }
    if IsPlayer(seat) {
      TwoPlayersAreBoth(g.players[PlayerOf(seat) := id]);
    }
  }

  lemma WaitingAfterLoss(t: Table, g: GameSide, id: nat)
    requires PlayersSeated(t, g) && Waiting(t, g) && id in t.sessions
    ensures Waiting(Disconnected(t, id), if IsPlayer(t.sessions[id].seat) then Left(g, id) else g)
  {
    forall a, seat | Holds(Disconnected(t, id), a, seat) ensures a != id && Holds(t, a, seat) {
    }
  }

  lemma AcceptIsGood(s: ServerState)
    requires GoodServer(s) && s.running && s.nextConnection <= IDS
    ensures GoodServer(Next(s, Accept))
    ensures Next(s, Accept).game.configs > s.game.configs ==> BothSeated(Next(s, Accept).table, Next(s, Accept).game)
  {
    hide Inverse, NewId, Joined, FreeSeat, OneEach, PlayersSeated, AnnouncedOnce, BothSeated, Waiting;
    var c := s.nextConnection;
    if s.game.thread == NoThread {
      WaitingOrStarted(s.table, s.game, c);
    }
    NewConnection(s.table, c);
    AddedIsFair(s.table, s.game, c);
    var (added, id) := Added(s.table, c);
    var seat := FreeSeat(added);
    UpdateKeepsInverse(added, id, added.sessions[id].(seat := seat));
    SeatingIsFair(added, id);
    SeatedPlayersStay(added, s.game, id, seat);
    JoiningIsFair(Seated(added, id, seat), s.game, id, seat);
    ThreadStays(s.game, id, seat);
  }

  lemma ThreadStays(g: GameSide, id: nat, seat: Seat)
    ensures g.thread != NoThread ==> Joined(g, id, seat).thread == g.thread
  {
  }

  lemma SeatedPlayersStay(t: Table, g: GameSide, id: nat, seat: Seat)
    requires PlayersSeated(t, g) && forall p :: p in g.players ==> g.players[p] != id
    ensures PlayersSeated(Seated(t, id, seat), g)
  {
  }

  lemma PlayersAreDistinct(t: Table, g: GameSide)
    requires PlayersSeated(t, g)
    ensures Distinct(g.players)
  {
  }

  lemma LosingIsFair(t: Table, g: GameSide, id: nat)
    requires OneEach(t) && PlayersSeated(t, g) && id in t.sessions
    ensures OneEach(Disconnected(t, id))
    ensures PlayersSeated(Disconnected(t, id), if IsPlayer(t.sessions[id].seat) then Left(g, id) else g)
  {
    var after := Disconnected(t, id);
    forall a, seat | Holds(after, a, seat) ensures a != id && Holds(t, a, seat) {
    }
    forall p | p in g.players && g.players[p] != id ensures Holds(after, g.players[p], SeatOf(p)) {
      assert Holds(t, g.players[p], SeatOf(p));
    }
  }

  lemma LostIsGood(s: ServerState, c: nat)
    requires GoodServer(s) && s.running
    ensures GoodServer(Next(s, Lost(c)))
    ensures Next(s, Lost(c)).game.configs == s.game.configs && Next(s, Lost(c)).nextConnection == s.nextConnection
  {
    hide OneEach, PlayersSeated, Left, Waiting, AnnouncedOnce, Inverse;
    LostAnnouncesNothing(s.game, s.running);
    if c in s.table.connections {
      var id := s.table.connections[c];
      KnownConnection(s.table, c);
      LosingIsFair(s.table, s.game, id);
      if s.game.thread == NoThread {
        WaitingAfterLoss(s.table, s.game, id);
      }
      UpdateKeepsInverse(s.table, id, s.table.sessions[id].(isActive := false));
    }
  }

  lemma LostAnnouncesNothing(g: GameSide, running: bool)
    ensures forall id :: Left(g, id).thread == g.thread && Left(g, id).configs == g.configs
    ensures AnnouncedOnce(g, running) ==> forall id :: AnnouncedOnce(Left(g, id), running)
  {
  }

  lemma KnownConnection(t: Table, c: nat)
    requires Inverse(t) && c in t.connections
    ensures t.connections[c] != 0 && t.connections[c] in t.sessions
    ensures t.sessions[t.connections[c]].connectionId == c && t.sessions[t.connections[c]].sessionId == t.connections[c]
  {
  }

  lemma NextIsGood(s: ServerState, step: ServerStep)
    requires GoodServer(s) && s.nextConnection <= IDS
    ensures GoodServer(Next(s, step))
    ensures Next(s, step).nextConnection <= s.nextConnection + 1
    ensures Next(s, step).game.configs > s.game.configs ==> BothSeated(Next(s, step).table, Next(s, step).game)
  {
    hide Inverse, OneEach, ClientConnected, ClientDisconnected, BothSeated;
    match step
    case Accept => if s.running { AcceptIsGood(s); }
    case Lost(c) => if s.running { LostIsGood(s, c); }
    case StartServer =>
    case StopServer =>
    case GameBegins =>
    case GameEnds =>
  }

  // ----- What connecting and disconnecting do -----

  /** The new session sits in the first of the two colours' seats that no active session held, else it observes. */
  ghost predicate TakesFirstFree(t: Table, next: Table, id: nat) {
    if forall other :: !Holds(t, other, BlackSeat) then Holds(next, id, BlackSeat)
    else if forall other :: !Holds(t, other, WhiteSeat) then Holds(next, id, WhiteSeat)
    else Holds(next, id, Observer)
  }

  /** A new session has no seat yet, so it takes none. */
  lemma SameSeatsTaken(t: Table, c: nat)
    requires Inverse(t) && |t.sessions| < IDS && c !in t.connections
    ensures forall id, seat :: IsPlayer(seat) ==> (Holds(Added(t, c).0, id, seat) <==> Holds(t, id, seat))
  {
    hide Inverse, NewId;
    NewConnection(t, c);
  }

  lemma SeatedApart(t: Table, c: nat)
    requires Inverse(t) && |t.sessions| < IDS && c !in t.connections
    ensures
      var (added, id) := Added(t, c);
      var next := Seated(added, id, FreeSeat(added));
      && id !in t.sessions && c in next.connections && next.connections[c] == id
      && SameBut(t, next, id, c)
      && TakesFirstFree(t, next, id) && Holds(next, id, FreeSeat(added))
      && (IsPlayer(FreeSeat(added)) ==> !Taken(t, FreeSeat(added)))
  {
    hide Inverse, NewId;
    NewConnection(t, c);
    SameSeatsTaken(t, c);
    var added := Added(t, c).0;
    assert Taken(added, BlackSeat) <==> Taken(t, BlackSeat);
    assert Taken(added, WhiteSeat) <==> Taken(t, WhiteSeat);
  }

  /** The players and the thread after a session has come to a free seat. */
  ghost predicate JoinsIn(g: GameSide, next: GameSide, id: nat, seat: Seat) {
    var starts := g.thread == NoThread && Player.Black in next.players && Player.White in next.players;
    && (forall p :: p in next.players <==> p in g.players || (seat == SeatOf(p) && g.thread != Playing))
    && (forall p :: p in next.players ==> next.players[p] == if p in g.players then g.players[p] else id)
    && next.thread == (if starts then Started else g.thread)
    && next.configs == (if starts then g.configs + 1 else g.configs)
  }

  lemma JoinedJoinsIn(g: GameSide, id: nat, seat: Seat)
    requires IsPlayer(seat) ==> PlayerOf(seat) !in g.players
    requires g.thread == NoThread ==> !(Player.Black in g.players && Player.White in g.players)
    ensures JoinsIn(g, Joined(g, id, seat), id, seat)
  {
    if IsPlayer(seat) {
      TwoPlayersAreBoth(g.players[PlayerOf(seat) := id]);
    }
  }

  lemma PlayersTakeSeats(t: Table, g: GameSide, player: Player)
    requires PlayersSeated(t, g)
    ensures player in g.players ==> Taken(t, SeatOf(player))
  {
  }

  /** A client that is accepted gets a session of its own in the first free seat, and all others stay. It plays
      the colour of its seat unless a game is being played; with it as second player the game starts. */
  lemma AcceptedClient(s: ServerState)
    requires GoodServer(s) && s.running && s.nextConnection <= IDS
    ensures
      var next, c := Next(s, Accept), s.nextConnection;
      && c !in s.table.connections && c in next.table.connections && next.nextConnection == c + 1
      && next.running && next.handler
      && var id := next.table.connections[c];
        && id !in s.table.sessions && SameBut(s.table, next.table, id, c)
        && TakesFirstFree(s.table, next.table, id)
        && JoinsIn(s.game, next.game, id, SeatAt(next.table, c))
  {
    hide Inverse, NewId, OneEach, AnnouncedOnce, SameBut, Joined, JoinsIn, TakesFirstFree, FreeSeat, AllJoined;
    var c := s.nextConnection;
    NewConnection(s.table, c);
    SeatedApart(s.table, c);
    var (added, id) := Added(s.table, c);
    var seat := FreeSeat(added);
    PlayersTakeSeats(s.table, s.game, PlayerOf(seat));
    JoinedJoinsIn(s.game, id, seat);
  }

  /** A connection that is lost leaves its session inactive and its seat free, and whatever colour the session
      played is without a player. Every other session and player stays. */
  lemma LostClient(s: ServerState, c: nat)
    requires GoodServer(s) && s.running && c in s.table.connections
    ensures
      var next, id := Next(s, Lost(c)), s.table.connections[c];
      && id in next.table.sessions && !next.table.sessions[id].isActive
      && SameBut(s.table, next.table, id, c) && next.table.connections == s.table.connections
      && (forall other, seat :: Holds(next.table, other, seat) <==> other != id && Holds(s.table, other, seat))
      && (forall p :: p in next.game.players <==> p in s.game.players && s.game.players[p] != id)
      && (forall p :: p in next.game.players ==> next.game.players[p] == s.game.players[p])
      && next.game.thread == s.game.thread && next.game.configs == s.game.configs
      && next.running && next.handler && next.nextConnection == s.nextConnection
  {
    hide OneEach, Waiting, AnnouncedOnce, NonZero;
    KnownConnection(s.table, c);
    PlayersAreDistinct(s.table, s.game);
    var id := s.table.connections[c];
    forall p | p in s.game.players && s.game.players[p] == id ensures s.table.sessions[id].seat == SeatOf(p) {
      assert Holds(s.table, id, SeatOf(p));
    }
  }

  ghost predicate IsActive(t: Table, connectionId: nat) {
    && connectionId in t.connections && t.connections[connectionId] in t.sessions
    && t.sessions[t.connections[connectionId]].isActive
  }

  /** Connections come by being accepted and stay known; their sessions are active until they are lost. */
  lemma StepOnConnections(s: ServerState, step: ServerStep, c: nat)
    requires GoodServer(s) && s.nextConnection <= IDS
    ensures
      var accepted := s.running && step == Accept && c == s.nextConnection;
      && (c in Next(s, step).table.connections <==> c in s.table.connections || accepted)
      && (IsActive(Next(s, step).table, c) <==> (IsActive(s.table, c) && !(s.running && step == Lost(c))) || accepted)
  {
    hide OneEach, Waiting, AnnouncedOnce, NonZero, ClientConnected, ClientDisconnected, TakesFirstFree, JoinsIn, PlayersSeated;
    match step
    case Accept => if s.running {
      AcceptedIsActive(s);
      if c != s.nextConnection {
        AcceptedOnConnections(s, c);
      }
    }
    case Lost(lost) => if s.running { LostOnConnections(s, lost, c); }
    case _ =>
  }

  lemma AcceptedIsActive(s: ServerState)
    requires GoodServer(s) && s.running && s.nextConnection <= IDS
    ensures IsActive(Next(s, Accept).table, s.nextConnection) && s.nextConnection !in s.table.connections
  {
    hide GoodServer, Next, JoinsIn, SameBut;
    AcceptedClient(s);
  }

  lemma AcceptedOnConnections(s: ServerState, c: nat)
    requires GoodServer(s) && s.running && s.nextConnection <= IDS && c != s.nextConnection
    ensures
      && (c in Next(s, Accept).table.connections <==> c in s.table.connections)
      && (IsActive(Next(s, Accept).table, c) <==> IsActive(s.table, c))
  {
    hide OneEach, Waiting, AnnouncedOnce, NonZero, Next, TakesFirstFree, JoinsIn, PlayersSeated;
    AcceptedClient(s);
    if c in s.table.connections {
      KnownConnection(s.table, c);
    }
  }

  lemma LostOnConnections(s: ServerState, lost: nat, c: nat)
    requires GoodServer(s) && s.running
    ensures
      && (c in Next(s, Lost(lost)).table.connections <==> c in s.table.connections)
      && (IsActive(Next(s, Lost(lost)).table, c) <==> IsActive(s.table, c) && c != lost)
  {
    hide OneEach, Waiting, AnnouncedOnce, NonZero, PlayersSeated;
    if lost in s.table.connections {
      LostClient(s, lost);
      KnownConnection(s.table, lost);
    }
  }

  lemma ConnectionsOnlyGrow(s: ServerState, step: ServerStep)
    ensures s.nextConnection <= Next(s, step).nextConnection
  {
  }

  /** Over every run of a server, wherever the id counters start and before connection ids wrap around: no
      two active sessions hold one colour, every player of the game is the active session in its seat, the
      two maps stay inverse, and the game has been announced, with its thread started, at most once. */
  lemma {:induction false} EveryServerRunIsGood(ids: Counters, steps: seq<ServerStep>)
    requires CountersLast(ids, ServerRun(ids, steps))
    ensures GoodServer(ServerRun(ids, steps))
  {
    hide Next;
    if steps == [] {
      assert ServerRun(ids, steps) == NewServer(ids);
    } else {
      hide GoodServer;
      ConnectionsOnlyGrow(ServerRun(ids, steps[..|steps| - 1]), steps[|steps| - 1]);
      EveryServerRunIsGood(ids, steps[..|steps| - 1]);
      NextIsGood(ServerRun(ids, steps[..|steps| - 1]), steps[|steps| - 1]);
    }
  }

  /** The one step that announces a game leaves two distinct active sessions in the two seats. */
  lemma GameStartsWithTwoPlayers(ids: Counters, steps: seq<ServerStep>, step: ServerStep)
    requires CountersLast(ids, ServerRun(ids, steps + [step]))
    ensures
      var s := ServerRun(ids, steps);
      var next := ServerRun(ids, steps + [step]);
      && s.game.configs <= next.game.configs <= 1
      && (next.game.configs > s.game.configs ==>
            BothSeated(next.table, next.game) && s.game.thread == NoThread && next.game.thread == Started)
  {
    hide BothSeated, Inverse, Next;
    assert (steps + [step])[..|steps|] == steps;
    ConnectionsOnlyGrow(ServerRun(ids, steps), step);
    EveryServerRunIsGood(ids, steps);
    EveryServerRunIsGood(ids, steps + [step]);
    NextIsGood(ServerRun(ids, steps), step);
    ConfigsOnlyGrow(ServerRun(ids, steps), step);
  }

  /** A running server whose game has not started is waiting for a player: whoever holds a seat plays, and
      the two seats are never both held without a game. */
  lemma NoGameIsWithheld(ids: Counters, steps: seq<ServerStep>)
    requires CountersLast(ids, ServerRun(ids, steps))
    requires ServerRun(ids, steps).running && ServerRun(ids, steps).game.thread == NoThread
    ensures
      var s := ServerRun(ids, steps);
      && AllJoined(s.table, s.game)
      && !(Taken(s.table, BlackSeat) && Taken(s.table, WhiteSeat))
  {
    hide ServerRun, Inverse, OneEach;
    EveryServerRunIsGood(ids, steps);
  }

  lemma ConfigsOnlyGrow(s: ServerState, step: ServerStep)
    ensures s.game.configs <= Next(s, step).game.configs
    ensures Next(s, step).game.configs > s.game.configs ==> s.game.thread == NoThread && Next(s, step).game.thread == Started
  {
  }

  /** In every run, at most one connection with an active session can act for a colour, by a put, a pass
      or a resignation. */
  lemma OneVoicePerColour(ids: Counters, steps: seq<ServerStep>, a: nat, b: nat, message: Json, other: Json)
    requires CountersLast(ids, ServerRun(ids, steps))
    requires IsActive(ServerRun(ids, steps).table, a) && Forwarded(ServerRun(ids, steps), a, message).Some?
    requires IsActive(ServerRun(ids, steps).table, b) && Forwarded(ServerRun(ids, steps), b, other).Some?
    requires SeatAt(ServerRun(ids, steps).table, a) == SeatAt(ServerRun(ids, steps).table, b)
    ensures a == b
  {
    hide ServerRun, DecodeClient;
    EveryServerRunIsGood(ids, steps);
    var t := ServerRun(ids, steps).table;
    assert Holds(t, t.connections[a], SeatAt(t, a)) && Holds(t, t.connections[b], SeatAt(t, a));
  }

  /** A second connect on a connection the server knows gives its session a free seat. The players still
      sit where they play if and only if that session played no colour before. */
  lemma ReconnectIsSafeExactly(s: ServerState, c: nat)
    requires GoodServer(s) && s.running && c in s.table.connections
    ensures
      var next := ClientConnected(s, c);
      && OneEach(next.table)
      && (PlayersSeated(next.table, next.game) <==> !PlaysSome(s.game.players, s.table.connections[c]))
  {
    hide AnnouncedOnce, Waiting, NonZero;
    var id := s.table.connections[c];
    var added := Added(s.table, c).0;
    var seat := FreeSeat(added);
    var next := ClientConnected(s, c);
    forall a, taken | a != id ensures Holds(next.table, a, taken) <==> Holds(s.table, a, taken) {
    }
    forall a, taken | a != id && Holds(s.table, a, taken) ensures IsPlayer(taken) ==> taken != seat {
      assert Holds(added, a, taken);
    }
    if p :| p in s.game.players && s.game.players[p] == id {
      assert Holds(s.table, id, SeatOf(p)) && Holds(added, id, SeatOf(p));
      assert p in next.game.players && next.game.players[p] == id;
      assert !Holds(next.table, id, SeatOf(p));
    }
  }

  /** A fact about processClientConnect, which the transport does not bring about since it repeats no id: called
      again for the connection of a server's only player, it seats that session in the other colour as well,
      and the game starts with one session playing both. */
  lemma ReconnectSeatsOneSessionTwice(s: ServerState, c: nat, player: Player)
    requires GoodServer(s) && s.running && s.game.thread == NoThread && c in s.table.connections
    requires s.game.players == map[player := s.table.connections[c]]
    ensures
      var id := s.table.connections[c];
      ClientConnected(s, c).game == GameSide(map[player := id, Opponent(player) := id], Started, s.game.configs + 1)
  {
    hide AnnouncedOnce, NonZero, OneEach;
    var id := s.table.connections[c];
    var added := Added(s.table, c).0;
    assert Holds(s.table, id, SeatOf(player));
    assert added.sessions == s.table.sessions;
    assert Holds(added, id, SeatOf(player));
    forall other ensures !Holds(added, other, SeatOf(Opponent(player))) {
      assert !Holds(s.table, other, SeatOf(Opponent(player)));
    }
    assert FreeSeat(added) == SeatOf(Opponent(player));
    TwoPlayersAreBoth(s.game.players[Opponent(player) := id]);
  }
}
