/** Whole runs of the server: the thread keeps step with the game, the queue is played to its end, a stop ends
    everything, and two clients can play any game. */
module ServerPlay {
  import opened Model
  import opened Zobrist
  import opened GameSpec
  import opened GameTheorems
  import opened Wire
  import opened Sessions
  import opened Seating
  import opened ServerGame

  // ----- The thread and the game -----

  /** The game is active while its thread is in the loop, over when the thread has left it, and not begun before. */
  ghost predicate InStep(keys: Keys, size: nat, s: SystemState)
    requires s.handled <= |s.pushed|
  {
    && (s.server.game.thread == Playing ==> GameIn(keys, size, s).state.active)
    && (s.server.game.thread == Finished ==> !GameIn(keys, size, s).state.active)
    && (s.server.game.thread == Started ==> s.pushed == [])
    && (s.server.game.thread == NoThread ==> s.pushed == [] || (!s.server.running && !GameIn(keys, size, s).state.active))
    && (!s.server.running ==> s.server.game.thread == NoThread)
    && (!s.server.handler ==> !s.server.running && s.pushed == [])
  }

  /** Events behind the end of a game change nothing. */
  lemma EndedGame(keys: Keys, size: nat, events: seq<GameEvent>, more: seq<GameEvent>)
    requires !GameOf(keys, size, events).state.active
    ensures GameOf(keys, size, events + more) == GameOf(keys, size, events)
  {
    hide Step;
    RunInBatches(keys, size, Start(), events, more);
  }

  lemma ShutDownGame(keys: Keys, size: nat, events: seq<GameEvent>)
    ensures !GameOf(keys, size, events + [Shutdown]).state.active
  {
    hide Run;
    if GameOf(keys, size, events).state.active {
      ShutdownEndsTheGame(keys, size, events);
    } else {
      EndedGame(keys, size, events, [Shutdown]);
    }
  }

  lemma StopKeepsStep(keys: Keys, size: nat, s: SystemState, at: nat)
    requires s.handled <= |s.pushed| && InStep(keys, size, s)
    ensures InStep(keys, size, SystemNext(keys, size, s, OnServer(StopServer), at))
  {
    hide GameOf;
    if s.server.game.thread != NoThread {
      var next := SystemNext(keys, size, s, OnServer(StopServer), at);
      ShutDownGame(keys, size, Values(s.pushed));
      assert Values(next.pushed[..next.handled]) == Values(s.pushed) + [Shutdown];
    }
  }

  lemma MessageKeepsStep(keys: Keys, size: nat, s: SystemState, c: nat, message: Json, at: nat)
    requires s.handled <= |s.pushed| && InStep(keys, size, s)
    ensures InStep(keys, size, SystemNext(keys, size, s, Message(c, message), at))
  {
    hide GameOf, DecodeClient, SeatAt, Spoken;
    var next := SystemNext(keys, size, s, Message(c, message), at);
    assert next.pushed[..next.handled] == s.pushed[..s.handled];
  }

  lemma StepKeepsStep(keys: Keys, size: nat, s: SystemState, step: SystemStep, at: nat)
    requires s.handled <= |s.pushed| && InStep(keys, size, s)
    ensures InStep(keys, size, SystemNext(keys, size, s, step, at))
  {
    hide Step, ClientConnected, ClientDisconnected, Forwarded, Spoken;
    match step
    case OnServer(StopServer) => StopKeepsStep(keys, size, s, at);
    case OnServer(other) => ServerKeepsStep(keys, size, s, other, at);
    case Message(c, message) => MessageKeepsStep(keys, size, s, c, message, at);
    case HandleNext => hide GameIn;
  }

  lemma ServerKeepsStep(keys: Keys, size: nat, s: SystemState, step: ServerStep, at: nat)
    requires s.handled <= |s.pushed| && InStep(keys, size, s) && step != StopServer
    ensures InStep(keys, size, SystemNext(keys, size, s, OnServer(step), at))
  {
    hide Step, Added, FreeSeat, Disconnected;
    var next := SystemNext(keys, size, s, OnServer(step), at);
    assert next.pushed == s.pushed && next.handled == s.handled;
  }

  lemma {:induction false} ThreadKeepsStep(keys: Keys, size: nat, ids: Counters, steps: seq<SystemStep>)
    ensures InStep(keys, size, SystemRun(keys, size, ids, steps))
  {
    hide SystemNext, GameIn;
    if steps == [] {
    } else {
      var init := steps[..|steps| - 1];
      ThreadKeepsStep(keys, size, ids, init);
      StepKeepsStep(keys, size, SystemRun(keys, size, ids, init), steps[|steps| - 1], |steps| - 1);
    }
  }

  lemma OneMoreStep(keys: Keys, size: nat, ids: Counters, steps: seq<SystemStep>, step: SystemStep)
    ensures SystemRun(keys, size, ids, steps + [step]) ==
            SystemNext(keys, size, SystemRun(keys, size, ids, steps), step, |steps|)
  {
    hide SystemNext;
    assert (steps + [step])[..|steps|] == steps;
  }

  // ----- The queue is played to its end -----

  /** The game thread takes the next event, n times. */
  function Handling(n: nat): (steps: seq<SystemStep>)
    ensures |steps| == n && forall i :: 0 <= i < n ==> steps[i] == HandleNext
  {
    seq(n, _ => HandleNext)
  }

  /** Taking an event goes one event on in the game, and does nothing once the game is over. */
  lemma TakesOne(keys: Keys, size: nat, s: SystemState, at: nat)
    requires s.handled < |s.pushed| && InStep(keys, size, s)
    requires s.server.game.thread == Playing || s.server.game.thread == Finished
    ensures
      var next := SystemNext(keys, size, s, HandleNext, at);
      && next.pushed == s.pushed && next.said == s.said
      && next.server == s.server.(game := s.server.game.(thread := next.server.game.thread))
      && (next.server.game.thread == Playing || next.server.game.thread == Finished)
      && GameIn(keys, size, next) == GameOf(keys, size, Values(s.pushed[..s.handled + 1]))
      && (next.server.game.thread == Playing ==> next.handled == s.handled + 1)
  {
    hide Run;
    if s.server.game.thread == Finished {
      EndedGame(keys, size, Values(s.pushed[..s.handled]), [s.pushed[s.handled].value]);
      assert Values(s.pushed[..s.handled + 1]) == Values(s.pushed[..s.handled]) + [s.pushed[s.handled].value];
    }
  }

  lemma {:induction false} PlayedToTheEnd(keys: Keys, size: nat, ids: Counters, steps: seq<SystemStep>, n: nat)
    requires
      var s := SystemRun(keys, size, ids, steps);
      && |s.pushed| - s.handled <= n
      && (s.server.game.thread == Playing || s.server.game.thread == Finished)
    ensures
      var s := SystemRun(keys, size, ids, steps);
      var next := SystemRun(keys, size, ids, steps + Handling(n));
      next.pushed == s.pushed && GameIn(keys, size, next) == GameOf(keys, size, Values(s.pushed))
    decreases n
  {
    hide SystemRun, SystemNext, GameOf;
    var s := SystemRun(keys, size, ids, steps);
    ThreadKeepsStep(keys, size, ids, steps);
    if s.handled == |s.pushed| {
      NothingLeft(keys, size, ids, steps, n);
      assert s.pushed[..s.handled] == s.pushed;
    } else {
      OneMoreStep(keys, size, ids, steps, HandleNext);
      TakesOne(keys, size, s, |steps|);
      assert steps + Handling(n) == steps + [HandleNext] + Handling(n - 1);
      if SystemRun(keys, size, ids, steps + [HandleNext]).server.game.thread == Playing {
        PlayedToTheEnd(keys, size, ids, steps + [HandleNext], n - 1);
      } else {
        OverAndDone(keys, size, ids, steps + [HandleNext], n - 1);
      }
    }
  }

  lemma {:induction false} NothingLeft(keys: Keys, size: nat, ids: Counters, steps: seq<SystemStep>, n: nat)
    requires
      var s := SystemRun(keys, size, ids, steps);
      s.handled == |s.pushed| || s.server.game.thread != Playing
    ensures SystemRun(keys, size, ids, steps + Handling(n)) == SystemRun(keys, size, ids, steps)
  {
    hide Next, Forwarded, Spoken, GameIn;
    if n == 0 {
      assert steps + Handling(0) == steps;
    } else {
      hide SystemRun;
      NothingLeft(keys, size, ids, steps, n - 1);
      assert steps + Handling(n) == steps + Handling(n - 1) + [HandleNext];
      OneMoreStep(keys, size, ids, steps + Handling(n - 1), HandleNext);
    }
  }

  /** A game that is over is what all that is queued makes of it. */
  lemma OverAndDone(keys: Keys, size: nat, ids: Counters, steps: seq<SystemStep>, n: nat)
    requires SystemRun(keys, size, ids, steps).server.game.thread == Finished
    ensures
      var s := SystemRun(keys, size, ids, steps);
      SystemRun(keys, size, ids, steps + Handling(n)) == s
      && GameIn(keys, size, s) == GameOf(keys, size, Values(s.pushed))
  {
    hide SystemRun, SystemNext, Run;
    var s := SystemRun(keys, size, ids, steps);
    NothingLeft(keys, size, ids, steps, n);
    ThreadKeepsStep(keys, size, ids, steps);
    EndedGame(keys, size, Values(s.pushed[..s.handled]), Values(s.pushed[s.handled..]));
    assert Values(s.pushed) == Values(s.pushed[..s.handled]) + Values(s.pushed[s.handled..]);
  }

  /** Once the thread has taken as many events as are queued, the game is the one that the whole queue gives. */
  lemma TheQueueIsPlayed(keys: Keys, size: nat, ids: Counters, steps: seq<SystemStep>)
    requires SystemRun(keys, size, ids, steps).server.game.thread == Playing
    ensures
      var s := SystemRun(keys, size, ids, steps);
      var next := SystemRun(keys, size, ids, steps + Handling(|s.pushed| - s.handled));
      next.pushed == s.pushed && GameIn(keys, size, next) == GameOf(keys, size, Values(s.pushed))
  {
    hide SystemRun, GameOf;
    var s := SystemRun(keys, size, ids, steps);
    PlayedToTheEnd(keys, size, ids, steps, |s.pushed| - s.handled);
  }

  // ----- The end -----

  ghost predicate Stopped(s: ServerState) {
    s.handler && !s.running && s.game.thread == NoThread && s.game.players == map[]
  }

  lemma StoppedStays(keys: Keys, size: nat, s: SystemState, step: SystemStep, at: nat)
    requires s.handled <= |s.pushed| && Stopped(s.server)
    ensures SystemNext(keys, size, s, step, at) == s
  {
    hide GameIn, Forwarded, Spoken, ClientConnected, ClientDisconnected;
  }

  /** Stopping a server that was started ends its game after all that is queued, and leaves no player. Nothing
      changes any more after that, not even by starting it again. */
  lemma {:induction false} NothingHappensAfterTheStop(keys: Keys, size: nat, ids: Counters, steps: seq<SystemStep>,
                                                      more: seq<SystemStep>)
    requires SystemRun(keys, size, ids, steps).server.handler
    ensures
      var s := SystemRun(keys, size, ids, steps);
      var stopped := SystemRun(keys, size, ids, steps + [OnServer(StopServer)]);
      && Stopped(stopped.server) && stopped.server.table == s.server.table && stopped.said == s.said
      && SystemRun(keys, size, ids, steps + [OnServer(StopServer)] + more) == stopped
      && (s.server.game.thread != NoThread ==>
            && GameIn(keys, size, stopped) == GameOf(keys, size, Values(s.pushed) + [Shutdown])
            && !GameIn(keys, size, stopped).state.active)
  {
    hide SystemRun, GameOf;
    var s := SystemRun(keys, size, ids, steps);
    var stop := steps + [OnServer(StopServer)];
    OneMoreStep(keys, size, ids, steps, OnServer(StopServer));
    if s.server.game.thread != NoThread {
      var stopped := SystemRun(keys, size, ids, stop);
      ShutDownGame(keys, size, Values(s.pushed));
      assert Values(stopped.pushed[..stopped.handled]) == Values(s.pushed) + [Shutdown];
    }
    if more == [] {
      assert stop + more == stop;
    } else {
      var init, last := more[..|more| - 1], more[|more| - 1];
      NothingHappensAfterTheStop(keys, size, ids, steps, init);
      assert stop + more == stop + init + [last];
      OneMoreStep(keys, size, ids, stop + init, last);
      StoppedStays(keys, size, SystemRun(keys, size, ids, stop), last, |stop + init|);
    }
  }

  // ----- Two clients can play any game -----

  /** The server starts, two clients come, and the game begins. */
  function Opening(): seq<SystemStep> {
    [OnServer(StartServer), OnServer(Accept), OnServer(Accept), OnServer(GameBegins)]
  }

  /** The events that clients can ask for: any but the shutdown, with coordinates the wire carries. */
  predicate CanAsk(event: GameEvent) {
    match event
    case PutStone(_, c) => Fits32(c)
    case Shutdown => false
    case _ => true
  }

  /** The message with which a client asks for the event, from Black's connection or White's. */
  function Asking(ids: Counters, event: GameEvent): SystemStep
    requires CanAsk(event)
  {
    var white := ids.nextConnection + 1;
    match event
    case PutStone(player, c) =>
      Message(if player == Player.Black then ids.nextConnection else white, EncodeClient(ClientPutStone(c)))
    case PassTurn(player) => Message(if player == Player.Black then ids.nextConnection else white, EncodeClient(ClientPass))
    case Resign => Message(ids.nextConnection, EncodeClient(ClientResign))
  }

  /** Two clients come, and one after the other they ask for the events, each of which the thread then takes. */
  function Session(ids: Counters, events: seq<GameEvent>): seq<SystemStep>
    requires forall i :: 0 <= i < |events| ==> CanAsk(events[i])
  {
    if events == [] then Opening()
    else Session(ids, events[..|events| - 1]) + [Asking(ids, events[|events| - 1])] + [HandleNext]
  }

  /** A running server whose game is played or over, with the two players on the first two connections. */
  ghost predicate Seats(ids: Counters, s: ServerState) {
    && s.running && (s.game.thread == Playing || s.game.thread == Finished)
    && SeatAt(s.table, ids.nextConnection) == BlackSeat
    && SeatAt(s.table, ids.nextConnection + 1) == WhiteSeat
  }

  lemma OpeningOnServer(keys: Keys, size: nat, ids: Counters)
    ensures
      var ready := Next(Next(Next(Next(NewServer(ids), StartServer), Accept), Accept), GameBegins);
      SystemRun(keys, size, ids, Opening()) == SystemState(ready, [], 0, [])
  {
    hide Next;
    var start, accept, begin := OnServer(StartServer), OnServer(Accept), OnServer(GameBegins);
    assert SystemRun(keys, size, ids, []) == SystemState(NewServer(ids), [], 0, []);
    hide SystemRun;
    OneMoreStep(keys, size, ids, [], start);
    OneMoreStep(keys, size, ids, [] + [start], accept);
    OneMoreStep(keys, size, ids, [] + [start] + [accept], accept);
    OneMoreStep(keys, size, ids, [] + [start] + [accept] + [accept], begin);
    assert [] + [start] + [accept] + [accept] + [begin] == Opening();
  }

  /** The first two clients get Black and White, and the game is announced and begins. */
  lemma OpeningSeatsTwo(keys: Keys, size: nat, ids: Counters)
    requires IsId(ids.nextSessionId) && 1 <= ids.nextConnection && ids.nextConnection + 2 < UINT32
    ensures
      var s := SystemRun(keys, size, ids, Opening());
      Seats(ids, s.server) && s.server.game.thread == Playing && s.server.game.configs == 1 && s.pushed == []
  {
    hide Inverse, TakesFirstFree, JoinsIn, ClientConnected;
    OpeningOnServer(keys, size, ids);
    hide SystemRun;
    var started := Next(NewServer(ids), StartServer);
    var one := Next(started, Accept);
    var two := Next(one, Accept);
    NewServerIsGood(ids);
    NextIsGood(NewServer(ids), StartServer);
    FirstIsBlack(started);
    NextIsGood(started, Accept);
    SecondIsWhite(one, ids.nextConnection);
  }

  lemma NewServerIsGood(ids: Counters)
    requires IsId(ids.nextSessionId) && 1 <= ids.nextConnection
    ensures GoodServer(NewServer(ids))
  {
  }

  lemma FirstIsBlack(s: ServerState)
    requires GoodServer(s) && s.running && s.nextConnection <= IDS
    requires s.table.sessions == map[] && s.game == GameSide(map[], NoThread, 0)
    ensures
      var next, c := Next(s, Accept), s.nextConnection;
      && next.running && next.nextConnection == c + 1
      && c in next.table.connections && next.table.sessions.Keys == {next.table.connections[c]}
      && next.table.connections[c] != 0
      && Sessions.Holds(next.table, next.table.connections[c], BlackSeat)
      && next.game == GameSide(map[Player.Black := next.table.connections[c]], NoThread, 0)
  {
    hide Inverse, OneEach, PlayersSeated, Waiting, AnnouncedOnce, Next;
    AcceptedClient(s);
    var next, c := Next(s, Accept), s.nextConnection;
    NextIsGood(s, Accept);
    KnownConnection(next.table, c);
    assert next.game.players.Keys == {Player.Black};
  }

  lemma SecondIsWhite(s: ServerState, c: nat)
    requires GoodServer(s) && s.running && s.nextConnection <= IDS && c + 1 == s.nextConnection
    requires c in s.table.connections && s.table.sessions.Keys == {s.table.connections[c]}
    requires Sessions.Holds(s.table, s.table.connections[c], BlackSeat)
    requires s.game == GameSide(map[Player.Black := s.table.connections[c]], NoThread, 0)
    ensures
      var next := Next(s, Accept);
      && next.running && next.game.thread == Started && next.game.configs == 1
      && SeatAt(next.table, c) == BlackSeat && SeatAt(next.table, c + 1) == WhiteSeat
  {
    hide OneEach, PlayersSeated, Waiting, AnnouncedOnce, Next;
    AcceptedClient(s);
    var next := Next(s, Accept);
    NextIsGood(s, Accept);
    KnownConnection(s.table, c);
    KnownConnection(next.table, c + 1);
  }

  /** A client asks for an event and the thread takes it. */
  lemma AskedAndTaken(keys: Keys, size: nat, ids: Counters, steps: seq<SystemStep>, event: GameEvent)
    requires CanAsk(event)
    requires
      var s := SystemRun(keys, size, ids, steps);
      Seats(ids, s.server) && (s.server.game.thread == Playing ==> s.handled == |s.pushed|)
    ensures
      var s := SystemRun(keys, size, ids, steps);
      var next := SystemRun(keys, size, ids, steps + [Asking(ids, event)] + [HandleNext]);
      && Seats(ids, next.server)
      && (next.server.game.thread == Playing ==> next.handled == |next.pushed|)
      && (if s.server.game.thread == Playing
          then Values(next.pushed) == Values(s.pushed) + [event]
               && GameIn(keys, size, next) == GameOf(keys, size, Values(s.pushed) + [event])
          else next.server.game.thread == Finished && GameIn(keys, size, next) == GameIn(keys, size, s))
  {
    hide SystemRun, GameOf, SeatAt, Forwarded, Spoken, DecodeClient;
    var s, ask := SystemRun(keys, size, ids, steps), Asking(ids, event);
    OneMoreStep(keys, size, ids, steps, ask);
    OneMoreStep(keys, size, ids, steps + [ask], HandleNext);
    AskIsForwarded(ids, s.server, event);
    var asked := SystemRun(keys, size, ids, steps + [ask]);
    var next := SystemRun(keys, size, ids, steps + [ask] + [HandleNext]);
    if s.server.game.thread == Playing {
      assert Values(next.pushed) == Values(s.pushed) + [event];
      assert asked.pushed[..s.handled + 1] == asked.pushed;
    } else {
      assert asked.pushed == s.pushed;
    }
  }

  lemma AskIsForwarded(ids: Counters, s: ServerState, event: GameEvent)
    requires CanAsk(event) && Seats(ids, s)
    ensures
      var ask := Asking(ids, event);
      Forwarded(s, ask.connectionId, ask.message) == if s.game.thread == Playing then Some(event) else None
  {
    hide SeatAt, Forwarded, DecodeClient, EncodeClient;
    var ask := Asking(ids, event);
    match event {
      case PutStone(_, c) => ClientEventRoundTrip(ClientPutStone(c));
      case PassTurn(_) => ClientEventRoundTrip(ClientPass);
      case Resign => ClientEventRoundTrip(ClientResign);
    }
    if s.game.thread == Playing {
      MovesReachTheGame(s, ask.connectionId, ask.message, event);
    } else if Forwarded(s, ask.connectionId, ask.message).Some? {
      MovesReachTheGame(s, ask.connectionId, ask.message, Forwarded(s, ask.connectionId, ask.message).value);
    }
  }

  /** Any game of events that clients can ask for is played over the server, message by message. */
  lemma {:induction false} TwoClientsPlayAnyGame(keys: Keys, size: nat, ids: Counters, events: seq<GameEvent>)
    requires IsId(ids.nextSessionId) && 1 <= ids.nextConnection && ids.nextConnection + 2 < UINT32
    requires forall i :: 0 <= i < |events| ==> CanAsk(events[i])
    ensures
      var s := SystemRun(keys, size, ids, Session(ids, events));
      && GameIn(keys, size, s) == GameOf(keys, size, events)
      && Seats(ids, s.server)
      && (s.server.game.thread == Playing ==> s.handled == |s.pushed| && Values(s.pushed) == events)
  {
    hide SystemRun, Run, Seats, Asking;
    if events == [] {
      OpeningSeatsTwo(keys, size, ids);
    } else {
      var init, last := events[..|events| - 1], events[|events| - 1];
      TwoClientsPlayAnyGame(keys, size, ids, init);
      ThreadKeepsStep(keys, size, ids, Session(ids, init));
      AskedAndTaken(keys, size, ids, Session(ids, init), last);
      assert events == init + [last];
      if SystemRun(keys, size, ids, Session(ids, init)).server.game.thread != Playing {
        FinishedFromSeats(ids, SystemRun(keys, size, ids, Session(ids, init)).server);
        EndedGame(keys, size, init, [last]);
      }
    }
  }

  lemma FinishedFromSeats(ids: Counters, s: ServerState)
    requires Seats(ids, s) && s.game.thread != Playing
    ensures s.game.thread == Finished
  {
  }
}
