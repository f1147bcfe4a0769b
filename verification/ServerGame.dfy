/** The whole server: messages of seated sessions become events in the queue of the game and lines of the chat,
    and the game answers its events with its stream of deltas. */
module ServerGame {
  import opened Model
  import opened Zobrist
  import opened GameSpec
  import opened GameTheorems
  import opened Wire
  import opened Sessions
  import opened Seating
  import opened ChatLog

  // ----- Every delta answers an event -----

  /** The delta reports what the event asked for. */
  ghost predicate Answers(d: GameDelta, event: GameEvent) {
    match d.action
    case Place => d.coord.Some? && event == PutStone(d.player, d.coord.value)
    case Pass => event == PassTurn(d.player)
    case Resigned => event == Resign
  }

  ghost predicate Increasing(places: seq<nat>) {
    forall i, j :: 0 <= i < j < |places| ==> places[i] < places[j]
  }

  ghost predicate AnswersAt(deltas: seq<GameDelta>, events: seq<GameEvent>, places: seq<nat>) {
    && |places| == |deltas|
    && Increasing(places)
    && forall i :: 0 <= i < |places| ==> places[i] < |events| && Answers(deltas[i], events[places[i]])
  }

  /** A step sends nothing, or one delta that answers its event. */
  lemma StepAnswers(keys: Keys, size: nat, t: Trace, event: GameEvent)
    ensures
      var next := Step(keys, size, t, event);
      next.deltas == t.deltas
      || (|next.deltas| == |t.deltas| + 1 && next.deltas[..|t.deltas|] == t.deltas
          && Answers(next.deltas[|t.deltas|], event))
  {
    hide Accepts, After, HashAfterMove, Xor;
  }

  /** The deltas of a game answer events of its queue, in the order of the queue. */
  lemma {:induction false} DeltasAnswerEvents(keys: Keys, size: nat, events: seq<GameEvent>) returns (places: seq<nat>)
    ensures AnswersAt(GameOf(keys, size, events).deltas, events, places)
  {
    hide Step, Answers;
    if events == [] {
      places := [];
    } else {
      var init, last := events[..|events| - 1], events[|events| - 1];
      places := DeltasAnswerEvents(keys, size, init);
      var t := GameOf(keys, size, init);
      assert events == init + [last];
      RunInBatches(keys, size, Start(), init, [last]);
      if t.state.active {
        assert Run(keys, size, t, [last]) == Run(keys, size, Step(keys, size, t, last), []);
        StepAnswers(keys, size, t, last);
        if |GameOf(keys, size, events).deltas| > |t.deltas| {
          places := places + [|init|];
        }
      }
    }
  }

  // ----- Runs of the whole server -----

  /** A step of the server, a message that reaches it, or the game thread taking the next event. */
  datatype SystemStep = OnServer(step: ServerStep) | Message(connectionId: nat, message: Json) | HandleNext

  /** An event in the queue of the game, or a line of the chat, and the step of the run that put it there. */
  datatype Noted<T> = Noted(value: T, at: nat)

  datatype SystemState =
    SystemState(server: ServerState, pushed: seq<Noted<GameEvent>>, handled: nat, said: seq<Noted<ChatLine>>)

  function Values<T>(noted: seq<Noted<T>>): (values: seq<T>)
    ensures |values| == |noted| && forall i :: 0 <= i < |values| ==> values[i] == noted[i].value
  {
    seq(|noted|, i requires 0 <= i < |noted| => noted[i].value)
  }

  function Note<T>(given: Option<T>, at: nat): seq<Noted<T>> {
    if given.Some? then [Noted(given.value, at)] else []
  }

  /** What the steps of a run give, noted one after the other. */
  function NotedAll<T>(given: seq<Option<T>>): seq<Noted<T>> {
    if given == [] then [] else NotedAll(given[..|given| - 1]) + Note(given[|given| - 1], |given| - 1)
  }

  /** Everything that is given is noted once, in order, and nothing else. */
  ghost predicate IsNoted<T>(given: seq<Option<T>>, noted: seq<Noted<T>>) {
    && (forall i :: 0 <= i < |noted| ==> noted[i].at < |given| && given[noted[i].at] == Some(noted[i].value))
    && (forall at: nat :: at < |given| && given[at].Some? ==> Noted(given[at].value, at) in noted)
    && (forall i, j :: 0 <= i < j < |noted| ==> noted[i].at < noted[j].at)
  }

  lemma NoteOneMore<T>(given: seq<Option<T>>, noted: seq<Noted<T>>, next: Option<T>)
    requires IsNoted(given, noted)
    ensures IsNoted(given + [next], noted + Note(next, |given|))
  {
    var more, longer := given + [next], noted + Note(next, |given|);
    forall at: nat | at < |more| && more[at].Some? ensures Noted(more[at].value, at) in longer {
      if at < |given| {
        assert Noted(given[at].value, at) in noted;
      } else {
        assert longer[|noted|] == Noted(more[at].value, at);
      }
    }
  }

  lemma {:induction false} NotedExactly<T>(given: seq<Option<T>>)
    ensures IsNoted(given, NotedAll(given))
  {
    if given == [] {
    } else {
      hide IsNoted;
      var init, last := given[..|given| - 1], given[|given| - 1];
      NotedExactly(init);
      NoteOneMore(init, NotedAll(init), last);
      assert given == init + [last];
    }
  }

  /** The game as far as its thread has come. */
  ghost function GameIn(keys: Keys, size: nat, s: SystemState): Trace
    requires s.handled <= |s.pushed|
  {
    GameOf(keys, size, Values(s.pushed[..s.handled]))
  }

  /** Stopping pushes a shutdown behind what is queued and waits until the game has ended. The thread leaves
      its loop when an event ends the game, and not otherwise. */
  ghost function SystemNext(keys: Keys, size: nat, s: SystemState, step: SystemStep, at: nat): (next: SystemState)
    requires s.handled <= |s.pushed|
    ensures next.handled <= |next.pushed|
  {
    match step
    case OnServer(StopServer) =>
      var stopped := Next(s.server, StopServer);
      if s.server.game.thread == NoThread then s.(server := stopped)
      else s.(server := stopped, pushed := s.pushed + [Noted(Shutdown, at)], handled := |s.pushed| + 1)
    case OnServer(GameEnds) => s
    case OnServer(other) => s.(server := Next(s.server, other))
    case Message(c, message) =>
      if !s.server.running then s
      else
        s.(pushed := s.pushed + Note(Forwarded(s.server, c, message), at),
           said := s.said + Note(Spoken(s.server, c, message), at))
    case HandleNext =>
      if s.server.game.thread != Playing || s.handled == |s.pushed| then s
      else
        var next := s.(handled := s.handled + 1);
        if GameIn(keys, size, next).state.active then next else next.(server := Next(s.server, GameEnds))
  }

  ghost function SystemRun(keys: Keys, size: nat, ids: Counters, steps: seq<SystemStep>): (s: SystemState)
    ensures s.handled <= |s.pushed|
  {
    if steps == [] then SystemState(NewServer(ids), [], 0, [])
    else SystemNext(keys, size, SystemRun(keys, size, ids, steps[..|steps| - 1]), steps[|steps| - 1], |steps| - 1)
  }

  lemma LastStep(keys: Keys, size: nat, ids: Counters, steps: seq<SystemStep>)
    requires steps != []
    ensures SystemRun(keys, size, ids, steps) ==
            SystemNext(keys, size, SystemRun(keys, size, ids, steps[..|steps| - 1]), steps[|steps| - 1], |steps| - 1)
  {
  }

  lemma SystemNextIsGood(keys: Keys, size: nat, s: SystemState, step: SystemStep, at: nat)
    requires s.handled <= |s.pushed| && GoodServer(s.server) && s.server.nextConnection <= IDS
    ensures GoodServer(SystemNext(keys, size, s, step, at).server)
  {
    hide Next, Forwarded, Spoken, GameIn, GoodServer;
    match step
    case OnServer(serverStep) => NextIsGood(s.server, serverStep);
    case Message(_, _) =>
    case HandleNext => NextIsGood(s.server, GameEnds);
  }

  lemma SystemConnectionsOnlyGrow(keys: Keys, size: nat, s: SystemState, step: SystemStep, at: nat)
    requires s.handled <= |s.pushed|
    ensures s.server.nextConnection <= SystemNext(keys, size, s, step, at).server.nextConnection
  {
    hide Forwarded, Spoken, GameIn, Next;
    match step
    case OnServer(serverStep) => ConnectionsOnlyGrow(s.server, serverStep);
    case Message(_, _) =>
    case HandleNext => ConnectionsOnlyGrow(s.server, GameEnds);
  }

  /** The run of a server whose counters have not wrapped around has none that wrapped around before. */
  lemma {:induction false} CountersLastedBefore(keys: Keys, size: nat, ids: Counters, steps: seq<SystemStep>, k: nat)
    requires k <= |steps| && CountersLast(ids, SystemRun(keys, size, ids, steps).server)
    ensures CountersLast(ids, SystemRun(keys, size, ids, steps[..k]).server)
  {
    if k == |steps| {
      assert steps[..k] == steps;
    } else {
      hide SystemNext;
      var init := steps[..|steps| - 1];
      SystemConnectionsOnlyGrow(keys, size, SystemRun(keys, size, ids, init), steps[|steps| - 1], |steps| - 1);
      assert init[..k] == steps[..k];
      CountersLastedBefore(keys, size, ids, init, k);
    }
  }

  /** The whole server keeps what its seats and sessions keep. */
  lemma {:induction false} SystemServerIsGood(keys: Keys, size: nat, ids: Counters, steps: seq<SystemStep>)
    requires CountersLast(ids, SystemRun(keys, size, ids, steps).server)
    ensures GoodServer(SystemRun(keys, size, ids, steps).server)
  {
    hide SystemNext;
    if steps == [] {
      assert GoodServer(ServerRun(ids, [])) by { EveryServerRunIsGood(ids, []); }
      assert ServerRun(ids, []) == NewServer(ids);
    } else {
      hide GoodServer;
      var init := steps[..|steps| - 1];
      CountersLastedBefore(keys, size, ids, steps, |init|);
      SystemServerIsGood(keys, size, ids, init);
      SystemNextIsGood(keys, size, SystemRun(keys, size, ids, init), steps[|steps| - 1], |steps| - 1);
    }
  }

  // ----- Who sends a message -----

  /** The only active session in the seat is the connection's. */
  ghost predicate HoldsAlone(t: Table, connectionId: nat, seat: Seat) {
    && connectionId in t.connections
    && Sessions.Holds(t, t.connections[connectionId], seat)
    && forall id :: Sessions.Holds(t, id, seat) ==> id == t.connections[connectionId]
  }

  /** No message follows the loss of its connection. */
  ghost predicate Orderly(steps: seq<SystemStep>) {
    forall i, j :: 0 <= i < j < |steps| && steps[j].Message? ==> steps[i] != OnServer(Lost(steps[j].connectionId))
  }

  /** The step loses a connection that the running server knows. */
  ghost predicate LosesAt(keys: Keys, size: nat, ids: Counters, steps: seq<SystemStep>, at: nat, c: nat) {
    && at < |steps| && steps[at] == OnServer(Lost(c))
    && var server := SystemRun(keys, size, ids, steps[..at]).server;
      server.running && c in server.table.connections
  }

  /** The sessions of the connections are inactive exactly when they have been lost. */
  ghost predicate LossesAreKnown(keys: Keys, size: nat, ids: Counters, steps: seq<SystemStep>, t: Table) {
    && (forall c :: c in t.connections ==>
          (!IsActive(t, c) <==> exists at: nat :: LosesAt(keys, size, ids, steps, at, c)))
    && (forall at: nat, c :: LosesAt(keys, size, ids, steps, at, c) ==> c in t.connections)
  }

  lemma SystemOnConnections(keys: Keys, size: nat, s: SystemState, step: SystemStep, at: nat, c: nat)
    requires s.handled <= |s.pushed| && GoodServer(s.server) && s.server.nextConnection <= IDS
    ensures
      var next := SystemNext(keys, size, s, step, at).server;
      var loses := s.server.running && step == OnServer(Lost(c)) && c in s.server.table.connections;
      && (c in s.server.table.connections ==> c in next.table.connections)
      && (c in next.table.connections ==>
            (!IsActive(next.table, c) <==> loses || (c in s.server.table.connections && !IsActive(s.server.table, c))))
  {
    hide Next, Forwarded, Spoken, GameIn, OneEach, PlayersSeated, Waiting, AnnouncedOnce, NonZero, Inverse;
    match step
    case OnServer(serverStep) => StepOnConnections(s.server, serverStep, c);
    case Message(_, _) =>
    case HandleNext => StepOnConnections(s.server, GameEnds, c);
  }

  lemma LosesBefore(keys: Keys, size: nat, ids: Counters, steps: seq<SystemStep>, at: nat, c: nat)
    requires steps != []
    ensures LosesAt(keys, size, ids, steps, at, c) <==>
            if at < |steps| - 1 then LosesAt(keys, size, ids, steps[..|steps| - 1], at, c)
            else at == |steps| - 1 && steps[at] == OnServer(Lost(c)) &&
                 var server := SystemRun(keys, size, ids, steps[..|steps| - 1]).server;
                   server.running && c in server.table.connections
  {
    hide SystemRun;
    if at < |steps| - 1 {
      assert steps[..|steps| - 1][..at] == steps[..at];
    }
  }

  /** Over every run, a session is inactive exactly when its connection was lost, and once lost it stays so. */
  lemma {:induction false} EveryLossIsKnown(keys: Keys, size: nat, ids: Counters, steps: seq<SystemStep>)
    requires CountersLast(ids, SystemRun(keys, size, ids, steps).server)
    ensures LossesAreKnown(keys, size, ids, steps, SystemRun(keys, size, ids, steps).server.table)
  {
    if steps == [] {
    } else {
      hide SystemRun, SystemNext, GoodServer, LosesAt, IsActive;
      var init, last := steps[..|steps| - 1], |steps| - 1;
      CountersLastedBefore(keys, size, ids, steps, last);
      EveryLossIsKnown(keys, size, ids, init);
      SystemServerIsGood(keys, size, ids, init);
      LastStep(keys, size, ids, steps);
      var s := SystemRun(keys, size, ids, init);
      var t, next := s.server.table, SystemRun(keys, size, ids, steps).server.table;
      forall at: nat, c ensures LosesAt(keys, size, ids, steps, at, c) <==>
        if at < last then LosesAt(keys, size, ids, init, at, c)
        else at == last && steps[at] == OnServer(Lost(c)) && s.server.running && c in t.connections
      {
        LosesBefore(keys, size, ids, steps, at, c);
      }
      forall c
        ensures c in t.connections ==> c in next.connections
        ensures c in next.connections ==>
                  (!IsActive(next, c) <==> exists at: nat :: LosesAt(keys, size, ids, steps, at, c))
      {
        SystemOnConnections(keys, size, s, steps[last], last, c);
        LossesSoFar(keys, size, ids, init, c);
        if c in next.connections && !IsActive(next, c) {
          if c in t.connections && !IsActive(t, c) {
            var at: nat :| LosesAt(keys, size, ids, init, at, c);
            assert LosesAt(keys, size, ids, steps, at, c);
          } else {
            assert LosesAt(keys, size, ids, steps, last, c);
          }
        }
      }
    }
  }

  /** A loss lies within the run. */
  lemma LossesSoFar(keys: Keys, size: nat, ids: Counters, steps: seq<SystemStep>, c: nat)
    ensures forall at: nat :: LosesAt(keys, size, ids, steps, at, c) ==> at < |steps|
  {
  }

  /** The sender of the message at a step holds its seat, and no one else does. */
  ghost predicate SenderHolds(keys: Keys, size: nat, ids: Counters, steps: seq<SystemStep>, at: nat) {
    && at < |steps| && steps[at].Message?
    && var t := SystemRun(keys, size, ids, steps[..at]).server.table;
      HoldsAlone(t, steps[at].connectionId, SeatAt(t, steps[at].connectionId))
  }

  /** When no message follows the loss of its connection, whoever speaks for a colour holds it, alone. */
  lemma EverySenderHolds(keys: Keys, size: nat, ids: Counters, steps: seq<SystemStep>, at: nat)
    requires CountersLast(ids, SystemRun(keys, size, ids, steps).server) && Orderly(steps)
    requires at < |steps| && steps[at].Message?
    requires IsPlayer(SeatAt(SystemRun(keys, size, ids, steps[..at]).server.table, steps[at].connectionId))
    ensures SenderHolds(keys, size, ids, steps, at)
  {
    hide SystemRun, NonZero, PlayersSeated, Waiting, AnnouncedOnce;
    CountersLastedBefore(keys, size, ids, steps, at);
    SystemServerIsGood(keys, size, ids, steps[..at]);
    EveryLossIsKnown(keys, size, ids, steps[..at]);
    var c, t := steps[at].connectionId, SystemRun(keys, size, ids, steps[..at]).server.table;
    KnownConnection(t, c);
    forall i: nat ensures !LosesAt(keys, size, ids, steps[..at], i, c) {
    }
    assert IsActive(t, c);
    assert Sessions.Holds(t, t.connections[c], SeatAt(t, c));
  }

  // ----- From messages to events and lines -----

  /** The step is a message that reaches a running server while a game is played and asks it for the event, or
      a stop that finds a thread and shuts the game down. */
  ghost predicate ComesFrom(keys: Keys, size: nat, ids: Counters, steps: seq<SystemStep>, at: nat, event: GameEvent) {
    && at < |steps|
    && var server := SystemRun(keys, size, ids, steps[..at]).server;
      if event == Shutdown then steps[at] == OnServer(StopServer) && server.game.thread != NoThread
      else
        && steps[at].Message? && server.running && server.game.thread == Playing
        && AsksGame(server.table, steps[at].connectionId, steps[at].message, event)
  }

  /** The event that the step puts in the queue. */
  function EventBy(s: ServerState, step: SystemStep): Option<GameEvent> {
    match step
    case OnServer(StopServer) => if s.game.thread == NoThread then None else Some(Shutdown)
    case Message(c, message) => if s.running then Forwarded(s, c, message) else None
    case _ => None
  }

  ghost function EventsBy(keys: Keys, size: nat, ids: Counters, steps: seq<SystemStep>): (given: seq<Option<GameEvent>>)
    ensures |given| == |steps|
  {
    seq(|steps|, i requires 0 <= i < |steps| => EventBy(SystemRun(keys, size, ids, steps[..i]).server, steps[i]))
  }

  lemma EventComes(keys: Keys, size: nat, ids: Counters, steps: seq<SystemStep>, at: nat, event: GameEvent)
    ensures ComesFrom(keys, size, ids, steps, at, event) <==>
            at < |steps| && EventsBy(keys, size, ids, steps)[at] == Some(event)
  {
    hide DecodeClient, SeatAt, SystemRun, Forwarded;
    if at < |steps| && steps[at].Message? {
      var server := SystemRun(keys, size, ids, steps[..at]).server;
      MovesReachTheGame(server, steps[at].connectionId, steps[at].message, event);
    }
  }

  lemma StepPushes(keys: Keys, size: nat, s: SystemState, step: SystemStep, at: nat)
    requires s.handled <= |s.pushed|
    ensures SystemNext(keys, size, s, step, at).pushed == s.pushed + Note(EventBy(s.server, step), at)
  {
    hide Next, GameIn, Forwarded, Spoken;
  }

  lemma {:induction false} QueueIsNoted(keys: Keys, size: nat, ids: Counters, steps: seq<SystemStep>)
    ensures SystemRun(keys, size, ids, steps).pushed == NotedAll(EventsBy(keys, size, ids, steps))
  {
    if steps == [] {
    } else {
      hide SystemNext, EventBy;
      var init, last := steps[..|steps| - 1], |steps| - 1;
      QueueIsNoted(keys, size, ids, init);
      StepPushes(keys, size, SystemRun(keys, size, ids, init), steps[last], last);
      assert forall i :: 0 <= i < last ==> init[..i] == steps[..i];
      assert EventsBy(keys, size, ids, steps)[..last] == EventsBy(keys, size, ids, init);
    }
  }

  /** The queue has an event for a step exactly when the step gives one, and keeps their order. */
  ghost predicate QueueIsKept(keys: Keys, size: nat, ids: Counters, steps: seq<SystemStep>, pushed: seq<Noted<GameEvent>>) {
    && (forall i :: 0 <= i < |pushed| ==> ComesFrom(keys, size, ids, steps, pushed[i].at, pushed[i].value))
    && (forall at: nat, event :: ComesFrom(keys, size, ids, steps, at, event) ==> Noted(event, at) in pushed)
    && (forall i, j :: 0 <= i < j < |pushed| ==> pushed[i].at < pushed[j].at)
  }

  lemma EveryEventComesFromAMessage(keys: Keys, size: nat, ids: Counters, steps: seq<SystemStep>)
    ensures QueueIsKept(keys, size, ids, steps, SystemRun(keys, size, ids, steps).pushed)
  {
    hide SystemRun, EventsBy, ComesFrom, NotedAll;
    QueueIsNoted(keys, size, ids, steps);
    NotedExactly(EventsBy(keys, size, ids, steps));
    forall at: nat, event
      ensures ComesFrom(keys, size, ids, steps, at, event) <==>
              at < |steps| && EventsBy(keys, size, ids, steps)[at] == Some(event)
    {
      EventComes(keys, size, ids, steps, at, event);
    }
  }

  /** The message asks for the delta, and its sender's session holds a colour: for a put or a pass the colour
      that the delta names. A resignation names the player to move, whoever sent it. */
  ghost predicate AsksFor(s: ServerState, connectionId: nat, message: Json, d: GameDelta) {
    var seat := SeatAt(s.table, connectionId);
    match d.action
    case Place => seat == SeatOf(d.player) && d.coord.Some? && DecodeClient(message) == Some(ClientPutStone(d.coord.value))
    case Pass => seat == SeatOf(d.player) && DecodeClient(message) == Some(ClientPass)
    case Resigned => IsPlayer(seat) && DecodeClient(message) == Some(ClientResign)
  }

  /** A step of a run is a message that asks for the delta, while the game is played and one active session at
      most holds each colour. */
  ghost predicate IsAskedAt(keys: Keys, size: nat, ids: Counters, steps: seq<SystemStep>, at: nat, d: GameDelta) {
    && at < |steps| && steps[at].Message?
    && var server := SystemRun(keys, size, ids, steps[..at]).server;
      && AsksFor(server, steps[at].connectionId, steps[at].message, d)
      && server.game.thread == Playing && OneEach(server.table)
  }

  /** Over every run of the server, the deltas it sends answer messages of the run, in the order of the
      messages. When the message for a put or a pass came, its sender's session held the seat of the colour
      the delta names; in an orderly run it was the one active session there. */
  lemma EveryDeltaAnswersAMessage(keys: Keys, size: nat, ids: Counters, steps: seq<SystemStep>) returns (places: seq<nat>)
    requires CountersLast(ids, SystemRun(keys, size, ids, steps).server)
    ensures
      var deltas := GameIn(keys, size, SystemRun(keys, size, ids, steps)).deltas;
      && |places| == |deltas| && Increasing(places)
      && forall i :: 0 <= i < |deltas| ==>
           && IsAskedAt(keys, size, ids, steps, places[i], deltas[i])
           && (Orderly(steps) ==> SenderHolds(keys, size, ids, steps, places[i]))
  {
    hide SystemRun, GameOf, AsksFor, Forwarded, GoodServer, CountersLast, Orderly, SenderHolds;
    EveryEventComesFromAMessage(keys, size, ids, steps);
    var s := SystemRun(keys, size, ids, steps);
    var events := Values(s.pushed[..s.handled]);
    var queued := DeltasAnswerEvents(keys, size, events);
    var deltas := GameOf(keys, size, events).deltas;
    places := seq(|queued|, i requires 0 <= i < |queued| => s.pushed[queued[i]].at);
    forall i | 0 <= i < |deltas|
      ensures IsAskedAt(keys, size, ids, steps, places[i], deltas[i])
      ensures Orderly(steps) ==> SenderHolds(keys, size, ids, steps, places[i])
    {
      var p := s.pushed[queued[i]];
      assert events[queued[i]] == p.value && Answers(deltas[i], p.value);
      assert ComesFrom(keys, size, ids, steps, p.at, p.value);
      AskedBy(keys, size, ids, steps, p, deltas[i]);
    }
  }

  lemma AskedBy(keys: Keys, size: nat, ids: Counters, steps: seq<SystemStep>, p: Noted<GameEvent>, d: GameDelta)
    requires CountersLast(ids, SystemRun(keys, size, ids, steps).server)
    requires ComesFrom(keys, size, ids, steps, p.at, p.value) && Answers(d, p.value)
    ensures IsAskedAt(keys, size, ids, steps, p.at, d)
    ensures Orderly(steps) ==> SenderHolds(keys, size, ids, steps, p.at)
  {
    hide SystemRun, Inverse, NonZero, OneEach, CountersLast, Orderly, SenderHolds, DecodeClient, SeatAt;
    CountersLastedBefore(keys, size, ids, steps, p.at);
    SystemServerIsGood(keys, size, ids, steps[..p.at]);
    if Orderly(steps) {
      EverySenderHolds(keys, size, ids, steps, p.at);
    }
  }

  // ----- Chat -----

  /** The messages that the server broadcasts for the lines of its chat. */
  function ChatOf(said: seq<Noted<ChatLine>>): (sent: seq<ServerEvent>)
    ensures |sent| == |said|
    ensures forall i :: 0 <= i < |said| ==> sent[i] == Chat(said[i].value.player, i + 1, said[i].value.text)
  {
    seq(|said|, i requires 0 <= i < |said| => Broadcast(Values(said), i))
  }

  /** The step of a run is a chat message that reaches a running server from a session seated as the player. */
  ghost predicate IsSaidAt(keys: Keys, size: nat, ids: Counters, steps: seq<SystemStep>, at: nat, line: ChatLine) {
    && at < |steps| && steps[at].Message?
    && var server := SystemRun(keys, size, ids, steps[..at]).server;
      && server.running
      && SeatAt(server.table, steps[at].connectionId) == SeatOf(line.player)
      && DecodeClient(steps[at].message) == Some(ClientChat(line.text))
  }

  /** The line that the step puts in the chat. */
  function LineBy(s: ServerState, step: SystemStep): Option<ChatLine> {
    if step.Message? && s.running then Spoken(s, step.connectionId, step.message) else None
  }

  ghost function LinesBy(keys: Keys, size: nat, ids: Counters, steps: seq<SystemStep>): (given: seq<Option<ChatLine>>)
    ensures |given| == |steps|
  {
    seq(|steps|, i requires 0 <= i < |steps| => LineBy(SystemRun(keys, size, ids, steps[..i]).server, steps[i]))
  }

  lemma LineIsSaid(keys: Keys, size: nat, ids: Counters, steps: seq<SystemStep>, at: nat, line: ChatLine)
    ensures IsSaidAt(keys, size, ids, steps, at, line) <==>
            at < |steps| && LinesBy(keys, size, ids, steps)[at] == Some(line)
  {
    hide DecodeClient, SeatAt, SystemRun;
  }

  lemma StepSays(keys: Keys, size: nat, s: SystemState, step: SystemStep, at: nat)
    requires s.handled <= |s.pushed|
    ensures SystemNext(keys, size, s, step, at).said == s.said + Note(LineBy(s.server, step), at)
  {
    hide Next, GameIn, Forwarded, Spoken;
  }

  lemma {:induction false} ChatIsNoted(keys: Keys, size: nat, ids: Counters, steps: seq<SystemStep>)
    ensures SystemRun(keys, size, ids, steps).said == NotedAll(LinesBy(keys, size, ids, steps))
  {
    if steps == [] {
    } else {
      hide SystemNext, LineBy;
      var init, last := steps[..|steps| - 1], |steps| - 1;
      ChatIsNoted(keys, size, ids, init);
      StepSays(keys, size, SystemRun(keys, size, ids, init), steps[last], last);
      assert forall i :: 0 <= i < last ==> init[..i] == steps[..i];
      assert LinesBy(keys, size, ids, steps)[..last] == LinesBy(keys, size, ids, init);
    }
  }

  /** The chat has a line for a step exactly when the step is a chat message, and keeps their order. */
  ghost predicate ChatIsKept(keys: Keys, size: nat, ids: Counters, steps: seq<SystemStep>, said: seq<Noted<ChatLine>>) {
    && (forall i :: 0 <= i < |said| ==> IsSaidAt(keys, size, ids, steps, said[i].at, said[i].value))
    && (forall at: nat, line :: IsSaidAt(keys, size, ids, steps, at, line) ==> Noted(line, at) in said)
    && (forall i, j :: 0 <= i < j < |said| ==> said[i].at < said[j].at)
  }

  lemma EveryLineIsAMessage(keys: Keys, size: nat, ids: Counters, steps: seq<SystemStep>)
    ensures ChatIsKept(keys, size, ids, steps, SystemRun(keys, size, ids, steps).said)
  {
    hide SystemRun, LinesBy, IsSaidAt, NotedAll;
    ChatIsNoted(keys, size, ids, steps);
    NotedExactly(LinesBy(keys, size, ids, steps));
    forall at: nat, line
      ensures IsSaidAt(keys, size, ids, steps, at, line) <==>
              at < |steps| && LinesBy(keys, size, ids, steps)[at] == Some(line)
    {
      LineIsSaid(keys, size, ids, steps, at, line);
    }
  }

  /** Over every run of the server, the chat it broadcasts has the ids 1, 2, 3, ... and answers exactly the chat
      messages that reach it from seated sessions, in their order and under the colour of the sender's seat; in
      an orderly run the sender was the one active session there. */
  lemma EveryChatLineAnswersAMessage(keys: Keys, size: nat, ids: Counters, steps: seq<SystemStep>) returns (places: seq<nat>)
    requires CountersLast(ids, SystemRun(keys, size, ids, steps).server)
    ensures
      var sent := ChatOf(SystemRun(keys, size, ids, steps).said);
      && |places| == |sent| && Increasing(places)
      && (forall i :: 0 <= i < |sent| ==>
            && sent[i].Chat? && sent[i].messageId == i + 1
            && IsSaidAt(keys, size, ids, steps, places[i], ChatLine(sent[i].player, sent[i].message))
            && (Orderly(steps) ==> SenderHolds(keys, size, ids, steps, places[i])))
      && (forall at: nat, line :: IsSaidAt(keys, size, ids, steps, at, line) ==> at in places)
  {
    hide SystemRun, Orderly, SenderHolds, SeatAt, DecodeClient, CountersLast;
    EveryLineIsAMessage(keys, size, ids, steps);
    var said := SystemRun(keys, size, ids, steps).said;
    places := seq(|said|, i requires 0 <= i < |said| => said[i].at);
    forall i | 0 <= i < |said| && Orderly(steps) ensures SenderHolds(keys, size, ids, steps, places[i]) {
      assert IsSaidAt(keys, size, ids, steps, said[i].at, said[i].value);
      EverySenderHolds(keys, size, ids, steps, said[i].at);
    }
    forall at: nat, line | IsSaidAt(keys, size, ids, steps, at, line) ensures at in places {
      var i :| 0 <= i < |said| && said[i] == Noted(line, at);
      assert places[i] == at;
    }
  }
}
