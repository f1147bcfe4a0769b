/** The server's session index: two maps kept inverse to each other, and ids that wrap around. */
module Sessions {
  import opened Model
  import opened Wire

  datatype SessionContext = SessionContext(connectionId: nat, sessionId: nat, seat: Seat, isActive: bool)

  datatype Table = Table(sessions: map<nat, SessionContext>, connections: map<nat, nat>, nextSessionId: nat)

  const IDS := UINT32 - 1  // the number of usable session ids: every 32-bit value but 0

  /** 32-bit increment that skips 0. */
  function NextId(id: nat): nat {
    var next := (id + 1) % UINT32;
    if next == 0 then 1 else next
  }

  predicate IsId(id: nat) {
    1 <= id < UINT32
  }

  /** The id k steps after start on the cycle 1, 2, ..., 2^32 - 1, 1, ... */
  function IdAfter(start: nat, k: nat): (id: nat)
    requires IsId(start) && k < IDS
    ensures IsId(id)
  {
    if start + k < UINT32 then start + k else start + k - IDS
  }

  /** The first id from start on that is not taken, or the last one tried when all are. */
  function FirstFree(start: nat, taken: set<nat>, k: nat): (id: nat)
    requires IsId(start) && k < IDS
    ensures IsId(id)
    decreases IDS - k
  {
    if IdAfter(start, k) !in taken || k == IDS - 1 then IdAfter(start, k) else FirstFree(start, taken, k + 1)
  }

  lemma NextIdStep(start: nat, k: nat)
    requires IsId(start) && k + 1 < IDS
    ensures NextId(IdAfter(start, k)) == IdAfter(start, k + 1)
  {
  }

  /** The ids tried in the first k steps. */
  ghost function Tried(start: nat, k: nat): set<nat>
    requires IsId(start) && k <= IDS
  {
    if k == 0 then {} else Tried(start, k - 1) + {IdAfter(start, k - 1)}
  }

  lemma {:induction false} TriedAreDistinct(start: nat, k: nat)
    requires IsId(start) && k <= IDS
    ensures |Tried(start, k)| == k
    ensures forall id :: id in Tried(start, k) ==> exists j :: 0 <= j < k && id == IdAfter(start, j)
  {
    if k == 0 {
    } else {
      TriedAreDistinct(start, k - 1);
    }
  }

  /** With an id left, the search finds a free one. */
  lemma {:induction false} FirstFreeIsFree(start: nat, taken: set<nat>, k: nat)
    requires IsId(start) && k < IDS && |taken| < IDS
    requires Tried(start, k) <= taken
    ensures FirstFree(start, taken, k) !in taken
    decreases IDS - k
  {
    hide IdAfter;
    if IdAfter(start, k) !in taken {
    } else {
      assert Tried(start, k + 1) <= taken;
      TriedAreDistinct(start, k + 1);
      SubsetIsNoLarger(Tried(start, k + 1), taken);
      FirstFreeIsFree(start, taken, k + 1);
    }
  }

  lemma SearchStart(start: nat, taken: set<nat>)
    requires IsId(start)
    ensures IdAfter(start, 0) == start && Tried(start, 0) <= taken
  {
  }

  lemma SearchEnd(start: nat, taken: set<nat>, k: nat)
    requires IsId(start) && k < IDS && IdAfter(start, k) !in taken
    ensures FirstFree(start, taken, k) == IdAfter(start, k)
  {
  }

  /** One step of the search: a taken candidate leaves another one to try. */
  lemma SearchStep(start: nat, taken: set<nat>, k: nat)
    requires IsId(start) && k < IDS && |taken| < IDS
    requires Tried(start, k) <= taken && IdAfter(start, k) in taken
    ensures k + 1 < IDS && Tried(start, k + 1) <= taken
    ensures NextId(IdAfter(start, k)) == IdAfter(start, k + 1)
    ensures FirstFree(start, taken, k) == FirstFree(start, taken, k + 1)
  {
    assert Tried(start, k + 1) <= taken;
    TriedAreDistinct(start, k + 1);
    SubsetIsNoLarger(Tried(start, k + 1), taken);
    NextIdStep(start, k);
  }

  function NewId(t: Table): nat {
    FirstFree(if IsId(t.nextSessionId) then t.nextSessionId else 1, t.sessions.Keys, 0)
  }

  // ----- Operations on values -----

  predicate Knows(t: Table, connectionId: nat) {
    connectionId in t.connections && t.connections[connectionId] in t.sessions
  }

  function Added(t: Table, connectionId: nat): (Table, nat) {
    if Knows(t, connectionId) then
      var key := t.connections[connectionId];
      (t.(sessions := t.sessions[key := t.sessions[key].(isActive := true)]), t.sessions[key].sessionId)
    else
      var id := NewId(t);
      var context := SessionContext(connectionId, id, NoSeat, true);
      (Table(t.sessions[id := context], t.connections[connectionId := id], NextId(id)), id)
  }

  function Removed(t: Table, sessionId: nat): Table {
    if sessionId !in t.sessions then t
    else t.(connections := t.connections - {t.sessions[sessionId].connectionId}, sessions := t.sessions - {sessionId})
  }

  function Seated(t: Table, sessionId: nat, seat: Seat): Table {
    if sessionId !in t.sessions then t
    else t.(sessions := t.sessions[sessionId := t.sessions[sessionId].(seat := seat)])
  }

  function Disconnected(t: Table, sessionId: nat): Table {
    if sessionId !in t.sessions then t
    else t.(sessions := t.sessions[sessionId := t.sessions[sessionId].(isActive := false)])
  }

  /** An active session holds the seat. */
  predicate Holds(t: Table, sessionId: nat, seat: Seat) {
    sessionId in t.sessions && t.sessions[sessionId].isActive && t.sessions[sessionId].seat == seat
  }

  // ----- The object -----

  class SessionManager {
    var sessions: map<nat, SessionContext>
    var connectionToSession: map<nat, nat>
    var nextSessionId: nat

    ghost function View(): Table
      reads this
    {
      Table(sessions, connectionToSession, nextSessionId)
    }

    /** The id counter outlives managers: a new one goes on with the next id of the process. */
    constructor (firstId: nat)
      ensures View() == Table(map[], map[], firstId)
    {
      sessions, connectionToSession, nextSessionId := map[], map[], firstId;
    }

    /** Counts on from the last id, wrapping past 2^32 - 1 and skipping 0 and every id in use. With
        fewer than 2^32 - 1 sessions it ends, with a fresh id other than 0. */
    method GenerateSessionId() returns (candidate: nat)
      requires nextSessionId < UINT32 && |sessions| < IDS
      modifies this`nextSessionId
      ensures candidate == NewId(old(View()))
      ensures IsId(candidate) && candidate !in sessions && nextSessionId == NextId(candidate)
    {
      hide IdAfter, FirstFree, Tried;
      candidate := nextSessionId;
      SearchStart(if candidate == 0 then 1 else candidate, sessions.Keys);
      if candidate == 0 {
        candidate := 1;
      }
      ghost var start, k := candidate, 0;
      while candidate in sessions
        invariant 0 <= k < IDS && candidate == IdAfter(start, k)
        invariant Tried(start, k) <= sessions.Keys
        invariant FirstFree(start, sessions.Keys, 0) == FirstFree(start, sessions.Keys, k)
        decreases IDS - k
      {
        SearchStep(start, sessions.Keys, k);
        candidate := (candidate + 1) % UINT32;
        if candidate == 0 {
          candidate := candidate + 1;
        }
        k := k + 1;
      }
      SearchEnd(start, sessions.Keys, k);
      nextSessionId := (candidate + 1) % UINT32;
      if nextSessionId == 0 {
        nextSessionId := 1;
      }
    }

    method Add(connectionId: nat) returns (sessionId: nat)
      requires !Knows(View(), connectionId) ==> nextSessionId < UINT32 && |sessions| < IDS
      modifies this
      ensures (View(), sessionId) == Added(old(View()), connectionId)
    {
      if connectionId in connectionToSession {
        var existing := connectionToSession[connectionId];
        if existing in sessions {
          sessions := sessions[existing := sessions[existing].(isActive := true)];
          return sessions[existing].sessionId;
        }
        connectionToSession := connectionToSession - {connectionId};
      }
      sessionId := GenerateSessionId();
      sessions := sessions[sessionId := SessionContext(connectionId, sessionId, NoSeat, true)];
      connectionToSession := connectionToSession[connectionId := sessionId];
      assert connectionToSession == old(connectionToSession)[connectionId := sessionId];
    }

    method Remove(sessionId: nat)
      modifies this
      ensures View() == Removed(old(View()), sessionId)
    {
      if sessionId !in sessions {
        return;
      }
      connectionToSession := connectionToSession - {sessions[sessionId].connectionId};
      sessions := sessions - {sessionId};
    }

    function GetSessionId(connectionId: nat): nat
      reads this
    {
      if connectionId in connectionToSession then connectionToSession[connectionId] else 0
    }

    function GetSeat(sessionId: nat): Seat
      reads this
    {
      if sessionId in sessions then sessions[sessionId].seat else NoSeat
    }

    /** Some active session in the seat, by its connection, or 0 when there is none. */
    method GetConnectionIdBySeat(seat: Seat) returns (connectionId: nat)
      ensures (exists id :: Holds(View(), id, seat)) ==>
                exists id :: Holds(View(), id, seat) && sessions[id].connectionId == connectionId
      ensures (forall id :: !Holds(View(), id, seat)) ==> connectionId == 0
    {
      var left := sessions.Keys;
      while left != {}
        invariant left <= sessions.Keys
        invariant forall id :: Holds(View(), id, seat) ==> id in left
        decreases |left|
      {
        var id :| id in left;
        if sessions[id].isActive && sessions[id].seat == seat {
          assert Holds(View(), id, seat);
          return sessions[id].connectionId;
        }
        left := left - {id};
      }
      return 0;
    }

    method SetSeat(sessionId: nat, seat: Seat)
      modifies this
      ensures View() == Seated(old(View()), sessionId, seat)
    {
      if sessionId !in sessions {
        return;
      }
      sessions := sessions[sessionId := sessions[sessionId].(seat := seat)];
    }

    method SetDisconnected(sessionId: nat)
      modifies this
      ensures View() == Disconnected(old(View()), sessionId)
    {
      if sessionId !in sessions {
        return;
      }
      sessions := sessions[sessionId := sessions[sessionId].(isActive := false)];
    }
  }

  // ----- What the operations do -----

  /** The two maps are each other's inverse, every session knows its own id, and ids are never 0. */
  ghost predicate Inverse(t: Table) {
    && (forall id :: id in t.sessions ==>
          && IsId(id)
          && t.sessions[id].sessionId == id
          && t.sessions[id].connectionId in t.connections
          && t.connections[t.sessions[id].connectionId] == id)
    && (forall c :: c in t.connections ==>
          && t.connections[c] in t.sessions
          && t.sessions[t.connections[c]].connectionId == c)
    && IsId(t.nextSessionId)
  }

  /** The two tables agree on everything but one session and one connection. */
  ghost predicate SameBut(t: Table, next: Table, sessionId: nat, connectionId: nat) {
    && (forall id :: id != sessionId ==> (id in next.sessions <==> id in t.sessions))
    && (forall id :: id != sessionId && id in t.sessions ==> next.sessions[id] == t.sessions[id])
    && (forall c :: c != connectionId ==> (c in next.connections <==> c in t.connections))
    && (forall c :: c != connectionId && c in t.connections ==> next.connections[c] == t.connections[c])
  }

  lemma {:induction false} FirstFreeIsFirst(start: nat, taken: set<nat>, k: nat) returns (steps: nat)
    requires IsId(start) && k < IDS && |taken| < IDS && Tried(start, k) <= taken
    ensures k <= steps < IDS && FirstFree(start, taken, k) == IdAfter(start, steps) && IdAfter(start, steps) !in taken
    ensures forall j :: k <= j < steps ==> IdAfter(start, j) in taken
    decreases IDS - k
  {
    hide IdAfter;
    if IdAfter(start, k) !in taken {
      steps := k;
    } else {
      SearchStep(start, taken, k);
      steps := FirstFreeIsFirst(start, taken, k + 1);
    }
  }

  /** A connection without a session gets a new one under the first id that is free, counting on from the
      counter and from 2^32 - 1 to 1. The counter moves on behind it, and nothing else changes. */
  lemma NewSession(t: Table, connectionId: nat) returns (steps: nat)
    requires IsId(t.nextSessionId) && |t.sessions| < IDS && !Knows(t, connectionId)
    ensures
      var (next, id) := Added(t, connectionId);
      && steps < IDS && id !in t.sessions
      && id == (if t.nextSessionId + steps < UINT32 then t.nextSessionId + steps else t.nextSessionId + steps - UINT32 + 1)
      && (forall j :: 0 <= j < steps ==> IdAfter(t.nextSessionId, j) in t.sessions)
      && id in next.sessions && next.sessions[id] == SessionContext(connectionId, id, NoSeat, true)
      && connectionId in next.connections && next.connections[connectionId] == id
      && next.nextSessionId == (if id == UINT32 - 1 then 1 else id + 1)
      && SameBut(t, next, id, connectionId)
  {
    hide FirstFree, Tried;
    SearchStart(t.nextSessionId, t.sessions.Keys);
    steps := FirstFreeIsFirst(t.nextSessionId, t.sessions.Keys, 0);
  }

  /** The session of a known connection comes back to life as it was, and nothing else changes. */
  lemma KnownSession(t: Table, connectionId: nat)
    requires Inverse(t) && connectionId in t.connections
    ensures
      var (next, id) := Added(t, connectionId);
      && id == t.connections[connectionId]
      && id in next.sessions && next.sessions[id].isActive
      && next.sessions[id].connectionId == connectionId && next.sessions[id].seat == t.sessions[id].seat
      && next.connections == t.connections && next.nextSessionId == t.nextSessionId
      && SameBut(t, next, id, connectionId)
  {
  }

  /** Removing a session removes its connection with it, and nothing else. */
  lemma RemovedIsGone(t: Table, id: nat)
    requires Inverse(t) && id in t.sessions
    ensures
      var c := t.sessions[id].connectionId;
      && id !in Removed(t, id).sessions && c !in Removed(t, id).connections
      && SameBut(t, Removed(t, id), id, c) && Removed(t, id).nextSessionId == t.nextSessionId
  {
  }

  /** Seating a session, or losing its connection, changes its seat or its activity and nothing else. */
  lemma SeatedAndLost(t: Table, id: nat, seat: Seat)
    requires id in t.sessions
    ensures
      && (forall other, s :: Holds(Seated(t, id, seat), other, s) <==>
                             if other == id then t.sessions[id].isActive && s == seat else Holds(t, other, s))
      && (forall other, s :: Holds(Disconnected(t, id), other, s) <==> other != id && Holds(t, other, s))
      && Seated(t, id, seat).connections == Disconnected(t, id).connections == t.connections
      && Seated(t, id, seat).nextSessionId == Disconnected(t, id).nextSessionId == t.nextSessionId
      && (forall other :: other in t.sessions ==>
            && other in Seated(t, id, seat).sessions && other in Disconnected(t, id).sessions
            && Seated(t, id, seat).sessions[other].connectionId == t.sessions[other].connectionId
            && Disconnected(t, id).sessions[other].connectionId == t.sessions[other].connectionId
            && Disconnected(t, id).sessions[other].seat == t.sessions[other].seat)
  {
  }

  // ----- What every sequence of operations keeps -----

  datatype Operation =
    | Add(connectionId: nat)
    | Remove(sessionId: nat)
    | SetSeat(seated: nat, seat: Seat)
    | SetDisconnected(lost: nat)

  function Operated(t: Table, op: Operation): Table {
    match op
    case Add(c) => Added(t, c).0
    case Remove(id) => Removed(t, id)
    case SetSeat(id, seat) => Seated(t, id, seat)
    case SetDisconnected(id) => Disconnected(t, id)
  }

  /** The operations of one manager. The id counter is shared by all managers of the process, so it starts
      wherever the ones before left it. */
  function OperatedAll(firstId: nat, ops: seq<Operation>): Table {
    if ops == [] then Table(map[], map[], firstId) else Operated(OperatedAll(firstId, ops[..|ops| - 1]), ops[|ops| - 1])
  }

  /** A connection not known before gets a session of its own with a fresh id. */
  lemma NewConnection(t: Table, connectionId: nat)
    requires Inverse(t) && |t.sessions| < IDS && connectionId !in t.connections
    ensures
      var (next, id) := Added(t, connectionId);
      && IsId(id) && id !in t.sessions
      && next.sessions == t.sessions[id := SessionContext(connectionId, id, NoSeat, true)]
      && Inverse(next) && |next.sessions| == |t.sessions| + 1
  {
    hide FirstFree;
    FirstFreeIsFree(t.nextSessionId, t.sessions.Keys, 0);
  }

  /** Changing the seat or the activity of a session touches neither map's keys. */
  lemma UpdateKeepsInverse(t: Table, id: nat, context: SessionContext)
    requires Inverse(t) && id in t.sessions
    requires context.sessionId == id && context.connectionId == t.sessions[id].connectionId
    ensures Inverse(t.(sessions := t.sessions[id := context])) && |t.sessions[id := context]| == |t.sessions|
  {
    SameKeys(t.sessions, id, context);
  }

  lemma RemoveKeepsInverse(t: Table, id: nat)
    requires Inverse(t)
    ensures Inverse(Removed(t, id)) && |Removed(t, id).sessions| <= |t.sessions|
  {
    SubsetIsNoLarger(Removed(t, id).sessions.Keys, t.sessions.Keys);
  }

  lemma OperationKeepsInverse(t: Table, op: Operation)
    requires Inverse(t) && |t.sessions| < IDS
    ensures Inverse(Operated(t, op)) && |Operated(t, op).sessions| <= |t.sessions| + 1
  {
    hide NewId;
    match op
    case Add(c) =>
      if c !in t.connections {
        NewConnection(t, c);
      } else {
        UpdateKeepsInverse(t, t.connections[c], t.sessions[t.connections[c]].(isActive := true));
      }
    case Remove(id) => RemoveKeepsInverse(t, id);
    case SetSeat(id, seat) => if id in t.sessions { UpdateKeepsInverse(t, id, t.sessions[id].(seat := seat)); }
    case SetDisconnected(id) => if id in t.sessions { UpdateKeepsInverse(t, id, t.sessions[id].(isActive := false)); }
  }

  lemma SameKeys(sessions: map<nat, SessionContext>, id: nat, context: SessionContext)
    requires id in sessions
    ensures |sessions[id := context]| == |sessions|
  {
    assert sessions[id := context].Keys == sessions.Keys;
  }

  /** The maps stay inverse over every sequence of operations that always leaves an id to give, from any
      first id, however often the ids go round. */
  lemma {:induction false} MapsStayInverse(firstId: nat, ops: seq<Operation>)
    requires IsId(firstId)
    requires forall k :: 0 <= k < |ops| ==> |OperatedAll(firstId, ops[..k]).sessions| < IDS
    ensures Inverse(OperatedAll(firstId, ops))
  {
    if ops == [] {
    } else {
      var init := ops[..|ops| - 1];
      forall k | 0 <= k < |init| ensures |OperatedAll(firstId, init[..k]).sessions| < IDS {
        assert init[..k] == ops[..k];
      }
      MapsStayInverse(firstId, init);
      OperationKeepsInverse(OperatedAll(firstId, init), ops[|ops| - 1]);
    }
  }
}
