/** The events on the wire and their JSON form, at the level of JSON trees. */
module Wire {
  import opened Model

  // ----- Events -----

  datatype Seat = NoSeat | BlackSeat | WhiteSeat | Observer

  datatype ServerAction = PlaceAction | PassAction | ResignAction | CountAction

  datatype NwStatus = ActiveStatus | BlackWin | WhiteWin | Draw | CountStatus

  datatype ServerDelta = ServerDelta(turn: nat, seat: Seat, action: ServerAction, coord: Option<Coord>,
                                     captures: seq<Coord>, next: Seat, status: NwStatus)

  datatype ServerEvent =
    | SessionAssign(sessionId: nat)
    | GameConfig(boardSize: nat, komi: real, timeSeconds: nat)
    | Delta(delta: ServerDelta)
    | Chat(player: Player, messageId: nat, message: string)

  datatype ClientEvent = ClientPutStone(c: Coord) | ClientPass | ClientResign | ClientChat(text: string)

  predicate IsPlayer(seat: Seat) {
    seat == BlackSeat || seat == WhiteSeat
  }

  function SeatOf(player: Player): Seat {
    if player.Black? then BlackSeat else WhiteSeat
  }

  /** The player a delta's or a session's seat stands for. */
  function PlayerOf(seat: Seat): Player {
    if seat == BlackSeat then Player.Black else Player.White
  }

  // ----- JSON trees and numbers -----

  datatype Json =
    | Null
    | Bool(b: bool)
    | Unsigned(n: nat)
    | Negative(i: int)
    | Real(r: real)
    | Text(s: string)
    | Array(items: seq<Json>)
    | Object(fields: map<string, Json>)

  const UINT32 := 0x1_0000_0000
  const UINT64 := 0x1_0000_0000_0000_0000

  /** A non-negative integer is read as an unsigned number when it fits 64 bits, and as a floating-point
      number otherwise. */
  predicate IsUnsigned(j: Json) {
    j.Unsigned? && j.n < UINT64
  }

  /** Reading a JSON number as a 32-bit unsigned keeps its low 32 bits. */
  function AsUnsigned(j: Json): nat
    requires j.Unsigned?
  {
    j.n % UINT32
  }

  /** A cast to an enumeration stored in 8 bits keeps the low 8 bits. */
  function AsByte(v: nat): nat {
    v % 256
  }

  function SeatCode(seat: Seat): nat {
    match seat case NoSeat => 0 case BlackSeat => 2 case WhiteSeat => 4 case Observer => 8
  }

  function ActionCode(action: ServerAction): nat {
    match action case PlaceAction => 0 case PassAction => 1 case ResignAction => 2 case CountAction => 3
  }

  function StatusCode(status: NwStatus): nat {
    match status case ActiveStatus => 0 case BlackWin => 1 case WhiteWin => 2 case Draw => 3 case CountStatus => 4
  }

  function PlayerCode(player: Player): nat {
    if player.Black? then 1 else 2
  }

  /** The seats a delta may name. */
  function PlayerSeatOf(code: nat): Option<Seat> {
    if code == 2 then Some(BlackSeat) else if code == 4 then Some(WhiteSeat) else None
  }

  function ValidActionOf(code: nat): Option<ServerAction> {
    if code == 0 then Some(PlaceAction) else if code == 1 then Some(PassAction)
    else if code == 2 then Some(ResignAction) else None
  }

  function ValidStatusOf(code: nat): Option<NwStatus> {
    if code == 0 then Some(ActiveStatus) else if code == 1 then Some(BlackWin)
    else if code == 2 then Some(WhiteWin) else if code == 3 then Some(Draw) else None
  }

  predicate HasUnsigned(fields: map<string, Json>, key: string) {
    key in fields && IsUnsigned(fields[key])
  }

  predicate HasText(fields: map<string, Json>, key: string) {
    key in fields && fields[key].Text?
  }

  // ----- Deltas -----

  function CoordJson(c: Coord): Json {
    Array([Unsigned(c.x), Unsigned(c.y)])
  }

  function CapturesJson(captures: seq<Coord>): (items: seq<Json>)
    ensures |items| == |captures|
    ensures forall i :: 0 <= i < |items| ==> items[i] == CoordJson(captures[i])
  {
    seq(|captures|, i requires 0 <= i < |captures| => CoordJson(captures[i]))
  }

  function BaseFields(e: ServerDelta): map<string, Json> {
    map["type" := Text("delta"), "turn" := Unsigned(e.turn), "seat" := Unsigned(SeatCode(e.seat)),
        "action" := Unsigned(ActionCode(e.action)), "next" := Unsigned(SeatCode(e.next)),
        "status" := Unsigned(StatusCode(e.status))]
  }

  function EncodeDelta(e: ServerDelta): Option<Json> {
    if e.action != PlaceAction then Some(Object(BaseFields(e)))
    else if e.coord.None? then None
    else
      var placed := BaseFields(e)["x" := Unsigned(e.coord.value.x)]["y" := Unsigned(e.coord.value.y)];
      Some(Object(if e.captures == [] then placed else placed["captures" := Array(CapturesJson(e.captures))]))
  }

  /** Writes a delta. A place without a point has no message. */
  method DeltaToMessage(e: ServerDelta) returns (message: Option<Json>)
    ensures message == EncodeDelta(e)
  {
    var j: map<string, Json> := map[];
    j := j["type" := Text("delta")];
    j := j["turn" := Unsigned(e.turn)];
    j := j["seat" := Unsigned(SeatCode(e.seat))];
    j := j["action" := Unsigned(ActionCode(e.action))];
    j := j["next" := Unsigned(SeatCode(e.next))];
    j := j["status" := Unsigned(StatusCode(e.status))];
    if e.action == PlaceAction {
      if e.coord.None? {
        return None;
      }
      j := j["x" := Unsigned(e.coord.value.x)];
      j := j["y" := Unsigned(e.coord.value.y)];
      if e.captures != [] {
        var caps := [];
        for i := 0 to |e.captures|
          invariant caps == CapturesJson(e.captures[..i])
        {
          caps := caps + [CoordJson(e.captures[i])];
        }
        assert e.captures[..|e.captures|] == e.captures;
        j := j["captures" := Array(caps)];
      }
    }
    return Some(Object(j));
  }

  function DecodeCapture(j: Json): Option<Coord> {
    if j.Array? && |j.items| == 2 && IsUnsigned(j.items[0]) && IsUnsigned(j.items[1])
    then Some(Coord(AsUnsigned(j.items[0]), AsUnsigned(j.items[1]))) else None
  }

  function DecodeCaptures(items: seq<Json>): Option<seq<Coord>> {
    if items == [] then Some([]) else
      match (DecodeCaptures(items[..|items| - 1]), DecodeCapture(items[|items| - 1]))
      case (Some(init), Some(last)) => Some(init + [last])
      case _ => None
  }

  function DecodeDelta(j: map<string, Json>): Option<ServerDelta> {
    if !(HasUnsigned(j, "turn") && HasUnsigned(j, "seat") && HasUnsigned(j, "action")
         && HasUnsigned(j, "next") && HasUnsigned(j, "status")) then None
    else
      var action := ValidActionOf(AsByte(AsUnsigned(j["action"])));
      var status := ValidStatusOf(AsByte(AsUnsigned(j["status"])));
      var seat := PlayerSeatOf(AsByte(AsUnsigned(j["seat"])));
      var next := PlayerSeatOf(AsByte(AsUnsigned(j["next"])));
      if action.None? || status.None? || seat.None? || next.None? then None
      else if action.value != PlaceAction then
        if "x" in j || "y" in j || "captures" in j then None
        else Some(ServerDelta(AsUnsigned(j["turn"]), seat.value, action.value, None, [], next.value, status.value))
      else if !(HasUnsigned(j, "x") && HasUnsigned(j, "y")) then None
      else
        var coord := Coord(AsUnsigned(j["x"]), AsUnsigned(j["y"]));
        var captures := if "captures" !in j then Some([])
                        else if j["captures"].Array? then DecodeCaptures(j["captures"].items) else None;
        if captures.None? then None
        else Some(ServerDelta(AsUnsigned(j["turn"]), seat.value, action.value, Some(coord), captures.value,
                              next.value, status.value))
  }

  lemma {:induction false} OneBadCapture(items: seq<Json>, i: nat)
    requires i < |items| && DecodeCapture(items[i]).None?
    ensures DecodeCaptures(items).None?
  {
    if i == |items| - 1 {
    } else {
      OneBadCapture(items[..|items| - 1], i);
    }
  }

  /** Reads a delta field by field and gives up at the first that does not fit. */
  method FromServerDeltaMessage(j: map<string, Json>) returns (event: Option<ServerDelta>)
    ensures event == DecodeDelta(j)
  {
    if !HasUnsigned(j, "turn") || !HasUnsigned(j, "seat") || !HasUnsigned(j, "action")
       || !HasUnsigned(j, "next") || !HasUnsigned(j, "status") {
      return None;
    }
    var action := ValidActionOf(AsByte(AsUnsigned(j["action"])));
    var status := ValidStatusOf(AsByte(AsUnsigned(j["status"])));
    if action.None? || status.None? {
      return None;
    }
    var turn := AsUnsigned(j["turn"]);
    var seat := PlayerSeatOf(AsByte(AsUnsigned(j["seat"])));
    var next := PlayerSeatOf(AsByte(AsUnsigned(j["next"])));
    if seat.None? || next.None? {
      return None;
    }
    var delta := ServerDelta(turn, seat.value, action.value, None, [], next.value, status.value);
    if delta.action == PlaceAction {
      if !HasUnsigned(j, "x") || !HasUnsigned(j, "y") {
        return None;
      }
      delta := delta.(coord := Some(Coord(AsUnsigned(j["x"]), AsUnsigned(j["y"]))));
      if "captures" in j {
        if !j["captures"].Array? {
          return None;
        }
        var items := j["captures"].items;
        for i := 0 to |items|
          invariant DecodeCaptures(items[..i]) == Some(delta.captures)
          invariant delta == ServerDelta(turn, seat.value, PlaceAction, Some(Coord(AsUnsigned(j["x"]), AsUnsigned(j["y"]))),
                                         delta.captures, next.value, status.value)
        {
          assert items[..i + 1][..i] == items[..i];
          var cap := DecodeCapture(items[i]);
          if cap.None? {
            OneBadCapture(items, i);
            return None;
          }
          delta := delta.(captures := delta.captures + [cap.value]);
        }
        assert items[..|items|] == items;
      }
    } else if "x" in j || "y" in j || "captures" in j {
      return None;
    }
    return Some(delta);
  }

  // ----- All events -----

  function EncodeServer(event: ServerEvent): Option<Json> {
    match event
    case SessionAssign(id) => Some(Object(map["type" := Text("session"), "sessionId" := Unsigned(id)]))
    case GameConfig(size, komi, time) =>
      Some(Object(map["type" := Text("config"), "boardSize" := Unsigned(size), "komi" := Real(komi),
                      "time" := Unsigned(time)]))
    case Delta(delta) => EncodeDelta(delta)
    case Chat(player, id, message) =>
      Some(Object(map["type" := Text("chat"), "player" := Unsigned(PlayerCode(player)), "messageId" := Unsigned(id),
                      "message" := Text(message)]))
  }

  /** The value of a JSON number read as a floating-point number. */
  function NumberOf(j: Json): Option<real> {
    match j
    case Unsigned(n) => Some(n as real)
    case Negative(i) => Some(i as real)
    case Real(r) => Some(r)
    case _ => None
  }

  function DecodeServer(message: Json): Option<ServerEvent> {
    if !message.Object? || !HasText(message.fields, "type") then None
    else
      var j := message.fields;
      var kind := j["type"].s;
      if kind == "session" then
        if HasUnsigned(j, "sessionId") then Some(SessionAssign(AsUnsigned(j["sessionId"]))) else None
      else if kind == "config" then
        if HasUnsigned(j, "boardSize") && "komi" in j && NumberOf(j["komi"]).Some? && HasUnsigned(j, "time")
        then Some(GameConfig(AsUnsigned(j["boardSize"]), NumberOf(j["komi"]).value, AsUnsigned(j["time"]))) else None
      else if kind == "delta" then
        match DecodeDelta(j) case Some(delta) => Some(Delta(delta)) case None => None
      else if kind == "chat" then
        if !(HasUnsigned(j, "player") && HasUnsigned(j, "messageId") && HasText(j, "message")) then None
        else if AsUnsigned(j["player"]) == 1 then Some(Chat(Player.Black, AsUnsigned(j["messageId"]), j["message"].s))
        else if AsUnsigned(j["player"]) == 2 then Some(Chat(Player.White, AsUnsigned(j["messageId"]), j["message"].s))
        else None
      else None
  }

  function EncodeClient(event: ClientEvent): Json {
    match event
    case ClientPutStone(c) => Object(map["type" := Text("put"), "x" := Unsigned(c.x), "y" := Unsigned(c.y)])
    case ClientPass => Object(map["type" := Text("pass")])
    case ClientResign => Object(map["type" := Text("resign")])
    case ClientChat(text) => Object(map["type" := Text("chat"), "message" := Text(text)])
  }

  function DecodeClient(message: Json): Option<ClientEvent> {
    if !message.Object? || !HasText(message.fields, "type") then None
    else
      var j := message.fields;
      var kind := j["type"].s;
      if kind == "put" then
        if HasUnsigned(j, "x") && HasUnsigned(j, "y")
        then Some(ClientPutStone(Coord(AsUnsigned(j["x"]), AsUnsigned(j["y"])))) else None
      else if kind == "pass" then Some(ClientPass)
      else if kind == "resign" then Some(ClientResign)
      else if kind == "chat" then if HasText(j, "message") then Some(ClientChat(j["message"].s)) else None
      else None
  }

  // ----- What messages say -----

  /** The field is a number whose low 32 bits are the given value. */
  ghost predicate Gives(fields: map<string, Json>, key: string, value: nat) {
    key in fields && fields[key].Unsigned? && fields[key].n < UINT64 && fields[key].n % UINT32 == value
  }

  /** The field is a number whose low 8 bits are the given code. */
  ghost predicate GivesCode(fields: map<string, Json>, key: string, code: nat) {
    key in fields && fields[key].Unsigned? && fields[key].n < UINT64 && fields[key].n % 256 == code
  }

  ghost predicate IsKind(message: Json, kind: string) {
    message.Object? && "type" in message.fields && message.fields["type"] == Text(kind)
  }

  /** The messages by which a client puts a stone, passes, resigns or chats. */
  ghost predicate Says(message: Json, event: ClientEvent) {
    match event
    case ClientPutStone(c) =>
      IsKind(message, "put") && Gives(message.fields, "x", c.x) && Gives(message.fields, "y", c.y)
    case ClientPass => IsKind(message, "pass")
    case ClientResign => IsKind(message, "resign")
    case ClientChat(text) =>
      IsKind(message, "chat") && "message" in message.fields && message.fields["message"] == Text(text)
  }

  /** The reader of client messages takes exactly the messages that say something, for what they say. */
  lemma ClientMessagesMean(message: Json, event: ClientEvent)
    ensures DecodeClient(message) == Some(event) <==> Says(message, event)
  {
  }

  ghost predicate GivesPoint(j: Json, c: Coord) {
    && j.Array? && |j.items| == 2
    && j.items[0].Unsigned? && j.items[0].n < UINT64 && j.items[0].n % UINT32 == c.x
    && j.items[1].Unsigned? && j.items[1].n < UINT64 && j.items[1].n % UINT32 == c.y
  }

  ghost predicate GivesPoints(items: seq<Json>, captures: seq<Coord>) {
    |items| == |captures| && forall i :: 0 <= i < |items| ==> GivesPoint(items[i], captures[i])
  }

  /** A place names a point and may name captures. Nothing else may name either. */
  ghost predicate GivesMove(f: map<string, Json>, d: ServerDelta) {
    if d.action == PlaceAction then
      && d.coord.Some? && Gives(f, "x", d.coord.value.x) && Gives(f, "y", d.coord.value.y)
      && if "captures" in f then f["captures"].Array? && GivesPoints(f["captures"].items, d.captures) else d.captures == []
    else d.coord == None && d.captures == [] && "x" !in f && "y" !in f && "captures" !in f
  }

  /** The messages by which the server tells an event. */
  ghost predicate Tells(message: Json, event: ServerEvent) {
    match event
    case SessionAssign(id) => IsKind(message, "session") && Gives(message.fields, "sessionId", id)
    case GameConfig(size, komi, time) =>
      && IsKind(message, "config") && Gives(message.fields, "boardSize", size) && Gives(message.fields, "time", time)
      && "komi" in message.fields && NumberOf(message.fields["komi"]) == Some(komi)
    case Chat(player, id, text) =>
      && IsKind(message, "chat") && Gives(message.fields, "player", if player == Player.Black then 1 else 2)
      && Gives(message.fields, "messageId", id)
      && "message" in message.fields && message.fields["message"] == Text(text)
    case Delta(d) => IsKind(message, "delta") && TellsDelta(message.fields, d)
  }

  ghost predicate TellsDelta(f: map<string, Json>, d: ServerDelta) {
    && Gives(f, "turn", d.turn)
    && (d.seat == BlackSeat || d.seat == WhiteSeat) && GivesCode(f, "seat", if d.seat == BlackSeat then 2 else 4)
    && (d.next == BlackSeat || d.next == WhiteSeat) && GivesCode(f, "next", if d.next == BlackSeat then 2 else 4)
    && (match d.action
        case PlaceAction => GivesCode(f, "action", 0)
        case PassAction => GivesCode(f, "action", 1)
        case ResignAction => GivesCode(f, "action", 2)
        case CountAction => false)
    && (match d.status
        case ActiveStatus => GivesCode(f, "status", 0)
        case BlackWin => GivesCode(f, "status", 1)
        case WhiteWin => GivesCode(f, "status", 2)
        case Draw => GivesCode(f, "status", 3)
        case CountStatus => false)
    && GivesMove(f, d)
  }

  lemma {:induction false} CapturesMean(items: seq<Json>, captures: seq<Coord>)
    ensures DecodeCaptures(items) == Some(captures) <==> GivesPoints(items, captures)
  {
    if items == [] {
    } else {
      var init, last := items[..|items| - 1], items[|items| - 1];
      if captures != [] {
        var first, c := captures[..|captures| - 1], captures[|captures| - 1];
        CapturesMean(init, first);
        assert captures == first + [c];
        assert DecodeCapture(last) == Some(c) <==> GivesPoint(last, c);
        assert GivesPoints(items, captures) <==> GivesPoints(init, first) && GivesPoint(last, c);
      }
    }
  }

  lemma LowBits(n: nat)
    ensures n % UINT32 % 256 == n % 256
  {
  }

  lemma DeltasMean(f: map<string, Json>, d: ServerDelta)
    ensures DecodeDelta(f) == Some(d) <==> TellsDelta(f, d)
  {
    hide DecodeCaptures, GivesPoints;
    forall key | key in f && f[key].Unsigned? ensures AsByte(AsUnsigned(f[key])) == f[key].n % 256 {
      LowBits(f[key].n);
    }
    if "captures" in f && f["captures"].Array? {
      CapturesMean(f["captures"].items, d.captures);
    }
  }

  /** The reader of server messages takes exactly the messages that tell an event, for what they tell. */
  lemma ServerMessagesMean(message: Json, event: ServerEvent)
    ensures DecodeServer(message) == Some(event) <==> Tells(message, event)
  {
    hide DecodeDelta, TellsDelta;
    if message.Object? && event.Delta? {
      DeltasMean(message.fields, event.delta);
    }
  }

  // ----- Round trips -----

  predicate Fits32(c: Coord) {
    c.x < UINT32 && c.y < UINT32
  }

  /** The deltas the wire carries without loss: 32-bit numbers, real players, no counting values, and
      a point and captures exactly on a place. */
  ghost predicate Canonical(d: ServerDelta) {
    && d.turn < UINT32
    && IsPlayer(d.seat) && IsPlayer(d.next)
    && d.action != CountAction && d.status != CountStatus
    && (d.action == PlaceAction <==> d.coord.Some?)
    && (d.coord.Some? ==> Fits32(d.coord.value))
    && (d.action != PlaceAction ==> d.captures == [])
    && forall i :: 0 <= i < |d.captures| ==> Fits32(d.captures[i])
  }

  function Low32(c: Coord): Coord {
    Coord(c.x % UINT32, c.y % UINT32)
  }

  function AllLow32(captures: seq<Coord>): (low: seq<Coord>)
    ensures |low| == |captures| && forall i :: 0 <= i < |low| ==> low[i] == Low32(captures[i])
  {
    seq(|captures|, i requires 0 <= i < |captures| => Low32(captures[i]))
  }

  predicate Fits64(c: Coord) {
    c.x < UINT64 && c.y < UINT64
  }

  lemma {:induction false} CapturesDecode(captures: seq<Coord>)
    requires forall i :: 0 <= i < |captures| ==> Fits64(captures[i])
    ensures DecodeCaptures(CapturesJson(captures)) == Some(AllLow32(captures))
  {
    var items := CapturesJson(captures);
    if captures == [] {
    } else {
      var init, last := captures[..|captures| - 1], captures[|captures| - 1];
      CapturesDecode(init);
      assert items[..|items| - 1] == CapturesJson(init);
      assert DecodeCapture(items[|items| - 1]) == Some(Low32(last));
      assert AllLow32(captures) == AllLow32(init) + [Low32(last)];
    }
  }

  lemma CapturesRoundTrip(captures: seq<Coord>)
    ensures DecodeCaptures(CapturesJson(captures)) == Some(captures) <==>
            forall i :: 0 <= i < |captures| ==> Fits32(captures[i])
  {
    hide DecodeCaptures;
    if i :| 0 <= i < |captures| && !Fits64(captures[i]) {
      OneBadCapture(CapturesJson(captures), i);
    } else {
      CapturesDecode(captures);
      forall i | 0 <= i < |captures| ensures Low32(captures[i]) == captures[i] <==> Fits32(captures[i]) {
      }
      if forall i :: 0 <= i < |captures| ==> Fits32(captures[i]) {
        assert AllLow32(captures) == captures;
      }
    }
  }

  lemma EncodedFields(d: ServerDelta)
    requires EncodeDelta(d).Some?
    ensures
      var j := EncodeDelta(d).value;
      && j.Object?
      && var f := j.fields;
        && "type" in f && f["type"] == Text("delta")
        && "turn" in f && f["turn"] == Unsigned(d.turn)
        && "seat" in f && f["seat"] == Unsigned(SeatCode(d.seat))
        && "action" in f && f["action"] == Unsigned(ActionCode(d.action))
        && "next" in f && f["next"] == Unsigned(SeatCode(d.next))
        && "status" in f && f["status"] == Unsigned(StatusCode(d.status))
  {
  }

  lemma EncodedPoints(d: ServerDelta)
    requires EncodeDelta(d).Some?
    ensures
      var f := EncodeDelta(d).value.fields;
      if d.action == PlaceAction then
        && d.coord.Some?
        && "x" in f && f["x"] == Unsigned(d.coord.value.x)
        && "y" in f && f["y"] == Unsigned(d.coord.value.y)
        && ("captures" in f <==> d.captures != [])
        && ("captures" in f ==> f["captures"] == Array(CapturesJson(d.captures)))
      else "x" !in f && "y" !in f && "captures" !in f
  {
  }

  /** A delta survives the wire exactly when it is canonical. */
  lemma DeltaRoundTrip(d: ServerDelta)
    ensures (EncodeServer(Delta(d)).Some? && DecodeServer(EncodeServer(Delta(d)).value) == Some(Delta(d))) <==> Canonical(d)
  {
    hide EncodeDelta, BaseFields, CapturesJson, DecodeCaptures;
    CapturesRoundTrip(d.captures);
    NoDeltaWithoutPoint(d);
    if EncodeDelta(d).Some? {
      EncodedFields(d);
      EncodedPoints(d);
      var j := EncodeDelta(d).value.fields;
      assert DecodeServer(EncodeServer(Delta(d)).value) ==
             match DecodeDelta(j) case Some(delta) => Some(Delta(delta)) case None => None;
      DeltaSurvives(d, j);
    }
  }

  lemma NoDeltaWithoutPoint(d: ServerDelta)
    ensures EncodeDelta(d).None? <==> d.action == PlaceAction && d.coord.None?
  {
  }

  lemma SeatSurvives(seat: Seat)
    ensures IsUnsigned(Unsigned(SeatCode(seat)))
    ensures PlayerSeatOf(AsByte(AsUnsigned(Unsigned(SeatCode(seat))))) == if IsPlayer(seat) then Some(seat) else None
  {
  }

  lemma CodesSurvive(action: ServerAction, status: NwStatus)
    ensures IsUnsigned(Unsigned(ActionCode(action))) && IsUnsigned(Unsigned(StatusCode(status)))
    ensures ValidActionOf(AsByte(AsUnsigned(Unsigned(ActionCode(action))))) ==
            if action != CountAction then Some(action) else None
    ensures ValidStatusOf(AsByte(AsUnsigned(Unsigned(StatusCode(status))))) ==
            if status != CountStatus then Some(status) else None
  {
  }

  lemma NumberSurvives(n: nat)
    ensures IsUnsigned(Unsigned(n)) && AsUnsigned(Unsigned(n)) == n <==> n < UINT32
  {
  }

  lemma DeltaSurvives(d: ServerDelta, j: map<string, Json>)
    requires EncodeDelta(d) == Some(Object(j))
    ensures DecodeDelta(j) == Some(d) <==> Canonical(d)
  {
    hide EncodeDelta, BaseFields, CapturesJson, DecodeCaptures, PlayerSeatOf, SeatCode, ValidActionOf, ActionCode,
         ValidStatusOf, StatusCode, IsUnsigned, AsUnsigned, AsByte;
    EncodedFields(d);
    EncodedPoints(d);
    SeatSurvives(d.seat);
    SeatSurvives(d.next);
    CodesSurvive(d.action, d.status);
    NumberSurvives(d.turn);
    if d.coord.Some? {
      NumberSurvives(d.coord.value.x);
      NumberSurvives(d.coord.value.y);
    }
    CapturesRoundTrip(d.captures);
  }

  lemma {:induction false} DecodedCapturesFit(items: seq<Json>)
    requires DecodeCaptures(items).Some?
    ensures forall i :: 0 <= i < |DecodeCaptures(items).value| ==> Fits32(DecodeCaptures(items).value[i])
  {
    if items == [] {
    } else {
      DecodedCapturesFit(items[..|items| - 1]);
    }
  }

  lemma DecodedDeltaIsCanonical(j: map<string, Json>)
    requires DecodeDelta(j).Some?
    ensures Canonical(DecodeDelta(j).value)
  {
    hide DecodeCaptures, DecodeCapture;
    if "captures" in j && j["captures"].Array? && DecodeCaptures(j["captures"].items).Some? {
      DecodedCapturesFit(j["captures"].items);
    }
  }

  /** Whatever a client accepts as a delta is canonical, so sending it again would give the same delta:
      decoding normalises every accepted message, aliased codes and extra fields included. */
  lemma AcceptedDeltaIsCanonical(message: Json)
    requires DecodeServer(message).Some? && DecodeServer(message).value.Delta?
    ensures Canonical(DecodeServer(message).value.delta)
    ensures EncodeServer(DecodeServer(message).value).Some?
    ensures DecodeServer(EncodeServer(DecodeServer(message).value).value) == DecodeServer(message)
  {
    hide DecodeDelta, Canonical, EncodeServer;
    assert DecodeDelta(message.fields) == Some(DecodeServer(message).value.delta);
    DecodedDeltaIsCanonical(message.fields);
    DeltaRoundTrip(DecodeServer(message).value.delta);
  }

  /** The other server events survive the wire when their numbers have 32 bits. */
  lemma ServerEventRoundTrip(event: ServerEvent)
    requires !event.Delta?
    ensures DecodeServer(EncodeServer(event).value) == Some(event) <==>
            match event
            case SessionAssign(id) => id < UINT32
            case GameConfig(size, _, time) => size < UINT32 && time < UINT32
            case Chat(_, id, _) => id < UINT32
            case Delta(_) => true
  {
  }

  lemma ClientEventRoundTrip(event: ClientEvent)
    ensures DecodeClient(EncodeClient(event)) == Some(event) <==> (event.ClientPutStone? ==> Fits32(event.c))
  {
  }
}
