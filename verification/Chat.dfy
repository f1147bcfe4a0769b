/** Chat: numbered by the server, put back in order by every client. */
module ChatLog {
  import opened Model
  import opened Wire

  // ----- The server's log -----

  datatype ChatLine = ChatLine(player: Player, text: string)

  /** The message the server broadcasts for line i of its log: ids start at 1. */
  function Broadcast(log: seq<ChatLine>, i: nat): ServerEvent
    requires i < |log|
  {
    Chat(log[i].player, i + 1, log[i].text)
  }

  class ServerChatLog {
    var history: seq<ChatLine>
    ghost var broadcasts: seq<ServerEvent>

    ghost predicate Valid()
      reads this
    {
      |broadcasts| == |history| && forall i :: 0 <= i < |history| ==> broadcasts[i] == Broadcast(history, i)
    }

    constructor ()
      ensures Valid() && history == []
    {
      history, broadcasts := [], [];
    }

    /** Appends a line and sends it with the number of lines so far; what was sent before stays true. */
    method Say(player: Player, text: string) returns (sent: ServerEvent)
      requires Valid()
      modifies this
      ensures Valid() && history == old(history) + [ChatLine(player, text)]
      ensures broadcasts == old(broadcasts) + [sent]
    {
      history := history + [ChatLine(player, text)];
      sent := Chat(player, |history|, text);
      broadcasts := broadcasts + [sent];
    }
  }

  // ----- The client's history -----

  datatype ChatEntry = ChatEntry(player: Player, messageId: nat, message: string)

  datatype ChatState = ChatState(expected: nat, history: seq<ChatEntry>, pending: map<nat, ChatEntry>)

  const NO_CHAT := ChatState(1, [], map[])

  /** Moves the next expected entry from the buffer to the history. */
  function Popped(s: ChatState): ChatState
    requires s.expected in s.pending
  {
    ChatState(s.expected + 1, s.history + [s.pending[s.expected]], s.pending - {s.expected})
  }

  lemma PoppedShrinks(s: ChatState)
    requires s.expected in s.pending
    ensures |Popped(s).pending| < |s.pending|
  {
    assert s.pending.Keys == Popped(s).pending.Keys + {s.expected};
  }

  function Drain(s: ChatState): ChatState
    decreases |s.pending|
  {
    if s.expected in s.pending then
      PoppedShrinks(s);
      Drain(Popped(s))
    else s
  }

  function Filed(s: ChatState, e: ChatEntry): ChatState {
    if e.messageId < s.expected then s
    else if e.messageId == s.expected then ChatState(s.expected + 1, s.history + [e], s.pending)
    else if e.messageId in s.pending then s
    else s.(pending := s.pending[e.messageId := e])
  }

  class ClientChatLog {
    var expectedMessageId: nat
    var chatHistory: seq<ChatEntry>
    var pendingChat: map<nat, ChatEntry>

    ghost function View(): ChatState
      reads this
    {
      ChatState(expectedMessageId, chatHistory, pendingChat)
    }

    constructor ()
      ensures View() == NO_CHAT
    {
      expectedMessageId, chatHistory, pendingChat := 1, [], map[];
    }

    method Reset()
      modifies this
      ensures View() == NO_CHAT
    {
      expectedMessageId, chatHistory, pendingChat := 1, [], map[];
    }

    method OnChatMessage(player: Player, messageId: nat, message: string) returns (appended: bool)
      modifies this
      ensures View() == Drain(Filed(old(View()), ChatEntry(player, messageId, message)))
      ensures appended <==> |chatHistory| > |old(chatHistory)|
    {
      appended := false;
      if messageId < expectedMessageId {
      } else if messageId == expectedMessageId {
        chatHistory := chatHistory + [ChatEntry(player, messageId, message)];
        expectedMessageId := expectedMessageId + 1;
        appended := true;
      } else if messageId !in pendingChat {
        pendingChat := pendingChat[messageId := ChatEntry(player, messageId, message)];
      }
      ghost var filed := View();
      assert filed == Filed(old(View()), ChatEntry(player, messageId, message));
      hide Filed;
      while expectedMessageId in pendingChat
        invariant Drain(View()) == Drain(filed)
        invariant |chatHistory| >= |old(chatHistory)|
        invariant appended <==> |chatHistory| > |old(chatHistory)|
        decreases |pendingChat|
      {
        PoppedShrinks(View());
        chatHistory := chatHistory + [pendingChat[expectedMessageId]];
        pendingChat := pendingChat - {expectedMessageId};
        expectedMessageId := expectedMessageId + 1;
        appended := true;
      }
    }

    /** The entries after a message, found by the binary search of std::upper_bound, which needs the ids in
        order. */
    method GetChatSince(messageId: nat) returns (since: seq<ChatEntry>)
      requires ById(chatHistory)
      ensures since == chatHistory[FirstAfter(chatHistory, messageId)..]
    {
      var low, high := 0, |chatHistory|;
      while low < high
        invariant 0 <= low <= high <= |chatHistory|
        invariant forall k :: 0 <= k < low ==> chatHistory[k].messageId <= messageId
        invariant forall k :: high <= k < |chatHistory| ==> chatHistory[k].messageId > messageId
      {
        var middle := (low + high) / 2;
        if chatHistory[middle].messageId > messageId {
          high := middle;
        } else {
          low := middle + 1;
        }
      }
      ghost var first := FirstAfter(chatHistory, messageId);
      assert first < |chatHistory| ==> chatHistory[first].messageId > messageId;
      assert low < |chatHistory| ==> chatHistory[low].messageId > messageId;
      since := chatHistory[low..];
    }
  }

  /** The entries come in the order of their ids. */
  ghost predicate ById(history: seq<ChatEntry>) {
    forall i, j :: 0 <= i < j < |history| ==> history[i].messageId < history[j].messageId
  }

  /** The position of the first entry with a larger id, or the end. */
  ghost function FirstAfter(history: seq<ChatEntry>, messageId: nat): (i: nat)
    ensures i <= |history|
    ensures forall k :: 0 <= k < i ==> history[k].messageId <= messageId
    ensures i < |history| ==> history[i].messageId > messageId
  {
    if history == [] then 0
    else
      var i := FirstAfter(history[..|history| - 1], messageId);
      if i < |history| - 1 then i
      else if history[|history| - 1].messageId > messageId then i else |history|
  }

  // ----- Reassembly -----

  function Entry(log: seq<ChatLine>, id: nat): ChatEntry
    requires 1 <= id <= |log|
  {
    ChatEntry(log[id - 1].player, id, log[id - 1].text)
  }

  /** The state of a client that has been delivered exactly the given ids of the log. */
  ghost predicate Holds(log: seq<ChatLine>, delivered: set<nat>, s: ChatState) {
    && s.expected == |s.history| + 1
    && |s.history| <= |log|
    && (forall k :: 0 <= k < |s.history| ==> s.history[k] == Entry(log, k + 1))
    && (forall id :: id in delivered ==> 1 <= id <= |log|)
    && (forall id :: 1 <= id < s.expected ==> id in delivered)
    && (forall id :: id in s.pending <==> id in delivered && id >= s.expected)
    && (forall id :: id in s.pending ==> s.pending[id] == Entry(log, id))
  }

  lemma {:induction false} DrainHolds(log: seq<ChatLine>, delivered: set<nat>, s: ChatState)
    requires Holds(log, delivered, s)
    ensures Holds(log, delivered, Drain(s))
    ensures Drain(s).expected !in delivered
    decreases |s.pending|
  {
    if s.expected !in s.pending {
      assert s.expected !in delivered;
    } else {
      hide Holds, Popped;
      PoppedHolds(log, delivered, s);
      PoppedShrinks(s);
      DrainHolds(log, delivered, Popped(s));
    }
  }

  lemma PoppedHolds(log: seq<ChatLine>, delivered: set<nat>, s: ChatState)
    requires Holds(log, delivered, s) && s.expected in s.pending
    ensures Holds(log, delivered, Popped(s))
  {
  }

  lemma FiledHolds(log: seq<ChatLine>, delivered: set<nat>, s: ChatState, id: nat)
    requires Holds(log, delivered, s) && s.expected !in delivered && 1 <= id <= |log|
    ensures Holds(log, delivered + {id}, Filed(s, Entry(log, id)))
  {
  }

  lemma {:induction false} DrainKeeps(s: ChatState)
    ensures s.history <= Drain(s).history
    ensures forall id :: id in s.pending ==>
              (id in Drain(s).pending && Drain(s).pending[id] == s.pending[id]) || s.pending[id] in Drain(s).history
    decreases |s.pending|
  {
    hide Drain;
    if s.expected !in s.pending {
      assert Drain(s) == s by { DrainDone(s); }
    } else {
      PoppedShrinks(s);
      DrainStep(s);
      DrainKeeps(Popped(s));
      assert Popped(s).history[|s.history|] == s.pending[s.expected];
    }
  }

  lemma DrainDone(s: ChatState)
    requires s.expected !in s.pending
    ensures Drain(s) == s
  {
  }

  lemma DrainStep(s: ChatState)
    requires s.expected in s.pending
    ensures Drain(s) == Drain(Popped(s))
  {
  }

  /** Whatever arrives, nothing received is lost or replaced: the history is only appended to, and an entry that
      waits goes on waiting as it is or comes into the history. */
  lemma NothingIsReplaced(s: ChatState, e: ChatEntry)
    ensures
      var next := Drain(Filed(s, e));
      && s.history <= next.history
      && forall id :: id in s.pending ==>
           (id in next.pending && next.pending[id] == s.pending[id]) || s.pending[id] in next.history
  {
    hide Drain;
    DrainKeeps(Filed(s, e));
  }

  function DeliverAll(log: seq<ChatLine>, ids: seq<nat>): ChatState
    requires forall i :: 0 <= i < |ids| ==> 1 <= ids[i] <= |log|
  {
    if ids == [] then NO_CHAT
    else Drain(Filed(DeliverAll(log, ids[..|ids| - 1]), Entry(log, ids[|ids| - 1])))
  }

  ghost function IdSet(ids: seq<nat>): set<nat> {
    set id | id in ids
  }

  lemma {:induction false} DeliveredHolds(log: seq<ChatLine>, ids: seq<nat>)
    requires forall i :: 0 <= i < |ids| ==> 1 <= ids[i] <= |log|
    ensures Holds(log, IdSet(ids), DeliverAll(log, ids))
    ensures DeliverAll(log, ids).expected !in IdSet(ids)
  {
    hide Filed, Drain;
    if ids == [] {
    } else {
      hide Holds;
      var init, last := ids[..|ids| - 1], ids[|ids| - 1];
      assert ids == init + [last];
      DeliveredHolds(log, init);
      FiledHolds(log, IdSet(init), DeliverAll(log, init), last);
      assert IdSet(init) + {last} == IdSet(ids);
      DrainHolds(log, IdSet(ids), Filed(DeliverAll(log, init), Entry(log, last)));
    }
  }

  /** Reassembly is exact: after any deliveries from the server's log, in any order and with losses and
      repeats, the history is the beginning of the log up to the first line not delivered. */
  lemma ReassemblyIsExact(log: seq<ChatLine>, ids: seq<nat>)
    requires forall i :: 0 <= i < |ids| ==> 1 <= ids[i] <= |log|
    ensures
      var s := DeliverAll(log, ids);
      var k := |s.history|;
      && k <= |log| && s.expected == k + 1
      && (forall i :: 0 <= i < k ==> s.history[i] == Entry(log, i + 1))
      && (forall id :: 1 <= id <= k ==> id in ids)
      && k + 1 !in ids
  {
    hide DeliverAll;
    DeliveredHolds(log, ids);
    var s := DeliverAll(log, ids);
    forall id | 1 <= id <= |s.history| ensures id in ids {
      assert id in IdSet(ids);
    }
  }

  lemma HistoryIsLog(log: seq<ChatLine>, ids: seq<nat>)
    requires forall i :: 0 <= i < |ids| ==> 1 <= ids[i] <= |log|
    ensures
      var history := DeliverAll(log, ids).history;
      |history| <= |log| && forall i :: 0 <= i < |history| ==> history[i] == Entry(log, i + 1)
  {
    hide DeliverAll;
    ReassemblyIsExact(log, ids);
  }

  lemma FirstAfterInLog(log: seq<ChatLine>, history: seq<ChatEntry>, m: nat)
    requires |history| <= |log| && forall i :: 0 <= i < |history| ==> history[i] == Entry(log, i + 1)
    ensures FirstAfter(history, m) == if m <= |history| then m else |history|
  {
    var i := FirstAfter(history, m);
    if i < |history| {
      assert history[i] == Entry(log, i + 1);
    }
    if i > 0 {
      assert history[i - 1] == Entry(log, i);
    }
  }

  /** In every client the history is in order of ids, as the search for what came after a message needs, and
      that search yields exactly the lines m + 1, m + 2, ... up to the last line received in order. */
  lemma SinceIsExact(log: seq<ChatLine>, ids: seq<nat>, m: nat)
    requires forall i :: 0 <= i < |ids| ==> 1 <= ids[i] <= |log|
    ensures
      var history := DeliverAll(log, ids).history;
      var since := history[FirstAfter(history, m)..];
      && ById(history)
      && |since| == (if m <= |history| then |history| - m else 0)
      && forall i :: 0 <= i < |since| ==> m + i + 1 <= |log| && since[i] == Entry(log, m + i + 1)
  {
    hide DeliverAll, FirstAfter;
    HistoryIsLog(log, ids);
    FirstAfterInLog(log, DeliverAll(log, ids).history, m);
  }

  /** The wire carries every chat message of the log unchanged. */
  lemma ChatCrossesTheWire(log: seq<ChatLine>, i: nat)
    requires i < |log| < UINT32
    ensures EncodeServer(Broadcast(log, i)).Some?
    ensures DecodeServer(EncodeServer(Broadcast(log, i)).value) == Some(Broadcast(log, i))
  {
    ServerEventRoundTrip(Broadcast(log, i));
  }
}
