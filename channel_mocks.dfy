/**
 * The test doubles of the chat server's `channel` package: a membership
 * repository over fixed user and channel sets, a message repository filled
 * with a generated history, and a client that turns received messages into
 * requests for the room hub and records what the hub forwards to it.
 */
module ChannelMocks {
  import opened Wrappers
  import opened Decimal
  import opened Messages

  // ---------------------------------------------------------------------------
  // Membership repository
  // ---------------------------------------------------------------------------

  const MembershipError: string := "User or Channel does not exist"

  /** `usersChannelsRepoMock`: the known users and channels, as Go sets (`map[int]bool`). */
  datatype UsersChannelsRepoMock = UsersChannelsRepoMock(users: map<int, bool>, channels: map<int, bool>)
  {
    /**
     * `AddOrUpdateUserToChannel`: accepts exactly the pairs whose user and
     * channel are both keys of the repository's maps; the flag stored under
     * a key plays no part. The repository is a value, so it is left as it was.
     */
    function AddOrUpdateUserToChannel(userID: int, channelID: int): (e: Outcome)
      ensures e.Pass? <==> userID in users.Keys && channelID in channels.Keys
      ensures e.Fail? ==> e.message == MembershipError
    {
      if userID !in users || channelID !in channels then Fail(MembershipError) else Pass
    }
  }

  /** `NewUSersChannelsRepoMock`: users 1 to 5 and the single channel 1. */
  function NewUsersChannelsRepoMock(): (repo: UsersChannelsRepoMock)
    ensures forall u :: u in repo.users ==> repo.users[u]
    ensures forall c :: c in repo.channels ==> repo.channels[c]
  {
    UsersChannelsRepoMock(map[1 := true, 2 := true, 3 := true, 4 := true, 5 := true], map[1 := true])
  }

  /** With the fixture, a user may join exactly when it is one of users 1 to 5 and the channel is 1. */
  lemma FixtureMembership(userID: int, channelID: int)
    ensures NewUsersChannelsRepoMock().AddOrUpdateUserToChannel(userID, channelID).Pass?
        <==> 1 <= userID <= 5 && channelID == 1
  {
  }

  /** Only the key sets decide membership: two repositories with the same keys answer alike. */
  lemma MembershipDependsOnKeysOnly(a: UsersChannelsRepoMock, b: UsersChannelsRepoMock, userID: int, channelID: int)
    requires a.users.Keys == b.users.Keys && a.channels.Keys == b.channels.Keys
    ensures a.AddOrUpdateUserToChannel(userID, channelID) == b.AddOrUpdateUserToChannel(userID, channelID)
  {
  }

  // ---------------------------------------------------------------------------
  // Message repository
  // ---------------------------------------------------------------------------

  /** The i-th message (1-based) the fixture stores for room j. */
  function FixtureMessage(room: int, i: int): (m: Message)
    ensures m.userID == 1 && m.roomIDs == [room]
  {
    Message(1, "Room " + Itoa(room) + " message " + Itoa(i), [room])
  }

  /**
   * The table `NewMessagesRepoMock(n, rooms)` builds: when n >= 1, one entry
   * for each room 1..rooms, holding messages 1..n of that room in order;
   * otherwise no entry at all.
   */
  ghost predicate FixtureShape(table: map<int, seq<Message>>, n: int, rooms: int) {
    && (forall room :: room in table <==> n >= 1 && 1 <= room <= rooms)
    && (forall room :: room in table ==> |table[room]| == n)
    && (forall room, i :: room in table && 0 <= i < |table[room]| ==> table[room][i] == FixtureMessage(room, i + 1))
  }

  /** `messagesRepoMock`: the stored history of every room. */
  datatype MessagesRepoMock = MessagesRepoMock(messages: map<int, seq<Message>>)
  {
    /** Go's map lookup: a room without an entry reads as an empty (nil) slice. */
    function RoomMessages(room: int): seq<Message> {
      if room in messages then messages[room] else []
    }

    /**
     * `GetAllWhere`: a one-element result holding the `limit` messages that
     * come just before the room's last message, in stored order. The Go
     * slice expression panics unless 0 <= limit <= len - 1.
     */
    function GetAllWhere(column: string, room: int, limit: int): (history: seq<seq<Message>>)
      requires 0 <= limit < |RoomMessages(room)|
      ensures |history| == 1 && |history[0]| == limit
      ensures var all := RoomMessages(room);
        all == all[..|all| - 1 - limit] + history[0] + [all[|all| - 1]]
    {
      var all := RoomMessages(room);
      [all[|all| - 1 - limit..|all| - 1]]
    }
  }

  /** `NewMessagesRepoMock`: fills the table room by room, appending message after message. */
  method NewMessagesRepoMock(nrOfMessages: int, nrOfRooms: int) returns (repo: MessagesRepoMock)
    ensures FixtureShape(repo.messages, nrOfMessages, nrOfRooms)
  {
    var messages: map<int, seq<Message>> := map[];
    var j := 1;
    while j <= nrOfRooms
      invariant 1 <= j <= if nrOfRooms >= 1 then nrOfRooms + 1 else 1
      invariant forall room :: room in messages <==> nrOfMessages >= 1 && 1 <= room < j
      invariant forall room :: room in messages ==> |messages[room]| == nrOfMessages
      invariant forall room, p :: room in messages && 0 <= p < |messages[room]| ==>
        messages[room][p] == FixtureMessage(room, p + 1)
    {
      var i := 1;
      while i <= nrOfMessages
        invariant 1 <= i <= if nrOfMessages >= 1 then nrOfMessages + 1 else 1
        invariant forall room :: room in messages <==> (nrOfMessages >= 1 && 1 <= room < j) || (room == j && i > 1)
        invariant forall room :: room in messages && room != j ==> |messages[room]| == nrOfMessages
        invariant j in messages ==> |messages[j]| == i - 1
        invariant forall room, p :: room in messages && 0 <= p < |messages[room]| ==>
          messages[room][p] == FixtureMessage(room, p + 1)
      {
        var current := if j in messages then messages[j] else [];
        assert |current| == i - 1;
        var appended := current + [FixtureMessage(j, i)];
        assert forall p :: 0 <= p < |appended| ==> appended[p] == FixtureMessage(j, p + 1);
        messages := messages[j := appended];
        i := i + 1;
      }
      j := j + 1;
    }
    repo := MessagesRepoMock(messages);
  }

  /**
   * On the fixture, the history window of room j with the given limit holds
   * messages n - limit .. n - 1 of that room: never the room's n-th message.
   */
  lemma FixtureHistoryWindow(repo: MessagesRepoMock, n: int, rooms: int, column: string, room: int, limit: int)
    requires FixtureShape(repo.messages, n, rooms)
    requires 1 <= room <= rooms && 0 <= limit < n
    ensures 0 <= limit < |repo.RoomMessages(room)|
    ensures var window := repo.GetAllWhere(column, room, limit)[0];
      forall k :: 0 <= k < |window| ==> window[k] == FixtureMessage(room, n - limit + k)
  {
    var all := repo.RoomMessages(room);
    assert room in repo.messages && |all| == n;
    var window := repo.GetAllWhere(column, room, limit)[0];
    assert window == all[n - 1 - limit..n - 1];
    forall k | 0 <= k < |window|
      ensures window[k] == FixtureMessage(room, n - limit + k)
    {
      assert window[k] == all[n - 1 - limit + k];
    }
  }

  /** Five stored messages and a limit of 2 give back messages 3 and 4 of the room. */
  lemma FiveMessagesLimitTwo(repo: MessagesRepoMock, column: string)
    requires FixtureShape(repo.messages, 5, 1)
    ensures 2 < |repo.RoomMessages(1)|
    ensures repo.GetAllWhere(column, 1, 2) == [[FixtureMessage(1, 3), FixtureMessage(1, 4)]]
  {
    FixtureHistoryWindow(repo, 5, 1, column, 1, 2);
    var window := repo.GetAllWhere(column, 1, 2)[0];
    assert window[0] == FixtureMessage(1, 3) && window[1] == FixtureMessage(1, 4);
    assert window == [FixtureMessage(1, 3), FixtureMessage(1, 4)];
  }

  // ---------------------------------------------------------------------------
  // Client
  // ---------------------------------------------------------------------------

  /** The limit a join asks for when its content is not a number. */
  const DefaultHistoryLimit: int := 30

  /** `ClientRooms`: a client and the rooms it names. */
  datatype ClientRooms = ClientRooms(client: ClientMock, rooms: seq<int>)

  /** `ClientJoinsRooms`: a join together with how much history it asks for. */
  datatype ClientJoinsRooms = ClientJoinsRooms(clientRooms: ClientRooms, historyLimit: int)

  /** `ClientMessage`: a client and a message it wants broadcast. */
  datatype ClientMessage = ClientMessage(client: ClientMock, message: ReceivedMessage)

  /** What the client sends to the hub; the variant says on which of the hub's channels it goes. */
  datatype HubRequest =
    | JoinRequest(join: ClientJoinsRooms)
    | LeaveRequest(leave: ClientRooms)
    | MessageRequest(queued: ClientMessage)
  {
    function Client(): ClientMock {
      match this
      case JoinRequest(j) => j.clientRooms.client
      case LeaveRequest(l) => l.client
      case MessageRequest(q) => q.client
    }
  }

  /** The history limit carried by a join's content: its `Atoi` value, or 30 when that fails. */
  function HistoryLimit(content: string): (limit: int)
    ensures InIntRange(limit)
  {
    match Atoi(content)
    case Some(v) => v
    case None => DefaultHistoryLimit
  }

  /** A limit written with `Itoa` is read back unchanged. */
  lemma HistoryLimitOfItoa(n: int)
    requires InIntRange(n)
    ensures HistoryLimit(Itoa(n)) == n
  {
    AtoiItoa(n);
  }

  /** Content without a single digit (the empty content of a leave, say) falls back to 30. */
  lemma HistoryLimitWithoutDigits(content: string)
    requires forall i :: 0 <= i < |content| ==> !IsDigit(content[i])
    ensures HistoryLimit(content) == DefaultHistoryLimit
  {
  }

  /** `clientMock`: a client whose reads and writes go through fields instead of a socket. */
  class ClientMock {
    const userID: int
    /** `nextMessageToRead`; None stands for Go's nil pointer. */
    var nextMessageToRead: Option<ReceivedMessage>
    /** `messages`: what the hub has forwarded so far, oldest first. */
    var messages: seq<BroadcastedMessage>

    /** `NewClientMock`. */
    constructor (userID: int)
      ensures this.userID == userID
      ensures nextMessageToRead == None && messages == []
    {
      this.userID := userID;
      nextMessageToRead := None;
      messages := [];
    }

    /**
     * The decision `Read` takes on a received message: a "join", "leave"
     * or "message" action gives exactly one request of the matching kind,
     * from this client, with the message's rooms; any other action gives none.
     */
    function Dispatch(m: ReceivedMessage): (r: Option<HubRequest>)
      ensures r.Some? <==> m.action == "join" || m.action == "leave" || m.action == "message"
      ensures r.Some? ==> r.value.Client() == this
      ensures r.Some? && r.value.JoinRequest? <==> m.action == "join"
      ensures r.Some? && r.value.LeaveRequest? <==> m.action == "leave"
      ensures r.Some? && r.value.MessageRequest? <==> m.action == "message"
      ensures r.Some? && r.value.JoinRequest? ==>
        r.value.join.clientRooms.rooms == m.roomIDs && r.value.join.historyLimit == HistoryLimit(m.content)
      ensures r.Some? && r.value.LeaveRequest? ==> r.value.leave.rooms == m.roomIDs
      ensures r.Some? && r.value.MessageRequest? ==> r.value.queued.message == m
    {
      if m.action == "join" then
        Some(JoinRequest(ClientJoinsRooms(ClientRooms(this, m.roomIDs), HistoryLimit(m.content))))
      else if m.action == "leave" then
        Some(LeaveRequest(ClientRooms(this, m.roomIDs)))
      else if m.action == "message" then
        Some(MessageRequest(ClientMessage(this, m)))
      else
        None
    }

    /**
     * `Read`: hands the pending message to the hub. The request that Go
     * sends on the hub's channel is returned instead. Go dereferences the
     * pending message, so there must be one.
     */
    method Read() returns (request: Option<HubRequest>)
      requires nextMessageToRead.Some?
      ensures request == Dispatch(nextMessageToRead.value)
    {
      var m := nextMessageToRead.value;
      if m.action == "join" {
        var historyLimit := DefaultHistoryLimit;
        var given := Atoi(m.content);
        if given.Some? {
          historyLimit := given.value;
        }
        request := Some(JoinRequest(ClientJoinsRooms(ClientRooms(this, m.roomIDs), historyLimit)));
      } else if m.action == "leave" {
        request := Some(LeaveRequest(ClientRooms(this, m.roomIDs)));
      } else if m.action == "message" {
        request := Some(MessageRequest(ClientMessage(this, m)));
      } else {
        request := None;
      }
    }

    /**
     * `Write`: records every forwarded message, in arrival order. The
     * sequence stands for what arrives on the forwarding channel.
     */
    method Write(forwarded: seq<BroadcastedMessage>)
      modifies this`messages
      ensures messages == old(messages) + forwarded
    {
      var i := 0;
      while i < |forwarded|
        invariant 0 <= i <= |forwarded|
        invariant messages == old(messages) + forwarded[..i]
      {
        messages := messages + [forwarded[i]];
        i := i + 1;
      }
      assert forwarded[..i] == forwarded;
    }

    /** `clearMessages`: forgets everything recorded so far. */
    method ClearMessages()
      modifies this`messages
      ensures messages == []
    {
      messages := [];
    }

    /** `setNextMessageToRead`. */
    method SetNextMessageToRead(rm: ReceivedMessage)
      modifies this`nextMessageToRead
      ensures nextMessageToRead == Some(rm)
    {
      nextMessageToRead := Some(rm);
    }

    /** `setNextMessageToReadAndRead`: sets the pending message, then reads it. */
    method SetNextMessageToReadAndRead(rm: ReceivedMessage) returns (request: Option<HubRequest>)
      modifies this`nextMessageToRead
      ensures nextMessageToRead == Some(rm)
      ensures request == Dispatch(rm)
    {
      nextMessageToRead := Some(rm);
      request := Read();
    }

    /** `joinRoomsMessage`: a join whose content is the history limit written in decimal. */
    function JoinRoomsMessage(historyLimit: int, roomIDs: seq<int>): (m: ReceivedMessage)
      requires InIntRange(historyLimit)
      ensures m.userID == userID && m.action == "join" && m.roomIDs == roomIDs
      ensures Atoi(m.content) == Some(historyLimit)
    {
      AtoiItoa(historyLimit);
      ReceivedMessage(userID, "join", roomIDs, Itoa(historyLimit))
    }

    /** `leaveRoomsMessage`: a leave with empty content. */
    function LeaveRoomsMessage(roomIDs: seq<int>): (m: ReceivedMessage)
      ensures m.userID == userID && m.action == "leave" && m.roomIDs == roomIDs
      ensures m.content == ""
    {
      ReceivedMessage(userID, "leave", roomIDs, "")
    }

    /** `sendMessageToRooms`: a chat message for the given rooms. */
    function SendMessageToRooms(content: string, roomIDs: seq<int>): (m: ReceivedMessage)
      ensures m.userID == userID && m.action == "message" && m.roomIDs == roomIDs
      ensures m.content == content
    {
      ReceivedMessage(userID, "message", roomIDs, content)
    }
  }

  /** Reading a message built by `joinRoomsMessage(L, rooms...)` asks to join those rooms with limit L. */
  lemma ReadJoinRoomsMessage(c: ClientMock, historyLimit: int, roomIDs: seq<int>)
    requires InIntRange(historyLimit)
    ensures c.Dispatch(c.JoinRoomsMessage(historyLimit, roomIDs))
         == Some(JoinRequest(ClientJoinsRooms(ClientRooms(c, roomIDs), historyLimit)))
  {
  }

  /** Reading a message built by `leaveRoomsMessage(rooms...)` asks to leave those rooms. */
  lemma ReadLeaveRoomsMessage(c: ClientMock, roomIDs: seq<int>)
    ensures c.Dispatch(c.LeaveRoomsMessage(roomIDs)) == Some(LeaveRequest(ClientRooms(c, roomIDs)))
  {
  }

  /** Reading a message built by `sendMessageToRooms` queues that very message for broadcast. */
  lemma ReadSendMessageToRooms(c: ClientMock, content: string, roomIDs: seq<int>)
    ensures c.Dispatch(c.SendMessageToRooms(content, roomIDs))
         == Some(MessageRequest(ClientMessage(c, c.SendMessageToRooms(content, roomIDs))))
  {
  }
}
