# Chat channel test doubles, modelled in Dafny

This project models the test doubles of the `channel` package of a room-based
chat server (`channel/mocks.go`). They stand in for the real collaborators of
the room hub and encode the chat protocol's rules:

- a membership repository that accepts a user joining a channel exactly when
  both are among fixed sets (users 1 to 5, channel 1);
- a message repository whose history fixture holds, for each room `j`,
  messages "Room j message 1" .. "Room j message n", and whose history query
  returns a window of `limit` messages ending just before the room's last one;
- a client that turns each received message into at most one request for the
  hub (join with a history limit, leave, or broadcast), builds the messages the
  tests feed it, and records the messages the hub forwards to it.

Modules:

- `Wrappers` (`wrappers.dfy`): `Option` and `Outcome` (Go's `error` return).
- `Decimal` (`decimal.dfy`): `Itoa` and `Atoi` as Go's `strconv` defines them
  (optional sign, then digits; values limited to a 64-bit `int`), with the
  round trip `Atoi(Itoa(n)) == Some(n)` and its converse for canonical text.
- `Messages` (`messages.dfy`): the received, forwarded and stored message shapes.
- `ChannelMocks` (`channel_mocks.dfy`): the mocks. Pure Go code (the
  membership check, the history query, the dispatch decision of `Read`, the
  message builders) is modelled as functions with lemmas; code that changes
  state (building the history table with nested loops, the client's fields)
  as methods, the client as a class `ClientMock`.

Modelling choices:

- `Read` sends its request on one of three Go channels of the hub. The model
  returns the request instead; the variant of `HubRequest` names the channel.
- `Write` ranges over the client's forwarding channel. The model's `Write`
  takes the sequence of messages that arrive there before it is closed.
- A nil `nextMessageToRead` is `None`; `Read` requires a pending message,
  because Go dereferences the pointer and would panic.
- `GetAllWhere` requires `0 <= limit <= len - 1`, `len` being the length of
  the room's list: outside that range the Go slice expression panics.

Where the code and the service's intended behaviour differ, the model follows
the code:

- The history window leaves out the room's last message: with five stored
  messages and a limit of 2 it gives messages 3 and 4 (`FiveMessagesLimitTwo`),
  where the service is meant to replay the last two.
- The history limit of a join travels in the message's `Content` text, not in
  a field of its own.
- `Read` forwards a join, leave or broadcast with an empty room list like any
  other; nothing rejects it locally.

## Model

| member | source | states |
|---|---|---|
| `ChannelMocks.UsersChannelsRepoMock.AddOrUpdateUserToChannel` | channel/mocks.go:59-66 | succeeds iff the user id and the channel id are both keys of the repository's maps; otherwise fails with "User or Channel does not exist" |
| `ChannelMocks.NewUsersChannelsRepoMock` | channel/mocks.go:44-57 | the fixture marks every user and channel it holds as present |
| `ChannelMocks.FixtureMembership` | channel/mocks.go:44-66 | with the fixture, a join is accepted exactly for users 1..5 with channel 1 and refused for every other pair |
| `ChannelMocks.MembershipDependsOnKeysOnly` | channel/mocks.go:59-62 | only the key sets matter: repositories with equal key sets give the same answer whatever flags they store |
| `ChannelMocks.FixtureMessage` | channel/mocks.go:76-80 | each fixture message is posted by user 1 to exactly its own room |
| `ChannelMocks.NewMessagesRepoMock` | channel/mocks.go:72-84 | the table has keys exactly 1..rooms when n >= 1 and none otherwise; each list has n entries and entry i of room j is "Room j message i+1" from user 1 to room [j] |
| `ChannelMocks.MessagesRepoMock.GetAllWhere` | channel/mocks.go:98-100 | defined only for 0 <= limit <= len-1; returns one list of exactly `limit` messages which, followed by the room's last message, is a suffix of the room's list (older prefix ++ window ++ last) |
| `ChannelMocks.FixtureHistoryWindow` | channel/mocks.go:98-100 | on the fixture, the window of room j holds messages n-limit .. n-1 of that room, in order, never message n |
| `ChannelMocks.FiveMessagesLimitTwo` | channel/mocks.go:98-100 | five stored messages and a limit of 2 give exactly messages 3 and 4 |
| `ChannelMocks.HistoryLimit` | channel/mocks.go:131-135 | the limit taken from a join's content is always a value a Go `int` holds |
| `ChannelMocks.HistoryLimitOfItoa` | channel/mocks.go:131-135 | content that is a number written in decimal gives that number as the limit |
| `ChannelMocks.HistoryLimitWithoutDigits` | channel/mocks.go:131-135 | content with no digit (as the empty content of a leave) gives the default limit 30 |
| `ChannelMocks.ClientMock.constructor` | channel/mocks.go:116-126 | a new client has the given user id, no pending message and no recorded messages |
| `ChannelMocks.ClientMock.Dispatch` | channel/mocks.go:128-150 | "join", "leave" and "message" each give exactly one request of the matching kind from this client, and any other action gives none; join and leave carry the message's rooms, join the parsed limit or 30, message the received message itself |
| `ChannelMocks.ClientMock.Read` | channel/mocks.go:128-150 | requires a pending message; returns the request `Dispatch` decides for it and changes nothing |
| `ChannelMocks.ClientMock.Write` | channel/mocks.go:152-156 | the recorded messages become the old ones followed by every forwarded message, in arrival order, and nothing else changes |
| `ChannelMocks.ClientMock.ClearMessages` | channel/mocks.go:205-207 | the recorded messages become empty |
| `ChannelMocks.ClientMock.SetNextMessageToRead` | channel/mocks.go:170-172 | the pending message becomes the given one |
| `ChannelMocks.ClientMock.SetNextMessageToReadAndRead` | channel/mocks.go:174-177 | the pending message becomes the given one and the result is the request it dispatches to |
| `ChannelMocks.ClientMock.JoinRoomsMessage` | channel/mocks.go:179-186 | a "join" from this client for the given rooms whose content parses back to the given limit |
| `ChannelMocks.ClientMock.LeaveRoomsMessage` | channel/mocks.go:188-194 | a "leave" from this client for the given rooms with empty content |
| `ChannelMocks.ClientMock.SendMessageToRooms` | channel/mocks.go:196-203 | a "message" from this client for the given rooms carrying the given content |
| `ChannelMocks.ReadJoinRoomsMessage` | channel/mocks.go:179-186 | reading a built join message yields a join request for exactly those rooms with exactly that limit |
| `ChannelMocks.ReadLeaveRoomsMessage` | channel/mocks.go:188-194 | reading a built leave message yields a leave request for exactly those rooms |
| `ChannelMocks.ReadSendMessageToRooms` | channel/mocks.go:196-203 | reading a built chat message yields a broadcast request wrapping that same message |
| `Decimal.Itoa` | channel/mocks.go:184 | the text is non-empty, starts with '-' iff the number is negative, and is otherwise made of digits |
| `Decimal.Atoi` | channel/mocks.go:132 | a success is a value a Go `int` holds, read from text that ends in a digit |
| `Decimal.AtoiItoa` | channel/mocks.go:184 | `Atoi(Itoa(n)) == Some(n)` for every Go `int` |
| `Decimal.ItoaAtoi` | channel/mocks.go:132 | a canonically written number that `Atoi` accepts is exactly what `Itoa` writes for its value |
| `Decimal.AtoiExamples` | channel/mocks.go:132 | leading zeros and a '+' sign are accepted; empty text, a bare sign and trailing letters are refused |

## Left out

- `channel/client.go` is not part of this model: its read and write loops are WebSocket I/O, and its `processMessage` and `sendHistory` are stubs that return nil.
- `repository/message.go` is not part of this model: every function there issues SQL queries and scans rows.
- The room hub (`Channel`) and the types `ClientRooms`, `ClientJoinsRooms`, `ClientMessage`, `message.ReceivedMessage`, `message.BroadcastedMessage` and `model.Message` are defined in files outside this model; their fields are taken from how the mocks use them (the forwarded message's fields from the wire format of outbound messages).
- The goroutine `NewClientMock` starts for `Write`, and the unbuffered channel sends of `Read`: no concurrency is modelled; sends are returned values and `Write` consumes a given sequence.
- The constant stubs `CheckIfExists` (always true), `GetOne`, `GetAll` and `Create` (zero values) of `usersRepoMock` and `messagesRepoMock`, and the client's `ForwardMessage`, `GetUserID` and `Close`: they compute nothing.
- The unused `messages` field of `usersChannelsRepoMock`.
- Pointers: messages are values, so a nil forwarded message and the sharing of one `ReceivedMessage` between the client and the request are not modelled; "the same message" is value equality.
- `model.Message`'s `ID` and `SentAt`, which the fixture leaves at Go's zero values.
- `Decimal.Atoi`: distinguishes only success from failure, not Go's syntax and range error values.
- `ChannelMocks.NewMessagesRepoMock`: the loop counters are unbounded integers, so the wrap-around of a Go `int` counter when a bound is the largest `int` is not modelled.
- A 32-bit Go `int`: the model assumes the 64-bit range.
