/**
 * The message shapes the mocks exchange: `message.ReceivedMessage` (peer to
 * server), `message.BroadcastedMessage` (server to peer) and the stored
 * `model.Message`.
 */
module Messages {

  /** An inbound message: who sent it, what it asks for (`Action`), the rooms it concerns and its text. */
  datatype ReceivedMessage = ReceivedMessage(userID: int, action: string, roomIDs: seq<int>, content: string)

  /** An outbound message forwarded to a peer. */
  datatype BroadcastedMessage = BroadcastedMessage(userID: int, roomIDs: seq<int>, content: string, sentAt: int)

  /** A stored message, with the fields the history fixture fills in. */
  datatype Message = Message(userID: int, content: string, roomIDs: seq<int>)
}
