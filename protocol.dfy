/** The conventional optional value: JavaScript's `undefined`/`null` versus a present value. */
module Wrappers {

  datatype Option<+T> = None | Some(value: T)
}

/**
 * The event vocabulary shared by the ChatterBee browser client and its Socket.IO server:
 * connection ids, the chat payload, the events each side emits and a delivery of one
 * server event to one connection.
 */
module Protocol {
  import opened Wrappers

  /** A Socket.IO connection id (`socket.id`). It is also the name of the connection's automatic room. */
  type ConnId = string

  /** A room name as a client types it into the room-id box. */
  type Room = string

  /** The chat payload that the client builds in `sendMessage`: `{ name, message }`. */
  datatype ChatMessage = ChatMessage(name: string, message: string)

  /** Events a client emits to the server. */
  datatype ClientEvent =
    | NewUserJoined(userName: string)
    | SendChat(chat: ChatMessage, room: Room)
    | PromptForGemini(prompt: string)

  /** Events the server emits to a client. `UserLeft` carries `users[socket.id]`, which may be undefined. */
  datatype ServerEvent =
    | Message(chat: ChatMessage)
    | UserJoined(userName: string)
    | UserLeft(leaver: Option<string>)
    | AiResponse(response: string)

  /** One server event handed to one connection. */
  datatype Delivery = Delivery(recipient: ConnId, event: ServerEvent)

  /** The connections a set of deliveries reaches. */
  function Recipients(ds: set<Delivery>): (cs: set<ConnId>)
    ensures forall c :: c in cs <==> exists d :: d in ds && d.recipient == c
  {
    set d | d in ds :: d.recipient
  }
}
