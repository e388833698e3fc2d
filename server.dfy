/**
 * The Socket.IO server's connection handlers. Socket.IO's fan-out is modelled as
 * sets of deliveries over the live connections and the room-membership relation;
 * `socket.broadcast.emit` is `Broadcast`, `socket.to(room).emit` is `ToRoom` and
 * `socket.emit` is a single delivery.
 */
module Server {
  import opened Wrappers
  import opened Protocol
  import opened Gemini

  /** Room membership: the rooms each connection is in. */
  type Membership = map<ConnId, set<Room>>

  /** Connection `c` is in room `room`. */
  predicate InRoom(rooms: Membership, c: ConnId, room: Room)
  {
    c in rooms && room in rooms[c]
  }

  /** The only rooms that exist when no handler calls `join`: each live connection alone in the room named by its id. */
  function AutoRooms(live: set<ConnId>): (rooms: Membership)
    ensures rooms.Keys == live
    ensures forall c, room :: InRoom(rooms, c, room) <==> c in live && room == c
  {
    map c | c in live :: {c}
  }

  /** `socket.broadcast.emit(e)`: every live connection except the sender receives `e`, and nobody else. */
  function Broadcast(live: set<ConnId>, sender: ConnId, e: ServerEvent): (ds: set<Delivery>)
    ensures forall d :: d in ds <==> d.recipient in live && d.recipient != sender && d.event == e
  {
    set c | c in live && c != sender :: Delivery(c, e)
  }

  /** `socket.to(room).emit(e)`: every member of `room` except the sender receives `e`, and nobody else. */
  function ToRoom(rooms: Membership, sender: ConnId, room: Room, e: ServerEvent): (ds: set<Delivery>)
    ensures forall d :: d in ds <==> InRoom(rooms, d.recipient, room) && d.recipient != sender && d.event == e
  {
    set c | c in rooms && room in rooms[c] && c != sender :: Delivery(c, e)
  }

  /** JavaScript's `!room` for the room argument of a chat: absent or the empty string. */
  predicate IsFalsyRoom(room: Option<Room>)
  {
    room.None? || room.value == ""
  }

  /** The `message` handler's routing: a falsy room broadcasts, any other room is scoped to its members. */
  function RouteChat(live: set<ConnId>, rooms: Membership, sender: ConnId, chat: ChatMessage, room: Option<Room>)
    : (ds: set<Delivery>)
    ensures forall d :: d in ds ==> d.event == Message(chat) && d.recipient != sender
    ensures IsFalsyRoom(room) ==> Recipients(ds) == live - {sender}
    ensures !IsFalsyRoom(room) ==>
              forall c :: c in Recipients(ds) <==> InRoom(rooms, c, room.value) && c != sender
  {
    if room.None? || room.value == "" then
      var ds := Broadcast(live, sender, Message(chat));
      assert forall c :: c in live - {sender} ==> Delivery(c, Message(chat)) in ds;
      ds
    else
      var ds := ToRoom(rooms, sender, room.value, Message(chat));
      assert forall c :: InRoom(rooms, c, room.value) && c != sender ==> Delivery(c, Message(chat)) in ds;
      ds
  }

  /** The `promptForGemini` handler's reply: one `aiResponse` to the requester, or nothing if the adapter threw. */
  function AiReply(requester: ConnId, reply: Reply): (ds: set<Delivery>)
    ensures Recipients(ds) <= {requester}
    ensures reply.Returned? ==> ds == {Delivery(requester, AiResponse(reply.text))}
    ensures reply.Threw? <==> ds == {}
  {
    match reply
    case Returned(text) => {Delivery(requester, AiResponse(text))}
    case Threw => {}
  }

  /** `users[id]`: the announced name, or `undefined` for an id that never announced. */
  function NameOf(users: map<ConnId, string>, id: ConnId): (name: Option<string>)
    ensures name.Some? <==> id in users
    ensures name.Some? ==> name.value == users[id]
  {
    if id in users then Some(users[id]) else None
  }

  /**
   * The server state: the `users` table, the live connections, Socket.IO's room
   * membership and, as ghost state, the connections that were open and have closed.
   */
  class ChatServer {
    var users: map<ConnId, string>
    var live: set<ConnId>
    var rooms: Membership
    ghost var closed: set<ConnId>

    /** Ids are never reused, only automatic rooms exist, and the table names only connections that were opened. */
    ghost predicate Valid()
      reads this
    {
      && live !! closed
      && rooms == AutoRooms(live)
      && users.Keys <= live + closed
    }

    /** The server at start-up: `const users = {}` and no connections. */
    constructor ()
      ensures Valid()
      ensures users == map[] && live == {} && rooms == map[] && closed == {}
    {
      users := map[];
      live := {};
      rooms := map[];
      closed := {};
    }

    /** `io.on('connection')`: the transport opens a connection with a fresh id and puts it in its own room. */
    method Connect(id: ConnId)
      requires Valid() && id !in live && id !in closed
      modifies this`live, this`rooms
      ensures Valid()
      ensures live == old(live) + {id} && rooms == AutoRooms(live)
      ensures users == old(users) && closed == old(closed)
    {
      live := live + {id};
      rooms := AutoRooms(live);
    }

    /** `socket.on('message')`: relay the payload unchanged; the server's state does not change. */
    method OnMessage(id: ConnId, chat: ChatMessage, room: Option<Room>) returns (out: set<Delivery>)
      requires Valid() && id in live
      ensures out == RouteChat(live, rooms, id, chat, room)
      ensures id !in Recipients(out)
      ensures forall d :: d in out ==> d.event == Message(chat)
    {
      out := RouteChat(live, rooms, id, chat, room);
    }

    /** `socket.on('newUserJoined')`: record the name under the sender's id and tell everyone else. */
    method OnNewUserJoined(id: ConnId, name: string) returns (out: set<Delivery>)
      requires Valid() && id in live
      modifies this`users
      ensures Valid()
      ensures users == old(users)[id := name]
      ensures forall other :: other != id ==> NameOf(users, other) == NameOf(old(users), other)
      ensures out == Broadcast(live, id, UserJoined(name))
    {
      users := users[id := name];
      out := Broadcast(live, id, UserJoined(name));
    }

    /**
     * `socket.on('disconnect')`: tell every other live connection that `users[id]` left,
     * whether or not the id ever announced; the table keeps its entry.
     */
    method OnDisconnect(id: ConnId) returns (out: set<Delivery>)
      requires Valid() && id in live
      modifies this`live, this`rooms, this`closed
      ensures Valid()
      ensures users == old(users)
      ensures live == old(live) - {id} && closed == old(closed) + {id} && rooms == AutoRooms(live)
      ensures out == Broadcast(old(live), id, UserLeft(NameOf(users, id)))
    {
      out := Broadcast(live, id, UserLeft(NameOf(users, id)));
      live := live - {id};
      rooms := AutoRooms(live);
      closed := closed + {id};
    }

    /**
     * `socket.on('promptForGemini')`: the adapter's reply goes back to the requester alone,
     * with no check that it is still connected; the server's state does not change.
     */
    method OnPromptForGemini(id: ConnId, prompt: string, outcome: Outcome) returns (out: set<Delivery>)
      ensures out == AiReply(id, GenerateContent(prompt, outcome))
      ensures Recipients(out) <= {id}
    {
      var response := GenerateContent(prompt, outcome);
      out := AiReply(id, response);
    }
  }

  /** Every connection receives at most one copy of a broadcast, and the broadcast reaches all but the sender. */
  lemma {:induction false} BroadcastSize(live: set<ConnId>, sender: ConnId, e: ServerEvent)
    ensures |Broadcast(live, sender, e)| == |live - {sender}|
    decreases |live|
  {
    var others := live - {sender};
    if others != {} {
      var c :| c in others;
      BroadcastSize(live - {c}, sender, e);
      BroadcastAddsOne(live, sender, e, c);
      assert others == (live - {c} - {sender}) + {c};
    } else {
      assert forall d :: d in Broadcast(live, sender, e) ==> d.recipient in others;
      assert Broadcast(live, sender, e) == {};
    }
  }

  /** A broadcast reaches one more connection, `c`, than the same broadcast with `c` gone. */
  lemma BroadcastAddsOne(live: set<ConnId>, sender: ConnId, e: ServerEvent, c: ConnId)
    requires c in live && c != sender
    ensures |Broadcast(live, sender, e)| == |Broadcast(live - {c}, sender, e)| + 1
  {
    var rest := Broadcast(live - {c}, sender, e);
    assert Delivery(c, e) !in rest;
    assert Broadcast(live, sender, e) == rest + {Delivery(c, e)};
  }

  /** A room-scoped chat never reaches anyone a global chat would not: only live connections other than the sender. */
  lemma RoomScopeNarrowsBroadcast(live: set<ConnId>, sender: ConnId, chat: ChatMessage, room: Room)
    requires room != ""
    ensures RouteChat(live, AutoRooms(live), sender, chat, Some(room)) <= RouteChat(live, AutoRooms(live), sender, chat, None)
  {
  }

  /**
   * With only automatic rooms, a chat addressed to a room reaches the connection whose
   * id is that room, if it is live and not the sender, and no one else: the room box
   * works as a direct-message address.
   */
  lemma AutoRoomIsDirectMessage(live: set<ConnId>, sender: ConnId, chat: ChatMessage, room: Room)
    requires room != ""
    ensures RouteChat(live, AutoRooms(live), sender, chat, Some(room))
              == if room in live && room != sender then {Delivery(room, Message(chat))} else {}
  {
  }

  /** A connection that announces twice leaves one entry in the table, holding the later name. */
  method ReannounceOverwrites(server: ChatServer, id: ConnId, first: string, second: string)
    requires server.Valid() && id in server.live
    modifies server
    ensures server.Valid()
    ensures server.users == old(server.users)[id := second]
    ensures server.users.Keys == old(server.users).Keys + {id}
    ensures server.live == old(server.live) && server.rooms == old(server.rooms)
  {
    var _ := server.OnNewUserJoined(id, first);
    var _ := server.OnNewUserJoined(id, second);
  }

  /** A broadcast from one of three connections reaches the other two. */
  lemma BroadcastToTwo(sender: ConnId, p: ConnId, q: ConnId, e: ServerEvent)
    requires sender != p && sender != q
    ensures Broadcast({sender, p, q}, sender, e) == {Delivery(p, e), Delivery(q, e)}
  {
  }

  /** A broadcast from one of two connections reaches the other. */
  lemma BroadcastToOne(sender: ConnId, p: ConnId, e: ServerEvent)
    requires sender != p
    ensures Broadcast({sender, p}, sender, e) == {Delivery(p, e)}
  {
  }

  /**
   * Three connections "a", "b" and "c": "a" announces as "Ann", "c" leaves without ever
   * announcing, then "a" leaves. The anonymous leave is still announced, with an undefined
   * name, and "a" stays in the table after it has gone.
   */
  method PresenceScenario() returns (joined: set<Delivery>, anonymousLeft: set<Delivery>, namedLeft: set<Delivery>,
                                     table: map<ConnId, string>)
    ensures joined == {Delivery("b", UserJoined("Ann")), Delivery("c", UserJoined("Ann"))}
    ensures anonymousLeft == {Delivery("a", UserLeft(None)), Delivery("b", UserLeft(None))}
    ensures namedLeft == {Delivery("b", UserLeft(Some("Ann")))}
    ensures table == map["a" := "Ann"]
  {
    var server := new ChatServer();
    server.Connect("a");
    server.Connect("b");
    server.Connect("c");
    joined := server.OnNewUserJoined("a", "Ann");
    BroadcastToTwo("a", "b", "c", UserJoined("Ann"));
    anonymousLeft := server.OnDisconnect("c");
    assert {"a", "b", "c"} == {"c", "a", "b"};
    BroadcastToTwo("c", "a", "b", UserLeft(None));
    namedLeft := server.OnDisconnect("a");
    BroadcastToOne("a", "b", UserLeft(Some("Ann")));
    table := server.users;
  }
}
