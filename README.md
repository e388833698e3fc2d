# ChatterBee in Dafny

ChatterBee is a chat relay built on Socket.IO. Each browser client asks for a display name and announces it. It then sends chat lines, either to every other connection or to a room, or sends prompts to a Gemini-backed assistant. The server keeps a `users` table from connection id to name. It fans every chat out to the right connections, tells the others when someone joins or leaves, and answers each prompt to the requester alone.

This project models that behaviour and proves facts about it:

- `protocol.dfy` holds the event vocabulary. It defines connection ids, the `{name, message}` chat payload, the events each side emits, and a delivery of one server event to one connection.
- `gemini.dfy` holds the completion adapter `generateContent` as a pure function. The SDK call is an abstract `Outcome`: either the generated text, or a thrown error with an optional `response.candidates`.
- `server.dfy` holds the connection handlers as methods of a `ChatServer` class. The class has the `users` table, the live connections and Socket.IO's room membership. Each handler returns the set of deliveries it emits. Fan-out is given by the functions `Broadcast` (`socket.broadcast.emit`), `ToRoom` (`socket.to(room).emit`), `RouteChat` and `AiReply`.
- `jsstring.dfy` holds the JavaScript string semantics the client relies on: truthiness of a `prompt()` answer, and `String.prototype.trim` over the ECMAScript whitespace and line-terminator set.
- `client.dfy` holds the browser client as a `ChatClient` class. Its state is the accepted name, the message box, the room box, the AI checkbox, the shown room id, an outbox of emitted events and a log of entries appended to the message area. The client also has the name loop (`AskName`) and the pure formatting of AI replies.
- `session.dfy` relates the two sides. It covers what a client emits, how the server routes it, and how a receiving client shows it.

The code is modelled as written. In places this differs from what the source's own comments suggest. `users` is commented as the store of "active users" (server.js:13), and the disconnect handler is commented as telling other clients "that a user has left" (server.js:41). As written:

- `disconnect` never deletes `users[socket.id]`. The entry outlives the connection (`PresenceScenario`).
- `disconnect` emits `userLeft` even for a connection that never announced. The name is then `undefined`. Socket.IO encodes event arguments with `JSON.stringify`, which writes that `undefined` as `null`, so a receiving client shows `null left`.
- The greeting fast path matches exactly `hi`, `Hi`, `hello` and `Hello`: case-sensitive, with no trimming.
- The AI reply is sent to the requester without checking that it is still connected.
- A failed model call whose error carries an empty `candidates` array makes `candidates[0].finishReason` throw inside the catch block. `generateContent` then rejects instead of returning a string (`Reply.Threw`), and the `promptForGemini` handler emits nothing.
- No handler calls `join`. The only rooms are Socket.IO's automatic per-connection rooms, and `ChatServer.Valid()` keeps membership equal to `AutoRooms(live)`. A chat addressed to a room therefore reaches at most the one connection whose id is that room (`AutoRoomIsDirectMessage`). This is why the client shows its own `socket.id` as its room id.
- The server validates no names or messages. Only the client filters blank input.

## Model

| member | source | states |
|---|---|---|
| `Gemini.GenerateContent` | server.js:58-79 | a greeting yields the welcome text; otherwise the model's text is returned verbatim; a `SAFETY` first candidate yields the safety text; every other failure yields the generic text; the result is an escaping exception exactly when the prompt is not a greeting and the error carries an empty candidate list |
| `Gemini.ConsultsModelIffNotGreeting` | server.js:61-64 | the reply is independent of the model outcome if and only if the prompt is one of the four greetings |
| `Gemini.GreetingMatchIsExact` | server.js:61 | `HELLO`, ` hi` and `hi ` each get the same reply as a prompt that is not a greeting, for every model outcome |
| `Gemini.IsGreeting` | server.js:61 | the fast path is taken for exactly the four strings `hi`, `Hi`, `hello` and `Hello` |
| `Gemini.SafetyBlocked` | server.js:70 | the error is classified as a safety block when it has a response with a candidate list whose first candidate's `finishReason` is `SAFETY` |
| `Gemini.EmptyCandidates` | server.js:70 | the error has a response whose candidate list is present but empty, so reading `candidates[0].finishReason` throws |
| `Server.IsFalsyRoom` | server.js:27 | `!room` holds for an absent room and for the empty string |
| `Server.NameOf` | server.js:43 | `users[socket.id]` is the recorded name when the id is a key, and absent otherwise |
| `Server.AutoRooms` | server.js:31 | with no `join` calls, each live connection is in exactly one room, the one named by its own id |
| `Server.Broadcast` | server.js:28 | `broadcast.emit` delivers the event to every live connection except the sender, and to no one else |
| `Server.ToRoom` | server.js:31 | `to(room).emit` delivers the event to every member of the room except the sender, and to no one else |
| `Server.RouteChat` | server.js:25-33 | every chat delivery carries the payload unchanged and never goes to the sender; a falsy room reaches all live connections but the sender; any other room reaches exactly its members other than the sender |
| `Server.AiReply` | server.js:47-50 | the AI reply reaches only the requester: one `aiResponse` delivery when the adapter returned, none when it threw |
| `Server.ChatServer.constructor` | server.js:13 | the server starts with an empty `users` table and no connections |
| `Server.ChatServer.Connect` | server.js:23 | a new connection with a fresh id joins the live set and its own room; the table is unchanged |
| `Server.ChatServer.OnMessage` | server.js:25-33 | the `message` handler emits `RouteChat`'s deliveries and changes no state |
| `Server.ChatServer.OnNewUserJoined` | server.js:36-39 | `users[id] := name` overwrites any earlier value, every other entry is unchanged, and `userJoined(name)` goes to every other live connection |
| `Server.ChatServer.OnDisconnect` | server.js:42-44 | `userLeft(users[id])` goes to every other live connection, with an absent name for an id that never announced; the id leaves the live set and its room; `users` is unchanged |
| `Server.ChatServer.OnPromptForGemini` | server.js:47-50 | the handler emits `AiReply` of the adapter's result to the requester alone and changes no state |
| `Server.BroadcastSize` | server.js:28 | a broadcast makes exactly one delivery per live connection other than the sender |
| `Server.RoomScopeNarrowsBroadcast` | server.js:27-31 | a room-scoped chat reaches a subset of those a global chat reaches |
| `Server.AutoRoomIsDirectMessage` | server.js:31 | with automatic rooms, a chat to room `r` reaches connection `r` alone if it is live and not the sender, else no one |
| `Server.ReannounceOverwrites` | server.js:36-39 | two `newUserJoined` events from one connection leave the table as one update with the later name, adding only that id as a key and keeping the live set and rooms |
| `Server.PresenceScenario` | server.js:36-44 | in a three-connection run, the announcement reaches the two others, an unannounced leave is still broadcast with an undefined name, and a departed user stays in the table |
| `JsString.IsJsSpace` | public/JS/client.js:35 | the characters `trim()` strips are the ECMAScript WhiteSpace and LineTerminator characters |
| `JsString.Truthy` | public/JS/client.js:28 | a `prompt()` answer is truthy when it is not `null` and not the empty string |
| `JsString.TrimStartDropsLeadingSpace` | public/JS/client.js:35 | the start-trimmed string is a suffix of the input that does not start with whitespace, and the dropped prefix is all whitespace |
| `JsString.TrimEndDropsTrailingSpace` | public/JS/client.js:35 | the end-trimmed string is a prefix of the input that does not end with whitespace, and the dropped suffix is all whitespace |
| `JsString.Trim` | public/JS/client.js:35 | `trim()` returns a string no longer than its input that neither starts nor ends with whitespace |
| `JsString.TrimIsSlice` | public/JS/client.js:35 | the result of `trim()` is a slice of the input with only whitespace cut on either side |
| `JsString.TrimOfTrimmed` | public/JS/client.js:35 | a property of `trim()`: a string with no whitespace at either end is its own trim |
| `JsString.TrimIdempotent` | public/JS/client.js:35 | a property of `trim()`: trimming twice equals trimming once |
| `JsString.TrimEmptyIffAllSpace` | public/JS/client.js:35 | `message.trim() === ''` holds exactly when the message is empty or whitespace only |
| `Client.FormatNewlines` | public/JS/client.js:93 | the formatted text contains no line feed, is never shorter, and equals the input when the input has no line feed |
| `Client.FormatNewlinesAppend` | public/JS/client.js:93 | the global replacement works piece by piece over a concatenation |
| `Client.FormatNewlinesSplitsAtNewline` | public/JS/client.js:93 | the text before the first line feed is kept, that line feed becomes `<br>`, and the rest is formatted in turn |
| `Client.AiHeader` | public/JS/client.js:95 | the header is `You` if and only if the type is `outgoing`, otherwise `ChatterBee` |
| `Client.AiResponseEntry` | public/JS/client.js:89-101 | an AI entry keeps its type and holds text without line feeds |
| `Client.TemplateText` | public/JS/client.js:77 | an interpolated name is shown as given; an absent name, which arrives as `null`, is shown as `null` |
| `Client.Rendered` | public/JS/client.js:133-168 | an inbound `aiResponse` is shown only with the AI checkbox ticked; `message`, `userJoined` and `userLeft` only with it clear; a shown chat is the received payload marked incoming |
| `Client.RenderedAiReply` | public/JS/client.js:133-139 | an AI reply shown in AI mode is one entry headed `ChatterBee` holding the line-broken text |
| `Client.OutgoingEvent` | public/JS/client.js:107-122 | `sendMessage` emits `promptForGemini(trimmed)` if and only if the AI flag is set, and otherwise `message({name, trimmed}, trimmed room)`; either carries non-blank trimmed text |
| `Client.AnnouncedOnce` | public/JS/client.js:171 | an outbox that starts with the announcement and otherwise holds only user sends contains exactly one `newUserJoined` |
| `Client.AnnouncesOnce` | public/JS/client.js:171 | a valid client's outbox, after any sequence of sends, holds exactly one `newUserJoined` |
| `Client.NoAnnouncements` | public/JS/client.js:118-121 | chats and prompts are never `newUserJoined` events |
| `Client.AskName` | public/JS/client.js:25-28 | the loop stops with the first truthy answer, after rejecting every earlier one, and accepts a name if and only if some answer is truthy |
| `Client.BlankNameAccepted` | public/JS/client.js:28 | every non-empty whitespace-only name is truthy, so the loop accepts it, even though it trims to `''` |
| `Client.ChatClient.Start` | public/JS/client.js:171 | after the name loop the page starts with empty boxes, a clear checkbox and an empty log, having emitted exactly `newUserJoined(name)` |
| `Client.ChatClient.TypeMessage` | public/JS/client.js:5 | the user's typing sets the message box |
| `Client.ChatClient.TypeRoom` | public/JS/client.js:9 | the user's typing sets the room box |
| `Client.ChatClient.SetAiChecked` | public/JS/client.js:10 | the user sets or clears the AI checkbox |
| `Client.ChatClient.OnConnect` | public/JS/client.js:128-130 | on connect the page shows the socket id as its room id |
| `Client.ChatClient.SendMessage` | public/JS/client.js:107-125 | for a message that is not all whitespace (the caller's guard, equivalent to a non-empty trim), one outgoing entry `{name, trimmed text}` is logged and exactly one event is emitted, as `OutgoingEvent` routes it; the announce-once invariant is kept |
| `Client.ChatClient.KeyUp` | public/JS/client.js:32-41 | input that is empty or all whitespace, which trims to `''`, is ignored even on Enter; Enter with non-blank input sends once and clears the box; any other key changes nothing |
| `Client.ChatClient.OnAiResponse` | public/JS/client.js:133-139 | the reply is logged as an incoming AI entry only while the checkbox is ticked |
| `Client.ChatClient.OnMessage` | public/JS/client.js:145-151 | the chat is logged as incoming only while the checkbox is clear |
| `Client.ChatClient.OnUserJoined` | public/JS/client.js:155-160 | a `joined` notice is logged only while the checkbox is clear |
| `Client.ChatClient.OnUserLeft` | public/JS/client.js:163-168 | a `left` notice is logged only while the checkbox is clear, showing an absent name as `null` |
| `Client.Launch` | public/JS/client.js:25-28 | page load yields a client exactly when some answer is truthy; that client's name is the first truthy answer, and it has emitted only the announcement |
| `Session.BlankRoomBroadcasts` | public/JS/client.js:121 | since the client always sends the trimmed room box, a chat is broadcast exactly when that box is empty or whitespace only |
| `Session.ChatArrivesAsSent` | server.js:25-33 | a chat typed off AI mode reaches only live connections other than the sender, and a receiver off AI mode shows the sender's name and trimmed text as incoming |
| `Session.PromptAnsweredToRequester` | server.js:47-49 | an AI reply that is delivered went to the requester, so the adapter returned a string, and a requester in AI mode shows it headed `ChatterBee` |

## Left out

- Express, static file serving, the `/` route, `server.listen`, `dotenv` and `process.env` (server.js:1-20, 83-85) are process setup and I/O.
- The Gemini SDK (`getGenerativeModel`, `model.generateContent`, `result.response`, `text()`) is an opaque oracle, given to the adapter as its `Outcome` parameter.
- The `async`/`await` interleaving of a pending prompt with other events is not modelled, because it is concurrency. `OnPromptForGemini` runs as one step.
- What Node.js does with the rejected promise when the adapter throws is not modelled. The handler simply emits nothing. Since Node.js 15, an unhandled rejection ends the process by default, which would drop every connection.
- `console.error` diagnostics are left out. They do not affect the returned string.
- Socket.IO internals are left out: message ordering, acknowledgement, reconnection, and buffering of emits made before the connection opens.
- DOM markup, CSS classes, `appendChild`, scrolling and audio playback are left out (public/JS/client.js:5-22, 49-81, 174-176). Each appended element is kept only as an abstract log entry.
- `Client.ChatClient.OnUserLeft`: the JSON encoding of event arguments is not modelled in general. Only its effect on an absent leaver name, which arrives as `null`, is modelled.
- Payloads are modelled as strings and `{name, message}` records. The server relays whatever a client sends, but a client sending values of other JavaScript types is not modelled.
- `Gemini.GenerateContent`: every `finishReason` is modelled as a string, and every candidate as an object. An undefined reason behaves like any non-`SAFETY` string. A `candidates` array holding `undefined` at index 0, which would also throw, is not modelled.
- `Gemini.GenerateContent`: `getGenerativeModel` (server.js:59) runs before the `try` block and is assumed not to throw.
- `Client.AskName`: given a finite list of answers. When no answer is truthy, the real loop keeps prompting forever; the model reports that it is still waiting.
- The initial state of the boxes and the checkbox comes from the page's HTML, which is not part of this model. The constructor assumes empty boxes and a clear checkbox.
