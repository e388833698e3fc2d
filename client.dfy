/**
 * The browser client: the name prompt loop, the key handler on the message box,
 * `sendMessage` and the inbound Socket.IO handlers. The DOM is reduced to the texts
 * of the message box and the room-id box, the AI checkbox, the shown room id and a
 * log of the entries appended to the message area; the socket is reduced to an
 * outbox of emitted events.
 */
module Client {
  import opened Wrappers
  import opened Protocol
  import opened JsString

  /** The CSS class, and message type, of the user's own entries. */
  const OutgoingKind := "outgoing"

  /** The CSS class, and message type, of entries that arrive from the server. */
  const IncomingKind := "incoming"

  /** One entry appended to the message area. */
  datatype Entry =
    | MessageEntry(chat: ChatMessage, kind: string)        // appendMessage(msg, type)
    | UserInfoEntry(who: string, status: string)            // appendUserInfo(name, statusMessage)
    | AiEntry(kind: string, header: string, body: string)  // appendAiResponse(msg, type)

  /** `msg.replace(/\n/g, '<br>')`: every line feed becomes `<br>`, every other character stays in place. */
  function FormatNewlines(s: string): (r: string)
    ensures '\n' !in r
    ensures '\n' !in s ==> r == s
    ensures |r| >= |s|
  {
    if s == [] then [] else (if s[0] == '\n' then "<br>" else [s[0]]) + FormatNewlines(s[1..])
  }

  /** Formatting works piece by piece: formatting a concatenation concatenates the formatted pieces. */
  lemma {:induction false} FormatNewlinesAppend(a: string, b: string)
    ensures FormatNewlines(a + b) == FormatNewlines(a) + FormatNewlines(b)
  {
    if a != [] {
      var head := if a[0] == '\n' then "<br>" else [a[0]];
      assert (a + b)[0] == a[0] && (a + b)[1..] == a[1..] + b;
      calc {
        FormatNewlines(a + b);
        head + FormatNewlines(a[1..] + b);
        { FormatNewlinesAppend(a[1..], b); }
        head + (FormatNewlines(a[1..]) + FormatNewlines(b));
        (head + FormatNewlines(a[1..])) + FormatNewlines(b);
      }
    } else {
      assert a + b == b;
    }
  }

  /**
   * Text up to the first line feed is kept as it is, that line feed becomes `<br>`, and
   * the rest is formatted in turn.
   */
  lemma FormatNewlinesSplitsAtNewline(before: string, after: string)
    requires '\n' !in before
    ensures FormatNewlines(before + "\n" + after) == before + "<br>" + FormatNewlines(after)
  {
    FormatNewlinesAppend(before + "\n", after);
    FormatNewlinesAppend(before, "\n");
    assert FormatNewlines("\n") == "<br>";
    assert FormatNewlines(before) == before;
  }

  /** The heading of an AI entry: `You` for the user's own prompt, `ChatterBee` for anything else. */
  function AiHeader(kind: string): (header: string)
    ensures header == "You" <==> kind == OutgoingKind
    ensures header == "You" || header == "ChatterBee"
  {
    if kind == "outgoing" then "You" else "ChatterBee"
  }

  /** `appendAiResponse(msg, type)`: an entry with its heading and the line-broken text. */
  function AiResponseEntry(msg: string, kind: string): (entry: Entry)
    ensures entry.AiEntry? && entry.kind == kind && '\n' !in entry.body
  {
    AiEntry(kind, AiHeader(kind), FormatNewlines(msg))
  }

  /**
   * A received name interpolated into a template literal. The server's `undefined` name
   * reaches the page as `null`, because Socket.IO encodes event arguments with
   * `JSON.stringify`, which writes `undefined` in an array as `null`; `${name}` then
   * shows `null`.
   */
  function TemplateText(v: Option<string>): (t: string)
    ensures v.Some? ==> t == v.value
    ensures v.None? ==> t == "null"
  {
    match v
    case Some(s) => s
    case None => "null"
  }

  /**
   * What an inbound server event adds to the message area under the given checkbox
   * state: an AI reply only in AI mode, every other event only outside it.
   */
  function Rendered(e: ServerEvent, aiChecked: bool): (entries: seq<Entry>)
    ensures |entries| <= 1
    ensures entries != [] <==> (if e.AiResponse? then aiChecked else !aiChecked)
    ensures entries != [] && e.Message? ==> entries[0] == MessageEntry(e.chat, IncomingKind)
  {
    match e
    case AiResponse(response) => if aiChecked then [AiResponseEntry(response, IncomingKind)] else []
    case Message(chat) => if !aiChecked then [MessageEntry(chat, IncomingKind)] else []
    case UserJoined(newUser) => if !aiChecked then [UserInfoEntry(newUser, "joined")] else []
    case UserLeft(user) => if !aiChecked then [UserInfoEntry(TemplateText(user), "left")] else []
  }

  /** An AI reply shown in AI mode is one entry headed `ChatterBee` holding the line-broken text. */
  lemma RenderedAiReply(response: string)
    ensures Rendered(AiResponse(response), true) == [AiEntry(IncomingKind, "ChatterBee", FormatNewlines(response))]
  {
  }

  /** An event that `sendMessage` emits: a chat or a prompt whose text is non-blank and trimmed. */
  predicate IsUserSend(e: ClientEvent)
  {
    match e
    case NewUserJoined(_) => false
    case SendChat(chat, room) => chat.message != "" && Trimmed(chat.message) && Trimmed(room)
    case PromptForGemini(prompt) => prompt != "" && Trimmed(prompt)
  }

  /** The event `sendMessage` emits: the trimmed text as a prompt in AI mode, else as a chat with the trimmed room. */
  function OutgoingEvent(name: string, message: string, aiChecked: bool, roomText: string): (e: ClientEvent)
    requires !AllSpace(message)
    ensures aiChecked <==> e.PromptForGemini?
    ensures e.PromptForGemini? ==> e.prompt == Trim(message)
    ensures e.SendChat? ==> e.chat == ChatMessage(name, Trim(message)) && e.room == Trim(roomText)
    ensures IsUserSend(e)
  {
    TrimEmptyIffAllSpace(message);
    if aiChecked then PromptForGemini(Trim(message))
    else SendChat(ChatMessage(name, Trim(message)), Trim(roomText))
  }

  /** How many `newUserJoined` events an outbox holds. */
  function Announcements(outbox: seq<ClientEvent>): nat
  {
    if outbox == [] then 0
    else (if outbox[0].NewUserJoined? then 1 else 0) + Announcements(outbox[1..])
  }

  /** An outbox whose first event is the announcement and whose other events are user sends announces exactly once. */
  lemma {:induction false} AnnouncedOnce(outbox: seq<ClientEvent>, name: string)
    requires |outbox| > 0 && outbox[0] == NewUserJoined(name)
    requires forall i :: 0 < i < |outbox| ==> IsUserSend(outbox[i])
    ensures Announcements(outbox) == 1
  {
    NoAnnouncements(outbox[1..]);
  }

  /** A valid client has emitted exactly one `newUserJoined`, however many messages it has sent. */
  lemma AnnouncesOnce(c: ChatClient)
    requires c.Valid()
    ensures Announcements(c.outbox) == 1
  {
    AnnouncedOnce(c.outbox, c.name);
  }

  /** User sends are never announcements. */
  lemma {:induction false} NoAnnouncements(sends: seq<ClientEvent>)
    requires forall i :: 0 <= i < |sends| ==> IsUserSend(sends[i])
    ensures Announcements(sends) == 0
  {
    if sends != [] {
      assert forall i :: 0 <= i < |sends| - 1 ==> sends[1..][i] == sends[i + 1];
      NoAnnouncements(sends[1..]);
    }
  }

  /**
   * The `do { name = prompt(...) } while (!name)` loop over the answers the user gives:
   * it stops at the first truthy answer (not `null`, not empty, not trimmed), or is still
   * waiting when the answers run out.
   */
  method AskName(answers: seq<Option<string>>) returns (accepted: Option<string>, asked: nat)
    ensures asked <= |answers|
    ensures accepted.Some? <==> exists i :: 0 <= i < |answers| && Truthy(answers[i])
    ensures accepted.Some? ==> 0 < asked && answers[asked - 1] == accepted && Truthy(accepted)
    ensures accepted.Some? ==> forall i :: 0 <= i < asked - 1 ==> !Truthy(answers[i])
    ensures accepted.None? ==> asked == |answers|
  {
    var answer: Option<string> := None;
    asked := 0;
    while asked < |answers| && !Truthy(answer)
      invariant asked <= |answers|
      invariant asked == 0 ==> answer == None
      invariant asked > 0 ==> answer == answers[asked - 1]
      invariant forall i :: 0 <= i < asked - 1 ==> !Truthy(answers[i])
    {
      answer := answers[asked];
      asked := asked + 1;
    }
    accepted := if Truthy(answer) then answer else None;
  }

  /** The loop applies no trim: a name of spaces only is truthy, and so accepted, although it trims to `''`. */
  lemma BlankNameAccepted(s: string)
    requires s != "" && AllSpace(s)
    ensures Truthy(Some(s)) && Trim(s) == ""
  {
    TrimEmptyIffAllSpace(s);
  }

  /** The client page's state. */
  class ChatClient {
    /** The name the prompt loop accepted. */
    const name: string
    /** `messageInput.value`. */
    var input: string
    /** `inputRoomID.value`. */
    var roomInput: string
    /** `aiCheckbox.checked`. */
    var aiChecked: bool
    /** `displayRoomID.innerHTML`, once the socket has connected. */
    var shownRoomId: Option<ConnId>
    /** Every event emitted on the socket, oldest first. */
    var outbox: seq<ClientEvent>
    /** Every entry appended to the message area, oldest first. */
    var log: seq<Entry>

    /** The accepted name is truthy, it was announced first, and everything emitted since is a non-blank chat or prompt. */
    ghost predicate Valid()
      reads this
    {
      && name != ""
      && |outbox| > 0 && outbox[0] == NewUserJoined(name)
      && forall i :: 0 < i < |outbox| ==> IsUserSend(outbox[i])
    }

    /** Loading the page after the prompt loop: empty boxes, the checkbox clear, and `newUserJoined(name)` emitted. */
    constructor Start(accepted: string)
      requires accepted != ""
      ensures Valid()
      ensures name == accepted && input == "" && roomInput == "" && !aiChecked && shownRoomId == None
      ensures outbox == [NewUserJoined(accepted)] && log == []
    {
      name := accepted;
      input := "";
      roomInput := "";
      aiChecked := false;
      shownRoomId := None;
      outbox := [NewUserJoined(accepted)];
      log := [];
    }

    /** The user edits the message box. */
    method TypeMessage(text: string)
      modifies this`input
      ensures input == text
    {
      input := text;
    }

    /** The user edits the room-id box. */
    method TypeRoom(text: string)
      modifies this`roomInput
      ensures roomInput == text
    {
      roomInput := text;
    }

    /** The user ticks or clears the AI checkbox. */
    method SetAiChecked(checked: bool)
      modifies this`aiChecked
      ensures aiChecked == checked
    {
      aiChecked := checked;
    }

    /** `socket.on('connect')`: show the connection id, which is also the connection's room. */
    method OnConnect(id: ConnId)
      modifies this`shownRoomId
      ensures shownRoomId == Some(id)
    {
      shownRoomId := Some(id);
    }

    /** `sendMessage(message)`: show the trimmed text as outgoing and emit it as a prompt or as a chat. */
    method SendMessage(message: string)
      requires Valid() && !AllSpace(message)
      modifies this`outbox, this`log
      ensures Valid()
      ensures outbox == old(outbox) + [OutgoingEvent(name, message, aiChecked, roomInput)]
      ensures log == old(log) + [MessageEntry(ChatMessage(name, Trim(message)), OutgoingKind)]
    {
      var e := OutgoingEvent(name, message, aiChecked, roomInput);
      log := log + [MessageEntry(ChatMessage(name, Trim(message)), OutgoingKind)];
      outbox := outbox + [e];
      assert outbox[|outbox| - 1] == e;
    }

    /** The `keyup` handler: ignore blank input; on Enter send the box's text once and clear the box. */
    method KeyUp(key: string)
      requires Valid()
      modifies this`input, this`outbox, this`log
      ensures Valid()
      ensures !AllSpace(old(input)) && key == "Enter" ==>
                && input == ""
                && outbox == old(outbox) + [OutgoingEvent(name, old(input), aiChecked, roomInput)]
                && log == old(log) + [MessageEntry(ChatMessage(name, Trim(old(input))), OutgoingKind)]
      ensures AllSpace(old(input)) || key != "Enter" ==>
                input == old(input) && outbox == old(outbox) && log == old(log)
    {
      var message := input;
      TrimEmptyIffAllSpace(message);
      if Trim(message) == "" {
        return;
      }
      if key == "Enter" {
        SendMessage(message);
        input := "";
      }
    }

    /** `socket.on('aiResponse')`: shown, with line breaks, only while the AI checkbox is ticked. */
    method OnAiResponse(response: string)
      modifies this`log
      ensures log == old(log) + Rendered(AiResponse(response), aiChecked)
      ensures aiChecked ==> log == old(log) + [AiResponseEntry(response, IncomingKind)]
    {
      if aiChecked {
        log := log + [AiResponseEntry(response, IncomingKind)];
      }
    }

    /** `socket.on('message')`: shown as incoming only while the AI checkbox is clear. */
    method OnMessage(chat: ChatMessage)
      modifies this`log
      ensures log == old(log) + Rendered(Message(chat), aiChecked)
    {
      if !aiChecked {
        log := log + [MessageEntry(chat, IncomingKind)];
      }
    }

    /** `socket.on('userJoined')`: a `joined` notice only while the AI checkbox is clear. */
    method OnUserJoined(newUser: string)
      modifies this`log
      ensures log == old(log) + Rendered(UserJoined(newUser), aiChecked)
      ensures !aiChecked ==> log == old(log) + [UserInfoEntry(newUser, "joined")]
    {
      if !aiChecked {
        log := log + [UserInfoEntry(newUser, "joined")];
      }
    }

    /** `socket.on('userLeft')`: a `left` notice only while the AI checkbox is clear; an absent name shows as `null`. */
    method OnUserLeft(user: Option<string>)
      modifies this`log
      ensures log == old(log) + Rendered(UserLeft(user), aiChecked)
      ensures !aiChecked ==> log == old(log) + [UserInfoEntry(TemplateText(user), "left")]
    {
      if !aiChecked {
        log := log + [UserInfoEntry(TemplateText(user), "left")];
      }
    }
  }

  /** The whole page load: the prompt loop, then a client that has announced the accepted name and nothing else. */
  method Launch(answers: seq<Option<string>>) returns (client: ChatClient?)
    ensures client == null <==> forall i :: 0 <= i < |answers| ==> !Truthy(answers[i])
    ensures client != null ==> fresh(client) && client.Valid() && client.outbox == [NewUserJoined(client.name)]
    ensures client != null ==> exists i :: 0 <= i < |answers| && answers[i] == Some(client.name)
                                           && forall j :: 0 <= j < i ==> !Truthy(answers[j])
  {
    var accepted, asked := AskName(answers);
    if accepted.None? {
      client := null;
    } else {
      client := new ChatClient.Start(accepted.value);
      assert answers[asked - 1] == Some(client.name);
    }
  }
}
