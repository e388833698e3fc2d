/**
 * Facts about a client and the server together: what the client's `sendMessage`
 * emits, as the server then routes it and a receiving client renders it.
 */
module Session {
  import opened Wrappers
  import opened Protocol
  import opened JsString
  import opened Gemini
  import Server
  import Client

  /** The client always sends a room string, so a chat is broadcast exactly when the room box is blank or whitespace. */
  lemma {:induction false} BlankRoomBroadcasts(name: string, message: string, roomText: string)
    requires !AllSpace(message)
    ensures Client.OutgoingEvent(name, message, false, roomText).SendChat?
    ensures Server.IsFalsyRoom(Some(Client.OutgoingEvent(name, message, false, roomText).room)) <==> AllSpace(roomText)
  {
    TrimEmptyIffAllSpace(roomText);
  }

  /**
   * A chat typed with the checkbox clear reaches others as the sender's name and trimmed
   * text and is shown to a receiver with the checkbox clear as the same message, incoming.
   */
  lemma ChatArrivesAsSent(name: string, message: string, roomText: string, live: set<ConnId>, sender: ConnId, d: Delivery)
    requires !AllSpace(message)
    requires d in Server.RouteChat(live, Server.AutoRooms(live), sender, Client.OutgoingEvent(name, message, false, roomText).chat,
                                   Some(Client.OutgoingEvent(name, message, false, roomText).room))
    ensures d.recipient != sender && d.recipient in live
    ensures Client.Rendered(d.event, false) == [Client.MessageEntry(ChatMessage(name, Trim(message)), Client.IncomingKind)]
  {
  }

  /**
   * A prompt typed with the checkbox ticked is answered to the requester alone, and a
   * requester still in AI mode shows the answer headed `ChatterBee` with its line feeds
   * turned into `<br>`.
   */
  lemma PromptAnsweredToRequester(message: string, requester: ConnId, outcome: Outcome, d: Delivery)
    requires !AllSpace(message)
    requires d in Server.AiReply(requester, GenerateContent(Client.OutgoingEvent("", message, true, "").prompt, outcome))
    ensures d.recipient == requester
    ensures GenerateContent(Trim(message), outcome).Returned?
    ensures d.event == AiResponse(GenerateContent(Trim(message), outcome).text)
    ensures Client.Rendered(d.event, true)
              == [Client.AiEntry(Client.IncomingKind, "ChatterBee", Client.FormatNewlines(d.event.response))]
  {
    var e := Client.OutgoingEvent("", message, true, "");
    assert e.prompt == Trim(message);
    var reply := GenerateContent(e.prompt, outcome);
    if reply.Returned? {
      assert d == Delivery(requester, AiResponse(reply.text));
      Client.RenderedAiReply(reply.text);
    }
  }
}
