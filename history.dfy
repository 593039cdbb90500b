/** The per-session chat history (`save_message_to_history`). */
module History {
  import opened Wrappers

  /** A file attached to a message: its original name, which drives the type
      dispatch, and where it is stored. */
  datatype Element = Element(name: string, path: string)

  /** One chat message: who wrote it, its text and its attachments. */
  datatype Message = Message(author: string, content: string, elements: seq<Element>)

  /** The state the front end keeps for one user session. */
  class UserSession {
    /** The session identifier (`user_session.get("id")`). */
    const id: string
    /** The stored `"chat_history"` entry; `None` before the first message is saved. */
    var chatHistory: Option<seq<Message>>

    constructor (id: string)
      ensures this.id == id && chatHistory == None
    {
      this.id := id;
      chatHistory := None;
    }

    /** The messages saved so far, oldest first; an absent entry reads as none. */
    function Messages(): seq<Message>
      reads this
    {
      chatHistory.GetOr([])
    }

    /** `save_message_to_history(message)`: append `message` to the stored history,
        creating the entry when there was none. */
    method Save(message: Message)
      modifies this
      ensures chatHistory == Some(old(Messages()) + [message])
      ensures Messages()[..|old(Messages())|] == old(Messages())
      ensures |Messages()| == |old(Messages())| + 1 && Messages()[|Messages()| - 1] == message
    {
      var history: seq<Message>;
      if chatHistory.Some? && chatHistory.value != [] {
        history := chatHistory.value;
      } else {
        history := [];
      }
      history := history + [message];
      chatHistory := Some(history);
    }
  }
}
