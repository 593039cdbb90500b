/** The prompt assembler (`get_conversation_history`): the stored history as the
    role-tagged records sent to the model, with user messages augmented by the
    text of their first attachment. */
module Assembler {
  import opened Wrappers
  import Strings
  import Extractor
  import opened History

  datatype Role = SystemRole | UserRole | AssistantRole {
    /** The role as the chat API spells it. */
    function Name(): string {
      match this
      case SystemRole => "system"
      case UserRole => "user"
      case AssistantRole => "assistant"
    }
  }

  /** One `{"role": ..., "content": ...}` entry of a chat prompt. */
  datatype ChatRecord = ChatRecord(role: Role, content: string)

  /** The author the front end gives to messages the user typed. */
  const UserAuthor := "User"

  const AttachmentIntro := ":\nHere is the provided information in the attached document:\n"

  /** The extensions whose attachments are read into the prompt. */
  const SupportedExtensions := [".txt", ".docx", ".pdf"]

  /** The lower-cased extension of an attachment's name. */
  function AttachmentExtension(e: Element): string
  {
    Strings.Lower(Strings.Extension(e.name))
  }

  /** The text to add to a user message: that of its first attachment, when the
      message has one of a supported type and reading it does not fail. */
  function AttachmentText(m: Message, fs: Extractor.FileSystem): Option<string>
  {
    if |m.elements| == 0 then None
    else
      var first := m.elements[0];
      var extension := AttachmentExtension(first);
      if extension in SupportedExtensions then
        match Extractor.Extracted(fs, first.path, extension)
        case Ok(text) => Some(text)
        case Err(_) => None
      else None
  }

  /** The record one stored message becomes. */
  function Processed(m: Message, fs: Extractor.FileSystem): ChatRecord
  {
    if m.author == UserAuthor then
      match AttachmentText(m, fs)
      case Some(text) => ChatRecord(UserRole, m.content + AttachmentIntro + text)
      case None => ChatRecord(UserRole, m.content)
    else ChatRecord(AssistantRole, m.content)
  }

  /** The records for a whole history, in history order. */
  function Conversation(history: seq<Message>, fs: Extractor.FileSystem): seq<ChatRecord>
  {
    if |history| == 0 then []
    else Conversation(history[..|history| - 1], fs) + [Processed(history[|history| - 1], fs)]
  }

  /** `get_conversation_history()` over the session's stored history. */
  method GetConversationHistory(session: UserSession, fs: Extractor.FileSystem)
    returns (result: seq<ChatRecord>)
    ensures result == Conversation(session.Messages(), fs)
  {
    result := [];
    var history := session.Messages();
    var i := 0;
    while i < |history|
      invariant 0 <= i <= |history|
      invariant result == Conversation(history[..i], fs)
    {
      var processed := ProcessMessage(history[i], fs);
      assert history[..i + 1][..i] == history[..i];
      result := result + [processed];
      i := i + 1;
    }
    assert history[..|history|] == history;
  }

  /** The body of the loop over the history: one message's record. */
  method ProcessMessage(message: Message, fs: Extractor.FileSystem) returns (processed: ChatRecord)
    ensures processed == Processed(message, fs)
  {
    if message.author == UserAuthor {
      processed := ChatRecord(UserRole, message.content);
      if |message.elements| > 0 {
        var first := message.elements[0];
        var extension := AttachmentExtension(first);
        if extension in SupportedExtensions {
          assert extension != "";
          var text := Extractor.ReadAllTextFromFile(fs, first.path, Some(extension));
          if text.Ok? {
            processed := ChatRecord(UserRole, message.content + AttachmentIntro + text.value);
          }
        }
      }
    } else {
      processed := ChatRecord(AssistantRole, message.content);
    }
  }

  /** The conversation has one record per message. */
  lemma {:induction false} ConversationLength(history: seq<Message>, fs: Extractor.FileSystem)
    ensures |Conversation(history, fs)| == |history|
  {
    if |history| > 0 {
      ConversationLength(history[..|history| - 1], fs);
    }
  }

  /** Record `k` of the conversation is message `k`, processed. */
  lemma {:induction false} ConversationAt(history: seq<Message>, fs: Extractor.FileSystem, k: nat)
    requires k < |history|
    ensures |Conversation(history, fs)| == |history|
    ensures Conversation(history, fs)[k] == Processed(history[k], fs)
  {
    var n := |history| - 1;
    var front := history[..n];
    ConversationLength(history, fs);
    ConversationLength(front, fs);
    if k < n {
      ConversationAt(front, fs, k);
      assert front[k] == history[k];
    }
  }

  /** The conversation has one record per message, each the processed message at
      the same position. */
  lemma ConversationPointwise(history: seq<Message>, fs: Extractor.FileSystem)
    ensures |Conversation(history, fs)| == |history|
    ensures forall k :: 0 <= k < |history| ==> Conversation(history, fs)[k] == Processed(history[k], fs)
  {
    ConversationLength(history, fs);
    forall k | 0 <= k < |history|
      ensures Conversation(history, fs)[k] == Processed(history[k], fs)
    {
      ConversationAt(history, fs, k);
    }
  }

  /** Saving one more message extends the next conversation by exactly its record:
      earlier records are reproduced unchanged. */
  lemma {:induction false} ConversationExtends(history: seq<Message>, more: seq<Message>, fs: Extractor.FileSystem)
    ensures |Conversation(history + more, fs)| == |history| + |more|
    ensures Conversation(history + more, fs)[..|history|] == Conversation(history, fs)
  {
    ConversationPointwise(history, fs);
    ConversationPointwise(history + more, fs);
    var c := Conversation(history + more, fs);
    assert forall k :: 0 <= k < |history| ==> c[k] == Processed(history[k], fs);
  }

  /** The role of a processed message follows its author alone. */
  lemma ProcessedRole(m: Message, fs: Extractor.FileSystem)
    ensures Processed(m, fs).role == (if m.author == "User" then UserRole else AssistantRole)
  {
  }

  /** A record is tagged `user` exactly when its message was written by the user,
      and `assistant` otherwise; the system role never appears. */
  lemma RoleTagging(history: seq<Message>, fs: Extractor.FileSystem, k: nat)
    requires k < |history|
    ensures |Conversation(history, fs)| == |history|
    ensures Conversation(history, fs)[k].role.Name() == "user" <==> history[k].author == "User"
    ensures Conversation(history, fs)[k].role.Name() == "assistant" <==> history[k].author != "User"
  {
    ConversationPointwise(history, fs);
  }

  /** A message's text is replaced exactly when it is the user's, it has an
      attachment, the first attachment's lower-cased extension is supported and
      reading that attachment succeeds; the replacement is the original text,
      the fixed introduction and the extracted text. */
  lemma AugmentedExactly(history: seq<Message>, fs: Extractor.FileSystem, k: nat)
    requires k < |history|
    ensures |Conversation(history, fs)| == |history|
    ensures
      var m := history[k];
      var augmented := m.author == "User" && |m.elements| >= 1
        && AttachmentExtension(m.elements[0]) in [".txt", ".docx", ".pdf"]
        && Extractor.Extracted(fs, m.elements[0].path, AttachmentExtension(m.elements[0])).Ok?;
      && (Conversation(history, fs)[k].content != m.content <==> augmented)
      && (augmented ==>
            Conversation(history, fs)[k].content
            == m.content + ":\nHere is the provided information in the attached document:\n"
               + Extractor.Extracted(fs, m.elements[0].path, AttachmentExtension(m.elements[0])).value)
  {
    ConversationPointwise(history, fs);
    var m := history[k];
    if m.author == "User" && AttachmentText(m, fs).Some? {
      assert |m.content + AttachmentIntro + AttachmentText(m, fs).value| > |m.content|;
    }
  }

  /** Two histories that agree on every message's author, text and first
      attachment assemble to the same conversation: later attachments are never
      consulted. */
  lemma {:induction false} OnlyFirstAttachmentMatters(h1: seq<Message>, h2: seq<Message>, fs: Extractor.FileSystem)
    requires |h1| == |h2|
    requires forall k :: 0 <= k < |h1| ==>
      && h1[k].author == h2[k].author && h1[k].content == h2[k].content
      && (|h1[k].elements| == 0 <==> |h2[k].elements| == 0)
    requires forall k :: 0 <= k < |h1| && |h1[k].elements| > 0 && |h2[k].elements| > 0 ==>
      h1[k].elements[0] == h2[k].elements[0]
    ensures Conversation(h1, fs) == Conversation(h2, fs)
  {
    if |h1| > 0 {
      var n := |h1| - 1;
      OnlyFirstAttachmentMatters(h1[..n], h2[..n], fs);
      assert Processed(h1[n], fs) == Processed(h2[n], fs);
    }
  }

  /** A `.text` attachment is never read into the prompt, although the extractor
      itself would read such a file as plain text. */
  lemma DotTextNotAugmented(m: Message, fs: Extractor.FileSystem)
    requires m.author == "User" && |m.elements| >= 1
    requires AttachmentExtension(m.elements[0]) == ".text"
    ensures Extractor.IsExtractable(".text")
    ensures Processed(m, fs) == ChatRecord(UserRole, m.content)
  {
    assert ".text" !in SupportedExtensions;
  }

  /** A user message whose first attachment is named `<stem>.pdf` (in any letter
      case, with a stem that is not only dots) and reads as a PDF gets that PDF's text after the introduction. */
  lemma PdfAttachmentAugments(m: Message, fs: Extractor.FileSystem, stem: string, suffix: string,
                              pages: seq<Option<string>>)
    requires m.author == "User" && |m.elements| >= 1
    requires Strings.NamedComponent(stem)
    requires m.elements[0].name == stem + "." + suffix && Strings.Lower(suffix) == "pdf"
    requires m.elements[0].path in fs && fs[m.elements[0].path].asPdf == Ok(pages)
    ensures Processed(m, fs) == ChatRecord(UserRole,
      m.content + ":\nHere is the provided information in the attached document:\n" + Extractor.PdfText(pages))
  {
    assert '.' !in suffix && '/' !in suffix by {
      forall i | 0 <= i < |suffix| ensures suffix[i] != '.' && suffix[i] != '/' {
        assert Strings.LowerChar(suffix[i]) == "pdf"[i];
      }
    }
    Strings.ExtensionOfName(stem, suffix);
    Strings.LowerAppend(".", suffix);
    assert Strings.Lower(".") == ".";
    var first := m.elements[0];
    assert AttachmentExtension(first) == ".pdf";
    assert ".pdf" in SupportedExtensions;
    assert Extractor.Extracted(fs, first.path, ".pdf") == Ok(Extractor.PdfText(pages));
    assert AttachmentText(m, fs) == Some(Extractor.PdfText(pages));
  }
}
