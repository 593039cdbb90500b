/** The model gateway (`get_gpt_response`): one system message followed by the
    conversation, sent to the chat-completion endpoint; any failure of the call
    becomes an in-band error reply. The endpoint is a parameter. */
module Gateway {
  import opened Wrappers
  import opened Assembler
  import History
  import Extractor

  /** A tool invocation the model asks for: the tool's name and its arguments as JSON text. */
  datatype ToolCall = ToolCall(name: string, arguments: string)

  /** The assistant message of a completion. A missing content is "" and missing
      tool calls are [], the values Python treats alike when testing them. */
  datatype Reply = Reply(content: string, toolCalls: seq<ToolCall>)

  /** The declaration of one callable tool: its name and its required arguments. */
  datatype ToolDeclaration = ToolDeclaration(name: string, required: seq<string>)

  /** The single tool offered to the model. Its descriptions are not modelled. */
  const Tools := [ToolDeclaration("generate_presentation", ["topic", "slide_data"])]

  /** One call to the chat-completion endpoint. */
  datatype Request = Request(
    model: string,
    messages: seq<ChatRecord>,
    temperature: real,
    tools: seq<ToolDeclaration>,
    toolChoice: string)

  /** The endpoint: the choices of the completion it returns, or the text of the
      exception the client raises. */
  type ChatCompletion = Request -> Result<seq<Reply>>

  const ApiErrorPrefix := "[ERROR] Problem calling OpenAI API:\n "
  const IndexErrorDetail := "list index out of range"

  /** The messages sent: the system prompt, then the conversation verbatim. */
  function Prompt(systemPrompt: string, conversation: seq<ChatRecord>): seq<ChatRecord>
  {
    [ChatRecord(SystemRole, systemPrompt)] + conversation
  }

  /** The reply `get_gpt_response` returns for what the endpoint did: the first
      choice, or an error reply when the call raised or returned no choice. */
  function ReplyOf(response: Result<seq<Reply>>): Reply
  {
    match response
    case Err(e) => Reply(ApiErrorPrefix + e, [])
    case Ok(choices) =>
      if |choices| == 0 then Reply(ApiErrorPrefix + IndexErrorDetail, []) else choices[0]
  }

  /** `get_gpt_response(client, model, temperature, system_prompt, conversation, tools)`. */
  method GetGptResponse(
    client: ChatCompletion, model: string, temperature: real, systemPrompt: string,
    conversation: seq<ChatRecord>, tools: seq<ToolDeclaration>)
    returns (reply: Reply)
    ensures reply == ReplyOf(client(Request(model, Prompt(systemPrompt, conversation), temperature, tools, "auto")))
  {
    var promptStructure := [ChatRecord(SystemRole, systemPrompt)];
    var i := 0;
    while i < |conversation|
      invariant 0 <= i <= |conversation|
      invariant promptStructure == [ChatRecord(SystemRole, systemPrompt)] + conversation[..i]
    {
      assert conversation[..i + 1] == conversation[..i] + [conversation[i]];
      promptStructure := promptStructure + [conversation[i]];
      i := i + 1;
    }
    assert conversation[..|conversation|] == conversation;
    var response := client(Request(model, promptStructure, temperature, tools, "auto"));
    match response {
      case Err(e) =>
        reply := Reply(ApiErrorPrefix + e, []);
      case Ok(choices) =>
        if |choices| == 0 {
          reply := Reply(ApiErrorPrefix + IndexErrorDetail, []);
        } else {
          reply := choices[0];
        }
    }
  }

  /** The prompt built from a history is one system message followed by one record
      per stored message, in order: the user's tagged `user`, the others `assistant`. */
  lemma PromptMirrorsHistory(systemPrompt: string, history: seq<History.Message>, fs: Extractor.FileSystem)
    ensures
      var p := Prompt(systemPrompt, Conversation(history, fs));
      && |p| == |history| + 1
      && p[0].role.Name() == "system" && p[0].content == systemPrompt
      && (forall k :: 0 <= k < |history| ==> p[k + 1] == Processed(history[k], fs))
      && (forall k :: 0 <= k < |history| ==> (p[k + 1].role.Name() == "user" <==> history[k].author == "User"))
  {
    var c := Conversation(history, fs);
    var p := Prompt(systemPrompt, c);
    ConversationPointwise(history, fs);
    forall k | 0 <= k < |history|
      ensures p[k + 1] == Processed(history[k], fs)
      ensures p[k + 1].role.Name() == "user" <==> history[k].author == "User"
    {
      assert p[k + 1] == c[k];
      ProcessedRole(history[k], fs);
    }
  }

  /** A failed call never escapes: it yields a reply without tool calls whose text
      starts with the API error marker. */
  lemma FailureBecomesErrorReply(response: Result<seq<Reply>>)
    requires response.Err? || response.value == []
    ensures ReplyOf(response).toolCalls == []
    ensures |ReplyOf(response).content| >= 35
    ensures ReplyOf(response).content[..35] == "[ERROR] Problem calling OpenAI API:"
  {
  }

  /** A successful call returns the model's first choice unchanged. */
  lemma SuccessIsFirstChoice(choices: seq<Reply>)
    requires choices != []
    ensures ReplyOf(Ok(choices)) == choices[0]
  {
  }
}
