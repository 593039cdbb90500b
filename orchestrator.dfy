/** The turn orchestrator (`main`): save the user's message, query the model with
    the whole history, turn its reply into a response (rendering a presentation
    when the model calls the tool), and save the response. */
module Orchestrator {
  import opened Wrappers
  import opened Json
  import opened History
  import Extractor
  import Assembler
  import Gateway
  import Renderer

  /** The startup configuration the core depends on. */
  datatype Config = Config(model: string, temperature: real, systemPrompt: string, template: Renderer.Template)

  /** `json.loads`: the parsed value, or `None` when the text is not JSON. */
  type JsonParser = string -> Option<Json>

  /** The collaborators one turn talks to: the model endpoint, the JSON parser, the
      files attachments are read from, and the clock, random suffix and save
      outcome of a render. */
  datatype Services = Services(
    client: Gateway.ChatCompletion,
    parseJson: JsonParser,
    files: Extractor.FileSystem,
    moment: Renderer.Moment)

  const TempFilesFolder := ".files"
  const PresentationTool := "generate_presentation"
  const InvalidFunction := "[ERROR] Invalid function"
  const InvalidResponse := "[ERROR] Invalid response from OpenAI"
  const RenderErrorPrefix := "[ERROR] Problem generating org chart:\n "
  const SuccessMarker := "[SUCCESS]"
  const Success := SuccessMarker + " Your Powerpoint presentation has been generated successfully"
  const JsonDecodeError := "the tool arguments are not valid JSON"

  /** How a turn ends: with the response message saved, or with an exception that
      escapes `main`. */
  datatype TurnOutcome = Answered(response: Message) | Raised(error: string)

  /** What the dispatch on the model's reply produces: the response text and its
      attachments, or an exception that escapes. */
  datatype Dispatched = Respond(content: string, elements: seq<Element>) | Escape(error: string)

  /** The session's folder for generated files. */
  function UserFolder(sessionId: string): string
  {
    TempFilesFolder + "/" + sessionId
  }

  /** The text of the `TypeError` Python raises for `value[key]` with a string key on
      a parsed JSON value that is not an object. A JSON number is taken to parse to
      an `int` when it is integral. */
  function SubscriptError(value: Json): string
  {
    match value
    case JNull => "'NoneType' object is not subscriptable"
    case JBool(_) => "'bool' object is not subscriptable"
    case JNumber(n) => if n.Floor as real == n then "'int' object is not subscriptable"
                       else "'float' object is not subscriptable"
    case JString(_) => "string indices must be integers, not 'str'"
    case JArray(_) => "list indices must be integers or slices, not str"
    case JObject(_) => ""
  }

  /** `arguments[key]` on parsed JSON: the value under `key` in an object; a missing
      key raises `KeyError`, whose text is the quoted key, and any other value raises
      `TypeError`. */
  function Argument(arguments: Json, key: string): (r: Result<Json>)
    ensures r.Ok? <==> arguments.JObject? && key in arguments.fields
    ensures r.Ok? ==> r.value == arguments.fields[key]
  {
    match arguments
    case JObject(fields) => if key in fields then Ok(fields[key]) else Err("'" + key + "'")
    case _ => Err(SubscriptError(arguments))
  }

  /** The `try` block of the tool branch: read the arguments, render, attach the file. */
  function GeneratePresentation(arguments: Json, folder: string, template: Renderer.Template, moment: Renderer.Moment)
    : Dispatched
  {
    match Argument(arguments, "topic")
    case Err(e) => Respond(RenderErrorPrefix + e, [])
    case Ok(topic) =>
      match Argument(arguments, "slide_data")
      case Err(e) => Respond(RenderErrorPrefix + e, [])
      case Ok(slideData) =>
        match Renderer.Render(topic, slideData, folder, template, moment)
        case Err(e) => Respond(RenderErrorPrefix + e, [])
        case Ok(deck) =>
          Renderer.RenderedDeck(topic, slideData, folder, template, moment);
          Respond(Success, [Element(topic.str, deck.path)])
  }

  /** The response `main` gives to the model's reply. */
  function Dispatch(reply: Gateway.Reply, parseJson: JsonParser, folder: string,
                    template: Renderer.Template, moment: Renderer.Moment): Dispatched
  {
    if reply.content != "" then Respond(reply.content, [])
    else if |reply.toolCalls| > 0 then
      var call := reply.toolCalls[0];
      match parseJson(call.arguments)
      case None => Escape(JsonDecodeError)
      case Some(arguments) =>
        if call.name == PresentationTool then GeneratePresentation(arguments, folder, template, moment)
        else Respond(InvalidFunction, [])
    else Respond(InvalidResponse, [])
  }

  /** The request one turn sends: the prompt built from the history with the new
      message saved. */
  function TurnRequest(history: seq<Message>, message: Message, config: Config, files: Extractor.FileSystem)
    : Gateway.Request
  {
    Gateway.Request(
      config.model,
      Gateway.Prompt(config.systemPrompt, Assembler.Conversation(history + [message], files)),
      config.temperature, Gateway.Tools, "auto")
  }

  /** How one turn ends, given the history before it. */
  function Turn(history: seq<Message>, message: Message, sessionId: string, config: Config,
                services: Services, assistantName: string): TurnOutcome
  {
    var reply := Gateway.ReplyOf(services.client(TurnRequest(history, message, config, services.files)));
    match Dispatch(reply, services.parseJson, UserFolder(sessionId), config.template, services.moment)
    case Escape(e) => Raised(e)
    case Respond(content, elements) => Answered(Message(assistantName, content, elements))
  }

  /** `main(message)`: one turn of the conversation in `session`. The response is
      saved after the user's message; when an exception escapes, only the user's
      message has been saved. */
  method OnMessage(session: UserSession, message: Message, config: Config, services: Services, assistantName: string)
    returns (outcome: TurnOutcome)
    modifies session
    ensures outcome == Turn(old(session.Messages()), message, session.id, config, services, assistantName)
    ensures session.chatHistory == Some(old(session.Messages()) + [message]
      + (if outcome.Answered? then [outcome.response] else []))
  {
    session.Save(message);
    var conversation := Assembler.GetConversationHistory(session, services.files);
    var reply := Gateway.GetGptResponse(services.client, config.model, config.temperature,
                                        config.systemPrompt, conversation, Gateway.Tools);
    var response := "";
    var elements: seq<Element> := [];
    if reply.content != "" {
      response := reply.content;
    } else if |reply.toolCalls| > 0 {
      var functionName := reply.toolCalls[0].name;
      var arguments := services.parseJson(reply.toolCalls[0].arguments);
      if arguments.None? {
        assert old(session.Messages()) + [message] + [] == old(session.Messages()) + [message];
        return Raised(JsonDecodeError);
      }
      if functionName == PresentationTool {
        var topic := Argument(arguments.value, "topic");
        if topic.Err? {
          response := RenderErrorPrefix + topic.error;
        } else {
          var slideData := Argument(arguments.value, "slide_data");
          if slideData.Err? {
            response := RenderErrorPrefix + slideData.error;
          } else {
            var folder := UserFolder(session.id);
            var generated := Renderer.CreatePowerpointFile(topic.value, slideData.value, folder,
                                                            config.template, services.moment);
            if generated.Err? {
              response := RenderErrorPrefix + generated.error;
            } else {
              Renderer.RenderedDeck(topic.value, slideData.value, folder, config.template, services.moment);
              elements := [Element(topic.value.str, generated.value.path)];
              response := Success;
            }
          }
        }
      } else {
        response := InvalidFunction;
      }
    } else {
      response := InvalidResponse;
    }
    var responseMessage := Message(assistantName, response, elements);
    session.Save(responseMessage);
    outcome := Answered(responseMessage);
  }

  /** A reply with text is the response, verbatim and without attachments, whatever
      tool calls come with it. */
  lemma TextReplyIsResponse(reply: Gateway.Reply, parseJson: JsonParser, folder: string,
                            template: Renderer.Template, moment: Renderer.Moment)
    requires reply.content != ""
    ensures Dispatch(reply, parseJson, folder, template, moment) == Respond(reply.content, [])
  {
  }

  /** A reply with neither text nor tool calls gives the invalid-response error. */
  lemma EmptyReplyIsInvalid(reply: Gateway.Reply, parseJson: JsonParser, folder: string,
                            template: Renderer.Template, moment: Renderer.Moment)
    requires reply.content == "" && reply.toolCalls == []
    ensures Dispatch(reply, parseJson, folder, template, moment) == Respond("[ERROR] Invalid response from OpenAI", [])
  {
  }

  /** A call of any other tool, with arguments that parse, gives the invalid-function error. */
  lemma UnknownToolIsInvalid(reply: Gateway.Reply, parseJson: JsonParser, folder: string,
                             template: Renderer.Template, moment: Renderer.Moment)
    requires reply.content == "" && |reply.toolCalls| > 0
    requires parseJson(reply.toolCalls[0].arguments).Some?
    requires reply.toolCalls[0].name != "generate_presentation"
    ensures Dispatch(reply, parseJson, folder, template, moment) == Respond("[ERROR] Invalid function", [])
  {
  }

  /** Arguments that parse to a JSON value other than an object make the `try` block
      report Python's `TypeError` for subscripting that value: a list, for one, gives
      "list indices must be integers or slices, not str". */
  lemma NonObjectArgumentsReportTypeError(arguments: Json, folder: string,
                                          template: Renderer.Template, moment: Renderer.Moment)
    requires !arguments.JObject?
    ensures GeneratePresentation(arguments, folder, template, moment)
         == Respond(RenderErrorPrefix + SubscriptError(arguments), [])
    ensures arguments.JArray? ==>
      GeneratePresentation(arguments, folder, template, moment).content
        == RenderErrorPrefix + "list indices must be integers or slices, not str"
  {
  }

  /** Arguments that are not JSON escape the dispatch, whatever tool is named: the
      parse happens before the name is checked and outside the `try`. */
  lemma MalformedArgumentsEscape(reply: Gateway.Reply, parseJson: JsonParser, folder: string,
                                 template: Renderer.Template, moment: Renderer.Moment)
    requires reply.content == "" && |reply.toolCalls| > 0
    requires parseJson(reply.toolCalls[0].arguments).None?
    ensures Dispatch(reply, parseJson, folder, template, moment).Escape?
  {
  }

  /** Only the first tool call is ever inspected. */
  lemma OnlyFirstToolCall(r1: Gateway.Reply, r2: Gateway.Reply, parseJson: JsonParser, folder: string,
                          template: Renderer.Template, moment: Renderer.Moment)
    requires r1.content == r2.content
    requires |r1.toolCalls| > 0 && |r2.toolCalls| > 0 && r1.toolCalls[0] == r2.toolCalls[0]
    ensures Dispatch(r1, parseJson, folder, template, moment) == Dispatch(r2, parseJson, folder, template, moment)
  {
  }

  /** Tool arguments without "topic" or without "slide_data" never reach the
      renderer: the response is the generation error, with no attachment, and does
      not depend on the template, the clock, the random suffix or the save. */
  lemma MissingArgumentSkipsRenderer(arguments: map<string, Json>, folder: string,
                                     t1: Renderer.Template, m1: Renderer.Moment,
                                     t2: Renderer.Template, m2: Renderer.Moment)
    requires "topic" !in arguments || "slide_data" !in arguments
    ensures GeneratePresentation(JObject(arguments), folder, t1, m1) == GeneratePresentation(JObject(arguments), folder, t2, m2)
    ensures GeneratePresentation(JObject(arguments), folder, t1, m1).Respond?
    ensures GeneratePresentation(JObject(arguments), folder, t1, m1).elements == []
    ensures
      var content := GeneratePresentation(JObject(arguments), folder, t1, m1).content;
      |content| >= 37 && content[..37] == "[ERROR] Problem generating org chart:"
  {
  }

  /** No render error text reads as the success text. */
  lemma ErrorIsNotSuccess(e: string)
    ensures RenderErrorPrefix + e != Success
  {
    assert Success[1] == SuccessMarker[1] == 'S';
    assert (RenderErrorPrefix + e)[1] == 'E';
  }

  /** The generated file is attached exactly when the response reports success,
      and then it is the rendered deck's file, named after the topic. */
  lemma SuccessAttachesDeck(arguments: Json, folder: string, template: Renderer.Template, moment: Renderer.Moment)
    ensures
      var d := GeneratePresentation(arguments, folder, template, moment);
      && d.Respond?
      && (d.elements != [] <==> d.content == Success)
      && (d.content == Success ==>
            && Argument(arguments, "topic").Ok? && Argument(arguments, "slide_data").Ok?
            && var topic := Argument(arguments, "topic").value;
            && var deck := Renderer.Render(topic, Argument(arguments, "slide_data").value, folder, template, moment);
            && deck.Ok? && topic.JString?
            && d.elements == [Element(topic.str, deck.value.path)])
  {
    var d := GeneratePresentation(arguments, folder, template, moment);
    match Argument(arguments, "topic")
    case Err(e) =>
      ErrorIsNotSuccess(e);
    case Ok(topic) =>
      match Argument(arguments, "slide_data")
      case Err(e) =>
        ErrorIsNotSuccess(e);
      case Ok(slideData) =>
        match Renderer.Render(topic, slideData, folder, template, moment)
        case Err(e) =>
          ErrorIsNotSuccess(e);
        case Ok(deck) =>
          Renderer.RenderedDeck(topic, slideData, folder, template, moment);
          assert d == Respond(Success, [Element(topic.str, deck.path)]);
  }

  /** A failing model call is answered, not raised: the turn's response starts with
      the API error marker. */
  lemma ApiFailureIsAnswered(history: seq<Message>, message: Message, sessionId: string, config: Config,
                             services: Services, assistantName: string)
    requires services.client(TurnRequest(history, message, config, services.files)).Err?
    ensures Turn(history, message, sessionId, config, services, assistantName).Answered?
    ensures
      var content := Turn(history, message, sessionId, config, services, assistantName).response.content;
      |content| >= 35 && content[..35] == "[ERROR] Problem calling OpenAI API:"
  {
    Gateway.FailureBecomesErrorReply(services.client(TurnRequest(history, message, config, services.files)));
  }

  /** The prompt of every turn is the system prompt followed by the records of all
      earlier messages and the new one, in the order they were saved. */
  lemma TurnPromptReplaysHistory(history: seq<Message>, message: Message, config: Config, files: Extractor.FileSystem)
    ensures
      var messages := TurnRequest(history, message, config, files).messages;
      && |messages| == |history| + 2
      && messages[0] == Assembler.ChatRecord(Assembler.SystemRole, config.systemPrompt)
      && (forall k :: 0 <= k < |history| ==> messages[k + 1] == Assembler.Processed(history[k], files))
      && messages[|history| + 1] == Assembler.Processed(message, files)
  {
    var h := history + [message];
    Gateway.PromptMirrorsHistory(config.systemPrompt, h, files);
    assert forall k :: 0 <= k < |history| ==> h[k] == history[k];
  }
}
