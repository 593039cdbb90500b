# Slides assistant: the conversation pipeline, in Dafny

This project models the per-turn pipeline of a chat assistant that designs a slide
presentation with the user and, when the language model calls its single tool
`generate_presentation`, renders a PowerPoint deck from a template. One turn
(`main`) does these steps in order:

1. It saves the user's message to the session's chat history (`save_message_to_history`).
2. It assembles the history into role-tagged prompt records. A user message with
   an attachment gets the text of its first attachment appended
   (`get_conversation_history`, `get_file_extension`, `read_all_text_from_file`).
3. It sends a system message plus those records to the chat-completion endpoint.
   A failed call becomes an error reply (`get_gpt_response`).
4. It dispatches on the reply. Text is the response. A tool call has its JSON
   arguments parsed and, for the known tool, a deck is rendered
   (`create_powerpoint_file`, `generate_random_file_name`). Everything else
   gives a fixed error text.
5. It saves the response to the history.

Modules, one per component:

- `Wrappers`: Option and Result. An exception the source raises is an `Err` carrying its text.
- `Strings`: `str.join`, `str.split` (as the inverse of join), `str.lower`, decimal printing, and `os.path.splitext` for POSIX paths.
- `Json`: the values `json.loads` can produce.
- `Extractor`: the text extractor. A file on disk is given by what each document library yields on it (`FileData`).
- `History`: messages, attachments, and the `UserSession` class whose stored history `Save` appends to.
- `Assembler`: the prompt assembler. The specification function `Conversation` is what `GetConversationHistory` computes.
- `Gateway`: prompt construction and error capture. The endpoint is a function parameter.
- `Renderer`: the `Presentation` class the deck is built in. The specification function `Render` is what `CreatePowerpointFile` computes.
- `Orchestrator`: the turn. The specification function `Turn` is what `OnMessage` computes, and `Dispatch` is the branch on the reply.

External collaborators are parameters:

- the chat endpoint (`Gateway.ChatCompletion`: a request to its choices or an error text);
- `json.loads` (`Orchestrator.JsonParser`);
- the files on disk (`Extractor.FileSystem`);
- the presentation template (`Renderer.Template`: its layouts, or the error loading it raises);
- the clock, the random suffix and the outcome of saving the deck (`Renderer.Moment`);
- the configuration (`Orchestrator.Config`).

Where the design description and the code disagree, the model follows the code:

- The API error text is `"[ERROR] Problem calling OpenAI API:\n " + detail`, not a generic "model API" text.
- Every user message with an attachment is augmented, not only the first user turn.
- Tool arguments that are not JSON are parsed outside the `try`. The exception escapes `main`, and the response is never saved, so the history holds only the user's message. The design describes an error reply with both turns saved instead (`Orchestrator.MalformedArgumentsEscape`, `Orchestrator.OnMessage`).
- The extractor reads `.text` files, but the assembler's whitelist omits `.text`, so such an attachment is never augmented (`Assembler.DotTextNotAugmented`).
- The design says two renders in the same instant get distinct paths. The code does not guarantee this: the random suffix can repeat. What holds is `Renderer.FileNameInjective`: two names are equal only when both the clock reading and the suffix are equal.

## Model

| member | source | states |
|---|---|---|
| `History.UserSession.Save` | src/app.py:131-137 | the stored history becomes the old one (empty when absent) plus the new message at the end; earlier entries are unchanged and the length grows by one |
| `Strings.Extension` | src/app.py:164-166 | the extension is a suffix of the path that is empty or starts with its only dot and holds no `/`; which of the two it is, `ExtensionOfName` and `LeadingDotsNoExtension` settle |
| `Strings.ExtensionOfName` | src/app.py:164-166 | any path `stem + "." + suffix` whose stem's final component holds a non-dot character, with a suffix free of `.` and `/`, has extension exactly `.suffix` (`a..pdf` and `dir/.x.pdf` give `.pdf`) |
| `Strings.LeadingDotsNoExtension` | src/app.py:164-166 | a final component (the whole path, or after a `/`) made of a run of dots, possibly empty, and a dot-free name has no extension (`.pdf`, `.bashrc`, `notes`) |
| `Strings.SplitJoin` | src/app.py:177 | splitting a newline join on the separator gives back the parts when no part holds it |
| `Strings.DecimalRoundTrip` | src/app.py:162 | reading back the decimal digits of a number gives the number |
| `Extractor.ReadAllTextFromFile` | src/app.py:168-183 | the result is the extraction for the effective extension (given, else lower-cased from the path); an extension other than .txt/.text/.docx/.pdf gives "" |
| `Extractor.ConcatenatePages` | src/app.py:181-182 | the text accumulated over the pages is `PdfText` of them: page texts in order, None as "" |
| `Extractor.PdfTextAppend` | src/app.py:178-182 | the text of pages a followed by pages b is the text of a followed by the text of b |
| `Extractor.PdfTextOfBlankPages` | src/app.py:182 | pages with no extractable text (None or "") contribute nothing and do not fail |
| `Extractor.DocxParagraphsRecoverable` | src/app.py:175-177 | the paragraphs of a document can be read back from its extracted text when none holds a line break |
| `Extractor.UnknownExtensionIgnoresFile` | src/app.py:168-183 | an unhandled extension gives "" whatever is on disk, even for a missing file |
| `Assembler.GetConversationHistory` | src/app.py:139-159 | the records returned are `Conversation` of the session's stored history |
| `Assembler.ProcessMessage` | src/app.py:143-158 | the record built for one message is `Processed` of it |
| `Assembler.ConversationLength` | src/app.py:139-159 | the conversation has exactly one record per stored message |
| `Assembler.ConversationAt` | src/app.py:141-158 | record k of the conversation is message k, processed |
| `Assembler.ConversationPointwise` | src/app.py:141-158 | one record per stored message, in the same order, each the processed message |
| `Assembler.ConversationExtends` | src/app.py:139-159 | appending messages to the history leaves the earlier records unchanged |
| `Assembler.ProcessedRole` | src/app.py:143-158 | a message's role is user when its author is "User" and assistant otherwise |
| `Assembler.RoleTagging` | src/app.py:143-158 | record k is tagged "user" iff message k's author is "User", and "assistant" iff it is not |
| `Assembler.AugmentedExactly` | src/app.py:145-156 | a message's text is replaced iff it is the user's, has an attachment, the first one's lower-cased extension is .txt/.docx/.pdf and extraction succeeds; the replacement is text + introduction + extracted text |
| `Assembler.OnlyFirstAttachmentMatters` | src/app.py:145-149 | histories agreeing on authors, texts and first attachments assemble identically |
| `Assembler.DotTextNotAugmented` | src/app.py:149-151 | a `.text` first attachment, which the extractor accepts, leaves the user's text unchanged |
| `Assembler.PdfAttachmentAugments` | src/app.py:145-153 | a user message with first attachment `<stem>.pdf` in any case gets the PDF's page texts after the introduction |
| `Gateway.GetGptResponse` | src/app.py:211-225 | the reply is the first choice of the endpoint called with the system message followed by the records verbatim, temperature, tools and "auto"; a raised call or no choice gives the API error reply |
| `Gateway.PromptMirrorsHistory` | src/app.py:212-214 | the prompt is one system message then one record per stored message in order, tagged "user" iff the author is "User" |
| `Gateway.FailureBecomesErrorReply` | src/app.py:224-225 | a failed call yields a reply with no tool calls whose text starts with "[ERROR] Problem calling OpenAI API:" |
| `Gateway.SuccessIsFirstChoice` | src/app.py:223 | a successful call returns the first choice unchanged |
| `Renderer.PyIndex` | src/app.py:191 | a layout index denotes a position iff it is in [-n, n), and that position is the index modulo n |
| `Renderer.GenerateRandomFileName` | src/app.py:161-162 | the name holds exactly one `_`; the digit runs on either side read back as the clock reading and the random suffix |
| `Renderer.FileNameInjective` | src/app.py:161-162 | two generated names are equal only if both the clock reading and the random suffix are |
| `Renderer.OutputPathInjective` | src/app.py:207 | two output paths in one folder are equal only if both the clock reading and the random suffix are |
| `Renderer.Presentation.constructor` | src/app.py:188 | a new deck has the template's layouts and no slides (a template without slides of its own is assumed) |
| `Renderer.Presentation.AddSlide` | src/app.py:192 | adds one last slide on the layout, placeholders at their defaults |
| `Renderer.Presentation.SetTitle` | src/app.py:202 | sets the title of one slide and changes nothing else |
| `Renderer.Presentation.SetBody` | src/app.py:204 | sets placeholder 1 of one slide and changes nothing else |
| `Renderer.AddTitleSlide` | src/app.py:191-196 | the deck gets the title slide `TitleSlide` describes (title layout, topic, caption), or reports the error it raises, after adding the slide unless the layout index is out of range |
| `Renderer.AddContentSlide` | src/app.py:200-204 | the deck gets the content slide `ContentSlide` describes for one record, or reports the error it raises, after adding the slide unless the layout index is out of range |
| `Renderer.CreatePowerpointFile` | src/app.py:186-209 | the result is `Render` of its inputs: the saved deck, or the first error raised |
| `Renderer.ContentSlidesStop` | src/app.py:199-204 | the first record that fails to render makes the whole render fail with its error |
| `Renderer.ContentSlideMeaning` | src/app.py:200-204 | a content slide that builds has the slide's title iff the record has "title" and the joined bullets iff it has "content"; every renderable record builds |
| `Renderer.ContentSlidesPointwise` | src/app.py:199-204 | content slides are one per record, in record order |
| `Renderer.ContentSlidesBuild` | src/app.py:199-204 | records that each build give a run of content slides |
| `Renderer.RenderedDeck` | src/app.py:186-209 | a saved deck of N records has N+1 slides: the title slide (title layout, topic, "Generated by Slides Assistant"), then slide k+1 on the content layout as record k describes; the path is folder/name.pptx |
| `Renderer.RenderSucceeds` | src/app.py:186-209 | a loadable template, valid layouts with placeholders, a string topic, renderable records and a working save always give a deck |
| `Orchestrator.OnMessage` | src/app.py:87-127 | the outcome is `Turn` of the old history; the history becomes old + message + response, or old + message alone when an exception escapes |
| `Orchestrator.TextReplyIsResponse` | src/app.py:103-104 | a reply with text is the response verbatim with no attachment |
| `Orchestrator.EmptyReplyIsInvalid` | src/app.py:122-123 | no text and no tool calls gives "[ERROR] Invalid response from OpenAI" |
| `Orchestrator.UnknownToolIsInvalid` | src/app.py:120-121 | a first tool call of another name with parsable arguments gives "[ERROR] Invalid function" |
| `Orchestrator.MalformedArgumentsEscape` | src/app.py:105-107 | arguments that are not JSON escape the turn, whatever the tool name |
| `Orchestrator.OnlyFirstToolCall` | src/app.py:105-107 | replies with the same text and first tool call are dispatched alike |
| `Orchestrator.MissingArgumentSkipsRenderer` | src/app.py:108-119 | arguments without "topic" or "slide_data" give "[ERROR] Problem generating org chart:" with no attachment, independent of template, clock, random suffix and save |
| `Orchestrator.NonObjectArgumentsReportTypeError` | src/app.py:108-119 | arguments that parse to a non-object report Python's `TypeError` text for subscripting that value, e.g. "list indices must be integers or slices, not str" for a list |
| `Orchestrator.SuccessAttachesDeck` | src/app.py:114-117 | a file is attached iff the response is the success text, and then it is the rendered deck's path named after the topic |
| `Orchestrator.ApiFailureIsAnswered` | src/app.py:102-104 | a failing model call is answered, not raised, with text starting "[ERROR] Problem calling OpenAI API:" |
| `Orchestrator.TurnPromptReplaysHistory` | src/app.py:94-102 | a turn's prompt is the system message, the records of all earlier messages in order, then the new message's record |

## Left out

- Chainlit transport (`send`, `update`, `make_async`, `cl.File` display options, async execution): front-end plumbing. The session is the `UserSession` object passed in, and the answering author's name is a parameter.
- Creating the per-session folder (`os.makedirs`, src/app.py:90-92) and the bytes written by `prs.save`: filesystem effects. A saved deck is reported as its path and slides, and the `FileSystem` map is not updated.
- Configuration loading, client construction and `exit(1)` (src/app.py:12-44): startup. The model name, temperature (a real passed through), system prompt and template are a `Config` value.
- The text of `SYSTEM_PROMPT` and the descriptions in the tool schema (src/app.py:20-29, 46-85): constant data. The tool is its name and required arguments.
- `print` of the topic and slide data (src/app.py:111, 113).
- The internals of python-pptx, python-docx and PyPDF2, and the exact texts of most exceptions. Each failure kind gets one fixed placeholder text: the library errors, `JSONDecodeError`, and the built-in `TypeError`s raised inside `create_powerpoint_file` (non-object records, non-string titles, bullets that are not strings). Texts that follow Python are: the `KeyError` for a missing argument (`'topic'`), the `IndexError` for no choices, python-pptx's "slide layout index out of range", and the `TypeError` for subscripting non-object arguments. That last one uses the Python 3.11+ wording for strings and takes an integral JSON number to be an `int`.
- Renderer.Presentation.constructor: the template is assumed to hold no slides of its own. `Presentation(TEMPLATE_FILE)` keeps any slides the template file has, so a template with K slides gives a deck of K + N + 1 slides, not the N + 1 `Renderer.RenderedDeck` states.
- Renderer.CreatePowerpointFile: `slide_data` that is not a list, a record that is not an object, a non-string title, and content that is not a list of strings are each modelled as a render failure. In some of these cases Python does something else: it iterates a string's characters or a dict's keys, `in` tests substrings or list membership, and `join` accepts a string.
- Strings.Lower: folds ASCII letters only. No non-ASCII character lower-cases to a letter of `.txt`, `.docx` or `.pdf`, so the whitelist test is unaffected.
- Strings.Extension: follows POSIX `os.path.splitext` only. The Windows variant, which also splits on `\`, is not modelled.
- Extractor.ReadAllTextFromFile: UTF-8 decoding and newline translation are not modelled; they are part of the given `FileData.asText`. A PDF that fails part-way through fails as a whole. The result is discarded on failure either way.
- Object identity: Chainlit stores message objects by reference. The model stores message values, saved after their last change.
- Python's falsy tests: a `None` reply content is modelled as "" and missing tool calls as [], which the source treats alike.
