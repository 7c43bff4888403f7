/** The `/api/rest` route: the storage schema and its validators, the tool catalog sent to
    the completion provider, and the shaping of the provider's answer into the client's response. */
module RestRoute {
  import opened Wrappers
  import opened ChatTypes
  import JsText

  // ---------------------------------------------------------------- storage schema

  /** One `STORAGE_SCHEMA` entry: its key and the behaviour note the system prompt repeats. */
  datatype SchemaEntry = SchemaEntry(key: string, behaviorNotes: string)

  /** `STORAGE_SCHEMA`, in declaration order. */
  const StorageSchema: seq<SchemaEntry> := [
    SchemaEntry("calculation", "Accept various number formats, validate they're numeric"),
    SchemaEntry("flag", "Accept 'yes'/'no', 'on'/'off', '1'/'0' and convert to 'true'/'false'"),
    SchemaEntry("note", "Accept any non-empty text, trim whitespace"),
    SchemaEntry("theme", "Case-insensitive, normalize to lowercase")
  ]

  /** The `flag` validator. */
  predicate FlagValid(value: string) {
    JsText.ToLower(value) in ["true", "false"]
  }

  /** The `note` validator. */
  predicate NoteValid(value: string) {
    |JsText.Trim(value)| > 0
  }

  /** The `theme` validator. */
  predicate ThemeValid(value: string) {
    JsText.ToLower(value) in ["light", "dark"]
  }

  /** The flag validator accepts exactly "true" and "false" written in any mix of cases. */
  lemma FlagValidIff(value: string)
    ensures FlagValid(value) <==>
      JsText.MatchesIgnoringCase(value, "true") || JsText.MatchesIgnoringCase(value, "false")
  {
    JsText.ToLowerEqualsIff(value, "true");
    JsText.ToLowerEqualsIff(value, "false");
  }

  /** The theme validator accepts exactly "light" and "dark" written in any mix of cases. */
  lemma ThemeValidIff(value: string)
    ensures ThemeValid(value) <==>
      JsText.MatchesIgnoringCase(value, "light") || JsText.MatchesIgnoringCase(value, "dark")
  {
    JsText.ToLowerEqualsIff(value, "light");
    JsText.ToLowerEqualsIff(value, "dark");
  }

  /** The note validator accepts exactly the strings with a non-white-space character. */
  lemma NoteValidIff(value: string)
    ensures NoteValid(value) <==> exists i :: 0 <= i < |value| && !JsText.IsWhitespace(value[i])
  {
  }

  /** The flag validator does not accept the spellings its behaviour note promises to
      normalise: "yes", "on" and "1" are rejected, whatever their case. */
  lemma FlagValidatorRejectsAliases()
    ensures FlagValid("TRUE") && FlagValid("False")
    ensures !FlagValid("yes") && !FlagValid("on") && !FlagValid("1")
  {
    FlagValidIff("TRUE");
    FlagValidIff("False");
    assert |JsText.ToLower("yes")| == 3 && |JsText.ToLower("on")| == 2 && |JsText.ToLower("1")| == 1;
  }

  lemma ThemeValidatorExamples()
    ensures ThemeValid("LIGHT") && ThemeValid("Dark") && !ThemeValid("blue")
  {
    ThemeValidIff("LIGHT");
    ThemeValidIff("Dark");
    assert JsText.ToLower("blue")[0] == 'b';
  }

  lemma NoteValidatorExamples()
    ensures NoteValid(" a ") && !NoteValid(" \t ")
  {
    assert !JsText.IsWhitespace(" a "[1]);
  }

  // ---------------------------------------------------------------- tool catalog

  /** `Object.keys` of a schema: its keys in declaration order. */
  function KeysOf(entries: seq<SchemaEntry>): (r: seq<string>)
    ensures |r| == |entries|
    ensures forall i :: 0 <= i < |entries| ==> r[i] == entries[i].key
  {
    if entries == [] then [] else [entries[0].key] + KeysOf(entries[1..])
  }

  function SchemaKeys(): seq<string> {
    KeysOf(StorageSchema)
  }

  /** A declared parameter: its name, the `enum` of allowed strings if any, and its description. */
  datatype Property = Property(name: string, allowed: Option<seq<string>>, description: string)

  /** One entry of `tools`: the function's name, description, properties and `required` list. */
  datatype ToolDecl = ToolDecl(name: string, description: string, properties: seq<Property>, required: seq<string>)

  /** The descriptions the tool catalogue gives the model. */
  const SetDescription: string := "Store a value in localStorage under the specified key"
  const GetDescription: string := "Retrieve a value from localStorage for the specified key"
  const ContinueDescription: string := "Continue the conversation after executing localStorage operations"
  const SetKeyDescription: string := "The storage key to use"
  const ValueDescription: string := "The value to store (will be normalized based on key type)"
  const GetKeyDescription: string := "The storage key to read from"

  /** The `tools` array, whose key enums are derived from the schema. */
  function Tools(): seq<ToolDecl> {
    [ ToolDecl(SetTool, SetDescription,
               [ Property("key", Some(SchemaKeys()), SetKeyDescription),
                 Property("value", None, ValueDescription) ],
               ["key", "value"]),
      ToolDecl(GetTool, GetDescription,
               [ Property("key", Some(SchemaKeys()), GetKeyDescription) ],
               ["key"]),
      ToolDecl(ContinueTool, ContinueDescription,
               [], []) ]
  }

  /** The catalog declares set, get and continueConversation, in that order; the key enum of set
      and get is the schema's keys in declaration order; set requires key and value, get requires
      key, continueConversation requires nothing; every required name is a declared property. */
  lemma ToolCatalogShape()
    ensures |Tools()| == 3
    ensures Tools()[0].name == SetTool && Tools()[1].name == GetTool && Tools()[2].name == ContinueTool
    ensures Tools()[0].properties[0].allowed == Some(["calculation", "flag", "note", "theme"])
    ensures Tools()[1].properties[0].allowed == Some(["calculation", "flag", "note", "theme"])
    ensures Tools()[0].required == ["key", "value"]
    ensures Tools()[1].required == ["key"]
    ensures Tools()[2].required == [] && Tools()[2].properties == []
  {
    SchemaKeysInOrder();
  }

  /** `Object.keys(STORAGE_SCHEMA)` lists the four keys in declaration order. */
  lemma SchemaKeysInOrder()
    ensures SchemaKeys() == ["calculation", "flag", "note", "theme"]
  {
    var keys := SchemaKeys();
    assert keys[0] == "calculation" && keys[1] == "flag" && keys[2] == "note" && keys[3] == "theme";
  }

  /** Every name a tool lists as required is one of that tool's declared properties. */
  lemma RequiredAreDeclared()
    ensures forall t, n :: t in Tools() && n in t.required ==>
      exists p :: p in t.properties && p.name == n
  {
    var ts := Tools();
    forall t, n | t in ts && n in t.required
      ensures exists p :: p in t.properties && p.name == n
    {
      if t == ts[0] {
        if n == "key" {
          assert t.properties[0] in t.properties;
        } else {
          assert t.properties[1] in t.properties;
        }
      } else {
        assert t == ts[1];
        assert t.properties[0] in t.properties;
      }
    }
  }

  /** The key-specific lines of the system prompt: one line per schema entry, in order. */
  function KeyBehaviorLines(entries: seq<SchemaEntry>): (r: seq<string>)
    ensures |r| == |entries|
    ensures forall i :: 0 <= i < |entries| ==> r[i] == "- " + entries[i].key + ": " + entries[i].behaviorNotes
  {
    if entries == [] then []
    else ["- " + entries[0].key + ": " + entries[0].behaviorNotes] + KeyBehaviorLines(entries[1..])
  }

  /** The prompt names every schema key exactly once, in schema order. */
  lemma KeyBehaviorLinesFollowSchema()
    ensures |KeyBehaviorLines(StorageSchema)| == |SchemaKeys()| == 4
    ensures forall i :: 0 <= i < 4 ==>
      KeyBehaviorLines(StorageSchema)[i][..2 + |SchemaKeys()[i]|] == "- " + SchemaKeys()[i]
  {
    var lines := KeyBehaviorLines(StorageSchema);
    forall i | 0 <= i < 4 ensures lines[i][..2 + |SchemaKeys()[i]|] == "- " + SchemaKeys()[i] {
      var k := StorageSchema[i].key;
      assert lines[i] == ("- " + k) + (": " + StorageSchema[i].behaviorNotes);
    }
  }

  // ---------------------------------------------------------------- request and response

  /** A transcript entry as the route sends it to the provider; `content` may be null in the
      provider's own assistant message. */
  datatype TraceEntry = TraceEntry(role: Role, content: Option<string>, toolCallId: Option<string>,
                                   toolCalls: Option<seq<ToolCall>>)

  /** The model transcript: the system prompt first, then the client's list unchanged. */
  function InitialTranscript(systemPrompt: string, messageList: seq<TraceEntry>): (r: seq<TraceEntry>)
    ensures |r| == |messageList| + 1
    ensures r[0].role == System && r[0].content == Some(systemPrompt)
    ensures r[1..] == messageList
  {
    [TraceEntry(System, Some(systemPrompt), None, None)] + messageList
  }

  /** The fixed parameters of the completion request. */
  datatype CompletionRequest = CompletionRequest(model: string, messages: seq<TraceEntry>, temperature: real,
                                                 maxTokens: nat, tools: seq<ToolDecl>, toolChoice: string)

  /** The request `openai.chat.completions.create` receives. */
  function BuildRequest(model: string, messages: seq<TraceEntry>): (r: CompletionRequest)
    ensures r.model == model && r.messages == messages
    ensures r.tools == Tools() && r.toolChoice == "auto"
    ensures r.temperature == 0.7 && r.maxTokens == 150
  {
    CompletionRequest(model, messages, 0.7, 150, Tools(), "auto")
  }

  /** `choices[0].message` of the completion. */
  datatype AssistantMessage = AssistantMessage(content: Option<string>, toolCalls: Option<seq<ToolCall>>)

  /** What the provider call produced: the first choice's message (absent when there is no
      choice), or a thrown error with its `message` property (absent when it has none). */
  datatype ProviderResult = Completed(message: Option<AssistantMessage>) | Failed(errorMessage: Option<string>)

  /** The JSON body of the route's answer: status 200 with the four fields, or status 500. */
  datatype Response =
    | Ok(reply: Option<string>, fulltrace: seq<TraceEntry>, toolcalls: seq<ToolCall>, onlyToolCalled: bool)
    | ServerError(errorReply: string)

  /** The error envelope's reply: "Error: " then the message, or "Unknown error." when the
      message is missing or empty; it always carries text after the prefix. */
  function ErrorReply(errorMessage: Option<string>): (r: string)
    ensures |r| > 7 && r[..7] == "Error: "
    ensures errorMessage.Some? && errorMessage.value != "" ==> r[7..] == errorMessage.value
    ensures errorMessage.None? || errorMessage.value == "" ==> r[7..] == "Unknown error."
  {
    "Error: " + (if errorMessage.Some? && errorMessage.value != "" then errorMessage.value else "Unknown error.")
  }

  function AsTraceEntry(m: AssistantMessage): TraceEntry {
    TraceEntry(Assistant, m.content, None, m.toolCalls)
  }

  /** The tool calls the provider's message carries, in order; empty when there are none. */
  function CarriedToolCalls(message: Option<AssistantMessage>): seq<ToolCall> {
    if message.Some? && message.value.toolCalls.Some? then message.value.toolCalls.value else []
  }

  /** `!message?.content`: no message, no content, or empty content. */
  predicate ContentFalsy(message: Option<AssistantMessage>) {
    message.None? || message.value.content.None? || message.value.content.value == ""
  }

  /** The `POST` handler after the provider call. `toolcalls` is the message's calls in order;
      the assistant message joins the trace only when it carries a call; `onlyToolCalled` holds
      exactly when there is no content and at least one call; the reply is then "Calling tools ",
      else the content; any failure gives the error envelope. The request sent carries the
      transcript that the returned trace starts with. */
  method Post(systemPrompt: string, model: string, messageList: seq<TraceEntry>, result: ProviderResult)
    returns (request: CompletionRequest, resp: Response)
    ensures request == BuildRequest(model, InitialTranscript(systemPrompt, messageList))
    ensures request.messages[0].role == System && request.messages[1..] == messageList
    ensures resp.Ok? ==> request.messages <= resp.fulltrace && |resp.fulltrace| <= |request.messages| + 1
    ensures result.Failed? ==> resp == ServerError(ErrorReply(result.errorMessage))
    ensures result.Completed? ==> resp.Ok?
    ensures result.Completed? ==> resp.toolcalls == CarriedToolCalls(result.message)
    ensures result.Completed? ==>
              resp.fulltrace == InitialTranscript(systemPrompt, messageList)
                                + (if |resp.toolcalls| > 0 then [AsTraceEntry(result.message.value)] else [])
    ensures result.Completed? ==>
      (resp.onlyToolCalled <==> ContentFalsy(result.message) && |resp.toolcalls| > 0)
    ensures result.Completed? ==>
              resp.reply == (if resp.onlyToolCalled then Some("Calling tools ")
                             else if result.message.Some? then result.message.value.content
                             else None)
  {
    var messages := InitialTranscript(systemPrompt, messageList);
    request := BuildRequest(model, messages);
    if result.Failed? {
      resp := ServerError(ErrorReply(result.errorMessage));
      return;
    }
    var message := result.message;
    var toolcalls: seq<ToolCall> := [];
    if message.Some? && message.value.toolCalls.Some? && |message.value.toolCalls.value| > 0 {
      messages := messages + [AsTraceEntry(message.value)];
      var calls := message.value.toolCalls.value;
      var i := 0;
      while i < |calls|
        invariant 0 <= i <= |calls|
        invariant toolcalls == calls[..i]
      {
        toolcalls := toolcalls + [calls[i]];
        i := i + 1;
      }
    }
    var onlyToolCalled := false;
    if ContentFalsy(message) && |toolcalls| > 0 {
      onlyToolCalled := true;
    }
    var reply := if onlyToolCalled then Some("Calling tools ")
                 else if message.Some? then message.value.content else None;
    resp := Ok(reply, messages, toolcalls, onlyToolCalled);
  }
}
