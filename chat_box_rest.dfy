/** The chat client: the tool-call executor (`processToolCalls`), one turn of `sendMessage`,
    and `handleClear`. The key/value store is an abstract map whose reads fall back to the
    defaults of `LOCAL_STORAGE_CONFIG`. */
module ChatBoxRest {
  import opened Wrappers
  import opened ChatTypes
  import JsText
  import StorageConfig

  /** A `ChatMessage` as the UI list holds it, with its presentation flags. */
  datatype DisplayMessage = DisplayMessage(
    role: Role, content: string, toolCallId: Option<string>, toolCalls: Option<seq<ToolCall>>,
    forUser: bool, continueConversationToolCall: bool, showAtom: bool, setToolCall: bool)

  /** An `AiChatMessage` of the model-facing transcript. */
  datatype AiMessage = AiMessage(role: Role, content: string, toolCallId: Option<string>,
                                 toolCalls: Option<seq<ToolCall>>)

  /** Everything the executor and `sendMessage` change: the store, the display list, the AI
      transcript, the input box, and the number of follow-up sends requested by
      `continueConversation`. */
  datatype ChatState = ChatState(store: map<string, string>, messages: seq<DisplayMessage>,
                                 aiMessages: seq<AiMessage>, input: string, continuations: nat)

  /** How a batch of tool calls ended: every call ran, or one threw out of the loop
      (the state is then the one before that call). */
  datatype Outcome = Finished(state: ChatState) | Threw(state: ChatState)

  /** The part of the `/api/rest` answer that `sendMessage` uses. */
  datatype ApiResponse = ApiResponse(reply: string, toolcalls: seq<ToolCall>, onlyToolCalled: bool)

  /** `if (args.key)`: present and not the empty string. */
  predicate Truthy(o: Option<string>) {
    o.Some? && o.value != ""
  }

  /** A storage read: the stored value, else the configured default. */
  function ReadStore(store: map<string, string>, key: string): string {
    if key in store then store[key] else StorageConfig.DefaultText(key)
  }

  /** The four branches of the `switch` on the function name. */
  datatype ToolKind = GetKind | SetKind | ContinueKind | UnknownKind

  function KindOf(name: string): ToolKind {
    if name == GetTool then GetKind
    else if name == SetTool then SetKind
    else if name == ContinueTool then ContinueKind
    else UnknownKind
  }

  /** The calls whose `JSON.parse` throws: a get or set call with malformed arguments. */
  predicate Throws(c: ToolCall) {
    (KindOf(c.name) == GetKind || KindOf(c.name) == SetKind) && c.args.Malformed?
  }

  predicate IsKnownTool(name: string) {
    KindOf(name) != UnknownKind
  }

  // ---------------------------------------------------------------- the entries of each branch

  const ReadErrorText: string := "There was an error reading value."
  const WriteErrorText: string := "There was an error in setting the value."
  const ContinueText: string := "Continuing conversation "

  /** The pieces the tool results sent back to the model are assembled from. */
  const CalledTool: string := "Called tool "
  const InvalidArguments: string := ", Error: Invalid arguments for "
  const TryAgain: string := ", Try Again"
  const StorageValueFor: string := ", Local Storage Value for "

  const ReadErrorResult: string := CalledTool + GetTool + InvalidArguments + GetTool + TryAgain
  const WriteErrorResult: string := CalledTool + SetTool + InvalidArguments + SetTool + TryAgain
  const ContinueResult: string := CalledTool + ContinueTool + ", Continuing conversation..."
  const ReadResultPrefix: string := CalledTool + GetTool + StorageValueFor
  const WriteResultPrefix: string := CalledTool + SetTool + StorageValueFor
  const UnknownPrefix: string := "Error: Unknown tool call function "
  const ReadPrefix: string := "Reading value of "
  const WritePrefix: string := "I have set the value of "

  predicate EndsWith(text: string, suffix: string) {
    |suffix| <= |text| && text[|text| - |suffix|..] == suffix
  }

  function ToolDisplay(id: string, content: string, setToolCall: bool): DisplayMessage {
    DisplayMessage(Tool, content, Some(id), None, false, false, false, setToolCall)
  }

  function ToolResult(id: string, content: string): AiMessage {
    AiMessage(Tool, content, Some(id), None)
  }

  /** The display entry and AI entry of a `getLocalStorage` call whose arguments parsed: with a
      key, both end with the value read; without one, both are the fixed error texts. */
  function GetEntries(id: string, key: Option<string>, store: map<string, string>): (r: (DisplayMessage, AiMessage))
    ensures r.0.role == Tool && r.0.toolCallId == Some(id) && r.1.role == Tool && r.1.toolCallId == Some(id)
    ensures !Truthy(key) ==> r.0.content == ReadErrorText && r.1.content == ReadErrorResult
    ensures Truthy(key) ==> EndsWith(r.0.content, ReadStore(store, key.value))
                            && EndsWith(r.1.content, ReadStore(store, key.value))
  {
    if Truthy(key) then
      var v := ReadStore(store, key.value);
      (ToolDisplay(id, ReadPrefix + key.value + ", It's " + v, false),
       ToolResult(id, ReadResultPrefix + key.value + ": " + v))
    else
      (ToolDisplay(id, ReadErrorText, false),
       ToolResult(id, ReadErrorResult))
  }

  /** The display entry and AI entry of a `setLocalStorage` call whose arguments parsed: the
      display entry is marked as a set call; with a key and a value both end with the value
      written, otherwise both are the fixed error texts. */
  function SetEntries(id: string, key: Option<string>, value: Option<string>): (r: (DisplayMessage, AiMessage))
    ensures r.0.role == Tool && r.0.toolCallId == Some(id) && r.1.role == Tool && r.1.toolCallId == Some(id)
    ensures r.0.setToolCall
    ensures !(Truthy(key) && Truthy(value)) ==> r.0.content == WriteErrorText && r.1.content == WriteErrorResult
    ensures Truthy(key) && Truthy(value) ==> EndsWith(r.0.content, value.value) && EndsWith(r.1.content, value.value)
  {
    if Truthy(key) && Truthy(value) then
      (ToolDisplay(id, WritePrefix + key.value + " to " + value.value, true),
       ToolResult(id, WriteResultPrefix + key.value + " has been set to " + value.value))
    else
      (ToolDisplay(id, WriteErrorText, true),
       ToolResult(id, WriteErrorResult))
  }

  /** The display entry and AI entry of a `continueConversation` call; the display entry is
      marked as a continuation. */
  function ContinueEntries(id: string): (r: (DisplayMessage, AiMessage))
    ensures r.0.role == Tool && r.0.toolCallId == Some(id) && r.1.role == Tool && r.1.toolCallId == Some(id)
    ensures r.0.continueConversationToolCall && !r.0.setToolCall
  {
    (DisplayMessage(Tool, ContinueText, Some(id), None, false, true, true, false),
     ToolResult(id, ContinueResult))
  }

  /** The display entry of a call to an unknown function; its text names the function. */
  function UnknownEntry(id: string, name: string): (r: DisplayMessage)
    ensures r.role == Tool && r.toolCallId == Some(id)
    ensures |r.content| >= |UnknownPrefix| + |name|
            && r.content[|UnknownPrefix|..|UnknownPrefix| + |name|] == name
  {
    ToolDisplay(id, UnknownPrefix + name + ", Try Again", false)
  }

  // ---------------------------------------------------------------- one call, a batch

  /** Appends one entry to the display list and, when there is one, one to the AI transcript. */
  function Append(s: ChatState, shown: DisplayMessage, result: Option<AiMessage>): ChatState {
    s.(messages := s.messages + [shown],
       aiMessages := if result.Some? then s.aiMessages + [result.value] else s.aiMessages)
  }

  /** One iteration of the `processToolCalls` loop; `None` when the call throws. */
  function Step(s: ChatState, c: ToolCall): Option<ChatState> {
    match KindOf(c.name)
    case GetKind =>
      (match c.args
       case Malformed => None
       case Parsed(key, _) =>
         var e := GetEntries(c.id, key, s.store);
         Some(Append(s, e.0, Some(e.1))))
    case SetKind =>
      (match c.args
       case Malformed => None
       case Parsed(key, value) =>
         var store := if Truthy(key) && Truthy(value) then s.store[key.value := value.value] else s.store;
         var e := SetEntries(c.id, key, value);
         Some(Append(s.(store := store), e.0, Some(e.1))))
    case ContinueKind =>
      var e := ContinueEntries(c.id);
      Some(Append(s, e.0, Some(e.1)).(continuations := s.continuations + 1))
    case UnknownKind =>
      Some(Append(s, UnknownEntry(c.id, c.name), None))
  }

  /** What one call does. It throws exactly when it is a get or set call with malformed
      arguments. Otherwise it appends exactly one tool entry, tagged with its id, to the display
      list; a known tool also appends exactly one tool entry with that id to the AI transcript,
      an unknown one appends none. Only a set call with a non-empty key and value changes the
      store, and it writes the value verbatim under that key; only continueConversation
      requests a follow-up send; the input box is untouched. */
  lemma StepEffects(s: ChatState, c: ToolCall)
    ensures Step(s, c).None? <==> Throws(c)
    ensures var r := Step(s, c);
            r.Some? ==>
              && |r.value.messages| == |s.messages| + 1 && r.value.messages[..|s.messages|] == s.messages
              && r.value.messages[|s.messages|].role == Tool
              && r.value.messages[|s.messages|].toolCallId == Some(c.id)
              && r.value.aiMessages[..|s.aiMessages|] == s.aiMessages
              && |r.value.aiMessages| == |s.aiMessages| + (if IsKnownTool(c.name) then 1 else 0)
              && (IsKnownTool(c.name) ==> r.value.aiMessages[|s.aiMessages|].role == Tool
                                          && r.value.aiMessages[|s.aiMessages|].toolCallId == Some(c.id))
              && r.value.continuations == s.continuations + (if KindOf(c.name) == ContinueKind then 1 else 0)
              && r.value.input == s.input
    ensures var r := Step(s, c);
            r.Some? ==>
              r.value.store == (if KindOf(c.name) == SetKind && c.args.Parsed? && Truthy(c.args.key) && Truthy(c.args.value)
                                then s.store[c.args.key.value := c.args.value.value]
                                else s.store)
  {
    match KindOf(c.name)
    case GetKind =>
    case SetKind =>
    case ContinueKind =>
    case UnknownKind =>
  }

  /** The `processToolCalls` loop over `calls`, left to right, stopping at the first call that
      throws. It never removes or alters an earlier entry, appends only tool entries to the
      display list, leaves the input box alone, and finishes exactly when no call throws. */
  function Run(s: ChatState, calls: seq<ToolCall>): (r: Outcome)
    ensures r.Finished? <==> forall i :: 0 <= i < |calls| ==> !Throws(calls[i])
    ensures s.messages <= r.state.messages && s.aiMessages <= r.state.aiMessages
    ensures forall i :: |s.messages| <= i < |r.state.messages| ==> r.state.messages[i].role == Tool
    ensures r.state.input == s.input
    decreases |calls|
  {
    if calls == [] then Finished(s)
    else
      var prefix := calls[..|calls| - 1];
      assert forall i :: 0 <= i < |prefix| ==> prefix[i] == calls[i];
      match Run(s, prefix)
      case Threw(t) => Threw(t)
      case Finished(t) =>
        StepEffects(t, calls[|calls| - 1]);
        match Step(t, calls[|calls| - 1])
        case None => Threw(t)
        case Some(u) => Finished(u)
  }

  /** One more call after a finished prefix: the batch so far throws exactly when that call
      does, and otherwise ends in the state the call's step produces. */
  lemma RunExtend(s: ChatState, calls: seq<ToolCall>, i: int)
    requires 0 <= i < |calls| && Run(s, calls[..i]).Finished?
    ensures var t := Run(s, calls[..i]).state;
            Run(s, calls[..i + 1]) == (if Step(t, calls[i]).Some? then Finished(Step(t, calls[i]).value) else Threw(t))
  {
    assert calls[..i + 1][..i] == calls[..i];
  }

  /** Once a prefix of the batch has thrown, the rest of the batch is skipped. */
  lemma {:induction false} RunThrewSticks(s: ChatState, calls: seq<ToolCall>, k: nat)
    requires k <= |calls| && Run(s, calls[..k]).Threw?
    ensures Run(s, calls) == Run(s, calls[..k])
    decreases |calls|
  {
    if k < |calls| {
      var prefix := calls[..|calls| - 1];
      assert prefix[..k] == calls[..k];
      RunThrewSticks(s, prefix, k);
    } else {
      assert calls[..k] == calls;
    }
  }

  /** The calls are processed strictly in array order: a finished batch has appended exactly
      one display entry per call, and entry i carries the id of call i. */
  lemma {:induction false} RunProcessesInOrder(s: ChatState, calls: seq<ToolCall>)
    requires Run(s, calls).Finished?
    ensures var r := Run(s, calls).state;
            |r.messages| == |s.messages| + |calls|
            && forall i :: 0 <= i < |calls| ==> r.messages[|s.messages| + i].toolCallId == Some(calls[i].id)
    decreases |calls|
  {
    if calls != [] {
      var prefix := calls[..|calls| - 1];
      RunLastDisplay(s, calls);
      RunProcessesInOrder(s, prefix);
      var t := Run(s, prefix).state;
      var u := Run(s, calls).state;
      forall i | 0 <= i < |calls| ensures u.messages[|s.messages| + i].toolCallId == Some(calls[i].id) {
        if i < |prefix| {
          assert u.messages[|s.messages| + i] == t.messages[|s.messages| + i];
          assert calls[i] == prefix[i];
        } else {
          assert |s.messages| + i == |t.messages|;
        }
      }
    }
  }

  /** A malformed get or set call aborts the rest of the batch: the outcome is `Threw` with
      exactly the state reached after the calls before it, all of which ran. */
  lemma RunStopsAtFirstThrow(s: ChatState, calls: seq<ToolCall>, j: nat)
    requires j < |calls| && Throws(calls[j])
    requires forall i :: 0 <= i < j ==> !Throws(calls[i])
    ensures Run(s, calls[..j]).Finished?
    ensures Run(s, calls) == Threw(Run(s, calls[..j]).state)
  {
    assert calls[..j + 1][..j] == calls[..j];
    assert calls[..j + 1][j] == calls[j];
    assert forall i :: 0 <= i < j ==> calls[..j][i] == calls[i];
    RunThrewSticks(s, calls, j + 1);
  }

  /** How many calls of the batch are known tools; how many are continueConversation. */
  function CountKnown(calls: seq<ToolCall>): nat {
    if calls == [] then 0
    else CountKnown(calls[..|calls| - 1]) + (if IsKnownTool(calls[|calls| - 1].name) then 1 else 0)
  }

  function CountContinue(calls: seq<ToolCall>): nat {
    if calls == [] then 0
    else CountContinue(calls[..|calls| - 1]) + (if KindOf(calls[|calls| - 1].name) == ContinueKind then 1 else 0)
  }

  /** A finished batch requests exactly one follow-up send per continueConversation call, and
      adds one AI transcript entry per call to a known tool (none for an unknown one). */
  lemma {:induction false} RunCounts(s: ChatState, calls: seq<ToolCall>)
    requires Run(s, calls).Finished?
    ensures Run(s, calls).state.continuations == s.continuations + CountContinue(calls)
    ensures |Run(s, calls).state.aiMessages| == |s.aiMessages| + CountKnown(calls)
    decreases |calls|
  {
    if calls != [] {
      RunCounts(s, calls[..|calls| - 1]);
    }
  }

  /** The ids of the batch's calls to known tools, in call order. */
  function KnownCallIds(calls: seq<ToolCall>): (r: seq<string>)
    ensures |r| == CountKnown(calls)
  {
    if calls == [] then []
    else KnownCallIds(calls[..|calls| - 1])
         + (if IsKnownTool(calls[|calls| - 1].name) then [calls[|calls| - 1].id] else [])
  }

  /** The transcript sent back to the provider answers the calls in order: a finished batch
      appends exactly one AI entry per known-tool call, and entry i carries the id of the i-th
      known-tool call. */
  lemma {:induction false} RunAiIdsFollowCalls(s: ChatState, calls: seq<ToolCall>)
    requires Run(s, calls).Finished?
    ensures var r := Run(s, calls).state;
            var ids := KnownCallIds(calls);
            |r.aiMessages| == |s.aiMessages| + |ids|
            && forall i :: 0 <= i < |ids| ==> r.aiMessages[|s.aiMessages| + i].toolCallId == Some(ids[i])
    decreases |calls|
  {
    if calls != [] {
      var prefix := calls[..|calls| - 1];
      var last := calls[|calls| - 1];
      RunAiIdsFollowCalls(s, prefix);
      var t := Run(s, prefix).state;
      StepEffects(t, last);
      var u := Step(t, last).value;
      assert Run(s, calls).state == u;
      var pids := KnownCallIds(prefix);
      var ids := KnownCallIds(calls);
      assert |t.aiMessages| == |s.aiMessages| + |pids|;
      forall i | 0 <= i < |ids|
        ensures u.aiMessages[|s.aiMessages| + i].toolCallId == Some(ids[i])
      {
        if i < |pids| {
          assert u.aiMessages[|s.aiMessages| + i] == u.aiMessages[..|t.aiMessages|][|s.aiMessages| + i];
          assert ids[i] == pids[i];
        } else {
          assert ids[i] == last.id;
        }
      }
    }
  }

  /** The last call of a finished batch appends one display entry, carrying that call's id,
      to the state the rest of the batch left. */
  lemma RunLastDisplay(s: ChatState, calls: seq<ToolCall>)
    requires calls != [] && Run(s, calls).Finished?
    ensures Run(s, calls[..|calls| - 1]).Finished?
    ensures var t := Run(s, calls[..|calls| - 1]).state; var u := Run(s, calls).state;
            |u.messages| == |t.messages| + 1 && u.messages[..|t.messages|] == t.messages
            && u.messages[|t.messages|].toolCallId == Some(calls[|calls| - 1].id)
  {
    var t := Run(s, calls[..|calls| - 1]).state;
    StepEffects(t, calls[|calls| - 1]);
  }

  /** A batch without a set call leaves the store as it was, whether it finishes or throws. */
  lemma {:induction false} RunWithoutSetKeepsStore(s: ChatState, calls: seq<ToolCall>)
    requires forall i :: 0 <= i < |calls| ==> KindOf(calls[i].name) != SetKind
    ensures Run(s, calls).state.store == s.store
    decreases |calls|
  {
    if calls != [] {
      var prefix := calls[..|calls| - 1];
      assert forall i :: 0 <= i < |prefix| ==> prefix[i] == calls[i];
      RunWithoutSetKeepsStore(s, prefix);
    }
  }

  /** A write is visible to a read later in the same batch: after set(k, v) then get(k), the
      read reports v to the model. */
  lemma SetThenGetReadsValue(s: ChatState, k: string, v: string, setId: string, getId: string)
    requires k != "" && v != ""
    ensures var calls := [ToolCall(setId, SetTool, Parsed(Some(k), Some(v))),
                          ToolCall(getId, GetTool, Parsed(Some(k), None))];
            var r := Run(s, calls);
            r.Finished?
            && r.state.store == s.store[k := v]
            && r.state.aiMessages == s.aiMessages + [
                 ToolResult(setId, WriteResultPrefix + k + " has been set to " + v),
                 ToolResult(getId, ReadResultPrefix + k + ": " + v)]
  {
    var setCall := ToolCall(setId, SetTool, Parsed(Some(k), Some(v)));
    var getCall := ToolCall(getId, GetTool, Parsed(Some(k), None));
    SetStepWrites(s, k, v, setId);
    var s1 := Step(s, setCall).value;
    GetStepReads(s1, k, getId);
    RunPair(s, setCall, getCall);
  }

  /** Two calls that both go through run as one step after the other. */
  lemma RunPair(s: ChatState, c1: ToolCall, c2: ToolCall)
    requires Step(s, c1).Some? && Step(Step(s, c1).value, c2).Some?
    ensures Run(s, [c1, c2]) == Finished(Step(Step(s, c1).value, c2).value)
  {
    var calls := [c1, c2];
    assert calls[..|calls| - 1] == [c1];
    assert [c1][..0] == [];
    assert Run(s, [c1]) == Finished(Step(s, c1).value);
    assert calls[|calls| - 1] == c2;
  }

  /** A set call with a key and a value stores the value and reports it to the model. */
  lemma SetStepWrites(s: ChatState, k: string, v: string, id: string)
    requires k != "" && v != ""
    ensures Step(s, ToolCall(id, SetTool, Parsed(Some(k), Some(v)))).Some?
    ensures Step(s, ToolCall(id, SetTool, Parsed(Some(k), Some(v)))).value.aiMessages
            == s.aiMessages + [ToolResult(id, WriteResultPrefix + k + " has been set to " + v)]
    ensures Step(s, ToolCall(id, SetTool, Parsed(Some(k), Some(v)))).value.store == s.store[k := v]
  {
    assert KindOf(SetTool) == SetKind;
  }

  /** A get call on a key that is stored reports the stored value. */
  lemma GetStepReads(s: ChatState, k: string, id: string)
    requires k != "" && k in s.store
    ensures Step(s, ToolCall(id, GetTool, Parsed(Some(k), None))).Some?
    ensures Step(s, ToolCall(id, GetTool, Parsed(Some(k), None))).value.aiMessages
            == s.aiMessages + [ToolResult(id, ReadResultPrefix + k + ": " + s.store[k])]
    ensures Step(s, ToolCall(id, GetTool, Parsed(Some(k), None))).value.store == s.store
  {
    assert KindOf(GetTool) == GetKind;
    assert ReadStore(s.store, k) == s.store[k];
  }

  // ---------------------------------------------------------------- one send

  function UserDisplay(m: AiMessage): DisplayMessage {
    DisplayMessage(m.role, m.content, m.toolCallId, m.toolCalls, false, false, false, false)
  }

  /** The assistant entry: the reply, with `tool_calls` only when the list is non-empty. */
  function AssistantEntry(reply: ApiResponse): AiMessage {
    AiMessage(Assistant, reply.reply, None, if |reply.toolcalls| > 0 then Some(reply.toolcalls) else None)
  }

  /** The UI copy of the assistant entry, marked for the user when only tools were called. */
  function AssistantDisplay(m: AiMessage, onlyToolCalled: bool): DisplayMessage {
    DisplayMessage(m.role, m.content, m.toolCallId, m.toolCalls, onlyToolCalled, false, onlyToolCalled, false)
  }

  const CallingToolsPlaceholder: DisplayMessage :=
    DisplayMessage(Assistant, "Calling tools ", None, None, true, false, true, false)

  /** The user entry (if the input box is non-empty) and the cleared input box. */
  function AppendUserInput(s: ChatState): ChatState {
    if s.input != "" then
      var user := AiMessage(User, JsText.Trim(s.input), None, None);
      s.(messages := s.messages + [UserDisplay(user)], aiMessages := s.aiMessages + [user], input := "")
    else
      s.(input := "")
  }

  /** The assistant entry in both lists, and the placeholder in the display list unless only
      tools were called. */
  function AppendReply(s: ChatState, reply: ApiResponse): ChatState {
    var assistant := AssistantEntry(reply);
    var shown := AssistantDisplay(assistant, reply.onlyToolCalled);
    s.(aiMessages := s.aiMessages + [assistant],
       messages := if reply.onlyToolCalled then s.messages + [shown]
                   else s.messages + [shown, CallingToolsPlaceholder])
  }

  /** One `sendMessage` with the given credentials and completion, including the tool calls it
      runs; a throw out of the tool loop is caught and ends the send. */
  function Send(s: ChatState, apiKey: string, model: string, reply: ApiResponse): Outcome {
    if apiKey == "" || model == "" then Finished(s)
    else
      var t := AppendReply(AppendUserInput(s), reply);
      if |reply.toolcalls| > 0 then Run(t, reply.toolcalls) else Finished(t)
  }

  /** Without an API key or a model, a send changes nothing at all. */
  lemma SendWithoutCredentials(s: ChatState, apiKey: string, model: string, reply: ApiResponse)
    requires apiKey == "" || model == ""
    ensures Send(s, apiKey, model, reply) == Finished(s)
  {
  }

  /** With credentials, a send keeps every earlier entry and clears the input box; a non-empty
      input adds one user entry with the trimmed text to both lists; the AI transcript then gains
      exactly one assistant entry (carrying `tool_calls` only when there are some) followed only
      by tool entries; the display list shows the assistant entry and then the "Calling tools "
      placeholder exactly when not only tools were called. */
  lemma {:induction false} SendAppendsOneTurn(s: ChatState, apiKey: string, model: string, reply: ApiResponse)
    requires apiKey != "" && model != ""
    ensures TurnShape(s, Send(s, apiKey, model, reply).state, reply)
  {
    var t := AppendReply(AppendUserInput(s), reply);
    TurnShapeBeforeTools(s, reply);
    if |reply.toolcalls| > 0 {
      var r := Run(t, reply.toolcalls).state;
      forall i | |t.aiMessages| <= i < |r.aiMessages|
        ensures r.aiMessages[i].role == Tool
      {
        RunAiEntriesAreTools(t, reply.toolcalls);
        assert Run(t, reply.toolcalls).state.aiMessages[i].role == Tool;
      }
      TurnShapeKeptByTools(s, t, r, reply);
    }
  }

  /** The shape of the state `r` one send leaves behind `s`: every earlier entry is kept and
      the input box is empty; when the box held text, both lists gain one user entry with the
      trimmed text; the AI transcript then gains the assistant entry (carrying `tool_calls`
      exactly when there are some) followed only by tool entries; the display list gains the
      assistant entry (shown to the user when only tools were called) and then the
      "Calling tools " placeholder exactly when not only tools were called. */
  predicate TurnShape(s: ChatState, r: ChatState, reply: ApiResponse) {
    var u := if s.input != "" then 1 else 0;
    && r.input == ""
    && s.messages <= r.messages && s.aiMessages <= r.aiMessages
    && |r.aiMessages| > |s.aiMessages| + u && |r.messages| > |s.messages| + u
    && (s.input != "" ==>
          r.aiMessages[|s.aiMessages|] == AiMessage(User, JsText.Trim(s.input), None, None)
          && r.messages[|s.messages|].role == User
          && r.messages[|s.messages|].content == JsText.Trim(s.input))
    && r.aiMessages[|s.aiMessages| + u] == AssistantEntry(reply)
    && (r.aiMessages[|s.aiMessages| + u].toolCalls.Some? <==> |reply.toolcalls| > 0)
    && (forall i :: |s.aiMessages| + u < i < |r.aiMessages| ==> r.aiMessages[i].role == Tool)
    && r.messages[|s.messages| + u].role == Assistant
    && r.messages[|s.messages| + u].content == reply.reply
    && r.messages[|s.messages| + u].forUser == reply.onlyToolCalled
    && (!reply.onlyToolCalled <==>
          |r.messages| > |s.messages| + u + 1 && r.messages[|s.messages| + u + 1] == CallingToolsPlaceholder)
  }

  /** The user entry and the assistant entry give the turn its shape before any tool runs. */
  lemma TurnShapeBeforeTools(s: ChatState, reply: ApiResponse)
    ensures TurnShape(s, AppendReply(AppendUserInput(s), reply), reply)
  {
    var s1 := AppendUserInput(s);
    var t := AppendReply(s1, reply);
    var u := if s.input != "" then 1 else 0;
    assert |s1.messages| == |s.messages| + u && |s1.aiMessages| == |s.aiMessages| + u;
    assert s.messages <= s1.messages && s.aiMessages <= s1.aiMessages;
    assert t.aiMessages == s1.aiMessages + [AssistantEntry(reply)];
    assert t.messages[|s1.messages|] == AssistantDisplay(AssistantEntry(reply), reply.onlyToolCalled);
  }

  /** Appending only tool entries to both lists keeps the shape of the turn. */
  lemma TurnShapeKeptByTools(s: ChatState, t: ChatState, r: ChatState, reply: ApiResponse)
    requires TurnShape(s, t, reply)
    requires t.messages <= r.messages && t.aiMessages <= r.aiMessages && r.input == t.input
    requires forall i :: |t.messages| <= i < |r.messages| ==> r.messages[i].role == Tool
    requires forall i :: |t.aiMessages| <= i < |r.aiMessages| ==> r.aiMessages[i].role == Tool
    ensures TurnShape(s, r, reply)
  {
    var u := if s.input != "" then 1 else 0;
    var k := |s.messages| + u;
    assert r.messages[..|t.messages|] == t.messages && r.aiMessages[..|t.aiMessages|] == t.aiMessages;
    assert r.messages[k] == t.messages[k];
    assert r.aiMessages[|s.aiMessages| + u] == t.aiMessages[|s.aiMessages| + u];
    if s.input != "" {
      assert r.messages[|s.messages|] == t.messages[|s.messages|];
      assert r.aiMessages[|s.aiMessages|] == t.aiMessages[|s.aiMessages|];
    }
    if |t.messages| > k + 1 {
      assert r.messages[k + 1] == t.messages[k + 1];
    } else if |r.messages| > k + 1 {
      assert r.messages[k + 1].role == Tool;
    }
    forall i | |s.aiMessages| + u < i < |r.aiMessages|
      ensures r.aiMessages[i].role == Tool
    {
      if i < |t.aiMessages| {
        assert r.aiMessages[i] == t.aiMessages[i];
      }
    }
  }


  /** Everything a batch appends to the AI transcript is a tool entry. */
  lemma {:induction false} RunAiEntriesAreTools(s: ChatState, calls: seq<ToolCall>)
    ensures var r := Run(s, calls).state;
            forall i :: |s.aiMessages| <= i < |r.aiMessages| ==> r.aiMessages[i].role == Tool
    decreases |calls|
  {
    if calls != [] {
      var prefix := calls[..|calls| - 1];
      RunAiEntriesAreTools(s, prefix);
      match Run(s, prefix)
      case Threw(t) =>
        assert Run(s, calls).state == t;
      case Finished(t) =>
        var last := calls[|calls| - 1];
        StepEffects(t, last);
        if Step(t, last).Some? {
          var r := Step(t, last).value;
          assert Run(s, calls).state == r;
          forall i | |s.aiMessages| <= i < |r.aiMessages| ensures r.aiMessages[i].role == Tool {
            if i < |t.aiMessages| {
              assert r.aiMessages[i] == r.aiMessages[..|t.aiMessages|][i];
            }
          }
        } else {
          assert Run(s, prefix).state == t;
          assert forall i :: |s.aiMessages| <= i < |t.aiMessages| ==> t.aiMessages[i].role == Tool;
          assert Run(s, calls).state == t;
        }
    }
  }

  /** A send whose batch finishes adds to the display list the user entry (if any), the
      assistant entry, the placeholder (unless only tools were called) and one entry per call. */
  lemma SendDisplayCount(s: ChatState, apiKey: string, model: string, reply: ApiResponse)
    requires apiKey != "" && model != ""
    requires Send(s, apiKey, model, reply).Finished?
    ensures |Send(s, apiKey, model, reply).state.messages|
            == |s.messages| + (if s.input != "" then 1 else 0) + 1
               + (if reply.onlyToolCalled then 0 else 1) + |reply.toolcalls|
  {
    var t := AppendReply(AppendUserInput(s), reply);
    if |reply.toolcalls| > 0 {
      RunProcessesInOrder(t, reply.toolcalls);
    }
  }

  // ---------------------------------------------------------------- the component's state

  /** The chat box component: the store it reads and writes, the display list, the AI
      transcript (`aiMessagesRef`), the input box, and the follow-up sends requested so far. */
  class ChatBox {
    var store: map<string, string>
    var messages: seq<DisplayMessage>
    var aiMessages: seq<AiMessage>
    var input: string
    var continuations: nat

    function State(): ChatState
      reads this
    {
      ChatState(store, messages, aiMessages, input, continuations)
    }

    constructor (store: map<string, string>)
      ensures State() == ChatState(store, [], [], "", 0)
    {
      this.store := store;
      messages := [];
      aiMessages := [];
      input := "";
      continuations := 0;
    }

    /** The input box's `onChange`. */
    method SetInput(text: string)
      modifies this
      ensures State() == old(State()).(input := text)
    {
      input := text;
    }

    /** `handleClear`: both lists and the input box are emptied; the store is untouched. */
    method HandleClear()
      modifies this
      ensures messages == [] && aiMessages == [] && input == ""
      ensures store == old(store) && continuations == old(continuations)
    {
      messages := [];
      aiMessages := [];
      input := "";
    }

    /** One iteration of the loop; `threw` when `JSON.parse` throws, and then nothing changed. */
    method ExecuteToolCall(c: ToolCall) returns (threw: bool)
      modifies this
      ensures threw <==> Throws(c)
      ensures threw ==> State() == old(State()) && Step(old(State()), c).None?
      ensures !threw ==> Step(old(State()), c) == Some(State())
    {
      threw := false;
      match KindOf(c.name) {
        case GetKind =>
          match c.args {
            case Malformed =>
              threw := true;
            case Parsed(key, _) =>
              var (shown, result) := GetEntries(c.id, key, store);
              messages := messages + [shown];
              aiMessages := aiMessages + [result];
          }
        case SetKind =>
          match c.args {
            case Malformed =>
              threw := true;
            case Parsed(key, value) =>
              if Truthy(key) && Truthy(value) {
                store := store[key.value := value.value];
              }
              var (shown, result) := SetEntries(c.id, key, value);
              messages := messages + [shown];
              aiMessages := aiMessages + [result];
          }
        case ContinueKind =>
          var (shown, result) := ContinueEntries(c.id);
          messages := messages + [shown];
          aiMessages := aiMessages + [result];
          continuations := continuations + 1;
        case UnknownKind =>
          messages := messages + [UnknownEntry(c.id, c.name)];
      }
    }

    /** `processToolCalls`: the calls in array order, stopping at the first that throws. */
    method ProcessToolCalls(calls: seq<ToolCall>) returns (threw: bool)
      modifies this
      ensures Run(old(State()), calls) == if threw then Threw(State()) else Finished(State())
    {
      threw := false;
      var i := 0;
      while i < |calls|
        invariant 0 <= i <= |calls|
        invariant Run(old(State()), calls[..i]) == Finished(State())
      {
        RunExtend(old(State()), calls, i);
        threw := ExecuteToolCall(calls[i]);
        if threw {
          RunThrewSticks(old(State()), calls, i + 1);
          return;
        }
        i := i + 1;
      }
      assert calls[..i] == calls;
    }

    /** `sendMessage` with the credentials it reads and the completion it awaits as inputs. */
    method SendMessage(apiKey: string, model: string, reply: ApiResponse) returns (threw: bool)
      modifies this
      ensures Send(old(State()), apiKey, model, reply) == if threw then Threw(State()) else Finished(State())
    {
      threw := false;
      if apiKey == "" || model == "" {
        return;
      }
      ghost var before := State();
      if input != "" {
        var user := AiMessage(User, JsText.Trim(input), None, None);
        messages := messages + [UserDisplay(user)];
        aiMessages := aiMessages + [user];
      }
      input := "";
      assert State() == AppendUserInput(before);
      var assistant := AssistantEntry(reply);
      aiMessages := aiMessages + [assistant];
      var shown := AssistantDisplay(assistant, reply.onlyToolCalled);
      messages := if reply.onlyToolCalled then messages + [shown]
                  else messages + [shown, CallingToolsPlaceholder];
      ghost var turn := AppendReply(AppendUserInput(before), reply);
      assert State() == turn;
      if |reply.toolcalls| > 0 {
        assert Send(before, apiKey, model, reply) == Run(turn, reply.toolcalls);
        threw := ProcessToolCalls(reply.toolcalls);
      } else {
        assert Send(before, apiKey, model, reply) == Finished(turn);
      }
    }
  }
}
