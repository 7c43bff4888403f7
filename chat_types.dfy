/** The message and tool-call shapes shared by the chat client and the `/api/rest` route. */
module ChatTypes {
  import opened Wrappers

  datatype Role = System | User | Assistant | Tool

  /** The `arguments` string of a tool call after `JSON.parse`. `Malformed` stands for every
      payload on which `JSON.parse` or the following property access throws; `Parsed` keeps the
      `key` and `value` properties as the text a template string makes of them. A falsy property
      (missing, `null`, `false`, `0`, `""`) fails the chat box's truthiness test exactly as `None`
      or `Some("")` does, and a truthy non-string one (`true`, `1`, an object) is represented by
      its template text, so the JSON type of a stored value is not kept. A truthy value whose
      template text is empty (`[]`, `[""]`) takes the read or write branch in the source, but
      is `Some("")` here and takes the error branch. */
  datatype Args = Parsed(key: Option<string>, value: Option<string>) | Malformed

  /** One entry of a completion's `tool_calls`: its id, `function.name` and parsed `function.arguments`. */
  datatype ToolCall = ToolCall(id: string, name: string, args: Args)

  const SetTool: string := "setLocalStorage"
  const GetTool: string := "getLocalStorage"
  const ContinueTool: string := "continueConversation"
}
