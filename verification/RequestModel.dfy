/** The canonical chat request that both client and upstream protocols are translated through. */
module RequestModel {
  import opened Outcomes

  /** Tool arguments and schemas are JSON values, compared as such; their text is not modelled. */
  type Json = string

  datatype Part =
    | Text(text: string)
    | Image(url: string, mime: string)
    | ToolUse(id: string, name: string, args: Json)
    | ToolResult(id: string, content: string, isError: bool)
    | Thinking(thought: string)

  datatype Message = Message(role: string, parts: seq<Part>)

  datatype ToolDef = ToolDef(name: string, description: string, schema: Json)

  datatype Mode = Auto | Required | NoTools | Specific | OtherMode(text: string)

  datatype ToolChoice = ToolChoice(mode: Mode, name: string, disableParallel: bool)

  datatype ThinkingConfig = ThinkingConfig(enabled: bool, budget: int)

  datatype Request = Request(
    model: string, system: string, messages: seq<Message>, maxTokens: int, temperature: Option<real>, topP: Option<real>,
    stop: seq<string>, stream: bool, tools: seq<ToolDef>, toolChoice: Option<ToolChoice>, topK: Option<int>,
    thinking: Option<ThinkingConfig>, userId: Option<string>)
}
