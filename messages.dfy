/** The message and document shapes the LangChain/LangGraph pipeline passes around. */
module Messages {
  import opened Wrappers

  /** `metadata` of a retrieved document. */
  datatype Metadata = Metadata(source: string, id: string)

  /** A LangChain `Document`: the indexed text and its metadata. */
  datatype Document = Document(pageContent: string, metadata: Metadata)

  /** An entry of an AI message's parsed `tool_calls`: the call id, the tool's name and the
      `query` argument of the `retrieve` tool's schema. */
  datatype ToolCall = ToolCall(id: string, name: string, query: string)

  /** The `function` part of an entry of the provider's raw `additional_kwargs.tool_calls`;
      `arguments` is the JSON text of the call's arguments, and may be missing. */
  datatype RawFunction = RawFunction(name: string, arguments: Option<string>)

  /** An entry of the provider's raw `additional_kwargs.tool_calls`; its `function` may be missing. */
  datatype RawToolCall = RawToolCall(fn: Option<RawFunction>)

  /** The four message classes the orchestrator distinguishes with `instanceof`:
      `HumanMessage`, `SystemMessage`, `AIMessage` (with optional `tool_calls` and raw
      provider tool calls) and `ToolMessage` (answering the call `toolCallId`, with the
      tool's raw result kept as `artifact`). */
  datatype Message =
    | Human(content: string)
    | System(content: string)
    | AI(content: string, toolCalls: Option<seq<ToolCall>>, rawToolCalls: Option<seq<RawToolCall>>)
    | Tool(content: string, toolCallId: string, artifact: seq<Document>)

  /** What a chat model returns from `invoke`: the parts of an `AIMessage`. */
  datatype Reply = Reply(content: string, toolCalls: Option<seq<ToolCall>>, rawToolCalls: Option<seq<RawToolCall>>)

  /** The `AIMessage` a model reply is. */
  function AsMessage(r: Reply): (m: Message)
    ensures m.AI? && m.content == r.content && m.toolCalls == r.toolCalls
  {
    AI(r.content, r.toolCalls, r.rawToolCalls)
  }
}
