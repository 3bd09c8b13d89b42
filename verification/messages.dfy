/** Chat messages exchanged with the language model, as the agent and the
    context utilities see them (LangChain's System/Human/AI/Tool messages). */
module Messages {
  import opened Common

  /** A tool call requested by the model: tool name, arguments and the id
      the matching tool message must carry. */
  datatype ToolCallRequest = ToolCallRequest(name: string, args: Args, id: string)

  datatype Message =
    | System(content: string)
    | Human(content: string)
    | Ai(content: string, toolCalls: seq<ToolCallRequest>)
    | Tool(content: string, toolCallId: string)

  /** The tool names of a batch of requested calls. */
  function Names(calls: seq<ToolCallRequest>): (names: seq<string>)
    ensures |names| == |calls|
    ensures forall i :: 0 <= i < |calls| ==> names[i] == calls[i].name
  {
    if calls == [] then [] else Names(calls[..|calls| - 1]) + [calls[|calls| - 1].name]
  }
}
