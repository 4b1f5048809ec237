/**
 * The messages of the conversation log threaded through the chat graph of
 * `src/services/chatbot.py`. A message's `type` in the source is one of
 * "human", "system", "ai" and "tool"; an ai message may carry tool calls
 * and a tool message answers one of them.
 */
module ChatMessages {

  /** A request by the model to run the retrieve tool on a query. */
  datatype ToolCall = ToolCall(id: string, query: string)

  datatype Message =
    | HumanMessage(content: string)
    | SystemMessage(content: string)
    | AiMessage(content: string, toolCalls: seq<ToolCall>)
    | ToolMessage(content: string, toolCallId: string)

  /** An ai message that asks for at least one tool run. */
  predicate IsToolRequest(m: Message) { m.AiMessage? && m.toolCalls != [] }

  /** Every message of `ms` is a tool message. */
  predicate AllTool(ms: seq<Message>) { forall i :: 0 <= i < |ms| ==> ms[i].ToolMessage? }

  /** The contents of the messages, in order. */
  function Contents(ms: seq<Message>): seq<string>
  {
    seq(|ms|, i requires 0 <= i < |ms| => ms[i].content)
  }
}
