/**
 * The value types of the chat transport (`client/response.py` is not part of this
 * model; its records are taken with the fields the code reads from them).
 */
module Response {
  import opened Common
  import opened Json

  datatype TokenUsage = TokenUsage(promptTokens: nat, completionTokens: nat, totalTokens: nat, cachedTokens: nat)

  const ZeroUsage := TokenUsage(0, 0, 0, 0)

  /** `TokenUsage.__add__`, taken field by field. */
  function AddUsage(a: TokenUsage, b: TokenUsage): (r: TokenUsage)
    ensures r.totalTokens == a.totalTokens + b.totalTokens
  {
    TokenUsage(a.promptTokens + b.promptTokens, a.completionTokens + b.completionTokens,
               a.totalTokens + b.totalTokens, a.cachedTokens + b.cachedTokens)
  }

  /** A complete tool call requested by the model. */
  datatype ToolCall = ToolCall(callId: string, name: string, arguments: Object)

  /** The events the transport yields, one constructor per `StreamEventType` with the fields set for it. */
  datatype StreamEvent =
    | TextDelta(content: string)
    | ToolCallStart(callId: string, name: string)
    | ToolCallDelta(callId: string, deltaName: Option<string>, argumentsDelta: string)
    | ToolCallComplete(call: ToolCall)
    | MessageComplete(text: Option<string>, finishReason: Option<string>, usage: Option<TokenUsage>)
    | StreamError(error: string)
}
