/** The message vocabulary shared by the agent modules (packages/agent/src/types.ts). */
module Messages {

  datatype Option<+T> = None | Some(value: T)

  datatype ToolCall = ToolCall(id: string, name: string, arguments: string)

  datatype StopReason = EndTurn | Length | ToolUse | Error | Aborted

  /** Coordinates carried by a compaction marker; None stands for a missing or non-integer number. */
  datatype MarkerDetails = MarkerDetails(startIndex: Option<int>, coveredCount: Option<int>, contextWindow: int)

  datatype CustomType = QueryCompactionMarker | OtherCustom(name: string)

  /** One transcript entry. Timestamps are not modelled. */
  datatype Message =
    | User(content: string)
    | Assistant(text: string, calls: seq<ToolCall>, stop: StopReason, errorMessage: Option<string>)
    | ToolResult(callId: string, toolName: string, output: string, isError: bool)
    | Custom(customType: CustomType, body: Option<string>, display: bool, details: Option<MarkerDetails>)
}

/** Trimming, as String.prototype.trim does it. */
module Whitespace {

  /** White space and line terminators. */
  predicate IsSpace(c: char) {
    || '\t' <= c <= '\r' || c == ' ' || c == '\U{A0}' || c == '\U{1680}' || '\U{2000}' <= c <= '\U{200A}'
    || c == '\U{2028}' || c == '\U{2029}' || c == '\U{202F}' || c == '\U{205F}' || c == '\U{3000}' || c == '\U{FEFF}'
  }

  /** Nothing is left once trimmed. */
  predicate Blank(s: string) {
    forall i :: 0 <= i < |s| ==> IsSpace(s[i])
  }

  function Trim(s: string): (t: string)
    ensures t == "" <==> Blank(s)
    decreases |s|
  {
    if s == "" then ""
    else if IsSpace(s[0]) then Trim(s[1..])
    else if IsSpace(s[|s| - 1]) then Trim(s[..|s| - 1])
    else s
  }
}
