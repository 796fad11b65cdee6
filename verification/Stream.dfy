/**
 * Upstream NDJSON events (proxy/internal/stream/stream.go): the decoded event
 * record, finish-reason mapping and usage normalisation.  JSON decoding itself
 * is not modelled here; an Event is what a decoded line carries.
 */
module Stream {
  import opened Wrappers
  import opened Commandcode

  /** The event types the proxy distinguishes; every other type is Silent. */
  datatype EventKind =
    | TextDelta | ReasoningDelta
    | ToolCall | ToolInputStart | ToolInputDelta | ToolInputEnd
    | Finish | FinishStep | Abort | Error
    | ProviderMetadata | CacheWriteTokens | Silent

  /** cacheWrite is internal accounting and never shown downstream. */
  datatype Usage = Usage(input: int, output: int, cachedInput: int, reasoning: int, cacheWrite: int)

  /** An optional counter: an invalid count is absent or malformed. */
  datatype TokenCount = TokenCount(value: int, valid: bool)

  /** The OpenAI finish reasons. An absent reason stands for the empty string. */
  datatype Reason = Stop | ToolCalls | Length | ContentFilter

  datatype Marker = PremiumCreditsExhausted | ModelNotInPlan | InsufficientCredits

  datatype Event = Event(
    kind: EventKind,
    text: string,
    id: string,
    toolCallId: string,
    toolName: string,
    input: string,
    inputIsObject: bool,     // the trimmed input starts with '{' and is valid JSON
    finishReason: string,
    rawFinishReason: string,
    usage: Option<Usage>,
    totalUsage: Option<Usage>,
    cacheWriteTokens: TokenCount,
    cost: Option<real>,      // the reported gateway cost, when present and valid
    marker: Option<Marker>,  // the terminal billing/plan marker an error event carries
    apiError: ApiError)      // what APIError extracts from an error event

  /** Unicode White_Space, as unicode.IsSpace. */
  predicate IsSpace(c: char) {
    || '\t' <= c <= '\r' || c == ' ' || c == '\U{0085}' || c == '\U{00A0}' || c == '\U{1680}'
    || '\U{2000}' <= c <= '\U{200A}' || c == '\U{2028}' || c == '\U{2029}' || c == '\U{202F}'
    || c == '\U{205F}' || c == '\U{3000}'
  }

  /** strings.TrimSpace(s) == "" */
  predicate Blank(s: string) {
    forall i :: 0 <= i < |s| ==> IsSpace(s[i])
  }

  function TrimLeft(s: string): string {
    if s != "" && IsSpace(s[0]) then TrimLeft(s[1..]) else s
  }

  function TrimRight(s: string): string {
    if s != "" && IsSpace(s[|s| - 1]) then TrimRight(s[..|s| - 1]) else s
  }

  function TrimSpace(s: string): string {
    TrimRight(TrimLeft(s))
  }

  /** Lower-casing as far as a comparison with ASCII names can tell. */
  function LowerChar(c: char): char {
    if 'A' <= c <= 'Z' then c - 'A' + 'a'
    else if c == '\U{0130}' then 'i'
    else if c == '\U{212A}' then 'k'
    else c
  }

  function ToLower(s: string): string {
    seq(|s|, i requires 0 <= i < |s| => LowerChar(s[i]))
  }

  predicate IsRefusalFinishReason(reason: string) {
    ToLower(TrimSpace(reason)) in ["refusal", "content-filter", "content_filter"]
  }

  function MapFinishReason(reason: string): Option<Reason> {
    if IsRefusalFinishReason(reason) then Some(ContentFilter)
    else if reason in ["tool-calls", "tool_use", "tool_calls"] then Some(ToolCalls)
    else if reason in ["length", "max_tokens"] then Some(Length)
    else if reason in ["stop", "end_turn", ""] then Some(Stop)
    else None
  }

  function OpenAIFinishReason(e: Event): Option<Reason> {
    if IsRefusalFinishReason(e.rawFinishReason) then Some(ContentFilter) else MapFinishReason(e.finishReason)
  }

  datatype OpenAIUsage = OpenAIUsage(prompt: int, completion: int, total: int, cached: int, reasoning: int)

  /** Zero output tokens zero every counter. */
  function UsageFromUpstream(u: Option<Usage>): OpenAIUsage {
    match u
    case None => OpenAIUsage(0, 0, 0, 0, 0)
    case Some(u) =>
      var zero := u.output == 0;
      var input := if zero then 0 else u.input;
      OpenAIUsage(input, u.output, input + u.output,
                  if zero then 0 else u.cachedInput, if zero then 0 else u.reasoning)
  }
}
