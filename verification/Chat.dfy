/**
 * The two chat handlers of proxy/internal/server/chat.go: serveStream relays an
 * upstream event stream as SSE, serveNonStream aggregates it into one message.
 * Both share the StreamState bookkeeping.  Every method below is proved against
 * the value-level functions at the top of the module; the theorems about those
 * functions are in ChatTheorems.
 */
module Chat {
  import opened Wrappers
  import opened Commandcode
  import opened Stream
  import Reader

  /** Why a response fails. A fault determines the error status and body. */
  datatype Fault =
    | TerminalMarker(marker: Marker)
    | Upstream(error: ApiError)
    | ContinuedAfterFinish
    | Aborted
    | InvalidFinishReason
    | ConflictingFinish
    | EndedWithPendingTool
    | IncompleteToolCall
    | NoCompleteToolCall
    | NoOutput
    | Truncated
    | MalformedEvent
    | IdleTimeout
    | NetworkTimeout
    | ConnectionInterrupted
    | EmptyResponse

  datatype ToolCallRecord = ToolCallRecord(id: string, name: string, arguments: string)

  datatype State = State(
    fullText: string,
    reasoning: string,
    toolCalls: seq<ToolCallRecord>,
    toolCallIdx: nat,
    finishReason: Option<Reason>,
    usage: Option<Usage>,
    costUSD: real,
    costReported: bool,
    chunkCount: nat,
    terminalSeen: bool,
    hasText: bool,
    hasTool: bool,
    pendingTools: set<string>,
    captured: TokenCount)

  const InitialState := State("", "", [], 0, None, None, 0.0, false, 0, false, false, false, {}, TokenCount(0, false))

  /** How reading the upstream body ends: clean EOF or a read error. */
  datatype ReadError = Malformed | Idle | Timeout | Connection

  datatype Ending = Eof | ReadFailed(error: ReadError)

  /** The reader's terminal error as the handlers see it; kind tells the causes of a broken body apart. */
  function EndingOf(e: Reader.Error, kind: int -> ReadError): Ending {
    match e
    case Malformed => ReadFailed(Malformed)
    case Ended(Eof) => Eof
    case Ended(Broken(cause)) => ReadFailed(kind(cause))
  }

  /**
   * Whether the downstream client is gone when a failure is about to be written.
   * A malformed event is checked twice, and the client can leave in between.
   */
  datatype Client = Client(goneAtFailure: bool, goneAtRecheck: bool)

  datatype Payload =
    | Content(text: string)
    | Reasoning(text: string)
    | Tool(index: nat, call: ToolCallRecord)

  /** What a handler writes downstream; the fault behind an error is not itself written. */
  datatype Frame =
    | Delta(role: bool, payload: Payload)
    | FinishChunk(reason: Option<Reason>, usage: OpenAIUsage)
    | ErrorFrame(fault: Fault, body: ErrorBody)
    | Done
    | JsonError(fault: Fault, response: ErrorResponse)
    | Completion(message: Message, reason: Option<Reason>, usage: OpenAIUsage)

  /** The aggregated assistant message; absent fields are null or omitted. */
  datatype Message = Message(content: Option<string>, reasoning: Option<string>, toolCalls: seq<ToolCallRecord>)

  // ---------------------------------------------------------------- error bodies

  datatype ErrorBody = ErrorBody(message: string, typ: string, code: string)

  datatype ErrorResponse = ErrorResponse(status: int, body: ErrorBody, retryAfter: nat)

  function TerminalErrorStatus(m: Marker): ErrorResponse {
    match m
    case PremiumCreditsExhausted =>
      ErrorResponse(402,
                    ErrorBody("Premium model quota exhausted on the upstream account. "
                              + "Switch to a standard model or top up credits.", "billing_error", ""), 0)
    case ModelNotInPlan =>
      ErrorResponse(403,
                    ErrorBody("The requested model is not included in the upstream account's plan.",
                              "plan_error", ""), 0)
    case InsufficientCredits =>
      ErrorResponse(402, ErrorBody("Upstream account has insufficient credits.", "billing_error", ""), 0)
  }

  function ClassifyUpstreamError(e: ApiError): ErrorResponse {
    if e.requestTooLarge then
      ErrorResponse(413,
                    ErrorBody("Upstream request exceeds the size limit; reduce the request size or image sizes.",
                              "invalid_request_error", "upstream_request_too_large"), 0)
    else if e.zdrUnavailable then
      ErrorResponse(403, ErrorBody(e.message, "zdr_error", "CMD_ZDR_NO_PROVIDERS"), 0)
    else if e.spendCapExceeded then
      ErrorResponse(403, ErrorBody(e.message, "spend_limit_error", "USAGE_EXCEEDED"), 0)
    else if e.insufficientCredits then
      ErrorResponse(402, ErrorBody("Upstream account has insufficient credits: " + e.message, "billing_error", ""), 0)
    else if e.rateLimited then
      ErrorResponse(429, ErrorBody("Upstream rate limit: " + e.message, "rate_limit_error", ""), 10)
    else if e.modelNotInPlan then
      ErrorResponse(403,
                    ErrorBody("The requested model is not included in the upstream account's plan: " + e.message,
                              "plan_error", ""), 0)
    else if e.modelNotRecognized then
      ErrorResponse(404,
                    ErrorBody("Upstream does not recognize the model: " + e.message, "invalid_request_error", ""), 0)
    else if e.status == 401 || e.status == 403 then
      ErrorResponse(502, ErrorBody("Upstream rejected the CC API key: " + e.message, "upstream_auth_error", ""), 0)
    else if 500 <= e.status <= 599 then
      ErrorResponse(e.status, ErrorBody("Upstream server error: " + e.message, "server_error", ""), 10)
    else
      ErrorResponse(502, ErrorBody("Upstream error: " + e.message, "upstream_error", ""), 0)
  }

  function ServerError(status: int, message: string, code: string): ErrorResponse {
    ErrorResponse(status, ErrorBody(message, "server_error", code), 0)
  }

  /** The status, body and Retry-After header a fault is reported with. */
  function Respond(f: Fault): ErrorResponse {
    match f
    case TerminalMarker(m) => TerminalErrorStatus(m)
    case Upstream(e) => ClassifyUpstreamError(e)
    case ContinuedAfterFinish =>
      ServerError(502, "Upstream response continued after its finish event", "upstream_invalid_sequence")
    case Aborted => ServerError(502, "Upstream response was aborted before completion", "upstream_aborted")
    case InvalidFinishReason =>
      ServerError(502, "Upstream response has an invalid finish reason", "upstream_invalid_finish")
    case ConflictingFinish =>
      ServerError(502, "Upstream response has conflicting finish events", "upstream_invalid_finish")
    case EndedWithPendingTool =>
      ServerError(502, "Upstream response ended with an incomplete tool call", "upstream_invalid_tool_call")
    case IncompleteToolCall =>
      ServerError(502, "Upstream response contains an incomplete tool call", "upstream_invalid_tool_call")
    case NoCompleteToolCall =>
      ServerError(502, "Upstream response ended without a complete tool call", "upstream_invalid_tool_call")
    case NoOutput =>
      ServerError(502, "Upstream response ended without text or a complete tool call", "upstream_incomplete_response")
    case Truncated =>
      ServerError(502, "Upstream response was truncated before completion (no finish event)", "upstream_truncated")
    case MalformedEvent =>
      ServerError(502, "Upstream response contains a malformed protocol event", "upstream_malformed_event")
    case IdleTimeout =>
      ServerError(504, "Upstream response idle timeout while waiting for data", "upstream_idle_timeout")
    case NetworkTimeout => ServerError(504, "Upstream request timed out", "upstream_timeout")
    case ConnectionInterrupted =>
      ServerError(502, "Upstream response connection interrupted", "upstream_connection_error")
    case EmptyResponse =>
      ErrorResponse(429, ErrorBody("Empty response from upstream (zero output tokens)", "rate_limit_error", ""), 10)
  }

  // ---------------------------------------------------------------- one event

  /** Events that carry visible or tool output; none may follow a finish. */
  predicate IsOutput(k: EventKind) {
    k.TextDelta? || k.ReasoningDelta? || k.ToolCall? || IsToolInput(k)
  }

  predicate IsToolInput(k: EventKind) {
    k.ToolInputStart? || k.ToolInputDelta? || k.ToolInputEnd?
  }

  /** The event names its own finish reason rather than inheriting one. */
  predicate Explicit(ev: Event) {
    ev.finishReason != "" || OpenAIFinishReason(ev) == Some(ContentFilter)
  }

  predicate CompleteToolCall(ev: Event) {
    !Blank(ev.toolCallId) && !Blank(ev.toolName) && ev.inputIsObject
  }

  function ToolCallArgs(input: string): string {
    if |input| > 0 then input else "{}"
  }

  function CallOf(ev: Event): ToolCallRecord {
    ToolCallRecord(ev.toolCallId, ev.toolName, ToolCallArgs(ev.input))
  }

  /** protocolFailure: the fault this event raises in this state, if any. */
  function ProtocolFault(st: State, ev: Event): Option<Fault> {
    if st.terminalSeen && IsOutput(ev.kind) then Some(ContinuedAfterFinish)
    else if ev.kind.Abort? then Some(Aborted)
    else if ev.kind.Finish? || ev.kind.FinishStep? then
      if OpenAIFinishReason(ev).None? then Some(InvalidFinishReason)
      else if ev.kind.Finish? && st.pendingTools != {} then Some(EndedWithPendingTool)
      else if ev.kind.Finish? && st.terminalSeen && Explicit(ev) && OpenAIFinishReason(ev) != st.finishReason then
        Some(ConflictingFinish)
      else None
    else if IsToolInput(ev.kind) then
      if Blank(ev.id) then Some(IncompleteToolCall) else None
    else if ev.kind.ToolCall? then
      if CompleteToolCall(ev) then None else Some(IncompleteToolCall)
    else None
  }

  /** protocolFailure's bookkeeping of announced but unfinished tool calls. */
  function TrackTools(st: State, ev: Event): State {
    if IsToolInput(ev.kind) then st.(pendingTools := st.pendingTools + {ev.id})
    else if ev.kind.ToolCall? then st.(pendingTools := st.pendingTools - {ev.toolCallId})
    else st
  }

  predicate ReportsCost(ev: Event) {
    (ev.kind.FinishStep? || ev.kind.ProviderMetadata?) && ev.cost.Some?
  }

  function ReasonAfter(st: State, ev: Event): Option<Reason> {
    if ev.kind.FinishStep? && !st.terminalSeen && Explicit(ev) then OpenAIFinishReason(ev)
    else if ev.kind.Finish? && (Explicit(ev) || st.finishReason.None?) then OpenAIFinishReason(ev)
    else st.finishReason
  }

  function UsageAfter(st: State, ev: Event): Option<Usage> {
    if ev.kind.FinishStep? && ev.usage.Some? then ev.usage
    else if ev.kind.Finish? && ev.totalUsage.Some? then ev.totalUsage
    else st.usage
  }

  /** absorb, field by field: usage, finish reason and cost bookkeeping. */
  function AbsorbEvent(st: State, ev: Event): State {
    st.(finishReason := ReasonAfter(st, ev),
        usage := UsageAfter(st, ev),
        terminalSeen := st.terminalSeen || ev.kind.Finish?,
        captured := if ev.kind.CacheWriteTokens? && ev.cacheWriteTokens.valid then ev.cacheWriteTokens else st.captured,
        costReported := st.costReported || ReportsCost(ev),
        costUSD := if ReportsCost(ev) && ev.cost.value > 0.0 then ev.cost.value else st.costUSD)
  }

  /** The in-band error event, else the protocol fault, that stops the response. */
  function Rejects(st: State, ev: Event): Option<Fault> {
    if ev.kind.Error? then
      if ev.marker.Some? then Some(TerminalMarker(ev.marker.value)) else Some(Upstream(ev.apiError))
    else ProtocolFault(st, ev)
  }

  function CompletionFault(st: State): Option<Fault> {
    if st.pendingTools != {} then Some(EndedWithPendingTool)
    else if st.finishReason == Some(ToolCalls) && !st.hasTool then Some(NoCompleteToolCall)
    else if !st.hasText && !st.hasTool && st.finishReason != Some(Length) && st.finishReason != Some(ContentFilter) then
      Some(NoOutput)
    else None
  }

  /** finalizeUsage: a captured cache-write count only fills a zero total. */
  function Finalized(st: State): State {
    if !st.captured.valid then st
    else
      var u := if st.usage.None? then Usage(0, 0, 0, 0, 0) else st.usage.value;
      st.(usage := Some(if u.cacheWrite == 0 then u.(cacheWrite := st.captured.value) else u))
  }

  function UsageOut(u: Option<Usage>): int {
    if u.None? then 0 else u.value.output
  }

  // ---------------------------------------------------------------- failures

  function ReadFault(e: ReadError): Fault {
    match e
    case Malformed => MalformedEvent
    case Idle => IdleTimeout
    case Timeout => NetworkTimeout
    case Connection => ConnectionInterrupted
  }

  /** The error chunk carries the body a JSON error would have. */
  function SseFailure(f: Fault): (frame: Frame)
    ensures frame.ErrorFrame? && frame.fault == f
  {
    ErrorFrame(f, Respond(f).body)
  }

  function JsonFailure(f: Fault): (frame: Frame)
    ensures frame.JsonError? && frame.fault == f
  {
    JsonError(f, Respond(f))
  }

  /** A failure before any chunk is a JSON error; later it is an SSE error and DONE. */
  function FailureFrames(started: bool, f: Fault): seq<Frame> {
    if started then [SseFailure(f), Done] else [JsonFailure(f)]
  }

  /** A failure found by the proxy is not written to a client that has gone. */
  function LocalFailure(started: bool, f: Fault, gone: bool): seq<Frame> {
    if gone then [] else FailureFrames(started, f)
  }

  function ReadFailure(started: bool, e: ReadError, client: Client): seq<Frame> {
    if client.goneAtFailure then []
    else if e.Malformed? then LocalFailure(started, MalformedEvent, client.goneAtRecheck)
    else FailureFrames(started, ReadFault(e))
  }

  /** In-band error events are written even when the client has gone. */
  function RejectionFrames(started: bool, f: Fault, client: Client): seq<Frame> {
    if f.TerminalMarker? || f.Upstream? then FailureFrames(started, f)
    else LocalFailure(started, f, client.goneAtFailure)
  }

  // ---------------------------------------------------------------- whole responses

  /** A handler's progress over a prefix of the events. */
  datatype Progress = Running(st: State) | Stopped(st: State, fault: Fault)

  /** The frame the streaming handler writes for an accepted event, if any. */
  function RelayFrame(st: State, ev: Event): seq<Frame> {
    match ev.kind
    case TextDelta => if ev.text == "" then [] else [Delta(st.chunkCount == 0, Content(ev.text))]
    case ReasoningDelta => if ev.text == "" then [] else [Delta(st.chunkCount == 0, Reasoning(ev.text))]
    case ToolCall => [Delta(st.chunkCount == 0, Tool(st.toolCallIdx, CallOf(ev)))]
    case _ => []
  }

  function RelayState(st: State, ev: Event): State {
    AbsorbEvent(st, ev).(
      hasText := st.hasText || (ev.kind.TextDelta? && !Blank(ev.text)),
      hasTool := st.hasTool || ev.kind.ToolCall?,
      toolCallIdx := st.toolCallIdx + (if ev.kind.ToolCall? then 1 else 0),
      chunkCount := st.chunkCount + |RelayFrame(st, ev)|)
  }

  function CollectState(st: State, ev: Event): State {
    AbsorbEvent(st, ev).(
      hasText := st.hasText || (ev.kind.TextDelta? && !Blank(ev.text)),
      hasTool := st.hasTool || ev.kind.ToolCall?,
      fullText := if ev.kind.TextDelta? then st.fullText + ev.text else st.fullText,
      reasoning := if ev.kind.ReasoningDelta? then st.reasoning + ev.text else st.reasoning,
      toolCalls := if ev.kind.ToolCall? then st.toolCalls + [CallOf(ev)] else st.toolCalls)
  }

  function RelayEvent(p: Progress, out: seq<Frame>, ev: Event): (Progress, seq<Frame>) {
    if p.Stopped? then (p, out)
    else if Rejects(p.st, ev).Some? then (Stopped(p.st, Rejects(p.st, ev).value), out)
    else
      var st := TrackTools(p.st, ev);
      (Running(RelayState(st, ev)), out + RelayFrame(st, ev))
  }

  function CollectEvent(p: Progress, ev: Event): Progress {
    if p.Stopped? then p
    else if Rejects(p.st, ev).Some? then Stopped(p.st, Rejects(p.st, ev).value)
    else Running(CollectState(TrackTools(p.st, ev), ev))
  }

  /** The streaming handler over the events: its state, and what it has written. */
  function Relay(evs: seq<Event>): (Progress, seq<Frame>) {
    if evs == [] then (Running(InitialState), [])
    else
      var (p, out) := Relay(evs[..|evs| - 1]);
      RelayEvent(p, out, evs[|evs| - 1])
  }

  /** The aggregating handler over the events. */
  function Collect(evs: seq<Event>): Progress {
    if evs == [] then Running(InitialState) else CollectEvent(Collect(evs[..|evs| - 1]), evs[|evs| - 1])
  }

  /** What follows the deltas of a streamed response. */
  function RelayTail(p: Progress, started: bool, ending: Ending, client: Client): seq<Frame> {
    if p.Stopped? then RejectionFrames(started, p.fault, client)
    else if ending.ReadFailed? then ReadFailure(started, ending.error, client)
    else if !p.st.terminalSeen then LocalFailure(started, Truncated, client.goneAtFailure)
    else
      var st := Finalized(p.st);
      var f := CompletionFault(st);
      if f.Some? then LocalFailure(started, f.value, client.goneAtFailure)
      else [FinishChunk(st.finishReason, UsageFromUpstream(st.usage)), Done]
  }

  /** serveStream's complete output. */
  function Streamed(evs: seq<Event>, ending: Ending, client: Client): seq<Frame> {
    var (p, out) := Relay(evs);
    out + RelayTail(p, out != [], ending, client)
  }

  function MessageOf(st: State): Message {
    Message(if |st.fullText| > 0 then Some(st.fullText) else None,
            if |st.reasoning| > 0 then Some(st.reasoning) else None,
            st.toolCalls)
  }

  /** What the aggregating handler writes once it has stopped reading. */
  function CollectTail(p: Progress, ending: Ending, client: Client): seq<Frame> {
    if p.Stopped? then RejectionFrames(false, p.fault, client)
    else if ending.ReadFailed? then ReadFailure(false, ending.error, client)
    else if !p.st.terminalSeen then LocalFailure(false, Truncated, client.goneAtFailure)
    else
      var st := Finalized(p.st);
      var f := CompletionFault(st);
      if f.Some? then LocalFailure(false, f.value, client.goneAtFailure)
      else if UsageOut(st.usage) == 0 && st.finishReason != Some(Length) && st.finishReason != Some(ContentFilter) then
        [JsonFailure(EmptyResponse)]
      else [Completion(MessageOf(st), st.finishReason, UsageFromUpstream(st.usage))]
  }

  /** serveNonStream's complete output. */
  function Aggregated(evs: seq<Event>, ending: Ending, client: Client): seq<Frame> {
    CollectTail(Collect(evs), ending, client)
  }

  // ---------------------------------------------------------------- the imperative handlers

  /** The bookkeeping record both handlers update event by event. */
  class StreamState {
    var fullText: string
    var reasoning: string
    var toolCalls: seq<ToolCallRecord>
    var toolCallIdx: nat
    var finishReason: Option<Reason>
    var usage: Option<Usage>
    var costUSD: real
    var costReported: bool
    var chunkCount: nat
    var terminalSeen: bool
    var hasText: bool
    var hasTool: bool
    var pendingTools: set<string>
    var captured: TokenCount

    ghost function View(): State
      reads this
    {
      State(fullText, reasoning, toolCalls, toolCallIdx, finishReason, usage, costUSD, costReported,
            chunkCount, terminalSeen, hasText, hasTool, pendingTools, captured)
    }

    constructor ()
      ensures View() == InitialState
    {
      fullText, reasoning, toolCalls, toolCallIdx := "", "", [], 0;
      finishReason, usage, costUSD, costReported := None, None, 0.0, false;
      chunkCount, terminalSeen, hasText, hasTool := 0, false, false, false;
      pendingTools, captured := {}, TokenCount(0, false);
    }

    method AbsorbCost(ev: Event)
      modifies this`costUSD, this`costReported
      ensures costReported == (old(costReported) || ev.cost.Some?)
      ensures costUSD == if ev.cost.Some? && ev.cost.value > 0.0 then ev.cost.value else old(costUSD)
    {
      if ev.cost.Some? {
        costReported := true;
        if ev.cost.value > 0.0 {
          costUSD := ev.cost.value;
        }
      }
    }

    method Absorb(ev: Event)
      modifies this`finishReason, this`usage, this`costUSD, this`costReported, this`terminalSeen, this`captured
      ensures View() == AbsorbEvent(old(View()), ev)
    {
      if ev.kind.FinishStep? {
        AbsorbFinishStep(ev);
      } else if ev.kind.Finish? {
        AbsorbFinish(ev);
      } else if ev.kind.ProviderMetadata? {
        AbsorbCost(ev);
      } else if ev.kind.CacheWriteTokens? && ev.cacheWriteTokens.valid {
        captured := ev.cacheWriteTokens;
      }
    }

    method AbsorbFinishStep(ev: Event)
      requires ev.kind.FinishStep?
      modifies this`finishReason, this`usage, this`costUSD, this`costReported
      ensures View() == AbsorbEvent(old(View()), ev)
    {
      var reason := OpenAIFinishReason(ev);
      if !terminalSeen && (ev.finishReason != "" || reason == Some(ContentFilter)) {
        finishReason := reason;
      }
      if ev.usage.Some? {
        usage := ev.usage;
      }
      AbsorbCost(ev);
    }

    method AbsorbFinish(ev: Event)
      requires ev.kind.Finish?
      modifies this`terminalSeen, this`finishReason, this`usage
      ensures View() == AbsorbEvent(old(View()), ev)
    {
      var reason := OpenAIFinishReason(ev);
      terminalSeen := true;
      if ev.finishReason != "" || reason == Some(ContentFilter) || finishReason.None? {
        finishReason := reason;
      }
      if ev.totalUsage.Some? {
        usage := ev.totalUsage;
      }
    }

    /** Rejects an event, or records its effect on the announced tool calls. */
    method ProtocolFailure(ev: Event) returns (fault: Option<Fault>)
      modifies this`pendingTools
      ensures fault == ProtocolFault(old(View()), ev)
      ensures View() == if fault.None? then TrackTools(old(View()), ev) else old(View())
    {
      if terminalSeen && IsOutput(ev.kind) {
        return Some(ContinuedAfterFinish);
      }
      match ev.kind {
        case Abort =>
          return Some(Aborted);
        case Finish | FinishStep =>
          var reason := OpenAIFinishReason(ev);
          if reason.None? {
            return Some(InvalidFinishReason);
          }
          if ev.kind.Finish? {
            if |pendingTools| != 0 {
              return Some(EndedWithPendingTool);
            }
            if terminalSeen && (ev.finishReason != "" || reason == Some(ContentFilter)) && reason != finishReason {
              return Some(ConflictingFinish);
            }
          }
        case ToolInputStart | ToolInputDelta | ToolInputEnd =>
          if Blank(ev.id) {
            return Some(IncompleteToolCall);
          }
          pendingTools := pendingTools + {ev.id};
        case ToolCall =>
          if Blank(ev.toolCallId) || Blank(ev.toolName) || !ev.inputIsObject {
            return Some(IncompleteToolCall);
          }
          pendingTools := pendingTools - {ev.toolCallId};
        case _ =>
      }
      return None;
    }

    method CompletionFailure() returns (fault: Option<Fault>)
      ensures fault == CompletionFault(View())
    {
      if |pendingTools| != 0 {
        return Some(EndedWithPendingTool);
      }
      if finishReason == Some(ToolCalls) && !hasTool {
        return Some(NoCompleteToolCall);
      }
      if !hasText && !hasTool && finishReason != Some(Length) && finishReason != Some(ContentFilter) {
        return Some(NoOutput);
      }
      return None;
    }

    method FinalizeUsage()
      modifies this`usage
      ensures View() == Finalized(old(View()))
    {
      if !captured.valid {
        return;
      }
      if usage.None? {
        usage := Some(Usage(0, 0, 0, 0, 0));
      }
      if usage.value.cacheWrite == 0 {
        usage := Some(usage.value.(cacheWrite := captured.value));
      }
    }
  }

  /** The downstream connection: the frames written so far. */
  class ResponseWriter {
    var frames: seq<Frame>

    constructor ()
      ensures frames == []
    {
      frames := [];
    }

    method Write(f: Frame)
      modifies this
      ensures frames == old(frames) + [f]
    {
      frames := frames + [f];
    }

    method WriteFailure(started: bool, f: Fault)
      modifies this
      ensures frames == old(frames) + FailureFrames(started, f)
    {
      hide Respond;
      if !started {
        Write(JsonError(f, Respond(f)));
        return;
      }
      Write(ErrorFrame(f, Respond(f).body));
      Write(Done);
    }

    method HandleProtocolFailure(started: bool, f: Fault, gone: bool)
      modifies this
      ensures frames == old(frames) + LocalFailure(started, f, gone)
    {
      if gone {
        return;
      }
      WriteFailure(started, f);
    }

    method HandleStreamReadError(started: bool, e: ReadError, client: Client)
      modifies this
      ensures frames == old(frames) + ReadFailure(started, e, client)
    {
      if client.goneAtFailure {
        return;
      }
      if e.Malformed? {
        HandleProtocolFailure(started, MalformedEvent, client.goneAtRecheck);
        return;
      }
      var fault := ConnectionInterrupted;
      match e {
        case Idle => fault := IdleTimeout;
        case Timeout => fault := NetworkTimeout;
        case _ =>
      }
      WriteFailure(started, fault);
    }
  }

  lemma OneMore(evs: seq<Event>, i: nat)
    requires i < |evs|
    ensures Relay(evs[..i + 1]) == RelayEvent(Relay(evs[..i]).0, Relay(evs[..i]).1, evs[i])
    ensures Collect(evs[..i + 1]) == CollectEvent(Collect(evs[..i]), evs[i])
  {
    assert evs[..i + 1][..i] == evs[..i];
  }

  /** A stopped prefix stops the whole stream with the same output. */
  lemma {:induction false} RelayStopped(evs: seq<Event>, i: nat)
    requires i <= |evs| && Relay(evs[..i]).0.Stopped?
    ensures Relay(evs) == Relay(evs[..i])
    decreases |evs|
  {
    if i == |evs| {
      assert evs[..i] == evs;
    } else {
      assert evs[..|evs| - 1][..i] == evs[..i];
      RelayStopped(evs[..|evs| - 1], i);
    }
  }

  lemma {:induction false} CollectStopped(evs: seq<Event>, i: nat)
    requires i <= |evs| && Collect(evs[..i]).Stopped?
    ensures Collect(evs) == Collect(evs[..i])
    decreases |evs|
  {
    if i == |evs| {
      assert evs[..i] == evs;
    } else {
      assert evs[..|evs| - 1][..i] == evs[..i];
      CollectStopped(evs[..|evs| - 1], i);
    }
  }

  /** The streaming handler's switch over one accepted event. */
  method RelayOne(w: ResponseWriter, st: StreamState, ev: Event, started: bool) returns (nowStarted: bool)
    modifies w, st
    ensures st.View() == RelayState(old(st.View()), ev)
    ensures w.frames == old(w.frames) + RelayFrame(old(st.View()), ev)
    ensures nowStarted == (started || RelayFrame(old(st.View()), ev) != [])
  {
    nowStarted := started;
    if ev.kind.TextDelta? || ev.kind.ReasoningDelta? || ev.kind.ToolCall? {
      nowStarted := RelayVisible(w, st, ev, started);
    } else {
      st.Absorb(ev);
    }
  }

  method RelayVisible(w: ResponseWriter, st: StreamState, ev: Event, started: bool) returns (nowStarted: bool)
    requires ev.kind.TextDelta? || ev.kind.ReasoningDelta? || ev.kind.ToolCall?
    modifies w, st
    ensures st.View() == RelayState(old(st.View()), ev)
    ensures w.frames == old(w.frames) + RelayFrame(old(st.View()), ev)
    ensures nowStarted == (started || RelayFrame(old(st.View()), ev) != [])
  {
    if !ev.kind.ToolCall? && ev.text == "" {
      return started;
    }
    var payload;
    if ev.kind.TextDelta? {
      st.hasText := st.hasText || !Blank(ev.text);
      payload := Content(ev.text);
    } else if ev.kind.ReasoningDelta? {
      payload := Reasoning(ev.text);
    } else {
      st.hasTool := true;
      payload := Tool(st.toolCallIdx, CallOf(ev));
      st.toolCallIdx := st.toolCallIdx + 1;
    }
    w.Write(Delta(st.chunkCount == 0, payload));
    st.chunkCount := st.chunkCount + 1;
    return true;
  }

  /** The aggregating handler's switch over one accepted event. */
  method CollectOne(st: StreamState, ev: Event)
    modifies st
    ensures st.View() == CollectState(old(st.View()), ev)
  {
    if ev.kind.TextDelta? || ev.kind.ReasoningDelta? || ev.kind.ToolCall? {
      CollectVisible(st, ev);
    } else {
      st.Absorb(ev);
    }
  }

  method CollectVisible(st: StreamState, ev: Event)
    requires ev.kind.TextDelta? || ev.kind.ReasoningDelta? || ev.kind.ToolCall?
    modifies st
    ensures st.View() == CollectState(old(st.View()), ev)
  {
    match ev.kind {
      case TextDelta =>
        st.hasText := st.hasText || !Blank(ev.text);
        st.fullText := st.fullText + ev.text;
      case ReasoningDelta =>
        st.reasoning := st.reasoning + ev.text;
      case ToolCall =>
        st.hasTool := true;
        st.toolCalls := st.toolCalls + [CallOf(ev)];
      case _ =>
    }
  }

  /** The in-band error check and protocolFailure, in the handlers' order. */
  method Screen(w: ResponseWriter, st: StreamState, ev: Event, started: bool, client: Client) returns (stop: bool)
    modifies w, st`pendingTools
    ensures stop == Rejects(old(st.View()), ev).Some?
    ensures st.View() == if stop then old(st.View()) else TrackTools(old(st.View()), ev)
    ensures w.frames == old(w.frames) +
                        if stop then RejectionFrames(started, Rejects(old(st.View()), ev).value, client) else []
  {
    if ev.kind.Error? {
      w.WriteFailure(started, if ev.marker.Some? then TerminalMarker(ev.marker.value) else Upstream(ev.apiError));
      return true;
    }
    var fault := st.ProtocolFailure(ev);
    if fault.Some? {
      w.HandleProtocolFailure(started, fault.value, client.goneAtFailure);
      return true;
    }
    return false;
  }

  /** The part of the streaming handler after its event loop. */
  method FinishStream(w: ResponseWriter, st: StreamState, started: bool, ending: Ending, client: Client)
    modifies w, st
    ensures w.frames == old(w.frames) + RelayTail(Running(old(st.View())), started, ending, client)
  {
    if ending.ReadFailed? {
      w.HandleStreamReadError(started, ending.error, client);
      return;
    }
    if !st.terminalSeen {
      w.HandleProtocolFailure(started, Truncated, client.goneAtFailure);
      return;
    }
    st.FinalizeUsage();
    var incomplete := st.CompletionFailure();
    if incomplete.Some? {
      w.HandleProtocolFailure(started, incomplete.value, client.goneAtFailure);
      return;
    }
    w.Write(FinishChunk(st.finishReason, UsageFromUpstream(st.usage)));
    w.Write(Done);
  }

  lemma RelayAccepts(evs: seq<Event>, i: nat, st: State, out: seq<Frame>)
    requires i < |evs| && Relay(evs[..i]) == (Running(st), out) && Rejects(st, evs[i]).None?
    ensures var tracked := TrackTools(st, evs[i]);
            Relay(evs[..i + 1]) == (Running(RelayState(tracked, evs[i])), out + RelayFrame(tracked, evs[i]))
  {
    OneMore(evs, i);
  }

  lemma RelayRejects(evs: seq<Event>, i: nat, st: State, out: seq<Frame>, ending: Ending, client: Client)
    requires i < |evs| && Relay(evs[..i]) == (Running(st), out) && Rejects(st, evs[i]).Some?
    ensures Streamed(evs, ending, client) == out + RejectionFrames(out != [], Rejects(st, evs[i]).value, client)
  {
    OneMore(evs, i);
    RelayStopped(evs, i + 1);
  }

  /** The next event is the i-th: what is left shrinks by it, and the prefix read grows. */
  lemma NextEvent(evs: seq<Event>, i: nat)
    requires i <= |evs|
    ensures evs[i..] == [] <==> i == |evs|
    ensures i < |evs| ==> evs[i..][0] == evs[i] && evs[i..][1..] == evs[i + 1..]
    ensures i == |evs| ==> evs[..i] == evs
  {
  }

  lemma NothingRead(evs: seq<Event>)
    ensures Relay(evs[..0]) == (Running(InitialState), []) && Collect(evs[..0]) == Running(InitialState)
  {
  }

  lemma AllRelayed(evs: seq<Event>, st: State, out: seq<Frame>, ending: Ending, client: Client)
    requires Relay(evs) == (Running(st), out)
    ensures Streamed(evs, ending, client) == out + RelayTail(Running(st), out != [], ending, client)
  {
  }

  method ServeStream(w: ResponseWriter, reader: Reader.EventReader, kind: int -> ReadError, client: Client)
    requires w.frames == []
    modifies w, reader`err, reader.br`unread
    ensures var (evs, error) := old(reader.Remaining());
            w.frames == Streamed(evs, EndingOf(error, kind), client)
  {
    ghost var (evs, error) := reader.Remaining();
    ghost var i := 0;
    var st := new StreamState();
    var started := false;
    NothingRead(evs);
    hide Reader.Rest, Relay, Streamed, RelayState, RelayFrame, RelayTail, RejectionFrames,
         TrackTools, Rejects, EndingOf;
    while true
      invariant 0 <= i <= |evs| && reader.Remaining() == (evs[i..], error)
      invariant Relay(evs[..i]) == (Running(st.View()), w.frames)
      invariant started <==> w.frames != []
      invariant fresh(st)
      decreases |evs| - i
    {
      NextEvent(evs, i);
      var item := reader.Next();
      if item.Failure? {
        AllRelayed(evs, st.View(), w.frames, EndingOf(error, kind), client);
        FinishStream(w, st, started, EndingOf(item.error, kind), client);
        return;
      }
      ghost var before, written := st.View(), w.frames;
      var stop := Screen(w, st, item.event, started, client);
      if stop {
        RelayRejects(evs, i, before, written, EndingOf(error, kind), client);
        return;
      }
      RelayAccepts(evs, i, before, written);
      ghost var tracked := st.View();
      assert tracked == TrackTools(before, item.event) && w.frames == written;
      started := RelayOne(w, st, item.event, started);
      assert st.View() == RelayState(tracked, item.event);
      assert w.frames == written + RelayFrame(tracked, item.event);
      assert Relay(evs[..i + 1]) == (Running(st.View()), w.frames);
      i := i + 1;
    }
  }

  lemma CollectAccepts(evs: seq<Event>, i: nat, st: State)
    requires i < |evs| && Collect(evs[..i]) == Running(st) && Rejects(st, evs[i]).None?
    ensures Collect(evs[..i + 1]) == Running(CollectState(TrackTools(st, evs[i]), evs[i]))
  {
    OneMore(evs, i);
  }

  lemma CollectRejects(evs: seq<Event>, i: nat, st: State, ending: Ending, client: Client)
    requires i < |evs| && Collect(evs[..i]) == Running(st) && Rejects(st, evs[i]).Some?
    ensures Aggregated(evs, ending, client) == RejectionFrames(false, Rejects(st, evs[i]).value, client)
  {
    OneMore(evs, i);
    CollectStopped(evs, i + 1);
  }

  method ServeNonStream(w: ResponseWriter, reader: Reader.EventReader, kind: int -> ReadError, client: Client)
    requires w.frames == []
    modifies w, reader`err, reader.br`unread
    ensures var (evs, error) := old(reader.Remaining());
            w.frames == Aggregated(evs, EndingOf(error, kind), client)
  {
    ghost var (evs, error) := reader.Remaining();
    ghost var i := 0;
    var st := new StreamState();
    NothingRead(evs);
    hide Reader.Rest, Relay, Collect, CollectTail, CollectState, RejectionFrames, TrackTools, Rejects, EndingOf;
    while true
      invariant 0 <= i <= |evs| && reader.Remaining() == (evs[i..], error)
      invariant Collect(evs[..i]) == Running(st.View()) && w.frames == []
      invariant fresh(st)
      decreases |evs| - i
    {
      NextEvent(evs, i);
      var item := reader.Next();
      if item.Failure? {
        FinishNonStream(w, st, EndingOf(item.error, kind), client);
        return;
      }
      ghost var before := st.View();
      var stop := Screen(w, st, item.event, false, client);
      if stop {
        CollectRejects(evs, i, before, EndingOf(error, kind), client);
        return;
      }
      CollectAccepts(evs, i, before);
      CollectOne(st, item.event);
      i := i + 1;
    }
  }

  /** The part of the aggregating handler after its event loop. */
  method FinishNonStream(w: ResponseWriter, st: StreamState, ending: Ending, client: Client)
    modifies w, st
    ensures w.frames == old(w.frames) + CollectTail(Running(old(st.View())), ending, client)
  {
    if ending.ReadFailed? {
      w.HandleStreamReadError(false, ending.error, client);
      return;
    }
    if !st.terminalSeen {
      w.HandleProtocolFailure(false, Truncated, client.goneAtFailure);
      return;
    }
    st.FinalizeUsage();
    var incomplete := st.CompletionFailure();
    if incomplete.Some? {
      w.HandleProtocolFailure(false, incomplete.value, client.goneAtFailure);
      return;
    }
    if UsageOut(st.usage) == 0 && st.finishReason != Some(Length) && st.finishReason != Some(ContentFilter) {
      w.Write(JsonError(EmptyResponse, Respond(EmptyResponse)));
      return;
    }
    var message := Message(if |st.fullText| > 0 then Some(st.fullText) else None,
                           if |st.reasoning| > 0 then Some(st.reasoning) else None,
                           st.toolCalls);
    w.Write(Completion(message, st.finishReason, UsageFromUpstream(st.usage)));
  }
}
