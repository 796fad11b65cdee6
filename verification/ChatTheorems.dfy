/**
 * What the two chat handlers guarantee over every event sequence: which streams
 * succeed, that the handlers agree, and what a streamed response looks like.
 */
module ChatTheorems {
  import opened Wrappers
  import opened Stream
  import opened Chat
  import Reader

  // ---------------------------------------------------------------- which streams succeed

  /** An event that is acceptable on its own. */
  predicate WellFormed(ev: Event) {
    && !ev.kind.Error? && !ev.kind.Abort?
    && (ev.kind.Finish? || ev.kind.FinishStep? ==> OpenAIFinishReason(ev).Some?)
    && (IsToolInput(ev.kind) ==> !Blank(ev.id))
    && (ev.kind.ToolCall? ==> CompleteToolCall(ev))
  }

  predicate FirstFinishAt(evs: seq<Event>, k: int) {
    0 <= k < |evs| && evs[k].kind.Finish? && forall i :: 0 <= i < k ==> !evs[i].kind.Finish?
  }

  /** The reason of the last of the first n events that is a finish-step naming one. */
  function StepReason(evs: seq<Event>, n: nat): Option<Reason>
    requires n <= |evs|
  {
    if n == 0 then None
    else if evs[n - 1].kind.FinishStep? && Explicit(evs[n - 1]) then OpenAIFinishReason(evs[n - 1])
    else StepReason(evs, n - 1)
  }

  /** The reason the first finish fixes: its own, else the last step's, else its default. */
  function FrozenReason(evs: seq<Event>, k: nat): Option<Reason>
    requires k < |evs|
  {
    if Explicit(evs[k]) || StepReason(evs, k).None? then OpenAIFinishReason(evs[k]) else StepReason(evs, k)
  }

  /** A tool call with this id completes strictly between the two positions. */
  predicate CompletedBetween(evs: seq<Event>, id: string, i: int, n: int) {
    exists j :: i < j < n && 0 <= j < |evs| && evs[j].kind.ToolCall? && evs[j].toolCallId == id
  }

  predicate HasVisibleText(evs: seq<Event>, n: int) {
    exists i :: 0 <= i < n && i < |evs| && evs[i].kind.TextDelta? && !Blank(evs[i].text)
  }

  predicate HasToolCall(evs: seq<Event>, n: int) {
    exists i :: 0 <= i < n && i < |evs| && evs[i].kind.ToolCall?
  }

  /** The protocol a successful stream follows, given its first finish event. */
  ghost predicate AcceptedAt(evs: seq<Event>, k: nat)
    requires FirstFinishAt(evs, k)
  {
    && (forall i :: 0 <= i < |evs| ==> WellFormed(evs[i]))
    && (forall i :: k < i < |evs| ==> !IsOutput(evs[i].kind))
    && (forall i :: 0 <= i < |evs| && IsToolInput(evs[i].kind) ==> CompletedBetween(evs, evs[i].id, i, |evs|))
    && (forall i :: k < i < |evs| && evs[i].kind.Finish? && Explicit(evs[i]) ==>
          OpenAIFinishReason(evs[i]) == FrozenReason(evs, k))
    && (FrozenReason(evs, k) == Some(ToolCalls) ==> HasToolCall(evs, |evs|))
    && (HasVisibleText(evs, |evs|) || HasToolCall(evs, |evs|)
        || FrozenReason(evs, k) in {Some(Length), Some(ContentFilter)})
  }

  ghost predicate Accepted(evs: seq<Event>) {
    exists k :: FirstFinishAt(evs, k) && AcceptedAt(evs, k)
  }

  /** What must hold of the first n events for none of them to be rejected. */
  ghost predicate PrefixOk(evs: seq<Event>, n: nat)
    requires n <= |evs|
  {
    && (forall i :: 0 <= i < n ==> WellFormed(evs[i]))
    && (forall k, i :: FirstFinishAt(evs, k) && k < i < n ==> !IsOutput(evs[i].kind))
    && (forall k, i :: FirstFinishAt(evs, k) && k < n && 0 <= i < k && IsToolInput(evs[i].kind) ==>
          CompletedBetween(evs, evs[i].id, i, k))
    && (forall k, i :: FirstFinishAt(evs, k) && k < i < n && evs[i].kind.Finish? && Explicit(evs[i]) ==>
          OpenAIFinishReason(evs[i]) == FrozenReason(evs, k))
  }

  ghost predicate Pending(evs: seq<Event>, n: nat, id: string)
    requires n <= |evs|
  {
    exists i :: 0 <= i < n && IsToolInput(evs[i].kind) && evs[i].id == id && !CompletedBetween(evs, id, i, n)
  }

  /** The bookkeeping, read off the first n events. */
  ghost predicate Describes(evs: seq<Event>, n: nat, st: State)
    requires n <= |evs|
  {
    && (st.terminalSeen <==> exists k :: FirstFinishAt(evs, k) && k < n)
    && (forall id :: id in st.pendingTools <==> Pending(evs, n, id))
    && (!st.terminalSeen ==> st.finishReason == StepReason(evs, n))
    && (forall k :: FirstFinishAt(evs, k) && k < n ==> st.finishReason == FrozenReason(evs, k))
    && (st.hasText <==> HasVisibleText(evs, n))
    && (st.hasTool <==> HasToolCall(evs, n))
  }

  lemma StepReasonKnown(evs: seq<Event>, n: nat)
    requires n <= |evs| && forall i :: 0 <= i < n ==> WellFormed(evs[i])
    ensures StepReason(evs, n).Some? <==> exists i :: 0 <= i < n && evs[i].kind.FinishStep? && Explicit(evs[i])
  {
  }

  lemma PendingStep(evs: seq<Event>, n: nat, id: string)
    requires n < |evs|
    ensures Pending(evs, n + 1, id) <==>
              if IsToolInput(evs[n].kind) && evs[n].id == id then true
              else Pending(evs, n, id) && !(evs[n].kind.ToolCall? && evs[n].toolCallId == id)
  {
    forall i | 0 <= i < n
      ensures CompletedBetween(evs, id, i, n + 1) <==>
                CompletedBetween(evs, id, i, n) || (evs[n].kind.ToolCall? && evs[n].toolCallId == id)
    {
    }
    assert !CompletedBetween(evs, id, n, n + 1);
  }

  /** Some finish at i means a first one at or before i. */
  lemma {:induction false} FirstFinishExists(evs: seq<Event>, i: nat)
    requires i < |evs| && evs[i].kind.Finish?
    ensures exists k :: FirstFinishAt(evs, k) && k <= i
  {
    if j :| 0 <= j < i && evs[j].kind.Finish? {
      FirstFinishExists(evs, j);
    } else {
      assert FirstFinishAt(evs, i);
    }
  }

  lemma FinishIsFirst(evs: seq<Event>, m: nat, st: State)
    requires m < |evs| && Describes(evs, m, st) && evs[m].kind.Finish?
    ensures FirstFinishAt(evs, m) <==> !st.terminalSeen
  {
    FirstFinishExists(evs, m);
  }

  /** What event m must satisfy for the prefix to stay acceptable. */
  ghost predicate NextOk(evs: seq<Event>, m: nat)
    requires m < |evs|
  {
    && WellFormed(evs[m])
    && (forall k :: FirstFinishAt(evs, k) && k < m ==>
          !IsOutput(evs[m].kind)
          && (evs[m].kind.Finish? && Explicit(evs[m]) ==> OpenAIFinishReason(evs[m]) == FrozenReason(evs, k)))
    && (FirstFinishAt(evs, m) ==>
          forall i :: 0 <= i < m && IsToolInput(evs[i].kind) ==> CompletedBetween(evs, evs[i].id, i, m))
  }

  lemma PrefixStep(evs: seq<Event>, m: nat)
    requires m < |evs|
    ensures PrefixOk(evs, m + 1) <==> PrefixOk(evs, m) && NextOk(evs, m)
  {
    hide WellFormed, IsOutput, IsToolInput, Explicit, OpenAIFinishReason, FrozenReason, CompletedBetween;
  }

  /** After the first finish no announced tool call is outstanding. */
  lemma NothingPendingAfterFinish(evs: seq<Event>, n: nat, k: nat)
    requires n <= |evs| && PrefixOk(evs, n) && FirstFinishAt(evs, k) && k < n
    ensures forall id :: !Pending(evs, n, id)
  {
    forall i | 0 <= i < n && IsToolInput(evs[i].kind)
      ensures CompletedBetween(evs, evs[i].id, i, n)
    {
      assert IsOutput(evs[i].kind) && i != k;
      assert CompletedBetween(evs, evs[i].id, i, k);
    }
  }

  lemma RejectsExactly(evs: seq<Event>, m: nat, st: State)
    requires m < |evs| && PrefixOk(evs, m) && Describes(evs, m, st)
    ensures Rejects(st, evs[m]).None? <==> NextOk(evs, m)
  {
    var ev := evs[m];
    if st.terminalSeen {
      var k :| FirstFinishAt(evs, k) && k < m;
      NothingPendingAfterFinish(evs, m, k);
      assert st.pendingTools == {};
      assert !FirstFinishAt(evs, m);
      assert forall k' :: FirstFinishAt(evs, k') ==> k' == k;
    } else {
      if ev.kind.Finish? {
        FinishIsFirst(evs, m, st);
        if st.pendingTools != {} {
          var id :| id in st.pendingTools;
          assert Pending(evs, m, id);
        } else {
          forall i | 0 <= i < m && IsToolInput(evs[i].kind)
            ensures CompletedBetween(evs, evs[i].id, i, m)
          {
            assert evs[i].id !in st.pendingTools;
          }
        }
      }
    }
  }

  lemma PendingAfter(evs: seq<Event>, m: nat, st: State)
    requires m < |evs| && Describes(evs, m, st)
    ensures forall id :: id in TrackTools(st, evs[m]).pendingTools <==> Pending(evs, m + 1, id)
  {
    forall id
      ensures id in TrackTools(st, evs[m]).pendingTools <==> Pending(evs, m + 1, id)
    {
      PendingStep(evs, m, id);
    }
  }

  lemma ReasonKept(evs: seq<Event>, m: nat, st: State, k: nat)
    requires m < |evs| && PrefixOk(evs, m + 1) && Describes(evs, m, st) && FirstFinishAt(evs, k) && k < m
    ensures ReasonAfter(st, evs[m]) == FrozenReason(evs, k)
  {
    hide OpenAIFinishReason;
    assert st.terminalSeen && st.finishReason == FrozenReason(evs, k);
    assert WellFormed(evs[k]);
    assert Explicit(evs[m]) && evs[m].kind.Finish? ==> OpenAIFinishReason(evs[m]) == FrozenReason(evs, k);
  }

  lemma ReasonStep(evs: seq<Event>, m: nat, st: State)
    requires m < |evs| && PrefixOk(evs, m + 1) && Describes(evs, m, st)
    ensures !st.terminalSeen && !evs[m].kind.Finish? ==> ReasonAfter(st, evs[m]) == StepReason(evs, m + 1)
    ensures forall k :: FirstFinishAt(evs, k) && k < m + 1 ==> ReasonAfter(st, evs[m]) == FrozenReason(evs, k)
  {
    hide OpenAIFinishReason, PrefixOk;
    forall k | FirstFinishAt(evs, k) && k < m + 1
      ensures ReasonAfter(st, evs[m]) == FrozenReason(evs, k)
    {
      if k < m {
        ReasonKept(evs, m, st, k);
      } else {
        FinishIsFirst(evs, m, st);
      }
    }
  }

  lemma FlagsStep(evs: seq<Event>, m: nat, st: State)
    requires m < |evs| && Describes(evs, m, st)
    ensures st.terminalSeen || evs[m].kind.Finish? <==> exists k :: FirstFinishAt(evs, k) && k < m + 1
    ensures HasVisibleText(evs, m + 1) <==> st.hasText || (evs[m].kind.TextDelta? && !Blank(evs[m].text))
    ensures HasToolCall(evs, m + 1) <==> st.hasTool || evs[m].kind.ToolCall?
  {
    if evs[m].kind.Finish? {
      FinishIsFirst(evs, m, st);
    }
  }

  lemma DescribesStep(evs: seq<Event>, m: nat, st: State)
    requires m < |evs| && PrefixOk(evs, m + 1) && Describes(evs, m, st)
    ensures Describes(evs, m + 1, RelayState(TrackTools(st, evs[m]), evs[m]))
  {
    var tracked := TrackTools(st, evs[m]);
    var after := RelayState(tracked, evs[m]);
    PendingAfter(evs, m, st);
    ReasonStep(evs, m, st);
    FlagsStep(evs, m, st);
    assert after.finishReason == ReasonAfter(st, evs[m]);
    assert after.pendingTools == tracked.pendingTools;
  }

  lemma {:induction false} RunningExactly(evs: seq<Event>, n: nat)
    requires n <= |evs|
    ensures Relay(evs[..n]).0.Running? <==> PrefixOk(evs, n)
    ensures Relay(evs[..n]).0.Running? ==> Describes(evs, n, Relay(evs[..n]).0.st)
  {
    if n > 0 {
      var m := n - 1;
      RunningExactly(evs, m);
      OneMore(evs, m);
      PrefixStep(evs, m);
      var p := Relay(evs[..m]).0;
      if p.Running? {
        RejectsExactly(evs, m, p.st);
        if Rejects(p.st, evs[m]).None? {
          DescribesStep(evs, m, p.st);
        }
      }
    }
  }

  /** After an accepted finish the reason never changes and nothing becomes pending. */
  lemma FinishIsFinal(evs: seq<Event>, n: nat, m: nat)
    requires n <= m <= |evs|
    requires Relay(evs[..n]).0.Running? && Relay(evs[..n]).0.st.terminalSeen && Relay(evs[..m]).0.Running?
    ensures var before, after := Relay(evs[..n]).0.st, Relay(evs[..m]).0.st;
            && after.terminalSeen && before.finishReason.Some?
            && after.finishReason == before.finishReason && after.pendingTools == {}
  {
    RunningExactly(evs, n);
    RunningExactly(evs, m);
    hide Relay, Pending, OpenAIFinishReason, Explicit, IsOutput, IsToolInput, CompletedBetween;
    var k :| FirstFinishAt(evs, k) && k < n;
    NothingPendingAfterFinish(evs, m, k);
    FrozenIsKnown(evs, k);
  }

  /** An acceptable first finish freezes a reason. */
  lemma FrozenIsKnown(evs: seq<Event>, k: nat)
    requires FirstFinishAt(evs, k) && forall i :: 0 <= i <= k ==> WellFormed(evs[i])
    ensures FrozenReason(evs, k).Some?
  {
    StepReasonKnown(evs, k);
    assert WellFormed(evs[k]);
    hide OpenAIFinishReason, Explicit, CompleteToolCall, StepReason;
  }

  // ---------------------------------------------------------------- success

  /** A streamed success: its last two frames are a finish chunk and DONE. */
  predicate Succeeds(out: seq<Frame>) {
    |out| >= 2 && out[|out| - 2].FinishChunk? && out[|out| - 1].Done?
  }

  /** The finish reason a successful response ends with. */
  function SentReason(out: seq<Frame>): Option<Reason>
    requires Succeeds(out)
  {
    out[|out| - 2].reason
  }

  /** All deltas, with the role on the first one only. */
  predicate Deltas(out: seq<Frame>) {
    forall i :: 0 <= i < |out| ==> out[i].Delta? && (out[i].role <==> i == 0)
  }

  /** One event adds at most one delta, and the counter follows. */
  lemma RelayEventWrites(p: Progress, out: seq<Frame>, ev: Event)
    requires Deltas(out) && |out| == p.st.chunkCount
    ensures var (q, more) := RelayEvent(p, out, ev); Deltas(more) && |more| == q.st.chunkCount
  {
    assert AbsorbEvent(TrackTools(p.st, ev), ev).chunkCount == TrackTools(p.st, ev).chunkCount == p.st.chunkCount;
    hide Rejects, AbsorbEvent, TrackTools, Blank;
  }

  lemma {:induction false} RelayWritesDeltas(evs: seq<Event>)
    ensures Deltas(Relay(evs).1)
    ensures |Relay(evs).1| == Relay(evs).0.st.chunkCount
  {
    if evs != [] {
      RelayWritesDeltas(evs[..|evs| - 1]);
      var (p, out) := Relay(evs[..|evs| - 1]);
      RelayEventWrites(p, out, evs[|evs| - 1]);
      hide RelayEvent, Deltas;
    }
  }

  /** The bookkeeping accepts the end of the stream exactly when the protocol was followed. */
  lemma CompletesExactly(evs: seq<Event>)
    ensures var p := Relay(evs).0;
            Accepted(evs) <==> p.Running? && p.st.terminalSeen && CompletionFault(Finalized(p.st)).None?
    ensures forall k :: FirstFinishAt(evs, k) && Accepted(evs) ==> Relay(evs).0.st.finishReason == FrozenReason(evs, k)
  {
    hide Relay, OpenAIFinishReason;
    var n := |evs|;
    assert evs[..n] == evs;
    RunningExactly(evs, n);
    var p := Relay(evs).0;
    if k :| FirstFinishAt(evs, k) {
      assert forall k' :: FirstFinishAt(evs, k') ==> k' == k;
      AcceptedIsPrefixOk(evs, k);
      if p.Running? {
        NothingPendingAfterFinish(evs, n, k);
        assert p.st.pendingTools == {};
        StepReasonKnown(evs, k);
      }
    }
  }

  lemma AcceptedIsPrefixOk(evs: seq<Event>, k: nat)
    requires FirstFinishAt(evs, k)
    ensures AcceptedAt(evs, k) <==>
              && PrefixOk(evs, |evs|)
              && (FrozenReason(evs, k) == Some(ToolCalls) ==> HasToolCall(evs, |evs|))
              && (HasVisibleText(evs, |evs|) || HasToolCall(evs, |evs|)
                  || FrozenReason(evs, k) in {Some(Length), Some(ContentFilter)})
  {
    hide WellFormed, FrozenReason, OpenAIFinishReason, HasVisibleText, HasToolCall, Explicit;
    forall i | AcceptedAt(evs, k) && 0 <= i < k && IsToolInput(evs[i].kind)
      ensures CompletedBetween(evs, evs[i].id, i, k)
    {
      assert CompletedBetween(evs, evs[i].id, i, |evs|);
    }
    forall i | PrefixOk(evs, |evs|) && 0 <= i < |evs| && IsToolInput(evs[i].kind)
      ensures CompletedBetween(evs, evs[i].id, i, |evs|)
    {
      assert IsOutput(evs[i].kind) && i < k;
      assert CompletedBetween(evs, evs[i].id, i, k);
    }
  }

  /** The bookkeeping of a clean end is complete. */
  predicate Completes(p: Progress, ending: Ending) {
    ending.Eof? && p.Running? && p.st.terminalSeen && CompletionFault(Finalized(p.st)).None?
  }

  /** The tail of a response is a finish chunk and DONE exactly when the bookkeeping completes. */
  lemma TailSucceedsExactly(p: Progress, started: bool, ending: Ending, client: Client)
    ensures var tail := RelayTail(p, started, ending, client);
            && (Completes(p, ending) ==>
                  |tail| == 2 && tail[0].FinishChunk? && tail[0].reason == p.st.finishReason && tail[1].Done?)
            && (!Completes(p, ending) ==>
                  && |tail| <= 2
                  && (|tail| == 2 ==> tail[0].ErrorFrame?) && (|tail| == 1 ==> tail[0].JsonError?))
  {
    assert p.Running? ==> Finalized(p.st).finishReason == p.st.finishReason;
    hide CompletionFault, Finalized, Respond, UsageFromUpstream, JsonFailure, SseFailure;
  }

  /** After deltas, only such a tail is a success. */
  lemma SucceedsByTail(written: seq<Frame>, tail: seq<Frame>)
    requires Deltas(written) && |tail| <= 2 && (|tail| == 1 ==> tail[0].JsonError?)
    ensures Succeeds(written + tail) <==> |tail| == 2 && tail[0].FinishChunk? && tail[1].Done?
    ensures |tail| == 2 ==> |written + tail| >= 2 && (written + tail)[|written + tail| - 2] == tail[0]
  {
    var out := written + tail;
    assert |tail| == 2 ==> out[|out| - 2] == tail[0] && out[|out| - 1] == tail[1];
    assert |tail| == 1 ==> out[|out| - 1] == tail[0];
    assert tail == [] ==> out == written;
  }

  /**
   * The streaming handler reports success exactly for a clean end of a stream that
   * follows the protocol, whatever the client does, and names the frozen reason.
   */
  lemma StreamSucceedsExactly(evs: seq<Event>, ending: Ending, client: Client)
    ensures var out := Streamed(evs, ending, client);
            && (Succeeds(out) <==> ending.Eof? && Accepted(evs))
            && (Succeeds(out) ==> forall k :: FirstFinishAt(evs, k) ==> SentReason(out) == FrozenReason(evs, k))
  {
    RelayWritesDeltas(evs);
    CompletesExactly(evs);
    var (p, written) := Relay(evs);
    TailSucceedsExactly(p, written != [], ending, client);
    hide RelayTail, Relay, Accepted, FirstFinishAt, FrozenReason, Succeeds, Deltas, CompletionFault, Finalized;
    SucceedsByTail(written, RelayTail(p, written != [], ending, client));
  }

  // ---------------------------------------------------------------- from the upstream's bytes to the response

  /** What a client is streamed for these upstream bytes. */
  function StreamedFor(c: Reader.Codec, data: Reader.Bytes, end: Reader.IoEnd, kind: int -> ReadError,
                       client: Client): seq<Frame> {
    var (evs, error) := Reader.Rest(c, data, end);
    Streamed(evs, EndingOf(error, kind), client)
  }

  ghost predicate NoFatalLine(c: Reader.Codec, lines: seq<Reader.Bytes>, end: Reader.IoEnd) {
    forall i :: 0 <= i < |lines| ==> !Reader.FatalAt(c, lines, end, i)
  }

  /**
   * A response succeeds exactly if its upstream body came to a clean end, none of its lines
   * is a fatal one, and the events on them follow the protocol.
   */
  lemma BytesSucceedExactly(c: Reader.Codec, data: Reader.Bytes, end: Reader.IoEnd, kind: int -> ReadError,
                            client: Client)
    ensures var lines := Reader.SplitLines(data);
            Succeeds(StreamedFor(c, data, end, kind, client))
            <==> end.Eof? && NoFatalLine(c, lines, end) && Accepted(Reader.EventsOn(c, lines))
  {
    var lines := Reader.SplitLines(data);
    var n := Reader.ReaderReturns(c, data, end);
    var (evs, error) := Reader.Rest(c, data, end);
    StreamSucceedsExactly(evs, EndingOf(error, kind), client);
    hide Reader.FatalAt, Reader.EventsOn, Reader.Rest, Reader.SplitLines, Accepted, Succeeds, Streamed;
    assert n == |lines| ==> lines[..n] == lines;
    assert n < |lines| ==> Reader.FatalAt(c, lines, end, n);
  }

  // ---------------------------------------------------------------- the shape of a streamed response

  datatype Shape = Success | ErrorAfterDeltas | PlainError | Abandoned

  /** What may follow the given number of deltas. */
  predicate TailShape(deltas: nat, tail: seq<Frame>, shape: Shape) {
    match shape
    case Success => |tail| == 2 && tail[0].FinishChunk? && tail[0].reason.Some? && tail[1].Done?
    case ErrorAfterDeltas => deltas > 0 && |tail| == 2 && tail[0].ErrorFrame? && tail[1].Done?
    case PlainError => deltas == 0 && |tail| == 1 && tail[0].JsonError?
    case Abandoned => tail == []
  }

  ghost predicate Shaped(out: seq<Frame>, shape: Shape) {
    exists n :: 0 <= n <= |out| && Deltas(out[..n]) && TailShape(n, out[n..], shape)
  }

  lemma TailIsShaped(p: Progress, deltas: nat, ending: Ending, client: Client) returns (shape: Shape)
    requires p.Running? && p.st.terminalSeen ==> p.st.finishReason.Some?
    ensures TailShape(deltas, RelayTail(p, deltas > 0, ending, client), shape)
    ensures shape.Abandoned? ==> client.goneAtFailure || client.goneAtRecheck
    ensures shape.Success? <==> Completes(p, ending)
  {
    TailSucceedsExactly(p, deltas > 0, ending, client);
    hide CompletionFault, Finalized, Respond, UsageFromUpstream, JsonFailure, SseFailure;
    var tail := RelayTail(p, deltas > 0, ending, client);
    shape := if tail == [] then Abandoned
             else if tail[0].JsonError? then PlainError
             else if tail[0].ErrorFrame? then ErrorAfterDeltas
             else Success;
  }

  /**
   * Every streamed response is deltas followed by one finish chunk and DONE, or by one
   * error frame and DONE, or one JSON error and nothing else; only a client that has
   * gone is left with bare deltas.
   */
  lemma StreamGrammar(evs: seq<Event>, ending: Ending, client: Client) returns (shape: Shape)
    ensures Shaped(Streamed(evs, ending, client), shape)
    ensures shape.Abandoned? ==> client.goneAtFailure || client.goneAtRecheck
    ensures shape.Success? <==> ending.Eof? && Accepted(evs)
  {
    RelayWritesDeltas(evs);
    CompletesExactly(evs);
    ReasonIsKnown(evs);
    var (p, written) := Relay(evs);
    hide RelayTail, Relay, Accepted, TailShape, Deltas, CompletionFault, Finalized;
    shape := TailIsShaped(p, |written|, ending, client);
    var out := Streamed(evs, ending, client);
    assert out[..|written|] == written && out[|written|..] == RelayTail(p, |written| > 0, ending, client);
  }

  lemma ReasonIsKnown(evs: seq<Event>)
    ensures var p := Relay(evs).0; p.Running? && p.st.terminalSeen ==> p.st.finishReason.Some?
  {
    hide Relay;
    if Relay(evs).0.Running? && Relay(evs).0.st.terminalSeen {
      assert evs[..|evs|] == evs;
      FinishIsFinal(evs, |evs|, |evs|);
    }
  }

  // ---------------------------------------------------------------- agreement of the two handlers

  function ContentOf(out: seq<Frame>): string {
    if out == [] then ""
    else
      var f := out[|out| - 1];
      ContentOf(out[..|out| - 1]) + if f.Delta? && f.payload.Content? then f.payload.text else ""
  }

  function ReasoningOf(out: seq<Frame>): string {
    if out == [] then ""
    else
      var f := out[|out| - 1];
      ReasoningOf(out[..|out| - 1]) + if f.Delta? && f.payload.Reasoning? then f.payload.text else ""
  }

  function ToolsOf(out: seq<Frame>): seq<ToolCallRecord> {
    if out == [] then []
    else
      var f := out[|out| - 1];
      ToolsOf(out[..|out| - 1]) + if f.Delta? && f.payload.Tool? then [f.payload.call] else []
  }

  /** Every tool delta carries its position among the tool deltas. */
  predicate ToolsNumbered(out: seq<Frame>) {
    forall i :: 0 <= i < |out| && out[i].Delta? && out[i].payload.Tool? ==> out[i].payload.index == |ToolsOf(out[..i])|
  }

  /** The part of the bookkeeping both handlers keep. */
  predicate SameBook(a: State, b: State) {
    && a.finishReason == b.finishReason && a.usage == b.usage
    && a.costUSD == b.costUSD && a.costReported == b.costReported
    && a.terminalSeen == b.terminalSeen && a.hasText == b.hasText && a.hasTool == b.hasTool
    && a.pendingTools == b.pendingTools && a.captured == b.captured
  }

  lemma AppendFrame(out: seq<Frame>, f: Frame)
    ensures ContentOf(out + [f]) == ContentOf(out) + if f.Delta? && f.payload.Content? then f.payload.text else ""
    ensures ReasoningOf(out + [f]) == ReasoningOf(out) + if f.Delta? && f.payload.Reasoning? then f.payload.text else ""
    ensures ToolsOf(out + [f]) == ToolsOf(out) + if f.Delta? && f.payload.Tool? then [f.payload.call] else []
    ensures ToolsNumbered(out + [f]) <==>
              ToolsNumbered(out) && (f.Delta? && f.payload.Tool? ==> f.payload.index == |ToolsOf(out)|)
  {
    var all := out + [f];
    assert all[..|out|] == out;
    forall i | 0 <= i < |out|
      ensures all[..i] == out[..i]
    {
    }
  }

  lemma RejectTogether(a: State, b: State, ev: Event)
    requires SameBook(a, b)
    ensures Rejects(a, ev) == Rejects(b, ev)
  {
  }

  lemma AcceptTogether(a: State, b: State, ev: Event)
    requires SameBook(a, b)
    ensures SameBook(RelayState(TrackTools(a, ev), ev), CollectState(TrackTools(b, ev), ev))
  {
    hide OpenAIFinishReason;
    var a', b' := TrackTools(a, ev), TrackTools(b, ev);
    assert SameBook(a', b');
    assert ReasonAfter(a', ev) == ReasonAfter(b', ev) && UsageAfter(a', ev) == UsageAfter(b', ev);
  }

  /** Both handlers keep the same books and stop at the same event for the same reason. */
  lemma {:induction false} SameProgress(evs: seq<Event>)
    ensures var p, q := Relay(evs).0, Collect(evs);
            p.Stopped? == q.Stopped? && (p.Stopped? ==> p.fault == q.fault) && SameBook(p.st, q.st)
  {
    if evs != [] {
      SameProgress(evs[..|evs| - 1]);
      var a, b := Relay(evs[..|evs| - 1]).0.st, Collect(evs[..|evs| - 1]).st;
      RejectTogether(a, b, evs[|evs| - 1]);
      AcceptTogether(a, b, evs[|evs| - 1]);
    }
  }

  /** The content carried by the frames so far is the content gathered so far. */
  predicate Carries(out: seq<Frame>, toolCallIdx: nat, st: State) {
    && ContentOf(out) == st.fullText && ReasoningOf(out) == st.reasoning && ToolsOf(out) == st.toolCalls
    && ToolsNumbered(out) && toolCallIdx == |ToolsOf(out)|
  }

  /** The content one event adds, on either side. */
  lemma GatherStep(st: State, ev: Event)
    ensures var after := CollectState(TrackTools(st, ev), ev);
            && after.fullText == st.fullText + (if ev.kind.TextDelta? then ev.text else "")
            && after.reasoning == st.reasoning + (if ev.kind.ReasoningDelta? then ev.text else "")
            && after.toolCalls == st.toolCalls + (if ev.kind.ToolCall? then [CallOf(ev)] else [])
    ensures RelayState(TrackTools(st, ev), ev).toolCallIdx == st.toolCallIdx + (if ev.kind.ToolCall? then 1 else 0)
  {
    hide AbsorbEvent, Blank, RelayFrame;
    AbsorbKeepsContent(TrackTools(st, ev), ev);
  }

  lemma AbsorbKeepsContent(st: State, ev: Event)
    ensures var after := AbsorbEvent(st, ev);
            && after.fullText == st.fullText && after.reasoning == st.reasoning
            && after.toolCalls == st.toolCalls && after.toolCallIdx == st.toolCallIdx
  {
  }

  lemma CarryStep(out: seq<Frame>, before: State, gathered: State, ev: Event)
    requires Carries(out, before.toolCallIdx, gathered)
    ensures var a, b := TrackTools(before, ev), TrackTools(gathered, ev);
            Carries(out + RelayFrame(a, ev), RelayState(a, ev).toolCallIdx, CollectState(b, ev))
  {
    GatherStep(before, ev);
    GatherStep(gathered, ev);
    hide RelayState, CollectState;
    var frame := RelayFrame(TrackTools(before, ev), ev);
    if frame == [] {
      assert out + frame == out;
    } else {
      AppendFrame(out, frame[0]);
    }
  }

  /** Event by event, the deltas written and the message built carry the same content. */
  lemma {:induction false} SameContent(evs: seq<Event>)
    ensures Carries(Relay(evs).1, Relay(evs).0.st.toolCallIdx, Collect(evs).st)
  {
    if evs != [] {
      hide Rejects, RelayState, CollectState, TrackTools, RelayFrame, Carries;
      var pre, ev := evs[..|evs| - 1], evs[|evs| - 1];
      SameContent(pre);
      SameProgress(pre);
      var a, b := Relay(pre).0.st, Collect(pre).st;
      RejectTogether(a, b, ev);
      CarryStep(Relay(pre).1, a, b, ev);
    }
  }

  /** The fault a response reports, if it reports one. */
  function ReportedFault(out: seq<Frame>): Option<Fault> {
    if |out| == 1 && out[0].JsonError? then Some(out[0].fault)
    else if |out| >= 2 && out[|out| - 2].ErrorFrame? && out[|out| - 1].Done? then Some(out[|out| - 2].fault)
    else None
  }

  /** The type, code and message the client reads, from JSON or from the error chunk. */
  function ReportedBody(out: seq<Frame>): Option<ErrorBody> {
    if |out| == 1 && out[0].JsonError? then Some(out[0].response.body)
    else if |out| >= 2 && out[|out| - 2].ErrorFrame? && out[|out| - 1].Done? then Some(out[|out| - 2].body)
    else None
  }

  lemma {:induction false} TailIsSilent(out: seq<Frame>, tail: seq<Frame>)
    requires forall f :: f in tail ==> !f.Delta?
    ensures ContentOf(out + tail) == ContentOf(out) && ReasoningOf(out + tail) == ReasoningOf(out)
    ensures ToolsOf(out + tail) == ToolsOf(out) && (ToolsNumbered(out + tail) <==> ToolsNumbered(out))
  {
    if tail == [] {
      assert out + tail == out;
    } else {
      var rest, f := tail[..|tail| - 1], tail[|tail| - 1];
      TailIsSilent(out, rest);
      AppendFrame(out + rest, f);
      assert out + tail == out + rest + [f];
    }
  }

  /** A zero-output success that is neither length-limited nor filtered. */
  predicate ZeroOutput(f: Frame) {
    f.FinishChunk? && f.usage.completion == 0 && f.reason != Some(Length) && f.reason != Some(ContentFilter)
  }

  /** How the end of a streamed response matches the aggregated one. */
  predicate EndsMatch(tail: seq<Frame>, started: bool, a: Frame, message: Message) {
    if a.Completion? then
      && |tail| == 2 && tail[0].FinishChunk? && tail[1].Done? && !ZeroOutput(tail[0])
      && a.reason == tail[0].reason && a.usage == tail[0].usage && a.message == message
    else if a == JsonFailure(EmptyResponse) then
      |tail| == 2 && tail[1].Done? && ZeroOutput(tail[0])
    else
      a.JsonError? && a == JsonFailure(a.fault) && a.fault != EmptyResponse && tail == FailureFrames(started, a.fault)
  }

  /** The streamed response s and the aggregated response a tell the client the same thing. */
  predicate Agree(s: seq<Frame>, a: Frame) {
    && (Succeeds(s) && ZeroOutput(s[|s| - 2]) <==> a == JsonFailure(EmptyResponse))
    && (Succeeds(s) && !ZeroOutput(s[|s| - 2]) <==> a.Completion?)
    && (!Succeeds(s) <==> a.JsonError? && a.fault != EmptyResponse)
    && (!Succeeds(s) && a.JsonError? ==> ReportedFault(s) == Some(a.fault) && ReportedBody(s) == Some(a.response.body))
    && (a.Completion? ==>
          && |s| >= 2 && s[|s| - 2].FinishChunk?
          && a.reason == s[|s| - 2].reason && a.usage == s[|s| - 2].usage
          && a.message.content == (if ContentOf(s) == "" then None else Some(ContentOf(s)))
          && a.message.reasoning == (if ReasoningOf(s) == "" then None else Some(ReasoningOf(s)))
          && a.message.toolCalls == ToolsOf(s) && ToolsNumbered(s))
  }

  lemma SameCompletion(a: State, b: State)
    requires SameBook(a, b)
    ensures SameBook(Finalized(a), Finalized(b)) && CompletionFault(Finalized(a)) == CompletionFault(Finalized(b))
    ensures CompletionFault(Finalized(a)) != Some(EmptyResponse) && MessageOf(Finalized(a)) == MessageOf(a)
  {
  }

  /** Both handlers report a fault found before the end of a clean stream. */
  lemma FailTogether(p: Progress, q: Progress, started: bool, ending: Ending, client: Client)
    requires !client.goneAtFailure && !client.goneAtRecheck && p.Stopped? == q.Stopped?
    requires if p.Stopped? then p.fault == q.fault else p.st.terminalSeen == q.st.terminalSeen
    requires p.Stopped? || ending.ReadFailed? || !p.st.terminalSeen
    ensures var f := if p.Stopped? then p.fault else if ending.ReadFailed? then ReadFault(ending.error) else Truncated;
            && CollectTail(q, ending, client) == [JsonFailure(f)]
            && RelayTail(p, started, ending, client) == FailureFrames(started, f)
            && (f.EmptyResponse? ==> p.Stopped?)
  {
    hide Respond, JsonFailure, SseFailure, CompletionFault, Finalized, UsageFromUpstream, MessageOf;
  }

  lemma RelayEnd(st: State, started: bool, client: Client)
    requires !client.goneAtFailure && st.terminalSeen
    ensures var end := Finalized(st);
            var fault := CompletionFault(end);
            RelayTail(Running(st), started, Eof, client) ==
              if fault.Some? then FailureFrames(started, fault.value)
              else [FinishChunk(end.finishReason, UsageFromUpstream(end.usage)), Done]
  {
    hide CompletionFault, Finalized, UsageFromUpstream, FailureFrames;
  }

  lemma CollectEnd(st: State, client: Client)
    requires !client.goneAtFailure && st.terminalSeen
    ensures var end := Finalized(st);
            var fault := CompletionFault(end);
            CollectTail(Running(st), Eof, client) ==
              if fault.Some? then [JsonFailure(fault.value)]
              else if UsageOut(end.usage) == 0 && end.finishReason !in {Some(Length), Some(ContentFilter)} then
                [JsonFailure(EmptyResponse)]
              else [Completion(MessageOf(end), end.finishReason, UsageFromUpstream(end.usage))]
  {
    hide CompletionFault, Finalized, UsageFromUpstream, JsonFailure, SseFailure, MessageOf, UsageOut;
  }

  /** Both handlers end a clean stream from the same completed books. */
  lemma CompleteTogether(st: State, other: State, started: bool, client: Client)
    requires !client.goneAtFailure && SameBook(st, other) && st.terminalSeen
    ensures var a := CollectTail(Running(other), Eof, client);
            |a| == 1 && EndsMatch(RelayTail(Running(st), started, Eof, client), started, a[0], MessageOf(other))
  {
    SameCompletion(st, other);
    SameCompletion(other, other);
    ShownOutput(Finalized(st).usage);
    RelayEnd(st, started, client);
    CollectEnd(other, client);
    hide RelayTail, CollectTail, JsonFailure, CompletionFault, Finalized, MessageOf,
         UsageFromUpstream, UsageOut, FailureFrames;
  }

  lemma ShownOutput(u: Option<Usage>)
    ensures UsageFromUpstream(u).completion == UsageOut(u)
  {
  }

  /** The two handlers' endings, from the same books. */
  lemma EndTogether(p: Progress, q: Progress, started: bool, ending: Ending, client: Client)
    requires !client.goneAtFailure && !client.goneAtRecheck && p.Stopped? == q.Stopped? && SameBook(p.st, q.st)
    requires p.Stopped? ==> p.fault == q.fault && p.fault != EmptyResponse
    ensures var a := CollectTail(q, ending, client);
            |a| == 1 && EndsMatch(RelayTail(p, started, ending, client), started, a[0], MessageOf(q.st))
  {
    hide CollectTail, RelayTail, FailureFrames, JsonFailure;
    if p.Stopped? || ending.ReadFailed? || !p.st.terminalSeen {
      FailTogether(p, q, started, ending, client);
    } else {
      CompleteTogether(p.st, q.st, started, client);
    }
  }

  /** A failure after the deltas so far is what the client reads. */
  lemma FailureIsRead(written: seq<Frame>, f: Fault)
    requires Deltas(written)
    ensures var s := written + FailureFrames(written != [], f);
            !Succeeds(s) && ReportedFault(s) == Some(f) && ReportedBody(s) == Some(JsonFailure(f).response.body)
  {
    hide Respond;
    var s := written + FailureFrames(written != [], f);
    if written == [] {
      assert s == [JsonFailure(f)];
    } else {
      assert s[|s| - 2] == SseFailure(f) && s[|s| - 1] == Done;
    }
  }

  /** A finish chunk and DONE after the deltas so far is a success that carries what they carry. */
  lemma SuccessIsRead(written: seq<Frame>, finish: Frame, idx: nat, st: State)
    requires Carries(written, idx, st) && finish.FinishChunk?
    ensures var s := written + [finish, Done];
            && |s| >= 2 && s[|s| - 2] == finish && Succeeds(s)
            && ContentOf(s) == st.fullText && ReasoningOf(s) == st.reasoning
            && ToolsOf(s) == st.toolCalls && ToolsNumbered(s)
  {
    TailIsSilent(written, [finish, Done]);
    hide ContentOf, ReasoningOf, ToolsOf, ToolsNumbered;
    var s := written + [finish, Done];
    assert s[|s| - 2] == finish && s[|s| - 1] == Done;
  }

  lemma JoinEnds(written: seq<Frame>, tail: seq<Frame>, a: Frame, idx: nat, st: State)
    requires Deltas(written) && Carries(written, idx, st)
    requires EndsMatch(tail, written != [], a, MessageOf(st))
    ensures Agree(written + tail, a)
  {
    hide ContentOf, ReasoningOf, ToolsOf, ToolsNumbered, Succeeds, ReportedFault, ReportedBody,
         FailureFrames, JsonFailure, Carries;
    if a.Completion? || a == JsonFailure(EmptyResponse) {
      assert tail == [tail[0], Done];
      SuccessIsRead(written, tail[0], idx, st);
    } else {
      FailureIsRead(written, a.fault);
    }
  }

  /**
   * For a client that stays, the handlers report the same fault, or the aggregated
   * message is exactly the concatenation of the streamed deltas.  The one exception:
   * a streamed success with zero output tokens is the aggregated 429.
   */
  lemma HandlersAgree(evs: seq<Event>, ending: Ending, client: Client)
    requires !client.goneAtFailure && !client.goneAtRecheck
    ensures var a := Aggregated(evs, ending, client);
            |a| == 1 && Agree(Streamed(evs, ending, client), a[0])
  {
    SameProgress(evs);
    SameContent(evs);
    StoppedFaults(evs);
    RelayWritesDeltas(evs);
    var (p, written) := Relay(evs);
    EndTogether(p, Collect(evs), written != [], ending, client);
    hide Relay, Collect, RelayTail, CollectTail;
    JoinEnds(written, RelayTail(p, written != [], ending, client), Aggregated(evs, ending, client)[0],
             p.st.toolCallIdx, Collect(evs).st);
  }

  /** No event raises the empty-response fault, or one that only reading can. */
  lemma {:induction false} StoppedFaults(evs: seq<Event>)
    ensures Relay(evs).0.Stopped? ==> !Relay(evs).0.fault.EmptyResponse? && !Relay(evs).0.fault.MalformedEvent?
  {
    if evs != [] {
      StoppedFaults(evs[..|evs| - 1]);
    }
  }

  /** The fault came from an in-band error event. */
  predicate InBand(f: Fault) {
    f.TerminalMarker? || f.Upstream?
  }

  /**
   * A response is either what a client that stays would see or just the deltas so far.
   * Successes and in-band upstream errors are never withheld; any other failure is exactly
   * when the client has gone by the first check, or by the second in the case of a
   * malformed event.
   */
  lemma GoneClient(evs: seq<Event>, ending: Ending, client: Client)
    ensures var here := Streamed(evs, ending, Client(false, false));
            var out := Streamed(evs, ending, client);
            var fault := ReportedFault(here);
            && (out == here || out == Relay(evs).1) && here != Relay(evs).1
            && (Succeeds(here) <==> fault.None?)
            && (out == here <==>
                  fault.None? || InBand(fault.value)
                  || !(client.goneAtFailure || (fault.value.MalformedEvent? && client.goneAtRecheck)))
  {
    RelayWritesDeltas(evs);
    StoppedFaults(evs);
    hide Relay, Finalized, UsageFromUpstream, Respond, CompletionFault, SseFailure, JsonFailure;
    var (p, written) := Relay(evs);
    var tail := RelayTail(p, written != [], ending, Client(false, false));
    var here := Streamed(evs, ending, Client(false, false));
    assert |tail| == 2 ==> here[|here| - 2] == tail[0] && here[|here| - 1] == tail[1];
    assert |tail| == 1 ==> here == tail;
    WithheldExactly(p, written != [], ending, client);
    var tail' := RelayTail(p, written != [], ending, client);
    assert written + [] == written && |here| == |written| + |tail|;
    hide RelayTail;
  }

  /** The fault a response that fails ends with. */
  function FaultOf(p: Progress, ending: Ending): Option<Fault> {
    if p.Stopped? then Some(p.fault)
    else if ending.ReadFailed? then Some(ReadFault(ending.error))
    else if !p.st.terminalSeen then Some(Truncated)
    else CompletionFault(Finalized(p.st))
  }

  lemma WithheldExactly(p: Progress, started: bool, ending: Ending, client: Client)
    requires p.Stopped? ==> !p.fault.MalformedEvent?
    ensures var tail, fault := RelayTail(p, started, ending, Client(false, false)), FaultOf(p, ending);
            var tail' := RelayTail(p, started, ending, client);
            && (fault.None? ==> |tail| == 2 && tail[0].FinishChunk? && tail[1].Done?)
            && (fault.Some? ==> tail == FailureFrames(started, fault.value))
            && tail' == (if fault.Some? && !InBand(fault.value)
                            && (client.goneAtFailure || (fault.value.MalformedEvent? && client.goneAtRecheck)) then []
                         else tail)
  {
    hide Finalized, UsageFromUpstream, Respond, SseFailure, JsonFailure;
  }

  // ---------------------------------------------------------------- what a response is made of

  /** The texts of the events of a kind, run together. */
  function TextOf(evs: seq<Event>, k: EventKind): string {
    if evs == [] then "" else
    var last := evs[|evs| - 1];
    TextOf(evs[..|evs| - 1], k) + if last.kind == k then last.text else ""
  }

  /** The tool-call events, in order. */
  function ToolEvents(evs: seq<Event>): seq<Event> {
    if evs == [] then [] else
    var last := evs[|evs| - 1];
    ToolEvents(evs[..|evs| - 1]) + if last.kind.ToolCall? then [last] else []
  }

  /** The k-th call is the k-th event's, with its own input as arguments, or an empty object for an absent one. */
  ghost predicate CallsOf(calls: seq<ToolCallRecord>, events: seq<Event>) {
    && |calls| == |events|
    && forall k :: 0 <= k < |calls| ==>
         && calls[k].id == events[k].toolCallId && calls[k].name == events[k].toolName
         && calls[k].arguments == (if events[k].input == "" then "{}" else events[k].input)
  }

  lemma OneMoreCall(calls: seq<ToolCallRecord>, events: seq<Event>, ev: Event)
    requires CallsOf(calls, events)
    ensures CallsOf(calls + [CallOf(ev)], events + [ev])
  {
  }

  lemma LastCollected(evs: seq<Event>)
    requires evs != [] && Collect(evs).Running?
    ensures var pre, ev := evs[..|evs| - 1], evs[|evs| - 1];
            && Collect(pre).Running?
            && Collect(evs).st == CollectState(TrackTools(Collect(pre).st, ev), ev)
  {
    hide Rejects, CollectState, TrackTools;
  }

  /** Everything the events carry so far is collected, tool calls with their arguments. */
  lemma {:induction false} NothingIsLost(evs: seq<Event>)
    requires Collect(evs).Running?
    ensures var st := Collect(evs).st;
            && st.fullText == TextOf(evs, EventKind.TextDelta) && st.reasoning == TextOf(evs, EventKind.ReasoningDelta)
            && CallsOf(st.toolCalls, ToolEvents(evs))
  {
    if evs != [] {
      var pre, ev := evs[..|evs| - 1], evs[|evs| - 1];
      LastCollected(evs);
      hide Collect, CollectState, TrackTools, CallOf, CallsOf;
      NothingIsLost(pre);
      GatherStep(Collect(pre).st, ev);
      OneMoreCall(Collect(pre).st.toolCalls, ToolEvents(pre), ev);
      assert ToolEvents(pre) + [] == ToolEvents(pre) && Collect(pre).st.toolCalls + [] == Collect(pre).st.toolCalls;
    }
  }

  /** The usage an event reports: a step's own, or a finish's total. */
  function UsageIn(ev: Event): Option<Usage> {
    match ev.kind
    case FinishStep => ev.usage
    case Finish => ev.totalUsage
    case _ => None
  }

  /** Event i is the last of the first n to report usage. */
  predicate LastUsageAt(evs: seq<Event>, n: nat, i: int) {
    0 <= i < n <= |evs| && UsageIn(evs[i]).Some? && forall j :: i < j < n ==> UsageIn(evs[j]).None?
  }

  predicate LastCountAt(evs: seq<Event>, n: nat, i: int) {
    && 0 <= i < n <= |evs| && CountsCacheWrites(evs[i])
    && forall j :: i < j < n ==> !CountsCacheWrites(evs[j])
  }

  predicate CountsCacheWrites(ev: Event) {
    ev.kind.CacheWriteTokens? && ev.cacheWriteTokens.valid
  }

  /** A step's usage replaces earlier usage even after the finish; only the last report counts. */
  lemma {:induction false} UsageIsLatest(evs: seq<Event>, n: nat)
    requires n <= |evs| && Relay(evs[..n]).0.Running?
    ensures var st := Relay(evs[..n]).0.st;
            && (st.usage.Some? <==> exists i :: LastUsageAt(evs, n, i))
            && (forall i :: LastUsageAt(evs, n, i) ==> st.usage == UsageIn(evs[i]))
            && (st.captured.valid <==> exists i :: LastCountAt(evs, n, i))
            && (forall i :: LastCountAt(evs, n, i) ==> st.captured == evs[i].cacheWriteTokens)
  {
    if n > 0 {
      var m := n - 1;
      UsageStep(evs, m);
      UsageIsLatest(evs, m);
      LatestStep(evs, m);
      hide Relay, LastUsageAt, LastCountAt;
      assert UsageIn(evs[m]).Some? ==> LastUsageAt(evs, n, m);
      assert CountsCacheWrites(evs[m]) ==> LastCountAt(evs, n, m);
    }
  }

  lemma UsageStep(evs: seq<Event>, m: nat)
    requires m < |evs| && Relay(evs[..m + 1]).0.Running?
    ensures var p, q := Relay(evs[..m]).0, Relay(evs[..m + 1]).0;
            && p.Running?
            && q.st.usage == (if UsageIn(evs[m]).Some? then UsageIn(evs[m]) else p.st.usage)
            && q.st.captured == (if CountsCacheWrites(evs[m]) then evs[m].cacheWriteTokens else p.st.captured)
  {
    OneMore(evs, m);
    hide Relay, Rejects, RelayFrame, ReasonAfter;
  }

  lemma LatestStep(evs: seq<Event>, m: nat)
    requires m < |evs|
    ensures forall i :: LastUsageAt(evs, m + 1, i) <==>
                          if UsageIn(evs[m]).Some? then i == m else LastUsageAt(evs, m, i)
    ensures forall i :: LastCountAt(evs, m + 1, i) <==>
                          if CountsCacheWrites(evs[m]) then i == m else LastCountAt(evs, m, i)
  {
    hide UsageIn, CountsCacheWrites;
    forall i
      ensures LastUsageAt(evs, m + 1, i) <==> if UsageIn(evs[m]).Some? then i == m else LastUsageAt(evs, m, i)
      ensures LastCountAt(evs, m + 1, i) <==> if CountsCacheWrites(evs[m]) then i == m else LastCountAt(evs, m, i)
    {
      if 0 <= i < m {
        assert LastUsageAt(evs, m + 1, i) ==> UsageIn(evs[m]).None?;
        assert LastCountAt(evs, m + 1, i) ==> !CountsCacheWrites(evs[m]);
      }
    }
  }
}
