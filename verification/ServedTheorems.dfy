/**
 * What a response tells the client, read off the upstream's events: the content and the
 * tool calls it carries, the usage it reports, and the fault a failing one names.
 */
module ServedTheorems {
  import opened Wrappers
  import opened Commandcode
  import opened Stream
  import opened Chat
  import opened ChatTheorems
  import StreamTheorems
  import Reader
  import ReaderTheorems

  // ---------------------------------------------------------------- content

  /** The deltas of a response carry what these events carry, in order. */
  ghost predicate Carried(out: seq<Frame>, evs: seq<Event>) {
    && ContentOf(out) == TextOf(evs, EventKind.TextDelta) && ReasoningOf(out) == TextOf(evs, EventKind.ReasoningDelta)
    && CallsOf(ToolsOf(out), ToolEvents(evs)) && ToolsNumbered(out)
  }

  /** A message carries what these events carry. */
  ghost predicate Told(m: Message, evs: seq<Event>) {
    var text, thought := TextOf(evs, EventKind.TextDelta), TextOf(evs, EventKind.ReasoningDelta);
    && m.content == (if text == "" then None else Some(text))
    && m.reasoning == (if thought == "" then None else Some(thought))
    && CallsOf(m.toolCalls, ToolEvents(evs))
  }

  lemma RunningCarries(evs: seq<Event>)
    requires Relay(evs).0.Running?
    ensures Carried(Relay(evs).1, evs)
  {
    SameContent(evs);
    SameProgress(evs);
    NothingIsLost(evs);
    hide Relay, Collect, ContentOf, ReasoningOf, ToolsOf, ToolsNumbered, CallsOf;
  }

  lemma TailHasNoDeltas(p: Progress, started: bool, ending: Ending, client: Client)
    ensures forall f :: f in RelayTail(p, started, ending, client) ==> !f.Delta?
  {
    hide CompletionFault, Finalized, Respond, UsageFromUpstream;
  }

  lemma CarriedToTheEnd(written: seq<Frame>, tail: seq<Frame>, evs: seq<Event>)
    requires Carried(written, evs) && forall f :: f in tail ==> !f.Delta?
    ensures Carried(written + tail, evs)
  {
    TailIsSilent(written, tail);
    hide ContentOf, ReasoningOf, ToolsOf, ToolsNumbered, CallsOf, TextOf, ToolEvents;
  }

  lemma StoppingWritesNothing(p: Progress, out: seq<Frame>, ev: Event)
    ensures var (q, more) := RelayEvent(p, out, ev);
            && (q.Stopped? ==> more == out)
            && (p.Stopped? ==> q == p)
  {
    hide Rejects, RelayState, RelayFrame, TrackTools;
  }

  /** How many events are accepted. */
  lemma {:induction false} AcceptedUpTo(evs: seq<Event>) returns (n: nat)
    ensures n <= |evs| && Relay(evs[..n]).0.Running? && Relay(evs).1 == Relay(evs[..n]).1
    ensures n < |evs| ==> Relay(evs[..n + 1]).0.Stopped? && Relay(evs) == Relay(evs[..n + 1])
    ensures n == |evs| <==> Relay(evs).0.Running?
  {
    hide RelayEvent;
    if Relay(evs).0.Running? {
      n := |evs|;
      assert evs[..n] == evs;
    } else {
      var pre := evs[..|evs| - 1];
      n := AcceptedUpTo(pre);
      StoppingWritesNothing(Relay(pre).0, Relay(pre).1, evs[|evs| - 1]);
      assert evs[..|evs|] == evs && pre[..n] == evs[..n];
      if n < |pre| {
        assert pre[..n + 1] == evs[..n + 1];
      }
    }
  }

  /** The text, reasoning and tool calls streamed are those of the accepted events; of all events in a success. */
  lemma DeltasAreTheEvents(evs: seq<Event>, ending: Ending, client: Client) returns (n: nat)
    ensures n <= |evs| && Relay(evs[..n]).0.Running? && (n < |evs| ==> Relay(evs[..n + 1]).0.Stopped?)
    ensures Carried(Streamed(evs, ending, client), evs[..n])
    ensures Succeeds(Streamed(evs, ending, client)) ==> n == |evs|
  {
    n := AcceptedUpTo(evs);
    StreamSucceedsExactly(evs, ending, client);
    CompletesExactly(evs);
    RunningCarries(evs[..n]);
    var (p, written) := Relay(evs);
    TailHasNoDeltas(p, written != [], ending, client);
    hide Carried, Relay, RelayTail, Accepted, Succeeds, FrozenReason, FirstFinishAt, CompletionFault;
    CarriedToTheEnd(written, RelayTail(p, written != [], ending, client), evs[..n]);
  }

  /** An aggregated completion is the text, the reasoning and the tool calls of all events. */
  lemma CompletionIsTheEvents(evs: seq<Event>, ending: Ending, client: Client)
    requires var a := Aggregated(evs, ending, client); |a| == 1 && a[0].Completion?
    ensures Told(Aggregated(evs, ending, client)[0].message, evs)
  {
    CompletionIsCollected(Collect(evs), ending, client);
    NothingIsLost(evs);
    hide Collect, CollectTail, CallsOf, TextOf, ToolEvents;
  }

  lemma CompletionIsCollected(p: Progress, ending: Ending, client: Client)
    requires var a := CollectTail(p, ending, client); |a| == 1 && a[0].Completion?
    ensures p.Running? && ending.Eof? && p.st.terminalSeen && CompletionFault(Finalized(p.st)).None?
    ensures var a := CollectTail(p, ending, client)[0]; var end := Finalized(p.st);
            a == Completion(MessageOf(p.st), end.finishReason, UsageFromUpstream(end.usage))
  {
    hide CompletionFault, Respond, UsageFromUpstream;
  }

  // ---------------------------------------------------------------- usage and cost

  const NOTHING := OpenAIUsage(0, 0, 0, 0, 0)

  /** A usage block shows these counters, or nothing at all for an empty output. */
  predicate Shows(shown: OpenAIUsage, u: Usage) {
    if u.output == 0 then shown == NOTHING
    else
      && shown.prompt == u.input && shown.completion == u.output && shown.total == u.input + u.output
      && shown.cached == u.cachedInput && shown.reasoning == u.reasoning
  }

  /** It shows the usage reported last, and nothing if none was. */
  ghost predicate ShowsLast(shown: OpenAIUsage, evs: seq<Event>) {
    && (forall i :: LastUsageAt(evs, |evs|, i) ==> Shows(shown, UsageIn(evs[i]).value))
    && ((forall i :: !LastUsageAt(evs, |evs|, i)) ==> shown == NOTHING)
  }

  lemma FinalUsageIsShown(st: State)
    ensures UsageFromUpstream(Finalized(st).usage) == UsageFromUpstream(st.usage)
    ensures st.usage.None? ==> UsageFromUpstream(st.usage) == NOTHING
    ensures st.usage.Some? ==> Shows(UsageFromUpstream(st.usage), st.usage.value)
  {
  }

  lemma RunningShows(evs: seq<Event>)
    requires Relay(evs).0.Running?
    ensures ShowsLast(UsageFromUpstream(Finalized(Relay(evs).0.st).usage), evs)
  {
    assert evs[..|evs|] == evs;
    UsageIsLatest(evs, |evs|);
    FinalUsageIsShown(Relay(evs).0.st);
    hide Relay, Finalized, UsageFromUpstream, LastUsageAt, LastCountAt, Shows;
  }

  /** Both handlers report the usage reported last, after the finish or before it. */
  lemma ServedUsage(evs: seq<Event>, ending: Ending, client: Client)
    ensures var s := Streamed(evs, ending, client); Succeeds(s) ==> ShowsLast(s[|s| - 2].usage, evs)
    ensures var a := Aggregated(evs, ending, client); |a| == 1 && a[0].Completion? ==> ShowsLast(a[0].usage, evs)
  {
    StreamSucceedsExactly(evs, ending, client);
    CompletesExactly(evs);
    SameProgress(evs);
    if Relay(evs).0.Running? {
      RunningShows(evs);
    }
    hide Relay, Collect, ShowsLast, Accepted, FrozenReason, FirstFinishAt, SameBook;
    StreamedUsage(evs, ending, client);
    AggregatedUsage(evs, ending, client);
  }

  lemma StreamedUsage(evs: seq<Event>, ending: Ending, client: Client)
    requires Accepted(evs) ==> Relay(evs).0.Running?
    ensures var s := Streamed(evs, ending, client);
            Succeeds(s) ==> Relay(evs).0.Running?
                            && s[|s| - 2].usage == UsageFromUpstream(Finalized(Relay(evs).0.st).usage)
  {
    StreamSucceedsExactly(evs, ending, client);
    CompletesExactly(evs);
    hide Relay, Accepted, FrozenReason, FirstFinishAt, CompletionFault, Finalized, UsageFromUpstream, Respond;
  }

  lemma AggregatedUsage(evs: seq<Event>, ending: Ending, client: Client)
    requires Relay(evs).0.Stopped? == Collect(evs).Stopped? && SameBook(Relay(evs).0.st, Collect(evs).st)
    ensures var a := Aggregated(evs, ending, client);
            |a| == 1 && a[0].Completion? ==>
              Relay(evs).0.Running? && a[0].usage == UsageFromUpstream(Finalized(Relay(evs).0.st).usage)
  {
    hide Relay, Collect, CollectTail, UsageFromUpstream;
    var a := Aggregated(evs, ending, client);
    if |a| == 1 && a[0].Completion? {
      CompletionIsCollected(Collect(evs), ending, client);
    }
  }

  /** Event i is the last of the first n to report a cost; a positive one, if that is asked for. */
  predicate LastCostAt(evs: seq<Event>, n: nat, i: int, positive: bool) {
    && 0 <= i < n <= |evs| && Prices(evs[i], positive)
    && forall j :: i < j < n ==> !Prices(evs[j], positive)
  }

  predicate Prices(ev: Event, positive: bool) {
    (ev.kind.FinishStep? || ev.kind.ProviderMetadata?) && ev.cost.Some? && (positive ==> ev.cost.value > 0.0)
  }

  /** The cost of a response is the positive cost reported last; a reported zero is known to be free. */
  lemma {:induction false} CostIsLatest(evs: seq<Event>, n: nat)
    requires n <= |evs| && Relay(evs[..n]).0.Running?
    ensures var st := Relay(evs[..n]).0.st;
            && (st.costReported <==> exists i :: LastCostAt(evs, n, i, false))
            && (forall i :: LastCostAt(evs, n, i, true) ==> st.costUSD == evs[i].cost.value)
            && ((forall i :: !LastCostAt(evs, n, i, true)) ==> st.costUSD == 0.0)
  {
    if n > 0 {
      var m := n - 1;
      CostStep(evs, m);
      CostIsLatest(evs, m);
      LastCostStep(evs, m, false);
      LastCostStep(evs, m, true);
      hide Relay, LastCostAt;
      assert Prices(evs[m], false) ==> LastCostAt(evs, n, m, false);
      assert Prices(evs[m], true) ==> LastCostAt(evs, n, m, true);
      assert forall i :: !Prices(evs[m], false) ==> (LastCostAt(evs, n, i, false) <==> LastCostAt(evs, m, i, false));
    }
  }

  lemma CostStep(evs: seq<Event>, m: nat)
    requires m < |evs| && Relay(evs[..m + 1]).0.Running?
    ensures var p, q := Relay(evs[..m]).0, Relay(evs[..m + 1]).0;
            && p.Running?
            && (q.st.costReported <==> p.st.costReported || Prices(evs[m], false))
            && q.st.costUSD == if Prices(evs[m], true) then evs[m].cost.value else p.st.costUSD
  {
    OneMore(evs, m);
    hide Relay, Rejects, RelayFrame, ReasonAfter, UsageAfter;
  }

  lemma LastCostStep(evs: seq<Event>, m: nat, positive: bool)
    requires m < |evs|
    ensures forall i :: LastCostAt(evs, m + 1, i, positive) <==>
                          if Prices(evs[m], positive) then i == m else LastCostAt(evs, m, i, positive)
  {
    hide Prices;
    forall i
      ensures LastCostAt(evs, m + 1, i, positive) <==>
                if Prices(evs[m], positive) then i == m else LastCostAt(evs, m, i, positive)
    {
      if 0 <= i < m {
        assert LastCostAt(evs, m + 1, i, positive) ==> !Prices(evs[m], positive);
      }
    }
  }

  /** What a response is accounted for: its last usage, with the last captured cache-write count if it has none. */
  lemma AccountedUsage(evs: seq<Event>)
    requires Relay(evs).0.Running?
    ensures var u := Finalized(Relay(evs).0.st).usage;
            && (forall i, j :: LastUsageAt(evs, |evs|, i) && LastCountAt(evs, |evs|, j) ==>
                  var own := UsageIn(evs[i]).value;
                  u == Some(if own.cacheWrite != 0 then own else own.(cacheWrite := evs[j].cacheWriteTokens.value)))
            && (forall i :: LastUsageAt(evs, |evs|, i) && (forall j :: !LastCountAt(evs, |evs|, j)) ==>
                  u == UsageIn(evs[i]))
            && (forall j :: LastCountAt(evs, |evs|, j) && (forall i :: !LastUsageAt(evs, |evs|, i)) ==>
                  u == Some(Usage(0, 0, 0, 0, evs[j].cacheWriteTokens.value)))
  {
    assert evs[..|evs|] == evs;
    UsageIsLatest(evs, |evs|);
    hide Relay, LastUsageAt, LastCountAt;
  }

  // ---------------------------------------------------------------- faults

  predicate Finished(evs: seq<Event>, n: nat)
    requires n <= |evs|
  {
    exists i :: 0 <= i < n && evs[i].kind.Finish?
  }

  predicate Announces(ev: Event) {
    ev.kind.ToolInputStart? || ev.kind.ToolInputDelta? || ev.kind.ToolInputEnd?
  }

  predicate ShowsOutput(ev: Event) {
    ev.kind.TextDelta? || ev.kind.ReasoningDelta? || ev.kind.ToolCall? || Announces(ev)
  }

  /** A tool input among the first n events has no complete call after it. */
  ghost predicate Unfinished(evs: seq<Event>, n: nat)
    requires n <= |evs|
  {
    exists i :: 0 <= i < n && Announces(evs[i])
                && forall j :: i < j < n ==> !(evs[j].kind.ToolCall? && evs[j].toolCallId == evs[i].id)
  }

  /** The event names a reason of its own. */
  ghost predicate NamesReason(ev: Event) {
    ev.finishReason != "" || StreamTheorems.NamesRefusal(ev.rawFinishReason)
  }

  predicate Ends(ev: Event) {
    ev.kind.Finish? || ev.kind.FinishStep?
  }

  /** Event k, after acceptable ones, raises this fault. */
  ghost predicate Blames(evs: seq<Event>, k: nat, f: Fault)
    requires k < |evs|
  {
    var ev := evs[k];
    match f
    case TerminalMarker(marker) => ev.kind.Error? && ev.marker == Some(marker)
    case Upstream(error) => ev.kind.Error? && ev.marker.None? && ev.apiError == error
    case ContinuedAfterFinish => ShowsOutput(ev) && Finished(evs, k)
    case Aborted => ev.kind.Abort?
    case InvalidFinishReason => Ends(ev) && OpenAIFinishReason(ev).None?
    case EndedWithPendingTool => ev.kind.Finish? && OpenAIFinishReason(ev).Some? && Unfinished(evs, k)
    case ConflictingFinish =>
      && ev.kind.Finish? && OpenAIFinishReason(ev).Some? && !Unfinished(evs, k) && NamesReason(ev)
      && exists j :: FirstFinishAt(evs, j) && j < k && OpenAIFinishReason(ev) != FrozenReason(evs, j)
    case IncompleteToolCall =>
      && !Finished(evs, k)
      && ((Announces(ev) && Blank(ev.id))
          || (ev.kind.ToolCall? && (Blank(ev.toolCallId) || Blank(ev.toolName) || !ev.inputIsObject)))
    case _ => false
  }

  /** What the bookkeeping says about the events so far. */
  ghost predicate Knows(evs: seq<Event>, k: nat, st: State)
    requires k <= |evs|
  {
    && (st.terminalSeen <==> Finished(evs, k)) && (st.pendingTools != {} <==> Unfinished(evs, k))
    && (st.terminalSeen ==> exists j :: FirstFinishAt(evs, j) && j < k && st.finishReason == FrozenReason(evs, j))
  }

  lemma FirstFinishIsOne(evs: seq<Event>, i: int, j: int)
    requires FirstFinishAt(evs, i) && FirstFinishAt(evs, j)
    ensures i == j
  {
  }

  lemma FinishedExactly(evs: seq<Event>, n: nat)
    requires n <= |evs|
    ensures Finished(evs, n) <==> exists j :: FirstFinishAt(evs, j) && j < n
  {
    if i :| 0 <= i < n && evs[i].kind.Finish? {
      FirstFinishExists(evs, i);
    }
  }

  lemma UnfinishedExactly(evs: seq<Event>, n: nat)
    requires n <= |evs|
    ensures Unfinished(evs, n) <==> exists id :: Pending(evs, n, id)
  {
    if i :| 0 <= i < n && Announces(evs[i])
            && forall j :: i < j < n ==> !(evs[j].kind.ToolCall? && evs[j].toolCallId == evs[i].id) {
      assert Pending(evs, n, evs[i].id);
    }
    if id :| Pending(evs, n, id) {
      var i :| 0 <= i < n && IsToolInput(evs[i].kind) && evs[i].id == id && !CompletedBetween(evs, id, i, n);
      assert Announces(evs[i]);
    }
  }

  lemma BooksKnow(evs: seq<Event>, k: nat)
    requires k <= |evs| && Relay(evs[..k]).0.Running?
    ensures Knows(evs, k, Relay(evs[..k]).0.st)
  {
    RunningExactly(evs, k);
    FinishedExactly(evs, k);
    UnfinishedExactly(evs, k);
    hide Relay, Finished, Unfinished, Pending, FirstFinishAt, FrozenReason, PrefixOk;
    var st := Relay(evs[..k]).0.st;
    if st.pendingTools != {} {
      var id :| id in st.pendingTools;
      assert Pending(evs, k, id);
    }
  }

  lemma OwnReason(ev: Event)
    ensures Explicit(ev) <==> NamesReason(ev)
  {
    StreamTheorems.FinishReasons(ev);
    StreamTheorems.RefusalExactly(ev.finishReason);
    hide OpenAIFinishReason, StreamTheorems.NamesRefusal;
    assert ev.finishReason == "" ==> TrimSpace("") == "" && ToLower("") == "";
  }

  /** Whether the books let the event conflict with the reason the first finish froze. */
  lemma ConflictExactly(evs: seq<Event>, k: nat, st: State)
    requires k < |evs| && Knows(evs, k, st)
    ensures (exists j :: FirstFinishAt(evs, j) && j < k && OpenAIFinishReason(evs[k]) != FrozenReason(evs, j)) <==>
              st.terminalSeen && OpenAIFinishReason(evs[k]) != st.finishReason
  {
    if st.terminalSeen {
      var j :| FirstFinishAt(evs, j) && j < k && st.finishReason == FrozenReason(evs, j);
      forall i | FirstFinishAt(evs, i)
        ensures i == j
      {
        FirstFinishIsOne(evs, i, j);
      }
    } else {
      FinishedExactly(evs, k);
    }
    hide OpenAIFinishReason, FirstFinishAt, FrozenReason, Finished, Unfinished;
  }

  lemma FinishNames(evs: seq<Event>, k: nat, st: State, f: Fault)
    requires k < |evs| && Knows(evs, k, st) && evs[k].kind.Finish?
    ensures Rejects(st, evs[k]) == Some(f) <==> Blames(evs, k, f)
  {
    OwnReason(evs[k]);
    ConflictExactly(evs, k, st);
    hide OpenAIFinishReason, NamesReason, FirstFinishAt, FrozenReason, Finished, Unfinished, Blank, Explicit;
  }

  lemma StepNames(evs: seq<Event>, k: nat, st: State, f: Fault)
    requires k < |evs| && evs[k].kind.FinishStep?
    ensures Rejects(st, evs[k]) == Some(f) <==> Blames(evs, k, f)
  {
    hide OpenAIFinishReason, NamesReason, FirstFinishAt, FrozenReason, Finished, Unfinished, Blank, Explicit;
  }

  lemma OtherNames(evs: seq<Event>, k: nat, st: State, f: Fault)
    requires k < |evs| && Knows(evs, k, st) && !Ends(evs[k])
    ensures Rejects(st, evs[k]) == Some(f) <==> Blames(evs, k, f)
  {
    hide OpenAIFinishReason, NamesReason, FirstFinishAt, FrozenReason, Finished, Unfinished, Blank, Explicit;
  }

  /** Given the books, the fault an event raises is the one its place in the stream explains. */
  lemma RejectsNames(evs: seq<Event>, k: nat, st: State, f: Fault)
    requires k < |evs| && Knows(evs, k, st)
    ensures Rejects(st, evs[k]) == Some(f) <==> Blames(evs, k, f)
  {
    assert Ends(evs[k]) <==> evs[k].kind.Finish? || evs[k].kind.FinishStep?;
    hide *;
    if evs[k].kind.Finish? {
      FinishNames(evs, k, st, f);
    } else if evs[k].kind.FinishStep? {
      StepNames(evs, k, st, f);
    } else {
      OtherNames(evs, k, st, f);
    }
  }

  /** After acceptable events, the next one stops the stream with a fault exactly if that is the one to blame it for. */
  lemma FaultExactly(evs: seq<Event>, k: nat, f: Fault)
    requires k < |evs| && PrefixOk(evs, k)
    ensures Relay(evs[..k]).0.Running?
    ensures var q := Relay(evs[..k + 1]).0; q.Stopped? && q.fault == f <==> Blames(evs, k, f)
  {
    RunningExactly(evs, k);
    BooksKnow(evs, k);
    RejectsNames(evs, k, Relay(evs[..k]).0.st, f);
    OneMore(evs, k);
    hide Relay, Rejects, Blames, Knows, RelayState, RelayFrame, TrackTools, PrefixOk;
  }

  /** The first unacceptable event raises this fault. */
  ghost predicate Blamed(evs: seq<Event>, f: Fault) {
    exists k :: 0 <= k < |evs| && PrefixOk(evs, k) && Blames(evs, k, f)
  }

  /** A cleanly ended stream of acceptable events lacks something a response needs. */
  ghost predicate Lacks(evs: seq<Event>, f: Fault) {
    match f
    case Truncated => !Finished(evs, |evs|)
    case NoCompleteToolCall =>
      && !HasToolCall(evs, |evs|)
      && exists j :: FirstFinishAt(evs, j) && FrozenReason(evs, j) == Some(ToolCalls)
    case NoOutput =>
      && !HasToolCall(evs, |evs|) && !HasVisibleText(evs, |evs|)
      && exists j :: FirstFinishAt(evs, j) && FrozenReason(evs, j) == Some(Stop)
    case _ => false
  }

  /** Reading the body failed in this way. */
  predicate FailsToRead(ending: Ending, f: Fault) {
    match f
    case MalformedEvent => ending == ReadFailed(Malformed)
    case IdleTimeout => ending == ReadFailed(Idle)
    case NetworkTimeout => ending == ReadFailed(Timeout)
    case ConnectionInterrupted => ending == ReadFailed(Connection)
    case _ => false
  }

  /** Why a response fails: an event, the way reading ended, or what the whole stream lacks. */
  ghost predicate FailsWith(evs: seq<Event>, ending: Ending, f: Fault) {
    || Blamed(evs, f)
    || (PrefixOk(evs, |evs|) && (FailsToRead(ending, f) || (ending.Eof? && Lacks(evs, f))))
  }

  /** An acceptable finished stream has no tool call outstanding. */
  lemma NothingUnfinished(evs: seq<Event>)
    requires PrefixOk(evs, |evs|) && Finished(evs, |evs|)
    ensures !Unfinished(evs, |evs|)
  {
    FinishedExactly(evs, |evs|);
    var k :| FirstFinishAt(evs, k) && k < |evs|;
    NothingPendingAfterFinish(evs, |evs|, k);
    UnfinishedExactly(evs, |evs|);
  }

  /** What the bookkeeping says at the end of an acceptable stream. */
  ghost predicate KnowsAll(evs: seq<Event>, st: State) {
    && (st.terminalSeen <==> Finished(evs, |evs|))
    && (st.hasText <==> HasVisibleText(evs, |evs|)) && (st.hasTool <==> HasToolCall(evs, |evs|))
    && (st.terminalSeen ==>
          && st.pendingTools == {} && st.finishReason.Some?
          && exists j :: FirstFinishAt(evs, j) && st.finishReason == FrozenReason(evs, j))
  }

  lemma BooksKnowAll(evs: seq<Event>)
    requires PrefixOk(evs, |evs|)
    ensures Relay(evs).0.Running? && KnowsAll(evs, Relay(evs).0.st)
  {
    assert evs[..|evs|] == evs;
    RunningExactly(evs, |evs|);
    BooksKnow(evs, |evs|);
    FinishedExactly(evs, |evs|);
    if Finished(evs, |evs|) {
      NothingUnfinished(evs);
      var j :| FirstFinishAt(evs, j) && j < |evs|;
      FrozenIsKnown(evs, j);
    }
    hide Relay, PrefixOk, Finished, Unfinished, FrozenReason, HasToolCall, HasVisibleText, Pending, StepReason,
         FirstFinishAt;
  }

  lemma LackFromBooks(evs: seq<Event>, st: State, f: Fault)
    requires KnowsAll(evs, st)
    ensures (if !st.terminalSeen then Some(Truncated) else CompletionFault(Finalized(st))) == Some(f) <==> Lacks(evs, f)
  {
    FinalizedKeeps(st);
    FinishedExactly(evs, |evs|);
    assert forall j :: FirstFinishAt(evs, j) ==> j < |evs|;
    if st.terminalSeen {
      var j :| FirstFinishAt(evs, j) && st.finishReason == FrozenReason(evs, j);
      forall i | FirstFinishAt(evs, i)
        ensures i == j
      {
        FirstFinishIsOne(evs, i, j);
      }
    }
    hide Finished, FrozenReason, HasToolCall, HasVisibleText, Finalized, FirstFinishAt;
    var r := st.finishReason;
    assert r.Some? ==> r.value.Stop? || r.value.ToolCalls? || r.value.Length? || r.value.ContentFilter?;
    assert st.terminalSeen ==> (r == Some(Stop) <==>
             exists j :: FirstFinishAt(evs, j) && FrozenReason(evs, j) == Some(Stop));
  }

  lemma FinalizedKeeps(st: State)
    ensures Finalized(st) == st.(usage := Finalized(st).usage)
  {
  }

  /** A fault to be blamed on some event stops the stream. */
  lemma BlamedStops(evs: seq<Event>, k: nat, f: Fault)
    requires k < |evs| && PrefixOk(evs, k) && Blames(evs, k, f)
    ensures Relay(evs).0.Stopped? && Relay(evs).0.fault == f
  {
    FaultExactly(evs, k, f);
    hide Relay, PrefixOk, Blames;
    RelayStopped(evs, k + 1);
  }

  /** A stream that stops does so at an event to be blamed, after acceptable ones. */
  lemma StopsAt(evs: seq<Event>) returns (k: nat)
    requires Relay(evs).0.Stopped?
    ensures k < |evs| && PrefixOk(evs, k) && Blames(evs, k, Relay(evs).0.fault)
  {
    k := AcceptedUpTo(evs);
    RunningExactly(evs, k);
    hide Relay, PrefixOk, Blames, Describes;
    FaultExactly(evs, k, Relay(evs).0.fault);
  }

  lemma BlamedExactly(evs: seq<Event>, f: Fault)
    ensures Relay(evs).0.Stopped? && Relay(evs).0.fault == f <==> Blamed(evs, f)
  {
    hide Relay, PrefixOk, Blames;
    if Relay(evs).0.Stopped? {
      var k := StopsAt(evs);
    }
    if Blamed(evs, f) {
      var k :| 0 <= k < |evs| && PrefixOk(evs, k) && Blames(evs, k, f);
      BlamedStops(evs, k, f);
    }
  }

  lemma RunsExactly(evs: seq<Event>)
    ensures Relay(evs).0.Running? <==> PrefixOk(evs, |evs|)
  {
    assert evs[..|evs|] == evs;
    RunningExactly(evs, |evs|);
    hide Relay, PrefixOk, Describes;
  }

  lemma FaultOfExactly(evs: seq<Event>, ending: Ending, f: Fault)
    ensures FaultOf(Relay(evs).0, ending) == Some(f) <==> FailsWith(evs, ending, f)
  {
    BlamedExactly(evs, f);
    RunsExactly(evs);
    if PrefixOk(evs, |evs|) {
      BooksKnowAll(evs);
      LackFromBooks(evs, Relay(evs).0.st, f);
    }
    ReadsExactly(ending, f);
    hide Relay, PrefixOk, Blamed, Lacks, KnowsAll, CompletionFault, Finalized, FailsToRead, ReadFault;
  }

  lemma ReadsExactly(ending: Ending, f: Fault)
    ensures FailsToRead(ending, f) <==> ending.ReadFailed? && ReadFault(ending.error) == f
  {
  }

  /** A client that stays is told exactly the fault the events and the ending explain. */
  lemma ReportedFaultExactly(evs: seq<Event>, ending: Ending, f: Fault)
    ensures ReportedFault(Streamed(evs, ending, Client(false, false))) == Some(f) <==> FailsWith(evs, ending, f)
  {
    FaultOfExactly(evs, ending, f);
    RelayWritesDeltas(evs);
    StoppedFaults(evs);
    var (p, written) := Relay(evs);
    WithheldExactly(p, written != [], ending, Client(false, false));
    hide Relay, RelayTail, FaultOf, FailsWith, FailureFrames, Deltas;
    FaultIsRead(written, RelayTail(p, written != [], ending, Client(false, false)), FaultOf(p, ending));
  }

  lemma FaultIsRead(written: seq<Frame>, tail: seq<Frame>, fault: Option<Fault>)
    requires Deltas(written)
    requires fault.None? ==> |tail| == 2 && tail[0].FinishChunk? && tail[1].Done?
    requires fault.Some? ==> tail == FailureFrames(written != [], fault.value)
    ensures ReportedFault(written + tail) == fault
  {
    var s := written + tail;
    if fault.Some? {
      FailureIsRead(written, fault.value);
    } else {
      assert s[|s| - 2] == tail[0] && s[|s| - 1] == tail[1];
    }
  }

  // ---------------------------------------------------------------- what a failing response says

  predicate Says(r: ErrorResponse, status: int, typ: string, code: string, retryAfter: nat) {
    r.status == status && r.body.typ == typ && r.body.code == code && r.retryAfter == retryAfter
  }

  /** The attributes an upstream error is classified by, the more specific first. */
  function Attributes(e: ApiError): seq<bool> {
    [e.requestTooLarge, e.zdrUnavailable, e.spendCapExceeded, e.insufficientCredits, e.rateLimited,
     e.modelNotInPlan, e.modelNotRecognized]
  }

  predicate FirstAttribute(e: ApiError, i: nat) {
    i < 7 && Attributes(e)[i] && forall j :: 0 <= j < i ==> !Attributes(e)[j]
  }

  /** The answer to an upstream error with this first attribute. */
  predicate AnswersAttribute(i: nat, r: ErrorResponse) {
    match i
    case 0 => Says(r, 413, "invalid_request_error", "upstream_request_too_large", 0)
    case 1 => Says(r, 403, "zdr_error", "CMD_ZDR_NO_PROVIDERS", 0)
    case 2 => Says(r, 403, "spend_limit_error", "USAGE_EXCEEDED", 0)
    case 3 => Says(r, 402, "billing_error", "", 0)
    case 4 => Says(r, 429, "rate_limit_error", "", 10)
    case 5 => Says(r, 403, "plan_error", "", 0)
    case _ => Says(r, 404, "invalid_request_error", "", 0)
  }

  /** The answer to one without any: a rejected key is the proxy's problem, a server error stays one. */
  predicate AnswersStatus(status: int, r: ErrorResponse) {
    if status == 401 || status == 403 then Says(r, 502, "upstream_auth_error", "", 0)
    else if 500 <= status <= 599 then Says(r, status, "server_error", "", 10)
    else Says(r, 502, "upstream_error", "", 0)
  }

  ghost predicate AnswersUpstream(e: ApiError, r: ErrorResponse) {
    && (forall i :: FirstAttribute(e, i) ==> AnswersAttribute(i, r))
    && ((forall i :: !FirstAttribute(e, i)) ==> AnswersStatus(e.status, r))
    && (e.requestTooLarge || EndsWith(r.body.message, e.message))
  }

  predicate EndsWith(s: string, end: string) {
    |s| >= |end| && s[|s| - |end|..] == end
  }

  /** How a fault is answered. */
  ghost predicate Answers(f: Fault, r: ErrorResponse) {
    match f
    case TerminalMarker(PremiumCreditsExhausted) => Says(r, 402, "billing_error", "", 0)
    case TerminalMarker(ModelNotInPlan) => Says(r, 403, "plan_error", "", 0)
    case TerminalMarker(InsufficientCredits) => Says(r, 402, "billing_error", "", 0)
    case Upstream(e) => AnswersUpstream(e, r)
    case ContinuedAfterFinish => Says(r, 502, "server_error", "upstream_invalid_sequence", 0)
    case Aborted => Says(r, 502, "server_error", "upstream_aborted", 0)
    case InvalidFinishReason | ConflictingFinish => Says(r, 502, "server_error", "upstream_invalid_finish", 0)
    case EndedWithPendingTool | IncompleteToolCall | NoCompleteToolCall =>
      Says(r, 502, "server_error", "upstream_invalid_tool_call", 0)
    case NoOutput => Says(r, 502, "server_error", "upstream_incomplete_response", 0)
    case Truncated => Says(r, 502, "server_error", "upstream_truncated", 0)
    case MalformedEvent => Says(r, 502, "server_error", "upstream_malformed_event", 0)
    case IdleTimeout => Says(r, 504, "server_error", "upstream_idle_timeout", 0)
    case NetworkTimeout => Says(r, 504, "server_error", "upstream_timeout", 0)
    case ConnectionInterrupted => Says(r, 502, "server_error", "upstream_connection_error", 0)
    case EmptyResponse => Says(r, 429, "rate_limit_error", "", 10)
  }

  lemma EarlyAttributeAnswer(e: ApiError, i: nat)
    requires FirstAttribute(e, i) && i <= 2
    ensures AnswersAttribute(i, ClassifyUpstreamError(e))
  {
    var a := Attributes(e);
    assert i > 0 ==> !a[0];
    assert i > 1 ==> !a[1];
  }

  lemma LateAttributeAnswer(e: ApiError, i: nat)
    requires FirstAttribute(e, i) && i > 2
    ensures AnswersAttribute(i, ClassifyUpstreamError(e))
  {
    var a := Attributes(e);
    assert !a[0] && !a[1] && !a[2];
    assert i > 3 ==> !a[3];
    assert i > 4 ==> !a[4];
    assert i > 5 ==> !a[5];
  }

  lemma AttributeAnswer(e: ApiError, i: nat)
    requires FirstAttribute(e, i)
    ensures AnswersAttribute(i, ClassifyUpstreamError(e))
  {
    hide *;
    if i <= 2 {
      EarlyAttributeAnswer(e, i);
    } else {
      LateAttributeAnswer(e, i);
    }
  }

  /** Some attribute is the first, unless none is set. */
  lemma NoAttribute(e: ApiError)
    requires forall i :: !FirstAttribute(e, i)
    ensures forall i :: 0 <= i < 7 ==> !Attributes(e)[i]
  {
    forall i | 0 <= i < 7
      ensures !Attributes(e)[i]
    {
      NotEarlier(e, i);
    }
  }

  lemma {:induction false} NotEarlier(e: ApiError, i: nat)
    requires i < 7 && forall k :: !FirstAttribute(e, k)
    ensures forall j :: 0 <= j <= i ==> !Attributes(e)[j]
  {
    if i > 0 {
      NotEarlier(e, i - 1);
    }
    assert !FirstAttribute(e, i);
  }

  lemma StatusAnswer(e: ApiError)
    requires forall i :: 0 <= i < 7 ==> !Attributes(e)[i]
    ensures AnswersStatus(e.status, ClassifyUpstreamError(e))
  {
    var a := Attributes(e);
    assert !a[0] && !a[1] && !a[2] && !a[3] && !a[4] && !a[5] && !a[6];
  }

  lemma MessageIsPassedOn(e: ApiError)
    ensures e.requestTooLarge || EndsWith(ClassifyUpstreamError(e).body.message, e.message)
  {
    assert "" + e.message == e.message;
    forall before: string
      ensures EndsWith(before + e.message, e.message)
    {
    }
    hide EndsWith;
  }

  lemma UpstreamAnswer(e: ApiError)
    ensures AnswersUpstream(e, ClassifyUpstreamError(e))
  {
    forall i | FirstAttribute(e, i)
      ensures AnswersAttribute(i, ClassifyUpstreamError(e))
    {
      AttributeAnswer(e, i);
    }
    if forall i :: !FirstAttribute(e, i) {
      NoAttribute(e);
      StatusAnswer(e);
    }
    MessageIsPassedOn(e);
    hide ClassifyUpstreamError, FirstAttribute, AnswersAttribute, AnswersStatus;
  }

  lemma MarkerAnswer(m: Marker)
    ensures Answers(TerminalMarker(m), Respond(TerminalMarker(m)))
  {
  }

  /** The faults of an upstream that breaks the protocol. */
  predicate OfProtocol(f: Fault) {
    || f.ContinuedAfterFinish? || f.Aborted? || f.InvalidFinishReason? || f.ConflictingFinish?
    || f.EndedWithPendingTool? || f.IncompleteToolCall?
  }

  lemma ProtocolAnswer(f: Fault)
    requires OfProtocol(f)
    ensures Answers(f, Respond(f))
  {
  }

  lemma EndingAnswer(f: Fault)
    requires !OfProtocol(f) && !InBand(f)
    ensures Answers(f, Respond(f))
  {
  }

  lemma FaultAnswer(f: Fault)
    ensures Answers(f, Respond(f))
  {
    match f {
      case Upstream(e) =>
        UpstreamAnswer(e);
        hide AnswersUpstream, ClassifyUpstreamError;
      case TerminalMarker(m) =>
        hide *;
        MarkerAnswer(m);
      case _ =>
        if OfProtocol(f) {
          ProtocolAnswer(f);
        } else {
          EndingAnswer(f);
        }
        hide *;
    }
  }

  /** What tells most error bodies apart: how long their messages and codes are. */
  function Lengths(b: ErrorBody): (nat, nat) {
    (|b.message|, |b.code|)
  }

  lemma SequenceLengths(f: Fault)
    requires f.ContinuedAfterFinish? || f.Aborted? || f.InvalidFinishReason?
    ensures Lengths(Respond(f).body) ==
              if f.ContinuedAfterFinish? then (50, 25) else if f.Aborted? then (47, 16) else (46, 23)
  {
  }

  lemma ToolLengths(f: Fault)
    requires f.ConflictingFinish? || f.EndedWithPendingTool? || f.IncompleteToolCall?
    ensures Lengths(Respond(f).body) ==
              if f.ConflictingFinish? then (47, 23) else if f.EndedWithPendingTool? then (52, 26) else (50, 26)
  {
  }

  lemma ReadingLengths(f: Fault)
    requires f.MalformedEvent? || f.IdleTimeout?
    ensures Lengths(Respond(f).body) == if f.MalformedEvent? then (53, 24) else (53, 21)
  {
  }

  lemma NetworkLengths(f: Fault)
    requires f.NetworkTimeout? || f.ConnectionInterrupted?
    ensures Lengths(Respond(f).body) == if f.NetworkTimeout? then (26, 16) else (40, 25)
  {
  }

  lemma CompletionLengths(f: Fault)
    requires f.NoCompleteToolCall? || f.NoOutput?
    ensures Lengths(Respond(f).body) == if f.NoCompleteToolCall? then (52, 26) else (60, 28)
  {
  }

  lemma EmptyLengths(f: Fault)
    requires f.Truncated? || f.EmptyResponse?
    ensures Lengths(Respond(f).body) == if f.Truncated? then (67, 18) else (49, 0)
  {
  }

  lemma ToolMessagesDiffer()
    ensures Respond(EndedWithPendingTool).body.message != Respond(NoCompleteToolCall).body.message
  {
    var with, without := Respond(EndedWithPendingTool).body.message, Respond(NoCompleteToolCall).body.message;
    assert with[28] == ' ' && without[28] == 'o';
  }

  lemma LengthsOf(f: Fault)
    requires !InBand(f)
    ensures Lengths(Respond(f).body) ==
              match f
              case ContinuedAfterFinish => (50, 25)
              case Aborted => (47, 16)
              case InvalidFinishReason => (46, 23)
              case ConflictingFinish => (47, 23)
              case EndedWithPendingTool => (52, 26)
              case IncompleteToolCall => (50, 26)
              case MalformedEvent => (53, 24)
              case IdleTimeout => (53, 21)
              case NetworkTimeout => (26, 16)
              case ConnectionInterrupted => (40, 25)
              case NoCompleteToolCall => (52, 26)
              case NoOutput => (60, 28)
              case Truncated => (67, 18)
              case _ => (49, 0)
  {
    hide Respond, Lengths;
    if f.ContinuedAfterFinish? || f.Aborted? || f.InvalidFinishReason? {
      SequenceLengths(f);
    } else if f.ConflictingFinish? || f.EndedWithPendingTool? || f.IncompleteToolCall? {
      ToolLengths(f);
    } else if f.MalformedEvent? || f.IdleTimeout? {
      ReadingLengths(f);
    } else if f.NetworkTimeout? || f.ConnectionInterrupted? {
      NetworkLengths(f);
    } else if f.NoCompleteToolCall? || f.NoOutput? {
      CompletionLengths(f);
    } else {
      EmptyLengths(f);
    }
  }

  /** The faults the proxy finds itself are told apart by what the client reads. */
  lemma FaultsAreToldApart(f: Fault, g: Fault)
    requires !InBand(f) && !InBand(g) && Respond(f).body == Respond(g).body
    ensures f == g
  {
    hide Respond;
    LengthsOf(f);
    LengthsOf(g);
    ToolMessagesDiffer();
  }

  /** A client that stays reads the answer to the fault that explains the failure, whichever handler serves it. */
  lemma AnswerIsRead(evs: seq<Event>, ending: Ending, f: Fault) returns (r: ErrorResponse)
    requires FailsWith(evs, ending, f)
    ensures Answers(f, r)
    ensures var s := Streamed(evs, ending, Client(false, false));
            ReportedBody(s) == Some(r.body) && (|s| == 1 ==> s[0].JsonError? && s[0].response == r)
    ensures Aggregated(evs, ending, Client(false, false)) == [JsonError(f, r)]
  {
    hide *;
    r := Respond(f);
    FaultAnswer(f);
    FaultOfExactly(evs, ending, f);
    var (p, written) := Relay(evs);
    FailsTogether(evs, ending, f);
    FailureFacts(written, f);
  }

  lemma FailsTogether(evs: seq<Event>, ending: Ending, f: Fault)
    requires FaultOf(Relay(evs).0, ending) == Some(f)
    ensures Streamed(evs, ending, Client(false, false)) == Relay(evs).1 + FailureFrames(Relay(evs).1 != [], f)
    ensures Deltas(Relay(evs).1)
    ensures Aggregated(evs, ending, Client(false, false)) == [JsonFailure(f)]
  {
    RelayWritesDeltas(evs);
    StoppedFaults(evs);
    SameProgress(evs);
    var (p, written) := Relay(evs);
    var client := Client(false, false);
    hide Relay, Collect, RelayTail, CollectTail, FaultOf, Deltas, FailureFrames, EndsMatch, MessageOf, SameBook,
         JsonFailure;
    WithheldExactly(p, written != [], ending, client);
    EndTogether(p, Collect(evs), written != [], ending, client);
    OneAnswer(RelayTail(p, written != [], ending, client), written != [], Aggregated(evs, ending, client)[0],
              MessageOf(Collect(evs).st), f);
  }

  lemma FailureFacts(written: seq<Frame>, f: Fault)
    requires Deltas(written)
    ensures var s := written + FailureFrames(written != [], f);
            ReportedBody(s) == Some(Respond(f).body) && (|s| == 1 ==> s[0] == JsonError(f, Respond(f)))
    ensures JsonFailure(f) == JsonError(f, Respond(f))
  {
    FailureIsRead(written, f);
    FailureShape(written, f);
    hide Respond;
  }

  lemma OneAnswer(tail: seq<Frame>, started: bool, a: Frame, message: Message, f: Fault)
    requires EndsMatch(tail, started, a, message) && tail == FailureFrames(started, f)
    ensures a == JsonFailure(f)
  {
    hide Respond;
    assert tail[0].fault == f;
  }

  lemma FailureShape(written: seq<Frame>, f: Fault)
    ensures var s := written + FailureFrames(written != [], f);
            |s| == 1 ==> s[0] == JsonFailure(f)
  {
    hide Respond;
  }

  // ---------------------------------------------------------------- from the upstream's bytes

  /** A body of lines that carry these events or nothing is served as the events and the way the body ends. */
  lemma TranscriptIsServed(c: Reader.Codec, lines: seq<Reader.Bytes>, found: seq<Option<Event>>, end: Reader.IoEnd,
                           kind: int -> ReadError, client: Client)
    requires ReaderTheorems.Transcript(c, lines, found) && c.trim([]) == []
    ensures StreamedFor(c, ReaderTheorems.Terminated(lines), end, kind, client) ==
              Streamed(ReaderTheorems.Present(found), if end.Eof? then Eof else ReadFailed(kind(end.cause)), client)
  {
    ReaderTheorems.TranscriptIsRead(c, lines, found, [], end);
    hide ReaderTheorems.Transcript, ReaderTheorems.Terminated, ReaderTheorems.Present, Reader.Rest, Streamed;
    assert ReaderTheorems.Terminated(lines) + [] == ReaderTheorems.Terminated(lines);
  }

  /** A corrupt tool or terminal event fails the response as malformed, whatever follows it. */
  lemma CorruptLineIsServed(c: Reader.Codec, lines: seq<Reader.Bytes>, found: seq<Option<Event>>, bad: Reader.Bytes,
                            valid: bool, rest: Reader.Bytes, end: Reader.IoEnd, kind: int -> ReadError, client: Client)
    requires ReaderTheorems.Transcript(c, lines, found) && 10 !in bad
    requires ReaderTheorems.Corrupt(c, bad + [10], valid)
    ensures StreamedFor(c, ReaderTheorems.Terminated(lines) + (bad + [10] + rest), end, kind, client) ==
              Streamed(ReaderTheorems.Present(found), ReadFailed(Malformed), client)
  {
    ReaderTheorems.CorruptLineStops(c, lines, found, bad, valid, rest, end);
    hide ReaderTheorems.Transcript, ReaderTheorems.Terminated, ReaderTheorems.Present, Reader.Rest, Streamed;
  }
}
