/**
 * The upstream idle watchdog (proxy/internal/server/chat_idle.go).  One timer is
 * reused; stopping or resetting it cannot retract a callback already scheduled, so
 * stale callbacks may run at any time.  The clock is read once per critical section.
 */
module ChatIdle {
  import opened Wrappers

  datatype Timer = Unset | Stopped | Armed(at: int)

  /** Why the watched context ended. */
  datatype Cause = IdleTimeout | Closed | Parent(reason: int)

  datatype Watch = Watch(idle: int, waiting: bool, closed: bool, deadline: int, timer: Timer, cause: Option<Cause>)

  function Fresh(idle: int): Watch {
    Watch(idle, false, false, 0, Unset, None)
  }

  function StopTimer(t: Timer): Timer {
    if t.Armed? then Stopped else t
  }

  function Begin(w: Watch, now: int): Watch {
    if w.closed || w.cause.Some? then w
    else w.(waiting := true, deadline := now + w.idle, timer := Armed(now + w.idle))
  }

  /** A timer callback: it rechecks the current deadline before canceling. */
  function Expire(w: Watch, now: int): Watch {
    if w.closed || !w.waiting || w.cause.Some? then w
    else if w.deadline > now then w.(timer := Armed(now + (w.deadline - now)))
    else w.(waiting := false, cause := Some(IdleTimeout))
  }

  function End(w: Watch): Watch {
    w.(waiting := false, timer := StopTimer(w.timer))
  }

  function Close(w: Watch): Watch {
    w.(closed := true, waiting := false, timer := StopTimer(w.timer),
       cause := if w.cause.None? then Some(Closed) else w.cause)
  }

  /** The context the watched one derives from ends. */
  function EndParent(w: Watch, reason: int): Watch {
    if w.cause.None? then w.(cause := Some(Parent(reason))) else w
  }

  /** What may happen while a read is under way: a timer callback, or the end of the parent context. */
  datatype Event = Callback(at: int) | ParentEnding(reason: int)

  function Happen(w: Watch, e: Event): Watch {
    match e
    case Callback(at) => Expire(w, at)
    case ParentEnding(reason) => EndParent(w, reason)
  }

  /** The error of an I/O operation: the cause of the watched context wins over the I/O error. */
  datatype IoError = Canceled(cause: Cause) | Io(code: int)

  /** One read of the underlying body: bytes read, and an error. */
  datatype Chunk = Chunk(n: nat, err: Option<IoError>)

  class Watchdog {
    const idle: int
    var waiting: bool
    var closed: bool
    var deadline: int
    var timer: Timer
    var cause: Option<Cause>

    ghost function View(): Watch
      reads this
    {
      Watch(idle, waiting, closed, deadline, timer, cause)
    }

    constructor (idle: int)
      ensures View() == Fresh(idle)
    {
      this.idle := idle;
      waiting, closed, deadline, timer, cause := false, false, 0, Unset, None;
    }

    method BeginWait(now: int)
      modifies this`waiting, this`deadline, this`timer
      ensures View() == Begin(old(View()), now)
    {
      if closed || cause.Some? {
        return;
      }
      waiting := true;
      deadline := now + idle;
      timer := Armed(now + idle);
    }

    method OnTimer(now: int)
      modifies this`waiting, this`timer, this`cause
      ensures View() == Expire(old(View()), now)
    {
      if closed || !waiting || cause.Some? {
        return;
      }
      var remaining := deadline - now;
      if remaining > 0 {
        timer := Armed(now + remaining);
        return;
      }
      waiting := false;
      cause := Some(IdleTimeout);
    }

    method EndWait(err: Option<IoError>) returns (result: Option<IoError>)
      modifies this`waiting, this`timer
      ensures View() == End(old(View()))
      ensures result == if cause.Some? then Some(Canceled(cause.value)) else err
    {
      waiting := false;
      if timer.Armed? {
        timer := Stopped;
      }
      result := if cause.Some? then Some(Canceled(cause.value)) else err;
    }

    method CloseWatch()
      modifies this`waiting, this`closed, this`timer, this`cause
      ensures View() == Close(old(View()))
    {
      closed := true;
      waiting := false;
      if timer.Armed? {
        timer := Stopped;
      }
      if cause.None? {
        cause := Some(Closed);
      }
    }

    method ParentEnds(reason: int)
      modifies this`cause
      ensures View() == EndParent(old(View()), reason)
    {
      if cause.None? {
        cause := Some(Parent(reason));
      }
    }

    method RunEvents(events: seq<Event>)
      modifies this`waiting, this`timer, this`cause
      ensures View() == HappenAll(old(View()), events)
    {
      var i := 0;
      while i < |events|
        invariant 0 <= i <= |events|
        invariant View() == HappenAll(old(View()), events[..i])
      {
        assert events[..i + 1][..i] == events[..i];
        match events[i] {
          case Callback(at) => OnTimer(at);
          case ParentEnding(reason) => ParentEnds(reason);
        }
        i := i + 1;
      }
      assert events[..i] == events;
    }

    /**
     * chatIdleReader.Read with a non-empty buffer: chunks are what the body's reads return
     * in order. Callbacks, stale or not, may run and the parent context may end at any time:
     * events(2i) before the i-th look at the context, events(2i+1) while the i-th read of
     * the body is blocked. finished is false when the body has nothing further to return yet.
     */
    method Read(now: int, chunks: seq<Chunk>, events: nat -> seq<Event>)
      returns (n: nat, err: Option<IoError>, finished: bool)
      modifies this
      ensures var w := WhileReading(Begin(old(View()), now), chunks, events, 0);
              View() == if finished then End(w) else w
      ensures finished ==> (n, err) == ReadResult(Begin(old(View()), now), chunks, events, 0)
      ensures finished <==> Concludes(Begin(old(View()), now), chunks, events, 0)
    {
      BeginWait(now);
      ghost var begun := View();
      var i := 0;
      while true
        invariant 0 <= i <= |chunks|
        invariant WhileReading(View(), chunks, events, i) == WhileReading(begun, chunks, events, 0)
        invariant ReadResult(View(), chunks, events, i) == ReadResult(begun, chunks, events, 0)
        invariant Concludes(View(), chunks, events, i) <==> Concludes(begun, chunks, events, 0)
        decreases |chunks| - i
      {
        RunEvents(events(2 * i));
        if cause.Some? {
          err := EndWait(Some(Canceled(cause.value)));
          return 0, err, true;
        }
        RunEvents(events(2 * i + 1));
        if i == |chunks| {
          return 0, None, false;
        }
        var c := chunks[i];
        if c.n != 0 || c.err.Some? {
          err := EndWait(c.err);
          return c.n, err, true;
        }
        i := i + 1;
      }
    }
  }

  function HappenAll(w: Watch, events: seq<Event>): Watch {
    if events == [] then w else Happen(HappenAll(w, events[..|events| - 1]), events[|events| - 1])
  }

  /** The i-th look at the context finds this watch, and the i-th read of the body returns to this one. */
  function Looked(w: Watch, events: nat -> seq<Event>, i: nat): Watch {
    HappenAll(w, events(2 * i))
  }

  function Blocked(w: Watch, events: nat -> seq<Event>, i: nat): Watch {
    HappenAll(Looked(w, events, i), events(2 * i + 1))
  }

  predicate Empty(c: Chunk) {
    c.n == 0 && c.err.None?
  }

  /** The watch when a read has data, an error or a cause, or has run out of chunks. */
  function WhileReading(w: Watch, chunks: seq<Chunk>, events: nat -> seq<Event>, i: nat): Watch
    requires i <= |chunks|
    decreases |chunks| - i
  {
    if Looked(w, events, i).cause.Some? then Looked(w, events, i)
    else if i == |chunks| || !Empty(chunks[i]) then Blocked(w, events, i)
    else WhileReading(Blocked(w, events, i), chunks, events, i + 1)
  }

  predicate Concludes(w: Watch, chunks: seq<Chunk>, events: nat -> seq<Event>, i: nat)
    requires i <= |chunks|
    decreases |chunks| - i
  {
    || Looked(w, events, i).cause.Some?
    || (i < |chunks| && (!Empty(chunks[i]) || Concludes(Blocked(w, events, i), chunks, events, i + 1)))
  }

  /** The bytes and the error Read returns; data can come with the cause of the ended context. */
  function ReadResult(w: Watch, chunks: seq<Chunk>, events: nat -> seq<Event>, i: nat): (nat, Option<IoError>)
    requires i <= |chunks|
    decreases |chunks| - i
  {
    var looked, blocked := Looked(w, events, i), Blocked(w, events, i);
    if looked.cause.Some? then (0, Some(Canceled(looked.cause.value)))
    else if i == |chunks| then (0, None)
    else if !Empty(chunks[i]) then
      (chunks[i].n, if blocked.cause.Some? then Some(Canceled(blocked.cause.value)) else chunks[i].err)
    else ReadResult(blocked, chunks, events, i + 1)
  }

  /** Every callback among the events runs before the deadline. */
  ghost predicate Early(events: seq<Event>, deadline: int) {
    forall i :: 0 <= i < |events| && events[i].Callback? ==> events[i].at < deadline
  }

  /** The cause is the end of the parent context, which is among the events. */
  ghost predicate ParentsEnd(cause: Option<Cause>, events: seq<Event>) {
    cause.Some? && cause.value.Parent? && ParentEnding(cause.value.reason) in events
  }

  lemma {:induction false} EventsKeepDeadline(w: Watch, events: seq<Event>)
    ensures HappenAll(w, events).deadline == w.deadline
    ensures Early(events, w.deadline) ==>
              HappenAll(w, events).cause == w.cause || ParentsEnd(HappenAll(w, events).cause, events)
  {
    if events != [] {
      var init := events[..|events| - 1];
      EventsKeepDeadline(w, init);
      assert Early(events, w.deadline) ==> Early(init, w.deadline);
      assert forall c :: ParentsEnd(c, init) ==> ParentsEnd(c, events);
    }
  }

  /** Events at some moment of the read ended the parent context with this cause. */
  ghost predicate ParentsEndAt(cause: Option<Cause>, events: nat -> seq<Event>) {
    exists k :: ParentsEnd(cause, events(k))
  }

  ghost predicate AllEarly(events: nat -> seq<Event>, deadline: int) {
    forall k :: Early(events(k), deadline)
  }

  lemma BlockedKeepsDeadline(w: Watch, events: nat -> seq<Event>, i: nat)
    ensures Looked(w, events, i).deadline == Blocked(w, events, i).deadline == w.deadline
    ensures AllEarly(events, w.deadline) ==>
              Looked(w, events, i).cause == w.cause || ParentsEndAt(Looked(w, events, i).cause, events)
    ensures AllEarly(events, w.deadline) ==>
              Blocked(w, events, i).cause == w.cause || ParentsEndAt(Blocked(w, events, i).cause, events)
  {
    EventsKeepDeadline(w, events(2 * i));
    EventsKeepDeadline(Looked(w, events, i), events(2 * i + 1));
    hide HappenAll, Early, ParentsEnd;
  }

  /**
   * However many empty reads the body returns, one Read never moves its deadline; and
   * until a callback runs at or after that deadline, only its parent's end cancels it.
   */
  lemma {:induction false} EmptyReadsDoNotRenew(w: Watch, chunks: seq<Chunk>, events: nat -> seq<Event>, i: nat)
    requires i <= |chunks|
    ensures var after := WhileReading(w, chunks, events, i);
            && after.deadline == w.deadline
            && (AllEarly(events, w.deadline) ==> after.cause == w.cause || ParentsEndAt(after.cause, events))
    decreases |chunks| - i
  {
    BlockedKeepsDeadline(w, events, i);
    hide Looked, Blocked, AllEarly, ParentsEndAt;
    if Looked(w, events, i).cause.None? && i < |chunks| && Empty(chunks[i]) {
      EmptyReadsDoNotRenew(Blocked(w, events, i), chunks, events, i + 1);
    }
  }

  /**
   * Whenever Read returns and the context has ended meanwhile, its cause is the error,
   * whatever the body returned; otherwise the body's own last result is.
   */
  lemma {:induction false} CauseReplacesError(w: Watch, chunks: seq<Chunk>, events: nat -> seq<Event>, i: nat)
    requires i <= |chunks| && Concludes(w, chunks, events, i)
    ensures var (n, err) := ReadResult(w, chunks, events, i);
            var cause := WhileReading(w, chunks, events, i).cause;
            && (cause.Some? ==> err == Some(Canceled(cause.value)))
            && (cause.None? ==> exists k :: i <= k < |chunks| && !Empty(chunks[k]) && chunks[k] == Chunk(n, err)
                                            && forall j :: i <= j < k ==> Empty(chunks[j]))
            && (n > 0 ==> exists k :: i <= k < |chunks| && chunks[k].n == n)
    decreases |chunks| - i
  {
    hide Looked, Blocked;
    if Looked(w, events, i).cause.None? && Empty(chunks[i]) {
      CauseReplacesError(Blocked(w, events, i), chunks, events, i + 1);
    }
  }

  // ---------------------------------------------------------------- the concurrent protocol

  /**
   * callbacks counts timer callbacks scheduled but not yet run; window is when the
   * current begin..end window opened, if one is open.
   */
  datatype System = System(watch: Watch, now: int, callbacks: nat, window: Option<int>)

  datatype Action =
    | Tick(elapsed: nat)
    | BeginIo
    | EndIo
    | CloseIo
    | TimerFires
    | CallbackRuns
    | ParentEnds(reason: int)

  function Start(idle: int, now: int): System {
    System(Fresh(idle), now, 0, None)
  }

  predicate Enabled(s: System, a: Action) {
    match a
    case BeginIo => s.window.None?
    case EndIo => s.window.Some?
    case TimerFires => s.watch.timer.Armed? && s.watch.timer.at <= s.now
    case CallbackRuns => s.callbacks > 0
    case _ => true
  }

  function Step(s: System, a: Action): System {
    match a
    case Tick(d) => s.(now := s.now + d)
    case BeginIo => s.(watch := Begin(s.watch, s.now), window := Some(s.now))
    case EndIo => s.(watch := End(s.watch), window := None)
    case CloseIo => s.(watch := Close(s.watch))
    case TimerFires => s.(watch := s.watch.(timer := Stopped), callbacks := s.callbacks + 1)
    case CallbackRuns =>
      s.(watch := Expire(s.watch, s.now), callbacks := if s.callbacks > 0 then s.callbacks - 1 else 0)
    case ParentEnds(reason) => s.(watch := EndParent(s.watch, reason))
  }

  predicate Legal(s: System, acts: seq<Action>) {
    acts == [] || (Legal(s, acts[..|acts| - 1]) && Enabled(Run(s, acts[..|acts| - 1]), acts[|acts| - 1]))
  }

  function Run(s: System, acts: seq<Action>): System {
    if acts == [] then s else Step(Run(s, acts[..|acts| - 1]), acts[|acts| - 1])
  }

  predicate Alive(w: Watch) {
    w.waiting && !w.closed && w.cause.None?
  }

  /** While waiting, the deadline is the window's, and a timer due by then or a callback is on its way. */
  predicate Inv(s: System) {
    && (s.watch.waiting ==> s.window.Some? && s.watch.deadline == s.window.value + s.watch.idle)
    && (Alive(s.watch) ==> s.callbacks > 0 || (s.watch.timer.Armed? && s.watch.timer.at <= s.watch.deadline))
    && (s.watch.cause.None? ==> !s.watch.closed && (s.watch.waiting <==> s.window.Some?))
  }

  lemma {:induction false} RunKeepsInv(idle: int, now: int, acts: seq<Action>)
    requires Legal(Start(idle, now), acts)
    ensures Inv(Run(Start(idle, now), acts)) && Run(Start(idle, now), acts).watch.idle == idle
  {
    if acts != [] {
      RunKeepsInv(idle, now, acts[..|acts| - 1]);
    }
  }

  /**
   * A run cancels for idling only by a callback that runs while one begin..end window
   * has been open for at least the idle duration, whatever stale callbacks ran before.
   */
  lemma IdleMeansIdle(idle: int, now: int, acts: seq<Action>, a: Action)
    requires Legal(Start(idle, now), acts + [a])
    requires var s := Run(Start(idle, now), acts);
             s.watch.cause != Some(IdleTimeout) && Step(s, a).watch.cause == Some(IdleTimeout)
    ensures var s := Run(Start(idle, now), acts);
            a.CallbackRuns? && s.window.Some? && s.now - s.window.value >= idle && s.watch.cause.None?
  {
    assert (acts + [a])[..|acts|] == acts;
    RunKeepsInv(idle, now, acts);
  }

  /**
   * No timeout is missed: a wait that has outlasted the idle duration is canceled by the
   * next callback, and if none is scheduled the timer is due to schedule one.
   */
  lemma NoTimeoutIsMissed(idle: int, now: int, acts: seq<Action>)
    requires Legal(Start(idle, now), acts)
    requires var s := Run(Start(idle, now), acts); Alive(s.watch) && s.window.Some? && s.now - s.window.value >= idle
    ensures var s := Run(Start(idle, now), acts);
            if Enabled(s, CallbackRuns) then Step(s, CallbackRuns).watch.cause == Some(IdleTimeout)
            else
              && Enabled(s, TimerFires)
              && Enabled(Step(s, TimerFires), CallbackRuns)
              && Step(Step(s, TimerFires), CallbackRuns).watch.cause == Some(IdleTimeout)
  {
    RunKeepsInv(idle, now, acts);
  }

  /** What ends the watched context with this cause; a callback only when its window was open for the idle duration. */
  ghost predicate EndsWith(s: System, a: Action, idle: int, cause: Cause) {
    match cause
    case Closed => a.CloseIo?
    case Parent(reason) => a == ParentEnds(reason)
    case IdleTimeout => a.CallbackRuns? && s.window.Some? && s.now - s.window.value >= idle
  }

  /** In every run a context that is alive ends by closing, with its parent or by a due callback, and only so. */
  lemma EndsExactly(idle: int, now: int, acts: seq<Action>, a: Action, cause: Cause)
    requires Legal(Start(idle, now), acts + [a]) && Run(Start(idle, now), acts).watch.cause.None?
    ensures var s := Run(Start(idle, now), acts);
            Step(s, a).watch.cause == Some(cause) <==> EndsWith(s, a, idle, cause)
  {
    assert (acts + [a])[..|acts|] == acts;
    RunKeepsInv(idle, now, acts);
  }

  /** The first cause is kept: later callbacks, closing or cancellation never replace it. */
  lemma {:induction false} CauseIsFinal(s: System, acts: seq<Action>)
    requires s.watch.cause.Some?
    ensures Run(s, acts).watch.cause == s.watch.cause
  {
    if acts != [] {
      CauseIsFinal(s, acts[..|acts| - 1]);
    }
  }
}
