/**
 * What an accepted response does to its account's session: which session it counts on, when
 * the session is queued for reporting, and that a queued session gets reported.
 */
module ReporterTheorems {
  import opened Wrappers
  import opened Reporter

  // ---------------------------------------------------------------- a response is accepted

  /** The session has a response in flight, or had one less than its idle time ago. */
  predicate Alive(a: Activity, now: int) {
    a.inflight > 0 || now - a.last < a.idle
  }

  /** The accounts whose session is alive. */
  ghost function AliveAccounts(c: Core, now: int): set<Id>
    requires CoreOk(c)
  {
    set id | id in c.active && Alive(c.table[c.active[id]], now)
  }

  /** A response of this account and version counts on the session it has. */
  predicate Continues(c: Core, p: Pending, now: int)
    requires CoreOk(c)
  {
    p.id in c.active && c.table[c.active[p.id]].version == p.version && Alive(c.table[c.active[p.id]], now)
  }

  /** Only a new account is turned away, when 4096 others have a session that is alive. */
  ghost predicate TurnedAway(c: Core, p: Pending, now: int)
    requires CoreOk(c)
  {
    p.id !in c.active && |c.active| >= 4096 && |AliveAccounts(c, now)| >= 4096
  }

  /** The session was queued or reported before. */
  predicate Seen(c: Core, a: nat) {
    a < |c.table| && (c.table[a].queued || c.table[a].attempted)
  }

  /** The session the response counts on: the account's own, or a new one. */
  function SessionFor(c: Core, p: Pending, now: int): nat
    requires CoreOk(c)
  {
    if Continues(c, p, now) then c.active[p.id] else |c.table|
  }

  /** The response is in flight on session a, which nothing else is different from before. */
  ghost predicate CountedOn(c: Core, p: Pending, now: int, a: nat, c': Core)
    requires CoreOk(c)
  {
    && a < |c'.table| && p.id in c'.active && c'.active[p.id] == a
    && |c'.table| == (if a < |c.table| then |c.table| else |c.table| + 1)
    && (forall b :: 0 <= b < |c.table| && b != a ==> c'.table[b] == c.table[b])
    && c'.table[a].id == p.id && c'.table[a].version == p.version && c'.table[a].last == now
    && c'.table[a].idle == (if a < |c.table| then c.table[a].idle else p.idle)
    && c'.table[a].inflight == (if a < |c.table| then c.table[a].inflight else 0) + 1
    && c'.table[a].attempted == (a < |c.table| && c.table[a].attempted)
  }

  /** An unseen session is queued unless the queue is full; then a later response can still queue it. */
  ghost predicate QueuedOnce(c: Core, p: Pending, a: nat, c': Core)
    requires a < |c'.table|
  {
    if !Seen(c, a) && |c.queue| < 64 then c'.queue == c.queue + [Job(p.id, a)] && c'.table[a].queued
    else c'.queue == c.queue && c'.table[a].queued == (a < |c.table| && c.table[a].queued)
  }

  /** Other accounts keep their session, but making room for a new one drops those not alive. */
  ghost predicate OthersKept(c: Core, p: Pending, now: int, c': Core)
    requires CoreOk(c)
  {
    forall id :: id != p.id ==>
      && (id in c'.active ==> id in c.active && c'.active[id] == c.active[id])
      && (id in c.active ==>
            (id in c'.active <==> p.id in c.active || |c.active| < 4096 || Alive(c.table[c.active[id]], now)))
  }

  lemma RoomIsAlive(c: Core, id: Id, now: int)
    requires CoreOk(c) && InFlightOk(c) && id !in c.active && |c.active| >= 4096
    ensures Room(c, id, now).Keys == AliveAccounts(c, now) && |Room(c, id, now)| == |AliveAccounts(c, now)|
  {
    assert |Room(c, id, now).Keys| == |Room(c, id, now)|;
  }

  ghost predicate InFlightOk(c: Core) {
    forall a :: 0 <= a < |c.table| ==> c.table[a].inflight >= 0
  }

  lemma InFlightIsCounted(s: System)
    requires Inv(s)
    ensures InFlightOk(s.core) && CoreOk(s.core) && |s.core.active| <= 4096
  {
  }

  lemma UseCounts(c: Core, p: Pending, now: int)
    requires CoreOk(c) && InFlightOk(c) && |c.active| <= 4096
    ensures var (c', handle) := Use(c, p.id, p.version, p.idle, now); var a := SessionFor(c, p, now);
            if TurnedAway(c, p, now) then handle.None? && c'.table == c.table && c'.queue == c.queue
            else
              && handle == Some(a)
              && CountedOn(c, p, now, a, c') && QueuedOnce(c, p, a, c') && OthersKept(c, p, now, c')
  {
    if p.id !in c.active && |c.active| >= 4096 {
      RoomIsAlive(c, p.id, now);
    }
  }

  /** What committing an accepted response does. */
  ghost predicate Accepts(s: System, s': System)
    requires CoreOk(s.core) && s.using.Some?
  {
    var p, a := s.using.value, SessionFor(s.core, s.using.value, s.now);
    && s'.using.None? && (s'.now, s'.canceled, s'.drained, s'.ledger) == (s.now, s.canceled, s.drained, s.ledger)
    && if TurnedAway(s.core, p, s.now) then
         s'.handles == s.handles && s'.core.table == s.core.table && s'.core.queue == s.core.queue
       else
         && s'.handles == s.handles + multiset{a}
         && CountedOn(s.core, p, s.now, a, s'.core) && QueuedOnce(s.core, p, a, s'.core)
         && OthersKept(s.core, p, s.now, s'.core)
  }

  /**
   * In every run: an accepted response counts on its account's session if that has the
   * same version and is alive, else on a new one; a session not seen before goes to the end
   * of the queue unless 64 jobs are waiting; only a new account can be turned away.
   */
  lemma ResponseIsCounted(now: int, acts: seq<Action>)
    requires Legal(Start(now), acts) && Run(Start(now), acts).using.Some?
    ensures var s := Run(Start(now), acts); PointersOk(s) && Accepts(s, Step(s, CommitUse))
  {
    RunKeepsInv(Start(now), acts);
    var s := Run(Start(now), acts);
    InFlightIsCounted(s);
    hide Run, Legal, Start, Inv, Use, TurnedAway, CountedOn, QueuedOnce, OthersKept, SessionFor;
    UseCounts(s.core, s.using.value, s.now);
  }

  // ---------------------------------------------------------------- a queued session is reported

  /** The job is the last in the queue and its session is alive and its account's. */
  ghost predicate WaitsLast(s: System, j: Job) {
    && s.using.None? && !s.canceled && !s.drained
    && s.core.queue != [] && s.core.queue[|s.core.queue| - 1] == j
    && j.activity < |s.core.table| && j.id in s.core.active && s.core.active[j.id] == j.activity
    && Alive(s.core.table[j.activity], s.now)
  }

  lemma TakeGoesOn(s: System, j: Job)
    requires Inv(s) && WaitsLast(s, j)
    ensures PointersOk(s) && Enabled(s, TakeJob)
    ensures var t := Step(s, TakeJob);
            && |t.core.queue| == |s.core.queue| - 1
            && (t.core.queue != [] ==> WaitsLast(t, j))
            && (t.core.queue == [] ==> Fetched(t, j))
  {
  }

  /** A worker has the job, and its session is alive and its account's. */
  ghost predicate Fetched(s: System, j: Job) {
    && s.using.None? && !s.canceled && j in s.ledger.fetched
    && j.activity < |s.core.table| && j.id in s.core.active && s.core.active[j.id] == j.activity
    && Alive(s.core.table[j.activity], s.now)
  }

  ghost predicate Live(s: System, j: Job) {
    && s.using.None? && !s.canceled
    && j.activity < |s.core.table| && j.id in s.core.active && s.core.active[j.id] == j.activity
    && Alive(s.core.table[j.activity], s.now)
  }

  lemma AfterCheck(s: System, j: Job) returns (t: System)
    requires Inv(s) && Fetched(s, j)
    ensures PointersOk(s) && Enabled(s, Check(j)) && t == Step(s, Check(j))
    ensures Inv(t) && Live(t, j) && j in t.ledger.cleared
  {
    t := Step(s, Check(j));
    StepKeepsInv(s, Check(j));
  }

  lemma AfterReport(s: System, j: Job) returns (t: System)
    requires Inv(s) && Live(s, j) && j in s.ledger.cleared
    ensures PointersOk(s) && Enabled(s, Report(j)) && t == Step(s, Report(j))
    ensures Inv(t) && Live(t, j) && j in t.ledger.marked && t.core.table[j.activity].attempted
    ensures j.activity in t.ledger.reported
  {
    t := Step(s, Report(j));
    StepKeepsInv(s, Report(j));
  }

  lemma AfterAnnounce(s: System, j: Job) returns (t: System)
    requires Inv(s) && Live(s, j) && j in s.ledger.marked && j.activity in s.ledger.reported
    ensures PointersOk(s) && Enabled(s, Announce(j)) && t == Step(s, Announce(j))
    ensures Inv(t) && t.ledger.reported[j.activity] == 1 && t.ledger.announced[j.activity] == 1
    ensures t.core == s.core
  {
    t := Step(s, Announce(j));
    StepKeepsInv(s, Announce(j));
    assert Accounted(t.core, j.activity, t.ledger);
  }

  /** The workers' steps that report the last job in the queue, after those before it were taken. */
  function Reporting(n: nat, j: Job): seq<Action> {
    if n == 0 then [Check(j), Report(j), Announce(j)] else [TakeJob] + Reporting(n - 1, j)
  }

  lemma LegalCons(s: System, a: Action, acts: seq<Action>)
    requires PointersOk(s) && Enabled(s, a) && Legal(Step(s, a), acts)
    ensures Legal(s, [a] + acts) && Run(s, [a] + acts) == Run(Step(s, a), acts)
  {
    assert ([a] + acts)[1..] == acts;
    hide Step, Enabled, PointersOk;
  }

  lemma NoSteps(s: System)
    ensures Legal(s, []) && Run(s, []) == s
  {
  }

  /** The queued session has been reported and announced, once each. */
  ghost predicate Completed(s: System, j: Job) {
    s.ledger.reported[j.activity] == 1 && s.ledger.announced[j.activity] == 1
  }

  /** From a worker's hands: checked, reported, checked again and announced. */
  lemma FetchedLeadsToReport(s: System, j: Job)
    requires Inv(s) && Fetched(s, j)
    ensures Legal(s, Reporting(0, j)) && Completed(Run(s, Reporting(0, j)), j)
  {
    hide Inv, Step, Enabled, PointersOk, Legal, Run, Fetched, Live;
    var t := AfterCheck(s, j);
    var u := AfterReport(t, j);
    var v := AfterAnnounce(u, j);
    NoSteps(v);
    LegalCons(u, Announce(j), []);
    LegalCons(t, Report(j), [Announce(j)] + []);
    LegalCons(s, Check(j), [Report(j)] + ([Announce(j)] + []));
    assert Reporting(0, j) == [Check(j)] + ([Report(j)] + ([Announce(j)] + []));
  }

  /** A job that waits last in the queue can be reported, and announced after it. */
  lemma {:induction false} QueuedIsReported(s: System, j: Job)
    requires Inv(s) && WaitsLast(s, j)
    ensures var acts := Reporting(|s.core.queue|, j); Legal(s, acts) && Completed(Run(s, acts), j)
    decreases |s.core.queue|
  {
    TakeGoesOn(s, j);
    StepKeepsInv(s, TakeJob);
    var t := Step(s, TakeJob);
    hide Inv, Step, Enabled, PointersOk, Legal, Run, WaitsLast, Fetched;
    if t.core.queue == [] {
      FetchedLeadsToReport(t, j);
    } else {
      QueuedIsReported(t, j);
    }
    LegalCons(s, TakeJob, Reporting(|t.core.queue|, j));
  }

  /**
   * Whenever an accepted response queues its session and the reporter is not closing, the
   * workers can go on to report and announce that session, once each.
   */
  lemma ResponseIsReported(now: int, acts: seq<Action>)
    requires Legal(Start(now), acts)
    requires var s := Run(Start(now), acts);
             && s.using.Some? && !s.canceled && PointersOk(s) && !TurnedAway(s.core, s.using.value, s.now)
             && !Seen(s.core, SessionFor(s.core, s.using.value, s.now)) && |s.core.queue| < 64
    ensures var s := Run(Start(now), acts); var p := s.using.value; var s' := Step(s, CommitUse);
            var j := Job(p.id, SessionFor(s.core, p, s.now));
            && s'.core.queue == s.core.queue + [j]
            && var more := Reporting(|s.core.queue| + 1, j);
               Legal(s', more) && Completed(Run(s', more), j)
  {
    hide *;
    var s := Run(Start(now), acts);
    ResponseIsCounted(now, acts);
    StartOk(now);
    RunKeepsInv(Start(now), acts);
    InFlightIsCounted(s);
    CommitIsEnabled(s);
    StepKeepsInv(s, CommitUse);
    NotDrained(s);
    AcceptedWaitsLast(s, Step(s, CommitUse));
    QueuedIsReported(Step(s, CommitUse), Job(s.using.value.id, SessionFor(s.core, s.using.value, s.now)));
  }

  lemma StartOk(now: int)
    ensures Inv(Start(now))
  {
  }

  lemma CommitIsEnabled(s: System)
    requires s.using.Some?
    ensures Enabled(s, CommitUse)
  {
  }

  lemma AcceptedWaitsLast(s: System, s': System)
    requires CoreOk(s.core) && s.using.Some? && Accepts(s, s') && !s.canceled && !s.drained
    requires var p := s.using.value;
             !TurnedAway(s.core, p, s.now) && !Seen(s.core, SessionFor(s.core, p, s.now)) && |s.core.queue| < 64
    requires InFlightOk(s.core)
    ensures var p := s.using.value; var j := Job(p.id, SessionFor(s.core, p, s.now));
            s'.core.queue == s.core.queue + [j] && WaitsLast(s', j)
  {
    hide TurnedAway, OthersKept, SessionFor;
  }

  lemma NotDrained(s: System)
    requires Inv(s) && !s.canceled
    ensures !s.drained
  {
    hide Books;
  }

  // ---------------------------------------------------------------- when a session was last active

  /** The action, taken in s, starts or ends a response on session a. */
  ghost predicate Touches(s: System, act: Action, a: nat)
    requires PointersOk(s) && Enabled(s, act)
  {
    act == ReleaseHandle(a) || (act.CommitUse? && Step(s, act).handles[a] > s.handles[a])
  }

  /** When the run from s last started or ended a response on session a; known is the time before it. */
  ghost function LastActive(s: System, acts: seq<Action>, a: nat, known: int): int
    requires Legal(s, acts)
    decreases acts
  {
    if acts == [] || !PointersOk(s) then known
    else LastActive(Step(s, acts[0]), acts[1..], a, if Touches(s, acts[0], a) then s.now else known)
  }

  lemma StepTouches(s: System, act: Action, a: nat)
    requires Inv(s) && PointersOk(s) && Enabled(s, act) && a < |Step(s, act).core.table|
    ensures if Touches(s, act, a) then Step(s, act).core.table[a].last == s.now
            else a < |s.core.table| && Step(s, act).core.table[a].last == s.core.table[a].last
  {
    if act.CommitUse? {
      UseTouches(s, a);
    } else if JobStep(act) {
      JobStepFrame(s, act, a);
      hide Step, Inv, PointersOk;
    } else {
      RestTouches(s, act, a);
      hide Step, Inv, PointersOk;
    }
  }

  lemma RestTouches(s: System, act: Action, a: nat)
    requires PointersOk(s) && Enabled(s, act) && !act.CommitUse? && !JobStep(act) && a < |Step(s, act).core.table|
    ensures if Touches(s, act, a) then Step(s, act).core.table[a].last == s.now
            else a < |s.core.table| && Step(s, act).core.table[a].last == s.core.table[a].last
  {
    hide Use, CoreOk, LedgerOk;
  }

  lemma UseTouches(s: System, a: nat)
    requires Inv(s) && PointersOk(s) && Enabled(s, CommitUse) && a < |Step(s, CommitUse).core.table|
    ensures if Touches(s, CommitUse, a) then Step(s, CommitUse).core.table[a].last == s.now
            else a < |s.core.table| && Step(s, CommitUse).core.table[a].last == s.core.table[a].last
  {
    InFlightIsCounted(s);
    UseCounts(s.core, s.using.value, s.now);
    CommitIs(s);
    hide Use, TurnedAway, OthersKept, SessionFor, QueuedOnce, Inv, Step, PointersOk, Alive;
  }

  lemma CommitIs(s: System)
    requires PointersOk(s) && s.using.Some?
    ensures var p := s.using.value; var (core, handle) := Use(s.core, p.id, p.version, p.idle, s.now);
            && Step(s, CommitUse).core == core
            && Step(s, CommitUse).handles == (if handle.Some? then s.handles + multiset{handle.value} else s.handles)
  {
    hide Use;
  }

  /** In every run, a session's last activity is when a response on it last started or ended. */
  lemma {:induction false} LastIsActivity(s: System, acts: seq<Action>, a: nat, known: int)
    requires Inv(s) && Legal(s, acts) && (a < |s.core.table| ==> known == s.core.table[a].last)
    ensures a < |Run(s, acts).core.table| ==> Run(s, acts).core.table[a].last == LastActive(s, acts, a, known)
    decreases acts
  {
    PointersStayOk(s);
    if acts != [] {
      StepKeepsInv(s, acts[0]);
      if a < |Step(s, acts[0]).core.table| {
        StepTouches(s, acts[0], a);
      }
      hide Inv, Step, Enabled, PointersOk, Touches;
      LastIsActivity(Step(s, acts[0]), acts[1..], a, if Touches(s, acts[0], a) then s.now else known);
    }
  }

  // ---------------------------------------------------------------- what the workers check

  /** The job is still worth sending. */
  predicate WorthSending(s: System, j: Job) {
    && !s.canceled && j.activity < |s.core.table| && j.id in s.core.active && s.core.active[j.id] == j.activity
    && Alive(s.core.table[j.activity], s.now)
  }

  /** A check clears the job exactly if it is worth sending, and else drops it. */
  ghost predicate Checks(s: System, j: Job, l: Ledger) {
    if WorthSending(s, j) then l.cleared[j] == s.ledger.cleared[j] + 1 && l.dropped == s.ledger.dropped
    else l.dropped[j] == s.ledger.dropped[j] + 1 && l.cleared == s.ledger.cleared
  }

  /** The second check announces the session exactly if it still is, and else skips that. */
  ghost predicate ChecksAgain(s: System, j: Job, l: Ledger) {
    if WorthSending(s, j) then
      l.announced[j.activity] == s.ledger.announced[j.activity] + 1 && l.skipped == s.ledger.skipped
    else l.skipped[j] == s.ledger.skipped[j] + 1 && l.announced == s.ledger.announced
  }

  lemma CheckExactly(s: System, j: Job)
    requires PointersOk(s) && Enabled(s, Check(j))
    ensures Checks(s, j, Step(s, Check(j)).ledger)
  {
    assert j.activity < |s.core.table|;
  }

  lemma AnnounceExactly(s: System, j: Job)
    requires PointersOk(s) && Enabled(s, Announce(j))
    ensures ChecksAgain(s, j, Step(s, Announce(j)).ledger)
  {
    assert j.activity < |s.core.table|;
  }

  /**
   * In every run a worker goes on with a job, before the report and again before the
   * announcement, exactly while the reporter is open and the session is alive and still
   * its account's.
   */
  lemma WorkersCheckExactly(now: int, acts: seq<Action>, j: Job)
    requires Legal(Start(now), acts)
    ensures var s := Run(Start(now), acts);
            && PointersOk(s)
            && (Enabled(s, Check(j)) ==> Checks(s, j, Step(s, Check(j)).ledger))
            && (Enabled(s, Announce(j)) ==> ChecksAgain(s, j, Step(s, Announce(j)).ledger))
  {
    RunKeepsInv(Start(now), acts);
    hide *;
    var s := Run(Start(now), acts);
    if Enabled(s, Check(j)) {
      CheckExactly(s, j);
    }
    if Enabled(s, Announce(j)) {
      AnnounceExactly(s, j);
    }
  }
}
