/**
 * The telemetry session reporter (proxy/internal/fingerprint/report.go).  An activity
 * is one logical session of an account; the activity table is append-only and an
 * index into it stands for the pointer shared by the active map, the queued jobs and
 * the release closures.  Sending reports is outside the model; its steps are not.
 */
module Reporter {
  import opened Wrappers

  const QUEUE_SIZE := 64
  const MAX_KEYS := 4096

  /** The digest of an account's key. */
  type Id = nat

  datatype Activity = Activity(id: Id, version: string, last: int, idle: int,
                               inflight: int, queued: bool, attempted: bool)

  datatype Job = Job(id: Id, activity: nat)

  datatype Core = Core(active: map<Id, nat>, table: seq<Activity>, queue: seq<Job>)

  predicate Expired(a: Activity, now: int) {
    a.inflight == 0 && now - a.last >= a.idle
  }

  predicate CoreOk(c: Core) {
    && (forall id :: id in c.active ==> c.active[id] < |c.table| && c.table[c.active[id]].id == id)
    && (forall j :: j in c.queue ==> j.activity < |c.table| && c.table[j.activity].id == j.id)
  }

  /** The active map without the accounts that have gone idle. */
  function Reclaimed(active: map<Id, nat>, table: seq<Activity>, now: int): map<Id, nat>
    requires forall id :: id in active ==> active[id] < |table|
  {
    map id | id in active && !Expired(table[active[id]], now) :: active[id]
  }

  /** The map after making room for a new account. */
  function Room(c: Core, id: Id, now: int): map<Id, nat>
    requires CoreOk(c)
  {
    if id !in c.active && |c.active| >= MAX_KEYS then Reclaimed(c.active, c.table, now) else c.active
  }

  /** A request extends the account's session unless its version changed or it has expired. */
  predicate Extends(c: Core, id: Id, version: string, now: int)
    requires CoreOk(c)
  {
    id in c.active && c.table[c.active[id]].version == version && !Expired(c.table[c.active[id]], now)
  }

  /** The table and map with the account's current session, possibly a new one. */
  function Current(c: Core, id: Id, version: string, idle: int, now: int): (Core, nat)
    requires CoreOk(c)
  {
    var room := Room(c, id, now);
    if Extends(c, id, version, now) then (c, c.active[id])
    else
      (Core(room[id := |c.table|], c.table + [Activity(id, version, now, idle, 0, false, false)], c.queue), |c.table|)
  }

  /** Once room has been made, making room and looking the session up changes nothing more. */
  lemma RoomIsCurrent(c: Core, id: Id, version: string, idle: int, now: int)
    requires CoreOk(c)
    requires id in c.active || |Room(c, id, now)| < MAX_KEYS
    ensures var c' := c.(active := Room(c, id, now));
            CoreOk(c') && Room(c', id, now) == c'.active
            && Current(c', id, version, idle, now) == Current(c, id, version, idle, now)
  {
  }

  /** One more response in flight; the session is queued for reporting if it never was. */
  function Engage(c: Core, a: nat, now: int): Core
    requires a < |c.table|
  {
    var act := c.table[a];
    var enqueue := !act.queued && !act.attempted && |c.queue| < QUEUE_SIZE;
    Core(c.active,
         c.table[a := act.(inflight := act.inflight + 1, last := now, queued := act.queued || enqueue)],
         if enqueue then c.queue + [Job(act.id, a)] else c.queue)
  }

  /** Use, past its checks: None when the account limit turns a new account away. */
  function Use(c: Core, id: Id, version: string, idle: int, now: int): (Core, Option<nat>)
    requires CoreOk(c)
  {
    if id !in c.active && |Room(c, id, now)| >= MAX_KEYS then (c.(active := Room(c, id, now)), None)
    else
      var (c', a) := Current(c, id, version, idle, now);
      (Engage(c', a, now), Some(a))
  }

  /** The release closure's one effect. */
  function Finish(c: Core, a: nat, now: int): Core
    requires a < |c.table|
  {
    c.(table := c.table[a := c.table[a].(inflight := c.table[a].inflight - 1, last := now)])
  }

  /** A job is still worth sending: its session is the account's, and in use or not yet idle. */
  predicate Eligible(c: Core, j: Job, canceled: bool, now: int)
    requires j.activity < |c.table|
  {
    && !canceled && j.id in c.active && c.active[j.id] == j.activity
    && (c.table[j.activity].inflight > 0 || now - c.table[j.activity].last < c.table[j.activity].idle)
  }

  function Attempt(c: Core, a: nat): Core
    requires a < |c.table|
  {
    c.(table := c.table[a := c.table[a].(attempted := true)])
  }

  /** The release closure of one accepted response; its once flag makes a second call harmless. */
  class Handle {
    const activity: nat
    var released: bool

    constructor (activity: nat)
      ensures this.activity == activity && !released
    {
      this.activity, released := activity, false;
    }
  }

  class SessionReporter {
    var active: map<Id, nat>
    var table: seq<Activity>
    var queue: seq<Job>
    var canceled: bool

    ghost function View(): Core
      reads this
    {
      Core(active, table, queue)
    }

    constructor ()
      ensures View() == Core(map[], [], []) && !canceled
    {
      active, table, queue, canceled := map[], [], [], false;
    }

    method Reclaim(now: int)
      requires CoreOk(View())
      modifies this`active
      ensures active == Reclaimed(old(active), table, now)
    {
      var todo := active.Keys;
      var start := active;
      while todo != {}
        invariant todo <= start.Keys && active.Keys <= start.Keys
        invariant forall id :: id in active ==> active[id] == start[id]
        invariant forall id :: id in start ==>
                    (id in active <==> id in todo || !Expired(table[start[id]], now))
        decreases todo
      {
        var id :| id in todo;
        var a := table[start[id]];
        if a.inflight == 0 && now - a.last >= a.idle {
          active := active - {id};
        }
        todo := todo - {id};
      }
    }

    /** Makes room for a new account; full when every account is still in use or fresh. */
    method MakeRoom(id: Id, now: int) returns (full: bool)
      requires CoreOk(View())
      modifies this`active
      ensures active == Room(old(View()), id, now) && full == (id !in old(active) && |active| >= MAX_KEYS)
    {
      if id !in active && |active| >= MAX_KEYS {
        Reclaim(now);
        return |active| >= MAX_KEYS;
      }
      full := false;
    }

    /** The account's session, a new one if there is none, its version changed or it expired. */
    method FindSession(id: Id, version: string, idle: int, now: int) returns (a: nat)
      requires CoreOk(View()) && Room(View(), id, now) == active
      modifies this`active, this`table
      ensures (View(), a) == Current(old(View()), id, version, idle, now) && a < |table|
    {
      if id !in active || table[active[id]].version != version
         || (table[active[id]].inflight == 0 && now - table[active[id]].last >= table[active[id]].idle) {
        a := |table|;
        table := table + [Activity(id, version, now, idle, 0, false, false)];
        active := active[id := a];
      } else {
        a := active[id];
      }
    }

    method EngageSession(a: nat, now: int)
      requires a < |table|
      modifies this`table, this`queue
      ensures View() == Engage(old(View()), a, now)
    {
      table := table[a := table[a].(inflight := table[a].inflight + 1, last := now)];
      if !table[a].queued && !table[a].attempted && |queue| < QUEUE_SIZE {
        queue := queue + [Job(table[a].id, a)];
        table := table[a := table[a].(queued := true)];
      }
    }

    /** An accepted response, until the returned handle is released. */
    method UseKey(key: string, digest: string -> Id, version: string, idle: int, now: int) returns (handle: Handle?)
      requires CoreOk(View())
      modifies this`active, this`table, this`queue
      ensures handle != null ==> fresh(handle) && !handle.released && handle.activity < |table|
      ensures if key == "" || canceled then View() == old(View()) && handle == null
              else (View(), if handle == null then None else Some(handle.activity)) ==
                   Use(old(View()), digest(key), version, idle, now)
    {
      if key == "" || canceled {
        return null;
      }
      var id := digest(key);
      var full := MakeRoom(id, now);
      if full {
        return null;
      }
      RoomIsCurrent(old(View()), id, version, idle, now);
      var a := FindSession(id, version, idle, now);
      hide Room, Current, CoreOk;
      EngageSession(a, now);
      hide Engage;
      handle := new Handle(a);
    }

    method Release(handle: Handle, now: int)
      requires handle.activity < |table|
      modifies this`table, handle
      ensures handle.released
      ensures View() == if old(handle.released) then old(View()) else Finish(old(View()), handle.activity, now)
    {
      if handle.released {
        return;
      }
      handle.released := true;
      var a := table[handle.activity];
      table := table[handle.activity := a.(inflight := a.inflight - 1, last := now)];
    }

    method CheckJob(j: Job, now: int) returns (ok: bool)
      requires CoreOk(View()) && j.activity < |table|
      ensures ok == Eligible(View(), j, canceled, now)
    {
      if canceled || j.id !in active || active[j.id] != j.activity {
        return false;
      }
      var a := table[j.activity];
      ok := a.inflight > 0 || now - a.last < a.idle;
    }

    method MarkAttempted(a: nat)
      requires a < |table|
      modifies this`table
      ensures View() == Attempt(old(View()), a)
    {
      table := table[a := table[a].(attempted := true)];
    }

    /** Close, once the workers have stopped: queued credentials are dropped. */
    method Drain()
      requires canceled
      modifies this`queue
      ensures View() == old(View()).(queue := [])
    {
      while |queue| > 0 {
        queue := queue[1..];
      }
    }
  }

  // ---------------------------------------------------------------- the concurrent protocol

  /** A Use call between checking the context and leaving the mutex. */
  datatype Pending = Pending(id: Id, version: string, idle: int)

  /**
   * Where jobs are once they left the queue: with a worker before its first check
   * (fetched), past it (cleared), or past the fingerprint report (marked); dropped
   * unreported or skipped unannounced.  reported and announced count the fingerprints
   * and session events sent for each activity.
   */
  datatype Ledger = Ledger(fetched: multiset<Job>, cleared: multiset<Job>, marked: multiset<Job>,
                           dropped: multiset<Job>, skipped: multiset<Job>,
                           reported: multiset<nat>, announced: multiset<nat>)

  /** using is the Use call holding the mutex; handles counts the unreleased handles of each activity. */
  datatype System = System(core: Core, now: int, canceled: bool, drained: bool, using: Option<Pending>,
                           handles: multiset<nat>, ledger: Ledger)

  datatype Action =
    | Tick(elapsed: nat)
    | BeginUse(pending: Pending)
    | CommitUse
    | ReleaseHandle(activity: nat)
    | TakeJob
    | Check(job: Job)
    | Report(job: Job)
    | Announce(job: Job)
    | CancelAll
    | DrainQueue

  function Start(now: int): System {
    System(Core(map[], [], []), now, false, false, None, multiset{},
           Ledger(multiset{}, multiset{}, multiset{}, multiset{}, multiset{}, multiset{}, multiset{}))
  }

  /** Everything but the clock, the job channel and canceling needs the mutex. */
  predicate Enabled(s: System, a: Action) {
    match a
    case Tick(_) => true
    case BeginUse(_) => s.using.None? && !s.canceled
    case CommitUse => s.using.Some?
    case ReleaseHandle(act) => s.using.None? && act in s.handles
    case TakeJob => s.core.queue != [] && !s.drained
    case Check(j) => s.using.None? && j in s.ledger.fetched
    case Report(j) => s.using.None? && j in s.ledger.cleared
    case Announce(j) => s.using.None? && j in s.ledger.marked
    case CancelAll => true
    case DrainQueue =>
      s.canceled && s.using.None? && s.ledger.fetched == s.ledger.cleared == s.ledger.marked == multiset{}
  }

  predicate JobOk(c: Core, j: Job) {
    j.activity < |c.table| && c.table[j.activity].id == j.id
  }

  ghost predicate JobsOk(c: Core, jobs: multiset<Job>) {
    forall j :: j in jobs ==> JobOk(c, j)
  }

  ghost predicate IndexesOk(c: Core, activities: multiset<nat>) {
    forall a :: a in activities ==> a < |c.table|
  }

  ghost predicate LedgerOk(c: Core, l: Ledger) {
    && JobsOk(c, l.fetched) && JobsOk(c, l.cleared) && JobsOk(c, l.marked)
    && JobsOk(c, l.dropped) && JobsOk(c, l.skipped)
    && IndexesOk(c, l.reported) && IndexesOk(c, l.announced)
  }

  /** Every pointer held anywhere points into the activity table. */
  ghost predicate PointersOk(s: System) {
    CoreOk(s.core) && LedgerOk(s.core, s.ledger) && IndexesOk(s.core, s.handles)
  }

  function Committed(s: System): System
    requires CoreOk(s.core) && s.using.Some?
  {
    var p := s.using.value;
    var (core, handle) := Use(s.core, p.id, p.version, p.idle, s.now);
    s.(core := core, using := None, handles := if handle.Some? then s.handles + multiset{handle.value} else s.handles)
  }

  /** What taking the head of the queue does; a worker that sees the canceled context drops the job. */
  function Taken(s: System): System
    requires s.core.queue != []
  {
    var j := s.core.queue[0];
    s.(core := s.core.(queue := s.core.queue[1..]),
       ledger := if s.canceled then s.ledger.(dropped := s.ledger.dropped + multiset{j})
                 else s.ledger.(fetched := s.ledger.fetched + multiset{j}))
  }

  function Checked(l: Ledger, j: Job, eligible: bool): Ledger {
    if eligible then l.(fetched := l.fetched - multiset{j}, cleared := l.cleared + multiset{j})
    else l.(fetched := l.fetched - multiset{j}, dropped := l.dropped + multiset{j})
  }

  function Reported(l: Ledger, j: Job): Ledger {
    l.(cleared := l.cleared - multiset{j}, marked := l.marked + multiset{j},
       reported := l.reported + multiset{j.activity})
  }

  function Announced(l: Ledger, j: Job, eligible: bool): Ledger {
    if eligible then l.(marked := l.marked - multiset{j}, announced := l.announced + multiset{j.activity})
    else l.(marked := l.marked - multiset{j}, skipped := l.skipped + multiset{j})
  }

  function ReportedBy(s: System, j: Job): System
    requires j.activity < |s.core.table|
  {
    s.(core := Attempt(s.core, j.activity), ledger := Reported(s.ledger, j))
  }

  function Drained(s: System): System {
    s.(core := s.core.(queue := []), drained := true,
       ledger := s.ledger.(dropped := s.ledger.dropped + multiset(s.core.queue)))
  }

  ghost function Step(s: System, a: Action): System
    requires PointersOk(s) && Enabled(s, a)
  {
    match a
    case Tick(d) => s.(now := s.now + d)
    case BeginUse(p) => s.(using := Some(p))
    case CommitUse => Committed(s)
    case ReleaseHandle(act) =>
      s.(core := Finish(s.core, act, s.now), handles := s.handles - multiset{act})
    case TakeJob => Taken(s)
    case Check(j) => s.(ledger := Checked(s.ledger, j, Eligible(s.core, j, s.canceled, s.now)))
    case Report(j) => ReportedBy(s, j)
    case Announce(j) => s.(ledger := Announced(s.ledger, j, Eligible(s.core, j, s.canceled, s.now)))
    case CancelAll => s.(canceled := true)
    case DrainQueue => Drained(s)
  }

  // ---------------------------------------------------------------- the invariant

  /** The one job an activity can ever be queued as. */
  function JobOf(c: Core, a: nat): Job
    requires a < |c.table|
  {
    Job(c.table[a].id, a)
  }

  /**
   * A session that was ever queued is in exactly one place: in the queue, with a worker,
   * dropped, or reported; and a reported one awaits its event, was skipped or announced.
   */
  predicate Counted(inQueue: nat, queued: bool, j: Job, l: Ledger) {
    && inQueue + l.fetched[j] + l.cleared[j] + l.dropped[j] + l.reported[j.activity] == (if queued then 1 else 0)
    && l.marked[j] + l.skipped[j] + l.announced[j.activity] == l.reported[j.activity]
  }

  predicate Accounted(c: Core, a: nat, l: Ledger)
    requires a < |c.table|
  {
    Counted(multiset(c.queue)[JobOf(c, a)], c.table[a].queued, JobOf(c, a), l)
  }

  ghost predicate AllAccounted(c: Core, l: Ledger) {
    forall a :: 0 <= a < |c.table| ==> Accounted(c, a, l)
  }

  ghost predicate HandlesCounted(c: Core, handles: multiset<nat>) {
    forall a :: 0 <= a < |c.table| ==> c.table[a].inflight == handles[a]
  }

  /** The part of the invariant about the table, its handles and its jobs. */
  ghost predicate Books(c: Core, handles: multiset<nat>, l: Ledger) {
    && CoreOk(c) && LedgerOk(c, l) && IndexesOk(c, handles)
    && HandlesCounted(c, handles) && AllAccounted(c, l)
  }

  predicate Bounded(c: Core) {
    |c.active| <= MAX_KEYS && |c.queue| <= QUEUE_SIZE
  }

  ghost predicate Inv(s: System) {
    && Books(s.core, s.handles, s.ledger)
    && Bounded(s.core)
    && (s.drained ==> s.canceled && s.using.None? && s.core.queue == [])
  }

  lemma RoomFits(c: Core, id: Id, now: int)
    requires CoreOk(c) && |c.active| <= MAX_KEYS
    ensures |Room(c, id, now)| <= MAX_KEYS && Room(c, id, now).Keys <= c.active.Keys
    ensures forall k :: k in Room(c, id, now) ==> Room(c, id, now)[k] == c.active[k]
  {
    var room := Room(c, id, now);
    SubsetSize(room.Keys, c.active.Keys);
    assert |room.Keys| == |room| && |c.active.Keys| == |c.active|;
  }

  lemma {:induction false} SubsetSize(a: set<Id>, b: set<Id>)
    requires a <= b
    ensures |a| <= |b|
  {
    if a != {} {
      var x :| x in a;
      SubsetSize(a - {x}, b - {x});
    }
  }

  // ---------------------------------------------------------------- steps keep the invariant

  lemma HeadOfQueue(q: seq<Job>)
    requires q != []
    ensures multiset(q) == multiset{q[0]} + multiset(q[1..])
  {
    assert q == [q[0]] + q[1..];
  }

  /** The table has grown, and every session in it is still the same account's. */
  ghost predicate SameIds(c: Core, c': Core) {
    |c.table| <= |c'.table| && forall b :: 0 <= b < |c.table| ==> c'.table[b].id == c.table[b].id
  }

  lemma JobsStay(c: Core, c': Core, jobs: multiset<Job>)
    requires SameIds(c, c') && JobsOk(c, jobs)
    ensures JobsOk(c', jobs)
  {
  }

  lemma IndexesStay(c: Core, c': Core, activities: multiset<nat>)
    requires SameIds(c, c') && IndexesOk(c, activities)
    ensures IndexesOk(c', activities)
  {
  }

  lemma PointersStay(c: Core, c': Core, handles: multiset<nat>, l: Ledger)
    requires SameIds(c, c') && LedgerOk(c, l) && IndexesOk(c, handles)
    ensures LedgerOk(c', l) && IndexesOk(c', handles)
  {
    hide SameIds, JobsOk, IndexesOk;
    JobsStay(c, c', l.fetched);
    JobsStay(c, c', l.cleared);
    JobsStay(c, c', l.marked);
    JobsStay(c, c', l.dropped);
    JobsStay(c, c', l.skipped);
    IndexesStay(c, c', l.reported);
    IndexesStay(c, c', l.announced);
    IndexesStay(c, c', handles);
  }

  lemma MoreJobs(c: Core, jobs: multiset<Job>, j: Job)
    requires JobsOk(c, jobs) && JobOk(c, j)
    ensures JobsOk(c, jobs + multiset{j})
  {
  }

  lemma FewerJobs(c: Core, jobs: multiset<Job>, j: Job)
    requires JobsOk(c, jobs)
    ensures JobsOk(c, jobs - multiset{j})
  {
  }

  lemma MoreIndexes(c: Core, activities: multiset<nat>, a: nat)
    requires IndexesOk(c, activities) && a < |c.table|
    ensures IndexesOk(c, activities + multiset{a})
  {
  }

  lemma CheckPointers(c: Core, l: Ledger, j: Job, eligible: bool)
    requires LedgerOk(c, l) && JobOk(c, j)
    ensures LedgerOk(c, Checked(l, j, eligible))
  {
    hide JobsOk, IndexesOk, JobOk;
    FewerJobs(c, l.fetched, j);
    MoreJobs(c, l.cleared, j);
    MoreJobs(c, l.dropped, j);
  }

  lemma ReportPointers(c: Core, l: Ledger, j: Job)
    requires LedgerOk(c, l) && JobOk(c, j)
    ensures LedgerOk(c, Reported(l, j))
  {
    assert j.activity < |c.table|;
    hide JobsOk, IndexesOk, JobOk;
    FewerJobs(c, l.cleared, j);
    MoreJobs(c, l.marked, j);
    MoreIndexes(c, l.reported, j.activity);
  }

  lemma AnnouncePointers(c: Core, l: Ledger, j: Job, eligible: bool)
    requires LedgerOk(c, l) && JobOk(c, j)
    ensures LedgerOk(c, Announced(l, j, eligible))
  {
    assert j.activity < |c.table|;
    hide JobsOk, IndexesOk, JobOk;
    FewerJobs(c, l.marked, j);
    MoreJobs(c, l.skipped, j);
    MoreIndexes(c, l.announced, j.activity);
  }

  lemma TakePointers(c: Core, c': Core, l: Ledger, l': Ledger)
    requires CoreOk(c) && LedgerOk(c, l) && c.queue != [] && c' == c.(queue := c.queue[1..])
    requires l' == l.(dropped := l.dropped + multiset{c.queue[0]})
      || l' == l.(fetched := l.fetched + multiset{c.queue[0]})
    ensures CoreOk(c') && LedgerOk(c', l')
  {
    var j := c.queue[0];
    assert j in c.queue && forall k :: k in c'.queue ==> k in c.queue;
    hide JobsOk, IndexesOk;
    MoreJobs(c, l.dropped, j);
    MoreJobs(c, l.fetched, j);
    PointersStay(c, c', multiset{}, l) by {
      EmptyOk(c);
    }
    JobsStay(c, c', l.dropped + multiset{j});
    JobsStay(c, c', l.fetched + multiset{j});
  }

  lemma EmptyOk(c: Core)
    ensures IndexesOk(c, multiset{})
  {
  }

  lemma DrainPointers(c: Core, c': Core, l: Ledger)
    requires CoreOk(c) && LedgerOk(c, l) && c' == c.(queue := [])
    ensures CoreOk(c') && LedgerOk(c', l.(dropped := l.dropped + multiset(c.queue)))
  {
    assert JobsOk(c, l.dropped + multiset(c.queue));
    hide JobsOk, IndexesOk;
    PointersStay(c, c', multiset{}, l) by {
      EmptyOk(c);
    }
    JobsStay(c, c', l.dropped + multiset(c.queue));
  }

  /** A session whose flag and queue entry stay is still accounted for. */
  lemma StillAccounted(c: Core, c': Core, l: Ledger, b: nat)
    requires b < |c.table| && b < |c'.table| && Accounted(c, b, l)
    requires c'.table[b].id == c.table[b].id && c'.table[b].queued == c.table[b].queued && c'.queue == c.queue
    ensures Accounted(c', b, l)
  {
    hide Counted;
  }

  /** Dropping accounts from the map touches no session. */
  lemma ShrinkKeepsBooks(c: Core, active: map<Id, nat>, handles: multiset<nat>, l: Ledger)
    requires Books(c, handles, l)
    requires active.Keys <= c.active.Keys && forall k :: k in active ==> active[k] == c.active[k]
    ensures Books(c.(active := active), handles, l)
  {
    var c' := c.(active := active);
    PointersStay(c, c', handles, l);
    hide LedgerOk, IndexesOk, Accounted;
    forall b | 0 <= b < |c.table|
      ensures Accounted(c', b, l)
    {
      StillAccounted(c, c', l, b);
    }
  }

  /** Nothing in the ledger or the queue points past the table. */
  lemma NothingYet(c: Core, handles: multiset<nat>, l: Ledger, j: Job)
    requires CoreOk(c) && LedgerOk(c, l) && IndexesOk(c, handles) && j.activity == |c.table|
    ensures handles[j.activity] == 0 && multiset(c.queue)[j] == 0 && Counted(0, false, j, l)
  {
    assert !JobOk(c, j);
  }

  /** A new session has no handles, jobs or reports yet. */
  lemma NewSessionKeepsBooks(c: Core, handles: multiset<nat>, l: Ledger, act: Activity)
    requires Books(c, handles, l)
    requires act.inflight == 0 && !act.queued
    ensures Books(Core(c.active[act.id := |c.table|], c.table + [act], c.queue), handles, l)
  {
    var n := |c.table|;
    var c' := Core(c.active[act.id := n], c.table + [act], c.queue);
    PointersStay(c, c', handles, l);
    NothingYet(c, handles, l, Job(act.id, n));
    hide LedgerOk, IndexesOk, Accounted;
    forall b | 0 <= b < |c'.table|
      ensures Accounted(c', b, l)
    {
      if b < n {
        StillAccounted(c, c', l, b);
      } else {
        NewAccounted(c', n, l);
      }
    }
  }

  lemma NewAccounted(c: Core, n: nat, l: Ledger)
    requires n < |c.table| && !c.table[n].queued
    requires multiset(c.queue)[JobOf(c, n)] == 0 && Counted(0, false, JobOf(c, n), l)
    ensures Accounted(c, n, l)
  {
  }

  /** Handle counts follow the in-flight counter; times and the attempted flag are free. */
  lemma TouchKeepsBooks(c: Core, handles: multiset<nat>, l: Ledger, a: nat, act: Activity, handles': multiset<nat>)
    requires Books(c, handles, l) && a < |c.table|
    requires act.id == c.table[a].id && act.queued == c.table[a].queued
    requires act.inflight >= 0 && handles' == handles[a := act.inflight]
    ensures Books(c.(table := c.table[a := act]), handles', l)
  {
    var c' := c.(table := c.table[a := act]);
    PointersStay(c, c', handles, l);
    assert IndexesOk(c', handles');
    hide LedgerOk, IndexesOk, Accounted;
    forall b | 0 <= b < |c'.table|
      ensures Accounted(c', b, l)
    {
      StillAccounted(c, c', l, b);
    }
  }

  lemma EnqueuedAccounted(c: Core, c': Core, l: Ledger, a: nat, b: nat)
    requires a < |c.table| && b < |c.table| && !c.table[a].queued && Accounted(c, b, l)
    requires c' == c.(table := c.table[a := c.table[a].(queued := true)], queue := c.queue + [JobOf(c, a)])
    ensures Accounted(c', b, l)
  {
    assert JobOf(c', b) == JobOf(c, b);
  }

  lemma EnqueueKeepsBooks(c: Core, handles: multiset<nat>, l: Ledger, a: nat)
    requires Books(c, handles, l) && a < |c.table| && !c.table[a].queued
    ensures Books(c.(table := c.table[a := c.table[a].(queued := true)], queue := c.queue + [JobOf(c, a)]), handles, l)
  {
    var c' := c.(table := c.table[a := c.table[a].(queued := true)], queue := c.queue + [JobOf(c, a)]);
    PointersStay(c, c', handles, l);
    hide LedgerOk, IndexesOk, Accounted;
    forall b | 0 <= b < |c'.table|
      ensures Accounted(c', b, l)
    {
      EnqueuedAccounted(c, c', l, a, b);
    }
  }

  lemma EngageKeepsBooks(c: Core, handles: multiset<nat>, l: Ledger, a: nat, now: int)
    requires Books(c, handles, l) && a < |c.table|
    ensures Books(Engage(c, a, now), handles + multiset{a}, l)
  {
    var act := c.table[a].(inflight := c.table[a].inflight + 1, last := now);
    assert c.table[a].inflight == handles[a];
    TouchKeepsBooks(c, handles, l, a, act, handles + multiset{a});
    var c' := c.(table := c.table[a := act]);
    hide Books;
    if !act.queued && !act.attempted && |c.queue| < QUEUE_SIZE {
      EnqueueKeepsBooks(c', handles + multiset{a}, l, a);
      assert c'.table[a := act.(queued := true)] == Engage(c, a, now).table;
    } else {
      assert Engage(c, a, now) == c';
    }
  }

  lemma FinishKeepsBooks(c: Core, handles: multiset<nat>, l: Ledger, a: nat, now: int)
    requires Books(c, handles, l) && a in handles && a < |c.table|
    ensures Books(Finish(c, a, now), handles - multiset{a}, l)
  {
    assert c.table[a].inflight == handles[a];
    hide Books;
    TouchKeepsBooks(c, handles, l, a, c.table[a].(inflight := c.table[a].inflight - 1, last := now),
                    handles - multiset{a});
  }

  lemma CurrentKeepsBooks(c: Core, handles: multiset<nat>, l: Ledger, p: Pending, now: int)
    requires CoreOk(c) && Books(c, handles, l) && Bounded(c)
    requires p.id in c.active || |Room(c, p.id, now)| < MAX_KEYS
    ensures var (c', a) := Current(c, p.id, p.version, p.idle, now);
            Bounded(c') && Books(c', handles, l) && a < |c'.table|
  {
    hide Books;
    var room := Room(c, p.id, now);
    RoomFits(c, p.id, now);
    ShrinkKeepsBooks(c, room, handles, l);
    NewSessionKeepsBooks(c.(active := room), handles, l, Activity(p.id, p.version, now, p.idle, 0, false, false));
    var active := room[p.id := |c.table|];
    assert active.Keys == room.Keys + {p.id} && |active.Keys| == |active| && |room.Keys| == |room|;
  }

  lemma UseKeepsBooks(c: Core, handles: multiset<nat>, l: Ledger, p: Pending, now: int)
    requires CoreOk(c) && Books(c, handles, l) && Bounded(c)
    ensures var (c', handle) := Use(c, p.id, p.version, p.idle, now);
            && Bounded(c')
            && Books(c', if handle.Some? then handles + multiset{handle.value} else handles, l)
  {
    hide Books, Current, CoreOk;
    RoomFits(c, p.id, now);
    if p.id in c.active || |Room(c, p.id, now)| < MAX_KEYS {
      CurrentKeepsBooks(c, handles, l, p, now);
      var (c', a) := Current(c, p.id, p.version, p.idle, now);
      EngageKeepsBooks(c', handles, l, a, now);
    } else {
      ShrinkKeepsBooks(c, Room(c, p.id, now), handles, l);
    }
  }

  /** The job at the head of the queue, whichever way it goes. */
  lemma TakenAccounted(c: Core, c': Core, l: Ledger, l': Ledger, b: nat)
    requires c.queue != [] && c' == c.(queue := c.queue[1..]) && b < |c.table| && Accounted(c, b, l)
    requires l' == l.(dropped := l.dropped + multiset{c.queue[0]})
      || l' == l.(fetched := l.fetched + multiset{c.queue[0]})
    ensures Accounted(c', b, l')
  {
    HeadOfQueue(c.queue);
    assert JobOf(c', b) == JobOf(c, b);
  }

  lemma TakeKeepsBooks(c: Core, handles: multiset<nat>, l: Ledger, l': Ledger)
    requires Books(c, handles, l) && c.queue != []
    requires l' == l.(dropped := l.dropped + multiset{c.queue[0]})
      || l' == l.(fetched := l.fetched + multiset{c.queue[0]})
    ensures Books(c.(queue := c.queue[1..]), handles, l')
  {
    var c' := c.(queue := c.queue[1..]);
    TakePointers(c, c', l, l');
    assert IndexesOk(c', handles);
    hide LedgerOk, IndexesOk, Accounted, CoreOk;
    forall b | 0 <= b < |c'.table|
      ensures Accounted(c', b, l')
    {
      TakenAccounted(c, c', l, l', b);
    }
  }

  lemma CheckCounted(n: nat, queued: bool, k: Job, l: Ledger, j: Job, eligible: bool)
    requires Counted(n, queued, k, l) && j in l.fetched
    ensures Counted(n, queued, k, Checked(l, j, eligible))
  {
  }

  lemma CheckKeepsBooks(c: Core, handles: multiset<nat>, l: Ledger, j: Job, eligible: bool)
    requires Books(c, handles, l) && j in l.fetched
    ensures Books(c, handles, Checked(l, j, eligible))
  {
    assert JobOk(c, j);
    CheckPointers(c, l, j, eligible);
    hide Counted, Checked, LedgerOk, CoreOk, IndexesOk;
    forall b | 0 <= b < |c.table|
      ensures Accounted(c, b, Checked(l, j, eligible))
    {
      assert Accounted(c, b, l);
      CheckCounted(multiset(c.queue)[JobOf(c, b)], c.table[b].queued, JobOf(c, b), l, j, eligible);
    }
  }

  lemma ReportCounted(n: nat, queued: bool, k: Job, l: Ledger, j: Job)
    requires Counted(n, queued, k, l) && j in l.cleared && (k.activity == j.activity ==> k == j)
    ensures Counted(n, queued, k, Reported(l, j))
  {
  }

  lemma ReportKeepsLedger(c: Core, l: Ledger, j: Job)
    requires LedgerOk(c, l) && AllAccounted(c, l) && j in l.cleared
    ensures LedgerOk(c, Reported(l, j)) && AllAccounted(c, Reported(l, j))
  {
    assert JobOk(c, j);
    ReportPointers(c, l, j);
    hide Counted, Reported, LedgerOk;
    forall b | 0 <= b < |c.table|
      ensures Accounted(c, b, Reported(l, j))
    {
      assert Accounted(c, b, l);
      ReportCounted(multiset(c.queue)[JobOf(c, b)], c.table[b].queued, JobOf(c, b), l, j);
    }
  }

  lemma ReportKeepsBooks(c: Core, handles: multiset<nat>, l: Ledger, j: Job)
    requires Books(c, handles, l) && j in l.cleared && j.activity < |c.table|
    ensures Books(Attempt(c, j.activity), handles, Reported(l, j))
  {
    assert c.table[j.activity].inflight == handles[j.activity];
    ReportKeepsLedger(c, l, j);
    hide CoreOk, LedgerOk, IndexesOk, HandlesCounted, AllAccounted, Reported;
    TouchKeepsBooks(c, handles, Reported(l, j), j.activity, c.table[j.activity].(attempted := true), handles);
  }

  lemma AnnounceCounted(n: nat, queued: bool, k: Job, l: Ledger, j: Job, eligible: bool)
    requires Counted(n, queued, k, l) && j in l.marked && (k.activity == j.activity ==> k == j)
    ensures Counted(n, queued, k, Announced(l, j, eligible))
  {
  }

  lemma AnnounceKeepsBooks(c: Core, handles: multiset<nat>, l: Ledger, j: Job, eligible: bool)
    requires Books(c, handles, l) && j in l.marked
    ensures Books(c, handles, Announced(l, j, eligible))
  {
    assert JobOk(c, j);
    AnnouncePointers(c, l, j, eligible);
    hide Counted, Announced, LedgerOk, CoreOk, IndexesOk;
    forall b | 0 <= b < |c.table|
      ensures Accounted(c, b, Announced(l, j, eligible))
    {
      assert Accounted(c, b, l);
      AnnounceCounted(multiset(c.queue)[JobOf(c, b)], c.table[b].queued, JobOf(c, b), l, j, eligible);
    }
  }

  lemma DrainedAccounted(c: Core, l: Ledger, b: nat)
    requires b < |c.table| && Accounted(c, b, l)
    ensures Accounted(c.(queue := []), b, l.(dropped := l.dropped + multiset(c.queue)))
  {
    assert JobOf(c.(queue := []), b) == JobOf(c, b);
  }

  lemma DrainKeepsBooks(c: Core, handles: multiset<nat>, l: Ledger)
    requires Books(c, handles, l)
    ensures Books(c.(queue := []), handles, l.(dropped := l.dropped + multiset(c.queue)))
  {
    var c', l' := c.(queue := []), l.(dropped := l.dropped + multiset(c.queue));
    DrainPointers(c, c', l);
    assert IndexesOk(c', handles);
    hide LedgerOk, IndexesOk, Accounted, CoreOk;
    forall b | 0 <= b < |c.table|
      ensures Accounted(c', b, l')
    {
      DrainedAccounted(c, l, b);
    }
  }

  /** The workers' steps and the final drain. */
  predicate JobStep(act: Action) {
    act.TakeJob? || act.Check? || act.Report? || act.Announce? || act.DrainQueue?
  }

  lemma TakenKeepsInv(s: System)
    requires Inv(s) && s.core.queue != []
    ensures Inv(Taken(s))
  {
    hide Books;
    TakeKeepsBooks(s.core, s.handles, s.ledger, Taken(s).ledger);
  }

  lemma ReportedKeepsInv(s: System, j: Job)
    requires Inv(s) && j in s.ledger.cleared && j.activity < |s.core.table|
    ensures Inv(ReportedBy(s, j))
  {
    hide Books, Reported;
    ReportKeepsBooks(s.core, s.handles, s.ledger, j);
  }

  lemma DrainedKeepsInv(s: System)
    requires Inv(s) && s.canceled && s.using.None?
    ensures Inv(Drained(s))
  {
    hide Books;
    DrainKeepsBooks(s.core, s.handles, s.ledger);
  }

  lemma LedgerKeepsInv(s: System, l: Ledger)
    requires Inv(s) && Books(s.core, s.handles, l)
    ensures Inv(s.(ledger := l))
  {
    hide Books;
  }

  lemma JobStepKeepsInv(s: System, act: Action)
    requires PointersOk(s) && Inv(s) && Enabled(s, act) && JobStep(act)
    ensures Inv(Step(s, act))
  {
    assert Books(s.core, s.handles, s.ledger);
    assert act.Report? ==> JobOk(s.core, act.job);
    assert act.Check? || act.Announce? ==> JobOk(s.core, act.job);
    hide Books, Inv, PointersOk, Taken, ReportedBy, Drained, Checked, Announced, Eligible;
    match act
    case TakeJob => TakenKeepsInv(s);
    case Report(j) => ReportedKeepsInv(s, j);
    case DrainQueue => DrainedKeepsInv(s);
    case Check(j) =>
      CheckKeepsBooks(s.core, s.handles, s.ledger, j, Eligible(s.core, j, s.canceled, s.now));
      LedgerKeepsInv(s, Checked(s.ledger, j, Eligible(s.core, j, s.canceled, s.now)));
    case Announce(j) =>
      AnnounceKeepsBooks(s.core, s.handles, s.ledger, j, Eligible(s.core, j, s.canceled, s.now));
      LedgerKeepsInv(s, Announced(s.ledger, j, Eligible(s.core, j, s.canceled, s.now)));
  }

  lemma StepKeepsInv(s: System, act: Action)
    requires PointersOk(s) && Inv(s) && Enabled(s, act)
    ensures Inv(Step(s, act))
  {
    if JobStep(act) {
      JobStepKeepsInv(s, act);
    } else {
      var c, h, l := s.core, s.handles, s.ledger;
      hide Books, Use, Checked, Announced, Reported;
      match act
      case CommitUse => UseKeepsBooks(c, h, l, s.using.value, s.now);
      case ReleaseHandle(a) => FinishKeepsBooks(c, h, l, a, s.now);
      case Tick(_) =>
      case BeginUse(_) =>
      case CancelAll =>
    }
  }

  // ---------------------------------------------------------------- runs

  /** Every action of the run is enabled where it is taken; a run would stop at a dangling pointer. */
  ghost predicate Legal(s: System, acts: seq<Action>)
    decreases acts
  {
    acts != [] ==> Enabled(s, acts[0]) && (PointersOk(s) ==> Legal(Step(s, acts[0]), acts[1..]))
  }

  ghost function Run(s: System, acts: seq<Action>): System
    requires Legal(s, acts)
    decreases acts
  {
    if acts == [] || !PointersOk(s) then s else Run(Step(s, acts[0]), acts[1..])
  }

  lemma PointersStayOk(s: System)
    requires Inv(s)
    ensures PointersOk(s)
  {
  }

  lemma {:induction false} RunKeepsInv(s: System, acts: seq<Action>)
    requires Inv(s) && Legal(s, acts)
    ensures Inv(Run(s, acts)) && PointersOk(Run(s, acts))
    decreases acts
  {
    PointersStayOk(s);
    if acts != [] {
      StepKeepsInv(s, acts[0]);
      hide Books, Bounded, Step, Enabled, PointersOk;
      RunKeepsInv(Step(s, acts[0]), acts[1..]);
    }
  }

  /** Every reachable state keeps the bounds, counts its handles and reports a session at most once. */
  lemma ReportedOnce(now: int, acts: seq<Action>, a: nat)
    requires Legal(Start(now), acts)
    requires a < |Run(Start(now), acts).core.table|
    ensures var s := Run(Start(now), acts);
            && |s.core.active| <= 4096 && |s.core.queue| <= 64
            && s.core.table[a].inflight == s.handles[a]
            && multiset(s.core.queue)[JobOf(s.core, a)] <= 1
            && s.ledger.announced[a] <= s.ledger.reported[a] <= 1
  {
    var s := Run(Start(now), acts);
    RunKeepsInv(Start(now), acts);
    assert Accounted(s.core, a, s.ledger);
  }

  /**
   * An account's session with responses in flight stays the account's session, unless a
   * request of another version replaces it; making room never drops it.
   */
  lemma InFlightSurvives(s: System, act: Action, id: Id)
    requires Inv(s) && Enabled(s, act) && id in s.core.active && s.core.active[id] in s.handles
    ensures var s' := Step(s, act);
            || (id in s'.core.active && s'.core.active[id] == s.core.active[id])
            || (act.CommitUse? && s.using.value.id == id
                && s.using.value.version != s.core.table[s.core.active[id]].version)
  {
    var a := s.core.active[id];
    assert s.core.table[a].inflight == s.handles[a] > 0;
    if act.CommitUse? {
      var p := s.using.value;
      assert id in Room(s.core, p.id, s.now);
    }
  }

  /** No later request can be counted on the session. */
  predicate Dead(c: Core, canceled: bool, using: Option<Pending>, now: int, a: nat)
    requires a < |c.table|
  {
    || (canceled && using.None?)
    || c.table[a].id !in c.active || c.active[c.table[a].id] != a
    || Expired(c.table[a], now)
  }

  lemma DroppedIsDead(s: System, j: Job)
    requires Inv(s) && Enabled(s, Check(j)) && !Eligible(s.core, j, s.canceled, s.now)
    ensures var s' := Step(s, Check(j));
            && j.activity < |s'.core.table| && JobOf(s'.core, j.activity) == j
            && Dead(s'.core, s'.canceled, s'.using, s'.now, j.activity)
            && j in s'.ledger.dropped
  {
    assert s.core.table[j.activity].inflight == s.handles[j.activity];
  }

  lemma UseKeepsDead(c: Core, p: Pending, now: int, a: nat)
    requires CoreOk(c) && a < |c.table|
    requires Dead(c, false, None, now, a)
    ensures var (c', handle) := Use(c, p.id, p.version, p.idle, now);
            && handle != Some(a) && a < |c'.table| && JobOf(c', a) == JobOf(c, a)
            && Dead(c', false, None, now, a)
  {
  }

  /** Jobs are only ever added to the dropped ones. */
  lemma DropsGrow(l: Ledger, j: Job, eligible: bool, k: Job)
    ensures l.dropped[k] <= Checked(l, j, eligible).dropped[k]
    ensures l.dropped == Announced(l, j, eligible).dropped == Reported(l, j).dropped
  {
  }

  /** What a worker's step may change: the queue, the ledger and an attempted flag. */
  ghost predicate WorkersOnly(s: System, s': System, a: nat, k: Job) {
    && s'.core.active == s.core.active && a < |s.core.table| && a < |s'.core.table|
    && s'.core.table[a].(attempted := true) == s.core.table[a].(attempted := true)
    && (s'.canceled, s'.using, s'.now, s'.handles) == (s.canceled, s.using, s.now, s.handles)
    && s.ledger.dropped[k] <= s'.ledger.dropped[k]
  }

  lemma TakenFrame(s: System, a: nat, k: Job)
    requires s.core.queue != [] && a < |s.core.table|
    ensures WorkersOnly(s, Taken(s), a, k)
  {
  }

  lemma DrainedFrame(s: System, a: nat, k: Job)
    requires a < |s.core.table|
    ensures WorkersOnly(s, Drained(s), a, k)
  {
  }

  lemma ReportedFrame(s: System, j: Job, a: nat, k: Job)
    requires a < |s.core.table| && j.activity < |s.core.table|
    ensures WorkersOnly(s, ReportedBy(s, j), a, k)
  {
  }

  lemma LedgerFrame(s: System, l: Ledger, a: nat, k: Job)
    requires a < |s.core.table| && s.ledger.dropped[k] <= l.dropped[k]
    ensures WorkersOnly(s, s.(ledger := l), a, k)
  {
  }

  /** The workers change nothing that decides whether a session can be extended. */
  lemma JobStepFrame(s: System, act: Action, a: nat)
    requires PointersOk(s) && Enabled(s, act) && a < |s.core.table| && JobStep(act)
    ensures WorkersOnly(s, Step(s, act), a, JobOf(s.core, a))
  {
    var k := JobOf(s.core, a);
    assert act.Report? || act.Check? || act.Announce? ==> JobOk(s.core, act.job);
    hide PointersOk, Taken, Drained, ReportedBy, Checked, Announced, Reported, Eligible, WorkersOnly;
    match act
    case TakeJob => TakenFrame(s, a, k);
    case DrainQueue => DrainedFrame(s, a, k);
    case Report(j) => ReportedFrame(s, j, a, k);
    case Check(j) =>
      DropsGrow(s.ledger, j, Eligible(s.core, j, s.canceled, s.now), k);
      LedgerFrame(s, Checked(s.ledger, j, Eligible(s.core, j, s.canceled, s.now)), a, k);
    case Announce(j) =>
      DropsGrow(s.ledger, j, Eligible(s.core, j, s.canceled, s.now), k);
      LedgerFrame(s, Announced(s.ledger, j, Eligible(s.core, j, s.canceled, s.now)), a, k);
  }

  lemma StepKeepsDead(s: System, act: Action, a: nat)
    requires PointersOk(s) && Enabled(s, act) && a < |s.core.table|
    requires s.core.table[a].inflight == s.handles[a]
    requires Dead(s.core, s.canceled, s.using, s.now, a)
    ensures var s' := Step(s, act);
            && a < |s'.core.table| && JobOf(s'.core, a) == JobOf(s.core, a)
            && Dead(s'.core, s'.canceled, s'.using, s'.now, a)
            && s'.handles[a] <= s.handles[a]
            && s.ledger.dropped[JobOf(s.core, a)] <= s'.ledger.dropped[JobOf(s.core, a)]
  {
    if JobStep(act) {
      JobStepFrame(s, act, a);
      hide Step, CoreOk, LedgerOk;
    } else if act.CommitUse? {
      UseKeepsDead(s.core, s.using.value, s.now, a);
      hide Use, CoreOk, LedgerOk;
    } else {
      hide CoreOk, LedgerOk, Use;
    }
  }

  lemma {:induction false} DeadIsForever(s: System, acts: seq<Action>, a: nat)
    requires Inv(s) && Legal(s, acts) && a < |s.core.table|
    requires Dead(s.core, s.canceled, s.using, s.now, a)
    ensures var t := Run(s, acts);
            && a < |t.core.table| && JobOf(t.core, a) == JobOf(s.core, a)
            && t.handles[a] <= s.handles[a] && s.ledger.dropped[JobOf(s.core, a)] <= t.ledger.dropped[JobOf(s.core, a)]
            && Dead(t.core, t.canceled, t.using, t.now, a)
    decreases acts
  {
    if acts != [] {
      StepKeepsInv(s, acts[0]);
      assert s.core.table[a].inflight == s.handles[a];
      StepKeepsDead(s, acts[0], a);
      hide Books, Bounded, Step, Enabled, PointersOk, Dead;
      DeadIsForever(Step(s, acts[0]), acts[1..], a);
    }
  }

  /**
   * Wherever a worker drops a job as ineligible, its session's handles only ever decrease
   * from then on, between any two later moments, and the session is never reported:
   * nothing is lost by dropping it.
   */
  lemma DroppedIsFinal(s: System, j: Job, sooner: seq<Action>, later: seq<Action>)
    requires Inv(s) && Enabled(s, Check(j)) && !Eligible(s.core, j, s.canceled, s.now)
    requires Legal(Step(s, Check(j)), sooner) && Legal(Run(Step(s, Check(j)), sooner), later)
    ensures var t := Run(Step(s, Check(j)), sooner);
            var u := Run(t, later);
            u.handles[j.activity] <= t.handles[j.activity] <= s.handles[j.activity]
            && u.ledger.reported[j.activity] == 0
  {
    var s' := Step(s, Check(j));
    DroppedIsDead(s, j);
    StepKeepsInv(s, Check(j));
    assert s'.handles == s.handles;
    hide Books, Bounded, Step, Enabled, PointersOk, Eligible, Dead, Legal, Run;
    DeadIsForever(s', sooner, j.activity);
    RunKeepsInv(s', sooner);
    var t := Run(s', sooner);
    DeadIsForever(t, later, j.activity);
    RunKeepsInv(t, later);
    DroppedIsUnreported(Run(t, later), j);
  }

  lemma DroppedIsUnreported(s: System, j: Job)
    requires Inv(s) && j in s.ledger.dropped
    ensures s.ledger.reported[j.activity] == 0
  {
    assert Accounted(s.core, j.activity, s.ledger);
  }

  lemma ClosedStep(s: System, act: Action)
    requires PointersOk(s) && Inv(s) && Enabled(s, act) && s.drained
    ensures Step(s, act).drained && Step(s, act).handles <= s.handles
  {
    hide Books, Bounded, Use;
  }

  /** Once Close has drained the queue, it stays empty and no session gains a handle. */
  lemma {:induction false} ClosedStaysEmpty(s: System, acts: seq<Action>)
    requires Inv(s) && Legal(s, acts) && s.drained
    ensures Run(s, acts).drained && Run(s, acts).core.queue == [] && Run(s, acts).handles <= s.handles
    decreases acts
  {
    if acts != [] {
      StepKeepsInv(s, acts[0]);
      ClosedStep(s, acts[0]);
      hide Books, Bounded, Step, Enabled, PointersOk;
      ClosedStaysEmpty(Step(s, acts[0]), acts[1..]);
    }
  }
}
