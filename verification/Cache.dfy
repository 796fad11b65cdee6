/**
 * The single-flight cache (proxy/internal/server/cache.go).  The critical sections of
 * get and refresh are atomic steps; a flight is identified by how many refreshes
 * completed before it, so the cache only has to say whether one is running.
 */
module Cache {
  import opened Wrappers

  /** What a fetch returned: a value, and an error when it failed. */
  datatype Result<T> = Result(value: T, err: Option<int>)

  datatype Policy = Policy(ttl: int, failureTTL: int, serveStale: bool)

  /** nextRefresh is None for the zero time, which no clock reading precedes. */
  datatype Cache<T> = Cache(value: T, err: Option<int>, hasValue: bool, nextRefresh: Option<int>, refreshing: bool)

  datatype Answer<T> = Ready(result: Result<T>) | Await

  function TimeToLive(p: Policy, err: Option<int>): int {
    if err.Some? then p.failureTTL else p.ttl
  }

  predicate Fresh<T>(c: Cache<T>, now: int) {
    c.nextRefresh.Some? && now < c.nextRefresh.value
  }

  /** get's critical section for a caller whose context is alive. */
  function Enter<T>(c: Cache<T>, p: Policy, now: int): (Cache<T>, Answer<T>) {
    if Fresh(c, now) then (c, Ready(Result(c.value, c.err)))
    else (c.(refreshing := true), if p.serveStale && c.hasValue then Ready(Result(c.value, None)) else Await)
  }

  /** refresh's critical section; a stale-serving cache keeps its value when a fetch fails. */
  function Complete<T>(c: Cache<T>, p: Policy, now: int, fetched: Result<T>): Cache<T> {
    var replace := fetched.err.None? || !p.serveStale;
    Cache(if replace then fetched.value else c.value, fetched.err,
          if replace then fetched.err.None? else c.hasValue,
          Some(now + TimeToLive(p, fetched.err)), false)
  }

  /** A context a fetch can run under: one ends with its caller's, a detached one does not. */
  datatype Context = Bound(caller: nat) | Detached

  /** context.WithoutCancel */
  function WithoutCancel(c: Context): Context {
    Detached
  }

  /** A running fetch, shared by the callers waiting for it, and the context it runs under. */
  class Flight<T(0)> {
    const context: Context
    var done: bool
    var value: T
    var err: Option<int>

    constructor (context: Context)
      ensures !done && this.context == context
    {
      this.context := context;
      done := false;
    }
  }

  class CachedFetch<T(0)> {
    var value: T
    var err: Option<int>
    var hasValue: bool
    var nextRefresh: Option<int>
    var flight: Flight?<T>

    ghost function View(): Cache<T>
      reads this
    {
      Cache(value, err, hasValue, nextRefresh, flight != null)
    }

    constructor ()
      ensures View() == Cache(value, None, false, None, false)
    {
      err, hasValue, nextRefresh, flight := None, false, None, null;
    }

    /** Joins the running flight, or starts one under a detached context; started is set when this call must fetch. */
    method Get(p: Policy, now: int, context: Context) returns (answer: Answer<T>, joined: Flight?<T>, started: bool)
      modifies this`flight
      ensures (View(), answer) == Enter(old(View()), p, now)
      ensures joined == if Fresh(old(View()), now) then null else flight
      ensures old(flight) != null ==> flight == old(flight)
      ensures started == (!Fresh(old(View()), now) && old(flight) == null)
      ensures started ==> fresh(flight) && !flight.done && flight.context == Detached
    {
      if nextRefresh.Some? && now < nextRefresh.value {
        return Ready(Result(value, err)), null, false;
      }
      joined, started := flight, flight == null;
      if joined == null {
        joined := new Flight<T>(WithoutCancel(context));
        flight := joined;
      }
      answer := if p.serveStale && hasValue then Ready(Result(value, None)) else Await;
    }

    /** Publishes a fetch to the cache and to everyone waiting on its flight. */
    method Refresh(p: Policy, now: int, fetched: Result<T>, f: Flight<T>)
      requires f == flight
      modifies this, f
      ensures View() == Complete(old(View()), p, now, fetched)
      ensures f.done && Result(f.value, f.err) == Result(value, err)
    {
      var ttl := p.ttl;
      if fetched.err.Some? {
        ttl := p.failureTTL;
      }
      if fetched.err.None? || !p.serveStale {
        value := fetched.value;
        hasValue := fetched.err.None?;
      }
      err := fetched.err;
      nextRefresh := Some(now + ttl);
      f.value, f.err := value, err;
      flight := null;
      f.done := true;
    }
  }

  // ---------------------------------------------------------------- concurrent callers

  /** A finished refresh: when it finished, what was fetched, and what its waiters were given. */
  datatype Refreshed<T> = Refreshed(at: int, fetched: Result<T>, published: Result<T>)

  /** A caller's progress; since is when it called, from the refresh its answer comes from. */
  datatype Caller<T> =
    | Waiting(since: int, flight: nat)
    | Answered(since: int, result: Result<T>, from: nat)
    | Canceled

  /**
   * starts holds when each fetch began, refreshes how each one ended; context is the one
   * the latest fetch was started under, ended the callers whose own context has ended.
   * detach says whether get detaches a fetch from its caller: the source does, and false
   * is only there to see what would be lost.
   */
  datatype System<T> = System(
    policy: Policy, detach: bool, cache: Cache<T>, now: int, starts: seq<int>, refreshes: seq<Refreshed<T>>,
    context: Context, ended: set<nat>, callers: map<nat, Caller<T>>)

  datatype Action<T> =
    | Tick(elapsed: nat)
    | Call(caller: nat, canceled: bool)
    | Finish(fetched: Result<T>)
    | Deliver(caller: nat)
    | EndContext(caller: nat)
    | GiveUp(caller: nat)

  function Start<T>(policy: Policy, detach: bool, zero: T, now: int): System<T> {
    System(policy, detach, Cache(zero, None, false, None, false), now, [], [], Detached, {}, map[])
  }

  /** The running fetch's context has ended, so it can only fail. */
  predicate FetchCanceled<T>(s: System<T>) {
    s.context.Bound? && s.context.caller in s.ended
  }

  predicate Enabled<T>(s: System<T>, a: Action<T>) {
    match a
    case Tick(_) => true
    case Call(c, _) => c !in s.callers
    case Finish(fetched) => s.cache.refreshing && (FetchCanceled(s) ==> fetched.err.Some?)
    case Deliver(c) => c in s.callers && s.callers[c].Waiting? && s.callers[c].flight < |s.refreshes|
    case EndContext(c) => c in s.callers
    case GiveUp(c) => c in s.callers && s.callers[c].Waiting? && c in s.ended
  }

  /** The refresh a cached answer comes from: the latest, or the latest successful one when stale. */
  function Source<T>(cache: Cache<T>, refreshes: seq<Refreshed<T>>, now: int): nat {
    if Fresh(cache, now) then |refreshes| - (if refreshes == [] then 0 else 1) else LastGood(refreshes)
  }

  /** The latest successful refresh; 0 when there is none. */
  function LastGood<T>(rs: seq<Refreshed<T>>): (k: nat)
    ensures rs != [] ==> k < |rs|
  {
    if rs == [] then 0
    else if rs[|rs| - 1].fetched.err.None? then |rs| - 1
    else LastGood(rs[..|rs| - 1])
  }

  function Step<T>(s: System<T>, a: Action<T>): System<T> {
    match a
    case Tick(d) => s.(now := s.now + d)
    case Call(c, canceled) =>
      if canceled then s.(callers := s.callers[c := Canceled])
      else
        var (cache, answer) := Enter(s.cache, s.policy, s.now);
        var starts := cache.refreshing && !s.cache.refreshing;
        var caller := if answer.Ready? then Answered(s.now, answer.result, Source(s.cache, s.refreshes, s.now))
                      else Waiting(s.now, |s.refreshes|);
        s.(cache := cache,
           starts := if starts then s.starts + [s.now] else s.starts,
           context := if !starts then s.context else if s.detach then WithoutCancel(Bound(c)) else Bound(c),
           callers := s.callers[c := caller])
    case Finish(fetched) =>
      var cache := Complete(s.cache, s.policy, s.now, fetched);
      s.(cache := cache, refreshes := s.refreshes + [Refreshed(s.now, fetched, Result(cache.value, cache.err))])
    case Deliver(c) =>
      if !Enabled(s, a) then s else
      var w := s.callers[c];
      s.(callers := s.callers[c := Answered(w.since, s.refreshes[w.flight].published, w.flight)])
    case EndContext(c) => s.(ended := s.ended + {c})
    case GiveUp(c) => s.(callers := s.callers[c := Canceled])
  }

  predicate Legal<T>(s: System<T>, acts: seq<Action<T>>) {
    acts == [] || (Legal(s, acts[..|acts| - 1]) && Enabled(Run(s, acts[..|acts| - 1]), acts[|acts| - 1]))
  }

  function Run<T>(s: System<T>, acts: seq<Action<T>>): System<T> {
    if acts == [] then s else Step(Run(s, acts[..|acts| - 1]), acts[|acts| - 1])
  }

  // ---------------------------------------------------------------- the invariant

  function Until<T>(p: Policy, r: Refreshed<T>): int {
    r.at + TimeToLive(p, r.fetched.err)
  }

  /** Fetch i starts by now, ends as refresh i, and not before refresh i-1 has outlived its time to live. */
  ghost predicate StartsOk<T>(p: Policy, starts: seq<int>, refreshes: seq<Refreshed<T>>, now: int)
    requires |refreshes| <= |starts| <= |refreshes| + 1
  {
    && (forall i :: 0 <= i < |starts| ==> starts[i] <= now)
    && (forall i :: 0 <= i < |refreshes| ==> starts[i] <= refreshes[i].at <= now)
    && (forall i :: 0 < i < |starts| ==> Until(p, refreshes[i - 1]) <= starts[i])
  }

  ghost predicate TimesOk<T>(s: System<T>) {
    var n := |s.refreshes|;
    && |s.starts| == n + (if s.cache.refreshing then 1 else 0)
    && s.cache.nextRefresh == (if n == 0 then None else Some(Until(s.policy, s.refreshes[n - 1])))
    && StartsOk(s.policy, s.starts, s.refreshes, s.now)
  }

  lemma NewStart<T>(p: Policy, starts: seq<int>, refreshes: seq<Refreshed<T>>, now: int)
    requires |starts| == |refreshes| && StartsOk(p, starts, refreshes, now)
    requires refreshes != [] ==> Until(p, refreshes[|refreshes| - 1]) <= now
    ensures StartsOk(p, starts + [now], refreshes, now)
  {
  }

  lemma NewRefresh<T>(p: Policy, starts: seq<int>, refreshes: seq<Refreshed<T>>, r: Refreshed<T>)
    requires |starts| == |refreshes| + 1 && StartsOk(p, starts, refreshes, r.at)
    ensures StartsOk(p, starts, refreshes + [r], r.at)
  {
    var more := refreshes + [r];
    assert forall i :: 0 <= i < |refreshes| ==> more[i] == refreshes[i];
  }

  ghost predicate ValueOk<T>(s: System<T>) {
    var n := |s.refreshes|;
    && (n > 0 ==> s.refreshes[n - 1].published == Result(s.cache.value, s.cache.err))
    && (s.cache.hasValue ==> n > 0 && s.refreshes[LastGood(s.refreshes)].fetched == Result(s.cache.value, None))
    && (s.policy.serveStale ==> (s.cache.hasValue <==> exists i :: 0 <= i < n && s.refreshes[i].fetched.err.None?))
  }

  /** An answered caller was given a refresh that was current when it called, or ended later. */
  ghost predicate CallerOk<T>(s: System<T>, c: Caller<T>) {
    match c
    case Waiting(since, f) => since <= s.now && f <= |s.refreshes| && (f == |s.refreshes| ==> s.cache.refreshing)
                              && (f < |s.refreshes| ==> since <= s.refreshes[f].at)
    case Answered(since, r, k) =>
      && k < |s.refreshes|
      && (!s.policy.serveStale ==> r == s.refreshes[k].published
                                   && (since <= s.refreshes[k].at || since < Until(s.policy, s.refreshes[k])))
    case Canceled => true
  }

  ghost predicate Inv<T>(s: System<T>) {
    TimesOk(s) && ValueOk(s) && forall c :: c in s.callers ==> CallerOk(s, s.callers[c])
  }

  lemma {:induction false} LastGoodMeaning<T>(rs: seq<Refreshed<T>>)
    ensures var k := LastGood(rs);
            && (rs != [] ==> k < |rs|)
            && ((exists i :: 0 <= i < |rs| && rs[i].fetched.err.None?) ==> rs[k].fetched.err.None?)
            && forall i :: k < i < |rs| ==> rs[i].fetched.err.Some?
  {
    if rs != [] && rs[|rs| - 1].fetched.err.Some? {
      var pre := rs[..|rs| - 1];
      LastGoodMeaning(pre);
      forall i | 0 <= i < |rs| && rs[i].fetched.err.None?
        ensures pre[i].fetched.err.None?
      {
      }
    }
  }

  lemma CallTimes<T>(s: System<T>, a: Action<T>)
    requires TimesOk(s) && a.Call?
    ensures TimesOk(Step(s, a))
  {
    hide Source, StartsOk;
    if !a.canceled && !Fresh(s.cache, s.now) && !s.cache.refreshing {
      NewStart(s.policy, s.starts, s.refreshes, s.now);
    }
  }

  /** A call leaves the value and the refreshes alone. */
  lemma CallValue<T>(s: System<T>, a: Action<T>)
    requires ValueOk(s) && a.Call?
    ensures ValueOk(Step(s, a))
    ensures var s' := Step(s, a);
            && s'.policy == s.policy && s'.refreshes == s.refreshes && s'.now == s.now
            && (s.cache.refreshing ==> s'.cache.refreshing)
            && s'.callers == s.callers[a.caller := s'.callers[a.caller]]
  {
    hide Source, LastGood;
  }

  /** A caller is judged by the policy, the refreshes and the clock, and by whether a fetch is running. */
  lemma CallerKept<T>(s: System<T>, t: System<T>, c: Caller<T>)
    requires CallerOk(s, c)
    requires t.policy == s.policy && t.refreshes == s.refreshes && s.now <= t.now
    requires s.cache.refreshing ==> t.cache.refreshing
    ensures CallerOk(t, c)
  {
  }

  lemma CallKeepsInv<T>(s: System<T>, a: Action<T>)
    requires Inv(s) && Enabled(s, a) && a.Call?
    ensures Inv(Step(s, a))
  {
    CallTimes(s, a);
    CallValue(s, a);
    NewCallerOk(s, a);
    hide TimesOk, ValueOk, CallerOk, Step;
    var s' := Step(s, a);
    forall c | c in s'.callers
      ensures CallerOk(s', s'.callers[c])
    {
      if c != a.caller {
        assert CallerOk(s, s.callers[c]);
        CallerKept(s, s', s.callers[c]);
      }
    }
  }

  lemma NewCallerOk<T>(s: System<T>, a: Action<T>)
    requires TimesOk(s) && ValueOk(s) && Enabled(s, a) && a.Call?
    ensures a.caller in Step(s, a).callers && CallerOk(Step(s, a), Step(s, a).callers[a.caller])
  {
    hide LastGood;
  }

  lemma FinishTimes<T>(s: System<T>, a: Action<T>)
    requires TimesOk(s) && Enabled(s, a) && a.Finish?
    ensures TimesOk(Step(s, a))
  {
    NewRefresh(s.policy, s.starts, s.refreshes, Step(s, a).refreshes[|s.refreshes|]);
    hide StartsOk;
  }

  lemma FinishValue<T>(s: System<T>, a: Action<T>)
    requires Inv(s) && Enabled(s, a) && a.Finish?
    ensures ValueOk(Step(s, a))
  {
    var s' := Step(s, a);
    var n := |s.refreshes|;
    assert s'.refreshes[..n] == s.refreshes && s'.refreshes[n].fetched == a.fetched;
    assert forall i :: 0 <= i < n ==> s'.refreshes[i] == s.refreshes[i];
    LastGoodMeaning(s.refreshes);
  }

  lemma FinishKeepsInv<T>(s: System<T>, a: Action<T>)
    requires Inv(s) && Enabled(s, a) && a.Finish?
    ensures Inv(Step(s, a))
  {
    FinishTimes(s, a);
    FinishValue(s, a);
    hide TimesOk, ValueOk, Complete;
    var s' := Step(s, a);
    assert forall i :: 0 <= i < |s.refreshes| ==> s'.refreshes[i] == s.refreshes[i];
    forall c | c in s'.callers
      ensures CallerOk(s', s'.callers[c])
    {
      assert CallerOk(s, s.callers[c]);
    }
  }

  ghost predicate SameBooks<T>(s: System<T>, t: System<T>) {
    s.policy == t.policy && s.cache == t.cache && s.starts == t.starts && s.refreshes == t.refreshes && s.now <= t.now
  }

  lemma BooksFrame<T>(s: System<T>, t: System<T>)
    requires SameBooks(s, t) && TimesOk(s) && ValueOk(s)
    ensures TimesOk(t) && ValueOk(t)
  {
    hide LastGood, StartsOk, Until;
    StartsLater(s.policy, s.starts, s.refreshes, s.now, t.now);
  }

  lemma StartsLater<T>(p: Policy, starts: seq<int>, refreshes: seq<Refreshed<T>>, now: int, later: int)
    requires |refreshes| <= |starts| <= |refreshes| + 1 && StartsOk(p, starts, refreshes, now) && now <= later
    ensures StartsOk(p, starts, refreshes, later)
  {
  }

  lemma DeliveredOk<T>(s: System<T>, c: nat)
    requires TimesOk(s) && Enabled(s, Deliver(c)) && CallerOk(s, s.callers[c])
    ensures CallerOk(s, Step(s, Deliver(c)).callers[c])
  {
    hide LastGood;
  }

  /** The clock, an answer being delivered, a context ending and a caller giving up. */
  predicate Quiet<T>(a: Action<T>) {
    a.Tick? || a.Deliver? || a.EndContext? || a.GiveUp?
  }

  lemma QuietFrame<T>(s: System<T>, a: Action<T>)
    requires Enabled(s, a) && Quiet(a)
    ensures SameBooks(s, Step(s, a)) && Step(s, a).callers.Keys == s.callers.Keys
    ensures forall c :: c in s.callers ==>
              Step(s, a).callers[c] == s.callers[c] || a == Deliver(c) || Step(s, a).callers[c].Canceled?
  {
  }

  lemma QuietCallerOk<T>(s: System<T>, a: Action<T>, c: nat)
    requires TimesOk(s) && Enabled(s, a) && Quiet(a) && c in s.callers && CallerOk(s, s.callers[c])
    ensures c in Step(s, a).callers && CallerOk(s, Step(s, a).callers[c])
  {
    hide TimesOk;
    QuietFrame(s, a);
    if a == Deliver(c) {
      DeliveredOk(s, c);
    }
    hide Step, Enabled;
  }

  /** They change no books. */
  lemma QuietKeepsInv<T>(s: System<T>, a: Action<T>)
    requires Inv(s) && Enabled(s, a) && Quiet(a)
    ensures Inv(Step(s, a))
  {
    hide ValueOk, TimesOk, CallerOk, Enabled, Quiet, Step;
    QuietFrame(s, a);
    BooksFrame(s, Step(s, a));
    forall c | c in Step(s, a).callers
      ensures CallerOk(Step(s, a), Step(s, a).callers[c])
    {
      QuietCallerOk(s, a, c);
      CallerKept(s, Step(s, a), Step(s, a).callers[c]);
    }
  }

  lemma StepKeepsInv<T>(s: System<T>, a: Action<T>)
    requires Inv(s) && Enabled(s, a)
    ensures Inv(Step(s, a)) && Step(s, a).policy == s.policy
  {
    hide Inv;
    match a {
      case Call(_, _) => CallKeepsInv(s, a);
      case Finish(_) => FinishKeepsInv(s, a);
      case _ => QuietKeepsInv(s, a);
    }
  }

  lemma {:induction false} RunKeepsInv<T>(s: System<T>, acts: seq<Action<T>>)
    requires Inv(s) && Legal(s, acts)
    ensures Inv(Run(s, acts)) && Run(s, acts).policy == s.policy
  {
    if acts != [] {
      RunKeepsInv(s, acts[..|acts| - 1]);
      StepKeepsInv(Run(s, acts[..|acts| - 1]), acts[|acts| - 1]);
    }
  }

  // ---------------------------------------------------------------- what callers can rely on

  /** No two fetches overlap, and none starts before the previous one's time to live is over. */
  lemma FetchesAreSpaced<T>(policy: Policy, detach: bool, zero: T, now: int, acts: seq<Action<T>>)
    requires Legal(Start(policy, detach, zero, now), acts)
    ensures var s := Run(Start(policy, detach, zero, now), acts);
            && |s.refreshes| <= |s.starts| <= |s.refreshes| + 1
            && (|s.starts| == |s.refreshes| + 1 <==> s.cache.refreshing)
            && forall i :: 0 < i < |s.starts| ==>
                 s.starts[i] >= s.refreshes[i - 1].at
                                + (if s.refreshes[i - 1].fetched.err.Some? then policy.failureTTL else policy.ttl)
  {
    RunKeepsInv(Start(policy, detach, zero, now), acts);
  }

  /**
   * Without stale serving, every answer is what some refresh published, and that
   * refresh had not outlived its time to live when the caller called.
   */
  lemma AnswersAreFresh<T>(policy: Policy, detach: bool, zero: T, now: int, acts: seq<Action<T>>, c: nat)
    requires Legal(Start(policy, detach, zero, now), acts) && !policy.serveStale
    requires var s := Run(Start(policy, detach, zero, now), acts); c in s.callers && s.callers[c].Answered?
    ensures var s := Run(Start(policy, detach, zero, now), acts); var a := s.callers[c];
            && a.from < |s.refreshes| && a.result == s.refreshes[a.from].published == s.refreshes[a.from].fetched
            && (a.since <= s.refreshes[a.from].at
                || a.since < s.refreshes[a.from].at
                             + (if s.refreshes[a.from].fetched.err.Some? then policy.failureTTL else policy.ttl))
  {
    var s0 := Start(policy, detach, zero, now);
    RunKeepsInv(s0, acts);
    var s := Run(s0, acts);
    assert CallerOk(s, s.callers[c]);
    PublishedIsFetched(s0, acts);
  }

  lemma {:induction false} PublishedIsFetched<T>(s: System<T>, acts: seq<Action<T>>)
    requires Legal(s, acts) && !s.policy.serveStale && s.refreshes == []
    ensures Run(s, acts).policy == s.policy
    ensures forall i :: 0 <= i < |Run(s, acts).refreshes| ==>
              Run(s, acts).refreshes[i].published == Run(s, acts).refreshes[i].fetched
  {
    if acts != [] {
      PublishedIsFetched(s, acts[..|acts| - 1]);
    }
  }

  /**
   * With stale serving, once any fetch has succeeded the cache holds the value of the
   * latest success whatever failed since, and every later caller is answered at once.
   */
  lemma StaleValueSurvives<T>(policy: Policy, detach: bool, zero: T, now: int, acts: seq<Action<T>>, i: nat)
    requires Legal(Start(policy, detach, zero, now), acts) && policy.serveStale
    requires var s := Run(Start(policy, detach, zero, now), acts); i < |s.refreshes| && s.refreshes[i].fetched.err.None?
    ensures var s := Run(Start(policy, detach, zero, now), acts); var k := LastGood(s.refreshes);
            && i <= k < |s.refreshes| && s.refreshes[k].fetched.err.None?
            && (forall j :: k < j < |s.refreshes| ==> s.refreshes[j].fetched.err.Some?)
            && s.cache.hasValue && s.cache.value == s.refreshes[k].fetched.value
            && Enter(s.cache, policy, s.now).1.Ready?
            && Enter(s.cache, policy, s.now).1.result.value == s.refreshes[k].fetched.value
  {
    RunKeepsInv(Start(policy, detach, zero, now), acts);
    LastGoodMeaning(Run(Start(policy, detach, zero, now), acts).refreshes);
  }

  /** The latest refresh has outlived its time to live, or there was none. */
  predicate Due<T>(s: System<T>) {
    s.refreshes == []
    || var last := s.refreshes[|s.refreshes| - 1];
       s.now >= last.at + (if last.fetched.err.Some? then s.policy.failureTTL else s.policy.ttl)
  }

  /** A fetch is running: it started and has not ended. */
  predicate Running<T>(s: System<T>) {
    |s.starts| > |s.refreshes|
  }

  /** Refresh k is the latest successful one. */
  predicate LatestSuccess<T>(s: System<T>, k: int) {
    && 0 <= k < |s.refreshes| && s.refreshes[k].fetched.err.None?
    && forall i :: k < i < |s.refreshes| ==> s.refreshes[i].fetched.err.Some?
  }

  /** What a caller whose context is alive gets at once, or that it waits for the fetch under way. */
  ghost predicate Gets<T>(s: System<T>, caller: Caller<T>) {
    if !Due(s) then
      && caller.Answered? && caller.since == s.now && s.refreshes != []
      && caller.result.err == s.refreshes[|s.refreshes| - 1].fetched.err
      && (!s.policy.serveStale ==> caller.result.value == s.refreshes[|s.refreshes| - 1].published.value)
      && (s.policy.serveStale ==>
            forall k :: LatestSuccess(s, k) ==> caller.result.value == s.refreshes[k].fetched.value)
    else if s.policy.serveStale && exists k :: LatestSuccess(s, k) then
      && caller.Answered? && caller.since == s.now
      && forall k :: LatestSuccess(s, k) ==> caller.result == Result(s.refreshes[k].fetched.value, None)
    else caller == Waiting(s.now, |s.refreshes|)
  }

  /**
   * In every run a live caller starts a fetch exactly if the last one's time to live is
   * over and none is running; it waits only if it has to, and a stale answer hides the
   * errors since the value it shows.
   */
  lemma CallsAreAnswered<T>(policy: Policy, detach: bool, zero: T, now: int, acts: seq<Action<T>>, c: nat)
    requires Legal(Start(policy, detach, zero, now), acts)
    requires Enabled(Run(Start(policy, detach, zero, now), acts), Call(c, false))
    ensures var s := Run(Start(policy, detach, zero, now), acts);
            var t := Step(s, Call(c, false));
            && t.starts == (if Due(s) && !Running(s) then s.starts + [s.now] else s.starts)
            && t.refreshes == s.refreshes && Gets(s, t.callers[c])
  {
    var s := Run(Start(policy, detach, zero, now), acts);
    RunKeepsInv(Start(policy, detach, zero, now), acts);
    FailuresAreKept(Start(policy, detach, zero, now), acts);
    hide Run, Legal, Start;
    CallGets(s, c);
  }

  /** What is published names the fetch's error. */
  lemma {:induction false} FailuresAreKept<T>(s: System<T>, acts: seq<Action<T>>)
    requires Legal(s, acts) && s.refreshes == []
    ensures forall i :: 0 <= i < |Run(s, acts).refreshes| ==>
              Run(s, acts).refreshes[i].published.err == Run(s, acts).refreshes[i].fetched.err
  {
    if acts != [] {
      FailuresAreKept(s, acts[..|acts| - 1]);
    }
  }

  lemma SuccessIsLatest<T>(s: System<T>, k: int)
    requires LatestSuccess(s, k)
    ensures LastGood(s.refreshes) == k
  {
    LastGoodMeaning(s.refreshes);
  }

  lemma SomeSuccess<T>(s: System<T>)
    requires ValueOk(s) && s.policy.serveStale
    ensures s.cache.hasValue <==> exists k :: LatestSuccess(s, k)
  {
    LastGoodMeaning(s.refreshes);
    if s.cache.hasValue {
      assert LatestSuccess(s, LastGood(s.refreshes));
    }
  }

  lemma CallGets<T>(s: System<T>, c: nat)
    requires TimesOk(s) && ValueOk(s) && Enabled(s, Call(c, false))
    requires forall i :: 0 <= i < |s.refreshes| ==> s.refreshes[i].published.err == s.refreshes[i].fetched.err
    ensures var t := Step(s, Call(c, false));
            && t.starts == (if Due(s) && !Running(s) then s.starts + [s.now] else s.starts)
            && t.refreshes == s.refreshes && Gets(s, t.callers[c])
  {
    forall k | LatestSuccess(s, k)
      ensures LastGood(s.refreshes) == k
    {
      SuccessIsLatest(s, k);
    }
    if s.policy.serveStale {
      SomeSuccess(s);
    }
    hide StartsOk, LastGood, LatestSuccess;
  }

  // ---------------------------------------------------------------- cancellation

  /** The run in which caller c's context never ends. */
  ghost function Uncanceled<T>(acts: seq<Action<T>>, c: nat): seq<Action<T>> {
    if acts == [] then []
    else
      var a := acts[|acts| - 1];
      var pre := Uncanceled(acts[..|acts| - 1], c);
      if a == EndContext(c) || a == GiveUp(c) then pre else pre + [a]
  }

  /** The two states differ at most in caller c, whose context has ended only in the first. */
  ghost predicate SameButFor<T>(s: System<T>, t: System<T>, c: nat) {
    && s.policy == t.policy && s.detach == t.detach && s.cache == t.cache && s.now == t.now
    && s.starts == t.starts && s.refreshes == t.refreshes && s.context == t.context && s.callers.Keys == t.callers.Keys
    && t.ended <= s.ended <= t.ended + {c}
    && (forall d :: d in s.callers && d != c ==> s.callers[d] == t.callers[d])
    && (c in s.callers ==> s.callers[c] == t.callers[c] || (s.callers[c].Canceled? && t.callers[c].Waiting?))
  }

  lemma GivingUpAlone<T>(s: System<T>, t: System<T>, a: Action<T>, c: nat)
    requires SameButFor(s, t, c) && Enabled(s, a) && (a == EndContext(c) || a == GiveUp(c))
    ensures SameButFor(Step(s, a), t, c)
  {
  }

  lemma CallTogether<T>(s: System<T>, t: System<T>, a: Action<T>, c: nat)
    requires SameButFor(s, t, c) && Enabled(s, a) && a.Call?
    ensures Enabled(t, a) && SameButFor(Step(s, a), Step(t, a), c)
  {
    hide Enter, Source;
  }

  lemma DeliverTogether<T>(s: System<T>, t: System<T>, a: Action<T>, c: nat)
    requires SameButFor(s, t, c) && Enabled(s, a) && a.Deliver?
    ensures Enabled(t, a) && SameButFor(Step(s, a), Step(t, a), c)
  {
  }

  lemma RestTogether<T>(s: System<T>, t: System<T>, a: Action<T>, c: nat)
    requires SameButFor(s, t, c) && Enabled(s, a) && !a.Call? && !a.Deliver? && a != EndContext(c) && a != GiveUp(c)
    ensures Enabled(t, a) && SameButFor(Step(s, a), Step(t, a), c)
  {
    hide Complete;
  }

  lemma StepTogether<T>(s: System<T>, t: System<T>, a: Action<T>, c: nat)
    requires SameButFor(s, t, c) && Enabled(s, a)
    ensures a == EndContext(c) || a == GiveUp(c) ==> SameButFor(Step(s, a), t, c)
    ensures a != EndContext(c) && a != GiveUp(c) ==> Enabled(t, a) && SameButFor(Step(s, a), Step(t, a), c)
  {
    hide *;
    if a == EndContext(c) || a == GiveUp(c) {
      GivingUpAlone(s, t, a, c);
    } else if a.Call? {
      CallTogether(s, t, a, c);
    } else if a.Deliver? {
      DeliverTogether(s, t, a, c);
    } else {
      RestTogether(s, t, a, c);
    }
  }

  /** Without one caller's cancellation every fetch still ends the same way, and so does every other call. */
  lemma {:induction false} CancellationCanBeErased<T>(s: System<T>, acts: seq<Action<T>>, c: nat)
    requires Legal(s, acts)
    ensures Legal(s, Uncanceled(acts, c))
    ensures SameButFor(Run(s, acts), Run(s, Uncanceled(acts, c)), c)
  {
    if acts != [] {
      var pre, a := acts[..|acts| - 1], acts[|acts| - 1];
      CancellationCanBeErased(s, pre, c);
      hide Step, SameButFor;
      StepTogether(Run(s, pre), Run(s, Uncanceled(pre, c)), a, c);
      var kept := Uncanceled(pre, c);
      if a != EndContext(c) && a != GiveUp(c) {
        assert Uncanceled(acts, c) == kept + [a] && (kept + [a])[..|kept|] == kept;
      }
    }
  }

  /** What ending caller c's context forbids: giving a fetch bound to it a successful end, and nothing else. */
  lemma EndingForbidsExactly<T>(s: System<T>, c: nat, a: Action<T>)
    requires Enabled(s, EndContext(c))
    ensures Enabled(s, a) && !Enabled(Step(s, EndContext(c)), a) <==>
              a.Finish? && a.fetched.err.None? && s.cache.refreshing && s.context == Bound(c) && c !in s.ended
  {
  }

  lemma EndingCommutes<T>(s: System<T>, c: nat, a: Action<T>)
    requires Enabled(s, EndContext(c)) && Enabled(s, a) && s.context == Detached && s.detach
    ensures var e := Step(s, EndContext(c));
            && Enabled(e, a) && Enabled(Step(s, a), EndContext(c))
            && Step(e, a) == Step(Step(s, a), EndContext(c)) && Step(s, a).context == Detached
  {
    var e := Step(s, EndContext(c));
    assert e.ended + {c} == e.ended;
    if a.EndContext? {
      assert s.ended + {c} + {a.caller} == s.ended + {a.caller} + {c};
    }
  }

  lemma {:induction false} DetachedStays<T>(s: System<T>, acts: seq<Action<T>>)
    requires Legal(s, acts) && s.context == Detached && s.detach
    ensures Run(s, acts).context == Detached && Run(s, acts).detach
  {
    if acts != [] {
      DetachedStays(s, acts[..|acts| - 1]);
    }
  }

  /**
   * A fetch runs detached, so whatever can happen while a caller waits can happen just the
   * same after its context has ended at any earlier moment: the rest of the run stays
   * legal and ends in the same state, that context aside.
   */
  lemma {:induction false} CancellationIsPrivate<T>(
    policy: Policy, zero: T, now: int, before: seq<Action<T>>, c: nat, after: seq<Action<T>>)
    requires Legal(Start(policy, true, zero, now), before)
    requires var s := Run(Start(policy, true, zero, now), before); c in s.callers && Legal(s, after)
    ensures var s := Run(Start(policy, true, zero, now), before);
            var e := Step(s, EndContext(c));
            && Legal(e, after)
            && Run(e, after) == Run(s, after).(ended := Run(s, after).ended + {c})
    decreases |after|
  {
    var s0 := Start(policy, true, zero, now);
    var s := Run(s0, before);
    if after != [] {
      var pre, a := after[..|after| - 1], after[|after| - 1];
      CancellationIsPrivate(policy, zero, now, before, c, pre);
      DetachedStays(s0, before);
      DetachedStays(s, pre);
      CallersStay(s, pre, c);
      EndingCommutes(Run(s, pre), c, a);
      hide Start;
    }
  }

  lemma {:induction false} CallersStay<T>(s: System<T>, acts: seq<Action<T>>, c: nat)
    requires Legal(s, acts) && c in s.callers
    ensures c in Run(s, acts).callers
  {
    if acts != [] {
      CallersStay(s, acts[..|acts| - 1], c);
    }
  }

  /**
   * Detachment is what this rests on: were the fetch bound to its caller, then with two
   * callers waiting the first one's cancellation would leave the second no answer but an
   * error, where the fetch could have succeeded.
   */
  lemma BoundFetchIsNotPrivate<T>(policy: Policy, zero: T, now: int, value: T)
    ensures var s := Run(Start(policy, false, zero, now), [Call(0, false), Call(1, false)]);
            && Legal(Start(policy, false, zero, now), [Call(0, false), Call(1, false)])
            && Enabled(s, Finish(Result(value, None))) && Enabled(s, EndContext(0))
            && s.callers[1].Waiting?
            && forall fetched :: Enabled(Step(s, EndContext(0)), Finish(fetched)) ==> fetched.err.Some?
  {
    var s0 := Start(policy, false, zero, now);
    var first: seq<Action<T>>, both: seq<Action<T>> := [Call(0, false)], [Call(0, false), Call(1, false)];
    assert first[..0] == [] && both[..1] == first;
    assert Legal(s0, []) && Run(s0, []) == s0;
    assert Legal(s0, first) && Run(s0, first) == Step(s0, Call(0, false));
  }
}
