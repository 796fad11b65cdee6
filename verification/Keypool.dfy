/**
 * The upstream key pool (proxy/internal/keypool/keypool.go): fill-first selection
 * with a circuit breaker per key, generation-stamped leases and half-open probes.
 * One critical section of the pool's mutex is one step; times are nanoseconds on a
 * monotone clock that never shows the zero time.
 */
module Keypool {
  import opened Wrappers
  import opened Commandcode

  /** openUntil is None for the zero time: the breaker is closed. */
  datatype Key = Key(openUntil: Option<int>, probing: bool, generation: nat)

  datatype Lease = Lease(slot: nat, generation: nat)

  datatype Policy = Policy(creditsTTL: int, rateLimitTTL: int, systemOne: bool)

  /** Why an upstream call failed, as far as the pool looks. */
  datatype CallError = ContextEnded | Api(error: ApiError) | Transport

  datatype Outcome = Succeeded | Failed(error: CallError)

  /** What a report does to the key that served the call. */
  datatype Verdict = CloseBreaker | ReleaseProbe | OpenBreaker(ttl: int)

  const SECOND := 1_000_000_000

  predicate Cooling(k: Key, now: int) {
    k.openUntil.Some? && now < k.openUntil.value
  }

  predicate Usable(k: Key, now: int) {
    !k.probing && !Cooling(k, now)
  }

  predicate Eligible(keys: seq<Key>, attempted: set<nat>, now: int, i: nat)
    requires i < |keys|
  {
    i !in attempted && Usable(keys[i], now)
  }

  /** The first eligible slot at or after i. */
  function FirstEligible(keys: seq<Key>, attempted: set<nat>, now: int, i: nat): Option<nat>
    requires i <= |keys|
    decreases |keys| - i
  {
    if i == |keys| then None
    else if Eligible(keys, attempted, now, i) then Some(i)
    else FirstEligible(keys, attempted, now, i + 1)
  }

  /** Leasing an expired breaker starts its half-open probe in a fresh generation. */
  function Admit(k: Key): Key {
    if k.openUntil.Some? then k.(probing := true, generation := k.generation + 1) else k
  }

  function Acquire(keys: seq<Key>, attempted: set<nat>, now: int): (seq<Key>, Option<Lease>) {
    var c := FirstEligible(keys, attempted, now, 0);
    if c.None? then (keys, None)
    else
      FirstEligibleInRange(keys, attempted, now, 0);
      var k := Admit(keys[c.value]);
      (keys[c.value := k], Some(Lease(c.value, k.generation)))
  }

  /** reportFailure's classification: what to do with the key, and whether to try another. */
  function Judge(p: Policy, e: CallError): (Verdict, bool) {
    match e
    case ContextEnded => (ReleaseProbe, false)
    case Transport => (CloseBreaker, false)
    case Api(a) =>
      if a.requestTooLarge || a.zdrUnavailable || a.spendCapExceeded then (CloseBreaker, false)
      else if a.insufficientCredits then (OpenBreaker(p.creditsTTL), true)
      else if a.rateLimited then (OpenBreaker(if a.retryAfter > 0 then a.retryAfter else p.rateLimitTTL), true)
      else if a.modelNotInPlan then (CloseBreaker, true)
      else if a.modelNotRecognized then (CloseBreaker, false)
      else if p.systemOne && a.status == 403 && !a.namesBadCredential then (CloseBreaker, false)
      else if a.status == 401 || a.status == 403 then (OpenBreaker(p.creditsTTL), true)
      else (CloseBreaker, false)
  }

  function VerdictOf(p: Policy, o: Outcome): Verdict {
    match o
    case Succeeded => CloseBreaker
    case Failed(e) => Judge(p, e).0
  }

  /** A verdict on a key, by a lease of its current generation. */
  function Settle(k: Key, v: Verdict, now: int): Key {
    match v
    case CloseBreaker => k.(openUntil := None, probing := false)
    case ReleaseProbe => k.(probing := false)
    case OpenBreaker(ttl) => Key(Some(now + ttl), false, k.generation + 1)
  }

  /** A report by a lease of an older generation changes nothing. */
  function Report(keys: seq<Key>, l: Lease, v: Verdict, now: int): seq<Key> {
    if l.slot >= |keys| || keys[l.slot].generation != l.generation then keys
    else keys[l.slot := Settle(keys[l.slot], v, now)]
  }

  /** The shortest positive remaining cooldown among the first n keys; 0 if none cools. */
  function ShortestCooldown(keys: seq<Key>, now: int, n: nat): int
    requires n <= |keys|
  {
    if n == 0 then 0
    else
      var best := ShortestCooldown(keys, now, n - 1);
      if Cooling(keys[n - 1], now) && (best == 0 || keys[n - 1].openUntil.value - now < best)
      then keys[n - 1].openUntil.value - now else best
  }

  function RetryAfter(keys: seq<Key>, now: int): int {
    var wait := ShortestCooldown(keys, now, |keys|);
    if wait == 0 then SECOND else wait
  }

  lemma {:induction false} FirstEligibleInRange(keys: seq<Key>, attempted: set<nat>, now: int, i: nat)
    requires i <= |keys|
    ensures var c := FirstEligible(keys, attempted, now, i);
            match c
            case Some(s) => i <= s < |keys| && Eligible(keys, attempted, now, s)
                            && forall j :: i <= j < s ==> !Eligible(keys, attempted, now, j)
            case None => forall j :: i <= j < |keys| ==> !Eligible(keys, attempted, now, j)
    decreases |keys| - i
  {
    if i < |keys| && !Eligible(keys, attempted, now, i) {
      FirstEligibleInRange(keys, attempted, now, i + 1);
    }
  }

  // ---------------------------------------------------------------- the pool object

  datatype Unavailable = Unavailable(keyCount: nat, retryAfter: int)

  datatype RouteStatus = RouteStatus(available: bool, probing: bool, retryAt: Option<int>)

  /** One upstream call of a request: the pool its lease was taken from, and its outcome. */
  datatype Call = Call(seen: seq<Key>, at: int, lease: Lease, outcome: Outcome)

  datatype Result = Served(slot: nat) | ContextError | NoKey(unavailable: Unavailable) | CallFailed(error: CallError)

  function SlotsOf(calls: seq<Call>): set<nat> {
    if calls == [] then {} else SlotsOf(calls[..|calls| - 1]) + {calls[|calls| - 1].lease.slot}
  }

  /** The lease is on the lowest eligible slot not tried before. */
  predicate FillFirst(seen: seq<Key>, at: int, tried: set<nat>, lease: Lease) {
    && lease.slot < |seen| && Eligible(seen, tried, at, lease.slot)
    && (forall j: nat :: j < lease.slot ==> !Eligible(seen, tried, at, j))
    && lease.generation == Admit(seen[lease.slot]).generation
  }

  /** Every call leased the lowest eligible slot that the calls before it had not tried. */
  ghost predicate InOrder(calls: seq<Call>, keyCount: nat) {
    forall i :: 0 <= i < |calls| ==>
      |calls[i].seen| == keyCount && FillFirst(calls[i].seen, calls[i].at, SlotsOf(calls[..i]), calls[i].lease)
  }

  /** The call failed in a way that makes trying another key worthwhile. */
  predicate Rotates(p: Policy, c: Call) {
    c.outcome.Failed? && Judge(p, c.outcome.error).1
  }

  ghost predicate AllRotate(p: Policy, calls: seq<Call>) {
    forall i :: 0 <= i < |calls| ==> Rotates(p, calls[i])
  }

  lemma AppendRotates(p: Policy, calls: seq<Call>, c: Call)
    requires AllRotate(p, calls)
    ensures Rotates(p, c) ==> AllRotate(p, calls + [c])
  {
  }

  /** What other requests do to the pool before a request's n-th critical section. */
  type Environment = (nat, seq<Key>) -> seq<Key>

  /**
   * Everything around one request: other requests, the clock at its n-th critical section,
   * whether its context has ended by its n-th turn, and the upstream's answer to that
   * turn's call with a slot's key.
   */
  datatype World = World(env: Environment, clock: nat -> int, canceled: nat -> bool, call: (nat, nat) -> Outcome)

  ghost predicate KeepsSize(w: World) {
    forall i, ks :: |w.env(i, ks)| == |ks|
  }

  /** One turn: interference, one lease, interference, the one report of that lease. */
  function TurnEffect(p: Policy, w: World, keys: seq<Key>, n: nat, tried: set<nat>, c: Call): seq<Key> {
    var leased := Acquire(w.env(2 * n, keys), tried, w.clock(2 * n)).0;
    Report(w.env(2 * n + 1, leased), c.lease, VerdictOf(p, c.outcome), w.clock(2 * n + 1))
  }

  /** The pool after these calls of one request. */
  function After(p: Policy, w: World, keys: seq<Key>, calls: seq<Call>): seq<Key> {
    if calls == [] then keys
    else
      var n := |calls| - 1;
      TurnEffect(p, w, After(p, w, keys, calls[..n]), n, SlotsOf(calls[..n]), calls[n])
  }

  lemma AfterAppend(p: Policy, w: World, keys: seq<Key>, calls: seq<Call>, c: Call)
    ensures After(p, w, keys, calls + [c]) == TurnEffect(p, w, After(p, w, keys, calls), |calls|, SlotsOf(calls), c)
  {
    assert (calls + [c])[..|calls|] == calls;
  }

  /** The n-th call is the real one: the pool it saw, the lease the pool gave, and the upstream's answer. */
  predicate Genuine(w: World, pool: seq<Key>, n: nat, tried: set<nat>, c: Call) {
    && !w.canceled(n)
    && c.seen == w.env(2 * n, pool) && c.at == w.clock(2 * n)
    && Acquire(c.seen, tried, c.at).1 == Some(c.lease)
    && c.outcome == w.call(n, c.lease.slot)
  }

  ghost predicate AllGenuine(p: Policy, w: World, start: seq<Key>, calls: seq<Call>) {
    forall i :: 0 <= i < |calls| ==> Genuine(w, After(p, w, start, calls[..i]), i, SlotsOf(calls[..i]), calls[i])
  }

  lemma AppendGenuine(p: Policy, w: World, start: seq<Key>, calls: seq<Call>, c: Call)
    requires AllGenuine(p, w, start, calls)
    requires Genuine(w, After(p, w, start, calls), |calls|, SlotsOf(calls), c)
    ensures AllGenuine(p, w, start, calls + [c])
  {
    hide Genuine, After, SlotsOf;
    var more := calls + [c];
    forall i | 0 <= i < |more|
      ensures Genuine(w, After(p, w, start, more[..i]), i, SlotsOf(more[..i]), more[i])
    {
      assert more[..i] == if i < |calls| then calls[..i] else calls;
    }
  }

  lemma PrefixGenuine(p: Policy, w: World, start: seq<Key>, calls: seq<Call>, n: nat)
    requires AllGenuine(p, w, start, calls) && n <= |calls|
    ensures AllGenuine(p, w, start, calls[..n])
  {
    hide Genuine, After, SlotsOf;
    forall i | 0 <= i < n
      ensures Genuine(w, After(p, w, start, calls[..n][..i]), i, SlotsOf(calls[..n][..i]), calls[..n][i])
    {
      assert calls[..n][..i] == calls[..i];
    }
  }

  /** The lease Acquire takes is on the lowest eligible slot. */
  lemma AcquireFillsFirst(seen: seq<Key>, tried: set<nat>, at: int, lease: Lease)
    requires Acquire(seen, tried, at).1 == Some(lease)
    ensures FillFirst(seen, at, tried, lease)
  {
    FirstEligibleInRange(seen, tried, at, 0);
  }

  lemma AppendCall(calls: seq<Call>, c: Call, keyCount: nat)
    requires InOrder(calls, keyCount) && |c.seen| == keyCount && FillFirst(c.seen, c.at, SlotsOf(calls), c.lease)
    ensures InOrder(calls + [c], keyCount)
    ensures SlotsOf(calls + [c]) == SlotsOf(calls) + {c.lease.slot}
  {
    var more := calls + [c];
    assert more[..|calls|] == calls;
    forall i | 0 <= i < |more|
      ensures |more[i].seen| == keyCount && FillFirst(more[i].seen, more[i].at, SlotsOf(more[..i]), more[i].lease)
    {
      if i < |calls| {
        assert more[..i] == calls[..i];
      }
    }
  }

  lemma {:induction false} SlotIn(calls: seq<Call>, i: nat)
    requires i < |calls|
    ensures calls[i].lease.slot in SlotsOf(calls)
  {
    if i < |calls| - 1 {
      SlotIn(calls[..|calls| - 1], i);
    }
  }

  lemma PrefixInOrder(calls: seq<Call>, n: nat, keyCount: nat)
    requires InOrder(calls, keyCount) && n <= |calls|
    ensures InOrder(calls[..n], keyCount)
  {
    hide FillFirst, SlotsOf;
    forall i | 0 <= i < n
      ensures |calls[..n][i].seen| == keyCount
      ensures FillFirst(calls[..n][i].seen, calls[..n][i].at, SlotsOf(calls[..n][..i]), calls[..n][i].lease)
    {
      assert calls[..n][..i] == calls[..i];
    }
  }

  lemma {:induction false} CountSlots(calls: seq<Call>, keyCount: nat)
    requires InOrder(calls, keyCount)
    ensures |SlotsOf(calls)| == |calls| && forall s :: s in SlotsOf(calls) ==> s < keyCount
  {
    if calls != [] {
      var n := |calls| - 1;
      PrefixInOrder(calls, n, keyCount);
      CountSlots(calls[..n], keyCount);
      var last := calls[n];
      assert FillFirst(last.seen, last.at, SlotsOf(calls[..n]), last.lease) && |last.seen| == keyCount;
      hide InOrder, Eligible;
      assert last.lease.slot !in SlotsOf(calls[..n]) by {
        SlotIsNew(last, SlotsOf(calls[..n]));
      }
    }
  }

  lemma SlotIsNew(c: Call, tried: set<nat>)
    requires FillFirst(c.seen, c.at, tried, c.lease)
    ensures c.lease.slot !in tried
  {
  }

  /** In-order calls use distinct slots, so there are no more calls than keys. */
  lemma CallsAreDistinct(calls: seq<Call>, keyCount: nat)
    requires InOrder(calls, keyCount)
    ensures forall i, j :: 0 <= i < j < |calls| ==> calls[i].lease.slot != calls[j].lease.slot
    ensures |calls| <= keyCount
  {
    forall i, j | 0 <= i < j < |calls|
      ensures calls[i].lease.slot != calls[j].lease.slot
    {
      SlotIn(calls[..j], i);
    }
    CountSlots(calls, keyCount);
    SlotBound(SlotsOf(calls), keyCount);
  }

  lemma {:induction false} SlotBound(slots: set<nat>, n: nat)
    requires forall s :: s in slots ==> s < n
    ensures |slots| <= n
  {
    if n == 0 {
      assert slots == {};
    } else {
      SlotBound(slots - {n - 1}, n - 1);
    }
  }

  /** Between turns: the pool is what the calls so far made of it, and all of them rotated. */
  ghost predicate Looping(p: Policy, w: World, start: seq<Key>, keys: seq<Key>, calls: seq<Call>,
                          lastErr: Option<CallError>) {
    && |keys| == |start| && InOrder(calls, |keys|) && AllRotate(p, calls) && AllGenuine(p, w, start, calls)
    && keys == After(p, w, start, calls)
    && if calls == [] then lastErr.None? else lastErr == Some(calls[|calls| - 1].outcome.error)
  }

  /**
   * How a request ends, and what its calls have done to the pool by then.  Every call was
   * genuine and leased the lowest eligible slot; the pool is what one lease and one report
   * of that same lease per call, and the others' interference, made of it.
   */
  ghost predicate Concluded(p: Policy, w: World, start: seq<Key>, keys: seq<Key>, calls: seq<Call>, result: Result) {
    var n, after := |calls|, After(p, w, start, calls);
    && |keys| == |start| && InOrder(calls, |keys|) && AllGenuine(p, w, start, calls)
    && (n > 0 ==> AllRotate(p, calls[..n - 1]))
    && match result
       case Served(slot) =>
         keys == after && n > 0 && calls[n - 1].outcome.Succeeded? && slot == calls[n - 1].lease.slot
       case ContextError =>
         keys == after && w.canceled(n) && AllRotate(p, calls)
       case NoKey(u) =>
         && keys == w.env(2 * n, after) && calls == [] && !w.canceled(n)
         && u == Unavailable(|keys|, RetryAfter(keys, w.clock(0)))
         && forall i: nat :: i < |keys| ==> !Usable(keys[i], w.clock(0))
       case CallFailed(e) =>
         && n > 0 && calls[n - 1].outcome == Failed(e)
         && if Rotates(p, calls[n - 1]) then
              && keys == w.env(2 * n, after) && !w.canceled(n)
              && forall i: nat :: i < |keys| ==> i in SlotsOf(calls) || !Usable(keys[i], w.clock(2 * n))
            else keys == after
  }

  lemma LoopBound(p: Policy, w: World, start: seq<Key>, keys: seq<Key>, calls: seq<Call>, lastErr: Option<CallError>)
    requires Looping(p, w, start, keys, calls, lastErr)
    ensures |keys| == |start| && |calls| <= |keys|
  {
    CallsAreDistinct(calls, |keys|);
  }

  lemma ConcludeCanceled(p: Policy, w: World, start: seq<Key>, keys: seq<Key>, calls: seq<Call>,
                         lastErr: Option<CallError>)
    requires Looping(p, w, start, keys, calls, lastErr) && w.canceled(|calls|)
    ensures Concluded(p, w, start, keys, calls, ContextError)
  {
    hide InOrder, AllGenuine, After, Judge;
  }

  lemma ConcludeUnavailable(p: Policy, w: World, start: seq<Key>, keys: seq<Key>, calls: seq<Call>,
                            lastErr: Option<CallError>)
    requires Looping(p, w, start, keys, calls, lastErr) && !w.canceled(|calls|)
    requires var seen := w.env(2 * |calls|, keys);
             |seen| == |keys|
             && forall i: nat :: i < |seen| ==> !Eligible(seen, SlotsOf(calls), w.clock(2 * |calls|), i)
    ensures var seen := w.env(2 * |calls|, keys);
            Concluded(p, w, start, seen, calls,
                      if lastErr.Some? then CallFailed(lastErr.value)
                      else NoKey(Unavailable(|seen|, RetryAfter(seen, w.clock(2 * |calls|)))))
  {
    hide InOrder, AllGenuine, After, RetryAfter, Judge;
    var seen, tried := w.env(2 * |calls|, keys), SlotsOf(calls);
    forall i: nat | i < |seen|
      ensures i in tried || !Usable(seen[i], w.clock(2 * |calls|))
    {
      assert !Eligible(seen, tried, w.clock(2 * |calls|), i);
    }
    if calls != [] {
      assert Rotates(p, calls[|calls| - 1]);
    }
  }

  lemma ConcludeCall(p: Policy, w: World, start: seq<Key>, keys: seq<Key>, calls: seq<Call>,
                     lastErr: Option<CallError>, c: Call)
    requires Looping(p, w, start, keys, calls, lastErr)
    requires |c.seen| == |keys| && Genuine(w, keys, |calls|, SlotsOf(calls), c)
    requires |TurnEffect(p, w, keys, |calls|, SlotsOf(calls), c)| == |keys|
    ensures var now := TurnEffect(p, w, keys, |calls|, SlotsOf(calls), c); var more := calls + [c];
            && SlotsOf(more) == SlotsOf(calls) + {c.lease.slot} && |more| <= |keys|
            && if Rotates(p, c) then Looping(p, w, start, now, more, Some(c.outcome.error))
               else Concluded(p, w, start, now, more,
                              if c.outcome.Succeeded? then Served(c.lease.slot) else CallFailed(c.outcome.error))
  {
    AcquireFillsFirst(c.seen, SlotsOf(calls), c.at, c.lease);
    AppendCall(calls, c, |keys|);
    AppendGenuine(p, w, start, calls, c);
    AfterAppend(p, w, start, calls, c);
    AppendRotates(p, calls, c);
    CallsAreDistinct(calls + [c], |keys|);
    hide InOrder, AllGenuine, After, TurnEffect, Judge, FillFirst, SlotsOf;
    assert (calls + [c])[..|calls|] == calls && (calls + [c])[|calls|] == c;
  }

  class Pool {
    const policy: Policy
    var keys: seq<Key>

    constructor (policy: Policy, keyCount: nat)
      ensures keys == seq(keyCount, _ => Key(None, false, 0)) && this.policy == policy
    {
      this.policy := policy;
      keys := seq(keyCount, _ => Key(None, false, 0));
    }

    method AcquireCandidate(attempted: set<nat>, now: int) returns (lease: Option<Lease>, retryAfter: int)
      modifies this`keys
      ensures (keys, lease) == Acquire(old(keys), attempted, now)
      ensures lease.None? ==> retryAfter == RetryAfter(keys, now)
    {
      for i := 0 to |keys|
        invariant keys == old(keys)
        invariant FirstEligible(keys, attempted, now, 0) == FirstEligible(keys, attempted, now, i)
      {
        if i in attempted || keys[i].probing || (keys[i].openUntil.Some? && now < keys[i].openUntil.value) {
          continue;
        }
        if keys[i].openUntil.Some? {
          keys := keys[i := keys[i].(probing := true, generation := keys[i].generation + 1)];
        }
        assert keys == old(keys)[i := Admit(old(keys)[i])];
        return Some(Lease(i, keys[i].generation)), 0;
      }
      retryAfter := 0;
      for i := 0 to |keys|
        invariant retryAfter == ShortestCooldown(keys, now, i)
      {
        if keys[i].openUntil.Some? {
          var remaining := keys[i].openUntil.value - now;
          if remaining > 0 && (retryAfter == 0 || remaining < retryAfter) {
            retryAfter := remaining;
          }
        }
      }
      if retryAfter == 0 {
        retryAfter := SECOND;
      }
      lease := None;
    }

    method Close(lease: Lease, now: int)
      requires lease.slot < |keys|
      modifies this`keys
      ensures keys == Report(old(keys), lease, CloseBreaker, now)
    {
      if keys[lease.slot].generation != lease.generation {
        return;
      }
      keys := keys[lease.slot := keys[lease.slot].(openUntil := None, probing := false)];
    }

    method Release(lease: Lease, now: int)
      requires lease.slot < |keys|
      modifies this`keys
      ensures keys == Report(old(keys), lease, ReleaseProbe, now)
    {
      if keys[lease.slot].generation == lease.generation {
        keys := keys[lease.slot := keys[lease.slot].(probing := false)];
      }
    }

    method Open(lease: Lease, ttl: int, now: int)
      requires lease.slot < |keys|
      modifies this`keys
      ensures keys == Report(old(keys), lease, OpenBreaker(ttl), now)
    {
      var k := keys[lease.slot];
      if k.generation != lease.generation {
        return;
      }
      keys := keys[lease.slot := Key(Some(now + ttl), false, k.generation + 1)];
    }

    method ReportFailure(lease: Lease, e: CallError, now: int) returns (rotate: bool)
      requires lease.slot < |keys|
      modifies this`keys
      ensures keys == Report(old(keys), lease, Judge(policy, e).0, now)
      ensures rotate == Judge(policy, e).1
    {
      match e {
        case ContextEnded =>
          Release(lease, now);
          return false;
        case Transport =>
          Close(lease, now);
          return false;
        case Api(a) =>
          if a.requestTooLarge || a.zdrUnavailable || a.spendCapExceeded {
            Close(lease, now);
            return false;
          } else if a.insufficientCredits {
            Open(lease, policy.creditsTTL, now);
          } else if a.rateLimited {
            var ttl := policy.rateLimitTTL;
            if a.retryAfter > 0 {
              ttl := a.retryAfter;
            }
            Open(lease, ttl, now);
          } else if a.modelNotInPlan {
            Close(lease, now);
            return true;
          } else if a.modelNotRecognized {
            Close(lease, now);
            return false;
          } else if policy.systemOne && a.status == 403 && !a.namesBadCredential {
            Close(lease, now);
            return false;
          } else if a.status == 401 || a.status == 403 {
            Open(lease, policy.creditsTTL, now);
          } else {
            Close(lease, now);
            return false;
          }
      }
      return true;
    }

    /** The read-only preview: every key's status, and the slot selection would take. */
    method Routing(now: int) returns (next: Option<nat>, status: seq<RouteStatus>)
      ensures next == match Acquire(keys, {}, now).1 case None => None case Some(l) => Some(l.slot)
      ensures |status| == |keys|
      ensures forall i :: 0 <= i < |keys| ==>
                status[i] == RouteStatus(Eligible(keys, {}, now, i), keys[i].probing,
                                         if Cooling(keys[i], now) then keys[i].openUntil else None)
    {
      next, status := None, [];
      for i := 0 to |keys|
        invariant |status| == i
        invariant forall j :: 0 <= j < i ==>
                    status[j] == RouteStatus(Eligible(keys, {}, now, j), keys[j].probing,
                                             if Cooling(keys[j], now) then keys[j].openUntil else None)
        invariant match next
                  case None => FirstEligible(keys, {}, now, 0) == FirstEligible(keys, {}, now, i)
                  case Some(s) => FirstEligible(keys, {}, now, 0) == next
      {
        var k := keys[i];
        var before := k.openUntil.Some? && now < k.openUntil.value;
        var state := RouteStatus(!k.probing && !before, k.probing, if before then k.openUntil else None);
        if next.None? && state.available {
          next := Some(i);
        }
        status := status + [state];
      }
    }

    /** Other requests' critical sections, whatever they do to the breakers. */
    method Interfere(env: Environment, n: nat)
      requires |env(n, keys)| == |keys|
      modifies this`keys
      ensures keys == env(n, old(keys))
    {
      keys := env(n, keys);
    }

    /** The n-th turn of the key loop: lease a key, call it, report the outcome. */
    method Turn(n: nat, attempted: set<nat>, w: World) returns (made: Option<Call>, rotate: bool, retryAfter: int)
      requires KeepsSize(w) && !w.canceled(n)
      modifies this`keys
      ensures |keys| == old(|keys|)
      ensures made.Some? ==>
                && var c := made.value;
                && |c.seen| == |keys| && Genuine(w, old(keys), n, attempted, c)
                && rotate == Rotates(policy, c)
                && keys == TurnEffect(policy, w, old(keys), n, attempted, c)
      ensures made.None? ==>
                retryAfter == RetryAfter(keys, w.clock(2 * n)) && keys == w.env(2 * n, old(keys))
                && forall i: nat :: i < |keys| ==> !Eligible(keys, attempted, w.clock(2 * n), i)
    {
      Interfere(w.env, 2 * n);
      var seen, now := keys, w.clock(2 * n);
      var lease, wait := AcquireCandidate(attempted, now);
      FirstEligibleInRange(seen, attempted, now, 0);
      if lease.None? {
        return None, false, wait;
      }
      var outcome := w.call(n, lease.value.slot);
      Interfere(w.env, 2 * n + 1);
      made := Some(Call(seen, now, lease.value, outcome));
      retryAfter := 0;
      if outcome.Succeeded? {
        Close(lease.value, w.clock(2 * n + 1));
        rotate := false;
      } else {
        rotate := ReportFailure(lease.value, outcome.error, w.clock(2 * n + 1));
      }
    }

    /** One round of the key loop; done says whether the request has ended. */
    method Round(w: World, ghost start: seq<Key>, calls: seq<Call>, attempted: set<nat>, lastErr: Option<CallError>)
      returns (done: bool, result: Result, made: Option<Call>)
      requires KeepsSize(w)
      requires Looping(policy, w, start, keys, calls, lastErr) && attempted == SlotsOf(calls)
      modifies this`keys
      ensures var now := if made.Some? then calls + [made.value] else calls;
              if done then Concluded(policy, w, start, keys, now, result)
              else
                && made.Some? && made.value.outcome.Failed? && |now| <= |keys|
                && Looping(policy, w, start, keys, now, Some(made.value.outcome.error))
                && SlotsOf(now) == attempted + {made.value.lease.slot}
    {
      hide Looping, Concluded, InOrder, SlotsOf, Genuine;
      ghost var before := keys;
      LoopBound(policy, w, start, keys, calls, lastErr);
      made := None;
      if w.canceled(|calls|) {
        ConcludeCanceled(policy, w, start, keys, calls, lastErr);
        return true, ContextError, None;
      }
      var rotate, retryAfter;
      made, rotate, retryAfter := Turn(|calls|, attempted, w);
      if made.None? {
        result := if lastErr.Some? then CallFailed(lastErr.value) else NoKey(Unavailable(|keys|, retryAfter));
        ConcludeUnavailable(policy, w, start, before, calls, lastErr);
        return true, result, None;
      }
      var outcome := made.value.outcome;
      ConcludeCall(policy, w, start, before, calls, lastErr, made.value);
      if outcome.Succeeded? {
        return true, Served(made.value.lease.slot), made;
      }
      return !rotate, CallFailed(outcome.error), made;
    }

    /** One request's key loop; calls records the upstream calls made. */
    method WithKey(w: World) returns (result: Result, calls: seq<Call>)
      requires KeepsSize(w)
      modifies this`keys
      ensures Concluded(policy, w, old(keys), keys, calls, result)
    {
      var attempted: set<nat> := {};
      calls := [];
      var lastErr: Option<CallError> := None;
      assert Looping(policy, w, keys, keys, calls, lastErr);
      hide Looping, Concluded;
      while true
        invariant Looping(policy, w, old(keys), keys, calls, lastErr) && attempted == SlotsOf(calls)
        invariant |keys| == old(|keys|)
        decreases |keys| - |calls|
      {
        LoopBound(policy, w, old(keys), keys, calls, lastErr);
        var done, made;
        done, result, made := Round(w, old(keys), calls, attempted, lastErr);
        if made.Some? {
          calls := calls + [made.value];
        }
        if done {
          return;
        }
        attempted := attempted + {made.value.lease.slot};
        lastErr := Some(made.value.outcome.error);
        LoopBound(policy, w, old(keys), keys, calls, lastErr);
      }
    }
  }

  /** No call is made once the context has ended; ended from the start, it is the result and nothing changed. */
  lemma NoCallOnceCanceled(p: Policy, w: World, start: seq<Key>, keys: seq<Key>, calls: seq<Call>, result: Result)
    requires Concluded(p, w, start, keys, calls, result)
    ensures forall i :: 0 <= i < |calls| ==> !w.canceled(i)
    ensures w.canceled(0) ==> result == ContextError && calls == [] && keys == start
  {
    forall i | 0 <= i < |calls|
      ensures !w.canceled(i)
    {
      assert Genuine(w, After(p, w, start, calls[..i]), i, SlotsOf(calls[..i]), calls[i]);
    }
  }

  /** No other request touches the pool. */
  ghost predicate Alone(w: World) {
    forall i, ks :: w.env(i, ks) == ks
  }

  /** Without interference a turn leaves its key without a probe: its lease was settled. */
  lemma TurnSettles(p: Policy, w: World, pool: seq<Key>, n: nat, tried: set<nat>, c: Call, j: nat)
    requires Alone(w) && Genuine(w, pool, n, tried, c)
    requires j < |pool|
    ensures var after := TurnEffect(p, w, pool, n, tried, c);
            && |after| == |pool|
            && if j == c.lease.slot then !after[j].probing && (c.outcome.Succeeded? ==> after[j].openUntil.None?)
               else after[j] == pool[j]
  {
    FirstEligibleInRange(pool, tried, c.at, 0);
    hide VerdictOf, FirstEligible;
    assert c.outcome.Succeeded? ==> VerdictOf(p, c.outcome) == CloseBreaker by {
      SuccessCloses(p, c.outcome);
    }
  }

  lemma SuccessCloses(p: Policy, o: Outcome)
    ensures o.Succeeded? ==> VerdictOf(p, o) == CloseBreaker
  {
  }

  /** A request that runs alone leaves no probe behind, on any key. */
  lemma {:induction false} LeasesAreSettled(p: Policy, w: World, start: seq<Key>, calls: seq<Call>, j: nat)
    requires Alone(w) && AllGenuine(p, w, start, calls) && j < |start|
    ensures var after := After(p, w, start, calls);
            && |after| == |start|
            && (j in SlotsOf(calls) ==> !after[j].probing)
            && (j !in SlotsOf(calls) ==> after[j] == start[j])
  {
    if calls != [] {
      var n := |calls| - 1;
      assert Genuine(w, After(p, w, start, calls[..n]), n, SlotsOf(calls[..n]), calls[n]);
      PrefixGenuine(p, w, start, calls, n);
      LeasesAreSettled(p, w, start, calls[..n], j);
      TurnSettles(p, w, After(p, w, start, calls[..n]), n, SlotsOf(calls[..n]), calls[n], j);
      hide TurnEffect, Genuine, AllGenuine;
    }
  }

  lemma {:induction false} ShortestCooldownMeaning(keys: seq<Key>, now: int, n: nat)
    requires n <= |keys|
    ensures var w := ShortestCooldown(keys, now, n);
            && (w == 0 <==> forall i :: 0 <= i < n ==> !Cooling(keys[i], now))
            && w >= 0
            && (w > 0 ==> exists i :: 0 <= i < n && Cooling(keys[i], now) && keys[i].openUntil.value - now == w)
            && (forall i :: 0 <= i < n && Cooling(keys[i], now) ==> w <= keys[i].openUntil.value - now)
  {
    if n > 0 {
      ShortestCooldownMeaning(keys, now, n - 1);
    }
  }

  lemma RetryPositive(keys: seq<Key>, now: int)
    ensures RetryAfter(keys, now) > 0
  {
    ShortestCooldownMeaning(keys, now, |keys|);
  }
}
