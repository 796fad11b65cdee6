/**
 * What each kind of upstream failure does to the key that met it and to the request: which
 * ones open the key's breaker and for how long, and which ones make the request try another.
 */
module SpillTheorems {
  import opened Wrappers
  import opened Commandcode
  import opened Keypool
  import Protocol = KeypoolTheorems

  // ---------------------------------------------------------------- kinds of failure

  /** The request itself is at fault, whatever else the error says. */
  predicate RequestAtFault(e: ApiError) {
    e.requestTooLarge || e.zdrUnavailable || e.spendCapExceeded
  }

  predicate OutOfCredits(e: ApiError) {
    !RequestAtFault(e) && e.insufficientCredits
  }

  predicate Limited(e: ApiError) {
    !RequestAtFault(e) && !e.insufficientCredits && e.rateLimited
  }

  predicate OutOfPlan(e: ApiError) {
    !RequestAtFault(e) && !e.insufficientCredits && !e.rateLimited && e.modelNotInPlan
  }

  /** A rejected key; a 403 of the System One API only if it names a bad credential. */
  predicate KeyRejected(p: Policy, e: ApiError) {
    && !RequestAtFault(e) && !e.insufficientCredits && !e.rateLimited && !e.modelNotInPlan && !e.modelNotRecognized
    && (e.status == 401 || (e.status == 403 && (p.systemOne ==> e.namesBadCredential)))
  }

  /** Another key may do better. */
  predicate Spills(p: Policy, error: CallError) {
    && error.Api?
    && (OutOfCredits(error.error) || Limited(error.error) || OutOfPlan(error.error) || KeyRejected(p, error.error))
  }

  /** The breaker's state after a failure reported at this time, given its state before. */
  predicate LeavesOpen(p: Policy, error: CallError, before: Option<int>, now: int, after: Option<int>) {
    match error
    case ContextEnded => after == before
    case Transport => after == None
    case Api(e) =>
      && (OutOfCredits(e) || KeyRejected(p, e) ==> after == Some(now + p.creditsTTL))
      && (Limited(e) && e.retryAfter > 0 ==> after == Some(now + e.retryAfter))
      && (Limited(e) && e.retryAfter <= 0 ==> after == Some(now + p.rateLimitTTL))
      && (!OutOfCredits(e) && !KeyRejected(p, e) && !Limited(e) ==> after == None)
  }

  /** The key after the call's outcome was reported. */
  predicate Left(p: Policy, outcome: Outcome, before: Key, now: int, after: Key) {
    && !after.probing
    && if outcome.Succeeded? then after.openUntil == None
       else LeavesOpen(p, outcome.error, before.openUntil, now, after.openUntil)
  }

  lemma SettledKey(p: Policy, outcome: Outcome, k: Key, now: int)
    ensures Left(p, outcome, k, now, Settle(k, VerdictOf(p, outcome), now))
  {
  }

  lemma RotatesExactly(p: Policy, c: Call)
    ensures Rotates(p, c) <==> c.outcome.Failed? && Spills(p, c.outcome.error)
  {
  }

  /** One turn of a request that is alone: its key is left as the outcome demands, the others as they were. */
  lemma TurnLeaves(p: Policy, w: World, pool: seq<Key>, n: nat, tried: set<nat>, c: Call, j: nat)
    requires Alone(w) && Genuine(w, pool, n, tried, c) && j < |pool|
    ensures var after := TurnEffect(p, w, pool, n, tried, c);
            && |after| == |pool|
            && if j == c.lease.slot then Left(p, c.outcome, pool[j], w.clock(2 * n + 1), after[j])
               else after[j] == pool[j]
  {
    FirstEligibleInRange(pool, tried, c.at, 0);
    SettledKey(p, c.outcome, Admit(pool[c.lease.slot]), w.clock(2 * n + 1));
    hide VerdictOf, FirstEligible, Settle;
  }

  // ---------------------------------------------------------------- a request that is alone

  /** Key j is as the call that used it left it, or as it was. */
  ghost predicate KeyLeft(p: Policy, w: World, start: seq<Key>, keys: seq<Key>, calls: seq<Call>, j: nat)
    requires j < |start| == |keys|
  {
    && (j !in SlotsOf(calls) ==> keys[j] == start[j])
    && forall n :: 0 <= n < |calls| && calls[n].lease.slot == j ==>
         Left(p, calls[n].outcome, start[j], w.clock(2 * n + 1), keys[j])
  }

  lemma EarlierSlot(calls: seq<Call>, n: nat)
    requires n < |calls| - 1
    ensures calls[n].lease.slot in SlotsOf(calls[..|calls| - 1])
  {
    SlotIn(calls[..|calls| - 1], n);
  }

  lemma KeyLeftStep(p: Policy, w: World, start: seq<Key>, before: seq<Key>, keys: seq<Key>, calls: seq<Call>, j: nat)
    requires calls != [] && j < |start| == |keys| == |before|
    requires var last := calls[|calls| - 1]; var tried := SlotsOf(calls[..|calls| - 1]);
             && KeyLeft(p, w, start, before, calls[..|calls| - 1], j) && last.lease.slot !in tried
             && if j == last.lease.slot then Left(p, last.outcome, before[j], w.clock(2 * (|calls| - 1) + 1), keys[j])
                else keys[j] == before[j]
    ensures KeyLeft(p, w, start, keys, calls, j)
  {
    var pre := calls[..|calls| - 1];
    forall n | 0 <= n < |calls| && calls[n].lease.slot == j
      ensures Left(p, calls[n].outcome, start[j], w.clock(2 * n + 1), keys[j])
    {
      if n < |pre| {
        EarlierSlot(calls, n);
        assert pre[n] == calls[n];
      }
    }
  }

  lemma LastIsGenuine(p: Policy, w: World, start: seq<Key>, calls: seq<Call>)
    requires AllGenuine(p, w, start, calls) && InOrder(calls, |start|) && calls != []
    ensures var n := |calls| - 1; var pool, tried := After(p, w, start, calls[..n]), SlotsOf(calls[..n]);
            && Genuine(w, pool, n, tried, calls[n]) && calls[n].lease.slot !in tried
            && After(p, w, start, calls) == TurnEffect(p, w, pool, n, tried, calls[n])
  {
    var n := |calls| - 1;
    hide Genuine, TurnEffect, SlotsOf;
    SlotIsNew(calls[n], SlotsOf(calls[..n]));
  }

  lemma NothingLeft(p: Policy, w: World, start: seq<Key>, j: nat)
    requires j < |start|
    ensures After(p, w, start, []) == start && KeyLeft(p, w, start, start, [], j)
  {
  }

  lemma {:induction false} KeysAreLeft(p: Policy, w: World, start: seq<Key>, calls: seq<Call>, j: nat)
    requires Alone(w) && AllGenuine(p, w, start, calls) && InOrder(calls, |start|) && j < |start|
    ensures var after := After(p, w, start, calls); |after| == |start| && KeyLeft(p, w, start, after, calls, j)
  {
    hide *;
    if calls == [] {
      NothingLeft(p, w, start, j);
    } else {
      var n := |calls| - 1;
      var pre := calls[..n];
      LastIsGenuine(p, w, start, calls);
      PrefixGenuine(p, w, start, calls, n);
      PrefixInOrder(calls, n, |start|);
      KeysAreLeft(p, w, start, pre, j);
      TurnLeaves(p, w, After(p, w, start, pre), n, SlotsOf(pre), calls[n], j);
      KeyLeftStep(p, w, start, After(p, w, start, pre), After(p, w, start, calls), calls, j);
    }
  }

  /** The first n calls failed in a way that another key may mend. */
  ghost predicate Spilled(p: Policy, calls: seq<Call>, n: int) {
    forall i :: 0 <= i < n && i < |calls| ==> calls[i].outcome.Failed? && Spills(p, calls[i].outcome.error)
  }

  /** Nothing is left to try: every key was tried or cannot be used now. */
  ghost predicate Exhausted(keys: seq<Key>, calls: seq<Call>, now: int) {
    forall i: nat :: i < |keys| ==> i in SlotsOf(calls) || keys[i].probing || Cooling(keys[i], now)
  }

  /**
   * While a failure spills, the next key is called, until the context has ended or no key
   * is left to try; any other outcome is the request's.
   */
  ghost predicate Ends(p: Policy, w: World, keys: seq<Key>, calls: seq<Call>, result: Keypool.Result) {
    var n := |calls|;
    if n > 0 && calls[n - 1].outcome.Succeeded? then result == Served(calls[n - 1].lease.slot)
    else if n > 0 && !Spills(p, calls[n - 1].outcome.error) then result == CallFailed(calls[n - 1].outcome.error)
    else if w.canceled(n) then result == ContextError
    else
      && Exhausted(keys, calls, w.clock(2 * n))
      && if n > 0 then result == CallFailed(calls[n - 1].outcome.error) else result.NoKey?
  }

  lemma AllSpilled(p: Policy, calls: seq<Call>)
    ensures AllRotate(p, calls) <==> Spilled(p, calls, |calls|)
  {
    hide Spills, Rotates;
    forall i | 0 <= i < |calls|
      ensures Rotates(p, calls[i]) <==> calls[i].outcome.Failed? && Spills(p, calls[i].outcome.error)
    {
      RotatesExactly(p, calls[i]);
    }
  }

  lemma AllButLastSpilled(p: Policy, calls: seq<Call>)
    requires calls != [] && AllRotate(p, calls[..|calls| - 1])
    ensures Spilled(p, calls, |calls| - 1)
  {
    AllSpilled(p, calls[..|calls| - 1]);
    hide Spills, AllRotate;
    assert forall i :: 0 <= i < |calls| - 1 ==> calls[..|calls| - 1][i] == calls[i];
  }

  lemma LastSpills(p: Policy, calls: seq<Call>)
    requires calls != [] && Spilled(p, calls, |calls|)
    ensures calls[|calls| - 1].outcome.Failed? && Spills(p, calls[|calls| - 1].outcome.error)
  {
    hide Spills;
  }

  lemma NoneUsable(keys: seq<Key>, calls: seq<Call>, now: int)
    ensures Exhausted(keys, calls, now) <==>
              forall i: nat :: i < |keys| ==> i in SlotsOf(calls) || !Usable(keys[i], now)
  {
    hide SlotsOf, Cooling;
  }

  lemma EndsAsConcluded(p: Policy, w: World, start: seq<Key>, keys: seq<Key>, calls: seq<Call>, result: Keypool.Result)
    requires Alone(w) && Concluded(p, w, start, keys, calls, result)
    ensures keys == After(p, w, start, calls) && Ends(p, w, keys, calls, result)
  {
    AllSpilled(p, calls);
    if calls != [] {
      RotatesExactly(p, calls[|calls| - 1]);
      if AllRotate(p, calls) {
        LastSpills(p, calls);
      }
    }
    NoneUsable(keys, calls, w.clock(2 * |calls|));
    assert calls == [] ==> SlotsOf(calls) == {};
    hide Rotates, Spills, After, AllGenuine, InOrder, SlotsOf, Cooling, AllRotate, Spilled, Usable, Exhausted;
  }

  /** A request that is alone: how it leaves every key, which of its calls spilled, and how it ends. */
  lemma RequestEnds(p: Policy, w: World, start: seq<Key>, keys: seq<Key>, calls: seq<Call>, result: Keypool.Result)
    requires Alone(w) && Concluded(p, w, start, keys, calls, result)
    ensures |keys| == |start| && forall j: nat :: j < |start| ==> KeyLeft(p, w, start, keys, calls, j)
    ensures Spilled(p, calls, |calls| - 1) && Ends(p, w, keys, calls, result)
  {
    EndsAsConcluded(p, w, start, keys, calls, result);
    if calls != [] {
      AllButLastSpilled(p, calls);
    }
    hide KeyLeft, Spilled, Ends, After, AllGenuine, InOrder, SlotsOf, Rotates, AllRotate;
    forall j: nat | j < |start|
      ensures KeyLeft(p, w, start, keys, calls, j)
    {
      KeysAreLeft(p, w, start, calls, j);
    }
  }

  // ---------------------------------------------------------------- keys tried in order

  /** The first j keys are usable when their turn comes and answer with failures that spill. */
  ghost predicate SpillsTo(p: Policy, w: World, start: seq<Key>, j: nat) {
    && j < |start|
    && (forall i :: 0 <= i <= j ==> !w.canceled(i) && !start[i].probing && !Cooling(start[i], w.clock(2 * i)))
    && forall i :: 0 <= i < j ==> w.call(i, i).Failed? && Spills(p, w.call(i, i).error)
  }

  /** The slots below n. */
  function Below(n: nat): (slots: set<nat>)
    ensures forall i: nat :: i in slots <==> i < n
  {
    if n == 0 then {} else Below(n - 1) + {n - 1}
  }

  lemma NthSlot(p: Policy, w: World, start: seq<Key>, calls: seq<Call>, j: nat, n: nat)
    requires Alone(w) && AllGenuine(p, w, start, calls) && InOrder(calls, |start|) && SpillsTo(p, w, start, j)
    requires n < |calls| && n <= j && SlotsOf(calls[..n]) == Below(n)
    ensures calls[n].lease.slot == n && calls[n].outcome == w.call(n, n)
  {
    var pre := calls[..n];
    assert Genuine(w, After(p, w, start, pre), n, SlotsOf(pre), calls[n]);
    assert FillFirst(calls[n].seen, calls[n].at, SlotsOf(pre), calls[n].lease);
    PrefixGenuine(p, w, start, calls, n);
    LeasesAreSettled(p, w, start, pre, n);
    SlotIsNew(calls[n], SlotsOf(pre));
    assert calls[n].seen[n] == start[n] && n !in Below(n);
    assert Eligible(calls[n].seen, Below(n), calls[n].at, n);
    assert calls[n].lease.slot <= n;
    assert calls[n].lease.slot !in Below(n);
  }

  lemma {:induction false} FirstSlots(p: Policy, w: World, start: seq<Key>, calls: seq<Call>, j: nat, n: nat)
    requires Alone(w) && AllGenuine(p, w, start, calls) && InOrder(calls, |start|) && SpillsTo(p, w, start, j)
    requires n <= |calls| && n <= j + 1
    ensures SlotsOf(calls[..n]) == Below(n)
    ensures forall i :: 0 <= i < n ==> calls[i].lease.slot == i && calls[i].outcome == w.call(i, i)
  {
    hide Alone, AllGenuine, InOrder, SpillsTo;
    if n > 0 {
      FirstSlots(p, w, start, calls, j, n - 1);
      NthSlot(p, w, start, calls, j, n - 1);
      LastSlot(calls, n);
      hide SlotsOf;
    }
  }

  lemma LastSlot(calls: seq<Call>, n: nat)
    requires 0 < n <= |calls|
    ensures SlotsOf(calls[..n]) == SlotsOf(calls[..n - 1]) + {calls[n - 1].lease.slot}
  {
    assert calls[..n][..n - 1] == calls[..n - 1];
  }

  lemma KeyIsLeft(p: Policy, w: World, start: seq<Key>, keys: seq<Key>, calls: seq<Call>, i: nat)
    requires i < |calls| && i < |start| == |keys| && calls[i].lease.slot == i && KeyLeft(p, w, start, keys, calls, i)
    ensures Left(p, calls[i].outcome, start[i], w.clock(2 * i + 1), keys[i])
  {
    hide Left;
  }

  /**
   * If the first j keys are usable but spill and key j is usable, then exactly these are
   * called, in order; each is left as its own failure demands, and key j's outcome decides
   * unless it spills as well.
   */
  lemma KeysAreTriedInOrder(p: Policy, w: World, start: seq<Key>, keys: seq<Key>, calls: seq<Call>,
                            result: Keypool.Result, j: nat)
    requires Alone(w) && Concluded(p, w, start, keys, calls, result) && SpillsTo(p, w, start, j)
    ensures |keys| == |start| && |calls| > j
    ensures forall i :: 0 <= i <= j ==>
              calls[i].lease.slot == i && Left(p, w.call(i, i), start[i], w.clock(2 * i + 1), keys[i])
    ensures w.call(j, j).Succeeded? ==> |calls| == j + 1 && result == Served(j)
    ensures w.call(j, j).Failed? && !Spills(p, w.call(j, j).error) ==>
              |calls| == j + 1 && result == CallFailed(w.call(j, j).error)
  {
    RequestEnds(p, w, start, keys, calls, result);
    CallsReach(p, w, start, keys, calls, result, j);
    FirstSlots(p, w, start, calls, j, j + 1);
    hide KeyLeft, Left, Spills, AllGenuine, InOrder, Concluded, SpillsTo, Exhausted;
    forall i | 0 <= i <= j
      ensures Left(p, w.call(i, i), start[i], w.clock(2 * i + 1), keys[i])
    {
      KeyIsLeft(p, w, start, keys, calls, i);
    }
  }

  /** A usable key that was not tried keeps a spilling request going. */
  lemma CallsReach(p: Policy, w: World, start: seq<Key>, keys: seq<Key>, calls: seq<Call>,
                   result: Keypool.Result, j: nat)
    requires Alone(w) && Concluded(p, w, start, keys, calls, result) && SpillsTo(p, w, start, j)
    requires |keys| == |start| && Ends(p, w, keys, calls, result)
    requires forall i: nat :: i < |start| ==> KeyLeft(p, w, start, keys, calls, i)
    ensures |calls| > j
  {
    var n := |calls|;
    if n <= j {
      assert calls[..n] == calls;
      assert AllGenuine(p, w, start, calls) && InOrder(calls, |start|);
      assert KeyLeft(p, w, start, keys, calls, n);
      hide *;
      FirstSlots(p, w, start, calls, j, n);
      GoesOn(p, w, start, keys, calls, result, j);
    }
  }

  /** A request whose calls all spilled does not end while the next key is usable. */
  lemma GoesOn(p: Policy, w: World, start: seq<Key>, keys: seq<Key>, calls: seq<Call>, result: Keypool.Result, j: nat)
    requires SpillsTo(p, w, start, j) && |keys| == |start| && SlotsOf(calls) == Below(|calls|)
    requires |calls| <= j && KeyLeft(p, w, start, keys, calls, |calls|)
    requires calls != [] ==> calls[|calls| - 1].outcome == w.call(|calls| - 1, |calls| - 1)
    ensures !Ends(p, w, keys, calls, result)
  {
    hide Spills, Left, SlotsOf;
    assert |calls| !in SlotsOf(calls);
  }

  // ---------------------------------------------------------------- among other requests

  /** The failure takes its key out of service. */
  predicate Cools(p: Policy, error: CallError) {
    error.Api? && (OutOfCredits(error.error) || Limited(error.error) || KeyRejected(p, error.error))
  }

  lemma CoolingOpens(s: Protocol.System, t: Protocol.Ticket, error: CallError)
    requires t in s.outstanding && t.lease.slot < |s.keys| && s.keys[t.lease.slot].generation == t.lease.generation
    requires Cools(s.policy, error)
    ensures Protocol.Opens(s, t, Failed(error))
    ensures LeavesOpen(s.policy, error, s.keys[t.lease.slot].openUntil, s.now,
                       Some(s.now + Protocol.TimeToLive(s.policy, Failed(error))))
  {
  }

  /**
   * The key as a report of this failure left it is open for the failure's time to live; a
   * run that ends sooner, with these leases, has neither changed nor leased it.
   */
  ghost predicate LeftAlone(p: Policy, error: CallError, before: Option<int>, now: int, key: Key, slot: nat,
                            end: Protocol.System, leased: seq<nat>) {
    && key.openUntil.Some? && LeavesOpen(p, error, before, now, key.openUntil)
    && (end.now < key.openUntil.value ==> slot < |end.keys| && end.keys[slot] == key && slot !in leased)
  }

  lemma LeftAloneUntil(p: Policy, error: CallError, before: Option<int>, now: int, key: Key, slot: nat,
                       end: Protocol.System, leased: seq<nat>, until: int)
    requires key.openUntil == Some(until) && LeavesOpen(p, error, before, now, Some(until))
    requires end.now < until ==> slot < |end.keys| && end.keys[slot] == key && slot !in leased
    ensures LeftAlone(p, error, before, now, key, slot, end, leased)
  {
    hide LeavesOpen;
  }

  /**
   * Among any other requests: from the moment a failure that cools its key is reported by a
   * current lease until the time to live of its own kind is over, no request is leased the
   * key and nothing changes it.
   */
  lemma CooledKeyIsLeftAlone(policy: Policy, keyCount: nat, start: int, before: seq<Protocol.Action>,
                             t: Protocol.Ticket, error: CallError, later: seq<Protocol.Action>)
    requires Protocol.Legal(Protocol.Start(policy, keyCount, start), before)
    requires var s := Protocol.Run(Protocol.Start(policy, keyCount, start), before);
             && t in s.outstanding && t.lease.slot < |s.keys| && s.keys[t.lease.slot].generation == t.lease.generation
             && Cools(s.policy, error) && Protocol.Legal(Protocol.Step(s, Protocol.Give(t, Failed(error))), later)
    ensures var s := Protocol.Run(Protocol.Start(policy, keyCount, start), before);
            var after := Protocol.Step(s, Protocol.Give(t, Failed(error))); var slot := t.lease.slot;
            && |after.keys| == |s.keys|
            && LeftAlone(s.policy, error, s.keys[slot].openUntil, s.now, after.keys[slot], slot,
                         Protocol.Run(after, later), Protocol.LeasedSlots(after, later))
  {
    hide *;
    var s := Protocol.Run(Protocol.Start(policy, keyCount, start), before);
    CoolingOpens(s, t, error);
    Protocol.StartOk(policy, keyCount, start);
    Protocol.RunKeepsInv(Protocol.Start(policy, keyCount, start), before);
    Protocol.OpeningStep(s, t, Failed(error));
    Protocol.GiveKeepsInv(s, t, Failed(error));
    var after, slot := Protocol.Step(s, Protocol.Give(t, Failed(error))), t.lease.slot;
    var until := after.keys[slot].openUntil.value;
    if Protocol.Run(after, later).now < until {
      Protocol.OpenBreakerHolds(after, later, slot);
    }
    LeftAloneUntil(s.policy, error, s.keys[slot].openUntil, s.now, after.keys[slot], slot,
                   Protocol.Run(after, later), Protocol.LeasedSlots(after, later), until);
  }
}
