/**
 * The key pool as a concurrent protocol: any number of requests take and report
 * leases in any order while the clock runs forward.  Every outstanding lease is
 * reported at most once; panics that skip a report are outside the model.
 */
module KeypoolTheorems {
  import opened Wrappers
  import opened Keypool

  /** An outstanding lease; probe marks the half-open probe of its key. */
  datatype Ticket = Ticket(lease: Lease, probe: bool)

  datatype System = System(policy: Policy, keys: seq<Key>, now: int, outstanding: multiset<Ticket>)

  datatype Action =
    | Tick(elapsed: nat)
    | Take(attempted: set<nat>)
    | Give(ticket: Ticket, outcome: Outcome)

  function Start(policy: Policy, keyCount: nat, now: int): System {
    System(policy, seq(keyCount, _ => Key(None, false, 0)), now, multiset{})
  }

  predicate Enabled(s: System, a: Action) {
    a.Give? ==> a.ticket in s.outstanding
  }

  function TicketFor(before: seq<Key>, l: Lease): Ticket
    requires l.slot < |before|
  {
    Ticket(l, before[l.slot].openUntil.Some?)
  }

  /** The slot a Take would lease. */
  function Leased(s: System, a: Action): Option<nat> {
    if a.Take? then FirstEligible(s.keys, a.attempted, s.now, 0) else None
  }

  function Step(s: System, a: Action): System {
    match a
    case Tick(d) => s.(now := s.now + d)
    case Take(attempted) =>
      FirstEligibleInRange(s.keys, attempted, s.now, 0);
      var (keys, lease) := Acquire(s.keys, attempted, s.now);
      if lease.None? then s
      else s.(keys := keys, outstanding := s.outstanding + multiset{TicketFor(s.keys, lease.value)})
    case Give(t, outcome) =>
      s.(keys := Report(s.keys, t.lease, VerdictOf(s.policy, outcome), s.now),
         outstanding := s.outstanding - multiset{t})
  }

  /** A run of the protocol, latest action last. */
  predicate Legal(s: System, acts: seq<Action>) {
    acts == [] || (Legal(s, acts[..|acts| - 1]) && Enabled(Run(s, acts[..|acts| - 1]), acts[|acts| - 1]))
  }

  function Run(s: System, acts: seq<Action>): System {
    if acts == [] then s else Step(Run(s, acts[..|acts| - 1]), acts[|acts| - 1])
  }

  /** The slots leased by a run, in order. */
  function LeasedSlots(s: System, acts: seq<Action>): seq<nat> {
    if acts == [] then []
    else
      var pre := acts[..|acts| - 1];
      var l := Leased(Run(s, pre), acts[|acts| - 1]);
      LeasedSlots(s, pre) + (if l.Some? then [l.value] else [])
  }

  // ---------------------------------------------------------------- the invariant

  /** One key against the outstanding leases. */
  ghost predicate KeyOk(k: Key, i: nat, now: int, out: multiset<Ticket>) {
    var current := Lease(i, k.generation);
    && (forall t :: t in out && t.lease.slot == i ==> t.lease.generation <= k.generation)
    // A probe is the one lease of the current generation, and only while probing.
    && (forall t :: t in out && t.lease.slot == i && t.probe ==> k.probing && t.lease == current)
    && (k.probing ==>
          && k.openUntil.Some? && k.openUntil.value <= now
          && out[Ticket(current, true)] == 1 && out[Ticket(current, false)] == 0)
    // An open breaker that is not probing has no lease that could still change it.
    && (k.openUntil.Some? && !k.probing ==> forall t :: t in out ==> t.lease != current)
  }

  ghost predicate Inv(s: System) {
    && (forall t :: t in s.outstanding ==> t.lease.slot < |s.keys|)
    && (forall i :: 0 <= i < |s.keys| ==> KeyOk(s.keys[i], i, s.now, s.outstanding))
  }

  /** Leasing key i, with the ticket it was given. */
  lemma TakeKey(k: Key, i: nat, now: int, out: multiset<Ticket>)
    requires KeyOk(k, i, now, out) && Usable(k, now)
    ensures var k' := Admit(k);
            KeyOk(k', i, now, out + multiset{Ticket(Lease(i, k'.generation), k.openUntil.Some?)})
  {
    var k' := Admit(k);
    var t0 := Ticket(Lease(i, k'.generation), k.openUntil.Some?);
    assert k.openUntil.Some? ==> t0 !in out && Ticket(t0.lease, false) !in out;
  }

  /** A ticket for another key does not matter. */
  lemma OtherTicket(k: Key, i: nat, now: int, out: multiset<Ticket>, out': multiset<Ticket>, t: Ticket)
    requires KeyOk(k, i, now, out) && t.lease.slot != i
    requires out' == out + multiset{t} || out' == out - multiset{t}
    ensures KeyOk(k, i, now, out')
  {
  }

  lemma TakeKeepsInv(s: System, attempted: set<nat>)
    requires Inv(s)
    ensures Inv(Step(s, Take(attempted))) && |Step(s, Take(attempted)).keys| == |s.keys|
  {
    FirstEligibleInRange(s.keys, attempted, s.now, 0);
    var s' := Step(s, Take(attempted));
    var lease := Acquire(s.keys, attempted, s.now).1;
    if lease.Some? {
      var j, t0 := lease.value.slot, TicketFor(s.keys, lease.value);
      assert Eligible(s.keys, attempted, s.now, j) && s'.keys == s.keys[j := Admit(s.keys[j])];
      hide KeyOk, Admit, FirstEligible;
      forall i | 0 <= i < |s.keys|
        ensures KeyOk(s'.keys[i], i, s'.now, s'.outstanding)
      {
        assert KeyOk(s.keys[i], i, s.now, s.outstanding);
        if i != j {
          OtherTicket(s.keys[i], i, s.now, s.outstanding, s'.outstanding, t0);
        } else {
          TakeKey(s.keys[i], i, s.now, s.outstanding);
        }
      }
    }
  }

  /** Reporting a ticket of key i; only a current one settles the key. */
  lemma GiveKey(k: Key, i: nat, now: int, out: multiset<Ticket>, t: Ticket, v: Verdict)
    requires KeyOk(k, i, now, out) && t in out && t.lease.slot == i
    ensures KeyOk(if k.generation == t.lease.generation then Settle(k, v, now) else k, i, now, out - multiset{t})
  {
  }

  lemma GiveKeepsInv(s: System, t: Ticket, outcome: Outcome)
    requires Inv(s) && t in s.outstanding
    ensures Inv(Step(s, Give(t, outcome)))
  {
    var s' := Step(s, Give(t, outcome));
    hide KeyOk, Settle, VerdictOf;
    forall i | 0 <= i < |s.keys|
      ensures KeyOk(s'.keys[i], i, s'.now, s'.outstanding)
    {
      assert KeyOk(s.keys[i], i, s.now, s.outstanding);
      if i != t.lease.slot {
        OtherTicket(s.keys[i], i, s.now, s.outstanding, s'.outstanding, t);
      } else {
        GiveKey(s.keys[i], i, s.now, s.outstanding, t, VerdictOf(s.policy, outcome));
      }
    }
  }

  lemma TickKeepsInv(s: System, elapsed: nat)
    requires Inv(s)
    ensures Inv(Step(s, Tick(elapsed)))
  {
    forall i | 0 <= i < |s.keys|
      ensures KeyOk(s.keys[i], i, s.now + elapsed, s.outstanding)
    {
      assert KeyOk(s.keys[i], i, s.now, s.outstanding);
    }
  }

  lemma StepKeepsInv(s: System, a: Action)
    requires Inv(s) && Enabled(s, a)
    ensures Inv(Step(s, a)) && |Step(s, a).keys| == |s.keys| && Step(s, a).policy == s.policy
  {
    hide Inv, Acquire, FirstEligible;
    match a {
      case Tick(elapsed) => TickKeepsInv(s, elapsed);
      case Take(attempted) => TakeKeepsInv(s, attempted);
      case Give(t, outcome) => GiveKeepsInv(s, t, outcome);
    }
  }

  lemma StartOk(policy: Policy, keyCount: nat, start: int)
    ensures Inv(Start(policy, keyCount, start)) && |Start(policy, keyCount, start).keys| == keyCount
  {
  }

  lemma {:induction false} RunKeepsInv(s: System, acts: seq<Action>)
    requires Inv(s) && Legal(s, acts)
    ensures Inv(Run(s, acts)) && |Run(s, acts).keys| == |s.keys| && Run(s, acts).policy == s.policy
    ensures Run(s, acts).now >= s.now
  {
    if acts != [] {
      var pre := acts[..|acts| - 1];
      RunKeepsInv(s, pre);
      StepKeepsInv(Run(s, pre), acts[|acts| - 1]);
      hide Inv, Acquire, Report;
    }
  }

  // ---------------------------------------------------------------- safety over whole runs

  /**
   * At every reachable state a key is probing exactly when one outstanding lease is
   * its half-open probe; that lease is then the only one of the current generation,
   * and the breaker's deadline has passed.
   */
  lemma ProbesAreUnique(policy: Policy, keyCount: nat, start: int, acts: seq<Action>, i: nat)
    requires Legal(Start(policy, keyCount, start), acts) && i < keyCount
    ensures var s := Run(Start(policy, keyCount, start), acts);
            && |s.keys| == keyCount
            && var k := s.keys[i];
            && (k.probing <==> exists t :: t in s.outstanding && t.probe && t.lease.slot == i)
            && (k.probing ==>
                  && !Cooling(k, s.now) && k.openUntil.Some?
                  && s.outstanding[Ticket(Lease(i, k.generation), true)] == 1
                  && forall t :: t in s.outstanding && t.lease == Lease(i, k.generation) ==> t.probe)
            && (forall t :: t in s.outstanding && t.probe && t.lease.slot == i ==> t.lease == Lease(i, k.generation))
  {
    var s0 := Start(policy, keyCount, start);
    StartOk(policy, keyCount, start);
    RunKeepsInv(s0, acts);
    hide Run, Legal, Start;
    var s := Run(s0, acts);
    assert KeyOk(s.keys[i], i, s.now, s.outstanding);
    if s.keys[i].probing {
      assert Ticket(Lease(i, s.keys[i].generation), true) in s.outstanding;
    }
  }

  /** The slot has no probe, and its breaker is closed if the call succeeded. */
  ghost predicate ProbeOver(s: System, slot: nat, succeeded: bool) {
    && slot < |s.keys| && !s.keys[slot].probing
    && (succeeded ==> s.keys[slot].openUntil.None?)
    && forall t :: t in s.outstanding && t.lease.slot == slot ==> !t.probe
  }

  lemma ProbeEnds(s: System, t: Ticket, outcome: Outcome)
    requires Inv(s) && t in s.outstanding && t.probe
    ensures ProbeOver(Step(s, Give(t, outcome)), t.lease.slot, outcome.Succeeded?)
  {
    assert KeyOk(s.keys[t.lease.slot], t.lease.slot, s.now, s.outstanding);
    StepKeepsInv(s, Give(t, outcome));
    var s' := Step(s, Give(t, outcome));
    assert KeyOk(s'.keys[t.lease.slot], t.lease.slot, s'.now, s'.outstanding);
  }

  /** At every reachable state, reporting a probe, whatever its outcome, ends the probe. */
  lemma ProbesAreNotLeaked(policy: Policy, keyCount: nat, start: int, acts: seq<Action>, t: Ticket, outcome: Outcome)
    requires Legal(Start(policy, keyCount, start), acts)
    requires t in Run(Start(policy, keyCount, start), acts).outstanding && t.probe
    ensures ProbeOver(Step(Run(Start(policy, keyCount, start), acts), Give(t, outcome)),
                      t.lease.slot, outcome.Succeeded?)
  {
    hide *;
    var s0 := Start(policy, keyCount, start);
    StartOk(policy, keyCount, start);
    RunKeepsInv(s0, acts);
    ProbeEnds(Run(s0, acts), t, outcome);
  }

  lemma OpenBreakerStep(m: System, a: Action, i: nat)
    requires Inv(m) && Enabled(m, a) && i < |m.keys|
    requires m.keys[i].openUntil.Some? && !m.keys[i].probing
    requires Step(m, a).now < m.keys[i].openUntil.value
    ensures |Step(m, a).keys| == |m.keys| && Step(m, a).keys[i] == m.keys[i]
    ensures m.now <= Step(m, a).now && Leased(m, a) != Some(i)
  {
    assert KeyOk(m.keys[i], i, m.now, m.outstanding);
    if a.Take? {
      FirstEligibleInRange(m.keys, a.attempted, m.now, 0);
    }
    hide VerdictOf, Settle, FirstEligible;
  }

  lemma NowGrows(m: System, a: Action)
    ensures m.now <= Step(m, a).now
  {
  }

  /**
   * Once a breaker is open until T and not probing, then for as long as the clock
   * shows less than T no request is leased the key and nothing changes its state.
   */
  lemma {:induction false} OpenBreakerHolds(s: System, acts: seq<Action>, i: nat)
    requires Inv(s) && Legal(s, acts) && i < |s.keys|
    requires s.keys[i].openUntil.Some? && !s.keys[i].probing
    requires Run(s, acts).now < s.keys[i].openUntil.value
    ensures |Run(s, acts).keys| == |s.keys| && Run(s, acts).keys[i] == s.keys[i]
    ensures i !in LeasedSlots(s, acts)
  {
    if acts != [] {
      hide Inv, Step, Leased;
      var pre, a := acts[..|acts| - 1], acts[|acts| - 1];
      NowGrows(Run(s, pre), a);
      OpenBreakerHolds(s, pre, i);
      RunKeepsInv(s, pre);
      OpenBreakerStep(Run(s, pre), a, i);
    }
  }

  /** The same from the start of the pool: whatever ran before the breaker opened. */
  lemma BreakerIsRespected(policy: Policy, keyCount: nat, start: int, before: seq<Action>, acts: seq<Action>, i: nat)
    requires Legal(Start(policy, keyCount, start), before)
    requires var s := Run(Start(policy, keyCount, start), before);
             && Legal(s, acts) && i < |s.keys| && s.keys[i].openUntil.Some? && !s.keys[i].probing
             && Run(s, acts).now < s.keys[i].openUntil.value
    ensures var s := Run(Start(policy, keyCount, start), before);
            && |Run(s, acts).keys| == |s.keys| && Run(s, acts).keys[i] == s.keys[i]
            && i !in LeasedSlots(s, acts)
  {
    hide *;
    StartOk(policy, keyCount, start);
    RunKeepsInv(Start(policy, keyCount, start), before);
    OpenBreakerHolds(Run(Start(policy, keyCount, start), before), acts, i);
  }

  /** A ticket that can still change its key is reported with a verdict that opens the breaker. */
  predicate Opens(s: System, t: Ticket, outcome: Outcome) {
    && t in s.outstanding && t.lease.slot < |s.keys| && s.keys[t.lease.slot].generation == t.lease.generation
    && VerdictOf(s.policy, outcome).OpenBreaker?
  }

  function TimeToLive(p: Policy, outcome: Outcome): int
    requires VerdictOf(p, outcome).OpenBreaker?
  {
    VerdictOf(p, outcome).ttl
  }

  lemma OpeningStep(s: System, t: Ticket, outcome: Outcome)
    requires Opens(s, t, outcome)
    ensures var after := Step(s, Give(t, outcome)); var slot := t.lease.slot;
            && |after.keys| == |s.keys|
            && after.keys[slot] == Key(Some(s.now + TimeToLive(s.policy, outcome)), false, t.lease.generation + 1)
  {
  }

  /**
   * A report that opens a breaker at some instant keeps its key exactly as it left it, open
   * for the verdict's time to live, and out of reach: in every run that ends earlier than
   * that, nothing changes the key and no request is leased it.
   */
  lemma OpeningIsRespected(policy: Policy, keyCount: nat, start: int, before: seq<Action>, t: Ticket, outcome: Outcome,
                           later: seq<Action>)
    requires Legal(Start(policy, keyCount, start), before)
    requires var s := Run(Start(policy, keyCount, start), before);
             && Opens(s, t, outcome) && Legal(Step(s, Give(t, outcome)), later)
             && Run(Step(s, Give(t, outcome)), later).now < s.now + TimeToLive(s.policy, outcome)
    ensures var s := Run(Start(policy, keyCount, start), before);
            var after := Step(s, Give(t, outcome));
            && t.lease.slot < |Run(after, later).keys|
            && Run(after, later).keys[t.lease.slot]
               == Key(Some(s.now + TimeToLive(s.policy, outcome)), false, t.lease.generation + 1)
            && t.lease.slot !in LeasedSlots(after, later)
  {
    hide *;
    StartOk(policy, keyCount, start);
    RunKeepsInv(Start(policy, keyCount, start), before);
    OpeningHolds(Run(Start(policy, keyCount, start), before), t, outcome, later);
  }

  lemma OpeningHolds(s: System, t: Ticket, outcome: Outcome, later: seq<Action>)
    requires Inv(s) && Opens(s, t, outcome) && Legal(Step(s, Give(t, outcome)), later)
    requires Run(Step(s, Give(t, outcome)), later).now < s.now + TimeToLive(s.policy, outcome)
    ensures var after := Step(s, Give(t, outcome));
            && t.lease.slot < |Run(after, later).keys|
            && Run(after, later).keys[t.lease.slot]
               == Key(Some(s.now + TimeToLive(s.policy, outcome)), false, t.lease.generation + 1)
            && t.lease.slot !in LeasedSlots(after, later)
  {
    OpeningStep(s, t, outcome);
    assert t in s.outstanding && t.lease.slot < |s.keys|;
    hide *;
    GiveKeepsInv(s, t, outcome);
    OpenBreakerHolds(Step(s, Give(t, outcome)), later, t.lease.slot);
  }

  // ---------------------------------------------------------------- stale reports

  /** A report by a lease of an older generation than its key's. */
  predicate Stale(s: System, a: Action) {
    a.Give? && (a.ticket.lease.slot >= |s.keys| || s.keys[a.ticket.lease.slot].generation != a.ticket.lease.generation)
  }

  /** The run without its stale reports. */
  function Erase(s: System, acts: seq<Action>): seq<Action> {
    if acts == [] then []
    else
      var pre, a := acts[..|acts| - 1], acts[|acts| - 1];
      Erase(s, pre) + (if Stale(Run(s, pre), a) then [] else [a])
  }

  lemma StepDependsOnPool(s: System, s': System, a: Action)
    requires s.keys == s'.keys && s.now == s'.now && s.policy == s'.policy && s.outstanding <= s'.outstanding
    ensures var t, t' := Step(s, a), Step(s', a);
            t.keys == t'.keys && t.now == t'.now && t.policy == t'.policy && t.outstanding <= t'.outstanding
    ensures Leased(s, a) == Leased(s', a)
  {
  }

  lemma StaleStep(s: System, a: Action)
    requires Stale(s, a)
    ensures var t := Step(s, a);
            t.keys == s.keys && t.now == s.now && t.policy == s.policy && t.outstanding <= s.outstanding
    ensures Leased(s, a).None?
  {
  }

  /** Erasing all stale reports changes no pool state and no lease; the rest stays legal. */
  lemma {:induction false} StaleReportsAreInvisible(s: System, acts: seq<Action>)
    requires Legal(s, acts)
    ensures Legal(s, Erase(s, acts))
    ensures var full, erased := Run(s, acts), Run(s, Erase(s, acts));
            && erased.keys == full.keys && erased.now == full.now && erased.policy == full.policy
            && full.outstanding <= erased.outstanding
    ensures LeasedSlots(s, Erase(s, acts)) == LeasedSlots(s, acts)
  {
    hide Step, Leased, Stale;
    if acts != [] {
      var pre, a := acts[..|acts| - 1], acts[|acts| - 1];
      StaleReportsAreInvisible(s, pre);
      var kept := Erase(s, pre);
      if Stale(Run(s, pre), a) {
        StaleStep(Run(s, pre), a);
        assert Erase(s, acts) == kept + [] == kept;
      } else {
        assert Erase(s, acts) == kept + [a] && (kept + [a])[..|kept|] == kept;
        StepDependsOnPool(Run(s, pre), Run(s, kept), a);
        assert Enabled(Run(s, kept), a);
      }
    }
  }

  // ---------------------------------------------------------------- one request among the others

  /** The ticket of a call's lease. */
  function TicketOf(c: Call): Ticket {
    Ticket(c.lease, c.lease.slot < |c.seen| && c.seen[c.lease.slot].openUntil.Some?)
  }

  /** What the others do before the n-th turn's lease is others(2n); between it and its report, others(2n+1). */
  type Others = nat -> seq<Action>

  /** The n-th turn of a request as steps of the protocol, among the others'. */
  function TurnOf(n: nat, tried: set<nat>, c: Call, others: Others): seq<Action> {
    others(2 * n) + ([Take(tried)] + (others(2 * n + 1) + [Give(TicketOf(c), c.outcome)]))
  }

  function Turns(calls: seq<Call>, others: Others): seq<Action> {
    if calls == [] then []
    else
      var n := |calls| - 1;
      Turns(calls[..n], others) + TurnOf(n, SlotsOf(calls[..n]), calls[n], others)
  }

  /** The others' part of a state in which this ticket is not theirs. */
  function Without(s: System, t: Ticket): System {
    s.(outstanding := s.outstanding - multiset{t})
  }

  /** From the state s, a legal run of the others has this effect on the pool and takes until this time. */
  ghost predicate Explains(s: System, acts: seq<Action>, keys: seq<Key>, now: int) {
    Legal(s, acts) && Run(s, acts).keys == keys && Run(s, acts).now == now
  }

  /** In the state s the n-th turn begins: what surrounds its call is the work of others, who never report its lease. */
  ghost predicate ExplainsTurn(s: System, w: World, n: nat, tried: set<nat>, c: Call, others: Others) {
    && Explains(s, others(2 * n), w.env(2 * n, s.keys), w.clock(2 * n))
    && var leased := Step(Run(s, others(2 * n)), Take(tried));
       Explains(Without(leased, TicketOf(c)), others(2 * n + 1), w.env(2 * n + 1, leased.keys), w.clock(2 * n + 1))
  }

  /** The interference around a request that starts in s is the work of other requests. */
  ghost predicate IsOthers(s: System, w: World, calls: seq<Call>, others: Others) {
    forall i :: 0 <= i < |calls| ==>
      ExplainsTurn(Run(s, Turns(calls[..i], others)), w, i, SlotsOf(calls[..i]), calls[i], others)
  }

  lemma {:induction false} RunAppend(s: System, a: seq<Action>, b: seq<Action>)
    ensures Legal(s, a + b) <==> Legal(s, a) && Legal(Run(s, a), b)
    ensures Run(s, a + b) == Run(Run(s, a), b)
  {
    if b == [] {
      assert a + b == a;
    } else {
      var pre, last := b[..|b| - 1], b[|b| - 1];
      RunAppend(s, a, pre);
      assert (a + b)[..|a + b| - 1] == a + pre && (a + b)[|a + b| - 1] == last;
      hide Step, Enabled;
    }
  }

  lemma RunOne(s: System, a: Action)
    ensures Legal(s, [a]) <==> Enabled(s, a)
    ensures Run(s, [a]) == Step(s, a)
  {
    assert [a][..0] == [];
    hide Step, Enabled;
  }

  /** One more ticket, which the run never reports, changes nothing else. */
  lemma {:induction false} ExtraTicket(s: System, acts: seq<Action>, t: Ticket)
    requires t in s.outstanding && Legal(Without(s, t), acts)
    ensures Legal(s, acts) && t in Run(s, acts).outstanding && Run(Without(s, t), acts) == Without(Run(s, acts), t)
  {
    if acts != [] {
      var pre, a := acts[..|acts| - 1], acts[|acts| - 1];
      ExtraTicket(s, pre, t);
      hide Legal, Run;
      ExtraTicketStep(Run(s, pre), a, t);
    }
  }

  lemma ExtraTicketStep(s: System, a: Action, t: Ticket)
    requires t in s.outstanding && Enabled(Without(s, t), a)
    ensures Enabled(s, a) && t in Step(s, a).outstanding && Step(Without(s, t), a) == Without(Step(s, a), t)
  {
    var one, out := multiset{t}, s.outstanding;
    if a.Give? {
      ExtraGiven(out, t, a.ticket);
      hide VerdictOf, Report;
    } else if a.Take? {
      hide Acquire, FirstEligible;
      FirstEligibleInRange(s.keys, a.attempted, s.now, 0);
      var lease := Acquire(s.keys, a.attempted, s.now).1;
      if lease.Some? {
        ExtraTaken(out, t, TicketFor(s.keys, lease.value));
      }
    }
  }

  lemma ExtraGiven(out: multiset<Ticket>, t: Ticket, given: Ticket)
    requires t in out && given in out - multiset{t}
    ensures t in out - multiset{given} && out - multiset{t} - multiset{given} == out - multiset{given} - multiset{t}
  {
  }

  lemma ExtraTaken(out: multiset<Ticket>, t: Ticket, taken: Ticket)
    requires t in out
    ensures out - multiset{t} + multiset{taken} == out + multiset{taken} - multiset{t}
  {
  }

  lemma LeaseStep(s: System, tried: set<nat>, c: Call)
    requires c.seen == s.keys && c.at == s.now && Acquire(c.seen, tried, c.at).1 == Some(c.lease)
    ensures Step(s, Take(tried)).keys == Acquire(s.keys, tried, s.now).0 && Step(s, Take(tried)).policy == s.policy
    ensures TicketOf(c) in Step(s, Take(tried)).outstanding
  {
    FirstEligibleInRange(s.keys, tried, s.now, 0);
    hide FirstEligible, Eligible;
  }

  lemma {:induction false} SamePolicy(s: System, acts: seq<Action>)
    ensures Run(s, acts).policy == s.policy
  {
    if acts != [] {
      SamePolicy(s, acts[..|acts| - 1]);
      hide Acquire, Report;
    }
  }

  lemma ReportStep(s: System, t: Ticket, outcome: Outcome)
    ensures Step(s, Give(t, outcome)).keys == Report(s.keys, t.lease, VerdictOf(s.policy, outcome), s.now)
    ensures t in s.outstanding ==> Enabled(s, Give(t, outcome))
  {
    hide Report, VerdictOf;
  }

  lemma TurnIsRun(s: System, w: World, n: nat, tried: set<nat>, c: Call, others: Others)
    requires Genuine(w, s.keys, n, tried, c) && ExplainsTurn(s, w, n, tried, c, others)
    ensures var acts := TurnOf(n, tried, c, others);
            Legal(s, acts) && Run(s, acts).keys == TurnEffect(s.policy, w, s.keys, n, tried, c)
  {
    var t, give := TicketOf(c), Give(TicketOf(c), c.outcome);
    hide Legal, Run, Step, Acquire, Report, VerdictOf;
    SamePolicy(s, others(2 * n));
    var before := Run(s, others(2 * n));
    LeaseStep(before, tried, c);
    var leased := Step(before, Take(tried));
    ExtraTicket(leased, others(2 * n + 1), t);
    SamePolicy(leased, others(2 * n + 1));
    var during := Run(leased, others(2 * n + 1));
    assert during.keys == w.env(2 * n + 1, leased.keys) && during.now == w.clock(2 * n + 1);
    ReportStep(during, t, c.outcome);
    RunOne(before, Take(tried));
    RunOne(during, give);
    RunAppend(leased, others(2 * n + 1), [give]);
    RunAppend(before, [Take(tried)], others(2 * n + 1) + [give]);
    RunAppend(s, others(2 * n), [Take(tried)] + (others(2 * n + 1) + [give]));
  }

  lemma PrefixIsOthers(s: System, w: World, calls: seq<Call>, others: Others, n: nat)
    requires IsOthers(s, w, calls, others) && n <= |calls|
    ensures IsOthers(s, w, calls[..n], others)
  {
    hide ExplainsTurn, Run, Turns, SlotsOf;
    forall i | 0 <= i < n
      ensures ExplainsTurn(Run(s, Turns(calls[..n][..i], others)), w, i, SlotsOf(calls[..n][..i]),
                           calls[..n][i], others)
    {
      assert calls[..n][..i] == calls[..i];
    }
  }

  /**
   * A request among others is part of one run of the protocol: its calls are the leases and
   * the reports of that run, which ends with the pool the request leaves behind.
   */
  lemma {:induction false} RequestIsRun(s: System, w: World, calls: seq<Call>, others: Others)
    requires AllGenuine(s.policy, w, s.keys, calls) && IsOthers(s, w, calls, others)
    ensures Legal(s, Turns(calls, others)) && Run(s, Turns(calls, others)).policy == s.policy
    ensures Run(s, Turns(calls, others)).keys == After(s.policy, w, s.keys, calls)
  {
    SamePolicy(s, Turns(calls, others));
    if calls != [] {
      var n := |calls| - 1;
      var pre := calls[..n];
      PrefixGenuine(s.policy, w, s.keys, calls, n);
      PrefixIsOthers(s, w, calls, others, n);
      RequestIsRun(s, w, pre, others);
      hide Legal, Run, TurnOf, TurnEffect, Genuine, ExplainsTurn, SlotsOf;
      SamePolicy(s, Turns(pre, others));
      TurnIsRun(Run(s, Turns(pre, others)), w, n, SlotsOf(pre), calls[n], others);
      RunAppend(s, Turns(pre, others), TurnOf(n, SlotsOf(pre), calls[n], others));
    }
  }

  /** What the n-th call sees is the pool after the turns before it and the others' next steps. */
  lemma CallSees(s: System, w: World, calls: seq<Call>, others: Others, n: nat)
    requires AllGenuine(s.policy, w, s.keys, calls) && IsOthers(s, w, calls, others) && n < |calls|
    ensures var acts := Turns(calls[..n], others) + others(2 * n);
            Legal(s, acts) && Run(s, acts).keys == calls[n].seen && Run(s, acts).now == calls[n].at
  {
    PrefixGenuine(s.policy, w, s.keys, calls, n);
    PrefixIsOthers(s, w, calls, others, n);
    RequestIsRun(s, w, calls[..n], others);
    RunAppend(s, Turns(calls[..n], others), others(2 * n));
    assert Genuine(w, After(s.policy, w, s.keys, calls[..n]), n, SlotsOf(calls[..n]), calls[n]);
    assert ExplainsTurn(Run(s, Turns(calls[..n], others)), w, n, SlotsOf(calls[..n]), calls[n], others);
    hide Legal, Run, Turns, Step, Acquire;
  }

  /** A half-open probe's lease is of a generation of its own; any other lease shares its key's. */
  lemma LeasedGeneration(w: World, pool: seq<Key>, n: nat, tried: set<nat>, c: Call)
    requires Genuine(w, pool, n, tried, c)
    ensures c.lease.slot < |c.seen|
    ensures var k := c.seen[c.lease.slot];
            c.lease.generation == k.generation + (if k.openUntil.Some? then 1 else 0)
  {
    AcquireFillsFirst(c.seen, tried, c.at, c.lease);
  }

  lemma CallIsUsable(w: World, pool: seq<Key>, n: nat, tried: set<nat>, c: Call)
    requires Genuine(w, pool, n, tried, c)
    ensures c.lease.slot < |c.seen| && Usable(c.seen[c.lease.slot], c.at)
  {
    AcquireFillsFirst(c.seen, tried, c.at, c.lease);
  }

  /** At every reachable state: until an open breaker's deadline no request calls its key, whatever others do. */
  lemma RequestRespectsBreaker(policy: Policy, keyCount: nat, start: int, before: seq<Action>, w: World,
                               calls: seq<Call>, others: Others, i: nat, n: nat)
    requires Legal(Start(policy, keyCount, start), before)
    requires var s := Run(Start(policy, keyCount, start), before);
             && AllGenuine(s.policy, w, s.keys, calls) && IsOthers(s, w, calls, others)
             && i < |s.keys| && s.keys[i].openUntil.Some? && !s.keys[i].probing
             && n < |calls| && calls[n].at < s.keys[i].openUntil.value
    ensures calls[n].lease.slot != i
  {
    var s := Run(Start(policy, keyCount, start), before);
    StartOk(policy, keyCount, start);
    RunKeepsInv(Start(policy, keyCount, start), before);
    CallSees(s, w, calls, others, n);
    assert Genuine(w, After(s.policy, w, s.keys, calls[..n]), n, SlotsOf(calls[..n]), calls[n]);
    hide Legal, Run, Start, Inv, Turns, IsOthers, AllGenuine, Genuine, After;
    OpenBreakerHolds(s, Turns(calls[..n], others) + others(2 * n), i);
    CallIsUsable(w, After(s.policy, w, s.keys, calls[..n]), n, SlotsOf(calls[..n]), calls[n]);
  }

  // ---------------------------------------------------------------- waiting for a key

  /** A request that has tried nothing yet would be leased a key at this time. */
  predicate LeasableAt(keys: seq<Key>, time: int) {
    Acquire(keys, {}, time).1.Some?
  }

  lemma LeasableExactly(keys: seq<Key>, time: int)
    ensures LeasableAt(keys, time) <==> exists i :: 0 <= i < |keys| && Usable(keys[i], time)
  {
    FirstEligibleInRange(keys, {}, time, 0);
    forall i: nat | i < |keys|
      ensures Eligible(keys, {}, time, i) == Usable(keys[i], time)
    {
    }
  }

  /** A positive wait, and the first after which a lease succeeds if some key is cooling down. */
  ghost predicate ExactWait(keys: seq<Key>, now: int, w: int) {
    && w > 0
    && ((exists i :: 0 <= i < |keys| && Cooling(keys[i], now)) ==>
          && LeasableAt(keys, now + w)
          && forall time :: now <= time < now + w ==> !LeasableAt(keys, time))
    && ((forall i :: 0 <= i < |keys| ==> !Cooling(keys[i], now)) ==> w == 1_000_000_000)
  }

  /** No key becomes usable before the shortest cooldown is over. */
  lemma NothingEarlier(keys: seq<Key>, now: int, w: int, time: int)
    requires !LeasableAt(keys, now) && now <= time < now + w
    requires forall i :: 0 <= i < |keys| && Cooling(keys[i], now) ==> w <= keys[i].openUntil.value - now
    ensures !LeasableAt(keys, time)
  {
    hide LeasableAt;
    LeasableExactly(keys, now);
    LeasableExactly(keys, time);
    forall i | 0 <= i < |keys|
      ensures !Usable(keys[i], time)
    {
      assert !Usable(keys[i], now);
    }
  }

  /** A key that is cooling down is not probing, so it is usable as soon as its deadline has come. */
  lemma UsableAtDeadline(s: System, i: nat)
    requires Inv(s) && i < |s.keys| && Cooling(s.keys[i], s.now)
    ensures LeasableAt(s.keys, s.keys[i].openUntil.value)
  {
    hide LeasableAt;
    assert KeyOk(s.keys[i], i, s.now, s.outstanding);
    assert Usable(s.keys[i], s.keys[i].openUntil.value);
    LeasableExactly(s.keys, s.keys[i].openUntil.value);
  }

  lemma WaitIsExact(s: System)
    requires Inv(s) && !LeasableAt(s.keys, s.now)
    ensures ExactWait(s.keys, s.now, RetryAfter(s.keys, s.now))
  {
    hide LeasableAt, ShortestCooldown, Inv;
    RetryPositive(s.keys, s.now);
    ShortestCooldownMeaning(s.keys, s.now, |s.keys|);
    var w := RetryAfter(s.keys, s.now);
    if exists i :: 0 <= i < |s.keys| && Cooling(s.keys[i], s.now) {
      var i :| 0 <= i < |s.keys| && Cooling(s.keys[i], s.now) && s.keys[i].openUntil.value - s.now == w;
      UsableAtDeadline(s, i);
      forall time | s.now <= time < s.now + w
        ensures !LeasableAt(s.keys, time)
      {
        NothingEarlier(s.keys, s.now, w, time);
      }
    }
  }

  /**
   * At every reachable state where no key can be leased, Retry-After is positive; if some
   * key is cooling down it is the exact wait, absent other steps, after which a lease
   * first succeeds.
   */
  lemma RetryAfterIsExact(policy: Policy, keyCount: nat, start: int, acts: seq<Action>)
    requires Legal(Start(policy, keyCount, start), acts)
    requires var s := Run(Start(policy, keyCount, start), acts); !LeasableAt(s.keys, s.now)
    ensures var s := Run(Start(policy, keyCount, start), acts); ExactWait(s.keys, s.now, RetryAfter(s.keys, s.now))
  {
    hide *;
    StartOk(policy, keyCount, start);
    RunKeepsInv(Start(policy, keyCount, start), acts);
    WaitIsExact(Run(Start(policy, keyCount, start), acts));
  }

  /** retryAfterSeconds: the header's whole seconds. */
  function RetryAfterSeconds(d: int): (seconds: int)
    ensures seconds >= 1
    ensures d > 0 ==> d <= seconds * 1_000_000_000 < d + 1_000_000_000
  {
    if d <= 0 then 1
    else if d % SECOND != 0 then d / SECOND + 1
    else d / SECOND
  }
}
