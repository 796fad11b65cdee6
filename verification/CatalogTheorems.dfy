/**
 * The catalog's entries over whole runs: when each was last listed, which of them a search
 * evicts in those terms, and that no credential is shown another's models.
 */
module CatalogTheorems {
  import opened Wrappers
  import C = Cache
  import opened Catalog

  // ---------------------------------------------------------------- when an entry was last listed

  /** The action, taken in s, gives a listing of this credential its entry. */
  predicate Lists(s: System, a: Action, id: Id) {
    || (a.OpenEntry? && a.id == id)
    || (a.EndScan? && s.scan.Some? && s.scan.value.id == id && s.scan.value.caller in Step(s, a).listings)
  }

  /** The time of the latest listing of this credential in the run. */
  function LastListed(s: System, acts: seq<Action>, id: Id): Option<int> {
    if acts == [] then None
    else
      var pre, a := acts[..|acts| - 1], acts[|acts| - 1];
      if Lists(Run(s, pre), a, id) then Some(Run(s, pre).now) else LastListed(s, pre, id)
  }

  predicate UsedBefore(s: System, id: Id, e: Entry) {
    id in s.entries && s.entries[id].used == e.used
  }

  lemma OpenedUses(s: System, c: nat, joined: Id, victim: Option<Id>, id: Id)
    requires id in Opened(s, c, joined, victim).entries
    ensures var t := Opened(s, c, joined, victim);
            if id == joined then c in t.listings && t.entries[id].used == s.now else UsedBefore(s, id, t.entries[id])
  {
  }

  lemma QueriedUses(s: System, c: nat, id: Id)
    requires id in Queried(s, c).entries
    ensures UsedBefore(s, id, Queried(s, c).entries[id])
  {
    hide C.Enter;
  }

  lemma ReleasedUses(s: System, c: nat, id: Id)
    requires id in Released(s, c).entries
    ensures UsedBefore(s, id, Released(s, c).entries[id])
  {
  }

  lemma FetchedUses(s: System, h: Handle, r: C.Result<Models>, id: Id)
    requires id in Fetched(s, h, r).entries
    ensures UsedBefore(s, id, Fetched(s, h, r).entries[id])
  {
    hide C.Complete;
  }

  /** An entry's use time changes only when its credential is listed, and then to the present. */
  lemma StepUses(s: System, a: Action, id: Id)
    requires Enabled(s, a) && id in Step(s, a).entries
    ensures if Lists(s, a, id) then Step(s, a).entries[id].used == s.now
            else id in s.entries && Step(s, a).entries[id].used == s.entries[id].used
  {
    hide Opened, Queried, Released, Fetched, Examined, IdleEntries;
    match a
    case OpenEntry(c, joined) => OpenedUses(s, c, joined, None, id);
    case EndScan =>
      var scan := s.scan.value;
      OpenedUses(s.(scan := None), scan.caller, scan.id, scan.best, id);
    case Query(c) => QueriedUses(s, c, id);
    case Release(c) => ReleasedUses(s, c, id);
    case FetchDone(h, r) => FetchedUses(s, h, r, id);
    case _ =>
  }

  /** In every run each entry's use time is when its credential was last listed. */
  lemma {:induction false} UsedIsLastListed(policy: C.Policy, now: int, acts: seq<Action>, id: Id)
    requires Legal(Start(policy, now), acts) && id in Run(Start(policy, now), acts).entries
    ensures LastListed(Start(policy, now), acts, id) == Some(Run(Start(policy, now), acts).entries[id].used)
  {
    var s0 := Start(policy, now);
    if acts != [] {
      var pre, a := acts[..|acts| - 1], acts[|acts| - 1];
      StartOk(policy, now);
      RunKeepsInv(s0, pre);
      hide Start, Inv, Step, Enabled, Lists;
      StepUses(Run(s0, pre), a, id);
      if !Lists(Run(s0, pre), a, id) {
        UsedIsLastListed(policy, now, pre, id);
      }
    }
  }

  // ---------------------------------------------------------------- the victim, by listing times

  /** Entry k was last listed before entry j. */
  predicate ListedBefore(s: System, acts: seq<Action>, k: Id, j: Id) {
    var x, y := LastListed(s, acts, k), LastListed(s, acts, j);
    x.Some? && y.Some? && x.value < y.value
  }

  /** Of the entries idle after this run, v is one whose credential was listed longest ago. */
  ghost predicate LongestUnlisted(s: System, acts: seq<Action>, v: Id) {
    var entries := Run(s, acts).entries;
    && v in entries && Idle(entries[v])
    && forall k :: k in entries && Idle(entries[k]) ==> !ListedBefore(s, acts, k, v)
  }

  /** Every unused entry still fetching and listed before another unused one has an idle one not listed after it. */
  ghost predicate SafeByListing(s: System, acts: seq<Action>) {
    var entries := Run(s, acts).entries;
    forall k, j :: k in entries && j in entries && Waits(entries[k]) && entries[j].users == 0
                   && ListedBefore(s, acts, k, j) ==>
      exists i :: i in entries && Idle(entries[i]) && !ListedBefore(s, acts, k, i)
  }

  /** Whatever happens during a search that begins after this run, it evicts the entry unlisted longest. */
  ghost predicate EvictsLongestUnlisted(policy: C.Policy, now: int, before: seq<Action>, c: nat, id: Id) {
    forall during, t, v ::
      Search(policy, now, before, c, id, during, Run(Start(policy, now), before), t) && Evicts(t, v) ==>
        LongestUnlisted(Start(policy, now), before + [BeginScan(c, id)] + during, v)
  }

  lemma {:induction false} RunAppend(s: System, a: seq<Action>, b: seq<Action>)
    ensures Legal(s, a + b) <==> Legal(s, a) && Legal(Run(s, a), b)
    ensures Run(s, a + b) == Run(Run(s, a), b)
  {
    if b == [] {
      assert a + b == a;
    } else {
      var pre, last := b[..|b| - 1], b[|b| - 1];
      RunAppend(s, a, pre);
      assert (a + b)[..|a + b| - 1] == a + pre && (a + b)[|a + b| - 1] == last;
      hide Step, Enabled;
    }
  }

  /** A search is part of one run from the start. */
  lemma SearchIsRun(policy: C.Policy, now: int, before: seq<Action>, c: nat, id: Id, during: seq<Action>,
                    s: System, t: System)
    requires Search(policy, now, before, c, id, during, s, t)
    ensures var acts := before + [BeginScan(c, id)] + during;
            Legal(Start(policy, now), acts) && Run(Start(policy, now), acts) == t
  {
    var s0 := Start(policy, now);
    hide Legal, Run, Step, Enabled, Start;
    OneMore(s0, before, BeginScan(c, id));
    RunAppend(s0, before + [BeginScan(c, id)], during);
  }

  lemma ListedBeforeExactly(policy: C.Policy, now: int, acts: seq<Action>, k: Id, j: Id)
    requires Legal(Start(policy, now), acts)
    requires var entries := Run(Start(policy, now), acts).entries; k in entries && j in entries
    ensures var entries := Run(Start(policy, now), acts).entries;
            ListedBefore(Start(policy, now), acts, k, j) <==> entries[k].used < entries[j].used
  {
    hide Legal, Run, LastListed;
    UsedIsLastListed(policy, now, acts, k);
    UsedIsLastListed(policy, now, acts, j);
  }

  lemma VictimByListing(policy: C.Policy, now: int, acts: seq<Action>, v: Id)
    requires Legal(Start(policy, now), acts)
    ensures LongestUnlisted(Start(policy, now), acts, v) <==> IsVictim(Run(Start(policy, now), acts).entries, v)
  {
    var entries := Run(Start(policy, now), acts).entries;
    hide Legal, Run, ListedBefore, Idle;
    forall k | k in entries && v in entries
      ensures ListedBefore(Start(policy, now), acts, k, v) <==> entries[k].used < entries[v].used
    {
      ListedBeforeExactly(policy, now, acts, k, v);
    }
  }

  lemma SafeExactly(policy: C.Policy, now: int, acts: seq<Action>)
    requires Legal(Start(policy, now), acts)
    ensures SafeByListing(Start(policy, now), acts) <==> Safe(Run(Start(policy, now), acts).entries)
  {
    var s0 := Start(policy, now);
    var entries := Run(s0, acts).entries;
    hide Legal, Run, ListedBefore, Idle, Waits;
    forall k, j | k in entries && j in entries
      ensures ListedBefore(s0, acts, k, j) <==> entries[k].used < entries[j].used
    {
      ListedBeforeExactly(policy, now, acts, k, j);
    }
    if SafeByListing(s0, acts) {
      forall k, j | OlderWaits(entries, k, j)
        ensures exists i :: i in entries && Idle(entries[i]) && entries[i].used <= entries[k].used
      {
        assert ListedBefore(s0, acts, k, j);
      }
    }
    if Safe(entries) {
      forall k, j | k in entries && j in entries && Waits(entries[k]) && entries[j].users == 0
                    && ListedBefore(s0, acts, k, j)
        ensures exists i :: i in entries && Idle(entries[i]) && !ListedBefore(s0, acts, k, i)
      {
        assert OlderWaits(entries, k, j);
      }
    }
  }

  /** A search's victim, both ways. */
  lemma SearchVictim(policy: C.Policy, now: int, before: seq<Action>, c: nat, id: Id, during: seq<Action>,
                     t: System, v: Id)
    requires Search(policy, now, before, c, id, during, Run(Start(policy, now), before), t)
    ensures LongestUnlisted(Start(policy, now), before + [BeginScan(c, id)] + during, v) <==> IsVictim(t.entries, v)
  {
    hide *;
    SearchIsRun(policy, now, before, c, id, during, Run(Start(policy, now), before), t);
    VictimByListing(policy, now, before + [BeginScan(c, id)] + during, v);
  }

  lemma EvictsExactly(policy: C.Policy, now: int, before: seq<Action>, c: nat, id: Id)
    ensures EvictsLongestUnlisted(policy, now, before, c, id) <==>
              EvictsOldest(policy, now, before, c, id, Run(Start(policy, now), before))
  {
    hide Legal, Run, Start, Search, Evicts, IsVictim, LongestUnlisted;
    forall during, t, v | Search(policy, now, before, c, id, during, Run(Start(policy, now), before), t) && Evicts(t, v)
      ensures LongestUnlisted(Start(policy, now), before + [BeginScan(c, id)] + during, v) <==> IsVictim(t.entries, v)
    {
      SearchVictim(policy, now, before, c, id, during, t, v);
    }
  }

  /**
   * In terms of when credentials were listed: a search that begins after this run is sure
   * to evict the entry listed longest ago, of those idle at its end, exactly if no unused
   * entry still fetching was listed before every idle one and before another unused one.
   */
  lemma LongestUnlistedExactly(policy: C.Policy, now: int, before: seq<Action>, c: nat, id: Id)
    requires Legal(Start(policy, now), before) && Enabled(Run(Start(policy, now), before), BeginScan(c, id))
    ensures EvictsLongestUnlisted(policy, now, before, c, id) <==> SafeByListing(Start(policy, now), before)
  {
    hide *;
    EvictsExactly(policy, now, before, c, id);
    LeastRecentExactly(policy, now, before, c, id, Run(Start(policy, now), before));
    SafeExactly(policy, now, before);
  }

  // ---------------------------------------------------------------- whose models an entry shows

  /** The models of the last fetch for this entry that the cache keeps: with stale serving, the last successful one. */
  function LastFetched(acts: seq<Action>, h: Handle, serveStale: bool): Models {
    if acts == [] then []
    else
      var a := acts[|acts| - 1];
      if a.FetchDone? && a.handle == h && (a.fetched.err.None? || !serveStale) then a.fetched.value
      else LastFetched(acts[..|acts| - 1], h, serveStale)
  }

  /** Fetches are for entries that exist, so none was for an entry still to come. */
  lemma {:induction false} NoneForNewEntries(policy: C.Policy, now: int, acts: seq<Action>, h: Handle)
    requires Legal(Start(policy, now), acts) && h.serial >= Run(Start(policy, now), acts).nextSerial
    ensures LastFetched(acts, h, policy.serveStale) == []
  {
    var s0 := Start(policy, now);
    if acts != [] {
      var pre, a := acts[..|acts| - 1], acts[|acts| - 1];
      StartOk(policy, now);
      RunKeepsInv(s0, pre);
      SerialsGrowBy(Run(s0, pre), a);
      hide Start, Inv, Step, Enabled;
      NoneForNewEntries(policy, now, pre, h);
    }
  }

  lemma SerialsGrowBy(s: System, a: Action)
    requires Inv(s) && Enabled(s, a)
    ensures s.nextSerial <= Step(s, a).nextSerial && Step(s, a).policy == s.policy
    ensures a.FetchDone? ==> a.handle.serial < s.nextSerial
  {
    if a.FetchDone? {
      FetchIsOld(s, a.handle);
    }
    hide Inv, C.Enter, C.Complete, Examined, IdleEntries, Open;
  }

  lemma FetchIsOld(s: System, h: Handle)
    requires Inv(s) && h in s.fetching
    ensures h.serial < s.nextSerial
  {
    hide HandlesOk, UsersOk, ScanOk;
  }

  /** The entry was there before, showing the same models. */
  predicate ShownBefore(s: System, id: Id, e: Entry) {
    id in s.entries && s.entries[id].serial == e.serial && s.entries[id].cache.value == e.cache.value
  }

  lemma OpenedShows(s: System, c: nat, joined: Id, victim: Option<Id>, id: Id)
    requires id in Opened(s, c, joined, victim).entries
    ensures var e := Opened(s, c, joined, victim).entries[id];
            ShownBefore(s, id, e) || (e.cache.value == [] && e.serial == s.nextSerial)
  {
  }

  lemma QueriedShows(s: System, c: nat, id: Id)
    requires id in Queried(s, c).entries
    ensures ShownBefore(s, id, Queried(s, c).entries[id])
  {
  }

  lemma ReleasedShows(s: System, c: nat, id: Id)
    requires id in Released(s, c).entries
    ensures ShownBefore(s, id, Released(s, c).entries[id])
  {
  }

  lemma FetchedShows(s: System, h: Handle, r: C.Result<Models>, id: Id)
    requires id in Fetched(s, h, r).entries
    ensures var e := Fetched(s, h, r).entries[id];
            if h == Handle(id, e.serial) && (r.err.None? || !s.policy.serveStale) then e.cache.value == r.value
            else ShownBefore(s, id, e)
  {
  }

  /** A fetch changes the models of its own entry only; a new entry has none; nothing else changes any. */
  lemma StepShows(s: System, a: Action, id: Id)
    requires id in Step(s, a).entries
    ensures var e := Step(s, a).entries[id];
            if a.FetchDone? && a.handle == Handle(id, e.serial) && (a.fetched.err.None? || !s.policy.serveStale) then
              e.cache.value == a.fetched.value
            else ShownBefore(s, id, e) || (e.cache.value == [] && e.serial == s.nextSerial)
  {
    hide Opened, Queried, Released, Fetched, Examined, IdleEntries;
    match a
    case OpenEntry(c, joined) => OpenedShows(s, c, joined, None, id);
    case EndScan =>
      if s.scan.Some? {
        var scan := s.scan.value;
        OpenedShows(s.(scan := None), scan.caller, scan.id, scan.best, id);
      }
    case Query(c) => QueriedShows(s, c, id);
    case Release(c) => ReleasedShows(s, c, id);
    case FetchDone(h, r) => FetchedShows(s, h, r, id);
    case _ =>
  }

  lemma {:induction false} SamePolicy(policy: C.Policy, now: int, acts: seq<Action>)
    requires Legal(Start(policy, now), acts)
    ensures Run(Start(policy, now), acts).policy == policy
  {
    if acts != [] {
      var pre := acts[..|acts| - 1];
      StartOk(policy, now);
      RunKeepsInv(Start(policy, now), pre);
      SerialsGrowBy(Run(Start(policy, now), pre), acts[|acts| - 1]);
      hide Inv, Step, Enabled;
      SamePolicy(policy, now, pre);
    }
  }

  /**
   * In every run an entry shows exactly the models last fetched for it, and none before:
   * never those of another credential, or of an evicted entry of its own.
   */
  lemma {:induction false} EntriesShowTheirOwn(policy: C.Policy, now: int, acts: seq<Action>, id: Id)
    requires Legal(Start(policy, now), acts) && id in Run(Start(policy, now), acts).entries
    ensures var e := Run(Start(policy, now), acts).entries[id];
            e.cache.value == LastFetched(acts, Handle(id, e.serial), policy.serveStale)
  {
    var s0 := Start(policy, now);
    if acts != [] {
      var pre, a := acts[..|acts| - 1], acts[|acts| - 1];
      StartOk(policy, now);
      RunKeepsInv(s0, pre);
      SamePolicy(policy, now, pre);
      hide Start, Inv, Step, Enabled;
      StepShows(Run(s0, pre), a, id);
      var e := Run(s0, acts).entries[id];
      if e.serial == Run(s0, pre).nextSerial {
        NoneForNewEntries(policy, now, pre, Handle(id, e.serial));
      }
      if id in Run(s0, pre).entries {
        EntriesShowTheirOwn(policy, now, pre, id);
      }
    }
  }
}
