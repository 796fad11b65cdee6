/**
 * The bounded per-credential model catalog (proxy/internal/server/models.go) over the
 * single-flight cache.  An entry is pinned by its users and by a running fetch; only
 * an idle entry can be evicted.  Entries are values carrying a serial number, which
 * stands for the identity of the entry object a caller holds.
 */
module Catalog {
  import opened Wrappers
  import C = Cache

  const CAPACITY := 128

  /** The digest of a credential. */
  type Id = nat

  /** The models a fetch returns; the empty list is turned into an error by the caller of the cache. */
  type Models = seq<string>

  datatype Entry = Entry(serial: nat, cache: C.Cache<Models>, used: int, users: nat)

  /** A caller's pointer to an entry. */
  datatype Handle = Handle(id: Id, serial: nat)

  const EMPTY: C.Cache<Models> := C.Cache([], None, false, None, false)

  predicate Idle(e: Entry) {
    e.users == 0 && !e.cache.refreshing
  }

  /** An idle entry that no other idle entry was used before. */
  predicate IsVictim(entries: map<Id, Entry>, v: Id) {
    && v in entries && Idle(entries[v])
    && forall k :: k in entries && Idle(entries[k]) ==> entries[v].used <= entries[k].used
  }

  /**
   * What others may do to the entries while the catalog's mutex is held: a cache has its
   * own mutex, so running fetches finish and holders of an entry start new ones, but
   * nobody touches an idle entry.
   */
  ghost predicate Proceeds(before: map<Id, Entry>, after: map<Id, Entry>) {
    && before.Keys == after.Keys
    && forall k :: k in before ==>
         && after[k].serial == before[k].serial && after[k].used == before[k].used && after[k].users == before[k].users
         && (Idle(before[k]) ==> after[k] == before[k])
  }

  /** What others do while the scan looks at its n-th candidate. */
  type Others = (nat, map<Id, Entry>) -> map<Id, Entry>

  ghost predicate OnlyProceed(others: Others) {
    forall n, entries :: Proceeds(entries, others(n, entries))
  }

  /**
   * What a scan that began with these entries and ends with those may evict: an entry that
   * is idle at the end and no younger than any that was idle at the beginning, or nothing
   * if none was.
   */
  ghost predicate MayEvict(begin: map<Id, Entry>, end: map<Id, Entry>, victim: Option<Id>) {
    match victim
    case Some(v) =>
      v in end && Idle(end[v])
      && forall k :: k in begin && Idle(begin[k]) ==> k in end && end[v].used <= end[k].used
    case None => forall k :: k in begin ==> !Idle(begin[k])
  }

  /** entry: join the credential's entry or make room for a new one; None when all are pinned. */
  function Open(entries: map<Id, Entry>, id: Id, now: int, serial: nat, victim: Option<Id>)
    : (map<Id, Entry>, Option<Handle>)
  {
    if id in entries then
      (entries[id := entries[id].(used := now, users := entries[id].users + 1)], Some(Handle(id, entries[id].serial)))
    else if |entries| >= CAPACITY && victim.None? then (entries, None)
    else
      var room := if victim.Some? then entries - {victim.value} else entries;
      (room[id := Entry(serial, EMPTY, now, 1)], Some(Handle(id, serial)))
  }

  /** The handle still points at the entry the map holds for its credential. */
  predicate Current(entries: map<Id, Entry>, h: Handle) {
    h.id in entries && entries[h.id].serial == h.serial
  }

  class ModelCatalog {
    var entries: map<Id, Entry>
    var nextSerial: nat

    constructor ()
      ensures entries == map[] && nextSerial == 0
    {
      entries, nextSerial := map[], 0;
    }

    /**
     * The search runs over the entries in an arbitrary order, as Go's map iteration does,
     * and fetches go on meanwhile.
     */
    method OldestIdle(others: Others) returns (victim: Option<Id>)
      requires OnlyProceed(others)
      modifies this`entries
      ensures Proceeds(old(entries), entries) && MayEvict(old(entries), entries, victim)
    {
      victim := None;
      var todo, n := entries.Keys, 0;
      while todo != {}
        invariant todo <= entries.Keys && Proceeds(old(entries), entries)
        invariant victim.Some? ==> victim.value in entries && Idle(entries[victim.value])
        invariant forall k :: k in entries && k !in todo && Idle(old(entries)[k]) ==>
                    victim.Some? && entries[victim.value].used <= entries[k].used
        decreases todo
      {
        entries := others(n, entries);
        n := n + 1;
        var k :| k in todo;
        var candidate := entries[k];
        if candidate.users == 0 && !candidate.cache.refreshing
           && (victim.None? || candidate.used < entries[victim.value].used) {
          victim := Some(k);
        }
        todo := todo - {k};
      }
    }

    /** scanned is the entries after the search, before any eviction. */
    method OpenEntry(id: Id, now: int, others: Others)
      returns (handle: Option<Handle>, victim: Option<Id>, ghost scanned: map<Id, Entry>)
      requires OnlyProceed(others)
      modifies this
      ensures if id in old(entries) || |old(entries)| < CAPACITY then scanned == old(entries) && victim.None?
              else Proceeds(old(entries), scanned) && MayEvict(old(entries), scanned, victim)
      ensures (entries, handle) == Open(scanned, id, now, old(nextSerial), victim)
      ensures nextSerial == old(nextSerial) + 1
    {
      victim, scanned := None, entries;
      var serial := nextSerial;
      nextSerial := nextSerial + 1;
      if id !in entries {
        if |entries| >= CAPACITY {
          victim := OldestIdle(others);
          scanned := entries;
          assert |scanned.Keys| == |scanned| && |old(entries).Keys| == |old(entries)|;
          if victim.None? {
            return None, None, scanned;
          }
          entries := entries - {victim.value};
        }
        entries := entries[id := Entry(serial, EMPTY, now, 0)];
      }
      var entry := entries[id];
      entries := entries[id := entry.(used := now, users := entry.users + 1)];
      assert id !in scanned ==>
          entries == (if victim.Some? then scanned - {victim.value} else scanned)[id := Entry(serial, EMPTY, now, 1)];
      handle := Some(Handle(id, entry.serial));
    }

    method Release(h: Handle)
      requires Current(entries, h) && entries[h.id].users > 0
      modifies this`entries
      ensures entries == old(entries)[h.id := old(entries)[h.id].(users := old(entries)[h.id].users - 1)]
    {
      var entry := entries[h.id];
      entries := entries[h.id := entry.(users := entry.users - 1)];
    }
  }

  // ---------------------------------------------------------------- concurrent listings

  /** A listing between opening an entry and releasing it; queried once its cache was asked. */
  datatype Listing = Listing(handle: Handle, queried: bool)

  /**
   * A listing searching for a victim: the candidates still to look at, the best so far,
   * and, for the record, the entries that were idle when it began.
   */
  datatype Scan = Scan(caller: nat, id: Id, todo: set<Id>, best: Option<Id>, idle: set<Id>)

  /** scan is the search holding the catalog's mutex, if one is under way. */
  datatype System = System(
    policy: C.Policy, entries: map<Id, Entry>, now: int, nextSerial: nat,
    listings: map<nat, Listing>, fetching: multiset<Handle>, scan: Option<Scan>)

  /** Looking at one candidate is one step, for it takes that candidate's own mutex. */
  datatype Action =
    | Tick(elapsed: nat)
    | OpenEntry(caller: nat, id: Id)
    | BeginScan(caller: nat, id: Id)
    | Examine(candidate: Id)
    | EndScan
    | Query(caller: nat)
    | Release(caller: nat)
    | FetchDone(handle: Handle, fetched: C.Result<Models>)

  function Start(policy: C.Policy, now: int): System {
    System(policy, map[], now, 0, map[], multiset{}, None)
  }

  predicate Enabled(s: System, a: Action) {
    match a
    case Tick(_) => true
    case OpenEntry(c, id) => s.scan.None? && c !in s.listings && (id in s.entries || |s.entries| < CAPACITY)
    case BeginScan(c, id) => s.scan.None? && c !in s.listings && id !in s.entries && |s.entries| >= CAPACITY
    case Examine(k) => s.scan.Some? && k in s.scan.value.todo
    case EndScan => s.scan.Some? && s.scan.value.todo == {}
    case Query(c) => c in s.listings && !s.listings[c].queried
    case Release(c) => s.scan.None? && c in s.listings  // a canceled caller releases without querying
    case FetchDone(h, _) => h in s.fetching
  }

  function IdleEntries(entries: map<Id, Entry>): set<Id> {
    set k | k in entries && Idle(entries[k])
  }

  function Examined(entries: map<Id, Entry>, scan: Scan, k: Id): Scan {
    var better := k in entries && Idle(entries[k])
                  && (scan.best.None? || scan.best.value !in entries
                      || entries[k].used < entries[scan.best.value].used);
    scan.(todo := scan.todo - {k}, best := if better then Some(k) else scan.best)
  }

  function Opened(s: System, c: nat, id: Id, victim: Option<Id>): System {
    var (entries, handle) := Open(s.entries, id, s.now, s.nextSerial, victim);
    s.(entries := entries, nextSerial := s.nextSerial + 1,
       listings := if handle.Some? then s.listings[c := Listing(handle.value, false)] else s.listings)
  }

  /** The cache's critical section, on the entry the caller holds. */
  function Queried(s: System, c: nat): System {
    if c !in s.listings then s else
    var h := s.listings[c].handle;
    var before := if Current(s.entries, h) then s.entries[h.id].cache else EMPTY;
    var after := C.Enter(before, s.policy, s.now).0;
    s.(entries := if Current(s.entries, h) then s.entries[h.id := s.entries[h.id].(cache := after)] else s.entries,
       fetching := if after.refreshing && !before.refreshing then s.fetching + multiset{h} else s.fetching,
       listings := s.listings[c := Listing(h, true)])
  }

  function Released(s: System, c: nat): System {
    if c !in s.listings then s else
    var h := s.listings[c].handle;
    s.(entries := if Current(s.entries, h) && s.entries[h.id].users > 0
                  then s.entries[h.id := s.entries[h.id].(users := s.entries[h.id].users - 1)] else s.entries,
       listings := s.listings - {c})
  }

  function Fetched(s: System, h: Handle, r: C.Result<Models>): System {
    s.(entries := if Current(s.entries, h)
                  then s.entries[h.id := s.entries[h.id]
                                           .(cache := C.Complete(s.entries[h.id].cache, s.policy, s.now, r))]
                  else s.entries,
       fetching := s.fetching - multiset{h})
  }

  /** An entry that was evicted while held would be out of everyone's sight; the invariant excludes it. */
  function Step(s: System, a: Action): System {
    match a
    case Tick(d) => s.(now := s.now + d)
    case OpenEntry(c, id) => Opened(s, c, id, None)
    case BeginScan(c, id) => s.(scan := Some(Scan(c, id, s.entries.Keys, None, IdleEntries(s.entries))))
    case Examine(k) =>
      if s.scan.None? then s else s.(scan := Some(Examined(s.entries, s.scan.value, k)))
    case EndScan =>
      if s.scan.None? then s else
      Opened(s.(scan := None), s.scan.value.caller, s.scan.value.id, s.scan.value.best)
    case Query(c) => Queried(s, c)
    case Release(c) => Released(s, c)
    case FetchDone(h, fetched) => Fetched(s, h, fetched)
  }

  predicate Legal(s: System, acts: seq<Action>) {
    acts == [] || (Legal(s, acts[..|acts| - 1]) && Enabled(Run(s, acts[..|acts| - 1]), acts[|acts| - 1]))
  }

  function Run(s: System, acts: seq<Action>): System {
    if acts == [] then s else Step(Run(s, acts[..|acts| - 1]), acts[|acts| - 1])
  }

  // ---------------------------------------------------------------- the invariant

  /** The listings that hold the entry of a credential. */
  function Holders(listings: map<nat, Listing>, id: Id): set<nat> {
    set c | c in listings && listings[c].handle.id == id
  }

  ghost predicate HandlesOk(entries: map<Id, Entry>, listings: map<nat, Listing>) {
    forall c :: c in listings ==> Current(entries, listings[c].handle)
  }

  ghost predicate UsersOk(entries: map<Id, Entry>, listings: map<nat, Listing>) {
    forall id :: id in entries ==> entries[id].users == |Holders(listings, id)|
  }

  /** The running fetches are one per entry whose cache says it is refreshing. */
  ghost predicate FetchesOk(entries: map<Id, Entry>, fetching: multiset<Handle>) {
    && (forall h :: h in fetching ==> Current(entries, h) && entries[h.id].cache.refreshing && fetching[h] == 1)
    && (forall id :: id in entries && entries[id].cache.refreshing ==> Handle(id, entries[id].serial) in fetching)
  }

  ghost predicate SerialsOk(entries: map<Id, Entry>, next: nat) {
    forall id :: id in entries ==> entries[id].serial < next
  }

  ghost predicate Books(entries: map<Id, Entry>, listings: map<nat, Listing>, fetching: multiset<Handle>, next: nat) {
    && |entries| <= CAPACITY && SerialsOk(entries, next)
    && HandlesOk(entries, listings) && UsersOk(entries, listings) && FetchesOk(entries, fetching)
  }

  /** What a search has found so far, of the entries that were idle when it began. */
  ghost predicate ScanOk(entries: map<Id, Entry>, listings: map<nat, Listing>, scan: Scan) {
    && scan.caller !in listings && scan.id !in entries && |entries| >= CAPACITY
    && scan.todo <= entries.Keys
    && (forall k :: k in scan.idle ==> k in entries && Idle(entries[k]))
    && (scan.best.Some? ==> scan.best.value in entries && Idle(entries[scan.best.value]))
    && (forall k :: k in scan.idle && k !in scan.todo ==>
          scan.best.Some? && entries[scan.best.value].used <= entries[k].used)
  }

  ghost predicate Inv(s: System) {
    && Books(s.entries, s.listings, s.fetching, s.nextSerial)
    && (s.scan.Some? ==> ScanOk(s.entries, s.listings, s.scan.value))
  }

  /** Changing one entry's contents in place keeps the map's size and every handle. */
  lemma InPlace(entries: map<Id, Entry>, id: Id, e: Entry, listings: map<nat, Listing>, next: nat)
    requires id in entries && e.serial == entries[id].serial
    requires SerialsOk(entries, next) && HandlesOk(entries, listings) && UsersOk(entries, listings)
    ensures var after := entries[id := e];
            && |after| == |entries| && SerialsOk(after, next) && HandlesOk(after, listings)
            && (e.users == entries[id].users ==> UsersOk(after, listings))
  {
    assert entries[id := e].Keys == entries.Keys;
  }

  lemma NewHolder(listings: map<nat, Listing>, c: nat, l: Listing, id: Id)
    requires c !in listings
    ensures Holders(listings[c := l], id) == Holders(listings, id) + (if l.handle.id == id then {c} else {})
  {
  }

  lemma LostHolder(listings: map<nat, Listing>, c: nat, id: Id)
    requires c in listings
    ensures Holders(listings - {c}, id) == Holders(listings, id) - {c}
    ensures c in Holders(listings, id) <==> listings[c].handle.id == id
  {
  }

  lemma JoinUsers(entries: map<Id, Entry>, listings: map<nat, Listing>, id: Id, now: int, c: nat, l: Listing)
    requires HandlesOk(entries, listings) && UsersOk(entries, listings) && id in entries && c !in listings
    requires l.handle == Handle(id, entries[id].serial)
    ensures var after := entries[id := entries[id].(used := now, users := entries[id].users + 1)];
            HandlesOk(after, listings[c := l]) && UsersOk(after, listings[c := l])
  {
    var after := entries[id := entries[id].(used := now, users := entries[id].users + 1)];
    forall k | k in after
      ensures after[k].users == |Holders(listings[c := l], k)|
    {
      NewHolder(listings, c, l, k);
    }
  }

  lemma JoinKeepsBooks(s: System, c: nat, id: Id, e: Entry)
    requires Books(s.entries, s.listings, s.fetching, s.nextSerial) && c !in s.listings && id in s.entries
    requires e == s.entries[id].(used := s.now, users := s.entries[id].users + 1)
    ensures Books(s.entries[id := e], s.listings[c := Listing(Handle(id, e.serial), false)],
                  s.fetching, s.nextSerial + 1)
  {
    hide HandlesOk, UsersOk, FetchesOk, SerialsOk;
    InPlace(s.entries, id, e, s.listings, s.nextSerial);
    JoinUsers(s.entries, s.listings, id, s.now, c, Listing(Handle(id, e.serial), false));
    SameFetches(s.entries, s.fetching, id, e);
    SerialsGrow(s.entries[id := e], s.nextSerial);
  }

  lemma JoinKeepsInv(s: System, c: nat, id: Id, victim: Option<Id>)
    requires Inv(s) && s.scan.None? && c !in s.listings && id in s.entries
    ensures Inv(Opened(s, c, id, victim))
  {
    hide Books;
    JoinKeepsBooks(s, c, id, s.entries[id].(used := s.now, users := s.entries[id].users + 1));
  }

  lemma SerialsGrow(entries: map<Id, Entry>, next: nat)
    requires SerialsOk(entries, next)
    ensures SerialsOk(entries, next + 1)
  {
  }

  lemma SameFetches(entries: map<Id, Entry>, fetching: multiset<Handle>, id: Id, e: Entry)
    requires FetchesOk(entries, fetching) && id in entries
    requires e.serial == entries[id].serial && e.cache.refreshing == entries[id].cache.refreshing
    ensures FetchesOk(entries[id := e], fetching)
  {
  }

  /** Nobody holds an idle entry, and it is not fetching. */
  lemma RoomIsSound(entries: map<Id, Entry>, listings: map<nat, Listing>, fetching: multiset<Handle>, next: nat, v: Id)
    requires Books(entries, listings, fetching, next) && v in entries && Idle(entries[v])
    ensures Books(entries - {v}, listings, fetching, next) && |entries - {v}| < CAPACITY
  {
    var room := entries - {v};
    assert room.Keys == entries.Keys - {v} && |entries.Keys| == |entries| && |room.Keys| == |room|;
    assert Holders(listings, v) == {};
    forall c | c in listings
      ensures Current(room, listings[c].handle)
    {
      assert c !in Holders(listings, v);
    }
  }

  lemma InsertUsers(room: map<Id, Entry>, listings: map<nat, Listing>, id: Id, e: Entry, c: nat, l: Listing)
    requires HandlesOk(room, listings) && UsersOk(room, listings) && id !in room && c !in listings
    requires e.users == 1 && l.handle == Handle(id, e.serial)
    ensures HandlesOk(room[id := e], listings[c := l]) && UsersOk(room[id := e], listings[c := l])
  {
    assert Holders(listings, id) == {};
    var after := room[id := e];
    forall k | k in after
      ensures after[k].users == |Holders(listings[c := l], k)|
    {
      NewHolder(listings, c, l, k);
    }
  }

  lemma InsertFetches(room: map<Id, Entry>, fetching: multiset<Handle>, id: Id, e: Entry)
    requires FetchesOk(room, fetching) && id !in room && !e.cache.refreshing && SerialsOk(room, e.serial)
    ensures FetchesOk(room[id := e], fetching) && SerialsOk(room[id := e], e.serial + 1)
    ensures |room[id := e]| == |room| + 1
  {
    assert room[id := e].Keys == room.Keys + {id};
  }

  lemma InsertKeepsBooks(room: map<Id, Entry>, listings: map<nat, Listing>, fetching: multiset<Handle>, next: nat,
                         c: nat, id: Id, e: Entry)
    requires Books(room, listings, fetching, next) && |room| < CAPACITY && id !in room && c !in listings
    requires e.serial == next && e.users == 1 && !e.cache.refreshing
    ensures Books(room[id := e], listings[c := Listing(Handle(id, next), false)], fetching, next + 1)
  {
    hide HandlesOk, UsersOk, FetchesOk, SerialsOk;
    InsertUsers(room, listings, id, e, c, Listing(Handle(id, next), false));
    InsertFetches(room, fetching, id, e);
  }

  lemma InsertKeepsInv(s: System, c: nat, id: Id, victim: Option<Id>)
    requires Inv(s) && s.scan.None? && c !in s.listings && id !in s.entries
    requires if victim.Some? then victim.value in s.entries && Idle(s.entries[victim.value]) else |s.entries| < CAPACITY
    ensures Inv(Opened(s, c, id, victim))
  {
    hide Books;
    if victim.Some? {
      RoomIsSound(s.entries, s.listings, s.fetching, s.nextSerial, victim.value);
    }
    var room := if victim.Some? then s.entries - {victim.value} else s.entries;
    InsertKeepsBooks(room, s.listings, s.fetching, s.nextSerial, c, id, Entry(s.nextSerial, EMPTY, s.now, 1));
  }

  lemma OpenKeepsInv(s: System, c: nat, id: Id, victim: Option<Id>)
    requires Inv(s) && s.scan.None? && c !in s.listings
    requires if victim.Some? then id !in s.entries && victim.value in s.entries && Idle(s.entries[victim.value])
             else true
    ensures Inv(Opened(s, c, id, victim))
  {
    if id in s.entries {
      JoinKeepsInv(s, c, id, victim);
    } else if |s.entries| < CAPACITY || victim.Some? {
      InsertKeepsInv(s, c, id, victim);
    } else {
      assert Opened(s, c, id, victim) == s.(nextSerial := s.nextSerial + 1);
      SerialsGrow(s.entries, s.nextSerial);
    }
  }

  lemma ScanProceeds(before: map<Id, Entry>, after: map<Id, Entry>,
                     listings: map<nat, Listing>, listings': map<nat, Listing>, scan: Scan)
    requires ScanOk(before, listings, scan) && Proceeds(before, after) && listings'.Keys == listings.Keys
    ensures ScanOk(after, listings', scan)
  {
    assert |before.Keys| == |before| && |after.Keys| == |after|;
  }

  lemma ExamineKeepsScan(entries: map<Id, Entry>, listings: map<nat, Listing>, scan: Scan, k: Id)
    requires ScanOk(entries, listings, scan) && k in scan.todo
    ensures ScanOk(entries, listings, Examined(entries, scan, k))
  {
  }

  lemma BeginKeepsInv(s: System, c: nat, id: Id)
    requires Inv(s) && Enabled(s, BeginScan(c, id))
    ensures Inv(Step(s, BeginScan(c, id)))
  {
    hide Books;
  }

  lemma QueryFetches(entries: map<Id, Entry>, fetching: multiset<Handle>, h: Handle, cache: C.Cache<Models>)
    requires FetchesOk(entries, fetching) && Current(entries, h)
    requires entries[h.id].cache.refreshing ==> cache.refreshing
    ensures var grows := cache.refreshing && !entries[h.id].cache.refreshing;
            FetchesOk(entries[h.id := entries[h.id].(cache := cache)],
                      if grows then fetching + multiset{h} else fetching)
  {
    assert !entries[h.id].cache.refreshing ==> h !in fetching;
  }

  /** Marking a listing as queried changes nobody's handle. */
  lemma MarkUsers(entries: map<Id, Entry>, listings: map<nat, Listing>, c: nat)
    requires HandlesOk(entries, listings) && UsersOk(entries, listings) && c in listings
    ensures var after := listings[c := Listing(listings[c].handle, true)];
            HandlesOk(entries, after) && UsersOk(entries, after)
  {
    var after := listings[c := Listing(listings[c].handle, true)];
    forall id
      ensures Holders(after, id) == Holders(listings, id)
    {
    }
  }

  lemma HolderUses(entries: map<Id, Entry>, listings: map<nat, Listing>, c: nat)
    requires HandlesOk(entries, listings) && UsersOk(entries, listings) && c in listings
    ensures entries[listings[c].handle.id].users > 0
  {
    assert c in Holders(listings, listings[c].handle.id);
  }

  lemma ChangeProceeds(entries: map<Id, Entry>, id: Id, cache: C.Cache<Models>)
    requires id in entries && !Idle(entries[id])
    ensures Proceeds(entries, entries[id := entries[id].(cache := cache)])
  {
  }

  lemma QueryKeepsBooks(s: System, c: nat, h: Handle, e: Entry)
    requires Books(s.entries, s.listings, s.fetching, s.nextSerial) && c in s.listings && h == s.listings[c].handle
    requires Current(s.entries, h) && e == s.entries[h.id].(cache := e.cache)
    requires s.entries[h.id].cache.refreshing ==> e.cache.refreshing
    ensures Books(s.entries[h.id := e], s.listings[c := Listing(h, true)],
                  if e.cache.refreshing && !s.entries[h.id].cache.refreshing then s.fetching + multiset{h}
                  else s.fetching,
                  s.nextSerial)
    ensures Proceeds(s.entries, s.entries[h.id := e])
  {
    HolderUses(s.entries, s.listings, c);
    hide HandlesOk, UsersOk, FetchesOk, SerialsOk, Proceeds;
    InPlace(s.entries, h.id, e, s.listings, s.nextSerial);
    MarkUsers(s.entries[h.id := e], s.listings, c);
    QueryFetches(s.entries, s.fetching, h, e.cache);
    ChangeProceeds(s.entries, h.id, e.cache);
  }

  lemma QueryKeepsInv(s: System, c: nat)
    requires Inv(s) && c in s.listings
    ensures Inv(Queried(s, c)) && Proceeds(s.entries, Queried(s, c).entries)
  {
    var h := s.listings[c].handle;
    assert Current(s.entries, h);
    hide Books, Proceeds, ScanOk;
    var before := s.entries[h.id].cache;
    var e := s.entries[h.id].(cache := C.Enter(before, s.policy, s.now).0);
    assert before.refreshing ==> e.cache.refreshing;
    hide C.Enter;
    QueryKeepsBooks(s, c, h, e);
    if s.scan.Some? {
      ScanProceeds(s.entries, s.entries[h.id := e], s.listings, s.listings[c := Listing(h, true)], s.scan.value);
    }
  }

  lemma ReleaseUsers(entries: map<Id, Entry>, listings: map<nat, Listing>, c: nat)
    requires HandlesOk(entries, listings) && UsersOk(entries, listings) && c in listings
    ensures var id := listings[c].handle.id;
            && entries[id].users > 0
            && UsersOk(entries[id := entries[id].(users := entries[id].users - 1)], listings - {c})
            && HandlesOk(entries[id := entries[id].(users := entries[id].users - 1)], listings - {c})
  {
    var id := listings[c].handle.id;
    LostHolder(listings, c, id);
    var after := entries[id := entries[id].(users := entries[id].users - 1)];
    forall k | k in after
      ensures after[k].users == |Holders(listings - {c}, k)|
    {
      LostHolder(listings, c, k);
    }
  }

  lemma ReleaseKeepsBooks(s: System, c: nat, id: Id, e: Entry)
    requires Books(s.entries, s.listings, s.fetching, s.nextSerial) && c in s.listings && id == s.listings[c].handle.id
    requires id in s.entries && s.entries[id].users > 0 && e == s.entries[id].(users := s.entries[id].users - 1)
    ensures Books(s.entries[id := e], s.listings - {c}, s.fetching, s.nextSerial)
  {
    hide HandlesOk, UsersOk, FetchesOk, SerialsOk;
    ReleaseUsers(s.entries, s.listings, c);
    InPlace(s.entries, id, e, s.listings, s.nextSerial);
    SameFetches(s.entries, s.fetching, id, e);
  }

  lemma ReleaseKeepsInv(s: System, c: nat)
    requires Inv(s) && s.scan.None? && c in s.listings
    ensures Inv(Released(s, c))
  {
    var h := s.listings[c].handle;
    assert Current(s.entries, h);
    HolderUses(s.entries, s.listings, c);
    hide Books;
    ReleaseKeepsBooks(s, c, h.id, s.entries[h.id].(users := s.entries[h.id].users - 1));
  }

  lemma FetchDoneFetches(entries: map<Id, Entry>, fetching: multiset<Handle>, h: Handle, cache: C.Cache<Models>)
    requires FetchesOk(entries, fetching) && h in fetching && !cache.refreshing
    ensures FetchesOk(entries[h.id := entries[h.id].(cache := cache)], fetching - multiset{h})
  {
  }

  lemma FetchDoneKeepsBooks(s: System, h: Handle, e: Entry)
    requires Books(s.entries, s.listings, s.fetching, s.nextSerial) && h in s.fetching && Current(s.entries, h)
    requires e == s.entries[h.id].(cache := e.cache) && !e.cache.refreshing
    ensures Books(s.entries[h.id := e], s.listings, s.fetching - multiset{h}, s.nextSerial)
    ensures Proceeds(s.entries, s.entries[h.id := e])
  {
    FetchDoneFetches(s.entries, s.fetching, h, e.cache);
    ChangeProceeds(s.entries, h.id, e.cache);
    hide HandlesOk, UsersOk, FetchesOk, SerialsOk, Proceeds;
    InPlace(s.entries, h.id, e, s.listings, s.nextSerial);
  }

  lemma FetchDoneKeepsInv(s: System, h: Handle, r: C.Result<Models>)
    requires Inv(s) && h in s.fetching
    ensures Inv(Fetched(s, h, r)) && Proceeds(s.entries, Fetched(s, h, r).entries)
  {
    assert Current(s.entries, h);
    hide Books, Proceeds, ScanOk;
    var e := s.entries[h.id].(cache := C.Complete(s.entries[h.id].cache, s.policy, s.now, r));
    assert !e.cache.refreshing;
    hide C.Complete;
    FetchDoneKeepsBooks(s, h, e);
    if s.scan.Some? {
      ScanProceeds(s.entries, s.entries[h.id := e], s.listings, s.listings, s.scan.value);
    }
  }

  lemma ScanStepKeepsInv(s: System, a: Action)
    requires Inv(s) && Enabled(s, a) && (a.Examine? || a.EndScan?)
    ensures Inv(Step(s, a))
  {
    var scan := s.scan.value;
    if a.Examine? {
      ExamineKeepsScan(s.entries, s.listings, scan, a.candidate);
      hide ScanOk, Examined, Books;
    } else {
      OpenKeepsInv(s.(scan := None), scan.caller, scan.id, scan.best);
      hide Opened;
    }
  }

  lemma StepKeepsInv(s: System, a: Action)
    requires Inv(s) && Enabled(s, a)
    ensures Inv(Step(s, a))
  {
    hide Opened, Queried, Released, Fetched, Examined, Inv;
    match a {
      case Tick(_) => TickKeepsInv(s, a);
      case OpenEntry(c, id) => OpenKeepsInv(s, c, id, None);
      case BeginScan(c, id) => BeginKeepsInv(s, c, id);
      case Query(c) => QueryKeepsInv(s, c);
      case Release(c) => ReleaseKeepsInv(s, c);
      case FetchDone(h, r) => FetchDoneKeepsInv(s, h, r);
      case _ => ScanStepKeepsInv(s, a);
    }
  }

  lemma TickKeepsInv(s: System, a: Action)
    requires Inv(s) && a.Tick?
    ensures Inv(Step(s, a))
  {
    hide ScanOk, Books;
  }

  lemma {:induction false} RunKeepsInv(s: System, acts: seq<Action>)
    requires Inv(s) && Legal(s, acts)
    ensures Inv(Run(s, acts))
  {
    if acts != [] {
      RunKeepsInv(s, acts[..|acts| - 1]);
      StepKeepsInv(Run(s, acts[..|acts| - 1]), acts[|acts| - 1]);
    }
  }

  // ---------------------------------------------------------------- theorems

  /**
   * At every reachable state the catalog is within its capacity, every listing holds an
   * entry still in it, and every running fetch belongs to such an entry; so no
   * credential ever has two fetches in flight.
   */
  lemma CatalogIsSound(policy: C.Policy, now: int, acts: seq<Action>)
    requires Legal(Start(policy, now), acts)
    ensures var s := Run(Start(policy, now), acts);
            && |s.entries| <= 128
            && (forall c :: c in s.listings ==> Current(s.entries, s.listings[c].handle))
            && (forall h :: h in s.fetching ==> Current(s.entries, h) && s.fetching[h] == 1)
            && (forall g, h :: g in s.fetching && h in s.fetching && g.id == h.id ==> g == h)
  {
    RunKeepsInv(Start(policy, now), acts);
  }

  /** No step of the run ends the search. */
  predicate Scanning(acts: seq<Action>) {
    forall i :: 0 <= i < |acts| ==> !acts[i].EndScan?
  }

  lemma {:induction false} SearchGoesOn(s: System, acts: seq<Action>)
    requires Inv(s) && s.scan.Some? && Legal(s, acts) && Scanning(acts)
    ensures var t := Run(s, acts);
            && Inv(t) && t.scan.Some? && t.scan.value.idle == s.scan.value.idle
            && t.scan.value.caller == s.scan.value.caller && t.scan.value.id == s.scan.value.id
            && Proceeds(s.entries, t.entries)
  {
    if acts != [] {
      var pre, a := acts[..|acts| - 1], acts[|acts| - 1];
      SearchGoesOn(s, pre);
      SearchStep(Run(s, pre), a);
      StepKeepsInv(Run(s, pre), a);
      ProceedsFurther(s.entries, Run(s, pre).entries, Run(s, acts).entries);
      hide Inv, Step, Proceeds, Enabled;
    }
  }

  lemma SearchStep(s: System, a: Action)
    requires Inv(s) && s.scan.Some? && Enabled(s, a) && !a.EndScan?
    ensures var t := Step(s, a);
            && t.scan.Some? && t.scan.value.idle == s.scan.value.idle
            && t.scan.value.caller == s.scan.value.caller && t.scan.value.id == s.scan.value.id
            && Proceeds(s.entries, t.entries)
  {
    if a.Query? {
      QueryKeepsInv(s, a.caller);
    } else if a.FetchDone? {
      FetchDoneKeepsInv(s, a.handle, a.fetched);
    }
    hide Inv, C.Enter, C.Complete;
  }

  lemma ProceedsFurther(a: map<Id, Entry>, b: map<Id, Entry>, c: map<Id, Entry>)
    requires Proceeds(a, b) && Proceeds(b, c)
    ensures Proceeds(a, c)
  {
  }

  /** What the search decides, from when it began in s to when it ends in t. */
  lemma SearchDecides(s: System, t: System)
    requires Inv(t) && t.scan.Some? && t.scan.value.todo == {} && t.scan.value.idle == IdleEntries(s.entries)
    requires Proceeds(s.entries, t.entries)
    ensures MayEvict(s.entries, t.entries, t.scan.value.best)
    ensures var best := t.scan.value.best;
            best.Some? ==>
              && Holders(t.listings, best.value) == {}
              && Handle(best.value, t.entries[best.value].serial) !in t.fetching
  {
    hide HandlesOk, SerialsOk;
  }

  /** A listing's search began in the reachable state s, and in t every candidate has been looked at. */
  ghost predicate Search(policy: C.Policy, now: int, before: seq<Action>, c: nat, id: Id, during: seq<Action>,
                         s: System, t: System) {
    && Legal(Start(policy, now), before) && s == Run(Start(policy, now), before) && Enabled(s, BeginScan(c, id))
    && Legal(Step(s, BeginScan(c, id)), during) && Scanning(during) && t == Run(Step(s, BeginScan(c, id)), during)
    && Enabled(t, EndScan)
  }

  lemma SearchOutcome(policy: C.Policy, now: int, before: seq<Action>, c: nat, id: Id, during: seq<Action>,
                      s: System, t: System)
    requires Search(policy, now, before, c, id, during, s, t)
    ensures Inv(s) && Inv(t) && |s.entries| >= CAPACITY && Proceeds(s.entries, t.entries)
    ensures t.scan.Some? && t.scan.value.todo == {} && t.scan.value.caller == c && t.scan.value.id == id
    ensures t.scan.value.idle == IdleEntries(s.entries)
  {
    StartOk(policy, now);
    hide Run, Legal, Inv, Proceeds, Start, Scanning, IdleEntries, Opened, Queried, Released, Fetched;
    RunKeepsInv(Start(policy, now), before);
    BeginKeepsInv(s, c, id);
    SearchGoesOn(Step(s, BeginScan(c, id)), during);
  }

  lemma StartOk(policy: C.Policy, now: int)
    ensures Inv(Start(policy, now))
  {
  }

  /**
   * In every run, whatever fetches finish or start while a listing searches: the entry it
   * evicts is held by no listing and not fetching, every entry that was idle when the
   * search began still is, and none of them is older than the one evicted.
   */
  lemma EvictionSparesPinned(policy: C.Policy, now: int, before: seq<Action>, c: nat, id: Id, during: seq<Action>,
                             s: System, t: System, v: Id)
    requires Search(policy, now, before, c, id, during, s, t)
    requires v in t.entries && v !in Step(t, EndScan).entries
    ensures Idle(t.entries[v]) && Holders(t.listings, v) == {} && Handle(v, t.entries[v].serial) !in t.fetching
    ensures forall k :: k in s.entries && Idle(s.entries[k]) ==>
              k in t.entries && t.entries[k] == s.entries[k] && t.entries[v].used <= t.entries[k].used
  {
    SearchOutcome(policy, now, before, c, id, during, s, t);
    hide Search;
    SearchDecides(s, t);
    NothingElseEvicts(t, EndScan, v);
    hide Inv, Holders, Step, IdleEntries;
  }

  /** Only the end of a search evicts, and only what it found. */
  lemma NothingElseEvicts(s: System, a: Action, v: Id)
    requires v in s.entries && v !in Step(s, a).entries
    ensures a.EndScan? && s.scan.Some? && s.scan.value.best == Some(v)
  {
    hide C.Enter, C.Complete, Examined;
  }

  /** The evicted entry is the least recently used of those idle at that moment unless an older one was freed. */
  lemma LeastRecentUnlessFreed(policy: C.Policy, now: int, before: seq<Action>, c: nat, id: Id, during: seq<Action>,
                               s: System, t: System, v: Id)
    requires Search(policy, now, before, c, id, during, s, t)
    requires v in t.entries && v !in Step(t, EndScan).entries
    ensures forall k :: k in t.entries && Idle(t.entries[k]) && t.entries[k].used < t.entries[v].used ==>
              k in s.entries && !Idle(s.entries[k])
    ensures Idle(t.entries[v])
  {
    EvictionSparesPinned(policy, now, before, c, id, during, s, t, v);
    SearchOutcome(policy, now, before, c, id, during, s, t);
    hide Search, Inv, Holders, Step, IdleEntries;
  }

  /** In every run, a listing is turned away only if all 128 entries were in use or fetching when its search began. */
  lemma TurnedAwayOnlyWhenPinned(policy: C.Policy, now: int, before: seq<Action>, c: nat, id: Id, during: seq<Action>,
                                 s: System, t: System)
    requires Search(policy, now, before, c, id, during, s, t)
    requires c !in Step(t, EndScan).listings
    ensures |s.entries| == 128 && forall k :: k in s.entries ==> !Idle(s.entries[k])
  {
    SearchOutcome(policy, now, before, c, id, during, s, t);
    hide Search;
    SearchDecides(s, t);
    FoundIsServed(t);
    assert |s.entries| <= CAPACITY;
    hide Inv, Step, Proceeds, IdleEntries, Holders;
  }

  /** A search ends with its listing served exactly if it found a victim. */
  lemma FoundIsServed(t: System)
    requires Inv(t) && Enabled(t, EndScan)
    ensures t.scan.value.best.Some? <==> t.scan.value.caller in Step(t, EndScan).listings
  {
    hide Books;
  }

  /** Some candidate was idle when it was looked at. */
  predicate FoundIdle(s: System, acts: seq<Action>) {
    acts != []
    && (FoundIdle(s, acts[..|acts| - 1])
        || (acts[|acts| - 1].Examine? && var t, k := Run(s, acts[..|acts| - 1]), acts[|acts| - 1].candidate;
                                         k in t.entries && Idle(t.entries[k])))
  }

  lemma BestChanges(s: System, a: Action)
    requires Inv(s) && s.scan.Some? && Enabled(s, a) && !a.EndScan?
    ensures Step(s, a).scan.Some?
    ensures Step(s, a).scan.value.best.Some? <==>
              s.scan.value.best.Some? || (a.Examine? && a.candidate in s.entries && Idle(s.entries[a.candidate]))
  {
    hide Books, C.Enter, C.Complete;
  }

  lemma {:induction false} FindsExactly(s: System, acts: seq<Action>)
    requires Inv(s) && s.scan.Some? && s.scan.value.best.None? && Legal(s, acts) && Scanning(acts)
    ensures Run(s, acts).scan.Some? && (Run(s, acts).scan.value.best.Some? <==> FoundIdle(s, acts))
  {
    if acts != [] {
      var pre, a := acts[..|acts| - 1], acts[|acts| - 1];
      FindsExactly(s, pre);
      SearchGoesOn(s, pre);
      hide Inv, Step, Enabled, Proceeds;
      BestChanges(Run(s, pre), a);
    }
  }

  /** A listing is turned away exactly if every candidate was in use or fetching when its search looked at it. */
  lemma TurnedAwayExactly(policy: C.Policy, now: int, before: seq<Action>, c: nat, id: Id, during: seq<Action>,
                          s: System, t: System)
    requires Search(policy, now, before, c, id, during, s, t)
    ensures c !in Step(t, EndScan).listings <==> !FoundIdle(Step(s, BeginScan(c, id)), during)
  {
    SearchOutcome(policy, now, before, c, id, during, s, t);
    BeginKeepsInv(s, c, id);
    NothingFoundYet(s, c, id);
    FindsExactly(Step(s, BeginScan(c, id)), during);
    hide Inv, Step, FoundIdle, Run, Legal, Proceeds, IdleEntries;
    FoundIsServed(t);
  }

  lemma NothingFoundYet(s: System, c: nat, id: Id)
    ensures Step(s, BeginScan(c, id)).scan.Some? && Step(s, BeginScan(c, id)).scan.value.best.None?
  {
  }

  lemma FetchedEntry(s: System, id: Id, r: C.Result<Models>)
    requires id in s.entries
    ensures var t := Step(s, FetchDone(Handle(id, s.entries[id].serial), r));
            && t.scan == s.scan
            && t.entries
               == s.entries[id := s.entries[id].(cache := C.Complete(s.entries[id].cache, s.policy, s.now, r))]
  {
    hide C.Complete;
  }

  lemma FreedByFetch(s: System, id: Id, r: C.Result<Models>)
    requires Inv(s) && id in s.entries && s.entries[id].users == 0 && s.entries[id].cache.refreshing
    ensures var h := Handle(id, s.entries[id].serial);
            && Enabled(s, FetchDone(h, r))
            && var t := Step(s, FetchDone(h, r));
               && Inv(t) && t.scan == s.scan && t.entries.Keys == s.entries.Keys
               && Idle(t.entries[id]) && t.entries[id].used == s.entries[id].used
               && forall k :: k in s.entries && k != id ==> t.entries[k] == s.entries[k]
  {
    assert Handle(id, s.entries[id].serial) in s.fetching;
    hide Inv, Step;
    StepKeepsInv(s, FetchDone(Handle(id, s.entries[id].serial), r));
    FetchedEntry(s, id, r);
  }

  lemma LastCandidateWins(s: System, k: Id)
    requires Inv(s) && s.scan.Some? && s.scan.value.todo == {k} && s.scan.value.best.None?
    requires k in s.entries && Idle(s.entries[k])
    ensures Enabled(s, Examine(k))
    ensures var t := Step(s, Examine(k));
            Enabled(t, EndScan) && t.entries == s.entries && k !in Step(t, EndScan).entries
  {
    hide Books;
  }

  /** The search is at its last candidate, both entries are unused and fetching, and nothing was found. */
  ghost predicate MissesOlder(s: System, older: Id, younger: Id) {
    && s.scan.Some? && s.scan.value.todo == {younger} && s.scan.value.best.None?
    && older in s.entries && younger in s.entries && s.entries[older].used < s.entries[younger].used
    && s.entries[older].users == 0 && s.entries[older].cache.refreshing
    && s.entries[younger].users == 0 && s.entries[younger].cache.refreshing
  }

  /**
   * With one candidate left to look at, if it and an older one already looked at both
   * finish fetching first, the younger of the two is evicted.
   */
  lemma OlderEntryCanBeMissed(s: System, older: Id, younger: Id, r: C.Result<Models>)
    requires Inv(s) && MissesOlder(s, older, younger)
    ensures var a := FetchDone(Handle(older, s.entries[older].serial), r);
            var b := FetchDone(Handle(younger, s.entries[younger].serial), r);
            Enabled(s, a) && Enabled(Step(s, a), b) && Enabled(Step(Step(s, a), b), Examine(younger))
            && var t := Step(Step(Step(s, a), b), Examine(younger));
               && Enabled(t, EndScan) && younger in t.entries && younger !in Step(t, EndScan).entries
               && older in t.entries && Idle(t.entries[older]) && t.entries[older].used < t.entries[younger].used
  {
    hide Step, Enabled, Inv;
    var a := FetchDone(Handle(older, s.entries[older].serial), r);
    var b := FetchDone(Handle(younger, s.entries[younger].serial), r);
    FreedByFetch(s, older, r);
    FreedByFetch(Step(s, a), younger, r);
    LastCandidateWins(Step(Step(s, a), b), younger);
  }

  // ---------------------------------------------------------------- when the least recently used entry is evicted

  /** Nobody holds the entry, and it will be idle once its fetch is done. */
  predicate Waits(e: Entry) {
    e.users == 0 && e.cache.refreshing
  }

  /** Every unused entry that is still fetching and older than another unused one has an idle entry as old as itself. */
  ghost predicate Safe(entries: map<Id, Entry>) {
    forall k, j :: OlderWaits(entries, k, j) ==>
                     exists i :: i in entries && Idle(entries[i]) && entries[i].used <= entries[k].used
  }

  predicate OlderWaits(entries: map<Id, Entry>, k: Id, j: Id) {
    && k in entries && j in entries && Waits(entries[k]) && entries[j].users == 0 && entries[k].used < entries[j].used
  }

  lemma SafeEvictsOldest(policy: C.Policy, now: int, before: seq<Action>, c: nat, id: Id, during: seq<Action>,
                         s: System, t: System, v: Id)
    requires Search(policy, now, before, c, id, during, s, t) && Safe(s.entries)
    requires v in t.entries && v !in Step(t, EndScan).entries
    ensures IsVictim(t.entries, v)
  {
    LeastRecentUnlessFreed(policy, now, before, c, id, during, s, t, v);
    EvictionSparesPinned(policy, now, before, c, id, during, s, t, v);
    SearchOutcome(policy, now, before, c, id, during, s, t);
    hide Search, Inv, Holders, Step, IdleEntries;
    forall k | k in t.entries && Idle(t.entries[k])
      ensures t.entries[v].used <= t.entries[k].used
    {
      assert t.entries[k].used < t.entries[v].used ==> OlderWaits(s.entries, k, v);
    }
  }

  lemma OneMore(s: System, acts: seq<Action>, a: Action)
    requires Legal(s, acts) && Enabled(Run(s, acts), a)
    ensures Legal(s, acts + [a]) && Run(s, acts + [a]) == Step(Run(s, acts), a)
  {
    assert (acts + [a])[..|acts|] == acts;
    hide Step, Enabled;
  }

  /** The search has looked at k, which has been freed since; every other idle entry, j among them, is younger. */
  ghost predicate PassedOver(s: System, k: Id, j: Id) {
    && s.scan.Some? && k in s.entries && j in s.entries && j != k && Idle(s.entries[k]) && Idle(s.entries[j])
    && s.scan.value.id !in s.entries && |s.entries| >= CAPACITY
    && (forall i :: i in s.entries && Idle(s.entries[i]) && i != k ==> s.entries[k].used < s.entries[i].used)
    && k !in s.scan.value.todo && s.scan.value.todo <= s.entries.Keys
    && (s.scan.value.best.Some? ==>
          var v := s.scan.value.best.value; v != k && v in s.entries && Idle(s.entries[v]))
    && (j !in s.scan.value.todo ==> s.scan.value.best.Some?)
  }

  lemma PassFurther(s: System, k: Id, j: Id, i: Id)
    requires PassedOver(s, k, j) && i in s.scan.value.todo
    ensures Enabled(s, Examine(i)) && PassedOver(Step(s, Examine(i)), k, j)
    ensures Step(s, Examine(i)).scan.value.todo == s.scan.value.todo - {i}
  {
  }

  /** At its end such a search evicts an entry younger than k. */
  lemma PassedOverEvicts(s: System, k: Id, j: Id) returns (v: Id)
    requires PassedOver(s, k, j) && s.scan.value.todo == {}
    ensures Enabled(s, EndScan) && v in s.entries && v !in Step(s, EndScan).entries && !IsVictim(s.entries, v)
  {
    v := s.scan.value.best.value;
    assert s.entries[k].used < s.entries[v].used;
  }

  /** Looking at the waiting entry finds nothing. */
  lemma LookTooEarly(s: System, c: nat, id: Id, k: Id)
    requires Inv(s) && Enabled(s, BeginScan(c, id)) && k in s.entries && Waits(s.entries[k])
    ensures var u := Step(s, BeginScan(c, id));
            && Inv(u) && Enabled(u, Examine(k)) && Inv(Step(u, Examine(k)))
            && var x := Step(u, Examine(k));
               && x.entries == s.entries && x.scan.Some? && x.scan.value.best.None? && x.scan.value.id == id
               && x.scan.value.todo == s.entries.Keys - {k}
  {
    BeginKeepsInv(s, c, id);
    ScanStepKeepsInv(Step(s, BeginScan(c, id)), Examine(k));
    hide Books;
  }

  /** In x the search of s has looked at k only and found nothing; since then only fetches of freed entries finished. */
  ghost predicate Freed(s: System, x: System, id: Id, k: Id, freed: set<Id>) {
    && x.scan.Some? && x.scan.value.best.None? && x.scan.value.id == id && x.scan.value.todo == s.entries.Keys - {k}
    && x.entries.Keys == s.entries.Keys && freed <= s.entries.Keys
    && (forall i :: i in freed ==> Idle(x.entries[i]) && x.entries[i].used == s.entries[i].used)
    && (forall i :: i in s.entries && i !in freed ==> x.entries[i] == s.entries[i])
  }

  lemma FreedFurther(s: System, x: System, y: System, id: Id, k: Id, freed: set<Id>, i: Id)
    requires Freed(s, x, id, k, freed) && i in s.entries && i !in freed
    requires y.scan == x.scan && y.entries.Keys == x.entries.Keys
    requires Idle(y.entries[i]) && y.entries[i].used == x.entries[i].used
    requires forall n :: n in x.entries && n != i ==> y.entries[n] == x.entries[n]
    ensures Freed(s, y, id, k, freed + {i})
  {
  }

  lemma FreeOne(s: System, x: System, id: Id, k: Id, freed: set<Id>, i: Id, r: C.Result<Models>)
    requires Inv(x) && Freed(s, x, id, k, freed) && i in s.entries && i !in freed && Waits(s.entries[i])
    ensures i in x.entries
    ensures var a := FetchDone(Handle(i, x.entries[i].serial), r);
            Enabled(x, a) && Inv(Step(x, a)) && Freed(s, Step(x, a), id, k, freed + {i})
  {
    assert i in x.entries && x.entries[i] == s.entries[i];
    hide Step, Enabled, Inv, Freed;
    FreedByFetch(x, i, r);
    FreedFurther(s, x, Step(x, FetchDone(Handle(i, x.entries[i].serial), r)), id, k, freed, i);
  }

  lemma FreedIsPassedOver(s: System, x: System, id: Id, k: Id, j: Id, freed: set<Id>)
    requires Freed(s, x, id, k, freed) && id !in s.entries && |s.entries| >= CAPACITY && OlderWaits(s.entries, k, j)
    requires forall i :: i in s.entries && Idle(s.entries[i]) ==> s.entries[k].used < s.entries[i].used
    requires k in freed && freed <= {k, j} && (j in freed || Idle(s.entries[j]))
    ensures PassedOver(x, k, j)
  {
    SameSize(s.entries, x.entries);
  }

  /** The search of s, begun in u, went through acts to a state that Freed describes. */
  ghost predicate FreedBy(s: System, u: System, acts: seq<Action>, id: Id, k: Id, freed: set<Id>) {
    Legal(u, acts) && Scanning(acts) && Inv(Run(u, acts)) && Freed(s, Run(u, acts), id, k, freed)
  }

  lemma FreedByNone(s: System, c: nat, id: Id, k: Id)
    requires Inv(s) && Enabled(s, BeginScan(c, id)) && k in s.entries && Waits(s.entries[k])
    ensures FreedBy(s, Step(s, BeginScan(c, id)), [] + [Examine(k)], id, k, {})
  {
    var u := Step(s, BeginScan(c, id));
    LookTooEarly(s, c, id, k);
    NoSteps(u);
    NothingFreed(s, Step(u, Examine(k)), id, k);
    hide Step, Enabled, Inv, Legal, Run, Freed;
    OneMore(u, [], Examine(k));
  }

  lemma FreedByMore(s: System, u: System, acts: seq<Action>, id: Id, k: Id, freed: set<Id>, i: Id)
    returns (more: seq<Action>)
    requires FreedBy(s, u, acts, id, k, freed) && i in s.entries && i !in freed && Waits(s.entries[i])
    ensures FreedBy(s, u, more, id, k, freed + {i})
  {
    hide Step, Enabled, Inv, Legal, Run, Freed, Waits;
    var r := C.Result([], None);
    FreeOne(s, Run(u, acts), id, k, freed, i, r);
    var free := FetchDone(Handle(i, Run(u, acts).entries[i].serial), r);
    OneMore(u, acts, free);
    more := acts + [free];
  }

  lemma FreedIsLegal(s: System, u: System, acts: seq<Action>, id: Id, k: Id, j: Id, freed: set<Id>)
    requires FreedBy(s, u, acts, id, k, freed) && id !in s.entries && |s.entries| >= CAPACITY
    requires OlderWaits(s.entries, k, j) && k in freed && freed <= {k, j} && (j in freed || Idle(s.entries[j]))
    requires forall i :: i in s.entries && Idle(s.entries[i]) ==> s.entries[k].used < s.entries[i].used
    ensures Legal(u, acts) && Scanning(acts) && PassedOver(Run(u, acts), k, j)
  {
    hide Inv, Legal, Run, Scanning, Freed, PassedOver;
    FreedIsPassedOver(s, Run(u, acts), id, k, j, freed);
  }

  lemma SearchIsNeeded(s: System, c: nat, id: Id)
    requires Enabled(s, BeginScan(c, id))
    ensures id !in s.entries && |s.entries| >= CAPACITY
  {
  }

  /** Looking at k too early, then freeing it and j, if j waits as well. */
  lemma PassOver(s: System, c: nat, id: Id, k: Id, j: Id) returns (acts: seq<Action>)
    requires Inv(s) && Enabled(s, BeginScan(c, id)) && OlderWaits(s.entries, k, j)
    requires forall i :: i in s.entries && Idle(s.entries[i]) ==> s.entries[k].used < s.entries[i].used
    ensures var u := Step(s, BeginScan(c, id));
            Legal(u, acts) && Scanning(acts) && PassedOver(Run(u, acts), k, j)
  {
    var u := Step(s, BeginScan(c, id));
    hide Step, Enabled, Inv, Legal, Run, Freed, FreedBy, PassedOver, Scanning;
    SearchIsNeeded(s, c, id);
    FreedByNone(s, c, id, k);
    acts := FreedByMore(s, u, [] + [Examine(k)], id, k, {}, k);
    var freed := {} + {k};
    if !Idle(s.entries[j]) {
      acts := FreedByMore(s, u, acts, id, k, freed, j);
      freed := freed + {j};
    }
    FreedIsLegal(s, u, acts, id, k, j, freed);
  }

  lemma NothingFreed(s: System, x: System, id: Id, k: Id)
    requires x.entries == s.entries && x.scan.Some? && x.scan.value.best.None? && x.scan.value.id == id
    requires x.scan.value.todo == s.entries.Keys - {k}
    ensures Freed(s, x, id, k, {})
  {
  }

  lemma SameSize(a: map<Id, Entry>, b: map<Id, Entry>)
    requires a.Keys == b.Keys
    ensures |a| == |b|
  {
    assert |a.Keys| == |a| && |b.Keys| == |b|;
  }

  lemma NoSteps(s: System)
    ensures Legal(s, []) && Run(s, []) == s
  {
  }

  /** The rest of the search looks at the remaining candidates. */
  lemma {:induction false} FinishSearch(u: System, acts: seq<Action>, k: Id, j: Id) returns (more: seq<Action>)
    requires Legal(u, acts) && Scanning(acts) && PassedOver(Run(u, acts), k, j)
    ensures Legal(u, more) && Scanning(more) && PassedOver(Run(u, more), k, j) && Run(u, more).scan.value.todo == {}
    decreases |Run(u, acts).scan.value.todo|
  {
    var todo := Run(u, acts).scan.value.todo;
    if todo == {} {
      more := acts;
    } else {
      var i :| i in todo;
      PassFurther(Run(u, acts), k, j, i);
      OneMore(u, acts, Examine(i));
      hide PassedOver, Legal, Run, Step, Enabled;
      more := FinishSearch(u, acts + [Examine(i)], k, j);
    }
  }

  /** From an unsafe state, some search evicts an entry that is not the least recently used idle one. */
  lemma UnsafeCanMiss(policy: C.Policy, now: int, before: seq<Action>, c: nat, id: Id, s: System)
    returns (during: seq<Action>, t: System, v: Id)
    requires Legal(Start(policy, now), before) && s == Run(Start(policy, now), before)
    requires Enabled(s, BeginScan(c, id)) && !Safe(s.entries)
    ensures Search(policy, now, before, c, id, during, s, t)
    ensures v in t.entries && v !in Step(t, EndScan).entries && !IsVictim(t.entries, v)
  {
    StartOk(policy, now);
    RunKeepsInv(Start(policy, now), before);
    var k, j :| OlderWaits(s.entries, k, j)
                && !exists i :: i in s.entries && Idle(s.entries[i]) && s.entries[i].used <= s.entries[k].used;
    hide Step, Enabled, Inv, Legal, Run, PassedOver, OlderWaits, Scanning, Start, Idle, IsVictim;
    during := PassOver(s, c, id, k, j);
    during := FinishSearch(Step(s, BeginScan(c, id)), during, k, j);
    t := Run(Step(s, BeginScan(c, id)), during);
    v := PassedOverEvicts(t, k, j);
  }

  /** Ending the search in t evicts v. */
  predicate Evicts(t: System, v: Id) {
    v in t.entries && v !in Step(t, EndScan).entries
  }

  /** Whatever happens during a search that begins in s, it evicts the least recently used entry idle at its end. */
  ghost predicate EvictsOldest(policy: C.Policy, now: int, before: seq<Action>, c: nat, id: Id, s: System) {
    forall during, t, v :: Search(policy, now, before, c, id, during, s, t) && Evicts(t, v) ==> IsVictim(t.entries, v)
  }

  /**
   * Whether a search is sure to evict the least recently used entry idle at its end can be
   * told from the entries it begins with: exactly if no unused entry still fetching is
   * older than every idle entry and than some other unused one.
   */
  lemma LeastRecentExactly(policy: C.Policy, now: int, before: seq<Action>, c: nat, id: Id, s: System)
    requires Legal(Start(policy, now), before) && s == Run(Start(policy, now), before) && Enabled(s, BeginScan(c, id))
    ensures EvictsOldest(policy, now, before, c, id, s) <==> Safe(s.entries)
  {
    if Safe(s.entries) {
      forall during, t, v | Search(policy, now, before, c, id, during, s, t) && Evicts(t, v)
        ensures IsVictim(t.entries, v)
      {
        SafeEvictsOldest(policy, now, before, c, id, during, s, t, v);
      }
    } else {
      var during, t, v := UnsafeCanMiss(policy, now, before, c, id, s);
      assert Evicts(t, v);
      hide Search, Step, IsVictim, Safe, Evicts;
    }
  }

  // ---------------------------------------------------------------- a run that misses the older entry

  ghost predicate FilledMaps(entries: map<Id, Entry>, listings: map<nat, Listing>, now: int, n: nat) {
    && (forall k :: k in entries <==> 0 <= k < n) && (forall k :: k in listings <==> 0 <= k < n)
    && (forall k :: k in entries ==> entries[k] == Entry(k, EMPTY, now + k + 1, 1))
    && (forall k :: k in listings ==> listings[k] == Listing(Handle(k, k), false))
  }

  /** Credentials 0 to n-1 were opened by as many listings, one after the other. */
  ghost predicate Filled(s: System, now: int, n: nat) {
    s.scan.None? && s.now == now + n && s.nextSerial == n && |s.entries| == n
    && FilledMaps(s.entries, s.listings, now, n)
  }

  lemma FillMaps(entries: map<Id, Entry>, listings: map<nat, Listing>, now: int, n: nat)
    requires FilledMaps(entries, listings, now, n)
    ensures FilledMaps(entries[n := Entry(n, EMPTY, now + n + 1, 1)],
                       listings[n := Listing(Handle(n, n), false)], now, n + 1)
    ensures n !in entries && n !in listings
  {
  }

  lemma OneLarger(entries: map<Id, Entry>, id: Id, e: Entry)
    requires id !in entries
    ensures |entries[id := e]| == |entries| + 1
  {
    assert entries[id := e].Keys == entries.Keys + {id};
  }

  lemma OpenAfterTick(s: System, n: nat)
    requires s.scan.None? && n !in s.entries && n !in s.listings && |s.entries| < CAPACITY && s.nextSerial == n
    ensures Enabled(s, Tick(1)) && Enabled(Step(s, Tick(1)), OpenEntry(n, n))
    ensures var t := Step(Step(s, Tick(1)), OpenEntry(n, n));
            && t.scan.None? && t.now == s.now + 1 && t.nextSerial == n + 1
            && t.entries == s.entries[n := Entry(n, EMPTY, s.now + 1, 1)]
            && t.listings == s.listings[n := Listing(Handle(n, n), false)]
  {
  }

  lemma FillStep(s: System, now: int, n: nat)
    requires Filled(s, now, n) && n < CAPACITY
    ensures Enabled(s, Tick(1)) && Enabled(Step(s, Tick(1)), OpenEntry(n, n))
    ensures Filled(Step(Step(s, Tick(1)), OpenEntry(n, n)), now, n + 1)
  {
    FillMaps(s.entries, s.listings, now, n);
    OneLarger(s.entries, n, Entry(n, EMPTY, now + n + 1, 1));
    hide FilledMaps, Step, Enabled;
    OpenAfterTick(s, n);
  }

  lemma NothingFilled(policy: C.Policy, now: int)
    ensures Legal(Start(policy, now), []) && Filled(Run(Start(policy, now), []), now, 0)
  {
  }

  lemma {:induction false} Fill(policy: C.Policy, now: int, n: nat) returns (acts: seq<Action>)
    requires n <= CAPACITY
    ensures Legal(Start(policy, now), acts) && Filled(Run(Start(policy, now), acts), now, n)
  {
    hide *;
    if n == 0 {
      acts := [];
      NothingFilled(policy, now);
    } else {
      acts := Fill(policy, now, n - 1);
      FillStep(Run(Start(policy, now), acts), now, n - 1);
      OneMore(Start(policy, now), acts, Tick(1));
      OneMore(Start(policy, now), acts + [Tick(1)], OpenEntry(n - 1, n - 1));
      acts := acts + [Tick(1)] + [OpenEntry(n - 1, n - 1)];
    }
  }

  ghost predicate AskedMaps(entries: map<Id, Entry>, listings: map<nat, Listing>, now: int, m: nat) {
    && |entries| == CAPACITY && (forall k :: k in entries <==> 0 <= k < CAPACITY)
    && (forall k :: k in listings <==> m <= k < CAPACITY)
    && (forall k :: k in entries ==> entries[k].serial == k && entries[k].used == now + k + 1)
    && (forall k :: k in entries && k < m ==> entries[k].users == 0 && entries[k].cache.refreshing)
    && (forall k :: k in entries && k >= m ==> entries[k].users == 1 && entries[k].cache == EMPTY)
    && (forall k :: k in listings ==> listings[k] == Listing(Handle(k, k), false))
  }

  /** The first m listings have asked their caches and gone. */
  ghost predicate Asked(s: System, now: int, m: nat) {
    s.scan.None? && AskedMaps(s.entries, s.listings, now, m)
  }

  lemma AskMaps(entries: map<Id, Entry>, listings: map<nat, Listing>, now: int, m: nat, cache: C.Cache<Models>)
    requires AskedMaps(entries, listings, now, m) && m < CAPACITY && cache.refreshing
    ensures m in entries && m in listings && listings[m] == Listing(Handle(m, m), false)
    ensures entries[m].serial == m && entries[m].users == 1 && entries[m].cache == EMPTY
    ensures AskedMaps(entries[m := entries[m].(users := 0, cache := cache)], listings - {m}, now, m + 1)
  {
    var after := entries[m := entries[m].(users := 0, cache := cache)];
    assert after.Keys == entries.Keys && |entries.Keys| == |entries| && |after.Keys| == |after|;
  }

  lemma QueryEntry(s: System, m: nat)
    requires m in s.listings && s.listings[m] == Listing(Handle(m, m), false)
    requires m in s.entries && s.entries[m].serial == m
    ensures Enabled(s, Query(m)) && Step(s, Query(m)).scan == s.scan
    ensures Step(s, Query(m)).entries
            == s.entries[m := s.entries[m].(cache := C.Enter(s.entries[m].cache, s.policy, s.now).0)]
    ensures Step(s, Query(m)).listings == s.listings[m := Listing(Handle(m, m), true)]
  {
    hide C.Enter;
  }

  lemma AskStep(s: System, now: int, m: nat)
    requires Asked(s, now, m) && m < 2
    ensures Enabled(s, Query(m)) && Enabled(Step(s, Query(m)), Release(m))
    ensures Asked(Step(Step(s, Query(m)), Release(m)), now, m + 1)
  {
    var cache := C.Enter(EMPTY, s.policy, s.now).0;
    assert cache.refreshing;
    AskMaps(s.entries, s.listings, now, m, cache);
    hide AskedMaps, C.Enter;
    QueryEntry(s, m);
    var t := Step(Step(s, Query(m)), Release(m));
    assert t.entries == s.entries[m := s.entries[m].(users := 0, cache := cache)] && t.listings == s.listings - {m};
  }

  /** Candidate 0 and those from 2 to n-1 have been looked at. */
  ghost predicate Looked(s: System, now: int, n: nat) {
    && s.scan.Some? && s.scan.value.best.None?
    && (forall k :: k in s.scan.value.todo <==> k == 1 || n <= k < CAPACITY)
    && (forall k :: k in s.entries <==> 0 <= k < CAPACITY)
    && (forall k :: k in s.entries ==> s.entries[k].used == now + k + 1)
    && (forall k :: k in s.entries && k < 2 ==> s.entries[k].users == 0 && s.entries[k].cache.refreshing)
    && (forall k :: k in s.entries && k >= 2 ==> s.entries[k].users == 1)
  }

  lemma BeginLooking(s: System, now: int)
    requires Asked(s, now, 2)
    ensures Enabled(s, BeginScan(CAPACITY, CAPACITY)) && Enabled(Step(s, BeginScan(CAPACITY, CAPACITY)), Examine(0))
    ensures Looked(Step(Step(s, BeginScan(CAPACITY, CAPACITY)), Examine(0)), now, 2)
  {
  }

  lemma LookStep(s: System, now: int, n: nat)
    requires Looked(s, now, n) && 2 <= n < CAPACITY
    ensures Enabled(s, Examine(n)) && Looked(Step(s, Examine(n)), now, n + 1)
  {
  }

  lemma Ask(policy: C.Policy, now: int) returns (acts: seq<Action>)
    ensures Legal(Start(policy, now), acts) && Asked(Run(Start(policy, now), acts), now, 2)
  {
    acts := Fill(policy, now, CAPACITY);
    FilledIsAsked(Run(Start(policy, now), acts), now);
    for m := 0 to 2
      invariant Legal(Start(policy, now), acts) && Asked(Run(Start(policy, now), acts), now, m)
    {
      hide *;
      AskStep(Run(Start(policy, now), acts), now, m);
      OneMore(Start(policy, now), acts, Query(m));
      OneMore(Start(policy, now), acts + [Query(m)], Release(m));
      acts := acts + [Query(m)] + [Release(m)];
    }
  }

  lemma FilledIsAsked(s: System, now: int)
    requires Filled(s, now, CAPACITY)
    ensures Asked(s, now, 0)
  {
  }

  /** Such a search is reached by opening 128 entries and leaving the first two fetching. */
  lemma OlderEntryIsMissed(policy: C.Policy, now: int) returns (acts: seq<Action>)
    ensures Legal(Start(policy, now), acts) && MissesOlder(Run(Start(policy, now), acts), 0, 1)
  {
    hide Step, Enabled, Asked, Looked, Start, Run, Legal, Filled, MissesOlder;
    acts := Ask(policy, now);
    BeginLooking(Run(Start(policy, now), acts), now);
    OneMore(Start(policy, now), acts, BeginScan(CAPACITY, CAPACITY));
    OneMore(Start(policy, now), acts + [BeginScan(CAPACITY, CAPACITY)], Examine(0));
    acts := acts + [BeginScan(CAPACITY, CAPACITY)] + [Examine(0)];
    for n := 2 to CAPACITY
      invariant Legal(Start(policy, now), acts) && Looked(Run(Start(policy, now), acts), now, n)
    {
      LookStep(Run(Start(policy, now), acts), now, n);
      OneMore(Start(policy, now), acts, Examine(n));
      acts := acts + [Examine(n)];
    }
    AllLooked(Run(Start(policy, now), acts), now);
  }

  lemma AllLooked(s: System, now: int)
    requires Looked(s, now, CAPACITY)
    ensures MissesOlder(s, 0, 1)
  {
    assert s.scan.value.todo == {1};
  }
}
