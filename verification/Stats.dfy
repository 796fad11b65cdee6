/**
 * Bounded inference accounting (proxy/internal/stats/stats.go): per-endpoint totals, one
 * row per key, at most 257 rows of models, and a ring of the last finished requests.
 * Money and the clock are left out; a finished record carries its latency.
 */
module Stats {
  import opened Wrappers

  const MAX_MODELS := 256
  const OTHER_MODELS := "[other models]"
  const MAX_ATTEMPTS := 32

  datatype Tokens = Tokens(input: int, output: int, cached: int, cacheWrite: int, reasoning: int)

  datatype Aggregate = Aggregate(
    requests: int, succeeded: int, failed: int, canceled: int, attempts: int, inFlight: int,
    tokens: Tokens, usageReports: int, costReports: int, latency: int)

  datatype Endpoint = Llm | Jev

  datatype Attempt = Attempt(keyId: string, result: string)

  datatype Record = Record(
    id: nat, endpoint: Endpoint, model: string, streamed: bool, keyId: string, attempts: seq<Attempt>, omitted: nat,
    result: string, status: int, latency: int, usage: Option<Tokens>, priced: bool)

  datatype Bucket = Bucket(total: Aggregate, keys: map<string, Aggregate>, models: map<string, Aggregate>)

  const ZERO := Aggregate(0, 0, 0, 0, 0, 0, Tokens(0, 0, 0, 0, 0), 0, 0, 0)

  function PlusTokens(a: Tokens, b: Tokens): Tokens {
    Tokens(a.input + b.input, a.output + b.output, a.cached + b.cached,
           a.cacheWrite + b.cacheWrite, a.reasoning + b.reasoning)
  }

  /** Adds a finished request to a row. */
  function Add(a: Aggregate, r: Record): Aggregate {
    Aggregate(
      a.requests + 1,
      a.succeeded + (if r.result == "ok" then 1 else 0),
      a.failed + (if r.result != "ok" && r.result != "canceled" then 1 else 0),
      a.canceled + (if r.result == "canceled" then 1 else 0),
      a.attempts, a.inFlight,
      if r.usage.Some? then PlusTokens(a.tokens, r.usage.value) else a.tokens,
      a.usageReports + (if r.usage.Some? then 1 else 0),
      a.costReports + (if r.priced then 1 else 0),
      a.latency + r.latency)
  }

  function Launch(a: Aggregate): Aggregate {
    a.(inFlight := a.inFlight + 1)
  }

  function Land(a: Aggregate): Aggregate {
    a.(inFlight := a.inFlight - 1)
  }

  // ---------------------------------------------------------------- the critical sections

  function Begun(b: Bucket): Bucket {
    b.(total := Launch(b.total))
  }

  /** A lease of key id by a request that last held previous, or no key at all. */
  function Selected(b: Bucket, previous: string, id: string): Bucket
    requires id in b.keys
  {
    var keys := if previous in b.keys then b.keys[previous := Land(b.keys[previous])] else b.keys;
    Bucket(b.total.(attempts := b.total.attempts + 1),
           keys[id := Launch(keys[id]).(attempts := keys[id].attempts + 1)], b.models)
  }

  /** A lease adds no key. */
  lemma KeysStay(b: Bucket, previous: string, id: string)
    requires id in b.keys
    ensures Selected(b, previous, id).keys.Keys == b.keys.Keys
  {
    hide Launch, Land;
  }

  /** The row of a model: its own while the table has room. */
  function RowOf(models: map<string, Aggregate>, model: string): string {
    if model !in models && |models| >= MAX_MODELS then OTHER_MODELS else model
  }

  function PostModel(models: map<string, Aggregate>, r: Record): map<string, Aggregate> {
    var m := RowOf(models, r.model);
    models[m := Add(if m in models then models[m] else ZERO, r)]
  }

  function Posted(b: Bucket, r: Record): Bucket {
    Bucket(Add(Land(b.total), r),
           if r.keyId in b.keys then b.keys[r.keyId := Add(Land(b.keys[r.keyId]), r)] else b.keys,
           PostModel(b.models, r))
  }

  // ---------------------------------------------------------------- the request's own record

  function NewRecord(id: nat, endpoint: Endpoint): Record {
    Record(id, endpoint, "", false, "", [], 0, "", 0, 0, None, false)
  }

  function WithModel(r: Record, model: string, streamed: bool): Record {
    r.(model := if |model| > 160 then "[long model ID]" else model, streamed := streamed)
  }

  function WithAttempt(r: Record, id: string): Record {
    if |r.attempts| < MAX_ATTEMPTS then r.(keyId := id, attempts := r.attempts + [Attempt(id, "accepted")])
    else r.(keyId := id, omitted := r.omitted + 1)
  }

  function WithFailure(r: Record): Record {
    if |r.attempts| > 0 && r.omitted == 0
    then r.(attempts := r.attempts[|r.attempts| - 1 := r.attempts[|r.attempts| - 1].(result := "failed")])
    else r
  }

  function Decimal(n: nat): string {
    if n < 10 then ["0123456789"[n]] else Decimal(n / 10) + ["0123456789"[n % 10]]
  }

  /** The final result; http names the status when nothing more specific was recorded. */
  function Resolved(r: Record, status: int, canceled: bool, writeFailed: bool, latency: int): Record {
    var http := if status >= 400 then "http_" + Decimal(status) else "ok";
    var result := if canceled then "canceled" else if writeFailed then "downstream_error"
                  else if r.result == "" then http else r.result;
    r.(status := status, latency := latency, result := result)
  }

  function KeyId(i: nat): string {
    "key-" + Decimal(i + 1)
  }

  function Allowed(keyCount: nat): set<string> {
    if keyCount == 0 then {"passthrough"} else Allowed(keyCount - 1) + {KeyId(keyCount - 1)}
  }

  function EmptyBucket(keyCount: nat): Bucket {
    Bucket(ZERO, map id | id in Allowed(keyCount) :: ZERO, map[])
  }

  function Capacity(requested: int): nat {
    if requested < 1 then 100 else if requested > 1000 then 1000 else requested
  }

  // ---------------------------------------------------------------- the store

  /** The finished requests of an endpoint among the last n of the history, newest first. */
  function Newest(history: seq<Record>, n: nat, e: Endpoint): seq<Record> {
    if n == 0 || history == [] then [] else
    var last := history[|history| - 1];
    (if last.endpoint == e then [last] else []) + Newest(history[..|history| - 1], n - 1, e)
  }

  /** The ring, read backwards from next, is the end of the history. */
  ghost predicate RingHolds<T>(ring: seq<T>, next: nat, size: nat, history: seq<T>) {
    && 0 < |ring| && next < |ring|
    && size == (if |history| < |ring| then |history| else |ring|)
    && forall i :: 0 <= i < size ==> ring[Back(next, i, |ring|)] == history[|history| - 1 - i]
  }

  /** The slot written i+1 finishes ago. */
  function Back(next: nat, i: nat, n: nat): (k: nat)
    requires next < n && i < n
    ensures k < n
  {
    if next - 1 - i >= 0 then next - 1 - i else next - 1 - i + n
  }

  /** The source's index expression is that slot. */
  lemma BackIsModular(next: nat, i: nat, n: nat)
    requires next < n && i < n
    ensures (next - 1 - i + n) % n == Back(next, i, n)
  {
    var k := next - 1 - i + n;
    if k < n {
      SmallModulus(k, n);
    } else {
      OnceAround(k, n);
    }
  }

  lemma {:induction false} NewestStep(history: seq<Record>, n: nat, e: Endpoint)
    requires n < |history|
    ensures var r := history[|history| - 1 - n];
            Newest(history, n + 1, e) == Newest(history, n, e) + (if r.endpoint == e then [r] else [])
  {
    if n > 0 {
      NewestStep(history[..|history| - 1], n - 1, e);
    }
  }

  lemma {:induction false} NewestAll(history: seq<Record>, n: nat, e: Endpoint)
    requires n >= |history|
    ensures Newest(history, n, e) == Newest(history, |history|, e)
  {
    if history != [] {
      NewestAll(history[..|history| - 1], n - 1, e);
    }
  }

  function Wrapped(next: nat, n: nat): (k: nat)
    requires next < n
    ensures k < n
  {
    if next + 1 == n then 0 else next + 1
  }

  lemma WrappedIsModular(next: nat, n: nat)
    requires next < n
    ensures (next + 1) % n == Wrapped(next, n)
  {
    if next + 1 < n {
      SmallModulus(next + 1, n);
    } else {
      OnceAround(next + 1, n);
    }
  }

  lemma SmallModulus(k: nat, n: nat)
    requires k < n
    ensures k % n == k
  {
  }

  lemma OnceAround(k: nat, n: nat)
    requires 0 < n <= k < 2 * n
    ensures k % n == k - n
  {
    var q := k / n;
    assert k == q * n + k % n;
    TimesOrder(2, q, n);
    TimesOrder(q, 0, n);
    assert q == 1;
  }

  lemma TimesOrder(a: int, b: int, n: nat)
    ensures a <= b ==> a * n <= b * n
  {
  }

  lemma RingPush<T>(ring: seq<T>, next: nat, size: nat, history: seq<T>, r: T)
    requires RingHolds(ring, next, size, history)
    ensures RingHolds(ring[next := r], Wrapped(next, |ring|), if size < |ring| then size + 1 else size, history + [r])
  {
    var n := |ring|;
    var next' := Wrapped(next, n);
    var size' := if size < n then size + 1 else size;
    forall i | 0 <= i < size'
      ensures ring[next := r][Back(next', i, n)] == (history + [r])[|history| - i]
    {
      if i > 0 {
        assert Back(next', i, n) == Back(next, i - 1, n);
      }
    }
  }

  datatype Snapshot = Snapshot(totals: Aggregate, keys: map<string, Aggregate>, models: map<string, Aggregate>,
                               recent: seq<Record>, capacity: nat)

  /** A request in progress; its handler alone touches it. */
  class Request {
    var record: Record

    constructor (r: Record)
      ensures record == r
    {
      record := r;
    }

    method SetModel(model: string, streamed: bool)
      modifies this
      ensures record == WithModel(old(record), model, streamed)
    {
      var shown := model;
      if |model| > 160 {
        shown := "[long model ID]";
      }
      record := record.(model := shown, streamed := streamed);
    }

    method NoteLease(id: string)
      modifies this
      ensures record == WithAttempt(old(record), id)
    {
      if |record.attempts| < MAX_ATTEMPTS {
        record := record.(keyId := id, attempts := record.attempts + [Attempt(id, "accepted")]);
      } else {
        record := record.(keyId := id, omitted := record.omitted + 1);
      }
    }

    method AttemptFailed()
      modifies this
      ensures record == WithFailure(old(record))
    {
      if |record.attempts| > 0 && record.omitted == 0 {
        var last := |record.attempts| - 1;
        record := record.(attempts := record.attempts[last := record.attempts[last].(result := "failed")]);
      }
    }

    method Resolve(status: int, canceled: bool, writeFailed: bool, latency: int)
      modifies this
      ensures record == Resolved(old(record), status, canceled, writeFailed, latency)
    {
      var result := record.result;
      if canceled {
        result := "canceled";
      } else if writeFailed {
        result := "downstream_error";
      } else if result == "" {
        if status >= 400 {
          result := "http_" + Decimal(status);
        } else {
          result := "ok";
        }
      }
      record := record.(status := status, latency := latency, result := result);
    }
  }

  class Store {
    const allowed: set<string>
    const recent: array<Record>
    var sequence: nat
    var buckets: map<Endpoint, Bucket>
    var next: nat
    var size: nat
    ghost var history: seq<Record>

    ghost predicate Valid()
      reads this, recent
    {
      && (forall e: Endpoint :: e in buckets && buckets[e].keys.Keys == allowed)
      && RingHolds(recent[..], next, size, history)
    }

    constructor (capacity: int, keyCount: nat)
      ensures Valid() && fresh(recent) && recent.Length == Capacity(capacity)
      ensures buckets == map[Llm := EmptyBucket(keyCount), Jev := EmptyBucket(keyCount)]
      ensures history == [] && sequence == 0 && allowed == Allowed(keyCount)
    {
      var n := capacity;
      if n < 1 {
        n := 100;
      }
      if n > 1000 {
        n := 1000;
      }
      allowed := Allowed(keyCount);
      recent := new Record[n](_ => NewRecord(0, Llm));
      sequence, next, size := 0, 0, 0;
      buckets := map[Llm := EmptyBucket(keyCount), Jev := EmptyBucket(keyCount)];
      history := [];
      new;
      assert EmptyBucket(keyCount).keys.Keys == allowed;
      forall e: Endpoint
        ensures e in buckets && buckets[e].keys.Keys == allowed
      {
        match e
        case Llm =>
        case Jev =>
      }
    }

    method Begin(endpoint: Endpoint) returns (r: Request)
      requires Valid()
      modifies this`sequence, this`buckets
      ensures Valid() && fresh(r) && sequence == old(sequence) + 1
      ensures r.record == NewRecord(sequence, endpoint)
      ensures buckets == old(buckets)[endpoint := Begun(old(buckets)[endpoint])]
    {
      sequence := sequence + 1;
      r := new Request(NewRecord(sequence, endpoint));
      var b := buckets[endpoint];
      buckets := buckets[endpoint := b.(total := b.total.(inFlight := b.total.inFlight + 1))];
    }

    /** Moves the in-flight count of a request from its previous key, if any, to the new one. */
    method CountLease(e: Endpoint, previous: string, id: string)
      requires Valid() && id in allowed
      modifies this`buckets
      ensures Valid() && buckets == old(buckets)[e := Selected(old(buckets)[e], previous, id)]
    {
      var b := buckets[e];
      var keys := b.keys;
      if previous in keys {
        keys := keys[previous := keys[previous].(inFlight := keys[previous].inFlight - 1)];
      }
      keys := keys[id := keys[id].(inFlight := keys[id].inFlight + 1, attempts := keys[id].attempts + 1)];
      var after := Bucket(b.total.(attempts := b.total.attempts + 1), keys, b.models);
      assert after == Selected(b, previous, id);
      KeysStay(b, previous, id);
      hide Selected;
      buckets := buckets[e := after];
    }

    method SelectKey(r: Request, id: string)
      requires Valid()
      modifies this`buckets, r
      ensures Valid()
      ensures if id in allowed then
                && buckets == old(buckets)[old(r.record).endpoint :=
                                Selected(old(buckets)[old(r.record).endpoint], old(r.record).keyId, id)]
                && r.record == WithAttempt(old(r.record), id)
              else buckets == old(buckets) && r.record == old(r.record)
    {
      if id !in allowed {
        return;
      }
      CountLease(r.record.endpoint, r.record.keyId, id);
      hide Selected;
      r.NoteLease(id);
    }

    method Post(r: Record)
      requires Valid()
      modifies this`buckets
      ensures Valid()
      ensures buckets == old(buckets)[r.endpoint := Posted(old(buckets)[r.endpoint], r)]
    {
      var b := buckets[r.endpoint];
      var total := Add(b.total.(inFlight := b.total.inFlight - 1), r);
      var keys := b.keys;
      if r.keyId in keys {
        keys := keys[r.keyId := Add(keys[r.keyId].(inFlight := keys[r.keyId].inFlight - 1), r)];
      }
      var model := r.model;
      if model !in b.models && |b.models| >= MAX_MODELS {
        model := OTHER_MODELS;
      }
      var models := b.models;
      if model !in models {
        models := models[model := ZERO];
      }
      models := models[model := Add(models[model], r)];
      assert models == PostModel(b.models, r);
      var after := Bucket(total, keys, models);
      assert after == Posted(b, r) && after.keys.Keys == b.keys.Keys;
      hide Posted, PostModel;
      buckets := buckets[r.endpoint := after];
    }

    method Remember(r: Record)
      requires Valid()
      modifies this`next, this`size, this`history, recent
      ensures Valid() && history == old(history) + [r]
    {
      RingPush(recent[..], next, size, history, r);
      WrappedIsModular(next, recent.Length);
      recent[next] := r;
      next := (next + 1) % recent.Length;
      if size < recent.Length {
        size := size + 1;
      }
      history := history + [r];
    }

    method Finish(r: Request, status: int, canceled: bool, writeFailed: bool, latency: int)
      requires Valid()
      modifies this`buckets, this`next, this`size, this`history, recent, r
      ensures Valid()
      ensures r.record == Resolved(old(r.record), status, canceled, writeFailed, latency)
      ensures buckets == old(buckets)[r.record.endpoint := Posted(old(buckets)[r.record.endpoint], r.record)]
      ensures history == old(history) + [r.record]
    {
      r.Resolve(status, canceled, writeFailed, latency);
      Post(r.record);
      Remember(r.record);
    }

    /** The ring shows exactly the newest finished requests of the endpoint, newest first. */
    method TakeSnapshot(endpoint: Endpoint) returns (out: Snapshot)
      requires Valid()
      ensures out.recent == Newest(history, recent.Length, endpoint)
      ensures var b := buckets[endpoint];
              (out.totals, out.keys, out.models, out.capacity) == (b.total, b.keys, b.models, recent.Length)
    {
      var shown: seq<Record> := [];
      var i := 0;
      while i < size
        invariant 0 <= i <= size
        invariant shown == Newest(history, i, endpoint)
      {
        BackIsModular(next, i, recent.Length);
        var r := recent[(next - 1 - i + recent.Length) % recent.Length];
        assert r == recent[..][Back(next, i, recent.Length)];
        NewestStep(history, i, endpoint);
        if r.endpoint == endpoint {
          shown := shown + [r];
        }
        i := i + 1;
      }
      if |history| < recent.Length {
        NewestAll(history, recent.Length, endpoint);
      }
      var b := buckets[endpoint];
      out := Snapshot(b.total, b.keys, b.models, shown, recent.Length);
    }
  }
}
