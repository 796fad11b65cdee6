/**
 * Conservation laws of the accounting store over every interleaving of requests: what a
 * row holds is exactly the finished requests it stands for, and nothing is lost.
 */
module StatsTheorems {
  import opened Wrappers
  import opened Stats

  // ---------------------------------------------------------------- sums of rows

  function Plus(a: Aggregate, b: Aggregate): Aggregate {
    Aggregate(a.requests + b.requests, a.succeeded + b.succeeded, a.failed + b.failed, a.canceled + b.canceled,
              a.attempts + b.attempts, a.inFlight + b.inFlight, PlusTokens(a.tokens, b.tokens),
              a.usageReports + b.usageReports, a.costReports + b.costReports, a.latency + b.latency)
  }

  /** The sum of all rows of a table. */
  ghost function Sum(rows: map<string, Aggregate>): Aggregate {
    if rows == map[] then ZERO else
    var k :| k in rows;
    Plus(rows[k], Sum(rows - {k}))
  }

  lemma PlusSwap(a: Aggregate, b: Aggregate, c: Aggregate)
    ensures Plus(a, Plus(b, c)) == Plus(b, Plus(a, c))
  {
  }

  lemma PlusAdd(a: Aggregate, b: Aggregate, r: Record)
    ensures Plus(Add(a, r), b) == Add(Plus(a, b), r)
  {
  }

  lemma PlusZero(a: Aggregate)
    ensures Plus(ZERO, a) == a
  {
  }

  /** The sum does not depend on the order of the rows. */
  lemma {:induction false} SumRemove(rows: map<string, Aggregate>, k: string)
    requires k in rows
    ensures Sum(rows) == Plus(rows[k], Sum(rows - {k}))
    decreases |rows|
  {
    var j :| j in rows && Sum(rows) == Plus(rows[j], Sum(rows - {j}));
    if j != k {
      SumRemove(rows - {j}, k);
      SumRemove(rows - {k}, j);
      assert rows - {j} - {k} == rows - {k} - {j};
      PlusSwap(rows[j], rows[k], Sum(rows - {j} - {k}));
      hide Plus;
    }
  }

  lemma SumUpdate(rows: map<string, Aggregate>, k: string, a: Aggregate)
    ensures Sum(rows[k := a]) == Plus(a, Sum(rows - {k}))
    ensures Sum(rows) == if k in rows then Plus(rows[k], Sum(rows - {k})) else Sum(rows - {k})
  {
    hide Plus;
    SumRemove(rows[k := a], k);
    assert rows[k := a] - {k} == rows - {k};
    if k in rows {
      SumRemove(rows, k);
    } else {
      assert rows - {k} == rows;
    }
  }

  // ---------------------------------------------------------------- what a row stands for

  /** The requests counted in a row: an endpoint, a key of it, or a model given the models with a row. */
  datatype Slice = OfEndpoint(e: Endpoint) | OfKey(e: Endpoint, id: string)
                 | OfModel(e: Endpoint, model: string, rows: set<string>)

  predicate In(r: Record, s: Slice) {
    && r.endpoint == s.e
    && match s
       case OfEndpoint(_) => true
       case OfKey(_, id) => r.keyId == id
       case OfModel(_, m, rows) => r.model == m || (m == "[other models]" && r.model !in rows)
  }

  /** The row of exactly the requests of the slice. */
  function Folded(history: seq<Record>, s: Slice): Aggregate {
    if history == [] then ZERO else
    var rest := Folded(history[..|history| - 1], s);
    var last := history[|history| - 1];
    if In(last, s) then Add(rest, last) else rest
  }

  lemma FoldedStep(history: seq<Record>, r: Record, s: Slice)
    ensures Folded(history + [r], s) == if In(r, s) then Add(Folded(history, s), r) else Folded(history, s)
  {
    assert (history + [r])[..|history|] == history;
  }

  lemma {:induction false} FoldedSame(history: seq<Record>, s: Slice, t: Slice)
    requires forall r :: r in history ==> In(r, s) == In(r, t)
    ensures Folded(history, s) == Folded(history, t)
  {
    if history != [] {
      var rest := history[..|history| - 1];
      assert forall r :: r in rest ==> r in history;
      FoldedSame(rest, s, t);
    }
  }

  lemma {:induction false} FoldedNone(history: seq<Record>, s: Slice)
    requires forall r :: r in history ==> !In(r, s)
    ensures Folded(history, s) == ZERO
  {
    if history != [] {
      var rest := history[..|history| - 1];
      assert forall r :: r in rest ==> r in history;
      FoldedNone(rest, s);
    }
  }

  /** Every finished request succeeded, failed or was canceled; a fold has no attempts and nothing in flight. */
  lemma {:induction false} FoldedCounts(history: seq<Record>, s: Slice)
    ensures var a := Folded(history, s);
            && a.requests == a.succeeded + a.failed + a.canceled
            && a.attempts == 0 && a.inFlight == 0 && 0 <= a.requests <= |history|
  {
    if history != [] {
      FoldedCounts(history[..|history| - 1], s);
    }
  }

  /** What a row counts or adds up. */
  datatype Measure = Requests | Succeeded | Failed | Canceled | InputTokens | OutputTokens | CachedTokens
                   | CacheWriteTokens | ReasoningTokens | UsageReports | CostReports | Latency

  function Field(a: Aggregate, m: Measure): int {
    match m
    case Requests => a.requests
    case Succeeded => a.succeeded
    case Failed => a.failed
    case Canceled => a.canceled
    case InputTokens => a.tokens.input
    case OutputTokens => a.tokens.output
    case CachedTokens => a.tokens.cached
    case CacheWriteTokens => a.tokens.cacheWrite
    case ReasoningTokens => a.tokens.reasoning
    case UsageReports => a.usageReports
    case CostReports => a.costReports
    case Latency => a.latency
  }

  function One(b: bool): int {
    if b then 1 else 0
  }

  /** What one finished request contributes to a measure. */
  function Weight(r: Record, m: Measure): int {
    var u := if r.usage.Some? then r.usage.value else Tokens(0, 0, 0, 0, 0);
    match m
    case Requests => 1
    case Succeeded => One(r.result == "ok")
    case Failed => One(r.result !in ["ok", "canceled"])
    case Canceled => One(r.result == "canceled")
    case InputTokens => u.input
    case OutputTokens => u.output
    case CachedTokens => u.cached
    case CacheWriteTokens => u.cacheWrite
    case ReasoningTokens => u.reasoning
    case UsageReports => One(r.usage.Some?)
    case CostReports => One(r.priced)
    case Latency => r.latency
  }

  function Tally(history: seq<Record>, s: Slice, m: Measure): int {
    if history == [] then 0 else
    var last := history[|history| - 1];
    Tally(history[..|history| - 1], s, m) + if In(last, s) then Weight(last, m) else 0
  }

  /** A row's every counter is the sum of what its requests contribute to it. */
  lemma {:induction false} RowsAddUp(history: seq<Record>, s: Slice, m: Measure)
    ensures Field(Folded(history, s), m) == Tally(history, s, m)
  {
    if history != [] {
      RowsAddUp(history[..|history| - 1], s, m);
    }
  }

  // ---------------------------------------------------------------- models

  ghost predicate RowExact(models: map<string, Aggregate>, m: string, e: Endpoint, history: seq<Record>) {
    m in models ==> models[m] == Folded(history, OfModel(e, m, models.Keys))
  }

  /** A finished request's model only lacks a row once the table is full. */
  ghost predicate Covered(models: map<string, Aggregate>, r: Record, e: Endpoint) {
    r.endpoint == e && r.model !in models ==> |models| >= 256 && "[other models]" in models
  }

  predicate SizeOk(models: map<string, Aggregate>) {
    |models| <= MAX_MODELS + 1 && (|models| > MAX_MODELS ==> OTHER_MODELS in models)
  }

  ghost predicate ModelsOk(models: map<string, Aggregate>, e: Endpoint, history: seq<Record>) {
    && (forall m :: RowExact(models, m, e, history))
    && (forall r :: r in history ==> Covered(models, r, e))
    && SizeOk(models)
    && Sum(models) == Folded(history, OfEndpoint(e))
  }

  lemma PostModelSize(models: map<string, Aggregate>, r: Record)
    requires SizeOk(models)
    ensures var after := PostModel(models, r);
            SizeOk(after) && |models| <= |after| && after.Keys == models.Keys + {RowOf(models, r.model)}
  {
    var after := PostModel(models, r);
    assert after.Keys == models.Keys + {RowOf(models, r.model)};
    assert |after| == |after.Keys| && |models| == |models.Keys|;
  }

  lemma PostModelSum(models: map<string, Aggregate>, e: Endpoint, history: seq<Record>, r: Record)
    requires r.endpoint == e && Sum(models) == Folded(history, OfEndpoint(e))
    ensures Sum(PostModel(models, r)) == Folded(history + [r], OfEndpoint(e))
  {
    var m := RowOf(models, r.model);
    var row := if m in models then models[m] else ZERO;
    var rest := Sum(models - {m});
    FoldedStep(history, r, OfEndpoint(e));
    PlusZero(rest);
    hide Plus, Add, Sum, Folded;
    SumUpdate(models, m, Add(row, r));
    PlusAdd(row, rest, r);
  }

  lemma PostModelRow(models: map<string, Aggregate>, e: Endpoint, history: seq<Record>, r: Record, k: string)
    requires SizeOk(models) && RowExact(models, k, e, history) && r.endpoint == e
    requires forall q :: q in history ==> Covered(models, q, e)
    ensures RowExact(PostModel(models, r), k, e, history + [r])
  {
    var after := PostModel(models, r);
    PostModelSize(models, r);
    FoldedStep(history, r, OfModel(e, k, after.Keys));
    if k in models {
      FoldedSame(history, OfModel(e, k, models.Keys), OfModel(e, k, after.Keys));
    } else if k in after {
      FoldedNone(history, OfModel(e, k, after.Keys));
    }
    hide Add, Folded;
  }

  lemma PostModelCovers(models: map<string, Aggregate>, e: Endpoint, history: seq<Record>, r: Record)
    requires forall q :: q in history ==> Covered(models, q, e)
    requires SizeOk(models)
    ensures forall q :: q in history + [r] ==> Covered(PostModel(models, r), q, e)
  {
    PostModelSize(models, r);
    hide PostModel;
    forall q | q in history + [r]
      ensures Covered(PostModel(models, r), q, e)
    {
      assert q in history ==> Covered(models, q, e);
    }
  }

  lemma PostModelOk(models: map<string, Aggregate>, e: Endpoint, history: seq<Record>, r: Record)
    requires ModelsOk(models, e, history) && r.endpoint == e
    ensures ModelsOk(PostModel(models, r), e, history + [r])
  {
    hide RowExact, Covered, SizeOk, Sum, Folded, PostModel, RowOf;
    PostModelSize(models, r);
    PostModelSum(models, e, history, r);
    PostModelCovers(models, e, history, r);
    forall k
      ensures RowExact(PostModel(models, r), k, e, history + [r])
    {
      assert RowExact(models, k, e, history);
      PostModelRow(models, e, history, r, k);
    }
  }

  lemma OtherModelsOk(models: map<string, Aggregate>, e: Endpoint, history: seq<Record>, r: Record)
    requires ModelsOk(models, e, history) && r.endpoint != e
    ensures ModelsOk(models, e, history + [r])
  {
    FoldedStep(history, r, OfEndpoint(e));
    forall k
      ensures RowExact(models, k, e, history + [r])
    {
      assert RowExact(models, k, e, history);
      FoldedStep(history, r, OfModel(e, k, models.Keys));
    }
  }

  // ---------------------------------------------------------------- requests in progress

  /** A request in progress and, for the record, every key it was leased in order. */
  datatype Pending = Pending(record: Record, selected: seq<string>)

  /** The requests in progress of a slice. */
  ghost function OpenIn(open: map<nat, Pending>, s: Slice): set<nat> {
    set n | n in open && In(open[n].record, s)
  }

  lemma Inserted(open: map<nat, Pending>, n: nat, p: Pending, s: Slice)
    requires n !in open
    ensures |OpenIn(open[n := p], s)| == |OpenIn(open, s)| + (if In(p.record, s) then 1 else 0)
  {
    hide In;
    assert OpenIn(open[n := p], s) == if In(p.record, s) then OpenIn(open, s) + {n} else OpenIn(open, s);
  }

  lemma Removed(open: map<nat, Pending>, n: nat, s: Slice)
    requires n in open
    ensures |OpenIn(open - {n}, s)| == |OpenIn(open, s)| - (if In(open[n].record, s) then 1 else 0)
  {
    hide In;
    var rest := open - {n};
    assert rest[n := open[n]] == open;
    Inserted(rest, n, open[n], s);
  }

  lemma Replaced(open: map<nat, Pending>, n: nat, p: Pending, s: Slice)
    requires n in open
    ensures |OpenIn(open[n := p], s)| ==
              |OpenIn(open, s)| - (if In(open[n].record, s) then 1 else 0) + (if In(p.record, s) then 1 else 0)
  {
    hide In;
    Removed(open, n, s);
    assert (open - {n})[n := p] == open[n := p];
    Inserted(open - {n}, n, p, s);
  }

  /** The record lists the first 32 leases, counts the rest, and names the last key. */
  ghost predicate Faithful(p: Pending) {
    var r := p.record;
    && |r.attempts| == (if |p.selected| < 32 then |p.selected| else 32)
    && (forall i :: 0 <= i < |r.attempts| ==> r.attempts[i].keyId == p.selected[i])
    && r.omitted == |p.selected| - |r.attempts|
    && r.keyId == (if p.selected == [] then "" else p.selected[|p.selected| - 1])
  }

  lemma AttemptIsFaithful(p: Pending, id: string)
    requires Faithful(p)
    ensures Faithful(Pending(WithAttempt(p.record, id), p.selected + [id]))
  {
  }

  /** Only the attempt of the key the request holds is ever marked failed. */
  lemma FailureMarksTheLastLease(p: Pending)
    requires Faithful(p)
    ensures var after := WithFailure(p.record);
            && Faithful(p.(record := after)) && after == p.record.(attempts := after.attempts)
            && forall i :: 0 <= i < |after.attempts| ==>
                 after.attempts[i] ==
                   if i == |p.selected| - 1 then Attempt(p.record.keyId, "failed") else p.record.attempts[i]
  {
  }

  // ---------------------------------------------------------------- one bucket

  ghost predicate TotalExact(b: Bucket, e: Endpoint, open: map<nat, Pending>, history: seq<Record>) {
    b.total == Folded(history, OfEndpoint(e)).(attempts := b.total.attempts, inFlight := |OpenIn(open, OfEndpoint(e))|)
  }

  ghost predicate KeyExact(b: Bucket, id: string, e: Endpoint, open: map<nat, Pending>, history: seq<Record>) {
    id in b.keys ==>
      && id != ""
      && b.keys[id] == Folded(history, OfKey(e, id))
           .(attempts := b.keys[id].attempts, inFlight := |OpenIn(open, OfKey(e, id))|)
  }

  ghost predicate BucketOk(b: Bucket, e: Endpoint, open: map<nat, Pending>, history: seq<Record>) {
    && TotalExact(b, e, open, history)
    && (forall id :: KeyExact(b, id, e, open, history))
    && Sum(b.keys).attempts == b.total.attempts
    && ModelsOk(b.models, e, history)
  }

  lemma BeginKeepsBucket(b: Bucket, e: Endpoint, open: map<nat, Pending>, history: seq<Record>, n: nat, p: Pending)
    requires BucketOk(b, e, open, history) && n !in open && p.record.keyId == ""
    ensures BucketOk(if p.record.endpoint == e then Begun(b) else b, e, open[n := p], history)
  {
    var b' := if p.record.endpoint == e then Begun(b) else b;
    hide ModelsOk, Sum, Folded;
    Inserted(open, n, p, OfEndpoint(e));
    var after := open[n := p];
    forall id
      ensures KeyExact(b', id, e, after, history)
    {
      assert KeyExact(b, id, e, open, history);
      Inserted(open, n, p, OfKey(e, id));
    }
  }

  lemma EditKeepsBucket(b: Bucket, e: Endpoint, open: map<nat, Pending>, history: seq<Record>, n: nat, p: Pending)
    requires BucketOk(b, e, open, history) && n in open
    requires p.record.endpoint == open[n].record.endpoint
    requires p.record.endpoint == e ==> p.record.keyId == open[n].record.keyId
    ensures BucketOk(b, e, open[n := p], history)
  {
    hide ModelsOk, Sum, Folded;
    Replaced(open, n, p, OfEndpoint(e));
    var after := open[n := p];
    forall id
      ensures KeyExact(b, id, e, after, history)
    {
      assert KeyExact(b, id, e, open, history);
      Replaced(open, n, p, OfKey(e, id));
    }
  }

  /** Landing the previous key's row and launching the new one move no attempt but the new one. */
  lemma SelectedSum(b: Bucket, previous: string, id: string)
    requires id in b.keys
    ensures Sum(Selected(b, previous, id).keys).attempts == Sum(b.keys).attempts + 1
  {
    var keys := if previous in b.keys then b.keys[previous := Land(b.keys[previous])] else b.keys;
    assert Sum(keys).attempts == Sum(b.keys).attempts by {
      if previous in b.keys {
        SumUpdate(b.keys, previous, Land(b.keys[previous]));
      }
    }
    SumUpdate(keys, id, Launch(keys[id]).(attempts := keys[id].attempts + 1));
    hide Sum;
  }

  lemma SelectKeepsBucket(b: Bucket, e: Endpoint, open: map<nat, Pending>, history: seq<Record>, n: nat, p: Pending)
    requires BucketOk(b, e, open, history) && n in open
    requires open[n].record.endpoint == p.record.endpoint == e && p.record.keyId in b.keys
    ensures BucketOk(Selected(b, open[n].record.keyId, p.record.keyId), e, open[n := p], history)
  {
    var b' := Selected(b, open[n].record.keyId, p.record.keyId);
    SelectedSum(b, open[n].record.keyId, p.record.keyId);
    hide ModelsOk, Sum, Folded;
    Replaced(open, n, p, OfEndpoint(e));
    var after := open[n := p];
    forall id
      ensures KeyExact(b', id, e, after, history)
    {
      assert KeyExact(b, id, e, open, history);
      Replaced(open, n, p, OfKey(e, id));
    }
  }

  lemma PostedSum(b: Bucket, r: Record)
    ensures Sum(Posted(b, r).keys).attempts == Sum(b.keys).attempts
  {
    if r.keyId in b.keys {
      SumUpdate(b.keys, r.keyId, Add(Land(b.keys[r.keyId]), r));
    }
  }

  lemma FinishKeepsKey(b: Bucket, id: string, e: Endpoint, open: map<nat, Pending>, history: seq<Record>,
                       n: nat, r: Record)
    requires KeyExact(b, id, e, open, history) && n in open
    requires r.endpoint == open[n].record.endpoint && r.keyId == open[n].record.keyId
    ensures KeyExact(if r.endpoint == e then Posted(b, r) else b, id, e, open - {n}, history + [r])
  {
    Removed(open, n, OfKey(e, id));
    FoldedStep(history, r, OfKey(e, id));
    hide Folded, PostModel;
  }

  lemma FinishKeepsTotal(b: Bucket, e: Endpoint, open: map<nat, Pending>, history: seq<Record>, n: nat, r: Record)
    requires TotalExact(b, e, open, history) && n in open && r.endpoint == open[n].record.endpoint
    ensures TotalExact(if r.endpoint == e then Posted(b, r) else b, e, open - {n}, history + [r])
  {
    Removed(open, n, OfEndpoint(e));
    FoldedStep(history, r, OfEndpoint(e));
    hide Folded, PostModel;
  }

  lemma FinishKeepsBucket(b: Bucket, e: Endpoint, open: map<nat, Pending>, history: seq<Record>, n: nat, r: Record)
    requires BucketOk(b, e, open, history) && n in open
    requires r.endpoint == open[n].record.endpoint && r.keyId == open[n].record.keyId
    ensures BucketOk(if r.endpoint == e then Posted(b, r) else b, e, open - {n}, history + [r])
  {
    var b' := if r.endpoint == e then Posted(b, r) else b;
    PostedSum(b, r);
    if r.endpoint == e {
      PostModelOk(b.models, e, history, r);
    } else {
      OtherModelsOk(b.models, e, history, r);
    }
    FinishKeepsTotal(b, e, open, history, n, r);
    hide ModelsOk, Sum, KeyExact, TotalExact, PostModel;
    forall id
      ensures KeyExact(b', id, e, open - {n}, history + [r])
    {
      assert KeyExact(b, id, e, open, history);
      FinishKeepsKey(b, id, e, open, history, n, r);
    }
  }

  // ---------------------------------------------------------------- runs

  /** begun counts the requests started on each endpoint. */
  datatype System = System(sequence: nat, llm: Bucket, jev: Bucket, open: map<nat, Pending>, history: seq<Record>,
                           begun: multiset<Endpoint>)

  datatype Action =
    | Begin(endpoint: Endpoint)
    | SetModel(n: nat, model: string, streamed: bool)
    | SelectKey(n: nat, id: string)
    | AttemptFailed(n: nat)
    | SetResult(n: nat, result: string)
    | Observe(n: nat, usage: Option<Tokens>, priced: bool)
    | Finish(n: nat, status: int, canceled: bool, writeFailed: bool, latency: int)

  function At(s: System, e: Endpoint): Bucket {
    if e.Llm? then s.llm else s.jev
  }

  function Put(s: System, e: Endpoint, b: Bucket): System {
    if e.Llm? then s.(llm := b) else s.(jev := b)
  }

  function Start(keyCount: nat): System {
    System(0, EmptyBucket(keyCount), EmptyBucket(keyCount), map[], [], multiset{})
  }

  function Edit(s: System, n: nat, r: Record): System
    requires n in s.open
  {
    s.(open := s.open[n := s.open[n].(record := r)])
  }

  /** One critical section, or one change of a request's own record; unknown requests change nothing. */
  function Step(s: System, a: Action): System {
    if a.Begin? then
      var n := s.sequence + 1;
      Put(s.(sequence := n, open := s.open[n := Pending(NewRecord(n, a.endpoint), [])],
             begun := s.begun + multiset{a.endpoint}),
          a.endpoint, Begun(At(s, a.endpoint)))
    else if a.n !in s.open then s
    else
      var p := s.open[a.n];
      var r := p.record;
      match a
      case SetModel(n, model, streamed) => Edit(s, n, WithModel(r, model, streamed))
      case SelectKey(n, id) =>
        if id !in At(s, r.endpoint).keys then s else
        Put(s.(open := s.open[n := Pending(WithAttempt(r, id), p.selected + [id])]),
            r.endpoint, Selected(At(s, r.endpoint), r.keyId, id))
      case AttemptFailed(n) => Edit(s, n, WithFailure(r))
      case SetResult(n, result) => Edit(s, n, r.(result := result))
      case Observe(n, usage, priced) => Edit(s, n, r.(usage := usage, priced := priced))
      case Finish(n, status, canceled, writeFailed, latency) =>
        var done := Resolved(r, status, canceled, writeFailed, latency);
        Put(s.(open := s.open - {n}, history := s.history + [done]), r.endpoint, Posted(At(s, r.endpoint), done))
  }

  function Run(s: System, acts: seq<Action>): System {
    if acts == [] then s else Step(Run(s, acts[..|acts| - 1]), acts[|acts| - 1])
  }

  /** begun is what the totals say was begun: finished or still in flight. */
  predicate BegunOk(b: Bucket, begun: nat) {
    begun == b.total.requests + b.total.inFlight
  }

  ghost predicate SideOk(s: System, e: Endpoint) {
    BucketOk(At(s, e), e, s.open, s.history) && BegunOk(At(s, e), s.begun[e])
  }

  ghost predicate OpenOk(open: map<nat, Pending>, sequence: nat) {
    forall n :: n in open ==> n <= sequence && Faithful(open[n])
  }

  ghost predicate Inv(s: System) {
    SideOk(s, Llm) && SideOk(s, Jev) && OpenOk(s.open, s.sequence)
  }

  lemma EditKeepsSide(s: System, n: nat, r: Record, e: Endpoint)
    requires SideOk(s, e) && n in s.open
    requires r.endpoint == s.open[n].record.endpoint && r.keyId == s.open[n].record.keyId
    ensures SideOk(Edit(s, n, r), e)
  {
    EditKeepsBucket(At(s, e), e, s.open, s.history, n, s.open[n].(record := r));
    hide BucketOk;
  }

  lemma EditKeepsInv(s: System, n: nat, r: Record)
    requires Inv(s) && n in s.open
    requires r.endpoint == s.open[n].record.endpoint && r.keyId == s.open[n].record.keyId
    requires Faithful(s.open[n].(record := r))
    ensures Inv(Edit(s, n, r))
  {
    hide SideOk, Faithful;
    EditKeepsSide(s, n, r, Llm);
    EditKeepsSide(s, n, r, Jev);
  }

  lemma BeginKeepsSide(s: System, started: Endpoint, e: Endpoint)
    requires SideOk(s, e) && s.sequence + 1 !in s.open
    ensures SideOk(Step(s, Begin(started)), e)
  {
    var n := s.sequence + 1;
    BeginKeepsBucket(At(s, e), e, s.open, s.history, n, Pending(NewRecord(n, started), []));
    hide BucketOk;
  }

  lemma SelectKeepsSide(s: System, n: nat, id: string, e: Endpoint)
    requires SideOk(s, e) && n in s.open
    ensures SideOk(Step(s, SelectKey(n, id)), e)
  {
    var q := s.open[n];
    var p := Pending(WithAttempt(q.record, id), q.selected + [id]);
    if q.record.endpoint != e {
      EditKeepsBucket(At(s, e), e, s.open, s.history, n, p);
      hide BucketOk, Selected;
    } else if id in At(s, e).keys {
      SelectKeepsBucket(At(s, e), e, s.open, s.history, n, p);
      hide BucketOk;
    }
  }

  lemma FinishKeepsSide(s: System, a: Action, e: Endpoint)
    requires SideOk(s, e) && a.Finish? && a.n in s.open
    ensures SideOk(Step(s, a), e)
  {
    var done := Resolved(s.open[a.n].record, a.status, a.canceled, a.writeFailed, a.latency);
    FinishKeepsBucket(At(s, e), e, s.open, s.history, a.n, done);
    hide BucketOk, PostModel;
  }

  /** Beginning, leasing and finishing keep the requests in progress well recorded. */
  lemma StepKeepsOpen(s: System, a: Action)
    requires OpenOk(s.open, s.sequence) && (a.Begin? || a.SelectKey? || a.Finish?)
    ensures OpenOk(Step(s, a).open, Step(s, a).sequence)
  {
    hide Selected, Posted, Resolved;
    if a.SelectKey? && a.n in s.open {
      AttemptIsFaithful(s.open[a.n], a.id);
      hide WithAttempt, Faithful;
    }
  }

  /** What a request's own record becomes by an edit of its handler. */
  function Edited(r: Record, a: Action): Record {
    match a
    case SetModel(_, model, streamed) => WithModel(r, model, streamed)
    case AttemptFailed(_) => WithFailure(r)
    case SetResult(_, result) => r.(result := result)
    case Observe(_, usage, priced) => r.(usage := usage, priced := priced)
    case _ => r
  }

  predicate IsEdit(a: Action) {
    a.SetModel? || a.AttemptFailed? || a.SetResult? || a.Observe?
  }

  lemma EditStaysFaithful(p: Pending, a: Action)
    requires Faithful(p) && IsEdit(a)
    ensures Faithful(p.(record := Edited(p.record, a)))
    ensures Edited(p.record, a).endpoint == p.record.endpoint && Edited(p.record, a).keyId == p.record.keyId
  {
    if a.AttemptFailed? {
      FailureMarksTheLastLease(p);
    }
  }

  lemma EditStep(s: System, a: Action)
    requires IsEdit(a) && a.n in s.open
    ensures Step(s, a) == Edit(s, a.n, Edited(s.open[a.n].record, a))
  {
    hide WithModel, WithFailure;
  }

  lemma EditsKeepInv(s: System, a: Action)
    requires Inv(s) && IsEdit(a) && a.n in s.open && Faithful(s.open[a.n])
    ensures Inv(Step(s, a))
  {
    EditStep(s, a);
    EditStaysFaithful(s.open[a.n], a);
    hide Inv, Step, Faithful, Edited, Edit;
    EditKeepsInv(s, a.n, Edited(s.open[a.n].record, a));
  }

  lemma StepKeepsInv(s: System, a: Action)
    requires Inv(s)
    ensures Inv(Step(s, a))
  {
    hide SideOk, Faithful;
    if a.Begin? {
      BeginKeepsSide(s, a.endpoint, Llm);
      BeginKeepsSide(s, a.endpoint, Jev);
      StepKeepsOpen(s, a);
      hide Step;
    } else if a.n in s.open {
      if a.SelectKey? {
        SelectKeepsSide(s, a.n, a.id, Llm);
        SelectKeepsSide(s, a.n, a.id, Jev);
        StepKeepsOpen(s, a);
        hide Step;
      } else if a.Finish? {
        FinishKeepsSide(s, a, Llm);
        FinishKeepsSide(s, a, Jev);
        StepKeepsOpen(s, a);
        hide Step;
      } else {
        EditsKeepInv(s, a);
        hide Step;
      }
    }
  }

  lemma {:induction false} KeyIdsNonempty(keyCount: nat)
    ensures "" !in Allowed(keyCount)
  {
    if keyCount > 0 {
      KeyIdsNonempty(keyCount - 1);
      assert |KeyId(keyCount - 1)| >= 4;
    }
  }

  lemma NoRows()
    ensures Sum(map[]) == ZERO
  {
  }

  predicate AllZero(rows: map<string, Aggregate>) {
    forall k :: k in rows ==> rows[k] == ZERO
  }

  lemma AllZeroWithout(rows: map<string, Aggregate>, k: string)
    requires AllZero(rows) && k in rows
    ensures rows[k] == ZERO && AllZero(rows - {k}) && |(rows - {k}).Keys| < |rows.Keys|
  {
    assert (rows - {k}).Keys == rows.Keys - {k};
  }

  lemma {:induction false} ZeroRows(rows: map<string, Aggregate>)
    requires AllZero(rows)
    ensures Sum(rows) == ZERO
    decreases |rows.Keys|
  {
    if rows == map[] {
      NoRows();
    } else {
      hide Sum, Plus, AllZero;
      var k :| k in rows;
      AllZeroWithout(rows, k);
      SumRemove(rows, k);
      ZeroRows(rows - {k});
      PlusZero(ZERO);
    }
  }

  lemma NoModelsOk(e: Endpoint)
    ensures ModelsOk(map[], e, [])
  {
  }

  lemma NoneOpen(s: Slice)
    ensures |OpenIn(map[], s)| == 0
  {
    assert OpenIn(map[], s) == {};
  }

  lemma ZeroKeyExact(b: Bucket, id: string, e: Endpoint)
    requires id in b.keys ==> b.keys[id] == ZERO && id != ""
    ensures KeyExact(b, id, e, map[], [])
  {
    NoneOpen(OfKey(e, id));
    FoldedNone([], OfKey(e, id));
    hide OpenIn, Folded;
  }

  lemma ZeroBucketOk(b: Bucket, e: Endpoint)
    requires b.total == ZERO && b.models == map[] && "" !in b.keys
    requires forall id :: id in b.keys ==> b.keys[id] == ZERO
    ensures BucketOk(b, e, map[], []) && BegunOk(b, 0)
  {
    ZeroRows(b.keys);
    NoModelsOk(e);
    assert Sum(b.keys).attempts == b.total.attempts;
    hide Sum, ModelsOk, OpenIn, Folded, KeyExact;
    forall id
      ensures KeyExact(b, id, e, map[], [])
    {
      ZeroKeyExact(b, id, e);
    }
    NoneOpen(OfEndpoint(e));
    FoldedNone([], OfEndpoint(e));
  }

  lemma EmptyBucketOk(keyCount: nat, e: Endpoint)
    ensures BucketOk(EmptyBucket(keyCount), e, map[], []) && BegunOk(EmptyBucket(keyCount), 0)
  {
    KeyIdsNonempty(keyCount);
    hide BucketOk, BegunOk, Allowed, KeyId;
    ZeroBucketOk(EmptyBucket(keyCount), e);
  }

  lemma StartOk(keyCount: nat)
    ensures Inv(Start(keyCount))
  {
    hide BucketOk, EmptyBucket, BegunOk;
    EmptyBucketOk(keyCount, Llm);
    EmptyBucketOk(keyCount, Jev);
  }

  lemma {:induction false} RunKeepsInv(keyCount: nat, acts: seq<Action>)
    ensures Inv(Run(Start(keyCount), acts))
  {
    if acts == [] {
      StartOk(keyCount);
    } else {
      RunKeepsInv(keyCount, acts[..|acts| - 1]);
      StepKeepsInv(Run(Start(keyCount), acts[..|acts| - 1]), acts[|acts| - 1]);
    }
  }

  lemma BucketConserves(b: Bucket, e: Endpoint, open: map<nat, Pending>, history: seq<Record>)
    requires TotalExact(b, e, open, history) && ModelsOk(b.models, e, history)
    ensures b.total.inFlight == |OpenIn(open, OfEndpoint(e))|
    ensures b.total.requests == b.total.succeeded + b.total.failed + b.total.canceled
    ensures Sum(b.models) == b.total.(attempts := 0, inFlight := 0)
    ensures |b.models| <= 257
  {
    FoldedCounts(history, OfEndpoint(e));
    hide Folded, Sum, RowExact, Covered;
  }

  /** Nothing is lost or counted twice, however requests interleave. */
  lemma Conservation(keyCount: nat, acts: seq<Action>, e: Endpoint)
    ensures var s := Run(Start(keyCount), acts);
            var b := At(s, e);
            && b.total.inFlight == s.begun[e] - b.total.requests == |OpenIn(s.open, OfEndpoint(e))|
            && b.total.requests == b.total.succeeded + b.total.failed + b.total.canceled
            && Sum(b.keys).attempts == b.total.attempts
            && Sum(b.models) == b.total.(attempts := 0, inFlight := 0)
            && |b.models| <= 257
  {
    var s := Run(Start(keyCount), acts);
    RunKeepsInv(keyCount, acts);
    assert SideOk(s, e);
    BucketConserves(At(s, e), e, s.open, s.history);
    hide Run, Sum, ModelsOk, TotalExact, OpenOk, KeyExact;
  }

  /** Every row is exactly the finished requests it stands for, plus the key's own work in progress. */
  lemma RowsAreExact(keyCount: nat, acts: seq<Action>, e: Endpoint, id: string, model: string)
    ensures var s := Run(Start(keyCount), acts);
            var b := At(s, e);
            && (id in b.keys ==>
                  && b.keys[id].inFlight == |OpenIn(s.open, OfKey(e, id))|
                  && b.keys[id].(attempts := 0, inFlight := 0) == Folded(s.history, OfKey(e, id)))
            && (model in b.models ==> b.models[model] == Folded(s.history, OfModel(e, model, b.models.Keys)))
            && (forall r :: r in s.history && r.endpoint == e && r.model !in b.models ==>
                  |b.models| >= 256 && "[other models]" in b.models)
  {
    var s := Run(Start(keyCount), acts);
    RunKeepsInv(keyCount, acts);
    FoldedCounts(s.history, OfKey(e, id));
    assert KeyExact(At(s, e), id, e, s.open, s.history);
    assert RowExact(At(s, e).models, model, e, s.history);
    assert forall r :: r in s.history ==> Covered(At(s, e).models, r, e);
    hide Run;
  }

  /** A request in progress knows its first 32 leases in order, how many more, and its key. */
  lemma RecordsAreFaithful(keyCount: nat, acts: seq<Action>, n: nat)
    requires n in Run(Start(keyCount), acts).open
    ensures Faithful(Run(Start(keyCount), acts).open[n])
  {
    RunKeepsInv(keyCount, acts);
  }

  // ---------------------------------------------------------------- leases

  /** The action is a lease of this key by a request in progress on the endpoint. */
  predicate Leases(s: System, a: Action, e: Endpoint, id: string) {
    a.SelectKey? && a.id == id && a.n in s.open && s.open[a.n].record.endpoint == e
  }

  /** How often requests on the endpoint were leased the key. */
  function LeaseCount(s: System, acts: seq<Action>, e: Endpoint, id: string): nat {
    if acts == [] then 0
    else
      var pre := acts[..|acts| - 1];
      LeaseCount(s, pre, e, id) + if Leases(Run(s, pre), acts[|acts| - 1], e, id) then 1 else 0
  }

  lemma StepLeases(s: System, a: Action, e: Endpoint, id: string)
    requires id in At(s, e).keys
    ensures id in At(Step(s, a), e).keys
    ensures At(Step(s, a), e).keys[id].attempts == At(s, e).keys[id].attempts + if Leases(s, a, e, id) then 1 else 0
  {
    hide Resolved, WithAttempt, PostModel, WithModel, WithFailure;
  }

  /** A key's attempts are its leases, each counted once and for the key that was leased. */
  lemma {:induction false} AttemptsAreLeases(keyCount: nat, acts: seq<Action>, e: Endpoint, id: string)
    requires id in Allowed(keyCount)
    ensures var b := At(Run(Start(keyCount), acts), e);
            id in b.keys && b.keys[id].attempts == LeaseCount(Start(keyCount), acts, e, id)
  {
    if acts != [] {
      AttemptsAreLeases(keyCount, acts[..|acts| - 1], e, id);
      hide Step, Leases;
      StepLeases(Run(Start(keyCount), acts[..|acts| - 1]), acts[|acts| - 1], e, id);
    }
  }

  // ---------------------------------------------------------------- names

  predicate IsDigit(c: char) {
    '0' <= c <= '9'
  }

  function Digit(c: char): int {
    c as int - '0' as int
  }

  /** The number these digits write. */
  function ValueOf(digits: string): int {
    if digits == "" then 0 else 10 * ValueOf(digits[..|digits| - 1]) + Digit(digits[|digits| - 1])
  }

  /** Digits that write this number, without a needless zero in front. */
  predicate Writes(digits: string, n: nat) {
    && digits != "" && (forall c :: c in digits ==> IsDigit(c)) && ValueOf(digits) == n
    && (digits[0] == '0' ==> digits == "0")
  }

  lemma {:induction false} DecimalWrites(n: nat)
    ensures Writes(Decimal(n), n)
  {
    var last := "0123456789"[n % 10];
    assert IsDigit(last) && Digit(last) == n % 10 && (last == '0' <==> n % 10 == 0);
    if n < 10 {
      assert [last][..0] == "";
    } else {
      DecimalWrites(n / 10);
      OneMoreDigit(Decimal(n / 10), last, n);
    }
  }

  lemma OneMoreDigit(d: string, last: char, n: nat)
    requires n >= 10 && Writes(d, n / 10) && IsDigit(last) && Digit(last) == n % 10
    ensures Writes(d + [last], n)
  {
    assert (d + [last])[..|d|] == d;
    assert forall c :: c in d + [last] ==> IsDigit(c);
    assert "0"[..0] == "" && ValueOf("0") == 0;
  }

  /** The keys a store knows: passthrough, and key-1 to key-n by their decimal numbers. */
  lemma {:induction false} KnownKeys(keyCount: nat, id: string)
    ensures id in Allowed(keyCount) <==>
              id == "passthrough" || exists i :: 1 <= i <= keyCount && IsKey(id, i)
  {
    if keyCount > 0 {
      KnownKeys(keyCount - 1, id);
      DecimalWrites(keyCount);
      assert KeyId(keyCount - 1) == "key-" + Decimal(keyCount);
      KeyIsOne(KeyId(keyCount - 1), id, keyCount);
    }
  }

  predicate IsKey(id: string, i: nat) {
    |id| >= 4 && id[..4] == "key-" && Writes(id[4..], i)
  }

  lemma KeyIsOne(known: string, id: string, i: nat)
    requires known == "key-" + Decimal(i)
    ensures IsKey(id, i) <==> id == known
  {
    DecimalWrites(i);
    assert known[..4] == "key-" && known[4..] == Decimal(i);
    if IsKey(id, i) {
      DigitsAreOne(id[4..], Decimal(i), i);
      assert id == id[..4] + id[4..];
    }
  }

  /** A number is written in one way only. */
  lemma {:induction false} DigitsAreOne(a: string, b: string, n: nat)
    requires Writes(a, n) && Writes(b, n)
    ensures a == b
    decreases |a|
  {
    LastDigit(a, n);
    LastDigit(b, n);
    if n >= 10 {
      DigitsAreOne(a[..|a| - 1], b[..|b| - 1], n / 10);
    }
    hide Writes;
    assert a == a[..|a| - 1] + [a[|a| - 1]] && b == b[..|b| - 1] + [b[|b| - 1]];
  }

  lemma LastDigit(a: string, n: nat)
    requires Writes(a, n)
    ensures Digit(a[|a| - 1]) == n % 10
    ensures n < 10 ==> |a| == 1
    ensures n >= 10 ==> |a| > 1 && Writes(a[..|a| - 1], n / 10)
  {
    var init := a[..|a| - 1];
    assert IsDigit(a[|a| - 1]);
    assert forall c :: c in init ==> c in a;
    if init != "" {
      assert init[0] == a[0];
      FirstDigit(init);
    }
  }

  lemma {:induction false} FirstDigit(a: string)
    requires a != "" && (forall c :: c in a ==> IsDigit(c)) && a[0] != '0'
    ensures ValueOf(a) > 0
  {
    var init := a[..|a| - 1];
    assert forall c :: c in init ==> c in a;
    assert IsDigit(a[0]) && IsDigit(a[|a| - 1]);
    if init != "" {
      FirstDigit(init);
    }
  }

  /** How a finished request is counted: a canceled one as canceled, whatever else happened to it. */
  lemma OutcomeExactly(r: Record, status: nat, canceled: bool, writeFailed: bool, latency: int)
    ensures var done := Resolved(r, status, canceled, writeFailed, latency);
            && (done.result == "canceled" <==> canceled || (!writeFailed && r.result == "canceled"))
            && (done.result == "ok" <==>
                  !canceled && !writeFailed && (r.result == "ok" || (r.result == "" && status < 400)))
            && (!canceled && writeFailed ==> done.result == "downstream_error")
            && (!canceled && !writeFailed && r.result != "" ==> done.result == r.result)
            && (!canceled && !writeFailed && r.result == "" && status >= 400 ==>
                  |done.result| >= 5 && done.result[..5] == "http_" && Writes(done.result[5..], status))
            && done.result != "" && done == r.(status := status, latency := latency, result := done.result)
  {
    var http := "http_" + Decimal(status);
    DecimalWrites(status);
    assert http[..5] == "http_" && http[5..] == Decimal(status);
    assert http[0] == 'h' && "ok"[0] != 'h' && "canceled"[0] != 'h';
    hide Writes, Decimal;
  }

  // ---------------------------------------------------------------- recent requests

  /** Where the endpoint's requests among the last n are in the history, newest first. */
  function Positions(history: seq<Record>, n: nat, e: Endpoint): seq<nat> {
    if n == 0 || history == [] then [] else
    var last := |history| - 1;
    (if history[last].endpoint == e then [last] else []) + Positions(history[..last], n - 1, e)
  }

  /** The position is one of the endpoint's among the last n. */
  predicate Recent(history: seq<Record>, n: nat, e: Endpoint, k: int) {
    0 <= k < |history| && |history| - n <= k && history[k].endpoint == e
  }

  lemma RecentStep(history: seq<Record>, n: nat, e: Endpoint, k: int)
    requires n > 0 && history != []
    ensures var last := |history| - 1;
            Recent(history, n, e, k) <==>
              (k == last && history[last].endpoint == e) || Recent(history[..last], n - 1, e, k)
  {
  }

  lemma {:induction false} PositionsAreRecent(history: seq<Record>, n: nat, e: Endpoint, k: nat)
    ensures k in Positions(history, n, e) <==> Recent(history, n, e, k)
  {
    if n > 0 && history != [] {
      RecentStep(history, n, e, k);
      PositionsAreRecent(history[..|history| - 1], n - 1, e, k);
      hide Recent;
    }
  }

  lemma {:induction false} PositionsDescend(history: seq<Record>, n: nat, e: Endpoint)
    ensures forall k :: k in Positions(history, n, e) ==> k < |history|
    ensures forall i, j :: 0 <= i < j < |Positions(history, n, e)| ==>
              Positions(history, n, e)[i] > Positions(history, n, e)[j]
  {
    if n > 0 && history != [] {
      PositionsDescend(history[..|history| - 1], n - 1, e);
      var rest := Positions(history[..|history| - 1], n - 1, e);
      assert forall i :: 0 <= i < |rest| ==> rest[i] in rest;
    }
  }

  lemma {:induction false} NewestAt(history: seq<Record>, n: nat, e: Endpoint, i: nat)
    ensures |Newest(history, n, e)| == |Positions(history, n, e)|
    ensures i < |Newest(history, n, e)| ==>
              var k := Positions(history, n, e)[i]; k < |history| && Newest(history, n, e)[i] == history[k]
  {
    if n > 0 && history != [] {
      var last := |history| - 1;
      NewestAt(history[..last], n - 1, e, if history[last].endpoint == e && i > 0 then i - 1 else i);
    }
  }

  /** A snapshot's recent requests are exactly the endpoint's among the last n finished, newest first. */
  lemma RecentArePicked(history: seq<Record>, n: nat, e: Endpoint) returns (at: seq<nat>)
    ensures forall k: nat :: k in at <==> Recent(history, n, e, k)
    ensures forall i, j :: 0 <= i < j < |at| ==> at[i] > at[j]
    ensures |Newest(history, n, e)| == |at|
    ensures forall i :: 0 <= i < |at| ==> at[i] < |history| && Newest(history, n, e)[i] == history[at[i]]
  {
    at := Positions(history, n, e);
    PositionsDescend(history, n, e);
    hide Positions, Newest, Recent;
    NewestAt(history, n, e, 0);
    forall k: nat
      ensures k in at <==> Recent(history, n, e, k)
    {
      PositionsAreRecent(history, n, e, k);
    }
    forall i | 0 <= i < |at|
      ensures at[i] < |history| && Newest(history, n, e)[i] == history[at[i]]
    {
      NewestAt(history, n, e, i);
    }
  }

  /** The ring holds as many requests as asked for, within 1 and 1000, or 100 if none were. */
  lemma RingSize(requested: int)
    ensures 1 <= Capacity(requested) <= 1000
    ensures 1 <= requested <= 1000 ==> Capacity(requested) == requested
    ensures requested < 1 ==> Capacity(requested) == 100
    ensures requested > 1000 ==> Capacity(requested) == 1000
  {
  }

  /** A model's name is kept unless it is longer than 160 characters. */
  lemma ModelNames(r: Record, model: string, streamed: bool)
    ensures var named := WithModel(r, model, streamed);
            && named == r.(model := named.model, streamed := streamed)
            && (|model| <= 160 ==> named.model == model) && (|model| > 160 ==> named.model == "[long model ID]")
  {
  }
}
