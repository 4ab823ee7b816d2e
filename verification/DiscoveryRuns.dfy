/**
 Concurrent discovery runs over one store: what every interleaving of their steps keeps.
 A page and its products, which one transaction stores, are separate steps here.
 */
module DiscoveryRuns {
  import opened Prelude
  import opened Discovery

  /** `granted` logs the owner of every claim that allowed a gateway call. */
  datatype World = World(store: Store, granted: seq<RunId>)

  datatype Event =
    | Created(run: RunId, operation: Operation, maxResults: nat, maxApiCalls: nat, leaseUntil: Time)
    | Claimed(run: RunId, key: Key, now: Time, leaseUntil: Time, token: Token)
    | PageStored(run: RunId, key: Key, token: Token, page: Page, now: Time)
    | ProductRecorded(run: RunId, product: Product, origin: Origin)
    | QueryFailed(run: RunId, key: Key, token: Token, state: RunState, reason: StopReason)
    | RunFinished(run: RunId, state: RunState, reason: StopReason)

  function Start(): World {
    World(Store(map[], map[], map[], map[], []), [])
  }

  /** _fail_query: the claim goes only if the run's end commits. */
  function FailQuery(s: Store, run: RunId, key: Key, token: Token, state: RunState, reason: StopReason)
    : Result<Store, DiscoveryError>
    requires state != Running
  {
    FinishRun(Abandon(s, key, token), run, state, reason)
  }

  function Commit(s: Store, r: Result<Store, DiscoveryError>): Store {
    if r.Ok? then r.value else s
  }

  function Next(w: World, e: Event): World {
    match e
    case Created(run, operation, maxResults, maxApiCalls, leaseUntil) =>
      if run in w.store.runs then w
      else w.(store := CreateRun(w.store, run, operation, maxResults, maxApiCalls, leaseUntil))
    case Claimed(run, key, now, leaseUntil, token) => NextClaim(w, run, key, now, leaseUntil, token)
    case PageStored(run, key, token, page, now) =>
      w.(store := Commit(w.store, FinishQuery(w.store, run, key, token, page, now)))
    case ProductRecorded(run, product, origin) =>
      (match RecordProduct(w.store, run, product, origin)
       case Err(_) => w
       case Ok((s, _)) => w.(store := s))
    case QueryFailed(run, key, token, state, reason) =>
      if state == Running then w else w.(store := Commit(w.store, FailQuery(w.store, run, key, token, state, reason)))
    case RunFinished(run, state, reason) =>
      if state == Running then w else w.(store := Commit(w.store, FinishRun(w.store, run, state, reason)))
  }

  function NextClaim(w: World, run: RunId, key: Key, now: Time, leaseUntil: Time, token: Token): World {
    match ClaimQuery(w.store, run, key, now, leaseUntil, token)
    case Err(_) => w
    case Ok((s, claim)) => World(s, if claim.Call? then w.granted + [run] else w.granted)
  }

  function History(events: seq<Event>): World {
    if events == [] then Start()
    else Next(History(events[..|events| - 1]), events[|events| - 1])
  }

  // -------------------------------------------------------------- invariants

  function Count(log: seq<RunId>, run: RunId): nat {
    if log == [] then 0 else Count(log[..|log| - 1], run) + if log[|log| - 1] == run then 1 else 0
  }

  function CountSnapshots(snapshots: seq<Snapshot>, run: RunId): nat {
    if snapshots == [] then 0
    else CountSnapshots(snapshots[..|snapshots| - 1], run) + if snapshots[|snapshots| - 1].run == run then 1 else 0
  }

  ghost predicate KeysDisjoint(s: Store) {
    s.claims.Keys !! s.cache.Keys
  }

  /** A result has a snapshot exactly when it is LIVE with a price, and it is its own. */
  ghost predicate RowOk(snapshots: seq<Snapshot>, run: RunId, product: ProductId, row: Row) {
    && (row.snapshot.Some? <==> row.origin == Live && row.price.Some?)
    && (row.snapshot.Some? ==>
          row.snapshot.value < |snapshots| && snapshots[row.snapshot.value] == Snapshot(run, product, row.price.value))
  }

  ghost predicate ResultsOk(s: Store) {
    && (forall run | run in s.results :: forall p | p in s.results[run] :: RowOk(s.snapshots, run, p, s.results[run][p]))
    && (forall i | 0 <= i < |s.snapshots| ::
          var shot := s.snapshots[i];
          shot.run in s.results && shot.product in s.results[shot.run]
          && s.results[shot.run][shot.product].snapshot == Some(i))
  }

  ghost predicate CountersOk(s: Store) {
    && s.runs.Keys == s.results.Keys
    && forall run | run in s.runs ::
         && s.runs[run].unique == |s.results[run]| <= s.runs[run].maxResults
         && s.runs[run].snapshots == CountSnapshots(s.snapshots, run)
  }

  ghost predicate CallsOk(s: Store, granted: seq<RunId>) {
    && (forall run | run in s.runs :: s.runs[run].apiCalls == Count(granted, run) <= s.runs[run].maxApiCalls)
    && (forall i | 0 <= i < |granted| :: granted[i] in s.runs)
  }

  ghost predicate TablesOk(s: Store) {
    KeysDisjoint(s) && ResultsOk(s) && CountersOk(s)
  }

  ghost predicate Inv(w: World) {
    TablesOk(w.store) && CallsOk(w.store, w.granted)
  }

  lemma {:induction false} NothingCounted(log: seq<RunId>, snapshots: seq<Snapshot>, run: RunId)
    requires forall i | 0 <= i < |log| :: log[i] != run
    requires forall i | 0 <= i < |snapshots| :: snapshots[i].run != run
    ensures Count(log, run) == 0 && CountSnapshots(snapshots, run) == 0
    decreases |log| + |snapshots|
  {
    if log != [] {
      NothingCounted(log[..|log| - 1], [], run);
    }
    if snapshots != [] && log == [] {
      NothingCounted([], snapshots[..|snapshots| - 1], run);
    } else if snapshots != [] {
      NothingCounted([], snapshots, run);
    }
  }

  lemma OneMoreCounted(log: seq<RunId>, snapshots: seq<Snapshot>, run: RunId, shot: Snapshot, x: RunId)
    ensures Count(log + [run], x) == Count(log, x) + if run == x then 1 else 0
    ensures CountSnapshots(snapshots + [shot], x) == CountSnapshots(snapshots, x) + if shot.run == x then 1 else 0
  {
    assert (log + [run])[..|log|] == log && (snapshots + [shot])[..|snapshots|] == snapshots;
  }

  lemma CreateKeepsTables(s: Store, run: RunId, operation: Operation, maxResults: nat, maxApiCalls: nat, leaseUntil: Time)
    requires TablesOk(s) && run !in s.runs
    ensures TablesOk(CreateRun(s, run, operation, maxResults, maxApiCalls, leaseUntil))
  {
    NothingCounted([], s.snapshots, run);
  }

  lemma CreateKeepsInv(w: World, run: RunId, operation: Operation, maxResults: nat, maxApiCalls: nat, leaseUntil: Time)
    requires Inv(w) && run !in w.store.runs
    ensures Inv(w.(store := CreateRun(w.store, run, operation, maxResults, maxApiCalls, leaseUntil)))
  {
    CreateKeepsTables(w.store, run, operation, maxResults, maxApiCalls, leaseUntil);
    NothingCounted(w.granted, [], run);
  }

  ghost predicate SameLimits(a: Run, b: Run) {
    a.operation == b.operation && a.maxResults == b.maxResults && a.maxApiCalls == b.maxApiCalls
  }

  /** Nothing happened to results and to the counters that mirror them. */
  ghost predicate CountersFrame(s: Store, s': Store) {
    && s'.results == s.results && s'.snapshots == s.snapshots && s'.runs.Keys == s.runs.Keys
    && forall r | r in s.runs ::
         SameLimits(s.runs[r], s'.runs[r]) && s'.runs[r].unique == s.runs[r].unique
         && s'.runs[r].snapshots == s.runs[r].snapshots
  }

  lemma FrameKeepsCounters(s: Store, s': Store)
    requires ResultsOk(s) && CountersOk(s) && CountersFrame(s, s')
    ensures ResultsOk(s') && CountersOk(s')
  {
  }

  lemma FrameKeepsCalls(s: Store, s': Store, granted: seq<RunId>)
    requires CallsOk(s, granted) && s'.runs.Keys == s.runs.Keys
    requires forall r | r in s.runs :: SameLimits(s.runs[r], s'.runs[r]) && s'.runs[r].apiCalls == s.runs[r].apiCalls
    ensures CallsOk(s', granted)
  {
  }

  /** Recovery, purge and lease refresh touch neither results nor counters. */
  lemma RefreshedFrame(s: Store, run: RunId, now: Time, leaseUntil: Time)
    requires run in s.runs
    ensures var t := Refreshed(s, run, now, leaseUntil);
      && CountersFrame(s, t)
      && t.claims.Keys <= s.claims.Keys && t.cache.Keys <= s.cache.Keys
      && t.runs[run] == s.runs[run].(leaseUntil := Some(leaseUntil))
      && (forall r | r in s.runs :: t.runs[r].apiCalls == s.runs[r].apiCalls)
  {
  }

  lemma ClaimKeepsTables(s: Store, run: RunId, key: Key, now: Time, leaseUntil: Time, token: Token)
    requires TablesOk(s) && ClaimQuery(s, run, key, now, leaseUntil, token).Ok?
    ensures TablesOk(ClaimQuery(s, run, key, now, leaseUntil, token).value.0)
  {
    ClaimEffect(s, run, key, now, leaseUntil, token);
    FrameKeepsCounters(s, ClaimQuery(s, run, key, now, leaseUntil, token).value.0);
  }

  lemma ClaimKeepsInv(w: World, run: RunId, key: Key, now: Time, leaseUntil: Time, token: Token)
    requires Inv(w)
    ensures Inv(NextClaim(w, run, key, now, leaseUntil, token))
  {
    var w' := NextClaim(w, run, key, now, leaseUntil, token);
    if ClaimQuery(w.store, run, key, now, leaseUntil, token).Ok? {
      ClaimEffect(w.store, run, key, now, leaseUntil, token);
      ClaimKeepsTables(w.store, run, key, now, leaseUntil, token);
      if w'.granted == w.granted {
        FrameKeepsCalls(w.store, w'.store, w.granted);
      } else {
        GrantKeepsCalls(w.store, w'.store, w.granted, run);
      }
    }
  }

  /** What a committed claim changed. */
  lemma ClaimEffect(s: Store, run: RunId, key: Key, now: Time, leaseUntil: Time, token: Token)
    requires ClaimQuery(s, run, key, now, leaseUntil, token).Ok?
    ensures var (s', claim) := ClaimQuery(s, run, key, now, leaseUntil, token).value;
      && run in s.runs && CountersFrame(s, s')
      && s'.cache.Keys <= s.cache.Keys
      && (claim.Call? ==> key !in s'.cache && s'.claims.Keys <= s.claims.Keys + {key}
                          && s.runs[run].apiCalls < s.runs[run].maxApiCalls)
      && (!claim.Call? ==> s'.claims.Keys <= s.claims.Keys)
      && (forall r | r in s.runs ::
            s'.runs[r].apiCalls == s.runs[r].apiCalls + if claim.Call? && r == run then 1 else 0)
  {
    RefreshedFrame(s, run, now, leaseUntil);
  }

  lemma GrantKeepsCalls(s: Store, s': Store, granted: seq<RunId>, run: RunId)
    requires CallsOk(s, granted) && run in s.runs && s'.runs.Keys == s.runs.Keys
    requires s.runs[run].apiCalls < s.runs[run].maxApiCalls
    requires forall r | r in s.runs ::
               SameLimits(s.runs[r], s'.runs[r]) && s'.runs[r].apiCalls == s.runs[r].apiCalls + if r == run then 1 else 0
    ensures CallsOk(s', granted + [run])
  {
    forall r | r in s'.runs ensures s'.runs[r].apiCalls == Count(granted + [run], r) <= s'.runs[r].maxApiCalls {
      OneMoreCounted(granted, [], run, Snapshot(0, 0, 0.0), r);
    }
  }

  /** A claim that succeeds found no cache row under its key, so its insert cannot collide. */
  lemma FinishKeepsTables(s: Store, run: RunId, key: Key, token: Token, page: Page, now: Time)
    requires TablesOk(s)
    ensures var r := FinishQuery(s, run, key, token, page, now);
      && r != Err(IntegrityError)
      && (r.Ok? ==>
            && TablesOk(r.value) && CountersFrame(s, r.value)
            && forall x | x in s.runs :: r.value.runs[x].apiCalls == s.runs[x].apiCalls)
  {
    match FinishQuery(s, run, key, token, page, now)
    case Ok(t) => FrameKeepsCounters(s, t);
    case Err(_) =>
  }

  lemma OneMoreRow(m: map<ProductId, Row>, p: ProductId, row: Row)
    ensures |m[p := row]| == |m| + if p in m then 0 else 1
  {
    if p in m {
      assert m[p := row].Keys == m.Keys;
    } else {
      assert m[p := row].Keys == m.Keys + {p};
    }
  }

  /** A product without a LIVE result has no snapshot in the run: the insert is free. */
  lemma NoSnapshotYet(s: Store, run: RunId, p: ProductId)
    requires ResultsOk(s) && (p in ResultsOf(s, run) ==> ResultsOf(s, run)[p].origin == FromCache)
    ensures !HasSnapshot(s, run, p)
  {
  }

  /** A row replaced in place, with a snapshot of its own if it became LIVE with a price. */
  ghost predicate RowStored(s: Store, s': Store, run: RunId, p: ProductId, row: Row) {
    && run in s.results && s'.results == s.results[run := ResultsOf(s, run)[p := row]]
    && (p in s.results[run] && s.results[run][p].snapshot.Some? ==>
          row.snapshot == s.results[run][p].snapshot && row.price == s.results[run][p].price && row.origin == Live)
    && (row.snapshot.Some? <==> row.origin == Live && row.price.Some?)
    && (if row.snapshot.Some? && !(p in s.results[run] && s.results[run][p].snapshot.Some?)
        then row.snapshot == Some(|s.snapshots|) && s'.snapshots == s.snapshots + [Snapshot(run, p, row.price.value)]
        else s'.snapshots == s.snapshots)
  }

  lemma StoredKeepsResults(s: Store, s': Store, run: RunId, p: ProductId, row: Row)
    requires ResultsOk(s) && RowStored(s, s', run, p, row)
    ensures ResultsOk(s')
  {
    forall r, q | r in s'.results && q in s'.results[r] ensures RowOk(s'.snapshots, r, q, s'.results[r][q]) {
      if r == run && q == p {
        if q in s.results[run] {
          assert RowOk(s.snapshots, run, q, s.results[run][q]);
        }
      } else {
        assert RowOk(s.snapshots, r, q, s.results[r][q]);
      }
    }
    forall i | 0 <= i < |s'.snapshots|
      ensures var shot := s'.snapshots[i];
        shot.run in s'.results && shot.product in s'.results[shot.run]
        && s'.results[shot.run][shot.product].snapshot == Some(i)
    {
      if i < |s.snapshots| {
        var shot := s.snapshots[i];
        assert s'.snapshots[i] == shot;
        assert s.results[shot.run][shot.product].snapshot == Some(i);
      }
    }
  }

  /** What a committed record_product changed, and when it cannot commit. */
  lemma RecordEffect(s: Store, run: RunId, product: Product, origin: Origin)
    requires ResultsOk(s) && s.runs.Keys == s.results.Keys
    ensures var r := RecordProduct(s, run, product, origin);
      && (r.Ok? <==> run in s.runs && (product.id in s.results[run] || s.runs[run].unique < s.runs[run].maxResults))
      && (r.Ok? ==>
            && var (s', recorded) := r.value;
            && product.id in ResultsOf(s', run)
            && RowStored(s, s', run, product.id, s'.results[run][product.id])
            && recorded.insertedUnique == (product.id !in s.results[run])
            && recorded.snapshotCreated == (|s'.snapshots| > |s.snapshots|)
            && s'.claims == s.claims && s'.cache == s.cache
            && s'.runs == s.runs[run := s.runs[run].(
                 unique := s.runs[run].unique + (if recorded.insertedUnique then 1 else 0),
                 snapshots := s.runs[run].snapshots + (if recorded.snapshotCreated then 1 else 0))])
  {
    if run in s.runs {
      var p := product.id;
      if p in s.results[run] {
        assert RowOk(s.snapshots, run, p, s.results[run][p]);
      }
      if !(p in s.results[run] && s.results[run][p].origin == Live) {
        NoSnapshotYet(s, run, p);
      }
    }
  }

  lemma RecordKeepsTables(s: Store, run: RunId, product: Product, origin: Origin)
    requires TablesOk(s)
    ensures var r := RecordProduct(s, run, product, origin);
      r.Ok? ==> TablesOk(r.value.0)
  {
    RecordEffect(s, run, product, origin);
    if RecordProduct(s, run, product, origin).Ok? {
      var (s', recorded) := RecordProduct(s, run, product, origin).value;
      var row := s'.results[run][product.id];
      StoredKeepsResults(s, s', run, product.id, row);
      OneMoreRow(s.results[run], product.id, row);
      forall r | r in s'.runs
        ensures s'.runs[r].unique == |s'.results[r]| <= s'.runs[r].maxResults
        ensures s'.runs[r].snapshots == CountSnapshots(s'.snapshots, r)
      {
        if |s'.snapshots| > |s.snapshots| {
          OneMoreCounted([], s.snapshots, r, s'.snapshots[|s.snapshots|], r);
        }
      }
    }
  }

  /** The same, without looking into the rows. */
  lemma RecordSummary(s: Store, run: RunId, product: Product, origin: Origin)
    requires TablesOk(s)
    ensures var r := RecordProduct(s, run, product, origin);
      && (r.Ok? <==> run in s.runs && (product.id in ResultsOf(s, run) || s.runs[run].unique < s.runs[run].maxResults))
      && (r.Ok? ==>
            && var (t, recorded) := r.value;
            && t.cache == s.cache && t.claims == s.claims && t.runs.Keys == s.runs.Keys
            && recorded.insertedUnique == (product.id !in ResultsOf(s, run))
            && ResultsOf(t, run).Keys == ResultsOf(s, run).Keys + {product.id}
            && t.runs == s.runs[run := s.runs[run].(
                 unique := s.runs[run].unique + (if recorded.insertedUnique then 1 else 0),
                 snapshots := t.runs[run].snapshots)])
  {
    RecordEffect(s, run, product, origin);
    if RecordProduct(s, run, product, origin).Ok? {
      var (t, recorded) := RecordProduct(s, run, product, origin).value;
      assert t.results[run] == ResultsOf(s, run)[product.id := t.results[run][product.id]];
      assert ResultsOf(t, run).Keys == ResultsOf(s, run).Keys + {product.id};
    }
  }

  lemma RecordKeepsInv(s: Store, granted: seq<RunId>, run: RunId, product: Product, origin: Origin)
    requires Inv(World(s, granted))
    ensures var r := RecordProduct(s, run, product, origin);
      r.Ok? ==> Inv(World(r.value.0, granted))
  {
    RecordSummary(s, run, product, origin);
    RecordKeepsTables(s, run, product, origin);
    match RecordProduct(s, run, product, origin)
    case Ok((t, _)) => FrameKeepsCalls(s, t, granted);
    case Err(_) =>
  }

  lemma EndKeepsInv(s: Store, granted: seq<RunId>, run: RunId, state: RunState, reason: StopReason)
    requires Inv(World(s, granted)) && state != Running
    ensures Inv(World(Commit(s, FinishRun(s, run, state, reason)), granted))
  {
    var s' := Commit(s, FinishRun(s, run, state, reason));
    EndFrame(s, run, state, reason);
    FrameKeepsCounters(s, s');
    FrameKeepsCalls(s, s', granted);
  }

  lemma EndFrame(s: Store, run: RunId, state: RunState, reason: StopReason)
    requires state != Running
    ensures var s' := Commit(s, FinishRun(s, run, state, reason));
      && CountersFrame(s, s') && s'.claims == s.claims && s'.cache == s.cache
      && forall r | r in s.runs :: s'.runs[r].apiCalls == s.runs[r].apiCalls
  {
  }

  lemma FailKeepsInv(s: Store, granted: seq<RunId>, run: RunId, key: Key, token: Token, state: RunState, reason: StopReason)
    requires Inv(World(s, granted)) && state != Running
    ensures Inv(World(Commit(s, FailQuery(s, run, key, token, state, reason)), granted))
  {
    var t := Abandon(s, key, token);
    assert t.claims.Keys <= s.claims.Keys;
    FrameKeepsCounters(s, t);
    FrameKeepsCalls(s, t, granted);
    EndKeepsInv(t, granted, run, state, reason);
  }

  lemma NextKeepsInv(w: World, e: Event)
    requires Inv(w)
    ensures Inv(Next(w, e))
  {
    match e
    case Created(run, operation, maxResults, maxApiCalls, leaseUntil) =>
      if run !in w.store.runs { CreateKeepsInv(w, run, operation, maxResults, maxApiCalls, leaseUntil); }
    case Claimed(run, key, now, leaseUntil, token) => ClaimKeepsInv(w, run, key, now, leaseUntil, token);
    case PageStored(run, key, token, page, now) =>
      FinishKeepsTables(w.store, run, key, token, page, now);
      match FinishQuery(w.store, run, key, token, page, now) {
        case Ok(t) => FrameKeepsCalls(w.store, t, w.granted);
        case Err(_) =>
      }
    case ProductRecorded(run, product, origin) => RecordKeepsInv(w.store, w.granted, run, product, origin);
    case QueryFailed(run, key, token, state, reason) =>
      if state != Running { FailKeepsInv(w.store, w.granted, run, key, token, state, reason); }
    case RunFinished(run, state, reason) =>
      if state != Running { EndKeepsInv(w.store, w.granted, run, state, reason); }
  }

  lemma {:induction false} EveryHistoryIsSound(events: seq<Event>)
    ensures Inv(History(events))
  {
    if events != [] {
      EveryHistoryIsSound(events[..|events| - 1]);
      NextKeepsInv(History(events[..|events| - 1]), events[|events| - 1]);
    }
  }

  lemma HistorySnoc(events: seq<Event>, e: Event)
    ensures History(events + [e]) == Next(History(events), e)
  {
    assert (events + [e])[..|events|] == events;
  }
}
