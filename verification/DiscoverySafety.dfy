/** What every history of concurrent discovery runs guarantees. */
module DiscoverySafety {
  import opened Prelude
  import opened Discovery
  import opened DiscoveryRuns

  /** A key is never claimed and cached at once, so finishing a query never collides. */
  lemma {:induction false} FinishNeverCollides(events: seq<Event>, run: RunId, key: Key, token: Token, page: Page, now: Time)
    ensures var s := History(events).store;
      s.claims.Keys !! s.cache.Keys && FinishQuery(s, run, key, token, page, now) != Err(IntegrityError)
  {
    EveryHistoryIsSound(events);
    FinishKeepsTables(History(events).store, run, key, token, page, now);
  }

  /** The budget: a run's counter is the number of calls it was granted, within its limit. */
  lemma {:induction false} CallsAreCounted(events: seq<Event>, run: RunId)
    requires run in History(events).store.runs
    ensures var w := History(events);
      w.store.runs[run].apiCalls == Count(w.granted, run) <= w.store.runs[run].maxApiCalls
  {
    EveryHistoryIsSound(events);
  }

  /** The counters of a run are the sizes of its tables, and no product has two snapshots. */
  lemma {:induction false} CountersMatchTables(events: seq<Event>, run: RunId)
    requires run in History(events).store.runs
    ensures var s := History(events).store;
      && s.runs[run].unique == |ResultsOf(s, run)| <= s.runs[run].maxResults
      && s.runs[run].snapshots == CountSnapshots(s.snapshots, run)
      && (forall p | p in ResultsOf(s, run) ::
            var row := ResultsOf(s, run)[p];
            (row.snapshot.Some? <==> row.origin == Live && row.price.Some?)
            && (row.snapshot.Some? ==>
                  row.snapshot.value < |s.snapshots|
                  && s.snapshots[row.snapshot.value] == Snapshot(run, p, row.price.value)))
      && (forall i, j | 0 <= i < j < |s.snapshots| ::
            !(s.snapshots[i].run == s.snapshots[j].run && s.snapshots[i].product == s.snapshots[j].product))
  {
    EveryHistoryIsSound(events);
    var s := History(events).store;
    forall p | p in ResultsOf(s, run)
      ensures RowOk(s.snapshots, run, p, ResultsOf(s, run)[p])
    {
    }
  }

  // ----------------------------------------------------------------- the cache

  /** Only the holder of the key's unexpired claim ever fills the cache, with its own page,
      and a page once cached is not replaced before it is purged. */
  lemma {:induction false} OnlyTheHolderFillsTheCache(events: seq<Event>, e: Event, key: Key)
    requires key in Next(History(events), e).store.cache
    ensures var s, s' := History(events).store, Next(History(events), e).store;
      if key in s.cache then s'.cache[key] == s.cache[key]
      else e.PageStored? && e.key == key && OwnsClaim(s, e.run, key, e.token, e.now)
           && Decode(s'.cache[key]) == e.page && s'.cache[key].expiresAt == e.now + CACHE_TTL
  {
    EveryHistoryIsSound(events);
    HolderFills(History(events), e, key);
  }

  lemma HolderFills(w: World, e: Event, key: Key)
    requires KeysDisjoint(w.store) && key in Next(w, e).store.cache
    ensures var s, s' := w.store, Next(w, e).store;
      if key in s.cache then s'.cache[key] == s.cache[key]
      else e.PageStored? && e.key == key && OwnsClaim(s, e.run, key, e.token, e.now)
           && Decode(s'.cache[key]) == e.page && s'.cache[key].expiresAt == e.now + CACHE_TTL
  {
    if e.PageStored? {
      CacheRoundTrip(e.page, if e.run in w.store.runs then w.store.runs[e.run].operation else ProductQuery, e.now);
    }
  }

  // -------------------------------------------------------------- LIVE is final

  ghost predicate IsLive(s: Store, run: RunId, p: ProductId) {
    p in ResultsOf(s, run) && ResultsOf(s, run)[p].origin == Live
  }

  ghost predicate LiveKept(s: Store, s': Store) {
    forall run, p | IsLive(s, run, p) ::
      IsLive(s', run, p) && ResultsOf(s', run)[p].snapshot == ResultsOf(s, run)[p].snapshot
      && ResultsOf(s', run)[p].price == ResultsOf(s, run)[p].price
  }

  lemma RecordKeepsLive(s: Store, run: RunId, product: Product, origin: Origin)
    ensures var r := RecordProduct(s, run, product, origin);
      r.Ok? ==> LiveKept(s, r.value.0)
  {
  }

  lemma NextKeepsLive(w: World, e: Event)
    requires CountersOk(w.store)
    ensures LiveKept(w.store, Next(w, e).store)
  {
    match e
    case ProductRecorded(run, product, origin) => RecordKeepsLive(w.store, run, product, origin);
    case _ => OtherEventsKeepResults(w, e);
  }

  lemma OtherEventsKeepResults(w: World, e: Event)
    requires CountersOk(w.store) && !e.ProductRecorded?
    ensures forall run :: ResultsOf(Next(w, e).store, run) == ResultsOf(w.store, run)
  {
    if e.Claimed? {
      ClaimKeepsResults(w, e);
    } else {
      EndsKeepResults(w, e);
    }
  }

  lemma ClaimKeepsResults(w: World, e: Event)
    requires e.Claimed?
    ensures Next(w, e).store.results == w.store.results
  {
  }

  lemma EndsKeepResults(w: World, e: Event)
    requires CountersOk(w.store) && !e.ProductRecorded? && !e.Claimed?
    ensures forall run :: ResultsOf(Next(w, e).store, run) == ResultsOf(w.store, run)
  {
    if e.Created? {
      assert e.run !in w.store.runs ==> e.run !in w.store.results;
    }
  }

  /** A LIVE result never turns back into a cached one; its price and snapshot are final. */
  lemma {:induction false} LiveNeverReverts(a: seq<Event>, b: seq<Event>)
    ensures LiveKept(History(a).store, History(a + b).store)
  {
    if b == [] {
      assert a + b == a;
    } else {
      var n := |b| - 1;
      LiveNeverReverts(a, b[..n]);
      EveryHistoryIsSound(a + b[..n]);
      assert a + b == a + b[..n] + [b[n]];
      HistorySnoc(a + b[..n], b[n]);
      NextKeepsLive(History(a + b[..n]), b[n]);
    }
  }

  // ------------------------------------------------------- reachable stores

  ghost predicate Sound(s: Store) {
    exists events :: s == History(events).store
  }

  lemma SoundIsOk(s: Store)
    requires Sound(s)
    ensures TablesOk(s)
  {
    var events :| s == History(events).store;
    EveryHistoryIsSound(events);
  }

  lemma SoundStep(s: Store, e: Event)
    requires Sound(s)
    ensures Sound(Next(World(s, []), e).store)
  {
    var events :| s == History(events).store;
    HistorySnoc(events, e);
    SameStore(History(events), World(s, []), e);
  }

  /** The log of grants decides nothing. */
  lemma SameStore(v: World, w: World, e: Event)
    requires v.store == w.store
    ensures Next(v, e).store == Next(w, e).store
  {
  }

  lemma SoundCreate(s: Store, run: RunId, operation: Operation, maxResults: nat, maxApiCalls: nat, leaseUntil: Time)
    requires Sound(s) && run !in s.runs
    ensures Sound(CreateRun(s, run, operation, maxResults, maxApiCalls, leaseUntil))
  {
    SoundStep(s, Created(run, operation, maxResults, maxApiCalls, leaseUntil));
  }

  lemma SoundClaim(s: Store, run: RunId, key: Key, now: Time, leaseUntil: Time, token: Token)
    requires Sound(s) && ClaimQuery(s, run, key, now, leaseUntil, token).Ok?
    ensures Sound(ClaimQuery(s, run, key, now, leaseUntil, token).value.0)
  {
    SoundStep(s, Claimed(run, key, now, leaseUntil, token));
  }

  lemma SoundFinish(s: Store, run: RunId, key: Key, token: Token, page: Page, now: Time)
    requires Sound(s)
    ensures FinishQuery(s, run, key, token, page, now) != Err(IntegrityError)
    ensures FinishQuery(s, run, key, token, page, now).Ok? ==> Sound(FinishQuery(s, run, key, token, page, now).value)
  {
    SoundIsOk(s);
    FinishKeepsTables(s, run, key, token, page, now);
    SoundStep(s, PageStored(run, key, token, page, now));
  }

  lemma SoundRecord(s: Store, run: RunId, product: Product, origin: Origin)
    requires Sound(s)
    ensures var r := RecordProduct(s, run, product, origin);
      && (r.Ok? <==> run in s.runs && (product.id in ResultsOf(s, run) || s.runs[run].unique < s.runs[run].maxResults))
      && (r.Ok? ==>
            && var (t, recorded) := r.value;
            && Sound(t) && t.cache == s.cache
            && recorded.insertedUnique == (product.id !in ResultsOf(s, run))
            && ResultsOf(t, run).Keys == ResultsOf(s, run).Keys + {product.id}
            && t.runs == s.runs[run := s.runs[run].(
                 unique := s.runs[run].unique + (if recorded.insertedUnique then 1 else 0),
                 snapshots := t.runs[run].snapshots)])
  {
    SoundIsOk(s);
    RecordSummary(s, run, product, origin);
    SoundStep(s, ProductRecorded(run, product, origin));
  }

  lemma SoundEnd(s: Store, run: RunId, state: RunState, reason: StopReason)
    requires Sound(s) && state != Running
    ensures Sound(Commit(s, FinishRun(s, run, state, reason)))
  {
    SoundStep(s, RunFinished(run, state, reason));
  }

  lemma SoundFail(s: Store, run: RunId, key: Key, token: Token, state: RunState, reason: StopReason)
    requires Sound(s) && state != Running
    ensures Sound(Commit(s, FailQuery(s, run, key, token, state, reason)))
  {
    SoundStep(s, QueryFailed(run, key, token, state, reason));
  }
}
