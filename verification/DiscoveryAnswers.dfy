/** What each transaction of the discovery tables answers, and all that it changes. */
module DiscoveryAnswers {
  import opened Prelude
  import opened Discovery
  import opened DiscoveryRuns
  import opened DiscoverySafety

  // -------------------------------------------------------------------- runs

  /** A new run is RUNNING under its lease, with nothing counted and nothing found. */
  lemma CreateAnswers(s: Store, run: RunId, operation: Operation, maxResults: nat, maxApiCalls: nat, leaseUntil: Time)
    requires Sound(s) && run !in s.runs
    ensures var t := CreateRun(s, run, operation, maxResults, maxApiCalls, leaseUntil);
      && t.claims == s.claims && t.cache == s.cache && t.snapshots == s.snapshots
      && t.runs.Keys == s.runs.Keys + {run} && (forall r | r in s.runs :: t.runs[r] == s.runs[r] && ResultsOf(t, r) == ResultsOf(s, r))
      && t.runs[run] == Run(operation, Running, Some(leaseUntil), maxResults, maxApiCalls, 0, 0, 0, 0, 0, 0, None)
      && ResultsOf(t, run) == map[]
  {
  }

  // ------------------------------------------------------------------- claims

  ghost predicate CachedNow(s: Store, key: Key, now: Time) {
    key in s.cache && now < s.cache[key].expiresAt
  }

  ghost predicate HeldNow(s: Store, key: Key, now: Time) {
    key in s.claims && now < s.claims[key].leaseUntil
  }

  /** Another run that is over: its lease has run out, or the lease of one of its claims. */
  ghost predicate Overdue(s: Store, r: RunId, run: RunId, now: Time) {
    && r in s.runs && r != run && s.runs[r].state == Running
    && ((s.runs[r].leaseUntil.Some? && s.runs[r].leaseUntil.value <= now)
        || exists k | k in s.claims :: s.claims[k].owner == r && s.claims[k].leaseUntil <= now)
  }

  /** Everything else that a committed claim does: overdue runs end, expired claims and pages
      go, the run's lease is renewed, and its counters are these. */
  ghost predicate Renewed(s: Store, t: Store, run: RunId, key: Key, now: Time, leaseUntil: Time,
                          calls: nat, hits: nat, pages: nat, received: nat) {
    && t.results == s.results && t.snapshots == s.snapshots && t.runs.Keys == s.runs.Keys && run in s.runs
    && (forall k :: k in t.cache <==> CachedNow(s, k, now)) && (forall k | k in t.cache :: t.cache[k] == s.cache[k])
    && (forall k | k != key :: k in t.claims <==> HeldNow(s, k, now))
    && (forall k | k in t.claims && k != key :: t.claims[k] == s.claims[k])
    && (forall r | r in s.runs && r != run ::
          t.runs[r] == if Overdue(s, r, run, now)
                       then s.runs[r].(state := Uncertain, leaseUntil := None, reason := Some(LeaseExpired)) else s.runs[r])
    && t.runs[run] == s.runs[run].(leaseUntil := Some(leaseUntil), apiCalls := calls, cacheHits := hits,
                                   pages := pages, received := received)
  }

  /** claim_query answers from the cache while the page lives; otherwise somebody else is
      asking, or the budget is spent, or the call is granted and counted. */
  lemma ClaimAnswers(s: Store, run: RunId, key: Key, now: Time, leaseUntil: Time, token: Token)
    ensures var r := ClaimQuery(s, run, key, now, leaseUntil, token);
      if run !in s.runs || s.runs[run].state != Running then r == Err(RunNotActive)
      else
        var row := s.runs[run];
        if CachedNow(s, key, now) then
          if s.cache[key].source != row.operation then r == Err(CacheSourceMismatch)
          else
            && r.Ok? && r.value.1 == Cached(Decode(s.cache[key]))
            && Renewed(s, r.value.0, run, key, now, leaseUntil, row.apiCalls, row.cacheHits + 1, row.pages + 1,
                       row.received + s.cache[key].itemCount)
            && (key in r.value.0.claims <==> HeldNow(s, key, now))
        else if HeldNow(s, key, now) then
          && r.Ok? && r.value.1 == InProgress && key in r.value.0.claims && r.value.0.claims[key] == s.claims[key]
          && Renewed(s, r.value.0, run, key, now, leaseUntil, row.apiCalls, row.cacheHits, row.pages, row.received)
        else if row.apiCalls >= row.maxApiCalls then r == Err(BudgetExhausted)
        else
          && r.Ok? && r.value.1 == Call(token) && key in r.value.0.claims
          && r.value.0.claims[key] == Claim(run, token, leaseUntil)
          && Renewed(s, r.value.0, run, key, now, leaseUntil, row.apiCalls + 1, row.cacheHits, row.pages, row.received)
  {
    if run in s.runs && s.runs[run].state == Running {
      var t := Refreshed(s, run, now, leaseUntil);
      RefreshedIs(s, run, key, now, leaseUntil);
      assert key in t.cache <==> CachedNow(s, key, now);
      assert key in t.claims <==> HeldNow(s, key, now);
    }
  }

  lemma RefreshedIs(s: Store, run: RunId, key: Key, now: Time, leaseUntil: Time)
    requires run in s.runs
    ensures var row := s.runs[run];
      Renewed(s, Refreshed(s, run, now, leaseUntil), run, key, now, leaseUntil, row.apiCalls, row.cacheHits, row.pages, row.received)
  {
  }

  // ------------------------------------------------------------------- pages

  /** Only the holder of an unexpired claim may store its page, which then lives an hour. */
  lemma FinishAnswers(s: Store, run: RunId, key: Key, token: Token, page: Page, now: Time)
    requires Sound(s)
    ensures var r := FinishQuery(s, run, key, token, page, now);
      var held := HeldNow(s, key, now) && s.claims[key].owner == run && s.claims[key].token == token;
      if !held then r == Err(LeaseLost)
      else if run !in s.runs then r == Err(RunNotFound)
      else
        && r.Ok? && r.value.claims == s.claims - {key} && r.value.results == s.results && r.value.snapshots == s.snapshots
        && key !in s.cache && key in r.value.cache && r.value.cache == s.cache[key := r.value.cache[key]]
        && Decode(r.value.cache[key]) == page && r.value.cache[key].expiresAt == now + 3600
        && r.value.cache[key].source == s.runs[run].operation
        && r.value.cache[key].itemCount == |page.products| + page.rejected
        && r.value.runs == s.runs[run := s.runs[run].(
             pages := s.runs[run].pages + 1, received := s.runs[run].received + |page.products| + page.rejected)]
  {
    DisjointKeys(s);
    if run in s.runs && HeldNow(s, key, now) && s.claims[key].owner == run && s.claims[key].token == token {
      StoresPage(s, run, key, token, page, now);
    }
  }

  lemma DisjointKeys(s: Store)
    requires Sound(s)
    ensures s.claims.Keys !! s.cache.Keys
  {
    SoundIsOk(s);
  }

  lemma StoresPage(s: Store, run: RunId, key: Key, token: Token, page: Page, now: Time)
    requires run in s.runs && OwnsClaim(s, run, key, token, now) && key !in s.cache
    ensures var r := FinishQuery(s, run, key, token, page, now);
      && r.Ok? && r.value.claims == s.claims - {key} && r.value.results == s.results && r.value.snapshots == s.snapshots
      && r.value.cache == s.cache[key := Encode(page, s.runs[run].operation, now)]
      && Decode(r.value.cache[key]) == page
      && r.value.runs == s.runs[run := s.runs[run].(
           pages := s.runs[run].pages + 1, received := s.runs[run].received + |page.products| + page.rejected)]
  {
    CacheRoundTrip(page, s.runs[run].operation, now);
  }

  // ------------------------------------------------------------------ results

  /** What a product that is recorded leaves: its row, the run's counters, and a snapshot when
      it is LIVE, priced and not LIVE already. */
  ghost predicate RecordsAs(s: Store, t: Store, run: RunId, product: Product, row: Row, unique: nat, snapped: bool) {
    && run in s.runs && t.claims == s.claims && t.cache == s.cache && t.results == s.results[run := ResultsOf(s, run)[product.id := row]]
    && (snapped ==> product.price.Some?)
    && t.snapshots == s.snapshots + (if snapped then [Snapshot(run, product.id, product.price.value)] else [])
    && t.runs == s.runs[run := s.runs[run].(unique := unique, snapshots := s.runs[run].snapshots + if snapped then 1 else 0)]
  }

  /** A first sighting makes a row, with a snapshot if it is LIVE and priced; a LIVE sighting
      of a product known from the cache takes its place; any other is only counted. */
  lemma RecordAnswers(s: Store, run: RunId, product: Product, origin: Origin)
    requires Sound(s) && run in s.runs
    ensures var r := RecordProduct(s, run, product, origin);
      var snapshot := if product.price.Some? then Some(|s.snapshots|) else None;
      if product.id !in ResultsOf(s, run) then
        if s.runs[run].unique >= s.runs[run].maxResults then r == Err(IntegrityError)
        else
          && r.Ok? && r.value.1 == Recorded(true, origin == Live && snapshot.Some?)
          && RecordsAs(s, r.value.0, run, product, Row(origin, if origin == Live then snapshot else None, product.price, 1),
                       s.runs[run].unique + 1, origin == Live && snapshot.Some?)
      else
        var known := ResultsOf(s, run)[product.id];
        if origin == Live && known.origin == FromCache then
          && r.Ok? && r.value.1 == Recorded(false, snapshot.Some?)
          && RecordsAs(s, r.value.0, run, product, Row(Live, snapshot, product.price, known.matched + 1),
                       s.runs[run].unique, snapshot.Some?)
        else
          && r.Ok? && r.value.1 == Recorded(false, false)
          && RecordsAs(s, r.value.0, run, product, known.(matched := known.matched + 1), s.runs[run].unique, false)
  {
    if product.id !in ResultsOf(s, run) || ResultsOf(s, run)[product.id].origin == FromCache {
      UnsnappedYet(s, run, product.id);
    }
  }

  lemma UnsnappedYet(s: Store, run: RunId, p: ProductId)
    requires Sound(s) && (p in ResultsOf(s, run) ==> ResultsOf(s, run)[p].origin == FromCache)
    ensures !HasSnapshot(s, run, p)
  {
    SoundIsOk(s);
    NoSnapshotYet(s, run, p);
  }
}
