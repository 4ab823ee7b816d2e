/**
 The discovery tables: runs, leased query claims, the page cache, results and price
 snapshots.  One function is one method of aliexpress_discovery_repository.py; `Err`
 rolls its transaction back.
 */
module Discovery {
  import opened Prelude

  type RunId = nat
  type ProductId = nat

  const CACHE_TTL: Time := 3600

  datatype Operation = ProductQuery | HotProductQuery

  /** What the query fingerprint and the tracking fingerprint together identify. */
  datatype Key = Key(operation: Operation, context: nat, keyword: string, page: nat)

  datatype Token = Token(run: RunId, ordinal: nat)

  /** `details` stands for the columns that are only copied. */
  datatype Product = Product(id: ProductId, price: Option<real>, details: nat)

  datatype Page = Page(products: seq<Product>, rejected: nat, currentCount: Option<nat>, totalCount: Option<nat>)

  /** A cache row and its product rows, keyed by ordinal. */
  datatype CacheRow = CacheRow(
    source: Operation, expiresAt: Time, itemCount: nat,
    currentCount: Option<nat>, totalCount: Option<nat>, products: map<nat, Product>)

  datatype Claim = Claim(owner: RunId, token: Token, leaseUntil: Time)

  datatype RunState = Running | Completed | Stopped | ReviewRequired | Uncertain

  datatype StopReason =
    | AllKeywordsCompleted | MaxPages | ShortPage | MaxResults | MaxApiCalls
    | ConcurrentQuery | ProviderFailed | Cancelled | LeaseExpired

  datatype Run = Run(
    operation: Operation, state: RunState, leaseUntil: Option<Time>, maxResults: nat, maxApiCalls: nat,
    apiCalls: nat, cacheHits: nat, pages: nat, received: nat, unique: nat, snapshots: nat,
    reason: Option<StopReason>)

  datatype Origin = Live | FromCache

  datatype Row = Row(origin: Origin, snapshot: Option<nat>, price: Option<real>, matched: nat)

  datatype Snapshot = Snapshot(run: RunId, product: ProductId, price: real)

  /** A snapshot's id is its position: the table is append-only. */
  datatype Store = Store(
    runs: map<RunId, Run>, claims: map<Key, Claim>, cache: map<Key, CacheRow>,
    results: map<RunId, map<ProductId, Row>>, snapshots: seq<Snapshot>)

  datatype QueryClaim = Call(token: Token) | Cached(page: Page) | InProgress

  datatype Recorded = Recorded(insertedUnique: bool, snapshotCreated: bool)

  datatype DiscoveryError =
    | RunNotActive | RunNotFound | CacheSourceMismatch | BudgetExhausted | LeaseLost
    | TransitionConflict | IntegrityError

  // -------------------------------------------------------------- page cache

  predicate IsLeast(keys: set<nat>, m: nat) {
    m in keys && forall k | k in keys :: m <= k
  }

  function Least(keys: set<nat>): (m: nat)
    requires keys != {}
    ensures IsLeast(keys, m)
  {
    LeastExists(keys);
    var m :| m in keys && IsLeast(keys, m);
    m
  }

  lemma {:induction false} LeastExists(keys: set<nat>)
    requires keys != {}
    ensures exists m :: m in keys && IsLeast(keys, m)
  {
    var x :| x in keys;
    var rest := keys - {x};
    assert forall k | k in keys :: k == x || k in rest;
    if rest == {} {
      assert IsLeast(keys, x);
    } else {
      LeastExists(rest);
      var m :| m in rest && IsLeast(rest, m);
      assert IsLeast(keys, if x < m then x else m);
    }
  }

  /** ORDER BY ordinal. */
  function InOrder(products: map<nat, Product>): seq<Product>
    decreases |products|
  {
    if products.Keys == {} then []
    else
      var m := Least(products.Keys);
      assert (products - {m}).Keys == products.Keys - {m};
      [products[m]] + InOrder(products - {m})
  }

  function Numbered(products: seq<Product>, from: nat): map<nat, Product> {
    map i | from <= i < |products| :: products[i]
  }

  function Encode(page: Page, source: Operation, now: Time): CacheRow {
    CacheRow(source, now + CACHE_TTL, |page.products| + page.rejected,
             page.currentCount, page.totalCount, Numbered(page.products, 0))
  }

  function Decode(row: CacheRow): Page {
    var products := InOrder(row.products);
    Page(products, if row.itemCount >= |products| then row.itemCount - |products| else 0,
         row.currentCount, row.totalCount)
  }

  lemma {:induction false} NumberedInOrder(products: seq<Product>, from: nat)
    requires from <= |products|
    ensures InOrder(Numbered(products, from)) == products[from..]
    decreases |products| - from
  {
    var numbered := Numbered(products, from);
    if from == |products| {
      assert numbered.Keys == {};
    } else {
      assert from in numbered.Keys;
      assert numbered - {from} == Numbered(products, from + 1);
      NumberedInOrder(products, from + 1);
    }
  }

  /** A page read back from the cache is the page that was stored. */
  lemma CacheRoundTrip(page: Page, source: Operation, now: Time)
    ensures Decode(Encode(page, source, now)) == page
  {
    NumberedInOrder(page.products, 0);
  }

  // ---------------------------------------------------------------- claims

  function CreateRun(s: Store, run: RunId, operation: Operation, maxResults: nat, maxApiCalls: nat, leaseUntil: Time): Store {
    s.(runs := s.runs[run := Run(operation, Running, Some(leaseUntil), maxResults, maxApiCalls, 0, 0, 0, 0, 0, 0, None)],
       results := s.results[run := map[]])
  }

  predicate OwnsExpiredClaim(claims: map<Key, Claim>, run: RunId, now: Time) {
    exists k | k in claims :: claims[k].owner == run && claims[k].leaseUntil <= now
  }

  predicate RunExpired(s: Store, run: RunId, now: Time)
    requires run in s.runs
  {
    s.runs[run].state == Running
    && ((s.runs[run].leaseUntil.Some? && s.runs[run].leaseUntil.value <= now) || OwnsExpiredClaim(s.claims, run, now))
  }

  /** _recover_expired: it spares the run that calls it. */
  function Recover(s: Store, now: Time, active: RunId): Store {
    s.(runs := map r | r in s.runs ::
         if r != active && RunExpired(s, r, now)
         then s.runs[r].(state := Uncertain, leaseUntil := None, reason := Some(LeaseExpired)) else s.runs[r],
       claims := map k | k in s.claims && s.claims[k].leaseUntil > now :: s.claims[k])
  }

  /** _purge_expired_cache. */
  function PurgeCache(s: Store, now: Time): Store {
    s.(cache := map k | k in s.cache && s.cache[k].expiresAt > now :: s.cache[k])
  }

  /** What claim_query has done before it looks at the page. */
  function Refreshed(s: Store, run: RunId, now: Time, leaseUntil: Time): Store
    requires run in s.runs
  {
    var recovered := Recover(s, now, run);
    PurgeCache(recovered.(runs := recovered.runs[run := s.runs[run].(leaseUntil := Some(leaseUntil))]), now)
  }

  function ClaimQuery(s: Store, run: RunId, key: Key, now: Time, leaseUntil: Time, token: Token)
    : Result<(Store, QueryClaim), DiscoveryError>
  {
    if run !in s.runs || s.runs[run].state != Running then Err(RunNotActive)
    else Answer(Refreshed(s, run, now, leaseUntil), run, key, leaseUntil, token)
  }

  /** The cached page, another claim, or a claim of its own within the budget. */
  function Answer(t: Store, run: RunId, key: Key, leaseUntil: Time, token: Token)
    : Result<(Store, QueryClaim), DiscoveryError>
    requires run in t.runs
  {
    if key in t.cache then
      if t.cache[key].source != t.runs[run].operation then Err(CacheSourceMismatch)
      else
        var row := t.runs[run];
        Ok((t.(runs := t.runs[run := row.(cacheHits := row.cacheHits + 1, pages := row.pages + 1,
                                          received := row.received + t.cache[key].itemCount)]),
            Cached(Decode(t.cache[key]))))
    else if key in t.claims then Ok((t, InProgress))
    else if t.runs[run].apiCalls >= t.runs[run].maxApiCalls then Err(BudgetExhausted)
    else Ok((t.(claims := t.claims[key := Claim(run, token, leaseUntil)],
                runs := t.runs[run := t.runs[run].(apiCalls := t.runs[run].apiCalls + 1)]),
             Call(token)))
  }

  predicate OwnsClaim(s: Store, run: RunId, key: Key, token: Token, now: Time) {
    && key in s.claims && s.claims[key].owner == run && s.claims[key].token == token
    && s.claims[key].leaseUntil > now
  }

  function Abandon(s: Store, key: Key, token: Token): Store {
    if key in s.claims && s.claims[key].token == token then s.(claims := s.claims - {key}) else s
  }

  /** finish_query_success: only the holder of an unexpired claim fills the cache. */
  function FinishQuery(s: Store, run: RunId, key: Key, token: Token, page: Page, now: Time): Result<Store, DiscoveryError> {
    if !OwnsClaim(s, run, key, token, now) then Err(LeaseLost)
    else if run !in s.runs then Err(RunNotFound)
    else if key in s.cache then Err(IntegrityError)
    else
      var row := s.runs[run];
      Ok(Abandon(s, key, token).(
           cache := s.cache[key := Encode(page, row.operation, now)],
           runs := s.runs[run := row.(pages := row.pages + 1,
                                      received := row.received + |page.products| + page.rejected)]))
  }

  function FinishRun(s: Store, run: RunId, state: RunState, reason: StopReason): Result<Store, DiscoveryError>
    requires state != Running
  {
    if run !in s.runs || s.runs[run].state != Running then Err(TransitionConflict)
    else Ok(s.(runs := s.runs[run := s.runs[run].(state := state, leaseUntil := None, reason := Some(reason))]))
  }

  // --------------------------------------------------------------- results

  function ResultsOf(s: Store, run: RunId): map<ProductId, Row> {
    if run in s.results then s.results[run] else map[]
  }

  predicate HasSnapshot(s: Store, run: RunId, product: ProductId) {
    exists i | 0 <= i < |s.snapshots| :: s.snapshots[i].run == run && s.snapshots[i].product == product
  }

  /** _create_snapshot: none without a price; (run, product) is a unique key. */
  function CreateSnapshot(s: Store, run: RunId, product: Product): Result<(Store, Option<nat>), DiscoveryError> {
    if product.price.None? then Ok((s, None))
    else if HasSnapshot(s, run, product.id) then Err(IntegrityError)
    else Ok((s.(snapshots := s.snapshots + [Snapshot(run, product.id, product.price.value)]), Some(|s.snapshots|)))
  }

  /** A result row and the run counters that go with it. */
  function StoreRow(s: Store, run: RunId, product: ProductId, row: Row, unique: nat, snapshots: nat): Store
    requires run in s.runs
  {
    s.(results := s.results[run := ResultsOf(s, run)[product := row]],
       runs := s.runs[run := s.runs[run].(unique := unique, snapshots := snapshots)])
  }

  /** record_product; the table rejects more results than max_results. */
  function RecordProduct(s: Store, run: RunId, product: Product, origin: Origin): Result<(Store, Recorded), DiscoveryError> {
    if run !in s.runs then Err(RunNotFound)
    else if product.id in ResultsOf(s, run) then
      var seen := ResultsOf(s, run)[product.id];
      var again := seen.(matched := seen.matched + 1);
      if seen.origin == Live || origin == FromCache then
        Ok((StoreRow(s, run, product.id, again, s.runs[run].unique, s.runs[run].snapshots), Recorded(false, false)))
      else match CreateSnapshot(s, run, product)
        case Err(error) => Err(error)
        case Ok((t, snapshot)) =>
          var row := again.(origin := Live, snapshot := snapshot, price := product.price);
          Ok((StoreRow(t, run, product.id, row, s.runs[run].unique,
                       s.runs[run].snapshots + if snapshot.Some? then 1 else 0),
              Recorded(false, snapshot.Some?)))
    else if s.runs[run].unique >= s.runs[run].maxResults then Err(IntegrityError)
    else match (if origin == Live then CreateSnapshot(s, run, product) else Ok((s, None)))
      case Err(error) => Err(error)
      case Ok((t, snapshot)) =>
        Ok((StoreRow(t, run, product.id, Row(origin, snapshot, product.price, 1), s.runs[run].unique + 1,
                     s.runs[run].snapshots + if snapshot.Some? then 1 else 0),
            Recorded(true, snapshot.Some?)))
  }
}
