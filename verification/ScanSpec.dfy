/**
 The scan of scanner.py as a function of the store, the gateway's answers and the clock:
 keywords in order, pages in order, budgets, early ends.
 */
module ScanSpec {
  import opened Prelude
  import opened Discovery
  import opened DiscoveryRuns
  import opened DiscoverySafety

  const LEASE: Time := 60

  /** `context` stands for the fields of the fingerprint that a scan does not vary. */
  datatype Profile = Profile(
    context: nat, keywords: seq<string>, pageSize: nat, maxPages: nat, maxResults: nat, maxApiCalls: nat)

  datatype Answer = Listed(page: Page) | ProviderFailure(review: bool) | Interrupted

  /** The gateway's answer to the n-th query, and the clock: query n is claimed at reading
      2n and stored at reading 2n + 1. */
  datatype Script = Script(ask: nat -> Answer, clock: nat -> Time)

  /** `visited` and `calls` log the queries claimed and those sent to the gateway, `pages` the
      pages that came back, and `seen` the products handed to record_product. */
  datatype Cursor = Cursor(
    store: Store, run: RunId, unique: nat, visited: seq<Key>, calls: nat, seen: seq<(Product, Origin)>,
    pages: seq<Page>)

  datatype ScanError = StoreFailed(error: DiscoveryError) | ScanCancelled

  datatype Outcome = Ended(state: RunState, reason: StopReason) | Raised(error: ScanError)

  datatype Step = Go(c: Cursor, short: bool) | Halt(c: Cursor, outcome: Outcome)

  function KeyAt(p: Profile, operation: Operation, i: nat, page: nat): Key {
    Key(operation, p.context, if i < |p.keywords| then p.keywords[i] else "", page)
  }

  function Finish(c: Cursor, state: RunState, reason: StopReason): Step
    requires state != Running
  {
    match FinishRun(c.store, c.run, state, reason)
    case Err(error) => Halt(c, Raised(StoreFailed(error)))
    case Ok(s) => Halt(c.(store := s), Ended(state, reason))
  }

  /** What the loop over a page's products leaves; `reached` is the early end at
      max_results. */
  datatype Taken = Taken(store: Store, unique: nat, products: seq<Product>, reached: bool, error: Option<DiscoveryError>)

  function RecordPage(s: Store, run: RunId, products: seq<Product>, origin: Origin, unique: nat, limit: nat): Taken
    decreases |products|
  {
    if products == [] then Taken(s, unique, [], false, None)
    else if unique >= limit then Taken(s, unique, [], true, None)
    else match RecordProduct(s, run, products[0], origin)
      case Err(error) => Taken(s, unique, [], false, Some(error))
      case Ok((t, recorded)) =>
        var rest := RecordPage(t, run, products[1..], origin, unique + (if recorded.insertedUnique then 1 else 0), limit);
        rest.(products := [products[0]] + rest.products)
  }

  function Tagged(products: seq<Product>, origin: Origin): seq<(Product, Origin)> {
    seq(|products|, i requires 0 <= i < |products| => (products[i], origin))
  }

  function AfterRecord(p: Profile, c: Cursor, page: Page, taken: Taken, origin: Origin): Step {
    var d := c.(store := taken.store, unique := taken.unique, seen := c.seen + Tagged(taken.products, origin),
                pages := c.pages + [page]);
    if taken.error.Some? then Halt(d, Raised(StoreFailed(taken.error.value)))
    else if taken.reached then Finish(d, Completed, MaxResults)
    else Go(d, |page.products| + page.rejected < p.pageSize)
  }

  /** _fail_query; a cancellation is raised again after it. */
  function Fail(c: Cursor, key: Key, token: Token, state: RunState, reason: StopReason): Step
    requires state != Running
  {
    match FailQuery(c.store, c.run, key, token, state, reason)
    case Err(error) => Halt(c, Raised(StoreFailed(error)))
    case Ok(s) =>
      Halt(c.(store := s), if reason == Cancelled then Raised(ScanCancelled) else Ended(state, reason))
  }

  /** A granted call: the page is stored and recorded in one transaction, or not at all. */
  function Query(p: Profile, script: Script, c: Cursor, n: nat, key: Key, token: Token): Step {
    match script.ask(n)
    case ProviderFailure(review) => Fail(c, key, token, if review then ReviewRequired else Uncertain, ProviderFailed)
    case Interrupted => Fail(c, key, token, Uncertain, Cancelled)
    case Listed(page) => StoreListed(p, c, key, token, page, script.clock(2 * n + 1))
  }

  function StoreListed(p: Profile, c: Cursor, key: Key, token: Token, page: Page, now: Time): Step {
    match FinishQuery(c.store, c.run, key, token, page, now)
    case Err(error) => Halt(c, Raised(StoreFailed(error)))
    case Ok(s) =>
      var taken := RecordPage(s, c.run, page.products, Live, c.unique, p.maxResults);
      if taken.error.Some? then Halt(c, Raised(StoreFailed(taken.error.value)))
      else AfterRecord(p, c, page, taken, Live)
  }

  /** The claim of the cursor's next query. */
  function ClaimFor(script: Script, c: Cursor, key: Key): Result<(Store, QueryClaim), DiscoveryError> {
    var now := script.clock(2 * |c.visited|);
    ClaimQuery(c.store, c.run, key, now, now + LEASE, Token(c.run, |c.visited|))
  }

  /** One turn of the inner loop. */
  function Visit(p: Profile, operation: Operation, script: Script, c: Cursor, i: nat, page: nat): Step {
    if c.unique >= p.maxResults then Finish(c, Completed, MaxResults)
    else
      var key := KeyAt(p, operation, i, page);
      Resolve(p, script, c, key, ClaimFor(script, c, key))
  }

  function Resolve(p: Profile, script: Script, c: Cursor, key: Key, r: Result<(Store, QueryClaim), DiscoveryError>): Step {
    match r
    case Err(error) =>
      if error == BudgetExhausted then Finish(c, Completed, MaxApiCalls) else Halt(c, Raised(StoreFailed(error)))
    case Ok((s, claim)) => Answered(p, script, AfterClaim(c, key, s, claim), |c.visited|, key, claim)
  }

  /** The cursor of a visit once its claim has committed. */
  function AfterClaim(c: Cursor, key: Key, s: Store, claim: QueryClaim): Cursor {
    c.(store := s, visited := c.visited + [key], calls := c.calls + if claim.Call? then 1 else 0)
  }

  function Answered(p: Profile, script: Script, c: Cursor, n: nat, key: Key, claim: QueryClaim): Step {
    match claim
    case InProgress => Finish(c, Stopped, ConcurrentQuery)
    case Cached(found) =>
      AfterRecord(p, c, found, RecordPage(c.store, c.run, found.products, FromCache, c.unique, p.maxResults), FromCache)
    case Call(token) => Query(p, script, c, n, key, token)
  }

  type Visitor = (Cursor, nat, nat) -> Step

  function Turn(p: Profile, operation: Operation, script: Script): Visitor {
    (c: Cursor, i: nat, page: nat) => Visit(p, operation, script, c, i, page)
  }

  /** Both loops, from page `page` of keyword `i`, with the body of the inner one given. */
  function Loop(turn: Visitor, keywords: nat, maxPages: nat, c: Cursor, i: nat, page: nat, reason: StopReason)
    : (Cursor, Outcome)
    decreases keywords - i, maxPages + 1 - page
  {
    if i >= keywords then
      var last := Finish(c, Completed, reason);
      (last.c, last.outcome)
    else if page > maxPages then Loop(turn, keywords, maxPages, c, i + 1, 1, MaxPages)
    else match turn(c, i, page)
      case Halt(d, outcome) => (d, outcome)
      case Go(d, short) =>
        if short then Loop(turn, keywords, maxPages, d, i + 1, 1, ShortPage)
        else Loop(turn, keywords, maxPages, d, i, page + 1, reason)
  }

  /** One unfolding of the loops, with the turn's step given. */
  lemma LoopTurns(turn: Visitor, keywords: nat, maxPages: nat, c: Cursor, i: nat, page: nat, reason: StopReason, step: Step)
    requires i < keywords && page <= maxPages && turn(c, i, page) == step
    ensures Loop(turn, keywords, maxPages, c, i, page, reason) ==
      match step
      case Halt(d, outcome) => (d, outcome)
      case Go(d, short) =>
        if short then Loop(turn, keywords, maxPages, d, i + 1, 1, ShortPage)
        else Loop(turn, keywords, maxPages, d, i, page + 1, reason)
  {
  }

  function StartOf(s: Store, run: RunId, p: Profile, operation: Operation, started: Time): Cursor {
    Cursor(CreateRun(s, run, operation, p.maxResults, p.maxApiCalls, started + LEASE), run, 0, [], 0, [], [])
  }

  /** scan: a new run, then every keyword. */
  function ScanAll(s: Store, run: RunId, p: Profile, operation: Operation, script: Script, started: Time): (Cursor, Outcome) {
    Loop(Turn(p, operation, script), |p.keywords|, p.maxPages, StartOf(s, run, p, operation, started), 0, 1,
         AllKeywordsCompleted)
  }

  // -------------------------------------------------------------- accounting

  /** The scanner's own counters agree with its run, which it alone drives. */
  ghost predicate CursorOk(p: Profile, operation: Operation, c: Cursor) {
    && Sound(c.store) && c.run in c.store.runs
    && var run := c.store.runs[c.run];
    && run.operation == operation && run.maxResults == p.maxResults && run.maxApiCalls == p.maxApiCalls
    && run.unique == c.unique && run.apiCalls == c.calls <= p.maxApiCalls
  }

  ghost predicate Active(c: Cursor) {
    c.run in c.store.runs && c.store.runs[c.run].state == Running
  }

  /** The products a page adds, decided from ids alone. */
  datatype Picked = Picked(ids: set<ProductId>, unique: nat, taken: nat, reached: bool)

  function Pick(ids: set<ProductId>, products: seq<Product>, unique: nat, limit: nat): Picked
    decreases |products|
  {
    if products == [] then Picked(ids, unique, 0, false)
    else if unique >= limit then Picked(ids, unique, 0, true)
    else
      var rest := Pick(ids + {products[0].id}, products[1..], unique + (if products[0].id in ids then 0 else 1), limit);
      rest.(taken := rest.taken + 1)
  }

  ghost predicate OnlyResultsChanged(s: Store, s': Store, run: RunId) {
    && s'.cache == s.cache && run in s.runs && run in s'.runs
    && s'.runs[run] == s.runs[run].(unique := s'.runs[run].unique, snapshots := s'.runs[run].snapshots)
  }

  ghost predicate Fits(s: Store, run: RunId, unique: nat, limit: nat) {
    Sound(s) && run in s.runs && s.runs[run].unique == unique && s.runs[run].maxResults == limit
  }

  ghost predicate PickedAs(s: Store, run: RunId, taken: Taken, picked: Picked) {
    && taken.error.None? && Sound(taken.store) && OnlyResultsChanged(s, taken.store, run)
    && taken.store.runs[run].unique == taken.unique == picked.unique
    && taken.reached == picked.reached && ResultsOf(taken.store, run).Keys == picked.ids
    && |taken.products| == picked.taken
  }

  /** Recording never fails here, and what it records does not depend on where the page
      came from. */
  lemma {:induction false} RecordPagePicks(s: Store, run: RunId, products: seq<Product>, origin: Origin, unique: nat, limit: nat)
    requires Fits(s, run, unique, limit)
    ensures PickedAs(s, run, RecordPage(s, run, products, origin, unique, limit),
                     Pick(ResultsOf(s, run).Keys, products, unique, limit))
    decreases |products|
  {
    if products != [] && unique < limit {
      SoundRecord(s, run, products[0], origin);
      var (t, recorded) := RecordProduct(s, run, products[0], origin).value;
      RecordPagePicks(t, run, products[1..], origin, t.runs[run].unique, limit);
    }
  }

  lemma {:induction false} RecordPageTakesPrefix(s: Store, run: RunId, products: seq<Product>, origin: Origin,
                                                 unique: nat, limit: nat)
    ensures RecordPage(s, run, products, origin, unique, limit).products <= products
    decreases |products|
  {
    if products != [] && unique < limit {
      match RecordProduct(s, run, products[0], origin)
      case Ok((t, recorded)) =>
        RecordPageTakesPrefix(t, run, products[1..], origin, unique + (if recorded.insertedUnique then 1 else 0), limit);
        assert products == [products[0]] + products[1..];
      case Err(_) =>
    }
  }

  // ------------------------------------------------------------- one visit

  function Ids(c: Cursor): set<ProductId> {
    ResultsOf(c.store, c.run).Keys
  }

  function Products(log: seq<(Product, Origin)>): seq<Product> {
    seq(|log|, i requires 0 <= i < |log| => log[i].0)
  }

  /** What a page makes of a cursor, decided by the page alone. */
  ghost predicate Took(p: Profile, c: Cursor, step: Step, page: Page) {
    var picked := Pick(Ids(c), page.products, c.unique, p.maxResults);
    && picked.taken <= |page.products| && step.c.pages == c.pages + [page]
    && Products(step.c.seen) == Products(c.seen) + page.products[..picked.taken]
    && step.c.run == c.run && step.c.unique == picked.unique && Ids(step.c) == picked.ids
    && (if picked.reached then step.Halt? && step.outcome == Ended(Completed, MaxResults)
        else step.Go? && Active(step.c) && step.short == (|page.products| + page.rejected < p.pageSize))
  }

  lemma FinishAccounts(p: Profile, operation: Operation, c: Cursor, state: RunState, reason: StopReason)
    requires CursorOk(p, operation, c) && Active(c) && state != Running
    ensures var step := Finish(c, state, reason);
      && step.Halt? && step.outcome == Ended(state, reason) && step.c == c.(store := step.c.store)
      && CursorOk(p, operation, step.c) && step.c.store.cache == c.store.cache && Ids(step.c) == Ids(c)
  {
    SoundEnd(c.store, c.run, state, reason);
  }

  lemma AfterRecordShows(p: Profile, operation: Operation, c: Cursor, page: Page, origin: Origin)
    requires CursorOk(p, operation, c) && Active(c)
    ensures var taken := RecordPage(c.store, c.run, page.products, origin, c.unique, p.maxResults);
      var step := AfterRecord(p, c, page, taken, origin);
      && taken.error.None? && CursorOk(p, operation, step.c) && step.c.store.cache == c.store.cache
      && Took(p, c, step, page)
      && step.c.visited == c.visited && step.c.calls == c.calls
      && step.c.seen == c.seen + Tagged(taken.products, origin)
  {
    RecordPagePicks(c.store, c.run, page.products, origin, c.unique, p.maxResults);
    RecordPageTakesPrefix(c.store, c.run, page.products, origin, c.unique, p.maxResults);
    var taken := RecordPage(c.store, c.run, page.products, origin, c.unique, p.maxResults);
    var d := c.(store := taken.store, unique := taken.unique, seen := c.seen + Tagged(taken.products, origin),
                pages := c.pages + [page]);
    assert Products(d.seen) == Products(c.seen) + taken.products;
    if taken.reached {
      FinishAccounts(p, operation, d, Completed, MaxResults);
    }
  }

  /** The page a visit gets to see, if its claim and its call succeed. */
  function PageSeen(script: Script, c: Cursor, key: Key, r: Result<(Store, QueryClaim), DiscoveryError>): Option<Page> {
    match r
    case Err(_) => None
    case Ok((s, claim)) => SeenOf(script, AfterClaim(c, key, s, claim), |c.visited|, key, claim)
  }

  function SeenOf(script: Script, c: Cursor, n: nat, key: Key, claim: QueryClaim): Option<Page> {
    match claim
    case InProgress => None
    case Cached(found) => Some(found)
    case Call(token) =>
      if && script.ask(n).Listed?
         && FinishQuery(c.store, c.run, key, token, script.ask(n).page, script.clock(2 * n + 1)).Ok?
      then Some(script.ask(n).page) else None
  }

  /** Rows that live at least until `deadline` are still there, unchanged. */
  ghost predicate CacheKept(s: Store, s': Store, deadline: Time) {
    forall k | k in s.cache && s.cache[k].expiresAt >= deadline :: k in s'.cache && s'.cache[k] == s.cache[k]
  }

  /** The cache after a visit at `now` that saw `page` under `key`, fetched at `later`
      unless it was there already. */
  ghost predicate CacheStep(s: Store, s': Store, operation: Operation, key: Key, page: Page, now: Time, later: Time) {
    && CacheKept(s, s', now + 1)
    && (forall k | k in s'.cache ::
          (k in s.cache && s'.cache[k] == s.cache[k] && s.cache[k].expiresAt > now)
          || (k == key && s'.cache[k].expiresAt == later + CACHE_TTL))
    && key in s'.cache && s'.cache[key].source == operation && Decode(s'.cache[key]) == page
  }

  /** The cache right after a claim: purged, nothing added. */
  ghost predicate OnlyPurged(c: Cursor, d: Cursor, operation: Operation, key: Key, claim: QueryClaim, now: Time) {
    && d.run == c.run && d.unique == c.unique && Ids(d) == Ids(c) && d.visited == c.visited + [key] && d.seen == c.seen
    && d.pages == c.pages
    && CacheKept(c.store, d.store, now + 1)
    && (forall k | k in d.store.cache ::
          k in c.store.cache && d.store.cache[k] == c.store.cache[k] && d.store.cache[k].expiresAt > now)
    && (claim.Cached? ==> key in d.store.cache && d.store.cache[key].source == operation
                          && Decode(d.store.cache[key]) == claim.page)
  }

  lemma ClaimOnlyPurges(script: Script, c: Cursor, key: Key)
    requires Active(c) && ClaimFor(script, c, key).Ok?
    ensures var (s, claim) := ClaimFor(script, c, key).value;
      OnlyPurged(c, AfterClaim(c, key, s, claim), c.store.runs[c.run].operation, key, claim, script.clock(2 * |c.visited|))
  {
  }

  lemma ClaimedIsOk(p: Profile, operation: Operation, script: Script, c: Cursor, key: Key)
    requires CursorOk(p, operation, c) && Active(c) && ClaimFor(script, c, key).Ok?
    ensures var (s, claim) := ClaimFor(script, c, key).value;
      var d := AfterClaim(c, key, s, claim);
      CursorOk(p, operation, d) && Active(d)
  {
    var now := script.clock(2 * |c.visited|);
    SoundClaim(c.store, c.run, key, now, now + LEASE, Token(c.run, |c.visited|));
  }

  lemma FailAccounts(p: Profile, operation: Operation, c: Cursor, key: Key, token: Token, state: RunState, reason: StopReason)
    requires CursorOk(p, operation, c) && Active(c) && state != Running && state != Completed
    ensures var step := Fail(c, key, token, state, reason);
      step.Halt? && CursorOk(p, operation, step.c)
      && step.outcome == if reason == Cancelled then Raised(ScanCancelled) else Ended(state, reason)
  {
    SoundFail(c.store, c.run, key, token, state, reason);
  }

  ghost predicate Unfinished(step: Step) {
    && step.Halt? && (step.outcome.Ended? ==> step.outcome.state != Completed)
    && step.outcome != Raised(StoreFailed(IntegrityError))
  }

  lemma QueryFails(p: Profile, operation: Operation, script: Script, c: Cursor, n: nat, key: Key, token: Token)
    requires CursorOk(p, operation, c) && Active(c)
    requires script.ask(n).Listed? ==> FinishQuery(c.store, c.run, key, token, script.ask(n).page, script.clock(2 * n + 1)).Err?
    ensures CursorOk(p, operation, Query(p, script, c, n, key, token).c)
    ensures Unfinished(Query(p, script, c, n, key, token))
  {
    match script.ask(n)
    case ProviderFailure(review) =>
      FailAccounts(p, operation, c, key, token, if review then ReviewRequired else Uncertain, ProviderFailed);
    case Interrupted => FailAccounts(p, operation, c, key, token, Uncertain, Cancelled);
    case Listed(page) => SoundFinish(c.store, c.run, key, token, page, script.clock(2 * n + 1));
  }

  lemma StoredPageOk(p: Profile, operation: Operation, c: Cursor, key: Key, token: Token, page: Page, now: Time)
    requires CursorOk(p, operation, c) && Active(c)
    requires FinishQuery(c.store, c.run, key, token, page, now).Ok?
    ensures var d := c.(store := FinishQuery(c.store, c.run, key, token, page, now).value);
      && CursorOk(p, operation, d) && Active(d) && Ids(d) == Ids(c)
      && key !in c.store.cache && d.store.cache == c.store.cache[key := Encode(page, operation, now)]
  {
    SoundFinish(c.store, c.run, key, token, page, now);
  }

  lemma QueryLists(p: Profile, operation: Operation, script: Script, c: Cursor, n: nat, key: Key, token: Token, page: Page)
    requires CursorOk(p, operation, c) && Active(c) && script.ask(n) == Listed(page)
    requires FinishQuery(c.store, c.run, key, token, page, script.clock(2 * n + 1)).Ok?
    ensures var step := Query(p, script, c, n, key, token);
      && CursorOk(p, operation, step.c) && Took(p, c, step, page)
      && step.c.visited == c.visited && step.c.calls == c.calls && key !in c.store.cache
      && step.c.store.cache == c.store.cache[key := Encode(page, operation, script.clock(2 * n + 1))]
  {
    StoredPageOk(p, operation, c, key, token, page, script.clock(2 * n + 1));
    var d := c.(store := FinishQuery(c.store, c.run, key, token, page, script.clock(2 * n + 1)).value);
    AfterRecordShows(p, operation, d, page, Live);
    var taken := RecordPage(d.store, d.run, page.products, Live, d.unique, p.maxResults);
    assert Query(p, script, c, n, key, token) == AfterRecord(p, c, page, taken, Live) == AfterRecord(p, d, page, taken, Live);
  }
}
