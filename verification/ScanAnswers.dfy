/** What one turn of the scan does, for every state of the cache, the claims and the budget,
    and every answer of the gateway; and why a scan ended as it did. */
module ScanAnswers {
  import opened Prelude
  import opened Discovery
  import opened DiscoveryRuns
  import opened DiscoverySafety
  import opened DiscoveryAnswers
  import opened ScanSpec
  import ScanReplay
  import ScanRecords

  /** The run's row says how the scan ended. */
  ghost predicate RunEnded(step: Step, state: RunState, reason: StopReason) {
    && step.c.run in step.c.store.runs
    && var row := step.c.store.runs[step.c.run];
    && row.state == state && row.reason == Some(reason) && row.leaseUntil.None?
  }

  ghost predicate StopsWith(step: Step, state: RunState, reason: StopReason) {
    step.Halt? && step.outcome == Ended(state, reason) && RunEnded(step, state, reason)
  }

  /** A page came back: it is logged and taken, and the scan goes on unless it now has all
      the results it may have. */
  ghost predicate PageCame(p: Profile, c: Cursor, step: Step, page: Page) {
    && step.c.pages == c.pages + [page]
    && (step.Go? ==> step.short == (|page.products| + page.rejected < p.pageSize))
    && (step.Halt? ==> StopsWith(step, Completed, MaxResults) && step.c.unique >= p.maxResults)
  }

  /** How a granted call ends, by the gateway's answer. */
  ghost predicate CallEnds(p: Profile, script: Script, c: Cursor, n: nat, key: Key, leaseUntil: Time, step: Step) {
    match script.ask(n)
    case ProviderFailure(review) =>
      && StopsWith(step, if review then ReviewRequired else Uncertain, ProviderFailed)
      && step.c.pages == c.pages && key !in step.c.store.claims
    case Interrupted =>
      && step.Halt? && step.outcome == Raised(ScanCancelled) && RunEnded(step, Uncertain, Cancelled)
      && step.c.pages == c.pages && key !in step.c.store.claims
    case Listed(found) =>
      if script.clock(2 * n + 1) < leaseUntil then PageCame(p, c, step, found) && key in step.c.store.cache
      else step.Halt? && step.outcome == Raised(StoreFailed(LeaseLost)) && step.c.pages == c.pages
  }

  ghost predicate NothingAsked(c: Cursor, step: Step) {
    step.c.visited == c.visited && step.c.calls == c.calls && step.c.pages == c.pages
  }

  /** What a turn does with the page it is due to ask for. */
  ghost predicate TurnEnds(p: Profile, operation: Operation, script: Script, c: Cursor, key: Key, step: Step) {
    var n := |c.visited|;
    var now := script.clock(2 * n);
    if c.unique >= p.maxResults then StopsWith(step, Completed, MaxResults) && NothingAsked(c, step)
    else if CachedNow(c.store, key, now) then
      if c.store.cache[key].source != operation then step == Halt(c, Raised(StoreFailed(CacheSourceMismatch)))
      else
        && step.c.visited == c.visited + [key] && step.c.calls == c.calls
        && PageCame(p, c, step, Decode(c.store.cache[key]))
    else if HeldNow(c.store, key, now) then
      && StopsWith(step, Stopped, ConcurrentQuery) && step.c.visited == c.visited + [key] && step.c.calls == c.calls
      && step.c.pages == c.pages
    else if c.calls >= p.maxApiCalls then StopsWith(step, Completed, MaxApiCalls) && NothingAsked(c, step)
    else
      && step.c.visited == c.visited + [key] && step.c.calls == c.calls + 1
      && CallEnds(p, script, c, n, key, now + 60, step)
  }

  /** A turn asks for its page only below max_results.  A live cached page is used; a page
      that another run is asking for stops the scan, a spent budget completes it; otherwise
      the gateway is called, and the scan goes on, fails or is cancelled as it answers. */
  lemma VisitAnswers(p: Profile, operation: Operation, script: Script, c: Cursor, i: nat, page: nat)
    requires CursorOk(p, operation, c) && Active(c) && i < |p.keywords|
    ensures TurnEnds(p, operation, script, c, Key(operation, p.context, p.keywords[i], page),
                     Visit(p, operation, script, c, i, page))
  {
    var key := KeyAt(p, operation, i, page);
    var now := script.clock(2 * |c.visited|);
    if c.unique >= p.maxResults {
      EndsRun(p, operation, c, Completed, MaxResults);
    } else if ClaimFor(script, c, key).Ok? {
      ClaimedTurn(p, operation, script, c, key);
    } else {
      RefusedTurn(p, operation, script, c, key);
    }
  }

  lemma RefusedTurn(p: Profile, operation: Operation, script: Script, c: Cursor, key: Key)
    requires CursorOk(p, operation, c) && Active(c) && c.unique < p.maxResults && ClaimFor(script, c, key).Err?
    ensures TurnEnds(p, operation, script, c, key, Resolve(p, script, c, key, ClaimFor(script, c, key)))
  {
    var now := script.clock(2 * |c.visited|);
    ClaimAnswers(c.store, c.run, key, now, now + LEASE, Token(c.run, |c.visited|));
    EndsRun(p, operation, c, Completed, MaxApiCalls);
  }

  lemma ClaimedTurn(p: Profile, operation: Operation, script: Script, c: Cursor, key: Key)
    requires CursorOk(p, operation, c) && Active(c) && c.unique < p.maxResults && ClaimFor(script, c, key).Ok?
    ensures TurnEnds(p, operation, script, c, key, Resolve(p, script, c, key, ClaimFor(script, c, key)))
  {
    var now := script.clock(2 * |c.visited|);
    ClaimAnswers(c.store, c.run, key, now, now + LEASE, Token(c.run, |c.visited|));
    ClaimedIsOk(p, operation, script, c, key);
    var (s, claim) := ClaimFor(script, c, key).value;
    var d := AfterClaim(c, key, s, claim);
    match claim
    case InProgress => EndsRun(p, operation, d, Stopped, ConcurrentQuery);
    case Cached(found) => CachedAnswers(p, operation, script, d, |c.visited|, key, found);
    case Call(token) =>
      CallAnswers(p, operation, script, d, |c.visited|, key, token);
  }

  lemma EndsRun(p: Profile, operation: Operation, c: Cursor, state: RunState, reason: StopReason)
    requires CursorOk(p, operation, c) && Active(c) && state != Running
    ensures var step := Finish(c, state, reason);
      StopsWith(step, state, reason) && step.c == c.(store := step.c.store)
  {
  }

  lemma TakesPage(p: Profile, operation: Operation, c: Cursor, page: Page, origin: Origin)
    requires CursorOk(p, operation, c) && Active(c)
    ensures var taken := RecordPage(c.store, c.run, page.products, origin, c.unique, p.maxResults);
      var step := AfterRecord(p, c, page, taken, origin);
      && taken.error.None? && PageCame(p, c, step, page) && step.c.visited == c.visited && step.c.calls == c.calls
      && step.c.store.cache == c.store.cache
  {
    var taken := RecordPage(c.store, c.run, page.products, origin, c.unique, p.maxResults);
    AfterRecordShows(p, operation, c, page, origin);
    ScanRecords.PickTakes(Ids(c), page.products, c.unique, p.maxResults);
    RecordPagePicks(c.store, c.run, page.products, origin, c.unique, p.maxResults);
  }

  lemma CachedAnswers(p: Profile, operation: Operation, script: Script, d: Cursor, n: nat, key: Key, found: Page)
    requires CursorOk(p, operation, d) && Active(d)
    ensures var step := Answered(p, script, d, n, key, Cached(found));
      PageCame(p, d, step, found) && step.c.visited == d.visited && step.c.calls == d.calls
  {
    TakesPage(p, operation, d, found, FromCache);
  }

  lemma CallAnswers(p: Profile, operation: Operation, script: Script, d: Cursor, n: nat, key: Key, token: Token)
    requires CursorOk(p, operation, d) && Active(d)
    requires key in d.store.claims && d.store.claims[key] == Claim(d.run, token, d.store.claims[key].leaseUntil)
    ensures var step := Answered(p, script, d, n, key, Call(token));
      && step.c.visited == d.visited && step.c.calls == d.calls
      && CallEnds(p, script, d, n, key, d.store.claims[key].leaseUntil, step)
  {
    match script.ask(n)
    case Listed(found) => ListedAnswers(p, operation, script, d, n, key, token, found);
    case _ =>
  }

  lemma ListedAnswers(p: Profile, operation: Operation, script: Script, d: Cursor, n: nat, key: Key, token: Token, found: Page)
    requires CursorOk(p, operation, d) && Active(d) && script.ask(n) == Listed(found)
    requires key in d.store.claims && d.store.claims[key] == Claim(d.run, token, d.store.claims[key].leaseUntil)
    ensures var step := Query(p, script, d, n, key, token);
      && step.c.visited == d.visited && step.c.calls == d.calls
      && if script.clock(2 * n + 1) < d.store.claims[key].leaseUntil then PageCame(p, d, step, found) && key in step.c.store.cache
         else step.Halt? && step.outcome == Raised(StoreFailed(LeaseLost)) && step.c.pages == d.pages
  {
    var now := script.clock(2 * n + 1);
    FinishAnswers(d.store, d.run, key, token, found, now);
    var r := FinishQuery(d.store, d.run, key, token, found, now);
    if r.Ok? {
      StoredPageOk(p, operation, d, key, token, found, now);
      var e := d.(store := r.value);
      TakesPage(p, operation, e, found, Live);
      var taken := RecordPage(e.store, e.run, found.products, Live, e.unique, p.maxResults);
      assert Query(p, script, d, n, key, token) == AfterRecord(p, d, found, taken, Live) == AfterRecord(p, e, found, taken, Live);
    }
  }
}
