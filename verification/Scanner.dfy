/** AliExpressDiscoveryScanner.scan over the tables, proved to be the scan of module ScanSpec. */
module Scanner {
  import opened Prelude
  import opened Discovery
  import opened DiscoveryRuns
  import opened DiscoveryStore
  import opened ScanSpec

  class AliExpressDiscoveryScanner {
    const tables: DiscoveryTables
    const profile: Profile
    const operation: Operation
    const script: Script

    /** The scan's own variables. */
    var run: RunId
    var unique: nat
    var ordinal: nat
    /** Logs. */
    ghost var visited: seq<Key>
    ghost var calls: nat
    ghost var seen: seq<(Product, Origin)>
    ghost var pages: seq<Page>

    ghost function Cursor(): Cursor
      reads this, tables
    {
      ScanSpec.Cursor.Cursor(tables.View(), run, unique, visited, calls, seen, pages)
    }

    constructor (tables: DiscoveryTables, profile: Profile, operation: Operation, script: Script)
      ensures this.tables == tables && this.profile == profile && this.operation == operation && this.script == script
    {
      this.tables, this.profile, this.operation, this.script := tables, profile, operation, script;
      run, unique, ordinal := 0, 0, 0;
      visited, calls, seen, pages := [], 0, [], [];
    }

    /** _finish. */
    method Finish(state: RunState, reason: StopReason) returns (outcome: Outcome)
      requires state != Running
      modifies tables
      ensures Halt(Cursor(), outcome) == ScanSpec.Finish(old(Cursor()), state, reason)
    {
      var finished := tables.FinishRun(run, state, reason);
      outcome := if finished.Ok? then Ended(state, reason) else Raised(StoreFailed(finished.error));
    }

    /** _fail_query: abandon the claim and end the run, in one transaction. */
    method FailQuery(key: Key, token: Token, state: RunState, reason: StopReason) returns (outcome: Outcome)
      requires state != Running
      modifies tables
      ensures Halt(Cursor(), outcome) == ScanSpec.Fail(old(Cursor()), key, token, state, reason)
    {
      var claims := tables.claims;
      tables.Abandon(key, token);
      var finished := tables.FinishRun(run, state, reason);
      if finished.Err? {
        tables.claims := claims;
        return Raised(StoreFailed(finished.error));
      }
      outcome := if reason == Cancelled then Raised(ScanCancelled) else Ended(state, reason);
    }

    /** The loop over a page's products. */
    method RecordPage(products: seq<Product>, origin: Origin)
      returns (reached: bool, error: Option<DiscoveryError>, ghost taken: Taken)
      modifies tables, this`unique, this`seen
      ensures taken == ScanSpec.RecordPage(old(tables.View()), run, products, origin, old(unique), profile.maxResults)
      ensures tables.View() == taken.store && unique == taken.unique
      ensures reached == taken.reached && error == taken.error
      ensures seen == old(seen) + Tagged(taken.products, origin)
    {
      ghost var goal := ScanSpec.RecordPage(tables.View(), run, products, origin, unique, profile.maxResults);
      ghost var done: seq<Product> := [];
      for i := 0 to |products|
        invariant goal == Prefixed(done, ScanSpec.RecordPage(tables.View(), run, products[i..], origin, unique, profile.maxResults))
        invariant seen == old(seen) + Tagged(done, origin)
      {
        if unique >= profile.maxResults {
          PrefixEnds(done);
          return true, None, goal;
        }
        var error := RecordNext(products, i, origin, done);
        if error.Some? {
          return false, error, goal;
        }
        assert Tagged(done, origin) + [(products[i], origin)] == Tagged(done + [products[i]], origin);
        done := done + [products[i]];
      }
      PrefixEnds(done);
      assert products[|products|..] == [];
      return false, None, goal;
    }

    /** One turn of that loop. */
    method RecordNext(products: seq<Product>, i: nat, origin: Origin, ghost done: seq<Product>)
      returns (error: Option<DiscoveryError>)
      requires i < |products| && unique < profile.maxResults
      modifies tables, this`unique, this`seen
      ensures old(Prefixed(done, ScanSpec.RecordPage(tables.View(), run, products[i..], origin, unique, profile.maxResults)))
           == if error.Some? then Taken(tables.View(), unique, done, false, error)
              else Prefixed(done + [products[i]],
                            ScanSpec.RecordPage(tables.View(), run, products[i + 1..], origin, unique, profile.maxResults))
      ensures seen == old(seen) + if error.Some? then [] else [(products[i], origin)]
    {
      RecordPageTurns(tables.View(), run, products, i, origin, unique, profile.maxResults, done);
      var recorded := tables.RecordProduct(run, products[i], origin);
      if recorded.Err? {
        return Some(recorded.error);
      }
      if recorded.value.insertedUnique {
        unique := unique + 1;
      }
      seen := seen + [(products[i], origin)];
      error := None;
    }

    /** What a turn of the inner loop leaves: the cursor, and how the scan ended if it did. */
    ghost predicate StepIs(step: Step, outcome: Option<Outcome>, short: bool)
      reads this, tables
    {
      match step
      case Go(d, isShort) => Cursor() == d && outcome == None && short == isShort
      case Halt(d, o) => Cursor() == d && outcome == Some(o)
    }

    /** The end of a turn that recorded a page. */
    method AfterRecord(page: Page, reached: bool, error: Option<DiscoveryError>, origin: Origin, ghost c: Cursor, ghost taken: Taken)
      returns (outcome: Option<Outcome>, short: bool)
      requires Cursor() == c.(store := taken.store, unique := taken.unique, seen := c.seen + Tagged(taken.products, origin))
      requires reached == taken.reached && error == taken.error
      modifies tables, this`pages
      ensures StepIs(ScanSpec.AfterRecord(profile, c, page, taken, origin), outcome, short)
    {
      short := false;
      pages := pages + [page];
      if error.Some? {
        return Some(Raised(StoreFailed(error.value))), false;
      }
      if reached {
        var finished := Finish(Completed, MaxResults);
        return Some(finished), false;
      }
      return None, |page.products| + page.rejected < profile.pageSize;
    }

    /** A granted call and what comes of its answer. */
    method Query(n: nat, key: Key, token: Token) returns (outcome: Option<Outcome>, short: bool)
      modifies tables, this`unique, this`seen, this`pages
      ensures StepIs(ScanSpec.Query(profile, script, old(Cursor()), n, key, token), outcome, short)
    {
      short := false;
      var answer := script.ask(n);
      match answer {
        case ProviderFailure(review) =>
          var failed := FailQuery(key, token, if review then ReviewRequired else Uncertain, ProviderFailed);
          outcome := Some(failed);
        case Interrupted =>
          var failed := FailQuery(key, token, Uncertain, Cancelled);
          outcome := Some(failed);
        case Listed(page) =>
          outcome, short := StoreListed(key, token, page, script.clock(2 * n + 1));
      }
    }

    /** The page and its products are stored together, or not at all. */
    method StoreListed(key: Key, token: Token, page: Page, now: Time) returns (outcome: Option<Outcome>, short: bool)
      modifies tables, this`unique, this`seen, this`pages
      ensures StepIs(ScanSpec.StoreListed(profile, old(Cursor()), key, token, page, now), outcome, short)
    {
      ghost var c := Cursor();
      var runs, claims, cache, results, snapshots, before :=
        tables.runs, tables.claims, tables.cache, tables.results, tables.snapshots, unique;
      var stored := tables.FinishQuery(run, key, token, page, now);
      if stored.Err? {
        return Some(Raised(StoreFailed(stored.error))), false;
      }
      ghost var d := Cursor();
      var reached, error, taken := RecordPage(page.products, Live);
      if error.Some? {
        tables.runs, tables.claims, tables.cache := runs, claims, cache;
        tables.results, tables.snapshots, unique := results, snapshots, before;
        seen, pages := c.seen, c.pages;
        return Some(Raised(StoreFailed(error.value))), false;
      }
      AfterRecordOf(profile, c, d, page, taken, Live);
      outcome, short := AfterRecord(page, reached, error, Live, d, taken);
    }

    /** The claim of the next query; a committed one takes the next ordinal. */
    method ClaimPage(key: Key) returns (claim: Result<QueryClaim, DiscoveryError>)
      requires ordinal == |visited|
      modifies tables, this`ordinal, this`visited, this`calls
      ensures ordinal == |visited|
      ensures match ClaimFor(script, old(Cursor()), key)
              case Ok((s, granted)) => claim == Ok(granted) && Cursor() == AfterClaim(old(Cursor()), key, s, granted)
              case Err(error) => claim == Err(error) && Cursor() == old(Cursor())
    {
      var now := script.clock(2 * ordinal);
      ghost var c := Cursor();
      claim := tables.ClaimQuery(run, key, now, now + LEASE, Token(run, ordinal));
      assert ClaimFor(script, c, key) == ClaimQuery(c.store, c.run, key, now, now + LEASE, Token(c.run, |c.visited|));
      if claim.Ok? {
        ordinal := ordinal + 1;
        visited := visited + [key];
        calls := calls + if claim.value.Call? then 1 else 0;
      }
    }

    /** One turn of the inner loop. */
    method Visit(i: nat, page: nat) returns (outcome: Option<Outcome>, short: bool)
      requires ordinal == |visited|
      modifies tables, this`unique, this`ordinal, this`visited, this`calls, this`seen, this`pages
      ensures StepIs(ScanSpec.Visit(profile, operation, script, old(Cursor()), i, page), outcome, short)
      ensures ordinal == |visited|
    {
      if unique >= profile.maxResults {
        var finished := Finish(Completed, MaxResults);
        return Some(finished), false;
      }
      ghost var c := Cursor();
      var key := KeyAt(profile, operation, i, page);
      var n := ordinal;
      var claim := ClaimPage(key);
      VisitIsResolved(profile, operation, script, c, i, page);
      outcome, short := Resolve(n, key, claim, c);
    }

    method Resolve(n: nat, key: Key, claim: Result<QueryClaim, DiscoveryError>, ghost c: Cursor)
      returns (outcome: Option<Outcome>, short: bool)
      requires n == |c.visited|
      requires match ClaimFor(script, c, key)
               case Ok((s, granted)) => claim == Ok(granted) && Cursor() == AfterClaim(c, key, s, granted)
               case Err(error) => claim == Err(error) && Cursor() == c
      modifies tables, this`unique, this`seen, this`pages
      ensures StepIs(ScanSpec.Resolve(profile, script, c, key, ClaimFor(script, c, key)), outcome, short)
    {
      if claim.Err? {
        if claim.error == BudgetExhausted {
          var finished := Finish(Completed, MaxApiCalls);
          return Some(finished), false;
        }
        return Some(Raised(StoreFailed(claim.error))), false;
      }
      outcome, short := Answer(n, key, claim.value);
    }

    method Answer(n: nat, key: Key, claim: QueryClaim) returns (outcome: Option<Outcome>, short: bool)
      modifies tables, this`unique, this`seen, this`pages
      ensures StepIs(ScanSpec.Answered(profile, script, old(Cursor()), n, key, claim), outcome, short)
    {
      ghost var d := Cursor();
      match claim {
        case InProgress =>
          var finished := Finish(Stopped, ConcurrentQuery);
          return Some(finished), false;
        case Cached(found) =>
          var reached, error, taken := RecordPage(found.products, FromCache);
          outcome, short := AfterRecord(found, reached, error, FromCache, d, taken);
        case Call(token) =>
          outcome, short := Query(n, key, token);
      }
    }

    /** The inner loop: the pages of one keyword, and why it went no further. */
    method ScanKeyword(i: nat, finalReason: StopReason) returns (ended: Option<Outcome>, keywordReason: StopReason)
      requires i < |profile.keywords| && ordinal == |visited|
      modifies tables, this`unique, this`ordinal, this`visited, this`calls, this`seen, this`pages
      ensures ordinal == |visited|
      ensures LoopFrom(old(Cursor()), i, 1, finalReason) ==
        match ended
        case Some(outcome) => (Cursor(), outcome)
        case None => LoopFrom(Cursor(), i + 1, 1, keywordReason)
    {
      ghost var goal := LoopFrom(Cursor(), i, 1, finalReason);
      for page := 1 to profile.maxPages + 1
        invariant ordinal == |visited| && goal == LoopFrom(Cursor(), i, page, finalReason)
      {
        ghost var c := Cursor();
        var outcome, short := Visit(i, page);
        LoopTurns(Turn(profile, operation, script), |profile.keywords|, profile.maxPages, c, i, page, finalReason,
                  ScanSpec.Visit(profile, operation, script, c, i, page));
        if outcome.Some? {
          return outcome, MaxPages;
        }
        if short {
          return None, ShortPage;
        }
      }
      return None, MaxPages;
    }

    /** What the scan's loops make of a cursor from here on. */
    ghost function LoopFrom(c: Cursor, i: nat, page: nat, reason: StopReason): (Cursor, Outcome) {
      Loop(Turn(profile, operation, script), |profile.keywords|, profile.maxPages, c, i, page, reason)
    }

    /** scan: every page of every keyword, until something ends it. */
    method Scan(id: RunId, started: Time) returns (outcome: Outcome)
      modifies this, tables
      ensures (Cursor(), outcome) == ScanAll(old(tables.View()), id, profile, operation, script, started)
    {
      ghost var goal := ScanAll(tables.View(), id, profile, operation, script, started);
      tables.CreateRun(id, operation, profile.maxResults, profile.maxApiCalls, started + LEASE);
      run, unique, ordinal, visited, calls, seen, pages := id, 0, 0, [], 0, [], [];
      var finalReason := AllKeywordsCompleted;
      for i := 0 to |profile.keywords|
        invariant ordinal == |visited| && goal == LoopFrom(Cursor(), i, 1, finalReason)
      {
        var ended, keywordReason := ScanKeyword(i, finalReason);
        if ended.Some? {
          return ended.value;
        }
        finalReason := keywordReason;
      }
      outcome := Finish(Completed, finalReason);
    }
  }

  /** The products recorded so far, and what the rest of the page makes of it. */
  ghost function Prefixed(done: seq<Product>, rest: Taken): Taken {
    rest.(products := done + rest.products)
  }

  /** The end of a turn does not look at the cursor's old store. */
  lemma AfterRecordOf(p: Profile, c: Cursor, d: Cursor, page: Page, taken: Taken, origin: Origin)
    requires d == c.(store := d.store)
    ensures ScanSpec.AfterRecord(p, c, page, taken, origin) == ScanSpec.AfterRecord(p, d, page, taken, origin)
  {
  }

  lemma VisitIsResolved(p: Profile, operation: Operation, script: Script, c: Cursor, i: nat, page: nat)
    requires c.unique < p.maxResults
    ensures var key := KeyAt(p, operation, i, page);
      ScanSpec.Visit(p, operation, script, c, i, page) == ScanSpec.Resolve(p, script, c, key, ClaimFor(script, c, key))
  {
  }

  /** One unfolding of the loop over a page's products. */
  lemma RecordPageTurns(s: Store, run: RunId, products: seq<Product>, i: nat, origin: Origin, unique: nat, limit: nat,
                        done: seq<Product>)
    requires i < |products| && unique < limit
    ensures var before := Prefixed(done, ScanSpec.RecordPage(s, run, products[i..], origin, unique, limit));
      match RecordProduct(s, run, products[i], origin)
      case Err(error) => before == Taken(s, unique, done, false, Some(error))
      case Ok((t, recorded)) =>
        before == Prefixed(done + [products[i]],
                           ScanSpec.RecordPage(t, run, products[i + 1..], origin,
                                               unique + (if recorded.insertedUnique then 1 else 0), limit))
  {
    assert products[i..][1..] == products[i + 1..];
    PrefixEnds(done);
    match RecordProduct(s, run, products[i], origin)
    case Err(_) =>
    case Ok((t, recorded)) =>
      PrefixGrows(done, products[i],
                  ScanSpec.RecordPage(t, run, products[i + 1..], origin,
                                      unique + (if recorded.insertedUnique then 1 else 0), limit));
  }

  lemma PrefixGrows(done: seq<Product>, product: Product, rest: Taken)
    ensures Prefixed(done, rest.(products := [product] + rest.products)) == Prefixed(done + [product], rest)
  {
    assert done + ([product] + rest.products) == done + [product] + rest.products;
  }

  lemma PrefixEnds(done: seq<Product>)
    ensures done + [] == done
  {
  }
}
