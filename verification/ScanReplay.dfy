/**
 Cache transparency: a completed scan that is repeated while its pages are still cached
 makes no call and ends the same way.
 */
module ScanReplay {
  import opened Prelude
  import opened Discovery
  import opened DiscoveryRuns
  import opened DiscoverySafety
  import opened ScanSpec

  // --------------------------------------------------------- what a visit does

  /** Every product recorded so far came from the cache. */
  ghost predicate AllCached(c: Cursor) {
    forall i | 0 <= i < |c.seen| :: c.seen[i].1 == FromCache
  }

  /** Only the ids and the counter of a cursor matter to a page. */
  lemma TookAfterClaim(p: Profile, c: Cursor, d: Cursor, step: Step, page: Page)
    requires d.run == c.run && d.unique == c.unique && Ids(d) == Ids(c) && d.seen == c.seen
    requires d.pages == c.pages && Took(p, d, step, page)
    ensures Took(p, c, step, page)
  {
  }

  lemma CachedShows(p: Profile, operation: Operation, script: Script, d: Cursor, n: nat, key: Key, found: Page)
    requires CursorOk(p, operation, d) && Active(d)
    ensures var step := Answered(p, script, d, n, key, Cached(found));
      && CursorOk(p, operation, step.c) && Took(p, d, step, found)
      && step.c.visited == d.visited && step.c.calls == d.calls && step.c.store.cache == d.store.cache
      && (AllCached(d) ==> AllCached(step.c))
  {
    AfterRecordShows(p, operation, d, found, FromCache);
  }

  /** A visit that sees a page does with it what the page says, and leaves it cached; one
      that sees none ends the scan, and completes it only because the budget is spent. */
  ghost predicate VisitOk(p: Profile, operation: Operation, script: Script, c: Cursor, key: Key, seen: Option<Page>, step: Step) {
    && CursorOk(p, operation, step.c)
    && (seen.Some? ==>
          && Took(p, c, step, seen.value) && step.c.visited == c.visited + [key]
          && CacheStep(c.store, step.c.store, operation, key, seen.value,
                       script.clock(2 * |c.visited|), script.clock(2 * |c.visited| + 1)))
    && (seen.None? ==> Unfinished(step) || (step.Halt? && step.outcome == Ended(Completed, MaxApiCalls)))
  }

  lemma VisitShows(p: Profile, operation: Operation, script: Script, c: Cursor, i: nat, page: nat)
    requires CursorOk(p, operation, c) && Active(c) && c.unique < p.maxResults
    ensures var key := KeyAt(p, operation, i, page);
      VisitOk(p, operation, script, c, key, PageSeen(script, c, key, ClaimFor(script, c, key)),
              Visit(p, operation, script, c, i, page))
  {
    var key := KeyAt(p, operation, i, page);
    if ClaimFor(script, c, key).Ok? {
      ClaimedIsOk(p, operation, script, c, key);
      ClaimOnlyPurges(script, c, key);
    }
    ResolveShows(p, operation, script, c, key, ClaimFor(script, c, key));
  }

  lemma ResolveShows(p: Profile, operation: Operation, script: Script, c: Cursor, key: Key,
                     r: Result<(Store, QueryClaim), DiscoveryError>)
    requires CursorOk(p, operation, c) && Active(c)
    requires r.Ok? ==>
      var d := AfterClaim(c, key, r.value.0, r.value.1);
      && CursorOk(p, operation, d) && Active(d)
      && OnlyPurged(c, d, operation, key, r.value.1, script.clock(2 * |c.visited|))
    requires r != Err(IntegrityError)
    ensures VisitOk(p, operation, script, c, key, PageSeen(script, c, key, r), Resolve(p, script, c, key, r))
  {
    match r
    case Ok((s, claim)) => ClaimedVisitShows(p, operation, script, c, AfterClaim(c, key, s, claim), key, claim);
    case Err(error) =>
      if error == BudgetExhausted {
        FinishAccounts(p, operation, c, Completed, MaxApiCalls);
      }
  }

  lemma ClaimedVisitShows(p: Profile, operation: Operation, script: Script, c: Cursor, d: Cursor, key: Key, claim: QueryClaim)
    requires CursorOk(p, operation, d) && Active(d)
    requires OnlyPurged(c, d, operation, key, claim, script.clock(2 * |c.visited|))
    ensures VisitOk(p, operation, script, c, key, SeenOf(script, d, |c.visited|, key, claim),
                    Answered(p, script, d, |c.visited|, key, claim))
  {
    var n := |c.visited|;
    match claim
    case InProgress => FinishAccounts(p, operation, d, Stopped, ConcurrentQuery);
    case Cached(found) =>
      CachedShows(p, operation, script, d, n, key, found);
      TookAfterClaim(p, c, d, Answered(p, script, d, n, key, claim), found);
    case Call(token) =>
      if SeenOf(script, d, n, key, claim).Some? {
        ListedVisitShows(p, operation, script, c, d, key, token);
      } else {
        QueryFails(p, operation, script, d, n, key, token);
      }
  }

  lemma ListedVisitShows(p: Profile, operation: Operation, script: Script, c: Cursor, d: Cursor, key: Key, token: Token)
    requires CursorOk(p, operation, d) && Active(d)
    requires OnlyPurged(c, d, operation, key, Call(token), script.clock(2 * |c.visited|))
    requires SeenOf(script, d, |c.visited|, key, Call(token)).Some?
    ensures VisitOk(p, operation, script, c, key, Some(script.ask(|c.visited|).page), Query(p, script, d, |c.visited|, key, token))
  {
    var n := |c.visited|;
    var page := script.ask(n).page;
    var step := Query(p, script, d, n, key, token);
    assert CursorOk(p, operation, step.c) && Took(p, c, step, page) && step.c.visited == c.visited + [key] by {
      QueryLists(p, operation, script, d, n, key, token, page);
      TookAfterClaim(p, c, d, step, page);
    }
    assert CacheStep(c.store, step.c.store, operation, key, page, script.clock(2 * n), script.clock(2 * n + 1)) by {
      QueryLists(p, operation, script, d, n, key, token, page);
      CacheRoundTrip(page, operation, script.clock(2 * n + 1));
    }
  }

  // ---------------------------------------------------------------- two runs

  /** One configuration, two scripts, the pages that matter, and a deadline before which all
      of it happens. */
  datatype Setting = Setting(
    p: Profile, operation: Operation, first: Script, second: Script, keys: set<Key>, deadline: Time)

  /** Both scans run before the deadline, and no page fetched by the first expires by then. */
  ghost predicate Timely(x: Setting) {
    forall n: nat ::
      && x.first.clock(2 * n) < x.deadline && x.second.clock(2 * n) < x.deadline
      && x.deadline <= x.first.clock(2 * n + 1) + CACHE_TTL
  }

  /** None of these pages expires meanwhile: if cached at all, it has expired already or
      outlives the deadline. */
  ghost predicate Settled(x: Setting, s: Store) {
    forall k | k in x.keys && k in s.cache ::
      s.cache[k].expiresAt >= x.deadline || forall n: nat :: s.cache[k].expiresAt <= x.first.clock(2 * n)
  }

  ghost predicate Ready1(x: Setting, c: Cursor) {
    CursorOk(x.p, x.operation, c) && Active(c) && Settled(x, c.store)
  }

  ghost predicate Ready2(x: Setting, c: Cursor) {
    CursorOk(x.p, x.operation, c) && Active(c) && c.calls == 0 && AllCached(c)
  }

  /** The scans have visited the same pages and collected the same products. */
  ghost predicate Alike(c1: Cursor, c2: Cursor) {
    && c2.unique == c1.unique && c2.visited == c1.visited && Ids(c2) == Ids(c1) && c2.calls == 0
    && Products(c2.seen) == Products(c1.seen) && AllCached(c2) && c2.pages == c1.pages
  }

  /** The key is cached with this page until the deadline. */
  ghost predicate Holds(x: Setting, s: Store, key: Key, page: Page) {
    && key in s.cache && s.cache[key].source == x.operation && Decode(s.cache[key]) == page
    && s.cache[key].expiresAt >= x.deadline
  }

  /** Of these pages, those cached past the deadline are still there. */
  ghost predicate Carried(x: Setting, s: Store, s': Store) {
    forall k | k in x.keys && k in s.cache && s.cache[k].expiresAt >= x.deadline ::
      k in s'.cache && s'.cache[k] == s.cache[k]
  }

  ghost predicate Within(x: Setting, visited: seq<Key>) {
    forall k | k in visited :: k in x.keys
  }

  ghost predicate Done(o: Outcome) {
    o.Ended? && o.state == Completed && o.reason != MaxApiCalls
  }

  ghost predicate GoesOn(step: Step) {
    step.Go? || Done(step.outcome)
  }

  ghost predicate Keeps(x: Setting, c: Cursor, step: Step) {
    GoesOn(step) ==>
      && Carried(x, c.store, step.c.store) && CursorOk(x.p, x.operation, step.c) && step.c.run == c.run
      && c.visited <= step.c.visited && (step.Go? ==> Ready1(x, step.c))
  }

  ghost predicate Mirrors(x: Setting, c2: Cursor, step1: Step, step2: Step) {
    && Alike(step1.c, step2.c) && step2.c.run == c2.run
    && (if step1.Go? then
          && step2.Go? && step2.short == step1.short && Ready2(x, step2.c)
          && Carried(x, c2.store, step2.c.store)
        else step2.Halt? && step2.outcome == step1.outcome)
  }

  lemma SeenStepKeeps(x: Setting, c: Cursor, key: Key, seen: Option<Page>, step: Step)
    requires Timely(x) && Ready1(x, c) && VisitOk(x.p, x.operation, x.first, c, key, seen, step)
    ensures Keeps(x, c, step)
    ensures GoesOn(step) ==> seen.Some? && step.c.visited == c.visited + [key]
                             && (key in x.keys ==> Holds(x, step.c.store, key, seen.value))
  {
    if GoesOn(step) {
      var n := |c.visited|;
      assert x.first.clock(2 * n) < x.deadline <= x.first.clock(2 * n + 1) + CACHE_TTL;
      forall k | k in x.keys && k in step.c.store.cache ensures step.c.store.cache[k].expiresAt >= x.deadline {
      }
    }
  }

  lemma FirstVisit(x: Setting, c: Cursor, i: nat, page: nat)
    requires Timely(x) && Ready1(x, c)
    ensures Keeps(x, c, Visit(x.p, x.operation, x.first, c, i, page))
  {
    if c.unique >= x.p.maxResults {
      FinishAccounts(x.p, x.operation, c, Completed, MaxResults);
    } else {
      var key := KeyAt(x.p, x.operation, i, page);
      VisitShows(x.p, x.operation, x.first, c, i, page);
      SeenStepKeeps(x, c, key, PageSeen(x.first, c, key, ClaimFor(x.first, c, key)),
                    Visit(x.p, x.operation, x.first, c, i, page));
    }
  }

  /** A claim finds what is cached past the deadline. */
  lemma CachedClaim(x: Setting, c: Cursor, key: Key, page: Page)
    requires Timely(x) && Ready2(x, c) && Holds(x, c.store, key, page)
    ensures var r := ClaimFor(x.second, c, key);
      && r.Ok? && r.value.1 == Cached(page)
      && var d := AfterClaim(c, key, r.value.0, r.value.1);
      && Ready2(x, d) && d.run == c.run && d.unique == c.unique && Ids(d) == Ids(c) && d.seen == c.seen
      && d.pages == c.pages
      && CacheKept(c.store, d.store, x.deadline)
  {
    var n := |c.visited|;
    assert x.second.clock(2 * n) < x.deadline;
    var r := ClaimFor(x.second, c, key);
    assert r.Ok?;
    ClaimedIsOk(x.p, x.operation, x.second, c, key);
    ClaimOnlyPurges(x.second, c, key);
  }

  /** The repeat's visit of a page that the first scan saw. */
  lemma SecondVisitHits(x: Setting, c: Cursor, i: nat, page: nat, found: Page)
    requires Timely(x) && Ready2(x, c) && c.unique < x.p.maxResults
    requires Holds(x, c.store, KeyAt(x.p, x.operation, i, page), found)
    ensures var step := Visit(x.p, x.operation, x.second, c, i, page);
      && Took(x.p, c, step, found) && step.c.visited == c.visited + [KeyAt(x.p, x.operation, i, page)]
      && step.c.calls == 0 && AllCached(step.c)
      && CursorOk(x.p, x.operation, step.c) && CacheKept(c.store, step.c.store, x.deadline)
  {
    var key := KeyAt(x.p, x.operation, i, page);
    CachedClaim(x, c, key, found);
    HitShows(x, c, key, found, ClaimFor(x.second, c, key));
  }

  lemma HitShows(x: Setting, c: Cursor, key: Key, found: Page, r: Result<(Store, QueryClaim), DiscoveryError>)
    requires r.Ok? && r.value.1 == Cached(found)
    requires var d := AfterClaim(c, key, r.value.0, r.value.1);
      && Ready2(x, d) && d.run == c.run && d.unique == c.unique && Ids(d) == Ids(c) && d.seen == c.seen
      && d.pages == c.pages
      && CacheKept(c.store, d.store, x.deadline)
    ensures var step := Resolve(x.p, x.second, c, key, r);
      && Took(x.p, c, step, found) && step.c.visited == c.visited + [key]
      && step.c.calls == 0 && AllCached(step.c)
      && CursorOk(x.p, x.operation, step.c) && CacheKept(c.store, step.c.store, x.deadline)
  {
    var d := AfterClaim(c, key, r.value.0, r.value.1);
    CachedShows(x.p, x.operation, x.second, d, |c.visited|, key, found);
    TookAfterClaim(x.p, c, d, Resolve(x.p, x.second, c, key, r), found);
  }

  /** The repeat's visit goes the way of the first one. */
  lemma SecondVisit(x: Setting, c1: Cursor, c2: Cursor, i: nat, page: nat)
    requires Timely(x) && Ready1(x, c1) && Ready2(x, c2) && Alike(c1, c2)
    requires var step1 := Visit(x.p, x.operation, x.first, c1, i, page);
      GoesOn(step1) && Within(x, step1.c.visited) && Carried(x, step1.c.store, c2.store)
    ensures Mirrors(x, c2, Visit(x.p, x.operation, x.first, c1, i, page), Visit(x.p, x.operation, x.second, c2, i, page))
  {
    if c1.unique >= x.p.maxResults {
      FinishAccounts(x.p, x.operation, c1, Completed, MaxResults);
      FinishAccounts(x.p, x.operation, c2, Completed, MaxResults);
    } else {
      var key := KeyAt(x.p, x.operation, i, page);
      var seen := PageSeen(x.first, c1, key, ClaimFor(x.first, c1, key));
      VisitShows(x.p, x.operation, x.first, c1, i, page);
      SeenStepKeeps(x, c1, key, seen, Visit(x.p, x.operation, x.first, c1, i, page));
      assert key in c1.visited + [key];
      SecondVisitHits(x, c2, i, page, seen.value);
      TookAlike(x, c1, c2, key, seen.value, Visit(x.p, x.operation, x.first, c1, i, page),
                Visit(x.p, x.operation, x.second, c2, i, page));
    }
  }

  lemma TookAlike(x: Setting, c1: Cursor, c2: Cursor, key: Key, page: Page, step1: Step, step2: Step)
    requires Alike(c1, c2) && Took(x.p, c1, step1, page) && Took(x.p, c2, step2, page)
    requires step1.c.visited == c1.visited + [key] && step2.c.visited == c2.visited + [key]
    requires step2.c.calls == 0 && AllCached(step2.c)
    requires CursorOk(x.p, x.operation, step2.c) && CacheKept(c2.store, step2.c.store, x.deadline)
    ensures Mirrors(x, c2, step1, step2)
  {
  }

  // ------------------------------------------------------------------ the loops

  ghost predicate TurnKeeps(x: Setting, turn1: Visitor) {
    forall c: Cursor, i: nat, page: nat | Ready1(x, c) :: Keeps(x, c, turn1(c, i, page))
  }

  ghost predicate TurnsMirror(x: Setting, turn1: Visitor, turn2: Visitor) {
    forall c1: Cursor, c2: Cursor, i: nat, page: nat ::
      Ready1(x, c1) && Ready2(x, c2) && Alike(c1, c2) && GoesOn(turn1(c1, i, page))
      && Within(x, turn1(c1, i, page).c.visited) && Carried(x, turn1(c1, i, page).c.store, c2.store)
      ==> Mirrors(x, c2, turn1(c1, i, page), turn2(c2, i, page))
  }

  /** Pages that outlive the deadline are still cached when the first scan is done. */
  lemma {:induction false} LoopKeeps(x: Setting, turn: Visitor, keywords: nat, maxPages: nat,
                                     c: Cursor, i: nat, page: nat, reason: StopReason)
    requires TurnKeeps(x, turn) && Ready1(x, c)
    ensures var (f, o) := Loop(turn, keywords, maxPages, c, i, page, reason);
      Done(o) ==> Carried(x, c.store, f.store) && CursorOk(x.p, x.operation, f) && f.run == c.run && c.visited <= f.visited
    decreases keywords - i, maxPages + 1 - page
  {
    if i >= keywords {
      FinishAccounts(x.p, x.operation, c, Completed, reason);
    } else if page > maxPages {
      LoopKeeps(x, turn, keywords, maxPages, c, i + 1, 1, MaxPages);
    } else {
      var step := turn(c, i, page);
      assert Keeps(x, c, step);
      match step
      case Halt(_, _) =>
      case Go(d, short) =>
        if short {
          LoopKeeps(x, turn, keywords, maxPages, d, i + 1, 1, ShortPage);
        } else {
          LoopKeeps(x, turn, keywords, maxPages, d, i, page + 1, reason);
        }
    }
  }

  /** The repeat ends as the first scan did. */
  lemma {:induction false} LoopReplays(x: Setting, turn1: Visitor, turn2: Visitor, keywords: nat, maxPages: nat,
                                       c1: Cursor, c2: Cursor, i: nat, page: nat, reason: StopReason)
    requires TurnKeeps(x, turn1) && TurnsMirror(x, turn1, turn2)
    requires Ready1(x, c1) && Ready2(x, c2) && Alike(c1, c2)
    requires var (f1, o1) := Loop(turn1, keywords, maxPages, c1, i, page, reason);
      Done(o1) && Within(x, f1.visited) && Carried(x, f1.store, c2.store)
    ensures var (f1, o1) := Loop(turn1, keywords, maxPages, c1, i, page, reason);
      var (f2, o2) := Loop(turn2, keywords, maxPages, c2, i, page, reason);
      o2 == o1 && Alike(f1, f2) && f2.run == c2.run
    decreases keywords - i, maxPages + 1 - page
  {
    if i >= keywords {
      FinishAlike(x, c1, c2, reason);
    } else if page > maxPages {
      LoopReplays(x, turn1, turn2, keywords, maxPages, c1, c2, i + 1, 1, MaxPages);
    } else {
      var step1, step2 := turn1(c1, i, page), turn2(c2, i, page);
      LoopTurns(turn1, keywords, maxPages, c1, i, page, reason, step1);
      LoopTurns(turn2, keywords, maxPages, c2, i, page, reason, step2);
      if step1.Go? {
        var (i', page', reason') := Onward(i, page, reason, step1.short);
        NextTurnIsReady(x, turn1, turn2, keywords, maxPages, c1, c2, i, page, i', page', reason');
        LoopReplays(x, turn1, turn2, keywords, maxPages, step1.c, step2.c, i', page', reason');
      } else {
        TurnMirrors(x, turn1, turn2, c1, c2, i, page);
      }
    }
  }

  /** Where the loops go on after a turn. */
  function Onward(i: nat, page: nat, reason: StopReason, short: bool): (nat, nat, StopReason) {
    if short then (i + 1, 1, ShortPage) else (i, page + 1, reason)
  }

  lemma FinishAlike(x: Setting, c1: Cursor, c2: Cursor, reason: StopReason)
    requires Ready1(x, c1) && Ready2(x, c2) && Alike(c1, c2)
    ensures var step1, step2 := Finish(c1, Completed, reason), Finish(c2, Completed, reason);
      step1.outcome == step2.outcome && Alike(step1.c, step2.c) && step2.c.run == c2.run
  {
    FinishAccounts(x.p, x.operation, c1, Completed, reason);
    FinishAccounts(x.p, x.operation, c2, Completed, reason);
  }

  /** After a turn that goes on, both scans are ready for the next one. */
  lemma NextTurnIsReady(x: Setting, turn1: Visitor, turn2: Visitor, keywords: nat, maxPages: nat,
                        c1: Cursor, c2: Cursor, i: nat, page: nat, i': nat, page': nat, reason: StopReason)
    requires TurnKeeps(x, turn1) && TurnsMirror(x, turn1, turn2)
    requires Ready1(x, c1) && Ready2(x, c2) && Alike(c1, c2) && turn1(c1, i, page).Go?
    requires var (f, o) := Loop(turn1, keywords, maxPages, turn1(c1, i, page).c, i', page', reason);
      Done(o) && Within(x, f.visited) && Carried(x, f.store, c2.store)
    ensures var d1, d2 := turn1(c1, i, page).c, turn2(c2, i, page).c;
      && Ready1(x, d1) && Ready2(x, d2) && Alike(d1, d2) && d2.run == c2.run
      && turn2(c2, i, page) == Go(d2, turn1(c1, i, page).short)
      && Carried(x, Loop(turn1, keywords, maxPages, d1, i', page', reason).0.store, d2.store)
  {
    assert Keeps(x, c1, turn1(c1, i, page));
    LoopKeeps(x, turn1, keywords, maxPages, turn1(c1, i, page).c, i', page', reason);
    TurnMirrors(x, turn1, turn2, c1, c2, i, page);
  }

  lemma TurnMirrors(x: Setting, turn1: Visitor, turn2: Visitor, c1: Cursor, c2: Cursor, i: nat, page: nat)
    requires TurnsMirror(x, turn1, turn2) && Ready1(x, c1) && Ready2(x, c2) && Alike(c1, c2)
    requires GoesOn(turn1(c1, i, page)) && Within(x, turn1(c1, i, page).c.visited)
    requires Carried(x, turn1(c1, i, page).c.store, c2.store)
    ensures Mirrors(x, c2, turn1(c1, i, page), turn2(c2, i, page))
  {
  }

  lemma ScansTurn(x: Setting)
    requires Timely(x)
    ensures TurnKeeps(x, Turn(x.p, x.operation, x.first))
    ensures TurnsMirror(x, Turn(x.p, x.operation, x.first), Turn(x.p, x.operation, x.second))
  {
    var turn1, turn2 := Turn(x.p, x.operation, x.first), Turn(x.p, x.operation, x.second);
    forall c: Cursor, i: nat, page: nat | Ready1(x, c) ensures Keeps(x, c, turn1(c, i, page)) {
      FirstVisit(x, c, i, page);
    }
    forall c1: Cursor, c2: Cursor, i: nat, page: nat |
      Ready1(x, c1) && Ready2(x, c2) && Alike(c1, c2) && GoesOn(turn1(c1, i, page))
      && Within(x, turn1(c1, i, page).c.visited) && Carried(x, turn1(c1, i, page).c.store, c2.store)
      ensures Mirrors(x, c2, turn1(c1, i, page), turn2(c2, i, page))
    {
      SecondVisit(x, c1, c2, i, page);
    }
  }

  lemma StartIsOk(x: Setting, s: Store, run: RunId, started: Time)
    requires Sound(s) && run !in s.runs
    ensures var c := StartOf(s, run, x.p, x.operation, started);
      CursorOk(x.p, x.operation, c) && Active(c) && c.store.cache == s.cache && Ids(c) == {} && c.calls == 0
  {
    SoundCreate(s, run, x.operation, x.p.maxResults, x.p.maxApiCalls, started + LEASE);
  }

  /** The repeat, from any store that still has the pages. */
  lemma RepeatFrom(x: Setting, s: Store, run1: RunId, started1: Time, s': Store, run2: RunId, started2: Time)
    requires Sound(s) && run1 !in s.runs && Timely(x) && Settled(x, s)
    requires var (f1, o1) := ScanAll(s, run1, x.p, x.operation, x.first, started1);
      Done(o1) && Within(x, f1.visited) && Carried(x, f1.store, s')
    requires Sound(s') && run2 !in s'.runs
    ensures var (f1, o1) := ScanAll(s, run1, x.p, x.operation, x.first, started1);
      var (f2, o2) := ScanAll(s', run2, x.p, x.operation, x.second, started2);
      o2 == o1 && Alike(f1, f2) && f1.run == run1 && f2.run == run2
  {
    var turn1, turn2 := Turn(x.p, x.operation, x.first), Turn(x.p, x.operation, x.second);
    var c1 := StartOf(s, run1, x.p, x.operation, started1);
    ScansTurn(x);
    StartIsOk(x, s, run1, started1);
    LoopKeeps(x, turn1, |x.p.keywords|, x.p.maxPages, c1, 0, 1, AllKeywordsCompleted);
    var c2 := StartOf(s', run2, x.p, x.operation, started2);
    StartIsOk(x, s', run2, started2);
    LoopReplays(x, turn1, turn2, |x.p.keywords|, x.p.maxPages, c1, c2, 0, 1, AllKeywordsCompleted);
  }

  /** The store after whatever other runs did to it. */
  function After(s: Store, others: seq<Event>): Store {
    if others == [] then s
    else Next(World(After(s, others[..|others| - 1]), []), others[|others| - 1]).store
  }

  /** Nobody reads a clock past the deadline: a claim purges what has expired by its own. */
  ghost predicate Early(others: seq<Event>, deadline: Time) {
    forall e | e in others && e.Claimed? :: e.now < deadline
  }

  /** Other runs replace no page that is cached past the deadline. */
  lemma {:induction false} OthersKeepPages(s: Store, others: seq<Event>, deadline: Time)
    requires Sound(s) && Early(others, deadline)
    ensures Sound(After(s, others)) && CacheKept(s, After(s, others), deadline)
  {
    if others != [] {
      var n := |others| - 1;
      OthersKeepPages(s, others[..n], deadline);
      SoundStep(After(s, others[..n]), others[n]);
      SoundIsOk(After(s, others[..n]));
      EventKeepsPages(World(After(s, others[..n]), []), others[n], deadline);
    }
  }

  lemma EventKeepsPages(w: World, e: Event, deadline: Time)
    requires KeysDisjoint(w.store) && (e.Claimed? ==> e.now < deadline)
    ensures CacheKept(w.store, Next(w, e).store, deadline)
  {
  }

  /** The scan completed, and the pages it visited neither expire during it nor before the
      deadline; `others` is what other runs do before it is repeated. */
  ghost predicate Repeatable(x: Setting, s: Store, run1: RunId, started1: Time, others: seq<Event>, run2: RunId) {
    && Sound(s) && run1 !in s.runs && Timely(x) && Settled(x, s) && Early(others, x.deadline)
    && var (f1, o1) := ScanAll(s, run1, x.p, x.operation, x.first, started1);
    Done(o1) && Within(x, f1.visited) && run2 !in After(f1.store, others).runs
  }

  /** Repeat a completed scan before any of the pages it visited expires, whatever other runs
      did in between: no gateway call is made, the same pages are visited in the same order,
      and the scan collects the same products and stops for the same reason. */
  lemma RepeatIsTransparent(x: Setting, s: Store, run1: RunId, started1: Time, others: seq<Event>, run2: RunId,
                            started2: Time)
    requires Repeatable(x, s, run1, started1, others, run2)
    ensures var (f1, o1) := ScanAll(s, run1, x.p, x.operation, x.first, started1);
      var (f2, o2) := ScanAll(After(f1.store, others), run2, x.p, x.operation, x.second, started2);
      && o2 == o1 && f2.calls == 0 && f2.visited == f1.visited && f2.unique == f1.unique
      && ResultsOf(f2.store, run2).Keys == ResultsOf(f1.store, run1).Keys
      && f2.pages == f1.pages && Products(f2.seen) == Products(f1.seen) && AllCached(f2) && f1.run == run1 && f2.run == run2
  {
    var (f1, o1) := ScanAll(s, run1, x.p, x.operation, x.first, started1);
    ScanIsSound(x, s, run1, started1);
    OthersKeepPages(f1.store, others, x.deadline);
    RepeatFrom(x, s, run1, started1, After(f1.store, others), run2, started2);
  }

  lemma ScanIsSound(x: Setting, s: Store, run: RunId, started: Time)
    requires Sound(s) && run !in s.runs && Timely(x) && Settled(x, s)
    ensures var (f, o) := ScanAll(s, run, x.p, x.operation, x.first, started);
      Done(o) ==> Sound(f.store)
  {
    var c := StartOf(s, run, x.p, x.operation, started);
    ScansTurn(x);
    StartIsOk(x, s, run, started);
    LoopKeeps(x, Turn(x.p, x.operation, x.first), |x.p.keywords|, x.p.maxPages, c, 0, 1, AllKeywordsCompleted);
  }

  // -------------------------------------------------------------- accounting

  ghost predicate Accounted(p: Profile, operation: Operation, step: Step) {
    && CursorOk(p, operation, step.c) && (step.Go? ==> Active(step.c))
    && (step.Halt? ==> step.outcome != Raised(StoreFailed(IntegrityError)))
  }

  lemma VisitAccounts(p: Profile, operation: Operation, script: Script, c: Cursor, i: nat, page: nat)
    requires CursorOk(p, operation, c) && Active(c)
    ensures Accounted(p, operation, Visit(p, operation, script, c, i, page))
  {
    if c.unique >= p.maxResults {
      FinishAccounts(p, operation, c, Completed, MaxResults);
    } else {
      var key := KeyAt(p, operation, i, page);
      VisitShows(p, operation, script, c, i, page);
      ShownIsAccounted(p, operation, script, c, key, PageSeen(script, c, key, ClaimFor(script, c, key)),
                       Visit(p, operation, script, c, i, page));
    }
  }

  lemma ShownIsAccounted(p: Profile, operation: Operation, script: Script, c: Cursor, key: Key, seen: Option<Page>, step: Step)
    requires VisitOk(p, operation, script, c, key, seen, step)
    ensures Accounted(p, operation, step)
  {
  }

  lemma {:induction false} LoopAccounts(p: Profile, operation: Operation, turn: Visitor, keywords: nat, maxPages: nat,
                                        c: Cursor, i: nat, page: nat, reason: StopReason)
    requires forall d: Cursor, j: nat, k: nat | CursorOk(p, operation, d) && Active(d) :: Accounted(p, operation, turn(d, j, k))
    requires CursorOk(p, operation, c) && Active(c)
    ensures var (f, o) := Loop(turn, keywords, maxPages, c, i, page, reason);
      CursorOk(p, operation, f) && o != Raised(StoreFailed(IntegrityError))
    decreases keywords - i, maxPages + 1 - page
  {
    if i >= keywords {
      FinishAccounts(p, operation, c, Completed, reason);
    } else if page > maxPages {
      LoopAccounts(p, operation, turn, keywords, maxPages, c, i + 1, 1, MaxPages);
    } else {
      var step := turn(c, i, page);
      assert Accounted(p, operation, step);
      match step
      case Halt(_, _) =>
      case Go(d, short) =>
        if short {
          LoopAccounts(p, operation, turn, keywords, maxPages, d, i + 1, 1, ShortPage);
        } else {
          LoopAccounts(p, operation, turn, keywords, maxPages, d, i, page + 1, reason);
        }
    }
  }

  /** However a scan ends, the calls it made are those its run was charged for, within the
      budget; its own count of products is the run's and the number of its result rows,
      within max_results; and no unique key of the tables was ever hit. */
  lemma ScanAccounts(s: Store, run: RunId, p: Profile, operation: Operation, script: Script, started: Time)
    requires Sound(s) && run !in s.runs
    ensures var (f, o) := ScanAll(s, run, p, operation, script, started);
      && o != Raised(StoreFailed(IntegrityError)) && f.run in f.store.runs
      && f.calls == f.store.runs[f.run].apiCalls <= p.maxApiCalls
      && f.unique == f.store.runs[f.run].unique == |ResultsOf(f.store, f.run)| <= p.maxResults
  {
    var x := Setting(p, operation, script, script, {}, 0);
    StartIsOk(x, s, run, started);
    forall d: Cursor, j: nat, k: nat | CursorOk(p, operation, d) && Active(d)
      ensures Accounted(p, operation, Turn(p, operation, script)(d, j, k))
    {
      VisitAccounts(p, operation, script, d, j, k);
    }
    LoopAccounts(p, operation, Turn(p, operation, script), |p.keywords|, p.maxPages,
                 StartOf(s, run, p, operation, started), 0, 1, AllKeywordsCompleted);
    SoundIsOk(ScanAll(s, run, p, operation, script, started).0.store);
  }
}
