/**
 Which price a scan reports, and when repeating it reports the same: a product seen in an
 old cached page and then in a live one is reported with the live price, but the repeat
 finds both pages cached and reports the first.
 */
module ScanPrices {
  import opened Prelude
  import opened Discovery
  import opened DiscoveryRuns
  import opened DiscoverySafety
  import opened ScanSpec
  import opened ScanReplay

  type Log = seq<(Product, Origin)>

  /** The origin and price that a run's row shows after the products of a log. */
  function Shown(log: Log, id: ProductId): Option<(Origin, Option<real>)> {
    if log == [] then None
    else
      var before := Shown(log[..|log| - 1], id);
      var (product, origin) := log[|log| - 1];
      if product.id != id then before
      else if before.None? || (before.value.0 == FromCache && origin == Live) then Some((origin, product.price))
      else before
  }

  /** The first occurrence of a product in a log, or the first LIVE one. */
  function FirstOf(log: Log, id: ProductId, live: bool): Option<Product> {
    if log == [] then None
    else if log[0].0.id == id && (!live || log[0].1 == Live) then Some(log[0].0)
    else FirstOf(log[1..], id, live)
  }

  lemma {:induction false} FirstOfSnoc(log: Log, last: (Product, Origin), id: ProductId, live: bool)
    ensures FirstOf(log + [last], id, live) ==
      if FirstOf(log, id, live).Some? then FirstOf(log, id, live)
      else if last.0.id == id && (!live || last.1 == Live) then Some(last.0) else None
  {
    if log == [] {
      assert (log + [last])[1..] == [];
    } else {
      assert (log + [last])[1..] == log[1..] + [last];
      FirstOfSnoc(log[1..], last, id, live);
    }
  }

  /** A row shows the first LIVE occurrence if there is one, and else the first of all. */
  lemma {:induction false} ShownIsFirst(log: Log, id: ProductId)
    ensures Shown(log, id) ==
      match FirstOf(log, id, true)
      case Some(product) => Some((Live, product.price))
      case None =>
        match FirstOf(log, id, false)
        case Some(product) => Some((FromCache, product.price))
        case None => None
    ensures FirstOf(log, id, true).Some? ==> FirstOf(log, id, false).Some?
  {
    if log != [] {
      var n := |log| - 1;
      assert log == log[..n] + [log[n]];
      ShownIsFirst(log[..n], id);
      FirstOfSnoc(log[..n], log[n], id, true);
      FirstOfSnoc(log[..n], log[n], id, false);
    }
  }

  /** The rows of a scan's run show what its log says. */
  ghost predicate RowsShow(s: Store, run: RunId, log: Log) {
    forall id :: Shown(log, id) ==
      if id in ResultsOf(s, run) then Some((ResultsOf(s, run)[id].origin, ResultsOf(s, run)[id].price)) else None
  }

  lemma RecordShows(s: Store, run: RunId, product: Product, origin: Origin, log: Log)
    requires RowsShow(s, run, log) && RecordProduct(s, run, product, origin).Ok?
    ensures RowsShow(RecordProduct(s, run, product, origin).value.0, run, log + [(product, origin)])
  {
    assert (log + [(product, origin)])[..|log|] == log;
    var t := RecordProduct(s, run, product, origin).value.0;
    forall id ensures Shown(log + [(product, origin)], id) ==
      if id in ResultsOf(t, run) then Some((ResultsOf(t, run)[id].origin, ResultsOf(t, run)[id].price)) else None
    {
    }
  }

  lemma TaggedCons(log: Log, product: Product, rest: seq<Product>, origin: Origin)
    ensures log + [(product, origin)] + Tagged(rest, origin) == log + Tagged([product] + rest, origin)
    ensures log + Tagged([], origin) == log
  {
  }

  lemma {:induction false} RecordPageShows(s: Store, run: RunId, products: seq<Product>, origin: Origin,
                                           unique: nat, limit: nat, log: Log)
    requires RowsShow(s, run, log)
    ensures var taken := RecordPage(s, run, products, origin, unique, limit);
      RowsShow(taken.store, run, log + Tagged(taken.products, origin))
    decreases |products|
  {
    if products == [] || unique >= limit {
      TaggedCons(log, Product(0, None, 0), [], origin);
    } else {
      var r := RecordProduct(s, run, products[0], origin);
      if r.Ok? {
        var (t, recorded) := r.value;
        var next := unique + if recorded.insertedUnique then 1 else 0;
        RecordShows(s, run, products[0], origin, log);
        RecordPageShows(t, run, products[1..], origin, next, limit, log + [(products[0], origin)]);
        TaggedCons(log, products[0], RecordPage(t, run, products[1..], origin, next, limit).products, origin);
      } else {
        TaggedCons(log, Product(0, None, 0), [], origin);
      }
    }
  }

  ghost predicate AllLive(log: Log) {
    forall i | 0 <= i < |log| :: log[i].1 == Live
  }

  /** The rows show the log, which holds cached sightings only if a query was a cache hit. */
  ghost predicate CursorShows(c: Cursor) {
    && RowsShow(c.store, c.run, c.seen)
    && c.calls <= |c.visited| && (c.calls == |c.visited| ==> AllLive(c.seen))
  }

  lemma FinishShows(c: Cursor, state: RunState, reason: StopReason)
    requires CursorShows(c) && state != Running
    ensures CursorShows(Finish(c, state, reason).c) && Finish(c, state, reason).c.run == c.run
  {
    assert ResultsOf(Finish(c, state, reason).c.store, c.run) == ResultsOf(c.store, c.run);
  }

  lemma PageShows(p: Profile, c: Cursor, s: Store, page: Page, origin: Origin)
    requires CursorShows(c) && ResultsOf(s, c.run) == ResultsOf(c.store, c.run)
    requires origin == FromCache ==> c.calls < |c.visited|
    ensures var step := AfterRecord(p, c, page, RecordPage(s, c.run, page.products, origin, c.unique, p.maxResults), origin);
      CursorShows(step.c) && step.c.run == c.run
  {
    RecordPageShows(s, c.run, page.products, origin, c.unique, p.maxResults, c.seen);
    var taken := RecordPage(s, c.run, page.products, origin, c.unique, p.maxResults);
    var d := c.(store := taken.store, unique := taken.unique, seen := c.seen + Tagged(taken.products, origin),
                pages := c.pages + [page]);
    FinishShows(d, Completed, MaxResults);
  }

  lemma QueryShows(p: Profile, script: Script, c: Cursor, n: nat, key: Key, token: Token)
    requires CursorShows(c)
    ensures CursorShows(Query(p, script, c, n, key, token).c) && Query(p, script, c, n, key, token).c.run == c.run
  {
    match script.ask(n)
    case Listed(page) =>
      match FinishQuery(c.store, c.run, key, token, page, script.clock(2 * n + 1)) {
        case Ok(s) => PageShows(p, c, s, page, Live);
        case Err(_) =>
      }
    case ProviderFailure(review) =>
    case Interrupted =>
  }

  lemma AnsweredShows(p: Profile, script: Script, c: Cursor, n: nat, key: Key, claim: QueryClaim)
    requires CursorShows(c) && (claim.Cached? ==> c.calls < |c.visited|)
    ensures CursorShows(Answered(p, script, c, n, key, claim).c) && Answered(p, script, c, n, key, claim).c.run == c.run
  {
    match claim
    case InProgress => FinishShows(c, Stopped, ConcurrentQuery);
    case Cached(found) => PageShows(p, c, c.store, found, FromCache);
    case Call(token) => QueryShows(p, script, c, n, key, token);
  }

  lemma ResolveShows(p: Profile, script: Script, c: Cursor, key: Key, r: Result<(Store, QueryClaim), DiscoveryError>)
    requires CursorShows(c) && (r.Ok? ==> ResultsOf(r.value.0, c.run) == ResultsOf(c.store, c.run))
    ensures CursorShows(Resolve(p, script, c, key, r).c) && Resolve(p, script, c, key, r).c.run == c.run
  {
    match r
    case Err(error) => FinishShows(c, Completed, MaxApiCalls);
    case Ok((s, claim)) => AnsweredShows(p, script, AfterClaim(c, key, s, claim), |c.visited|, key, claim);
  }

  lemma VisitRows(p: Profile, operation: Operation, script: Script, c: Cursor, i: nat, page: nat)
    requires CursorShows(c)
    ensures var d := Visit(p, operation, script, c, i, page).c; CursorShows(d) && d.run == c.run
  {
    var key := KeyAt(p, operation, i, page);
    FinishShows(c, Completed, MaxResults);
    ResolveShows(p, script, c, key, ClaimFor(script, c, key));
  }

  lemma {:induction false} LoopShows(turn: Visitor, keywords: nat, maxPages: nat, c: Cursor, i: nat, page: nat, reason: StopReason)
    requires forall d: Cursor, j: nat, k: nat | CursorShows(d) :: CursorShows(turn(d, j, k).c) && turn(d, j, k).c.run == d.run
    requires CursorShows(c)
    ensures var (f, o) := Loop(turn, keywords, maxPages, c, i, page, reason);
      CursorShows(f) && f.run == c.run
    decreases keywords - i, maxPages + 1 - page
  {
    if i >= keywords {
      FinishShows(c, Completed, reason);
    } else if page > maxPages {
      LoopShows(turn, keywords, maxPages, c, i + 1, 1, MaxPages);
    } else {
      assert CursorShows(turn(c, i, page).c);
      match turn(c, i, page)
      case Halt(_, _) =>
      case Go(d, short) =>
        if short {
          LoopShows(turn, keywords, maxPages, d, i + 1, 1, ShortPage);
        } else {
          LoopShows(turn, keywords, maxPages, d, i, page + 1, reason);
        }
    }
  }

  /** However a scan ends, every result row shows the first LIVE sighting of its product,
      or the first sighting when none was LIVE; and there is a row for each sighting. */
  lemma RowsShowFirstSighting(s: Store, run: RunId, p: Profile, operation: Operation, script: Script, started: Time, id: ProductId)
    ensures var (f, o) := ScanAll(s, run, p, operation, script, started);
      var rows := ResultsOf(f.store, run);
      f.run == run && (f.calls == |f.visited| ==> AllLive(f.seen)) &&
      match FirstOf(f.seen, id, true)
      case Some(product) => id in rows && rows[id].origin == Live && rows[id].price == product.price
      case None =>
        match FirstOf(f.seen, id, false)
        case Some(product) => id in rows && rows[id].origin == FromCache && rows[id].price == product.price
        case None => id !in rows
  {
    var turn := Turn(p, operation, script);
    var c := StartOf(s, run, p, operation, started);
    forall d: Cursor, j: nat, k: nat | CursorShows(d) ensures CursorShows(turn(d, j, k).c) && turn(d, j, k).c.run == d.run {
      VisitRows(p, operation, script, d, j, k);
    }
    LoopShows(turn, |p.keywords|, p.maxPages, c, 0, 1, AllKeywordsCompleted);
    ShownIsFirst(ScanAll(s, run, p, operation, script, started).0.seen, id);
  }

  // ------------------------------------------------------- prices of a repeat

  lemma {:induction false} SameProductsSameFirst(a: Log, b: Log, id: ProductId)
    requires Products(a) == Products(b)
    ensures FirstOf(a, id, false) == FirstOf(b, id, false)
  {
    assert |Products(a)| == |a| && |Products(b)| == |b|;
    if a != [] {
      assert Products(a)[0] == a[0].0 && Products(b)[0] == b[0].0;
      assert Products(a[1..]) == Products(a)[1..] && Products(b[1..]) == Products(b)[1..];
      SameProductsSameFirst(a[1..], b[1..], id);
    }
  }

  lemma {:induction false} FirstOfOneOrigin(log: Log, id: ProductId)
    ensures (forall i | 0 <= i < |log| :: log[i].1 == FromCache) ==> FirstOf(log, id, true).None?
    ensures AllLive(log) ==> FirstOf(log, id, true) == FirstOf(log, id, false)
  {
    if log != [] {
      FirstOfOneOrigin(log[1..], id);
      assert forall i | 0 <= i < |log| - 1 :: log[1..][i] == log[i + 1];
    }
  }

  /** A product keeps its first sighting's price when it is then seen LIVE. */
  predicate SightingsAgree(log: Log, id: ProductId) {
    FirstOf(log, id, true).Some? && FirstOf(log, id, false).Some? ==>
      FirstOf(log, id, true).value.price == FirstOf(log, id, false).value.price
  }

  /** Prices are not transparent in general: the repeat reports a product's price again
      exactly when the first scan's first LIVE sighting of it agreed with its first
      sighting, which always holds when no query of the first scan hit the cache. */
  lemma RepeatKeepsPriceIff(x: Setting, s: Store, run1: RunId, started1: Time, others: seq<Event>, run2: RunId,
                            started2: Time, id: ProductId)
    requires Repeatable(x, s, run1, started1, others, run2)
    requires id in ResultsOf(ScanAll(s, run1, x.p, x.operation, x.first, started1).0.store, run1)
    ensures var f1 := ScanAll(s, run1, x.p, x.operation, x.first, started1).0;
      var f2 := ScanAll(After(f1.store, others), run2, x.p, x.operation, x.second, started2).0;
      && id in ResultsOf(f2.store, run2)
      && (ResultsOf(f2.store, run2)[id].price == ResultsOf(f1.store, run1)[id].price <==> SightingsAgree(f1.seen, id))
      && (f1.calls == |f1.visited| ==> SightingsAgree(f1.seen, id))
  {
    var f1 := ScanAll(s, run1, x.p, x.operation, x.first, started1).0;
    var f2 := ScanAll(After(f1.store, others), run2, x.p, x.operation, x.second, started2).0;
    RepeatIsTransparent(x, s, run1, started1, others, run2, started2);
    RowsShowFirstSighting(s, run1, x.p, x.operation, x.first, started1, id);
    RowsShowFirstSighting(After(f1.store, others), run2, x.p, x.operation, x.second, started2, id);
    ShownIsFirst(f1.seen, id);
    SameProductsSameFirst(f1.seen, f2.seen, id);
    FirstOfOneOrigin(f2.seen, id);
    FirstOfOneOrigin(f1.seen, id);
  }
}
