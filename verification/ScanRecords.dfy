/** What a scan records: every product of every page it saw, until max_results. */
module ScanRecords {
  import opened Prelude
  import opened Discovery
  import opened DiscoveryRuns
  import opened DiscoverySafety
  import opened ScanSpec
  import ScanReplay

  function AllProducts(pages: seq<Page>): seq<Product> {
    if pages == [] then [] else AllProducts(pages[..|pages| - 1]) + pages[|pages| - 1].products
  }

  ghost function IdsOf(products: seq<Product>): set<ProductId> {
    set i | 0 <= i < |products| :: products[i].id
  }

  lemma AllProductsSnoc(pages: seq<Page>, page: Page)
    ensures AllProducts(pages + [page]) == AllProducts(pages) + page.products
  {
    assert (pages + [page])[..|pages|] == pages;
  }

  lemma IdsOfConcat(a: seq<Product>, b: seq<Product>)
    ensures IdsOf(a + b) == IdsOf(a) + IdsOf(b)
  {
    forall id ensures id in IdsOf(a + b) <==> id in IdsOf(a) || id in IdsOf(b) {
      if id in IdsOf(a) {
        var i :| 0 <= i < |a| && a[i].id == id;
        assert (a + b)[i].id == id;
      }
      if id in IdsOf(b) {
        var i :| 0 <= i < |b| && b[i].id == id;
        assert (a + b)[|a| + i].id == id;
      }
    }
  }

  /** A page is taken up to the point where max_results is reached, and as a whole if it is not. */
  lemma {:induction false} PickTakes(ids: set<ProductId>, products: seq<Product>, unique: nat, limit: nat)
    ensures var picked := Pick(ids, products, unique, limit);
      && picked.taken <= |products| && (picked.reached <==> picked.taken < |products|)
      && (picked.reached ==> picked.unique >= limit)
      && picked.ids == ids + IdsOf(products[..picked.taken])
    decreases |products|
  {
    if products == [] || unique >= limit {
      assert IdsOf([]) == {};
      assert products[..0] == [];
    } else {
      var first, rest := products[0], products[1..];
      PickTakes(ids + {first.id}, rest, unique + (if first.id in ids then 0 else 1), limit);
      var picked := Pick(ids, products, unique, limit);
      assert products[..picked.taken] == [first] + rest[..picked.taken - 1];
      IdsOfConcat([first], rest[..picked.taken - 1]);
      assert IdsOf([first]) == {first.id};
    }
  }

  /** The results of the run are the products of its pages, all of them. */
  ghost predicate AllRecorded(p: Profile, operation: Operation, c: Cursor) {
    && CursorOk(p, operation, c) && Products(c.seen) == AllProducts(c.pages)
    && ResultsOf(c.store, c.run).Keys == IdsOf(AllProducts(c.pages))
  }

  /** Or of a first part of them, if the run has all the results it may have. */
  ghost predicate RecordedUpTo(p: Profile, operation: Operation, c: Cursor, o: Outcome) {
    if o == Ended(Completed, MaxResults) then
      && CursorOk(p, operation, c) && Products(c.seen) <= AllProducts(c.pages) && c.unique >= p.maxResults
      && ResultsOf(c.store, c.run).Keys == IdsOf(Products(c.seen))
    else AllRecorded(p, operation, c)
  }

  ghost predicate Records(p: Profile, operation: Operation, step: Step) {
    match step
    case Go(d, _) => AllRecorded(p, operation, d) && Active(d)
    case Halt(d, o) => RecordedUpTo(p, operation, d, o)
  }

  /** A visit that sees no page records nothing. */
  lemma NothingSeen(p: Profile, operation: Operation, script: Script, c: Cursor, i: nat, page: nat)
    requires c.unique < p.maxResults && CursorOk(p, operation, c) && Active(c)
    requires var key := KeyAt(p, operation, i, page); PageSeen(script, c, key, ClaimFor(script, c, key)).None?
    ensures var step := Visit(p, operation, script, c, i, page);
      && step.Halt? && step.c.pages == c.pages && step.c.seen == c.seen && step.outcome != Ended(Completed, MaxResults)
      && step.c.run == c.run
  {
    var key := KeyAt(p, operation, i, page);
    if ClaimFor(script, c, key).Ok? {
      var (s, claim) := ClaimFor(script, c, key).value;
      if claim.Call? && script.ask(|c.visited|).Listed? {
        var d := AfterClaim(c, key, s, claim);
        assert FinishQuery(d.store, d.run, key, claim.token, script.ask(|c.visited|).page, script.clock(2 * |c.visited| + 1)).Err?;
      }
    }
  }

  /** Nor does it touch the results. */
  lemma UnseenKeepsResults(p: Profile, operation: Operation, script: Script, c: Cursor, i: nat, page: nat)
    requires c.unique < p.maxResults && CursorOk(p, operation, c) && Active(c)
    requires var key := KeyAt(p, operation, i, page); PageSeen(script, c, key, ClaimFor(script, c, key)).None?
    ensures Visit(p, operation, script, c, i, page).c.store.results == c.store.results
  {
    var key := KeyAt(p, operation, i, page);
    if ClaimFor(script, c, key).Ok? {
      var (s, claim) := ClaimFor(script, c, key).value;
      assert s.results == c.store.results;
      if claim.Call? && script.ask(|c.visited|).Listed? {
        var d := AfterClaim(c, key, s, claim);
        assert FinishQuery(d.store, d.run, key, claim.token, script.ask(|c.visited|).page, script.clock(2 * |c.visited| + 1)).Err?;
      }
    }
  }

  lemma VisitRecords(p: Profile, operation: Operation, script: Script, c: Cursor, i: nat, page: nat)
    requires AllRecorded(p, operation, c) && Active(c)
    ensures Records(p, operation, Visit(p, operation, script, c, i, page))
  {
    var step := Visit(p, operation, script, c, i, page);
    if c.unique >= p.maxResults {
      FinishAccounts(p, operation, c, Completed, MaxResults);
    } else {
      var key := KeyAt(p, operation, i, page);
      var seen := PageSeen(script, c, key, ClaimFor(script, c, key));
      ScanReplay.VisitShows(p, operation, script, c, i, page);
      match seen
      case Some(found) => PageRecords(p, operation, c, step, found);
      case None =>
        NothingSeen(p, operation, script, c, i, page);
        UnseenKeepsResults(p, operation, script, c, i, page);
    }
  }

  lemma PageRecords(p: Profile, operation: Operation, c: Cursor, step: Step, page: Page)
    requires AllRecorded(p, operation, c) && CursorOk(p, operation, step.c) && Took(p, c, step, page)
    ensures Records(p, operation, step)
  {
    var picked := Pick(Ids(c), page.products, c.unique, p.maxResults);
    PickTakes(Ids(c), page.products, c.unique, p.maxResults);
    AllProductsSnoc(c.pages, page);
    IdsOfConcat(AllProducts(c.pages), page.products[..picked.taken]);
    if !picked.reached {
      assert page.products[..picked.taken] == page.products;
    } else {
      assert AllProducts(step.c.pages) == AllProducts(c.pages) + page.products[..picked.taken] + page.products[picked.taken..];
    }
  }

  // ------------------------------------------------------------------ the loops

  lemma EndRecords(p: Profile, operation: Operation, c: Cursor, reason: StopReason)
    requires AllRecorded(p, operation, c) && Active(c) && reason != MaxResults
    ensures RecordedUpTo(p, operation, Finish(c, Completed, reason).c, Finish(c, Completed, reason).outcome)
  {
    FinishAccounts(p, operation, c, Completed, reason);
  }

  ghost predicate TurnKeeps(turn: Visitor, ok: Cursor -> bool, ends: (Cursor, Outcome) -> bool) {
    forall c: Cursor, i: nat, page: nat | ok(c) ::
      match turn(c, i, page)
      case Go(d, _) => ok(d)
      case Halt(d, o) => ends(d, o)
  }

  ghost predicate EndKeeps(ok: Cursor -> bool, ends: (Cursor, Outcome) -> bool) {
    forall c: Cursor, reason: StopReason | ok(c) && reason != MaxResults ::
      ends(Finish(c, Completed, reason).c, Finish(c, Completed, reason).outcome)
  }

  /** What every turn keeps, the loops keep. */
  lemma {:induction false} LoopKeeps(turn: Visitor, keywords: nat, maxPages: nat, c: Cursor, i: nat, page: nat,
                                     reason: StopReason, ok: Cursor -> bool, ends: (Cursor, Outcome) -> bool)
    requires TurnKeeps(turn, ok, ends) && EndKeeps(ok, ends) && ok(c) && reason != MaxResults
    ensures var (f, o) := Loop(turn, keywords, maxPages, c, i, page, reason); ends(f, o)
    decreases keywords - i, maxPages + 1 - page
  {
    if i >= keywords {
      assert ends(Finish(c, Completed, reason).c, Finish(c, Completed, reason).outcome);
    } else if page > maxPages {
      LoopKeeps(turn, keywords, maxPages, c, i + 1, 1, MaxPages, ok, ends);
    } else {
      var step := turn(c, i, page);
      match step
      case Halt(_, _) =>
      case Go(d, short) =>
        if short {
          LoopKeeps(turn, keywords, maxPages, d, i + 1, 1, ShortPage, ok, ends);
        } else {
          LoopKeeps(turn, keywords, maxPages, d, i, page + 1, reason, ok, ends);
        }
    }
  }

  /** However a scan ends, its results are exactly the products of the pages it saw, in their
      order, up to the point where max_results was reached if it was. */
  lemma PagesAreRecorded(s: Store, run: RunId, p: Profile, operation: Operation, script: Script, started: Time)
    requires Sound(s) && run !in s.runs
    ensures var (f, o) := ScanAll(s, run, p, operation, script, started);
      && Products(f.seen) <= AllProducts(f.pages) && f.run in f.store.runs
      && ResultsOf(f.store, f.run).Keys == IdsOf(Products(f.seen))
      && (if o == Ended(Completed, MaxResults) then f.unique >= p.maxResults else Products(f.seen) == AllProducts(f.pages))
  {
    var c := StartOf(s, run, p, operation, started);
    var x := ScanReplay.Setting.Setting(p, operation, script, script, {}, 0);
    ScanReplay.StartIsOk(x, s, run, started);
    assert AllProducts([]) == [] && IdsOf([]) == {};
    var turn := Turn(p, operation, script);
    var ok := (d: Cursor) => AllRecorded(p, operation, d) && Active(d);
    var ends := (d: Cursor, o: Outcome) => RecordedUpTo(p, operation, d, o);
    forall d: Cursor, i: nat, page: nat | ok(d)
      ensures match turn(d, i, page)
              case Go(e, _) => ok(e)
              case Halt(e, o) => ends(e, o)
    {
      VisitRecords(p, operation, script, d, i, page);
    }
    forall d: Cursor, reason: StopReason | ok(d) && reason != MaxResults
      ensures ends(Finish(d, Completed, reason).c, Finish(d, Completed, reason).outcome)
    {
      EndRecords(p, operation, d, reason);
    }
    LoopKeeps(turn, |p.keywords|, p.maxPages, c, 0, 1, AllKeywordsCompleted, ok, ends);
    var (f, o) := ScanAll(s, run, p, operation, script, started);
    assert ends(f, o);
  }
}
