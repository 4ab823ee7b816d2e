/** A scan whose repeat reports another price. */
module ScanExample {
  import opened Prelude
  import opened Discovery
  import opened DiscoveryRuns
  import opened DiscoverySafety
  import opened ScanSpec
  import opened ScanReplay
  import opened ScanPrices

  const OLD := Product(5, Some(10.0), 0)
  const NEW := Product(5, Some(8.0), 0)

  /** One keyword, two pages of one product each; the gateway now lists the product cheaper. */
  function Example(): Setting {
    Setting(Profile(0, ["k"], 1, 2, 9, 9), ProductQuery,
            Script((n: nat) => Listed(Page([NEW], 0, None, None)), (n: nat) => 10),
            Script((n: nat) => Interrupted, (n: nat) => 20), {PageKey(1), PageKey(2)}, 100)
  }

  function PageKey(page: nat): Key {
    Key(ProductQuery, 0, "k", page)
  }

  /** An earlier run stored page 1 with the old price, and ended. */
  function EarlierRun(): seq<Event> {
    [Created(0, ProductQuery, 9, 9, 60), Claimed(0, PageKey(1), 0, 60, Token(0, 0)),
     PageStored(0, PageKey(1), Token(0, 0), Page([OLD], 0, None, None), 0), RunFinished(0, Completed, MaxPages)]
  }

  lemma EarlierStore() returns (s: Store)
    ensures Sound(s) && s.runs.Keys == {0} && s.results == map[0 := map[]] && s.claims == map[] && s.snapshots == []
    ensures s.cache == map[PageKey(1) := Encode(Page([OLD], 0, None, None), ProductQuery, 0)]
    ensures s.runs[0].state == Completed && s.runs[0].leaseUntil.None?
  {
    var events := EarlierRun();
    var w1 := Next(Start(), events[0]);
    var w2 := Next(w1, events[1]);
    var w3 := Next(w2, events[2]);
    var w4 := Next(w3, events[3]);
    HistorySnoc([], events[0]);
    HistorySnoc([] + [events[0]], events[1]);
    HistorySnoc([] + [events[0]] + [events[1]], events[2]);
    HistorySnoc([] + [events[0]] + [events[1]] + [events[2]], events[3]);
    assert events == [] + [events[0]] + [events[1]] + [events[2]] + [events[3]];
    assert History(events) == w4;
    assert w2.store.claims == map[PageKey(1) := Claim(0, Token(0, 0), 60)];
    s := w4.store;
    assert s.claims == map[];
  }

  /** The cursor of a scan that has just begun, over that store. */
  ghost predicate Begun(c: Cursor) {
    && c.run == 1 && c.unique == 0 && c.visited == [] && c.seen == []
    && Active(c) && c.store.runs[1].maxResults == 9 && c.store.runs[1].unique == 0 && c.store.runs[1].apiCalls == 0
    && c.store.runs[1].maxApiCalls == 9 && c.store.runs[1].operation == ProductQuery
    && c.store.claims == map[] && c.store.snapshots == [] && 1 in c.store.results && c.store.results[1] == map[]
    && c.store.cache == map[PageKey(1) := Encode(Page([OLD], 0, None, None), ProductQuery, 0)]
  }

  lemma ExampleScan(x: Setting, s: Store)
    requires x == Example() && s.runs.Keys == {0} && s.results == map[0 := map[]] && s.claims == map[] && s.snapshots == []
    requires s.cache == map[PageKey(1) := Encode(Page([OLD], 0, None, None), ProductQuery, 0)]
    ensures var (f1, o1) := ScanAll(s, 1, x.p, x.operation, x.first, 10);
      && o1 == Ended(Completed, MaxPages) && f1.seen == [(OLD, FromCache), (NEW, Live)]
      && f1.visited == [PageKey(1), PageKey(2)] && f1.store.runs.Keys == {0, 1}
  {
    var c := StartOf(s, 1, x.p, x.operation, 10);
    assert Begun(c) && c.store.runs.Keys == {0, 1};
    BegunScan(x, c);
  }

  lemma BegunScan(x: Setting, c: Cursor)
    requires x == Example() && Begun(c)
    ensures var (f1, o1) := Loop(Turn(x.p, x.operation, x.first), |x.p.keywords|, x.p.maxPages, c, 0, 1, AllKeywordsCompleted);
      && o1 == Ended(Completed, MaxPages) && f1.seen == [(OLD, FromCache), (NEW, Live)]
      && f1.visited == [PageKey(1), PageKey(2)] && f1.store.runs.Keys == c.store.runs.Keys
  {
    var c1 := FirstPageIsOld(x, c);
    var c2 := SecondPageIsNew(x, c1);
    ExampleEnds(x, c, c1, c2);
  }

  lemma ExampleSetting() returns (x: Setting, s: Store)
    ensures Repeatable(x, s, 1, 10, [], 2) && s.runs.Keys == {0} && s.runs[0].state == Completed
    ensures ScanAll(s, 1, x.p, x.operation, x.first, 10).0.seen == [(OLD, FromCache), (NEW, Live)]
  {
    x := Example();
    s := EarlierStore();
    ExampleScan(x, s);
    ExampleIsRepeatable(x, s);
  }

  /** Its first page comes from the cache, its second is live: the scan reports the new
      price, and repeating it at once reports the old one. */
  lemma RepeatMayChangePrice() returns (x: Setting, s: Store)
    ensures Repeatable(x, s, 1, 10, [], 2) && s.runs.Keys == {0} && s.runs[0].state == Completed
    ensures var (f1, o1) := ScanAll(s, 1, x.p, x.operation, x.first, 10);
      var (f2, o2) := ScanAll(f1.store, 2, x.p, x.operation, x.second, 20);
      && Done(o1) && o2 == o1 && 5 in ResultsOf(f1.store, 1) && 5 in ResultsOf(f2.store, 2)
      && ResultsOf(f1.store, 1)[5].price == Some(8.0)
      && ResultsOf(f2.store, 2)[5].price != Some(8.0)
  {
    x, s := ExampleSetting();
    PriceIsForgotten(x, s);
  }

  lemma PriceIsForgotten(x: Setting, s: Store)
    requires Repeatable(x, s, 1, 10, [], 2)
    requires ScanAll(s, 1, x.p, x.operation, x.first, 10).0.seen == [(OLD, FromCache), (NEW, Live)]
    ensures var (f1, o1) := ScanAll(s, 1, x.p, x.operation, x.first, 10);
      var (f2, o2) := ScanAll(f1.store, 2, x.p, x.operation, x.second, 20);
      && Done(o1) && o2 == o1 && 5 in ResultsOf(f1.store, 1) && 5 in ResultsOf(f2.store, 2)
      && ResultsOf(f1.store, 1)[5].price == Some(8.0)
      && ResultsOf(f2.store, 2)[5].price != Some(8.0)
  {
    PriceWentDown(ScanAll(s, 1, x.p, x.operation, x.first, 10).0.seen);
    RowsShowFirstSighting(s, 1, x.p, x.operation, x.first, 10, 5);
    RepeatIsTransparent(x, s, 1, 10, [], 2, 20);
    RepeatKeepsPriceIff(x, s, 1, 10, [], 2, 20, 5);
  }

  lemma PriceWentDown(log: Log)
    requires log == [(OLD, FromCache), (NEW, Live)]
    ensures FirstOf(log, 5, false) == Some(OLD) && FirstOf(log, 5, true) == Some(NEW) && !SightingsAgree(log, 5)
  {
    assert log[1..] == [(NEW, Live)];
    assert log[0] == (OLD, FromCache) && FirstOf(log, 5, false) == Some(OLD);
    assert FirstOf(log[1..], 5, true) == Some(NEW) == FirstOf(log, 5, true);
  }

  lemma ExampleIsRepeatable(x: Setting, s: Store)
    requires x == Example() && Sound(s) && 1 !in s.runs
    requires s.cache == map[PageKey(1) := Encode(Page([OLD], 0, None, None), ProductQuery, 0)]
    requires var (f1, o1) := ScanAll(s, 1, x.p, x.operation, x.first, 10);
      Done(o1) && f1.visited == [PageKey(1), PageKey(2)] && 2 !in f1.store.runs
    ensures Repeatable(x, s, 1, 10, [], 2)
  {
  }

  lemma FirstPageIsOld(x: Setting, c: Cursor) returns (d: Cursor)
    requires x == Example() && Begun(c)
    ensures Visit(x.p, x.operation, x.first, c, 0, 1) == Go(d, false)
    ensures d.run == 1 && d.unique == 1 && d.visited == [PageKey(1)] && d.seen == [(OLD, FromCache)]
    ensures Active(d) && d.store.runs[1] == c.store.runs[1].(
              leaseUntil := Some(70), cacheHits := c.store.runs[1].cacheHits + 1, pages := c.store.runs[1].pages + 1,
              received := c.store.runs[1].received + 1, unique := 1)
    ensures d.store.claims == map[] && d.store.snapshots == [] && d.store.cache == c.store.cache
    ensures d.store.runs.Keys == c.store.runs.Keys
    ensures 1 in d.store.results && d.store.results[1] == map[5 := Row(FromCache, None, Some(10.0), 1)]
  {
    CacheRoundTrip(Page([OLD], 0, None, None), ProductQuery, 0);
    var key := PageKey(1);
    assert KeyAt(x.p, x.operation, 0, 1) == key;
    var r := ClaimFor(x.first, c, key);
    assert Refreshed(c.store, 1, 10, 70).cache == c.store.cache;
    assert r.Ok? && r.value.1 == Cached(Page([OLD], 0, None, None));
    var e := AfterClaim(c, key, r.value.0, r.value.1);
    var t := RecordProduct(e.store, 1, OLD, FromCache).value.0;
    assert [OLD][1..] == [];
    assert RecordPage(e.store, 1, [OLD], FromCache, 0, 9) == Taken(t, 1, [OLD], false, None);
    assert Tagged([OLD], FromCache) == [(OLD, FromCache)];
    d := e.(store := t, unique := 1, seen := [(OLD, FromCache)], pages := e.pages + [Page([OLD], 0, None, None)]);
  }

  lemma NewIsTaken(s: Store) returns (t: Store)
    requires 1 in s.runs && s.runs[1].maxResults == 9 && s.runs[1].unique == 1
    requires 1 in s.results && s.results[1] == map[5 := Row(FromCache, None, Some(10.0), 1)] && s.snapshots == []
    ensures RecordPage(s, 1, [NEW], Live, 1, 9) == Taken(t, 1, [NEW], false, None)
    ensures t == RecordProduct(s, 1, NEW, Live).value.0
  {
    assert [NEW][1..] == [];
    t := RecordProduct(s, 1, NEW, Live).value.0;
  }

  lemma SecondPageIsNew(x: Setting, c: Cursor) returns (d: Cursor)
    requires x == Example() && c.run == 1 && c.unique == 1 && |c.visited| == 1 && c.seen == [(OLD, FromCache)]
    requires Active(c) && c.store.runs[1].maxResults == 9 && c.store.runs[1].unique == 1 && c.store.runs[1].apiCalls == 0
    requires c.store.runs[1].maxApiCalls == 9
    requires c.store.claims == map[] && c.store.snapshots == [] && PageKey(2) !in c.store.cache
    requires 1 in c.store.results && c.store.results[1] == map[5 := Row(FromCache, None, Some(10.0), 1)]
    ensures Visit(x.p, x.operation, x.first, c, 0, 2) == Go(d, false)
    ensures d.run == 1 && d.unique == 1 && d.seen == [(OLD, FromCache), (NEW, Live)]
    ensures d.visited == c.visited + [PageKey(2)]
    ensures Active(d) && d.store.runs.Keys == c.store.runs.Keys
  {
    var key := PageKey(2);
    assert KeyAt(x.p, x.operation, 0, 2) == key;
    var r := ClaimFor(x.first, c, key);
    assert r.Ok? && r.value.1 == Call(Token(1, 1));
    var e := AfterClaim(c, key, r.value.0, r.value.1);
    assert e.store.claims == map[key := Claim(1, Token(1, 1), 70)];
    var page := Page([NEW], 0, None, None);
    var f := FinishQuery(e.store, 1, key, Token(1, 1), page, 10);
    assert f.Ok?;
    var t := NewIsTaken(f.value);
    assert Tagged([NEW], Live) == [(NEW, Live)];
    d := e.(store := t, seen := [(OLD, FromCache), (NEW, Live)], pages := e.pages + [page]);
  }

  lemma ExampleEnds(x: Setting, c: Cursor, c1: Cursor, c2: Cursor)
    requires x == Example() && Active(c2)
    requires Visit(x.p, x.operation, x.first, c, 0, 1) == Go(c1, false)
    requires Visit(x.p, x.operation, x.first, c1, 0, 2) == Go(c2, false)
    ensures var (f, o) := Loop(Turn(x.p, x.operation, x.first), |x.p.keywords|, x.p.maxPages, c, 0, 1, AllKeywordsCompleted);
      && o == Ended(Completed, MaxPages) && f.seen == c2.seen && f.run == c2.run && f.visited == c2.visited
      && f.store.runs.Keys == c2.store.runs.Keys
  {
    var turn := Turn(x.p, x.operation, x.first);
    assert turn(c, 0, 1) == Go(c1, false) && turn(c1, 0, 2) == Go(c2, false);
    assert Loop(turn, 1, 2, c2, 1, 1, MaxPages) == (Finish(c2, Completed, MaxPages).c, Finish(c2, Completed, MaxPages).outcome);
    assert Loop(turn, 1, 2, c2, 0, 3, AllKeywordsCompleted) == Loop(turn, 1, 2, c2, 1, 1, MaxPages);
    assert Loop(turn, 1, 2, c1, 0, 2, AllKeywordsCompleted) == Loop(turn, 1, 2, c2, 0, 3, AllKeywordsCompleted);
  }
}
