/** Which queries a scan makes, in which order, and what it records of their pages. */
module ScanOrder {
  import opened Prelude
  import opened Discovery
  import opened DiscoveryRuns
  import opened DiscoverySafety
  import opened ScanSpec

  /** A keyword's index and a page number. */
  type Place = (nat, nat)

  predicate IsShort(p: Profile, page: Page) {
    |page.products| + page.rejected < p.pageSize
  }

  /** Where a scan looks next: at the keyword's next page, or at the next keyword's first
      after a short page or the last one allowed. */
  function Following(p: Profile, place: Place, page: Page): Place {
    if IsShort(p, page) || place.1 == p.maxPages then (place.0 + 1, 1) else (place.0, place.1 + 1)
  }

  predicate Follows(p: Profile, places: seq<Place>, pages: seq<Page>, n: nat) {
    n + 1 < |places| && n < |pages| && places[n + 1] == Following(p, places[n], pages[n])
  }

  /** The queries are those of consecutive places, from the first page of the first keyword. */
  ghost predicate InOrder(p: Profile, operation: Operation, visited: seq<Key>, pages: seq<Page>, places: seq<Place>) {
    && |places| == |visited| && |pages| <= |visited|
    && (forall n | 0 <= n < |visited| ::
          && places[n].0 < |p.keywords| && 1 <= places[n].1 <= p.maxPages
          && visited[n] == Key(operation, p.context, p.keywords[places[n].0], places[n].1))
    && (visited != [] ==> places[0] == (0, 1))
    && (forall n | 0 <= n < |visited| - 1 :: Follows(p, places, pages, n))
  }

  /** The scan came to the end of its keywords. */
  predicate Whole(o: Outcome) {
    o.Ended? && o.state == Completed && (o.reason == ShortPage || o.reason == MaxPages || o.reason == AllKeywordsCompleted)
  }

  function NextPlace(p: Profile, places: seq<Place>, pages: seq<Page>): Place
    requires |pages| == |places|
  {
    if places == [] then (0, 1) else Following(p, places[|places| - 1], pages[|pages| - 1])
  }

  /** Why a scan that came to the end ended: by what its last page was. */
  function LastReason(p: Profile, pages: seq<Page>): StopReason {
    if pages == [] then AllKeywordsCompleted
    else if IsShort(p, pages[|pages| - 1]) then ShortPage else MaxPages
  }

  // --------------------------------------------------------------- one visit

  /** A visit makes one query at most, and goes on only with its page. */
  ghost predicate OneVisit(p: Profile, c: Cursor, key: Key, step: Step) {
    match step
    case Go(d, short) =>
      && d.visited == c.visited + [key] && |d.pages| == |c.pages| + 1 && c.pages <= d.pages
      && short == IsShort(p, d.pages[|c.pages|])
    case Halt(d, o) =>
      && !Whole(o) && (d.visited == c.visited || d.visited == c.visited + [key])
      && c.pages <= d.pages && |d.pages| <= |c.pages| + |d.visited| - |c.visited|
  }

  lemma VisitsOnce(p: Profile, operation: Operation, script: Script, c: Cursor, i: nat, page: nat)
    requires i < |p.keywords|
    ensures OneVisit(p, c, Key(operation, p.context, p.keywords[i], page), Visit(p, operation, script, c, i, page))
  {
    var key := KeyAt(p, operation, i, page);
    if c.unique < p.maxResults && ClaimFor(script, c, key).Ok? {
      var (s, claim) := ClaimFor(script, c, key).value;
      AnswersOnce(p, script, c, AfterClaim(c, key, s, claim), key, claim);
    }
  }

  lemma AnswersOnce(p: Profile, script: Script, c: Cursor, d: Cursor, key: Key, claim: QueryClaim)
    requires d.visited == c.visited + [key] && d.pages == c.pages
    ensures OneVisit(p, c, key, Answered(p, script, d, |c.visited|, key, claim))
  {
  }

  // ------------------------------------------------------------------ the loops

  ghost predicate TurnVisits(p: Profile, operation: Operation, turn: Visitor) {
    forall c: Cursor, i: nat, page: nat | i < |p.keywords| ::
      OneVisit(p, c, Key(operation, p.context, p.keywords[i], page), turn(c, i, page))
  }

  /** The loops stand before this place, having made these queries. */
  ghost predicate Before(p: Profile, operation: Operation, c: Cursor, places: seq<Place>, i: nat, page: nat, reason: StopReason) {
    && InOrder(p, operation, c.visited, c.pages, places) && |c.pages| == |c.visited| && page >= 1
    && NextPlace(p, places, c.pages) == (if page > p.maxPages then (i + 1, 1) else (i, page))
    && (page == 1 ==> reason == LastReason(p, c.pages))
    && (page > 1 ==> c.pages != [] && !IsShort(p, c.pages[|c.pages| - 1]))
  }

  ghost predicate EndsInOrder(p: Profile, operation: Operation, f: Cursor, o: Outcome, places: seq<Place>) {
    && InOrder(p, operation, f.visited, f.pages, places)
    && (Whole(o) ==> |f.pages| == |f.visited| && NextPlace(p, places, f.pages).0 >= |p.keywords| && o.reason == LastReason(p, f.pages))
  }

  /** One more query, at the place where the loops stand. */
  lemma OneMoreVisit(p: Profile, operation: Operation, c: Cursor, places: seq<Place>, i: nat, page: nat, reason: StopReason, d: Cursor)
    requires Before(p, operation, c, places, i, page, reason) && i < |p.keywords| && page <= p.maxPages
    requires d.visited == c.visited + [Key(operation, p.context, p.keywords[i], page)]
    requires c.pages <= d.pages && |d.pages| <= |d.visited|
    ensures InOrder(p, operation, d.visited, d.pages, places + [(i, page)])
  {
    var all: seq<Place> := places + [(i, page)];
    forall n | 0 <= n < |d.visited| - 1 ensures Follows(p, all, d.pages, n) {
      assert d.pages[n] == c.pages[n];
      assert n < |c.visited| - 1 ==> Follows(p, places, c.pages, n);
      if n == |c.visited| - 1 {
        assert NextPlace(p, places, c.pages) == (i, page);
      }
    }
  }

  lemma {:induction false} LoopInOrder(p: Profile, operation: Operation, turn: Visitor, c: Cursor, i: nat, page: nat,
                                       reason: StopReason, places: seq<Place>) returns (all: seq<Place>)
    requires TurnVisits(p, operation, turn) && Before(p, operation, c, places, i, page, reason) && p.maxPages >= 1
    ensures var (f, o) := Loop(turn, |p.keywords|, p.maxPages, c, i, page, reason);
      EndsInOrder(p, operation, f, o, all)
    decreases |p.keywords| - i, p.maxPages + 1 - page
  {
    all := places;
    if i >= |p.keywords| {
    } else if page > p.maxPages {
      all := LoopInOrder(p, operation, turn, c, i + 1, 1, MaxPages, places);
    } else {
      var key := Key(operation, p.context, p.keywords[i], page);
      var step := turn(c, i, page);
      assert OneVisit(p, c, key, step);
      LoopTurns(turn, |p.keywords|, p.maxPages, c, i, page, reason, step);
      if step.c.visited == c.visited + [key] {
        OneMoreVisit(p, operation, c, places, i, page, reason, step.c);
        all := places + [(i, page)];
      } else {
        assert step.c.pages == c.pages;
      }
      if step.Go? {
        StandsAfter(p, operation, c, places, i, page, reason, step.c);
        if step.short {
          all := LoopInOrder(p, operation, turn, step.c, i + 1, 1, ShortPage, all);
        } else {
          all := LoopInOrder(p, operation, turn, step.c, i, page + 1, reason, all);
        }
      }
    }
  }

  lemma StandsAfter(p: Profile, operation: Operation, c: Cursor, places: seq<Place>, i: nat, page: nat, reason: StopReason, d: Cursor)
    requires Before(p, operation, c, places, i, page, reason) && i < |p.keywords| && page <= p.maxPages
    requires d.visited == c.visited + [Key(operation, p.context, p.keywords[i], page)]
    requires |d.pages| == |c.pages| + 1 && c.pages <= d.pages
    ensures if IsShort(p, d.pages[|c.pages|]) then Before(p, operation, d, places + [(i, page)], i + 1, 1, ShortPage)
            else Before(p, operation, d, places + [(i, page)], i, page + 1, reason)
  {
    OneMoreVisit(p, operation, c, places, i, page, reason, d);
    assert d.pages[|d.pages| - 1] == d.pages[|c.pages|];
  }

  /** By the time a keyword's place is reached, every keyword before it has been asked for. */
  lemma {:induction false} FirstPagesVisited(p: Profile, operation: Operation, visited: seq<Key>, pages: seq<Page>,
                                             places: seq<Place>, k: nat)
    requires InOrder(p, operation, visited, pages, places) && |pages| == |visited|
    requires k < NextPlace(p, places, pages).0
    ensures k < |p.keywords| ==> Key(operation, p.context, p.keywords[k], 1) in visited
    decreases |places|
  {
    var n := |places| - 1;
    var last := places[n];
    if k < last.0 {
      InOrderBefore(p, operation, visited, pages, places, n);
      assert n > 0 ==> Follows(p, places, pages, n - 1);
      assert NextPlace(p, places[..n], pages[..n]) == last;
      FirstPagesVisited(p, operation, visited[..n], pages[..n], places[..n], k);
    } else {
      KeywordBegun(p, operation, visited, pages, places);
    }
  }

  lemma InOrderBefore(p: Profile, operation: Operation, visited: seq<Key>, pages: seq<Page>, places: seq<Place>, n: nat)
    requires InOrder(p, operation, visited, pages, places) && n < |visited| && n <= |pages|
    ensures InOrder(p, operation, visited[..n], pages[..n], places[..n])
  {
    forall m | 0 <= m < n - 1 ensures Follows(p, places[..n], pages[..n], m) {
      assert Follows(p, places, pages, m);
    }
  }

  lemma {:induction false} KeywordBegun(p: Profile, operation: Operation, visited: seq<Key>, pages: seq<Page>, places: seq<Place>)
    requires InOrder(p, operation, visited, pages, places) && places != []
    ensures Key(operation, p.context, p.keywords[places[|places| - 1].0], 1) in visited
    decreases |places|
  {
    var n := |places| - 1;
    if places[n].1 == 1 {
      assert visited[n] in visited;
    } else {
      assert Follows(p, places, pages, n - 1);
      InOrderBefore(p, operation, visited, pages, places, n);
      KeywordBegun(p, operation, visited[..n], pages[..n], places[..n]);
    }
  }

  /** A scan asks for the pages of its keywords one after the other, each until a short page
      or the last one allowed; one that comes to the end has asked for the first page of
      every keyword, and says of its very last page whether it was short. */
  lemma VisitsInOrder(s: Store, run: RunId, p: Profile, operation: Operation, script: Script, started: Time)
    returns (places: seq<Place>)
    requires p.maxPages >= 1
    ensures var (f, o) := ScanAll(s, run, p, operation, script, started);
      && InOrder(p, operation, f.visited, f.pages, places)
      && (Whole(o) ==>
            && |f.pages| == |f.visited| && o.reason == LastReason(p, f.pages)
            && forall k | 0 <= k < |p.keywords| :: Key(operation, p.context, p.keywords[k], 1) in f.visited)
  {
    var turn := Turn(p, operation, script);
    forall c: Cursor, i: nat, page: nat | i < |p.keywords|
      ensures OneVisit(p, c, Key(operation, p.context, p.keywords[i], page), turn(c, i, page))
    {
      VisitsOnce(p, operation, script, c, i, page);
    }
    var c := StartOf(s, run, p, operation, started);
    places := LoopInOrder(p, operation, turn, c, 0, 1, AllKeywordsCompleted, []);
    var (f, o) := ScanAll(s, run, p, operation, script, started);
    if Whole(o) {
      forall k | 0 <= k < |p.keywords| ensures Key(operation, p.context, p.keywords[k], 1) in f.visited {
        FirstPagesVisited(p, operation, f.visited, f.pages, places, k);
      }
    }
  }
}
