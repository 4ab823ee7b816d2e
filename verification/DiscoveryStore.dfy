/**
 The discovery tables as the repository updates them: one method per repository method,
 loops over the rows an update touches, rollback on a failing transaction.
 */
module DiscoveryStore {
  import opened Prelude
  import opened Discovery
  import opened DiscoveryRuns

  class DiscoveryTables {
    var runs: map<RunId, Run>
    var claims: map<Key, Claim>
    var cache: map<Key, CacheRow>
    var results: map<RunId, map<ProductId, Row>>
    var snapshots: seq<Snapshot>

    function View(): Store
      reads this
    {
      Store(runs, claims, cache, results, snapshots)
    }

    constructor ()
      ensures View() == Start().store
    {
      runs, claims, cache, results, snapshots := map[], map[], map[], map[], [];
    }

    /** create_run. */
    method CreateRun(run: RunId, operation: Operation, maxResults: nat, maxApiCalls: nat, leaseUntil: Time)
      modifies this`runs, this`results
      ensures View() == Discovery.CreateRun(old(View()), run, operation, maxResults, maxApiCalls, leaseUntil)
    {
      runs := runs[run := Run(operation, Running, Some(leaseUntil), maxResults, maxApiCalls, 0, 0, 0, 0, 0, 0, None)];
      results := results[run := map[]];
    }

    /** _recover_expired: end every other run whose lease, or a claim of whose, ran out; then
        drop the claims that ran out. */
    method RecoverExpired(now: Time, active: RunId)
      modifies this`runs, this`claims
      ensures View() == Discovery.Recover(old(View()), now, active)
    {
      ghost var before := View();
      var rest := set r | r in runs && r != active && RunExpired(View(), r, now);
      ghost var all := rest;
      while rest != {}
        invariant rest <= all <= before.runs.Keys && claims == before.claims
        invariant runs == map r | r in before.runs ::
                    if r in all - rest then before.runs[r].(state := Uncertain, leaseUntil := None, reason := Some(LeaseExpired))
                    else before.runs[r]
      {
        var r :| r in rest;
        runs := runs[r := runs[r].(state := Uncertain, leaseUntil := None, reason := Some(LeaseExpired))];
        rest := rest - {r};
      }
      assert all - rest == all;
      claims := map k | k in claims && claims[k].leaseUntil > now :: claims[k];
    }

    /** _purge_expired_cache, key by key. */
    method PurgeExpiredCache(now: Time)
      modifies this`cache
      ensures View() == Discovery.PurgeCache(old(View()), now)
    {
      ghost var before := cache;
      var expired := set k | k in cache && cache[k].expiresAt <= now;
      ghost var all := expired;
      while expired != {}
        invariant expired <= all <= before.Keys
        invariant cache == map k | k in before && k !in all - expired :: before[k]
      {
        var k :| k in expired;
        cache := cache - {k};
        expired := expired - {k};
      }
      assert all - expired == all;
    }

    /** claim_query: recover, refresh the run's lease, purge, then answer from the cache, from
        another run's claim, or with a claim of its own within the budget. */
    method ClaimQuery(run: RunId, key: Key, now: Time, leaseUntil: Time, token: Token)
      returns (r: Result<QueryClaim, DiscoveryError>)
      modifies this
      ensures match Discovery.ClaimQuery(old(View()), run, key, now, leaseUntil, token)
              case Ok((s, claim)) => r == Ok(claim) && View() == s
              case Err(error) => r == Err(error) && View() == old(View())
    {
      ghost var s := View();
      var oldRuns, oldClaims, oldCache := runs, claims, cache;
      RecoverExpired(now, run);
      if run !in runs || runs[run].state != Running {
        runs, claims := oldRuns, oldClaims;
        return Err(RunNotActive);
      }
      runs := runs[run := runs[run].(leaseUntil := Some(leaseUntil))];
      PurgeExpiredCache(now);
      assert View() == Refreshed(s, run, now, leaseUntil);
      r := AnswerClaim(run, key, leaseUntil, token);
      if r.Err? {
        runs, claims, cache := oldRuns, oldClaims, oldCache;
      }
    }

    /** The second half of claim_query; an error is rolled back by its caller. */
    method AnswerClaim(run: RunId, key: Key, leaseUntil: Time, token: Token) returns (r: Result<QueryClaim, DiscoveryError>)
      requires run in runs
      modifies this`runs, this`claims
      ensures match Answer(old(View()), run, key, leaseUntil, token)
              case Ok((s, claim)) => r == Ok(claim) && View() == s
              case Err(error) => r == Err(error) && results == old(results) && snapshots == old(snapshots)
    {
      if key in cache {
        if cache[key].source != runs[run].operation {
          return Err(CacheSourceMismatch);
        }
        runs := runs[run := runs[run].(cacheHits := runs[run].cacheHits + 1, pages := runs[run].pages + 1,
                                       received := runs[run].received + cache[key].itemCount)];
        return Ok(Cached(Decode(cache[key])));
      }
      if key in claims {
        return Ok(InProgress);
      }
      claims := claims[key := Claim(run, token, leaseUntil)];
      if runs[run].apiCalls >= runs[run].maxApiCalls {
        return Err(BudgetExhausted);
      }
      runs := runs[run := runs[run].(apiCalls := runs[run].apiCalls + 1)];
      r := Ok(Call(token));
    }

    /** abandon_query. */
    method Abandon(key: Key, token: Token)
      modifies this`claims
      ensures View() == Discovery.Abandon(old(View()), key, token)
    {
      if key in claims && claims[key].token == token {
        claims := claims - {key};
      }
    }

    /** finish_query_success: the page row, then one row per product, then the claim goes. */
    method FinishQuery(run: RunId, key: Key, token: Token, page: Page, now: Time) returns (r: Result<(), DiscoveryError>)
      modifies this`runs, this`claims, this`cache
      ensures match Discovery.FinishQuery(old(View()), run, key, token, page, now)
              case Ok(s) => r == Ok(()) && View() == s
              case Err(error) => r == Err(error) && View() == old(View())
    {
      if !OwnsClaim(View(), run, key, token, now) {
        return Err(LeaseLost);
      }
      if run !in runs {
        return Err(RunNotFound);
      }
      if key in cache {
        return Err(IntegrityError);
      }
      ghost var before := cache;
      var source := runs[run].operation;
      var count := |page.products| + page.rejected;
      cache := cache[key := CacheRow(source, now + CACHE_TTL, count, page.currentCount, page.totalCount, map[])];
      for ordinal := 0 to |page.products|
        invariant cache == before[key := CacheRow(source, now + CACHE_TTL, count, page.currentCount, page.totalCount,
                                                  Numbered(page.products[..ordinal], 0))]
        invariant runs == old(runs) && claims == old(claims)
      {
        assert Numbered(page.products[..ordinal + 1], 0)
            == Numbered(page.products[..ordinal], 0)[ordinal := page.products[ordinal]];
        cache := cache[key := cache[key].(products := cache[key].products[ordinal := page.products[ordinal]])];
      }
      assert page.products[..|page.products|] == page.products;
      Abandon(key, token);
      runs := runs[run := runs[run].(pages := runs[run].pages + 1, received := runs[run].received + count)];
      r := Ok(());
    }

    /** finish_run. */
    method FinishRun(run: RunId, state: RunState, reason: StopReason) returns (r: Result<(), DiscoveryError>)
      requires state != Running
      modifies this`runs
      ensures match Discovery.FinishRun(old(View()), run, state, reason)
              case Ok(s) => r == Ok(()) && View() == s
              case Err(error) => r == Err(error) && View() == old(View())
    {
      if run !in runs || runs[run].state != Running {
        return Err(TransitionConflict);
      }
      runs := runs[run := runs[run].(state := state, leaseUntil := None, reason := Some(reason))];
      r := Ok(());
    }

    /** _create_snapshot. */
    method CreateSnapshot(run: RunId, product: Product) returns (r: Result<Option<nat>, DiscoveryError>)
      modifies this`snapshots
      ensures match Discovery.CreateSnapshot(old(View()), run, product)
              case Ok((s, id)) => r == Ok(id) && View() == s
              case Err(error) => r == Err(error) && View() == old(View())
    {
      if product.price.None? {
        return Ok(None);
      }
      if HasSnapshot(View(), run, product.id) {
        return Err(IntegrityError);
      }
      snapshots := snapshots + [Snapshot(run, product.id, product.price.value)];
      r := Ok(Some(|snapshots| - 1));
    }

    /** record_product: a first sighting inserts, a LIVE one replaces a cached one, any other
        only counts. */
    method RecordProduct(run: RunId, product: Product, origin: Origin) returns (r: Result<Recorded, DiscoveryError>)
      modifies this`runs, this`results, this`snapshots
      ensures match Discovery.RecordProduct(old(View()), run, product, origin)
              case Ok((s, recorded)) => r == Ok(recorded) && View() == s
              case Err(error) => r == Err(error) && View() == old(View())
    {
      if run !in runs {
        return Err(RunNotFound);
      }
      var rows := ResultsOf(View(), run);
      if product.id in rows {
        var again := rows[product.id].(matched := rows[product.id].matched + 1);
        if again.origin == Live || origin == FromCache {
          results := results[run := rows[product.id := again]];
          return Ok(Recorded(false, false));
        }
        var snapshot := CreateSnapshot(run, product);
        if snapshot.Err? {
          return Err(snapshot.error);
        }
        results := results[run := rows[product.id := again.(origin := Live, snapshot := snapshot.value, price := product.price)]];
        if snapshot.value.Some? {
          runs := runs[run := runs[run].(snapshots := runs[run].snapshots + 1)];
        }
        return Ok(Recorded(false, snapshot.value.Some?));
      }
      if runs[run].unique >= runs[run].maxResults {
        return Err(IntegrityError);
      }
      var snapshot := Ok(None);
      if origin == Live {
        snapshot := CreateSnapshot(run, product);
        if snapshot.Err? {
          return Err(snapshot.error);
        }
      }
      results := results[run := rows[product.id := Row(origin, snapshot.value, product.price, 1)]];
      runs := runs[run := runs[run].(unique := runs[run].unique + 1)];
      if snapshot.value.Some? {
        runs := runs[run := runs[run].(snapshots := runs[run].snapshots + 1)];
      }
      r := Ok(Recorded(true, snapshot.value.Some?));
    }
  }
}
