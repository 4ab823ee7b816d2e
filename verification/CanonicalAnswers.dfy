/** How one batch ends, for every answer of the network, in terms of the rows themselves. */
module CanonicalAnswers {
  import opened Prelude
  import opened Ledger
  import opened Canonical
  import opened CanonicalSafety

  // ------------------------------------------------------------- claiming the batch

  /** Nothing of the candidate's is unconfirmed, it has an attempt left, and it waits for a
      link, has an old one, or may be retried by now. */
  ghost predicate Waiting(db: Db, id: CandidateId, now: Time) {
    && id in db.candidates
    && (forall g | g in db.gens && db.gens[g].identity == Identity.Canonical(id) :: db.gens[g].state == Confirmed)
    && var row := db.candidates[id];
    && row.attempts < 3
    && match row.state
       case PendingAffiliate | AwaitingGeneration | AffiliateGenerated => true
       case FailedRetryable => row.nextAttempt.None? || row.nextAttempt.value <= now
       case _ => false
  }

  ghost predicate AllWaiting(db: Db, ids: seq<CandidateId>, now: Time) {
    forall i | 0 <= i < |ids| :: Waiting(db, ids[i], now)
  }

  /** Different candidates, all of them waiting. */
  ghost predicate Takable(db: Db, ids: seq<CandidateId>, now: Time) {
    AllDifferent(ids) && AllWaiting(db, ids, now)
  }

  ghost predicate AllDifferent(ids: seq<CandidateId>) {
    forall i, j | 0 <= i < j < |ids| :: ids[i] != ids[j]
  }

  /** The candidate's claim: one attempt more, five minutes to finish, and a PREPARED row. */
  ghost predicate ClaimedAt(c: Config, db: Db, db': Db, id: CandidateId, claim: Claim, now: Time, g: GenId) {
    && id in db.candidates && id in db'.candidates && g in db'.gens
    && claim == Claim(id, now, db.candidates[id].attempts + 1, g, g, c.tracking)
    && db'.candidates[id] == db.candidates[id].(
         state := GeneratingAffiliate, attempts := db.candidates[id].attempts + 1, startedAt := Some(now),
         leaseUntil := Some(now + 300), nextAttempt := None)
    && db'.gens[g] == Generation(Identity.Canonical(id), Prepared, Some(now + 300), g, c.tracking, c.key, now, None, None)
  }

  ghost predicate ClaimedExactly(c: Config, db: Db, db': Db, ids: seq<CandidateId>, claims: seq<Claim>, now: Time, g: GenId) {
    && |claims| == |ids| && db'.proofs == db.proofs
    && (forall i | 0 <= i < |ids| :: ClaimedAt(c, db, db', ids[i], claims[i], now, g + i))
    && (forall h | h in db.gens :: h in db'.gens && db'.gens[h] == db.gens[h])
    && (forall h | h in db'.gens :: h in db.gens || g <= h < g + |ids|)
    && db'.candidates.Keys == db.candidates.Keys
    && (forall id | id in db.candidates && id !in ids :: db'.candidates[id] == db.candidates[id])
  }

  ghost predicate ClaimedFirst(c: Config, d: Db, id: CandidateId, e: Db, claim: Claim, now: Time, g: GenId) {
    IdsOk(e, g + 1) && ClaimedExactly(c, d, e, [id], [claim], now, g)
  }

  ghost predicate ClaimsOneExactly(claimer: Claimer, c: Config, now: Time) {
    forall d: Db, id: CandidateId, h: GenId | IdsOk(d, h) ::
      && (claimer(d, id, h).Ok? <==> Waiting(d, id, now))
      && (claimer(d, id, h).Ok? ==> ClaimedFirst(c, d, id, claimer(d, id, h).value.0, claimer(d, id, h).value.1, now, h))
  }

  lemma ClaimOneExactly(c: Config, db: Db, id: CandidateId, now: Time, g: GenId)
    requires IdsOk(db, g)
    ensures var r := ClaimOne(c, db, id, now, g, g);
      && (r.Ok? <==> Waiting(db, id, now))
      && (r.Ok? ==> ClaimedFirst(c, db, id, r.value.0, r.value.1, now, g))
  {
    forall h | h in db.gens ensures Blocks(db.gens, h, Identity.Canonical(id))
      <==> db.gens[h].identity == Identity.Canonical(id) && db.gens[h].state != Confirmed
    {
    }
  }

  /** A batch is claimed exactly when its candidates differ and each of them waits. */
  lemma ClaimsExactly(c: Config, db: Db, ids: seq<CandidateId>, now: Time, g: GenId)
    requires IdsOk(db, g)
    ensures var r := ClaimAll(c, db, ids, now, g);
      && (r.Ok? <==> AllDifferent(ids) && AllWaiting(db, ids, now))
      && (r.Ok? ==> ClaimedExactly(c, db, r.value.0, ids, r.value.1, now, g))
  {
    var claimer := ClaimerAt(c, now);
    forall d: Db, id: CandidateId, h: GenId | IdsOk(d, h)
      ensures claimer(d, id, h).Ok? <==> Waiting(d, id, now)
      ensures claimer(d, id, h).Ok? ==> ClaimedFirst(c, d, id, claimer(d, id, h).value.0, claimer(d, id, h).value.1, now, h)
    {
      ClaimOneExactly(c, d, id, now, h);
    }
    ClaimsEachExactly(claimer, c, db, ids, now, g);
  }

  lemma {:induction false} ClaimsEachExactly(claimer: Claimer, c: Config, db: Db, ids: seq<CandidateId>, now: Time, g: GenId)
    requires IdsOk(db, g) && ClaimsOneExactly(claimer, c, now)
    ensures var r := ClaimEach(claimer, db, ids, g);
      && (r.Ok? <==> Takable(db, ids, now))
      && (r.Ok? ==> IdsOk(r.value.0, g + |ids|) && ClaimedExactly(c, db, r.value.0, ids, r.value.1, now, g))
  {
    if ids != [] {
      var n := |ids| - 1;
      ClaimsEachExactly(claimer, c, db, ids[..n], now, g);
      WaitingSnoc(db, ids, now);
      var r := ClaimEach(claimer, db, ids[..n], g);
      if r.Ok? {
        NextIsClaimed(claimer, c, db, r.value.0, ids, r.value.1, now, g);
      }
    }
  }

  lemma NextIsClaimed(claimer: Claimer, c: Config, db: Db, d: Db, ids: seq<CandidateId>, claims: seq<Claim>, now: Time, g: GenId)
    requires ClaimsOneExactly(claimer, c, now)
    requires ids != [] && ClaimedExactly(c, db, d, ids[..|ids| - 1], claims, now, g) && IdsOk(d, g + |ids| - 1)
    ensures var n := |ids| - 1;
      var r := claimer(d, ids[n], g + n);
      && (r.Ok? <==> Waiting(db, ids[n], now) && ids[n] !in ids[..n])
      && (r.Ok? ==> IdsOk(r.value.0, g + |ids|) && ClaimedExactly(c, db, r.value.0, ids, claims + [r.value.1], now, g))
  {
    var n := |ids| - 1;
    var h := g + n;
    assert IdsOk(d, h);
    assert claimer(d, ids[n], h).Ok? <==> Waiting(d, ids[n], now);
    ClaimLast(c, db, d, ids, claims, now, g, claimer(d, ids[n], h));
  }

  lemma WaitingSnoc(db: Db, ids: seq<CandidateId>, now: Time)
    requires ids != []
    ensures var n := |ids| - 1;
      Takable(db, ids, now) <==> Takable(db, ids[..n], now) && ids[n] !in ids[..n] && Waiting(db, ids[n], now)
  {
    var n := |ids| - 1;
    var init := ids[..n];
    assert forall i | 0 <= i < n :: init[i] == ids[i];
    if AllDifferent(init) && ids[n] !in init {
      forall i, j | 0 <= i < j < |ids| ensures ids[i] != ids[j] {
        assert ids[i] == init[i] && init[i] in init;
      }
    }
    if AllWaiting(db, init, now) && Waiting(db, ids[n], now) {
      forall i | 0 <= i < |ids| ensures Waiting(db, ids[i], now) {
        assert i < n ==> ids[i] == init[i];
      }
    }
  }

  lemma ClaimLast(c: Config, db: Db, d: Db, ids: seq<CandidateId>, claims: seq<Claim>, now: Time, g: GenId,
                  r: Result<(Db, Claim), BatchError>)
    requires ids != [] && ClaimedExactly(c, db, d, ids[..|ids| - 1], claims, now, g) && IdsOk(d, g + |ids| - 1)
    requires r.Ok? <==> Waiting(d, ids[|ids| - 1], now)
    requires r.Ok? ==> ClaimedFirst(c, d, ids[|ids| - 1], r.value.0, r.value.1, now, g + |ids| - 1)
    ensures var n := |ids| - 1;
      && (r.Ok? <==> Waiting(db, ids[n], now) && ids[n] !in ids[..n])
      && (r.Ok? ==> IdsOk(r.value.0, g + |ids|) && ClaimedExactly(c, db, r.value.0, ids, claims + [r.value.1], now, g))
  {
    LastWaits(c, db, d, ids, claims, now, g);
    if r.Ok? {
      ClaimsOneMore(c, db, d, r.value.0, ids, claims, r.value.1, now, g);
    }
  }

  /** Claiming others leaves a candidate waiting, unless it is one of them. */
  lemma LastWaits(c: Config, db: Db, d: Db, ids: seq<CandidateId>, claims: seq<Claim>, now: Time, g: GenId)
    requires ids != [] && ClaimedExactly(c, db, d, ids[..|ids| - 1], claims, now, g)
    ensures Waiting(d, ids[|ids| - 1], now) <==> Waiting(db, ids[|ids| - 1], now) && ids[|ids| - 1] !in ids[..|ids| - 1]
  {
    var n := |ids| - 1;
    var init, last := ids[..n], ids[n];
    if last in init {
      var i :| 0 <= i < n && init[i] == last;
      assert ClaimedAt(c, db, d, init[i], claims[i], now, g + i);
    } else {
      forall h | h in d.gens && h !in db.gens ensures d.gens[h].identity != Identity.Canonical(last) {
        assert ClaimedAt(c, db, d, init[h - g], claims[h - g], now, g + (h - g));
        assert init[h - g] in init;
      }
    }
  }

  lemma ClaimsOneMore(c: Config, db: Db, d: Db, e: Db, ids: seq<CandidateId>, claims: seq<Claim>, claim: Claim,
                      now: Time, g: GenId)
    requires ids != [] && ClaimedExactly(c, db, d, ids[..|ids| - 1], claims, now, g)
    requires ClaimedExactly(c, d, e, [ids[|ids| - 1]], [claim], now, g + |ids| - 1)
    requires ids[|ids| - 1] !in ids[..|ids| - 1]
    requires forall h | h in d.gens :: h < g + |ids| - 1
    ensures ClaimedExactly(c, db, e, ids, claims + [claim], now, g)
  {
    var n := |ids| - 1;
    var all := claims + [claim];
    assert ids == ids[..n] + [ids[n]];
    assert ClaimedAt(c, d, e, [ids[n]][0], [claim][0], now, g + n + 0);
    forall i | 0 <= i < |ids| ensures ClaimedAt(c, db, e, ids[i], all[i], now, g + i) {
      if i < n {
        assert ClaimedAt(c, db, d, ids[..n][i], claims[i], now, g + i);
        assert ids[..n][i] == ids[i] && ids[i] in ids[..n];
      }
    }
  }

  // ------------------------------------------------------------ starting the calls

  /** The row is PREPARED under the claim's token, and its lease runs. */
  predicate Startable(gens: Rows, claim: Claim, now: Time) {
    && claim.generation in gens
    && var row := gens[claim.generation];
    && row.state == Prepared && row.leaseToken == claim.token
    && row.leaseUntil.Some? && row.leaseUntil.value > now
  }

  ghost predicate AllStartable(gens: Rows, claims: seq<Claim>, now: Time) {
    forall i | 0 <= i < |claims| :: Startable(gens, claims[i], now)
  }

  /** The batch's rows have started, and nothing else has changed. */
  ghost predicate AllStarted(gens: Rows, gens': Rows, claims: seq<Claim>, now: Time) {
    && gens'.Keys == gens.Keys
    && forall g | g in gens ::
         gens'[g] == if InClaims(claims, g) then gens[g].(state := CallStarted, callStartedAt := Some(now)) else gens[g]
  }

  lemma {:induction false} StartsExactly(rows: Rows, claims: seq<Claim>, now: Time)
    requires Separate(claims)
    ensures var r := StartCall(rows, Generations(claims), Tokens(claims), now);
      && (r.Ok? <==> AllStartable(rows, claims, now))
      && (r.Ok? ==> AllStarted(rows, r.value, claims, now))
    decreases |claims|
  {
    if claims != [] {
      var first, rest := claims[0], claims[1..];
      assert claims == [first] + rest;
      assert Generations(claims)[1..] == Generations(rest) && Tokens(claims)[1..] == Tokens(rest);
      if CanStart(rows, first.generation, first.token, now) {
        var started := Started(rows, first.generation, now);
        StartsExactly(started, rest, now);
        assert AllStartable(started, rest, now) <==> AllStartable(rows, rest, now);
        StartsOneMore(rows, claims, now);
      } else {
        assert !Startable(rows, claims[0], now);
      }
    }
  }

  lemma StartsOneMore(rows: Rows, claims: seq<Claim>, now: Time)
    requires claims != []
    ensures forall g :: InClaims(claims, g) <==> g == claims[0].generation || InClaims(claims[1..], g)
    ensures AllStartable(rows, claims, now) <==> Startable(rows, claims[0], now) && AllStartable(rows, claims[1..], now)
  {
    var rest := claims[1..];
    forall g ensures InClaims(claims, g) <==> g == claims[0].generation || InClaims(rest, g) {
      if InClaims(rest, g) {
        var i :| 0 <= i < |rest| && rest[i].generation == g;
        assert claims[i + 1].generation == g;
      }
      if InClaims(claims, g) && g != claims[0].generation {
        var i :| 0 <= i < |claims| && claims[i].generation == g;
        assert rest[i - 1].generation == g;
      }
    }
    if Startable(rows, claims[0], now) && AllStartable(rows, rest, now) {
      forall i | 0 <= i < |claims| ensures Startable(rows, claims[i], now) {
        assert i > 0 ==> claims[i] == rest[i - 1];
      }
    }
  }

  // ------------------------------------------------------------ storing the answer

  /** The candidate is still being generated by this claim, under a lease that runs. */
  predicate Held(candidates: map<CandidateId, Candidate>, claim: Claim, now: Time) {
    && claim.candidate in candidates
    && var row := candidates[claim.candidate];
    && row.state == GeneratingAffiliate && row.startedAt == Some(claim.startedAt) && row.attempts == claim.attempts
    && row.leaseUntil.Some? && row.leaseUntil.value > now
  }

  /** And so is its call, which started at `startedAt`. */
  predicate Answerable(db: Db, claim: Claim, startedAt: Time, now: Time) {
    && Held(db.candidates, claim, now)
    && claim.generation in db.gens && startedAt <= now
    && db.gens[claim.generation].leaseUntil.Some? && db.gens[claim.generation].leaseUntil.value > now
  }

  ghost predicate AllAnswerable(db: Db, claims: seq<Claim>, startedAt: Time, now: Time) {
    forall i | 0 <= i < |claims| :: Answerable(db, claims[i], startedAt, now)
  }

  /** The first claim that cannot be stored is one whose candidate was lost. */
  ghost predicate LostFirst(db: Db, claims: seq<Claim>, startedAt: Time, now: Time) {
    exists i | 0 <= i < |claims| ::
      !Held(db.candidates, claims[i], now) && forall j | 0 <= j < i :: Answerable(db, claims[j], startedAt, now)
  }

  /** The first claim of the batch that cannot be stored decides the error. */
  ghost predicate FailsFirst(db: Db, claims: seq<Claim>, now: Time, error: BatchError) {
    exists i | 0 <= i < |claims| ::
      && !Storable(db, claims[i], now) && (forall j | 0 <= j < i :: Storable(db, claims[j], now))
      && error == if StillOwns(db.candidates, claims[i], now) then GenerationLost else CandidateLost
  }

  lemma {:induction false} StoreEachFails(c: Config, db: Db, claims: seq<Claim>, links: seq<Link>, now: Time)
    requires |links| == |claims| && BatchRows(db, claims, c.tracking) && StoresOne(StorerAt(c, now), c, now)
    ensures var r := StoreEach(StorerAt(c, now), db, claims, links);
      r.Err? ==> FailsFirst(db, claims, now, r.error)
  {
    var storer := StorerAt(c, now);
    if claims != [] {
      var n := |claims| - 1;
      assert claims == claims[..n] + [claims[n]];
      BatchRowsSnoc(db, claims[..n], claims[n], c.tracking);
      StoreEachFails(c, db, claims[..n], links[..n], now);
      StoreEachEffect(storer, db, claims[..n], links[..n], c, now);
      var r := StoreEach(storer, db, claims[..n], links[..n]);
      if r.Err? {
        FailsAmongFirst(db, claims, n, now, r.error);
      } else if StoreEach(storer, db, claims, links).Err? {
        LastFails(c, db, r.value, claims, links[n], now);
      }
    }
  }

  lemma FailsAmongFirst(db: Db, claims: seq<Claim>, n: nat, now: Time, error: BatchError)
    requires n <= |claims| && FailsFirst(db, claims[..n], now, error)
    ensures FailsFirst(db, claims, now, error)
  {
    var i :| 0 <= i < n && !Storable(db, claims[..n][i], now) && (forall j | 0 <= j < i :: Storable(db, claims[..n][j], now))
             && error == if StillOwns(db.candidates, claims[..n][i], now) then GenerationLost else CandidateLost;
    assert claims[i] == claims[..n][i];
    assert forall j | 0 <= j < i :: claims[j] == claims[..n][j];
  }

  lemma LastFails(c: Config, db: Db, d: Db, claims: seq<Claim>, link: Link, now: Time)
    requires claims != [] && StoresOne(StorerAt(c, now), c, now) && BatchRows(db, claims, c.tracking)
    requires StoredFrom(db, d, claims[..|claims| - 1]) && AllStorable(db, claims[..|claims| - 1], now)
    requires StoreOne(c, d, claims[|claims| - 1], link, now).Err?
    ensures FailsFirst(db, claims, now, StoreOne(c, d, claims[|claims| - 1], link, now).error)
  {
    var n := |claims| - 1;
    assert claims == claims[..n] + [claims[n]];
    BatchRowsSnoc(db, claims[..n], claims[n], c.tracking);
    SeparateLast(claims[..n], claims[n]);
    NotYetStored(db, d, claims[..n], claims[n], now);
    assert d.candidates[claims[n].candidate] == db.candidates[claims[n].candidate];
    assert forall j | 0 <= j < n :: claims[..n][j] == claims[j];
  }

  lemma StoreAllFails(c: Config, db: Db, claims: seq<Claim>, links: seq<Link>, now: Time)
    requires |links| == |claims| && BatchRows(db, claims, c.tracking)
    ensures var r := StoreAll(c, db, claims, links, now);
      r.Err? ==> if InTime(claims, now) then FailsFirst(db, claims, now, r.error) else r.error == ClockMovedBackwards
  {
    var storer := StorerAt(c, now);
    forall d: Db, claim: Claim, link: Link
      | Owns(d, claim) && claim.tracking == c.tracking && RowOk(d.gens[claim.generation])
      ensures storer(d, claim, link).Ok? <==> Storable(d, claim, now)
      ensures storer(d, claim, link).Ok? ==> StoredOne(d, storer(d, claim, link).value, claim)
                                             && StoredAs(storer(d, claim, link).value, claim, link, c, now)
    {
      StoreOneEffect(c, d, claim, link, now);
    }
    StoreEachFails(c, db, claims, links, now);
  }

  /** A stored proof is what the ledger confirmed for its candidate: the same link, times and
      tracking, for the product and variation that the call was prepared for. */
  lemma {:induction false} ProofsAreTheLedgers(events: seq<Event>, id: CandidateId)
    requires id in History(events).db.proofs
    ensures var db := History(events).db;
      var proof := db.proofs[id];
      && proof.generation in db.gens && id in db.candidates && proof.generation in db.origins
      && var row := db.gens[proof.generation];
      && row.state == Confirmed && row.identity == Identity.Canonical(id) && row.callStartedAt.Some?
      && row.preparedAt == proof.requestedAt && row.tracking == proof.tracking && row.confirmation.Some?
      && row.confirmation.value.url == proof.link && row.confirmation.value.generatedAt == proof.respondedAt
      && row.confirmation.value.expiresAt == proof.expiresAt && row.confirmation.value.contract == LinkGenerate
      && db.origins[proof.generation] == Origin(proof.product, db.candidates[id].variation)
      && proof.url == db.candidates[id].url
  {
    ProofsStayValid(events, id);
  }

  // --------------------------------------------------------- recording a failure

  /** The open rows of the batch have ended, FAILED where no call had started, and nothing
      else has changed. */
  ghost predicate RowsEnded(gens: Rows, gens': Rows, claims: seq<Claim>, state: State) {
    && gens'.Keys == gens.Keys
    && forall g | g in gens ::
         gens'[g] == if InClaims(claims, g) && (gens[g].state == Prepared || gens[g].state == CallStarted)
                     then gens[g].(state := if gens[g].callStartedAt.None? then Failed else state, leaseUntil := None)
                     else gens[g]
  }

  lemma FailsExactly(db: Db, claims: seq<Claim>, state: State)
    ensures RowsEnded(db.gens, FailAll(db, claims, state).gens, claims, state)
  {
    forall g ensures InClaims(claims, g) <==> g in Generations(claims) {
      if InClaims(claims, g) {
        var i :| 0 <= i < |claims| && claims[i].generation == g;
        assert Generations(claims)[i] == g;
      }
    }
  }

  /** Still being generated, or validated, by this claim. */
  predicate Pursued(candidates: map<CandidateId, Candidate>, claim: Claim, now: Time) {
    && claim.candidate in candidates
    && var row := candidates[claim.candidate];
    && (row.state == GeneratingAffiliate || row.state == Validating)
    && row.startedAt == Some(claim.startedAt) && row.attempts == claim.attempts
    && row.leaseUntil.Some? && row.leaseUntil.value > now
  }

  ghost predicate AllPursued(candidates: map<CandidateId, Candidate>, claims: seq<Claim>, now: Time) {
    forall i | 0 <= i < |claims| :: Pursued(candidates, claims[i], now)
  }

  /** Where a candidate goes after a failure: retried later, or not by itself. */
  function Sent(row: Candidate, target: CandidateState, backoff: Backoff): Candidate {
    row.(state := target, leaseUntil := None,
         nextAttempt := if target == FailedRetryable then Some(backoff(row.attempts)) else None)
  }

  /** Every candidate of the batch has gone to `target`; or none has, when one was lost. */
  ghost predicate CandidatesMoved(rows: map<CandidateId, Candidate>, rows': map<CandidateId, Candidate>,
                                  claims: seq<Claim>, target: CandidateState, backoff: Backoff, now: Time) {
    if AllPursued(rows, claims, now) then
      && rows'.Keys == rows.Keys
      && forall id | id in rows :: rows'[id] == if ForCandidate(claims, id) then Sent(rows[id], target, backoff) else rows[id]
    else rows' == rows
  }

  lemma {:induction false} CandidatesFailExactly(rows: map<CandidateId, Candidate>, claims: seq<Claim>,
                                                 target: CandidateState, backoff: Backoff, now: Time)
    requires OwnCandidates(claims)
    ensures var r := FailCandidates(rows, claims, target, backoff, now);
      && (r.Ok? <==> AllPursued(rows, claims, now))
      && CandidatesMoved(rows, if r.Ok? then r.value else rows, claims, target, backoff, now)
  {
    if claims != [] {
      var n := |claims| - 1;
      var init, last := claims[..n], claims[n];
      assert claims == init + [last];
      CandidatesFailExactly(rows, init, target, backoff, now);
      LastOfOwn(rows, claims, now);
      LastMoves(rows, claims, target, backoff, now);
    }
  }

  lemma LastMoves(rows: map<CandidateId, Candidate>, claims: seq<Claim>, target: CandidateState, backoff: Backoff, now: Time)
    requires claims != []
    requires var n := |claims| - 1;
      && !ForCandidate(claims[..n], claims[n].candidate)
      && (AllPursued(rows, claims, now) <==> AllPursued(rows, claims[..n], now) && Pursued(rows, claims[n], now))
      && (forall id :: ForCandidate(claims, id) <==> ForCandidate(claims[..n], id) || id == claims[n].candidate)
      && var r := FailCandidates(rows, claims[..n], target, backoff, now);
      && (r.Ok? <==> AllPursued(rows, claims[..n], now))
      && CandidatesMoved(rows, if r.Ok? then r.value else rows, claims[..n], target, backoff, now)
    ensures var r := FailCandidates(rows, claims, target, backoff, now);
      && (r.Ok? <==> AllPursued(rows, claims, now))
      && CandidatesMoved(rows, if r.Ok? then r.value else rows, claims, target, backoff, now)
  {
    var n := |claims| - 1;
    var r := FailCandidates(rows, claims[..n], target, backoff, now);
    if r.Ok? {
      assert CanFail(r.value, claims[n], now) <==> Pursued(rows, claims[n], now);
    }
  }

  lemma LastOfOwn(rows: map<CandidateId, Candidate>, claims: seq<Claim>, now: Time)
    requires claims != [] && OwnCandidates(claims)
    ensures var n := |claims| - 1;
      && OwnCandidates(claims[..n]) && !ForCandidate(claims[..n], claims[n].candidate)
      && (AllPursued(rows, claims, now) <==> AllPursued(rows, claims[..n], now) && Pursued(rows, claims[n], now))
      && forall id :: ForCandidate(claims, id) <==> ForCandidate(claims[..n], id) || id == claims[n].candidate
  {
    var n := |claims| - 1;
    var init := claims[..n];
    assert claims == init + [claims[n]];
    assert forall i | 0 <= i < n :: init[i] == claims[i];
    forall id ensures ForCandidate(claims, id) <==> ForCandidate(init, id) || id == claims[n].candidate {
      ForCandidateSnoc(init, claims[n], id);
    }
    if AllPursued(rows, init, now) && Pursued(rows, claims[n], now) {
      forall i | 0 <= i < |claims| ensures Pursued(rows, claims[i], now) {
        assert i < n ==> claims[i] == init[i];
      }
    }
  }

  /** A generation of the candidate whose lease has run out. */
  predicate RanOut(gens: Rows, g: GenId, id: CandidateId, now: Time) {
    && g in gens && gens[g].identity == Identity.Canonical(id) && (gens[g].state == Prepared || gens[g].state == CallStarted)
    && gens[g].leaseUntil.Some? && gens[g].leaseUntil.value <= now
  }

  /** recover ends the rows whose leases ran out, and sends the candidates that wait for them to
      a person; it touches no proof. */
  lemma RecoveryAnswers(db: Db, now: Time)
    ensures var db' := Recover(db, now);
      && db'.proofs == db.proofs && db'.origins == db.origins
      && db'.gens.Keys == db.gens.Keys && db'.candidates.Keys == db.candidates.Keys
      && (forall g | g in db.gens ::
            var row := db.gens[g];
            db'.gens[g] ==
              if (row.state == Prepared || row.state == CallStarted) && row.leaseUntil.Some? && row.leaseUntil.value <= now
              then row.(state := if row.callStartedAt.None? then Failed else Uncertain, leaseUntil := None) else row)
      && (forall id | id in db.candidates ::
            db'.candidates[id] ==
              if db.candidates[id].state == GeneratingAffiliate && exists g :: RanOut(db.gens, g, id, now)
              then db.candidates[id].(state := ManualReview, leaseUntil := None) else db.candidates[id])
  {
    forall id | id in db.candidates
      ensures (exists g :: RanOut(db.gens, g, id, now))
         <==> exists g | g in db.gens :: Expired(db.gens[g], now) && db.gens[g].identity == Identity.Canonical(id)
    {
      if exists g :: RanOut(db.gens, g, id, now) {
        var g :| RanOut(db.gens, g, id, now);
        assert Expired(db.gens[g], now);
      }
      if exists g | g in db.gens :: Expired(db.gens[g], now) && db.gens[g].identity == Identity.Canonical(id) {
        var g :| g in db.gens && Expired(db.gens[g], now) && db.gens[g].identity == Identity.Canonical(id);
        assert RanOut(db.gens, g, id, now);
      }
    }
  }

  // ------------------------------------------------------------- the whole batch

  /** What came back for a batch: one link per claim, a refusal after a complete response
      and where it sends the candidates, a complete response of another shape, no complete
      response, or a cancellation. */
  datatype Response =
    | Complete(links: seq<Link>)
    | Refused(target: CandidateState, backoff: Backoff)
    | Incompatible
    | Unanswered
    | CallCancelled

  /** How a batch ends: stored, or its rows in `state` and its candidates at `target`. */
  datatype End = Stored | Unstored(state: State, target: Option<CandidateState>)

  ghost function EndOf(db: Db, claims: seq<Claim>, response: Response, startedAt: Time, now: Time): End {
    if !AllStartable(db.gens, claims, startedAt) then Unstored(Uncertain, Some(ManualReview))
    else match response
      case Refused(target, _) => Unstored(Rejected, Some(target))
      case Incompatible => Unstored(Rejected, Some(ManualReview))
      case Unanswered => Unstored(Uncertain, Some(ManualReview))
      case CallCancelled => Unstored(Uncertain, None)
      case Complete(_) =>
        if !InTime(claims, now) then Unstored(Rejected, Some(ManualReview))
        else if AllAnswerable(db, claims, startedAt, now) then Stored
        else if LostFirst(db, claims, startedAt, now) then Unstored(Uncertain, None)
        else Unstored(Rejected, Some(ManualReview))
  }

  /** Every open row of the batch has ended: in `state` if its call was started first. */
  ghost predicate BatchEnded(gens: Rows, gens': Rows, claims: seq<Claim>, startedAt: Time, state: State) {
    if AllStartable(gens, claims, startedAt) then
      && gens'.Keys == gens.Keys
      && forall g | g in gens ::
           gens'[g] == if InClaims(claims, g)
                       then gens[g].(state := state, callStartedAt := Some(startedAt), leaseUntil := None) else gens[g]
    else RowsEnded(gens, gens', claims, state)
  }

  lemma StartedThenEnded(gens: Rows, started: Rows, gens': Rows, claims: seq<Claim>, startedAt: Time, state: State)
    requires AllStartable(gens, claims, startedAt) && AllStarted(gens, started, claims, startedAt)
    requires RowsEnded(started, gens', claims, state)
    ensures BatchEnded(gens, gens', claims, startedAt, state)
  {
  }

  /** Once its calls have started, a batch can be stored while its claims are answerable. */
  lemma AnswerableIffStorable(db: Db, started: Db, claims: seq<Claim>, startedAt: Time, now: Time)
    requires AllStartable(db.gens, claims, startedAt) && AllStarted(db.gens, started.gens, claims, startedAt)
    requires started.candidates == db.candidates
    ensures AllStorable(started, claims, now) <==> AllAnswerable(db, claims, startedAt, now)
    ensures forall error :: FailsFirst(started, claims, now, error) ==>
              error == if LostFirst(db, claims, startedAt, now) then CandidateLost else GenerationLost
  {
    forall i | 0 <= i < |claims|
      ensures Storable(started, claims[i], now) <==> Answerable(db, claims[i], startedAt, now)
      ensures StillOwns(started.candidates, claims[i], now) <==> Held(db.candidates, claims[i], now)
    {
      assert Startable(db.gens, claims[i], startedAt);
      assert InClaims(claims, claims[i].generation);
    }
    forall error | FailsFirst(started, claims, now, error)
      ensures error == if LostFirst(db, claims, startedAt, now) then CandidateLost else GenerationLost
    {
      FirstDecides(db, started, claims, startedAt, now, error);
    }
  }

  lemma FirstDecides(db: Db, started: Db, claims: seq<Claim>, startedAt: Time, now: Time, error: BatchError)
    requires forall i | 0 <= i < |claims| ::
      && (Storable(started, claims[i], now) <==> Answerable(db, claims[i], startedAt, now))
      && (StillOwns(started.candidates, claims[i], now) <==> Held(db.candidates, claims[i], now))
    requires FailsFirst(started, claims, now, error)
    ensures error == if LostFirst(db, claims, startedAt, now) then CandidateLost else GenerationLost
  {
    var i :| 0 <= i < |claims| && !Storable(started, claims[i], now)
             && (forall j | 0 <= j < i :: Storable(started, claims[j], now))
             && error == if StillOwns(started.candidates, claims[i], now) then GenerationLost else CandidateLost;
    if LostFirst(db, claims, startedAt, now) {
      var k :| 0 <= k < |claims| && !Held(db.candidates, claims[k], now)
               && forall j | 0 <= j < k :: Answerable(db, claims[j], startedAt, now);
      assert !Answerable(db, claims[k], startedAt, now);
      assert i == k;
    } else {
      assert Held(db.candidates, claims[i], now);
    }
  }
}
