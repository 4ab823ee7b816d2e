/** What every history of canonical batches guarantees. */
module CanonicalSafety {
  import opened Prelude
  import opened Ledger
  import opened Canonical

  // --------------------------------------------------------- one lemma per event

  lemma RecoverKeepsInv(w: World, now: Time)
    requires Inv(w)
    ensures Inv(w.(db := Recover(w.db, now)))
  {
    SweepKeepsLedger(w.db.gens, now);
    QuietStep(w, Recover(w.db, now), w.batches);
  }

  /** A step that confirms nothing and touches no proof. */
  lemma QuietStep(w: World, db: Db, batches: seq<Batch>)
    requires Inv(w) && LedgerOk(db.gens) && Quiet(w.db, db) && db.gens.Keys == w.db.gens.Keys && db.origins == w.db.origins
    requires |batches| == |w.batches|
    requires forall b | 0 <= b < |batches| :: batches[b] == w.batches[b] || batches[b] == w.batches[b].(started := true)
    ensures Inv(w.(db := db, batches := batches))
  {
    QuietKeepsProofs(w.db, db);
    QuietKeepsBatches(w.db, db, w.batches, batches);
  }

  lemma {:induction false} StartManyKeeps(rows: Rows, ids: seq<GenId>, tokens: seq<Token>, now: Time)
    requires |ids| == |tokens| && LedgerOk(rows) && StartCall(rows, ids, tokens, now).Ok?
    ensures var rows' := StartCall(rows, ids, tokens, now).value;
      LedgerOk(rows') && Settles(rows, rows') && rows'.Keys == rows.Keys
  {
    if ids != [] {
      StartKeepsLedger(rows, ids[0], tokens[0], now);
      StartManyKeeps(Started(rows, ids[0], now), ids[1..], tokens[1..], now);
    }
  }

  lemma StartKeepsInv(w: World, b: nat, now: Time)
    requires Inv(w)
    ensures Inv(NextStart(w, b, now))
  {
    if b < |w.batches| && !w.batches[b].started && StartAll(w.db, w.batches[b].claims, now).Ok? {
      var claims := w.batches[b].claims;
      StartManyKeeps(w.db.gens, Generations(claims), Tokens(claims), now);
      QuietStep(w, StartAll(w.db, claims, now).value, w.batches[b := w.batches[b].(started := true)]);
    }
  }

  lemma FailKeepsInv(w: World, claims: seq<Claim>, state: State)
    requires Inv(w) && (state == Uncertain || state == Rejected)
    ensures Inv(w.(db := FailAll(w.db, claims, state)))
  {
    FailKeepsLedger(w.db.gens, (set g | g in Generations(claims)), state);
    QuietStep(w, FailAll(w.db, claims, state), w.batches);
  }

  lemma MovedKeepsInv(w: World, id: CandidateId, row: Candidate)
    requires Inv(w) && (id in w.db.candidates ==> SameIdentity(w.db.candidates[id], row))
    ensures Inv(w.(db := w.db.(candidates := w.db.candidates[id := row])))
  {
    QuietStep(w, w.db.(candidates := w.db.candidates[id := row]), w.batches);
  }

  lemma NewBatchIsApart(batches: seq<Batch>, batch: Batch, next: GenId)
    requires forall b | 0 <= b < |batches| :: forall x | x in batches[b].claims :: x.generation < next
    requires forall x | x in batch.claims :: x.generation >= next
    ensures forall b | 0 <= b < |batches| :: Apart(batches[b], batch)
  {
  }

  lemma ClaimKeepsInv(c: Config, w: World, ids: seq<CandidateId>, now: Time)
    requires Inv(w)
    ensures Inv(NextClaim(c, w, ids, now))
  {
    if ClaimAll(c, w.db, ids, now, w.next).Ok? {
      var (db, claims) := ClaimAll(c, w.db, ids, now, w.next).value;
      ClaimAllEffect(c, w.db, ids, now, w.next);
      assert ProofsOk(db) by {
        QuietKeepsProofs(w.db, db);
      }
      assert forall b | 0 <= b < |w.batches| :: BatchOk(db, w.batches[b]) by {
        QuietKeepsBatches(w.db, db, w.batches, w.batches);
      }
      NewBatchOk(c, db, claims, w.next);
      forall b | 0 <= b < |w.batches| ensures forall x | x in w.batches[b].claims :: x.generation < w.next {
        assert BatchOk(w.db, w.batches[b]);
      }
      NewBatchIsApart(w.batches, Batch(c, claims, false, false), w.next);
    }
  }

  lemma NewBatchOk(c: Config, db: Db, claims: seq<Claim>, g: GenId)
    requires FreshClaims(db, claims, g) && OwnCandidates(claims) && AllTracked(claims, c.tracking)
    ensures BatchOk(db, Batch(c, claims, false, false))
    ensures forall x | x in claims :: x.generation >= g
  {
    forall i | 0 <= i < |claims| ensures Owns(db, claims[i]) && !IsConfirmed(db, claims[i].generation) {
      assert FreshClaim(db, claims[i], g + i);
    }
    forall i, j | 0 <= i < j < |claims| ensures claims[i].generation != claims[j].generation {
      assert FreshClaim(db, claims[i], g + i) && FreshClaim(db, claims[j], g + j);
    }
    forall x | x in claims ensures x.generation >= g {
      var i :| 0 <= i < |claims| && claims[i] == x;
      assert FreshClaim(db, claims[i], g + i);
    }
  }

  // ------------------------------------------------------------ storing a batch

  ghost predicate InTime(claims: seq<Claim>, now: Time) {
    forall claim | claim in claims :: claim.startedAt <= now
  }

  /** The storing transaction commits exactly when the clock has not gone back and every
      claim still owns its candidate and its started call; then all of it is done. */
  lemma StoreAllEffect(c: Config, db: Db, claims: seq<Claim>, links: seq<Link>, now: Time)
    requires |links| == |claims| && BatchRows(db, claims, c.tracking)
    ensures var r := StoreAll(c, db, claims, links, now);
      && (r.Ok? <==> InTime(claims, now) && AllStorable(db, claims, now))
      && (r.Ok? ==> StoredFrom(db, r.value, claims) && StoredPairs(r.value, claims, links, c, now))
  {
    var storer := StorerAt(c, now);
    forall d: Db, claim: Claim, link: Link
      | Owns(d, claim) && claim.tracking == c.tracking && RowOk(d.gens[claim.generation])
      ensures storer(d, claim, link).Ok? <==> Storable(d, claim, now)
      ensures storer(d, claim, link).Ok? ==> StoredOne(d, storer(d, claim, link).value, claim)
                                             && StoredAs(storer(d, claim, link).value, claim, link, c, now)
    {
      StoreOneEffect(c, d, claim, link, now);
    }
    StoreEachEffect(storer, db, claims, links, c, now);
  }

  lemma StoredKeepsLedger(db: Db, db': Db, claims: seq<Claim>)
    requires LedgerOk(db.gens) && StoredFrom(db, db', claims)
    requires forall i | 0 <= i < |claims| :: Owns(db, claims[i])
    ensures LedgerOk(db'.gens)
  {
    forall g | g in db'.gens
      ensures RowOk(db'.gens[g]) && db'.gens[g].identity == db.gens[g].identity
              && db'.gens[g].leaseToken == db.gens[g].leaseToken
              && (Blocking(db'.gens[g]) ==> Blocking(db.gens[g]))
    {
      if InClaims(claims, g) {
        var i :| 0 <= i < |claims| && claims[i].generation == g;
        assert StoredClaim(db', claims[i]);
      }
    }
    RewriteKeepsLedger(db.gens, db'.gens);
  }

  lemma StoredKeepsProofs(db: Db, db': Db, claims: seq<Claim>)
    requires ProofsOk(db) && StoredFrom(db, db', claims)
    requires forall i | 0 <= i < |claims| :: !IsConfirmed(db, claims[i].generation)
    ensures ProofsOk(db')
  {
    forall id | id in db'.proofs ensures ValidProof(db', id, db'.proofs[id]) {
      if ForCandidate(claims, id) {
        var i :| 0 <= i < |claims| && claims[i].candidate == id;
        assert StoredClaim(db', claims[i]);
      } else {
        assert ValidProof(db, id, db.proofs[id]);
        assert !InClaims(claims, db.proofs[id].generation);
      }
    }
  }

  lemma StoredKeepsOtherBatch(db: Db, db': Db, batch: Batch, claims: seq<Claim>)
    requires BatchOk(db, batch) && StoredFrom(db, db', claims)
    requires forall x, y | x in batch.claims && y in claims :: x.generation != y.generation
    ensures BatchOk(db', batch)
  {
    forall i | 0 <= i < |batch.claims| ensures Owns(db', batch.claims[i])
      ensures db'.gens[batch.claims[i].generation] == db.gens[batch.claims[i].generation]
    {
      assert batch.claims[i] in batch.claims;
      assert Owns(db, batch.claims[i]);
      assert !InClaims(claims, batch.claims[i].generation);
    }
  }

  lemma StoredOwnBatch(db: Db, db': Db, batch: Batch)
    requires BatchOk(db, batch) && StoredFrom(db, db', batch.claims)
    ensures BatchOk(db', batch.(stored := true))
  {
    forall i | 0 <= i < |batch.claims| ensures Owns(db', batch.claims[i]) && IsConfirmed(db', batch.claims[i].generation) {
      assert StoredClaim(db', batch.claims[i]);
    }
  }

  lemma BatchHasRows(w: World, b: nat)
    requires Inv(w) && b < |w.batches|
    ensures BatchRows(w.db, w.batches[b].claims, w.batches[b].service.tracking)
  {
    assert BatchOk(w.db, w.batches[b]);
  }

  lemma StoredKeepsBatches(w: World, db: Db, b: nat)
    requires Inv(w) && b < |w.batches| && StoredFrom(w.db, db, w.batches[b].claims)
    ensures BatchesOk(db, w.batches[b := w.batches[b].(stored := true)])
  {
    var batches := w.batches[b := w.batches[b].(stored := true)];
    forall a | 0 <= a < |batches| ensures BatchOk(db, batches[a]) {
      assert BatchOk(w.db, w.batches[a]);
      if a == b {
        StoredOwnBatch(w.db, db, w.batches[b]);
      } else {
        assert a < b ==> Apart(w.batches[a], w.batches[b]);
        assert b < a ==> Apart(w.batches[b], w.batches[a]);
        StoredKeepsOtherBatch(w.db, db, w.batches[a], w.batches[b].claims);
      }
    }
    forall x, y | 0 <= x < y < |batches| ensures Apart(batches[x], batches[y]) {
      assert Apart(w.batches[x], w.batches[y]);
    }
  }

  lemma StoreKeepsInv(w: World, b: nat, links: seq<Link>, now: Time)
    requires Inv(w)
    ensures Inv(NextStore(w, b, links, now))
  {
    var w' := NextStore(w, b, links, now);
    if w' != w {
      var claims := w.batches[b].claims;
      BatchHasRows(w, b);
      StoreAllEffect(w.batches[b].service, w.db, claims, links, now);
      NoneConfirmedYet(w.db, claims, now);
      StoredKeepsLedger(w.db, w'.db, claims);
      StoredKeepsProofs(w.db, w'.db, claims);
      StoredKeepsBatches(w, w'.db, b);
      StoredKeepsIds(w.db, w'.db, claims, w.next);
    }
  }

  lemma NoneConfirmedYet(db: Db, claims: seq<Claim>, now: Time)
    requires AllStorable(db, claims, now)
    ensures forall i | 0 <= i < |claims| :: !IsConfirmed(db, claims[i].generation)
  {
    forall i | 0 <= i < |claims| ensures !IsConfirmed(db, claims[i].generation) {
      assert Storable(db, claims[i], now);
    }
  }

  lemma StoredKeepsIds(db: Db, db': Db, claims: seq<Claim>, next: GenId)
    requires IdsOk(db, next) && StoredFrom(db, db', claims) && forall i | 0 <= i < |claims| :: Owns(db, claims[i])
    ensures IdsOk(db', next)
  {
    forall g | g in db'.gens ensures db'.gens[g].leaseToken == g {
      if InClaims(claims, g) {
        var i :| 0 <= i < |claims| && claims[i].generation == g;
        assert StoredClaim(db', claims[i]);
      }
    }
  }

  // ---------------------------------------------------------------- theorems

  lemma NextKeepsInv(w: World, e: Event)
    requires Inv(w)
    ensures Inv(Next(w, e))
  {
    match e
    case Recovered(now) => RecoverKeepsInv(w, now);
    case Claimed(service, ids, now) => ClaimKeepsInv(service, w, ids, now);
    case CallsStarted(b, now) => StartKeepsInv(w, b, now);
    case AnswerStored(b, links, now) => StoreKeepsInv(w, b, links, now);
    case HistoryFailed(b, state) =>
      if b < |w.batches| && (state == Uncertain || state == Rejected) { FailKeepsInv(w, w.batches[b].claims, state); }
    case CandidateMoved(id, row) =>
      if id !in w.db.candidates || SameIdentity(w.db.candidates[id], row) { MovedKeepsInv(w, id, row); }
  }

  lemma {:induction false} EveryHistoryIsSound(events: seq<Event>)
    ensures Inv(History(events))
  {
    if events != [] {
      EveryHistoryIsSound(events[..|events| - 1]);
      NextKeepsInv(History(events[..|events| - 1]), events[|events| - 1]);
    }
  }

  /** In every reachable state the generations of a batch are all CONFIRMED or none is. */
  lemma {:induction false} BatchesAreAllOrNothing(events: seq<Event>, b: nat, i: nat, j: nat)
    requires b < |History(events).batches|
    requires i < |History(events).batches[b].claims| && j < |History(events).batches[b].claims|
    ensures var w := History(events);
      IsConfirmed(w.db, w.batches[b].claims[i].generation) <==> IsConfirmed(w.db, w.batches[b].claims[j].generation)
  {
    EveryHistoryIsSound(events);
    assert BatchOk(History(events).db, History(events).batches[b]);
  }

  /** Every stored proof satisfies validate_canonical_proof, at any later time too. */
  lemma {:induction false} ProofsStayValid(events: seq<Event>, id: CandidateId)
    requires id in History(events).db.proofs
    ensures ValidProof(History(events).db, id, History(events).db.proofs[id])
  {
    EveryHistoryIsSound(events);
  }

  /** Committing an answer confirms the whole batch and gives each of its candidates a
      valid proof of the batch's own generation, with the link that was answered for it; it
      commits exactly when every claim still holds, and otherwise changes nothing. */
  lemma {:induction false} AnswerCommitsWholeBatchIff(events: seq<Event>, b: nat, links: seq<Link>, now: Time)
    requires b < |History(events).batches| && History(events).batches[b].started
    requires |links| == |History(events).batches[b].claims|
    ensures var w := History(events);
      var w' := Next(w, AnswerStored(b, links, now));
      var claims := w.batches[b].claims;
      if InTime(claims, now) && AllStorable(w.db, claims, now)
      then && w'.batches[b].stored && (forall i | 0 <= i < |claims| :: StoredClaim(w'.db, claims[i]))
           && StoredPairs(w'.db, claims, links, w.batches[b].service, now)
      else w' == w
  {
    EveryHistoryIsSound(events);
    BatchHasRows(History(events), b);
    StoreStepIff(History(events), b, links, now);
  }

  lemma StoreStepIff(w: World, b: nat, links: seq<Link>, now: Time)
    requires b < |w.batches| && w.batches[b].started && |links| == |w.batches[b].claims|
    requires BatchRows(w.db, w.batches[b].claims, w.batches[b].service.tracking)
    ensures var w' := Next(w, AnswerStored(b, links, now));
      var claims := w.batches[b].claims;
      if InTime(claims, now) && AllStorable(w.db, claims, now)
      then && w'.batches[b].stored && (forall i | 0 <= i < |claims| :: StoredClaim(w'.db, claims[i]))
           && StoredPairs(w'.db, claims, links, w.batches[b].service, now)
      else w' == w
  {
    StoreAllEffect(w.batches[b].service, w.db, w.batches[b].claims, links, now);
  }

  /** A worker whose candidate was claimed again commits nothing, even if the new claim has
      the same clock reading and the same attempt count: the candidate's row is fenced by
      started_at and attempt_count, the batch by its generation, which a later claim could
      only be made after. */
  lemma {:induction false} ReclaimedBatchCommitsNothing(events: seq<Event>, b: nat, i: nat, links: seq<Link>, now: Time, g: GenId)
    requires b < |History(events).batches| && i < |History(events).batches[b].claims|
    requires var w := History(events);
      var claim := w.batches[b].claims[i];
      || (claim.candidate in w.db.candidates
          && (w.db.candidates[claim.candidate].startedAt != Some(claim.startedAt)
              || w.db.candidates[claim.candidate].attempts != claim.attempts))
      || (g in w.db.gens && g != claim.generation && w.db.gens[g].identity == Identity.Canonical(claim.candidate)
          && Blocking(w.db.gens[g]))
    ensures Next(History(events), AnswerStored(b, links, now)) == History(events)
  {
    EveryHistoryIsSound(events);
    var w := History(events);
    if w.batches[b].started && |links| == |w.batches[b].claims| {
      BatchHasRows(w, b);
      StoreAllEffect(w.batches[b].service, w.db, w.batches[b].claims, links, now);
      StaleClaimIsNotStorable(w.db, w.batches[b].claims[i], now, g);
      assert !AllStorable(w.db, w.batches[b].claims, now);
    }
  }

  lemma StaleClaimIsNotStorable(db: Db, claim: Claim, now: Time, g: GenId)
    requires OneBlockPerIdentity(db.gens) && Owns(db, claim)
    requires (db.candidates[claim.candidate].startedAt != Some(claim.startedAt)
              || db.candidates[claim.candidate].attempts != claim.attempts)
          || (g in db.gens && g != claim.generation && db.gens[g].identity == Identity.Canonical(claim.candidate)
              && Blocking(db.gens[g]))
    ensures !Storable(db, claim, now)
  {
  }
}
