/**
 Candidates, proofs and ledger as _convert and _generate_batch change them: the claim
 loop, the start of every call, the storing loop, and the recording of failures.
 */
module CanonicalStore {
  import opened Prelude
  import opened Ledger
  import opened Canonical
  import opened CanonicalSafety
  import opened CanonicalAnswers

  class CanonicalTables {
    var gens: Rows
    var origins: map<GenId, Origin>
    var candidates: map<CandidateId, Candidate>
    var proofs: map<CandidateId, Proof>
    /** uuid4: every generation id drawn so far is smaller. */
    var next: GenId

    function View(): Db
      reads this
    {
      Db(gens, origins, candidates, proofs)
    }

    constructor ()
      ensures View() == Begin().db && next == Begin().next
    {
      gens, origins, candidates, proofs, next := map[], map[], map[], map[], 0;
    }

    /** claim_for_generation, then prepare. */
    method ClaimCandidate(c: Config, id: CandidateId, now: Time, g: GenId) returns (r: Result<Claim, BatchError>)
      modifies this`gens, this`origins, this`candidates
      ensures match ClaimOne(c, old(View()), id, now, g, g)
              case Ok((db, claim)) => r == Ok(claim) && View() == db
              case Err(error) => r == Err(error) && View() == old(View())
    {
      if CheckIdentity(gens, Identity.Canonical(id), now).Some? {
        return Err(ClaimBusy);
      }
      if id !in candidates || !Claimable(candidates[id], now) {
        return Err(ClaimBusy);
      }
      var row := candidates[id];
      candidates := candidates[id := row.(
        state := GeneratingAffiliate, attempts := row.attempts + 1, startedAt := Some(now),
        leaseUntil := Some(now + LEASE), nextAttempt := None)];
      gens := gens[g := NewRow(Identity.Canonical(id), now, now + LEASE, g, c.tracking, c.key)];
      origins := origins[g := Origin(row.product, row.variation)];
      r := Ok(Claim(id, now, row.attempts + 1, g, g, c.tracking));
    }

    /** The claim loop of _convert: a candidate that is busy rolls back those before it. */
    method ClaimBatch(c: Config, ids: seq<CandidateId>, now: Time) returns (r: Result<seq<Claim>, BatchError>)
      modifies this
      ensures match ClaimAll(c, old(View()), ids, now, old(next))
              case Ok((db, claims)) => r == Ok(claims) && View() == db && next == old(next) + |ids|
              case Err(error) => r == Err(error) && View() == old(View())
    {
      ghost var before, g := View(), next;
      ghost var claimer := ClaimerAt(c, now);
      var oldGens, oldOrigins, oldCandidates := gens, origins, candidates;
      var claims: seq<Claim> := [];
      for i := 0 to |ids|
        invariant ClaimEach(claimer, before, ids[..i], g) == Ok((View(), claims))
        invariant next == g + i && proofs == before.proofs
      {
        assert ids[..i + 1][..i] == ids[..i];
        ghost var d := View();
        var claim := ClaimCandidate(c, ids[i], now, next);
        next := next + 1;
        assert claimer(d, ids[i], g + i) == ClaimOne(c, d, ids[i], now, g + i, g + i);
        if claim.Err? {
          gens, origins, candidates := oldGens, oldOrigins, oldCandidates;
          ClaimFailsEarly(claimer, before, ids, g, i + 1);
          return Err(claim.error);
        }
        claims := claims + [claim.value];
      }
      assert ids[..|ids|] == ids;
      r := Ok(claims);
    }

    /** start_call for the generations of a batch: all of them, or none. */
    method StartCalls(claims: seq<Claim>, now: Time) returns (started: bool)
      modifies this`gens
      ensures match StartAll(old(View()), claims, now)
              case Ok(db) => started && View() == db
              case Err(_) => !started && View() == old(View())
    {
      var before := gens;
      ghost var ids, tokens := Generations(claims), Tokens(claims);
      for i := 0 to |claims|
        invariant StartCall(before, ids, tokens, now) == StartCall(gens, ids[i..], tokens[i..], now)
      {
        assert ids[i..][0] == claims[i].generation && tokens[i..][0] == claims[i].token;
        if !CanStart(gens, claims[i].generation, claims[i].token, now) {
          gens := before;
          return false;
        }
        gens := Started(gens, claims[i].generation, now);
        assert ids[i..][1..] == ids[i + 1..] && tokens[i..][1..] == tokens[i + 1..];
      }
      started := true;
    }

    /** One turn of the storing loop: mark_affiliate_generated, upsert, confirm. */
    method StoreClaim(c: Config, claim: Claim, link: Link, now: Time) returns (r: Result<(), BatchError>)
      modifies this`gens, this`candidates, this`proofs
      ensures match StoreOne(c, old(View()), claim, link, now)
              case Ok(db) => r == Ok(()) && View() == db
              case Err(error) => r == Err(error) && origins == old(origins)
    {
      if !StillOwns(candidates, claim, now) {
        return Err(CandidateLost);
      }
      var row := candidates[claim.candidate];
      candidates := candidates[claim.candidate := Marked(row)];
      proofs := proofs[claim.candidate :=
        Proof(claim.generation, claim.startedAt, now, row.product, row.url, link, c.tracking, now + c.ttl)];
      if !CanConfirm(gens, claim.generation, now) {
        return Err(GenerationLost);
      }
      gens := gens[claim.generation := gens[claim.generation].(
        state := Confirmed, confirmation := Some(ConfirmationOf(c, link, now)), leaseUntil := None)];
      r := Ok(());
    }

    /** The transaction that stores a complete answer; a claim that was lost rolls it back. */
    method StoreBatch(c: Config, claims: seq<Claim>, links: seq<Link>, now: Time) returns (r: Result<(), BatchError>)
      requires |links| == |claims|
      modifies this`gens, this`candidates, this`proofs
      ensures match StoreAll(c, old(View()), claims, links, now)
              case Ok(db) => r == Ok(()) && View() == db
              case Err(error) => r == Err(error) && View() == old(View())
    {
      if exists claim | claim in claims :: now < claim.startedAt {
        return Err(ClockMovedBackwards);
      }
      ghost var before := View();
      ghost var storer := StorerAt(c, now);
      var oldGens, oldCandidates, oldProofs := gens, candidates, proofs;
      for i := 0 to |claims|
        invariant StoreEach(storer, before, claims[..i], links[..i]) == Ok(View())
      {
        assert claims[..i + 1][..i] == claims[..i] && links[..i + 1][..i] == links[..i];
        ghost var d := View();
        var stored := StoreClaim(c, claims[i], links[i], now);
        assert storer(d, claims[i], links[i]) == StoreOne(c, d, claims[i], links[i], now);
        if stored.Err? {
          gens, candidates, proofs := oldGens, oldCandidates, oldProofs;
          StoreFailsEarly(storer, before, claims, links, i + 1);
          return Err(stored.error);
        }
      }
      assert claims[..|claims|] == claims && links[..|links|] == links;
      r := Ok(());
    }

    /** _record_history_failure: one row of the batch after the other, if it is open. */
    method RecordHistoryFailure(claims: seq<Claim>, state: State)
      modifies this`gens
      ensures View() == FailAll(old(View()), claims, state)
    {
      ghost var before := gens;
      for i := 0 to |claims|
        invariant gens == Fail(before, First(claims, i), state)
      {
        FirstGrows(claims, i);
        var g := claims[i].generation;
        FailOneMore(before, First(claims, i), g, state);
        if g in gens && Open(gens[g]) {
          gens := gens[g := Ended(gens[g], state)];
        }
      }
      assert claims[..|claims|] == claims;
    }

    /** _record_failures: one candidate after the other; a lost one rolls them all back. */
    method RecordFailures(claims: seq<Claim>, target: CandidateState, backoff: Backoff, now: Time)
      returns (recorded: bool)
      modifies this`candidates
      ensures match FailCandidates(old(candidates), claims, target, backoff, now)
              case Ok(rows) => recorded && candidates == rows
              case Err(_) => !recorded && candidates == old(candidates)
    {
      var before := candidates;
      for i := 0 to |claims|
        invariant FailCandidates(before, claims[..i], target, backoff, now) == Ok(candidates)
      {
        assert claims[..i + 1][..i] == claims[..i];
        if !CanFail(candidates, claims[i], now) {
          candidates := before;
          CandidatesFailEarly(before, claims, target, backoff, now, i + 1);
          return false;
        }
        candidates := candidates[claims[i].candidate :=
          candidates[claims[i].candidate].(state := target, leaseUntil := None,
                                           nextAttempt := NextAttempt(target, backoff, claims[i].attempts))];
      }
      assert claims[..|claims|] == claims;
      recorded := true;
    }

    /** The handlers of _generate_batch: the ledger first, then the candidates. */
    method RecordBoth(claims: seq<Claim>, state: State, target: CandidateState, backoff: Backoff, now: Time)
      returns (r: Result<(), BatchError>)
      requires OwnCandidates(claims)
      modifies this`gens, this`candidates
      ensures RowsEnded(old(gens), gens, claims, state)
      ensures CandidatesMoved(old(candidates), candidates, claims, target, backoff, now)
      ensures r == Err(if AllPursued(old(candidates), claims, now) then CallRefused else CandidateLost)
    {
      FailsExactly(View(), claims, state);
      RecordHistoryFailure(claims, state);
      CandidatesFailExactly(candidates, claims, target, backoff, now);
      var recorded := RecordFailures(claims, target, backoff, now);
      r := Err(if recorded then CallRefused else CandidateLost);
    }

    /** A complete answer, after the calls of the batch have started. */
    method StoreOrFail(c: Config, claims: seq<Claim>, links: seq<Link>, startedAt: Time, now: Time, ghost db: Db)
      returns (r: Result<(), BatchError>)
      requires BatchRows(View(), claims, c.tracking) && |links| == |claims|
      requires AllStartable(db.gens, claims, startedAt) && AllStarted(db.gens, gens, claims, startedAt)
      requires candidates == db.candidates
      modifies this`gens, this`candidates, this`proofs
      ensures r.Ok? <==> InTime(claims, now) && AllAnswerable(db, claims, startedAt, now)
      ensures r.Ok? ==> StoredPairs(View(), claims, links, c, now) && forall i | 0 <= i < |claims| :: StoredClaim(View(), claims[i])
      ensures r.Err? ==> proofs == old(proofs)
      ensures r.Err? && InTime(claims, now) && LostFirst(db, claims, startedAt, now) ==>
        RowsEnded(old(gens), gens, claims, Uncertain) && candidates == db.candidates
      ensures r.Err? && !(InTime(claims, now) && LostFirst(db, claims, startedAt, now)) ==>
        && RowsEnded(old(gens), gens, claims, Rejected)
        && CandidatesMoved(db.candidates, candidates, claims, ManualReview, NoBackoff(), now)
    {
      AnswerableIffStorable(db, View(), claims, startedAt, now);
      StoreAllEffect(c, View(), claims, links, now);
      StoreAllFails(c, View(), claims, links, now);
      r := StoreBatch(c, claims, links, now);
      if r == Err(CandidateLost) {
        FailsExactly(View(), claims, Uncertain);
        RecordHistoryFailure(claims, Uncertain);
      } else if r.Err? {
        r := RecordBoth(claims, Rejected, ManualReview, NoBackoff(), now);
      }
    }

    /** _generate_batch from the start of its call, for every answer: the batch is stored, each
        candidate with the link that was answered for it, or no proof changes and rows and
        candidates end as EndOf says. */
    method GenerateBatch(c: Config, claims: seq<Claim>, response: Response, startedAt: Time, respondedAt: Time)
      returns (r: Result<(), BatchError>)
      requires LedgerOk(gens) && BatchRows(View(), claims, c.tracking)
      requires forall i | 0 <= i < |claims| :: !IsConfirmed(View(), claims[i].generation)
      requires response.Complete? ==> |response.links| == |claims|
      modifies this`gens, this`candidates, this`proofs
      ensures match EndOf(old(View()), claims, response, startedAt, respondedAt)
        case Stored =>
          r.Ok? && StoredPairs(View(), claims, response.links, c, respondedAt)
          && forall i | 0 <= i < |claims| :: StoredClaim(View(), claims[i])
        case Unstored(state, target) =>
          && r.Err? && proofs == old(proofs) && BatchEnded(old(gens), gens, claims, startedAt, state)
          && match target
             case None => candidates == old(candidates)
             case Some(to) => CandidatesMoved(old(candidates), candidates, claims, to, BackoffOf(response), respondedAt)
    {
      ghost var db := View();
      StartsExactly(gens, claims, startedAt);
      var started := StartCalls(claims, startedAt);
      if !started {
        r := RecordBoth(claims, Uncertain, ManualReview, NoBackoff(), respondedAt);
        MovedForGood(db.candidates, candidates, claims, ManualReview, NoBackoff(), BackoffOf(response), respondedAt);
        return;
      }
      StartedBatchRows(c, db, claims, startedAt);
      r := Answered(c, claims, response, startedAt, respondedAt, db);
    }

    /** The rest of it, once the calls have started. */
    method Answered(c: Config, claims: seq<Claim>, response: Response, startedAt: Time, respondedAt: Time, ghost db: Db)
      returns (r: Result<(), BatchError>)
      requires BatchRows(View(), claims, c.tracking) && (response.Complete? ==> |response.links| == |claims|)
      requires AllStartable(db.gens, claims, startedAt) && AllStarted(db.gens, gens, claims, startedAt)
      requires candidates == db.candidates
      modifies this`gens, this`candidates, this`proofs
      ensures match EndOf(db, claims, response, startedAt, respondedAt)
        case Stored =>
          r.Ok? && StoredPairs(View(), claims, response.links, c, respondedAt)
          && forall i | 0 <= i < |claims| :: StoredClaim(View(), claims[i])
        case Unstored(state, target) =>
          && r.Err? && proofs == old(proofs) && BatchEnded(db.gens, gens, claims, startedAt, state)
          && match target
             case None => candidates == db.candidates
             case Some(to) => CandidatesMoved(db.candidates, candidates, claims, to, BackoffOf(response), respondedAt)
    {
      ghost var started := gens;
      match response {
        case Complete(links) =>
          r := StoreOrFail(c, claims, links, startedAt, respondedAt, db);
        case Refused(target, backoff) =>
          r := RecordBoth(claims, Rejected, target, backoff, respondedAt);
        case Incompatible =>
          r := RecordBoth(claims, Rejected, ManualReview, NoBackoff(), respondedAt);
        case Unanswered =>
          r := RecordBoth(claims, Uncertain, ManualReview, NoBackoff(), respondedAt);
        case CallCancelled =>
          FailsExactly(View(), claims, Uncertain);
          RecordHistoryFailure(claims, Uncertain);
          r := Err(CallRefused);
      }
      if r.Err? {
        ghost var end := EndOf(db, claims, response, startedAt, respondedAt);
        StartedThenEnded(db.gens, started, gens, claims, startedAt, end.state);
      }
    }
  }

  /** No failure but a refusal retries a candidate. */
  function NoBackoff(): Backoff {
    (attempts: nat) => 0
  }

  function BackoffOf(response: Response): Backoff {
    if response.Refused? then response.backoff else NoBackoff()
  }

  lemma MovedForGood(rows: map<CandidateId, Candidate>, rows': map<CandidateId, Candidate>, claims: seq<Claim>,
                     target: CandidateState, a: Backoff, b: Backoff, now: Time)
    requires target != FailedRetryable && CandidatesMoved(rows, rows', claims, target, a, now)
    ensures CandidatesMoved(rows, rows', claims, target, b, now)
  {
  }

  /** The generations of the first claims. */
  ghost function First(claims: seq<Claim>, n: nat): set<GenId>
    requires n <= |claims|
  {
    set g | g in Generations(claims[..n])
  }

  lemma FirstGrows(claims: seq<Claim>, n: nat)
    requires n < |claims|
    ensures First(claims, n + 1) == First(claims, n) + {claims[n].generation}
  {
    assert Generations(claims[..n + 1]) == Generations(claims[..n]) + [claims[n].generation];
  }

  lemma FailOneMore(rows: Rows, ids: set<GenId>, g: GenId, state: State)
    ensures var failed := Fail(rows, ids, state);
      Fail(rows, ids + {g}, state) == if g in failed && Open(failed[g]) then failed[g := Ended(failed[g], state)] else failed
  {
  }

  lemma {:induction false} CandidatesFailEarly(candidates: map<CandidateId, Candidate>, claims: seq<Claim>,
                                               target: CandidateState, backoff: Backoff, now: Time, n: nat)
    requires n <= |claims| && FailCandidates(candidates, claims[..n], target, backoff, now).Err?
    ensures FailCandidates(candidates, claims, target, backoff, now).Err?
    decreases |claims| - n
  {
    if n < |claims| {
      assert claims[..n + 1][..n] == claims[..n];
      CandidatesFailEarly(candidates, claims, target, backoff, now, n + 1);
    } else {
      assert claims[..n] == claims;
    }
  }

  lemma {:induction false} ClaimFailsEarly(claimer: Claimer, db: Db, ids: seq<CandidateId>, g: GenId, n: nat)
    requires n <= |ids| && ClaimEach(claimer, db, ids[..n], g).Err?
    ensures ClaimEach(claimer, db, ids, g) == ClaimEach(claimer, db, ids[..n], g)
    decreases |ids| - n
  {
    if n < |ids| {
      assert ids[..n + 1][..n] == ids[..n];
      ClaimFailsEarly(claimer, db, ids, g, n + 1);
    } else {
      assert ids[..n] == ids;
    }
  }

  lemma {:induction false} StoreFailsEarly(storer: Storer, db: Db, claims: seq<Claim>, links: seq<Link>, n: nat)
    requires n <= |claims| == |links| && StoreEach(storer, db, claims[..n], links[..n]).Err?
    ensures StoreEach(storer, db, claims, links) == StoreEach(storer, db, claims[..n], links[..n])
    decreases |claims| - n
  {
    if n < |claims| {
      assert claims[..n + 1][..n] == claims[..n] && links[..n + 1][..n] == links[..n];
      StoreFailsEarly(storer, db, claims, links, n + 1);
    } else {
      assert claims[..n] == claims && links[..n] == links;
    }
  }

  /** Starting the calls keeps the batch's rows its own and confirms none. */
  lemma StartedBatchRows(c: Config, db: Db, claims: seq<Claim>, now: Time)
    requires LedgerOk(db.gens) && BatchRows(db, claims, c.tracking) && StartAll(db, claims, now).Ok?
    requires forall i | 0 <= i < |claims| :: !IsConfirmed(db, claims[i].generation)
    ensures BatchRows(StartAll(db, claims, now).value, claims, c.tracking)
    ensures forall i | 0 <= i < |claims| :: !IsConfirmed(StartAll(db, claims, now).value, claims[i].generation)
  {
    StartManyKeeps(db.gens, Generations(claims), Tokens(claims), now);
    var started := StartAll(db, claims, now).value;
    forall i | 0 <= i < |claims|
      ensures Owns(started, claims[i]) && RowOk(started.gens[claims[i].generation])
      ensures !IsConfirmed(started, claims[i].generation)
    {
      assert Owns(db, claims[i]);
    }
  }
}
