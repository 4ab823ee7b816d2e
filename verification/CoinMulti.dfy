/**
 One message with several links: every distinct input is generated in turn, under the
 run's budget of requests, with nobody else claiming and the clock standing still.
 */
module CoinMulti {
  import opened Prelude
  import opened Ledger
  import opened Coin
  import opened CoinRuns
  import opened CoinProbe
  import opened CoinStore

  /** What the network gives back for one request. */
  datatype Response = Answer(link: Link, mode: Mode) | CompleteRejection | Ambiguous

  datatype MultiError = Refused(error: CoinError) | BudgetInsufficient | GenerationNotReady

  /** A link the message may be rendered with. */
  datatype Generated = Generated(evidence: EvidenceId, ready: ReadyLink, generation: GenId, cacheHit: bool)

  /** The request counter of ShadowRunController. */
  class RunController {
    const maxApiCalls: nat
    var apiCalls: nat

    ghost predicate Valid()
      reads this
    {
      apiCalls <= maxApiCalls
    }

    constructor (limit: nat)
      ensures Valid() && maxApiCalls == limit && apiCalls == 0
    {
      maxApiCalls, apiCalls := limit, 0;
    }

    function RemainingApiCalls(): nat
      requires Valid()
      reads this
    {
      maxApiCalls - apiCalls
    }

    /** Grants and counts one request, or refuses it. */
    method BeforeApiCall() returns (granted: bool)
      requires Valid()
      modifies this
      ensures Valid() && granted == (old(apiCalls) < maxApiCalls)
      ensures apiCalls == old(apiCalls) + if granted then 1 else 0
    {
      granted := apiCalls < maxApiCalls;
      if granted {
        apiCalls := apiCalls + 1;
      }
    }
  }

  // ------------------------------------------------- one generation, alone

  /** The tables once a won claim's own row and evidence look like this. */
  function Added(db: Db, r: Request, now: Time, n: nat, row: Generation, found: Evidence): Db
    requires Find(Purged(db.evidence, now), r.input, r.tracking).None?
    requires found.input == r.input && found.tracking == r.tracking
  {
    Db(db.gens[n := row], Purged(db.evidence, now)[n := found])
  }

  /** The row and the evidence of a won claim whose answer was stored. */
  function AnsweredRow(r: Request, now: Time, n: nat, link: Link, mode: Mode): Generation {
    WonGeneration(r, now, n).(
      state := Confirmed, leaseUntil := None, callStartedAt := Some(now),
      confirmation := Some(Confirmation(link, now, now + LINK_TTL, CoinShort, mode)))
  }

  function AnsweredEvidence(r: Request, now: Time, n: nat, link: Link, mode: Mode): (found: Evidence)
    ensures found.input == r.input && found.tracking == r.tracking
  {
    WonEvidence(r, now, n, n).(state := Ready, lease := None, ready := Some(ReadyLink(link, now, now + LINK_TTL, mode)))
  }

  /** And of one that got no link: refused by the budget, rejected, or left in doubt. */
  function UnansweredRow(r: Request, now: Time, n: nat, granted: bool, response: Response): Generation {
    WonGeneration(r, now, n).(
      state := if !granted then Failed else if response.CompleteRejection? then Rejected else Uncertain,
      leaseUntil := None, callStartedAt := if granted then Some(now) else None)
  }

  function UnansweredEvidence(r: Request, now: Time, n: nat, granted: bool, response: Response): (found: Evidence)
    ensures found.input == r.input && found.tracking == r.tracking
  {
    WonEvidence(r, now, n, n).(
      state := if granted && response.CompleteRejection? then ReviewRequired else Undecided, lease := None)
  }

  /** The tables after the winner of a claim has stored its answer. */
  function Answered(db: Db, r: Request, now: Time, n: nat, link: Link, mode: Mode): Db
    requires Find(Purged(db.evidence, now), r.input, r.tracking).None?
  {
    Added(db, r, now, n, AnsweredRow(r, now, n, link, mode), AnsweredEvidence(r, now, n, link, mode))
  }

  /** And after it has stored that there is none. */
  function Unanswered(db: Db, r: Request, now: Time, n: nat, granted: bool, response: Response): Db
    requires Find(Purged(db.evidence, now), r.input, r.tracking).None?
  {
    Added(db, r, now, n, UnansweredRow(r, now, n, granted, response), UnansweredEvidence(r, now, n, granted, response))
  }

  /** The tables right after the claim was won. */
  function Won(db: Db, r: Request, now: Time, n: nat): Db
    requires Find(Purged(db.evidence, now), r.input, r.tracking).None?
  {
    Db(db.gens[n := WonGeneration(r, now, n)], Purged(db.evidence, now)[n := WonEvidence(r, now, n, n)])
  }

  /** What the winner's later transactions need. */
  ghost predicate Holds(db: Db, n: nat, now: Time) {
    && LedgerOk(db.gens) && Coupling(db)
    && n in db.gens && db.gens[n].leaseToken == n && OwnsLease(db.evidence, n, n, now)
  }

  lemma StarterHolds(db: Db, n: nat, now: Time)
    requires Holds(db, n, now) && CanStart(db.gens, n, n, now)
    ensures Holds(Db(Started(db.gens, n, now), db.evidence), n, now)
    ensures CanConfirm(Started(db.gens, n, now), n, now)
  {
    StartCouples(db, n, n, now);
  }

  /** At one clock reading the winner's leases hold, so its later transactions commit. */
  lemma WinnerStores(db: Db, r: Request, now: Time, n: nat, link: Link, mode: Mode)
    requires Find(Purged(db.evidence, now), r.input, r.tracking).None?
    requires var won := Won(db, r, now, n);
      CanConfirm(Started(won.gens, n, now), n, now) && OwnsLease(won.evidence, n, n, now)
    ensures var won := Won(db, r, now, n);
      FinishReady(Db(Started(won.gens, n, now), won.evidence), n, n, n, now, link, mode)
        == Ok(Answered(db, r, now, n, link, mode))
  {
    var won := Won(db, r, now, n);
    var finished := FinishReady(Db(Started(won.gens, n, now), won.evidence), n, n, n, now, link, mode).value;
    var answered := Answered(db, r, now, n, link, mode);
    Overwritten(db.gens, n, Started(won.gens, n, now)[n], answered.gens[n]);
    Overwritten(Purged(db.evidence, now), n, won.evidence[n], answered.evidence[n]);
    assert finished.gens[n] == answered.gens[n] && finished.evidence[n] == answered.evidence[n];
    assert finished.gens == answered.gens && finished.evidence == answered.evidence;
  }

  /** What a claim adds for its own input leaves the probe of every other input as it was. */
  lemma AddedProbes(db: Db, r: Request, w: Request, now: Time, n: nat, row: Generation, found: Evidence)
    requires LedgerOk(db.gens) && Coupling(db) && n !in db.gens && n !in db.evidence
    requires SweepLeases(db.evidence, now) == db.evidence
    requires Find(Purged(db.evidence, now), r.input, r.tracking).None?
    requires found.input == r.input && found.tracking == r.tracking && row.identity == Identity.Coin(r.input) && row.key == r.key
    requires w.key == r.key && w.tracking == r.tracking && w.input != r.input
    requires Inspect(db, w, now).Ok?
    requires LedgerOk(Added(db, r, now, n, row, found).gens) && Coupling(Added(db, r, now, n, row, found))
    ensures Inspect(Added(db, r, now, n, row, found), w, now) == Inspect(db, w, now)
  {
    var db' := Added(db, r, now, n, row, found);
    ProbeMeansFree(db, w, now);
    AddedIsFree(db.gens, r, w, now, n, row);
    var purged := Db(db.gens, Purged(db.evidence, now));
    PurgeKeepsProbe(db, w, now);
    PurgeCouples(db, now);
    FreeProbe(purged, w, now);
    FreeProbe(db', w, now);
    FoundBesides(purged.evidence, n, found, w.input, w.tracking);
  }

  lemma AddedIsFree(gens: Rows, r: Request, w: Request, now: Time, n: nat, row: Generation)
    requires n !in gens && row.identity == Identity.Coin(r.input) && row.key == r.key
    requires w.key == r.key && w.input != r.input
    requires KeyContextOk(gens, w.key) && CheckIdentity(gens, Identity.Coin(w.input), now).None?
    ensures KeyContextOk(gens[n := row], w.key) && CheckIdentity(gens[n := row], Identity.Coin(w.input), now).None?
  {
    var more := gens[n := row];
    assert forall g | g in more :: !Blocks(more, g, Identity.Coin(w.input));
  }

  lemma ProbeMeansFree(db: Db, w: Request, now: Time)
    requires Inspect(db, w, now).Ok?
    ensures KeyContextOk(db.gens, w.key) && CheckIdentity(db.gens, Identity.Coin(w.input), now).None?
  {
  }

  lemma FoundBesides(table: Table, n: EvidenceId, row: Evidence, input: Fingerprint, tracking: Fingerprint)
    requires n !in table && KeysUnique(table[n := row]) && !HasKey(row, input, tracking)
    ensures Find(table[n := row], input, tracking) == Find(table, input, tracking)
  {
    match Find(table, input, tracking) {
      case Some(e) => FindKey(table[n := row], e, input, tracking);
      case None =>
    }
  }

  /** The purge deletes only what the probe already reported as missing. */
  lemma PurgeKeepsProbe(db: Db, w: Request, now: Time)
    requires LedgerOk(db.gens) && Coupling(db)
    requires SweepLeases(db.evidence, now) == db.evidence
    requires Inspect(db, w, now).Ok?
    ensures Inspect(Db(db.gens, Purged(db.evidence, now)), w, now) == Inspect(db, w, now)
    ensures match Find(db.evidence, w.input, w.tracking)
            case Some(e) => LinkExpired(db.evidence[e], now) <==> db.evidence[e].ready.value.expiresAt <= now
            case None => true
  {
    ProbeMeansFree(db, w, now);
    PurgeCouples(db, now);
    FreeProbe(db, w, now);
    FreeProbe(Db(db.gens, Purged(db.evidence, now)), w, now);
    FindPurged(db.evidence, w.input, w.tracking, now);
    FreeMeansReady(db, w.input, now);
    match Find(db.evidence, w.input, w.tracking) {
      case Some(e) => assert Coupled(db.gens, db.evidence[e]);
      case None =>
    }
  }

  /** Recovering leases first changes no successful probe. */
  lemma RecoverKeepsProbe(db: Db, w: Request, now: Time)
    requires LedgerOk(db.gens) && Coupling(db)
    requires Inspect(db, w, now).Ok?
    ensures Inspect(Recover(db, now), w, now) == Inspect(db, w, now)
  {
    ProbeMeansFree(db, w, now);
    SweepKeepsBlocks(db.gens, Identity.Coin(w.input), w.key, now);
    RecoveredIsCoupled(db, now);
    FreeProbe(db, w, now);
    FreeProbe(Recover(db, now), w, now);
    SameRowFound(db, w, now);
  }

  /** Every successful probe of another input shows the same in both states. */
  ghost predicate KeepsOtherProbes(from: Db, to: Db, r: Request, now: Time) {
    forall w: Request | w.key == r.key && w.tracking == r.tracking && w.input != r.input
                        && Inspect(from, w, now).Ok?
      :: Inspect(to, w, now) == Inspect(from, w, now)
  }

  lemma CommittedClaimKeepsOthers(db: Db, r: Request, now: Time)
    requires LedgerOk(db.gens) && Coupling(db)
    ensures KeepsOtherProbes(db, Db(Recover(db, now).gens, Purged(Recover(db, now).evidence, now)), r, now)
  {
    RecoveredIsCoupled(db, now);
    RecoverLeavesNothingToSweep(db, now);
    forall w: Request | w.key == r.key && w.tracking == r.tracking && w.input != r.input && Inspect(db, w, now).Ok?
      ensures Inspect(Db(Recover(db, now).gens, Purged(Recover(db, now).evidence, now)), w, now) == Inspect(db, w, now)
    {
      RecoverKeepsProbe(db, w, now);
      PurgeKeepsProbe(Recover(db, now), w, now);
    }
  }

  lemma AddedKeepsOthers(db: Db, r: Request, now: Time, n: nat, row: Generation, found: Evidence)
    requires LedgerOk(db.gens) && Coupling(db) && n !in db.gens && n !in db.evidence
    requires Find(Purged(Recover(db, now).evidence, now), r.input, r.tracking).None?
    requires found.input == r.input && found.tracking == r.tracking && row.identity == Identity.Coin(r.input) && row.key == r.key
    requires var after := Added(Recover(db, now), r, now, n, row, found); LedgerOk(after.gens) && Coupling(after)
    ensures KeepsOtherProbes(db, Added(Recover(db, now), r, now, n, row, found), r, now)
  {
    RecoveredIsCoupled(db, now);
    RecoverLeavesNothingToSweep(db, now);
    var after := Added(Recover(db, now), r, now, n, row, found);
    forall w: Request | w.key == r.key && w.tracking == r.tracking && w.input != r.input && Inspect(db, w, now).Ok?
      ensures Inspect(after, w, now) == Inspect(db, w, now)
    {
      RecoverKeepsProbe(db, w, now);
      AddedProbes(Recover(db, now), r, w, now, n, row, found);
    }
  }

  /** After a failure the probe of the input is an error at every time to come. */
  lemma FailureIsShown(db: Db, r: Request, now: Time, n: nat, granted: bool, response: Response, t: Time)
    requires LedgerOk(db.gens) && Coupling(db)
    requires Find(Purged(db.evidence, now), r.input, r.tracking).None?
    requires KeyContextOk(db.gens, r.key) && CheckIdentity(db.gens, Identity.Coin(r.input), now).None?
    requires var after := Unanswered(db, r, now, n, granted, response); LedgerOk(after.gens) && Coupling(after)
    ensures Inspect(Unanswered(db, r, now, n, granted, response), r, t) == Err(History(
      if granted && response.CompleteRejection? then TargetIneligible else UncertainBlocked))
  {
    var after := Unanswered(db, r, now, n, granted, response);
    var id := Identity.Coin(r.input);
    assert KeyContextOk(after.gens, r.key);
    assert after.evidence[n].input == r.input;
    if granted && response.CompleteRejection? {
      FreeMeansReady(db, r.input, now);
      assert Blocks(after.gens, n, id);
      CodeIsOfAnyReturnedRow(after.gens, id, n, t);
      OnlyReviewAdded(db, after, r, now, n, t);
    }
  }

  lemma OnlyReviewAdded(db: Db, after: Db, r: Request, now: Time, n: nat, t: Time)
    requires Coupling(after) && n in after.evidence && after.evidence[n].state == ReviewRequired
    requires after.evidence == Purged(db.evidence, now)[n := after.evidence[n]]
    requires forall e | e in db.evidence && db.evidence[e].input == r.input :: db.evidence[e].state == Ready
    ensures RowsRefused(after, r, t).None?
  {
    forall e | e in after.evidence && after.evidence[e].input == r.input && e != n
      ensures after.evidence[e].state == Ready && Valid(after.gens, after.evidence[e])
    {
      assert e in db.evidence;
      assert Coupled(after.gens, after.evidence[e]);
    }
  }

  /** How the probe reports a stored link. */
  function ShownClaim(g: Generated): Claim {
    Claim(g.evidence, Hit, None, Some(g.ready), Some(g.generation))
  }

  lemma AnswerIsShown(db: Db, r: Request, now: Time, n: nat, link: Link, mode: Mode)
    requires Find(Purged(db.evidence, now), r.input, r.tracking).None?
    requires KeyContextOk(db.gens, r.key) && CheckIdentity(db.gens, Identity.Coin(r.input), now).None?
    requires var after := Answered(db, r, now, n, link, mode); LedgerOk(after.gens) && Coupling(after)
    ensures Inspect(Answered(db, r, now, n, link, mode), r, now)
         == Ok(Some(ShownClaim(Generated(n, ReadyLink(link, now, now + LINK_TTL, mode), n, false))))
  {
    var after := Answered(db, r, now, n, link, mode);
    var id := Identity.Coin(r.input);
    assert CheckIdentity(after.gens, id, now).None? by {
      assert forall g | g in db.gens :: !Blocks(db.gens, g, id);
      assert forall g | g in after.gens :: !Blocks(after.gens, g, id);
    }
    assert KeyContextOk(after.gens, r.key);
    FreeProbe(after, r, now);
    FindKey(after.evidence, n, r.input, r.tracking);
  }

  lemma HitIsShown(db: Db, r: Request, now: Time)
    requires LedgerOk(db.gens) && Coupling(db)
    ensures Inspect(db, r, now).Ok? ==>
      Inspect(Db(Recover(db, now).gens, Purged(Recover(db, now).evidence, now)), r, now) == Inspect(db, r, now)
  {
    if Inspect(db, r, now).Ok? {
      RecoveredIsCoupled(db, now);
      RecoverLeavesNothingToSweep(db, now);
      RecoverKeepsProbe(db, r, now);
      PurgeKeepsProbe(Recover(db, now), r, now);
    }
  }

  /** A claim that hits leaves every other probe as it was, and shows its own link. */
  lemma HitAnswers(before: Db, r: Request, now: Time, n: nat, claim: Claim)
    requires LedgerOk(before.gens) && Coupling(before)
    requires n !in before.gens && n !in Purged(Recover(before, now).evidence, now)
    requires claim.disposition == Hit && RealClaim(before, r, now, n, n, n).Ok?
    requires RealClaim(before, r, now, n, n, n).value.1 == claim
    ensures claim.ready.Some? && claim.generation.Some?
    ensures var after := RealClaim(before, r, now, n, n, n).value.0;
      && KeepsOtherProbes(before, after, r, now)
      && (Inspect(before, r, now).Ok? ==>
            && Inspect(before, r, now) == Inspect(after, r, now) == Ok(Some(
                 ShownClaim(Generated(claim.evidence, claim.ready.value, claim.generation.value, true)))))
  {
    ClaimEffect(Recover(before, now), r, now, n, n, n);
    CommittedClaimKeepsOthers(before, r, now);
    HitIsShown(before, r, now);
    HitProbe(before, r, now, n, claim);
    HitIsClaimed(before, r, now, n, claim);
  }

  lemma HitProbe(before: Db, r: Request, now: Time, n: nat, claim: Claim)
    requires LedgerOk(before.gens) && Coupling(before)
    requires n !in before.gens && n !in Purged(Recover(before, now).evidence, now)
    requires claim.disposition == Hit && RealClaim(before, r, now, n, n, n).Ok?
    requires RealClaim(before, r, now, n, n, n).value.1 == claim
    ensures Inspect(before, r, now).Ok? ==> Inspect(before, r, now) == Ok(Some(claim))
  {
    ProbePredictsCoupled(before, r, now, n, n, n);
    var probe, won := Inspect(before, r, now), RealClaim(before, r, now, n, n, n);
    assert probe != Ok(None);
    assert probe.Ok? ==> probe.value.Some? && probe.value.value == won.value.1;
  }

  lemma HitIsClaimed(before: Db, r: Request, now: Time, n: nat, claim: Claim)
    requires LedgerOk(before.gens) && Coupling(before)
    requires n !in before.gens && n !in Purged(Recover(before, now).evidence, now)
    requires claim.disposition == Hit && RealClaim(before, r, now, n, n, n).Ok?
    requires RealClaim(before, r, now, n, n, n).value.1 == claim
    ensures claim.ready.Some? && claim.generation.Some? && claim.token.None?
  {
    RecoveredIsCoupled(before, now);
    ClaimEffect(Recover(before, now), r, now, n, n, n);
    HitIsReady(Recover(before, now), now, claim);
  }

  lemma HitIsReady(db: Db, now: Time, claim: Claim)
    requires Coupling(db) && claim.evidence in Purged(db.evidence, now) && claim.disposition == Hit
    requires claim == ClaimForExisting(claim.evidence, Purged(db.evidence, now)[claim.evidence])
    ensures claim.ready.Some? && claim.generation.Some? && claim.token.None?
  {
    assert Coupled(db.gens, db.evidence[claim.evidence]);
  }

  // ------------------------------------------------------- the coordinator

  /** _finish_rejected or _finish_uncertain while the winner's leases hold. */
  method StoreFailure(store: ShadowStore, n: nat, now: Time, ledgerState: State, evidenceState: EvidenceState)
    requires store.Valid() && Holds(store.View(), n, now)
    requires (ledgerState == Rejected && evidenceState == ReviewRequired && store.gens[n].callStartedAt.Some?)
          || (ledgerState == Uncertain && evidenceState == Undecided)
    modifies store
    ensures store.Valid()
    ensures store.gens == old(store.gens)[n := old(store.gens)[n].(
              state := if old(store.gens)[n].callStartedAt.None? then Failed else ledgerState, leaseUntil := None)]
    ensures store.evidence == old(store.evidence)[n := old(store.evidence)[n].(state := evidenceState, lease := None)]
  {
    FailCouples(store.View(), n, n, n, now, ledgerState, evidenceState);
    FailKeepsLedger(store.gens, {n}, ledgerState);
    FailureOfOne(store.View(), n, now, ledgerState, evidenceState);
    var _ := store.FinishFailed(n, n, n, now, ledgerState, evidenceState);
  }

  lemma FailureOfOne(db: Db, n: nat, now: Time, ledgerState: State, evidenceState: EvidenceState)
    requires Holds(db, n, now)
    ensures FinishFailed(db, n, n, n, now, ledgerState, evidenceState) == Ok(Db(
      db.gens[n := db.gens[n].(state := if db.gens[n].callStartedAt.None? then Failed else ledgerState, leaseUntil := None)],
      db.evidence[n := db.evidence[n].(state := evidenceState, lease := None)]))
  {
    TokenNamesGeneration(db, n, n, n, now);
    assert Coupled(db.gens, db.evidence[n]);
    var failed := Fail(db.gens, {n}, ledgerState);
    assert failed == db.gens[n := failed[n]];
  }

  /** No link, whether or not the request was granted: the row and its evidence end. */
  method StoreNothing(store: ShadowStore, r: Request, now: Time, n: nat, granted: bool, response: Response, ghost db: Db)
    requires store.Valid() && Holds(store.View(), n, now) && (granted ==> !response.Answer?)
    requires Find(Purged(db.evidence, now), r.input, r.tracking).None?
    requires store.evidence == Won(db, r, now, n).evidence
    requires store.gens == if granted then Started(Won(db, r, now, n).gens, n, now) else Won(db, r, now, n).gens
    modifies store
    ensures store.Valid() && store.View() == Unanswered(db, r, now, n, granted, response)
  {
    ghost var before := store.View();
    var rejected := granted && response.CompleteRejection?;
    UnansweredRows(db, r, now, n, granted, response, before);
    StoreFailure(store, n, now, if rejected then Rejected else Uncertain, if rejected then ReviewRequired else Undecided);
  }

  lemma UnansweredRows(db: Db, r: Request, now: Time, n: nat, granted: bool, response: Response, before: Db)
    requires Find(Purged(db.evidence, now), r.input, r.tracking).None?
    requires before.evidence == Won(db, r, now, n).evidence
    requires before.gens == if granted then Started(Won(db, r, now, n).gens, n, now) else Won(db, r, now, n).gens
    ensures n in before.gens && n in before.evidence && (granted ==> before.gens[n].callStartedAt.Some?)
    ensures var rejected := granted && response.CompleteRejection?;
      var row, found := before.gens[n], before.evidence[n];
      && Unanswered(db, r, now, n, granted, response).gens == before.gens[n := row.(
           state := if row.callStartedAt.None? then Failed else if rejected then Rejected else Uncertain, leaseUntil := None)]
      && Unanswered(db, r, now, n, granted, response).evidence == before.evidence[n := found.(
           state := if rejected then ReviewRequired else Undecided, lease := None)]
  {
    var row, found := UnansweredRow(r, now, n, granted, response), UnansweredEvidence(r, now, n, granted, response);
    var won: Generation := WonGeneration(r, now, n);
    assert before.gens[n] == if granted then won.(state := CallStarted, callStartedAt := Some(now)) else won;
    Overwritten(db.gens, n, before.gens[n], row);
    Overwritten(Purged(db.evidence, now), n, WonEvidence(r, now, n, n), found);
  }

  lemma Overwritten<T>(m: map<nat, T>, n: nat, a: T, b: T)
    ensures m[n := a][n := b] == m[n := b]
  {
  }

  /** The call has started and the answer is complete: confirm and finish_ready. */
  method StoreAnswer(store: ShadowStore, r: Request, now: Time, n: nat, link: Link, mode: Mode, ghost db: Db)
    requires store.Valid()
    requires Find(Purged(db.evidence, now), r.input, r.tracking).None?
    requires store.View() == Db(Started(Won(db, r, now, n).gens, n, now), Won(db, r, now, n).evidence)
    requires Holds(store.View(), n, now) && CanConfirm(store.gens, n, now)
    modifies store
    ensures store.Valid() && store.View() == Answered(db, r, now, n, link, mode)
  {
    SucceedCouples(store.View(), n, n, n, now, link, mode);
    WinnerStores(db, r, now, n, link, mode);
    var _ := store.FinishReady(n, n, n, now, link, mode);
  }

  /** The winner's half of generate: ask once, then store what came back. */
  method AskAndStore(store: ShadowStore, controller: RunController, r: Request, now: Time,
                     n: nat, response: Response, ghost db: Db) returns (out: Result<Generated, MultiError>)
    requires store.Valid() && controller.Valid()
    requires Find(Purged(db.evidence, now), r.input, r.tracking).None?
    requires store.View() == Won(db, r, now, n)
    requires Holds(store.View(), n, now) && CanStart(store.gens, n, n, now)
    modifies store, controller
    ensures store.Valid() && controller.Valid()
    ensures controller.apiCalls == old(controller.apiCalls) + if old(controller.RemainingApiCalls()) > 0 then 1 else 0
    ensures out.Ok? <==> old(controller.RemainingApiCalls()) > 0 && response.Answer?
    ensures out.Err? ==> out.error == GenerationNotReady
    ensures out.Ok? ==>
      && store.View() == Answered(db, r, now, n, response.link, response.mode)
      && out.value == Generated(n, ReadyLink(response.link, now, now + LINK_TTL, response.mode), n, false)
    ensures out.Err? ==> store.View() == Unanswered(db, r, now, n, old(controller.RemainingApiCalls()) > 0, response)
  {
    var granted := controller.BeforeApiCall();
    if !granted {
      StoreNothing(store, r, now, n, false, response, db);
      return Err(GenerationNotReady);
    }
    StartStored(store, n, now);
    match response {
      case Answer(link, mode) =>
        StoreAnswer(store, r, now, n, link, mode, db);
        out := Ok(Generated(n, ReadyLink(link, now, now + LINK_TTL, mode), n, false));
      case _ =>
        StoreNothing(store, r, now, n, true, response, db);
        out := Err(GenerationNotReady);
    }
  }

  /** mark_started while the winner's lease holds. */
  method StartStored(store: ShadowStore, n: nat, now: Time)
    requires store.Valid() && Holds(store.View(), n, now) && CanStart(store.gens, n, n, now)
    modifies store
    ensures store.Valid()
    ensures store.View() == Db(Started(old(store.gens), n, now), old(store.evidence))
    ensures Holds(store.View(), n, now) && CanConfirm(store.gens, n, now)
  {
    StartOne(store.gens, n, n, now);
    StarterHolds(store.View(), n, now);
    var _ := store.StartCall([n], [n], now);
  }

  /** The winner's half, and what the probes then show. */
  method GenerateWinner(store: ShadowStore, controller: RunController, r: Request, now: Time,
                        n: nat, response: Response, ghost before: Db) returns (out: Result<Generated, MultiError>)
    requires store.Valid() && controller.Valid()
    requires LedgerOk(before.gens) && Coupling(before) && n !in before.gens && n !in before.evidence
    requires var db := Recover(before, now);
      && Find(Purged(db.evidence, now), r.input, r.tracking).None?
      && KeyContextOk(db.gens, r.key) && CheckIdentity(db.gens, Identity.Coin(r.input), now).None?
      && store.View() == Won(db, r, now, n)
    requires Holds(store.View(), n, now) && CanStart(store.gens, n, n, now)
    modifies store, controller
    ensures store.Valid() && controller.Valid()
    ensures controller.apiCalls == old(controller.apiCalls) + if old(controller.RemainingApiCalls()) > 0 then 1 else 0
    ensures out.Ok? <==> old(controller.RemainingApiCalls()) > 0 && response.Answer?
    ensures out.Err? ==> out.error == GenerationNotReady
    ensures KeepsOtherProbes(before, store.View(), r, now)
    ensures out.Ok? ==>
      && Inspect(store.View(), r, now) == Ok(Some(ShownClaim(out.value))) && !out.value.cacheHit
      && out.value.ready == ReadyLink(response.link, now, now + 86400, response.mode)
    ensures out.Err? ==> LeftUnanswered(store.View(), r, now, n, old(controller.RemainingApiCalls()) > 0, response)
  {
    ghost var db := Recover(before, now);
    ghost var granted := controller.RemainingApiCalls() > 0;
    out := AskAndStore(store, controller, r, now, n, response, db);
    if out.Ok? {
      AddedKeepsOthers(before, r, now, n, AnsweredRow(r, now, n, response.link, response.mode),
                       AnsweredEvidence(r, now, n, response.link, response.mode));
      AnswerIsShown(db, r, now, n, response.link, response.mode);
    } else {
      AddedKeepsOthers(before, r, now, n, UnansweredRow(r, now, n, granted, response),
                       UnansweredEvidence(r, now, n, granted, response));
      RecoveredIsCoupled(before, now);
      forall t: Time ensures Inspect(store.View(), r, t).Err? {
        FailureIsShown(db, r, now, n, granted, response, t);
      }
    }
  }

  /** What a call without a link leaves behind: the input's evidence and the ledger row it
      points at have both ended, as the answer says, and no later probe of it succeeds. */
  ghost predicate LeftUnanswered(db: Db, r: Request, now: Time, n: nat, granted: bool, response: Response) {
    && n in db.gens && n in db.evidence
    && var (row, found) := (db.gens[n], db.evidence[n]);
    && found.input == r.input && found.tracking == r.tracking && found.generation == Some(n)
    && found.lease.None? && found.ready.None?
    && row.identity == Identity.Coin(r.input) && row.tracking == r.tracking && row.key == r.key
    && row.preparedAt == now && row.leaseUntil.None? && row.confirmation.None?
    && (if !granted then row.state == Failed && row.callStartedAt.None? && found.state == Undecided
        else && row.callStartedAt == Some(now)
             && (response.CompleteRejection? ==> row.state == Rejected && found.state == ReviewRequired)
             && (response.Ambiguous? ==> row.state == Uncertain && found.state == Undecided))
    && forall t: Time :: Inspect(db, r, t).Err?
  }

  /** generate for one input of the message. */
  method GenerateOne(store: ShadowStore, controller: RunController, r: Request, now: Time, response: Response)
    returns (out: Result<Generated, MultiError>)
    requires store.Valid() && controller.Valid()
    modifies store, controller
    ensures store.Valid() && controller.Valid()
    ensures controller.apiCalls == old(controller.apiCalls) +
              if old(Inspect(store.View(), r, now)) == Ok(None) && old(controller.RemainingApiCalls()) > 0 then 1 else 0
    ensures out.Err? ==> out.error != BudgetInsufficient
    ensures old(Inspect(store.View(), r, now)) == Ok(None) ==>
              (out.Ok? <==> old(controller.RemainingApiCalls()) > 0 && response.Answer?)
    ensures old(Inspect(store.View(), r, now)).Ok? && old(Inspect(store.View(), r, now)).value.Some? ==> out.Ok?
    ensures out.Ok? || old(Inspect(store.View(), r, now)).Ok? ==> KeepsOtherProbes(old(store.View()), store.View(), r, now)
    ensures out.Ok? && old(Inspect(store.View(), r, now)).Ok? ==>
      && Inspect(store.View(), r, now) == Ok(Some(ShownClaim(out.value)))
      && (out.value.cacheHit <==> old(Inspect(store.View(), r, now)).value.Some?)
      && (out.value.cacheHit ==> old(Inspect(store.View(), r, now)) == Ok(Some(ShownClaim(out.value))))
      && (!out.value.cacheHit ==> out.value.ready == ReadyLink(response.link, now, now + 86400, response.mode))
    ensures out.Err? && old(Inspect(store.View(), r, now)) == Ok(None) ==>
      old(store.next) !in old(store.gens)
      && LeftUnanswered(store.View(), r, now, old(store.next), old(controller.RemainingApiCalls()) > 0, response)
  {
    ghost var before := store.View();
    RecoveredIsCoupled(before, now);
    store.Recover(now);
    ghost var db := store.View();
    var claim, n := store.ClaimTx(r, now);
    ProbePredictsCoupled(before, r, now, n, n, n);
    if claim.Err? {
      return Err(Refused(claim.error));
    }
    ClaimEffect(db, r, now, n, n, n);
    match claim.value.disposition {
      case Generate =>
        out := GenerateWinner(store, controller, r, now, n, response, before);
      case Hit =>
        HitAnswers(before, r, now, n, claim.value);
        out := Ok(Generated(claim.value.evidence, claim.value.ready.value, claim.value.generation.value, true));
      case _ =>
        out := Err(GenerationNotReady);
    }
  }

  function Misses(db: Db, rs: seq<Request>, now: Time): nat {
    if rs == [] then 0
    else Misses(db, rs[..|rs| - 1], now) + if Inspect(db, rs[|rs| - 1], now) == Ok(None) then 1 else 0
  }

  lemma {:induction false} MissesSplit(db: Db, rs: seq<Request>, i: nat, now: Time)
    requires i <= |rs|
    ensures Misses(db, rs[..i], now) <= Misses(db, rs, now)
    ensures i < |rs| ==>
      Misses(db, rs[..i + 1], now) == Misses(db, rs[..i], now) + (if Inspect(db, rs[i], now) == Ok(None) then 1 else 0)
    decreases |rs| - i
  {
    if i < |rs| {
      assert rs[..i + 1][..i] == rs[..i];
      MissesSplit(db, rs, i + 1, now);
    } else {
      assert rs[..i] == rs;
    }
  }

  /** One configuration, distinct inputs: the requests of one message. */
  ghost predicate OneMessage(rs: seq<Request>) {
    forall i, j | 0 <= i < j < |rs| ::
      rs[i].key == rs[j].key && rs[i].tracking == rs[j].tracking && rs[i].input != rs[j].input
  }

  ghost predicate AllProbed(db: Db, rs: seq<Request>, now: Time) {
    rs == [] || (AllProbed(db, rs[..|rs| - 1], now) && Inspect(db, rs[|rs| - 1], now).Ok?)
  }

  lemma {:induction false} AllProbedAt(db: Db, rs: seq<Request>, now: Time)
    requires AllProbed(db, rs, now)
    ensures forall j | 0 <= j < |rs| :: Inspect(db, rs[j], now).Ok?
  {
    if rs != [] {
      var init := rs[..|rs| - 1];
      AllProbedAt(db, init, now);
      forall j | 0 <= j < |rs| ensures Inspect(db, rs[j], now).Ok? {
        if j < |rs| - 1 {
          assert rs[j] == init[j];
        }
      }
    }
  }

  lemma AllProbedSplit(db: Db, rs: seq<Request>, i: nat, now: Time)
    requires i < |rs|
    ensures AllProbed(db, rs[..i + 1], now) == (AllProbed(db, rs[..i], now) && Inspect(db, rs[i], now).Ok?)
  {
    assert rs[..i + 1][..i] == rs[..i];
  }

  ghost predicate RefusedBy(probe: Result<Option<Claim>, CoinError>, error: MultiError) {
    probe.Err? && error == Refused(probe.error)
  }

  /** The probes of a message, before anything is generated. */
  method InspectAll(store: ShadowStore, rs: seq<Request>, now: Time) returns (missing: Result<nat, MultiError>)
    requires store.Valid()
    ensures missing.Ok? ==> (forall j | 0 <= j < |rs| :: Inspect(store.View(), rs[j], now).Ok?)
                            && missing.value == Misses(store.View(), rs, now)
    ensures missing.Err? ==> exists j | 0 <= j < |rs| :: RefusedBy(Inspect(store.View(), rs[j], now), missing.error)
  {
    ghost var db := store.View();
    var count := 0;
    for i := 0 to |rs|
      invariant count == Misses(db, rs[..i], now)
      invariant AllProbed(db, rs[..i], now)
    {
      AllProbedSplit(db, rs, i, now);
      MissesSplit(db, rs, i, now);
      var probe := store.Inspect(rs[i], now);
      if probe.Err? {
        assert RefusedBy(Inspect(db, rs[i], now), Refused(probe.error));
        return Err(Refused(probe.error));
      }
      if probe.value == None {
        count := count + 1;
      }
    }
    assert rs[..|rs|] == rs;
    AllProbedAt(db, rs, now);
    missing := Ok(count);
  }

  /** The link of a hit is the one that was shown, and that of a miss the one answered. */
  ghost predicate FromAnswer(start: Db, r: Request, response: Response, g: Generated, now: Time) {
    if Inspect(start, r, now) == Ok(None) then
      response.Answer? && g.ready == ReadyLink(response.link, now, now + 86400, response.mode)
    else Inspect(start, r, now) == Ok(Some(ShownClaim(g)))
  }

  ghost predicate AllFromAnswers(start: Db, rs: seq<Request>, responses: seq<Response>, done: seq<Generated>, now: Time) {
    |done| <= |rs| == |responses| && forall j | 0 <= j < |done| :: FromAnswer(start, rs[j], responses[j], done[j], now)
  }

  /** The first `i` inputs show their links, and the probes of the others are as they were. */
  ghost predicate Shows(start: Db, db: Db, rs: seq<Request>, i: nat, done: seq<Generated>, now: Time) {
    && |done| == i <= |rs|
    && (forall j | i <= j < |rs| :: Inspect(db, rs[j], now) == Inspect(start, rs[j], now))
    && (forall j | 0 <= j < i :: Inspect(db, rs[j], now) == Ok(Some(ShownClaim(done[j]))))
  }

  lemma ShowsOneMore(start: Db, db: Db, db': Db, rs: seq<Request>, i: nat, done: seq<Generated>, now: Time, g: Generated)
    requires Shows(start, db, rs, i, done, now) && i < |rs| && OneMessage(rs)
    requires forall j | 0 <= j < |rs| :: Inspect(start, rs[j], now).Ok?
    requires KeepsOtherProbes(db, db', rs[i], now) && Inspect(db', rs[i], now) == Ok(Some(ShownClaim(g)))
    ensures Shows(start, db', rs, i + 1, done + [g], now)
  {
    forall j | 0 <= j < |rs| && j != i ensures Inspect(db', rs[j], now) == Inspect(db, rs[j], now) {
      assert rs[j].key == rs[i].key && rs[j].tracking == rs[i].tracking && rs[j].input != rs[i].input;
    }
  }

  /** The loop got no link for the i-th input: those before it show theirs, this one will
      never be probed successfully again, and the others' probes are as they were. */
  ghost predicate StoppedAt(start: Db, db: Db, rs: seq<Request>, i: nat, now: Time) {
    && i < |rs| && Inspect(start, rs[i], now) == Ok(None) && (forall t: Time :: Inspect(db, rs[i], t).Err?)
    && (forall j | i < j < |rs| :: Inspect(db, rs[j], now) == Inspect(start, rs[j], now))
    && (forall j | 0 <= j < i :: Inspect(db, rs[j], now).Ok? && Inspect(db, rs[j], now).value.Some?)
  }

  lemma StopsThere(start: Db, db: Db, db': Db, rs: seq<Request>, i: nat, done: seq<Generated>, now: Time)
    requires Shows(start, db, rs, i, done, now) && i < |rs| && OneMessage(rs)
    requires forall j | 0 <= j < |rs| :: Inspect(start, rs[j], now).Ok?
    requires KeepsOtherProbes(db, db', rs[i], now) && Inspect(db, rs[i], now) == Ok(None)
    requires forall t: Time :: Inspect(db', rs[i], t).Err?
    ensures StoppedAt(start, db', rs, i, now)
  {
    forall j | 0 <= j < |rs| && j != i ensures Inspect(db', rs[j], now) == Inspect(db, rs[j], now) {
      assert rs[j].key == rs[i].key && rs[j].tracking == rs[i].tracking && rs[j].input != rs[i].input;
    }
  }

  /** One turn of the generating loop. */
  method GenerateNext(store: ShadowStore, controller: RunController, rs: seq<Request>, i: nat, now: Time,
                      response: Response, ghost start: Db, ghost done: seq<Generated>)
    returns (out: Result<Generated, MultiError>)
    requires store.Valid() && controller.Valid() && OneMessage(rs)
    requires Shows(start, store.View(), rs, i, done, now) && i < |rs|
    requires forall j | 0 <= j < |rs| :: Inspect(start, rs[j], now).Ok?
    requires Inspect(start, rs[i], now) == Ok(None) ==> controller.RemainingApiCalls() > 0
    modifies store, controller
    ensures store.Valid() && controller.Valid()
    ensures controller.apiCalls == old(controller.apiCalls) + if Inspect(start, rs[i], now) == Ok(None) then 1 else 0
    ensures out.Err? ==> out.error != BudgetInsufficient && StoppedAt(start, store.View(), rs, i, now)
    ensures out.Ok? ==> Shows(start, store.View(), rs, i + 1, done + [out.value], now)
                        && FromAnswer(start, rs[i], response, out.value, now)
    ensures out.Ok? <==> (Inspect(start, rs[i], now) == Ok(None) ==> response.Answer?)
  {
    ghost var db := store.View();
    var current := store.Inspect(rs[i], now);
    if current == Ok(None) && controller.RemainingApiCalls() < 1 {
      assert false;  // the recheck of the budget never rejects here
    }
    out := GenerateOne(store, controller, rs[i], now, response);
    if out.Ok? {
      ShowsOneMore(start, db, store.View(), rs, i, done, now, out.value);
    } else {
      StopsThere(start, db, store.View(), rs, i, done, now);
    }
  }

  ghost predicate AllMissesAnswered(start: Db, rs: seq<Request>, responses: seq<Response>, now: Time) {
    |responses| == |rs| && forall j | 0 <= j < |rs| && Inspect(start, rs[j], now) == Ok(None) :: responses[j].Answer?
  }

  lemma AnswersSnoc(start: Db, rs: seq<Request>, responses: seq<Response>, done: seq<Generated>, now: Time, g: Generated)
    requires AllFromAnswers(start, rs, responses, done, now) && |done| < |rs|
    requires FromAnswer(start, rs[|done|], responses[|done|], g, now)
    ensures AllFromAnswers(start, rs, responses, done + [g], now)
  {
  }

  lemma AnswersAreAnswers(start: Db, rs: seq<Request>, responses: seq<Response>, done: seq<Generated>, now: Time)
    requires AllFromAnswers(start, rs, responses, done, now) && |done| == |rs|
    ensures AllMissesAnswered(start, rs, responses, now)
  {
    forall j | 0 <= j < |rs| && Inspect(start, rs[j], now) == Ok(None) ensures responses[j].Answer? {
      assert FromAnswer(start, rs[j], responses[j], done[j], now);
    }
  }

  /** The generating loop of a message whose misses fit the remaining budget. */
  method GenerateAll(store: ShadowStore, controller: RunController, rs: seq<Request>, now: Time,
                     responses: seq<Response>) returns (out: Result<seq<Generated>, MultiError>)
    requires store.Valid() && controller.Valid() && OneMessage(rs) && |responses| == |rs|
    requires forall j | 0 <= j < |rs| :: Inspect(store.View(), rs[j], now).Ok?
    requires Misses(store.View(), rs, now) <= controller.RemainingApiCalls()
    modifies store, controller
    ensures store.Valid() && controller.Valid()
    ensures controller.apiCalls <= old(controller.apiCalls) + old(Misses(store.View(), rs, now))
    ensures out.Err? ==> out.error != BudgetInsufficient
    ensures out.Err? ==> exists i :: StoppedAt(old(store.View()), store.View(), rs, i, now)
    ensures out.Ok? <==> old(AllMissesAnswered(store.View(), rs, responses, now))
    ensures out.Ok? ==> AllFromAnswers(old(store.View()), rs, responses, out.value, now)
    ensures out.Ok? ==>
      && controller.apiCalls == old(controller.apiCalls) + old(Misses(store.View(), rs, now))
      && |out.value| == |rs|
      && forall i | 0 <= i < |rs| :: Inspect(store.View(), rs[i], now) == Ok(Some(ShownClaim(out.value[i])))
  {
    ghost var db := store.View();
    ghost var calls := controller.apiCalls;
    var done: seq<Generated> := [];
    for i := 0 to |rs|
      invariant store.Valid() && controller.Valid()
      invariant controller.apiCalls == calls + Misses(db, rs[..i], now)
      invariant Shows(db, store.View(), rs, i, done, now) && AllFromAnswers(db, rs, responses, done, now)
    {
      MissesSplit(db, rs, i, now);
      MissesSplit(db, rs, i + 1, now);
      var generated := GenerateNext(store, controller, rs, i, now, responses[i], db, done);
      if generated.Err? {
        return Err(generated.error);
      }
      AnswersSnoc(db, rs, responses, done, now, generated.value);
      done := done + [generated.value];
    }
    assert rs[..|rs|] == rs;
    AnswersAreAnswers(db, rs, responses, done, now);
    out := Ok(done);
  }

  /** prepare, from the recovery to the last generation of the message: a message is never
      left half generated because its budget ran out. */
  method PrepareMessage(store: ShadowStore, controller: RunController, rs: seq<Request>, now: Time,
                        responses: seq<Response>) returns (out: Result<seq<Generated>, MultiError>)
    requires store.Valid() && controller.Valid() && OneMessage(rs) && |responses| == |rs|
    modifies store, controller
    ensures store.Valid() && controller.Valid()
    ensures var start := Recover(old(store.View()), now);
      var misses := Misses(start, rs, now);
      var probed := forall j | 0 <= j < |rs| :: Inspect(start, rs[j], now).Ok?;
      && controller.apiCalls <= old(controller.apiCalls) + misses
      && (out == Err(BudgetInsufficient) <==> probed && misses > old(controller.RemainingApiCalls()))
      && (out == Err(BudgetInsufficient) || !probed ==>
            out.Err? && controller.apiCalls == old(controller.apiCalls) && store.View() == start)
      && (probed && misses <= old(controller.RemainingApiCalls()) ==>
            && (out.Ok? <==> AllMissesAnswered(start, rs, responses, now))
            && (out.Err? ==> exists i :: StoppedAt(start, store.View(), rs, i, now)))
      && (out.Ok? ==>
            && controller.apiCalls == old(controller.apiCalls) + misses
            && |out.value| == |rs| && AllFromAnswers(start, rs, responses, out.value, now)
            && forall i | 0 <= i < |rs| :: Inspect(store.View(), rs[i], now) == Ok(Some(ShownClaim(out.value[i]))))
  {
    RecoveredIsCoupled(store.View(), now);
    store.Recover(now);
    var missing := InspectAll(store, rs, now);
    if missing.Err? {
      return Err(missing.error);
    }
    if missing.value > controller.RemainingApiCalls() {
      return Err(BudgetInsufficient);
    }
    out := GenerateAll(store, controller, rs, now, responses);
  }
}
