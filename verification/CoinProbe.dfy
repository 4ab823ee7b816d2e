/**
 The read-only probe (inspect) against the won claim (generate) at one clock reading:
 generate recovers expired leases first and then claims.
 */
module CoinProbe {
  import opened Prelude
  import opened Ledger
  import opened Coin
  import opened CoinRuns
  import opened CoinSafety

  /** generate up to the point where it knows its disposition. */
  function RealClaim(db: Db, r: Request, now: Time, g: GenId, token: Token, slot: EvidenceId)
    : Result<(Db, Claim), CoinError>
    requires g !in db.gens && slot !in Purged(Recover(db, now).evidence, now)
  {
    ClaimTx(Recover(db, now), r, now, g, token, slot)
  }

  ghost predicate Reachable(db: Db) {
    exists actions :: db == Run(actions).db
  }

  lemma ReachableIsCoupled(db: Db)
    requires Reachable(db)
    ensures LedgerOk(db.gens) && Coupling(db)
  {
    var actions :| db == Run(actions).db;
    EveryRunIsCoupled(actions);
  }

  /** Sweeping expired leases neither blocks nor unblocks an identity. */
  lemma SweepKeepsBlocks(rows: Rows, identity: Identity, key: Fingerprint, now: Time)
    ensures CheckIdentity(Sweep(rows, now), identity, now).None? <==> CheckIdentity(rows, identity, now).None?
    ensures KeyContextOk(Sweep(rows, now), key) <==> KeyContextOk(rows, key)
  {
    var swept := Sweep(rows, now);
    assert forall g | g in rows :: Blocks(rows, g, identity) <==> Blocks(swept, g, identity);
    assert forall g | g in rows :: ForeignKeyRow(rows[g], key) <==> ForeignKeyRow(swept[g], key);
  }

  /** An identity that nothing blocks has only READY evidence. */
  lemma FreeMeansReady(db: Db, input: Fingerprint, now: Time)
    requires LedgerOk(db.gens) && Coupling(db)
    requires CheckIdentity(db.gens, Identity.Coin(input), now).None?
    ensures forall e | e in db.evidence && db.evidence[e].input == input
              :: db.evidence[e].state == Ready && Valid(db.gens, db.evidence[e]) && db.evidence[e].ready.Some?
  {
    forall e | e in db.evidence && db.evidence[e].input == input
      ensures db.evidence[e].state == Ready && Valid(db.gens, db.evidence[e]) && db.evidence[e].ready.Some?
    {
      assert Coupled(db.gens, db.evidence[e]);
      assert !Blocks(db.gens, db.evidence[e].generation.value, Identity.Coin(input));
    }
  }

  /** Both leases end together, so claim's own sweep finds nothing left to do. */
  lemma RecoverLeavesNothingToSweep(db: Db, now: Time)
    requires LedgerOk(db.gens) && Coupling(db)
    ensures SweepLeases(Recover(db, now).evidence, now) == Recover(db, now).evidence
    ensures forall e | e in db.evidence && db.evidence[e].state == Ready
              :: e in Recover(db, now).evidence && Recover(db, now).evidence[e] == db.evidence[e]
    ensures Recover(db, now).evidence.Keys == db.evidence.Keys
  {
    var db' := Recover(db, now);
    forall e | e in db'.evidence ensures !LeaseExpired(db'.evidence[e], now) {
      assert Coupled(db.gens, db.evidence[e]);
    }
  }

  lemma RecoveredIsCoupled(db: Db, now: Time)
    requires LedgerOk(db.gens) && Coupling(db)
    ensures LedgerOk(Recover(db, now).gens) && Coupling(Recover(db, now))
  {
    RecoverCouples(db, now);
    SweepKeepsLedger(db.gens, now);
  }

  /** With a free identity both sides look only at the row under their own key. */
  lemma FreeProbe(db: Db, r: Request, now: Time)
    requires LedgerOk(db.gens) && Coupling(db) && KeyContextOk(db.gens, r.key)
    requires CheckIdentity(db.gens, Identity.Coin(r.input), now).None?
    ensures Inspect(db, r, now) ==
      match Find(db.evidence, r.input, r.tracking)
      case Some(e) =>
        if db.evidence[e].ready.value.expiresAt > now then Ok(Some(ClaimForExisting(e, db.evidence[e]))) else Ok(None)
      case None => Ok(None)
  {
    FreeMeansReady(db, r.input, now);
  }

  lemma FindKey(table: Table, e: EvidenceId, input: Fingerprint, tracking: Fingerprint)
    requires e in table && HasKey(table[e], input, tracking)
    ensures Find(table, input, tracking) == Some(e)
  {
  }

  /** After the purge a key finds its row, unless that row's link had expired. */
  lemma FindPurged(table: Table, input: Fingerprint, tracking: Fingerprint, now: Time)
    requires SweepLeases(table, now) == table
    ensures Find(Purged(table, now), input, tracking) ==
      match Find(table, input, tracking)
      case Some(e) => if LinkExpired(table[e], now) then None else Some(e)
      case None => None
    ensures forall e | e in Purged(table, now) :: e in table && Purged(table, now)[e] == table[e]
  {
    var kept := Purged(table, now);
    match Find(table, input, tracking) {
      case Some(e) =>
        if !LinkExpired(table[e], now) {
          assert e in kept;
          FindKey(kept, e, input, tracking);
        }
      case None =>
    }
  }

  lemma FreeClaim(db: Db, r: Request, now: Time, g: GenId, token: Token, slot: EvidenceId)
    requires LedgerOk(db.gens) && Coupling(db) && KeyContextOk(db.gens, r.key)
    requires CheckIdentity(db.gens, Identity.Coin(r.input), now).None?
    requires SweepLeases(db.evidence, now) == db.evidence
    requires g !in db.gens && slot !in Purged(db.evidence, now)
    ensures ClaimTx(db, r, now, g, token, slot).Ok?
    ensures var claim := ClaimTx(db, r, now, g, token, slot).value.1;
      match Find(db.evidence, r.input, r.tracking)
      case Some(e) =>
        if db.evidence[e].ready.value.expiresAt > now then claim == ClaimForExisting(e, db.evidence[e])
        else claim.disposition == Generate
      case None => claim.disposition == Generate
  {
    FreeMeansReady(db, r.input, now);
    assert Admission(db, r, now).None?;
    forall e | e in ExpiredIds(db.evidence, now) ensures Valid(db.gens, db.evidence[e]) {
      assert Coupled(db.gens, db.evidence[e]);
    }
    ClaimEffect(db, r, now, g, token, slot);
    FindPurged(db.evidence, r.input, r.tracking, now);
    match Find(db.evidence, r.input, r.tracking) {
      case Some(e) => assert Coupled(db.gens, db.evidence[e]);
      case None =>
    }
  }

  /** The probe finds nothing exactly when the claim wins a new generation, and what the
      probe finds is what the claim answers: BLOCKED and IN_PROGRESS are never a surprise. */
  lemma ProbePredictsClaim(db: Db, r: Request, now: Time, g: GenId, token: Token, slot: EvidenceId)
    requires Reachable(db)
    requires g !in db.gens && slot !in Purged(Recover(db, now).evidence, now)
    ensures var probe, won := Inspect(db, r, now), RealClaim(db, r, now, g, token, slot);
      && (probe == Ok(None) <==> won.Ok? && won.value.1.disposition == Generate)
      && (probe.Ok? && probe.value.Some? ==>
            won.Ok? && won.value.1 == probe.value.value && won.value.1.disposition == Hit)
  {
    ReachableIsCoupled(db);
    ProbePredictsCoupled(db, r, now, g, token, slot);
  }

  lemma BlockedClaimNeverWins(db: Db, r: Request, now: Time, g: GenId, token: Token, slot: EvidenceId)
    requires g !in db.gens && slot !in Purged(db.evidence, now)
    requires !(KeyContextOk(db.gens, r.key) && CheckIdentity(db.gens, Identity.Coin(r.input), now).None?)
    ensures ClaimTx(db, r, now, g, token, slot).Ok? ==>
              ClaimTx(db, r, now, g, token, slot).value.1.disposition != Generate
  {
    if ClaimTx(db, r, now, g, token, slot).Ok? {
      ClaimEffect(db, r, now, g, token, slot);
    }
  }

  lemma SameRowFound(db: Db, r: Request, now: Time)
    requires LedgerOk(db.gens) && Coupling(db)
    requires CheckIdentity(db.gens, Identity.Coin(r.input), now).None?
    ensures Find(Recover(db, now).evidence, r.input, r.tracking) == Find(db.evidence, r.input, r.tracking)
    ensures forall e | Find(db.evidence, r.input, r.tracking) == Some(e)
              :: e in Recover(db, now).evidence && Recover(db, now).evidence[e] == db.evidence[e]
  {
    RecoverLeavesNothingToSweep(db, now);
    FreeMeansReady(db, r.input, now);
    match Find(db.evidence, r.input, r.tracking) {
      case Some(e) => FindKey(Recover(db, now).evidence, e, r.input, r.tracking);
      case None => assert forall e | e in db.evidence :: Recover(db, now).evidence[e].input == db.evidence[e].input;
    }
  }

  lemma ProbePredictsCoupled(db: Db, r: Request, now: Time, g: GenId, token: Token, slot: EvidenceId)
    requires LedgerOk(db.gens) && Coupling(db)
    requires g !in db.gens && slot !in Purged(Recover(db, now).evidence, now)
    ensures var probe, won := Inspect(db, r, now), RealClaim(db, r, now, g, token, slot);
      && (probe == Ok(None) <==> won.Ok? && won.value.1.disposition == Generate)
      && (probe.Ok? && probe.value.Some? ==>
            won.Ok? && won.value.1 == probe.value.value && won.value.1.disposition == Hit)
  {
    var id := Identity.Coin(r.input);
    var db' := Recover(db, now);
    SweepKeepsBlocks(db.gens, id, r.key, now);
    if KeyContextOk(db.gens, r.key) && CheckIdentity(db.gens, id, now).None? {
      ProbePredictsFree(db, r, now, g, token, slot);
    } else {
      BlockedClaimNeverWins(db', r, now, g, token, slot);
      BlockedProbeFails(db, r, now);
    }
  }

  lemma BlockedProbeFails(db: Db, r: Request, now: Time)
    requires !(KeyContextOk(db.gens, r.key) && CheckIdentity(db.gens, Identity.Coin(r.input), now).None?)
    ensures Inspect(db, r, now).Err?
  {
  }

  ghost predicate SomeoneGenerates(db: Db, input: Fingerprint) {
    exists e | e in db.evidence :: db.evidence[e].input == input && db.evidence[e].state == Generating
  }

  /** The other way round fails in exactly one case: a hit that the probe does not show is
      one answered while another tracking's generation of the same input is under way. */
  lemma HitShownUnlessSomeoneGenerates(db: Db, r: Request, now: Time, g: GenId, token: Token, slot: EvidenceId)
    requires Reachable(db)
    requires g !in db.gens && slot !in Purged(Recover(db, now).evidence, now)
    requires RealClaim(db, r, now, g, token, slot).Ok?
    requires RealClaim(db, r, now, g, token, slot).value.1.disposition == Hit
    ensures Inspect(db, r, now) ==
      if SomeoneGenerates(db, r.input) then Err(History(InProgress))
      else Ok(Some(RealClaim(db, r, now, g, token, slot).value.1))
  {
    ReachableIsCoupled(db);
    AdmissionOfOk(Recover(db, now), r, now, g, token, slot);
    SweepKeepsBlocks(db.gens, Identity.Coin(r.input), r.key, now);
    OnlyLiveLeasesAdmitted(db, r, now);
    if SomeoneGenerates(db, r.input) {
      ProbeSeesGeneration(db, r, now);
    } else {
      RecoverAddsNoGenerating(db, r.input, now);
      ProbePredictsFree(db, r, now, g, token, slot);
    }
  }

  lemma AdmissionOfOk(db: Db, r: Request, now: Time, g: GenId, token: Token, slot: EvidenceId)
    requires g !in db.gens && slot !in Purged(db.evidence, now)
    requires ClaimTx(db, r, now, g, token, slot).Ok?
    ensures Admission(db, r, now).None? && KeyContextOk(db.gens, r.key)
    ensures (forall e | e in db.evidence :: !LiveLease(db.evidence[e], r.input, now)) ==>
              CheckIdentity(db.gens, Identity.Coin(r.input), now).None?
  {
  }

  lemma ProbeSeesGeneration(db: Db, r: Request, now: Time)
    requires KeyContextOk(db.gens, r.key) && SomeoneGenerates(db, r.input)
    requires forall e | e in db.evidence && db.evidence[e].input == r.input
               :: db.evidence[e].state != Undecided
                  && (db.evidence[e].state == Generating ==> LiveLease(db.evidence[e], r.input, now))
    ensures Inspect(db, r, now) == Err(History(InProgress))
  {
  }

  /** Free identity: whatever the claim answers, the probe answered first. */
  lemma ProbePredictsFree(db: Db, r: Request, now: Time, g: GenId, token: Token, slot: EvidenceId)
    requires LedgerOk(db.gens) && Coupling(db) && KeyContextOk(db.gens, r.key)
    requires g !in db.gens && slot !in Purged(Recover(db, now).evidence, now)
    requires CheckIdentity(db.gens, Identity.Coin(r.input), now).None?
    ensures var won := RealClaim(db, r, now, g, token, slot);
      && won.Ok? && (won.value.1.disposition == Generate || won.value.1.disposition == Hit)
      && Inspect(db, r, now) == Ok(if won.value.1.disposition == Generate then None else Some(won.value.1))
  {
    SweepKeepsBlocks(db.gens, Identity.Coin(r.input), r.key, now);
    FreeProbe(db, r, now);
    RecoveredIsCoupled(db, now);
    RecoverLeavesNothingToSweep(db, now);
    FreeClaim(Recover(db, now), r, now, g, token, slot);
    SameRowFound(db, r, now);
    FreeMeansReady(db, r.input, now);
  }

  lemma RecoverAddsNoGenerating(db: Db, input: Fingerprint, now: Time)
    requires !SomeoneGenerates(db, input)
    ensures forall e | e in Recover(db, now).evidence :: !LiveLease(Recover(db, now).evidence[e], input, now)
  {
  }

  /** What admission after a recover says about the rows before it. */
  lemma OnlyLiveLeasesAdmitted(db: Db, r: Request, now: Time)
    requires LedgerOk(db.gens) && Coupling(db)
    requires Admission(Recover(db, now), r, now).None?
    ensures forall e | e in db.evidence && db.evidence[e].input == r.input
              :: db.evidence[e].state != Undecided
                 && (db.evidence[e].state == Generating ==> LiveLease(db.evidence[e], r.input, now))
  {
    var db' := Recover(db, now);
    forall e | e in db.evidence && db.evidence[e].input == r.input
      ensures db.evidence[e].state != Undecided
      ensures db.evidence[e].state == Generating ==> LiveLease(db.evidence[e], r.input, now)
    {
      assert Coupled(db.gens, db.evidence[e]);
      assert e in db'.evidence && db'.evidence[e].input == r.input && db'.evidence[e].state != Undecided;
    }
  }
}
