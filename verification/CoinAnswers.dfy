/** What the coin generator's transactions answer and change in reachable states, said of the
    rows themselves. */
module CoinAnswers {
  import opened Prelude
  import opened Ledger
  import opened Coin
  import opened CoinRuns
  import opened CoinSafety
  import opened CoinProbe

  // -------------------------------------------------- every open end has its evidence

  /** An unconfirmed generation's evidence is still there. */
  ghost predicate Witnessed(db: Db) {
    forall g | g in db.gens && db.gens[g].state != Confirmed :: EvidenceOf(db, g)
  }

  ghost predicate EvidenceOf(db: Db, g: GenId) {
    exists e | e in db.evidence :: db.evidence[e].generation == Some(g)
  }

  lemma EvidenceStays(db: Db, db': Db, g: GenId)
    requires EvidenceOf(db, g)
    requires forall e | e in db.evidence && db.evidence[e].generation == Some(g) ::
               e in db'.evidence && db'.evidence[e].generation == Some(g)
    ensures EvidenceOf(db', g)
  {
    var e :| e in db.evidence && db.evidence[e].generation == Some(g);
    assert e in db'.evidence;
  }

  /** Only evidence of a confirmed generation is ever deleted. */
  lemma StepKeepsEvidence(s: System, a: Action, e: EvidenceId)
    requires Inv(s) && e in s.db.evidence && s.db.evidence[e].generation.Some?
    requires s.db.gens[s.db.evidence[e].generation.value].state != Confirmed
    ensures e in Step(s, a).db.evidence && Step(s, a).db.evidence[e].generation == s.db.evidence[e].generation
  {
    match a
    case RecoverAt(now) =>
    case ClaimAt(r, now, h, token, slot) => ClaimKeepsEvidence(s, a, e);
    case Start(h, now) => if h in s.calls { StartOne(s.db.gens, h, s.calls[h].token, now); }
    case EnterWire(_) =>
    case Succeed(h, now, link, mode) => SucceedEffect(s, h, now, link, mode);
    case Reject(h, now) => if h in s.calls { FailEffect(s, h, now, Rejected, ReviewRequired); }
    case GiveUp(h, now) => if h in s.calls { FailEffect(s, h, now, Uncertain, Undecided); }
  }

  lemma ClaimKeepsEvidence(s: System, a: Action, e: EvidenceId)
    requires Coupling(s.db) && e in s.db.evidence && s.db.evidence[e].generation.Some? && a.ClaimAt?
    requires s.db.gens[s.db.evidence[e].generation.value].state != Confirmed
    ensures e in Step(s, a).db.evidence && Step(s, a).db.evidence[e].generation == s.db.evidence[e].generation
  {
    if CanClaim(s.db, a.now, a.g, a.token, a.slot) && ClaimTx(s.db, a.r, a.now, a.g, a.token, a.slot).Ok? {
      ClaimEffect(s.db, a.r, a.now, a.g, a.token, a.slot);
      UnconfirmedIsKept(s.db, e, a.now);
    }
  }

  lemma UnconfirmedIsKept(db: Db, e: EvidenceId, now: Time)
    requires Coupling(db) && e in db.evidence && db.evidence[e].generation.Some?
    requires db.gens[db.evidence[e].generation.value].state != Confirmed
    ensures e in Purged(db.evidence, now) && Purged(db.evidence, now)[e].generation == db.evidence[e].generation
  {
    assert Coupled(db.gens, db.evidence[e]);
  }

  lemma NewRowHasEvidence(s: System, a: Action, g: GenId)
    requires Inv(s) && g in Step(s, a).db.gens && g !in s.db.gens
    ensures EvidenceOf(Step(s, a).db, g)
  {
    NewRowsAreClaimed(s, a, g);
    ClaimEffect(s.db, a.r, a.now, a.g, a.token, a.slot);
    assert Step(s, a).db.evidence[a.slot].generation == Some(g);
  }

  lemma NewRowsAreClaimed(s: System, a: Action, g: GenId)
    requires g in Step(s, a).db.gens && g !in s.db.gens
    ensures a.ClaimAt? && a.g == g && CanClaim(s.db, a.now, a.g, a.token, a.slot)
    ensures ClaimTx(s.db, a.r, a.now, a.g, a.token, a.slot).Ok?
    ensures ClaimTx(s.db, a.r, a.now, a.g, a.token, a.slot).value.1.disposition == Generate
  {
    match a
    case ClaimAt(r, now, h, token, slot) =>
      if CanClaim(s.db, now, h, token, slot) && ClaimTx(s.db, r, now, h, token, slot).Ok? {
        ClaimEffect(s.db, r, now, h, token, slot);
      }
    case Start(h, now) => if h in s.calls { StartOne(s.db.gens, h, s.calls[h].token, now); }
    case Succeed(h, now, link, mode) => SucceedEffect(s, h, now, link, mode);
    case Reject(h, now) => if h in s.calls { FailEffect(s, h, now, Rejected, ReviewRequired); }
    case GiveUp(h, now) => if h in s.calls { FailEffect(s, h, now, Uncertain, Undecided); }
    case _ =>
  }

  /** Every unconfirmed generation keeps its evidence, whatever is swept and purged. */
  lemma {:induction false} EveryUnconfirmedRowIsWitnessed(actions: seq<Action>)
    ensures Witnessed(Run(actions).db)
  {
    if actions != [] {
      var n := |actions| - 1;
      var s, s' := Run(actions[..n]), Run(actions);
      EveryUnconfirmedRowIsWitnessed(actions[..n]);
      EveryRunIsCoupled(actions[..n]);
      StepGoesForward(s, actions[n]);
      forall g | g in s'.db.gens && s'.db.gens[g].state != Confirmed ensures EvidenceOf(s'.db, g) {
        RowStaysWitnessed(s, actions[n], g);
      }
    }
  }

  lemma RowStaysWitnessed(s: System, a: Action, g: GenId)
    requires Inv(s) && Witnessed(s.db) && Later(s.db.gens, Step(s, a).db.gens)
    requires g in Step(s, a).db.gens && Step(s, a).db.gens[g].state != Confirmed
    ensures EvidenceOf(Step(s, a).db, g)
  {
    if g in s.db.gens {
      assert s.db.gens[g].state != Confirmed;
      var e :| e in s.db.evidence && s.db.evidence[e].generation == Some(g);
      StepKeepsEvidence(s, a, e);
    } else {
      NewRowHasEvidence(s, a, g);
    }
  }

  /** READY evidence shows what the ledger confirmed: a started coin-short call for its very
      input and tracking, with its link, its times and its mode. */
  lemma {:induction false} ReadyLinksAreTheLedgers(actions: seq<Action>, e: EvidenceId)
    requires e in Run(actions).db.evidence && Run(actions).db.evidence[e].state == Ready
    ensures var db := Run(actions).db;
      var row := db.evidence[e];
      && row.generation.Some? && row.generation.value in db.gens && row.ready.Some? && row.lease.None?
      && var gen := db.gens[row.generation.value];
      && gen.state == Confirmed && gen.callStartedAt.Some? && gen.leaseUntil.None?
      && gen.identity == Identity.Coin(row.input) && gen.tracking == row.tracking
      && gen.confirmation == Some(Confirmation(row.ready.value.link, row.ready.value.generatedAt, row.ready.value.expiresAt,
                                               CoinShort, row.ready.value.mode))
  {
    EveryRunIsCoupled(actions);
    assert Coupled(Run(actions).db.gens, Run(actions).db.evidence[e]);
  }

  // ------------------------------------------------------------ the codes, by state

  /** The code that an unconfirmed ledger row answers. */
  function CodeOf(row: Generation, now: Time): HistoryError {
    match row.state
    case Prepared => InProgress
    case CallStarted => if row.leaseUntil.Some? && now < row.leaseUntil.value then InProgress else UncertainBlocked
    case Uncertain => UncertainBlocked
    case _ => TargetIneligible
  }

  /** check_identity refuses exactly when the identity has an unconfirmed row, with this code. */
  lemma IdentityAnswers(rows: Rows, identity: Identity, now: Time)
    requires OneBlockPerIdentity(rows)
    ensures CheckIdentity(rows, identity, now).None? <==>
      forall g | g in rows && rows[g].identity == identity :: rows[g].state == Confirmed
    ensures forall g | g in rows && rows[g].identity == identity && rows[g].state != Confirmed ::
      CheckIdentity(rows, identity, now) == Some(CodeOf(rows[g], now))
  {
    forall g | g in rows && rows[g].identity == identity && rows[g].state != Confirmed
      ensures CheckIdentity(rows, identity, now) == Some(CodeOf(rows[g], now))
    {
      assert Blocks(rows, g, identity);
      CodeIsOfAnyReturnedRow(rows, identity, g, now);
    }
    if forall g | g in rows && rows[g].identity == identity :: rows[g].state == Confirmed {
      assert forall g | g in rows :: !Blocks(rows, g, identity);
    }
  }

  /** Some coin generation under another key has not been confirmed. */
  ghost predicate KeyBlocked(db: Db, key: Fingerprint) {
    exists g | g in db.gens :: db.gens[g].identity.Coin? && db.gens[g].state != Confirmed && db.gens[g].key != key
  }

  lemma KeyAnswers(db: Db, key: Fingerprint)
    ensures KeyContextOk(db.gens, key) <==> !KeyBlocked(db, key)
  {
    if KeyBlocked(db, key) {
      var g :| g in db.gens && db.gens[g].identity.Coin? && db.gens[g].state != Confirmed && db.gens[g].key != key;
      assert ForeignKeyRow(db.gens[g], key);
    }
  }

  /** The code of the probe: a lease that has run out is as good as an uncertain end, and so is
      a call that was never made. */
  function ProbeCode(row: Generation, now: Time): HistoryError {
    match row.state
    case Prepared | CallStarted => if row.leaseUntil.Some? && now < row.leaseUntil.value then InProgress else UncertainBlocked
    case Rejected => TargetIneligible
    case _ => UncertainBlocked
  }

  /** A generation of the input that has not been confirmed. */
  predicate Unconfirmed(db: Db, input: Fingerprint, g: GenId) {
    g in db.gens && db.gens[g].identity == Identity.Coin(input) && db.gens[g].state != Confirmed
  }

  /** The probe shows the evidence that lives for its input and tracking, if there is any. */
  ghost predicate ShowsWhatLives(db: Db, r: Request, now: Time) {
    && Inspect(db, r, now).Ok?
    && (Inspect(db, r, now).value.Some? <==> exists e | e in db.evidence :: LivesFor(db.evidence[e], r, now))
    && forall e | e in db.evidence && LivesFor(db.evidence[e], r, now) ::
         Inspect(db, r, now).value == Some(Claim(e, Hit, None, db.evidence[e].ready, db.evidence[e].generation))
  }

  /** Only the ledger decides what the probe of an input refuses, and with which code; when it
      refuses nothing the probe shows what lives. */
  lemma {:induction false} ProbeReadsTheLedger(actions: seq<Action>, r: Request, now: Time)
    requires RecoversFirst(actions)
    ensures var db := Run(actions).db;
      && (KeyBlocked(db, r.key) ==> Inspect(db, r, now) == Err(History(KeyContextBlocked)))
      && (!KeyBlocked(db, r.key) ==>
            forall g | Unconfirmed(db, r.input, g) :: Inspect(db, r, now) == Err(History(ProbeCode(db.gens[g], now))))
      && (!KeyBlocked(db, r.key) && (forall g :: !Unconfirmed(db, r.input, g)) ==> ShowsWhatLives(db, r, now))
  {
    var db := Run(actions).db;
    EveryRunIsCoupled(actions);
    UncertainEndsBoth(actions);
    EveryUnconfirmedRowIsWitnessed(actions);
    KeyAnswers(db, r.key);
    if !KeyBlocked(db, r.key) {
      forall g | Unconfirmed(db, r.input, g) ensures Inspect(db, r, now) == Err(History(ProbeCode(db.gens[g], now))) {
        BlockedProbe(db, r, now, g);
      }
      if forall g :: !Unconfirmed(db, r.input, g) {
        FreeInputProbe(db, r, now);
      }
    }
  }

  /** READY evidence of the input and tracking whose link has not expired. */
  predicate LivesFor(row: Evidence, r: Request, now: Time) {
    row.input == r.input && row.tracking == r.tracking && row.state == Ready && row.ready.Some? && now < row.ready.value.expiresAt
  }

  lemma FreeInputProbe(db: Db, r: Request, now: Time)
    requires LedgerOk(db.gens) && Coupling(db) && KeyContextOk(db.gens, r.key)
    requires forall g :: !Unconfirmed(db, r.input, g)
    ensures ShowsWhatLives(db, r, now)
  {
    assert forall g | g in db.gens && db.gens[g].identity == Identity.Coin(r.input) :: db.gens[g].state == Confirmed by {
      forall g | g in db.gens && db.gens[g].identity == Identity.Coin(r.input) ensures db.gens[g].state == Confirmed {
        assert !Unconfirmed(db, r.input, g);
      }
    }
    IdentityAnswers(db.gens, Identity.Coin(r.input), now);
    FreeProbe(db, r, now);
    FreeMeansReady(db, r.input, now);
    forall e | e in db.evidence && LivesFor(db.evidence[e], r, now)
      ensures Inspect(db, r, now).value == Some(Claim(e, Hit, None, db.evidence[e].ready, db.evidence[e].generation))
    {
      FindKey(db.evidence, e, r.input, r.tracking);
    }
  }

  lemma BlockedProbe(db: Db, r: Request, now: Time, g: GenId)
    requires LedgerOk(db.gens) && Coupling(db) && EndTogether(db) && Witnessed(db) && KeyContextOk(db.gens, r.key)
    requires Unconfirmed(db, r.input, g)
    ensures Inspect(db, r, now) == Err(History(ProbeCode(db.gens[g], now)))
  {
    assert EvidenceOf(db, g);
    var e :| e in db.evidence && db.evidence[e].generation == Some(g);
    assert Coupled(db.gens, db.evidence[e]);
    OthersAreReady(db, r.input, g, e);
    IdentityAnswers(db.gens, Identity.Coin(r.input), now);
    RefusedByOne(db, r, now, e);
  }

  /** One row of an input blocks; the others are READY and valid. */
  lemma OthersAreReady(db: Db, input: Fingerprint, g: GenId, e: EvidenceId)
    requires LedgerOk(db.gens) && Coupling(db)
    requires g in db.gens && db.gens[g].identity == Identity.Coin(input) && db.gens[g].state != Confirmed
    requires e in db.evidence && db.evidence[e].generation == Some(g)
    ensures db.evidence[e].input == input && db.evidence[e].state != Ready
    ensures forall f | f in db.evidence && db.evidence[f].input == input && f != e ::
      db.evidence[f].state == Ready && Valid(db.gens, db.evidence[f])
  {
    assert Coupled(db.gens, db.evidence[e]);
    forall f | f in db.evidence && db.evidence[f].input == input && f != e
      ensures db.evidence[f].state == Ready && Valid(db.gens, db.evidence[f])
    {
      assert Coupled(db.gens, db.evidence[f]);
    }
  }

  lemma RefusedByOne(db: Db, r: Request, now: Time, e: EvidenceId)
    requires e in db.evidence && db.evidence[e].input == r.input && db.evidence[e].state != Ready
    requires db.evidence[e].lease.Some? <==> db.evidence[e].state == Generating
    requires forall f | f in db.evidence && db.evidence[f].input == r.input && f != e ::
      db.evidence[f].state == Ready && Valid(db.gens, db.evidence[f])
    ensures RowsRefused(db, r, now) ==
      match db.evidence[e].state
      case Undecided => Some(UncertainBlocked)
      case Generating => Some(if now < db.evidence[e].lease.value.until then InProgress else UncertainBlocked)
      case _ => None
  {
  }

  // ------------------------------------------------------- what generate answers

  /** The claiming transaction once every lease that ran out has been ended: an uncertain or
      rejected generation refuses; an open one is waited for by its own tracking, and refuses
      any other that has no live link of its own; a live link is a hit; otherwise the claim
      is won, with a row and evidence of its own. */
  ghost predicate ClaimEnds(db: Db, r: Request, now: Time, g: GenId, token: Token, slot: EvidenceId,
                            won: Result<(Db, Claim), CoinError>) {
    && (KeyBlocked(db, r.key) ==> won == Err(History(KeyContextBlocked)))
    && (!KeyBlocked(db, r.key) ==> forall h | Unconfirmed(db, r.input, h) :: RefusesOrJoins(db, r, now, h, won))
    && (!KeyBlocked(db, r.key) && (forall h :: !Unconfirmed(db, r.input, h)) ==>
          && won.Ok?
          && (forall e | e in db.evidence && LivesFor(db.evidence[e], r, now) ::
                won.value.1 == Claim(e, Hit, None, db.evidence[e].ready, db.evidence[e].generation))
          && ((forall e | e in db.evidence :: !LivesFor(db.evidence[e], r, now)) ==>
                WonBy(db, r, now, g, token, slot, won.value.0, won.value.1)))
  }

  ghost predicate RefusesOrJoins(db: Db, r: Request, now: Time, h: GenId, won: Result<(Db, Claim), CoinError>)
    requires h in db.gens
  {
    match db.gens[h].state
    case Rejected => won == Err(History(TargetIneligible))
    case Prepared | CallStarted =>
      && (forall e | e in db.evidence && LivesFor(db.evidence[e], r, now) ::
            won.Ok? && won.value.1 == Claim(e, Hit, None, db.evidence[e].ready, db.evidence[e].generation))
      && (forall e | e in db.evidence && db.evidence[e].generation == Some(h) && db.evidence[e].tracking == r.tracking ::
            won.Ok? && won.value.1 == Claim(e, InFlight, None, None, Some(h)))
      && ((forall e | e in db.evidence :: !LivesFor(db.evidence[e], r, now))
          && (forall e | e in db.evidence && db.evidence[e].generation == Some(h) :: db.evidence[e].tracking != r.tracking) ==>
            won == Err(History(InProgress)))
    case _ => won == Err(History(UncertainBlocked))
  }

  /** A new PREPARED row and its evidence, both leased for five minutes. */
  ghost predicate WonBy(db: Db, r: Request, now: Time, g: GenId, token: Token, slot: EvidenceId, db': Db, claim: Claim) {
    && claim == Claim(slot, Generate, Some(token), None, None)
    && db'.gens == db.gens[g := Generation(Identity.Coin(r.input), Prepared, Some(now + 300), token, r.tracking, r.key, now, None, None)]
    && slot in db'.evidence
    && db'.evidence[slot] == Evidence(r.input, r.tracking, Generating, Some(Lease(token, now + 300)), None, Some(g))
    && (forall e | e in db'.evidence && e != slot :: e in db.evidence && db'.evidence[e] == db.evidence[e])
    && (forall e | e in db.evidence && e !in db'.evidence ::
          db.evidence[e].state == Ready && db.evidence[e].ready.Some? && db.evidence[e].ready.value.expiresAt <= now)
  }

  /** A state in which no lease has run out by now: what recovery leaves. */
  ghost predicate Recovered(db: Db, now: Time) {
    && LedgerOk(db.gens) && Coupling(db) && EndTogether(db) && Witnessed(db)
    && SweepLeases(db.evidence, now) == db.evidence
    && forall e | e in db.evidence && db.evidence[e].state == Generating :: now < db.evidence[e].lease.value.until
  }

  lemma RecoveredClaims(db: Db, r: Request, now: Time, g: GenId, token: Token, slot: EvidenceId)
    requires Recovered(db, now) && g !in db.gens && slot !in Purged(db.evidence, now)
    ensures ClaimEnds(db, r, now, g, token, slot, ClaimTx(db, r, now, g, token, slot))
  {
    KeyAnswers(db, r.key);
    if !KeyBlocked(db, r.key) {
      forall h | Unconfirmed(db, r.input, h)
        ensures RefusesOrJoins(db, r, now, h, ClaimTx(db, r, now, g, token, slot))
      {
        BlockedClaim(db, r, now, h, g, token, slot);
      }
      if forall h :: !Unconfirmed(db, r.input, h) {
        FreeInputClaim(db, r, now, g, token, slot);
      }
    }
  }

  lemma FreeInputClaim(db: Db, r: Request, now: Time, g: GenId, token: Token, slot: EvidenceId)
    requires Recovered(db, now) && g !in db.gens && slot !in Purged(db.evidence, now)
    requires KeyContextOk(db.gens, r.key) && forall h :: !Unconfirmed(db, r.input, h)
    ensures var won := ClaimTx(db, r, now, g, token, slot);
      && won.Ok?
      && (forall e | e in db.evidence && LivesFor(db.evidence[e], r, now) ::
            won.value.1 == Claim(e, Hit, None, db.evidence[e].ready, db.evidence[e].generation))
      && ((forall e | e in db.evidence :: !LivesFor(db.evidence[e], r, now)) ==>
            WonBy(db, r, now, g, token, slot, won.value.0, won.value.1))
  {
    assert forall h | h in db.gens && db.gens[h].identity == Identity.Coin(r.input) :: db.gens[h].state == Confirmed by {
      forall h | h in db.gens && db.gens[h].identity == Identity.Coin(r.input) ensures db.gens[h].state == Confirmed {
        assert !Unconfirmed(db, r.input, h);
      }
    }
    IdentityAnswers(db.gens, Identity.Coin(r.input), now);
    FreeMeansReady(db, r.input, now);
    assert Admission(db, r, now).None?;
    ExpiredAreValid(db, now);
    AdmittedTx(db, r, now, g, token, slot);
    FoundLives(db, r, now);
    WinsBy(db, r, now, g, token, slot);
  }

  /** An admitted claim answers from the row under its key, or wins if nothing blocks it. */
  lemma AdmittedTx(db: Db, r: Request, now: Time, g: GenId, token: Token, slot: EvidenceId)
    requires g !in db.gens && slot !in Purged(db.evidence, now) && Admission(db, r, now).None?
    requires forall e | e in ExpiredIds(db.evidence, now) :: Valid(db.gens, db.evidence[e])
    ensures var kept := Purged(db.evidence, now);
      ClaimTx(db, r, now, g, token, slot) ==
        match Find(kept, r.input, r.tracking)
        case Some(e) => Ok((Db(db.gens, kept), ClaimForExisting(e, kept[e])))
        case None =>
          match CheckIdentity(db.gens, Identity.Coin(r.input), now)
          case Some(error) => Err(History(error))
          case None => Ok((Db(db.gens[g := WonGeneration(r, now, token)], kept[slot := WonEvidence(r, now, g, token)]),
                           Claim(slot, Generate, Some(token), None, None)))
  {
    if ClaimTx(db, r, now, g, token, slot).Ok? {
      ClaimEffect(db, r, now, g, token, slot);
    }
  }

  lemma WinsBy(db: Db, r: Request, now: Time, g: GenId, token: Token, slot: EvidenceId)
    requires SweepLeases(db.evidence, now) == db.evidence && slot !in Purged(db.evidence, now)
    ensures Find(Purged(db.evidence, now), r.input, r.tracking).None? ==>
      WonBy(db, r, now, g, token, slot,
            Db(db.gens[g := WonGeneration(r, now, token)], Purged(db.evidence, now)[slot := WonEvidence(r, now, g, token)]),
            Claim(slot, Generate, Some(token), None, None))
  {
  }

  /** What the claim finds READY under its key is the evidence that lives for it. */
  lemma FoundLives(db: Db, r: Request, now: Time)
    requires Recovered(db, now)
    ensures forall e | e in db.evidence && LivesFor(db.evidence[e], r, now) :: Find(Purged(db.evidence, now), r.input, r.tracking) == Some(e)
    ensures match Find(Purged(db.evidence, now), r.input, r.tracking)
            case Some(e) => e in db.evidence && (db.evidence[e].state == Ready ==> LivesFor(db.evidence[e], r, now))
                            && Purged(db.evidence, now)[e] == db.evidence[e]
            case None => true
  {
    var kept := Purged(db.evidence, now);
    forall e | e in db.evidence && LivesFor(db.evidence[e], r, now) ensures Find(kept, r.input, r.tracking) == Some(e) {
      FindKey(kept, e, r.input, r.tracking);
    }
    match Find(kept, r.input, r.tracking)
    case Some(e) => assert Coupled(db.gens, db.evidence[e]);
    case None =>
  }

  lemma BlockedClaim(db: Db, r: Request, now: Time, h: GenId, g: GenId, token: Token, slot: EvidenceId)
    requires Recovered(db, now) && g !in db.gens && slot !in Purged(db.evidence, now)
    requires KeyContextOk(db.gens, r.key) && Unconfirmed(db, r.input, h)
    ensures RefusesOrJoins(db, r, now, h, ClaimTx(db, r, now, g, token, slot))
  {
    assert EvidenceOf(db, h);
    var e :| e in db.evidence && db.evidence[e].generation == Some(h);
    assert Coupled(db.gens, db.evidence[e]);
    OthersAreReady(db, r.input, h, e);
    IdentityAnswers(db.gens, Identity.Coin(r.input), now);
    AdmittedByOne(db, r, now, e);
    if db.evidence[e].state == Generating {
      JoinedClaim(db, r, now, h, e, g, token, slot);
    }
  }

  lemma AdmittedByOne(db: Db, r: Request, now: Time, e: EvidenceId)
    requires KeyContextOk(db.gens, r.key)
    requires e in db.evidence && db.evidence[e].input == r.input && db.evidence[e].state != Ready
    requires db.evidence[e].state == Generating ==> LiveLease(db.evidence[e], r.input, now)
    requires forall f | f in db.evidence && db.evidence[f].input == r.input && f != e ::
      db.evidence[f].state == Ready && Valid(db.gens, db.evidence[f])
    ensures Admission(db, r, now) ==
      match db.evidence[e].state
      case Undecided => Some(History(UncertainBlocked))
      case Generating => None
      case _ => (match CheckIdentity(db.gens, Identity.Coin(r.input), now) case Some(error) => Some(History(error)) case None => None)
  {
    if db.evidence[e].state == Generating {
      assert LiveLease(db.evidence[e], r.input, now);
    }
  }

  lemma ExpiredAreValid(db: Db, now: Time)
    requires Coupling(db)
    ensures forall e | e in ExpiredIds(db.evidence, now) :: Valid(db.gens, db.evidence[e])
  {
    forall e | e in ExpiredIds(db.evidence, now) ensures Valid(db.gens, db.evidence[e]) {
      assert Coupled(db.gens, db.evidence[e]);
    }
  }

  /** An input that is being generated under a live lease. */
  lemma JoinedClaim(db: Db, r: Request, now: Time, h: GenId, e: EvidenceId, g: GenId, token: Token, slot: EvidenceId)
    requires Recovered(db, now) && g !in db.gens && slot !in Purged(db.evidence, now)
    requires Unconfirmed(db, r.input, h) && Admission(db, r, now).None?
    requires e in db.evidence && db.evidence[e].generation == Some(h) && db.evidence[e].state == Generating
    ensures RefusesOrJoins(db, r, now, h, ClaimTx(db, r, now, g, token, slot))
  {
    assert Coupled(db.gens, db.evidence[e]);
    OthersAreReady(db, r.input, h, e);
    ExpiredAreValid(db, now);
    IdentityAnswers(db.gens, Identity.Coin(r.input), now);
    assert CheckIdentity(db.gens, Identity.Coin(r.input), now) == Some(InProgress);
    FoundLives(db, r, now);
    AdmittedTx(db, r, now, g, token, slot);
    var kept := Purged(db.evidence, now);
    assert e in kept && kept[e] == db.evidence[e];
    if db.evidence[e].tracking == r.tracking {
      FindKey(kept, e, r.input, r.tracking);
    }
    assert forall f | f in db.evidence && db.evidence[f].generation == Some(h) :: f == e;
  }

  lemma {:induction false} RecoveryRecovers(actions: seq<Action>, now: Time)
    requires RecoversFirst(actions)
    ensures Run(actions + [RecoverAt(now)]).db == Recover(Run(actions).db, now)
    ensures Recovered(Recover(Run(actions).db, now), now)
  {
    var more := actions + [RecoverAt(now)];
    RunOne(actions, RecoverAt(now));
    EveryRunIsCoupled(actions);
    EveryRunIsCoupled(more);
    forall i | 0 <= i < |more| && more[i].ClaimAt? ensures exists j :: RecoveredAt(more, j, i) {
      assert more[i] == actions[i];
      var j :| RecoveredAt(actions, j, i);
      assert RecoveredAt(more, j, i);
    }
    UncertainEndsBoth(more);
    EveryUnconfirmedRowIsWitnessed(more);
    RecoverLeavesNothingToSweep(Run(actions).db, now);
    RecoverLeavesNoneExpired(Run(actions), now);
  }

  /** generate recovers, then claims: its answer and its code follow from the ledger rows of the
      input, whoever made them. */
  lemma {:induction false} GenerateReadsTheLedger(actions: seq<Action>, r: Request, now: Time, g: GenId, token: Token, slot: EvidenceId)
    requires RecoversFirst(actions)
    requires var db := Recover(Run(actions).db, now); g !in db.gens && slot !in Purged(db.evidence, now)
    ensures ClaimEnds(Recover(Run(actions).db, now), r, now, g, token, slot, RealClaim(Run(actions).db, r, now, g, token, slot))
  {
    RecoveryRecovers(actions, now);
    RecoveredClaims(Recover(Run(actions).db, now), r, now, g, token, slot);
  }
}
