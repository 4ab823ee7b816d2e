/**
 Coin-short evidence and the coordinator's transactions over evidence and ledger.
 One function is one `database.session()` block: `Err` means it rolled back.
 */
module Coin {
  import opened Prelude
  import opened Ledger

  type EvidenceId = nat

  /** The five minutes both leases of a claim last, and the day a link lives. */
  const LEASE: Time := 300
  const LINK_TTL: Time := 86400

  datatype EvidenceState = Generating | Ready | ReviewRequired | Undecided

  datatype Lease = Lease(token: Token, until: Time)

  datatype ReadyLink = ReadyLink(link: Link, generatedAt: Time, expiresAt: Time, mode: Mode)

  datatype Evidence = Evidence(
    input: Fingerprint,
    tracking: Fingerprint,
    state: EvidenceState,
    lease: Option<Lease>,
    ready: Option<ReadyLink>,
    generation: Option<GenId>)

  predicate KeysUnique(table: map<EvidenceId, Evidence>) {
    forall a, b | a in table && b in table
                  && table[a].input == table[b].input && table[a].tracking == table[b].tracking
      :: a == b
  }

  /** The evidence table with its unique key (input, tracking). */
  type Table = t: map<EvidenceId, Evidence> | KeysUnique(t)

  datatype Db = Db(gens: Rows, evidence: Table)

  datatype Disposition = Generate | Hit | InFlight | Blocked

  datatype Claim = Claim(
    evidence: EvidenceId,
    disposition: Disposition,
    token: Option<Token>,
    ready: Option<ReadyLink>,
    generation: Option<GenId>)

  datatype CoinError = History(error: HistoryError) | EvidenceLeaseLost | NotReady(state: EvidenceState)

  /** The service's own configuration and the message's input. */
  datatype Request = Request(input: Fingerprint, tracking: Fingerprint, key: Fingerprint)

  // ------------------------------------------------------------- evidence table

  predicate HasKey(row: Evidence, input: Fingerprint, tracking: Fingerprint) {
    row.input == input && row.tracking == tracking
  }

  function Find(table: Table, input: Fingerprint, tracking: Fingerprint): (r: Option<EvidenceId>)
    ensures r.Some? ==> r.value in table && HasKey(table[r.value], input, tracking)
    ensures r.None? ==> forall e | e in table :: !HasKey(table[e], input, tracking)
  {
    if exists e | e in table :: HasKey(table[e], input, tracking) then
      var e :| e in table && HasKey(table[e], input, tracking);
      Some(e)
    else None
  }

  function ClaimForExisting(id: EvidenceId, row: Evidence): Claim {
    Claim(id,
          match row.state
          case Ready => Hit
          case Generating => InFlight
          case _ => Blocked,
          None, row.ready, row.generation)
  }

  predicate LeaseExpired(row: Evidence, now: Time) {
    row.state == Generating && row.lease.Some? && row.lease.value.until <= now
  }

  /** The first UPDATE of claim. */
  function SweepLeases(table: Table, now: Time): Table {
    map e | e in table ::
      if LeaseExpired(table[e], now) then table[e].(state := Undecided, lease := None) else table[e]
  }

  predicate LinkExpired(row: Evidence, now: Time) {
    row.state == Ready && row.ready.Some? && row.ready.value.expiresAt <= now && row.generation.Some?
  }

  /** The READY rows that claim validates and then deletes. */
  function ExpiredIds(table: Table, now: Time): set<EvidenceId> {
    set e | e in table && LinkExpired(table[e], now)
  }

  function ValidateCoinEvidence(gens: Rows, row: Evidence): Result<GenId, HistoryError> {
    var link := if row.ready.Some? then row.ready.value.link else "";
    match ValidateLink(gens, row.generation, link, row.tracking, CoinShort)
    case Err(e) => Err(e)
    case Ok(g) =>
      if && gens[g].identity == Identity.Coin(row.input)
         && row.ready.Some?
         && gens[g].confirmation.value.generatedAt == row.ready.value.generatedAt
         && gens[g].confirmation.value.expiresAt == row.ready.value.expiresAt
         && gens[g].confirmation.value.mode == row.ready.value.mode
      then Ok(g) else Err(LinkInvalid)
  }

  predicate Valid(gens: Rows, row: Evidence) {
    ValidateCoinEvidence(gens, row).Ok?
  }

  /** What claim leaves of the table before it looks for its own key. */
  function Purged(table: Table, now: Time): Table {
    var swept := SweepLeases(table, now);
    map e | e in swept && e !in ExpiredIds(swept, now) :: swept[e]
  }

  /** The evidence claim.  `slot` is the id the database assigns to an inserted row. */
  function ClaimEvidence(db: Db, r: Request, now: Time, token: Token, slot: EvidenceId)
    : Result<(Table, Claim), CoinError>
    requires slot !in Purged(db.evidence, now)
  {
    if exists e | e in ExpiredIds(db.evidence, now) :: !Valid(db.gens, db.evidence[e]) then
      Err(History(LinkInvalid))
    else
      var kept := Purged(db.evidence, now);
      match Find(kept, r.input, r.tracking)
      case Some(e) => Ok((kept, ClaimForExisting(e, kept[e])))
      case None =>
        var row := Evidence(r.input, r.tracking, Generating, Some(Lease(token, now + LEASE)), None, None);
        Ok((kept[slot := row], Claim(slot, Generate, Some(token), None, None)))
  }

  predicate OwnsLease(table: Table, e: EvidenceId, token: Token, now: Time) {
    && e in table && table[e].state == Generating
    && table[e].lease.Some? && table[e].lease.value.token == token && table[e].lease.value.until > now
  }

  // ---------------------------------------------------- coordinator transactions

  /** recover: the ledger's expired rows, and the evidence still generating through them. */
  function Recover(db: Db, now: Time): Db {
    Db(Sweep(db.gens, now),
       map e | e in db.evidence ::
         if && db.evidence[e].state == Generating && db.evidence[e].generation.Some?
            && db.evidence[e].generation.value in db.gens
            && Expired(db.gens[db.evidence[e].generation.value], now)
         then db.evidence[e].(state := Undecided, lease := None)
         else db.evidence[e])
  }

  predicate ForeignKeyRow(row: Generation, key: Fingerprint) {
    row.identity.Coin? && Blocking(row) && row.key != key
  }

  /** check_key_rotation without the legacy rows that have no generation. */
  predicate KeyContextOk(gens: Rows, key: Fingerprint) {
    forall g | g in gens :: !ForeignKeyRow(gens[g], key)
  }

  predicate LiveLease(row: Evidence, input: Fingerprint, now: Time) {
    row.input == input && row.state == Generating && row.lease.Some? && row.lease.value.until > now
  }

  /** The checks generate makes before it claims. */
  function Admission(db: Db, r: Request, now: Time): Option<CoinError> {
    if !KeyContextOk(db.gens, r.key) then Some(History(KeyContextBlocked))
    else if exists e | e in db.evidence ::
              db.evidence[e].input == r.input && db.evidence[e].state == Undecided then
      Some(History(UncertainBlocked))
    else if exists e | e in db.evidence ::
              db.evidence[e].input == r.input && db.evidence[e].state == Ready
              && !Valid(db.gens, db.evidence[e]) then
      Some(History(LinkInvalid))
    else if exists e | e in db.evidence :: LiveLease(db.evidence[e], r.input, now) then None
    else match CheckIdentity(db.gens, Identity.Coin(r.input), now)
      case Some(error) => Some(History(error))
      case None => None
  }

  /** generate's claiming transaction: admission, evidence claim and, for the winner,
      the PREPARED ledger row that the evidence points at. */
  function ClaimTx(db: Db, r: Request, now: Time, g: GenId, token: Token, slot: EvidenceId)
    : Result<(Db, Claim), CoinError>
    requires g !in db.gens && slot !in Purged(db.evidence, now)
  {
    match Admission(db, r, now)
    case Some(error) => Err(error)
    case None =>
      match ClaimEvidence(db, r, now, token, slot)
      case Err(error) => Err(error)
      case Ok((table, claim)) =>
        if claim.disposition != Generate then Ok((Db(db.gens, table), claim))
        else match CheckIdentity(db.gens, Identity.Coin(r.input), now)
          case Some(error) => Err(History(error))
          case None =>
            var row := NewRow(Identity.Coin(r.input), now, now + LEASE, token, r.tracking, r.key);
            Ok((Db(db.gens[g := row], table[slot := table[slot].(generation := Some(g))]),
                claim))
  }

  /** The row that the winner of a claim leaves under `slot`. */
  function WonEvidence(r: Request, now: Time, g: GenId, token: Token): Evidence {
    Evidence(r.input, r.tracking, Generating, Some(Lease(token, now + LEASE)), None, Some(g))
  }

  function WonGeneration(r: Request, now: Time, token: Token): Generation {
    NewRow(Identity.Coin(r.input), now, now + LEASE, token, r.tracking, r.key)
  }

  /** A committed claim either only swept and purged, or also won: it never does anything else. */
  lemma ClaimEffect(db: Db, r: Request, now: Time, g: GenId, token: Token, slot: EvidenceId)
    requires g !in db.gens && slot !in Purged(db.evidence, now)
    requires ClaimTx(db, r, now, g, token, slot).Ok?
    ensures var (after, claim) := ClaimTx(db, r, now, g, token, slot).value;
      var kept := Purged(db.evidence, now);
      if claim.disposition == Generate then
        && claim == Claim(slot, Generate, Some(token), None, None)
        && Find(kept, r.input, r.tracking).None?
        && CheckIdentity(db.gens, Identity.Coin(r.input), now).None?
        && after.gens == db.gens[g := WonGeneration(r, now, token)]
        && after.evidence == kept[slot := WonEvidence(r, now, g, token)]
      else
        && after == Db(db.gens, kept)
        && Find(kept, r.input, r.tracking) == Some(claim.evidence)
        && claim == ClaimForExisting(claim.evidence, kept[claim.evidence])
  {
  }

  /** confirm and finish_ready in one transaction. */
  function FinishReady(db: Db, e: EvidenceId, g: GenId, token: Token, now: Time, link: Link, mode: Mode)
    : Result<Db, CoinError>
  {
    match Confirm(db.gens, g, Confirmation(link, now, now + LINK_TTL, CoinShort, mode))
    case Err(error) => Err(History(error))
    case Ok(gens) =>
      if OwnsLease(db.evidence, e, token, now) then
        Ok(Db(gens, db.evidence[e := db.evidence[e].(
                      state := Ready, lease := None,
                      ready := Some(ReadyLink(link, now, now + LINK_TTL, mode)))]))
      else Err(EvidenceLeaseLost)
  }

  /** fail and finish_review_required or finish_uncertain in one transaction; each half
      reads the clock for itself. */
  function FinishFailed(db: Db, e: EvidenceId, g: GenId, token: Token, now: Time,
                        ledgerState: State, evidenceState: EvidenceState): Result<Db, CoinError>
  {
    if OwnsLease(db.evidence, e, token, now) then
      Ok(Db(Fail(db.gens, {g}, ledgerState),
            db.evidence[e := db.evidence[e].(state := evidenceState, lease := None)]))
    else Err(EvidenceLeaseLost)
  }

  /** inspect: a hit, nothing cached, or the error it raises. */
  function Inspect(db: Db, r: Request, now: Time): Result<Option<Claim>, CoinError> {
    if !KeyContextOk(db.gens, r.key) then Err(History(KeyContextBlocked))
    else match RowsRefused(db, r, now)
      case Some(error) => Err(History(error))
      case None =>
        match CheckIdentity(db.gens, Identity.Coin(r.input), now)
        case Some(error) => Err(History(error))
        case None =>
          match Find(db.evidence, r.input, r.tracking)
          case None => Ok(None)
          case Some(e) =>
            var row := db.evidence[e];
            if row.state != Ready then Err(NotReady(row.state))
            else if row.ready.Some? && row.ready.value.expiresAt > now then Ok(Some(ClaimForExisting(e, row)))
            else Ok(None)
  }

  /** The probe's loop over all evidence of the input. */
  function RowsRefused(db: Db, r: Request, now: Time): Option<HistoryError> {
    if exists e | e in db.evidence ::
         && db.evidence[e].input == r.input
         && (db.evidence[e].state == Undecided
             || (db.evidence[e].state == Generating && !LiveLease(db.evidence[e], r.input, now))) then
      Some(UncertainBlocked)
    else if exists e | e in db.evidence ::
              db.evidence[e].input == r.input && db.evidence[e].state == Generating then
      Some(InProgress)
    else if exists e | e in db.evidence ::
              db.evidence[e].input == r.input && db.evidence[e].state == Ready
              && !Valid(db.gens, db.evidence[e]) then
      Some(LinkInvalid)
    else None
  }
}
