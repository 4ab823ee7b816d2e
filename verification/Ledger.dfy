/**
 The durable generation ledger: one append-only row per intended call of the
 link-generation operation.  Every function here is one statement or one
 repository method of history_repository.py over the table's rows.
 */
module Ledger {
  import opened Prelude

  type GenId = nat
  type Token = nat
  /** A keyed fingerprint, identified with the value it fingerprints. */
  type Fingerprint = nat
  type Link = string

  datatype Identity = Coin(input: Fingerprint) | Canonical(candidate: nat)

  datatype State = Prepared | CallStarted | Confirmed | Rejected | Failed | Uncertain

  datatype Contract = CoinShort | LinkGenerate

  datatype Mode = SourceValueExact | PositionalSingleton | ProductIdCorrelated

  /** The columns that the table's checks tie to state CONFIRMED. */
  datatype Confirmation = Confirmation(
    url: Link, generatedAt: Time, expiresAt: Time, contract: Contract, mode: Mode)

  datatype Generation = Generation(
    identity: Identity,
    state: State,
    leaseUntil: Option<Time>,
    leaseToken: Token,
    tracking: Fingerprint,
    key: Fingerprint,
    preparedAt: Time,
    callStartedAt: Option<Time>,
    confirmation: Option<Confirmation>)

  type Rows = map<GenId, Generation>

  datatype HistoryError =
    | InProgress
    | UncertainBlocked
    | TargetIneligible
    | KeyContextBlocked
    | LeaseLost
    | LinkMissing
    | LinkInvalid

  /** PREPARED or CALL_STARTED: the row still belongs to a worker. */
  predicate Open(row: Generation) {
    row.state == Prepared || row.state == CallStarted
  }

  predicate Blocking(row: Generation) {
    Open(row) || row.state == Uncertain || row.state == Failed || row.state == Rejected
  }

  predicate Blocks(rows: Rows, g: GenId, identity: Identity) {
    g in rows && rows[g].identity == identity && Blocking(rows[g])
  }

  /** The code that check_identity raises when its query returns this row. */
  function BlockCode(row: Generation, now: Time): HistoryError {
    if row.state == Uncertain
       || (row.state == CallStarted && (row.leaseUntil.None? || row.leaseUntil.value <= now))
    then UncertainBlocked
    else if Open(row) then InProgress
    else TargetIneligible
  }

  /** check_identity; a query that may return several rows reports the gravest code. */
  function CheckIdentity(rows: Rows, identity: Identity, now: Time): Option<HistoryError> {
    if exists g | g in rows :: Blocks(rows, g, identity) && BlockCode(rows[g], now) == UncertainBlocked then
      Some(UncertainBlocked)
    else if exists g | g in rows :: Blocks(rows, g, identity) && BlockCode(rows[g], now) == InProgress then
      Some(InProgress)
    else if exists g | g in rows :: Blocks(rows, g, identity) then
      Some(TargetIneligible)
    else
      None
  }

  function NewRow(identity: Identity, now: Time, leaseUntil: Time, token: Token,
                  tracking: Fingerprint, key: Fingerprint): Generation {
    Generation(identity, Prepared, Some(leaseUntil), token, tracking, key, now, None, None)
  }

  /** One conditional UPDATE of start_call. */
  predicate CanStart(rows: Rows, g: GenId, token: Token, now: Time) {
    && g in rows && rows[g].state == Prepared && rows[g].leaseToken == token
    && rows[g].leaseUntil.Some? && rows[g].leaseUntil.value > now
  }

  function Started(rows: Rows, g: GenId, now: Time): Rows
    requires g in rows
  {
    rows[g := rows[g].(state := CallStarted, callStartedAt := Some(now))]
  }

  function StartCall(rows: Rows, ids: seq<GenId>, tokens: seq<Token>, now: Time)
    : Result<Rows, HistoryError>
    requires |ids| == |tokens|
  {
    if ids == [] then Ok(rows)
    else if CanStart(rows, ids[0], tokens[0], now) then
      StartCall(Started(rows, ids[0], now), ids[1..], tokens[1..], now)
    else Err(InProgress)
  }

  lemma StartOne(rows: Rows, g: GenId, token: Token, now: Time)
    ensures StartCall(rows, [g], [token], now)
         == if CanStart(rows, g, token, now) then Ok(Started(rows, g, now)) else Err(InProgress)
  {
    var one, tokens := [g], [token];
    assert one[1..] == [] && tokens[1..] == [];
  }

  predicate CanConfirm(rows: Rows, g: GenId, now: Time) {
    && g in rows && rows[g].state == CallStarted
    && rows[g].leaseUntil.Some? && rows[g].leaseUntil.value > now
    && rows[g].callStartedAt.Some? && rows[g].callStartedAt.value <= now
  }

  function Confirm(rows: Rows, g: GenId, c: Confirmation): Result<Rows, HistoryError> {
    if CanConfirm(rows, g, c.generatedAt) then
      Ok(rows[g := rows[g].(state := Confirmed, confirmation := Some(c), leaseUntil := None)])
    else Err(LeaseLost)
  }

  /** An open row that ends unconfirmed: FAILED when no call had started. */
  function Ended(row: Generation, state: State): Generation {
    row.(state := if row.callStartedAt.None? then Failed else state, leaseUntil := None)
  }

  /** fail: ends the open rows among `ids` and leaves every other row alone. */
  function Fail(rows: Rows, ids: set<GenId>, state: State): Rows {
    map g | g in rows :: if g in ids && Open(rows[g]) then Ended(rows[g], state) else rows[g]
  }

  predicate Expired(row: Generation, now: Time) {
    Open(row) && row.leaseUntil.Some? && row.leaseUntil.value <= now
  }

  /** The ledger half of recover. */
  function Sweep(rows: Rows, now: Time): Rows {
    map g | g in rows :: if Expired(rows[g], now) then Ended(rows[g], Uncertain) else rows[g]
  }

  /** validate_link on the row that a generation id points at. */
  function ValidateLink(rows: Rows, g: Option<GenId>, url: Link, tracking: Fingerprint,
                        contract: Contract): Result<GenId, HistoryError> {
    if g.None? then Err(LinkMissing)
    else if && g.value in rows && rows[g.value].state == Confirmed
            && rows[g.value].confirmation.Some?
            && rows[g.value].confirmation.value.url == url
            && rows[g.value].tracking == tracking
            && rows[g.value].confirmation.value.contract == contract
            && rows[g.value].callStartedAt.Some?
    then Ok(g.value)
    else Err(LinkInvalid)
  }

  // ---------------------------------------------------------------- invariants

  /** What the state of a row says about its other columns. */
  predicate RowOk(row: Generation) {
    && (row.leaseUntil.Some? <==> Open(row))
    && (row.confirmation.Some? <==> row.state == Confirmed)
    && (row.callStartedAt.None? <==> row.state == Prepared || row.state == Failed)
  }

  predicate OneBlockPerIdentity(rows: Rows) {
    forall a, b | a in rows && b in rows && rows[a].identity == rows[b].identity
                  && Blocking(rows[a]) && Blocking(rows[b]) :: a == b
  }

  predicate TokensDistinct(rows: Rows) {
    forall a, b | a in rows && b in rows && rows[a].leaseToken == rows[b].leaseToken :: a == b
  }

  predicate LedgerOk(rows: Rows) {
    (forall g | g in rows :: RowOk(rows[g])) && OneBlockPerIdentity(rows) && TokensDistinct(rows)
  }

  /** `to` is a later ledger: rows are never removed, and a row moves only forward. */
  predicate Later(from: Rows, to: Rows) {
    forall g | g in from ::
      && g in to && to[g].identity == from[g].identity && to[g].leaseToken == from[g].leaseToken
      && to[g].tracking == from[g].tracking && to[g].key == from[g].key
      && (!Open(from[g]) ==> to[g] == from[g])
      && (from[g].callStartedAt.Some? ==> to[g].callStartedAt == from[g].callStartedAt)
  }

  /** With one blocking row per identity the reported code is that row's, whichever row
      the database returns. */
  lemma CodeIsOfAnyReturnedRow(rows: Rows, identity: Identity, g: GenId, now: Time)
    requires OneBlockPerIdentity(rows)
    requires Blocks(rows, g, identity)
    ensures CheckIdentity(rows, identity, now) == Some(BlockCode(rows[g], now))
  {
    assert forall h | h in rows :: Blocks(rows, h, identity) ==> h == g;
  }

  /** Rewriting rows in place, never turning a CONFIRMED row into a blocking one. */
  lemma RewriteKeepsLedger(from: Rows, to: Rows)
    requires LedgerOk(from) && from.Keys == to.Keys
    requires forall g | g in to ::
      && RowOk(to[g]) && to[g].identity == from[g].identity && to[g].leaseToken == from[g].leaseToken
      && (Blocking(to[g]) ==> Blocking(from[g]))
    ensures LedgerOk(to)
  {
  }

  lemma SweepKeepsLedger(rows: Rows, now: Time)
    requires LedgerOk(rows)
    ensures LedgerOk(Sweep(rows, now)) && Later(rows, Sweep(rows, now))
  {
    RewriteKeepsLedger(rows, Sweep(rows, now));
  }

  lemma FailKeepsLedger(rows: Rows, ids: set<GenId>, state: State)
    requires LedgerOk(rows)
    requires state == Uncertain || state == Rejected
    ensures LedgerOk(Fail(rows, ids, state)) && Later(rows, Fail(rows, ids, state))
  {
    RewriteKeepsLedger(rows, Fail(rows, ids, state));
  }

  lemma ConfirmKeepsLedger(rows: Rows, g: GenId, c: Confirmation)
    requires LedgerOk(rows) && CanConfirm(rows, g, c.generatedAt)
    ensures LedgerOk(Confirm(rows, g, c).value) && Later(rows, Confirm(rows, g, c).value)
  {
    RewriteKeepsLedger(rows, Confirm(rows, g, c).value);
  }

  lemma StartKeepsLedger(rows: Rows, g: GenId, token: Token, now: Time)
    requires LedgerOk(rows) && CanStart(rows, g, token, now)
    ensures LedgerOk(Started(rows, g, now)) && Later(rows, Started(rows, g, now))
  {
    RewriteKeepsLedger(rows, Started(rows, g, now));
  }

  /** A PREPARED row joins the ledger only when nothing blocks its identity. */
  lemma PrepareKeepsLedger(rows: Rows, g: GenId, row: Generation, now: Time)
    requires LedgerOk(rows) && g !in rows
    requires RowOk(row) && CheckIdentity(rows, row.identity, now).None?
    requires forall h | h in rows :: rows[h].leaseToken != row.leaseToken
    ensures LedgerOk(rows[g := row]) && Later(rows, rows[g := row])
  {
    assert forall h | h in rows :: !Blocks(rows, h, row.identity);
  }
}
