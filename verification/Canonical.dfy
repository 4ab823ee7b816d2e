/**
 Batched canonical links: the claim loop of _convert and the transactions of
 _generate_batch in aliexpress_conversion.py over candidates, proofs and the ledger.
 */
module Canonical {
  import opened Prelude
  import opened Ledger

  type CandidateId = nat

  const LEASE: Time := 300
  const MAX_ATTEMPTS: nat := 3

  datatype CandidateState =
    | PendingAffiliate | AwaitingGeneration | GeneratingAffiliate | AffiliateGenerated
    | FailedRetryable | FailedPermanent | ManualReview | Validating | OtherState

  /** `product`, `url` and `variation` never change. */
  datatype Candidate = Candidate(
    product: nat, url: string, variation: nat,
    state: CandidateState, attempts: nat, startedAt: Option<Time>, leaseUntil: Option<Time>, nextAttempt: Option<Time>)

  /** The product and variation that a generation's origin records. */
  datatype Origin = Origin(product: nat, variation: nat)

  datatype Proof = Proof(
    generation: GenId, requestedAt: Time, respondedAt: Time, product: nat, url: string, link: Link,
    tracking: Fingerprint, expiresAt: Time)

  datatype Db = Db(
    gens: Rows, origins: map<GenId, Origin>, candidates: map<CandidateId, Candidate>, proofs: map<CandidateId, Proof>)

  datatype Claim = Claim(
    candidate: CandidateId, startedAt: Time, attempts: nat, generation: GenId, token: Token, tracking: Fingerprint)

  datatype BatchError = ClaimBusy | CandidateLost | GenerationLost | ClockMovedBackwards | CallRefused

  /** The configuration of a conversion service. */
  datatype Config = Config(tracking: Fingerprint, key: Fingerprint, ttl: Time)

  // ------------------------------------------------------------------ claims

  predicate Claimable(row: Candidate, now: Time) {
    && row.attempts < MAX_ATTEMPTS
    && (row.state == PendingAffiliate || row.state == AwaitingGeneration || row.state == AffiliateGenerated
        || (row.state == FailedRetryable && (row.nextAttempt.None? || row.nextAttempt.value <= now)))
  }

  /** claim_for_generation and prepare, for one candidate. */
  function ClaimOne(c: Config, db: Db, id: CandidateId, now: Time, g: GenId, token: Token): Result<(Db, Claim), BatchError> {
    if CheckIdentity(db.gens, Identity.Canonical(id), now).Some? || id !in db.candidates
       || !Claimable(db.candidates[id], now) then Err(ClaimBusy)
    else
      var row := db.candidates[id];
      Ok((db.(candidates := db.candidates[id := row.(
                state := GeneratingAffiliate, attempts := row.attempts + 1, startedAt := Some(now),
                leaseUntil := Some(now + LEASE), nextAttempt := None)],
              gens := db.gens[g := NewRow(Identity.Canonical(id), now, now + LEASE, token, c.tracking, c.key)],
              origins := db.origins[g := Origin(row.product, row.variation)]),
          Claim(id, now, row.attempts + 1, g, token, c.tracking)))
  }

  type Claimer = (Db, CandidateId, GenId) -> Result<(Db, Claim), BatchError>

  /** Every candidate of the batch in turn, with generation ids from `g` on; one that cannot
      be claimed rolls all of them back. */
  function ClaimEach(claimer: Claimer, db: Db, ids: seq<CandidateId>, g: GenId): Result<(Db, seq<Claim>), BatchError> {
    if ids == [] then Ok((db, []))
    else match ClaimEach(claimer, db, ids[..|ids| - 1], g)
      case Err(error) => Err(error)
      case Ok((d, claims)) =>
        match claimer(d, ids[|ids| - 1], g + |ids| - 1)
        case Err(error) => Err(error)
        case Ok((e, claim)) => Ok((e, claims + [claim]))
  }

  function ClaimerAt(c: Config, now: Time): Claimer {
    (db: Db, id: CandidateId, g: GenId) => ClaimOne(c, db, id, now, g, g)
  }

  /** The claim loop of one transaction. */
  function ClaimAll(c: Config, db: Db, ids: seq<CandidateId>, now: Time, g: GenId): Result<(Db, seq<Claim>), BatchError> {
    ClaimEach(ClaimerAt(c, now), db, ids, g)
  }

  // ----------------------------------------------------------------- answers

  /** The conditional update of mark_affiliate_generated. */
  predicate StillOwns(candidates: map<CandidateId, Candidate>, claim: Claim, now: Time) {
    && claim.candidate in candidates
    && var row := candidates[claim.candidate];
    && row.state == GeneratingAffiliate && row.leaseUntil.Some? && row.leaseUntil.value > now
    && row.startedAt == Some(claim.startedAt) && row.attempts == claim.attempts
  }

  function Marked(row: Candidate): Candidate {
    row.(state := AffiliateGenerated, attempts := 0, leaseUntil := None, nextAttempt := None)
  }

  function ProofOf(c: Config, db: Db, claim: Claim, link: Link, now: Time): Proof
    requires claim.candidate in db.candidates
  {
    var row := db.candidates[claim.candidate];
    Proof(claim.generation, claim.startedAt, now, row.product, row.url, link, c.tracking, now + c.ttl)
  }

  function ConfirmationOf(c: Config, link: Link, now: Time): Confirmation {
    Confirmation(link, now, now + c.ttl, LinkGenerate, ProductIdCorrelated)
  }

  /** One claim of the storing transaction: candidate, proof, ledger. */
  function StoreOne(c: Config, db: Db, claim: Claim, link: Link, now: Time): Result<Db, BatchError> {
    if !StillOwns(db.candidates, claim, now) then Err(CandidateLost)
    else match Confirm(db.gens, claim.generation, ConfirmationOf(c, link, now))
      case Err(_) => Err(GenerationLost)
      case Ok(gens) =>
        Ok(db.(candidates := db.candidates[claim.candidate := Marked(db.candidates[claim.candidate])],
               proofs := db.proofs[claim.candidate := ProofOf(c, db, claim, link, now)],
               gens := gens))
  }

  type Storer = (Db, Claim, Link) -> Result<Db, BatchError>

  function StoreEach(storer: Storer, db: Db, claims: seq<Claim>, links: seq<Link>): Result<Db, BatchError>
    requires |links| == |claims|
  {
    if claims == [] then Ok(db)
    else match StoreEach(storer, db, claims[..|claims| - 1], links[..|claims| - 1])
      case Err(error) => Err(error)
      case Ok(d) => storer(d, claims[|claims| - 1], links[|claims| - 1])
  }

  function StorerAt(c: Config, now: Time): Storer {
    (db: Db, claim: Claim, link: Link) => StoreOne(c, db, claim, link, now)
  }

  /** The transaction that stores a complete answer, after the check of the clock. */
  function StoreAll(c: Config, db: Db, claims: seq<Claim>, links: seq<Link>, now: Time): Result<Db, BatchError>
    requires |links| == |claims|
  {
    if exists claim | claim in claims :: now < claim.startedAt then Err(ClockMovedBackwards)
    else StoreEach(StorerAt(c, now), db, claims, links)
  }

  function Generations(claims: seq<Claim>): seq<GenId> {
    seq(|claims|, i requires 0 <= i < |claims| => claims[i].generation)
  }

  function Tokens(claims: seq<Claim>): seq<Token> {
    seq(|claims|, i requires 0 <= i < |claims| => claims[i].token)
  }

  function StartAll(db: Db, claims: seq<Claim>, now: Time): Result<Db, BatchError> {
    match StartCall(db.gens, Generations(claims), Tokens(claims), now)
    case Ok(gens) => Ok(db.(gens := gens))
    case Err(_) => Err(CallRefused)
  }

  /** _record_history_failure: the batch's rows that are still open. */
  function FailAll(db: Db, claims: seq<Claim>, state: State): Db {
    db.(gens := Fail(db.gens, (set g | g in Generations(claims)), state))
  }

  predicate CanFail(candidates: map<CandidateId, Candidate>, claim: Claim, now: Time) {
    && claim.candidate in candidates
    && var row := candidates[claim.candidate];
    && (row.state == GeneratingAffiliate || row.state == Validating)
    && row.leaseUntil.Some? && row.leaseUntil.value > now
    && row.startedAt == Some(claim.startedAt) && row.attempts == claim.attempts
  }

  /** When a candidate may be tried again after so many attempts, if at all. */
  type Backoff = nat -> Time

  function NextAttempt(target: CandidateState, backoff: Backoff, attempts: nat): Option<Time> {
    if target == FailedRetryable then Some(backoff(attempts)) else None
  }

  /** _record_failures: every candidate of the batch, or none. */
  function FailCandidates(candidates: map<CandidateId, Candidate>, claims: seq<Claim>, target: CandidateState,
                          backoff: Backoff, now: Time): Result<map<CandidateId, Candidate>, BatchError> {
    if claims == [] then Ok(candidates)
    else match FailCandidates(candidates, claims[..|claims| - 1], target, backoff, now)
      case Err(error) => Err(error)
      case Ok(rows) =>
        var claim := claims[|claims| - 1];
        if !CanFail(rows, claim, now) then Err(CandidateLost)
        else Ok(rows[claim.candidate :=
                     rows[claim.candidate].(state := target, leaseUntil := None,
                                            nextAttempt := NextAttempt(target, backoff, claim.attempts))])
  }

  /** recover, for canonical rows: the candidates of expired rows go to manual review. */
  function Recover(db: Db, now: Time): Db {
    db.(gens := Sweep(db.gens, now),
        candidates := map id | id in db.candidates ::
          if && db.candidates[id].state == GeneratingAffiliate
             && exists g | g in db.gens :: Expired(db.gens[g], now) && db.gens[g].identity == Identity.Canonical(id)
          then db.candidates[id].(state := ManualReview, leaseUntil := None) else db.candidates[id])
  }

  /** validate_canonical_proof. */
  predicate ValidProof(db: Db, id: CandidateId, proof: Proof) {
    && ValidateLink(db.gens, Some(proof.generation), proof.link, proof.tracking, LinkGenerate).Ok?
    && var row := db.gens[proof.generation];
    && row.identity == Identity.Canonical(id)
    && row.confirmation.value.expiresAt == proof.expiresAt && row.confirmation.value.generatedAt == proof.respondedAt
    && row.preparedAt == proof.requestedAt
    && id in db.candidates && proof.generation in db.origins
    && db.origins[proof.generation] == Origin(proof.product, db.candidates[id].variation)
    && proof.url == db.candidates[id].url
  }

  // ------------------------------------------------------------------ runs

  /** `stored` logs whether the batch's answer was committed. */
  datatype Batch = Batch(service: Config, claims: seq<Claim>, started: bool, stored: bool)

  datatype World = World(db: Db, batches: seq<Batch>, next: GenId)

  datatype Event =
    | Recovered(now: Time)
    | Claimed(service: Config, ids: seq<CandidateId>, now: Time)
    | CallsStarted(b: nat, now: Time)
    | AnswerStored(b: nat, links: seq<Link>, now: Time)
    | HistoryFailed(b: nat, state: State)
    /** Any other code may move a candidate, or insert one; its identity columns stay. */
    | CandidateMoved(id: CandidateId, row: Candidate)

  function Begin(): World {
    World(Db(map[], map[], map[], map[]), [], 0)
  }

  function Next(w: World, e: Event): World {
    match e
    case Recovered(now) => w.(db := Recover(w.db, now))
    case Claimed(service, ids, now) => NextClaim(service, w, ids, now)
    case CallsStarted(b, now) => NextStart(w, b, now)
    case AnswerStored(b, links, now) => NextStore(w, b, links, now)
    case HistoryFailed(b, state) =>
      if b < |w.batches| && (state == Uncertain || state == Rejected)
      then w.(db := FailAll(w.db, w.batches[b].claims, state)) else w
    case CandidateMoved(id, row) =>
      if id in w.db.candidates && !SameIdentity(w.db.candidates[id], row) then w
      else w.(db := w.db.(candidates := w.db.candidates[id := row]))
  }

  predicate SameIdentity(a: Candidate, b: Candidate) {
    a.product == b.product && a.url == b.url && a.variation == b.variation
  }

  function NextClaim(c: Config, w: World, ids: seq<CandidateId>, now: Time): World {
    match ClaimAll(c, w.db, ids, now, w.next)
    case Err(_) => w
    case Ok((db, claims)) => World(db, w.batches + [Batch(c, claims, false, false)], w.next + |ids|)
  }

  function NextStart(w: World, b: nat, now: Time): World {
    if b >= |w.batches| || w.batches[b].started then w
    else match StartAll(w.db, w.batches[b].claims, now)
      case Err(_) => w
      case Ok(db) => w.(db := db, batches := w.batches[b := w.batches[b].(started := true)])
  }

  function NextStore(w: World, b: nat, links: seq<Link>, now: Time): World {
    if b >= |w.batches| || !w.batches[b].started || |links| != |w.batches[b].claims| then w
    else match StoreAll(w.batches[b].service, w.db, w.batches[b].claims, links, now)
      case Err(_) => w
      case Ok(db) => w.(db := db, batches := w.batches[b := w.batches[b].(stored := true)])
  }

  function History(events: seq<Event>): World {
    if events == [] then Begin()
    else Next(History(events[..|events| - 1]), events[|events| - 1])
  }

  // -------------------------------------------------------------- invariants

  ghost predicate IsConfirmed(db: Db, g: GenId) {
    g in db.gens && db.gens[g].state == Confirmed
  }

  /** The rows of a batch: its own identities and tokens, distinct, confirmed together. */
  ghost predicate BatchOk(db: Db, batch: Batch) {
    && (forall i | 0 <= i < |batch.claims| :: Owns(db, batch.claims[i]))
    && (forall i | 0 <= i < |batch.claims| :: IsConfirmed(db, batch.claims[i].generation) <==> batch.stored)
    && Separate(batch.claims) && AllTracked(batch.claims, batch.service.tracking)
  }

  ghost predicate AllTracked(claims: seq<Claim>, tracking: Fingerprint) {
    forall i | 0 <= i < |claims| :: claims[i].tracking == tracking
  }

  /** A claim's generation is one of its candidate, prepared when the claim was made. */
  ghost predicate Owns(db: Db, claim: Claim) {
    && claim.generation in db.gens && claim.generation in db.origins && claim.candidate in db.candidates
    && db.gens[claim.generation].identity == Identity.Canonical(claim.candidate)
    && db.gens[claim.generation].preparedAt == claim.startedAt
    && db.gens[claim.generation].tracking == claim.tracking && db.gens[claim.generation].leaseToken == claim.token
    && db.origins[claim.generation] == Origin(db.candidates[claim.candidate].product, db.candidates[claim.candidate].variation)
  }

  ghost predicate Separate(claims: seq<Claim>) {
    forall i, j | 0 <= i < j < |claims| ::
      claims[i].candidate != claims[j].candidate && claims[i].generation != claims[j].generation
  }

  ghost predicate Apart(a: Batch, b: Batch) {
    forall x, y | x in a.claims && y in b.claims :: x.generation != y.generation
  }

  ghost predicate ProofsOk(db: Db) {
    forall id | id in db.proofs :: ValidProof(db, id, db.proofs[id])
  }

  ghost predicate IdsOk(db: Db, next: GenId) {
    (forall g | g in db.gens :: g < next && db.gens[g].leaseToken == g) && db.origins.Keys == db.gens.Keys
  }

  ghost predicate Inv(w: World) {
    && LedgerOk(w.db.gens) && IdsOk(w.db, w.next) && ProofsOk(w.db)
    && (forall b | 0 <= b < |w.batches| :: BatchOk(w.db, w.batches[b]))
    && (forall a, b | 0 <= a < b < |w.batches| :: Apart(w.batches[a], w.batches[b]))
  }

  // ------------------------------------------------------------------ frames

  /** Rows may end or start, but none becomes CONFIRMED and CONFIRMED rows stay. */
  ghost predicate Settles(gens: Rows, gens': Rows) {
    forall g | g in gens ::
      && g in gens' && gens'[g].identity == gens[g].identity && gens'[g].preparedAt == gens[g].preparedAt
      && gens'[g].leaseToken == gens[g].leaseToken && gens'[g].tracking == gens[g].tracking
      && (gens[g].state == Confirmed ==> gens'[g] == gens[g])
      && (gens'[g].state == Confirmed ==> gens[g].state == Confirmed)
  }

  ghost predicate IdentitiesKept(rows: map<CandidateId, Candidate>, rows': map<CandidateId, Candidate>) {
    forall id | id in rows :: id in rows' && SameIdentity(rows[id], rows'[id])
  }

  ghost predicate OriginsKept(origins: map<GenId, Origin>, origins': map<GenId, Origin>) {
    forall g | g in origins :: g in origins' && origins'[g] == origins[g]
  }

  ghost predicate Quiet(db: Db, db': Db) {
    && Settles(db.gens, db'.gens) && IdentitiesKept(db.candidates, db'.candidates)
    && OriginsKept(db.origins, db'.origins) && db'.proofs == db.proofs
  }

  lemma QuietKeepsProofs(db: Db, db': Db)
    requires ProofsOk(db) && Quiet(db, db')
    ensures ProofsOk(db')
  {
    forall id | id in db'.proofs ensures ValidProof(db', id, db'.proofs[id]) {
      assert ValidProof(db, id, db.proofs[id]);
    }
  }

  lemma QuietKeepsBatch(db: Db, db': Db, batch: Batch)
    requires BatchOk(db, batch) && Quiet(db, db')
    ensures BatchOk(db', batch) && BatchOk(db', batch.(started := true))
  {
  }

  ghost predicate BatchesOk(db: Db, batches: seq<Batch>) {
    && (forall b | 0 <= b < |batches| :: BatchOk(db, batches[b]))
    && (forall a, b | 0 <= a < b < |batches| :: Apart(batches[a], batches[b]))
  }

  lemma QuietKeepsBatches(db: Db, db': Db, batches: seq<Batch>, batches': seq<Batch>)
    requires BatchesOk(db, batches) && Quiet(db, db') && |batches'| == |batches|
    requires forall b | 0 <= b < |batches| :: batches'[b] == batches[b] || batches'[b] == batches[b].(started := true)
    ensures BatchesOk(db', batches')
  {
    forall b | 0 <= b < |batches'| ensures BatchOk(db', batches'[b]) {
      QuietKeepsBatch(db, db', batches[b]);
    }
    forall a, b | 0 <= a < b < |batches'| ensures Apart(batches'[a], batches'[b]) {
      assert Apart(batches[a], batches[b]);
    }
  }

  // -------------------------------------------------------------- the claim loop

  /** What a committed claim did: one PREPARED row for a candidate that had none blocking. */
  ghost predicate ClaimedOne(db: Db, db': Db, claim: Claim, id: CandidateId, g: GenId) {
    && Quiet(db, db')
    && g in db'.gens && db'.gens == db.gens[g := db'.gens[g]]
    && g in db'.origins && db'.origins == db.origins[g := db'.origins[g]]
    && FreshClaim(db', claim, g) && claim.candidate == id
    && (forall h | h in db.gens && db.gens[h].identity == Identity.Canonical(id) :: !Blocking(db.gens[h]))
  }

  ghost predicate FreshClaim(db: Db, claim: Claim, g: GenId) {
    && claim.generation == g == claim.token && g in db.gens && g in db.origins
    && db.gens[g].state == Prepared && db.gens[g].identity == Identity.Canonical(claim.candidate)
    && db.gens[g].preparedAt == claim.startedAt && db.gens[g].tracking == claim.tracking && db.gens[g].leaseToken == g
    && claim.candidate in db.candidates
    && db.origins[g] == Origin(db.candidates[claim.candidate].product, db.candidates[claim.candidate].variation)
  }

  lemma ClaimOneEffect(c: Config, db: Db, id: CandidateId, now: Time, g: GenId)
    requires IdsOk(db, g) && ClaimOne(c, db, id, now, g, g).Ok?
    ensures var (db', claim) := ClaimOne(c, db, id, now, g, g).value; ClaimedOne(db, db', claim, id, g)
  {
    assert forall h | h in db.gens :: !Blocks(db.gens, h, Identity.Canonical(id));
  }

  lemma ClaimOneKeepsLedger(c: Config, db: Db, id: CandidateId, now: Time, g: GenId)
    requires LedgerOk(db.gens) && IdsOk(db, g) && ClaimOne(c, db, id, now, g, g).Ok?
    ensures LedgerOk(ClaimOne(c, db, id, now, g, g).value.0.gens)
  {
    PrepareKeepsLedger(db.gens, g, NewRow(Identity.Canonical(id), now, now + LEASE, g, c.tracking, c.key), now);
  }

  /** The claims of a batch: one new PREPARED row each, ids from g on. */
  ghost predicate FreshClaims(db: Db, claims: seq<Claim>, g: GenId) {
    forall i | 0 <= i < |claims| :: FreshClaim(db, claims[i], g + i)
  }

  ghost predicate OwnCandidates(claims: seq<Claim>) {
    forall i, j | 0 <= i < j < |claims| :: claims[i].candidate != claims[j].candidate
  }

  ghost predicate ClaimedFrom(db: Db, db': Db, claims: seq<Claim>, g: GenId) {
    && IdsOk(db', g + |claims|) && Quiet(db, db')
    && FreshClaims(db', claims, g) && OwnCandidates(claims)
  }

  ghost predicate ClaimsOne(claimer: Claimer, tracking: Fingerprint) {
    forall d: Db, id: CandidateId, h: GenId | IdsOk(d, h) && claimer(d, id, h).Ok? ::
      ClaimedOne(d, claimer(d, id, h).value.0, claimer(d, id, h).value.1, id, h)
      && claimer(d, id, h).value.1.tracking == tracking
  }

  ghost predicate KeepsLedger(claimer: Claimer) {
    forall d: Db, id: CandidateId, h: GenId | LedgerOk(d.gens) && IdsOk(d, h) && claimer(d, id, h).Ok? ::
      LedgerOk(claimer(d, id, h).value.0.gens)
  }

  lemma {:induction false} ClaimEachEffect(claimer: Claimer, db: Db, ids: seq<CandidateId>, g: GenId, tracking: Fingerprint)
    requires IdsOk(db, g) && ClaimEach(claimer, db, ids, g).Ok? && ClaimsOne(claimer, tracking)
    ensures var (db', claims) := ClaimEach(claimer, db, ids, g).value;
      |claims| == |ids| && ClaimedFrom(db, db', claims, g) && AllTracked(claims, tracking)
  {
    if ids != [] {
      var n := |ids| - 1;
      ClaimEachEffect(claimer, db, ids[..n], g, tracking);
      var (d, claims) := ClaimEach(claimer, db, ids[..n], g).value;
      var (e, claim) := claimer(d, ids[n], g + n).value;
      ClaimOneMore(db, d, e, claims, claim, ids[n], g);
    }
  }

  lemma {:induction false} ClaimEachKeepsLedger(claimer: Claimer, db: Db, ids: seq<CandidateId>, g: GenId, tracking: Fingerprint)
    requires LedgerOk(db.gens) && IdsOk(db, g) && ClaimEach(claimer, db, ids, g).Ok?
    requires ClaimsOne(claimer, tracking) && KeepsLedger(claimer)
    ensures LedgerOk(ClaimEach(claimer, db, ids, g).value.0.gens)
  {
    if ids != [] {
      var n := |ids| - 1;
      ClaimEachEffect(claimer, db, ids[..n], g, tracking);
      ClaimEachKeepsLedger(claimer, db, ids[..n], g, tracking);
      assert IdsOk(ClaimEach(claimer, db, ids[..n], g).value.0, g + n);
    }
  }

  lemma ClaimAllEffect(c: Config, db: Db, ids: seq<CandidateId>, now: Time, g: GenId)
    requires LedgerOk(db.gens) && IdsOk(db, g) && ClaimAll(c, db, ids, now, g).Ok?
    ensures var (db', claims) := ClaimAll(c, db, ids, now, g).value;
      |claims| == |ids| && ClaimedFrom(db, db', claims, g) && LedgerOk(db'.gens) && AllTracked(claims, c.tracking)
  {
    var claimer := ClaimerAt(c, now);
    forall d: Db, id: CandidateId, h: GenId | IdsOk(d, h) && claimer(d, id, h).Ok?
      ensures ClaimedOne(d, claimer(d, id, h).value.0, claimer(d, id, h).value.1, id, h)
              && claimer(d, id, h).value.1.tracking == c.tracking
    {
      ClaimOneEffect(c, d, id, now, h);
    }
    forall d: Db, id: CandidateId, h: GenId | LedgerOk(d.gens) && IdsOk(d, h) && claimer(d, id, h).Ok?
      ensures LedgerOk(claimer(d, id, h).value.0.gens)
    {
      ClaimOneKeepsLedger(c, d, id, now, h);
    }
    ClaimEachEffect(claimer, db, ids, g, c.tracking);
    ClaimEachKeepsLedger(claimer, db, ids, g, c.tracking);
  }

  lemma ClaimOneMore(db: Db, d: Db, e: Db, claims: seq<Claim>, claim: Claim, id: CandidateId, g: GenId)
    requires ClaimedFrom(db, d, claims, g) && ClaimedOne(d, e, claim, id, g + |claims|)
    ensures ClaimedFrom(db, e, claims + [claim], g)
  {
    QuietTransitive(db, d, e);
    FreshKept(d, e, claims, g);
    OthersAreClaimed(d, claims, g, id);
    IdsGrow(d, e, g + |claims|);
  }

  lemma IdsGrow(d: Db, e: Db, g: GenId)
    requires IdsOk(d, g) && g in e.gens && e.gens == d.gens[g := e.gens[g]] && e.gens[g].leaseToken == g
    requires g in e.origins && e.origins == d.origins[g := e.origins[g]]
    ensures IdsOk(e, g + 1)
  {
  }

  lemma QuietTransitive(a: Db, b: Db, c: Db)
    requires Quiet(a, b) && Quiet(b, c)
    ensures Quiet(a, c)
  {
  }

  /** A new row leaves the claims before it as they were. */
  lemma FreshKept(d: Db, e: Db, claims: seq<Claim>, g: GenId)
    requires FreshClaims(d, claims, g) && IdentitiesKept(d.candidates, e.candidates)
    requires g + |claims| in e.gens && e.gens == d.gens[g + |claims| := e.gens[g + |claims|]]
    requires g + |claims| in e.origins && e.origins == d.origins[g + |claims| := e.origins[g + |claims|]]
    ensures FreshClaims(e, claims, g)
  {
  }

  /** A candidate with a row of its own in the batch is not claimed again. */
  lemma OthersAreClaimed(d: Db, claims: seq<Claim>, g: GenId, id: CandidateId)
    requires FreshClaims(d, claims, g)
    requires forall h | h in d.gens && d.gens[h].identity == Identity.Canonical(id) :: !Blocking(d.gens[h])
    ensures forall i | 0 <= i < |claims| :: claims[i].candidate != id
  {
    forall i | 0 <= i < |claims| ensures claims[i].candidate != id {
      assert Blocking(d.gens[claims[i].generation]);
    }
  }

  // ---------------------------------------------------------- storing a batch

  predicate Storable(db: Db, claim: Claim, now: Time) {
    StillOwns(db.candidates, claim, now) && CanConfirm(db.gens, claim.generation, now)
  }

  /** One claim stored: its row confirmed, its candidate moved on, its proof in place. */
  ghost predicate StoredOne(db: Db, db': Db, claim: Claim) {
    && claim.generation in db.gens && claim.generation in db'.gens && claim.candidate in db'.candidates
    && claim.candidate in db.candidates && claim.candidate in db'.proofs
    && db'.gens == db.gens[claim.generation := db'.gens[claim.generation]]
    && db.gens[claim.generation].state == CallStarted && db'.gens[claim.generation].state == Confirmed
    && db'.candidates == db.candidates[claim.candidate := db'.candidates[claim.candidate]]
    && SameIdentity(db.candidates[claim.candidate], db'.candidates[claim.candidate])
    && db'.proofs == db.proofs[claim.candidate := db'.proofs[claim.candidate]]
    && db'.origins == db.origins
    && db'.proofs[claim.candidate].generation == claim.generation
    && ValidProof(db', claim.candidate, db'.proofs[claim.candidate]) && Owns(db', claim)
    && RowOk(db'.gens[claim.generation])
  }

  /** This very link, answered at `now`, is the candidate's proof and the row's confirmation,
      and the candidate is done. */
  ghost predicate StoredAs(db: Db, claim: Claim, link: Link, c: Config, now: Time) {
    && claim.generation in db.gens && claim.candidate in db.candidates && claim.candidate in db.proofs
    && var row := db.gens[claim.generation];
    && row.state == Confirmed && row.confirmation.Some? && row.confirmation.value.url == link
    && row.confirmation.value.generatedAt == now && row.confirmation.value.expiresAt == now + c.ttl
    && var proof := db.proofs[claim.candidate];
    && proof.link == link && proof.generation == claim.generation && proof.tracking == c.tracking
    && proof.requestedAt == claim.startedAt && proof.respondedAt == now && proof.expiresAt == now + c.ttl
    && var candidate := db.candidates[claim.candidate];
    && candidate.state == AffiliateGenerated && candidate.attempts == 0
    && candidate.leaseUntil.None? && candidate.nextAttempt.None?
  }

  ghost predicate StoredPairs(db: Db, claims: seq<Claim>, links: seq<Link>, c: Config, now: Time) {
    |links| == |claims| && forall i | 0 <= i < |claims| :: StoredAs(db, claims[i], links[i], c, now)
  }

  lemma StoreOneEffect(c: Config, db: Db, claim: Claim, link: Link, now: Time)
    requires Owns(db, claim) && claim.tracking == c.tracking && claim.generation in db.gens
    requires RowOk(db.gens[claim.generation])
    ensures StoreOne(c, db, claim, link, now).Ok? <==> Storable(db, claim, now)
    ensures StoreOne(c, db, claim, link, now).Ok? ==> StoredOne(db, StoreOne(c, db, claim, link, now).value, claim)
    ensures StoreOne(c, db, claim, link, now).Ok? ==> StoredAs(StoreOne(c, db, claim, link, now).value, claim, link, c, now)
  {
  }

  ghost predicate InClaims(claims: seq<Claim>, g: GenId) {
    exists i | 0 <= i < |claims| :: claims[i].generation == g
  }

  ghost predicate ForCandidate(claims: seq<Claim>, id: CandidateId) {
    exists i | 0 <= i < |claims| :: claims[i].candidate == id
  }

  /** Claims stored one after the other: only their own rows, candidates and proofs moved. */
  ghost predicate StoredFrom(db: Db, db': Db, claims: seq<Claim>) {
    && db'.gens.Keys == db.gens.Keys && db'.origins == db.origins && IdentitiesKept(db.candidates, db'.candidates)
    && (forall g | g in db.gens && !InClaims(claims, g) :: db'.gens[g] == db.gens[g])
    && (forall id | id in db.candidates && !ForCandidate(claims, id) :: db'.candidates[id] == db.candidates[id])
    && (forall id | id in db'.proofs && !ForCandidate(claims, id) :: id in db.proofs && db'.proofs[id] == db.proofs[id])
    && (forall i | 0 <= i < |claims| :: StoredClaim(db', claims[i]))
  }

  /** The row is confirmed and the candidate's proof is its proof, and valid. */
  ghost predicate StoredClaim(db: Db, claim: Claim) {
    && IsConfirmed(db, claim.generation) && Owns(db, claim) && RowOk(db.gens[claim.generation])
    && claim.candidate in db.proofs && db.proofs[claim.candidate].generation == claim.generation
    && ValidProof(db, claim.candidate, db.proofs[claim.candidate])
  }

  ghost predicate StoresOne(storer: Storer, c: Config, now: Time) {
    forall d: Db, claim: Claim, link: Link
      | Owns(d, claim) && claim.tracking == c.tracking && RowOk(d.gens[claim.generation]) ::
      && (storer(d, claim, link).Ok? <==> Storable(d, claim, now))
      && (storer(d, claim, link).Ok? ==> StoredOne(d, storer(d, claim, link).value, claim)
                                         && StoredAs(storer(d, claim, link).value, claim, link, c, now))
  }

  ghost predicate BatchRows(db: Db, claims: seq<Claim>, tracking: Fingerprint) {
    && Separate(claims) && AllTracked(claims, tracking)
    && forall i | 0 <= i < |claims| :: Owns(db, claims[i]) && RowOk(db.gens[claims[i].generation])
  }

  /** A claim that is not stored yet looks as it did before the others were. */
  lemma NotYetStored(db: Db, d: Db, claims: seq<Claim>, claim: Claim, now: Time)
    requires StoredFrom(db, d, claims) && Owns(db, claim)
    requires !InClaims(claims, claim.generation) && !ForCandidate(claims, claim.candidate)
    ensures Owns(d, claim) && d.gens[claim.generation] == db.gens[claim.generation]
    ensures Storable(d, claim, now) <==> Storable(db, claim, now)
  {
  }

  lemma StoredStays(d: Db, e: Db, claim: Claim, other: Claim)
    requires StoredOne(d, e, claim) && StoredClaim(d, other)
    requires other.candidate != claim.candidate && other.generation != claim.generation
    ensures StoredClaim(e, other)
  {
  }

  lemma StoredOneMore(db: Db, d: Db, e: Db, claims: seq<Claim>, claim: Claim)
    requires StoredFrom(db, d, claims) && StoredOne(d, e, claim) && Separate(claims + [claim])
    ensures StoredFrom(db, e, claims + [claim])
  {
    var all := claims + [claim];
    assert all[|claims|] == claim;
    assert forall g :: InClaims(all, g) <==> InClaims(claims, g) || g == claim.generation by {
      forall g ensures InClaims(all, g) <==> InClaims(claims, g) || g == claim.generation {
        InClaimsSnoc(claims, claim, g);
      }
    }
    forall i | 0 <= i < |all| ensures StoredClaim(e, all[i]) {
      if i < |claims| {
        assert all[i] == claims[i];
        StoredStays(d, e, claim, claims[i]);
      }
    }
    forall id ensures ForCandidate(all, id) <==> ForCandidate(claims, id) || id == claim.candidate {
      ForCandidateSnoc(claims, claim, id);
    }
  }

  lemma InClaimsSnoc(claims: seq<Claim>, claim: Claim, g: GenId)
    ensures InClaims(claims + [claim], g) <==> InClaims(claims, g) || g == claim.generation
  {
    var all := claims + [claim];
    if InClaims(claims, g) {
      var i :| 0 <= i < |claims| && claims[i].generation == g;
      assert all[i].generation == g;
    }
    assert all[|claims|] == claim;
  }

  lemma ForCandidateSnoc(claims: seq<Claim>, claim: Claim, id: CandidateId)
    ensures ForCandidate(claims + [claim], id) <==> ForCandidate(claims, id) || id == claim.candidate
  {
    var all := claims + [claim];
    if ForCandidate(claims, id) {
      var i :| 0 <= i < |claims| && claims[i].candidate == id;
      assert all[i].candidate == id;
    }
    assert all[|claims|] == claim;
  }

  ghost predicate AllStorable(db: Db, claims: seq<Claim>, now: Time) {
    forall i | 0 <= i < |claims| :: Storable(db, claims[i], now)
  }

  lemma AllStorableSnoc(db: Db, claims: seq<Claim>, claim: Claim, now: Time)
    ensures AllStorable(db, claims + [claim], now) <==> AllStorable(db, claims, now) && Storable(db, claim, now)
  {
    var all := claims + [claim];
    assert all[|claims|] == claim;
    assert forall i | 0 <= i < |claims| :: all[i] == claims[i];
  }

  lemma BatchRowsSnoc(db: Db, claims: seq<Claim>, claim: Claim, tracking: Fingerprint)
    requires BatchRows(db, claims + [claim], tracking)
    ensures BatchRows(db, claims, tracking) && Owns(db, claim) && claim.tracking == tracking
    ensures RowOk(db.gens[claim.generation])
  {
    var all := claims + [claim];
    assert all[|claims|] == claim;
    assert forall i | 0 <= i < |claims| :: all[i] == claims[i];
  }

  lemma StoreLast(storer: Storer, db: Db, d: Db, claims: seq<Claim>, claim: Claim, link: Link, c: Config, now: Time)
    requires StoresOne(storer, c, now) && StoredFrom(db, d, claims) && BatchRows(db, claims + [claim], c.tracking)
    ensures var r := storer(d, claim, link);
      && (r.Ok? <==> Storable(db, claim, now))
      && (r.Ok? ==> StoredFrom(db, r.value, claims + [claim]) && StoredOne(d, r.value, claim)
                    && StoredAs(r.value, claim, link, c, now))
  {
    BatchRowsSnoc(db, claims, claim, c.tracking);
    SeparateLast(claims, claim);
    NotYetStored(db, d, claims, claim, now);
    if storer(d, claim, link).Ok? {
      StoredOneMore(db, d, storer(d, claim, link).value, claims, claim);
    }
  }

  /** Storing another claim leaves what was stored before. */
  lemma StoredPairsMore(d: Db, e: Db, claims: seq<Claim>, links: seq<Link>, claim: Claim, link: Link, c: Config, now: Time)
    requires StoredPairs(d, claims, links, c, now) && Separate(claims + [claim])
    requires StoredOne(d, e, claim) && StoredAs(e, claim, link, c, now)
    ensures StoredPairs(e, claims + [claim], links + [link], c, now)
  {
    SeparateLast(claims, claim);
    forall i | 0 <= i < |claims| ensures StoredAs(e, claims[i], links[i], c, now) {
      assert StoredAs(d, claims[i], links[i], c, now);
    }
  }

  /** A batch is stored exactly when every one of its claims still could be before any was;
      and then every one is, with its own link. */
  lemma {:induction false} StoreEachEffect(storer: Storer, db: Db, claims: seq<Claim>, links: seq<Link>, c: Config, now: Time)
    requires |links| == |claims| && StoresOne(storer, c, now) && BatchRows(db, claims, c.tracking)
    ensures var r := StoreEach(storer, db, claims, links);
      && (r.Ok? <==> AllStorable(db, claims, now))
      && (r.Ok? ==> StoredFrom(db, r.value, claims) && StoredPairs(r.value, claims, links, c, now))
  {
    if claims != [] {
      var n := |claims| - 1;
      assert claims == claims[..n] + [claims[n]] && links == links[..n] + [links[n]];
      BatchRowsSnoc(db, claims[..n], claims[n], c.tracking);
      AllStorableSnoc(db, claims[..n], claims[n], now);
      StoreEachEffect(storer, db, claims[..n], links[..n], c, now);
      var r := StoreEach(storer, db, claims[..n], links[..n]);
      if r.Ok? {
        StoreLast(storer, db, r.value, claims[..n], claims[n], links[n], c, now);
        if storer(r.value, claims[n], links[n]).Ok? {
          StoredPairsMore(r.value, storer(r.value, claims[n], links[n]).value, claims[..n], links[..n],
                          claims[n], links[n], c, now);
        }
      }
    }
  }

  lemma SeparateLast(claims: seq<Claim>, claim: Claim)
    requires Separate(claims + [claim])
    ensures !InClaims(claims, claim.generation) && !ForCandidate(claims, claim.candidate)
  {
    var all := claims + [claim];
    assert all[|claims|] == claim;
    assert forall i | 0 <= i < |claims| :: all[i] == claims[i];
  }
}
