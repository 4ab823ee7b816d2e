/**
 Whole runs of the coin-short generator: any number of workers, interleaved at
 transaction boundaries, crashing between any two of them (a crashed worker is one
 that is never scheduled again) and reading clocks that need not agree.
 */
module CoinRuns {
  import opened Prelude
  import opened Ledger
  import opened Coin

  /** A winner's in-memory state: its claim, and the flags of AuditedGenerationCall. */
  datatype Call = Call(evidence: EvidenceId, token: Token, started: bool, wireEntered: bool)

  /** The database, the winner of every generation, and the log of requests sent. */
  datatype System = System(db: Db, calls: map<GenId, Call>, wire: seq<GenId>)

  datatype Action =
    | RecoverAt(now: Time)
    | ClaimAt(r: Request, now: Time, g: GenId, token: Token, slot: EvidenceId)
    | Start(g: GenId, now: Time)
    | EnterWire(g: GenId)
    | Succeed(g: GenId, now: Time, link: Link, mode: Mode)
    | Reject(g: GenId, now: Time)
    | GiveUp(g: GenId, now: Time)

  function Initial(): System {
    System(Db(map[], map[]), map[], [])
  }

  /** Ledger ids and lease tokens are never drawn twice; an evidence id may come back
      once its row is deleted. */
  predicate CanClaim(db: Db, now: Time, g: GenId, token: Token, slot: EvidenceId) {
    && g !in db.gens && slot !in Purged(db.evidence, now)
    && forall h | h in db.gens :: db.gens[h].leaseToken != token
  }

  /** One transaction, or one request; an action that is not enabled changes nothing. */
  function Step(s: System, a: Action): System {
    match a
    case RecoverAt(now) => s.(db := Recover(s.db, now))
    case ClaimAt(r, now, g, token, slot) => StepClaim(s, r, now, g, token, slot)
    case Start(g, now) => StepStart(s, g, now)
    case EnterWire(g) =>
      if g in s.calls && s.calls[g].started && !s.calls[g].wireEntered then
        s.(calls := s.calls[g := s.calls[g].(wireEntered := true)], wire := s.wire + [g])
      else s
    case Succeed(g, now, link, mode) =>
      if g in s.calls && s.calls[g].wireEntered then
        match FinishReady(s.db, s.calls[g].evidence, g, s.calls[g].token, now, link, mode)
        case Ok(db) => s.(db := db)
        case Err(_) => s
      else s
    case Reject(g, now) =>
      if g in s.calls && s.calls[g].wireEntered then StepFail(s, g, now, Rejected, ReviewRequired) else s
    case GiveUp(g, now) =>
      if g in s.calls then StepFail(s, g, now, Uncertain, Undecided) else s
  }

  function StepClaim(s: System, r: Request, now: Time, g: GenId, token: Token, slot: EvidenceId): System {
    if !CanClaim(s.db, now, g, token, slot) then s
    else match ClaimTx(s.db, r, now, g, token, slot)
      case Err(_) => s
      case Ok((db, claim)) =>
        s.(db := db,
           calls := if claim.disposition == Generate
                    then s.calls[g := Call(slot, token, false, false)] else s.calls)
  }

  function StepStart(s: System, g: GenId, now: Time): System {
    if g in s.calls && !s.calls[g].started then
      match StartCall(s.db.gens, [g], [s.calls[g].token], now)
      case Ok(gens) => s.(db := s.db.(gens := gens), calls := s.calls[g := s.calls[g].(started := true)])
      case Err(_) => s
    else s
  }

  function StepFail(s: System, g: GenId, now: Time, ledgerState: State, evidenceState: EvidenceState): System
    requires g in s.calls
  {
    match FinishFailed(s.db, s.calls[g].evidence, g, s.calls[g].token, now, ledgerState, evidenceState)
    case Ok(db) => s.(db := db)
    case Err(_) => s
  }

  function Exec(s: System, actions: seq<Action>): System {
    if actions == [] then s
    else Step(Exec(s, actions[..|actions| - 1]), actions[|actions| - 1])
  }

  function Run(actions: seq<Action>): System {
    Exec(Initial(), actions)
  }

  /** Succeed commits both halves or neither. */
  lemma SucceedEffect(s: System, g: GenId, now: Time, link: Link, mode: Mode)
    ensures var s' := Step(s, Succeed(g, now, link, mode));
      var c := Confirmation(link, now, now + LINK_TTL, CoinShort, mode);
      s' == s || (
        && g in s.calls && s.calls[g].wireEntered
        && CanConfirm(s.db.gens, g, now)
        && OwnsLease(s.db.evidence, s.calls[g].evidence, s.calls[g].token, now)
        && s'.db.gens == Confirm(s.db.gens, g, c).value
        && s'.db.evidence == s.db.evidence[s.calls[g].evidence := s.db.evidence[s.calls[g].evidence].(
              state := Ready, lease := None, ready := Some(ReadyLink(link, now, now + LINK_TTL, mode)))]
        && s'.calls == s.calls && s'.wire == s.wire)
  {
  }

  lemma FailEffect(s: System, g: GenId, now: Time, ledgerState: State, evidenceState: EvidenceState)
    requires g in s.calls
    ensures var s' := StepFail(s, g, now, ledgerState, evidenceState);
      s' == s || (
        && OwnsLease(s.db.evidence, s.calls[g].evidence, s.calls[g].token, now)
        && s'.db.gens == Fail(s.db.gens, {g}, ledgerState)
        && s'.db.evidence == s.db.evidence[s.calls[g].evidence :=
             s.db.evidence[s.calls[g].evidence].(state := evidenceState, lease := None)]
        && s'.calls == s.calls && s'.wire == s.wire)
  {
  }

  // ------------------------------------------------------------------ invariants

  /** How an evidence row and the ledger row it points at move together. */
  ghost predicate Coupled(gens: Rows, row: Evidence) {
    && row.generation.Some? && row.generation.value in gens
    && var gen := gens[row.generation.value];
    && gen.identity == Identity.Coin(row.input) && gen.tracking == row.tracking
    && (row.lease.Some? <==> row.state == Generating)
    && (row.ready.Some? <==> row.state == Ready)
    && match row.state
       case Generating =>
         Open(gen) && gen.leaseToken == row.lease.value.token && gen.leaseUntil == Some(row.lease.value.until)
       case Ready => Valid(gens, row)
       case ReviewRequired => gen.state == Rejected
       case Undecided => Open(gen) || gen.state == Uncertain || gen.state == Failed
  }

  ghost predicate Coupling(db: Db) {
    && (forall e | e in db.evidence :: Coupled(db.gens, db.evidence[e]))
    && (forall a, b | a in db.evidence && b in db.evidence
                      && db.evidence[a].generation == db.evidence[b].generation :: a == b)
  }

  ghost predicate CallsOk(gens: Rows, calls: map<GenId, Call>) {
    && calls.Keys == gens.Keys
    && forall g | g in calls ::
         && calls[g].token == gens[g].leaseToken
         && (calls[g].started <==> gens[g].callStartedAt.Some?)
         && (calls[g].wireEntered ==> calls[g].started)
  }

  ghost predicate WireOk(s: System) {
    && (forall i, j | 0 <= i < j < |s.wire| :: s.wire[i] != s.wire[j])
    && (forall g :: g in s.wire <==> g in s.calls && s.calls[g].wireEntered)
    && (forall g | g in s.db.gens && s.db.gens[g].state == Confirmed :: g in s.calls && s.calls[g].wireEntered)
    && (forall g | g in s.db.gens && s.db.gens[g].state == Rejected :: g in s.calls && s.calls[g].wireEntered)
  }

  ghost predicate Inv(s: System) {
    LedgerOk(s.db.gens) && Coupling(s.db) && CallsOk(s.db.gens, s.calls) && WireOk(s)
  }

  /** A row's coupling depends on one ledger row only. */
  lemma CoupledFrame(gens: Rows, gens': Rows, row: Evidence)
    requires Coupled(gens, row)
    requires row.generation.value in gens' && gens'[row.generation.value] == gens[row.generation.value]
    ensures Coupled(gens', row)
  {
  }

  /** The evidence whose lease carries a generation's token is that generation's. */
  lemma TokenNamesGeneration(db: Db, e: EvidenceId, g: GenId, token: Token, now: Time)
    requires LedgerOk(db.gens) && Coupling(db)
    requires g in db.gens && db.gens[g].leaseToken == token
    requires OwnsLease(db.evidence, e, token, now)
    ensures db.evidence[e].generation == Some(g)
    ensures forall f | f in db.evidence && f != e :: db.evidence[f].generation != Some(g)
  {
    assert Coupled(db.gens, db.evidence[e]);
  }

  lemma RecoverCouples(db: Db, now: Time)
    requires LedgerOk(db.gens) && Coupling(db)
    ensures Coupling(Recover(db, now))
  {
    var db' := Recover(db, now);
    forall e | e in db'.evidence ensures Coupled(db'.gens, db'.evidence[e]) {
      assert Coupled(db.gens, db.evidence[e]);
    }
  }

  lemma RecoverKeepsInv(s: System, now: Time)
    requires Inv(s)
    ensures Inv(Step(s, RecoverAt(now)))
  {
    RecoverCouples(s.db, now);
    SweepKeepsLedger(s.db.gens, now);
    var s' := Step(s, RecoverAt(now));
    assert s'.db.gens == Sweep(s.db.gens, now);
    assert CallsOk(s'.db.gens, s'.calls);
    assert WireOk(s');
  }

  lemma PurgeCouples(db: Db, now: Time)
    requires Coupling(db)
    ensures Coupling(Db(db.gens, Purged(db.evidence, now)))
  {
    var kept := Purged(db.evidence, now);
    forall e | e in kept ensures Coupled(db.gens, kept[e]) {
      assert Coupled(db.gens, db.evidence[e]);
    }
  }

  lemma WinCouples(db: Db, r: Request, now: Time, g: GenId, token: Token, slot: EvidenceId)
    requires Coupling(db) && g !in db.gens && slot !in Purged(db.evidence, now)
    requires Find(Purged(db.evidence, now), r.input, r.tracking).None?
    ensures Coupling(Db(db.gens[g := WonGeneration(r, now, token)],
                        Purged(db.evidence, now)[slot := WonEvidence(r, now, g, token)]))
  {
    PurgeCouples(db, now);
    var kept := Purged(db.evidence, now);
    var gens := db.gens[g := WonGeneration(r, now, token)];
    var table := kept[slot := WonEvidence(r, now, g, token)];
    forall e | e in table ensures Coupled(gens, table[e]) {
      if e != slot {
        assert Coupled(db.gens, kept[e]);
        CoupledFrame(db.gens, gens, kept[e]);
      }
    }
  }

  lemma ClaimKeepsInv(s: System, r: Request, now: Time, g: GenId, token: Token, slot: EvidenceId)
    requires Inv(s)
    ensures Inv(StepClaim(s, r, now, g, token, slot))
  {
    var s' := StepClaim(s, r, now, g, token, slot);
    if CanClaim(s.db, now, g, token, slot) && ClaimTx(s.db, r, now, g, token, slot).Ok? {
      ClaimEffect(s.db, r, now, g, token, slot);
      if ClaimTx(s.db, r, now, g, token, slot).value.1.disposition == Generate {
        WinCouples(s.db, r, now, g, token, slot);
        PrepareKeepsLedger(s.db.gens, g, WonGeneration(r, now, token), now);
        WinKeepsCalls(s, s', g, slot);
      } else {
        PurgeCouples(s.db, now);
      }
    }
  }

  lemma WinKeepsCalls(s: System, s': System, g: GenId, slot: EvidenceId)
    requires CallsOk(s.db.gens, s.calls) && WireOk(s) && g !in s.db.gens
    requires g in s'.db.gens && s'.db.gens == s.db.gens[g := s'.db.gens[g]]
    requires s'.db.gens[g].state == Prepared && s'.db.gens[g].callStartedAt.None?
    requires s'.calls == s.calls[g := Call(slot, s'.db.gens[g].leaseToken, false, false)]
    requires s'.wire == s.wire
    ensures CallsOk(s'.db.gens, s'.calls) && WireOk(s')
  {
  }

  lemma StartCouples(db: Db, g: GenId, token: Token, now: Time)
    requires LedgerOk(db.gens) && Coupling(db) && CanStart(db.gens, g, token, now)
    ensures LedgerOk(Started(db.gens, g, now)) && Coupling(Db(Started(db.gens, g, now), db.evidence))
  {
    StartKeepsLedger(db.gens, g, token, now);
    forall e | e in db.evidence ensures Coupled(Started(db.gens, g, now), db.evidence[e]) {
      assert Coupled(db.gens, db.evidence[e]);
    }
  }

  lemma StartKeepsInv(s: System, g: GenId, now: Time)
    requires Inv(s)
    ensures Inv(StepStart(s, g, now))
  {
    var s' := StepStart(s, g, now);
    if s' != s {
      StartOne(s.db.gens, g, s.calls[g].token, now);
      StartCouples(s.db, g, s.calls[g].token, now);
      StartKeepsCalls(s, s', g, now);
    }
  }

  lemma StartKeepsCalls(s: System, s': System, g: GenId, now: Time)
    requires CallsOk(s.db.gens, s.calls) && WireOk(s) && g in s.db.gens && g in s.calls
    requires s'.db.gens == Started(s.db.gens, g, now) && s'.wire == s.wire
    requires s'.calls == s.calls[g := s.calls[g].(started := true)]
    ensures CallsOk(s'.db.gens, s'.calls) && WireOk(s')
  {
  }

  lemma EnterWireKeepsInv(s: System, g: GenId)
    requires Inv(s)
    ensures Inv(Step(s, EnterWire(g)))
  {
    var s' := Step(s, EnterWire(g));
    if s' != s {
      EnterKeepsCalls(s, s', g);
    }
  }

  lemma EnterKeepsCalls(s: System, s': System, g: GenId)
    requires CallsOk(s.db.gens, s.calls) && WireOk(s) && g in s.calls && s.calls[g].started && !s.calls[g].wireEntered
    requires s'.db == s.db && s'.wire == s.wire + [g]
    requires s'.calls == s.calls[g := s.calls[g].(wireEntered := true)]
    ensures CallsOk(s'.db.gens, s'.calls) && WireOk(s')
  {
    assert s'.calls.Keys == s.calls.Keys;
  }

  lemma SucceedCouples(db: Db, e: EvidenceId, g: GenId, token: Token, now: Time, link: Link, mode: Mode)
    requires LedgerOk(db.gens) && Coupling(db)
    requires g in db.gens && db.gens[g].leaseToken == token
    requires CanConfirm(db.gens, g, now) && OwnsLease(db.evidence, e, token, now)
    ensures LedgerOk(FinishReady(db, e, g, token, now, link, mode).value.gens)
    ensures Coupling(FinishReady(db, e, g, token, now, link, mode).value)
  {
    var db' := FinishReady(db, e, g, token, now, link, mode).value;
    TokenNamesGeneration(db, e, g, token, now);
    ConfirmKeepsLedger(db.gens, g, Confirmation(link, now, now + LINK_TTL, CoinShort, mode));
    assert Coupled(db.gens, db.evidence[e]);
    forall f | f in db'.evidence ensures Coupled(db'.gens, db'.evidence[f]) {
      if f != e {
        CoupledFrame(db.gens, db'.gens, db.evidence[f]);
      }
    }
  }

  lemma SucceedKeepsInv(s: System, g: GenId, now: Time, link: Link, mode: Mode)
    requires Inv(s)
    ensures Inv(Step(s, Succeed(g, now, link, mode)))
  {
    var s' := Step(s, Succeed(g, now, link, mode));
    SucceedEffect(s, g, now, link, mode);
    if s' != s {
      SucceedCouples(s.db, s.calls[g].evidence, g, s.calls[g].token, now, link, mode);
      assert CallsOk(s'.db.gens, s'.calls);
      assert WireOk(s');
    }
  }

  lemma FailCouples(db: Db, e: EvidenceId, g: GenId, token: Token, now: Time,
                    ledgerState: State, evidenceState: EvidenceState)
    requires LedgerOk(db.gens) && Coupling(db)
    requires g in db.gens && db.gens[g].leaseToken == token
    requires (ledgerState == Rejected && evidenceState == ReviewRequired && db.gens[g].callStartedAt.Some?)
          || (ledgerState == Uncertain && evidenceState == Undecided)
    requires OwnsLease(db.evidence, e, token, now)
    ensures Coupling(FinishFailed(db, e, g, token, now, ledgerState, evidenceState).value)
  {
    var db' := FinishFailed(db, e, g, token, now, ledgerState, evidenceState).value;
    TokenNamesGeneration(db, e, g, token, now);
    assert Coupled(db.gens, db.evidence[e]);
    forall f | f in db'.evidence ensures Coupled(db'.gens, db'.evidence[f]) {
      if f != e {
        CoupledFrame(db.gens, db'.gens, db.evidence[f]);
      }
    }
  }

  lemma FailKeepsInv(s: System, g: GenId, now: Time, ledgerState: State, evidenceState: EvidenceState)
    requires Inv(s) && g in s.calls
    requires (ledgerState == Rejected && evidenceState == ReviewRequired && s.calls[g].wireEntered)
          || (ledgerState == Uncertain && evidenceState == Undecided)
    ensures Inv(StepFail(s, g, now, ledgerState, evidenceState))
  {
    var s' := StepFail(s, g, now, ledgerState, evidenceState);
    if s' != s {
      var e := s.calls[g].evidence;
      FailCouples(s.db, e, g, s.calls[g].token, now, ledgerState, evidenceState);
      FailKeepsLedger(s.db.gens, {g}, ledgerState);
      FailKeepsCalls(s, s', g, ledgerState);
    }
  }

  lemma FailKeepsCalls(s: System, s': System, g: GenId, state: State)
    requires CallsOk(s.db.gens, s.calls) && WireOk(s) && g in s.calls
    requires state == Uncertain || (state == Rejected && s.calls[g].wireEntered)
    requires s'.db.gens == Fail(s.db.gens, {g}, state) && s'.calls == s.calls && s'.wire == s.wire
    ensures CallsOk(s'.db.gens, s'.calls) && WireOk(s')
  {
    var gens := s'.db.gens;
    assert gens.Keys == s.db.gens.Keys;
    assert forall h | h in gens :: gens[h].callStartedAt == s.db.gens[h].callStartedAt;
    assert forall h | h in gens && h != g :: gens[h] == s.db.gens[h];
  }
}
