/**
 The shadow database as the repositories change it: tables that are fields, one method
 per repository operation or coordinator transaction, rollback on a failing one.
 */
module CoinStore {
  import opened Prelude
  import opened Ledger
  import opened Coin
  import opened CoinRuns
  import opened CoinProbe

  class ShadowStore {
    var gens: Rows
    var evidence: Table
    /** uuid4 and the row id sequence: every id and token drawn so far is smaller. */
    var next: nat

    function View(): Db
      reads this
    {
      Db(gens, evidence)
    }

    ghost predicate IdsBelowNext()
      reads this
    {
      && (forall g | g in gens :: g < next && gens[g].leaseToken < next)
      && (forall e | e in evidence :: e < next)
    }

    ghost predicate Valid()
      reads this
    {
      LedgerOk(gens) && Coupling(View()) && IdsBelowNext()
    }

    constructor ()
      ensures Valid() && View() == Db(map[], map[])
    {
      gens, evidence, next := map[], map[], 0;
    }

    /** recover: one expired row at a time, and with it the evidence it was generating. */
    method Recover(now: Time)
      modifies this`gens, this`evidence
      ensures View() == Coin.Recover(old(View()), now)
      ensures old(Valid()) ==> Valid()
    {
      ghost var db := View();
      var expired := set g | g in gens && Expired(gens[g], now);
      ghost var all := expired;
      while expired != {}
        invariant expired <= all <= db.gens.Keys
        invariant gens == EndRows(db.gens, all - expired)
        invariant evidence == EndEvidence(db.evidence, all - expired)
      {
        var g :| g in expired;
        gens := gens[g := Ended(gens[g], Uncertain)];
        evidence := EndEvidence(evidence, {g});
        EndOneMore(db, all - expired, g);
        assert all - (expired - {g}) == (all - expired) + {g};
        expired := expired - {g};
      }
      assert all - expired == all;
      AllEnded(db, all, now);
      if old(Valid()) {
        RecoverCouples(db, now);
        SweepKeepsLedger(db.gens, now);
      }
    }

    /** start_call: every generation of one request moves to CALL_STARTED, or none does. */
    method StartCall(ids: seq<GenId>, tokens: seq<Token>, now: Time) returns (r: Result<(), HistoryError>)
      requires |ids| == |tokens|
      modifies this`gens
      ensures match Ledger.StartCall(old(gens), ids, tokens, now)
              case Ok(rows) => r == Ok(()) && gens == rows
              case Err(error) => r == Err(error) && gens == old(gens)
    {
      var before := gens;
      for i := 0 to |ids|
        invariant Ledger.StartCall(before, ids, tokens, now) == Ledger.StartCall(gens, ids[i..], tokens[i..], now)
      {
        if !CanStart(gens, ids[i], tokens[i], now) {
          gens := before;
          return Err(InProgress);
        }
        gens := Started(gens, ids[i], now);
        assert ids[i..][1..] == ids[i + 1..] && tokens[i..][1..] == tokens[i + 1..];
      }
      r := Ok(());
    }

    /** claim: sweep, purge, then answer from the row under the key or insert one. */
    method ClaimEvidence(r: Request, now: Time, token: Token, slot: EvidenceId) returns (result: Result<Claim, CoinError>)
      requires slot !in Purged(evidence, now)
      modifies this`evidence
      ensures match Coin.ClaimEvidence(old(View()), r, now, token, slot)
              case Ok((table, claim)) => result == Ok(claim) && evidence == table
              case Err(error) => result == Err(error) && evidence == old(evidence)
    {
      var before := evidence;
      evidence := SweepLeases(evidence, now);
      var expired := ExpiredIds(evidence, now);
      assert expired == ExpiredIds(before, now);
      if exists e | e in expired :: !Coin.Valid(gens, evidence[e]) {
        assert forall e | e in expired :: evidence[e] == before[e];
        evidence := before;
        return Err(History(LinkInvalid));
      }
      assert forall e | e in expired :: Coin.Valid(gens, evidence[e]) && evidence[e] == before[e];
      evidence := map e | e in evidence && e !in expired :: evidence[e];
      assert evidence == Purged(before, now);
      var existing := Find(evidence, r.input, r.tracking);
      if existing.Some? {
        return Ok(ClaimForExisting(existing.value, evidence[existing.value]));
      }
      evidence := evidence[slot :=
        Evidence(r.input, r.tracking, Generating, Some(Lease(token, now + LEASE)), None, None)];
      result := Ok(Claim(slot, Generate, Some(token), None, None));
    }

    /** prepare: a PREPARED row, if nothing blocks the identity. */
    method Prepare(r: Request, now: Time, g: GenId, token: Token) returns (result: Result<(), HistoryError>)
      modifies this`gens
      ensures match CheckIdentity(old(gens), Identity.Coin(r.input), now)
              case Some(error) => result == Err(error) && gens == old(gens)
              case None => result == Ok(()) && gens == old(gens)[g := WonGeneration(r, now, token)]
    {
      var blocked := CheckIdentity(gens, Identity.Coin(r.input), now);
      if blocked.Some? {
        return Err(blocked.value);
      }
      gens := gens[g := WonGeneration(r, now, token)];
      result := Ok(());
    }

    method ClaimAndPrepare(r: Request, now: Time, g: GenId, token: Token, slot: EvidenceId)
      returns (result: Result<Claim, CoinError>)
      requires g !in gens && slot !in Purged(evidence, now)
      modifies this`gens, this`evidence
      ensures match Coin.ClaimTx(old(View()), r, now, g, token, slot)
              case Ok((db, claim)) => result == Ok(claim) && View() == db
              case Err(error) => result == Err(error) && View() == old(View())
    {
      var before := evidence;
      var refused := Admission(View(), r, now);
      if refused.Some? {
        return Err(refused.value);
      }
      result := ClaimEvidence(r, now, token, slot);
      if result.Ok? && result.value.disposition == Generate {
        var prepared := Prepare(r, now, g, token);
        if prepared.Err? {
          evidence := before;
          return Err(History(prepared.error));
        }
        evidence := evidence[slot := evidence[slot].(generation := Some(g))];
      }
    }

    /** generate's claiming transaction, with ids and a token drawn for it. */
    method ClaimTx(r: Request, now: Time) returns (result: Result<Claim, CoinError>, drawn: nat)
      requires Valid()
      modifies this
      ensures Valid() && drawn == old(next)
      ensures drawn !in old(gens) && drawn !in Purged(old(evidence), now)
      ensures match Coin.ClaimTx(old(View()), r, now, drawn, drawn, drawn)
              case Ok((db, claim)) => result == Ok(claim) && View() == db
              case Err(error) => result == Err(error) && View() == old(View())
    {
      drawn := next;
      ClaimKeepsStore(View(), r, now, drawn);
      next := next + 1;
      result := ClaimAndPrepare(r, now, drawn, drawn, drawn);
    }

    /** A committed claim keeps the store's invariant, for ids drawn from its own counter. */
    lemma ClaimKeepsStore(db: Db, r: Request, now: Time, drawn: nat)
      requires LedgerOk(db.gens) && Coupling(db)
      requires forall g | g in db.gens :: g < drawn && db.gens[g].leaseToken < drawn
      requires forall e | e in db.evidence :: e < drawn
      ensures drawn !in db.gens && drawn !in Purged(db.evidence, now)
      ensures match Coin.ClaimTx(db, r, now, drawn, drawn, drawn)
        case Ok((after, claim)) =>
          && LedgerOk(after.gens) && Coupling(after)
          && (forall g | g in after.gens :: g < drawn + 1 && after.gens[g].leaseToken < drawn + 1)
          && (forall e | e in after.evidence :: e < drawn + 1)
        case Err(_) => true
    {
      if Coin.ClaimTx(db, r, now, drawn, drawn, drawn).Ok? {
        ClaimEffect(db, r, now, drawn, drawn, drawn);
        if Coin.ClaimTx(db, r, now, drawn, drawn, drawn).value.1.disposition == Generate {
          WinCouples(db, r, now, drawn, drawn, drawn);
          PrepareKeepsLedger(db.gens, drawn, WonGeneration(r, now, drawn), now);
        } else {
          PurgeCouples(db, now);
        }
      }
    }

    /** The transaction that stores a good answer: confirm, then finish_ready. */
    method FinishReady(e: EvidenceId, g: GenId, token: Token, now: Time, link: Link, mode: Mode)
      returns (r: Result<(), CoinError>)
      modifies this`gens, this`evidence
      ensures match Coin.FinishReady(old(View()), e, g, token, now, link, mode)
              case Ok(db) => r == Ok(()) && View() == db
              case Err(error) => r == Err(error) && View() == old(View())
    {
      var before := gens;
      if !CanConfirm(gens, g, now) {
        return Err(History(LeaseLost));
      }
      gens := gens[g := gens[g].(
        state := Confirmed, leaseUntil := None,
        confirmation := Some(Confirmation(link, now, now + LINK_TTL, CoinShort, mode)))];
      if !OwnsLease(evidence, e, token, now) {
        gens := before;
        return Err(EvidenceLeaseLost);
      }
      evidence := evidence[e := evidence[e].(
        state := Ready, lease := None, ready := Some(ReadyLink(link, now, now + LINK_TTL, mode)))];
      r := Ok(());
    }

    /** The transactions that store a rejected or an undecided answer. */
    method FinishFailed(e: EvidenceId, g: GenId, token: Token, now: Time,
                        ledgerState: State, evidenceState: EvidenceState) returns (r: Result<(), CoinError>)
      modifies this`gens, this`evidence
      ensures match Coin.FinishFailed(old(View()), e, g, token, now, ledgerState, evidenceState)
              case Ok(db) => r == Ok(()) && View() == db
              case Err(error) => r == Err(error) && View() == old(View())
    {
      var before := gens;
      gens := Fail(gens, {g}, ledgerState);
      if !OwnsLease(evidence, e, token, now) {
        gens := before;
        return Err(EvidenceLeaseLost);
      }
      evidence := evidence[e := evidence[e].(state := evidenceState, lease := None)];
      r := Ok(());
    }

    /** The loop of inspect, row by row: the answer does not depend on their order. */
    method InspectRows(r: Request, now: Time) returns (refused: Option<HistoryError>)
      requires Valid()
      ensures refused == RowsRefused(View(), r, now)
    {
      var rows := set e | e in evidence && evidence[e].input == r.input;
      while rows != {}
        invariant rows <= evidence.Keys
        invariant forall e | e in evidence && evidence[e].input == r.input && e !in rows
          :: (evidence[e].state == Ready && Coin.Valid(gens, evidence[e])) || evidence[e].state == ReviewRequired
      {
        var e :| e in rows;
        assert Coupled(gens, evidence[e]);
        if evidence[e].state == Undecided || (evidence[e].state == Generating && !LiveLease(evidence[e], r.input, now)) {
          return Some(UncertainBlocked);
        }
        if evidence[e].state == Generating {
          OneUnfinishedRow(View(), r.input, e);
          return Some(InProgress);
        }
        if evidence[e].state == Ready && !Coin.Valid(gens, evidence[e]) {
          return Some(LinkInvalid);
        }
        rows := rows - {e};
      }
      refused := None;
    }

    /** inspect. */
    method Inspect(r: Request, now: Time) returns (out: Result<Option<Claim>, CoinError>)
      requires Valid()
      ensures out == Coin.Inspect(View(), r, now)
    {
      if !KeyContextOk(gens, r.key) {
        return Err(History(KeyContextBlocked));
      }
      var refused := InspectRows(r, now);
      if refused.Some? {
        return Err(History(refused.value));
      }
      var blocked := CheckIdentity(gens, Identity.Coin(r.input), now);
      if blocked.Some? {
        return Err(History(blocked.value));
      }
      var found := Find(evidence, r.input, r.tracking);
      if found.None? {
        return Ok(None);
      }
      var row := evidence[found.value];
      if row.state != Ready {
        return Err(NotReady(row.state));
      }
      if row.ready.Some? && row.ready.value.expiresAt > now {
        return Ok(Some(ClaimForExisting(found.value, row)));
      }
      return Ok(None);
    }
  }

  function EndRows(rows: Rows, ids: set<GenId>): Rows {
    map g | g in rows :: if g in ids then Ended(rows[g], Uncertain) else rows[g]
  }

  function EndEvidence(table: Table, ids: set<GenId>): Table {
    map e | e in table ::
      if table[e].state == Generating && table[e].generation.Some? && table[e].generation.value in ids
      then table[e].(state := Undecided, lease := None) else table[e]
  }

  lemma EndOneMore(db: Db, ids: set<GenId>, g: GenId)
    requires g in db.gens && g !in ids
    ensures EndRows(db.gens, ids + {g}) == EndRows(db.gens, ids)[g := Ended(EndRows(db.gens, ids)[g], Uncertain)]
    ensures EndEvidence(db.evidence, ids + {g}) == EndEvidence(EndEvidence(db.evidence, ids), {g})
  {
  }

  lemma AllEnded(db: Db, all: set<GenId>, now: Time)
    requires all == set g | g in db.gens && Expired(db.gens[g], now)
    ensures Coin.Recover(db, now) == Db(EndRows(db.gens, all), EndEvidence(db.evidence, all))
  {
  }

  /** Of all the evidence of one input, at most one row is not READY. */
  lemma OneUnfinishedRow(db: Db, input: Fingerprint, e: EvidenceId)
    requires LedgerOk(db.gens) && Coupling(db)
    requires e in db.evidence && db.evidence[e].input == input && db.evidence[e].state != Ready
    ensures forall f | f in db.evidence && db.evidence[f].input == input && f != e :: db.evidence[f].state == Ready
  {
    forall f | f in db.evidence && db.evidence[f].input == input && f != e ensures db.evidence[f].state == Ready {
      assert Coupled(db.gens, db.evidence[e]) && Coupled(db.gens, db.evidence[f]);
    }
  }
}
