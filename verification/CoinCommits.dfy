/** When the later transactions of a coin generation commit, and all that they change then. */
module CoinCommits {
  import opened Prelude
  import opened Ledger
  import opened Coin
  import opened CoinRuns
  import opened CoinSafety

  /** The row's lease has not run out. */
  predicate Leased(row: Generation, now: Time) {
    row.leaseUntil.Some? && now < row.leaseUntil.value
  }

  /** The call's evidence is still being generated through its row. */
  predicate StillGenerates(s: System, g: GenId)
    requires g in s.calls
  {
    var e := s.calls[g].evidence;
    e in s.db.evidence && s.db.evidence[e].state == Generating && s.db.evidence[e].generation == Some(g)
  }

  lemma LeasesAgree(s: System, g: GenId, now: Time)
    requires Inv(s) && g in s.calls
    ensures g in s.db.gens
    ensures OwnsLease(s.db.evidence, s.calls[g].evidence, s.calls[g].token, now)
       <==> StillGenerates(s, g) && Leased(s.db.gens[g], now)
  {
    var e := s.calls[g].evidence;
    if OwnsLease(s.db.evidence, e, s.calls[g].token, now) {
      TokenNamesGeneration(s.db, e, g, s.calls[g].token, now);
    }
    if e in s.db.evidence {
      assert Coupled(s.db.gens, s.db.evidence[e]);
    }
  }

  /** A winner's call starts exactly while its row is PREPARED under its lease. */
  lemma {:induction false} StartCommitsIff(actions: seq<Action>, g: GenId, now: Time)
    requires g in Run(actions).calls && !Run(actions).calls[g].started
    ensures var s := Run(actions);
      var s' := Step(s, Start(g, now));
      && g in s.db.gens
      && if s.db.gens[g].state == Prepared && Leased(s.db.gens[g], now) then
           && s'.db.gens == s.db.gens[g := s.db.gens[g].(state := CallStarted, callStartedAt := Some(now))]
           && s'.db.evidence == s.db.evidence && s'.calls == s.calls[g := s.calls[g].(started := true)] && s'.wire == s.wire
         else s' == s
  {
    EveryRunIsCoupled(actions);
    StartOne(Run(actions).db.gens, g, Run(actions).calls[g].token, now);
  }

  /** A good answer is stored exactly while the started call's lease runs and its evidence
      still generates through it; then both rows hold this very link, for a day. */
  lemma {:induction false} AnswerCommitsIff(actions: seq<Action>, g: GenId, now: Time, link: Link, mode: Mode)
    requires g in Run(actions).calls && Run(actions).calls[g].wireEntered
    ensures var s := Run(actions);
      var s' := Step(s, Succeed(g, now, link, mode));
      && g in s.db.gens
      && var row := s.db.gens[g];
      var e := s.calls[g].evidence;
      if row.state == CallStarted && Leased(row, now) && row.callStartedAt.Some? && row.callStartedAt.value <= now
         && StillGenerates(s, g) then
        && s'.db.gens == s.db.gens[g := row.(
             state := Confirmed, leaseUntil := None,
             confirmation := Some(Confirmation(link, now, now + 86400, CoinShort, mode)))]
        && s'.db.evidence == s.db.evidence[e := s.db.evidence[e].(
             state := Ready, lease := None, ready := Some(ReadyLink(link, now, now + 86400, mode)))]
        && s'.calls == s.calls && s'.wire == s.wire
      else s' == s
  {
    EveryRunIsCoupled(actions);
    LeasesAgree(Run(actions), g, now);
  }

  /** An end without a link is stored exactly while the call's evidence still generates through
      a leased row: FAILED if no call had started, and as the answer says if one had. */
  lemma {:induction false} FailureCommitsIff(actions: seq<Action>, g: GenId, now: Time, rejected: bool)
    requires g in Run(actions).calls && (rejected ==> Run(actions).calls[g].wireEntered)
    ensures var s := Run(actions);
      var s' := Step(s, if rejected then Reject(g, now) else GiveUp(g, now));
      && g in s.db.gens
      && var row := s.db.gens[g];
      var e := s.calls[g].evidence;
      if StillGenerates(s, g) && Leased(row, now) then
        && s'.db.gens == s.db.gens[g := row.(
             state := if row.callStartedAt.None? then Failed else if rejected then Rejected else Uncertain, leaseUntil := None)]
        && s'.db.evidence == s.db.evidence[e := s.db.evidence[e].(
             state := if rejected then ReviewRequired else Undecided, lease := None)]
        && s'.calls == s.calls && s'.wire == s.wire
      else s' == s
  {
    EveryRunIsCoupled(actions);
    var s := Run(actions);
    LeasesAgree(s, g, now);
    if StillGenerates(s, g) {
      assert Coupled(s.db.gens, s.db.evidence[s.calls[g].evidence]);
      OneRowFails(s.db.gens, g, if rejected then Rejected else Uncertain);
    }
  }

  lemma OneRowFails(rows: Rows, g: GenId, state: State)
    requires g in rows && Open(rows[g])
    ensures Fail(rows, {g}, state) == rows[g := rows[g].(
      state := if rows[g].callStartedAt.None? then Failed else state, leaseUntil := None)]
  {
    var failed := Fail(rows, {g}, state);
    assert failed == rows[g := failed[g]];
  }

  /** recover ends exactly what a lease that ran out held, in both tables. */
  lemma {:induction false} RecoveryEndsExpired(actions: seq<Action>, now: Time)
    ensures var s := Run(actions);
      var s' := Step(s, RecoverAt(now));
      && s'.calls == s.calls && s'.wire == s.wire
      && s'.db.gens.Keys == s.db.gens.Keys && s'.db.evidence.Keys == s.db.evidence.Keys
      && (forall g | g in s.db.gens ::
            var row := s.db.gens[g];
            s'.db.gens[g] ==
              if (row.state == Prepared || row.state == CallStarted) && !Leased(row, now)
              then row.(state := if row.callStartedAt.None? then Failed else Uncertain, leaseUntil := None) else row)
      && (forall e | e in s.db.evidence ::
            var row := s.db.evidence[e];
            s'.db.evidence[e] ==
              if row.state == Generating && row.lease.Some? && row.lease.value.until <= now
              then row.(state := Undecided, lease := None) else row)
  {
    EveryRunIsCoupled(actions);
    var s := Run(actions);
    forall e | e in s.db.evidence
      ensures Coupled(s.db.gens, s.db.evidence[e])
    {
    }
  }
}
