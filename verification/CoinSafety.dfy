/** What every run of the coin-short generator guarantees. */
module CoinSafety {
  import opened Prelude
  import opened Ledger
  import opened Coin
  import opened CoinRuns

  // ------------------------------------------------------------- run machinery

  lemma StepKeepsInv(s: System, a: Action)
    requires Inv(s)
    ensures Inv(Step(s, a))
  {
    match a
    case RecoverAt(now) => RecoverKeepsInv(s, now);
    case ClaimAt(r, now, g, token, slot) => ClaimKeepsInv(s, r, now, g, token, slot);
    case Start(g, now) => StartKeepsInv(s, g, now);
    case EnterWire(g) => EnterWireKeepsInv(s, g);
    case Succeed(g, now, link, mode) => SucceedKeepsInv(s, g, now, link, mode);
    case Reject(g, now) =>
      if g in s.calls && s.calls[g].wireEntered { FailKeepsInv(s, g, now, Rejected, ReviewRequired); }
    case GiveUp(g, now) =>
      if g in s.calls { FailKeepsInv(s, g, now, Uncertain, Undecided); }
  }

  /** The invariant, and with it the coupling of both tables, holds in every run. */
  lemma {:induction false} EveryRunIsCoupled(actions: seq<Action>)
    ensures Inv(Run(actions))
  {
    if actions != [] {
      EveryRunIsCoupled(actions[..|actions| - 1]);
      StepKeepsInv(Run(actions[..|actions| - 1]), actions[|actions| - 1]);
    }
  }

  /** Split a longer run before its last action. */
  lemma RunSnoc(a: seq<Action>, b: seq<Action>)
    requires b != []
    ensures Run(a + b) == Step(Run(a + b[..|b| - 1]), b[|b| - 1])
  {
    var n := |b| - 1;
    assert (a + b)[..|a + b| - 1] == a + b[..n];
    assert (a + b)[|a + b| - 1] == b[n];
  }

  lemma StepGoesForward(s: System, a: Action)
    requires Inv(s)
    ensures Later(s.db.gens, Step(s, a).db.gens)
  {
    match a
    case RecoverAt(now) => SweepKeepsLedger(s.db.gens, now);
    case ClaimAt(r, now, g, token, slot) =>
      if CanClaim(s.db, now, g, token, slot) && ClaimTx(s.db, r, now, g, token, slot).Ok? {
        ClaimEffect(s.db, r, now, g, token, slot);
      }
    case Start(g, now) =>
      if g in s.calls {
        StartOne(s.db.gens, g, s.calls[g].token, now);
      }
    case EnterWire(g) =>
    case Succeed(g, now, link, mode) =>
      SucceedEffect(s, g, now, link, mode);
      if Step(s, a) != s {
        ConfirmKeepsLedger(s.db.gens, g, Confirmation(link, now, now + LINK_TTL, CoinShort, mode));
      }
    case Reject(g, now) => FailGoesForward(s, g, now, Rejected, ReviewRequired);
    case GiveUp(g, now) => FailGoesForward(s, g, now, Uncertain, Undecided);
  }

  lemma FailGoesForward(s: System, g: GenId, now: Time, ledgerState: State, evidenceState: EvidenceState)
    requires Inv(s) && (ledgerState == Rejected || ledgerState == Uncertain)
    ensures g in s.calls ==> Later(s.db.gens, StepFail(s, g, now, ledgerState, evidenceState).db.gens)
  {
    if g in s.calls {
      FailEffect(s, g, now, ledgerState, evidenceState);
      FailKeepsLedger(s.db.gens, {g}, ledgerState);
    }
  }

  lemma LaterTransitive(a: Rows, b: Rows, c: Rows)
    requires Later(a, b) && Later(b, c)
    ensures Later(a, c)
  {
  }

  /** A ledger row that is no longer open, CONFIRMED ones included, never changes again. */
  lemma {:induction false} EndedRowsNeverChange(a: seq<Action>, b: seq<Action>)
    ensures Later(Run(a).db.gens, Run(a + b).db.gens)
  {
    if b == [] {
      assert a + b == a;
    } else {
      var n := |b| - 1;
      EndedRowsNeverChange(a, b[..n]);
      EveryRunIsCoupled(a + b[..n]);
      RunSnoc(a, b);
      StepGoesForward(Run(a + b[..n]), b[n]);
      LaterTransitive(Run(a).db.gens, Run(a + b[..n]).db.gens, Run(a + b).db.gens);
    }
  }

  // ------------------------------------------------------------ no second call

  /** No request is sent twice, and of all the calls started for one identity at most one
      is not confirmed. */
  lemma {:induction false} AtMostOneUnconfirmedCall(actions: seq<Action>, g: GenId, h: GenId)
    ensures var s := Run(actions);
      && (forall i, j | 0 <= i < j < |s.wire| :: s.wire[i] != s.wire[j])
      && (g in s.wire ==> g in s.db.gens && s.db.gens[g].callStartedAt.Some?)
      && ((g in s.db.gens && h in s.db.gens && s.db.gens[g].identity == s.db.gens[h].identity
           && s.db.gens[g].state != Confirmed && s.db.gens[h].state != Confirmed) ==> g == h)
  {
    EveryRunIsCoupled(actions);
  }

  function StartedCalls(s: System, identity: Identity): set<GenId> {
    set g | g in s.db.gens && s.db.gens[g].identity == identity && s.db.gens[g].callStartedAt.Some?
  }

  ghost predicate EndedUnconfirmed(s: System, g: GenId) {
    && g in s.db.gens && !Open(s.db.gens[g]) && s.db.gens[g].state != Confirmed
  }

  lemma StepStartsNothing(s: System, a: Action, g: GenId)
    requires Inv(s) && EndedUnconfirmed(s, g)
    ensures EndedUnconfirmed(Step(s, a), g)
    ensures StartedCalls(Step(s, a), s.db.gens[g].identity) == StartedCalls(s, s.db.gens[g].identity)
  {
    StepGoesForward(s, a);
    var s' := Step(s, a);
    var i := s.db.gens[g].identity;
    forall h | h in StartedCalls(s', i) ensures h in StartedCalls(s, i) {
      if h !in s.db.gens {
        NewRowsAreNotStarted(s, a, h);
      } else if s.db.gens[h].callStartedAt.None? {
        OnlyStartStarts(s, a, h);
        assert Blocking(s.db.gens[h]) && Blocking(s.db.gens[g]);
      }
    }
  }

  lemma NewRowsAreNotStarted(s: System, a: Action, h: GenId)
    requires Inv(s) && h !in s.db.gens && h in Step(s, a).db.gens
    ensures Step(s, a).db.gens[h].callStartedAt.None?
  {
    match a
    case ClaimAt(r, now, g, token, slot) => ClaimEffect(s.db, r, now, g, token, slot);
    case Start(g, now) => if g in s.calls { StartOne(s.db.gens, g, s.calls[g].token, now); }
    case _ =>
  }

  lemma OnlyStartStarts(s: System, a: Action, h: GenId)
    requires Inv(s) && h in s.db.gens && s.db.gens[h].callStartedAt.None?
    requires h in Step(s, a).db.gens && Step(s, a).db.gens[h].callStartedAt.Some?
    ensures Open(s.db.gens[h])
  {
    StepGoesForward(s, a);
  }

  /** Once a generation of an identity ends FAILED, REJECTED or UNCERTAIN, no call is ever
      started for that identity again, and only calls already started reach the wire. */
  lemma {:induction false} UnconfirmedEndBlocksIdentity(a: seq<Action>, b: seq<Action>, g: GenId)
    requires EndedUnconfirmed(Run(a), g)
    ensures EndedUnconfirmed(Run(a + b), g)
    ensures var i := Run(a).db.gens[g].identity;
      && Run(a + b).db.gens[g].identity == i
      && StartedCalls(Run(a + b), i) == StartedCalls(Run(a), i)
      && forall h | h in Run(a + b).wire ::
           h in Run(a + b).db.gens && (Run(a + b).db.gens[h].identity == i ==> h in StartedCalls(Run(a), i))
  {
    EveryRunIsCoupled(a + b);
    EndedRowsNeverChange(a, b);
    if b == [] {
      assert a + b == a;
    } else {
      var n := |b| - 1;
      UnconfirmedEndBlocksIdentity(a, b[..n], g);
      EveryRunIsCoupled(a + b[..n]);
      RunSnoc(a, b);
      StepStartsNothing(Run(a + b[..n]), b[n], g);
    }
  }

  /** Only the start of a call is fenced: a generation that ended unconfirmed may still send
      its request exactly when its call had been started. */
  lemma {:induction false} LateRequestIffStarted(a: seq<Action>, g: GenId)
    requires EndedUnconfirmed(Run(a), g) && g !in Run(a).wire
    ensures (exists b: seq<Action> :: g in Run(a + b).wire) <==> Run(a).db.gens[g].callStartedAt.Some?
  {
    EveryRunIsCoupled(a);
    RunOne(a, EnterWire(g));
    if Run(a).db.gens[g].callStartedAt.Some? {
      assert g in Run(a + [EnterWire(g)]).wire;
    }
    forall b: seq<Action> | g in Run(a + b).wire ensures Run(a).db.gens[g].callStartedAt.Some? {
      UnconfirmedEndBlocksIdentity(a, b, g);
    }
  }

  /** It happens: a worker that committed the start just before its lease was swept still
      sends its request. */
  lemma WireMayFollowTheSweep()
    ensures exists actions: seq<Action>, g: GenId ::
      && g !in Run(actions).wire && EndedUnconfirmed(Run(actions), g)
      && g in Run(actions + [EnterWire(g)]).wire
  {
    var r := Request(1, 2, 3);
    var none: seq<Action> := [];
    var one := none + [ClaimAt(r, 0, 7, 9, 1)];
    var two := one + [Start(7, 10)];
    var run := two + [RecoverAt(400)];
    RunOne(none, ClaimAt(r, 0, 7, 9, 1));
    RunOne(one, Start(7, 10));
    RunOne(two, RecoverAt(400));
    RunOne(run, EnterWire(7));
    ClaimedAlone(r);
    SweptBeforeWire(Run(one), r);
    assert EndedUnconfirmed(Run(run), 7) && 7 !in Run(run).wire && 7 in Run(run + [EnterWire(7)]).wire;
  }

  lemma RunOne(actions: seq<Action>, a: Action)
    ensures Run(actions + [a]) == Step(Run(actions), a)
  {
    RunSnoc(actions, [a]);
    assert actions + [a][..0] == actions;
  }

  /** The first claim of all wins. */
  lemma ClaimedAlone(r: Request)
    ensures var s := Step(Initial(), ClaimAt(r, 0, 7, 9, 1));
      && s.db.gens == map[7 := WonGeneration(r, 0, 9)] && s.calls == map[7 := Call(1, 9, false, false)]
      && s.wire == []
  {
    assert Purged(Initial().db.evidence, 0) == map[];
    ClaimEffect(Initial().db, r, 0, 7, 9, 1);
  }

  lemma SweptBeforeWire(s: System, r: Request)
    requires s.db.gens == map[7 := WonGeneration(r, 0, 9)] && s.calls == map[7 := Call(1, 9, false, false)] && s.wire == []
    ensures var s2 := Step(s, Start(7, 10));
      var s3 := Step(s2, RecoverAt(400));
      EndedUnconfirmed(s3, 7) && s3.wire == [] && Step(s3, EnterWire(7)).wire == [7]
  {
    StartOne(s.db.gens, 7, 9, 10);
    var s2 := Step(s, Start(7, 10));
    assert s2.calls == map[7 := Call(1, 9, true, false)] && s2.wire == [];
    assert s2.db.gens == map[7 := WonGeneration(r, 0, 9).(state := CallStarted, callStartedAt := Some(10))];
    var s3 := Step(s2, RecoverAt(400));
    assert s3.calls == s2.calls && s3.db.gens == Sweep(s2.db.gens, 400);
  }

  // ----------------------------------------------------- claims after recovery

  /** generate recovers leases before it claims, at the same reading of its clock; whoever
      claims in between reads a clock that is behind by less than a lease. */
  ghost predicate RecoversFirst(actions: seq<Action>) {
    forall i | 0 <= i < |actions| && actions[i].ClaimAt? :: exists j :: RecoveredAt(actions, j, i)
  }

  predicate RecoveredAt(actions: seq<Action>, j: int, i: nat)
    requires i < |actions| && actions[i].ClaimAt?
  {
    && 0 <= j < i && actions[j] == RecoverAt(actions[i].now)
    && forall k | j < k < i && actions[k].ClaimAt? :: actions[k].now + LEASE > actions[i].now
  }

  /** Evidence and ledger end together: nothing is UNCERTAIN on one side only. */
  ghost predicate EndTogether(db: Db) {
    forall e | e in db.evidence && db.evidence[e].state == Undecided ::
      && db.evidence[e].generation.Some? && db.evidence[e].generation.value in db.gens
      && !Open(db.gens[db.evidence[e].generation.value])
  }

  ghost predicate NoneExpired(db: Db, now: Time) {
    forall e | e in db.evidence && db.evidence[e].state == Generating ::
      db.evidence[e].lease.Some? && db.evidence[e].lease.value.until > now
  }

  lemma RecoverLeavesNoneExpired(s: System, now: Time)
    requires Inv(s)
    ensures NoneExpired(Step(s, RecoverAt(now)).db, now)
  {
    forall e | e in s.db.evidence ensures Coupled(s.db.gens, s.db.evidence[e]) {
    }
  }

  lemma StepKeepsNoneExpired(s: System, a: Action, now: Time)
    requires Inv(s) && NoneExpired(s.db, now) && (a.ClaimAt? ==> a.now + LEASE > now)
    ensures NoneExpired(Step(s, a).db, now)
  {
    forall e | e in Step(s, a).db.evidence && Step(s, a).db.evidence[e].state == Generating
      ensures Step(s, a).db.evidence[e].lease.Some? && Step(s, a).db.evidence[e].lease.value.until > now
    {
      GeneratingIsOldOrWon(s, a, e);
      if a.ClaimAt? {
        ClaimedLease(s, a, e);
      }
    }
  }

  /** Evidence that a claim leaves generating is as it was, or has the new lease. */
  lemma ClaimedLease(s: System, a: Action, e: EvidenceId)
    requires Inv(s) && a.ClaimAt? && e in Step(s, a).db.evidence && Step(s, a).db.evidence[e].state == Generating
    ensures (e in s.db.evidence && s.db.evidence[e] == Step(s, a).db.evidence[e])
         || Step(s, a).db.evidence[e].lease == Some(Lease(a.token, a.now + LEASE))
  {
    if CanClaim(s.db, a.now, a.g, a.token, a.slot) && ClaimTx(s.db, a.r, a.now, a.g, a.token, a.slot).Ok? {
      ClaimEffect(s.db, a.r, a.now, a.g, a.token, a.slot);
    }
  }

  lemma {:induction false} NoneExpiredSince(a: seq<Action>, b: seq<Action>, now: Time)
    requires NoneExpired(Run(a).db, now)
    requires forall k | 0 <= k < |b| && b[k].ClaimAt? :: b[k].now + LEASE > now
    ensures NoneExpired(Run(a + b).db, now)
  {
    if b == [] {
      assert a + b == a;
    } else {
      var n := |b| - 1;
      NoneExpiredSince(a, b[..n], now);
      NoneExpiredAfter(a + b[..n], b[n], now);
      assert a + b == a + b[..n] + [b[n]];
    }
  }

  lemma NoneExpiredAfter(actions: seq<Action>, a: Action, now: Time)
    requires a == RecoverAt(now) || (NoneExpired(Run(actions).db, now) && (a.ClaimAt? ==> a.now + LEASE > now))
    ensures NoneExpired(Run(actions + [a]).db, now)
  {
    var s := Run(actions);
    EveryRunIsCoupled(actions);
    RunOne(actions, a);
    if a == RecoverAt(now) {
      RecoverLeavesNoneExpired(s, now);
    } else {
      StepKeepsNoneExpired(s, a, now);
    }
  }

  lemma StepEndsTogether(s: System, a: Action)
    requires Inv(s) && EndTogether(s.db) && (a.ClaimAt? ==> NoneExpired(s.db, a.now))
    ensures EndTogether(Step(s, a).db)
  {
    match a
    case RecoverAt(now) => RecoverEndsBoth(s.db, now);
    case ClaimAt(r, now, g, token, slot) => ClaimEndsNothing(s, a);
    case Start(g, now) => if g in s.calls { StartOne(s.db.gens, g, s.calls[g].token, now); }
    case EnterWire(_) =>
    case Succeed(g, now, link, mode) => SucceedEffect(s, g, now, link, mode);
    case Reject(g, now) => if g in s.calls { FailureEndsBoth(s, g, now, Rejected, ReviewRequired); }
    case GiveUp(g, now) => if g in s.calls { FailureEndsBoth(s, g, now, Uncertain, Undecided); }
  }

  lemma RecoverEndsBoth(db: Db, now: Time)
    requires LedgerOk(db.gens) && EndTogether(db)
    ensures EndTogether(Recover(db, now))
  {
    SweepKeepsLedger(db.gens, now);
  }

  lemma ClaimEndsNothing(s: System, a: Action)
    requires EndTogether(s.db) && a.ClaimAt? && NoneExpired(s.db, a.now)
    ensures EndTogether(Step(s, a).db)
  {
    if CanClaim(s.db, a.now, a.g, a.token, a.slot) && ClaimTx(s.db, a.r, a.now, a.g, a.token, a.slot).Ok? {
      ClaimEffect(s.db, a.r, a.now, a.g, a.token, a.slot);
      assert SweepLeases(s.db.evidence, a.now) == s.db.evidence;
    }
  }

  /** A committed claim leaves UNCERTAIN evidence on an open ledger row exactly when it finds
      a lease that no recovery has ended yet. */
  lemma {:induction false} ClaimEndsBothIff(actions: seq<Action>, a: Action)
    requires a.ClaimAt? && EndTogether(Run(actions).db)
    requires var s := Run(actions);
      CanClaim(s.db, a.now, a.g, a.token, a.slot) && ClaimTx(s.db, a.r, a.now, a.g, a.token, a.slot).Ok?
    ensures EndTogether(Run(actions + [a]).db) <==> NoneExpired(Run(actions).db, a.now)
  {
    var s := Run(actions);
    EveryRunIsCoupled(actions);
    RunOne(actions, a);
    ClaimEffect(s.db, a.r, a.now, a.g, a.token, a.slot);
    if NoneExpired(s.db, a.now) {
      ClaimEndsNothing(s, a);
    } else {
      ExpiredLeaseEndsAlone(s, a);
    }
  }

  lemma ExpiredIsSwept(db: Db, now: Time) returns (e: EvidenceId)
    requires Coupling(db) && !NoneExpired(db, now)
    ensures e in Purged(db.evidence, now) && e in db.evidence && Purged(db.evidence, now)[e].state == Undecided
    ensures var g := Purged(db.evidence, now)[e].generation; g.Some? && g.value in db.gens && Open(db.gens[g.value])
  {
    e :| e in db.evidence && db.evidence[e].state == Generating
         && !(db.evidence[e].lease.Some? && db.evidence[e].lease.value.until > now);
    assert Coupled(db.gens, db.evidence[e]);
  }

  lemma ExpiredLeaseEndsAlone(s: System, a: Action)
    requires Coupling(s.db) && a.ClaimAt? && !NoneExpired(s.db, a.now)
    requires CanClaim(s.db, a.now, a.g, a.token, a.slot) && ClaimTx(s.db, a.r, a.now, a.g, a.token, a.slot).Ok?
    ensures !EndTogether(Step(s, a).db)
  {
    ClaimEffect(s.db, a.r, a.now, a.g, a.token, a.slot);
    var e := ExpiredIsSwept(s.db, a.now);
    assert Step(s, a).db.evidence[e] == Purged(s.db.evidence, a.now)[e];
  }

  lemma FailureEndsBoth(s: System, g: GenId, now: Time, ledgerState: State, evidenceState: EvidenceState)
    requires Inv(s) && EndTogether(s.db) && g in s.calls && (ledgerState == Rejected || ledgerState == Uncertain)
    ensures EndTogether(StepFail(s, g, now, ledgerState, evidenceState).db)
  {
    FailEffect(s, g, now, ledgerState, evidenceState);
    if StepFail(s, g, now, ledgerState, evidenceState) != s {
      TokenNamesGeneration(s.db, s.calls[g].evidence, g, s.calls[g].token, now);
    }
  }

  /** With leases recovered first, as generate does, the coupling is exact: UNCERTAIN
      evidence always points at a ledger row that has ended as well. */
  lemma {:induction false} UncertainEndsBoth(actions: seq<Action>)
    requires RecoversFirst(actions)
    ensures EndTogether(Run(actions).db)
  {
    if actions != [] {
      var n := |actions| - 1;
      var init := actions[..n];
      forall i | 0 <= i < |init| && init[i].ClaimAt? ensures exists j :: RecoveredAt(init, j, i) {
        assert actions[i] == init[i];
        var j :| RecoveredAt(actions, j, i);
        assert RecoveredAt(init, j, i);
      }
      UncertainEndsBoth(init);
      LastEndsTogether(actions);
    }
  }

  lemma LastEndsTogether(actions: seq<Action>)
    requires actions != [] && EndTogether(Run(actions[..|actions| - 1]).db)
    requires var n := |actions| - 1; actions[n].ClaimAt? ==> exists j :: RecoveredAt(actions, j, n)
    ensures EndTogether(Run(actions).db)
  {
    var n := |actions| - 1;
    if actions[n].ClaimAt? {
      var j :| RecoveredAt(actions, j, n);
      NoneExpiredAfter(actions[..j], actions[j], actions[n].now);
      assert actions[..j] + [actions[j]] == actions[..j + 1];
      NoneExpiredSince(actions[..j + 1], actions[j + 1..n], actions[n].now);
      assert actions[..j + 1] + actions[j + 1..n] == actions[..n];
    }
    EveryRunIsCoupled(actions[..n]);
    StepEndsTogether(Run(actions[..n]), actions[n]);
  }

  // ------------------------------------------------------------- late workers

  /** The evidence of an unconfirmed generation is no longer generating through it. */
  ghost predicate Abandoned(s: System, g: GenId) {
    && g in s.db.gens && s.db.gens[g].state != Confirmed
    && forall e | e in s.db.evidence && s.db.evidence[e].state == Generating
         :: s.db.evidence[e].generation != Some(g)
  }

  /** Evidence starts generating only by winning a claim, through a new ledger row. */
  lemma GeneratingIsOldOrWon(s: System, a: Action, e: EvidenceId)
    requires Inv(s) && e in Step(s, a).db.evidence && Step(s, a).db.evidence[e].state == Generating
    ensures (e in s.db.evidence && s.db.evidence[e] == Step(s, a).db.evidence[e])
         || (Step(s, a).db.evidence[e].generation.Some? && Step(s, a).db.evidence[e].generation.value !in s.db.gens)
  {
    match a
    case ClaimAt(r, now, h, token, slot) =>
      if CanClaim(s.db, now, h, token, slot) && ClaimTx(s.db, r, now, h, token, slot).Ok? {
        ClaimEffect(s.db, r, now, h, token, slot);
      }
    case Start(h, now) => if h in s.calls { StartOne(s.db.gens, h, s.calls[h].token, now); }
    case Succeed(h, now, link, mode) => SucceedEffect(s, h, now, link, mode);
    case Reject(h, now) => if h in s.calls { FailEffect(s, h, now, Rejected, ReviewRequired); }
    case GiveUp(h, now) => if h in s.calls { FailEffect(s, h, now, Uncertain, Undecided); }
    case _ =>
  }

  lemma SucceedingOwnsEvidence(s: System, h: GenId, now: Time, link: Link, mode: Mode, g: GenId)
    requires Inv(s) && g in s.db.gens && s.db.gens[g].state != Confirmed
    requires var s' := Step(s, Succeed(h, now, link, mode)); g in s'.db.gens && s'.db.gens[g].state == Confirmed
    ensures exists e | e in s.db.evidence :: s.db.evidence[e].state == Generating && s.db.evidence[e].generation == Some(g)
  {
    SucceedEffect(s, h, now, link, mode);
    TokenNamesGeneration(s.db, s.calls[h].evidence, h, s.calls[h].token, now);
    assert s.db.evidence[s.calls[h].evidence].generation == Some(g);
  }

  /** A row becomes CONFIRMED only while its own evidence is still generating through it. */
  lemma ConfirmingOwnsEvidence(s: System, a: Action, g: GenId)
    requires Inv(s) && g in s.db.gens && s.db.gens[g].state != Confirmed
    requires g in Step(s, a).db.gens && Step(s, a).db.gens[g].state == Confirmed
    ensures exists e | e in s.db.evidence :: s.db.evidence[e].state == Generating && s.db.evidence[e].generation == Some(g)
  {
    match a
    case ClaimAt(r, now, h, token, slot) => ClaimEffect(s.db, r, now, h, token, slot);
    case Start(h, now) => if h in s.calls { StartOne(s.db.gens, h, s.calls[h].token, now); }
    case Succeed(h, now, link, mode) => SucceedingOwnsEvidence(s, h, now, link, mode, g);
    case Reject(h, now) => if h in s.calls { FailEffect(s, h, now, Rejected, ReviewRequired); }
    case GiveUp(h, now) => if h in s.calls { FailEffect(s, h, now, Uncertain, Undecided); }
    case _ =>
  }

  lemma StepKeepsAbandoned(s: System, a: Action, g: GenId)
    requires Inv(s) && Abandoned(s, g)
    ensures Abandoned(Step(s, a), g)
  {
    StepGoesForward(s, a);
    var s' := Step(s, a);
    if s'.db.gens[g].state == Confirmed {
      ConfirmingOwnsEvidence(s, a, g);
    }
    forall e | e in s'.db.evidence && s'.db.evidence[e].state == Generating
      ensures s'.db.evidence[e].generation != Some(g)
    {
      GeneratingIsOldOrWon(s, a, e);
    }
  }

  /** A worker whose evidence was taken from it comes back too late, whatever its clock
      says: confirm and finish_ready roll back together, for ever. */
  lemma {:induction false} LateWorkerNeverConfirms(a: seq<Action>, b: seq<Action>, g: GenId)
    requires Abandoned(Run(a), g)
    ensures Abandoned(Run(a + b), g)
  {
    if b == [] {
      assert a + b == a;
    } else {
      var n := |b| - 1;
      LateWorkerNeverConfirms(a, b[..n], g);
      EveryRunIsCoupled(a + b[..n]);
      RunSnoc(a, b);
      StepKeepsAbandoned(Run(a + b[..n]), b[n], g);
    }
  }

  // ------------------------------------------------------------ READY evidence

  /** claim validates every expired READY row before deleting it; no reachable row fails. */
  lemma {:induction false} PurgeNeverFails(actions: seq<Action>, r: Request, now: Time, token: Token, slot: EvidenceId)
    requires slot !in Purged(Run(actions).db.evidence, now)
    ensures ClaimEvidence(Run(actions).db, r, now, token, slot).Ok?
    ensures forall e | e in Run(actions).db.evidence && Run(actions).db.evidence[e].state == Ready
              :: Valid(Run(actions).db.gens, Run(actions).db.evidence[e])
  {
    EveryRunIsCoupled(actions);
    var db := Run(actions).db;
    forall e | e in db.evidence && db.evidence[e].state == Ready ensures Valid(db.gens, db.evidence[e]) {
      assert Coupled(db.gens, db.evidence[e]);
    }
  }

  ghost predicate ClaimsAfter(a: Action, deadline: Time) {
    a.ClaimAt? && a.now >= deadline
  }

  /** The evidence that an action deletes. */
  function PurgedBy(s: System, a: Action): set<EvidenceId> {
    if && a.ClaimAt? && CanClaim(s.db, a.now, a.g, a.token, a.slot)
       && ClaimTx(s.db, a.r, a.now, a.g, a.token, a.slot).Ok?
    then ExpiredIds(SweepLeases(s.db.evidence, a.now), a.now) else {}
  }

  lemma PurgedIsExpired(s: System, a: Action, e: EvidenceId)
    requires Inv(s) && e in PurgedBy(s, a)
    ensures e in s.db.evidence && s.db.evidence[e].state == Ready && s.db.evidence[e].ready.Some?
    ensures ClaimsAfter(a, s.db.evidence[e].ready.value.expiresAt)
  {
  }

  lemma StepKeepsReady(s: System, a: Action, e: EvidenceId)
    requires Inv(s) && e in s.db.evidence && s.db.evidence[e].state == Ready && e !in PurgedBy(s, a)
    ensures e in Step(s, a).db.evidence && Step(s, a).db.evidence[e] == s.db.evidence[e]
  {
    assert Coupled(s.db.gens, s.db.evidence[e]);
    RowKeepsReady(s, a, e);
  }

  /** No action moves a READY row but the purge. */
  lemma RowKeepsReady(s: System, a: Action, e: EvidenceId)
    requires e in s.db.evidence && s.db.evidence[e].state == Ready && e !in PurgedBy(s, a)
    ensures e in Step(s, a).db.evidence && Step(s, a).db.evidence[e] == s.db.evidence[e]
  {
    match a
    case ClaimAt(r, now, h, token, slot) =>
      if CanClaim(s.db, now, h, token, slot) && ClaimTx(s.db, r, now, h, token, slot).Ok? {
        ClaimEffect(s.db, r, now, h, token, slot);
      }
    case Start(h, now) => if h in s.calls { StartOne(s.db.gens, h, s.calls[h].token, now); }
    case _ =>
  }

  /** READY evidence stays, unchanged, until a claim runs at or after its expiry. */
  lemma {:induction false} ReadyStaysUntilExpiry(a: seq<Action>, b: seq<Action>, e: EvidenceId)
    requires e in Run(a).db.evidence && Run(a).db.evidence[e].state == Ready
    requires Run(a).db.evidence[e].ready.Some?
    requires forall i | 0 <= i < |b| :: !ClaimsAfter(b[i], Run(a).db.evidence[e].ready.value.expiresAt)
    ensures e in Run(a + b).db.evidence && Run(a + b).db.evidence[e] == Run(a).db.evidence[e]
  {
    if b == [] {
      assert a + b == a;
    } else {
      var n := |b| - 1;
      ReadyStaysUntilExpiry(a, b[..n], e);
      EveryRunIsCoupled(a + b[..n]);
      RunSnoc(a, b);
      if e in PurgedBy(Run(a + b[..n]), b[n]) {
        PurgedIsExpired(Run(a + b[..n]), b[n], e);
      }
      StepKeepsReady(Run(a + b[..n]), b[n], e);
    }
  }
}
