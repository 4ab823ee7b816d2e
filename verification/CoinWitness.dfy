/** A reachable state in which generate answers a hit that the probe does not show. */
module CoinWitness {
  import opened Prelude
  import opened Ledger
  import opened Coin
  import opened CoinRuns
  import opened CoinSafety
  import opened CoinProbe

  const MINE := Request(1, 2, 3)
  /** The same input under another tracking. */
  const OTHER := Request(1, 5, 3)

  function ReadyRow(): Evidence {
    Evidence(1, 2, Ready, None, Some(ReadyLink("u", 20, 20 + LINK_TTL, SourceValueExact)), Some(7))
  }

  function ConfirmedRow(): Generation {
    WonGeneration(MINE, 0, 9).(
      state := Confirmed, leaseUntil := None, callStartedAt := Some(10),
      confirmation := Some(Confirmation("u", 20, 20 + LINK_TTL, CoinShort, SourceValueExact)))
  }

  function MineIsReady(): Db {
    Db(map[7 := ConfirmedRow()], map[1 := ReadyRow()])
  }

  function OtherGenerates(): Db {
    Db(map[7 := ConfirmedRow(), 8 := WonGeneration(OTHER, 30, 10)],
       map[1 := ReadyRow(), 2 := WonEvidence(OTHER, 30, 8, 10)])
  }

  lemma FirstIsReady(s: System)
    requires s.db.gens == map[7 := WonGeneration(MINE, 0, 9)] && s.calls == map[7 := Call(1, 9, false, false)]
    requires s.db.evidence == map[1 := WonEvidence(MINE, 0, 7, 9)]
    ensures Step(Step(Step(s, Start(7, 10)), EnterWire(7)), Succeed(7, 20, "u", SourceValueExact)).db == MineIsReady()
  {
    StartOne(s.db.gens, 7, 9, 10);
    var s2 := Step(s, Start(7, 10));
    assert s2.calls == map[7 := Call(1, 9, true, false)] && s2.db.evidence == s.db.evidence;
    assert s2.db.gens == map[7 := WonGeneration(MINE, 0, 9).(state := CallStarted, callStartedAt := Some(10))];
    var s3 := Step(s2, EnterWire(7));
    assert s3.calls == map[7 := Call(1, 9, true, true)] && s3.db == s2.db;
  }

  lemma OtherMayClaim(db: Db)
    requires db == MineIsReady()
    ensures CanClaim(db, 30, 8, 10, 2) && Purged(db.evidence, 30) == db.evidence
    ensures ClaimTx(db, OTHER, 30, 8, 10, 2).Ok? && ClaimTx(db, OTHER, 30, 8, 10, 2).value.1.disposition == Generate
  {
    assert SweepLeases(db.evidence, 30) == db.evidence && ExpiredIds(db.evidence, 30) == {};
    assert Find(db.evidence, 1, 5).None?;
    assert CheckIdentity(db.gens, Identity.Coin(1), 30).None?;
    assert Valid(db.gens, ReadyRow());
    assert Admission(db, OTHER, 30).None?;
  }

  lemma OtherWins(s: System)
    requires s.db == MineIsReady()
    ensures Step(s, ClaimAt(OTHER, 30, 8, 10, 2)).db == OtherGenerates()
  {
    OtherMayClaim(s.db);
    ClaimEffect(s.db, OTHER, 30, 8, 10, 2);
  }

  lemma FirstWins()
    ensures var s := Step(Initial(), ClaimAt(MINE, 0, 7, 9, 1));
      s.db.evidence == map[1 := WonEvidence(MINE, 0, 7, 9)]
  {
    ClaimedAlone(MINE);
    assert Purged(Initial().db.evidence, 0) == map[];
    ClaimEffect(Initial().db, MINE, 0, 7, 9, 1);
  }

  lemma ReadyRun() returns (actions: seq<Action>)
    ensures Run(actions).db == MineIsReady()
  {
    var one: seq<Action> := [] + [ClaimAt(MINE, 0, 7, 9, 1)];
    RunOne([], ClaimAt(MINE, 0, 7, 9, 1));
    ClaimedAlone(MINE);
    FirstWins();
    actions := ReadyAfter(one);
  }

  lemma ReadyAfter(one: seq<Action>) returns (actions: seq<Action>)
    requires Run(one).db.gens == map[7 := WonGeneration(MINE, 0, 9)] && Run(one).calls == map[7 := Call(1, 9, false, false)]
    requires Run(one).db.evidence == map[1 := WonEvidence(MINE, 0, 7, 9)]
    ensures Run(actions).db == MineIsReady()
  {
    FirstIsReady(Run(one));
    RunOne(one, Start(7, 10));
    RunOne(one + [Start(7, 10)], EnterWire(7));
    RunOne(one + [Start(7, 10)] + [EnterWire(7)], Succeed(7, 20, "u", SourceValueExact));
    actions := one + [Start(7, 10)] + [EnterWire(7)] + [Succeed(7, 20, "u", SourceValueExact)];
  }

  lemma OtherGeneratesIsReachable()
    ensures Reachable(OtherGenerates())
  {
    var actions := ReadyRun();
    OtherWins(Run(actions));
    RunOne(actions, ClaimAt(OTHER, 30, 8, 10, 2));
  }

  lemma NothingExpires(db: Db)
    requires db == OtherGenerates()
    ensures Recover(db, 40) == db && Purged(db.evidence, 40) == db.evidence && ExpiredIds(db.evidence, 40) == {}
  {
    assert Sweep(db.gens, 40) == db.gens;
    assert SweepLeases(db.evidence, 40) == db.evidence;
    assert Recover(db, 40).evidence == db.evidence;
  }

  lemma MineIsAHit(db: Db)
    requires db == OtherGenerates() && 3 !in Purged(Recover(db, 40).evidence, 40)
    ensures RealClaim(db, MINE, 40, 9, 11, 3).Ok? && RealClaim(db, MINE, 40, 9, 11, 3).value.1.disposition == Hit
  {
    NothingExpires(db);
    FindKey(db.evidence, 1, 1, 2);
    assert LiveLease(db.evidence[2], 1, 40);
    assert Valid(db.gens, db.evidence[1]);
    assert Admission(db, MINE, 40).None?;
  }

  /** The other direction of the prediction does fail: while another tracking generates the
      same input, generate answers from the cache and the probe raises IN_PROGRESS. */
  lemma HitMayBeHidden() returns (db: Db)
    ensures Reachable(db) && 9 !in db.gens && 3 !in Purged(Recover(db, 40).evidence, 40)
    ensures RealClaim(db, MINE, 40, 9, 11, 3).Ok? && RealClaim(db, MINE, 40, 9, 11, 3).value.1.disposition == Hit
    ensures Inspect(db, MINE, 40) == Err(History(InProgress))
  {
    db := OtherGenerates();
    OtherGeneratesIsReachable();
    NothingExpires(db);
    MineIsAHit(db);
    assert db.evidence[2].input == 1 && db.evidence[2].state == Generating;
    assert SomeoneGenerates(db, 1);
    HitShownUnlessSomeoneGenerates(db, MINE, 40, 9, 11, 3);
  }
}
