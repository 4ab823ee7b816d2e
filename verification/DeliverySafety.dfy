/** What every history of previews and deliveries guarantees. */
module DeliverySafety {
  import opened Prelude
  import opened Ledger
  import opened Outbound
  import opened Deliveries
  import Coin
  import CoinRuns
  import CoinSafety

  // ---------------------------------------------------------------- at most once

  ghost predicate SamePair(t: Tables, a: DeliveryId, b: DeliveryId) {
    a in t.deliveries && b in t.deliveries
    && HasPair(t.deliveries[a], t.deliveries[b].source, t.deliveries[b].destination)
  }

  /** No two messages ever sent carry the same (source message, destination), whatever the
      interleaving of deliveries, crashes, purges and kinds of preview. */
  lemma {:induction false} AtMostOneSend(events: seq<Event>, i: nat, j: nat)
    requires i < |History(events).sends| && j < |History(events).sends|
    requires var w := History(events); SamePair(w.tables, w.sends[i].delivery, w.sends[j].delivery)
    ensures i == j
  {
    EveryHistoryIsSound(events);
    var w := History(events);
    assert w.sends[i].delivery == w.sends[j].delivery;
  }

  /** What a delivery row says about the messages that left: `sent` means one was accepted
      with a valid id, `failed_safe` that none was delivered, no attempt that none left. */
  lemma {:induction false} RowsTellTheTruth(events: seq<Event>, d: DeliveryId)
    ensures var w := History(events);
      d in w.tables.deliveries ==>
      var row := w.tables.deliveries[d];
      && (row.state == Sent ==> row.messageId.Some? && ValidId(row.messageId.value)
                                && Send(d, Accepted(row.messageId.value)) in w.sends)
      && (row.state == FailedSafe ==> forall s | s in w.sends && s.delivery == d :: s.outcome == Refused)
      && (row.attempts == 0 || row.state == Pending ==> forall s | s in w.sends :: s.delivery != d)
  {
    EveryHistoryIsSound(events);
    if d in History(events).tables.deliveries {
      RowTellsTheTruth(History(events), d);
    }
  }

  lemma RowTellsTheTruth(w: World, d: DeliveryId)
    requires AttemptsOk(w) && SendsOk(w) && d in w.tables.deliveries && CountsAttempts(w.tables.deliveries[d])
    ensures var row := w.tables.deliveries[d];
      && (row.state == Sent ==> row.messageId.Some? && ValidId(row.messageId.value)
                                && Send(d, Accepted(row.messageId.value)) in w.sends)
      && (row.state == FailedSafe ==> forall s | s in w.sends && s.delivery == d :: s.outcome == Refused)
      && (row.attempts == 0 || row.state == Pending ==> forall s | s in w.sends :: s.delivery != d)
  {
    assert AttemptOk(w.attempts[d], w.tables.deliveries[d]);
    if w.tables.deliveries[d].state == Sent {
      assert Logged(w.sends, d);
      var i :| 0 <= i < |w.sends| && w.sends[i].delivery == d;
      assert w.sends[i] in w.sends;
    }
  }

  /** Every row has a worker of its own, every message a row: nothing is sent unreserved. */
  lemma {:induction false} EverySendIsReserved(events: seq<Event>, i: nat)
    requires i < |History(events).sends|
    ensures var w := History(events);
      var s := w.sends[i];
      && s.delivery in w.tables.deliveries && w.tables.deliveries[s.delivery].attempts == 1
      && s.delivery in w.attempts && w.attempts[s.delivery].sent == Some(s.outcome)
  {
    EveryHistoryIsSound(events);
    var w := History(events);
    assert AttemptOk(w.attempts[w.sends[i].delivery], w.tables.deliveries[w.sends[i].delivery]);
  }

  /** Row and audit use correspond in every reachable state, stand for the same
      generations as the preview's use, and can only move together. */
  lemma {:induction false} AuditMirrorsDelivery(events: seq<Event>, d: DeliveryId, state: DeliveryState, id: Option<string>)
    requires d in History(events).tables.deliveries && Final(state)
    ensures var t := History(events).tables;
      var row := t.deliveries[d];
      && row.use in t.uses && t.uses[row.use].state == Mirror(row.state)
      && t.uses[row.use].previewUse.Some? && t.uses[row.use].previewUse.value in t.uses
      && Elements(t.uses[row.use].generations) == Elements(t.uses[t.uses[row.use].previewUse.value].generations)
      && (row.state == Pending <==> t.uses[row.use].state in AllowedBefore(SendInFlight))
      && (CanFinish(row, state) <==> t.uses[row.use].state in AllowedBefore(Mirror(state)))
      && (MarkSending(t, d).Ok? <==> row.state == Pending)
      && (Outbound.Finish(t, d, state, id).Ok? <==> CanFinish(row, state))
  {
    EveryHistoryIsSound(events);
    var t := History(events).tables;
    assert DeliveryOk(t, d);
    RowAndAuditMoveTogether(t, d, state, id);
  }

  /** No stored preview fails its validation: get_ready and reserve never raise for one. */
  lemma {:induction false} StoredPreviewsStayValid(events: seq<Event>, key: PreviewKey, destination: Fingerprint, now: Time,
                                d: DeliveryId, u: UseId)
    ensures var w := History(events);
      && GetReady(w.coin.db, w.tables, key, now).Ok?
      && (Reserve(w.coin.db, w.tables, key, destination, d, u).Ok? <==> key in w.tables.previews)
  {
    EveryHistoryIsSound(events);
    var w := History(events);
    if key in w.tables.previews {
      assert PreviewOk(w.coin.db, w.tables, key);
      ValidPreviewIsReserved(w.coin.db, w.tables, key, destination, d, u);
    }
    ValidPreviewIsReady(w.coin.db, w.tables, key, now);
  }

  lemma ValidPreviewIsReady(db: Coin.Db, t: Tables, key: PreviewKey, now: Time)
    requires key in t.previews ==> ValidatePreview(db, t, key).Ok?
    ensures GetReady(db, t, key, now).Ok?
  {
  }

  lemma ValidPreviewIsReserved(db: Coin.Db, t: Tables, key: PreviewKey, destination: Fingerprint, d: DeliveryId, u: UseId)
    requires key in t.previews && PreviewOk(db, t, key)
    ensures Reserve(db, t, key, destination, d, u).Ok?
  {
    var p := t.previews[key];
    var ids := t.uses[p.use].generations;
    assert PreviewUse(t, key) == Ok(ids);
    assert ValidatePreview(db, t, key) == Ok(ids);
    var t1 := t.(deliveries := t.deliveries[d := Delivery(Some(key), p.source, destination, Pending, 0, u, None)]);
    assert RecordSendUse(db.gens, t1, u, p.use, ids, DeliveryKind(key), d, p.source, destination).Ok?;
  }

  // ---------------------------------------------------------- what never comes back

  /** The id of this preview has been given out. */
  ghost predicate Spent(t: Tables, k: PreviewKey) {
    if k.Single? then Recorded(t.uses, k.id) else k.id <= t.multiHigh
  }

  /** Ended rows keep their result; only the preview pointer may go. */
  ghost predicate RowOnward(row: Delivery, row': Delivery) {
    && SameOwner(row, row')
    && (Final(row.state) ==> row'.state == row.state && row'.messageId == row.messageId)
    && row.attempts <= row'.attempts
  }

  ghost predicate UsesOnward(uses: map<UseId, Use>, uses': map<UseId, Use>) {
    forall u | u in uses :: u in uses' && uses'[u] == uses[u].(state := uses'[u].state)
  }

  ghost predicate KeysOnward(t: Tables, t': Tables) {
    && t.multiHigh <= t'.multiHigh
    && forall k | k in t'.previews :: (k in t.previews && t'.previews[k] == t.previews[k]) || !Spent(t, k)
  }

  ghost predicate Onward(w: World, w': World) {
    && UsesOnward(w.tables.uses, w'.tables.uses) && KeysOnward(w.tables, w'.tables)
    && (forall d | d in w.tables.deliveries ::
          d in w'.tables.deliveries && RowOnward(w.tables.deliveries[d], w'.tables.deliveries[d]))
    && w.created <= w'.created && w.sends <= w'.sends
  }

  lemma SpentStays(t: Tables, t': Tables, k: PreviewKey)
    requires UsesOnward(t.uses, t'.uses) && t.multiHigh <= t'.multiHigh && Spent(t, k)
    ensures Spent(t', k)
  {
    if k.Single? {
      var u :| u in t.uses && t.uses[u].kind == CoinPreview && t.uses[u].operationalId == k.id;
      assert t'.uses[u].kind == CoinPreview;
    }
  }

  lemma StoredIsSpent(db: Coin.Db, t: Tables, k: PreviewKey)
    requires TablesOk(db, t) && k in t.previews
    ensures Spent(t, k)
  {
    assert PreviewOk(db, t, k);
  }

  lemma OnwardTransitive(a: World, b: World, c: World)
    requires Onward(a, b) && Onward(b, c)
    ensures Onward(a, c)
  {
    forall k | k in c.tables.previews
      ensures (k in a.tables.previews && c.tables.previews[k] == a.tables.previews[k]) || !Spent(a.tables, k)
    {
      if Spent(a.tables, k) {
        SpentStays(a.tables, b.tables, k);
      }
    }
  }

  lemma CoinActionGoesOnward(w: World, a: CoinRuns.Action)
    ensures Onward(w, Next(w, CoinAction(a)))
  {
    PurgeEffect(w.tables, CoinSafety.PurgedBy(w.coin, a));
  }

  /** The high-water mark lies above every id ever recorded. */
  lemma HighWaterIsFresh(t: Tables, id: nat)
    requires Recorded(t.uses, id)
    ensures id <= Max(SingleIds(t))
  {
    assert id in SingleIds(t);
  }

  lemma SingleGoesOnward(w: World, e: EvidenceId, source: Fingerprint, text: string, now: Time, expires: Time, u: UseId)
    ensures Onward(w, NextSingle(w, e, source, text, now, expires, u))
  {
    if u !in w.tables.uses && SaveSingle(w.coin.db, w.tables, e, source, text, now, expires, u).Ok? {
      SaveSingleEffect(w.coin.db, w.tables, e, source, text, now, expires, u);
      var (t', k, inserted) := SaveSingle(w.coin.db, w.tables, e, source, text, now, expires, u).value;
      if inserted && Spent(w.tables, k) {
        HighWaterIsFresh(w.tables, k.id);
      }
    }
  }

  lemma MultiGoesOnward(w: World, es: seq<EvidenceId>, gs: seq<GenId>, source: Fingerprint, text: string, now: Time, u: UseId)
    ensures Onward(w, NextMulti(w, es, gs, source, text, now, u))
  {
    if u !in w.tables.uses && SaveMulti(w.coin.db, w.tables, es, gs, source, text, now, u).Ok? {
      SaveMultiEffect(w.coin.db, w.tables, es, gs, source, text, now, u);
    }
  }

  lemma ReserveGoesOnward(w: World, key: PreviewKey, destination: Fingerprint, now: Time, d: DeliveryId, u: UseId)
    ensures Onward(w, NextReserve(w, key, destination, now, d, u))
  {
    if d !in w.tables.deliveries && u !in w.tables.uses && Reserve(w.coin.db, w.tables, key, destination, d, u).Ok? {
      ReserveEffect(w.coin.db, w.tables, key, destination, d, u);
    }
  }

  lemma SteppedGoesOnward(w: World, w': World, d: DeliveryId, row: Delivery)
    requires d in w.tables.deliveries && w.tables.deliveries[d].use in w.tables.uses
    requires w'.tables == Stepped(w.tables, d, row) && RowOnward(w.tables.deliveries[d], row)
    requires w'.sends == w.sends && w'.created == w.created
    ensures Onward(w, w')
  {
  }

  lemma SendingGoesOnward(w: World, d: DeliveryId, noticed: bool)
    requires DeliveriesOk(w.tables) && w.attempts.Keys == w.tables.deliveries.Keys
    ensures Onward(w, NextSending(w, d, noticed))
  {
    if NextSending(w, d, noticed) != w {
      RowAndAuditMoveTogether(w.tables, d, InDoubt, None);
      assert DeliveryOk(w.tables, d);
      SteppedGoesOnward(w, NextSending(w, d, noticed), d, w.tables.deliveries[d].(state := Sending, attempts := 1));
    }
  }

  lemma FinishGoesOnward(w: World, d: DeliveryId, committed: bool)
    requires DeliveriesOk(w.tables) && w.attempts.Keys == w.tables.deliveries.Keys
    ensures Onward(w, NextFinish(w, d, committed))
  {
    if d in w.attempts && NextFinish(w, d, committed).tables != w.tables {
      var (state, id) := ResultOf(w.attempts[d]);
      FinishLeaves(w, d, committed);
      assert DeliveryOk(w.tables, d);
      SteppedGoesOnward(w, NextFinish(w, d, committed), d, w.tables.deliveries[d].(state := state, messageId := id));
    }
  }

  lemma CancelledGoesOnward(w: World, d: DeliveryId, committed: bool)
    requires DeliveriesOk(w.tables) && w.attempts.Keys == w.tables.deliveries.Keys
    ensures Onward(w, NextCancelled(w, d, committed))
  {
    if NextCancelled(w, d, committed) != w {
      CancelledLeaves(w, d);
      SteppedGoesOnward(w, NextCancelled(w, d, committed), d,
                        w.tables.deliveries[d].(state := InDoubt, messageId := None));
    }
  }

  lemma SendGoesOnward(w: World, d: DeliveryId, outcome: SendOutcome)
    ensures Onward(w, Next(w, SendText(d, outcome)))
  {
  }

  lemma NextGoesOnward(w: World, e: Event)
    requires DeliveriesOk(w.tables) && w.attempts.Keys == w.tables.deliveries.Keys
    ensures Onward(w, Next(w, e))
  {
    match e
    case CoinAction(a) => CoinActionGoesOnward(w, a);
    case SavedSingle(ev, source, text, now, expires, u) => SingleGoesOnward(w, ev, source, text, now, expires, u);
    case SavedMulti(es, gs, source, text, now, u) => MultiGoesOnward(w, es, gs, source, text, now, u);
    case Reserved(key, destination, now, d, u) => ReserveGoesOnward(w, key, destination, now, d, u);
    case SendText(d, outcome) => SendGoesOnward(w, d, outcome);
    case MarkedSending(d, noticed) => SendingGoesOnward(w, d, noticed);
    case Finished(d, committed) => FinishGoesOnward(w, d, committed);
    case CancelledFinish(d, committed) => CancelledGoesOnward(w, d, committed);
  }

  lemma {:induction false} HistoriesGoOnward(a: seq<Event>, b: seq<Event>)
    ensures Onward(History(a), History(a + b))
  {
    if b == [] {
      assert a + b == a;
    } else {
      var n := |b| - 1;
      HistoriesGoOnward(a, b[..n]);
      EveryHistoryIsSound(a + b[..n]);
      assert (a + b)[..|a + b| - 1] == a + b[..n] && (a + b)[|a + b| - 1] == b[n];
      NextGoesOnward(History(a + b[..n]), b[n]);
      OnwardTransitive(History(a), History(a + b[..n]), History(a + b));
    }
  }

  /** A delivery that has ended keeps its result and its message id for ever. */
  lemma {:induction false} EndedDeliveriesNeverChange(a: seq<Event>, b: seq<Event>, d: DeliveryId)
    requires d in History(a).tables.deliveries && Final(History(a).tables.deliveries[d].state)
    ensures d in History(a + b).tables.deliveries
    ensures var before, after := History(a).tables.deliveries[d], History(a + b).tables.deliveries[d];
      after.state == before.state && after.messageId == before.messageId
      && after.source == before.source && after.destination == before.destination && after.use == before.use
  {
    HistoriesGoOnward(a, b);
  }

  /** A preview id names one message: once seen, it is only ever found again with the same
      content, also after a purge.  So the text re-read before sending is the reserved one. */
  lemma {:induction false} KeyMeansOneMessage(a: seq<Event>, b: seq<Event>, k: PreviewKey)
    ensures var before, after := History(a).tables.previews, History(a + b).tables.previews;
      k in before && k in after ==> after[k] == before[k]
  {
    HistoriesGoOnward(a, b);
    EveryHistoryIsSound(a);
    if k in History(a).tables.previews {
      StoredIsSpent(History(a).coin.db, History(a).tables, k);
    }
  }

  /** A purged id stays purged: no later save_ready hands it out again. */
  lemma {:induction false} PurgedKeyNeverReturns(a: seq<Event>, b: seq<Event>, c: seq<Event>, k: PreviewKey)
    requires k in History(a).tables.previews && k !in History(a + b).tables.previews
    ensures k !in History(a + b + c).tables.previews
  {
    EveryHistoryIsSound(a);
    StoredIsSpent(History(a).coin.db, History(a).tables, k);
    HistoriesGoOnward(a, b);
    SpentStays(History(a).tables, History(a + b).tables, k);
    HistoriesGoOnward(a + b, c);
  }

  /** Singleton ids are handed out in strictly increasing order over the whole run. */
  lemma {:induction false} PreviewIdsOnlyGrow(a: seq<Event>, b: seq<Event>)
    ensures History(a).created <= History(a + b).created
    ensures forall i, j | 0 <= i < j < |History(a + b).created| :: History(a + b).created[i] < History(a + b).created[j]
  {
    HistoriesGoOnward(a, b);
    EveryHistoryIsSound(a + b);
  }

  /** The unique keys of the tables: they decide which row an insert conflicts with. */
  lemma TablesAreUnique(events: seq<Event>)
    ensures OneRowPerPair(History(events).tables.deliveries) && OneKeyPerMessage(History(events).tables.previews)
  {
    EveryHistoryIsSound(events);
  }

  /** Whatever an unfinished worker has seen, the result it stores is accepted. */
  lemma {:induction false} ResultIsAlwaysStored(events: seq<Event>, d: DeliveryId)
    requires d in History(events).attempts && !History(events).attempts[d].done
    ensures var w, w' := History(events), History(events + [Finished(d, true)]);
      var (state, id) := ResultOf(w.attempts[d]);
      && d in w.tables.deliveries && CanFinish(w.tables.deliveries[d], state)
      && Outbound.Finish(w.tables, d, state, id).Ok?
      && d in w'.tables.deliveries
      && w'.tables.deliveries[d].state == state && w'.tables.deliveries[d].messageId == id
  {
    EveryHistoryIsSound(events);
    HistorySnoc(events, Finished(d, true));
    ResultFits(History(events), d);
  }

  /** A worker cancelled while storing `sent` may finish a second time: that leaves a row that
      is sent as it was, and one that is still sending in doubt, never sent. */
  lemma {:induction false} CancelledFinishOnlyDoubts(events: seq<Event>, d: DeliveryId)
    requires d in History(events).attempts && StoredSent(History(events).attempts[d])
    ensures var w, w' := History(events), History(events + [CancelledFinish(d, true)]);
      && d in w.tables.deliveries && d in w'.tables.deliveries
      && var row, row' := w.tables.deliveries[d], w'.tables.deliveries[d];
      && (row.state == Sending || row.state == Sent || row.state == InDoubt)
      && row'.state == (if row.state == Sending then InDoubt else row.state)
      && (row.state != Sending ==> w' == w)
  {
    EveryHistoryIsSound(events);
    HistorySnoc(events, CancelledFinish(d, true));
    CancelledFits(History(events), d);
  }

  lemma CancelledFits(w: World, d: DeliveryId)
    requires AttemptsOk(w) && DeliveriesOk(w.tables) && d in w.attempts && StoredSent(w.attempts[d])
    ensures var w' := Next(w, CancelledFinish(d, true));
      && d in w.tables.deliveries && d in w'.tables.deliveries
      && var row, row' := w.tables.deliveries[d], w'.tables.deliveries[d];
      && (row.state == Sending || row.state == Sent || row.state == InDoubt)
      && row'.state == (if row.state == Sending then InDoubt else row.state)
      && (row.state != Sending ==> w' == w)
  {
    assert AttemptOk(w.attempts[d], w.tables.deliveries[d]);
    RowAndAuditMoveTogether(w.tables, d, InDoubt, None);
  }

  lemma ResultFits(w: World, d: DeliveryId)
    requires AttemptsOk(w) && DeliveriesOk(w.tables) && d in w.attempts && !w.attempts[d].done
    ensures var w' := Next(w, Finished(d, true));
      var (state, id) := ResultOf(w.attempts[d]);
      && d in w.tables.deliveries && CanFinish(w.tables.deliveries[d], state)
      && Outbound.Finish(w.tables, d, state, id).Ok?
      && d in w'.tables.deliveries
      && w'.tables.deliveries[d].state == state && w'.tables.deliveries[d].messageId == id
  {
    assert AttemptOk(w.attempts[d], w.tables.deliveries[d]);
    var (state, id) := ResultOf(w.attempts[d]);
    RowAndAuditMoveTogether(w.tables, d, state, id);
  }
}
