/**
 Whole runs of preview saving and delivery on top of the coin generator: purges,
 crashes, repeated and concurrent deliveries, singleton and multi previews.
 */
module Deliveries {
  import opened Prelude
  import opened Ledger
  import opened Outbound
  import Coin
  import CoinRuns
  import CoinSafety

  /** What the transport did with one message: the id it returned, a definitive refusal,
      or no usable answer, whether or not the message got through. */
  datatype SendOutcome = Accepted(id: string) | Refused | NoAnswer(delivered: bool)

  /** A reservation's own worker: `sending` once it has seen mark_sending commit, `done`
      once it has tried to store a result. */
  datatype Attempt = Attempt(sending: bool, sent: Option<SendOutcome>, done: bool)

  datatype Send = Send(delivery: DeliveryId, outcome: SendOutcome)

  /** `created` lists every singleton preview id ever assigned, in order. */
  datatype World = World(
    coin: CoinRuns.System, tables: Tables, attempts: map<DeliveryId, Attempt>,
    sends: seq<Send>, created: seq<nat>)

  datatype Event =
    | CoinAction(a: CoinRuns.Action)
    | SavedSingle(e: EvidenceId, source: Fingerprint, text: string, now: Time, contentExpiresAt: Time, u: UseId)
    | SavedMulti(es: seq<EvidenceId>, gs: seq<GenId>, source: Fingerprint, text: string, now: Time, u: UseId)
    | Reserved(key: PreviewKey, destination: Fingerprint, now: Time, d: DeliveryId, u: UseId)
    | MarkedSending(d: DeliveryId, noticed: bool)
    | SendText(d: DeliveryId, outcome: SendOutcome)
    | Finished(d: DeliveryId, committed: bool)
    | CancelledFinish(d: DeliveryId, committed: bool)

  function Start(): World {
    World(CoinRuns.Initial(), Tables(map[], 0, map[], map[]), map[], [], [])
  }

  predicate ValidId(id: string) {
    && |id| > 0 && id[0] != '0'
    && forall i | 0 <= i < |id| :: '0' <= id[i] <= '9'
  }

  /** The state and message id that _deliver_reserved stores for what it saw. */
  function ResultOf(a: Attempt): (DeliveryState, Option<string>) {
    if !a.sending then (FailedSafe, None)
    else match a.sent
      case Some(Accepted(id)) => if ValidId(id) then (Sent, Some(id)) else (InDoubt, None)
      case Some(Refused) => (FailedSafe, None)
      case Some(NoAnswer(_)) => (InDoubt, None)
      case None => (InDoubt, None)
  }

  ghost function Next(w: World, e: Event): World {
    match e
    case CoinAction(a) =>
      w.(coin := CoinRuns.Step(w.coin, a), tables := Purge(w.tables, CoinSafety.PurgedBy(w.coin, a)))
    case SavedSingle(ev, source, text, now, expires, u) => NextSingle(w, ev, source, text, now, expires, u)
    case SavedMulti(es, gs, source, text, now, u) => NextMulti(w, es, gs, source, text, now, u)
    case Reserved(key, destination, now, d, u) => NextReserve(w, key, destination, now, d, u)
    case MarkedSending(d, noticed) => NextSending(w, d, noticed)
    case SendText(d, outcome) =>
      if d !in w.attempts || !w.attempts[d].sending || w.attempts[d].sent.Some? || w.attempts[d].done then w
      else w.(attempts := w.attempts[d := w.attempts[d].(sent := Some(outcome))],
              sends := w.sends + [Send(d, outcome)])
    case Finished(d, committed) => NextFinish(w, d, committed)
    case CancelledFinish(d, committed) => NextCancelled(w, d, committed)
  }

  ghost function NextSingle(w: World, e: EvidenceId, source: Fingerprint, text: string, now: Time,
                            contentExpiresAt: Time, u: UseId): World {
    if u in w.tables.uses then w
    else match SaveSingle(w.coin.db, w.tables, e, source, text, now, contentExpiresAt, u)
      case Err(_) => w
      case Ok((t, k, inserted)) => w.(tables := t, created := if inserted then w.created + [k.id] else w.created)
  }

  ghost function NextMulti(w: World, es: seq<EvidenceId>, gs: seq<GenId>, source: Fingerprint, text: string,
                           now: Time, u: UseId): World {
    if u in w.tables.uses then w
    else match SaveMulti(w.coin.db, w.tables, es, gs, source, text, now, u)
      case Err(_) => w
      case Ok((t, _, _)) => w.(tables := t)
  }

  /** _deliver up to its reservation: only the call that inserted the row goes on. */
  ghost function NextReserve(w: World, key: PreviewKey, destination: Fingerprint, now: Time, d: DeliveryId, u: UseId): World {
    if u in w.tables.uses || d in w.tables.deliveries then w
    else if GetReady(w.coin.db, w.tables, key, now).Err? || GetReady(w.coin.db, w.tables, key, now).value.None? then w
    else match Reserve(w.coin.db, w.tables, key, destination, d, u)
      case Err(_) => w
      case Ok((t, x, inserted)) =>
        w.(tables := t, attempts := if inserted then w.attempts[x := Attempt(false, None, false)] else w.attempts)
  }

  /** mark_sending; a worker interrupted at the commit does not notice that it happened. */
  function NextSending(w: World, d: DeliveryId, noticed: bool): World {
    if d !in w.attempts || w.attempts[d].sending || w.attempts[d].done then w
    else match MarkSending(w.tables, d)
      case Err(_) => w
      case Ok(t) => w.(tables := t, attempts := w.attempts[d := w.attempts[d].(sending := noticed)])
  }

  function NextFinish(w: World, d: DeliveryId, committed: bool): World {
    if d !in w.attempts || w.attempts[d].done then w
    else
      var (state, id) := ResultOf(w.attempts[d]);
      var closed := w.(attempts := w.attempts[d := w.attempts[d].(done := true)]);
      if !committed then closed
      else match Outbound.Finish(w.tables, d, state, id)
        case Err(_) => closed
        case Ok(t) => closed.(tables := t)
  }

  /** A worker cancelled while it stores `sent` stores `uncertain` next, whether or not the
      first transaction committed. */
  function NextCancelled(w: World, d: DeliveryId, committed: bool): World {
    if d !in w.attempts || !StoredSent(w.attempts[d]) || !committed then w
    else match Outbound.Finish(w.tables, d, InDoubt, None)
      case Err(_) => w
      case Ok(t) => w.(tables := t)
  }

  predicate StoredSent(a: Attempt) {
    a.done && ResultOf(a).0 == Sent
  }

  ghost function History(events: seq<Event>): World {
    if events == [] then Start()
    else Next(History(events[..|events| - 1]), events[|events| - 1])
  }

  // ------------------------------------------------------------------ invariants

  /** A stored preview and the use that recorded it, over evidence that is READY. */
  ghost predicate PreviewOk(db: Coin.Db, t: Tables, key: PreviewKey)
    requires key in t.previews
  {
    && ValidatePreview(db, t, key).Ok?
    && AllConfirmed(db.gens, t.uses[t.previews[key].use].generations)
    && (forall e | e in t.previews[key].evidence :: e in db.evidence && db.evidence[e].state == Coin.Ready)
  }

  /** The table's check: PENDING has no attempt, SENDING has one, no row has more. */
  predicate CountsAttempts(row: Delivery) {
    row.attempts <= 1 && (row.state == Pending ==> row.attempts == 0) && (row.state == Sending ==> row.attempts == 1)
  }

  /** A delivery and its audit use, in lockstep. */
  ghost predicate DeliveryOk(t: Tables, d: DeliveryId)
    requires d in t.deliveries
  {
    var row := t.deliveries[d];
    && row.use in t.uses
    && (t.uses[row.use].kind == CoinDelivery || t.uses[row.use].kind == CoinMultiDelivery)
    && OwnsUse(t.uses, row.use, t.uses[row.use].kind, d, row.source, row.destination)
    && t.uses[row.use].state == Mirror(row.state)
    && CountsAttempts(row)
  }

  ghost predicate DeliveriesOk(t: Tables) {
    (forall d | d in t.deliveries :: DeliveryOk(t, d)) && OneRowPerPair(t.deliveries)
  }

  ghost predicate OneRowPerPair(rows: map<DeliveryId, Delivery>) {
    forall a, b | a in rows && b in rows && HasPair(rows[a], rows[b].source, rows[b].destination) :: a == b
  }

  /** One preview of each kind per message. */
  ghost predicate OneKeyPerMessage(previews: map<PreviewKey, Preview>) {
    forall a, b | a in previews && b in previews && a.Multi? == b.Multi?
                  && previews[a].source == previews[b].source :: a == b
  }

  /** No multi id lies past its sequence. */
  ghost predicate KeysOk(t: Tables) {
    && OneKeyPerMessage(t.previews)
    && (forall k | k in t.previews && k.Multi? :: k.id <= t.multiHigh)
    && (forall u | u in t.uses && t.uses[u].kind == CoinMultiPreview :: t.uses[u].operationalId <= t.multiHigh)
  }

  ghost predicate TablesOk(db: Coin.Db, t: Tables) {
    (forall k | k in t.previews :: PreviewOk(db, t, k)) && DeliveriesOk(t) && KeysOk(t)
  }

  ghost predicate AttemptOk(a: Attempt, row: Delivery) {
    && (a.sent.Some? ==> a.sending)
    && (a.sending ==> row.state != Pending && row.attempts == 1)
    && (Final(row.state) ==>
          a.done && ((row.state == ResultOf(a).0 && row.messageId == ResultOf(a).1)
                     || (row.state == InDoubt && row.messageId.None? && StoredSent(a))))
  }

  ghost predicate AttemptsOk(w: World) {
    && w.attempts.Keys == w.tables.deliveries.Keys
    && forall d | d in w.attempts :: AttemptOk(w.attempts[d], w.tables.deliveries[d])
  }

  ghost predicate SendsOk(w: World) {
    && (forall i, j | 0 <= i < j < |w.sends| :: w.sends[i].delivery != w.sends[j].delivery)
    && (forall i | 0 <= i < |w.sends| ::
          w.sends[i].delivery in w.attempts && w.attempts[w.sends[i].delivery].sent == Some(w.sends[i].outcome))
    && (forall d | d in w.attempts && w.attempts[d].sent.Some? :: Logged(w.sends, d))
  }

  ghost predicate Logged(sends: seq<Send>, d: DeliveryId) {
    exists i | 0 <= i < |sends| :: sends[i].delivery == d
  }

  /** Some use, past or present, names the id as its singleton preview. */
  ghost predicate Recorded(uses: map<UseId, Use>, id: nat) {
    exists u | u in uses :: uses[u].kind == CoinPreview && uses[u].operationalId == id
  }

  ghost predicate CreatedOk(w: World) {
    && (forall i, j | 0 <= i < j < |w.created| :: w.created[i] < w.created[j])
    && (forall i | 0 <= i < |w.created| :: Recorded(w.tables.uses, w.created[i]))
  }

  ghost predicate Inv(w: World) {
    CoinRuns.Inv(w.coin) && TablesOk(w.coin.db, w.tables) && AttemptsOk(w) && SendsOk(w) && CreatedOk(w)
  }

  // ------------------------------------------------------------------ frames

  lemma PreviewFrame(db: Coin.Db, t: Tables, t': Tables, key: PreviewKey)
    requires key in t.previews && PreviewOk(db, t, key)
    requires key in t'.previews && t'.previews[key] == t.previews[key]
    requires t.previews[key].use in t'.uses && t'.uses[t.previews[key].use] == t.uses[t.previews[key].use]
    ensures PreviewOk(db, t', key)
  {
  }

  /** A preview does not notice ledger rows and evidence that are not its own. */
  lemma PreviewDbFrame(db: Coin.Db, db': Coin.Db, t: Tables, key: PreviewKey)
    requires key in t.previews && PreviewOk(db, t, key) && Later(db.gens, db'.gens)
    requires forall e | e in t.previews[key].evidence :: e in db'.evidence && db'.evidence[e] == db.evidence[e]
    ensures PreviewOk(db', t, key)
  {
    var p := t.previews[key];
    forall e, g | e in p.evidence && Coin.ValidateCoinEvidence(db.gens, db.evidence[e]) == Ok(g)
      ensures Coin.ValidateCoinEvidence(db'.gens, db'.evidence[e]) == Ok(g)
    {
    }
    assert ValidatePreview(db', t, key).Ok?;
  }

  lemma DeliveryFrame(t: Tables, t': Tables, d: DeliveryId)
    requires d in t.deliveries && DeliveryOk(t, d)
    requires d in t'.deliveries && t'.deliveries[d] == t.deliveries[d].(preview := t'.deliveries[d].preview)
    requires forall u | u in t.uses && (u == t.deliveries[d].use || t.uses[u].state == PreviewReady)
               :: u in t'.uses && t'.uses[u] == t.uses[u]
    ensures DeliveryOk(t', d)
  {
  }

  // --------------------------------------------------------- one lemma per event

  /** The purge touches no use, and of a delivery only its preview pointer. */
  lemma PurgeEffect(t: Tables, ids: set<EvidenceId>)
    ensures var t' := Purge(t, ids);
      && t'.uses == t.uses && t'.multiHigh == t.multiHigh && t'.deliveries.Keys == t.deliveries.Keys
      && (forall k | k in t'.previews :: k in t.previews && t'.previews[k] == t.previews[k]
                                         && Elements(t.previews[k].evidence) !! ids)
      && (forall d | d in t.deliveries :: t'.deliveries[d] == t.deliveries[d].(preview := t'.deliveries[d].preview))
  {
  }

  lemma CoinActionKeepsPreview(s: CoinRuns.System, a: CoinRuns.Action, t: Tables, k: PreviewKey)
    requires CoinRuns.Inv(s)
    requires k in t.previews && PreviewOk(s.db, t, k)
    requires Elements(t.previews[k].evidence) !! CoinSafety.PurgedBy(s, a)
    ensures PreviewOk(CoinRuns.Step(s, a).db, t, k)
  {
    var s' := CoinRuns.Step(s, a);
    CoinSafety.StepGoesForward(s, a);
    forall e | e in t.previews[k].evidence
      ensures e in s'.db.evidence && s'.db.evidence[e] == s.db.evidence[e]
    {
      assert e in Elements(t.previews[k].evidence);
      CoinSafety.StepKeepsReady(s, a, e);
    }
    PreviewDbFrame(s.db, s'.db, t, k);
  }

  lemma PurgeKeepsTables(db: Coin.Db, t: Tables, ids: set<EvidenceId>)
    requires DeliveriesOk(t) && KeysOk(t)
    requires forall k | k in t.previews && Elements(t.previews[k].evidence) !! ids :: PreviewOk(db, t, k)
    ensures TablesOk(db, Purge(t, ids))
  {
    var t' := Purge(t, ids);
    PurgeEffect(t, ids);
    forall k | k in t'.previews ensures PreviewOk(db, t', k) {
      PreviewFrame(db, t, t', k);
    }
    forall d | d in t'.deliveries ensures DeliveryOk(t', d) {
      DeliveryFrame(t, t', d);
    }
  }

  lemma CoinActionKeepsInv(w: World, a: CoinRuns.Action)
    requires Inv(w)
    ensures Inv(Next(w, CoinAction(a)))
  {
    var w' := Next(w, CoinAction(a));
    var ids := CoinSafety.PurgedBy(w.coin, a);
    CoinSafety.StepKeepsInv(w.coin, a);
    forall k | k in w.tables.previews && Elements(w.tables.previews[k].evidence) !! ids
      ensures PreviewOk(w'.coin.db, w.tables, k)
    {
      CoinActionKeepsPreview(w.coin, a, w.tables, k);
    }
    PurgeKeepsTables(w'.coin.db, w.tables, ids);
    PurgeEffect(w.tables, ids);
    PurgeKeepsLogs(w, w');
  }

  /** Attempts, sends and created ids do not look at preview pointers. */
  lemma PurgeKeepsLogs(w: World, w': World)
    requires AttemptsOk(w) && SendsOk(w) && CreatedOk(w)
    requires w'.attempts == w.attempts && w'.sends == w.sends && w'.created == w.created
    requires w'.tables.uses == w.tables.uses && w'.tables.deliveries.Keys == w.tables.deliveries.Keys
    requires forall d | d in w.tables.deliveries ::
               w'.tables.deliveries[d] == w.tables.deliveries[d].(preview := w'.tables.deliveries[d].preview)
    ensures AttemptsOk(w') && SendsOk(w') && CreatedOk(w')
  {
  }

  /** A new preview use changes no delivery, and of the previews only the one it records. */
  lemma PreviewUseKeepsTables(db: Coin.Db, t: Tables, t': Tables, u: UseId, k: PreviewKey)
    requires TablesOk(db, t) && KeysOk(t')
    requires u !in t.uses && u in t'.uses && t'.uses == t.uses[u := t'.uses[u]] && t'.deliveries == t.deliveries
    requires k in t'.previews && (t'.previews == t.previews || t'.previews == t.previews[k := t'.previews[k]])
    requires t'.previews != t.previews ==> PreviewOk(db, t', k)
    ensures TablesOk(db, t')
  {
    forall x | x in t'.previews ensures PreviewOk(db, t', x) {
      if x in t.previews && t'.previews[x] == t.previews[x] {
        PreviewFrame(db, t, t', x);
      }
    }
    forall d | d in t'.deliveries ensures DeliveryOk(t', d) {
      DeliveryFrame(t, t', d);
    }
  }

  /** What a committed save_ready of a singleton does. */
  lemma SaveSingleEffect(db: Coin.Db, t: Tables, e: EvidenceId, source: Fingerprint, text: string,
                         now: Time, expires: Time, u: UseId)
    requires SaveSingle(db, t, e, source, text, now, expires, u).Ok?
    ensures var (t', k, inserted) := SaveSingle(db, t, e, source, text, now, expires, u).value;
      && k.Single? && t'.deliveries == t.deliveries && t'.multiHigh == t.multiHigh
      && ReadyAt(db, e, now) && Coin.ValidateCoinEvidence(db.gens, db.evidence[e]).Ok?
      && var g := Coin.ValidateCoinEvidence(db.gens, db.evidence[e]).value;
      && g in db.gens && db.gens[g].state == Confirmed
      && t'.uses == t.uses[u := Use(PreviewReady, CoinPreview, k.id, source, None, [g], [], None)]
      && (inserted ==> k.id == Max(SingleIds(t)) + 1
                       && (forall x | x in t.previews && x.Single? :: t.previews[x].source != source)
                       && t'.previews == t.previews[k := Preview(source, text, expires, [e], [], u)])
      && (!inserted ==> k in t.previews && t'.previews == t.previews)
  {
    if exists k :: SameMessage(t, k, false, source) {
    } else {
      assert forall x | x in t.previews && x.Single? :: !SameMessage(t, x, false, source);
    }
  }

  lemma NewSinglePreviewOk(db: Coin.Db, t: Tables, e: EvidenceId, source: Fingerprint, text: string,
                           now: Time, expires: Time, u: UseId)
    requires SaveSingle(db, t, e, source, text, now, expires, u).Ok?
    requires SaveSingle(db, t, e, source, text, now, expires, u).value.2
    ensures var (t', k, _) := SaveSingle(db, t, e, source, text, now, expires, u).value;
      k in t'.previews && PreviewOk(db, t', k)
  {
    SaveSingleEffect(db, t, e, source, text, now, expires, u);
    var (t', k, inserted) := SaveSingle(db, t, e, source, text, now, expires, u).value;
    var g := Coin.ValidateCoinEvidence(db.gens, db.evidence[e]).value;
    assert Elements([g]) == {g};
    assert ValidatePreview(db, t', k) == Ok([g]);
  }

  lemma SingleKeepsTables(db: Coin.Db, t: Tables, e: EvidenceId, source: Fingerprint, text: string,
                          now: Time, expires: Time, u: UseId)
    requires TablesOk(db, t) && u !in t.uses && SaveSingle(db, t, e, source, text, now, expires, u).Ok?
    ensures TablesOk(db, SaveSingle(db, t, e, source, text, now, expires, u).value.0)
  {
    SaveSingleEffect(db, t, e, source, text, now, expires, u);
    var (t', k, inserted) := SaveSingle(db, t, e, source, text, now, expires, u).value;
    if inserted {
      NewSinglePreviewOk(db, t, e, source, text, now, expires, u);
    }
    PreviewUseKeepsTables(db, t, t', u, k);
  }

  /** Saving a preview touches neither deliveries nor their workers. */
  lemma SavedKeepsInv(w: World, w': World)
    requires Inv(w) && w'.coin == w.coin && TablesOk(w.coin.db, w'.tables) && CreatedOk(w')
    requires w'.tables.deliveries == w.tables.deliveries && w'.attempts == w.attempts && w'.sends == w.sends
    ensures Inv(w')
  {
  }

  lemma SingleKeepsCreated(w: World, e: EvidenceId, source: Fingerprint, text: string, now: Time, expires: Time, u: UseId)
    requires CreatedOk(w) && u !in w.tables.uses && SaveSingle(w.coin.db, w.tables, e, source, text, now, expires, u).Ok?
    ensures CreatedOk(NextSingle(w, e, source, text, now, expires, u))
    ensures NextSingle(w, e, source, text, now, expires, u).tables.deliveries == w.tables.deliveries
  {
    SaveSingleEffect(w.coin.db, w.tables, e, source, text, now, expires, u);
    var (t', k, inserted) := SaveSingle(w.coin.db, w.tables, e, source, text, now, expires, u).value;
    assert t'.uses[u].kind == CoinPreview && t'.uses[u].operationalId == k.id;
    CreatedGrows(w, NextSingle(w, e, source, text, now, expires, u), k, inserted);
  }

  lemma SingleKeepsInv(w: World, e: EvidenceId, source: Fingerprint, text: string, now: Time, expires: Time, u: UseId)
    requires Inv(w)
    ensures Inv(NextSingle(w, e, source, text, now, expires, u))
  {
    if u !in w.tables.uses && SaveSingle(w.coin.db, w.tables, e, source, text, now, expires, u).Ok? {
      SingleKeepsTables(w.coin.db, w.tables, e, source, text, now, expires, u);
      SingleKeepsCreated(w, e, source, text, now, expires, u);
      SavedKeepsInv(w, NextSingle(w, e, source, text, now, expires, u));
    }
  }

  lemma CreatedGrows(w: World, w': World, k: PreviewKey, inserted: bool)
    requires CreatedOk(w)
    requires forall u | u in w.tables.uses :: u in w'.tables.uses && w'.tables.uses[u] == w.tables.uses[u]
    requires w'.created == if inserted then w.created + [k.id] else w.created
    requires inserted ==> k.id == Max(SingleIds(w.tables)) + 1 && Recorded(w'.tables.uses, k.id)
    ensures CreatedOk(w')
  {
    forall i | 0 <= i < |w.created|
      ensures Recorded(w'.tables.uses, w.created[i]) && w.created[i] <= Max(SingleIds(w.tables))
    {
      var u :| u in w.tables.uses && w.tables.uses[u].kind == CoinPreview && w.tables.uses[u].operationalId == w.created[i];
      assert w'.tables.uses[u] == w.tables.uses[u];
      assert w.created[i] in SingleIds(w.tables);
    }
  }

  // ------------------------------------------------------------- multi previews

  /** What a committed save_ready of a multi preview does. */
  lemma SaveMultiEffect(db: Coin.Db, t: Tables, es: seq<EvidenceId>, gs: seq<GenId>, source: Fingerprint,
                        text: string, now: Time, u: UseId)
    requires SaveMulti(db, t, es, gs, source, text, now, u).Ok?
    ensures var (t', k, inserted) := SaveMulti(db, t, es, gs, source, text, now, u).value;
      && k.Multi? && t'.deliveries == t.deliveries
      && (forall i | 0 <= i < |es| :: ReadyAt(db, es[i], now))
      && (!inserted ==> t' == t)
      && (inserted ==>
            && k.id == t.multiHigh + 1 == t'.multiHigh
            && t'.uses == t.uses[u := Use(PreviewReady, CoinMultiPreview, k.id, source, None, Distinct(gs), gs, None)]
            && k in t'.previews && t'.previews == t.previews[k := t'.previews[k]]
            && t'.previews[k].evidence == es && t'.previews[k].generations == gs && t'.previews[k].use == u
            && t'.previews[k].source == source
            && (forall x | x in t.previews && x.Multi? :: t.previews[x].source != source)
            && ValidatePreview(db, t', k).Ok? && AllConfirmed(db.gens, Distinct(gs)))
  {
    if exists k :: SameMessage(t, k, true, source) {
    } else {
      assert forall x | x in t.previews && x.Multi? :: !SameMessage(t, x, true, source);
    }
  }

  lemma MultiKeepsTables(db: Coin.Db, t: Tables, es: seq<EvidenceId>, gs: seq<GenId>, source: Fingerprint,
                         text: string, now: Time, u: UseId)
    requires TablesOk(db, t) && u !in t.uses && SaveMulti(db, t, es, gs, source, text, now, u).Ok?
    ensures TablesOk(db, SaveMulti(db, t, es, gs, source, text, now, u).value.0)
  {
    SaveMultiEffect(db, t, es, gs, source, text, now, u);
    var (t', k, inserted) := SaveMulti(db, t, es, gs, source, text, now, u).value;
    if inserted {
      assert PreviewOk(db, t', k) by {
        assert forall e | e in t'.previews[k].evidence :: ReadyAt(db, e, now);
      }
      PreviewUseKeepsTables(db, t, t', u, k);
    }
  }

  lemma MultiKeepsInv(w: World, es: seq<EvidenceId>, gs: seq<GenId>, source: Fingerprint, text: string, now: Time, u: UseId)
    requires Inv(w)
    ensures Inv(NextMulti(w, es, gs, source, text, now, u))
  {
    if u !in w.tables.uses && SaveMulti(w.coin.db, w.tables, es, gs, source, text, now, u).Ok? {
      var w' := NextMulti(w, es, gs, source, text, now, u);
      MultiKeepsTables(w.coin.db, w.tables, es, gs, source, text, now, u);
      SaveMultiEffect(w.coin.db, w.tables, es, gs, source, text, now, u);
      NewUseKeepsCreated(w.created, w.tables.uses, w'.tables.uses);
      SavedKeepsInv(w, w');
    }
  }

  // ------------------------------------------------------------------ deliveries

  /** What a committed reservation does. */
  lemma ReserveEffect(db: Coin.Db, t: Tables, key: PreviewKey, destination: Fingerprint, d: DeliveryId, u: UseId)
    requires Reserve(db, t, key, destination, d, u).Ok?
    ensures key in t.previews
    ensures var (t', x, inserted) := Reserve(db, t, key, destination, d, u).value;
      var p := t.previews[key];
      && (!inserted ==> t' == t && x in t.deliveries && HasPair(t.deliveries[x], p.source, destination))
      && (inserted ==>
            && x == d && PreviewUse(t, key).Ok? && p.use in t.uses
            && (forall y | y in t.deliveries :: !HasPair(t.deliveries[y], p.source, destination))
            && t'.previews == t.previews && t'.multiHigh == t.multiHigh
            && t'.deliveries == t.deliveries[d := Delivery(Some(key), p.source, destination, Pending, 0, u, None)]
            && t'.uses == t.uses[u := Use(SendReserved, DeliveryKind(key), d, p.source, Some(destination),
                                          t.uses[p.use].generations, t.uses[p.use].occurrences, Some(p.use))])
  {
    if exists x :: x in t.deliveries && HasPair(t.deliveries[x], t.previews[key].source, destination) {
    }
  }

  lemma NewDeliveryOk(t: Tables, key: PreviewKey, destination: Fingerprint, d: DeliveryId, u: UseId)
    requires key in t.previews && PreviewUse(t, key).Ok? && u !in t.uses
    ensures var p := t.previews[key];
      var t' := t.(
        deliveries := t.deliveries[d := Delivery(Some(key), p.source, destination, Pending, 0, u, None)],
        uses := t.uses[u := Use(SendReserved, DeliveryKind(key), d, p.source, Some(destination),
                                t.uses[p.use].generations, t.uses[p.use].occurrences, Some(p.use))]);
      DeliveryOk(t', d)
  {
  }

  lemma ReserveKeepsDeliveries(t: Tables, t': Tables, d: DeliveryId, u: UseId)
    requires DeliveriesOk(t) && d !in t.deliveries && u !in t.uses
    requires d in t'.deliveries && t'.deliveries == t.deliveries[d := t'.deliveries[d]]
    requires u in t'.uses && t'.uses == t.uses[u := t'.uses[u]]
    requires DeliveryOk(t', d)
    requires forall y | y in t.deliveries :: !HasPair(t.deliveries[y], t'.deliveries[d].source, t'.deliveries[d].destination)
    ensures DeliveriesOk(t')
  {
    forall y | y in t'.deliveries ensures DeliveryOk(t', y) {
      if y != d {
        DeliveryFrame(t, t', y);
      }
    }
  }

  lemma ReserveKeepsTables(db: Coin.Db, t: Tables, key: PreviewKey, destination: Fingerprint, d: DeliveryId, u: UseId)
    requires TablesOk(db, t) && u !in t.uses && d !in t.deliveries
    requires Reserve(db, t, key, destination, d, u).Ok?
    ensures TablesOk(db, Reserve(db, t, key, destination, d, u).value.0)
  {
    ReserveEffect(db, t, key, destination, d, u);
    var (t', x, inserted) := Reserve(db, t, key, destination, d, u).value;
    if inserted {
      NewDeliveryOk(t, key, destination, d, u);
      assert t' == t.(deliveries := t'.deliveries, uses := t'.uses);
      ReserveKeepsDeliveries(t, t', d, u);
      UsesKeepPreviews(db, t, t');
    }
  }

  /** Previews look only at uses in state PREVIEW_READY. */
  lemma UsesKeepPreviews(db: Coin.Db, t: Tables, t': Tables)
    requires forall k | k in t.previews :: PreviewOk(db, t, k)
    requires t'.previews == t.previews
    requires forall u | u in t.uses && t.uses[u].state == PreviewReady :: u in t'.uses && t'.uses[u] == t.uses[u]
    ensures forall k | k in t'.previews :: PreviewOk(db, t', k)
  {
    forall k | k in t'.previews ensures PreviewOk(db, t', k) {
      PreviewFrame(db, t, t', k);
    }
  }

  lemma ReserveKeepsInv(w: World, key: PreviewKey, destination: Fingerprint, now: Time, d: DeliveryId, u: UseId)
    requires Inv(w)
    ensures Inv(NextReserve(w, key, destination, now, d, u))
  {
    var w' := NextReserve(w, key, destination, now, d, u);
    if w' != w {
      var t' := Reserve(w.coin.db, w.tables, key, destination, d, u).value.0;
      ReservedRow(w.coin.db, w.tables, key, destination, d, u);
      ReserveKeepsTables(w.coin.db, w.tables, key, destination, d, u);
      NewUseKeepsCreated(w.created, w.tables.uses, t'.uses);
      NewAttemptKeepsLogs(w, w', d);
    }
  }

  lemma ReservedRow(db: Coin.Db, t: Tables, key: PreviewKey, destination: Fingerprint, d: DeliveryId, u: UseId)
    requires Reserve(db, t, key, destination, d, u).Ok? && u !in t.uses
    ensures var (t', x, inserted) := Reserve(db, t, key, destination, d, u).value;
      && (!inserted ==> t' == t)
      && (inserted ==> x == d && d in t'.deliveries && t'.deliveries[d].state == Pending
                       && t'.deliveries == t.deliveries[d := t'.deliveries[d]])
      && (forall v | v in t.uses :: v in t'.uses && t'.uses[v] == t.uses[v])
  {
    ReserveEffect(db, t, key, destination, d, u);
  }

  lemma NewUseKeepsCreated(created: seq<nat>, uses: map<UseId, Use>, uses': map<UseId, Use>)
    requires forall i | 0 <= i < |created| :: Recorded(uses, created[i])
    requires forall u | u in uses :: u in uses' && uses'[u] == uses[u].(state := uses'[u].state)
    ensures forall i | 0 <= i < |created| :: Recorded(uses', created[i])
  {
    forall i | 0 <= i < |created| ensures Recorded(uses', created[i]) {
      assert Recorded(uses, created[i]);
      var u :| u in uses && uses[u].kind == CoinPreview && uses[u].operationalId == created[i];
      assert uses'[u].kind == CoinPreview;
    }
  }

  lemma NewAttemptKeepsLogs(w: World, w': World, d: DeliveryId)
    requires AttemptsOk(w) && SendsOk(w) && d !in w.attempts
    requires w'.attempts == w.attempts[d := Attempt(false, None, false)] && w'.sends == w.sends
    requires d in w'.tables.deliveries && w'.tables.deliveries[d].state == Pending
    requires w'.tables.deliveries == w.tables.deliveries[d := w'.tables.deliveries[d]]
    ensures AttemptsOk(w') && SendsOk(w')
  {
  }

  /** The row's audit use after a delivery step. */
  function Stepped(t: Tables, d: DeliveryId, row: Delivery): Tables
    requires d in t.deliveries && t.deliveries[d].use in t.uses
  {
    var u := t.deliveries[d].use;
    t.(uses := t.uses[u := t.uses[u].(state := Mirror(row.state))], deliveries := t.deliveries[d := row])
  }

  ghost predicate SameOwner(a: Delivery, b: Delivery) {
    a.source == b.source && a.destination == b.destination && a.use == b.use
  }

  lemma SteppedKeepsTables(db: Coin.Db, t: Tables, d: DeliveryId, row: Delivery)
    requires TablesOk(db, t) && d in t.deliveries
    requires SameOwner(row, t.deliveries[d]) && CountsAttempts(row)
    ensures TablesOk(db, Stepped(t, d, row))
  {
    var t' := Stepped(t, d, row);
    assert DeliveryOk(t, d);
    UsesKeepPreviews(db, t, t');
    forall y | y in t'.deliveries ensures DeliveryOk(t', y) {
      if y != d {
        DeliveryFrame(t, t', y);
      }
    }
  }

  /** A delivery row and its audit use move in lockstep: each transition of the row is
      possible exactly when the audit's is, and both end in corresponding states. */
  lemma RowAndAuditMoveTogether(t: Tables, d: DeliveryId, state: DeliveryState, id: Option<string>)
    requires DeliveriesOk(t) && d in t.deliveries && Final(state)
    ensures var row := t.deliveries[d];
      && row.use in t.uses
      && var audit := t.uses[row.use];
      && audit.state == Mirror(row.state)
      && (row.state == Pending <==> audit.state in AllowedBefore(SendInFlight))
      && (CanFinish(row, state) <==> audit.state in AllowedBefore(Mirror(state)))
      && MarkSending(t, d) == (if row.state == Pending then Ok(Stepped(t, d, row.(state := Sending, attempts := 1)))
                               else Err(TransitionConflict))
      && Outbound.Finish(t, d, state, id) == (if CanFinish(row, state) then Ok(Stepped(t, d, row.(state := state, messageId := id)))
                                              else Err(TransitionConflict))
  {
    assert DeliveryOk(t, d);
  }

  lemma SendingKeepsInv(w: World, d: DeliveryId, noticed: bool)
    requires Inv(w)
    ensures Inv(NextSending(w, d, noticed))
  {
    var w' := NextSending(w, d, noticed);
    if w' != w {
      RowAndAuditMoveTogether(w.tables, d, InDoubt, None);
      StepKeepsInv(w, w', d, w.tables.deliveries[d].(state := Sending, attempts := 1));
    }
  }

  lemma StepKeepsInv(w: World, w': World, d: DeliveryId, row: Delivery)
    requires Inv(w) && d in w.tables.deliveries && d in w.attempts && d in w'.attempts
    requires SameOwner(row, w.tables.deliveries[d]) && CountsAttempts(row)
    requires w'.tables == Stepped(w.tables, d, row)
    requires w' == w.(tables := w'.tables, attempts := w.attempts[d := w'.attempts[d]])
    requires w'.attempts[d].sent == w.attempts[d].sent && AttemptOk(w'.attempts[d], row)
    ensures Inv(w')
  {
    SteppedKeepsTables(w.coin.db, w.tables, d, row);
    NewUseKeepsCreated(w.created, w.tables.uses, w'.tables.uses);
    StepKeepsLogs(w, w', d);
  }

  lemma StepKeepsLogs(w: World, w': World, d: DeliveryId)
    requires AttemptsOk(w) && SendsOk(w) && d in w.attempts && w'.sends == w.sends
    requires d in w'.attempts && w'.attempts == w.attempts[d := w'.attempts[d]]
    requires d in w'.tables.deliveries && w'.tables.deliveries == w.tables.deliveries[d := w'.tables.deliveries[d]]
    requires w'.attempts[d].sent == w.attempts[d].sent && AttemptOk(w'.attempts[d], w'.tables.deliveries[d])
    ensures AttemptsOk(w') && SendsOk(w')
  {
    assert w'.attempts.Keys == w.attempts.Keys;
  }

  lemma SendTextKeepsInv(w: World, d: DeliveryId, outcome: SendOutcome)
    requires Inv(w)
    ensures Inv(Next(w, SendText(d, outcome)))
  {
    var w' := Next(w, SendText(d, outcome));
    if w' != w {
      SendKeepsLogs(w, w', d, outcome);
    }
  }

  lemma SendKeepsLogs(w: World, w': World, d: DeliveryId, outcome: SendOutcome)
    requires AttemptsOk(w) && SendsOk(w) && d in w.attempts && w.attempts[d].sending
    requires w.attempts[d].sent.None? && !w.attempts[d].done
    requires w'.attempts == w.attempts[d := w.attempts[d].(sent := Some(outcome))]
    requires w'.sends == w.sends + [Send(d, outcome)] && w'.tables == w.tables
    ensures AttemptsOk(w') && SendsOk(w')
  {
    assert AttemptOk(w.attempts[d], w.tables.deliveries[d]);
    assert w'.sends[|w.sends|] == Send(d, outcome);
    forall x | x in w'.attempts && w'.attempts[x].sent.Some? ensures Logged(w'.sends, x) {
      if x != d {
        var i :| 0 <= i < |w.sends| && w.sends[i].delivery == x;
        assert w'.sends[i] == w.sends[i];
      }
    }
  }

  lemma FinishKeepsInv(w: World, d: DeliveryId, committed: bool)
    requires Inv(w)
    ensures Inv(NextFinish(w, d, committed))
  {
    if d in w.attempts && !w.attempts[d].done {
      FinishLeaves(w, d, committed);
      EndedKeepsInv(w, NextFinish(w, d, committed), d);
    }
  }

  lemma CancelledKeepsInv(w: World, d: DeliveryId, committed: bool)
    requires Inv(w)
    ensures Inv(NextCancelled(w, d, committed))
  {
    var w' := NextCancelled(w, d, committed);
    if w' != w {
      CancelledLeaves(w, d);
      var row := w.tables.deliveries[d];
      assert AttemptOk(w.attempts[d], row);
      StepKeepsInv(w, w', d, row.(state := InDoubt, messageId := None));
    }
  }

  /** What the second finish of a cancelled worker does to its row. */
  lemma CancelledLeaves(w: World, d: DeliveryId)
    requires DeliveriesOk(w.tables) && w.attempts.Keys == w.tables.deliveries.Keys
    requires NextCancelled(w, d, true) != w
    ensures d in w.tables.deliveries && w.tables.deliveries[d].use in w.tables.uses
    ensures CanFinish(w.tables.deliveries[d], InDoubt)
    ensures NextCancelled(w, d, true)
         == w.(tables := Stepped(w.tables, d, w.tables.deliveries[d].(state := InDoubt, messageId := None)))
  {
    RowAndAuditMoveTogether(w.tables, d, InDoubt, None);
  }

  lemma EndedKeepsInv(w: World, w': World, d: DeliveryId)
    requires Inv(w) && d in w.attempts && d in w.tables.deliveries && !w.attempts[d].done
    requires d in w'.attempts && w'.attempts[d] == w.attempts[d].(done := true)
    requires w' == w.(tables := w'.tables, attempts := w.attempts[d := w'.attempts[d]])
    requires w.tables.deliveries[d].use in w.tables.uses
    requires var (state, id) := ResultOf(w.attempts[d]);
      w'.tables == w.tables
      || (CanFinish(w.tables.deliveries[d], state)
          && w'.tables == Stepped(w.tables, d, w.tables.deliveries[d].(state := state, messageId := id)))
    ensures Inv(w')
  {
    assert AttemptOk(w.attempts[d], w.tables.deliveries[d]);
    if w'.tables == w.tables {
      StepKeepsLogs(w, w', d);
    } else {
      var (state, id) := ResultOf(w.attempts[d]);
      StepKeepsInv(w, w', d, w.tables.deliveries[d].(state := state, messageId := id));
    }
  }

  /** What the end of an attempt does to its row: its result, if that may be stored. */
  lemma FinishLeaves(w: World, d: DeliveryId, committed: bool)
    requires DeliveriesOk(w.tables) && d in w.tables.deliveries && d in w.attempts && !w.attempts[d].done
    ensures var w' := NextFinish(w, d, committed);
      var (state, id) := ResultOf(w.attempts[d]);
      var row := w.tables.deliveries[d];
      && row.use in w.tables.uses
      && d in w'.attempts && w'.attempts[d] == w.attempts[d].(done := true)
      && w' == w.(tables := w'.tables, attempts := w.attempts[d := w'.attempts[d]])
      && (if committed && CanFinish(row, state) then w'.tables == Stepped(w.tables, d, row.(state := state, messageId := id))
          else w'.tables == w.tables)
  {
    var (state, id) := ResultOf(w.attempts[d]);
    RowAndAuditMoveTogether(w.tables, d, state, id);
    assert DeliveryOk(w.tables, d);
  }

  lemma NextKeepsInv(w: World, e: Event)
    requires Inv(w)
    ensures Inv(Next(w, e))
  {
    match e
    case CoinAction(a) => CoinActionKeepsInv(w, a);
    case SavedSingle(ev, source, text, now, expires, u) => SingleKeepsInv(w, ev, source, text, now, expires, u);
    case SavedMulti(es, gs, source, text, now, u) => MultiKeepsInv(w, es, gs, source, text, now, u);
    case Reserved(key, destination, now, d, u) => ReserveKeepsInv(w, key, destination, now, d, u);
    case MarkedSending(d, noticed) => SendingKeepsInv(w, d, noticed);
    case SendText(d, outcome) => SendTextKeepsInv(w, d, outcome);
    case Finished(d, committed) => FinishKeepsInv(w, d, committed);
    case CancelledFinish(d, committed) => CancelledKeepsInv(w, d, committed);
  }

  lemma {:induction false} EveryHistoryIsSound(events: seq<Event>)
    ensures Inv(History(events))
  {
    if events != [] {
      EveryHistoryIsSound(events[..|events| - 1]);
      NextKeepsInv(History(events[..|events| - 1]), events[|events| - 1]);
    }
  }

  lemma HistorySnoc(events: seq<Event>, e: Event)
    ensures History(events + [e]) == Next(History(events), e)
  {
    assert (events + [e])[..|events|] == events;
  }
}
