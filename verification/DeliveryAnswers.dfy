/** What saving a preview answers in every reachable state, and all that it changes. */
module DeliveryAnswers {
  import opened Prelude
  import opened Ledger
  import opened Outbound
  import opened Deliveries
  import Coin
  import CoinRuns
  import CoinSafety
  import DeliverySafety

  /** The evidence has a link that has not expired. */
  predicate HasLink(db: Coin.Db, e: EvidenceId, now: Time) {
    && e in db.evidence && db.evidence[e].state == Coin.Ready && db.evidence[e].ready.Some?
    && now < db.evidence[e].ready.value.expiresAt
  }

  /** A reachable link belongs to the confirmed generation that its evidence points at. */
  lemma LinkIsConfirmed(db: Coin.Db, e: EvidenceId, now: Time)
    requires CoinRuns.Coupling(db) && HasLink(db, e, now)
    ensures db.evidence[e].generation.Some? && db.evidence[e].generation.value in db.gens
    ensures Coin.ValidateCoinEvidence(db.gens, db.evidence[e]) == Ok(db.evidence[e].generation.value)
    ensures db.gens[db.evidence[e].generation.value].state == Confirmed
  {
    assert CoinRuns.Coupled(db.gens, db.evidence[e]);
  }

  // ----------------------------------------------------------------- singletons

  /** A singleton preview of this message is there. */
  predicate SavedSingly(t: Tables, k: PreviewKey, source: Fingerprint) {
    k in t.previews && k.Single? && t.previews[k].source == source
  }

  /** Every singleton id that a preview or a use has ever had is smaller. */
  ghost predicate IsNewId(t: Tables, id: nat) {
    && (forall k | k in t.previews && k.Single? :: k.id < id)
    && (forall u | u in t.uses && t.uses[u].kind == CoinPreview :: t.uses[u].operationalId < id)
  }

  /** Without a live link nothing is saved.  A message that has a preview keeps it, if evidence
      and text are the same; another one gets a preview with this text under a new id. */
  ghost predicate SingleEnds(db: Coin.Db, t: Tables, e: EvidenceId, source: Fingerprint, text: string, now: Time,
                             expires: Time, u: UseId, r: Result<(Tables, PreviewKey, bool), OutboundError>) {
    if !HasLink(db, e, now) then r == Err(EvidenceRequired)
    else
      && db.evidence[e].generation.Some?
      && var g := db.evidence[e].generation.value;
      && (forall k | SavedSingly(t, k, source) ::
            if t.previews[k].evidence == [e] && t.previews[k].text == text then
              r == Ok((t.(uses := t.uses[u := Use(PreviewReady, CoinPreview, k.id, source, None, [g], [], None)]), k, false))
            else r == Err(SourceMessageChanged))
      && ((forall k :: !SavedSingly(t, k, source)) ==>
            && r.Ok? && r.value.2 && r.value.1.Single? && IsNewId(t, r.value.1.id)
            && r.value.0 == t.(
                 previews := t.previews[r.value.1 := Preview(source, text, expires, [e], [], u)],
                 uses := t.uses[u := Use(PreviewReady, CoinPreview, r.value.1.id, source, None, [g], [], None)]))
  }

  lemma SavesSingly(db: Coin.Db, t: Tables, e: EvidenceId, source: Fingerprint, text: string, now: Time, expires: Time, u: UseId)
    requires CoinRuns.Coupling(db) && TablesOk(db, t) && u !in t.uses
    ensures SingleEnds(db, t, e, source, text, now, expires, u, SaveSingle(db, t, e, source, text, now, expires, u))
  {
    if HasLink(db, e, now) {
      LinkIsConfirmed(db, e, now);
      assert ReadyAt(db, e, now);
      if exists k :: SameMessage(t, k, false, source) {
        KeepsSingly(db, t, e, source, text, now, expires, u);
      } else {
        forall k ensures !SavedSingly(t, k, source) {
          assert !SameMessage(t, k, false, source);
        }
        NextIsNew(t);
      }
    }
  }

  lemma KeepsSingly(db: Coin.Db, t: Tables, e: EvidenceId, source: Fingerprint, text: string, now: Time, expires: Time, u: UseId)
    requires CoinRuns.Coupling(db) && TablesOk(db, t) && HasLink(db, e, now) && ReadyAt(db, e, now)
    requires exists k :: SameMessage(t, k, false, source)
    ensures exists k :: SavedSingly(t, k, source)
    ensures forall k | SavedSingly(t, k, source) ::
      db.evidence[e].generation.Some?
      && SaveSingle(db, t, e, source, text, now, expires, u) ==
        if t.previews[k].evidence == [e] && t.previews[k].text == text
        then Ok((t.(uses := t.uses[u := Use(PreviewReady, CoinPreview, k.id, source, None, [db.evidence[e].generation.value], [], None)]),
                 k, false))
        else Err(SourceMessageChanged)
  {
    LinkIsConfirmed(db, e, now);
    var x :| SameMessage(t, x, false, source);
    assert SavedSingly(t, x, source);
    forall k | SavedSingly(t, k, source) ensures k == x && ValidatePreview(db, t, k).Ok? {
      assert PreviewOk(db, t, k);
    }
    assert forall k | SameMessage(t, k, false, source) :: SavedSingly(t, k, source);
  }

  lemma NextIsNew(t: Tables)
    ensures IsNewId(t, Max(SingleIds(t)) + 1)
  {
    forall k | k in t.previews && k.Single? ensures k.id <= Max(SingleIds(t)) {
      assert k.id in SingleIds(t);
    }
    forall u | u in t.uses && t.uses[u].kind == CoinPreview ensures t.uses[u].operationalId <= Max(SingleIds(t)) {
      assert t.uses[u].operationalId in SingleIds(t);
    }
  }

  /** save_ready of a singleton, in any state that a history leads to. */
  lemma {:induction false} SingleSaveAnswers(events: seq<Event>, e: EvidenceId, source: Fingerprint, text: string, now: Time,
                                             expires: Time, u: UseId)
    requires u !in History(events).tables.uses
    ensures var w := History(events);
      SingleEnds(w.coin.db, w.tables, e, source, text, now, expires, u,
                 SaveSingle(w.coin.db, w.tables, e, source, text, now, expires, u))
  {
    EveryHistoryIsSound(events);
    var w := History(events);
    SavesSingly(w.coin.db, w.tables, e, source, text, now, expires, u);
  }

  // --------------------------------------------------------------------- multis

  predicate SavedTogether(t: Tables, k: PreviewKey, source: Fingerprint) {
    k in t.previews && k.Multi? && t.previews[k].source == source
  }

  /** The link is live and of the generation it is said to be. */
  predicate Fits(db: Coin.Db, e: EvidenceId, g: GenId, now: Time) {
    HasLink(db, e, now) && db.evidence[e].generation == Some(g)
  }

  ghost predicate FirstUnfit(db: Coin.Db, es: seq<EvidenceId>, gs: seq<GenId>, now: Time, i: nat)
    requires |es| == |gs|
  {
    i < |es| && !Fits(db, es[i], gs[i], now) && forall j | 0 <= j < i :: Fits(db, es[j], gs[j], now)
  }

  predicate ExpiresAt(db: Coin.Db, e: EvidenceId, expires: Time) {
    e in db.evidence && db.evidence[e].ready.Some? && db.evidence[e].ready.value.expiresAt == expires
  }

  predicate OutlastsEnd(db: Coin.Db, e: EvidenceId, expires: Time) {
    e in db.evidence && db.evidence[e].ready.Some? && expires <= db.evidence[e].ready.value.expiresAt
  }

  ghost predicate EarliestEnd(db: Coin.Db, es: seq<EvidenceId>, expires: Time) {
    && (forall i | 0 <= i < |es| :: OutlastsEnd(db, es[i], expires))
    && exists i | 0 <= i < |es| :: ExpiresAt(db, es[i], expires)
  }

  /** Two or three links, all live and of their own generations; the first that is not decides
      the error.  A message that has a preview keeps it, if it is the same; another one gets
      the next id, and a preview that lives as long as its first link. */
  ghost predicate MultiEnds(db: Coin.Db, t: Tables, es: seq<EvidenceId>, gs: seq<GenId>, source: Fingerprint, text: string,
                            now: Time, u: UseId, r: Result<(Tables, PreviewKey, bool), OutboundError>) {
    if |es| != |gs| || |es| < 2 || |es| > 3 then r == Err(ContractInvalid)
    else
      && (forall i: nat | FirstUnfit(db, es, gs, now, i) ::
            r == Err(if HasLink(db, es[i], now) then GenerationChanged else EvidenceRequired))
      && ((forall i | 0 <= i < |es| :: Fits(db, es[i], gs[i], now)) ==>
            && (forall k | SavedTogether(t, k, source) ::
                  r == if t.previews[k].evidence == es && t.previews[k].generations == gs && t.previews[k].text == text
                       then Ok((t, k, false)) else Err(SourceMessageChanged))
            && ((forall k :: !SavedTogether(t, k, source)) ==>
                  && r.Ok? && r.value.2 && r.value.1 == Multi(t.multiHigh + 1) && r.value.1 in r.value.0.previews
                  && var p := r.value.0.previews[r.value.1];
                  && p == Preview(source, text, p.contentExpiresAt, es, gs, u) && EarliestEnd(db, es, p.contentExpiresAt)
                  && r.value.0 == t.(
                       previews := t.previews[r.value.1 := p], multiHigh := t.multiHigh + 1,
                       uses := t.uses[u := Use(PreviewReady, CoinMultiPreview, r.value.1.id, source, None, Distinct(gs), gs, None)])))
  }

  lemma {:induction false} RefusesFirst(db: Coin.Db, es: seq<EvidenceId>, gs: seq<GenId>, now: Time)
    requires CoinRuns.Coupling(db) && |es| == |gs|
    ensures LinksRefused(db, es, gs, now).None? <==> forall i | 0 <= i < |es| :: Fits(db, es[i], gs[i], now)
    ensures forall i: nat | FirstUnfit(db, es, gs, now, i) ::
      LinksRefused(db, es, gs, now) == Some(if HasLink(db, es[i], now) then GenerationChanged else EvidenceRequired)
    decreases |es|
  {
    if es != [] {
      var n := |es| - 1;
      RefusesFirst(db, es[..n], gs[..n], now);
      RefusesOne(db, es[n], gs[n], now);
      assert forall i | 0 <= i < n :: es[..n][i] == es[i] && gs[..n][i] == gs[i];
      forall i: nat | FirstUnfit(db, es, gs, now, i)
        ensures LinksRefused(db, es, gs, now) == Some(if HasLink(db, es[i], now) then GenerationChanged else EvidenceRequired)
      {
        if i < n {
          assert FirstUnfit(db, es[..n], gs[..n], now, i);
        }
      }
    }
  }

  lemma RefusesOne(db: Coin.Db, e: EvidenceId, g: GenId, now: Time)
    requires CoinRuns.Coupling(db)
    ensures LinkRefused(db, e, g, now) ==
      if Fits(db, e, g, now) then None else if HasLink(db, e, now) then Some(GenerationChanged) else Some(EvidenceRequired)
  {
    if HasLink(db, e, now) {
      LinkIsConfirmed(db, e, now);
    }
  }

  lemma {:induction false} ExpiresFirst(db: Coin.Db, es: seq<EvidenceId>, now: Time)
    requires es != [] && forall i | 0 <= i < |es| :: ReadyAt(db, es[i], now)
    ensures EarliestEnd(db, es, FirstExpiry(db, es, now))
  {
    var n := |es| - 1;
    var first := FirstExpiry(db, es, now);
    assert ReadyAt(db, es[n], now);
    if n > 0 {
      var rest := FirstExpiry(db, es[..n], now);
      ExpiresFirst(db, es[..n], now);
      var i :| 0 <= i < n && ExpiresAt(db, es[..n][i], rest);
      assert es[i] == es[..n][i];
      forall j | 0 <= j < |es| ensures OutlastsEnd(db, es[j], first) {
        assert j < n ==> es[j] == es[..n][j] && OutlastsEnd(db, es[..n][j], rest);
      }
      assert if first == rest then ExpiresAt(db, es[i], first) else ExpiresAt(db, es[n], first);
    } else {
      assert ExpiresAt(db, es[0], first);
    }
  }

  lemma SavesTogether(db: Coin.Db, t: Tables, es: seq<EvidenceId>, gs: seq<GenId>, source: Fingerprint, text: string,
                      now: Time, u: UseId)
    requires CoinRuns.Coupling(db) && TablesOk(db, t)
    ensures MultiEnds(db, t, es, gs, source, text, now, u, SaveMulti(db, t, es, gs, source, text, now, u))
  {
    if |es| == |gs| && 2 <= |es| <= 3 {
      RefusesFirst(db, es, gs, now);
      if forall i | 0 <= i < |es| :: Fits(db, es[i], gs[i], now) {
        forall i | 0 <= i < |es| ensures ReadyAt(db, es[i], now) && EvidenceIs(db, es[i], gs[i]) {
          LinkIsConfirmed(db, es[i], now);
        }
        if exists k :: SameMessage(t, k, true, source) {
          KeepsTogether(db, t, es, gs, source, text, now, u);
        } else {
          forall k ensures !SavedTogether(t, k, source) {
            assert !SameMessage(t, k, true, source);
          }
          ExpiresFirst(db, es, now);
          InsertsTogether(db, t, Preview(source, text, FirstExpiry(db, es, now), es, gs, u), u, now);
        }
      }
    }
  }

  lemma KeepsTogether(db: Coin.Db, t: Tables, es: seq<EvidenceId>, gs: seq<GenId>, source: Fingerprint, text: string,
                      now: Time, u: UseId)
    requires TablesOk(db, t) && |es| == |gs| && 2 <= |es| <= 3 && LinksRefused(db, es, gs, now).None?
    requires exists k :: SameMessage(t, k, true, source)
    ensures exists k :: SavedTogether(t, k, source)
    ensures forall k | SavedTogether(t, k, source) ::
      SaveMulti(db, t, es, gs, source, text, now, u) ==
        if t.previews[k].evidence == es && t.previews[k].generations == gs && t.previews[k].text == text
        then Ok((t, k, false)) else Err(SourceMessageChanged)
  {
    var x :| SameMessage(t, x, true, source);
    assert SavedTogether(t, x, source);
    forall k | SavedTogether(t, k, source)
      ensures k == x && ValidatePreview(db, t, k).Ok?
    {
      assert PreviewOk(db, t, k);
    }
    assert forall k | SameMessage(t, k, true, source) :: SavedTogether(t, k, source);
  }

  lemma InsertsTogether(db: Coin.Db, t: Tables, p: Preview, u: UseId, now: Time)
    requires p.use == u && |p.evidence| == |p.generations| && 2 <= |p.evidence| <= 3
    requires forall i | 0 <= i < |p.evidence| ::
      Fits(db, p.evidence[i], p.generations[i], now) && EvidenceIs(db, p.evidence[i], p.generations[i])
    ensures InsertMulti(db, t, p, u) == Ok((
      t.(previews := t.previews[Multi(t.multiHigh + 1) := p], multiHigh := t.multiHigh + 1,
         uses := t.uses[u := Use(PreviewReady, CoinMultiPreview, t.multiHigh + 1, p.source, None, Distinct(p.generations),
                                 p.generations, None)]),
      Multi(t.multiHigh + 1), true))
  {
    var ids := Distinct(p.generations);
    DistinctIsFirstSeen(p.generations);
    assert p.generations[0] in ids;
    forall g | g in ids ensures g in db.gens && db.gens[g].state == Confirmed {
      var i :| 0 <= i < |p.generations| && p.generations[i] == g;
      assert EvidenceIs(db, p.evidence[i], p.generations[i]);
    }
    assert Elements(ids) == Elements(p.generations);
  }

  /** save_ready of a multi preview, in any state that a history leads to. */
  lemma {:induction false} MultiSaveAnswers(events: seq<Event>, es: seq<EvidenceId>, gs: seq<GenId>, source: Fingerprint,
                                            text: string, now: Time, u: UseId)
    ensures var w := History(events);
      MultiEnds(w.coin.db, w.tables, es, gs, source, text, now, u, SaveMulti(w.coin.db, w.tables, es, gs, source, text, now, u))
  {
    EveryHistoryIsSound(events);
    var w := History(events);
    SavesTogether(w.coin.db, w.tables, es, gs, source, text, now, u);
  }

  /** What stands behind a stored preview: its own use, which stands for exactly the confirmed
      generations of its READY evidence. */
  ghost predicate Backed(db: Coin.Db, t: Tables, key: PreviewKey)
    requires key in t.previews
  {
    var p := t.previews[key];
    && p.use in t.uses && t.uses[p.use].state == PreviewReady && t.uses[p.use].operationalId == key.id
    && t.uses[p.use].kind == (if key.Single? then CoinPreview else CoinMultiPreview) && t.uses[p.use].source == p.source
    && (if key.Single? then |p.evidence| == 1 else 2 <= |p.evidence| <= 3 && |p.generations| == |p.evidence|)
    && (forall i | 0 <= i < |p.evidence| ::
          && p.evidence[i] in db.evidence && db.evidence[p.evidence[i]].state == Coin.Ready
          && db.evidence[p.evidence[i]].generation.Some?
          && (key.Multi? ==> p.generations[i] == db.evidence[p.evidence[i]].generation.value))
    && (forall g :: g in t.uses[p.use].generations <==>
          exists i :: 0 <= i < |p.evidence| && p.evidence[i] in db.evidence && db.evidence[p.evidence[i]].generation == Some(g))
    && (forall g | g in t.uses[p.use].generations :: g in db.gens && db.gens[g].state == Confirmed)
  }

  lemma {:induction false} StoredPreviewsAreBacked(events: seq<Event>, key: PreviewKey)
    requires key in History(events).tables.previews
    ensures Backed(History(events).coin.db, History(events).tables, key)
  {
    EveryHistoryIsSound(events);
    var w := History(events);
    assert PreviewOk(w.coin.db, w.tables, key);
    ValidIsBacked(w.coin.db, w.tables, key);
  }

  lemma ValidIsBacked(db: Coin.Db, t: Tables, key: PreviewKey)
    requires CoinRuns.Coupling(db) && key in t.previews && PreviewOk(db, t, key)
    ensures Backed(db, t, key)
  {
    var p := t.previews[key];
    var ids := t.uses[p.use].generations;
    forall i | 0 <= i < |p.evidence|
      ensures p.evidence[i] in db.evidence && db.evidence[p.evidence[i]].state == Coin.Ready
      ensures db.evidence[p.evidence[i]].generation.Some? && db.evidence[p.evidence[i]].generation.value in ids
      ensures key.Multi? ==> p.generations[i] == db.evidence[p.evidence[i]].generation.value
    {
      assert p.evidence[i] in p.evidence;
      assert CoinRuns.Coupled(db.gens, db.evidence[p.evidence[i]]);
      BacksOne(db, t, key, i);
    }
    forall g | g in ids
      ensures exists i :: 0 <= i < |p.evidence| && p.evidence[i] in db.evidence && db.evidence[p.evidence[i]].generation == Some(g)
    {
      IsBacked(db, t, key, g);
    }
  }

  lemma BacksOne(db: Coin.Db, t: Tables, key: PreviewKey, i: nat)
    requires key in t.previews && ValidatePreview(db, t, key).Ok? && i < |t.previews[key].evidence|
    ensures var p := t.previews[key];
      && p.evidence[i] in db.evidence && db.evidence[p.evidence[i]].generation.Some? && p.use in t.uses
      && db.evidence[p.evidence[i]].generation.value in t.uses[p.use].generations
      && (key.Multi? ==> |p.generations| == |p.evidence| && p.generations[i] == db.evidence[p.evidence[i]].generation.value)
  {
    var p := t.previews[key];
    var ids := t.uses[p.use].generations;
    if key.Single? {
      var g := Coin.ValidateCoinEvidence(db.gens, db.evidence[p.evidence[0]]).value;
      assert g in Elements(ids);
    } else {
      assert EvidenceIs(db, p.evidence[i], p.generations[i]);
      assert p.generations[i] in Elements(p.generations);
      assert p.generations[i] in Elements(ids);
    }
  }

  lemma IsBacked(db: Coin.Db, t: Tables, key: PreviewKey, g: GenId)
    requires key in t.previews && ValidatePreview(db, t, key).Ok? && g in t.uses[t.previews[key].use].generations
    ensures var p := t.previews[key];
      exists i :: 0 <= i < |p.evidence| && p.evidence[i] in db.evidence && db.evidence[p.evidence[i]].generation == Some(g)
  {
    var p := t.previews[key];
    var ids := t.uses[p.use].generations;
    assert g in Elements(ids);
    if key.Single? {
      assert Coin.ValidateCoinEvidence(db.gens, db.evidence[p.evidence[0]]) == Ok(g);
      assert db.evidence[p.evidence[0]].generation == Some(g);
    } else {
      assert g in Elements(p.generations);
      var i :| 0 <= i < |p.generations| && p.generations[i] == g;
      assert EvidenceIs(db, p.evidence[i], p.generations[i]);
    }
  }

  // --------------------------------------------------------------- reserve, purge

  /** A reservation that is new: its row is pending, and its use stands for the generations of
      the preview's use. */
  ghost predicate ReservesNew(t: Tables, t': Tables, key: PreviewKey, destination: Fingerprint, d: DeliveryId, u: UseId)
    requires key in t.previews
  {
    var p := t.previews[key];
    && p.use in t.uses && t'.previews == t.previews && t'.multiHigh == t.multiHigh
    && t'.deliveries == t.deliveries[d := Delivery(Some(key), p.source, destination, Pending, 0, u, None)]
    && t'.uses == t.uses[u := Use(SendReserved, if key.Single? then CoinDelivery else CoinMultiDelivery, d, p.source,
                                  Some(destination), t.uses[p.use].generations, t.uses[p.use].occurrences, Some(p.use))]
  }

  /** reserve finds the pair's row, whichever preview it was made for, or makes one. */
  lemma {:induction false} ReserveAnswers(events: seq<Event>, key: PreviewKey, destination: Fingerprint, d: DeliveryId, u: UseId)
    ensures var t := History(events).tables;
      var r := Reserve(History(events).coin.db, t, key, destination, d, u);
      if key !in t.previews then r == Err(NotFound)
      else
        && (forall x | x in t.deliveries && t.deliveries[x].source == t.previews[key].source
                       && t.deliveries[x].destination == destination :: r == Ok((t, x, false)))
        && ((forall x | x in t.deliveries :: t.deliveries[x].source != t.previews[key].source
                                             || t.deliveries[x].destination != destination) ==>
              r.Ok? && r.value.1 == d && r.value.2 && ReservesNew(t, r.value.0, key, destination, d, u))
  {
    EveryHistoryIsSound(events);
    var w := History(events);
    if key in w.tables.previews {
      assert PreviewOk(w.coin.db, w.tables, key);
      DeliverySafety.ValidPreviewIsReserved(w.coin.db, w.tables, key, destination, d, u);
      ReserveEffect(w.coin.db, w.tables, key, destination, d, u);
      ReserveFinds(w.coin.db, w.tables, key, destination, d, u);
    }
  }

  lemma ReserveFinds(db: Coin.Db, t: Tables, key: PreviewKey, destination: Fingerprint, d: DeliveryId, u: UseId)
    requires key in t.previews && OneRowPerPair(t.deliveries)
    ensures forall x | x in t.deliveries && HasPair(t.deliveries[x], t.previews[key].source, destination) ::
      Reserve(db, t, key, destination, d, u) == Ok((t, x, false))
  {
  }

  /** The evidence's link was over when this claim ran. */
  ghost predicate OverBy(db: Coin.Db, a: CoinRuns.Action, e: EvidenceId) {
    e in db.evidence && db.evidence[e].ready.Some? && CoinSafety.ClaimsAfter(a, db.evidence[e].ready.value.expiresAt)
  }

  ghost predicate DropsOnly(t: Tables, t': Tables, k: PreviewKey)
    requires k in t.previews
  {
    && (k in t'.previews ==> t'.previews[k] == t.previews[k])
    && t'.uses == t.uses && t'.deliveries.Keys == t.deliveries.Keys
    && (forall d | d in t.deliveries && t.deliveries[d].preview == Some(k) ::
          t'.deliveries[d] == t.deliveries[d].(preview := if k in t'.previews then Some(k) else None))
  }

  lemma PurgeDrops(t: Tables, ids: set<EvidenceId>, k: PreviewKey)
    requires k in t.previews
    ensures DropsOnly(t, Purge(t, ids), k)
    ensures k in Purge(t, ids).previews <==> forall e | e in t.previews[k].evidence :: e !in ids
  {
  }

  /** The coin generator drops evidence, and with it the previews that rest on it, only when a
      claim commits at or after the end of its link; deliveries lose their pointer to such a
      preview and nothing else. */
  lemma {:induction false} PurgeAnswers(events: seq<Event>, a: CoinRuns.Action, k: PreviewKey)
    requires k in History(events).tables.previews
    ensures var w := History(events);
      && DropsOnly(w.tables, Next(w, CoinAction(a)).tables, k)
      && (k !in Next(w, CoinAction(a)).tables.previews ==>
            exists e | e in w.tables.previews[k].evidence :: OverBy(w.coin.db, a, e))
  {
    EveryHistoryIsSound(events);
    DropsEnded(History(events), a, k);
  }

  lemma DropsEnded(w: World, a: CoinRuns.Action, k: PreviewKey)
    requires CoinRuns.Inv(w.coin) && k in w.tables.previews
    ensures DropsOnly(w.tables, Next(w, CoinAction(a)).tables, k)
    ensures k !in Next(w, CoinAction(a)).tables.previews ==>
      exists e | e in w.tables.previews[k].evidence :: OverBy(w.coin.db, a, e)
  {
    var ids := CoinSafety.PurgedBy(w.coin, a);
    PurgeDrops(w.tables, ids, k);
    assert Next(w, CoinAction(a)).tables == Purge(w.tables, ids);
    if k !in Purge(w.tables, ids).previews {
      var e :| e in w.tables.previews[k].evidence && e in ids;
      CoinSafety.PurgedIsExpired(w.coin, a, e);
      assert OverBy(w.coin.db, a, e);
    }
  }
}
