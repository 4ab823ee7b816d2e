/**
 The preview and delivery repositories as they change their tables, and the delivery
 service that drives them.  Every method is proved to take the steps of module Deliveries.
 */
module DeliveryStore {
  import opened Prelude
  import opened Ledger
  import opened Outbound
  import opened Deliveries
  import Coin
  import CoinRuns
  import opened DeliverySafety

  datatype Status = NotReady | AlreadyAttempted(state: DeliveryState) | Ended(state: DeliveryState)

  class OutboundStore {
    var gens: Rows
    var evidence: Coin.Table
    var previews: map<PreviewKey, Preview>
    var multiHigh: nat
    var uses: map<UseId, Use>
    var deliveries: map<DeliveryId, Delivery>
    /** uuid4 and the row id sequences: every id drawn so far is smaller. */
    var next: nat

    /** The rest of the world: the generator's workers, this service's logs, and the
        history that led here. */
    ghost var coin: CoinRuns.System
    ghost var attempts: map<DeliveryId, Attempt>
    ghost var sends: seq<Send>
    ghost var created: seq<nat>
    ghost var events: seq<Event>

    function Tables(): Tables
      reads this
    {
      Outbound.Tables.Tables(previews, multiHigh, uses, deliveries)
    }

    ghost function World(): World
      reads this
    {
      Deliveries.World.World(coin, Tables(), attempts, sends, created)
    }

    ghost predicate Valid()
      reads this
    {
      && World() == History(events) && coin.db == Coin.Db(gens, evidence)
      && (forall u | u in uses :: u < next) && (forall d | d in deliveries :: d < next)
    }

    constructor ()
      ensures Valid() && events == []
    {
      gens, evidence, previews, multiHigh, uses, deliveries, next := map[], map[], map[], 0, map[], map[], 0;
      coin, attempts, sends, created, events := CoinRuns.Initial(), map[], [], [], [];
    }

    /** The highest singleton preview id in the previews and in the append-only uses. */
    method HighWater() returns (high: nat)
      ensures high == Max(SingleIds(Tables()))
    {
      high := 0;
      var ids := SingleIds(Tables());
      var rest := ids;
      while rest != {}
        invariant rest <= ids
        invariant forall i | i in ids - rest :: i <= high
        invariant high == 0 || high in ids
      {
        var i :| i in rest;
        if high < i {
          high := i;
        }
        assert ids - (rest - {i}) == ids - rest + {i};
        rest := rest - {i};
      }
      assert ids - rest == ids;
    }

    /** save_ready of a singleton preview, with the use id that the transaction draws. */
    method SaveReady(e: EvidenceId, source: Fingerprint, text: string, now: Time, contentExpiresAt: Time, u: UseId)
      returns (r: Result<(PreviewKey, bool), OutboundError>)
      requires OneKeyPerMessage(previews)
      modifies this`previews, this`uses
      ensures match Outbound.SaveSingle(Coin.Db(gens, evidence), old(Tables()), e, source, text, now, contentExpiresAt, u)
              case Err(error) => r == Err(error) && Tables() == old(Tables())
              case Ok((t, k, inserted)) => r == Ok((k, inserted)) && Tables() == t
    {
      var db := Coin.Db(gens, evidence);
      if !ReadyAt(db, e, now) {
        return Err(EvidenceRequired);
      }
      var checked := Coin.ValidateCoinEvidence(gens, evidence[e]);
      if checked.Err? {
        return Err(Invalid(checked.error));
      }
      if exists k | k in previews :: SameMessage(Tables(), k, false, source) {
        var key :| key in previews && SameMessage(Tables(), key, false, source);
        assert forall k | SameMessage(Tables(), k, false, source) :: k == key;
        r := KeepSingle(key, e, checked.value, text, u);
      } else {
        assert !exists k :: SameMessage(Tables(), k, false, source);
        var high := HighWater();
        r := InsertSingle(high, Preview(source, text, contentExpiresAt, [e], [], u), checked.value, u);
      }
    }

    /** A message that has a preview already. */
    method KeepSingle(key: PreviewKey, e: EvidenceId, g: GenId, text: string, u: UseId)
      returns (r: Result<(PreviewKey, bool), OutboundError>)
      requires key in previews
      modifies this`uses
      ensures match Outbound.KeepSingle(Coin.Db(gens, evidence), old(Tables()), key, e, g, text, u)
              case Err(error) => r == Err(error) && Tables() == old(Tables())
              case Ok((t, k, inserted)) => r == Ok((k, inserted)) && Tables() == t
    {
      if previews[key].evidence != [e] || previews[key].text != text {
        return Err(SourceMessageChanged);
      }
      var valid := ValidatePreview(Coin.Db(gens, evidence), Tables(), key);
      if valid.Err? {
        return Err(valid.error);
      }
      r := RecordPreview(u, SingleUse(key.id, previews[key].source, g), key, false);
    }

    /** A message without one: the next id above the high-water mark. */
    method InsertSingle(high: nat, p: Preview, g: GenId, u: UseId) returns (r: Result<(PreviewKey, bool), OutboundError>)
      modifies this`previews, this`uses
      ensures match Outbound.InsertSingle(Coin.Db(gens, evidence), old(Tables()), high, p, g, u)
              case Err(error) => r == Err(error) && Tables() == old(Tables())
              case Ok((t, k, inserted)) => r == Ok((k, inserted)) && Tables() == t
    {
      var before := previews;
      previews := previews[Single(high + 1) := p];
      r := RecordPreview(u, SingleUse(high + 1, p.source, g), Single(high + 1), true);
      if r.Err? {
        previews := before;
      }
    }

    /** record_use of a preview. */
    method RecordPreview(u: UseId, use: Use, key: PreviewKey, inserted: bool)
      returns (r: Result<(PreviewKey, bool), OutboundError>)
      modifies this`uses
      ensures match RecordPreviewUse(gens, old(Tables()), u, use)
              case Err(error) => r == Err(error) && Tables() == old(Tables())
              case Ok(t) => r == Ok((key, inserted)) && Tables() == t
    {
      if !AllConfirmed(gens, use.generations) {
        return Err(Invalid(LinkInvalid));
      }
      uses := uses[u := use];
      r := Ok((key, inserted));
    }

    method SaveStep(e: EvidenceId, source: Fingerprint, text: string, now: Time, contentExpiresAt: Time, u: UseId)
      returns (r: Result<(PreviewKey, bool), OutboundError>)
      requires OneKeyPerMessage(previews) && u !in uses && coin.db == Coin.Db(gens, evidence)
      modifies this`previews, this`uses, this`created
      ensures World() == Next(old(World()), SavedSingle(e, source, text, now, contentExpiresAt, u))
      ensures SaveAnswer(old(World()), e, source, text, now, contentExpiresAt, u, r)
      ensures uses.Keys <= old(uses.Keys) + {u}
    {
      ghost var w := World();
      r := SaveReady(e, source, text, now, contentExpiresAt, u);
      if r.Ok? && r.value.1 {
        created := created + [r.value.0.id];
      }
      SingleStep(w, World(), e, source, text, now, contentExpiresAt, u, r);
    }

    /** One save transaction of a singleton preview. */
    method SaveSingle(e: EvidenceId, source: Fingerprint, text: string, now: Time, contentExpiresAt: Time)
      returns (r: Result<(PreviewKey, bool), OutboundError>)
      requires Valid()
      modifies this
      ensures Valid() && events == old(events) + [SavedSingle(e, source, text, now, contentExpiresAt, old(next))]
      ensures SaveAnswer(old(World()), e, source, text, now, contentExpiresAt, old(next), r)
    {
      ghost var w := World();
      TablesAreUnique(events);
      var slot := next;
      next := next + 1;
      r := SaveStep(e, source, text, now, contentExpiresAt, slot);
      Log(w, SavedSingle(e, source, text, now, contentExpiresAt, slot));
    }

    ghost method Log(w: World, e: Event)
      requires w == History(events) && World() == Next(w, e)
      modifies this`events
      ensures events == old(events) + [e] && World() == History(events) == old(World())
    {
      HistorySnoc(events, e);
      events := events + [e];
    }

    /** save_ready of a multi preview: every link checked, the first expiry kept. */
    method SaveMulti(es: seq<EvidenceId>, gs: seq<GenId>, source: Fingerprint, text: string, now: Time, u: UseId)
      returns (r: Result<(PreviewKey, bool), OutboundError>)
      requires OneKeyPerMessage(previews)
      modifies this`previews, this`uses, this`multiHigh
      ensures match Outbound.SaveMulti(Coin.Db(gens, evidence), old(Tables()), es, gs, source, text, now, u)
              case Err(error) => r == Err(error) && Tables() == old(Tables())
              case Ok((t, k, inserted)) => r == Ok((k, inserted)) && Tables() == t
    {
      var db := Coin.Db(gens, evidence);
      if |es| != |gs| || !(2 <= |es| <= 3) {
        return Err(ContractInvalid);
      }
      var refused := CheckLinks(es, gs, now);
      if refused.Some? {
        return Err(refused.value);
      }
      if exists k | k in previews :: SameMessage(Tables(), k, true, source) {
        var key :| key in previews && SameMessage(Tables(), key, true, source);
        assert forall k | SameMessage(Tables(), k, true, source) :: k == key;
        r := SavedBefore(key, es, gs, text);
      } else {
        assert !exists k :: SameMessage(Tables(), k, true, source);
        var expiry := FirstToExpire(es, now);
        var distinct := DistinctIds(gs);
        r := InsertMulti(Preview(source, text, expiry, es, gs, u), distinct, u);
      }
    }

    method SaveMultiStep(es: seq<EvidenceId>, gs: seq<GenId>, source: Fingerprint, text: string, now: Time, u: UseId)
      returns (r: Result<(PreviewKey, bool), OutboundError>)
      requires OneKeyPerMessage(previews) && u !in uses && coin.db == Coin.Db(gens, evidence)
      modifies this`previews, this`uses, this`multiHigh
      ensures World() == Next(old(World()), SavedMulti(es, gs, source, text, now, u))
      ensures SaveMultiAnswer(old(World()), es, gs, source, text, now, u, r)
      ensures uses.Keys <= old(uses.Keys) + {u}
    {
      ghost var w := World();
      r := SaveMulti(es, gs, source, text, now, u);
      MultiStep(w, World(), es, gs, source, text, now, u, r);
    }

    /** One save transaction of a multi preview. */
    method SaveMultiPreview(es: seq<EvidenceId>, gs: seq<GenId>, source: Fingerprint, text: string, now: Time)
      returns (r: Result<(PreviewKey, bool), OutboundError>)
      requires Valid()
      modifies this
      ensures Valid() && events == old(events) + [SavedMulti(es, gs, source, text, now, old(next))]
      ensures SaveMultiAnswer(old(World()), es, gs, source, text, now, old(next), r)
    {
      ghost var w := World();
      TablesAreUnique(events);
      var slot := next;
      next := next + 1;
      r := SaveMultiStep(es, gs, source, text, now, slot);
      Log(w, SavedMulti(es, gs, source, text, now, slot));
    }

    /** Every link of the message is READY and of the generation it is said to be; the first
        that is not decides the error. */
    method CheckLinks(es: seq<EvidenceId>, gs: seq<GenId>, now: Time) returns (refused: Option<OutboundError>)
      requires |es| == |gs|
      ensures refused == LinksRefused(Coin.Db(gens, evidence), es, gs, now)
      ensures refused.None? ==> forall i | 0 <= i < |es| :: LinkRefused(Coin.Db(gens, evidence), es[i], gs[i], now).None?
      ensures refused.Some? ==> exists i | 0 <= i < |es| ::
                && refused == LinkRefused(Coin.Db(gens, evidence), es[i], gs[i], now)
                && forall j | 0 <= j < i :: LinkRefused(Coin.Db(gens, evidence), es[j], gs[j], now).None?
    {
      var db := Coin.Db(gens, evidence);
      for i := 0 to |es|
        invariant LinksRefused(db, es[..i], gs[..i], now).None?
        invariant forall j | 0 <= j < i :: LinkRefused(db, es[j], gs[j], now).None?
      {
        assert es[..i + 1][..i] == es[..i] && gs[..i + 1][..i] == gs[..i];
        if !ReadyAt(db, es[i], now) {
          assert LinkRefused(db, es[i], gs[i], now) == Some(EvidenceRequired);
          RefusedEarly(db, es, gs, now, i + 1);
          return Some(EvidenceRequired);
        }
        var checked := Coin.ValidateCoinEvidence(gens, evidence[es[i]]);
        if checked.Err? || checked.value != gs[i] {
          RefusedEarly(db, es, gs, now, i + 1);
          return Some(if checked.Err? then Invalid(checked.error) else GenerationChanged);
        }
      }
      assert es[..|es|] == es && gs[..|gs|] == gs;
      refused := None;
    }

    /** A message that has a preview already keeps it, if it is the same and still valid. */
    method SavedBefore(key: PreviewKey, es: seq<EvidenceId>, gs: seq<GenId>, text: string)
      returns (r: Result<(PreviewKey, bool), OutboundError>)
      requires key in previews
      ensures match KeepMulti(Coin.Db(gens, evidence), Tables(), key, es, gs, text)
              case Err(error) => r == Err(error)
              case Ok((t, k, inserted)) => r == Ok((k, inserted)) && t == Tables()
    {
      if previews[key].evidence != es || previews[key].generations != gs || previews[key].text != text {
        return Err(SourceMessageChanged);
      }
      var valid := ValidatePreview(Coin.Db(gens, evidence), Tables(), key);
      return if valid.Err? then Err(valid.error) else Ok((key, false));
    }

    /** min over the expiries. */
    method FirstToExpire(es: seq<EvidenceId>, now: Time) returns (expiry: Time)
      requires es != [] && forall i | 0 <= i < |es| :: ReadyAt(Coin.Db(gens, evidence), es[i], now)
      ensures expiry == FirstExpiry(Coin.Db(gens, evidence), es, now)
      ensures forall i | 0 <= i < |es| :: expiry <= evidence[es[i]].ready.value.expiresAt
      ensures exists i | 0 <= i < |es| :: expiry == evidence[es[i]].ready.value.expiresAt
    {
      assert ReadyAt(Coin.Db(gens, evidence), es[0], now);
      expiry := evidence[es[0]].ready.value.expiresAt;
      assert es[..1][..0] == [];
      for i := 1 to |es|
        invariant expiry == FirstExpiry(Coin.Db(gens, evidence), es[..i], now)
        invariant forall j | 0 <= j < i :: expiry <= evidence[es[j]].ready.value.expiresAt
        invariant exists j | 0 <= j < i :: expiry == evidence[es[j]].ready.value.expiresAt
      {
        assert ReadyAt(Coin.Db(gens, evidence), es[i], now);
        assert es[..i + 1][..i] == es[..i];
        if evidence[es[i]].ready.value.expiresAt <= expiry {
          expiry := evidence[es[i]].ready.value.expiresAt;
        }
      }
      assert es[..|es|] == es;
    }

    /** dict.fromkeys: each generation once, in the order in which they are first seen. */
    method DistinctIds(gs: seq<GenId>) returns (ids: seq<GenId>)
      ensures ids == Distinct(gs) && FirstSeen(gs, ids)
      ensures forall i, j | 0 <= i < j < |ids| :: ids[i] != ids[j]
    {
      ids := [];
      for i := 0 to |gs|
        invariant ids == Distinct(gs[..i])
      {
        assert gs[..i + 1][..i] == gs[..i];
        if gs[i] !in ids {
          ids := ids + [gs[i]];
        }
      }
      assert gs[..|gs|] == gs;
      DistinctIsFirstSeen(gs);
      forall i, j | 0 <= i < j < |ids| ensures ids[i] != ids[j] {
        assert SeenBefore(gs, ids[i], ids[j]);
      }
    }

    /** The preview, its use, and the validation of the result; or none of it. */
    method InsertMulti(p: Preview, ids: seq<GenId>, u: UseId) returns (r: Result<(PreviewKey, bool), OutboundError>)
      requires ids == Distinct(p.generations)
      modifies this`previews, this`uses, this`multiHigh
      ensures match Outbound.InsertMulti(Coin.Db(gens, evidence), old(Tables()), p, u)
              case Err(error) => r == Err(error) && Tables() == old(Tables())
              case Ok((t, k, inserted)) => r == Ok((k, inserted)) && Tables() == t
    {
      var oldPreviews, oldUses, oldHigh := previews, uses, multiHigh;
      var key := Multi(multiHigh + 1);
      multiHigh, previews := multiHigh + 1, previews[key := p];
      ghost var t := Tables();
      r := RecordPreview(u, Use(PreviewReady, CoinMultiPreview, key.id, p.source, None, ids, p.generations, None), key, true);
      assert t == old(Tables()).(previews := old(previews)[key := p], multiHigh := key.id);
      if r.Ok? {
        var valid := ValidatePreview(Coin.Db(gens, evidence), Tables(), key);
        if valid.Err? {
          r := Err(valid.error);
        }
      }
      if r.Err? {
        previews, uses, multiHigh := oldPreviews, oldUses, oldHigh;
      }
    }

    // ------------------------------------------------------------- deliveries

    /** reserve, with the ids that the transaction draws. */
    method ReserveRow(key: PreviewKey, destination: Fingerprint, d: DeliveryId, u: UseId)
      returns (r: Result<(DeliveryId, bool), OutboundError>)
      requires OneRowPerPair(deliveries)
      modifies this`deliveries, this`uses
      ensures match Outbound.Reserve(Coin.Db(gens, evidence), old(Tables()), key, destination, d, u)
              case Err(error) => r == Err(error) && Tables() == old(Tables())
              case Ok((t, x, inserted)) => r == Ok((x, inserted)) && Tables() == t
    {
      if key !in previews {
        return Err(NotFound);
      }
      var p := previews[key];
      if exists x | x in deliveries :: HasPair(deliveries[x], p.source, destination) {
        var x :| x in deliveries && HasPair(deliveries[x], p.source, destination);
        return Ok((x, false));
      }
      var ids := ValidatePreview(Coin.Db(gens, evidence), Tables(), key);
      if ids.Err? {
        return Err(ids.error);
      }
      var before := deliveries;
      deliveries := deliveries[d := Delivery(Some(key), p.source, destination, Pending, 0, u, None)];
      var recorded := RecordSendUse(gens, Tables(), u, p.use, ids.value, DeliveryKind(key), d, p.source, destination);
      if recorded.Err? {
        deliveries := before;
        return Err(recorded.error);
      }
      uses := recorded.value.uses;
      r := Ok((d, true));
    }

    /** The transition of the audit use that shares a delivery's transaction. */
    method Audit(d: DeliveryId, row: Delivery, state: UseState) returns (r: Result<(), OutboundError>)
      requires d in deliveries
      modifies this`uses, this`deliveries
      ensures match Transition(old(Tables()), d, row, state)
              case Err(error) => r == Err(error) && Tables() == old(Tables())
              case Ok(t) => r == Ok(()) && Tables() == t
    {
      var kind := HistoryKind(Tables(), d);
      if kind.Err? {
        return Err(kind.error);
      }
      var before := deliveries;
      deliveries := deliveries[d := row];
      if !OwnsUse(uses, row.use, kind.value, d, row.source, row.destination) {
        deliveries := before;
        return Err(OwnerInvalid);
      }
      if uses[row.use].state !in AllowedBefore(state) {
        deliveries := before;
        return Err(TransitionConflict);
      }
      uses := uses[row.use := uses[row.use].(state := state)];
      r := Ok(());
    }

    /** mark_sending: one conditional update, then the audit. */
    method MarkSending(d: DeliveryId) returns (r: Result<(), OutboundError>)
      modifies this`uses, this`deliveries
      ensures match Outbound.MarkSending(old(Tables()), d)
              case Err(error) => r == Err(error) && Tables() == old(Tables())
              case Ok(t) => r == Ok(()) && Tables() == t
    {
      if d !in deliveries || deliveries[d].state != Pending || deliveries[d].attempts != 0 {
        return Err(TransitionConflict);
      }
      r := Audit(d, deliveries[d].(state := Sending, attempts := 1), SendInFlight);
    }

    method Finish(d: DeliveryId, state: DeliveryState, messageId: Option<string>) returns (r: Result<(), OutboundError>)
      requires Final(state)
      modifies this`uses, this`deliveries
      ensures match Outbound.Finish(old(Tables()), d, state, messageId)
              case Err(error) => r == Err(error) && Tables() == old(Tables())
              case Ok(t) => r == Ok(()) && Tables() == t
    {
      if d !in deliveries || !CanFinish(deliveries[d], state) {
        return Err(TransitionConflict);
      }
      r := Audit(d, deliveries[d].(state := state, messageId := messageId), Mirror(state));
    }

    // ---------------------------------------------------------------- service

    /** _deliver's first transaction: get_ready, then reserve. */
    method ReserveReady(key: PreviewKey, destination: Fingerprint, now: Time, d: DeliveryId)
      returns (r: Option<(DeliveryId, bool)>)
      requires OneRowPerPair(deliveries) && d !in uses && d !in deliveries && coin.db == Coin.Db(gens, evidence)
      modifies this`deliveries, this`uses, this`attempts
      ensures World() == Next(old(World()), Reserved(key, destination, now, d, d))
      ensures ReserveAnswer(old(World()), World(), key, destination, now, d, r)
      ensures uses.Keys <= old(uses.Keys) + {d} && deliveries.Keys <= old(deliveries.Keys) + {d}
    {
      ghost var w := World();
      var ready := GetReady(Coin.Db(gens, evidence), Tables(), key, now);
      r := None;
      if ready.Ok? && ready.value.Some? {
        var reserved := ReserveRow(key, destination, d, d);
        if reserved.Ok? {
          r := Some(reserved.value);
          if reserved.value.1 {
            attempts := attempts[d := Attempt(false, None, false)];
          }
        }
      }
      ReserveStep(w, World(), key, destination, now, d, r);
    }

    method ReserveLogged(key: PreviewKey, destination: Fingerprint, now: Time)
      returns (r: Option<(DeliveryId, bool)>)
      requires Valid()
      modifies this
      ensures Valid() && next == old(next) + 1
      ensures events == old(events) + [Reserved(key, destination, now, old(next), old(next))]
      ensures ReserveAnswer(old(World()), World(), key, destination, now, old(next), r)
    {
      ghost var w := World();
      TablesAreUnique(events);
      var slot := next;
      next := next + 1;
      r := ReserveReady(key, destination, now, slot);
      Log(w, Reserved(key, destination, now, slot, slot));
    }

    method MarkStep(d: DeliveryId) returns (sending: bool)
      requires d in attempts && attempts[d] == Attempt(false, None, false)
      modifies this`uses, this`deliveries, this`attempts
      ensures World() == Next(old(World()), MarkedSending(d, true))
      ensures d in attempts && attempts[d] == Attempt(sending, None, false)
      ensures sending <==> Outbound.MarkSending(old(Tables()), d).Ok?
      ensures uses.Keys == old(uses.Keys) && deliveries.Keys == old(deliveries.Keys)
    {
      ghost var w := World();
      var marked := MarkSending(d);
      sending := marked.Ok?;
      if sending {
        attempts := attempts[d := attempts[d].(sending := true)];
      }
      SendingStep(w, World(), d);
    }

    /** One mark_sending transaction. */
    method LogMarked(d: DeliveryId) returns (sending: bool)
      requires Valid() && d in attempts && attempts[d] == Attempt(false, None, false)
      modifies this`uses, this`deliveries, this`attempts, this`events
      ensures Valid() && events == old(events) + [MarkedSending(d, true)]
      ensures d in attempts && attempts[d] == Attempt(sending, None, false)
      ensures d in old(deliveries) && (sending <==> old(deliveries)[d].state == Pending)
    {
      ghost var w := World();
      AttemptsAreRows(events, d);
      sending := MarkStep(d);
      Log(w, MarkedSending(d, true));
    }

    method FinishStep(d: DeliveryId, sending: bool, sent: Option<SendOutcome>) returns (state: DeliveryState)
      requires d in attempts && attempts[d] == Attempt(sending, sent, false)
      modifies this`uses, this`deliveries, this`attempts
      ensures World() == Next(old(World()), Finished(d, true)) && state == ResultOf(Attempt(sending, sent, false)).0
      ensures uses.Keys == old(uses.Keys) && deliveries.Keys == old(deliveries.Keys)
    {
      ghost var w := World();
      var (final, id) := ResultOf(Attempt(sending, sent, false));
      var _ := Finish(d, final, id);
      attempts := attempts[d := attempts[d].(done := true)];
      FinishedWorld(w, World(), d);
      state := final;
    }

    method LogFinished(d: DeliveryId, sending: bool, sent: Option<SendOutcome>) returns (state: DeliveryState)
      requires Valid() && d in attempts && attempts[d] == Attempt(sending, sent, false)
      modifies this`uses, this`deliveries, this`attempts, this`events
      ensures Valid() && events == old(events) + [Finished(d, true)]
      ensures d in deliveries && deliveries[d].state == state == ResultOf(Attempt(sending, sent, false)).0
      ensures deliveries[d].messageId == ResultOf(Attempt(sending, sent, false)).1
    {
      ghost var w := World();
      ResultIsAlwaysStored(events, d);
      state := FinishStep(d, sending, sent);
      Log(w, Finished(d, true));
    }

    /** _deliver_reserved: inspect the channel, mark the row, send once, store the result. */
    method DeliverReserved(d: DeliveryId, preflight: bool, response: SendOutcome) returns (state: DeliveryState)
      requires Valid() && d in attempts && attempts[d] == Attempt(false, None, false)
      requires d in deliveries && deliveries[d].state == Pending
      modifies this`uses, this`deliveries, this`attempts, this`sends, this`events
      ensures Valid() && events == old(events) + ReservedRun(d, preflight, response)
      ensures sends == old(sends) + if preflight then [Send(d, response)] else []
      ensures d in deliveries && deliveries[d].state == state && EndsAs(deliveries[d], preflight, response)
    {
      var sending, sent := false, None;
      if preflight {
        sending := LogMarked(d);
        LogSent(d, response);
        sent := Some(response);
      }
      ResultEndsAs(preflight, response);
      state := LogFinished(d, sending, sent);
    }

    /** The one message of a worker that has marked its row. */
    method LogSent(d: DeliveryId, response: SendOutcome)
      requires Valid() && d in attempts && attempts[d] == Attempt(true, None, false)
      modifies this`attempts, this`sends, this`events
      ensures Valid() && events == old(events) + [SendText(d, response)]
      ensures sends == old(sends) + [Send(d, response)]
      ensures d in attempts && attempts[d] == Attempt(true, Some(response), false)
    {
      ghost var w := World();
      sends := sends + [Send(d, response)];
      attempts := attempts[d := attempts[d].(sent := Some(response))];
      Log(w, SendText(d, response));
    }

    /** One call of the delivery service: one message exactly when the preview can be
        delivered, the pair is new and the preflight passes, with its result stored.  A
        further call for the same message and destination, through whichever kind of preview,
        sends nothing and changes nothing. */
    method Deliver(key: PreviewKey, destination: Fingerprint, now: Time, preflight: bool, response: SendOutcome)
      returns (status: Status)
      requires Valid()
      modifies this
      ensures Valid()
      ensures old(events) <= events
      ensures var ready := old(Deliverable(Coin.Db(gens, evidence), Tables(), key, now));
        var pair := ready && exists x | x in old(deliveries) ::
          old(deliveries)[x].source == old(previews)[key].source && old(deliveries)[x].destination == destination;
        if !ready then status == NotReady && sends == old(sends) && Tables() == old(Tables())
        else if pair then
          && sends == old(sends) && Tables() == old(Tables()) && status.AlreadyAttempted?
          && exists x | x in deliveries ::
               && deliveries[x].source == previews[key].source && deliveries[x].destination == destination
               && status.state == if deliveries[x].state == Sending then InDoubt else deliveries[x].state
        else
          && sends == old(sends) + (if preflight then [Send(old(next), response)] else [])
          && old(next) in deliveries && EndsAs(deliveries[old(next)], preflight, response)
          && deliveries[old(next)].source == old(previews)[key].source && deliveries[old(next)].destination == destination
          && status == Ended(deliveries[old(next)].state)
    {
      ghost var before, w := events, World();
      DeliverableIsReserved(events, key, destination, now, next);
      var reserved := ReserveLogged(key, destination, now);
      if reserved.None? {
        return NotReady;
      }
      var (d, won) := reserved.value;
      if !won {
        return AlreadyAttempted(if deliveries[d].state == Sending then InDoubt else deliveries[d].state);
      }
      ghost var since := events;
      var state := DeliverReserved(d, preflight, response);
      HistoriesGoOnward(since, ReservedRun(d, preflight, response));
      status := Ended(state);
    }
  }

  /** get_ready yields the preview: its content and every link of a multi preview live. */
  predicate Deliverable(db: Coin.Db, t: Tables, key: PreviewKey, now: Time) {
    && key in t.previews && t.previews[key].contentExpiresAt > now
    && (key.Multi? ==> forall i | 0 <= i < |t.previews[key].evidence| :: Lives(db, t.previews[key].evidence[i], now))
  }

  predicate Lives(db: Coin.Db, e: EvidenceId, now: Time) {
    e in db.evidence && db.evidence[e].ready.Some? && db.evidence[e].ready.value.expiresAt > now
  }

  /** A message id: digits, not starting with a zero. */
  predicate IsMessageId(id: string) {
    id != "" && '1' <= id[0] <= '9' && forall i | 0 <= i < |id| :: '0' <= id[i] <= '9'
  }

  /** What a delivery ends as: sent with the id that came back, safely failed when nothing was
      sent or the server refused it, and in doubt otherwise. */
  predicate EndsAs(row: Delivery, preflight: bool, response: SendOutcome) {
    if !preflight || response.Refused? then row.state == FailedSafe && row.messageId.None?
    else if response.Accepted? && IsMessageId(response.id) then row.state == Sent && row.messageId == Some(response.id)
    else row.state == InDoubt && row.messageId.None?
  }

  lemma ResultEndsAs(preflight: bool, response: SendOutcome)
    ensures var result := ResultOf(if preflight then Attempt(true, Some(response), false) else Attempt(false, None, false));
      forall row: Delivery | row.state == result.0 && row.messageId == result.1 :: EndsAs(row, preflight, response)
  {
  }

  lemma AttemptsAreRows(events: seq<Event>, d: DeliveryId)
    requires d in History(events).attempts
    ensures var t := History(events).tables;
      d in t.deliveries && (Outbound.MarkSending(t, d).Ok? <==> t.deliveries[d].state == Pending)
  {
    EveryHistoryIsSound(events);
    AuditMirrorsDelivery(events, d, InDoubt, None);
  }

  lemma DeliverableIsReserved(events: seq<Event>, key: PreviewKey, destination: Fingerprint, now: Time, d: DeliveryId)
    ensures var w := History(events);
      CanReserve(w, key, destination, now, d) <==> Deliverable(w.coin.db, w.tables, key, now)
  {
    StoredPreviewsStayValid(events, key, destination, now, d, d);
    var w := History(events);
    if key in w.tables.previews && key.Multi? {
      ReadyIffAllLive(w.coin.db, w.tables, key, now);
    }
  }

  lemma ReadyIffAllLive(db: Coin.Db, t: Tables, key: PreviewKey, now: Time)
    requires key in t.previews && key.Multi? && GetReady(db, t, key, now).Ok?
    ensures GetReady(db, t, key, now).value.Some? <==> Deliverable(db, t, key, now)
  {
    var p := t.previews[key];
    if Deliverable(db, t, key, now) {
      forall i | 0 <= i < |p.evidence| ensures Lives(db, p.evidence[i], now) {
      }
    }
  }

  /** What mark_sending left behind is the step's next world. */
  lemma SendingStep(w: World, w': World, d: DeliveryId)
    requires d in w.attempts && w.attempts[d] == Attempt(false, None, false)
    requires match MarkSending(w.tables, d)
             case Ok(t) => w' == w.(tables := t, attempts := w.attempts[d := w.attempts[d].(sending := true)])
             case Err(_) => w' == w
    ensures w' == Next(w, MarkedSending(d, true))
    ensures w'.tables.uses.Keys == w.tables.uses.Keys && w'.tables.deliveries.Keys == w.tables.deliveries.Keys
  {
  }

  lemma FinishedWorld(w: World, w': World, d: DeliveryId)
    requires d in w.attempts && !w.attempts[d].done
    requires w' == w.(tables := w'.tables, attempts := w.attempts[d := w.attempts[d].(done := true)])
    requires var (state, id) := ResultOf(w.attempts[d]);
      match Outbound.Finish(w.tables, d, state, id)
      case Ok(t) => w'.tables == t
      case Err(_) => w'.tables == w.tables
    ensures w' == Next(w, Finished(d, true))
    ensures w'.tables.uses.Keys == w.tables.uses.Keys && w'.tables.deliveries.Keys == w.tables.deliveries.Keys
  {
  }

  ghost predicate SaveAnswer(w: World, e: EvidenceId, source: Fingerprint, text: string, now: Time,
                             contentExpiresAt: Time, u: UseId, r: Result<(PreviewKey, bool), OutboundError>) {
    match SaveSingle(w.coin.db, w.tables, e, source, text, now, contentExpiresAt, u)
    case Err(error) => r == Err(error)
    case Ok((_, k, inserted)) => r == Ok((k, inserted))
  }

  lemma SingleStep(w: World, w': World, e: EvidenceId, source: Fingerprint, text: string, now: Time,
                   contentExpiresAt: Time, u: UseId, r: Result<(PreviewKey, bool), OutboundError>)
    requires u !in w.tables.uses
    requires w' == w.(tables := w'.tables, created := w'.created)
    requires match SaveSingle(w.coin.db, w.tables, e, source, text, now, contentExpiresAt, u)
             case Err(error) => w' == w && r == Err(error)
             case Ok((t, k, inserted)) =>
               r == Ok((k, inserted)) && w'.tables == t && w'.created == if inserted then w.created + [k.id] else w.created
    ensures SaveAnswer(w, e, source, text, now, contentExpiresAt, u, r)
    ensures w' == Next(w, SavedSingle(e, source, text, now, contentExpiresAt, u))
    ensures w'.tables.uses.Keys <= w.tables.uses.Keys + {u} && w'.tables.deliveries == w.tables.deliveries
  {
    if SaveSingle(w.coin.db, w.tables, e, source, text, now, contentExpiresAt, u).Ok? {
      SaveSingleEffect(w.coin.db, w.tables, e, source, text, now, contentExpiresAt, u);
    }
  }

  /** The preview that the message ends up with, and whether it is new; or the error. */
  ghost predicate SaveMultiAnswer(w: World, es: seq<EvidenceId>, gs: seq<GenId>, source: Fingerprint, text: string,
                                  now: Time, u: UseId, r: Result<(PreviewKey, bool), OutboundError>) {
    match SaveMulti(w.coin.db, w.tables, es, gs, source, text, now, u)
    case Err(error) => r == Err(error)
    case Ok((_, k, inserted)) => r == Ok((k, inserted))
  }

  lemma MultiStep(w: World, w': World, es: seq<EvidenceId>, gs: seq<GenId>, source: Fingerprint, text: string,
                  now: Time, u: UseId, r: Result<(PreviewKey, bool), OutboundError>)
    requires u !in w.tables.uses
    requires match SaveMulti(w.coin.db, w.tables, es, gs, source, text, now, u)
             case Err(error) => w' == w && r == Err(error)
             case Ok((t, k, inserted)) => w' == w.(tables := t) && r == Ok((k, inserted))
    ensures SaveMultiAnswer(w, es, gs, source, text, now, u, r)
    ensures w' == Next(w, SavedMulti(es, gs, source, text, now, u))
    ensures w'.tables.uses.Keys <= w.tables.uses.Keys + {u} && w'.tables.deliveries == w.tables.deliveries
  {
    if SaveMulti(w.coin.db, w.tables, es, gs, source, text, now, u).Ok? {
      SaveMultiEffect(w.coin.db, w.tables, es, gs, source, text, now, u);
    }
  }

  ghost predicate CanReserve(w: World, key: PreviewKey, destination: Fingerprint, now: Time, d: DeliveryId) {
    var ready := GetReady(w.coin.db, w.tables, key, now);
    ready.Ok? && ready.value.Some? && Reserve(w.coin.db, w.tables, key, destination, d, d).Ok?
  }

  /** Only the call that inserted the pair's row owns an attempt. */
  ghost predicate ReserveAnswer(w: World, w': World, key: PreviewKey, destination: Fingerprint, now: Time, d: DeliveryId,
                                r: Option<(DeliveryId, bool)>) {
    && w'.sends == w.sends
    && (r.None? ==> w' == w && !CanReserve(w, key, destination, now, d))
    && (r.Some? ==> CanReserve(w, key, destination, now, d))
    && (r.Some? ==>
          && key in w.tables.previews && r.value.0 in w'.tables.deliveries
          && HasPair(w'.tables.deliveries[r.value.0], w.tables.previews[key].source, destination)
          && (!r.value.1 ==> w' == w)
          && (r.value.1 ==> r.value.0 == d && d in w'.attempts && w'.attempts[d] == Attempt(false, None, false)
                            && w'.tables.deliveries[d].state == Pending
                            && forall x | x in w.tables.deliveries ::
                                 !HasPair(w.tables.deliveries[x], w.tables.previews[key].source, destination)))
  }

  lemma ReserveStep(w: World, w': World, key: PreviewKey, destination: Fingerprint, now: Time, d: DeliveryId,
                    r: Option<(DeliveryId, bool)>)
    requires d !in w.tables.uses && d !in w.tables.deliveries
    requires r.Some? <==> CanReserve(w, key, destination, now, d)
    requires r.None? ==> w' == w
    requires r.Some? ==>
      && var (t, x, inserted) := Reserve(w.coin.db, w.tables, key, destination, d, d).value;
      && r.value == (x, inserted)
      && w' == w.(tables := t, attempts := if inserted then w.attempts[d := Attempt(false, None, false)] else w.attempts)
    ensures w' == Next(w, Reserved(key, destination, now, d, d))
    ensures w'.tables.uses.Keys <= w.tables.uses.Keys + {d} && w'.tables.deliveries.Keys <= w.tables.deliveries.Keys + {d}
    ensures ReserveAnswer(w, w', key, destination, now, d, r)
  {
    if r.Some? {
      ReserveEffect(w.coin.db, w.tables, key, destination, d, d);
    }
  }

  /** The events of one reservation's worker that is not interrupted. */
  function ReservedRun(d: DeliveryId, preflight: bool, response: SendOutcome): seq<Event> {
    if preflight then [MarkedSending(d, true), SendText(d, response), Finished(d, true)] else [Finished(d, true)]
  }
}
