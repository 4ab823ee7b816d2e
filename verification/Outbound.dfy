/**
 Previews, the append-only uses that audit them, and the one-attempt deliveries of a
 message: the transactions of coin_shadow_repository.py and
 coin_shadow_multi_repository.py over those tables, with the audit transitions of
 history_repository.py that run inside them.
 */
module Outbound {
  import opened Prelude
  import opened Ledger
  import Coin

  type EvidenceId = Coin.EvidenceId
  type UseId = nat
  type DeliveryId = nat

  /** Singleton and multi previews are two tables with ids of their own. */
  datatype PreviewKey = Single(id: nat) | Multi(id: nat)

  /** `generations` are those of the occurrence rows; a singleton preview stores none. */
  datatype Preview = Preview(
    source: Fingerprint, text: string, contentExpiresAt: Time,
    evidence: seq<EvidenceId>, generations: seq<GenId>, use: UseId)

  datatype UseState =
    PreviewReady | SendReserved | SendInFlight | SendConfirmed | SendFailed | SendUncertain

  datatype OperationalKind = CoinPreview | CoinMultiPreview | CoinDelivery | CoinMultiDelivery

  /** `source`, `occurrences` and `previewUse` are the use's origin. */
  datatype Use = Use(
    state: UseState, kind: OperationalKind, operationalId: nat,
    source: Fingerprint, destination: Option<Fingerprint>,
    generations: seq<GenId>, occurrences: seq<GenId>, previewUse: Option<UseId>)

  datatype DeliveryState = Pending | Sending | Sent | FailedSafe | InDoubt

  datatype Delivery = Delivery(
    preview: Option<PreviewKey>, source: Fingerprint, destination: Fingerprint,
    state: DeliveryState, attempts: nat, use: UseId, messageId: Option<string>)

  /** `multiHigh` is the sequence of the multi table's autoincrement key. */
  datatype Tables = Tables(
    previews: map<PreviewKey, Preview>,
    multiHigh: nat,
    uses: map<UseId, Use>,
    deliveries: map<DeliveryId, Delivery>)

  datatype OutboundError =
    | NotFound
    | EvidenceRequired
    | SourceMessageChanged
    | ContractInvalid
    | OwnerInvalid
    | OccurrenceMapInvalid
    | GenerationChanged
    | TransitionConflict
    | Invalid(error: HistoryError)

  function Elements<T>(s: seq<T>): set<T> {
    set x | x in s
  }

  function PreviewKind(key: PreviewKey): OperationalKind {
    if key.Single? then CoinPreview else CoinMultiPreview
  }

  function DeliveryKind(key: PreviewKey): OperationalKind {
    if key.Single? then CoinDelivery else CoinMultiDelivery
  }

  // ------------------------------------------------------------ audit checks

  /** validate_preview_use. */
  function PreviewUse(t: Tables, key: PreviewKey): Result<seq<GenId>, OutboundError>
    requires key in t.previews
  {
    var p := t.previews[key];
    if && p.use in t.uses && t.uses[p.use].state == PreviewReady
       && t.uses[p.use].kind == PreviewKind(key) && t.uses[p.use].operationalId == key.id
       && t.uses[p.use].source == p.source && t.uses[p.use].generations != []
    then Ok(t.uses[p.use].generations)
    else Err(Invalid(LinkInvalid))
  }

  predicate EvidenceIs(db: Coin.Db, e: EvidenceId, g: GenId) {
    e in db.evidence && Coin.ValidateCoinEvidence(db.gens, db.evidence[e]) == Ok(g)
  }

  /** validate_preview: the preview still stands for the generations its use recorded. */
  function ValidatePreview(db: Coin.Db, t: Tables, key: PreviewKey): Result<seq<GenId>, OutboundError>
    requires key in t.previews
  {
    var p := t.previews[key];
    match PreviewUse(t, key)
    case Err(error) => Err(error)
    case Ok(ids) =>
      if key.Single? then
        if |p.evidence| != 1 || p.evidence[0] !in db.evidence then Err(Invalid(LinkInvalid))
        else match Coin.ValidateCoinEvidence(db.gens, db.evidence[p.evidence[0]])
          case Err(error) => Err(Invalid(error))
          case Ok(g) => if Elements(ids) == {g} then Ok(ids) else Err(GenerationChanged)
      else if |p.evidence| != |p.generations| || !(2 <= |p.evidence| <= 3) then Err(OccurrenceMapInvalid)
      else if exists i | 0 <= i < |p.evidence| :: !EvidenceIs(db, p.evidence[i], p.generations[i]) then
        Err(GenerationChanged)
      else if t.uses[p.use].occurrences != p.generations then Err(OccurrenceMapInvalid)
      else if Elements(ids) == Elements(p.generations) then Ok(ids) else Err(GenerationChanged)
  }

  predicate AllConfirmed(gens: Rows, ids: seq<GenId>) {
    ids != [] && forall g | g in ids :: g in gens && gens[g].state == Confirmed
  }

  /** record_use for a preview. */
  function RecordPreviewUse(gens: Rows, t: Tables, u: UseId, use: Use): Result<Tables, OutboundError> {
    if AllConfirmed(gens, use.generations) then Ok(t.(uses := t.uses[u := use])) else Err(Invalid(LinkInvalid))
  }

  /** record_use for a send: its generations must be the preview use's, and the
      occurrence map is copied from there. */
  function RecordSendUse(gens: Rows, t: Tables, u: UseId, from: UseId, ids: seq<GenId>,
                         kind: OperationalKind, d: DeliveryId, source: Fingerprint, destination: Fingerprint)
    : Result<Tables, OutboundError>
  {
    if !AllConfirmed(gens, ids) || from !in t.uses || Elements(t.uses[from].generations) != Elements(ids) then
      Err(Invalid(LinkInvalid))
    else
      Ok(t.(uses := t.uses[u := Use(SendReserved, kind, d, source, Some(destination), ids,
                                    t.uses[from].occurrences, Some(from))]))
  }

  /** The ownership checks of transition_send. */
  predicate OwnsUse(uses: map<UseId, Use>, u: UseId, kind: OperationalKind, d: DeliveryId,
                    source: Fingerprint, destination: Fingerprint) {
    && u in uses && uses[u].state != PreviewReady
    && uses[u].kind == kind && uses[u].operationalId == d
    && uses[u].destination == Some(destination) && uses[u].source == source
    && uses[u].previewUse.Some? && uses[u].previewUse.value in uses
    && var from := uses[uses[u].previewUse.value];
    && from.state == PreviewReady
    && from.kind == (if kind == CoinDelivery then CoinPreview else CoinMultiPreview)
    && from.source == source
    && from.generations != [] && uses[u].generations != []
    && Elements(from.generations) == Elements(uses[u].generations)
    && (kind == CoinMultiDelivery ==> uses[u].occurrences == from.occurrences)
  }

  function AllowedBefore(state: UseState): set<UseState> {
    if state == SendInFlight then {SendReserved}
    else if state == SendFailed then {SendReserved, SendInFlight}
    else {SendInFlight}
  }

  function TransitionSend(uses: map<UseId, Use>, u: UseId, state: UseState, kind: OperationalKind,
                          d: DeliveryId, source: Fingerprint, destination: Fingerprint)
    : Result<map<UseId, Use>, OutboundError>
  {
    if !OwnsUse(uses, u, kind, d, source, destination) then Err(OwnerInvalid)
    else if uses[u].state !in AllowedBefore(state) then Err(TransitionConflict)
    else Ok(uses[u := uses[u].(state := state)])
  }

  // ---------------------------------------------------------------- previews

  function SingleIds(t: Tables): set<nat> {
    (set k | k in t.previews && k.Single? :: k.id)
    + (set u | u in t.uses && t.uses[u].kind == CoinPreview :: t.uses[u].operationalId)
  }

  /** The highest id, or 0: the high-water mark of a set of ids. */
  ghost function Max(ids: set<nat>): (m: nat)
    ensures forall i | i in ids :: i <= m
    ensures m == 0 || m in ids
  {
    if ids == {} then 0
    else
      var x :| x in ids;
      var m := Max(ids - {x});
      assert forall i | i in ids :: i == x || i in ids - {x};
      if x <= m then m else x
  }

  predicate SameMessage(t: Tables, k: PreviewKey, multi: bool, source: Fingerprint) {
    k in t.previews && k.Multi? == multi && t.previews[k].source == source
  }

  predicate ReadyAt(db: Coin.Db, e: EvidenceId, now: Time) {
    && e in db.evidence && db.evidence[e].state == Coin.Ready
    && db.evidence[e].ready.Some? && db.evidence[e].ready.value.expiresAt > now
  }

  /** The use that records a singleton preview. */
  function SingleUse(id: nat, source: Fingerprint, g: GenId): Use {
    Use(PreviewReady, CoinPreview, id, source, None, [g], [], None)
  }

  /** A message that has a preview keeps it, if it is the same and still valid; each reuse
      is recorded. */
  function KeepSingle(db: Coin.Db, t: Tables, k: PreviewKey, e: EvidenceId, g: GenId, text: string, u: UseId)
    : Result<(Tables, PreviewKey, bool), OutboundError>
    requires k in t.previews
  {
    if t.previews[k].evidence != [e] || t.previews[k].text != text then Err(SourceMessageChanged)
    else match ValidatePreview(db, t, k)
      case Err(error) => Err(error)
      case Ok(_) =>
        match RecordPreviewUse(db.gens, t, u, SingleUse(k.id, t.previews[k].source, g))
        case Err(error) => Err(error)
        case Ok(t') => Ok((t', k, false))
  }

  /** A new preview above the high-water mark, with its use. */
  function InsertSingle(db: Coin.Db, t: Tables, high: nat, p: Preview, g: GenId, u: UseId)
    : Result<(Tables, PreviewKey, bool), OutboundError>
  {
    var k := Single(high + 1);
    match RecordPreviewUse(db.gens, t.(previews := t.previews[k := p]), u, SingleUse(k.id, p.source, g))
    case Err(error) => Err(error)
    case Ok(t') => Ok((t', k, true))
  }

  /** save_ready of a singleton preview: the key it ends up with, and whether it is new. */
  ghost function SaveSingle(db: Coin.Db, t: Tables, e: EvidenceId, source: Fingerprint, text: string,
                            now: Time, contentExpiresAt: Time, u: UseId)
    : Result<(Tables, PreviewKey, bool), OutboundError>
  {
    if !ReadyAt(db, e, now) then Err(EvidenceRequired)
    else match Coin.ValidateCoinEvidence(db.gens, db.evidence[e])
      case Err(error) => Err(Invalid(error))
      case Ok(g) =>
        if exists k :: SameMessage(t, k, false, source) then
          var k :| SameMessage(t, k, false, source);
          KeepSingle(db, t, k, e, g, text, u)
        else InsertSingle(db, t, Max(SingleIds(t)), Preview(source, text, contentExpiresAt, [e], [], u), g, u)
  }

  function Distinct(ids: seq<GenId>): seq<GenId> {
    if ids == [] then []
    else
      var rest := Distinct(ids[..|ids| - 1]);
      if ids[|ids| - 1] in rest then rest else rest + [ids[|ids| - 1]]
  }

  /** `a` was seen before `b` was. */
  predicate SeenBefore(ids: seq<GenId>, a: GenId, b: GenId) {
    exists k | 0 <= k < |ids| :: ids[k] == a && b !in ids[..k + 1]
  }

  /** The elements of `ids`, each once, in the order in which they are first seen. */
  ghost predicate FirstSeen(ids: seq<GenId>, distinct: seq<GenId>) {
    && (forall g :: g in distinct <==> g in ids)
    && forall i, j | 0 <= i < j < |distinct| :: SeenBefore(ids, distinct[i], distinct[j])
  }

  lemma SeenBeforeEarly(ids: seq<GenId>, n: nat, a: GenId, b: GenId)
    requires n <= |ids| && SeenBefore(ids[..n], a, b)
    ensures SeenBefore(ids, a, b)
  {
    var k :| 0 <= k < n && ids[..n][k] == a && b !in ids[..n][..k + 1];
    assert ids[..n][..k + 1] == ids[..k + 1];
  }

  lemma SeenLast(ids: seq<GenId>, n: nat, a: GenId, b: GenId)
    requires n < |ids| && a in ids[..n] && b !in ids[..n]
    ensures SeenBefore(ids, a, b)
  {
    var k :| 0 <= k < n && ids[..n][k] == a;
    assert ids[..k + 1] == ids[..n][..k + 1];
  }

  lemma {:induction false} DistinctIsFirstSeen(ids: seq<GenId>)
    ensures FirstSeen(ids, Distinct(ids))
  {
    if ids != [] {
      var n := |ids| - 1;
      var rest, all := Distinct(ids[..n]), Distinct(ids);
      DistinctIsFirstSeen(ids[..n]);
      assert ids == ids[..n] + [ids[n]];
      forall i, j | 0 <= i < j < |all| ensures SeenBefore(ids, all[i], all[j]) {
        if j < |rest| {
          SeenBeforeEarly(ids, n, rest[i], rest[j]);
        } else {
          SeenLast(ids, n, rest[i], ids[n]);
        }
      }
    }
  }

  /** A multi preview lives as long as the first of its links to expire. */
  function FirstExpiry(db: Coin.Db, es: seq<EvidenceId>, now: Time): Time
    requires es != [] && forall i | 0 <= i < |es| :: ReadyAt(db, es[i], now)
  {
    assert ReadyAt(db, es[|es| - 1], now);
    var last := db.evidence[es[|es| - 1]].ready.value.expiresAt;
    if |es| == 1 then last
    else
      var init := es[..|es| - 1];
      var rest := FirstExpiry(db, init, now);
      if last <= rest then last else rest
  }

  /** The check of one link of a multi preview. */
  function LinkRefused(db: Coin.Db, e: EvidenceId, g: GenId, now: Time): Option<OutboundError> {
    if !ReadyAt(db, e, now) then Some(EvidenceRequired)
    else match Coin.ValidateCoinEvidence(db.gens, db.evidence[e])
      case Err(error) => Some(Invalid(error))
      case Ok(id) => if id == g then None else Some(GenerationChanged)
  }

  /** Link after link: the first refusal counts. */
  function LinksRefused(db: Coin.Db, es: seq<EvidenceId>, gs: seq<GenId>, now: Time): (r: Option<OutboundError>)
    requires |es| == |gs|
    ensures r.None? ==> forall i | 0 <= i < |es| :: ReadyAt(db, es[i], now) && EvidenceIs(db, es[i], gs[i])
    decreases |es|
  {
    if es == [] then None
    else
      var n := |es| - 1;
      match LinksRefused(db, es[..n], gs[..n], now)
      case Some(error) => Some(error)
      case None => LinkRefused(db, es[n], gs[n], now)
  }

  lemma {:induction false} RefusedEarly(db: Coin.Db, es: seq<EvidenceId>, gs: seq<GenId>, now: Time, n: nat)
    requires |es| == |gs| && n <= |es| && LinksRefused(db, es[..n], gs[..n], now).Some?
    ensures LinksRefused(db, es, gs, now) == LinksRefused(db, es[..n], gs[..n], now)
    decreases |es|
  {
    if n < |es| {
      var m := |es| - 1;
      assert es[..m][..n] == es[..n] && gs[..m][..n] == gs[..n];
      RefusedEarly(db, es[..m], gs[..m], now, n);
    } else {
      assert es[..n] == es && gs[..n] == gs;
    }
  }

  /** A message that has a preview keeps it, if it is the same and still valid. */
  function KeepMulti(db: Coin.Db, t: Tables, k: PreviewKey, es: seq<EvidenceId>, gs: seq<GenId>, text: string)
    : Result<(Tables, PreviewKey, bool), OutboundError>
    requires k in t.previews
  {
    if t.previews[k].evidence != es || t.previews[k].generations != gs || t.previews[k].text != text then
      Err(SourceMessageChanged)
    else match ValidatePreview(db, t, k)
      case Err(error) => Err(error)
      case Ok(_) => Ok((t, k, false))
  }

  /** A new preview with its use, validated before it commits. */
  function InsertMulti(db: Coin.Db, t: Tables, p: Preview, u: UseId): Result<(Tables, PreviewKey, bool), OutboundError> {
    var k := Multi(t.multiHigh + 1);
    var t1 := t.(previews := t.previews[k := p], multiHigh := k.id);
    match RecordPreviewUse(db.gens, t1, u,
                           Use(PreviewReady, CoinMultiPreview, k.id, p.source, None, Distinct(p.generations), p.generations, None))
    case Err(error) => Err(error)
    case Ok(t') => match ValidatePreview(db, t', k)
      case Err(error) => Err(error)
      case Ok(_) => Ok((t', k, true))
  }

  /** save_ready of a multi preview, without wrapper resolutions. */
  ghost function SaveMulti(db: Coin.Db, t: Tables, es: seq<EvidenceId>, gs: seq<GenId>, source: Fingerprint,
                           text: string, now: Time, u: UseId)
    : Result<(Tables, PreviewKey, bool), OutboundError>
  {
    if |es| != |gs| || !(2 <= |es| <= 3) then Err(ContractInvalid)
    else match LinksRefused(db, es, gs, now)
      case Some(error) => Err(error)
      case None =>
        if exists k :: SameMessage(t, k, true, source) then
          var k :| SameMessage(t, k, true, source);
          KeepMulti(db, t, k, es, gs, text)
        else InsertMulti(db, t, Preview(source, text, FirstExpiry(db, es, now), es, gs, u), u)
  }

  /** get_ready: None when there is nothing to deliver, an error when the preview fails
      its validation. */
  function GetReady(db: Coin.Db, t: Tables, key: PreviewKey, now: Time): Result<Option<Preview>, OutboundError> {
    if key !in t.previews || t.previews[key].contentExpiresAt <= now then Ok(None)
    else if key.Multi? && exists i | 0 <= i < |t.previews[key].evidence| ::
              var e := t.previews[key].evidence[i];
              e !in db.evidence || db.evidence[e].ready.None? || db.evidence[e].ready.value.expiresAt <= now then Ok(None)
    else match ValidatePreview(db, t, key)
      case Err(error) => Err(error)
      case Ok(_) => Ok(Some(t.previews[key]))
  }

  /** The purge inside claim: previews of deleted evidence go, reservations stay. */
  function Purge(t: Tables, ids: set<EvidenceId>): Tables {
    t.(previews := map k | k in t.previews && Elements(t.previews[k].evidence) !! ids :: t.previews[k],
       deliveries := map d | d in t.deliveries ::
         if && t.deliveries[d].preview.Some? && t.deliveries[d].preview.value in t.previews
            && !(Elements(t.previews[t.deliveries[d].preview.value].evidence) !! ids)
         then t.deliveries[d].(preview := None) else t.deliveries[d])
  }

  // -------------------------------------------------------------- deliveries

  predicate HasPair(row: Delivery, source: Fingerprint, destination: Fingerprint) {
    row.source == source && row.destination == destination
  }

  /** reserve: at most one row per (message, destination); a new one gets its audit use. */
  ghost function Reserve(db: Coin.Db, t: Tables, key: PreviewKey, destination: Fingerprint, d: DeliveryId, u: UseId)
    : Result<(Tables, DeliveryId, bool), OutboundError>
  {
    if key !in t.previews then Err(NotFound)
    else
      var p := t.previews[key];
      if exists x :: x in t.deliveries && HasPair(t.deliveries[x], p.source, destination) then
        var x :| x in t.deliveries && HasPair(t.deliveries[x], p.source, destination);
        Ok((t, x, false))
      else match ValidatePreview(db, t, key)
        case Err(error) => Err(error)
        case Ok(ids) =>
          var t1 := t.(deliveries := t.deliveries[d := Delivery(Some(key), p.source, destination, Pending, 0, u, None)]);
          match RecordSendUse(db.gens, t1, u, p.use, ids, DeliveryKind(key), d, p.source, destination)
          case Err(error) => Err(error)
          case Ok(t') => Ok((t', d, true))
  }

  /** The use's kind survives the purge of the preview pointers. */
  function HistoryKind(t: Tables, d: DeliveryId): Result<OperationalKind, OutboundError>
    requires d in t.deliveries
  {
    var u := t.deliveries[d].use;
    if u in t.uses && (t.uses[u].kind == CoinDelivery || t.uses[u].kind == CoinMultiDelivery)
    then Ok(t.uses[u].kind) else Err(OwnerInvalid)
  }

  /** A delivery update and the audit transition that shares its transaction. */
  function Transition(t: Tables, d: DeliveryId, row: Delivery, audit: UseState): Result<Tables, OutboundError>
    requires d in t.deliveries
  {
    match HistoryKind(t, d)
    case Err(error) => Err(error)
    case Ok(kind) =>
      match TransitionSend(t.uses, row.use, audit, kind, d, row.source, row.destination)
      case Err(error) => Err(error)
      case Ok(uses) => Ok(t.(uses := uses, deliveries := t.deliveries[d := row]))
  }

  function MarkSending(t: Tables, d: DeliveryId): Result<Tables, OutboundError> {
    if d !in t.deliveries || t.deliveries[d].state != Pending || t.deliveries[d].attempts != 0 then
      Err(TransitionConflict)
    else Transition(t, d, t.deliveries[d].(state := Sending, attempts := 1), SendInFlight)
  }

  /** The audit state that stands for a delivery state. */
  function Mirror(state: DeliveryState): UseState {
    match state
    case Pending => SendReserved
    case Sending => SendInFlight
    case Sent => SendConfirmed
    case FailedSafe => SendFailed
    case InDoubt => SendUncertain
  }

  predicate Final(state: DeliveryState) {
    state == Sent || state == FailedSafe || state == InDoubt
  }

  predicate CanFinish(row: Delivery, state: DeliveryState) {
    row.state == Sending || (state == FailedSafe && row.state == Pending)
  }

  function Finish(t: Tables, d: DeliveryId, state: DeliveryState, messageId: Option<string>): Result<Tables, OutboundError>
    requires Final(state)
  {
    if d !in t.deliveries || !CanFinish(t.deliveries[d], state) then Err(TransitionConflict)
    else Transition(t, d, t.deliveries[d].(state := state, messageId := messageId), Mirror(state))
  }
}
