/**
 The retrying outbox of delivery_repository.py and delivery/service.py: rows without an
 owner token, workers that may crash or come back late, and a sweep of expired leases.
 */
module Outbox {
  import opened Prelude

  type RowId = nat
  /** A deal and the purpose of its delivery: the unique key of the table. */
  type Owner = nat

  /** The seconds before another attempt after an error raised before sending. */
  const RETRY_SECONDS: Time := 2

  datatype State = Pending | Sending | Sent | Retryable | Permanent | InDoubt | ManualReview

  /** `identity` stands for the idempotency key and the target chat. */
  datatype Row = Row(
    owner: Owner, identity: nat, state: State, attempts: nat,
    nextAttempt: Option<Time>, leaseUntil: Option<Time>, messageId: Option<string>)

  type Rows = map<RowId, Row>

  /** What the transport did.  Only an accepted message, or one without a usable answer,
      can have reached the chat. */
  datatype Outcome =
    | Accepted(id: string)
    | RateLimited(seconds: Time)
    | NotStarted
    | NoAnswer(delivered: bool)
    | Rejected

  // -------------------------------------------------------------- repository

  /** The table DELIVERY_TRANSITIONS. */
  predicate Allowed(from: State, to: State) {
    match from
    case Pending => to == Sending || to == Permanent
    case Sending => to == Sent || to == Retryable || to == Permanent || to == InDoubt
    case Retryable => to == Sending || to == Permanent
    case InDoubt => to == ManualReview
    case ManualReview => to == Sent || to == Permanent
    case _ => false
  }

  /** ensure_pending: the owner's row, inserted under `slot` if there is none. */
  function EnsurePending(rows: Rows, owner: Owner, identity: nat, slot: RowId): Rows {
    if exists r | r in rows :: rows[r].owner == owner then rows
    else rows[slot := Row(owner, identity, Pending, 0, None, None, None)]
  }

  predicate CanClaim(rows: Rows, r: RowId, now: Time, limit: nat) {
    && r in rows && rows[r].attempts < limit
    && (rows[r].state == Pending
        || (rows[r].state == Retryable && (rows[r].nextAttempt.None? || rows[r].nextAttempt.value <= now)))
  }

  function Claimed(rows: Rows, r: RowId, leaseUntil: Time): Rows
    requires r in rows
  {
    rows[r := rows[r].(state := Sending, attempts := rows[r].attempts + 1, nextAttempt := None,
                       leaseUntil := Some(leaseUntil))]
  }

  predicate CanFinish(rows: Rows, r: RowId, now: Time) {
    && r in rows && rows[r].state == Sending && rows[r].leaseUntil.Some? && rows[r].leaseUntil.value > now
  }

  function Finished(rows: Rows, r: RowId, state: State, next: Option<Time>, messageId: Option<string>): Rows
    requires r in rows
  {
    rows[r := rows[r].(state := state, leaseUntil := None, nextAttempt := next, messageId := messageId)]
  }

  predicate Stale(row: Row, now: Time) {
    row.state == Sending && row.leaseUntil.Some? && row.leaseUntil.value <= now
  }

  function SweepRow(row: Row, now: Time): Row {
    if Stale(row, now) then row.(state := InDoubt, leaseUntil := None, nextAttempt := None) else row
  }

  /** mark_stale_sending_ambiguous. */
  function Sweep(rows: Rows, now: Time): Rows {
    map r | r in rows :: SweepRow(rows[r], now)
  }

  // ----------------------------------------------------------------- service

  predicate Blank(s: string) {
    forall c | c in s :: IsSpace(c)
  }

  function Delay(seconds: Time, cap: Time): Time {
    var waited := if seconds < 0 then 0 else seconds;
    if waited < cap then waited else cap
  }

  /** The state, next attempt and message id that send stores for an outcome. */
  function ResultOf(outcome: Outcome, now: Time, cap: Time): (State, Option<Time>, Option<string>) {
    match outcome
    case Accepted(id) => if Blank(id) then (InDoubt, None, None) else (Sent, None, Some(id))
    case RateLimited(seconds) => (Retryable, Some(now + Delay(seconds, cap)), None)
    case NotStarted => (Retryable, Some(now + RETRY_SECONDS), None)
    case NoAnswer(_) => (InDoubt, None, None)
    case Rejected => (Permanent, None, None)
  }

  predicate ReachedTheChat(outcome: Outcome) {
    outcome.Accepted? || (outcome.NoAnswer? && outcome.delivered)
  }

  /** One winner of a claim: what it saw, and whether it is through with its row. */
  datatype Worker = Worker(sent: Option<Outcome>, done: bool)

  datatype Wire = Wire(row: RowId, outcome: Outcome)

  /** `workers[r]` lists the winners of row r in the order of their claims. */
  datatype World = World(rows: Rows, workers: map<RowId, seq<Worker>>, wire: seq<Wire>)

  datatype Event =
    | Ensure(owner: Owner, identity: nat, slot: RowId)
    | Claim(r: RowId, now: Time, leaseUntil: Time)
    | SendMessage(r: RowId, n: nat, outcome: Outcome)
    | Store(r: RowId, n: nat, now: Time)
    | Swept(now: Time)

  /** The service's configuration: max_attempts and the cap on a rate limit's delay. */
  datatype Config = Config(limit: nat, cap: Time)

  function Start(): World {
    World(map[], map[], [])
  }

  predicate HasWorker(w: World, r: RowId, n: nat) {
    r in w.workers && n < |w.workers[r]| && !w.workers[r][n].done
  }

  function Next(c: Config, w: World, e: Event): World {
    match e
    case Ensure(owner, identity, slot) =>
      if slot in w.rows then w
      else
        var rows := EnsurePending(w.rows, owner, identity, slot);
        w.(rows := rows, workers := if slot in rows then w.workers[slot := []] else w.workers)
    case Claim(r, now, leaseUntil) =>
      if CanClaim(w.rows, r, now, c.limit) && r in w.workers then
        w.(rows := Claimed(w.rows, r, leaseUntil), workers := w.workers[r := w.workers[r] + [Worker(None, false)]])
      else w
    case SendMessage(r, n, outcome) =>
      if HasWorker(w, r, n) && w.workers[r][n].sent.None? then
        w.(workers := w.workers[r := w.workers[r][n := Worker(Some(outcome), false)]],
           wire := w.wire + [Wire(r, outcome)])
      else w
    case Store(r, n, now) =>
      if HasWorker(w, r, n) && w.workers[r][n].sent.Some? then
        w.(workers := w.workers[r := w.workers[r][n := w.workers[r][n].(done := true)]],
           rows := if CanFinish(w.rows, r, now) then
                     var (state, next, id) := ResultOf(w.workers[r][n].sent.value, now, c.cap);
                     Finished(w.rows, r, state, next, id)
                   else w.rows)
      else w
    case Swept(now) => w.(rows := Sweep(w.rows, now))
  }

  function History(c: Config, events: seq<Event>): World {
    if events == [] then Start()
    else Next(c, History(c, events[..|events| - 1]), events[|events| - 1])
  }

  // -------------------------------------------------------------- invariants

  /** How many messages left for a row, and how many of those reached the chat. */
  function Sends(wire: seq<Wire>, r: RowId): nat {
    if wire == [] then 0
    else Sends(wire[..|wire| - 1], r) + if wire[|wire| - 1].row == r then 1 else 0
  }

  function Deliveries(wire: seq<Wire>, r: RowId): nat {
    if wire == [] then 0
    else Deliveries(wire[..|wire| - 1], r)
         + if wire[|wire| - 1].row == r && ReachedTheChat(wire[|wire| - 1].outcome) then 1 else 0
  }

  predicate Retries(outcome: Outcome) {
    outcome.RateLimited? || outcome.NotStarted?
  }

  /** A row and the winners of its claims: every winner but the last has finished, without
      delivering, so a row in SENDING has exactly one owner although it stores no token. */
  ghost predicate RowOk(row: Row, workers: seq<Worker>, limit: nat) {
    && row.attempts == |workers| <= limit
    && (row.leaseUntil.Some? <==> row.state == Sending)
    && (row.state == Pending <==> workers == [])
    && row.state != ManualReview
    && (forall n | 0 <= n < |workers| - 1 ::
          workers[n].done && workers[n].sent.Some? && Retries(workers[n].sent.value))
    && (workers != [] ==>
          var last := workers[|workers| - 1];
          && (last.done ==> last.sent.Some?)
          && (row.state == Retryable ==> last.done && Retries(last.sent.value))
          && (row.state == Permanent ==> last.done && last.sent.value == Rejected)
          && (row.state == Sent ==> last.done && last.sent.value.Accepted? && !Blank(last.sent.value.id)
                                    && row.messageId == Some(last.sent.value.id)))
  }

  ghost predicate WireOk(w: World, r: RowId)
    requires r in w.workers
  {
    var workers := w.workers[r];
    && Sends(w.wire, r) == |workers| - (if workers != [] && workers[|workers| - 1].sent.None? then 1 else 0)
    && Deliveries(w.wire, r) == (if && workers != [] && workers[|workers| - 1].sent.Some?
                                    && ReachedTheChat(workers[|workers| - 1].sent.value) then 1 else 0)
    && (forall n | 0 <= n < |workers| && workers[n].sent.Some? :: Wire(r, workers[n].sent.value) in w.wire)
  }

  ghost predicate OneRowPerOwner(rows: Rows) {
    forall a, b | a in rows && b in rows && rows[a].owner == rows[b].owner :: a == b
  }

  ghost predicate Inv(c: Config, w: World) {
    && w.workers.Keys == w.rows.Keys && OneRowPerOwner(w.rows)
    && (forall r | r in w.rows :: RowOk(w.rows[r], w.workers[r], c.limit) && WireOk(w, r))
    && (forall i | 0 <= i < |w.wire| :: w.wire[i].row in w.rows)
  }

  lemma {:induction false} NothingSentYet(wire: seq<Wire>, r: RowId)
    requires forall i | 0 <= i < |wire| :: wire[i].row != r
    ensures Sends(wire, r) == 0 && Deliveries(wire, r) == 0
  {
    if wire != [] {
      NothingSentYet(wire[..|wire| - 1], r);
    }
  }

  lemma OneMoreSend(wire: seq<Wire>, entry: Wire, r: RowId)
    ensures Sends(wire + [entry], r) == Sends(wire, r) + if entry.row == r then 1 else 0
    ensures Deliveries(wire + [entry], r)
         == Deliveries(wire, r) + if entry.row == r && ReachedTheChat(entry.outcome) then 1 else 0
  {
    assert (wire + [entry])[..|wire|] == wire;
  }

  /** A step that touches one row and the log of that row. */
  lemma OneRowStep(c: Config, w: World, w': World, r: RowId)
    requires Inv(c, w) && r in w'.rows && r in w'.workers
    requires w'.rows == w.rows[r := w'.rows[r]] && w'.workers == w.workers[r := w'.workers[r]]
    requires w'.wire == w.wire || (w'.wire != [] && w'.wire == w.wire + [w'.wire[|w'.wire| - 1]] && w'.wire[|w'.wire| - 1].row == r)
    requires forall x | x in w.rows && w.rows[x].owner == w'.rows[r].owner :: x == r
    requires RowOk(w'.rows[r], w'.workers[r], c.limit) && WireOk(w', r)
    ensures Inv(c, w')
  {
    forall x | x in w'.rows && x != r ensures RowOk(w'.rows[x], w'.workers[x], c.limit) && WireOk(w', x) {
      assert RowOk(w.rows[x], w.workers[x], c.limit);
      OtherWireOk(w, w', x);
    }
  }

  lemma OtherWireOk(w: World, w': World, x: RowId)
    requires x in w.workers && WireOk(w, x) && x in w'.workers && w'.workers[x] == w.workers[x]
    requires w'.wire == w.wire || (w'.wire != [] && w'.wire == w.wire + [w'.wire[|w'.wire| - 1]] && w'.wire[|w'.wire| - 1].row != x)
    ensures WireOk(w', x)
  {
    if w'.wire != w.wire {
      OneMoreSend(w.wire, w'.wire[|w'.wire| - 1], x);
    }
  }

  lemma EnsureKeepsInv(c: Config, w: World, owner: Owner, identity: nat, slot: RowId)
    requires Inv(c, w)
    ensures Inv(c, Next(c, w, Ensure(owner, identity, slot)))
  {
    var w' := Next(c, w, Ensure(owner, identity, slot));
    if w' != w {
      NothingSentYet(w.wire, slot);
      OneRowStep(c, w, w', slot);
    }
  }

  lemma ClaimedRowOk(c: Config, rows: Rows, workers: seq<Worker>, r: RowId, now: Time, leaseUntil: Time)
    requires CanClaim(rows, r, now, c.limit) && RowOk(rows[r], workers, c.limit)
    ensures RowOk(Claimed(rows, r, leaseUntil)[r], workers + [Worker(None, false)], c.limit)
    ensures workers != [] ==> workers[|workers| - 1].sent.Some? && !ReachedTheChat(workers[|workers| - 1].sent.value)
  {
  }

  lemma ClaimKeepsInv(c: Config, w: World, r: RowId, now: Time, leaseUntil: Time)
    requires Inv(c, w)
    ensures Inv(c, Next(c, w, Claim(r, now, leaseUntil)))
  {
    var w' := Next(c, w, Claim(r, now, leaseUntil));
    if w' != w {
      ClaimedRowOk(c, w.rows, w.workers[r], r, now, leaseUntil);
      assert WireOk(w, r);
      OneRowStep(c, w, w', r);
    }
  }

  /** The only worker of a row that is not done is the last one. */
  lemma UnfinishedIsLast(c: Config, w: World, r: RowId, n: nat)
    requires Inv(c, w) && HasWorker(w, r, n)
    ensures r in w.rows && n == |w.workers[r]| - 1
  {
    assert RowOk(w.rows[r], w.workers[r], c.limit);
  }

  lemma SendKeepsInv(c: Config, w: World, r: RowId, n: nat, outcome: Outcome)
    requires Inv(c, w)
    ensures Inv(c, Next(c, w, SendMessage(r, n, outcome)))
  {
    var w' := Next(c, w, SendMessage(r, n, outcome));
    if w' != w {
      UnfinishedIsLast(c, w, r, n);
      assert RowOk(w.rows[r], w.workers[r], c.limit) && WireOk(w, r);
      OneMoreSend(w.wire, Wire(r, outcome), r);
      assert w'.wire[|w.wire|] == Wire(r, outcome);
      OneRowStep(c, w, w', r);
    }
  }

  lemma StoredRowOk(c: Config, w: World, r: RowId, n: nat, now: Time)
    requires r in w.rows && r in w.workers && n == |w.workers[r]| - 1 && RowOk(w.rows[r], w.workers[r], c.limit)
    requires HasWorker(w, r, n) && w.workers[r][n].sent.Some?
    ensures var w' := Next(c, w, Store(r, n, now));
      RowOk(w'.rows[r], w'.workers[r], c.limit)
  {
    var (state, next, id) := ResultOf(w.workers[r][n].sent.value, now, c.cap);
    assert state == Sent || state == Retryable || state == InDoubt || state == Permanent;
  }

  lemma StoreKeepsInv(c: Config, w: World, r: RowId, n: nat, now: Time)
    requires Inv(c, w)
    ensures Inv(c, Next(c, w, Store(r, n, now)))
  {
    var w' := Next(c, w, Store(r, n, now));
    if w' != w {
      UnfinishedIsLast(c, w, r, n);
      StoredRowOk(c, w, r, n, now);
      assert WireOk(w, r);
      OneRowStep(c, w, w', r);
    }
  }

  lemma SweepKeepsInv(c: Config, w: World, now: Time)
    requires Inv(c, w)
    ensures Inv(c, Next(c, w, Swept(now)))
  {
    var w' := Next(c, w, Swept(now));
    SweepFrame(w.rows, now);
    forall x | x in w.rows ensures RowOk(w'.rows[x], w'.workers[x], c.limit) && WireOk(w', x) {
      SweptRowOk(w.rows[x], w.workers[x], c.limit, now);
      OtherWireOk(w, w', x);
    }
    SweptOwners(w.rows, now);
  }

  lemma SweepFrame(rows: Rows, now: Time)
    ensures Sweep(rows, now).Keys == rows.Keys
    ensures forall x | x in rows :: Sweep(rows, now)[x] == SweepRow(rows[x], now)
  {
  }

  lemma SweptOwners(rows: Rows, now: Time)
    requires OneRowPerOwner(rows)
    ensures OneRowPerOwner(Sweep(rows, now))
  {
  }

  lemma SweptRowOk(row: Row, workers: seq<Worker>, limit: nat, now: Time)
    requires RowOk(row, workers, limit)
    ensures RowOk(SweepRow(row, now), workers, limit)
  {
  }

  lemma NextKeepsInv(c: Config, w: World, e: Event)
    requires Inv(c, w)
    ensures Inv(c, Next(c, w, e))
  {
    match e
    case Ensure(owner, identity, slot) => EnsureKeepsInv(c, w, owner, identity, slot);
    case Claim(r, now, leaseUntil) => ClaimKeepsInv(c, w, r, now, leaseUntil);
    case SendMessage(r, n, outcome) => SendKeepsInv(c, w, r, n, outcome);
    case Store(r, n, now) => StoreKeepsInv(c, w, r, n, now);
    case Swept(now) => SweepKeepsInv(c, w, now);
  }

  lemma {:induction false} EveryHistoryIsSound(c: Config, events: seq<Event>)
    ensures Inv(c, History(c, events))
  {
    if events != [] {
      EveryHistoryIsSound(c, events[..|events| - 1]);
      NextKeepsInv(c, History(c, events[..|events| - 1]), events[|events| - 1]);
    }
  }

  lemma HistorySnoc(c: Config, events: seq<Event>, e: Event)
    ensures History(c, events + [e]) == Next(c, History(c, events), e)
  {
    assert (events + [e])[..|events|] == events;
  }

  // ---------------------------------------------------------------- theorems

  /** In any history of sends, crashes, expired leases and sweeps at most one message of a
      row reaches the chat, and no more leave than the row counts attempts, which never
      exceed the limit.  Rows of one deal and purpose are one row. */
  lemma {:induction false} DeliveredAtMostOnce(c: Config, events: seq<Event>, r: RowId)
    requires r in History(c, events).rows
    ensures var w := History(c, events);
      && Deliveries(w.wire, r) <= 1
      && Sends(w.wire, r) <= w.rows[r].attempts <= c.limit
      && (forall x | x in w.rows && w.rows[x].owner == w.rows[r].owner :: x == r)
  {
    EveryHistoryIsSound(c, events);
    assert WireOk(History(c, events), r);
  }

  /** What a row's state says about its messages. */
  lemma {:induction false} StatesTellTheTruth(c: Config, events: seq<Event>, r: RowId)
    requires r in History(c, events).rows
    ensures var w := History(c, events);
      var row := w.rows[r];
      && (row.state == Sent ==> Deliveries(w.wire, r) == 1 && row.messageId.Some? && !Blank(row.messageId.value)
                                && Wire(r, Accepted(row.messageId.value)) in w.wire)
      && (row.state == Pending || row.state == Retryable || row.state == Permanent ==> Deliveries(w.wire, r) == 0)
  {
    EveryHistoryIsSound(c, events);
    var w := History(c, events);
    assert RowOk(w.rows[r], w.workers[r], c.limit) && WireOk(w, r);
  }

  /** Every step moves every row along DELIVERY_TRANSITIONS, or leaves its state alone. */
  lemma {:induction false} StepsFollowTheTable(c: Config, events: seq<Event>, e: Event, r: RowId)
    requires r in History(c, events).rows
    ensures var w, w' := History(c, events), History(c, events + [e]);
      && r in w'.rows && w'.rows[r].owner == w.rows[r].owner && w'.rows[r].identity == w.rows[r].identity
      && (w'.rows[r].state == w.rows[r].state || Allowed(w.rows[r].state, w'.rows[r].state))
      && w.rows[r].attempts <= w'.rows[r].attempts <= w.rows[r].attempts + 1
  {
    EveryHistoryIsSound(c, events);
    HistorySnoc(c, events, e);
    StepFollowsTheTable(c, History(c, events), e, r);
  }

  lemma StepFollowsTheTable(c: Config, w: World, e: Event, r: RowId)
    requires r in w.rows && r in w.workers && w.rows[r].state != ManualReview
    ensures var w' := Next(c, w, e);
      && r in w'.rows && w'.rows[r].owner == w.rows[r].owner && w'.rows[r].identity == w.rows[r].identity
      && (w'.rows[r].state == w.rows[r].state || Allowed(w.rows[r].state, w'.rows[r].state))
      && w.rows[r].attempts <= w'.rows[r].attempts <= w.rows[r].attempts + 1
  {
  }

  predicate Closed(state: State) {
    state == Sent || state == Permanent || state == InDoubt
  }

  lemma ClosedRowStays(c: Config, w: World, e: Event, r: RowId)
    requires r in w.rows && Closed(w.rows[r].state)
    ensures r in Next(c, w, e).rows && Next(c, w, e).rows[r] == w.rows[r]
  {
  }

  /** A row that was sent, refused for good or left in doubt is never claimed again, and
      keeps its state and message id; nobody retries an ambiguous delivery. */
  lemma {:induction false} ClosedRowsAreNeverRetried(c: Config, a: seq<Event>, b: seq<Event>, r: RowId)
    requires r in History(c, a).rows && Closed(History(c, a).rows[r].state)
    ensures r in History(c, a + b).rows && History(c, a + b).rows[r] == History(c, a).rows[r]
    ensures Sends(History(c, a + b).wire, r) <= History(c, a).rows[r].attempts
  {
    if b == [] {
      assert a + b == a;
    } else {
      var n := |b| - 1;
      ClosedRowsAreNeverRetried(c, a, b[..n], r);
      assert a + b == a + b[..n] + [b[n]];
      HistorySnoc(c, a + b[..n], b[n]);
      ClosedRowStays(c, History(c, a + b[..n]), b[n], r);
    }
    DeliveredAtMostOnce(c, a + b, r);
  }
}
