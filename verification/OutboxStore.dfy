/**
 The outbox table as delivery_repository.py updates it, and DealDeliveryService.send.
 Every method is proved to take the steps of module Outbox.
 */
module OutboxStore {
  import opened Prelude
  import opened Outbox

  datatype SendError = NotFound | NotAllowed | TransitionConflict

  class DeliveryOutbox {
    const config: Config
    var rows: Rows
    /** The row id sequence: every id drawn so far is smaller. */
    var next: RowId

    ghost var workers: map<RowId, seq<Worker>>
    ghost var wire: seq<Wire>
    ghost var events: seq<Event>

    ghost function World(): World
      reads this
    {
      Outbox.World.World(rows, workers, wire)
    }

    ghost predicate Valid()
      reads this
    {
      World() == History(config, events) && forall r | r in rows :: r < next
    }

    constructor (c: Config)
      ensures Valid() && config == c && events == []
    {
      config, rows, next := c, map[], 0;
      workers, wire, events := map[], [], [];
    }

    ghost method Log(w: World, e: Event)
      requires w == History(config, events) && World() == Next(config, w, e)
      modifies this`events
      ensures events == old(events) + [e] && World() == History(config, events) == old(World())
    {
      HistorySnoc(config, events, e);
      events := events + [e];
    }

    /** ensure_pending: one row per deal and purpose, whoever asks for it. */
    method EnsurePending(owner: Owner, identity: nat) returns (r: Option<RowId>)
      requires Valid()
      modifies this
      ensures Valid() && events == old(events) + [Ensure(owner, identity, old(next))]
      ensures r.Some? ==> r.value in rows && rows[r.value].owner == owner && rows[r.value].identity == identity
      ensures r.None? <==> exists x | x in old(rows) :: old(rows)[x].owner == owner && old(rows)[x].identity != identity
      ensures rows == if exists x | x in old(rows) :: old(rows)[x].owner == owner then old(rows)
                      else old(rows)[old(next) := Row(owner, identity, Pending, 0, None, None, None)]
    {
      ghost var w := World();
      EveryHistoryIsSound(config, events);
      var slot := next;
      next := next + 1;
      if exists x | x in rows :: rows[x].owner == owner {
        var x :| x in rows && rows[x].owner == owner;
        r := if rows[x].identity == identity then Some(x) else None;
      } else {
        rows := rows[slot := Row(owner, identity, Pending, 0, None, None, None)];
        workers := workers[slot := []];
        r := Some(slot);
      }
      Log(w, Ensure(owner, identity, slot));
    }

    /** claim: one conditional update. */
    method Claim(r: RowId, now: Time, leaseUntil: Time) returns (won: bool, ghost n: nat)
      requires Valid()
      modifies this`rows, this`workers, this`events
      ensures Valid() && events == old(events) + [Event.Claim(r, now, leaseUntil)]
      ensures won <==> CanClaim(old(rows), r, now, config.limit)
      ensures won <==> Due(old(rows), r, now, config.limit)
      ensures wire == old(wire)
      ensures rows == if won then old(rows)[r := old(rows)[r].(
                        state := Sending, attempts := old(rows)[r].attempts + 1, nextAttempt := None,
                        leaseUntil := Some(leaseUntil))] else old(rows)
      ensures won ==> HasWorker(World(), r, n) && workers[r][n].sent.None? && r in rows
                      && rows[r].state == Sending && rows[r].leaseUntil == Some(leaseUntil)
    {
      ghost var w := World();
      EveryHistoryIsSound(config, events);
      n := 0;
      won := && r in rows && rows[r].attempts < config.limit
             && (rows[r].state == Pending
                 || (rows[r].state == Retryable && (rows[r].nextAttempt.None? || rows[r].nextAttempt.value <= now)));
      if won {
        rows := rows[r := rows[r].(state := Sending, attempts := rows[r].attempts + 1, nextAttempt := None,
                                   leaseUntil := Some(leaseUntil))];
        n := |workers[r]|;
        workers := workers[r := workers[r] + [Worker(None, false)]];
      }
      ClaimStep(config, w, World(), r, now, leaseUntil, won);
      Log(w, Event.Claim(r, now, leaseUntil));
    }

    /** _finish: one conditional update; false when it lost the row or its lease. */
    method Finish(r: RowId, state: State, now: Time, nextAttempt: Option<Time>, messageId: Option<string>)
      returns (kept: bool)
      modifies this`rows
      ensures kept <==> CanFinish(old(rows), r, now)
      ensures rows == if kept then Finished(old(rows), r, state, nextAttempt, messageId) else old(rows)
    {
      kept := r in rows && rows[r].state == Sending && rows[r].leaseUntil.Some? && rows[r].leaseUntil.value > now;
      if kept {
        rows := rows[r := rows[r].(state := state, leaseUntil := None, nextAttempt := nextAttempt,
                                   messageId := messageId)];
      }
    }

    /** mark_stale_sending_ambiguous: the number of rows whose lease ran out. */
    method MarkStale(now: Time) returns (count: nat)
      requires Valid()
      modifies this`rows, this`events
      ensures Valid() && events == old(events) + [Swept(now)] && rows == Sweep(old(rows), now)
      ensures rows.Keys == old(rows).Keys && forall r | r in rows ::
                rows[r] == if TimedOut(old(rows)[r], now)
                           then old(rows)[r].(state := InDoubt, leaseUntil := None, nextAttempt := None) else old(rows)[r]
      ensures count == |set r | r in old(rows) && TimedOut(old(rows)[r], now)|
    {
      ghost var w := World();
      ghost var before := rows;
      var stale := set r | r in rows && Stale(rows[r], now);
      ghost var all := stale;
      count := 0;
      while stale != {}
        invariant stale <= all && count == |all| - |stale| && events == old(events)
        invariant rows == SweepSome(before, all - stale, now)
      {
        var r :| r in stale;
        rows := rows[r := rows[r].(state := InDoubt, leaseUntil := None, nextAttempt := None)];
        stale := stale - {r};
        count := count + 1;
      }
      assert all - stale == all;
      SweepsAll(before, all, now);
      Log(w, Swept(now));
      StaleTimedOut(before, now);
    }

    /** The transport's call, made by the winner of a claim whether or not its lease holds. */
    ghost method LogSend(r: RowId, n: nat, outcome: Outcome)
      requires Valid() && HasWorker(World(), r, n) && workers[r][n].sent.None?
      modifies this`workers, this`wire, this`events
      ensures Valid() && events == old(events) + [SendMessage(r, n, outcome)]
      ensures HasWorker(World(), r, n) && workers[r][n].sent == Some(outcome)
      ensures wire == old(wire) + [Wire(r, outcome)]
    {
      ghost var w := World();
      workers := workers[r := workers[r][n := Worker(Some(outcome), false)]];
      wire := wire + [Wire(r, outcome)];
      Log(w, SendMessage(r, n, outcome));
    }

    /** The transaction in which send stores what the transport did. */
    method StoreResult(r: RowId, ghost n: nat, outcome: Outcome, now: Time) returns (kept: bool)
      requires Valid() && HasWorker(World(), r, n) && workers[r][n].sent == Some(outcome)
      modifies this`rows, this`workers, this`events
      ensures Valid() && events == old(events) + [Store(r, n, now)]
      ensures kept <==> r in old(rows) && old(rows)[r].state == Sending && old(rows)[r].leaseUntil.Some?
                        && now < old(rows)[r].leaseUntil.value
      ensures rows == if kept then old(rows)[r := Ended(old(rows)[r], outcome, now, config.cap)] else old(rows)
    {
      ghost var w := World();
      ResultsEnd(outcome, now, config.cap);
      var (state, nextAttempt, id) := ResultOf(outcome, now, config.cap);
      kept := Finish(r, state, now, nextAttempt, id);
      workers := workers[r := workers[r][n := workers[r][n].(done := true)]];
      Log(w, Store(r, n, now));
    }

    /** send: claim, one call of the transport, one finishing transaction.  `allowed` is
        the verdict of assert_publication_allowed.  An allowed row that is due is sent exactly
        once and ends as the outcome says, unless its lease ran out meanwhile; any other is
        left alone. */
    method Send(r: RowId, allowed: bool, now: Time, leaseUntil: Time, outcome: Outcome, later: Time)
      returns (sent: Result<bool, SendError>)
      requires Valid()
      modifies this
      ensures Valid()
      ensures if r !in old(rows) then sent == Err(NotFound) && rows == old(rows) && wire == old(wire)
        else if !allowed then sent == Err(NotAllowed) && rows == old(rows) && wire == old(wire)
        else if !Due(old(rows), r, now, config.limit) then sent == Ok(false) && rows == old(rows) && wire == old(wire)
        else
          && wire == old(wire) + [Wire(r, outcome)]
          && var tried := old(rows)[r].(state := Sending, attempts := old(rows)[r].attempts + 1, nextAttempt := None,
                                        leaseUntil := Some(leaseUntil));
          if later < leaseUntil then
            && rows == old(rows)[r := Ended(tried, outcome, later, config.cap)]
            && sent == Ok(outcome.Accepted? && HasText(outcome.id))
          else rows == old(rows)[r := tried] && sent == Err(TransitionConflict)
    {
      if r !in rows {
        return Err(NotFound);
      }
      if !allowed {
        return Err(NotAllowed);
      }
      var won, n := Claim(r, now, leaseUntil);
      if !won {
        return Ok(false);
      }
      LogSend(r, n, outcome);
      var kept := StoreResult(r, n, outcome, later);
      if !kept {
        return Err(TransitionConflict);
      }
      sent := Ok(rows[r].state == Sent);
    }
  }

  lemma ClaimStep(c: Config, w: World, w': World, r: RowId, now: Time, leaseUntil: Time, won: bool)
    requires won <==> CanClaim(w.rows, r, now, c.limit)
    requires won ==> r in w.workers && w' == w.(rows := Claimed(w.rows, r, leaseUntil),
                                                workers := w.workers[r := w.workers[r] + [Worker(None, false)]])
    requires !won ==> w' == w
    ensures w' == Next(c, w, Event.Claim(r, now, leaseUntil))
  {
  }

  /** A first attempt, or another one whose time has come; and attempts left. */
  ghost predicate Due(rows: Rows, r: RowId, now: Time, limit: nat) {
    && r in rows && rows[r].attempts < limit
    && match rows[r].state
       case Pending => true
       case Retryable => rows[r].nextAttempt.None? || rows[r].nextAttempt.value <= now
       case _ => false
  }

  /** A message that is being sent under a lease that has run out. */
  ghost predicate TimedOut(row: Row, now: Time) {
    row.state == Sending && row.leaseUntil.Some? && row.leaseUntil.value <= now
  }

  function SweepSome(rows: Rows, some: set<RowId>, now: Time): Rows {
    map r | r in rows :: if r in some then SweepRow(rows[r], now) else rows[r]
  }

  lemma SweepsAll(rows: Rows, all: set<RowId>, now: Time)
    requires all == set r | r in rows && Stale(rows[r], now)
    ensures SweepSome(rows, all, now) == Sweep(rows, now)
  {
  }

  lemma StaleTimedOut(rows: Rows, now: Time)
    ensures (set r | r in rows && Stale(rows[r], now)) == (set r | r in rows && TimedOut(rows[r], now))
  {
  }

  /** Something other than white space. */
  ghost predicate HasText(s: string) {
    exists i | 0 <= i < |s| :: !IsSpace(s[i])
  }

  /** The row once the outcome of its attempt is stored: sent with its id, never to be sent
      again, to be retried after the server's delay within the cap or after two seconds, or
      in doubt. */
  ghost function Ended(row: Row, outcome: Outcome, now: Time, cap: Time): Row {
    var ended := row.(leaseUntil := None, nextAttempt := None, messageId := None);
    match outcome
    case Accepted(id) =>
      if HasText(id) then ended.(state := Sent, messageId := Some(id)) else ended.(state := InDoubt)
    case Rejected => ended.(state := Permanent)
    case NoAnswer(_) => ended.(state := InDoubt)
    case NotStarted => ended.(state := Retryable, nextAttempt := Some(now + 2))
    case RateLimited(seconds) =>
      ended.(state := Retryable, nextAttempt := Some(
               if cap <= seconds then now + cap else if 0 <= seconds then now + seconds else if cap < 0 then now + cap else now))
  }

  lemma ResultsEnd(outcome: Outcome, now: Time, cap: Time)
    ensures var (state, next, id) := ResultOf(outcome, now, cap);
      forall row: Row :: Ended(row, outcome, now, cap)
        == row.(state := state, leaseUntil := None, nextAttempt := next, messageId := id)
  {
    if outcome.Accepted? {
      var s := outcome.id;
      if HasText(s) {
        var i :| 0 <= i < |s| && !IsSpace(s[i]);
        assert s[i] in s;
      }
    }
  }
}
