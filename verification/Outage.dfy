/** A gateway outage seen by one relay process: how many attempts the queue of send events uses up. */
module Outage {
  import opened Basics
  import opened TransferDomain
  import opened Events
  import opened Outbox
  import opened TransferTables
  import opened Protocol
  import opened Handlers
  import opened CircuitBreaker
  import BreakerCallers

  /** One delivery of a send event while the gateway is unreachable: how storage behaves, what the bank may have taken
      all the same, when the handler asks the breaker and when it is done, and whether the row update reaches the
      table. */
  datatype Delivery = Delivery(event: EventId, storage: Storage, recorded: Option<(int, string)>,
                               askAt: int, doneAt: int, stored: bool)

  datatype Scene = Scene(breaker: Breaker, clock: int, world: World)

  predicate Possible(s: Scene, d: Delivery) {
    var rows := s.world.tables.outbox;
    && d.event in rows && rows[d.event].event.kind == TransferRequested && rows[d.event].status == RowPending
    && s.clock <= d.askAt <= d.doneAt
  }

  /** The handler call and the relay's row update. */
  function Deliver(cfg: Config, maxAttempt: nat, s: Scene, d: Delivery): Scene
    requires Possible(s, d)
  {
    var gateway := Unreachable(d.recorded);
    var row := s.world.tables.outbox[d.event];
    var (w, result) := SendCall(s.world, d.event, d.storage, Admits(cfg, s.breaker, d.askAt), gateway, d.doneAt);
    var row' := DispatchRow(row, row.attemptCount, result, d.doneAt, maxAttempt);
    Scene(SendBreaker(cfg, s.breaker, s.world, d.event, d.storage, gateway, d.askAt, d.doneAt),
          d.doneAt,
          if d.stored then w.(tables := w.tables.(outbox := w.tables.outbox[d.event := row'])) else w)
  }

  predicate IsOutage(cfg: Config, maxAttempt: nat, s: Scene, ds: seq<Delivery>, end: int)
    decreases |ds|
  {
    s.clock <= end
    && (ds == [] || (Possible(s, ds[0]) && IsOutage(cfg, maxAttempt, Deliver(cfg, maxAttempt, s, ds[0]), ds[1..], end)))
  }

  function SceneAfter(cfg: Config, maxAttempt: nat, s: Scene, ds: seq<Delivery>, end: int): Scene
    requires IsOutage(cfg, maxAttempt, s, ds, end)
    decreases |ds|
  {
    if ds == [] then s else SceneAfter(cfg, maxAttempt, Deliver(cfg, maxAttempt, s, ds[0]), ds[1..], end)
  }

  // ---------- the ways a delivery can go ----------

  /** The handler does not get hold of the transfer. */
  predicate LookupFails(t: Tables, d: Delivery) {
    !d.storage.findOk || (d.event in t.outbox && t.outbox[d.event].event.aggregateId !in t.transfers)
  }

  /** The transfer has left Pending already, say because an earlier batch was lost after its handler's commit. */
  predicate HasMoved(t: Tables, e: EventId) {
    && e in t.outbox && t.outbox[e].event.aggregateId in t.transfers
    && t.transfers[t.outbox[e].event.aggregateId].status != Pending
  }

  /** Only a delivery that finds its transfer pending asks the breaker; a failed lookup and a transfer that has moved on
      use an attempt without asking. */
  lemma DeliverCases(cfg: Config, maxAttempt: nat, s: Scene, d: Delivery)
    requires Possible(s, d)
    ensures var s', t := Deliver(cfg, maxAttempt, s, d), s.world.tables;
            var admitted := Admits(cfg, s.breaker, d.askAt);
            var result := if LookupFails(t, d) then HandlerError
                          else if HasMoved(t, d.event) then Handled
                          else if admitted then HandlerError else SkipAttempt;
            var row := t.outbox[d.event];
            var row' := DispatchRow(row, row.attemptCount, result, d.doneAt, maxAttempt);
            && s'.clock == d.doneAt
            && s'.world.tables == (if d.stored
                                   then t.(outbox := t.outbox[d.event := row'])
                                   else t)
            && s'.breaker == (if LookupFails(t, d) || HasMoved(t, d.event) then s.breaker
                              else if !admitted then AfterAllow(cfg, s.breaker, d.askAt)
                              else AfterRecord(cfg, AfterAllow(cfg, s.breaker, d.askAt), d.doneAt, false))
  {
  }

  // ---------- what the queue has used, and what it will use without asking ----------

  predicate Distinct(queue: seq<EventId>) {
    forall i, j :: 0 <= i < j < |queue| ==> queue[i] != queue[j]
  }

  function Attempts(t: Tables, e: EventId): nat {
    if e in t.outbox then t.outbox[e].attemptCount else 0
  }

  /** A pending event whose transfer has moved on will use one more attempt, and be sent. */
  function Owes(t: Tables, e: EventId): nat {
    if HasMoved(t, e) && t.outbox[e].status == RowPending then 1 else 0
  }

  /** Attempts used by all queued events together. */
  function Total(t: Tables, queue: seq<EventId>): nat {
    if queue == [] then 0 else Total(t, queue[..|queue| - 1]) + Attempts(t, queue[|queue| - 1])
  }

  /** How many queued events are pending although their transfer has moved on. */
  function Owed(t: Tables, queue: seq<EventId>): nat {
    if queue == [] then 0 else Owed(t, queue[..|queue| - 1]) + Owes(t, queue[|queue| - 1])
  }

  function FailedLookups(t: Tables, ds: seq<Delivery>): nat {
    if ds == [] then 0 else (if LookupFails(t, ds[0]) then 1 else 0) + FailedLookups(t, ds[1..])
  }

  /** Only the row of event e differs, and not in what it is about. */
  ghost predicate RowDiffers(t: Tables, t': Tables, e: EventId) {
    && t'.transfers == t.transfers && t'.outbox.Keys == t.outbox.Keys
    && (forall x :: x in t.outbox ==> t'.outbox[x].event == t.outbox[x].event)
    && (forall x :: x in t.outbox && x != e ==> t'.outbox[x] == t.outbox[x])
  }

  lemma {:induction false} TotalChanges(t: Tables, t': Tables, e: EventId, queue: seq<EventId>)
    requires RowDiffers(t, t', e) && Distinct(queue)
    ensures Total(t', queue) == Total(t, queue) + if e in queue then Attempts(t', e) - Attempts(t, e) else 0
    ensures Owed(t', queue) == Owed(t, queue) + if e in queue then Owes(t', e) - Owes(t, e) else 0
  {
    if queue != [] {
      var front, last := queue[..|queue| - 1], queue[|queue| - 1];
      TotalChanges(t, t', e, front);
      assert queue == front + [last];
      assert e == last ==> e !in front;
      assert e != last ==> Attempts(t', last) == Attempts(t, last) && Owes(t', last) == Owes(t, last);
    }
  }

  lemma {:induction false} LookupsUnchanged(t: Tables, t': Tables, e: EventId, ds: seq<Delivery>)
    requires RowDiffers(t, t', e)
    ensures FailedLookups(t', ds) == FailedLookups(t, ds)
  {
    if ds != [] {
      LookupsUnchanged(t, t', e, ds[1..]);
    }
  }

  // ---------- what the breaker lets through ----------

  /** A breaker as the program can leave it. */
  ghost predicate Sane(cfg: Config, b: Breaker, now: int) {
    (b.mode == Closed ==> Trailing(b.history) < cfg.failureThreshold) && (b.mode == Open ==> b.openedAt <= now)
  }

  /** Whoever has been calling, the breaker of any run is one of these. */
  lemma {:induction false} ReachableIsSane(cfg: Config, clock: int, delay: nat, ops: seq<BreakerCallers.Op>)
    requires cfg.Valid()
    requires BreakerCallers.ValidRun(cfg, BreakerCallers.Fresh(clock, delay), ops)
    ensures var s := BreakerCallers.Run(cfg, BreakerCallers.Fresh(clock, delay), ops);
            Sane(cfg, s.breaker, s.clock)
  {
    if ops != [] {
      var before, op := ops[..|ops| - 1], ops[|ops| - 1];
      ReachableIsSane(cfg, clock, delay, before);
      var m := BreakerCallers.Run(cfg, BreakerCallers.Fresh(clock, delay), before);
      if op.Finish? {
        var h := m.breaker.history + [Sample(op.at, op.success)];
        assert h[..|h| - 1] == m.breaker.history;
      }
    }
  }

  /** How many more failures the breaker can let through until `end`. */
  function Potential(cfg: Config, b: Breaker, now: int, end: int): int
    requires cfg.Valid()
  {
    match b.mode
    case Closed => cfg.failureThreshold - Trailing(b.history) + (end - now) / cfg.resetTimeout
    case HalfOpen => 1 + (end - now) / cfg.resetTimeout
    case Open =>
      var next := if now > b.openedAt + cfg.resetTimeout then now else b.openedAt + cfg.resetTimeout;
      if next > end then 0 else 1 + (end - next) / cfg.resetTimeout
  }

  lemma DivisionGrows(x: int, y: int, d: int)
    requires 0 <= x <= y && d > 0
    ensures 0 <= x / d <= y / d
    ensures x >= d ==> x / d == 1 + (x - d) / d
  {
    var q := x / d;
    assert x == q * d + x % d;
    QuotientBound(q, d, y);
    assert q >= 0;
    assert (q - 1) * d == q * d - d;
    QuotientExact(q - 1, d, x - d);
  }

  lemma ReopenedPotential(cfg: Config, b: Breaker, end: int)
    requires cfg.Valid() && b.mode == Open && b.openedAt <= end
    ensures Potential(cfg, b, b.openedAt, end) == (end - b.openedAt) / cfg.resetTimeout
  {
    DivisionGrows(end - b.openedAt, end - b.openedAt, cfg.resetTimeout);
    if end - b.openedAt < cfg.resetTimeout {
      assert (end - b.openedAt) / cfg.resetTimeout == 0;
    }
  }

  lemma PotentialShrinks(cfg: Config, b: Breaker, now: int, later: int, end: int)
    requires cfg.Valid() && Sane(cfg, b, now) && now <= later <= end
    ensures 0 <= Potential(cfg, b, later, end) <= Potential(cfg, b, now, end)
  {
    DivisionGrows(end - later, end - now, cfg.resetTimeout);
    if b.mode == Open && b.openedAt + cfg.resetTimeout <= end {
      var reopen := b.openedAt + cfg.resetTimeout;
      if now <= reopen <= later {
        DivisionGrows(end - later, end - reopen, cfg.resetTimeout);
      } else if later < reopen {
        DivisionGrows(end - reopen, end - reopen, cfg.resetTimeout);
      }
    }
  }

  /** One delivery pays for the attempt it uses: out of what the breaker can let through, as an event that owed an
      attempt, or as a failed lookup. */
  lemma DeliveryPays(cfg: Config, maxAttempt: nat, s: Scene, d: Delivery, queue: seq<EventId>, end: int)
    requires cfg.Valid() && Sane(cfg, s.breaker, s.clock) && Possible(s, d) && d.doneAt <= end && Distinct(queue)
    ensures var s', t := Deliver(cfg, maxAttempt, s, d), s.world.tables;
            var t' := s'.world.tables;
            && Sane(cfg, s'.breaker, s'.clock) && RowDiffers(t, t', d.event)
            && Total(t', queue) + Owed(t', queue) + Potential(cfg, s'.breaker, s'.clock, end)
                 <= Total(t, queue) + Owed(t, queue) + Potential(cfg, s.breaker, s.clock, end)
                    + if LookupFails(t, d) then 1 else 0
  {
    var s', t := Deliver(cfg, maxAttempt, s, d), s.world.tables;
    DeliverCases(cfg, maxAttempt, s, d);
    TotalChanges(t, s'.world.tables, d.event, queue);
    if LookupFails(t, d) || HasMoved(t, d.event) {
      PotentialShrinks(cfg, s.breaker, s.clock, d.doneAt, end);
    } else {
      CallPays(cfg, s.breaker, s.clock, d.askAt, d.doneAt, end);
    }
  }

  /** A failed call takes one from what the breaker can let through; a rejected one takes none. */
  lemma CallPays(cfg: Config, b: Breaker, now: int, askAt: int, doneAt: int, end: int)
    requires cfg.Valid() && Sane(cfg, b, now) && now <= askAt <= doneAt <= end
    ensures var asked := AfterAllow(cfg, b, askAt);
            var b' := if Admits(cfg, b, askAt) then AfterRecord(cfg, asked, doneAt, false) else asked;
            && Sane(cfg, b', doneAt)
            && Potential(cfg, b', doneAt, end) + (if Admits(cfg, b, askAt) then 1 else 0) <= Potential(cfg, b, now, end)
  {
    PotentialShrinks(cfg, b, now, askAt, end);
    if !Admits(cfg, b, askAt) {
      PotentialShrinks(cfg, b, askAt, doneAt, end);
    } else {
      var asked := AfterAllow(cfg, b, askAt);
      var b' := AfterRecord(cfg, asked, doneAt, false);
      DivisionGrows(end - doneAt, end - askAt, cfg.resetTimeout);
      assert (asked.history + [Sample(doneAt, false)])[..|asked.history|] == asked.history;
      if b'.mode == Open {
        ReopenedPotential(cfg, b', end);
      }
    }
  }

  lemma {:induction false} OutagePays(cfg: Config, maxAttempt: nat, s: Scene, ds: seq<Delivery>, queue: seq<EventId>,
                                      end: int)
    requires cfg.Valid() && Sane(cfg, s.breaker, s.clock) && IsOutage(cfg, maxAttempt, s, ds, end) && Distinct(queue)
    ensures var t, t' := s.world.tables, SceneAfter(cfg, maxAttempt, s, ds, end).world.tables;
            Total(t', queue) <= Total(t, queue) + Owed(t, queue) + FailedLookups(t, ds) +
                Potential(cfg, s.breaker, s.clock, end)
    decreases |ds|
  {
    if ds == [] {
      PotentialShrinks(cfg, s.breaker, s.clock, s.clock, end);
    } else {
      var s' := Deliver(cfg, maxAttempt, s, ds[0]);
      DeliveryPays(cfg, maxAttempt, s, ds[0], queue, end);
      LookupsUnchanged(s.world.tables, s'.world.tables, ds[0].event, ds[1..]);
      OutagePays(cfg, maxAttempt, s', ds[1..], queue, end);
    }
  }

  /** Outage budget: while every gateway call fails retryably for a time T, all queued send events together use up at
      most failureThreshold + T / resetTimeout attempts, plus one for each queued event whose transfer has moved on
      already and one for each failed lookup, however many events are queued and however often each is delivered. */
  lemma OutageBudget(cfg: Config, maxAttempt: nat, s: Scene, ds: seq<Delivery>, queue: seq<EventId>, end: int)
    requires cfg.Valid() && Sane(cfg, s.breaker, s.clock) && IsOutage(cfg, maxAttempt, s, ds, end) && Distinct(queue)
    ensures var t, t' := s.world.tables, SceneAfter(cfg, maxAttempt, s, ds, end).world.tables;
            Total(t', queue) - Total(t, queue)
              <= cfg.failureThreshold + (end - s.clock) / cfg.resetTimeout + Owed(t, queue) + FailedLookups(t, ds)
  {
    OutagePays(cfg, maxAttempt, s, ds, queue, end);
    DivisionGrows(end - s.clock, end - s.clock, cfg.resetTimeout);
    if s.breaker.mode == Open {
      var reopen := s.breaker.openedAt + cfg.resetTimeout;
      if s.clock <= reopen <= end {
        DivisionGrows(end - reopen, end - s.clock, cfg.resetTimeout);
      }
    }
  }

  /** If every queued event's transfer is still pending and lookups work, the breaker alone bounds the attempts. */
  lemma PendingQueueBudget(cfg: Config, maxAttempt: nat, s: Scene, ds: seq<Delivery>, queue: seq<EventId>, end: int)
    requires cfg.Valid() && Sane(cfg, s.breaker, s.clock) && IsOutage(cfg, maxAttempt, s, ds, end) && Distinct(queue)
    requires forall e :: e in queue ==> !HasMoved(s.world.tables, e)
    requires forall d :: d in ds ==> !LookupFails(s.world.tables, d)
    ensures var t, t' := s.world.tables, SceneAfter(cfg, maxAttempt, s, ds, end).world.tables;
            Total(t', queue) - Total(t, queue) <= cfg.failureThreshold + (end - s.clock) / cfg.resetTimeout
  {
    OutageBudget(cfg, maxAttempt, s, ds, queue, end);
    NothingOwed(s.world.tables, queue);
    NoFailedLookups(s.world.tables, ds);
  }

  lemma {:induction false} NothingOwed(t: Tables, queue: seq<EventId>)
    requires forall e :: e in queue ==> !HasMoved(t, e)
    ensures Owed(t, queue) == 0
  {
    if queue != [] {
      NothingOwed(t, queue[..|queue| - 1]);
    }
  }

  lemma {:induction false} NoFailedLookups(t: Tables, ds: seq<Delivery>)
    requires forall d :: d in ds ==> !LookupFails(t, d)
    ensures FailedLookups(t, ds) == 0
  {
    if ds != [] {
      NoFailedLookups(t, ds[1..]);
    }
  }

  /** The budget holds for the breaker that any earlier run of concurrent callers leaves behind. */
  lemma OutageAfterAnyRun(cfg: Config, clock: int, delay: nat, ops: seq<BreakerCallers.Op>, maxAttempt: nat, w: World,
                          ds: seq<Delivery>, queue: seq<EventId>, end: int)
    requires cfg.Valid() && Distinct(queue)
    requires BreakerCallers.ValidRun(cfg, BreakerCallers.Fresh(clock, delay), ops)
    requires var m := BreakerCallers.Run(cfg, BreakerCallers.Fresh(clock, delay), ops);
             IsOutage(cfg, maxAttempt, Scene(m.breaker, m.clock, w), ds, end)
    ensures var m := BreakerCallers.Run(cfg, BreakerCallers.Fresh(clock, delay), ops);
            var t' := SceneAfter(cfg, maxAttempt, Scene(m.breaker, m.clock, w), ds, end).world.tables;
            Total(t', queue) - Total(w.tables, queue)
              <= cfg.failureThreshold + (end - m.clock) / cfg.resetTimeout + Owed(w.tables, queue) +
                  FailedLookups(w.tables, ds)
  {
    ReachableIsSane(cfg, clock, delay, ops);
    var m := BreakerCallers.Run(cfg, BreakerCallers.Fresh(clock, delay), ops);
    OutageBudget(cfg, maxAttempt, Scene(m.breaker, m.clock, w), ds, queue, end);
  }

  // ---------- events that have moved on ----------

  /** Delivering each of some moved events once uses one attempt each, at any moment, and leaves the breaker alone. */
  lemma {:induction false} MovedEventsUseAttempts(cfg: Config, maxAttempt: nat, s: Scene, ds: seq<Delivery>,
                                                  queue: seq<EventId>)
    requires Distinct(queue)
    requires forall i :: 0 <= i < |ds| ==>
               && ds[i].event in queue && Possible(s, ds[i]) && HasMoved(s.world.tables, ds[i].event)
               && ds[i].storage.findOk && ds[i].stored && ds[i].askAt == ds[i].doneAt == s.clock
    requires forall i, j :: 0 <= i < j < |ds| ==> ds[i].event != ds[j].event
    ensures IsOutage(cfg, maxAttempt, s, ds, s.clock)
    ensures var s' := SceneAfter(cfg, maxAttempt, s, ds, s.clock);
            s'.breaker == s.breaker && Total(s'.world.tables, queue) == Total(s.world.tables, queue) + |ds|
    decreases |ds|
  {
    if ds != [] {
      var s1 := Deliver(cfg, maxAttempt, s, ds[0]);
      DeliverCases(cfg, maxAttempt, s, ds[0]);
      TotalChanges(s.world.tables, s1.world.tables, ds[0].event, queue);
      assert forall i :: 0 <= i < |ds| - 1 ==> ds[1..][i] == ds[i + 1];
      MovedEventsUseAttempts(cfg, maxAttempt, s1, ds[1..], queue);
    }
  }
}
