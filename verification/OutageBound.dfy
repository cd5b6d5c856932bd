/** The outage budget is exact: no smaller number bounds the attempts that a due backlog can use. */
module OutageBound {
  import opened Basics
  import opened Events
  import opened Outbox
  import opened TransferTables
  import opened Protocol
  import opened Handlers
  import opened CircuitBreaker
  import opened Outage

  // ---------- the breaker gives away its whole potential ----------

  /** No probe is outstanding that would keep the half-open breaker shut. */
  ghost predicate Serial(cfg: Config, b: Breaker) {
    b.mode == HalfOpen ==> b.inflight < cfg.halfOpenMaxCalls
  }

  /** The failure rate cannot open the breaker before the failures in a row do: the trigger is off, or there are too few
      samples for it. */
  ghost predicate RateQuiet(cfg: Config, b: Breaker) {
    b.mode == Closed ==>
      || cfg.failureRate <= 0.0 || cfg.windowSize <= 0
      || |b.history| + cfg.failureThreshold - Trailing(b.history) <= cfg.minRequests
  }

  lemma TripsByCountOnly(cfg: Config, b: Breaker, at: int)
    requires cfg.Valid() && b.mode == Closed && RateQuiet(cfg, b)
    ensures Trips(cfg, b.history + [Sample(at, false)]) <==> Trailing(b.history) + 1 >= cfg.failureThreshold
  {
    var h := b.history + [Sample(at, false)];
    TrailingAfterFailure(b.history, at);
    if cfg.windowSize > 0 {
      PrunedFrom(h, cfg.windowSize);
      assert |Pruned(h, cfg.windowSize)| <= |h|;
    }
  }

  /** While anything is left, there is a moment at which a failing call takes exactly one of it. */
  lemma FailOnce(cfg: Config, b: Breaker, now: int, end: int) returns (at: int)
    requires cfg.Valid() && Sane(cfg, b, now) && Serial(cfg, b) && RateQuiet(cfg, b) && now <= end
    requires Potential(cfg, b, now, end) > 0
    ensures now <= at <= end && Admits(cfg, b, at)
    ensures var b' := AfterRecord(cfg, AfterAllow(cfg, b, at), at, false);
            && Sane(cfg, b', at) && Serial(cfg, b') && RateQuiet(cfg, b')
            && Potential(cfg, b', at, end) == Potential(cfg, b, now, end) - 1
  {
    at := if b.mode == Open && now < b.openedAt + cfg.resetTimeout then b.openedAt + cfg.resetTimeout else now;
    var b' := AfterRecord(cfg, AfterAllow(cfg, b, at), at, false);
    if b.mode == Closed {
      TripsByCountOnly(cfg, b, at);
      TrailingAfterFailure(b.history, at);
    }
    if b'.mode == Open {
      ReopenedPotential(cfg, b', end);
    }
  }

  // ---------- the worst outage ----------

  /** Each row is due when it is delivered, as the batch query demands. */
  ghost predicate AllDue(cfg: Config, maxAttempt: nat, s: Scene, ds: seq<Delivery>, end: int)
    requires IsOutage(cfg, maxAttempt, s, ds, end)
    decreases |ds|
  {
    ds == [] || (
      && s.world.tables.outbox[ds[0].event].nextAttemptAt <= ds[0].askAt
      && AllDue(cfg, maxAttempt, Deliver(cfg, maxAttempt, s, ds[0]), ds[1..], end))
  }

  /** A send event that waits for delivery and is due. */
  predicate Waiting(t: Tables, e: EventId, now: int) {
    && e in t.outbox && t.outbox[e].event.kind == TransferRequested && t.outbox[e].status == RowPending
    && t.outbox[e].nextAttemptAt <= now && t.outbox[e].event.aggregateId in t.transfers
  }

  /** A delivery that is stored and does not get rejected uses one attempt, and leaves other events alone. */
  lemma OneAttempt(cfg: Config, maxAttempt: nat, s: Scene, d: Delivery, queue: seq<EventId>)
    requires Possible(s, d) && d.stored && d.event in queue && Distinct(queue)
    requires LookupFails(s.world.tables, d) || HasMoved(s.world.tables, d.event) || Admits(cfg, s.breaker, d.askAt)
    ensures var t, t' := s.world.tables, Deliver(cfg, maxAttempt, s, d).world.tables;
            Total(t', queue) == Total(t, queue) + 1 && RowDiffers(t, t', d.event)
  {
    DeliverCases(cfg, maxAttempt, s, d);
    TotalChanges(s.world.tables, Deliver(cfg, maxAttempt, s, d).world.tables, d.event, queue);
  }

  /** Queued send events that wait, are due, and whose transfers are still pending. */
  ghost predicate Unsent(t: Tables, now: int, us: seq<EventId>, queue: seq<EventId>) {
    Distinct(us) && forall e :: e in us ==> e in queue && Waiting(t, e, now) && !HasMoved(t, e)
  }

  function Try(e: EventId, findOk: bool, at: int): Delivery {
    Delivery(e, Storage(findOk, Commits, 0, 0), None, at, at, true)
  }

  /** With enough unsent events a serial worker uses up all that the breaker lets through. */
  lemma {:induction false} Drain(cfg: Config, maxAttempt: nat, s: Scene, us: seq<EventId>, queue: seq<EventId>,
                                 end: int)
    returns (ds: seq<Delivery>)
    requires cfg.Valid() && Sane(cfg, s.breaker, s.clock) && Serial(cfg, s.breaker) && RateQuiet(cfg, s.breaker)
    requires s.clock <= end && Distinct(queue) && Unsent(s.world.tables, s.clock, us, queue)
    requires Potential(cfg, s.breaker, s.clock, end) <= |us|
    ensures IsOutage(cfg, maxAttempt, s, ds, end) && AllDue(cfg, maxAttempt, s, ds, end)
    ensures FailedLookups(s.world.tables, ds) == 0
    ensures Total(SceneAfter(cfg, maxAttempt, s, ds, end).world.tables, queue)
         == Total(s.world.tables, queue) + Potential(cfg, s.breaker, s.clock, end)
    decreases |us|
  {
    PotentialShrinks(cfg, s.breaker, s.clock, s.clock, end);
    if Potential(cfg, s.breaker, s.clock, end) == 0 {
      ds := [];
    } else {
      var at := FailOnce(cfg, s.breaker, s.clock, end);
      var d := Try(us[0], true, at);
      assert us[0] in us;
      var s' := Deliver(cfg, maxAttempt, s, d);
      DeliverCases(cfg, maxAttempt, s, d);
      OneAttempt(cfg, maxAttempt, s, d, queue);
      UnsentRest(s.world.tables, s'.world.tables, s.clock, at, us, queue);
      var rest := Drain(cfg, maxAttempt, s', us[1..], queue, end);
      ds := [d] + rest;
      assert ds[1..] == rest;
      LookupsUnchanged(s.world.tables, s'.world.tables, d.event, rest);
    }
  }

  lemma UnsentRest(t: Tables, t': Tables, now: int, later: int, us: seq<EventId>, queue: seq<EventId>)
    requires us != [] && Unsent(t, now, us, queue) && now <= later && RowDiffers(t, t', us[0])
    ensures Unsent(t', later, us[1..], queue)
  {
    var rest := us[1..];
    assert forall i :: 0 <= i < |rest| ==> rest[i] == us[i + 1];
    forall e | e in rest
      ensures e in queue && Waiting(t', e, later) && !HasMoved(t', e)
    {
      assert e in us && e != us[0];
    }
  }

  /** Deliveries that use an attempt without asking the breaker, all at one moment. */
  ghost predicate Unasked(t: Tables, now: int, free: seq<Delivery>, us: seq<EventId>, queue: seq<EventId>) {
    && (forall i, j :: 0 <= i < j < |free| ==> free[i].event != free[j].event)
    && (forall d :: d in free ==>
          && d.event in queue && d.event !in us && Waiting(t, d.event, now)
          && d.stored && d.askAt == d.doneAt == now && (LookupFails(t, d) || HasMoved(t, d.event)))
  }

  lemma UnaskedRest(t: Tables, t': Tables, now: int, free: seq<Delivery>, us: seq<EventId>, queue: seq<EventId>)
    requires free != [] && Unasked(t, now, free, us, queue) && Unsent(t, now, us, queue)
    requires RowDiffers(t, t', free[0].event)
    ensures Unasked(t', now, free[1..], us, queue) && Unsent(t', now, us, queue)
  {
    var rest := free[1..];
    assert free[0] in free;
    assert forall i :: 0 <= i < |rest| ==> rest[i] == free[i + 1];
    forall d | d in rest
      ensures && d.event in queue && d.event !in us && Waiting(t', d.event, now)
              && d.stored && d.askAt == d.doneAt == now && (LookupFails(t', d) || HasMoved(t', d.event))
    {
      assert d in free && d.event != free[0].event;
    }
  }

  /** The worst outage: first all that uses attempts without asking, then the breaker's potential. */
  lemma {:induction false} WorstOutage(cfg: Config, maxAttempt: nat, s: Scene, free: seq<Delivery>, us: seq<EventId>,
                                       queue: seq<EventId>, end: int) returns (ds: seq<Delivery>)
    requires cfg.Valid() && Sane(cfg, s.breaker, s.clock) && Serial(cfg, s.breaker) && RateQuiet(cfg, s.breaker)
    requires s.clock <= end && Distinct(queue)
    requires Unasked(s.world.tables, s.clock, free, us, queue) && Unsent(s.world.tables, s.clock, us, queue)
    requires Potential(cfg, s.breaker, s.clock, end) <= |us|
    ensures IsOutage(cfg, maxAttempt, s, ds, end) && AllDue(cfg, maxAttempt, s, ds, end)
    ensures FailedLookups(s.world.tables, ds) == FailedLookups(s.world.tables, free)
    ensures Total(SceneAfter(cfg, maxAttempt, s, ds, end).world.tables, queue)
         == Total(s.world.tables, queue) + |free| + Potential(cfg, s.breaker, s.clock, end)
    decreases |free|
  {
    if free == [] {
      ds := Drain(cfg, maxAttempt, s, us, queue, end);
    } else {
      var d := free[0];
      assert d in free;
      var s' := Deliver(cfg, maxAttempt, s, d);
      DeliverCases(cfg, maxAttempt, s, d);
      OneAttempt(cfg, maxAttempt, s, d, queue);
      UnaskedRest(s.world.tables, s'.world.tables, s.clock, free, us, queue);
      LookupsUnchanged(s.world.tables, s'.world.tables, d.event, free[1..]);
      var rest := WorstOutage(cfg, maxAttempt, s', free[1..], us, queue, end);
      ds := [d] + rest;
      assert ds[1..] == rest;
      LookupsUnchanged(s.world.tables, s'.world.tables, d.event, rest);
    }
  }

  // ---------- the budget is the least bound ----------

  /** The queued events that owe an attempt. */
  lemma {:induction false} OwingEvents(t: Tables, queue: seq<EventId>) returns (es: seq<EventId>)
    requires Distinct(queue)
    ensures |es| == Owed(t, queue) && Distinct(es) && forall e :: e in es ==> e in queue && Owes(t, e) == 1
  {
    if queue == [] {
      es := [];
    } else {
      var front, last := queue[..|queue| - 1], queue[|queue| - 1];
      es := OwingEvents(t, front);
      assert queue == front + [last] && last !in front;
      if Owes(t, last) == 1 {
        es := es + [last];
      }
    }
  }

  lemma {:induction false} CountFailedLookups(t: Tables, free: seq<Delivery>, k: nat)
    requires k <= |free|
    requires forall i :: 0 <= i < |free| ==> (LookupFails(t, free[i]) <==> i < k)
    ensures FailedLookups(t, free) == k
    decreases |free|
  {
    if free != [] {
      assert forall i :: 0 <= i < |free| - 1 ==> free[1..][i] == free[i + 1];
      CountFailedLookups(t, free[1..], if k == 0 then 0 else k - 1);
    }
  }

  /** A backlog that is due: every queued row is a pending send event, due now, of a transfer that exists. */
  ghost predicate DueBacklog(s: Scene, queue: seq<EventId>) {
    Distinct(queue) && forall e :: e in queue ==> Waiting(s.world.tables, e, s.clock)
  }

  ghost predicate Bounds(cfg: Config, maxAttempt: nat, s: Scene, queue: seq<EventId>, end: int, lookups: nat, m: int) {
    forall ds ::
      IsOutage(cfg, maxAttempt, s, ds, end) && AllDue(cfg, maxAttempt, s, ds, end)
      && FailedLookups(s.world.tables, ds) <= lookups ==>
        Total(SceneAfter(cfg, maxAttempt, s, ds, end).world.tables, queue) - Total(s.world.tables, queue) <= m
  }

  /** For a due backlog with enough unsent events, a number bounds the attempts of every outage with at most k failed
      lookups if and only if it is at least the breaker's potential, plus the queued events whose transfers have moved
      on, plus k. */
  lemma BudgetIsExact(cfg: Config, maxAttempt: nat, s: Scene, us: seq<EventId>, queue: seq<EventId>, end: int,
                      k: nat, m: int)
    requires cfg.Valid() && Sane(cfg, s.breaker, s.clock) && Serial(cfg, s.breaker) && RateQuiet(cfg, s.breaker)
    requires s.clock <= end && DueBacklog(s, queue) && Unsent(s.world.tables, s.clock, us, queue)
    requires |us| >= Potential(cfg, s.breaker, s.clock, end) + k
    ensures Bounds(cfg, maxAttempt, s, queue, end, k, m) <==>
            m >= Potential(cfg, s.breaker, s.clock, end) + Owed(s.world.tables, queue) + k
  {
    var t, p := s.world.tables, Potential(cfg, s.breaker, s.clock, end);
    if m >= p + Owed(t, queue) + k {
      forall ds | IsOutage(cfg, maxAttempt, s, ds, end) && FailedLookups(t, ds) <= k
        ensures Total(SceneAfter(cfg, maxAttempt, s, ds, end).world.tables, queue) - Total(t, queue) <= m
      {
        OutagePays(cfg, maxAttempt, s, ds, queue, end);
      }
    } else {
      var ds := WorstSchedule(cfg, maxAttempt, s, us, queue, end, k);
      assert !Bounds(cfg, maxAttempt, s, queue, end, k, m);
    }
  }

  lemma WorstSchedule(cfg: Config, maxAttempt: nat, s: Scene, us: seq<EventId>, queue: seq<EventId>, end: int, k: nat)
    returns (ds: seq<Delivery>)
    requires cfg.Valid() && Sane(cfg, s.breaker, s.clock) && Serial(cfg, s.breaker) && RateQuiet(cfg, s.breaker)
    requires s.clock <= end && DueBacklog(s, queue) && Unsent(s.world.tables, s.clock, us, queue)
    requires |us| >= Potential(cfg, s.breaker, s.clock, end) + k
    ensures IsOutage(cfg, maxAttempt, s, ds, end) && AllDue(cfg, maxAttempt, s, ds, end)
    ensures FailedLookups(s.world.tables, ds) == k
    ensures Total(SceneAfter(cfg, maxAttempt, s, ds, end).world.tables, queue) - Total(s.world.tables, queue)
         == Potential(cfg, s.breaker, s.clock, end) + Owed(s.world.tables, queue) + k
  {
    var t := s.world.tables;
    PotentialShrinks(cfg, s.breaker, s.clock, s.clock, end);
    var owing := OwingEvents(t, queue);
    SplitUnsent(t, s.clock, us, queue, k);
    var free := FreeTries(t, s.clock, us[..k], owing, us[k..], queue);
    ds := WorstOutage(cfg, maxAttempt, s, free, us[k..], queue, end);
  }

  function Tries(es: seq<EventId>, findOk: bool, now: int): (ds: seq<Delivery>)
    ensures |ds| == |es| && forall i :: 0 <= i < |es| ==> ds[i] == Try(es[i], findOk, now)
  {
    seq(|es|, i requires 0 <= i < |es| => Try(es[i], findOk, now))
  }

  lemma TriesUnasked(t: Tables, now: int, es: seq<EventId>, findOk: bool, us: seq<EventId>, queue: seq<EventId>)
    requires Distinct(es) && forall e :: e in es ==> e in queue && e !in us && Waiting(t, e, now)
    requires findOk ==> forall e :: e in es ==> HasMoved(t, e)
    ensures Unasked(t, now, Tries(es, findOk, now), us, queue)
    ensures forall i :: 0 <= i < |es| ==> (LookupFails(t, Tries(es, findOk, now)[i]) <==> !findOk)
  {
    var ds := Tries(es, findOk, now);
    assert forall i :: 0 <= i < |es| ==> es[i] in es;
    forall d | d in ds
      ensures && d.event in queue && d.event !in us && Waiting(t, d.event, now)
              && d.stored && d.askAt == d.doneAt == now && (LookupFails(t, d) || HasMoved(t, d.event))
    {
      var i :| 0 <= i < |es| && ds[i] == d;
    }
  }

  lemma JoinUnasked(t: Tables, now: int, a: seq<Delivery>, b: seq<Delivery>, us: seq<EventId>, queue: seq<EventId>)
    requires Unasked(t, now, a, us, queue) && Unasked(t, now, b, us, queue)
    requires forall x, y :: x in a && y in b ==> x.event != y.event
    ensures Unasked(t, now, a + b, us, queue)
  {
    var all := a + b;
    forall i, j | 0 <= i < j < |all|
      ensures all[i].event != all[j].event
    {
      if j < |a| {
        assert all[i] == a[i] && all[j] == a[j];
      } else if i >= |a| {
        assert all[i] == b[i - |a|] && all[j] == b[j - |a|];
      } else {
        assert a[i] in a && b[j - |a|] in b;
      }
    }
  }

  /** One failed lookup for each of some unsent events, one delivery for each event that owes an attempt. */
  lemma FreeTries(t: Tables, now: int, lost: seq<EventId>, owing: seq<EventId>, us: seq<EventId>, queue: seq<EventId>)
    returns (free: seq<Delivery>)
    requires Unsent(t, now, lost, queue) && Unsent(t, now, us, queue) && forall e :: e in lost ==> e !in us
    requires Distinct(owing) && forall e :: e in owing ==> e in queue && Owes(t, e) == 1 && Waiting(t, e, now)
    ensures Unasked(t, now, free, us, queue) && |free| == |lost| + |owing| && FailedLookups(t, free) == |lost|
  {
    var fails, moves := Tries(lost, false, now), Tries(owing, true, now);
    TriesUnasked(t, now, lost, false, us, queue);
    TriesUnasked(t, now, owing, true, us, queue);
    forall x, y | x in fails && y in moves
      ensures x.event != y.event
    {
      var i :| 0 <= i < |fails| && fails[i] == x;
      var j :| 0 <= j < |moves| && moves[j] == y;
      assert lost[i] in lost && owing[j] in owing && HasMoved(t, owing[j]);
    }
    JoinUnasked(t, now, fails, moves, us, queue);
    free := fails + moves;
    CountFailedLookups(t, free, |lost|);
  }

  lemma SplitUnsent(t: Tables, now: int, us: seq<EventId>, queue: seq<EventId>, k: nat)
    requires Unsent(t, now, us, queue) && k <= |us|
    ensures Unsent(t, now, us[..k], queue) && Unsent(t, now, us[k..], queue)
    ensures forall e :: e in us[..k] ==> e !in us[k..]
  {
    assert forall i :: 0 <= i < |us| - k ==> us[k..][i] == us[i + k];
    assert forall e :: e in us[..k] || e in us[k..] ==> e in us;
  }

  /** For a breaker that is closed after a success: failureThreshold + T / resetTimeout bounds the attempts of every
      outage without failed lookups if and only if no queued event's transfer has moved on; and of every outage with at
      most k failed lookups, for such a queue, if and only if k is zero. */
  lemma PlainBudgetIff(cfg: Config, maxAttempt: nat, s: Scene, us: seq<EventId>, queue: seq<EventId>, end: int, k: nat)
    requires cfg.Valid() && s.breaker.mode == Closed && Trailing(s.breaker.history) == 0 && RateQuiet(cfg, s.breaker)
    requires s.clock <= end && DueBacklog(s, queue) && Unsent(s.world.tables, s.clock, us, queue)
    requires |us| >= cfg.failureThreshold + (end - s.clock) / cfg.resetTimeout + k
    ensures var plain := cfg.failureThreshold + (end - s.clock) / cfg.resetTimeout;
            && (Bounds(cfg, maxAttempt, s, queue, end, 0, plain) <==>
                forall e :: e in queue ==> !HasMoved(s.world.tables, e))
            && ((forall e :: e in queue ==> !HasMoved(s.world.tables, e)) ==>
                (Bounds(cfg, maxAttempt, s, queue, end, k, plain) <==> k == 0))
  {
    var t, plain := s.world.tables, cfg.failureThreshold + (end - s.clock) / cfg.resetTimeout;
    BudgetIsExact(cfg, maxAttempt, s, us, queue, end, 0, plain);
    BudgetIsExact(cfg, maxAttempt, s, us, queue, end, k, plain);
    OwedIff(t, queue, s.clock);
  }

  lemma {:induction false} OwedIff(t: Tables, queue: seq<EventId>, now: int)
    requires forall e :: e in queue ==> Waiting(t, e, now)
    ensures Owed(t, queue) == 0 <==> forall e :: e in queue ==> !HasMoved(t, e)
  {
    if queue != [] {
      var front, last := queue[..|queue| - 1], queue[|queue| - 1];
      assert queue == front + [last];
      assert last in queue && forall e :: e in front ==> e in queue;
      OwedIff(t, front, now);
    }
  }
}
