/** One relay worker: the batch transaction, and how long a due event waits for its turn. */
module RelayWorker {
  import opened Basics
  import opened Events
  import opened Outbox

  type Rows = map<EventId, OutboxRow>

  /** The result of one handler call, the time the relay stores it, and whether its row update works; a failed update
      is only logged. */
  datatype Reply = Reply(result: HandlerResult, at: int, updateOk: bool)

  predicate Due(rows: Rows, e: EventId, now: int) {
    e in rows && rows[e].status == RowPending && rows[e].nextAttemptAt <= now
  }

  /** The batch query: at most `limit` due rows, earliest next_attempt_at first.  Ties may fall either way. */
  ghost predicate IsSelection(rows: Rows, now: int, limit: nat, batch: seq<EventId>) {
    && |batch| <= limit
    && (forall i :: 0 <= i < |batch| ==> Due(rows, batch[i], now))
    && (forall i, j :: 0 <= i < j < |batch| ==>
          batch[i] != batch[j] && rows[batch[i]].nextAttemptAt <= rows[batch[j]].nextAttemptAt)
    && (forall e :: Due(rows, e, now) && e !in batch ==>
          |batch| == limit && forall i :: 0 <= i < limit ==> rows[batch[i]].nextAttemptAt <= rows[e].nextAttemptAt)
  }

  /** The row updates the batch transaction collects. */
  function Updates(rows: Rows, handlers: set<EventType>, batch: seq<EventId>, replies: seq<Reply>, maxAttempt: nat)
    : (u: Rows)
    requires |replies| == |batch| && forall i :: 0 <= i < |batch| ==> batch[i] in rows
    ensures forall e :: e in u ==> e in batch && rows[e].event.kind in handlers
    ensures forall i :: 0 <= i < |batch| && rows[batch[i]].event.kind in handlers && replies[i].updateOk ==>
        batch[i] in u
  {
    if batch == [] then map[]
    else
      var n := |batch| - 1;
      var e := batch[n];
      assert forall x :: x in batch <==> x in batch[..n] || x == e;
      var earlier := Updates(rows, handlers, batch[..n], replies[..n], maxAttempt);
      if rows[e].event.kind in handlers && replies[n].updateOk
      then earlier[e := DispatchRow(rows[e], rows[e].attemptCount, replies[n].result, replies[n].at, maxAttempt)]
      else earlier
  }

  class Relay {
    const batchSize: nat
    const maxAttempt: nat
    var handlers: set<EventType>  // keys of the handler table
    var rows: Rows                // the committed outbox table

    constructor (batchSize: int, maxAttempt: int)
      ensures this.batchSize == if batchSize <= 0 then 100 else batchSize
      ensures this.maxAttempt == if maxAttempt <= 0 then 10 else maxAttempt
      ensures handlers == {} && rows == map[]
    {
      this.batchSize := if batchSize <= 0 then 100 else batchSize;
      this.maxAttempt := if maxAttempt <= 0 then 10 else maxAttempt;
      handlers, rows := {}, map[];
    }

    method Register(kind: EventType)
      modifies this`handlers
      ensures handlers == old(handlers) + {kind}
    {
      handlers := handlers + {kind};
    }

    /** Handle one event and collect its row update in the batch transaction. */
    method Dispatch(tx: Rows, e: EventId, attempt: nat, reply: Reply) returns (tx': Rows)
      requires e in rows && rows[e].status == RowPending
      ensures tx' == if rows[e].event.kind !in handlers || !reply.updateOk then tx
                     else tx[e := DispatchRow(rows[e], attempt, reply.result, reply.at, maxAttempt)]
      ensures rows[e].event.kind in handlers && reply.updateOk ==>
                match reply.result
                case Handled =>
                  tx' == tx[e := rows[e].(status := RowSent, attemptCount := rows[e].attemptCount + 1)]
                case SkipAttempt => tx' == tx[e := rows[e].(nextAttemptAt := reply.at + 5_000_000_000)]
                case HandlerError =>
                  var seconds := if attempt + 1 < 10 then Pow2(attempt + 1) else 600;
                  tx' == tx[e := if attempt + 1 >= maxAttempt
                                 then rows[e].(status := RowFailed, attemptCount := attempt + 1)
                                 else rows[e].(attemptCount := attempt + 1,
                                               nextAttemptAt := reply.at + 1_000_000_000 * seconds)]
    {
      tx' := tx;
      if rows[e].event.kind !in handlers {
        return;
      }
      match reply.result
      case Handled =>
        tx' := Exec(tx', e, rows[e].(status := RowSent, attemptCount := rows[e].attemptCount + 1), reply.updateOk);
      case SkipAttempt =>
        tx' := Exec(tx', e, rows[e].(nextAttemptAt := reply.at + SKIP_BACKOFF), reply.updateOk);
      case HandlerError =>
        var nextAttempt := attempt + 1;
        if nextAttempt >= maxAttempt {
          tx' := Exec(tx', e, rows[e].(status := RowFailed, attemptCount := nextAttempt), reply.updateOk);
        } else {
          var backoff := BackoffDuration(nextAttempt);
          tx' := Exec(tx', e, rows[e].(attemptCount := nextAttempt, nextAttemptAt := reply.at + backoff),
                      reply.updateOk);
        }
    }

    /** One UPDATE of a pending row; an error leaves the transaction as it was. */
    static method Exec(tx: Rows, e: EventId, row: OutboxRow, ok: bool) returns (tx': Rows)
      ensures tx' == if ok then tx[e := row] else tx
    {
      return if ok then tx[e := row] else tx;
    }

    /** The rows of the batch as read: event and attempt count. */
    method ReadBatch(batch: seq<EventId>) returns (items: seq<(EventId, nat)>)
      requires forall i :: 0 <= i < |batch| ==> batch[i] in rows
      ensures |items| == |batch|
      ensures forall i :: 0 <= i < |batch| ==> items[i] == (batch[i], rows[batch[i]].attemptCount)
    {
      items := [];
      for i := 0 to |batch|
        invariant |items| == i
        invariant forall j :: 0 <= j < i ==> items[j] == (batch[j], rows[batch[j]].attemptCount)
      {
        items := items + [(batch[i], rows[batch[i]].attemptCount)];
      }
    }

    method DispatchAll(batch: seq<EventId>, items: seq<(EventId, nat)>, replies: seq<Reply>) returns (tx: Rows)
      requires |items| == |replies| == |batch|
      requires forall i :: 0 <= i < |batch| ==> batch[i] in rows && rows[batch[i]].status == RowPending
      requires forall i :: 0 <= i < |batch| ==> items[i] == (batch[i], rows[batch[i]].attemptCount)
      ensures tx == Updates(rows, handlers, batch, replies, maxAttempt)
    {
      tx := map[];
      for i := 0 to |batch|
        invariant tx == Updates(rows, handlers, batch[..i], replies[..i], maxAttempt)
      {
        assert batch[..i + 1][..i] == batch[..i] && replies[..i + 1][..i] == replies[..i];
        tx := Dispatch(tx, items[i].0, items[i].1, replies[i]);
      }
      assert batch[..|batch|] == batch && replies[..|batch|] == replies;
    }

    /** One batch.  Rows that handlers and others commit meanwhile stay whatever happens to the batch; the collected
        updates reach the table only if the batch transaction commits. */
    method ProcessBatch(now: int, batch: seq<EventId>, replies: seq<Reply>, published: Rows, commits: bool)
      requires IsSelection(rows, now, batchSize, batch) && |replies| == |batch|
      requires published.Keys !! rows.Keys
      modifies this`rows
      ensures rows == old(rows) + published
                      + if commits then Updates(old(rows), handlers, batch, replies, maxAttempt) else map[]
    {
      assert forall i :: 0 <= i < |batch| ==> Due(rows, batch[i], now) && batch[i] in rows;
      var items := ReadBatch(batch);
      var tx := DispatchAll(batch, items, replies);
      rows := rows + published;
      if commits {
        rows := rows + tx;
      } else {
        assert rows == rows + map[];
      }
    }
  }

  /** The updates hold one for e if its kind has a handler and the update works, and then it is that of its reply. */
  ghost predicate UpdateIs(rows: Rows, handlers: set<EventType>, u: Rows, e: EventId, reply: Reply, maxAttempt: nat) {
    && e in rows && (e in u <==> rows[e].event.kind in handlers && reply.updateOk)
    && (e in u ==> u[e] == DispatchRow(rows[e], rows[e].attemptCount, reply.result, reply.at, maxAttempt))
  }

  /** Each row of a batch gets the update of its own reply. */
  lemma {:induction false} UpdatesAt(rows: Rows, handlers: set<EventType>, batch: seq<EventId>, replies: seq<Reply>,
                                     maxAttempt: nat, i: nat)
    requires i < |replies| == |batch| && forall j :: 0 <= j < |batch| ==> batch[j] in rows
    requires forall j, k :: 0 <= j < k < |batch| ==> batch[j] != batch[k]
    ensures UpdateIs(rows, handlers, Updates(rows, handlers, batch, replies, maxAttempt), batch[i], replies[i],
                     maxAttempt)
  {
    var n := |batch| - 1;
    assert batch[n] !in batch[..n];
    if i < n {
      UpdatesAt(rows, handlers, batch[..n], replies[..n], maxAttempt, i);
      assert batch[..n][i] == batch[i] && replies[..n][i] == replies[i];
    }
  }

  // ---------- how long a due event waits ----------

  /** One committed batch of a single worker, and the rows that others publish until the next one. */
  datatype Round = Round(now: int, batch: seq<EventId>, replies: seq<Reply>, published: Rows)

  function AfterRound(rows: Rows, handlers: set<EventType>, r: Round, maxAttempt: nat): Rows
    requires |r.replies| == |r.batch| && forall i :: 0 <= i < |r.batch| ==> r.batch[i] in rows
  {
    rows + r.published + Updates(rows, handlers, r.batch, r.replies, maxAttempt)
  }

  /** A published row has a new id, and next_attempt_at = its publication time, which the clock puts after the query. */
  ghost predicate ValidRound(rows: Rows, r: Round, batchSize: nat) {
    && IsSelection(rows, r.now, batchSize, r.batch)
    && |r.replies| == |r.batch|
    && (forall i :: 0 <= i < |r.replies| ==> r.replies[i].at >= r.now)
    && (forall e :: e in r.published ==> e !in rows && r.published[e].nextAttemptAt > r.now)
  }

  ghost predicate ValidRounds(rows: Rows, handlers: set<EventType>, rounds: seq<Round>, batchSize: nat, maxAttempt: nat)
    decreases |rounds|
  {
    rounds == [] || (
      && ValidRound(rows, rounds[0], batchSize)
      && (|rounds| > 1 ==> rounds[0].now <= rounds[1].now)
      && ValidRounds(AfterRound(rows, handlers, rounds[0], maxAttempt), handlers, rounds[1..], batchSize, maxAttempt))
  }

  /** No row update fails. */
  predicate AllStored(r: Round) {
    forall i :: 0 <= i < |r.replies| ==> r.replies[i].updateOk
  }

  /** Pending rows, other than the target, that the query may put before it; with or without a handler. */
  function Before(rows: Rows, handlers: set<EventType>, target: EventId, handled: bool): set<EventId>
    requires target in rows
  {
    set e | e in rows && e != target && rows[e].status == RowPending
            && rows[e].nextAttemptAt <= rows[target].nextAttemptAt && (rows[e].event.kind in handlers) == handled
  }

  lemma {:induction false} UpdatedMoveBack(rows: Rows, handlers: set<EventType>, batch: seq<EventId>,
                                           replies: seq<Reply>, maxAttempt: nat, now: int)
    requires |replies| == |batch|
    requires forall i :: 0 <= i < |batch| ==> batch[i] in rows && rows[batch[i]].status == RowPending
    requires forall i :: 0 <= i < |replies| ==> replies[i].at >= now
    ensures var u := Updates(rows, handlers, batch, replies, maxAttempt);
            forall e :: e in u ==>
              u[e].event == rows[e].event && (u[e].status == RowPending ==> u[e].nextAttemptAt > now)
  {
    if batch != [] {
      var n := |batch| - 1;
      UpdatedMoveBack(rows, handlers, batch[..n], replies[..n], maxAttempt, now);
      BackoffGrows(0, rows[batch[n]].attemptCount + 1);
    }
  }

  function Members(batch: seq<EventId>): set<EventId> {
    set e | e in batch
  }

  lemma {:induction false} DistinctCount(batch: seq<EventId>)
    requires forall i, j :: 0 <= i < j < |batch| ==> batch[i] != batch[j]
    ensures |Members(batch)| == |batch|
  {
    if batch != [] {
      var n := |batch| - 1;
      DistinctCount(batch[..n]);
      assert batch == batch[..n] + [batch[n]];
      assert Members(batch) == Members(batch[..n]) + {batch[n]};
    }
  }

  /** If a + u rows lie before a target and a full batch of k others is taken from them, few of the `a` are left. */
  lemma CountLeft(handled: set<EventId>, unhandled: set<EventId>, chosen: set<EventId>, left: set<EventId>)
    requires chosen <= handled + unhandled && left <= handled - chosen
    ensures |left| <= |handled| - (|chosen| - |unhandled|)
  {
    SubsetSize(left, handled - chosen);
    SubsetSize(chosen - handled, unhandled);
    assert chosen == (chosen - handled) + (chosen * handled);
    assert handled == (handled - chosen) + (chosen * handled);
  }

  /** What a round does to the rows: whatever is pending and not past `now` afterwards was so before, unchanged, and
      was not a handled member of the batch. */
  lemma RoundLeaves(rows: Rows, handlers: set<EventType>, r: Round, batchSize: nat, maxAttempt: nat, e: EventId)
    requires ValidRound(rows, r, batchSize) && AllStored(r)
    ensures var rows' := AfterRound(rows, handlers, r, maxAttempt);
            && (e in rows && e !in r.batch ==> e in rows' && rows'[e] == rows[e])
            && (e in rows' && rows'[e].status == RowPending && rows'[e].nextAttemptAt <= r.now ==>
                  e in rows && rows'[e] == rows[e] && (rows[e].event.kind in handlers ==> e !in r.batch))
  {
    UpdatedMoveBack(rows, handlers, r.batch, r.replies, maxAttempt, r.now);
    if e in r.batch {
      var i :| 0 <= i < |r.batch| && r.batch[i] == e;
    }
  }

  /** A round that leaves a due target out clears at least batchSize - u handled rows from before it, and puts
      nothing new before it. */
  lemma RoundClears(rows: Rows, handlers: set<EventType>, r: Round, batchSize: nat, maxAttempt: nat, target: EventId)
    requires ValidRound(rows, r, batchSize) && AllStored(r)
    requires Due(rows, target, r.now) && target !in r.batch
    ensures var rows' := AfterRound(rows, handlers, r, maxAttempt);
            && target in rows' && rows'[target] == rows[target]
            && Before(rows', handlers, target, false) <= Before(rows, handlers, target, false)
            && |Before(rows', handlers, target, true)|
                 <= |Before(rows, handlers, target, true)| - (batchSize - |Before(rows, handlers, target, false)|)
  {
    var rows' := AfterRound(rows, handlers, r, maxAttempt);
    RoundLeaves(rows, handlers, r, batchSize, maxAttempt, target);
    var handled, unhandled := Before(rows, handlers, target, true), Before(rows, handlers, target, false);
    var chosen := Members(r.batch);
    DistinctCount(r.batch);
    forall e | e in chosen
      ensures e in handled + unhandled
    {
      var i :| 0 <= i < |r.batch| && r.batch[i] == e;
    }
    forall e | e in rows' && rows'[e].status == RowPending && rows'[e].nextAttemptAt <= r.now
      ensures e in rows && rows'[e] == rows[e] && (rows[e].event.kind in handlers ==> e !in chosen)
    {
      RoundLeaves(rows, handlers, r, batchSize, maxAttempt, e);
    }
    CountLeft(handled, unhandled, chosen, Before(rows', handlers, target, true));
  }

  lemma RoundCounts(rows: Rows, handlers: set<EventType>, r: Round, batchSize: nat, maxAttempt: nat, target: EventId,
                    slots: nat)
    requires ValidRound(rows, r, batchSize) && AllStored(r)
    requires Due(rows, target, r.now) && target !in r.batch
    requires |Before(rows, handlers, target, false)| + slots <= batchSize
    ensures var rows' := AfterRound(rows, handlers, r, maxAttempt);
            && target in rows' && rows'[target] == rows[target]
            && |Before(rows', handlers, target, false)| + slots <= batchSize
            && |Before(rows', handlers, target, true)| <= |Before(rows, handlers, target, true)| - slots
  {
    RoundClears(rows, handlers, r, batchSize, maxAttempt, target);
    var rows' := AfterRound(rows, handlers, r, maxAttempt);
    SubsetSize(Before(rows', handlers, target, false), Before(rows, handlers, target, false));
  }

  /** Batches of a single worker without database errors, the first of them not before `now`. */
  ghost predicate Schedule(rows: Rows, handlers: set<EventType>, rounds: seq<Round>, batchSize: nat, maxAttempt: nat,
                           now: int) {
    && (rounds != [] ==> now <= rounds[0].now)
    && ValidRounds(rows, handlers, rounds, batchSize, maxAttempt)
    && forall j :: 0 <= j < |rounds| ==> AllStored(rounds[j])
  }

  lemma ScheduleRest(rows: Rows, handlers: set<EventType>, rounds: seq<Round>, batchSize: nat, maxAttempt: nat,
                     now: int)
    requires Schedule(rows, handlers, rounds, batchSize, maxAttempt, now) && rounds != []
    ensures ValidRound(rows, rounds[0], batchSize) && AllStored(rounds[0]) && now <= rounds[0].now
    ensures Schedule(AfterRound(rows, handlers, rounds[0], maxAttempt), handlers, rounds[1..], batchSize, maxAttempt,
                     rounds[0].now)
  {
  }

  lemma OneMoreLeftOut(later: nat, slots: nat, left: nat, before: nat)
    requires later * slots <= left && left <= before - slots
    ensures (later + 1) * slots <= before
  {
    assert (later + 1) * slots == later * slots + slots;
  }

  ghost predicate PickedAt(rounds: seq<Round>, i: nat, target: EventId) {
    i < |rounds| ==> target in rounds[i].batch
  }

  /** At most `handled` / `slots` batches leave the target out. */
  ghost predicate WaitsFor(rounds: seq<Round>, i: nat, target: EventId, slots: nat, handled: nat) {
    i <= |rounds| && PickedAt(rounds, i, target) && i * slots <= handled
  }

  lemma WaitsOneMore(rounds: seq<Round>, later: nat, target: EventId, slots: nat, left: nat, before: nat)
    requires rounds != [] && WaitsFor(rounds[1..], later, target, slots, left) && left <= before - slots
    ensures WaitsFor(rounds, later + 1, target, slots, before)
  {
    OneMoreLeftOut(later, slots, left, before);
    assert later < |rounds[1..]| ==> rounds[1..][later] == rounds[later + 1];
  }

  /** The rows after a first batch that leaves the target out: `slots` handled rows fewer lie before it. */
  lemma LeftOutOnce(rows: Rows, handlers: set<EventType>, rounds: seq<Round>, batchSize: nat, maxAttempt: nat,
                    target: EventId, now: int, slots: nat) returns (rows': Rows)
    requires Due(rows, target, now) && Schedule(rows, handlers, rounds, batchSize, maxAttempt, now)
    requires |Before(rows, handlers, target, false)| + slots <= batchSize
    requires rounds != [] && target !in rounds[0].batch
    ensures Due(rows', target, rounds[0].now)
    ensures Schedule(rows', handlers, rounds[1..], batchSize, maxAttempt, rounds[0].now)
    ensures |Before(rows', handlers, target, false)| + slots <= batchSize
    ensures |Before(rows', handlers, target, true)| <= |Before(rows, handlers, target, true)| - slots
  {
    rows' := AfterRound(rows, handlers, rounds[0], maxAttempt);
    ScheduleRest(rows, handlers, rounds, batchSize, maxAttempt, now);
    RoundCounts(rows, handlers, rounds[0], batchSize, maxAttempt, target, slots);
  }

  /** `slots` places of every batch are free of unhandled rows: each of the first i batches that leave the target out
      takes that many handled rows from before it. */
  lemma {:induction false} WaitInBatches(rows: Rows, handlers: set<EventType>, rounds: seq<Round>, batchSize: nat,
                                         maxAttempt: nat, target: EventId, now: int, slots: nat) returns (i: nat)
    requires Due(rows, target, now) && Schedule(rows, handlers, rounds, batchSize, maxAttempt, now)
    requires |Before(rows, handlers, target, false)| + slots <= batchSize
    ensures WaitsFor(rounds, i, target, slots, |Before(rows, handlers, target, true)|)
    decreases |rounds|
  {
    if rounds == [] || target in rounds[0].batch {
      i := 0;
    } else {
      var rows' := LeftOutOnce(rows, handlers, rounds, batchSize, maxAttempt, target, now, slots);
      var rest := rounds[1..];
      var later := WaitInBatches(rows', handlers, rest, batchSize, maxAttempt, target, rounds[0].now, slots);
      WaitsOneMore(rounds, later, target, slots, |Before(rows', handlers, target, true)|,
                   |Before(rows, handlers, target, true)|);
      i := later + 1;
    }
  }

  ghost predicate PickedWithin(rounds: seq<Round>, target: EventId, last: int) {
    exists i :: 0 <= i < |rounds| && i <= last && target in rounds[i].batch
  }

  /** Bounded wait: with `a` handled and `u` < batchSize unhandled rows before it, a due event is dispatched within
      a / (batchSize - u) + 1 batches. */
  lemma BoundedWait(rows: Rows, handlers: set<EventType>, rounds: seq<Round>, batchSize: nat, maxAttempt: nat,
                    target: EventId, now: int)
    requires Due(rows, target, now) && Schedule(rows, handlers, rounds, batchSize, maxAttempt, now)
    ensures var a, u := |Before(rows, handlers, target, true)|, |Before(rows, handlers, target, false)|;
            u < batchSize && |rounds| > a / (batchSize - u) ==> PickedWithin(rounds, target, a / (batchSize - u))
  {
    var a, u := |Before(rows, handlers, target, true)|, |Before(rows, handlers, target, false)|;
    if u < batchSize {
      var slots: nat := batchSize - u;
      var i := WaitInBatches(rows, handlers, rounds, batchSize, maxAttempt, target, now, slots);
      assert i <= a / slots by { QuotientBound(i, slots, a); }
    }
  }

  // ---------- and when it waits for ever ----------

  lemma {:induction false} Earliest(rows: Rows, c: set<EventId>) returns (m: EventId)
    requires c != {} && forall e :: e in c ==> e in rows
    ensures m in c && forall e :: e in c ==> rows[m].nextAttemptAt <= rows[e].nextAttemptAt
    decreases |c|
  {
    m := Pick(c);
    var first := m;
    if e :| e in c && rows[e].nextAttemptAt < rows[first].nextAttemptAt {
      var better := set x | x in c && rows[x].nextAttemptAt < rows[first].nextAttemptAt;
      assert e in better && first !in better;
      SubsetSize(better, c - {first});
      m := Earliest(rows, better);
    }
  }

  /** The first rows of a set in the query's order. */
  ghost predicate FirstOf(rows: Rows, c: set<EventId>, limit: nat, batch: seq<EventId>) {
    && (forall i :: 0 <= i < |batch| ==> batch[i] in c && batch[i] in rows)
    && (forall i, j :: 0 <= i < j < |batch| ==>
          batch[i] != batch[j] && rows[batch[i]].nextAttemptAt <= rows[batch[j]].nextAttemptAt)
    && |batch| <= limit
    && (forall e, i :: e in c && e in rows && e !in batch && 0 <= i < |batch| ==>
          rows[batch[i]].nextAttemptAt <= rows[e].nextAttemptAt)
    && (|batch| == limit || forall e :: e in c ==> e in batch)
  }

  lemma {:induction false} FirstRows(rows: Rows, c: set<EventId>, limit: nat) returns (batch: seq<EventId>)
    requires forall e :: e in c ==> e in rows
    ensures FirstOf(rows, c, limit, batch)
    decreases limit
  {
    if limit == 0 || c == {} {
      batch := [];
    } else {
      var m := Earliest(rows, c);
      var rest := FirstRows(rows, c - {m}, limit - 1);
      batch := [m] + rest;
      assert forall i :: 0 < i < |batch| ==> batch[i] == rest[i - 1];
      assert forall e :: e in c && e !in batch ==> e in c - {m} && e !in rest;
      assert |rest| < limit - 1 ==> forall e :: e in c ==> e == m || e in rest;
    }
  }

  /** If at least `limit` rows of the set come no later than a time, so do its first `limit` rows. */
  lemma FirstComeEarly(rows: Rows, c: set<EventId>, early: set<EventId>, limit: nat, batch: seq<EventId>, time: int)
    requires FirstOf(rows, c, limit, batch) && early <= c && |early| >= limit
    requires forall e :: e in c ==> e in rows
    requires forall e :: e in early ==> rows[e].nextAttemptAt <= time
    ensures |batch| == limit && forall i :: 0 <= i < |batch| ==> rows[batch[i]].nextAttemptAt <= time
  {
    var members := Members(batch);
    DistinctCount(batch);
    if |batch| < limit {
      forall e | e in early
        ensures e in members
      {
        assert e in batch;
      }
      SubsetSize(early, members);
      assert false;
    }
    if i :| 0 <= i < |batch| && rows[batch[i]].nextAttemptAt > time {
      var late := batch[i];
      forall e | e in early
        ensures e in members - {late}
      {
        assert e in c && rows[e].nextAttemptAt < rows[late].nextAttemptAt;
        assert e in batch;
      }
      assert late in members;
      SubsetSize(early, members - {late});
      assert false;
    }
  }

  /** With batchSize unhandled rows before the target, ties included, the query may leave the target out. */
  lemma MayLeaveOut(rows: Rows, handlers: set<EventType>, batchSize: nat, target: EventId, now: int)
    returns (batch: seq<EventId>)
    requires Due(rows, target, now) && |Before(rows, handlers, target, false)| >= batchSize
    ensures IsSelection(rows, now, batchSize, batch) && target !in batch
  {
    var others := set e | e in rows && e != target && Due(rows, e, now);
    batch := FirstRows(rows, others, batchSize);
    FirstComeEarly(rows, others, Before(rows, handlers, target, false), batchSize, batch, rows[target].nextAttemptAt);
  }

  /** A batch that leaves the target out leaves it and the unhandled rows before it as they are. */
  lemma LeftOutRound(rows: Rows, handlers: set<EventType>, r: Round, batchSize: nat, maxAttempt: nat, target: EventId)
    requires ValidRound(rows, r, batchSize) && target in rows && target !in r.batch
    ensures var rows' := AfterRound(rows, handlers, r, maxAttempt);
            && target in rows' && rows'[target] == rows[target]
            && |Before(rows', handlers, target, false)| >= |Before(rows, handlers, target, false)|
  {
    var before, rows' := Before(rows, handlers, target, false), AfterRound(rows, handlers, r, maxAttempt);
    assert target in rows' && rows'[target] == rows[target];
    forall e | e in before
      ensures e in Before(rows', handlers, target, false)
    {
      assert e !in Updates(rows, handlers, r.batch, r.replies, maxAttempt) && e !in r.published;
    }
    SubsetSize(before, Before(rows', handlers, target, false));
  }

  /** One batch that leaves the target out, with as many unhandled rows before it as ever. */
  lemma StarvesOnce(rows: Rows, handlers: set<EventType>, batchSize: nat, maxAttempt: nat, target: EventId, now: int)
    returns (r: Round, rows': Rows)
    requires Due(rows, target, now) && |Before(rows, handlers, target, false)| >= batchSize
    ensures r.now == now && target !in r.batch && ValidRound(rows, r, batchSize) && AllStored(r)
    ensures rows' == AfterRound(rows, handlers, r, maxAttempt)
    ensures Due(rows', target, now + 1) && |Before(rows', handlers, target, false)| >= batchSize
  {
    var batch := MayLeaveOut(rows, handlers, batchSize, target, now);
    r := Round(now, batch, seq(|batch|, i => Reply(Handled, now, true)), map[]);
    LeftOutRound(rows, handlers, r, batchSize, maxAttempt, target);
    rows' := AfterRound(rows, handlers, r, maxAttempt);
  }

  /** Then no number of batches is enough: some schedule of any length never picks the target. */
  lemma {:induction false} StarvingSchedule(rows: Rows, handlers: set<EventType>, batchSize: nat, maxAttempt: nat,
                                            target: EventId, now: int, n: nat) returns (rounds: seq<Round>)
    requires Due(rows, target, now) && |Before(rows, handlers, target, false)| >= batchSize
    ensures |rounds| == n && Schedule(rows, handlers, rounds, batchSize, maxAttempt, now)
    ensures n > 0 ==> rounds[0].now == now
    ensures forall i :: 0 <= i < n ==> target !in rounds[i].batch
    decreases n
  {
    if n == 0 {
      rounds := [];
    } else {
      var r, rows' := StarvesOnce(rows, handlers, batchSize, maxAttempt, target, now);
      var rest := StarvingSchedule(rows', handlers, batchSize, maxAttempt, target, now + 1, n - 1);
      ScheduleGrows(rows, handlers, r, rest, batchSize, maxAttempt, now + 1);
      rounds := [r] + rest;
    }
  }

  lemma ScheduleGrows(rows: Rows, handlers: set<EventType>, r: Round, rest: seq<Round>, batchSize: nat, maxAttempt: nat,
                      later: int)
    requires ValidRound(rows, r, batchSize) && AllStored(r) && r.now <= later
    requires Schedule(AfterRound(rows, handlers, r, maxAttempt), handlers, rest, batchSize, maxAttempt, later)
    ensures Schedule(rows, handlers, [r] + rest, batchSize, maxAttempt, r.now)
  {
    assert ([r] + rest)[1..] == rest;
  }

  /** A due event is sure to be dispatched, within some number of batches, if and only if fewer than batchSize pending
      rows without a handler lie before it, ties included. */
  lemma ServedIff(rows: Rows, handlers: set<EventType>, batchSize: nat, maxAttempt: nat, target: EventId, now: int)
    requires Due(rows, target, now)
    ensures |Before(rows, handlers, target, false)| < batchSize <==>
            exists n: nat :: SureWithin(rows, handlers, batchSize, maxAttempt, target, now, n)
  {
    var a, u := |Before(rows, handlers, target, true)|, |Before(rows, handlers, target, false)|;
    if u < batchSize {
      var slots: nat := batchSize - u;
      assert a / slots >= 0 by { QuotientBound(0, slots, a); }
      var n: nat := a / slots;
      forall rounds | |rounds| > n && Schedule(rows, handlers, rounds, batchSize, maxAttempt, now)
        ensures PickedWithin(rounds, target, n)
      {
        BoundedWait(rows, handlers, rounds, batchSize, maxAttempt, target, now);
      }
      assert SureWithin(rows, handlers, batchSize, maxAttempt, target, now, n);
    } else {
      forall n: nat
        ensures !SureWithin(rows, handlers, batchSize, maxAttempt, target, now, n)
      {
        var rounds := StarvingSchedule(rows, handlers, batchSize, maxAttempt, target, now, n + 1);
        assert !PickedWithin(rounds, target, n);
      }
    }
  }

  ghost predicate SureWithin(rows: Rows, handlers: set<EventType>, batchSize: nat, maxAttempt: nat, target: EventId,
                             now: int, n: nat) {
    forall rounds ::
      |rounds| > n && Schedule(rows, handlers, rounds, batchSize, maxAttempt, now) ==> PickedWithin(rounds, target, n)
  }

  /** Pending rows without a handler strictly before the target. */
  function Overtakers(rows: Rows, handlers: set<EventType>, target: EventId): set<EventId>
    requires target in rows
  {
    set e | e in rows && rows[e].status == RowPending && rows[e].event.kind !in handlers
            && rows[e].nextAttemptAt < rows[target].nextAttemptAt
  }

  lemma OvertakersFill(rows: Rows, handlers: set<EventType>, now: int, batchSize: nat, batch: seq<EventId>,
                       target: EventId)
    requires target in rows && |Overtakers(rows, handlers, target)| >= batchSize &&
        IsSelection(rows, now, batchSize, batch)
    ensures target !in batch
  {
    var over, members := Overtakers(rows, handlers, target), Members(batch);
    DistinctCount(batch);
    if target in batch {
      var i :| 0 <= i < |batch| && batch[i] == target;
      forall e | e in over
        ensures e in members
      {
        assert Due(rows, e, now) && rows[e].nextAttemptAt < rows[batch[i]].nextAttemptAt;
      }
      assert target in members && over <= members - {target};
      SubsetSize(over, members - {target});
      assert false;
    }
  }

  lemma OvertakenRound(rows: Rows, handlers: set<EventType>, r: Round, batchSize: nat, maxAttempt: nat, target: EventId)
    requires target in rows && |Overtakers(rows, handlers, target)| >= batchSize && ValidRound(rows, r, batchSize)
    ensures target !in r.batch
    ensures var rows' := AfterRound(rows, handlers, r, maxAttempt);
            target in rows' && |Overtakers(rows', handlers, target)| >= batchSize
  {
    OvertakersFill(rows, handlers, r.now, batchSize, r.batch, target);
    var over, rows' := Overtakers(rows, handlers, target), AfterRound(rows, handlers, r, maxAttempt);
    assert target in rows' && rows'[target] == rows[target];
    forall e | e in over
      ensures e in Overtakers(rows', handlers, target)
    {
      assert e !in Updates(rows, handlers, r.batch, r.replies, maxAttempt) && e !in r.published;
    }
    SubsetSize(over, Overtakers(rows', handlers, target));
  }

  /** If batchSize of them lie strictly before the target, no schedule whatever picks it, though other rows may still be
      served.  Between the two conditions only ties decide: the order in which the database returns them. */
  lemma {:induction false} OvertakenStarves(rows: Rows, handlers: set<EventType>, rounds: seq<Round>, batchSize: nat,
                                            maxAttempt: nat, target: EventId)
    requires target in rows && |Overtakers(rows, handlers, target)| >= batchSize
    requires ValidRounds(rows, handlers, rounds, batchSize, maxAttempt)
    ensures forall i :: 0 <= i < |rounds| ==> target !in rounds[i].batch
    decreases |rounds|
  {
    if rounds != [] {
      OvertakenRound(rows, handlers, rounds[0], batchSize, maxAttempt, target);
      OvertakenStarves(AfterRound(rows, handlers, rounds[0], maxAttempt), handlers, rounds[1..], batchSize, maxAttempt,
                       target);
      assert forall i :: 0 < i < |rounds| ==> rounds[i] == rounds[1..][i - 1];
    }
  }

  /** batchSize pending rows without a handler, all due, strictly before every other pending row. */
  ghost predicate Blocked(rows: Rows, handlers: set<EventType>, blockers: set<EventId>, batchSize: nat, now: int) {
    && |blockers| == batchSize
    && (forall b :: b in blockers ==> Due(rows, b, now) && rows[b].event.kind !in handlers)
    && (forall b, e :: b in blockers && e in rows && rows[e].status == RowPending && e !in blockers ==>
          rows[b].nextAttemptAt < rows[e].nextAttemptAt)
  }

  lemma {:induction false} NothingUpdated(rows: Rows, handlers: set<EventType>, batch: seq<EventId>,
                                          replies: seq<Reply>, maxAttempt: nat)
    requires |replies| == |batch|
    requires forall i :: 0 <= i < |batch| ==> batch[i] in rows && rows[batch[i]].event.kind !in handlers
    ensures Updates(rows, handlers, batch, replies, maxAttempt) == map[]
  {
    if batch != [] {
      NothingUpdated(rows, handlers, batch[..|batch| - 1], replies[..|batch| - 1], maxAttempt);
    }
  }

  lemma BlockedRound(rows: Rows, handlers: set<EventType>, r: Round, batchSize: nat, maxAttempt: nat,
                     blockers: set<EventId>)
    requires Blocked(rows, handlers, blockers, batchSize, r.now) && ValidRound(rows, r, batchSize)
    ensures Members(r.batch) <= blockers
    ensures AfterRound(rows, handlers, r, maxAttempt) == rows + r.published
  {
    forall i | 0 <= i < |r.batch|
      ensures r.batch[i] in blockers
    {
      var e := r.batch[i];
      if e !in blockers {
        assert Due(rows, e, r.now);
        forall b | b in blockers
          ensures b in Overtakers(rows, handlers, e)
        {
          assert Due(rows, b, r.now);
        }
        SubsetSize(blockers, Overtakers(rows, handlers, e));
        OvertakersFill(rows, handlers, r.now, batchSize, r.batch, e);
        assert false;
      }
    }
    NothingUpdated(rows, handlers, r.batch, r.replies, maxAttempt);
  }

  /** The condition on unhandled rows is needed: once batchSize pending rows without a handler lie strictly before
      every other pending row, no later batch picks anything else, so no handler is ever called again. */
  lemma {:induction false} UnhandledRowsStall(rows: Rows, handlers: set<EventType>, rounds: seq<Round>, batchSize: nat,
                                              maxAttempt: nat, blockers: set<EventId>, now: int)
    requires Blocked(rows, handlers, blockers, batchSize, now)
    requires rounds != [] ==> now <= rounds[0].now
    requires ValidRounds(rows, handlers, rounds, batchSize, maxAttempt)
    ensures forall i, e :: 0 <= i < |rounds| && e in rounds[i].batch ==> e in blockers
    decreases |rounds|
  {
    if rounds != [] {
      BlockedRound(rows, handlers, rounds[0], batchSize, maxAttempt, blockers);
      UnhandledRowsStall(rows + rounds[0].published, handlers, rounds[1..], batchSize, maxAttempt, blockers,
                         rounds[0].now);
      forall i, e | 0 <= i < |rounds| && e in rounds[i].batch
        ensures e in blockers
      {
        if i == 0 {
          assert e in Members(rounds[0].batch);
        } else {
          assert e in rounds[1..][i - 1].batch;
        }
      }
    }
  }

  // ---------- such queues arise ----------

  function RelayHandlers(): set<EventType> {
    set k: EventType | Registered(k)
  }

  function PartialPayment(e: EventId): Event {
    Event(ReconciliationPartial, e, ReconciliationPayload(e, 100, 1, InvoicePartial))
  }

  /** The reconciler has told `batchSize` part payments, then a client asks for a transfer. */
  function BlockedQueue(batchSize: nat, request: Event): Rows {
    (map e: int | 0 <= e < batchSize :: NewRow(PartialPayment(e), 0))[batchSize := NewRow(request, 1)]
  }

  /** With the handlers the relay registers, a batch full of reconciliation events leaves a later transfer request
      pending for ever, whatever the batch size. */
  lemma ReconciliationBlocksTransfers(batchSize: nat, request: Event, rounds: seq<Round>, maxAttempt: nat)
    requires request.kind == TransferRequested
    requires rounds != [] ==> 1 <= rounds[0].now
    requires ValidRounds(BlockedQueue(batchSize, request), RelayHandlers(), rounds, batchSize, maxAttempt)
    ensures var rows, blockers := BlockedQueue(batchSize, request), Members(seq(batchSize, i => i));
            Blocked(rows, RelayHandlers(), blockers, batchSize, 1) && batchSize !in blockers && Due(rows, batchSize, 1)
    ensures forall i :: 0 <= i < |rounds| ==> batchSize !in rounds[i].batch
  {
    var rows, ids := BlockedQueue(batchSize, request), seq(batchSize, i => i);
    var blockers := Members(ids);
    DistinctCount(ids);
    forall b | b in blockers
      ensures 0 <= b < batchSize
    {
      var i :| 0 <= i < |ids| && ids[i] == b;
    }
    forall e: int | 0 <= e < batchSize
      ensures e in blockers
    {
      assert ids[e] == e;
    }
    UnhandledRowsStall(rows, RelayHandlers(), rounds, batchSize, maxAttempt, blockers, 1);
  }
}
