/** Outbox rows, what one dispatch does to a row, and what a whole life of dispatches does to it. */
module Outbox {
  import opened Basics
  import opened Events

  const SKIP_BACKOFF := 5 * SECOND

  // ---------- backoff arithmetic ----------

  function Pow2(n: nat): nat {
    if n == 0 then 1 else 2 * Pow2(n - 1)
  }

  lemma {:induction false} Pow2Monotone(m: nat, n: nat)
    requires m <= n
    ensures Pow2(m) <= Pow2(n)
  {
    if m < n {
      Pow2Monotone(m, n - 1);
    }
  }

  lemma Pow2Values()
    ensures Pow2(9) == 512 && Pow2(10) == 1024 && Pow2(30) == 0x4000_0000
  {
    assert Pow2(5) == 32;
    assert Pow2(10) == 1024;
    assert Pow2(15) == 0x8000;
    assert Pow2(20) == 0x10_0000;
    assert Pow2(25) == 0x200_0000;
  }

  /** min(2^attempt, 600) seconds. */
  function Backoff(attempt: int): int {
    if attempt <= 0 then SECOND
    else if attempt < 10 then Pow2(attempt) * SECOND
    else 600 * SECOND
  }

  /** The clamped shift never leaves int64, and computes min(2^attempt, 600) seconds. */
  method BackoffDuration(attempt: int) returns (d: int)
    ensures d == Backoff(attempt)
    ensures attempt >= 0 ==> d == SECOND * if Pow2(attempt) <= 600 then Pow2(attempt) else 600
    ensures SECOND <= d <= 600 * SECOND
  {
    Pow2Values();
    var a := attempt;
    if a < 0 {
      a := 0;
    }
    if a > 30 {
      a := 30;
    }
    Pow2Monotone(0, a);
    Pow2Monotone(a, 30);
    assert 0 < Pow2(a) * SECOND <= MAX_INT64;
    d := Pow2(a) * SECOND;
    if d > 600 * SECOND {
      d := 600 * SECOND;
    }
    if a < 10 { Pow2Monotone(a, 9); } else { Pow2Monotone(10, a); }
    if attempt >= 10 { Pow2Monotone(10, attempt); }
  }

  lemma BackoffGrows(a: int, b: int)
    requires a <= b
    ensures SECOND <= Backoff(a) <= Backoff(b) <= 600 * SECOND
  {
    Pow2Values();
    var lo: nat, hi: nat := if a < 0 then 0 else a, if b < 0 then 0 else b;
    Pow2Monotone(0, lo);
    Pow2Monotone(lo, hi);
    if hi < 10 { Pow2Monotone(hi, 9); }
    if lo < 10 { Pow2Monotone(lo, 9); }
  }

  /** Backoff(1) + ... + Backoff(n). */
  function SumBackoff(n: nat): int {
    if n == 0 then 0 else SumBackoff(n - 1) + Backoff(n)
  }

  lemma {:induction false} SumBackoffClosedForm(maxAttempt: nat)
    requires maxAttempt >= 1
    ensures maxAttempt <= 10 ==> SumBackoff(maxAttempt - 1) == (Pow2(maxAttempt) - 2) * SECOND
    ensures maxAttempt >= 10 ==> SumBackoff(maxAttempt - 1) == (1022 + 600 * (maxAttempt - 10)) * SECOND
  {
    Pow2Values();
    if maxAttempt > 1 {
      SumBackoffClosedForm(maxAttempt - 1);
    }
  }

  // ---------- rows ----------

  datatype RowStatus = RowPending | RowSent | RowFailed

  datatype OutboxRow = OutboxRow(event: Event, status: RowStatus, attemptCount: nat, nextAttemptAt: int, createdAt: int)

  /** What Publish inserts. */
  function NewRow(event: Event, now: int): OutboxRow {
    OutboxRow(event, RowPending, 0, now, now)
  }

  datatype HandlerResult = Handled | SkipAttempt | HandlerError

  /** One dispatch, given the attempt count the batch query read. */
  function DispatchRow(row: OutboxRow, attempt: nat, result: HandlerResult, now: int, maxAttempt: nat): OutboxRow {
    if row.status != RowPending then row
    else match result
      case Handled => row.(status := RowSent, attemptCount := row.attemptCount + 1)
      case SkipAttempt => row.(nextAttemptAt := now + SKIP_BACKOFF)
      case HandlerError =>
        if attempt + 1 >= maxAttempt then row.(status := RowFailed, attemptCount := attempt + 1)
        else row.(attemptCount := attempt + 1, nextAttemptAt := now + Backoff(attempt + 1))
  }

  // ---------- a row's whole life ----------

  /** A committed dispatch outcome and the time the relay stored it. */
  datatype Attempt = Attempt(result: HandlerResult, at: int)

  /** The row after its committed dispatch outcomes, in order, starting from publication. */
  function Replay(event: Event, createdAt: int, trace: seq<Attempt>, maxAttempt: nat): OutboxRow {
    if trace == [] then NewRow(event, createdAt)
    else
      var before := Replay(event, createdAt, trace[..|trace| - 1], maxAttempt);
      var a := trace[|trace| - 1];
      DispatchRow(before, before.attemptCount, a.result, a.at, maxAttempt)
  }

  /** Each outcome was stored for a row that was pending and due. */
  ghost predicate ValidTrace(event: Event, createdAt: int, trace: seq<Attempt>, maxAttempt: nat) {
    trace == [] || (
      var before := Replay(event, createdAt, trace[..|trace| - 1], maxAttempt);
      && ValidTrace(event, createdAt, trace[..|trace| - 1], maxAttempt)
      && before.status == RowPending && before.nextAttemptAt <= trace[|trace| - 1].at)
  }

  function Counted(trace: seq<Attempt>): nat {
    if trace == [] then 0
    else Counted(trace[..|trace| - 1]) + if trace[|trace| - 1].result == SkipAttempt then 0 else 1
  }

  /** Time of the first counted failure, if any. */
  function FirstError(trace: seq<Attempt>): Option<int> {
    if trace == [] then None
    else
      var earlier := FirstError(trace[..|trace| - 1]);
      var last := trace[|trace| - 1];
      if earlier.None? && last.result == HandlerError then Some(last.at) else earlier
  }

  /** The attempt count is the number of committed outcomes other than skips, and fixes what the status can be. */
  lemma {:induction false} AttemptAccounting(event: Event, createdAt: int, trace: seq<Attempt>, maxAttempt: nat)
    requires maxAttempt >= 1 && ValidTrace(event, createdAt, trace, maxAttempt)
    ensures var r := Replay(event, createdAt, trace, maxAttempt);
            && r.event == event && r.createdAt == createdAt
            && r.attemptCount == Counted(trace)
            && (r.status == RowPending ==> r.attemptCount < maxAttempt)
            && (r.status == RowFailed ==> r.attemptCount == maxAttempt && trace[|trace| - 1].result == HandlerError)
            && (r.status == RowSent ==> 1 <= r.attemptCount <= maxAttempt && trace[|trace| - 1].result == Handled)
            && (r.status == RowSent <==> exists i :: 0 <= i < |trace| && trace[i].result == Handled)
  {
    if trace != [] {
      var before := trace[..|trace| - 1];
      AttemptAccounting(event, createdAt, before, maxAttempt);
      assert forall i :: 0 <= i < |before| ==> before[i] == trace[i];
    }
  }

  /** When a pending row is due, exactly: at its publication if it has no outcome yet, five seconds after a skipped
      attempt, min(2^n, 600) seconds after the n-th counted failure. */
  lemma {:induction false} NextDue(event: Event, createdAt: int, trace: seq<Attempt>, maxAttempt: nat)
    requires maxAttempt >= 1 && ValidTrace(event, createdAt, trace, maxAttempt)
    ensures var r := Replay(event, createdAt, trace, maxAttempt);
            r.status == RowPending ==>
              r.nextAttemptAt ==
                if trace == [] then createdAt
                else
                  var last := trace[|trace| - 1];
                  last.at + 1_000_000_000 * (if last.result == SkipAttempt then 5
                                             else if r.attemptCount < 10 then Pow2(r.attemptCount) else 600)
    ensures Replay(event, createdAt, trace, maxAttempt).status == RowPending && trace != [] ==>
              trace[|trace| - 1].result != Handled
  {
    if trace != [] {
      AttemptAccounting(event, createdAt, trace[..|trace| - 1], maxAttempt);
    }
  }

  /** A pending row is never due later than 600 seconds after its publication or latest outcome. */
  lemma DueSoon(event: Event, createdAt: int, trace: seq<Attempt>, maxAttempt: nat)
    requires maxAttempt >= 1 && ValidTrace(event, createdAt, trace, maxAttempt)
    ensures var r := Replay(event, createdAt, trace, maxAttempt);
            r.status == RowPending ==>
              r.nextAttemptAt <= (if trace == [] then createdAt else trace[|trace| - 1].at) + 600 * 1_000_000_000
  {
    NextDue(event, createdAt, trace, maxAttempt);
    var n := Replay(event, createdAt, trace, maxAttempt).attemptCount;
    if n < 10 {
      Pow2Monotone(n, 9);
      Pow2Values();
    }
  }

  /** The row has sat out the backoffs since its first counted failure; `last` is the time of its latest outcome. */
  ghost predicate Waited(r: OutboxRow, first: Option<int>, last: int, maxAttempt: nat)
    requires maxAttempt >= 1
  {
    && (r.status == RowPending ==>
          (first.None? <==> r.attemptCount == 0)
          && (first.Some? ==> r.nextAttemptAt >= first.value + SumBackoff(r.attemptCount)))
    && (r.status == RowFailed ==> first.Some? && last - first.value >= SumBackoff(maxAttempt - 1))
  }

  lemma DispatchWaits(r: OutboxRow, first: Option<int>, last: int, a: Attempt, maxAttempt: nat)
    requires maxAttempt >= 1 && Waited(r, first, last, maxAttempt)
    requires r.status == RowPending && r.attemptCount < maxAttempt && r.nextAttemptAt <= a.at
    ensures Waited(DispatchRow(r, r.attemptCount, a.result, a.at, maxAttempt),
                   if first.None? && a.result == HandlerError then Some(a.at) else first, a.at, maxAttempt)
  {
    assert SumBackoff(0) == 0;
    assert SumBackoff(r.attemptCount + 1) == SumBackoff(r.attemptCount) + Backoff(r.attemptCount + 1);
  }

  lemma {:induction false} BackoffIsWaited(event: Event, createdAt: int, trace: seq<Attempt>, maxAttempt: nat)
    requires maxAttempt >= 1 && ValidTrace(event, createdAt, trace, maxAttempt)
    ensures Waited(Replay(event, createdAt, trace, maxAttempt), FirstError(trace),
                   if trace == [] then createdAt else trace[|trace| - 1].at, maxAttempt)
  {
    if trace != [] {
      var front := trace[..|trace| - 1];
      BackoffIsWaited(event, createdAt, front, maxAttempt);
      AttemptAccounting(event, createdAt, front, maxAttempt);
      DispatchWaits(Replay(event, createdAt, front, maxAttempt), FirstError(front),
                    if front == [] then createdAt else front[|front| - 1].at, trace[|trace| - 1], maxAttempt);
    }
  }

  /** Between the first counted failure of an event and the relay giving up on it, at least the sum of the backoffs
      passes: (2^M - 2) seconds for a budget of M <= 10 attempts, 1022 + 600(M - 10) seconds above that. */
  lemma RetryTimeBound(event: Event, createdAt: int, trace: seq<Attempt>, maxAttempt: nat)
    requires maxAttempt >= 1 && ValidTrace(event, createdAt, trace, maxAttempt)
    requires Replay(event, createdAt, trace, maxAttempt).status == RowFailed
    ensures FirstError(trace).Some?
    ensures trace[|trace| - 1].at - FirstError(trace).value
         >= (if maxAttempt <= 10 then Pow2(maxAttempt) - 2 else 1022 + 600 * (maxAttempt - 10)) * SECOND
  {
    BackoffIsWaited(event, createdAt, trace, maxAttempt);
    SumBackoffClosedForm(maxAttempt);
  }
}
